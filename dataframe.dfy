/**
 A one-row pandas DataFrame, as the feature encoder builds it: an ordered list
 of distinct column labels and one cell per label.
 */
module DataFrame {

  /** A cell of the row: an integer (the age slider, the 0/1 indicators, the
      reindex fill value) or a real (the floating-point sliders). */
  datatype Cell = Int(i: int) | Real(r: real)

  /** A labelled cell, as a (column name, value) pair. */
  type Column = (string, Cell)

  /** No element occurs twice. */
  predicate Distinct<T(==)>(s: seq<T>) {
    forall i, j :: 0 <= i < j < |s| ==> s[i] != s[j]
  }

  /** The labels of a list of columns, in order. */
  function Names(cols: seq<Column>): (r: seq<string>)
    ensures |r| == |cols|
    ensures forall k :: 0 <= k < |cols| ==> r[k] == cols[k].0
  {
    if cols == [] then [] else [cols[0].0] + Names(cols[1..])
  }

  /** The cells that assigning `cols` one after the other leaves behind: a
      later assignment to the same label overwrites an earlier one. */
  function ToMap(cols: seq<Column>): (m: map<string, Cell>)
    ensures forall n :: n in m <==> n in Names(cols)
  {
    if cols == [] then map[]
    else
      var init := cols[..|cols| - 1];
      assert Names(cols) == Names(init) + [cols[|cols| - 1].0];
      ToMap(init)[cols[|cols| - 1].0 := cols[|cols| - 1].1]
  }

  /** With distinct labels, each label maps to the one cell listed under it. */
  lemma {:induction false} ToMapAt(cols: seq<Column>, k: nat)
    requires Distinct(Names(cols))
    requires k < |cols|
    ensures cols[k].0 in ToMap(cols) && ToMap(cols)[cols[k].0] == cols[k].1
  {
    var init := cols[..|cols| - 1];
    if k < |cols| - 1 {
      assert Names(init) == Names(cols)[..|cols| - 1];
      ToMapAt(init, k);
      assert cols[k].0 != cols[|cols| - 1].0 by {
        assert Names(cols)[k] != Names(cols)[|cols| - 1];
      }
    }
  }

  /** Assigning one more column after `cols` updates the cells under its label. */
  lemma ToMapSnoc(cols: seq<Column>, c: Column)
    ensures ToMap(cols + [c]) == ToMap(cols)[c.0 := c.1]
  {
    assert (cols + [c])[..|cols|] == cols;
  }

  /** Assigning a group of two or three columns after `cols`, one after the
      other. */
  lemma ToMapAppend(cols: seq<Column>, group: seq<Column>)
    requires 2 <= |group| <= 3
    ensures |group| == 2 ==>
      ToMap(cols + group) == ToMap(cols)[group[0].0 := group[0].1][group[1].0 := group[1].1]
    ensures |group| == 3 ==>
      ToMap(cols + group) == ToMap(cols)[group[0].0 := group[0].1][group[1].0 := group[1].1][group[2].0 := group[2].1]
  {
    ToMapSnoc(cols, group[0]);
    ToMapSnoc(cols + [group[0]], group[1]);
    assert cols + [group[0]] + [group[1]] == cols + group[..2];
    if |group| == 3 {
      ToMapSnoc(cols + group[..2], group[2]);
      assert cols + group[..2] + [group[2]] == cols + group;
    } else {
      assert group[..2] == group;
    }
  }

  /** Assigning, in order, the labels of a duplicate-free sequence appends
      each one in turn. */
  lemma AddLabelFresh(s: seq<string>, j: nat)
    requires Distinct(s) && j < |s|
    ensures AddLabel(s[..j], s[j]) == s[..j + 1]
  {
    assert s[j] !in s[..j];
    assert s[..j + 1] == s[..j] + [s[j]];
  }

  /** Labels of a concatenation. */
  lemma NamesAppend(a: seq<Column>, b: seq<Column>)
    ensures Names(a + b) == Names(a) + Names(b)
  {
  }

  /** Two duplicate-free sequences with no common element concatenate to a
      duplicate-free sequence. */
  lemma DistinctAppend<T>(a: seq<T>, b: seq<T>)
    requires Distinct(a) && Distinct(b)
    requires forall x :: x in a ==> x !in b
    ensures Distinct(a + b)
  {
    forall i, j | 0 <= i < j < |a + b|
      ensures (a + b)[i] != (a + b)[j]
    {
      if i < |a| <= j {
        assert (a + b)[i] in a && (a + b)[j] in b;
      }
    }
  }

  /** With distinct labels, a listed column is what the cells hold under its label. */
  lemma ToMapHas(cols: seq<Column>, c: Column)
    requires Distinct(Names(cols))
    requires c in cols
    ensures c.0 in ToMap(cols) && ToMap(cols)[c.0] == c.1
  {
    var k :| 0 <= k < |cols| && cols[k] == c;
    ToMapAt(cols, k);
  }

  /** The labels after `df[name] = ...`: an existing column keeps its place, a
      new one is appended at the right. */
  function AddLabel(labels: seq<string>, name: string): seq<string> {
    if name in labels then labels else labels + [name]
  }

  /**
   A one-row frame. `labels` is the column order, `cells` the value under each
   label. Assigning a column to a label it already has overwrites the cell in
   place; assigning a new label appends a column at the right.
   */
  class Frame {
    var labels: seq<string>
    var cells: map<string, Cell>

    ghost predicate Valid()
      reads this
    {
      && Distinct(labels)
      && forall n :: n in cells <==> n in labels
    }

    /** Build a one-row frame from a record whose fields become the columns,
        in the record's order. */
    constructor FromRecord(record: seq<Column>)
      requires Distinct(Names(record))
      ensures Valid()
      ensures labels == Names(record) && cells == ToMap(record)
    {
      labels := Names(record);
      cells := ToMap(record);
      new;
    }

    /** `df[name] = v`: broadcast the scalar `v` into column `name`. */
    method Assign(name: string, v: Cell)
      requires Valid()
      modifies this
      ensures Valid()
      ensures cells == old(cells)[name := v]
      ensures labels == AddLabel(old(labels), name)
    {
      if name !in labels {
        labels := labels + [name];
      }
      cells := cells[name := v];
    }
  }
}
