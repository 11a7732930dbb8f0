/**
 pandas' `DataFrame.reindex(columns=schema, fill_value=0)` on a one-row frame:
 the result has exactly the schema's columns, in the schema's order; a schema
 column the frame has keeps its cell, a schema column it lacks gets the fill
 value, and a frame column the schema does not name is dropped.
 */
module Reindexing {
  import opened DataFrame

  /** The cell given to a schema column the frame does not have. */
  const FillValue: Cell := Int(0)

  /** The frame with cells `m`, reindexed onto `schema`. */
  function Reindex(m: map<string, Cell>, schema: seq<string>): (row: seq<Column>)
    ensures |row| == |schema|
  {
    if schema == [] then []
    else
      var name := schema[0];
      [(name, if name in m then m[name] else FillValue)] + Reindex(m, schema[1..])
  }

  /** The k-th output column is the k-th schema column, holding the frame's
      cell under that name if there is one and the fill value otherwise. */
  lemma {:induction false} ReindexAt(m: map<string, Cell>, schema: seq<string>, k: nat)
    requires k < |schema|
    ensures Reindex(m, schema)[k].0 == schema[k]
    ensures schema[k] in m ==> Reindex(m, schema)[k].1 == m[schema[k]]
    ensures schema[k] !in m ==> Reindex(m, schema)[k].1 == FillValue
  {
    if k > 0 {
      ReindexAt(m, schema[1..], k - 1);
    }
  }

  /** The output's column labels are the schema: same names, same order, same
      length, whatever the frame holds. */
  lemma {:induction false} ReindexColumns(m: map<string, Cell>, schema: seq<string>)
    ensures Names(Reindex(m, schema)) == schema
  {
    forall k | 0 <= k < |schema|
      ensures Names(Reindex(m, schema))[k] == schema[k]
    {
      ReindexAt(m, schema, k);
    }
  }

  /** A frame column that the schema does not name is absent from the output,
      and every output label is a schema label. */
  lemma {:induction false} ReindexDrops(m: map<string, Cell>, schema: seq<string>, name: string)
    ensures name in Names(Reindex(m, schema)) <==> name in schema
  {
    ReindexColumns(m, schema);
  }

  /** A schema column the frame lacks comes out as the fill value 0, wherever
      it stands in the schema. */
  lemma {:induction false} ReindexFills(m: map<string, Cell>, schema: seq<string>, name: string)
    requires name !in m
    ensures forall k :: 0 <= k < |schema| && schema[k] == name ==> Reindex(m, schema)[k] == (name, FillValue)
  {
    forall k | 0 <= k < |schema| && schema[k] == name
      ensures Reindex(m, schema)[k] == (name, FillValue)
    {
      ReindexAt(m, schema, k);
    }
  }

  /** When the frame has every schema column, nothing is filled: every output
      column is the frame's own cell under that schema name. */
  lemma {:induction false} ReindexNoFill(m: map<string, Cell>, schema: seq<string>)
    requires forall n :: n in schema ==> n in m
    ensures forall k :: 0 <= k < |schema| ==> Reindex(m, schema)[k] == (schema[k], m[schema[k]])
  {
    forall k | 0 <= k < |schema|
      ensures Reindex(m, schema)[k] == (schema[k], m[schema[k]])
    {
      ReindexAt(m, schema, k);
    }
  }
}
