/**
 The feature encoder of the glaucoma prediction app: one patient's form inputs
 become one feature row laid out in the trained model's column schema.

 The encoding is stated once, declaratively, as a table of categorical fields
 and their levels driving a generic one-hot expansion (`EncodedColumns`); the
 app's own step-by-step construction of the frame (`PreprocessInput`) is proved
 to build exactly that row and then to project it onto the schema.
 */
module Encoder {
  import opened DataFrame
  import opened Reindexing

  /** One patient's inputs, as the form's sliders and dropdowns deliver them. */
  datatype Patient = Patient(
    age: int,
    iop: real,
    cdr: real,
    pachy: real,
    gender: string,
    visualAcuity: string,
    familyHistory: string,
    medicalHistory: string,
    cataractStatus: string,
    angleClosureStatus: string,
    diagnosis: string)

  /** A categorical field: its name and its levels, in column order. */
  datatype Field = Field(name: string, levels: seq<string>)

  /** The categorical fields with their levels, in the order the encoder
      writes their indicator columns. */
  const Categorical: seq<Field> := [
    Field("Gender", ["Female", "Male"]),
    Field("Visual Acuity Measurements", ["Normal", "Reduced"]),
    Field("Family History", ["Yes", "No"]),
    Field("Medical History", ["None", "Diabetes", "Hypertension"]),
    Field("Cataract Status", ["Yes", "No"]),
    Field("Angle Closure Status", ["Open", "Closed"]),
    Field("Diagnosis", ["Suspect", "Confirmed"])
  ]

  /** The form's dropdowns with their options in display order. */
  const Dropdowns: seq<Field> := [
    Field("Gender", ["Male", "Female"]),
    Field("Visual Acuity Measurements", ["Normal", "Reduced"]),
    Field("Family History", ["Yes", "No"]),
    Field("Medical History", ["None", "Diabetes", "Hypertension"]),
    Field("Cataract Status", ["Yes", "No"]),
    Field("Angle Closure Status", ["Open", "Closed"]),
    Field("Diagnosis", ["Suspect", "Confirmed"])
  ]

  /** The column names of the intermediate frame, as the encoder spells them. */
  const EncodedNames: seq<string> := [
    "Age", "Intraocular Pressure (IOP)", "Cup-to-Disc Ratio (CDR)", "Pachymetry",
    "Gender_Female", "Gender_Male",
    "Visual Acuity Measurements_Normal", "Visual Acuity Measurements_Reduced",
    "Family History_Yes", "Family History_No",
    "Medical History_None", "Medical History_Diabetes", "Medical History_Hypertension",
    "Cataract Status_Yes", "Cataract Status_No",
    "Angle Closure Status_Open", "Angle Closure Status_Closed",
    "Diagnosis_Suspect", "Diagnosis_Confirmed"
  ]

  /** What the form's widgets let through: each slider within its bounds and
      each dropdown on one of its options. The encoder itself checks none of it. */
  predicate ValidPatient(p: Patient) {
    && 20 <= p.age <= 90
    && 5.0 <= p.iop <= 40.0
    && 0.1 <= p.cdr <= 1.0
    && 300.0 <= p.pachy <= 700.0
    && forall i :: 0 <= i < |Dropdowns| ==> Selections(p)[i] in Dropdowns[i].levels
  }

  /** The patient's value of each categorical field, in table order. */
  function Selections(p: Patient): (s: seq<string>)
    ensures |s| == |Categorical| == |Dropdowns|
  {
    [p.gender, p.visualAcuity, p.familyHistory, p.medicalHistory,
     p.cataractStatus, p.angleClosureStatus, p.diagnosis]
  }

  /** The numeric fields, copied under their column names. */
  function NumericRecord(p: Patient): seq<Column> {
    [("Age", Int(p.age)),
     ("Intraocular Pressure (IOP)", Real(p.iop)),
     ("Cup-to-Disc Ratio (CDR)", Real(p.cdr)),
     ("Pachymetry", Real(p.pachy))]
  }

  /** The name of the indicator column of `level` in field `field`. */
  function ColumnName(field: string, level: string): string {
    field + "_" + level
  }

  /** An indicator cell: 1 when the condition holds, 0 otherwise. */
  function Indicator(b: bool): Cell {
    Int(if b then 1 else 0)
  }

  /** Full one-hot expansion of value `v` of field `f`: one indicator column
      per level, every level kept. */
  function OneHot(f: Field, v: string): (cols: seq<Column>)
    ensures |cols| == |f.levels|
  {
    seq(|f.levels|, k requires 0 <= k < |f.levels| => (ColumnName(f.name, f.levels[k]), Indicator(v == f.levels[k])))
  }

  /** The one-hot expansion of every field of `table`, field after field. */
  function Expand(table: seq<Field>, values: seq<string>): (cols: seq<Column>)
    requires |values| == |table|
  {
    if table == [] then [] else OneHot(table[0], values[0]) + Expand(table[1..], values[1..])
  }

  /** The intermediate frame's columns: the numeric fields, then the indicators. */
  function EncodedColumns(p: Patient): seq<Column> {
    NumericRecord(p) + Expand(Categorical, Selections(p))
  }

  /** The intermediate frame's cells. */
  function EncodedCells(p: Patient): map<string, Cell> {
    ToMap(EncodedColumns(p))
  }

  /** The encoder's output row for schema `expectedColumns`. */
  function Preprocess(p: Patient, expectedColumns: seq<string>): seq<Column> {
    Reindex(EncodedCells(p), expectedColumns)
  }

  /**
   The app's encoder: build the one-row frame of the numeric inputs, assign the
   fifteen indicator columns one by one, then reindex onto the model's schema
   with fill value 0. The result is the declarative encoding of the patient,
   laid out exactly in the schema's columns, whatever the schema names.
   */
  method PreprocessInput(p: Patient, expectedColumns: seq<string>) returns (row: seq<Column>)
    ensures Names(row) == expectedColumns
    ensures row == Preprocess(p, expectedColumns)
  {
    var df := EncodeFrame(p);
    row := Reindex(df.cells, expectedColumns);
    ReindexColumns(df.cells, expectedColumns);
  }

  /**
   The first part of the encoder: the frame of the numeric inputs, with the
   fifteen indicator columns assigned one by one. It ends with the 19 distinct
   columns the encoder spells out, in that order, holding the declarative
   encoding's cells.
   */
  method EncodeFrame(p: Patient) returns (df: Frame)
    ensures fresh(df) && df.Valid()
    ensures df.labels == EncodedNames
    ensures df.cells == EncodedCells(p)
  {
    NumericNamesDistinct(p);
    df := new Frame.FromRecord([
      ("Age", Int(p.age)),
      ("Intraocular Pressure (IOP)", Real(p.iop)),
      ("Cup-to-Disc Ratio (CDR)", Real(p.cdr)),
      ("Pachymetry", Real(p.pachy))
    ]);

    df.Assign("Gender_Female", Indicator(p.gender == "Female"));
    df.Assign("Gender_Male", Indicator(p.gender == "Male"));

    df.Assign("Visual Acuity Measurements_Normal", Indicator(p.visualAcuity == "Normal"));
    df.Assign("Visual Acuity Measurements_Reduced", Indicator(p.visualAcuity == "Reduced"));

    df.Assign("Family History_Yes", Indicator(p.familyHistory == "Yes"));
    df.Assign("Family History_No", Indicator(p.familyHistory == "No"));

    df.Assign("Medical History_None", Indicator(p.medicalHistory == "None"));
    df.Assign("Medical History_Diabetes", Indicator(p.medicalHistory == "Diabetes"));
    df.Assign("Medical History_Hypertension", Indicator(p.medicalHistory == "Hypertension"));

    df.Assign("Cataract Status_Yes", Indicator(p.cataractStatus == "Yes"));
    df.Assign("Cataract Status_No", Indicator(p.cataractStatus == "No"));

    df.Assign("Angle Closure Status_Open", Indicator(p.angleClosureStatus == "Open"));
    df.Assign("Angle Closure Status_Closed", Indicator(p.angleClosureStatus == "Closed"));

    df.Assign("Diagnosis_Suspect", Indicator(p.diagnosis == "Suspect"));
    df.Assign("Diagnosis_Confirmed", Indicator(p.diagnosis == "Confirmed"));

    EncodedCellsAsWritten(p);
    FrameLabelsAsWritten(p);
  }

  /** The labels the app's fifteen column assignments leave, in order, after
      the numeric columns: the encoder's 19 names. */
  lemma FrameLabelsAsWritten(p: Patient)
    ensures AddLabel(AddLabel(AddLabel(AddLabel(AddLabel(AddLabel(AddLabel(AddLabel(AddLabel(AddLabel(AddLabel(AddLabel(AddLabel(AddLabel(AddLabel(Names(NumericRecord(p)),
      "Gender_Female"),
      "Gender_Male"),
      "Visual Acuity Measurements_Normal"),
      "Visual Acuity Measurements_Reduced"),
      "Family History_Yes"),
      "Family History_No"),
      "Medical History_None"),
      "Medical History_Diabetes"),
      "Medical History_Hypertension"),
      "Cataract Status_Yes"),
      "Cataract Status_No"),
      "Angle Closure Status_Open"),
      "Angle Closure Status_Closed"),
      "Diagnosis_Suspect"),
      "Diagnosis_Confirmed") == EncodedNames
  {
    EncodedNamesAsWritten(p);
    EncodedNamesDistinct(p);
    assert Names(NumericRecord(p)) == EncodedNames[..4] by {
      NamesAppend(NumericRecord(p), Expand(Categorical, Selections(p)));
    }
    FirstLabels();
    MiddleLabels();
    LastLabels();
  }

  /** The Gender and Visual Acuity Measurements assignments append their labels in order. */
  lemma FirstLabels()
    requires Distinct(EncodedNames)
    ensures AddLabel(AddLabel(AddLabel(AddLabel(EncodedNames[..4],
        "Gender_Female"),
        "Gender_Male"),
        "Visual Acuity Measurements_Normal"),
        "Visual Acuity Measurements_Reduced") == EncodedNames[..8]
  {
    AddLabelFresh(EncodedNames, 4);
    AddLabelFresh(EncodedNames, 5);
    AddLabelFresh(EncodedNames, 6);
    AddLabelFresh(EncodedNames, 7);
  }

  /** The Family History and Medical History assignments append their labels in order. */
  lemma MiddleLabels()
    requires Distinct(EncodedNames)
    ensures AddLabel(AddLabel(AddLabel(AddLabel(AddLabel(EncodedNames[..8],
        "Family History_Yes"),
        "Family History_No"),
        "Medical History_None"),
        "Medical History_Diabetes"),
        "Medical History_Hypertension") == EncodedNames[..13]
  {
    AddLabelFresh(EncodedNames, 8);
    AddLabelFresh(EncodedNames, 9);
    AddLabelFresh(EncodedNames, 10);
    AddLabelFresh(EncodedNames, 11);
    AddLabelFresh(EncodedNames, 12);
  }

  /** The Cataract Status, Angle Closure Status and Diagnosis assignments append their labels in order. */
  lemma LastLabels()
    requires Distinct(EncodedNames)
    ensures AddLabel(AddLabel(AddLabel(AddLabel(AddLabel(AddLabel(EncodedNames[..13],
        "Cataract Status_Yes"),
        "Cataract Status_No"),
        "Angle Closure Status_Open"),
        "Angle Closure Status_Closed"),
        "Diagnosis_Suspect"),
        "Diagnosis_Confirmed") == EncodedNames
  {
    AddLabelFresh(EncodedNames, 13);
    AddLabelFresh(EncodedNames, 14);
    AddLabelFresh(EncodedNames, 15);
    AddLabelFresh(EncodedNames, 16);
    AddLabelFresh(EncodedNames, 17);
    AddLabelFresh(EncodedNames, 18);
    assert EncodedNames[..19] == EncodedNames;
  }

  /** The intermediate frame's cells are those the app's fifteen column
      assignments leave on top of the numeric record. */
  lemma EncodedCellsAsWritten(p: Patient)
    ensures EncodedCells(p) == ToMap(NumericRecord(p))
      ["Gender_Female" := Indicator(p.gender == "Female")]
      ["Gender_Male" := Indicator(p.gender == "Male")]
      ["Visual Acuity Measurements_Normal" := Indicator(p.visualAcuity == "Normal")]
      ["Visual Acuity Measurements_Reduced" := Indicator(p.visualAcuity == "Reduced")]
      ["Family History_Yes" := Indicator(p.familyHistory == "Yes")]
      ["Family History_No" := Indicator(p.familyHistory == "No")]
      ["Medical History_None" := Indicator(p.medicalHistory == "None")]
      ["Medical History_Diabetes" := Indicator(p.medicalHistory == "Diabetes")]
      ["Medical History_Hypertension" := Indicator(p.medicalHistory == "Hypertension")]
      ["Cataract Status_Yes" := Indicator(p.cataractStatus == "Yes")]
      ["Cataract Status_No" := Indicator(p.cataractStatus == "No")]
      ["Angle Closure Status_Open" := Indicator(p.angleClosureStatus == "Open")]
      ["Angle Closure Status_Closed" := Indicator(p.angleClosureStatus == "Closed")]
      ["Diagnosis_Suspect" := Indicator(p.diagnosis == "Suspect")]
      ["Diagnosis_Confirmed" := Indicator(p.diagnosis == "Confirmed")]
  {
    var t, v := Categorical, Selections(p);
    var n := NumericRecord(p);
    var o0, o1, o2, o3 := OneHot(t[0], v[0]), OneHot(t[1], v[1]), OneHot(t[2], v[2]), OneHot(t[3], v[3]);
    var o4, o5, o6 := OneHot(t[4], v[4]), OneHot(t[5], v[5]), OneHot(t[6], v[6]);
    ExpandSeven(t, v);
    Flatten(n, o0, o1, o2, o3, o4, o5, o6);
    ToMapAppend(n, o0);
    ToMapAppend(n + o0, o1);
    ToMapAppend(n + o0 + o1, o2);
    ToMapAppend(n + o0 + o1 + o2, o3);
    ToMapAppend(n + o0 + o1 + o2 + o3, o4);
    ToMapAppend(n + o0 + o1 + o2 + o3 + o4, o5);
    ToMapAppend(n + o0 + o1 + o2 + o3 + o4 + o5, o6);
    GenderIndicators(p);
    VisualAcuityIndicators(p);
    FamilyHistoryIndicators(p);
    MedicalHistoryIndicators(p);
    CataractStatusIndicators(p);
    AngleClosureStatusIndicators(p);
    DiagnosisIndicators(p);
  }

  /** The declarative encoding lists exactly the columns the app writes, in
      its order, under the names it spells out and with the values it assigns:
      the four numeric inputs, then each field's indicator group. */
  lemma EncodedColumnsAsWritten(p: Patient)
    ensures EncodedColumns(p) == NumericRecord(p)
      + [
          ("Gender_Female", Indicator(p.gender == "Female")),
          ("Gender_Male", Indicator(p.gender == "Male"))]
      + [
          ("Visual Acuity Measurements_Normal", Indicator(p.visualAcuity == "Normal")),
          ("Visual Acuity Measurements_Reduced", Indicator(p.visualAcuity == "Reduced"))]
      + [
          ("Family History_Yes", Indicator(p.familyHistory == "Yes")),
          ("Family History_No", Indicator(p.familyHistory == "No"))]
      + [
          ("Medical History_None", Indicator(p.medicalHistory == "None")),
          ("Medical History_Diabetes", Indicator(p.medicalHistory == "Diabetes")),
          ("Medical History_Hypertension", Indicator(p.medicalHistory == "Hypertension"))]
      + [
          ("Cataract Status_Yes", Indicator(p.cataractStatus == "Yes")),
          ("Cataract Status_No", Indicator(p.cataractStatus == "No"))]
      + [
          ("Angle Closure Status_Open", Indicator(p.angleClosureStatus == "Open")),
          ("Angle Closure Status_Closed", Indicator(p.angleClosureStatus == "Closed"))]
      + [
          ("Diagnosis_Suspect", Indicator(p.diagnosis == "Suspect")),
          ("Diagnosis_Confirmed", Indicator(p.diagnosis == "Confirmed"))]
  {
    var t, v := Categorical, Selections(p);
    ExpandSeven(t, v);
    Flatten(NumericRecord(p), OneHot(t[0], v[0]), OneHot(t[1], v[1]), OneHot(t[2], v[2]),
      OneHot(t[3], v[3]), OneHot(t[4], v[4]), OneHot(t[5], v[5]), OneHot(t[6], v[6]));
    GenderIndicators(p);
    VisualAcuityIndicators(p);
    FamilyHistoryIndicators(p);
    MedicalHistoryIndicators(p);
    CataractStatusIndicators(p);
    AngleClosureStatusIndicators(p);
    DiagnosisIndicators(p);
  }

  /** The expansion of a seven-field table, field by field. */
  lemma ExpandSeven(t: seq<Field>, v: seq<string>)
    requires |t| == |v| == 7
    ensures Expand(t, v) == OneHot(t[0], v[0]) + (OneHot(t[1], v[1]) + (OneHot(t[2], v[2])
      + (OneHot(t[3], v[3]) + (OneHot(t[4], v[4]) + (OneHot(t[5], v[5]) + OneHot(t[6], v[6]))))))
  {
    assert Expand(t[7..], v[7..]) == [];
    ExpandFrom(t, v, 6);
    ExpandFrom(t, v, 5);
    ExpandFrom(t, v, 4);
    ExpandFrom(t, v, 3);
    ExpandFrom(t, v, 2);
    ExpandFrom(t, v, 1);
    ExpandFrom(t, v, 0);
    assert t[0..] == t && v[0..] == v;
  }

  /** Regrouping a concatenation of eight sequences from the right to the left. */
  lemma Flatten<T>(a: seq<T>, b0: seq<T>, b1: seq<T>, b2: seq<T>, b3: seq<T>, b4: seq<T>, b5: seq<T>, b6: seq<T>)
    ensures a + (b0 + (b1 + (b2 + (b3 + (b4 + (b5 + b6)))))) == a + b0 + b1 + b2 + b3 + b4 + b5 + b6
  {
  }

  /** The Gender indicators, as the app assigns them. */
  lemma GenderIndicators(p: Patient)
    ensures OneHot(Categorical[0], Selections(p)[0]) == [
      ("Gender_Female", Indicator(p.gender == "Female")),
      ("Gender_Male", Indicator(p.gender == "Male"))]
  {
    OneHotTwo(Categorical[0], p.gender, "Female", "Male");
    assert ColumnName("Gender", "Female") == "Gender_Female";
    assert ColumnName("Gender", "Male") == "Gender_Male";
  }

  /** The Visual Acuity Measurements indicators, as the app assigns them. */
  lemma VisualAcuityIndicators(p: Patient)
    ensures OneHot(Categorical[1], Selections(p)[1]) == [
      ("Visual Acuity Measurements_Normal", Indicator(p.visualAcuity == "Normal")),
      ("Visual Acuity Measurements_Reduced", Indicator(p.visualAcuity == "Reduced"))]
  {
    OneHotTwo(Categorical[1], p.visualAcuity, "Normal", "Reduced");
    assert ColumnName("Visual Acuity Measurements", "Normal") == "Visual Acuity Measurements_Normal";
    assert ColumnName("Visual Acuity Measurements", "Reduced") == "Visual Acuity Measurements_Reduced";
  }

  /** The Family History indicators, as the app assigns them. */
  lemma FamilyHistoryIndicators(p: Patient)
    ensures OneHot(Categorical[2], Selections(p)[2]) == [
      ("Family History_Yes", Indicator(p.familyHistory == "Yes")),
      ("Family History_No", Indicator(p.familyHistory == "No"))]
  {
    OneHotTwo(Categorical[2], p.familyHistory, "Yes", "No");
    assert ColumnName("Family History", "Yes") == "Family History_Yes";
    assert ColumnName("Family History", "No") == "Family History_No";
  }

  /** The Medical History indicators, as the app assigns them. */
  lemma MedicalHistoryIndicators(p: Patient)
    ensures OneHot(Categorical[3], Selections(p)[3]) == [
      ("Medical History_None", Indicator(p.medicalHistory == "None")),
      ("Medical History_Diabetes", Indicator(p.medicalHistory == "Diabetes")),
      ("Medical History_Hypertension", Indicator(p.medicalHistory == "Hypertension"))]
  {
    OneHotThree(Categorical[3], p.medicalHistory, "None", "Diabetes", "Hypertension");
    assert ColumnName("Medical History", "None") == "Medical History_None";
    assert ColumnName("Medical History", "Diabetes") == "Medical History_Diabetes";
    assert ColumnName("Medical History", "Hypertension") == "Medical History_Hypertension";
  }

  /** The Cataract Status indicators, as the app assigns them. */
  lemma CataractStatusIndicators(p: Patient)
    ensures OneHot(Categorical[4], Selections(p)[4]) == [
      ("Cataract Status_Yes", Indicator(p.cataractStatus == "Yes")),
      ("Cataract Status_No", Indicator(p.cataractStatus == "No"))]
  {
    OneHotTwo(Categorical[4], p.cataractStatus, "Yes", "No");
    assert ColumnName("Cataract Status", "Yes") == "Cataract Status_Yes";
    assert ColumnName("Cataract Status", "No") == "Cataract Status_No";
  }

  /** The Angle Closure Status indicators, as the app assigns them. */
  lemma AngleClosureStatusIndicators(p: Patient)
    ensures OneHot(Categorical[5], Selections(p)[5]) == [
      ("Angle Closure Status_Open", Indicator(p.angleClosureStatus == "Open")),
      ("Angle Closure Status_Closed", Indicator(p.angleClosureStatus == "Closed"))]
  {
    OneHotTwo(Categorical[5], p.angleClosureStatus, "Open", "Closed");
    assert ColumnName("Angle Closure Status", "Open") == "Angle Closure Status_Open";
    assert ColumnName("Angle Closure Status", "Closed") == "Angle Closure Status_Closed";
  }

  /** The Diagnosis indicators, as the app assigns them. */
  lemma DiagnosisIndicators(p: Patient)
    ensures OneHot(Categorical[6], Selections(p)[6]) == [
      ("Diagnosis_Suspect", Indicator(p.diagnosis == "Suspect")),
      ("Diagnosis_Confirmed", Indicator(p.diagnosis == "Confirmed"))]
  {
    OneHotTwo(Categorical[6], p.diagnosis, "Suspect", "Confirmed");
    assert ColumnName("Diagnosis", "Suspect") == "Diagnosis_Suspect";
    assert ColumnName("Diagnosis", "Confirmed") == "Diagnosis_Confirmed";
  }

  /** The one-hot expansion of a two-level field. */
  lemma OneHotTwo(f: Field, v: string, a: string, b: string)
    requires f.levels == [a, b]
    ensures OneHot(f, v) == [(ColumnName(f.name, a), Indicator(v == a)), (ColumnName(f.name, b), Indicator(v == b))]
  {
  }

  /** The one-hot expansion of a three-level field. */
  lemma OneHotThree(f: Field, v: string, a: string, b: string, c: string)
    requires f.levels == [a, b, c]
    ensures OneHot(f, v) == [
      (ColumnName(f.name, a), Indicator(v == a)),
      (ColumnName(f.name, b), Indicator(v == b)),
      (ColumnName(f.name, c), Indicator(v == c))]
  {
  }

  /** The part of a column name before its first underscore. */
  function FieldPart(n: string): string {
    if n == [] || n[0] == '_' then [] else [n[0]] + FieldPart(n[1..])
  }

  /** An indicator column name gives back its field, when the field name has
      no underscore of its own. */
  lemma {:induction false} FieldPartOf(field: string, level: string)
    requires '_' !in field
    ensures FieldPart(ColumnName(field, level)) == field
  {
    if field != [] {
      assert ColumnName(field, level)[1..] == ColumnName(field[1..], level);
      FieldPartOf(field[1..], level);
    }
  }

  /** The field names of a table, in order. */
  function FieldNames(table: seq<Field>): (r: seq<string>)
    ensures |r| == |table|
    ensures forall i :: 0 <= i < |table| ==> r[i] == table[i].name
  {
    if table == [] then [] else [table[0].name] + FieldNames(table[1..])
  }

  /** A table whose indicator column names cannot collide: field names are
      distinct and free of underscores, and each field's levels are distinct. */
  predicate WellFormedTable(table: seq<Field>) {
    && Distinct(FieldNames(table))
    && forall i :: 0 <= i < |table| ==> '_' !in table[i].name && Distinct(table[i].levels)
  }

  /** The indicator names of one field are distinct, contain an underscore and
      lead back to the field. */
  lemma OneHotNames(f: Field, v: string)
    requires '_' !in f.name && Distinct(f.levels)
    ensures Distinct(Names(OneHot(f, v)))
    ensures forall n :: n in Names(OneHot(f, v)) ==> '_' in n && FieldPart(n) == f.name
  {
    var names := Names(OneHot(f, v));
    forall i, j | 0 <= i < j < |names|
      ensures names[i] != names[j]
    {
      assert names[i][|f.name| + 1..] == f.levels[i];
      assert names[j][|f.name| + 1..] == f.levels[j];
    }
    forall n | n in names
      ensures '_' in n && FieldPart(n) == f.name
    {
      var k :| 0 <= k < |names| && names[k] == n;
      assert n[|f.name|] == '_';
      FieldPartOf(f.name, f.levels[k]);
    }
  }

  /** Unfolding the expansion of a table from its i-th field on. */
  lemma ExpandFrom(table: seq<Field>, values: seq<string>, i: nat)
    requires |values| == |table|
    requires i < |table|
    ensures Expand(table[i..], values[i..]) == OneHot(table[i], values[i]) + Expand(table[i + 1..], values[i + 1..])
  {
    assert table[i..][1..] == table[i + 1..];
    assert values[i..][1..] == values[i + 1..];
  }

  /** Over a well-formed table, the expansion produces distinct column names,
      each with an underscore and each leading back to a field of the table. */
  lemma {:induction false} ExpandNames(table: seq<Field>, values: seq<string>)
    requires |values| == |table|
    requires WellFormedTable(table)
    ensures Distinct(Names(Expand(table, values)))
    ensures forall n :: n in Names(Expand(table, values)) ==> '_' in n && FieldPart(n) in FieldNames(table)
  {
    if table != [] {
      var head := OneHot(table[0], values[0]);
      var tail := Expand(table[1..], values[1..]);
      assert FieldNames(table[1..]) == FieldNames(table)[1..];
      ExpandNames(table[1..], values[1..]);
      OneHotNames(table[0], values[0]);
      NamesAppend(head, tail);
      assert table[0].name !in FieldNames(table[1..]) by {
        forall j | 0 <= j < |table| - 1
          ensures FieldNames(table[1..])[j] != table[0].name
        {
          assert FieldNames(table)[0] != FieldNames(table)[j + 1];
        }
      }
      forall n | n in Names(head)
        ensures n !in Names(tail)
      {
        assert FieldPart(n) == table[0].name;
      }
      DistinctAppend(Names(head), Names(tail));
    }
  }

  /** The encoder's table is well formed. */
  lemma CategoricalWellFormed()
    ensures WellFormedTable(Categorical)
  {
    CategoricalFieldsDistinct();
    CategoricalFieldsPlain();
  }

  /** The encoder's field names are distinct. */
  lemma CategoricalFieldsDistinct()
    ensures Distinct(FieldNames(Categorical))
  {
    assert FieldNames(Categorical) == FieldNamesAsWritten;
    DistinctFieldNames();
  }

  /** The seven field names, as the encoder spells them. */
  const FieldNamesAsWritten: seq<string> := [
    "Gender", "Visual Acuity Measurements", "Family History", "Medical History",
    "Cataract Status", "Angle Closure Status", "Diagnosis"]

  /** The seven field names are distinct. */
  lemma DistinctFieldNames()
    ensures Distinct(FieldNamesAsWritten)
  {
  }

  /** No field name has an underscore, and no field repeats a level. */
  lemma CategoricalFieldsPlain()
    ensures forall i | 0 <= i < |Categorical| :: '_' !in Categorical[i].name && Distinct(Categorical[i].levels)
  {
    forall i | 0 <= i < |Categorical|
      ensures '_' !in Categorical[i].name && Distinct(Categorical[i].levels)
    {
      PlainFieldName(Categorical[i].name);
      DistinctLevels(Categorical[i].levels);
    }
  }

  /** No field name contains an underscore. */
  lemma PlainFieldName(n: string)
    requires n in FieldNamesAsWritten
    ensures '_' !in n
  {
  }

  /** No field lists a level twice. */
  lemma DistinctLevels(levels: seq<string>)
    requires levels in [["Female", "Male"], ["Normal", "Reduced"], ["Yes", "No"],
                        ["None", "Diabetes", "Hypertension"], ["Open", "Closed"], ["Suspect", "Confirmed"]]
    ensures Distinct(levels)
  {
  }

  /** The intermediate frame's column names are distinct: a column assignment
      never overwrites another column, so every input reaches the frame. */
  lemma EncodedNamesDistinct(p: Patient)
    ensures Distinct(Names(EncodedColumns(p)))
  {
    var numeric := NumericRecord(p);
    var indicators := Expand(Categorical, Selections(p));
    CategoricalWellFormed();
    ExpandNames(Categorical, Selections(p));
    NamesAppend(numeric, indicators);
    NumericNamesDistinct(p);
    NumericNamesPlain(p);
    DistinctAppend(Names(numeric), Names(indicators));
  }

  /** The numeric column names are distinct, as the keys of the record are. */
  lemma NumericNamesDistinct(p: Patient)
    ensures Distinct(Names(NumericRecord(p)))
  {
    assert Names(NumericRecord(p)) == ["Age", "Intraocular Pressure (IOP)", "Cup-to-Disc Ratio (CDR)", "Pachymetry"];
  }

  /** No numeric column name contains an underscore, so none can be taken
      for an indicator column. */
  lemma NumericNamesPlain(p: Patient)
    ensures forall n :: n in Names(NumericRecord(p)) ==> '_' !in n
  {
    var names := Names(NumericRecord(p));
    assert names == ["Age", "Intraocular Pressure (IOP)", "Cup-to-Disc Ratio (CDR)", "Pachymetry"];
    forall n | n in names ensures '_' !in n {
      PlainNumeric(n);
    }
  }

  /** No numeric column name contains an underscore. */
  lemma PlainNumeric(n: string)
    requires n in ["Age", "Intraocular Pressure (IOP)", "Cup-to-Disc Ratio (CDR)", "Pachymetry"]
    ensures '_' !in n
  {
  }

  /** The intermediate frame has exactly the 19 columns the encoder spells out. */
  lemma EncodedNamesAsWritten(p: Patient)
    ensures Names(EncodedColumns(p)) == EncodedNames
    ensures |EncodedNames| == 19
  {
    EncodedColumnsAsWritten(p);
    var cols := EncodedColumns(p);
    assert |cols| == 19;
    forall k | 0 <= k < 19 ensures cols[k].0 == EncodedNames[k] {
    }
  }

  /** Each level of a field has its indicator column among the field's expansion. */
  lemma {:induction false} ExpandHas(table: seq<Field>, values: seq<string>, i: nat, level: string)
    requires |values| == |table|
    requires i < |table|
    requires level in table[i].levels
    ensures (ColumnName(table[i].name, level), Indicator(values[i] == level)) in Expand(table, values)
  {
    if i == 0 {
      var k :| 0 <= k < |table[0].levels| && table[0].levels[k] == level;
      assert OneHot(table[0], values[0])[k] == (ColumnName(table[i].name, level), Indicator(values[i] == level));
    } else {
      ExpandHas(table[1..], values[1..], i - 1, level);
    }
  }

  /** The intermediate frame holds, under the indicator column of each level of
      each categorical field, 1 if the patient's value is that level and 0 if
      not. */
  lemma IndicatorCell(p: Patient, i: nat, level: string)
    requires i < |Categorical|
    requires level in Categorical[i].levels
    ensures ColumnName(Categorical[i].name, level) in EncodedCells(p)
    ensures EncodedCells(p)[ColumnName(Categorical[i].name, level)] == Int(1) <==> Selections(p)[i] == level
    ensures EncodedCells(p)[ColumnName(Categorical[i].name, level)] == Int(0) <==> Selections(p)[i] != level
  {
    var c := (ColumnName(Categorical[i].name, level), Indicator(Selections(p)[i] == level));
    ExpandHas(Categorical, Selections(p), i, level);
    assert c in EncodedColumns(p);
    EncodedNamesDistinct(p);
    ToMapHas(EncodedColumns(p), c);
  }

  /** The levels of field `i` whose indicator the intermediate frame sets to 1. */
  function HotLevels(p: Patient, i: nat): set<string>
    requires i < |Categorical|
  {
    set level | level in Categorical[i].levels
      && ColumnName(Categorical[i].name, level) in EncodedCells(p)
      && EncodedCells(p)[ColumnName(Categorical[i].name, level)] == Int(1)
  }

  /** In each categorical group exactly the patient's own level is hot; a value
      that is none of the field's levels leaves the whole group at 0. */
  lemma ExactlyOneHot(p: Patient, i: nat)
    requires i < |Categorical|
    ensures HotLevels(p, i) == if Selections(p)[i] in Categorical[i].levels then {Selections(p)[i]} else {}
  {
    forall level | level in Categorical[i].levels
      ensures level in HotLevels(p, i) <==> level == Selections(p)[i]
    {
      IndicatorCell(p, i, level);
    }
  }

  /** The form's dropdowns offer exactly the levels the encoder knows, field by
      field; only the order of the Gender options differs. */
  lemma DropdownsMatchLevels()
    ensures forall i :: 0 <= i < |Dropdowns| ==> Dropdowns[i].name == Categorical[i].name
    ensures forall i :: 0 <= i < |Dropdowns| ==> multiset(Dropdowns[i].levels) == multiset(Categorical[i].levels)
    ensures Dropdowns[0].levels != Categorical[0].levels
  {
    assert multiset(["Male", "Female"]) == multiset(["Female", "Male"]);
  }

  /** For any patient the form can produce, every categorical group has exactly
      one indicator set to 1. */
  lemma OneHotWhenValid(p: Patient, i: nat)
    requires ValidPatient(p)
    requires i < |Categorical|
    ensures |HotLevels(p, i)| == 1
  {
    DropdownsMatchLevels();
    assert Selections(p)[i] in multiset(Dropdowns[i].levels);
    ExactlyOneHot(p, i);
  }

  /** A numeric input reaches every schema column carrying its name unchanged. */
  lemma PreprocessNumeric(p: Patient, expectedColumns: seq<string>, k: nat, c: Column)
    requires c in NumericRecord(p)
    requires k < |expectedColumns| && expectedColumns[k] == c.0
    ensures Preprocess(p, expectedColumns)[k] == c
  {
    EncodedNamesDistinct(p);
    ToMapHas(EncodedColumns(p), c);
    ReindexAt(EncodedCells(p), expectedColumns, k);
  }

  /** A schema column named after a level of a categorical field holds that
      level's indicator: 1 exactly when the patient chose it. */
  lemma PreprocessIndicator(p: Patient, expectedColumns: seq<string>, k: nat, i: nat, level: string)
    requires i < |Categorical| && level in Categorical[i].levels
    requires k < |expectedColumns| && expectedColumns[k] == ColumnName(Categorical[i].name, level)
    ensures Preprocess(p, expectedColumns)[k].1 == Int(1) <==> Selections(p)[i] == level
    ensures Preprocess(p, expectedColumns)[k].1 == Int(0) <==> Selections(p)[i] != level
  {
    IndicatorCell(p, i, level);
    ReindexAt(EncodedCells(p), expectedColumns, k);
  }

  /** A schema column the encoder does not produce comes out as 0; the encoder
      never fails on an unknown column. */
  lemma PreprocessFills(p: Patient, expectedColumns: seq<string>, k: nat)
    requires k < |expectedColumns| && expectedColumns[k] !in EncodedNames
    ensures Preprocess(p, expectedColumns)[k] == (expectedColumns[k], Int(0))
  {
    EncodedNamesAsWritten(p);
    ReindexAt(EncodedCells(p), expectedColumns, k);
  }
}
