# Glaucoma prediction app: the feature encoder

This project models the feature encoder of the glaucoma type prediction app,
`preprocess_input` in `glaucoma_ml.py`. The encoder takes one patient's form
inputs and builds a one-row pandas DataFrame:

- the four numeric inputs are copied under fixed column names;
- fifteen column assignments add one 0/1 indicator per level of the seven
  categorical fields (every level is kept, there is no drop-first);
- `reindex(columns=expected_columns, fill_value=0)` lays the row out in the
  trained model's column schema.

The model has three modules:

- `DataFrame` (`dataframe.dfy`) models the one-row frame as a class `Frame`.
  It has an ordered list of distinct labels and a map from label to cell.
  `Frame.FromRecord` builds it from a dict, as `pd.DataFrame([data])` does.
  `Frame.Assign` is `df[name] = v`: it overwrites the cell of an existing label,
  or appends a new label on the right.
- `Reindexing` (`reindex.dfy`) models `reindex` with fill value 0 as a recursive
  function over the schema. Lemmas cover the order, copy, fill and drop
  behaviour.
- `Encoder` (`encoder.dfy`) holds two things:
  - the app's encoder as written: `EncodeFrame` makes the constructor call and
    the fifteen assignments in the source's order, and `PreprocessInput`
    reindexes the result;
  - an independent declarative definition. This is a table of
    (field, levels) pairs driving a generic one-hot expansion (`EncodedColumns`,
    `EncodedCells`, `Preprocess`).

  Proofs connect the two definitions. The declarative one is then used to
  state the encoder's properties:
  - the output has exactly the schema's columns;
  - an indicator is 1 exactly when the input equals its level;
  - exactly one indicator per group is 1 for any input the form can produce;
  - the numeric inputs are copied unchanged;
  - unknown schema columns are 0;
  - the intermediate frame has 19 distinct columns.

A cell is `Int` or `Real`. The age slider gives an integer, the other three
sliders give floating-point values, and the indicators and the fill value are
the integers 0 and 1. The schema `expected_columns` (`logreg.feature_names_in_`)
is a parameter.

## Model

| member | source | states |
|---|---|---|
| DataFrame.Frame.FromRecord | glaucoma_ml.py:34-40 | A frame built from a dict whose keys are distinct has the dict's keys as labels, in order, and the dict's values as cells. Its labels are distinct and are exactly the keys of its cells. |
| DataFrame.Frame.Assign | glaucoma_ml.py:43-63 | `df[name] = v` sets the cell under `name` to `v` and keeps every other cell. An existing label keeps its place and a new label is appended. The frame's labels stay distinct and stay equal to the keys of its cells. |
| DataFrame.AddLabelFresh | glaucoma_ml.py:43-63 | Assigning the labels of a duplicate-free list one after the other appends each one in turn. |
| DataFrame.ToMapAt | glaucoma_ml.py:34-40 | When the labels are distinct, each label of a record maps to exactly the value listed with it. |
| DataFrame.ToMapHas | glaucoma_ml.py:34-40 | When the labels are distinct, every listed (label, value) pair is found in the cells. |
| DataFrame.ToMapSnoc | glaucoma_ml.py:43 | Assigning one more column after a record updates the cells under its label. |
| DataFrame.ToMapAppend | glaucoma_ml.py:43-44 | Assigning a group of two or three indicator columns after a record updates the cells once per column, in order. |
| Reindexing.Reindex | glaucoma_ml.py:67 | The reindexed row has one column per schema entry. |
| Reindexing.ReindexAt | glaucoma_ml.py:67 | Output column k is named `schema[k]`. It holds the frame's cell under that name if the frame has one, and the fill value 0 otherwise. |
| Reindexing.ReindexColumns | glaucoma_ml.py:66-67 | The output's column labels are exactly the schema: same names, same order, same length, whatever the frame holds. |
| Reindexing.ReindexDrops | glaucoma_ml.py:67 | A name appears in the output if and only if the schema names it, so a frame column absent from the schema is dropped. |
| Reindexing.ReindexFills | glaucoma_ml.py:67 | A schema column the frame lacks is output as `(name, 0)` at every position where it occurs, with no error. |
| Reindexing.ReindexNoFill | glaucoma_ml.py:67 | When the frame has every schema column, each output column is the frame's own cell under that name. |
| Encoder.PreprocessInput | glaucoma_ml.py:33-68 | The encoder's output has exactly the schema's columns in the schema's order. It equals the declarative encoding reindexed onto the schema, so it is a function of the inputs and the schema alone. |
| Encoder.EncodeFrame | glaucoma_ml.py:34-63 | After the constructor and the fifteen assignments, the frame is valid. Its labels are the 19 names the encoder spells out, in order, and its cells are the declarative encoding's cells. |
| Encoder.FrameLabelsAsWritten | glaucoma_ml.py:40-63 | Starting from the numeric labels, the fifteen assignments append their labels in the order written and give the 19 encoder names. |
| Encoder.FirstLabels | glaucoma_ml.py:43-47 | The Gender and Visual Acuity Measurements assignments each append a new label. |
| Encoder.MiddleLabels | glaucoma_ml.py:49-54 | The Family History and Medical History assignments each append a new label. |
| Encoder.LastLabels | glaucoma_ml.py:56-63 | The Cataract Status, Angle Closure Status and Diagnosis assignments each append a new label. |
| Encoder.EncodedCellsAsWritten | glaucoma_ml.py:34-63 | The declarative encoding's cells equal the numeric record updated by the fifteen assignments as written, with the same names, values and order. |
| Encoder.EncodedColumnsAsWritten | glaucoma_ml.py:34-63 | The table-driven one-hot expansion lists exactly the app's columns: the numeric record, then each field's indicator group, in the app's order. |
| Encoder.ExpandSeven | glaucoma_ml.py:43-63 | Expanding a seven-field table is the concatenation of the seven one-hot groups. |
| Encoder.GenderIndicators | glaucoma_ml.py:43-44 | The Gender group is `Gender_Female` then `Gender_Male`, each 1 exactly when the input equals that level. |
| Encoder.VisualAcuityIndicators | glaucoma_ml.py:46-47 | The Visual Acuity Measurements group is `_Normal` then `_Reduced`, each 1 exactly when the input equals that level. |
| Encoder.FamilyHistoryIndicators | glaucoma_ml.py:49-50 | The Family History group is `_Yes` then `_No`, each 1 exactly when the input equals that level. |
| Encoder.MedicalHistoryIndicators | glaucoma_ml.py:52-54 | The Medical History group is `_None`, `_Diabetes`, `_Hypertension`, each 1 exactly when the input equals that level. |
| Encoder.CataractStatusIndicators | glaucoma_ml.py:56-57 | The Cataract Status group is `_Yes` then `_No`, each 1 exactly when the input equals that level. |
| Encoder.AngleClosureStatusIndicators | glaucoma_ml.py:59-60 | The Angle Closure Status group is `_Open` then `_Closed`, each 1 exactly when the input equals that level. |
| Encoder.DiagnosisIndicators | glaucoma_ml.py:62-63 | The Diagnosis group is `_Suspect` then `_Confirmed`, each 1 exactly when the input equals that level. |
| Encoder.OneHot | glaucoma_ml.py:43-63 | A field's one-hot group has one column per level, with every level kept. |
| Encoder.OneHotNames | glaucoma_ml.py:43-63 | A field's indicator names are distinct. Each contains an underscore, and the part before the first underscore is the field's name. |
| Encoder.FieldPartOf | glaucoma_ml.py:43-63 | When a field name has no underscore, the name `<Field>_<Level>` gives back the field. |
| Encoder.ExpandNames | glaucoma_ml.py:43-63 | Over a well-formed table, all indicator names are distinct, so no assignment overwrites another indicator. |
| Encoder.CategoricalWellFormed | glaucoma_ml.py:43-63 | The encoder's field names are distinct and have no underscore, and no field repeats a level. |
| Encoder.NumericNamesDistinct | glaucoma_ml.py:35-38 | The four numeric column names are distinct. |
| Encoder.NumericNamesPlain | glaucoma_ml.py:35-38 | No numeric column name contains an underscore, so none collides with an indicator. |
| Encoder.EncodedNamesDistinct | glaucoma_ml.py:35-63 | The intermediate frame's 19 column names are pairwise distinct, so every input reaches the frame and none is overwritten. |
| Encoder.EncodedNamesAsWritten | glaucoma_ml.py:35-63 | The intermediate frame has exactly 19 columns: 4 numeric plus 2+2+2+3+2+2+2 indicators, named as the source spells them. |
| Encoder.IndicatorCell | glaucoma_ml.py:43-63 | The frame has an indicator column for each level of each field. It holds 1 if and only if the input equals that level, and 0 if and only if it does not. |
| Encoder.ExactlyOneHot | glaucoma_ml.py:43-63 | In each group, the set of levels whose indicator is 1 is exactly the input's value when that value is a level, and empty otherwise. |
| Encoder.DropdownsMatchLevels | glaucoma_ml.py:24-30 | Each dropdown offers exactly the levels the encoder writes for that field, compared as multisets. Only the order of the Gender options differs from the encoder's column order. |
| Encoder.OneHotWhenValid | glaucoma_ml.py:24-63 | For any input the form can produce, exactly one indicator of each categorical group is 1. |
| Encoder.PreprocessNumeric | glaucoma_ml.py:34-40 | A schema column named after a numeric input holds that input, unchanged. |
| Encoder.PreprocessIndicator | glaucoma_ml.py:43-67 | A schema column named after a level's indicator holds 1 if and only if the input equals that level, and 0 otherwise. |
| Encoder.PreprocessFills | glaucoma_ml.py:67 | A schema column the encoder does not produce is output as 0, and nothing fails. |

## Left out

- The Streamlit interface is not modelled: title, sidebar, sliders, dropdowns,
  button, instructions and error display (lines 1-30, 70-85). Slider bounds and
  dropdown options appear only as the predicate `ValidPatient`. The encoder
  itself does not check them, and neither does the model.
- Loading the model with `pickle`, and the missing-file `st.stop()` (lines
  8-13), are file input and deserialisation of an opaque object.
  `expected_columns` (line 66) becomes a parameter.
- `logreg.predict` and `prediction[0]` (lines 72-78) are a call into
  scikit-learn's fitted model with an opaque decision boundary. So is the
  try/except that reports its failure.
- Floating-point semantics of the slider values are not modelled: they are
  `real` and only copied. The slider step sizes are not modelled either.
- pandas dtypes are reduced to `Int` and `Real` cells.
- `reindex` raises on a frame with duplicate column labels. That case is not
  modelled because it cannot arise here: `Frame` keeps its labels distinct as
  an invariant, and `EncodedNamesDistinct` shows the encoder's 19 names are
  distinct.
- `reindex` returns a new DataFrame. The model returns the reindexed row as a
  list of (name, cell) columns rather than as a second `Frame` object.
- Determinism has no lemma of its own. `PreprocessInput` states that its
  result equals `Preprocess(p, expectedColumns)`, a function of the inputs and
  the schema alone.
- The column order of the Gender indicators follows the code (`Gender_Female`
  before `Gender_Male`, lines 43-44), not the dropdown's option order (Male
  first, line 24). `DropdownsMatchLevels` records the difference.
