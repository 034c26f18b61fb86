# readxl cell and column types, in Dafny

This project models `src/CellType.h` of readxl, the R package that reads
Excel workbooks. The file decides what type each cell of a sheet has and
which column types a user may ask for. It also allocates the typed output
columns and drops the columns the user skips.

- `cell_type.dfy` (module `CellTypes`): the cell type enum (Blank < Date <
  Numeric < Text) and the column type enum, which adds List and Skip after
  them. The C++ cast between them becomes the total function `AsColType`.
  The enumerator values are written out as `CellOrdinal` and `ColOrdinal`.
- `col_type_names.dfy` (module `ColTypeNames`): the parser for the user's
  `col_types` strings and the printer `ColTypeDesc`, which inverts it.
  An unknown token gives an error value with the token and its one-based
  position.
- `date_formats.dfy` (module `DateFormats`): the built-in date number-format
  ids of section 18.8.30 (numFmt) of ECMA-376 Part 1, and the cut-off at 164
  below which ids are built-in. Also the custom-id lookup and the scan that
  flags a custom format string as a date format.
- `classifier.dfy` (module `Classifier`): the classifier for legacy (BIFF)
  cell records. Record ids are those of section 2.3.2 of [MS-XLS]. The
  inputs are a record, an optional style table, the custom date formats and
  the NA set; the result is a cell type plus a diagnostic log.
- `columns.dfy` (module `Columns`): column allocation pre-filled with missing
  values, and removal of skipped columns. Removal is an order-preserving
  filter over the columns, their names and their types, done as a counting
  pass and then a copy pass.
- `wrappers.dfy` (module `Wrappers`): `Option` and `Result`.

Modelling choices:

- A record is `CellRecord(id, l, d, str, xf)`. The style table is
  `Option<seq<int>>`: for each style entry, its number-format id.
- The NA set is a set of strings plus a set of reals. The reals stand for
  the numbers the NA strings denote. A numeric payload is NA when it is in
  that set; floating-point comparison is not modelled.
- The "Unknown type" console line becomes an `UnknownRecord(id)` entry in
  the returned log. The error raised for an unknown column-type token
  becomes `Err(UnknownType(token, position))`.
- A column is `Null` (R's NULL) or `Vector(kind, data)`. `data` is an array
  of entries, and `kind` carries what the R class attributes say. A list
  column starts as a list of length-one logical NA vectors, modelled as the
  entry `NaLogical`.
- The token `"blank"` parses to the Blank column type, as the code does.
  readxl's documented behaviour treats `"blank"` as a deprecated alias of
  `"skip"`. That rewrite is not in `src/CellType.h` (it belongs to the R
  layer, which is not part of this model), so here the code is followed.

## Model

| member | source | states |
|---|---|---|
| `CellTypes.AsColType` | src/CellType.h:8-31 | the widened type has the same enumerator value as the cell type and is never List or Skip |
| `CellTypes.AsColTypeMonotone` | src/CellType.h:26-31 | widening preserves and reflects the order Blank < Date < Numeric < Text, strict and non-strict |
| `CellTypes.AsColTypeInjective` | src/CellType.h:29-31 | distinct cell types widen to distinct column types |
| `CellTypes.AsColTypeOntoPrefix` | src/CellType.h:15-24 | the column types reached by widening are exactly those that are not List or Skip, and List and Skip come after Text in the enum |
| `ColTypeNames.ParseColType` | src/CellType.h:41-55 | a token is accepted exactly when it is one of "blank", "date", "numeric", "text", "list", "skip", matched exactly |
| `ColTypeNames.ColTypeDesc` | src/CellType.h:61-71 | the name printed for a column type parses back to that same type |
| `ColTypeNames.ParseThenDesc` | src/CellType.h:41-52 | every accepted token ("blank", "date", "numeric", "text", "list", "skip") is the printed name of the type it parses to |
| `ColTypeNames.ColTypeDescInjective` | src/CellType.h:61-71 | no two column types share a printed name |
| `ColTypeNames.ColTypeStrings` | src/CellType.h:35-59 | success exactly when every token is known; the result has the input's length and entry i is the type token i names; otherwise the error carries the first unknown token and its one-based position, and every earlier token is known |
| `ColTypeNames.ParsedTokensRoundTrip` | src/CellType.h:35-71 | printing each entry of a parsed vector gives back the user's tokens |
| `DateFormats.IsDateTime` | src/CellType.h:123-140 | an id is a date format exactly when it is a built-in date id, or it is at least 164 and in the custom set |
| `DateFormats.BuiltinRangesMatchList` | src/CellType.h:124-133 | the range test agrees with the built-in date ids written out one by one, and all of them are below 164 |
| `DateFormats.IsDateTimeCases` | src/CellType.h:123-140 | built-in date ids are dates whatever the custom set; other ids below 164 never are; an id of 164 or more is a date exactly when it is in the custom set |
| `DateFormats.BuiltinIdsIgnoreCustom` | src/CellType.h:135-137 | for ids below 164 the custom set has no effect |
| `DateFormats.IsDateTimeMonotone` | src/CellType.h:139 | enlarging the custom set never turns a date format into a non-date |
| `DateFormats.IsDateFormat` | src/CellType.h:142-162 | true exactly when the string contains one of d, D, m, M, y, Y, h, H, s, S |
| `Classifier.CellTypeOf` | src/CellType.h:73-121 | Text exactly for string payloads not in the NA strings; Date exactly for non-NA number records with a style table whose format is a date format; Blank exactly for blank records and NA payloads; a diagnostic exactly for unknown ids |
| `Classifier.BlankRecordsAreBlank` | src/CellType.h:112-114 | Blank and MulBlank records are blank with no diagnostic, whatever the payload, styles or NA set |
| `Classifier.StringCellsAreTextUnlessNa` | src/CellType.h:79-94 | labels and string formula results are Blank exactly when the string is NA, and Text otherwise |
| `Classifier.NumberRecordRule` | src/CellType.h:97-109 | a number record is Blank when NA; otherwise Numeric without a style table; otherwise Date exactly when its format id is a date format |
| `Classifier.NumericFormulaNeverDate` | src/CellType.h:84-88 | a numeric formula result is Blank when NA and Numeric otherwise, never Date |
| `Classifier.UnknownRecordsAreNumeric` | src/CellType.h:117-119 | an unrecognised record id is Numeric, with one diagnostic naming the id and no error |
| `Classifier.DatesNeedStyles` | src/CellType.h:97-109 | a cell is only ever Date when it is a number record and a style table is present |
| `Classifier.DefaultNaBlanksOnlyEmptyStrings` | src/CellType.h:73-109 | with the default NA set (only the empty string), a string payload is Blank exactly when it is empty, and a numeric payload is never Blank |
| `Classifier.LargerNaOnlyBlanks` | src/CellType.h:79-109 | enlarging the NA set can only turn cells Blank; it never changes them to another type |
| `Columns.MissingOf` | src/CellType.h:170-185 | the fill value is always a missing value: the double NA exactly for date and numeric columns, the character NA exactly for text, and a logical NA for list columns |
| `Columns.MakeCol` | src/CellType.h:164-189 | Blank and Skip give NULL; every other type gives a newly allocated column of that kind with n entries, each its type's missing value |
| `Columns.KeptIndicesExact` | src/CellType.h:197-212 | the kept positions are exactly the non-skip positions, in increasing order |
| `Columns.KeptCount` | src/CellType.h:196-200 | the number of kept columns is the number of columns minus the number of skipped ones |
| `Columns.Kept` | src/CellType.h:204-213 | the kept elements are as many as the kept positions |
| `Columns.KeptAt` | src/CellType.h:205-212 | the k-th kept element is the element at the k-th kept position |
| `Columns.CountKept` | src/CellType.h:196-200 | the counting pass returns the number of non-skip columns among the first p |
| `Columns.CopyKept` | src/CellType.h:204-213 | the copy pass fills the output and its names with the kept columns and kept names, in order |
| `Columns.RemoveSkippedColumns` | src/CellType.h:191-219 | the output list and its names are newly allocated with one slot per non-skip column; its columns and names are the non-skip columns and names in their original order |
| `Columns.KeptNamesMatchColumns` | src/CellType.h:210-211 | the k-th remaining column and the k-th remaining name come from the same non-skip input position |
| `Columns.SkipFirstOfTwo` | src/CellType.h:191-219 | skipping the first of two columns leaves just the second column, under its own name |

## Left out

- R object details are not modelled: the POSIXct/POSIXt class and the UTC
  time zone of a date column are carried only as the column's kind, and
  the `names` attribute of the output list is the separate `namesOut` array.
- The layout of the libxls cell and style structs is not modelled. A style
  table entry is reduced to its number-format id.
- `StringSet.h` is not part of this model. NA membership is exact set
  membership, for strings and for numbers; how NA strings become numbers,
  and floating-point equality, are not modelled.
- The console output of the classifier is a returned log, not printed text.
- Throwing the R error for an unknown token is modelled as an `Err` result.
- The `"???"` fallback of `colTypeDesc` and the final NULL of `makeCol`
  cannot be reached with Dafny's closed datatypes, so they are absent.
- Classifier.CellTypeOf: requires that a number record's style index is
  inside the style table when one is present. The C++ indexes the table
  without a check, so an out-of-range index is undefined behaviour.
- Columns.RemoveSkippedColumns: requires the names and types to be at least
  as long as the columns, because the C++ indexes both by column position.
  The pass also works on value sequences, not on R lists shared by
  reference.
- The column type resolver (guessing from a row sample), the column
  materialiser, the building of the custom date-format table from a
  workbook's styles and the 1900/1904 date epochs are not in
  `src/CellType.h` and are not part of this model.
