/**
 * The cell classifier: from one decoded legacy (BIFF) cell record, the
 * workbook's style table, its custom date formats and the user's NA set,
 * decide whether the cell is blank, a date, a number or text. Record ids are
 * those of section 2.3.2 of [MS-XLS].
 */
module Classifier {
  import opened Wrappers
  import opened CellTypes
  import opened DateFormats

  /**
   * One decoded cell record: its record id, `l` (non-zero when a formula's
   * cached result is a string), the numeric payload `d`, the string payload
   * `str`, and `xf`, its index into the style table.
   */
  datatype CellRecord = CellRecord(id: int, l: int, d: real, str: string, xf: nat)

  /**
   * The user's missing-value markers: the strings themselves, and the numbers
   * those strings denote, which numeric payloads are compared with.
   */
  datatype NaSet = NaSet(strings: set<string>, numbers: set<real>)

  /** The default NA set: only the empty string. */
  const DefaultNa := NaSet({""}, {})

  /** A diagnostic written while classifying; the read carries on. */
  datatype Diagnostic = UnknownRecord(id: int)

  /** The cell type of a record, with the diagnostics classifying it produced. */
  datatype Classification = Classification(cell: CellType, log: seq<Diagnostic>)

  /** LabelSst (253) and Label (516): a string cell. */
  predicate IsLabelRecord(id: int) { id == 253 || id == 516 }

  /** Formula (6), and 1030 as written by Apple Numbers: a cached formula result. */
  predicate IsFormulaRecord(id: int) { id == 6 || id == 1030 }

  /** MulRk (189), Number (515) and Rk (638): a number cell. */
  predicate IsNumberRecord(id: int) { id == 189 || id == 515 || id == 638 }

  /** MulBlank (190) and Blank (513): an empty formatted cell. */
  predicate IsBlankRecord(id: int) { id == 190 || id == 513 }

  /** Record ids the classifier knows. */
  predicate IsKnownRecord(id: int)
  {
    IsLabelRecord(id) || IsFormulaRecord(id) || IsNumberRecord(id) || IsBlankRecord(id)
  }

  /** A record whose payload is a string: a label, or a formula with a string result. */
  predicate HoldsString(cell: CellRecord)
  {
    IsLabelRecord(cell.id) || (IsFormulaRecord(cell.id) && cell.l != 0)
  }

  /** A record whose payload is a number: a number record, or a formula with a numeric result. */
  predicate HoldsNumber(cell: CellRecord)
  {
    IsNumberRecord(cell.id) || (IsFormulaRecord(cell.id) && cell.l == 0)
  }

  /** The style table, when present, has an entry for every number record's `xf`. */
  predicate StyleIndexed(cell: CellRecord, styles: Option<seq<int>>)
  {
    IsNumberRecord(cell.id) && styles.Some? ==> cell.xf < |styles.value|
  }

  /**
   * Classifies one record. `styles`, when present, gives the number-format id
   * of each style-table entry.
   */
  function CellTypeOf(cell: CellRecord, styles: Option<seq<int>>, custom: set<int>, na: NaSet): (r: Classification)
    requires StyleIndexed(cell, styles)
    ensures r.cell == Text <==> HoldsString(cell) && cell.str !in na.strings
    ensures r.cell == Date <==>
      && IsNumberRecord(cell.id) && cell.d !in na.numbers && styles.Some?
      && IsDateTime(styles.value[cell.xf], custom)
    ensures r.cell == Blank <==>
      || IsBlankRecord(cell.id)
      || (HoldsString(cell) && cell.str in na.strings)
      || (HoldsNumber(cell) && cell.d in na.numbers)
    ensures r.log == if IsKnownRecord(cell.id) then [] else [UnknownRecord(cell.id)]
  {
    if IsLabelRecord(cell.id) then
      Classification(if cell.str in na.strings then Blank else Text, [])
    else if IsFormulaRecord(cell.id) then
      if cell.l == 0 then
        Classification(if cell.d in na.numbers then Blank else Numeric, [])
      else if cell.str in na.strings then
        Classification(Blank, [])
      else
        Classification(Text, [])
    else if IsNumberRecord(cell.id) then
      if cell.d in na.numbers then Classification(Blank, [])
      else if styles.None? then Classification(Numeric, [])
      else
        var format := styles.value[cell.xf];
        Classification(if IsDateTime(format, custom) then Date else Numeric, [])
    else if IsBlankRecord(cell.id) then
      Classification(Blank, [])
    else
      Classification(Numeric, [UnknownRecord(cell.id)])
  }

  /** Blank and MulBlank records are blank whatever the payload, styles or NA set. */
  lemma BlankRecordsAreBlank(cell: CellRecord, styles: Option<seq<int>>, custom: set<int>, na: NaSet)
    requires IsBlankRecord(cell.id)
    ensures CellTypeOf(cell, styles, custom, na) == Classification(Blank, [])
  {
  }

  /** A string payload is blank exactly when it is an NA string, and text otherwise. */
  lemma StringCellsAreTextUnlessNa(cell: CellRecord, styles: Option<seq<int>>, custom: set<int>, na: NaSet)
    requires HoldsString(cell)
    ensures CellTypeOf(cell, styles, custom, na).cell == (if cell.str in na.strings then Blank else Text)
  {
  }

  /**
   * Number records: an NA value is blank; without a style table the cell is
   * numeric; with one it is a date exactly when its format is a date format.
   */
  lemma NumberRecordRule(cell: CellRecord, styles: Option<seq<int>>, custom: set<int>, na: NaSet)
    requires IsNumberRecord(cell.id) && StyleIndexed(cell, styles)
    ensures cell.d in na.numbers ==> CellTypeOf(cell, styles, custom, na).cell == Blank
    ensures cell.d !in na.numbers && styles.None? ==> CellTypeOf(cell, styles, custom, na).cell == Numeric
    ensures cell.d !in na.numbers && styles.Some? ==>
      CellTypeOf(cell, styles, custom, na).cell ==
        (if IsDateTime(styles.value[cell.xf], custom) then Date else Numeric)
  {
  }

  /** A numeric formula result is never a date, whatever its style says. */
  lemma NumericFormulaNeverDate(cell: CellRecord, styles: Option<seq<int>>, custom: set<int>, na: NaSet)
    requires IsFormulaRecord(cell.id) && cell.l == 0
    ensures CellTypeOf(cell, styles, custom, na).cell == (if cell.d in na.numbers then Blank else Numeric)
  {
  }

  /** An unknown record id is a number, reported by one diagnostic and no error. */
  lemma UnknownRecordsAreNumeric(cell: CellRecord, styles: Option<seq<int>>, custom: set<int>, na: NaSet)
    requires !IsKnownRecord(cell.id)
    ensures CellTypeOf(cell, styles, custom, na) == Classification(Numeric, [UnknownRecord(cell.id)])
  {
  }

  /** Only number records with a style table can be dates. */
  lemma DatesNeedStyles(cell: CellRecord, styles: Option<seq<int>>, custom: set<int>, na: NaSet)
    requires StyleIndexed(cell, styles)
    requires CellTypeOf(cell, styles, custom, na).cell == Date
    ensures IsNumberRecord(cell.id) && styles.Some?
  {
  }

  /**
   * Growing the NA set can only turn cells blank: a cell keeps its type or
   * becomes blank.
   */
  lemma LargerNaOnlyBlanks(cell: CellRecord, styles: Option<seq<int>>, custom: set<int>, na: NaSet, more: NaSet)
    requires StyleIndexed(cell, styles)
    requires na.strings <= more.strings && na.numbers <= more.numbers
    ensures var after := CellTypeOf(cell, styles, custom, more).cell;
      after == CellTypeOf(cell, styles, custom, na).cell || after == Blank
  {
  }

  /**
   * Under the default NA set (only the empty string), a string payload is
   * blank exactly when it is empty, and no numeric payload is missing.
   */
  lemma DefaultNaBlanksOnlyEmptyStrings(cell: CellRecord, styles: Option<seq<int>>, custom: set<int>)
    requires StyleIndexed(cell, styles)
    ensures HoldsString(cell) ==> (CellTypeOf(cell, styles, custom, DefaultNa).cell == Blank <==> cell.str == "")
    ensures HoldsNumber(cell) ==> CellTypeOf(cell, styles, custom, DefaultNa).cell != Blank
  {
  }
}
