/**
 * The two type enumerations of readxl: the type of one cell and the type
 * of a whole column. In C++ `ColType` repeats the values of `CellType` as
 * its prefix so that a cast converts one into the other; here the two are
 * separate datatypes and the widening is an explicit total function.
 */
module CellTypes {

  /** The type of a single cell, ordered Blank < Date < Numeric < Text. */
  datatype CellType = Blank | Date | Numeric | Text

  /** The type of a column: the cell types, then the two user-only modes. */
  datatype ColType = ColBlank | ColDate | ColNumeric | ColText | ColList | ColSkip

  /** The enumerator value of a cell type in the C++ enum. */
  function CellOrdinal(c: CellType): nat
  {
    match c
    case Blank => 0
    case Date => 1
    case Numeric => 2
    case Text => 3
  }

  /** The enumerator value of a column type in the C++ enum. */
  function ColOrdinal(t: ColType): nat
  {
    match t
    case ColBlank => 0
    case ColDate => 1
    case ColNumeric => 2
    case ColText => 3
    case ColList => 4
    case ColSkip => 5
  }

  /** Whether a column type is one of the user-only modes. */
  predicate IsUserOnly(t: ColType)
  {
    t == ColList || t == ColSkip
  }

  /**
   * Widens a cell type to the column type with the same name. The C++ cast
   * keeps the enumerator value, so the widening is exactly the map that keeps
   * the ordinal, and it never reaches a user-only mode.
   */
  function AsColType(c: CellType): (t: ColType)
    ensures ColOrdinal(t) == CellOrdinal(c)
    ensures !IsUserOnly(t)
  {
    match c
    case Blank => ColBlank
    case Date => ColDate
    case Numeric => ColNumeric
    case Text => ColText
  }

  /** Widening preserves and reflects the order of cell types. */
  lemma AsColTypeMonotone(a: CellType, b: CellType)
    ensures CellOrdinal(a) <= CellOrdinal(b) <==> ColOrdinal(AsColType(a)) <= ColOrdinal(AsColType(b))
    ensures CellOrdinal(a) < CellOrdinal(b) <==> ColOrdinal(AsColType(a)) < ColOrdinal(AsColType(b))
  {
  }

  /** Distinct cell types widen to distinct column types. */
  lemma AsColTypeInjective(a: CellType, b: CellType)
    ensures AsColType(a) == AsColType(b) ==> a == b
  {
  }

  /**
   * Every column type that is not a user-only mode is the widening of a cell
   * type, and the user-only modes sit after all of them in the enum.
   */
  lemma AsColTypeOntoPrefix(t: ColType)
    ensures !IsUserOnly(t) <==> exists c: CellType :: AsColType(c) == t
    ensures IsUserOnly(t) <==> ColOrdinal(t) > CellOrdinal(Text)
  {
    if !IsUserOnly(t) {
      var c := match t
        case ColBlank => Blank
        case ColDate => Date
        case ColNumeric => Numeric
        case _ => Text;
      assert AsColType(c) == t;
    }
  }
}
