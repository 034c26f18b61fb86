/**
 * Date detection from number formats: which built-in number-format ids are
 * dates (section 18.8.30, numFmt, of ECMA-376 Part 1), how custom ids are
 * looked up, and the character scan that flags a custom format string as a
 * date format.
 */
module DateFormats {

  /** The first number-format id a workbook may define itself. */
  const FirstCustomId := 164

  /**
   * The built-in date and time format ids, the five ranges of section
   * 18.8.30 of ECMA-376 Part 1 written out id by id. This is a transcription
   * of those ranges, used to check the range predicate below against an
   * explicit enumeration.
   */
  const BuiltinDateIds: set<int> :=
    {14, 15, 16, 17, 18, 19, 20, 21, 22,
     27, 28, 29, 30, 31, 32, 33, 34, 35, 36,
     45, 46, 47,
     50, 51, 52, 53, 54, 55, 56, 57, 58,
     71, 72, 73, 74, 75, 76, 77, 78, 79, 80, 81}

  /** The five closed ranges of built-in date ids. */
  predicate InBuiltinDateRange(id: int)
  {
    (14 <= id <= 22) || (27 <= id <= 36) || (45 <= id <= 47) ||
    (50 <= id <= 58) || (71 <= id <= 81)
  }

  /**
   * Whether the number format `id` shows a date or time: a built-in date id,
   * or else a custom id (at least 164) that the workbook's custom date
   * formats contain.
   */
  predicate IsDateTime(id: int, custom: set<int>): (r: bool)
    ensures r <==> id in BuiltinDateIds || (id >= FirstCustomId && id in custom)
  {
    if InBuiltinDateRange(id) then true
    else if id < FirstCustomId then false
    else id in custom
  }

  /** The ranges are exactly the list of built-in date ids, and none is custom. */
  lemma BuiltinRangesMatchList(id: int)
    ensures InBuiltinDateRange(id) <==> id in BuiltinDateIds
    ensures InBuiltinDateRange(id) ==> id < FirstCustomId
  {
  }

  /**
   * The three cases of date detection: built-in date ids are dates whatever
   * the custom set, other built-in ids never are, and a custom id is a date
   * exactly when it is in the custom set.
   */
  lemma IsDateTimeCases(id: int, custom: set<int>)
    ensures id in BuiltinDateIds ==> IsDateTime(id, custom)
    ensures id < FirstCustomId && id !in BuiltinDateIds ==> !IsDateTime(id, custom)
    ensures id >= FirstCustomId ==> (IsDateTime(id, custom) <==> id in custom)
  {
  }

  /** Entries of the custom set below 164 never change the answer. */
  lemma BuiltinIdsIgnoreCustom(id: int, custom: set<int>)
    requires id < FirstCustomId
    ensures IsDateTime(id, custom) == IsDateTime(id, {})
  {
  }

  /** Adding custom ids only ever turns more ids into dates. */
  lemma IsDateTimeMonotone(id: int, custom: set<int>, more: set<int>)
    requires custom <= more
    ensures IsDateTime(id, custom) ==> IsDateTime(id, more)
  {
  }

  /** The characters whose presence marks a format string as a date or time format. */
  predicate IsDateChar(c: char)
  {
    c in "dDmMyYhHsS"
  }

  /** Whether some character of `s` is a date character. */
  predicate HasDateChar(s: string)
  {
    exists i :: 0 <= i < |s| && IsDateChar(s[i])
  }

  /**
   * Scans a custom format string from the left and answers true at the first
   * date character; a string without one is not a date format.
   */
  method IsDateFormat(x: string) returns (r: bool)
    ensures r <==> HasDateChar(x)
  {
    var i := 0;
    while i < |x|
      invariant 0 <= i <= |x|
      invariant forall k :: 0 <= k < i ==> !IsDateChar(x[k])
    {
      match x[i]
      case 'd' => return true;
      case 'D' => return true;
      case 'm' => return true;
      case 'M' => return true;
      case 'y' => return true;
      case 'Y' => return true;
      case 'h' => return true;
      case 'H' => return true;
      case 's' => return true;
      case 'S' => return true;
      case _ =>
      i := i + 1;
    }
    return false;
  }
}
