/**
 * The user-facing names of the column types: the parser that turns the
 * user's `col_types` strings into column types, and the printer that turns
 * a column type back into its name.
 */
module ColTypeNames {
  import opened Wrappers
  import opened CellTypes

  /** The error raised for a token that names no column type; `position` is one-based. */
  datatype ParseError = UnknownType(token: string, position: nat)

  /** The tokens a user may write for a column type. */
  const ColTypeTokens: set<string> := {"blank", "date", "numeric", "text", "list", "skip"}

  /**
   * The column type one token names, if any. Tokens are matched exactly and
   * case-sensitively: the six tokens are accepted and nothing else.
   */
  function ParseColType(s: string): (r: Option<ColType>)
    ensures r.Some? <==> s in ColTypeTokens
  {
    if s == "blank" then Some(ColBlank)
    else if s == "date" then Some(ColDate)
    else if s == "numeric" then Some(ColNumeric)
    else if s == "text" then Some(ColText)
    else if s == "list" then Some(ColList)
    else if s == "skip" then Some(ColSkip)
    else None
  }

  /** The name of a column type; the parser reads it back as the same type. */
  function ColTypeDesc(t: ColType): (s: string)
    ensures ParseColType(s) == Some(t)
  {
    match t
    case ColBlank => "blank"
    case ColDate => "date"
    case ColNumeric => "numeric"
    case ColText => "text"
    case ColList => "list"
    case ColSkip => "skip"
  }

  /** The other half of the round trip: a token the parser accepts is the name it prints. */
  lemma ParseThenDesc(s: string)
    ensures ParseColType(s).Some? ==> ColTypeDesc(ParseColType(s).value) == s
  {
  }

  /** The printer never gives two column types the same name. */
  lemma ColTypeDescInjective(a: ColType, b: ColType)
    ensures ColTypeDesc(a) == ColTypeDesc(b) ==> a == b
  {
  }

  /** All tokens of `x` before index `n` name a column type. */
  predicate AllKnown(x: seq<string>, n: nat)
    requires n <= |x|
  {
    forall i :: 0 <= i < n ==> ParseColType(x[i]).Some?
  }

  /**
   * Converts the user's tokens one by one, appending each column type to the
   * result, and stops at the first unknown token with an error naming it and
   * its one-based position.
   */
  method ColTypeStrings(x: seq<string>) returns (r: Result<seq<ColType>, ParseError>)
    ensures r.Ok? <==> AllKnown(x, |x|)
    ensures r.Ok? ==> |r.value| == |x|
    ensures r.Ok? ==> forall i :: 0 <= i < |x| ==> ParseColType(x[i]) == Some(r.value[i])
    ensures r.Err? ==> 1 <= r.error.position <= |x|
    ensures r.Err? ==> r.error.token == x[r.error.position - 1]
    ensures r.Err? ==> ParseColType(r.error.token).None? && AllKnown(x, r.error.position - 1)
  {
    var types: seq<ColType> := [];
    var i := 0;
    while i < |x|
      invariant 0 <= i <= |x|
      invariant |types| == i
      invariant forall k :: 0 <= k < i ==> ParseColType(x[k]) == Some(types[k])
    {
      var t := ParseColType(x[i]);
      if t.None? {
        return Err(UnknownType(x[i], i + 1));
      }
      types := types + [t.value];
      i := i + 1;
    }
    return Ok(types);
  }

  /** Printing each parsed type gives back the user's tokens. */
  lemma ParsedTokensRoundTrip(x: seq<string>, types: seq<ColType>)
    requires |types| == |x|
    requires forall i :: 0 <= i < |x| ==> ParseColType(x[i]) == Some(types[i])
    ensures forall i :: 0 <= i < |x| ==> ColTypeDesc(types[i]) == x[i]
  {
  }
}
