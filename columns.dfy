/**
 * Output columns: allocating a column of a given type pre-filled with its
 * missing value, and dropping the columns the user asked to skip together
 * with their names.
 */
module Columns {
  import opened CellTypes

  /**
   * One entry of an output column: the missing values of the three R vector
   * kinds (a list column starts as a list of length-one logical NA vectors),
   * and the values later stages store.
   */
  datatype Entry = NaReal | NaString | NaLogical | Real(x: real) | Str(s: string)

  /**
   * An output column: absent (R's NULL), or a buffer of entries whose R class
   * is given by the column type (a date column is a UTC POSIXct vector).
   */
  datatype Column = Null | Vector(kind: ColType, data: array<Entry>)

  /** Whether an entry is one of R's missing values. */
  predicate IsMissing(e: Entry)
  {
    e.NaReal? || e.NaString? || e.NaLogical?
  }

  /**
   * The missing value a column of type `t` is pre-filled with: always a
   * missing value, the double NA exactly for the two double-backed column
   * types (date and numeric), and the character NA exactly for text.
   */
  function MissingOf(t: ColType): (e: Entry)
    ensures IsMissing(e)
    ensures e == NaReal <==> t == ColDate || t == ColNumeric
    ensures e == NaString <==> t == ColText
  {
    match t
    case ColDate => NaReal
    case ColNumeric => NaReal
    case ColText => NaString
    case _ => NaLogical
  }

  /** Whether a column of type `t` is materialised at all. */
  predicate Allocates(t: ColType)
  {
    t != ColBlank && t != ColSkip
  }

  /**
   * Allocates the column for type `t` and `n` rows: nothing for a blank or
   * skipped column, otherwise `n` copies of the type's missing value.
   */
  method MakeCol(t: ColType, n: nat) returns (col: Column)
    ensures col.Null? <==> !Allocates(t)
    ensures col.Vector? ==> fresh(col.data)
    ensures col.Vector? ==> col.kind == t && col.data.Length == n
    ensures col.Vector? ==> forall i :: 0 <= i < n ==> col.data[i] == MissingOf(t)
  {
    if !Allocates(t) {
      return Null;
    }
    var missing := MissingOf(t);
    var data := new Entry[n];
    var i := 0;
    while i < n
      invariant 0 <= i <= n
      invariant forall k :: 0 <= k < i ==> data[k] == missing
    {
      data[i] := missing;
      i := i + 1;
    }
    return Vector(t, data);
  }

  /** The positions of the columns that are kept, in increasing order. */
  function KeptIndices(types: seq<ColType>): seq<nat>
  {
    if types == [] then []
    else
      var last := |types| - 1;
      var r := KeptIndices(types[..last]);
      if types[last] == ColSkip then r else r + [last]
  }

  /**
   * The kept positions are exactly the positions whose type is not
   * `ColSkip`, each once, in increasing order.
   */
  lemma {:induction false} KeptIndicesExact(types: seq<ColType>)
    ensures forall k :: 0 <= k < |KeptIndices(types)| ==>
      KeptIndices(types)[k] < |types| && types[KeptIndices(types)[k]] != ColSkip
    ensures forall k, m :: 0 <= k < m < |KeptIndices(types)| ==> KeptIndices(types)[k] < KeptIndices(types)[m]
    ensures forall j :: 0 <= j < |types| && types[j] != ColSkip ==> j in KeptIndices(types)
  {
    if types != [] {
      var last := |types| - 1;
      KeptIndicesExact(types[..last]);
    }
  }

  /** The number of kept columns: all columns but the skipped ones. */
  lemma {:induction false} KeptCount(types: seq<ColType>)
    ensures |KeptIndices(types)| == |types| - multiset(types)[ColSkip]
  {
    if types != [] {
      var last := |types| - 1;
      KeptCount(types[..last]);
      assert types == types[..last] + [types[last]];
    }
  }

  /** The elements of `xs` at the kept positions, in their original order. */
  function Kept<T>(xs: seq<T>, types: seq<ColType>): (r: seq<T>)
    requires |types| <= |xs|
    ensures |r| == |KeptIndices(types)|
  {
    if types == [] then []
    else
      var last := |types| - 1;
      var r := Kept(xs, types[..last]);
      if types[last] == ColSkip then r else r + [xs[last]]
  }

  /** The k-th kept element is the element at the k-th kept position. */
  lemma {:induction false} KeptAt<T>(xs: seq<T>, types: seq<ColType>, k: nat)
    requires |types| <= |xs| && k < |KeptIndices(types)|
    ensures KeptIndices(types)[k] < |types| && Kept(xs, types)[k] == xs[KeptIndices(types)[k]]
  {
    var last := |types| - 1;
    if k < |KeptIndices(types[..last])| {
      KeptAt(xs, types[..last], k);
    }
  }

  /** Extending the columns by a skipped one keeps nothing more. */
  lemma KeptSkip<T>(xs: seq<T>, types: seq<ColType>, j: nat)
    requires j < |types| <= |xs| && types[j] == ColSkip
    ensures KeptIndices(types[..j + 1]) == KeptIndices(types[..j])
    ensures Kept(xs, types[..j + 1]) == Kept(xs, types[..j])
  {
    assert types[..j + 1][..j] == types[..j];
  }

  /** Extending the columns by a kept one keeps that position and its element. */
  lemma KeptKeep<T>(xs: seq<T>, types: seq<ColType>, j: nat)
    requires j < |types| <= |xs| && types[j] != ColSkip
    ensures KeptIndices(types[..j + 1]) == KeptIndices(types[..j]) + [j]
    ensures Kept(xs, types[..j + 1]) == Kept(xs, types[..j]) + [xs[j]]
  {
    assert types[..j + 1][..j] == types[..j];
  }

  /** The counting pass: how many of the first `p` columns are kept. */
  method CountKept(types: seq<ColType>, p: nat) returns (pOut: nat)
    requires p <= |types|
    ensures pOut == |KeptIndices(types[..p])|
    ensures pOut == p - multiset(types[..p])[ColSkip]
  {
    pOut := 0;
    var j := 0;
    while j < p
      invariant 0 <= j <= p
      invariant pOut == |KeptIndices(types[..j])|
    {
      if types[j] != ColSkip {
        KeptKeep(types, types, j);
        pOut := pOut + 1;
      } else {
        KeptSkip(types, types, j);
      }
      j := j + 1;
    }
    KeptCount(types[..p]);
  }

  /**
   * The copy pass: writes each kept column and its name, in order, to the
   * next free slot of `out` and `namesOut`.
   */
  method CopyKept(cols: seq<Column>, names: seq<string>, types: seq<ColType>,
                  out: array<Column>, namesOut: array<string>)
    requires |names| == |types| == |cols|
    requires out.Length == namesOut.Length == |KeptIndices(types)|
    modifies out, namesOut
    ensures out[..] == Kept(cols, types)
    ensures namesOut[..] == Kept(names, types)
  {
    var p := |cols|;
    var jOut := 0;
    var j := 0;
    while j < p
      invariant 0 <= j <= p
      invariant jOut == |KeptIndices(types[..j])| <= out.Length
      invariant out[..jOut] == Kept(cols, types[..j])
      invariant namesOut[..jOut] == Kept(names, types[..j])
    {
      PrefixKept(types, j + 1);
      if types[j] != ColSkip {
        KeptKeep(cols, types, j);
        KeptKeep(names, types, j);
        out[jOut] := cols[j];
        namesOut[jOut] := names[j];
        assert out[..jOut + 1] == out[..jOut] + [cols[j]];
        assert namesOut[..jOut + 1] == namesOut[..jOut] + [names[j]];
        jOut := jOut + 1;
      } else {
        KeptSkip(cols, types, j);
        KeptSkip(names, types, j);
      }
      j := j + 1;
    }
    assert types[..p] == types;
    assert out[..] == out[..jOut];
    assert namesOut[..] == namesOut[..jOut];
  }

  /**
   * Drops every column whose type is `ColSkip`: counts the kept columns,
   * allocates the output list and its names, and copies the kept columns
   * and their names across in their original order.
   */
  method RemoveSkippedColumns(cols: seq<Column>, names: seq<string>, types: seq<ColType>)
    returns (out: array<Column>, namesOut: array<string>)
    requires |names| >= |cols| && |types| >= |cols|
    ensures fresh(out) && fresh(namesOut)
    ensures out.Length == namesOut.Length == |cols| - multiset(types[..|cols|])[ColSkip]
    ensures out[..] == Kept(cols, types[..|cols|])
    ensures namesOut[..] == Kept(names[..|cols|], types[..|cols|])
  {
    var p := |cols|;
    var pOut := CountKept(types, p);
    out := new Column[pOut](_ => Null);
    namesOut := new string[pOut](_ => "");
    CopyKept(cols, names[..p], types[..p], out, namesOut);
  }

  /** The kept positions of a prefix are a prefix of the kept positions. */
  lemma {:induction false} PrefixKept(types: seq<ColType>, n: nat)
    requires n <= |types|
    ensures |KeptIndices(types[..n])| <= |KeptIndices(types)|
    decreases |types| - n
  {
    if n < |types| {
      PrefixKept(types, n + 1);
      assert types[..n + 1][..n] == types[..n];
      assert types[..n + 1][..n + 1] == types[..n + 1];
    } else {
      assert types[..n] == types;
    }
  }

  /**
   * The k-th remaining column and the k-th remaining name come from the same
   * input position, and that position was not skipped.
   */
  lemma KeptNamesMatchColumns(cols: seq<Column>, names: seq<string>, types: seq<ColType>, k: nat)
    requires |names| == |types| == |cols| && k < |Kept(cols, types)|
    ensures exists j ::
              && 0 <= j < |types| && types[j] != ColSkip
              && Kept(cols, types)[k] == cols[j] && Kept(names, types)[k] == names[j]
  {
    KeptAt(cols, types, k);
    KeptAt(names, types, k);
    KeptIndicesExact(types);
    var j := KeptIndices(types)[k];
    assert types[j] != ColSkip && Kept(cols, types)[k] == cols[j] && Kept(names, types)[k] == names[j];
  }

  /** Skipping the first of two columns leaves the second column under its own name. */
  lemma SkipFirstOfTwo(cols: seq<Column>, names: seq<string>)
    requires |cols| == |names| == 2
    ensures Kept(cols, [ColSkip, ColNumeric]) == [cols[1]]
    ensures Kept(names, [ColSkip, ColNumeric]) == [names[1]]
  {
  }
}
