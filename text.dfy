/** The string functions `trim` and `lower` that normalise `order_status` and
    `payment_type`. Spark's `trim` removes the space character U+0020 from both
    ends (other whitespace stays); `lower` is modelled on ASCII letters. */
module Text {
  import opened Wrappers

  predicate IsUpper(c: char) { 'A' <= c <= 'Z' }

  /** The string neither starts nor ends with a space. */
  predicate NoEdgeSpace(s: string)
  {
    s == [] || (s[0] != ' ' && s[|s| - 1] != ' ')
  }

  predicate NoUpper(s: string)
  {
    forall i :: 0 <= i < |s| ==> !IsUpper(s[i])
  }

  /** What `lower(trim(x))` produces. */
  predicate Normalized(s: string)
  {
    NoEdgeSpace(s) && NoUpper(s)
  }

  /** Removes the leading spaces: the result is a suffix of `s`, everything
      cut off is a space, and the result does not start with one. */
  function TrimStart(s: string): (r: string)
    ensures |r| <= |s| && r == s[|s| - |r|..]
    ensures forall i :: 0 <= i < |s| - |r| ==> s[i] == ' '
    ensures r == [] || r[0] != ' '
    decreases |s|
  {
    if s != [] && s[0] == ' ' then TrimStart(s[1..]) else s
  }

  /** Removes the trailing spaces: the result is a prefix of `s`, everything
      cut off is a space, and the result does not end with one. */
  function TrimEnd(s: string): (r: string)
    ensures |r| <= |s| && r == s[..|r|]
    ensures forall i :: |r| <= i < |s| ==> s[i] == ' '
    ensures r == [] || r[|r| - 1] != ' '
    decreases |s|
  {
    if s != [] && s[|s| - 1] == ' ' then TrimEnd(s[..|s| - 1]) else s
  }

  /** `r` is the slice of `s` starting at `i`, and only spaces lie outside it. */
  predicate SliceBetweenSpaces(s: string, r: string, i: int)
  {
    && 0 <= i <= i + |r| <= |s|
    && r == s[i..i + |r|]
    && (forall k :: 0 <= k < i ==> s[k] == ' ')
    && (forall k :: i + |r| <= k < |s| ==> s[k] == ' ')
  }

  /** Spark `trim`: the result is what lies between the leading and the
      trailing run of spaces. */
  function Trim(s: string): (r: string)
    ensures NoEdgeSpace(r)
    ensures exists i :: SliceBetweenSpaces(s, r, i)
  {
    TrimIsSlice(s);
    TrimEnd(TrimStart(s))
  }

  /** Trimming the end of what `TrimStart` left keeps a slice of `s` with only
      spaces outside it. */
  lemma TrimIsSlice(s: string)
    ensures SliceBetweenSpaces(s, TrimEnd(TrimStart(s)), |s| - |TrimStart(s)|)
  {
    var t := TrimStart(s);
    var r := TrimEnd(t);
    var i := |s| - |t|;
    assert r == s[i..][..|r|] == s[i..i + |r|];
    forall k | i + |r| <= k < |s|
      ensures s[k] == ' '
    {
      assert s[k] == t[k - i];
    }
  }

  function LowerChar(c: char): (d: char)
  {
    if IsUpper(c) then (c as int - 'A' as int + 'a' as int) as char else c
  }

  /** Spark `lower`, position by position. */
  function Lower(s: string): (r: string)
    ensures |r| == |s|
    ensures NoUpper(r)
  {
    seq(|s|, i requires 0 <= i < |s| => LowerChar(s[i]))
  }

  /** What `lower` does to each character: an upper-case letter becomes the
      letter 32 code points above it, and every other character is kept. */
  lemma LowerEachChar(s: string)
    ensures forall i :: 0 <= i < |s| && !IsUpper(s[i]) ==> Lower(s)[i] == s[i]
    ensures forall i :: 0 <= i < |s| && IsUpper(s[i]) ==> Lower(s)[i] as int == s[i] as int + 32
  {
  }

  function Normalize(s: string): string
  {
    Lower(Trim(s))
  }

  /** `lower(trim(x))` with SQL null propagation. */
  function NormalizeColumn(x: Option<string>): (r: Option<string>)
    ensures r.Some? <==> x.Some?
  {
    match x
    case None => None
    case Some(s) => Some(Normalize(s))
  }

  lemma {:induction false} TrimOfNoEdgeSpace(s: string)
    requires NoEdgeSpace(s)
    ensures Trim(s) == s
  {
    assert TrimStart(s) == s;
    assert TrimEnd(s) == s;
  }

  lemma LowerKeepsSpaces(s: string)
    ensures NoEdgeSpace(s) ==> NoEdgeSpace(Lower(s))
  {
  }

  lemma LowerIdempotent(s: string)
    ensures Lower(Lower(s)) == Lower(s)
  {
  }

  /** The normalised value has no surrounding space and no upper-case letter, and
      normalising it again changes nothing. */
  lemma {:induction false} NormalizeSpec(s: string)
    ensures Normalized(Normalize(s))
    ensures Normalize(Normalize(s)) == Normalize(s)
  {
    var n := Normalize(s);
    LowerKeepsSpaces(Trim(s));
    TrimOfNoEdgeSpace(n);
    LowerIdempotent(Trim(s));
  }

  /** The same facts for a column value, null included. */
  lemma NormalizeColumnSpec(x: Option<string>)
    ensures NormalizeColumn(x).Some? ==> Normalized(NormalizeColumn(x).value)
    ensures NormalizeColumn(NormalizeColumn(x)) == NormalizeColumn(x)
  {
    if x.Some? {
      NormalizeSpec(x.value);
    }
  }
}
