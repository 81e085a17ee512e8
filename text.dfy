/** JavaScript string helpers used by the search handlers and the query string. */
module Text {

  /** The number of ECMAScript WhiteSpace and LineTerminator code points. */
  const SpaceCount := 25

  /** The `k`-th of the code points `String.prototype.trim` strips. */
  function SpaceAt(k: nat): char
    requires k < SpaceCount
  {
    if k < 6 then ['\t', '\n', '\U{B}', '\U{C}', '\r', ' '][k]
    else if k < 8 then ['\U{A0}', '\U{1680}'][k - 6]
    else if k < 19 then ('\U{2000}' as int + (k - 8)) as char
    else ['\U{2028}', '\U{2029}', '\U{202F}', '\U{205F}', '\U{3000}', '\U{FEFF}'][k - 19]
  }

  /** `c` is one of the white-space code points from the `k`-th on. */
  predicate SpaceFrom(c: char, k: nat)
    decreases SpaceCount - k
  {
    k < SpaceCount && (c == SpaceAt(k) || SpaceFrom(c, k + 1))
  }

  /** ECMAScript WhiteSpace and LineTerminator, the characters `String.prototype.trim` strips. */
  predicate IsSpace(c: char) {
    SpaceFrom(c, 0)
  }

  predicate Blank(s: string) {
    forall i :: 0 <= i < |s| ==> IsSpace(s[i])
  }

  /** Drops leading white space: the result is the longest suffix that does not start with a space. */
  function TrimStart(s: string): (r: string)
    ensures |r| <= |s| && r == s[|s| - |r|..]
    ensures forall i :: 0 <= i < |s| - |r| ==> IsSpace(s[i])
    ensures r == [] || !IsSpace(r[0])
    decreases |s|
  {
    if s != [] && IsSpace(s[0]) then TrimStart(s[1..]) else s
  }

  /** Drops trailing white space: the result is the longest prefix that does not end with a space. */
  function TrimEnd(s: string): (r: string)
    ensures |r| <= |s| && r == s[..|r|]
    ensures forall i :: |r| <= i < |s| ==> IsSpace(s[i])
    ensures r == [] || !IsSpace(r[|r| - 1])
    decreases |s|
  {
    if s != [] && IsSpace(s[|s| - 1]) then TrimEnd(s[..|s| - 1]) else s
  }

  /** `s.trim()`. */
  function Trim(s: string): (r: string)
    ensures |r| <= |s|
    ensures r == [] || !IsSpace(r[|r| - 1])
  {
    TrimEnd(TrimStart(s))
  }

  /** Cutting a suffix `t` of `s` down to its prefix `u`: each character of `u` is the
      character of `s` at the same place, and what `u` leaves of `t` is white space in `s`. */
  lemma PrefixOfSuffix(s: string, t: string, u: string)
    requires |t| <= |s| && t == s[|s| - |t|..]
    requires |u| <= |t| && u == t[..|u|]
    requires forall k :: |u| <= k < |t| ==> IsSpace(t[k])
    ensures forall k :: 0 <= k < |u| ==> u[k] == s[|s| - |t| + k]
    ensures forall k :: |s| - |t| + |u| <= k < |s| ==> IsSpace(s[k])
  {
    var i := |s| - |t|;
    forall k | i + |u| <= k < |s|
      ensures IsSpace(s[k])
    {
      assert s[k] == t[k - i];
    }
  }

  /** `s.trim()` is a contiguous slice of `s`, starting where the leading white space ends:
      everything it cuts before and after is white space. */
  lemma TrimIsSlice(s: string)
    ensures var i := |s| - |TrimStart(s)|;
            i + |Trim(s)| <= |s|
            && (forall k :: 0 <= k < |Trim(s)| ==> Trim(s)[k] == s[i + k])
            && (forall k :: 0 <= k < i ==> IsSpace(s[k]))
            && (forall k :: i + |Trim(s)| <= k < |s| ==> IsSpace(s[k]))
  {
    var t := TrimStart(s);
    assert Trim(s) == TrimEnd(t);
    PrefixOfSuffix(s, t, TrimEnd(t));
  }

  /** Nothing the trim keeps starts or ends with white space. */
  lemma TrimLeavesNoSpaceAtEnds(s: string)
    ensures Trim(s) == [] || (!IsSpace(Trim(s)[0]) && !IsSpace(Trim(s)[|Trim(s)| - 1]))
  {
    var t := TrimStart(s);
    var u := TrimEnd(t);
    assert Trim(s) == u;
    if u != [] {
      assert u == t[..|u|];
      assert u[0] == t[0];
    }
  }

  /** The trimmed text is empty exactly when the whole input is white space. */
  lemma {:induction false} TrimEmptyIffBlank(s: string)
    ensures Trim(s) == [] <==> Blank(s)
  {
    var t := TrimStart(s);
    assert Trim(s) == TrimEnd(t);
    PrefixOfSuffix(s, t, TrimEnd(t));
    if t != [] {
      assert t[0] == s[|s| - |t|];
    }
  }

  /** The number a string of decimal digits denotes, read from the left as `parseInt` does. */
  function DecimalValue(s: string): int {
    if s == [] then 0 else 10 * DecimalValue(s[..|s| - 1]) + (s[|s| - 1] as int - '0' as int)
  }

  /** The number an optionally signed decimal numeral denotes. */
  function IntValue(s: string): int {
    if s != [] && s[0] == '-' then -DecimalValue(s[1..]) else DecimalValue(s)
  }

  /** Decimal digits of a natural number, as `String(n)` writes it: they read back as `n`. */
  function NatText(n: nat): (r: string)
    ensures r != []
    ensures forall i :: 0 <= i < |r| ==> '0' <= r[i] <= '9'
    ensures DecimalValue(r) == n
    ensures r[0] == '0' ==> r == "0"
  {
    var d := [('0' as int + n % 10) as char];
    if n < 10 then d else NatText(n / 10) + d
  }

  /** `String(n)` for an integer `n`: a minus sign exactly for a negative number, and the
      numeral reads back as `n`, so different numbers are written differently. */
  function IntText(n: int): (r: string)
    ensures r != [] && (r[0] == '-' <==> n < 0)
    ensures forall i :: (if n < 0 then 1 else 0) <= i < |r| ==> '0' <= r[i] <= '9'
    ensures r[0] == '0' ==> r == "0"
    ensures n < 0 ==> |r| >= 2 && r[1] != '0'
    ensures IntValue(r) == n
  {
    if n < 0 then "-" + NatText(-n) else NatText(n)
  }
}
