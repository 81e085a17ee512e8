/**
 * The cache key of the request layer: `encodeURIComponent` (percent-encoding of the UTF-8
 * bytes of every character outside the unreserved set, in the style of section 2.1 of
 * RFC 3986), the `key=value&...` query string in the parameters' own order, and the URL.
 */
module Query {
  const ApiBase: string := "https://api.jikan.moe/v4"

  /** The characters `encodeURIComponent` leaves as they are. */
  predicate Unreserved(c: char) {
    ('A' <= c <= 'Z') || ('a' <= c <= 'z') || ('0' <= c <= '9') ||
    c == '-' || c == '_' || c == '.' || c == '!' || c == '~' || c == '*' || c == '\'' || c == '(' || c == ')'
  }

  /** Text made only of unreserved characters and `%`: what `encodeURIComponent` produces. */
  predicate Encoded(t: string) {
    forall i :: 0 <= i < |t| ==> Unreserved(t[i]) || t[i] == '%'
  }

  predicate IsByte(b: int) { 0 <= b < 256 }

  /** Upper-case hexadecimal digit of a value below 16. */
  function HexDigit(d: int): (c: char)
    requires 0 <= d < 16
    ensures Unreserved(c)
  {
    if d < 10 then ('0' as int + d) as char else ('A' as int + d - 10) as char
  }

  lemma HexDigitInjective(d: int, e: int)
    requires 0 <= d < 16 && 0 <= e < 16
    requires HexDigit(d) == HexDigit(e)
    ensures d == e
  {
  }

  /** The high and low hexadecimal digit values of a byte. */
  function High(b: int): (d: int)
    requires IsByte(b)
    ensures 0 <= d < 16
  {
    b / 16
  }

  function Low(b: int): (d: int)
    requires IsByte(b)
    ensures 0 <= d < 16 && b == 16 * High(b) + d
  {
    b % 16
  }

  /** The number of bytes of a UTF-8 sequence, read off its first byte. */
  function Utf8Length(lead: int): nat {
    if lead < 0x80 then 1 else if lead < 0xE0 then 2 else if lead < 0xF0 then 3 else 4
  }

  /** The code point a well-formed UTF-8 sequence stands for. */
  function Utf8Value(bs: seq<int>): int {
    if |bs| == 1 then bs[0]
    else if |bs| == 2 then (bs[0] - 0xC0) * 64 + (bs[1] - 0x80)
    else if |bs| == 3 then (bs[0] - 0xE0) * 4096 + (bs[1] - 0x80) * 64 + (bs[2] - 0x80)
    else if |bs| == 4 then (bs[0] - 0xF0) * 262144 + (bs[1] - 0x80) * 4096 + (bs[2] - 0x80) * 64 + (bs[3] - 0x80)
    else 0
  }

  lemma SixBitGroups(n: int)
    requires n >= 0
    ensures n == 64 * (n / 64) + n % 64
    ensures n / 64 == 64 * (n / 4096) + (n / 64) % 64
    ensures n / 4096 == 64 * (n / 262144) + (n / 4096) % 64
  {
    var q, p := n / 64, n / 64 / 64;
    assert n == 4096 * p + 64 * (q % 64) + n % 64;
    assert n / 4096 == p;
    var o := p / 64;
    assert n == 262144 * o + 4096 * (p % 64) + 64 * (q % 64) + n % 64;
    assert n / 262144 == o;
  }

  /** The UTF-8 encoding of one character, as byte values. */
  function Utf8(c: char): (bs: seq<int>)
    ensures 1 <= |bs| <= 4 && |bs| == Utf8Length(bs[0])
    ensures forall i :: 0 <= i < |bs| ==> IsByte(bs[i])
    ensures Utf8Value(bs) == c as int
    ensures c as int < 0x80 ==> |bs| == 1
    ensures 0x80 <= c as int < 0x800 ==> |bs| == 2
    ensures 0x800 <= c as int < 0x10000 ==> |bs| == 3
    ensures 0x10000 <= c as int ==> |bs| == 4
    ensures |bs| > 1 ==> 0xC2 <= bs[0]
    ensures forall i :: 1 <= i < |bs| ==> 0x80 <= bs[i] < 0xC0
  {
    var n := c as int;
    SixBitGroups(n);
    if n < 0x80 then [n]
    else if n < 0x800 then [0xC0 + n / 64, 0x80 + n % 64]
    else if n < 0x10000 then [0xE0 + n / 4096, 0x80 + (n / 64) % 64, 0x80 + n % 64]
    else [0xF0 + n / 262144, 0x80 + (n / 4096) % 64, 0x80 + (n / 64) % 64, 0x80 + n % 64]
  }

  /** `%XY` for every byte, `XY` its two upper-case hexadecimal digits. */
  function Escape(bs: seq<int>): (t: string)
    requires forall i :: 0 <= i < |bs| ==> IsByte(bs[i])
    ensures |t| == 3 * |bs|
    ensures forall i :: 0 <= i < |bs| ==> t[3 * i] == '%'
    ensures forall i :: 0 <= i < |bs| ==> t[3 * i + 1] == HexDigit(High(bs[i])) && t[3 * i + 2] == HexDigit(Low(bs[i]))
    ensures Encoded(t)
  {
    if bs == [] then []
    else
      var rest := Escape(bs[1..]);
      EscapeCons(bs, rest);
      ['%', HexDigit(High(bs[0])), HexDigit(Low(bs[0]))] + rest
  }

  /** The escape of the first byte in front of the escape of the others escapes them all. */
  lemma EscapeCons(bs: seq<int>, rest: string)
    requires bs != [] && forall i :: 0 <= i < |bs| ==> IsByte(bs[i])
    requires |rest| == 3 * (|bs| - 1) && Encoded(rest)
    requires forall i :: 0 <= i < |bs| - 1 ==> rest[3 * i] == '%'
    requires forall i :: 0 <= i < |bs| - 1 ==>
               rest[3 * i + 1] == HexDigit(High(bs[1..][i])) && rest[3 * i + 2] == HexDigit(Low(bs[1..][i]))
    ensures var t := ['%', HexDigit(High(bs[0])), HexDigit(Low(bs[0]))] + rest;
            && |t| == 3 * |bs|
            && (forall i :: 0 <= i < |bs| ==> t[3 * i] == '%')
            && (forall i :: 0 <= i < |bs| ==> t[3 * i + 1] == HexDigit(High(bs[i])) && t[3 * i + 2] == HexDigit(Low(bs[i])))
            && Encoded(t)
  {
    var t := ['%', HexDigit(High(bs[0])), HexDigit(Low(bs[0]))] + rest;
    assert forall i :: 1 <= i < |bs| ==> t[3 * i] == rest[3 * (i - 1)] && bs[i] == bs[1..][i - 1];
  }

  /** `encodeURIComponent` of one character. */
  function EncodeChar(c: char): (t: string)
    ensures t != [] && Encoded(t)
    ensures Unreserved(c) <==> t == [c]
    ensures Unreserved(t[0]) <==> Unreserved(c)
  {
    if Unreserved(c) then [c] else Escape(Utf8(c))
  }

  /** `encodeURIComponent(s)`. */
  function EncodeComponent(s: string): (t: string)
    ensures Encoded(t)
    ensures |t| >= |s|
  {
    if s == [] then [] else EncodeChar(s[0]) + EncodeComponent(s[1..])
  }

  /** Two escaped UTF-8 sequences that agree on a common prefix of the text are the same sequence. */
  lemma EscapedPrefixFree(A: seq<int>, B: seq<int>, x: string, y: string)
    requires 1 <= |A| && forall i :: 0 <= i < |A| ==> IsByte(A[i])
    requires 1 <= |B| && forall i :: 0 <= i < |B| ==> IsByte(B[i])
    requires |A| == Utf8Length(A[0]) && |B| == Utf8Length(B[0])
    requires Escape(A) + x == Escape(B) + y
    ensures A == B
  {
    var l := Escape(A) + x;
    assert l[1] == Escape(A)[3 * 0 + 1] == Escape(B)[3 * 0 + 1];
    assert l[2] == Escape(A)[3 * 0 + 2] == Escape(B)[3 * 0 + 2];
    HexDigitInjective(High(A[0]), High(B[0]));
    HexDigitInjective(Low(A[0]), Low(B[0]));
    assert A[0] == B[0];
    forall i | 0 <= i < |A|
      ensures A[i] == B[i]
    {
      assert l[3 * i + 1] == Escape(A)[3 * i + 1] == Escape(B)[3 * i + 1];
      assert l[3 * i + 2] == Escape(A)[3 * i + 2] == Escape(B)[3 * i + 2];
      HexDigitInjective(High(A[i]), High(B[i]));
      HexDigitInjective(Low(A[i]), Low(B[i]));
    }
  }

  /** Text made only of unreserved characters is sent as it is. */
  lemma {:induction false} UnreservedUnchanged(s: string)
    requires forall i :: 0 <= i < |s| ==> Unreserved(s[i])
    ensures EncodeComponent(s) == s
  {
    if s != [] {
      UnreservedUnchanged(s[1..]);
      assert s == [s[0]] + s[1..];
    }
  }

  /** No character's encoding is a proper prefix of another's: the encoding is a prefix code. */
  lemma EncodeCharPrefixFree(a: char, b: char, x: string, y: string)
    requires EncodeChar(a) + x == EncodeChar(b) + y
    ensures a == b && x == y
  {
    var l := EncodeChar(a) + x;
    assert l[0] == EncodeChar(a)[0] == EncodeChar(b)[0];
    if !Unreserved(a) {
      EscapedPrefixFree(Utf8(a), Utf8(b), x, y);
    }
    assert EncodeChar(a) == EncodeChar(b);
    assert x == l[|EncodeChar(a)|..] == y;
  }

  /** Distinct texts have distinct encodings: the encoder loses nothing. */
  lemma {:induction false} EncodeComponentInjective(s: string, t: string)
    requires EncodeComponent(s) == EncodeComponent(t)
    ensures s == t
  {
    if s != [] && t != [] {
      EncodeCharPrefixFree(s[0], t[0], EncodeComponent(s[1..]), EncodeComponent(t[1..]));
      EncodeComponentInjective(s[1..], t[1..]);
      assert s == [s[0]] + s[1..];
      assert t == [t[0]] + t[1..];
    }
  }

  /** `key=value`, both encoded: the `=` is the first one, and no `&` occurs. */
  function Pair(p: (string, string)): (r: string)
    ensures '&' !in r
    ensures FirstIndex(r, '=') == |EncodeComponent(p.0)|
  {
    var key, value := EncodeComponent(p.0), EncodeComponent(p.1);
    EncodedLacks(key, '&');
    EncodedLacks(value, '&');
    EncodedLacks(key, '=');
    FirstIndexAfter(key, value, '=');
    key + "=" + value
  }

  /** The `key=value` pairs joined by `&`, in the order the parameters are given. */
  function QueryString(params: seq<(string, string)>): (r: string)
    ensures r == [] <==> params == []
  {
    if params == [] then []
    else if |params| == 1 then Pair(params[0])
    else Pair(params[0]) + "&" + QueryString(params[1..])
  }

  /** The request URL, which is also the cache key: `?` and the query only when there is one. */
  function Url(endpoint: string, params: seq<(string, string)>): (r: string)
    ensures |r| >= |ApiBase| + 1 + |endpoint| && r[..|ApiBase| + 1 + |endpoint|] == ApiBase + "/" + endpoint
  {
    var query := QueryString(params);
    ApiBase + "/" + endpoint + (if query != [] then "?" + query else "")
  }

  /** No parameters, no `?`: the URL is the bare endpoint exactly when the parameter list is empty. */
  lemma BareUrlIffNoParams(endpoint: string, params: seq<(string, string)>)
    ensures Url(endpoint, params) == ApiBase + "/" + endpoint <==> params == []
    ensures params != [] ==> Url(endpoint, params) == ApiBase + "/" + endpoint + "?" + QueryString(params)
  {
  }

  lemma EncodedLacks(t: string, c: char)
    requires Encoded(t) && !Unreserved(c) && c != '%'
    ensures c !in t
  {
  }

  /** The position of the first `c` in `s`, or `|s|` when there is none. */
  function FirstIndex(s: string, c: char): (k: nat)
    ensures k <= |s|
  {
    if s == [] then 0 else if s[0] == c then 0 else 1 + FirstIndex(s[1..], c)
  }

  lemma {:induction false} FirstIndexAbsent(s: string, c: char)
    requires c !in s
    ensures FirstIndex(s, c) == |s|
  {
    if s != [] {
      FirstIndexAbsent(s[1..], c);
    }
  }

  lemma {:induction false} FirstIndexAfter(a: string, x: string, c: char)
    requires c !in a
    ensures FirstIndex(a + [c] + x, c) == |a|
  {
    if a != [] {
      assert (a + [c] + x)[1..] == a[1..] + [c] + x;
      FirstIndexAfter(a[1..], x, c);
    }
  }

  /** Cutting at the first separator: the part before it is determined when it cannot hold one. */
  lemma SplitAtSeparator(a: string, x: string, b: string, y: string, sep: char)
    requires sep !in a && sep !in b
    requires a + [sep] + x == b + [sep] + y
    ensures a == b && x == y
  {
    var l := a + [sep] + x;
    FirstIndexAfter(a, x, sep);
    FirstIndexAfter(b, y, sep);
    assert a == l[..|a|] == b;
    assert x == l[|a| + 1..] == y;
  }

  lemma PairShape(p: (string, string))
    ensures '&' !in Pair(p)
    ensures '=' !in EncodeComponent(p.0) && '=' !in EncodeComponent(p.1)
  {
    EncodedLacks(EncodeComponent(p.0), '&');
    EncodedLacks(EncodeComponent(p.1), '&');
    EncodedLacks(EncodeComponent(p.0), '=');
    EncodedLacks(EncodeComponent(p.1), '=');
    assert Pair(p) == EncodeComponent(p.0) + ['='] + EncodeComponent(p.1);
  }

  lemma PairInjective(p: (string, string), q: (string, string))
    requires Pair(p) == Pair(q)
    ensures p == q
  {
    PairShape(p);
    PairShape(q);
    SplitAtSeparator(EncodeComponent(p.0), EncodeComponent(p.1), EncodeComponent(q.0), EncodeComponent(q.1), '=');
    EncodeComponentInjective(p.0, q.0);
    EncodeComponentInjective(p.1, q.1);
  }

  /** The first `&` of a query string ends its first pair. */
  lemma FirstSeparator(ps: seq<(string, string)>)
    requires ps != []
    ensures FirstIndex(QueryString(ps), '&') == |Pair(ps[0])|
    ensures QueryString(ps)[..|Pair(ps[0])|] == Pair(ps[0])
  {
    PairShape(ps[0]);
    if |ps| == 1 {
      FirstIndexAbsent(Pair(ps[0]), '&');
    } else {
      FirstIndexAfter(Pair(ps[0]), QueryString(ps[1..]), '&');
    }
  }

  /** Distinct parameter lists, including two orders of the same pairs, give distinct query strings. */
  lemma {:induction false} QueryStringInjective(ps: seq<(string, string)>, qs: seq<(string, string)>)
    requires QueryString(ps) == QueryString(qs)
    ensures ps == qs
    decreases |ps|
  {
    if ps != [] && qs != [] {
      SameFirstPair(ps, qs);
      SameRest(ps, qs);
      if |ps| > 1 {
        QueryStringInjective(ps[1..], qs[1..]);
        SameHeadSameTail(ps, qs);
      }
    }
  }

  /** Two non-empty sequences that agree on their first entry and on the rest are equal. */
  lemma SameHeadSameTail<T>(a: seq<T>, b: seq<T>)
    requires a != [] && b != [] && a[0] == b[0] && a[1..] == b[1..]
    ensures a == b
  {
    assert a == [a[0]] + a[1..] && b == [b[0]] + b[1..];
  }

  /** Equal query strings start with the same parameter. */
  lemma SameFirstPair(ps: seq<(string, string)>, qs: seq<(string, string)>)
    requires ps != [] && qs != [] && QueryString(ps) == QueryString(qs)
    ensures ps[0] == qs[0]
  {
    FirstSeparator(ps);
    FirstSeparator(qs);
    PairInjective(ps[0], qs[0]);
  }

  /** Equal query strings with the same first parameter go on with equal query strings. */
  lemma SameRest(ps: seq<(string, string)>, qs: seq<(string, string)>)
    requires ps != [] && qs != [] && QueryString(ps) == QueryString(qs) && ps[0] == qs[0]
    ensures |ps| > 1 <==> |qs| > 1
    ensures |ps| > 1 ==> QueryString(ps[1..]) == QueryString(qs[1..])
  {
    if |ps| > 1 {
      AfterFirstPair(ps);
    }
    if |qs| > 1 {
      AfterFirstPair(qs);
    }
  }

  /** Past the first pair of a longer list come its `&` and the query string of the rest. */
  lemma AfterFirstPair(ps: seq<(string, string)>)
    requires |ps| > 1
    ensures |QueryString(ps)| > |Pair(ps[0])|
    ensures QueryString(ps)[|Pair(ps[0])| + 1..] == QueryString(ps[1..])
  {
    var head := Pair(ps[0]);
    assert QueryString(ps) == head + "&" + QueryString(ps[1..]);
  }

  /** For one endpoint, the cache key determines the parameter list, order included. */
  lemma UrlInjective(endpoint: string, ps: seq<(string, string)>, qs: seq<(string, string)>)
    requires Url(endpoint, ps) == Url(endpoint, qs)
    ensures ps == qs
  {
    var prefix := ApiBase + "/" + endpoint;
    var u := Url(endpoint, ps);
    var a, b := QueryString(ps), QueryString(qs);
    var sa := if a != [] then "?" + a else "";
    var sb := if b != [] then "?" + b else "";
    assert u == prefix + sa == prefix + sb;
    assert sa == u[|prefix|..] == sb;
    if a != [] && b != [] {
      assert a == sa[1..] == sb[1..] == b;
    }
    QueryStringInjective(ps, qs);
  }

  /** The cache is not canonicalised: the same two parameters in the other order are another key. */
  lemma ParamOrderMatters(endpoint: string, p: (string, string), q: (string, string))
    requires p != q
    ensures Url(endpoint, [p, q]) != Url(endpoint, [q, p])
  {
    if Url(endpoint, [p, q]) == Url(endpoint, [q, p]) {
      UrlInjective(endpoint, [p, q], [q, p]);
    }
  }
}
