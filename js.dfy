/** The few JavaScript value and string operations the handlers and pages
    depend on: the shape of a request-body value, `String.prototype.trim`,
    `split(" ")`, `startsWith` and the decimal rendering of a counter. */
module Js {
  import opened Wrappers

  /** A value read from a parsed JSON request body. */
  datatype JsValue = Undefined | Null | Boolean(b: bool) | Number(n: int) | Text(s: string) | Compound

  /** `!v || typeof v !== 'string'` fails exactly for everything but a non-empty string. */
  predicate IsNonEmptyText(v: JsValue) {
    v.Text? && v.s != ""
  }

  /** Truthiness of an optional string: `undefined` and `""` are falsy. */
  predicate Truthy(s: Option<string>) {
    s.Some? && s.value != ""
  }

  /** Template-literal interpolation `${v}` of an optional string. */
  function Interpolate(s: Option<string>): string {
    if s.Some? then s.value else "undefined"
  }

  // ---------------------------------------------------------------------------
  // String.prototype.trim

  /** The characters `trim` strips: ECMAScript WhiteSpace and LineTerminator. */
  predicate IsTrimmable(c: char) {
    c == '\t' || c == '\n' || c == '\U{B}' || c == '\U{C}' || c == '\r' || c == ' '
    || c == '\U{A0}' || c == '\U{1680}' || ('\U{2000}' <= c <= '\U{200A}')
    || c == '\U{2028}' || c == '\U{2029}' || c == '\U{202F}' || c == '\U{205F}'
    || c == '\U{3000}' || c == '\U{FEFF}'
  }

  predicate AllTrimmable(s: string) {
    forall i :: 0 <= i < |s| ==> IsTrimmable(s[i])
  }

  /** Drops the leading trimmable characters: the result is a suffix of `s`
      and exactly what was dropped is trimmable. */
  function TrimStart(s: string): (r: string)
    ensures |r| <= |s| && r == s[|s| - |r|..]
    ensures AllTrimmable(s[..|s| - |r|])
    ensures r == [] || !IsTrimmable(r[0])
  {
    if s != [] && IsTrimmable(s[0]) then TrimStart(s[1..]) else s
  }

  /** Drops the trailing trimmable characters: the result is a prefix of `s`
      and exactly what was dropped is trimmable. */
  function TrimEnd(s: string): (r: string)
    ensures |r| <= |s| && r == s[..|r|]
    ensures AllTrimmable(s[|r|..])
    ensures r == [] || !IsTrimmable(r[|r| - 1])
  {
    if s != [] && IsTrimmable(s[|s| - 1]) then TrimEnd(s[..|s| - 1]) else s
  }

  /** `s.trim()`: neither end of the result is trimmable, the result is empty
      exactly for an all-blank string, and it is `TrimStart(s)` with only
      trimmable characters cut from its end. */
  function Trim(s: string): (r: string)
    ensures |r| <= |s|
    ensures r == [] || (!IsTrimmable(r[0]) && !IsTrimmable(r[|r| - 1]))
    ensures r == [] <==> AllTrimmable(s)
    ensures |r| <= |TrimStart(s)| && r == TrimStart(s)[..|r|] && AllTrimmable(TrimStart(s)[|r|..])
  {
    var t := TrimStart(s);
    assert t == [] ==> AllTrimmable(s) by {
      if t == [] { assert s[..|s| - |t|] == s; }
    }
    TrimEnd(t)
  }

  lemma {:induction false} TrimStartSkips(w: string, t: string)
    requires AllTrimmable(w)
    ensures TrimStart(w + t) == TrimStart(t)
    decreases |w|
  {
    if w != [] {
      assert (w + t)[1..] == w[1..] + t;
      TrimStartSkips(w[1..], t);
    } else {
      assert w + t == t;
    }
  }

  lemma {:induction false} TrimStartKeeps(s: string, t: string)
    requires TrimStart(s) != []
    ensures TrimStart(s + t) == TrimStart(s) + t
    decreases |s|
  {
    assert s != [];
    assert (s + t)[0] == s[0];
    if IsTrimmable(s[0]) {
      assert (s + t)[1..] == s[1..] + t;
      TrimStartKeeps(s[1..], t);
    }
  }

  lemma {:induction false} TrimEndSkips(t: string, w: string)
    requires AllTrimmable(w)
    ensures TrimEnd(t + w) == TrimEnd(t)
    decreases |w|
  {
    if w != [] {
      var tw := t + w;
      assert IsTrimmable(tw[|tw| - 1]);
      assert tw[..|tw| - 1] == t + w[..|w| - 1];
      TrimEndSkips(t, w[..|w| - 1]);
    } else {
      assert t + w == t;
    }
  }

  /** Padding on either side never changes what `trim` returns. */
  lemma TrimIgnoresPadding(lead: string, s: string, trail: string)
    requires AllTrimmable(lead) && AllTrimmable(trail)
    ensures Trim(lead + s + trail) == Trim(s)
  {
    assert lead + s + trail == lead + (s + trail);
    TrimStartSkips(lead, s + trail);
    if TrimStart(s) == [] {
      assert AllTrimmable(s) by { assert s[..|s| - 0] == s; }
      assert AllTrimmable(s + trail);
      assert TrimStart(s + trail) == [];
    } else {
      TrimStartKeeps(s, trail);
      TrimEndSkips(TrimStart(s), trail);
    }
  }

  /** A string with clean ends is its own trim. */
  lemma TrimKeepsCleanString(s: string)
    requires s == [] || (!IsTrimmable(s[0]) && !IsTrimmable(s[|s| - 1]))
    ensures Trim(s) == s
  {
  }

  // ---------------------------------------------------------------------------
  // String.prototype.split(" ")

  /** `s.split(" ")`: the pieces between single spaces; splitting "" gives [""].
      There is one more piece than there are spaces, and no piece holds one. */
  function SplitSpaces(s: string): (parts: seq<string>)
    ensures |parts| == multiset(s)[' '] + 1
    ensures forall k :: 0 <= k < |parts| ==> ' ' !in parts[k]
  {
    if s == [] then [""]
    else
      assert s == [s[0]] + s[1..];
      var rest := SplitSpaces(s[1..]);
      if s[0] == ' ' then [""] + rest
      else [[s[0]] + rest[0]] + rest[1..]
  }

  /** `parts.join(" ")`. */
  function JoinSpaces(parts: seq<string>): string {
    if parts == [] then ""
    else if |parts| == 1 then parts[0]
    else parts[0] + " " + JoinSpaces(parts[1..])
  }

  lemma JoinSpacesCons(head: string, tail: seq<string>)
    requires tail != []
    ensures JoinSpaces([head] + tail) == head + " " + JoinSpaces(tail)
  {
    assert ([head] + tail)[1..] == tail;
  }

  /** Prefixing a character to the first piece prefixes it to the joined string. */
  lemma JoinSpacesPrefixHead(c: char, parts: seq<string>)
    requires parts != []
    ensures JoinSpaces([[c] + parts[0]] + parts[1..]) == [c] + JoinSpaces(parts)
  {
    if |parts| > 1 {
      JoinSpacesCons([c] + parts[0], parts[1..]);
      JoinSpacesCons(parts[0], parts[1..]);
      assert parts == [parts[0]] + parts[1..];
    }
  }

  /** Joining the pieces of `split(" ")` with " " gives back the string. */
  lemma {:induction false} JoinSplitSpaces(s: string)
    ensures JoinSpaces(SplitSpaces(s)) == s
    decreases |s|
  {
    if s != [] {
      var rest := SplitSpaces(s[1..]);
      JoinSplitSpaces(s[1..]);
      assert s == [s[0]] + s[1..];
      if s[0] == ' ' {
        assert SplitSpaces(s) == [""] + rest;
        JoinSpacesCons("", rest);
      } else {
        assert SplitSpaces(s) == [[s[0]] + rest[0]] + rest[1..];
        JoinSpacesPrefixHead(s[0], rest);
      }
    }
  }

  /** More than one piece exactly when the string holds a space. */
  lemma SplitSpacesMany(s: string)
    ensures |SplitSpaces(s)| > 1 <==> ' ' in s
  {
    assert ' ' in s <==> multiset(s)[' '] > 0;
  }

  // ---------------------------------------------------------------------------
  // String.prototype.startsWith, and `${n}` for a counter

  predicate StartsWith(s: string, prefix: string) {
    |prefix| <= |s| && s[..|prefix|] == prefix
  }

  function DigitChar(d: nat): (c: char)
    requires d < 10
    ensures '0' <= c <= '9'
  {
    "0123456789"[d]
  }

  function DigitValue(c: char): nat
    requires '0' <= c <= '9'
  {
    (c as int - '0' as int) as nat
  }

  /** `String(n)` for a non-negative integer: canonical decimal digits. */
  function NatToString(n: nat): (s: string)
    ensures |s| >= 1
    ensures forall k :: 0 <= k < |s| ==> '0' <= s[k] <= '9'
    ensures (n < 10) <==> (|s| == 1)
    ensures (s[0] == '0') <==> (n == 0)
  {
    if n < 10 then [DigitChar(n)] else NatToString(n / 10) + [DigitChar(n % 10)]
  }

  /** The number a string of decimal digits denotes, most significant first. */
  function DecimalValue(s: string): nat
    requires forall k :: 0 <= k < |s| ==> '0' <= s[k] <= '9'
  {
    if |s| == 0 then 0 else DecimalValue(s[..|s| - 1]) * 10 + DigitValue(s[|s| - 1])
  }

  /** Reading the rendering back as decimal digits gives the number. */
  lemma {:induction false} NatToStringValue(n: nat)
    ensures DecimalValue(NatToString(n)) == n
    decreases n
  {
    var s := NatToString(n);
    if n < 10 {
      DigitRoundTrip(n);
    } else {
      assert s[..|s| - 1] == NatToString(n / 10);
      DigitRoundTrip(n % 10);
      NatToStringValue(n / 10);
    }
  }

  lemma DigitRoundTrip(d: nat)
    requires d < 10
    ensures DigitValue(DigitChar(d)) == d
  {
  }

  /** Different numbers have different decimal renderings. */
  lemma {:induction false} NatToStringInjective(a: nat, b: nat)
    requires NatToString(a) == NatToString(b)
    ensures a == b
    decreases a
  {
    var s := NatToString(a);
    if a >= 10 {
      assert b >= 10;
      DigitRoundTrip(a % 10);
      DigitRoundTrip(b % 10);
      assert s[|s| - 1] == DigitChar(a % 10) && s[|s| - 1] == DigitChar(b % 10);
      assert NatToString(a / 10) == s[..|s| - 1] == NatToString(b / 10);
      NatToStringInjective(a / 10, b / 10);
    } else {
      assert b < 10;
      DigitRoundTrip(a);
      DigitRoundTrip(b);
    }
  }
}
