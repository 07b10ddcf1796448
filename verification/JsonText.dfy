/**
 JSON string literals (section 7 of RFC 8259) over UTF-16 code units, as `JSON.stringify` writes them and
 `JSON.parse` reads them, and the scan for a literal inside a longer text.
 */
module JsonText {
  import opened Text

  /** A UTF-16 code unit. */
  newtype Unit = x: int | 0 <= x < 0x10000

  type Str = seq<Unit>

  const QUOTE: Unit := 0x22
  const BACKSLASH: Unit := 0x5c
  const NEWLINE: Unit := 0x0a

  function Code(c: char): Unit {
    if c as int < 0x80 then c as int as Unit else 0x3f
  }

  /** An ASCII literal of the source. */
  function Ascii(s: string): (t: Str)
    ensures |t| == |s| && forall i :: 0 <= i < |s| ==> t[i] == Code(s[i])
  {
    seq(|s|, i requires 0 <= i < |s| => Code(s[i]))
  }

  predicate IsLead(u: Unit) { 0xd800 <= u < 0xdc00 }
  predicate IsTrail(u: Unit) { 0xdc00 <= u < 0xe000 }

  function HexDigit(n: int): Unit
    requires 0 <= n < 16
  {
    if n < 10 then (0x30 + n) as Unit else (0x57 + n) as Unit
  }

  /** Either case is read. */
  function HexValue(u: Unit): (n: Option<int>)
    ensures n.Some? ==> 0 <= n.value < 16
  {
    if 0x30 <= u <= 0x39 then Some(u as int - 0x30)
    else if 0x61 <= u <= 0x66 then Some(u as int - 0x57)
    else if 0x41 <= u <= 0x46 then Some(u as int - 0x37)
    else None
  }

  function Hex4(u: Unit): Str {
    var n := u as int;
    [HexDigit(n / 4096), HexDigit(n / 256 % 16), HexDigit(n / 16 % 16), HexDigit(n % 16)]
  }

  /** The escape letter of a control character that has one. */
  function Short(u: Unit): Option<Unit> {
    if u == 0x08 then Some(0x62)
    else if u == 0x09 then Some(0x74)
    else if u == 0x0a then Some(0x6e)
    else if u == 0x0c then Some(0x66)
    else if u == 0x0d then Some(0x72)
    else if u == QUOTE || u == BACKSLASH then Some(u)
    else None
  }

  /** What an escape letter stands for; `/` may be escaped but never is. */
  function Unshort(u: Unit): Option<Unit> {
    if u == 0x62 then Some(0x08)
    else if u == 0x74 then Some(0x09)
    else if u == 0x6e then Some(0x0a)
    else if u == 0x66 then Some(0x0c)
    else if u == 0x72 then Some(0x0d)
    else if u == QUOTE || u == BACKSLASH || u == 0x2f then Some(u)
    else None
  }

  function EscapeUnit(u: Unit): Str {
    if Short(u).Some? then [BACKSLASH, Short(u).value]
    else if u < 0x20 || IsLead(u) || IsTrail(u) then [BACKSLASH, 0x75] + Hex4(u)
    else [u]
  }

  /** Surrogate pairs go through as they are, lone surrogates are escaped. */
  function Escape(s: Str): Str {
    if s == [] then []
    else if |s| >= 2 && IsLead(s[0]) && IsTrail(s[1]) then s[..2] + Escape(s[2..])
    else EscapeUnit(s[0]) + Escape(s[1..])
  }

  /** `JSON.stringify` of a string. */
  function Quoted(s: Str): Str {
    [QUOTE] + Escape(s) + [QUOTE]
  }

  function Prepend(u: Unit, rest: Option<Str>): Option<Str> {
    if rest.None? then None else Some([u] + rest.value)
  }

  function ReadHex4(t: Str): Option<Unit>
    requires |t| >= 4
  {
    var a, b, c, d := HexValue(t[0]), HexValue(t[1]), HexValue(t[2]), HexValue(t[3]);
    if a.None? || b.None? || c.None? || d.None? then None
    else Some((a.value * 4096 + b.value * 256 + c.value * 16 + d.value) as Unit)
  }

  /** `JSON.parse` of what stands between the quotes; None where it throws. */
  function Unescape(t: Str): Option<Str>
    decreases |t|
  {
    if t == [] then Some([])
    else if t[0] == BACKSLASH then
      if |t| >= 2 && Unshort(t[1]).Some? then Prepend(Unshort(t[1]).value, Unescape(t[2..]))
      else if |t| >= 6 && t[1] == 0x75 && ReadHex4(t[2..]).Some?
      then Prepend(ReadHex4(t[2..]).value, Unescape(t[6..]))
      else None
    else if t[0] == QUOTE || t[0] < 0x20 then None
    else Prepend(t[0], Unescape(t[1..]))
  }

  lemma HexRoundTrip(u: Unit)
    ensures ReadHex4(Hex4(u)) == Some(u)
  {
    var n := u as int;
    HexDigits(n);
    HexReads(n / 4096, n / 256 % 16, n / 16 % 16, n % 16);
  }

  lemma HexDigits(n: int)
    requires 0 <= n < 0x10000
    ensures 0 <= n / 4096 < 16
    ensures n / 4096 * 4096 + n / 256 % 16 * 256 + n / 16 % 16 * 16 + n % 16 == n
  {
    assert n / 16 == n / 256 * 16 + n / 16 % 16 && n / 256 == n / 4096 * 16 + n / 256 % 16;
  }

  lemma HexReads(a: int, b: int, c: int, d: int)
    requires 0 <= a < 16 && 0 <= b < 16 && 0 <= c < 16 && 0 <= d < 16
    ensures ReadHex4([HexDigit(a), HexDigit(b), HexDigit(c), HexDigit(d)])
            == Some((a * 4096 + b * 256 + c * 16 + d) as Unit)
  {
    HexDigitReads(a);
    HexDigitReads(b);
    HexDigitReads(c);
    HexDigitReads(d);
  }

  lemma HexDigitReads(k: int)
    requires 0 <= k < 16
    ensures HexValue(HexDigit(k)) == Some(k)
  {
  }

  lemma UnescapeRaw(u: Unit, rest: Str)
    requires u >= 0x20 && u != QUOTE && u != BACKSLASH
    ensures Unescape([u] + rest) == Prepend(u, Unescape(rest))
  {
    assert ([u] + rest)[1..] == rest;
  }

  lemma UnescapeHex(u: Unit, rest: Str)
    ensures Unescape([BACKSLASH, 0x75] + Hex4(u) + rest) == Prepend(u, Unescape(rest))
  {
    var t := [BACKSLASH, 0x75] + Hex4(u) + rest;
    HexRoundTrip(u);
    assert t[2] == Hex4(u)[0] && t[3] == Hex4(u)[1] && t[4] == Hex4(u)[2] && t[5] == Hex4(u)[3];
    assert ReadHex4(t[2..]) == ReadHex4(Hex4(u));
    assert t[6..] == rest;
  }

  lemma UnescapeUnit(u: Unit, rest: Str)
    ensures Unescape(EscapeUnit(u) + rest) == Prepend(u, Unescape(rest))
  {
    if Short(u).Some? {
      assert ([BACKSLASH, Short(u).value] + rest)[2..] == rest;
    } else if u < 0x20 || IsLead(u) || IsTrail(u) {
      UnescapeHex(u, rest);
    } else {
      UnescapeRaw(u, rest);
    }
  }

  /** Parsing undoes quoting, for every string of code units. */
  lemma {:induction false} UnescapeEscape(s: Str)
    ensures Unescape(Escape(s)) == Some(s)
    decreases |s|
  {
    if s == [] {
    } else if |s| >= 2 && IsLead(s[0]) && IsTrail(s[1]) {
      UnescapeEscape(s[2..]);
      UnescapePair(s[0], s[1], Escape(s[2..]), s[2..]);
      assert [s[0], s[1]] + s[2..] == s && s[..2] == [s[0], s[1]];
    } else {
      UnescapeEscape(s[1..]);
      UnescapeUnit(s[0], Escape(s[1..]));
      assert [s[0]] + s[1..] == s;
    }
  }

  lemma UnescapePair(u: Unit, w: Unit, t: Str, rest: Str)
    requires IsLead(u) && IsTrail(w) && Unescape(t) == Some(rest)
    ensures Unescape([u, w] + t) == Some([u, w] + rest)
  {
    UnescapeRaw(w, t);
    UnescapeRaw(u, [w] + t);
    assert [u] + ([w] + t) == [u, w] + t;
    assert [u] + ([w] + rest) == [u, w] + rest;
  }

  /** Quoted text holds no control character, so no line break. */
  lemma {:induction false} EscapeHasNoControl(s: Str)
    ensures forall i :: 0 <= i < |Escape(s)| ==> Escape(s)[i] >= 0x20
    decreases |s|
  {
    if s == [] {
    } else if |s| >= 2 && IsLead(s[0]) && IsTrail(s[1]) {
      EscapeHasNoControl(s[2..]);
    } else {
      EscapeHasNoControl(s[1..]);
    }
  }

  lemma QuotedHasNoNewline(s: Str)
    ensures NEWLINE !in Quoted(s) && |Quoted(s)| >= 2 && Quoted(s)[0] == QUOTE
  {
    EscapeHasNoControl(s);
  }

  // ---------------------------------------------------------------------------------------------
  // A literal inside a text
  // ---------------------------------------------------------------------------------------------

  /** The first unescaped quote at or after `j`; None at a raw control character. */
  function ClosingQuote(s: Str, j: int): (k: Option<int>)
    requires 0 <= j
    ensures k.Some? ==> j <= k.value < |s|
    decreases |s| - j
  {
    if j >= |s| || s[j] < 0x20 then None
    else if s[j] == BACKSLASH then ClosingQuote(s, j + 2)
    else if s[j] == QUOTE then Some(j)
    else ClosingQuote(s, j + 1)
  }

  datatype Literal = Literal(value: Str, end: int)

  /** The JSON string literal opening at `s[i]`. */
  function ReadQuoted(s: Str, i: int): (r: Option<Literal>)
    requires 0 <= i
    ensures r.Some? ==> i + 2 <= r.value.end <= |s|
  {
    if i >= |s| || s[i] != QUOTE then None
    else
      var close := ClosingQuote(s, i + 1);
      if close.None? then None
      else
        var value := Unescape(s[i + 1..close.value]);
        if value.None? then None else Some(Literal(value.value, close.value + 1))
  }

  method ReadQuotedAt(s: Str, i: int) returns (r: Option<Literal>)
    requires 0 <= i
    ensures r == ReadQuoted(s, i)
  {
    if i >= |s| || s[i] != QUOTE {
      return None;
    }
    var j := i + 1;
    while j < |s|
      invariant i + 1 <= j && ClosingQuote(s, i + 1) == ClosingQuote(s, j)
    {
      var c := s[j];
      if c < 0x20 {
        return None;
      }
      if c == BACKSLASH {
        j := j + 2;
        continue;
      }
      if c == QUOTE {
        var value := Unescape(s[i + 1..j]);
        return if value.Some? then Some(Literal(value.value, j + 1)) else None;
      }
      j := j + 1;
    }
    r := None;
  }

  lemma CloseUnit(s: Str, j: int, u: Unit)
    requires 0 <= j <= |s| && EscapeUnit(u) <= s[j..]
    ensures ClosingQuote(s, j) == ClosingQuote(s, j + |EscapeUnit(u)|)
  {
    assert forall i :: 0 <= i < |EscapeUnit(u)| ==> s[j + i] == EscapeUnit(u)[i];
    if Short(u).None? && (u < 0x20 || IsLead(u) || IsTrail(u)) {
      assert forall k :: 0 <= k < 16 ==> 0x30 <= HexDigit(k) != BACKSLASH;
      assert ClosingQuote(s, j) == ClosingQuote(s, j + 2) == ClosingQuote(s, j + 3);
      assert ClosingQuote(s, j + 3) == ClosingQuote(s, j + 4) == ClosingQuote(s, j + 5);
    }
  }

  /** The scan runs over an escaped value without stopping. */
  lemma {:induction false} CloseEscape(s: Str, j: int, v: Str, k: int)
    requires 0 <= j <= |s| && Escape(v) <= s[j..] && k == j + |Escape(v)|
    ensures ClosingQuote(s, j) == ClosingQuote(s, k)
    decreases |v|
  {
    if v == [] {
    } else if |v| >= 2 && IsLead(v[0]) && IsTrail(v[1]) {
      PrefixSplit(s, j, v[..2], Escape(v[2..]));
      ClosePair(s, j, v[0], v[1]);
      CloseEscape(s, j + 2, v[2..], k);
    } else {
      PrefixSplit(s, j, EscapeUnit(v[0]), Escape(v[1..]));
      CloseUnit(s, j, v[0]);
      CloseEscape(s, j + |EscapeUnit(v[0])|, v[1..], k);
    }
  }

  lemma PrefixSplit(s: Str, j: int, a: Str, b: Str)
    requires 0 <= j <= |s| && a + b <= s[j..]
    ensures a <= s[j..] && j + |a| <= |s| && b <= s[j + |a|..]
  {
    assert s[j..][..|a|] == (a + b)[..|a|] == a;
    assert s[j + |a|..] == s[j..][|a|..];
    assert s[j..][|a|..|a| + |b|] == (a + b)[|a|..] == b;
  }

  lemma ClosePair(s: Str, j: int, u: Unit, w: Unit)
    requires 0 <= j <= |s| && [u, w] <= s[j..] && IsLead(u) && IsTrail(w)
    ensures ClosingQuote(s, j) == ClosingQuote(s, j + 2)
  {
    assert s[j] == [u, w][0] && s[j + 1] == [u, w][1];
    assert ClosingQuote(s, j + 1) == ClosingQuote(s, j + 2);
  }

  /** Reading a quoted value gives it back, whatever follows the closing quote. */
  lemma ReadInvertsQuoting(s: Str, i: int, v: Str)
    requires 0 <= i <= |s| && Quoted(v) <= s[i..]
    ensures ReadQuoted(s, i) == Some(Literal(v, i + |Quoted(v)|))
  {
    var k := i + 1 + |Escape(v)|;
    QuotedApart(s, i, v, k);
    CloseEscape(s, i + 1, v, k);
    UnescapeEscape(v);
  }

  lemma QuotedApart(s: Str, i: int, v: Str, k: int)
    requires 0 <= i <= |s| && Quoted(v) <= s[i..] && k == i + 1 + |Escape(v)|
    ensures k < |s| && s[i] == s[k] == QUOTE && s[i + 1..k] == Escape(v) && Escape(v) <= s[i + 1..]
  {
    PrefixSplit(s, i, [QUOTE], Escape(v) + [QUOTE]);
    PrefixSplit(s, i + 1, Escape(v), [QUOTE]);
    assert Quoted(v) == [QUOTE] + (Escape(v) + [QUOTE]);
    assert s[i..][0] == s[i] && s[k..][0] == s[k];
    assert s[i + 1..][..|Escape(v)|] == s[i + 1..k];
  }
}
