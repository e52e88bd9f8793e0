/** The JavaScript string primitives the size controller relies on:
    `String.prototype.trim`, `parseInt(s, 10)` and `String(n)` for an integer n. */
module JsText {

  datatype Option<T> = None | Some(value: T)

  /** ECMAScript WhiteSpace or LineTerminator: what `trim` removes and `parseInt` skips. */
  predicate IsSpace(c: char) {
    c == '\t' || c == '\n' || c == '\U{B}' || c == '\U{C}' || c == '\r' || c == ' '
    || c == '\U{A0}' || c == '\U{1680}' || ('\U{2000}' <= c <= '\U{200A}')
    || c == '\U{2028}' || c == '\U{2029}' || c == '\U{202F}' || c == '\U{205F}'
    || c == '\U{3000}' || c == '\U{FEFF}'
  }

  predicate IsDigit(c: char) {
    '0' <= c <= '9'
  }

  /** Every character is white space (the empty string included). */
  predicate Blank(s: string) {
    forall i :: 0 <= i < |s| ==> IsSpace(s[i])
  }

  predicate AllDigits(s: string) {
    forall i :: 0 <= i < |s| ==> IsDigit(s[i])
  }

  /** Neither end is white space. */
  predicate Unpadded(s: string) {
    s == [] || (!IsSpace(s[0]) && !IsSpace(s[|s| - 1]))
  }

  /** `s` without its leading white space. */
  function TrimStart(s: string): (r: string)
    ensures |r| <= |s|
    ensures r != [] ==> !IsSpace(r[0])
  {
    if s != [] && IsSpace(s[0]) then TrimStart(s[1..]) else s
  }

  /** `s` without its trailing white space. */
  function TrimEnd(s: string): (r: string)
    ensures |r| <= |s|
    ensures r != [] ==> !IsSpace(r[|r| - 1])
  {
    if s != [] && IsSpace(s[|s| - 1]) then TrimEnd(s[..|s| - 1]) else s
  }

  /** `String.prototype.trim`. */
  function Trim(s: string): (r: string)
    ensures |r| <= |s|
    ensures Unpadded(r)
  {
    var t := TrimStart(s);
    TrimEndSplit(t);
    TrimEnd(t)
  }

  /** `TrimStart` keeps a suffix and drops only white space before it. */
  lemma {:induction false} TrimStartSplit(s: string)
    ensures var r := TrimStart(s); r == s[|s| - |r|..] && Blank(s[..|s| - |r|])
  {
    if s != [] && IsSpace(s[0]) {
      var r := TrimStart(s[1..]);
      TrimStartSplit(s[1..]);
      assert s[|s| - |r|..] == s[1..][|s| - 1 - |r|..];
      assert s[..|s| - |r|] == [s[0]] + s[1..][..|s| - 1 - |r|];
    }
  }

  /** `TrimEnd` keeps a prefix and drops only white space after it. */
  lemma {:induction false} TrimEndSplit(s: string)
    ensures var r := TrimEnd(s); r == s[..|r|] && Blank(s[|r|..])
  {
    if s != [] && IsSpace(s[|s| - 1]) {
      var r := TrimEnd(s[..|s| - 1]);
      TrimEndSplit(s[..|s| - 1]);
      assert s[..|r|] == s[..|s| - 1][..|r|];
      assert s[|r|..] == s[..|s| - 1][|r|..] + [s[|s| - 1]];
    }
  }

  /** Trimming leaves nothing exactly when the string is blank. */
  lemma {:induction false} TrimEmptyIffBlank(s: string)
    ensures Trim(s) == [] <==> Blank(s)
  {
    var t := TrimStart(s);
    var r := TrimEnd(t);
    TrimStartSplit(s);
    TrimEndSplit(t);
    assert s == s[..|s| - |t|] + t;
    assert t == r + t[|r|..];
  }

  lemma {:induction false} TrimStartPadded(ws: string, t: string)
    requires Blank(ws)
    requires t == [] || !IsSpace(t[0])
    ensures TrimStart(ws + t) == t
  {
    if ws == [] {
      assert ws + t == t;
    } else {
      assert (ws + t)[1..] == ws[1..] + t;
      TrimStartPadded(ws[1..], t);
    }
  }

  lemma {:induction false} TrimEndPadded(t: string, ws: string)
    requires Blank(ws)
    requires t == [] || !IsSpace(t[|t| - 1])
    ensures TrimEnd(t + ws) == t
  {
    if ws == [] {
      assert t + ws == t;
    } else {
      assert (t + ws)[..|t + ws| - 1] == t + ws[..|ws| - 1];
      TrimEndPadded(t, ws[..|ws| - 1]);
    }
  }

  /** Trimming removes exactly the white space around an unpadded core. */
  lemma {:induction false} TrimSurrounded(ws1: string, t: string, ws2: string)
    requires Blank(ws1) && Blank(ws2) && Unpadded(t)
    ensures Trim(ws1 + t + ws2) == t
  {
    if t == [] {
      assert Blank(ws1 + t + ws2);
      TrimEmptyIffBlank(ws1 + t + ws2);
    } else {
      assert ws1 + t + ws2 == ws1 + (t + ws2);
      TrimStartPadded(ws1, t + ws2);
      TrimEndPadded(t, ws2);
    }
  }

  /** Trimming twice is trimming once. */
  lemma {:induction false} TrimIdempotent(s: string)
    ensures Trim(Trim(s)) == Trim(s)
  {
    var t := Trim(s);
    assert t == [] + t + [];
    TrimSurrounded([], t, []);
  }

  function DigitValue(c: char): (d: nat)
    requires IsDigit(c)
    ensures d < 10
  {
    (c as int) - ('0' as int)
  }

  function DigitChar(d: nat): (c: char)
    requires d < 10
    ensures IsDigit(c) && DigitValue(c) == d
  {
    ('0' as int + d) as char
  }

  /** The longest prefix of `s` made of decimal digits. */
  function LeadingDigits(s: string): (r: string)
    ensures |r| <= |s|
    ensures AllDigits(r)
  {
    if s != [] && IsDigit(s[0]) then [s[0]] + LeadingDigits(s[1..]) else []
  }

  /** `LeadingDigits` is a prefix, and what follows it is not a digit. */
  lemma {:induction false} LeadingDigitsSplit(s: string)
    ensures var r := LeadingDigits(s); r == s[..|r|] && (|r| < |s| ==> !IsDigit(s[|r|]))
  {
    if s != [] && IsDigit(s[0]) {
      LeadingDigitsSplit(s[1..]);
    }
  }

  /** The value of a decimal digit string, most significant digit first. */
  function DigitsValue(d: string): nat
    requires AllDigits(d)
  {
    if d == [] then 0 else 10 * DigitsValue(d[..|d| - 1]) + DigitValue(d[|d| - 1])
  }

  /** The number a run of leading digits spells, or None when `s` does not start with one. */
  function ParseDigits(s: string): (r: Option<nat>)
    ensures r.None? <==> (s == [] || !IsDigit(s[0]))
  {
    var digits := LeadingDigits(s);
    if digits == [] then None else Some(DigitsValue(digits))
  }

  /** `parseInt` after the leading white space: one optional sign, then the digits. */
  function ParseSigned(t: string): (r: Option<int>)
    ensures t == [] ==> r == None
  {
    var signed := t != [] && (t[0] == '-' || t[0] == '+');
    var rest := if signed then t[1..] else t;
    match ParseDigits(rest)
    case None => None
    case Some(m) => if t[0] == '-' then Some(-(m as int)) else Some(m)
  }

  /** After any leading white space, `t` starts with a decimal digit, or with a sign and
      then a decimal digit: the texts on which `parseInt(t, 10)` is not NaN. */
  predicate StartsInteger(t: string) {
    t != [] && (IsDigit(t[0]) || ((t[0] == '-' || t[0] == '+') && |t| > 1 && IsDigit(t[1])))
  }

  /** `parseInt(s, 10)`, with NaN as None: skip leading white space, take one optional
      sign, then at least one decimal digit; whatever follows the digits is ignored. */
  function ParseIntPrefix(s: string): (r: Option<int>)
    ensures r.Some? <==> StartsInteger(TrimStart(s))
    ensures r.Some? && r.value < 0 ==> TrimStart(s)[0] == '-'
  {
    ParseSigned(TrimStart(s))
  }

  /** Decimal digits of a natural number, without leading zeros. */
  function NatToString(n: nat): (r: string)
    ensures r != [] && AllDigits(r)
    ensures r[0] == '0' ==> n == 0
  {
    if n < 10 then [DigitChar(n)] else NatToString(n / 10) + [DigitChar(n % 10)]
  }

  /** `String(n)` for an integer n: a minus sign for negatives, then the digits. */
  function IntToString(n: int): (r: string)
    ensures r != [] && Unpadded(r)
    ensures (r[0] == '-') == (n < 0)
  {
    if n < 0 then "-" + NatToString(-n) else NatToString(n)
  }

  lemma {:induction false} DigitsValueOfNat(n: nat)
    ensures DigitsValue(NatToString(n)) == n
  {
    var r := NatToString(n);
    if n < 10 {
      assert r[..|r| - 1] == [];
    } else {
      assert r[..|r| - 1] == NatToString(n / 10);
      DigitsValueOfNat(n / 10);
    }
  }

  /** The digit prefix of `s` is fixed by where the first non-digit stands. */
  lemma {:induction false} LeadingDigitsAt(s: string, k: nat)
    requires k <= |s| && AllDigits(s[..k])
    requires k == |s| || !IsDigit(s[k])
    ensures LeadingDigits(s) == s[..k]
  {
    LeadingDigitsSplit(s);
  }

  lemma {:induction false} LeadingDigitsBlankSuffix(p: string, ws: string)
    requires Blank(ws)
    ensures LeadingDigits(p + ws) == LeadingDigits(p)
  {
    LeadingDigitsSplit(p);
    var d := LeadingDigits(p);
    assert (p + ws)[..|d|] == d;
    if |d| == |p| && ws != [] {
      assert (p + ws)[|d|] == ws[0];
    } else if |d| < |p| {
      assert (p + ws)[|d|] == p[|d|];
    }
    LeadingDigitsAt(p + ws, |d|);
  }

  /** A digit run followed by something that is not a digit reads as its own value. */
  lemma {:induction false} ParseDigitsOfNat(m: nat, junk: string)
    requires junk == [] || !IsDigit(junk[0])
    ensures ParseDigits(NatToString(m) + junk) == Some(m)
  {
    var d := NatToString(m);
    var body := d + junk;
    assert body[..|d|] == d;
    if junk != [] {
      assert body[|d|] == junk[0];
    }
    LeadingDigitsAt(body, |d|);
    DigitsValueOfNat(m);
  }

  lemma {:induction false} ParseSignedOfMinus(m: nat, junk: string)
    requires junk == [] || !IsDigit(junk[0])
    ensures ParseSigned("-" + NatToString(m) + junk) == Some(-(m as int))
  {
    var t := "-" + NatToString(m) + junk;
    assert t[0] == '-';
    assert t[1..] == NatToString(m) + junk;
    ParseDigitsOfNat(m, junk);
  }

  lemma {:induction false} ParseSignedOfUnsigned(m: nat, junk: string)
    requires junk == [] || !IsDigit(junk[0])
    ensures ParseSigned(NatToString(m) + junk) == Some(m)
  {
    var d := NatToString(m);
    assert (d + junk)[0] == d[0];
    assert IsDigit(d[0]);
    ParseDigitsOfNat(m, junk);
  }

  lemma {:induction false} ParseSignedOfDecimal(n: int, junk: string)
    requires junk == [] || !IsDigit(junk[0])
    ensures ParseSigned(IntToString(n) + junk) == Some(n)
  {
    if n < 0 {
      ParseSignedOfMinus(-n, junk);
    } else {
      ParseSignedOfUnsigned(n, junk);
    }
  }

  /** `parseInt` reads back what `String` writes, whatever white space precedes it and
      whatever non-digit text follows it (so "12abc" gives 12). */
  lemma {:induction false} ParseIntPrefixOfDecimal(ws: string, n: int, junk: string)
    requires Blank(ws)
    requires junk == [] || !IsDigit(junk[0])
    ensures ParseIntPrefix(ws + IntToString(n) + junk) == Some(n)
  {
    var t := IntToString(n) + junk;
    assert ws + IntToString(n) + junk == ws + t;
    assert t[0] == IntToString(n)[0];
    TrimStartPadded(ws, t);
    ParseSignedOfDecimal(n, junk);
  }

  /** Round trip: `parseInt(String(n), 10) == n`. */
  lemma {:induction false} ParseIntRoundTrip(n: int)
    ensures ParseIntPrefix(IntToString(n)) == Some(n)
  {
    assert [] + IntToString(n) + [] == IntToString(n);
    ParseIntPrefixOfDecimal([], n, []);
  }

  /** Trailing white space never changes which number a string parses to. */
  lemma {:induction false} ParseSignedBlankSuffix(u: string, ws: string)
    requires Blank(ws)
    requires u == [] || !IsSpace(u[0])
    ensures ParseSigned(u + ws) == ParseSigned(u)
  {
    if u == [] {
      assert u + ws == ws;
      if ws != [] {
        assert IsSpace(ws[0]);
      }
    } else if u[0] == '-' || u[0] == '+' {
      assert (u + ws)[1..] == u[1..] + ws;
      LeadingDigitsBlankSuffix(u[1..], ws);
    } else {
      LeadingDigitsBlankSuffix(u, ws);
    }
  }

  /** Parsing a trimmed string gives the same number as parsing the raw string. */
  lemma {:induction false} ParseIntPrefixOfTrim(s: string)
    ensures ParseIntPrefix(Trim(s)) == ParseIntPrefix(s)
  {
    var t := TrimStart(s);
    var u := Trim(s);
    var ws := t[|u|..];
    TrimEndSplit(t);
    assert t == u + ws;
    assert TrimStart(u) == u;
    ParseSignedBlankSuffix(u, ws);
  }

  /** Blank text never parses. */
  lemma {:induction false} ParseIntPrefixBlank(s: string)
    requires Blank(s)
    ensures ParseIntPrefix(s) == None
  {
    TrimStartSplit(s);
  }

  /** Text that trims to nothing never parses. */
  lemma {:induction false} ParseIntPrefixTrimmedEmpty(s: string)
    requires Trim(s) == ""
    ensures ParseIntPrefix(s) == None
  {
    TrimEmptyIffBlank(s);
    ParseIntPrefixBlank(s);
  }
}
