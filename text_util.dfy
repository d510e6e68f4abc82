/** String helpers that several components share. A JavaScript string is modelled as a
    sequence of characters (Unicode scalar values), so `|s|` agrees with `s.length` only for
    text without characters outside the Basic Multilingual Plane. */
module TextUtil {
  import opened Wrappers

  /** The characters `String.prototype.trim` removes: ECMAScript WhiteSpace and LineTerminator. */
  predicate IsWhitespace(c: char) {
    || c == ' ' || c == '\t' || c == '\n' || c == '\r' || c == '\U{B}' || c == '\U{C}'
    || c == '\U{A0}' || c == '\U{1680}' || ('\U{2000}' <= c <= '\U{200A}')
    || c == '\U{2028}' || c == '\U{2029}' || c == '\U{202F}' || c == '\U{205F}'
    || c == '\U{3000}' || c == '\U{FEFF}'
  }

  function TrimStart(s: string): (r: string)
    ensures |r| <= |s| && r == s[|s| - |r|..]
    ensures r != [] ==> !IsWhitespace(r[0])
    ensures forall i :: 0 <= i < |s| - |r| ==> IsWhitespace(s[i])
  {
    if s != [] && IsWhitespace(s[0]) then TrimStart(s[1..]) else s
  }

  function TrimEnd(s: string): (r: string)
    ensures |r| <= |s| && r == s[..|r|]
    ensures r != [] ==> !IsWhitespace(r[|r| - 1])
    ensures forall i :: |r| <= i < |s| ==> IsWhitespace(s[i])
  {
    if s != [] && IsWhitespace(s[|s| - 1]) then TrimEnd(s[..|s| - 1]) else s
  }

  /** `s.trim()` */
  function Trim(s: string): string {
    TrimEnd(TrimStart(s))
  }

  /** True when every character of `s` is white space, i.e. `s.trim() === ''`. */
  predicate IsBlank(s: string) {
    forall i :: 0 <= i < |s| ==> IsWhitespace(s[i])
  }

  /** `s.trim()` is empty exactly when `s` consists of white space only. */
  lemma TrimEmptyIffBlank(s: string)
    ensures Trim(s) == "" <==> IsBlank(s)
  {
  }

  /** `c.toUpperCase()` for the ASCII letters; every other character is kept. */
  function UpperAscii(c: char): char {
    if 'a' <= c <= 'z' then (c as int - 'a' as int + 'A' as int) as char else c
  }

  /** `s.charAt(0).toUpperCase() + s.slice(1)`: the first character upper-cased, the rest unchanged. */
  function Capitalize(s: string): (r: string)
    ensures |r| == |s|
    ensures s != [] ==> r[0] == UpperAscii(s[0]) && r[1..] == s[1..]
    ensures s != [] && 'a' <= s[0] <= 'z' ==> 'A' <= r[0] <= 'Z'
  {
    if s == [] then [] else [UpperAscii(s[0])] + s[1..]
  }

  /** Capitalising twice changes nothing more than capitalising once. */
  lemma CapitalizeIdempotent(s: string)
    ensures Capitalize(Capitalize(s)) == Capitalize(s)
  {
    if s != [] {
      assert UpperAscii(UpperAscii(s[0])) == UpperAscii(s[0]);
    }
  }

  /** The position JavaScript's `slice` actually uses for a cursor past the end of `s`. */
  function Clamp(cursor: nat, s: string): (k: nat)
    ensures k <= |s| && (k == cursor || (cursor > |s| && k == |s|))
  {
    if cursor <= |s| then cursor else |s|
  }

  /** `s.slice(0, cursor) + inserted + s.slice(cursor)` for a non-negative cursor. */
  function InsertAt(s: string, cursor: nat, inserted: string): (r: string)
    ensures |r| == |s| + |inserted|
    ensures var k := Clamp(cursor, s);
      && r[..k] == s[..k]
      && r[k..k + |inserted|] == inserted
      && r[k + |inserted|..] == s[k..]
    ensures var k := Clamp(cursor, s); r[..k] + r[k + |inserted|..] == s
  {
    var k := Clamp(cursor, s);
    var r := s[..k] + inserted + s[k..];
    assert r[..k] == s[..k];
    assert r[k..k + |inserted|] == inserted;
    assert r[k + |inserted|..] == s[k..];
    assert s[..k] + s[k..] == s;
    r
  }

  /** Inserting nothing leaves the text as it was. */
  lemma InsertNothing(s: string, cursor: nat)
    ensures InsertAt(s, cursor, "") == s
  {
  }

  // ---- decimal digits (`${n}` for an integer) ----

  function DigitChar(d: nat): (c: char)
    requires d < 10
    ensures '0' <= c <= '9'
  {
    ('0' as int + d) as char
  }

  function DigitValue(c: char): nat
    requires '0' <= c <= '9'
  {
    c as int - '0' as int
  }

  /** `${n}` for a non-negative integer: its decimal digits, most significant first. */
  function Decimal(n: nat): (r: string)
    ensures r != []
  {
    if n < 10 then [DigitChar(n)] else Decimal(n / 10) + [DigitChar(n % 10)]
  }

  /** `${n}` for any integer: a minus sign before the digits of a negative number. */
  function NumberText(n: int): (r: string)
    ensures n >= 0 ==> r == Decimal(n)
    ensures n < 0 ==> r == "-" + Decimal(-n)
  {
    if n < 0 then "-" + Decimal(-n) else Decimal(n)
  }

  predicate AllDigits(s: string) {
    forall i :: 0 <= i < |s| ==> '0' <= s[i] <= '9'
  }

  function DigitsValue(s: string): nat
    requires AllDigits(s)
  {
    if s == [] then 0 else DigitsValue(s[..|s| - 1]) * 10 + DigitValue(s[|s| - 1])
  }

  /** Reads a non-empty run of decimal digits back into a number. */
  function ParseDecimal(s: string): Option<nat> {
    if s != [] && AllDigits(s) then Some(DigitsValue(s)) else None
  }

  /** Reading the digits of `n` gives `n` back. */
  lemma {:induction false} DecimalRoundTrip(n: nat)
    ensures AllDigits(Decimal(n))
    ensures ParseDecimal(Decimal(n)) == Some(n)
  {
    if n >= 10 {
      DecimalRoundTrip(n / 10);
      var d := Decimal(n);
      assert d[..|d| - 1] == Decimal(n / 10);
      assert DigitValue(d[|d| - 1]) == n % 10;
      assert AllDigits(d);
      assert DigitsValue(d) == DigitsValue(Decimal(n / 10)) * 10 + n % 10;
    } else {
      var d := Decimal(n);
      assert d[..0] == [];
      assert DigitsValue(d) == n;
    }
  }
}
