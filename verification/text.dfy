/** Character-level helpers: ASCII case folding as Rust's `eq_ignore_ascii_case`
    does it, the Unicode upper-casing that can turn a character into ASCII letters,
    `char::is_whitespace` and `str::trim`, decimal digits and `u32::from_str`. */
module Text {
  import opened Wrappers

  const U32_LIMIT: nat := 0x1_0000_0000

  // ---------------------------------------------------------------- case

  function LowerAscii(c: char): char {
    if 'A' <= c <= 'Z' then (c as int + 32) as char else c
  }

  function UpperAscii(c: char): char {
    if 'a' <= c <= 'z' then (c as int - 32) as char else c
  }

  /** `str::to_ascii_lowercase`. */
  function ToLowerAscii(s: string): (r: string)
    ensures |r| == |s|
    ensures forall i :: 0 <= i < |s| ==> r[i] == LowerAscii(s[i])
  {
    seq(|s|, i requires 0 <= i < |s| => LowerAscii(s[i]))
  }

  /** `str::eq_ignore_ascii_case`: equal lengths and equal characters after ASCII folding. */
  predicate EqIgnoreAsciiCase(a: string, b: string) {
    ToLowerAscii(a) == ToLowerAscii(b)
  }

  lemma EqIgnoreAsciiCaseIsEquivalence(a: string, b: string, c: string)
    ensures EqIgnoreAsciiCase(a, a)
    ensures EqIgnoreAsciiCase(a, b) ==> EqIgnoreAsciiCase(b, a)
    ensures EqIgnoreAsciiCase(a, b) && EqIgnoreAsciiCase(b, c) ==> EqIgnoreAsciiCase(a, c)
  {
  }

  /** The upper-case form of one character under `str::to_uppercase`, exact for every
      result made only of ASCII characters: ASCII letters, the dotless i, the long s,
      the sharp s and the Latin ligatures. Any other non-ASCII character is kept as it
      is; its real upper-case form also contains a non-ASCII character, so for matching
      against ASCII words the two are interchangeable. */
  function UpperFull(c: char): string {
    if 'a' <= c <= 'z' then [UpperAscii(c)]
    else if c == '\U{131}' then "I"        // dotless i
    else if c == '\U{17F}' then "S"        // long s
    else if c == '\U{DF}' then "SS"        // sharp s
    else if c == '\U{FB00}' then "FF"
    else if c == '\U{FB01}' then "FI"
    else if c == '\U{FB02}' then "FL"
    else if c == '\U{FB03}' then "FFI"
    else if c == '\U{FB04}' then "FFL"
    else if c == '\U{FB05}' || c == '\U{FB06}' then "ST"
    else [c]
  }

  /** `str::to_uppercase` (see UpperFull for what is exact). */
  function ToUpper(s: string): string
    decreases |s|
  {
    if |s| == 0 then "" else UpperFull(s[0]) + ToUpper(s[1..])
  }

  predicate UpperAsciiWord(s: string) {
    forall i :: 0 <= i < |s| ==> ('A' <= s[i] <= 'Z' || s[i] == '_')
  }

  /** Upper-casing a word already in upper case gives it back. */
  lemma {:induction false} ToUpperOfUpperWord(s: string)
    requires UpperAsciiWord(s)
    ensures ToUpper(s) == s
    decreases |s|
  {
    if |s| > 0 {
      ToUpperOfUpperWord(s[1..]);
      assert s == [s[0]] + s[1..];
    }
  }

  // ---------------------------------------------------------------- whitespace

  /** `char::is_whitespace`: the Unicode White_Space property. */
  predicate IsWhitespace(c: char) {
    ('\U{9}' <= c <= '\U{D}') || c == ' ' || c == '\U{85}' || c == '\U{A0}'
    || c == '\U{1680}' || ('\U{2000}' <= c <= '\U{200A}') || c == '\U{2028}' || c == '\U{2029}'
    || c == '\U{202F}' || c == '\U{205F}' || c == '\U{3000}'
  }

  predicate AllWhitespace(s: string) {
    forall i :: 0 <= i < |s| ==> IsWhitespace(s[i])
  }

  function TrimStart(s: string): (r: string)
    decreases |s|
  {
    if |s| > 0 && IsWhitespace(s[0]) then TrimStart(s[1..]) else s
  }

  function TrimEnd(s: string): (r: string)
    decreases |s|
  {
    if |s| > 0 && IsWhitespace(s[|s| - 1]) then TrimEnd(s[..|s| - 1]) else s
  }

  /** `str::trim`. */
  function Trim(s: string): string {
    TrimEnd(TrimStart(s))
  }

  lemma {:induction false} TrimStartPadding(w: string, m: string)
    requires AllWhitespace(w)
    requires |m| > 0 && !IsWhitespace(m[0])
    ensures TrimStart(w + m) == m
    decreases |w|
  {
    if |w| == 0 {
      assert w + m == m;
    } else {
      assert (w + m)[1..] == w[1..] + m;
      TrimStartPadding(w[1..], m);
    }
  }

  lemma {:induction false} TrimEndPadding(m: string, w: string)
    requires AllWhitespace(w)
    requires |m| > 0 && !IsWhitespace(m[|m| - 1])
    ensures TrimEnd(m + w) == m
    decreases |w|
  {
    if |w| == 0 {
      assert m + w == m;
    } else {
      var w' := w[..|w| - 1];
      assert (m + w)[..|m + w| - 1] == m + w';
      TrimEndPadding(m, w');
    }
  }

  /** Trimming removes exactly the surrounding whitespace of a word that has none at its ends. */
  lemma TrimPadded(w1: string, m: string, w2: string)
    requires AllWhitespace(w1) && AllWhitespace(w2)
    requires |m| > 0 && !IsWhitespace(m[0]) && !IsWhitespace(m[|m| - 1])
    ensures Trim(w1 + m + w2) == m
  {
    assert w1 + m + w2 == w1 + (m + w2);
    TrimStartPadding(w1, m + w2);
    TrimEndPadding(m, w2);
  }

  // ---------------------------------------------------------------- digits

  predicate IsDigit(c: char) { '0' <= c <= '9' }

  predicate AllDigits(s: string) {
    forall i :: 0 <= i < |s| ==> IsDigit(s[i])
  }

  function DigitChar(d: nat): char
    requires d < 10
  {
    ('0' as int + d) as char
  }

  /** The value of a string of decimal digits, most significant first. */
  function DecimalValue(s: string): nat
    requires AllDigits(s)
    decreases |s|
  {
    if |s| == 0 then 0
    else DecimalValue(s[..|s| - 1]) * 10 + (s[|s| - 1] as int - '0' as int)
  }

  /** `n.to_string()` for an unsigned integer: shortest decimal form. */
  function Decimal(n: nat): (r: string)
    ensures |r| >= 1 && AllDigits(r)
    ensures n >= 10 ==> r[0] != '0'
    ensures n < 10 ==> |r| == 1
    ensures 10 <= n < 100 ==> |r| == 2
    decreases n
  {
    if n < 10 then [DigitChar(n)] else Decimal(n / 10) + [DigitChar(n % 10)]
  }

  lemma {:induction false} DecimalRoundTrip(n: nat)
    ensures DecimalValue(Decimal(n)) == n
    decreases n
  {
    if n >= 10 {
      var d := Decimal(n);
      assert d[..|d| - 1] == Decimal(n / 10);
      DecimalRoundTrip(n / 10);
    }
  }

  /** A leading zero does not change the value. */
  lemma {:induction false} LeadingZero(s: string)
    requires AllDigits(s)
    ensures AllDigits("0" + s) && DecimalValue("0" + s) == DecimalValue(s)
    decreases |s|
  {
    if |s| > 0 {
      var t := "0" + s;
      assert t[..|t| - 1] == "0" + s[..|s| - 1];
      LeadingZero(s[..|s| - 1]);
    }
  }

  /** `u32::from_str`: an optional '+', then one or more decimal digits, with a value
      below 2^32. */
  function ParseU32(s: string): (r: Option<nat>)
    ensures r.Some? ==> r.value < U32_LIMIT
    ensures r.Some? ==> |s| > 0 && s[0] != '-'
  {
    var digits := if |s| > 0 && s[0] == '+' then s[1..] else s;
    if |digits| == 0 || !AllDigits(digits) then None
    else if DecimalValue(digits) < U32_LIMIT then Some(DecimalValue(digits))
    else None
  }

  /** Every u32 printed in decimal parses back to itself. */
  lemma ParseU32Decimal(n: nat)
    requires n < U32_LIMIT
    ensures ParseU32(Decimal(n)) == Some(n)
  {
    DecimalRoundTrip(n);
  }

  /** `s.starts_with(prefix)`. */
  predicate StartsWith(s: string, prefix: string) {
    |prefix| <= |s| && s[..|prefix|] == prefix
  }
}
