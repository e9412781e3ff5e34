/** The small codecs of src/utils.rs: the `H:MM:SS` time format and its parser,
    the "0"/"1" boolean parser, `HashMapExt::extract` and the `args!` payload
    builder. (The PCDATA escaper of the same file is module Escape.) */
module Utils {
  import opened Wrappers
  import opened Text
  import opened Errors

  const I64_MAX: int := 0x7FFF_FFFF_FFFF_FFFF

  // ---------------------------------------------------------------- args!

  /** One `<name>value</name>` element of an action payload. */
  function ArgElement(name: string, value: string): string {
    "<" + name + ">" + value + "</" + name + ">"
  }

  /** `args! { name: value, ... }`: the elements concatenated in the order written;
      each value is already rendered with `to_string()`. */
  function Args(args: seq<(string, string)>): string
    decreases |args|
  {
    if |args| == 0 then "" else ArgElement(args[0].0, args[0].1) + Args(args[1..])
  }

  /** Payloads compose: the arguments of a concatenation are the concatenated payloads. */
  lemma {:induction false} ArgsAppend(a: seq<(string, string)>, b: seq<(string, string)>)
    ensures Args(a + b) == Args(a) + Args(b)
    decreases |a|
  {
    if |a| == 0 {
      assert a + b == b;
    } else {
      assert (a + b)[0] == a[0];
      assert (a + b)[1..] == a[1..] + b;
      ArgsAppend(a[1..], b);
    }
  }

  /** The payload's length is the sum of the element lengths. */
  lemma {:induction false} ArgsLength(args: seq<(string, string)>)
    ensures |Args(args)| == SumOfElementLengths(args)
    decreases |args|
  {
    if |args| > 0 {
      ArgsLength(args[1..]);
    }
  }

  function SumOfElementLengths(args: seq<(string, string)>): nat
    decreases |args|
  {
    if |args| == 0 then 0 else 2 * |args[0].0| + |args[0].1| + 5 + SumOfElementLengths(args[1..])
  }

  /** The fixed payload used by the parameterless AVTransport actions. */
  const DEFAULT_ARGS: string := "<InstanceID>0</InstanceID>"

  lemma DefaultArgsIsArgs()
    ensures Args([("InstanceID", "0")]) == DEFAULT_ARGS
  {
  }

  // ---------------------------------------------------------------- extract

  /** `HashMapExt::extract`: removes `key` and returns its value; a missing key is an
      error and the map is left as it was. */
  function Extract(m: map<string, string>, key: string): (r: (Result<string, Error>, map<string, string>))
    ensures key in m ==> r.0 == Ok(m[key])
    ensures key !in m ==> r.0 == Err(XmlMissingElement("UPnP Response", key))
    ensures r.1.Keys == m.Keys - {key}
    ensures forall k :: k in r.1 ==> r.1[k] == m[k]
  {
    if key in m then (Ok(m[key]), m - {key})
    else (Err(XmlMissingElement("UPnP Response", key)), m)
  }

  // ---------------------------------------------------------------- time strings

  /** `{:02}`: at least two digits, zero-padded. */
  function Pad2(n: nat): (r: string)
    ensures |r| >= 2 && AllDigits(r)
    ensures n < 100 ==> |r| == 2
  {
    if n < 10 then "0" + Decimal(n) else Decimal(n)
  }

  /** `seconds_to_str`: an optional '-', then hours, minutes and seconds of the absolute
      value. `abs()` of the most negative i64 overflows, so that one value is excluded. */
  function SecondsToStr(total: int): (r: string)
    requires -I64_MAX <= total <= I64_MAX
  {
    var sign := if total < 0 then "-" else "";
    var a := if total < 0 then -total else total;
    sign + Pad2(a / 3600) + ":" + Pad2((a / 60) % 60) + ":" + Pad2(a % 60)
  }

  lemma Pad2Value(n: nat)
    ensures DecimalValue(Pad2(n)) == n
  {
    DecimalRoundTrip(n);
    if n < 10 {
      LeadingZero(Decimal(n));
    }
  }

  /** Splitting a non-negative duration's text at its last two ':' gives hours (two or
      more digits), minutes and seconds (two digits each, below 60) that add back up
      to the input. Unlike the round trip, this holds for every i64 value. */
  lemma SecondsToStrFields(a: nat)
    requires a <= I64_MAX
    ensures var s := SecondsToStr(a);
            |s| >= 8 && s[|s| - 3] == ':' && s[|s| - 6] == ':' &&
            FieldsValue(s[..|s| - 6], s[|s| - 5..|s| - 3], s[|s| - 2..]) == Some(a)
  {
    var hv, mv, sv := a / 3600, (a / 60) % 60, a % 60;
    HmsParts(a, hv, mv, sv);
    FieldsOfJoined(SecondsToStr(a), hv, mv, sv);
  }

  /** Three padded fields joined by ':' split back into the fields, which read back as
      the seconds they were printed from. */
  lemma FieldsOfJoined(s: string, hv: nat, mv: nat, sv: nat)
    requires mv < 60 && sv < 60
    requires s == Pad2(hv) + ":" + Pad2(mv) + ":" + Pad2(sv)
    ensures |s| >= 8 && s[|s| - 3] == ':' && s[|s| - 6] == ':'
    ensures FieldsValue(s[..|s| - 6], s[|s| - 5..|s| - 3], s[|s| - 2..]) == Some(hv * 3600 + mv * 60 + sv)
  {
    JoinedFields(Pad2(hv), Pad2(mv), Pad2(sv));
    Pad2Value(hv);
    Pad2Value(mv);
    Pad2Value(sv);
  }

  /** The number of seconds three printed fields stand for: all digits, minutes and
      seconds below 60. */
  function FieldsValue(h: string, m: string, sec: string): Option<nat> {
    if AllDigits(h) && AllDigits(m) && AllDigits(sec) && DecimalValue(m) < 60 && DecimalValue(sec) < 60
    then Some(DecimalValue(h) * 3600 + DecimalValue(m) * 60 + DecimalValue(sec))
    else None
  }

  lemma JoinedFields(h: string, m: string, sec: string)
    requires |h| >= 2 && |m| == 2 && |sec| == 2
    ensures var s := h + ":" + m + ":" + sec;
            |s| >= 8 && s[|s| - 3] == ':' && s[|s| - 6] == ':' &&
            s[..|s| - 6] == h && s[|s| - 5..|s| - 3] == m && s[|s| - 2..] == sec
  {
  }

  lemma HmsParts(a: nat, hv: nat, mv: nat, sv: nat)
    requires hv == a / 3600 && mv == (a / 60) % 60 && sv == a % 60
    ensures hv * 3600 + mv * 60 + sv == a && mv < 60 && sv < 60
  {
    assert a / 3600 == (a / 60) / 60;
    assert (a / 60) == (a / 60) / 60 * 60 + (a / 60) % 60;
  }

  /** The sign: a printed duration starts with '-' exactly when it is negative. */
  lemma SecondsToStrSign(total: int)
    requires -I64_MAX <= total <= I64_MAX
    ensures SecondsToStr(total)[0] == '-' <==> total < 0
  {
    var a := if total < 0 then -total else total;
    assert Pad2(a / 3600)[0] != '-';
  }

  /** A negative duration is the absolute value's text behind a '-' sign. */
  lemma NegativeSecondsToStr(total: int)
    requires -I64_MAX <= total < 0
    ensures SecondsToStr(total) == "-" + SecondsToStr(-total)
  {
  }

  /** Splits at the first `c`, as two steps of `str::splitn` do. */
  function SplitOnce(s: string, c: char): (r: Option<(string, string)>)
    ensures r.Some? ==> s == r.value.0 + [c] + r.value.1 && c !in r.value.0
    ensures r.None? <==> c !in s
    decreases |s|
  {
    if |s| == 0 then None
    else if s[0] == c then Some(([], s[1..]))
    else
      match SplitOnce(s[1..], c)
      case None => None
      case Some((before, after)) => Some(([s[0]] + before, after))
  }

  /** `h * 3600 + m * 60 + s` in u32 arithmetic, wrapping as a release build does. */
  function HmsTotal(h: nat, m: nat, sec: nat): (r: nat)
    ensures r < U32_LIMIT
  {
    (h * 3600 + m * 60 + sec) % U32_LIMIT
  }

  /** `seconds_from_str`: `splitn(3, ':')`, each of the three pieces parsed as a u32, and
      `h * 3600 + m * 60 + s` in u32 arithmetic. A missing or unparsable piece is a
      `ParseError`. There is no range check on minutes and seconds. The sum is taken
      modulo 2^32, as a release build computes it (a debug build panics instead). */
  function SecondsFromStr(s: string): (r: Result<nat, Error>)
    ensures r.Ok? ==> r.value < U32_LIMIT
    ensures r.Err? ==> r.error == ParseError("invalid duration")
  {
    match SplitOnce(s, ':')
    case None => Err(ParseError("invalid duration"))
    case Some((hs, rest)) =>
      match SplitOnce(rest, ':')
      case None => Err(ParseError("invalid duration"))
      case Some((ms, ss)) =>
        match (ParseU32(hs), ParseU32(ms), ParseU32(ss))
        case (Some(h), Some(m), Some(sec)) => Ok(HmsTotal(h, m, sec))
        case _ => Err(ParseError("invalid duration"))
  }

  lemma {:induction false} SplitOnceConcat(a: string, b: string)
    requires ':' !in a
    ensures SplitOnce(a + ":" + b, ':') == Some((a, b))
    decreases |a|
  {
    var t := a + ":" + b;
    if |a| == 0 {
      assert t[0] == ':' && t[1..] == b;
    } else {
      assert t[0] == a[0] && t[1..] == a[1..] + ":" + b;
      SplitOnceConcat(a[1..], b);
      assert SplitOnce(t, ':') == Some(([a[0]] + a[1..], b));
      assert [a[0]] + a[1..] == a;
    }
  }

  lemma DigitsHaveNoColon(s: string)
    requires AllDigits(s)
    ensures ':' !in s
  {
    assert forall i :: 0 <= i < |s| ==> s[i] != ':';
  }

  /** Hours, minutes and seconds of a u32 duration add back up to it. */
  lemma HmsSum(n: nat)
    requires n < U32_LIMIT
    ensures HmsTotal(n / 3600, (n / 60) % 60, n % 60) == n
  {
    HmsParts(n, n / 3600, (n / 60) % 60, n % 60);
  }

  lemma ParseU32OfDigits(s: string)
    requires |s| > 0 && AllDigits(s) && DecimalValue(s) < U32_LIMIT
    ensures ParseU32(s) == Some(DecimalValue(s))
  {
  }

  /** The parser's arithmetic, once the string has been split and the pieces parsed. */
  lemma SecondsFromParts(t: string, h: string, rest: string, m: string, sec: string, hv: nat, mv: nat, sv: nat)
    requires SplitOnce(t, ':') == Some((h, rest))
    requires SplitOnce(rest, ':') == Some((m, sec))
    requires ParseU32(h) == Some(hv) && ParseU32(m) == Some(mv) && ParseU32(sec) == Some(sv)
    ensures SecondsFromStr(t) == Ok(HmsTotal(hv, mv, sv))
  {
  }

  lemma SplitFields(h: string, m: string, sec: string)
    requires AllDigits(h) && AllDigits(m)
    ensures SplitOnce(h + ":" + m + ":" + sec, ':') == Some((h, m + ":" + sec))
    ensures SplitOnce(m + ":" + sec, ':') == Some((m, sec))
  {
    DigitsHaveNoColon(h);
    assert h + ":" + m + ":" + sec == h + ":" + (m + ":" + sec);
    SplitOnceConcat(h, m + ":" + sec);
    DigitsHaveNoColon(m);
    SplitOnceConcat(m, sec);
  }

  /** Three digit fields joined by ':' parse to their weighted sum. */
  lemma SecondsFromFields(h: string, m: string, sec: string, hv: nat, mv: nat, sv: nat)
    requires |h| > 0 && |m| > 0 && |sec| > 0
    requires AllDigits(h) && AllDigits(m) && AllDigits(sec)
    requires DecimalValue(h) == hv && DecimalValue(m) == mv && DecimalValue(sec) == sv
    requires hv < U32_LIMIT && mv < U32_LIMIT && sv < U32_LIMIT
    ensures SecondsFromStr(h + ":" + m + ":" + sec) == Ok(HmsTotal(hv, mv, sv))
  {
    SplitFields(h, m, sec);
    ParseU32OfDigits(h);
    ParseU32OfDigits(m);
    ParseU32OfDigits(sec);
    SecondsFromParts(h + ":" + m + ":" + sec, h, m + ":" + sec, m, sec, hv, mv, sv);
  }

  /** Round trip: every duration from 0 up to u32::MAX seconds prints to a string that
      parses back to the same number of seconds. */
  lemma SecondsRoundTrip(n: nat)
    requires n < U32_LIMIT
    ensures SecondsFromStr(SecondsToStr(n)) == Ok(n)
  {
    var hv, mv, sv := n / 3600, (n / 60) % 60, n % 60;
    var h, m, sec := Pad2(hv), Pad2(mv), Pad2(sv);
    Pad2Value(hv);
    Pad2Value(mv);
    Pad2Value(sv);
    assert SecondsToStr(n) == h + ":" + m + ":" + sec;
    assert hv < U32_LIMIT && mv < U32_LIMIT && sv < U32_LIMIT;
    SecondsFromFields(h, m, sec, hv, mv, sv);
    HmsSum(n);
  }

  /** A negative duration prints with a '-' sign, which the u32 parser rejects. */
  lemma NegativeDurationsDoNotParse(total: int)
    requires -I64_MAX <= total < 0
    ensures SecondsFromStr(SecondsToStr(total)).Err?
  {
    var a := -total;
    var h, m, sec := Pad2(a / 3600), Pad2((a / 60) % 60), Pad2(a % 60);
    var s := SecondsToStr(total);
    assert s == ("-" + h) + ":" + (m + ":" + sec);
    DigitsHaveNoColon(h);
    assert ':' !in "-" + h;
    SplitOnceConcat("-" + h, m + ":" + sec);
  }

  // ---------------------------------------------------------------- booleans

  /** `parse_bool`: after trimming whitespace, "0" is false and "1" is true; anything
      else is a `ParseError`. */
  function ParseBool(s: string): (r: Result<bool, Error>)
    ensures r == Ok(false) <==> Trim(s) == "0"
    ensures r == Ok(true) <==> Trim(s) == "1"
    ensures r.Err? <==> Trim(s) != "0" && Trim(s) != "1"
  {
    var t := Trim(s);
    if t == "0" then Ok(false)
    else if t == "1" then Ok(true)
    else Err(ParseError("bool was neither `0` nor `1`"))
  }

  /** `b as u8` printed, the way the library sends booleans to a speaker. */
  function BoolDigit(b: bool): string {
    if b then "1" else "0"
  }

  /** Round trip: a boolean sent as a digit, with any whitespace around it, parses back. */
  lemma ParseBoolRoundTrip(b: bool, w1: string, w2: string)
    requires AllWhitespace(w1) && AllWhitespace(w2)
    ensures ParseBool(w1 + BoolDigit(b) + w2) == Ok(b)
  {
    TrimPadded(w1, BoolDigit(b), w2);
  }
}
