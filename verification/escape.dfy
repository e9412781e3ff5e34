/** PCDATA escaping, as in src/utils.rs and its verbatim copy src/manager/escape.rs:
    '<' becomes "&lt;", '&' becomes "&amp;", and a string with neither comes back as
    the borrowed input, without a copy. */
module Escape {

  /** What the dispatcher makes of one character. */
  datatype Value = Char(c: char) | Str(s: string)

  predicate IsSpecial(c: char) {
    c == '<' || c == '&'
  }

  predicate NoSpecial(s: string) {
    forall i :: 0 <= i < |s| ==> !IsSpecial(s[i])
  }

  /** `Value::dispatch_for_pcdata`. */
  function DispatchForPcdata(c: char): (v: Value)
    ensures v.Str? <==> IsSpecial(c)
    ensures v.Char? ==> v.c == c
    ensures c == '<' ==> v == Str("&lt;")
    ensures c == '&' ==> v == Str("&amp;")
  {
    match c
    case '<' => Str("&lt;")
    case '&' => Str("&amp;")
    case _ => Char(c)
  }

  /** The text one character turns into. */
  function Expansion(c: char): string {
    match DispatchForPcdata(c)
    case Char(d) => [d]
    case Str(t) => t
  }

  /** Reference definition: every character replaced by its expansion. */
  function Escaped(s: string): string
    decreases |s|
  {
    if |s| == 0 then "" else Expansion(s[0]) + Escaped(s[1..])
  }

  /** The result of `escape_str`: the input itself, or a new string. */
  datatype Cow = Borrowed(b: string) | Owned(o: string) {
    function Text(): string {
      match this
      case Borrowed(b) => b
      case Owned(o) => o
    }
  }

  /** The escaper's state: still the borrowed input, or the copy built so far. */
  datatype Process = BorrowedInput(input: string) | OwnedCopy(copy: string) {
    /** `Process::process`: an entity forces a copy of the input's first `i` characters
        followed by the entity; a plain character is appended only once a copy exists. */
    function Step(i: nat, next: Value): (p: Process)
      requires BorrowedInput? ==> i <= |input|
      ensures BorrowedInput? && next.Char? ==> p == this
      ensures next.Str? ==> p.OwnedCopy?
      ensures OwnedCopy? ==> p.OwnedCopy? && copy <= p.copy
    {
      match next
      case Str(t) =>
        (match this
         case OwnedCopy(o) => OwnedCopy(o + t)
         case BorrowedInput(b) => OwnedCopy(b[..i] + t))
      case Char(c) =>
        (match this
         case BorrowedInput(_) => this
         case OwnedCopy(o) => OwnedCopy(o + [c]))
    }

    /** `Process::into_result`. */
    function IntoResult(): (r: Cow)
      ensures r.Borrowed? <==> BorrowedInput?
    {
      match this
      case BorrowedInput(b) => Borrowed(b)
      case OwnedCopy(o) => Owned(o)
    }
  }

  /** `escape_str_pcdata`: one pass over the characters, copying only from the first
      character that needs escaping. The result's text is the reference escaping, and
      it is borrowed exactly when the input has nothing to escape. */
  method EscapeStrPcdata(s: string) returns (r: Cow)
    ensures r.Text() == Escaped(s)
    ensures r.Borrowed? <==> NoSpecial(s)
    ensures r.Borrowed? ==> r.b == s
  {
    var p := BorrowedInput(s);
    var i := 0;
    while i < |s|
      invariant 0 <= i <= |s|
      invariant p.BorrowedInput? <==> NoSpecial(s[..i])
      invariant p.BorrowedInput? ==> p.input == s
      invariant p.OwnedCopy? ==> p.copy == Escaped(s[..i])
    {
      if p.BorrowedInput? {
        EscapedIdentity(s[..i]);
      }
      EscapedAppend(s[..i], [s[i]]);
      assert s[..i + 1] == s[..i] + [s[i]];
      p := p.Step(i, DispatchForPcdata(s[i]));
      i := i + 1;
    }
    assert s[..i] == s;
    if p.BorrowedInput? {
      EscapedIdentity(s);
    }
    r := p.IntoResult();
  }

  lemma {:induction false} EscapedAppend(a: string, b: string)
    ensures Escaped(a + b) == Escaped(a) + Escaped(b)
    decreases |a|
  {
    if |a| == 0 {
      assert a + b == b;
    } else {
      assert (a + b)[1..] == a[1..] + b;
      EscapedAppend(a[1..], b);
    }
  }

  /** Each '<' grows the text by three characters and each '&' by four. */
  lemma {:induction false} EscapedLength(s: string)
    ensures |Escaped(s)| == |s| + 3 * multiset(s)['<'] + 4 * multiset(s)['&']
    decreases |s|
  {
    if |s| > 0 {
      assert s == [s[0]] + s[1..];
      assert multiset(s) == multiset([s[0]]) + multiset(s[1..]);
      EscapedLength(s[1..]);
    }
  }

  /** Escaping changes a string exactly when it holds a '<' or a '&'. */
  lemma EscapedIdentity(s: string)
    ensures Escaped(s) == s <==> NoSpecial(s)
  {
    if NoSpecial(s) {
      NoSpecialUnchanged(s);
    } else {
      var i :| 0 <= i < |s| && IsSpecial(s[i]);
      assert s[i] in multiset(s);
      EscapedLength(s);
    }
  }

  lemma {:induction false} NoSpecialUnchanged(s: string)
    requires NoSpecial(s)
    ensures Escaped(s) == s
    decreases |s|
  {
    if |s| > 0 {
      NoSpecialUnchanged(s[1..]);
    }
  }

  /** The escaped text holds no '<', so it cannot open markup. */
  lemma {:induction false} EscapedHasNoLt(s: string)
    ensures '<' !in Escaped(s)
    decreases |s|
  {
    if |s| > 0 {
      EscapedHasNoLt(s[1..]);
      var e := Expansion(s[0]);
      assert '<' !in e;
      assert forall k :: 0 <= k < |Escaped(s)| ==>
        Escaped(s)[k] == if k < |e| then e[k] else Escaped(s[1..])[k - |e|];
    }
  }

  /** An XML reader's decoding of the two entities. */
  function Unescape(s: string): string
    decreases |s|
  {
    if |s| == 0 then ""
    else if |s| >= 4 && s[..4] == "&lt;" then "<" + Unescape(s[4..])
    else if |s| >= 5 && s[..5] == "&amp;" then "&" + Unescape(s[5..])
    else [s[0]] + Unescape(s[1..])
  }

  /** Round trip: decoding the entities gives back the original text. */
  lemma {:induction false} UnescapeEscaped(s: string)
    ensures Unescape(Escaped(s)) == s
    decreases |s|
  {
    if |s| > 0 {
      var rest := Escaped(s[1..]);
      var e := Escaped(s);
      assert e == Expansion(s[0]) + rest;
      UnescapeEscaped(s[1..]);
      if s[0] == '<' {
        assert e[..4] == "&lt;" && e[4..] == rest;
      } else if s[0] == '&' {
        assert e[..4] != "&lt;" by { assert e[1] == 'a'; }
        assert e[..5] == "&amp;" && e[5..] == rest;
      } else {
        assert e[0] == s[0] && e[1..] == rest;
      }
      assert s == [s[0]] + s[1..];
    }
  }

  /** The multibyte case from the source's unit test: "☃<" becomes "☃&lt;". */
  lemma MultibyteExample()
    ensures Escaped("\U{2603}<") == "\U{2603}&lt;"
  {
    assert "\U{2603}<"[1..] == "<";
    assert "<"[1..] == "";
  }
}
