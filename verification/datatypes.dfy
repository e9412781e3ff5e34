/** How a Sonos zone repeats its queue, with its string forms. */
module Datatypes {
  import opened Wrappers
  import opened Text
  import opened Errors

  /** The playlist is not repeated (the default), one song is repeated, or the whole
      playlist is repeated. */
  datatype RepeatMode = None | One | All

  /** `RepeatMode::default()`. */
  function DefaultRepeatMode(): (m: RepeatMode)
    ensures m == RepeatMode.None
  {
    RepeatMode.None
  }

  /** `Display`, which prints the `Debug` form: the variant name. */
  function Display(m: RepeatMode): string {
    match m
    case None => "None"
    case One => "One"
    case All => "All"
  }

  /** `RepeatMode::from_str`: the variant names in any letter case. Lower-casing the
      input with ASCII rules decides these three words exactly as Unicode lower-casing
      does, since no non-ASCII character lower-cases to an ASCII letter of them. */
  function FromStr(s: string): (r: Result<RepeatMode, Error>)
    ensures r.Ok? ==> EqIgnoreAsciiCase(s, Display(r.value))
    ensures r.Err? ==> r.error == ParseRepeatModeError
  {
    var lower := ToLowerAscii(s);
    if lower == "none" then
      assert ToLowerAscii("None") == "none";
      Ok(RepeatMode.None)
    else if lower == "one" then
      assert ToLowerAscii("One") == "one";
      Ok(One)
    else if lower == "all" then
      assert ToLowerAscii("All") == "all";
      Ok(All)
    else Err(ParseRepeatModeError)
  }

  /** A string is accepted exactly when it is a variant name up to ASCII case. */
  lemma FromStrAcceptsNamesOnly(s: string)
    ensures FromStr(s).Ok? <==> exists m: RepeatMode :: EqIgnoreAsciiCase(s, Display(m))
  {
    if exists m: RepeatMode :: EqIgnoreAsciiCase(s, Display(m)) {
      var m: RepeatMode :| EqIgnoreAsciiCase(s, Display(m));
      match m
      case None => assert ToLowerAscii("None") == "none";
      case One => assert ToLowerAscii("One") == "one";
      case All => assert ToLowerAscii("All") == "all";
    }
  }

  /** Parsing what `Display` prints gives the mode back, in any letter case. */
  lemma DisplayRoundTrip(m: RepeatMode, s: string)
    requires EqIgnoreAsciiCase(s, Display(m))
    ensures FromStr(s) == Ok(m)
  {
    match m
    case None => assert ToLowerAscii("None") == "none";
    case One => assert ToLowerAscii("One") == "one";
    case All => assert ToLowerAscii("All") == "all";
  }
}
