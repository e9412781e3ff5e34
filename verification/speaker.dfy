/** The speaker-level logic of src/speaker.rs: building a speaker from its UPnP device
    description, the `ZoneGroupState` reader, the play-mode codec, the speaker calls the
    rest of the model issues (and the UPnP actions they send), `pause`'s error filter,
    the plans of `set_repeat_mode`, `set_shuffle` and `join`, and the semantics of a
    sequence of calls that stops at the first failure. */
module Speakers {
  import opened Wrappers
  import opened Seqs
  import opened Text
  import opened Urns
  import opened Errors
  import opened Datatypes
  import opened Utils

  // ================================================================ devices

  /** A UPnP service offered by a device, with the URL path its events are served at. */
  datatype Service = Service(serviceType: Urn, eventSubPath: string)

  /** A device description: its type, the extra properties asked for (`roomName`,
      `UDN`), the URL it was read from and its services. */
  datatype Device = Device(deviceType: Urn, extra: map<string, string>, url: string, services: seq<Service>)

  /** Name, uuid and description URL of one speaker. */
  datatype SpeakerInfo = SpeakerInfo(name: string, uuid: string, location: string)

  datatype Speaker = Speaker(device: Device, info: SpeakerInfo)

  /** The zone group state: for each group, its coordinator's uuid and its members. */
  type Topology = seq<(string, seq<SpeakerInfo>)>

  /** Whether `Speaker::from_device` accepts a device: a ZonePlayer with both extra
      properties. */
  predicate IsSonosDevice(d: Device) {
    d.deviceType == SONOS_URN && "roomName" in d.extra && "UDN" in d.extra
  }

  /** `Speaker::from_device`. The uuid is the UDN without its first five characters (the
      "uuid:" prefix); slicing a shorter UDN panics, so that case is excluded. */
  function FromDevice(d: Device): (r: Option<Speaker>)
    requires IsSonosDevice(d) ==> |d.extra["UDN"]| >= 5
    ensures r.Some? <==> IsSonosDevice(d)
    ensures r.Some? ==> r.value.device == d && r.value.info.name == d.extra["roomName"]
                        && r.value.info.location == d.url
    ensures r.Some? ==> d.extra["UDN"] == d.extra["UDN"][..5] + r.value.info.uuid
  {
    if d.deviceType == SONOS_URN && "roomName" in d.extra && "UDN" in d.extra then
      var udn := d.extra["UDN"];
      assert udn == udn[..5] + udn[5..];
      Some(Speaker(d, SpeakerInfo(d.extra["roomName"], udn[5..], d.url)))
    else Option.None
  }

  /** A device announcing `UDN = "uuid:" + u` becomes a speaker with uuid `u`. */
  lemma FromDeviceUuid(d: Device, u: string)
    requires IsSonosDevice(d) && d.extra["UDN"] == "uuid:" + u
    ensures FromDevice(d).Some? && FromDevice(d).value.info.uuid == u
  {
    var udn := d.extra["UDN"];
    assert udn[5..] == u;
  }

  /** `Device::find_service`: the first service of the requested type. */
  function FindService(d: Device, urn: Urn): (r: Option<Service>)
    ensures r.Some? ==> r.value in d.services && r.value.serviceType == urn
    ensures r.None? <==> forall i :: 0 <= i < |d.services| ==> d.services[i].serviceType != urn
  {
    match FindIndex(d.services, (s: Service) => s.serviceType == urn)
    case None => Option.None
    case Some(i) => Some(d.services[i])
  }

  /** The service of the requested type on a speaker's device, with the device URL, as
      both controllers' `get_a_service_and_url` pick it once a speaker is chosen. */
  function ServiceAndUrl(s: Speaker, urn: Urn): (r: Result<(Service, string), Error>)
    ensures r.Ok? <==> FindService(s.device, urn).Some?
    ensures r.Ok? ==> r.value.0 in s.device.services && r.value.0.serviceType == urn && r.value.1 == s.device.url
    ensures r.Err? ==> r.error == MissingServiceForUPnPAction(urn, "", "")
  {
    match FindService(s.device, urn)
    case None => Err(MissingServiceForUPnPAction(urn, "", ""))
    case Some(service) => Ok((service, s.device.url))
  }

  /** `PartialEq for SpeakerInfo`: two infos are equal when their uuids are, up to ASCII case. */
  predicate SameSpeaker(a: SpeakerInfo, b: SpeakerInfo) {
    EqIgnoreAsciiCase(a.uuid, b.uuid)
  }

  /** `Eq` demands an equivalence relation, and this one is. */
  lemma SameSpeakerIsEquivalence(a: SpeakerInfo, b: SpeakerInfo, c: SpeakerInfo)
    ensures SameSpeaker(a, a)
    ensures SameSpeaker(a, b) ==> SameSpeaker(b, a)
    ensures SameSpeaker(a, b) && SameSpeaker(b, c) ==> SameSpeaker(a, c)
  {
    EqIgnoreAsciiCaseIsEquivalence(a.uuid, b.uuid, c.uuid);
  }

  /** `Hash for SpeakerInfo` as written: it hashes the uuid exactly as stored. */
  function HashKey(info: SpeakerInfo): string {
    info.uuid
  }

  /** Two infos that compare equal but hash differently, which `Hash` forbids. */
  lemma HashKeyDisagreesWithEq()
    ensures var a := SpeakerInfo("Kitchen", "RINCON_a", "");
            var b := SpeakerInfo("Kitchen", "RINCON_A", "");
            SameSpeaker(a, b) && HashKey(a) != HashKey(b)
  {
    assert ToLowerAscii("RINCON_a") == "rincon_a";
    assert ToLowerAscii("RINCON_A") == "rincon_a";
    assert "RINCON_a"[7] != "RINCON_A"[7];
  }

  /** A hash key consistent with `SameSpeaker`: the uuid in ASCII lower case. */
  function FoldedHashKey(info: SpeakerInfo): string {
    ToLowerAscii(info.uuid)
  }

  /** Equal infos have equal folded keys, and equal folded keys mean equal infos. */
  lemma FoldedHashKeyAgreesWithEq(a: SpeakerInfo, b: SpeakerInfo)
    ensures SameSpeaker(a, b) <==> FoldedHashKey(a) == FoldedHashKey(b)
  {
  }

  // ================================================================ XML element tree

  datatype Attribute = Attribute(name: string, value: string)

  /** A parsed XML node: an element with its tag name, attributes in document order and
      children, or character data. */
  datatype Node = Element(tag: string, attributes: seq<Attribute>, children: seq<Node>)
                | TextNode(content: string)

  function AttributesOf(n: Node): seq<Attribute> {
    if n.Element? then n.attributes else []
  }

  function ChildrenOf(n: Node): seq<Node> {
    if n.Element? then n.children else []
  }

  function TagOf(n: Node): string {
    if n.Element? then n.tag else ""
  }

  /** The value of the last attribute whose name, lower-cased, is `lname`. ASCII
      lower-casing decides these names exactly as Unicode lower-casing does: the only
      non-ASCII characters that lower-case to ASCII letters are the Kelvin sign and the
      dotted capital I, and no lower-case attribute name used here contains a 'k' or is
      matched against a dotted 'i' on its own. */
  function LastAttribute(attrs: seq<Attribute>, lname: string): (r: Option<string>)
    decreases |attrs|
  {
    if |attrs| == 0 then Option.None
    else if ToLowerAscii(attrs[|attrs| - 1].name) == lname then Some(attrs[|attrs| - 1].value)
    else LastAttribute(attrs[..|attrs| - 1], lname)
  }

  /** No value exactly when no attribute has the name; otherwise the value of the last
      attribute that has it. */
  lemma {:induction false} LastAttributeIsLast(attrs: seq<Attribute>, lname: string)
    ensures LastAttribute(attrs, lname).None? <==> forall i :: 0 <= i < |attrs| ==> ToLowerAscii(attrs[i].name) != lname
    ensures LastAttribute(attrs, lname).Some? ==>
              exists i :: 0 <= i < |attrs| && ToLowerAscii(attrs[i].name) == lname
                          && attrs[i].value == LastAttribute(attrs, lname).value
                          && forall j :: i < j < |attrs| ==> ToLowerAscii(attrs[j].name) != lname
    decreases |attrs|
  {
    if |attrs| > 0 && ToLowerAscii(attrs[|attrs| - 1].name) != lname {
      var front := attrs[..|attrs| - 1];
      LastAttributeIsLast(front, lname);
      if LastAttribute(front, lname).Some? {
        var i :| 0 <= i < |front| && ToLowerAscii(front[i].name) == lname
                 && front[i].value == LastAttribute(front, lname).value
                 && forall j :: i < j < |front| ==> ToLowerAscii(front[j].name) != lname;
        assert attrs[i] == front[i];
        forall j | i < j < |attrs|
          ensures ToLowerAscii(attrs[j].name) != lname
        {
          if j < |front| {
            assert attrs[j] == front[j];
          }
        }
      } else {
        forall i | 0 <= i < |attrs|
          ensures ToLowerAscii(attrs[i].name) != lname
        {
          if i < |front| {
            assert attrs[i] == front[i];
          }
        }
      }
    }
  }

  /** What `SpeakerInfo::from_xml` makes of a `ZoneGroupMember`'s attributes: the last
      "zonename", "uuid" and "location" attributes in any letter case; a missing one is
      reported, checking the name first, then the uuid, then the location. */
  function InfoFromAttributes(attrs: seq<Attribute>): (r: Result<SpeakerInfo, Error>)
    ensures r.Ok? <==> LastAttribute(attrs, "zonename").Some? && LastAttribute(attrs, "uuid").Some?
                       && LastAttribute(attrs, "location").Some?
    ensures r.Ok? ==> r.value == SpeakerInfo(LastAttribute(attrs, "zonename").value,
                                             LastAttribute(attrs, "uuid").value,
                                             LastAttribute(attrs, "location").value)
    ensures LastAttribute(attrs, "zonename").None? ==> r == Err(XmlMissingElement("RoomName", "ZoneGroupMember"))
    ensures LastAttribute(attrs, "zonename").Some? && LastAttribute(attrs, "uuid").None?
            ==> r == Err(XmlMissingElement("UUID", "ZoneGroupMember"))
    ensures LastAttribute(attrs, "zonename").Some? && LastAttribute(attrs, "uuid").Some?
            && LastAttribute(attrs, "location").None?
            ==> r == Err(XmlMissingElement("Location", "ZoneGroupMember"))
  {
    match (LastAttribute(attrs, "zonename"), LastAttribute(attrs, "uuid"), LastAttribute(attrs, "location"))
    case (None, _, _) => Err(XmlMissingElement("RoomName", "ZoneGroupMember"))
    case (Some(_), None, _) => Err(XmlMissingElement("UUID", "ZoneGroupMember"))
    case (Some(_), Some(_), None) => Err(XmlMissingElement("Location", "ZoneGroupMember"))
    case (Some(name), Some(uuid), Some(location)) => Ok(SpeakerInfo(name, uuid, location))
  }

  /** Looking at one more attribute: it wins if its name matches. */
  lemma LastAttributeStep(attrs: seq<Attribute>, i: nat, lname: string)
    requires i < |attrs|
    ensures LastAttribute(attrs[..i + 1], lname)
            == if ToLowerAscii(attrs[i].name) == lname then Some(attrs[i].value) else LastAttribute(attrs[..i], lname)
  {
    assert attrs[..i + 1][..i] == attrs[..i];
  }

  /** `SpeakerInfo::from_xml`: one pass over the attributes, each recognised name
      overwriting the value seen so far. */
  method FromXml(node: Node) returns (r: Result<SpeakerInfo, Error>)
    ensures r == InfoFromAttributes(AttributesOf(node))
  {
    var attrs := AttributesOf(node);
    var uuid: Option<string> := Option.None;
    var name: Option<string> := Option.None;
    var location: Option<string> := Option.None;
    var i := 0;
    while i < |attrs|
      invariant 0 <= i <= |attrs|
      invariant uuid == LastAttribute(attrs[..i], "uuid")
      invariant location == LastAttribute(attrs[..i], "location")
      invariant name == LastAttribute(attrs[..i], "zonename")
    {
      var lname := ToLowerAscii(attrs[i].name);
      if lname == "uuid" {
        uuid := Some(attrs[i].value);
      } else if lname == "location" {
        location := Some(attrs[i].value);
      } else if lname == "zonename" {
        name := Some(attrs[i].value);
      }
      LastAttributeStep(attrs, i, "uuid");
      LastAttributeStep(attrs, i, "location");
      LastAttributeStep(attrs, i, "zonename");
      i := i + 1;
    }
    assert attrs[..i] == attrs;
    if name.None? {
      return Err(XmlMissingElement("RoomName", "ZoneGroupMember"));
    }
    if uuid.None? {
      return Err(XmlMissingElement("UUID", "ZoneGroupMember"));
    }
    if location.None? {
      return Err(XmlMissingElement("Location", "ZoneGroupMember"));
    }
    r := Ok(SpeakerInfo(name.value, uuid.value, location.value));
  }

  /** A later attribute of the same name, in any letter case, wins. */
  lemma LastOccurrenceWins(attrs: seq<Attribute>, name: string, value: string)
    ensures LastAttribute(attrs + [Attribute(name, value)], ToLowerAscii(name)) == Some(value)
  {
    var s := attrs + [Attribute(name, value)];
    assert s[|s| - 1] == Attribute(name, value);
  }

  /** `find_node_attribute` of the UPnP client: the first attribute whose name matches
      in any ASCII letter case. */
  function FindNodeAttribute(n: Node, name: string): (r: Option<string>)
    ensures r.None? <==> forall i :: 0 <= i < |AttributesOf(n)| ==> !EqIgnoreAsciiCase(AttributesOf(n)[i].name, name)
  {
    var attrs := AttributesOf(n);
    match FindIndex(attrs, (a: Attribute) => EqIgnoreAsciiCase(a.name, name))
    case None => Option.None
    case Some(i) => Some(attrs[i].value)
  }

  /** `Node::attribute`: the attribute with exactly this name. */
  function ExactAttribute(n: Node, name: string): (r: Option<string>)
    ensures r.None? <==> forall i :: 0 <= i < |AttributesOf(n)| ==> AttributesOf(n)[i].name != name
  {
    var attrs := AttributesOf(n);
    match FindIndex(attrs, (a: Attribute) => a.name == name)
    case None => Option.None
    case Some(i) => Some(attrs[i].value)
  }

  predicate IsElementNamed(n: Node, tag: string) {
    n.Element? && EqIgnoreAsciiCase(n.tag, tag)
  }

  predicate IsZoneGroup(n: Node) {
    IsElementNamed(n, "ZoneGroup")
  }

  /** A `ZoneGroupMember` element not marked `Invisible="1"`. */
  predicate IsVisibleMember(n: Node) {
    IsElementNamed(n, "ZoneGroupMember") && ExactAttribute(n, "Invisible") != Some("1")
  }

  /** The `ZoneGroup` children of the `ZoneGroups` element, in document order. */
  function ZoneGroups(state: Node): seq<Node> {
    Filter(ChildrenOf(state), IsZoneGroup)
  }

  /** The visible members of one group, in document order. */
  function VisibleMembers(group: Node): seq<Node> {
    Filter(ChildrenOf(group), IsVisibleMember)
  }

  function MemberInfos(members: seq<Node>): seq<Result<SpeakerInfo, Error>> {
    seq(|members|, i requires 0 <= i < |members| => InfoFromAttributes(AttributesOf(members[i])))
  }

  /** One group of the topology: its `Coordinator` attribute (an error when missing),
      then the infos of its visible members, stopping at the first bad member. */
  function GroupEntry(group: Node): (r: Result<(string, seq<SpeakerInfo>), Error>)
    ensures FindNodeAttribute(group, "Coordinator").None? ==> r == Err(XmlMissingElement(TagOf(group), "Coordinator"))
    ensures r.Ok? ==> FindNodeAttribute(group, "Coordinator") == Some(r.value.0)
    ensures r.Ok? ==> |r.value.1| == |VisibleMembers(group)|
                      && forall j :: 0 <= j < |r.value.1| ==>
                           InfoFromAttributes(AttributesOf(VisibleMembers(group)[j])) == Ok(r.value.1[j])
    ensures r.Ok? <==> FindNodeAttribute(group, "Coordinator").Some?
                       && forall j :: 0 <= j < |VisibleMembers(group)| ==>
                            InfoFromAttributes(AttributesOf(VisibleMembers(group)[j])).Ok?
    ensures FindNodeAttribute(group, "Coordinator").Some? && r.Err? ==>
              exists j :: 0 <= j < |VisibleMembers(group)|
                          && InfoFromAttributes(AttributesOf(VisibleMembers(group)[j])) == Err(r.error)
                          && forall i :: 0 <= i < j ==> InfoFromAttributes(AttributesOf(VisibleMembers(group)[i])).Ok?
  {
    match FindNodeAttribute(group, "Coordinator")
    case None => Err(XmlMissingElement(TagOf(group), "Coordinator"))
    case Some(coordinator) =>
      var members := VisibleMembers(group);
      var results := MemberInfos(members);
      assert forall j :: 0 <= j < |members| ==> results[j] == InfoFromAttributes(AttributesOf(members[j]));
      match Collect(results)
      case Err(e) => Err(e)
      case Ok(infos) => Ok((coordinator, infos))
  }

  function GroupEntries(groups: seq<Node>): (r: seq<Result<(string, seq<SpeakerInfo>), Error>>)
    ensures |r| == |groups| && forall k :: 0 <= k < |groups| ==> r[k] == GroupEntry(groups[k])
  {
    seq(|groups|, i requires 0 <= i < |groups| => GroupEntry(groups[i]))
  }

  /** `extract_zone_topology`, given the `ZoneGroups` element: one entry per `ZoneGroup`
      child in document order, or the first error met. */
  function ExtractZoneTopology(state: Node): (r: Result<seq<(string, seq<SpeakerInfo>)>, Error>)
    ensures r.Ok? <==> forall k :: 0 <= k < |ZoneGroups(state)| ==> GroupEntry(ZoneGroups(state)[k]).Ok?
    ensures r.Ok? ==> |r.value| == |ZoneGroups(state)|
                      && forall k :: 0 <= k < |r.value| ==> GroupEntry(ZoneGroups(state)[k]) == Ok(r.value[k])
  {
    Collect(GroupEntries(ZoneGroups(state)))
  }

  /** Every member reported comes from a visible `ZoneGroupMember` of a `ZoneGroup`
      child of the state, and its group's coordinator is that group's attribute. */
  lemma ExtractedMembersAreVisible(state: Node, k: nat, j: nat)
    requires ExtractZoneTopology(state).Ok?
    requires k < |ExtractZoneTopology(state).value|
    requires j < |ExtractZoneTopology(state).value[k].1|
    ensures var entry := ExtractZoneTopology(state).value[k];
            exists g, m :: g in ChildrenOf(state) && IsZoneGroup(g) && m in ChildrenOf(g) && IsVisibleMember(m)
                           && FindNodeAttribute(g, "Coordinator") == Some(entry.0)
                           && InfoFromAttributes(AttributesOf(m)) == Ok(entry.1[j])
  {
    var g := ZoneGroups(state)[k];
    var m := VisibleMembers(g)[j];
    assert g in ChildrenOf(state) && IsZoneGroup(g);
    assert m in ChildrenOf(g) && IsVisibleMember(m);
  }

  // ================================================================ play modes

  /** `set_playback_mode`'s table from (repeat mode, shuffle) to the `CurrentPlayMode`
      value sent to the speaker. */
  function PlayModeName(repeat: RepeatMode, shuffle: bool): (r: string)
    ensures UpperAsciiWord(r)
  {
    match (repeat, shuffle)
    case (None, false) => "NORMAL"
    case (One, false) => "REPEAT_ONE"
    case (All, false) => "REPEAT_ALL"
    case (None, true) => "SHUFFLE_NOREPEAT"
    case (One, true) => "SHUFFLE_REPEAT_ONE"
    case (All, true) => "SHUFFLE"
  }

  /** `playback_mode`'s reading of a `PlayMode` value: upper-cased, one of the six names,
      anything else an invalid response. */
  function ParsePlayMode(s: string): (r: Result<(RepeatMode, bool), Error>)
    ensures r.Ok? ==> PlayModeName(r.value.0, r.value.1) == ToUpper(s)
    ensures r.Err? ==> r.error == InvalidResponse
                       && forall m: RepeatMode, b: bool :: PlayModeName(m, b) != ToUpper(s)
  {
    var u := ToUpper(s);
    if u == "NORMAL" then Ok((RepeatMode.None, false))
    else if u == "REPEAT_ALL" then Ok((All, false))
    else if u == "REPEAT_ONE" then Ok((One, false))
    else if u == "SHUFFLE_NOREPEAT" then Ok((RepeatMode.None, true))
    else if u == "SHUFFLE" then Ok((All, true))
    else if u == "SHUFFLE_REPEAT_ONE" then Ok((One, true))
    else Err(InvalidResponse)
  }

  /** The six names are distinct: the table is injective. */
  lemma PlayModeNameInjective(m1: RepeatMode, b1: bool, m2: RepeatMode, b2: bool)
    requires PlayModeName(m1, b1) == PlayModeName(m2, b2)
    ensures m1 == m2 && b1 == b2
  {
    var n := PlayModeName(m1, b1);
    assert |n| == |PlayModeName(m2, b2)|;
    if |n| == 10 {
      assert n[7] == PlayModeName(m2, b2)[7];
    }
  }

  /** Round trip: what `set_playback_mode` sends, `playback_mode` reads back as the same
      pair. */
  lemma PlayModeRoundTrip(m: RepeatMode, b: bool)
    ensures ParsePlayMode(PlayModeName(m, b)) == Ok((m, b))
  {
    ToUpperOfUpperWord(PlayModeName(m, b));
    var r := ParsePlayMode(PlayModeName(m, b));
    PlayModeNameInjective(r.value.0, r.value.1, m, b);
  }

  /** `playback_mode`: the `GetTransportSettings` response (or its error), its
      `PlayMode` entry, then the name parsed. */
  function PlaybackMode(response: Result<map<string, string>, Error>): (r: Result<(RepeatMode, bool), Error>)
    ensures response.Err? ==> r == Err(response.error)
    ensures response.Ok? && "PlayMode" !in response.value ==> r == Err(XmlMissingElement("UPnP Response", "PlayMode"))
    ensures response.Ok? && "PlayMode" in response.value ==> r == ParsePlayMode(response.value["PlayMode"])
  {
    match response
    case Err(e) => Err(e)
    case Ok(m) =>
      match Extract(m, "PlayMode").0
      case Err(e) => Err(e)
      case Ok(mode) => ParsePlayMode(mode)
  }

  // ================================================================ speaker calls

  /** A track of the queue; its contents are not part of this model. */
  datatype Track = Track(title: string, uri: string)

  /** What the speaker reports of the current track: its number in the queue (the first
      is 1), its duration and the elapsed time, in seconds. */
  datatype TrackInfo = TrackInfo(track: Track, metadata: string, trackNo: nat, duration: nat, elapsed: nat)

  /** The state-changing speaker methods the model issues. */
  datatype Call =
    | Play
    | Pause
    | Next
    | Previous
    | SkipTo(seconds: nat)
    | SeekTrack(trackNo: nat)
    | SetPlayMode(mode: string)
    | SetCrossfade(on: bool)
    | SetVolume(volume: nat)
    | SetTransportUri(uri: string, metadata: string)
    | ClearQueue
    | QueueNext(uri: string, metadata: string, position: Option<nat>)

  /** A UPnP action: service, action name and argument payload. */
  datatype Action = Action(service: Urn, name: string, payload: string)

  /** The service and action name each speaker method invokes (src/speaker.rs). */
  function ActionTarget(c: Call): (Urn, string) {
    match c
    case Play => (AV_TRANSPORT, "Play")
    case Pause => (AV_TRANSPORT, "Pause")
    case Next => (AV_TRANSPORT, "Next")
    case Previous => (AV_TRANSPORT, "Previous")
    case SkipTo(_) => (AV_TRANSPORT, "Seek")
    case SeekTrack(_) => (AV_TRANSPORT, "Seek")
    case SetPlayMode(_) => (AV_TRANSPORT, "SetPlayMode")
    case SetCrossfade(_) => (AV_TRANSPORT, "SetCrossfadeMode")
    case SetVolume(_) => (RENDERING_CONTROL, "SetVolume")
    case SetTransportUri(_, _) => (AV_TRANSPORT, "SetAVTransportURI")
    case ClearQueue => (AV_TRANSPORT, "RemoveAllTracksFromQueue")
    case QueueNext(_, _, _) => (AV_TRANSPORT, "AddURIToQueue")
  }

  /** The `args!` list of each speaker method: numbers printed in decimal, booleans as a
      digit, the playback position as `H:MM:SS`. */
  function ActionArgs(c: Call): (r: seq<(string, string)>)
    requires c.SkipTo? ==> c.seconds < U32_LIMIT
    ensures |r| >= 1 && r[0] == ("InstanceID", "0")
  {
    match c
    case Play => [("InstanceID", "0"), ("Speed", "1")]
    case Pause => [("InstanceID", "0")]
    case Next => [("InstanceID", "0")]
    case Previous => [("InstanceID", "0")]
    case SkipTo(s) => [("InstanceID", "0"), ("Unit", "REL_TIME"), ("Target", SecondsToStr(s))]
    case SeekTrack(n) => [("InstanceID", "0"), ("Unit", "TRACK_NR"), ("Target", Decimal(n))]
    case SetPlayMode(mode) => [("InstanceID", "0"), ("NewPlayMode", mode)]
    case SetCrossfade(on) => [("InstanceID", "0"), ("CrossfadeMode", BoolDigit(on))]
    case SetVolume(v) => [("InstanceID", "0"), ("Channel", "Master"), ("DesiredVolume", Decimal(v))]
    case SetTransportUri(uri, md) => [("InstanceID", "0"), ("CurrentURI", uri), ("CurrentURIMetaData", md)]
    case ClearQueue => [("InstanceID", "0")]
    case QueueNext(uri, md, n) =>
      [("InstanceID", "0"), ("EnqueuedURI", uri), ("EnqueuedURIMetaData", md),
       ("DesiredFirstTrackNumberEnqueued", Decimal(n.GetOr(0))), ("EnqueueAsNext", "1")]
  }

  /** The action a speaker method sends. */
  function ActionOf(c: Call): Action
    requires c.SkipTo? ==> c.seconds < U32_LIMIT
  {
    Action(ActionTarget(c).0, ActionTarget(c).1, Args(ActionArgs(c)))
  }

  /** Every payload addresses instance 0 first; the parameterless actions send exactly
      the fixed `DEFAULT_ARGS`. */
  lemma ActionsStartWithInstanceId(c: Call)
    requires c.SkipTo? ==> c.seconds < U32_LIMIT
    ensures StartsWith(ActionOf(c).payload, DEFAULT_ARGS)
    ensures c.Pause? || c.Next? || c.Previous? || c.ClearQueue? ==> ActionOf(c).payload == DEFAULT_ARGS
  {
    var args := ActionArgs(c);
    assert args == [args[0]] + args[1..];
    ArgsAppend([args[0]], args[1..]);
    DefaultArgsIsArgs();
  }

  /** The `Target` of a `skip_to` action reads back, with `seconds_from_str`, as the
      position asked for. */
  lemma SkipToTargetRoundTrip(seconds: nat)
    requires seconds < U32_LIMIT
    ensures ActionArgs(SkipTo(seconds))[2].0 == "Target"
    ensures SecondsFromStr(ActionArgs(SkipTo(seconds))[2].1) == Ok(seconds)
  {
    SecondsRoundTrip(seconds);
  }

  // ================================================================ outcomes and plans

  /** `pause`: success, HTTP status 500 and UPnP error 701 (no transition possible,
      the speaker is not playing) all count as paused; any other error is passed on. */
  function PauseResult(raw: Result<(), Error>): (r: Result<(), Error>)
    ensures r.Ok? <==> raw.Ok? || raw == Err(HttpErrorCode(500)) || raw == Err(UPnPError(701))
    ensures r.Err? ==> r == raw
  {
    match raw
    case Ok(_) => Ok(())
    case Err(HttpErrorCode(500)) => Ok(())
    case Err(UPnPError(701)) => Ok(())
    case Err(e) => Err(e)
  }

  /** The outcome of a speaker method, given what its action returned (`remote`). */
  function Perform(c: Call, remote: Call -> Result<(), Error>): Result<(), Error> {
    if c == Pause then PauseResult(remote(c)) else remote(c)
  }

  /** One step of a plan: a call awaited on its own, or two calls run together with
      `try_join`, in no particular order. */
  datatype Step = Single(call: Call) | Joined(first: Call, second: Call)

  predicate StepSucceeds(s: Step, remote: Call -> Result<(), Error>) {
    match s
    case Single(c) => Perform(c, remote).Ok?
    case Joined(a, b) => Perform(a, remote).Ok? && Perform(b, remote).Ok?
  }

  /** The errors a failed step may report: `try_join` reports whichever of its calls
      fails first, so the error of either failing call. */
  predicate StepError(s: Step, remote: Call -> Result<(), Error>, e: Error) {
    match s
    case Single(c) => Perform(c, remote) == Err(e)
    case Joined(a, b) => Perform(a, remote) == Err(e) || Perform(b, remote) == Err(e)
  }

  /** Running `plan` step by step and stopping at the first step that fails (the `?`
      after each await): `trace` is the steps attempted and `r` the outcome. */
  predicate RanUntilFailure(plan: seq<Step>, remote: Call -> Result<(), Error>, trace: seq<Step>, r: Result<(), Error>) {
    trace <= plan
    && (forall i :: 0 <= i < |trace| - 1 ==> StepSucceeds(trace[i], remote))
    && (r.Ok? <==> trace == plan && forall i :: 0 <= i < |plan| ==> StepSucceeds(plan[i], remote))
    && (r.Err? ==> |trace| > 0 && StepError(trace[|trace| - 1], remote, r.error))
  }

  /** How many steps of `plan` run: up to and including the first failing one. */
  function AttemptedCount(plan: seq<Step>, remote: Call -> Result<(), Error>): (n: nat)
    ensures n <= |plan|
  {
    match FindIndex(plan, (s: Step) => !StepSucceeds(s, remote))
    case None => |plan|
    case Some(i) => i + 1
  }

  /** The steps attempted are determined by the plan and the outcomes: the run stops
      exactly at the first failing step, and nothing after it is attempted. */
  lemma RunStopsAtFirstFailure(plan: seq<Step>, remote: Call -> Result<(), Error>, trace: seq<Step>, r: Result<(), Error>)
    requires RanUntilFailure(plan, remote, trace, r)
    ensures trace == plan[..AttemptedCount(plan, remote)]
    ensures r.Ok? <==> forall i :: 0 <= i < |plan| ==> StepSucceeds(plan[i], remote)
  {
    var p := (s: Step) => !StepSucceeds(s, remote);
    if r.Err? {
      var k := |trace| - 1;
      assert trace[k] == plan[k];
      assert p(plan[k]);
      assert forall j :: 0 <= j < k ==> plan[j] == trace[j] && !p(plan[j]);
      assert FindIndex(plan, p) == Some(k);
    }
  }

  /** Two runs of the same plan against the same outcomes attempt the same steps. */
  lemma RunIsDeterminate(plan: seq<Step>, remote: Call -> Result<(), Error>,
                         t1: seq<Step>, r1: Result<(), Error>, t2: seq<Step>, r2: Result<(), Error>)
    requires RanUntilFailure(plan, remote, t1, r1) && RanUntilFailure(plan, remote, t2, r2)
    ensures t1 == t2 && r1.Ok? == r2.Ok?
  {
    RunStopsAtFirstFailure(plan, remote, t1, r1);
    RunStopsAtFirstFailure(plan, remote, t2, r2);
  }

  /** Running one step: its outcome, with the error of either failing call when two
      calls are joined. */
  method RunStep(s: Step, remote: Call -> Result<(), Error>) returns (r: Result<(), Error>)
    ensures r.Ok? <==> StepSucceeds(s, remote)
    ensures r.Err? ==> StepError(s, remote, r.error)
  {
    match s
    case Single(c) =>
      r := Perform(c, remote);
    case Joined(a, b) =>
      var ra, rb := Perform(a, remote), Perform(b, remote);
      if ra.Ok? && rb.Ok? {
        r := Ok(());
      } else {
        var e :| ra == Err(e) || rb == Err(e);
        r := Err(e);
      }
  }

  /** A successful run of `p1` followed by a run of `p2` is a run of `p1 + p2`. */
  lemma RunAppend(p1: seq<Step>, p2: seq<Step>, remote: Call -> Result<(), Error>,
                  t1: seq<Step>, t2: seq<Step>, r: Result<(), Error>)
    requires RanUntilFailure(p1, remote, t1, Ok(()))
    requires RanUntilFailure(p2, remote, t2, r)
    ensures RanUntilFailure(p1 + p2, remote, t1 + t2, r)
  {
    assert t1 == p1;
    var p, t := p1 + p2, t1 + t2;
    assert forall i :: 0 <= i < |t| - 1 ==> StepSucceeds(t[i], remote) by {
      forall i | 0 <= i < |t| - 1 ensures StepSucceeds(t[i], remote) {
        if i >= |t1| {
          assert t[i] == t2[i - |t1|];
        }
      }
    }
    if r.Ok? {
      assert forall i :: 0 <= i < |p| ==> StepSucceeds(p[i], remote) by {
        forall i | 0 <= i < |p| ensures StepSucceeds(p[i], remote) {
          if i >= |p1| {
            assert p[i] == p2[i - |p1|];
          }
        }
      }
    } else {
      if |t2| > 0 {
        assert t[|t| - 1] == t2[|t2| - 1];
      }
      assert t2 != p2 || exists i :: 0 <= i < |p2| && !StepSucceeds(p2[i], remote);
      if t2 != p2 {
        assert t != p by {
          assert |t2| < |p2|;
        }
      } else {
        var i :| 0 <= i < |p2| && !StepSucceeds(p2[i], remote);
        assert p[|p1| + i] == p2[i];
      }
    }
  }

  /** A run that failed in `p1` is a run of `p1 + p2` that stops there. */
  lemma RunAbortsBefore(p1: seq<Step>, p2: seq<Step>, remote: Call -> Result<(), Error>, t1: seq<Step>, r: Result<(), Error>)
    requires RanUntilFailure(p1, remote, t1, r) && r.Err?
    ensures RanUntilFailure(p1 + p2, remote, t1, r)
  {
    var k := |t1| - 1;
    assert t1[k] == p1[k] == (p1 + p2)[k];
  }

  /** After a successful run of `done`, a failing step `x` ends the run of any plan that
      continues with `x`: whatever follows is never attempted. */
  lemma RunFailsAt(done: seq<Step>, x: seq<Step>, rest: seq<Step>, remote: Call -> Result<(), Error>, r: Result<(), Error>)
    requires RanUntilFailure(done, remote, done, Ok(()))
    requires RanUntilFailure(x, remote, x, r) && r.Err?
    ensures RanUntilFailure(done + x + rest, remote, done + x, r)
  {
    RunAbortsBefore(x, rest, remote, x, r);
    RunAppend(done, x + rest, remote, done, x, r);
    assert done + (x + rest) == done + x + rest;
  }

  /** A plan of at most one step, run. */
  lemma RunOptionalStep(step: Option<Step>, remote: Call -> Result<(), Error>, r: Result<(), Error>)
    requires step.Some? ==> (r.Ok? <==> StepSucceeds(step.value, remote)) && (r.Err? ==> StepError(step.value, remote, r.error))
    requires step.None? ==> r.Ok?
    ensures RanUntilFailure(if step.Some? then [step.value] else [], remote, if step.Some? then [step.value] else [], r)
  {
    if step.Some? {
      var plan := [step.value];
      assert forall i :: 0 <= i < |plan| ==> plan[i] == step.value;
      assert plan[|plan| - 1] == step.value;
    }
  }

  /** The plan of an optional step: that step, or nothing. */
  function AsPlan(step: Option<Step>): seq<Step> {
    if step.Some? then [step.value] else []
  }

  /** One stage of a run: after `done` ran through, an optional step ran with outcome
      `r`. A failure ends the run of any plan that continues with it; a success extends
      the completed prefix. */
  lemma RunStage(done: seq<Step>, step: Option<Step>, rest: seq<Step>, remote: Call -> Result<(), Error>, r: Result<(), Error>)
    requires RanUntilFailure(done, remote, done, Ok(()))
    requires step.Some? ==> (r.Ok? <==> StepSucceeds(step.value, remote)) && (r.Err? ==> StepError(step.value, remote, r.error))
    requires step.None? ==> r.Ok?
    ensures r.Err? ==> RanUntilFailure(done + AsPlan(step) + rest, remote, done + AsPlan(step), r)
    ensures r.Ok? ==> RanUntilFailure(done + AsPlan(step), remote, done + AsPlan(step), Ok(()))
  {
    RunOptionalStep(step, remote, r);
    if r.Err? {
      RunFailsAt(done, AsPlan(step), rest, remote, r);
    } else {
      RunAppend(done, AsPlan(step), remote, done, AsPlan(step), r);
    }
  }

  /** Runs one optional step of a plan after the completed prefix `done`. */
  method RunStageStep(done: seq<Step>, step: Option<Step>, rest: seq<Step>, remote: Call -> Result<(), Error>)
    returns (r: Result<(), Error>)
    requires RanUntilFailure(done, remote, done, Ok(()))
    ensures r.Err? ==> RanUntilFailure(done + AsPlan(step) + rest, remote, done + AsPlan(step), r)
    ensures r.Ok? ==> RanUntilFailure(done + AsPlan(step), remote, done + AsPlan(step), Ok(()))
  {
    r := Ok(());
    if step.Some? {
      r := RunStep(step.value, remote);
    }
    RunStage(done, step, rest, remote, r);
  }

  /** A plan with no steps attempts nothing and succeeds. */
  lemma EmptyPlanRun(remote: Call -> Result<(), Error>, trace: seq<Step>, r: Result<(), Error>)
    requires RanUntilFailure([], remote, trace, r)
    ensures trace == [] && r.Ok?
  {
  }

  /** `set_repeat_mode`: reads the current play mode, then sends the new repeat mode
      together with the shuffle flag read; a failed read is returned unchanged. */
  function SetRepeatModeCall(repeat: RepeatMode, current: Result<(RepeatMode, bool), Error>): Result<Call, Error> {
    match current
    case Err(e) => Err(e)
    case Ok((_, shuffle)) => Ok(SetPlayMode(PlayModeName(repeat, shuffle)))
  }

  /** `set_shuffle`: the same, keeping the repeat mode read. */
  function SetShuffleCall(shuffle: bool, current: Result<(RepeatMode, bool), Error>): Result<Call, Error> {
    match current
    case Err(e) => Err(e)
    case Ok((repeat, _)) => Ok(SetPlayMode(PlayModeName(repeat, shuffle)))
  }

  /** `set_repeat_mode` changes the repeat mode only: reading the mode sent back gives
      the new repeat mode and the shuffle flag that was in force. */
  lemma SetRepeatModeKeepsShuffle(repeat: RepeatMode, response: Result<map<string, string>, Error>)
    ensures var call := SetRepeatModeCall(repeat, PlaybackMode(response));
            PlaybackMode(response).Err? ==> call == Err(PlaybackMode(response).error)
    ensures var call := SetRepeatModeCall(repeat, PlaybackMode(response));
            PlaybackMode(response).Ok? ==>
              call.Ok? && call.value.SetPlayMode?
              && ParsePlayMode(call.value.mode) == Ok((repeat, PlaybackMode(response).value.1))
  {
    if PlaybackMode(response).Ok? {
      PlayModeRoundTrip(repeat, PlaybackMode(response).value.1);
    }
  }

  /** `set_shuffle` changes the shuffle flag only. */
  lemma SetShuffleKeepsRepeatMode(shuffle: bool, response: Result<map<string, string>, Error>)
    ensures var call := SetShuffleCall(shuffle, PlaybackMode(response));
            PlaybackMode(response).Err? ==> call == Err(PlaybackMode(response).error)
    ensures var call := SetShuffleCall(shuffle, PlaybackMode(response));
            PlaybackMode(response).Ok? ==>
              call.Ok? && call.value.SetPlayMode?
              && ParsePlayMode(call.value.mode) == Ok((PlaybackMode(response).value.0, shuffle))
  {
    if PlaybackMode(response).Ok? {
      PlayModeRoundTrip(PlaybackMode(response).value.0, shuffle);
    }
  }

  // ================================================================ join

  /** All members of all groups, group by group (`flat_map` over the topology). */
  function Members(topology: seq<(string, seq<SpeakerInfo>)>): seq<SpeakerInfo> {
    Flatten(seq(|topology|, i requires 0 <= i < |topology| => topology[i].1))
  }

  /** The call `join` makes: `x-rincon:{uuid}` for the first member whose name matches
      the room name in any ASCII case, or none at all. */
  function JoinCall(topology: seq<(string, seq<SpeakerInfo>)>, roomname: string): (r: Option<Call>)
    ensures r.None? <==> forall i :: 0 <= i < |Members(topology)| ==> !EqIgnoreAsciiCase(Members(topology)[i].name, roomname)
    ensures r.Some? ==> exists i :: 0 <= i < |Members(topology)|
                          && EqIgnoreAsciiCase(Members(topology)[i].name, roomname)
                          && r.value == SetTransportUri("x-rincon:" + Members(topology)[i].uuid, "")
                          && forall j :: 0 <= j < i ==> !EqIgnoreAsciiCase(Members(topology)[j].name, roomname)
  {
    var members := Members(topology);
    match FindIndex(members, (info: SpeakerInfo) => EqIgnoreAsciiCase(info.name, roomname))
    case None => Option.None
    case Some(i) => Some(SetTransportUri("x-rincon:" + members[i].uuid, ""))
  }

  /** `join`: the zone group state (or its error), then at most one call. The result is
      `false`, with no call, when no member of any group has the room name. */
  function Join(state: Result<seq<(string, seq<SpeakerInfo>)>, Error>, roomname: string,
                remote: Call -> Result<(), Error>): (r: (seq<Call>, Result<bool, Error>))
    ensures state.Err? ==> r == ([], Err(state.error))
    ensures state.Ok? && JoinCall(state.value, roomname).None? ==> r == ([], Ok(false))
    ensures state.Ok? && JoinCall(state.value, roomname).Some? ==>
              var c := JoinCall(state.value, roomname).value;
              r.0 == [c] && (r.1 == Ok(true) <==> Perform(c, remote).Ok?)
              && (Perform(c, remote).Err? ==> r.1 == Err(Perform(c, remote).error))
  {
    match state
    case Err(e) => ([], Err(e))
    case Ok(topology) =>
      match JoinCall(topology, roomname)
      case None => ([], Ok(false))
      case Some(c) =>
        match Perform(c, remote)
        case Ok(_) => ([c], Ok(true))
        case Err(e) => ([c], Err(e))
  }

  /** No member of any group carries the room name: `join` answers `false` and calls
      nothing. */
  lemma JoinWithoutMatch(topology: seq<(string, seq<SpeakerInfo>)>, roomname: string, remote: Call -> Result<(), Error>)
    requires forall g, m :: 0 <= g < |topology| && 0 <= m < |topology[g].1| ==> !EqIgnoreAsciiCase(topology[g].1[m].name, roomname)
    ensures Join(Ok(topology), roomname, remote) == ([], Ok(false))
  {
    var parts := seq(|topology|, i requires 0 <= i < |topology| => topology[i].1);
    forall i | 0 <= i < |Members(topology)|
      ensures !EqIgnoreAsciiCase(Members(topology)[i].name, roomname)
    {
      var info := Members(topology)[i];
      FlattenContains(parts, info);
      var g :| 0 <= g < |parts| && info in parts[g];
      var m :| 0 <= m < |topology[g].1| && topology[g].1[m] == info;
    }
  }
}
