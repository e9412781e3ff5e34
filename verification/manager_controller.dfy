/** The manager's controller (src/manager/controller.rs): a registry of speaker records
    kept in step with the zone group topology, the lookups that route a zone name to its
    group coordinator, and the handlers for lost subscriptions. Every network call is an
    outcome read from a `Network` value. */
module ManagerController {
  import opened Wrappers
  import opened Seqs
  import opened Text
  import opened Urns
  import opened Errors
  import opened Speakers

  // ================================================================ data

  /** The event stream a subscription delivers, known by the identifier the subscription
      call handed back (the subscriber module is not part of this model). */
  datatype EventReceiver = EventReceiver(id: nat)

  /** A live subscription: the service, the device URL and, for AVTransport
      subscriptions, the uuid of the speaker it was made for. */
  datatype Subscription = Subscription(service: Service, url: string, uuid: Option<string>)

  /** `SpeakerData`: a speaker, its AVTransport subscription and the AVTransport state
      variables last received for it. */
  datatype SpeakerData = SpeakerData(speaker: Speaker, transportSubscription: Option<Subscription>,
                                     transportData: seq<(string, string)>)

  /** The stored topology: for each group, its coordinator's uuid and its members' uuids. */
  type ReducedTopology = seq<(string, seq<string>)>

  /** What the network answers: `Speaker::from_speaker_info` for each info, the
      subscriber's `subscribe` for each subscription asked for, and the zone group state
      read from a discovered speaker. */
  datatype Network = Network(
    fromSpeakerInfo: SpeakerInfo -> Result<Option<Speaker>, Error>,
    subscribe: Subscription -> Result<EventReceiver, Error>,
    discovery: Result<Topology, Error>)

  /** `from_speaker_info` describes the speaker it was asked about: whenever it finds a
      speaker, that speaker's uuid is the info's uuid up to ASCII case. */
  ghost predicate FaithfulLookup(net: Network) {
    forall info: SpeakerInfo :: net.fromSpeakerInfo(info).Ok? && net.fromSpeakerInfo(info).value.Some? ==>
      EqIgnoreAsciiCase(net.fromSpeakerInfo(info).value.value.info.uuid, info.uuid)
  }

  predicate HasUuid(sd: SpeakerData, uuid: string) {
    EqIgnoreAsciiCase(sd.speaker.info.uuid, uuid)
  }

  /** No two records carry the same uuid, up to ASCII case. */
  predicate UniqueUuids(reg: seq<SpeakerData>) {
    forall a, b :: 0 <= a < b < |reg| ==> !EqIgnoreAsciiCase(reg[a].speaker.info.uuid, reg[b].speaker.info.uuid)
  }

  /** The position of the first record whose uuid matches, ignoring ASCII case: the
      search every uuid lookup of the controller makes. */
  function PositionByUuid(reg: seq<SpeakerData>, uuid: string): (r: Option<nat>)
    ensures r.Some? ==> r.value < |reg| && HasUuid(reg[r.value], uuid)
    ensures r.Some? ==> forall j :: 0 <= j < r.value ==> !HasUuid(reg[j], uuid)
    ensures r.None? <==> forall j :: 0 <= j < |reg| ==> !HasUuid(reg[j], uuid)
  {
    FindIndex(reg, (sd: SpeakerData) => HasUuid(sd, uuid))
  }

  /** In a registry without duplicates, the record found is the only one with the uuid. */
  lemma PositionIsOnlyMatch(reg: seq<SpeakerData>, uuid: string, k: nat)
    requires UniqueUuids(reg)
    requires k < |reg| && HasUuid(reg[k], uuid)
    ensures PositionByUuid(reg, uuid) == Some(k)
    ensures forall j :: 0 <= j < |reg| && HasUuid(reg[j], uuid) ==> j == k
  {
    forall j | 0 <= j < |reg| && HasUuid(reg[j], uuid)
      ensures j == k
    {
      assert EqIgnoreAsciiCase(reg[j].speaker.info.uuid, reg[k].speaker.info.uuid);
    }
  }

  // ================================================================ subscriptions

  /** `get_av_transport_subscription`: subscribe to the speaker's AVTransport service at
      its device URL, for its uuid; nothing when the service is missing or the
      subscription fails. */
  function AvTransportSubscription(s: Speaker, net: Network): (r: Option<(Subscription, EventReceiver)>)
    ensures r.Some? ==> FindService(s.device, AV_TRANSPORT) == Some(r.value.0.service)
                        && r.value.0.service.serviceType == AV_TRANSPORT
                        && r.value.0.url == s.device.url && r.value.0.uuid == Some(s.info.uuid)
                        && net.subscribe(r.value.0) == Ok(r.value.1)
    ensures r.None? <==> FindService(s.device, AV_TRANSPORT).None?
                         || net.subscribe(Subscription(FindService(s.device, AV_TRANSPORT).value, s.device.url, Some(s.info.uuid))).Err?
  {
    match FindService(s.device, AV_TRANSPORT)
    case None => Option.None
    case Some(service) =>
      var sub := Subscription(service, s.device.url, Some(s.info.uuid));
      match net.subscribe(sub)
      case Ok(rx) => Some((sub, rx))
      case Err(_) => Option.None
  }

  // ================================================================ update_from_topology

  /** The topology as stored: each group's coordinator with its members' uuids, in order. */
  function Reduce(t: Topology): (r: ReducedTopology)
    ensures |r| == |t|
    ensures forall k :: 0 <= k < |t| ==> r[k].0 == t[k].0 && |r[k].1| == |t[k].1|
    ensures forall k, j :: 0 <= k < |t| && 0 <= j < |t[k].1| ==> r[k].1[j] == t[k].1[j].uuid
  {
    seq(|t|, i requires 0 <= i < |t| => (t[i].0, seq(|t[i].1|, j requires 0 <= j < |t[i].1| => t[i].1[j].uuid)))
  }

  /** Some incoming info carries the record's uuid, up to ASCII case. */
  predicate InSnapshot(sd: SpeakerData, infos: seq<SpeakerInfo>) {
    exists i :: 0 <= i < |infos| && EqIgnoreAsciiCase(infos[i].uuid, sd.speaker.info.uuid)
  }

  /** The `retain` step: the records some incoming info still names, in their order. */
  function Retained(reg: seq<SpeakerData>, infos: seq<SpeakerInfo>): (r: seq<SpeakerData>)
    ensures forall k :: 0 <= k < |r| ==> r[k] in reg && InSnapshot(r[k], infos)
    ensures (forall k :: 0 <= k < |reg| ==> InSnapshot(reg[k], infos)) ==> r == reg
  {
    Filter(reg, (sd: SpeakerData) => InSnapshot(sd, infos))
  }

  /** The registry, the queued event streams and the error, if any, of an update in
      progress. */
  datatype Progress = Progress(registry: seq<SpeakerData>, handles: seq<EventReceiver>, failure: Option<Error>)

  /** `b` is record `a` after an in-place update: the same device, subscription and
      transport data, and the same uuid up to ASCII case. */
  predicate Kept(a: SpeakerData, b: SpeakerData) {
    b.speaker.device == a.speaker.device && b.transportSubscription == a.transportSubscription
    && b.transportData == a.transportData && EqIgnoreAsciiCase(b.speaker.info.uuid, a.speaker.info.uuid)
  }

  /** One turn of the update loop for `info`: the first record with its uuid gets the new
      info in place; otherwise a new speaker is built (an error, or no speaker at all,
      stops the update) and appended, with an AVTransport subscription when one can be
      made, whose event stream is queued. */
  function Absorb(registry: seq<SpeakerData>, handles: seq<EventReceiver>, info: SpeakerInfo, net: Network): Progress {
    match PositionByUuid(registry, info.uuid)
    case Some(k) =>
      var sd := registry[k];
      Progress(registry[k := sd.(speaker := sd.speaker.(info := info))], handles, Option.None)
    case None =>
      match net.fromSpeakerInfo(info)
      case Err(e) => Progress(registry, handles, Some(e))
      case Ok(None) => Progress(registry, handles, Some(SpeakerNotIncludedInOwnZoneGroupState))
      case Ok(Some(speaker)) =>
        match AvTransportSubscription(speaker, net)
        case Some((sub, rx)) => Progress(registry + [SpeakerData(speaker, Some(sub), [])], handles + [rx], Option.None)
        case None => Progress(registry + [SpeakerData(speaker, Option.None, [])], handles, Option.None)
  }

  /** What one turn does: records are only ever updated in place (a matching one) or
      appended (when none matches); a new record has empty transport data, and queues
      one event stream exactly when it holds a subscription; a failure changes nothing
      and carries the error of building the speaker. */
  lemma AbsorbEffect(registry: seq<SpeakerData>, handles: seq<EventReceiver>, info: SpeakerInfo, net: Network)
    ensures var r := Absorb(registry, handles, info, net);
            r.failure.None? ==> |r.registry| == |registry| || |r.registry| == |registry| + 1
    ensures var r := Absorb(registry, handles, info, net);
            r.failure.None? ==> forall k :: 0 <= k < |registry| ==> Kept(registry[k], r.registry[k])
    ensures var r := Absorb(registry, handles, info, net);
            r.failure.None? ==> (|r.registry| == |registry| <==> PositionByUuid(registry, info.uuid).Some?)
    ensures var r := Absorb(registry, handles, info, net);
            PositionByUuid(registry, info.uuid).Some? ==>
              r.failure.None? && r.registry[PositionByUuid(registry, info.uuid).value].speaker.info == info
              && r.handles == handles
    ensures var r := Absorb(registry, handles, info, net);
            r.failure.None? && |r.registry| == |registry| + 1 ==>
              var added := r.registry[|registry|];
              net.fromSpeakerInfo(info) == Ok(Some(added.speaker)) && added.transportData == []
              && (added.transportSubscription.Some? ==>
                    added.transportSubscription.value.service.serviceType == AV_TRANSPORT
                    && r.handles == handles + [r.handles[|handles|]])
              && (added.transportSubscription.None? ==> r.handles == handles)
    ensures var r := Absorb(registry, handles, info, net);
            r.failure.Some? ==>
              r.registry == registry && r.handles == handles && PositionByUuid(registry, info.uuid).None?
              && (net.fromSpeakerInfo(info) == Err(r.failure.value)
                  || (net.fromSpeakerInfo(info) == Ok(Option.None) && r.failure.value == SpeakerNotIncludedInOwnZoneGroupState))
  {
  }

  /** The update loop over `infos`, stopping at the first failure. */
  function AbsorbAll(registry: seq<SpeakerData>, handles: seq<EventReceiver>, infos: seq<SpeakerInfo>, net: Network): Progress
    decreases |infos|
  {
    if |infos| == 0 then Progress(registry, handles, Option.None)
    else
      var p := AbsorbAll(registry, handles, infos[..|infos| - 1], net);
      if p.failure.Some? then p else Absorb(p.registry, p.handles, infos[|infos| - 1], net)
  }

  /** What `update_from_topology` makes of the registry and the queued streams: the
      records the snapshot no longer names are dropped, then the loop runs over every
      member of every group. */
  function UpdateOutcome(registry: seq<SpeakerData>, handles: seq<EventReceiver>, system: Topology, net: Network): Progress {
    AbsorbAll(Retained(registry, Members(system)), handles, Members(system), net)
  }

  /** Once the loop has failed, the later infos change nothing. */
  lemma {:induction false} FailureSticks(registry: seq<SpeakerData>, handles: seq<EventReceiver>, infos: seq<SpeakerInfo>, n: nat, net: Network)
    requires n <= |infos|
    requires AbsorbAll(registry, handles, infos[..n], net).failure.Some?
    ensures AbsorbAll(registry, handles, infos, net) == AbsorbAll(registry, handles, infos[..n], net)
    decreases |infos| - n
  {
    if n == |infos| {
      assert infos[..n] == infos;
    } else {
      assert infos[..n + 1][..n] == infos[..n];
      FailureSticks(registry, handles, infos, n + 1, net);
    }
  }

  /** The loop after `i + 1` infos is one more turn after `i`. */
  lemma AbsorbAllStep(registry: seq<SpeakerData>, handles: seq<EventReceiver>, infos: seq<SpeakerInfo>, i: nat, net: Network)
    requires i < |infos|
    requires AbsorbAll(registry, handles, infos[..i], net).failure.None?
    ensures var q := AbsorbAll(registry, handles, infos[..i], net);
            AbsorbAll(registry, handles, infos[..i + 1], net) == Absorb(q.registry, q.handles, infos[i], net)
  {
    assert infos[..i + 1][..i] == infos[..i];
  }

  /** The number of records holding an AVTransport subscription. */
  function CountSubscribed(s: seq<SpeakerData>): (n: nat)
    ensures n <= |s|
    decreases |s|
  {
    if |s| == 0 then 0
    else CountSubscribed(s[..|s| - 1]) + (if s[|s| - 1].transportSubscription.Some? then 1 else 0)
  }

  lemma {:induction false} CountSubscribedPointwise(a: seq<SpeakerData>, b: seq<SpeakerData>)
    requires |a| == |b|
    requires forall k :: 0 <= k < |a| ==> a[k].transportSubscription == b[k].transportSubscription
    ensures CountSubscribed(a) == CountSubscribed(b)
    decreases |a|
  {
    if |a| > 0 {
      CountSubscribedPointwise(a[..|a| - 1], b[..|b| - 1]);
    }
  }

  /** Every record names a member of `all`. */
  predicate AllInSnapshot(reg: seq<SpeakerData>, all: seq<SpeakerInfo>) {
    forall k :: 0 <= k < |reg| ==> InSnapshot(reg[k], all)
  }

  /** Every info of `infos` has a record with its uuid. */
  predicate CoversInfos(reg: seq<SpeakerData>, infos: seq<SpeakerInfo>) {
    forall j :: 0 <= j < |infos| ==> PositionByUuid(reg, infos[j].uuid).Some?
  }

  /** One turn keeps the records from `n` on with empty transport data. */
  lemma AbsorbKeepsNewRecordsEmpty(registry: seq<SpeakerData>, handles: seq<EventReceiver>, info: SpeakerInfo, net: Network, n: nat)
    requires n <= |registry|
    requires forall k :: n <= k < |registry| ==> registry[k].transportData == []
    ensures var p := Absorb(registry, handles, info, net);
            |registry| <= |p.registry| && forall k :: n <= k < |p.registry| ==> p.registry[k].transportData == []
  {
    AbsorbEffect(registry, handles, info, net);
    var p := Absorb(registry, handles, info, net);
    if p.failure.None? {
      forall k | n <= k < |registry|
        ensures p.registry[k].transportData == []
      {
        assert Kept(registry[k], p.registry[k]);
      }
    }
  }

  /** One turn queues a stream exactly when it appends a record holding a subscription. */
  lemma AbsorbQueuesHandle(registry: seq<SpeakerData>, handles: seq<EventReceiver>, info: SpeakerInfo, net: Network, n: nat)
    requires n <= |registry|
    ensures var p := Absorb(registry, handles, info, net);
            |registry| <= |p.registry| && handles <= p.handles
            && |p.handles| - |handles| == CountSubscribed(p.registry[n..]) - CountSubscribed(registry[n..])
  {
    AbsorbEffect(registry, handles, info, net);
    var p := Absorb(registry, handles, info, net);
    if p.failure.None? {
      var before, after := registry[n..], p.registry[n..];
      if |p.registry| == |registry| {
        forall k | 0 <= k < |before|
          ensures before[k].transportSubscription == after[k].transportSubscription
        {
          assert Kept(registry[n + k], p.registry[n + k]);
        }
        CountSubscribedPointwise(before, after);
      } else {
        assert after[..|after| - 1] == before by {
          forall k | 0 <= k < |before|
            ensures after[k] == before[k]
          {
            assert Kept(registry[n + k], p.registry[n + k]);
          }
        }
      }
    }
  }

  /** One turn for a member of `all` keeps every record naming a member of `all`. */
  lemma AbsorbStaysInSnapshot(registry: seq<SpeakerData>, handles: seq<EventReceiver>, info: SpeakerInfo, all: seq<SpeakerInfo>, net: Network)
    requires FaithfulLookup(net)
    requires info in all && AllInSnapshot(registry, all)
    ensures AllInSnapshot(Absorb(registry, handles, info, net).registry, all)
  {
    AbsorbEffect(registry, handles, info, net);
    var p := Absorb(registry, handles, info, net);
    var j :| 0 <= j < |all| && all[j] == info;
    forall k | 0 <= k < |p.registry|
      ensures InSnapshot(p.registry[k], all)
    {
      if p.failure.Some? {
        assert InSnapshot(registry[k], all);
      } else if k < |registry| {
        assert InSnapshot(registry[k], all);
        var i :| 0 <= i < |all| && EqIgnoreAsciiCase(all[i].uuid, registry[k].speaker.info.uuid);
        assert Kept(registry[k], p.registry[k]);
        assert EqIgnoreAsciiCase(all[i].uuid, p.registry[k].speaker.info.uuid);
      } else {
        assert EqIgnoreAsciiCase(all[j].uuid, p.registry[k].speaker.info.uuid);
      }
    }
  }

  /** A successful turn keeps every uuid covered and covers its own. */
  lemma AbsorbCovers(registry: seq<SpeakerData>, handles: seq<EventReceiver>, info: SpeakerInfo, infos: seq<SpeakerInfo>, net: Network)
    requires FaithfulLookup(net)
    requires CoversInfos(registry, infos)
    ensures var p := Absorb(registry, handles, info, net);
            p.failure.None? ==> CoversInfos(p.registry, infos + [info])
  {
    AbsorbEffect(registry, handles, info, net);
    var p := Absorb(registry, handles, info, net);
    if p.failure.None? {
      var all := infos + [info];
      forall j | 0 <= j < |all|
        ensures PositionByUuid(p.registry, all[j].uuid).Some?
      {
        if j < |infos| {
          var k := PositionByUuid(registry, infos[j].uuid).value;
          assert Kept(registry[k], p.registry[k]);
          assert HasUuid(p.registry[k], all[j].uuid);
        } else if |p.registry| == |registry| {
          var k := PositionByUuid(registry, info.uuid).value;
          assert HasUuid(p.registry[k], all[j].uuid);
        } else {
          assert HasUuid(p.registry[|registry|], all[j].uuid);
        }
      }
    }
  }

  /** The update keeps every record it started from in its place (only its info may be
      replaced) and appends the new records after them, with empty transport data. */
  lemma {:induction false} AbsorbAllKeepsRecords(registry: seq<SpeakerData>, handles: seq<EventReceiver>, infos: seq<SpeakerInfo>, net: Network)
    ensures var p := AbsorbAll(registry, handles, infos, net);
            |registry| <= |p.registry|
            && (forall k :: 0 <= k < |registry| ==> Kept(registry[k], p.registry[k]))
            && (forall k :: |registry| <= k < |p.registry| ==> p.registry[k].transportData == [])
    decreases |infos|
  {
    if |infos| > 0 {
      var q := AbsorbAll(registry, handles, infos[..|infos| - 1], net);
      AbsorbAllKeepsRecords(registry, handles, infos[..|infos| - 1], net);
      if q.failure.None? {
        AbsorbEffect(q.registry, q.handles, infos[|infos| - 1], net);
        AbsorbKeepsNewRecordsEmpty(q.registry, q.handles, infos[|infos| - 1], net, |registry|);
      }
    }
  }

  /** The update queues exactly one event stream per appended record that holds a
      subscription, after the streams already queued. */
  lemma {:induction false} AbsorbAllQueuesHandles(registry: seq<SpeakerData>, handles: seq<EventReceiver>, infos: seq<SpeakerInfo>, net: Network)
    ensures var p := AbsorbAll(registry, handles, infos, net);
            |registry| <= |p.registry| && handles <= p.handles
            && |p.handles| == |handles| + CountSubscribed(p.registry[|registry|..])
    decreases |infos|
  {
    if |infos| == 0 {
      assert AbsorbAll(registry, handles, infos, net).registry[|registry|..] == [];
    } else {
      var q := AbsorbAll(registry, handles, infos[..|infos| - 1], net);
      AbsorbAllQueuesHandles(registry, handles, infos[..|infos| - 1], net);
      if q.failure.None? {
        AbsorbQueuesHandle(q.registry, q.handles, infos[|infos| - 1], net, |registry|);
      }
    }
  }

  /** Every record after the update names a member of the snapshot, when every record
      it started from did and every speaker built is the one asked about. */
  lemma {:induction false} AbsorbAllStaysInSnapshot(registry: seq<SpeakerData>, handles: seq<EventReceiver>,
                                                    infos: seq<SpeakerInfo>, all: seq<SpeakerInfo>, net: Network)
    requires FaithfulLookup(net)
    requires infos <= all
    requires AllInSnapshot(registry, all)
    ensures AllInSnapshot(AbsorbAll(registry, handles, infos, net).registry, all)
    decreases |infos|
  {
    if |infos| > 0 {
      var last := |infos| - 1;
      assert infos[..last] <= all;
      var q := AbsorbAll(registry, handles, infos[..last], net);
      AbsorbAllStaysInSnapshot(registry, handles, infos[..last], all, net);
      if q.failure.None? {
        assert infos[last] == all[last];
        AbsorbStaysInSnapshot(q.registry, q.handles, infos[last], all, net);
      }
    }
  }

  /** A successful update leaves a record for every incoming uuid. */
  lemma {:induction false} AbsorbAllCoversInfos(registry: seq<SpeakerData>, handles: seq<EventReceiver>, infos: seq<SpeakerInfo>, net: Network)
    requires FaithfulLookup(net)
    ensures var p := AbsorbAll(registry, handles, infos, net);
            p.failure.None? ==> CoversInfos(p.registry, infos)
    decreases |infos|
  {
    if |infos| > 0 {
      var last := |infos| - 1;
      var q := AbsorbAll(registry, handles, infos[..last], net);
      AbsorbAllCoversInfos(registry, handles, infos[..last], net);
      if q.failure.None? {
        AbsorbCovers(q.registry, q.handles, infos[last], infos[..last], net);
        assert infos[..last] + [infos[last]] == infos;
      }
    }
  }

  /** One turn of the loop keeps the registry free of duplicates. */
  lemma AbsorbKeepsUnique(registry: seq<SpeakerData>, handles: seq<EventReceiver>, info: SpeakerInfo, net: Network)
    requires FaithfulLookup(net) && UniqueUuids(registry)
    ensures UniqueUuids(Absorb(registry, handles, info, net).registry)
  {
    AbsorbEffect(registry, handles, info, net);
    var p := Absorb(registry, handles, info, net);
    if p.failure.None? {
      assert forall k :: 0 <= k < |registry| ==> ToLowerAscii(p.registry[k].speaker.info.uuid) == ToLowerAscii(registry[k].speaker.info.uuid);
      if |p.registry| == |registry| + 1 {
        assert ToLowerAscii(p.registry[|registry|].speaker.info.uuid) == ToLowerAscii(info.uuid);
      }
    }
  }

  /** The whole loop keeps the registry free of duplicates, whether it succeeds or not. */
  lemma {:induction false} AbsorbAllKeepsUnique(registry: seq<SpeakerData>, handles: seq<EventReceiver>, infos: seq<SpeakerInfo>, net: Network)
    requires FaithfulLookup(net) && UniqueUuids(registry)
    ensures UniqueUuids(AbsorbAll(registry, handles, infos, net).registry)
    decreases |infos|
  {
    if |infos| > 0 {
      var q := AbsorbAll(registry, handles, infos[..|infos| - 1], net);
      AbsorbAllKeepsUnique(registry, handles, infos[..|infos| - 1], net);
      if q.failure.None? {
        AbsorbKeepsUnique(q.registry, q.handles, infos[|infos| - 1], net);
      }
    }
  }

  /** Dropping records keeps the rest free of duplicates. */
  lemma RetainedKeepsUnique(reg: seq<SpeakerData>, infos: seq<SpeakerInfo>)
    requires UniqueUuids(reg)
    ensures UniqueUuids(Retained(reg, infos))
  {
    var distinct := (x: SpeakerData, y: SpeakerData) => !EqIgnoreAsciiCase(x.speaker.info.uuid, y.speaker.info.uuid);
    assert Pairwise(reg, distinct);
    FilterKeepsPairwise(reg, (sd: SpeakerData) => InSnapshot(sd, infos), distinct);
    var r := Retained(reg, infos);
    assert Pairwise(r, distinct);
  }

  /** The records of `update_from_topology` kept from before stay first, in place, with
      only their info replaced; the new records after them have empty transport data,
      and one event stream is queued per new record holding a subscription. */
  lemma UpdateFromTopologyKeepsRecords(registry: seq<SpeakerData>, handles: seq<EventReceiver>, system: Topology, net: Network)
    ensures var kept := Retained(registry, Members(system));
            var p := UpdateOutcome(registry, handles, system, net);
            |kept| <= |p.registry|
            && (forall k :: 0 <= k < |kept| ==> Kept(kept[k], p.registry[k]))
            && (forall k :: |kept| <= k < |p.registry| ==> p.registry[k].transportData == [])
            && handles <= p.handles
            && |p.handles| == |handles| + CountSubscribed(p.registry[|kept|..])
  {
    var infos := Members(system);
    AbsorbAllKeepsRecords(Retained(registry, infos), handles, infos, net);
    AbsorbAllQueuesHandles(Retained(registry, infos), handles, infos, net);
  }

  /** After `update_from_topology`, successful or not, every record names a member of
      the snapshot (when every speaker built is the one asked about). */
  lemma UpdateFromTopologyDropsAbsent(registry: seq<SpeakerData>, handles: seq<EventReceiver>, system: Topology, net: Network)
    requires FaithfulLookup(net)
    ensures var p := UpdateOutcome(registry, handles, system, net);
            forall k :: 0 <= k < |p.registry| ==> InSnapshot(p.registry[k], Members(system))
  {
    assert AllInSnapshot(Retained(registry, Members(system)), Members(system));
    var infos := Members(system);
    AbsorbAllStaysInSnapshot(Retained(registry, infos), handles, infos, infos, net);
  }

  /** Starting from a registry without duplicates, `update_from_topology` leaves none,
      and on success each incoming uuid has exactly one record. */
  lemma UpdateFromTopologyOneRecordPerUuid(registry: seq<SpeakerData>, handles: seq<EventReceiver>, system: Topology, net: Network)
    requires FaithfulLookup(net) && UniqueUuids(registry)
    ensures UniqueUuids(UpdateOutcome(registry, handles, system, net).registry)
    ensures var p := UpdateOutcome(registry, handles, system, net);
            var infos := Members(system);
            p.failure.None? ==>
              forall j :: 0 <= j < |infos| ==>
                exists k :: 0 <= k < |p.registry| && HasUuid(p.registry[k], infos[j].uuid)
                  && forall k' :: 0 <= k' < |p.registry| && HasUuid(p.registry[k'], infos[j].uuid) ==> k' == k
  {
    var infos := Members(system);
    var kept := Retained(registry, infos);
    RetainedKeepsUnique(registry, infos);
    AbsorbAllKeepsUnique(kept, handles, infos, net);
    var p := AbsorbAll(kept, handles, infos, net);
    AbsorbAllCoversInfos(kept, handles, infos, net);
    if p.failure.None? {
      forall j | 0 <= j < |infos|
        ensures exists k :: 0 <= k < |p.registry| && HasUuid(p.registry[k], infos[j].uuid)
                  && forall k' :: 0 <= k' < |p.registry| && HasUuid(p.registry[k'], infos[j].uuid) ==> k' == k
      {
        var k := PositionByUuid(p.registry, infos[j].uuid).value;
        PositionIsOnlyMatch(p.registry, infos[j].uuid, k);
      }
    }
  }

  // ================================================================ the controller

  /** An event from a subscription stream. */
  datatype Event =
    | TopoUpdate(source: Option<string>, system: Topology)
    | AVTransUpdate(speakerUuid: Option<string>, data: seq<(string, string)>)
    | SubscribeError(lostUuid: Option<string>, urn: Urn)
    | NoOp

  class Controller {
    var speakerdata: seq<SpeakerData>
    var topology: ReducedTopology
    /** The topology subscription; `None` stands for a subscriber holding nothing. */
    var topologySubscription: Option<Subscription>
    var queuedEventHandles: seq<EventReceiver>

    /** `Controller::new`: everything empty. */
    constructor()
      ensures speakerdata == [] && topology == [] && topologySubscription.None? && queuedEventHandles == []
    {
      speakerdata := [];
      topology := [];
      topologySubscription := Option.None;
      queuedEventHandles := [];
    }

    /** `update_from_topology`. On success the registry and the queued streams are the
        outcome of the update and the topology is the snapshot reduced; on failure they
        are as far as the loop got, and the topology is left as it was. */
    method UpdateFromTopology(system: Topology, net: Network) returns (r: Result<(), Error>)
      modifies this
      ensures var p := UpdateOutcome(old(speakerdata), old(queuedEventHandles), system, net);
              speakerdata == p.registry && queuedEventHandles == p.handles
              && (r.Ok? <==> p.failure.None?) && (r.Err? ==> p.failure == Some(r.error))
      ensures r.Ok? ==> topology == Reduce(system)
      ensures r.Err? ==> topology == old(topology)
      ensures topologySubscription == old(topologySubscription)
    {
      var reduced := Reduce(system);
      var infos := Members(system);
      var start, handles0 := Retained(speakerdata, infos), queuedEventHandles;
      speakerdata := start;
      var i := 0;
      while i < |infos|
        invariant 0 <= i <= |infos|
        invariant AbsorbAll(start, handles0, infos[..i], net) == Progress(speakerdata, queuedEventHandles, Option.None)
        invariant topology == old(topology) && topologySubscription == old(topologySubscription)
      {
        var info := infos[i];
        ghost var next := Absorb(speakerdata, queuedEventHandles, info, net);
        AbsorbAllStep(start, handles0, infos, i, net);
        var found := PositionByUuid(speakerdata, info.uuid);
        if found.Some? {
          var sd := speakerdata[found.value];
          speakerdata := speakerdata[found.value := sd.(speaker := sd.speaker.(info := info))];
        } else {
          var built := net.fromSpeakerInfo(info);
          if built.Err? || built.value.None? {
            r := if built.Err? then Err(built.error) else Err(SpeakerNotIncludedInOwnZoneGroupState);
            assert next == Progress(speakerdata, queuedEventHandles, Some(r.error));
            FailureSticks(start, handles0, infos, i + 1, net);
            return;
          }
          var added := SpeakerData(built.value.value, Option.None, []);
          var sub := AvTransportSubscription(added.speaker, net);
          if sub.Some? {
            added := added.(transportSubscription := Some(sub.value.0));
            queuedEventHandles := queuedEventHandles + [sub.value.1];
          }
          speakerdata := speakerdata + [added];
        }
        assert next == Progress(speakerdata, queuedEventHandles, Option.None);
        i := i + 1;
      }
      assert infos[..i] == infos;
      topology := reduced;
      r := Ok(());
    }

    // -------------------------------------------------------------- lookups

    /** `get_speaker_with_name`: the first record whose room name matches in any ASCII case. */
    function SpeakerWithName(name: string): (r: Option<Speaker>)
      reads this
      ensures r.None? <==> forall k :: 0 <= k < |speakerdata| ==> !EqIgnoreAsciiCase(speakerdata[k].speaker.info.name, name)
      ensures r.Some? ==> exists k :: 0 <= k < |speakerdata| && r.value == speakerdata[k].speaker
                            && EqIgnoreAsciiCase(speakerdata[k].speaker.info.name, name)
                            && forall j :: 0 <= j < k ==> !EqIgnoreAsciiCase(speakerdata[j].speaker.info.name, name)
    {
      match FindIndex(speakerdata, (sd: SpeakerData) => EqIgnoreAsciiCase(sd.speaker.info.name, name))
      case None => Option.None
      case Some(k) => Some(speakerdata[k].speaker)
    }

    /** `get_speakerdata_by_uuid`: the first record whose uuid matches in any ASCII case. */
    function SpeakerdataByUuid(uuid: string): (r: Option<SpeakerData>)
      reads this
      ensures r.None? <==> forall k :: 0 <= k < |speakerdata| ==> !HasUuid(speakerdata[k], uuid)
      ensures r.Some? ==> exists k :: 0 <= k < |speakerdata| && r.value == speakerdata[k] && HasUuid(speakerdata[k], uuid)
                            && forall j :: 0 <= j < k ==> !HasUuid(speakerdata[j], uuid)
    {
      match PositionByUuid(speakerdata, uuid)
      case None => Option.None
      case Some(k) => Some(speakerdata[k])
    }

    /** `get_speaker_by_uuid`: the speaker of that same record. */
    function SpeakerByUuid(uuid: string): (r: Option<Speaker>)
      reads this
      ensures r.None? <==> SpeakerdataByUuid(uuid).None?
      ensures r.Some? ==> r.value == SpeakerdataByUuid(uuid).value.speaker
    {
      match PositionByUuid(speakerdata, uuid)
      case None => Option.None
      case Some(k) => Some(speakerdata[k].speaker)
    }

    /** The coordinator uuid of the first group of the topology that lists the speaker's
        uuid, in any ASCII case. */
    function CoordinatorUuid(speakerUuid: string): (r: Option<string>)
      reads this
      ensures r.None? <==> forall g, m :: 0 <= g < |topology| && 0 <= m < |topology[g].1| ==>
                             !EqIgnoreAsciiCase(topology[g].1[m], speakerUuid)
      ensures r.Some? ==> exists g :: 0 <= g < |topology| && r.value == topology[g].0
                            && Lists(topology[g], speakerUuid)
                            && forall h :: 0 <= h < g ==> !Lists(topology[h], speakerUuid)
    {
      match FindIndex(topology, (group: (string, seq<string>)) => Lists(group, speakerUuid))
      case None => Option.None
      case Some(g) => Some(topology[g].0)
    }

    /** `get_coordinator_for_uuid`: the record of the coordinator of the speaker's group. */
    function CoordinatorForUuid(speakerUuid: string): (r: Option<Speaker>)
      reads this
      ensures r.Some? <==> CoordinatorUuid(speakerUuid).Some? && SpeakerByUuid(CoordinatorUuid(speakerUuid).value).Some?
      ensures r.Some? ==> r == SpeakerByUuid(CoordinatorUuid(speakerUuid).value)
    {
      match CoordinatorUuid(speakerUuid)
      case None => Option.None
      case Some(c) => SpeakerByUuid(c)
    }

    /** `get_coordinatordata_for_uuid`: the same, giving the whole record. */
    function CoordinatordataForUuid(speakerUuid: string): (r: Option<SpeakerData>)
      reads this
      ensures r.Some? <==> CoordinatorUuid(speakerUuid).Some? && SpeakerdataByUuid(CoordinatorUuid(speakerUuid).value).Some?
      ensures r.Some? ==> r == SpeakerdataByUuid(CoordinatorUuid(speakerUuid).value)
    {
      match CoordinatorUuid(speakerUuid)
      case None => Option.None
      case Some(c) => SpeakerdataByUuid(c)
    }

    /** `get_coordinator_for_name`: the first record with the room name, then the first
        group listing its uuid, then that group coordinator's record; any miss gives
        nothing. */
    function CoordinatorForName(name: string): (r: Option<Speaker>)
      reads this
      ensures r.Some? <==> SpeakerWithName(name).Some? && CoordinatorForUuid(SpeakerWithName(name).value.info.uuid).Some?
      ensures r.Some? ==> r == CoordinatorForUuid(SpeakerWithName(name).value.info.uuid)
    {
      match SpeakerWithName(name)
      case None => Option.None
      case Some(s) => CoordinatorForUuid(s.info.uuid)
    }

    /** `get_coordinatordata_for_name`: the same, giving the whole record. */
    function CoordinatordataForName(name: string): (r: Option<SpeakerData>)
      reads this
      ensures r.Some? <==> SpeakerWithName(name).Some? && CoordinatordataForUuid(SpeakerWithName(name).value.info.uuid).Some?
      ensures r.Some? ==> r == CoordinatordataForUuid(SpeakerWithName(name).value.info.uuid)
    {
      match SpeakerWithName(name)
      case None => Option.None
      case Some(s) => CoordinatordataForUuid(s.info.uuid)
    }

    /** The two coordinator lookups find the same record: the speaker one answers with
        the speaker of the record the other answers with. */
    lemma CoordinatorLookupsAgree(name: string)
      ensures CoordinatorForName(name).None? <==> CoordinatordataForName(name).None?
      ensures CoordinatorForName(name).Some? ==> CoordinatorForName(name).value == CoordinatordataForName(name).value.speaker
    {
    }

    /** The coordinator found for a name is a registered speaker, the coordinator of a
        group that lists the speaker carrying that name. */
    lemma CoordinatorForNameIsGroupCoordinator(name: string)
      requires CoordinatorForName(name).Some?
      ensures exists k, g, c :: 0 <= k < |speakerdata| && 0 <= g < |topology| && 0 <= c < |speakerdata|
                && EqIgnoreAsciiCase(speakerdata[k].speaker.info.name, name)
                && Lists(topology[g], speakerdata[k].speaker.info.uuid)
                && HasUuid(speakerdata[c], topology[g].0)
                && CoordinatorForName(name).value == speakerdata[c].speaker
    {
      var s := SpeakerWithName(name).value;
      var k :| 0 <= k < |speakerdata| && s == speakerdata[k].speaker && EqIgnoreAsciiCase(speakerdata[k].speaker.info.name, name);
      var cu := CoordinatorUuid(s.info.uuid).value;
      var g :| 0 <= g < |topology| && cu == topology[g].0 && Lists(topology[g], s.info.uuid);
      var c :| 0 <= c < |speakerdata| && SpeakerdataByUuid(cu).value == speakerdata[c] && HasUuid(speakerdata[c], cu);
    }

    // -------------------------------------------------------------- registry updates

    /** `pop_speakerdata_by_uuid`: `swap_remove` of the first record with the uuid. */
    method PopSpeakerdataByUuid(uuid: string) returns (r: Option<SpeakerData>)
      modifies this
      ensures old(PositionByUuid(speakerdata, uuid)).None? ==> r.None? && speakerdata == old(speakerdata)
      ensures old(PositionByUuid(speakerdata, uuid)).Some? ==>
                var k := old(PositionByUuid(speakerdata, uuid)).value;
                r == Some(old(speakerdata)[k]) && speakerdata == SwapRemove(old(speakerdata), k)
      ensures topology == old(topology) && topologySubscription == old(topologySubscription)
      ensures queuedEventHandles == old(queuedEventHandles)
    {
      match PositionByUuid(speakerdata, uuid)
      case None =>
        r := Option.None;
      case Some(k) =>
        r := Some(speakerdata[k]);
        speakerdata := SwapRemove(speakerdata, k);
    }

    /** `update_avtransport_data`: the transport data of the first record with the uuid
        is replaced; without such a record nothing changes. */
    method UpdateAvtransportData(uuid: string, data: seq<(string, string)>)
      modifies this
      ensures old(PositionByUuid(speakerdata, uuid)).None? ==> speakerdata == old(speakerdata)
      ensures old(PositionByUuid(speakerdata, uuid)).Some? ==>
                var k := old(PositionByUuid(speakerdata, uuid)).value;
                speakerdata == old(speakerdata)[k := old(speakerdata)[k].(transportData := data)]
      ensures topology == old(topology) && topologySubscription == old(topologySubscription)
      ensures queuedEventHandles == old(queuedEventHandles)
    {
      match PositionByUuid(speakerdata, uuid)
      case None =>
      case Some(k) =>
        speakerdata := speakerdata[k := speakerdata[k].(transportData := data)];
    }

    /** `get_a_service_and_url`: a speaker chosen at random among the registered ones
        (any index in range), then its service of that type and its URL. */
    method GetAServiceAndUrl(urn: Urn) returns (r: Result<(Service, string), Error>)
      ensures |speakerdata| == 0 <==> r == Err(NoSpeakersDetected)
      ensures |speakerdata| > 0 ==> exists i :: 0 <= i < |speakerdata| && r == ServiceAndUrl(speakerdata[i].speaker, urn)
    {
      if |speakerdata| == 0 {
        r := Err(NoSpeakersDetected);
      } else {
        var i :| 0 <= i < |speakerdata|;
        r := ServiceAndUrl(speakerdata[i].speaker, urn);
      }
    }

    // -------------------------------------------------------------- events

    /** `discover_system`: the zone group state of a discovered speaker feeds an update
        whose own error is only logged. */
    method DiscoverSystem(net: Network) returns (r: Result<(), Error>)
      modifies this
      ensures net.discovery.Err? ==> r == Err(net.discovery.error) && speakerdata == old(speakerdata)
                                     && topology == old(topology) && queuedEventHandles == old(queuedEventHandles)
      ensures net.discovery.Ok? ==>
                var p := UpdateOutcome(old(speakerdata), old(queuedEventHandles), net.discovery.value, net);
                r.Ok? && speakerdata == p.registry && queuedEventHandles == p.handles
                && topology == (if p.failure.None? then Reduce(net.discovery.value) else old(topology))
      ensures topologySubscription == old(topologySubscription)
    {
      match net.discovery
      case Err(e) =>
        r := Err(e);
      case Ok(system) =>
        var _ := UpdateFromTopology(system, net);
        r := Ok(());
    }

    /** What `discover_system` leaves behind, from the registry `data0`, the queued
        streams `handles0` and the topology `topology0`: the discovery error with nothing
        changed, or the outcome of an update from the discovered zone group state. */
    predicate Rediscovered(r: Result<(), Error>, data0: seq<SpeakerData>, handles0: seq<EventReceiver>,
                           topology0: ReducedTopology, net: Network)
      reads this
    {
      match net.discovery
      case Err(e) =>
        r == Err(e) && speakerdata == data0 && queuedEventHandles == handles0 && topology == topology0
      case Ok(system) =>
        var p := UpdateOutcome(data0, handles0, system, net);
        r.Ok? && speakerdata == p.registry && queuedEventHandles == p.handles
        && topology == (if p.failure.None? then Reduce(system) else topology0)
    }

    /** What recovering the topology subscription leaves behind when the speaker picked
        gave `picked` (its `ZoneGroupTopology` service and URL, or the error of finding
        it), from the state `data0`, `handles0`, `topology0`, `sub0`. A missing service
        is returned with nothing changed. Otherwise the subscriber is replaced by a fresh
        one that subscribes without a speaker uuid: on success it is the new topology
        subscription and its stream is queued; on failure the subscriber holds nothing
        and the system is rediscovered. */
    predicate ResubscribedTopology(picked: Result<(Service, string), Error>, r: Result<(), Error>,
                                   data0: seq<SpeakerData>, handles0: seq<EventReceiver>,
                                   topology0: ReducedTopology, sub0: Option<Subscription>, net: Network)
      reads this
    {
      match picked
      case Err(e) =>
        r == Err(e) && speakerdata == data0 && queuedEventHandles == handles0
        && topology == topology0 && topologySubscription == sub0
      case Ok((service, url)) =>
        var sub := Subscription(service, url, Option.None);
        match net.subscribe(sub)
        case Ok(rx) =>
          r.Ok? && topologySubscription == Some(sub) && queuedEventHandles == handles0 + [rx]
          && speakerdata == data0 && topology == topology0
        case Err(_) =>
          topologySubscription.None? && Rediscovered(r, data0, handles0, topology0, net)
    }

    /** The `ZONE_GROUP_TOPOLOGY` branch of `SubscribeError`: subscribe again through a
        speaker picked at random, queueing its event stream; if that fails, rediscover
        the system. Without any speaker, or when the speaker picked lacks the service,
        the error is returned. */
    method TopologySubscriptionLost(net: Network) returns (r: Result<(), Error>)
      modifies this
      ensures old(|speakerdata|) == 0 ==> r == Err(NoSpeakersDetected) && speakerdata == old(speakerdata)
                                          && topologySubscription == old(topologySubscription)
                                          && topology == old(topology) && queuedEventHandles == old(queuedEventHandles)
      ensures old(|speakerdata|) > 0 ==>
                exists i :: 0 <= i < old(|speakerdata|)
                            && ResubscribedTopology(ServiceAndUrl(old(speakerdata)[i].speaker, ZONE_GROUP_TOPOLOGY), r,
                                                    old(speakerdata), old(queuedEventHandles), old(topology),
                                                    old(topologySubscription), net)
      ensures r.Ok? && topologySubscription.Some? ==>
                topologySubscription.value.uuid.None? && topologySubscription.value.service.serviceType == ZONE_GROUP_TOPOLOGY
                && speakerdata == old(speakerdata) && topology == old(topology)
                && |queuedEventHandles| == old(|queuedEventHandles|) + 1
                && net.subscribe(topologySubscription.value) == Ok(queuedEventHandles[|queuedEventHandles| - 1])
    {
      var picked := GetAServiceAndUrl(ZONE_GROUP_TOPOLOGY);
      if picked.Err? {
        if |speakerdata| > 0 {
          ghost var i :| 0 <= i < |speakerdata| && picked == ServiceAndUrl(speakerdata[i].speaker, ZONE_GROUP_TOPOLOGY);
          assert ResubscribedTopology(ServiceAndUrl(speakerdata[i].speaker, ZONE_GROUP_TOPOLOGY), Err(picked.error),
                                      speakerdata, queuedEventHandles, topology, topologySubscription, net);
        }
        return Err(picked.error);
      }
      ghost var i :| 0 <= i < |speakerdata| && picked == ServiceAndUrl(speakerdata[i].speaker, ZONE_GROUP_TOPOLOGY);
      r := SubscribeTopology(picked.value.0, picked.value.1, net);
    }

    /** The subscription step of `TopologySubscriptionLost`, once a service and URL were
        found. */
    method SubscribeTopology(service: Service, url: string, net: Network) returns (r: Result<(), Error>)
      modifies this
      ensures ResubscribedTopology(Ok((service, url)), r, old(speakerdata), old(queuedEventHandles), old(topology),
                                   old(topologySubscription), net)
    {
      ghost var data0, handles0, topology0 := speakerdata, queuedEventHandles, topology;
      var sub := Subscription(service, url, Option.None);
      topologySubscription := Option.None;
      match net.subscribe(sub)
      case Ok(rx) =>
        topologySubscription := Some(sub);
        queuedEventHandles := queuedEventHandles + [rx];
        r := Ok(());
      case Err(_) =>
        r := DiscoverSystem(net);
        assert Rediscovered(r, data0, handles0, topology0, net);
    }

    /** The `AV_TRANSPORT` branch of `SubscribeError` for a speaker's uuid: its record is
        taken out and pushed back at the end. When the speaker can be rebuilt from its
        info, the record's subscription is redone for the rebuilt speaker (its stream
        queued), but the record keeps its old speaker. */
    method TransportSubscriptionLost(uuid: string, net: Network)
      modifies this
      ensures old(PositionByUuid(speakerdata, uuid)).None? ==>
                speakerdata == old(speakerdata) && queuedEventHandles == old(queuedEventHandles)
      ensures old(PositionByUuid(speakerdata, uuid)).Some? ==>
                var k := old(PositionByUuid(speakerdata, uuid)).value;
                var before := old(speakerdata)[k];
                var rebuilt := net.fromSpeakerInfo(before.speaker.info);
                var n := old(|speakerdata|);
                |speakerdata| == n && speakerdata[..n - 1] == SwapRemove(old(speakerdata), k)
                && speakerdata[n - 1].speaker == before.speaker
                && speakerdata[n - 1].transportData == before.transportData
                && (rebuilt.Ok? && rebuilt.value.Some? ==>
                      match AvTransportSubscription(rebuilt.value.value, net)
                      case None => speakerdata[n - 1].transportSubscription.None? && queuedEventHandles == old(queuedEventHandles)
                      case Some((sub, rx)) => speakerdata[n - 1].transportSubscription == Some(sub)
                                              && queuedEventHandles == old(queuedEventHandles) + [rx])
                && (!(rebuilt.Ok? && rebuilt.value.Some?) ==>
                      speakerdata[n - 1] == before && queuedEventHandles == old(queuedEventHandles))
      ensures old(PositionByUuid(speakerdata, uuid)).Some? ==> PositionByUuid(speakerdata, uuid).Some?
      ensures topology == old(topology) && topologySubscription == old(topologySubscription)
    {
      var popped := PopSpeakerdataByUuid(uuid);
      if popped.Some? {
        var sd := popped.value;
        var rebuilt := net.fromSpeakerInfo(sd.speaker.info);
        if rebuilt.Ok? && rebuilt.value.Some? {
          match AvTransportSubscription(rebuilt.value.value, net)
          case Some((sub, rx)) =>
            sd := sd.(transportSubscription := Some(sub));
            queuedEventHandles := queuedEventHandles + [rx];
          case None =>
            sd := sd.(transportSubscription := Option.None);
        }
        speakerdata := speakerdata + [sd];
        assert HasUuid(speakerdata[|speakerdata| - 1], uuid);
      }
    }

    /** `handle_event`: topology updates and their errors are absorbed, AVTransport data
        is stored for its speaker, lost subscriptions are redone. Only a failed recovery
        of the topology subscription is returned as an error. A lost AVTransport
        subscription without a uuid panics (`unwrap`), so it is excluded. */
    method HandleEvent(event: Event, net: Network) returns (r: Result<(), Error>)
      requires event.SubscribeError? && event.urn == AV_TRANSPORT ==> event.lostUuid.Some?
      modifies this
      ensures event.TopoUpdate? ==>
                var p := UpdateOutcome(old(speakerdata), old(queuedEventHandles), event.system, net);
                r.Ok? && speakerdata == p.registry && queuedEventHandles == p.handles
                && topology == (if p.failure.None? then Reduce(event.system) else old(topology))
      ensures event.TopoUpdate? ==> topologySubscription == old(topologySubscription)
      ensures event.AVTransUpdate? ==>
                r.Ok? && topology == old(topology) && queuedEventHandles == old(queuedEventHandles)
                && topologySubscription == old(topologySubscription)
                && (event.speakerUuid.None? ==> speakerdata == old(speakerdata))
                && (event.speakerUuid.Some? && old(PositionByUuid(speakerdata, event.speakerUuid.value)).None? ==>
                      speakerdata == old(speakerdata))
                && (event.speakerUuid.Some? && old(PositionByUuid(speakerdata, event.speakerUuid.value)).Some? ==>
                      var k := old(PositionByUuid(speakerdata, event.speakerUuid.value)).value;
                      speakerdata == old(speakerdata)[k := old(speakerdata)[k].(transportData := event.data)])
      ensures event.SubscribeError? && event.urn == AV_TRANSPORT ==>
                r.Ok? && |speakerdata| == old(|speakerdata|)
                && (old(PositionByUuid(speakerdata, event.lostUuid.value)).Some? ==> PositionByUuid(speakerdata, event.lostUuid.value).Some?)
      ensures event.SubscribeError? && event.urn == AV_TRANSPORT ==>
                topology == old(topology) && topologySubscription == old(topologySubscription)
                && (old(PositionByUuid(speakerdata, event.lostUuid.value)).None? ==>
                      speakerdata == old(speakerdata) && queuedEventHandles == old(queuedEventHandles))
      ensures event.SubscribeError? && event.urn == AV_TRANSPORT && old(PositionByUuid(speakerdata, event.lostUuid.value)).Some? ==>
                var k := old(PositionByUuid(speakerdata, event.lostUuid.value)).value;
                var before := old(speakerdata)[k];
                var rebuilt := net.fromSpeakerInfo(before.speaker.info);
                var n := old(|speakerdata|);
                speakerdata[..n - 1] == SwapRemove(old(speakerdata), k)
                && speakerdata[n - 1].speaker == before.speaker
                && speakerdata[n - 1].transportData == before.transportData
                && (rebuilt.Ok? && rebuilt.value.Some? ==>
                      match AvTransportSubscription(rebuilt.value.value, net)
                      case None => speakerdata[n - 1].transportSubscription.None? && queuedEventHandles == old(queuedEventHandles)
                      case Some((sub, rx)) => speakerdata[n - 1].transportSubscription == Some(sub)
                                              && queuedEventHandles == old(queuedEventHandles) + [rx])
                && (!(rebuilt.Ok? && rebuilt.value.Some?) ==>
                      speakerdata[n - 1] == before && queuedEventHandles == old(queuedEventHandles))
      ensures event.SubscribeError? && event.urn == ZONE_GROUP_TOPOLOGY && old(|speakerdata|) == 0 ==>
                r == Err(NoSpeakersDetected) && speakerdata == old(speakerdata) && topology == old(topology)
                && topologySubscription == old(topologySubscription) && queuedEventHandles == old(queuedEventHandles)
      ensures event.SubscribeError? && event.urn == ZONE_GROUP_TOPOLOGY && old(|speakerdata|) > 0 ==>
                exists i :: 0 <= i < old(|speakerdata|)
                            && ResubscribedTopology(ServiceAndUrl(old(speakerdata)[i].speaker, ZONE_GROUP_TOPOLOGY), r,
                                                    old(speakerdata), old(queuedEventHandles), old(topology),
                                                    old(topologySubscription), net)
      ensures event.SubscribeError? && event.urn != AV_TRANSPORT && event.urn != ZONE_GROUP_TOPOLOGY ==>
                r.Ok? && speakerdata == old(speakerdata) && queuedEventHandles == old(queuedEventHandles)
                && topology == old(topology) && topologySubscription == old(topologySubscription)
      ensures event.NoOp? ==> r.Ok? && speakerdata == old(speakerdata) && topology == old(topology)
                              && queuedEventHandles == old(queuedEventHandles)
                              && topologySubscription == old(topologySubscription)
      ensures r.Err? ==> event.SubscribeError? && event.urn == ZONE_GROUP_TOPOLOGY
    {
      match event
      case TopoUpdate(_, system) =>
        var _ := UpdateFromTopology(system, net);
        r := Ok(());
      case AVTransUpdate(uuid, data) =>
        if uuid.Some? {
          UpdateAvtransportData(uuid.value, data);
        }
        r := Ok(());
      case SubscribeError(uuid, urn) =>
        if urn == ZONE_GROUP_TOPOLOGY {
          r := TopologySubscriptionLost(net);
        } else if urn == AV_TRANSPORT {
          TransportSubscriptionLost(uuid.value, net);
          r := Ok(());
        } else {
          r := Ok(());
        }
      case NoOp =>
        r := Ok(());
    }
  }

  /** A group lists a uuid, in any ASCII case. */
  predicate Lists(group: (string, seq<string>), uuid: string) {
    exists m :: 0 <= m < |group.1| && EqIgnoreAsciiCase(group.1[m], uuid)
  }
}
