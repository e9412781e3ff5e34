/** `ZoneAction::handle_action` (src/manager/controller/zoneaction.rs): a command for a
    named zone is routed to the zone's group coordinator, run against it, and answered
    with exactly one `Response`. */
module ZoneActions {
  import opened Wrappers
  import opened Text
  import opened Errors
  import opened Datatypes
  import opened Speakers
  import opened ManagerController
  import MediaSources
  import Snapshots

  datatype ZoneAction =
    | Exists
    | PlayNow(media: MediaSources.MediaSource)
    | QueueAsNext(media: MediaSources.MediaSource)
    | Pause
    | NextTrack
    | PreviousTrack
    | SeekTime(seconds: nat)
    | SeekTrack(number: nat)
    | SeekRelTrack(delta: nat)
    | SetRepeat(mode: RepeatMode)
    | SetShuffle(state: bool)
    | ClearQueue
    | GetQueue
    | TakeSnapshot
    | ApplySnapshot(snapshot: Snapshots.Snapshot)

  /** The reply sent back on the command's channel. */
  datatype Response = Ok | NotOk | Snapshot(snapshot: Snapshots.Snapshot) | Queue(tracks: seq<Track>)

  /** What the coordinator answers, for the calls and queries an action can make. The
      actions' own speaker calls go through `remote`; the others are the queries they
      read first. */
  datatype Outcomes = Outcomes(
    remote: Call -> Result<(), Error>,
    catalog: MediaSources.Catalog,
    track: Result<Option<TrackInfo>, Error>,       // `Speaker::track`
    currentTrackNo: Result<nat, Error>,            // `SpeakerData::get_current_track_no`
    setRepeat: RepeatMode -> Result<(), Error>,    // `RepeatMode::set`
    queue: Result<seq<Track>, Error>,              // `Speaker::queue`
    volume: Result<nat, Error>,                    // `Speaker::volume`
    playing: Result<bool, Error>,                  // `Speaker::is_playing`
    transportUri: Result<Option<string>, Error>)   // `Speaker::transport_uri`

  /** Track numbers are u32 values. */
  predicate WellFormed(world: Outcomes) {
    (world.track.Ok? && world.track.value.Some? ==> world.track.value.value.trackNo < U32_LIMIT)
    && (world.currentTrackNo.Ok? ==> world.currentTrackNo.value < U32_LIMIT)
  }

  /** The numbers an action carries are u32 values. */
  predicate ValidAction(action: ZoneAction) {
    (action.SeekTime? ==> action.seconds < U32_LIMIT)
    && (action.SeekTrack? ==> action.number < U32_LIMIT)
    && (action.SeekRelTrack? ==> action.delta < U32_LIMIT)
  }

  /** The actions that need the coordinator's whole record rather than its speaker. */
  predicate UsesRecord(action: ZoneAction) {
    action.PlayNow? || action.QueueAsNext? || action.SeekRelTrack?
  }

  // ================================================================ seek_rel_track

  /** `seek_rel_track` as written: the u32 sum of the current track and the delta (which
      wraps in a release build) only decides whether to seek track 1; otherwise the
      delta itself is sought. */
  function SeekRelTrackCall(current: nat, delta: nat): (c: Call)
    requires current < U32_LIMIT && delta < U32_LIMIT
    ensures c.SeekTrack?
    ensures c.trackNo == 1 || c.trackNo == delta
  {
    var target := (current + delta) % U32_LIMIT;
    if target < 1 then Call.SeekTrack(1) else Call.SeekTrack(delta)
  }

  /** The track `seek_rel_track` evidently means to reach: the current track moved on by
      the delta, and at least track 1. */
  function SeekRelTarget(current: nat, delta: nat): (r: nat)
    ensures r >= 1
    ensures current + delta >= 1 ==> r == current + delta
    ensures r - current == delta || current + delta == 0
  {
    if current + delta < 1 then 1 else current + delta
  }

  /** From track 3, moving on by 2 seeks track 2 as written, where track 5 is meant. */
  lemma SeekRelTrackSeeksDelta()
    ensures SeekRelTrackCall(3, 2) == Call.SeekTrack(2)
    ensures SeekRelTarget(3, 2) == 5
  {
  }

  /** Without overflow, the track sought as written is the one meant exactly when
      counting from track 0. */
  lemma SeekRelTrackAgreesFromStart(current: nat, delta: nat)
    requires current + delta < U32_LIMIT
    ensures SeekRelTrackCall(current, delta).trackNo == SeekRelTarget(current, delta) <==> current == 0
  {
  }

  // ================================================================ the action's plan

  /** All four queries of `Snapshot::from_speaker` answered. */
  predicate SnapshotReadsOk(world: Outcomes) {
    world.volume.Ok? && world.track.Ok? && world.playing.Ok? && world.transportUri.Ok?
  }

  /** The state of a snapshot `TakeSnapshot` records, when all four queries answer. */
  function TakenState(world: Outcomes): Snapshots.SnapshotState
    requires SnapshotReadsOk(world)
  {
    Snapshots.SnapshotState(Some(world.volume.value), Some(world.playing.value), world.track.value, world.transportUri.value)
  }

  /** The speaker calls an action runs on the coordinator `data`, in order, up to the
      first failure; nothing when it fails before its first call (media not resolved,
      a failed query). Queries are not calls: `GetQueue`, `TakeSnapshot` and
      `SetRepeat` (whose calls are not part of this model) run no plan. */
  function ActionPlan(action: ZoneAction, data: SpeakerData, world: Outcomes): Option<seq<Step>>
    reads if action.ApplySnapshot? then {action.snapshot} else {}
    requires !action.Exists? && ValidAction(action) && WellFormed(world)
  {
    match action
    case PlayNow(media) =>
      (match MediaSources.UriAndMetadata(media, world.catalog)
       case None => Option.None
       case Some((uri, md)) => Some(MediaSources.PlayNowPlan(uri, md, data.speaker.info.uuid)))
    case QueueAsNext(media) =>
      (match MediaSources.CurrentTrackNo(data.transportData, world.track)
       case Err(_) => Option.None
       case Ok(current) =>
         match MediaSources.UriAndMetadata(media, world.catalog)
         case None => Option.None
         case Some((uri, md)) => Some([Single(QueueNext(uri, md, Some(MediaSources.NextPosition(current))))]))
    case Pause => Some([Single(Call.Pause)])
    case NextTrack => Some([Single(Next)])
    case PreviousTrack => Some([Single(Previous)])
    case SeekTime(seconds) => Some([Single(SkipTo(seconds))])
    case SeekTrack(number) => Some([Single(Call.SeekTrack(number))])
    case SeekRelTrack(delta) =>
      if world.currentTrackNo.Err? then Option.None
      else Some([Single(SeekRelTrackCall(world.currentTrackNo.value, delta))])
    case SetRepeat(mode) => if world.setRepeat(mode).Err? then Option.None else Some([])
    case SetShuffle(state) => Some([Single(SetCrossfade(state))])
    case ClearQueue => Some([Single(Call.ClearQueue)])
    case GetQueue => if world.queue.Err? then Option.None else Some([])
    case TakeSnapshot =>
      if SnapshotReadsOk(world) then Some([])
      else Option.None
    case ApplySnapshot(snapshot) => Some(Snapshots.ApplyPlan(snapshot.State()))
  }

  /** The shape of each action's plan: one call for the plain speaker actions (and
      the crossfade call for `SetShuffle`), the snapshot's plan for `ApplySnapshot`,
      the four calls of `play_now` once the media resolves, the as-written seek for
      `SeekRelTrack` once the current track is known, and no call for the queries. */
  lemma ActionPlanShapes(action: ZoneAction, data: SpeakerData, world: Outcomes)
    requires !action.Exists? && ValidAction(action) && WellFormed(world)
    ensures var plan := ActionPlan(action, data, world);
            (action.Pause? || action.NextTrack? || action.PreviousTrack? || action.SeekTime?
             || action.SeekTrack? || action.SetShuffle? || action.ClearQueue?) ==> plan.Some? && |plan.value| == 1
    ensures action.SetShuffle? ==> ActionPlan(action, data, world) == Some([Single(SetCrossfade(action.state))])
    ensures action.ApplySnapshot? ==> ActionPlan(action, data, world) == Some(Snapshots.ApplyPlan(action.snapshot.State()))
    ensures var plan := ActionPlan(action, data, world);
            action.PlayNow? ==>
              var resolved := MediaSources.UriAndMetadata(action.media, world.catalog);
              (plan.Some? <==> resolved.Some?)
              && (plan.Some? ==> plan.value == MediaSources.PlayNowPlan(resolved.value.0, resolved.value.1, data.speaker.info.uuid))
    ensures var plan := ActionPlan(action, data, world);
            action.SeekRelTrack? ==>
              (plan.Some? <==> world.currentTrackNo.Ok?)
              && (plan.Some? ==> plan.value == [Single(SeekRelTrackCall(world.currentTrackNo.value, action.delta))])
    ensures var plan := ActionPlan(action, data, world);
            action.GetQueue? || action.TakeSnapshot? || action.SetRepeat? ==> plan.None? || plan == Some([])
  {
  }

  /** Whether the awaited action returns `Ok`: it got past its queries and every call of
      its plan succeeded. */
  predicate Succeeds(action: ZoneAction, data: SpeakerData, world: Outcomes)
    reads if action.ApplySnapshot? then {action.snapshot} else {}
    requires !action.Exists? && ValidAction(action) && WellFormed(world)
  {
    var plan := ActionPlan(action, data, world);
    plan.Some? && forall i :: 0 <= i < |plan.value| ==> StepSucceeds(plan.value[i], world.remote)
  }

  /** The calls made running an action: its plan up to and including the first call
      that fails, or none when it fails before its first call. */
  predicate CallsMade(action: ZoneAction, data: SpeakerData, world: Outcomes, trace: seq<Step>)
    reads if action.ApplySnapshot? then {action.snapshot} else {}
    requires !action.Exists? && ValidAction(action) && WellFormed(world)
  {
    var plan := ActionPlan(action, data, world);
    (plan.None? ==> trace == [])
    && (plan.Some? ==> trace == plan.value[..AttemptedCount(plan.value, world.remote)])
  }

  /** The coordinator an action for zone `name` runs against: its group coordinator's
      record. */
  function Target(controller: Controller, name: string): Option<SpeakerData>
    reads controller
  {
    controller.CoordinatordataForName(name)
  }

  /** What `Exists` asks: some record's room name equals the zone name exactly, letter
      case included. */
  predicate NameRegistered(reg: seq<SpeakerData>, name: string) {
    exists k :: 0 <= k < |reg| && reg[k].speaker.info.name == name
  }

  // ================================================================ handle_action

  /** A speaker call on its own, awaited. */
  method Issue(c: Call, remote: Call -> Result<(), Error>) returns (trace: seq<Step>, r: Result<(), Error>)
    ensures RanUntilFailure([Single(c)], remote, trace, r)
  {
    r := RunStep(Single(c), remote);
    RunOptionalStep(Some(Single(c)), remote, r);
    trace := [Single(c)];
  }

  /** Runs an action that has found its coordinator: the calls made and whether the
      awaited action returned `Ok`, with the reply it then earns. */
  method Run(action: ZoneAction, data: SpeakerData, world: Outcomes) returns (trace: seq<Step>, ok: bool, payload: Response)
    requires !action.Exists? && ValidAction(action) && WellFormed(world)
    ensures ok <==> Succeeds(action, data, world)
    ensures CallsMade(action, data, world, trace)
    ensures ok && action.GetQueue? ==> world.queue.Ok? && payload == Queue(world.queue.value)
    ensures ok && action.TakeSnapshot? ==>
              SnapshotReadsOk(world) && payload.Snapshot? && fresh(payload.snapshot)
              && payload.snapshot.State() == TakenState(world)
    ensures ok && !action.GetQueue? && !action.TakeSnapshot? ==> payload == Response.Ok
  {
    trace, payload := [], Response.Ok;
    if action.GetQueue? {
      ok := world.queue.Ok?;
      if ok {
        payload := Queue(world.queue.value);
      }
    } else if action.TakeSnapshot? {
      var taken := Snapshots.Snapshot.FromSpeaker(world.volume, world.track, world.playing, world.transportUri);
      ok := taken.Ok?;
      if ok {
        payload := Response.Snapshot(taken.value);
      }
    } else {
      var r;
      trace, r := RunCalls(action, data, world);
      ok := r.Ok?;
      var plan := ActionPlan(action, data, world);
      if plan.Some? {
        RunStopsAtFirstFailure(plan.value, world.remote, trace, r);
      }
    }
  }

  /** The awaited action of a command that makes speaker calls: its plan run up to the
      first failure, or no call and an error when it fails before its first call. */
  method RunCalls(action: ZoneAction, data: SpeakerData, world: Outcomes) returns (trace: seq<Step>, r: Result<(), Error>)
    requires !action.Exists? && !action.GetQueue? && !action.TakeSnapshot?
    requires ValidAction(action) && WellFormed(world)
    ensures ActionPlan(action, data, world).None? ==> trace == [] && r.Err?
    ensures ActionPlan(action, data, world).Some? ==>
              RanUntilFailure(ActionPlan(action, data, world).value, world.remote, trace, r)
  {
    match action {
      case PlayNow(media) =>
        trace, r := MediaSources.PlayNow(media, data, world.catalog, world.remote);
      case QueueAsNext(media) =>
        trace, r := MediaSources.QueueAsNext(media, data, world.track, world.catalog, world.remote);
      case Pause =>
        trace, r := Issue(Call.Pause, world.remote);
      case NextTrack =>
        trace, r := Issue(Next, world.remote);
      case PreviousTrack =>
        trace, r := Issue(Previous, world.remote);
      case SeekTime(seconds) =>
        trace, r := Issue(SkipTo(seconds), world.remote);
      case SeekTrack(number) =>
        trace, r := Issue(Call.SeekTrack(number), world.remote);
      case SeekRelTrack(delta) =>
        if world.currentTrackNo.Err? {
          trace, r := [], Err(world.currentTrackNo.error);
        } else {
          trace, r := Issue(SeekRelTrackCall(world.currentTrackNo.value, delta), world.remote);
        }
      case SetRepeat(mode) =>
        trace, r := [], world.setRepeat(mode);
      case SetShuffle(state) =>
        trace, r := Issue(SetCrossfade(state), world.remote);
      case ClearQueue =>
        trace, r := Issue(Call.ClearQueue, world.remote);
      case ApplySnapshot(snapshot) =>
        trace, r := snapshot.Apply(world.remote);
    }
  }

  /** `handle_action`. `Exists` answers from the registry alone. Every other action
      looks up the zone's coordinator (its whole record for `PlayNow`, `QueueAsNext` and
      `SeekRelTrack`, its speaker otherwise): with none it answers `NotOk` without a
      call; otherwise it runs the action and answers with the action's reply when that
      succeeded and `NotOk` when it failed. Exactly one reply is produced, and the
      handler itself returns `Ok` whatever happened to the reply. */
  method HandleAction(action: ZoneAction, controller: Controller, name: string, world: Outcomes)
    returns (reply: Response, trace: seq<Step>, r: Result<(), Error>)
    requires ValidAction(action) && WellFormed(world)
    ensures r.Ok?
    ensures action.Exists? ==>
              trace == [] && reply == (if NameRegistered(controller.speakerdata, name) then Response.Ok else NotOk)
    ensures !action.Exists? && Target(controller, name).None? ==> reply == NotOk && trace == []
    ensures !action.Exists? && Target(controller, name).Some? ==>
              (reply == NotOk <==> !Succeeds(action, Target(controller, name).value, world))
              && CallsMade(action, Target(controller, name).value, world, trace)
    ensures reply.Queue? ==> action.GetQueue? && world.queue == Result.Ok(reply.tracks)
    ensures reply.Snapshot? ==>
              action.TakeSnapshot? && SnapshotReadsOk(world) && fresh(reply.snapshot)
              && reply.snapshot.State() == TakenState(world)
    ensures reply == Response.Ok ==> !action.GetQueue? && !action.TakeSnapshot?
  {
    r := Result.Ok(());
    if action.Exists? {
      reply := if NameRegistered(controller.speakerdata, name) then Response.Ok else NotOk;
      return reply, [], r;
    }
    var coordinator := LookupCoordinator(action, controller, name);
    if coordinator.None? {
      return NotOk, [], r;
    }
    var ok, payload;
    trace, ok, payload := Run(action, coordinator.value, world);
    reply := if ok then payload else NotOk;
  }

  /** The lookup an action makes: `get_coordinatordata_for_name` for `PlayNow`,
      `QueueAsNext` and `SeekRelTrack`, `get_coordinator_for_name` for the others, whose
      record is then the one carrying that speaker. Either finds the same coordinator. */
  method LookupCoordinator(action: ZoneAction, controller: Controller, name: string) returns (r: Option<SpeakerData>)
    ensures r == Target(controller, name)
  {
    if UsesRecord(action) {
      r := controller.CoordinatordataForName(name);
    } else {
      var found := controller.CoordinatorForName(name);
      controller.CoordinatorLookupsAgree(name);
      if found.None? {
        r := Option.None;
      } else {
        // these actions read nothing of the record but its speaker
        r := controller.CoordinatordataForName(name);
      }
    }
  }

  /** `Exists` is stricter than the lookups: a zone name registered letter for letter is
      found by the coordinator lookup's first step. */
  lemma ExistsImpliesNameLookup(controller: Controller, name: string)
    requires NameRegistered(controller.speakerdata, name)
    ensures controller.SpeakerWithName(name).Some?
  {
    var k :| 0 <= k < |controller.speakerdata| && controller.speakerdata[k].speaker.info.name == name;
    assert EqIgnoreAsciiCase(controller.speakerdata[k].speaker.info.name, name);
  }

  /** The converse fails: with a "Kitchen" registered, "kitchen" is found by the lookup
      but does not exist for `Exists`. */
  lemma ExistsIsCaseSensitive(controller: Controller)
    requires |controller.speakerdata| == 1 && controller.speakerdata[0].speaker.info.name == "Kitchen"
    ensures controller.SpeakerWithName("kitchen").Some?
    ensures !NameRegistered(controller.speakerdata, "kitchen")
  {
    assert ToLowerAscii("Kitchen") == ToLowerAscii("kitchen");
    assert "Kitchen"[0] != "kitchen"[0];
  }

  /** `SetShuffle` sends the crossfade flag and never touches the play mode, while the
      speaker's own `set_shuffle` sets a play mode whose shuffle flag is the one asked for. */
  lemma SetShuffleSetsCrossfade(state: bool, data: SpeakerData, world: Outcomes, response: Result<map<string, string>, Error>)
    requires WellFormed(world)
    ensures ActionPlan(SetShuffle(state), data, world) == Some([Single(SetCrossfade(state))])
    ensures SetShuffleCall(state, PlaybackMode(response)).Ok? ==>
              SetShuffleCall(state, PlaybackMode(response)).value.SetPlayMode?
              && ParsePlayMode(SetShuffleCall(state, PlaybackMode(response)).value.mode).Ok?
              && ParsePlayMode(SetShuffleCall(state, PlaybackMode(response)).value.mode).value.1 == state
  {
    SetShuffleKeepsRepeatMode(state, response);
  }
}
