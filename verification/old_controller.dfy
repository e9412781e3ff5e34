/** The crate-level controller (src/controller.rs): a list of speakers kept in step with
    the zone group topology, and the `Subscriber` that holds the topology subscription and
    the two background tasks serving it. The subscription calls are outcomes given as
    functions; the tasks are known only by the handles that stop them. */
module SystemController {
  import opened Wrappers
  import opened Seqs
  import opened Urns
  import opened Errors
  import opened Speakers

  // ================================================================ subscriber

  /** Seconds a subscription is asked to last (`TIMEOUT_SEC`). */
  const TIMEOUT_SEC: nat := 300

  /** The closure `spawn_interruptable` hands back, known by the task it stops. */
  datatype AbortHandle = AbortHandle(task: nat)

  /** The sending half of the controller's command channel. */
  datatype CommandSender = CommandSender(channel: nat)

  /** The six fields of a `Subscriber`, as one value. */
  datatype SubscriberState = SubscriberState(service: Option<Service>, url: Option<string>, sid: Option<string>,
                                             abortListener: Option<AbortHandle>, abortTimer: Option<AbortHandle>,
                                             tx: Option<CommandSender>)

  /** `Subscriber::default()`: every field empty. */
  const IDLE := SubscriberState(Option.None, Option.None, Option.None, Option.None, Option.None, Option.None)

  const NO_TASK_HANDLE := SubscriberError("No task handle!")
  const NO_TIMER_HANDLE := SubscriberError("No timer handle!")
  const NO_SERVICE := SubscriberError("No service to unsubscribe from")
  const NO_URL := SubscriberError("No url!")
  const NO_SID := SubscriberError("No sid!")

  /** `Result::and`: the second result when the first is `Ok`, otherwise the first. */
  function And(a: Result<(), Error>, b: Result<(), Error>): Result<(), Error> {
    if a.Ok? then b else a
  }

  function AsSeq<T>(o: Option<T>): seq<T> {
    if o.Some? then [o.value] else []
  }

  /** What `subscribe` leaves behind: on success every field filled, the sid being the one
      the subscription call returned; on failure the subscriber as it was. */
  function Subscribed(st: SubscriberState, service: Service, url: string, tx: CommandSender,
                      sid: Result<string, Error>, listener: AbortHandle, timer: AbortHandle): (r: SubscriberState)
  {
    if sid.Err? then st
    else SubscriberState(Some(service), Some(url), Some(sid.value), Some(listener), Some(timer), Some(tx))
  }

  /** A successful subscription fills all six fields; a failed one changes none. */
  lemma SubscribeFillsEveryField(st: SubscriberState, service: Service, url: string, tx: CommandSender,
                                 sid: Result<string, Error>, listener: AbortHandle, timer: AbortHandle)
    ensures var r := Subscribed(st, service, url, tx, sid, listener, timer);
            sid.Ok? ==> r.service == Some(service) && r.url == Some(url) && r.sid == Some(sid.value)
                        && r.tx == Some(tx) && r.abortListener == Some(listener) && r.abortTimer == Some(timer)
    ensures sid.Err? ==> Subscribed(st, service, url, tx, sid, listener, timer) == st
  {
  }

  /** The outcome of `terminate_tasks`: the new state, the result and the abort closures
      called, in the order they were called. */
  datatype Termination = Termination(state: SubscriberState, result: Result<(), Error>, aborted: seq<AbortHandle>)

  /** `terminate_tasks`: each present handle is taken and called; a missing listener
      handle is reported, and a missing timer handle only when the listener's was there. */
  function Terminate(st: SubscriberState): (t: Termination) {
    var res := if st.abortListener.Some? then Ok(()) else Err(NO_TASK_HANDLE);
    var res' := if st.abortTimer.Some? then res else And(res, Err(NO_TIMER_HANDLE));
    Termination(st.(abortListener := Option.None, abortTimer := Option.None), res',
                AsSeq(st.abortListener) + AsSeq(st.abortTimer))
  }

  /** Both tasks are stopped whatever the result; it is `Ok` exactly when both handles were
      there, and otherwise names the first one missing. Nothing else changes. */
  lemma TerminateStopsBothTasks(st: SubscriberState)
    ensures var t := Terminate(st);
            t.state.abortListener.None? && t.state.abortTimer.None?
            && t.state.service == st.service && t.state.url == st.url && t.state.sid == st.sid && t.state.tx == st.tx
    ensures var t := Terminate(st);
            (t.result.Ok? <==> st.abortListener.Some? && st.abortTimer.Some?)
            && (st.abortListener.None? ==> t.result == Err(NO_TASK_HANDLE))
            && (st.abortListener.Some? && st.abortTimer.None? ==> t.result == Err(NO_TIMER_HANDLE))
    ensures var t := Terminate(st);
            (forall h :: h in t.aborted <==> Some(h) == st.abortListener || Some(h) == st.abortTimer)
            && |t.aborted| <= 2
            && (st.abortListener.Some? ==> t.aborted[0] == st.abortListener.value)
  {
  }

  /** A second `terminate_tasks` calls nothing, changes nothing and reports the missing
      listener handle. */
  lemma TerminateTwice(st: SubscriberState)
    ensures var once := Terminate(st).state;
            Terminate(once) == Termination(once, Err(NO_TASK_HANDLE), [])
  {
  }

  /** The outcome of `unsubscribe`: the new state, the result, and the unsubscribe request
      (service, url, sid) when the call was made. */
  datatype Unsubscription = Unsubscription(state: SubscriberState, result: Result<(), Error>,
                                           request: Option<(Service, string, string)>)

  /** `unsubscribe`: `service`, then `url`, then `sid` are taken, and the first one missing
      ends the call with its error; with all three the remote call is made. */
  function Unsubscribed(st: SubscriberState, remote: (Service, string, string) -> Result<(), Error>): (u: Unsubscription) {
    if st.service.None? then Unsubscription(st, Err(NO_SERVICE), Option.None)
    else if st.url.None? then Unsubscription(st.(service := Option.None), Err(NO_URL), Option.None)
    else if st.sid.None? then Unsubscription(st.(service := Option.None, url := Option.None), Err(NO_SID), Option.None)
    else
      var request := (st.service.value, st.url.value, st.sid.value);
      Unsubscription(st.(service := Option.None, url := Option.None, sid := Option.None),
                     remote(request.0, request.1, request.2), Some(request))
  }

  /** The remote call is made exactly when service, url and sid are all there, with those
      three, and then all three are cleared and its result returned. A missing field gives
      a `SubscriberError`; a missing service leaves url and sid as they were. The task
      handles and the sender are never touched. */
  lemma UnsubscribeChecksInOrder(st: SubscriberState, remote: (Service, string, string) -> Result<(), Error>)
    ensures var u := Unsubscribed(st, remote);
            (u.request.Some? <==> st.service.Some? && st.url.Some? && st.sid.Some?)
            && (u.request.Some? ==> u.request.value == (st.service.value, st.url.value, st.sid.value)
                                    && u.state.service.None? && u.state.url.None? && u.state.sid.None?
                                    && u.result == remote(st.service.value, st.url.value, st.sid.value))
    ensures var u := Unsubscribed(st, remote);
            u.request.None? ==> u.result.Err? && u.result.error.SubscriberError?
    ensures var u := Unsubscribed(st, remote);
            st.service.None? ==> u.state == st && u.result == Err(NO_SERVICE)
    ensures var u := Unsubscribed(st, remote);
            u.state.abortListener == st.abortListener && u.state.abortTimer == st.abortTimer && u.state.tx == st.tx
  {
  }

  /** A second `unsubscribe` finds no service and changes nothing. */
  lemma UnsubscribeTwice(st: SubscriberState, remote: (Service, string, string) -> Result<(), Error>)
    ensures var once := Unsubscribed(st, remote).state;
            Unsubscribed(once, remote) == Unsubscription(once, Err(NO_SERVICE), Option.None)
  {
  }

  /** The result `shutdown` reports from the termination result and the unsubscribe result:
      an HTTP error code from unsubscribing is ignored. */
  function ShutdownResult(terminated: Result<(), Error>, unsubscribed: Result<(), Error>): Result<(), Error> {
    match unsubscribed
    case Ok(_) => terminated
    case Err(HttpErrorCode(_)) => terminated
    case Err(e) => And(terminated, Err(e))
  }

  /** `Ok` exactly when the tasks were both stopped and unsubscribing succeeded or failed
      with an HTTP error code; a termination error wins over an unsubscribe error. */
  lemma ShutdownResultMeaning(terminated: Result<(), Error>, unsubscribed: Result<(), Error>)
    ensures var r := ShutdownResult(terminated, unsubscribed);
            (r.Ok? <==> terminated.Ok? && (unsubscribed.Ok? || unsubscribed.error.HttpErrorCode?))
            && (terminated.Err? ==> r == terminated)
            && (terminated.Ok? && unsubscribed.Err? && !unsubscribed.error.HttpErrorCode? ==> r == unsubscribed)
  {
  }

  datatype ShutdownOutcome = ShutdownOutcome(state: SubscriberState, result: Result<(), Error>, aborted: seq<AbortHandle>,
                               request: Option<(Service, string, string)>)

  /** `shutdown`: `terminate_tasks`, then `unsubscribe` on what it left. */
  function ShutdownOf(st: SubscriberState, remote: (Service, string, string) -> Result<(), Error>): (s: ShutdownOutcome) {
    var t := Terminate(st);
    var u := Unsubscribed(t.state, remote);
    ShutdownOutcome(u.state, ShutdownResult(t.result, u.result), t.aborted, u.request)
  }

  /** Shutting down a fully subscribed subscriber stops both tasks, unsubscribes with its
      service, url and sid, empties every field but the sender, and succeeds unless the
      unsubscribe call fails with anything but an HTTP error code. */
  lemma ShutdownOfSubscribed(st: SubscriberState, remote: (Service, string, string) -> Result<(), Error>)
    requires st.service.Some? && st.url.Some? && st.sid.Some? && st.abortListener.Some? && st.abortTimer.Some?
    ensures var s := ShutdownOf(st, remote);
            var answer := remote(st.service.value, st.url.value, st.sid.value);
            s.state == IDLE.(tx := st.tx)
            && s.aborted == [st.abortListener.value, st.abortTimer.value]
            && s.request == Some((st.service.value, st.url.value, st.sid.value))
            && (s.result.Ok? <==> answer.Ok? || answer.error.HttpErrorCode?)
  {
    TerminateStopsBothTasks(st);
    UnsubscribeChecksInOrder(Terminate(st).state, remote);
  }

  /** Shutting down an idle subscriber calls nothing and reports the missing listener handle. */
  lemma ShutdownOfIdle(remote: (Service, string, string) -> Result<(), Error>)
    ensures ShutdownOf(IDLE, remote) == ShutdownOutcome(IDLE, Err(NO_TASK_HANDLE), [], Option.None)
  {
  }

  /** `Subscriber`: the topology subscription and the handles of the listener and renewal
      tasks serving it. */
  class Subscriber {
    var service: Option<Service>
    var url: Option<string>
    var sid: Option<string>
    var abortListener: Option<AbortHandle>
    var abortTimer: Option<AbortHandle>
    var tx: Option<CommandSender>

    function State(): SubscriberState
      reads this
    {
      SubscriberState(service, url, sid, abortListener, abortTimer, tx)
    }

    /** `Subscriber::default()`. */
    constructor ()
      ensures State() == IDLE
    {
      service, url, sid := Option.None, Option.None, Option.None;
      abortListener, abortTimer, tx := Option.None, Option.None, Option.None;
    }

    /** `subscribe`: asks `remote` for a subscription of `TIMEOUT_SEC` seconds; on success
        records it and the handles of the two tasks spawned for it. */
    method Subscribe(service': Service, url': string, tx': CommandSender,
                     remote: (Service, string, nat) -> Result<string, Error>,
                     listener: AbortHandle, timer: AbortHandle) returns (r: Result<(), Error>)
      modifies this
      ensures var answer := remote(service', url', TIMEOUT_SEC);
              State() == Subscribed(old(State()), service', url', tx', answer, listener, timer)
              && r == (if answer.Ok? then Ok(()) else Err(answer.error))
    {
      var answer := remote(service', url', TIMEOUT_SEC);
      if answer.Err? {
        return Err(answer.error);
      }
      service := Some(service');
      sid := Some(answer.value);
      tx := Some(tx');
      url := Some(url');
      abortListener := Some(listener);
      abortTimer := Some(timer);
      r := Ok(());
    }

    /** `terminate_tasks`; `aborted` lists the abort closures called. */
    method TerminateTasks() returns (r: Result<(), Error>, aborted: seq<AbortHandle>)
      modifies this
      ensures Termination(State(), r, aborted) == Terminate(old(State()))
    {
      r := Ok(());
      aborted := [];
      if abortListener.Some? {
        aborted := aborted + [abortListener.value];
        abortListener := Option.None;
      } else {
        r := Err(NO_TASK_HANDLE);
      }
      if abortTimer.Some? {
        aborted := aborted + [abortTimer.value];
        abortTimer := Option.None;
      } else {
        r := And(r, Err(NO_TIMER_HANDLE));
      }
    }

    /** `unsubscribe`; `request` is the remote call made, if any. */
    method Unsubscribe(remote: (Service, string, string) -> Result<(), Error>)
      returns (r: Result<(), Error>, request: Option<(Service, string, string)>)
      modifies this
      ensures Unsubscription(State(), r, request) == Unsubscribed(old(State()), remote)
    {
      var s := service;
      service := Option.None;
      if s.None? {
        return Err(NO_SERVICE), Option.None;
      }
      var u := url;
      url := Option.None;
      if u.None? {
        return Err(NO_URL), Option.None;
      }
      var i := sid;
      sid := Option.None;
      if i.None? {
        return Err(NO_SID), Option.None;
      }
      request := Some((s.value, u.value, i.value));
      r := remote(s.value, u.value, i.value);
    }

    /** `shutdown`. */
    method Shutdown(remote: (Service, string, string) -> Result<(), Error>)
      returns (r: Result<(), Error>, aborted: seq<AbortHandle>, request: Option<(Service, string, string)>)
      modifies this
      ensures ShutdownOutcome(State(), r, aborted, request) == ShutdownOf(old(State()), remote)
    {
      var res;
      res, aborted := TerminateTasks();
      var unsubscribed;
      unsubscribed, request := Unsubscribe(remote);
      match unsubscribed
      case Ok(_) => r := res;
      case Err(HttpErrorCode(_)) => r := res;
      case Err(e) => r := And(res, Err(e));
    }

    /** `Drop`: the tasks are stopped and the result dropped. */
    method Drop() returns (aborted: seq<AbortHandle>)
      modifies this
      ensures State() == Terminate(old(State())).state && aborted == Terminate(old(State())).aborted
    {
      var _, called := TerminateTasks();
      aborted := called;
    }
  }

  // ================================================================ speakers

  /** The uuids of the member infos, in order, repeats kept. */
  function UuidsOf(infos: seq<SpeakerInfo>): (r: seq<string>)
    ensures |r| == |infos|
    ensures forall i :: 0 <= i < |r| ==> r[i] == infos[i].uuid
  {
    seq(|infos|, i requires 0 <= i < |infos| => infos[i].uuid)
  }

  function SpeakerUuids(speakers: seq<Speaker>): (r: seq<string>)
    ensures |r| == |speakers|
    ensures forall i :: 0 <= i < |r| ==> r[i] == speakers[i].info.uuid
  {
    seq(|speakers|, i requires 0 <= i < |speakers| => speakers[i].info.uuid)
  }

  /** The speakers `retain` keeps: those whose uuid is, as an exact string, among `uuids`. */
  function Retained(speakers: seq<Speaker>, uuids: seq<string>): seq<Speaker> {
    Filter(speakers, (s: Speaker) => s.info.uuid in uuids)
  }

  /** The incoming uuids no kept speaker has, in order, repeats kept. */
  function Unknown(uuids: seq<string>, kept: seq<Speaker>): seq<string> {
    Filter(uuids, (u: string) => u !in SpeakerUuids(kept))
  }

  /** The first member info with exactly this uuid (`find` on the flattened members). */
  function FirstWithUuid(infos: seq<SpeakerInfo>, uuid: string): (r: Option<SpeakerInfo>)
    ensures r.Some? ==> r.value.uuid == uuid
    decreases |infos|
  {
    if |infos| == 0 then Option.None
    else if infos[0].uuid == uuid then Some(infos[0])
    else FirstWithUuid(infos[1..], uuid)
  }

  /** The lookup finds an info exactly when one has the uuid, and it is the first one. */
  lemma {:induction false} FirstWithUuidIsFirst(infos: seq<SpeakerInfo>, uuid: string)
    ensures FirstWithUuid(infos, uuid).None? <==> forall j :: 0 <= j < |infos| ==> infos[j].uuid != uuid
    ensures FirstWithUuid(infos, uuid).Some? ==>
              exists k :: 0 <= k < |infos| && infos[k] == FirstWithUuid(infos, uuid).value
                          && forall j :: 0 <= j < k ==> infos[j].uuid != uuid
    decreases |infos|
  {
    if |infos| > 0 && infos[0].uuid != uuid {
      FirstWithUuidIsFirst(infos[1..], uuid);
      if FirstWithUuid(infos, uuid).Some? {
        var k :| 0 <= k < |infos[1..]| && infos[1..][k] == FirstWithUuid(infos, uuid).value
                 && forall j :: 0 <= j < k ==> infos[1..][j].uuid != uuid;
        assert infos[k + 1] == FirstWithUuid(infos, uuid).value;
        assert forall j :: 0 <= j < k + 1 ==> infos[j].uuid != uuid by {
          forall j | 0 < j < k + 1
            ensures infos[j].uuid != uuid
          {
            assert infos[j] == infos[1..][j - 1];
          }
        }
      }
      forall j | 0 < j < |infos|
        ensures infos[j] == infos[1..][j - 1]
      {
      }
    }
  }

  /** A builder that makes each speaker from the info it is given, so with the same uuid. */
  ghost predicate KeepsUuid(build: SpeakerInfo -> Result<Option<Speaker>, Error>) {
    forall info :: build(info).Ok? && build(info).value.Some? ==> build(info).value.value.info.uuid == info.uuid
  }

  /** How the loop over the unknown uuids ended: every speaker pushed, a build error
      returned by `?`, or the `unwrap` panic on a device that is not a Sonos speaker. */
  datatype Stop = Finished | Failed(error: Error) | Panicked

  /** The speakers appended by the loop, and how it ended. */
  datatype Additions = Additions(added: seq<Speaker>, stop: Stop)

  /** The loop of `update_from_topology` over the unknown uuids: each is built from the
      first member info with its uuid and pushed, until a build fails or finds no Sonos
      speaker. (Every uuid looked up comes from `infos`, so the lookup always finds one.) */
  function Add(uuids: seq<string>, infos: seq<SpeakerInfo>, build: SpeakerInfo -> Result<Option<Speaker>, Error>): Additions
    decreases |uuids|
  {
    if |uuids| == 0 then Additions([], Finished)
    else
      var prev := Add(uuids[..|uuids| - 1], infos, build);
      var info := FirstWithUuid(infos, uuids[|uuids| - 1]);
      if !prev.stop.Finished? || info.None? then prev
      else
        match build(info.value)
        case Err(e) => Additions(prev.added, Failed(e))
        case Ok(None) => Additions(prev.added, Panicked)
        case Ok(Some(s)) => Additions(prev.added + [s], Finished)
  }

  /** One more turn of the loop: the next uuid's speaker is built and pushed, or the loop
      ends there. */
  lemma AddStep(uuids: seq<string>, k: nat, infos: seq<SpeakerInfo>,
                build: SpeakerInfo -> Result<Option<Speaker>, Error>)
    requires k < |uuids| && FirstWithUuid(infos, uuids[k]).Some?
    ensures var prev := Add(uuids[..k], infos, build);
            var built := build(FirstWithUuid(infos, uuids[k]).value);
            Add(uuids[..k + 1], infos, build)
            == if !prev.stop.Finished? then prev
               else if built.Err? then Additions(prev.added, Failed(built.error))
               else if built.value.None? then Additions(prev.added, Panicked)
               else Additions(prev.added + [built.value.value], Finished)
  {
    assert uuids[..k + 1][..k] == uuids[..k];
    assert uuids[..k + 1][k] == uuids[k];
  }

  /** Once the loop has stopped, later uuids add nothing. */
  lemma {:induction false} AddStopsAtFailure(uuids: seq<string>, k: nat, infos: seq<SpeakerInfo>,
                                             build: SpeakerInfo -> Result<Option<Speaker>, Error>)
    requires k <= |uuids| && !Add(uuids[..k], infos, build).stop.Finished?
    ensures Add(uuids, infos, build) == Add(uuids[..k], infos, build)
    decreases |uuids| - k
  {
    if k < |uuids| {
      assert uuids[..k + 1][..k] == uuids[..k];
      AddStopsAtFailure(uuids, k + 1, infos, build);
    } else {
      assert uuids[..k] == uuids;
    }
  }

  /** When the loop finishes, one speaker per uuid, in order, each built from the first
      info with that uuid. */
  lemma {:induction false} AddOnePerUuid(uuids: seq<string>, infos: seq<SpeakerInfo>,
                                         build: SpeakerInfo -> Result<Option<Speaker>, Error>)
    requires forall i :: 0 <= i < |uuids| ==> FirstWithUuid(infos, uuids[i]).Some?
    ensures Add(uuids, infos, build).stop.Finished? ==>
              |Add(uuids, infos, build).added| == |uuids|
              && forall i :: 0 <= i < |uuids| ==>
                   Ok(Some(Add(uuids, infos, build).added[i])) == build(FirstWithUuid(infos, uuids[i]).value)
    decreases |uuids|
  {
    if |uuids| > 0 {
      var n := |uuids| - 1;
      var front := uuids[..n];
      var a := Add(uuids, infos, build);
      var prev := Add(front, infos, build);
      var built := build(FirstWithUuid(infos, uuids[n]).value);
      assert a.stop.Finished? ==> prev.stop.Finished? && built.Ok? && built.value.Some?
                                  && a.added == prev.added + [built.value.value] by {
        AddStep(uuids, n, infos, build);
        assert uuids[..n + 1] == uuids;
      }
      assert forall i :: 0 <= i < n ==> FirstWithUuid(infos, front[i]).Some? by {
        forall i | 0 <= i < n
          ensures FirstWithUuid(infos, front[i]).Some?
        {
          assert front[i] == uuids[i];
        }
      }
      AddOnePerUuid(front, infos, build);
      if a.stop.Finished? {
        assert |a.added| == |uuids| && a.added[n] == built.value.value;
        forall i | 0 <= i < |uuids|
          ensures Ok(Some(a.added[i])) == build(FirstWithUuid(infos, uuids[i]).value)
        {
          if i < n {
            assert front[i] == uuids[i] && a.added[i] == prev.added[i];
          }
        }
      }
    }
  }

  /** With a builder that keeps uuids, every speaker added has one of the uuids. */
  lemma {:induction false} AddedAreMembers(uuids: seq<string>, infos: seq<SpeakerInfo>,
                                           build: SpeakerInfo -> Result<Option<Speaker>, Error>)
    requires KeepsUuid(build)
    ensures forall i :: 0 <= i < |Add(uuids, infos, build).added| ==> Add(uuids, infos, build).added[i].info.uuid in uuids
    decreases |uuids|
  {
    if |uuids| > 0 {
      var n := |uuids| - 1;
      var front := uuids[..n];
      AddedAreMembers(front, infos, build);
      var prev := Add(front, infos, build).added;
      assert forall k :: 0 <= k < |Add(front, infos, build).added| ==> Add(front, infos, build).added[k].info.uuid in front;
      var a := Add(uuids, infos, build).added;
      assert |prev| <= |a| && a[..|prev|] == prev;
      forall i | 0 <= i < |a|
        ensures a[i].info.uuid in uuids
      {
        if i < |prev| {
          assert a[i] == prev[i];
          assert prev[i].info.uuid in front;
          var j :| 0 <= j < n && front[j] == prev[i].info.uuid;
          assert uuids[j] == prev[i].info.uuid;
        } else {
          var info := FirstWithUuid(infos, uuids[n]).value;
          assert build(info).Ok? && build(info).value.Some? && a[i] == build(info).value.value;
          assert a[i].info.uuid == info.uuid;
        }
      }
    }
  }

  /** What `update_from_topology` does to the speakers, and its result. */
  datatype Update = Update(speakers: seq<Speaker>, result: Result<(), Error>)

  /** The additions `update_from_topology` makes for the member infos `infos`: the loop
      over the incoming uuids that no speaker left after `retain` has. */
  function NewSpeakers(speakers: seq<Speaker>, infos: seq<SpeakerInfo>, build: SpeakerInfo -> Result<Option<Speaker>, Error>): Additions {
    var uuids := UuidsOf(infos);
    Add(Unknown(uuids, Retained(speakers, uuids)), infos, build)
  }

  /** The update reaches the `unwrap` on a device that is not a Sonos speaker. */
  predicate UpdatePanics(speakers: seq<Speaker>, infos: seq<SpeakerInfo>, build: SpeakerInfo -> Result<Option<Speaker>, Error>) {
    NewSpeakers(speakers, infos, build).stop.Panicked?
  }

  /** `update_from_topology` on the speakers, given the topology's member infos: speakers
      absent from them are dropped, and a speaker is built and appended for each member
      uuid no remaining speaker has, until a build fails. */
  function UpdateSpeakers(speakers: seq<Speaker>, infos: seq<SpeakerInfo>, build: SpeakerInfo -> Result<Option<Speaker>, Error>): Update
    requires !UpdatePanics(speakers, infos, build)
  {
    var kept := Retained(speakers, UuidsOf(infos));
    var adds := NewSpeakers(speakers, infos, build);
    Update(kept + adds.added, if adds.stop.Finished? then Ok(()) else Err(adds.stop.error))
  }

  /** Every unknown uuid is an incoming one, so its member info is found. */
  lemma UnknownAreMembers(uuids: seq<string>, kept: seq<Speaker>, infos: seq<SpeakerInfo>)
    requires uuids == UuidsOf(infos)
    ensures forall i :: 0 <= i < |Unknown(uuids, kept)| ==> Unknown(uuids, kept)[i] in uuids
    ensures forall i :: 0 <= i < |Unknown(uuids, kept)| ==> FirstWithUuid(infos, Unknown(uuids, kept)[i]).Some?
  {
    forall i | 0 <= i < |Unknown(uuids, kept)|
      ensures FirstWithUuid(infos, Unknown(uuids, kept)[i]).Some?
    {
      var u := Unknown(uuids, kept)[i];
      var j :| 0 <= j < |uuids| && uuids[j] == u;
      assert infos[j].uuid == u;
      FirstWithUuidIsFirst(infos, u);
    }
  }

  /** With a builder that keeps uuids, every speaker left, on success or failure, has a
      uuid that is exactly one of the incoming members'. */
  lemma UpdateKeepsOnlyMembers(speakers: seq<Speaker>, infos: seq<SpeakerInfo>,
                               build: SpeakerInfo -> Result<Option<Speaker>, Error>)
    requires !UpdatePanics(speakers, infos, build) && KeepsUuid(build)
    ensures var u := UpdateSpeakers(speakers, infos, build);
            forall i :: 0 <= i < |u.speakers| ==> u.speakers[i].info.uuid in UuidsOf(infos)
  {
    var uuids := UuidsOf(infos);
    var kept := Retained(speakers, uuids);
    var unknown := Unknown(uuids, kept);
    var added := Add(unknown, infos, build).added;
    var all := UpdateSpeakers(speakers, infos, build).speakers;
    assert all == kept + added;
    assert forall i :: 0 <= i < |kept| ==> kept[i].info.uuid in uuids;
    assert forall i :: 0 <= i < |added| ==> added[i].info.uuid in uuids by {
      AddedAreMembers(unknown, infos, build);
      UnknownAreMembers(uuids, kept, infos);
      forall i | 0 <= i < |added|
        ensures added[i].info.uuid in uuids
      {
        var j :| 0 <= j < |unknown| && unknown[j] == added[i].info.uuid;
      }
    }
    UuidsAmongConcat(kept, added, uuids);
  }

  lemma UuidsAmongConcat(a: seq<Speaker>, b: seq<Speaker>, uuids: seq<string>)
    requires forall i :: 0 <= i < |a| ==> a[i].info.uuid in uuids
    requires forall i :: 0 <= i < |b| ==> b[i].info.uuid in uuids
    ensures forall i :: 0 <= i < |a + b| ==> (a + b)[i].info.uuid in uuids
  {
  }

  /** The speakers that stay keep their order and come first; on success one speaker
      follows for each incoming uuid no staying speaker had, in member order, built from
      the first member info with that uuid. */
  lemma UpdateAppendsUnknown(speakers: seq<Speaker>, infos: seq<SpeakerInfo>,
                             build: SpeakerInfo -> Result<Option<Speaker>, Error>)
    requires !UpdatePanics(speakers, infos, build)
    ensures var uuids := UuidsOf(infos);
            var kept := Retained(speakers, uuids);
            var unknown := Unknown(uuids, kept);
            var u := UpdateSpeakers(speakers, infos, build);
            u.speakers[..|kept|] == kept
            && (u.result.Ok? ==> |u.speakers| == |kept| + |unknown|
                                 && forall i :: 0 <= i < |unknown| ==>
                                      FirstWithUuid(infos, unknown[i]).Some?
                                      && Ok(Some(u.speakers[|kept| + i])) == build(FirstWithUuid(infos, unknown[i]).value))
  {
    var uuids := UuidsOf(infos);
    var kept := Retained(speakers, uuids);
    var unknown := Unknown(uuids, kept);
    var adds := Add(unknown, infos, build);
    var u := UpdateSpeakers(speakers, infos, build);
    assert u.speakers == kept + adds.added && (u.result.Ok? ==> adds.stop.Finished?);
    ConcatParts(kept, adds.added);
    if u.result.Ok? {
      assert |adds.added| == |unknown|
             && forall i :: 0 <= i < |unknown| ==>
                  FirstWithUuid(infos, unknown[i]).Some?
                  && Ok(Some(adds.added[i])) == build(FirstWithUuid(infos, unknown[i]).value) by {
        UnknownAreMembers(uuids, kept, infos);
        AddOnePerUuid(unknown, infos, build);
      }
    }
  }

  lemma ConcatParts<T>(a: seq<T>, b: seq<T>)
    ensures (a + b)[..|a|] == a
    ensures forall i :: 0 <= i < |b| ==> (a + b)[|a| + i] == b[i]
  {
  }

  /** A uuid listed twice among the members, with no speaker yet, is built and appended
      twice. */
  lemma DuplicateUuidAddedTwice(info: SpeakerInfo, s: Speaker, build: SpeakerInfo -> Result<Option<Speaker>, Error>)
    requires build(info) == Ok(Some(s))
    ensures !UpdatePanics([], [info, info], build)
            && UpdateSpeakers([], [info, info], build) == Update([s, s], Ok(()))
  {
    var infos := [info, info];
    var uuids := UuidsOf(infos);
    assert uuids == [info.uuid, info.uuid];
    assert Retained([], uuids) == [];
    assert Unknown(uuids, []) == uuids;
    assert FirstWithUuid(infos, info.uuid) == Some(info);
    AddStep(uuids, 0, infos, build);
    AddStep(uuids, 1, infos, build);
    assert uuids[..0] == [] && uuids[..2] == uuids;
  }

  /** Filtering out every element leaves nothing. */
  lemma FilterNone<T>(s: seq<T>, p: T -> bool)
    requires forall i :: 0 <= i < |s| ==> !p(s[i])
    ensures Filter(s, p) == []
  {
    var r := Filter(s, p);
    if |r| > 0 {
      var j :| 0 <= j < |s| && s[j] == r[0];
      assert false;
    }
  }

  /** After a successful update with a builder that keeps uuids, every incoming uuid has a
      speaker. */
  lemma UpdateCoversMembers(speakers: seq<Speaker>, infos: seq<SpeakerInfo>,
                            build: SpeakerInfo -> Result<Option<Speaker>, Error>)
    requires !UpdatePanics(speakers, infos, build) && KeepsUuid(build)
    requires UpdateSpeakers(speakers, infos, build).result.Ok?
    ensures var all := UpdateSpeakers(speakers, infos, build).speakers;
            forall j :: 0 <= j < |infos| ==> infos[j].uuid in SpeakerUuids(all)
  {
    var uuids := UuidsOf(infos);
    var kept := Retained(speakers, uuids);
    var unknown := Unknown(uuids, kept);
    var all := UpdateSpeakers(speakers, infos, build).speakers;
    assert |kept| <= |all| && all[..|kept|] == kept
           && forall i :: 0 <= i < |unknown| ==> |kept| + i < |all| && all[|kept| + i].info.uuid == unknown[i] by {
      UpdateAppendsUnknown(speakers, infos, build);
      forall i | 0 <= i < |unknown|
        ensures |kept| + i < |all| && all[|kept| + i].info.uuid == unknown[i]
      {
        assert FirstWithUuid(infos, unknown[i]).Some?;
      }
    }
    CoveredByParts(uuids, kept, all);
    forall j | 0 <= j < |infos|
      ensures infos[j].uuid in SpeakerUuids(all)
    {
      assert uuids[j] == infos[j].uuid;
    }
  }

  /** Every uuid is covered by a speaker list that starts with `kept` and goes on with one
      speaker per unknown uuid. */
  lemma CoveredByParts(uuids: seq<string>, kept: seq<Speaker>, all: seq<Speaker>)
    requires |kept| <= |all| && all[..|kept|] == kept
    requires forall i :: 0 <= i < |Unknown(uuids, kept)| ==>
               |kept| + i < |all| && all[|kept| + i].info.uuid == Unknown(uuids, kept)[i]
    ensures forall j :: 0 <= j < |uuids| ==> uuids[j] in SpeakerUuids(all)
  {
    forall j | 0 <= j < |uuids|
      ensures uuids[j] in SpeakerUuids(all)
    {
      if uuids[j] in SpeakerUuids(kept) {
        KeptUuidStays(all, kept, uuids[j]);
      } else {
        var i := UnknownIndex(uuids, kept, j);
        UuidPresent(all, |kept| + i, uuids[j]);
      }
    }
  }

  lemma KeptUuidStays(all: seq<Speaker>, kept: seq<Speaker>, u: string)
    requires |kept| <= |all| && all[..|kept|] == kept && u in SpeakerUuids(kept)
    ensures u in SpeakerUuids(all)
  {
    var k :| 0 <= k < |kept| && SpeakerUuids(kept)[k] == u;
    assert all[k] == kept[k];
    assert SpeakerUuids(all)[k] == u;
  }

  lemma UuidPresent(all: seq<Speaker>, k: nat, u: string)
    requires k < |all| && all[k].info.uuid == u
    ensures u in SpeakerUuids(all)
  {
    assert SpeakerUuids(all)[k] == u;
  }

  /** Repeating a successful update with the same members changes nothing. */
  lemma UpdateTwiceChangesNothing(speakers: seq<Speaker>, infos: seq<SpeakerInfo>,
                                  build: SpeakerInfo -> Result<Option<Speaker>, Error>)
    requires !UpdatePanics(speakers, infos, build) && KeepsUuid(build)
    requires UpdateSpeakers(speakers, infos, build).result.Ok?
    ensures var once := UpdateSpeakers(speakers, infos, build);
            !UpdatePanics(once.speakers, infos, build)
            && UpdateSpeakers(once.speakers, infos, build) == once
  {
    var uuids := UuidsOf(infos);
    var once := UpdateSpeakers(speakers, infos, build);
    UpdateKeepsOnlyMembers(speakers, infos, build);
    UpdateCoversMembers(speakers, infos, build);
    assert Retained(once.speakers, uuids) == once.speakers;
    FilterNone(uuids, (u: string) => u !in SpeakerUuids(once.speakers));
    assert Unknown(uuids, once.speakers) == [];
    assert once.speakers + [] == once.speakers;
  }

  /** Where an incoming uuid that no kept speaker has sits among the unknown ones. */
  lemma UnknownIndex(uuids: seq<string>, kept: seq<Speaker>, j: nat) returns (i: nat)
    requires j < |uuids| && uuids[j] !in SpeakerUuids(kept)
    ensures i < |Unknown(uuids, kept)| && Unknown(uuids, kept)[i] == uuids[j]
  {
    i := FilterIndex(uuids, (u: string) => u !in SpeakerUuids(kept), j);
  }

  /** Where an element that passes the filter sits in its result. */
  lemma {:induction false} FilterIndex<T>(s: seq<T>, p: T -> bool, j: nat) returns (i: nat)
    requires j < |s| && p(s[j])
    ensures i < |Filter(s, p)| && Filter(s, p)[i] == s[j]
    decreases |s|
  {
    if j == 0 {
      i := 0;
    } else {
      var k := FilterIndex(s[1..], p, j - 1);
      i := if p(s[0]) then k + 1 else k;
    }
  }

  /** The controller of src/controller.rs: the speakers, the topology last stored and the
      subscriber. */
  class Controller {
    var speakers: seq<Speaker>
    var topology: Topology
    var subscriber: Subscriber

    /** `Controller::default()`. */
    constructor ()
      ensures speakers == [] && topology == [] && fresh(subscriber) && subscriber.State() == IDLE
    {
      speakers := [];
      topology := [];
      subscriber := new Subscriber();
    }

    /** `update_from_topology`, with `build` standing for `Speaker::from_speaker_info`:
        the speakers as UpdateSpeakers gives them for the topology's members, and the
        topology stored exactly when the update succeeds. */
    method UpdateFromTopology(system: Topology, build: SpeakerInfo -> Result<Option<Speaker>, Error>)
      returns (r: Result<(), Error>)
      requires !UpdatePanics(speakers, Members(system), build)
      modifies this
      ensures Update(speakers, r) == UpdateSpeakers(old(speakers), Members(system), build)
      ensures topology == if r.Ok? then system else old(topology)
      ensures subscriber == old(subscriber)
    {
      var infos := Members(system);
      var newUuids := UuidsOf(infos);
      speakers := Retained(speakers, newUuids);
      ghost var kept := speakers;
      newUuids := Unknown(newUuids, speakers);
      assert UpdateSpeakers(old(speakers), infos, build).speakers == kept + Add(newUuids, infos, build).added
             && !Add(newUuids, infos, build).stop.Panicked?;
      UnknownAreMembers(UuidsOf(infos), kept, infos);
      r := PushNewSpeakers(newUuids, infos, build);
      if r.Ok? {
        topology := system;
      }
    }

    /** The `for` loop of `update_from_topology`: for each uuid, the speaker built from
        the first member info with that uuid is pushed; a build error is returned at once. */
    method PushNewSpeakers(uuids: seq<string>, infos: seq<SpeakerInfo>, build: SpeakerInfo -> Result<Option<Speaker>, Error>)
      returns (r: Result<(), Error>)
      requires forall j :: 0 <= j < |uuids| ==> FirstWithUuid(infos, uuids[j]).Some?
      requires !Add(uuids, infos, build).stop.Panicked?
      modifies this
      ensures var adds := Add(uuids, infos, build);
              speakers == old(speakers) + adds.added
              && r == if adds.stop.Finished? then Ok(()) else Err(adds.stop.error)
      ensures topology == old(topology) && subscriber == old(subscriber)
    {
      ghost var added := [];
      var i := 0;
      while i < |uuids|
        invariant 0 <= i <= |uuids|
        invariant speakers == old(speakers) + added
        invariant Add(uuids[..i], infos, build) == Additions(added, Finished)
        invariant topology == old(topology) && subscriber == old(subscriber)
      {
        var info := FirstWithUuid(infos, uuids[i]).value;
        var built := build(info);
        AddStep(uuids, i, infos, build);
        if built.Err? {
          AddStopsAtFailure(uuids, i + 1, infos, build);
          return Err(built.error);
        }
        if built.value.None? {
          // `ok_or(..).unwrap()` panics here, which the precondition rules out
          AddStopsAtFailure(uuids, i + 1, infos, build);
          assert false;
        }
        speakers := speakers + [built.value.value];
        added := added + [built.value.value];
        i := i + 1;
      }
      assert uuids[..i] == uuids;
      r := Ok(());
    }

    /** `get_a_service_and_url`: a speaker chosen at random (any index in range), then its
        service of that type and its URL. */
    method GetAServiceAndUrl(urn: Urn) returns (r: Result<(Service, string), Error>)
      ensures |speakers| == 0 <==> r == Err(NoSpeakersDetected)
      ensures |speakers| > 0 ==> exists i :: 0 <= i < |speakers| && r == ServiceAndUrl(speakers[i], urn)
    {
      if |speakers| == 0 {
        r := Err(NoSpeakersDetected);
      } else {
        var i :| 0 <= i < |speakers|;
        r := ServiceAndUrl(speakers[i], urn);
      }
    }
  }
}
