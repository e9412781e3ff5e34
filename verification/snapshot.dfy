/** `Snapshot` (src/snapshot.rs): the parts of a speaker's state worth restoring after
    an announcement, and the plan of calls that restores them. */
module Snapshots {
  import opened Wrappers
  import opened Text
  import opened Errors
  import opened Speakers

  /** The four optional parts of a snapshot, as a value. */
  datatype SnapshotState = SnapshotState(
    volume: Option<nat>,
    isPlaying: Option<bool>,
    trackInfo: Option<TrackInfo>,
    transportUri: Option<string>)

  /** `Snapshot::default()`: nothing recorded. */
  const EMPTY: SnapshotState := SnapshotState(Option.None, Option.None, Option.None, Option.None)

  /** Transport URIs of this scheme cannot be set again and are skipped. */
  const VLI_PREFIX: string := "x-sonos-vli"

  function VolumeStep(st: SnapshotState): Option<Step> {
    if st.volume.Some? then Some(Single(SetVolume(st.volume.value))) else Option.None
  }

  function UriStep(st: SnapshotState): Option<Step> {
    match st.transportUri
    case Some(uri) =>
      if StartsWith(uri, VLI_PREFIX) then Option.None else Some(Single(SetTransportUri(uri, "")))
    case None => Option.None
  }

  function TrackStep(st: SnapshotState): Option<Step> {
    match st.trackInfo
    case Some(info) => Some(Joined(SeekTrack(info.trackNo), SkipTo(info.elapsed)))
    case None => Option.None
  }

  function PlayingStep(st: SnapshotState): Option<Step> {
    match st.isPlaying
    case Some(false) => Some(Single(Pause))
    case Some(true) => Some(Single(Play))
    case None => Option.None
  }

  /** The steps `Snapshot::apply` takes, in order: volume, transport URI, the track
      position (track number and elapsed time together), then play or pause. */
  function ApplyPlan(st: SnapshotState): seq<Step> {
    AsPlan(VolumeStep(st)) + AsPlan(UriStep(st)) + AsPlan(TrackStep(st)) + AsPlan(PlayingStep(st))
  }

  class Snapshot {
    var volume: Option<nat>
    var isPlaying: Option<bool>
    var trackInfo: Option<TrackInfo>
    var transportUri: Option<string>

    function State(): SnapshotState
      reads this
    {
      SnapshotState(volume, isPlaying, trackInfo, transportUri)
    }

    /** `Snapshot::default()`. */
    constructor ()
      ensures State() == EMPTY
    {
      volume := Option.None;
      isPlaying := Option.None;
      trackInfo := Option.None;
      transportUri := Option.None;
    }

    method SetVolume(v: nat)
      modifies this
      ensures State() == old(State()).(volume := Some(v))
    {
      volume := Some(v);
    }

    method SetIsPlaying(playing: bool)
      modifies this
      ensures State() == old(State()).(isPlaying := Some(playing))
    {
      isPlaying := Some(playing);
    }

    method SetTrackInfo(info: TrackInfo)
      modifies this
      ensures State() == old(State()).(trackInfo := Some(info))
    {
      trackInfo := Some(info);
    }

    method SetTransportUri(uri: string)
      modifies this
      ensures State() == old(State()).(transportUri := Some(uri))
    {
      transportUri := Some(uri);
    }

    /** `Snapshot::from_speaker`: the four queries run together (`try_join4`); any
        failure fails the whole, otherwise volume and playing state are always
        recorded, and track and URI when the speaker has them. */
    static method FromSpeaker(volume: Result<nat, Error>, track: Result<Option<TrackInfo>, Error>,
                              playing: Result<bool, Error>, uri: Result<Option<string>, Error>)
      returns (r: Result<Snapshot, Error>)
      ensures r.Ok? <==> volume.Ok? && track.Ok? && playing.Ok? && uri.Ok?
      ensures r.Ok? ==> fresh(r.value)
                        && r.value.State() == SnapshotState(Some(volume.value), Some(playing.value), track.value, uri.value)
      ensures r.Err? ==> volume == Err(r.error) || track == Err(r.error) || playing == Err(r.error) || uri == Err(r.error)
    {
      if volume.Ok? && track.Ok? && playing.Ok? && uri.Ok? {
        var s := new Snapshot();
        s.volume := Some(volume.value);
        s.trackInfo := track.value;
        s.isPlaying := Some(playing.value);
        s.transportUri := uri.value;
        r := Ok(s);
      } else {
        var e :| volume == Err(e) || track == Err(e) || playing == Err(e) || uri == Err(e);
        r := Err(e);
      }
    }

    /** `Snapshot::apply`: each present part restored in turn, stopping at the first
        failure. */
    method Apply(remote: Call -> Result<(), Error>) returns (trace: seq<Step>, r: Result<(), Error>)
      ensures RanUntilFailure(ApplyPlan(State()), remote, trace, r)
    {
      var st := State();
      var a, b, c, d := AsPlan(VolumeStep(st)), AsPlan(UriStep(st)), AsPlan(TrackStep(st)), AsPlan(PlayingStep(st));

      r := RunStageStep([], VolumeStep(st), b + c + d, remote);
      if r.Err? {
        assert [] + a + (b + c + d) == ApplyPlan(st);
        return a, r;
      }
      assert [] + a == a;
      r := RunStageStep(a, UriStep(st), c + d, remote);
      if r.Err? {
        assert a + b + (c + d) == ApplyPlan(st);
        return a + b, r;
      }
      r := RunStageStep(a + b, TrackStep(st), d, remote);
      if r.Err? {
        return a + b + c, r;
      }
      r := RunStageStep(a + b + c, PlayingStep(st), [], remote);
      assert a + b + c + d + [] == ApplyPlan(st);
      trace := a + b + c + d;
    }
  }

  /** Applying a default snapshot makes no call and succeeds. */
  lemma ApplyEmpty(remote: Call -> Result<(), Error>, trace: seq<Step>, r: Result<(), Error>)
    requires RanUntilFailure(ApplyPlan(EMPTY), remote, trace, r)
    ensures trace == [] && r.Ok?
  {
    assert ApplyPlan(EMPTY) == [];
  }

  /** The volume is restored first, and only when it was recorded. */
  lemma VolumeComesFirst(st: SnapshotState)
    ensures st.volume.Some? ==> |ApplyPlan(st)| > 0 && ApplyPlan(st)[0] == Single(SetVolume(st.volume.value))
    ensures st.volume.None? ==>
              forall i :: 0 <= i < |ApplyPlan(st)| ==> !(ApplyPlan(st)[i].Single? && ApplyPlan(st)[i].call.SetVolume?)
  {
  }

  /** A recorded "x-sonos-vli" URI is skipped; any other recorded URI is set with empty
      metadata; no URI, no call. */
  lemma TransportUriRule(st: SnapshotState)
    ensures var setsUri := exists i :: 0 <= i < |ApplyPlan(st)| && ApplyPlan(st)[i].Single?
                                      && ApplyPlan(st)[i].call.SetTransportUri?;
            setsUri <==> st.transportUri.Some? && !StartsWith(st.transportUri.value, VLI_PREFIX)
    ensures st.transportUri.Some? && !StartsWith(st.transportUri.value, VLI_PREFIX)
            ==> Single(SetTransportUri(st.transportUri.value, "")) in ApplyPlan(st)
  {
    var p := ApplyPlan(st);
    var a, b, c, d := AsPlan(VolumeStep(st)), AsPlan(UriStep(st)), AsPlan(TrackStep(st)), AsPlan(PlayingStep(st));
    assert p == a + b + c + d;
    if st.transportUri.Some? && !StartsWith(st.transportUri.value, VLI_PREFIX) {
      assert p[|a|] == Single(SetTransportUri(st.transportUri.value, ""));
    }
  }

  /** A recorded track position becomes one joined step: seek to its track number and
      to its elapsed time, in no particular order. */
  lemma TrackPositionRule(st: SnapshotState)
    ensures st.trackInfo.Some? ==>
              Joined(SeekTrack(st.trackInfo.value.trackNo), SkipTo(st.trackInfo.value.elapsed)) in ApplyPlan(st)
    ensures st.trackInfo.None? ==> forall i :: 0 <= i < |ApplyPlan(st)| ==> ApplyPlan(st)[i].Single?
  {
    var a, b, c, d := AsPlan(VolumeStep(st)), AsPlan(UriStep(st)), AsPlan(TrackStep(st)), AsPlan(PlayingStep(st));
    assert ApplyPlan(st) == a + b + c + d;
    if st.trackInfo.Some? {
      assert ApplyPlan(st)[|a| + |b|] == c[0];
    }
  }

  /** The last step is pause for a stopped speaker, play for a playing one, and nothing
      when the state is unknown. */
  lemma PlayStateComesLast(st: SnapshotState)
    ensures st.isPlaying == Some(false) ==> |ApplyPlan(st)| > 0 && ApplyPlan(st)[|ApplyPlan(st)| - 1] == Single(Pause)
    ensures st.isPlaying == Some(true) ==> |ApplyPlan(st)| > 0 && ApplyPlan(st)[|ApplyPlan(st)| - 1] == Single(Play)
    ensures st.isPlaying.None? ==> Single(Play) !in ApplyPlan(st) && Single(Pause) !in ApplyPlan(st)
  {
  }
}
