/** `MediaSource` (src/manager/mediasource.rs): resolving a named piece of media to a
    URI and its metadata, and the two plans that play it: replace the queue and play
    now, or enqueue it after the current track. */
module MediaSources {
  import opened Wrappers
  import opened Seqs
  import opened Text
  import opened Errors
  import opened Speakers
  import opened Escape
  import opened ManagerController

  datatype MediaSource =
    | Apple(item: string)
    | Spotify(item: string)
    | SonosPlaylist(item: string)
    | SonosFavorite(item: string)

  /** An entry of a speaker's content directory: its title, and the URI and metadata it
      may carry. */
  datatype Content = Content(title: string, uri: Option<string>, metadata: Option<string>)

  /** What resolving media may consult on the coordinator: the answer to browsing a
      container, and the streaming-service resolvers, whose logic is not part of this
      model. */
  datatype Catalog = Catalog(
    browse: string -> Result<seq<Content>, Error>,
    apple: string -> Option<(string, string)>,
    spotify: string -> Option<(string, string)>)

  /** The browse container of the saved queues (Sonos playlists). */
  const PLAYLISTS: string := "SQ:"
  /** The browse container of the favourites. */
  const FAVORITES: string := "FV:2"

  /** `i` is the first entry whose title equals `item` in any ASCII case. */
  predicate FirstTitled(entries: seq<Content>, item: string, i: int) {
    0 <= i < |entries| && EqIgnoreAsciiCase(entries[i].title, item)
    && forall j :: 0 <= j < i ==> !EqIgnoreAsciiCase(entries[j].title, item)
  }

  /** The `find` over a browse result: the first entry titled `item`, ignoring ASCII case. */
  function EntryTitled(entries: seq<Content>, item: string): (r: Option<Content>)
    ensures r.None? <==> forall j :: 0 <= j < |entries| ==> !EqIgnoreAsciiCase(entries[j].title, item)
    ensures r.Some? ==> exists i :: FirstTitled(entries, item, i) && r.value == entries[i]
  {
    match FindIndex(entries, (c: Content) => EqIgnoreAsciiCase(c.title, item))
    case None => Option.None
    case Some(i) => Some(entries[i])
  }

  /** Two first entries with the title are the same entry. */
  lemma FirstTitledUnique(entries: seq<Content>, item: string, i: int, k: int)
    requires FirstTitled(entries, item, i) && FirstTitled(entries, item, k)
    ensures i == k
  {
  }

  /** Entries after the first one with the title are never looked at: appending to a
      browse result that already has the title changes nothing. */
  lemma LaterEntriesIgnored(entries: seq<Content>, more: seq<Content>, item: string)
    requires EntryTitled(entries, item).Some?
    ensures EntryTitled(entries + more, item) == EntryTitled(entries, item)
  {
    var i :| FirstTitled(entries, item, i) && EntryTitled(entries, item).value == entries[i];
    var all := entries + more;
    assert FirstTitled(all, item, i) by {
      assert forall j :: 0 <= j <= i ==> all[j] == entries[j];
    }
    var k :| FirstTitled(all, item, k) && EntryTitled(all, item).value == all[k];
    FirstTitledUnique(all, item, i, k);
  }

  /** A Sonos playlist: the first saved queue with the title, which must have a URI;
      it is played with empty metadata. */
  function PlaylistUri(entries: seq<Content>, item: string): (r: Option<(string, string)>)
    ensures r.Some? <==> exists i :: FirstTitled(entries, item, i) && entries[i].uri.Some?
    ensures r.Some? ==> r.value.1 == "" && exists i :: FirstTitled(entries, item, i) && entries[i].uri == Some(r.value.0)
  {
    match EntryTitled(entries, item)
    case None => Option.None
    case Some(playlist) =>
      if playlist.uri.None? then Option.None
      else
        Some((playlist.uri.value, ""))
  }

  /** A Sonos favourite: the first favourite with the title, which must have a URI and
      metadata; the metadata is PCDATA-escaped. */
  function FavoriteUri(entries: seq<Content>, item: string): (r: Option<(string, string)>)
    ensures r.Some? <==> exists i :: FirstTitled(entries, item, i) && entries[i].uri.Some? && entries[i].metadata.Some?
    ensures r.Some? ==> exists i :: FirstTitled(entries, item, i) && entries[i].uri == Some(r.value.0)
                                    && entries[i].metadata.Some? && r.value.1 == Escaped(entries[i].metadata.value)
  {
    match EntryTitled(entries, item)
    case None => Option.None
    case Some(favorite) =>
      if favorite.uri.None? || favorite.metadata.None? then Option.None
      else
        Some((favorite.uri.value, Escaped(favorite.metadata.value)))
  }

  /** A resolved favourite's metadata holds no raw '<': it can be embedded in the
      action's XML payload. */
  lemma FavoriteMetadataIsEscaped(entries: seq<Content>, item: string)
    requires FavoriteUri(entries, item).Some?
    ensures '<' !in FavoriteUri(entries, item).value.1
  {
    var i :| FirstTitled(entries, item, i) && entries[i].metadata.Some?
             && FavoriteUri(entries, item).value.1 == Escaped(entries[i].metadata.value);
    EscapedHasNoLt(entries[i].metadata.value);
  }

  /** `get_uri_and_metadata`: streaming media through its resolver, a playlist or a
      favourite from the coordinator's content directory. A failed browse resolves to
      nothing. */
  function UriAndMetadata(source: MediaSource, catalog: Catalog): (r: Option<(string, string)>)
    ensures source.Apple? ==> r == catalog.apple(source.item)
    ensures source.Spotify? ==> r == catalog.spotify(source.item)
    ensures source.SonosPlaylist? ==>
              r == if catalog.browse(PLAYLISTS).Ok? then PlaylistUri(catalog.browse(PLAYLISTS).value, source.item) else Option.None
    ensures source.SonosFavorite? ==>
              r == if catalog.browse(FAVORITES).Ok? then FavoriteUri(catalog.browse(FAVORITES).value, source.item) else Option.None
  {
    match source
    case Apple(item) => catalog.apple(item)
    case Spotify(item) => catalog.spotify(item)
    case SonosPlaylist(item) =>
      (match catalog.browse(PLAYLISTS)
       case Err(_) => Option.None
       case Ok(playlists) => PlaylistUri(playlists, item))
    case SonosFavorite(item) =>
      match catalog.browse(FAVORITES)
      case Err(_) => Option.None
      case Ok(favorites) => FavoriteUri(favorites, item)
  }

  // ================================================================ play_now

  /** The queue URI that makes a coordinator play from its own queue. */
  function QueueUri(uuid: string): string {
    "x-rincon-queue:" + uuid + "#0"
  }

  /** The calls of `play_now` once the media is resolved: empty the queue, put the media
      at its head, switch to queue mode, then play. */
  function PlayNowPlan(uri: string, metadata: string, uuid: string): seq<Step> {
    [Single(Call.ClearQueue), Single(QueueNext(uri, metadata, Some(0))),
     Single(SetTransportUri(QueueUri(uuid), "")), Single(Play)]
  }

  /** `play_now` on a coordinator's record: media that does not resolve is reported as
      not found before any call; otherwise the four calls run in order up to the first
      failure. */
  method PlayNow(source: MediaSource, coordinator: SpeakerData, catalog: Catalog, remote: Call -> Result<(), Error>)
    returns (trace: seq<Step>, r: Result<(), Error>)
    ensures UriAndMetadata(source, catalog).None? ==> trace == [] && r == Err(ContentNotFound)
    ensures UriAndMetadata(source, catalog).Some? ==>
              var (uri, metadata) := UriAndMetadata(source, catalog).value;
              RanUntilFailure(PlayNowPlan(uri, metadata, coordinator.speaker.info.uuid), remote, trace, r)
  {
    var resolved := UriAndMetadata(source, catalog);
    if resolved.None? {
      return [], Err(ContentNotFound);
    }
    var (uri, metadata) := resolved.value;
    trace, r := RunPlayNowPlan(uri, metadata, coordinator.speaker.info.uuid, remote);
  }

  /** The four calls of `play_now`, each awaited, stopping at the first failure. */
  method RunPlayNowPlan(uri: string, metadata: string, uuid: string, remote: Call -> Result<(), Error>)
    returns (trace: seq<Step>, r: Result<(), Error>)
    ensures RanUntilFailure(PlayNowPlan(uri, metadata, uuid), remote, trace, r)
  {
    var a, b := Single(Call.ClearQueue), Single(QueueNext(uri, metadata, Some(0)));
    var c, d := Single(SetTransportUri(QueueUri(uuid), "")), Single(Play);
    var plan := PlayNowPlan(uri, metadata, uuid);
    assert plan == [a, b, c, d];

    r := RunStageStep([], Some(a), [b, c, d], remote);
    assert [] + AsPlan(Some(a)) == [a] && [a] + [b, c, d] == plan;
    if r.Err? {
      return [a], r;
    }
    r := RunStageStep([a], Some(b), [c, d], remote);
    assert [a] + AsPlan(Some(b)) == [a, b] && [a, b] + [c, d] == plan;
    if r.Err? {
      return [a, b], r;
    }
    r := RunStageStep([a, b], Some(c), [d], remote);
    assert [a, b] + AsPlan(Some(c)) == [a, b, c] && [a, b, c] + [d] == plan;
    if r.Err? {
      return [a, b, c], r;
    }
    r := RunStageStep([a, b, c], Some(d), [], remote);
    assert [a, b, c] + AsPlan(Some(d)) == plan && plan + [] == plan;
    trace := plan;
  }

  /** Every run of `play_now`'s plan starts by clearing the queue; playback is asked for
      only once the queue holds the media and the transport plays from it; and a
      successful run made exactly the four calls. */
  lemma PlayNowOrder(uri: string, metadata: string, uuid: string, remote: Call -> Result<(), Error>,
                     trace: seq<Step>, r: Result<(), Error>)
    requires RanUntilFailure(PlayNowPlan(uri, metadata, uuid), remote, trace, r)
    ensures |trace| >= 1 && trace[0] == Single(Call.ClearQueue)
    ensures Single(Play) in trace ==>
              Perform(Call.ClearQueue, remote).Ok? && Perform(QueueNext(uri, metadata, Some(0)), remote).Ok?
              && Perform(SetTransportUri(QueueUri(uuid), ""), remote).Ok?
    ensures r.Ok? <==> trace == PlayNowPlan(uri, metadata, uuid) && Perform(Play, remote).Ok?
                       && Perform(Call.ClearQueue, remote).Ok? && Perform(QueueNext(uri, metadata, Some(0)), remote).Ok?
                       && Perform(SetTransportUri(QueueUri(uuid), ""), remote).Ok?
  {
    var plan := PlayNowPlan(uri, metadata, uuid);
    if Single(Play) in trace {
      var k :| 0 <= k < |trace| && trace[k] == Single(Play);
      assert k == 3;
      assert StepSucceeds(plan[0], remote) && StepSucceeds(plan[1], remote) && StepSucceeds(plan[2], remote);
    }
    if r.Ok? {
      assert StepSucceeds(plan[3], remote);
    }
    if trace == plan && Perform(Play, remote).Ok? && Perform(Call.ClearQueue, remote).Ok?
       && Perform(QueueNext(uri, metadata, Some(0)), remote).Ok? && Perform(SetTransportUri(QueueUri(uuid), ""), remote).Ok? {
      assert forall i :: 0 <= i < |plan| ==> StepSucceeds(plan[i], remote);
    }
  }

  // ================================================================ queue_as_next

  /** The cached current track number as `queue_as_next` reads it: its `find_map`
      closure discards the key comparison and answers for every entry, so the value of
      the first cached entry is taken whatever its key. */
  function CachedTrackNumber(transportData: seq<(string, string)>): (r: Option<string>)
    ensures r.None? <==> |transportData| == 0
    ensures r.Some? ==> r.value == transportData[0].1
  {
    if |transportData| == 0 then Option.None else Some(transportData[0].1)
  }

  /** The cached current track number as the comment above the lookup means it: the value
      of the first entry whose key is "CurrentTrack" in any ASCII case. */
  function CurrentTrackEntry(transportData: seq<(string, string)>): (r: Option<string>)
    ensures r.None? <==> forall i :: 0 <= i < |transportData| ==> !EqIgnoreAsciiCase(transportData[i].0, "CurrentTrack")
    ensures r.Some? ==> exists i :: 0 <= i < |transportData| && EqIgnoreAsciiCase(transportData[i].0, "CurrentTrack")
                                    && r.value == transportData[i].1
                                    && forall j :: 0 <= j < i ==> !EqIgnoreAsciiCase(transportData[j].0, "CurrentTrack")
  {
    match FindIndex(transportData, (e: (string, string)) => EqIgnoreAsciiCase(e.0, "CurrentTrack"))
    case None => Option.None
    case Some(i) => Some(transportData[i].1)
  }

  /** With the play mode cached before the track number, the lookup as written takes the
      play mode, which does not parse, while the intended lookup finds track 3. */
  lemma CachedTrackNumberIgnoresKey()
    ensures var data := [("CurrentPlayMode", "NORMAL"), ("CurrentTrack", "3")];
            CachedTrackNumber(data) == Some("NORMAL") && ParseU32("NORMAL").None?
            && CurrentTrackEntry(data) == Some("3") && ParseU32("3") == Some(3)
  {
    var data := [("CurrentPlayMode", "NORMAL"), ("CurrentTrack", "3")];
    assert !AllDigits("NORMAL") by { assert !IsDigit("NORMAL"[0]); }
    assert ToLowerAscii("CurrentPlayMode") != ToLowerAscii("CurrentTrack");
    assert EqIgnoreAsciiCase(data[1].0, "CurrentTrack");
    assert DecimalValue("3") == DecimalValue("3"[..0]) * 10 + 3;
  }

  /** The two lookups agree whenever no cached entry precedes the current track's, and
      the as-written one is never empty when the intended one finds something. */
  lemma CachedTrackNumberWhenFirstIsCurrentTrack(transportData: seq<(string, string)>)
    ensures |transportData| > 0 && EqIgnoreAsciiCase(transportData[0].0, "CurrentTrack")
            ==> CachedTrackNumber(transportData) == CurrentTrackEntry(transportData)
    ensures CurrentTrackEntry(transportData).Some? ==> CachedTrackNumber(transportData).Some?
  {
  }

  /** The current track number `queue_as_next` counts from: the cached value as written,
      which must parse as a u32 (or the media is reported as not found); with nothing
      cached, the live track's number, or 0 when nothing is playing. */
  function CurrentTrackNo(transportData: seq<(string, string)>, liveTrack: Result<Option<TrackInfo>, Error>): (r: Result<nat, Error>)
    requires liveTrack.Ok? && liveTrack.value.Some? ==> liveTrack.value.value.trackNo < U32_LIMIT
    ensures r.Ok? ==> r.value < U32_LIMIT
    ensures |transportData| > 0 ==>
              (r.Ok? <==> ParseU32(transportData[0].1).Some?)
              && (r.Ok? ==> r.value == ParseU32(transportData[0].1).value)
              && (r.Err? ==> r.error == ContentNotFound)
    ensures |transportData| == 0 ==>
              (liveTrack.Err? ==> r == Err(liveTrack.error))
              && (liveTrack == Ok(Option.None) ==> r == Ok(0))
              && (liveTrack.Ok? && liveTrack.value.Some? ==> r == Ok(liveTrack.value.value.trackNo))
  {
    match CachedTrackNumber(transportData)
    case Some(trackNo) =>
      (match ParseU32(trackNo)
       case None => Err(ContentNotFound)
       case Some(n) => Ok(n))
    case None =>
      match liveTrack
      case Err(e) => Err(e)
      case Ok(None) => Ok(0)
      case Ok(Some(t)) => Ok(t.trackNo)
  }

  /** Where `queue_as_next` enqueues: right after the current track. The u32 addition
      wraps (a release build), so the position after track 4294967295 is 0. */
  function NextPosition(current: nat): (r: nat)
    requires current < U32_LIMIT
    ensures r < U32_LIMIT
    ensures current + 1 < U32_LIMIT ==> r == current + 1
    ensures current + 1 == U32_LIMIT ==> r == 0
  {
    (current + 1) % U32_LIMIT
  }

  /** `queue_as_next` on a coordinator's record: the current track number first (an
      unparsable cached value is "not found" before the media is resolved), then the
      media (unresolved media is "not found"), then a single `queue_next` of the media
      after the current track. `liveTrack` is what the speaker's `track` returns. */
  method QueueAsNext(source: MediaSource, coordinator: SpeakerData, liveTrack: Result<Option<TrackInfo>, Error>,
                     catalog: Catalog, remote: Call -> Result<(), Error>)
    returns (trace: seq<Step>, r: Result<(), Error>)
    requires liveTrack.Ok? && liveTrack.value.Some? ==> liveTrack.value.value.trackNo < U32_LIMIT
    ensures CurrentTrackNo(coordinator.transportData, liveTrack).Err? ==>
              trace == [] && r == Err(CurrentTrackNo(coordinator.transportData, liveTrack).error)
    ensures CurrentTrackNo(coordinator.transportData, liveTrack).Ok? && UriAndMetadata(source, catalog).None? ==>
              trace == [] && r == Err(ContentNotFound)
    ensures CurrentTrackNo(coordinator.transportData, liveTrack).Ok? && UriAndMetadata(source, catalog).Some? ==>
              var (uri, metadata) := UriAndMetadata(source, catalog).value;
              var call := QueueNext(uri, metadata, Some(NextPosition(CurrentTrackNo(coordinator.transportData, liveTrack).value)));
              trace == [Single(call)] && r == Perform(call, remote)
  {
    var current: nat;
    match CachedTrackNumber(coordinator.transportData) {
      case Some(trackNo) =>
        var parsed := ParseU32(trackNo);
        if parsed.None? {
          return [], Err(ContentNotFound);
        }
        current := parsed.value;
      case None =>
        if liveTrack.Err? {
          return [], Err(liveTrack.error);
        }
        current := if liveTrack.value.Some? then liveTrack.value.value.trackNo else 0;
    }
    var resolved := UriAndMetadata(source, catalog);
    if resolved.None? {
      return [], Err(ContentNotFound);
    }
    var (uri, metadata) := resolved.value;
    var call := QueueNext(uri, metadata, Some(NextPosition(current)));
    trace := [Single(call)];
    r := Perform(call, remote);
  }
}
