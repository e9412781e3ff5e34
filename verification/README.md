# sonor, modelled in Dafny

sonor is a Rust client for Sonos speakers. Sonos speakers are UPnP devices that group
into zones, and each zone is driven through its group coordinator. This project models
the parts of sonor that decide things. It treats every network call as an outcome
handed in from outside: a function from the call to its result, or a `Result` given as
a parameter.

The model has three parts.

- **Registry and command router.**
  - The manager's `Controller` keeps a registry of `SpeakerData` records and the zone
    topology (`ManagerController`). It updates them from topology snapshots and events.
    It resolves a zone name to the zone's coordinator.
  - `ZoneAction::handle_action` routes each command to that coordinator and answers with
    exactly one `Response` (`ZoneActions`).
  - The older crate-level `Controller`, with its topology `Subscriber` handle, is modelled
    separately (`SystemController`).
  - The controllers are Dafny classes with `seq` fields. Each state-changing method is
    specified by a function of the old state: `UpdateOutcome` for the manager's update,
    and `UpdateSpeakers`, `Terminate`, `Unsubscribed` and `ShutdownOf` for the older
    controller. The lemmas beside them state what the source promises.
- **Protocol value codecs** (`Utils`, `Text`, `Escape`, `Datatypes`, `Speakers`):
  - the `H:MM:SS` duration printer and parser;
  - the `"0"`/`"1"` boolean parser;
  - the PCDATA escaper, which escapes `<` and `&` as section 2.4 of XML 1.0 requires;
  - `RepeatMode` parsing and display;
  - the play-mode table;
  - `pause`'s error filter;
  - `SpeakerInfo` extraction from a `ZoneGroupMember` element, and the
    `ZoneGroupState` topology walk over an abstract element tree.
- **Action plans** (`Snapshots`, `MediaSources`, `Speakers`).
  - `Snapshot::apply`, `play_now` and `queue_as_next` are straight-line sequences of
    speaker calls. Each becomes a plan: a sequence of `Step`s.
  - A method runs the plan against the remote outcomes and returns the trace of steps it
    attempted. `RanUntilFailure` states the shared semantics: steps run in order, and the
    first failing step ends the run.
  - The two seeks that `apply` runs concurrently form one `Joined` step, so the model
    does not order them.

Integers are unbounded in Dafny. Wherever the source does u32 arithmetic, the model
writes the wrap-around out as a release build computes it (`HmsTotal`, `NextPosition`,
`SeekRelTrackCall`). Values the source holds in a `u32` carry a `< U32_LIMIT` bound.

`src/utils.rs` and `src/manager/escape.rs` hold two copies of the same PCDATA escaper,
and one module, `Escape`, models both. The code that escapes favourite metadata,
`src/manager/mediasource.rs:3` (and `src/manager/metadata.rs:3`), imports
`escape_str_pcdata` from the external `xml` crate instead. That crate is not part of
this model: the local copies, which escape `<` and `&`, stand for it.

The tree carries two inconsistencies:

- `src/manager/types.rs` and `src/manager/controller/zoneaction.rs` disagree on
  `ZoneAction` and `Response`. The model takes both from `zoneaction.rs`, where
  `handle_action` uses them.
- `src/controller.rs` is not declared in `src/lib.rs`. It is modelled from its own text.

## Model

| member | source | states |
|---|---|---|
| Datatypes.DefaultRepeatMode | src/datatypes.rs:4-13 | the default repeat mode is `None` |
| Datatypes.FromStr | src/datatypes.rs:30-41 | an accepted string is the name of the returned mode up to ASCII case; every rejection is `ParseRepeatModeError` |
| Datatypes.FromStrAcceptsNamesOnly | src/datatypes.rs:34-38 | a string parses exactly when it is some mode's name in some letter case |
| Datatypes.DisplayRoundTrip | src/datatypes.rs:15-19 | parsing the displayed name, in any letter case, gives the mode back |
| Text.ToLowerAscii | src/speaker.rs:576 | lower-casing keeps the length and maps each character on its own |
| Text.EqIgnoreAsciiCaseIsEquivalence | src/manager/controller.rs:350-357 | case-insensitive name comparison is reflexive, symmetric and transitive |
| Text.ToUpperOfUpperWord | src/speaker.rs:149 | upper-casing an already upper-case word gives it back |
| Text.TrimStartPadding | src/utils.rs:57-63 | trimming the start removes exactly the leading whitespace |
| Text.TrimEndPadding | src/utils.rs:57-63 | trimming the end removes exactly the trailing whitespace |
| Text.TrimPadded | src/utils.rs:57-63 | trimming a padded word gives the word back |
| Text.Decimal | src/utils.rs:34-43 | `to_string` of an unsigned number is a non-empty digit string with no leading zero |
| Text.DecimalRoundTrip | src/utils.rs:34-43 | reading back a printed number gives the number |
| Text.LeadingZero | src/utils.rs:34-43 | a zero pad does not change a digit string's value |
| Text.ParseU32 | src/utils.rs:47-49 | `u32::from_str` accepts only values below 2^32 and never a leading '-' |
| Text.ParseU32Decimal | src/utils.rs:44-55 | every u32 printed in decimal parses back to itself |
| Utils.ArgsAppend | src/utils.rs:11-21 | the `args!` payload of a concatenated list is the concatenation of the payloads |
| Utils.ArgsLength | src/utils.rs:11-21 | the payload's length is the sum of its elements' lengths |
| Utils.DefaultArgsIsArgs | src/speaker.rs:16 | `DEFAULT_ARGS` is what `args!` makes of `InstanceID = 0` |
| Utils.Extract | src/utils.rs:26-32 | returns the key's value and removes only that key; a missing key is `XmlMissingElement` and leaves the map unchanged |
| Utils.Pad2 | src/utils.rs:34-43 | `{:02}` gives at least two digits, exactly two below 100 |
| Utils.Pad2Value | src/utils.rs:34-43 | the padded digits read back as the number |
| Utils.SecondsToStrFields | src/utils.rs:34-43 | a non-negative duration prints as hours (two or more digits), minutes and seconds (two digits each, below 60) that add back up to it |
| Utils.FieldsOfJoined | src/utils.rs:38-42 | three padded fields joined by ':' split back into fields whose weighted sum is the printed value |
| Utils.JoinedFields | src/utils.rs:42 | the two ':' of a joined duration sit at fixed offsets from its end |
| Utils.HmsParts | src/utils.rs:38-40 | whole hours, minutes below 60 and seconds below 60 add back up to the duration |
| Utils.SecondsToStrSign | src/utils.rs:35-36 | a printed duration starts with '-' exactly when it is negative |
| Utils.NegativeSecondsToStr | src/utils.rs:35-36 | a negative duration prints as '-' followed by its absolute value's text |
| Utils.SplitOnce | src/utils.rs:46-49 | splitting at the first ':' gives a part without ':', the separator and the rest; it fails exactly when there is no ':' |
| Utils.HmsTotal | src/utils.rs:51 | the u32 sum `h*3600 + m*60 + s` stays below 2^32 |
| Utils.SecondsFromStr | src/utils.rs:44-55 | a parsed duration is a u32; every failure is `ParseError("invalid duration")` |
| Utils.SplitOnceConcat | src/utils.rs:46-49 | a part without ':' followed by ':' splits off exactly |
| Utils.DigitsHaveNoColon | src/utils.rs:46-49 | a digit string holds no ':' |
| Utils.HmsSum | src/utils.rs:34-55 | the printer's hours, minutes and seconds of a u32 duration sum back to it |
| Utils.ParseU32OfDigits | src/utils.rs:47-49 | a digit string whose value fits a u32 parses to that value |
| Utils.SecondsFromParts | src/utils.rs:44-55 | once split and parsed, the result is the u32 weighted sum of the three fields |
| Utils.SplitFields | src/utils.rs:46-49 | `h:m:s` with digit fields splits into `h`, `m` and `s` |
| Utils.SecondsFromFields | src/utils.rs:44-55 | three digit fields joined by ':' parse to their weighted sum; minutes and seconds are not range-checked |
| Utils.SecondsRoundTrip | src/utils.rs:34-55 | every duration from 0 to u32::MAX prints to a string that parses back to it |
| Utils.NegativeDurationsDoNotParse | src/utils.rs:34-55 | a printed negative duration is rejected by the parser |
| Utils.ParseBool | src/utils.rs:57-63 | after trimming, "0" is false and "1" is true, and anything else is an error (all three as if-and-only-ifs) |
| Utils.ParseBoolRoundTrip | src/utils.rs:57-63 | a boolean sent as a digit, padded with any whitespace, parses back |
| Escape.DispatchForPcdata | src/utils.rs:100-106 | exactly '<' and '&' become entities (`&lt;`, `&amp;`); any other character is passed through |
| Escape.Process.Step | src/utils.rs:115-131 | a plain character leaves a borrowed state borrowed; an entity makes an owned copy; an owned copy only grows |
| Escape.Process.IntoResult | src/utils.rs:133-138 | the result is borrowed exactly when no copy was made |
| Escape.EscapeStrPcdata | src/manager/escape.rs:61-79 | the text is the reference escaping of the input, borrowed (and equal to the input) exactly when the input holds no '<' or '&' |
| Escape.EscapedAppend | src/manager/escape.rs:27-43 | escaping works character by character: escaping a concatenation concatenates the escapings |
| Escape.EscapedLength | src/manager/escape.rs:12-19 | the output length is the input length plus 3 per '<' and 4 per '&' |
| Escape.EscapedIdentity | src/manager/escape.rs:45-51 | escaping changes a string exactly when it holds a '<' or a '&' |
| Escape.NoSpecialUnchanged | src/manager/escape.rs:45-51 | a string without '<' or '&' is its own escaping |
| Escape.EscapedHasNoLt | src/manager/escape.rs:12-19 | the escaped text holds no '<' |
| Escape.UnescapeEscaped | src/manager/escape.rs:12-19 | decoding the two entities gives back the original text |
| Escape.MultibyteExample | src/utils.rs:178-180 | "☃<" escapes to "☃&lt;" |
| Seqs.FindIndex | src/manager/controller.rs:374-379 | `position` finds the first element satisfying the predicate, and none exactly when no element does |
| Seqs.Collect | src/speaker.rs:645-648 | collecting results gives all the values exactly when every element is `Ok`, otherwise the first error |
| Seqs.FlattenContains | src/controller.rs:130-134 | an element is in the flattening exactly when it is in one of the parts |
| Seqs.Filter | src/controller.rs:137-138 | `retain` keeps only elements that satisfy the predicate, and keeps everything when all do |
| Seqs.FilterAppend | src/controller.rs:137-138 | filtering distributes over concatenation |
| Seqs.FilterKeepsPairwise | src/manager/controller.rs:111-115 | `retain` keeps the relative order of what it keeps |
| Seqs.SwapRemoveContents | src/manager/controller.rs:374-379 | `swap_remove` removes exactly one occurrence of the element, keeps every other element, and leaves the positions before it in place |
| Speakers.FromDevice | src/speaker.rs:31-45 | a speaker exactly for a ZonePlayer device with a room name and a UDN; its name is the room name, its location the device URL, and its uuid the UDN after the five-character prefix |
| Speakers.FromDeviceUuid | src/speaker.rs:38-42 | a device announcing `uuid:u` becomes a speaker with uuid `u` |
| Speakers.FindService | src/speaker.rs:530-546 | the service found has the requested type, and there is none exactly when no service has it |
| Speakers.ServiceAndUrl | src/manager/controller.rs:165-187 | the chosen speaker's service of that type with its device URL, or `MissingServiceForUPnPAction` exactly when it has none |
| Speakers.SameSpeakerIsEquivalence | src/speaker.rs:557-561 | `SpeakerInfo` equality (uuid up to ASCII case) is an equivalence |
| Speakers.HashKeyDisagreesWithEq | src/speaker.rs:557-566 | two infos that compare equal hash differently |
| Speakers.FoldedHashKeyAgreesWithEq | src/speaker.rs:557-566 | hashing the lower-cased uuid agrees with equality in both directions |
| Speakers.LastAttributeIsLast | src/speaker.rs:575-582 | the value found is the last attribute with the name in any letter case, and there is none exactly when no attribute has it |
| Speakers.InfoFromAttributes | src/speaker.rs:570-610 | an info exactly when the zone name, uuid and location are all present, built from their last occurrences; otherwise `XmlMissingElement` for the first one missing, in the order name, uuid, location |
| Speakers.LastAttributeStep | src/speaker.rs:575-582 | one more attribute wins exactly when its name matches |
| Speakers.FromXml | src/speaker.rs:570-610 | the attribute loop computes `InfoFromAttributes` |
| Speakers.LastOccurrenceWins | src/speaker.rs:575-582 | a later attribute of the same name, in any letter case, wins |
| Speakers.FindNodeAttribute | src/utils.rs:65-69 | no value exactly when no attribute has the name up to ASCII case |
| Speakers.ExactAttribute | src/speaker.rs:643 | no value exactly when no attribute has exactly that name |
| Speakers.GroupEntry | src/speaker.rs:637-647 | a group without a `Coordinator` attribute is an error; it succeeds exactly when it has one and every visible member's info parses, giving its coordinator with those infos, one per member, in order; otherwise the error of the first member that fails |
| Speakers.GroupEntries | src/speaker.rs:633-637 | one entry per `ZoneGroup` child, in document order |
| Speakers.ExtractZoneTopology | src/speaker.rs:629-649 | succeeds exactly when every `ZoneGroup` child does, with one entry per group in document order |
| Speakers.ExtractedMembersAreVisible | src/speaker.rs:629-649 | every member reported comes from a visible `ZoneGroupMember` of a `ZoneGroup` child, under that group's coordinator |
| Speakers.PlayModeName | src/speaker.rs:170-186 | every play-mode value sent is an upper-case word |
| Speakers.ParsePlayMode | src/speaker.rs:143-160 | a value is accepted, up to case, exactly when it is the table's name for the pair returned; otherwise `InvalidResponse` |
| Speakers.PlayModeNameInjective | src/speaker.rs:170-186 | the six play-mode names are distinct |
| Speakers.PlayModeRoundTrip | src/speaker.rs:143-186 | `playback_mode` reads back what `set_playback_mode` sends as the same pair |
| Speakers.PlaybackMode | src/speaker.rs:143-160 | the response's error, a missing `PlayMode` entry, or the parsed name |
| Speakers.ActionArgs | src/speaker.rs:90-141 | every action payload starts with `InstanceID = 0` |
| Speakers.ActionsStartWithInstanceId | src/speaker.rs:90-127 | every payload starts with `DEFAULT_ARGS`; stop, pause, next, previous and clear-queue send exactly that |
| Speakers.SkipToTargetRoundTrip | src/speaker.rs:129-132 | the `Target` of `skip_to` reads back with `seconds_from_str` as the position asked for |
| Speakers.PauseResult | src/speaker.rs:100-108 | `Ok` exactly on success, on HTTP status 500 and on UPnP error 701; any other error passes through unchanged |
| Speakers.AttemptedCount | src/snapshot.rs:58-86 | no more steps are attempted than the plan has |
| Speakers.RunStopsAtFirstFailure | src/snapshot.rs:58-86 | a run attempts exactly the steps up to and including the first failure, and succeeds exactly when every step does |
| Speakers.RunIsDeterminate | src/snapshot.rs:58-86 | two runs of one plan against the same outcomes attempt the same steps |
| Speakers.RunStep | src/snapshot.rs:72-76 | a joined step succeeds exactly when both calls do, and fails with one of their errors |
| Speakers.RunAppend | src/manager/mediasource.rs:55-60 | a successful run of one plan followed by a run of another is a run of the two together |
| Speakers.RunAbortsBefore | src/manager/mediasource.rs:55-60 | a failure in the first part ends the run of any longer plan there |
| Speakers.RunFailsAt | src/manager/mediasource.rs:55-60 | after a completed prefix, a failing step ends the run and nothing later is attempted |
| Speakers.RunOptionalStep | src/snapshot.rs:59-61 | an optional step run alone is a run of the plan of zero or one step |
| Speakers.RunStage | src/snapshot.rs:58-86 | one `?` stage either ends the run with its error or extends the completed prefix |
| Speakers.RunStageStep | src/snapshot.rs:58-86 | running one optional step after a completed prefix does what `RunStage` states |
| Speakers.EmptyPlanRun | src/snapshot.rs:58-86 | an empty plan attempts nothing and succeeds |
| Speakers.SetRepeatModeKeepsShuffle | src/speaker.rs:187-190 | `set_repeat_mode` sends a play mode that reads back as the new repeat mode with the shuffle flag in force, or passes on the query's error |
| Speakers.SetShuffleKeepsRepeatMode | src/speaker.rs:191-194 | `set_shuffle` sends a play mode that reads back as the repeat mode in force with the new shuffle flag, or passes on the query's error |
| Speakers.JoinCall | src/speaker.rs:417-425 | `x-rincon:{uuid}` of the first member whose name matches in any ASCII case, and nothing exactly when no member's does |
| Speakers.Join | src/speaker.rs:407-431 | the state's error; or `false` with no call; or one call, with `true` exactly when it succeeds and the call's own error when it fails |
| Speakers.JoinWithoutMatch | src/speaker.rs:427-430 | with no member of that name in any group, `join` answers `false` and calls nothing |
| Snapshots.Snapshot.constructor | src/snapshot.rs:7-14 | a default snapshot records nothing |
| Snapshots.Snapshot.SetVolume | src/snapshot.rs:18-21 | sets the volume and leaves the other three fields unchanged |
| Snapshots.Snapshot.SetIsPlaying | src/snapshot.rs:23-27 | sets the playing state and leaves the other three fields unchanged |
| Snapshots.Snapshot.SetTrackInfo | src/snapshot.rs:30-33 | sets the track info and leaves the other three fields unchanged |
| Snapshots.Snapshot.SetTransportUri | src/snapshot.rs:36-39 | sets the transport URI and leaves the other three fields unchanged |
| Snapshots.Snapshot.FromSpeaker | src/snapshot.rs:41-56 | succeeds exactly when all four queries do, with volume and playing state always present; otherwise fails with one of their errors |
| Snapshots.Snapshot.Apply | src/snapshot.rs:58-86 | runs the snapshot's restore plan up to the first failure |
| Snapshots.ApplyEmpty | src/snapshot.rs:58-86 | applying a default snapshot calls nothing and succeeds |
| Snapshots.VolumeComesFirst | src/snapshot.rs:59-61 | the volume is set first, and only when it was recorded |
| Snapshots.TransportUriRule | src/snapshot.rs:63-69 | a URI is set exactly when one is recorded and it does not start with "x-sonos-vli"; it is set with empty metadata |
| Snapshots.TrackPositionRule | src/snapshot.rs:71-77 | recorded track info gives one joined step of both seeks, with no order between them; without it every step is a single call |
| Snapshots.PlayStateComesLast | src/snapshot.rs:79-83 | the last step is pause when stopped and play when playing; with no state, neither is called |
| MediaSources.EntryTitled | src/manager/mediasource.rs:22-24 | the first entry whose title matches in any ASCII case, and nothing exactly when none does |
| MediaSources.FirstTitledUnique | src/manager/mediasource.rs:22-24 | the first matching entry is unique |
| MediaSources.LaterEntriesIgnored | src/manager/mediasource.rs:22-24 | entries after the first match are never looked at |
| MediaSources.PlaylistUri | src/manager/mediasource.rs:20-27 | resolves exactly when the first matching playlist has a URI; the metadata is empty |
| MediaSources.FavoriteUri | src/manager/mediasource.rs:28-35 | resolves exactly when the first matching favourite has a URI and metadata; the metadata is PCDATA-escaped |
| MediaSources.FavoriteMetadataIsEscaped | src/manager/mediasource.rs:34 | a resolved favourite's metadata holds no raw '<' |
| MediaSources.UriAndMetadata | src/manager/mediasource.rs:16-37 | streaming media goes through its resolver; a playlist or favourite comes from the content directory, and a failed browse resolves to nothing |
| MediaSources.PlayNow | src/manager/mediasource.rs:52-61 | unresolved media is `ContentNotFound` with no call; otherwise the four calls run in order up to the first failure |
| MediaSources.RunPlayNowPlan | src/manager/mediasource.rs:55-60 | the four awaited calls run up to the first failure |
| MediaSources.PlayNowOrder | src/manager/mediasource.rs:55-60 | the queue is always cleared first; play is asked for only after the three earlier calls succeeded; success means all four ran and succeeded |
| MediaSources.CachedTrackNumber | src/manager/mediasource.rs:43 | the as-written lookup takes the first cached value whatever its key, and nothing only when the cache is empty |
| MediaSources.CurrentTrackEntry | src/manager/mediasource.rs:42-43 | the intended lookup takes the value of the first "CurrentTrack" entry in any ASCII case |
| MediaSources.CachedTrackNumberIgnoresKey | src/manager/mediasource.rs:43-44 | with the play mode cached first, the as-written lookup reads "NORMAL", which fails to parse; the intended lookup reads 3 |
| MediaSources.CachedTrackNumberWhenFirstIsCurrentTrack | src/manager/mediasource.rs:43 | the two lookups agree when the first entry is the current track |
| MediaSources.CurrentTrackNo | src/manager/mediasource.rs:43-46 | a cached value must parse as a u32 or the result is `ContentNotFound`; with an empty cache, the live track number, 0 when nothing plays, or the query's error |
| MediaSources.NextPosition | src/manager/mediasource.rs:48 | the position after the current track, wrapping to 0 after u32::MAX |
| MediaSources.QueueAsNext | src/manager/mediasource.rs:40-50 | the current track number first, then the media, each error returned before any call; otherwise a single `queue_next` right after the current track |
| ManagerController.PositionByUuid | src/manager/controller.rs:368-372 | the first record whose uuid matches in any ASCII case, and none exactly when no record's does |
| ManagerController.PositionIsOnlyMatch | src/manager/controller.rs:368-372 | in a registry without duplicates, the record found is the only match |
| ManagerController.AvTransportSubscription | src/manager/controller.rs:148-163 | a subscription to the speaker's AVTransport service at its URL, for its uuid; nothing exactly when the service is missing or subscribing fails |
| ManagerController.Reduce | src/manager/controller.rs:94-102 | one reduced group per group, in order: the same coordinator uuid and, member by member, each member's uuid |
| ManagerController.Retained | src/manager/controller.rs:111-115 | `retain` keeps only records the snapshot still names, and keeps them all when it names them all |
| ManagerController.AbsorbEffect | src/manager/controller.rs:118-142 | one turn updates a matching record's info in place, or appends a new record with empty transport data that queues one stream exactly when it holds a subscription; a failure changes nothing and carries the build error |
| ManagerController.FailureSticks | src/manager/controller.rs:118-142 | after a failure, later infos change nothing |
| ManagerController.AbsorbAllStep | src/manager/controller.rs:118-142 | the loop over one more info is one more turn |
| ManagerController.CountSubscribed | src/manager/controller.rs:132-140 | no more records hold a subscription than there are records |
| ManagerController.CountSubscribedPointwise | src/manager/controller.rs:132-140 | the count depends only on the records' subscriptions |
| ManagerController.AbsorbKeepsNewRecordsEmpty | src/manager/controller.rs:126-140 | one turn keeps appended records' transport data empty |
| ManagerController.AbsorbQueuesHandle | src/manager/controller.rs:132-139 | one turn queues a stream exactly when it appends a subscribed record |
| ManagerController.AbsorbStaysInSnapshot | src/manager/controller.rs:118-142 | one turn keeps every record naming a snapshot member |
| ManagerController.AbsorbCovers | src/manager/controller.rs:118-142 | a successful turn keeps every uuid covered and covers its own |
| ManagerController.AbsorbAllKeepsRecords | src/manager/controller.rs:118-142 | existing records stay in place with only their info replaced; new ones follow with empty transport data |
| ManagerController.AbsorbAllQueuesHandles | src/manager/controller.rs:118-142 | one stream is queued per appended record holding a subscription, after the streams already queued |
| ManagerController.AbsorbAllStaysInSnapshot | src/manager/controller.rs:118-142 | every record after the loop names a snapshot member |
| ManagerController.AbsorbAllCoversInfos | src/manager/controller.rs:118-142 | a successful loop leaves a record for every incoming uuid |
| ManagerController.AbsorbKeepsUnique | src/manager/controller.rs:118-142 | one turn keeps uuids unique |
| ManagerController.AbsorbAllKeepsUnique | src/manager/controller.rs:118-142 | the loop keeps uuids unique, whether it succeeds or fails |
| ManagerController.RetainedKeepsUnique | src/manager/controller.rs:111-115 | dropping records keeps uuids unique |
| ManagerController.UpdateFromTopologyKeepsRecords | src/manager/controller.rs:111-142 | retained records keep their place, identity, transport data and subscription, with only the info replaced; new records follow with empty transport data; one stream is queued per new subscribed record |
| ManagerController.UpdateFromTopologyDropsAbsent | src/manager/controller.rs:111-115 | afterwards, successful or not, every record's uuid matches an incoming member's |
| ManagerController.UpdateFromTopologyOneRecordPerUuid | src/manager/controller.rs:93-146 | no duplicates are ever created, and on success each incoming uuid has exactly one record |
| ManagerController.Controller.constructor | src/manager/controller.rs:51-53 | a new controller has an empty registry, topology and queue, and no topology subscription |
| ManagerController.Controller.UpdateFromTopology | src/manager/controller.rs:93-146 | the registry and queued streams become the update's outcome, even a partial one; the topology becomes the reduced snapshot on success and is left unchanged on failure |
| ManagerController.Controller.SpeakerWithName | src/manager/controller.rs:350-357 | the first record whose room name matches in any ASCII case, and none exactly when no record's does |
| ManagerController.Controller.SpeakerdataByUuid | src/manager/controller.rs:368-372 | the first record whose uuid matches in any ASCII case, and none exactly when no record's does |
| ManagerController.Controller.SpeakerByUuid | src/manager/controller.rs:359-366 | the speaker of the record `get_speakerdata_by_uuid` finds |
| ManagerController.Controller.CoordinatorUuid | src/manager/controller.rs:391-399 | the coordinator of the first group listing the uuid in any ASCII case, and none exactly when no group lists it |
| ManagerController.Controller.CoordinatorForUuid | src/manager/controller.rs:391-399 | the coordinator's speaker exactly when the group is found and the coordinator is registered |
| ManagerController.Controller.CoordinatordataForUuid | src/manager/controller.rs:401-409 | the coordinator's record exactly when the group is found and the coordinator is registered |
| ManagerController.Controller.CoordinatorForName | src/manager/controller.rs:381-384 | name, then group, then coordinator; any miss gives nothing |
| ManagerController.Controller.CoordinatordataForName | src/manager/controller.rs:386-389 | the same three steps, ending in the coordinator's record |
| ManagerController.Controller.CoordinatorLookupsAgree | src/manager/controller.rs:381-389 | both name lookups find the same coordinator |
| ManagerController.Controller.CoordinatorForNameIsGroupCoordinator | src/manager/controller.rs:381-399 | the speaker found is the registered coordinator of a group that lists the named speaker |
| ManagerController.Controller.PopSpeakerdataByUuid | src/manager/controller.rs:374-379 | `swap_remove` of the first match, returned; with no match, `None` and nothing changes |
| ManagerController.Controller.UpdateAvtransportData | src/manager/controller.rs:411-416 | replaces the transport data of the first match only; with no match nothing changes |
| ManagerController.Controller.GetAServiceAndUrl | src/manager/controller.rs:165-187 | `NoSpeakersDetected` exactly for an empty registry; otherwise the service and URL of some registered speaker |
| ManagerController.Controller.DiscoverSystem | src/manager/controller.rs:65-71 | a discovery error is returned with nothing changed; otherwise the update's outcome, with its own error only logged |
| ManagerController.Controller.TopologySubscriptionLost | src/manager/controller.rs:241-257 | without speakers, `NoSpeakersDetected` with nothing changed; otherwise, for some speaker picked: its missing service is returned with nothing changed; a successful subscription without a uuid becomes the topology subscription and its stream is queued, the registry and topology untouched; a failed one leaves the subscriber empty and the state that rediscovery gives |
| ManagerController.Controller.SubscribeTopology | src/manager/controller.rs:243-256 | with a service and URL found: a fresh subscriber subscribes without a uuid; success is stored and its stream queued; failure leaves no subscription and rediscovers the system |
| ManagerController.Controller.TransportSubscriptionLost | src/manager/controller.rs:258-283 | the record is moved to the end and keeps its old speaker; its subscription is redone for the rebuilt speaker; the uuid stays registered |
| ManagerController.Controller.HandleEvent | src/manager/controller.rs:192-290 | topology updates are absorbed; transport data is stored for the first record with its uuid, nothing changing without one; a lost AVTransport subscription moves the record to the end and redoes its subscription, as `TransportSubscriptionLost` states; a lost topology subscription is recovered as `TopologySubscriptionLost` states; other events change nothing; only a failed recovery of the topology subscription is returned as an error |
| ZoneActions.SeekRelTrackCall | src/manager/controller/zoneaction.rs:139-147 | as written, the seek goes to track 1 or to the delta itself |
| ZoneActions.SeekRelTarget | src/manager/controller/zoneaction.rs:139-147 | the track meant is the current track moved on by the delta, and at least 1 |
| ZoneActions.SeekRelTrackSeeksDelta | src/manager/controller/zoneaction.rs:145 | from track 3, moving on by 2 seeks track 2 where track 5 is meant |
| ZoneActions.SeekRelTrackAgreesFromStart | src/manager/controller/zoneaction.rs:139-147 | without overflow, the as-written seek is the intended one exactly when counting from track 0 |
| ZoneActions.ActionPlanShapes | src/manager/controller/zoneaction.rs:65-93 | each action's calls: one for the plain actions, crossfade for `SetShuffle`, the snapshot's plan, `play_now`'s four calls, the as-written seek, and none for the queries |
| ZoneActions.Issue | src/manager/controller/zoneaction.rs:72-86 | one awaited speaker call is a run of a one-step plan |
| ZoneActions.Run | src/manager/controller/zoneaction.rs:33-63 | success exactly when the action succeeds, with the calls its plan makes; the reply is the queue, a fresh snapshot of the four queries, or `Ok` |
| ZoneActions.RunCalls | src/manager/controller/zoneaction.rs:65-93 | an action that makes calls runs its plan up to the first failure, or fails with no call before its plan starts |
| ZoneActions.HandleAction | src/manager/controller/zoneaction.rs:27-108 | exactly one reply: `Exists` answers from the registry; a missing coordinator is `NotOk` with no call; otherwise `NotOk` exactly when the action fails; the handler always returns `Ok` |
| ZoneActions.LookupCoordinator | src/manager/controller/zoneaction.rs:33-63 | the record lookup and the speaker lookup find the same coordinator |
| ZoneActions.ExistsImpliesNameLookup | src/manager/controller/zoneaction.rs:94-104 | a name `Exists` accepts is found by the case-insensitive lookup |
| ZoneActions.ExistsIsCaseSensitive | src/manager/controller/zoneaction.rs:94-104 | with "Kitchen" registered, "kitchen" is found by the lookup but does not exist |
| ZoneActions.SetShuffleSetsCrossfade | src/manager/controller/zoneaction.rs:85 | `SetShuffle` sends the crossfade flag, while the speaker's `set_shuffle` would set the play mode's shuffle flag |
| SystemController.SubscribeFillsEveryField | src/controller.rs:225-263 | a successful subscription fills all six fields; a failed one changes none |
| SystemController.TerminateStopsBothTasks | src/controller.rs:295-312 | both handles end empty and each present one is called; `Ok` exactly when both were present, otherwise the first missing one is named; nothing else changes |
| SystemController.TerminateTwice | src/controller.rs:295-312 | a second call calls nothing, changes nothing and reports the missing listener |
| SystemController.UnsubscribeChecksInOrder | src/controller.rs:280-293 | the remote call is made exactly when service, url and sid are all present, and all three are then cleared; a missing field is a `SubscriberError`; a missing service leaves url and sid untouched |
| SystemController.UnsubscribeTwice | src/controller.rs:280-293 | a second unsubscribe finds no service and changes nothing |
| SystemController.ShutdownResultMeaning | src/controller.rs:314-322 | `Ok` exactly when both tasks stopped and unsubscribing succeeded or failed with an HTTP code; a termination error wins |
| SystemController.ShutdownOfSubscribed | src/controller.rs:314-322 | a subscribed handle stops both tasks, unsubscribes with its own service, url and sid, and empties every field except the sender |
| SystemController.ShutdownOfIdle | src/controller.rs:314-322 | an idle handle calls nothing and reports the missing listener |
| SystemController.Subscriber.constructor | src/controller.rs:32-40 | a default handle has every field empty |
| SystemController.Subscriber.Subscribe | src/controller.rs:225-263 | the new state is the subscription's effect on the fields, and the result is the remote answer's |
| SystemController.Subscriber.TerminateTasks | src/controller.rs:295-312 | the new state, the result and the handles called are those of `Terminate` |
| SystemController.Subscriber.Unsubscribe | src/controller.rs:280-293 | the new state, the result and the remote call are those of `Unsubscribed` |
| SystemController.Subscriber.Shutdown | src/controller.rs:314-322 | termination, then unsubscription, with the combined result |
| SystemController.Subscriber.Drop | src/controller.rs:325-328 | dropping stops the tasks as `terminate_tasks` does and discards the result |
| SystemController.UuidsOf | src/controller.rs:130-134 | the member uuids in order, repeats kept |
| SystemController.SpeakerUuids | src/controller.rs:140 | the speakers' uuids in order |
| SystemController.FirstWithUuid | src/controller.rs:147-151 | an info found carries the uuid |
| SystemController.FirstWithUuidIsFirst | src/controller.rs:147-151 | the first info with exactly that uuid, and none exactly when no info has it |
| SystemController.AddStep | src/controller.rs:145-157 | one more loop turn pushes the built speaker, or stops on an error or a non-Sonos result |
| SystemController.AddStopsAtFailure | src/controller.rs:152-155 | after the loop stops, later uuids add nothing |
| SystemController.AddOnePerUuid | src/controller.rs:145-157 | a finished loop adds one speaker per uuid, in order, built from the first info with that uuid |
| SystemController.AddedAreMembers | src/controller.rs:145-157 | every speaker added has one of the uuids |
| SystemController.UnknownAreMembers | src/controller.rs:140-143 | every new uuid is an incoming one, so its info is found |
| SystemController.UpdateKeepsOnlyMembers | src/controller.rs:130-138 | afterwards, successful or not, every speaker's uuid is exactly one of the incoming members' |
| SystemController.UuidsAmongConcat | src/controller.rs:156 | pushing speakers with member uuids keeps every uuid a member's |
| SystemController.UpdateAppendsUnknown | src/controller.rs:137-157 | retained speakers come first in their order; on success one speaker follows per new uuid, in member order |
| SystemController.ConcatParts | src/controller.rs:156 | the pushed speakers follow the retained ones |
| SystemController.DuplicateUuidAddedTwice | src/controller.rs:140-157 | a uuid listed twice among the members is built and appended twice |
| SystemController.FilterNone | src/controller.rs:137-138 | retaining nothing leaves nothing |
| SystemController.UpdateCoversMembers | src/controller.rs:126-161 | after a successful update every incoming uuid has a speaker |
| SystemController.CoveredByParts | src/controller.rs:140-157 | retained speakers plus one per new uuid cover every incoming uuid |
| SystemController.KeptUuidStays | src/controller.rs:156 | pushing keeps the retained uuids |
| SystemController.UuidPresent | src/controller.rs:156 | a pushed speaker's uuid is present |
| SystemController.UpdateTwiceChangesNothing | src/controller.rs:126-161 | repeating a successful update with the same members changes nothing |
| SystemController.UnknownIndex | src/controller.rs:140-143 | an incoming uuid that no retained speaker has is among the new ones |
| SystemController.FilterIndex | src/controller.rs:140-143 | an element that passes `retain` is in its result |
| SystemController.Controller.constructor | src/controller.rs:67-74 | a default controller has no speakers, no topology and an idle subscriber |
| SystemController.Controller.UpdateFromTopology | src/controller.rs:126-161 | the speakers become `UpdateSpeakers` of the members, even a partial result; the topology is stored exactly on success |
| SystemController.Controller.PushNewSpeakers | src/controller.rs:145-157 | pushes the loop's speakers, and returns the first build error |
| SystemController.Controller.GetAServiceAndUrl | src/controller.rs:163-184 | `NoSpeakersDetected` exactly for no speakers; otherwise the service and URL of some speaker |

## Left out

- Network I/O of every kind is not modelled: SSDP discovery, device descriptions, UPnP
  SOAP calls, event subscriptions and their renewal. Each call's result is a parameter or
  an outcome function (`remote`, `Network`, `Catalog`, `Outcomes`).
- `Speaker::action` and the rupnp `Device`/`Service` calls are outcome functions.
  `Speaker::from_speaker_info` is `Network.fromSpeakerInfo` (manager) or `build`
  (crate controller). `FaithfulLookup` and `KeepsUuid` assume that it builds the speaker
  asked about.
- Both controllers' `run` loops, `init` and `new` are not modelled, and neither are
  `spawn_interruptable`, the listener and renewal-timer tasks, and the `select!` and
  stream plumbing. Their point is concurrency. Only the individual handlers are
  modelled, as sequential steps. `SystemController.Subscriber.Subscribe` takes the two
  spawned tasks' abort handles as parameters. The panic when `tx.send` fails inside a
  task is not modelled.
- The manager's `subscriber` module is not part of this model. Its `subscribe` is
  `Network.subscribe`.
- XML parsing through roxmltree is not modelled. The input is an abstract element tree
  of tag names, attributes and children. `find_root_node` is not modelled either.
- rupnp's `find_node_attribute` is not part of this model. It is taken to find the first
  attribute whose name matches in ASCII case.
- Lower-casing is ASCII only. `from_xml` (src/speaker.rs:576) and `RepeatMode::from_str`
  (src/datatypes.rs:34) lower-case with Unicode rules. The only non-ASCII character
  those rules map to ASCII is the Kelvin sign (to `k`), and none of the words matched
  (`uuid`, `location`, `zonename`, `none`, `one`, `all`) holds a `k`, so every decision
  agrees. The lowered text of other characters is not modelled.
- Upper-casing in `playback_mode` (src/speaker.rs:149) is `Text.ToUpper`. It maps every
  character whose upper-case form is all ASCII: the ASCII letters, the dotless i, the
  long s, the sharp s and the Latin ligatures (so `ſhuffle` reads as `SHUFFLE`). Any
  other non-ASCII character is kept as it is. Its real upper-case form is not ASCII
  either, so no decision changes, but that form is not modelled.
- The escaper works on characters, while the Rust source indexes the UTF-8 bytes of the
  string. The escaped text is the same.
- A debug build panics on u32 overflow in `seconds_from_str`, `queue_as_next`'s
  `cur_track_no + 1` and `seek_rel_track`'s sum. These overflows are modelled with
  release-build wrap-around.
- Logging and printing are left out.
- Speaker `track`, `queue`, `browse`, `volume`, `is_playing`, `transport_uri`,
  `music_services` and the other getters are outcome parameters. So are the
  `Track`/`Content` internals, the Apple and Spotify resolvers (`Catalog.apple`,
  `Catalog.spotify`), `RepeatMode::set` (`Outcomes.setRepeat`) and
  `SpeakerData::get_current_track_no` (`Outcomes.currentTrackNo`).
- `update_name`, `play_or_pause`, `skip_by`, `leave`, `queue_end`, `remove_track` and the
  volume, bass, treble and loudness setters are outside the modelled core.
- The debug-only `_add_speaker`/`_drop_speaker` and `add_speaker`/`drop_speaker` are
  not modelled.
- `SystemController.Controller.UpdateFromTopology` excludes, by its precondition
  `!UpdatePanics`, the `unwrap` panic of `src/controller.rs` when the speaker built for a
  new uuid is not a Sonos device. In the loop model that case is the `Panicked` stop.
- `ManagerController.Controller.HandleEvent` excludes, by its precondition, an
  `AV_TRANSPORT` subscription error without a uuid, which panics on `unwrap`.
- The `AVTransUpdate` branch's debug-only `unwrap` of the speaker name is not modelled.
- `fastrand`'s choice in `get_a_service_and_url` is any index in range.
- The reply channel is not modelled. `HandleAction` returns the one reply it sends, and
  a closed channel is ignored, as `unwrap_or(())` does.
- `ZoneActions.Run`, and through it `ZoneActions.HandleAction`, do not state which
  error a failed action reports. `handle_action` only logs it and answers `NotOk`.
- `SetRepeat` runs `RepeatMode::set`, which is not part of this model. Its outcome
  decides success, and its calls do not appear in the trace.
- SystemController.Subscriber.TerminateTasks, SystemController.Subscriber.Shutdown,
  SystemController.Subscriber.Drop: calling an abort handle always succeeds in the
  model. In the source a handle is `tx.send(()).unwrap()` (src/controller.rs:276). It
  panics once its task has ended and dropped the receiver, for example after the
  listener's event stream ran out (src/controller.rs:239). `terminate_tasks` calls the handles
  (src/controller.rs:300, 307), and `shutdown` and `Drop` call `terminate_tasks`
  (src/controller.rs:315, 327). That panic is not modelled.
- Utils.SecondsToStr, Utils.SecondsToStrSign, Utils.NegativeSecondsToStr: the most
  negative i64 is excluded by the precondition. Its `abs()` (src/utils.rs:36) overflows:
  a debug build panics and a release build keeps the negative value. Neither is
  modelled.
- Speakers.FromDevice: a UDN shorter than five characters is excluded by the
  precondition. Its `[5..]` slice (src/speaker.rs:34) panics. The source slices UTF-8
  bytes and the model slices characters. They agree on the `uuid:` prefix speakers
  announce, but a UDN whose first five characters are not ASCII is cut elsewhere, or
  panics in the source, and that is not modelled.
- `MediaSources.EntryTitled` finds the first matching entry in any ASCII case. The
  source's `eq_ignore_ascii_case` is exactly that.

## Findings

| source | as written | input that shows it | evidently intended | confidence | as-written member | corrected member |
|---|---|---|---|---|---|---|
| src/speaker.rs:557-566 | `eq` compares uuids ignoring ASCII case, while `hash` hashes the uuid as it is | infos with uuids "RINCON_a" and "RINCON_A" compare equal and hash differently, which `Hash` forbids | hash the lower-cased uuid | not executed | Speakers.HashKeyDisagreesWithEq | Speakers.FoldedHashKeyAgreesWithEq |
| src/manager/controller/zoneaction.rs:139-147 | the sum of the current track and the delta only decides whether to seek track 1; otherwise the delta itself is sought | from track 3, `SeekRelTrack(2)` seeks track 2 | seek track current + delta (at least 1) | not executed | ZoneActions.SeekRelTrackSeeksDelta | ZoneActions.SeekRelTarget |
| src/manager/mediasource.rs:43 | the `find_map` closure discards the key comparison and answers `Some(v)` for every entry, so the first cached value is read whatever its key | cache `[("CurrentPlayMode","NORMAL"), ("CurrentTrack","3")]`: "NORMAL" is read, does not parse, and `queue_as_next` fails with `ContentNotFound` | read the value of the "CurrentTrack" entry | not executed | MediaSources.CachedTrackNumberIgnoresKey | MediaSources.CurrentTrackEntry |
| src/manager/controller/zoneaction.rs:85 | `SetShuffle(state)` calls `set_crossfade(state)` | `SetShuffle(true)` turns crossfade on and leaves the play mode's shuffle flag as it was | call `set_shuffle(state)` | not executed | ZoneActions.SetShuffleSetsCrossfade | Speakers.SetShuffleKeepsRepeatMode |
