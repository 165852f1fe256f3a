# Verification model of the listening-room node server

This project models the state machines under the server's Go plumbing and proves what they
keep over every run. There are six parts.

- **Playback** (`PlaybackMachine`, `PlaybackRoom`, and the theorems in `NeverStuck`,
  `PositionAccounting`, `QueueDiscipline`, `QueueHistory`, `StartOnce`, `ReadyReports`, `EarlyStart`,
  `PlaybackHistory`, `Surroundings`, `StreamReady`). A room prepares a track, waits for ready
  reports or a ready timer, schedules the start, is paused, resumed, sought and skipped, ends the
  track by a timer and goes on. `PlaybackMachine` has one function for each region run under the
  room's lock and interleaves any number of calls that are between two such regions. A timer that
  goes off becomes such a call, so a callback that has fired may still wait for the lock when its
  timer is stopped. `PlaybackRoom.Room` is the object with the fields of the Go structs; each of
  its methods is proved to take exactly the machine's step, so the theorems are about it.
- **Membership** (`Membership`, `MembershipRoom`, `MembershipRuns`, `ResumeRoundTrip`,
  `HostSuccession`, `EmptyRoom`). Connected clients, held places, resume tokens, join order, host, empty timer.
- **Segments** (`SegmentJobs`, `SegmentTable`, `SingleFlight`, `SegmentOutcomes`, `SegmentMath`, `SegmentNames`,
  `MediaNames`). The keyed single-flight with five slots for any number of threads, the arithmetic
  that cuts a track, and the names that are printed and parsed.
- **Full files** (`CachePlan`, `CachePattern`, `PatternLaws`, `FullCache`, `CacheHistory`, `PipelineObject`). The greedy planner, the
  reconciler, and the track table with the files on disk while downloads finish at any time; which
  files a deletion removes follows the syntax of Go's `filepath.Match` and the cleaning of paths.
- **Broadcaster** (`BroadcastMachine`, `BroadcastObject`, `NoLostWakeup`, `BroadcastHistory`). The channels that pause
  and resume a stream.
- **Shared media** (`MediaRelease`, `RegistryObject`). When a track's media may be deleted.

Every machine has a `ValidRun`, a sequence of actions each enabled where it is taken, and an `Exec`,
the state the run ends in; a theorem about a run holds in every reachable state. Each part also has
histories, functions that read what a field must hold off the actions of the run, and theorems that
it does hold that; so no step can leave out or alter what its action is for. Time is an integer
in milliseconds that only grows and is read once in each region. Messages are an append-only log in
the order in which the room decides to send them.

The environment is free except for what `Enabled` says, and these assumptions are made:

- A fresh join brings an ID no member has, and tokens never repeat
  (`internal/wsapi/handler.go:37-40`, `internal/room/room.go:384-390`). Two connections that came to
  share an ID through a resume can break the first (`SharedIdBreaksTables`); `FreshJoinSoundIff` shows
  that it is exactly what the tables need.
- A connection joins only while it stands for no member of the room
  (`internal/wsapi/handler.go:64-68,82-86`).
- Only tracks that are planned are ensured or evicted. They are no uploads, so their IDs are the 16
  hexadecimal digits the program makes (`internal/media/cache.go:29-33`,
  `internal/media/pipeline.go:123-128,402-405`). Any ID may be resolved or deleted.
- The callback of the empty timer, a call of the registry, and the ensure, evict, completion, resolve
  and delete steps of the full-file cache are each atomic. The playback machine, the segment threads
  and the broadcaster interleave at the grain of their locked regions and channel operations.

Five results are not what one would first write down, because the code does something else. Each
has a concrete input and an exact condition:

- The host role can be left with somebody who is gone (`StrandedHost`). `HostStaysMemberIff` gives
  the condition for one step and `HostIsAlwaysMember` the theorem for runs.
- A track skipped while preparing and enqueued again can start before its deadline with a client not
  ready, because the ready timer of the first preparation stays armed (`StaleReadyTimer`) or because a
  ready report of the first preparation still owes its start (`StaleReadyReport`). `EarlyStartIff`
  says exactly which preparations this can happen to, and `StartsOnTime` what holds of all others.
- Deleting a track uses its ID as a file pattern, and the text after "upload://" is an ID as it
  stands, so a deletion can take the published full file of another track
  (`UploadDeleteBreaksCache`). `DeleteCoherentIff` gives the condition for one deletion and
  `RunCoherentIff` the one for a run; deleting only IDs the program makes meets it
  (`DigestsStayCoherent`).
- A ready report for the playing track of a stream room panics with the room's lock held
  (`OneReportWedges`), exactly then (`RoomWedgesIff`), and the room stays as it is for good
  (`WedgedIsForever`).
- A stream room without a broadcaster never plays (`NoBroadcasterNoPlayback`), so the theorem about
  starts that are never lost leaves that mode out.

## Model

| member | source | states |
|---|---|---|
| `NeverStuck.PlaybackIsNeverStuck` | internal/room/playback.go:49-310 | in every reachable signal-mode state with a current track exactly one holds, whatever calls are in flight: unstarted with its ready timer armed; paused without end timer; running with one end timer due at exactly `t0 + max(0, durationMs - s) + 750`; of unknown duration without end timer; or its timer has fired and the callback is about to take the lock |
| `NeverStuck.RunIsLive` | internal/room/playback.go:49-310 | the inductive invariant behind it, with the freshness of timer handles and the silenced ready timer of a started track, over every run |
| `PositionAccounting.PositionIsAccounted` | internal/room/playback.go:173-268 | over any run the live position equals last start or seek target, plus unpaused wall time since, minus 2000 ms for every start, resume and playing seek counted; the account never reads `t0` or `s` |
| `PositionAccounting.NaturalEndPosition` | internal/room/playback.go:49-64 | an end timer only goes off for the current, unpaused track, and once its position reached `max(durationMs, s) + 750`; it is due exactly then |
| `PositionAccounting.PauseResumeCostsOneBuffer` | internal/room/playback.go:193-242 | a pause undone at once costs 2000 ms of position, also inside the start buffer where `s` goes negative |
| `PositionAccounting.FlagsAreHistory` | internal/room/playback.go:173-242 | over any run a track is started exactly when a start of it has run since it was installed, and paused exactly when the last pause or resume since then was a pause |
| `PositionAccounting.AnchorIsHistory` | internal/room/playback.go:173-268 | over any run `t0` is the time of the last pause or paused seek, or 2000 ms after the last start, resume or playing seek, whichever came last |
| `StartOnce.OneStartOneResync` | internal/room/playback.go:118-191 | over any interleaving an instance is started at most once and is started exactly if its start is in the log; a client gets at most one late resync for it, never if it was ready before the start |
| `ReadyReports.ReadyIffReported` | internal/room/playback.go:118-136 | over any run the ready set of the current playback is exactly the clients that reported for it since it was installed |
| `ReadyReports.LateReportIsAnswered` | internal/room/playback.go:125-133 | the first report of a client for a playing track is answered with one message carrying the anchor of that moment, any later one with none, and nothing else changes |
| `ReadyReports.ReportersAreAnsweredOnce` | internal/room/playback.go:118-149 | over any run, once a track is started every client that reported for it was ready before its start or has had exactly one resync, and nobody else has had one |
| `EarlyStart.EarlyStartIff` | internal/room/playback.go:81-191 | for every preparation in every reachable state: some continuation is about to start it before its own deadline, with a connected client not ready and nothing having earned that start, if and only if at the prepare a start of the ID was still owed or a ready timer of the ID due earlier was still armed |
| `EarlyStart.StartsOnTime` | internal/room/playback.go:81-191 | in every other case, over every run, a call about to start this instance was earned after its prepare, by its own timer or by a report or recheck that found every connected client ready, or its deadline is past |
| `EarlyStart.StartsAreEarned` | internal/room/playback.go:105-171 | a start of an ID comes to be owed exactly when a ready timer armed for the ID goes off or a report or recheck finds every connected client ready for it |
| `EarlyStart.StaleReadyTimer` | internal/room/playback.go:287-310 | a concrete run after which the second preparation of a track can start early by the first one's timer, no start being owed |
| `EarlyStart.StaleReadyReport` | internal/room/playback.go:136-148 | a concrete run after which it can start early by a call of the first one's ready report, no timer being due |
| `StreamReady.RoomWedgesIff` | internal/room/playback.go:118-136 | a room wedges exactly at a ready report for the track a stream room is playing, whose playback has no ready map |
| `StreamReady.WedgedIsForever` | internal/room/playback.go:118-144 | after that, clients, queue, playback and messages never change again |
| `StreamReady.SignalNeverWedges` | internal/room/playback.go:98-104 | a signal room never wedges |
| `StreamReady.OneReportWedges` | internal/room/stream.go:51-54 | a concrete run: one ready report for the first track of a stream |
| `StartOnce.NewestMessageIsCurrent` | internal/room/playback.go:40-268 | in every reachable state the newest message is about the current playback and carries its present anchor |
| `QueueDiscipline.NoLostStart` | internal/room/room.go:516-537 | IDs stay distinct, the playing track stays queued, and with nothing playing and a Ready track some call in flight still owes its maybeStart, in signal rooms and in stream rooms with a broadcaster |
| `QueueDiscipline.NoBroadcasterNoPlayback` | internal/room/stream.go:34-39 | a stream room without a broadcaster never plays anything |
| `QueueDiscipline.StartsFirstReady` | internal/room/playback.go:81-106 | a playback is only installed by maybeStart, with nothing playing, for a Ready track whose details it copies, and no track ahead of it was Ready |
| `QueueDiscipline.SurvivorsKeepOrder` | internal/room/room.go:462-537 | over any stretch of a run, tracks that stay queued keep their relative order |
| `QueueDiscipline.AdvancesAreEarned` | internal/room/playback.go:270-310 | the times a track is ended, plus its presence after the run, never exceed its presence before plus its enqueues |
| `QueueDiscipline.LateEndsAreInert` | internal/room/playback.go:287-293 | after a track is ended, and until it is enqueued again, every other skip or end callback that captured it changes nothing |
| `QueueDiscipline.SkipAdvances` | internal/room/playback.go:270-310 | in signal rooms, and in stream rooms with a broadcaster, an undisturbed skip takes out exactly the playing track, silences its end timer and goes on to the first Ready one of the rest, if there is one |
| `QueueHistory.QueueIsItsHistory` | internal/room/room.go:462-537 | in every reachable state the queue holds for each ID the track of its last upsert, unless it was removed while not playing, ended while playing, or swept away with its room since; then it holds none |
| `QueueHistory.UpsertPlacesTrack` | internal/room/room.go:516-529 | an upsert puts its track at the place of the queued one, or behind all others, and every other place holds what it held |
| `QueueHistory.ReadyUpsertPlays` | internal/room/room.go:516-537 | with nothing playing and nothing else Ready, a Ready upsert and its maybeStart install exactly that track, in signal rooms and in stream rooms with a broadcaster |
| `PlaybackHistory.ReadyTimerIsDue` | internal/room/playback.go:10-22 | over any run the ready timer of a waiting track is due exactly 20 s, in a room that was not tight when it was prepared 6 s, after its prepare |
| `PlaybackHistory.EndsAreOwed` | internal/room/playback.go:63-63 | an end of an ID comes to be owed exactly when its end timer goes off, its stream ends or it is skipped |
| `PlaybackHistory.CleanupSilences` | internal/room/room.go:208-231 | the room's removal leaves nothing queued or playing and neither timer of the playback armed |
| `Surroundings.SurroundingsAreHistory` | internal/room/playback.go:17-22 | over any run the clock, sync setting and clients are what the actions last made them |
| `TrackQueue.IndexOf` | internal/room/room.go:519-525 | the first position of an ID, and the length exactly when it is not queued |
| `TrackQueue.FirstReady` | internal/room/playback.go:87-97 | the first Ready position, and the length exactly when nothing is Ready |
| `TrackQueue.UpsertedKeepsQueue` | internal/room/room.go:516-529 | an upsert keeps IDs distinct, replaces or adds exactly its track and moves no other |
| `TrackQueue.WithoutKeepsQueue` | internal/room/room.go:468-473 | a removal takes out that ID and nothing else |
| `TrackQueue.WithoutKeepsOrder` | internal/room/room.go:468-473 | the other tracks keep their order |
| `PlaybackRoom.Room.ScheduleEnd` | internal/room/playback.go:49-64 | stops the end timer and arms the one the new anchor needs, as the machine's step |
| `PlaybackRoom.Room.FindReady` | internal/room/playback.go:87-93 | the loop finds the first Ready track |
| `PlaybackRoom.Room.FindTrack` | internal/room/playback.go:297-302 | the loop finds the first track with the ID |
| `PlaybackRoom.Room.MaybeStart` | internal/room/playback.go:81-116 | the whole new room is the machine's step: nothing while something plays or nothing is Ready, else a new playback with its ready timer and message |
| `PlaybackRoom.Room.StreamMaybeStart` | internal/room/stream.go:34-59 | the same without timer and message, and nothing without a broadcaster |
| `PlaybackRoom.Room.AllReady` | internal/room/playback.go:137-143 | the scan answers exactly whether every connected client is ready |
| `PlaybackRoom.Room.MarkReady` | internal/room/playback.go:118-149 | the machine's step: late resync, early mark, a start owed when all are ready, or the panic in a stream room |
| `PlaybackRoom.Room.RecheckReady` | internal/room/playback.go:151-171 | the machine's step: a start owed if there are clients and all are ready |
| `PlaybackRoom.Room.StartPlayback` | internal/room/playback.go:173-191 | the machine's step, with the guards on ID and flag |
| `PlaybackRoom.Room.Pause` | internal/room/playback.go:193-217 | the machine's step: the anchor is frozen at the live position |
| `PlaybackRoom.Room.Resume` | internal/room/playback.go:219-242 | the machine's step: the anchor is set 2000 ms ahead |
| `PlaybackRoom.Room.SeekTo` | internal/room/playback.go:244-268 | the machine's step: clamped target, and a buffer unless paused |
| `PlaybackRoom.Room.Skip` | internal/room/playback.go:270-285 | the capturing region: the end of the captured ID is owed, nothing else changes |
| `PlaybackRoom.Room.EndTrack` | internal/room/playback.go:287-310 | the machine's step: one removal, end timer stopped, the next maybeStart owed |
| `PlaybackRoom.Room.UpsertTrack` | internal/room/room.go:516-537 | the machine's step on the queue, with a maybeStart owed |
| `PlaybackRoom.Room.RemoveTrack` | internal/room/room.go:462-477 | the machine's step: never the playing track |
| `PlaybackRoom.Room.CleanupMedia` | internal/room/room.go:208-231 | the machine's step: both timers stopped, nothing queued or playing |
| `PlaybackRoom.Room.ReferencesTrack` | internal/room/room.go:169-181 | true exactly if the room plays or queues the ID |
| `MembershipRuns.MembershipInvariant` | internal/room/room.go:183-367 | over every run: connected and held are disjoint; tokens pair exactly the members' tokens with their IDs; orders are distinct and at most the counter; the empty timer of a joined, registered room is armed exactly while nobody is connected |
| `MembershipRuns.FreshJoinSoundIff` | internal/room/room.go:283-291 | a fresh join keeps the tables sound if and only if its ID is no member's |
| `MembershipRuns.SharedIdBreaksTables` | internal/room/room.go:255-291 | two connections that share an ID through a resume, both said goodbye and both joined again leave a member with two tokens |
| `MembershipRuns.LeaveKeepsSound` | internal/room/room.go:296-317 | a drop moves a member to the held places with its order, token and role |
| `MembershipRuns.HardLeaveKeepsPaired` | internal/room/room.go:327-344 | a goodbye takes exactly that member and its token out |
| `MembershipRuns.FinalizeKeepsPaired` | internal/room/room.go:350-363 | the end of the grace takes exactly a held member and its token out, and does nothing to anyone else |
| `ResumeRoundTrip.ResumeRegainsPlace` | internal/room/room.go:252-325 | after a drop and any run that neither ends its grace nor uses its token, a join with the token gives back ID, order and token, host exactly as when it left, and touches nobody else |
| `ResumeRoundTrip.ReplacedConnectionIsPowerless` | internal/room/room.go:296-301 | the connection a member was resumed away from can change nothing by leaving, after any later run |
| `ResumeRoundTrip.GraceLastsAMinute` | internal/room/room.go:305-311 | with timely timers a dropped member keeps place and role for 60 s |
| `HostSuccession.SuccessorIsOldest` | internal/room/room.go:369-382 | a departing host is succeeded by the one connected member of least order, whatever the order of the scan; otherwise the role does not move |
| `HostSuccession.HostStaysMemberIff` | internal/room/room.go:369-382 | a step leaves the role with a member if and only if the host does not depart for good with nobody else connected |
| `HostSuccession.HostIsAlwaysMember` | internal/room/room.go:252-382 | with somebody else connected at every final departure of the host, the host is always a connected or held member |
| `HostSuccession.StrandedHost` | internal/room/room.go:369-382 | a concrete room where a host says goodbye alone and the next to join is not promoted |
| `EmptyRoom.EmptyTimerIsDue` | internal/room/room.go:190-206 | over any run the timer of a joined, registered, empty room is due exactly 120 s after the departure that emptied it |
| `EmptyRoom.RoomGoesIff` | internal/room/room.go:198-205 | a joined room is removed by a step exactly when its timer goes off, which it can do exactly when nobody is connected and nobody has been for 120 s |
| `EmptyRoom.TimerIsArmedOnce` | internal/room/room.go:190-206 | in any state the timer is stopped for a room that is not empty, armed for 120 s for one that is, and left as it is when armed already |
| `EmptyRoom.LateCallbackSparesRoom` | internal/room/room.go:198-205 | whenever the callback of the empty timer runs, however late, it spares a room with somebody connected and removes any other |
| `EmptyRoom.ResumeSeats` | internal/room/room.go:255-276 | a resume files the new connection under the member's ID with its token and its held order, or a new order when it was still connected, and changes nobody else's place |
| `EmptyRoom.FreshJoinSeats` | internal/room/room.go:283-291 | a fresh join files the connection under its own ID with the next order and the new token, and changes nobody else's place |
| `EmptyRoom.DepartureTakesOne` | internal/room/room.go:327-363 | a final departure takes out exactly the departed, connected or held |
| `Membership.OldestExists` | internal/room/room.go:373-378 | among connected members one has least order |
| `MembershipRoom.Room.Join` | internal/room/room.go:252-294 | the whole new state is the machine's join, resumed or fresh, and the connection is filed under the ID it ends up with |
| `MembershipRoom.Room.Leave` | internal/room/room.go:296-325 | the machine's drop, compared by identity of the connection |
| `MembershipRoom.Room.HardLeave` | internal/room/room.go:327-348 | the machine's goodbye |
| `MembershipRoom.Room.FinalizeLeave` | internal/room/room.go:350-367 | the machine's end of the grace |
| `MembershipRoom.Room.PromoteIfHostGone` | internal/room/room.go:369-382 | the running-minimum loop finds the machine's successor in any order of iteration |
| `MembershipRoom.Room.SoundOrdersDiffer` | internal/room/room.go:283-291 | what the departures rely on holds in every sound room |
| `MembershipRoom.Room.ScheduleEmptyTimer` | internal/room/room.go:190-206 | arms once while empty, stops otherwise |
| `MembershipRoom.Room.EmptyTimerFires` | internal/room/room.go:198-205 | the room goes exactly if it still has no client |
| `SingleFlight.OneGeneratorPerSegment` | internal/media/hls.go:99-125 | for any number of threads: slots in use are exactly the running generators and at most five; no two threads own or generate the same segment; each filed key has an owner at work on that very segment |
| `SingleFlight.NoSharedTmpFile` | internal/media/hls.go:140-181 | two running generators never write the same .tmp file |
| `SingleFlight.WaitersGetOwnersError` | internal/media/hls.go:105-124 | whoever is answered by a job asked for the owner's segment and returns the error the owner returns |
| `SegmentOutcomes.AnswersAreOutcomes` | internal/media/hls.go:99-125 | from the actions alone: a call answered by a job returns the last outcome of its maker's generator, which ran once if the first outcome was good and exactly twice otherwise; a call answered by another's job ran none; a call answers without a job only if its own look found the track unknown |
| `SegmentOutcomes.RefusedIff` | internal/media/hls.go:100-102 | a call has answered without a job exactly when its own look found the track unknown |
| `SingleFlight.SomebodyCanStep` | internal/media/hls.go:99-125 | no deadlock: while a call is unfinished, some unfinished call can step, whatever the generator's outcome |
| `SingleFlight.CallsTerminate` | internal/media/hls.go:99-125 | without new calls the steps taken and the work left are bounded by the work there was |
| `SingleFlight.WorkIsBounded` | internal/media/hls.go:99-125 | that work is at most eight steps a call |
| `SingleFlight.RestIsClean` | internal/media/hls.go:119-123 | once every call returned, no job is filed and no slot is held |
| `SegmentTable.Table.Lookup` | internal/media/hls.go:103-112 | finds the key's job, or files a fresh open one for the caller to own |
| `SegmentTable.Table.CloseDone` | internal/media/hls.go:120 | closes the job's channel, which must be open |
| `SegmentTable.Table.Record` | internal/media/hls.go:114-118 | the job's error, and no other job's, is replaced |
| `SegmentTable.Table.Delete` | internal/media/hls.go:121-123 | takes the key out of the table |
| `SegmentNames.JobKeyInjective` | internal/media/hls.go:103 | different segments never share a key, whatever the IDs hold |
| `SegmentNames.PathsDiffer` | internal/media/hls.go:140-165 | different segments never share a .tmp file, padded numbers included |
| `SegmentMath.SegmentsTileTrack` | internal/media/hls.go:37-164 | every millisecond of the track lies in exactly one accepted segment, as listed and as generated; lengths are in (0, 6000] ms and add up to the duration; an index is accepted exactly if it starts inside the track |
| `SegmentMath.TotalSoFar` | internal/media/hls.go:47-51 | the lengths of the first `n` segments add up to `n` full ones, or to the duration at the end |
| `SegmentMath.RoundedLengthsMeetTarget` | internal/media/hls.go:43-44 | no listed length rounds to more than the target, section 4.3.3.1 of RFC 8216 |
| `SegmentMath.EntryTellsLength` | internal/media/hls.go:52-57 | the length printed in an entry gives back the segment's milliseconds |
| `SegmentMath.TargetIsReached` | internal/media/hls.go:43-44 | a full segment rounds to exactly the printed target |
| `SegmentMath.ListedNamesAreServed` | internal/media/hls.go:47-58 | the address of every playlist entry, taken relative to the playlist, is dispatched to that accepted segment of the same ID |
| `SegmentMath.SecondsAreExact` | internal/media/hls.go:208-214 | the printed seconds have three decimals and give back the milliseconds |
| `SegmentMath.ServePlaylist` | internal/media/hls.go:31-63 | a 404 exactly for unknown, empty or uploaded tracks, else header, all entries in order, end |
| `SegmentMath.WriteEntries` | internal/media/hls.go:47-58 | the loop prints one entry for each segment with its listed length |
| `SegmentMath.EntriesListSegments` | internal/media/hls.go:47-58 | entry `i` is the two lines of segment `i`, and only accepted segments have one |
| `SegmentMath.ServeSegment` | internal/media/hls.go:65-97 | the segment's file if and only if the track has a playlist, the playlist lists the index, the file is there or gets generated, and it opens; else a 404 |
| `MediaNames.Find` | internal/media/stream.go:91-92 | the first occurrence of the separator |
| `MediaNames.SegmentNameIff` | internal/media/stream.go:91-101 | the parser accepts exactly a valid ID, the separator, a non-negative 64-bit number and ".ts", and reads those off |
| `MediaNames.InvalidIff` | internal/media/stream.go:103-105 | an ID is refused exactly when it is empty or contains a slash, a backslash or a double dot |
| `MediaNames.SegmentNameRoundTrip` | internal/media/stream.go:42-105 | a printed segment name is dispatched to the ID and index it was made from |
| `MediaNames.PlaylistNameRoundTrip` | internal/media/stream.go:83-89 | a playlist name is dispatched to its ID |
| `MediaNames.PlainNameRoundTrip` | internal/media/stream.go:52-64 | a plain name is dispatched to its key and extension |
| `MediaNames.FormsAreExclusive` | internal/media/stream.go:42-64 | no name is accepted by two of the three forms |
| `CachePlan.PlanFull` | internal/media/cache.go:25-43 | the loop computes the plan of the specification function for any list and budget |
| `CachePlan.PlanKeys` | internal/media/cache.go:29-41 | decisions are made for exactly the long tracks that are no uploads |
| `CachePlan.ChargedExactly` | internal/media/cache.go:27-41 | the pass charges exactly the short tracks and the selected full files |
| `CachePlan.PlanWithinBudget` | internal/media/cache.go:25-43 | the selected full files never exceed the budget |
| `CachePlan.RefusedWouldExceed` | internal/media/cache.go:34-41 | every refused track would exceed the budget on top of the final charge |
| `CachePlan.SelectedIffFits` | internal/media/cache.go:29-41 | the plan without its loop: a long track is selected exactly when it fits into the budget on top of the short tracks and the selected full files before it |
| `CachePlan.EstimatesAreExact` | internal/media/cache.go:10-32 | a full file is charged 16500 and a short one 12500 bytes for each whole second, truncated toward zero; long means ten minutes or more and no upload |
| `CachePlan.AppendingKeepsDecisions` | internal/media/cache.go:29-41 | appending a track changes no earlier decision |
| `FullCache.RunCoherentIff` | internal/media/cache.go:64-155 | from an empty cache, over any run with any IDs: in every state a published .m4a is on disk and wanted, every .m4a on disk belongs to a known track that wants it and each ID has at most one download in flight, if and only if every deletion of the run was clean |
| `FullCache.CleanUnlessHit` | internal/media/pipeline.go:85-114 | in every state of a run a deletion is clean exactly if its ID, as a pattern, matches no other published track's file |
| `FullCache.DigestsStayCoherent` | internal/media/pipeline.go:402-405 | runs that delete only IDs the program makes are coherent throughout |
| `FullCache.DeleteCoherentIff` | internal/media/pipeline.go:85-114 | one deletion keeps coherence if and only if its pattern matches its own full file and no other published one |
| `CachePattern.PlainRemovesPrefixed` | internal/media/pipeline.go:104-110 | an ID without special characters removes exactly the files whose names begin with it |
| `CachePattern.DigestRemovesItsOwn` | internal/media/pipeline.go:104-110 | among the IDs the program makes each removes its own file only |
| `CachePattern.QuestionMarksGlob` | internal/media/pipeline.go:104-110 | an ID of question marks removes every file whose name is as long or longer |
| `PatternLaws.StarLaw` | internal/media/pipeline.go:104-104 | the star matches any run of characters up to a slash |
| `PatternLaws.CharacterLaw` | internal/media/pipeline.go:104-104 | a question mark matches one character that is no slash, a plain character itself |
| `PatternLaws.ClassLaw` | internal/media/pipeline.go:104-104 | a class of one range matches one character in it, with a caret one outside it |
| `PatternLaws.EscapeLaw` | internal/media/pipeline.go:104-104 | a backslash makes the next character literal, and at the end spoils the pattern |
| `PatternLaws.DotsLaw` | internal/media/pipeline.go:104-104 | empty and dot parts of an ID change nothing, a double dot takes the part before it back |
| `PatternLaws.ValidIdsStayInCache` | internal/media/stream.go:61-65 | the files of valid IDs lie in the cache directory itself |
| `FullCache.UploadDeleteBreaksCache` | internal/media/pipeline.go:104-127 | concrete runs: deleting an upload named by a prefix of a published track's ID, by sixteen question marks or by nothing takes that track's file |
| `FullCache.ReconciledWants` | internal/media/cache.go:45-58 | after Reconcile a planned track is wanted exactly if selected, or if it plays and was wanted before |
| `FullCache.ReconcileMeetsBudget` | internal/media/cache.go:45-58 | after Reconcile the wanted files of the listed long tracks take at most the budget plus the playing track, whatever was wanted before |
| `FullCache.ReconcileIsARun` | internal/media/cache.go:45-58 | a pass is a run of ensures and evicts, so what holds of runs holds after it |
| `CacheHistory.CacheIsItsHistory` | internal/media/cache.go:64-155 | in every reachable state, for each ID and from the actions alone: whether it is known, wanted, on disk and being fetched, its status, and that its URL is the one its last publishing step named (an upload its .opus file, a finished probe its own form, a found or finished wanted download the .m4a, an evict of that the playlist) |
| `CacheHistory.ReadyTracksHaveUrls` | internal/media/pipeline.go:390-396 | over any run a Ready track's URL names something |
| `CacheHistory.EvictionRevertsToPlaylist` | internal/media/cache.go:141-155 | an evict takes the file and the wish away, turns a published .m4a into the playlist, and touches no other track |
| `PipelineObject.Pipeline.Resolve` | internal/media/pipeline.go:184-203 | files a new track as resolving, keeps a known one |
| `PipelineObject.Pipeline.RegisterOpus` | internal/media/pipeline.go:161-177 | an upload is filed as ready with its .opus file |
| `PipelineObject.Pipeline.MarkReady` | internal/media/pipeline.go:234-396 | publishes a known track only |
| `PipelineObject.Pipeline.SetError` | internal/media/pipeline.go:398-400 | fails a known track only |
| `PipelineObject.Pipeline.EnsureFull` | internal/media/cache.go:64-92 | the whole new table is the machine's step |
| `PipelineObject.Pipeline.Downloaded` | internal/media/cache.go:82-91 | the machine's step, with the job over before the file is published |
| `PipelineObject.Pipeline.SetFullReady` | internal/media/cache.go:122-139 | publishes a wanted file of a known track, removes any other |
| `PipelineObject.Pipeline.EvictFull` | internal/media/cache.go:141-155 | takes the wish and the file away and reverts a published URL |
| `PipelineObject.Pipeline.Delete` | internal/media/pipeline.go:85-114 | forgets the track and removes exactly the files its ID matches as a pattern |
| `PipelineObject.Pipeline.Reconcile` | internal/media/cache.go:45-58 | the loop takes the specified pass over the planner's decisions |
| `NoLostWakeup.EachChannelClosesOnce` | internal/rtc/broadcaster.go:231-262 | the installed channel is never closed, and a channel about to be closed is open and owed by that call alone |
| `NoLostWakeup.TakerClosesItsChannel` | internal/rtc/broadcaster.go:231-262 | the call that swapped a channel out owes its close until it is closed, never after, and nobody else ever does |
| `NoLostWakeup.BlockedWaitersAreWoken` | internal/rtc/broadcaster.go:336-351 | a blocked waiter holds the installed channel while paused, or one that is closed or owed a close by a call in flight |
| `NoLostWakeup.QuietWaiterCanWake` | internal/rtc/broadcaster.go:336-351 | with no close owed and no pause it can wake at once, and goes on exactly if its stream was not cancelled |
| `NoLostWakeup.OwedCloseIsNeverBlocked` | internal/rtc/broadcaster.go:239-261 | a call that owes a close can always take its next step toward it |
| `NoLostWakeup.RunKeepsAccounts` | internal/rtc/broadcaster.go:209-274 | from any accounted state, over any run, every channel made is installed, closed or owed by exactly one call |
| `BroadcastHistory.PollsAreHistory` | internal/rtc/broadcaster.go:245-344 | from the actions alone: a pump that asks is held on the installed channel exactly while the last pause, stop or resume was a pause and no shutdown came, and otherwise goes on exactly if its stream was not stopped |
| `BroadcastHistory.PauseBlocksPumps` | internal/rtc/broadcaster.go:245-249 | after a pause, until a stop, resume or shutdown, every pump that asks is held |
| `BroadcastHistory.StoppedStreamEnds` | internal/rtc/broadcaster.go:231-243 | once a stop has come to its cancel, the stream it took never goes on again, and a held pump of it can give up |
| `BroadcastHistory.CallsRunTheirProgram` | internal/rtc/broadcaster.go:209-274 | every stop cancels, then closes, then begins the next stream for a play or shuts down for a close; a pump waits for the stream it was called for |
| `BroadcastHistory.RunFollows` | internal/rtc/broadcaster.go:209-274 | over any run the flags, the current stream and the cancelled streams are what the actions say |
| `BroadcastObject.Broadcaster.TakeForStop` | internal/rtc/broadcaster.go:231-238 | the region of Stop: the whole new state and what its caller now owes |
| `BroadcastObject.Broadcaster.TakeForResume` | internal/rtc/broadcaster.go:251-260 | the region of Resume: a channel to close exactly if there was a pause, else no change |
| `BroadcastObject.Broadcaster.Pause` | internal/rtc/broadcaster.go:245-249 | only the flag is raised |
| `BroadcastObject.Broadcaster.CloseChannel` | internal/rtc/broadcaster.go:242 | closes a channel, which must be open |
| `BroadcastObject.Broadcaster.Install` | internal/rtc/broadcaster.go:211-219 | a new context and its cancel function, or nothing once closed |
| `BroadcastObject.Broadcaster.Poll` | internal/rtc/broadcaster.go:338-344 | blocks on the installed channel exactly while paused and not closed, else goes on exactly if not cancelled |
| `MediaRelease.QueuedTracksKeepTheirMedia` | internal/room/room.go:140-250 | through any sequence of enqueues, starts, ends and removals, every track a registered room queues or plays keeps its pipeline entry |
| `MediaRelease.DeletedOnlyWhenUnused` | internal/room/room.go:150-167 | an entry only goes when no registered room queues or plays its track |
| `MediaRelease.LastEndReleases` | internal/room/playback.go:287-306 | ending a track releases its entry exactly if no registered room needs it |
| `MediaRelease.StepsAgree` | internal/room/room.go:462-537 | the registry's steps do to a room's queue and playing track exactly what the playback machine's steps do, and an enqueue adds the entry |
| `MediaRelease.RemovalOrderIsFree` | internal/room/room.go:208-243 | letting go of a removed room's tracks one after the other, in any order and however often, releases exactly those no other room uses |
| `RegistryObject.Registry.CleanIfUnused` | internal/room/room.go:150-167 | the scan over the room objects, in any order, decides as the machine does |
| `RegistryObject.Registry.EndTrack` | internal/room/playback.go:287-306 | the room's and the registry's part of an end together are the machine's step |
| `RegistryObject.Registry.Collect` | internal/room/room.go:211-223 | collects exactly what the room plays or queues |
| `RegistryObject.Registry.Remove` | internal/room/room.go:140-243 | unregisters the room, clears it and releases what it alone used |

## Left out

- Widths: positions, durations, sizes and counters are unbounded integers; 64-bit overflow does not occur in the model.
- Printing of seconds: the floating-point "%.3f" is modelled as exact decimals of the milliseconds.
- Delivery of messages: channels that drop when full, snapshots of the room, and the two messages that bring a late joiner up to date (`catchUp`).
- PlaybackRoom.Room and MembershipRoom.Room: the one Go struct is split into two classes, one for playback and one for membership; the playback machine lets the set of connected clients change arbitrarily, and the recheck after a departure is an action of its own.
- MembershipRoom.Room.Join: requires that the connection stands for no member, as the handler ensures; nicknames and health are left out.
- MembershipRoom.Room.Leave: requires distinct orders, as every sound room has, so that the successor does not depend on the order of the scan; HardLeave and FinalizeLeave likewise.
- ResumeRoundTrip.GraceLastsAMinute: assumes that the finalize callback of a held place comes when its own timer is due; the other membership theorems let it come at any time, also from an old timer.
- QueueDiscipline.SkipAdvances: about signal rooms; in stream rooms a skip and a natural end that overlap can leave the broadcaster behind the room, and nothing is claimed about that.
- NoLostWakeup: overlapping Plays can leave a stream context that nobody cancels; the channels are accounted for, contexts are not.
- FullCache.RunCoherentIff: a file of size zero counts as present, and the interleavings between a lock region and the file operation that belongs to it are not modelled.
- PipelineObject.Pipeline.Delete: every matching file is removed; the loop in the code stops at the first that cannot be, and links between directories are not followed.
- FullCache.CleanUnlessHit: the names on the path of the cache directory hold no pattern characters.
- FullCache: a FileURL is modelled as its kind (none, .opus, playlist, .m4a), as each is a function of the track ID.
- MediaRelease: each call is one step; RemoveTrack does not release media, as in the code; a registry without a clean-up hook is not modelled.
- SegmentTable.Table: the generator's own file checks and its two attempts at ffmpeg are one free outcome for each of the job's two attempts.
- The warming of the next segments: it only makes more calls of the single-flight, which the threads cover.
- ffmpeg, ffprobe, yt-dlp, HTTP serving, the WebSocket loop, permissions, settings, the UDP clock, WebRTC peers, Ogg paging and the preloading of the next stream: outside processes, plumbing or one-branch facts.
