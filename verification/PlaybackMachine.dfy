/**
  The playback state machine of one room as a value: every function below is one region of
  code run under the room's lock, or one step of its environment (the clock, a timer going
  off, a change of the connected clients). Runs of the machine are sequences of actions.

  A call that releases the lock and still has a locked region to run is an entry of
  `inflight`: the machine interleaves any number of such calls at lock-region granularity.
  A timer that goes off becomes such a call too, so a callback that has already fired may
  still be waiting for the lock when its timer is stopped.
 */
module PlaybackMachine {
  import opened Options
  import opened TrackQueue

  const START_BUFFER_MS := 2000
  const RESPONSIVE_READY_MS := 6000
  const TIGHT_READY_MS := 20000
  const END_GRACE_MS := 750

  /** A stream room may have failed to build its broadcaster. */
  datatype Mode = Signal | Stream(broadcaster: bool)

  datatype Sync = Responsive | Tight

  datatype Timer =
    | ReadyTimer(trackID: string, deadline: int)
    | EndTimer(trackID: string, deadline: int)

  /** One playback; `instance` numbers the playbacks of a room in order of creation. */
  datatype Play = Play(
    instance: nat,
    trackID: string,
    fileURL: string,
    title: string,
    durationMs: int,
    ready: set<string>,
    started: bool,
    paused: bool,
    t0: int,
    s: int,
    readyTimer: Option<nat>,
    endTimer: Option<nat>)

  datatype NowPlaying = NowPlaying(trackID: string, t0: int, s: int, paused: bool)

  /** The messages a room decides to send about playback, each tagged with its playback instance. */
  datatype Event =
    | Prepared(instance: nat, trackID: string, fileURL: string, durationMs: int, title: string)
    | Started(instance: nat, np: NowPlaying, readyBefore: set<string>)
    | Controlled(instance: nat, np: NowPlaying)
    | Resynced(instance: nat, client: string, np: NowPlaying)

  /** A call between two of its locked regions, named by the region it runs next. */
  datatype Call =
    | OwesMaybeStart
    | OwesStart(trackID: string)
    | OwesEnd(trackID: string)

  datatype Room = Room(
    mode: Mode,
    sync: Sync,
    now: int,
    clients: set<string>,
    queue: seq<Track>,
    playing: Option<Play>,
    timers: map<nat, Timer>,
    nextTimer: nat,
    instances: nat,
    inflight: multiset<Call>,
    log: seq<Event>,
    wedged: bool)          // a call panicked and took the lock with it

  function Init(mode: Mode, now: int): Room {
    Room(mode, Responsive, now, {}, [], None, map[], 0, 0, multiset{}, [], false)
  }

  function NowPlayingOf(pb: Play): NowPlaying {
    NowPlaying(pb.trackID, pb.t0, pb.s, pb.paused)
  }

  function Max(a: int, b: int): int {
    if a < b then b else a
  }

  /** The live position in the track at the room's current time. */
  function Position(pb: Play, now: int): int {
    if pb.paused then pb.s else pb.s + (now - pb.t0)
  }

  /** When the end timer of an unpaused playback of known duration is due. */
  function EndDeadline(pb: Play): int {
    pb.t0 + Max(0, pb.durationMs - pb.s) + END_GRACE_MS
  }

  function ReadyDeadlineMs(sync: Sync): int {
    if sync == Tight then TIGHT_READY_MS else RESPONSIVE_READY_MS
  }

  function StopTimer(timers: map<nat, Timer>, handle: Option<nat>): map<nat, Timer> {
    if handle.Some? then timers - {handle.value} else timers
  }

  function Spawn(st: Room, c: Call): Room {
    st.(inflight := st.inflight + multiset{c})
  }

  function Emit(st: Room, e: Event): Room {
    st.(log := st.log + [e])
  }

  /** Installs `pb` after stopping its end timer and arming a new one when it needs one. */
  function ScheduleEnd(st: Room, pb: Play): Room {
    var timers := StopTimer(st.timers, pb.endTimer);
    if pb.paused || pb.durationMs <= 0 then
      st.(timers := timers, playing := Some(pb.(endTimer := None)))
    else
      st.(timers := timers[st.nextTimer := EndTimer(pb.trackID, EndDeadline(pb))],
          nextTimer := st.nextTimer + 1,
          playing := Some(pb.(endTimer := Some(st.nextTimer))))
  }

  /** Installs a playback of `t`, arms its ready timer and tells everyone to prepare. */
  function Prepare(st: Room, t: Track): Room {
    var pb := Play(st.instances, t.id, t.fileURL, t.title, t.durationMs, {}, false, false, 0, 0,
                   Some(st.nextTimer), None);
    Emit(st.(playing := Some(pb),
             instances := st.instances + 1,
             timers := st.timers[st.nextTimer := ReadyTimer(t.id, st.now + ReadyDeadlineMs(st.sync))],
             nextTimer := st.nextTimer + 1),
         Prepared(pb.instance, pb.trackID, pb.fileURL, pb.durationMs, pb.title))
  }

  function MaybeStart(st: Room): Room {
    if st.playing.Some? then st
    else
      var i := FirstReady(st.queue);
      if i == |st.queue| then st else Prepare(st, st.queue[i])
  }

  /** The stream form: no timers, no prepare message, and nothing without a broadcaster. */
  function StreamMaybeStart(st: Room): Room {
    if st.playing.Some? || st.mode == Stream(false) then st
    else
      var i := FirstReady(st.queue);
      if i == |st.queue| then st
      else
        var t := st.queue[i];
        st.(playing := Some(Play(st.instances, t.id, "", t.title, t.durationMs, {}, false, false, 0, 0, None, None)),
            instances := st.instances + 1)
  }

  /** A stream's playback has no ready map: marking a client in it panics under the lock. */
  function MarkReady(st: Room, client: string, trackID: string): Room {
    if st.playing.None? || st.playing.value.trackID != trackID then st
    else if st.mode.Stream? then st.(wedged := true)
    else
      var pb := st.playing.value;
      var marked := pb.(ready := pb.ready + {client});
      if pb.started then
        if client in pb.ready then st
        else Emit(st.(playing := Some(marked)), Resynced(pb.instance, client, NowPlayingOf(pb)))
      else if st.clients <= marked.ready then Spawn(st.(playing := Some(marked)), OwesStart(trackID))
      else st.(playing := Some(marked))
  }

  function RecheckReady(st: Room): Room {
    if st.playing.None? || st.playing.value.started || st.clients == {} then st
    else if st.clients <= st.playing.value.ready then Spawn(st, OwesStart(st.playing.value.trackID))
    else st
  }

  function StartPlayback(st: Room, trackID: string): Room {
    if st.playing.None? || st.playing.value.trackID != trackID || st.playing.value.started then st
    else
      var pb := st.playing.value.(started := true, t0 := st.now + START_BUFFER_MS, s := 0);
      Emit(ScheduleEnd(st.(timers := StopTimer(st.timers, pb.readyTimer)), pb),
           Started(pb.instance, NowPlayingOf(pb), pb.ready))
  }

  function Pause(st: Room): Room {
    if st.mode.Stream? || st.playing.None? || !st.playing.value.started || st.playing.value.paused then st
    else
      var was := st.playing.value;
      var pb := was.(s := was.s + (st.now - was.t0), t0 := st.now, paused := true);
      Emit(ScheduleEnd(st, pb), Controlled(pb.instance, NowPlayingOf(pb)))
  }

  function Resume(st: Room): Room {
    if st.mode.Stream? || st.playing.None? || !st.playing.value.started || !st.playing.value.paused then st
    else
      var pb := st.playing.value.(t0 := st.now + START_BUFFER_MS, paused := false);
      Emit(ScheduleEnd(st, pb), Controlled(pb.instance, NowPlayingOf(pb)))
  }

  function SeekTo(st: Room, ms: int): Room {
    if st.mode.Stream? || st.playing.None? || !st.playing.value.started then st
    else
      var was := st.playing.value;
      var pb := was.(s := Max(0, ms), t0 := if was.paused then st.now else st.now + START_BUFFER_MS);
      Emit(ScheduleEnd(st, pb), Controlled(pb.instance, NowPlayingOf(pb)))
  }

  /** The capturing region of Skip; the removal is the separate region EndTrack. */
  function Skip(st: Room): Room {
    if st.playing.None? then st
    else if st.mode.Stream? && (!st.mode.broadcaster || st.playing.value.trackID == "") then st
    else Spawn(st, OwesEnd(st.playing.value.trackID))
  }

  function EndTrack(st: Room, trackID: string): Room {
    if st.playing.None? || st.playing.value.trackID != trackID then st
    else
      Spawn(st.(timers := StopTimer(st.timers, st.playing.value.endTimer),
                queue := Without(st.queue, trackID),
                playing := None),
            OwesMaybeStart)
  }

  function UpsertTrack(st: Room, t: Track): Room {
    Spawn(st.(queue := Upserted(st.queue, t)), OwesMaybeStart)
  }

  function RemoveTrack(st: Room, trackID: string): Room {
    if st.playing.Some? && st.playing.value.trackID == trackID then st
    else st.(queue := Without(st.queue, trackID))
  }

  /** The room's part of its removal from the registry. */
  function CleanupMedia(st: Room): Room {
    if st.playing.None? then st.(queue := [])
    else
      var pb := st.playing.value;
      st.(timers := StopTimer(StopTimer(st.timers, pb.readyTimer), pb.endTimer), playing := None, queue := [])
  }

  /** An armed timer goes off: it is no longer armed, and its callback is in flight. */
  function FireTimer(st: Room, handle: nat): Room
    requires handle in st.timers
  {
    var timer := st.timers[handle];
    Spawn(st.(timers := st.timers - {handle}),
          if timer.ReadyTimer? then OwesStart(timer.trackID) else OwesEnd(timer.trackID))
  }

  datatype Action =
    | Tick(elapsed: nat)
    | SetClients(clients: set<string>)
    | SetSync(sync: Sync)
    | DoUpsert(track: Track)
    | DoRemove(trackID: string)
    | DoMarkReady(client: string, trackID: string)
    | DoRecheckReady
    | DoPause
    | DoResume
    | DoSeek(ms: int)
    | DoSkip
    | DoCleanup
    | Fire(handle: nat)
    | StreamEnded(trackID: string)
    | RunMaybeStart
    | RunStart(trackID: string)
    | RunEnd(trackID: string)

  predicate TakesLock(a: Action) {
    !a.Tick? && !a.Fire? && !a.StreamEnded?
  }

  /**
    What the environment may do. A broadcaster may report the end of any track it was given at
    any time, and nobody gets the lock of a wedged room.
   */
  predicate Enabled(st: Room, a: Action) {
    if st.wedged && TakesLock(a) then false else
    match a
    case Fire(h) => h in st.timers && st.timers[h].deadline <= st.now
    case StreamEnded(_) => st.mode.Stream?
    case RunMaybeStart => OwesMaybeStart in st.inflight
    case RunStart(id) => OwesStart(id) in st.inflight
    case RunEnd(id) => OwesEnd(id) in st.inflight
    case _ => true
  }

  function Retire(st: Room, c: Call): Room {
    st.(inflight := st.inflight - multiset{c})
  }

  function Apply(st: Room, a: Action): Room
    requires Enabled(st, a)
  {
    match a
    case Tick(elapsed) => st.(now := st.now + elapsed)
    case SetClients(cs) => st.(clients := cs)
    case SetSync(sync) => st.(sync := sync)
    case DoUpsert(t) => UpsertTrack(st, t)
    case DoRemove(id) => RemoveTrack(st, id)
    case DoMarkReady(c, id) => MarkReady(st, c, id)
    case DoRecheckReady => RecheckReady(st)
    case DoPause => Pause(st)
    case DoResume => Resume(st)
    case DoSeek(ms) => SeekTo(st, ms)
    case DoSkip => Skip(st)
    case DoCleanup => CleanupMedia(st)
    case Fire(h) => FireTimer(st, h)
    case StreamEnded(id) => Spawn(st, OwesEnd(id))
    case RunMaybeStart =>
      var mid := Retire(st, OwesMaybeStart);
      if st.mode.Stream? then StreamMaybeStart(mid) else MaybeStart(mid)
    case RunStart(id) => StartPlayback(Retire(st, OwesStart(id)), id)
    case RunEnd(id) => EndTrack(Retire(st, OwesEnd(id)), id)
  }

  /** Every action of the run is enabled where it is taken. */
  predicate ValidRun(st: Room, acts: seq<Action>)
    decreases |acts|, 0
  {
    |acts| == 0 ||
    var k := |acts| - 1;
    ValidRun(st, acts[..k]) && Enabled(Exec(st, acts[..k]), acts[k])
  }

  /** The state a run ends in. */
  function Exec(st: Room, acts: seq<Action>): Room
    requires ValidRun(st, acts)
    decreases |acts|, 1
  {
    if |acts| == 0 then st
    else Apply(Exec(st, acts[..|acts| - 1]), acts[|acts| - 1])
  }

  /** Which actions can change the queue. */
  lemma OthersKeepTheQueue(st: Room, a: Action)
    requires Enabled(st, a) && !a.DoUpsert? && !a.DoRemove? && !a.RunEnd? && !a.DoCleanup?
    ensures Apply(st, a).queue == st.queue
  {
  }

  /** Actions that send nothing leave the playback as it is or take it away. */
  lemma QuietActions(st: Room, a: Action)
    requires Enabled(st, a)
    requires !a.DoMarkReady? && !a.RunMaybeStart? && !a.RunStart? && !a.DoPause? && !a.DoResume? && !a.DoSeek?
    ensures Apply(st, a).log == st.log && Apply(st, a).instances == st.instances
    ensures Apply(st, a).playing == st.playing || Apply(st, a).playing.None?
  {
  }

  lemma ModeStays(st: Room, a: Action)
    requires Enabled(st, a)
    ensures Apply(st, a).mode == st.mode
  {
  }

  /** A run goes on with any action enabled at its end. */
  lemma Then(st: Room, acts: seq<Action>, a: Action) returns (more: seq<Action>)
    requires ValidRun(st, acts) && Enabled(Exec(st, acts), a)
    ensures more == acts + [a]
    ensures ValidRun(st, more) && Exec(st, more) == Apply(Exec(st, acts), a)
  {
    more := acts + [a];
    assert more[..|acts|] == acts;
  }
}
