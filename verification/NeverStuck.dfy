/**
  Playback is never stuck: in every reachable state a timer, or a callback that already
  fired, is there to move a prepared or running track on, and no other end timer exists.
 */
module NeverStuck {
  import opened Options
  import opened TrackQueue
  import opened PlaybackMachine

  /** Not started: its own ready timer is armed for at most the longest deadline away. */
  predicate Preparing(st: Room, pb: Play) {
    && !pb.started
    && pb.readyTimer.Some?
    && pb.readyTimer.value in st.timers
    && st.timers[pb.readyTimer.value].ReadyTimer?
    && st.timers[pb.readyTimer.value].trackID == pb.trackID
    && st.timers[pb.readyTimer.value].deadline <= st.now + TIGHT_READY_MS
    && NoEndTimer(st)
  }

  predicate NoEndTimer(st: Room) {
    forall h :: h in st.timers ==> st.timers[h].ReadyTimer?
  }

  /** Started and paused, or of unknown duration: nothing is going to end it. */
  predicate Held(st: Room, pb: Play) {
    pb.started && pb.paused && NoEndTimer(st)
  }

  predicate Endless(st: Room, pb: Play) {
    pb.started && !pb.paused && pb.durationMs <= 0 && NoEndTimer(st)
  }

  /** Playing a known duration: one end timer, due when the track plus the grace has played. */
  predicate Running(st: Room, pb: Play) {
    && pb.started && !pb.paused && pb.durationMs > 0
    && pb.endTimer.Some?
    && pb.endTimer.value in st.timers
    && st.timers[pb.endTimer.value] == EndTimer(pb.trackID, pb.t0 + Max(0, pb.durationMs - pb.s) + 750)
    && forall h :: h in st.timers && h != pb.endTimer.value ==> st.timers[h].ReadyTimer?
  }

  /** Its ready or end timer has gone off and the callback waits for the lock. */
  predicate CallbackPending(st: Room, pb: Play) {
    && NoEndTimer(st)
    && ((!pb.started && pb.readyTimer.Some? && pb.readyTimer.value !in st.timers && OwesStart(pb.trackID) in st.inflight) ||
        (pb.started && !pb.paused && pb.durationMs > 0 && OwesEnd(pb.trackID) in st.inflight))
  }

  predicate HandlesFresh(st: Room) {
    && (forall h :: h in st.timers ==> h < st.nextTimer)
    && (st.playing.Some? ==>
          var pb := st.playing.value;
          && (pb.readyTimer.Some? ==> pb.readyTimer.value < st.nextTimer)
          && (pb.endTimer.Some? ==> pb.endTimer.value < st.nextTimer && pb.endTimer != pb.readyTimer))
  }

  predicate Moving(st: Room, pb: Play) {
    Preparing(st, pb) || Held(st, pb) || Endless(st, pb) || Running(st, pb) || CallbackPending(st, pb)
  }

  /** The invariant of a signal-mode room. */
  predicate Live(st: Room) {
    && HandlesFresh(st)
    && (st.playing.None? ==> NoEndTimer(st))
    && (st.playing.Some? ==>
          var pb := st.playing.value;
          && Moving(st, pb)
          && pb.readyTimer.Some?
          && (!pb.started ==> !pb.paused && pb.endTimer.None?)
          && (pb.started ==> pb.readyTimer.value !in st.timers))
  }

  lemma OnlyOwnEndTimer(st: Room)
    requires Live(st) && st.playing.Some?
    ensures forall h :: h in st.timers && Some(h) != st.playing.value.endTimer ==> st.timers[h].ReadyTimer?
  {
  }

  lemma PauseKeepsLive(st: Room)
    requires st.mode.Signal? && Live(st)
    ensures Live(Pause(st))
  {
  }

  lemma ResumeKeepsLive(st: Room)
    requires st.mode.Signal? && Live(st)
    ensures Live(Resume(st))
  {
  }

  lemma SeekKeepsLive(st: Room, ms: int)
    requires st.mode.Signal? && Live(st)
    ensures Live(SeekTo(st, ms))
  {
  }

  lemma QueueKeepsLive(st: Room, t: Track, id: string)
    requires st.mode.Signal? && Live(st)
    ensures Live(UpsertTrack(st, t)) && Live(RemoveTrack(st, id))
  {
  }

  lemma PrepareKeepsLive(st: Room)
    requires st.mode.Signal? && Live(st)
    ensures Live(MaybeStart(st))
  {
  }

  lemma EndKeepsLive(st: Room, id: string)
    requires st.mode.Signal? && Live(st)
    ensures Live(EndTrack(st, id)) && Live(CleanupMedia(st))
  {
  }

  lemma ReadyKeepsLive(st: Room, client: string, id: string)
    requires Live(st)
    ensures Live(MarkReady(st, client, id))
  {
  }

  lemma CaptureKeepsLive(st: Room)
    requires Live(st)
    ensures Live(RecheckReady(st)) && Live(Skip(st))
  {
  }

  lemma FireKeepsLive(st: Room, h: nat)
    requires Live(st) && h in st.timers
    ensures Live(FireTimer(st, h))
  {
  }

  /** Retiring a call other than the pending callback itself loses nothing. */
  lemma RunKeepsLive(st: Room, a: Action)
    requires st.mode.Signal? && Live(st) && Enabled(st, a)
    requires a.RunMaybeStart? || a.RunStart? || a.RunEnd?
    ensures Live(Apply(st, a))
  {
    match a
    case RunMaybeStart =>
      assert Live(Retire(st, OwesMaybeStart));
      PrepareKeepsLive(Retire(st, OwesMaybeStart));
    case RunStart(id) =>
      RunStartKeepsLive(st, id);
    case RunEnd(id) =>
      RunEndKeepsLive(st, id);
  }

  predicate WaitsToStart(st: Room, id: string) {
    st.playing.Some? && !st.playing.value.started && st.playing.value.trackID == id
  }

  lemma StartKeepsLive(st: Room, id: string)
    requires st.mode.Signal? && Live(st) && WaitsToStart(st, id)
    ensures Live(StartPlayback(Retire(st, OwesStart(id)), id))
  {
  }

  lemma RunStartKeepsLive(st: Room, id: string)
    requires st.mode.Signal? && Live(st)
    ensures Live(StartPlayback(Retire(st, OwesStart(id)), id))
  {
    var mid := Retire(st, OwesStart(id));
    if WaitsToStart(st, id) {
      StartKeepsLive(st, id);
    } else {
      assert forall c :: c != OwesStart(id) && c in st.inflight ==> c in mid.inflight;
      assert StartPlayback(mid, id) == mid;
    }
  }

  lemma RunEndKeepsLive(st: Room, id: string)
    requires st.mode.Signal? && Live(st)
    ensures Live(EndTrack(Retire(st, OwesEnd(id)), id))
  {
    var mid := Retire(st, OwesEnd(id));
    if st.playing.Some? && st.playing.value.trackID == id {
      OnlyOwnEndTimer(st);
    } else {
      assert forall c :: c != OwesEnd(id) && c in st.inflight ==> c in mid.inflight;
    }
  }

  lemma StepKeepsLive(st: Room, a: Action)
    requires st.mode.Signal? && Live(st) && Enabled(st, a)
    ensures Live(Apply(st, a)) && Apply(st, a).mode == st.mode
  {
    match a
    case DoUpsert(t) => QueueKeepsLive(st, t, "");
    case DoRemove(id) => QueueKeepsLive(st, Track("", "", Failed, "", "", 0), id);
    case DoCleanup => EndKeepsLive(st, "");
    case DoMarkReady(c, id) => ReadyKeepsLive(st, c, id);
    case DoRecheckReady => CaptureKeepsLive(st);
    case DoSkip => CaptureKeepsLive(st);
    case DoPause => PauseKeepsLive(st);
    case DoResume => ResumeKeepsLive(st);
    case DoSeek(ms) => SeekKeepsLive(st, ms);
    case Fire(h) => FireKeepsLive(st, h);
    case RunMaybeStart => RunKeepsLive(st, a);
    case RunStart(_) => RunKeepsLive(st, a);
    case RunEnd(_) => RunKeepsLive(st, a);
    case _ =>
  }

  lemma {:induction false} RunIsLive(now: int, acts: seq<Action>)
    requires ValidRun(Init(Signal, now), acts)
    ensures Live(Exec(Init(Signal, now), acts)) && Exec(Init(Signal, now), acts).mode == Signal
    decreases |acts|
  {
    if |acts| > 0 {
      var k := |acts| - 1;
      RunIsLive(now, acts[..k]);
      StepKeepsLive(Exec(Init(Signal, now), acts[..k]), acts[k]);
    }
  }

  function Count(b: bool): nat {
    if b then 1 else 0
  }

  /**
    In every reachable state of a signal-mode room with a current track exactly one holds: the
    track is preparing, held, endless or running, or the callback of its timer, which is no
    longer armed, is about to take the lock.
   */
  lemma PlaybackIsNeverStuck(now: int, acts: seq<Action>)
    requires ValidRun(Init(Signal, now), acts)
    ensures
      var st := Exec(Init(Signal, now), acts);
      && (st.playing.None? ==> NoEndTimer(st))
      && (st.playing.Some? ==>
            var pb := st.playing.value;
            Count(Preparing(st, pb)) + Count(Held(st, pb)) + Count(Endless(st, pb)) + Count(Running(st, pb))
            + Count(CallbackPending(st, pb)) == 1)
  {
    RunIsLive(now, acts);
  }
}
