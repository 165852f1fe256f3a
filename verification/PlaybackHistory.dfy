/**
  When a ready timer is due, read off the calls that were made, and which ends come to be owed.
 */
module PlaybackHistory {
  import opened TrackQueue
  import opened PlaybackMachine
  import opened Surroundings
  import opened NeverStuck
  import opened QueueDiscipline
  import opened StartOnce
  import opened EarlyStart

  /** When the preparation under way is due to start by itself. */
  function DueBy(st: Room, acts: seq<Action>): int
    requires ValidRun(st, acts)
    decreases |acts|
  {
    if |acts| == 0 then 0
    else
      var k := |acts| - 1;
      if acts[k].RunMaybeStart? && Exec(st, acts[..k]).playing.None? then
        NowBy(st.now, acts[..k]) + if SyncBy(acts[..k]) == Tight then 20000 else 6000
      else DueBy(st, acts[..k])
  }

  /** The own ready timer of a waiting playback, while armed, is due at `due`. */
  predicate DueAt(st: Room, due: int) {
    st.playing.Some? && !st.playing.value.started && st.playing.value.readyTimer.Some? &&
    st.playing.value.readyTimer.value in st.timers ==>
      st.timers[st.playing.value.readyTimer.value] == ReadyTimer(st.playing.value.trackID, due)
  }

  lemma WaitingKeepsTimer(st: Room, a: Action, inst: nat)
    requires Enabled(st, a) && inst < st.instances && WaitsAs(Apply(st, a), inst) && WaitsAs(st, inst)
    ensures Apply(st, a).playing.value.readyTimer == st.playing.value.readyTimer
  {
  }

  lemma StepKeepsDue(st: Room, a: Action, due: int)
    requires st.mode.Signal? && InstancesKnown(st) && Enabled(st, a) && st.playing.Some? && DueAt(st, due)
    ensures DueAt(Apply(st, a), due)
  {
    var out := Apply(st, a);
    if out.playing.Some? && !out.playing.value.started {
      if !a.RunMaybeStart? {
        OthersInstallNothing(st, a);
      }
      var inst := out.playing.value.instance;
      StillWaits(st, a, inst);
      WaitingArmsNothing(st, a, inst);
      WaitingKeepsTimer(st, a, inst);
    }
  }

  lemma PrepareIsDue(st: Room)
    requires st.mode.Signal? && Enabled(st, RunMaybeStart) && st.playing.None?
    ensures DueAt(Apply(st, RunMaybeStart), st.now + if st.sync == Tight then 20000 else 6000)
    ensures
      HasReady(st.queue) ==>
        Apply(st, RunMaybeStart).playing.Some? && Apply(st, RunMaybeStart).playing.value.readyTimer.Some? &&
        Apply(st, RunMaybeStart).playing.value.readyTimer.value in Apply(st, RunMaybeStart).timers
  {
  }

  /**
    A preparation in a tight room is due exactly 20 s, in any other 6 s, after it began, whatever
    is done to the settings in the meantime.
   */
  lemma {:induction false} ReadyTimerIsDue(now: int, acts: seq<Action>)
    requires ValidRun(Init(Signal, now), acts)
    ensures DueAt(Exec(Init(Signal, now), acts), DueBy(Init(Signal, now), acts))
    decreases |acts|
  {
    if |acts| > 0 {
      var k := |acts| - 1;
      ReadyTimerIsDue(now, acts[..k]);
      ReachableIsKnown(now, acts[..k]);
      SurroundingsAreHistory(Signal, now, acts[..k]);
      StepFromDue(Exec(Init(Signal, now), acts[..k]), acts[k], DueBy(Init(Signal, now), acts[..k]));
    }
  }

  lemma ReachableIsKnown(now: int, acts: seq<Action>)
    requires ValidRun(Init(Signal, now), acts)
    ensures InstancesKnown(Exec(Init(Signal, now), acts)) && Exec(Init(Signal, now), acts).mode == Signal
  {
    RunIsLive(now, acts);
    OneStartOneResync(Signal, now, acts);
  }

  lemma StepFromDue(st: Room, a: Action, due: int)
    requires st.mode.Signal? && InstancesKnown(st) && Enabled(st, a) && DueAt(st, due)
    ensures
      DueAt(Apply(st, a),
            if a.RunMaybeStart? && st.playing.None? then st.now + (if st.sync == Tight then 20000 else 6000) else due)
  {
    if st.playing.Some? {
      StepKeepsDue(st, a, due);
    } else {
      StepFromIdle(st, a, due);
    }
  }

  lemma StepFromIdle(st: Room, a: Action, due: int)
    requires st.mode.Signal? && Enabled(st, a) && st.playing.None?
    ensures DueAt(Apply(st, a), if a.RunMaybeStart? then st.now + (if st.sync == Tight then 20000 else 6000) else due)
  {
    if a.RunMaybeStart? {
      PrepareIsDue(st);
    } else if Apply(st, a).playing.Some? {
      OthersInstallNothing(st, a);
    }
  }

  /** An end of `id` comes to be owed exactly by its end timer, its stream's end or its skip. */
  lemma EndsAreOwed(st: Room, a: Action, id: string)
    requires Enabled(st, a)
    ensures
      Apply(st, a).inflight[OwesEnd(id)] > st.inflight[OwesEnd(id)] <==>
        || (a.Fire? && st.timers[a.handle].EndTimer? && st.timers[a.handle].trackID == id)
        || a == StreamEnded(id)
        || (a.DoSkip? && Skippable(st) && st.playing.value.trackID == id)
  {
    match a
    case Fire(h) => assert Apply(st, a) == FireTimer(st, h);
    case DoSkip => assert Apply(st, a) == Skip(st);
    case _ => OthersOweNoEnd(st, a, id);
  }

  lemma OthersOweNoEnd(st: Room, a: Action, id: string)
    requires Enabled(st, a) && !a.Fire? && !a.DoSkip?
    ensures Apply(st, a).inflight[OwesEnd(id)] > st.inflight[OwesEnd(id)] <==> a == StreamEnded(id)
  {
    match a
    case DoPause => ControlsOweNothing(st, 0);
    case DoResume => ControlsOweNothing(st, 0);
    case DoSeek(ms) => ControlsOweNothing(st, ms);
    case RunMaybeStart => RegionsOweNoStart(Retire(st, OwesMaybeStart), "", id);
    case RunStart(track) => RegionsOweNoStart(Retire(st, OwesStart(track)), track, id);
    case RunEnd(track) => EndOwesNext(Retire(st, OwesEnd(track)), track);
    case _ => QuietOwesNoEnd(st, a, id);
  }

  lemma QuietOwesNoEnd(st: Room, a: Action, id: string)
    requires Enabled(st, a) && !a.Fire? && !a.DoSkip? && !a.DoPause? && !a.DoResume? && !a.DoSeek?
    requires !a.RunMaybeStart? && !a.RunStart? && !a.RunEnd?
    ensures Apply(st, a).inflight[OwesEnd(id)] > st.inflight[OwesEnd(id)] <==> a == StreamEnded(id)
  {
  }

  lemma EndOwesNext(st: Room, id: string)
    ensures
      EndTrack(st, id).inflight ==
        st.inflight + if st.playing.Some? && st.playing.value.trackID == id then multiset{OwesMaybeStart} else multiset{}
  {
  }

  /** The room's removal leaves nothing queued or playing and none of the playback's own timers armed. */
  lemma CleanupSilences(st: Room)
    requires st.mode.Signal? && Live(st)
    ensures
      var out := CleanupMedia(st);
      && out.playing.None? && out.queue == [] && NoEndTimer(out)
      && (st.playing.Some? ==> st.playing.value.readyTimer.Some? && st.playing.value.readyTimer.value !in out.timers)
      && (forall h :: h in out.timers ==> h in st.timers && out.timers[h] == st.timers[h])
  {
  }
}
