/**
  When a track being prepared can be started early: before its own deadline and although no
  ready report or recheck ever found its clients ready.
 */
module EarlyStart {
  import opened Options
  import opened TrackQueue
  import opened PlaybackMachine
  import opened NeverStuck

  predicate WaitsAs(st: Room, inst: nat) {
    st.playing.Some? && !st.playing.value.started && st.playing.value.instance == inst
  }

  /** The step makes a start due: a report or recheck finds every connected client ready. */
  predicate FindsAllReady(st: Room, a: Action) {
    && st.playing.Some? && !st.playing.value.started
    && var pb := st.playing.value;
    || (a.DoMarkReady? && st.mode.Signal? && a.trackID == pb.trackID && st.clients <= pb.ready + {a.client})
    || (a.DoRecheckReady? && st.clients != {} && st.clients <= pb.ready)
  }

  /** The same, or its own ready timer goes off. */
  predicate Earns(st: Room, a: Action, inst: nat) {
    && WaitsAs(st, inst)
    && (FindsAllReady(st, a) || (a.Fire? && st.playing.value.readyTimer == Some(a.handle)))
  }

  /** Some step of the run earned the start of playback `inst`. */
  predicate Earned(st: Room, acts: seq<Action>, inst: nat)
    requires ValidRun(st, acts)
    decreases |acts|
  {
    |acts| > 0 &&
    var k := |acts| - 1;
    Earned(st, acts[..k], inst) || Earns(Exec(st, acts[..k]), acts[k], inst)
  }

  /** A call is about to start playback `inst`. */
  predicate StartOwedTo(st: Room, inst: nat) {
    WaitsAs(st, inst) && OwesStart(st.playing.value.trackID) in st.inflight
  }

  function ReadyTimersOf(st: Room, id: string): set<nat> {
    set h | h in st.timers && st.timers[h].ReadyTimer? && st.timers[h].trackID == id
  }

  /**
    A start of `id` comes to be owed exactly when a ready timer armed for `id`, by whichever
    playback, goes off, or a report or recheck finds everybody ready for it.
   */
  lemma StartsAreEarned(st: Room, a: Action, id: string)
    requires Enabled(st, a)
    ensures
      Apply(st, a).inflight[OwesStart(id)] > st.inflight[OwesStart(id)] <==>
        || (a.Fire? && a.handle in ReadyTimersOf(st, id))
        || (st.playing.Some? && st.playing.value.trackID == id && FindsAllReady(st, a))
  {
    match a
    case DoMarkReady(c, track) => MarkOwesStart(st, c, track, id);
    case DoRecheckReady => assert Apply(st, a) == RecheckReady(st);
    case Fire(h) => assert Apply(st, a) == FireTimer(st, h);
    case _ => OthersOweNoStart(st, a, id);
  }

  lemma ControlsOweNothing(st: Room, ms: int)
    ensures Pause(st).inflight == st.inflight && Resume(st).inflight == st.inflight
    ensures SeekTo(st, ms).inflight == st.inflight
  {
  }

  lemma OthersOweNoStart(st: Room, a: Action, id: string)
    requires Enabled(st, a) && !a.DoMarkReady? && !a.DoRecheckReady? && !a.Fire?
    ensures Apply(st, a).inflight[OwesStart(id)] <= st.inflight[OwesStart(id)]
  {
    match a
    case DoPause => ControlsOweNothing(st, 0);
    case DoResume => ControlsOweNothing(st, 0);
    case DoSeek(ms) => ControlsOweNothing(st, ms);
    case RunMaybeStart => RegionsOweNoStart(Retire(st, OwesMaybeStart), "", id);
    case RunStart(track) => RegionsOweNoStart(Retire(st, OwesStart(track)), track, id);
    case RunEnd(track) => RegionsOweNoStart(Retire(st, OwesEnd(track)), track, id);
    case _ =>
  }

  lemma RegionsOweNoStart(st: Room, track: string, id: string)
    ensures MaybeStart(st).inflight == st.inflight && StreamMaybeStart(st).inflight == st.inflight
    ensures StartPlayback(st, track).inflight == st.inflight
    ensures EndTrack(st, track).inflight[OwesStart(id)] == st.inflight[OwesStart(id)]
  {
  }

  lemma MarkOwesStart(st: Room, client: string, track: string, id: string)
    ensures
      MarkReady(st, client, track).inflight[OwesStart(id)] > st.inflight[OwesStart(id)] <==>
        st.playing.Some? && st.playing.value.trackID == id && FindsAllReady(st, DoMarkReady(client, track))
  {
  }

  /** When the ready timer that the next playback is going to arm will be due. */
  function OwnDeadline(st: Room): int {
    st.now + ReadyDeadlineMs(st.sync)
  }

  /** The next step may install a playback. */
  predicate AboutToPrepare(st: Room) {
    st.mode.Signal? && Enabled(st, RunMaybeStart) && st.playing.None? && HasReady(st.queue)
  }

  function Chosen(st: Room): string
    requires HasReady(st.queue)
  {
    st.queue[FirstReady(st.queue)].id
  }

  /** A start of the track to be prepared is still owed, or a ready timer of it is due too soon. */
  predicate Exposed(st: Room)
    requires HasReady(st.queue)
  {
    || OwesStart(Chosen(st)) in st.inflight
    || exists h :: h in ReadyTimersOf(st, Chosen(st)) && st.timers[h].deadline < OwnDeadline(st)
  }

  /** Until its start is earned, a start owed to playback `inst` means its deadline `due` is past. */
  predicate OnTime(st: Room, inst: nat, due: int) {
    && st.mode.Signal? && inst < st.instances
    && (WaitsAs(st, inst) ==>
          var pb := st.playing.value;
          && pb.endTimer.None?
          && (forall h :: h in ReadyTimersOf(st, pb.trackID) ==> st.timers[h].deadline >= due)
          && (OwesStart(pb.trackID) in st.inflight ==> st.now >= due))
  }

  /** What a waiting playback still has when the step did not touch it. */
  lemma StillWaits(st: Room, a: Action, inst: nat)
    requires Enabled(st, a) && inst < st.instances && WaitsAs(Apply(st, a), inst)
    ensures WaitsAs(st, inst)
    ensures
      var was, pb := st.playing.value, Apply(st, a).playing.value;
      pb.trackID == was.trackID && pb.endTimer == was.endTimer
  {
  }

  lemma WaitingArmsNothing(st: Room, a: Action, inst: nat)
    requires Enabled(st, a) && inst < st.instances && WaitsAs(st, inst) && WaitsAs(Apply(st, a), inst)
    ensures forall h :: h in Apply(st, a).timers ==> h in st.timers && Apply(st, a).timers[h] == st.timers[h]
  {
  }

  lemma StepKeepsClock(st: Room, a: Action)
    requires Enabled(st, a)
    ensures Apply(st, a).now >= st.now && Apply(st, a).instances >= st.instances && Apply(st, a).mode == st.mode
  {
  }

  lemma StepStaysOnTime(st: Room, a: Action, inst: nat, due: int)
    requires Enabled(st, a) && OnTime(st, inst, due) && !Earns(st, a, inst)
    ensures OnTime(Apply(st, a), inst, due)
  {
    StepKeepsClock(st, a);
    var out := Apply(st, a);
    if WaitsAs(out, inst) {
      StillWaits(st, a, inst);
      WaitingArmsNothing(st, a, inst);
      var id := st.playing.value.trackID;
      StartsAreEarned(st, a, id);
      assert ReadyTimersOf(out, id) <= ReadyTimersOf(st, id);
    }
  }

  lemma {:induction false} RunStaysOnTime(st: Room, acts: seq<Action>, inst: nat, due: int)
    requires ValidRun(st, acts) && OnTime(st, inst, due) && !Earned(st, acts, inst)
    ensures OnTime(Exec(st, acts), inst, due)
    decreases |acts|
  {
    if |acts| > 0 {
      var k := |acts| - 1;
      RunStaysOnTime(st, acts[..k], inst, due);
      StepStaysOnTime(Exec(st, acts[..k]), acts[k], inst, due);
    }
  }

  /**
    The run `more` leaves a call about to start the playback prepared in `st` before its own
    deadline, with a connected client not ready, though nothing in the run earned that start.
   */
  predicate StartsEarly(st: Room, more: seq<Action>)
    requires ValidRun(st, more)
  {
    && st.playing.Some? && st.playing.value.readyTimer.Some? && st.playing.value.readyTimer.value in st.timers
    && var inst, due := st.playing.value.instance, st.timers[st.playing.value.readyTimer.value].deadline;
    var end := Exec(st, more);
    && StartOwedTo(end, inst) && !end.wedged
    && end.now < due && !(end.clients <= end.playing.value.ready) && !Earned(st, more, inst)
  }

  ghost predicate CanStartEarly(st: Room) {
    exists more :: ValidRun(st, more) && StartsEarly(st, more)
  }

  /** What the prepare step leaves. */
  lemma PrepareInstalls(before: Room)
    requires AboutToPrepare(before)
    ensures
      var st := Apply(before, RunMaybeStart);
      && st == before.(inflight := before.inflight - multiset{OwesMaybeStart}, playing := st.playing, log := st.log,
                       instances := before.instances + 1, nextTimer := before.nextTimer + 1,
                       timers := before.timers[before.nextTimer := ReadyTimer(Chosen(before), OwnDeadline(before))])
      && st.playing.Some?
      && var pb := st.playing.value;
      && pb.trackID == Chosen(before) && pb.instance == before.instances && !pb.started && pb.ready == {}
      && pb.readyTimer == Some(before.nextTimer) && pb.endTimer == None
  {
  }

  lemma UnexposedIsOnTime(before: Room)
    requires AboutToPrepare(before) && !Exposed(before)
    ensures OnTime(Apply(before, RunMaybeStart), before.instances, OwnDeadline(before))
  {
    PrepareInstalls(before);
    var st := Apply(before, RunMaybeStart);
    forall h | h in ReadyTimersOf(st, Chosen(before)) ensures st.timers[h].deadline >= OwnDeadline(before) {
      if h != before.nextTimer {
        assert h in ReadyTimersOf(before, Chosen(before));
      }
    }
  }

  /**
    A track prepared with no earlier start of it owed and no earlier ready timer of it due first
    is never started before time: over every run, a call about to start it was earned by its own
    timer or by a report or recheck that found everybody ready, or its deadline is past.
   */
  lemma StartsOnTime(before: Room)
    requires AboutToPrepare(before) && !Exposed(before)
    ensures
      var st := Apply(before, RunMaybeStart);
      forall more :: ValidRun(st, more) && StartOwedTo(Exec(st, more), before.instances) ==>
        Earned(st, more, before.instances) || Exec(st, more).now >= OwnDeadline(before)
  {
    UnexposedIsOnTime(before);
    var st := Apply(before, RunMaybeStart);
    forall more | ValidRun(st, more) && StartOwedTo(Exec(st, more), before.instances)
      ensures Earned(st, more, before.instances) || Exec(st, more).now >= OwnDeadline(before)
    {
      if !Earned(st, more, before.instances) {
        RunStaysOnTime(st, more, before.instances, OwnDeadline(before));
      }
    }
  }

  /** A run goes on by a step that earns nothing. */
  lemma GoesOn(st: Room, acts: seq<Action>, a: Action, inst: nat) returns (more: seq<Action>)
    requires ValidRun(st, acts) && Enabled(Exec(st, acts), a)
    requires !Earned(st, acts, inst) && !Earns(Exec(st, acts), a, inst)
    ensures ValidRun(st, more) && Exec(st, more) == Apply(Exec(st, acts), a) && !Earned(st, more, inst)
  {
    more := Then(st, acts, a);
    assert more[..|acts|] == acts;
  }

  lemma OwedStartsEarly(before: Room) returns (more: seq<Action>)
    requires AboutToPrepare(before) && OwesStart(Chosen(before)) in before.inflight
    ensures ValidRun(Apply(before, RunMaybeStart), more) && StartsEarly(Apply(before, RunMaybeStart), more)
  {
    PrepareInstalls(before);
    more := GoesOn(Apply(before, RunMaybeStart), [], SetClients({"c"}), before.instances);
    assert "c" in Exec(Apply(before, RunMaybeStart), more).clients;
  }

  lemma StaleTimerStartsEarly(before: Room, h: nat) returns (more: seq<Action>)
    requires AboutToPrepare(before) && HandlesFresh(before)
    requires h in ReadyTimersOf(before, Chosen(before)) && before.timers[h].deadline < OwnDeadline(before)
    ensures ValidRun(Apply(before, RunMaybeStart), more) && StartsEarly(Apply(before, RunMaybeStart), more)
  {
    PrepareInstalls(before);
    var st := Apply(before, RunMaybeStart);
    more := GoesOn(st, [], SetClients({"c"}), before.instances);
    more := GoesOn(st, more, Tick(Max(0, before.timers[h].deadline - before.now)), before.instances);
    more := GoesOn(st, more, Fire(h), before.instances);
    assert "c" in Exec(st, more).clients;
  }

  /**
    Exactly when a track about to be prepared in a reachable state can be started early in some
    continuation: when a start of the same ID is still owed, or a ready timer an earlier
    preparation of it left armed is due before its own.
   */
  lemma EarlyStartIff(now: int, acts: seq<Action>)
    requires ValidRun(Init(Signal, now), acts) && AboutToPrepare(Exec(Init(Signal, now), acts))
    ensures
      var before := Exec(Init(Signal, now), acts);
      CanStartEarly(Apply(before, RunMaybeStart)) <==> Exposed(before)
  {
    RunIsLive(now, acts);
    var before := Exec(Init(Signal, now), acts);
    var st := Apply(before, RunMaybeStart);
    PrepareInstalls(before);
    if Exposed(before) {
      var more: seq<Action>;
      if OwesStart(Chosen(before)) in before.inflight {
        more := OwedStartsEarly(before);
      } else {
        var h :| h in ReadyTimersOf(before, Chosen(before)) && before.timers[h].deadline < OwnDeadline(before);
        more := StaleTimerStartsEarly(before, h);
      }
    } else {
      StartsOnTime(before);
      assert st.timers[st.playing.value.readyTimer.value].deadline == OwnDeadline(before);
    }
  }

  function Sample(): Track {
    Track("x", "", Ready, "", "", 0)
  }

  /** The sample track is prepared with one client connected. */
  lemma PrepareSample() returns (acts: seq<Action>)
    ensures ValidRun(Init(Signal, 0), acts)
    ensures
      var st := Exec(Init(Signal, 0), acts);
      && st == Init(Signal, 0).(clients := {"c"}, queue := [Sample()], playing := st.playing, log := st.log,
                                timers := map[0 := ReadyTimer("x", 6000)], nextTimer := 1, instances := 1)
      && WaitsToStart(st, "x") && st.playing.value.endTimer.None?
  {
    var st := Init(Signal, 0);
    acts := [];
    acts := Then(st, acts, SetClients({"c"}));
    acts := Then(st, acts, DoUpsert(Sample()));
    acts := Then(st, acts, RunMaybeStart);
    assert Exec(st, acts).inflight == multiset{};
  }

  /** A skip takes the sample off before it starts; its ready timer stays armed. */
  lemma SkipsSample(st: Room, acts: seq<Action>) returns (more: seq<Action>)
    requires ValidRun(st, acts)
    requires
      var mid := Exec(st, acts);
      && mid.mode.Signal? && !mid.wedged && mid.queue == [Sample()]
      && WaitsToStart(mid, "x") && mid.playing.value.endTimer.None?
    ensures ValidRun(st, more)
    ensures
      var mid := Exec(st, acts);
      Exec(st, more) == mid.(queue := [], playing := None, inflight := mid.inflight + multiset{OwesMaybeStart})
  {
    var mid := Exec(st, acts);
    more := Then(st, acts, DoSkip);
    assert Exec(st, more) == mid.(inflight := mid.inflight + multiset{OwesEnd("x")});
    more := Then(st, more, RunEnd("x"));
    assert mid.inflight + multiset{OwesEnd("x")} - multiset{OwesEnd("x")} == mid.inflight;
  }

  /** Enqueued again, it is about to be prepared again. */
  lemma EnqueuesSample(st: Room, acts: seq<Action>) returns (more: seq<Action>)
    requires ValidRun(st, acts)
    requires
      var mid := Exec(st, acts);
      && mid.mode.Signal? && !mid.wedged && mid.queue == [] && mid.playing.None?
    ensures ValidRun(st, more)
    ensures
      var mid := Exec(st, acts);
      && Exec(st, more) == mid.(queue := [Sample()], inflight := mid.inflight + multiset{OwesMaybeStart})
      && AboutToPrepare(Exec(st, more)) && Chosen(Exec(st, more)) == "x"
  {
    more := Then(st, acts, DoUpsert(Sample()));
    assert Exec(st, more).queue[0].status == Ready;
  }

  /**
    First cause. The end of a track leaves its ready timer armed: skipped while preparing and
    enqueued again 5 s later, the track can be started by the old timer.
   */
  lemma StaleReadyTimer() returns (acts: seq<Action>)
    ensures ValidRun(Init(Signal, 0), acts) && AboutToPrepare(Exec(Init(Signal, 0), acts))
    ensures OwesStart("x") !in Exec(Init(Signal, 0), acts).inflight
    ensures CanStartEarly(Apply(Exec(Init(Signal, 0), acts), RunMaybeStart))
  {
    var st := Init(Signal, 0);
    acts := PrepareSample();
    acts := SkipsSample(st, acts);
    acts := Then(st, acts, Tick(5000));
    acts := EnqueuesSample(st, acts);
    assert 0 in ReadyTimersOf(Exec(st, acts), "x");
    EarlyStartIff(0, acts);
  }

  /**
    Second cause, with no timer going off. A report that found everybody ready owes a start while
    the track is skipped and enqueued again, and its call then starts the second preparation.
   */
  lemma StaleReadyReport() returns (acts: seq<Action>)
    ensures ValidRun(Init(Signal, 0), acts) && AboutToPrepare(Exec(Init(Signal, 0), acts))
    ensures
      var before := Exec(Init(Signal, 0), acts);
      forall h :: h in before.timers ==> before.timers[h].deadline >= OwnDeadline(before)
    ensures CanStartEarly(Apply(Exec(Init(Signal, 0), acts), RunMaybeStart))
  {
    var st := Init(Signal, 0);
    acts := PrepareSample();
    acts := Then(st, acts, DoMarkReady("c", "x"));
    assert OwesStart("x") in Exec(st, acts).inflight;
    acts := SkipsSample(st, acts);
    acts := EnqueuesSample(st, acts);
    EarlyStartIff(0, acts);
  }
}
