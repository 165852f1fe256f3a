/**
  One start and at most one late resync for each playback, read off the log of messages.
 */
module StartOnce {
  import opened Options
  import opened PlaybackMachine

  /** Two log entries never start one instance twice. */
  predicate SingleStarts(log: seq<Event>) {
    forall i, j :: 0 <= i < j < |log| && log[i].Started? && log[j].Started? ==> log[i].instance != log[j].instance
  }

  /** No client is resynced twice for one instance. */
  predicate SingleResyncs(log: seq<Event>) {
    forall i, j :: 0 <= i < j < |log| && log[i].Resynced? && log[j].Resynced? ==>
      log[i].instance != log[j].instance || log[i].client != log[j].client
  }

  /** A resync comes after its instance's start, for a client not ready before that start. */
  predicate LateResyncs(log: seq<Event>) {
    forall i, j :: 0 <= i < |log| && 0 <= j < |log| && log[i].Started? && log[j].Resynced? ==>
      log[i].instance == log[j].instance ==> i < j && log[j].client !in log[i].readyBefore
  }

  predicate InstancesKnown(st: Room) {
    && (forall i :: 0 <= i < |st.log| ==> st.log[i].instance < st.instances)
    && (st.playing.Some? ==> st.playing.value.instance < st.instances)
  }

  /** The log agrees with the flags of the current playback. */
  predicate CurrentAgrees(st: Room) {
    st.playing.Some? ==>
      var pb := st.playing.value;
      && (pb.started <==> exists i :: 0 <= i < |st.log| && st.log[i].Started? && st.log[i].instance == pb.instance)
      && (forall i :: 0 <= i < |st.log| && st.log[i].Started? && st.log[i].instance == pb.instance ==>
            st.log[i].readyBefore <= pb.ready)
      && (forall i :: 0 <= i < |st.log| && st.log[i].Resynced? && st.log[i].instance == pb.instance ==>
            pb.started && st.log[i].client in pb.ready)
  }

  predicate Honest(st: Room) {
    && InstancesKnown(st) && CurrentAgrees(st)
    && SingleStarts(st.log) && SingleResyncs(st.log) && LateResyncs(st.log)
  }

  /** A message that is neither a start nor a resync changes nothing the log promises. */
  lemma PlainEventKeepsHonest(st: Room, e: Event)
    requires Honest(st) && !e.Started? && !e.Resynced? && e.instance < st.instances
    ensures Honest(Emit(st, e))
  {
    PlainEventKeepsCurrent(st, e);
    var log := st.log + [e];
    assert SingleStarts(log) && SingleResyncs(log) && LateResyncs(log);
  }

  lemma PlainEventKeepsCurrent(st: Room, e: Event)
    requires CurrentAgrees(st) && !e.Started? && !e.Resynced?
    ensures CurrentAgrees(Emit(st, e))
  {
    var log := st.log + [e];
    assert forall i :: 0 <= i < |st.log| ==> log[i] == st.log[i];
    if st.playing.Some? && st.playing.value.started {
      var pb := st.playing.value;
      var i :| 0 <= i < |st.log| && st.log[i].Started? && st.log[i].instance == pb.instance;
      assert log[i].Started?;
    }
  }

  lemma StartKeepsHonest(st: Room, id: string)
    requires Honest(st)
    ensures Honest(StartPlayback(st, id))
  {
    if st.playing.Some? && st.playing.value.trackID == id && !st.playing.value.started {
      var out := StartPlayback(st, id);
      assert Honest(out) by {
        StartedKeepsHonest(st, out.playing.value, NowPlayingOf(st.playing.value.(started := true, t0 := st.now + START_BUFFER_MS, s := 0)));
      }
    }
  }

  /** The start of the current instance, with its message. */
  lemma StartedKeepsHonest(st: Room, pb: Play, np: NowPlaying)
    requires Honest(st) && st.playing.Some? && !st.playing.value.started
    requires pb.instance == st.playing.value.instance && pb.ready == st.playing.value.ready && pb.started
    ensures Honest(Emit(st.(playing := Some(pb)), Started(pb.instance, np, pb.ready)))
  {
    var log := st.log + [Started(pb.instance, np, pb.ready)];
    assert forall i :: 0 <= i < |st.log| ==> log[i] == st.log[i];
    assert log[|st.log|].Started?;
  }

  /** Growing the ready set of the current playback keeps the log honest. */
  lemma MarkKeepsHonest(st: Room, client: string)
    requires Honest(st) && st.playing.Some?
    ensures Honest(st.(playing := Some(st.playing.value.(ready := st.playing.value.ready + {client}))))
  {
  }

  lemma ResyncKeepsSingle(st: Room, client: string, np: NowPlaying)
    requires Honest(st) && st.playing.Some? && st.playing.value.started && client !in st.playing.value.ready
    ensures SingleResyncs(st.log + [Resynced(st.playing.value.instance, client, np)])
    ensures SingleStarts(st.log + [Resynced(st.playing.value.instance, client, np)])
    ensures LateResyncs(st.log + [Resynced(st.playing.value.instance, client, np)])
  {
  }

  lemma ResyncKeepsHonest(st: Room, client: string, np: NowPlaying)
    requires Honest(st) && st.playing.Some? && st.playing.value.started && client !in st.playing.value.ready
    ensures
      var pb := st.playing.value;
      Honest(Emit(st.(playing := Some(pb.(ready := pb.ready + {client}))), Resynced(pb.instance, client, np)))
  {
    ResyncKeepsSingle(st, client, np);
    var pb := st.playing.value;
    var log := st.log + [Resynced(pb.instance, client, np)];
    assert forall i :: 0 <= i < |st.log| ==> log[i] == st.log[i];
    var i :| 0 <= i < |st.log| && st.log[i].Started? && st.log[i].instance == pb.instance;
    assert log[i].Started?;
  }

  lemma MarkReadyKeepsHonest(st: Room, client: string, id: string)
    requires Honest(st)
    ensures Honest(MarkReady(st, client, id))
  {
    if st.playing.Some? && st.playing.value.trackID == id {
      var pb := st.playing.value;
      if !pb.started {
        MarkKeepsHonest(st, client);
      } else if client !in pb.ready {
        ResyncKeepsHonest(st, client, NowPlayingOf(pb));
      }
    }
  }

  lemma MaybeStartKeepsHonest(st: Room)
    requires Honest(st)
    ensures Honest(MaybeStart(st)) && Honest(StreamMaybeStart(st))
  {
    StreamStartKeepsHonest(st);
    var out := MaybeStart(st);
    if out != st {
      InstallKeepsHonest(st, out.(log := st.log));
      PlainEventKeepsHonest(out.(log := st.log), out.log[|st.log|]);
    }
  }

  /** A new unstarted instance is one the log has not heard of. */
  lemma InstallKeepsHonest(st: Room, out: Room)
    requires Honest(st) && out.log == st.log && out.instances == st.instances + 1
    requires out.playing.Some? && out.playing.value.instance == st.instances && !out.playing.value.started
    ensures Honest(out)
  {
  }

  lemma StreamStartKeepsHonest(st: Room)
    requires Honest(st)
    ensures Honest(StreamMaybeStart(st))
  {
    var out := StreamMaybeStart(st);
    if out != st {
      InstallKeepsHonest(st, out);
    }
  }

  /** Re-anchoring the current playback leaves what the log talks about alone. */
  lemma ControlKeepsHonest(st: Room, a: Action)
    requires Honest(st) && Enabled(st, a) && (a.DoPause? || a.DoResume? || a.DoSeek?)
    ensures Honest(Apply(st, a))
  {
    var out := Apply(st, a);
    if out != st {
      var e := out.log[|st.log|];
      var mid := out.(log := st.log);
      assert Honest(mid);
      PlainEventKeepsHonest(mid, e);
      assert out == Emit(mid, e);
    }
  }

  lemma StepKeepsHonest(st: Room, a: Action)
    requires Honest(st) && Enabled(st, a)
    ensures Honest(Apply(st, a))
  {
    match a
    case DoMarkReady(c, id) => MarkReadyKeepsHonest(st, c, id);
    case RunMaybeStart => MaybeStartKeepsHonest(Retire(st, OwesMaybeStart));
    case RunStart(id) => StartKeepsHonest(Retire(st, OwesStart(id)), id);
    case DoPause => ControlKeepsHonest(st, a);
    case DoResume => ControlKeepsHonest(st, a);
    case DoSeek(_) => ControlKeepsHonest(st, a);
    case _ => QuietActions(st, a);
  }

  /**
    Across any interleaving of ready reports, rechecks, ready timers and all other calls, each
    playback is started at most once and is started exactly when its start message is in the log;
    and after that start a client gets at most one resync, never if it was ready before.
   */
  lemma {:induction false} OneStartOneResync(mode: Mode, now: int, acts: seq<Action>)
    requires ValidRun(Init(mode, now), acts)
    ensures
      var st := Exec(Init(mode, now), acts);
      Honest(st)
    decreases |acts|
  {
    if |acts| > 0 {
      var k := |acts| - 1;
      OneStartOneResync(mode, now, acts[..k]);
      StepKeepsHonest(Exec(Init(mode, now), acts[..k]), acts[k]);
    }
  }

  /** The newest message describes the current playback as it is now. */
  predicate NewestIsCurrent(st: Room) {
    st.mode.Signal? && st.playing.Some? ==>
      && |st.log| > 0
      && var pb, last := st.playing.value, st.log[|st.log| - 1];
      && last.instance == pb.instance
      && if pb.started then !last.Prepared? && last.np == NowPlaying(pb.trackID, pb.t0, pb.s, pb.paused)
         else last == Prepared(pb.instance, pb.trackID, pb.fileURL, pb.durationMs, pb.title)
  }

  lemma ControlKeepsNewest(st: Room, ms: int)
    requires NewestIsCurrent(st)
    ensures NewestIsCurrent(Pause(st)) && NewestIsCurrent(Resume(st)) && NewestIsCurrent(SeekTo(st, ms))
  {
  }

  lemma ReadyKeepsNewest(st: Room, client: string, id: string)
    requires NewestIsCurrent(st)
    ensures NewestIsCurrent(MarkReady(st, client, id)) && NewestIsCurrent(RecheckReady(st))
  {
  }

  lemma StartKeepsNewest(st: Room, id: string)
    requires NewestIsCurrent(st)
    ensures NewestIsCurrent(MaybeStart(st)) && NewestIsCurrent(StartPlayback(st, id))
  {
  }

  lemma StepKeepsNewest(st: Room, a: Action)
    requires NewestIsCurrent(st) && Enabled(st, a)
    ensures NewestIsCurrent(Apply(st, a))
  {
    match a
    case DoPause => ControlKeepsNewest(st, 0);
    case DoResume => ControlKeepsNewest(st, 0);
    case DoSeek(ms) => ControlKeepsNewest(st, ms);
    case DoMarkReady(c, id) => ReadyKeepsNewest(st, c, id);
    case DoRecheckReady => ReadyKeepsNewest(st, "", "");
    case RunMaybeStart => StartKeepsNewest(Retire(st, OwesMaybeStart), "");
    case RunStart(id) => StartKeepsNewest(Retire(st, OwesStart(id)), id);
    case _ =>
  }

  /**
    Server authority: in every reachable state the newest message decided on is about the
    current playback and carries its present anchor, so whoever follows it has the server's position.
   */
  lemma {:induction false} NewestMessageIsCurrent(mode: Mode, now: int, acts: seq<Action>)
    requires ValidRun(Init(mode, now), acts)
    ensures NewestIsCurrent(Exec(Init(mode, now), acts))
    decreases |acts|
  {
    if |acts| > 0 {
      var k := |acts| - 1;
      NewestMessageIsCurrent(mode, now, acts[..k]);
      StepKeepsNewest(Exec(Init(mode, now), acts[..k]), acts[k]);
    }
  }
}
