/**
  What ready reports lead to: who counts as ready, and that every late report is answered.
 */
module ReadyReports {
  import opened Options
  import opened PlaybackMachine
  import opened StartOnce

  /** The clients that reported ready for the track since its playback was installed. */
  function Reporters(st: Room, acts: seq<Action>): set<string>
    requires ValidRun(st, acts)
  {
    if |acts| == 0 then {}
    else
      var k := |acts| - 1;
      var was, a := Exec(st, acts[..k]), acts[k];
      if a.RunMaybeStart? && was.playing.None? then {}
      else if a.DoMarkReady? && was.playing.Some? && was.playing.value.trackID == a.trackID then
        Reporters(st, acts[..k]) + {a.client}
      else Reporters(st, acts[..k])
  }

  /** Anything but a ready report leaves the ready set of a playback alone; a new one is empty. */
  lemma OthersMarkNobody(st: Room, a: Action)
    requires Enabled(st, a) && !a.DoMarkReady? && Apply(st, a).playing.Some?
    ensures Apply(st, a).playing.value.ready == if st.playing.Some? then st.playing.value.ready else {}
    ensures st.playing.None? ==> a.RunMaybeStart?
  {
  }

  lemma ReportsMark(st: Room, client: string, id: string)
    requires st.mode.Signal?
    ensures st.playing.Some? <==> MarkReady(st, client, id).playing.Some?
    ensures
      st.playing.Some? ==>
        MarkReady(st, client, id).playing.value.ready ==
          st.playing.value.ready + if st.playing.value.trackID == id then {client} else {}
  {
  }

  /** The ready set of the current playback is exactly the clients that reported for it. */
  lemma {:induction false} ReadyIffReported(now: int, acts: seq<Action>)
    requires ValidRun(Init(Signal, now), acts)
    ensures
      var st := Exec(Init(Signal, now), acts);
      st.mode.Signal? && (st.playing.Some? ==> st.playing.value.ready == Reporters(Init(Signal, now), acts))
    decreases |acts|
  {
    if |acts| > 0 {
      var k := |acts| - 1;
      ReadyIffReported(now, acts[..k]);
      var was := Exec(Init(Signal, now), acts[..k]);
      ModeStays(was, acts[k]);
      if acts[k].DoMarkReady? {
        ReportsMark(was, acts[k].client, acts[k].trackID);
      } else if Apply(was, acts[k]).playing.Some? {
        OthersMarkNobody(was, acts[k]);
      }
    }
  }

  /** A report for a playing track is answered at once with the anchor of that moment, and only once. */
  lemma LateReportIsAnswered(st: Room, client: string)
    requires st.mode.Signal? && st.playing.Some? && st.playing.value.started
    ensures
      var pb, out := st.playing.value, MarkReady(st, client, st.playing.value.trackID);
      && out.log == st.log + (if client in pb.ready then []
                              else [Resynced(pb.instance, client, NowPlaying(pb.trackID, pb.t0, pb.s, pb.paused))])
      && out == st.(playing := Some(pb.(ready := pb.ready + {client})), log := out.log)
  {
    assert client in st.playing.value.ready ==> st.playing.value.ready + {client} == st.playing.value.ready;
  }

  predicate Told(log: seq<Event>, inst: nat, client: string) {
    exists i :: 0 <= i < |log| && log[i].instance == inst &&
                ((log[i].Started? && client in log[i].readyBefore) || (log[i].Resynced? && log[i].client == client))
  }

  lemma StillTold(log: seq<Event>, more: seq<Event>, inst: nat, client: string)
    requires Told(log, inst, client)
    ensures Told(log + more, inst, client)
  {
    var i :| 0 <= i < |log| && log[i].instance == inst &&
             ((log[i].Started? && client in log[i].readyBefore) || (log[i].Resynced? && log[i].client == client));
    assert (log + more)[i] == log[i];
  }

  predicate AllTold(st: Room) {
    st.playing.Some? && st.playing.value.started ==>
      forall client :: client in st.playing.value.ready ==> Told(st.log, st.playing.value.instance, client)
  }

  lemma GrowingKeepsTold(st: Room, out: Room, more: seq<Event>)
    requires AllTold(st) && st.playing.Some? && out.playing.Some?
    requires st.playing.value.started && out.playing.value.instance == st.playing.value.instance
    requires out.playing.value.ready == st.playing.value.ready && out.log == st.log + more
    ensures AllTold(out)
  {
    forall client | client in out.playing.value.ready ensures Told(out.log, out.playing.value.instance, client) {
      StillTold(st.log, more, st.playing.value.instance, client);
    }
  }

  lemma ReportKeepsTold(st: Room, client: string, id: string)
    requires AllTold(st) && st.mode.Signal?
    ensures AllTold(MarkReady(st, client, id))
  {
    if st.playing.Some? && st.playing.value.trackID == id && st.playing.value.started && client !in st.playing.value.ready {
      LateReportIsAnswered(st, client);
      var pb, out := st.playing.value, MarkReady(st, client, id);
      var resync := [Resynced(pb.instance, client, NowPlaying(pb.trackID, pb.t0, pb.s, pb.paused))];
      forall c | c in out.playing.value.ready ensures Told(out.log, pb.instance, c) {
        if c == client {
          assert out.log[|st.log|] == resync[0];
        } else {
          StillTold(st.log, resync, pb.instance, c);
        }
      }
    }
  }

  lemma StartTells(st: Room, id: string)
    requires AllTold(st)
    ensures AllTold(StartPlayback(st, id))
  {
    var out := StartPlayback(st, id);
    if out != st {
      assert out.log[|st.log|].Started?;
    }
  }

  lemma ControlKeepsTold(st: Room, ms: int)
    requires AllTold(st)
    ensures AllTold(Pause(st)) && AllTold(Resume(st)) && AllTold(SeekTo(st, ms))
  {
    if st.playing.Some? && st.playing.value.started && st.mode.Signal? {
      if !st.playing.value.paused {
        var out := Pause(st);
        GrowingKeepsTold(st, out, [out.log[|st.log|]]);
      } else {
        var out := Resume(st);
        GrowingKeepsTold(st, out, [out.log[|st.log|]]);
      }
      var out := SeekTo(st, ms);
      GrowingKeepsTold(st, out, [out.log[|st.log|]]);
    }
  }

  lemma StepTells(st: Room, a: Action)
    requires AllTold(st) && st.mode.Signal? && Enabled(st, a)
    ensures AllTold(Apply(st, a))
  {
    match a
    case DoMarkReady(c, id) => ReportKeepsTold(st, c, id);
    case RunStart(id) => StartTells(Retire(st, OwesStart(id)), id);
    case DoPause => ControlKeepsTold(st, 0);
    case DoResume => ControlKeepsTold(st, 0);
    case DoSeek(ms) => ControlKeepsTold(st, ms);
    case RunMaybeStart =>
    case _ => QuietActions(st, a);
  }

  lemma {:induction false} RunTells(now: int, acts: seq<Action>)
    requires ValidRun(Init(Signal, now), acts)
    ensures AllTold(Exec(Init(Signal, now), acts))
    decreases |acts|
  {
    if |acts| > 0 {
      var k := |acts| - 1;
      RunTells(now, acts[..k]);
      ReadyIffReported(now, acts[..k]);
      StepTells(Exec(Init(Signal, now), acts[..k]), acts[k]);
    }
  }

  function Resyncs(log: seq<Event>, inst: nat, client: string): nat {
    if |log| == 0 then 0
    else
      var e := log[|log| - 1];
      Resyncs(log[..|log| - 1], inst, client) + if e.Resynced? && e.instance == inst && e.client == client then 1 else 0
  }

  predicate ReadyAtStart(log: seq<Event>, inst: nat, client: string) {
    exists i :: 0 <= i < |log| && log[i].Started? && log[i].instance == inst && client in log[i].readyBefore
  }

  lemma {:induction false} ResyncsCount(log: seq<Event>, inst: nat, client: string)
    requires SingleResyncs(log)
    ensures Resyncs(log, inst, client) <= 1
    ensures Resyncs(log, inst, client) == 1 <==>
              exists i :: 0 <= i < |log| && log[i].Resynced? && log[i].instance == inst && log[i].client == client
    decreases |log|
  {
    if |log| > 0 {
      var k := |log| - 1;
      ResyncsCount(log[..k], inst, client);
      if i :| 0 <= i < k && log[i].Resynced? && log[i].instance == inst && log[i].client == client {
        assert log[..k][i] == log[i];
      }
    }
  }

  /**
    Once a track is started, exactly the clients that have reported ready for it know where it is:
    each was ready before the start, and then gets no resync, or has had exactly one resync; and
    nobody else has had one.
   */
  lemma ReportersAreAnsweredOnce(now: int, acts: seq<Action>, client: string)
    requires ValidRun(Init(Signal, now), acts)
    requires Exec(Init(Signal, now), acts).playing.Some? && Exec(Init(Signal, now), acts).playing.value.started
    ensures
      var st := Exec(Init(Signal, now), acts);
      var inst := st.playing.value.instance;
      Resyncs(st.log, inst, client) ==
        if client in Reporters(Init(Signal, now), acts) && !ReadyAtStart(st.log, inst, client) then 1 else 0
  {
    var st := Exec(Init(Signal, now), acts);
    RunTells(now, acts);
    ReadyIffReported(now, acts);
    OneStartOneResync(Signal, now, acts);
    ResyncsCount(st.log, st.playing.value.instance, client);
  }
}
