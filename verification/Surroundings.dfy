/**
  A room's clock, sync setting and clients, read off the calls that were made.
 */
module Surroundings {
  import opened PlaybackMachine

  function NowBy(now: int, acts: seq<Action>): int {
    if |acts| == 0 then now
    else
      var a := acts[|acts| - 1];
      NowBy(now, acts[..|acts| - 1]) + if a.Tick? then a.elapsed else 0
  }

  function SyncBy(acts: seq<Action>): Sync {
    if |acts| == 0 then Responsive
    else
      var a := acts[|acts| - 1];
      if a.SetSync? then a.sync else SyncBy(acts[..|acts| - 1])
  }

  function ClientsBy(acts: seq<Action>): set<string> {
    if |acts| == 0 then {}
    else
      var a := acts[|acts| - 1];
      if a.SetClients? then a.clients else ClientsBy(acts[..|acts| - 1])
  }

  lemma StepSurroundings(st: Room, a: Action)
    requires Enabled(st, a)
    ensures Apply(st, a).now == st.now + if a.Tick? then a.elapsed else 0
    ensures Apply(st, a).sync == if a.SetSync? then a.sync else st.sync
    ensures Apply(st, a).clients == if a.SetClients? then a.clients else st.clients
  {
    match a
    case DoPause => ControlsKeepSurroundings(st, 0);
    case DoResume => ControlsKeepSurroundings(st, 0);
    case DoSeek(ms) => ControlsKeepSurroundings(st, ms);
    case RunMaybeStart => StartsKeepSurroundings(Retire(st, OwesMaybeStart), "");
    case RunStart(id) => StartsKeepSurroundings(Retire(st, OwesStart(id)), id);
    case Tick(_) =>
    case SetSync(_) =>
    case SetClients(_) =>
    case DoMarkReady(_, _) => CallsKeepSurroundings(st, a);
    case DoRecheckReady => CallsKeepSurroundings(st, a);
    case DoSkip => CallsKeepSurroundings(st, a);
    case Fire(_) => CallsKeepSurroundings(st, a);
    case StreamEnded(_) => CallsKeepSurroundings(st, a);
    case _ => QueueKeepsSurroundings(st, a);
  }

  predicate SameSurroundings(st: Room, out: Room) {
    out.now == st.now && out.sync == st.sync && out.clients == st.clients
  }

  lemma ControlsKeepSurroundings(st: Room, ms: int)
    ensures SameSurroundings(st, Pause(st)) && SameSurroundings(st, Resume(st)) && SameSurroundings(st, SeekTo(st, ms))
  {
  }

  lemma StartsKeepSurroundings(st: Room, id: string)
    ensures SameSurroundings(st, MaybeStart(st)) && SameSurroundings(st, StreamMaybeStart(st))
    ensures SameSurroundings(st, StartPlayback(st, id))
  {
  }

  lemma QueueKeepsSurroundings(st: Room, a: Action)
    requires Enabled(st, a) && (a.DoUpsert? || a.DoRemove? || a.DoCleanup? || a.RunEnd?)
    ensures SameSurroundings(st, Apply(st, a))
  {
  }

  lemma CallsKeepSurroundings(st: Room, a: Action)
    requires Enabled(st, a)
    requires a.DoMarkReady? || a.DoRecheckReady? || a.DoSkip? || a.Fire? || a.StreamEnded?
    ensures SameSurroundings(st, Apply(st, a))
  {
  }

  lemma {:induction false} SurroundingsAreHistory(mode: Mode, now: int, acts: seq<Action>)
    requires ValidRun(Init(mode, now), acts)
    ensures
      var st := Exec(Init(mode, now), acts);
      st.now == NowBy(now, acts) && st.sync == SyncBy(acts) && st.clients == ClientsBy(acts)
    decreases |acts|
  {
    if |acts| > 0 {
      var k := |acts| - 1;
      SurroundingsAreHistory(mode, now, acts[..k]);
      StepSurroundings(Exec(Init(mode, now), acts[..k]), acts[k]);
    }
  }
}
