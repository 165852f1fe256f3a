/**
  What the broadcaster does, read off the calls that were made: when it is paused, which stream
  context is current, which were cancelled, and so what every waiting pump is told.
 */
module BroadcastHistory {
  import opened Options
  import opened BroadcastMachine

  /** The last pause, stop or resume was a pause. */
  predicate PausedBy(acts: seq<Action>) {
    |acts| > 0 &&
    var before := PausedBy(acts[..|acts| - 1]);
    match acts[|acts| - 1]
    case CallPause => true
    case CallStop(_, _) => false
    case CallResume(_) => false
    case _ => before
  }

  predicate ShutBy(acts: seq<Action>) {
    |acts| > 0 && (ShutBy(acts[..|acts| - 1]) || acts[|acts| - 1].DoShutDown?)
  }

  /** The number of streams that were begun. */
  function Begun(acts: seq<Action>): nat {
    if |acts| == 0 then 0
    else
      var front := acts[..|acts| - 1];
      Begun(front) + if acts[|acts| - 1].DoInstall? && !ShutBy(front) then 1 else 0
  }

  /** The stream begun last, if no stop came after it. */
  function CurrentBy(acts: seq<Action>): Option<nat> {
    if |acts| == 0 then None
    else
      var front, a := acts[..|acts| - 1], acts[|acts| - 1];
      if a.CallStop? then None
      else if a.DoInstall? && !ShutBy(front) then Some(Begun(front))
      else CurrentBy(front)
  }

  /** The stream that was current when the call `tid` stopped it. */
  function TakenBy(acts: seq<Action>, tid: nat): Option<nat> {
    if |acts| == 0 then None
    else
      var front, a := acts[..|acts| - 1], acts[|acts| - 1];
      if a.CallStop? && a.tid == tid then CurrentBy(front) else TakenBy(front, tid)
  }

  /** The streams whose stopping call has come to its cancel. */
  function CancelledBy(acts: seq<Action>): set<nat> {
    if |acts| == 0 then {}
    else
      var front, a := acts[..|acts| - 1], acts[|acts| - 1];
      CancelledBy(front) +
        if a.DoCancel? && TakenBy(front, a.tid).Some? then {TakenBy(front, a.tid).value} else {}
  }

  /** The fields under the lock are what the history says. */
  predicate FieldsFollow(s: System, acts: seq<Action>) {
    && s.b.paused == PausedBy(acts)
    && s.b.closed == ShutBy(acts)
    && s.b.cancel == CurrentBy(acts)
    && s.b.nextCtx == Begun(acts)
    && s.b.cancelled == CancelledBy(acts)
  }

  predicate StopsFollow(s: System, acts: seq<Action>) {
    forall tid :: tid in s.threads && s.threads[tid].StopCancels? ==> s.threads[tid].took == TakenBy(acts, tid)
  }

  lemma {:induction false} RunFollows(acts: seq<Action>)
    requires ValidRun(Init(), acts)
    ensures FieldsFollow(Exec(Init(), acts), acts) && StopsFollow(Exec(Init(), acts), acts)
    decreases |acts|
  {
    if |acts| > 0 {
      RunFollows(acts[..|acts| - 1]);
      FieldsStay(acts);
      StopsStay(acts);
    }
  }

  lemma FieldsStay(acts: seq<Action>)
    requires |acts| > 0 && ValidRun(Init(), acts)
    requires
      var front := acts[..|acts| - 1];
      FieldsFollow(Exec(Init(), front), front) && StopsFollow(Exec(Init(), front), front)
    ensures FieldsFollow(Exec(Init(), acts), acts)
  {
  }

  lemma StopsStay(acts: seq<Action>)
    requires |acts| > 0 && ValidRun(Init(), acts)
    requires
      var front := acts[..|acts| - 1];
      FieldsFollow(Exec(Init(), front), front) && StopsFollow(Exec(Init(), front), front)
    ensures StopsFollow(Exec(Init(), acts), acts)
  {
  }

  /**
    What a pump is told, from the actions alone: to block on the installed channel exactly while
    the last pause, stop or resume was a pause and no shutdown came; otherwise to go on exactly if
    its stream was not stopped.
   */
  lemma PollsAreHistory(acts: seq<Action>, tid: nat)
    requires ValidRun(Init(), acts) && Enabled(Exec(Init(), acts), DoPoll(tid))
    ensures
      var s := Exec(Init(), acts);
      var ctx := s.threads[tid].ctx;
      Apply(s, DoPoll(tid)).threads[tid] ==
        if PausedBy(acts) && !ShutBy(acts) then Blocked(ctx, s.b.resumeCh) else Finished(ctx !in CancelledBy(acts))
  {
    RunFollows(acts);
  }

  /** No stop or resume and no shutdown. */
  predicate KeepsPause(acts: seq<Action>) {
    forall k :: 0 <= k < |acts| ==> !acts[k].CallStop? && !acts[k].CallResume? && !acts[k].DoShutDown?
  }

  lemma {:induction false} PauseLasts(before: seq<Action>, acts: seq<Action>)
    requires KeepsPause(acts)
    ensures PausedBy(before + [CallPause] + acts) && ShutBy(before + [CallPause] + acts) == ShutBy(before)
    decreases |acts|
  {
    var all := before + [CallPause] + acts;
    if |acts| == 0 {
      assert all[..|all| - 1] == before;
    } else {
      assert all[..|all| - 1] == before + [CallPause] + acts[..|acts| - 1];
      PauseLasts(before, acts[..|acts| - 1]);
    }
  }

  /** After a pause, until a stop, resume or shutdown, every pump that asks is held back. */
  lemma PauseBlocksPumps(before: seq<Action>, acts: seq<Action>, tid: nat)
    requires KeepsPause(acts) && !ShutBy(before)
    requires ValidRun(Init(), before + [CallPause] + acts)
    requires Enabled(Exec(Init(), before + [CallPause] + acts), DoPoll(tid))
    ensures
      var s := Exec(Init(), before + [CallPause] + acts);
      Apply(s, DoPoll(tid)).threads[tid] == Blocked(s.threads[tid].ctx, s.b.resumeCh)
  {
    PauseLasts(before, acts);
    PollsAreHistory(before + [CallPause] + acts, tid);
  }

  lemma {:induction false} CancelLasts(acts: seq<Action>, n: nat)
    requires n <= |acts|
    ensures CancelledBy(acts[..n]) <= CancelledBy(acts)
    decreases |acts|
  {
    if n < |acts| {
      CancelLasts(acts[..|acts| - 1], n);
      assert acts[..|acts| - 1][..n] == acts[..n];
    } else {
      assert acts[..n] == acts;
    }
  }

  /** A call of the run has stopped the stream `ctx` and come to its cancel. */
  predicate Stopped(acts: seq<Action>, ctx: nat) {
    exists n :: 0 <= n < |acts| && acts[n].DoCancel? && TakenBy(acts[..n], acts[n].tid) == Some(ctx)
  }

  lemma StoppedIsCancelled(acts: seq<Action>, ctx: nat)
    requires Stopped(acts, ctx)
    ensures ctx in CancelledBy(acts)
  {
    var n :| 0 <= n < |acts| && acts[n].DoCancel? && TakenBy(acts[..n], acts[n].tid) == Some(ctx);
    assert acts[..n + 1][..n] == acts[..n];
    assert ctx in CancelledBy(acts[..n + 1]);
    CancelLasts(acts, n + 1);
  }

  /**
    Once a stop has come to its cancel, the stream it took never goes on again: a pump that asks
    is told to end, unless it is held back by a pause, and one held back can give up at once.
   */
  lemma StoppedStreamEnds(acts: seq<Action>, tid: nat, ctx: nat)
    requires ValidRun(Init(), acts) && Stopped(acts, ctx)
    ensures
      var s := Exec(Init(), acts);
      && (Enabled(s, DoPoll(tid)) && s.threads[tid].ctx == ctx ==>
            Apply(s, DoPoll(tid)).threads[tid] ==
              if PausedBy(acts) && !ShutBy(acts) then Blocked(ctx, s.b.resumeCh) else Finished(false))
      && (tid in s.threads && s.threads[tid].Blocked? && s.threads[tid].ctx == ctx ==>
            Enabled(s, Abandoned(tid)) && Apply(s, Abandoned(tid)).threads[tid] == Finished(false))
  {
    RunFollows(acts);
    StoppedIsCancelled(acts, ctx);
    if Enabled(Exec(Init(), acts), DoPoll(tid)) {
      PollsAreHistory(acts, tid);
    }
  }

  function Tid(a: Action): Option<nat> {
    if a.CallPause? then None else Some(a.tid)
  }

  /** The steps that the call `tid` has taken. */
  function Steps(acts: seq<Action>, tid: nat): seq<Action> {
    if |acts| == 0 then []
    else
      var a := acts[|acts| - 1];
      Steps(acts[..|acts| - 1], tid) + if Tid(a) == Some(tid) then [a] else []
  }

  /** Where a stopping call stands after the steps it has taken, and which steps those can be. */
  predicate StopProgram(pc: Pc, steps: seq<Action>)
    requires |steps| > 0 && steps[0].CallStop?
  {
    var tid, after := steps[0].tid, steps[0].after;
    || (|steps| == 1 && pc.StopCancels? && pc.after == after)
    || (steps[1..] == [DoCancel(tid)] && pc.StopCloses? && pc.after == after)
    || (steps[1..] == [DoCancel(tid), DoClose(tid)] &&
        match after
        case Nothing => pc == Finished(true)
        case PlayNext => pc == Installing
        case ShutDown => pc == Closing)
    || (after.PlayNext? && steps[1..] == [DoCancel(tid), DoClose(tid), DoInstall(tid)] && pc == Finished(true))
    || (after.ShutDown? && steps[1..] == [DoCancel(tid), DoClose(tid), DoShutDown(tid)] && pc == Finished(true))
  }

  predicate OnTrack(s: System, tid: nat, steps: seq<Action>) {
    if tid !in s.threads then steps == []
    else
      && |steps| > 0
      && (steps[0].CallStop? ==> steps[0].tid == tid && StopProgram(s.threads[tid], steps))
      && (steps[0].CallResume? ==> s.threads[tid].ResumeCloses? || s.threads[tid].Finished?)
      && (steps[0].CallWait? ==>
            var pc := s.threads[tid];
            pc.Finished? || ((pc.Polling? || pc.Blocked?) && pc.ctx == steps[0].ctx))
      && (steps[0].CallStop? || steps[0].CallResume? || steps[0].CallWait?)
  }

  lemma StepOnTrack(s: System, a: Action, tid: nat, steps: seq<Action>)
    requires Enabled(s, a) && OnTrack(s, tid, steps)
    ensures OnTrack(Apply(s, a), tid, steps + if Tid(a) == Some(tid) then [a] else [])
  {
    assert steps + [] == steps;
    if Tid(a) == Some(tid) {
      assert tid in s.threads ==> (steps + [a])[1..] == steps[1..] + [a];
    }
  }

  /**
    Every stop runs its whole program in order: it cancels, then closes the channel it took, and
    then, for a play, begins the next stream, or for a shutdown, shuts down. A pump waits for the
    stream it was called for to the end.
   */
  lemma {:induction false} CallsRunTheirProgram(acts: seq<Action>, tid: nat)
    requires ValidRun(Init(), acts)
    ensures OnTrack(Exec(Init(), acts), tid, Steps(acts, tid))
    decreases |acts|
  {
    if |acts| > 0 {
      var k := |acts| - 1;
      CallsRunTheirProgram(acts[..k], tid);
      StepOnTrack(Exec(Init(), acts[..k]), acts[k], tid, Steps(acts[..k], tid));
    }
  }
}
