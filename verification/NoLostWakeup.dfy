/**
  No lost wake-up and no double close, under every interleaving of stops, pauses, resumes,
  plays, the shutdown and any number of waiting pumps.
 */
module NoLostWakeup {
  import opened BroadcastMachine

  /** The call still owes the close of the channel it took. */
  predicate Owes(pc: Pc, ch: nat) {
    (pc.StopCancels? || pc.StopCloses? || pc.ResumeCloses?) && pc.ch == ch
  }

  predicate IsOwing(pc: Pc) {
    pc.StopCancels? || pc.StopCloses? || pc.ResumeCloses?
  }

  predicate OwedBySomeone(s: System, ch: nat) {
    exists tid :: tid in s.threads && Owes(s.threads[tid], ch)
  }

  /** Every channel made is installed, closed, or owed a close by exactly one call; never two of these. */
  ghost predicate ChannelsAccounted(s: System) {
    && s.b.resumeCh < s.b.nextCh
    && s.b.resumeCh !in s.b.shut
    && (forall ch :: ch in s.b.shut ==> ch < s.b.nextCh)
    && (forall tid :: tid in s.threads && IsOwing(s.threads[tid]) ==>
          var ch := s.threads[tid].ch;
          ch < s.b.nextCh && ch != s.b.resumeCh && ch !in s.b.shut)
    && (forall x, y :: x in s.threads && y in s.threads && x != y && IsOwing(s.threads[x]) && IsOwing(s.threads[y]) ==>
          s.threads[x].ch != s.threads[y].ch)
    && (forall ch: nat :: ch < s.b.nextCh && ch != s.b.resumeCh && ch !in s.b.shut ==> OwedBySomeone(s, ch))
  }

  /** A blocked waiter holds a channel that was made, and the installed one only during a pause. */
  ghost predicate WaitersPlaced(s: System) {
    forall tid :: tid in s.threads && s.threads[tid].Blocked? ==>
      s.threads[tid].ch < s.b.nextCh && (s.threads[tid].ch == s.b.resumeCh ==> s.b.paused)
  }

  lemma SwapKeepsAccounts(s: System, a: Action)
    requires ChannelsAccounted(s) && Enabled(s, a) && (a.CallStop? || a.CallResume?)
    ensures ChannelsAccounted(Apply(s, a))
  {
    var out := Apply(s, a);
    forall ch: nat | ch < out.b.nextCh && ch != out.b.resumeCh && ch !in out.b.shut ensures OwedBySomeone(out, ch) {
      if ch == s.b.resumeCh {
        assert Owes(out.threads[a.tid], ch);
      } else {
        assert OwedBySomeone(s, ch);
        var tid :| tid in s.threads && Owes(s.threads[tid], ch);
        assert Owes(out.threads[tid], ch);
      }
    }
  }

  lemma CloseKeepsAccounts(s: System, tid: nat)
    requires ChannelsAccounted(s) && Enabled(s, DoClose(tid))
    ensures ChannelsAccounted(Apply(s, DoClose(tid)))
  {
    var out := Apply(s, DoClose(tid));
    forall ch: nat | ch < out.b.nextCh && ch != out.b.resumeCh && ch !in out.b.shut ensures OwedBySomeone(out, ch) {
      CloseKeepsDebt(s, tid, ch);
    }
  }

  /** Closing one channel leaves every other debt where it is. */
  lemma CloseKeepsDebt(s: System, tid: nat, ch: nat)
    requires ChannelsAccounted(s) && Enabled(s, DoClose(tid))
    requires ch < s.b.nextCh && ch != s.b.resumeCh && ch !in s.b.shut && ch != s.threads[tid].ch
    ensures OwedBySomeone(Apply(s, DoClose(tid)), ch)
  {
    assert OwedBySomeone(s, ch);
    var other :| other in s.threads && Owes(s.threads[other], ch);
    assert Owes(Apply(s, DoClose(tid)).threads[other], ch);
  }

  /** The same calls owe the same closes, and no channel was made or closed. */
  ghost predicate SameDebts(s: System, out: System) {
    && out.b.resumeCh == s.b.resumeCh && out.b.shut == s.b.shut && out.b.nextCh == s.b.nextCh
    && s.threads.Keys <= out.threads.Keys
    && (forall tid :: tid in out.threads && IsOwing(out.threads[tid]) ==>
          tid in s.threads && Owes(s.threads[tid], out.threads[tid].ch))
    && (forall tid :: tid in s.threads && IsOwing(s.threads[tid]) ==> Owes(out.threads[tid], s.threads[tid].ch))
  }

  lemma SameDebtsKeepAccounts(s: System, out: System)
    requires ChannelsAccounted(s) && SameDebts(s, out)
    ensures ChannelsAccounted(out)
  {
  }

  lemma OthersKeepAccounts(s: System, a: Action)
    requires ChannelsAccounted(s) && Enabled(s, a) && !a.CallStop? && !a.CallResume? && !a.DoClose?
    ensures ChannelsAccounted(Apply(s, a))
  {
    SameDebtsKeepAccounts(s, Apply(s, a));
  }

  lemma StepKeepsChannels(s: System, a: Action)
    requires ChannelsAccounted(s) && WaitersPlaced(s) && Enabled(s, a)
    ensures ChannelsAccounted(Apply(s, a)) && WaitersPlaced(Apply(s, a))
  {
    if a.CallStop? || a.CallResume? {
      SwapKeepsAccounts(s, a);
    } else if a.DoClose? {
      CloseKeepsAccounts(s, a.tid);
    } else {
      OthersKeepAccounts(s, a);
    }
  }

  lemma {:induction false} RunKeepsAccounts(s: System, acts: seq<Action>)
    requires ChannelsAccounted(s) && WaitersPlaced(s) && ValidRun(s, acts)
    ensures ChannelsAccounted(Exec(s, acts)) && WaitersPlaced(Exec(s, acts))
    decreases |acts|
  {
    if |acts| > 0 {
      var k := |acts| - 1;
      RunKeepsAccounts(s, acts[..k]);
      StepKeepsChannels(Exec(s, acts[..k]), acts[k]);
    }
  }

  /**
    No double close: in every reachable state the installed channel is open, and the channel a
    call is about to close was taken by that call alone and is still open.
   */
  lemma EachChannelClosesOnce(acts: seq<Action>, tid: nat)
    requires ValidRun(Init(), acts) && Enabled(Exec(Init(), acts), DoClose(tid))
    ensures
      var s := Exec(Init(), acts);
      && s.b.resumeCh !in s.b.shut
      && s.threads[tid].ch !in s.b.shut && s.threads[tid].ch != s.b.resumeCh
      && (forall other :: other in s.threads && other != tid ==> !Owes(s.threads[other], s.threads[tid].ch))
  {
    RunKeepsAccounts(Init(), acts);
  }

  /**
    No lost wake-up: a blocked waiter either holds the installed channel while the pause lasts,
    or its channel is closed already, or is owed a close by a call in flight.
   */
  lemma BlockedWaitersAreWoken(acts: seq<Action>, tid: nat)
    requires ValidRun(Init(), acts)
    requires tid in Exec(Init(), acts).threads && Exec(Init(), acts).threads[tid].Blocked?
    ensures
      var s := Exec(Init(), acts);
      var ch := s.threads[tid].ch;
      (ch == s.b.resumeCh && s.b.paused && ch !in s.b.shut) || ch in s.b.shut || OwedBySomeone(s, ch)
  {
    RunKeepsAccounts(Init(), acts);
  }

  /**
    So once the calls in flight have done their closes, a waiter stays blocked only while the
    broadcaster is paused: otherwise it can wake, and if not closed or paused again it goes on
    exactly when its stream was not cancelled.
   */
  lemma QuietWaiterCanWake(acts: seq<Action>, tid: nat)
    requires ValidRun(Init(), acts)
    requires tid in Exec(Init(), acts).threads && Exec(Init(), acts).threads[tid].Blocked?
    requires forall t :: t in Exec(Init(), acts).threads ==> !IsOwing(Exec(Init(), acts).threads[t])
    requires !Exec(Init(), acts).b.paused
    ensures
      var s := Exec(Init(), acts);
      && Enabled(s, Woken(tid))
      && var woken := Apply(s, Woken(tid));
      && Enabled(woken, DoPoll(tid))
      && Apply(woken, DoPoll(tid)).threads[tid] == Finished(s.threads[tid].ctx !in s.b.cancelled)
  {
    BlockedWaitersAreWoken(acts, tid);
  }

  /** A call that owes a close is never blocked: it can always take its next step toward it. */
  lemma OwedCloseIsNeverBlocked(s: System, tid: nat)
    requires tid in s.threads && IsOwing(s.threads[tid])
    ensures s.threads[tid].StopCancels? ==>
              Enabled(s, DoCancel(tid)) && Owes(Apply(s, DoCancel(tid)).threads[tid], s.threads[tid].ch)
    ensures !s.threads[tid].StopCancels? ==>
              Enabled(s, DoClose(tid)) && s.threads[tid].ch in Apply(s, DoClose(tid)).b.shut
  {
  }

  lemma StepKeepsDebt(s: System, a: Action, tid: nat, ch: nat)
    requires Enabled(s, a) && tid in s.threads && (Owes(s.threads[tid], ch) || ch in s.b.shut)
    ensures
      var out := Apply(s, a);
      tid in out.threads && (Owes(out.threads[tid], ch) || ch in out.b.shut)
  {
  }

  lemma {:induction false} RunKeepsDebt(s: System, acts: seq<Action>, tid: nat, ch: nat)
    requires ValidRun(s, acts) && tid in s.threads && Owes(s.threads[tid], ch)
    ensures
      var end := Exec(s, acts);
      tid in end.threads && (Owes(end.threads[tid], ch) || ch in end.b.shut)
    decreases |acts|
  {
    if |acts| > 0 {
      var k := |acts| - 1;
      RunKeepsDebt(s, acts[..k], tid, ch);
      StepKeepsDebt(Exec(s, acts[..k]), acts[k], tid, ch);
    }
  }

  /**
    The call that swaps a channel out closes it, and it alone: after any later run it either
    still owes that close or the channel is closed, never both, and nobody else owes it.
   */
  lemma TakerClosesItsChannel(before: seq<Action>, a: Action, acts: seq<Action>)
    requires ValidRun(Init(), before) && Enabled(Exec(Init(), before), a)
    requires a.CallStop? || (a.CallResume? && Exec(Init(), before).b.paused)
    requires ValidRun(Apply(Exec(Init(), before), a), acts)
    ensures
      var ch := Exec(Init(), before).b.resumeCh;
      var end := Exec(Apply(Exec(Init(), before), a), acts);
      && a.tid in end.threads
      && (Owes(end.threads[a.tid], ch) <==> ch !in end.b.shut)
      && (forall other :: other in end.threads && other != a.tid ==> !Owes(end.threads[other], ch))
  {
    RunKeepsAccounts(Init(), before);
    var s := Exec(Init(), before);
    var next := Apply(s, a);
    StepKeepsChannels(s, a);
    RunKeepsDebt(next, acts, a.tid, s.b.resumeCh);
    RunKeepsAccounts(next, acts);
    NobodyElseOwes(s, a, acts);
  }

  lemma StepKeepsOutOfDebt(s: System, a: Action, tid: nat, ch: nat)
    requires ChannelsAccounted(s) && Enabled(s, a) && ch < s.b.nextCh && ch != s.b.resumeCh
    requires forall other :: other in s.threads && other != tid ==> !Owes(s.threads[other], ch)
    requires tid in s.threads
    ensures forall other :: other in Apply(s, a).threads && other != tid ==> !Owes(Apply(s, a).threads[other], ch)
    ensures ch < Apply(s, a).b.nextCh && ch != Apply(s, a).b.resumeCh
  {
  }

  lemma {:induction false} NobodyElseOwes(s: System, a: Action, acts: seq<Action>)
    requires ChannelsAccounted(s) && WaitersPlaced(s) && Enabled(s, a)
    requires a.CallStop? || (a.CallResume? && s.b.paused)
    requires ValidRun(Apply(s, a), acts)
    ensures
      var end := Exec(Apply(s, a), acts);
      && a.tid in end.threads
      && s.b.resumeCh < end.b.nextCh && s.b.resumeCh != end.b.resumeCh
      && (forall other :: other in end.threads && other != a.tid ==> !Owes(end.threads[other], s.b.resumeCh))
    decreases |acts|
  {
    StepKeepsChannels(s, a);
    if |acts| > 0 {
      var k := |acts| - 1;
      NobodyElseOwes(s, a, acts[..k]);
      RunKeepsAccounts(Apply(s, a), acts[..k]);
      StepKeepsOutOfDebt(Exec(Apply(s, a), acts[..k]), acts[k], a.tid, s.b.resumeCh);
    }
  }
}
