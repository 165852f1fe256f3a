/**
  The broadcaster object: its fields change in place under the lock, one method for each
  atomic action, and the channels and contexts are known by number.
 */
module BroadcastObject {
  import opened Options
  import M = BroadcastMachine

  class Broadcaster {
    var paused: bool
    var closed: bool
    var resumeCh: nat
    var cancel: Option<nat>
    var shut: set<nat>
    var cancelled: set<nat>
    var nextCh: nat
    var nextCtx: nat

    ghost function State(): M.Broadcaster
      reads this
    {
      M.Broadcaster(paused, closed, resumeCh, cancel, shut, cancelled, nextCh, nextCtx)
    }

    constructor ()
      ensures State() == M.New()
    {
      paused, closed, resumeCh, cancel, shut, cancelled, nextCh, nextCtx := false, false, 0, None, {}, {}, 1, 0;
    }

    method MakeChannel() returns (ch: nat)
      modifies `nextCh
      ensures ch == old(nextCh) && nextCh == ch + 1
    {
      ch := nextCh;
      nextCh := nextCh + 1;
    }

    /** Stop's region; its caller owes the cancel and the close of what it returns. */
    method TakeForStop() returns (ctx: Option<nat>, ch: nat)
      modifies this
      ensures State() == M.Swap(old(State())) && ctx == old(cancel) && ch == old(resumeCh)
    {
      ctx := cancel;
      cancel := None;
      paused := false;
      ch := resumeCh;
      resumeCh := MakeChannel();
    }

    method Pause()
      modifies `paused
      ensures State() == M.Pause(old(State()))
    {
      paused := true;
    }

    /** Resume's region; when there was a pause, its caller owes the close of the channel. */
    method TakeForResume() returns (ch: Option<nat>)
      modifies this
      ensures old(paused) ==> State() == M.Unpause(old(State())) && ch == Some(old(resumeCh))
      ensures !old(paused) ==> State() == old(State()) && ch == None
    {
      if !paused {
        return None;
      }
      paused := false;
      ch := Some(resumeCh);
      resumeCh := MakeChannel();
    }

    /** Closing a closed channel would panic. */
    method CloseChannel(ch: nat)
      requires ch !in shut
      modifies `shut
      ensures State() == M.Shut(old(State()), ch)
    {
      shut := shut + {ch};
    }

    method CancelContext(ctx: Option<nat>)
      modifies `cancelled
      ensures State() == M.Cancel(old(State()), ctx)
    {
      if ctx.Some? {
        cancelled := cancelled + {ctx.value};
      }
    }

    /** Play's second region. */
    method Install() returns (ctx: Option<nat>)
      modifies this
      ensures State() == M.Install(old(State()))
      ensures ctx == if old(closed) then None else Some(old(nextCtx))
    {
      if closed {
        return None;
      }
      ctx := Some(nextCtx);
      nextCtx := nextCtx + 1;
      cancel := ctx;
    }

    method ShutDown()
      modifies `closed
      ensures State() == old(State()).(closed := true)
    {
      closed := true;
    }

    /** waitIfPaused's region: a channel to block on, or whether the pump goes on. */
    method Poll(ctx: nat) returns (ch: Option<nat>, go: bool)
      ensures M.Poll(State(), ctx) == if ch.Some? then M.Blocked(ctx, ch.value) else M.Finished(go)
    {
      if !paused || closed {
        return None, ctx !in cancelled;
      }
      return Some(resumeCh), false;
    }
  }
}
