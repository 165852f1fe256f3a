/**
  The pause and resume protocol of the stream broadcaster as a transition system. The fields
  under the lock are the pause flag, the closed flag, the installed resume channel and the
  cancel function; threads are calls caught between two of their atomic actions, and the pump
  of a stream waiting while it is paused. Channels and stream contexts are numbered as made.
 */
module BroadcastMachine {
  import opened Options

  /** What a call does once its Stop is over. */
  datatype After = Nothing | PlayNext | ShutDown

  datatype Pc =
    | StopCancels(took: Option<nat>, ch: nat, after: After)   // Stop has swapped, cancels next
    | StopCloses(ch: nat, after: After)                      // Stop closes the channel it took
    | ResumeCloses(ch: nat)                                  // Resume closes the channel it took
    | Installing                                             // Play installs a new context
    | Closing                                                // Close raises the closed flag
    | Polling(ctx: nat)                                      // waitIfPaused, before the lock
    | Blocked(ctx: nat, ch: nat)                             // waitIfPaused, in its select
    | Finished(go: bool)

  datatype Broadcaster = Broadcaster(
    paused: bool,
    closed: bool,
    resumeCh: nat,
    cancel: Option<nat>,
    shut: set<nat>,          // closed channels
    cancelled: set<nat>,     // cancelled contexts
    nextCh: nat,
    nextCtx: nat)

  datatype System = System(b: Broadcaster, threads: map<nat, Pc>)

  function New(): Broadcaster {
    Broadcaster(false, false, 0, None, {}, {}, 1, 0)
  }

  function Init(): System {
    System(New(), map[])
  }

  /** Stop's region: it takes the cancel function and the channel, and installs a new channel. */
  function Swap(b: Broadcaster): Broadcaster {
    b.(cancel := None, paused := false, resumeCh := b.nextCh, nextCh := b.nextCh + 1)
  }

  function Pause(b: Broadcaster): Broadcaster {
    b.(paused := true)
  }

  /** Resume's region, when there is a pause to end. */
  function Unpause(b: Broadcaster): Broadcaster {
    b.(paused := false, resumeCh := b.nextCh, nextCh := b.nextCh + 1)
  }

  function Shut(b: Broadcaster, ch: nat): Broadcaster {
    b.(shut := b.shut + {ch})
  }

  function Cancel(b: Broadcaster, ctx: Option<nat>): Broadcaster {
    if ctx.Some? then b.(cancelled := b.cancelled + {ctx.value}) else b
  }

  /** Play's second region: nothing once closed, else a new context and its cancel function. */
  function Install(b: Broadcaster): Broadcaster {
    if b.closed then b else b.(cancel := Some(b.nextCtx), nextCtx := b.nextCtx + 1)
  }

  /** waitIfPaused's region: go on, or take the installed channel to block on. */
  function Poll(b: Broadcaster, ctx: nat): Pc {
    if !b.paused || b.closed then Finished(ctx !in b.cancelled) else Blocked(ctx, b.resumeCh)
  }

  datatype Action =
    | CallStop(tid: nat, after: After)
    | CallPause
    | CallResume(tid: nat)
    | CallWait(tid: nat, ctx: nat)
    | DoCancel(tid: nat)
    | DoClose(tid: nat)
    | DoInstall(tid: nat)
    | DoShutDown(tid: nat)
    | DoPoll(tid: nat)
    | Woken(tid: nat)        // the select sees its channel closed
    | Abandoned(tid: nat)    // the select sees its context cancelled

  predicate Enabled(s: System, a: Action) {
    match a
    case CallStop(tid, _) => tid !in s.threads
    case CallPause => true
    case CallResume(tid) => tid !in s.threads
    case CallWait(tid, ctx) => tid !in s.threads && ctx < s.b.nextCtx
    case DoCancel(tid) => tid in s.threads && s.threads[tid].StopCancels?
    case DoClose(tid) => tid in s.threads && (s.threads[tid].StopCloses? || s.threads[tid].ResumeCloses?)
    case DoInstall(tid) => tid in s.threads && s.threads[tid].Installing?
    case DoShutDown(tid) => tid in s.threads && s.threads[tid].Closing?
    case DoPoll(tid) => tid in s.threads && s.threads[tid].Polling?
    case Woken(tid) => tid in s.threads && s.threads[tid].Blocked? && s.threads[tid].ch in s.b.shut
    case Abandoned(tid) => tid in s.threads && s.threads[tid].Blocked? && s.threads[tid].ctx in s.b.cancelled
  }

  function Put(s: System, tid: nat, b: Broadcaster, pc: Pc): System {
    System(b, s.threads[tid := pc])
  }

  function AfterStop(after: After): Pc {
    match after
    case Nothing => Finished(true)
    case PlayNext => Installing
    case ShutDown => Closing
  }

  function Apply(s: System, a: Action): System
    requires Enabled(s, a)
  {
    match a
    case CallStop(tid, after) => Put(s, tid, Swap(s.b), StopCancels(s.b.cancel, s.b.resumeCh, after))
    case CallPause => s.(b := Pause(s.b))
    case CallResume(tid) =>
      if !s.b.paused then Put(s, tid, s.b, Finished(true))
      else Put(s, tid, Unpause(s.b), ResumeCloses(s.b.resumeCh))
    case CallWait(tid, ctx) => Put(s, tid, s.b, Polling(ctx))
    case DoCancel(tid) =>
      var pc := s.threads[tid];
      Put(s, tid, Cancel(s.b, pc.took), StopCloses(pc.ch, pc.after))
    case DoClose(tid) =>
      var pc := s.threads[tid];
      Put(s, tid, Shut(s.b, pc.ch), if pc.StopCloses? then AfterStop(pc.after) else Finished(true))
    case DoInstall(tid) => Put(s, tid, Install(s.b), Finished(true))
    case DoShutDown(tid) => Put(s, tid, s.b.(closed := true), Finished(true))
    case DoPoll(tid) => Put(s, tid, s.b, Poll(s.b, s.threads[tid].ctx))
    case Woken(tid) => Put(s, tid, s.b, Polling(s.threads[tid].ctx))
    case Abandoned(tid) => Put(s, tid, s.b, Finished(false))
  }

  predicate ValidRun(s: System, acts: seq<Action>)
    decreases |acts|, 0
  {
    |acts| == 0 ||
    var k := |acts| - 1;
    ValidRun(s, acts[..k]) && Enabled(Exec(s, acts[..k]), acts[k])
  }

  function Exec(s: System, acts: seq<Action>): System
    requires ValidRun(s, acts)
    decreases |acts|, 1
  {
    if |acts| == 0 then s
    else Apply(Exec(s, acts[..|acts| - 1]), acts[|acts| - 1])
  }
}
