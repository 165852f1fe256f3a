/**
  The anchor pair (t0, s) against an independent account of what was actually played.
 */
module PositionAccounting {
  import opened PlaybackMachine
  import opened NeverStuck

  /**
    What a listener's stopwatch would show since the last start or seek: where it began, the
    wall time that passed while nothing was paused, and how many start buffers were granted.
   */
  datatype Account = Account(base: int, played: int, buffers: nat)

  /** Whether the current track was started and is paused, by the calls that were made. */
  datatype Flags = Flags(started: bool, paused: bool)

  /** Reads off the state only which track is current. */
  function FlagsStep(st: Room, a: Action, f: Flags): Flags {
    match a
    case RunMaybeStart => if st.playing.None? then Flags(false, false) else f
    case RunStart(id) =>
      if st.playing.Some? && st.playing.value.trackID == id && !f.started then Flags(true, false) else f
    case DoPause => if f.started then Flags(true, true) else f
    case DoResume => if f.started then Flags(true, false) else f
    case _ => f
  }

  function FlagsBy(st: Room, acts: seq<Action>): Flags
    requires ValidRun(st, acts)
    decreases |acts|
  {
    if |acts| == 0 then Flags(false, false)
    else
      var k := |acts| - 1;
      FlagsStep(Exec(st, acts[..k]), acts[k], FlagsBy(st, acts[..k]))
  }

  predicate FlagsFit(st: Room, f: Flags) {
    st.playing.Some? ==> st.playing.value.started == f.started && st.playing.value.paused == f.paused
  }

  lemma StepKeepsFlags(st: Room, a: Action, f: Flags)
    requires st.mode.Signal? && Live(st) && Enabled(st, a) && FlagsFit(st, f)
    ensures FlagsFit(Apply(st, a), FlagsStep(st, a, f))
  {
  }

  /**
    A track is started exactly when a start of it has run since it was installed, and paused
    exactly when the last pause or resume since that start was a pause.
   */
  lemma {:induction false} FlagsAreHistory(now: int, acts: seq<Action>)
    requires ValidRun(Init(Signal, now), acts)
    ensures FlagsFit(Exec(Init(Signal, now), acts), FlagsBy(Init(Signal, now), acts))
    decreases |acts|
  {
    if |acts| > 0 {
      var k := |acts| - 1;
      FlagsAreHistory(now, acts[..k]);
      RunIsLive(now, acts[..k]);
      StepKeepsFlags(Exec(Init(Signal, now), acts[..k]), acts[k], FlagsBy(Init(Signal, now), acts[..k]));
    }
  }

  /** The server time of the anchor: 2 s ahead after a start, resume or playing seek, else the moment itself. */
  function AnchorStep(st: Room, a: Action, f: Flags, t0: int): int {
    match a
    case RunStart(id) =>
      if st.playing.Some? && st.playing.value.trackID == id && !f.started then st.now + 2000 else t0
    case DoPause => if f.started && !f.paused then st.now else t0
    case DoResume => if f.started && f.paused then st.now + 2000 else t0
    case DoSeek(_) => if !f.started then t0 else if f.paused then st.now else st.now + 2000
    case _ => t0
  }

  function AnchorBy(st: Room, acts: seq<Action>): int
    requires ValidRun(st, acts)
    decreases |acts|
  {
    if |acts| == 0 then 0
    else
      var k := |acts| - 1;
      AnchorStep(Exec(st, acts[..k]), acts[k], FlagsBy(st, acts[..k]), AnchorBy(st, acts[..k]))
  }

  predicate AnchorFits(st: Room, t0: int) {
    Audible(st) ==> st.playing.value.t0 == t0
  }

  lemma StepKeepsAnchor(st: Room, a: Action, f: Flags, t0: int)
    requires st.mode.Signal? && Live(st) && Enabled(st, a) && FlagsFit(st, f) && AnchorFits(st, t0)
    ensures AnchorFits(Apply(st, a), AnchorStep(st, a, f, t0))
  {
  }

  /** Over any run `t0` is the time its last start, pause, resume or seek set; with the position, that gives `s`. */
  lemma {:induction false} AnchorIsHistory(now: int, acts: seq<Action>)
    requires ValidRun(Init(Signal, now), acts)
    ensures AnchorFits(Exec(Init(Signal, now), acts), AnchorBy(Init(Signal, now), acts))
    decreases |acts|
  {
    if |acts| > 0 {
      var k := |acts| - 1;
      AnchorIsHistory(now, acts[..k]);
      RunIsLive(now, acts[..k]);
      FlagsAreHistory(now, acts[..k]);
      StepKeepsAnchor(Exec(Init(Signal, now), acts[..k]), acts[k], FlagsBy(Init(Signal, now), acts[..k]),
                      AnchorBy(Init(Signal, now), acts[..k]));
    }
  }

  predicate Audible(st: Room) {
    st.mode.Signal? && st.playing.Some? && st.playing.value.started
  }

  /** The account after one action, read off the actions alone, never off (t0, s). */
  function AccountStep(st: Room, a: Action, f: Flags, acc: Account): Account {
    match a
    case Tick(elapsed) =>
      if st.playing.Some? && f.started && !f.paused then acc.(played := acc.played + elapsed) else acc
    case RunStart(id) =>
      if st.playing.Some? && st.playing.value.trackID == id && !f.started then Account(0, 0, 1) else acc
    case DoSeek(ms) =>
      if st.playing.Some? && f.started then Account(if ms < 0 then 0 else ms, 0, if f.paused then 0 else 1) else acc
    case DoResume =>
      if st.playing.Some? && f.started && f.paused then acc.(buffers := acc.buffers + 1) else acc
    case _ => acc
  }

  function AccountOf(st: Room, acts: seq<Action>): Account
    requires ValidRun(st, acts)
    decreases |acts|
  {
    if |acts| == 0 then Account(0, 0, 0)
    else
      var k := |acts| - 1;
      AccountStep(Exec(st, acts[..k]), acts[k], FlagsBy(st, acts[..k]), AccountOf(st, acts[..k]))
  }

  predicate Balanced(st: Room, acc: Account) {
    Audible(st) ==> Position(st.playing.value, st.now) == acc.base + acc.played - 2000 * acc.buffers
  }

  lemma StepKeepsBalance(st: Room, a: Action, f: Flags, acc: Account)
    requires st.mode.Signal? && Live(st) && Enabled(st, a) && FlagsFit(st, f) && Balanced(st, acc)
    ensures Balanced(Apply(st, a), AccountStep(st, a, f, acc))
  {
  }

  /**
    Over any run the live position is the last start or seek target, plus the unpaused wall
    time since, minus the start buffer of 2000 ms for each start, resume or playing seek counted.
   */
  lemma {:induction false} PositionIsAccounted(now: int, acts: seq<Action>)
    requires ValidRun(Init(Signal, now), acts)
    ensures Balanced(Exec(Init(Signal, now), acts), AccountOf(Init(Signal, now), acts))
    decreases |acts|
  {
    if |acts| > 0 {
      var k := |acts| - 1;
      var was := Exec(Init(Signal, now), acts[..k]);
      PositionIsAccounted(now, acts[..k]);
      RunIsLive(now, acts[..k]);
      FlagsAreHistory(now, acts[..k]);
      StepKeepsBalance(was, acts[k], FlagsBy(Init(Signal, now), acts[..k]), AccountOf(Init(Signal, now), acts[..k]));
    }
  }

  /**
    The end timer of the current track can only go off once the position, and so the account,
    has reached max(durationMs, s) + 750, and it is due at exactly the moment it gets there.
   */
  lemma NaturalEndPosition(now: int, acts: seq<Action>, h: nat)
    requires ValidRun(Init(Signal, now), acts)
    requires Enabled(Exec(Init(Signal, now), acts), Fire(h))
    requires Exec(Init(Signal, now), acts).timers[h].EndTimer?
    ensures
      var st := Exec(Init(Signal, now), acts);
      var acc := AccountOf(Init(Signal, now), acts);
      && Audible(st)
      && var pb := st.playing.value;
      && !pb.paused
      && st.timers[h].trackID == pb.trackID
      && Position(pb, st.timers[h].deadline) == Max(pb.durationMs, pb.s) + 750
      && acc.base + acc.played - 2000 * acc.buffers >= Max(pb.durationMs, pb.s) + 750
  {
    RunIsLive(now, acts);
    PositionIsAccounted(now, acts);
    var st := Exec(Init(Signal, now), acts);
    assert st.playing.Some?;
    assert Running(st, st.playing.value);
  }

  /** Pausing and resuming at once costs exactly one start buffer of position. */
  lemma PauseResumeCostsOneBuffer(st: Room)
    requires Audible(st) && !st.playing.value.paused
    ensures
      var back := Resume(Pause(st));
      && Audible(back) && !back.playing.value.paused
      && Position(back.playing.value, st.now) == Position(st.playing.value, st.now) - 2000
  {
  }
}
