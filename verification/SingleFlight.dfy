/**
  What holds in every reachable state of segment generation, for any number of threads and keys.
 */
module SingleFlight {
  import opened Options
  import opened SegmentNames
  import opened SegmentJobs

  /** The thread made a job and has not removed it yet. */
  predicate IsOwner(pc: Pc) {
    pc.Acquiring? || pc.Generating? || pc.Releasing? || pc.Closing? || pc.Deleting?
  }

  predicate Owns(pc: Pc, job: nat) {
    IsOwner(pc) && pc.job == job
  }

  predicate HoldsSlot(pc: Pc) {
    pc.Generating? || pc.Releasing?
  }

  /** The thread that made the job. */
  function OwnerOf(s: System, j: nat): Thread
    requires j in s.owner && s.owner[j] in s.threads
  {
    s.threads[s.owner[j]]
  }

  /**
    A job made has an owner, which either is still at work on it, filed under its key, with the
    done channel closed exactly when only the removal is left; or has returned the job's error.
   */
  predicate JobOk(s: System, j: nat) {
    && j in s.owner && s.owner[j] in s.threads && j in s.table.errs
    && var t := OwnerOf(s, j);
    if t.pc.Returned? then t.pc == Returned(Some(j), s.table.errs[j]) && j in s.table.done
    else
      && Owns(t.pc, j)
      && t.key in s.table.jobs && s.table.jobs[t.key] == j
      && (j in s.table.done <==> t.pc.Deleting?)
  }

  predicate Answering(s: System, j: nat, key: string) {
    j < s.table.nextJob && JobOk(s, j) && OwnerOf(s, j).key == key
  }

  /** A thread works on its own job, or was or will be answered by a job of its own key. */
  predicate ThreadOk(s: System, tid: nat)
    requires tid in s.threads
  {
    var t := s.threads[tid];
    && t.key == JobKey(t.track, t.segment)
    && (IsOwner(t.pc) ==> t.pc.job < s.table.nextJob && t.pc.job in s.owner && s.owner[t.pc.job] == tid)
    && (t.pc.Waiting? ==> Answering(s, t.pc.job, t.key))
    && (t.pc.Returned? && t.pc.source.Some? ==>
          var j := t.pc.source.value;
          Answering(s, j, t.key) && j in s.table.done && t.pc.err == s.table.errs[j])
  }

  ghost predicate Flights(s: System) {
    && (forall j :: j in s.table.done ==> j < s.table.nextJob)
    && (forall j :: 0 <= j < s.table.nextJob ==> JobOk(s, j))
    && (forall tid :: tid in s.threads ==> ThreadOk(s, tid))
    && (forall key :: key in s.table.jobs ==>
          Answering(s, s.table.jobs[key], key) && !OwnerOf(s, s.table.jobs[key]).pc.Returned?)
  }

  /** What an owner's step may change: its own thread, its job's error and channel, its key. */
  ghost predicate OwnerStep(s: System, out: System, tid: nat) {
    && tid in s.threads && IsOwner(s.threads[tid].pc)
    && out.owner == s.owner && out.table.nextJob == s.table.nextJob
    && out.threads.Keys == s.threads.Keys
    && (forall t :: t in s.threads && t != tid ==> out.threads[t] == s.threads[t])
    && out.threads[tid].track == s.threads[tid].track
    && out.threads[tid].segment == s.threads[tid].segment
    && out.threads[tid].key == s.threads[tid].key
    && var j0 := s.threads[tid].pc.job;
    && (forall j :: j in s.table.errs && j != j0 ==> j in out.table.errs && out.table.errs[j] == s.table.errs[j])
    && (forall j :: j != j0 ==> (j in out.table.done <==> j in s.table.done))
    && (forall key :: key != s.threads[tid].key ==> (key in out.table.jobs <==> key in s.table.jobs))
    && (forall key :: key in out.table.jobs ==> key in s.table.jobs && out.table.jobs[key] == s.table.jobs[key])
  }

  lemma OthersJobOk(s: System, out: System, tid: nat, j: nat)
    requires Flights(s) && OwnerStep(s, out, tid)
    requires j < s.table.nextJob && j != s.threads[tid].pc.job
    ensures JobOk(out, j)
  {
    assert JobOk(s, j) && ThreadOk(s, tid);
    assert JobOk(s, s.threads[tid].pc.job);
  }

  /** The owner leaves its own job and thread in order. */
  ghost predicate TidyStep(s: System, out: System, tid: nat) {
    && OwnerStep(s, out, tid)
    && var j0 := s.threads[tid].pc.job;
    && JobOk(out, j0)
    && (j0 in s.table.done ==> j0 in out.table.done && j0 in s.table.errs && out.table.errs[j0] == s.table.errs[j0])
    && (if out.threads[tid].pc.Returned? then
          out.threads[tid].pc.source == Some(j0) && s.threads[tid].key !in out.table.jobs
        else Owns(out.threads[tid].pc, j0))
  }

  lemma TidyStepKeepsJobs(s: System, out: System, tid: nat)
    requires Flights(s) && TidyStep(s, out, tid)
    ensures forall j :: 0 <= j < out.table.nextJob ==> JobOk(out, j)
  {
    forall j | 0 <= j < out.table.nextJob ensures JobOk(out, j) {
      if j != s.threads[tid].pc.job {
        OthersJobOk(s, out, tid, j);
      }
    }
  }

  lemma TidyStepKeepsThread(s: System, out: System, tid: nat, t: nat)
    requires Flights(s) && TidyStep(s, out, tid) && t in out.threads
    requires forall j :: 0 <= j < out.table.nextJob ==> JobOk(out, j)
    ensures ThreadOk(out, t)
  {
    assert ThreadOk(s, t) && ThreadOk(s, tid);
  }

  lemma TidyStepKeepsKey(s: System, out: System, tid: nat, key: string)
    requires Flights(s) && TidyStep(s, out, tid) && key in out.table.jobs
    requires forall j :: 0 <= j < out.table.nextJob ==> JobOk(out, j)
    ensures Answering(out, out.table.jobs[key], key) && !OwnerOf(out, out.table.jobs[key]).pc.Returned?
  {
    assert Answering(s, s.table.jobs[key], key);
    assert ThreadOk(s, tid);
  }

  /** An owner that keeps its own job and thread in order keeps everybody's. */
  lemma OwnerStepKeepsFlights(s: System, out: System, tid: nat)
    requires Flights(s) && TidyStep(s, out, tid)
    ensures Flights(out)
  {
    TidyStepKeepsJobs(s, out, tid);
    forall t | t in out.threads ensures ThreadOk(out, t) {
      TidyStepKeepsThread(s, out, tid, t);
    }
    forall key | key in out.table.jobs
      ensures Answering(out, out.table.jobs[key], key) && !OwnerOf(out, out.table.jobs[key]).pc.Returned?
    {
      TidyStepKeepsKey(s, out, tid, key);
    }
    assert ThreadOk(s, tid);
  }

  lemma GeneratorKeepsFlights(s: System, a: Action)
    requires Flights(s) && Enabled(s, a)
    requires a.Take? || a.Generate? || a.Give?
    ensures Flights(Apply(s, a))
  {
    GeneratorIsTidy(s, a);
    OwnerStepKeepsFlights(s, Apply(s, a), a.tid);
  }

  lemma GeneratorIsTidy(s: System, a: Action)
    requires Flights(s) && Enabled(s, a)
    requires a.Take? || a.Generate? || a.Give?
    ensures TidyStep(s, Apply(s, a), a.tid)
  {
    assert ThreadOk(s, a.tid) && JobOk(s, s.threads[a.tid].pc.job);
    if a.Generate? {
      GenerateIsTidy(s, a.tid, a.err);
    }
  }

  lemma GenerateIsTidy(s: System, tid: nat, err: Error)
    requires Flights(s) && Enabled(s, Generate(tid, err))
    ensures TidyStep(s, Apply(s, Generate(tid, err)), tid)
  {
    assert ThreadOk(s, tid) && JobOk(s, s.threads[tid].pc.job);
  }

  lemma RemovalKeepsFlights(s: System, a: Action)
    requires Flights(s) && Enabled(s, a)
    requires a.Close? || a.Delete?
    ensures Flights(Apply(s, a))
  {
    RemovalIsTidy(s, a);
    OwnerStepKeepsFlights(s, Apply(s, a), a.tid);
  }

  lemma RemovalIsTidy(s: System, a: Action)
    requires Flights(s) && Enabled(s, a)
    requires a.Close? || a.Delete?
    ensures TidyStep(s, Apply(s, a), a.tid)
  {
    if a.Close? {
      CloseIsTidy(s, a.tid);
    } else {
      DeleteIsTidy(s, a.tid);
    }
  }

  lemma CloseIsTidy(s: System, tid: nat)
    requires Flights(s) && Enabled(s, Close(tid))
    ensures TidyStep(s, Apply(s, Close(tid)), tid)
  {
    assert ThreadOk(s, tid) && JobOk(s, s.threads[tid].pc.job);
  }

  lemma DeleteIsTidy(s: System, tid: nat)
    requires Flights(s) && Enabled(s, Delete(tid))
    ensures TidyStep(s, Apply(s, Delete(tid)), tid)
  {
    assert ThreadOk(s, tid) && JobOk(s, s.threads[tid].pc.job);
  }

  /** What somebody who owns nothing may change: its own thread only. */
  lemma AskerKeepsFlights(s: System, out: System, tid: nat)
    requires Flights(s)
    requires out.table == s.table && out.owner == s.owner
    requires tid in out.threads && out.threads == s.threads[tid := out.threads[tid]]
    requires tid in s.threads ==> !IsOwner(s.threads[tid].pc) && !s.threads[tid].pc.Returned?
    requires ThreadOk(out, tid)
    ensures Flights(out)
  {
    forall j | 0 <= j < out.table.nextJob ensures JobOk(out, j) {
      assert JobOk(s, j);
    }
    forall t | t in out.threads ensures ThreadOk(out, t) {
      if t != tid {
        assert ThreadOk(s, t);
      }
    }
    forall key | key in out.table.jobs
      ensures Answering(out, out.table.jobs[key], key) && !OwnerOf(out, out.table.jobs[key]).pc.Returned?
    {
      assert Answering(s, s.table.jobs[key], key);
    }
  }

  lemma LookKeepsFlights(s: System, tid: nat)
    requires Flights(s) && Enabled(s, Look(tid))
    ensures Flights(Apply(s, Look(tid)))
  {
    var out := Apply(s, Look(tid));
    var key := s.threads[tid].key;
    assert ThreadOk(s, tid);
    if key in s.table.jobs {
      assert Answering(s, s.table.jobs[key], key);
      AskerKeepsFlights(s, out, tid);
    } else {
      NewJobKeepsFlights(s, out, tid);
    }
  }

  lemma NewJobKeepsJobs(s: System, out: System, tid: nat)
    requires Flights(s) && Enabled(s, Look(tid)) && out == Apply(s, Look(tid))
    requires s.threads[tid].key !in s.table.jobs
    ensures forall j :: 0 <= j < out.table.nextJob ==> JobOk(out, j)
  {
    forall j | 0 <= j < out.table.nextJob ensures JobOk(out, j) {
      if j != s.table.nextJob {
        assert JobOk(s, j);
      }
    }
  }

  lemma NewJobKeepsThreads(s: System, out: System, tid: nat)
    requires Flights(s) && Enabled(s, Look(tid)) && out == Apply(s, Look(tid))
    requires s.threads[tid].key !in s.table.jobs && forall j :: 0 <= j < out.table.nextJob ==> JobOk(out, j)
    ensures forall t :: t in out.threads ==> ThreadOk(out, t)
  {
    forall t | t in out.threads ensures ThreadOk(out, t) {
      assert ThreadOk(s, t);
    }
  }

  lemma NewJobKeepsFlights(s: System, out: System, tid: nat)
    requires Flights(s) && Enabled(s, Look(tid)) && out == Apply(s, Look(tid))
    requires s.threads[tid].key !in s.table.jobs
    ensures Flights(out)
  {
    var key := s.threads[tid].key;
    NewJobKeepsJobs(s, out, tid);
    NewJobKeepsThreads(s, out, tid);
    forall k | k in out.table.jobs
      ensures Answering(out, out.table.jobs[k], k) && !OwnerOf(out, out.table.jobs[k]).pc.Returned?
    {
      if k != key {
        assert Answering(s, s.table.jobs[k], k);
      }
    }
  }

  lemma AskerActionKeepsFlights(s: System, a: Action)
    requires Flights(s) && Enabled(s, a)
    requires a.Spawn? || a.Check? || a.Wake?
    ensures Flights(Apply(s, a))
  {
    var out := Apply(s, a);
    if a.tid in s.threads {
      assert ThreadOk(s, a.tid);
    }
    assert ThreadOk(out, a.tid);
    AskerKeepsFlights(s, out, a.tid);
  }

  function Holders(s: System): set<nat> {
    set tid | tid in s.threads && HoldsSlot(s.threads[tid].pc)
  }

  /** The slots in use are the generators at work, and never more than five. */
  predicate SlotsExact(s: System) {
    s.table.slots == |Holders(s)| && s.table.slots <= 5
  }

  lemma StepKeepsSlots(s: System, a: Action)
    requires SlotsExact(s) && Enabled(s, a)
    ensures SlotsExact(Apply(s, a))
  {
    match a
    case Take(tid) => TakeKeepsSlots(s, tid);
    case Give(tid) => GiveKeepsSlots(s, tid);
    case _ => OthersKeepSlots(s, a);
  }

  lemma TakeKeepsSlots(s: System, tid: nat)
    requires SlotsExact(s) && Enabled(s, Take(tid))
    ensures SlotsExact(Apply(s, Take(tid)))
  {
    assert Holders(Apply(s, Take(tid))) == Holders(s) + {tid};
  }

  lemma GiveKeepsSlots(s: System, tid: nat)
    requires SlotsExact(s) && Enabled(s, Give(tid))
    ensures SlotsExact(Apply(s, Give(tid)))
  {
    assert Holders(Apply(s, Give(tid))) == Holders(s) - {tid};
  }

  lemma OthersKeepSlots(s: System, a: Action)
    requires SlotsExact(s) && Enabled(s, a) && !a.Take? && !a.Give?
    ensures SlotsExact(Apply(s, a))
  {
    SameHolders(s, Apply(s, a), a.tid);
  }

  lemma SameHolders(s: System, out: System, tid: nat)
    requires tid in out.threads && out.threads == s.threads[tid := out.threads[tid]]
    requires HoldsSlot(out.threads[tid].pc) <==> tid in s.threads && HoldsSlot(s.threads[tid].pc)
    ensures Holders(out) == Holders(s)
  {
  }

  lemma StepKeepsFlights(s: System, a: Action)
    requires Flights(s) && Enabled(s, a)
    ensures Flights(Apply(s, a))
  {
    match a
    case Look(tid) => LookKeepsFlights(s, tid);
    case Spawn(_, _, _) => AskerActionKeepsFlights(s, a);
    case Check(_, _) => AskerActionKeepsFlights(s, a);
    case Wake(_) => AskerActionKeepsFlights(s, a);
    case Close(_) => RemovalKeepsFlights(s, a);
    case Delete(_) => RemovalKeepsFlights(s, a);
    case _ => GeneratorKeepsFlights(s, a);
  }

  lemma {:induction false} RunKeepsFlights(acts: seq<Action>)
    requires ValidRun(Init(), acts)
    ensures Flights(Exec(Init(), acts)) && SlotsExact(Exec(Init(), acts))
    decreases |acts|
  {
    if |acts| > 0 {
      var k := |acts| - 1;
      RunKeepsFlights(acts[..k]);
      StepKeepsFlights(Exec(Init(), acts[..k]), acts[k]);
      StepKeepsSlots(Exec(Init(), acts[..k]), acts[k]);
    }
  }

  /**
    Single flight, in every reachable state: at most five generators run and they hold exactly
    the slots in use; no two threads generate the same segment, and so write the same .tmp file,
    at once; and each key in the table has exactly one owner, at work on just that segment.
   */
  lemma OneGeneratorPerSegment(acts: seq<Action>)
    requires ValidRun(Init(), acts)
    ensures
      var s := Exec(Init(), acts);
      && s.table.slots == |Holders(s)| && s.table.slots <= 5
      && (forall a, b :: a in s.threads && b in s.threads && a != b && IsOwner(s.threads[a].pc) && IsOwner(s.threads[b].pc) ==>
            s.threads[a].track != s.threads[b].track || s.threads[a].segment != s.threads[b].segment)
      && (forall track, segment: nat :: JobKey(track, segment) in s.table.jobs ==>
            exists a :: a in s.threads && IsOwner(s.threads[a].pc) &&
                        s.threads[a].track == track && s.threads[a].segment == segment)
  {
    RunKeepsFlights(acts);
    var s := Exec(Init(), acts);
    forall a, b | a in s.threads && b in s.threads && a != b && IsOwner(s.threads[a].pc) && IsOwner(s.threads[b].pc)
      ensures s.threads[a].track != s.threads[b].track || s.threads[a].segment != s.threads[b].segment
    {
      assert ThreadOk(s, a) && ThreadOk(s, b);
      assert JobOk(s, s.threads[a].pc.job) && JobOk(s, s.threads[b].pc.job);
    }
    forall track, segment: nat | JobKey(track, segment) in s.table.jobs
      ensures exists a :: a in s.threads && IsOwner(s.threads[a].pc) &&
                          s.threads[a].track == track && s.threads[a].segment == segment
    {
      var j := s.table.jobs[JobKey(track, segment)];
      assert Answering(s, j, JobKey(track, segment));
      var a := s.owner[j];
      assert ThreadOk(s, a);
      JobKeyInjective(track, segment, s.threads[a].track, s.threads[a].segment);
    }
  }

  /** So no two generators ever write the same temporary file at once. */
  lemma NoSharedTmpFile(acts: seq<Action>, a: nat, b: nat)
    requires ValidRun(Init(), acts)
    requires a in Exec(Init(), acts).threads && b in Exec(Init(), acts).threads && a != b
    requires Exec(Init(), acts).threads[a].pc.Generating? && Exec(Init(), acts).threads[b].pc.Generating?
    requires '/' !in Exec(Init(), acts).threads[a].track && '/' !in Exec(Init(), acts).threads[b].track
    ensures
      var s := Exec(Init(), acts);
      TmpPath(s.threads[a].track, s.threads[a].segment) != TmpPath(s.threads[b].track, s.threads[b].segment)
  {
    OneGeneratorPerSegment(acts);
    var s := Exec(Init(), acts);
    if TmpPath(s.threads[a].track, s.threads[a].segment) == TmpPath(s.threads[b].track, s.threads[b].segment) {
      PathsDiffer(s.threads[a].track, s.threads[a].segment, s.threads[b].track, s.threads[b].segment);
    }
  }

  /**
    Every waiter returns its owner's final error: whoever was answered by a job asked for the
    segment its owner generated, and once the owner has returned both have returned the same.
   */
  lemma WaitersGetOwnersError(acts: seq<Action>, tid: nat)
    requires ValidRun(Init(), acts)
    requires tid in Exec(Init(), acts).threads
    requires var pc := Exec(Init(), acts).threads[tid].pc; pc.Returned? && pc.source.Some?
    ensures
      var s := Exec(Init(), acts);
      var t := s.threads[tid];
      && t.pc.source.value in s.owner && s.owner[t.pc.source.value] in s.threads
      && var maker := s.threads[s.owner[t.pc.source.value]];
      && maker.track == t.track && maker.segment == t.segment
      && (maker.pc.Returned? ==> maker.pc.source == t.pc.source && maker.pc.err == t.pc.err)
      && (!maker.pc.Returned? ==> maker.pc.Deleting?)
  {
    RunKeepsFlights(acts);
    var s := Exec(Init(), acts);
    var t := s.threads[tid];
    assert ThreadOk(s, tid);
    var maker := OwnerOf(s, t.pc.source.value);
    assert ThreadOk(s, s.owner[t.pc.source.value]);
    JobKeyInjective(maker.track, maker.segment, t.track, t.segment);
  }

  /** A call that has not returned. */
  predicate Unfinished(s: System, tid: nat) {
    tid in s.threads && !s.threads[tid].pc.Returned?
  }

  /** The step an unblocked call takes next, with a given outcome of the generator. */
  function NextOf(s: System, tid: nat, err: Error): Action
    requires Unfinished(s, tid)
  {
    match s.threads[tid].pc
    case Checking => Check(tid, true)
    case Looking => Look(tid)
    case Acquiring(_) => Take(tid)
    case Generating(_, _) => Generate(tid, err)
    case Releasing(_) => Give(tid)
    case Closing(_) => Close(tid)
    case Deleting(_) => Delete(tid)
    case Waiting(_) => Wake(tid)
  }

  /** An owner can step itself, or waits for a slot whose holder can. */
  lemma OwnerOrHolderSteps(s: System, tid: nat, err: Error) returns (mover: nat)
    requires Flights(s) && SlotsExact(s) && tid in s.threads && IsOwner(s.threads[tid].pc)
    ensures Unfinished(s, mover) && Enabled(s, NextOf(s, mover, err))
  {
    if s.threads[tid].pc.Acquiring? && s.table.slots == 5 {
      assert Holders(s) != {};
      mover :| mover in Holders(s);
    } else {
      mover := tid;
      if s.threads[tid].pc.Releasing? {
        assert tid in Holders(s);
      }
    }
  }

  /**
    No deadlock: in every reachable state with an unfinished call, whatever the generator's
    outcome, some unfinished call can take its next step.
   */
  lemma SomebodyCanStep(acts: seq<Action>, tid: nat, err: Error) returns (mover: nat)
    requires ValidRun(Init(), acts) && Unfinished(Exec(Init(), acts), tid)
    ensures
      var s := Exec(Init(), acts);
      Unfinished(s, mover) && Enabled(s, NextOf(s, mover, err))
  {
    RunKeepsFlights(acts);
    var s := Exec(Init(), acts);
    var pc := s.threads[tid].pc;
    assert ThreadOk(s, tid);
    if IsOwner(pc) {
      mover := OwnerOrHolderSteps(s, tid, err);
    } else if pc.Waiting? && pc.job !in s.table.done {
      mover := OwnerOrHolderSteps(s, s.owner[pc.job], err);
    } else {
      mover := tid;
    }
  }

  /** How many steps a call has left at most. */
  function Rank(pc: Pc): nat {
    match pc
    case Checking => 8
    case Looking => 7
    case Acquiring(_) => 6
    case Generating(_, retry) => if retry then 4 else 5
    case Releasing(_) => 3
    case Closing(_) => 2
    case Deleting(_) => 1
    case Waiting(_) => 1
    case Returned(_, _) => 0
  }

  /** The steps left to all calls with identifiers below `n`. */
  function WorkLeft(threads: map<nat, Thread>, n: nat): nat {
    if n == 0 then 0
    else WorkLeft(threads, n - 1) + if n - 1 in threads then Rank(threads[n - 1].pc) else 0
  }

  lemma {:induction false} WorkChanges(threads: map<nat, Thread>, tid: nat, t: Thread, n: nat)
    requires tid in threads
    ensures WorkLeft(threads[tid := t], n) ==
              if tid < n then WorkLeft(threads, n) - Rank(threads[tid].pc) + Rank(t.pc) else WorkLeft(threads, n)
    decreases n
  {
    if n > 0 {
      WorkChanges(threads, tid, t, n - 1);
    }
  }

  /**
    Termination: with no new calls, the steps a run takes and the work left after it are bounded
    by the work left before it, eight steps at most for each call; with the freedom from deadlock
    every call returns.
   */
  lemma {:induction false} CallsTerminate(s: System, acts: seq<Action>, n: nat)
    requires ValidRun(s, acts) && (forall tid :: tid in s.threads ==> tid < n)
    requires forall k :: 0 <= k < |acts| ==> !acts[k].Spawn?
    ensures |acts| + WorkLeft(Exec(s, acts).threads, n) <= WorkLeft(s.threads, n)
    ensures Exec(s, acts).threads.Keys == s.threads.Keys
    decreases |acts|
  {
    if |acts| > 0 {
      var k := |acts| - 1;
      CallsTerminate(s, acts[..k], n);
      var mid := Exec(s, acts[..k]);
      var out := Apply(mid, acts[k]);
      var tid := acts[k].tid;
      assert out.threads == mid.threads[tid := out.threads[tid]];
      WorkChanges(mid.threads, tid, out.threads[tid], n);
    }
  }

  lemma {:induction false} WorkIsBounded(threads: map<nat, Thread>, n: nat)
    ensures WorkLeft(threads, n) <= 8 * n
    decreases n
  {
    if n > 0 {
      WorkIsBounded(threads, n - 1);
    }
  }

  /** When every call has returned, the table is empty and every slot is free. */
  lemma RestIsClean(acts: seq<Action>)
    requires ValidRun(Init(), acts)
    requires forall tid :: tid in Exec(Init(), acts).threads ==> !Unfinished(Exec(Init(), acts), tid)
    ensures Exec(Init(), acts).table.jobs == map[] && Exec(Init(), acts).table.slots == 0
  {
    RunKeepsFlights(acts);
    var s := Exec(Init(), acts);
    if key :| key in s.table.jobs {
      assert Answering(s, s.table.jobs[key], key);
      assert Unfinished(s, s.owner[s.table.jobs[key]]);
      assert false;
    }
    assert Holders(s) == {};
  }
}
