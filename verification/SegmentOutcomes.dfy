/**
  What the calls of segment generation answer, read off the outcomes the generator had.
 */
module SegmentOutcomes {
  import opened Options
  import opened SegmentJobs
  import opened SingleFlight

  /** The outcomes of the generator attempts that a call has made, in order. */
  function Outcomes(acts: seq<Action>, tid: nat): seq<Error> {
    if |acts| == 0 then []
    else
      var a := acts[|acts| - 1];
      Outcomes(acts[..|acts| - 1], tid) + if a.Generate? && a.tid == tid then [a.err] else []
  }

  /** The one attempt succeeded, or it failed and a second one was made. */
  predicate Attempted(outcomes: seq<Error>) {
    (|outcomes| == 1 && outcomes[0].None?) || (|outcomes| == 2 && outcomes[0].Some?)
  }

  /** The outcomes so far of the call `tid` fit where it stands. */
  predicate OutcomesFit(s: System, tid: nat, outcomes: seq<Error>)
    requires tid in s.threads
  {
    var pc := s.threads[tid].pc;
    match pc
    case Generating(_, retry) => if retry then |outcomes| == 1 && outcomes[0].Some? else outcomes == []
    case Releasing(j) => Attempted(outcomes) && ErrOf(s.table, j) == outcomes[|outcomes| - 1]
    case Closing(j) => Attempted(outcomes) && ErrOf(s.table, j) == outcomes[|outcomes| - 1]
    case Deleting(j) => Attempted(outcomes) && ErrOf(s.table, j) == outcomes[|outcomes| - 1]
    case Returned(source, err) =>
      if source.Some? && source.value in s.owner && s.owner[source.value] == tid then
        Attempted(outcomes) && err == outcomes[|outcomes| - 1]
      else outcomes == []
    case _ => outcomes == []
  }

  /** Another call's step touches neither this call nor the job it may own. */
  lemma OthersStay(s: System, a: Action, tid: nat)
    requires Flights(s) && Enabled(s, a) && tid in s.threads && tid != a.tid
    ensures tid in Apply(s, a).threads && Apply(s, a).threads[tid] == s.threads[tid]
    ensures IsOwner(s.threads[tid].pc) ==> ErrOf(Apply(s, a).table, s.threads[tid].pc.job) == ErrOf(s.table, s.threads[tid].pc.job)
  {
    assert ThreadOk(s, tid);
    if a.tid in s.threads {
      assert ThreadOk(s, a.tid);
    }
  }

  /** Jobs keep the owner that made them. */
  lemma OwnersStay(s: System, a: Action, j: nat)
    requires Flights(s) && Enabled(s, a) && j < s.table.nextJob
    ensures j in s.owner && j in Apply(s, a).owner && Apply(s, a).owner[j] == s.owner[j]
  {
    assert JobOk(s, j);
  }

  /** A call that does not move keeps what it has. */
  lemma OthersFit(s: System, a: Action, tid: nat, outcomes: seq<Error>)
    requires Flights(s) && Enabled(s, a) && tid in s.threads && tid != a.tid
    requires OutcomesFit(s, tid, outcomes)
    ensures tid in Apply(s, a).threads && OutcomesFit(Apply(s, a), tid, outcomes)
  {
    OthersStay(s, a, tid);
    assert ThreadOk(s, tid);
    var pc := s.threads[tid].pc;
    if pc.Returned? && pc.source.Some? {
      OwnersStay(s, a, pc.source.value);
    }
  }

  lemma GeneratorFits(s: System, a: Action, outcomes: seq<Error>)
    requires Flights(s) && Enabled(s, a) && (a.Take? || a.Generate? || a.Give?)
    requires OutcomesFit(s, a.tid, outcomes)
    ensures OutcomesFit(Apply(s, a), a.tid, if a.Generate? then outcomes + [a.err] else outcomes)
  {
    assert ThreadOk(s, a.tid) && JobOk(s, s.threads[a.tid].pc.job);
  }

  lemma MoverFits(s: System, a: Action, outcomes: seq<Error>)
    requires Flights(s) && Enabled(s, a) && !a.Take? && !a.Generate? && !a.Give? && !a.Spawn?
    requires OutcomesFit(s, a.tid, outcomes)
    ensures OutcomesFit(Apply(s, a), a.tid, outcomes)
  {
    assert ThreadOk(s, a.tid);
    if a.Wake? {
      assert JobOk(s, s.threads[a.tid].pc.job);
    }
  }

  /** The same of a call that may not have begun. */
  predicate Fits(s: System, tid: nat, outcomes: seq<Error>) {
    if tid in s.threads then OutcomesFit(s, tid, outcomes) else outcomes == []
  }

  lemma CallsStay(s: System, a: Action)
    requires Enabled(s, a)
    ensures Apply(s, a).threads.Keys == s.threads.Keys + {a.tid}
  {
  }

  lemma StepFits(s: System, a: Action, tid: nat, outcomes: seq<Error>)
    requires Flights(s) && Enabled(s, a) && Fits(s, tid, outcomes)
    ensures Fits(Apply(s, a), tid, outcomes + if a.Generate? && a.tid == tid then [a.err] else [])
  {
    CallsStay(s, a);
    assert outcomes + [] == outcomes;
    if tid != a.tid {
      if tid in s.threads {
        OthersFit(s, a, tid, outcomes);
      }
    } else if a.Take? || a.Generate? || a.Give? {
      GeneratorFits(s, a, outcomes);
    } else if !a.Spawn? {
      MoverFits(s, a, outcomes);
    }
  }

  lemma {:induction false} RunFits(acts: seq<Action>, tid: nat)
    requires ValidRun(Init(), acts)
    ensures Fits(Exec(Init(), acts), tid, Outcomes(acts, tid))
    decreases |acts|
  {
    if |acts| > 0 {
      var k := |acts| - 1;
      RunFits(acts[..k], tid);
      RunKeepsFlights(acts[..k]);
      StepFits(Exec(Init(), acts[..k]), acts[k], tid, Outcomes(acts[..k], tid));
    }
  }

  /** The call's own look at the pipeline found the track unknown. */
  predicate Refused(acts: seq<Action>, tid: nat) {
    |acts| > 0 && (Refused(acts[..|acts| - 1], tid) || acts[|acts| - 1] == Check(tid, false))
  }

  /** The call has answered without a job; then it answered that the file does not exist. */
  predicate WithoutJob(s: System, tid: nat) {
    tid in s.threads && s.threads[tid].pc.Returned? && s.threads[tid].pc.source.None?
  }

  lemma StepRefuses(s: System, a: Action, tid: nat)
    requires Enabled(s, a)
    requires WithoutJob(s, tid) ==> s.threads[tid].pc.err == Some("file does not exist")
    ensures WithoutJob(Apply(s, a), tid) <==> WithoutJob(s, tid) || a == Check(tid, false)
    ensures WithoutJob(Apply(s, a), tid) ==> Apply(s, a).threads[tid].pc.err == Some("file does not exist")
  {
  }

  /** A call answers without a job exactly when its own look refused it. */
  lemma {:induction false} RefusedIff(acts: seq<Action>, tid: nat)
    requires ValidRun(Init(), acts)
    ensures
      var s := Exec(Init(), acts);
      && (WithoutJob(s, tid) <==> Refused(acts, tid))
      && (WithoutJob(s, tid) ==> s.threads[tid].pc.err == Some("file does not exist"))
    decreases |acts|
  {
    if |acts| > 0 {
      var k := |acts| - 1;
      RefusedIff(acts[..k], tid);
      StepRefuses(Exec(Init(), acts[..k]), acts[k], tid);
    }
  }

  /**
    What a call answers, from the actions alone. Without a job: its own look refused it and it ran
    no generator. With one: the answer is the last outcome of the generator of the call that made
    that job, which ran it once if the first outcome was good and exactly twice otherwise; a call
    answered by another's job ran none itself.
   */
  lemma AnswersAreOutcomes(acts: seq<Action>, tid: nat)
    requires ValidRun(Init(), acts)
    requires tid in Exec(Init(), acts).threads && Exec(Init(), acts).threads[tid].pc.Returned?
    ensures
      var s := Exec(Init(), acts);
      var pc := s.threads[tid].pc;
      if pc.source.None? then
        Refused(acts, tid) && pc.err == Some("file does not exist") && Outcomes(acts, tid) == []
      else
        && !Refused(acts, tid) && pc.source.value in s.owner
        && var maker := s.owner[pc.source.value];
        && Attempted(Outcomes(acts, maker)) && pc.err == Outcomes(acts, maker)[|Outcomes(acts, maker)| - 1]
        && (maker != tid ==> Outcomes(acts, tid) == [])
  {
    RefusedIff(acts, tid);
    RunKeepsFlights(acts);
    RunFits(acts, tid);
    var s := Exec(Init(), acts);
    assert ThreadOk(s, tid);
    if s.threads[tid].pc.source.Some? {
      var maker := s.owner[s.threads[tid].pc.source.value];
      RunFits(acts, maker);
      assert ThreadOk(s, maker);
    }
  }
}
