/**
  The single-flight table of HLS segment generation and its five slots, run by any number of
  threads. Each step is one atomic action of ensureHLSSegment: a check, a region under the
  pipeline's lock, a channel operation, or one attempt of the generator, whose outcome is free.
 */
module SegmentJobs {
  import opened Options
  import opened SegmentNames

  const SLOTS := 5

  /** How an attempt, and so a job, ended: no error, or some error. */
  type Error = Option<string>

  datatype Pc =
    | Checking                              // the pipeline must know the track
    | Looking                               // find or install the job of the key
    | Acquiring(job: nat)                   // owner, before the slot
    | Generating(job: nat, retry: bool)     // owner, holding a slot and writing the .tmp file
    | Releasing(job: nat)                   // owner, generator done, slot still held
    | Closing(job: nat)
    | Deleting(job: nat)
    | Waiting(job: nat)                     // not the owner, blocked on the job's channel
    | Returned(source: Option<nat>, err: Error)   // with the job that answered, if one did

  /** A call of ensureHLSSegment with its local key. */
  datatype Thread = Thread(track: string, segment: nat, key: string, pc: Pc)

  /** `hlsJobs`, the closed done channels, `job.err` of every job ever made, and the slots in use. */
  datatype Table = Table(
    jobs: map<string, nat>,
    done: set<nat>,
    errs: map<nat, Error>,
    nextJob: nat,
    slots: nat)

  /** `owner` records which thread made each job. */
  datatype System = System(table: Table, threads: map<nat, Thread>, owner: map<nat, nat>)

  function Init(): System {
    System(Table(map[], {}, map[], 0, 0), map[], map[])
  }

  /** One lookup under the lock: the job found, or a new one installed for the caller to own. */
  function Lookup(tb: Table, key: string): (Table, Pc) {
    if key in tb.jobs then (tb, Waiting(tb.jobs[key]))
    else (tb.(jobs := tb.jobs[key := tb.nextJob], errs := tb.errs[tb.nextJob := None], nextJob := tb.nextJob + 1),
          Acquiring(tb.nextJob))
  }

  function Acquire(tb: Table): Table {
    tb.(slots := tb.slots + 1)
  }

  function Record(tb: Table, job: nat, err: Error): Table {
    tb.(errs := tb.errs[job := err])
  }

  function Release(tb: Table): Table
    requires tb.slots > 0
  {
    tb.(slots := tb.slots - 1)
  }

  function CloseDone(tb: Table, job: nat): Table {
    tb.(done := tb.done + {job})
  }

  function DeleteJob(tb: Table, key: string): Table {
    tb.(jobs := tb.jobs - {key})
  }

  datatype Action =
    | Spawn(tid: nat, track: string, segment: nat)
    | Check(tid: nat, known: bool)
    | Look(tid: nat)
    | Take(tid: nat)
    | Generate(tid: nat, err: Error)
    | Give(tid: nat)
    | Close(tid: nat)
    | Delete(tid: nat)
    | Wake(tid: nat)

  predicate Enabled(s: System, a: Action) {
    match a
    case Spawn(tid, _, _) => tid !in s.threads
    case Check(tid, _) => tid in s.threads && s.threads[tid].pc.Checking?
    case Look(tid) => tid in s.threads && s.threads[tid].pc.Looking?
    case Take(tid) => tid in s.threads && s.threads[tid].pc.Acquiring? && s.table.slots < SLOTS
    case Generate(tid, _) => tid in s.threads && s.threads[tid].pc.Generating?
    case Give(tid) => tid in s.threads && s.threads[tid].pc.Releasing? && s.table.slots > 0
    case Close(tid) => tid in s.threads && s.threads[tid].pc.Closing?
    case Delete(tid) => tid in s.threads && s.threads[tid].pc.Deleting?
    case Wake(tid) =>
      && tid in s.threads && s.threads[tid].pc.Waiting?
      && s.threads[tid].pc.job in s.table.done && s.threads[tid].pc.job in s.table.errs
  }

  function Move(s: System, tid: nat, tb: Table, pc: Pc): System
    requires tid in s.threads
  {
    s.(table := tb, threads := s.threads[tid := s.threads[tid].(pc := pc)])
  }

  function ErrOf(tb: Table, job: nat): Error {
    if job in tb.errs then tb.errs[job] else None
  }

  function Apply(s: System, a: Action): System
    requires Enabled(s, a)
  {
    match a
    case Spawn(tid, track, segment) => s.(threads := s.threads[tid := Thread(track, segment, JobKey(track, segment), Checking)])
    case Check(tid, known) =>
      Move(s, tid, s.table, if known then Looking else Returned(None, Some("file does not exist")))
    case Look(tid) =>
      var found := Lookup(s.table, s.threads[tid].key);
      var out := Move(s, tid, found.0, found.1);
      if found.1.Acquiring? then out.(owner := s.owner[found.1.job := tid]) else out
    case Take(tid) => Move(s, tid, Acquire(s.table), Generating(s.threads[tid].pc.job, false))
    case Generate(tid, err) =>
      var pc := s.threads[tid].pc;
      Move(s, tid, Record(s.table, pc.job, err),
           if err.Some? && !pc.retry then Generating(pc.job, true) else Releasing(pc.job))
    case Give(tid) => Move(s, tid, Release(s.table), Closing(s.threads[tid].pc.job))
    case Close(tid) => Move(s, tid, CloseDone(s.table, s.threads[tid].pc.job), Deleting(s.threads[tid].pc.job))
    case Delete(tid) =>
      var job := s.threads[tid].pc.job;
      Move(s, tid, DeleteJob(s.table, s.threads[tid].key), Returned(Some(job), ErrOf(s.table, job)))
    case Wake(tid) =>
      var job := s.threads[tid].pc.job;
      Move(s, tid, s.table, Returned(Some(job), s.table.errs[job]))
  }

  predicate ValidRun(s: System, acts: seq<Action>)
    decreases |acts|, 0
  {
    |acts| == 0 ||
    var k := |acts| - 1;
    ValidRun(s, acts[..k]) && Enabled(Exec(s, acts[..k]), acts[k])
  }

  function Exec(s: System, acts: seq<Action>): System
    requires ValidRun(s, acts)
    decreases |acts|, 1
  {
    if |acts| == 0 then s
    else Apply(Exec(s, acts[..|acts| - 1]), acts[|acts| - 1])
  }
}
