/**
  The pipeline's job table and slots as objects, with one method for each atomic action that
  ensureHLSSegment takes on them.
 */
module SegmentTable {
  import opened Options
  import S = SegmentJobs

  class Job {
    ghost const number: nat
    var done: bool
    var err: S.Error

    constructor (ghost number: nat)
      ensures this.number == number && !done && err == None
    {
      this.number, done, err := number, false, None;
    }
  }

  class Table {
    var hlsJobs: map<string, Job>
    var segSem: nat
    ghost var made: seq<Job>
    ghost var value: S.Table

    /** `value` is what the objects hold; job `n` is the `n`-th job ever made. */
    ghost predicate Valid()
      reads this, made
    {
      && value.slots == segSem
      && value.nextJob == |made|
      && (forall n :: 0 <= n < |made| ==> made[n].number == n)
      && (forall n :: 0 <= n < |made| ==> n in value.errs && made[n].err == value.errs[n])
      && (forall n :: 0 <= n < |made| ==> (made[n].done <==> n in value.done))
      && (forall n :: n in value.done ==> n < |made|)
      && value.jobs.Keys == hlsJobs.Keys
      && (forall key :: key in hlsJobs ==> value.jobs[key] < |made| && hlsJobs[key] == made[value.jobs[key]])
    }

    constructor ()
      ensures Valid() && value == S.Init().table
    {
      hlsJobs, segSem, made, value := map[], 0, [], S.Table(map[], {}, map[], 0, 0);
    }

    /** The region that finds the key's job or installs a new one for the caller. */
    method Lookup(key: string) returns (job: Job, owner: bool)
      requires Valid()
      modifies `hlsJobs, `made, `value
      ensures Valid() && job in made && (owner ==> fresh(job))
      ensures value == S.Lookup(old(value), key).0
      ensures S.Lookup(old(value), key).1 == if owner then S.Acquiring(job.number) else S.Waiting(job.number)
    {
      if key in hlsJobs {
        return hlsJobs[key], false;
      }
      job := new Job(|made|);
      owner := true;
      hlsJobs := hlsJobs[key := job];
      made := made + [job];
      value := S.Lookup(value, key).0;
    }

    /** Sending into the slot channel, once it has room. */
    method Acquire()
      requires Valid() && segSem < S.SLOTS
      modifies `segSem, `value
      ensures Valid() && value == S.Acquire(old(value))
    {
      segSem := segSem + 1;
      value := S.Acquire(value);
    }

    method Record(job: Job, err: S.Error)
      requires Valid() && job in made
      modifies job`err, `value
      ensures Valid() && value == S.Record(old(value), job.number, err)
    {
      job.err := err;
      value := S.Record(value, job.number, err);
    }

    method Release()
      requires Valid() && segSem > 0
      modifies `segSem, `value
      ensures Valid() && value == S.Release(old(value))
    {
      segSem := segSem - 1;
      value := S.Release(value);
    }

    /** Closing a channel that is already closed would panic. */
    method CloseDone(job: Job)
      requires Valid() && job in made && !job.done
      modifies job`done, `value
      ensures Valid() && value == S.CloseDone(old(value), job.number)
    {
      job.done := true;
      value := S.CloseDone(value, job.number);
    }

    method Delete(key: string)
      requires Valid()
      modifies `hlsJobs, `value
      ensures Valid() && value == S.DeleteJob(old(value), key)
    {
      hlsJobs := hlsJobs - {key};
      value := S.DeleteJob(value, key);
    }
  }
}
