/**
  The pipeline object: its track and cache tables are updated in place, one method for each
  atomic step of the cache machine.
 */
module PipelineObject {
  import opened TrackQueue
  import opened CachePattern
  import opened CachePlan
  import F = FullCache

  class Pipeline {
    const cacheDir: seq<string>
    var tracks: map<string, F.Record>
    var fullDesired: map<string, bool>
    var fullJobs: set<string>
    var disk: set<string>
    ghost var running: multiset<string>

    ghost function State(): F.Pipeline
      reads this
    {
      F.Pipeline(cacheDir, tracks, (set id | id in fullDesired && fullDesired[id]), fullJobs, running, disk)
    }

    constructor (cacheDir: seq<string>)
      ensures State() == F.Empty(cacheDir)
    {
      this.cacheDir := cacheDir;
      tracks, fullDesired, fullJobs, disk, running := map[], map[], {}, {}, multiset{};
    }

    method Resolve(id: string)
      modifies `tracks
      ensures State() == F.Resolve(old(State()), id)
    {
      if id in tracks {
        return;
      }
      tracks := tracks[id := F.Record(Resolving, F.NoFile)];
    }

    method RegisterOpus(id: string)
      modifies `tracks
      ensures State() == F.RegisterOpus(old(State()), id)
    {
      tracks := tracks[id := F.Record(Ready, F.OpusFile)];
    }

    method MarkReady(id: string, parts: bool)
      modifies `tracks
      ensures State() == F.MarkReady(old(State()), id, parts)
    {
      if id !in tracks {
        return;
      }
      tracks := tracks[id := F.Record(Ready, if parts then F.Parts else F.OpusFile)];
    }

    method SetError(id: string)
      modifies `tracks
      ensures State() == F.SetError(old(State()), id)
    {
      if id !in tracks {
        return;
      }
      tracks := tracks[id := tracks[id].(status := Failed)];
    }

    method SetFullReady(id: string)
      modifies `tracks, `disk
      ensures State() == F.SetFullReady(old(State()), id)
    {
      if id !in tracks || id !in fullDesired || !fullDesired[id] {
        disk := disk - {id};
        return;
      }
      if tracks[id].url == F.FullFile {
        return;
      }
      tracks := tracks[id := F.Record(Ready, F.FullFile)];
    }

    method EnsureFull(id: string)
      modifies this
      ensures State() == F.EnsureFull(old(State()), id)
    {
      fullDesired := fullDesired[id := true];
      assert State().desired == old(State()).desired + {id};
      if id in disk {
        SetFullReady(id);
        return;
      }
      if id in fullJobs {
        return;
      }
      fullJobs := fullJobs + {id};
      running := running + multiset{id};
    }

    /** The tail of the download goroutine. */
    method Downloaded(id: string, ok: bool)
      requires id in running
      modifies this
      ensures State() == F.Downloaded(old(State()), id, ok)
    {
      if ok {
        disk := disk + {id};
      }
      fullJobs := fullJobs - {id};
      running := running - multiset{id};
      if ok {
        SetFullReady(id);
      }
    }

    method EvictFull(id: string)
      modifies this
      ensures State() == F.EvictFull(old(State()), id)
    {
      fullDesired := fullDesired[id := false];
      assert State().desired == old(State()).desired - {id};
      if id in tracks && tracks[id].url == F.FullFile {
        tracks := tracks[id := tracks[id].(url := F.Parts)];
      }
      disk := disk - {id};
    }

    /** Forgets the track, then removes the matching files one by one. */
    method Delete(id: string)
      modifies this
      ensures State() == F.Delete(old(State()), id)
    {
      tracks := tracks - {id};
      fullDesired := fullDesired - {id};
      assert State().desired == old(State()).desired - {id};
      var left := disk;
      while left != {}
        modifies `disk
        invariant left <= disk <= old(disk)
        invariant forall x :: x in old(disk) && x !in left ==> (x in disk <==> !Removes(cacheDir, id, x + ".m4a"))
      {
        var x :| x in left;
        if Removes(cacheDir, id, x + ".m4a") {
          disk := disk - {x};
        }
        left := left - {x};
      }
      assert disk == F.Delete(old(State()), id).files;
    }

    method Reconcile(list: seq<PlanTrack>, budgetMB: int)
      modifies this
      ensures State() == F.Reconciled(old(State()), list, PlanOf(list, budgetMB * 1048576).plan)
    {
      var plan := PlanFull(list, budgetMB);
      var i := 0;
      while i < |list|
        invariant 0 <= i <= |list|
        invariant State() == F.Reconciled(old(State()), list[..i], plan)
      {
        var t := list[i];
        assert list[..i + 1][..i] == list[..i];
        if t.id in plan {
          if plan[t.id] {
            EnsureFull(t.id);
          } else if !t.playing {
            EvictFull(t.id);
          }
        }
        i := i + 1;
      }
      assert list[..i] == list;
    }
  }
}
