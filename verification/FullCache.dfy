/**
  The pipeline's track table and its cache of full .m4a files. Each function is one atomic
  step: a region under the lock together with the file operation that goes with it, or the
  completion of a background download, whose success is free.
 */
module FullCache {
  import opened TrackQueue
  import opened CachePattern
  import opened CachePlan

  /** What a track's FileURL names: nothing yet, the .opus file, the segment playlist or the .m4a. */
  datatype FileKind = NoFile | OpusFile | Parts | FullFile

  datatype Record = Record(status: Status, url: FileKind)

  /**
    `cacheDir` is the path of the cache directory, part by part. `desired` holds the IDs whose `fullDesired` is true, `jobs` those in `fullJobs`, `running`
    the downloads in flight, and `files` the IDs whose .m4a is on disk.
   */
  datatype Pipeline = Pipeline(
    cacheDir: seq<string>,
    tracks: map<string, Record>,
    desired: set<string>,
    jobs: set<string>,
    running: multiset<string>,
    files: set<string>)

  function Empty(cacheDir: seq<string>): Pipeline {
    Pipeline(cacheDir, map[], {}, {}, multiset{}, {})
  }

  function Resolve(p: Pipeline, id: string): Pipeline {
    if id in p.tracks then p else p.(tracks := p.tracks[id := Record(Resolving, NoFile)])
  }

  function RegisterOpus(p: Pipeline, id: string): Pipeline {
    p.(tracks := p.tracks[id := Record(Ready, OpusFile)])
  }

  /** A finished probe or transcode publishes the .opus file or the playlist. */
  function MarkReady(p: Pipeline, id: string, parts: bool): Pipeline {
    if id in p.tracks then p.(tracks := p.tracks[id := Record(Ready, if parts then Parts else OpusFile)]) else p
  }

  function SetError(p: Pipeline, id: string): Pipeline {
    if id in p.tracks then p.(tracks := p.tracks[id := p.tracks[id].(status := Failed)]) else p
  }

  /** A full file just found or finished is published, or removed when nobody wants it. */
  function SetFullReady(p: Pipeline, id: string): Pipeline {
    if id !in p.tracks || id !in p.desired then p.(files := p.files - {id})
    else if p.tracks[id].url == FullFile then p
    else p.(tracks := p.tracks[id := Record(Ready, FullFile)])
  }

  function EnsureFull(p: Pipeline, id: string): Pipeline {
    var p := p.(desired := p.desired + {id});
    if id in p.files then SetFullReady(p, id)
    else if id in p.jobs then p
    else p.(jobs := p.jobs + {id}, running := p.running + multiset{id})
  }

  /** The tail of a download: rename on success, then the job is over. */
  function Downloaded(p: Pipeline, id: string, ok: bool): Pipeline {
    var p := p.(jobs := p.jobs - {id}, running := p.running - multiset{id});
    if ok then SetFullReady(p.(files := p.files + {id}), id) else p
  }

  function EvictFull(p: Pipeline, id: string): Pipeline {
    p.(desired := p.desired - {id},
       files := p.files - {id},
       tracks := if id in p.tracks && p.tracks[id].url == FullFile
                 then p.tracks[id := p.tracks[id].(url := Parts)] else p.tracks)
  }

  /** Deletion removes every cached file that the ID matches as a pattern. */
  function Delete(p: Pipeline, id: string): Pipeline {
    p.(tracks := p.tracks - {id},
       desired := p.desired - {id},
       files := set x | x in p.files && !Removes(p.cacheDir, id, x + ".m4a"))
  }

  datatype Action =
    | DoResolve(id: string)
    | DoRegister(id: string)
    | DoMarkReady(id: string, parts: bool)
    | DoSetError(id: string)
    | DoEnsure(id: string)
    | DoDownloaded(id: string, ok: bool)
    | DoEvict(id: string)
    | DoDelete(id: string)

  /** Only planned tracks are ensured or evicted; they are no uploads, so their IDs are digests. */
  predicate Enabled(p: Pipeline, a: Action) {
    && (a.DoEnsure? || a.DoEvict? ==> IsDigest(a.id))
    && (a.DoDownloaded? ==> a.id in p.running)
  }

  function Apply(p: Pipeline, a: Action): Pipeline {
    match a
    case DoResolve(id) => Resolve(p, id)
    case DoRegister(id) => RegisterOpus(p, id)
    case DoMarkReady(id, parts) => MarkReady(p, id, parts)
    case DoSetError(id) => SetError(p, id)
    case DoEnsure(id) => EnsureFull(p, id)
    case DoDownloaded(id, ok) => Downloaded(p, id, ok)
    case DoEvict(id) => EvictFull(p, id)
    case DoDelete(id) => Delete(p, id)
  }

  function Exec(p: Pipeline, acts: seq<Action>): Pipeline {
    if |acts| == 0 then p else Apply(Exec(p, acts[..|acts| - 1]), acts[|acts| - 1])
  }

  predicate ValidRun(p: Pipeline, acts: seq<Action>) {
    |acts| == 0 ||
    var k := |acts| - 1;
    ValidRun(p, acts[..k]) && Enabled(Exec(p, acts[..k]), acts[k])
  }

  /** A published .m4a is on disk and wanted; nothing else is on disk; one download for each job. */
  ghost predicate Coherent(p: Pipeline) {
    && (forall id :: id in p.tracks && p.tracks[id].url == FullFile ==> id in p.files && id in p.desired)
    && (forall id :: id in p.files ==> id in p.tracks && id in p.desired)
    && (forall id :: p.running[id] <= 1 && (id in p.running <==> id in p.jobs))
  }

  /** Deleting `id` also removes a file that the published track `other` needs. */
  predicate Hits(p: Pipeline, id: string, other: string) {
    && other != id && other in p.tracks && p.tracks[other].url == FullFile
    && Removes(p.cacheDir, id, other + ".m4a")
  }

  /** The ID matches its own file, if there is one, and no other published one. */
  predicate DeletesCleanly(p: Pipeline, id: string) {
    && (id in p.files ==> Removes(p.cacheDir, id, id + ".m4a"))
    && (forall other :: other in p.tracks ==> !Hits(p, id, other))
  }

  lemma DownloadKeepsCoherent(p: Pipeline, a: Action)
    requires Coherent(p) && Enabled(p, a) && (a.DoEnsure? || a.DoDownloaded?)
    ensures Coherent(Apply(p, a))
  {
    if a.DoEnsure? {
      EnsureKeepsCoherent(p, a.id);
    }
  }

  lemma EnsureKeepsCoherent(p: Pipeline, id: string)
    requires Coherent(p)
    ensures Coherent(EnsureFull(p, id))
  {
  }

  lemma StepKeepsCoherent(p: Pipeline, a: Action)
    requires Coherent(p) && Enabled(p, a) && !a.DoDelete?
    ensures Coherent(Apply(p, a))
  {
    if a.DoEnsure? || a.DoDownloaded? {
      DownloadKeepsCoherent(p, a);
    }
  }

  /**
    Deletion keeps the cache coherent exactly when the ID, read as a pattern, matches its own file
    and the file of no other published track.
   */
  lemma DeleteCoherentIff(p: Pipeline, id: string)
    requires Coherent(p)
    ensures Coherent(Delete(p, id)) <==> DeletesCleanly(p, id)
  {
    if other :| other in p.tracks && Hits(p, id, other) {
      assert Delete(p, id).tracks[other].url == FullFile;
    } else if id in p.files && !Removes(p.cacheDir, id, id + ".m4a") {
      assert id in Delete(p, id).files;
    }
  }

  ghost predicate CoherentThroughout(p: Pipeline, acts: seq<Action>) {
    Coherent(Exec(p, acts)) && (|acts| > 0 ==> CoherentThroughout(p, acts[..|acts| - 1]))
  }

  /** Every deletion of the run is clean where it is made. */
  predicate CleanThroughout(p: Pipeline, acts: seq<Action>) {
    |acts| == 0 ||
    var k := |acts| - 1;
    CleanThroughout(p, acts[..k]) && (acts[k].DoDelete? ==> DeletesCleanly(Exec(p, acts[..k]), acts[k].id))
  }

  /**
    From an empty cache directory, over any interleaving of resolves, downloads, ensures, evicts
    and deletes of any IDs: in every state of the run a track whose URL is the .m4a has that file
    on disk and wanted, every .m4a on disk belongs to a known track that wants it and each ID has
    at most one download in flight, if and only if every deletion of the run was clean.
   */
  lemma {:induction false} RunCoherentIff(cacheDir: seq<string>, acts: seq<Action>)
    requires ValidRun(Empty(cacheDir), acts)
    ensures CoherentThroughout(Empty(cacheDir), acts) <==> CleanThroughout(Empty(cacheDir), acts)
    decreases |acts|
  {
    if |acts| > 0 {
      var k := |acts| - 1;
      RunCoherentIff(cacheDir, acts[..k]);
      var mid := Exec(Empty(cacheDir), acts[..k]);
      if CoherentThroughout(Empty(cacheDir), acts[..k]) {
        assert Coherent(mid);
        if acts[k].DoDelete? {
          DeleteCoherentIff(mid, acts[k].id);
        } else {
          StepKeepsCoherent(mid, acts[k]);
        }
      }
    }
  }

  /** Downloads and files are those of tracks that were planned. */
  ghost predicate DigestFiles(p: Pipeline) {
    (forall id :: id in p.files ==> IsDigest(id)) && (forall id :: id in p.running ==> IsDigest(id))
  }

  lemma StepKeepsDigestFiles(p: Pipeline, a: Action)
    requires DigestFiles(p) && Enabled(p, a)
    ensures DigestFiles(Apply(p, a)) && Apply(p, a).cacheDir == p.cacheDir
  {
  }

  lemma {:induction false} RunKeepsDigestFiles(cacheDir: seq<string>, acts: seq<Action>)
    requires ValidRun(Empty(cacheDir), acts)
    ensures DigestFiles(Exec(Empty(cacheDir), acts)) && Exec(Empty(cacheDir), acts).cacheDir == cacheDir
    decreases |acts|
  {
    if |acts| > 0 {
      var k := |acts| - 1;
      RunKeepsDigestFiles(cacheDir, acts[..k]);
      StepKeepsDigestFiles(Exec(Empty(cacheDir), acts[..k]), acts[k]);
    }
  }

  /** Below a directory of a plain name a deletion always takes its own file: only hits matter. */
  lemma CleanUnlessHit(cacheDir: seq<string>, acts: seq<Action>, id: string)
    requires ValidRun(Empty(cacheDir), acts) && PlainDir(cacheDir)
    ensures
      var p := Exec(Empty(cacheDir), acts);
      DeletesCleanly(p, id) <==> forall other :: other in p.tracks ==> !Hits(p, id, other)
  {
    RunKeepsDigestFiles(cacheDir, acts);
    if id in Exec(Empty(cacheDir), acts).files {
      DigestRemovesItsOwn(cacheDir, id, id);
    }
  }

  /** Deleting digests only, the cache is coherent in every state of every run. */
  lemma {:induction false} DigestsStayCoherent(cacheDir: seq<string>, acts: seq<Action>)
    requires ValidRun(Empty(cacheDir), acts) && PlainDir(cacheDir)
    requires forall k :: 0 <= k < |acts| && acts[k].DoDelete? ==> IsDigest(acts[k].id)
    ensures CoherentThroughout(Empty(cacheDir), acts) && CleanThroughout(Empty(cacheDir), acts)
    decreases |acts|
  {
    if |acts| > 0 {
      var k := |acts| - 1;
      DigestsStayCoherent(cacheDir, acts[..k]);
      RunKeepsDigestFiles(cacheDir, acts[..k]);
      CleanUnlessHit(cacheDir, acts[..k], acts[k].id);
      var mid := Exec(Empty(cacheDir), acts[..k]);
      forall other | acts[k].DoDelete? && other in mid.tracks ensures !Hits(mid, acts[k].id, other) {
        if mid.tracks[other].url == FullFile {
          assert other in mid.files;
          DigestRemovesItsOwn(cacheDir, acts[k].id, other);
        }
      }
    }
    RunCoherentIff(cacheDir, acts);
  }

  const SAMPLE := "0123456789abcdef"

  lemma Then(p: Pipeline, acts: seq<Action>, a: Action) returns (more: seq<Action>)
    requires ValidRun(p, acts) && Enabled(Exec(p, acts), a)
    ensures ValidRun(p, more) && Exec(p, more) == Apply(Exec(p, acts), a)
  {
    more := acts + [a];
    assert more[..|acts|] == acts;
  }

  /** A run that publishes the full file of a track. */
  lemma Publish(cacheDir: seq<string>) returns (acts: seq<Action>)
    ensures ValidRun(Empty(cacheDir), acts)
    ensures
      Exec(Empty(cacheDir), acts) ==
        Pipeline(cacheDir, map[SAMPLE := Record(Ready, FullFile)], {SAMPLE}, {}, multiset{}, {SAMPLE})
  {
    var p := Empty(cacheDir);
    acts := [];
    acts := Then(p, acts, DoResolve(SAMPLE));
    acts := Then(p, acts, DoEnsure(SAMPLE));
    assert Exec(p, acts).running == multiset{SAMPLE};
    acts := Then(p, acts, DoDownloaded(SAMPLE, true));
    assert Exec(p, acts).running == multiset{};
    assert Exec(p, acts).jobs == {} && Exec(p, acts).files == {SAMPLE};
  }

  lemma UploadIdsMatchSample(cacheDir: seq<string>, id: string)
    requires PlainDir(cacheDir) && id in ["01", "????????????????", ""]
    ensures Removes(cacheDir, id, SAMPLE + ".m4a") && id != SAMPLE
  {
    var file := SAMPLE + ".m4a";
    if id == "????????????????" {
      assert id == seq(16, _ => '?');
      QuestionMarksGlob(16, file);
      OnePartRemoves(cacheDir, id, file);
    } else {
      assert file[..|id|] == id;
      PlainRemovesPrefixed(cacheDir, id, file);
    }
  }

  /**
    The text after "upload://" is an ID as it stands. Deleting such a track takes the published
    file of another when it is a prefix of that digest, is made of wildcards, or is empty.
   */
  lemma UploadDeleteBreaksCache(cacheDir: seq<string>, id: string) returns (acts: seq<Action>)
    requires PlainDir(cacheDir) && id in ["01", "????????????????", ""]
    ensures ValidRun(Empty(cacheDir), acts)
    ensures var p := Exec(Empty(cacheDir), acts); Coherent(p) && !Coherent(Delete(p, id))
  {
    acts := Publish(cacheDir);
    var p := Exec(Empty(cacheDir), acts);
    UploadIdsMatchSample(cacheDir, id);
    assert Hits(p, id, SAMPLE);
    DeleteCoherentIff(p, id);
  }

  /** One pass of Reconcile over the first `n` tracks of the list. */
  function Reconciled(p: Pipeline, tracks: seq<PlanTrack>, plan: map<string, bool>): Pipeline {
    if |tracks| == 0 then p
    else
      var t := tracks[|tracks| - 1];
      var front := Reconciled(p, tracks[..|tracks| - 1], plan);
      if t.id !in plan then front
      else if plan[t.id] then EnsureFull(front, t.id)
      else if !t.playing then EvictFull(front, t.id)
      else front
  }

  /** What a pass does about one track; the playing one is never evicted. */
  function Decision(t: PlanTrack, plan: map<string, bool>): seq<Action> {
    if t.id in plan && plan[t.id] then [DoEnsure(t.id)]
    else if t.id in plan && !t.playing then [DoEvict(t.id)]
    else []
  }

  function Decisions(tracks: seq<PlanTrack>, plan: map<string, bool>): seq<Action> {
    if |tracks| == 0 then []
    else Decisions(tracks[..|tracks| - 1], plan) + Decision(tracks[|tracks| - 1], plan)
  }

  lemma DecisionIsRun(p: Pipeline, acts: seq<Action>, t: PlanTrack, plan: map<string, bool>)
    ensures
      Exec(p, acts + Decision(t, plan)) ==
        if t.id !in plan then Exec(p, acts)
        else if plan[t.id] then EnsureFull(Exec(p, acts), t.id)
        else if !t.playing then EvictFull(Exec(p, acts), t.id)
        else Exec(p, acts)
  {
    var more := acts + Decision(t, plan);
    if |Decision(t, plan)| == 1 {
      assert more[..|more| - 1] == acts;
    } else {
      assert more == acts;
    }
  }

  /** A pass of Reconcile is a run of ensures and evicts, so all that holds of runs holds of it. */
  lemma {:induction false} ReconcileIsARun(p: Pipeline, tracks: seq<PlanTrack>, plan: map<string, bool>)
    ensures Reconciled(p, tracks, plan) == Exec(p, Decisions(tracks, plan))
    decreases |tracks|
  {
    if |tracks| > 0 {
      var k := |tracks| - 1;
      ReconcileIsARun(p, tracks[..k], plan);
      DecisionIsRun(p, Decisions(tracks[..k], plan), tracks[k], plan);
    }
  }

  /** The bytes of the wanted full files among the planned tracks of the list. */
  function WantedBytes(p: Pipeline, tracks: seq<PlanTrack>): int {
    if |tracks| == 0 then 0
    else
      var t := tracks[|tracks| - 1];
      WantedBytes(p, tracks[..|tracks| - 1]) + if IsLong(t) && t.id in p.desired then M4ABytes(t.durationMs) else 0
  }

  function PlayingBytes(tracks: seq<PlanTrack>): int {
    if |tracks| == 0 then 0
    else
      var t := tracks[|tracks| - 1];
      PlayingBytes(tracks[..|tracks| - 1]) + if t.playing && IsLong(t) then M4ABytes(t.durationMs) else 0
  }

  /** Each planned track ends up wanted as decided, but a refused playing track stays as it was. */
  lemma {:induction false} ReconciledWants(p: Pipeline, tracks: seq<PlanTrack>, plan: map<string, bool>, id: string)
    requires forall i, j :: 0 <= i < j < |tracks| ==> tracks[i].id != tracks[j].id
    ensures
      (forall i :: 0 <= i < |tracks| && tracks[i].id == id && id in plan ==>
        (id in Reconciled(p, tracks, plan).desired <==> plan[id] || (tracks[i].playing && id in p.desired)))
    ensures (forall i :: 0 <= i < |tracks| ==> tracks[i].id != id) ==>
              (id in Reconciled(p, tracks, plan).desired <==> id in p.desired)
    decreases |tracks|
  {
    if |tracks| > 0 {
      var k := |tracks| - 1;
      ReconciledWants(p, tracks[..k], plan, id);
    }
  }

  lemma {:induction false} WantedWithinPlan(p: Pipeline, tracks: seq<PlanTrack>, plan: map<string, bool>)
    requires Wellformed(tracks)
    requires forall i :: 0 <= i < |tracks| && IsLong(tracks[i]) && tracks[i].id in p.desired ==>
               Selected(plan, tracks[i]) || tracks[i].playing
    ensures WantedBytes(p, tracks) <= SelectedBytes(tracks, plan) + PlayingBytes(tracks)
    decreases |tracks|
  {
    if |tracks| > 0 {
      WantedWithinPlan(p, tracks[..|tracks| - 1], plan);
    }
  }

  /**
    After Reconcile the wanted full files among the listed long tracks take at most the budget
    plus the size of the playing track, whatever was wanted before.
   */
  lemma ReconcileMeetsBudget(p: Pipeline, tracks: seq<PlanTrack>, budgetMB: int)
    requires Wellformed(tracks) && budgetMB >= 0
    ensures
      var plan := PlanOf(tracks, budgetMB * 1048576).plan;
      WantedBytes(Reconciled(p, tracks, plan), tracks) <= budgetMB * 1048576 + PlayingBytes(tracks)
  {
    var budget := budgetMB * 1048576;
    var plan := PlanOf(tracks, budget).plan;
    var out := Reconciled(p, tracks, plan);
    PlanKeys(tracks, budget);
    forall i | 0 <= i < |tracks| && IsLong(tracks[i]) && tracks[i].id in out.desired
      ensures Selected(plan, tracks[i]) || tracks[i].playing
    {
      ReconciledWants(p, tracks, plan, tracks[i].id);
    }
    WantedWithinPlan(out, tracks, plan);
    PlanWithinBudget(tracks, budgetMB);
  }
}
