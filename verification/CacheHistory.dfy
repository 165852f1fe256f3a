/**
  What the pipeline holds about one track, read off the steps that were made: whether it is known
  and wanted, whether its full file is there or being fetched, and what its URL names.
 */
module CacheHistory {
  import opened TrackQueue
  import opened CachePattern
  import opened FullCache

  /** Resolved or registered, and not deleted since. */
  predicate Known(acts: seq<Action>, id: string) {
    |acts| > 0 &&
    var a, before := acts[|acts| - 1], Known(acts[..|acts| - 1], id);
    if a.id != id then before
    else if a.DoResolve? || a.DoRegister? then true
    else if a.DoDelete? then false
    else before
  }

  /** Ensured, and neither evicted nor deleted since. */
  predicate Wanted(acts: seq<Action>, id: string) {
    |acts| > 0 &&
    var a, before := acts[|acts| - 1], Wanted(acts[..|acts| - 1], id);
    if a.id != id then before
    else if a.DoEnsure? then true
    else if a.DoEvict? || a.DoDelete? then false
    else before
  }

  /** A download that was wanted when it finished, and no step removed its file since. */
  predicate OnDisk(cacheDir: seq<string>, acts: seq<Action>, id: string) {
    |acts| > 0 &&
    var front, a := acts[..|acts| - 1], acts[|acts| - 1];
    var before := OnDisk(cacheDir, front, id);
    if a.DoDelete? then before && !Removes(cacheDir, a.id, id + ".m4a")
    else if a.id != id then before
    else
      match a
      case DoDownloaded(_, ok) => if ok then Known(front, id) && Wanted(front, id) else before
      case DoEnsure(_) => before && Known(front, id)
      case DoEvict(_) => false
      case _ => before
  }

  /** An ensure that found no file began a download, and it has not finished. */
  predicate Fetching(cacheDir: seq<string>, acts: seq<Action>, id: string) {
    |acts| > 0 &&
    var front, a := acts[..|acts| - 1], acts[|acts| - 1];
    var before := Fetching(cacheDir, front, id);
    if a.id != id then before
    else if a.DoEnsure? then before || !OnDisk(cacheDir, front, id)
    else if a.DoDownloaded? then false
    else before
  }

  /** The step publishes the full file of a known track. */
  predicate Publishes(cacheDir: seq<string>, front: seq<Action>, a: Action) {
    && Known(front, a.id)
    && ((a.DoEnsure? && OnDisk(cacheDir, front, a.id)) || (a.DoDownloaded? && a.ok && Wanted(front, a.id)))
  }

  /** What the last publishing step named. */
  function UrlBy(cacheDir: seq<string>, acts: seq<Action>, id: string): FileKind {
    if |acts| == 0 then NoFile
    else
      var front, a := acts[..|acts| - 1], acts[|acts| - 1];
      var before := UrlBy(cacheDir, front, id);
      if a.id != id then before
      else if Publishes(cacheDir, front, a) then FullFile
      else
        match a
        case DoRegister(_) => OpusFile
        case DoMarkReady(_, parts) => if !Known(front, id) then before else if parts then Parts else OpusFile
        case DoEvict(_) => if before == FullFile then Parts else before
        case DoDelete(_) => NoFile
        case _ => before
  }

  function StatusBy(cacheDir: seq<string>, acts: seq<Action>, id: string): Status {
    if |acts| == 0 then Resolving
    else
      var front, a := acts[..|acts| - 1], acts[|acts| - 1];
      var before := StatusBy(cacheDir, front, id);
      if a.id != id then before
      else if Publishes(cacheDir, front, a) then (if UrlBy(cacheDir, front, id) == FullFile then before else Ready)
      else
        match a
        case DoRegister(_) => Ready
        case DoMarkReady(_, _) => if Known(front, id) then Ready else before
        case DoSetError(_) => if Known(front, id) then Failed else before
        case DoDelete(_) => Resolving
        case _ => before
  }

  predicate Follows(p: Pipeline, cacheDir: seq<string>, acts: seq<Action>, id: string) {
    && p.cacheDir == cacheDir
    && (id in p.tracks <==> Known(acts, id))
    && (id in p.desired <==> Wanted(acts, id))
    && (id in p.files <==> OnDisk(cacheDir, acts, id))
    && (id in p.jobs <==> Fetching(cacheDir, acts, id))
    && p.running[id] == (if Fetching(cacheDir, acts, id) then 1 else 0)
    && (if id in p.tracks then p.tracks[id] == Record(StatusBy(cacheDir, acts, id), UrlBy(cacheDir, acts, id))
        else StatusBy(cacheDir, acts, id) == Resolving && UrlBy(cacheDir, acts, id) == NoFile)
  }

  /** A step on another ID changes nothing but, for a deletion, the file. */
  lemma OthersUntouched(p: Pipeline, a: Action, id: string)
    requires Enabled(p, a) && a.id != id
    ensures
      var out := Apply(p, a);
      && out.cacheDir == p.cacheDir && (id in out.tracks <==> id in p.tracks)
      && (id in p.tracks ==> out.tracks[id] == p.tracks[id])
      && (id in out.desired <==> id in p.desired) && (id in out.jobs <==> id in p.jobs)
      && out.running[id] == p.running[id]
      && (id in out.files <==> id in p.files && !(a.DoDelete? && Removes(p.cacheDir, a.id, id + ".m4a")))
  {
  }

  lemma OwnStep(p: Pipeline, cacheDir: seq<string>, acts: seq<Action>)
    requires |acts| > 0 && Enabled(p, acts[|acts| - 1])
    requires Follows(p, cacheDir, acts[..|acts| - 1], acts[|acts| - 1].id)
    ensures Follows(Apply(p, acts[|acts| - 1]), cacheDir, acts, acts[|acts| - 1].id)
  {
  }

  /** In every reachable state the pipeline holds about each ID exactly what its history says. */
  lemma {:induction false} CacheIsItsHistory(cacheDir: seq<string>, acts: seq<Action>, id: string)
    requires ValidRun(Empty(cacheDir), acts)
    ensures Follows(Exec(Empty(cacheDir), acts), cacheDir, acts, id)
    decreases |acts|
  {
    if |acts| > 0 {
      var k := |acts| - 1;
      CacheIsItsHistory(cacheDir, acts[..k], id);
      if acts[k].id == id {
        OwnStep(Exec(Empty(cacheDir), acts[..k]), cacheDir, acts);
      } else {
        OthersUntouched(Exec(Empty(cacheDir), acts[..k]), acts[k], id);
      }
    }
  }

  lemma {:induction false} ReadyIsFetchable(cacheDir: seq<string>, acts: seq<Action>, id: string)
    ensures StatusBy(cacheDir, acts, id) == Ready ==> UrlBy(cacheDir, acts, id) != NoFile
    decreases |acts|
  {
    if |acts| > 0 {
      ReadyIsFetchable(cacheDir, acts[..|acts| - 1], id);
    }
  }

  /** Clients can fetch every Ready track: its URL always names something. */
  lemma ReadyTracksHaveUrls(cacheDir: seq<string>, acts: seq<Action>, id: string)
    requires ValidRun(Empty(cacheDir), acts)
    ensures
      var p := Exec(Empty(cacheDir), acts);
      id in p.tracks && p.tracks[id].status == Ready ==> p.tracks[id].url != NoFile
  {
    CacheIsItsHistory(cacheDir, acts, id);
    ReadyIsFetchable(cacheDir, acts, id);
  }

  /** An evicted full file gives way to the playlist; no other track's record changes. */
  lemma EvictionRevertsToPlaylist(p: Pipeline, id: string)
    ensures
      var out := EvictFull(p, id);
      && id !in out.files && id !in out.desired && out.tracks.Keys == p.tracks.Keys
      && (forall other :: other in p.tracks ==>
            out.tracks[other].status == p.tracks[other].status &&
            out.tracks[other].url == if other == id && p.tracks[id].url == FullFile then Parts else p.tracks[other].url)
  {
  }
}
