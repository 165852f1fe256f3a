/**
  What the queue holds, read off the calls that were made: for each ID the track of its last
  upsert since it was last taken out.
 */
module QueueHistory {
  import opened Options
  import opened TrackQueue
  import opened PlaybackMachine
  import opened QueueDiscipline

  /** The queued track of this ID. */
  function EntryOf(queue: seq<Track>, id: string): Option<Track> {
    if IndexOf(queue, id) < |queue| then Some(queue[IndexOf(queue, id)]) else None
  }

  predicate IsPlaying(st: Room, id: string) {
    st.playing.Some? && st.playing.value.trackID == id
  }

  /** The last upsert of `id`, unless it was removed, played to its end or swept away since. */
  function LastUpsert(st: Room, acts: seq<Action>, id: string): Option<Track>
    requires ValidRun(st, acts)
  {
    if |acts| == 0 then None
    else
      var k := |acts| - 1;
      var was, before := Exec(st, acts[..k]), LastUpsert(st, acts[..k], id);
      match acts[k]
      case DoUpsert(t) => if t.id == id then Some(t) else before
      case DoRemove(gone) => if gone == id && !IsPlaying(was, id) then None else before
      case RunEnd(gone) => if gone == id && IsPlaying(was, id) then None else before
      case DoCleanup => None
      case _ => before
  }

  lemma UpsertedEntry(queue: seq<Track>, t: Track, id: string)
    requires DistinctIds(queue)
    ensures EntryOf(Upserted(queue, t), id) == if id == t.id then Some(t) else EntryOf(queue, id)
  {
    UpsertedKeepsQueue(queue, t);
    if id == t.id {
      var i :| 0 <= i < |Upserted(queue, t)| && Upserted(queue, t)[i] == t;
      IndexIsUnique(Upserted(queue, t), i);
    }
  }

  lemma WithoutEntry(queue: seq<Track>, gone: string, id: string)
    requires DistinctIds(queue)
    ensures EntryOf(Without(queue, gone), id) == if id == gone then None else EntryOf(queue, id)
  {
    var q := Without(queue, gone);
    WithoutKeepsQueue(queue, gone);
    if id != gone {
      HoldsIffMember(queue, id);
      HoldsIffMember(q, id);
      if Holds(queue, id) {
        var i, k := IndexOf(queue, id), IndexOf(queue, gone);
        var i' := if i < k then i else i - 1;
        assert q[i'] == queue[i];
        IndexIsUnique(q, i');
      }
    }
  }

  /**
    Where an upsert puts its track: at the place of the queued one, or behind all others; every
    other place holds what it held.
   */
  lemma UpsertPlacesTrack(st: Room, t: Track)
    requires Disciplined(st) && Enabled(st, DoUpsert(t))
    ensures
      var was, queue := st.queue, Apply(st, DoUpsert(t)).queue;
      var i := IndexOf(was, t.id);
      && |queue| == (if Holds(was, t.id) then |was| else |was| + 1)
      && i < |queue| && queue[i] == t && IndexOf(queue, t.id) == i
      && (forall k :: 0 <= k < |was| && k != i ==> queue[k] == was[k])
  {
    UpsertedKeepsQueue(st.queue, t);
    var queue := Upserted(st.queue, t);
    assert queue[IndexOf(st.queue, t.id)].id == t.id;
    IndexIsUnique(queue, IndexOf(st.queue, t.id));
  }

  lemma StepFollows(st: Room, a: Action, id: string)
    requires Disciplined(st) && Enabled(st, a)
    ensures
      EntryOf(Apply(st, a).queue, id) ==
        match a
        case DoUpsert(t) => (if t.id == id then Some(t) else EntryOf(st.queue, id))
        case DoRemove(gone) => (if gone == id && !IsPlaying(st, id) then None else EntryOf(st.queue, id))
        case RunEnd(gone) => (if gone == id && IsPlaying(st, id) then None else EntryOf(st.queue, id))
        case DoCleanup => None
        case _ => EntryOf(st.queue, id)
  {
    match a
    case DoUpsert(t) => UpsertedEntry(st.queue, t, id);
    case DoRemove(gone) => WithoutEntry(st.queue, gone, id);
    case RunEnd(gone) => WithoutEntry(st.queue, gone, id);
    case DoCleanup => assert Apply(st, a).queue == [];
    case _ => OthersKeepTheQueue(st, a);
  }

  /** In every reachable state the queue holds for each ID exactly what its history says. */
  lemma {:induction false} QueueIsItsHistory(mode: Mode, now: int, acts: seq<Action>, id: string)
    requires ValidRun(Init(mode, now), acts)
    ensures EntryOf(Exec(Init(mode, now), acts).queue, id) == LastUpsert(Init(mode, now), acts, id)
    decreases |acts|
  {
    if |acts| > 0 {
      var k := |acts| - 1;
      QueueIsItsHistory(mode, now, acts[..k], id);
      RunKeepsQueue(Init(mode, now), acts[..k]);
      StepFollows(Exec(Init(mode, now), acts[..k]), acts[k], id);
    }
  }

  /** Nothing plays and only `t`, if anything, could. */
  predicate Idle(st: Room, t: Track) {
    st.playing.None? && CanPlay(st) && !st.wedged && forall u :: u in st.queue && u.status == Ready ==> u.id == t.id
  }

  lemma UpsertMakesFirst(queue: seq<Track>, t: Track)
    requires DistinctIds(queue) && t.status == Ready
    requires forall u :: u in queue && u.status == Ready ==> u.id == t.id
    ensures FirstReady(Upserted(queue, t)) < |Upserted(queue, t)|
    ensures Upserted(queue, t)[FirstReady(Upserted(queue, t))] == t
  {
    UpsertedKeepsQueue(queue, t);
    var q := Upserted(queue, t);
    var i :| 0 <= i < |q| && q[i] == t;
    assert q[i].status == Ready && HasReady(q);
    var first := FirstReady(q);
    assert q[first] in q;
    IndexIsUnique(q, i);
    IndexIsUnique(q, first);
  }

  /** A track that becomes Ready while nothing else can play is the one that is installed next. */
  lemma ReadyUpsertPlays(st: Room, t: Track)
    requires Disciplined(st) && Idle(st, t) && t.status == Ready
    ensures
      var out := Apply(Apply(st, DoUpsert(t)), RunMaybeStart);
      && out.playing.Some?
      && var pb := out.playing.value;
      && pb.trackID == t.id && pb.title == t.title && pb.durationMs == t.durationMs && !pb.started
      && (st.mode.Signal? ==> pb.fileURL == t.fileURL)
      && EntryOf(out.queue, t.id) == Some(t)
  {
    UpsertMakesFirst(st.queue, t);
    UpsertedEntry(st.queue, t, t.id);
    assert Apply(st, DoUpsert(t)).queue == Upserted(st.queue, t);
  }
}
