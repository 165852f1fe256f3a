/**
  What every run keeps about the queue, in signal and in stream rooms: distinct IDs, order,
  first-Ready-first choice, no lost start, and one advance for each time a track is enqueued.
 */
module QueueDiscipline {
  import opened Options
  import opened TrackQueue
  import opened PlaybackMachine

  predicate Disciplined(st: Room) {
    && DistinctIds(st.queue)
    && (st.playing.Some? ==> Holds(st.queue, st.playing.value.trackID))
  }

  predicate CanPlay(st: Room) {
    st.mode != Stream(false)
  }

  /** A Ready track with nothing playing is owed a maybeStart by a call in flight. */
  predicate StartOwed(st: Room) {
    st.playing.None? && HasReady(st.queue) && CanPlay(st) ==> OwesMaybeStart in st.inflight
  }

  lemma RemovalOnlyLosesReady(queue: seq<Track>, id: string)
    requires DistinctIds(queue)
    ensures HasReady(Without(queue, id)) ==> HasReady(queue)
  {
  }

  lemma StartKeepsQueue(st: Room, a: Action)
    requires Disciplined(st) && StartOwed(st) && Enabled(st, a)
    requires a.RunMaybeStart? || a.RunStart?
    ensures Disciplined(Apply(st, a)) && StartOwed(Apply(st, a))
  {
    if a.RunMaybeStart? && st.playing.None? && CanPlay(st) && HasReady(st.queue) {
      assert Holds(st.queue, st.queue[FirstReady(st.queue)].id);
    }
  }

  lemma EditKeepsQueue(st: Room, a: Action)
    requires Disciplined(st) && StartOwed(st) && Enabled(st, a)
    requires a.DoUpsert? || a.DoRemove? || a.RunEnd?
    ensures Disciplined(Apply(st, a)) && StartOwed(Apply(st, a))
  {
    match a
    case DoUpsert(t) => UpsertedKeepsQueue(st.queue, t);
    case DoRemove(id) =>
      WithoutKeepsQueue(st.queue, id);
      RemovalOnlyLosesReady(st.queue, id);
      if st.playing.Some? && st.playing.value.trackID != id {
        var i := IndexOf(st.queue, st.playing.value.trackID);
        assert st.queue[i] in Without(st.queue, id);
        HoldsIffMember(Without(st.queue, id), st.queue[i].id);
      }
    case RunEnd(id) => WithoutStaysDistinct(st.queue, id);
  }

  lemma StepKeepsQueue(st: Room, a: Action)
    requires Disciplined(st) && StartOwed(st) && Enabled(st, a)
    ensures Disciplined(Apply(st, a)) && StartOwed(Apply(st, a)) && Apply(st, a).mode == st.mode
  {
    match a
    case DoUpsert(_) => EditKeepsQueue(st, a);
    case DoRemove(_) => EditKeepsQueue(st, a);
    case RunEnd(_) => EditKeepsQueue(st, a);
    case RunMaybeStart => StartKeepsQueue(st, a);
    case RunStart(_) => StartKeepsQueue(st, a);
    case _ =>
  }

  lemma {:induction false} RunKeepsQueue(st: Room, acts: seq<Action>)
    requires Disciplined(st) && StartOwed(st) && ValidRun(st, acts)
    ensures Disciplined(Exec(st, acts)) && StartOwed(Exec(st, acts)) && Exec(st, acts).mode == st.mode
    decreases |acts|
  {
    if |acts| > 0 {
      var k := |acts| - 1;
      RunKeepsQueue(st, acts[..k]);
      StepKeepsQueue(Exec(st, acts[..k]), acts[k]);
    }
  }

  /**
    No lost start. In every reachable state, whatever calls are interleaved: IDs are distinct,
    the playing track is queued, and if nothing is playing while a track is Ready then some call
    in flight still owes its maybeStart; so with no such call, a Ready track means one is playing.
   */
  lemma NoLostStart(mode: Mode, now: int, acts: seq<Action>)
    requires mode != Stream(false) && ValidRun(Init(mode, now), acts)
    ensures
      var st := Exec(Init(mode, now), acts);
      && DistinctIds(st.queue)
      && (st.playing.Some? ==> Holds(st.queue, st.playing.value.trackID))
      && (st.playing.None? && HasReady(st.queue) ==> OwesMaybeStart in st.inflight)
      && (OwesMaybeStart !in st.inflight && HasReady(st.queue) ==> st.playing.Some?)
  {
    RunKeepsQueue(Init(mode, now), acts);
  }

  /** Without a broadcaster a stream room never plays, whatever its queue holds. */
  lemma {:induction false} NoBroadcasterNoPlayback(now: int, acts: seq<Action>)
    requires ValidRun(Init(Stream(false), now), acts)
    ensures Exec(Init(Stream(false), now), acts).playing.None?
    ensures Exec(Init(Stream(false), now), acts).mode == Stream(false)
    decreases |acts|
  {
    if |acts| > 0 {
      NoBroadcasterNoPlayback(now, acts[..|acts| - 1]);
    }
  }

  /** Anything but maybeStart leaves the playback that was there, if any, or none. */
  lemma OthersInstallNothing(st: Room, a: Action)
    requires Enabled(st, a) && a != RunMaybeStart && Apply(st, a).playing.Some?
    ensures st.playing.Some? && st.playing.value.instance == Apply(st, a).playing.value.instance
  {
  }

  /**
    A new playback is only ever installed by maybeStart, with nothing playing before, for a
    queued Ready track whose details it copies, and every track ahead of it was not Ready.
   */
  lemma StartsFirstReady(st: Room, a: Action)
    requires Disciplined(st) && Enabled(st, a)
    requires Apply(st, a).playing.Some?
    requires st.playing.None? || st.playing.value.instance != Apply(st, a).playing.value.instance
    ensures a == RunMaybeStart && st.playing.None?
    ensures
      var pb := Apply(st, a).playing.value;
      var i := IndexOf(st.queue, pb.trackID);
      && i < |st.queue|
      && st.queue[i].status == Ready
      && (forall j :: 0 <= j < i ==> st.queue[j].status != Ready)
      && pb.title == st.queue[i].title
      && pb.durationMs == st.queue[i].durationMs
      && (st.mode.Signal? ==> pb.fileURL == st.queue[i].fileURL)
      && !pb.started && pb.ready == {}
  {
    if a == RunMaybeStart {
      IndexIsUnique(st.queue, FirstReady(st.queue));
    } else {
      OthersInstallNothing(st, a);
    }
  }

  /** A skip has something to act on; a stream's skip ignores an empty ID. */
  predicate Skippable(st: Room) {
    && st.playing.Some?
    && (st.mode.Stream? ==> st.mode.broadcaster && st.playing.value.trackID != "")
  }

  /** What is playing once a skip has run all its regions with nothing in between. */
  function SkipAtOnce(st: Room): Room
    requires Skippable(st) && !st.wedged
  {
    var id := st.playing.value.trackID;
    Apply(Apply(Skip(st), RunEnd(id)), RunMaybeStart)
  }

  /** The first half of a skip: the playing track is gone and the next start is owed. */
  lemma SkipEnds(st: Room)
    requires Skippable(st) && !st.wedged
    ensures
      var pb := st.playing.value;
      Apply(Skip(st), RunEnd(pb.trackID)) ==
        st.(timers := StopTimer(st.timers, pb.endTimer), queue := Without(st.queue, pb.trackID), playing := None,
            inflight := st.inflight + multiset{OwesMaybeStart})
  {
    var id := st.playing.value.trackID;
    assert st.inflight + multiset{OwesEnd(id)} - multiset{OwesEnd(id)} == st.inflight;
  }

  /**
    An undisturbed skip takes exactly the playing track out of the queue, silences its end timer
    and goes on to the first other Ready track, or to silence when there is none.
   */
  lemma SkipAdvances(st: Room)
    requires Disciplined(st) && Skippable(st) && !st.wedged
    ensures
      var pb, out := st.playing.value, SkipAtOnce(st);
      && (forall t :: t in out.queue <==> t in st.queue && t.id != pb.trackID)
      && (out.playing.Some? <==> exists t :: t in st.queue && t.id != pb.trackID && t.status == Ready)
      && (out.playing.Some? ==>
            var rest := Without(st.queue, pb.trackID);
            && FirstReady(rest) < |rest| && out.playing.value.trackID == rest[FirstReady(rest)].id
            && out.playing.value.trackID != pb.trackID && !out.playing.value.started)
      && (pb.endTimer.Some? && pb.endTimer.value < st.nextTimer ==> pb.endTimer.value !in out.timers)
      && out.inflight == st.inflight
  {
    var pb := st.playing.value;
    SkipEnds(st);
    IdleInstalls(Apply(Skip(st), RunEnd(pb.trackID)));
    WithoutKeepsQueue(st.queue, pb.trackID);
    var rest := Without(st.queue, pb.trackID);
    if HasReady(rest) {
      assert rest[FirstReady(rest)] in rest;
    }
    if t :| t in st.queue && t.id != pb.trackID && t.status == Ready {
      assert t in rest;
    }
    assert st.inflight + multiset{OwesMaybeStart} - multiset{OwesMaybeStart} == st.inflight;
  }

  /** With nothing playing, maybeStart installs the first Ready track if there is one. */
  lemma IdleInstalls(st: Room)
    requires Enabled(st, RunMaybeStart) && st.playing.None? && CanPlay(st)
    ensures
      var out := Apply(st, RunMaybeStart);
      && out.queue == st.queue && out.inflight == st.inflight - multiset{OwesMaybeStart}
      && (out.playing.Some? <==> HasReady(st.queue))
      && (out.playing.Some? ==> out.playing.value.trackID == st.queue[FirstReady(st.queue)].id && !out.playing.value.started)
      && (forall h :: h in out.timers ==> h in st.timers || h == st.nextTimer)
  {
  }

  /** `id` is queued in every state of the run, the first and the last included. */
  predicate QueuedThroughout(st: Room, acts: seq<Action>, id: string)
    requires ValidRun(st, acts)
    decreases |acts|
  {
    && Holds(Exec(st, acts).queue, id)
    && (|acts| > 0 ==> QueuedThroughout(st, acts[..|acts| - 1], id))
  }

  lemma StepKeepsOrder(st: Room, act: Action, a: string, b: string)
    requires Disciplined(st) && Enabled(st, act)
    requires Ahead(st.queue, a, b)
    requires Holds(Apply(st, act).queue, a) && Holds(Apply(st, act).queue, b)
    ensures Ahead(Apply(st, act).queue, a, b)
  {
    match act
    case DoUpsert(t) => UpsertedKeepsQueue(st.queue, t);
    case DoRemove(id) => RemovalKeepsOrder(st.queue, id, a, b);
    case RunEnd(id) => RemovalKeepsOrder(st.queue, id, a, b);
    case DoCleanup =>
    case _ => OthersKeepTheQueue(st, act);
  }

  lemma RemovalKeepsOrder(queue: seq<Track>, id: string, a: string, b: string)
    requires DistinctIds(queue) && Ahead(queue, a, b)
    ensures Holds(Without(queue, id), a) && Holds(Without(queue, id), b) ==> Ahead(Without(queue, id), a, b)
  {
    WithoutKeepsQueue(queue, id);
    if a != id && b != id {
      WithoutKeepsOrder(queue, id, a, b);
    }
  }

  /** Over any stretch of a run, two tracks that stay queued keep their relative order. */
  lemma {:induction false} SurvivorsKeepOrder(st: Room, acts: seq<Action>, a: string, b: string)
    requires Disciplined(st) && StartOwed(st) && ValidRun(st, acts)
    requires QueuedThroughout(st, acts, a) && QueuedThroughout(st, acts, b)
    requires Ahead(st.queue, a, b)
    ensures Ahead(Exec(st, acts).queue, a, b)
    decreases |acts|
  {
    if |acts| > 0 {
      var k := |acts| - 1;
      SurvivorsKeepOrder(st, acts[..k], a, b);
      RunKeepsQueue(st, acts[..k]);
      StepKeepsOrder(Exec(st, acts[..k]), acts[k], a, b);
    }
  }

  predicate Ends(st: Room, a: Action, id: string) {
    a == RunEnd(id) && st.playing.Some? && st.playing.value.trackID == id
  }

  /** How many times the run ended the track `id` and moved on. */
  function Advances(st: Room, acts: seq<Action>, id: string): nat
    requires ValidRun(st, acts)
    decreases |acts|
  {
    if |acts| == 0 then 0
    else
      var k := |acts| - 1;
      Advances(st, acts[..k], id) + if Ends(Exec(st, acts[..k]), acts[k], id) then 1 else 0
  }

  /** How many times the run enqueued `id`. */
  function Enqueues(acts: seq<Action>, id: string): nat {
    if |acts| == 0 then 0
    else
      var a := acts[|acts| - 1];
      Enqueues(acts[..|acts| - 1], id) + if a.DoUpsert? && a.track.id == id then 1 else 0
  }

  function Present(st: Room, id: string): nat {
    if Holds(st.queue, id) then 1 else 0
  }

  lemma StepConservesTrack(st: Room, a: Action, id: string)
    requires Disciplined(st) && Enabled(st, a)
    ensures
      Present(Apply(st, a), id) + (if Ends(st, a, id) then 1 else 0)
      <= Present(st, id) + (if a.DoUpsert? && a.track.id == id then 1 else 0)
  {
    match a
    case DoUpsert(t) => UpsertedKeepsQueue(st.queue, t);
    case DoRemove(gone) =>
      WithoutKeepsQueue(st.queue, gone);
      HoldsIffMember(Without(st.queue, gone), id);
      HoldsIffMember(st.queue, id);
    case RunEnd(gone) =>
      WithoutKeepsQueue(st.queue, gone);
      HoldsIffMember(Without(st.queue, gone), id);
      HoldsIffMember(st.queue, id);
    case _ =>
  }

  /**
    One advance per track: however many skips and end callbacks captured `id`, the ends of `id`
    over a run, plus its presence afterwards, never exceed its presence before plus its enqueues.
   */
  lemma {:induction false} AdvancesAreEarned(st: Room, acts: seq<Action>, id: string)
    requires Disciplined(st) && StartOwed(st) && ValidRun(st, acts)
    ensures Advances(st, acts, id) + Present(Exec(st, acts), id) <= Present(st, id) + Enqueues(acts, id)
    decreases |acts|
  {
    if |acts| > 0 {
      var k := |acts| - 1;
      AdvancesAreEarned(st, acts[..k], id);
      RunKeepsQueue(st, acts[..k]);
      StepConservesTrack(Exec(st, acts[..k]), acts[k], id);
    }
  }

  /**
    After `id` has been ended once, and until it is enqueued again, every further skip or end
    callback that captured it only retires itself: its successor is never ended in its place.
   */
  lemma LateEndsAreInert(st: Room, acts: seq<Action>, id: string)
    requires Disciplined(st) && StartOwed(st) && Enabled(st, RunEnd(id)) && Ends(st, RunEnd(id), id)
    requires ValidRun(Apply(st, RunEnd(id)), acts) && Enqueues(acts, id) == 0
    ensures
      var end := Exec(Apply(st, RunEnd(id)), acts);
      && !Holds(end.queue, id)
      && Advances(Apply(st, RunEnd(id)), acts, id) == 0
      && (Enabled(end, RunEnd(id)) ==> Apply(end, RunEnd(id)) == Retire(end, OwesEnd(id)))
  {
    StepKeepsQueue(st, RunEnd(id));
    var next := Apply(st, RunEnd(id));
    WithoutKeepsQueue(st.queue, id);
    assert Present(next, id) == 0;
    AdvancesAreEarned(next, acts, id);
    RunKeepsQueue(next, acts);
  }
}
