/**
  Media shared by the rooms of a registry: a track's pipeline entry is released when the last
  room lets go of it. Each function is one whole call, taken as atomic.
 */
module MediaRelease {
  import opened Options
  import opened TrackQueue
  import M = PlaybackMachine

  /** What a room holds on to: its queue, and the ID it is playing. */
  datatype RoomView = RoomView(queue: seq<Track>, playing: Option<string>)

  /** The registered rooms by code, and the track IDs the pipeline knows. */
  datatype Registry = Registry(rooms: map<string, RoomView>, entries: set<string>)

  predicate References(room: RoomView, id: string) {
    room.playing == Some(id) || Holds(room.queue, id)
  }

  predicate InUse(r: Registry, id: string) {
    exists code :: code in r.rooms && References(r.rooms[code], id)
  }

  function CleanIfUnused(r: Registry, id: string): Registry {
    if InUse(r, id) then r else r.(entries := r.entries - {id})
  }

  function Put(r: Registry, code: string, room: RoomView): Registry {
    r.(rooms := r.rooms[code := room])
  }

  function Create(r: Registry, code: string): Registry
    requires code !in r.rooms
  {
    Put(r, code, RoomView([], None))
  }

  /** The handler resolves a source, then queues the track it got. */
  function Enqueue(r: Registry, code: string, t: Track): Registry
    requires code in r.rooms
  {
    Put(r.(entries := r.entries + {t.id}), code, r.rooms[code].(queue := Upserted(r.rooms[code].queue, t)))
  }

  /** The pipeline reports on a track it still knows. */
  function Update(r: Registry, code: string, t: Track): Registry
    requires code in r.rooms
  {
    if t.id in r.entries then Put(r, code, r.rooms[code].(queue := Upserted(r.rooms[code].queue, t))) else r
  }

  function Start(r: Registry, code: string): Registry
    requires code in r.rooms
  {
    var room := r.rooms[code];
    var i := FirstReady(room.queue);
    if room.playing.Some? || i == |room.queue| then r else Put(r, code, room.(playing := Some(room.queue[i].id)))
  }

  function EndTrack(r: Registry, code: string, id: string): Registry
    requires code in r.rooms
  {
    var room := r.rooms[code];
    if room.playing != Some(id) then r
    else CleanIfUnused(Put(r, code, RoomView(Without(room.queue, id), None)), id)
  }

  function RemoveTrack(r: Registry, code: string, id: string): Registry
    requires code in r.rooms
  {
    var room := r.rooms[code];
    if room.playing == Some(id) then r else Put(r, code, room.(queue := Without(room.queue, id)))
  }

  /** Unregisters the room, then lets go of everything it queued or played, in any order. */
  function RemoveRoom(r: Registry, code: string): Registry
    requires code in r.rooms
  {
    var rest := r.(rooms := r.rooms - {code});
    rest.(entries := set x | x in r.entries && !(References(r.rooms[code], x) && !InUse(rest, x)))
  }

  datatype Action =
    | DoCreate(code: string)
    | DoEnqueue(code: string, track: Track)
    | DoUpdate(code: string, track: Track)
    | DoStart(code: string)
    | DoEnd(code: string, id: string)
    | DoRemoveTrack(code: string, id: string)
    | DoRemoveRoom(code: string)
    | DoResolve(id: string)   // for a room no longer registered
    | DoClean(id: string)     // a room no longer registered lets go of a track

  predicate Enabled(r: Registry, a: Action) {
    match a
    case DoCreate(code) => code !in r.rooms
    case DoResolve(_) => true
    case DoClean(_) => true
    case _ => a.code in r.rooms
  }

  function Apply(r: Registry, a: Action): Registry
    requires Enabled(r, a)
  {
    match a
    case DoCreate(code) => Create(r, code)
    case DoEnqueue(code, t) => Enqueue(r, code, t)
    case DoUpdate(code, t) => Update(r, code, t)
    case DoStart(code) => Start(r, code)
    case DoEnd(code, id) => EndTrack(r, code, id)
    case DoRemoveTrack(code, id) => RemoveTrack(r, code, id)
    case DoRemoveRoom(code) => RemoveRoom(r, code)
    case DoResolve(id) => r.(entries := r.entries + {id})
    case DoClean(id) => CleanIfUnused(r, id)
  }

  predicate ValidRun(r: Registry, acts: seq<Action>)
    decreases |acts|, 0
  {
    |acts| == 0 ||
    var k := |acts| - 1;
    ValidRun(r, acts[..k]) && Enabled(Exec(r, acts[..k]), acts[k])
  }

  function Exec(r: Registry, acts: seq<Action>): Registry
    requires ValidRun(r, acts)
    decreases |acts|, 1
  {
    if |acts| == 0 then r else Apply(Exec(r, acts[..|acts| - 1]), acts[|acts| - 1])
  }

  /** Whatever a registered room queues or plays, the pipeline still knows. */
  ghost predicate Backed(r: Registry) {
    forall code, id :: code in r.rooms && References(r.rooms[code], id) ==> id in r.entries
  }

  lemma CleaningKeepsBacked(r: Registry, id: string)
    requires Backed(r)
    ensures Backed(CleanIfUnused(r, id))
  {
  }

  /** Replacing one room by one that holds on to nothing the pipeline does not know. */
  lemma PuttingKeepsBacked(r: Registry, code: string, room: RoomView)
    requires Backed(r) && forall id :: References(room, id) ==> id in r.entries
    ensures Backed(Put(r, code, room))
  {
  }

  lemma QueueingKeepsBacked(r: Registry, code: string, t: Track)
    requires Backed(r) && code in r.rooms
    ensures Backed(Enqueue(r, code, t)) && Backed(Update(r, code, t))
  {
  }

  lemma DroppingKeepsBacked(r: Registry, code: string, id: string)
    requires Backed(r) && code in r.rooms
    ensures Backed(EndTrack(r, code, id)) && Backed(RemoveTrack(r, code, id))
  {
  }

  lemma StartingKeepsBacked(r: Registry, code: string)
    requires Backed(r) && code in r.rooms
    ensures Backed(Start(r, code))
  {
  }

  lemma StepKeepsBacked(r: Registry, a: Action)
    requires Backed(r) && Enabled(r, a)
    ensures Backed(Apply(r, a))
  {
    match a
    case DoEnqueue(code, t) => QueueingKeepsBacked(r, code, t);
    case DoUpdate(code, t) => QueueingKeepsBacked(r, code, t);
    case DoStart(code) => StartingKeepsBacked(r, code);
    case DoEnd(code, id) => DroppingKeepsBacked(r, code, id);
    case DoRemoveTrack(code, id) => DroppingKeepsBacked(r, code, id);
    case DoClean(id) => CleaningKeepsBacked(r, id);
    case DoCreate(code) => PuttingKeepsBacked(r, code, RoomView([], None));
    case DoRemoveRoom(_) =>
    case DoResolve(_) =>
  }

  /**
    Through any sequence of enqueues, updates, starts, ends, removals and room removals, every
    track that a registered room queues or plays keeps its pipeline entry.
   */
  lemma {:induction false} QueuedTracksKeepTheirMedia(acts: seq<Action>, known: set<string>)
    requires ValidRun(Registry(map[], known), acts)
    ensures Backed(Exec(Registry(map[], known), acts))
    decreases |acts|
  {
    if |acts| > 0 {
      var k := |acts| - 1;
      QueuedTracksKeepTheirMedia(acts[..k], known);
      StepKeepsBacked(Exec(Registry(map[], known), acts[..k]), acts[k]);
    }
  }

  /** An entry is only ever deleted when no registered room queues or plays its track any more. */
  lemma DeletedOnlyWhenUnused(r: Registry, a: Action, id: string)
    requires Enabled(r, a) && id in r.entries && id !in Apply(r, a).entries
    ensures !InUse(Apply(r, a), id)
    ensures a.DoEnd? || a.DoRemoveRoom? || a.DoClean?
  {
  }

  /** Ending a track releases its entry at once exactly when no registered room still needs it. */
  lemma LastEndReleases(r: Registry, code: string, id: string)
    requires Backed(r) && code in r.rooms && r.rooms[code].playing == Some(id)
    ensures id in EndTrack(r, code, id).entries <==> InUse(EndTrack(r, code, id), id)
  {
    assert References(r.rooms[code], id);
  }

  /** Lets go of the IDs one after the other. */
  function CleanEach(r: Registry, ids: seq<string>): Registry {
    if |ids| == 0 then r else CleanIfUnused(CleanEach(r, ids[..|ids| - 1]), ids[|ids| - 1])
  }

  lemma {:induction false} CleanEachReleases(r: Registry, ids: seq<string>)
    ensures CleanEach(r, ids) == r.(entries := CleanEach(r, ids).entries)
    ensures forall x :: x in CleanEach(r, ids).entries <==> x in r.entries && (x in ids ==> InUse(r, x))
    decreases |ids|
  {
    if |ids| > 0 {
      var k := |ids| - 1;
      CleanEachReleases(r, ids[..k]);
      assert ids == ids[..k] + [ids[k]];
      assert InUse(CleanEach(r, ids[..k]), ids[k]) == InUse(r, ids[k]);
    }
  }

  /** Removing a room comes to the same in whatever order, and however often, its tracks are let go. */
  lemma RemovalOrderIsFree(r: Registry, code: string, ids: seq<string>)
    requires code in r.rooms && forall x :: x in ids <==> References(r.rooms[code], x)
    ensures CleanEach(r.(rooms := r.rooms - {code}), ids) == RemoveRoom(r, code)
  {
    var rest := r.(rooms := r.rooms - {code});
    CleanEachReleases(rest, ids);
    assert CleanEach(rest, ids).entries == RemoveRoom(r, code).entries;
  }

  /** What a room of the playback machine holds on to. */
  function ViewOf(st: M.Room): RoomView {
    RoomView(st.queue, if st.playing.None? then None else Some(st.playing.value.trackID))
  }

  lemma QueueingAgrees(r: Registry, code: string, st: M.Room, t: Track)
    requires code in r.rooms && r.rooms[code] == ViewOf(st)
    ensures Enqueue(r, code, t) == Put(r.(entries := r.entries + {t.id}), code, ViewOf(M.UpsertTrack(st, t)))
    ensures Update(r, code, t) == if t.id in r.entries then Put(r, code, ViewOf(M.UpsertTrack(st, t))) else r
  {
  }

  lemma StartAgrees(r: Registry, code: string, st: M.Room)
    requires code in r.rooms && r.rooms[code] == ViewOf(st)
    ensures Start(r, code) == Put(r, code, ViewOf(M.MaybeStart(st)))
  {
    assert r.rooms[code := r.rooms[code]] == r.rooms;
  }

  lemma TakingOutAgrees(r: Registry, code: string, st: M.Room, id: string)
    requires code in r.rooms && r.rooms[code] == ViewOf(st)
    ensures EndTrack(r, code, id).rooms == r.rooms[code := ViewOf(M.EndTrack(st, id))]
    ensures RemoveTrack(r, code, id) == Put(r, code, ViewOf(M.RemoveTrack(st, id)))
  {
    assert r.rooms[code := r.rooms[code]] == r.rooms;
  }

  /** The registry's steps do to a room what the playback machine's steps do, and resolving adds the entry. */
  lemma StepsAgree(r: Registry, code: string, st: M.Room, t: Track, id: string)
    requires code in r.rooms && r.rooms[code] == ViewOf(st)
    ensures Enqueue(r, code, t) == Put(r.(entries := r.entries + {t.id}), code, ViewOf(M.UpsertTrack(st, t)))
    ensures Update(r, code, t) == if t.id in r.entries then Put(r, code, ViewOf(M.UpsertTrack(st, t))) else r
    ensures Start(r, code) == Put(r, code, ViewOf(M.MaybeStart(st)))
    ensures EndTrack(r, code, id).rooms == r.rooms[code := ViewOf(M.EndTrack(st, id))]
    ensures RemoveTrack(r, code, id) == Put(r, code, ViewOf(M.RemoveTrack(st, id)))
    ensures Apply(r, DoResolve(id)).rooms == r.rooms && Apply(r, DoResolve(id)).entries == r.entries + {id}
  {
    QueueingAgrees(r, code, st, t);
    StartAgrees(r, code, st);
    TakingOutAgrees(r, code, st, id);
  }
}
