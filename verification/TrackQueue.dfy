/**
  The room queue: the track record and the scans that upsert, remove and choose tracks.
 */
module TrackQueue {
  datatype Status = Resolving | Ready | Failed

  datatype Track = Track(
    id: string,
    sourceURL: string,
    status: Status,
    title: string,
    fileURL: string,
    durationMs: int)

  predicate Holds(queue: seq<Track>, id: string) {
    exists i :: 0 <= i < |queue| && queue[i].id == id
  }

  predicate HasReady(queue: seq<Track>) {
    exists i :: 0 <= i < |queue| && queue[i].status == Ready
  }

  predicate DistinctIds(queue: seq<Track>) {
    forall i, j :: 0 <= i < j < |queue| ==> queue[i].id != queue[j].id
  }

  /** The first position holding `id`, or the length of the queue when there is none. */
  function IndexOf(queue: seq<Track>, id: string): (r: nat)
    ensures r <= |queue|
    ensures forall j :: 0 <= j < r ==> queue[j].id != id
    ensures r < |queue| ==> queue[r].id == id
    ensures r < |queue| <==> Holds(queue, id)
  {
    if |queue| == 0 then 0
    else if queue[0].id == id then 0
    else
      var rest := IndexOf(queue[1..], id);
      assert forall j :: 1 <= j < 1 + rest ==> queue[j] == queue[1..][j - 1];
      assert rest < |queue| - 1 ==> queue[1 + rest] == queue[1..][rest];
      1 + rest
  }

  /** The first Ready position, or the length of the queue when there is none. */
  function FirstReady(queue: seq<Track>): (r: nat)
    ensures r <= |queue|
    ensures forall j :: 0 <= j < r ==> queue[j].status != Ready
    ensures r < |queue| ==> queue[r].status == Ready
    ensures r < |queue| <==> HasReady(queue)
  {
    if |queue| == 0 then 0
    else if queue[0].status == Ready then 0
    else
      var rest := FirstReady(queue[1..]);
      assert forall j :: 1 <= j < 1 + rest ==> queue[j] == queue[1..][j - 1];
      assert rest < |queue| - 1 ==> queue[1 + rest] == queue[1..][rest];
      1 + rest
  }

  function Upserted(queue: seq<Track>, t: Track): seq<Track> {
    var i := IndexOf(queue, t.id);
    if i < |queue| then queue[i := t] else queue + [t]
  }

  function Without(queue: seq<Track>, id: string): seq<Track> {
    var i := IndexOf(queue, id);
    if i < |queue| then queue[..i] + queue[i + 1..] else queue
  }

  /** Both are queued, and `a` stands ahead of `b`. */
  predicate Ahead(queue: seq<Track>, a: string, b: string) {
    IndexOf(queue, a) < IndexOf(queue, b) < |queue|
  }

  lemma IndexIsUnique(queue: seq<Track>, i: nat)
    requires DistinctIds(queue) && i < |queue|
    ensures IndexOf(queue, queue[i].id) == i
  {
    assert Holds(queue, queue[i].id);
  }

  /** An upsert keeps the IDs distinct, adds exactly the track given and moves nothing. */
  lemma UpsertedKeepsQueue(queue: seq<Track>, t: Track)
    requires DistinctIds(queue)
    ensures DistinctIds(Upserted(queue, t))
    ensures t in Upserted(queue, t)
    ensures forall id :: Holds(Upserted(queue, t), id) <==> Holds(queue, id) || id == t.id
    ensures forall id :: Holds(queue, id) ==> IndexOf(Upserted(queue, t), id) == IndexOf(queue, id)
    ensures forall u :: u in Upserted(queue, t) && u.id != t.id <==> u in queue && u.id != t.id
  {
    var q := Upserted(queue, t);
    var i := IndexOf(queue, t.id);
    if i < |queue| {
      assert q[i] == t;
      forall k | 0 <= k < |q| ensures q[k].id == queue[k].id {}
    } else {
      assert q[|queue|] == t;
      assert forall k :: 0 <= k < |queue| ==> q[k] == queue[k];
    }
    forall id
      ensures Holds(q, id) <==> Holds(queue, id) || id == t.id
      ensures Holds(queue, id) ==> IndexOf(q, id) == IndexOf(queue, id)
    {
      if Holds(queue, id) {
        var k := IndexOf(queue, id);
        assert q[k].id == id;
        IndexIsUnique(q, k);
      }
    }
    forall u ensures u in q && u.id != t.id <==> u in queue && u.id != t.id {
      if u in queue && u.id != t.id {
        var k :| 0 <= k < |queue| && queue[k] == u;
        assert q[k] == u;
      }
    }
  }

  lemma WithoutStaysDistinct(queue: seq<Track>, id: string)
    requires DistinctIds(queue)
    ensures DistinctIds(Without(queue, id))
  {
  }

  /** Removing an ID takes out that track and nothing else. */
  lemma WithoutKeepsQueue(queue: seq<Track>, id: string)
    requires DistinctIds(queue)
    ensures DistinctIds(Without(queue, id))
    ensures !Holds(Without(queue, id), id)
    ensures forall u :: u in Without(queue, id) <==> u in queue && u.id != id
  {
  }

  /** The tracks that survive a removal keep their order. */
  lemma WithoutKeepsOrder(queue: seq<Track>, id: string, a: string, b: string)
    requires DistinctIds(queue)
    requires Ahead(queue, a, b) && a != id && b != id
    ensures Ahead(Without(queue, id), a, b)
  {
    WithoutStaysDistinct(queue, id);
    var q := Without(queue, id);
    var i, x, y := IndexOf(queue, id), IndexOf(queue, a), IndexOf(queue, b);
    if i < |queue| {
      var x', y' := if x < i then x else x - 1, if y < i then y else y - 1;
      assert q[x'].id == a;
      assert q[y'].id == b;
      IndexIsUnique(q, x');
      IndexIsUnique(q, y');
    }
  }

  lemma HoldsIffMember(queue: seq<Track>, id: string)
    ensures Holds(queue, id) <==> exists u :: u in queue && u.id == id
  {
  }
}
