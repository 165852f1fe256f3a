/**
  Leaving and coming back: what a member regains with its token, whatever happened between.
 */
module ResumeRoundTrip {
  import opened Membership
  import opened MembershipRuns

  /** Nobody ends the grace of `id` or uses its token in this action. */
  predicate Spares<C>(a: Action<C>, id: string, token: string) {
    && a != DoHardLeave(id)
    && a != DoFinalize(id)
    && (a.DoJoin? ==> a.resumeToken != token)
  }

  predicate AllSpare<C>(acts: seq<Action<C>>, id: string, token: string) {
    forall k :: 0 <= k < |acts| ==> Spares(acts[k], id, token)
  }

  /** The place of `id` is held as `h`, and it is host exactly when `host` says so. */
  ghost predicate Waiting<C>(m: Members<C>, id: string, h: Held, host: bool) {
    id in m.pending && m.pending[id] == h && (m.hostID == id <==> host)
  }

  lemma JoinKeepsWaiting<C>(m: Members<C>, client: C, own: string, token: string, minted: string,
                            id: string, h: Held, host: bool)
    requires Sound(m) && Enabled(m, DoJoin(client, own, token, minted)) && Waiting(m, id, h, host) && token != h.token
    ensures Waiting(Join(m, client, own, token, minted), id, h, host)
  {
  }

  lemma StepKeepsWaiting<C>(m: Members<C>, a: Action<C>, id: string, h: Held, host: bool)
    requires Sound(m) && Enabled(m, a) && Waiting(m, id, h, host) && Spares(a, id, h.token)
    ensures Waiting(Apply(m, a), id, h, host)
  {
    match a
    case DoJoin(client, own, token, minted) => JoinKeepsWaiting(m, client, own, token, minted, id, h, host);
    case DoLeave(client, leaver) => LeaveKeepsWaiting(m, client, leaver, id, h, host);
    case _ =>
  }

  lemma LeaveKeepsWaiting<C>(m: Members<C>, client: C, leaver: string, id: string, h: Held, host: bool)
    requires Sound(m) && Waiting(m, id, h, host)
    ensures Waiting(Leave(m, client, leaver), id, h, host)
  {
    if leaver in m.clients {
      MemberHasToken(m, leaver);
    }
  }

  lemma {:induction false} RunKeepsWaiting<C>(m: Members<C>, acts: seq<Action<C>>, id: string, h: Held, host: bool)
    requires Sound(m) && ValidRun(m, acts) && Waiting(m, id, h, host) && AllSpare(acts, id, h.token)
    ensures Waiting(Exec(m, acts), id, h, host)
    decreases |acts|
  {
    if |acts| > 0 {
      var k := |acts| - 1;
      RunKeepsWaiting(m, acts[..k], id, h, host);
      MembershipInvariant(m, acts[..k]);
      StepKeepsWaiting(Exec(m, acts[..k]), acts[k], id, h, host);
    }
  }

  lemma DropIsHeld<C>(m: Members<C>, client: C, id: string)
    requires Sound(m) && id in m.clients && m.clients[id].client == client
    ensures
      var e := m.clients[id];
      Waiting(Leave(m, client, id), id, Held(e.order, e.token, m.now + 60000), m.hostID == id)
  {
    MemberHasToken(m, id);
  }

  /**
    Resume round trip. A connected member drops, and any run follows that neither finalizes or
    hard-leaves its ID nor uses its token. Joining with the token from a new connection then gives
    it back its ID, order and token, it is host exactly if it was when it left, and nobody else's
    place, token or role is touched.
   */
  lemma ResumeRegainsPlace<C>(m: Members<C>, client: C, id: string, acts: seq<Action<C>>, back: C, own: string, minted: string)
    requires Sound(m) && id in m.clients && m.clients[id].client == client
    requires ValidRun(Leave(m, client, id), acts) && AllSpare(acts, id, m.clients[id].token)
    ensures
      var e := m.clients[id];
      var before := Exec(Leave(m, client, id), acts);
      var after := Join(before, back, own, e.token, minted);
      && after.clients == before.clients[id := Entry(back, e.order, e.token)]
      && after.pending == before.pending - {id}
      && after.tokens == before.tokens && e.token in after.tokens && after.tokens[e.token] == id
      && after.seqCounter == before.seqCounter
      && after.hostID == before.hostID
      && (after.hostID == id <==> m.hostID == id)
  {
    var e := m.clients[id];
    var h := Held(e.order, e.token, m.now + 60000);
    var dropped := Leave(m, client, id);
    DropIsHeld(m, client, id);
    LeaveKeepsSound(m, client, id);
    RunKeepsWaiting(dropped, acts, id, h, m.hostID == id);
    MembershipInvariant(dropped, acts);
    var before := Exec(dropped, acts);
    MemberHasToken(before, id);
    assert Roster(before)[id].token == e.token;
  }

  lemma StepStaysDetached<C>(m: Members<C>, a: Action<C>, client: C)
    requires Enabled(m, a) && Detached(m, client) && (a.DoJoin? ==> a.client != client)
    ensures Detached(Apply(m, a), client)
  {
  }

  lemma {:induction false} StaysDetached<C>(m: Members<C>, acts: seq<Action<C>>, client: C)
    requires ValidRun(m, acts) && Detached(m, client)
    requires forall k :: 0 <= k < |acts| && acts[k].DoJoin? ==> acts[k].client != client
    ensures Detached(Exec(m, acts), client)
    decreases |acts|
  {
    if |acts| > 0 {
      var k := |acts| - 1;
      StaysDetached(m, acts[..k], client);
      StepStaysDetached(Exec(m, acts[..k]), acts[k], client);
    }
  }

  /**
    A connection whose member came back on another one is powerless from then on: after any
    later run in which it does not join again, its own Leave changes nothing at all.
   */
  lemma ReplacedConnectionIsPowerless<C>(m: Members<C>, client: C, id: string, back: C, own: string, minted: string,
                                         acts: seq<Action<C>>, leaving: string)
    requires Sound(m) && id in m.clients && m.clients[id].client == client && back != client
    requires
      var resumed := Join(m, back, own, m.clients[id].token, minted);
      && ValidRun(resumed, acts)
      && (forall k :: 0 <= k < |acts| && acts[k].DoJoin? ==> acts[k].client != client)
    ensures
      var end := Exec(Join(m, back, own, m.clients[id].token, minted), acts);
      Leave(end, client, leaving) == end
  {
    MemberHasToken(m, id);
    var resumed := Join(m, back, own, m.clients[id].token, minted);
    assert Detached(resumed, client);
    StaysDetached(resumed, acts, client);
  }

  /** The finalize callback of `id` only comes when the timer of its held place is due. */
  ghost predicate Timely<C>(m: Members<C>, acts: seq<Action<C>>, id: string)
    requires ValidRun(m, acts)
    decreases |acts|
  {
    |acts| == 0 ||
    var k := |acts| - 1;
    var mid := Exec(m, acts[..k]);
    && Timely(m, acts[..k], id)
    && (acts[k] == DoFinalize(id) ==> id in mid.pending && mid.pending[id].deadline <= mid.now)
  }

  lemma StepTakesTime<C>(m: Members<C>, a: Action<C>)
    requires Enabled(m, a)
    ensures m.now <= Apply(m, a).now
  {
    match a
    case DoJoin(client, own, token, minted) => JoinTakesNoTime(m, client, own, token, minted);
    case DoLeave(client, id) => LeaveTakesNoTime(m, client, id);
    case _ =>
  }

  lemma JoinTakesNoTime<C>(m: Members<C>, client: C, own: string, token: string, minted: string)
    ensures Join(m, client, own, token, minted).now == m.now
  {
  }

  lemma LeaveTakesNoTime<C>(m: Members<C>, client: C, id: string)
    ensures Leave(m, client, id).now == m.now
  {
  }

  /**
    The grace window: with timely timers, a dropped member that neither says goodbye nor comes
    back keeps its place, and the host role if it had it, for a full 60 s.
   */
  lemma {:induction false} GraceLastsAMinute<C>(m: Members<C>, acts: seq<Action<C>>, id: string, h: Held, host: bool)
    requires Sound(m) && ValidRun(m, acts) && Timely(m, acts, id) && Waiting(m, id, h, host)
    requires forall k :: 0 <= k < |acts| ==>
      acts[k] != DoHardLeave(id) && (acts[k].DoJoin? ==> acts[k].resumeToken != h.token)
    requires Exec(m, acts).now < h.deadline
    ensures Waiting(Exec(m, acts), id, h, host)
    decreases |acts|
  {
    if |acts| > 0 {
      var k := |acts| - 1;
      var mid := Exec(m, acts[..k]);
      StepTakesTime(mid, acts[k]);
      GraceLastsAMinute(m, acts[..k], id, h, host);
      MembershipInvariant(m, acts[..k]);
      StepKeepsWaiting(mid, acts[k], id, h, host);
    }
  }
}
