/**
  How long a room outlives its last connected member, and who sits where after a join.
 */
module EmptyRoom {
  import opened Options
  import opened Membership
  import opened MembershipRuns

  /** The time of the departure that left the room without connected members. */
  ghost function EmptySince<C>(m: Members<C>, acts: seq<Action<C>>): int
    requires ValidRun(m, acts)
    decreases |acts|
  {
    if |acts| == 0 then m.now
    else
      var k := |acts| - 1;
      var was := Exec(m, acts[..k]);
      if was.clients != map[] && Apply(was, acts[k]).clients == map[] then was.now else EmptySince(m, acts[..k])
  }

  function Elapsed<C>(acts: seq<Action<C>>): nat {
    if |acts| == 0 then 0
    else
      var a := acts[|acts| - 1];
      Elapsed(acts[..|acts| - 1]) + if a.Tick? then a.elapsed else 0
  }

  lemma JoinIsInstant<C>(m: Members<C>, client: C, own: string, token: string, minted: string)
    ensures Join(m, client, own, token, minted).now == m.now
  {
  }

  lemma LeaveIsInstant<C>(m: Members<C>, client: C, id: string)
    ensures Leave(m, client, id).now == m.now
  {
  }

  lemma {:induction false} ClockIsHistory<C>(m: Members<C>, acts: seq<Action<C>>)
    requires ValidRun(m, acts)
    ensures Exec(m, acts).now == m.now + Elapsed(acts)
    decreases |acts|
  {
    if |acts| > 0 {
      var k := |acts| - 1;
      ClockIsHistory(m, acts[..k]);
      match acts[k]
      case DoJoin(client, own, token, minted) => JoinIsInstant(Exec(m, acts[..k]), client, own, token, minted);
      case DoLeave(client, id) => LeaveIsInstant(Exec(m, acts[..k]), client, id);
      case _ =>
    }
  }

  /** The empty timer of a joined, registered, empty room is due two minutes after `since`. */
  ghost predicate DueAfter<C>(m: Members<C>, since: int) {
    m.joined && m.registered && m.clients == map[] ==> m.emptyTimer == Some(since + 120000)
  }

  /** A departure keeps an armed timer, and arms it when it is the one that empties the room. */
  lemma SettleArms<C>(m: Members<C>, id: string, since: int)
    requires Tables(m) && DueAfter(m, since)
    ensures
      var out := HardLeave(m, id);
      DueAfter(out, if m.clients != map[] && out.clients == map[] then m.now else since)
    ensures
      var out := FinalizeLeave(m, id);
      DueAfter(out, if m.clients != map[] && out.clients == map[] then m.now else since)
  {
  }

  lemma DropArms<C>(m: Members<C>, client: C, id: string, since: int)
    requires Tables(m) && DueAfter(m, since)
    ensures
      var out := Leave(m, client, id);
      DueAfter(out, if m.clients != map[] && out.clients == map[] then m.now else since)
  {
  }

  lemma JoinFills<C>(m: Members<C>, client: C, own: string, token: string, minted: string)
    ensures Join(m, client, own, token, minted).clients != map[]
    ensures Join(m, client, own, token, minted).emptyTimer.None?
  {
    var id := if IsResume(m, token) then m.tokens[token] else own;
    assert id in Join(m, client, own, token, minted).clients;
  }

  lemma StepArms<C>(m: Members<C>, a: Action<C>, since: int)
    requires Sound(m) && Enabled(m, a) && DueAfter(m, since)
    ensures
      var out := Apply(m, a);
      DueAfter(out, if m.clients != map[] && out.clients == map[] then m.now else since)
  {
    match a
    case DoJoin(client, own, token, minted) => JoinFills(m, client, own, token, minted);
    case DoLeave(client, id) => DropArms(m, client, id, since);
    case DoHardLeave(id) => SettleArms(m, id, since);
    case DoFinalize(id) => SettleArms(m, id, since);
    case _ =>
  }

  /** In every reachable state the timer of an empty room is due 120 s after its last member went. */
  lemma {:induction false} EmptyTimerIsDue<C>(now: int, acts: seq<Action<C>>)
    requires ValidRun(Init<C>(now), acts)
    ensures DueAfter(Exec(Init<C>(now), acts), EmptySince(Init<C>(now), acts))
    decreases |acts|
  {
    if |acts| > 0 {
      var k := |acts| - 1;
      EmptyTimerIsDue<C>(now, acts[..k]);
      NewRoomIsSound<C>(now);
      MembershipInvariant(Init<C>(now), acts[..k]);
      StepArms(Exec(Init<C>(now), acts[..k]), acts[k], EmptySince(Init<C>(now), acts[..k]));
    }
  }

  /**
    A joined room is removed by a step exactly when its timer goes off, nobody is connected and
    nobody has been for two minutes; and from then on that step is there to be taken.
   */
  lemma RoomGoesIff<C>(now: int, acts: seq<Action<C>>, a: Action<C>)
    requires ValidRun(Init<C>(now), acts)
    requires Exec(Init<C>(now), acts).joined && Exec(Init<C>(now), acts).registered
    ensures
      var m := Exec(Init<C>(now), acts);
      && (Enabled(m, DoEmptyTimer) <==> m.clients == map[] && m.now >= EmptySince(Init<C>(now), acts) + 120000)
      && (Enabled(m, a) ==> (!Apply(m, a).registered <==> a.DoEmptyTimer?))
  {
    EmptyTimerIsDue<C>(now, acts);
    NewRoomIsSound<C>(now);
    MembershipInvariant(Init<C>(now), acts);
    if Enabled(Exec(Init<C>(now), acts), a) {
      OnlyTimersRemove(Exec(Init<C>(now), acts), a);
    }
  }

  /** The timer is stopped for a room that is not empty, armed once for one that is, and not moved. */
  lemma TimerIsArmedOnce<C>(m: Members<C>)
    ensures ScheduleEmptyTimer(m, false) == m.(emptyTimer := None)
    ensures ScheduleEmptyTimer(m, true) == m.(emptyTimer := Some(if m.emptyTimer.Some? then m.emptyTimer.value else m.now + 120000))
  {
  }

  /** Whenever the timer's callback runs, however late, a room with somebody connected is spared. */
  lemma LateCallbackSparesRoom<C>(m: Members<C>)
    ensures m.clients != map[] ==> EmptyTimerFires(m) == m
    ensures m.clients == map[] ==> EmptyTimerFires(m) == m.(registered := false, emptyTimer := if m.registered then None else m.emptyTimer)
  {
  }

  lemma OnlyTimersRemove<C>(m: Members<C>, a: Action<C>)
    requires Sound(m) && m.joined && m.registered && Enabled(m, a)
    ensures !Apply(m, a).registered <==> a.DoEmptyTimer?
  {
    match a
    case DoLeave(client, id) => LeaveKeepsRegistered(m, client, id);
    case _ =>
  }

  lemma LeaveKeepsRegistered<C>(m: Members<C>, client: C, id: string)
    ensures Leave(m, client, id).registered == m.registered
  {
  }

  /** Out of `m` the connection got one place, under `id`, and nobody else's changed. */
  ghost predicate Seats<C>(m: Members<C>, out: Members<C>, id: string, e: Entry<C>) {
    && out.clients.Keys == m.clients.Keys + {id} && out.clients[id] == e
    && (forall other :: other in m.clients && other != id ==> out.clients[other] == m.clients[other])
    && out.pending == m.pending - {id}
    && out.hostID == (if m.hostID == "" then id else m.hostID)
  }

  /** A resume takes the held order, or a new one when the member is still connected elsewhere. */
  lemma ResumeSeats<C>(m: Members<C>, client: C, own: string, token: string, minted: string)
    requires IsResume(m, token)
    ensures
      var id := m.tokens[token];
      var order := if id in m.pending then m.pending[id].order else m.seqCounter + 1;
      Seats(m, Join(m, client, own, token, minted), id, Entry(client, order, token))
  {
    assert m.tokens[token] !in m.pending ==> m.pending - {m.tokens[token]} == m.pending;
  }

  lemma FreshJoinSeats<C>(m: Members<C>, client: C, own: string, token: string, minted: string)
    requires !IsResume(m, token) && own !in m.pending
    ensures Seats(m, Join(m, client, own, token, minted), own, Entry(client, m.seqCounter + 1, minted))
    ensures Join(m, client, own, token, minted).tokens == m.tokens[minted := own]
  {
    assert m.pending - {own} == m.pending;
  }

  /** Whoever departs for good is neither connected nor held, and nobody else's place changes. */
  lemma DepartureTakesOne<C>(m: Members<C>, id: string)
    requires m.clients.Keys !! m.pending.Keys
    ensures HardLeave(m, id).clients == m.clients - {id} && HardLeave(m, id).pending == m.pending - {id}
    ensures FinalizeLeave(m, id).clients == m.clients && FinalizeLeave(m, id).pending == m.pending - {id}
  {
  }
}
