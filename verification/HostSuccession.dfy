/**
  Who is host: the role never moves while its holder is a member, and when the holder goes
  for good the role goes to the longest-standing connected member, if there is one.
 */
module HostSuccession {
  import opened Membership
  import opened MembershipRuns

  /** The host's final departure, if this action is one. */
  ghost predicate HostDeparts<C>(m: Members<C>, a: Action<C>) {
    || a == DoHardLeave(m.hostID)
    || (a == DoFinalize(m.hostID) && m.hostID in m.pending)
  }

  ghost predicate SomeoneElseConnected<C>(m: Members<C>, id: string) {
    m.clients - {id} != map[]
  }

  ghost predicate HostIsMember<C>(m: Members<C>) {
    m.joined ==> IsMember(m, m.hostID)
  }

  lemma OldestIsUnique<C>(m: Members<C>, a: string, b: string)
    requires Sound(m) && IsOldest(m.clients, a) && IsOldest(m.clients, b)
    ensures a == b
  {
    assert a in Roster(m) && b in Roster(m);
    assert Roster(m)[a].order == Roster(m)[b].order;
  }

  lemma DepartureKeepsOthers<C>(m: Members<C>, id: string)
    requires m.clients.Keys !! m.pending.Keys
    ensures HardLeave(m, id).clients == m.clients - {id}
    ensures id in m.pending ==> FinalizeLeave(m, id).clients == m.clients - {id}
  {
    assert id in m.pending ==> m.clients - {id} == m.clients;
  }

  lemma DepartureMovesHost<C>(m: Members<C>, id: string)
    requires m.clients.Keys !! m.pending.Keys
    ensures m.hostID != id ==> HardLeave(m, id).hostID == m.hostID && FinalizeLeave(m, id).hostID == m.hostID
    ensures m.hostID == id && !SomeoneElseConnected(m, id) ==>
              HardLeave(m, id).hostID == m.hostID && FinalizeLeave(m, id).hostID == m.hostID
    ensures m.hostID == id && SomeoneElseConnected(m, id) ==> IsOldest(m.clients - {id}, HardLeave(m, id).hostID)
    ensures m.hostID == id && id in m.pending && SomeoneElseConnected(m, id) ==>
              IsOldest(m.clients - {id}, FinalizeLeave(m, id).hostID)
  {
    assert id in m.pending ==> m.clients - {id} == m.clients;
  }

  lemma OthersKeepHost<C>(m: Members<C>, a: Action<C>)
    requires Sound(m) && m.joined && Enabled(m, a) && !a.DoHardLeave? && !a.DoFinalize?
    ensures Apply(m, a).hostID == m.hostID
  {
    if a.DoLeave? {
      LeaveKeepsSound(m, a.client, a.id);
    }
  }

  /**
    A host that goes for good while others are connected is succeeded by the one connected
    member of least order, which is unique; otherwise the role does not move.
   */
  lemma SuccessorIsOldest<C>(m: Members<C>, a: Action<C>)
    requires Sound(m) && m.joined && Enabled(m, a)
    ensures
      var out := Apply(m, a);
      if HostDeparts(m, a) && SomeoneElseConnected(m, m.hostID) then
        && IsOldest(out.clients, out.hostID)
        && out.clients == m.clients - {m.hostID}
        && (forall id :: IsOldest(out.clients, id) ==> id == out.hostID)
      else out.hostID == m.hostID
  {
    match a {
      case DoHardLeave(id) =>
        DepartureKeepsOthers(m, id);
        DepartureMovesHost(m, id);
      case DoFinalize(id) =>
        DepartureKeepsOthers(m, id);
        DepartureMovesHost(m, id);
      case _ => OthersKeepHost(m, a);
    }
    if HostDeparts(m, a) && SomeoneElseConnected(m, m.hostID) {
      StepKeepsSound(m, a);
      var out := Apply(m, a);
      forall id | IsOldest(out.clients, id) ensures id == out.hostID {
        OldestIsUnique(out, id, out.hostID);
      }
    }
  }

  lemma OthersKeepHostMember<C>(m: Members<C>, a: Action<C>)
    requires Sound(m) && m.joined && IsMember(m, m.hostID) && Enabled(m, a) && !a.DoHardLeave? && !a.DoFinalize?
    ensures IsMember(Apply(m, a), m.hostID)
  {
    if a.DoLeave? && a.id in m.clients {
      MemberHasToken(m, a.id);
    }
  }

  lemma DepartureOfAnotherKeepsMember<C>(m: Members<C>, id: string)
    requires m.clients.Keys !! m.pending.Keys && IsMember(m, m.hostID) && id != m.hostID
    ensures IsMember(HardLeave(m, id), m.hostID) && IsMember(FinalizeLeave(m, id), m.hostID)
  {
  }

  lemma DepartedIsNoMember<C>(m: Members<C>, id: string)
    requires m.clients.Keys !! m.pending.Keys
    ensures !IsMember(HardLeave(m, id), id)
    ensures id in m.pending ==> !IsMember(FinalizeLeave(m, id), id)
  {
  }

  /** Exactly when a step leaves the host role with a member. */
  lemma HostStaysMemberIff<C>(m: Members<C>, a: Action<C>)
    requires Sound(m) && m.joined && IsMember(m, m.hostID) && Enabled(m, a)
    ensures IsMember(Apply(m, a), Apply(m, a).hostID) <==>
              (HostDeparts(m, a) ==> SomeoneElseConnected(m, m.hostID))
  {
    SuccessorIsOldest(m, a);
    if HostDeparts(m, a) {
      DepartedIsNoMember(m, m.hostID);
    } else if a.DoHardLeave? || a.DoFinalize? {
      if a.id != m.hostID {
        DepartureOfAnotherKeepsMember(m, a.id);
      }
    } else {
      OthersKeepHostMember(m, a);
    }
  }

  /** At every final departure of the host in the run, somebody else is connected. */
  ghost predicate AlwaysAnHeir<C>(m: Members<C>, acts: seq<Action<C>>)
    requires ValidRun(m, acts)
    decreases |acts|
  {
    |acts| == 0 ||
    var k := |acts| - 1;
    var mid := Exec(m, acts[..k]);
    && AlwaysAnHeir(m, acts[..k])
    && (mid.joined && HostDeparts(mid, acts[k]) ==> SomeoneElseConnected(mid, mid.hostID))
  }

  /** With an heir at every final departure of the host, the host is always a member. */
  lemma {:induction false} HostIsAlwaysMember<C>(now: int, acts: seq<Action<C>>)
    requires ValidRun(Init<C>(now), acts) && AlwaysAnHeir(Init<C>(now), acts)
    ensures Sound(Exec(Init<C>(now), acts)) && HostIsMember(Exec(Init<C>(now), acts))
    decreases |acts|
  {
    NewRoomIsSound<C>(now);
    MembershipInvariant(Init<C>(now), acts);
    if |acts| > 0 {
      var k := |acts| - 1;
      var mid := Exec(Init<C>(now), acts[..k]);
      MembershipInvariant(Init<C>(now), acts[..k]);
      HostIsAlwaysMember<C>(now, acts[..k]);
      if mid.joined {
        HostStaysMemberIff(mid, acts[k]);
      } else {
        FirstJoinTakesHost(mid, acts[k]);
      }
    }
  }

  lemma FirstJoinTakesHost<C>(m: Members<C>, a: Action<C>)
    requires Sound(m) && !m.joined && m.hostID == "" && Enabled(m, a)
    ensures HostIsMember(Apply(m, a))
  {
  }

  /**
    The condition is needed: a host that says goodbye alone leaves the role with nobody, and
    whoever joins next is not promoted.
   */
  lemma StrandedHost<C>(now: int, alice: C, bob: C)
    ensures
      var alone := Join(Init<C>(now), alice, "a", "", "token-a");
      var gone := HardLeave(alone, "a");
      var next := Join(gone, bob, "b", "", "token-b");
      && Sound(alone) && alone.hostID == "a"
      && next.clients.Keys == {"b"} && next.pending == map[]
      && next.hostID == "a" && !HostIsMember(next)
  {
    NewRoomIsSound<C>(now);
    JoinKeepsSound(Init<C>(now), alice, "a", "", "token-a");
  }
}
