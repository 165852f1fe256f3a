/**
  What every run of a room's membership keeps: the member tables, the resume round trip and
  the succession of hosts.
 */
module MembershipRuns {
  import opened Membership

  /** `tokens` pairs exactly the members' tokens with their IDs, both ways; orders are distinct. */
  predicate Paired(roster: map<string, Place>, tokens: map<string, string>, counter: int) {
    && "" !in tokens
    && (forall id :: id in roster ==> roster[id].token in tokens && tokens[roster[id].token] == id)
    && (forall token :: token in tokens ==> tokens[token] in roster && roster[tokens[token]].token == token)
    && (forall id :: id in roster ==> roster[id].order <= counter)
    && (forall a, b :: a in roster && b in roster && a != b ==> roster[a].order != roster[b].order)
  }

  lemma PairedAdd(roster: map<string, Place>, tokens: map<string, string>, counter: int, id: string, token: string)
    requires Paired(roster, tokens, counter) && id !in roster && token !in tokens && token != ""
    ensures Paired(roster[id := Place(counter + 1, token)], tokens[token := id], counter + 1)
  {
  }

  lemma PairedReorder(roster: map<string, Place>, tokens: map<string, string>, counter: int, id: string)
    requires Paired(roster, tokens, counter) && id in roster
    ensures Paired(roster[id := Place(counter + 1, roster[id].token)], tokens, counter + 1)
  {
  }

  lemma PairedRemove(roster: map<string, Place>, tokens: map<string, string>, counter: int, id: string)
    requires Paired(roster, tokens, counter) && id in roster
    ensures Paired(roster - {id}, tokens - {roster[id].token}, counter)
  {
  }

  lemma RosterPut<C>(clients: map<string, Entry<C>>, pending: map<string, Held>, id: string, e: Entry<C>)
    ensures RosterOf(clients[id := e], pending) == RosterOf(clients, pending)[id := Place(e.order, e.token)]
  {
  }

  lemma RosterHold<C>(clients: map<string, Entry<C>>, pending: map<string, Held>, id: string, h: Held)
    requires id in clients && h.order == clients[id].order && h.token == clients[id].token
    ensures RosterOf(clients - {id}, pending[id := h]) == RosterOf(clients, pending)
  {
  }

  lemma RosterDrop<C>(clients: map<string, Entry<C>>, pending: map<string, Held>, id: string)
    ensures RosterOf(clients - {id}, pending - {id}) == RosterOf(clients, pending) - {id}
  {
  }

  /** No connection stands for two members. */
  ghost predicate ClientsOnce<C>(m: Members<C>) {
    forall a, b :: a in m.clients && b in m.clients && a != b ==> m.clients[a].client != m.clients[b].client
  }

  /** The empty timer of a joined, registered room is armed exactly while nobody is connected. */
  ghost predicate TimerFits<C>(m: Members<C>) {
    && (m.joined && m.registered ==> (m.emptyTimer.Some? <==> m.clients == map[]))
    && (m.emptyTimer.Some? ==> m.clients == map[] && m.emptyTimer.value <= m.now + 120000)
  }

  /** What does not concern tokens and orders. */
  ghost predicate Tables<C>(m: Members<C>) {
    && m.clients.Keys !! m.pending.Keys
    && ClientsOnce(m)
    && TimerFits(m)
    && !IsMember(m, "")
    && (m.joined <==> m.hostID != "")
    && (m.clients != map[] || m.pending != map[] ==> m.joined)
  }

  ghost predicate Sound<C>(m: Members<C>) {
    Tables(m) && Paired(Roster(m), m.tokens, m.seqCounter)
  }

  lemma TokenFindsMember<C>(m: Members<C>, token: string)
    requires Paired(Roster(m), m.tokens, m.seqCounter) && token in m.tokens
    ensures IsMember(m, m.tokens[token]) && Roster(m)[m.tokens[token]].token == token
  {
  }

  lemma MemberHasToken<C>(m: Members<C>, id: string)
    requires Paired(Roster(m), m.tokens, m.seqCounter) && IsMember(m, id)
    ensures id in Roster(m) && Roster(m)[id].token != ""
    ensures Roster(m)[id].token in m.tokens && m.tokens[Roster(m)[id].token] == id
  {
    assert id in Roster(m);
  }

  lemma HeldResumeKeepsRoster<C>(m: Members<C>, client: C, own: string, token: string, minted: string)
    requires m.clients.Keys !! m.pending.Keys && IsResume(m, token)
    requires m.tokens[token] in m.pending && m.pending[m.tokens[token]].token == token
    ensures
      var out := Join(m, client, own, token, minted);
      Roster(out) == Roster(m) && out.tokens == m.tokens && out.seqCounter == m.seqCounter
  {
  }

  lemma ReplaceRoster<C>(m: Members<C>, client: C, own: string, token: string, minted: string)
    requires IsResume(m, token) && m.tokens[token] !in m.pending
    ensures
      var out := Join(m, client, own, token, minted);
      && Roster(out) == Roster(m)[m.tokens[token] := Place(m.seqCounter + 1, token)]
      && out.tokens == m.tokens && out.seqCounter == m.seqCounter + 1
  {
    RosterPut(m.clients, m.pending, m.tokens[token], Entry(client, m.seqCounter + 1, token));
  }

  lemma ReplaceKeepsPaired<C>(m: Members<C>, client: C, own: string, token: string, minted: string)
    requires Paired(Roster(m), m.tokens, m.seqCounter) && IsResume(m, token)
    requires m.tokens[token] !in m.pending
    ensures var out := Join(m, client, own, token, minted); Paired(Roster(out), out.tokens, out.seqCounter)
  {
    ReplaceRoster(m, client, own, token, minted);
    TokenFindsMember(m, token);
    PairedReorder(Roster(m), m.tokens, m.seqCounter, m.tokens[token]);
  }

  lemma ResumeKeepsPaired<C>(m: Members<C>, client: C, own: string, token: string, minted: string)
    requires Paired(Roster(m), m.tokens, m.seqCounter) && m.clients.Keys !! m.pending.Keys && IsResume(m, token)
    ensures var out := Join(m, client, own, token, minted); Paired(Roster(out), out.tokens, out.seqCounter)
  {
    TokenFindsMember(m, token);
    if m.tokens[token] in m.pending {
      HeldResumeKeepsRoster(m, client, own, token, minted);
    } else {
      ReplaceKeepsPaired(m, client, own, token, minted);
    }
  }

  lemma FreshJoinRoster<C>(m: Members<C>, client: C, own: string, token: string, minted: string)
    requires !IsResume(m, token)
    ensures
      var out := Join(m, client, own, token, minted);
      && Roster(out) == Roster(m)[own := Place(m.seqCounter + 1, minted)]
      && out.tokens == m.tokens[minted := own] && out.seqCounter == m.seqCounter + 1
  {
    RosterPut(m.clients, m.pending, own, Entry(client, m.seqCounter + 1, minted));
  }

  lemma FreshJoinKeepsPaired<C>(m: Members<C>, client: C, own: string, token: string, minted: string)
    requires Paired(Roster(m), m.tokens, m.seqCounter) && !IsResume(m, token)
    requires !IsMember(m, own) && minted !in m.tokens && minted != ""
    ensures var out := Join(m, client, own, token, minted); Paired(Roster(out), out.tokens, out.seqCounter)
  {
    assert Paired(Roster(m)[own := Place(m.seqCounter + 1, minted)], m.tokens[minted := own], m.seqCounter + 1) by {
      assert own !in Roster(m);
      PairedAdd(Roster(m), m.tokens, m.seqCounter, own, minted);
    }
    FreshJoinRoster(m, client, own, token, minted);
  }

  /**
    A fresh join keeps the tables sound exactly when nobody has its ID yet: otherwise the token
    of the member it replaces stays behind, naming a member that has another.
   */
  lemma FreshJoinSoundIff<C>(m: Members<C>, client: C, own: string, token: string, minted: string)
    requires Sound(m) && !IsResume(m, token) && Detached(m, client)
    requires own != "" && minted !in m.tokens && minted != ""
    ensures Sound(Join(m, client, own, token, minted)) <==> !IsMember(m, own)
  {
    if IsMember(m, own) {
      MemberHasToken(m, own);
      FreshJoinRoster(m, client, own, token, minted);
      var out := Join(m, client, own, token, minted);
      assert Roster(out)[own].token == minted && Roster(m)[own].token in out.tokens;
    } else {
      JoinKeepsSound(m, client, own, token, minted);
    }
  }

  /** Bob resumes with alice's token: both connections now carry her ID. */
  lemma ResumeSharesId<C>(now: int, alice: C, bob: C)
    requires alice != bob
    ensures
      var shared := Join(Join(Init<C>(now), alice, "a", "", "t1"), bob, "b", "t1", "");
      && Sound(shared) && shared.pending == map[] && shared.tokens == map["t1" := "a"]
      && shared.clients == map["a" := Entry(bob, 2, "t1")]
  {
    NewRoomIsSound<C>(now);
    var first := Join(Init<C>(now), alice, "a", "", "t1");
    JoinKeepsSound(Init<C>(now), alice, "a", "", "t1");
    assert first.clients == map["a" := Entry(alice, 1, "t1")] && first.pending == map[];
    JoinKeepsSound(first, bob, "b", "t1", "");
  }

  /** A goodbye from either empties the room, and one from the other adds nothing. */
  lemma GoodbyesEmpty<C>(m: Members<C>, e: Entry<C>)
    requires Sound(m) && m.pending == map[] && m.clients == map["a" := e] && m.tokens == map[e.token := "a"]
    ensures
      var gone := HardLeave(HardLeave(m, "a"), "a");
      Sound(gone) && gone.clients == map[] && gone.pending == map[] && gone.tokens == map[]
  {
    StepKeepsSound(m, DoHardLeave("a"));
    StepKeepsSound(HardLeave(m, "a"), DoHardLeave("a"));
  }

  /**
    Two connections can come to share an ID: bob resumes with alice's token, both say goodbye and
    both join again under the ID they were left with. Then one member has two tokens.
   */
  lemma SharedIdBreaksTables<C>(now: int, alice: C, bob: C)
    requires alice != bob
    ensures
      var shared := Join(Join(Init<C>(now), alice, "a", "", "t1"), bob, "b", "t1", "");
      var one := Join(HardLeave(HardLeave(shared, "a"), "a"), alice, "a", "", "t2");
      Sound(shared) && Sound(one) && !Sound(Join(one, bob, "a", "", "t3"))
  {
    ResumeSharesId<C>(now, alice, bob);
    var shared := Join(Join(Init<C>(now), alice, "a", "", "t1"), bob, "b", "t1", "");
    GoodbyesEmpty(shared, Entry(bob, 2, "t1"));
    var empty := HardLeave(HardLeave(shared, "a"), "a");
    FreshJoinSoundIff(empty, alice, "a", "", "t2");
    FreshJoinSoundIff(Join(empty, alice, "a", "", "t2"), bob, "a", "", "t3");
  }

  /** The connection stands for no member. */
  ghost predicate Detached<C>(m: Members<C>, client: C) {
    forall id :: id in m.clients ==> m.clients[id].client != client
  }

  lemma JoinKeepsTables<C>(m: Members<C>, client: C, own: string, token: string, minted: string)
    requires Tables(m) && Enabled(m, DoJoin(client, own, token, minted))
    requires IsResume(m, token) ==> IsMember(m, m.tokens[token])
    ensures Tables(Join(m, client, own, token, minted))
  {
  }

  lemma JoinKeepsSound<C>(m: Members<C>, client: C, own: string, token: string, minted: string)
    requires Sound(m) && Enabled(m, DoJoin(client, own, token, minted))
    ensures Sound(Join(m, client, own, token, minted))
  {
    if IsResume(m, token) {
      TokenFindsMember(m, token);
      ResumeKeepsPaired(m, client, own, token, minted);
    } else {
      FreshJoinKeepsPaired(m, client, own, token, minted);
    }
    JoinKeepsTables(m, client, own, token, minted);
  }

  /** A drop moves a member from connected to held: same roster, same tokens, same host. */
  lemma LeaveKeepsRoster<C>(m: Members<C>, client: C, id: string)
    requires id in m.clients ==> m.clients[id].token != ""
    ensures
      var out := Leave(m, client, id);
      Roster(out) == Roster(m) && out.tokens == m.tokens && out.hostID == m.hostID && out.seqCounter == m.seqCounter
  {
    if id in m.clients && m.clients[id].client == client {
      var e := m.clients[id];
      DropHolds(m, client, id);
      RosterHold(m.clients, m.pending, id, Held(e.order, e.token, m.now + RESUME_TTL_MS));
    }
  }

  lemma DropHolds<C>(m: Members<C>, client: C, id: string)
    requires id in m.clients && m.clients[id].token != "" && m.clients[id].client == client
    ensures
      var e, out := m.clients[id], Leave(m, client, id);
      && out.clients == m.clients - {id}
      && out.pending == m.pending[id := Held(e.order, e.token, m.now + RESUME_TTL_MS)]
      && out.tokens == m.tokens && out.hostID == m.hostID && out.seqCounter == m.seqCounter
  {
  }

  lemma LeaveKeepsTables<C>(m: Members<C>, client: C, id: string)
    requires Tables(m) && (id in m.clients ==> m.clients[id].token != "")
    ensures Tables(Leave(m, client, id))
  {
  }

  lemma LeaveKeepsSound<C>(m: Members<C>, client: C, id: string)
    requires Sound(m)
    ensures Sound(Leave(m, client, id)) && Roster(Leave(m, client, id)) == Roster(m)
    ensures Leave(m, client, id).hostID == m.hostID
  {
    if id in m.clients {
      MemberHasToken(m, id);
    }
    LeaveKeepsRoster(m, client, id);
    LeaveKeepsTables(m, client, id);
  }

  lemma DepartureKeepsTables<C>(m: Members<C>, id: string)
    requires Tables(m)
    ensures Tables(HardLeave(m, id)) && Tables(FinalizeLeave(m, id))
  {
  }

  lemma HardLeaveRoster<C>(m: Members<C>, id: string)
    ensures Roster(HardLeave(m, id)) == Roster(m) - {id}
  {
    RosterDrop(m.clients, m.pending, id);
    var out := HardLeave(m, id);
    assert out.clients == m.clients - {id} && out.pending == m.pending - {id};
  }

  lemma HardLeaveTokens<C>(m: Members<C>, id: string)
    requires m.clients.Keys !! m.pending.Keys
    ensures HardLeave(m, id).seqCounter == m.seqCounter
    ensures HardLeave(m, id).tokens == if IsMember(m, id) then m.tokens - {Roster(m)[id].token} else m.tokens
  {
  }

  /** Whoever leaves for good leaves the roster with its token, and nobody else does. */
  lemma HardLeaveKeepsPaired<C>(m: Members<C>, id: string)
    requires Paired(Roster(m), m.tokens, m.seqCounter) && m.clients.Keys !! m.pending.Keys
    ensures var out := HardLeave(m, id); Paired(Roster(out), out.tokens, out.seqCounter)
    ensures Roster(HardLeave(m, id)) == Roster(m) - {id}
  {
    HardLeaveRoster(m, id);
    HardLeaveTokens(m, id);
    if IsMember(m, id) {
      PairedRemove(Roster(m), m.tokens, m.seqCounter, id);
    } else {
      assert Roster(m) - {id} == Roster(m);
    }
  }

  lemma FinalizeRoster<C>(m: Members<C>, id: string)
    requires m.clients.Keys !! m.pending.Keys && id in m.pending
    ensures Roster(FinalizeLeave(m, id)) == Roster(m) - {id}
    ensures FinalizeLeave(m, id).seqCounter == m.seqCounter
    ensures FinalizeLeave(m, id).tokens == m.tokens - {Roster(m)[id].token}
  {
    assert m.clients - {id} == m.clients;
    RosterDrop(m.clients, m.pending, id);
    var out := FinalizeLeave(m, id);
    assert out.clients == m.clients && out.pending == m.pending - {id};
  }

  lemma FinalizeKeepsPaired<C>(m: Members<C>, id: string)
    requires Paired(Roster(m), m.tokens, m.seqCounter) && m.clients.Keys !! m.pending.Keys
    ensures var out := FinalizeLeave(m, id); Paired(Roster(out), out.tokens, out.seqCounter)
    ensures Roster(FinalizeLeave(m, id)) == if id in m.pending then Roster(m) - {id} else Roster(m)
  {
    if id in m.pending {
      FinalizeRoster(m, id);
      PairedRemove(Roster(m), m.tokens, m.seqCounter, id);
    }
  }

  lemma StepKeepsSound<C>(m: Members<C>, a: Action<C>)
    requires Sound(m) && Enabled(m, a)
    ensures Sound(Apply(m, a))
  {
    match a
    case Tick(_) => assert Roster(Apply(m, a)) == Roster(m);
    case DoJoin(client, own, token, minted) => JoinKeepsSound(m, client, own, token, minted);
    case DoLeave(client, id) => LeaveKeepsSound(m, client, id);
    case DoHardLeave(id) =>
      HardLeaveKeepsPaired(m, id);
      DepartureKeepsTables(m, id);
    case DoFinalize(id) =>
      FinalizeKeepsPaired(m, id);
      DepartureKeepsTables(m, id);
    case DoEmptyTimer => assert Roster(Apply(m, a)) == Roster(m);
  }

  /**
    In every reachable state connected and held members are disjoint, `tokens` pairs exactly
    their tokens with their IDs, their orders are distinct and at most the counter, and the
    empty timer of a joined, registered room is armed exactly while nobody is connected.
   */
  lemma {:induction false} MembershipInvariant<C>(m: Members<C>, acts: seq<Action<C>>)
    requires Sound(m) && ValidRun(m, acts)
    ensures Sound(Exec(m, acts))
    decreases |acts|
  {
    if |acts| > 0 {
      var k := |acts| - 1;
      MembershipInvariant(m, acts[..k]);
      StepKeepsSound(Exec(m, acts[..k]), acts[k]);
    }
  }

  lemma NewRoomIsSound<C>(now: int)
    ensures Sound(Init<C>(now))
  {
  }
}
