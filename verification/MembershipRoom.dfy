/**
  The room object's membership: its tables are updated in place under the room's lock, and a
  client is a connection object that a join fills in.
 */
module MembershipRoom {
  import opened Options
  import M = Membership
  import opened MembershipRuns

  class Client {
    var id: string
    var order: int
    var token: string

    constructor (id: string)
      ensures this.id == id && order == 0 && token == ""
    {
      this.id, order, token := id, 0, "";
    }

    ghost function Entry(): M.Entry<Client>
      reads this
    {
      M.Entry(this, order, token)
    }
  }

  class Room {
    var now: int
    var clients: map<string, Client>
    var pending: map<string, M.Held>
    var tokens: map<string, string>
    var hostID: string
    var seqCounter: int
    var emptyTimer: Option<int>
    ghost var entries: map<string, M.Entry<Client>>
    ghost var joined: bool
    var registered: bool

    ghost function State(): M.Members<Client>
      reads this
    {
      M.Members(now, entries, pending, tokens, hostID, seqCounter, emptyTimer, joined, registered)
    }

    /** Every connection is filed under its own ID, and `entries` is what the connections hold. */
    ghost predicate Valid()
      reads `clients, `entries, clients.Values
    {
      && entries.Keys == clients.Keys
      && (forall id :: id in clients ==> clients[id].id == id && entries[id] == clients[id].Entry())
    }

    ghost predicate OrdersDiffer()
      reads `entries
    {
      forall a, b :: a in entries && b in entries && a != b ==> entries[a].order != entries[b].order
    }

    /** The orders of a sound room's clients differ, as the departures below rely on. */
    lemma SoundOrdersDiffer()
      requires Sound(State())
      ensures OrdersDiffer()
    {
      forall a, b | a in entries && b in entries && a != b ensures entries[a].order != entries[b].order {
        assert a in M.Roster(State()) && b in M.Roster(State());
      }
    }

    constructor (now: int)
      ensures Valid() && State() == M.Init(now)
    {
      this.now, clients, pending, tokens, hostID := now, map[], map[], map[], "";
      seqCounter, emptyTimer, joined, registered, entries := 0, None, false, true, map[];
    }

    method StopEmptyTimer()
      modifies `emptyTimer
      ensures emptyTimer == None
    {
      emptyTimer := None;
    }

    method ScheduleEmptyTimer(empty: bool)
      modifies `emptyTimer
      ensures State() == M.ScheduleEmptyTimer(old(State()), empty)
    {
      if !empty {
        StopEmptyTimer();
        return;
      }
      if emptyTimer.Some? {
        return;
      }
      emptyTimer := Some(now + M.EMPTY_ROOM_TTL_MS);
    }

    /** The scan may visit the clients in any order: distinct orders make its result unique. */
    method PromoteIfHostGone(clientID: string)
      requires Valid() && OrdersDiffer()
      modifies `hostID
      ensures State() == M.PromoteIfHostGone(old(State()), clientID)
    {
      if hostID != clientID {
        return;
      }
      var oldest: Client? := null;
      var left := clients.Keys;
      while left != {}
        invariant left <= clients.Keys
        invariant oldest == null <==> left == clients.Keys
        invariant oldest != null ==> oldest.id in clients && clients[oldest.id] == oldest
        invariant oldest != null ==> forall id :: id in clients && id !in left ==> oldest.order <= clients[id].order
      {
        var id :| id in left;
        if oldest == null || clients[id].order < oldest.order {
          oldest := clients[id];
        }
        left := left - {id};
      }
      if oldest != null {
        assert oldest.id in entries;
        assert M.IsOldest(entries, oldest.id);
        hostID := oldest.id;
      }
    }

    method Admit(c: Client)
      requires Valid()
      modifies `clients, `hostID, `entries
      ensures Valid() && c.id in clients && clients[c.id] == c
      ensures State() == M.Admit(old(State()), c.id, c.Entry())
    {
      clients := clients[c.id := c];
      entries := entries[c.id := c.Entry()];
      if hostID == "" {
        hostID := c.id;
      }
    }

    /** The join of a connection whose token names a member. */
    method Resume(c: Client, token: string)
      requires Valid() && c !in clients.Values && token != "" && token in tokens
      modifies this, c
      ensures Valid() && c.id in clients && clients[c.id] == c
      ensures State() == M.Join(old(State()), c, old(c.id), token, "")
    {
      StopEmptyTimer();
      joined := true;
      Reseat(c, token);
      Admit(c);
    }

    /** The connection takes on the ID, token and place of the member it resumes. */
    method Reseat(c: Client, token: string)
      requires Valid() && c !in clients.Values && token in tokens
      modifies `pending, `seqCounter, c
      ensures Valid() && c.id == tokens[token] && c.token == token
      ensures State() == M.Seated(old(State()), c.id) && c.order == M.SeatOf(old(State()), c.id)
    {
      c.id := tokens[token];
      c.token := token;
      if c.id in pending {
        c.order := pending[c.id].order;
        pending := pending - {c.id};
      } else {
        seqCounter := seqCounter + 1;
        c.order := seqCounter;
      }
    }

    /** The join of a connection that is nobody's yet. */
    method Enter(c: Client, freshToken: string)
      requires Valid() && c !in clients.Values
      modifies this, c
      ensures Valid() && c.id in clients && clients[c.id] == c
      ensures State() == M.Join(old(State()), c, old(c.id), "", freshToken)
    {
      StopEmptyTimer();
      joined := true;
      seqCounter := seqCounter + 1;
      c.order := seqCounter;
      c.token := freshToken;
      tokens := tokens[c.token := c.id];
      Admit(c);
    }

    method Join(c: Client, resumeToken: string, freshToken: string)
      requires Valid() && c !in clients.Values
      modifies this, c
      ensures Valid() && c.id in clients && clients[c.id] == c
      ensures State() == M.Join(old(State()), c, old(c.id), resumeToken, freshToken)
    {
      if resumeToken != "" && resumeToken in tokens {
        Resume(c, resumeToken);
      } else {
        Enter(c, freshToken);
      }
    }

    /** The end of every final departure: succession, then the empty timer. */
    method Settle(clientID: string)
      requires Valid() && OrdersDiffer()
      modifies `hostID, `emptyTimer
      ensures State() == M.Settle(old(State()), clientID)
    {
      PromoteIfHostGone(clientID);
      assert clients.Keys == {} <==> entries.Keys == {};
      ScheduleEmptyTimer(clients == map[]);
    }

    /** Drops the client filed under this ID. */
    method Disconnect(clientID: string)
      requires Valid()
      modifies `clients, `entries
      ensures Valid() && clients == old(clients) - {clientID}
      ensures entries == old(entries) - {clientID}
    {
      clients := clients - {clientID};
      entries := entries - {clientID};
    }

    /** Keeps the place of a client that just disconnected. */
    method Hold(c: Client)
      requires Valid()
      modifies `pending, `emptyTimer
      ensures State() == M.ScheduleEmptyTimer(
                           old(State()).(pending := old(pending)[c.id := M.Held(c.order, c.token, now + M.RESUME_TTL_MS)]),
                           entries == map[])
    {
      pending := pending[c.id := M.Held(c.order, c.token, now + M.RESUME_TTL_MS)];
      assert clients.Keys == {} <==> entries.Keys == {};
      ScheduleEmptyTimer(clients == map[]);
    }

    method Leave(c: Client)
      requires Valid() && OrdersDiffer()
      modifies this
      ensures Valid()
      ensures State() == M.Leave(old(State()), c, c.id)
    {
      if c.id !in clients || clients[c.id] != c {
        return;
      }
      if c.token != "" {
        DropHeld(c);
      } else {
        DropForGood(c);
      }
    }

    method DropHeld(c: Client)
      requires Valid() && c.id in clients && clients[c.id] == c && c.token != ""
      modifies `clients, `entries, `pending, `emptyTimer
      ensures Valid()
      ensures State() == M.Leave(old(State()), c, c.id)
    {
      Disconnect(c.id);
      Hold(c);
    }

    method DropForGood(c: Client)
      requires Valid() && OrdersDiffer() && c.id in clients && clients[c.id] == c && c.token == ""
      modifies `clients, `entries, `emptyTimer, `hostID
      ensures Valid()
      ensures State() == M.Leave(old(State()), c, c.id)
    {
      Disconnect(c.id);
      Settle(c.id);
    }

    method Forget(clientID: string)
      requires Valid()
      modifies `clients, `entries, `pending, `tokens
      ensures Valid()
      ensures State() == M.Forget(old(State()), clientID)
    {
      if clientID in clients {
        tokens := tokens - {clients[clientID].token};
      }
      if clientID in pending {
        tokens := tokens - {pending[clientID].token};
      }
      pending := pending - {clientID};
      Disconnect(clientID);
    }

    method HardLeave(clientID: string)
      requires Valid() && OrdersDiffer()
      modifies this
      ensures Valid()
      ensures State() == M.HardLeave(old(State()), clientID)
    {
      Forget(clientID);
      Settle(clientID);
    }

    method FinalizeLeave(clientID: string)
      requires Valid() && OrdersDiffer()
      modifies this
      ensures Valid()
      ensures State() == M.FinalizeLeave(old(State()), clientID)
    {
      if clientID !in pending {
        return;
      }
      var p := pending[clientID];
      pending := pending - {clientID};
      tokens := tokens - {p.token};
      Settle(clientID);
    }

    /** The empty timer's callback, with the room's removal from the registry. */
    method EmptyTimerFires()
      requires Valid()
      modifies `emptyTimer, `registered
      ensures State() == M.EmptyTimerFires(old(State()))
    {
      assert clients.Keys == {} <==> entries.Keys == {};
      if clients == map[] && registered {
        StopEmptyTimer();
        registered := false;
      }
    }
  }
}
