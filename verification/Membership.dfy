/**
  Membership of one room: who is connected, whose place is held for a resume, the resume
  tokens, the host and the timer of an empty room. A connected client is compared by the
  identity of its connection, of the type `C`.
 */
module Membership {
  import opened Options

  const RESUME_TTL_MS := 60000
  const EMPTY_ROOM_TTL_MS := 120000

  datatype Entry<C> = Entry(client: C, order: int, token: string)

  /** The place of a dropped member; its timer is due at `deadline`. */
  datatype Held = Held(order: int, token: string, deadline: int)

  /** `joined` and `registered` record that somebody joined and that the room was not removed. */
  datatype Members<C> = Members(
    now: int,
    clients: map<string, Entry<C>>,
    pending: map<string, Held>,
    tokens: map<string, string>,
    hostID: string,
    seqCounter: int,
    emptyTimer: Option<int>,
    joined: bool,
    registered: bool)

  function Init<C>(now: int): Members<C> {
    Members(now, map[], map[], map[], "", 0, None, false, true)
  }

  predicate IsMember<C>(m: Members<C>, id: string) {
    id in m.clients || id in m.pending
  }

  /** What a member keeps whether connected or held. */
  datatype Place = Place(order: int, token: string)

  ghost function RosterOf<C>(clients: map<string, Entry<C>>, pending: map<string, Held>): map<string, Place> {
    map id | id in clients.Keys + pending.Keys ::
      if id in clients then Place(clients[id].order, clients[id].token)
      else Place(pending[id].order, pending[id].token)
  }

  ghost function Roster<C>(m: Members<C>): map<string, Place> {
    RosterOf(m.clients, m.pending)
  }

  predicate IsOldest<C>(clients: map<string, Entry<C>>, id: string) {
    id in clients && forall other :: other in clients ==> clients[id].order <= clients[other].order
  }

  lemma OldestExists<C>(clients: map<string, Entry<C>>)
    requires clients != map[]
    ensures exists id :: IsOldest(clients, id)
    decreases |clients|
  {
    var id :| id in clients;
    var rest := clients - {id};
    assert forall other :: other in clients ==> other == id || other in rest;
    if rest == map[] {
      assert IsOldest(clients, id);
    } else {
      OldestExists(rest);
      var oldest :| IsOldest(rest, oldest);
      assert IsOldest(clients, if clients[oldest].order <= clients[id].order then oldest else id);
    }
  }

  /** A connected client of least order; unique when orders differ. */
  ghost function Oldest<C>(clients: map<string, Entry<C>>): (id: string)
    requires clients != map[]
    ensures IsOldest(clients, id)
  {
    OldestExists(clients);
    var id :| IsOldest(clients, id);
    id
  }

  ghost function PromoteIfHostGone<C>(m: Members<C>, id: string): Members<C> {
    if m.hostID != id || m.clients == map[] then m else m.(hostID := Oldest(m.clients))
  }

  function ScheduleEmptyTimer<C>(m: Members<C>, empty: bool): Members<C> {
    if !empty then m.(emptyTimer := None)
    else if m.emptyTimer.Some? then m
    else m.(emptyTimer := Some(m.now + EMPTY_ROOM_TTL_MS))
  }

  /** Files a connected client under its ID; the first ID a room sees becomes host. */
  function Admit<C>(m: Members<C>, id: string, e: Entry<C>): Members<C> {
    m.(clients := m.clients[id := e], hostID := if m.hostID == "" then id else m.hostID)
  }

  /** A resumed member takes its held place, or a new one when it is still connected. */
  function Seated<C>(m: Members<C>, id: string): Members<C> {
    if id in m.pending then m.(pending := m.pending - {id}) else m.(seqCounter := m.seqCounter + 1)
  }

  function SeatOf<C>(m: Members<C>, id: string): int {
    if id in m.pending then m.pending[id].order else m.seqCounter + 1
  }

  /** A known token resumes its member; any other join is fresh and gets `freshToken`. */
  function Join<C>(m: Members<C>, client: C, ownID: string, resumeToken: string, freshToken: string): Members<C> {
    var m := m.(emptyTimer := None, joined := true);
    if resumeToken != "" && resumeToken in m.tokens then
      var id := m.tokens[resumeToken];
      Admit(Seated(m, id), id, Entry(client, SeatOf(m, id), resumeToken))
    else
      Admit(m.(seqCounter := m.seqCounter + 1, tokens := m.tokens[freshToken := ownID]),
            ownID, Entry(client, m.seqCounter + 1, freshToken))
  }

  /** The end of every final departure: succession, then the empty timer. */
  ghost function Settle<C>(m: Members<C>, id: string): Members<C> {
    ScheduleEmptyTimer(PromoteIfHostGone(m, id), m.clients == map[])
  }

  ghost function Leave<C>(m: Members<C>, client: C, id: string): Members<C> {
    if id !in m.clients || m.clients[id].client != client then m
    else
      var e := m.clients[id];
      var out := m.(clients := m.clients - {id});
      if e.token != "" then
        ScheduleEmptyTimer(out.(pending := out.pending[id := Held(e.order, e.token, m.now + RESUME_TTL_MS)]),
                           out.clients == map[])
      else
        Settle(out, id)
  }

  /** Takes every trace of the ID out of the tables. */
  function Forget<C>(m: Members<C>, id: string): Members<C> {
    var tokens := if id in m.clients then m.tokens - {m.clients[id].token} else m.tokens;
    m.(clients := m.clients - {id},
       pending := m.pending - {id},
       tokens := if id in m.pending then tokens - {m.pending[id].token} else tokens)
  }

  ghost function HardLeave<C>(m: Members<C>, id: string): Members<C> {
    Settle(Forget(m, id), id)
  }

  ghost function FinalizeLeave<C>(m: Members<C>, id: string): Members<C> {
    if id !in m.pending then m
    else Settle(m.(pending := m.pending - {id}, tokens := m.tokens - {m.pending[id].token}), id)
  }

  /** The callback of the empty timer: a registered room that still has no client is removed. */
  function EmptyTimerFires<C>(m: Members<C>): Members<C> {
    if m.clients == map[] && m.registered then m.(emptyTimer := None, registered := false) else m
  }

  datatype Action<C> =
    | Tick(elapsed: nat)
    | DoJoin(client: C, ownID: string, resumeToken: string, freshToken: string)
    | DoLeave(client: C, id: string)
    | DoHardLeave(id: string)
    | DoFinalize(id: string)
    | DoEmptyTimer

  predicate IsResume<C>(m: Members<C>, resumeToken: string) {
    resumeToken != "" && resumeToken in m.tokens
  }

  /**
    A client connects once at a time. A fresh join brings an ID no member has and draws a token
    never seen. A finalize callback may come at any time, however old its timer.
   */
  ghost predicate Enabled<C>(m: Members<C>, a: Action<C>) {
    match a
    case DoJoin(client, ownID, resumeToken, freshToken) =>
      && (forall id :: id in m.clients ==> m.clients[id].client != client)
      && (!IsResume(m, resumeToken) ==>
            !IsMember(m, ownID) && ownID != "" && freshToken !in m.tokens && freshToken != "")
    case DoEmptyTimer => m.emptyTimer.Some? && m.emptyTimer.value <= m.now
    case _ => true
  }

  ghost function Apply<C>(m: Members<C>, a: Action<C>): Members<C>
    requires Enabled(m, a)
  {
    match a
    case Tick(elapsed) => m.(now := m.now + elapsed)
    case DoJoin(client, ownID, resumeToken, freshToken) => Join(m, client, ownID, resumeToken, freshToken)
    case DoLeave(client, id) => Leave(m, client, id)
    case DoHardLeave(id) => HardLeave(m, id)
    case DoFinalize(id) => FinalizeLeave(m, id)
    case DoEmptyTimer => EmptyTimerFires(m)
  }

  ghost predicate ValidRun<C>(m: Members<C>, acts: seq<Action<C>>)
    decreases |acts|, 0
  {
    |acts| == 0 ||
    var k := |acts| - 1;
    ValidRun(m, acts[..k]) && Enabled(Exec(m, acts[..k]), acts[k])
  }

  ghost function Exec<C>(m: Members<C>, acts: seq<Action<C>>): Members<C>
    requires ValidRun(m, acts)
    decreases |acts|, 1
  {
    if |acts| == 0 then m
    else Apply(Exec(m, acts[..|acts| - 1]), acts[|acts| - 1])
  }
}
