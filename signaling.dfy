/**
  The signaling relay of server/index.js: a socket.io server that keeps two
  identity maps (email to socket id and back), lets connections join named
  rooms, and forwards the WebRTC handshake events of a fixed vocabulary to
  the connection or room they name.

  The state is a value (`State`) with a transition function per inbound
  event; the class `Relay` holds the same state in mutable fields and has
  one method per socket event, each proved to perform exactly that
  transition. Outbound traffic is an outbox: one `Emission` per
  `io.to(name).emit(...)`, carrying the set of connections it reaches.
*/
module SignalingServer {

  type ConnId = string    // socket.id, assigned by socket.io
  type Email = string
  type RoomName = string
  type Payload = string      // an opaque JSON payload the relay never inspects

  /** The payload of `room:join`. */
  datatype JoinData = JoinData(email: Email, room: RoomName)

  /** The six events a client may send. */
  datatype InEvent =
    | RoomJoin(data: JoinData)
    | UserCall(toUser: ConnId, offer: Payload)
    | CallAccepted(to: ConnId, ans: Payload)
    | PeerCandidate(candidate: Payload, to: ConnId)
    | PeerNegotiation(to: ConnId, offer: Payload)
    | PeerNegoDone(to: ConnId, ans: Payload)

  /** The events the relay emits, with exactly the fields the server sends. */
  datatype OutEvent =
    | UserJoined(email: Email, id: ConnId)               // "user:joined"
    | RoomJoinEcho(data: JoinData)                       // "room:join"
    | IncomingCall(from: ConnId, offer: Payload)            // "incoming:call"
    | CallAcceptedFwd(from: ConnId, ans: Payload)           // "call:accepted"
    | PeerCandidateFwd(candidate: Payload)                  // "peer:candidate"
    | PeerNegotiationFwd(from: ConnId, offer: Payload)      // "peer:negotiation"
    | PeerNegoFinal(from: ConnId, ans: Payload)             // "peer:nego:final"

  /** One `io.to(name).emit(event)`: the event reaches every connection in `to`. */
  datatype Emission = Emission(to: set<ConnId>, event: OutEvent)

  /** One inbound event together with the connection that sent it. */
  datatype Inbound = Inbound(sender: ConnId, event: InEvent)

  datatype State = State(
    emailToSocketId: map<Email, ConnId>,
    socketIdToEmail: map<ConnId, Email>,
    rooms: map<RoomName, set<ConnId>>,   // rooms entered with socket.join
    connected: set<ConnId>,              // every socket accepted so far (disconnects are not modelled)
    outbox: seq<Emission>)

  /** The server as it starts: both maps empty, no socket accepted. */
  const Initial := State(map[], map[], map[], {}, [])

  /** The connections that joined room `room` (none if nobody ever did). */
  function Members(st: State, room: RoomName): set<ConnId>
  {
    if room in st.rooms then st.rooms[room] else {}
  }

  /**
    Who `io.to(name)` reaches: the members of the room called `name`, and
    the accepted connection whose id is `name` (every socket sits in the room
    named by its own id). An id no socket was ever given reaches nobody.
  */
  function Recipients(st: State, name: string): (r: set<ConnId>)
    ensures Members(st, name) <= r
    ensures name in st.connected ==> name in r
    ensures forall c :: c in r && c !in Members(st, name) ==> c == name && c in st.connected
  {
    Members(st, name) + (if name in st.connected then {name} else {})
  }

  function Emit(st: State, name: string, ev: OutEvent): State
  {
    st.(outbox := st.outbox + [Emission(Recipients(st, name), ev)])
  }

  /** A new socket connects (socket.io chooses its id); nothing else changes. */
  function AddConnection(st: State, id: ConnId): (r: State)
    ensures id in r.connected && r.connected - {id} == st.connected - {id}
    ensures r.(connected := st.connected) == st
  {
    st.(connected := st.connected + {id})
  }

  /**
    `room:join`: record the identity, announce, join, echo. The lemmas
    JoinRecordsIdentity, JoinEmits and JoinEntersRoom state it in full.
  */
  function Join(st: State, sender: ConnId, data: JoinData): (r: State)
    ensures data.email in r.emailToSocketId && r.emailToSocketId[data.email] == sender
    ensures sender in r.socketIdToEmail && r.socketIdToEmail[sender] == data.email
    ensures sender in Members(r, data.room)
    ensures r.connected == st.connected
    ensures |r.outbox| == |st.outbox| + 2 && r.outbox[..|st.outbox|] == st.outbox
  {
    var named := st.(emailToSocketId := st.emailToSocketId[data.email := sender],
                     socketIdToEmail := st.socketIdToEmail[sender := data.email]);
    var announced := Emit(named, data.room, UserJoined(data.email, sender));
    var joined := announced.(rooms := announced.rooms[data.room := Members(announced, data.room) + {sender}]);
    Emit(joined, sender, RoomJoinEcho(data))
  }

  /** The routing field of a point-to-point event: `toUser` for `user:call`, `to` for the other four. */
  function Target(ev: InEvent): (t: ConnId)
    requires !ev.RoomJoin?
    ensures ev.UserCall? ==> t == ev.toUser
    ensures !ev.UserCall? ==> t == ev.to
  {
    match ev
    case UserCall(toUser, _) => toUser
    case CallAccepted(to, _) => to
    case PeerCandidate(_, to) => to
    case PeerNegotiation(to, _) => to
    case PeerNegoDone(to, _) => to
  }

  /**
    The event a point-to-point event is forwarded as: each inbound kind has
    its own outbound kind, every one but `peer:candidate` names the sender,
    and the payload is passed on untouched.
  */
  function Relayed(sender: ConnId, ev: InEvent): (out: OutEvent)
    requires !ev.RoomJoin?
    ensures out.IncomingCall? <==> ev.UserCall?
    ensures out.CallAcceptedFwd? <==> ev.CallAccepted?
    ensures out.PeerCandidateFwd? <==> ev.PeerCandidate?
    ensures out.PeerNegotiationFwd? <==> ev.PeerNegotiation?
    ensures out.PeerNegoFinal? <==> ev.PeerNegoDone?
    ensures !out.PeerCandidateFwd? ==> out.from == sender
    ensures (ev.UserCall? || ev.PeerNegotiation?) ==> out.offer == ev.offer
    ensures (ev.CallAccepted? || ev.PeerNegoDone?) ==> out.ans == ev.ans
    ensures ev.PeerCandidate? ==> out.candidate == ev.candidate
  {
    match ev
    case UserCall(_, offer) => IncomingCall(sender, offer)
    case CallAccepted(_, ans) => CallAcceptedFwd(sender, ans)
    case PeerCandidate(candidate, _) => PeerCandidateFwd(candidate)
    case PeerNegotiation(_, offer) => PeerNegotiationFwd(sender, offer)
    case PeerNegoDone(_, ans) => PeerNegoFinal(sender, ans)
  }

  /**
    The handler table registered on each connection. Every event emits at
    least once and leaves the set of accepted sockets alone.
  */
  function Handle(st: State, sender: ConnId, ev: InEvent): (r: State)
    ensures r.connected == st.connected
    ensures |r.outbox| > |st.outbox| && r.outbox[..|st.outbox|] == st.outbox
  {
    if ev.RoomJoin? then Join(st, sender, ev.data)
    else Emit(st, Target(ev), Relayed(sender, ev))
  }

  /** Inbound events handled one at a time, in arrival order. */
  function Run(st: State, events: seq<Inbound>): State
    decreases |events|
  {
    if events == [] then st
    else Run(Handle(st, events[0].sender, events[0].event), events[1..])
  }

  /** The events connection `c` receives from an outbox, in order. */
  function Inbox(out: seq<Emission>, c: ConnId): seq<OutEvent>
    decreases |out|
  {
    if out == [] then []
    else Inbox(out[..|out| - 1], c)
         + (if c in out[|out| - 1].to then [out[|out| - 1].event] else [])
  }

  /**
    What the relay keeps true: rooms hold only accepted connections, only
    accepted connections have an email, every email recorded for a
    connection is a key of the other map and every connection an email maps
    to has an email, and nothing was ever emitted to a connection that was
    never accepted. Since disconnects are not modelled, an id stays accepted
    for ever; a real server's maps keep the ids of closed sockets too.
  */
  ghost predicate WellFormed(st: State)
  {
    && (forall r :: r in st.rooms ==> st.rooms[r] <= st.connected)
    && st.socketIdToEmail.Keys <= st.connected
    && (forall e :: e in st.emailToSocketId ==> st.emailToSocketId[e] in st.socketIdToEmail)
    && (forall c :: c in st.socketIdToEmail ==> st.socketIdToEmail[c] in st.emailToSocketId)
    && (forall i :: 0 <= i < |st.outbox| ==> st.outbox[i].to <= st.connected)
  }

  /** Growth order on states: no handler removes anything. */
  ghost predicate Grows(st: State, st': State)
  {
    && st.emailToSocketId.Keys <= st'.emailToSocketId.Keys
    && st.socketIdToEmail.Keys <= st'.socketIdToEmail.Keys
    && (forall r :: r in st.rooms ==> r in st'.rooms && st.rooms[r] <= st'.rooms[r])
    && st'.connected == st.connected
    && st.outbox <= st'.outbox
  }

  // ---------------------------------------------------------------- room:join

  /** After `room:join` the sender and its email point at each other; every other key keeps its value. */
  lemma JoinRecordsIdentity(st: State, sender: ConnId, data: JoinData)
    ensures var st' := Handle(st, sender, RoomJoin(data));
      && data.email in st'.emailToSocketId && st'.emailToSocketId[data.email] == sender
      && sender in st'.socketIdToEmail && st'.socketIdToEmail[sender] == data.email
      && st'.emailToSocketId.Keys == st.emailToSocketId.Keys + {data.email}
      && st'.socketIdToEmail.Keys == st.socketIdToEmail.Keys + {sender}
      && (forall e :: e in st.emailToSocketId && e != data.email ==> st'.emailToSocketId[e] == st.emailToSocketId[e])
      && (forall c :: c in st.socketIdToEmail && c != sender ==> st'.socketIdToEmail[c] == st.socketIdToEmail[c])
  {
  }

  /**
    `room:join` emits two events: `user:joined {email, id}` to the room as it
    was BEFORE the sender entered, then the unmodified `data` back as
    `room:join` to the sender's own id.
  */
  lemma JoinEmits(st: State, sender: ConnId, data: JoinData)
    ensures var st' := Handle(st, sender, RoomJoin(data));
      st'.outbox == st.outbox + [Emission(Recipients(st, data.room), UserJoined(data.email, sender)),
                                 Emission(Recipients(st', sender), RoomJoinEcho(data))]
  {
  }

  /**
    The sender hears its own `user:joined` exactly when it already was in the
    room (a repeated join), or the room is named by its own id: a first-time
    joiner gets no notice about itself.
  */
  lemma JoinNoticeReachesSenderIff(st: State, sender: ConnId, data: JoinData)
    requires sender in st.connected
    ensures var st' := Handle(st, sender, RoomJoin(data));
      sender in st'.outbox[|st.outbox|].to <==> sender in Members(st, data.room) || data.room == sender
  {
  }

  /** Every member of the room before the join, and nobody else but the room's namesake, hears the notice. */
  lemma JoinNoticeReachesPriorMembers(st: State, sender: ConnId, data: JoinData, c: ConnId)
    ensures var st' := Handle(st, sender, RoomJoin(data));
      c in st'.outbox[|st.outbox|].to <==> c in Members(st, data.room) || (c == data.room && c in st.connected)
  {
  }

  /**
    The echo reaches the sender, and only the sender unless somebody else
    joined a room named by the sender's id.
  */
  lemma JoinEchoOnlyToSender(st: State, sender: ConnId, data: JoinData)
    requires sender in st.connected
    requires Members(st, sender) <= {sender}
    ensures var st' := Handle(st, sender, RoomJoin(data));
      st'.outbox[|st.outbox| + 1] == Emission({sender}, RoomJoinEcho(data))
  {
  }

  /** After `room:join` the sender is a member of the room; nobody else's membership changed. */
  lemma JoinEntersRoom(st: State, sender: ConnId, data: JoinData)
    ensures var st' := Handle(st, sender, RoomJoin(data));
      && Members(st', data.room) == Members(st, data.room) + {sender}
      && (forall r :: r != data.room ==> Members(st', r) == Members(st, r))
  {
  }

  /** Joining is idempotent on the registry and the rooms: a repeated identical join changes only the outbox. */
  lemma JoinIdempotent(st: State, sender: ConnId, data: JoinData)
    ensures var once := Handle(st, sender, RoomJoin(data));
      var twice := Handle(once, sender, RoomJoin(data));
      && twice.emailToSocketId == once.emailToSocketId
      && twice.socketIdToEmail == once.socketIdToEmail
      && twice.rooms == once.rooms
      && twice.connected == once.connected
  {
  }

  /**
    A connection that re-joins a room it is in receives its own
    `user:joined`, because the notice goes out before `socket.join`.
  */
  lemma RejoinHearsOwnNotice(st: State, sender: ConnId, data: JoinData)
    requires sender in st.connected
    ensures var once := Handle(st, sender, RoomJoin(data));
      var twice := Handle(once, sender, RoomJoin(data));
      UserJoined(data.email, sender) in Inbox(twice.outbox[|once.outbox|..], sender)
  {
  }

  /**
    Re-joining under a new email leaves the old email pointing at the same
    connection: the two maps are not inverse to each other.
  */
  lemma RejoinLeavesStaleEmail(st: State, sender: ConnId, room: RoomName, e1: Email, e2: Email)
    requires e1 != e2
    ensures var st' := Handle(Handle(st, sender, RoomJoin(JoinData(e1, room))), sender, RoomJoin(JoinData(e2, room)));
      && st'.emailToSocketId[e1] == sender
      && st'.socketIdToEmail[sender] == e2
      && st'.socketIdToEmail[st'.emailToSocketId[e1]] != e1
  {
  }

  // ------------------------------------------------------- point-to-point events

  /**
    Each point-to-point event appends exactly one emission, addressed to the
    payload's target, and changes nothing else. The payload is forwarded
    unchanged; `peer:candidate` carries no `from`.
  */
  lemma ForwardAppendsOne(st: State, sender: ConnId, ev: InEvent)
    requires !ev.RoomJoin?
    ensures var st' := Handle(st, sender, ev);
      && st'.emailToSocketId == st.emailToSocketId
      && st'.socketIdToEmail == st.socketIdToEmail
      && st'.rooms == st.rooms
      && st'.connected == st.connected
      && st'.outbox == st.outbox + [Emission(Recipients(st, Target(ev)), Relayed(sender, ev))]
    ensures ev.UserCall? ==> Relayed(sender, ev) == IncomingCall(sender, ev.offer) && Target(ev) == ev.toUser
    ensures ev.CallAccepted? ==> Relayed(sender, ev) == CallAcceptedFwd(sender, ev.ans) && Target(ev) == ev.to
    ensures ev.PeerCandidate? ==> Relayed(sender, ev) == PeerCandidateFwd(ev.candidate) && Target(ev) == ev.to
    ensures ev.PeerNegotiation? ==> Relayed(sender, ev) == PeerNegotiationFwd(sender, ev.offer) && Target(ev) == ev.to
    ensures ev.PeerNegoDone? ==> Relayed(sender, ev) == PeerNegoFinal(sender, ev.ans) && Target(ev) == ev.to
  {
  }

  /**
    Addressing by id: when nobody joined a room named by the target's id, a
    forwarded event reaches the target alone if it was accepted and nobody at all
    otherwise; in particular not the sender (unless it addressed itself) and
    not the sender's room.
  */
  lemma ForwardReachesTargetOnly(st: State, sender: ConnId, ev: InEvent)
    requires !ev.RoomJoin?
    requires Members(st, Target(ev)) == {}
    ensures var st' := Handle(st, sender, ev);
      && st'.outbox[|st.outbox|].to == (if Target(ev) in st.connected then {Target(ev)} else {})
      && (sender != Target(ev) ==> sender !in st'.outbox[|st.outbox|].to)
  {
  }

  /** The inbox of a concatenated outbox is the concatenation of the inboxes. */
  lemma {:induction false} InboxAppend(a: seq<Emission>, b: seq<Emission>, c: ConnId)
    ensures Inbox(a + b, c) == Inbox(a, c) + Inbox(b, c)
    decreases |b|
  {
    if b == [] {
      assert a + b == a;
    } else {
      var b' := b[..|b| - 1];
      assert (a + b)[..|a + b| - 1] == a + b';
      InboxAppend(a, b', c);
    }
  }

  /**
    Seen from the connections: a point-to-point event addressed to an accepted id
    that names no room adds the relayed event to that connection's inbox and
    to no other inbox.
  */
  lemma ForwardDeliveredOnlyToTarget(st: State, sender: ConnId, ev: InEvent, c: ConnId)
    requires !ev.RoomJoin?
    requires Members(st, Target(ev)) == {}
    requires Target(ev) in st.connected
    ensures var st' := Handle(st, sender, ev);
      Inbox(st'.outbox, c) == Inbox(st.outbox, c) + (if c == Target(ev) then [Relayed(sender, ev)] else [])
  {
  }

  /** A point-to-point event addressed to an id that is neither an accepted socket nor a room is dropped silently. */
  lemma ForwardToUnknownDropped(st: State, sender: ConnId, ev: InEvent, c: ConnId)
    requires !ev.RoomJoin?
    requires Members(st, Target(ev)) == {}
    requires Target(ev) !in st.connected
    ensures Inbox(Handle(st, sender, ev).outbox, c) == Inbox(st.outbox, c)
  {
  }

  // -------------------------------------------------------------- whole runs

  /** One handler keeps the relay well formed when its sender was accepted. */
  lemma HandleWellFormed(st: State, sender: ConnId, ev: InEvent)
    requires WellFormed(st) && sender in st.connected
    ensures WellFormed(Handle(st, sender, ev))
  {
    var st' := Handle(st, sender, ev);
    if ev.RoomJoin? {
      JoinEmits(st, sender, ev.data);
      JoinEntersRoom(st, sender, ev.data);
      forall r | r in st'.rooms ensures st'.rooms[r] <= st'.connected {
        assert st'.rooms[r] == Members(st', r);
      }
    } else {
      ForwardAppendsOne(st, sender, ev);
    }
  }

  /** A new connection keeps the relay well formed. */
  lemma AddConnectionWellFormed(st: State, id: ConnId)
    requires WellFormed(st)
    ensures WellFormed(AddConnection(st, id))
  {
  }

  /** Any sequence of events from accepted senders keeps the relay well formed. */
  lemma {:induction false} RunWellFormed(st: State, events: seq<Inbound>)
    requires WellFormed(st)
    requires forall i :: 0 <= i < |events| ==> events[i].sender in st.connected
    ensures WellFormed(Run(st, events))
    decreases |events|
  {
    if events != [] {
      var next := Handle(st, events[0].sender, events[0].event);
      HandleWellFormed(st, events[0].sender, events[0].event);
      HandleGrows(st, events[0].sender, events[0].event);
      RunWellFormed(next, events[1..]);
    }
  }

  /** One handler only adds: map keys, room members and the outbox grow; the accepted set is untouched. */
  lemma HandleGrows(st: State, sender: ConnId, ev: InEvent)
    ensures Grows(st, Handle(st, sender, ev))
  {
  }

  /** No sequence of events removes a map entry, a room member or an emitted event. */
  lemma {:induction false} RunGrows(st: State, events: seq<Inbound>)
    ensures Grows(st, Run(st, events))
    decreases |events|
  {
    if events != [] {
      var next := Handle(st, events[0].sender, events[0].event);
      HandleGrows(st, events[0].sender, events[0].event);
      RunGrows(next, events[1..]);
    }
  }

  /** Point-to-point events leave the registry and every room exactly as they were. */
  lemma {:induction false} RunForwardsKeepsRegistry(st: State, events: seq<Inbound>)
    requires forall i :: 0 <= i < |events| ==> !events[i].event.RoomJoin?
    ensures var st' := Run(st, events);
      && st'.emailToSocketId == st.emailToSocketId
      && st'.socketIdToEmail == st.socketIdToEmail
      && st'.rooms == st.rooms
      && st'.connected == st.connected
    decreases |events|
  {
    if events != [] {
      ForwardAppendsOne(st, events[0].sender, events[0].event);
      RunForwardsKeepsRegistry(Handle(st, events[0].sender, events[0].event), events[1..]);
    }
  }

  /** No sequence of events takes back an event a connection has already received: its inbox only grows. */
  lemma InboxOnlyGrows(st: State, events: seq<Inbound>, c: ConnId)
    ensures var st' := Run(st, events);
      Inbox(st.outbox, c) <= Inbox(st'.outbox, c)
  {
    var st' := Run(st, events);
    RunGrows(st, events);
    var later := st'.outbox[|st.outbox|..];
    assert st'.outbox == st.outbox + later;
    InboxAppend(st.outbox, later, c);
  }

  // ---------------------------------------------------------------- scenarios

  /** What one `room:join` adds to a connection's inbox: the notice if it was in the room, then the echo if addressed. */
  lemma JoinInbox(st: State, sender: ConnId, data: JoinData, c: ConnId)
    ensures var st' := Handle(st, sender, RoomJoin(data));
      Inbox(st'.outbox, c)
        == Inbox(st.outbox, c)
           + (if c in Recipients(st, data.room) then [UserJoined(data.email, sender)] else [])
           + (if c in Recipients(st', sender) then [RoomJoinEcho(data)] else [])
  {
  }

  /**
    Two connections A and B join the same room, A first. A hears its echo
    and then `user:joined` about B; B hears only its own echo.
  */
  lemma TwoJoinScenario(st: State, a: ConnId, b: ConnId, room: RoomName, ea: Email, eb: Email)
    requires a != b && a in st.connected && b in st.connected
    requires st.outbox == []
    requires room != a && room != b && room !in st.connected
    requires Members(st, room) == {} && Members(st, a) == {} && Members(st, b) == {}
    ensures var st' := Run(st, [Inbound(a, RoomJoin(JoinData(ea, room))), Inbound(b, RoomJoin(JoinData(eb, room)))]);
      && Inbox(st'.outbox, a) == [RoomJoinEcho(JoinData(ea, room)), UserJoined(eb, b)]
      && Inbox(st'.outbox, b) == [RoomJoinEcho(JoinData(eb, room))]
  {
    var da, db := JoinData(ea, room), JoinData(eb, room);
    var events := [Inbound(a, RoomJoin(da)), Inbound(b, RoomJoin(db))];
    var s1 := Handle(st, a, RoomJoin(da));
    var s2 := Handle(s1, b, RoomJoin(db));
    assert events[1..] == [Inbound(b, RoomJoin(db))];
    assert Run(st, events) == Run(s1, events[1..]);
    assert Run(s1, events[1..]) == Run(s2, []);
    JoinEntersRoom(st, a, da);
    JoinEntersRoom(s1, b, db);
    assert Recipients(st, room) == {};
    assert Recipients(s1, a) == {a};
    assert Recipients(s1, room) == {a};
    assert Recipients(s2, b) == {b};
    JoinInbox(st, a, da, a);
    JoinInbox(st, a, da, b);
    JoinInbox(s1, b, db, a);
    JoinInbox(s1, b, db, b);
  }

  /**
    A calls B with an offer and B accepts with an answer: B's inbox gains
    exactly `incoming:call {from: A, offer}` and A's exactly
    `call:accepted {from: B, ans}`.
  */
  lemma CallScenario(st: State, a: ConnId, b: ConnId, offer: Payload, ans: Payload)
    requires a != b && a in st.connected && b in st.connected
    requires Members(st, a) == {} && Members(st, b) == {}
    ensures var st' := Run(st, [Inbound(a, UserCall(b, offer)), Inbound(b, CallAccepted(a, ans))]);
      && Inbox(st'.outbox, b) == Inbox(st.outbox, b) + [IncomingCall(a, offer)]
      && Inbox(st'.outbox, a) == Inbox(st.outbox, a) + [CallAcceptedFwd(b, ans)]
  {
    var events := [Inbound(a, UserCall(b, offer)), Inbound(b, CallAccepted(a, ans))];
    var s1 := Handle(st, a, UserCall(b, offer));
    var s2 := Handle(s1, b, CallAccepted(a, ans));
    assert events[1..] == [Inbound(b, CallAccepted(a, ans))];
    assert Run(st, events) == Run(s1, events[1..]);
    assert Run(s1, events[1..]) == Run(s2, []);
    ForwardAppendsOne(st, a, UserCall(b, offer));
    ForwardDeliveredOnlyToTarget(st, a, UserCall(b, offer), a);
    ForwardDeliveredOnlyToTarget(st, a, UserCall(b, offer), b);
    ForwardDeliveredOnlyToTarget(s1, b, CallAccepted(a, ans), a);
    ForwardDeliveredOnlyToTarget(s1, b, CallAccepted(a, ans), b);
  }

  // ------------------------------------------------------------ the server

  /** The relay as the server holds it: module-level maps and socket.io's rooms, updated in place. */
  class Relay {
    var emailToSocketId: map<Email, ConnId>
    var socketIdToEmail: map<ConnId, Email>
    var rooms: map<RoomName, set<ConnId>>
    var connected: set<ConnId>
    var outbox: seq<Emission>

    function Snapshot(): State
      reads this
    {
      State(emailToSocketId, socketIdToEmail, rooms, connected, outbox)
    }

    ghost predicate Valid()
      reads this
    {
      WellFormed(Snapshot())
    }

    /** `new Map()` twice at start-up; no socket yet. */
    constructor ()
      ensures Valid() && Snapshot() == Initial
    {
      emailToSocketId := map[];
      socketIdToEmail := map[];
      rooms := map[];
      connected := {};
      outbox := [];
    }

    /** `io.to(name).emit(event)`. */
    method Send(name: string, event: OutEvent)
      modifies this`outbox
      ensures outbox == old(outbox) + [Emission(Recipients(old(Snapshot()), name), event)]
    {
      var to := (if name in rooms then rooms[name] else {}) + (if name in connected then {name} else {});
      outbox := outbox + [Emission(to, event)];
    }

    /** `io.on("connection")`: socket `id` is accepted. */
    method OnConnection(id: ConnId)
      requires Valid()
      modifies this
      ensures Valid()
      ensures Snapshot() == AddConnection(old(Snapshot()), id)
    {
      connected := connected + {id};
    }

    method OnRoomJoin(sender: ConnId, data: JoinData)
      requires Valid() && sender in connected
      modifies this
      ensures Valid()
      ensures Snapshot() == Handle(old(Snapshot()), sender, RoomJoin(data))
    {
      ghost var st := Snapshot();
      ghost var named := st.(emailToSocketId := st.emailToSocketId[data.email := sender],
                             socketIdToEmail := st.socketIdToEmail[sender := data.email]);
      ghost var announced := Emit(named, data.room, UserJoined(data.email, sender));
      ghost var joined := announced.(rooms := announced.rooms[data.room := Members(announced, data.room) + {sender}]);
      assert Handle(st, sender, RoomJoin(data)) == Emit(joined, sender, RoomJoinEcho(data));

      emailToSocketId := emailToSocketId[data.email := sender];
      socketIdToEmail := socketIdToEmail[sender := data.email];
      assert Snapshot() == named;
      Send(data.room, UserJoined(data.email, sender));
      assert Snapshot() == announced;
      var members := if data.room in rooms then rooms[data.room] else {};
      rooms := rooms[data.room := members + {sender}];   // socket.join(room)
      assert Snapshot() == joined;
      Send(sender, RoomJoinEcho(data));
      assert Snapshot() == Handle(st, sender, RoomJoin(data));
      HandleWellFormed(st, sender, RoomJoin(data));
    }

    method OnUserCall(sender: ConnId, toUser: ConnId, offer: Payload)
      requires Valid() && sender in connected
      modifies this
      ensures Valid()
      ensures Snapshot() == Handle(old(Snapshot()), sender, UserCall(toUser, offer))
    {
      HandleWellFormed(Snapshot(), sender, UserCall(toUser, offer));
      Send(toUser, IncomingCall(sender, offer));
    }

    method OnCallAccepted(sender: ConnId, to: ConnId, ans: Payload)
      requires Valid() && sender in connected
      modifies this
      ensures Valid()
      ensures Snapshot() == Handle(old(Snapshot()), sender, CallAccepted(to, ans))
    {
      HandleWellFormed(Snapshot(), sender, CallAccepted(to, ans));
      Send(to, CallAcceptedFwd(sender, ans));
    }

    method OnPeerCandidate(sender: ConnId, candidate: Payload, to: ConnId)
      requires Valid() && sender in connected
      modifies this
      ensures Valid()
      ensures Snapshot() == Handle(old(Snapshot()), sender, PeerCandidate(candidate, to))
    {
      HandleWellFormed(Snapshot(), sender, PeerCandidate(candidate, to));
      Send(to, PeerCandidateFwd(candidate));
    }

    method OnPeerNegotiation(sender: ConnId, to: ConnId, offer: Payload)
      requires Valid() && sender in connected
      modifies this
      ensures Valid()
      ensures Snapshot() == Handle(old(Snapshot()), sender, PeerNegotiation(to, offer))
    {
      HandleWellFormed(Snapshot(), sender, PeerNegotiation(to, offer));
      Send(to, PeerNegotiationFwd(sender, offer));
    }

    method OnPeerNegoDone(sender: ConnId, to: ConnId, ans: Payload)
      requires Valid() && sender in connected
      modifies this
      ensures Valid()
      ensures Snapshot() == Handle(old(Snapshot()), sender, PeerNegoDone(to, ans))
    {
      HandleWellFormed(Snapshot(), sender, PeerNegoDone(to, ans));
      Send(to, PeerNegoFinal(sender, ans));
    }
  }
}
