/** The socket.io signalling relay of `src/pages/api/socket.ts`: it keeps
    room membership and routes `join`, `signal` and `leave` messages as
    deliveries of server events to sessions. */
module Relay {
  import opened Protocol

  /** One emit of `event` to the session `recipient`. */
  datatype Delivery = Delivery(recipient: SessionId, event: ServerEvent)

  type Rooms = map<RoomId, set<SessionId>>

  /** The members of room `r`; a room that does not exist has none. */
  function Members(rooms: Rooms, r: RoomId): set<SessionId> {
    if r in rooms then rooms[r] else {}
  }

  /** socket.io deletes a room as soon as its last member leaves. */
  ghost predicate NoEmptyRooms(rooms: Rooms) {
    forall r :: r in rooms ==> rooms[r] != {}
  }

  /** `socket.join(r)`: set insertion into the room, creating it if need be. */
  function AddMember(rooms: Rooms, r: RoomId, s: SessionId): (rooms': Rooms)
    ensures Members(rooms', r) == Members(rooms, r) + {s}
    ensures forall q :: q != r ==> Members(rooms', q) == Members(rooms, q)
    ensures NoEmptyRooms(rooms) ==> NoEmptyRooms(rooms')
  {
    rooms[r := Members(rooms, r) + {s}]
  }

  /** `socket.leave(r)`: removes the session and deletes the room if it is
      left empty. */
  function RemoveMember(rooms: Rooms, r: RoomId, s: SessionId): (rooms': Rooms)
    ensures Members(rooms', r) == Members(rooms, r) - {s}
    ensures forall q :: q != r ==> Members(rooms', q) == Members(rooms, q)
    ensures NoEmptyRooms(rooms) ==> NoEmptyRooms(rooms')
  {
    var rest := Members(rooms, r) - {s};
    if rest == {} then rooms - {r} else rooms[r := rest]
  }

  /** What socket.io does to the rooms when a socket disconnects: the
      session leaves every room it was in. */
  function RemoveEverywhere(rooms: Rooms, s: SessionId): (rooms': Rooms)
    ensures forall q :: Members(rooms', q) == Members(rooms, q) - {s}
    ensures NoEmptyRooms(rooms')
  {
    map q | q in rooms && rooms[q] - {s} != {} :: rooms[q] - {s}
  }

  /** Every room is non-empty and holds only sessions of `connected`. */
  ghost predicate RoomsWithin(rooms: Rooms, connected: set<SessionId>) {
    NoEmptyRooms(rooms) && forall r :: r in rooms ==> rooms[r] <= connected
  }

  lemma AddMemberWithin(rooms: Rooms, connected: set<SessionId>, r: RoomId, s: SessionId)
    requires RoomsWithin(rooms, connected) && s in connected
    ensures RoomsWithin(AddMember(rooms, r, s), connected)
  {
  }

  lemma RemoveMemberWithin(rooms: Rooms, connected: set<SessionId>, r: RoomId, s: SessionId)
    requires RoomsWithin(rooms, connected)
    ensures RoomsWithin(RemoveMember(rooms, r, s), connected)
  {
  }

  /** JavaScript truthiness of the `to` field: null, undefined and the empty
      string all mean "no addressee". */
  predicate Addressed(to: Option<SessionId>) {
    to.Some? && to.value != ""
  }

  /** The sessions a `signal` from `sender` reaches: the addressee alone
      (when it is connected), or else every member of the room but the
      sender. */
  function SignalRecipients(connected: set<SessionId>, rooms: Rooms, sender: SessionId,
                            r: RoomId, to: Option<SessionId>): (recipients: set<SessionId>)
    ensures Addressed(to) ==> recipients <= {to.value}
    ensures Addressed(to) && to.value in connected ==> recipients == {to.value}
    ensures Addressed(to) && to.value !in connected ==> recipients == {}
    ensures !Addressed(to) ==> sender !in recipients && recipients <= Members(rooms, r)
    ensures !Addressed(to) ==> forall m :: m in Members(rooms, r) && m != sender ==> m in recipients
  {
    if Addressed(to) then (if to.value in connected then {to.value} else {})
    else Members(rooms, r) - {sender}
  }

  function RecipientsOf(sent: seq<Delivery>): set<SessionId> {
    set d | d in sent :: d.recipient
  }

  lemma RecipientsOfAppend(sent: seq<Delivery>, d: Delivery)
    ensures RecipientsOf(sent + [d]) == RecipientsOf(sent) + {d.recipient}
  {
    assert forall e :: e in sent + [d] <==> e in sent || e == d;
  }

  /** `sent` carries `event` exactly once to each session of `recipients`
      and to nobody else. */
  ghost predicate DeliversExactly(sent: seq<Delivery>, recipients: set<SessionId>, event: ServerEvent) {
    && RecipientsOf(sent) == recipients
    && |sent| == |recipients|
    && (forall i :: 0 <= i < |sent| ==> sent[i].event == event)
    && (forall i, j :: 0 <= i < j < |sent| ==> sent[i].recipient != sent[j].recipient)
  }

  /** Delivering to one more session keeps a broadcast exact. */
  lemma DeliverOneMore(sent: seq<Delivery>, done: set<SessionId>, s: SessionId, event: ServerEvent)
    requires DeliversExactly(sent, done, event) && s !in done
    ensures DeliversExactly(sent + [Delivery(s, event)], done + {s}, event)
  {
    RecipientsOfAppend(sent, Delivery(s, event));
  }

  /** A room broadcast (`socket.to(r).emit` / `io.to(r).emit`): one
      delivery of `event` per recipient, in an unspecified order. */
  method Broadcast(recipients: set<SessionId>, event: ServerEvent) returns (sent: seq<Delivery>)
    ensures DeliversExactly(sent, recipients, event)
  {
    sent := [];
    var rest := recipients;
    ghost var done: set<SessionId> := {};
    while rest != {}
      invariant done + rest == recipients && done !! rest
      invariant DeliversExactly(sent, done, event)
      decreases rest
    {
      var s :| s in rest;
      DeliverOneMore(sent, done, s, event);
      sent := sent + [Delivery(s, event)];
      done, rest := done + {s}, rest - {s};
    }
    assert done == recipients;
  }

  /** The relay server: the connected sessions, the room table of the
      socket.io adapter, and every delivery emitted so far. */
  class Server {
    var connected: set<SessionId>
    var rooms: Rooms
    var outbox: seq<Delivery>

    /** Every room is non-empty and holds connected sessions only. */
    ghost predicate Valid()
      reads this
    {
      RoomsWithin(rooms, connected)
    }

    constructor ()
      ensures Valid()
      ensures connected == {} && rooms == map[] && outbox == []
    {
      connected, rooms, outbox := {}, map[], [];
    }

    /** The `connection` event: socket.io admits a session under a fresh id. */
    method Connect(s: SessionId)
      requires Valid() && s !in connected
      modifies this
      ensures Valid()
      ensures connected == old(connected) + {s}
      ensures rooms == old(rooms) && outbox == old(outbox)
    {
      connected := connected + {s};
    }

    /** The `join` handler: joins the room, announces `peer-joined` to the
        other members and replies `peers-in-room` with the other members. */
    method Join(s: SessionId, r: RoomId) returns (sent: seq<Delivery>)
      requires Valid() && s in connected
      modifies this
      ensures Valid()
      ensures connected == old(connected)
      ensures rooms == AddMember(old(rooms), r, s)
      ensures |sent| >= 1
      ensures DeliversExactly(sent[..|sent| - 1], Members(old(rooms), r) - {s}, PeerJoined(s))
      ensures sent[|sent| - 1] == Delivery(s, PeersInRoom(Members(rooms, r) - {s}))
      ensures outbox == old(outbox) + sent
    {
      AddMemberWithin(rooms, connected, r, s);
      rooms := AddMember(rooms, r, s);
      var announced := Broadcast(Members(rooms, r) - {s}, PeerJoined(s));
      var reply := Delivery(s, PeersInRoom(Members(rooms, r) - {s}));
      sent := announced + [reply];
      assert sent[..|sent| - 1] == announced;
      outbox := outbox + sent;
    }

    /** The `signal` handler: unicast to `to` when it is set, otherwise a
        broadcast to the room that skips the sender. Membership is untouched. */
    method Signal(s: SessionId, r: RoomId, to: Option<SessionId>, data: SignalData)
      returns (sent: seq<Delivery>)
      requires Valid() && s in connected
      modifies this
      ensures Valid()
      ensures connected == old(connected) && rooms == old(rooms)
      ensures DeliversExactly(sent, SignalRecipients(connected, rooms, s, r, to), SignalFrom(s, data))
      ensures outbox == old(outbox) + sent
    {
      if Addressed(to) {
        // io.to(to) reaches the socket whose id is `to`, if there is one
        sent := if to.value in connected then [Delivery(to.value, SignalFrom(s, data))] else [];
        assert RecipientsOf(sent) == SignalRecipients(connected, rooms, s, r, to);
      } else {
        sent := Broadcast(Members(rooms, r) - {s}, SignalFrom(s, data));
      }
      outbox := outbox + sent;
    }

    /** The `leave` handler: leaves the room, then tells the remaining
        members `peer-left`. */
    method Leave(s: SessionId, r: RoomId) returns (sent: seq<Delivery>)
      requires Valid() && s in connected
      modifies this
      ensures Valid()
      ensures connected == old(connected)
      ensures rooms == RemoveMember(old(rooms), r, s)
      ensures DeliversExactly(sent, Members(rooms, r), PeerLeft(s))
      ensures outbox == old(outbox) + sent
    {
      RemoveMemberWithin(rooms, connected, r, s);
      rooms := RemoveMember(rooms, r, s);
      var remaining := Members(rooms, r);
      assert remaining - {s} == remaining;
      sent := Broadcast(remaining - {s}, PeerLeft(s));
      outbox := outbox + sent;
    }

    /** The `disconnect` event: socket.io drops the session from every room;
        the handler itself only logs, so nothing is delivered. */
    method Disconnect(s: SessionId)
      requires Valid() && s in connected
      modifies this
      ensures Valid()
      ensures connected == old(connected) - {s}
      ensures rooms == RemoveEverywhere(old(rooms), s)
      ensures outbox == old(outbox)
    {
      connected := connected - {s};
      rooms := RemoveEverywhere(rooms, s);
    }
  }

  /** One event the relay processes: a message from a session, or the
      transport closing. */
  datatype Step = Sent(sender: SessionId, msg: ClientMessage) | Closed(session: SessionId)

  /** The room table after one step, as the handlers above change it. */
  function Apply(rooms: Rooms, step: Step): Rooms {
    match step
    case Sent(s, JoinMsg(r)) => AddMember(rooms, r, s)
    case Sent(s, LeaveMsg(r)) => RemoveMember(rooms, r, s)
    case Sent(_, SignalMsg(_, _, _)) => rooms
    case Closed(s) => RemoveEverywhere(rooms, s)
  }

  function Replay(rooms: Rooms, steps: seq<Step>): Rooms
    decreases |steps|
  {
    if steps == [] then rooms else Apply(Replay(rooms, steps[..|steps| - 1]), steps[|steps| - 1])
  }

  /** Whether, judging by the history alone, `s` is in room `r`: its latest
      join, leave or disconnect decides; with none, `initially` does. */
  function InRoomByHistory(steps: seq<Step>, s: SessionId, r: RoomId, initially: bool): bool
    decreases |steps|
  {
    if steps == [] then initially
    else
      var last := steps[|steps| - 1];
      if last == Sent(s, JoinMsg(r)) then true
      else if last == Sent(s, LeaveMsg(r)) || last == Closed(s) then false
      else InRoomByHistory(steps[..|steps| - 1], s, r, initially)
  }

  /** A room holds exactly the sessions that joined it and have not since
      left it or disconnected. */
  lemma {:induction false} MembershipFollowsHistory(rooms: Rooms, steps: seq<Step>, s: SessionId, r: RoomId)
    ensures s in Members(Replay(rooms, steps), r)
            <==> InRoomByHistory(steps, s, r, s in Members(rooms, r))
    decreases |steps|
  {
    if steps != [] {
      MembershipFollowsHistory(rooms, steps[..|steps| - 1], s, r);
    }
  }

  /** Joining twice is joining once. */
  lemma JoinIsIdempotent(rooms: Rooms, r: RoomId, s: SessionId)
    ensures AddMember(AddMember(rooms, r, s), r, s) == AddMember(rooms, r, s)
  {
    assert Members(AddMember(rooms, r, s), r) + {s} == Members(rooms, r) + {s};
  }

  /** A signal step never changes the room table. */
  lemma SignalKeepsRooms(rooms: Rooms, steps: seq<Step>, s: SessionId, r: RoomId,
                         to: Option<SessionId>, data: SignalData)
    ensures Replay(rooms, steps + [Sent(s, SignalMsg(r, to, data))]) == Replay(rooms, steps)
  {
    assert (steps + [Sent(s, SignalMsg(r, to, data))])[..|steps|] == steps;
  }
}
