/**
 * The relay: a registry of open connections, each optionally in a room, and
 * a router that stamps forwarded envelopes with the sender's id and sends
 * them to the sender's room mates.
 *
 * The registry is a sequence of records kept in connection order; the
 * functions below say what each handler does to it, and class `Server`
 * performs those updates in place.
 */
module Relay {
  import opened Envelopes

  /** The identity of one connection's socket (the `ws` object of the connection). */
  type Socket = nat

  datatype Client = Client(id: ClientId, ws: Socket, room: Option<string>)

  /** One frame handed to one socket's `send`. */
  datatype Delivery = Delivery(to: Socket, frame: Envelope)

  // ---------------------------------------------------------------------
  // The registry

  predicate UniqueSockets(cs: seq<Client>) {
    forall i, j :: 0 <= i < j < |cs| ==> cs[i].ws != cs[j].ws
  }

  predicate UniqueIds(cs: seq<Client>) {
    forall i, j :: 0 <= i < j < |cs| ==> cs[i].id != cs[j].id
  }

  /** The position of the record of socket `ws`, or -1 (`indexOf`). */
  function IndexOfSocket(cs: seq<Client>, ws: Socket): (i: int)
    ensures -1 <= i < |cs|
    ensures 0 <= i ==> cs[i].ws == ws && forall j :: 0 <= j < i ==> cs[j].ws != ws
    ensures i == -1 ==> forall j :: 0 <= j < |cs| ==> cs[j].ws != ws
  {
    if cs == [] then -1
    else if cs[0].ws == ws then 0
    else
      var k := IndexOfSocket(cs[1..], ws);
      if k == -1 then -1 else k + 1
  }

  predicate Registered(cs: seq<Client>, ws: Socket) {
    IndexOfSocket(cs, ws) >= 0
  }

  /** A `join` from socket `ws`: its record's room becomes `room`. */
  function Join(cs: seq<Client>, ws: Socket, room: Option<string>): (r: seq<Client>)
    requires Registered(cs, ws)
    ensures |r| == |cs|
    ensures forall j :: 0 <= j < |cs| ==> r[j].id == cs[j].id && r[j].ws == cs[j].ws
    ensures UniqueSockets(cs) ==>
              forall j :: 0 <= j < |cs| ==> r[j].room == (if cs[j].ws == ws then room else cs[j].room)
  {
    var i := IndexOfSocket(cs, ws);
    cs[i := cs[i].(room := room)]
  }

  /** The close of socket `ws`: its record is spliced out. */
  function Close(cs: seq<Client>, ws: Socket): seq<Client>
    requires Registered(cs, ws)
  {
    var i := IndexOfSocket(cs, ws);
    cs[..i] + cs[i + 1..]
  }

  /** Reference definition: the records of every socket but `ws`, in registry order. */
  function Others(cs: seq<Client>, ws: Socket): (r: seq<Client>)
    ensures forall c :: c in r <==> c in cs && c.ws != ws
  {
    if cs == [] then []
    else (if cs[0].ws == ws then [] else [cs[0]]) + Others(cs[1..], ws)
  }

  /** Joining twice leaves the room of the second join: the last write wins. */
  lemma JoinLastWins(cs: seq<Client>, ws: Socket, first: Option<string>, second: Option<string>)
    requires Registered(cs, ws)
    ensures Registered(Join(cs, ws, first), ws)
    ensures Join(Join(cs, ws, first), ws, second) == Join(cs, ws, second)
  {
    var i := IndexOfSocket(cs, ws);
    var once := Join(cs, ws, first);
    var k := IndexOfSocket(once, ws);
    assert once[i].ws == ws;
    assert forall j :: 0 <= j < i ==> once[j].ws == cs[j].ws != ws;
    assert k == i;
  }

  /**
   * Closing a registered socket removes exactly its record and keeps every
   * other record, in the same relative order.
   */
  lemma {:induction false} CloseKeepsOthers(cs: seq<Client>, ws: Socket)
    requires UniqueSockets(cs) && Registered(cs, ws)
    ensures Close(cs, ws) == Others(cs, ws)
    ensures |Close(cs, ws)| == |cs| - 1
  {
    var i := IndexOfSocket(cs, ws);
    var tail := cs[1..];
    TailOfUnique(cs);
    if i == 0 {
      assert Close(cs, ws) == tail;
      OthersOfAbsent(tail, ws);
      assert Others(cs, ws) == [] + Others(tail, ws);
    } else {
      CloseOfTail(cs, ws);
      CloseKeepsOthers(tail, ws);
      assert Others(cs, ws) == [cs[0]] + Others(tail, ws);
    }
  }

  /** Closing a socket whose record is not the first keeps the first and closes it in the rest. */
  lemma CloseOfTail(cs: seq<Client>, ws: Socket)
    requires IndexOfSocket(cs, ws) > 0
    ensures Registered(cs[1..], ws)
    ensures Close(cs, ws) == [cs[0]] + Close(cs[1..], ws)
  {
    var i := IndexOfSocket(cs, ws);
    assert IndexOfSocket(cs[1..], ws) == i - 1;
    SpliceOfTail(cs, i);
  }

  /** Splicing out a position other than the first commutes with dropping the first element. */
  lemma SpliceOfTail(s: seq<Client>, i: int)
    requires 0 < i < |s|
    ensures s[..i] + s[i + 1..] == [s[0]] + (s[1..][..i - 1] + s[1..][i..])
  {
    assert s[..i] == [s[0]] + s[1..][..i - 1];
    assert s[i + 1..] == s[1..][i..];
  }

  /** Dropping the first record keeps sockets unique, and the first socket does not recur. */
  lemma TailOfUnique(cs: seq<Client>)
    requires UniqueSockets(cs) && cs != []
    ensures UniqueSockets(cs[1..])
    ensures forall j :: 0 <= j < |cs| - 1 ==> cs[1..][j].ws != cs[0].ws
  {
    forall j | 0 <= j < |cs| - 1 ensures cs[1..][j].ws != cs[0].ws {
      assert cs[1..][j] == cs[j + 1];
    }
  }

  lemma {:induction false} OthersOfAbsent(cs: seq<Client>, ws: Socket)
    requires forall j :: 0 <= j < |cs| ==> cs[j].ws != ws
    ensures Others(cs, ws) == cs
  {
    if cs != [] {
      OthersOfAbsent(cs[1..], ws);
      assert cs == [cs[0]] + cs[1..];
    }
  }

  // ---------------------------------------------------------------------
  // Broadcast

  /** The three conditions of `broadcast`: same room, not the sender's socket, socket open. */
  predicate Eligible(c: Client, room: Option<string>, sender: Socket, open: set<Socket>) {
    c.room == room && c.ws != sender && c.ws in open
  }

  /** The records a broadcast sends to, in registry order. */
  function Recipients(cs: seq<Client>, room: Option<string>, sender: Socket, open: set<Socket>): (r: seq<Client>)
    ensures |r| <= |cs|
    ensures forall c :: c in r <==> c in cs && Eligible(c, room, sender, open)
  {
    if cs == [] then []
    else (if Eligible(cs[0], room, sender, open) then [cs[0]] else []) + Recipients(cs[1..], room, sender, open)
  }

  /** One frame per recipient, in recipient order. */
  function Deliveries(rs: seq<Client>, frame: Envelope): (ds: seq<Delivery>)
    ensures |ds| == |rs|
    ensures forall k :: 0 <= k < |rs| ==> ds[k] == Delivery(rs[k].ws, frame)
  {
    if rs == [] then [] else [Delivery(rs[0].ws, frame)] + Deliveries(rs[1..], frame)
  }

  /** Broadcasting to a registry split in two sends to the first part's recipients first. */
  lemma {:induction false} RecipientsAppend(a: seq<Client>, b: seq<Client>, room: Option<string>, sender: Socket, open: set<Socket>)
    ensures Recipients(a + b, room, sender, open) == Recipients(a, room, sender, open) + Recipients(b, room, sender, open)
  {
    if a == [] {
      assert a + b == b;
    } else {
      assert (a + b)[1..] == a[1..] + b;
      RecipientsAppend(a[1..], b, room, sender, open);
    }
  }

  /** One more record considered by the broadcast loop adds its frame exactly when it is eligible. */
  lemma BroadcastStep(cs: seq<Client>, i: nat, room: Option<string>, sender: Socket, open: set<Socket>, frame: Envelope, start: seq<Delivery>)
    requires i < |cs|
    ensures start + Deliveries(Recipients(cs[..i + 1], room, sender, open), frame)
            == start + Deliveries(Recipients(cs[..i], room, sender, open), frame)
               + if Eligible(cs[i], room, sender, open) then [Delivery(cs[i].ws, frame)] else []
  {
    var before := Recipients(cs[..i], room, sender, open);
    assert cs[..i + 1] == cs[..i] + [cs[i]];
    RecipientsAppend(cs[..i], [cs[i]], room, sender, open);
    if Eligible(cs[i], room, sender, open) {
      DeliveriesAppend(before, [cs[i]], frame);
    } else {
      assert Recipients([cs[i]], room, sender, open) == [];
      assert before + [] == before;
    }
  }

  lemma DeliveriesAppend(a: seq<Client>, b: seq<Client>, frame: Envelope)
    ensures Deliveries(a + b, frame) == Deliveries(a, frame) + Deliveries(b, frame)
  {
    var l, r := Deliveries(a + b, frame), Deliveries(a, frame) + Deliveries(b, frame);
    assert |l| == |r|;
    forall k | 0 <= k < |l| ensures l[k] == r[k] {
      if k < |a| { assert (a + b)[k] == a[k]; } else { assert (a + b)[k] == b[k - |a|]; }
    }
  }

  /**
   * In a registry where sockets are unique, a broadcast sends exactly one copy
   * to a record that meets all three conditions and none to any other.
   */
  lemma {:induction false} DeliveredOnce(cs: seq<Client>, room: Option<string>, sender: Socket, open: set<Socket>, frame: Envelope, j: nat)
    requires UniqueSockets(cs) && j < |cs|
    ensures multiset(Deliveries(Recipients(cs, room, sender, open), frame))[Delivery(cs[j].ws, frame)]
            == if Eligible(cs[j], room, sender, open) then 1 else 0
  {
    var tail := cs[1..];
    var x := Delivery(cs[j].ws, frame);
    FirstThenRest(cs, room, sender, open, frame, x);
    TailOfUnique(cs);
    if j == 0 {
      NotDeliveredToAbsent(tail, room, sender, open, frame, cs[0].ws);
    } else {
      assert tail[j - 1] == cs[j];
      DeliveredOnce(tail, room, sender, open, frame, j - 1);
    }
  }

  /** The copies of `x` for a registry: one if `x` is the first record's frame and it is eligible, plus those for the rest. */
  lemma FirstThenRest(cs: seq<Client>, room: Option<string>, sender: Socket, open: set<Socket>, frame: Envelope, x: Delivery)
    requires cs != []
    ensures multiset(Deliveries(Recipients(cs, room, sender, open), frame))[x]
            == (if Eligible(cs[0], room, sender, open) && x == Delivery(cs[0].ws, frame) then 1 else 0)
               + multiset(Deliveries(Recipients(cs[1..], room, sender, open), frame))[x]
  {
    var head := if Eligible(cs[0], room, sender, open) then [cs[0]] else [];
    var rest := Recipients(cs[1..], room, sender, open);
    assert Recipients(cs, room, sender, open) == head + rest;
    DeliveriesAppend(head, rest, frame);
    assert multiset(Deliveries(head + rest, frame)) == multiset(Deliveries(head, frame)) + multiset(Deliveries(rest, frame));
  }

  /** A socket that has no record receives nothing. */
  lemma NotDeliveredToAbsent(cs: seq<Client>, room: Option<string>, sender: Socket, open: set<Socket>, frame: Envelope, s: Socket)
    requires forall j :: 0 <= j < |cs| ==> cs[j].ws != s
    ensures multiset(Deliveries(Recipients(cs, room, sender, open), frame))[Delivery(s, frame)] == 0
  {
    var rs := Recipients(cs, room, sender, open);
    var ds := Deliveries(rs, frame);
    forall k | 0 <= k < |ds| ensures ds[k] != Delivery(s, frame) {
      assert rs[k] in cs;
    }
    assert Delivery(s, frame) !in ds;
  }

  // ---------------------------------------------------------------------
  // Routing one inbound message

  /** `data.senderId = client.id`: the sender's id replaces whatever the client put there. */
  function Stamp(data: Envelope, id: ClientId): (r: Envelope)
    ensures r.senderId == Some(id)
    ensures r.(senderId := data.senderId) == data
  {
    data.(senderId := Some(id))
  }

  /** The sender's record. */
  function SenderOf(cs: seq<Client>, ws: Socket): Client
    requires Registered(cs, ws)
  {
    cs[IndexOfSocket(cs, ws)]
  }

  /** The frames one inbound message from socket `ws` causes to be sent. */
  function Route(cs: seq<Client>, ws: Socket, data: Envelope, open: set<Socket>): seq<Delivery>
    requires Registered(cs, ws)
  {
    if IsForwarded(data.kind) then
      var sender := SenderOf(cs, ws);
      Deliveries(Recipients(cs, sender.room, ws, open), Stamp(data, sender.id))
    else []
  }

  /** The registry after one inbound message from socket `ws`. */
  function RegistryAfter(cs: seq<Client>, ws: Socket, data: Envelope): seq<Client>
    requires Registered(cs, ws)
  {
    if data.kind == "join" then Join(cs, ws, data.room) else cs
  }

  /**
   * Only the six forwarded types cause frames, one per recipient; `join` and
   * any other type send nothing.
   */
  lemma OnlyForwardedRoute(cs: seq<Client>, ws: Socket, data: Envelope, open: set<Socket>)
    requires Registered(cs, ws)
    ensures !IsForwarded(data.kind) ==> Route(cs, ws, data, open) == []
    ensures IsForwarded(data.kind) ==>
              |Route(cs, ws, data, open)| == |Recipients(cs, SenderOf(cs, ws).room, ws, open)|
  {
  }

  /** A forwarded frame is the message as received, with the sender's id stamped on it. */
  lemma RouteStampsSender(cs: seq<Client>, ws: Socket, data: Envelope, open: set<Socket>)
    requires Registered(cs, ws)
    ensures forall d :: d in Route(cs, ws, data, open) ==>
              d.frame.senderId == Some(SenderOf(cs, ws).id) && d.frame.(senderId := data.senderId) == data
  {
  }

  /** The sender never receives its own message. */
  lemma SenderNeverReceives(cs: seq<Client>, ws: Socket, data: Envelope, open: set<Socket>)
    requires Registered(cs, ws)
    ensures forall d :: d in Route(cs, ws, data, open) ==> d.to != ws
  {
    if IsForwarded(data.kind) {
      var sender := SenderOf(cs, ws);
      var rs := Recipients(cs, sender.room, ws, open);
      forall d | d in Route(cs, ws, data, open) ensures d.to != ws {
        var k :| 0 <= k < |rs| && Deliveries(rs, Stamp(data, sender.id))[k] == d;
        assert rs[k] in rs;
      }
    }
  }

  /** A record in another room than the sender's receives nothing. */
  lemma NoCrossRoomDelivery(cs: seq<Client>, ws: Socket, data: Envelope, open: set<Socket>, j: nat)
    requires UniqueSockets(cs) && Registered(cs, ws) && j < |cs|
    requires cs[j].room != SenderOf(cs, ws).room
    ensures forall d :: d in Route(cs, ws, data, open) ==> d.to != cs[j].ws
  {
    if IsForwarded(data.kind) {
      var sender := SenderOf(cs, ws);
      var frame := Stamp(data, sender.id);
      DeliveredOnce(cs, sender.room, ws, open, frame, j);
      forall d | d in Route(cs, ws, data, open) ensures d.to != cs[j].ws {
        var rs := Recipients(cs, sender.room, ws, open);
        var k :| 0 <= k < |rs| && Deliveries(rs, frame)[k] == d;
        assert d == Delivery(rs[k].ws, frame);
      }
    }
  }

  /**
   * Two records that never joined share the undefined room: a forwarded
   * message from one reaches the other (one copy) whenever its socket is open.
   */
  lemma UnjoinedPeersReceive(cs: seq<Client>, ws: Socket, data: Envelope, open: set<Socket>, j: nat)
    requires UniqueSockets(cs) && Registered(cs, ws) && j < |cs|
    requires IsForwarded(data.kind)
    requires SenderOf(cs, ws).room.None? && cs[j].room.None?
    requires cs[j].ws != ws && cs[j].ws in open
    ensures multiset(Route(cs, ws, data, open))[Delivery(cs[j].ws, Stamp(data, SenderOf(cs, ws).id))] == 1
  {
    var sender := SenderOf(cs, ws);
    DeliveredOnce(cs, sender.room, ws, open, Stamp(data, sender.id), j);
  }

  /** After a socket closes, no later broadcast from anyone sends to it. */
  lemma ClosedNeverTargeted(cs: seq<Client>, ws: Socket, from: Socket, data: Envelope, open: set<Socket>)
    requires UniqueSockets(cs) && Registered(cs, ws)
    requires Registered(Close(cs, ws), from)
    ensures forall d :: d in Route(Close(cs, ws), from, data, open) ==> d.to != ws
  {
    CloseKeepsOthers(cs, ws);
    var rest := Close(cs, ws);
    if IsForwarded(data.kind) {
      var sender := SenderOf(rest, from);
      var rs := Recipients(rest, sender.room, from, open);
      forall d | d in Route(rest, from, data, open) ensures d.to != ws {
        var k :| 0 <= k < |rs| && Deliveries(rs, Stamp(data, sender.id))[k] == d;
        assert rs[k] in rest;
      }
    }
  }

  // ---------------------------------------------------------------------
  // The server's state and handlers

  class Server {
    /** The connected clients, in connection order. */
    var clients: seq<Client>
    /** The next identifier to hand out (stands in for `uuidv4`). */
    var nextId: ClientId
    /** Every frame sent so far, in sending order. */
    var sent: seq<Delivery>

    ghost predicate Valid()
      reads this
    {
      && UniqueIds(clients)
      && UniqueSockets(clients)
      && forall c :: c in clients ==> c.id < nextId
    }

    constructor ()
      ensures Valid()
      ensures clients == [] && sent == []
    {
      clients, nextId, sent := [], 0, [];
    }

    /** A new connection: one record with a fresh id and no room is appended. */
    method Connect(ws: Socket) returns (id: ClientId)
      requires Valid()
      requires !Registered(clients, ws)
      modifies this
      ensures Valid()
      ensures clients == old(clients) + [Client(id, ws, None)]
      ensures forall c :: c in old(clients) ==> c.id != id
      ensures sent == old(sent)
    {
      id := nextId;
      clients := clients + [Client(id, ws, None)];
      nextId := nextId + 1;
    }

    /** The `message` handler of socket `ws`. */
    method OnMessage(ws: Socket, data: Envelope, open: set<Socket>)
      requires Valid() && Registered(clients, ws)
      modifies this
      ensures Valid()
      ensures clients == RegistryAfter(old(clients), ws, data)
      ensures sent == old(sent) + Route(old(clients), ws, data, open)
      ensures nextId == old(nextId)
    {
      var client := clients[IndexOfSocket(clients, ws)];
      if data.kind == "join" {
        clients := clients[IndexOfSocket(clients, ws) := client.(room := data.room)];
      } else if IsForwarded(data.kind) {
        var stamped := data.(senderId := Some(client.id));
        Broadcast(stamped, client.room, ws, open);
      }
    }

    /** `broadcast`: one frame to every eligible record, in registry order. */
    method Broadcast(message: Envelope, room: Option<string>, sender: Socket, open: set<Socket>)
      modifies this`sent
      ensures sent == old(sent) + Deliveries(Recipients(clients, room, sender, open), message)
    {
      ghost var start := sent;
      var i := 0;
      while i < |clients|
        invariant 0 <= i <= |clients|
        invariant sent == start + Deliveries(Recipients(clients[..i], room, sender, open), message)
      {
        BroadcastStep(clients, i, room, sender, open, message, start);
        if Eligible(clients[i], room, sender, open) {
          sent := sent + [Delivery(clients[i].ws, message)];
        }
        i := i + 1;
      }
      assert clients[..i] == clients;
    }

    /** The `close` handler of socket `ws`: its record leaves the registry. */
    method OnClose(ws: Socket)
      requires Valid() && Registered(clients, ws)
      modifies this
      ensures Valid()
      ensures clients == Close(old(clients), ws)
      ensures sent == old(sent) && nextId == old(nextId)
    {
      var i := IndexOfSocket(clients, ws);
      clients := clients[..i] + clients[i + 1..];
    }
  }
}
