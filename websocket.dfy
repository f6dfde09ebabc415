/**
 * The connection registry and room protocol of src/websocket.ts.
 *
 * Connections are identified by number. Each has a ready state, moved by the
 * WebSocket library, and an outbox: the payloads the server has handed to
 * `ws.send` for it, in order. `clients` is the module-level map from a
 * connection to the `{ userId, roomId }` it last joined with. A payload is an
 * abstract value: serialising it once and sending the same text to several
 * connections becomes appending the same value to their outboxes.
 */
module WebSocket {
  import opened Wrappers
  import opened Json
  import opened Store

  type ConnId = nat

  datatype ReadyState = Connecting | Open | Closing | Closed

  /** `ClientInfo`: the fields of the join event, stored as received. */
  datatype ClientInfo = ClientInfo(userId: Field, roomId: Field)

  /** The four kinds of payload the server sends. */
  datatype Payload =
    | JoinConfirmation(roomId: Field)
    | PreviousMessages(messages: seq<Message>)
    | NewMessage(message: Message)
    | ErrorNotice(text: string)

  datatype Socket = Socket(readyState: ReadyState, outbox: seq<Payload>)

  const SaveFailed := "Failed to save message"

  /** The registry and the connections it may name. */
  datatype Net = Net(clients: map<ConnId, ClientInfo>, sockets: map<ConnId, Socket>)
  {
    predicate Valid()
    {
      clients.Keys <= sockets.Keys
    }
  }

  /** The registry and connections together with the message table. */
  datatype World = World(net: Net, rows: seq<Message>)

  /** `ws.send(p)`: appends `p` to the outbox of `ws` and to nothing else. */
  function Send(n: Net, ws: ConnId, p: Payload): (r: Net)
    requires ws in n.sockets
    ensures r.clients == n.clients && r.sockets.Keys == n.sockets.Keys
    ensures r.sockets[ws] == n.sockets[ws].(outbox := n.sockets[ws].outbox + [p])
    ensures forall c :: c in n.sockets && c != ws ==> r.sockets[c] == n.sockets[c]
  {
    n.(sockets := n.sockets[ws := n.sockets[ws].(outbox := n.sockets[ws].outbox + [p])])
  }

  /** The test of src/websocket.ts:185: registered for the room, and open. */
  predicate Receives(n: Net, c: ConnId, roomId: string)
  {
    c in n.clients && c in n.sockets && n.clients[c].roomId == Text(roomId) && n.sockets[c].readyState == Open
  }

  /** The sends of a broadcast to the connections of `among` that pass the test. */
  function DeliverAmong(n: Net, roomId: string, p: Payload, among: set<ConnId>): Net
  {
    n.(sockets := map c | c in n.sockets ::
         if c in among && Receives(n, c, roomId) then n.sockets[c].(outbox := n.sockets[c].outbox + [p])
         else n.sockets[c])
  }

  /** `broadcastToRoom(roomId, p)`: the sends over every registered connection. */
  function Broadcast(n: Net, roomId: string, p: Payload): (r: Net)
    ensures r.clients == n.clients && r.sockets.Keys == n.sockets.Keys
    ensures forall c :: c in n.sockets ==> r.sockets[c].readyState == n.sockets[c].readyState
    ensures forall c :: c in n.sockets && !Receives(n, c, roomId) ==> r.sockets[c] == n.sockets[c]
  {
    DeliverAmong(n, roomId, p, n.clients.Keys)
  }

  /** The sends of `sendPreviousMessages` once the history query has answered. */
  function Replay(n: Net, ws: ConnId, fetched: Option<seq<Message>>): (r: Net)
    requires ws in n.sockets
    ensures r.clients == n.clients && r.sockets.Keys == n.sockets.Keys
    ensures forall c :: c in n.sockets && c != ws ==> r.sockets[c] == n.sockets[c]
    ensures r.sockets[ws].readyState == n.sockets[ws].readyState
    ensures r.sockets[ws].outbox == n.sockets[ws].outbox + (if fetched.Some? then [PreviousMessages(fetched.value)] else [])
  {
    if fetched.Some? then Send(n, ws, PreviousMessages(fetched.value)) else n
  }

  /** `handleJoinRoom` once the history query has answered: register, confirm, then replay. */
  function JoinRoom(n: Net, ws: ConnId, userId: Field, roomId: Field, fetched: Option<seq<Message>>): (r: Net)
    requires ws in n.sockets
    ensures r.clients == n.clients[ws := ClientInfo(userId, roomId)]
    ensures r.sockets.Keys == n.sockets.Keys
    ensures forall c :: c in n.sockets && c != ws ==> r.sockets[c] == n.sockets[c]
    ensures r.sockets[ws].readyState == n.sockets[ws].readyState
    ensures r.sockets[ws].outbox == n.sockets[ws].outbox + [JoinConfirmation(roomId)] +
      (if fetched.Some? then [PreviousMessages(fetched.value)] else [])
  {
    var registered := n.(clients := n.clients[ws := ClientInfo(userId, roomId)]);
    Replay(Send(registered, ws, JoinConfirmation(roomId)), ws, fetched)
  }

  /** `handleJoinRoom`: the history is queried from the table as it stands, and the table is not written. */
  function JoinStep(w: World, ws: ConnId, userId: Field, roomId: Field, objectFilter: ObjectFilter, fault: bool): (r: World)
    requires ws in w.net.sockets
    ensures r.rows == w.rows
    ensures w.net.Valid() ==> r.net.Valid()
  {
    w.(net := JoinRoom(w.net, ws, userId, roomId, FindManyOutcome(w.rows, roomId, objectFilter, fault)))
  }

  /** `handleNewMessage`: nothing for an unregistered sender; else store, then broadcast or report. */
  function NewMessageStep(w: World, ws: ConnId, content: Field, userId: Field, roomId: Field, stamp: Stamp, fault: bool): (r: World)
    requires ws in w.net.sockets
    ensures r.net.clients == w.net.clients && r.net.sockets.Keys == w.net.sockets.Keys
    ensures |w.rows| <= |r.rows| <= |w.rows| + 1 && r.rows[..|w.rows|] == w.rows
    ensures |r.rows| == |w.rows| + 1 <==> ws in w.net.clients && CreateOutcome(content, userId, roomId, stamp, fault).Some?
  {
    if ws !in w.net.clients then w
    else
      var created := CreateOutcome(content, userId, roomId, stamp, fault);
      if created.Some? then World(Broadcast(w.net, roomId.s, NewMessage(created.value)), w.rows + [created.value])
      else World(Send(w.net, ws, ErrorNotice(SaveFailed)), w.rows)
  }

  // Properties of the protocol

  /**
   * A broadcast appends the payload to exactly the registered, open
   * connections of the room, and changes nothing else.
   */
  lemma BroadcastReachesExactlyTheRoom(n: Net, roomId: string, p: Payload)
    ensures Broadcast(n, roomId, p).clients == n.clients
    ensures Broadcast(n, roomId, p).sockets.Keys == n.sockets.Keys
    ensures forall c :: c in n.sockets ==>
      && Broadcast(n, roomId, p).sockets[c].readyState == n.sockets[c].readyState
      && Broadcast(n, roomId, p).sockets[c].outbox == n.sockets[c].outbox + (if Receives(n, c, roomId) then [p] else [])
  {
  }

  /** Two broadcasts to a room reach each of its members in the order they were made. */
  lemma BroadcastsArriveInOrder(n: Net, roomId: string, p1: Payload, p2: Payload, c: ConnId)
    requires Receives(n, c, roomId)
    ensures Broadcast(Broadcast(n, roomId, p1), roomId, p2).sockets[c].outbox == n.sockets[c].outbox + [p1, p2]
  {
    var n1 := Broadcast(n, roomId, p1);
    assert Receives(n1, c, roomId);
  }

  /**
   * A join records exactly the event's fields for the joining connection,
   * replacing any earlier entry, and leaves every other entry as it was.
   */
  lemma JoinReplacesEntry(w: World, ws: ConnId, userId: Field, roomId: Field, objectFilter: ObjectFilter, fault: bool)
    requires ws in w.net.sockets
    ensures JoinStep(w, ws, userId, roomId, objectFilter, fault).net.clients[ws] == ClientInfo(userId, roomId)
    ensures forall c :: c != ws ==>
      (c in JoinStep(w, ws, userId, roomId, objectFilter, fault).net.clients <==> c in w.net.clients)
    ensures forall c :: c != ws && c in w.net.clients ==>
      JoinStep(w, ws, userId, roomId, objectFilter, fault).net.clients[c] == w.net.clients[c]
    ensures JoinStep(w, ws, userId, roomId, objectFilter, fault).rows == w.rows
  {
  }

  /**
   * A join sends to the joining connection only: first the confirmation,
   * then exactly one `previous_messages` payload holding the history of the
   * room, or nothing more when the history query throws.
   */
  lemma JoinSendsOnlyToJoiner(w: World, ws: ConnId, userId: Field, roomId: Field, objectFilter: ObjectFilter, fault: bool)
    requires ws in w.net.sockets
    ensures var r := JoinStep(w, ws, userId, roomId, objectFilter, fault).net;
      && r.sockets.Keys == w.net.sockets.Keys
      && (forall c :: c in w.net.sockets && c != ws ==> r.sockets[c] == w.net.sockets[c])
      && r.sockets[ws].readyState == w.net.sockets[ws].readyState
      && r.sockets[ws].outbox == w.net.sockets[ws].outbox + [JoinConfirmation(roomId)] +
           (match Selection(roomId, objectFilter)
            case None => []
            case Some(sel) => if fault then [] else [PreviousMessages(History(w.rows, sel))])
  {
  }

  /**
   * A join without a roomId is not refused: `where: { roomId: undefined }`
   * selects every row, so the joiner is sent the oldest messages of the
   * whole table, whatever room they belong to, and all of them when there
   * are at most 50.
   */
  lemma JoinWithoutRoomReplaysEveryRoom(w: World, ws: ConnId, userId: Field, objectFilter: ObjectFilter)
    requires ws in w.net.sockets
    ensures var sel := Selection(Undefined, objectFilter).value;
      && Where(w.rows, sel) == w.rows
      && JoinStep(w, ws, userId, Undefined, objectFilter, false).net.sockets[ws].outbox
         == w.net.sockets[ws].outbox + [JoinConfirmation(Undefined), PreviousMessages(History(w.rows, sel))]
    ensures |w.rows| <= HistoryLimit ==>
      multiset(History(w.rows, Selection(Undefined, objectFilter).value)) == multiset(w.rows)
  {
    var sel := Selection(Undefined, objectFilter).value;
    SelectAllKeepsEverything(w.rows, sel);
    if |w.rows| <= HistoryLimit {
      HistoryKeepsAllOfSmallRoom(w.rows, sel);
    }
  }

  /** Rejoining leaves only the latest room: a later broadcast to the earlier room misses the connection. */
  lemma RejoinLeavesEarlierRoom(n: Net, ws: ConnId, userId1: Field, room1: string, fetched1: Option<seq<Message>>,
                                userId2: Field, room2: Field, fetched2: Option<seq<Message>>, p: Payload)
    requires ws in n.sockets
    requires room2 != Text(room1)
    ensures var n2 := JoinRoom(JoinRoom(n, ws, userId1, Text(room1), fetched1), ws, userId2, room2, fetched2);
      && n2.clients == n.clients[ws := ClientInfo(userId2, room2)]
      && Broadcast(n2, room1, p).sockets[ws] == n2.sockets[ws]
  {
    var n1 := JoinRoom(n, ws, userId1, Text(room1), fetched1);
    assert n1.clients == n.clients[ws := ClientInfo(userId1, Text(room1))];
    var n2 := JoinRoom(n1, ws, userId2, room2, fetched2);
    assert n2.clients == n1.clients[ws := ClientInfo(userId2, room2)];
    assert !Receives(n2, ws, room1);
  }

  /** A message event from a connection that never joined does nothing at all. */
  lemma UnregisteredSenderIsIgnored(w: World, ws: ConnId, content: Field, userId: Field, roomId: Field, stamp: Stamp, fault: bool)
    requires ws in w.net.sockets && ws !in w.net.clients
    ensures NewMessageStep(w, ws, content, userId, roomId, stamp, fault) == w
  {
  }

  /**
   * A stored message carries the event's content, userId and roomId and is
   * broadcast to the event's room, whatever the registry records for the
   * sender; the registry is unchanged.
   */
  lemma StoredMessageFollowsEvent(w: World, ws: ConnId, content: Field, userId: Field, roomId: Field, stamp: Stamp, fault: bool,
                                  recorded: ClientInfo)
    requires ws in w.net.sockets && ws in w.net.clients && w.net.clients[ws] == recorded
    requires !fault && content.Text? && userId.Text? && roomId.Text?
    ensures var r := NewMessageStep(w, ws, content, userId, roomId, stamp, fault);
      && |r.rows| == |w.rows| + 1 && r.rows[..|w.rows|] == w.rows
      && r.rows[|w.rows|].userId == userId.s
      && r.rows[|w.rows|].roomId == roomId.s
      && r.rows[|w.rows|].content == content.s
      && r.net == Broadcast(w.net, roomId.s, NewMessage(r.rows[|w.rows|]))
      && r.net.clients == w.net.clients
  {
    var r := NewMessageStep(w, ws, content, userId, roomId, stamp, fault);
    assert r.rows == w.rows + [r.rows[|w.rows|]];
  }

  /**
   * When storing fails, the sender alone receives exactly one error notice;
   * nothing is stored or broadcast.
   */
  lemma SaveFailureNotifiesSenderOnly(w: World, ws: ConnId, content: Field, userId: Field, roomId: Field, stamp: Stamp, fault: bool)
    requires ws in w.net.sockets && ws in w.net.clients
    requires CreateOutcome(content, userId, roomId, stamp, fault).None?
    ensures var r := NewMessageStep(w, ws, content, userId, roomId, stamp, fault);
      && r.rows == w.rows
      && r.net.clients == w.net.clients
      && r.net.sockets.Keys == w.net.sockets.Keys
      && (forall c :: c in w.net.sockets && c != ws ==> r.net.sockets[c] == w.net.sockets[c])
      && r.net.sockets[ws] == w.net.sockets[ws].(outbox := w.net.sockets[ws].outbox + [ErrorNotice(SaveFailed)])
  {
  }

  /** Every step keeps every registered connection a known connection. */
  lemma StepsKeepRegistryValid(w: World, ws: ConnId, content: Field, userId: Field, roomId: Field, stamp: Stamp,
                                objectFilter: ObjectFilter, fault: bool)
    requires w.net.Valid() && ws in w.net.sockets
    ensures JoinStep(w, ws, userId, roomId, objectFilter, fault).net.Valid()
    ensures NewMessageStep(w, ws, content, userId, roomId, stamp, fault).net.Valid()
  {
  }

  /**
   * The module-level state of src/websocket.ts: the `clients` map, and the
   * connections the WebSocket server has accepted.
   */
  class Hub {
    var clients: map<ConnId, ClientInfo>
    var sockets: map<ConnId, Socket>
    var nextConn: ConnId

    ghost predicate Valid()
      reads this
    {
      && clients.Keys <= sockets.Keys
      && forall c :: c in sockets ==> c < nextConn
    }

    function State(): Net
      reads this
    {
      Net(clients, sockets)
    }

    constructor ()
      ensures Valid() && clients == map[] && sockets == map[]
    {
      clients, sockets, nextConn := map[], map[], 0;
    }

    /** The WebSocket server accepts a connection: it is open and nothing has been sent to it. */
    method Accept() returns (ws: ConnId)
      requires Valid()
      modifies this
      ensures Valid() && ws !in old(sockets)
      ensures clients == old(clients) && sockets == old(sockets)[ws := Socket(Open, [])]
    {
      ws := nextConn;
      sockets := sockets[ws := Socket(Open, [])];
      nextConn := nextConn + 1;
    }

    /** The WebSocket library moves a connection to another ready state. */
    method SetReadyState(ws: ConnId, state: ReadyState)
      requires Valid() && ws in sockets
      modifies this
      ensures Valid() && nextConn == old(nextConn) && clients == old(clients)
      ensures sockets == old(sockets)[ws := old(sockets)[ws].(readyState := state)]
    {
      sockets := sockets[ws := sockets[ws].(readyState := state)];
    }

    /** `ws.send(JSON.stringify(p))`. */
    method SendTo(ws: ConnId, p: Payload)
      requires Valid() && ws in sockets
      modifies this
      ensures Valid() && nextConn == old(nextConn)
      ensures State() == Send(old(State()), ws, p)
    {
      sockets := sockets[ws := sockets[ws].(outbox := sockets[ws].outbox + [p])];
    }

    method HandleJoinRoom(ws: ConnId, userId: Field, roomId: Field, store: MessageStore, objectFilter: ObjectFilter, fault: bool)
      requires Valid() && ws in sockets
      modifies this
      ensures Valid() && nextConn == old(nextConn)
      ensures World(State(), store.rows) == JoinStep(World(old(State()), store.rows), ws, userId, roomId, objectFilter, fault)
    {
      clients := clients[ws := ClientInfo(userId, roomId)];
      SendTo(ws, JoinConfirmation(roomId));
      SendPreviousMessages(ws, roomId, store, objectFilter, fault);
    }

    method SendPreviousMessages(ws: ConnId, roomId: Field, store: MessageStore, objectFilter: ObjectFilter, fault: bool)
      requires Valid() && ws in sockets
      modifies this
      ensures Valid() && nextConn == old(nextConn)
      ensures State() == Replay(old(State()), ws, FindManyOutcome(store.rows, roomId, objectFilter, fault))
    {
      var messages := store.FindMany(roomId, objectFilter, fault);
      if messages.Some? {
        SendTo(ws, PreviousMessages(messages.value));
      }
    }

    method HandleNewMessage(ws: ConnId, content: Field, userId: Field, roomId: Field,
                            store: MessageStore, stamp: Stamp, fault: bool)
      requires Valid() && ws in sockets
      modifies this, store
      ensures Valid() && nextConn == old(nextConn)
      ensures World(State(), store.rows) ==
              NewMessageStep(World(old(State()), old(store.rows)), ws, content, userId, roomId, stamp, fault)
    {
      if ws !in clients {
        return;
      }
      var message := store.Create(content, userId, roomId, stamp, fault);
      if message.Some? {
        BroadcastToRoom(roomId.s, NewMessage(message.value));
      } else {
        SendTo(ws, ErrorNotice(SaveFailed));
      }
    }

    method BroadcastToRoom(roomId: string, p: Payload)
      requires Valid()
      modifies this
      ensures Valid() && nextConn == old(nextConn)
      ensures State() == Broadcast(old(State()), roomId, p)
    {
      ghost var before := State();
      var pending := clients.Keys;
      while pending != {}
        invariant pending <= clients.Keys
        invariant clients == before.clients && nextConn == old(nextConn)
        invariant State() == DeliverAmong(before, roomId, p, clients.Keys - pending)
        invariant Valid()
        decreases pending
      {
        var c :| c in pending;
        if clients[c].roomId == Text(roomId) && sockets[c].readyState == Open {
          sockets := sockets[c := sockets[c].(outbox := sockets[c].outbox + [p])];
        }
        pending := pending - {c};
      }
    }
  }
}
