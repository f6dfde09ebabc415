/**
 * The per-connection handlers that src/index.ts installs when the WebSocket
 * server accepts a connection: the `message` handler, which parses a frame
 * and dispatches on its `type`, and the `close` handler, which forgets the
 * connection. Each handler runs as one atomic step; logging is not modelled.
 */
module Server {
  import opened Json
  import opened Store
  import opened WebSocket

  /**
   * An inbound frame after `JSON.parse`. A frame that does not parse, or
   * parses to `null` (so that reading `data.type` throws), is Unparseable;
   * any other value is read property by property, a non-object value
   * reading `undefined` everywhere.
   */
  datatype Frame =
    | Unparseable
    | Parsed(kind: Field, userId: Field, roomId: Field, content: Field)

  /**
   * The database's answers during one event: they are not under the
   * server's control. `objectFilter` is how it reads a non-string roomId.
   */
  datatype Replies = Replies(historyFault: bool, objectFilter: ObjectFilter, stamp: Stamp, createFault: bool)

  /**
   * The `message` handler: the `switch (data.type)` of src/index.ts:66-77.
   * One frame stores at most one message, only ever appends to the table,
   * registers at most its own connection, and keeps the registry valid.
   */
  function Dispatch(w: World, ws: ConnId, frame: Frame, replies: Replies): (r: World)
    requires ws in w.net.sockets
    ensures r.net.sockets.Keys == w.net.sockets.Keys
    ensures |w.rows| <= |r.rows| <= |w.rows| + 1 && r.rows[..|w.rows|] == w.rows
    ensures r.net.clients.Keys <= w.net.clients.Keys + {ws}
    ensures forall c :: c in w.net.clients && c != ws ==> c in r.net.clients && r.net.clients[c] == w.net.clients[c]
    ensures w.net.Valid() ==> r.net.Valid()
  {
    match frame
    case Unparseable => w
    case Parsed(kind, userId, roomId, content) =>
      if kind == Text("join") then JoinStep(w, ws, userId, roomId, replies.objectFilter, replies.historyFault)
      else if kind == Text("message") then NewMessageStep(w, ws, content, userId, roomId, replies.stamp, replies.createFault)
      else w
  }

  /** The `close` handler: `clients.delete(ws)`. */
  function Disconnect(n: Net, ws: ConnId): (r: Net)
    ensures ws !in r.clients && r.clients.Keys == n.clients.Keys - {ws}
    ensures r.sockets == n.sockets
  {
    n.(clients := n.clients - {ws})
  }

  /** A frame that does not parse is caught and logged: nothing changes. */
  lemma UnparseableFrameChangesNothing(w: World, ws: ConnId, replies: Replies)
    requires ws in w.net.sockets
    ensures Dispatch(w, ws, Unparseable, replies) == w
  {
  }

  /** A frame of any other type is logged only: nothing changes. */
  lemma UnknownTypeChangesNothing(w: World, ws: ConnId, kind: Field, userId: Field, roomId: Field, content: Field, replies: Replies)
    requires ws in w.net.sockets
    requires kind != Text("join") && kind != Text("message")
    ensures Dispatch(w, ws, Parsed(kind, userId, roomId, content), replies) == w
  {
  }

  /**
   * A `join` frame registers whatever userId and roomId it carries, absent
   * or not strings included, and confirms the join to its sender.
   */
  lemma JoinFrameIsNotValidated(w: World, ws: ConnId, userId: Field, roomId: Field, content: Field, replies: Replies)
    requires ws in w.net.sockets
    ensures var r := Dispatch(w, ws, Parsed(Text("join"), userId, roomId, content), replies);
      && r.net.clients == w.net.clients[ws := ClientInfo(userId, roomId)]
      && r.rows == w.rows
      && |r.net.sockets[ws].outbox| > |w.net.sockets[ws].outbox|
      && r.net.sockets[ws].outbox[|w.net.sockets[ws].outbox|] == JoinConfirmation(roomId)
  {
    JoinSendsOnlyToJoiner(w, ws, userId, roomId, replies.objectFilter, replies.historyFault);
  }

  /** A `message` frame goes to the new-message handler with the frame's own fields. */
  lemma MessageFrameIsHandled(w: World, ws: ConnId, userId: Field, roomId: Field, content: Field, replies: Replies)
    requires ws in w.net.sockets
    ensures Dispatch(w, ws, Parsed(Text("message"), userId, roomId, content), replies)
         == NewMessageStep(w, ws, content, userId, roomId, replies.stamp, replies.createFault)
  {
  }

  /**
   * After `close`, the connection is out of the registry: no broadcast
   * reaches it and no frame it sent later stores or sends anything, whether
   * or not its socket is still open.
   */
  lemma ClosedConnectionIsForgotten(w: World, ws: ConnId, roomId: string, p: Payload,
                                    userId: Field, msgRoom: Field, content: Field, replies: Replies)
    requires ws in w.net.sockets
    ensures ws !in Disconnect(w.net, ws).clients
    ensures Broadcast(Disconnect(w.net, ws), roomId, p).sockets[ws] == w.net.sockets[ws]
    ensures var closed := w.(net := Disconnect(w.net, ws));
      Dispatch(closed, ws, Parsed(Text("message"), userId, msgRoom, content), replies) == closed
  {
    var n := Disconnect(w.net, ws);
    assert !Receives(n, ws, roomId);
  }

  /** Closing leaves every other registration and every socket as it was. */
  lemma CloseForgetsOnlyTheConnection(n: Net, ws: ConnId)
    ensures Disconnect(n, ws).sockets == n.sockets
    ensures forall c :: c != ws ==> (c in Disconnect(n, ws).clients <==> c in n.clients)
    ensures forall c :: c != ws && c in n.clients ==> Disconnect(n, ws).clients[c] == n.clients[c]
    ensures n.Valid() ==> Disconnect(n, ws).Valid()
  {
  }

  /** `ws.on('message', ...)` for the connection `ws`. */
  method OnMessage(hub: Hub, store: MessageStore, ws: ConnId, frame: Frame, replies: Replies)
    requires hub.Valid() && ws in hub.sockets
    modifies hub, store
    ensures hub.Valid() && hub.nextConn == old(hub.nextConn)
    ensures World(hub.State(), store.rows) == Dispatch(World(old(hub.State()), old(store.rows)), ws, frame, replies)
  {
    match frame
    case Unparseable =>
    case Parsed(kind, userId, roomId, content) =>
      if kind == Text("join") {
        hub.HandleJoinRoom(ws, userId, roomId, store, replies.objectFilter, replies.historyFault);
      } else if kind == Text("message") {
        hub.HandleNewMessage(ws, content, userId, roomId, store, replies.stamp, replies.createFault);
      }
  }

  /** `ws.on('close', ...)` for the connection `ws`. */
  method OnClose(hub: Hub, ws: ConnId)
    requires hub.Valid()
    modifies hub
    ensures hub.Valid() && hub.nextConn == old(hub.nextConn)
    ensures hub.State() == Disconnect(old(hub.State()), ws)
  {
    hub.clients := hub.clients - {ws};
  }
}
