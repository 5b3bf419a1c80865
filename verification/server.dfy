/** The authoritative world-state machine of packages/server/src/index.ts.

    The `players` record becomes an immutable map, and each socket event
    becomes a transition that returns the next map together with the
    messages the handler emits. The event loop runs one handler to
    completion before the next, so a run is a sequence of events. */
module Server {
  import opened Wrappers
  import opened Geometry
  import opened Protocol

  /** The world state: socket id to player record. */
  type World = map<Id, PlayerState>

  /** One handler invocation. `sender` is the socket the handler is bound
      to. `Chat` carries the socket's `data.name` and the clock reading
      `Date.now()` as inputs. */
  datatype Event =
    | Connect(sender: Id)
    | Move(sender: Id, data: MoveData)
    | Chat(sender: Id, name: Option<string>, text: string, now: int)
    | Audio(sender: Id, buffer: Bytes)
    | Disconnect(sender: Id)

  /** The next world and the messages emitted, in emission order. */
  datatype Transition = Transition(world: World, outbox: seq<Outgoing>)

  /** The record a new connection is given. */
  function Spawn(id: Id): PlayerState {
    PlayerState(id, Origin, Origin, DefaultAvatar)
  }

  /** `io.on('connection')`: spawn, unicast the snapshot, broadcast the
      newcomer. The snapshot is taken after the spawn, so it already holds
      the joiner's own record. */
  function OnConnect(w: World, id: Id): (t: Transition)
    ensures t.world.Keys == w.Keys + {id}
    ensures t.world[id] == PlayerState(id, Vec3(0.0, 0.0, 0.0), Vec3(0.0, 0.0, 0.0), "default_humanoid")
    ensures forall k :: k in w && k != id ==> t.world[k] == w[k]
    ensures |t.outbox| == 2
    ensures t.outbox[0].audience == OnlyTo(id) && t.outbox[0].msg == Init(t.world)
    ensures id in t.outbox[0].msg.players
    ensures t.outbox[1].audience == AllBut(id) && t.outbox[1].msg == PlayerJoined(t.world[id])
  {
    var w' := w[id := Spawn(id)];
    Transition(w', [Outgoing(OnlyTo(id), Init(w')), Outgoing(AllBut(id), PlayerJoined(w'[id]))])
  }

  /** `socket.on('move')`: overwrite the sender's pose and tell everyone
      else. A move from a socket with no record changes nothing and emits
      nothing. The relayed message is built as the source builds it, by
      spreading the payload over `{ id: socket.id }`, so a payload that
      carries an `id` is relayed under that id (see
      SpoofedMoveIsRelayedAsAnotherPlayer). */
  function OnMove(w: World, sender: Id, data: MoveData): (t: Transition)
    ensures sender !in w ==> t.world == w && t.outbox == []
    ensures t.world.Keys == w.Keys
    ensures forall k :: k in w && k != sender ==> t.world[k] == w[k]
    ensures sender in w ==>
      && t.world[sender].position == data.position
      && t.world[sender].rotation == data.rotation
      && t.world[sender].id == w[sender].id
      && t.world[sender].avatarId == w[sender].avatarId
    ensures sender in w ==>
      && |t.outbox| == 1
      && t.outbox[0].audience == AllBut(sender)
      && t.outbox[0].msg.PlayerMoved?
      && t.outbox[0].msg.position == data.position
      && t.outbox[0].msg.rotation == data.rotation
    ensures sender in w && data.id.Some? ==> t.outbox[0].msg.id == data.id.value
    ensures sender in w && data.id.None? ==>
      t.outbox == [Outgoing(AllBut(sender), PlayerMoved(sender, data.position, data.rotation))]
  {
    if sender in w then
      var p := w[sender].(position := data.position, rotation := data.rotation);
      Transition(w[sender := p], [Outgoing(AllBut(sender), RelayedMoveAsWritten(sender, data))])
    else
      Transition(w, [])
  }

  /** The `player_moved` payload the server is meant to broadcast: the
      sender's id with the payload's pose. */
  function RelayedMove(sender: Id, data: MoveData): (m: ServerMsg)
    ensures m.PlayerMoved? && m.id == sender
    ensures m.position == data.position && m.rotation == data.rotation
  {
    PlayerMoved(sender, data.position, data.rotation)
  }

  /** The `player_moved` payload as the source builds it,
      `{ id: socket.id, ...data }`: a later `id` property of the payload
      overrides the sender's id. */
  function RelayedMoveAsWritten(sender: Id, data: MoveData): (m: ServerMsg)
    ensures m.PlayerMoved?
    ensures m.position == data.position && m.rotation == data.rotation
    ensures data.id.None? ==> m == RelayedMove(sender, data)
    ensures data.id.Some? ==> m.id == data.id.value
  {
    PlayerMoved(data.id.GetOr(sender), data.position, data.rotation)
  }

  /** A client that adds `id: "b"` to its move payload makes every other
      client see player "b" move, although the server moved "a" and left
      "b" where it was. The intended relay names the sender. */
  lemma SpoofedMoveIsRelayedAsAnotherPlayer()
    ensures var w := map["a" := Spawn("a"), "b" := Spawn("b")];
            var data := MoveData(Vec3(1.0, 0.0, 0.0), Origin, Some("b"));
            var t := OnMove(w, "a", data);
            && t.outbox == [Outgoing(AllBut("a"), PlayerMoved("b", data.position, data.rotation))]
            && t.world["a"].position == data.position
            && t.world["b"] == Spawn("b")
            && RelayedMove("a", data).id == "a"
  {
  }

  /** `socket.on('chat')`: stamp the text with the sender and the clock
      and send it to every socket, the sender included. */
  function OnChat(w: World, sender: Id, name: Option<string>, text: string, now: int): (t: Transition)
    ensures t.world == w
    ensures |t.outbox| == 1 && t.outbox[0].audience == Everyone
    ensures t.outbox[0].msg.ChatBroadcast?
    ensures var c := t.outbox[0].msg.chat;
            c.senderId == sender && c.senderName == name && c.message == text && c.timestamp == now
  {
    Transition(w, [Outgoing(Everyone, ChatBroadcast(ChatMessage(sender, name, text, now)))])
  }

  /** `socket.on('audio')`: relay the bytes untouched, tagged with the
      sender, to every other socket. */
  function OnAudio(w: World, sender: Id, buffer: Bytes): (t: Transition)
    ensures t.world == w
    ensures t.outbox == [Outgoing(AllBut(sender), PlayerAudio(sender, buffer))]
  {
    Transition(w, [Outgoing(AllBut(sender), PlayerAudio(sender, buffer))])
  }

  /** `socket.on('disconnect')`: drop the record and tell every remaining
      socket. */
  function OnDisconnect(w: World, id: Id): (t: Transition)
    ensures t.world.Keys == w.Keys - {id}
    ensures forall k :: k in t.world ==> t.world[k] == w[k]
    ensures t.outbox == [Outgoing(Everyone, PlayerLeft(id))]
  {
    Transition(w - {id}, [Outgoing(Everyone, PlayerLeft(id))])
  }

  /** Removing a player twice leaves the same world as removing it once. */
  lemma DisconnectIsIdempotent(w: World, id: Id)
    ensures OnDisconnect(OnDisconnect(w, id).world, id).world == OnDisconnect(w, id).world
  {
  }

  /** A move that arrives after its sender's disconnect is dropped
      silently. */
  lemma LateMoveIsDropped(w: World, id: Id, data: MoveData)
    ensures var gone := OnDisconnect(w, id).world;
            OnMove(gone, id, data) == Transition(gone, [])
  {
  }

  /** Dispatch one event to its handler. A handler only ever touches the
      record of its own socket. */
  function Step(w: World, e: Event): (t: Transition)
    ensures forall k :: k != e.sender ==> (k in t.world <==> k in w)
    ensures forall k :: k != e.sender && k in w ==> t.world[k] == w[k]
  {
    match e
    case Connect(id) => OnConnect(w, id)
    case Move(id, data) => OnMove(w, id, data)
    case Chat(id, name, text, now) => OnChat(w, id, name, text, now)
    case Audio(id, buffer) => OnAudio(w, id, buffer)
    case Disconnect(id) => OnDisconnect(w, id)
  }

  /** The server after a sequence of events, starting from the empty world
      the process begins with; the outbox collects every emission in
      order. */
  function Run(es: seq<Event>): Transition
    decreases |es|
  {
    if |es| == 0 then Transition(map[], [])
    else
      var before := Run(es[..|es| - 1]);
      var t := Step(before.world, es[|es| - 1]);
      Transition(t.world, before.outbox + t.outbox)
  }

  /** Socket ids are fresh: a connection's id appears in no earlier event. */
  ghost predicate FreshIds(es: seq<Event>) {
    forall i, j :: 0 <= j < i < |es| && es[i].Connect? ==> es[j].sender != es[i].sender
  }

  /** Ids that have connected. */
  ghost function Opened(es: seq<Event>): set<Id> {
    set i | 0 <= i < |es| && es[i].Connect? :: es[i].sender
  }

  /** Ids that have disconnected. */
  ghost function Closed(es: seq<Event>): set<Id> {
    set i | 0 <= i < |es| && es[i].Disconnect? :: es[i].sender
  }

  /** The connections open after `es`. */
  ghost predicate IsOpen(c: Id, es: seq<Event>) {
    c in Opened(es) && c !in Closed(es)
  }

  lemma OpenedClosedSnoc(es: seq<Event>, e: Event)
    ensures Opened(es + [e]) == Opened(es) + (if e.Connect? then {e.sender} else {})
    ensures Closed(es + [e]) == Closed(es) + (if e.Disconnect? then {e.sender} else {})
  {
    var es' := es + [e];
    assert forall i :: 0 <= i < |es| ==> es'[i] == es[i];
    assert es'[|es|] == e;
  }

  /** The world holds exactly the connections that are open: no record
      survives its disconnect and every open socket has one. */
  lemma {:induction false} KeysAreOpenConnections(es: seq<Event>)
    requires FreshIds(es)
    ensures Run(es).world.Keys == Opened(es) - Closed(es)
    decreases |es|
  {
    if |es| > 0 {
      var p, e := es[..|es| - 1], es[|es| - 1];
      assert es == p + [e];
      assert FreshIds(p);
      KeysAreOpenConnections(p);
      OpenedClosedSnoc(p, e);
      if e.Connect? {
        forall j | 0 <= j < |p|
          ensures p[j].sender != e.sender
        {
          assert es[j] == p[j];
        }
        assert e.sender !in Closed(p);
      }
    }
  }

  /** Every record is filed under its own id and keeps the default
      avatar: no handler changes `id` or `avatarId`. */
  lemma {:induction false} RecordsAreSelfKeyed(es: seq<Event>)
    ensures forall k :: k in Run(es).world ==>
      Run(es).world[k].id == k && Run(es).world[k].avatarId == DefaultAvatar
    decreases |es|
  {
    if |es| > 0 {
      RecordsAreSelfKeyed(es[..|es| - 1]);
    }
  }
}
