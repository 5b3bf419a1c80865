/** The browser client's zustand store, packages/client/app/store.ts. Every
    `set` builds a new state, so each handler is a pure function here. */
module Store {
  import opened Wrappers
  import opened Geometry
  import opened Protocol
  import opened Replica

  /** `socket` is modelled by whether one exists; its id arrives with the
      transport's `connect` event and is copied into `myId`. */
  datatype StoreState = StoreState(hasSocket: bool, players: Players, myId: Option<Id>)

  /** What the store's socket delivers: the transport's `connect` with the
      id it was assigned, or a server message. */
  datatype Inbound = SocketConnected(sid: Id) | FromServer(msg: ServerMsg)

  /** The store before anything happens. */
  function Initial(): StoreState {
    StoreState(false, map[], None)
  }

  /** `connect()`: open a socket and register the handlers, unless a socket
      already exists. */
  function Connect(s: StoreState): (r: StoreState)
    ensures r.hasSocket
    ensures s.hasSocket ==> r == s
    ensures r.players == s.players && r.myId == s.myId
  {
    if s.hasSocket then s else s.(hasSocket := true)
  }

  /** Calling `connect()` a second time changes nothing. */
  lemma ConnectIsIdempotent(s: StoreState)
    ensures Connect(Connect(s)) == Connect(s)
  {
  }

  /** The socket handlers. Before `connect()` no handler is registered, so
      nothing is received; the store has no `chat` or `player_audio`
      handler. */
  function Receive(s: StoreState, m: Inbound): (r: StoreState)
    ensures r.hasSocket == s.hasSocket
    ensures !s.hasSocket ==> r == s
    ensures s.hasSocket && m.SocketConnected? ==> r == s.(myId := Some(m.sid))
    ensures s.hasSocket && m.FromServer? ==> r.myId == s.myId
    ensures s.hasSocket && m.FromServer? && m.msg.Init? ==> r.players == FromSnapshot(m.msg.players)
    ensures s.hasSocket && m.FromServer? && m.msg.PlayerJoined? ==>
      r.players == Upsert(s.players, m.msg.player)
    ensures s.hasSocket && m.FromServer? && m.msg.PlayerMoved? ==>
      r.players == ApplyMoved(s.players, m.msg.id, m.msg.position, m.msg.rotation)
    ensures s.hasSocket && m.FromServer? && m.msg.PlayerLeft? ==>
      r.players == Remove(s.players, m.msg.id)
    ensures m.FromServer? && (m.msg.ChatBroadcast? || m.msg.PlayerAudio?) ==> r == s
  {
    if !s.hasSocket then s
    else match m
      case SocketConnected(sid) => s.(myId := Some(sid))
      case FromServer(msg) =>
        match msg
        case Init(snap) => s.(players := FromSnapshot(snap))
        case PlayerJoined(p) => s.(players := Upsert(s.players, p))
        case PlayerMoved(id, position, rotation) => s.(players := ApplyMoved(s.players, id, position, rotation))
        case PlayerLeft(id) => s.(players := Remove(s.players, id))
        case ChatBroadcast(_) => s
        case PlayerAudio(_, _) => s
  }

  /** Apply a sequence of deliveries in order. */
  function ReceiveAll(s: StoreState, ms: seq<Inbound>): StoreState
    decreases |ms|
  {
    if |ms| == 0 then s else ReceiveAll(Receive(s, ms[0]), ms[1..])
  }

  /** `move(position, rotation)`: without a socket or an id nothing
      happens; otherwise the own record gets the new pose at once (keeping
      its other fields, or holding only the pose if there was no record)
      and exactly one `move` is sent. */
  function Move(s: StoreState, position: Vec3, rotation: Vec3): (r: (StoreState, seq<ClientMsg>))
    ensures !s.hasSocket || !IdIsSet(s.myId) ==> r == (s, [])
    ensures r.0.hasSocket == s.hasSocket && r.0.myId == s.myId
    ensures s.hasSocket && IdIsSet(s.myId) ==>
      var me := s.myId.value;
      && r.0.players.Keys == s.players.Keys + {me}
      && r.0.players[me].position == position
      && r.0.players[me].rotation == rotation
      && (me in s.players ==>
            r.0.players[me].id == s.players[me].id && r.0.players[me].avatarId == s.players[me].avatarId)
      && (me !in s.players ==> r.0.players[me] == Entity(None, position, rotation, None))
      && (forall k :: k in s.players && k != me ==> r.0.players[k] == s.players[k])
      && r.1 == [MoveMsg(MoveData(position, rotation, None))]
  {
    if !s.hasSocket || !IdIsSet(s.myId) then (s, [])
    else
      var me := s.myId.value;
      var prior := if me in s.players then s.players[me] else Entity(None, Origin, Origin, None);
      var mine := prior.(position := position, rotation := rotation);
      (s.(players := s.players[me := mine]), [MoveMsg(MovePayload(position, rotation))])
  }

  /** Before `connect()` a local move neither changes the store nor sends
      anything. */
  lemma MoveBeforeConnectIsNoOp(position: Vec3, rotation: Vec3)
    ensures Move(Initial(), position, rotation) == (Initial(), [])
  {
  }
}
