/** The records and the message vocabulary shared by the server and its
    clients (packages/server/src/types.ts). */
module Protocol {
  import opened Wrappers
  import opened Geometry

  /** A socket id: opaque, assigned by the transport at connection time. */
  type Id = string

  /** Raw audio bytes, relayed untouched. */
  type Bytes = seq<bv8>

  /** The avatar every new player is given at spawn. */
  const DefaultAvatar: string := "default_humanoid"

  /** The server's record of one connected player. */
  datatype PlayerState = PlayerState(id: Id, position: Vec3, rotation: Vec3, avatarId: string)

  /** The `move` payload as it reaches the server: the pose, plus an `id`
      property that the project's own clients never send but a
      non-conforming client can add to the JSON object. */
  datatype MoveData = MoveData(position: Vec3, rotation: Vec3, id: Option<Id>)

  /** A chat line as the server stamps and broadcasts it. */
  datatype ChatMessage = ChatMessage(senderId: Id, senderName: Option<string>, message: string, timestamp: int)

  /** Server-to-client messages. */
  datatype ServerMsg =
    | Init(players: map<Id, PlayerState>)
    | PlayerJoined(player: PlayerState)
    | PlayerMoved(id: Id, position: Vec3, rotation: Vec3)
    | PlayerLeft(id: Id)
    | ChatBroadcast(chat: ChatMessage)
    | PlayerAudio(id: Id, buffer: Bytes)

  /** Who an emitted message is addressed to: `socket.emit` (the one
      socket), `socket.broadcast.emit` (every open socket but one) and
      `io.emit` (every open socket). */
  datatype Audience = OnlyTo(target: Id) | AllBut(excluded: Id) | Everyone

  /** One entry of the server's outbox. */
  datatype Outgoing = Outgoing(audience: Audience, msg: ServerMsg)

  /** Client-to-server messages. */
  datatype ClientMsg = MoveMsg(data: MoveData) | ChatText(text: string) | AudioBytes(buffer: Bytes)

  /** Does a message with audience `a` go to the open socket `c`? */
  predicate Reaches(a: Audience, c: Id) {
    match a
    case OnlyTo(t) => t == c
    case AllBut(x) => x != c
    case Everyone => true
  }

  /** JavaScript truthiness of a `string | null` id: `null` and `""` are
      both falsy. */
  predicate IdIsSet(id: Option<Id>) {
    id.Some? && id.value != ""
  }

  /** The payload a conforming client sends for a move. */
  function MovePayload(position: Vec3, rotation: Vec3): MoveData {
    MoveData(position, rotation, None)
  }
}
