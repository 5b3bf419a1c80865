/** The agent client, class `Ghost` of packages/ghost/src/Ghost.ts. The
    class mutates its state in place; here each handler returns the next
    state. `me` aliases the replica's own record after `init`, so it is
    modelled as a key into `players` rather than as a copy. */
module Ghost {
  import opened Wrappers
  import opened Geometry
  import opened Protocol
  import opened Replica

  /** The socket: none yet, created but not yet connected (its `id` is
      still `undefined`), or connected under an id. */
  datatype Link = NoSocket | Pending | Live(sid: Id)

  /** The replica plus `me`: `None` is `null`, `Some(k)` refers to the
      record `players[k]`. */
  datatype GhostState = GhostState(link: Link, players: Players, me: Option<Id>)

  /** What the socket delivers. */
  datatype Inbound = SocketConnected(sid: Id) | FromServer(msg: ServerMsg)

  /** The fixed description `look()` reports as the surroundings. */
  const Environment: string := "Terrain: Grassy Plains, Weather: Clear"

  /** A freshly constructed ghost. */
  function Initial(): GhostState {
    GhostState(NoSocket, map[], None)
  }

  /** `connect()`: create the socket and register the handlers. */
  function Connect(g: GhostState): (r: GhostState)
    ensures r.link == Pending && r.players == g.players && r.me == g.me
  {
    g.(link := Pending)
  }

  /** The property key `players[this.socket.id]` reads: the socket's id,
      or the string "undefined" while the id is not yet known. */
  function SocketKey(l: Link): Id {
    if l.Live? then l.sid else "undefined"
  }

  /** Is `id` this ghost's own socket id (`id === this.socket?.id`)? */
  predicate IsOwn(l: Link, id: Id) {
    l.Live? && l.sid == id
  }

  /** The handlers registered in `connect()`. A `chat` is only re-emitted to
      the ghost's listeners and leaves the state alone; there is no
      `player_audio` handler. */
  function Receive(g: GhostState, m: Inbound): (r: GhostState)
    ensures g.link == NoSocket ==> r == g
    ensures g.link != NoSocket && m.SocketConnected? ==> r == g.(link := Live(m.sid))
    ensures m.FromServer? ==> r.link == g.link
    ensures g.link != NoSocket && m.FromServer? && m.msg.Init? ==>
      && r.players == FromSnapshot(m.msg.players)
      && (SocketKey(g.link) in m.msg.players ==> r.me == Some(SocketKey(g.link)))
      && (SocketKey(g.link) !in m.msg.players ==> r.me == None)
    ensures g.link != NoSocket && m.FromServer? && m.msg.PlayerJoined? ==>
      r.players == Upsert(g.players, m.msg.player) && r.me == g.me
    ensures g.link != NoSocket && m.FromServer? && m.msg.PlayerMoved? ==>
      r.players == ApplyMoved(g.players, m.msg.id, m.msg.position, m.msg.rotation) && r.me == g.me
    ensures g.link != NoSocket && m.FromServer? && m.msg.PlayerLeft? ==>
      r.players == Remove(g.players, m.msg.id) && r.me == g.me
    ensures m.FromServer? && (m.msg.ChatBroadcast? || m.msg.PlayerAudio?) ==> r == g
  {
    if g.link == NoSocket then g
    else match m
      case SocketConnected(sid) => g.(link := Live(sid))
      case FromServer(msg) =>
        match msg
        case Init(snap) =>
          var key := SocketKey(g.link);
          g.(players := FromSnapshot(snap), me := if key in snap then Some(key) else None)
        case PlayerJoined(p) => g.(players := g.players[p.id := FromWire(p)])
        case PlayerMoved(id, position, rotation) =>
          if id in g.players then
            var prev := g.players[id];
            g.(players := g.players[id := prev.(position := position, rotation := rotation)])
          else g
        case PlayerLeft(id) => g.(players := g.players - {id})
        case ChatBroadcast(_) => g
        case PlayerAudio(_, _) => g
  }

  /** The record `me` refers to, if any. */
  function Me(g: GhostState): Option<Entity> {
    if g.me.Some? && g.me.value in g.players then Some(g.players[g.me.value]) else None
  }

  /** `move(x, z)`: without a socket nothing happens. Otherwise the pose
      `[x, 0, z]` with rotation `[0, 0, 0]` is sent, and the own record's
      position (only the position) is updated if `me` is set. */
  function Move(g: GhostState, x: real, z: real): (r: (GhostState, seq<ClientMsg>))
    ensures g.link == NoSocket ==> r == (g, [])
    ensures g.link != NoSocket ==> r.1 == [MoveMsg(MoveData(Vec3(x, 0.0, z), Vec3(0.0, 0.0, 0.0), None))]
    ensures r.0.link == g.link && r.0.me == g.me && r.0.players.Keys == g.players.Keys
    ensures forall k :: k in g.players && Some(k) != g.me ==> r.0.players[k] == g.players[k]
    ensures g.link != NoSocket && Me(g).Some? ==>
      var mine := r.0.players[g.me.value];
      mine.position == Vec3(x, 0.0, z) && mine == Me(g).value.(position := mine.position)
    ensures Me(g).None? ==> r.0 == g
  {
    if g.link == NoSocket then (g, [])
    else
      var position := Vec3(x, 0.0, z);
      var g' := if Me(g).Some? then g.(players := g.players[g.me.value := Me(g).value.(position := position)]) else g;
      (g', [MoveMsg(MovePayload(position, Origin))])
  }

  /** `say(message)`: send the text, unless there is no socket. */
  function Say(g: GhostState, message: string): (out: seq<ClientMsg>)
    ensures g.link == NoSocket <==> out == []
    ensures g.link != NoSocket ==> out == [ChatText(message)]
  {
    if g.link == NoSocket then [] else [ChatText(message)]
  }

  /** `sendAudio(buffer)`: send the bytes, unless there is no socket. */
  function SendAudio(g: GhostState, buffer: Bytes): (out: seq<ClientMsg>)
    ensures g.link == NoSocket <==> out == []
    ensures g.link != NoSocket ==> out == [AudioBytes(buffer)]
  {
    if g.link == NoSocket then [] else [AudioBytes(buffer)]
  }

  /** What `look()` returns, without the formatted distance strings:
      the ghost's location, the nearby entities by id with their positions,
      and the fixed environment text. */
  datatype Perception = Perception(location: Vec3, entities: map<Id, Vec3>, environment: string)

  /** The ghost's position, `[0, 0, 0]` when `me` is null. */
  function Location(g: GhostState): Vec3 {
    if Me(g).Some? then Me(g).value.position else Origin
  }

  /** The vision radius is 50: `Math.sqrt(dx*dx + dz*dz) < 50`, compared
      here without the root. */
  predicate Near(p: Vec3, from: Vec3) {
    PlanarDistSq(p, from) < 2500.0
  }

  /** `look()`: every other player whose ground-plane distance from the
      ghost is below 50. */
  function Look(g: GhostState): (v: Perception)
    ensures v.location == (if Me(g).Some? then Me(g).value.position else Vec3(0.0, 0.0, 0.0))
    ensures v.environment == "Terrain: Grassy Plains, Weather: Clear"
    ensures g.link.Live? ==> g.link.sid !in v.entities
    ensures forall id :: id in v.entities <==>
      id in g.players && !IsOwn(g.link, id) && PlanarDistSq(g.players[id].position, v.location) < 2500.0
    ensures forall id :: id in v.entities ==> v.entities[id] == g.players[id].position
  {
    var here := Location(g);
    var seen := map id | id in g.players && !IsOwn(g.link, id) && Near(g.players[id].position, here)
                  :: g.players[id].position;
    Perception(here, seen, Environment)
  }

  /** Comparing the squared distance with 2500 selects the same entities
      as the source's `Math.sqrt(...) < 50`: for the non-negative root `d`
      of the squared distance, `d < 50` exactly when the square is below
      2500. */
  lemma {:induction false} NearMatchesRootTest(p: Vec3, from: Vec3, d: real)
    requires d >= 0.0 && d * d == PlanarDistSq(p, from)
    ensures Near(p, from) <==> d < 50.0
  {
    if d < 50.0 {
      assert d * d <= d * 50.0 < 50.0 * 50.0;
    } else {
      assert d * d >= d * 50.0 >= 50.0 * 50.0;
    }
  }
}
