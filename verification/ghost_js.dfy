/** The JavaScript twin of the agent client, packages/ghost/index.js. It
    has the same replica handlers, `move` and `look`, no `say`,
    `sendAudio` or `chat` handler, and two differences in detail: `init`
    leaves `me` `undefined` (not `null`) when the own id is missing, and
    `look()` reads `this.socket.id` without `?.`, so it throws when there
    is no socket and the replica is not empty. */
module GhostJs {
  import opened Wrappers
  import opened Geometry
  import opened Protocol
  import opened Replica
  import Ghost

  /** `me`: `null`, `undefined`, or a reference to `players[key]`. */
  datatype MeRef = Null | Undefined | Ref(key: Id)

  datatype GhostState = GhostState(link: Ghost.Link, players: Players, me: MeRef)

  /** The exception `look()` can raise. */
  datatype Fault = TypeError

  /** A freshly constructed ghost: `me` starts as `null`. */
  function Initial(): GhostState {
    GhostState(Ghost.NoSocket, map[], Null)
  }

  /** `connect()`: create the socket and register the handlers. */
  function Connect(g: GhostState): (r: GhostState)
    ensures r.link == Ghost.Pending && r.players == g.players && r.me == g.me
  {
    g.(link := Ghost.Pending)
  }

  /** The handlers registered in `connect()`. */
  function Receive(g: GhostState, m: Ghost.Inbound): (r: GhostState)
    ensures g.link == Ghost.NoSocket ==> r == g
    ensures m.FromServer? ==> r.link == g.link
    ensures g.link != Ghost.NoSocket && m.FromServer? && m.msg.Init? ==>
      && r.players == FromSnapshot(m.msg.players)
      && (Ghost.SocketKey(g.link) in m.msg.players ==> r.me == Ref(Ghost.SocketKey(g.link)))
      && (Ghost.SocketKey(g.link) !in m.msg.players ==> r.me == Undefined)
    ensures g.link != Ghost.NoSocket && m.FromServer? && m.msg.PlayerJoined? ==>
      r.players == Upsert(g.players, m.msg.player) && r.me == g.me
    ensures g.link != Ghost.NoSocket && m.FromServer? && m.msg.PlayerMoved? ==>
      r.players == ApplyMoved(g.players, m.msg.id, m.msg.position, m.msg.rotation) && r.me == g.me
    ensures g.link != Ghost.NoSocket && m.FromServer? && m.msg.PlayerLeft? ==>
      r.players == Remove(g.players, m.msg.id) && r.me == g.me
  {
    if g.link == Ghost.NoSocket then g
    else match m
      case SocketConnected(sid) => g.(link := Ghost.Live(sid))
      case FromServer(msg) =>
        match msg
        case Init(snap) =>
          var key := Ghost.SocketKey(g.link);
          g.(players := FromSnapshot(snap), me := if key in snap then Ref(key) else Undefined)
        case PlayerJoined(p) => g.(players := g.players[p.id := FromWire(p)])
        case PlayerMoved(id, position, rotation) =>
          if id in g.players then
            var prev := g.players[id];
            g.(players := g.players[id := prev.(position := position, rotation := rotation)])
          else g
        case PlayerLeft(id) => g.(players := g.players - {id})
        case ChatBroadcast(_) => g
        case PlayerAudio(_, _) => g
  }

  /** `me` as the TypeScript ghost holds it: `null` and `undefined` are
      both "no record". */
  function AsTs(g: GhostState): Ghost.GhostState {
    Ghost.GhostState(g.link, g.players, if g.me.Ref? then Some(g.me.key) else None)
  }

  /** `move(x, z)`, the same as the TypeScript ghost's. */
  function Move(g: GhostState, x: real, z: real): (r: (GhostState, seq<ClientMsg>))
    ensures g.link == Ghost.NoSocket ==> r == (g, [])
    ensures g.link != Ghost.NoSocket ==> r.1 == [MoveMsg(MoveData(Vec3(x, 0.0, z), Vec3(0.0, 0.0, 0.0), None))]
    ensures r.0.link == g.link && r.0.me == g.me && r.0.players.Keys == g.players.Keys
    ensures forall k :: k in g.players && Ref(k) != g.me ==> r.0.players[k] == g.players[k]
    ensures g.link != Ghost.NoSocket && g.me.Ref? && g.me.key in g.players ==>
      var mine := r.0.players[g.me.key];
      mine.position == Vec3(x, 0.0, z) && mine == g.players[g.me.key].(position := mine.position)
  {
    if g.link == Ghost.NoSocket then (g, [])
    else
      var position := Vec3(x, 0.0, z);
      var g' := if g.me.Ref? && g.me.key in g.players
                then g.(players := g.players[g.me.key := g.players[g.me.key].(position := position)])
                else g;
      (g', [MoveMsg(MovePayload(position, Origin))])
  }

  /** `look()`. The loop evaluates `this.socket.id` once per replica entry,
      so with no socket it throws as soon as there is an entry. */
  function Look(g: GhostState): (v: Result<Ghost.Perception, Fault>)
    ensures v.Err? <==> g.link == Ghost.NoSocket && |g.players| > 0
    ensures v.Ok? && g.me.Ref? && g.me.key in g.players ==> v.value.location == g.players[g.me.key].position
    ensures v.Ok? && !(g.me.Ref? && g.me.key in g.players) ==> v.value.location == Vec3(0.0, 0.0, 0.0)
    ensures v.Ok? ==> v.value.environment == "Terrain: Grassy Plains, Weather: Clear"
    ensures v.Ok? ==> forall id :: id in v.value.entities <==>
      id in g.players && !Ghost.IsOwn(g.link, id)
      && PlanarDistSq(g.players[id].position, v.value.location) < 2500.0
    ensures v.Ok? ==> forall id :: id in v.value.entities ==> v.value.entities[id] == g.players[id].position
  {
    if g.link == Ghost.NoSocket && |g.players| > 0 then Err(TypeError)
    else
      var here := Ghost.Location(AsTs(g));
      var seen := map id | id in g.players && !Ghost.IsOwn(g.link, id) && Ghost.Near(g.players[id].position, here)
                    :: g.players[id].position;
      Ok(Ghost.Perception(here, seen, Ghost.Environment))
  }

  /** The two ghosts' handlers are the same program up to `null` versus
      `undefined`: they agree once `me` is read as the TypeScript ghost
      reads it. */
  lemma ReceiveAgreesWithTs(g: GhostState, m: Ghost.Inbound)
    ensures AsTs(Receive(g, m)) == Ghost.Receive(AsTs(g), m)
  {
  }

  /** `move(x, z)` sends the same message and makes the same local update
      in both ghosts. */
  lemma MoveAgreesWithTs(g: GhostState, x: real, z: real)
    ensures AsTs(Move(g, x, z).0) == Ghost.Move(AsTs(g), x, z).0
    ensures Move(g, x, z).1 == Ghost.Move(AsTs(g), x, z).1
  {
  }

  /** With a socket, `look()` sees the same as the TypeScript ghost's. */
  lemma LookAgreesWithTs(g: GhostState)
    requires g.link != Ghost.NoSocket
    ensures Look(g) == Ok(Ghost.Look(AsTs(g)))
  {
    var v := Ghost.Look(AsTs(g));
    assert Look(g).value.entities == v.entities;
  }

  /** Unlike the TypeScript ghost, an `init` without the own id leaves
      `me` `undefined`, never `null`. */
  lemma InitNeverLeavesNull(g: GhostState, snap: map<Id, PlayerState>)
    requires g.link != Ghost.NoSocket
    ensures Receive(g, Ghost.FromServer(Init(snap))).me != Null
  {
  }
}
