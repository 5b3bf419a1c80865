/** The keyboard step of packages/client/app/components/Controls.tsx: each
    frame, the held movement keys shift the own position on the ground
    plane, and the new pose goes through the store's `move`. */
module Controls {
  import opened Wrappers
  import opened Geometry
  import opened Protocol
  import opened Replica
  import Store

  /** The pose the frame hands to `move`. */
  datatype Pose = Pose(position: Vec3, rotation: Vec3)

  /** The held keys: the `KeyboardEvent.code`s whose last event was a
      key-down. */
  type Held = set<string>

  predicate Forward(keys: Held) { "KeyW" in keys || "ArrowUp" in keys }
  predicate Back(keys: Held) { "KeyS" in keys || "ArrowDown" in keys }
  predicate Left(keys: Held) { "KeyA" in keys || "ArrowLeft" in keys }
  predicate Right(keys: Held) { "KeyD" in keys || "ArrowRight" in keys }

  /** Is any movement key held? */
  predicate AnyMovement(keys: Held) {
    Forward(keys) || Back(keys) || Left(keys) || Right(keys)
  }

  /** The signed number of steps a pair of opposing keys asks for. */
  function Net(plus: bool, minus: bool): real {
    (if plus then 1.0 else 0.0) - (if minus then 1.0 else 0.0)
  }

  /** One `useFrame` tick: no pose without an id, without a record for it,
      or without a movement key; otherwise the current position moved by
      `5 * delta` per held direction (opposing keys cancel), the height
      kept, and the rotation reset to `[0, 0, 0]`. */
  function FrameIntent(myId: Option<Id>, players: Players, keys: Held, delta: real): (r: Option<Pose>)
    ensures (!IdIsSet(myId) || myId.value !in players || !AnyMovement(keys)) <==> r.None?
    ensures r.Some? ==>
      var p := players[myId.value].position;
      && r.value.position.x == p.x + 5.0 * delta * Net(Right(keys), Left(keys))
      && r.value.position.z == p.z + 5.0 * delta * Net(Back(keys), Forward(keys))
      && r.value.position.y == p.y
      && r.value.rotation == Vec3(0.0, 0.0, 0.0)
    ensures r.Some? && Forward(keys) && Back(keys) ==> r.value.position.z == players[myId.value].position.z
    ensures r.Some? && Left(keys) && Right(keys) ==> r.value.position.x == players[myId.value].position.x
  {
    if !IdIsSet(myId) || myId.value !in players then None
    else
      var speed := 5.0 * delta;
      var p := players[myId.value].position;
      var z1 := if Forward(keys) then p.z - speed else p.z;
      var z2 := if Back(keys) then z1 + speed else z1;
      var x1 := if Left(keys) then p.x - speed else p.x;
      var x2 := if Right(keys) then x1 + speed else x1;
      if AnyMovement(keys) then Some(Pose(Vec3(x2, p.y, z2), Origin)) else None
  }

  /** A frame against the store: the pose, if any, is passed to
      `Store.Move`, which writes it into the own record and sends it. */
  function Frame(s: Store.StoreState, keys: Held, delta: real): (r: (Store.StoreState, seq<ClientMsg>))
    ensures FrameIntent(s.myId, s.players, keys, delta).None? ==> r == (s, [])
    ensures FrameIntent(s.myId, s.players, keys, delta).Some? && s.hasSocket ==>
      var pose := FrameIntent(s.myId, s.players, keys, delta).value;
      && s.myId.value in r.0.players
      && r.0.players[s.myId.value].position == pose.position
      && r.0.players[s.myId.value].rotation == pose.rotation
      && r.1 == [MoveMsg(MoveData(pose.position, pose.rotation, None))]
  {
    match FrameIntent(s.myId, s.players, keys, delta)
    case None => (s, [])
    case Some(pose) => Store.Move(s, pose.position, pose.rotation)
  }
}
