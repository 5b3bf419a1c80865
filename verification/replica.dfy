/** A client's copy of the world and the three map reducers both clients
    apply to it (packages/client/app/store.ts, packages/ghost/src/Ghost.ts,
    packages/ghost/index.js). */
module Replica {
  import opened Wrappers
  import opened Geometry
  import opened Protocol

  /** A client-side player record. The client types make `avatarId`
      optional, and a record the local move creates from nothing has
      neither `id` nor `avatarId`. */
  datatype Entity = Entity(id: Option<Id>, position: Vec3, rotation: Vec3, avatarId: Option<string>)

  /** The replica: id to record. */
  type Players = map<Id, Entity>

  /** A server record as the client receives it. */
  function FromWire(p: PlayerState): Entity {
    Entity(Some(p.id), p.position, p.rotation, Some(p.avatarId))
  }

  /** A received snapshot, record by record. */
  function FromSnapshot(snap: map<Id, PlayerState>): (ps: Players)
    ensures ps.Keys == snap.Keys
    ensures forall k :: k in snap ==> ps[k] == FromWire(snap[k])
  {
    map k | k in snap :: FromWire(snap[k])
  }

  /** `player_joined`: insert the record under its own id, overwriting a
      duplicate delivery. */
  function Upsert(ps: Players, p: PlayerState): (r: Players)
    ensures r.Keys == ps.Keys + {p.id}
    ensures r[p.id] == FromWire(p)
    ensures forall k :: k in ps && k != p.id ==> r[k] == ps[k]
  {
    ps[p.id := FromWire(p)]
  }

  /** `player_moved`: for a known id overwrite the pose and keep `id` and
      `avatarId`; an unknown id is ignored. */
  function ApplyMoved(ps: Players, id: Id, position: Vec3, rotation: Vec3): (r: Players)
    ensures id !in ps ==> r == ps
    ensures r.Keys == ps.Keys
    ensures id in ps ==>
      && r[id].position == position && r[id].rotation == rotation
      && r[id].id == ps[id].id && r[id].avatarId == ps[id].avatarId
    ensures forall k :: k in ps && k != id ==> r[k] == ps[k]
  {
    if id in ps then ps[id := ps[id].(position := position, rotation := rotation)] else ps
  }

  /** `player_left`: delete the id; deleting an absent id changes nothing. */
  function Remove(ps: Players, id: Id): (r: Players)
    ensures r.Keys == ps.Keys - {id}
    ensures forall k :: k in r ==> r[k] == ps[k]
    ensures id !in ps ==> r == ps
  {
    ps - {id}
  }

  /** A second `player_left` for the same id is a no-op. */
  lemma RemoveIsIdempotent(ps: Players, id: Id)
    ensures Remove(Remove(ps, id), id) == Remove(ps, id)
  {
  }

  /** A `player_moved` that arrives after the `player_left` for its id is
      ignored. */
  lemma MovedAfterLeftIsIgnored(ps: Players, id: Id, position: Vec3, rotation: Vec3)
    ensures ApplyMoved(Remove(ps, id), id, position, rotation) == Remove(ps, id)
  {
  }

  /** The client reducers track the server's own transitions: upserting
      or moving a record on the replica of a world gives the replica of
      the updated world. */
  lemma ReducersTrackWorld(w: map<Id, PlayerState>, p: PlayerState, id: Id, position: Vec3, rotation: Vec3)
    ensures Upsert(FromSnapshot(w), p) == FromSnapshot(w[p.id := p])
    ensures id in w ==>
      ApplyMoved(FromSnapshot(w), id, position, rotation)
      == FromSnapshot(w[id := w[id].(position := position, rotation := rotation)])
    ensures Remove(FromSnapshot(w), id) == FromSnapshot(w - {id})
  {
  }
}
