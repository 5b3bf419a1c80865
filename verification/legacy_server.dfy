/** The earlier server, packages/server/index.js: the same spawn, snapshot,
    join, move and disconnect handlers, and no `chat` or `audio` handler,
    so those events are dropped. */
module LegacyServer {
  import opened Geometry
  import opened Protocol
  import Server

  /** One handler invocation of the earlier server. */
  function Step(w: Server.World, e: Server.Event): (t: Server.Transition)
    ensures (e.Chat? || e.Audio?) ==> t.world == w && t.outbox == []
    ensures e.Connect? ==>
      && t.world.Keys == w.Keys + {e.sender}
      && t.world[e.sender] == PlayerState(e.sender, Origin, Origin, DefaultAvatar)
      && t.outbox == [Outgoing(OnlyTo(e.sender), Init(t.world)),
                      Outgoing(AllBut(e.sender), PlayerJoined(t.world[e.sender]))]
    ensures e.Disconnect? ==>
      t.world.Keys == w.Keys - {e.sender} && t.outbox == [Outgoing(Everyone, PlayerLeft(e.sender))]
    ensures e.Move? && e.sender !in w ==> t.world == w && t.outbox == []
  {
    match e
    case Connect(id) =>
      var w' := w[id := PlayerState(id, Origin, Origin, DefaultAvatar)];
      Server.Transition(w', [Outgoing(OnlyTo(id), Init(w')), Outgoing(AllBut(id), PlayerJoined(w'[id]))])
    case Move(id, data) =>
      if id in w then
        var w' := w[id := w[id].(position := data.position, rotation := data.rotation)];
        var relayed := if data.id.Some? then data.id.value else id;
        Server.Transition(w', [Outgoing(AllBut(id), PlayerMoved(relayed, data.position, data.rotation))])
      else Server.Transition(w, [])
    case Disconnect(id) =>
      Server.Transition(w - {id}, [Outgoing(Everyone, PlayerLeft(id))])
    case Chat(_, _, _, _) => Server.Transition(w, [])
    case Audio(_, _) => Server.Transition(w, [])
  }

  /** On connect, move and disconnect the two servers agree exactly, world
      and outbox. */
  lemma AgreesWithServer(w: Server.World, e: Server.Event)
    requires !e.Chat? && !e.Audio?
    ensures Step(w, e) == Server.Step(w, e)
  {
  }

  /** The earlier server run over a sequence of events. */
  function Run(es: seq<Server.Event>): Server.Transition
    decreases |es|
  {
    if |es| == 0 then Server.Transition(map[], [])
    else
      var before := Run(es[..|es| - 1]);
      var t := Step(before.world, es[|es| - 1]);
      Server.Transition(t.world, before.outbox + t.outbox)
  }

  /** Without chat and audio traffic the earlier server is
      indistinguishable from the current one. */
  lemma {:induction false} RunAgreesWithServer(es: seq<Server.Event>)
    requires forall i :: 0 <= i < |es| ==> !es[i].Chat? && !es[i].Audio?
    ensures Run(es) == Server.Run(es)
    decreases |es|
  {
    if |es| > 0 {
      RunAgreesWithServer(es[..|es| - 1]);
      AgreesWithServer(Run(es[..|es| - 1]).world, es[|es| - 1]);
    }
  }
}
