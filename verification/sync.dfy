/** The server and its clients together, under lock-step delivery: the
    server processes one event at a time, and every socket receives what
    that event's handler addressed to it before the server takes the next
    event. Under that delivery a browser client's replica is exactly the
    server's world. */
module Sync {
  import opened Wrappers
  import opened Geometry
  import opened Protocol
  import opened Replica
  import Server
  import Store
  import Ghost

  /** The messages of an outbox that the open socket `c` receives, in
      order. */
  function Inbox(c: Id, out: seq<Outgoing>): (r: seq<Store.Inbound>)
    ensures forall i :: 0 <= i < |r| ==> r[i].FromServer?
    decreases |out|
  {
    if |out| == 0 then []
    else (if Reaches(out[0].audience, c) then [Store.FromServer(out[0].msg)] else []) + Inbox(c, out[1..])
  }

  /** What the client on socket `c` does with one server step: its own
      move first, then its inbox. */
  function ClientStep(c: Id, s: Store.StoreState, w: Server.World, e: Server.Event): Store.StoreState {
    var s1 := if e.Move? && e.sender == c then Store.Move(s, e.data.position, e.data.rotation).0 else s;
    Store.ReceiveAll(s1, Inbox(c, Server.Step(w, e).outbox))
  }

  /** The store of the browser client on socket `c` while the server runs
      `es`. The transport has already bound `c`; the client sees nothing
      until the server accepts its connection and nothing after it closes.
      A `move` of its own is applied locally before the server sees it
      (the optimistic update); then the client takes what the server's
      step addressed to it. */
  ghost function ClientRun(c: Id, es: seq<Server.Event>): Store.StoreState
    decreases |es|
  {
    if |es| == 0 then Store.Receive(Store.Connect(Store.Initial()), Store.SocketConnected(c))
    else
      var p, e := es[..|es| - 1], es[|es| - 1];
      var s := ClientRun(c, p);
      if Server.IsOpen(c, es) then ClientStep(c, s, Server.Run(p).world, e) else s
  }

  lemma {:induction false} ReceiveAllKeepsIdentity(s: Store.StoreState, ms: seq<Store.Inbound>)
    requires forall i :: 0 <= i < |ms| ==> ms[i].FromServer?
    ensures Store.ReceiveAll(s, ms).hasSocket == s.hasSocket
    ensures Store.ReceiveAll(s, ms).myId == s.myId
    decreases |ms|
  {
    if |ms| > 0 {
      ReceiveAllKeepsIdentity(Store.Receive(s, ms[0]), ms[1..]);
    }
  }

  /** The client keeps its socket and its id throughout. */
  lemma {:induction false} ClientKeepsIdentity(c: Id, es: seq<Server.Event>)
    ensures ClientRun(c, es).hasSocket && ClientRun(c, es).myId == Some(c)
    decreases |es|
  {
    if |es| > 0 {
      var p, e := es[..|es| - 1], es[|es| - 1];
      ClientKeepsIdentity(c, p);
      if Server.IsOpen(c, es) {
        var s := ClientRun(c, p);
        var s1 := if e.Move? && e.sender == c then Store.Move(s, e.data.position, e.data.rotation).0 else s;
        ReceiveAllKeepsIdentity(s1, Inbox(c, Server.Step(Server.Run(p).world, e).outbox));
        assert ClientRun(c, es) == ClientStep(c, s, Server.Run(p).world, e);
      }
    }
  }

  lemma ReceiveOne(s: Store.StoreState, m: Store.Inbound)
    ensures Store.ReceiveAll(s, [m]) == Store.Receive(s, m)
  {
    assert [m][1..] == [];
  }

  /** Its own connection hands the client the whole post-spawn world. */
  lemma JoinTracked(c: Id, s: Store.StoreState, w: Server.World)
    requires s.hasSocket
    ensures ClientStep(c, s, w, Server.Connect(c)).players == FromSnapshot(Server.Step(w, Server.Connect(c)).world)
  {
    var t := Server.OnConnect(w, c);
    assert t.outbox[1..][1..] == [];
    assert Inbox(c, t.outbox[1..][1..]) == [];
    assert Inbox(c, t.outbox[1..]) == [];
    assert Inbox(c, t.outbox) == [Store.FromServer(Init(t.world))];
    ReceiveOne(s, Store.FromServer(Init(t.world)));
  }

  lemma OtherJoinTracked(c: Id, s: Store.StoreState, w: Server.World, x: Id)
    requires s.hasSocket && s.players == FromSnapshot(w) && x != c
    ensures ClientStep(c, s, w, Server.Connect(x)).players == FromSnapshot(Server.Step(w, Server.Connect(x)).world)
  {
    var t := Server.OnConnect(w, x);
    assert t.outbox[1..][1..] == [];
    assert Inbox(c, t.outbox[1..][1..]) == [];
    assert Inbox(c, t.outbox[1..]) == [Store.FromServer(PlayerJoined(Server.Spawn(x)))];
    assert Inbox(c, t.outbox) == [Store.FromServer(PlayerJoined(Server.Spawn(x)))];
    ReceiveOne(s, Store.FromServer(PlayerJoined(Server.Spawn(x))));
    ReducersTrackWorld(w, Server.Spawn(x), x, Origin, Origin);
  }

  lemma MoveTracked(c: Id, s: Store.StoreState, w: Server.World, x: Id, d: MoveData)
    requires d.id.None?
    requires s.hasSocket && s.myId == Some(c) && c != "" && c in w && s.players == FromSnapshot(w)
    ensures ClientStep(c, s, w, Server.Move(x, d)).players == FromSnapshot(Server.Step(w, Server.Move(x, d)).world)
  {
    var t := Server.OnMove(w, x, d);
    if x == c {
      assert Inbox(c, t.outbox) == [];
      var s1 := Store.Move(s, d.position, d.rotation).0;
      assert s1.players == FromSnapshot(t.world);
    } else if x in w {
      assert Inbox(c, t.outbox) == [Store.FromServer(PlayerMoved(x, d.position, d.rotation))];
      ReceiveOne(s, Store.FromServer(PlayerMoved(x, d.position, d.rotation)));
      ReducersTrackWorld(w, w[x], x, d.position, d.rotation);
    } else {
      assert Inbox(c, t.outbox) == [];
    }
  }

  lemma RelayTracked(c: Id, s: Store.StoreState, w: Server.World, e: Server.Event)
    requires e.Chat? || e.Audio? || (e.Disconnect? && e.sender != c)
    requires s.hasSocket && s.players == FromSnapshot(w)
    ensures ClientStep(c, s, w, e).players == FromSnapshot(Server.Step(w, e).world)
  {
    var t := Server.Step(w, e);
    if e.Audio? && e.sender == c {
      assert Inbox(c, t.outbox) == [];
    } else {
      var m := Store.FromServer(t.outbox[0].msg);
      assert Inbox(c, t.outbox) == [m];
      ReceiveOne(s, m);
      if e.Disconnect? {
        ReducersTrackWorld(w, Server.Spawn(c), e.sender, Origin, Origin);
      }
    }
  }

  lemma OpenBefore(c: Id, p: seq<Server.Event>, e: Server.Event)
    requires Server.IsOpen(c, p + [e]) && e != Server.Connect(c)
    ensures Server.IsOpen(c, p) && e != Server.Disconnect(c)
  {
    Server.OpenedClosedSnoc(p, e);
  }

  lemma FreshPrefix(p: seq<Server.Event>, e: Server.Event)
    requires Server.FreshIds(p + [e])
    ensures Server.FreshIds(p)
  {
    var es := p + [e];
    assert forall i :: 0 <= i < |p| ==> es[i] == p[i];
  }

  /** Every `move` payload is pose only, as the store and the ghosts send
      it: none carries an `id` of its own. */
  predicate HonestMoves(es: seq<Server.Event>) {
    forall i :: 0 <= i < |es| && es[i].Move? ==> es[i].data.id.None?
  }

  lemma HonestPrefix(p: seq<Server.Event>, e: Server.Event)
    requires HonestMoves(p + [e])
    ensures HonestMoves(p) && (e.Move? ==> e.data.id.None?)
  {
    var es := p + [e];
    assert forall i :: 0 <= i < |p| ==> es[i] == p[i];
    assert es[|p|] == e;
  }

  /** Replica convergence: for every socket that is open, the client's
      replica equals the server's world, record for record, after every
      event. */
  lemma {:induction false} ReplicaMatchesServer(c: Id, es: seq<Server.Event>)
    requires Server.FreshIds(es) && Server.IsOpen(c, es) && c != ""
    requires HonestMoves(es)
    ensures ClientRun(c, es).players == FromSnapshot(Server.Run(es).world)
    decreases |es|
  {
    var p, e := es[..|es| - 1], es[|es| - 1];
    assert es == p + [e];
    ClientKeepsIdentity(c, p);
    var s, w := ClientRun(c, p), Server.Run(p).world;
    assert ClientRun(c, es) == ClientStep(c, s, w, e);
    if e == Server.Connect(c) {
      JoinTracked(c, s, w);
    } else {
      FreshPrefix(p, e);
      HonestPrefix(p, e);
      OpenBefore(c, p, e);
      ReplicaMatchesServer(c, p);
      Server.KeysAreOpenConnections(p);
      match e
      case Connect(x) => OtherJoinTracked(c, s, w, x);
      case Move(x, d) => MoveTracked(c, s, w, x, d);
      case Chat(_, _, _, _) => RelayTracked(c, s, w, e);
      case Audio(_, _) => RelayTracked(c, s, w, e);
      case Disconnect(_) => RelayTracked(c, s, w, e);
    }
  }

  /** Two clients connect in turn. The second one's `init` snapshot holds
      both of them (its own record included), and the first one is sent
      the second's record. */
  lemma TwoJoiners()
    ensures var out := Server.Run([Server.Connect("a"), Server.Connect("b")]).outbox;
      && |out| == 4
      && out[2].audience == OnlyTo("b")
      && out[2].msg.Init? && out[2].msg.players.Keys == {"a", "b"}
      && out[3] == Outgoing(AllBut("b"), PlayerJoined(PlayerState("b", Origin, Origin, DefaultAvatar)))
      && Reaches(out[3].audience, "a") && !Reaches(out[3].audience, "b")
  {
    var es := [Server.Connect("a"), Server.Connect("b")];
    assert es[..1] == [Server.Connect("a")];
    assert es[..1][..0] == [];
  }

  /** A ghost's `move(x, z)` reaches the world: the server stores the pose
      `[x, 0, z]` with rotation `[0, 0, 0]` for the ghost's socket and
      relays it under that socket's id to everyone else. */
  lemma GhostMoveReachesWorld(g: Ghost.GhostState, w: Server.World, x: real, z: real)
    requires g.link.Live? && g.link.sid in w
    ensures var sent := Ghost.Move(g, x, z).1;
      && |sent| == 1 && sent[0].MoveMsg?
      && var t := Server.OnMove(w, g.link.sid, sent[0].data);
      && t.world[g.link.sid].position == Vec3(x, 0.0, z)
      && t.world[g.link.sid].rotation == Origin
      && t.outbox == [Outgoing(AllBut(g.link.sid), PlayerMoved(g.link.sid, Vec3(x, 0.0, z), Origin))]
  {
  }
}
