/** What frames still under way to a port that is used again do to a porthopper client, and only they. */
module HopperStale {
  import opened HopperCodec
  import opened HopperModel
  import opened HopperHandover
  import S = HopperSubscriptions

  // ----- when a client is misled -----------------------------------------------------------------------------

  /** The client whose socket a step opens. */
  function Opener(w: World, e: Event): nat
    requires e.Connect? || e.Hop?
  {
    if e.Connect? then |w.clients| else e.id
  }

  /** A client with these ports has taken a frame at the last of them, and so has closed any socket before it,
      although the server has not handled its request to send there. */
  predicate Misled(c: Client, ports: seq<Port>) {
    c.ports == ports && c.handled < |ports| && !c.switching && (|ports| >= 2 || c.count > 0)
  }

  /** The continuation of a run after the opening `e` leads to that. */
  ghost predicate Misleads(w: World, e: Event, run: seq<World>, events: seq<Event>)
    requires Enabled(w, e) && (e.Connect? || e.Hop?)
  {
    var i := Opener(w, e);
    && PolitePath(run, events) && run[0] == Step(w, e)
    && i < |run[|events|].clients| && Misled(run[|events|].clients[i], run[0].clients[i].ports)
  }

  ghost predicate MayMislead(w: World, e: Event)
    requires Enabled(w, e) && (e.Connect? || e.Hop?)
  {
    exists run, events :: Misleads(w, e, run, events)
  }

  /** A datagram is under way to the endpoint. */
  ghost predicate Awaits(w: World, e: Endpoint) {
    exists d :: d in w.network && d.to == e
  }

  /** A request of the client for this endpoint has not been handled. */
  predicate Asks(c: Client, e: Endpoint) {
    exists k :: c.handled <= k < |c.ports| && At(c, k) == e
  }

  ghost predicate OthersAsk(w: World, i: nat, e: Endpoint) {
    exists j :: 0 <= j < |w.clients| && j != i && Asks(w.clients[j], e)
  }

  /** The client has opened its latest socket, on this endpoint, and taken no frame there. */
  predicate Untouched(c: Client, e: Endpoint) {
    c.ports != [] && e == At(c, |c.ports| - 1) && (if |c.ports| >= 2 then c.switching else c.count == 0)
  }

  /** So has client `i`, and nothing has been sent there and nobody else has asked for it. */
  ghost predicate Unanswered(w: World, i: nat, e: Endpoint) {
    i < |w.clients| && Untouched(w.clients[i], e) && e !in w.subscribers && !Awaits(w, e) && !OthersAsk(w, i, e)
  }

  lemma AsksUpdate(w: World, v: World, i: nat, j: nat, e: Endpoint)
    requires !OthersAsk(w, i, e) && j < |v.clients| && (j == i || !Asks(v.clients[j], e))
    requires forall k | 0 <= k < |v.clients| && k != j :: k < |w.clients| && v.clients[k] == w.clients[k]
    ensures !OthersAsk(v, i, e)
  {
    forall k | 0 <= k < |v.clients| && k != i
      ensures !Asks(v.clients[k], e)
    {
      var c := v.clients[k];
      assert k != j ==> c == w.clients[k];
    }
  }

  /** A client asks for nothing new, but perhaps for one other port. */
  lemma AsksKept(c: Client, d: Client, e: Endpoint)
    requires d.address == c.address && c.handled <= d.handled && c.ports <= d.ports
    requires d.ports != c.ports ==> |d.ports| == |c.ports| + 1 && At(d, |c.ports|) != e
    ensures Asks(d, e) ==> Asks(c, e)
  {
    if Asks(d, e) {
      var k :| d.handled <= k < |d.ports| && At(d, k) == e;
      assert At(c, k) == e;
    }
  }

  lemma OpenUnanswered(w: World, e: Event, i: nat, to: Endpoint)
    requires Unanswered(w, i, to) && Enabled(w, e) && Polite(w, e) && (e.Connect? || e.Hop?)
    ensures Unanswered(Step(w, e), i, to)
  {
    assert Receives(w.clients[i], to);
    assert !Opens(w, e, to);
    var v := Step(w, e);
    if e.Connect? {
      AsksUpdate(w, v, i, |w.clients|, to);
    } else {
      AsksKept(w.clients[e.id], v.clients[e.id], to);
      AsksUpdate(w, v, i, e.id, to);
    }
  }

  lemma HandleUnanswered(w: World, j: nat, i: nat, to: Endpoint)
    requires S.ControlsOk(w) && Unanswered(w, i, to) && Enabled(w, HandleRequest(j)) && j != i
    ensures Unanswered(Step(w, HandleRequest(j)), i, to)
  {
    var v := Step(w, HandleRequest(j));
    var c := w.clients[j];
    assert S.ControlOk(c) && !Asks(c, to);
    S.HandleEffect(w, j);
    assert At(c, c.handled) != to;
    AsksKept(c, v.clients[j], to);
    AsksUpdate(w, v, i, j, to);
  }

  lemma ReceiveUnanswered(w: World, e: Event, i: nat, to: Endpoint)
    requires Unanswered(w, i, to) && Enabled(w, e) && (e.Receive? || e.ReceiveOnNew?)
    ensures Unanswered(Step(w, e), i, to)
  {
    var v := Step(w, e);
    assert e.datagram.to != to;
    AsksKept(w.clients[e.id], v.clients[e.id], to);
    AsksUpdate(w, v, i, e.id, to);
  }

  /** Only the handling of its own request lets the client receive a frame there. */
  lemma StepUnanswered(w: World, e: Event, i: nat, to: Endpoint)
    requires S.ControlsOk(w) && Unanswered(w, i, to) && Enabled(w, e) && Polite(w, e) && e != HandleRequest(i)
    ensures Unanswered(Step(w, e), i, to)
  {
    match e
    case HandleRequest(j) => HandleUnanswered(w, j, i, to);
    case SendFrame(payload) =>
      var v := Step(w, e);
      assert v.clients == w.clients;
      assert forall d | d in v.network :: d in w.network || d.to in w.subscribers;
    case Lose(d) => assert Step(w, e).clients == w.clients;
    case Receive(j, d) => ReceiveUnanswered(w, e, i, to);
    case ReceiveOnNew(j, d) => ReceiveUnanswered(w, e, i, to);
    case _ => OpenUnanswered(w, e, i, to);
  }

  /** Client `i`, which had these ports when it opened its socket: until its request is handled, or it has a socket
      more, it stays unanswered. */
  ghost predicate Waiting(w: World, i: nat, ports: seq<Port>) {
    && S.ControlsOk(w) && i < |w.clients| && ports != [] && ports <= w.clients[i].ports
    && w.clients[i].handled >= |ports| - 1
    && (w.clients[i].ports == ports && w.clients[i].handled == |ports| - 1 ==>
          Unanswered(w, i, At(w.clients[i], |ports| - 1)))
  }

  /** A client's ports and handled requests only grow. */
  lemma ClientGrows(w: World, e: Event, i: nat)
    requires Enabled(w, e) && i < |w.clients|
    ensures i < |Step(w, e).clients|
    ensures var c, d := w.clients[i], Step(w, e).clients[i];
            c.ports <= d.ports && c.address == d.address
            && d.handled == if e == HandleRequest(i) then c.handled + 1 else c.handled
  {}

  lemma StepWaiting(w: World, e: Event, i: nat, ports: seq<Port>)
    requires Waiting(w, i, ports) && Enabled(w, e) && Polite(w, e)
    ensures Waiting(Step(w, e), i, ports)
  {
    S.StepKeepsControls(w, e);
    ClientGrows(w, e, i);
    var c, d := w.clients[i], Step(w, e).clients[i];
    if d.ports == ports && d.handled == |ports| - 1 {
      assert c.ports == ports;
      StepUnanswered(w, e, i, At(c, |ports| - 1));
      assert At(d, |ports| - 1) == At(c, |ports| - 1);
    }
  }

  lemma {:induction false} PathWaiting(run: seq<World>, events: seq<Event>, n: nat, i: nat, ports: seq<Port>)
    requires PolitePath(run, events) && n <= |events| && Waiting(run[0], i, ports)
    ensures Waiting(run[n], i, ports)
  {
    if n == 0 {
      assert Waiting(run[0], i, ports);
    } else {
      PathWaiting(run, events, n - 1, i, ports);
      assert StepAt(run, events, n - 1);
      StepWaiting(run[n - 1], events[n - 1], i, ports);
    }
  }

  /** What nobody receives on, nobody has asked for. */
  lemma NobodyAsks(w: World, j: nat, to: Endpoint)
    requires Inv(w) && j < |w.clients| && !Receives(w.clients[j], to)
    ensures !Asks(w.clients[j], to)
  {
    var d := w.clients[j];
    if Asks(d, to) {
      assert S.ControlOk(d) && PhaseOk(d);
      assert S.Live(d, to);
      LiveIsReceived(d, to);
    }
  }

  /** The opening of a socket on an endpoint no datagram is under way to. */
  lemma OpenWaits(w: World, e: Event, to: Endpoint)
    requires Inv(w) && Enabled(w, e) && Quiet(w, e) && Opens(w, e, to)
    ensures var v, i := Step(w, e), Opener(w, e); i < |v.clients| && Waiting(v, i, v.clients[i].ports)
  {
    var v, i := Step(w, e), Opener(w, e);
    S.StepKeepsControls(w, e);
    if to in w.subscribers {
      assert S.Held(w.clients, to);
      SubscribersReceive(w, to, 0);
    }
    forall j | 0 <= j < |v.clients| && j != i
      ensures !Asks(v.clients[j], to)
    {
      assert v.clients[j] == w.clients[j];
      NobodyAsks(w, j, to);
    }
    if e.Hop? {
      assert S.ControlOk(w.clients[i]) && PhaseOk(w.clients[i]);
    }
  }

  /** One step after the opening is enough. */
  lemma OneStepMisleads(w: World, e: Event, f: Event)
    requires Enabled(w, e) && (e.Connect? || e.Hop?) && Enabled(Step(w, e), f) && (f.Receive? || f.ReceiveOnNew?)
    requires var i := Opener(w, e);
             && i < |Step(w, e).clients| && f.id == i
             && Misled(Step(Step(w, e), f).clients[i], Step(w, e).clients[i].ports)
    ensures MayMislead(w, e)
  {
    var v := Step(w, e);
    var run, events := [v, Step(v, f)], [f];
    assert StepAt(run, events, 0);
    assert Misleads(w, e, run, events);
  }

  lemma StaleOnHop(w: World, i: nat, port: Port, d: Datagram)
    requires S.ControlsOk(w) && Enabled(w, Hop(i, port)) && d in w.network && |d.data| == FRAME_SIZE
    requires d.to == Endpoint(w.clients[i].address, port)
    ensures MayMislead(w, Hop(i, port))
  {
    assert S.ControlOk(w.clients[i]);
    OneStepMisleads(w, Hop(i, port), ReceiveOnNew(i, d));
  }

  lemma StaleOnConnect(w: World, address: nat, port: Port, d: Datagram)
    requires Enabled(w, Connect(address, port)) && d in w.network && |d.data| == FRAME_SIZE
    requires d.to == Endpoint(address, port)
    ensures MayMislead(w, Connect(address, port))
  {
    OneStepMisleads(w, Connect(address, port), Receive(|w.clients|, d));
  }

  /** A stale datagram to the new endpoint is taken at once. */
  lemma StaleMisleads(w: World, e: Event, to: Endpoint, d: Datagram)
    requires S.ControlsOk(w) && Shows(w) && Enabled(w, e) && Opens(w, e, to) && d in w.network && d.to == to
    ensures MayMislead(w, e)
  {
    assert DatagramOk(w.sent, d);
    if e.Connect? {
      StaleOnConnect(w, e.address, e.port, d);
    } else {
      StaleOnHop(w, e.id, e.port, d);
    }
  }

  /** A client can take a frame at its new port, in some continuation of a quiet run, before the server has handled
      its request to send there, if and only if a datagram was under way to the port when the client opened it. */
  lemma MisledIff(run: seq<World>, events: seq<Event>, n: nat, e: Event, to: Endpoint)
    requires QuietRun(run, events) && n <= |events|
    requires Enabled(run[n], e) && Polite(run[n], e) && Opens(run[n], e, to)
    ensures MayMislead(run[n], e) <==> Awaits(run[n], to)
  {
    var w := run[n];
    RunKeepsInv(run, events, n);
    RunKeepsShows(run, events, n);
    if Awaits(w, to) {
      var d :| d in w.network && d.to == to;
      StaleMisleads(w, e, to, d);
    } else {
      OpenWaits(w, e, to);
      forall later: seq<World>, es: seq<Event> | PolitePath(later, es) && later[0] == Step(w, e)
        ensures !Misleads(w, e, later, es)
      {
        PathWaiting(later, es, |es|, Opener(w, e), later[0].clients[Opener(w, e)].ports);
      }
    }
  }
}
