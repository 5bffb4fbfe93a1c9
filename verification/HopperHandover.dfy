/** The hop of a porthopper client from one port to another is seamless where no old frames are under way. */
module HopperHandover {
  import opened HopperCodec
  import opened HopperModel
  import S = HopperSubscriptions

  // ----- which ports a client may get ------------------------------------------------------------------------

  /** The client has a socket open on this endpoint. */
  predicate Receives(c: Client, e: Endpoint) {
    OnCurrent(c, e) || OnNew(c, e)
  }

  /** The endpoint of the socket a step opens, if it opens one. */
  predicate Opens(w: World, e: Event, to: Endpoint) {
    match e
    case Connect(address, port) => to == Endpoint(address, port)
    case Hop(i, port) => i < |w.clients| && to == Endpoint(w.clients[i].address, port)
    case _ => false
  }

  /** What the operating system sees to: a new socket does not get a port that another has. */
  ghost predicate Polite(w: World, e: Event) {
    forall i, to | 0 <= i < |w.clients| && Opens(w, e, to) :: !Receives(w.clients[i], to)
  }

  /** What it does not see to: nor does it get a port that some datagram is still under way to. */
  ghost predicate Quiet(w: World, e: Event) {
    Polite(w, e) && forall d, to | d in w.network && Opens(w, e, to) :: d.to != to
  }

  ghost predicate PolitePath(run: seq<World>, events: seq<Event>) {
    IsPath(run, events) && forall n | 0 <= n < |events| :: Polite(run[n], events[n])
  }

  ghost predicate QuietRun(run: seq<World>, events: seq<Event>) {
    IsRun(run, events) && forall n | 0 <= n < |events| :: Quiet(run[n], events[n])
  }

  // ----- what quiet runs keep --------------------------------------------------------------------------------

  /** Where the client stands in its renegotiation: every hop but the latest has been handled, and once a frame
      has come to the latest port that one has too. */
  predicate PhaseOk(c: Client) {
    var n := |c.ports|;
    if c.switching then n >= 2 && c.handled >= n - 1 && c.ports[n - 1] != c.ports[n - 2]
    else n >= 2 || c.count > 0 ==> c.handled == n
  }

  /** If the endpoint is the client's latest, its request has been handled. */
  predicate Arrived(c: Client, e: Endpoint) {
    c.ports != [] && At(c, |c.ports| - 1) == e ==> c.handled == |c.ports|
  }

  /** No two clients receive on the same endpoint. */
  ghost predicate Alone(clients: seq<Client>) {
    forall i, j, e | 0 <= i < |clients| && 0 <= j < |clients| && i != j && Receives(clients[i], e) ::
      !Receives(clients[j], e)
  }

  ghost predicate Inv(w: World) {
    && S.Inv(w) && Alone(w.clients)
    && (forall i | 0 <= i < |w.clients| :: PhaseOk(w.clients[i]))
    && (forall i, d | 0 <= i < |w.clients| && d in w.network :: Arrived(w.clients[i], d.to))
  }

  /** What a client holds or has asked for since, it receives on. */
  lemma LiveIsReceived(c: Client, e: Endpoint)
    requires S.ControlOk(c) && PhaseOk(c) && S.Live(c, e)
    ensures Receives(c, e)
  {
    var k :| 0 <= k < |c.ports| && c.handled <= k + 1 && At(c, k) == e;
    assert k == |c.ports| - 1 || (c.switching && k == |c.ports| - 2);
  }

  /** So a port nobody receives on is not shared. */
  lemma QuietIsUnshared(w: World, e: Event)
    requires Inv(w) && Polite(w, e)
    ensures S.Unshared(w, e)
  {
    forall j, to | 0 <= j < |w.clients| && Opens(w, e, to)
      ensures !S.Live(w.clients[j], to)
    {
      assert S.ControlOk(w.clients[j]) && PhaseOk(w.clients[j]);
      if S.Live(w.clients[j], to) {
        LiveIsReceived(w.clients[j], to);
      }
    }
    match e
    case Connect(address, port) => assert Opens(w, e, Endpoint(address, port));
    case Hop(i, port) =>
      if i < |w.clients| {
        assert Opens(w, e, Endpoint(w.clients[i].address, port));
      }
    case _ =>
  }

  /** A step after which one client has changed, or come, and opened at most the socket on `to`. */
  lemma AloneUpdate(clients: seq<Client>, after: seq<Client>, i: nat, to: Endpoint)
    requires Alone(clients) && i < |after|
    requires forall j | 0 <= j < |after| && j != i :: j < |clients| && after[j] == clients[j]
    requires forall e | Receives(after[i], e) :: e == to || (i < |clients| && Receives(clients[i], e))
    requires forall j | 0 <= j < |clients| && j != i :: !Receives(clients[j], to)
    ensures Alone(after)
  {
    forall j, k, e | 0 <= j < |after| && 0 <= k < |after| && j != k && Receives(after[j], e)
      ensures !Receives(after[k], e)
    {
      var a, b := after[j], after[k];
      assert j != i ==> a == clients[j];
      assert k != i ==> b == clients[k];
    }
  }

  /** The rest of the invariant, after a step that changes one client and sends nothing. */
  lemma ClientChanged(w: World, v: World, i: nat)
    requires Inv(w) && S.Inv(v) && Alone(v.clients) && v.network == w.network && i < |v.clients|
    requires forall j | 0 <= j < |v.clients| && j != i :: j < |w.clients| && v.clients[j] == w.clients[j]
    requires PhaseOk(v.clients[i]) && forall d | d in w.network :: Arrived(v.clients[i], d.to)
    ensures Inv(v)
  {
    forall j | 0 <= j < |v.clients|
      ensures PhaseOk(v.clients[j])
      ensures forall d | d in v.network :: Arrived(v.clients[j], d.to)
    {
      var c := v.clients[j];
      assert j != i ==> c == w.clients[j];
    }
  }

  lemma ConnectKeepsInv(w: World, address: nat, port: Port)
    requires Inv(w) && Enabled(w, Connect(address, port)) && Quiet(w, Connect(address, port))
    ensures Inv(Step(w, Connect(address, port)))
  {
    var e, to, n := Connect(address, port), Endpoint(address, port), |w.clients|;
    var v := Step(w, e);
    assert Opens(w, e, to);
    QuietIsUnshared(w, e);
    S.StepKeepsInv(w, e);
    AloneUpdate(w.clients, v.clients, n, to);
    ClientChanged(w, v, n);
  }

  lemma HopKeepsInv(w: World, i: nat, port: Port)
    requires Inv(w) && Enabled(w, Hop(i, port)) && Quiet(w, Hop(i, port))
    ensures Inv(Step(w, Hop(i, port)))
  {
    var e, c := Hop(i, port), w.clients[i];
    var v, to := Step(w, e), Endpoint(c.address, port);
    assert Opens(w, e, to);
    QuietIsUnshared(w, e);
    S.StepKeepsInv(w, e);
    HoppedReceives(c, port);
    AloneUpdate(w.clients, v.clients, i, to);
    assert S.ControlOk(c) && PhaseOk(c) && !Receives(c, to);
    ClientChanged(w, v, i);
  }

  lemma HoppedReceives(c: Client, port: Port)
    requires c.ports != [] && !c.switching
    ensures var d := Hopped(c, port);
            forall e | Receives(d, e) :: e == Endpoint(c.address, port) || Receives(c, e)
  {}

  lemma HandleKeepsInv(w: World, i: nat)
    requires Inv(w) && Enabled(w, HandleRequest(i))
    ensures Inv(Step(w, HandleRequest(i)))
  {
    var e, c := HandleRequest(i), w.clients[i];
    var v := Step(w, e);
    var d := v.clients[i];
    assert S.ControlOk(c) && PhaseOk(c);
    S.StepKeepsInv(w, e);
    SameSockets(w, v, i);
    forall g | g in w.network
      ensures Arrived(d, g.to)
    {
      assert Arrived(c, g.to);
      assert At(d, |d.ports| - 1) == At(c, |c.ports| - 1);
    }
    ClientChanged(w, v, i);
  }

  /** A step in which a client opens no socket. */
  lemma SameSockets(w: World, v: World, i: nat)
    requires Alone(w.clients) && i < |w.clients| == |v.clients| && v.clients == w.clients[i := v.clients[i]]
    requires forall e | Receives(v.clients[i], e) :: Receives(w.clients[i], e)
    ensures Alone(v.clients)
  {}

  lemma SendKeepsInv(w: World, payload: string)
    requires Inv(w)
    ensures Inv(Step(w, SendFrame(payload)))
  {
    var v := Step(w, SendFrame(payload));
    S.StepKeepsInv(w, SendFrame(payload));
    forall i, d | 0 <= i < |v.clients| && d in v.network
      ensures Arrived(v.clients[i], d.to)
    {
      if d in w.network {
        assert Arrived(w.clients[i], d.to);
      } else {
        SubscriberArrived(w, d.to, i);
      }
    }
  }

  /** Frames are only sent to a client's latest port once its request has been handled. */
  lemma SubscriberArrived(w: World, e: Endpoint, i: nat)
    requires Inv(w) && e in w.subscribers && i < |w.clients|
    ensures Arrived(w.clients[i], e)
  {
    var c := w.clients[i];
    assert S.ControlOk(c) && PhaseOk(c);
    assert S.Held(w.clients, e);
    var j :| 0 <= j < |w.clients| && S.Holds(w.clients[j], e);
    if At(c, |c.ports| - 1) == e {
      assert S.Live(c, e);
      if j != i {
        S.HolderAlone(w.clients, i, j, e);
      }
    }
  }

  /** A client that takes a frame at its latest port has had its request handled. */
  lemma ReceivedPhase(c: Client, e: Event)
    requires S.ControlOk(c) && PhaseOk(c) && (e.Receive? || e.ReceiveOnNew?) && |e.datagram.data| == FRAME_SIZE
    requires if e.Receive? then OnCurrent(c, e.datagram.to) else OnNew(c, e.datagram.to)
    requires Arrived(c, e.datagram.to)
    ensures PhaseOk(if e.Receive? then Received(c, e.datagram.data) else ReceivedOnNew(c, e.datagram.data))
  {}

  lemma ReceiveKeepsInv(w: World, e: Event)
    requires Inv(w) && Enabled(w, e) && (e.Receive? || e.ReceiveOnNew?)
    ensures Inv(Step(w, e))
  {
    var i := e.id;
    var v, c := Step(w, e), w.clients[i];
    S.StepKeepsInv(w, e);
    SameSockets(w, v, i);
    assert S.ControlOk(c) && Arrived(c, e.datagram.to);
    ReceivedPhase(c, e);
    ClientChanged(w, v, i);
  }

  lemma LoseKeepsInv(w: World, d: Datagram)
    requires Inv(w) && Enabled(w, Lose(d))
    ensures Inv(Step(w, Lose(d)))
  {
    S.StepKeepsInv(w, Lose(d));
  }

  lemma StepKeepsInv(w: World, e: Event)
    requires Inv(w) && Enabled(w, e) && Quiet(w, e)
    ensures Inv(Step(w, e))
  {
    match e
    case Connect(address, port) => ConnectKeepsInv(w, address, port);
    case Hop(i, port) => HopKeepsInv(w, i, port);
    case HandleRequest(i) => HandleKeepsInv(w, i);
    case SendFrame(payload) => SendKeepsInv(w, payload);
    case Lose(d) => LoseKeepsInv(w, d);
    case _ => ReceiveKeepsInv(w, e);
  }

  lemma {:induction false} RunKeepsInv(run: seq<World>, events: seq<Event>, n: nat)
    requires QuietRun(run, events) && n <= |events|
    ensures Inv(run[n])
  {
    if n == 0 {
    } else {
      RunKeepsInv(run, events, n - 1);
      assert StepAt(run, events, n - 1);
      StepKeepsInv(run[n - 1], events[n - 1]);
    }
  }

  /** Quiet runs are also unshared, so their subscribers are the ports of the requests handled last. */
  lemma QuietRunIsUnshared(run: seq<World>, events: seq<Event>)
    requires QuietRun(run, events)
    ensures S.UnsharedRun(run, events)
  {
    forall n | 0 <= n < |events|
      ensures S.Unshared(run[n], events[n])
    {
      RunKeepsInv(run, events, n);
      QuietIsUnshared(run[n], events[n]);
    }
  }

  // ----- seamless handover -----------------------------------------------------------------------------------

  /** In quiet runs the handover is seamless: a client that has hopped is subscribed at exactly one of the two
      endpoints it receives on while switching, and at the one it receives on otherwise. */
  lemma SeamlessHandover(run: seq<World>, events: seq<Event>, n: nat, i: nat)
    requires QuietRun(run, events) && n <= |events| && i < |run[n].clients| && |run[n].clients[i].ports| >= 2
    ensures var c, subscribers := run[n].clients[i], run[n].subscribers;
            var m := |c.ports| - 1;
            if c.switching then At(c, m) in subscribers <==> At(c, m - 1) !in subscribers
            else At(c, m) in subscribers
  {
    RunKeepsInv(run, events, n);
    var w := run[n];
    var c := w.clients[i];
    assert S.ControlOk(c) && PhaseOk(c);
    var held := At(c, c.handled - 1);
    assert S.Holds(c, held);
    assert S.Held(w.clients, held);
    if c.switching {
      var m := |c.ports| - 1;
      var other := if c.handled == m then At(c, m) else At(c, m - 1);
      if other in w.subscribers {
        SubscribersReceive(w, other, i);
      }
    }
  }

  /** Whoever holds a subscribed endpoint receives on it; of the endpoints a client receives on, only its own
      request can have subscribed it. */
  lemma SubscribersReceive(w: World, e: Endpoint, i: nat)
    requires Inv(w) && e in w.subscribers && i < |w.clients|
    ensures exists j :: 0 <= j < |w.clients| && Receives(w.clients[j], e)
    ensures Receives(w.clients[i], e) ==> S.Holds(w.clients[i], e)
  {
    assert S.Held(w.clients, e);
    var j :| 0 <= j < |w.clients| && S.Holds(w.clients[j], e);
    assert S.Live(w.clients[j], e);
    assert S.ControlOk(w.clients[j]) && PhaseOk(w.clients[j]);
    LiveIsReceived(w.clients[j], e);
  }

  /** And no frame is sent to a socket that has been closed. */
  lemma FramesFindSockets(run: seq<World>, events: seq<Event>, n: nat, e: Endpoint)
    requires QuietRun(run, events) && n <= |events| && e in run[n].subscribers
    ensures exists j :: 0 <= j < |run[n].clients| && Receives(run[n].clients[j], e)
  {
    RunKeepsInv(run, events, n);
    assert S.Held(run[n].clients, e);
    SubscribersReceive(run[n], e, 0);
  }
}
