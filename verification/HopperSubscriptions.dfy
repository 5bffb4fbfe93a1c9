/** Who the porthopper server sends to. */
module HopperSubscriptions {
  import opened HopperCodec
  import opened HopperModel

  // ----- control connections -------------------------------------------------------------------------------

  /** The request that takes a client to its k-th port. */
  function Request(ports: seq<Port>, k: nat): string
    requires k < |ports|
  {
    ControlRequest(if k == 0 then 0 else ports[k - 1], ports[k])
  }

  /** The requests on a control connection are those not yet handled, in order. */
  predicate ControlOk(c: Client) {
    && c.ports != [] && (forall k | 0 <= k < |c.ports| :: c.ports[k] != 0)
    && c.handled + |c.control| == |c.ports|
    && (forall k | 0 <= k < |c.control| :: c.control[k] == Request(c.ports, c.handled + k))
  }

  ghost predicate ControlsOk(w: World) {
    forall i | 0 <= i < |w.clients| :: ControlOk(w.clients[i])
  }

  lemma SameRequest(ports: seq<Port>, port: Port, k: nat)
    requires k < |ports|
    ensures Request(ports + [port], k) == Request(ports, k)
  {}

  lemma EarlierRequest(c: Client, port: Port, k: nat)
    requires ControlOk(c) && k < |c.control|
    ensures Hopped(c, port).control[k] == Request(Hopped(c, port).ports, c.handled + k)
  {
    SameRequest(c.ports, port, c.handled + k);
  }

  lemma HoppedControl(c: Client, port: Port)
    requires ControlOk(c) && port != 0
    ensures ControlOk(Hopped(c, port))
  {
    var d := Hopped(c, port);
    forall k | 0 <= k < |c.control|
      ensures d.control[k] == Request(d.ports, d.handled + k)
    {
      EarlierRequest(c, port, k);
    }
  }

  lemma HandledControl(c: Client)
    requires ControlOk(c) && c.control != []
    ensures ControlOk(c.(control := c.control[1..], handled := c.handled + 1))
  {
    var d := c.(control := c.control[1..], handled := c.handled + 1);
    forall k | 0 <= k < |d.control|
      ensures d.control[k] == Request(d.ports, d.handled + k)
    {
      assert c.control[k + 1] == Request(c.ports, c.handled + (k + 1));
    }
  }

  /** Nothing of a client but what it prints, counts and waits for changes when it receives. */
  predicate SameRequests(c: Client, d: Client) {
    c.address == d.address && c.ports == d.ports && c.control == d.control && c.handled == d.handled
  }

  lemma SameControl(c: Client, d: Client)
    requires ControlOk(c) && SameRequests(c, d)
    ensures ControlOk(d)
  {}

  /** One client of the world has changed, or come. */
  lemma ControlsUpdate(w: World, v: World, i: nat)
    requires ControlsOk(w) && i < |v.clients| && ControlOk(v.clients[i])
    requires forall j | 0 <= j < |v.clients| && j != i :: j < |w.clients| && v.clients[j] == w.clients[j]
    ensures ControlsOk(v)
  {
    forall j | 0 <= j < |v.clients|
      ensures ControlOk(v.clients[j])
    {
      if j != i {
        var c := v.clients[j];
        assert ControlOk(w.clients[j]) && c == w.clients[j];
      }
    }
  }

  /** The client a step is about keeps its requests in order. */
  lemma ClientKeepsControl(w: World, e: Event)
    requires ControlsOk(w) && Enabled(w, e) && !e.Connect? && !e.SendFrame? && !e.Lose?
    ensures ControlOk(Step(w, e).clients[e.id])
  {
    var c := w.clients[e.id];
    if e.Hop? {
      HoppedControl(c, e.port);
    } else if e.HandleRequest? {
      HandledControl(c);
    } else {
      SameControl(c, Step(w, e).clients[e.id]);
    }
  }

  lemma StepKeepsControls(w: World, e: Event)
    requires ControlsOk(w) && Enabled(w, e)
    ensures ControlsOk(Step(w, e))
  {
    if e.Connect? {
      ControlsUpdate(w, Step(w, e), |w.clients|);
    } else if !e.SendFrame? && !e.Lose? {
      ClientKeepsControl(w, e);
      ControlsUpdate(w, Step(w, e), e.id);
    }
  }

  /** The request at the head of a control connection, decoded from its bytes, moves the subscription of its
      client on by one port. */
  lemma HandleEffect(w: World, i: nat)
    requires i < |w.clients| && ControlOk(w.clients[i]) && w.clients[i].control != []
    ensures var c := w.clients[i];
            && |c.control[0]| == 2 * PORT_SIZE
            && Handle(w.subscribers, c.address, c.control[0])
            == (if c.handled == 0 then w.subscribers else w.subscribers - {At(c, c.handled - 1)}) + {At(c, c.handled)}
  {
    var c := w.clients[i];
    var k := c.handled;
    assert c.control[0] == Request(c.ports, k + 0);
    RequestRoundTrip(if k == 0 then 0 else c.ports[k - 1], c.ports[k]);
  }

  // ----- who holds an endpoint -----------------------------------------------------------------------------

  /** The client's request handled last was for this endpoint. */
  predicate Holds(c: Client, e: Endpoint) {
    0 < c.handled <= |c.ports| && At(c, c.handled - 1) == e
  }

  predicate Held(clients: seq<Client>, e: Endpoint) {
    exists i :: 0 <= i < |clients| && Holds(clients[i], e)
  }

  /** The endpoint is the one the client holds, or one it has asked for since. */
  predicate Live(c: Client, e: Endpoint) {
    exists k :: 0 <= k < |c.ports| && c.handled <= k + 1 && At(c, k) == e
  }

  /** No two clients have a live endpoint in common. */
  ghost predicate Apart(clients: seq<Client>) {
    forall i, j, e | 0 <= i < |clients| && 0 <= j < |clients| && i != j && Live(clients[i], e) :: !Live(clients[j], e)
  }

  /** Subscribed are exactly the ports of the requests handled last, one for each client. */
  ghost predicate SubscribersOk(w: World) {
    forall e :: e in w.subscribers <==> Held(w.clients, e)
  }

  ghost predicate Inv(w: World) {
    ControlsOk(w) && Apart(w.clients) && SubscribersOk(w)
  }

  /** A new port is not one another client holds or has asked for since. */
  ghost predicate Unshared(w: World, e: Event) {
    match e
    case Connect(address, port) => forall j | 0 <= j < |w.clients| :: !Live(w.clients[j], Endpoint(address, port))
    case Hop(i, port) =>
      forall j | 0 <= j < |w.clients| && j != i && i < |w.clients| ::
        !Live(w.clients[j], Endpoint(w.clients[i].address, port))
    case _ => true
  }

  ghost predicate UnsharedRun(run: seq<World>, events: seq<Event>) {
    IsRun(run, events) && forall n | 0 <= n < |events| :: Unshared(run[n], events[n])
  }

  /** What is live for `d` is live for `c`, but for the endpoint `e`. */
  ghost predicate LiveWithin(d: Client, c: Client, e: Endpoint) {
    forall f | Live(d, f) :: f == e || Live(c, f)
  }

  lemma ApartUpdate(clients: seq<Client>, i: nat, d: Client, e: Endpoint)
    requires Apart(clients) && i < |clients| && LiveWithin(d, clients[i], e)
    requires forall j | 0 <= j < |clients| && j != i :: !Live(clients[j], e)
    ensures Apart(clients[i := d])
  {}

  lemma HeldAppend(clients: seq<Client>, c: Client, e: Endpoint)
    requires c.handled == 0
    ensures Held(clients + [c], e) <==> Held(clients, e)
  {
    var after := clients + [c];
    if Held(clients, e) {
      var i :| 0 <= i < |clients| && Holds(clients[i], e);
      assert Holds(after[i], e);
    }
    if Held(after, e) {
      var i :| 0 <= i < |after| && Holds(after[i], e);
      assert Holds(clients[i], e);
    }
  }

  /** Changing one client: who else holds an endpoint stays as it is. */
  lemma HeldUpdate(clients: seq<Client>, i: nat, c: Client, e: Endpoint)
    requires i < |clients|
    ensures Held(clients[i := c], e) <==>
            Holds(c, e) || exists j :: 0 <= j < |clients| && j != i && Holds(clients[j], e)
  {
    var after := clients[i := c];
    if Held(after, e) {
      var j :| 0 <= j < |after| && Holds(after[j], e);
      assert j != i ==> Holds(clients[j], e);
    }
    if Holds(c, e) {
      assert Holds(after[i], e);
    }
    if j :| 0 <= j < |clients| && j != i && Holds(clients[j], e) {
      assert Holds(after[j], e);
    }
  }

  /** A client that has had nothing more handled holds what it held. */
  lemma StillHolds(w: World, i: nat, d: Client)
    requires SubscribersOk(w) && i < |w.clients| && d.address == w.clients[i].address
    requires d.handled == w.clients[i].handled <= |w.clients[i].ports| && w.clients[i].ports <= d.ports
    ensures SubscribersOk(Update(w, i, d))
  {
    forall e
      ensures e in w.subscribers <==> Held(w.clients[i := d], e)
    {
      HeldUpdate(w.clients, i, d, e);
      HeldUpdate(w.clients, i, w.clients[i], e);
      assert w.clients[i := w.clients[i]] == w.clients;
      assert Holds(d, e) <==> Holds(w.clients[i], e);
    }
  }

  // ----- the steps -----------------------------------------------------------------------------------------

  lemma ConnectKeepsInv(w: World, address: nat, port: Port)
    requires Inv(w) && Enabled(w, Connect(address, port)) && Unshared(w, Connect(address, port))
    ensures Inv(Step(w, Connect(address, port)))
  {
    var c, e := Connected(address, port), Endpoint(address, port);
    var v := Step(w, Connect(address, port));
    StepKeepsControls(w, Connect(address, port));
    assert forall f | Live(c, f) :: f == e;
    forall f
      ensures Held(v.clients, f) <==> Held(w.clients, f)
    {
      HeldAppend(w.clients, c, f);
    }
  }

  lemma HoppedLive(c: Client, port: Port)
    requires ControlOk(c)
    ensures LiveWithin(Hopped(c, port), c, Endpoint(c.address, port))
  {
    var d := Hopped(c, port);
    forall f | Live(d, f)
      ensures f == Endpoint(c.address, port) || Live(c, f)
    {
      var k :| 0 <= k < |d.ports| && d.handled <= k + 1 && At(d, k) == f;
      if k < |c.ports| {
        assert At(c, k) == f;
      }
    }
  }

  lemma HopKeepsInv(w: World, i: nat, port: Port)
    requires Inv(w) && Enabled(w, Hop(i, port)) && Unshared(w, Hop(i, port))
    ensures Inv(Step(w, Hop(i, port)))
  {
    var c, d := w.clients[i], Hopped(w.clients[i], port);
    StepKeepsControls(w, Hop(i, port));
    assert ControlOk(c);
    HoppedLive(c, port);
    ApartUpdate(w.clients, i, d, Endpoint(c.address, port));
    StillHolds(w, i, d);
  }

  /** A client that holds an endpoint has it to itself. */
  lemma HolderAlone(clients: seq<Client>, i: nat, j: nat, e: Endpoint)
    requires Apart(clients) && i < |clients| && j < |clients| && i != j && Holds(clients[j], e)
    ensures !Live(clients[i], e)
  {
    assert Live(clients[j], e);
  }

  /** Who holds an endpoint once a client has had one more request handled. */
  lemma HoldsNext(w: World, i: nat, d: Client, e: Endpoint)
    requires Inv(w) && i < |w.clients|
    requires var c := w.clients[i];
             d.address == c.address && d.ports == c.ports && d.handled == c.handled + 1 <= |c.ports|
    ensures var c := w.clients[i];
            Held(w.clients[i := d], e) <==> e == At(c, c.handled) || (e in w.subscribers && !Holds(c, e))
  {
    var c := w.clients[i];
    HeldUpdate(w.clients, i, d, e);
    HeldUpdate(w.clients, i, c, e);
    assert w.clients[i := c] == w.clients;
    assert Holds(d, e) <==> At(c, c.handled) == e;
    if j :| 0 <= j < |w.clients| && j != i && Holds(w.clients[j], e) {
      HolderAlone(w.clients, i, j, e);
      assert Holds(c, e) ==> Live(c, e);
    }
  }

  lemma HandleKeepsSubscribers(w: World, i: nat)
    requires Inv(w) && Enabled(w, HandleRequest(i))
    ensures SubscribersOk(Step(w, HandleRequest(i)))
  {
    var v := Step(w, HandleRequest(i));
    assert ControlOk(w.clients[i]);
    HandleEffect(w, i);
    forall e
      ensures e in v.subscribers <==> Held(v.clients, e)
    {
      HoldsNext(w, i, v.clients[i], e);
    }
  }

  lemma HandleKeepsApart(w: World, i: nat)
    requires Inv(w) && Enabled(w, HandleRequest(i))
    ensures Apart(Step(w, HandleRequest(i)).clients)
  {
    var c, d := w.clients[i], Step(w, HandleRequest(i)).clients[i];
    assert ControlOk(c);
    var e := At(c, c.handled);
    forall f | Live(d, f)
      ensures Live(c, f)
    {
      var k :| 0 <= k < |d.ports| && d.handled <= k + 1 && At(d, k) == f;
      assert At(c, k) == f;
    }
    assert Live(c, e);
    ApartUpdate(w.clients, i, d, e);
  }

  /** A client that has only received frames has the same endpoints live. */
  lemma ReceiveKeepsInv(w: World, i: nat, d: Client)
    requires Inv(w) && i < |w.clients| && SameRequests(w.clients[i], d)
    ensures Inv(Update(w, i, d))
  {
    var c := w.clients[i];
    assert ControlOk(c);
    forall f
      ensures Live(d, f) <==> Live(c, f)
    {
      SameLive(c, d, f);
      SameLive(d, c, f);
    }
    assert Live(c, At(c, |c.ports| - 1));
    ApartUpdate(w.clients, i, d, At(c, |c.ports| - 1));
    StillHolds(w, i, d);
  }

  lemma SameLive(c: Client, d: Client, f: Endpoint)
    requires SameRequests(c, d)
    ensures Live(c, f) ==> Live(d, f)
  {
    if Live(c, f) {
      var k :| 0 <= k < |c.ports| && c.handled <= k + 1 && At(c, k) == f;
      assert At(d, k) == f;
    }
  }

  lemma StepKeepsInv(w: World, e: Event)
    requires Inv(w) && Enabled(w, e) && Unshared(w, e)
    ensures Inv(Step(w, e))
  {
    match e
    case Connect(address, port) => ConnectKeepsInv(w, address, port);
    case Hop(i, port) => HopKeepsInv(w, i, port);
    case HandleRequest(i) =>
      StepKeepsControls(w, e);
      HandleKeepsApart(w, i);
      HandleKeepsSubscribers(w, i);
    case SendFrame(payload) =>
    case Receive(i, d) => ReceiveKeepsInv(w, i, Received(w.clients[i], d.data));
    case ReceiveOnNew(i, d) => ReceiveKeepsInv(w, i, ReceivedOnNew(w.clients[i], d.data));
    case Lose(d) =>
  }

  lemma {:induction false} RunKeepsInv(run: seq<World>, events: seq<Event>, n: nat)
    requires UnsharedRun(run, events) && n <= |events|
    ensures Inv(run[n])
  {
    if n == 0 {
    } else {
      RunKeepsInv(run, events, n - 1);
      assert StepAt(run, events, n - 1);
      StepKeepsInv(run[n - 1], events[n - 1]);
    }
  }

  /** In every run in which no client takes a port that another client holds or has asked for since, whatever ports
      of its own it uses again, the subscribers are exactly the new ports of the requests handled last, one for
      each client that has had one handled. */
  lemma SubscribersAreLastHandled(run: seq<World>, events: seq<Event>, n: nat, e: Endpoint)
    requires UnsharedRun(run, events) && n <= |events|
    ensures var w := run[n];
            e in w.subscribers <==>
            exists i :: 0 <= i < |w.clients| && 0 < w.clients[i].handled <= |w.clients[i].ports|
                        && e == Endpoint(w.clients[i].address, w.clients[i].ports[w.clients[i].handled - 1])
  {
    RunKeepsInv(run, events, n);
    var w := run[n];
    if e in w.subscribers {
      assert Held(w.clients, e);
      var i :| 0 <= i < |w.clients| && Holds(w.clients[i], e);
    }
    if i :| 0 <= i < |w.clients| && 0 < w.clients[i].handled <= |w.clients[i].ports|
            && e == Endpoint(w.clients[i].address, w.clients[i].ports[w.clients[i].handled - 1]) {
      assert Holds(w.clients[i], e);
      assert Held(w.clients, e);
    }
  }
}
