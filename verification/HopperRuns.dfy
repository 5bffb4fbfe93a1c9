/** Runs of the porthopper: one that hops on for ever, and two in which stale frames mislead a client. */
module HopperRuns {
  import opened HopperCodec
  import opened HopperModel
  import opened HopperHandover
  import S = HopperSubscriptions

  // ----- reachable worlds ------------------------------------------------------------------------------------

  ghost predicate Allowed(w: World, e: Event, quiet: bool) {
    if quiet then Quiet(w, e) else Polite(w, e)
  }

  /** A run is allowed to take its n-th step. */
  ghost predicate AllowedAt(run: seq<World>, events: seq<Event>, n: nat, quiet: bool) {
    StepAt(run, events, n) && Allowed(run[n], events[n], quiet)
  }

  ghost predicate AllowedRun(run: seq<World>, events: seq<Event>, quiet: bool) {
    |run| == |events| + 1 && run[0] == INITIAL && forall n: nat | n < |events| :: AllowedAt(run, events, n, quiet)
  }

  /** Some run leads to this world in which no socket gets a port that another has and, if it is to be quiet, none
      that a datagram is under way to. */
  ghost predicate Reached(w: World, quiet: bool) {
    exists run, events :: AllowedRun(run, events, quiet) && run[|events|] == w
  }

  lemma ReachInitial(quiet: bool)
    ensures Reached(INITIAL, quiet)
  {
    assert AllowedRun([INITIAL], [], quiet);
  }

  lemma EarlierSteps(run: seq<World>, events: seq<Event>, v: World, e: Event, n: nat, quiet: bool)
    requires AllowedAt(run, events, n, quiet)
    ensures AllowedAt(run + [v], events + [e], n, quiet)
  {}

  lemma LastStep(run: seq<World>, events: seq<Event>, e: Event, quiet: bool)
    requires |run| == |events| + 1 && Enabled(run[|events|], e) && Allowed(run[|events|], e, quiet)
    ensures AllowedAt(run + [Step(run[|events|], e)], events + [e], |events|, quiet)
  {}

  lemma RunSnoc(run: seq<World>, events: seq<Event>, e: Event, quiet: bool)
    requires AllowedRun(run, events, quiet) && Enabled(run[|events|], e) && Allowed(run[|events|], e, quiet)
    ensures AllowedRun(run + [Step(run[|events|], e)], events + [e], quiet)
  {
    var v := Step(run[|events|], e);
    LastStep(run, events, e, quiet);
    forall n: nat | n < |events|
      ensures AllowedAt(run + [v], events + [e], n, quiet)
    {
      EarlierSteps(run, events, v, e, n, quiet);
    }
  }

  lemma ReachNext(w: World, e: Event, quiet: bool)
    requires Reached(w, quiet) && Enabled(w, e) && Allowed(w, e, quiet)
    ensures Reached(Step(w, e), quiet)
  {
    var run: seq<World>, events: seq<Event> :| AllowedRun(run, events, quiet) && run[|events|] == w;
    RunSnoc(run, events, e, quiet);
    assert (run + [Step(w, e)])[|events + [e]|] == Step(w, e);
  }

  /** A step that opens no socket. */
  lemma ReachSame(w: World, e: Event, quiet: bool)
    requires Reached(w, quiet) && Enabled(w, e) && !e.Connect? && !e.Hop?
    ensures Reached(Step(w, e), quiet)
  {
    assert Allowed(w, e, quiet);
    ReachNext(w, e, quiet);
  }

  lemma AllowedIsRun(run: seq<World>, events: seq<Event>, quiet: bool)
    requires AllowedRun(run, events, quiet)
    ensures IsRun(run, events) && (quiet ==> QuietRun(run, events))
  {
    forall n: nat | n < |events|
      ensures StepAt(run, events, n) && Allowed(run[n], events[n], quiet)
    {
      assert AllowedAt(run, events, n, quiet);
    }
  }

  lemma {:induction false} PathControls(run: seq<World>, events: seq<Event>, n: nat)
    requires IsRun(run, events) && n <= |events|
    ensures S.ControlsOk(run[n])
  {
    if n == 0 {
      assert run[0] == INITIAL;
    } else {
      PathControls(run, events, n - 1);
      assert StepAt(run, events, n - 1);
      S.StepKeepsControls(run[n - 1], events[n - 1]);
    }
  }

  lemma ReachedControls(w: World, quiet: bool)
    requires Reached(w, quiet)
    ensures S.ControlsOk(w)
  {
    var run: seq<World>, events: seq<Event> :| AllowedRun(run, events, quiet) && run[|events|] == w;
    AllowedIsRun(run, events, quiet);
    PathControls(run, events, |events|);
  }

  /** The network loses all there is. */
  lemma {:induction false} LoseAll(w: World, quiet: bool)
    requires Reached(w, quiet)
    ensures Reached(w.(network := {}), quiet)
    decreases w.network
  {
    if w.network == {} {
      assert w.(network := {}) == w;
    } else {
      var d :| d in w.network;
      ReachSame(w, Lose(d), quiet);
      LoseAll(Step(w, Lose(d)), quiet);
    }
  }

  /** The same datagram received again and again. */
  lemma {:induction false} ReceiveAgain(w: World, i: nat, d: Datagram, k: nat, quiet: bool) returns (v: World)
    requires Reached(w, quiet) && i < |w.clients| && !w.clients[i].switching && w.clients[i].count + k <= MESSAGES
    requires d in w.network && |d.data| == FRAME_SIZE && OnCurrent(w.clients[i], d.to)
    ensures Reached(v, quiet) && |v.clients| == |w.clients| && v.clients == w.clients[i := v.clients[i]]
    ensures v.subscribers == w.subscribers && v.network == w.network
    ensures S.SameRequests(w.clients[i], v.clients[i])
    ensures !v.clients[i].switching && v.clients[i].count == w.clients[i].count + k
    decreases k
  {
    if k == 0 {
      v := w;
    } else {
      var e := Receive(i, d);
      ReachSame(w, e, quiet);
      v := ReceiveAgain(Step(w, e), i, d, k - 1, quiet);
    }
  }

  // ----- one client, from port to port -----------------------------------------------------------------------

  /** The first client, alone, which has received its 50 frames at the last of its ports and is subscribed there. */
  predicate Settled(w: World, ports: seq<Port>) {
    && |w.clients| == 1 && ports != []
    && var c := w.clients[0];
       && c.address == 0 && c.control == [] && c.ports == ports && c.handled == |ports|
       && !c.switching && c.count == MESSAGES && w.subscribers == {At(c, |ports| - 1)}
  }

  /** The first client, alone, has one request on its way, and is subscribed where it was before, if anywhere. */
  predicate Asking(w: World) {
    && |w.clients| == 1
    && var c := w.clients[0];
       && |c.control| == 1 && c.handled + 1 == |c.ports|
       && w.subscribers == if c.handled == 0 then {} else {At(c, c.handled - 1)}
  }

  lemma FirstHandled(w: World)
    requires S.ControlsOk(w) && Asking(w) && w.clients[0].handled == 0
    ensures Enabled(w, HandleRequest(0))
    ensures Step(w, HandleRequest(0)).subscribers == {At(w.clients[0], 0)}
  {
    S.HandleEffect(w, 0);
  }

  lemma MovedSet(a: Endpoint, b: Endpoint)
    ensures {a} - {a} + {b} == {b}
  {}

  lemma NextHandled(w: World)
    requires S.ControlsOk(w) && Asking(w) && w.clients[0].handled > 0
    ensures Enabled(w, HandleRequest(0))
    ensures Step(w, HandleRequest(0)).subscribers == {At(w.clients[0], w.clients[0].handled)}
  {
    var c := w.clients[0];
    S.HandleEffect(w, 0);
    MovedSet(At(c, c.handled - 1), At(c, c.handled));
  }

  lemma HandledAlone(w: World)
    requires |w.clients| == 1 && Enabled(w, HandleRequest(0)) && |w.clients[0].control| == 1
    ensures var c, u := w.clients[0], Step(w, HandleRequest(0));
            u.clients == [c.(control := [], handled := c.handled + 1)] && u.network == w.network
  {
    assert w.clients[0].control[1..] == [];
  }

  lemma HandleReached(w: World, quiet: bool)
    requires Reached(w, quiet) && Asking(w)
    ensures Enabled(w, HandleRequest(0)) && Reached(Step(w, HandleRequest(0)), quiet)
    ensures var c, u := w.clients[0], Step(w, HandleRequest(0));
            && u.clients == [c.(control := [], handled := c.handled + 1)] && u.network == w.network
            && u.subscribers == {At(c, c.handled)}
  {
    ReachedControls(w, quiet);
    if w.clients[0].handled == 0 {
      FirstHandled(w);
    } else {
      NextHandled(w);
    }
    HandledAlone(w);
    ReachSame(w, HandleRequest(0), quiet);
  }

  /** Nothing has come into the network but what goes to this endpoint. */
  ghost predicate OnlyTo(network: set<Datagram>, after: set<Datagram>, to: Endpoint) {
    network <= after && forall d | d in after && d !in network :: d.to == to
  }

  lemma SendReached(w: World, to: Endpoint, quiet: bool) returns (d: Datagram)
    requires Reached(w, quiet) && w.subscribers == {to}
    ensures var v := Step(w, SendFrame(""));
            Reached(v, quiet) && d in v.network && d.to == to && |d.data| == FRAME_SIZE
            && OnlyTo(w.network, v.network, to)
  {
    d := Datagram(to, |w.sent| + 1, Frame(|w.sent| + 1, ""));
    assert d in Datagrams(w.subscribers, |w.sent| + 1, "");
    ReachSame(w, SendFrame(""), quiet);
  }

  /** Once its request is handled, the client is subscribed there and a frame is on its way. */
  lemma HandleAndSend(w: World, quiet: bool) returns (v: World, d: Datagram)
    requires Reached(w, quiet) && Asking(w)
    ensures Reached(v, quiet) && |v.clients| == 1
    ensures v.clients[0] == w.clients[0].(control := [], handled := w.clients[0].handled + 1)
    ensures d in v.network && |d.data| == FRAME_SIZE && OnlyTo(w.network, v.network, d.to)
    ensures d.to == At(v.clients[0], |v.clients[0].ports| - 1) && v.subscribers == {d.to}
  {
    HandleReached(w, quiet);
    var u := Step(w, HandleRequest(0));
    d := SendReached(u, At(w.clients[0], w.clients[0].handled), quiet);
    v := Step(u, SendFrame(""));
  }

  lemma FirstPort(port: Port, quiet: bool) returns (w: World, d: Datagram)
    requires port != 0
    ensures Reached(w, quiet) && Settled(w, [port]) && OnlyTo({}, w.network, Endpoint(0, port))
    ensures d in w.network && |d.data| == FRAME_SIZE && d.to == Endpoint(0, port)
  {
    ReachInitial(quiet);
    var e := Connect(0, port);
    var u := Step(INITIAL, e);
    ReachNext(INITIAL, e, quiet);
    u, d := HandleAndSend(u, quiet);
    w := ReceiveAgain(u, 0, d, MESSAGES, quiet);
  }

  lemma HopAllowed(w: World, ports: seq<Port>, port: Port, quiet: bool)
    requires Settled(w, ports) && port != ports[|ports| - 1]
    requires quiet ==> forall d | d in w.network :: d.to != Endpoint(0, port)
    ensures Allowed(w, Hop(0, port), quiet)
  {}

  lemma HopReached(w: World, ports: seq<Port>, port: Port, quiet: bool)
    requires Reached(w, quiet) && Settled(w, ports) && port != 0 && port != ports[|ports| - 1]
    requires quiet ==> forall d | d in w.network :: d.to != Endpoint(0, port)
    ensures Enabled(w, Hop(0, port)) && Reached(Step(w, Hop(0, port)), quiet)
  {
    HopAllowed(w, ports, port, quiet);
    ReachNext(w, Hop(0, port), quiet);
  }

  lemma NextPort(w: World, ports: seq<Port>, port: Port, quiet: bool) returns (v: World)
    requires Reached(w, quiet) && Settled(w, ports) && port != 0 && port != ports[|ports| - 1]
    requires quiet ==> forall d | d in w.network :: d.to != Endpoint(0, port)
    ensures Reached(v, quiet) && Settled(v, ports + [port]) && OnlyTo(w.network, v.network, Endpoint(0, port))
  {
    HopReached(w, ports, port, quiet);
    var u, d := HandleAndSend(Step(w, Hop(0, port)), quiet);
    var e := ReceiveOnNew(0, d);
    ReachSame(u, e, quiet);
    v := ReceiveAgain(Step(u, e), 0, d, MESSAGES, quiet);
  }

  // ----- the runs --------------------------------------------------------------------------------------------

  /** Ports one and two in turn. */
  function Alternating(n: nat): (ports: seq<Port>)
    ensures |ports| == n && forall k | 0 <= k < n :: ports[k] == k % 2 + 1
  {
    seq(n, k => k % 2 + 1)
  }

  lemma AlternatingSnoc(n: nat)
    ensures Alternating(n + 1) == Alternating(n) + [n % 2 + 1]
  {}

  lemma {:induction false} HopsReached(n: nat) returns (w: World)
    requires n > 0
    ensures Reached(w, true) && Settled(w, Alternating(n))
  {
    if n == 1 {
      var d;
      w, d := FirstPort(1, true);
      assert Alternating(1) == [1];
    } else {
      w := HopsReached(n - 1);
      LoseAll(w, true);
      w := w.(network := {});
      AlternatingSnoc(n - 1);
      w := NextPort(w, Alternating(n - 1), (n - 1) % 2 + 1, true);
    }
  }

  /** Quiet runs have no end: a client may hop between two ports any number of times, as long as what was sent to the
      one is gone when the client comes back to it. */
  lemma HopsForEver(n: nat)
    requires n > 0
    ensures exists run, events :: QuietRun(run, events) && Settled(run[|events|], Alternating(n))
  {
    var w := HopsReached(n);
    var run: seq<World>, events: seq<Event> :| AllowedRun(run, events, true) && run[|events|] == w;
    AllowedIsRun(run, events, true);
  }

  /** The handover can fail. A client goes from port 1 to port 2 and, 50 frames later, gets port 1 again; a frame
      delayed since it was first there arrives, and the client closes its socket on port 2. It now receives on port
      1 alone, and the server sends to port 2. */
  lemma HandoverFails()
    ensures exists w :: Reached(w, false) && |w.clients| == 1 && w.clients[0].address == 0
                        && w.clients[0].ports == [1, 2, 1] && !w.clients[0].switching
                        && w.subscribers == {Endpoint(0, 2)}
  {
    var w, d := FirstPort(1, false);
    w := NextPort(w, [1], 2, false);
    HopReached(w, [1, 2], 1, false);
    var u, e := Step(w, Hop(0, 1)), ReceiveOnNew(0, d);
    ReachSame(u, e, false);
    assert Step(u, e).clients[0].ports == [1, 2, 1];
    assert w.subscribers == {Endpoint(0, 2)};
  }

  /** So can the start. A second client gets port 1 once the first has left it, takes 50 copies of a frame delayed
      since then, and hops to port 3, which no datagram is under way to. It is subscribed at neither port. */
  lemma StartFails()
    ensures exists w :: Reached(w, false) && |w.clients| == 2 && Enabled(w, Hop(1, 3)) && Quiet(w, Hop(1, 3))
                        && w.clients[1].address == 0 && w.clients[1].ports == [1]
                        && w.subscribers == {Endpoint(0, 2)}
  {
    var w, d := FirstPort(1, false);
    var v := NextPort(w, [1], 2, false);
    assert forall g | g in v.network :: g.to == Endpoint(0, 1) || g.to == Endpoint(0, 2);
    var e := Connect(0, 1);
    ReachNext(v, e, false);
    var u := ReceiveAgain(Step(v, e), 1, d, MESSAGES, false);
    assert u.subscribers == {Endpoint(0, 2)};
    assert Quiet(u, Hop(1, 3));
  }
}
