/** The porthopper judged by its events alone: when a client hops, who is subscribed, what the server sends and what
    a client prints, told from what has happened, not from what the clients and the server keep. */
module HopperEvents {
  import opened HopperCodec
  import opened HopperModel
  import S = HopperSubscriptions

  // ----- told from the events --------------------------------------------------------------------------------

  /** How many clients have connected before the event with the given index. */
  function Clients(events: seq<Event>, n: nat): nat
    requires n <= |events|
  {
    if n == 0 then 0 else Clients(events, n - 1) + (if events[n - 1].Connect? then 1 else 0)
  }

  predicate Connects(events: seq<Event>, n: nat, i: nat)
    requires n < |events|
  {
    events[n].Connect? && Clients(events, n) == i
  }

  predicate Hops(events: seq<Event>, n: nat, i: nat)
    requires n < |events|
  {
    events[n].Hop? && events[n].id == i
  }

  /** The address client `i` has connected from. */
  function Address(events: seq<Event>, n: nat, i: nat): nat
    requires n <= |events|
  {
    if n == 0 then 0 else if Connects(events, n - 1, i) then events[n - 1].address else Address(events, n - 1, i)
  }

  /** The ports client `i` has opened, one when it connected and one each time it hopped. */
  function Ports(events: seq<Event>, n: nat, i: nat): seq<Port>
    requires n <= |events|
  {
    if n == 0 then []
    else if Connects(events, n - 1, i) || Hops(events, n - 1, i) then Ports(events, n - 1, i) + [events[n - 1].port]
    else Ports(events, n - 1, i)
  }

  /** How many of its requests the server has handled. */
  function Handled(events: seq<Event>, n: nat, i: nat): nat
    requires n <= |events|
  {
    if n == 0 then 0
    else Handled(events, n - 1, i) + (if events[n - 1] == HandleRequest(i) then 1 else 0)
  }

  /** Client `i` has hopped and has had no frame on its new socket since. */
  predicate Renegotiates(events: seq<Event>, n: nat, i: nat)
    requires n <= |events|
  {
    n > 0 && (Hops(events, n - 1, i)
              || (Renegotiates(events, n - 1, i) && !(events[n - 1].ReceiveOnNew? && events[n - 1].id == i)))
  }

  /** The frames it has received since it last hopped, not counting those of the renegotiation. */
  function Frames(events: seq<Event>, n: nat, i: nat): nat
    requires n <= |events|
  {
    if n == 0 || Hops(events, n - 1, i) then 0
    else
      var counts := events[n - 1].Receive? && events[n - 1].id == i && !Renegotiates(events, n - 1, i);
      Frames(events, n - 1, i) + (if counts then 1 else 0)
  }

  /** The payloads the server has sent. */
  function Payloads(events: seq<Event>, n: nat): seq<string>
    requires n <= |events|
  {
    if n == 0 then []
    else Payloads(events, n - 1) + (if events[n - 1].SendFrame? then [events[n - 1].payload] else [])
  }

  // ----- what is kept is what has happened -------------------------------------------------------------------

  predicate ClientOf(c: Client, events: seq<Event>, n: nat, i: nat)
    requires n <= |events|
  {
    && c.address == Address(events, n, i) && c.ports == Ports(events, n, i) && c.handled == Handled(events, n, i)
    && c.switching == Renegotiates(events, n, i) && c.count == Frames(events, n, i)
  }

  /** Nothing has happened to a client yet to come. */
  predicate NoneYet(events: seq<Event>, n: nat, i: nat)
    requires n <= |events|
  {
    && Ports(events, n, i) == [] && Handled(events, n, i) == 0
    && !Renegotiates(events, n, i) && Frames(events, n, i) == 0
  }

  lemma OldClientStep(w: World, events: seq<Event>, n: nat, i: nat)
    requires n < |events| && Enabled(w, events[n]) && i < |w.clients| == Clients(events, n)
    requires ClientOf(w.clients[i], events, n, i)
    ensures i < |Step(w, events[n]).clients| && ClientOf(Step(w, events[n]).clients[i], events, n + 1, i)
  {}

  lemma NewClientStep(w: World, events: seq<Event>, n: nat, i: nat)
    requires n < |events| && Enabled(w, events[n]) && |w.clients| == Clients(events, n) <= i && NoneYet(events, n, i)
    ensures if i < |Step(w, events[n]).clients| then ClientOf(Step(w, events[n]).clients[i], events, n + 1, i)
            else NoneYet(events, n + 1, i)
  {}

  lemma CountStep(w: World, events: seq<Event>, n: nat)
    requires n < |events| && Enabled(w, events[n]) && |w.clients| == Clients(events, n) && w.sent == Payloads(events, n)
    ensures |Step(w, events[n]).clients| == Clients(events, n + 1)
    ensures Step(w, events[n]).sent == Payloads(events, n + 1)
  {
    assert w.sent + [] == w.sent;
  }

  /** The clients there are and the payloads sent are those of the events. */
  lemma {:induction false} CountsOfTheEvents(run: seq<World>, events: seq<Event>, n: nat)
    requires IsRun(run, events) && n <= |events|
    ensures |run[n].clients| == Clients(events, n) && run[n].sent == Payloads(events, n)
  {
    if n == 0 {
    } else {
      CountsOfTheEvents(run, events, n - 1);
      assert StepAt(run, events, n - 1);
      CountStep(run[n - 1], events, n - 1);
    }
  }

  lemma {:induction false} ClientsOfTheEvents(run: seq<World>, events: seq<Event>, n: nat, i: nat)
    requires IsRun(run, events) && n <= |events|
    ensures if i < |run[n].clients| then ClientOf(run[n].clients[i], events, n, i) else NoneYet(events, n, i)
  {
    if n == 0 {
    } else {
      ClientsOfTheEvents(run, events, n - 1, i);
      CountsOfTheEvents(run, events, n - 1);
      assert StepAt(run, events, n - 1);
      if i < |run[n - 1].clients| {
        OldClientStep(run[n - 1], events, n - 1, i);
      } else {
        NewClientStep(run[n - 1], events, n - 1, i);
      }
    }
  }

  // ----- the theorems ----------------------------------------------------------------------------------------

  /** A client hops exactly when it has received 50 frames since it last did, those of the renegotiation not counted,
      and takes no more before it hops. */
  lemma HopsAfterFifty(run: seq<World>, events: seq<Event>, n: nat, i: nat, port: Port)
    requires IsRun(run, events) && n <= |events| && port != 0
    ensures Enabled(run[n], Hop(i, port))
            <==> i < Clients(events, n) && !Renegotiates(events, n, i) && Frames(events, n, i) == 50
    ensures Frames(events, n, i) <= 50
  {
    CountsOfTheEvents(run, events, n);
    ClientsOfTheEvents(run, events, n, i);
    if i < Clients(events, n) {
      HasPort(events, n, i);
    }
    AtMostFifty(run, events, n, i);
  }

  lemma {:induction false} HasPort(events: seq<Event>, n: nat, i: nat)
    requires n <= |events| && i < Clients(events, n)
    ensures Ports(events, n, i) != []
  {
    if n == 0 {
    } else if i < Clients(events, n - 1) {
      HasPort(events, n - 1, i);
    }
  }

  lemma {:induction false} AtMostFifty(run: seq<World>, events: seq<Event>, n: nat, i: nat)
    requires IsRun(run, events) && n <= |events|
    ensures Frames(events, n, i) <= 50
  {
    if n == 0 {
    } else {
      AtMostFifty(run, events, n - 1, i);
      assert StepAt(run, events, n - 1);
      ClientsOfTheEvents(run, events, n - 1, i);
    }
  }

  /** The client has a request handled, and the last one handled asked for this endpoint. */
  predicate AskedFor(events: seq<Event>, n: nat, i: nat, e: Endpoint)
    requires n <= |events|
  {
    var k := Handled(events, n, i);
    && 0 < k <= |Ports(events, n, i)| && e == Endpoint(Address(events, n, i), Ports(events, n, i)[k - 1])
  }

  /** In every run in which no client takes a port that another holds or has asked for, the subscribers are the
      endpoints that the requests handled last asked for, the k-th request of a client for the k-th port it opened. */
  lemma SubscribersOfTheEvents(run: seq<World>, events: seq<Event>, n: nat, e: Endpoint)
    requires S.UnsharedRun(run, events) && n <= |events|
    ensures e in run[n].subscribers <==> exists i | 0 <= i < Clients(events, n) :: AskedFor(events, n, i, e)
  {
    var w := run[n];
    CountsOfTheEvents(run, events, n);
    S.SubscribersAreLastHandled(run, events, n, e);
    if e in w.subscribers {
      var i :| 0 <= i < |w.clients| && 0 < w.clients[i].handled <= |w.clients[i].ports|
               && e == Endpoint(w.clients[i].address, w.clients[i].ports[w.clients[i].handled - 1]);
      ClientsOfTheEvents(run, events, n, i);
      assert AskedFor(events, n, i, e);
    }
    if i :| 0 <= i < Clients(events, n) && AskedFor(events, n, i, e) {
      ClientsOfTheEvents(run, events, n, i);
      assert e == Endpoint(w.clients[i].address, w.clients[i].ports[w.clients[i].handled - 1]);
    }
  }

  /** A frame is sent to every subscriber and to nobody else, under the number of frames sent so far, itself
      included. */
  lemma FramesGoOut(run: seq<World>, events: seq<Event>, n: nat, d: Datagram)
    requires IsRun(run, events) && n < |events| && events[n].SendFrame?
    ensures var number := |Payloads(events, n + 1)|;
            d in run[n + 1].network
            <==> d in run[n].network
                 || (d.to in run[n].subscribers && d.number == number && d.data == Frame(number, events[n].payload))
  {
    CountsOfTheEvents(run, events, n);
    assert StepAt(run, events, n);
  }

  /** The network makes nothing up, and loses what it is said to lose only. */
  lemma NetworkKeeps(run: seq<World>, events: seq<Event>, n: nat, d: Datagram)
    requires IsRun(run, events) && n < |events| && !events[n].SendFrame?
    ensures d in run[n + 1].network <==> d in run[n].network && events[n] != Lose(d)
  {
    assert StepAt(run, events, n);
  }

  /** Every number printed is below the given one. */
  predicate AllBelow(printed: seq<Shown>, number: nat) {
    forall k | 0 <= k < |printed| :: printed[k].number < number
  }

  lemma LastIsHighest(c: Client, number: nat)
    requires Increasing(c) && number > 0
    ensures number > c.last <==> AllBelow(c.printed, number)
  {
    if c.printed != [] && number > c.last {
      var l := |c.printed| - 1;
      forall k | 0 <= k < |c.printed|
        ensures c.printed[k].number < number
      {
        assert k == l || c.printed[k].number < c.printed[l].number;
      }
    }
  }

  /** A client prints the frame it receives exactly when its number is above all it has printed: as long as the frames
      sent are numbered in 32 bits, it is then printed as it was sent, and otherwise nothing is. */
  lemma PrintsIff(run: seq<World>, events: seq<Event>, n: nat)
    requires IsRun(run, events) && n < |events| && (events[n].Receive? || events[n].ReceiveOnNew?)
    requires |Payloads(events, n)| < 0x1_0000_0000
    ensures var i, d := events[n].id, events[n].datagram;
            && i < |run[n].clients| && |run[n + 1].clients| == |run[n].clients|
            && 1 <= d.number <= |Payloads(events, n)|
            && run[n + 1].clients[i].printed
               == run[n].clients[i].printed
                  + (if AllBelow(run[n].clients[i].printed, d.number)
                     then [Shown(d.number, Displayed(Payloads(events, n)[d.number - 1]))] else [])
  {
    CountsOfTheEvents(run, events, n);
    RunKeepsShows(run, events, n);
    assert StepAt(run, events, n);
    var w, i, d := run[n], events[n].id, events[n].datagram;
    assert DatagramOk(w.sent, d) && PrintedOk(w.sent, w.clients[i]);
    FrameRoundTrip(d.number, w.sent[d.number - 1]);
    LastIsHighest(w.clients[i], d.number);
    assert w.clients[i].printed + [] == w.clients[i].printed;
  }
}
