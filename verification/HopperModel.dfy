/** The porthopper as a state machine: a server, any number of clients, a TCP control connection from each client
    to the server, and a datagram network that may lose, duplicate, delay and reorder what the server sends. */
module HopperModel {
  import opened HexFields
  import opened HopperCodec

  datatype Endpoint = Endpoint(address: nat, port: nat)

  /** A datagram the server has sent. While it is under way it may be received any number of times. `number` is
      history, the frame number it was sent under. */
  datatype Datagram = Datagram(to: Endpoint, number: nat, data: string)

  datatype Shown = Shown(number: nat, payload: string)

  /** `ports` are the ports the client has ever received on, the newest last. `control` are the requests written
      to its control connection that the server has not handled; `handled` counts those it has. While
      `switching`, the client receives on the last two ports, otherwise on the last. */
  datatype Client = Client(address: nat, ports: seq<Port>, control: seq<string>, handled: nat,
                           switching: bool, count: nat, last: nat, printed: seq<Shown>)

  /** `sent` are the payloads sent so far, that of frame number n at index n - 1; `network` are the datagrams under
      way. */
  datatype World = World(clients: seq<Client>, subscribers: set<Endpoint>, sent: seq<string>, network: set<Datagram>)

  datatype Event =
    | Connect(address: nat, port: Port)
    | Hop(id: nat, port: Port)
    | HandleRequest(id: nat)
    | SendFrame(payload: string)
    | Receive(id: nat, datagram: Datagram)
    | ReceiveOnNew(id: nat, datagram: Datagram)
    | Lose(datagram: Datagram)

  const INITIAL := World([], {}, [], {})
  const MESSAGES := 50

  // ----- the programs --------------------------------------------------------------------------------------

  function At(c: Client, k: nat): Endpoint
    requires k < |c.ports|
  {
    Endpoint(c.address, c.ports[k])
  }

  /** The server's handling of a control request from the given address. */
  function Handle(subscribers: set<Endpoint>, address: nat, data: string): set<Endpoint>
    requires |data| == 2 * PORT_SIZE
  {
    var oldPort, newPort := OldPort(data), NewPort(data);
    var rest := if oldPort != 0 then subscribers - {Endpoint(address, oldPort)} else subscribers;
    if newPort != 0 then rest + {Endpoint(address, newPort)} else rest
  }

  function Datagrams(subscribers: set<Endpoint>, number: nat, payload: string): set<Datagram> {
    set e | e in subscribers :: Datagram(e, number, Frame(number, payload))
  }

  /** A client that has asked for its first port. */
  function Connected(address: nat, port: Port): Client {
    Client(address, [port], [ControlRequest(0, port)], 0, false, 0, 0, [])
  }

  /** A client just after it has asked for a new port. */
  function Hopped(c: Client, port: Port): Client
    requires c.ports != []
  {
    c.(ports := c.ports + [port], switching := true, count := 0,
       control := c.control + [ControlRequest(c.ports[|c.ports| - 1], port)])
  }

  /** A received frame is printed if its number is above all printed so far. */
  function Print(c: Client, data: string): Client
    requires |data| == FRAME_SIZE
  {
    if FrameNumber(data) > c.last then
      c.(last := FrameNumber(data), printed := c.printed + [Shown(FrameNumber(data), FramePayload(data))])
    else c
  }

  /** A frame on the current socket, which while switching is the old one. */
  function Received(c: Client, data: string): Client
    requires |data| == FRAME_SIZE
  {
    Print(c, data).(count := if c.switching then c.count else c.count + 1)
  }

  /** A frame on the new socket ends the renegotiation. */
  function ReceivedOnNew(c: Client, data: string): Client
    requires |data| == FRAME_SIZE
  {
    Print(c, data).(switching := false)
  }

  /** The endpoint of the socket a client receives on, which while switching is the old one. */
  predicate OnCurrent(c: Client, e: Endpoint) {
    var k := |c.ports| - (if c.switching then 2 else 1);
    k >= 0 && e == At(c, k)
  }

  predicate OnNew(c: Client, e: Endpoint) {
    c.switching && c.ports != [] && e == At(c, |c.ports| - 1)
  }

  // ----- steps ---------------------------------------------------------------------------------------------

  predicate Enabled(w: World, e: Event) {
    match e
    case Connect(address, port) => port != 0
    case Hop(i, port) =>
      && i < |w.clients| && port != 0
      && !w.clients[i].switching && w.clients[i].count == MESSAGES && w.clients[i].ports != []
    case HandleRequest(i) =>
      i < |w.clients| && w.clients[i].control != [] && |w.clients[i].control[0]| == 2 * PORT_SIZE
    case SendFrame(payload) => true
    case Receive(i, d) =>
      && i < |w.clients| && d in w.network && |d.data| == FRAME_SIZE && OnCurrent(w.clients[i], d.to)
      && (!w.clients[i].switching ==> w.clients[i].count < MESSAGES)
    case ReceiveOnNew(i, d) =>
      i < |w.clients| && d in w.network && |d.data| == FRAME_SIZE && OnNew(w.clients[i], d.to)
    case Lose(d) => d in w.network
  }

  function Update(w: World, i: nat, c: Client): World
    requires i < |w.clients|
  {
    w.(clients := w.clients[i := c])
  }

  function Step(w: World, e: Event): World
    requires Enabled(w, e)
  {
    match e
    case Connect(address, port) => w.(clients := w.clients + [Connected(address, port)])
    case Hop(i, port) => Update(w, i, Hopped(w.clients[i], port))
    case HandleRequest(i) =>
      var c := w.clients[i];
      Update(w, i, c.(control := c.control[1..], handled := c.handled + 1))
        .(subscribers := Handle(w.subscribers, c.address, c.control[0]))
    case SendFrame(payload) =>
      w.(sent := w.sent + [payload], network := w.network + Datagrams(w.subscribers, |w.sent| + 1, payload))
    case Receive(i, d) => Update(w, i, Received(w.clients[i], d.data))
    case ReceiveOnNew(i, d) => Update(w, i, ReceivedOnNew(w.clients[i], d.data))
    case Lose(d) => w.(network := w.network - {d})
  }

  predicate StepAt(run: seq<World>, events: seq<Event>, n: nat) {
    n < |events| < |run| && Enabled(run[n], events[n]) && run[n + 1] == Step(run[n], events[n])
  }

  /** The worlds some events lead through. */
  ghost predicate IsPath(run: seq<World>, events: seq<Event>) {
    |run| == |events| + 1 && forall n: nat | n < |events| :: StepAt(run, events, n)
  }

  ghost predicate IsRun(run: seq<World>, events: seq<Event>) {
    IsPath(run, events) && run[0] == INITIAL
  }

  // ----- what clients print --------------------------------------------------------------------------------

  /** What the payload of a frame looks like when printed. */
  function Displayed(payload: string): string {
    PadLeft(Cut(payload, PAYLOAD_SIZE), PAYLOAD_SIZE)
  }

  /** Printed numbers are strictly increasing. */
  predicate Increasing(c: Client) {
    && (forall k, l | 0 <= k < l < |c.printed| :: c.printed[k].number < c.printed[l].number)
    && c.last == if c.printed == [] then 0 else c.printed[|c.printed| - 1].number
  }

  /** Each payload printed is the one sent under its number. */
  predicate AsSent(sent: seq<string>, printed: seq<Shown>) {
    forall k | 0 <= k < |printed| ::
      1 <= printed[k].number <= |sent| && printed[k].payload == Displayed(sent[printed[k].number - 1])
  }

  const NUMBERS := 0x1_0000_0000

  predicate PrintedOk(sent: seq<string>, c: Client) {
    Increasing(c) && (|sent| < NUMBERS ==> AsSent(sent, c.printed))
  }

  predicate DatagramOk(sent: seq<string>, d: Datagram) {
    1 <= d.number <= |sent| && d.data == Frame(d.number, sent[d.number - 1])
  }

  ghost predicate Shows(w: World) {
    && (forall i | 0 <= i < |w.clients| :: PrintedOk(w.sent, w.clients[i]))
    && (forall d | d in w.network :: DatagramOk(w.sent, d))
  }

  lemma PrintKeepsPrinted(sent: seq<string>, c: Client, d: Datagram)
    requires PrintedOk(sent, c) && DatagramOk(sent, d)
    ensures PrintedOk(sent, Print(c, d.data))
  {
    FrameRoundTrip(d.number, sent[d.number - 1]);
  }

  lemma LongerSent(sent: seq<string>, payload: string, c: Client)
    requires PrintedOk(sent, c)
    ensures PrintedOk(sent + [payload], c)
  {}

  lemma PrintedSame(sent: seq<string>, c: Client, d: Client)
    requires PrintedOk(sent, c) && d.printed == c.printed && d.last == c.last
    ensures PrintedOk(sent, d)
  {}

  lemma SendKeepsShows(w: World, payload: string)
    requires Shows(w)
    ensures Shows(Step(w, SendFrame(payload)))
  {
    var v := Step(w, SendFrame(payload));
    forall i | 0 <= i < |w.clients|
      ensures PrintedOk(v.sent, w.clients[i])
    {
      LongerSent(w.sent, payload, w.clients[i]);
    }
    forall d | d in v.network
      ensures DatagramOk(v.sent, d)
    {
      if d in w.network {
        assert DatagramOk(w.sent, d);
      }
    }
  }

  /** A step that changes one client keeps what was shown if that client does. */
  lemma UpdateKeepsShows(w: World, v: World, i: nat)
    requires Shows(w) && v.sent == w.sent && v.network == w.network && i < |v.clients|
    requires forall j | 0 <= j < |v.clients| && j != i :: j < |w.clients| && v.clients[j] == w.clients[j]
    requires PrintedOk(w.sent, v.clients[i])
    ensures Shows(v)
  {
    forall j | 0 <= j < |v.clients|
      ensures PrintedOk(v.sent, v.clients[j])
    {
      if j != i {
        var c := v.clients[j];
        assert PrintedOk(w.sent, w.clients[j]) && c == w.clients[j];
      }
    }
  }

  lemma ReceiveKeepsPrinted(w: World, e: Event)
    requires Shows(w) && Enabled(w, e) && (e.Receive? || e.ReceiveOnNew?)
    ensures PrintedOk(w.sent, Step(w, e).clients[e.id])
  {
    var c, d := w.clients[e.id], e.datagram;
    assert PrintedOk(w.sent, c) && DatagramOk(w.sent, d);
    PrintKeepsPrinted(w.sent, c, d);
    PrintedSame(w.sent, Print(c, d.data), Step(w, e).clients[e.id]);
  }

  lemma StepKeepsShows(w: World, e: Event)
    requires Shows(w) && Enabled(w, e)
    ensures Shows(Step(w, e))
  {
    match e
    case Connect(address, port) => UpdateKeepsShows(w, Step(w, e), |w.clients|);
    case Hop(i, port) =>
      PrintedSame(w.sent, w.clients[i], Step(w, e).clients[i]);
      UpdateKeepsShows(w, Step(w, e), i);
    case HandleRequest(i) =>
      PrintedSame(w.sent, w.clients[i], Step(w, e).clients[i]);
      UpdateKeepsShows(w, Step(w, e), i);
    case SendFrame(payload) => SendKeepsShows(w, payload);
    case Receive(i, d) =>
      ReceiveKeepsPrinted(w, e);
      UpdateKeepsShows(w, Step(w, e), i);
    case ReceiveOnNew(i, d) =>
      ReceiveKeepsPrinted(w, e);
      UpdateKeepsShows(w, Step(w, e), i);
    case Lose(d) =>
  }

  lemma {:induction false} RunKeepsShows(run: seq<World>, events: seq<Event>, n: nat)
    requires IsRun(run, events) && n <= |events|
    ensures Shows(run[n])
  {
    if n == 0 {
    } else {
      RunKeepsShows(run, events, n - 1);
      assert StepAt(run, events, n - 1);
      StepKeepsShows(run[n - 1], events[n - 1]);
    }
  }

  /** End to end: at every point of every run, over any number of hops to whatever ports, the frame numbers a
      client has printed are strictly increasing, and as long as the frames sent are numbered in 32 bits each
      payload printed is the one the server sent under that number. */
  lemma PrintsInOrder(run: seq<World>, events: seq<Event>, n: nat, i: nat)
    requires IsRun(run, events) && n <= |events| && i < |run[n].clients|
    ensures var printed, sent := run[n].clients[i].printed, run[n].sent;
            && (forall k, l | 0 <= k < l < |printed| :: printed[k].number < printed[l].number)
            && (|sent| < 0x1_0000_0000 ==>
                  forall k | 0 <= k < |printed| ::
                    1 <= printed[k].number <= |sent| && printed[k].payload == Displayed(sent[printed[k].number - 1]))
  {
    RunKeepsShows(run, events, n);
    assert PrintedOk(run[n].sent, run[n].clients[i]);
  }
}
