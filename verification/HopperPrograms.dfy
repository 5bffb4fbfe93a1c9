/** The porthopper server and client objects, alone and together, each proved to take the steps of the model. */
module HopperPrograms {
  import opened Basics
  import opened HopperCodec
  import M = HopperModel

  class Server {
    var subscribers: set<M.Endpoint>
    var nextFrameNumber: nat

    constructor ()
      ensures subscribers == {} && nextFrameNumber == 1
    {
      subscribers, nextFrameNumber := {}, 1;
    }

    /** A control request, from the address of the control connection's other end, when its delay is over. */
    method HandleControlRequest(address: nat, request: string)
      requires |request| == 2 * PORT_SIZE
      modifies this`subscribers
      ensures subscribers == M.Handle(old(subscribers), address, request)
    {
      var oldPort := OldPort(request);
      if oldPort != 0 {
        subscribers := subscribers - {M.Endpoint(address, oldPort)};
      }
      var newPort := NewPort(request);
      if newPort != 0 {
        subscribers := subscribers + {M.Endpoint(address, newPort)};
      }
    }

    /** Every time the timer fires: the next frame, one datagram for each subscriber. */
    method HandleTimer(payload: string) returns (datagrams: set<M.Datagram>)
      modifies this`nextFrameNumber
      ensures nextFrameNumber == old(nextFrameNumber) + 1
      ensures datagrams == M.Datagrams(subscribers, old(nextFrameNumber), payload)
    {
      var number := nextFrameNumber;
      var frame := Frame(number, payload);
      nextFrameNumber := nextFrameNumber + 1;
      datagrams := {};
      var todo := subscribers;
      while todo != {}
        invariant todo <= subscribers
        invariant datagrams == M.Datagrams(subscribers - todo, number, payload)
      {
        var e :| e in todo;
        datagrams := datagrams + {M.Datagram(e, number, frame)};
        todo := todo - {e};
        assert subscribers - todo == subscribers - (todo + {e}) + {e};
      }
      assert subscribers - todo == subscribers;
    }
  }

  predicate FramesOk(frames: seq<string>) {
    forall k | 0 <= k < |frames| :: |frames[k]| == FRAME_SIZE
  }

  /** The frames whose number is above that of every frame before them, and above zero. */
  function Records(frames: seq<string>): seq<M.Shown>
    requires FramesOk(frames)
  {
    if frames == [] then []
    else
      var front, last := frames[..|frames| - 1], frames[|frames| - 1];
      Records(front)
      + (if FrameNumber(last) > Highest(front) then [M.Shown(FrameNumber(last), FramePayload(last))] else [])
  }

  function Highest(frames: seq<string>): nat
    requires FramesOk(frames)
  {
    if frames == [] then 0
    else
      var n, m := Highest(frames[..|frames| - 1]), FrameNumber(frames[|frames| - 1]);
      if m > n then m else n
  }

  lemma RecordsSnoc(frames: seq<string>, f: string)
    requires FramesOk(frames) && |f| == FRAME_SIZE
    ensures FramesOk(frames + [f])
    ensures Highest(frames + [f]) == if FrameNumber(f) > Highest(frames) then FrameNumber(f) else Highest(frames)
    ensures Records(frames + [f])
         == Records(frames)
            + (if FrameNumber(f) > Highest(frames) then [M.Shown(FrameNumber(f), FramePayload(f))] else [])
  {
    assert (frames + [f])[..|frames|] == frames;
  }

  /** The highest number is that of some frame, or zero, and no frame has a higher one. */
  lemma {:induction false} HighestIsMaximum(frames: seq<string>)
    requires FramesOk(frames)
    ensures forall k | 0 <= k < |frames| :: FrameNumber(frames[k]) <= Highest(frames)
    ensures Highest(frames) == 0 || exists k :: 0 <= k < |frames| && FrameNumber(frames[k]) == Highest(frames)
  {
    if frames == [] {
    } else {
      HighestIsMaximum(frames[..|frames| - 1]);
      assert forall k | 0 <= k < |frames| - 1 :: frames[..|frames| - 1][k] == frames[k];
    }
  }

  /** What a client prints over a whole run, of whatever frames it received: strictly increasing numbers, and the
      last of them the highest number received. */
  lemma {:induction false} RecordsIncrease(frames: seq<string>)
    requires FramesOk(frames)
    ensures forall k, l | 0 <= k < l < |Records(frames)| :: Records(frames)[k].number < Records(frames)[l].number
    ensures Highest(frames) == if Records(frames) == [] then 0 else Records(frames)[|Records(frames)| - 1].number
  {
    if frames == [] {
    } else {
      RecordsIncrease(frames[..|frames| - 1]);
    }
  }

  /** Frames received one after another on the current socket. */
  function ReceivedAll(c: M.Client, frames: seq<string>): M.Client
    requires FramesOk(frames)
  {
    if frames == [] then c else M.Received(ReceivedAll(c, frames[..|frames| - 1]), frames[|frames| - 1])
  }

  /** A loop over the frames, at its start and at its end. */
  lemma ReceivedNone(c: M.Client, before: seq<string>, frames: seq<string>)
    requires FramesOk(frames)
    ensures frames[..0] == [] && ReceivedAll(c, frames[..0]) == c && before + frames[..0] == before
    ensures frames[..|frames|] == frames
  {}

  /** And a turn of it. */
  lemma ReceivedOneMore(c: M.Client, before: seq<string>, frames: seq<string>, i: nat)
    requires FramesOk(frames) && i < |frames|
    ensures ReceivedAll(c, frames[..i + 1]) == M.Received(ReceivedAll(c, frames[..i]), frames[i])
    ensures before + frames[..i + 1] == before + frames[..i] + [frames[i]]
  {
    assert frames[..i + 1][..i] == frames[..i];
  }

  /** They are counted, except during a renegotiation, and change nothing else but what is printed. */
  lemma {:induction false} ReceivedAllKeeps(c: M.Client, frames: seq<string>)
    requires FramesOk(frames)
    ensures var d := ReceivedAll(c, frames);
            && d.count == (if c.switching then c.count else c.count + |frames|)
            && d.switching == c.switching && d.ports == c.ports && d.address == c.address
            && d.control == c.control && d.handled == c.handled
  {
    if frames == [] {
    } else {
      ReceivedAllKeeps(c, frames[..|frames| - 1]);
    }
  }

  /** What has been printed are the records of the frames seen. */
  predicate PrintsRecords(seen: seq<string>, printed: seq<M.Shown>, last: nat) {
    FramesOk(seen) && printed == Records(seen) && last == Highest(seen)
  }

  lemma PrintsOneMore(seen: seq<string>, printed: seq<M.Shown>, last: nat, f: string)
    requires PrintsRecords(seen, printed, last) && |f| == FRAME_SIZE
    ensures if FrameNumber(f) > last
            then PrintsRecords(seen + [f], printed + [M.Shown(FrameNumber(f), FramePayload(f))], FrameNumber(f))
            else PrintsRecords(seen + [f], printed, last)
  {
    RecordsSnoc(seen, f);
  }

  /** The sockets are on the last port used, and while there is a new one on the last two. */
  predicate Sockets(ports: seq<Port>, dataPort: Port, newPort: Option<Port>) {
    match newPort
    case None => |ports| >= 1 && ports[|ports| - 1] == dataPort
    case Some(port) => |ports| >= 2 && ports[|ports| - 1] == port && ports[|ports| - 2] == dataPort
  }

  /** The client program. `dataPort` is the port of its socket, `newPort` that of its new one while it renegotiates.
      What it prints are the records of the frames it has seen. */
  class HopperClient {
    const address: nat
    var dataPort: Port
    var newPort: Option<Port>
    var count: nat
    var lastFrameNumber: nat
    var printed: seq<M.Shown>
    /** The control connection: the requests written to it and not yet taken by the server. */
    var control: seq<string>
    ghost var handled: nat
    ghost var ports: seq<Port>
    ghost var seen: seq<string>

    /** The client opens its first socket and asks the server to start. */
    constructor (address: nat, port: Port)
      ensures Valid() && seen == [] && View() == M.Connected(address, port)
    {
      this.address := address;
      dataPort, newPort, count, lastFrameNumber, printed := port, None, 0, 0, [];
      control, handled, ports, seen := [ControlRequest(0, port)], 0, [port], [];
    }

    ghost predicate Valid()
      reads this
    {
      PrintsRecords(seen, printed, lastFrameNumber) && Sockets(ports, dataPort, newPort)
    }

    ghost function View(): M.Client
      reads this
    {
      M.Client(address, ports, control, handled, newPort.Some?, count, lastFrameNumber, printed)
    }

    method Look(f: string)
      requires Valid() && |f| == FRAME_SIZE
      modifies this`lastFrameNumber, this`printed, this`seen
      ensures Valid() && seen == old(seen) + [f] && View() == M.Print(old(View()), f)
    {
      PrintsOneMore(seen, printed, lastFrameNumber, f);
      var number := FrameNumber(f);
      if number > lastFrameNumber {
        var shown := M.Shown(number, FramePayload(f));
        assert M.Print(View(), f) == View().(last := number, printed := printed + [shown]);
        lastFrameNumber, printed := number, printed + [shown];
      }
      seen := seen + [f];
      assert PrintsRecords(seen, printed, lastFrameNumber);
    }

    /** A frame on the socket, which during a renegotiation is the old one. */
    method Receive(f: string)
      requires Valid() && |f| == FRAME_SIZE
      modifies this`lastFrameNumber, this`printed, this`seen, this`count
      ensures Valid() && seen == old(seen) + [f] && View() == M.Received(old(View()), f)
    {
      Look(f);
      if newPort.None? {
        count := count + 1;
      }
    }

    /** Open a new socket and ask the server to switch over to it. */
    method Renegotiate(port: Port)
      requires Valid() && newPort.None?
      modifies this`newPort, this`count, this`control, this`ports
      ensures Valid() && View() == M.Hopped(old(View()), port)
    {
      control := control + [ControlRequest(dataPort, port)];
      newPort, count, ports := Some(port), 0, ports + [port];
    }

    /** A frame on the new socket: the old one is closed, and the renegotiation is complete. */
    method ReceiveOnNew(f: string)
      requires Valid() && newPort.Some? && |f| == FRAME_SIZE
      modifies this`lastFrameNumber, this`printed, this`seen, this`dataPort, this`newPort
      ensures Valid() && seen == old(seen) + [f] && View() == M.ReceivedOnNew(old(View()), f)
    {
      dataPort, newPort := newPort.value, None;
      Look(f);
    }

    /** The server's end of the control connection takes the next request. */
    method TakeRequest() returns (request: string)
      requires Valid() && control != []
      modifies this`control, this`handled
      ensures Valid() && request == old(control[0])
      ensures View() == old(View()).(control := old(control)[1..], handled := old(handled) + 1)
    {
      request := control[0];
      control, handled := control[1..], handled + 1;
    }

    method ReceiveAll(frames: seq<string>)
      requires Valid() && FramesOk(frames)
      modifies this`lastFrameNumber, this`printed, this`seen, this`count
      ensures Valid() && seen == old(seen) + frames && View() == ReceivedAll(old(View()), frames)
    {
      ghost var start, before := View(), seen;
      ReceivedNone(start, before, frames);
      for i := 0 to |frames|
        modifies this`lastFrameNumber, this`printed, this`seen, this`count
        invariant Valid() && seen == before + frames[..i] && View() == ReceivedAll(start, frames[..i])
      {
        ReceivedOneMore(start, before, frames, i);
        Receive(frames[i]);
      }
      ReceivedNone(start, before, frames);
    }

    /** One round of the program: 50 frames, then a renegotiation during which frames still come to the old socket,
        until one comes to the new. Whatever the frames, it prints the records among all it has seen. */
    method Round(first: seq<string>, port: Port, during: seq<string>, next: string)
      requires Valid() && newPort.None? && count == 0 && |first| == 50
      requires FramesOk(first) && FramesOk(during) && |next| == FRAME_SIZE
      modifies this
      ensures Valid() && newPort.None? && count == 0 && seen == old(seen) + first + during + [next]
      ensures var c := ReceivedAll(old(View()), first); c.ports != [] && c.count == 50
      ensures View() == M.ReceivedOnNew(ReceivedAll(M.Hopped(ReceivedAll(old(View()), first), port), during), next)
    {
      ReceivedAllKeeps(View(), first);
      ReceiveAll(first);
      Renegotiate(port);
      ReceivedAllKeeps(View(), during);
      ReceiveAll(during);
      ReceiveOnNew(next);
    }
  }

  /** The server, its clients and the network. */
  class System {
    const server: Server
    var clients: seq<HopperClient>
    ghost var network: set<M.Datagram>

    constructor ()
      ensures fresh(server) && Abstracts(M.INITIAL)
    {
      server := new Server();
      clients, network := [], {};
    }

    /** The objects are in the state `w` of the model. */
    ghost predicate Abstracts(w: M.World)
      reads this, server, clients
    {
      && |w.clients| == |clients|
      && (forall i, j | 0 <= i < j < |clients| :: clients[i] != clients[j])
      && (forall i | 0 <= i < |clients| :: clients[i].Valid() && clients[i].View() == w.clients[i])
      && server.subscribers == w.subscribers && server.nextFrameNumber == |w.sent| + 1 && network == w.network
    }

    method Connect(address: nat, port: Port, ghost w: M.World)
      requires Abstracts(w) && M.Enabled(w, M.Connect(address, port))
      modifies this`clients
      ensures Abstracts(M.Step(w, M.Connect(address, port)))
    {
      var c := new HopperClient(address, port);
      clients := clients + [c];
    }

    method Hop(i: nat, port: Port, ghost w: M.World)
      requires Abstracts(w) && M.Enabled(w, M.Hop(i, port))
      modifies clients
      ensures Abstracts(M.Step(w, M.Hop(i, port)))
    {
      clients[i].Renegotiate(port);
    }

    /** The server takes the next request of a control connection and handles it. */
    method HandleRequest(i: nat, ghost w: M.World)
      requires Abstracts(w) && M.Enabled(w, M.HandleRequest(i))
      modifies clients, server`subscribers
      ensures Abstracts(M.Step(w, M.HandleRequest(i)))
    {
      var request := clients[i].TakeRequest();
      server.HandleControlRequest(clients[i].address, request);
    }

    method SendFrame(payload: string, ghost w: M.World)
      requires Abstracts(w)
      modifies this`network, server`nextFrameNumber
      ensures Abstracts(M.Step(w, M.SendFrame(payload)))
    {
      var datagrams := server.HandleTimer(payload);
      network := network + datagrams;
    }

    method Receive(i: nat, d: M.Datagram, ghost w: M.World)
      requires Abstracts(w) && M.Enabled(w, M.Receive(i, d))
      modifies clients
      ensures Abstracts(M.Step(w, M.Receive(i, d)))
    {
      clients[i].Receive(d.data);
    }

    method ReceiveOnNew(i: nat, d: M.Datagram, ghost w: M.World)
      requires Abstracts(w) && M.Enabled(w, M.ReceiveOnNew(i, d))
      modifies clients
      ensures Abstracts(M.Step(w, M.ReceiveOnNew(i, d)))
    {
      clients[i].ReceiveOnNew(d.data);
    }

    /** The network loses a datagram, or has delivered it for the last time. */
    ghost method Lose(d: M.Datagram, w: M.World)
      requires Abstracts(w) && M.Enabled(w, M.Lose(d))
      modifies this`network
      ensures Abstracts(M.Step(w, M.Lose(d)))
    {
      network := network - {d};
    }
  }
}
