/** The non-blocking echo connection as a state machine: a library session that reads and writes the socket
    itself, and the glue that waits for the socket to be ready on its behalf. */
module EchoModel {
  import opened Basics
  import opened Asio

  const CAPACITY := 128

  datatype Direction = Reading | Writing

  /** The library's session: its buffer, and the part of the buffer still to be written. */
  datatype Session = Session(state: Direction, data: string, at: nat, size: nat)

  datatype Error = Success | WouldBlock | Failure

  /** A started connection. `readWaits` and `writeWaits` count the outstanding waits on the socket, `readyReads` and
      `readyWrites` hold the results of completed waits whose handlers have yet to run. `received` and `sent` are
      history: the bytes taken from and given to the socket. */
  datatype Connection = Connection(open: bool, session: Session, readInProgress: bool, writeInProgress: bool,
                                   readWaits: nat, writeWaits: nat, readyReads: seq<Error>, readyWrites: seq<Error>,
                                   received: string, sent: string)

  datatype Event =
    | Readable(result: Error)
    | Writable(result: Error)
    | RunRead(k: nat, bytes: string, error: Error)
    | RunWrite(k: nat, count: nat, error: Error)

  // ----- the library session -------------------------------------------------------------------------------

  /** A buffer whose beginning has been overwritten. */
  function Overwritten(data: string, bytes: string): (r: string)
    requires |bytes| <= |data|
    ensures |r| == |data|
  {
    bytes + data[|bytes|..]
  }

  function DoRead(s: Session, bytes: string): Session
    requires |bytes| <= |s.data|
  {
    if bytes == "" then s else Session(Writing, Overwritten(s.data, bytes), 0, |bytes|)
  }

  function DoWrite(s: Session, count: nat): Session
    requires count <= s.size
  {
    if count == 0 then s
    else Session(if s.size > count then Writing else Reading, s.data, s.at + count, s.size - count)
  }

  function Unsent(s: Session): string
    requires s.at + s.size <= |s.data|
  {
    s.data[s.at..s.at + s.size]
  }

  // ----- the connection ------------------------------------------------------------------------------------

  function Failures(n: nat): (s: seq<Error>)
    ensures |s| == n
  {
    seq(n, i => Failure)
  }

  function StartRead(c: Connection): Connection {
    if c.session.state == Reading && !c.readInProgress then
      c.(readInProgress := true, readWaits := c.readWaits + 1)
    else c
  }

  function StartWrite(c: Connection): Connection {
    if c.session.state == Writing && !c.writeInProgress then
      c.(writeInProgress := true, writeWaits := c.writeWaits + 1)
    else c
  }

  function StartOperations(c: Connection): Connection {
    StartWrite(StartRead(c))
  }

  /** Closing the socket completes the outstanding waits with an error. */
  function Close(c: Connection): Connection {
    c.(open := false, readWaits := 0, writeWaits := 0,
       readyReads := c.readyReads + Failures(c.readWaits), readyWrites := c.readyWrites + Failures(c.writeWaits))
  }

  function Proceed(c: Connection, error: Error): Connection {
    if error.Failure? then Close(c) else StartOperations(c)
  }

  /** `result` is that of the wait; `bytes` and `error` are those of the read the library then performs. */
  function HandleRead(c: Connection, result: Error, bytes: string, error: Error): Connection
    requires |bytes| <= |c.session.data|
  {
    var d := c.(readInProgress := false);
    if result.Success? then Proceed(d.(session := DoRead(d.session, bytes), received := d.received + bytes), error)
    else Proceed(d, result)
  }

  function HandleWrite(c: Connection, result: Error, count: nat, error: Error): Connection
    requires c.session.at + c.session.size <= |c.session.data| && count <= c.session.size
  {
    var d := c.(writeInProgress := false);
    if result.Success? then
      Proceed(d.(session := DoWrite(d.session, count), sent := d.sent + Unsent(d.session)[..count]), error)
    else Proceed(d, result)
  }

  /** A read gives at most as many bytes as the buffer has room for, a write takes at most as many as it is
      given; either may give or take none. */
  predicate Enabled(c: Connection, e: Event) {
    match e
    case Readable(result) => c.readWaits > 0
    case Writable(result) => c.writeWaits > 0
    case RunRead(k, bytes, error) => k < |c.readyReads| && |bytes| <= |c.session.data|
    case RunWrite(k, count, error) =>
      k < |c.readyWrites| && c.session.at + c.session.size <= |c.session.data| && count <= c.session.size
  }

  function Step(c: Connection, e: Event): Connection
    requires Enabled(c, e)
  {
    match e
    case Readable(result) => c.(readWaits := c.readWaits - 1, readyReads := c.readyReads + [result])
    case Writable(result) => c.(writeWaits := c.writeWaits - 1, readyWrites := c.readyWrites + [result])
    case RunRead(k, bytes, error) =>
      HandleRead(c.(readyReads := Without(c.readyReads, k)), c.readyReads[k], bytes, error)
    case RunWrite(k, count, error) =>
      HandleWrite(c.(readyWrites := Without(c.readyWrites, k)), c.readyWrites[k], count, error)
  }

  /** A connection whose socket has just been accepted, whatever its buffer holds. */
  predicate Fresh(c: Connection) {
    && c.open && c.session.state == Reading && |c.session.data| == CAPACITY && c.session.at == 0 && c.session.size == 0
    && !c.readInProgress && !c.writeInProgress && c.readWaits == 0 && c.writeWaits == 0
    && c.readyReads == [] && c.readyWrites == [] && c.received == "" && c.sent == ""
  }

  predicate StepAt(run: seq<Connection>, events: seq<Event>, n: nat) {
    n < |events| < |run| && Enabled(run[n], events[n]) && run[n + 1] == Step(run[n], events[n])
  }

  predicate Started(c: Connection, blank: Connection) {
    Fresh(blank) && c == StartOperations(blank)
  }

  /** The states a run passes through, from `start` on. */
  ghost predicate IsRun(run: seq<Connection>, events: seq<Event>) {
    && |run| == |events| + 1
    && (exists c :: Started(run[0], c))
    && forall n: nat | n < |events| :: StepAt(run, events, n)
  }

  // ----- what every step keeps -----------------------------------------------------------------------------

  /** There is something to write exactly while the session is writing. */
  predicate SessionOk(s: Session) {
    |s.data| == CAPACITY && s.at + s.size <= |s.data| && (s.state == Writing <==> s.size > 0)
  }

  predicate Echoed(c: Connection)
    requires SessionOk(c.session)
  {
    c.sent + Unsent(c.session) == c.received
  }

  /** The given numbers of read and write waits are outstanding or have a handler ready. */
  predicate Waits(c: Connection, reading: nat, writing: nat) {
    && c.readWaits + |c.readyReads| == reading
    && c.writeWaits + |c.readyWrites| == writing
    && c.readInProgress == (reading > 0)
    && c.writeInProgress == (writing > 0)
  }

  predicate Inv(c: Connection) {
    && SessionOk(c.session) && Echoed(c)
    && (if !c.open then Waits(c, 0, 0)
        else if c.session.state == Reading then Waits(c, 1, 0)
        else Waits(c, 0, 1))
  }

  /** What a handler has to leave before the connection proceeds: none of its waits. */
  predicate Idle(c: Connection) {
    c.open && SessionOk(c.session) && Echoed(c) && Waits(c, 0, 0)
  }

  lemma ProceedKeepsInv(c: Connection, error: Error)
    requires Idle(c)
    ensures Inv(Proceed(c, error))
  {}

  lemma ReadKeepsEcho(c: Connection, bytes: string)
    requires SessionOk(c.session) && Echoed(c) && c.session.state == Reading && |bytes| <= CAPACITY
    ensures var d := c.(session := DoRead(c.session, bytes), received := c.received + bytes);
            SessionOk(d.session) && Echoed(d)
  {
    assert c.sent + "" == c.received;
    if bytes == "" {
      assert c.received + bytes == c.received;
    } else {
      assert Unsent(DoRead(c.session, bytes)) == bytes;
    }
  }

  lemma WriteKeepsEcho(c: Connection, count: nat)
    requires SessionOk(c.session) && Echoed(c) && count <= c.session.size
    ensures var d := c.(session := DoWrite(c.session, count), sent := c.sent + Unsent(c.session)[..count]);
            SessionOk(d.session) && Echoed(d)
  {
    var u := Unsent(c.session);
    assert Unsent(DoWrite(c.session, count)) == u[count..];
    assert u[..count] + u[count..] == u;
    Assoc(c.sent, u[..count], u[count..]);
  }

  lemma RunReadKeepsInv(c: Connection, k: nat, bytes: string, error: Error)
    requires Inv(c) && Enabled(c, RunRead(k, bytes, error))
    ensures Inv(Step(c, RunRead(k, bytes, error)))
  {
    var d := c.(readyReads := Without(c.readyReads, k), readInProgress := false);
    assert Idle(d);
    if c.readyReads[k].Success? {
      ReadKeepsEcho(d, bytes);
      ProceedKeepsInv(d.(session := DoRead(d.session, bytes), received := d.received + bytes), error);
    } else {
      ProceedKeepsInv(d, c.readyReads[k]);
    }
  }

  lemma RunWriteKeepsInv(c: Connection, k: nat, count: nat, error: Error)
    requires Inv(c) && Enabled(c, RunWrite(k, count, error))
    ensures Inv(Step(c, RunWrite(k, count, error)))
  {
    var d := c.(readyWrites := Without(c.readyWrites, k), writeInProgress := false);
    assert Idle(d);
    if c.readyWrites[k].Success? {
      WriteKeepsEcho(d, count);
      ProceedKeepsInv(d.(session := DoWrite(d.session, count), sent := d.sent + Unsent(d.session)[..count]), error);
    } else {
      ProceedKeepsInv(d, c.readyWrites[k]);
    }
  }

  lemma StepKeepsInv(c: Connection, e: Event)
    requires Inv(c) && Enabled(c, e)
    ensures Inv(Step(c, e))
  {
    match e
    case Readable(result) =>
    case Writable(result) =>
    case RunRead(k, bytes, error) => RunReadKeepsInv(c, k, bytes, error);
    case RunWrite(k, count, error) => RunWriteKeepsInv(c, k, count, error);
  }

  lemma {:induction false} RunKeepsInv(run: seq<Connection>, events: seq<Event>, n: nat)
    requires IsRun(run, events) && n <= |events|
    ensures Inv(run[n])
  {
    if n == 0 {
      var c :| Started(run[0], c);
      ProceedKeepsInv(c, Success);
    } else {
      RunKeepsInv(run, events, n - 1);
      assert StepAt(run, events, n - 1);
      StepKeepsInv(run[n - 1], events[n - 1]);
    }
  }

  // ----- the theorems --------------------------------------------------------------------------------------

  /** Conservation: at every point of every run, however the reads and writes are cut, the bytes sent followed
      by the unsent part of the buffer are the bytes received. */
  lemma EchoConservation(run: seq<Connection>, events: seq<Event>, n: nat)
    requires IsRun(run, events) && n <= |events|
    ensures var c := run[n];
            && c.session.at + c.session.size <= |c.session.data|
            && c.sent + c.session.data[c.session.at..c.session.at + c.session.size] == c.received
  {
    RunKeepsInv(run, events, n);
  }

  /** Between handlers an open connection waits for exactly one thing, the one its session wants, and the flags
      say so; a closed one waits for nothing and has no handler left to run. */
  lemma OneOperation(run: seq<Connection>, events: seq<Event>, n: nat)
    requires IsRun(run, events) && n <= |events|
    ensures var c := run[n];
            && c.readWaits + |c.readyReads| == (if c.open && c.session.state == Reading then 1 else 0)
            && c.writeWaits + |c.readyWrites| == (if c.open && c.session.state == Writing then 1 else 0)
            && (c.readInProgress <==> c.readWaits + |c.readyReads| == 1)
            && (c.writeInProgress <==> c.writeWaits + |c.readyWrites| == 1)
  {
    RunKeepsInv(run, events, n);
  }

  /** The buffer is never overwritten while part of it is unsent: the read handler only runs once everything
      received has been sent. */
  lemma ReadsWhenAllSent(run: seq<Connection>, events: seq<Event>, n: nat)
    requires IsRun(run, events) && n < |events| && events[n].RunRead?
    ensures run[n].sent == run[n].received
  {
    RunKeepsInv(run, events, n);
    assert StepAt(run, events, n);
    assert run[n].sent + "" == run[n].received;
  }

  // ----- told from the events ------------------------------------------------------------------------------

  /** What the step takes from the socket: the bytes of a read performed after a successful wait. */
  function TakenIn(c: Connection, e: Event): string
    requires Enabled(c, e)
  {
    if e.RunRead? && c.readyReads[e.k].Success? then e.bytes else ""
  }

  /** What it gives to the socket: as many bytes as the write takes, from where the last one stopped. */
  function GivenOut(c: Connection, e: Event): string
    requires Enabled(c, e)
  {
    if e.RunWrite? && c.readyWrites[e.k].Success? then c.session.data[c.session.at..c.session.at + e.count] else ""
  }

  ghost function Input(run: seq<Connection>, events: seq<Event>, n: nat): string
    requires IsRun(run, events) && n <= |events|
  {
    if n == 0 then ""
    else
      assert StepAt(run, events, n - 1);
      Input(run, events, n - 1) + TakenIn(run[n - 1], events[n - 1])
  }

  ghost function Output(run: seq<Connection>, events: seq<Event>, n: nat): string
    requires IsRun(run, events) && n <= |events|
  {
    if n == 0 then ""
    else
      assert StepAt(run, events, n - 1);
      Output(run, events, n - 1) + GivenOut(run[n - 1], events[n - 1])
  }

  lemma StepRecords(c: Connection, e: Event)
    requires Inv(c) && Enabled(c, e)
    ensures Step(c, e).received == c.received + TakenIn(c, e) && Step(c, e).sent == c.sent + GivenOut(c, e)
  {
    assert c.received + "" == c.received && c.sent + "" == c.sent;
    if e.RunWrite? {
      assert Unsent(c.session)[..e.count] == c.session.data[c.session.at..c.session.at + e.count];
    }
  }

  lemma {:induction false} RecordsAreOfTheRun(run: seq<Connection>, events: seq<Event>, n: nat)
    requires IsRun(run, events) && n <= |events|
    ensures run[n].received == Input(run, events, n) && run[n].sent == Output(run, events, n)
  {
    if n == 0 {
    } else {
      RecordsAreOfTheRun(run, events, n - 1);
      RunKeepsInv(run, events, n - 1);
      assert StepAt(run, events, n - 1);
      StepRecords(run[n - 1], events[n - 1]);
    }
  }

  /** Whatever was read from the socket has been written to it or is still in the buffer, to be written next. */
  lemma EchoesItsInput(run: seq<Connection>, events: seq<Event>, n: nat)
    requires IsRun(run, events) && n <= |events|
    ensures var s := run[n].session;
            && s.at + s.size <= |s.data| == 128
            && Output(run, events, n) + s.data[s.at..s.at + s.size] == Input(run, events, n)
  {
    RunKeepsInv(run, events, n);
    RecordsAreOfTheRun(run, events, n);
  }

  /** The handler's wait failed, or the read or write it then performed did; would-block is not a failure. */
  predicate Fails(c: Connection, e: Event)
    requires Enabled(c, e)
  {
    match e
    case Readable(_) => false
    case Writable(_) => false
    case RunRead(k, _, error) => c.readyReads[k].Failure? || (c.readyReads[k].Success? && error.Failure?)
    case RunWrite(k, _, error) => c.readyWrites[k].Failure? || (c.readyWrites[k].Success? && error.Failure?)
  }

  lemma ReadCloses(c: Connection, k: nat, bytes: string, error: Error)
    requires Enabled(c, RunRead(k, bytes, error)) && c.open
    ensures !Step(c, RunRead(k, bytes, error)).open <==> Fails(c, RunRead(k, bytes, error))
  {}

  lemma WriteCloses(c: Connection, k: nat, count: nat, error: Error)
    requires Enabled(c, RunWrite(k, count, error)) && c.open
    ensures !Step(c, RunWrite(k, count, error)).open <==> Fails(c, RunWrite(k, count, error))
  {}

  /** An open connection is closed by a handler whose wait, read or write failed, and by nothing else; a closed one
      stays closed, as nothing can happen to it. */
  lemma ClosesIff(run: seq<Connection>, events: seq<Event>, n: nat)
    requires IsRun(run, events) && n < |events|
    ensures Enabled(run[n], events[n]) && run[n].open
    ensures !run[n + 1].open <==> Fails(run[n], events[n])
  {
    RunKeepsInv(run, events, n);
    assert StepAt(run, events, n);
    match events[n]
    case RunRead(k, bytes, error) => ReadCloses(run[n], k, bytes, error);
    case RunWrite(k, count, error) => WriteCloses(run[n], k, count, error);
    case _ =>
  }
}
