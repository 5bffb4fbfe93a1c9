/** The asynchronous client as a state machine: a connect actor that becomes a reader and a heartbeat, and a
    deadline actor, on one socket and two timers. The asynchronous library is modelled as in TimeoutModel; an
    operation started on a closed socket completes with an error at once. */
module ClientModel {
  import opened Asio

  datatype ConnectResult = ConnectResult(ok: bool, endpoint: nat)

  /** The handlers that are ready to run, by kind; `beat` counts wakeups of the heartbeat timer. */
  datatype Handlers = Handlers(connect: seq<ConnectResult>, read: seq<ReadResult>, write: seq<bool>,
                               check: nat, beat: nat)

  /** `connects`, `readings` and `writings` are the outstanding operations, a connect with its endpoint. The rest
      is history: the endpoints tried, when the current connect or read was started and how long it has, how
      often a reader and a heartbeat were started, and when each heartbeat message was. */
  datatype Client = Client(endpoints: nat, stopped: bool, open: bool, deadline: Timer, heartbeat: Timer,
                           connects: seq<nat>, readings: nat, writings: nat, ready: Handlers,
                           tried: seq<nat>, since: int, limit: int, readers: nat, heartbeats: nat, beatAt: seq<int>)

  datatype State = State(now: int, started: bool, client: Client)

  datatype Call = HandleConnect(r: nat) | HandleRead(r: nat) | HandleWrite(r: nat) | CheckDeadline | Beat

  datatype Event =
    | Pass(to: int)
    | Begin
    | UserStop
    | ConnectDone(op: nat, ok: bool)
    | ReadDone(result: ReadResult)
    | WriteDone(ok: bool)
    | DeadlineFires
    | HeartbeatFires
    | Run(call: Call)

  const CONNECT_LIMIT := 60
  const READ_LIMIT := 30
  const HEARTBEAT := 10

  // ----- timers and the socket -----------------------------------------------------------------------------

  function SetDeadline(c: Client, x: Expiry): Client {
    c.(deadline := Timer(x, 0), ready := c.ready.(check := c.ready.check + c.deadline.waits))
  }

  function SetHeartbeat(c: Client, x: Expiry): Client {
    c.(heartbeat := Timer(x, 0), ready := c.ready.(beat := c.ready.beat + c.heartbeat.waits))
  }

  function Refused(connects: seq<nat>): seq<ConnectResult> {
    seq(|connects|, i requires 0 <= i < |connects| => ConnectResult(false, connects[i]))
  }

  function Close(c: Client): Client {
    c.(open := false, connects := [], readings := 0, writings := 0,
       ready := c.ready.(connect := c.ready.connect + Refused(c.connects), read := c.ready.read + Errors(c.readings),
                         write := c.ready.write + seq(c.writings, i => false)))
  }

  // ----- the actors ----------------------------------------------------------------------------------------

  function Stop(c: Client): Client {
    var d := SetDeadline(Close(c.(stopped := true)), c.deadline.expiry);
    SetHeartbeat(d, d.heartbeat.expiry)
  }

  function StartConnect(c: Client, endpoint: nat, now: int): Client {
    if endpoint < c.endpoints then
      var d := SetDeadline(c, At(now + CONNECT_LIMIT));
      d.(open := true, connects := d.connects + [endpoint], tried := d.tried + [endpoint],
         since := now, limit := CONNECT_LIMIT)
    else Stop(c)
  }

  function StartRead(c: Client, now: int): Client {
    var d := SetDeadline(c, At(now + READ_LIMIT)).(since := now, limit := READ_LIMIT);
    if d.open then d.(readings := d.readings + 1)
    else d.(ready := d.ready.(read := d.ready.read + [ReadError]))
  }

  function StartWrite(c: Client, now: int): Client {
    if c.stopped then c
    else
      var d := c.(beatAt := c.beatAt + [now]);
      if d.open then d.(writings := d.writings + 1)
      else d.(ready := d.ready.(write := d.ready.write + [false]))
  }

  function OnConnect(c: Client, r: ConnectResult, now: int): Client {
    if c.stopped then c
    else if !c.open then StartConnect(c, r.endpoint + 1, now)
    else if !r.ok then StartConnect(Close(c), r.endpoint + 1, now)
    else
      var d := StartWrite(StartRead(c, now), now);
      d.(readers := d.readers + 1, heartbeats := d.heartbeats + 1)
  }

  function OnRead(c: Client, r: ReadResult, now: int): Client {
    if c.stopped then c
    else if r.Line? then StartRead(c, now)
    else Stop(c)
  }

  function OnWrite(c: Client, ok: bool, now: int): Client {
    if c.stopped then c
    else if ok then
      var d := SetHeartbeat(c, At(now + HEARTBEAT));
      d.(heartbeat := d.heartbeat.(waits := d.heartbeat.waits + 1))
    else Stop(c)
  }

  function OnCheck(c: Client, now: int): Client {
    if c.stopped then c
    else
      var d := if Passed(c.deadline.expiry, now) then SetDeadline(Close(c), PosInfinity) else c;
      d.(deadline := d.deadline.(waits := d.deadline.waits + 1))
  }

  /** `start`: the connect actor, then the deadline actor. */
  function Start(c: Client, now: int): Client {
    var d := StartConnect(c, 0, now);
    d.(deadline := d.deadline.(waits := d.deadline.waits + 1))
  }

  // ----- steps ---------------------------------------------------------------------------------------------

  /** A new client, for some number of resolved endpoints; its timers have whatever expiry they start with. */
  predicate Initial(s: State) {
    && !s.started
    && s.client == Client(s.client.endpoints, false, false, Timer(s.client.deadline.expiry, 0),
                          Timer(s.client.heartbeat.expiry, 0), [], 0, 0, Handlers([], [], [], 0, 0),
                          [], s.client.since, s.client.limit, 0, 0, [])
  }

  predicate IsReadyCall(r: Handlers, h: Call) {
    match h
    case HandleConnect(k) => k < |r.connect|
    case HandleRead(k) => k < |r.read|
    case HandleWrite(k) => k < |r.write|
    case CheckDeadline => r.check > 0
    case Beat => r.beat > 0
  }

  function TakenCall(r: Handlers, h: Call): Handlers
    requires IsReadyCall(r, h)
  {
    match h
    case HandleConnect(k) => r.(connect := Without(r.connect, k))
    case HandleRead(k) => r.(read := Without(r.read, k))
    case HandleWrite(k) => r.(write := Without(r.write, k))
    case CheckDeadline => r.(check := r.check - 1)
    case Beat => r.(beat := r.beat - 1)
  }

  predicate CanHappen(s: State, e: Event) {
    var c := s.client;
    match e
    case Pass(to) => s.now <= to
    case Begin => !s.started
    case UserStop => s.started
    case ConnectDone(op, ok) => op < |c.connects|
    case ReadDone(result) => c.readings > 0
    case WriteDone(ok) => c.writings > 0
    case DeadlineFires => c.deadline.waits > 0 && Passed(c.deadline.expiry, s.now)
    case HeartbeatFires => c.heartbeat.waits > 0 && Passed(c.heartbeat.expiry, s.now)
    case Run(h) => IsReadyCall(c.ready, h)
  }

  function Handled(c: Client, h: Call, now: int): Client
    requires IsReadyCall(c.ready, h)
  {
    var d := c.(ready := TakenCall(c.ready, h));
    match h
    case HandleConnect(k) => OnConnect(d, c.ready.connect[k], now)
    case HandleRead(k) => OnRead(d, c.ready.read[k], now)
    case HandleWrite(k) => OnWrite(d, c.ready.write[k], now)
    case CheckDeadline => OnCheck(d, now)
    case Beat => StartWrite(d, now)
  }

  function Next(s: State, e: Event): State
    requires CanHappen(s, e)
  {
    var c := s.client;
    match e
    case Pass(to) => s.(now := to)
    case Begin => s.(started := true, client := Start(c, s.now))
    case UserStop => s.(client := Stop(c))
    case ConnectDone(op, ok) =>
      s.(client := c.(connects := Without(c.connects, op),
                      ready := c.ready.(connect := c.ready.connect + [ConnectResult(ok, c.connects[op])])))
    case ReadDone(result) =>
      s.(client := c.(readings := c.readings - 1, ready := c.ready.(read := c.ready.read + [result])))
    case WriteDone(ok) =>
      s.(client := c.(writings := c.writings - 1, ready := c.ready.(write := c.ready.write + [ok])))
    case DeadlineFires => s.(client := SetDeadline(c, c.deadline.expiry))
    case HeartbeatFires => s.(client := SetHeartbeat(c, c.heartbeat.expiry))
    case Run(h) => s.(client := Handled(c, h, s.now))
  }

  predicate Moves(run: seq<State>, events: seq<Event>, n: nat) {
    n < |events| < |run| && CanHappen(run[n], events[n]) && run[n + 1] == Next(run[n], events[n])
  }

  ghost predicate IsClientRun(run: seq<State>, events: seq<Event>) {
    && |run| == |events| + 1
    && Initial(run[0])
    && forall n: nat | n < |events| :: Moves(run, events, n)
  }

  // ----- what every step keeps -----------------------------------------------------------------------------

  /** The connect or read in progress, or its handler. */
  function Operations(c: Client): nat {
    |c.connects| + c.readings + |c.ready.connect| + |c.ready.read|
  }

  function Beats(c: Client): nat {
    c.writings + |c.ready.write| + c.heartbeat.waits + c.ready.beat
  }

  function Left(c: Client): nat {
    |c.ready.connect| + |c.ready.read| + |c.ready.write| + c.ready.check + c.ready.beat
  }

  predicate UpTo(tried: seq<nat>) {
    forall k | 0 <= k < |tried| :: tried[k] == k
  }

  /** Endpoints are tried in order, each at most once; while connecting, the last one is being tried. */
  predicate InOrder(c: Client) {
    && UpTo(c.tried) && |c.tried| <= c.endpoints
    && (forall k | 0 <= k < |c.connects| :: c.connects[k] + 1 == |c.tried|)
    && (forall k | 0 <= k < |c.ready.connect| :: c.ready.connect[k].endpoint + 1 == |c.tried|)
  }

  /** A client that is neither stopped nor in the middle of a handler, but for the given numbers of actors. */
  predicate Alive(c: Client, operations: nat, checks: nat, beats: nat) {
    && !c.stopped
    && Operations(c) == operations && c.deadline.waits + c.ready.check == checks && Beats(c) == beats
    && c.readers == c.heartbeats <= 1
    && (if c.readers == 0 then c.readings == 0 && c.ready.read == [] && c.limit == CONNECT_LIMIT
        else c.connects == [] && c.ready.connect == [] && c.limit == READ_LIMIT)
    && InOrder(c)
    && (c.connects != [] || c.readings > 0 || c.writings > 0 ==> c.open)
    && (c.deadline.expiry == At(c.since + c.limit) || (c.deadline.expiry == PosInfinity && !c.open))
  }

  /** A stopped client has nothing outstanding, but for the deadline wait of a client that had no endpoint. */
  predicate Over(c: Client) {
    && c.stopped && UpTo(c.tried) && |c.tried| <= c.endpoints && c.readers == c.heartbeats <= 1
    && c.connects == [] && c.readings == 0 && c.writings == 0 && c.heartbeat.waits == 0
    && (c.deadline.waits > 0 ==> c.endpoints == 0)
    && Left(c) + c.deadline.waits <= 3
  }

  ghost predicate Inv(s: State) {
    if !s.started then Initial(s)
    else if s.client.stopped then Over(s.client)
    else Alive(s.client, 1, 1, s.client.readers)
  }

  lemma StopOver(c: Client)
    requires !c.stopped && UpTo(c.tried) && |c.tried| <= c.endpoints && c.readers == c.heartbeats <= 1
    requires Operations(c) + c.deadline.waits + c.ready.check + Beats(c) <= 3
    ensures Over(Stop(c)) && Stop(c).deadline.waits == 0
  {}

  /** Trying the next endpoint, from a client whose operation has just been handled. */
  lemma StartConnectOk(c: Client, now: int)
    requires Alive(c, 0, 1, 0) && c.readers == 0 && !c.open
    ensures var d := StartConnect(c, |c.tried|, now);
            if d.stopped then Over(d) else Alive(d, 1, 1, 0) && d.readers == 0
  {
    if |c.tried| >= c.endpoints {
      StopOver(c);
    }
  }

  lemma OnConnectOk(c: Client, r: ConnectResult, now: int)
    requires Alive(c, 0, 1, 0) && c.readers == 0 && r.endpoint + 1 == |c.tried|
    ensures var d := OnConnect(c, r, now); if d.stopped then Over(d) else Alive(d, 1, 1, d.readers)
  {
    if !c.open {
      StartConnectOk(c, now);
    } else if !r.ok {
      StartConnectOk(Close(c), now);
    }
  }

  lemma OnReadOk(c: Client, r: ReadResult, now: int)
    requires Alive(c, 0, 1, 1) && c.readers == 1
    ensures var d := OnRead(c, r, now); if d.stopped then Over(d) else Alive(d, 1, 1, d.readers)
  {
    if r.ReadError? {
      StopOver(c);
    }
  }

  lemma OnWriteOk(c: Client, ok: bool, now: int)
    requires Alive(c, 1, 1, 0) && c.readers == 1
    ensures var d := OnWrite(c, ok, now); if d.stopped then Over(d) else Alive(d, 1, 1, d.readers)
  {
    if !ok {
      StopOver(c);
    }
  }

  lemma OnCheckOk(c: Client, now: int)
    requires Alive(c, 1, 0, c.readers)
    ensures Alive(OnCheck(c, now), 1, 1, c.readers)
  {
    if Passed(c.deadline.expiry, now) {
      var d := Close(c);
      assert |d.ready.connect| == |c.ready.connect| + |c.connects|;
      assert InOrder(d);
    }
  }

  lemma BeatOk(c: Client, now: int)
    requires Alive(c, 1, 1, 0) && c.readers == 1
    ensures Alive(StartWrite(c, now), 1, 1, 1)
  {}

  /** What taking a handler leaves of the actors. */
  lemma TakenAlive(c: Client, h: Call)
    requires Alive(c, 1, 1, c.readers) && IsReadyCall(c.ready, h)
    ensures var operation, beat := h.HandleConnect? || h.HandleRead?, h.HandleWrite? || h.Beat?;
            && Alive(c.(ready := TakenCall(c.ready, h)), if operation then 0 else 1,
                     if h.CheckDeadline? then 0 else 1, if beat then 0 else c.readers)
            && (h.HandleConnect? ==> c.readers == 0 && c.ready.connect[h.r].endpoint + 1 == |c.tried|)
            && (h.HandleRead? || beat ==> c.readers == 1)
  {}

  /** As the client should be between handlers. */
  predicate Settled(c: Client) {
    if c.stopped then Over(c) else Alive(c, 1, 1, c.readers)
  }

  lemma ConnectOrReadOk(c: Client, h: Call, now: int)
    requires Alive(c, 1, 1, c.readers) && IsReadyCall(c.ready, h) && (h.HandleConnect? || h.HandleRead?)
    ensures Settled(Handled(c, h, now))
  {
    var d := c.(ready := TakenCall(c.ready, h));
    TakenAlive(c, h);
    if h.HandleConnect? {
      OnConnectOk(d, c.ready.connect[h.r], now);
    } else {
      OnReadOk(d, c.ready.read[h.r], now);
    }
  }

  lemma CheckOrBeatOk(c: Client, h: Call, now: int)
    requires Alive(c, 1, 1, c.readers) && IsReadyCall(c.ready, h) && !h.HandleConnect? && !h.HandleRead?
    ensures Settled(Handled(c, h, now))
  {
    var d := c.(ready := TakenCall(c.ready, h));
    TakenAlive(c, h);
    match h
    case HandleWrite(k) => OnWriteOk(d, c.ready.write[k], now);
    case CheckDeadline => OnCheckOk(d, now);
    case Beat => BeatOk(d, now);
  }

  lemma HandledOk(c: Client, h: Call, now: int)
    requires Alive(c, 1, 1, c.readers) && IsReadyCall(c.ready, h)
    ensures Settled(Handled(c, h, now))
  {
    if h.HandleConnect? || h.HandleRead? {
      ConnectOrReadOk(c, h, now);
    } else {
      CheckOrBeatOk(c, h, now);
    }
  }

  /** Completions and the clock leave every actor in place. */
  lemma CompletionOk(s: State, e: Event)
    requires CanHappen(s, e) && !e.Run? && !e.UserStop? && !e.Begin? && Alive(s.client, 1, 1, s.client.readers)
    ensures Alive(Next(s, e).client, 1, 1, Next(s, e).client.readers) && Next(s, e).started == s.started
  {}

  lemma TakenLeft(r: Handlers, h: Call)
    requires IsReadyCall(r, h)
    ensures var t := TakenCall(r, h);
            |t.connect| + |t.read| + |t.write| + t.check + t.beat + 1
            == |r.connect| + |r.read| + |r.write| + r.check + r.beat
  {}

  /** The handlers of a stopped client do nothing. */
  lemma OverHandled(c: Client, h: Call, now: int)
    requires Over(c) && IsReadyCall(c.ready, h)
    ensures Handled(c, h, now) == c.(ready := TakenCall(c.ready, h))
  {}

  /** Stopping it again only wakes the deadline wait of a client that had no endpoint. */
  lemma OverStopped(c: Client)
    requires Over(c)
    ensures Over(Stop(c)) && Left(Stop(c)) + Stop(c).deadline.waits == Left(c) + c.deadline.waits
  {
    var d := Stop(c);
    assert d.ready.connect == c.ready.connect && d.ready.read == c.ready.read && d.ready.write == c.ready.write;
  }

  /** Nothing happens to a stopped client but that its ready handlers run off. */
  lemma OverStays(s: State, e: Event)
    requires CanHappen(s, e) && !e.Begin? && Over(s.client)
    ensures Over(Next(s, e).client) && Next(s, e).started == s.started
    ensures var c, d := s.client, Next(s, e).client;
            Left(d) + d.deadline.waits + (if e.Run? then 1 else 0) == Left(c) + c.deadline.waits
  {
    match e
    case Run(h) =>
      OverHandled(s.client, h, s.now);
      TakenLeft(s.client.ready, h);
    case UserStop => OverStopped(s.client);
    case _ =>
  }

  lemma BeginOk(s: State)
    requires Initial(s)
    ensures Inv(Next(s, Begin))
  {
    var c := s.client;
    if c.endpoints == 0 {
      StopOver(c);
    }
  }

  lemma StepKeepsInv(s: State, e: Event)
    requires Inv(s) && CanHappen(s, e)
    ensures Inv(Next(s, e))
  {
    if !s.started {
      if e.Begin? {
        BeginOk(s);
      }
    } else if s.client.stopped {
      OverStays(s, e);
    } else {
      match e
      case Run(h) => HandledOk(s.client, h, s.now);
      case UserStop => StopOver(s.client);
      case _ => CompletionOk(s, e);
    }
  }

  lemma {:induction false} RunKeepsInv(run: seq<State>, events: seq<Event>, n: nat)
    requires IsClientRun(run, events) && n <= |events|
    ensures Inv(run[n])
  {
    if n == 0 {
    } else {
      RunKeepsInv(run, events, n - 1);
      assert Moves(run, events, n - 1);
      StepKeepsInv(run[n - 1], events[n - 1]);
    }
  }

  // ----- the heartbeat -------------------------------------------------------------------------------------

  /** Any two heartbeats are at least ten seconds apart for each one from the first to the second. */
  predicate Spaced(times: seq<int>) {
    forall k, l | 0 <= k < l < |times| :: times[k] + (l - k) * HEARTBEAT <= times[l]
  }

  /** The last heartbeat was at least the given time before `now`. */
  predicate LastBeat(times: seq<int>, ago: int, now: int) {
    times != [] && times[|times| - 1] + ago <= now
  }

  /** While the client is not stopped, its heartbeat timer is set no earlier than ten seconds after the last
      heartbeat, and wakes the heartbeat actor no earlier either. */
  predicate Beating(c: Client, now: int) {
    && Spaced(c.beatAt) && (c.beatAt != [] ==> LastBeat(c.beatAt, 0, now))
    && (!c.stopped ==>
          && (c.heartbeats == 0 <==> c.beatAt == [])
          && (c.heartbeat.waits > 0 ==>
                c.heartbeat.expiry.At? && LastBeat(c.beatAt, HEARTBEAT, c.heartbeat.expiry.time))
          && (c.ready.beat > 0 ==> LastBeat(c.beatAt, HEARTBEAT, now)))
  }

  lemma SpacedSnoc(times: seq<int>, now: int)
    requires Spaced(times) && (times != [] ==> LastBeat(times, HEARTBEAT, now))
    ensures Spaced(times + [now])
  {
    var after := times + [now];
    forall k, l | 0 <= k < l < |after|
      ensures after[k] + (l - k) * HEARTBEAT <= after[l]
    {
      if l == |times| && k < l - 1 {
        assert times[k] + (l - 1 - k) * HEARTBEAT <= times[l - 1];
      }
    }
  }

  /** A step that leaves the heartbeat alone, or stops the client. */
  lemma BeatUntouched(c: Client, d: Client, now: int, later: int)
    requires Beating(c, now) && now <= later && d.beatAt == c.beatAt
    requires d.stopped || (!c.stopped && d.heartbeat == c.heartbeat && d.heartbeats == c.heartbeats
                           && (d.ready.beat > 0 ==> c.ready.beat > 0))
    ensures Beating(d, later)
  {}

  lemma ConnectBeat(c: Client, r: ConnectResult, now: int)
    requires Beating(c, now) && !c.stopped && c.heartbeats == 0
    ensures Beating(OnConnect(c, r, now), now)
  {
    var d := OnConnect(c, r, now);
    if c.open && r.ok {
      SpacedSnoc(c.beatAt, now);
    } else {
      BeatUntouched(c, d, now, now);
    }
  }

  lemma WriteBeat(c: Client, ok: bool, now: int)
    requires Beating(c, now) && !c.stopped && c.heartbeats > 0 && c.heartbeat.waits == 0
    ensures Beating(OnWrite(c, ok, now), now)
  {
    if !ok {
      BeatUntouched(c, OnWrite(c, ok, now), now, now);
    }
  }

  lemma NextBeat(c: Client, now: int)
    requires Beating(c, now) && !c.stopped && LastBeat(c.beatAt, HEARTBEAT, now) && c.heartbeats > 0
    requires c.heartbeat.waits == 0 && c.ready.beat == 0
    ensures Beating(StartWrite(c, now), now)
  {
    SpacedSnoc(c.beatAt, now);
  }

  /** What taking a handler leaves of the heartbeat. */
  lemma TakenBeat(c: Client, h: Call, now: int)
    requires Alive(c, 1, 1, c.readers) && Beating(c, now) && IsReadyCall(c.ready, h)
    ensures var d := c.(ready := TakenCall(c.ready, h));
            && !d.stopped && Beating(d, now)
            && (h.HandleConnect? ==> d.heartbeats == 0)
            && (h.HandleWrite? || h.Beat? ==> d.heartbeats > 0 && d.heartbeat.waits == 0)
            && (h.Beat? ==> d.ready.beat == 0 && LastBeat(d.beatAt, HEARTBEAT, now))
  {
    BeatUntouched(c, c.(ready := TakenCall(c.ready, h)), now, now);
  }

  lemma HandledBeat(c: Client, h: Call, now: int)
    requires Alive(c, 1, 1, c.readers) && Beating(c, now) && IsReadyCall(c.ready, h)
    ensures Beating(Handled(c, h, now), now)
  {
    var d := c.(ready := TakenCall(c.ready, h));
    TakenBeat(c, h, now);
    match h
    case HandleConnect(k) => ConnectBeat(d, c.ready.connect[k], now);
    case HandleRead(k) => BeatUntouched(d, OnRead(d, c.ready.read[k], now), now, now);
    case HandleWrite(k) => WriteBeat(d, c.ready.write[k], now);
    case CheckDeadline => BeatUntouched(d, OnCheck(d, now), now, now);
    case Beat => NextBeat(d, now);
  }

  lemma StoppedBeat(s: State, e: Event)
    requires Over(s.client) && CanHappen(s, e) && !e.Begin?
    ensures Next(s, e).client.beatAt == s.client.beatAt && Next(s, e).client.stopped && s.now <= Next(s, e).now
  {
    if e.Run? {
      OverHandled(s.client, e.call, s.now);
    }
  }

  lemma StepKeepsBeating(s: State, e: Event)
    requires Inv(s) && CanHappen(s, e) && Beating(s.client, s.now)
    ensures Beating(Next(s, e).client, Next(s, e).now)
  {
    if s.client.stopped {
      StoppedBeat(s, e);
      BeatUntouched(s.client, Next(s, e).client, s.now, Next(s, e).now);
    } else if e.Run? && s.started {
      HandledBeat(s.client, e.call, s.now);
    } else if !e.HeartbeatFires? {
      BeatUntouched(s.client, Next(s, e).client, s.now, Next(s, e).now);
    }
  }

  lemma {:induction false} RunKeepsBeating(run: seq<State>, events: seq<Event>, n: nat)
    requires IsClientRun(run, events) && n <= |events|
    ensures Beating(run[n].client, run[n].now)
  {
    if n == 0 {
    } else {
      RunKeepsBeating(run, events, n - 1);
      RunKeepsInv(run, events, n - 1);
      assert Moves(run, events, n - 1);
      StepKeepsBeating(run[n - 1], events[n - 1]);
    }
  }

  // ----- the theorems --------------------------------------------------------------------------------------

  /** Between handlers, from the start until it is stopped, the client has exactly one connect or read, in
      progress or just completed, exactly one deadline actor, and a heartbeat actor exactly when it has a
      reader. */
  lemma OneOperation(run: seq<State>, events: seq<Event>, n: nat)
    requires IsClientRun(run, events) && n <= |events| && run[n].started && !run[n].client.stopped
    ensures var c := run[n].client;
            && |c.connects| + c.readings + |c.ready.connect| + |c.ready.read| == 1
            && c.deadline.waits + c.ready.check == 1
            && c.writings + |c.ready.write| + c.heartbeat.waits + c.ready.beat == c.readers
            && (c.readings + |c.ready.read| == c.readers)
  {
    RunKeepsInv(run, events, n);
  }

  /** No other step interferes with a connect or a read in progress: unless it stops the client, any step but the
      deadline actor and the completion of the operation itself leaves the socket open, the operation in progress
      and its deadline as they were. */
  lemma OnlyDeadlineCloses(run: seq<State>, events: seq<Event>, n: nat, e: Event)
    requires IsClientRun(run, events) && n <= |events| && run[n].started && !run[n].client.stopped
    requires CanHappen(run[n], e) && e != Run(CheckDeadline) && !e.ConnectDone? && !e.ReadDone?
    requires run[n].client.connects != [] || run[n].client.readings > 0
    ensures var c, d := run[n].client, Next(run[n], e).client;
            && c.open
            && (d.stopped || (d.open && d.connects == c.connects && d.readings == c.readings
                              && d.since == c.since && d.limit == c.limit && d.deadline.expiry == c.deadline.expiry))
  {
    RunKeepsInv(run, events, n);
  }

  /** Time passes only while no handler is ready, and never past a timer that is waited for. */
  predicate Prompt(s: State, e: Event) {
    e.Pass? ==>
      s.client.ready == Handlers([], [], [], 0, 0)
      && NotOverdue(s.client.deadline, e.to) && NotOverdue(s.client.heartbeat, e.to)
  }

  predicate InTime(s: State) {
    s.started && !s.client.stopped && s.client.open ==> s.now <= s.client.since + s.client.limit
  }

  lemma HandledInTime(c: Client, h: Call, now: int)
    requires IsReadyCall(c.ready, h) && Alive(c, 1, 1, c.readers) && (c.open ==> now <= c.since + c.limit)
    ensures var d := Handled(c, h, now); !d.stopped && d.open ==> now <= d.since + d.limit
  {}

  lemma StepInTime(s: State, e: Event)
    requires Inv(s) && CanHappen(s, e) && Prompt(s, e) && InTime(s)
    ensures InTime(Next(s, e))
  {
    if s.started && !s.client.stopped {
      if e.Run? {
        HandledInTime(s.client, e.call, s.now);
      }
    } else if s.started {
      OverStays(s, e);
    }
  }

  lemma {:induction false} RunInTime(run: seq<State>, events: seq<Event>, n: nat)
    requires IsClientRun(run, events) && n <= |events|
    requires forall k | 0 <= k < n :: Prompt(run[k], events[k])
    ensures InTime(run[n])
  {
    if n == 0 {
    } else {
      RunInTime(run, events, n - 1);
      RunKeepsInv(run, events, n - 1);
      assert Moves(run, events, n - 1);
      StepInTime(run[n - 1], events[n - 1]);
    }
  }

  /** A client stops as it starts if and only if it has no endpoint, and is then left with one deadline wait, which
      only its expiry or another `stop` can end. */
  lemma StopsAtStartIff(s: State)
    requires Initial(s)
    ensures var c := Next(s, Begin).client;
            && (c.stopped <==> s.client.endpoints == 0)
            && (c.stopped && c.deadline.waits == 1 <==> s.client.endpoints == 0)
            && (c.stopped ==> c.ready == Handlers([], [], [], 0, 0) && c.connects == [])
  {}

  function CallsRun(events: seq<Event>): nat {
    if events == [] then 0
    else CallsRun(events[..|events| - 1]) + (if events[|events| - 1].Run? then 1 else 0)
  }

  lemma CallsRunSnoc(events: seq<Event>, n: nat, m: nat)
    requires n < m <= |events|
    ensures CallsRun(events[n..m]) == CallsRun(events[n..m - 1]) + (if events[m - 1].Run? then 1 else 0)
  {
    assert events[n..m][..m - 1 - n] == events[n..m - 1];
  }

  lemma OverNext(run: seq<State>, events: seq<Event>, m: nat)
    requires IsClientRun(run, events) && 0 < m <= |events| && run[m - 1].started && run[m - 1].client.stopped
    ensures run[m].started && run[m].client.stopped
    ensures var c, d := run[m - 1].client, run[m].client;
            Left(d) + d.deadline.waits + (if events[m - 1].Run? then 1 else 0) == Left(c) + c.deadline.waits
  {
    RunKeepsInv(run, events, m - 1);
    assert Moves(run, events, m - 1);
    OverStays(run[m - 1], events[m - 1]);
  }

  /** Once stopped, the client runs at most three more handlers, starts nothing, and has nothing outstanding;
      only a client that was given no endpoint is left with its deadline wait. */
  lemma {:induction false} AfterStop(run: seq<State>, events: seq<Event>, n: nat, m: nat)
    requires IsClientRun(run, events) && n <= m <= |events| && run[n].started && run[n].client.stopped
    ensures run[m].started && run[m].client.stopped
    ensures var c, d := run[n].client, run[m].client;
            CallsRun(events[n..m]) + Left(d) + d.deadline.waits == Left(c) + c.deadline.waits <= 3
    ensures var d := run[m].client;
            && d.connects == [] && d.readings == 0 && d.writings == 0 && d.heartbeat.waits == 0
            && (d.deadline.waits > 0 ==> d.endpoints == 0)
    decreases m
  {
    if m == n {
      assert events[n..m] == [];
    } else {
      AfterStop(run, events, n, m - 1);
      OverNext(run, events, m);
      CallsRunSnoc(events, n, m);
    }
    RunKeepsInv(run, events, m);
  }
}
