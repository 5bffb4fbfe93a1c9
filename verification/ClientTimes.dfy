/** The asynchronous client judged by its runs alone: when it connects, reads and sends heartbeats, when it closes
    its socket and when it stops, told from the outstanding operations and the events, not from what it records. */
module ClientTimes {
  import opened Basics
  import opened Asio
  import opened ClientModel

  // ----- connects and reads, as they are started -------------------------------------------------------------

  /** The client has a connect or a read outstanding where it had none. */
  predicate Starts(s: State, t: State) {
    && |s.client.connects| + s.client.readings == 0
    && |t.client.connects| + t.client.readings > 0
  }

  /** The last step before `n` that started a connect or a read, if any. */
  function LastStart(run: seq<State>, n: nat): (k: Option<nat>)
    requires n < |run|
    ensures k.Some? ==> k.value < n && Starts(run[k.value], run[k.value + 1])
  {
    if n == 0 then None
    else if Starts(run[n - 1], run[n]) then Some(n - 1)
    else LastStart(run, n - 1)
  }

  /** The seconds an operation just started has: 60 for a connect and 30 for a read. */
  function Allowance(c: Client): int {
    if c.connects != [] then 60 else 30
  }

  /** What an event does to the recorded start of the operation. */
  predicate Recorded(c: Client, d: Client, now: int) {
    if |c.connects| + c.readings == 0 && |d.connects| + d.readings > 0 then d.since == now && d.limit == Allowance(d)
    else c.open && d.since == c.since && d.limit == c.limit
  }

  lemma HandledRecorded(c: Client, h: Call, now: int)
    requires Alive(c, 1, 1, c.readers) && IsReadyCall(c.ready, h)
    ensures var d := Handled(c, h, now); !d.stopped && d.open ==> Recorded(c, d, now)
  {}

  lemma StepRecorded(s: State, e: Event)
    requires Inv(s) && CanHappen(s, e)
    ensures var t := Next(s, e);
            t.started && !t.client.stopped && t.client.open ==> Recorded(s.client, t.client, s.now)
  {
    if s.started && s.client.stopped {
      OverStays(s, e);
    } else if s.started && e.Run? {
      HandledRecorded(s.client, e.call, s.now);
    }
  }

  /** While the socket is open the operation recorded is the last one started. */
  lemma {:induction false} StartIsOfTheRun(run: seq<State>, events: seq<Event>, n: nat)
    requires IsClientRun(run, events) && n <= |events|
    requires run[n].started && !run[n].client.stopped && run[n].client.open
    ensures LastStart(run, n).Some?
    ensures var k := LastStart(run, n).value;
            run[n].client.since == run[k].now && run[n].client.limit == Allowance(run[k + 1].client)
  {
    if n == 0 {
    } else {
      RunKeepsInv(run, events, n - 1);
      assert Moves(run, events, n - 1);
      StepRecorded(run[n - 1], events[n - 1]);
      if !Starts(run[n - 1], run[n]) {
        StillAlive(run[n - 1], events[n - 1]);
        StartIsOfTheRun(run, events, n - 1);
      }
    }
  }

  /** A running client was running before the step, unless the step began it. */
  lemma StillAlive(s: State, e: Event)
    requires Inv(s) && CanHappen(s, e) && Next(s, e).started && !Next(s, e).client.stopped
    ensures (s.started && !s.client.stopped) || (e.Begin? && Starts(s, Next(s, e)))
  {
    if s.started && s.client.stopped {
      OverStays(s, e);
    }
  }

  // ----- the deadline ----------------------------------------------------------------------------------------

  /** The last connect or read has had its time. */
  predicate Expired(run: seq<State>, n: nat)
    requires n < |run|
  {
    var k := LastStart(run, n);
    k.Some? && run[k.value].now + Allowance(run[k.value + 1].client) <= run[n].now
  }

  /** The deadline actor, run at any time and however stale its handler, closes an open socket exactly when the last
      operation started has had its own 60 seconds, for a connect, or 30 seconds, for a read. */
  lemma ClosesAtOwnDeadline(run: seq<State>, events: seq<Event>, n: nat)
    requires IsClientRun(run, events) && n <= |events| && run[n].started && !run[n].client.stopped
    requires run[n].client.open && CanHappen(run[n], Run(CheckDeadline))
    ensures !Next(run[n], Run(CheckDeadline)).client.open <==> Expired(run, n)
    ensures LastStart(run, n).Some?
    ensures var c, d := run[n].client, run[LastStart(run, n).value + 1].client;
            d.connects != [] <==> c.connects != [] || c.ready.connect != []
  {
    RunKeepsInv(run, events, n);
    StartIsOfTheRun(run, events, n);
  }

  /** An operation that has had its time is about to be cancelled: the deadline actor can be woken or is ready. */
  lemma DeadlineIsDue(run: seq<State>, events: seq<Event>, n: nat)
    requires IsClientRun(run, events) && n <= |events| && run[n].started && !run[n].client.stopped
    requires run[n].client.open && Expired(run, n)
    ensures CanHappen(run[n], DeadlineFires) || CanHappen(run[n], Run(CheckDeadline))
  {
    RunKeepsInv(run, events, n);
    StartIsOfTheRun(run, events, n);
  }

  /** In every run whose handlers are run before time goes on, no connect outlives its 60 seconds and no read its
      30: while the socket is open, the last operation started is no older. */
  lemma NoOperationOutlivesItsDeadline(run: seq<State>, events: seq<Event>, n: nat)
    requires IsClientRun(run, events) && n <= |events|
    requires run[n].started && !run[n].client.stopped && run[n].client.open
    requires forall k | 0 <= k < n :: Prompt(run[k], events[k])
    ensures LastStart(run, n).Some?
    ensures var k := LastStart(run, n).value; run[n].now <= run[k].now + Allowance(run[k + 1].client)
  {
    RunInTime(run, events, n);
    StartIsOfTheRun(run, events, n);
  }

  // ----- when the client stops, and what follows when it does not --------------------------------------------

  /** The event gives a client that is not stopped a reason to stop. */
  predicate StopsClient(s: State, e: Event)
    requires CanHappen(s, e)
  {
    var c := s.client;
    || e.UserStop?
    || (e.Begin? && c.endpoints == 0)
    || (e.Run? && match e.call
                  case HandleConnect(k) =>
                    (!c.ready.connect[k].ok || !c.open) && c.endpoints <= c.ready.connect[k].endpoint + 1
                  case HandleRead(k) => c.ready.read[k].ReadError?
                  case HandleWrite(k) => !c.ready.write[k]
                  case CheckDeadline => false
                  case Beat => false)
  }

  /** A client stops when it is told to, when a read or a heartbeat fails, when it has no endpoint, and when the
      connect to its last endpoint has failed or was cancelled, and never else. */
  lemma StopsIff(run: seq<State>, events: seq<Event>, n: nat)
    requires IsClientRun(run, events) && n < |events| && !run[n].client.stopped
    ensures CanHappen(run[n], events[n])
    ensures run[n + 1].client.stopped <==> StopsClient(run[n], events[n])
  {
    assert Moves(run, events, n);
  }

  /** `start` connects to the first endpoint, if there is one. */
  lemma FirstEndpoint(run: seq<State>, events: seq<Event>, n: nat)
    requires IsClientRun(run, events) && n < |events| && events[n].Begin? && run[n].client.endpoints > 0
    ensures var c := run[n + 1].client;
            c.open && c.connects == [0] && c.deadline == Timer(At(run[n].now + 60), 1)
  {
    RunKeepsInv(run, events, n);
    assert Moves(run, events, n);
  }

  /** A connect that succeeds before its deadline is followed by one read and one heartbeat; one that fails, or was
      cancelled, by a connect to the next endpoint, if there is one. */
  lemma AfterConnect(run: seq<State>, events: seq<Event>, n: nat, k: nat)
    requires IsClientRun(run, events) && n < |events| && events[n] == Run(HandleConnect(k))
    requires run[n].started && !run[n].client.stopped
    ensures CanHappen(run[n], events[n])
    ensures var c, d, r := run[n].client, run[n + 1].client, run[n].client.ready.connect[k];
            if r.ok && c.open then
              && d.open && d.connects == [] && d.readings == 1 && d.writings == 1
              && d.deadline.expiry == At(run[n].now + 30)
            else
              r.endpoint + 1 < c.endpoints ==>
                && d.open && d.connects == [r.endpoint + 1] && d.readings == 0 && d.writings == 0
                && d.deadline.expiry == At(run[n].now + 60)
  {
    RunKeepsInv(run, events, n);
    assert Moves(run, events, n);
    TakenAlive(run[n].client, HandleConnect(k));
  }

  /** A line is followed by the next read, with 30 seconds of its own; on a socket the deadline has closed that read
      has failed at once. */
  lemma AfterLine(run: seq<State>, events: seq<Event>, n: nat, k: nat)
    requires IsClientRun(run, events) && n < |events| && events[n] == Run(HandleRead(k))
    requires run[n].started && !run[n].client.stopped
    ensures CanHappen(run[n], events[n])
    ensures run[n].client.ready.read[k].Line? ==>
              var c, d := run[n].client, run[n + 1].client;
              && d.open == c.open && d.deadline.expiry == At(run[n].now + 30)
              && (if c.open then d.readings == 1 && d.ready.read == []
                  else d.readings == 0 && d.ready.read == [ReadError])
  {
    RunKeepsInv(run, events, n);
    assert Moves(run, events, n);
    TakenAlive(run[n].client, HandleRead(k));
  }

  /** A heartbeat sent is followed by the next, ten seconds later: the timer is waited for until then, and the
      heartbeat it wakes is written, or fails at once on a socket the deadline has closed. */
  lemma AfterHeartbeat(run: seq<State>, events: seq<Event>, n: nat)
    requires IsClientRun(run, events) && n < |events| && run[n].started && !run[n].client.stopped && events[n].Run?
    ensures CanHappen(run[n], events[n])
    ensures var h, c, d := events[n].call, run[n].client, run[n + 1].client;
            && (h.HandleWrite? && c.ready.write[h.r] ==> d.heartbeat == Timer(At(run[n].now + 10), 1))
            && (h.Beat? ==> if c.open then d.writings == 1 else d.ready.write == [false])
  {
    RunKeepsInv(run, events, n);
    assert Moves(run, events, n);
    TakenAlive(run[n].client, events[n].call);
  }

  /** The deadline actor goes on until the client is stopped. It cancels the operation of an open socket that has had
      its time, and changes nothing otherwise. */
  lemma AfterCheck(run: seq<State>, events: seq<Event>, n: nat)
    requires IsClientRun(run, events) && n < |events| && events[n] == Run(CheckDeadline)
    requires run[n].started && !run[n].client.stopped && run[n].client.open
    ensures var c, d := run[n].client, run[n + 1].client;
            if Expired(run, n) then
              && !d.open && d.deadline == Timer(PosInfinity, 1) && d.connects == [] && d.readings == 0
              && (c.connects != [] ==> d.ready.connect == [ConnectResult(false, c.connects[0])])
              && (c.readings > 0 ==> d.ready.read == [ReadError])
            else
              d == c.(deadline := d.deadline, ready := c.ready.(check := 0)) && d.deadline == c.deadline.(waits := 1)
  {
    RunKeepsInv(run, events, n);
    assert Moves(run, events, n);
    StartIsOfTheRun(run, events, n);
    TakenAlive(run[n].client, CheckDeadline);
    if Expired(run, n) {
      CancelledConnect(run[n].client, run[n].now);
    }
  }

  lemma CancelledConnect(c: Client, now: int)
    requires Alive(c, 1, 1, c.readers) && c.ready.check > 0
    ensures var d := Close(c.(ready := TakenCall(c.ready, CheckDeadline)));
            && (c.connects != [] ==> d.ready.connect == [ConnectResult(false, c.connects[0])])
            && (c.readings > 0 ==> d.ready.read == [ReadError])
  {}

  // ----- endpoints and heartbeats ----------------------------------------------------------------------------

  /** The endpoints connected to in the first `n` steps. */
  function ConnectedTo(run: seq<State>, n: nat): seq<nat>
    requires n < |run|
  {
    if n == 0 then []
    else
      ConnectedTo(run, n - 1)
      + (if Starts(run[n - 1], run[n]) && run[n].client.connects != [] then [run[n].client.connects[0]] else [])
  }

  /** A connect has been handled that succeeded before its deadline. */
  predicate Connects(s: State, e: Event) {
    && CanHappen(s, e) && e.Run? && e.call.HandleConnect?
    && !s.client.stopped && s.client.open && s.client.ready.connect[e.call.r].ok
  }

  function Connections(run: seq<State>, events: seq<Event>, n: nat): nat
    requires n <= |events| < |run|
  {
    if n == 0 then 0 else Connections(run, events, n - 1) + (if Connects(run[n - 1], events[n - 1]) then 1 else 0)
  }

  predicate Counted(s: State, e: Event, t: State) {
    && t.client.endpoints == s.client.endpoints
    && t.client.tried
       == s.client.tried + (if Starts(s, t) && t.client.connects != [] then [t.client.connects[0]] else [])
    && t.client.readers == s.client.readers + (if Connects(s, e) then 1 else 0)
  }

  /** The connect actor, once its handler has been taken. */
  lemma ConnectCounted(c: Client, r: ConnectResult, now: int)
    requires !c.stopped && c.connects == [] && c.readings == 0
    ensures var d := OnConnect(c, r, now);
            && d.endpoints == c.endpoints
            && d.tried == c.tried + (if d.connects != [] then [d.connects[0]] else [])
            && d.readers == c.readers + (if c.open && r.ok then 1 else 0)
  {
    assert c.tried + [] == c.tried;
  }

  lemma OthersCounted(c: Client, h: Call, now: int)
    requires Alive(c, 1, 1, c.readers) && IsReadyCall(c.ready, h) && !h.HandleConnect?
    ensures var d := Handled(c, h, now);
            && d.endpoints == c.endpoints && d.tried == c.tried && d.readers == c.readers
            && (c.connects == [] ==> d.connects == [])
  {}

  lemma HandledCounted(s: State, h: Call)
    requires Alive(s.client, 1, 1, s.client.readers) && IsReadyCall(s.client.ready, h)
    ensures Counted(s, Run(h), Next(s, Run(h)))
  {
    var c := s.client;
    assert c.tried + [] == c.tried;
    if h.HandleConnect? {
      ConnectCounted(c.(ready := TakenCall(c.ready, h)), c.ready.connect[h.r], s.now);
    } else {
      OthersCounted(c, h, s.now);
    }
  }

  lemma StepCounted(s: State, e: Event)
    requires Inv(s) && CanHappen(s, e)
    ensures Counted(s, e, Next(s, e))
  {
    assert s.client.tried + [] == s.client.tried;
    if s.started && s.client.stopped {
      if e.Run? {
        OverHandled(s.client, e.call, s.now);
      }
    } else if s.started && e.Run? {
      HandledCounted(s, e.call);
    }
  }

  lemma {:induction false} CountsAreOfTheRun(run: seq<State>, events: seq<Event>, n: nat)
    requires IsClientRun(run, events) && n <= |events|
    ensures run[n].client.endpoints == run[0].client.endpoints
    ensures run[n].client.tried == ConnectedTo(run, n) && run[n].client.readers == Connections(run, events, n)
  {
    if n == 0 {
    } else {
      CountsAreOfTheRun(run, events, n - 1);
      RunKeepsInv(run, events, n - 1);
      assert Moves(run, events, n - 1);
      StepCounted(run[n - 1], events[n - 1]);
    }
  }

  /** The endpoints are connected to in order, each at most once, and at most one connect is ever taken up by a
      reader and a heartbeat. */
  lemma EndpointsInOrder(run: seq<State>, events: seq<Event>, n: nat)
    requires IsClientRun(run, events) && n <= |events|
    ensures var tried := ConnectedTo(run, n);
            |tried| <= run[0].client.endpoints && forall k | 0 <= k < |tried| :: tried[k] == k
    ensures Connections(run, events, n) <= 1
    ensures run[n].started && !run[n].client.stopped ==>
              var c := run[n].client;
              && c.readings + |c.ready.read| == Connections(run, events, n)
              && c.writings + |c.ready.write| + c.heartbeat.waits + c.ready.beat == Connections(run, events, n)
  {
    RunKeepsInv(run, events, n);
    CountsAreOfTheRun(run, events, n);
  }

  /** A heartbeat message is under way that was not. */
  predicate Sends(s: State, t: State) {
    t.client.writings > s.client.writings
  }

  lemma HandledSends(c: Client, h: Call, now: int)
    requires !c.stopped && IsReadyCall(c.ready, h)
    ensures var d := Handled(c, h, now);
            && (d.beatAt == c.beatAt || d.beatAt == c.beatAt + [now])
            && (d.writings > c.writings ==> d.beatAt == c.beatAt + [now])
  {}

  lemma SendsNow(s: State, e: Event)
    requires Inv(s) && CanHappen(s, e)
    ensures var c, d := s.client, Next(s, e).client;
            && (d.beatAt == c.beatAt || d.beatAt == c.beatAt + [s.now])
            && (Sends(s, Next(s, e)) ==> d.beatAt == c.beatAt + [s.now] && !c.stopped)
  {
    if s.started && s.client.stopped {
      StoppedBeat(s, e);
      OverStays(s, e);
    } else if e.Run? {
      HandledSends(s.client, e.call, s.now);
    }
  }

  lemma {:induction false} SentBefore(run: seq<State>, events: seq<Event>, k: nat, n: nat)
    requires IsClientRun(run, events) && k < n <= |events| && Sends(run[k], run[k + 1])
    ensures var times := run[n].client.beatAt; times != [] && run[k].now <= times[|times| - 1]
    decreases n
  {
    assert Moves(run, events, n - 1);
    RunKeepsInv(run, events, n - 1);
    SendsNow(run[n - 1], events[n - 1]);
    if n == k + 1 {
    } else {
      SentBefore(run, events, k, n - 1);
      RunKeepsBeating(run, events, n - 1);
    }
  }

  /** Heartbeats are sent no less than ten seconds apart, and none once the client is stopped. */
  lemma HeartbeatsAreSpaced(run: seq<State>, events: seq<Event>, k: nat, n: nat)
    requires IsClientRun(run, events) && k < n < |events| && Sends(run[k], run[k + 1]) && Sends(run[n], run[n + 1])
    ensures run[k].now + 10 <= run[n].now && !run[n].client.stopped
  {
    SentBefore(run, events, k, n);
    assert Moves(run, events, n);
    RunKeepsInv(run, events, n);
    SendsNow(run[n], events[n]);
    RunKeepsBeating(run, events, n + 1);
    var times := run[n + 1].client.beatAt;
    assert times[|times| - 2] + 10 <= times[|times| - 1];
  }
}
