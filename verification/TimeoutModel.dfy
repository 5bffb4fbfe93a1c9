/** The timeouts server as a state machine: a clock, a channel, and any number of sessions, each with one
    socket and three timers.

    Of the asynchronous library the model keeps what the program relies on. An operation or a timer wait is
    outstanding until it completes; then its handler is ready, and stays ready until it is run, in any order
    with other ready handlers. Setting a timer's expiry, or cancelling it, makes its waits ready. Closing a
    socket makes its outstanding operations ready with an error. */
module TimeoutModel {
  import opened Asio

  /** A completed write: whether it succeeded, and the message it was given. */
  datatype WriteResult = WriteResult(ok: bool, message: string)

  /** The handlers of a session that are ready to run, by kind. */
  datatype Ready = Ready(read: seq<ReadResult>, write: seq<WriteResult>, await: nat, input: nat, output: nat)

  const SECONDS := 30

  /** A started session. `pending` counts its outstanding reads and `writes` holds the buffers of its outstanding
      writes. The rest is history: what completed writes have sent, when the current read was started, when a
      write was last started, and the length of the channel's log when the session joined and left. */
  datatype Session = Session(open: bool, queue: seq<string>, input: Timer, wake: Timer, output: Timer,
                             pending: nat, writes: seq<string>, ready: Ready,
                             written: seq<string>, readAt: int, writeAt: seq<int>, joined: nat, left: nat)

  /** `members` are the sessions in the channel; `log` is history: every message delivered to the channel. */
  datatype World = World(now: int, members: set<nat>, log: seq<string>, sessions: seq<Session>)

  datatype Which = Input | Wake | Output

  datatype Handler = HandleRead(r: nat) | HandleWrite(r: nat) | AwaitOutput | CheckInput | CheckOutput

  datatype Event =
    | Pass(to: int)
    | Accepted
    | ReadDone(id: nat, result: ReadResult)
    | WriteDone(id: nat, op: nat, ok: bool)
    | Fire(id: nat, timer: Which)
    | Run(id: nat, handler: Handler)

  const INITIAL := World(0, {}, [], [])

  // ----- timers and the socket -----------------------------------------------------------------------------

  function SetInput(s: Session, x: Expiry): Session {
    s.(input := Timer(x, 0), ready := s.ready.(input := s.ready.input + s.input.waits))
  }

  function SetWake(s: Session, x: Expiry): Session {
    s.(wake := Timer(x, 0), ready := s.ready.(await := s.ready.await + s.wake.waits))
  }

  function SetOutput(s: Session, x: Expiry): Session {
    s.(output := Timer(x, 0), ready := s.ready.(output := s.ready.output + s.output.waits))
  }

  function Failures(writes: seq<string>): seq<WriteResult> {
    seq(|writes|, i requires 0 <= i < |writes| => WriteResult(false, writes[i]))
  }

  function Close(s: Session): Session {
    s.(open := false, pending := 0, writes := [],
       ready := s.ready.(read := s.ready.read + Errors(s.pending), write := s.ready.write + Failures(s.writes)))
  }

  // ----- the actors of one session -------------------------------------------------------------------------

  /** Close the socket and cancel the three timers. */
  function Shut(s: Session): Session {
    var c := Close(s);
    var i := SetInput(c, c.input.expiry);
    var k := SetWake(i, i.wake.expiry);
    SetOutput(k, k.output.expiry)
  }

  function Enqueue(s: Session, message: string): Session {
    SetWake(s.(queue := s.queue + [message]), NegInfinity)
  }

  function Deliver(s: Session, message: string): Session {
    Enqueue(s, message + "\n")
  }

  function StartRead(s: Session, now: int): Session {
    var t := SetInput(s, At(now + SECONDS));
    t.(pending := t.pending + 1, readAt := now)
  }

  function StartWrite(s: Session, now: int): Session
    requires s.queue != []
  {
    var t := SetOutput(s, At(now + SECONDS));
    t.(writes := t.writes + [t.queue[0]], writeAt := t.writeAt + [now])
  }

  function AwaitOn(s: Session, now: int): Session {
    if !s.open then s
    else if s.queue == [] then
      var t := SetWake(s, PosInfinity);
      t.(wake := t.wake.(waits := t.wake.waits + 1))
    else StartWrite(s, now)
  }

  /** A message went out: drop it from the queue and wait for the next. The output deadline is left as it is. */
  function Sent(s: Session, message: string, now: int): Session {
    AwaitOn(s.(queue := if s.queue == [] then [] else s.queue[1..], written := s.written + [message]), now)
  }

  // ----- the channel ---------------------------------------------------------------------------------------

  function Update(w: World, i: nat, s: Session): World
    requires i < |w.sessions|
  {
    w.(sessions := w.sessions[i := s])
  }

  function Broadcast(w: World, message: string): World {
    w.(log := w.log + [message],
       sessions := seq(|w.sessions|, i requires 0 <= i < |w.sessions| =>
         if i in w.members then Deliver(w.sessions[i], message) else w.sessions[i]))
  }

  function Stop(w: World, i: nat): World
    requires i < |w.sessions|
  {
    var s := w.sessions[i];
    w.(members := w.members - {i},
       sessions := w.sessions[i := Shut(s.(left := if i in w.members then |w.log| else s.left))])
  }

  function Blank(w: World): Session {
    var t := Timer(PosInfinity, 0);
    Session(true, [], t, t, t, 0, [], Ready([], [], 0, 0, 0), [], w.now, [], |w.log|, 0)
  }

  /** `start`: join the channel and start the four actors. */
  function Start(w: World): World {
    var a := StartRead(Blank(w), w.now);
    var b := a.(input := a.input.(waits := a.input.waits + 1));
    var c := AwaitOn(b, w.now);
    var d := c.(output := c.output.(waits := c.output.waits + 1));
    w.(members := w.members + {|w.sessions|}, sessions := w.sessions + [d])
  }

  // ----- the handlers --------------------------------------------------------------------------------------

  function OnRead(w: World, i: nat, result: ReadResult): World
    requires i < |w.sessions|
  {
    if !w.sessions[i].open then w
    else if result.ReadError? then Stop(w, i)
    else
      var v :=
        if result.text != "" then Broadcast(w, result.text)
        else if w.sessions[i].queue == [] then Update(w, i, Enqueue(w.sessions[i], "\n"))
        else w;
      Update(v, i, StartRead(v.sessions[i], v.now))
  }

  function OnWrite(w: World, i: nat, result: WriteResult): World
    requires i < |w.sessions|
  {
    if !w.sessions[i].open then w
    else if result.ok then Update(w, i, Sent(w.sessions[i], result.message, w.now))
    else Stop(w, i)
  }

  function OnCheckInput(w: World, i: nat): World
    requires i < |w.sessions|
  {
    var s := w.sessions[i];
    if !s.open then w
    else if Passed(s.input.expiry, w.now) then Stop(w, i)
    else Update(w, i, s.(input := s.input.(waits := s.input.waits + 1)))
  }

  function OnCheckOutput(w: World, i: nat): World
    requires i < |w.sessions|
  {
    var s := w.sessions[i];
    if !s.open then w
    else if Passed(s.output.expiry, w.now) then Stop(w, i)
    else Update(w, i, s.(output := s.output.(waits := s.output.waits + 1)))
  }

  /** The ready handlers without the one that is about to run. */
  function Taken(r: Ready, h: Handler): Ready
    requires IsReady(r, h)
  {
    match h
    case HandleRead(k) => r.(read := Without(r.read, k))
    case HandleWrite(k) => r.(write := Without(r.write, k))
    case AwaitOutput => r.(await := r.await - 1)
    case CheckInput => r.(input := r.input - 1)
    case CheckOutput => r.(output := r.output - 1)
  }

  predicate IsReady(r: Ready, h: Handler) {
    match h
    case HandleRead(k) => k < |r.read|
    case HandleWrite(k) => k < |r.write|
    case AwaitOutput => r.await > 0
    case CheckInput => r.input > 0
    case CheckOutput => r.output > 0
  }

  predicate Enabled(w: World, e: Event) {
    match e
    case Pass(to) => w.now <= to
    case Accepted => true
    case ReadDone(i, result) =>
      i < |w.sessions| && w.sessions[i].pending > 0
    case WriteDone(i, op, ok) => i < |w.sessions| && op < |w.sessions[i].writes|
    case Fire(i, timer) =>
      && i < |w.sessions|
      && var s := w.sessions[i];
         var t := match timer case Input => s.input case Wake => s.wake case Output => s.output;
         t.waits > 0 && Passed(t.expiry, w.now)
    case Run(i, h) => i < |w.sessions| && IsReady(w.sessions[i].ready, h)
  }

  function Handle(w: World, i: nat, h: Handler): World
    requires Enabled(w, Run(i, h))
  {
    var s := w.sessions[i];
    var v := Update(w, i, s.(ready := Taken(s.ready, h)));
    match h
    case HandleRead(k) => OnRead(v, i, s.ready.read[k])
    case HandleWrite(k) => OnWrite(v, i, s.ready.write[k])
    case AwaitOutput => Update(v, i, AwaitOn(v.sessions[i], v.now))
    case CheckInput => OnCheckInput(v, i)
    case CheckOutput => OnCheckOutput(v, i)
  }

  function Step(w: World, e: Event): World
    requires Enabled(w, e)
  {
    match e
    case Pass(to) => w.(now := to)
    case Accepted => Start(w)
    case ReadDone(i, result) =>
      var s := w.sessions[i];
      Update(w, i, s.(pending := s.pending - 1, ready := s.ready.(read := s.ready.read + [result])))
    case WriteDone(i, op, ok) =>
      var s := w.sessions[i];
      Update(w, i, s.(writes := Without(s.writes, op),
                      ready := s.ready.(write := s.ready.write + [WriteResult(ok, s.writes[op])])))
    case Fire(i, timer) =>
      var s := w.sessions[i];
      Update(w, i, match timer
                   case Input => SetInput(s, s.input.expiry)
                   case Wake => SetWake(s, s.wake.expiry)
                   case Output => SetOutput(s, s.output.expiry))
    case Run(i, h) => Handle(w, i, h)
  }

  predicate Follows(w: World, e: Event, v: World) {
    Enabled(w, e) && Step(w, e) == v
  }

  predicate StepAt(run: seq<World>, events: seq<Event>, n: nat) {
    n < |events| < |run| && Follows(run[n], events[n], run[n + 1])
  }

  /** The worlds a run passes through. */
  ghost predicate IsRun(run: seq<World>, events: seq<Event>) {
    && |run| == |events| + 1
    && run[0] == INITIAL
    && forall n: nat | n < |events| :: StepAt(run, events, n)
  }

  // ----- what every step keeps -----------------------------------------------------------------------------

  /** Ready handlers plus outstanding operations and waits, by actor. */
  function Reading(s: Session): nat {
    s.pending + |s.ready.read|
  }

  function Sending(s: Session): nat {
    s.wake.waits + s.ready.await + |s.writes| + |s.ready.write|
  }

  function Remaining(r: Ready): nat {
    |r.read| + |r.write| + r.await + r.input + r.output
  }

  /** Nothing of a closed session is outstanding. */
  predicate Quiet(s: Session) {
    s.pending == 0 && s.writes == [] && s.input.waits == 0 && s.wake.waits == 0 && s.output.waits == 0
  }

  function LastWrite(s: Session): Expiry {
    if s.writeAt == [] then PosInfinity else At(s.writeAt[|s.writeAt| - 1] + SECONDS)
  }

  /** The session has the given number of each of its four actors. The output actor sleeps only on an empty
      queue, and otherwise is sending the front of the queue. */
  predicate Actors(s: Session, reading: nat, sending: nat, checkingInput: nat, checkingOutput: nat) {
    && Reading(s) == reading && Sending(s) == sending
    && s.input.waits + s.ready.input == checkingInput
    && s.output.waits + s.ready.output == checkingOutput
    && (s.wake.waits > 0 ==> s.queue == [] && s.wake.expiry == PosInfinity)
    && (|s.writes| + |s.ready.write| > 0 ==> s.queue != [])
    && (|s.writes| > 0 ==> s.writes[0] == s.queue[0])
    && (|s.ready.write| > 0 ==> s.ready.write[0].message == s.queue[0])
    && s.input.expiry == At(s.readAt + SECONDS)
    && s.output.expiry == LastWrite(s)
  }

  /** An open session has each of its four actors exactly once. */
  predicate OpenOk(s: Session) {
    Actors(s, 1, 1, 1, 1)
  }

  predicate ClosedOk(s: Session) {
    Quiet(s) && Remaining(s.ready) <= 3
  }

  /** The messages that are not heartbeats. */
  function Payload(messages: seq<string>): seq<string> {
    if messages == [] then []
    else
      var last := messages[|messages| - 1];
      Payload(messages[..|messages| - 1]) + (if last == "\n" then [] else [last])
  }

  function Terminated(messages: seq<string>): seq<string> {
    seq(|messages|, i requires 0 <= i < |messages| => messages[i] + "\n")
  }

  function To(w: World, i: nat, s: Session): nat {
    if i in w.members then |w.log| else s.left
  }

  /** What a session has sent and has yet to send, heartbeats aside, is the channel's log since it joined. */
  predicate History(w: World, i: nat, s: Session) {
    && s.joined <= To(w, i, s) <= |w.log|
    && Payload(s.written + s.queue) == Terminated(w.log[s.joined..To(w, i, s)])
  }

  predicate SessionOk(w: World, i: nat, s: Session) {
    && (i in w.members <==> s.open)
    && (if s.open then OpenOk(s) else ClosedOk(s))
    && History(w, i, s)
  }

  ghost predicate Inv(w: World) {
    && (forall k | 0 <= k < |w.log| :: w.log[k] != "")
    && (forall i | i in w.members :: i < |w.sessions|)
    && (forall i | 0 <= i < |w.sessions| :: SessionOk(w, i, w.sessions[i]))
  }

  lemma PayloadSnoc(messages: seq<string>, m: string)
    ensures Payload(messages + [m]) == Payload(messages) + (if m == "\n" then [] else [m])
  {
    assert (messages + [m])[..|messages|] == messages;
  }

  /** A session other than the one a step is about keeps its place as long as the log and its membership do. */
  lemma Framed(w: World, v: World, i: nat, s: Session)
    requires SessionOk(w, i, s) && v.log == w.log && (i in v.members <==> i in w.members)
    ensures SessionOk(v, i, s)
  {}

  lemma UpdateKeepsInv(w: World, i: nat, s: Session)
    requires i < |w.sessions| && SessionOk(w, i, s)
    requires forall k | 0 <= k < |w.log| :: w.log[k] != ""
    requires forall j | j in w.members :: j < |w.sessions|
    requires forall j | 0 <= j < |w.sessions| && j != i :: SessionOk(w, j, w.sessions[j])
    ensures Inv(Update(w, i, s))
  {
    var v := Update(w, i, s);
    forall j | 0 <= j < |v.sessions|
      ensures SessionOk(v, j, v.sessions[j])
    {
      Framed(w, v, j, v.sessions[j]);
    }
  }

  // ----- stopping ------------------------------------------------------------------------------------------

  /** A session stopped by one of its handlers: the other three actors are all that remains of it. */
  lemma ShutOk(s: Session)
    requires Reading(s) + Sending(s) + s.input.waits + s.ready.input + s.output.waits + s.ready.output <= 3
    ensures ClosedOk(Shut(s)) && !Shut(s).open
    ensures Shut(s).written == s.written && Shut(s).queue == s.queue && Shut(s).joined == s.joined
    ensures Shut(s).left == s.left
  {}

  /** All sessions but `i` are as they should be; `i` has given up one of its four actors. */
  ghost predicate Running(w: World, i: nat) {
    && i < |w.sessions|
    && (forall k | 0 <= k < |w.log| :: w.log[k] != "")
    && (forall j | j in w.members :: j < |w.sessions|)
    && (forall j | 0 <= j < |w.sessions| && j != i :: SessionOk(w, j, w.sessions[j]))
    && History(w, i, w.sessions[i])
    && (i in w.members <==> w.sessions[i].open)
  }

  lemma StopKeepsInv(w: World, i: nat)
    requires Running(w, i) && w.sessions[i].open
    requires var s := w.sessions[i];
             Reading(s) + Sending(s) + s.input.waits + s.ready.input + s.output.waits + s.ready.output <= 3
    ensures Inv(Stop(w, i))
  {
    var v := Stop(w, i);
    var s := w.sessions[i].(left := |w.log|);
    ShutOk(s);
    forall j | 0 <= j < |v.sessions|
      ensures SessionOk(v, j, v.sessions[j])
    {
      if j != i {
        Framed(w, v, j, w.sessions[j]);
      }
    }
  }

  // ----- the steps -----------------------------------------------------------------------------------------

  /** The parts of a session its history is about. */
  predicate SameHistory(s: Session, t: Session) {
    t.written + t.queue == s.written + s.queue && t.joined == s.joined && t.left == s.left && t.open == s.open
  }

  lemma AwaitOk(s: Session, now: int)
    requires s.open && Actors(s, 1, 0, 1, 1)
    ensures OpenOk(AwaitOn(s, now)) && SameHistory(s, AwaitOn(s, now))
  {}

  lemma EnqueueOk(s: Session, message: string, reading: nat)
    requires Actors(s, reading, 1, 1, 1)
    ensures Actors(Enqueue(s, message), reading, 1, 1, 1)
  {}

  lemma StartReadOk(s: Session, now: int)
    requires Actors(s, 0, 1, 1, 1)
    ensures OpenOk(StartRead(s, now)) && SameHistory(s, StartRead(s, now))
  {}

  lemma TerminatedSnoc(messages: seq<string>, m: string)
    ensures Terminated(messages + [m]) == Terminated(messages) + [m + "\n"]
  {}

  /** Delivering to a member keeps its history in step with the log. */
  lemma DeliverHistory(w: World, i: nat, s: Session, m: string)
    requires i in w.members && History(w, i, s) && m != ""
    ensures History(Broadcast(w, m), i, Deliver(s, m))
  {
    var t := m + "\n";
    assert |t| > |"\n"|;
    assert s.written + (s.queue + [t]) == s.written + s.queue + [t];
    PayloadSnoc(s.written + s.queue, t);
    LogSince(w.log, m, s.joined);
    TerminatedSnoc(w.log[s.joined..|w.log|], m);
  }

  lemma LogSince(log: seq<string>, m: string, from: nat)
    requires from <= |log|
    ensures (log + [m])[from..|log + [m]|] == log[from..|log|] + [m]
  {}

  lemma LongerLog(w: World, i: nat, s: Session, m: string)
    requires i !in w.members && History(w, i, s)
    ensures History(Broadcast(w, m), i, s)
  {
    assert (w.log + [m])[s.joined..s.left] == w.log[s.joined..s.left];
  }

  /** A message from session `i`, whose reader is running, reaches every member. */
  lemma BroadcastOk(w: World, i: nat, m: string)
    requires Running(w, i) && w.sessions[i].open && Actors(w.sessions[i], 0, 1, 1, 1) && m != ""
    ensures var v := Broadcast(w, m); Running(v, i) && v.sessions[i].open && Actors(v.sessions[i], 0, 1, 1, 1)
  {
    var v := Broadcast(w, m);
    EnqueueOk(w.sessions[i], m + "\n", 0);
    DeliverHistory(w, i, w.sessions[i], m);
    forall j | 0 <= j < |v.sessions| && j != i
      ensures SessionOk(v, j, v.sessions[j])
    {
      var s := w.sessions[j];
      if j in w.members {
        EnqueueOk(s, m + "\n", 1);
        DeliverHistory(w, j, s, m);
      } else {
        LongerLog(w, j, s, m);
      }
    }
  }

  lemma HeartbeatOk(w: World, i: nat)
    requires Running(w, i) && w.sessions[i].open && Actors(w.sessions[i], 0, 1, 1, 1)
    ensures var v := Update(w, i, Enqueue(w.sessions[i], "\n"));
            Running(v, i) && v.sessions[i].open && Actors(v.sessions[i], 0, 1, 1, 1)
  {
    var s := w.sessions[i];
    var v := Update(w, i, Enqueue(s, "\n"));
    EnqueueOk(s, "\n", 0);
    assert s.written + (s.queue + ["\n"]) == s.written + s.queue + ["\n"];
    PayloadSnoc(s.written + s.queue, "\n");
    forall j | 0 <= j < |v.sessions| && j != i
      ensures SessionOk(v, j, v.sessions[j])
    {
      Framed(w, v, j, w.sessions[j]);
    }
  }

  lemma HistoryKept(w: World, i: nat, s: Session, t: Session)
    requires History(w, i, s) && SameHistory(s, t)
    ensures History(w, i, t)
  {}

  /** The running handler puts its actor back in place. */
  lemma ResumeKeepsInv(w: World, i: nat, t: Session)
    requires Running(w, i) && w.sessions[i].open && OpenOk(t) && SameHistory(w.sessions[i], t)
    ensures Inv(Update(w, i, t))
  {
    HistoryKept(w, i, w.sessions[i], t);
    UpdateKeepsInv(w, i, t);
  }

  lemma OnReadOk(w: World, i: nat, result: ReadResult)
    requires Running(w, i) && w.sessions[i].open && Actors(w.sessions[i], 0, 1, 1, 1)
    ensures Inv(OnRead(w, i, result))
  {
    if result.ReadError? {
      StopKeepsInv(w, i);
    } else {
      var v := w;
      if result.text != "" {
        BroadcastOk(w, i, result.text);
        v := Broadcast(w, result.text);
      } else if w.sessions[i].queue == [] {
        HeartbeatOk(w, i);
        v := Update(w, i, Enqueue(w.sessions[i], "\n"));
      }
      var s := v.sessions[i];
      StartReadOk(s, v.now);
      ResumeKeepsInv(v, i, StartRead(s, v.now));
    }
  }

  lemma OnWriteOk(w: World, i: nat, result: WriteResult)
    requires Running(w, i) && w.sessions[i].open && Actors(w.sessions[i], 1, 0, 1, 1)
    requires w.sessions[i].queue != [] && result.message == w.sessions[i].queue[0]
    ensures Inv(OnWrite(w, i, result))
  {
    if result.ok {
      var s := w.sessions[i];
      var t := s.(queue := s.queue[1..], written := s.written + [s.queue[0]]);
      assert t.written + t.queue == s.written + s.queue;
      AwaitOk(t, w.now);
      ResumeKeepsInv(w, i, AwaitOn(t, w.now));
    } else {
      StopKeepsInv(w, i);
    }
  }

  lemma WatchInputOk(s: Session)
    requires Actors(s, 1, 1, 0, 1)
    ensures var t := s.(input := s.input.(waits := s.input.waits + 1)); OpenOk(t) && SameHistory(s, t)
  {}

  lemma WatchOutputOk(s: Session)
    requires Actors(s, 1, 1, 1, 0)
    ensures var t := s.(output := s.output.(waits := s.output.waits + 1)); OpenOk(t) && SameHistory(s, t)
  {}

  lemma CheckInputOk(w: World, i: nat)
    requires Running(w, i) && w.sessions[i].open && Actors(w.sessions[i], 1, 1, 0, 1)
    ensures Inv(OnCheckInput(w, i))
  {
    var s := w.sessions[i];
    if Passed(s.input.expiry, w.now) {
      StopKeepsInv(w, i);
    } else {
      WatchInputOk(s);
      ResumeKeepsInv(w, i, s.(input := s.input.(waits := s.input.waits + 1)));
    }
  }

  lemma CheckOutputOk(w: World, i: nat)
    requires Running(w, i) && w.sessions[i].open && Actors(w.sessions[i], 1, 1, 1, 0)
    ensures Inv(OnCheckOutput(w, i))
  {
    var s := w.sessions[i];
    if Passed(s.output.expiry, w.now) {
      StopKeepsInv(w, i);
    } else {
      WatchOutputOk(s);
      ResumeKeepsInv(w, i, s.(output := s.output.(waits := s.output.waits + 1)));
    }
  }

  /** What taking a handler of an open session leaves of its actors. */
  lemma TakenActors(s: Session, h: Handler)
    requires OpenOk(s) && IsReady(s.ready, h)
    ensures var t := s.(ready := Taken(s.ready, h));
            && Actors(t, if h.HandleRead? then 0 else 1, if h.HandleWrite? || h.AwaitOutput? then 0 else 1,
                      if h.CheckInput? then 0 else 1, if h.CheckOutput? then 0 else 1)
            && (h.HandleWrite? ==> t.queue != [] && s.ready.write[h.r].message == t.queue[0])
  {}

  /** The write handler of an open session never finds the queue empty. */
  lemma WriterHasFront(w: World, i: nat, k: nat)
    requires Inv(w) && Enabled(w, Run(i, HandleWrite(k))) && w.sessions[i].open
    ensures w.sessions[i].queue != []
  {
    assert SessionOk(w, i, w.sessions[i]);
  }

  lemma TakenRuns(w: World, i: nat, h: Handler)
    requires Inv(w) && Enabled(w, Run(i, h))
    ensures var t := w.sessions[i].(ready := Taken(w.sessions[i].ready, h));
            Running(Update(w, i, t), i) && (!t.open ==> Inv(Update(w, i, t)))
  {
    var s := w.sessions[i];
    var t := s.(ready := Taken(s.ready, h));
    var v := Update(w, i, t);
    assert SessionOk(w, i, s);
    HistoryKept(w, i, s, t);
    forall j | 0 <= j < |v.sessions| && j != i
      ensures SessionOk(v, j, v.sessions[j])
    {
      Framed(w, v, j, w.sessions[j]);
    }
    if !s.open {
      UpdateKeepsInv(w, i, t);
    }
  }

  lemma HandleKeepsInv(w: World, i: nat, h: Handler)
    requires Inv(w) && Enabled(w, Run(i, h))
    ensures Inv(Handle(w, i, h))
  {
    var s := w.sessions[i];
    var t := s.(ready := Taken(s.ready, h));
    var v := Update(w, i, t);
    TakenRuns(w, i, h);
    if !s.open {
      assert Handle(w, i, h).sessions == v.sessions;
    } else {
      assert SessionOk(w, i, s);
      TakenActors(s, h);
      match h
      case HandleRead(k) => OnReadOk(v, i, s.ready.read[k]);
      case HandleWrite(k) => OnWriteOk(v, i, s.ready.write[k]);
      case AwaitOutput =>
        AwaitOk(t, v.now);
        ResumeKeepsInv(v, i, AwaitOn(t, v.now));
      case CheckInput => CheckInputOk(v, i);
      case CheckOutput => CheckOutputOk(v, i);
    }
  }

  lemma StartKeepsInv(w: World)
    requires Inv(w)
    ensures Inv(Start(w))
  {
    var n, v := |w.sessions|, Start(w);
    assert v.sessions[n].written + v.sessions[n].queue == [];
    assert w.log[|w.log|..] == [];
    forall j | 0 <= j < |v.sessions|
      ensures SessionOk(v, j, v.sessions[j])
    {
      if j < n {
        Framed(w, v, j, w.sessions[j]);
      }
    }
  }

  lemma StepKeepsInv(w: World, e: Event)
    requires Inv(w) && Enabled(w, e)
    ensures Inv(Step(w, e))
  {
    match e
    case Pass(to) =>
      forall j | 0 <= j < |w.sessions|
        ensures SessionOk(w.(now := to), j, w.sessions[j])
      {
        Framed(w, w.(now := to), j, w.sessions[j]);
      }
    case Accepted => StartKeepsInv(w);
    case Run(i, h) => HandleKeepsInv(w, i, h);
    case ReadDone(i, result) => CompletionKeepsInv(w, i, e);
    case WriteDone(i, op, ok) => CompletionKeepsInv(w, i, e);
    case Fire(i, timer) => CompletionKeepsInv(w, i, e);
  }

  /** A completed operation or wait leaves its actor in place, with a ready handler. */
  lemma CompletionKeepsInv(w: World, i: nat, e: Event)
    requires Inv(w) && Enabled(w, e) && (e.ReadDone? || e.WriteDone? || e.Fire?) && i == e.id
    ensures Inv(Step(w, e))
  {
    var s, t := w.sessions[i], Step(w, e).sessions[i];
    assert SessionOk(w, i, s);
    CompletionKeepsActors(w, s, e);
    ResumeKeepsInv(w, i, t);
  }

  lemma CompletionKeepsActors(w: World, s: Session, e: Event)
    requires (e.ReadDone? || e.WriteDone? || e.Fire?) && Enabled(w, e) && s == w.sessions[e.id]
    requires if s.open then OpenOk(s) else ClosedOk(s)
    ensures s.open
    ensures var t := Step(w, e).sessions[e.id]; OpenOk(t) && SameHistory(s, t)
  {}

  lemma {:induction false} RunKeepsInv(run: seq<World>, events: seq<Event>, n: nat)
    requires IsRun(run, events) && n <= |events|
    ensures Inv(run[n])
  {
    if n == 0 {
    } else {
      RunKeepsInv(run, events, n - 1);
      assert StepAt(run, events, n - 1);
      StepKeepsInv(run[n - 1], events[n - 1]);
    }
  }

  // ----- the theorems --------------------------------------------------------------------------------------

  /** No lost wakeup: while a session is open its output actor exists exactly once, as a wait on the timer, a
      ready handler or a write; it never sleeps on the timer with something in the queue; and what it is
      sending, or has just sent, is the front of the queue. */
  lemma NoLostWakeup(run: seq<World>, events: seq<Event>, n: nat, i: nat)
    requires IsRun(run, events) && n <= |events| && i < |run[n].sessions| && run[n].sessions[i].open
    ensures var s := run[n].sessions[i];
            && s.wake.waits + s.ready.await + |s.writes| + |s.ready.write| == 1
            && (s.queue != [] ==> s.wake.waits == 0)
            && (forall k | 0 <= k < |s.writes| :: s.queue != [] && s.writes[k] == s.queue[0])
            && (forall k | 0 <= k < |s.ready.write| :: s.queue != [] && s.ready.write[k].message == s.queue[0])
  {
    RunKeepsInv(run, events, n);
    assert SessionOk(run[n], i, run[n].sessions[i]);
  }

  /** What a session has sent followed by what it has queued is, heartbeats aside, the channel's log from the
      point it joined to the newest message, or to the point it left. */
  lemma SessionsSendTheLog(run: seq<World>, events: seq<Event>, n: nat, i: nat)
    requires IsRun(run, events) && n <= |events| && i < |run[n].sessions|
    ensures var w := run[n]; var s := w.sessions[i];
            var to := if i in w.members then |w.log| else s.left;
            && s.joined <= to <= |w.log|
            && Payload(s.written + s.queue) == Terminated(w.log[s.joined..to])
  {
    RunKeepsInv(run, events, n);
    assert SessionOk(run[n], i, run[n].sessions[i]);
  }

  /** Between handlers a session is in the channel exactly when its socket is open. */
  lemma MemberIffOpen(run: seq<World>, events: seq<Event>, n: nat, i: nat)
    requires IsRun(run, events) && n <= |events| && i < |run[n].sessions|
    ensures i in run[n].members <==> run[n].sessions[i].open
  {
    RunKeepsInv(run, events, n);
    assert SessionOk(run[n], i, run[n].sessions[i]);
  }

  // ----- heartbeats ----------------------------------------------------------------------------------------

  /** A heartbeat in a queue is at its front. */
  predicate HeartbeatInFront(queue: seq<string>) {
    forall k | 0 < k < |queue| :: queue[k] != "\n"
  }

  ghost predicate AllInFront(w: World) {
    forall i | 0 <= i < |w.sessions| :: HeartbeatInFront(w.sessions[i].queue)
  }

  lemma BroadcastInFront(w: World, m: string)
    requires AllInFront(w) && m != ""
    ensures AllInFront(Broadcast(w, m))
  {
    var t := m + "\n";
    assert |t| > |"\n"|;
    var v := Broadcast(w, m);
    forall i | 0 <= i < |v.sessions|
      ensures HeartbeatInFront(v.sessions[i].queue)
    {
      var q := w.sessions[i].queue;
      assert v.sessions[i].queue == q || v.sessions[i].queue == q + [t];
      assert HeartbeatInFront(q);
    }
  }

  lemma ReadInFront(w: World, i: nat, result: ReadResult)
    requires i < |w.sessions| && AllInFront(w)
    ensures AllInFront(OnRead(w, i, result))
  {
    if result.Line? && result.text != "" {
      BroadcastInFront(w, result.text);
    }
  }

  lemma WriteInFront(w: World, i: nat, result: WriteResult)
    requires i < |w.sessions| && AllInFront(w)
    ensures AllInFront(OnWrite(w, i, result))
  {
    var q := w.sessions[i].queue;
    assert HeartbeatInFront(q);
    if q != [] {
      assert forall k | 0 < k < |q[1..]| :: q[1..][k] == q[k + 1];
    }
  }

  lemma StepKeepsInFront(w: World, e: Event)
    requires AllInFront(w) && Enabled(w, e)
    ensures AllInFront(Step(w, e))
  {
    if e.Run? {
      var s := w.sessions[e.id];
      var v := Update(w, e.id, s.(ready := Taken(s.ready, e.handler)));
      assert AllInFront(v);
      match e.handler
      case HandleRead(k) => ReadInFront(v, e.id, s.ready.read[k]);
      case HandleWrite(k) => WriteInFront(v, e.id, s.ready.write[k]);
      case _ =>
    }
  }

  /** An open session takes a heartbeat from its client. */
  predicate HearsHeartbeat(w: World, e: Event) {
    && Enabled(w, e) && e.Run? && e.handler.HandleRead?
    && w.sessions[e.id].open && w.sessions[e.id].ready.read[e.handler.r] == Line("")
  }

  /** Heartbeats are only queued for a session with nothing else waiting to be sent, and then always: at every point
      of every run a heartbeat in a queue is at its front, and a heartbeat heard adds one to the queue of its
      session exactly when that is empty, and to no other. */
  lemma {:induction false} HeartbeatsInFront(run: seq<World>, events: seq<Event>, n: nat)
    requires IsRun(run, events) && n <= |events|
    ensures AllInFront(run[n])
    ensures n < |events| && HearsHeartbeat(run[n], events[n]) ==>
              var i, w, v := events[n].id, run[n], run[n + 1];
              && |v.sessions| == |w.sessions| && v.log == w.log
              && v.sessions[i].queue == (if w.sessions[i].queue == [] then ["\n"] else w.sessions[i].queue)
              && (forall j | 0 <= j < |w.sessions| && j != i :: v.sessions[j] == w.sessions[j])
  {
    if n == 0 {
    } else {
      HeartbeatsInFront(run, events, n - 1);
      assert StepAt(run, events, n - 1);
      StepKeepsInFront(run[n - 1], events[n - 1]);
    }
    if n < |events| {
      assert StepAt(run, events, n);
      assert [] + ["\n"] == ["\n"];
    }
  }

  /** How many handlers of session `i` are run. */
  function HandlersRun(events: seq<Event>, i: nat): nat {
    if events == [] then 0
    else
      var last := events[|events| - 1];
      HandlersRun(events[..|events| - 1], i) + Counts(last, i)
  }

  function Counts(e: Event, i: nat): nat {
    if e.Run? && e.id == i then 1 else 0
  }

  lemma HandlersRunSnoc(events: seq<Event>, n: nat, m: nat, i: nat)
    requires n < m <= |events|
    ensures HandlersRun(events[n..m], i)
         == HandlersRun(events[n..m - 1], i) + Counts(events[m - 1], i)
  {
    assert events[n..m][..m - 1 - n] == events[n..m - 1];
  }

  /** A stopped session stays as it is but for its ready handlers, which only run off. */
  lemma StoppedStep(w: World, e: Event, v: World, i: nat)
    requires Inv(w) && Follows(w, e, v) && i < |w.sessions| && !w.sessions[i].open
    ensures i < |v.sessions| && !v.sessions[i].open && Quiet(v.sessions[i])
    ensures Remaining(v.sessions[i].ready) + Counts(e, i) == Remaining(w.sessions[i].ready)
  {
    assert SessionOk(w, i, w.sessions[i]);
    if e.Run? {
      if e.id == i {
        StoppedHandler(w, i, e.handler);
      } else {
        OthersUntouched(w, e.id, e.handler, i);
      }
    } else if e.Accepted? {
      assert v.sessions[i] == w.sessions[i];
    }
  }

  /** A handler that finds its session stopped does nothing. */
  lemma StoppedHandler(w: World, i: nat, h: Handler)
    requires Enabled(w, Run(i, h)) && !w.sessions[i].open
    ensures Handle(w, i, h) == Update(w, i, w.sessions[i].(ready := Taken(w.sessions[i].ready, h)))
    ensures Remaining(Taken(w.sessions[i].ready, h)) + 1 == Remaining(w.sessions[i].ready)
  {}

  lemma OthersUntouched(w: World, j: nat, h: Handler, i: nat)
    requires Inv(w) && Enabled(w, Run(j, h)) && i < |w.sessions| && i != j && i !in w.members
    ensures i < |Handle(w, j, h).sessions| && Handle(w, j, h).sessions[i] == w.sessions[i]
  {
    var s := w.sessions[j];
    var v := Update(w, j, s.(ready := Taken(s.ready, h)));
    assert v.sessions[i] == w.sessions[i];
    match h
    case HandleRead(k) => ReaderTouchesMembers(v, j, s.ready.read[k], i);
    case _ =>
  }

  lemma ReaderTouchesMembers(w: World, j: nat, result: ReadResult, i: nat)
    requires i < |w.sessions| && j < |w.sessions| && i != j && i !in w.members
    ensures i < |OnRead(w, j, result).sessions| && OnRead(w, j, result).sessions[i] == w.sessions[i]
  {}

  lemma StoppedNow(run: seq<World>, events: seq<Event>, n: nat, i: nat)
    requires IsRun(run, events) && n <= |events| && i < |run[n].sessions| && !run[n].sessions[i].open
    ensures Quiet(run[n].sessions[i]) && Remaining(run[n].sessions[i].ready) <= 3
  {
    RunKeepsInv(run, events, n);
    assert SessionOk(run[n], i, run[n].sessions[i]);
  }

  lemma StoppedNext(run: seq<World>, events: seq<Event>, m: nat, i: nat)
    requires IsRun(run, events) && 0 < m <= |events| && i < |run[m - 1].sessions| && !run[m - 1].sessions[i].open
    ensures i < |run[m].sessions| && !run[m].sessions[i].open && Quiet(run[m].sessions[i])
    ensures Remaining(run[m].sessions[i].ready) + Counts(events[m - 1], i) == Remaining(run[m - 1].sessions[i].ready)
  {
    RunKeepsInv(run, events, m - 1);
    assert StepAt(run, events, m - 1);
    StoppedStep(run[m - 1], events[m - 1], run[m], i);
  }

  /** Once a session is stopped, at most three more of its handlers ever run, and it never again has an
      operation or a wait outstanding. */
  lemma {:induction false} AfterStop(run: seq<World>, events: seq<Event>, n: nat, m: nat, i: nat)
    requires IsRun(run, events) && n <= m <= |events| && i < |run[n].sessions| && !run[n].sessions[i].open
    ensures i < |run[m].sessions| && !run[m].sessions[i].open && Quiet(run[m].sessions[i])
    ensures HandlersRun(events[n..m], i) + Remaining(run[m].sessions[i].ready)
         == Remaining(run[n].sessions[i].ready) <= 3
    decreases m
  {
    if m == n {
      StoppedNow(run, events, n, i);
      assert events[n..m] == [];
    } else {
      AfterStop(run, events, n, m - 1, i);
      StoppedNext(run, events, m, i);
      HandlersRunSnoc(events, n, m, i);
    }
  }

  // ----- handlers run before time goes on --------------------------------------------------------------------

  predicate AtRest(s: Session, time: int) {
    && s.ready == Ready([], [], 0, 0, 0)
    && NotOverdue(s.input, time) && NotOverdue(s.wake, time) && NotOverdue(s.output, time)
  }

  /** Time passes only while no handler is ready, and never past a timer that is waited for. */
  ghost predicate Prompt(w: World, e: Event) {
    e.Pass? ==> forall i | 0 <= i < |w.sessions| :: AtRest(w.sessions[i], e.to)
  }

  /** Neither the current read of an open session nor its last write is more than 30 seconds old. */
  predicate InTime(s: Session, now: int) {
    s.open ==> now <= s.readAt + 30 && (s.writeAt != [] ==> now <= s.writeAt[|s.writeAt| - 1] + 30)
  }

  ghost predicate AllInTime(w: World) {
    forall i | 0 <= i < |w.sessions| :: InTime(w.sessions[i], w.now)
  }

  lemma RestInTime(w: World, i: nat, to: int)
    requires Inv(w) && i < |w.sessions| && AtRest(w.sessions[i], to)
    ensures InTime(w.sessions[i], to)
  {
    assert SessionOk(w, i, w.sessions[i]);
  }

  /** A session that has been closed, or has started a read or a write now and nothing else. */
  predicate Renewed(s: Session, t: Session, now: int) {
    t.open ==>
      && s.open && (t.readAt == s.readAt || t.readAt == now)
      && (t.writeAt == s.writeAt || t.writeAt == s.writeAt + [now])
  }

  lemma RenewedInTime(s: Session, t: Session, now: int)
    requires InTime(s, now) && Renewed(s, t, now)
    ensures InTime(t, now)
  {}

  lemma AllRenewed(w: World, v: World)
    requires AllInTime(w) && v.now == w.now && |v.sessions| == |w.sessions|
    requires forall j | 0 <= j < |w.sessions| :: Renewed(w.sessions[j], v.sessions[j], w.now)
    ensures AllInTime(v)
  {
    forall j | 0 <= j < |v.sessions|
      ensures InTime(v.sessions[j], v.now)
    {
      RenewedInTime(w.sessions[j], v.sessions[j], w.now);
    }
  }

  lemma ReadRenews(w: World, i: nat, result: ReadResult, j: nat)
    requires i < |w.sessions| && j < |w.sessions|
    ensures |OnRead(w, i, result).sessions| == |w.sessions|
    ensures Renewed(w.sessions[j], OnRead(w, i, result).sessions[j], w.now)
  {}

  lemma WriteRenews(w: World, i: nat, result: WriteResult, j: nat)
    requires i < |w.sessions| && j < |w.sessions|
    ensures |OnWrite(w, i, result).sessions| == |w.sessions|
    ensures Renewed(w.sessions[j], OnWrite(w, i, result).sessions[j], w.now)
  {}

  lemma HandlerRenews(w: World, i: nat, h: Handler, j: nat)
    requires Enabled(w, Run(i, h)) && j < |w.sessions|
    ensures |Handle(w, i, h).sessions| == |w.sessions|
    ensures Renewed(w.sessions[j], Handle(w, i, h).sessions[j], w.now)
  {
    var s := w.sessions[i];
    var v := Update(w, i, s.(ready := Taken(s.ready, h)));
    match h
    case HandleRead(k) => ReadRenews(v, i, s.ready.read[k], j);
    case HandleWrite(k) => WriteRenews(v, i, s.ready.write[k], j);
    case _ =>
  }

  lemma StepRenews(w: World, e: Event, j: nat)
    requires Enabled(w, e) && !e.Pass? && !e.Accepted? && j < |w.sessions|
    ensures |Step(w, e).sessions| == |w.sessions| && Step(w, e).now == w.now
    ensures Renewed(w.sessions[j], Step(w, e).sessions[j], w.now)
  {
    if e.Run? {
      HandlerRenews(w, e.id, e.handler, j);
    }
  }

  lemma StepInTime(w: World, e: Event)
    requires Inv(w) && Enabled(w, e) && Prompt(w, e) && AllInTime(w)
    ensures AllInTime(Step(w, e))
  {
    if e.Pass? {
      forall i | 0 <= i < |w.sessions|
        ensures InTime(w.sessions[i], e.to)
      {
        RestInTime(w, i, e.to);
      }
    } else if !e.Accepted? {
      StepRenews(w, e, e.id);
      forall j | 0 <= j < |w.sessions|
        ensures Renewed(w.sessions[j], Step(w, e).sessions[j], w.now)
      {
        StepRenews(w, e, j);
      }
      AllRenewed(w, Step(w, e));
    }
  }

  lemma {:induction false} RunInTime(run: seq<World>, events: seq<Event>, n: nat)
    requires IsRun(run, events) && n <= |events|
    requires forall k | 0 <= k < n :: Prompt(run[k], events[k])
    ensures AllInTime(run[n])
  {
    if n == 0 {
    } else {
      RunInTime(run, events, n - 1);
      RunKeepsInv(run, events, n - 1);
      assert StepAt(run, events, n - 1);
      StepInTime(run[n - 1], events[n - 1]);
    }
  }

  /** Nothing is queued or being sent: the output actor is asleep. */
  predicate Idle(s: Session) {
    s.open && s.queue == [] && s.wake.waits == 1
  }

  /** A run in which that happens: its events, and the worlds it passes through. */
  function ExampleEvents(): seq<Event> {
    [Accepted, ReadDone(0, Line("a")), Run(0, HandleRead(0)), Run(0, AwaitOutput),
     Pass(10), ReadDone(0, Line("")), Run(0, HandleRead(0)),
     WriteDone(0, 0, true), Run(0, HandleWrite(0)), Pass(30), Run(0, CheckOutput)]
  }

  function ExampleWorlds(): seq<World> {
    var m := "a" + "\n";
    var none := Ready([], [], 0, 0, 0);
    var asleep := Timer(PosInfinity, 1);
    // Started, then a line is read, broadcast and written.
    var s1 := Session(true, [], Timer(At(30), 1), asleep, asleep, 1, [], none, [], 0, [], 0, 0);
    var s2 := s1.(pending := 0, ready := none.(read := [Line("a")]));
    var s3 := s1.(queue := [m], input := Timer(At(30), 0), wake := Timer(NegInfinity, 0),
                  ready := none.(await := 1, input := 1));
    var s4 := s3.(output := Timer(At(30), 0), writes := [m], writeAt := [0], ready := none.(input := 1, output := 1));
    // A heartbeat arrives while the queue is not empty.
    var s6 := s4.(pending := 0, ready := s4.ready.(read := [Line("")]));
    var s7 := s4.(input := Timer(At(40), 0), readAt := 10);
    // The write completes, and the output actor goes to sleep.
    var s8 := s7.(writes := [], ready := s7.ready.(write := [WriteResult(true, m)]));
    var s9 := s7.(writes := [], queue := [], written := [m], wake := asleep);
    [INITIAL, World(0, {0}, [], [s1]), World(0, {0}, [], [s2]), World(0, {0}, ["a"], [s3]), World(0, {0}, ["a"], [s4]),
     World(10, {0}, ["a"], [s4]), World(10, {0}, ["a"], [s6]), World(10, {0}, ["a"], [s7]), World(10, {0}, ["a"], [s8]),
     World(10, {0}, ["a"], [s9]), World(30, {0}, ["a"], [s9]),
     Stop(World(30, {0}, ["a"], [s9.(ready := none.(input := 1))]), 0)]
  }

  /** Worlds with one session are equal when all their parts are. */
  lemma SameParts(w: World, v: World)
    requires w.now == v.now && w.members == v.members && w.log == v.log && |w.sessions| == |v.sessions| == 1
    requires var s, t := w.sessions[0], v.sessions[0];
             && s.queue == t.queue && s.writes == t.writes && s.written == t.written && s.writeAt == t.writeAt
             && s.ready.read == t.ready.read && s.ready.write == t.ready.write
             && s.(queue := [], writes := [], written := [], writeAt := [], ready := s.ready.(read := [], write := []))
             == t.(queue := [], writes := [], written := [], writeAt := [], ready := t.ready.(read := [], write := []))
    ensures w == v
  {}

  /** The session starts and reads a line. */
  lemma ExampleReads()
    ensures Follows(ExampleWorlds()[0], ExampleEvents()[0], ExampleWorlds()[1])
    ensures Follows(ExampleWorlds()[1], ExampleEvents()[1], ExampleWorlds()[2])
  {
    SameParts(Step(ExampleWorlds()[0], ExampleEvents()[0]), ExampleWorlds()[1]);
    SameParts(Step(ExampleWorlds()[1], ExampleEvents()[1]), ExampleWorlds()[2]);
  }

  /** The line is broadcast. */
  lemma ExampleBroadcasts()
    ensures Follows(ExampleWorlds()[2], ExampleEvents()[2], ExampleWorlds()[3])
  {
    SameParts(Step(ExampleWorlds()[2], ExampleEvents()[2]), ExampleWorlds()[3]);
  }

  /** A write is started. */
  lemma ExampleWrites()
    ensures Follows(ExampleWorlds()[3], ExampleEvents()[3], ExampleWorlds()[4])
  {
    SameParts(Step(ExampleWorlds()[3], ExampleEvents()[3]), ExampleWorlds()[4]);
  }

  /** A heartbeat is read. */
  lemma ExampleHears()
    ensures Follows(ExampleWorlds()[4], ExampleEvents()[4], ExampleWorlds()[5])
    ensures Follows(ExampleWorlds()[5], ExampleEvents()[5], ExampleWorlds()[6])
  {
    SameParts(Step(ExampleWorlds()[4], ExampleEvents()[4]), ExampleWorlds()[5]);
    SameParts(Step(ExampleWorlds()[5], ExampleEvents()[5]), ExampleWorlds()[6]);
  }

  /** The heartbeat is not echoed. */
  lemma ExampleHeartbeat()
    ensures Follows(ExampleWorlds()[6], ExampleEvents()[6], ExampleWorlds()[7])
  {
    SameParts(Step(ExampleWorlds()[6], ExampleEvents()[6]), ExampleWorlds()[7]);
  }

  /** The write completes. */
  lemma ExampleSent()
    ensures Follows(ExampleWorlds()[7], ExampleEvents()[7], ExampleWorlds()[8])
    ensures Follows(ExampleWorlds()[8], ExampleEvents()[8], ExampleWorlds()[9])
  {
    SameParts(Step(ExampleWorlds()[7], ExampleEvents()[7]), ExampleWorlds()[8]);
    SameParts(Step(ExampleWorlds()[8], ExampleEvents()[8]), ExampleWorlds()[9]);
  }

  /** The output check runs. */
  lemma ExampleStops()
    ensures Follows(ExampleWorlds()[9], ExampleEvents()[9], ExampleWorlds()[10])
    ensures Follows(ExampleWorlds()[10], ExampleEvents()[10], ExampleWorlds()[11])
  {
    SameParts(Step(ExampleWorlds()[9], ExampleEvents()[9]), ExampleWorlds()[10]);
    SameParts(Step(ExampleWorlds()[10], ExampleEvents()[10]), ExampleWorlds()[11]);
  }

  /** A message is written from time 0 on, a heartbeat arrives at time 10 while it is, and the write completes.
      At time 30 nothing is queued or being sent, and the client was heard of 20 seconds ago, yet the session
      is stopped. */
  lemma IdleSessionStopped()
    ensures IsRun(ExampleWorlds(), ExampleEvents())
    ensures ExampleEvents()[10] == Run(0, CheckOutput)
    ensures Idle(ExampleWorlds()[10].sessions[0])
    ensures ExampleWorlds()[6].sessions[0].pending == 0 && ExampleWorlds()[7].sessions[0].pending == 1
    ensures ExampleWorlds()[10].now < ExampleWorlds()[6].now + 30
    ensures !ExampleWorlds()[11].sessions[0].open
  {
    ExampleReads();
    ExampleBroadcasts();
    ExampleWrites();
    ExampleHears();
    ExampleHeartbeat();
    ExampleSent();
    ExampleStops();
    EachFollows(ExampleWorlds(), ExampleEvents());
  }

  lemma EachFollows(w: seq<World>, e: seq<Event>)
    requires |w| == 12 && |e| == 11 && w[0] == INITIAL
    requires Follows(w[0], e[0], w[1]) && Follows(w[1], e[1], w[2]) && Follows(w[2], e[2], w[3])
    requires Follows(w[3], e[3], w[4]) && Follows(w[4], e[4], w[5]) && Follows(w[5], e[5], w[6])
    requires Follows(w[6], e[6], w[7]) && Follows(w[7], e[7], w[8]) && Follows(w[8], e[8], w[9])
    requires Follows(w[9], e[9], w[10]) && Follows(w[10], e[10], w[11])
    ensures IsRun(w, e)
  {
    forall n: nat | n < |e|
      ensures StepAt(w, e, n)
    {
      assert n == 0 || n == 1 || n == 2 || n == 3 || n == 4 || n == 5
             || n == 6 || n == 7 || n == 8 || n == 9 || n == 10;
    }
  }
}
