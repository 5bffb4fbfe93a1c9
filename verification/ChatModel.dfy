/** The chat server as a state machine: a room, any number of sessions, and one step per completion handler. */
module ChatModel {
  import opened Basics
  import opened ChatMessage

  const MAX_RECENT := 100

  /** The outstanding read of a session, if any. */
  datatype Reading = Header | Body(header: string) | Stopped

  /** A started session. `writes` are the outstanding write operations, each with the message it was given;
      `written`, `failed`, `joined` and `left` are history: the messages of completed writes, whether a write
      has failed, and the length of the room's log when the session joined and left. */
  datatype Session = Session(reading: Reading, queue: seq<Message>, writes: seq<Message>,
                             written: seq<Message>, failed: bool, joined: nat, left: nat)

  /** `log` is history: every message ever delivered, in order. */
  datatype Room = Room(participants: set<nat>, recent: seq<Message>, log: seq<Message>)

  datatype World = World(room: Room, sessions: seq<Session>)

  datatype Event =
    | Accepted
    | ReadHeader(id: nat, error: bool, bytes: string)
    | ReadBody(id: nat, error: bool, bytes: string)
    | Wrote(id: nat, op: nat, error: bool)

  const INITIAL := World(Room({}, [], []), [])

  /** A completion can only be for an operation that is outstanding, with as many bytes as were asked for. */
  predicate Enabled(w: World, e: Event) {
    match e
    case Accepted => true
    case ReadHeader(i, error, bytes) =>
      i < |w.sessions| && w.sessions[i].reading.Header? && |bytes| == HEADER_LENGTH
    case ReadBody(i, error, bytes) =>
      && i < |w.sessions| && w.sessions[i].reading.Body?
      && DecodedLength(w.sessions[i].reading.header) == Some(|bytes|)
    case Wrote(i, op, error) => i < |w.sessions| && op < |w.sessions[i].writes|
  }

  // ----- the handlers ------------------------------------------------------------------------------------

  /** `chat_session::deliver`: queue the message, and start writing if nothing is being written. */
  function DeliverTo(s: Session, m: Message): Session {
    var queue := s.queue + [m];
    s.(queue := queue, writes := if s.queue != [] then s.writes else s.writes + [queue[0]])
  }

  function DeliverAll(s: Session, ms: seq<Message>): Session {
    if ms == [] then s else DeliverTo(DeliverAll(s, ms[..|ms| - 1]), ms[|ms| - 1])
  }

  function Trim(ms: seq<Message>): (r: seq<Message>)
    ensures |r| <= MAX_RECENT && |r| <= |ms|
    ensures r == ms[|ms| - |r|..]
    ensures |ms| >= MAX_RECENT ==> |r| == MAX_RECENT
    ensures |ms| <= MAX_RECENT ==> r == ms
  {
    if |ms| > MAX_RECENT then Trim(ms[1..]) else ms
  }

  function RoomDeliver(w: World, m: Message): World {
    World(Room(w.room.participants, Trim(w.room.recent + [m]), w.room.log + [m]),
          seq(|w.sessions|, i requires 0 <= i < |w.sessions| =>
            if i in w.room.participants then DeliverTo(w.sessions[i], m) else w.sessions[i]))
  }

  function RoomLeave(w: World, i: nat): World
    requires i < |w.sessions|
  {
    if i !in w.room.participants then w
    else World(w.room.(participants := w.room.participants - {i}),
               w.sessions[i := w.sessions[i].(left := |w.room.log|)])
  }

  /** `chat_session::start`: join the room, which delivers the recent messages, and start reading. */
  function Start(w: World): World {
    var s := Session(Header, [], [], [], false, |w.room.log|, 0);
    World(w.room.(participants := w.room.participants + {|w.sessions|}),
          w.sessions + [DeliverAll(s, w.room.recent)])
  }

  function SetReading(w: World, i: nat, reading: Reading): World
    requires i < |w.sessions|
  {
    w.(sessions := w.sessions[i := w.sessions[i].(reading := reading)])
  }

  function Step(w: World, e: Event): (w': World)
    requires Enabled(w, e)
  {
    match e
    case Accepted => Start(w)
    case ReadHeader(i, error, bytes) =>
      if !error && DecodedLength(bytes).Some? then SetReading(w, i, Body(bytes))
      else SetReading(RoomLeave(w, i), i, Stopped)
    case ReadBody(i, error, bytes) =>
      if !error then SetReading(RoomDeliver(w, Message(w.sessions[i].reading.header, bytes)), i, Header)
      else SetReading(RoomLeave(w, i), i, Stopped)
    case Wrote(i, op, error) =>
      var s := w.sessions[i];
      var done := s.(writes := s.writes[..op] + s.writes[op + 1..]);
      if !error then w.(sessions := w.sessions[i := FinishWrite(done)])
      else RoomLeave(w.(sessions := w.sessions[i := done.(failed := true)]), i)
  }

  /** `handle_write` without an error: drop the front of the queue and write the next message, if any. */
  function FinishWrite(s: Session): Session {
    if s.queue == [] then s
    else
      var rest := s.queue[1..];
      s.(queue := rest, written := s.written + [s.queue[0]],
         writes := if rest != [] then s.writes + [rest[0]] else s.writes)
  }

  predicate StepAt(run: seq<World>, events: seq<Event>, n: nat) {
    n < |events| < |run| && Enabled(run[n], events[n]) && run[n + 1] == Step(run[n], events[n])
  }

  /** The worlds a run passes through. */
  ghost predicate IsRun(run: seq<World>, events: seq<Event>) {
    && |run| == |events| + 1
    && run[0] == INITIAL
    && forall n: nat | n < |events| :: StepAt(run, events, n)
  }

  // ----- what every step keeps -----------------------------------------------------------------------------

  function Min(a: nat, b: nat): nat {
    if a < b then a else b
  }

  /** The first log position a session is sent. */
  function From(s: Session): int {
    s.joined - Min(MAX_RECENT, s.joined)
  }

  /** The log position after the last one a session is sent. */
  function To(room: Room, i: nat, s: Session): nat {
    if i in room.participants then |room.log| else s.left
  }

  /** What a session has written and has yet to write is one slice of the log. */
  predicate Slice(room: Room, i: nat, s: Session) {
    && s.joined <= To(room, i, s) <= |room.log|
    && s.written + s.queue == room.log[From(s)..To(room, i, s)]
  }

  /** One write at a time, of the front of the queue, until one fails; and then nothing more is queued. */
  predicate OneWrite(room: Room, i: nat, s: Session) {
    && s.writes == (if s.queue == [] || s.failed then [] else [s.queue[0]])
    && (s.failed ==> i !in room.participants && s.queue != [])
  }

  predicate AllWellFormed(ms: seq<Message>) {
    forall j | 0 <= j < |ms| :: WellFormed(ms[j])
  }

  /** The last 100 messages of the log, or all of them. */
  function Newest(log: seq<Message>): seq<Message> {
    log[|log| - Min(MAX_RECENT, |log|)..]
  }

  predicate RoomOk(room: Room) {
    room.recent == Newest(room.log) && AllWellFormed(room.log)
  }

  predicate SessionOk(room: Room, i: nat, s: Session) {
    && Slice(room, i, s) && OneWrite(room, i, s)
    && (s.reading.Body? ==> |s.reading.header| == HEADER_LENGTH && DecodedLength(s.reading.header).Some?)
  }

  ghost predicate Inv(w: World) {
    && RoomOk(w.room)
    && (forall i | i in w.room.participants :: i < |w.sessions|)
    && (forall i | 0 <= i < |w.sessions| :: SessionOk(w.room, i, w.sessions[i]))
  }

  lemma {:induction false} DeliverAllQueue(s: Session, ms: seq<Message>)
    requires s.queue == [] && s.writes == []
    ensures DeliverAll(s, ms) == s.(queue := ms, writes := if ms == [] then [] else [ms[0]])
  {
    if ms == [] {
    } else {
      DeliverAllQueue(s, ms[..|ms| - 1]);
      assert ms == ms[..|ms| - 1] + [ms[|ms| - 1]];
    }
  }

  lemma NewSessionOk(room: Room, n: nat, s: Session)
    requires room.recent == Newest(room.log) && n in room.participants
    requires s.reading.Header? && s.queue == room.recent && s.written == [] && !s.failed && s.joined == |room.log|
    requires s.writes == if s.queue == [] then [] else [s.queue[0]]
    ensures SessionOk(room, n, s)
  {
    assert s.written + s.queue == room.recent;
    assert room.log[From(s)..|room.log|] == room.log[From(s)..];
  }

  /** A session keeps its place when others come and go. */
  lemma Framed(room: Room, after: Room, i: nat, s: Session)
    requires SessionOk(room, i, s) && after.log == room.log && (i in after.participants <==> i in room.participants)
    ensures SessionOk(after, i, s)
  {}

  lemma StartedOk(w: World)
    requires Inv(w)
    ensures var v := Start(w); SessionOk(v.room, |w.sessions|, v.sessions[|w.sessions|])
  {
    var v := Start(w);
    DeliverAllQueue(Session(Header, [], [], [], false, |w.room.log|, 0), w.room.recent);
    NewSessionOk(v.room, |w.sessions|, v.sessions[|w.sessions|]);
  }

  lemma StartKeepsInv(w: World)
    requires Inv(w)
    ensures Inv(Start(w))
  {
    var n, v := |w.sessions|, Start(w);
    StartedOk(w);
    forall i | 0 <= i < |v.sessions|
      ensures SessionOk(v.room, i, v.sessions[i])
    {
      if i < n {
        Framed(w.room, v.room, i, w.sessions[i]);
      }
    }
  }

  lemma SuffixOfSuffix(s: seq<Message>, i: nat, j: nat)
    requires i <= |s| && j <= |s| - i
    ensures s[i..][j..] == s[i + j..]
  {}

  lemma TrimIsNewest(log: seq<Message>, m: Message)
    ensures Trim(Newest(log) + [m]) == Newest(log + [m])
  {
    var full, r := log + [m], Newest(log) + [m];
    assert r == full[|full| - |r|..];
    SuffixOfSuffix(full, |full| - |r|, |r| - |Trim(r)|);
  }

  lemma AllWellFormedSnoc(ms: seq<Message>, m: Message)
    requires AllWellFormed(ms) && WellFormed(m)
    ensures AllWellFormed(ms + [m])
  {}

  lemma RoomDeliverKeepsRoom(room: Room, m: Message)
    requires RoomOk(room) && WellFormed(m)
    ensures RoomOk(Room(room.participants, Trim(room.recent + [m]), room.log + [m]))
  {
    TrimIsNewest(room.log, m);
    AllWellFormedSnoc(room.log, m);
  }

  lemma DeliverToKeepsSession(room: Room, i: nat, s: Session, m: Message)
    requires SessionOk(room, i, s) && i in room.participants
    ensures SessionOk(room.(log := room.log + [m]), i, DeliverTo(s, m))
  {
    assert room.log[From(s)..|room.log|] + [m] == (room.log + [m])[From(s)..|room.log| + 1];
    assert s.written + (s.queue + [m]) == s.written + s.queue + [m];
  }

  lemma LongerLogKeepsSession(room: Room, i: nat, s: Session, m: Message)
    requires SessionOk(room, i, s) && i !in room.participants
    ensures SessionOk(room.(log := room.log + [m]), i, s)
  {
    assert (room.log + [m])[From(s)..s.left] == room.log[From(s)..s.left];
  }

  lemma RoomDeliverKeepsInv(w: World, m: Message)
    requires Inv(w) && WellFormed(m)
    ensures Inv(RoomDeliver(w, m))
  {
    RoomDeliverKeepsRoom(w.room, m);
    var w' := RoomDeliver(w, m);
    forall i | 0 <= i < |w'.sessions|
      ensures SessionOk(w'.room, i, w'.sessions[i])
    {
      assert SessionOk(w.room, i, w.sessions[i]);
      if i in w.room.participants {
        DeliverToKeepsSession(w.room, i, w.sessions[i], m);
      } else {
        LongerLogKeepsSession(w.room, i, w.sessions[i], m);
      }
      assert SessionOk(w.room.(log := w.room.log + [m]), i, w'.sessions[i]);
    }
  }

  /** What a session must satisfy to be as it should be once it has left the room. */
  predicate MayLeave(room: Room, i: nat, s: Session) {
    && Slice(room, i, s)
    && s.writes == (if s.queue == [] || s.failed then [] else [s.queue[0]])
    && (s.failed ==> s.queue != [])
    && (s.reading.Body? ==> |s.reading.header| == HEADER_LENGTH && DecodedLength(s.reading.header).Some?)
  }

  lemma LeaverIsOk(room: Room, i: nat, s: Session)
    requires MayLeave(room, i, s)
    ensures i in room.participants ==>
              SessionOk(room.(participants := room.participants - {i}), i, s.(left := |room.log|))
    ensures i !in room.participants ==> SessionOk(room, i, s)
  {}

  lemma OthersStayOk(room: Room, i: nat, j: nat, s: Session)
    requires SessionOk(room, j, s) && j != i
    ensures SessionOk(room.(participants := room.participants - {i}), j, s)
  {}

  lemma RoomLeaveKeepsInv(w: World, i: nat)
    requires RoomOk(w.room) && (forall j | j in w.room.participants :: j < |w.sessions|)
    requires i < |w.sessions| && MayLeave(w.room, i, w.sessions[i])
    requires forall j | 0 <= j < |w.sessions| && j != i :: SessionOk(w.room, j, w.sessions[j])
    ensures Inv(RoomLeave(w, i))
  {
    var w' := RoomLeave(w, i);
    LeaverIsOk(w.room, i, w.sessions[i]);
    forall j | 0 <= j < |w'.sessions|
      ensures SessionOk(w'.room, j, w'.sessions[j])
    {
      if j != i {
        OthersStayOk(w.room, i, j, w.sessions[j]);
      }
    }
  }

  lemma SetReadingKeepsInv(w: World, i: nat, reading: Reading)
    requires Inv(w) && i < |w.sessions|
    requires reading.Body? ==> |reading.header| == HEADER_LENGTH && DecodedLength(reading.header).Some?
    ensures Inv(SetReading(w, i, reading))
  {
    var w' := SetReading(w, i, reading);
    forall j | 0 <= j < |w'.sessions|
      ensures SessionOk(w'.room, j, w'.sessions[j])
    {
      assert SessionOk(w.room, j, w.sessions[j]);
    }
  }

  /** A write completes only for a session with exactly one outstanding. */
  lemma OnlyWrite(room: Room, i: nat, s: Session, op: nat)
    requires SessionOk(room, i, s) && op < |s.writes|
    ensures s.writes[..op] + s.writes[op + 1..] == [] && !s.failed && s.queue != []
  {}

  lemma FailedWriteMayLeave(room: Room, i: nat, s: Session)
    requires SessionOk(room, i, s) && s.queue != []
    ensures MayLeave(room, i, s.(writes := [], failed := true))
  {}

  lemma FinishWriteOk(room: Room, i: nat, s: Session)
    requires SessionOk(room, i, s) && s.queue != [] && !s.failed
    ensures SessionOk(room, i, FinishWrite(s.(writes := [])))
  {
    assert s.written + [s.queue[0]] + s.queue[1..] == s.written + s.queue;
  }

  lemma WroteKeepsInv(w: World, i: nat, op: nat, error: bool)
    requires Inv(w) && Enabled(w, Wrote(i, op, error))
    ensures Inv(Step(w, Wrote(i, op, error)))
  {
    var s := w.sessions[i];
    OnlyWrite(w.room, i, s, op);
    if error {
      FailedWriteMayLeave(w.room, i, s);
      RoomLeaveKeepsInv(w.(sessions := w.sessions[i := s.(writes := [], failed := true)]), i);
    } else {
      FinishWriteOk(w.room, i, s);
    }
  }

  lemma StepKeepsInv(w: World, e: Event)
    requires Inv(w) && Enabled(w, e)
    ensures Inv(Step(w, e))
  {
    match e
    case Accepted => StartKeepsInv(w);
    case ReadHeader(i, error, bytes) =>
      assert SessionOk(w.room, i, w.sessions[i]);
      if !error && DecodedLength(bytes).Some? {
        SetReadingKeepsInv(w, i, Body(bytes));
      } else {
        RoomLeaveKeepsInv(w, i);
        SetReadingKeepsInv(RoomLeave(w, i), i, Stopped);
      }
    case ReadBody(i, error, bytes) =>
      assert SessionOk(w.room, i, w.sessions[i]);
      if !error {
        var m := Message(w.sessions[i].reading.header, bytes);
        RoomDeliverKeepsInv(w, m);
        SetReadingKeepsInv(RoomDeliver(w, m), i, Header);
      } else {
        RoomLeaveKeepsInv(w, i);
        SetReadingKeepsInv(RoomLeave(w, i), i, Stopped);
      }
    case Wrote(i, op, error) => WroteKeepsInv(w, i, op, error);
  }

  lemma {:induction false} RunKeepsInv(run: seq<World>, events: seq<Event>, n: nat)
    requires IsRun(run, events) && n <= |events|
    ensures Inv(run[n])
  {
    if n == 0 {
    } else {
      RunKeepsInv(run, events, n - 1);
      assert StepAt(run, events, n - 1);
      StepKeepsInv(run[n - 1], events[n - 1]);
    }
  }

  // ----- the theorems --------------------------------------------------------------------------------------

  /** Total-order broadcast: at every point of every run, what each session has written followed by what it
      has queued is one contiguous slice of the room's log, from at most 100 messages before it joined to the
      newest message, or to the point where it left. */
  lemma TotalOrderBroadcast(run: seq<World>, events: seq<Event>, n: nat, i: nat)
    requires IsRun(run, events) && n <= |events| && i < |run[n].sessions|
    ensures var w := run[n]; var s := w.sessions[i];
            var to := if i in w.room.participants then |w.room.log| else s.left;
            && s.joined <= to <= |w.room.log|
            && s.written + s.queue == w.room.log[s.joined - Min(100, s.joined)..to]
  {
    RunKeepsInv(run, events, n);
    assert SessionOk(run[n].room, i, run[n].sessions[i]);
  }

  /** At every point of every run a session has at most one outstanding write: the one of the message at the
      front of its queue, exactly when the queue is not empty and no write has failed. A failed session is no
      member, so nothing more is queued for it. */
  lemma OneOutstandingWrite(run: seq<World>, events: seq<Event>, n: nat, i: nat)
    requires IsRun(run, events) && n <= |events| && i < |run[n].sessions|
    ensures var s := run[n].sessions[i];
            && s.writes == (if s.queue != [] && !s.failed then [s.queue[0]] else [])
            && (s.failed ==> i !in run[n].room.participants)
  {
    RunKeepsInv(run, events, n);
    assert SessionOk(run[n].room, i, run[n].sessions[i]);
  }

  /** The queue only grows at its end, and nothing is written or begun while the queue is not empty. */
  predicate FrontKept(s: Session, s': Session) {
    s.queue <= s'.queue && s'.written == s.written && (s.queue != [] ==> s'.writes == s.writes)
  }

  // The steps one part at a time: unfolding them together is costly for the verifier.

  lemma DeliverKeepsFront(w: World, m: Message, i: nat)
    requires i < |w.sessions|
    ensures FrontKept(w.sessions[i], RoomDeliver(w, m).sessions[i])
  {
    assert w.sessions[i].queue <= w.sessions[i].queue + [m];
  }

  lemma LeaveKeepsFront(w: World, i: nat, j: nat)
    requires i < |w.sessions| && j < |w.sessions|
    ensures FrontKept(w.sessions[i], RoomLeave(w, j).sessions[i])
  {}

  lemma SetReadingKeepsFront(w: World, v: World, i: nat, j: nat, reading: Reading)
    requires i < |w.sessions| && |v.sessions| == |w.sessions| && j < |w.sessions|
    requires FrontKept(w.sessions[i], v.sessions[i])
    ensures FrontKept(w.sessions[i], SetReading(v, j, reading).sessions[i])
  {}

  /** Between the start and the completion of a write its message stays at the front of the queue: any step
      but the session's own write completion only adds to the end of the queue and leaves the writes alone,
      starting one only for a session that has none. */
  lemma FrontStaysUntilWritten(w: World, e: Event, i: nat)
    requires Enabled(w, e) && i < |w.sessions| && !(e.Wrote? && e.id == i)
    ensures |w.sessions| <= |Step(w, e).sessions| && FrontKept(w.sessions[i], Step(w, e).sessions[i])
  {
    match e
    case Accepted =>
    case ReadHeader(j, error, bytes) =>
      LeaveKeepsFront(w, i, j);
      SetReadingKeepsFront(w, w, i, j, Body(bytes));
      SetReadingKeepsFront(w, RoomLeave(w, j), i, j, Stopped);
    case ReadBody(j, error, bytes) =>
      var m := Message(w.sessions[j].reading.header, bytes);
      DeliverKeepsFront(w, m, i);
      LeaveKeepsFront(w, i, j);
      SetReadingKeepsFront(w, RoomDeliver(w, m), i, j, Header);
      SetReadingKeepsFront(w, RoomLeave(w, j), i, j, Stopped);
    case Wrote(j, op, error) =>
  }

  /** The messages written are the beginning of the session's slice, and the next to be written follows them. */
  lemma WrittenSlice(room: Room, i: nat, s: Session)
    requires SessionOk(room, i, s)
    ensures From(s) + |s.written| <= |room.log|
    ensures s.written == room.log[From(s)..From(s) + |s.written|]
    ensures s.queue != [] ==>
              From(s) + |s.written| < |room.log| && s.queue[0] == room.log[From(s) + |s.written|]
  {
    var from, n := From(s), |s.written|;
    var slice := room.log[from..To(room, i, s)];
    assert |slice| == n + |s.queue|;
    forall k | 0 <= k < n
      ensures s.written[k] == room.log[from + k]
    {
      assert (s.written + s.queue)[k] == slice[k];
    }
    if s.queue != [] {
      assert (s.written + s.queue)[n] == slice[n];
    }
  }

  lemma WrittenIsRead(room: Room, i: nat, s: Session, partial: string)
    requires RoomOk(room) && SessionOk(room, i, s)
    requires if s.queue == [] then partial == "" else partial < Data(s.queue[0])
    ensures From(s) + |s.written| <= |room.log|
    ensures ReadLoop(Stream(s.written) + partial) == room.log[From(s)..From(s) + |s.written|]
  {
    WrittenSlice(room, i, s);
    ReadLoopInvertsStream(s.written, partial);
    if s.queue != [] {
      PartialMessage(s.queue[0], partial);
    }
    assert s.written + [] == s.written;
  }

  /** End to end: the client's read loop, on the bytes a session has completely written followed by whatever
      part of the next message has got through, reads the session's slice of the log, message by message. */
  lemma ClientsReadTheLog(run: seq<World>, events: seq<Event>, n: nat, i: nat, partial: string)
    requires IsRun(run, events) && n <= |events| && i < |run[n].sessions|
    requires var s := run[n].sessions[i]; if s.queue == [] then partial == "" else partial < Data(s.queue[0])
    ensures var s := run[n].sessions[i];
            var from := s.joined - Min(100, s.joined);
            && from + |s.written| <= |run[n].room.log|
            && ReadLoop(Stream(s.written) + partial) == run[n].room.log[from..from + |s.written|]
  {
    RunKeepsInv(run, events, n);
    WrittenIsRead(run[n].room, i, run[n].sessions[i], partial);
  }

  /** The read loop takes nothing from an incomplete message. */
  lemma PartialMessage(m: Message, partial: string)
    requires WellFormed(m) && partial < Data(m)
    ensures ReadLoop(partial) == []
  {
    if |partial| >= HEADER_LENGTH {
      assert partial[..HEADER_LENGTH] == Data(m)[..HEADER_LENGTH] == m.header;
    }
  }
}
