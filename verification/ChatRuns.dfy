/** The chat server judged by its runs alone: who is in the room, what is written and where a session's part of the
    log begins and ends, told from the events, not from what the sessions record. */
module ChatRuns {
  import opened Basics
  import opened ChatMessage
  import opened ChatModel
  import opened ChatInput

  // ----- told from the events --------------------------------------------------------------------------------

  /** How many sessions have been accepted before the event with the given index. */
  function Accepts(events: seq<Event>, n: nat): nat
    requires n <= |events|
  {
    if n == 0 then 0 else Accepts(events, n - 1) + (if events[n - 1].Accepted? then 1 else 0)
  }

  /** The event that accepted session `i`. */
  function AcceptedAt(events: seq<Event>, n: nat, i: nat): (k: nat)
    requires n <= |events| && i < Accepts(events, n)
    ensures k < n && events[k].Accepted? && Accepts(events, k) == i
  {
    if i < Accepts(events, n - 1) then AcceptedAt(events, n - 1, i) else n - 1
  }

  /** The event is an error of session `i`, or a header that announces no acceptable length. */
  predicate Quits(e: Event, i: nat) {
    match e
    case Accepted => false
    case ReadHeader(j, error, bytes) => j == i && (error || DecodedLength(bytes).None?)
    case ReadBody(j, error, _) => j == i && error
    case Wrote(j, _, error) => j == i && error
  }

  /** The point of the run at which session `i` first has such an event, or `n` if it has none before that. */
  function InUntil(events: seq<Event>, n: nat, i: nat): (m: nat)
    requires n <= |events|
    ensures m <= n && (m < n ==> Quits(events[m], i)) && forall k | 0 <= k < m :: !Quits(events[k], i)
  {
    if n == 0 then 0
    else
      var m := InUntil(events, n - 1, i);
      if m == n - 1 && !Quits(events[n - 1], i) then n else m
  }

  /** The message whose write completes in this step, if it is one of session `i`. */
  function WentOut(w: World, e: Event, i: nat): seq<Message>
    requires Enabled(w, e) && i < |w.sessions|
  {
    if e.Wrote? && e.id == i && !e.error then [w.sessions[i].writes[e.op]] else []
  }

  /** The messages session `i` has written in the first `n` steps. */
  ghost function Output(run: seq<World>, events: seq<Event>, n: nat, i: nat): seq<Message>
    requires IsRun(run, events) && n <= |events|
  {
    if n == 0 then []
    else
      assert StepAt(run, events, n - 1);
      Output(run, events, n - 1, i)
      + (if i < |run[n - 1].sessions| then WentOut(run[n - 1], events[n - 1], i) else [])
  }

  // ----- what a step does to what is recorded ----------------------------------------------------------------

  /** A session is in the room until it quits, and has recorded where it joined and left. */
  predicate Recorded(w: World, v: World, i: nat, quits: bool)
    requires i < |w.sessions|
  {
    && i < |v.sessions| && v.sessions[i].joined == w.sessions[i].joined
    && (i in v.room.participants <==> i in w.room.participants && !quits)
    && v.sessions[i].left == (if i in w.room.participants && quits then |w.room.log| else w.sessions[i].left)
  }

  lemma LeaveRecorded(w: World, j: nat, i: nat)
    requires j < |w.sessions| && i < |w.sessions|
    ensures Recorded(w, RoomLeave(w, j), i, j == i) && |RoomLeave(w, j).sessions| == |w.sessions|
    ensures RoomLeave(w, j).sessions[i].written == w.sessions[i].written
  {}

  lemma DeliverRecorded(w: World, m: Message, i: nat)
    requires i < |w.sessions|
    ensures Recorded(w, RoomDeliver(w, m), i, false) && |RoomDeliver(w, m).sessions| == |w.sessions|
    ensures RoomDeliver(w, m).sessions[i].written == w.sessions[i].written
  {}

  lemma SetReadingRecorded(w: World, v: World, j: nat, reading: Reading, i: nat, quits: bool)
    requires i < |w.sessions| && j < |v.sessions| && Recorded(w, v, i, quits)
    requires v.sessions[i].written == w.sessions[i].written
    ensures Recorded(w, SetReading(v, j, reading), i, quits)
    ensures SetReading(v, j, reading).sessions[i].written == w.sessions[i].written
  {}

  lemma WroteRecorded(w: World, j: nat, op: nat, error: bool, i: nat)
    requires Inv(w) && Enabled(w, Wrote(j, op, error)) && i < |w.sessions|
    ensures Recorded(w, Step(w, Wrote(j, op, error)), i, error && j == i)
    ensures Step(w, Wrote(j, op, error)).sessions[i].written
         == w.sessions[i].written + WentOut(w, Wrote(j, op, error), i)
  {
    var s := w.sessions[j];
    OnlyWrite(w.room, j, s, op);
    assert w.sessions[i].written + [] == w.sessions[i].written;
    if error {
      var v := w.(sessions := w.sessions[j := s.(writes := [], failed := true)]);
      LeaveRecorded(v, j, i);
    } else {
      assert SessionOk(w.room, j, s);
      assert s.writes[op] == s.queue[0];
    }
  }

  lemma ReadRecorded(w: World, e: Event, i: nat)
    requires Enabled(w, e) && (e.ReadHeader? || e.ReadBody?) && i < |w.sessions|
    ensures Recorded(w, Step(w, e), i, Quits(e, i)) && Step(w, e).sessions[i].written == w.sessions[i].written
  {
    var j := e.id;
    LeaveRecorded(w, j, i);
    SetReadingRecorded(w, RoomLeave(w, j), j, Stopped, i, j == i);
    if e.ReadHeader? {
      SetReadingRecorded(w, w, j, Body(e.bytes), i, false);
    } else {
      var m := Message(w.sessions[j].reading.header, e.bytes);
      DeliverRecorded(w, m, i);
      SetReadingRecorded(w, RoomDeliver(w, m), j, Header, i, false);
    }
  }

  lemma StepRecorded(w: World, e: Event, i: nat)
    requires Inv(w) && Enabled(w, e) && i < |w.sessions|
    ensures Recorded(w, Step(w, e), i, Quits(e, i))
    ensures Step(w, e).sessions[i].written == w.sessions[i].written + WentOut(w, e, i)
  {
    assert w.sessions[i].written + [] == w.sessions[i].written;
    match e
    case Accepted =>
    case ReadHeader(_, _, _) => ReadRecorded(w, e, i);
    case ReadBody(_, _, _) => ReadRecorded(w, e, i);
    case Wrote(j, op, error) => WroteRecorded(w, j, op, error, i);
  }

  lemma StepAccepts(w: World, e: Event)
    requires Enabled(w, e)
    ensures |Step(w, e).sessions| == |w.sessions| + (if e.Accepted? then 1 else 0)
  {}

  lemma {:induction false} SessionsAccepted(run: seq<World>, events: seq<Event>, n: nat)
    requires IsRun(run, events) && n <= |events|
    ensures |run[n].sessions| == Accepts(events, n)
  {
    if n == 0 {
    } else {
      SessionsAccepted(run, events, n - 1);
      assert StepAt(run, events, n - 1);
      StepAccepts(run[n - 1], events[n - 1]);
    }
  }

  /** A session yet to come has no events. */
  lemma {:induction false} NothingYet(run: seq<World>, events: seq<Event>, n: nat, i: nat)
    requires IsRun(run, events) && n <= |events| && i >= |run[n].sessions|
    ensures Output(run, events, n, i) == [] && InUntil(events, n, i) == n
  {
    if n == 0 {
    } else {
      assert StepAt(run, events, n - 1);
      StepAccepts(run[n - 1], events[n - 1]);
      NothingYet(run, events, n - 1, i);
    }
  }

  lemma NewcomerRecorded(w: World)
    ensures var i, v := |w.sessions|, Start(w);
            && |v.sessions| == i + 1 && i in v.room.participants
            && v.sessions[i].joined == |w.room.log| && v.sessions[i].written == []
  {
    DeliverAllQueue(Session(Header, [], [], [], false, |w.room.log|, 0), w.room.recent);
  }

  // ----- the theorems ----------------------------------------------------------------------------------------

  /** What a session has recorded of its own history is what happened in the run. */
  ghost predicate OfTheRun(run: seq<World>, events: seq<Event>, n: nat, i: nat)
    requires IsRun(run, events) && n <= |events| && i < |run[n].sessions| && i < Accepts(events, n)
  {
    var s, member := run[n].sessions[i], i in run[n].room.participants;
    && (member <==> InUntil(events, n, i) == n)
    && s.joined == |run[AcceptedAt(events, n, i)].room.log|
    && s.written == Output(run, events, n, i)
    && (!member ==> s.left == |run[InUntil(events, n, i)].room.log|)
  }

  lemma OfTheRunStep(run: seq<World>, events: seq<Event>, n: nat, i: nat)
    requires IsRun(run, events) && n < |events| && i < |run[n].sessions| && i < Accepts(events, n)
    requires OfTheRun(run, events, n, i) && Enabled(run[n], events[n])
    requires Recorded(run[n], run[n + 1], i, Quits(events[n], i))
    requires run[n + 1].sessions[i].written == run[n].sessions[i].written + WentOut(run[n], events[n], i)
    ensures OfTheRun(run, events, n + 1, i)
  {}

  lemma OfTheRunStart(run: seq<World>, events: seq<Event>, n: nat, i: nat)
    requires IsRun(run, events) && n < |events| && events[n].Accepted?
    requires i == |run[n].sessions| == Accepts(events, n) && i < |run[n + 1].sessions|
    requires i in run[n + 1].room.participants && run[n + 1].sessions[i].joined == |run[n].room.log|
    requires run[n + 1].sessions[i].written == [] == Output(run, events, n, i) && InUntil(events, n, i) == n
    ensures OfTheRun(run, events, n + 1, i)
  {
    assert AcceptedAt(events, n + 1, i) == n;
    assert Output(run, events, n + 1, i) == [] + [];
  }

  lemma OldSession(run: seq<World>, events: seq<Event>, n: nat, i: nat)
    requires IsRun(run, events) && n < |events| && i < |run[n].sessions| && i < Accepts(events, n)
    requires OfTheRun(run, events, n, i)
    ensures i < |run[n + 1].sessions| && OfTheRun(run, events, n + 1, i)
  {
    assert StepAt(run, events, n);
    RunKeepsInv(run, events, n);
    StepRecorded(run[n], events[n], i);
    OfTheRunStep(run, events, n, i);
  }

  lemma NewSession(run: seq<World>, events: seq<Event>, n: nat, i: nat)
    requires IsRun(run, events) && n < |events| && |run[n].sessions| <= i < |run[n + 1].sessions|
    ensures i < Accepts(events, n + 1) && OfTheRun(run, events, n + 1, i)
  {
    assert StepAt(run, events, n);
    SessionsAccepted(run, events, n);
    StepAccepts(run[n], events[n]);
    NewcomerRecorded(run[n]);
    NothingYet(run, events, n, i);
    OfTheRunStart(run, events, n, i);
  }

  lemma {:induction false} RunIsOfTheEvents(run: seq<World>, events: seq<Event>, n: nat, i: nat)
    requires IsRun(run, events) && n <= |events| && i < |run[n].sessions|
    ensures i < Accepts(events, n) && OfTheRun(run, events, n, i)
    decreases n
  {
    if n == 0 {
    } else if i < |run[n - 1].sessions| {
      RunIsOfTheEvents(run, events, n - 1, i);
      OldSession(run, events, n - 1, i);
    } else {
      NewSession(run, events, n - 1, i);
    }
  }

  /** A session is in the room from when it is accepted until its first error or unacceptable header. */
  lemma MemberIff(run: seq<World>, events: seq<Event>, n: nat, i: nat)
    requires IsRun(run, events) && n <= |events|
    ensures i < |run[n].sessions| <==> i < Accepts(events, n)
    ensures i in run[n].room.participants
            <==> i < Accepts(events, n) && forall m | 0 <= m < n :: !Quits(events[m], i)
  {
    SessionsAccepted(run, events, n);
    RunKeepsInv(run, events, n);
    if i < |run[n].sessions| {
      RunIsOfTheEvents(run, events, n, i);
    }
  }

  /** Total-order broadcast, from the events: what each session has written and has yet to write is one contiguous
      slice of the room's log, from at most 100 messages before it was accepted to the newest message, or to its first
      error or unacceptable header. */
  lemma BroadcastOfTheRun(run: seq<World>, events: seq<Event>, n: nat, i: nat)
    requires IsRun(run, events) && n <= |events| && i < |run[n].sessions|
    ensures i < Accepts(events, n)
    ensures var joined, to := |run[AcceptedAt(events, n, i)].room.log|, |run[InUntil(events, n, i)].room.log|;
            && joined <= to <= |run[n].room.log|
            && Output(run, events, n, i) + run[n].sessions[i].queue
               == run[n].room.log[joined - Min(100, joined)..to]
  {
    RunIsOfTheEvents(run, events, n, i);
    TotalOrderBroadcast(run, events, n, i);
  }

  // ----- when a session stops reading and writing ------------------------------------------------------------

  /** An event before `n` ended the reading of session `i`: an error, or a header that announces no acceptable
      length. */
  predicate ReadingEnded(events: seq<Event>, n: nat, i: nat)
    requires n <= |events|
    ensures ReadingEnded(events, n, i) <==> exists m | 0 <= m < n :: Quits(events[m], i) && !events[m].Wrote?
  {
    n > 0 && (ReadingEnded(events, n - 1, i) || (Quits(events[n - 1], i) && !events[n - 1].Wrote?))
  }

  predicate WriteFailed(events: seq<Event>, n: nat, i: nat)
    requires n <= |events|
    ensures WriteFailed(events, n, i) <==> exists m | 0 <= m < n :: Quits(events[m], i) && events[m].Wrote?
  {
    n > 0 && (WriteFailed(events, n - 1, i) || (Quits(events[n - 1], i) && events[n - 1].Wrote?))
  }

  lemma NothingEndedYet(run: seq<World>, events: seq<Event>, n: nat, i: nat)
    requires IsRun(run, events) && n <= |events| && i >= |run[n].sessions|
    ensures !ReadingEnded(events, n, i) && !WriteFailed(events, n, i)
  {
    NothingYet(run, events, n, i);
  }

  lemma LeaveKeepsFailed(w: World, j: nat, i: nat)
    requires j < |w.sessions| && i < |w.sessions|
    ensures |RoomLeave(w, j).sessions| == |w.sessions| && RoomLeave(w, j).sessions[i].failed == w.sessions[i].failed
  {}

  lemma DeliverKeepsFailed(w: World, m: Message, i: nat)
    requires i < |w.sessions|
    ensures |RoomDeliver(w, m).sessions| == |w.sessions|
    ensures RoomDeliver(w, m).sessions[i].failed == w.sessions[i].failed
  {}

  lemma SetReadingKeepsFailed(w: World, j: nat, reading: Reading, i: nat)
    requires j < |w.sessions| && i < |w.sessions|
    ensures |SetReading(w, j, reading).sessions| == |w.sessions|
    ensures SetReading(w, j, reading).sessions[i].failed == w.sessions[i].failed
  {}

  lemma ReadKeepsFailed(w: World, e: Event, i: nat)
    requires Enabled(w, e) && (e.ReadHeader? || e.ReadBody?) && i < |w.sessions|
    ensures i < |Step(w, e).sessions| && Step(w, e).sessions[i].failed == w.sessions[i].failed
  {
    var j := e.id;
    if Quits(e, j) {
      LeaveKeepsFailed(w, j, i);
      SetReadingKeepsFailed(RoomLeave(w, j), j, Stopped, i);
    } else if e.ReadHeader? {
      SetReadingKeepsFailed(w, j, Body(e.bytes), i);
    } else {
      var m := Message(w.sessions[j].reading.header, e.bytes);
      DeliverKeepsFailed(w, m, i);
      SetReadingKeepsFailed(RoomDeliver(w, m), j, Header, i);
    }
  }

  lemma WroteFails(w: World, j: nat, op: nat, error: bool, i: nat)
    requires Enabled(w, Wrote(j, op, error)) && i < |w.sessions|
    ensures var v := Step(w, Wrote(j, op, error));
            i < |v.sessions| && (v.sessions[i].failed <==> w.sessions[i].failed || (error && j == i))
  {
    var s := w.sessions[j];
    var done := s.(writes := s.writes[..op] + s.writes[op + 1..]);
    if error {
      LeaveKeepsFailed(w.(sessions := w.sessions[j := done.(failed := true)]), j, i);
    } else {
      assert FinishWrite(done).failed == s.failed;
    }
  }

  lemma StepFails(w: World, e: Event, i: nat)
    requires Enabled(w, e) && i < |w.sessions|
    ensures i < |Step(w, e).sessions|
    ensures Step(w, e).sessions[i].failed <==> w.sessions[i].failed || (Quits(e, i) && e.Wrote?)
  {
    match e
    case Accepted =>
    case ReadHeader(_, _, _) => ReadKeepsFailed(w, e, i);
    case ReadBody(_, _, _) => ReadKeepsFailed(w, e, i);
    case Wrote(j, op, error) => WroteFails(w, j, op, error, i);
  }

  lemma NewcomerReads(w: World)
    ensures var i, v := |w.sessions|, Start(w);
            |v.sessions| == i + 1 && v.sessions[i].reading.Header? && !v.sessions[i].failed
  {
    DeliverAllQueue(Session(Header, [], [], [], false, |w.room.log|, 0), w.room.recent);
  }

  lemma {:induction false} EndsAreOfTheRun(run: seq<World>, events: seq<Event>, n: nat, i: nat)
    requires IsRun(run, events) && n <= |events| && i < |run[n].sessions|
    ensures run[n].sessions[i].reading.Stopped? <==> ReadingEnded(events, n, i)
    ensures run[n].sessions[i].failed <==> WriteFailed(events, n, i)
    decreases n
  {
    if n == 0 {
    } else {
      var w, e := run[n - 1], events[n - 1];
      assert StepAt(run, events, n - 1);
      if i < |w.sessions| {
        EndsAreOfTheRun(run, events, n - 1, i);
        ReadingKept(w, e, i);
        StepFails(w, e, i);
      } else {
        NothingEndedYet(run, events, n - 1, i);
        StepAccepts(w, e);
        NewcomerReads(w);
      }
    }
  }

  /** A session goes on reading until one of its reads ends it, even when a write has failed. */
  lemma ReadsUntil(run: seq<World>, events: seq<Event>, n: nat, i: nat)
    requires IsRun(run, events) && n <= |events| && i < |run[n].sessions|
    ensures run[n].sessions[i].reading.Stopped?
            <==> exists m | 0 <= m < n :: Quits(events[m], i) && !events[m].Wrote?
  {
    EndsAreOfTheRun(run, events, n, i);
  }

  /** Meanwhile a header is followed by the body it announces, and that by the next header. */
  lemma ReadsInTurn(run: seq<World>, events: seq<Event>, n: nat)
    requires IsRun(run, events) && n < |events| && (events[n].ReadHeader? || events[n].ReadBody?)
    requires !Quits(events[n], events[n].id)
    ensures var i := events[n].id;
            && i < |run[n + 1].sessions|
            && run[n + 1].sessions[i].reading == if events[n].ReadHeader? then Body(events[n].bytes) else Header
  {
    assert StepAt(run, events, n);
    ReadingKept(run[n], events[n], events[n].id);
  }

  /** Until one of its writes fails, a session is writing the message at the front of its queue exactly while there is
      one; once one has failed it writes nothing more. */
  lemma WritesUntil(run: seq<World>, events: seq<Event>, n: nat, i: nat)
    requires IsRun(run, events) && n <= |events| && i < |run[n].sessions|
    ensures var s, failed := run[n].sessions[i], exists m | 0 <= m < n :: Quits(events[m], i) && events[m].Wrote?;
            s.writes == if s.queue != [] && !failed then [s.queue[0]] else []
  {
    EndsAreOfTheRun(run, events, n, i);
    OneOutstandingWrite(run, events, n, i);
  }
}
