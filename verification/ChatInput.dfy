/** Where the room's log comes from: it is an interleaving of what the clients of the sessions sent. */
module ChatInput {
  import opened Basics
  import opened ChatMessage
  import opened ChatModel

  // ----- what a run takes in ---------------------------------------------------------------------------------

  /** The bytes that the reads of session `i` have taken without an error. */
  function Input(events: seq<Event>, i: nat): string {
    if events == [] then "" else Input(events[..|events| - 1], i) + Taken(events[|events| - 1], i)
  }

  function Taken(e: Event, i: nat): string {
    if (e.ReadHeader? || e.ReadBody?) && e.id == i && !e.error then e.bytes else ""
  }

  /** The session each message of the log came from. */
  function Authors(events: seq<Event>): seq<nat> {
    if events == [] then [] else Authors(events[..|events| - 1]) + Author(events[|events| - 1])
  }

  function Author(e: Event): seq<nat> {
    if e.ReadBody? && !e.error then [e.id] else []
  }

  /** The messages of the log that came from session `i`, in order. */
  function By(log: seq<Message>, authors: seq<nat>, i: nat): seq<Message>
    requires |authors| == |log|
  {
    if log == [] then []
    else
      var n := |log| - 1;
      By(log[..n], authors[..n], i) + (if authors[n] == i then [log[n]] else [])
  }

  lemma BySnoc(log: seq<Message>, authors: seq<nat>, m: Message, j: nat, i: nat)
    requires |authors| == |log|
    ensures By(log + [m], authors + [j], i) == By(log, authors, i) + (if j == i then [m] else [])
  {
    assert (log + [m])[..|log|] == log && (authors + [j])[..|log|] == authors;
  }

  lemma InputSnoc(events: seq<Event>, n: nat, i: nat)
    requires n < |events|
    ensures Input(events[..n + 1], i) == Input(events[..n], i) + Taken(events[n], i)
    ensures Authors(events[..n + 1]) == Authors(events[..n]) + Author(events[n])
  {
    assert events[..n + 1][..n] == events[..n];
  }

  lemma {:induction false} StreamSnoc(ms: seq<Message>, m: Message)
    ensures Stream(ms + [m]) == Stream(ms) + Data(m)
  {
    if ms == [] {
      assert Stream([m]) == Data(m) + "";
    } else {
      StreamSnoc(ms[1..], m);
      assert (ms + [m])[1..] == ms[1..] + [m];
      Assoc(Data(ms[0]), Stream(ms[1..]), Data(m));
    }
  }

  // ----- what every step keeps -------------------------------------------------------------------------------

  /** What a session has taken in is what it has delivered, and then the header of the message it is reading. Of a
      session that has stopped reading, it may be the header it was stopped at. */
  predicate Heard(s: Session, said: seq<Message>, input: string) {
    && AllWellFormed(said) && Stream(said) <= input
    && var rest := input[|Stream(said)|..];
       match s.reading
       case Header => rest == ""
       case Body(header) => rest == header
       case Stopped => rest == "" || |rest| == HEADER_LENGTH
  }

  /** Each message of the log has an author among the sessions. */
  ghost predicate AuthorsOk(w: World, authors: seq<nat>) {
    |authors| == |w.room.log| && forall k | 0 <= k < |authors| :: authors[k] < |w.sessions|
  }

  /** So it is for session `i`; a session yet to come has taken nothing in and delivered nothing. */
  ghost predicate HeardAt(w: World, authors: seq<nat>, i: nat, input: string) {
    && AuthorsOk(w, authors)
    && (if i < |w.sessions| then Heard(w.sessions[i], By(w.room.log, authors, i), input) else input == "")
  }

  lemma {:induction false} NobodyYet(log: seq<Message>, authors: seq<nat>, i: nat)
    requires |authors| == |log| && forall k | 0 <= k < |authors| :: authors[k] != i
    ensures By(log, authors, i) == []
  {
    if log == [] {
    } else {
      NobodyYet(log[..|log| - 1], authors[..|log| - 1], i);
    }
  }

  /** A header read: the rest of the input, empty before, is that header. */
  lemma HeaderHeard(s: Session, t: Session, said: seq<Message>, input: string, bytes: string)
    requires Heard(s, said, input) && s.reading.Header? && |bytes| == HEADER_LENGTH
    requires t.reading == Body(bytes) || t.reading.Stopped?
    ensures Heard(t, said, input + bytes)
  {
    assert input == Stream(said);
    assert (input + bytes)[|Stream(said)|..] == bytes;
  }

  /** A body read: with the header it is the next message. */
  lemma BodyHeard(s: Session, t: Session, said: seq<Message>, input: string, m: Message)
    requires Heard(s, said, input) && s.reading == Body(m.header) && WellFormed(m) && t.reading.Header?
    ensures Heard(t, said + [m], input + m.body)
  {
    StreamSnoc(said, m);
    assert input == Stream(said) + m.header;
    Assoc(Stream(said), m.header, m.body);
  }

  /** Nothing was taken in by session `i`, and it goes on reading as before or has stopped after an error. */
  lemma StillHeard(s: Session, t: Session, said: seq<Message>, input: string)
    requires Heard(s, said, input) && (t.reading == s.reading || t.reading.Stopped?)
    requires s.reading.Body? ==> |s.reading.header| == HEADER_LENGTH
    ensures Heard(t, said, input + "")
  {
    assert input + "" == input;
  }

  /** What a session reads next, after an event. */
  function ReadsNext(s: Session, e: Event, i: nat): Reading {
    if e.ReadHeader? && e.id == i then
      (if !e.error && DecodedLength(e.bytes).Some? then Body(e.bytes) else Stopped)
    else if e.ReadBody? && e.id == i then (if !e.error then Header else Stopped)
    else s.reading
  }

  lemma LeaveKeepsReading(w: World, i: nat, j: nat)
    requires i < |w.sessions| && j < |w.sessions|
    ensures |RoomLeave(w, j).sessions| == |w.sessions| && RoomLeave(w, j).sessions[i].reading == w.sessions[i].reading
  {}

  lemma DeliverKeepsReading(w: World, m: Message, i: nat)
    requires i < |w.sessions|
    ensures |RoomDeliver(w, m).sessions| == |w.sessions|
    ensures RoomDeliver(w, m).sessions[i].reading == w.sessions[i].reading
  {}

  lemma SetReadingAt(w: World, j: nat, reading: Reading, i: nat)
    requires j < |w.sessions| && i < |w.sessions|
    ensures |SetReading(w, j, reading).sessions| == |w.sessions|
    ensures SetReading(w, j, reading).sessions[i].reading == if j == i then reading else w.sessions[i].reading
  {}

  lemma ReadReads(w: World, e: Event, i: nat)
    requires Enabled(w, e) && (e.ReadHeader? || e.ReadBody?) && i < |w.sessions|
    ensures |w.sessions| == |Step(w, e).sessions|
    ensures Step(w, e).sessions[i].reading == ReadsNext(w.sessions[i], e, i)
  {
    var j := e.id;
    if e.error || (e.ReadHeader? && DecodedLength(e.bytes).None?) {
      LeaveKeepsReading(w, i, j);
      SetReadingAt(RoomLeave(w, j), j, Stopped, i);
    } else if e.ReadHeader? {
      SetReadingAt(w, j, Body(e.bytes), i);
    } else {
      var m := Message(w.sessions[j].reading.header, e.bytes);
      DeliverKeepsReading(w, m, i);
      SetReadingAt(RoomDeliver(w, m), j, Header, i);
    }
  }

  lemma WroteKeepsReading(w: World, j: nat, op: nat, error: bool, i: nat)
    requires Enabled(w, Wrote(j, op, error)) && i < |w.sessions|
    ensures var v := Step(w, Wrote(j, op, error));
            |v.sessions| == |w.sessions| && v.sessions[i].reading == w.sessions[i].reading
  {
    var s := w.sessions[j];
    var done := s.(writes := s.writes[..op] + s.writes[op + 1..]);
    if error {
      LeaveKeepsReading(w.(sessions := w.sessions[j := done.(failed := true)]), i, j);
    } else {
      assert FinishWrite(done).reading == s.reading;
    }
  }

  /** Sessions keep reading what they read but for the one a step is about. */
  lemma ReadingKept(w: World, e: Event, i: nat)
    requires Enabled(w, e) && i < |w.sessions|
    ensures |w.sessions| <= |Step(w, e).sessions|
    ensures Step(w, e).sessions[i].reading == ReadsNext(w.sessions[i], e, i)
  {
    match e
    case Accepted =>
    case ReadHeader(_, _, _) => ReadReads(w, e, i);
    case ReadBody(_, _, _) => ReadReads(w, e, i);
    case Wrote(j, op, error) => WroteKeepsReading(w, j, op, error, i);
  }

  lemma LogKept(w: World, e: Event)
    requires Enabled(w, e)
    ensures Step(w, e).room.log
         == if e.ReadBody? && !e.error then w.room.log + [Message(w.sessions[e.id].reading.header, e.bytes)]
            else w.room.log
  {}

  lemma AuthorsKept(w: World, e: Event, authors: seq<nat>)
    requires Enabled(w, e) && AuthorsOk(w, authors)
    ensures AuthorsOk(Step(w, e), authors + Author(e))
  {
    LogKept(w, e);
    if w.sessions != [] {
      ReadingKept(w, e, 0);
    }
  }

  lemma SessionHeard(w: World, e: Event, authors: seq<nat>, i: nat, input: string)
    requires Inv(w) && Enabled(w, e) && HeardAt(w, authors, i, input) && i < |w.sessions|
    ensures i < |Step(w, e).sessions| && |authors + Author(e)| == |Step(w, e).room.log|
    ensures Heard(Step(w, e).sessions[i], By(Step(w, e).room.log, authors + Author(e), i), input + Taken(e, i))
  {
    var s, v, said := w.sessions[i], Step(w, e), By(w.room.log, authors, i);
    assert SessionOk(w.room, i, s);
    ReadingKept(w, e, i);
    LogKept(w, e);
    if e.ReadBody? && !e.error {
      var m := Message(w.sessions[e.id].reading.header, e.bytes);
      assert SessionOk(w.room, e.id, w.sessions[e.id]);
      BySnoc(w.room.log, authors, m, e.id, i);
      if e.id == i {
        BodyHeard(s, v.sessions[i], said, input, m);
      } else {
        assert said + [] == said;
        StillHeard(s, v.sessions[i], said, input);
      }
    } else {
      assert authors + [] == authors;
      if e.ReadHeader? && e.id == i && !e.error {
        HeaderHeard(s, v.sessions[i], said, input, e.bytes);
      } else {
        StillHeard(s, v.sessions[i], said, input);
      }
    }
  }

  lemma NewcomerHeard(w: World, authors: seq<nat>, i: nat)
    requires HeardAt(w, authors, i, "") && i == |w.sessions|
    ensures Heard(Start(w).sessions[i], By(w.room.log, authors, i), "")
  {
    NobodyYet(w.room.log, authors, i);
    DeliverAllQueue(Session(Header, [], [], [], false, |w.room.log|, 0), w.room.recent);
  }

  lemma StepHeard(w: World, e: Event, authors: seq<nat>, i: nat, input: string)
    requires Inv(w) && Enabled(w, e) && HeardAt(w, authors, i, input)
    ensures HeardAt(Step(w, e), authors + Author(e), i, input + Taken(e, i))
  {
    AuthorsKept(w, e, authors);
    if i < |w.sessions| {
      SessionHeard(w, e, authors, i, input);
    } else if e.Accepted? && i == |w.sessions| {
      assert authors + Author(e) == authors && input + Taken(e, i) == "";
      NewcomerHeard(w, authors, i);
    } else {
      StillToCome(w, e, i);
    }
  }

  lemma StillToCome(w: World, e: Event, i: nat)
    requires Enabled(w, e) && i >= |w.sessions| && !(e.Accepted? && i == |w.sessions|)
    ensures i >= |Step(w, e).sessions| && Taken(e, i) == ""
  {}

  lemma {:induction false} RunHeard(run: seq<World>, events: seq<Event>, n: nat, i: nat)
    requires IsRun(run, events) && n <= |events|
    ensures HeardAt(run[n], Authors(events[..n]), i, Input(events[..n], i))
  {
    if n == 0 {
    } else {
      RunHeard(run, events, n - 1, i);
      RunKeepsInv(run, events, n - 1);
      assert StepAt(run, events, n - 1);
      StepHeard(run[n - 1], events[n - 1], Authors(events[..n - 1]), i, Input(events[..n - 1], i));
      InputSnoc(events, n - 1, i);
    }
  }

  // ----- the theorems ----------------------------------------------------------------------------------------

  /** What is left of the input: the message whose header is there, if that announces an empty body. */
  function EmptyBody(rest: string): seq<Message> {
    if |rest| == HEADER_LENGTH && DecodedLength(rest) == Some(0) then [Message(rest, "")] else []
  }

  lemma RestRead(rest: string)
    requires rest == "" || |rest| == HEADER_LENGTH
    ensures ReadLoop(rest) == EmptyBody(rest)
  {
    if rest != "" {
      assert rest[..HEADER_LENGTH] == rest && rest[HEADER_LENGTH..] == "";
    }
  }

  lemma HeardIsRead(s: Session, said: seq<Message>, input: string)
    requires Heard(s, said, input) && (s.reading.Body? ==> |s.reading.header| == HEADER_LENGTH)
    ensures ReadLoop(input) == said + EmptyBody(input[|Stream(said)|..])
  {
    var rest := input[|Stream(said)|..];
    assert input == Stream(said) + rest;
    ReadLoopInvertsStream(said, rest);
    RestRead(rest);
  }

  /** The log is an interleaving of what the clients sent: at every point of every run each message of the log came
      from one of the sessions, and those of session `i`, in the order they are in the log, are the messages its reads
      have taken in, message by message. A message with an empty body is the only one that can be complete before its
      body is read, and so be missing. */
  lemma LogIsWhatWasSent(run: seq<World>, events: seq<Event>, n: nat, i: nat)
    requires IsRun(run, events) && n <= |events| && i < |run[n].sessions|
    ensures var log, authors, input := run[n].room.log, Authors(events[..n]), Input(events[..n], i);
            && |authors| == |log| && (forall k | 0 <= k < |log| :: authors[k] < |run[n].sessions|)
            && var said := By(log, authors, i);
               && Stream(said) <= input
               && ReadLoop(input) == said + EmptyBody(input[|Stream(said)|..])
  {
    RunHeard(run, events, n, i);
    RunKeepsInv(run, events, n);
    var s := run[n].sessions[i];
    assert SessionOk(run[n].room, i, s);
    HeardIsRead(s, By(run[n].room.log, Authors(events[..n]), i), Input(events[..n], i));
  }

  /** Whatever part of a stream of messages ends with what has not been read yet, what has been read is its
      beginning. */
  lemma {:induction false} BeginningOfStream(said: seq<Message>, rest: string, ms: seq<Message>)
    requires AllWellFormed(said) && AllWellFormed(ms) && Stream(said) + rest <= Stream(ms)
    ensures said <= ms
  {
    if said == [] {
    } else {
      var m, tail := said[0], Stream(said[1..]) + rest;
      Assoc(Data(m), Stream(said[1..]), rest);
      assert ms != [];
      SameFirst(m, tail, ms[0], Stream(ms[1..]));
      BeginningOfStream(said[1..], rest, ms[1..]);
      assert said == [m] + said[1..] && ms == [ms[0]] + ms[1..];
    }
  }

  lemma SameFirst(m: Message, tail: string, m': Message, tail': string)
    requires WellFormed(m) && WellFormed(m') && Data(m) + tail <= Data(m') + tail'
    ensures m == m' && tail <= tail'
  {
    var s, t := Data(m) + tail, Data(m') + tail';
    assert s[..HEADER_LENGTH] == m.header && t[..HEADER_LENGTH] == m'.header;
    assert s[..HEADER_LENGTH] == t[..HEADER_LENGTH];
    var n := HEADER_LENGTH + |m.body|;
    assert s[HEADER_LENGTH..n] == m.body && t[HEADER_LENGTH..n] == m'.body;
    assert s[HEADER_LENGTH..n] == t[HEADER_LENGTH..n];
    assert s[n..] == tail && t[n..] == tail';
  }

  lemma HeardInOrder(s: Session, said: seq<Message>, input: string, ms: seq<Message>)
    requires Heard(s, said, input) && AllWellFormed(ms) && input <= Stream(ms)
    ensures said <= ms
  {
    var rest := input[|Stream(said)|..];
    assert input == Stream(said) + rest;
    BeginningOfStream(said, rest, ms);
  }

  /** So a client that sends these messages, of which part has been taken in, sees them in the log in its order. */
  lemma SentInOrder(run: seq<World>, events: seq<Event>, n: nat, i: nat, ms: seq<Message>)
    requires IsRun(run, events) && n <= |events| && i < |run[n].sessions|
    requires AllWellFormed(ms) && Input(events[..n], i) <= Stream(ms)
    ensures |Authors(events[..n])| == |run[n].room.log|
    ensures By(run[n].room.log, Authors(events[..n]), i) <= ms
  {
    RunHeard(run, events, n, i);
    HeardInOrder(run[n].sessions[i], By(run[n].room.log, Authors(events[..n]), i), Input(events[..n], i), ms);
  }
}
