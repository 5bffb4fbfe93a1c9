/** The timeouts server judged by its runs alone: when its sessions start to read and to write, what they send, and
    when they stop, told from the outstanding operations and the events, not from what the sessions record. */
module TimeoutTimes {
  import opened Basics
  import opened Asio
  import opened TimeoutModel

  // ----- reads and writes, as they are started ---------------------------------------------------------------

  /** Session `i` has a read outstanding that it did not have before the step. */
  predicate StartsRead(w: World, v: World, i: nat) {
    i < |v.sessions| && v.sessions[i].pending > 0 && (i < |w.sessions| ==> w.sessions[i].pending == 0)
  }

  predicate StartsWrite(w: World, v: World, i: nat) {
    i < |v.sessions| && v.sessions[i].writes != [] && (i < |w.sessions| ==> w.sessions[i].writes == [])
  }

  /** The last step before `n` that started a read of session `i`, if any. */
  function LastRead(run: seq<World>, n: nat, i: nat): (k: Option<nat>)
    requires n < |run|
    ensures k.Some? ==> k.value < n && StartsRead(run[k.value], run[k.value + 1], i)
  {
    if n == 0 then None
    else if StartsRead(run[n - 1], run[n], i) then Some(n - 1)
    else LastRead(run, n - 1, i)
  }

  function LastWritten(run: seq<World>, n: nat, i: nat): (k: Option<nat>)
    requires n < |run|
    ensures k.Some? ==> k.value < n && StartsWrite(run[k.value], run[k.value + 1], i)
  {
    if n == 0 then None
    else if StartsWrite(run[n - 1], run[n], i) then Some(n - 1)
    else LastWritten(run, n - 1, i)
  }

  /** What a step does to the times a session has recorded: a read or a write that is started is recorded with the
      time of the step, and nothing else is. */
  predicate Recorded(s: Session, t: Session, now: int) {
    && t.readAt == (if s.pending == 0 && t.pending > 0 then now else s.readAt)
    && t.writeAt == (if s.writes == [] && t.writes != [] then s.writeAt + [now] else s.writeAt)
  }

  lemma TakenRecorded(w: World, v: World, i: nat, s: Session, j: nat)
    requires i < |w.sessions| && j < |w.sessions| && v == Update(w, i, s)
    requires s == w.sessions[i].(ready := s.ready)
    ensures |v.sessions| == |w.sessions| && v.now == w.now && v.sessions[j].open == w.sessions[j].open
    ensures v.sessions[j].pending == w.sessions[j].pending && v.sessions[j].writes == w.sessions[j].writes
    ensures v.sessions[j].readAt == w.sessions[j].readAt && v.sessions[j].writeAt == w.sessions[j].writeAt
  {}

  lemma ReadRecorded(w: World, i: nat, result: ReadResult, j: nat)
    requires i < |w.sessions| && j < |w.sessions| && (w.sessions[i].open ==> w.sessions[i].pending == 0)
    ensures var v := OnRead(w, i, result);
            |v.sessions| == |w.sessions| && (v.sessions[j].open ==> Recorded(w.sessions[j], v.sessions[j], w.now))
  {}

  lemma WriteRecorded(w: World, i: nat, result: WriteResult, j: nat)
    requires i < |w.sessions| && j < |w.sessions| && (w.sessions[i].open ==> w.sessions[i].writes == [])
    ensures var v := OnWrite(w, i, result);
            |v.sessions| == |w.sessions| && (v.sessions[j].open ==> Recorded(w.sessions[j], v.sessions[j], w.now))
  {}

  lemma AwaitRecorded(w: World, i: nat, j: nat)
    requires i < |w.sessions| && j < |w.sessions| && (w.sessions[i].open ==> w.sessions[i].writes == [])
    ensures var v := Update(w, i, AwaitOn(w.sessions[i], w.now));
            |v.sessions| == |w.sessions| && Recorded(w.sessions[j], v.sessions[j], w.now)
  {}

  lemma CheckRecorded(w: World, i: nat, j: nat)
    requires i < |w.sessions| && j < |w.sessions|
    ensures var v := OnCheckInput(w, i);
            |v.sessions| == |w.sessions| && (v.sessions[j].open ==> Recorded(w.sessions[j], v.sessions[j], w.now))
    ensures var v := OnCheckOutput(w, i);
            |v.sessions| == |w.sessions| && (v.sessions[j].open ==> Recorded(w.sessions[j], v.sessions[j], w.now))
  {}

  /** While its handler is running, the reader or the writer of a session has nothing outstanding. */
  lemma NothingOutstanding(w: World, i: nat, h: Handler)
    requires Inv(w) && Enabled(w, Run(i, h)) && w.sessions[i].open
    ensures h.HandleRead? ==> w.sessions[i].pending == 0
    ensures h.HandleWrite? || h.AwaitOutput? ==> w.sessions[i].writes == []
  {
    assert SessionOk(w, i, w.sessions[i]);
  }

  lemma HandlerRecorded(w: World, i: nat, h: Handler, j: nat)
    requires Inv(w) && Enabled(w, Run(i, h)) && j < |w.sessions|
    ensures var v := Handle(w, i, h);
            |v.sessions| == |w.sessions| && (v.sessions[j].open ==> Recorded(w.sessions[j], v.sessions[j], w.now))
  {
    var s := w.sessions[i];
    var t := s.(ready := Taken(s.ready, h));
    var v := Update(w, i, t);
    if s.open {
      NothingOutstanding(w, i, h);
    }
    TakenRecorded(w, v, i, t, i);
    TakenRecorded(w, v, i, t, j);
    match h
    case HandleRead(k) => ReadRecorded(v, i, s.ready.read[k], j);
    case HandleWrite(k) => WriteRecorded(v, i, s.ready.write[k], j);
    case AwaitOutput => AwaitRecorded(v, i, j);
    case CheckInput => CheckRecorded(v, i, j);
    case CheckOutput => CheckRecorded(v, i, j);
  }

  lemma StepRecorded(w: World, e: Event, j: nat)
    requires Inv(w) && Enabled(w, e) && j < |w.sessions|
    ensures |w.sessions| <= |Step(w, e).sessions|
    ensures Step(w, e).sessions[j].open ==> Recorded(w.sessions[j], Step(w, e).sessions[j], w.now)
  {
    if e.Run? {
      HandlerRecorded(w, e.id, e.handler, j);
    } else if e.ReadDone? || e.WriteDone? {
      assert SessionOk(w, e.id, w.sessions[e.id]);
    }
  }

  /** A session that is open was open before the step, or is new. */
  lemma OpenBefore(w: World, e: Event, j: nat)
    requires Enabled(w, e) && j < |w.sessions|
    ensures |w.sessions| <= |Step(w, e).sessions|
    ensures Step(w, e).sessions[j].open ==> w.sessions[j].open
  {
    if e.Run? {
      HandlerRenews(w, e.id, e.handler, j);
    }
  }

  lemma NewSession(w: World, i: nat)
    requires i == |w.sessions|
    ensures var v := Start(w); |v.sessions| == i + 1 && StartsRead(w, v, i) && !StartsWrite(w, v, i)
    ensures Start(w).sessions[i].readAt == w.now && Start(w).sessions[i].writeAt == []
  {}

  /** The times recorded are those of the run. */
  ghost predicate TimesOf(run: seq<World>, n: nat, i: nat)
    requires n < |run| && i < |run[n].sessions|
  {
    var s, r, k := run[n].sessions[i], LastRead(run, n, i), LastWritten(run, n, i);
    && r.Some? && s.readAt == run[r.value].now
    && (k.None? <==> s.writeAt == []) && (k.Some? ==> s.writeAt[|s.writeAt| - 1] == run[k.value].now)
  }

  lemma OnlyAccepted(w: World, e: Event, i: nat)
    requires Enabled(w, e) && |w.sessions| <= i < |Step(w, e).sessions|
    ensures e.Accepted? && i == |w.sessions|
  {
    if e.Run? {
      if w.sessions != [] {
        HandlerRenews(w, e.id, e.handler, 0);
      }
    }
  }

  /** A session yet to come has not started anything. */
  lemma {:induction false} NotYet(run: seq<World>, events: seq<Event>, n: nat, i: nat)
    requires IsRun(run, events) && n <= |events| && i >= |run[n].sessions|
    ensures LastRead(run, n, i).None? && LastWritten(run, n, i).None?
  {
    if n == 0 {
    } else {
      assert StepAt(run, events, n - 1);
      if run[n - 1].sessions != [] {
        OpenBefore(run[n - 1], events[n - 1], 0);
      }
      NotYet(run, events, n - 1, i);
    }
  }

  lemma TimesStep(run: seq<World>, n: nat, i: nat)
    requires 0 < n < |run| && i < |run[n - 1].sessions| && i < |run[n].sessions| && TimesOf(run, n - 1, i)
    requires Recorded(run[n - 1].sessions[i], run[n].sessions[i], run[n - 1].now)
    ensures TimesOf(run, n, i)
  {}

  lemma TimesStart(run: seq<World>, n: nat, i: nat)
    requires 0 < n < |run| && i == |run[n - 1].sessions| && run[n] == Start(run[n - 1])
    requires LastWritten(run, n - 1, i).None?
    ensures TimesOf(run, n, i)
  {
    NewSession(run[n - 1], i);
  }

  /** The times an open session has recorded are those at which its last read and its last write were started. */
  lemma {:induction false} TimesAreOfTheRun(run: seq<World>, events: seq<Event>, n: nat, i: nat)
    requires IsRun(run, events) && n <= |events| && i < |run[n].sessions| && run[n].sessions[i].open
    ensures TimesOf(run, n, i)
    decreases n
  {
    if n == 0 {
    } else {
      var w, e := run[n - 1], events[n - 1];
      assert StepAt(run, events, n - 1);
      if i < |w.sessions| {
        OpenBefore(w, e, i);
        TimesAreOfTheRun(run, events, n - 1, i);
        RunKeepsInv(run, events, n - 1);
        StepRecorded(w, e, i);
        TimesStep(run, n, i);
      } else {
        NotYet(run, events, n - 1, i);
        OnlyAccepted(w, e, i);
        TimesStart(run, n, i);
      }
    }
  }

  // ----- the deadlines ---------------------------------------------------------------------------------------

  /** Session `i` has a step before `n` that started a write, and the last of them is 30 seconds back or longer. */
  predicate WriteOverdue(run: seq<World>, n: nat, i: nat)
    requires n < |run|
  {
    var k := LastWritten(run, n, i);
    k.Some? && run[k.value].now + 30 <= run[n].now
  }

  predicate ReadOverdue(run: seq<World>, n: nat, i: nat)
    requires n < |run|
  {
    var k := LastRead(run, n, i);
    k.Some? && run[k.value].now + 30 <= run[n].now
  }

  /** The input check stops an open session exactly when its last read was started 30 seconds ago or longer. */
  lemma InputDeadline(run: seq<World>, events: seq<Event>, n: nat, i: nat)
    requires IsRun(run, events) && n <= |events| && Enabled(run[n], Run(i, CheckInput)) && run[n].sessions[i].open
    ensures !Step(run[n], Run(i, CheckInput)).sessions[i].open <==> ReadOverdue(run, n, i)
  {
    RunKeepsInv(run, events, n);
    assert SessionOk(run[n], i, run[n].sessions[i]);
    TimesAreOfTheRun(run, events, n, i);
  }

  /** The output deadline is that of the last write started, whether or not that write is still in progress:
      the output check stops an open session exactly when a write has been started and the last one was
      started 30 seconds ago or longer. */
  lemma OutputDeadline(run: seq<World>, events: seq<Event>, n: nat, i: nat)
    requires IsRun(run, events) && n <= |events| && Enabled(run[n], Run(i, CheckOutput)) && run[n].sessions[i].open
    ensures !Step(run[n], Run(i, CheckOutput)).sessions[i].open <==> WriteOverdue(run, n, i)
  {
    RunKeepsInv(run, events, n);
    assert SessionOk(run[n], i, run[n].sessions[i]);
    TimesAreOfTheRun(run, events, n, i);
  }

  /** A session that has had its time is about to be stopped: once its last read is 30 seconds old the input check
      can be woken or is ready, and once its last write is, the output check. */
  lemma DeadlinesAreDue(run: seq<World>, events: seq<Event>, n: nat, i: nat)
    requires IsRun(run, events) && n <= |events| && i < |run[n].sessions| && run[n].sessions[i].open
    ensures ReadOverdue(run, n, i) ==> Enabled(run[n], Fire(i, Input)) || Enabled(run[n], Run(i, CheckInput))
    ensures WriteOverdue(run, n, i) ==> Enabled(run[n], Fire(i, Output)) || Enabled(run[n], Run(i, CheckOutput))
  {
    RunKeepsInv(run, events, n);
    assert SessionOk(run[n], i, run[n].sessions[i]);
    TimesAreOfTheRun(run, events, n, i);
  }

  /** In every run whose handlers are run before time goes on, no read outlives its 30 seconds, and no session stays
      open for more than 30 seconds after its last write was started. */
  lemma NothingOutlivesItsDeadline(run: seq<World>, events: seq<Event>, n: nat, i: nat)
    requires IsRun(run, events) && n <= |events| && i < |run[n].sessions| && run[n].sessions[i].open
    requires forall k | 0 <= k < n :: Prompt(run[k], events[k])
    ensures LastRead(run, n, i).Some? && run[n].now <= run[LastRead(run, n, i).value].now + 30
    ensures LastWritten(run, n, i).Some? ==> run[n].now <= run[LastWritten(run, n, i).value].now + 30
  {
    RunInTime(run, events, n);
    assert InTime(run[n].sessions[i], run[n].now);
    TimesAreOfTheRun(run, events, n, i);
  }

  lemma {:induction false} TimeGoesOn(run: seq<World>, events: seq<Event>, k: nat, n: nat)
    requires IsRun(run, events) && k <= n <= |events|
    ensures run[k].now <= run[n].now
    decreases n
  {
    if n == k {
    } else {
      TimeGoesOn(run, events, k, n - 1);
      assert StepAt(run, events, n - 1);
      if events[n - 1].Run? {
        ClockKept(run[n - 1], events[n - 1].id, events[n - 1].handler);
      }
    }
  }

  lemma ClockKept(w: World, i: nat, h: Handler)
    requires Enabled(w, Run(i, h))
    ensures Handle(w, i, h).now == w.now
  {}

  /** An idle session whose last read is not 30 seconds old is stopped by the output check exactly when a write has
      been started and the last one is; so that write was started before the read. */
  lemma IdleStop(run: seq<World>, events: seq<Event>, n: nat, i: nat)
    requires IsRun(run, events) && n <= |events| && Enabled(run[n], Run(i, CheckOutput))
    requires Idle(run[n].sessions[i]) && !ReadOverdue(run, n, i)
    ensures LastRead(run, n, i).Some?
    ensures var stops := !Step(run[n], Run(i, CheckOutput)).sessions[i].open;
            && (stops <==> WriteOverdue(run, n, i))
            && (stops ==> LastWritten(run, n, i).value < LastRead(run, n, i).value)
  {
    OutputDeadline(run, events, n, i);
    TimesAreOfTheRun(run, events, n, i);
    if WriteOverdue(run, n, i) && LastRead(run, n, i).value <= LastWritten(run, n, i).value {
      TimeGoesOn(run, events, LastRead(run, n, i).value, LastWritten(run, n, i).value);
    }
  }

  // ----- when a session stops --------------------------------------------------------------------------------

  /** The step is a handler of session `i` that has a reason to stop it. */
  predicate StopsSession(run: seq<World>, events: seq<Event>, n: nat, i: nat)
    requires n < |events| < |run| && i < |run[n].sessions| && Enabled(run[n], events[n])
  {
    var e, s := events[n], run[n].sessions[i];
    && e.Run? && e.id == i
    && match e.handler
       case HandleRead(k) => s.ready.read[k].ReadError?
       case HandleWrite(k) => !s.ready.write[k].ok
       case AwaitOutput => false
       case CheckInput => ReadOverdue(run, n, i)
       case CheckOutput => WriteOverdue(run, n, i)
  }

  lemma OthersStayOpen(w: World, e: Event, i: nat)
    requires Enabled(w, e) && i < |w.sessions| && w.sessions[i].open && !(e.Run? && e.id == i)
    ensures i < |Step(w, e).sessions| && Step(w, e).sessions[i].open
  {
    if e.Run? {
      HandlerLeavesOpen(w, e.id, e.handler, i);
    }
  }

  lemma HandlerLeavesOpen(w: World, i: nat, h: Handler, j: nat)
    requires Enabled(w, Run(i, h)) && j < |w.sessions| && j != i && w.sessions[j].open
    ensures |Handle(w, i, h).sessions| == |w.sessions| && Handle(w, i, h).sessions[j].open
  {
    var s := w.sessions[i];
    var v := Update(w, i, s.(ready := Taken(s.ready, h)));
    assert v.sessions[j] == w.sessions[j];
    match h
    case HandleRead(k) => ReadLeavesOpen(v, i, s.ready.read[k], j);
    case _ =>
  }

  lemma ReadLeavesOpen(w: World, i: nat, result: ReadResult, j: nat)
    requires i < |w.sessions| && j < |w.sessions| && w.sessions[j].open && (j == i ==> result.Line?)
    ensures |OnRead(w, i, result).sessions| == |w.sessions| && OnRead(w, i, result).sessions[j].open
  {}

  lemma ReadStops(w: World, i: nat, k: nat)
    requires Enabled(w, Run(i, HandleRead(k))) && w.sessions[i].open
    ensures |Handle(w, i, HandleRead(k)).sessions| == |w.sessions|
    ensures !Handle(w, i, HandleRead(k)).sessions[i].open <==> w.sessions[i].ready.read[k].ReadError?
  {
    var s := w.sessions[i];
    var v := Update(w, i, s.(ready := Taken(s.ready, HandleRead(k))));
    if s.ready.read[k].Line? {
      ReadLeavesOpen(v, i, s.ready.read[k], i);
    }
  }

  lemma WriteStops(w: World, i: nat, k: nat)
    requires Enabled(w, Run(i, HandleWrite(k))) && w.sessions[i].open
    ensures |Handle(w, i, HandleWrite(k)).sessions| == |w.sessions|
    ensures !Handle(w, i, HandleWrite(k)).sessions[i].open <==> !w.sessions[i].ready.write[k].ok
  {}

  /** An open session is stopped by the reader on an error, by the writer on a failure and by either check once its
      deadline has passed, and by nothing else. */
  lemma StopsIff(run: seq<World>, events: seq<Event>, n: nat, i: nat)
    requires IsRun(run, events) && n < |events| && i < |run[n].sessions| && run[n].sessions[i].open
    ensures Enabled(run[n], events[n]) && i < |run[n + 1].sessions|
    ensures !run[n + 1].sessions[i].open <==> StopsSession(run, events, n, i)
  {
    assert StepAt(run, events, n);
    var w, e := run[n], events[n];
    if !(e.Run? && e.id == i) {
      OthersStayOpen(w, e, i);
    } else {
      match e.handler
      case HandleRead(k) => ReadStops(w, i, k);
      case HandleWrite(k) => WriteStops(w, i, k);
      case CheckInput => InputDeadline(run, events, n, i);
      case CheckOutput => OutputDeadline(run, events, n, i);
      case AwaitOutput =>
    }
  }

  /** A session that is accepted is open, in the channel, reading, and has nothing to send. */
  lemma AcceptedIsOpen(run: seq<World>, events: seq<Event>, n: nat)
    requires IsRun(run, events) && n < |events| && events[n].Accepted?
    ensures var i := |run[n].sessions|;
            && |run[n + 1].sessions| == i + 1 && i in run[n + 1].members
            && var s := run[n + 1].sessions[i]; s.open && s.pending == 1 && s.queue == []
  {
    assert StepAt(run, events, n);
  }

  /** At every point of every run an open session has one read, one output continuation, one input check and one
      output check, each outstanding or ready to run. */
  lemma FourActors(run: seq<World>, events: seq<Event>, n: nat, i: nat)
    requires IsRun(run, events) && n <= |events| && i < |run[n].sessions| && run[n].sessions[i].open
    ensures var s := run[n].sessions[i];
            && s.pending + |s.ready.read| == 1
            && s.wake.waits + s.ready.await + |s.writes| + |s.ready.write| == 1
            && s.input.waits + s.ready.input == 1 && s.output.waits + s.ready.output == 1
  {
    RunKeepsInv(run, events, n);
    assert SessionOk(run[n], i, run[n].sessions[i]);
  }

  // ----- what is sent ----------------------------------------------------------------------------------------

  /** The line an open session takes from its client in this step; a heartbeat is none. */
  function Heard(w: World, e: Event): seq<string>
    requires Enabled(w, e)
  {
    if e.Run? && e.handler.HandleRead? && w.sessions[e.id].open then
      match w.sessions[e.id].ready.read[e.handler.r]
      case Line(text) => if text == "" then [] else [text]
      case ReadError => []
    else []
  }

  /** The message session `i` finds to have gone out in this step. */
  function WentOut(w: World, e: Event, i: nat): seq<string>
    requires Enabled(w, e) && i < |w.sessions|
  {
    var s := w.sessions[i];
    if e.Run? && e.id == i && e.handler.HandleWrite? && s.open && s.ready.write[e.handler.r].ok then
      [s.ready.write[e.handler.r].message]
    else []
  }

  /** The lines heard from any client in the first `n` steps. */
  ghost function AllHeard(run: seq<World>, events: seq<Event>, n: nat): seq<string>
    requires IsRun(run, events) && n <= |events|
  {
    if n == 0 then []
    else
      assert StepAt(run, events, n - 1);
      AllHeard(run, events, n - 1) + Heard(run[n - 1], events[n - 1])
  }

  /** The messages session `i` has sent in the first `n` steps. */
  ghost function AllOut(run: seq<World>, events: seq<Event>, n: nat, i: nat): seq<string>
    requires IsRun(run, events) && n <= |events|
  {
    if n == 0 then []
    else
      assert StepAt(run, events, n - 1);
      AllOut(run, events, n - 1, i)
      + (if i < |run[n - 1].sessions| then WentOut(run[n - 1], events[n - 1], i) else [])
  }

  /** The last point up to `n` at which session `i` is open. */
  function OpenUntil(run: seq<World>, n: nat, i: nat): (m: nat)
    requires n < |run|
    ensures m <= n
  {
    if n == 0 || (i < |run[n].sessions| && run[n].sessions[i].open) then n else OpenUntil(run, n - 1, i)
  }

  /** The step in which session `i` is accepted. */
  function AcceptedAt(run: seq<World>, n: nat, i: nat): (k: nat)
    requires n < |run| && i < |run[n].sessions| && run[0].sessions == []
    ensures k < n && |run[k].sessions| <= i < |run[k + 1].sessions|
  {
    if i < |run[n - 1].sessions| then AcceptedAt(run, n - 1, i) else n - 1
  }

  /** A session keeps the point at which it joined, and leaves at the point at which it is stopped. */
  predicate Carried(w: World, v: World, j: nat)
    requires j < |w.sessions|
  {
    && j < |v.sessions| && v.sessions[j].joined == w.sessions[j].joined
    && (w.sessions[j].open || v.sessions[j].left == w.sessions[j].left)
    && (w.sessions[j].open && !v.sessions[j].open ==> v.sessions[j].left == |w.log| == |v.log|)
  }

  lemma ReadGrows(w: World, i: nat, result: ReadResult, j: nat)
    requires i < |w.sessions| && j < |w.sessions| && (i in w.members <==> w.sessions[i].open)
    ensures var v := OnRead(w, i, result);
            && v.log == w.log + (if w.sessions[i].open && result.Line? && result.text != "" then [result.text] else [])
            && Carried(w, v, j) && v.sessions[j].written == w.sessions[j].written
  {
    assert w.log + [] == w.log;
  }

  lemma WriteGrows(w: World, i: nat, result: WriteResult, j: nat)
    requires i < |w.sessions| && j < |w.sessions| && (i in w.members <==> w.sessions[i].open)
    ensures var v := OnWrite(w, i, result);
            && v.log == w.log && Carried(w, v, j)
            && v.sessions[j].written
               == w.sessions[j].written + (if j == i && w.sessions[i].open && result.ok then [result.message] else [])
  {
    assert w.sessions[j].written + [] == w.sessions[j].written;
  }

  lemma CheckGrows(w: World, i: nat, j: nat)
    requires i < |w.sessions| && j < |w.sessions| && (i in w.members <==> w.sessions[i].open)
    ensures var v := OnCheckInput(w, i);
            v.log == w.log && Carried(w, v, j) && v.sessions[j].written == w.sessions[j].written
    ensures var v := OnCheckOutput(w, i);
            v.log == w.log && Carried(w, v, j) && v.sessions[j].written == w.sessions[j].written
  {}

  lemma AwaitGrows(w: World, i: nat, j: nat)
    requires i < |w.sessions| && j < |w.sessions|
    ensures var v := Update(w, i, AwaitOn(w.sessions[i], w.now));
            v.log == w.log && Carried(w, v, j) && v.sessions[j].written == w.sessions[j].written
  {}

  /** Taking a handler off the ready ones changes nothing of the history. */
  lemma TakenCarries(w: World, v: World, i: nat, s: Session, j: nat)
    requires i < |w.sessions| && j < |w.sessions| && v == Update(w, i, s)
    requires s == w.sessions[i].(ready := s.ready)
    ensures |v.sessions| == |w.sessions| && v.log == w.log && v.members == w.members
    ensures v.sessions[j].written == w.sessions[j].written && v.sessions[j].joined == w.sessions[j].joined
    ensures v.sessions[j].left == w.sessions[j].left && v.sessions[j].open == w.sessions[j].open
  {}

  lemma HandlerGrows(w: World, i: nat, h: Handler, j: nat)
    requires Inv(w) && Enabled(w, Run(i, h)) && j < |w.sessions|
    ensures Carried(w, Handle(w, i, h), j)
    ensures Handle(w, i, h).sessions[j].written == w.sessions[j].written + WentOut(w, Run(i, h), j)
    ensures Handle(w, i, h).log == w.log + Heard(w, Run(i, h))
  {
    var s := w.sessions[i];
    assert SessionOk(w, i, s);
    var t := s.(ready := Taken(s.ready, h));
    var v := Update(w, i, t);
    TakenCarries(w, v, i, t, j);
    TakenCarries(w, v, i, t, i);
    assert w.log + [] == w.log;
    assert w.sessions[j].written + [] == w.sessions[j].written;
    match h
    case HandleRead(k) => ReadGrows(v, i, s.ready.read[k], j);
    case HandleWrite(k) => WriteGrows(v, i, s.ready.write[k], j);
    case AwaitOutput => AwaitGrows(v, i, j);
    case CheckInput => CheckGrows(v, i, j);
    case CheckOutput => CheckGrows(v, i, j);
  }

  /** Completions and timers leave the history alone, as does an accept that of the sessions there are. */
  lemma EventGrows(w: World, e: Event, j: nat)
    requires Enabled(w, e) && !e.Run? && j < |w.sessions|
    ensures j < |Step(w, e).sessions|
    ensures var s, t := w.sessions[j], Step(w, e).sessions[j];
            t.joined == s.joined && t.left == s.left && t.open == s.open && t.written == s.written
  {
    if !e.Pass? && !e.Accepted? {
      assert e.id != j ==> Step(w, e).sessions[j] == w.sessions[j];
    }
  }

  lemma StepGrows(w: World, e: Event, j: nat)
    requires Inv(w) && Enabled(w, e) && j < |w.sessions|
    ensures Carried(w, Step(w, e), j)
    ensures Step(w, e).sessions[j].written == w.sessions[j].written + WentOut(w, e, j)
  {
    if e.Run? {
      HandlerGrows(w, e.id, e.handler, j);
    } else {
      EventGrows(w, e, j);
      assert w.sessions[j].written + [] == w.sessions[j].written;
    }
  }

  lemma StepLogs(w: World, e: Event)
    requires Inv(w) && Enabled(w, e)
    ensures Step(w, e).log == w.log + Heard(w, e)
  {
    if e.Run? {
      HandlerGrows(w, e.id, e.handler, e.id);
    } else {
      assert w.log + [] == w.log;
    }
  }

  lemma {:induction false} LogIsHeard(run: seq<World>, events: seq<Event>, n: nat)
    requires IsRun(run, events) && n <= |events|
    ensures run[n].log == AllHeard(run, events, n)
  {
    if n == 0 {
    } else {
      LogIsHeard(run, events, n - 1);
      RunKeepsInv(run, events, n - 1);
      assert StepAt(run, events, n - 1);
      StepLogs(run[n - 1], events[n - 1]);
    }
  }

  lemma {:induction false} NothingOutYet(run: seq<World>, events: seq<Event>, n: nat, i: nat)
    requires IsRun(run, events) && n <= |events| && i >= |run[n].sessions|
    ensures AllOut(run, events, n, i) == []
  {
    if n == 0 {
    } else {
      assert StepAt(run, events, n - 1);
      if run[n - 1].sessions != [] {
        OpenBefore(run[n - 1], events[n - 1], 0);
      }
      NothingOutYet(run, events, n - 1, i);
    }
  }

  /** What a session records of its own history is what happened in the run. */
  lemma {:induction false} HistoryIsOfTheRun(run: seq<World>, events: seq<Event>, n: nat, i: nat)
    requires IsRun(run, events) && n <= |events| && i < |run[n].sessions|
    ensures var s := run[n].sessions[i];
            && s.written == AllOut(run, events, n, i)
            && s.joined == |run[AcceptedAt(run, n, i)].log|
            && (!s.open ==> s.left == |run[OpenUntil(run, n, i)].log|)
    decreases n
  {
    if n == 0 {
    } else {
      var w, e := run[n - 1], events[n - 1];
      assert StepAt(run, events, n - 1);
      RunKeepsInv(run, events, n - 1);
      if i < |w.sessions| {
        HistoryIsOfTheRun(run, events, n - 1, i);
        StepGrows(w, e, i);
      } else {
        OnlyAccepted(w, e, i);
        NothingOutYet(run, events, n - 1, i);
      }
    }
  }

  /** What a session has sent and has yet to send, heartbeats aside, is what was heard from any client, in that
      order, from when it was accepted until it was stopped. */
  lemma DeliversWhatIsHeard(run: seq<World>, events: seq<Event>, n: nat, i: nat)
    requires IsRun(run, events) && n <= |events| && i < |run[n].sessions|
    ensures var from := |AllHeard(run, events, AcceptedAt(run, n, i))|;
            var to := |AllHeard(run, events, OpenUntil(run, n, i))|;
            && from <= to <= |AllHeard(run, events, n)|
            && Payload(AllOut(run, events, n, i) + run[n].sessions[i].queue)
               == Terminated(AllHeard(run, events, n)[from..to])
  {
    RunKeepsInv(run, events, n);
    assert SessionOk(run[n], i, run[n].sessions[i]);
    HistoryIsOfTheRun(run, events, n, i);
    LogIsHeard(run, events, n);
    LogIsHeard(run, events, AcceptedAt(run, n, i));
    LogIsHeard(run, events, OpenUntil(run, n, i));
  }
}
