/** The channel and session objects of the timeouts server, each handler proved to take the step of the model
    it stands for. */
module TimeoutServer {
  import opened Asio
  import M = TimeoutModel

  class Channel {
    var subscribers: set<TcpSession>
    ghost var log: seq<string>

    constructor ()
      ensures subscribers == {} && log == []
    {
      subscribers, log := {}, [];
    }

    method Join(s: TcpSession)
      modifies this`subscribers, s`joined
      ensures subscribers == old(subscribers) + {s} && s.joined == |log|
    {
      s.joined := |log|;
      subscribers := subscribers + {s};
    }

    method Leave(s: TcpSession)
      modifies this`subscribers, s`left
      ensures subscribers == old(subscribers) - {s}
      ensures s.left == if s in old(subscribers) then |log| else old(s.left)
    {
      if s in subscribers {
        s.left := |log|;
      }
      subscribers := subscribers - {s};
    }

    method Deliver(message: string)
      modifies this`log, subscribers
      ensures log == old(log) + [message]
      ensures forall s | s in subscribers :: s.View() == M.Deliver(old(s.View()), message)
    {
      log := log + [message];
      var todo := subscribers;
      while todo != {}
        modifies subscribers
        invariant todo <= subscribers
        invariant forall s | s in todo :: s.View() == old(s.View())
        invariant forall s | s in subscribers - todo :: s.View() == M.Deliver(old(s.View()), message)
      {
        var s :| s in todo;
        s.Deliver(message);
        todo := todo - {s};
      }
    }
  }

  class TcpSession {
    const channel: Channel
    var open: bool
    var queue: seq<string>
    var input: Timer
    var wake: Timer
    var output: Timer
    /** What the asynchronous library holds for the session: outstanding operations and ready handlers. */
    var pending: nat
    var writes: seq<string>
    var ready: M.Ready
    ghost var written: seq<string>
    ghost var readAt: int
    ghost var writeAt: seq<int>
    ghost var joined: nat
    ghost var left: nat

    constructor (channel: Channel, ghost now: int)
      ensures this.channel == channel
      ensures View() == var t := Timer(PosInfinity, 0);
                        M.Session(true, [], t, t, t, 0, [], M.Ready([], [], 0, 0, 0), [], now, [], 0, 0)
    {
      this.channel := channel;
      open, queue, pending, writes := true, [], 0, [];
      input, wake, output := Timer(PosInfinity, 0), Timer(PosInfinity, 0), Timer(PosInfinity, 0);
      ready := M.Ready([], [], 0, 0, 0);
      written, readAt, writeAt, joined, left := [], now, [], 0, 0;
    }

    ghost function View(): M.Session
      reads this
    {
      M.Session(open, queue, input, wake, output, pending, writes, ready, written, readAt, writeAt, joined, left)
    }

    // ----- timers: setting the expiry wakes the waits ------------------------------------------------------

    method SetInput(x: Expiry)
      modifies this`input, this`ready
      ensures View() == M.SetInput(old(View()), x)
    {
      ready := ready.(input := ready.input + input.waits);
      input := Timer(x, 0);
    }

    method SetWake(x: Expiry)
      modifies this`wake, this`ready
      ensures View() == M.SetWake(old(View()), x)
    {
      ready := ready.(await := ready.await + wake.waits);
      wake := Timer(x, 0);
    }

    method SetOutput(x: Expiry)
      modifies this`output, this`ready
      ensures View() == M.SetOutput(old(View()), x)
    {
      ready := ready.(output := ready.output + output.waits);
      output := Timer(x, 0);
    }

    method Close()
      modifies this`open, this`pending, this`writes, this`ready
      ensures View() == M.Close(old(View()))
    {
      open := false;
      ready := ready.(read := ready.read + Errors(pending), write := ready.write + M.Failures(writes));
      pending, writes := 0, [];
    }

    // ----- the actors --------------------------------------------------------------------------------------

    method Start(now: int)
      requires open
      modifies this, channel`subscribers
      ensures channel.subscribers == old(channel.subscribers) + {this}
      ensures View() == var a := M.StartRead(old(View()).(joined := |channel.log|), now);
                        var c := M.AwaitOn(a.(input := a.input.(waits := a.input.waits + 1)), now);
                        c.(output := c.output.(waits := c.output.waits + 1))
    {
      channel.Join(this);
      StartRead(now);
      input := input.(waits := input.waits + 1);
      AwaitOutput(now);
      output := output.(waits := output.waits + 1);
    }

    method Stop()
      modifies this, channel`subscribers
      ensures channel.subscribers == old(channel.subscribers) - {this}
      ensures View() == M.Shut(old(View()).(left := if this in old(channel.subscribers) then |channel.log|
                                                    else old(left)))
    {
      channel.Leave(this);
      Close();
      SetInput(input.expiry);
      SetWake(wake.expiry);
      SetOutput(output.expiry);
    }

    method Deliver(message: string)
      modifies this`queue, this`wake, this`ready
      ensures View() == M.Deliver(old(View()), message)
    {
      queue := queue + [message + "\n"];
      SetWake(NegInfinity);
    }

    method StartRead(now: int)
      modifies this`input, this`ready, this`pending, this`readAt
      ensures View() == M.StartRead(old(View()), now)
    {
      SetInput(At(now + M.SECONDS));
      pending := pending + 1;
      readAt := now;
    }

    method HandleRead(result: ReadResult, now: int)
      modifies this, channel, channel.subscribers
      ensures !old(open) ==> View() == old(View())
      ensures !old(open) || (result.Line? && result.text == "") ==>
                && channel.subscribers == old(channel.subscribers) && channel.log == old(channel.log)
                && forall s | s in channel.subscribers && s != this :: s.View() == old(s.View())
      ensures old(open) && result.ReadError? ==>
                && channel.subscribers == old(channel.subscribers) - {this} && channel.log == old(channel.log)
                && View() == M.Shut(old(View()).(left := if this in old(channel.subscribers) then |channel.log|
                                                         else old(left)))
                && forall s | s in channel.subscribers :: s.View() == old(s.View())
      ensures old(open) && result.Line? && result.text != "" ==>
                && channel.subscribers == old(channel.subscribers) && channel.log == old(channel.log) + [result.text]
                && View() == M.StartRead(if this in channel.subscribers then M.Deliver(old(View()), result.text)
                                         else old(View()), now)
                && forall s | s in channel.subscribers && s != this :: s.View() == M.Deliver(old(s.View()), result.text)
      ensures old(open) && result.Line? && result.text == "" ==>
                View() == M.StartRead(if old(queue) == [] then M.Enqueue(old(View()), "\n") else old(View()), now)
    {
      if !open { return; }
      if result.Line? {
        if result.text != "" {
          channel.Deliver(result.text);
        } else if queue == [] {
          queue := queue + ["\n"];
          SetWake(NegInfinity);
        }
        StartRead(now);
      } else {
        Stop();
      }
    }

    method AwaitOutput(now: int)
      modifies this`wake, this`output, this`writes, this`ready, this`writeAt
      ensures View() == M.AwaitOn(old(View()), now)
    {
      if !open { return; }
      if queue == [] {
        SetWake(PosInfinity);
        wake := wake.(waits := wake.waits + 1);
      } else {
        StartWrite(now);
      }
    }

    method StartWrite(now: int)
      requires queue != []
      modifies this`output, this`writes, this`ready, this`writeAt
      ensures View() == M.StartWrite(old(View()), now)
    {
      SetOutput(At(now + M.SECONDS));
      writes := writes + [queue[0]];
      writeAt := writeAt + [now];
    }

    method HandleWrite(result: M.WriteResult, now: int)
      requires open ==> queue != []
      modifies this, channel`subscribers
      ensures !old(open) ==> View() == old(View()) && channel.subscribers == old(channel.subscribers)
      ensures old(open) && result.ok ==>
                View() == M.Sent(old(View()), result.message, now) && channel.subscribers == old(channel.subscribers)
      ensures old(open) && !result.ok ==>
                && channel.subscribers == old(channel.subscribers) - {this}
                && View() == M.Shut(old(View()).(left := if this in old(channel.subscribers) then |channel.log|
                                                         else old(left)))
    {
      if !open { return; }
      if result.ok {
        queue := queue[1..];
        written := written + [result.message];
        AwaitOutput(now);
      } else {
        Stop();
      }
    }

    /** `checkInput` tells which of the two deadlines the actor watches. */
    method CheckDeadline(checkInput: bool, now: int)
      modifies this, channel`subscribers
      ensures var s := old(View());
              var stops := s.open && Passed(if checkInput then s.input.expiry else s.output.expiry, now);
              && channel.subscribers == (if stops then old(channel.subscribers) - {this} else old(channel.subscribers))
              && View() == if stops then
                             M.Shut(s.(left := if this in old(channel.subscribers) then |channel.log| else s.left))
                           else if !s.open then s
                           else if checkInput then s.(input := s.input.(waits := s.input.waits + 1))
                           else s.(output := s.output.(waits := s.output.waits + 1))
    {
      if !open { return; }
      if Passed(if checkInput then input.expiry else output.expiry, now) {
        Stop();
      } else if checkInput {
        input := input.(waits := input.waits + 1);
      } else {
        output := output.(waits := output.waits + 1);
      }
    }
  }

  /** The server: the channel, and every session accepted so far. */
  class Server {
    const channel: Channel
    var sessions: seq<TcpSession>

    /** The objects are in the state `w` of the model. */
    ghost predicate Abstracts(w: M.World)
      reads this, channel, sessions
    {
      && |w.sessions| == |sessions|
      && (forall i, j | 0 <= i < j < |sessions| :: sessions[i] != sessions[j])
      && (forall i | 0 <= i < |sessions| :: sessions[i].channel == channel && sessions[i].View() == w.sessions[i])
      && channel.log == w.log
      && (forall i | i in w.members :: i < |sessions|)
      && (forall i | 0 <= i < |sessions| :: i in w.members <==> sessions[i] in channel.subscribers)
      && (forall s | s in channel.subscribers :: s in sessions)
    }

    constructor ()
      ensures fresh(channel) && Abstracts(M.INITIAL)
    {
      channel := new Channel();
      sessions := [];
    }

    method HandleAccept(ghost w: M.World, now: int)
      requires Abstracts(w) && w.now == now
      modifies this`sessions, channel`subscribers
      ensures Abstracts(M.Step(w, M.Accepted))
    {
      var s := new TcpSession(channel, now);
      s.Start(now);
      sessions := sessions + [s];
      forall j | 0 <= j < |sessions|
        ensures sessions[j].channel == channel && sessions[j].View() == M.Start(w).sessions[j]
      {
        assert j < |w.sessions| ==> sessions[j] == old(sessions)[j];
      }
    }

    /** Take a ready handler of session `i` and run it. */
    method RunHandler(i: nat, h: M.Handler, now: int, ghost w: M.World)
      requires Abstracts(w) && M.Inv(w) && w.now == now && M.Enabled(w, M.Run(i, h))
      modifies sessions, channel
      ensures Abstracts(M.Step(w, M.Run(i, h)))
    {
      var ready := sessions[i].ready;
      ghost var v := Take(i, h, w);
      ghost var w' := M.Step(w, M.Run(i, h));
      match h
      case HandleRead(k) =>
        assert w' == M.OnRead(v, i, ready.read[k]);
        RunRead(i, ready.read[k], now, v);
      case HandleWrite(k) =>
        assert w' == M.OnWrite(v, i, ready.write[k]);
        if w.sessions[i].open {
          M.WriterHasFront(w, i, k);
        }
        RunWrite(i, ready.write[k], now, v);
      case AwaitOutput => RunAwait(i, now, v);
      case CheckInput => RunCheckInput(i, now, v);
      case CheckOutput => RunCheckOutput(i, now, v);
    }

    method Take(i: nat, h: M.Handler, ghost w: M.World) returns (ghost v: M.World)
      requires Abstracts(w) && M.Enabled(w, M.Run(i, h))
      modifies sessions
      ensures v == M.Update(w, i, w.sessions[i].(ready := M.Taken(w.sessions[i].ready, h)))
      ensures Abstracts(v)
    {
      sessions[i].ready := M.Taken(sessions[i].ready, h);
      v := M.Update(w, i, w.sessions[i].(ready := M.Taken(w.sessions[i].ready, h)));
    }

    method RunWrite(i: nat, result: M.WriteResult, now: int, ghost w: M.World)
      requires Abstracts(w) && w.now == now && i < |sessions| && (sessions[i].open ==> sessions[i].queue != [])
      modifies sessions, channel
      ensures Abstracts(M.OnWrite(w, i, result))
    {
      sessions[i].HandleWrite(result, now);
    }

    method RunAwait(i: nat, now: int, ghost w: M.World)
      requires Abstracts(w) && w.now == now && i < |sessions|
      modifies sessions
      ensures Abstracts(M.Update(w, i, M.AwaitOn(w.sessions[i], now)))
    {
      sessions[i].AwaitOutput(now);
    }

    method RunCheckInput(i: nat, now: int, ghost w: M.World)
      requires Abstracts(w) && w.now == now && i < |sessions|
      modifies sessions, channel
      ensures Abstracts(M.OnCheckInput(w, i))
    {
      sessions[i].CheckDeadline(true, now);
    }

    method RunCheckOutput(i: nat, now: int, ghost w: M.World)
      requires Abstracts(w) && w.now == now && i < |sessions|
      modifies sessions, channel
      ensures Abstracts(M.OnCheckOutput(w, i))
    {
      sessions[i].CheckDeadline(false, now);
    }

    method RunRead(i: nat, result: ReadResult, now: int, ghost w: M.World)
      requires Abstracts(w) && w.now == now && i < |sessions|
      modifies sessions, channel
      ensures Abstracts(M.OnRead(w, i, result))
    {
      if result.Line? && result.text != "" {
        RunMessage(i, result, now, w);
      } else {
        sessions[i].HandleRead(result, now);
      }
    }

    method RunMessage(i: nat, result: ReadResult, now: int, ghost w: M.World)
      requires Abstracts(w) && w.now == now && i < |sessions| && result.Line? && result.text != ""
      modifies sessions, channel
      ensures Abstracts(M.OnRead(w, i, result))
    {
      ghost var v := M.OnRead(w, i, result);
      sessions[i].HandleRead(result, now);
      forall j | 0 <= j < |sessions|
        ensures sessions[j].channel == channel && sessions[j].View() == v.sessions[j]
      {
        assert old(sessions[j].View()) == w.sessions[j];
        if j != i {
          assert sessions[j] != sessions[i];
          if j !in w.members {
            assert sessions[j] !in old(channel.subscribers);
          }
        }
      }
    }
  }
}
