/** The chat room and chat session objects, each handler proved to take the step of the model it stands for. */
module ChatServer {
  import opened ChatMessage
  import M = ChatModel

  class ChatRoom {
    var participants: set<ChatSession>
    var recent: seq<Message>
    ghost var log: seq<Message>

    constructor ()
      ensures participants == {} && recent == [] && log == []
    {
      participants, recent, log := {}, [], [];
    }

    method Join(p: ChatSession)
      requires p !in participants && p.queue == [] && p.writes == []
      modifies this`participants, p
      ensures participants == old(participants) + {p}
      ensures p.View() == M.DeliverAll(old(p.View()).(joined := |log|), recent)
    {
      participants := participants + {p};
      p.joined := |log|;
      ghost var start := p.View();
      for i := 0 to |recent|
        modifies p
        invariant p.View() == M.DeliverAll(start, recent[..i])
      {
        p.Deliver(recent[i]);
        assert recent[..i + 1][..i] == recent[..i];
      }
      assert recent[..|recent|] == recent;
    }

    method Leave(p: ChatSession)
      modifies this`participants, p`left
      ensures participants == old(participants) - {p}
      ensures p.left == if p in old(participants) then |log| else old(p.left)
    {
      if p in participants {
        p.left := |log|;
      }
      participants := participants - {p};
    }

    method Deliver(m: Message)
      modifies this`recent, this`log, participants
      ensures recent == M.Trim(old(recent) + [m]) && log == old(log) + [m]
      ensures forall p | p in participants :: p.View() == M.DeliverTo(old(p.View()), m)
    {
      Remember(m);
      DeliverToAll(m);
    }

    method DeliverToAll(m: Message)
      modifies participants
      ensures forall p | p in participants :: p.View() == M.DeliverTo(old(p.View()), m)
    {
      var todo := participants;
      while todo != {}
        invariant todo <= participants
        invariant forall p | p in todo :: p.View() == old(p.View())
        invariant forall p | p in participants - todo :: p.View() == M.DeliverTo(old(p.View()), m)
      {
        var p :| p in todo;
        p.Deliver(m);
        todo := todo - {p};
      }
    }

    method Remember(m: Message)
      modifies this`recent, this`log
      ensures recent == M.Trim(old(recent) + [m]) && log == old(log) + [m]
    {
      log := log + [m];
      recent := recent + [m];
      while |recent| > M.MAX_RECENT
        modifies this`recent
        invariant M.Trim(recent) == M.Trim(old(recent) + [m])
      {
        recent := recent[1..];
      }
    }
  }

  class ChatSession {
    const room: ChatRoom
    var reading: M.Reading
    var queue: seq<Message>
    /** The outstanding write operations of the socket. */
    var writes: seq<Message>
    ghost var written: seq<Message>
    ghost var failed: bool
    ghost var joined: nat
    ghost var left: nat

    constructor (room: ChatRoom)
      ensures this.room == room
      ensures queue == [] && writes == [] && written == [] && !failed && left == 0
    {
      this.room := room;
      reading, queue, writes, written, failed, joined, left := M.Stopped, [], [], [], false, 0, 0;
    }

    ghost function View(): M.Session
      reads this
    {
      M.Session(reading, queue, writes, written, failed, joined, left)
    }

    method Deliver(m: Message)
      modifies this`queue, this`writes
      ensures View() == M.DeliverTo(old(View()), m)
    {
      var writeInProgress := queue != [];
      queue := queue + [m];
      if !writeInProgress {
        writes := writes + [queue[0]];
      }
    }

    method Start()
      requires this !in room.participants && queue == [] && writes == []
      modifies this, room`participants
      ensures room.participants == old(room.participants) + {this}
      ensures View() == M.DeliverAll(old(View()).(joined := |room.log|, reading := M.Header), room.recent)
    {
      ghost var start := View().(joined := |room.log|);
      M.DeliverAllQueue(start, room.recent);
      M.DeliverAllQueue(start.(reading := M.Header), room.recent);
      room.Join(this);
      reading := M.Header;
    }

    /** `bytes` is what was read into the header part of the message buffer. */
    method HandleReadHeader(error: bool, bytes: string)
      modifies this`reading, this`left, room`participants
      ensures if !error && DecodedLength(bytes).Some?
              then reading == M.Body(bytes) && room.participants == old(room.participants) && left == old(left)
              else reading == M.Stopped && room.participants == old(room.participants) - {this}
                   && left == if this in old(room.participants) then |room.log| else old(left)
    {
      if !error && DecodedLength(bytes).Some? {
        reading := M.Body(bytes);
      } else {
        room.Leave(this);
        reading := M.Stopped;
      }
    }

    method HandleReadBody(error: bool, bytes: string)
      requires reading.Body?
      modifies this, room, room.participants
      ensures !error ==>
                var m := Message(old(reading.header), bytes);
                && room.participants == old(room.participants)
                && room.recent == M.Trim(old(room.recent) + [m]) && room.log == old(room.log) + [m]
                && (forall p | p in room.participants && p != this ::
                      p.View() == M.DeliverTo(old(p.View()), m))
                && View() == (if this in room.participants then M.DeliverTo(old(View()), m)
                              else old(View())).(reading := M.Header)
      ensures error ==>
                && room.participants == old(room.participants) - {this}
                && room.recent == old(room.recent) && room.log == old(room.log)
                && (forall p | p in old(room.participants) && p != this :: p.View() == old(p.View()))
                && View() == old(View()).(reading := M.Stopped,
                                          left := if this in old(room.participants) then |room.log| else old(left))
    {
      if !error {
        room.Deliver(Message(reading.header, bytes));
        reading := M.Header;
      } else {
        room.Leave(this);
        reading := M.Stopped;
      }
    }

    /** Completion of the outstanding write `op`. */
    method HandleWrite(op: nat, error: bool)
      requires op < |writes| && queue != []
      modifies this, room`participants
      ensures var done := old(View()).(writes := old(writes)[..op] + old(writes)[op + 1..]);
              if !error then View() == M.FinishWrite(done) && room.participants == old(room.participants)
              else && room.participants == old(room.participants) - {this}
                   && View() == done.(failed := true,
                                      left := if this in old(room.participants) then |room.log| else old(left))
    {
      writes := writes[..op] + writes[op + 1..];
      if !error {
        written := written + [queue[0]];
        queue := queue[1..];
        if queue != [] {
          writes := writes + [queue[0]];
        }
      } else {
        failed := true;
        room.Leave(this);
      }
    }
  }

  /** The server: the room, and every session accepted so far. */
  class Server {
    const room: ChatRoom
    var sessions: seq<ChatSession>

    /** The objects are in the state `w` of the model. */
    ghost predicate Abstracts(w: M.World)
      reads this, room, sessions
    {
      && |w.sessions| == |sessions|
      && (forall i, j | 0 <= i < j < |sessions| :: sessions[i] != sessions[j])
      && (forall i | 0 <= i < |sessions| :: sessions[i].room == room && sessions[i].View() == w.sessions[i])
      && room.recent == w.room.recent && room.log == w.room.log
      && (forall i | i in w.room.participants :: i < |sessions|)
      && (forall i | 0 <= i < |sessions| :: i in w.room.participants <==> sessions[i] in room.participants)
      && (forall p | p in room.participants :: p in sessions)
    }

    constructor ()
      ensures fresh(room) && Abstracts(M.INITIAL)
    {
      room := new ChatRoom();
      sessions := [];
    }

    method HandleAccept(ghost w: M.World)
      requires Abstracts(w)
      modifies this`sessions, room`participants
      ensures Abstracts(M.Step(w, M.Accepted))
    {
      var s := new ChatSession(room);
      s.Start();
      sessions := sessions + [s];
      forall j | 0 <= j < |sessions|
        ensures sessions[j].room == room && sessions[j].View() == M.Start(w).sessions[j]
      {
        assert j < |w.sessions| ==> sessions[j] == old(sessions)[j];
      }
    }

    method HandleReadHeader(i: nat, error: bool, bytes: string, ghost w: M.World)
      requires Abstracts(w) && M.Enabled(w, M.ReadHeader(i, error, bytes))
      modifies sessions, room
      ensures Abstracts(M.Step(w, M.ReadHeader(i, error, bytes)))
    {
      sessions[i].HandleReadHeader(error, bytes);
    }

    method HandleReadBody(i: nat, error: bool, bytes: string, ghost w: M.World)
      requires Abstracts(w) && M.Enabled(w, M.ReadBody(i, error, bytes))
      modifies sessions, room
      ensures Abstracts(M.Step(w, M.ReadBody(i, error, bytes)))
    {
      if error {
        sessions[i].HandleReadBody(true, bytes);
      } else {
        BodyArrived(i, bytes, w);
      }
    }

    method BodyArrived(i: nat, bytes: string, ghost w: M.World)
      requires Abstracts(w) && M.Enabled(w, M.ReadBody(i, false, bytes))
      modifies sessions, room
      ensures Abstracts(M.Step(w, M.ReadBody(i, false, bytes)))
    {
      ghost var v := M.Step(w, M.ReadBody(i, false, bytes));
      assert sessions[i].View() == w.sessions[i];
      sessions[i].HandleReadBody(false, bytes);
      forall j | 0 <= j < |sessions|
        ensures sessions[j].room == room && sessions[j].View() == v.sessions[j]
      {
        assert old(sessions[j].View()) == w.sessions[j];
        if j != i {
          assert sessions[j] != sessions[i];
          if j !in w.room.participants {
            assert sessions[j] !in room.participants;
          }
        }
      }
    }

    method HandleWrite(i: nat, op: nat, error: bool, ghost w: M.World)
      requires Abstracts(w) && M.Inv(w) && M.Enabled(w, M.Wrote(i, op, error))
      modifies sessions, room
      ensures Abstracts(M.Step(w, M.Wrote(i, op, error)))
    {
      assert M.SessionOk(w.room, i, w.sessions[i]);
      sessions[i].HandleWrite(op, error);
    }
  }
}
