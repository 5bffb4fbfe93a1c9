/** The session and connection objects of the non-blocking echo server, each handler proved to take the step of
    the model it stands for. What the socket gives to a read, and takes from a write, are parameters. */
module EchoServer {
  import opened EchoModel
  import Asio

  class LibrarySession {
    const data: array<char>
    var state: Direction
    /** The part of `data` still to be written. */
    var at: nat
    var size: nat

    constructor ()
      ensures fresh(data) && data.Length == CAPACITY && state == Reading && at == 0 && size == 0
    {
      data := new char[CAPACITY];
      state, at, size := Reading, 0, 0;
    }

    function View(): Session
      reads this, data
    {
      Session(state, data[..], at, size)
    }

    /** The socket fills the beginning of the buffer. */
    method ReadSome(bytes: string)
      requires |bytes| <= data.Length
      modifies data
      ensures data[..] == Overwritten(old(data[..]), bytes)
    {
      for i := 0 to |bytes|
        invariant forall j | 0 <= j < i :: data[j] == bytes[j]
        invariant forall j | i <= j < data.Length :: data[j] == old(data[j])
      {
        data[i] := bytes[i];
      }
    }

    method DoRead(bytes: string)
      requires |bytes| <= data.Length
      modifies this, data
      ensures View() == EchoModel.DoRead(old(View()), bytes)
    {
      ReadSome(bytes);
      if |bytes| > 0 {
        at, size := 0, |bytes|;
        state := Writing;
      } else {
        assert data[..] == old(data[..]);
      }
    }

    method DoWrite(count: nat)
      requires count <= size
      modifies this
      ensures View() == EchoModel.DoWrite(old(View()), count)
    {
      if count > 0 {
        at, size := at + count, size - count;
        state := if size > 0 then Writing else Reading;
      }
    }
  }

  class EchoConnection {
    const session: LibrarySession
    var readInProgress: bool
    var writeInProgress: bool
    /** The socket: whether it is open, the outstanding waits on it, and the completed ones. */
    var open: bool
    var readWaits: nat
    var writeWaits: nat
    var readyReads: seq<Error>
    var readyWrites: seq<Error>
    ghost var received: string
    ghost var sent: string

    constructor ()
      ensures fresh(session) && fresh(session.data) && Fresh(View())
    {
      session := new LibrarySession();
      readInProgress, writeInProgress := false, false;
      open, readWaits, writeWaits, readyReads, readyWrites := true, 0, 0, [], [];
      received, sent := "", "";
    }

    ghost function View(): Connection
      reads this, session, session.data
    {
      Connection(open, session.View(), readInProgress, writeInProgress, readWaits, writeWaits,
                 readyReads, readyWrites, received, sent)
    }

    method StartOperations()
      modifies this
      ensures View() == EchoModel.StartOperations(old(View()))
    {
      if session.state == Reading && !readInProgress {
        readInProgress := true;
        readWaits := readWaits + 1;
      }
      if session.state == Writing && !writeInProgress {
        writeInProgress := true;
        writeWaits := writeWaits + 1;
      }
    }

    method Close()
      modifies this
      ensures View() == EchoModel.Close(old(View()))
    {
      readyReads, readyWrites := readyReads + Failures(readWaits), readyWrites + Failures(writeWaits);
      open, readWaits, writeWaits := false, 0, 0;
    }

    /** Run the ready read handler `k`. */
    method HandleRead(k: nat, bytes: string, error: Error)
      requires Enabled(View(), RunRead(k, bytes, error))
      modifies this, session, session.data
      ensures View() == Step(old(View()), RunRead(k, bytes, error))
    {
      var ec := readyReads[k];
      readyReads := Asio.Without(readyReads, k);
      readInProgress := false;
      if ec.Success? {
        session.DoRead(bytes);
        received := received + bytes;
        ec := error;
      }
      if ec.Success? || ec.WouldBlock? {
        StartOperations();
      } else {
        Close();
      }
    }

    /** Run the ready write handler `k`. */
    method HandleWrite(k: nat, count: nat, error: Error)
      requires Enabled(View(), RunWrite(k, count, error))
      modifies this, session
      ensures View() == Step(old(View()), RunWrite(k, count, error))
    {
      var ec := readyWrites[k];
      readyWrites := Asio.Without(readyWrites, k);
      writeInProgress := false;
      if ec.Success? {
        sent := sent + Unsent(session.View())[..count];
        session.DoWrite(count);
        ec := error;
      }
      if ec.Success? || ec.WouldBlock? {
        StartOperations();
      } else {
        Close();
      }
    }
  }
}
