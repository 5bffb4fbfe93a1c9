/** The client object, each handler proved to take the step of the model it stands for. */
module AsyncClient {
  import T = Asio
  import M = ClientModel

  class Client {
    const endpoints: nat
    var stopped: bool
    var open: bool
    var deadline: T.Timer
    var heartbeat: T.Timer
    /** What the asynchronous library holds for the client: outstanding operations and ready handlers. */
    var connects: seq<nat>
    var readings: nat
    var writings: nat
    var ready: M.Handlers
    ghost var tried: seq<nat>
    ghost var since: int
    ghost var limit: int
    ghost var readers: nat
    ghost var heartbeats: nat
    ghost var beatAt: seq<int>

    ghost function View(): M.Client
      reads this
    {
      M.Client(endpoints, stopped, open, deadline, heartbeat, connects, readings, writings, ready,
               tried, since, limit, readers, heartbeats, beatAt)
    }

    /** The timers are created without an expiry: `unset` stands for whatever they hold. */
    constructor (endpoints: nat, unset: T.Expiry)
      ensures forall now :: M.Initial(M.State(now, false, View()))
      ensures this.endpoints == endpoints
    {
      this.endpoints := endpoints;
      stopped, open := false, false;
      deadline, heartbeat := T.Timer(unset, 0), T.Timer(unset, 0);
      connects, readings, writings, ready := [], 0, 0, M.Handlers([], [], [], 0, 0);
      tried, readers, heartbeats, beatAt := [], 0, 0, [];
    }

    method SetDeadline(x: T.Expiry)
      modifies this`deadline, this`ready
      ensures View() == M.SetDeadline(old(View()), x)
    {
      ready := ready.(check := ready.check + deadline.waits);
      deadline := T.Timer(x, 0);
    }

    method SetHeartbeat(x: T.Expiry)
      modifies this`heartbeat, this`ready
      ensures View() == M.SetHeartbeat(old(View()), x)
    {
      ready := ready.(beat := ready.beat + heartbeat.waits);
      heartbeat := T.Timer(x, 0);
    }

    method Close()
      modifies this`open, this`connects, this`readings, this`writings, this`ready
      ensures View() == M.Close(old(View()))
    {
      open := false;
      ready := ready.(connect := ready.connect + M.Refused(connects), read := ready.read + T.Errors(readings),
                      write := ready.write + seq(writings, i => false));
      connects, readings, writings := [], 0, 0;
    }

    method Start(now: int)
      modifies this
      ensures View() == M.Start(old(View()), now)
    {
      StartConnect(0, now);
      deadline := deadline.(waits := deadline.waits + 1);
    }

    method Stop()
      modifies this`stopped, this`open, this`connects, this`readings, this`writings, this`ready
      modifies this`deadline, this`heartbeat
      ensures View() == M.Stop(old(View()))
    {
      stopped := true;
      Close();
      SetDeadline(deadline.expiry);
      SetHeartbeat(heartbeat.expiry);
    }

    method StartConnect(endpoint: nat, now: int)
      modifies this
      ensures View() == M.StartConnect(old(View()), endpoint, now)
    {
      if endpoint < endpoints {
        SetDeadline(T.At(now + M.CONNECT_LIMIT));
        open := true;
        connects := connects + [endpoint];
        tried, since, limit := tried + [endpoint], now, M.CONNECT_LIMIT;
      } else {
        Stop();
      }
    }

    method HandleConnect(result: M.ConnectResult, now: int)
      modifies this
      ensures View() == M.OnConnect(old(View()), result, now)
    {
      if stopped { return; }
      if !open {
        StartConnect(result.endpoint + 1, now);
      } else if !result.ok {
        Close();
        StartConnect(result.endpoint + 1, now);
      } else {
        StartRead(now);
        StartWrite(now);
        readers, heartbeats := readers + 1, heartbeats + 1;
      }
    }

    method StartRead(now: int)
      modifies this`deadline, this`ready, this`readings, this`since, this`limit
      ensures View() == M.StartRead(old(View()), now)
    {
      SetDeadline(T.At(now + M.READ_LIMIT));
      since, limit := now, M.READ_LIMIT;
      if open {
        readings := readings + 1;
      } else {
        ready := ready.(read := ready.read + [T.ReadError]);
      }
    }

    method HandleRead(result: T.ReadResult, now: int)
      modifies this
      ensures View() == M.OnRead(old(View()), result, now)
    {
      if stopped { return; }
      if result.Line? {
        StartRead(now);
      } else {
        Stop();
      }
    }

    method StartWrite(ghost now: int)
      modifies this`writings, this`ready, this`beatAt
      ensures View() == M.StartWrite(old(View()), now)
    {
      if stopped { return; }
      beatAt := beatAt + [now];
      if open {
        writings := writings + 1;
      } else {
        ready := ready.(write := ready.write + [false]);
      }
    }

    method HandleWrite(ok: bool, now: int)
      modifies this
      ensures View() == M.OnWrite(old(View()), ok, now)
    {
      if stopped { return; }
      if ok {
        SetHeartbeat(T.At(now + M.HEARTBEAT));
        heartbeat := heartbeat.(waits := heartbeat.waits + 1);
      } else {
        Stop();
      }
    }

    method CheckDeadline(now: int)
      modifies this
      ensures View() == M.OnCheck(old(View()), now)
    {
      if stopped { return; }
      if T.Passed(deadline.expiry, now) {
        Close();
        SetDeadline(T.PosInfinity);
      }
      deadline := deadline.(waits := deadline.waits + 1);
    }

    /** Take a ready handler and run it. */
    method RunHandler(h: M.Call, now: int)
      requires M.IsReadyCall(ready, h)
      modifies this
      ensures View() == M.Handled(old(View()), h, now)
    {
      var handlers := ready;
      ready := M.TakenCall(ready, h);
      match h
      case HandleConnect(k) => HandleConnect(handlers.connect[k], now);
      case HandleRead(k) => HandleRead(handlers.read[k], now);
      case HandleWrite(k) => HandleWrite(handlers.write[k], now);
      case CheckDeadline => CheckDeadline(now);
      case Beat => StartWrite(now);
    }
  }
}
