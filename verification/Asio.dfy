/** Timers and results of the asynchronous library, as the models of the timeout programs use them. */
module Asio {

  datatype Expiry = NegInfinity | At(time: int) | PosInfinity

  predicate Passed(x: Expiry, now: int) {
    x.NegInfinity? || (x.At? && x.time <= now)
  }

  datatype Timer = Timer(expiry: Expiry, waits: nat)

  /** At the given time the waits on the timer, if any, are not overdue. */
  predicate NotOverdue(t: Timer, time: int) {
    t.waits > 0 ==> t.expiry.PosInfinity? || (t.expiry.At? && time <= t.expiry.time)
  }

  datatype ReadResult = Line(text: string) | ReadError

  function Errors(n: nat): seq<ReadResult> {
    seq(n, i => ReadError)
  }

  function Without<T>(s: seq<T>, i: nat): seq<T>
    requires i < |s|
  {
    s[..i] + s[i + 1..]
  }
}
