/** The pinger: echo requests paced by one timer that is used for two waits and may be cancelled by replies. */
module Ping {
  import opened IcmpChecksum

  /** Times are in microseconds. */
  const SECOND := 1_000_000

  /** `timeouts` and `sends` are the waits on the timer for `handle_timeout` and for `start_send`, outstanding and
      ready to run. `sent` and `cancels` are history: when each request was sent, and how often a reply has
      cancelled the timer since the last one. */
  datatype Pinger = Pinger(sequence: Word, timeSent: int, replies: nat, expiry: int,
                           timeouts: nat, sends: nat, readyTimeouts: nat, readySends: nat,
                           sent: seq<int>, cancels: nat)

  datatype State = State(now: int, pinger: Pinger)

  datatype Event = Pass(to: int) | Fires | Timeout | Send | Reply(number: Word)

  // ----- the handlers --------------------------------------------------------------------------------------

  /** The waits on the timer become ready: its expiry was changed, or it was cancelled, or it fired. */
  function Wake(p: Pinger): Pinger {
    p.(timeouts := 0, sends := 0, readyTimeouts := p.readyTimeouts + p.timeouts, readySends := p.readySends + p.sends)
  }

  /** 16-bit increment. */
  function Increment(n: Word): Word {
    if n == MAX then 0 else n + 1
  }

  function StartSend(p: Pinger, now: int): Pinger {
    var q := Wake(p).(sequence := Increment(p.sequence), timeSent := now, replies := 0, expiry := now + 5 * SECOND,
                      sent := p.sent + [now], cancels := 0);
    q.(timeouts := q.timeouts + 1)
  }

  function HandleTimeout(p: Pinger): Pinger {
    var q := Wake(p).(expiry := p.timeSent + SECOND);
    q.(sends := q.sends + 1)
  }

  /** An echo reply with our identifier: only the one to the current request counts, and only the first of those
      cancels the timer. */
  function HandleReply(p: Pinger, number: Word): Pinger {
    if number != p.sequence then p
    else if p.replies == 0 then Wake(p).(replies := 1, cancels := p.cancels + 1)
    else p.(replies := p.replies + 1)
  }

  /** A new pinger has sent its first request at once. */
  ghost predicate Initial(s: State) {
    exists p :: IsNew(p) && s.pinger == StartSend(p, s.now)
  }

  predicate IsNew(p: Pinger) {
    && p.sequence == 0 && p.sent == []
    && p.timeouts == 0 && p.sends == 0 && p.readyTimeouts == 0 && p.readySends == 0
  }

  /** The clock does not run backwards, and a timer does not fire early. */
  predicate Enabled(s: State, e: Event) {
    match e
    case Pass(to) => s.now <= to
    case Fires => s.pinger.timeouts + s.pinger.sends > 0 && s.pinger.expiry <= s.now
    case Timeout => s.pinger.readyTimeouts > 0
    case Send => s.pinger.readySends > 0
    case Reply(number) => true
  }

  function Step(s: State, e: Event): State
    requires Enabled(s, e)
  {
    var p := s.pinger;
    match e
    case Pass(to) => s.(now := to)
    case Fires => s.(pinger := Wake(p))
    case Timeout => s.(pinger := HandleTimeout(p.(readyTimeouts := p.readyTimeouts - 1)))
    case Send => s.(pinger := StartSend(p.(readySends := p.readySends - 1), s.now))
    case Reply(number) => s.(pinger := HandleReply(p, number))
  }

  predicate StepAt(run: seq<State>, events: seq<Event>, n: nat) {
    n < |events| < |run| && Enabled(run[n], events[n]) && run[n + 1] == Step(run[n], events[n])
  }

  ghost predicate IsRun(run: seq<State>, events: seq<Event>) {
    && |run| == |events| + 1
    && Initial(run[0])
    && forall n: nat | n < |events| :: StepAt(run, events, n)
  }

  // ----- what every step keeps -----------------------------------------------------------------------------

  /** Any two requests are at least as many seconds apart as there are from one to the other. */
  predicate Paced(sent: seq<int>) {
    forall k, l | 0 <= k < l < |sent| :: sent[k] + (l - k) * SECOND <= sent[l]
  }

  /** One continuation exists; until the current request has been answered, it is at least five seconds before
      the timeout handler runs, and then and otherwise at least one second before the next request. */
  predicate Inv(s: State) {
    var p := s.pinger;
    && p.timeouts + p.sends + p.readyTimeouts + p.readySends == 1
    && p.sent != [] && p.sent[|p.sent| - 1] == p.timeSent && Paced(p.sent)
    && p.cancels == (if p.replies == 0 then 0 else 1)
    && (p.timeouts == 1 ==> p.expiry == p.timeSent + 5 * SECOND && p.replies == 0)
    && (p.timeouts == 0 && p.replies == 0 ==> p.timeSent + 5 * SECOND <= s.now)
    && (p.sends == 1 ==> p.expiry == p.timeSent + SECOND)
    && (p.readySends == 1 ==> p.timeSent + SECOND <= s.now)
  }

  lemma StepKeepsInv(s: State, e: Event)
    requires Inv(s) && Enabled(s, e)
    ensures Inv(Step(s, e))
  {}

  lemma StepAtKeepsInv(run: seq<State>, events: seq<Event>, n: nat)
    requires StepAt(run, events, n) && Inv(run[n])
    ensures Inv(run[n + 1])
  {
    StepKeepsInv(run[n], events[n]);
  }

  lemma InitialInv(s: State)
    requires Initial(s)
    ensures Inv(s)
  {
    var p :| IsNew(p) && s.pinger == StartSend(p, s.now);
  }

  lemma {:induction false} RunKeepsInv(run: seq<State>, events: seq<Event>, n: nat)
    requires IsRun(run, events) && n <= |events|
    ensures Inv(run[n])
  {
    if n == 0 {
      InitialInv(run[0]);
    } else {
      RunKeepsInv(run, events, n - 1);
      StepAtKeepsInv(run, events, n - 1);
    }
  }

  // ----- told from the events ------------------------------------------------------------------------------

  /** The requests sent before the event with the given index: the first, and one for each `Send`. */
  function Requests(events: seq<Event>, n: nat): nat
    requires n <= |events|
  {
    if n == 0 then 1 else Requests(events, n - 1) + (if events[n - 1].Send? then 1 else 0)
  }

  /** The point of the run right after the last of them. */
  function LastRequest(events: seq<Event>, n: nat): (k: nat)
    requires n <= |events|
    ensures k <= n && (k > 0 ==> events[k - 1].Send?) && forall m | k <= m < n :: !events[m].Send?
  {
    if n == 0 || events[n - 1].Send? then n else LastRequest(events, n - 1)
  }

  /** When they were sent. */
  function SentAt(run: seq<State>, events: seq<Event>, n: nat): seq<int>
    requires n <= |events| < |run|
  {
    if n == 0 then [run[0].now]
    else SentAt(run, events, n - 1) + (if events[n - 1].Send? then [run[n - 1].now] else [])
  }

  /** The event is a reply to the last request, which carries its own number modulo 65536. */
  predicate IsAnswer(events: seq<Event>, n: nat)
    requires n < |events|
  {
    events[n].Reply? && events[n].number == Requests(events, n) % 65536
  }

  /** How many replies to it have come since it was sent. */
  function Answers(events: seq<Event>, n: nat): nat
    requires n <= |events|
  {
    if n == 0 || events[n - 1].Send? then 0
    else Answers(events, n - 1) + (if IsAnswer(events, n - 1) then 1 else 0)
  }

  lemma {:induction false} AnsweredIff(events: seq<Event>, n: nat)
    requires n <= |events|
    ensures Answers(events, n) > 0 <==> exists m | LastRequest(events, n) <= m < n :: IsAnswer(events, m)
  {
    if n == 0 || events[n - 1].Send? {
    } else {
      AnsweredIff(events, n - 1);
      var k := LastRequest(events, n);
      if Answers(events, n - 1) > 0 {
        var m :| k <= m < n - 1 && IsAnswer(events, m);
        assert k <= m < n;
      }
    }
  }

  /** What the pinger records is what happened. */
  predicate OfTheRun(run: seq<State>, events: seq<Event>, n: nat)
    requires n <= |events| < |run|
  {
    var p := run[n].pinger;
    && p.sequence == Requests(events, n) % 65536 && p.replies == Answers(events, n)
    && p.sent == SentAt(run, events, n) && p.timeSent == run[LastRequest(events, n)].now
  }

  lemma IncrementModulo(n: Word, k: nat)
    requires n == k % 65536
    ensures Increment(n) == (k + 1) % 65536
  {}

  lemma OfTheRunStep(run: seq<State>, events: seq<Event>, n: nat)
    requires StepAt(run, events, n) && OfTheRun(run, events, n)
    ensures OfTheRun(run, events, n + 1)
  {
    IncrementModulo(run[n].pinger.sequence, Requests(events, n));
  }

  lemma OfTheRunStart(run: seq<State>, events: seq<Event>)
    requires IsRun(run, events)
    ensures OfTheRun(run, events, 0)
  {
    var p :| IsNew(p) && run[0].pinger == StartSend(p, run[0].now);
    IncrementModulo(p.sequence, 0);
  }

  /** Every request carries its number modulo 65536, and the replies counted are those that carry the number of the
      last request and came after it was sent. */
  lemma {:induction false} RunIsOfTheEvents(run: seq<State>, events: seq<Event>, n: nat)
    requires IsRun(run, events) && n <= |events|
    ensures OfTheRun(run, events, n)
  {
    if n == 0 {
      OfTheRunStart(run, events);
    } else {
      RunIsOfTheEvents(run, events, n - 1);
      assert StepAt(run, events, n - 1);
      OfTheRunStep(run, events, n - 1);
    }
  }

  /** Requests are sent no less than one second apart, whatever replies arrive and whenever: matching, late or
      repeated; and the timer of a request is cancelled by at most one reply. */
  lemma RequestsArePaced(run: seq<State>, events: seq<Event>, n: nat)
    requires IsRun(run, events) && n <= |events|
    ensures var sent := SentAt(run, events, n);
            forall k, l | 0 <= k < l < |sent| :: sent[k] + (l - k) * 1_000_000 <= sent[l]
    ensures run[n].pinger.cancels <= 1
  {
    RunKeepsInv(run, events, n);
    RunIsOfTheEvents(run, events, n);
  }

  /** The first reply to the last request leaves nobody waiting: what was waited for, the timeout of the request
      above all, is ready. Every other reply leaves the waits alone, and one that does not carry the number of the
      last request changes nothing at all. */
  lemma ReplyCancels(run: seq<State>, events: seq<Event>, n: nat)
    requires IsRun(run, events) && n < |events| && events[n].Reply?
    ensures var p, q := run[n].pinger, run[n + 1].pinger;
            && (q == p <==> !IsAnswer(events, n))
            && (if IsAnswer(events, n) && Answers(events, n) == 0 then
                  && q.timeouts == 0 && q.sends == 0
                  && q.readyTimeouts == p.timeouts + p.readyTimeouts && q.readySends == p.sends + p.readySends
                else
                  && q.timeouts == p.timeouts && q.sends == p.sends
                  && q.readyTimeouts == p.readyTimeouts && q.readySends == p.readySends && q.expiry == p.expiry)
  {
    RunIsOfTheEvents(run, events, n);
    assert StepAt(run, events, n);
  }

  /** The timeout handler reports a request as timed out exactly when no reply to it has come since it was sent, and
      then it has had its five seconds. */
  lemma TimesOutAfterFiveSeconds(run: seq<State>, events: seq<Event>, n: nat)
    requires IsRun(run, events) && n <= |events| && Enabled(run[n], Timeout)
    ensures run[n].pinger.replies == 0 <==> !exists m | LastRequest(events, n) <= m < n :: IsAnswer(events, m)
    ensures run[n].pinger.replies == 0 ==> run[LastRequest(events, n)].now + 5_000_000 <= run[n].now
  {
    RunKeepsInv(run, events, n);
    RunIsOfTheEvents(run, events, n);
    AnsweredIff(events, n);
  }

  /** At every point there is exactly one continuation. While it waits, the timer is set to five seconds after the
      last request if that is unanswered and its timeout is to be handled, and to one second after it if the next
      request is to be sent. */
  lemma TimerIsExact(run: seq<State>, events: seq<Event>, n: nat)
    requires IsRun(run, events) && n <= |events|
    ensures var p, at := run[n].pinger, run[LastRequest(events, n)].now;
            && p.timeouts + p.sends + p.readyTimeouts + p.readySends == 1
            && (p.timeouts == 1 ==> p.expiry == at + 5_000_000 && Answers(events, n) == 0)
            && (p.sends == 1 ==> p.expiry == at + 1_000_000)
  {
    RunKeepsInv(run, events, n);
    RunIsOfTheEvents(run, events, n);
  }

  /** Each handler is followed by the other: a request by the wait for its timeout, and that by the wait for the next
      request. */
  lemma HandlersAlternate(run: seq<State>, events: seq<Event>, n: nat)
    requires IsRun(run, events) && n < |events|
    ensures events[n].Send? ==> run[n + 1].pinger.timeouts == 1
    ensures events[n].Timeout? ==> run[n + 1].pinger.sends == 1
  {
    RunKeepsInv(run, events, n);
    assert StepAt(run, events, n);
  }

  // ----- the pinger object ---------------------------------------------------------------------------------

  class PingerObject {
    var sequenceNumber: Word
    var timeSent: int
    var numReplies: nat
    var expiry: int
    var timeouts: nat
    var sends: nat
    var readyTimeouts: nat
    var readySends: nat
    ghost var sent: seq<int>
    ghost var cancels: nat

    ghost function View(): Pinger
      reads this
    {
      Pinger(sequenceNumber, timeSent, numReplies, expiry, timeouts, sends, readyTimeouts, readySends, sent, cancels)
    }

    /** A new pinger sends its first request at once. */
    constructor (now: int, identifier: Word, body: seq<Byte>)
      ensures Initial(State(now, View())) && sequenceNumber == 1
    {
      sequenceNumber, numReplies, timeouts, sends, readyTimeouts, readySends := 0, 0, 0, 0, 0, 0;
      sent, cancels := [], 0;
      new;
      assert IsNew(View());
      var header := SendRequest(now, identifier, body);
    }

    method WakeWaits()
      modifies this`timeouts, this`sends, this`readyTimeouts, this`readySends
      ensures View() == Wake(old(View()))
    {
      readyTimeouts, readySends := readyTimeouts + timeouts, readySends + sends;
      timeouts, sends := 0, 0;
    }

    /** Send an echo request: its header carries the new sequence number and a checksum that verifies. */
    method SendRequest(now: int, identifier: Word, body: seq<Byte>) returns (header: IcmpHeader)
      modifies this
      ensures View() == StartSend(old(View()), now)
      ensures IsRequest(header, identifier, sequenceNumber, body)
    {
      sequenceNumber := Increment(sequenceNumber);
      header := EchoRequest(identifier, sequenceNumber, body);
      timeSent := now;
      numReplies := 0;
      WakeWaits();
      expiry := timeSent + 5 * SECOND;
      timeouts := timeouts + 1;
      sent, cancels := sent + [now], 0;
    }

    method OnTimeout()
      modifies this
      ensures View() == HandleTimeout(old(View()))
    {
      WakeWaits();
      expiry := timeSent + SECOND;
      sends := sends + 1;
    }

    method OnReply(number: Word)
      modifies this
      ensures View() == HandleReply(old(View()), number)
    {
      if number == sequenceNumber {
        if numReplies == 0 {
          WakeWaits();
          cancels := cancels + 1;
        }
        numReplies := numReplies + 1;
      }
    }
  }

  /** An echo request with the given fields, whose words and the body's sum to all ones, for any body that fits
      an IP packet and many that do not. */
  ghost predicate IsRequest(header: IcmpHeader, identifier: Word, sequence: Word, body: seq<Byte>)
    reads header.rep
  {
    && header.Valid() && header.rep[0] == 8 && header.rep[1] == 0
    && HoldsBytes(identifier, header.rep[4], header.rep[5]) && HoldsBytes(sequence, header.rep[6], header.rep[7])
    && (|body| <= 131068 ==> OnesSum(header.Contents() + Words(body)) == MAX)
  }

  method EchoRequest(identifier: Word, sequence: Word, body: seq<Byte>) returns (header: IcmpHeader)
    ensures fresh(header) && fresh(header.rep) && IsRequest(header, identifier, sequence, body)
  {
    header := new IcmpHeader();
    header.rep[0] := 8;
    header.rep[1] := 0;
    header.Encode(4, 5, identifier);
    header.Encode(6, 7, sequence);
    ghost var covered := header.Covered(body);
    if |body| <= 131068 {
      NoWrap(covered, body);
    }
    header.ComputeChecksum(body);
  }

  lemma NoWrap(covered: seq<Word>, body: seq<Byte>)
    requires |covered| == 3 + |Words(body)| && |body| <= 131068
    ensures Sum(covered) / WIDTH % MAX == 0
  {
    WordsAre(body);
    assert |covered| <= 65537;
    SumBound(covered);
    assert Sum(covered) <= 65537 * MAX;
    NoCarry(Sum(covered));
  }
}
