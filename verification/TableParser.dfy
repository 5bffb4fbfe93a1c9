/** The table-driven request parser of `http/server`: one transition per byte over 20 states. */
module TableParser {
  import opened Basics
  import opened HttpTypes

  datatype State =
    | MethodStart | Method | Uri
    | VersionH | VersionT1 | VersionT2 | VersionP | VersionSlash
    | MajorStart | Major | MinorStart | Minor
    | ExpectingNewline1
    | HeaderLineStart | HeaderLws | HeaderName | SpaceBeforeHeaderValue | HeaderValue
    | ExpectingNewline2 | ExpectingNewline3

  datatype Config = Config(state: State, req: Request)

  /** Where the parser extends the last header, there is a last header. */
  predicate Ready(k: Config) {
    (k.state.HeaderLws? || k.state.HeaderName? || k.state.SpaceBeforeHeaderValue? || k.state.HeaderValue?)
    ==> k.req.headers != []
  }

  /** Any request object a connection hands to a new parser: the version numbers are not initialised. */
  predicate Fresh(req: Request) {
    req.verb == "" && req.uri == "" && req.headers == []
  }

  function ExtendName(hs: seq<Header>, c: char): seq<Header>
    requires hs != []
  {
    hs[|hs| - 1 := Last(hs).(name := Last(hs).name + [c])]
  }

  function ExtendValue(hs: seq<Header>, c: char): seq<Header>
    requires hs != []
  {
    hs[|hs| - 1 := Last(hs).(value := Last(hs).value + [c])]
  }

  /** One call of `consume`. */
  function Step(k: Config, c: char): (r: Consumed<Config>)
    requires Ready(k)
    ensures Ready(r.config)
    ensures !r.verdict.More? ==> r.config == k
  {
    var req := k.req;
    var reject := Consumed(Reject, k);
    match k.state
    case MethodStart =>
      if !IsToken(c) then reject
      else Go(Method, req.(verb := req.verb + [c]))
    case Method =>
      if c == ' ' then Go(Uri, req)
      else if !IsToken(c) then reject
      else Go(Method, req.(verb := req.verb + [c]))
    case Uri =>
      if c == ' ' then Go(VersionH, req)
      else if IsCtl(c) then reject
      else Go(Uri, req.(uri := req.uri + [c]))
    case VersionH => if c == 'H' then Go(VersionT1, req) else reject
    case VersionT1 => if c == 'T' then Go(VersionT2, req) else reject
    case VersionT2 => if c == 'T' then Go(VersionP, req) else reject
    case VersionP => if c == 'P' then Go(VersionSlash, req) else reject
    case VersionSlash => if c == '/' then Go(MajorStart, req.(major := 0, minor := 0)) else reject
    case MajorStart =>
      if IsDigit(c) then Go(Major, req.(major := req.major * 10 + DigitValue(c))) else reject
    case Major =>
      if c == '.' then Go(MinorStart, req)
      else if IsDigit(c) then Go(Major, req.(major := req.major * 10 + DigitValue(c)))
      else reject
    case MinorStart =>
      if IsDigit(c) then Go(Minor, req.(minor := req.minor * 10 + DigitValue(c))) else reject
    case Minor =>
      if c == '\r' then Go(ExpectingNewline1, req)
      else if IsDigit(c) then Go(Minor, req.(minor := req.minor * 10 + DigitValue(c)))
      else reject
    case ExpectingNewline1 => if c == '\n' then Go(HeaderLineStart, req) else reject
    case HeaderLineStart =>
      if c == '\r' then Go(ExpectingNewline3, req)
      else if req.headers != [] && IsLws(c) then Go(HeaderLws, req)
      else if !IsToken(c) then reject
      else Go(HeaderName, req.(headers := req.headers + [Header([c], "")]))
    case HeaderLws =>
      if c == '\r' then Go(ExpectingNewline2, req)
      else if IsLws(c) then Go(HeaderLws, req)
      else if IsCtl(c) then reject
      else Go(HeaderValue, req.(headers := ExtendValue(req.headers, c)))
    case HeaderName =>
      if c == ':' then Go(SpaceBeforeHeaderValue, req)
      else if !IsToken(c) then reject
      else Go(HeaderName, req.(headers := ExtendName(req.headers, c)))
    case SpaceBeforeHeaderValue => if c == ' ' then Go(HeaderValue, req) else reject
    case HeaderValue =>
      if c == '\r' then Go(ExpectingNewline2, req)
      else if IsCtl(c) then reject
      else Go(HeaderValue, req.(headers := ExtendValue(req.headers, c)))
    case ExpectingNewline2 => if c == '\n' then Go(HeaderLineStart, req) else reject
    case ExpectingNewline3 => if c == '\n' then Consumed(Accept, k) else reject
  }

  function Go(state: State, req: Request): Consumed<Config> {
    Consumed(More, Config(state, req))
  }

  /** Consume bytes until a verdict is reached or the input ends. */
  function Run(k: Config, s: string): (o: Outcome<Config, Request>)
    requires Ready(k)
    ensures o.Pending? ==> Ready(o.config)
    ensures o.Done? ==> 0 < o.used <= |s|
    decreases s
  {
    if s == "" then Pending(k)
    else
      var r := Step(k, s[0]);
      match r.verdict
      case More => Shift(Run(r.config, s[1..]), 1)
      case Accept => Done(true, r.config.req, 1)
      case Reject => Done(false, r.config.req, 1)
  }

  function Start(req: Request): Config {
    Config(MethodStart, req)
  }

  // ----- splitting the input ---------------------------------------------------------------------------

  /** A run over two pieces is the run over the first continued, if still undecided, over the second. */
  lemma {:induction false} RunAppend(k: Config, a: string, b: string)
    requires Ready(k)
    ensures Run(k, a + b) ==
            if Run(k, a).Pending? then Shift(Run(Run(k, a).config, b), |a|) else Run(k, a)
    decreases a
  {
    if a == "" {
      assert a + b == b;
    } else {
      assert (a + b)[1..] == a[1..] + b;
      RunAppend(Step(k, a[0]).config, a[1..], b);
    }
  }

  /** Successive calls of `parse` on successive chunks, stopping at the first verdict. */
  function RunChunks(k: Config, chunks: seq<string>): (o: Outcome<Config, Request>)
    requires Ready(k)
    ensures o.Pending? ==> Ready(o.config)
    decreases chunks
  {
    if chunks == [] then Pending(k)
    else
      var o := Run(k, chunks[0]);
      if o.Done? then o else Shift(RunChunks(o.config, chunks[1..]), |chunks[0]|)
  }

  /** However the input is cut into chunks, the verdict, the request and the total consumed are those of
      one `parse` call over the whole input. */
  lemma {:induction false} ChunkIndependence(k: Config, chunks: seq<string>)
    requires Ready(k)
    ensures RunChunks(k, chunks) == Run(k, Join(chunks))
    decreases chunks
  {
    if chunks == [] {
    } else {
      RunAppend(k, chunks[0], Join(chunks[1..]));
      if Run(k, chunks[0]).Pending? {
        ChunkIndependence(Run(k, chunks[0]).config, chunks[1..]);
      }
    }
  }

  // ----- where a request ends --------------------------------------------------------------------------

  /** The text ends with CR LF. */
  predicate EndsLine(s: string) {
    |s| >= 2 && s[|s| - 2] == '\r' && s[|s| - 1] == '\n'
  }

  /** The text ends with CR LF CR LF. */
  predicate EndsBlankLine(s: string) {
    EndsLine(s) && EndsLine(s[..|s| - 2])
  }

  /** What the state says about the last bytes consumed. */
  predicate Recent(state: State, s: string) {
    && (state.ExpectingNewline1? || state.ExpectingNewline2? || state.ExpectingNewline3? ==>
          s != "" && Last(s) == '\r')
    && (state.HeaderLineStart? ==> EndsLine(s))
    && (state.ExpectingNewline3? ==> EndsLine(Front(s)))
  }

  lemma RecentStep(k: Config, s: string, c: char)
    requires Ready(k) && Recent(k.state, s)
    ensures Step(k, c).verdict.More? ==> Recent(Step(k, c).config.state, s + [c])
    ensures Step(k, c).verdict.Accept? ==> EndsBlankLine(s + [c])
  {
    assert Front(s + [c]) == s;
    if k.state.ExpectingNewline3? {
      assert (s + [c])[..|s| - 1] == Front(s);
    }
  }

  /** The last byte of a run on its own. */
  lemma {:induction false} LastByte(k: Config, s: string)
    requires Ready(k) && s != ""
    ensures var o := Run(k, Front(s));
            Run(k, s) == if o.Done? then o else
                           var r := Step(o.config, Last(s));
                           if r.verdict.More? then Pending(r.config) else Done(r.verdict.Accept?, r.config.req, |s|)
  {
    assert s == Front(s) + [Last(s)];
    RunAppend(k, Front(s), [Last(s)]);
    OneByte(Run(k, Front(s)), Last(s));
  }

  /** The last byte of a run that is still undecided. */
  lemma {:induction false} PendingByte(k: Config, s: string, k': Config) returns (before: Config)
    requires Ready(k) && s != "" && Run(k, s) == Pending(k')
    ensures Run(k, Front(s)) == Pending(before) && Ready(before) && Step(before, Last(s)) == Consumed(More, k')
  {
    LastByte(k, s);
    before := Run(k, Front(s)).config;
  }

  /** A decided run is decided by the bytes it used. */
  lemma {:induction false} DecidedPrefix(k: Config, s: string, ok: bool, r: Request, n: nat)
    requires Ready(k) && Run(k, s) == Done(ok, r, n)
    ensures Run(k, s[..n]) == Done(ok, r, n)
  {
    assert s == s[..n] + s[n..];
    RunAppend(k, s[..n], s[n..]);
  }

  /** The byte that decides a run: everything before it leaves the request undecided. */
  lemma {:induction false} DecidingByte(k: Config, s: string, ok: bool, r: Request, n: nat)
    requires Ready(k) && Run(k, s) == Done(ok, r, n)
    ensures var before := Run(k, s[..n - 1]);
            && before.Pending?
            && Step(before.config, s[n - 1]).verdict == (if ok then Accept else Reject)
            && r == before.config.req
  {
    DecidedPrefix(k, s, ok, r, n);
    LastByte(k, s[..n]);
    assert Front(s[..n]) == s[..n - 1];
  }

  lemma {:induction false} OneByte(o: Outcome<Config, Request>, c: char)
    requires o.Pending? ==> Ready(o.config)
    ensures o.Pending? ==>
              var r := Step(o.config, c);
              Run(o.config, [c]) ==
              if r.verdict.More? then Pending(r.config) else Done(r.verdict.Accept?, r.config.req, 1)
  {
    assert [c][1..] == "";
  }

  lemma {:induction false} RunRecent(req: Request, s: string)
    requires Fresh(req)
    ensures var o := Run(Start(req), s);
            if o.Pending? then Recent(o.config.state, s) else o.ok ==> EndsBlankLine(s[..o.used])
  {
    if s == "" {
    } else {
      RunRecent(req, Front(s));
      LastByte(Start(req), s);
      var o := Run(Start(req), Front(s));
      assert s == Front(s) + [Last(s)];
      if o.Pending? {
        RecentStep(o.config, Front(s), Last(s));
      } else {
        assert Front(s)[..o.used] == s[..o.used];
      }
    }
  }

  /** A line feed that does not decide the request ends a line. */
  lemma {:induction false} PendingAtLineEnd(req: Request, s: string)
    requires Fresh(req) && s != "" && Last(s) == '\n'
    ensures Run(Start(req), s).Pending? ==> Run(Start(req), s).config.state.HeaderLineStart?
  {
    LastByte(Start(req), s);
  }

  /** No request is still undecided once CR LF CR LF has been seen. */
  lemma {:induction false} DecidedByBlankLine(req: Request, s: string, n: nat)
    requires Fresh(req) && n <= |s| && EndsBlankLine(s[..n])
    ensures var o := Run(Start(req), s); o.Done? && o.used <= n && (o.used == n ==> o.ok)
  {
    var p := s[..n];
    var q := Front(p);
    assert s == p + s[n..];
    RunAppend(Start(req), p, s[n..]);
    PendingAtLineEnd(req, Front(q));
    LastByte(Start(req), q);
    LastByte(Start(req), p);
  }

  /** A request is accepted at the end of the first CR LF CR LF of the input and nowhere else. */
  lemma {:induction false} AcceptedAtFirstBlankLine(req: Request, s: string)
    requires Fresh(req)
    ensures var o := Run(Start(req), s);
            o.Done? && o.ok ==>
              && EndsBlankLine(s[..o.used])
              && forall n | 0 <= n < o.used :: !EndsBlankLine(s[..n])
  {
    RunRecent(req, s);
    forall n | 0 <= n <= |s| && EndsBlankLine(s[..n])
      ensures Run(Start(req), s).Done? && Run(Start(req), s).used <= n
    {
      DecidedByBlankLine(req, s, n);
    }
  }

  // ----- the parser object -----------------------------------------------------------------------------

  /** The request structure the parser fills in. */
  class RequestRecord {
    var verb: string
    var uri: string
    var major: int
    var minor: int
    var headers: seq<Header>

    constructor ()
      ensures Fresh(Value())
    {
      verb, uri, headers := "", "", [];
    }

    function Value(): Request
      reads this
    {
      Request(verb, uri, major, minor, headers)
    }
  }

  class RequestParser {
    var state: State

    constructor ()
      ensures state == MethodStart
    {
      state := MethodStart;
    }

    method Reset()
      modifies this
      ensures state == MethodStart
    {
      state := MethodStart;
    }

    method Consume(req: RequestRecord, input: char) returns (verdict: Verdict)
      requires Ready(Config(state, req.Value()))
      modifies this, req
      ensures Consumed(verdict, Config(state, req.Value())) == Step(old(Config(state, req.Value())), input)
    {
      verdict := More;
      match state
      case MethodStart =>
        if !IsChar(input) || IsCtl(input) || IsTspecial(input) { return Reject; }
        state := Method;
        req.verb := req.verb + [input];
      case Method =>
        if input == ' ' {
          state := Uri;
        } else if !IsChar(input) || IsCtl(input) || IsTspecial(input) {
          return Reject;
        } else {
          req.verb := req.verb + [input];
        }
      case Uri =>
        if input == ' ' {
          state := VersionH;
        } else if IsCtl(input) {
          return Reject;
        } else {
          req.uri := req.uri + [input];
        }
      case VersionH =>
        if input != 'H' { return Reject; }
        state := VersionT1;
      case VersionT1 =>
        if input != 'T' { return Reject; }
        state := VersionT2;
      case VersionT2 =>
        if input != 'T' { return Reject; }
        state := VersionP;
      case VersionP =>
        if input != 'P' { return Reject; }
        state := VersionSlash;
      case VersionSlash =>
        if input != '/' { return Reject; }
        req.major, req.minor := 0, 0;
        state := MajorStart;
      case MajorStart =>
        if !IsDigit(input) { return Reject; }
        req.major := req.major * 10 + DigitValue(input);
        state := Major;
      case Major =>
        if input == '.' {
          state := MinorStart;
        } else if IsDigit(input) {
          req.major := req.major * 10 + DigitValue(input);
        } else {
          return Reject;
        }
      case MinorStart =>
        if !IsDigit(input) { return Reject; }
        req.minor := req.minor * 10 + DigitValue(input);
        state := Minor;
      case Minor =>
        if input == '\r' {
          state := ExpectingNewline1;
        } else if IsDigit(input) {
          req.minor := req.minor * 10 + DigitValue(input);
        } else {
          return Reject;
        }
      case ExpectingNewline1 =>
        if input != '\n' { return Reject; }
        state := HeaderLineStart;
      case HeaderLineStart =>
        if input == '\r' {
          state := ExpectingNewline3;
        } else if req.headers != [] && (input == ' ' || input == '\t') {
          state := HeaderLws;
        } else if !IsChar(input) || IsCtl(input) || IsTspecial(input) {
          return Reject;
        } else {
          req.headers := req.headers + [Header([input], "")];
          state := HeaderName;
        }
      case HeaderLws =>
        if input == '\r' {
          state := ExpectingNewline2;
        } else if input == ' ' || input == '\t' {
        } else if IsCtl(input) {
          return Reject;
        } else {
          state := HeaderValue;
          req.headers := ExtendValue(req.headers, input);
        }
      case HeaderName =>
        if input == ':' {
          state := SpaceBeforeHeaderValue;
        } else if !IsChar(input) || IsCtl(input) || IsTspecial(input) {
          return Reject;
        } else {
          req.headers := ExtendName(req.headers, input);
        }
      case SpaceBeforeHeaderValue =>
        if input != ' ' { return Reject; }
        state := HeaderValue;
      case HeaderValue =>
        if input == '\r' {
          state := ExpectingNewline2;
        } else if IsCtl(input) {
          return Reject;
        } else {
          req.headers := ExtendValue(req.headers, input);
        }
      case ExpectingNewline2 =>
        if input != '\n' { return Reject; }
        state := HeaderLineStart;
      case ExpectingNewline3 =>
        return if input == '\n' then Accept else Reject;
    }

    /** Consume input until a verdict is reached; `begin` is the position after the last byte consumed. */
    method Parse(req: RequestRecord, input: string) returns (verdict: Verdict, begin: nat)
      requires Ready(Config(state, req.Value()))
      modifies this, req
      ensures match Run(old(Config(state, req.Value())), input)
              case Pending(k) => verdict == More && begin == |input| && k == Config(state, req.Value())
              case Done(ok, r, used) =>
                && verdict == (if ok then Accept else Reject)
                && begin == used && req.Value() == r
    {
      begin := 0;
      while begin < |input|
        invariant 0 <= begin <= |input|
        invariant Ready(Config(state, req.Value()))
        invariant Run(old(Config(state, req.Value())), input)
               == Shift(Run(Config(state, req.Value()), input[begin..]), begin)
      {
        ghost var rest := input[begin..];
        assert rest[1..] == input[begin + 1..];
        verdict := Consume(req, input[begin]);
        begin := begin + 1;
        if !verdict.More? {
          return;
        }
      }
      verdict := More;
    }
  }
}
