/** The table-driven parser rejects as soon as it can: what it has not decided can still become a request. */
module TableParserViable {
  import opened HttpTypes
  import opened TableParser
  import opened RequestGrammar
  import TableParserCorrect

  /** Some more input leads to acceptance, at its end. */
  ghost predicate Completable(k: Config)
    requires Ready(k)
  {
    exists t, r :: Run(k, t) == Done(true, r, |t|)
  }

  /** A byte that leads on towards the end of a request. */
  function Onward(state: State): char {
    match state
    case MethodStart => 'G' case Method => ' ' case Uri => ' '
    case VersionH => 'H' case VersionT1 => 'T' case VersionT2 => 'T' case VersionP => 'P' case VersionSlash => '/'
    case MajorStart => '1' case Major => '.' case MinorStart => '0' case Minor => '\r'
    case ExpectingNewline1 => '\n'
    case HeaderName => ':' case SpaceBeforeHeaderValue => ' ' case HeaderValue => '\r' case HeaderLws => '\r'
    case ExpectingNewline2 => '\n' case HeaderLineStart => '\r' case ExpectingNewline3 => '\n'
  }

  /** How many such bytes are left. */
  function Left(state: State): nat {
    match state
    case MethodStart => 17 case Method => 16 case Uri => 15
    case VersionH => 14 case VersionT1 => 13 case VersionT2 => 12 case VersionP => 11 case VersionSlash => 10
    case MajorStart => 9 case Major => 8 case MinorStart => 7 case Minor => 6 case ExpectingNewline1 => 5
    case HeaderName => 6 case SpaceBeforeHeaderValue => 5 case HeaderValue => 4 case HeaderLws => 4
    case ExpectingNewline2 => 3 case HeaderLineStart => 2 case ExpectingNewline3 => 1
  }

  lemma StepsOnward(k: Config)
    requires Ready(k)
    ensures var r := Step(k, Onward(k.state));
            if k.state.ExpectingNewline3? then r.verdict.Accept?
            else r.verdict.More? && Left(r.config.state) < Left(k.state)
  {}

  lemma {:induction false} OneMoreByte(k: Config, c: char, t: string, r: Request)
    requires Ready(k) && Step(k, c).verdict.More? && Run(Step(k, c).config, t) == Done(true, r, |t|)
    ensures Run(k, [c] + t) == Done(true, r, |[c] + t|)
  {
    assert ([c] + t)[1..] == t;
  }

  lemma {:induction false} AlwaysCompletable(k: Config)
    requires Ready(k)
    ensures Completable(k)
    decreases Left(k.state)
  {
    var c := Onward(k.state);
    StepsOnward(k);
    if k.state.ExpectingNewline3? {
      OneByte(Pending(k), c);
      assert Run(k, [c]) == Done(true, k.req, |[c]|);
    } else {
      var next := Step(k, c).config;
      AlwaysCompletable(next);
      var t, r :| Run(next, t) == Done(true, r, |t|);
      OneMoreByte(k, c, t, r);
    }
  }

  /** The text is the beginning of a request, and not all of it. */
  ghost predicate Viable(s: string) {
    exists t, r :: t != "" && Denotes(s + t, r)
  }

  lemma {:induction false} PendingIsViable(req: Request, s: string)
    requires Fresh(req) && Run(Start(req), s).Pending?
    ensures Viable(s)
  {
    var k := Run(Start(req), s).config;
    AlwaysCompletable(k);
    var t, r :| Run(k, t) == Done(true, r, |t|);
    RunAppend(Start(req), s, t);
    TableParserCorrect.AcceptsExactlyTheGrammar(req, s + t, |s + t|, r);
    assert (s + t)[..|s + t|] == s + t;
  }

  lemma {:induction false} ViableIsPending(req: Request, s: string, t: string, r: Request)
    requires Fresh(req) && t != "" && Denotes(s + t, r)
    ensures Run(Start(req), s).Pending?
  {
    assert (s + t)[..|s + t|] == s + t;
    TableParserCorrect.AcceptsExactlyTheGrammar(req, s + t, |s + t|, r);
    RunAppend(Start(req), s, t);
  }

  /** The parser asks for more exactly while what it has read is the beginning of some request, and so rejects at the
      first byte after which it is not. */
  lemma PendingIffViable(req: Request, s: string)
    requires Fresh(req)
    ensures Run(Start(req), s).Pending? <==> Viable(s)
  {
    if Run(Start(req), s).Pending? {
      PendingIsViable(req, s);
    }
    if t, r :| t != "" && Denotes(s + t, r) {
      ViableIsPending(req, s, t, r);
    }
  }
}
