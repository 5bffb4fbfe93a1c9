/** How the coroutine parser relates to the table-driven one. */
module ParsersAgree {
  import opened Basics
  import opened HttpTypes
  import T = TableParser
  import C = CoroutineParser

  predicate AsciiValues(hs: seq<Header>) {
    forall i | 0 <= i < |hs| :: Ascii(hs[i].value)
  }

  /** What the coroutine parser refuses in a request the table-driven one accepts. */
  predicate Refused(r: Request) {
    r.uri == "" || !AsciiValues(r.headers)
  }

  /** The table state a resume point corresponds to. */
  function TableState(resume: C.Resume): T.State
    requires !resume.ContentByte? && !resume.Finished?
  {
    match resume
    case Begin => T.MethodStart
    case MethodChar => T.Method
    case MethodSpace => T.Uri
    case UriChar => T.Uri
    case UriSpace => T.VersionH
    case SeenH => T.VersionT1
    case SeenHT => T.VersionT2
    case SeenHTT => T.VersionP
    case SeenHTTP => T.VersionSlash
    case SeenSlash => T.MajorStart
    case MajorDigit => T.Major
    case SeenDot => T.MinorStart
    case MinorDigit => T.Minor
    case LineCr => T.ExpectingNewline1
    case LineLf => T.HeaderLineStart
    case FoldLws => T.HeaderLws
    case NameChar => T.HeaderName
    case NameColon => T.SpaceBeforeHeaderValue
    case NameSpace => T.HeaderValue
    case ValueChar => T.HeaderValue
    case FieldCr => T.ExpectingNewline2
    case FieldLf => T.HeaderLineStart
    case LastCr => T.ExpectingNewline3
  }

  predicate PastUri(state: T.State) {
    !state.MethodStart? && !state.Method? && !state.Uri?
  }

  /** The slash before the version numbers has not been read: the table-driven parser has yet to clear them. */
  predicate BeforeSlash(state: T.State) {
    || !PastUri(state) || state.VersionH? || state.VersionT1? || state.VersionT2? || state.VersionP?
    || state.VersionSlash?
  }

  /** The versions read so far by the coroutine parser, which clears them at the start. */
  predicate VersionsAgree(q: Request, k: T.Config) {
    if BeforeSlash(k.state) then q.major == 0 && q.minor == 0
    else q.major == k.req.major && q.minor == k.req.minor
  }

  /** Both parsers have read the same request line and headers, and nothing the coroutine parser refuses. */
  ghost predicate Related(q: C.Config, k: T.Config) {
    && T.Ready(k)
    && !q.resume.ContentByte? && !q.resume.Finished?
    && TableState(q.resume) == k.state
    && (if q.resume.Begin? then T.Fresh(k.req) else
          && q.req.verb == k.req.verb && k.req.verb != ""
          && q.req.uri == k.req.uri && q.req.headers == k.req.headers
          && VersionsAgree(q.req, k)
          && q.content == ""
          && (q.resume.MethodSpace? || q.resume.MethodChar? <==> k.req.uri == "")
          && AsciiValues(k.req.headers)
          && (BeforeSlash(k.state) ==> k.req.headers == []))
  }

  /** The table-driven parser has let something through that the coroutine parser refuses. */
  ghost predicate Diverged(k: T.Config) {
    (PastUri(k.state) && k.req.uri == "") || !AsciiValues(k.req.headers)
  }

  lemma ExtendAscii(hs: seq<Header>, c: char)
    requires hs != []
    ensures AsciiValues(T.ExtendValue(hs, c)) <==> AsciiValues(hs) && IsChar(c)
    ensures AsciiValues(T.ExtendName(hs, c)) <==> AsciiValues(hs)
  {
    var v, v', n' := Last(hs).value, T.ExtendValue(hs, c), T.ExtendName(hs, c);
    assert forall i | 0 <= i < |v| :: (v + [c])[i] == v[i];
    assert (v + [c])[|v|] == c;
    assert Ascii(v + [c]) <==> Ascii(v) && IsChar(c);
    assert v'[|hs| - 1].value == v + [c] && n'[|hs| - 1].value == v;
    assert forall i | 0 <= i < |hs| - 1 :: v'[i] == hs[i] && n'[i] == hs[i];
  }

  /** Both parsers moved on together, or the coroutine parser rejected what it refuses. */
  ghost predicate Together(r: Consumed<C.Config>, k: T.Config) {
    || (r.verdict.More? && Related(r.config, k))
    || (r.verdict.Reject? && Diverged(k))
  }

  predicate InLine(state: T.State) {
    || BeforeSlash(state) || state.MajorStart? || state.Major? || state.MinorStart? || state.Minor?
    || state.ExpectingNewline1?
  }

  lemma StepBeforeSlash(cast: C.Cast, q: C.Config, k: T.Config, c: char)
    requires C.Ready(q) && Related(q, k) && T.Step(k, c).verdict.More?
    requires BeforeSlash(k.state)
    ensures Together(C.Step(cast, q, c), T.Step(k, c).config)
  {}

  lemma StepInVersion(cast: C.Cast, q: C.Config, k: T.Config, c: char)
    requires C.Ready(q) && Related(q, k) && T.Step(k, c).verdict.More?
    requires InLine(k.state) && !BeforeSlash(k.state)
    ensures Together(C.Step(cast, q, c), T.Step(k, c).config)
  {}

  lemma StepAtLineStart(cast: C.Cast, q: C.Config, k: T.Config, c: char)
    requires C.Ready(q) && Related(q, k) && T.Step(k, c).verdict.More? && k.state.HeaderLineStart?
    ensures Together(C.Step(cast, q, c), T.Step(k, c).config)
  {
    var hs := k.req.headers;
    assert "" + [c] == [c];
    assert (hs + [Header("", "")])[|hs| := Header([c], "")] == hs + [Header([c], "")];
  }

  lemma StepInHeader(cast: C.Cast, q: C.Config, k: T.Config, c: char)
    requires C.Ready(q) && Related(q, k) && T.Step(k, c).verdict.More? && !k.state.HeaderLineStart?
    requires !InLine(k.state)
    ensures Together(C.Step(cast, q, c), T.Step(k, c).config)
  {
    if k.req.headers != [] {
      ExtendAscii(k.req.headers, c);
    }
  }

  /** One byte takes both parsers on together, or the coroutine parser rejects. */
  lemma StepTogether(cast: C.Cast, q: C.Config, k: T.Config, c: char)
    requires C.Ready(q) && Related(q, k) && T.Step(k, c).verdict.More?
    ensures Together(C.Step(cast, q, c), T.Step(k, c).config)
  {
    if k.state.HeaderLineStart? {
      StepAtLineStart(cast, q, k, c);
    } else if BeforeSlash(k.state) {
      StepBeforeSlash(cast, q, k, c);
    } else if InLine(k.state) {
      StepInVersion(cast, q, k, c);
    } else {
      StepInHeader(cast, q, k, c);
    }
  }

  /** When the table-driven parser rejects, so does the coroutine parser. */
  lemma RejectTogether(cast: C.Cast, q: C.Config, k: T.Config, c: char)
    requires C.Ready(q) && Related(q, k) && T.Step(k, c).verdict.Reject?
    ensures C.Step(cast, q, c).verdict.Reject?
  {}

  lemma DivergedStays(k: T.Config, c: char)
    requires T.Ready(k) && Diverged(k) && T.Step(k, c).verdict.More?
    ensures Diverged(T.Step(k, c).config)
  {
    var hs := k.req.headers;
    if hs != [] {
      ExtendAscii(hs, c);
    }
    assert forall i | 0 <= i < |hs| :: (hs + [Header([c], "")])[i] == hs[i];
  }

  lemma {:induction false} DivergedRun(k: T.Config, s: string)
    requires T.Ready(k) && Diverged(k)
    ensures match T.Run(k, s)
            case Pending(k') => Diverged(k')
            case Done(ok, r, used) => ok ==> Refused(r)
    decreases s
  {
    if s == "" {
    } else if T.Step(k, s[0]).verdict.More? {
      DivergedStays(k, s[0]);
      DivergedRun(T.Step(k, s[0]).config, s[1..]);
    }
  }

  /** Reading the content: exactly `length` bytes, kept as they are. */
  lemma {:induction false} ContentRun(cast: C.Cast, q: C.Config, s: string)
    requires q.resume.ContentByte? && |q.content| < q.length
    ensures var missing := q.length - |q.content|;
            C.Run(cast, q, s) ==
            if |s| < missing then Pending(q.(content := q.content + s))
            else Done(true, q.(content := q.content + s[..missing], resume := C.Finished), missing)
    decreases s
  {
    if s == "" {
      assert q.content + s == q.content;
    } else {
      var q' := q.(content := q.content + [s[0]]);
      var missing := q.length - |q.content|;
      if missing > 1 {
        ContentRun(cast, q', s[1..]);
        assert q'.content + s[1..] == q.content + s;
        if |s| >= missing {
          assert q'.content + s[1..][..missing - 1] == q.content + s[..missing];
        }
      } else {
        assert s[..1] == [s[0]];
      }
    }
  }

  /** What the coroutine parser makes of `s`, given what the table-driven parser makes of it. */
  ghost predicate Agree(cast: C.Cast, s: string, t: Outcome<T.Config, Request>, o: Outcome<C.Config, C.Config>) {
    match t
    case Pending(k) =>
      if o.Pending? then Related(o.config, k) else !o.ok && Diverged(k)
    case Done(ok, r, n) =>
      if !ok || Refused(r) then
        o.Done? && !o.ok && o.used <= n
      else
        n <= |s| &&
        match C.Length(cast, r.headers)
        case None => o.Done? && !o.ok && o.used == n
        case Some(length) =>
          if |s| < n + length then
            && o.Pending? && o.config.resume.ContentByte?
            && o.config.req == r && o.config.length == length && o.config.content == s[n..]
          else
            && o.Done? && o.ok && o.used == n + length
            && o.result.req == r && o.result.length == length && o.result.content == s[n..n + length]
  }

  /** The byte that completes the headers. */
  lemma LastHeaderByte(q: C.Config, k: T.Config, c: char)
    requires Related(q, k) && T.Step(k, c).verdict.Accept?
    ensures q.resume.LastCr? && c == '\n' && q.req == k.req && q.content == "" && !Refused(k.req)
  {}

  /** From there, the coroutine parser looks for the length and reads that much content. */
  lemma {:induction false} LengthThenContent(cast: C.Cast, q: C.Config, s: string)
    requires q.resume.LastCr? && q.content == "" && s != "" && s[0] == '\n' && !Refused(q.req)
    ensures Agree(cast, s, Done(true, q.req, 1), C.Run(cast, q, s))
  {
    var n := C.Length(cast, q.req.headers);
    if n.Some? && n.value > 0 {
      var rest := s[1..];
      ContentRun(cast, q.(length := n.value, resume := C.ContentByte), rest);
      assert "" + rest == rest;
      if |s| >= 1 + n.value {
        assert "" + rest[..n.value] == s[1..1 + n.value];
      }
    }
  }

  lemma {:induction false} HeadersComplete(cast: C.Cast, q: C.Config, k: T.Config, s: string)
    requires C.Ready(q) && Related(q, k) && s != "" && T.Step(k, s[0]).verdict.Accept?
    ensures Agree(cast, s, T.Run(k, s), C.Run(cast, q, s))
  {
    LastHeaderByte(q, k, s[0]);
    LengthThenContent(cast, q, s);
  }

  /** From related configurations the two parsers agree on every input. */
  lemma {:induction false} AgreeFrom(cast: C.Cast, q: C.Config, k: T.Config, s: string)
    requires C.Ready(q) && Related(q, k)
    ensures Agree(cast, s, T.Run(k, s), C.Run(cast, q, s))
    decreases s
  {
    if s == "" {
    } else {
      var r, r' := T.Step(k, s[0]), C.Step(cast, q, s[0]);
      match r.verdict
      case Accept => HeadersComplete(cast, q, k, s);
      case Reject => RejectTogether(cast, q, k, s[0]);
      case More =>
        StepTogether(cast, q, k, s[0]);
        if r'.verdict.More? {
          AgreeFrom(cast, r'.config, r.config, s[1..]);
          AgreeShift(cast, s, T.Run(r.config, s[1..]), C.Run(cast, r'.config, s[1..]));
        } else {
          DivergedRun(r.config, s[1..]);
        }
    }
  }

  lemma AgreeShift(cast: C.Cast, s: string, t: Outcome<T.Config, Request>, o: Outcome<C.Config, C.Config>)
    requires s != "" && Agree(cast, s[1..], t, o)
    ensures Agree(cast, s, Shift(t, 1), Shift(o, 1))
  {
    if t.Done? && t.ok && !Refused(t.result) && C.Length(cast, t.result.headers).Some? {
      var n, length := t.used, C.Length(cast, t.result.headers).value;
      assert s[1..][n..] == s[n + 1..];
      if |s[1..]| >= n + length {
        assert s[1..][n..n + length] == s[n + 1..n + 1 + length];
      }
    }
  }

  /** Both parsers on the same bytes, the coroutine parser in whatever request it is given: it accepts what
      the table-driven parser accepts, unless the URI is empty, a header value has a byte outside 7 bits, or
      a Content-Length does not convert; and then after exactly as many more bytes as the last Content-Length
      says, which are the content. */
  lemma ParsersAgree(cast: C.Cast, blank: Request, any: C.Config, s: string)
    requires T.Fresh(blank) && any.resume.Begin?
    ensures Agree(cast, s, T.Run(T.Start(blank), s), C.Run(cast, any, s))
  {
    AgreeFrom(cast, any, T.Start(blank), s);
  }

  /** So they do however the input is cut into chunks, and differently for each. */
  lemma ParsersAgreeOnChunks(cast: C.Cast, blank: Request, any: C.Config, ts: seq<string>, cs: seq<string>)
    requires T.Fresh(blank) && any.resume.Begin? && Join(ts) == Join(cs)
    ensures Agree(cast, Join(ts), T.RunChunks(T.Start(blank), ts), C.RunChunks(cast, any, cs))
  {
    T.ChunkIndependence(T.Start(blank), ts);
    C.ChunkIndependence(cast, any, cs);
    ParsersAgree(cast, blank, any, Join(ts));
  }

  /** In particular, what the coroutine parser accepts is a request the table-driven parser accepts, followed
      by its content. */
  lemma CoroutineAcceptsHeadAndContent(cast: C.Cast, blank: Request, any: C.Config, s: string)
    requires T.Fresh(blank) && any.resume.Begin?
    ensures var o := C.Run(cast, any, s);
            o.Done? && o.ok ==>
              && o.result.length < o.used
              && T.Run(T.Start(blank), s) == Done(true, o.result.req, o.used - o.result.length)
              && o.result.content == s[o.used - o.result.length..o.used]
              && C.Length(cast, o.result.req.headers) == Some(o.result.length)
              && !Refused(o.result.req)
  {
    ParsersAgree(cast, blank, any, s);
  }
}
