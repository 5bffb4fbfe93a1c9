/** The stackless-coroutine request parser of `http/server4`: each call continues after the `yield` at which
    the previous call returned. */
module CoroutineParser {
  import opened Basics
  import opened HttpTypes

  /** Conversion of header text to a length, `boost::lexical_cast<std::size_t>`; None is `bad_lexical_cast`. */
  type Cast = string -> Option<nat>

  /** The resume point: where in `consume` the last call yielded. */
  datatype Resume =
    | Begin
    | MethodChar | MethodSpace | UriChar | UriSpace
    | SeenH | SeenHT | SeenHTT | SeenHTTP | SeenSlash
    | MajorDigit | SeenDot | MinorDigit | LineCr | LineLf
    | FoldLws | NameChar | NameColon | NameSpace | ValueChar | FieldCr | FieldLf
    | LastCr | ContentByte
    | Finished

  datatype Config = Config(resume: Resume, req: Request, content: string, length: nat)

  /** Where the parser extends the last header, there is a last header. */
  predicate Ready(k: Config) {
    (k.resume.FoldLws? || k.resume.NameChar? || k.resume.NameColon? || k.resume.NameSpace? || k.resume.ValueChar?)
    ==> k.req.headers != []
  }

  /** The next byte is part of the request line. */
  predicate InLine(resume: Resume) {
    || resume.Begin? || resume.MethodChar? || resume.MethodSpace? || resume.UriChar? || InVersion(resume)
  }

  /** It is part of the protocol and its version, or ends the line. */
  predicate InVersion(resume: Resume) {
    || resume.UriSpace? || resume.SeenH? || resume.SeenHT? || resume.SeenHTT? || resume.SeenHTTP?
    || resume.SeenSlash? || resume.MajorDigit? || resume.SeenDot? || resume.MinorDigit? || resume.LineCr?
  }

  // ----- Content-Length ------------------------------------------------------------------------------------

  const CONTENT_LENGTH := "Content-Length"

  /** The same character, or the same letter in the other case. */
  predicate SameButCase(a: char, b: char) {
    || a == b
    || (65 <= a as int <= 90 && b as int == a as int + 32)
    || (97 <= a as int <= 122 && b as int == a as int - 32)
  }

  /** The same text, but for the case of letters. */
  predicate Recased(a: string, b: string) {
    |a| == |b| && forall i | 0 <= i < |a| :: SameButCase(a[i], b[i])
  }

  /** The name of a header that announces a length. */
  predicate Announces(name: string) {
    Recased(name, "Content-Length")
  }

  function ToLower(c: char): char {
    if 'A' <= c <= 'Z' then c + 32 as char else c
  }

  predicate HeadersEqual(a: string, b: string): (r: bool)
    ensures r <==> Recased(a, b)
  {
    |a| == |b| && forall i | 0 <= i < |a| :: ToLower(a[i]) == ToLower(b[i])
  }

  predicate IsLength(h: Header): (r: bool)
    ensures r <==> Announces(h.name)
  {
    HeadersEqual(h.name, CONTENT_LENGTH)
  }

  /** The length the headers announce: the last Content-Length decides, and each must be convertible. */
  function Length(cast: Cast, hs: seq<Header>): Option<nat> {
    if hs == [] then Some(0)
    else if Length(cast, Front(hs)).None? then None
    else if IsLength(Last(hs)) then cast(Last(hs).value)
    else Length(cast, Front(hs))
  }

  lemma {:induction false} LengthFails(cast: Cast, hs: seq<Header>)
    ensures Length(cast, hs).None?
            <==> exists i :: 0 <= i < |hs| && Announces(hs[i].name) && cast(hs[i].value).None?
  {
    if hs == [] {
    } else {
      LengthFails(cast, Front(hs));
      assert hs == Front(hs) + [Last(hs)];
      assert IsLength(Last(hs)) <==> Announces(Last(hs).name);
    }
  }

  lemma {:induction false} LengthStaysNone(cast: Cast, hs: seq<Header>, n: nat)
    requires n <= |hs| && Length(cast, hs[..n]).None?
    ensures Length(cast, hs).None?
  {
    if n < |hs| {
      assert Front(hs)[..n] == hs[..n];
      LengthStaysNone(cast, Front(hs), n);
    } else {
      assert hs[..n] == hs;
    }
  }

  lemma {:induction false} LastLengthDecides(cast: Cast, hs: seq<Header>, i: nat)
    requires Length(cast, hs).Some? && i < |hs| && Announces(hs[i].name)
    requires forall j | i < j < |hs| :: !Announces(hs[j].name)
    ensures Length(cast, hs) == cast(hs[i].value)
  {
    assert IsLength(Last(hs)) <==> Announces(Last(hs).name);
    if i < |hs| - 1 {
      LastLengthDecides(cast, Front(hs), i);
    }
  }

  /** Headers none of which announces a length announce none. */
  lemma {:induction false} NoLengthIsZero(cast: Cast, hs: seq<Header>)
    requires forall j | 0 <= j < |hs| :: !Announces(hs[j].name)
    ensures Length(cast, hs) == Some(0)
  {
    if hs == [] {
    } else {
      NoLengthIsZero(cast, Front(hs));
      assert !IsLength(Last(hs));
    }
  }

  /** The same headers, but for the case of letters in their names. */
  predicate RecasedNames(hs: seq<Header>, gs: seq<Header>) {
    |hs| == |gs| && forall i | 0 <= i < |hs| :: hs[i].value == gs[i].value && Recased(hs[i].name, gs[i].name)
  }

  lemma RecasedAnnounces(a: string, b: string)
    requires Recased(a, b)
    ensures Announces(a) <==> Announces(b)
  {}

  /** The case of header names does not matter to the length. */
  lemma {:induction false} RecasedLength(cast: Cast, hs: seq<Header>, gs: seq<Header>)
    requires RecasedNames(hs, gs)
    ensures Length(cast, hs) == Length(cast, gs)
  {
    if hs == [] {
    } else {
      RecasedLength(cast, Front(hs), Front(gs));
      RecasedAnnounces(Last(hs).name, Last(gs).name);
      assert IsLength(Last(hs)) <==> IsLength(Last(gs));
    }
  }

  // ----- one call of consume -------------------------------------------------------------------------------

  function Yield(resume: Resume, k: Config): Consumed<Config> {
    Consumed(More, k.(resume := resume))
  }

  /** Leaving the coroutine without yielding marks it finished. */
  function Leave(verdict: Verdict, k: Config): Consumed<Config> {
    Consumed(verdict, k.(resume := Finished))
  }

  function Expect(k: Config, c: char, wanted: char, next: Resume): Consumed<Config> {
    if c != wanted then Leave(Reject, k) else Yield(next, k)
  }

  function MethodLoop(k: Config, c: char): Consumed<Config> {
    if IsToken(c) && c != ' ' then Yield(MethodChar, k.(req := k.req.(verb := k.req.verb + [c])))
    else if k.req.verb == "" then Leave(Reject, k)
    else Expect(k, c, ' ', MethodSpace)
  }

  function UriLoop(k: Config, c: char): Consumed<Config> {
    if !IsCtl(c) && c != ' ' then Yield(UriChar, k.(req := k.req.(uri := k.req.uri + [c])))
    else if k.req.uri == "" then Leave(Reject, k)
    else Expect(k, c, ' ', UriSpace)
  }

  function MajorLoop(k: Config, c: char): Consumed<Config> {
    if IsDigit(c) then Yield(MajorDigit, k.(req := k.req.(major := k.req.major * 10 + DigitValue(c))))
    else Expect(k, c, '.', SeenDot)
  }

  function MinorLoop(k: Config, c: char): Consumed<Config> {
    if IsDigit(c) then Yield(MinorDigit, k.(req := k.req.(minor := k.req.minor * 10 + DigitValue(c))))
    else Expect(k, c, '\r', LineCr)
  }

  function HeadersLoop(k: Config, c: char): (r: Consumed<Config>)
    ensures Ready(r.config)
  {
    if (IsToken(c) && c != '\r') || c == ' ' || c == '\t' then
      if c == ' ' || c == '\t' then
        if k.req.headers == [] then Leave(Reject, k) else LwsLoop(k, c)
      else NameLoop(k.(req := k.req.(headers := k.req.headers + [Header("", "")])), c)
    else Expect(k, c, '\r', LastCr)
  }

  function LwsLoop(k: Config, c: char): (r: Consumed<Config>)
    requires k.req.headers != []
    ensures Ready(r.config)
  {
    if c == ' ' || c == '\t' then Yield(FoldLws, k) else ValueLoop(k, c)
  }

  function NameLoop(k: Config, c: char): (r: Consumed<Config>)
    requires k.req.headers != []
    ensures Ready(r.config)
  {
    if IsToken(c) && c != ':' then
      var hs := k.req.headers;
      Yield(NameChar, k.(req := k.req.(headers := hs[|hs| - 1 := Last(hs).(name := Last(hs).name + [c])])))
    else Expect(k, c, ':', NameColon)
  }

  function ValueLoop(k: Config, c: char): (r: Consumed<Config>)
    requires k.req.headers != []
    ensures Ready(r.config)
  {
    if IsChar(c) && !IsCtl(c) && c != '\r' then
      var hs := k.req.headers;
      Yield(ValueChar, k.(req := k.req.(headers := hs[|hs| - 1 := Last(hs).(value := Last(hs).value + [c])])))
    else Expect(k, c, '\r', FieldCr)
  }

  function ContentLoop(k: Config): Consumed<Config> {
    if |k.content| < k.length then Yield(ContentByte, k) else Leave(Accept, k)
  }

  function Step(cast: Cast, k: Config, c: char): (r: Consumed<Config>)
    requires Ready(k)
    ensures Ready(r.config)
  {
    match k.resume
    case Begin => MethodLoop(Config(Begin, Request("", "", 0, 0, []), "", 0), c)
    case MethodChar => MethodLoop(k, c)
    case MethodSpace => UriLoop(k, c)
    case UriChar => UriLoop(k, c)
    case UriSpace => Expect(k, c, 'H', SeenH)
    case SeenH => Expect(k, c, 'T', SeenHT)
    case SeenHT => Expect(k, c, 'T', SeenHTT)
    case SeenHTT => Expect(k, c, 'P', SeenHTTP)
    case SeenHTTP => Expect(k, c, '/', SeenSlash)
    case SeenSlash => if !IsDigit(c) then Leave(Reject, k) else MajorLoop(k, c)
    case MajorDigit => MajorLoop(k, c)
    case SeenDot => if !IsDigit(c) then Leave(Reject, k) else MinorLoop(k, c)
    case MinorDigit => MinorLoop(k, c)
    case LineCr => Expect(k, c, '\n', LineLf)
    case LineLf => HeadersLoop(k, c)
    case FoldLws => LwsLoop(k, c)
    case NameChar => NameLoop(k, c)
    case NameColon => Expect(k, c, ' ', NameSpace)
    case NameSpace => ValueLoop(k, c)
    case ValueChar => ValueLoop(k, c)
    case FieldCr => Expect(k, c, '\n', FieldLf)
    case FieldLf => HeadersLoop(k, c)
    case LastCr =>
      if c != '\n' then Leave(Reject, k)
      else
        var n := Length(cast, k.req.headers);
        if n.None? then Leave(Reject, k) else ContentLoop(k.(length := n.value))
    case ContentByte => ContentLoop(k.(content := k.content + [c]))
    case Finished => Leave(Accept, k)
  }

  /** Consume bytes until a verdict is reached or the input ends. */
  function Run(cast: Cast, k: Config, s: string): (o: Outcome<Config, Config>)
    requires Ready(k)
    ensures o.Pending? ==> Ready(o.config)
    ensures o.Done? ==> 0 < o.used <= |s|
    decreases s
  {
    if s == "" then Pending(k)
    else
      var r := Step(cast, k, s[0]);
      match r.verdict
      case More => Shift(Run(cast, r.config, s[1..]), 1)
      case Accept => Done(true, r.config, 1)
      case Reject => Done(false, r.config, 1)
  }

  // ----- splitting the input ---------------------------------------------------------------------------

  /** A run over two pieces is the run over the first continued, if still undecided, over the second. */
  lemma {:induction false} RunAppend(cast: Cast, k: Config, a: string, b: string)
    requires Ready(k)
    ensures var o := Run(cast, k, a);
            Run(cast, k, a + b) == if o.Pending? then Shift(Run(cast, o.config, b), |a|) else o
    decreases a
  {
    if a == "" {
      assert a + b == b;
    } else {
      assert (a + b)[1..] == a[1..] + b;
      RunAppend(cast, Step(cast, k, a[0]).config, a[1..], b);
    }
  }

  /** Successive calls of `parse` on successive chunks, stopping at the first verdict. */
  function RunChunks(cast: Cast, k: Config, chunks: seq<string>): (o: Outcome<Config, Config>)
    requires Ready(k)
    ensures o.Pending? ==> Ready(o.config)
    decreases chunks
  {
    if chunks == [] then Pending(k)
    else
      var o := Run(cast, k, chunks[0]);
      if o.Done? then o else Shift(RunChunks(cast, o.config, chunks[1..]), |chunks[0]|)
  }

  /** However the input is cut into chunks, the verdict, the request, the content and the total consumed are those
      of one `parse` call over the whole input. */
  lemma {:induction false} ChunkIndependence(cast: Cast, k: Config, chunks: seq<string>)
    requires Ready(k)
    ensures RunChunks(cast, k, chunks) == Run(cast, k, Join(chunks))
    decreases chunks
  {
    if chunks == [] {
    } else {
      RunAppend(cast, k, chunks[0], Join(chunks[1..]));
      if Run(cast, k, chunks[0]).Pending? {
        ChunkIndependence(cast, Run(cast, k, chunks[0]).config, chunks[1..]);
      }
    }
  }

  // ----- the parser object -----------------------------------------------------------------------------

  /** The request structure the parser fills in; nothing in it is initialised. */
  class RequestRecord {
    var verb: string
    var uri: string
    var major: int
    var minor: int
    var headers: seq<Header>
    var content: string

    function Value(): Request
      reads this
    {
      Request(verb, uri, major, minor, headers)
    }
  }

  class RequestParser {
    /** The coroutine's resume point; left as Finished by any call that does not yield. */
    var resume: Resume
    var contentLength: nat
    const cast: Cast

    constructor (cast: Cast)
      ensures resume == Begin && this.cast == cast
    {
      this.cast := cast;
      resume := Begin;
    }

    function View(req: RequestRecord): Config
      reads this, req
    {
      Config(resume, req.Value(), req.content, contentLength)
    }

    method Consume(req: RequestRecord, c: char) returns (verdict: Verdict)
      requires Ready(View(req))
      modifies this, req
      ensures Consumed(verdict, View(req)) == Step(cast, old(View(req)), c)
    {
      var from := resume;
      resume := Finished;
      if InVersion(from) {
        verdict := ConsumeVersion(req, from, c);
      } else if InLine(from) {
        verdict := ConsumeLine(req, from, c);
      } else {
        verdict := ConsumeRest(req, from, c);
      }
    }

    method ConsumeLine(req: RequestRecord, from: Resume, c: char) returns (verdict: Verdict)
      requires resume == Finished && InLine(from) && !InVersion(from)
      modifies this, req
      ensures Consumed(verdict, View(req)) == Step(cast, old(View(req)).(resume := from), c)
    {
      match from
      case Begin =>
        req.verb, req.uri, req.major, req.minor, req.headers, req.content := "", "", 0, 0, [], "";
        contentLength := 0;
        verdict := InMethod(req, c);
      case MethodChar => verdict := InMethod(req, c);
      case MethodSpace => verdict := InUri(req, c);
      case UriChar => verdict := InUri(req, c);
    }

    method ConsumeVersion(req: RequestRecord, from: Resume, c: char) returns (verdict: Verdict)
      requires resume == Finished && InVersion(from)
      modifies this, req
      ensures Consumed(verdict, View(req)) == Step(cast, old(View(req)).(resume := from), c)
    {
      match from
      case UriSpace => verdict := Want(req, c, 'H', SeenH);
      case SeenH => verdict := Want(req, c, 'T', SeenHT);
      case SeenHT => verdict := Want(req, c, 'T', SeenHTT);
      case SeenHTT => verdict := Want(req, c, 'P', SeenHTTP);
      case SeenHTTP => verdict := Want(req, c, '/', SeenSlash);
      case SeenSlash =>
        if !IsDigit(c) { return Reject; }
        verdict := InMajor(req, c);
      case MajorDigit => verdict := InMajor(req, c);
      case SeenDot =>
        if !IsDigit(c) { return Reject; }
        verdict := InMinor(req, c);
      case MinorDigit => verdict := InMinor(req, c);
      case LineCr => verdict := Want(req, c, '\n', LineLf);
    }

    method ConsumeRest(req: RequestRecord, from: Resume, c: char) returns (verdict: Verdict)
      requires resume == Finished && !InLine(from) && Ready(View(req).(resume := from))
      modifies this, req
      ensures Consumed(verdict, View(req)) == Step(cast, old(View(req)).(resume := from), c)
    {
      match from
      case LineLf => verdict := InHeaders(req, c);
      case FoldLws => verdict := InLws(req, c);
      case NameChar => verdict := InName(req, c);
      case NameColon => verdict := Want(req, c, ' ', NameSpace);
      case NameSpace => verdict := InValue(req, c);
      case ValueChar => verdict := InValue(req, c);
      case FieldCr => verdict := Want(req, c, '\n', FieldLf);
      case FieldLf => verdict := InHeaders(req, c);
      case LastCr =>
        if c != '\n' { return Reject; }
        var length := FindLength(req);
        if length.None? { return Reject; }
        contentLength := length.value;
        verdict := InContent(req);
      case ContentByte =>
        req.content := req.content + [c];
        verdict := InContent(req);
      case Finished => verdict := Accept;
    }

    method Want(req: RequestRecord, c: char, wanted: char, next: Resume) returns (verdict: Verdict)
      requires resume == Finished
      modifies this
      ensures Consumed(verdict, View(req)) == Expect(old(View(req)), c, wanted, next)
    {
      if c != wanted { return Reject; }
      resume := next;
      verdict := More;
    }

    method InMethod(req: RequestRecord, c: char) returns (verdict: Verdict)
      requires resume == Finished
      modifies this, req
      ensures Consumed(verdict, View(req)) == MethodLoop(old(View(req)), c)
    {
      if IsChar(c) && !IsCtl(c) && !IsTspecial(c) && c != ' ' {
        req.verb := req.verb + [c];
        resume := MethodChar;
        return More;
      }
      if req.verb == "" { return Reject; }
      verdict := Want(req, c, ' ', MethodSpace);
    }

    method InUri(req: RequestRecord, c: char) returns (verdict: Verdict)
      requires resume == Finished
      modifies this, req
      ensures Consumed(verdict, View(req)) == UriLoop(old(View(req)), c)
    {
      if !IsCtl(c) && c != ' ' {
        req.uri := req.uri + [c];
        resume := UriChar;
        return More;
      }
      if req.uri == "" { return Reject; }
      verdict := Want(req, c, ' ', UriSpace);
    }

    method InMajor(req: RequestRecord, c: char) returns (verdict: Verdict)
      requires resume == Finished
      modifies this, req
      ensures Consumed(verdict, View(req)) == MajorLoop(old(View(req)), c)
    {
      if IsDigit(c) {
        req.major := req.major * 10 + DigitValue(c);
        resume := MajorDigit;
        return More;
      }
      verdict := Want(req, c, '.', SeenDot);
    }

    method InMinor(req: RequestRecord, c: char) returns (verdict: Verdict)
      requires resume == Finished
      modifies this, req
      ensures Consumed(verdict, View(req)) == MinorLoop(old(View(req)), c)
    {
      if IsDigit(c) {
        req.minor := req.minor * 10 + DigitValue(c);
        resume := MinorDigit;
        return More;
      }
      verdict := Want(req, c, '\r', LineCr);
    }

    method InHeaders(req: RequestRecord, c: char) returns (verdict: Verdict)
      requires resume == Finished
      modifies this, req
      ensures Consumed(verdict, View(req)) == HeadersLoop(old(View(req)), c)
    {
      if (IsChar(c) && !IsCtl(c) && !IsTspecial(c) && c != '\r') || c == ' ' || c == '\t' {
        if c == ' ' || c == '\t' {
          if req.headers == [] { return Reject; }
          verdict := InLws(req, c);
        } else {
          req.headers := req.headers + [Header("", "")];
          verdict := InName(req, c);
        }
      } else {
        verdict := Want(req, c, '\r', LastCr);
      }
    }

    method InLws(req: RequestRecord, c: char) returns (verdict: Verdict)
      requires resume == Finished && req.headers != []
      modifies this, req
      ensures Consumed(verdict, View(req)) == LwsLoop(old(View(req)), c)
    {
      if c == ' ' || c == '\t' {
        resume := FoldLws;
        return More;
      }
      verdict := InValue(req, c);
    }

    method InName(req: RequestRecord, c: char) returns (verdict: Verdict)
      requires resume == Finished && req.headers != []
      modifies this, req
      ensures Consumed(verdict, View(req)) == NameLoop(old(View(req)), c)
    {
      if IsChar(c) && !IsCtl(c) && !IsTspecial(c) && c != ':' {
        var h := Last(req.headers);
        req.headers := req.headers[|req.headers| - 1 := h.(name := h.name + [c])];
        resume := NameChar;
        return More;
      }
      verdict := Want(req, c, ':', NameColon);
    }

    method InValue(req: RequestRecord, c: char) returns (verdict: Verdict)
      requires resume == Finished && req.headers != []
      modifies this, req
      ensures Consumed(verdict, View(req)) == ValueLoop(old(View(req)), c)
    {
      if IsChar(c) && !IsCtl(c) && c != '\r' {
        var h := Last(req.headers);
        req.headers := req.headers[|req.headers| - 1 := h.(value := h.value + [c])];
        resume := ValueChar;
        return More;
      }
      verdict := Want(req, c, '\r', FieldCr);
    }

    method FindLength(req: RequestRecord) returns (length: Option<nat>)
      ensures length == Length(cast, req.headers)
    {
      var hs := req.headers;
      length := Some(0);
      for i := 0 to |hs|
        invariant length.Some? && length == Length(cast, hs[..i])
      {
        assert Front(hs[..i + 1]) == hs[..i] && Last(hs[..i + 1]) == hs[i];
        if HeadersEqual(hs[i].name, CONTENT_LENGTH) {
          length := cast(hs[i].value);
          if length.None? {
            LengthStaysNone(cast, hs, i + 1);
            return;
          }
        }
      }
      assert hs[..|hs|] == hs;
    }

    method InContent(req: RequestRecord) returns (verdict: Verdict)
      requires resume == Finished
      modifies this
      ensures Consumed(verdict, View(req)) == ContentLoop(old(View(req)))
    {
      if |req.content| < contentLength {
        resume := ContentByte;
        return More;
      }
      verdict := Accept;
    }

    /** Consume input until a verdict is reached; `begin` is the position after the last byte consumed. */
    method Parse(req: RequestRecord, input: string) returns (verdict: Verdict, begin: nat)
      requires Ready(View(req))
      modifies this, req
      ensures match Run(cast, old(View(req)), input)
              case Pending(k) => verdict == More && begin == |input| && k == View(req)
              case Done(ok, k, used) =>
                verdict == (if ok then Accept else Reject) && begin == used && k == View(req)
    {
      begin := 0;
      while begin < |input|
        invariant 0 <= begin <= |input|
        invariant Ready(View(req))
        invariant Run(cast, old(View(req)), input) == Shift(Run(cast, View(req), input[begin..]), begin)
      {
        ghost var rest := input[begin..];
        assert rest[1..] == input[begin + 1..];
        verdict := Consume(req, input[begin]);
        begin := begin + 1;
        if !verdict.More? {
          return;
        }
      }
      verdict := More;
    }
  }
}
