/** Printing requests: the HTTP client's request text and the header lines a reply is sent with, and how both
    parsers read them back. */
module RequestPrinter {
  import opened Basics
  import opened HttpTypes
  import opened RequestGrammar
  import TableParser
  import TableParserCorrect
  import CoroutineParser
  import ParsersAgree

  // ----- decimal numbers -------------------------------------------------------------------------------

  function Decimal(n: nat): (s: string)
    ensures s != "" && Digits(s)
  {
    if n < 10 then ['0' + n as char] else Decimal(n / 10) + ['0' + (n % 10) as char]
  }

  lemma {:induction false} DecimalDenotes(n: nat)
    ensures Number(Decimal(n)) == n
  {
    if n >= 10 {
      DecimalDenotes(n / 10);
      TableParserCorrect.NumberSnoc(Decimal(n / 10), '0' + (n % 10) as char);
    } else {
      TableParserCorrect.NumberSnoc("", '0' + n as char);
      assert "" + Decimal(n) == Decimal(n);
    }
  }

  lemma {:induction false} DigitsDenoteNat(s: string)
    requires Digits(s)
    ensures Number(s) >= 0
  {
    if s == "" {
    } else {
      DigitsDenoteNat(Front(s));
    }
  }

  // ----- printing --------------------------------------------------------------------------------------

  function HeadersText(hs: seq<Header>): string {
    if hs == [] then "" else HeadersText(Front(hs)) + Last(hs).name + ": " + Last(hs).value + CRLF
  }

  function Print(r: Request): string
    requires r.major >= 0 && r.minor >= 0
  {
    r.verb + " " + r.uri + " HTTP/" + Decimal(r.major) + "." + Decimal(r.minor) + CRLF + HeadersText(r.headers) + CRLF
  }

  predicate PrintableHeader(h: Header) {
    h.name != "" && Tokens(h.name) && Text(h.value)
  }

  /** Requests that survive printing. */
  predicate Printable(r: Request) {
    && r.verb != "" && Tokens(r.verb) && UriChars(r.uri)
    && r.major >= 0 && r.minor >= 0
    && forall i | 0 <= i < |r.headers| :: PrintableHeader(r.headers[i])
  }

  /** The syntax tree of a printed header section: one line per header, no folds. */
  function Unfolded(hs: seq<Header>): seq<Field> {
    if hs == [] then [] else Unfolded(Front(hs)) + [Field(Last(hs).name, Last(hs).value, [])]
  }

  lemma UnfoldedField(h: Header)
    ensures var f := Field(h.name, h.value, []);
            FieldText(f) == h.name + ": " + h.value && FieldHeader(f) == h
  {
    assert h.value + FoldsValue([]) == h.value;
  }

  lemma {:induction false} UnfoldedText(hs: seq<Header>)
    ensures FieldsText(Unfolded(hs)) == HeadersText(hs)
    ensures FieldHeaders(Unfolded(hs)) == hs
  {
    if hs == [] {
    } else {
      var h := Last(hs);
      var f := Field(h.name, h.value, []);
      UnfoldedText(Front(hs));
      TableParserCorrect.FieldsSnoc(Unfolded(Front(hs)), f);
      UnfoldedField(h);
      Assoc(HeadersText(Front(hs)), h.name, ": ");
      Assoc(HeadersText(Front(hs)), h.name + ": ", h.value);
      assert hs == Front(hs) + [h];
    }
  }

  lemma {:induction false} UnfoldedOk(hs: seq<Header>)
    requires forall i | 0 <= i < |hs| :: PrintableHeader(hs[i])
    ensures FieldsOk(Unfolded(hs))
  {
    if hs == [] {
    } else {
      UnfoldedOk(Front(hs));
      TableParserCorrect.FieldsSnoc(Unfolded(Front(hs)), Field(Last(hs).name, Last(hs).value, []));
    }
  }

  /** Printing then parsing gives the request back, ending exactly at the last byte printed. */
  lemma {:induction false} PrintThenParse(blank: Request, r: Request, rest: string)
    requires TableParser.Fresh(blank) && Printable(r)
    ensures TableParser.Run(TableParser.Start(blank), Print(r) + rest) == Done(true, r, |Print(r)|)
  {
    var m := Message(r.verb, r.uri, Decimal(r.major), Decimal(r.minor), Unfolded(r.headers));
    DecimalDenotes(r.major);
    DecimalDenotes(r.minor);
    UnfoldedText(r.headers);
    UnfoldedOk(r.headers);
    assert MessageText(m) == Print(r);
    TableParserCorrect.Complete(blank, m, rest);
  }

  // ----- whatever is accepted can be printed -------------------------------------------------------------

  lemma {:induction false} FoldsValueText(folds: seq<Fold>)
    requires FoldsOk(folds)
    ensures Text(FoldsValue(folds))
  {
    if folds == [] {
    } else {
      FoldsValueText(Front(folds));
    }
  }

  lemma {:induction false} FieldsPrintable(fields: seq<Field>)
    requires FieldsOk(fields)
    ensures forall i | 0 <= i < |FieldHeaders(fields)| :: PrintableHeader(FieldHeaders(fields)[i])
  {
    if fields == [] {
    } else {
      FieldsPrintable(Front(fields));
      FoldsValueText(Last(fields).folds);
    }
  }

  lemma {:induction false} AcceptedIsPrintable(blank: Request, s: string)
    requires TableParser.Fresh(blank)
    ensures var o := TableParser.Run(TableParser.Start(blank), s); o.Done? && o.ok ==> Printable(o.result)
  {
    var o := TableParser.Run(TableParser.Start(blank), s);
    if o.Done? && o.ok {
      TableParserCorrect.Sound(blank, s, o.used, o.result);
      var m :| MessageOk(m) && MessageText(m) == s[..o.used] && Meaning(m) == o.result;
      DigitsDenoteNat(m.major);
      DigitsDenoteNat(m.minor);
      FieldsPrintable(m.fields);
    }
  }

  /** A request is read back from its printed text exactly when it is printable. */
  lemma {:induction false} ReadBackIffPrintable(blank: Request, r: Request)
    requires TableParser.Fresh(blank) && r.major >= 0 && r.minor >= 0
    ensures TableParser.Run(TableParser.Start(blank), Print(r)) == Done(true, r, |Print(r)|) <==> Printable(r)
  {
    AcceptedIsPrintable(blank, Print(r));
    if Printable(r) {
      PrintThenParse(blank, r, "");
      assert Print(r) + "" == Print(r);
    }
  }

  /** Accept, print and parse again: the same request, whatever text it was first read from. */
  lemma {:induction false} ReparseIsFixpoint(blank: Request, s: string)
    requires TableParser.Fresh(blank)
    ensures var o := TableParser.Run(TableParser.Start(blank), s);
            o.Done? && o.ok ==>
              && Printable(o.result)
              && TableParser.Run(TableParser.Start(blank), Print(o.result)) == Done(true, o.result, |Print(o.result)|)
  {
    AcceptedIsPrintable(blank, s);
    var o := TableParser.Run(TableParser.Start(blank), s);
    if o.Done? && o.ok {
      ReadBackIffPrintable(blank, o.result);
    }
  }

  // ----- requests with content ---------------------------------------------------------------------------

  /** The coroutine parser has read this request and this content, and no more. */
  predicate ReadWithContent(o: Outcome<CoroutineParser.Config, CoroutineParser.Config>, r: Request, content: string)
    requires r.major >= 0 && r.minor >= 0
  {
    o.Done? && o.ok && o.result.req == r && o.result.content == content && o.used == |Print(r)| + |content|
  }

  /** The coroutine parser reads a request and its content back from the printed request followed by the content, if
      and only if the request is printable, its URI is not empty, its values are 7-bit and its headers announce
      exactly that content. */
  lemma {:induction false} CoroutineReadsBackIff(cast: CoroutineParser.Cast, any: CoroutineParser.Config, r: Request,
                                                 content: string, rest: string)
    requires any.resume.Begin? && r.major >= 0 && r.minor >= 0
    ensures ReadWithContent(CoroutineParser.Run(cast, any, Print(r) + (content + rest)), r, content)
            <==> Printable(r) && r.uri != "" && ParsersAgree.AsciiValues(r.headers)
                 && CoroutineParser.Length(cast, r.headers) == Some(|content|)
  {
    var s, blank := Print(r) + (content + rest), Request("", "", 0, 0, []);
    ParsersAgree.ParsersAgree(cast, blank, any, s);
    ParsersAgree.CoroutineAcceptsHeadAndContent(cast, blank, any, s);
    AcceptedIsPrintable(blank, s);
    if Printable(r) {
      PrintThenParse(blank, r, content + rest);
      ContentAfter(Print(r), content, rest);
    }
  }

  lemma ContentAfter(head: string, content: string, rest: string)
    ensures (head + (content + rest))[|head|..|head| + |content|] == content
  {}

  lemma RecasedTokens(a: string, b: string)
    requires CoroutineParser.Recased(a, b)
    ensures Tokens(a) <==> Tokens(b)
  {
    forall i | 0 <= i < |a|
      ensures TokenChar(a[i]) <==> TokenChar(b[i])
    {
      assert CoroutineParser.SameButCase(a[i], b[i]);
    }
  }

  lemma RecasedPrintable(r: Request, q: Request)
    requires q == r.(headers := q.headers) && CoroutineParser.RecasedNames(r.headers, q.headers)
    ensures Printable(r) <==> Printable(q)
    ensures ParsersAgree.AsciiValues(r.headers) <==> ParsersAgree.AsciiValues(q.headers)
  {
    forall i | 0 <= i < |r.headers|
      ensures PrintableHeader(r.headers[i]) <==> PrintableHeader(q.headers[i])
    {
      RecasedTokens(r.headers[i].name, q.headers[i].name);
    }
  }

  /** The case of header names does not matter to how much content is read with a request. */
  lemma RecasedReadsBack(cast: CoroutineParser.Cast, any: CoroutineParser.Config, r: Request, q: Request,
                         content: string, rest: string)
    requires any.resume.Begin? && r.major >= 0 && r.minor >= 0
    requires q == r.(headers := q.headers) && CoroutineParser.RecasedNames(r.headers, q.headers)
    ensures ReadWithContent(CoroutineParser.Run(cast, any, Print(r) + (content + rest)), r, content)
            <==> ReadWithContent(CoroutineParser.Run(cast, any, Print(q) + (content + rest)), q, content)
  {
    CoroutineReadsBackIff(cast, any, r, content, rest);
    CoroutineReadsBackIff(cast, any, q, content, rest);
    RecasedPrintable(r, q);
    CoroutineParser.RecasedLength(cast, r.headers, q.headers);
  }

  /** Decimal numbers, as a conversion. */
  function DecimalCast(s: string): Option<nat> {
    if s != "" && Digits(s) then
      DigitsDenoteNat(s);
      Some(Number(s))
    else None
  }

  function LengthHeader(n: nat): Header {
    Header(CoroutineParser.CONTENT_LENGTH, Decimal(n))
  }

  lemma LengthAnnounced(hs: seq<Header>, n: nat)
    requires CoroutineParser.Length(DecimalCast, hs).Some?
    ensures CoroutineParser.Length(DecimalCast, hs + [LengthHeader(n)]) == Some(n)
  {
    var h := LengthHeader(n);
    assert Front(hs + [h]) == hs && Last(hs + [h]) == h;
    assert CoroutineParser.IsLength(h);
    DecimalDenotes(n);
  }

  lemma LengthHeaderOk(n: nat)
    ensures PrintableHeader(LengthHeader(n)) && Ascii(LengthHeader(n).value)
  {
    var name := CoroutineParser.CONTENT_LENGTH;
    assert name == "Content-Length" && Tokens(name);
  }

  lemma OneMoreHeader(r: Request, h: Header, n: nat)
    requires Printable(r) && ParsersAgree.AsciiValues(r.headers) && h == LengthHeader(n)
    ensures var q := r.(headers := r.headers + [h]); Printable(q) && ParsersAgree.AsciiValues(q.headers)
  {
    LengthHeaderOk(n);
  }

  /** With the length of the content in a last Content-Length header, whatever well-formed ones come before it, any
      content is read back with its request. */
  lemma {:induction false} ContentRoundTrip(any: CoroutineParser.Config, r: Request, content: string, rest: string)
    requires any.resume.Begin? && Printable(r) && r.uri != "" && ParsersAgree.AsciiValues(r.headers)
    requires CoroutineParser.Length(DecimalCast, r.headers).Some?
    ensures var sent := r.(headers := r.headers + [LengthHeader(|content|)]);
            ReadWithContent(CoroutineParser.Run(DecimalCast, any, Print(sent) + (content + rest)), sent, content)
  {
    var sent := r.(headers := r.headers + [LengthHeader(|content|)]);
    LengthAnnounced(r.headers, |content|);
    OneMoreHeader(r, LengthHeader(|content|), |content|);
    CoroutineReadsBackIff(DecimalCast, any, sent, content, rest);
  }

  // ----- the HTTP client ---------------------------------------------------------------------------------

  /** The request the client means to send. */
  function ClientRequest(server: string, path: string): Request {
    Request("GET", path, 1, 0,
            [Header("Host", server), Header("Accept", "*/*"), Header("Connection", "close")])
  }

  /** The request text, written to the stream piece by piece. */
  method WriteClientRequest(server: string, path: string) returns (stream: string)
    ensures stream == Print(ClientRequest(server, path))
  {
    stream := "GET " + path + " HTTP/1.0\r\n";
    stream := stream + "Host: " + server + "\r\n";
    stream := stream + "Accept: */*\r\n";
    stream := stream + "Connection: close\r\n\r\n";
    ClientText(server, path);
  }

  lemma Literals()
    ensures "Host" + ": " == "Host: "
    ensures "Accept" + ": " + "*/*" + CRLF == "Accept: */*\r\n"
    ensures "Connection" + ": " + "close" + CRLF + CRLF == "Connection: close\r\n\r\n"
    ensures "GET" + " " == "GET "
    ensures " HTTP/" + "1" + "." + "0" + CRLF == " HTTP/1.0\r\n"
  {}

  lemma Assoc4(x: string, a: string, b: string, c: string, d: string)
    ensures x + a + b + c + d == x + (a + b + c + d)
  {}

  lemma Assoc5(x: string, a: string, b: string, c: string, d: string, e: string)
    ensures x + a + b + c + d + e == x + (a + b + c + d + e)
  {}

  lemma ClientHeaders(server: string, path: string)
    ensures HeadersText(ClientRequest(server, path).headers) + CRLF
         == "Host: " + server + "\r\n" + "Accept: */*\r\n" + "Connection: close\r\n\r\n"
  {
    var hs := ClientRequest(server, path).headers;
    var h1 := "Host: " + server + CRLF;
    var h2 := h1 + "Accept: */*\r\n";
    Literals();
    assert Front(Front(Front(hs))) == [];
    assert "" + "Host" == "Host";
    assert HeadersText(Front(Front(hs))) == h1;
    Assoc4(h1, "Accept", ": ", "*/*", CRLF);
    assert HeadersText(Front(hs)) == h2;
    Assoc5(h2, "Connection", ": ", "close", CRLF, CRLF);
  }

  lemma ClientText(server: string, path: string)
    ensures Print(ClientRequest(server, path))
         == "GET " + path + " HTTP/1.0\r\n"
            + "Host: " + server + "\r\n" + "Accept: */*\r\n" + "Connection: close\r\n\r\n"
  {
    var r := ClientRequest(server, path);
    var line := "GET " + path + " HTTP/1.0\r\n";
    Literals();
    ClientHeaders(server, path);
    assert Decimal(1) == "1" && Decimal(0) == "0";
    Assoc5("GET " + path, " HTTP/", "1", ".", "0", CRLF);
    Assoc(line, HeadersText(r.headers), CRLF);
    Assoc5(line, "Host: ", server, "\r\n", "Accept: */*\r\n", "Connection: close\r\n\r\n");
  }

  lemma ClientPrintable(server: string, path: string)
    ensures Printable(ClientRequest(server, path)) <==> UriChars(path) && Text(server)
  {
    var r := ClientRequest(server, path);
    if Printable(r) {
      assert PrintableHeader(r.headers[0]);
    }
  }

  /** The table-driven server reads the request the client meant exactly when the path has neither control
      characters nor spaces and the server name no control characters. */
  lemma {:induction false} ServerReadsClient(blank: Request, server: string, path: string)
    requires TableParser.Fresh(blank)
    ensures var r := ClientRequest(server, path);
            TableParser.Run(TableParser.Start(blank), Print(r)) == Done(true, r, |Print(r)|)
            <==> UriChars(path) && Text(server)
  {
    ReadBackIffPrintable(blank, ClientRequest(server, path));
    ClientPrintable(server, path);
  }

  lemma ClientHasNoLength(cast: CoroutineParser.Cast, server: string, path: string)
    ensures CoroutineParser.Length(cast, ClientRequest(server, path).headers) == Some(0)
  {
    var hs := ClientRequest(server, path).headers;
    assert |CoroutineParser.CONTENT_LENGTH| == 14;
    assert forall h | h in hs :: !CoroutineParser.IsLength(h);
    assert Front(Front(Front(hs))) == [];
    assert CoroutineParser.Length(cast, Front(Front(hs))) == Some(0);
    assert CoroutineParser.Length(cast, Front(hs)) == Some(0);
  }

  lemma ClientAscii(server: string, path: string)
    ensures ParsersAgree.AsciiValues(ClientRequest(server, path).headers) <==> Ascii(server)
  {
    var hs := ClientRequest(server, path).headers;
    assert ParsersAgree.AsciiValues(hs) ==> Ascii(hs[0].value);
    assert Ascii(hs[1].value) && Ascii(hs[2].value);
  }

  /** The coroutine server reads it under the same condition, a non-empty path and a 7-bit server name. */
  lemma {:induction false} CoroutineServerReadsClient(cast: CoroutineParser.Cast, any: CoroutineParser.Config,
                                                      server: string, path: string)
    requires any.resume.Begin?
    ensures var r := ClientRequest(server, path);
            var o := CoroutineParser.Run(cast, any, Print(r));
            o.Done? && o.ok && o.result.req == r && o.used == |Print(r)|
            <==> UriChars(path) && Text(server) && path != "" && Ascii(server)
  {
    var r := ClientRequest(server, path);
    var blank := Request("", "", 0, 0, []);
    ServerReadsClient(blank, server, path);
    ClientHasNoLength(cast, server, path);
    ParsersAgree.ParsersAgree(cast, blank, any, Print(r));
    ParsersAgree.CoroutineAcceptsHeadAndContent(cast, blank, any, Print(r));
    ClientAscii(server, path);
  }

  // ----- header lines of a reply -------------------------------------------------------------------------

  lemma {:induction false} JoinAppend(a: seq<string>, b: seq<string>)
    ensures Join(a + b) == Join(a) + Join(b)
  {
    if a == [] {
      assert a + b == b;
    } else {
      JoinAppend(a[1..], b);
      assert (a + b)[1..] == a[1..] + b;
      Assoc(a[0], Join(a[1..]), Join(b));
    }
  }

  /** The buffers of a reply, gathered: a status line, the header lines as requests have them, the content. */
  method ToBuffers(status: string, headers: seq<Header>, content: string) returns (buffers: seq<string>)
    ensures Join(buffers) == status + HeadersText(headers) + CRLF + content
  {
    buffers := [status];
    for i := 0 to |headers|
      invariant Join(buffers) == status + HeadersText(headers[..i])
    {
      var h := headers[i];
      var line := [h.name, ": ", h.value, CRLF];
      JoinAppend(buffers, line);
      JoinLine(h);
      assert Front(headers[..i + 1]) == headers[..i] && Last(headers[..i + 1]) == h;
      buffers := buffers + line;
    }
    assert headers[..|headers|] == headers;
    JoinAppend(buffers, [CRLF, content]);
    JoinTwo(CRLF, content);
    buffers := buffers + [CRLF, content];
  }

  lemma JoinTwo(a: string, b: string)
    ensures Join([a, b]) == a + b
  {
    assert [a, b][1..] == [b] && [b][1..] == [];
    assert Join([b]) == b + Join([]);
    assert b + "" == b;
  }

  lemma JoinLine(h: Header)
    ensures Join([h.name, ": ", h.value, CRLF]) == h.name + ": " + h.value + CRLF
  {
    JoinTwo(h.name, ": ");
    JoinTwo(h.value, CRLF);
    assert [h.name, ": ", h.value, CRLF] == [h.name, ": "] + [h.value, CRLF];
    JoinAppend([h.name, ": "], [h.value, CRLF]);
  }
}
