/** The table-driven parser accepts exactly the requests of the grammar, with exactly their meaning. */
module TableParserCorrect {
  import opened Basics
  import opened HttpTypes
  import opened TableParser
  import opened RequestGrammar

  // ----- lemmas about growing trees at the end -----------------------------------------------------------

  lemma NumberSnoc(s: string, c: char)
    ensures Number(s + [c]) == Number(s) * 10 + DigitValue(c)
  {
    assert (s + [c])[..|s|] == s;
  }

  lemma FoldsSnoc(folds: seq<Fold>, f: Fold)
    ensures FoldsText(folds + [f]) == FoldsText(folds) + CRLF + f.lws + f.text
    ensures FoldsValue(folds + [f]) == FoldsValue(folds) + f.text
    ensures FoldsOk(folds + [f]) <==> FoldsOk(folds) && FoldOk(f)
  {
    assert Front(folds + [f]) == folds;
  }

  lemma FieldsSnoc(fields: seq<Field>, f: Field)
    ensures FieldsText(fields + [f]) == FieldsText(fields) + FieldText(f) + CRLF
    ensures FieldHeaders(fields + [f]) == FieldHeaders(fields) + [FieldHeader(f)]
    ensures FieldsOk(fields + [f]) <==> FieldsOk(fields) && FieldOk(f)
  {
    assert Front(fields + [f]) == fields;
  }

  function AppendText(f: Field, c: char): Field {
    if f.folds == [] then f.(text := f.text + [c])
    else f.(folds := Front(f.folds) + [Last(f.folds).(text := Last(f.folds).text + [c])])
  }

  lemma AppendTextOk(f: Field, c: char)
    requires FieldOk(f) && !IsCtl(c)
    requires f.folds != [] && Last(f.folds).text == "" ==> c != ' '
    ensures FieldOk(AppendText(f, c))
    ensures FieldText(AppendText(f, c)) == FieldText(f) + [c]
    ensures FieldHeader(AppendText(f, c)) == Header(f.name, FieldHeader(f).value + [c])
  {
    if f.folds == [] {
      assert f.name + ": " + (f.text + [c]) + "" == f.name + ": " + f.text + "" + [c];
    } else {
      var init, last := Front(f.folds), Last(f.folds);
      assert f.folds == init + [last];
      FoldsSnoc(init, last);
      FoldsSnoc(init, last.(text := last.text + [c]));
    }
  }

  function AppendLws(f: Field, c: char): Field {
    if f.folds == [] then f
    else f.(folds := Front(f.folds) + [Last(f.folds).(lws := Last(f.folds).lws + [c])])
  }

  lemma AppendLwsOk(f: Field, c: char)
    requires FieldOk(f) && IsLws(c) && f.folds != [] && Last(f.folds).text == ""
    ensures FieldOk(AppendLws(f, c))
    ensures FieldText(AppendLws(f, c)) == FieldText(f) + [c]
    ensures FieldHeader(AppendLws(f, c)) == FieldHeader(f)
  {
    var init, last := Front(f.folds), Last(f.folds);
    assert f.folds == init + [last];
    FoldsSnoc(init, last);
    FoldsSnoc(init, last.(lws := last.lws + [c]));
  }

  function AddFold(f: Field, c: char): Field {
    f.(folds := f.folds + [Fold([c], "")])
  }

  lemma AddFoldOk(f: Field, c: char)
    requires FieldOk(f) && IsLws(c)
    ensures FieldOk(AddFold(f, c))
    ensures FieldText(AddFold(f, c)) == FieldText(f) + CRLF + [c]
    ensures FieldHeader(AddFold(f, c)) == FieldHeader(f)
  {
    FoldsSnoc(f.folds, Fold([c], ""));
    assert f.name + ": " + f.text + (FoldsText(f.folds) + CRLF + [c] + "") == FieldText(f) + CRLF + [c];
  }

  // ----- soundness of the header section -----------------------------------------------------------------

  /** The header lines completed so far, and the one being read. */
  datatype Cursor = Cursor(closed: seq<Field>, open: Field)

  predicate InHeaders(state: State) {
    || state.HeaderLineStart? || state.ExpectingNewline3? || Opened(state)
  }

  /** A header line is being read. */
  predicate Opened(state: State) {
    || state.HeaderName? || state.SpaceBeforeHeaderValue? || state.HeaderValue? || state.HeaderLws?
    || state.ExpectingNewline2?
  }

  /** The part of the line being read that has been consumed. */
  function OpenText(state: State, f: Field): string {
    match state
    case HeaderName => f.name
    case SpaceBeforeHeaderValue => f.name + ":"
    case HeaderValue => FieldText(f)
    case HeaderLws => FieldText(f)
    case ExpectingNewline2 => FieldText(f) + "\r"
    case ExpectingNewline3 => "\r"
    case _ => ""
  }

  ghost predicate OpenOk(state: State, f: Field) {
    && FieldOk(f)
    && (state.HeaderName? || state.SpaceBeforeHeaderValue? ==> f.text == "" && f.folds == [])
    && (state.HeaderValue? ==> f.folds != [] ==> Last(f.folds).text != "")
    && (state.HeaderLws? ==> f.folds != [] && Last(f.folds).text == "")
  }

  /** `p`, read since the end of the request line, is the text of the header lines at the cursor, and the
      headers filled in are their meaning. */
  ghost predicate FieldsBuilt(k: Config, u: Cursor, p: string) {
    && InHeaders(k.state) && Ready(k)
    && FieldsOk(u.closed)
    && (Opened(k.state) ==> OpenOk(k.state, u.open))
    && p == FieldsText(u.closed) + OpenText(k.state, u.open)
    && k.req.headers == FieldHeaders(u.closed) + (if Opened(k.state) then [FieldHeader(u.open)] else [])
  }

  function GrowFields(state: State, u: Cursor, c: char): Cursor {
    match state
    case HeaderLineStart =>
      if c == '\r' then u
      else if IsLws(c) && u.closed != [] then Cursor(Front(u.closed), AddFold(Last(u.closed), c))
      else u.(open := Field([c], "", []))
    case HeaderName => if c == ':' then u else u.(open := u.open.(name := u.open.name + [c]))
    case HeaderLws =>
      if c == '\r' then u else u.(open := if IsLws(c) then AppendLws(u.open, c) else AppendText(u.open, c))
    case HeaderValue => if c == '\r' then u else u.(open := AppendText(u.open, c))
    case ExpectingNewline2 => u.(closed := u.closed + [u.open])
    case _ => u
  }

  lemma UpdateLast<T>(s: seq<T>, x: T, y: T)
    ensures (s + [x])[|s| := y] == s + [y]
  {}

  lemma GrowName(k: Config, u: Cursor, p: string, c: char)
    requires FieldsBuilt(k, u, p) && k.state.HeaderName? && Step(k, c).verdict.More?
    ensures FieldsBuilt(Step(k, c).config, GrowFields(k.state, u, c), p + [c])
  {
    var name := u.open.name;
    Assoc(FieldsText(u.closed), name, [c]);
    if c == ':' {
      assert name + ":" == name + [c];
    } else {
      var f := u.open.(name := name + [c]);
      UpdateLast(FieldHeaders(u.closed), FieldHeader(u.open), FieldHeader(f));
    }
  }

  lemma GrowSeparator(k: Config, u: Cursor, p: string, c: char)
    requires FieldsBuilt(k, u, p) && k.state.SpaceBeforeHeaderValue? && Step(k, c).verdict.More?
    ensures FieldsBuilt(Step(k, c).config, GrowFields(k.state, u, c), p + [c])
  {
    Assoc(FieldsText(u.closed), u.open.name + ":", [c]);
    assert u.open.name + ":" + [c] == u.open.name + ": " + "" + "";
  }

  lemma GrowValue(k: Config, u: Cursor, p: string, c: char)
    requires FieldsBuilt(k, u, p) && (k.state.HeaderValue? || k.state.HeaderLws?) && Step(k, c).verdict.More?
    ensures FieldsBuilt(Step(k, c).config, GrowFields(k.state, u, c), p + [c])
  {
    Assoc(FieldsText(u.closed), FieldText(u.open), [c]);
    if c == '\r' {
      assert FieldText(u.open) + [c] == FieldText(u.open) + "\r";
    } else if k.state.HeaderLws? && IsLws(c) {
      AppendLwsOk(u.open, c);
    } else {
      GrowText(k, u, p, c);
    }
  }

  lemma GrowText(k: Config, u: Cursor, p: string, c: char)
    requires FieldsBuilt(k, u, p) && (k.state.HeaderValue? || k.state.HeaderLws?)
    requires !IsCtl(c) && !(k.state.HeaderLws? && IsLws(c))
    ensures FieldsBuilt(Config(HeaderValue, k.req.(headers := ExtendValue(k.req.headers, c))),
                        u.(open := AppendText(u.open, c)), p + [c])
  {
    Assoc(FieldsText(u.closed), FieldText(u.open), [c]);
    AppendTextOk(u.open, c);
    UpdateLast(FieldHeaders(u.closed), FieldHeader(u.open), FieldHeader(AppendText(u.open, c)));
  }

  lemma GrowLineEnd(k: Config, u: Cursor, p: string, c: char)
    requires FieldsBuilt(k, u, p) && k.state.ExpectingNewline2? && Step(k, c).verdict.More?
    ensures FieldsBuilt(Step(k, c).config, GrowFields(k.state, u, c), p + [c])
  {
    FieldsSnoc(u.closed, u.open);
    Assoc(FieldsText(u.closed), FieldText(u.open) + "\r", [c]);
    Assoc(FieldsText(u.closed), FieldText(u.open), CRLF);
    assert FieldText(u.open) + "\r" + [c] == FieldText(u.open) + CRLF;
  }

  lemma GrowFold(k: Config, u: Cursor, p: string, c: char)
    requires FieldsBuilt(k, u, p) && k.state.HeaderLineStart? && IsLws(c) && u.closed != []
    ensures FieldsBuilt(Config(HeaderLws, k.req), Cursor(Front(u.closed), AddFold(Last(u.closed), c)), p + [c])
  {
    var init, last := Front(u.closed), Last(u.closed);
    AddFoldOk(last, c);
    assert p == FieldsText(u.closed);
    Assoc(FieldsText(init), FieldText(last) + CRLF, [c]);
    Assoc(FieldsText(init), FieldText(last), CRLF);
  }

  lemma GrowNewField(k: Config, u: Cursor, p: string, c: char)
    requires FieldsBuilt(k, u, p) && k.state.HeaderLineStart? && IsToken(c)
    ensures FieldsBuilt(Config(HeaderName, k.req.(headers := k.req.headers + [Header([c], "")])),
                        u.(open := Field([c], "", [])), p + [c])
  {
    assert FieldHeader(Field([c], "", [])) == Header([c], "");
  }

  lemma GrowBlankLine(k: Config, u: Cursor, p: string, c: char)
    requires FieldsBuilt(k, u, p) && k.state.HeaderLineStart? && c == '\r'
    ensures FieldsBuilt(Config(ExpectingNewline3, k.req), u, p + [c])
  {
    assert p + [c] == FieldsText(u.closed) + "\r";
  }

  lemma GrowLineStart(k: Config, u: Cursor, p: string, c: char)
    requires FieldsBuilt(k, u, p) && k.state.HeaderLineStart? && Step(k, c).verdict.More?
    ensures FieldsBuilt(Step(k, c).config, GrowFields(k.state, u, c), p + [c])
  {
    if c == '\r' {
      GrowBlankLine(k, u, p, c);
    } else if IsLws(c) {
      assert u.closed == [] ==> FieldHeaders(u.closed) == [];
      GrowFold(k, u, p, c);
    } else {
      GrowNewField(k, u, p, c);
    }
  }

  lemma GrowsFields(k: Config, u: Cursor, p: string, c: char)
    requires FieldsBuilt(k, u, p) && Step(k, c).verdict.More?
    ensures FieldsBuilt(Step(k, c).config, GrowFields(k.state, u, c), p + [c])
  {
    match k.state
    case HeaderLineStart => GrowLineStart(k, u, p, c);
    case HeaderName => GrowName(k, u, p, c);
    case SpaceBeforeHeaderValue => GrowSeparator(k, u, p, c);
    case ExpectingNewline2 => GrowLineEnd(k, u, p, c);
    case ExpectingNewline3 =>
    case _ => GrowValue(k, u, p, c);
  }

  // ----- soundness of the request line -------------------------------------------------------------------

  function Rank(state: State): nat {
    match state
    case MethodStart => 0 case Method => 1 case Uri => 2 case VersionH => 3 case VersionT1 => 3
    case VersionT2 => 3 case VersionP => 3 case VersionSlash => 3 case MajorStart => 4 case Major => 5
    case MinorStart => 6 case Minor => 7 case ExpectingNewline1 => 7 case _ => 8
  }

  /** The part of the request line read before the parser is in the given state. */
  function LineText(state: State, m: Message): string {
    match state
    case MethodStart => ""
    case Method => m.verb
    case Uri => m.verb + " " + m.uri
    case VersionH => m.verb + " " + m.uri + " "
    case VersionT1 => m.verb + " " + m.uri + " H"
    case VersionT2 => m.verb + " " + m.uri + " HT"
    case VersionP => m.verb + " " + m.uri + " HTT"
    case VersionSlash => m.verb + " " + m.uri + " HTTP"
    case MajorStart => m.verb + " " + m.uri + " HTTP/"
    case Major => m.verb + " " + m.uri + " HTTP/" + m.major
    case MinorStart => m.verb + " " + m.uri + " HTTP/" + m.major + "."
    case Minor => m.verb + " " + m.uri + " HTTP/" + m.major + "." + m.minor
    case ExpectingNewline1 => m.verb + " " + m.uri + " HTTP/" + m.major + "." + m.minor + "\r"
    case _ => RequestLine(m)
  }

  /** The line read so far is well formed, and nothing is read ahead. */
  ghost predicate LineOk(state: State, m: Message) {
    var r := Rank(state);
    && Tokens(m.verb) && (m.verb == "" <==> r == 0)
    && UriChars(m.uri) && (r < 2 ==> m.uri == "")
    && Digits(m.major) && (m.major == "" <==> r < 5)
    && Digits(m.minor) && (m.minor == "" <==> r < 7)
  }

  /** The request filled in so far means what the line says; the versions count once the slash is read. */
  predicate LineMeans(k: Config, m: Message) {
    && k.req.verb == m.verb && k.req.uri == m.uri
    && (Rank(k.state) >= 4 ==> k.req.major == Number(m.major) && k.req.minor == Number(m.minor))
  }

  ghost predicate LineBuilt(k: Config, m: Message, p: string) {
    LineOk(k.state, m) && LineMeans(k, m) && p == LineText(k.state, m)
    && (Rank(k.state) < 8 ==> k.req.headers == [])
  }

  function GrowLine(state: State, m: Message, c: char): Message {
    match state
    case MethodStart => m.(verb := m.verb + [c])
    case Method => if c == ' ' then m else m.(verb := m.verb + [c])
    case Uri => if c == ' ' then m else m.(uri := m.uri + [c])
    case MajorStart => m.(major := m.major + [c])
    case Major => if c == '.' then m else m.(major := m.major + [c])
    case MinorStart => m.(minor := m.minor + [c])
    case Minor => if c == '\r' then m else m.(minor := m.minor + [c])
    case _ => m
  }

  lemma GrowMethodUri(k: Config, m: Message, p: string, c: char)
    requires LineBuilt(k, m, p) && Ready(k) && Rank(k.state) < 3 && Step(k, c).verdict.More?
    ensures LineBuilt(Step(k, c).config, GrowLine(k.state, m, c), p + [c])
  {
    var k', m' := Step(k, c).config, GrowLine(k.state, m, c);
    assert LineText(k'.state, m') == p + [c];
  }

  lemma GrowProtocol(k: Config, m: Message, p: string, c: char)
    requires LineBuilt(k, m, p) && Ready(k) && Rank(k.state) == 3 && Step(k, c).verdict.More?
    ensures LineBuilt(Step(k, c).config, m, p + [c])
  {
    var line := m.verb + " " + m.uri;
    match k.state
    case VersionH => assert line + " " + [c] == line + " H";
    case VersionT1 => assert line + " H" + [c] == line + " HT";
    case VersionT2 => assert line + " HT" + [c] == line + " HTT";
    case VersionP => assert line + " HTT" + [c] == line + " HTTP";
    case VersionSlash => assert line + " HTTP" + [c] == line + " HTTP/";
  }

  /** A digit of the major or the minor version. */
  lemma GrowMajorDigit(k: Config, m: Message, p: string, c: char)
    requires LineBuilt(k, m, p) && (k.state.MajorStart? || k.state.Major?) && IsDigit(c)
    requires Ready(k) && Step(k, c).verdict.More?
    ensures LineBuilt(Step(k, c).config, GrowLine(k.state, m, c), p + [c])
  {
    NumberSnoc(m.major, c);
    assert k.state.MajorStart? ==> m.major + [c] == [c];
    Assoc(m.verb + " " + m.uri + " HTTP/", m.major, [c]);
  }

  lemma GrowMinorDigit(k: Config, m: Message, p: string, c: char)
    requires LineBuilt(k, m, p) && (k.state.MinorStart? || k.state.Minor?) && IsDigit(c)
    requires Ready(k) && Step(k, c).verdict.More?
    ensures LineBuilt(Step(k, c).config, GrowLine(k.state, m, c), p + [c])
  {
    NumberSnoc(m.minor, c);
    assert k.state.MinorStart? ==> m.minor + [c] == [c];
    Assoc(m.verb + " " + m.uri + " HTTP/" + m.major + ".", m.minor, [c]);
  }

  /** The dot between them, and the two bytes that end the line. */
  lemma GrowDot(k: Config, m: Message, p: string, c: char)
    requires LineBuilt(k, m, p) && k.state.Major? && c == '.'
    requires Ready(k) && Step(k, c).verdict.More?
    ensures LineBuilt(Step(k, c).config, GrowLine(k.state, m, c), p + [c])
  {
    assert [c] == ".";
  }

  lemma GrowReturn(k: Config, m: Message, p: string, c: char)
    requires LineBuilt(k, m, p) && k.state.Minor? && c == '\r'
    requires Ready(k) && Step(k, c).verdict.More?
    ensures LineBuilt(Step(k, c).config, GrowLine(k.state, m, c), p + [c])
  {
    assert [c] == "\r";
  }

  lemma GrowLineFeed(k: Config, m: Message, p: string, c: char)
    requires LineBuilt(k, m, p) && k.state.ExpectingNewline1?
    requires Ready(k) && Step(k, c).verdict.More?
    ensures LineBuilt(Step(k, c).config, GrowLine(k.state, m, c), p + [c])
  {
    Assoc(m.verb + " " + m.uri + " HTTP/" + m.major + "." + m.minor, "\r", [c]);
    assert "\r" + [c] == CRLF;
  }

  lemma GrowMajor(k: Config, m: Message, p: string, c: char)
    requires LineBuilt(k, m, p) && Ready(k) && 4 <= Rank(k.state) < 6 && Step(k, c).verdict.More?
    ensures LineBuilt(Step(k, c).config, GrowLine(k.state, m, c), p + [c])
  {
    if IsDigit(c) {
      GrowMajorDigit(k, m, p, c);
    } else {
      GrowDot(k, m, p, c);
    }
  }

  lemma GrowMinor(k: Config, m: Message, p: string, c: char)
    requires LineBuilt(k, m, p) && Ready(k) && 6 <= Rank(k.state) < 8 && Step(k, c).verdict.More?
    ensures LineBuilt(Step(k, c).config, GrowLine(k.state, m, c), p + [c])
  {
    if k.state.ExpectingNewline1? {
      GrowLineFeed(k, m, p, c);
    } else if IsDigit(c) {
      GrowMinorDigit(k, m, p, c);
    } else {
      GrowReturn(k, m, p, c);
    }
  }

  lemma GrowsLine(k: Config, m: Message, p: string, c: char)
    requires LineBuilt(k, m, p) && Ready(k) && Rank(k.state) < 8 && Step(k, c).verdict.More?
    ensures LineBuilt(Step(k, c).config, GrowLine(k.state, m, c), p + [c])
  {
    if Rank(k.state) < 3 {
      GrowMethodUri(k, m, p, c);
    } else if Rank(k.state) == 3 {
      GrowProtocol(k, m, p, c);
    } else if Rank(k.state) < 6 {
      GrowMajor(k, m, p, c);
    } else {
      GrowMinor(k, m, p, c);
    }
  }

  // ----- soundness -----------------------------------------------------------------------------------------

  /** What has been read, as a request line, header lines and the text of each. */
  datatype Parsed = Parsed(line: Message, cursor: Cursor, lineText: string, fieldsText: string)

  ghost predicate Built(k: Config, b: Parsed, s: string) {
    && Ready(k)
    && s == b.lineText + b.fieldsText
    && LineBuilt(k, b.line, b.lineText)
    && (if Rank(k.state) < 8 then b.fieldsText == "" else FieldsBuilt(k, b.cursor, b.fieldsText))
  }

  const NOTHING := Parsed(Message("", "", "", "", []), Cursor([], Field("", "", [])), "", "")

  lemma GrowsInLine(k: Config, b: Parsed, s: string, c: char) returns (b': Parsed)
    requires Built(k, b, s) && Step(k, c).verdict.More? && Rank(k.state) < 8
    ensures Built(Step(k, c).config, b', s + [c])
  {
    GrowsLine(k, b.line, b.lineText, c);
    b' := Parsed(GrowLine(k.state, b.line, c), NOTHING.cursor, b.lineText + [c], "");
    assert s + [c] == b'.lineText + "";
    assert FieldHeaders([]) + [] == [] && FieldsText([]) + "" == "";
  }

  lemma StaysInFields(k: Config, m: Message, p: string, c: char)
    requires Ready(k) && InHeaders(k.state) && LineBuilt(k, m, p) && Step(k, c).verdict.More?
    ensures InHeaders(Step(k, c).config.state) && LineBuilt(Step(k, c).config, m, p)
  {}

  lemma GrowsInFields(k: Config, b: Parsed, s: string, c: char) returns (b': Parsed)
    requires Built(k, b, s) && Step(k, c).verdict.More? && Rank(k.state) == 8
    ensures Built(Step(k, c).config, b', s + [c])
  {
    GrowsFields(k, b.cursor, b.fieldsText, c);
    StaysInFields(k, b.line, b.lineText, c);
    b' := b.(cursor := GrowFields(k.state, b.cursor, c), fieldsText := b.fieldsText + [c]);
    Assoc(b.lineText, b.fieldsText, [c]);
  }

  lemma Grows(k: Config, b: Parsed, s: string, k': Config) returns (b': Parsed)
    requires s != "" && Built(k, b, Front(s)) && Step(k, Last(s)) == Consumed(More, k')
    ensures Built(k', b', s)
  {
    assert s == Front(s) + [Last(s)];
    if Rank(k.state) < 8 {
      b' := GrowsInLine(k, b, Front(s), Last(s));
    } else {
      b' := GrowsInFields(k, b, Front(s), Last(s));
    }
  }

  lemma NothingBuilt(req: Request)
    requires Fresh(req)
    ensures Built(Start(req), NOTHING, "")
  {}

  /** While the request is undecided, the bytes consumed are the text of a tree built from them. */
  lemma {:induction false} Builds(req: Request, s: string, k: Config) returns (b: Parsed)
    requires Fresh(req) && Run(Start(req), s) == Pending(k)
    ensures Built(k, b, s)
  {
    if s == "" {
      b := NOTHING;
      NothingBuilt(req);
    } else {
      var before := PendingByte(Start(req), s, k);
      b := Builds(req, Front(s), before);
      b := Grows(before, b, s, k);
    }
  }

  lemma CompleteText(m: Message, lineText: string, fieldsText: string, c: char)
    requires lineText == RequestLine(m) && fieldsText == FieldsText(m.fields) + "\r" && c == '\n'
    ensures MessageText(m) == lineText + fieldsText + [c]
  {
    assert "\r" + [c] == CRLF;
    Assoc(FieldsText(m.fields), "\r", [c]);
    Assoc(lineText, fieldsText, [c]);
    Assoc(lineText, FieldsText(m.fields), CRLF);
  }

  /** What has been built when the last byte is due. */
  lemma BuiltToTheEnd(k: Config, b: Parsed, s: string)
    requires Built(k, b, s) && k.state.ExpectingNewline3?
    ensures s == b.lineText + b.fieldsText && b.lineText == RequestLine(b.line)
    ensures b.fieldsText == FieldsText(b.cursor.closed) + "\r"
    ensures var m := b.line.(fields := b.cursor.closed); MessageOk(m) && Meaning(m) == k.req
  {
    assert k.req.headers == FieldHeaders(b.cursor.closed);
  }

  lemma Completes(k: Config, b: Parsed, s: string, c: char)
    requires Built(k, b, s) && Step(k, c).verdict.Accept?
    ensures Denotes(s + [c], k.req)
  {
    var m := b.line.(fields := b.cursor.closed);
    assert k.state.ExpectingNewline3? && c == '\n';
    BuiltToTheEnd(k, b, s);
    CompleteText(m, b.lineText, b.fieldsText, c);
  }

  lemma AcceptedText(req: Request, p: string, k: Config, c: char)
    requires Fresh(req) && Run(Start(req), p) == Pending(k) && Step(k, c).verdict.Accept?
    ensures Denotes(p + [c], k.req)
  {
    var b := Builds(req, p, k);
    Completes(k, b, p, c);
  }

  /** Whatever is accepted is a request of the grammar, with its meaning. */
  lemma {:induction false} Sound(req: Request, s: string, n: nat, r: Request)
    requires Fresh(req) && Run(Start(req), s) == Done(true, r, n)
    ensures n <= |s| && Denotes(s[..n], r)
  {
    DecidingByte(Start(req), s, true, r, n);
    assert s[..n] == s[..n - 1] + [s[n - 1]];
    AcceptedText(req, s[..n - 1], Run(Start(req), s[..n - 1]).config, s[n - 1]);
  }

  // ----- completeness: the parser reads back every text of the grammar -------------------------------------

  /** The parser consumes all of `s` without deciding and ends in `k'`. */
  predicate Eats(k: Config, s: string, k': Config) {
    Ready(k) && Run(k, s) == Pending(k')
  }

  lemma {:induction false} Then(k: Config, a: string, k1: Config, b: string, k2: Config)
    requires Eats(k, a, k1) && Eats(k1, b, k2)
    ensures Eats(k, a + b, k2)
  {
    RunAppend(k, a, b);
  }

  lemma {:induction false} EatByte(k: Config, c: char)
    requires Ready(k) && Step(k, c).verdict.More?
    ensures Eats(k, [c], Step(k, c).config)
  {
    OneByte(Pending(k), c);
  }

  /** The first byte, and then the rest. */
  lemma {:induction false} EatFirst(k: Config, s: string, k1: Config, k2: Config)
    requires s != "" && Ready(k) && Step(k, s[0]) == Consumed(More, k1) && Eats(k1, s[1..], k2)
    ensures Eats(k, s, k2)
  {}

  lemma MoveFirst(a: string, s: string)
    requires s != ""
    ensures a + [s[0]] + s[1..] == a + s
  {}

  lemma {:induction false} EatTokens(req: Request, s: string)
    requires Tokens(s)
    ensures Eats(Config(Method, req), s, Config(Method, req.(verb := req.verb + s)))
    decreases s
  {
    if s == "" {
      assert req.verb + s == req.verb;
    } else {
      var r1 := req.(verb := req.verb + [s[0]]);
      EatTokens(r1, s[1..]);
      MoveFirst(req.verb, s);
      EatFirst(Config(Method, req), s, Config(Method, r1), Config(Method, req.(verb := req.verb + s)));
    }
  }

  lemma {:induction false} EatUri(req: Request, s: string)
    requires UriChars(s)
    ensures Eats(Config(Uri, req), s, Config(Uri, req.(uri := req.uri + s)))
    decreases s
  {
    if s == "" {
      assert req.uri + s == req.uri;
    } else {
      var r1 := req.(uri := req.uri + [s[0]]);
      EatUri(r1, s[1..]);
      MoveFirst(req.uri, s);
      EatFirst(Config(Uri, req), s, Config(Uri, r1), Config(Uri, req.(uri := req.uri + s)));
    }
  }

  lemma {:induction false} EatMajor(req: Request, s: string, t: string)
    requires Digits(t) && req.major == Number(s)
    ensures Eats(Config(Major, req), t, Config(Major, req.(major := Number(s + t))))
    decreases t
  {
    if t == "" {
      assert s + t == s;
    } else {
      var r1 := req.(major := Number(s + [t[0]]));
      NumberSnoc(s, t[0]);
      EatMajor(r1, s + [t[0]], t[1..]);
      MoveFirst(s, t);
      EatFirst(Config(Major, req), t, Config(Major, r1), Config(Major, req.(major := Number(s + t))));
    }
  }

  lemma {:induction false} EatMinor(req: Request, s: string, t: string)
    requires Digits(t) && req.minor == Number(s)
    ensures Eats(Config(Minor, req), t, Config(Minor, req.(minor := Number(s + t))))
    decreases t
  {
    if t == "" {
      assert s + t == s;
    } else {
      var r1 := req.(minor := Number(s + [t[0]]));
      NumberSnoc(s, t[0]);
      EatMinor(r1, s + [t[0]], t[1..]);
      MoveFirst(s, t);
      EatFirst(Config(Minor, req), t, Config(Minor, r1), Config(Minor, req.(minor := Number(s + t))));
    }
  }

  /** Method and URI, with the space after each. */
  lemma EatMethodUri(req: Request, m: Message)
    requires Fresh(req) && MessageOk(m)
    ensures Eats(Start(req), m.verb + " " + m.uri + " ", Config(VersionH, req.(verb := m.verb, uri := m.uri)))
  {
    var c, rest := m.verb[0], m.verb[1..];
    var r1 := req.(verb := [c]);
    EatByte(Start(req), c);
    assert "" + [c] == [c];
    EatTokens(r1, rest);
    assert [c] + rest == m.verb;
    var r2 := req.(verb := m.verb);
    Then(Start(req), [c], Config(Method, r1), rest, Config(Method, r2));
    EatByte(Config(Method, r2), ' ');
    Then(Start(req), m.verb, Config(Method, r2), " ", Config(Uri, r2));
    EatUri(r2, m.uri);
    assert "" + m.uri == m.uri;
    var r3 := r2.(uri := m.uri);
    Then(Start(req), m.verb + " ", Config(Uri, r2), m.uri, Config(Uri, r3));
    EatByte(Config(Uri, r3), ' ');
    Then(Start(req), m.verb + " " + m.uri, Config(Uri, r3), " ", Config(VersionH, r3));
  }

  lemma EatProtocol(req: Request)
    ensures Eats(Config(VersionH, req), "HTTP/", Config(MajorStart, req.(major := 0, minor := 0)))
  {
    var k := Config(VersionH, req);
    EatByte(k, 'H');
    EatByte(Config(VersionT1, req), 'T');
    EatByte(Config(VersionT2, req), 'T');
    EatByte(Config(VersionP, req), 'P');
    EatByte(Config(VersionSlash, req), '/');
    Then(k, "H", Config(VersionT1, req), "T", Config(VersionT2, req));
    Then(k, "H" + "T", Config(VersionT2, req), "T", Config(VersionP, req));
    Then(k, "H" + "T" + "T", Config(VersionP, req), "P", Config(VersionSlash, req));
    Then(k, "H" + "T" + "T" + "P", Config(VersionSlash, req), "/", Config(MajorStart, req.(major := 0, minor := 0)));
    assert "H" + "T" + "T" + "P" + "/" == "HTTP/";
  }

  lemma EatMajorPart(req: Request, t: string)
    requires t != "" && Digits(t) && req.major == 0
    ensures Eats(Config(MajorStart, req), t + ".", Config(MinorStart, req.(major := Number(t))))
  {
    var c, rest := t[0], t[1..];
    NumberSnoc("", c);
    assert "" + [c] == [c] && [c] + rest == t;
    var r1, r2 := req.(major := Number([c])), req.(major := Number(t));
    EatByte(Config(MajorStart, req), c);
    EatMajor(r1, [c], rest);
    Then(Config(MajorStart, req), [c], Config(Major, r1), rest, Config(Major, r2));
    EatByte(Config(Major, r2), '.');
    Then(Config(MajorStart, req), t, Config(Major, r2), ".", Config(MinorStart, r2));
  }

  lemma EatRequestLineEnd(req: Request)
    ensures Eats(Config(Minor, req), CRLF, Config(HeaderLineStart, req))
  {
    EatByte(Config(Minor, req), '\r');
    EatByte(Config(ExpectingNewline1, req), '\n');
    Then(Config(Minor, req), "\r", Config(ExpectingNewline1, req), "\n", Config(HeaderLineStart, req));
    assert "\r" + "\n" == CRLF;
  }

  lemma EatMinorPart(req: Request, t: string)
    requires t != "" && Digits(t) && req.minor == 0
    ensures Eats(Config(MinorStart, req), t + CRLF, Config(HeaderLineStart, req.(minor := Number(t))))
  {
    var c, rest := t[0], t[1..];
    NumberSnoc("", c);
    assert "" + [c] == [c] && [c] + rest == t;
    var r1, r2 := req.(minor := Number([c])), req.(minor := Number(t));
    EatByte(Config(MinorStart, req), c);
    EatMinor(r1, [c], rest);
    Then(Config(MinorStart, req), [c], Config(Minor, r1), rest, Config(Minor, r2));
    EatRequestLineEnd(r2);
    Then(Config(MinorStart, req), t, Config(Minor, r2), CRLF, Config(HeaderLineStart, r2));
  }

  lemma RequestLineParts(m: Message)
    ensures RequestLine(m) == m.verb + " " + m.uri + " " + "HTTP/" + (m.major + ".") + (m.minor + CRLF)
  {
    var a := m.verb + " " + m.uri;
    assert a + " HTTP/" == a + " " + "HTTP/";
    Assoc(a + " HTTP/", m.major, ".");
    Assoc(a + " HTTP/" + m.major + ".", m.minor, CRLF);
  }

  lemma EatRequestLine(req: Request, m: Message)
    requires Fresh(req) && MessageOk(m)
    ensures Eats(Start(req), RequestLine(m), Config(HeaderLineStart, Meaning(m.(fields := []))))
  {
    var r1 := req.(verb := m.verb, uri := m.uri);
    var r2 := r1.(major := 0, minor := 0);
    var r3 := r2.(major := Number(m.major));
    var r4 := r3.(minor := Number(m.minor));
    EatMethodUri(req, m);
    EatProtocol(r1);
    EatMajorPart(r2, m.major);
    EatMinorPart(r3, m.minor);
    var a := m.verb + " " + m.uri + " ";
    Then(Start(req), a, Config(VersionH, r1), "HTTP/", Config(MajorStart, r2));
    Then(Start(req), a + "HTTP/", Config(MajorStart, r2), m.major + ".", Config(MinorStart, r3));
    Then(Start(req), a + "HTTP/" + (m.major + "."), Config(MinorStart, r3), m.minor + CRLF,
         Config(HeaderLineStart, r4));
    RequestLineParts(m);
    assert r4 == Meaning(m.(fields := []));
  }

  lemma {:induction false} EatName(req: Request, hs: seq<Header>, h: Header, s: string)
    requires Tokens(s) && req.headers == hs + [h]
    ensures Eats(Config(HeaderName, req), s, Config(HeaderName, req.(headers := hs + [h.(name := h.name + s)])))
    decreases s
  {
    if s == "" {
      assert h.name + s == h.name;
    } else {
      var h' := h.(name := h.name + [s[0]]);
      UpdateLast(hs, h, h');
      var r1, r2 := req.(headers := hs + [h']), req.(headers := hs + [h.(name := h.name + s)]);
      EatName(r1, hs, h', s[1..]);
      MoveFirst(h.name, s);
      EatFirst(Config(HeaderName, req), s, Config(HeaderName, r1), Config(HeaderName, r2));
    }
  }

  lemma {:induction false} EatText(req: Request, hs: seq<Header>, h: Header, s: string)
    requires Text(s) && req.headers == hs + [h]
    ensures Eats(Config(HeaderValue, req), s, Config(HeaderValue, req.(headers := hs + [h.(value := h.value + s)])))
    decreases s
  {
    if s == "" {
      assert h.value + s == h.value;
    } else {
      var h' := h.(value := h.value + [s[0]]);
      UpdateLast(hs, h, h');
      var r1, r2 := req.(headers := hs + [h']), req.(headers := hs + [h.(value := h.value + s)]);
      EatText(r1, hs, h', s[1..]);
      MoveFirst(h.value, s);
      EatFirst(Config(HeaderValue, req), s, Config(HeaderValue, r1), Config(HeaderValue, r2));
    }
  }

  lemma {:induction false} EatLws(req: Request, s: string)
    requires Lws(s) && req.headers != []
    ensures Eats(Config(HeaderLws, req), s, Config(HeaderLws, req))
    decreases s
  {
    if s == "" {
    } else {
      EatLws(req, s[1..]);
      EatFirst(Config(HeaderLws, req), s, Config(HeaderLws, req), Config(HeaderLws, req));
    }
  }

  /** The states a header line with its folds can be left in: a value or the white space of an empty fold. */
  predicate AtValue(k: Config, req: Request) {
    (k.state.HeaderValue? || k.state.HeaderLws?) && k.req == req && req.headers != []
  }

  lemma EatLineEnd(k: Config, req: Request)
    requires AtValue(k, req)
    ensures Eats(k, CRLF, Config(HeaderLineStart, req))
  {
    EatByte(k, '\r');
    EatByte(Config(ExpectingNewline2, req), '\n');
    Then(k, "\r", Config(ExpectingNewline2, req), "\n", Config(HeaderLineStart, req));
    assert "\r" + "\n" == CRLF;
  }

  lemma EatFold(k: Config, req: Request, hs: seq<Header>, h: Header, f: Fold) returns (k': Config)
    requires AtValue(k, req) && req.headers == hs + [h] && FoldOk(f)
    ensures AtValue(k', req.(headers := hs + [h.(value := h.value + f.text)]))
    ensures Eats(k, CRLF + f.lws + f.text, k')
  {
    var start, lws := Config(HeaderLineStart, req), Config(HeaderLws, req);
    EatLineEnd(k, req);
    EatByte(start, f.lws[0]);
    EatLws(req, f.lws[1..]);
    Then(start, [f.lws[0]], lws, f.lws[1..], lws);
    assert [f.lws[0]] + f.lws[1..] == f.lws;
    Then(k, CRLF, start, f.lws, lws);
    if f.text == "" {
      k' := lws;
      assert h.value + f.text == h.value;
      assert CRLF + f.lws + f.text == CRLF + f.lws;
    } else {
      var c, rest := f.text[0], f.text[1..];
      var h1 := h.(value := h.value + [c]);
      var r1 := req.(headers := hs + [h1]);
      UpdateLast(hs, h, h1);
      EatByte(lws, c);
      EatText(r1, hs, h1, rest);
      assert h.value + [c] + rest == h.value + f.text;
      k' := Config(HeaderValue, req.(headers := hs + [h.(value := h.value + f.text)]));
      Then(lws, [c], Config(HeaderValue, r1), rest, k');
      assert [c] + rest == f.text;
      Then(k, CRLF + f.lws, lws, f.text, k');
    }
  }

  lemma FoldsParts(folds: seq<Fold>, value: string)
    requires folds != []
    ensures var init, last := Front(folds), Last(folds);
            && FoldsText(folds) == FoldsText(init) + (CRLF + last.lws + last.text)
            && value + FoldsValue(init) + last.text == value + FoldsValue(folds)
  {
    var init, last := Front(folds), Last(folds);
    Assoc(FoldsText(init), CRLF, last.lws);
    Assoc(FoldsText(init), CRLF + last.lws, last.text);
    Assoc(value, FoldsValue(init), last.text);
  }

  lemma {:induction false} EatFolds(k: Config, req: Request, hs: seq<Header>, h: Header, folds: seq<Fold>)
    returns (k': Config)
    requires AtValue(k, req) && req.headers == hs + [h] && FoldsOk(folds)
    ensures AtValue(k', req.(headers := hs + [h.(value := h.value + FoldsValue(folds))]))
    ensures Eats(k, FoldsText(folds), k')
    decreases folds
  {
    if folds == [] {
      k' := k;
      assert h.value + "" == h.value;
    } else {
      var init, last := Front(folds), Last(folds);
      FoldsParts(folds, h.value);
      var h1 := h.(value := h.value + FoldsValue(init));
      var k1 := EatFolds(k, req, hs, h, init);
      k' := EatFold(k1, req.(headers := hs + [h1]), hs, h1, last);
      Then(k, FoldsText(init), k1, CRLF + last.lws + last.text, k');
    }
  }

  lemma EatFieldName(req: Request, f: Field)
    requires FieldOk(f)
    ensures Eats(Config(HeaderLineStart, req), f.name + ": " + f.text,
                 Config(HeaderValue, req.(headers := req.headers + [Header(f.name, f.text)])))
  {
    var start := Config(HeaderLineStart, req);
    var hs, c, rest := req.headers, f.name[0], f.name[1..];
    var r1, r2, r3 := req.(headers := hs + [Header([c], "")]), req.(headers := hs + [Header(f.name, "")]),
                      req.(headers := hs + [Header(f.name, f.text)]);
    EatByte(start, c);
    EatName(r1, hs, Header([c], ""), rest);
    assert [c] + rest == f.name;
    Then(start, [c], Config(HeaderName, r1), rest, Config(HeaderName, r2));
    EatByte(Config(HeaderName, r2), ':');
    Then(start, f.name, Config(HeaderName, r2), ":", Config(SpaceBeforeHeaderValue, r2));
    EatByte(Config(SpaceBeforeHeaderValue, r2), ' ');
    Then(start, f.name + ":", Config(SpaceBeforeHeaderValue, r2), " ", Config(HeaderValue, r2));
    assert f.name + ":" + " " == f.name + ": ";
    EatText(r2, hs, Header(f.name, ""), f.text);
    assert "" + f.text == f.text;
    Then(start, f.name + ": ", Config(HeaderValue, r2), f.text, Config(HeaderValue, r3));
  }

  lemma EatField(req: Request, f: Field)
    requires FieldOk(f)
    ensures Eats(Config(HeaderLineStart, req), FieldText(f) + CRLF,
                 Config(HeaderLineStart, req.(headers := req.headers + [FieldHeader(f)])))
  {
    var start, hs, h := Config(HeaderLineStart, req), req.headers, Header(f.name, f.text);
    var r1 := req.(headers := hs + [h]);
    var r2 := req.(headers := hs + [FieldHeader(f)]);
    EatFieldName(req, f);
    var k := EatFolds(Config(HeaderValue, r1), r1, hs, h, f.folds);
    Then(start, f.name + ": " + f.text, Config(HeaderValue, r1), FoldsText(f.folds), k);
    EatLineEnd(k, r2);
    Then(start, FieldText(f), k, CRLF, Config(HeaderLineStart, r2));
  }

  lemma {:induction false} EatFields(req: Request, fields: seq<Field>)
    requires FieldsOk(fields) && req.headers == []
    ensures Eats(Config(HeaderLineStart, req), FieldsText(fields),
                 Config(HeaderLineStart, req.(headers := FieldHeaders(fields))))
    decreases fields
  {
    if fields == [] {
    } else {
      var start, init, last := Config(HeaderLineStart, req), Front(fields), Last(fields);
      var r1 := req.(headers := FieldHeaders(init));
      EatFields(req, init);
      EatField(r1, last);
      Then(start, FieldsText(init), Config(HeaderLineStart, r1), FieldText(last) + CRLF,
           Config(HeaderLineStart, req.(headers := FieldHeaders(fields))));
      Assoc(FieldsText(init), FieldText(last), CRLF);
    }
  }

  /** A request up to its last byte. */
  function Head(m: Message): string {
    RequestLine(m) + FieldsText(m.fields) + "\r"
  }

  lemma EatHead(req: Request, m: Message)
    requires Fresh(req) && MessageOk(m)
    ensures Eats(Start(req), Head(m), Config(ExpectingNewline3, Meaning(m)))
  {
    var r1 := Meaning(m.(fields := []));
    var start := Config(HeaderLineStart, Meaning(m));
    EatRequestLine(req, m);
    EatFields(r1, m.fields);
    Then(Start(req), RequestLine(m), Config(HeaderLineStart, r1), FieldsText(m.fields), start);
    EatByte(start, '\r');
    Then(Start(req), RequestLine(m) + FieldsText(m.fields), start, "\r", Config(ExpectingNewline3, Meaning(m)));
  }

  lemma HeadAndLast(m: Message)
    ensures MessageText(m) != "" && Front(MessageText(m)) == Head(m) && Last(MessageText(m)) == '\n'
  {}

  /** Every request of the grammar is accepted at its last byte, with its meaning, whatever follows. */
  lemma {:induction false} Complete(req: Request, m: Message, rest: string)
    requires Fresh(req) && MessageOk(m)
    ensures Run(Start(req), MessageText(m) + rest) == Done(true, Meaning(m), |MessageText(m)|)
  {
    EatHead(req, m);
    HeadAndLast(m);
    LastByte(Start(req), MessageText(m));
    RunAppend(Start(req), MessageText(m), rest);
  }

  lemma SplitAt(s: string, p: string, n: nat)
    requires n <= |s| && p == s[..n]
    ensures p + s[n..] == s && |p| == n
  {}

  /** Bytes that are a request are accepted as what they denote, whatever follows them. */
  lemma {:induction false} Accepted(req: Request, s: string, n: nat, m: Message)
    requires Fresh(req) && n <= |s| && MessageOk(m) && MessageText(m) == s[..n]
    ensures Run(Start(req), s) == Done(true, Meaning(m), n)
  {
    SplitAt(s, MessageText(m), n);
    Complete(req, m, s[n..]);
  }

  /** The parser accepts the first `n` bytes of `s` as `r` exactly when they are a request denoting `r`. */
  lemma {:induction false} AcceptsExactlyTheGrammar(req: Request, s: string, n: nat, r: Request)
    requires Fresh(req) && n <= |s|
    ensures Run(Start(req), s) == Done(true, r, n) <==> Denotes(s[..n], r)
  {
    if Run(Start(req), s) == Done(true, r, n) {
      Sound(req, s, n, r);
    }
    if m :| MessageOk(m) && MessageText(m) == s[..n] && Meaning(m) == r {
      Accepted(req, s, n, m);
    }
  }
}
