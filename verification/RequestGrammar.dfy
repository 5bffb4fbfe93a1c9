/** A declarative grammar of requests, sections 4.2 and 5.1 of RFC 1945, stated without the parser: syntax
    trees, the text each one stands for, and the request it denotes. */
module RequestGrammar {
  import opened HttpTypes

  /** A continuation line: white space, then text appended to the value of the header above it. */
  datatype Fold = Fold(lws: string, text: string)

  datatype Field = Field(name: string, text: string, folds: seq<Fold>)

  datatype Message = Message(verb: string, uri: string, major: string, minor: string, fields: seq<Field>)

  ghost predicate FoldOk(f: Fold) {
    f.lws != "" && Lws(f.lws) && Text(f.text) && (f.text != "" ==> f.text[0] != ' ')
  }

  ghost predicate FoldsOk(folds: seq<Fold>) {
    folds != [] ==> FoldsOk(Front(folds)) && FoldOk(Last(folds))
  }

  ghost predicate FieldOk(f: Field) {
    f.name != "" && Tokens(f.name) && Text(f.text) && FoldsOk(f.folds)
  }

  ghost predicate FieldsOk(fields: seq<Field>) {
    fields != [] ==> FieldsOk(Front(fields)) && FieldOk(Last(fields))
  }

  ghost predicate MessageOk(m: Message) {
    && m.verb != "" && Tokens(m.verb)
    && UriChars(m.uri)
    && m.major != "" && Digits(m.major)
    && m.minor != "" && Digits(m.minor)
    && FieldsOk(m.fields)
  }

  // ----- text ------------------------------------------------------------------------------------------

  function FoldsText(folds: seq<Fold>): string {
    if folds == [] then "" else FoldsText(Front(folds)) + CRLF + Last(folds).lws + Last(folds).text
  }

  /** A header line with its continuation lines, up to but excluding the final CR LF. */
  function FieldText(f: Field): string {
    f.name + ": " + f.text + FoldsText(f.folds)
  }

  function FieldsText(fields: seq<Field>): string {
    if fields == [] then "" else FieldsText(Front(fields)) + FieldText(Last(fields)) + CRLF
  }

  function RequestLine(m: Message): string {
    m.verb + " " + m.uri + " HTTP/" + m.major + "." + m.minor + CRLF
  }

  function MessageText(m: Message): string {
    RequestLine(m) + FieldsText(m.fields) + CRLF
  }

  // ----- meaning ---------------------------------------------------------------------------------------

  function FoldsValue(folds: seq<Fold>): string {
    if folds == [] then "" else FoldsValue(Front(folds)) + Last(folds).text
  }

  function FieldHeader(f: Field): Header {
    Header(f.name, f.text + FoldsValue(f.folds))
  }

  function FieldHeaders(fields: seq<Field>): seq<Header> {
    if fields == [] then [] else FieldHeaders(Front(fields)) + [FieldHeader(Last(fields))]
  }

  function Meaning(m: Message): Request {
    Request(m.verb, m.uri, Number(m.major), Number(m.minor), FieldHeaders(m.fields))
  }

  /** `s` is a complete request denoting `r`. */
  ghost predicate Denotes(s: string, r: Request) {
    exists m :: MessageOk(m) && MessageText(m) == s && Meaning(m) == r
  }
}
