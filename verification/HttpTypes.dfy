/** The values both request parsers work on, and the character classes of section 2.2 of RFC 1945.

    A byte of the input is a `char`: codes 0 to 127 are the HTTP characters, and every larger code behaves
    as the bytes 128 to 255 do in the parsers, which only ever ask whether it is an HTTP character. */
module HttpTypes {
  import opened Basics

  /** The tri-state result of consuming one byte. */
  datatype Verdict = Accept | Reject | More

  /** What one byte leads to, for a parser with configurations `C`. */
  datatype Consumed<C> = Consumed(verdict: Verdict, config: C)

  /** What a run over some input comes to: still undecided, or decided after `used` bytes. */
  datatype Outcome<C, R> = Pending(config: C) | Done(ok: bool, result: R, used: nat)

  function Shift<C, R>(o: Outcome<C, R>, n: nat): Outcome<C, R> {
    if o.Done? then o.(used := o.used + n) else o
  }

  datatype Header = Header(name: string, value: string)

  datatype Request = Request(verb: string, uri: string, major: int, minor: int, headers: seq<Header>)

  const CRLF := "\r\n"

  // ----- the characters of a request, by code ------------------------------------------------------------

  predicate IsLetter(c: char) {
    65 <= c as int <= 90 || 97 <= c as int <= 122
  }

  /** A character of a token: a letter, a digit or one of fifteen others. */
  predicate TokenChar(c: char) {
    || IsLetter(c) || 48 <= c as int <= 57
    || c == '!' || c == '#' || c == '$' || c == '%' || c == '&' || c == '\'' || c == '*' || c == '+'
    || c == '-' || c == '.' || c == '^' || c == '_' || c == '`' || c == '|' || c == '~'
  }

  /** A character of a header value: anything from space to tilde, and whatever is not an HTTP character. */
  predicate TextChar(c: char) {
    32 <= c as int <= 126 || 128 <= c as int
  }

  predicate Tokens(s: string) {
    forall i | 0 <= i < |s| :: TokenChar(s[i])
  }

  predicate Digits(s: string) {
    forall i | 0 <= i < |s| :: IsDigit(s[i])
  }

  /** Characters that may occur in the request URI: those of a value but space. */
  predicate UriChars(s: string) {
    forall i | 0 <= i < |s| :: TextChar(s[i]) && s[i] as int != 32
  }

  /** Characters that may occur in a header value. */
  predicate Text(s: string) {
    forall i | 0 <= i < |s| :: TextChar(s[i])
  }

  /** Spaces and tabs. */
  predicate Lws(s: string) {
    forall i | 0 <= i < |s| :: s[i] as int == 32 || s[i] as int == 9
  }

  /** All codes below 128. */
  predicate Ascii(s: string) {
    forall i | 0 <= i < |s| :: s[i] as int < 128
  }

  // ----- the classes as the parsers test them ------------------------------------------------------------

  predicate IsChar(c: char): (r: bool)
    ensures r <==> !(c as int >= 128)
  {
    c as int <= 127
  }

  predicate IsCtl(c: char): (r: bool)
    ensures r <==> !TextChar(c)
  {
    c as int <= 31 || c as int == 127
  }

  predicate IsTspecial(c: char) {
    || c == '(' || c == ')' || c == '<' || c == '>' || c == '@'
    || c == ',' || c == ';' || c == ':' || c == '\\' || c == '"'
    || c == '/' || c == '[' || c == ']' || c == '?' || c == '='
    || c == '{' || c == '}' || c == ' ' || c == '\t'
  }

  /** What both parsers let into a token are exactly its characters. */
  predicate IsToken(c: char): (r: bool)
    ensures r <==> TokenChar(c)
  {
    IsChar(c) && !IsCtl(c) && !IsTspecial(c)
  }

  predicate IsLws(c: char) {
    c == ' ' || c == '\t'
  }

  /** Successive chunks of input as one. */
  function Join(chunks: seq<string>): string {
    if chunks == [] then "" else chunks[0] + Join(chunks[1..])
  }

  function DigitValue(c: char): int {
    c as int - '0' as int
  }

  /** The number a string of digits denotes, accumulated as both parsers do. */
  function Number(s: string): int {
    if s == "" then 0 else Number(s[..|s| - 1]) * 10 + DigitValue(s[|s| - 1])
  }

  function Last<T>(s: seq<T>): T
    requires s != []
  {
    s[|s| - 1]
  }

  function Front<T>(s: seq<T>): seq<T>
    requires s != []
  {
    s[..|s| - 1]
  }
}
