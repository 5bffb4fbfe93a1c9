/** The chat wire format: a 4-byte decimal header giving the length of the body that follows it. */
module ChatMessage {
  import opened Basics

  const HEADER_LENGTH := 4
  const MAX_BODY_LENGTH := 512

  /** A message as it travels and is queued: the header bytes as received or encoded, and the body. */
  datatype Message = Message(header: string, body: string)

  function Data(m: Message): string {
    m.header + m.body
  }

  // ----- the header --------------------------------------------------------------------------------------

  predicate IsSpace(c: char) {
    c == ' ' || 9 <= c as int <= 13
  }

  /** The part of a byte string before its first NUL, as `strncat` copies it. */
  function CString(s: string): string {
    if s == "" || s[0] as int == 0 then "" else [s[0]] + CString(s[1..])
  }

  /** The value of the leading digits. */
  function Digits(s: string, value: int): int {
    if s == "" || !IsDigit(s[0]) then value else Digits(s[1..], value * 10 + (s[0] as int - '0' as int))
  }

  /** The C library's `atoi`: white space, an optional sign, digits. */
  function Atoi(s: string): int {
    if s == "" then 0
    else if IsSpace(s[0]) then Atoi(s[1..])
    else if s[0] == '-' then -Digits(s[1..], 0)
    else if s[0] == '+' then Digits(s[1..], 0)
    else Digits(s, 0)
  }

  /** The body length a header announces. The result of `atoi` is stored unsigned, so a negative number is
      too long, like one above the maximum. */
  function DecodedLength(header: string): Option<nat> {
    var n := Atoi(CString(header));
    if n < 0 || n > MAX_BODY_LENGTH then None else Some(n)
  }

  function DigitChar(n: nat): char
    requires n < 10
  {
    '0' + n as char
  }

  /** `printf` with "%4d". */
  function HeaderFor(n: nat): (s: string)
    requires n <= MAX_BODY_LENGTH
    ensures |s| == HEADER_LENGTH
  {
    if n < 10 then "   " + [DigitChar(n)]
    else if n < 100 then "  " + [DigitChar(n / 10), DigitChar(n % 10)]
    else " " + [DigitChar(n / 100), DigitChar(n / 10 % 10), DigitChar(n % 10)]
  }

  lemma CStringAll(s: string)
    requires forall i | 0 <= i < |s| :: s[i] as int != 0
    ensures CString(s) == s
  {}

  lemma Digits1(a: char)
    requires IsDigit(a)
    ensures Atoi([a]) == a as int - 48
  {
    assert [a][1..] == "";
    assert Digits([a], 0) == Digits("", a as int - 48);
  }

  lemma AtoiSkipsSpace(s: string)
    ensures Atoi(" " + s) == Atoi(s)
  {
    assert (" " + s)[1..] == s;
  }

  lemma Digits2(a: char, b: char)
    requires IsDigit(a) && IsDigit(b)
    ensures Atoi([a, b]) == (a as int - 48) * 10 + (b as int - 48)
  {
    assert [a, b][1..] == [b] && [b][1..] == "";
    assert Digits([b], a as int - 48) == (a as int - 48) * 10 + (b as int - 48);
  }

  lemma Digits3(a: char, b: char, c: char)
    requires IsDigit(a) && IsDigit(b) && IsDigit(c)
    ensures Atoi([a, b, c]) == ((a as int - 48) * 10 + (b as int - 48)) * 10 + (c as int - 48)
  {
    assert [a, b, c][1..] == [b, c] && [b, c][1..] == [c] && [c][1..] == "";
    var x := a as int - 48;
    var y := x * 10 + (b as int - 48);
    assert Digits([c], y) == y * 10 + (c as int - 48);
    assert Digits([b, c], x) == Digits([c], y);
  }

  lemma OneDigit(n: nat)
    requires n < 10
    ensures Atoi(HeaderFor(n)) == n
  {
    var s := [DigitChar(n)];
    Digits1(s[0]);
    AtoiSkipsSpace(s);
    AtoiSkipsSpace(" " + s);
    AtoiSkipsSpace(" " + (" " + s));
    assert HeaderFor(n) == " " + (" " + (" " + s));
  }

  lemma TwoDigits(n: nat)
    requires 10 <= n < 100
    ensures Atoi(HeaderFor(n)) == n
  {
    var s := [DigitChar(n / 10), DigitChar(n % 10)];
    Digits2(s[0], s[1]);
    AtoiSkipsSpace(s);
    AtoiSkipsSpace(" " + s);
    assert HeaderFor(n) == " " + (" " + s);
  }

  lemma ThreeDigits(n: nat)
    requires 100 <= n <= MAX_BODY_LENGTH
    ensures Atoi(HeaderFor(n)) == n
  {
    var s := [DigitChar(n / 100), DigitChar(n / 10 % 10), DigitChar(n % 10)];
    Digits3(s[0], s[1], s[2]);
    AtoiSkipsSpace(s);
    assert n / 100 * 10 + n / 10 % 10 == n / 10;
  }

  /** Decoding an encoded length gives it back. */
  lemma HeaderRoundTrip(n: nat)
    requires n <= MAX_BODY_LENGTH
    ensures DecodedLength(HeaderFor(n)) == Some(n)
  {
    CStringAll(HeaderFor(n));
    if n < 10 {
      OneDigit(n);
    } else if n < 100 {
      TwoDigits(n);
    } else {
      ThreeDigits(n);
    }
  }

  // ----- what a header means -----------------------------------------------------------------------------

  predicate AllDigits(s: string) {
    forall i | 0 <= i < |s| :: '0' <= s[i] <= '9'
  }

  predicate AllSpaces(s: string) {
    forall i | 0 <= i < |s| :: s[i] in " \t\n\r" || s[i] as int == 11 || s[i] as int == 12
  }

  /** The number a string of digits denotes. */
  function Decimal(s: string): nat
    requires AllDigits(s)
  {
    if s == "" then 0 else Decimal(s[..|s| - 1]) * 10 + (s[|s| - 1] as int - 48)
  }

  /** Nothing at the front of the text could still be part of a number. */
  predicate NotDigit(text: string) {
    text == "" || !('0' <= text[0] <= '9')
  }

  /** The text is white space, a sign or none, and digits, which are as many as there are. */
  predicate Reads(text: string, spaces: string, sign: string, digits: string, rest: string) {
    && text == spaces + (sign + (digits + rest))
    && AllSpaces(spaces) && sign in ["", "+", "-"] && AllDigits(digits) && NotDigit(rest)
    && (sign == "" && digits == "" && rest != "" ==> !AllSpaces([rest[0]]) && rest[0] != '+' && rest[0] != '-')
  }

  function Signed(sign: string, n: int): int {
    if sign == "-" then -n else n
  }

  lemma {:induction false} DigitsAre(before: string, digits: string, rest: string)
    requires AllDigits(before) && AllDigits(digits) && NotDigit(rest)
    ensures AllDigits(before + digits) && Digits(digits + rest, Decimal(before)) == Decimal(before + digits)
    decreases |digits|
  {
    if digits == "" {
      assert digits + rest == rest && before + digits == before;
    } else {
      var longer := before + [digits[0]];
      assert longer[..|longer| - 1] == before;
      assert longer + digits[1..] == before + digits;
      assert (digits + rest)[1..] == digits[1..] + rest;
      DigitsAre(longer, digits[1..], rest);
    }
  }

  lemma DigitsFromZero(digits: string, rest: string)
    requires AllDigits(digits) && NotDigit(rest)
    ensures Digits(digits + rest, 0) == Decimal(digits)
  {
    DigitsAre("", digits, rest);
    assert "" + digits == digits;
  }

  /** A number with its sign, no white space in front. */
  lemma SignedAre(sign: string, digits: string, rest: string)
    requires Reads(sign + (digits + rest), "", sign, digits, rest)
    ensures Atoi(sign + (digits + rest)) == Signed(sign, Decimal(digits))
  {
    DigitsFromZero(digits, rest);
    var text := sign + (digits + rest);
    if sign == "" {
      assert text == digits + rest;
      if digits != "" {
        assert text[0] == digits[0];
      } else {
        assert text == rest;
        if rest != "" {
          assert !AllSpaces([rest[0]]);
          assert !IsSpace([rest[0]][0]);
        }
      }
    } else {
      assert text[1..] == digits + rest && text[0] == sign[0];
    }
  }

  lemma {:induction false} AtoiIs(spaces: string, sign: string, digits: string, rest: string)
    requires Reads(spaces + (sign + (digits + rest)), spaces, sign, digits, rest)
    ensures Atoi(spaces + (sign + (digits + rest))) == Signed(sign, Decimal(digits))
    decreases |spaces|
  {
    var text := spaces + (sign + (digits + rest));
    if spaces == "" {
      assert text == sign + (digits + rest);
      SignedAre(sign, digits, rest);
    } else {
      assert text[0] == spaces[0];
      assert text[1..] == spaces[1..] + (sign + (digits + rest));
      AtoiIs(spaces[1..], sign, digits, rest);
    }
  }

  /** The text before the first NUL, if there is one. */
  predicate TextOf(header: string, text: string) {
    && text <= header && (forall i | 0 <= i < |text| :: text[i] as int != 0)
    && (|text| < |header| ==> header[|text|] as int == 0)
  }

  lemma {:induction false} CStringIs(header: string, text: string)
    requires TextOf(header, text)
    ensures CString(header) == text
    decreases |text|
  {
    if text == "" {
    } else {
      assert header[0] == text[0];
      assert TextOf(header[1..], text[1..]);
      CStringIs(header[1..], text[1..]);
      assert [text[0]] + text[1..] == text;
    }
  }

  /** A header whose text up to a NUL reads as a number announces that number, unless it is negative or above 512,
      in which case it is refused. */
  lemma DecodesTo(header: string, text: string, spaces: string, sign: string, digits: string, rest: string)
    requires TextOf(header, text) && Reads(text, spaces, sign, digits, rest)
    ensures DecodedLength(header) == if 512 < Decimal(digits) || (sign == "-" && 0 < Decimal(digits)) then None
                                     else Some(Decimal(digits))
  {
    CStringIs(header, text);
    AtoiIs(spaces, sign, digits, rest);
  }

  /** Every text reads as a number in this way. */
  lemma {:induction false} ReadsSomehow(text: string)
    returns (spaces: string, sign: string, digits: string, rest: string)
    ensures Reads(text, spaces, sign, digits, rest)
  {
    if text != "" && AllSpaces([text[0]]) {
      spaces, sign, digits, rest := ReadsSomehow(text[1..]);
      assert [text[0]] + spaces + (sign + (digits + rest)) == [text[0]] + (spaces + (sign + (digits + rest)));
      spaces := [text[0]] + spaces;
      assert [text[0]] + text[1..] == text;
    } else if text != "" && text[0] in "+-" {
      spaces, sign := "", [text[0]];
      digits, rest := SplitDigits(text[1..]);
      assert text == [text[0]] + text[1..] && spaces + text == text;
    } else {
      spaces, sign := "", "";
      digits, rest := SplitDigits(text);
      assert spaces + (sign + (digits + rest)) == text;
      if digits == "" {
        assert rest == text;
      }
    }
  }

  lemma {:induction false} SplitDigits(text: string) returns (digits: string, rest: string)
    ensures text == digits + rest && AllDigits(digits) && NotDigit(rest)
  {
    if NotDigit(text) {
      digits, rest := "", text;
    } else {
      digits, rest := SplitDigits(text[1..]);
      assert text == [text[0]] + (digits + rest) == [text[0]] + digits + rest;
      digits := [text[0]] + digits;
    }
  }

  /** A right-aligned number is refused exactly when it is above 512, and with a minus sign exactly when it is not
      zero. */
  lemma RefusedIff(spaces: string, digits: string)
    requires AllSpaces(spaces) && AllDigits(digits)
    ensures DecodedLength(spaces + digits).None? <==> 512 < Decimal(digits)
    ensures DecodedLength(spaces + ("-" + digits)).None? <==> 0 < Decimal(digits)
  {
    assert digits + "" == digits && "" + digits == digits;
    var plain, negative := spaces + digits, spaces + ("-" + digits);
    DecodesTo(plain, plain, spaces, "", digits, "");
    DecodesTo(negative, negative, spaces, "-", digits, "");
  }

  lemma SixHundred()
    ensures DecodedLength(" 600").None?
  {
    assert "600"[..2] == "60" && "60"[..1] == "6" && "6"[..0] == "";
    assert Decimal("6") == 6 && Decimal("60") == 60 && Decimal("600") == 600;
    RefusedIff(" ", "600");
    assert " " + "600" == " 600";
  }

  // ----- streams -----------------------------------------------------------------------------------------

  /** A message whose header announces its body. */
  predicate WellFormed(m: Message) {
    |m.header| == HEADER_LENGTH && DecodedLength(m.header) == Some(|m.body|)
  }

  function Stream(ms: seq<Message>): string {
    if ms == [] then "" else Data(ms[0]) + Stream(ms[1..])
  }

  /** The messages the header-then-body read loop takes from a stream, until the bytes run out or a header
      is refused. */
  function ReadLoop(s: string): seq<Message>
    decreases |s|
  {
    if |s| < HEADER_LENGTH then []
    else
      var n := DecodedLength(s[..HEADER_LENGTH]);
      if n.None? || |s| < HEADER_LENGTH + n.value then []
      else [Message(s[..HEADER_LENGTH], s[HEADER_LENGTH..HEADER_LENGTH + n.value])]
           + ReadLoop(s[HEADER_LENGTH + n.value..])
  }

  lemma {:induction false} ReadOne(m: Message, tail: string)
    requires WellFormed(m)
    ensures ReadLoop(Data(m) + tail) == [m] + ReadLoop(tail)
  {
    var s := Data(m) + tail;
    assert s[..HEADER_LENGTH] == m.header;
    assert s[HEADER_LENGTH..HEADER_LENGTH + |m.body|] == m.body;
    assert s[HEADER_LENGTH + |m.body|..] == tail;
  }

  /** The messages of a stream are read back one by one, header bytes included, and the loop then stands at
      the bytes after them. */
  lemma {:induction false} ReadLoopInvertsStream(ms: seq<Message>, rest: string)
    requires forall i | 0 <= i < |ms| :: WellFormed(ms[i])
    ensures ReadLoop(Stream(ms) + rest) == ms + ReadLoop(rest)
  {
    if ms == [] {
      assert Stream(ms) + rest == rest;
      assert ms + ReadLoop(rest) == ReadLoop(rest);
    } else {
      var tail := Stream(ms[1..]) + rest;
      Assoc(Data(ms[0]), Stream(ms[1..]), rest);
      ReadOne(ms[0], tail);
      ReadLoopInvertsStream(ms[1..], rest);
      Assoc([ms[0]], ms[1..], ReadLoop(rest));
      assert [ms[0]] + ms[1..] == ms;
    }
  }

  // ----- the message object ------------------------------------------------------------------------------

  /** A message buffer: header and body in one array, and the length of the body in it. */
  class Buffer {
    const data: array<char>
    var bodyLength: nat

    constructor ()
      ensures fresh(data) && data.Length == HEADER_LENGTH + MAX_BODY_LENGTH && bodyLength == 0
    {
      data := new char[HEADER_LENGTH + MAX_BODY_LENGTH];
      bodyLength := 0;
    }

    ghost predicate Valid()
      reads this
    {
      data.Length == HEADER_LENGTH + MAX_BODY_LENGTH && bodyLength <= MAX_BODY_LENGTH
    }

    function Value(): Message
      requires Valid()
      reads this, data
    {
      Message(data[..HEADER_LENGTH], data[HEADER_LENGTH..HEADER_LENGTH + bodyLength])
    }

    method SetBodyLength(newLength: nat)
      requires Valid()
      modifies this
      ensures Valid() && bodyLength == if newLength > 512 then 512 else newLength
    {
      bodyLength := newLength;
      if bodyLength > MAX_BODY_LENGTH {
        bodyLength := MAX_BODY_LENGTH;
      }
    }

    method DecodeHeader() returns (ok: bool)
      requires Valid()
      modifies this
      ensures Valid()
      ensures ok == DecodedLength(data[..HEADER_LENGTH]).Some?
      ensures ok ==> WellFormed(Value())
      ensures !ok ==> bodyLength == 0
    {
      var n := Atoi(CString(data[..HEADER_LENGTH]));
      if n < 0 || n > MAX_BODY_LENGTH {
        bodyLength := 0;
        return false;
      }
      bodyLength := n;
      return true;
    }

    method EncodeHeader()
      requires Valid()
      modifies data
      ensures Valid() && WellFormed(Value()) && Value().body == old(Value().body)
    {
      var header := HeaderFor(bodyLength);
      for i := 0 to HEADER_LENGTH
        invariant data[..i] == header[..i]
        invariant data[HEADER_LENGTH..] == old(data[HEADER_LENGTH..])
      {
        data[i] := header[i];
      }
      assert data[..HEADER_LENGTH] == header;
      assert data[HEADER_LENGTH..HEADER_LENGTH + bodyLength] == data[HEADER_LENGTH..][..bodyLength];
      HeaderRoundTrip(bodyLength);
    }
  }
}
