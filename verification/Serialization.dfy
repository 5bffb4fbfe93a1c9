/** Messages framed by an 8-byte hexadecimal length. */
module Serialization {
  import opened Basics
  import opened HexFields

  const HEADER_LENGTH := 8

  function Header(size: nat): string {
    PadLeft(Hex(size), HEADER_LENGTH)
  }

  /** What is written for some serialized data; None is `invalid_argument`. */
  function Written(data: string): Option<string> {
    if |Header(|data|)| != HEADER_LENGTH then None else Some(Header(|data|) + data)
  }

  /** The size a header announces; None is `invalid_argument`. */
  function SizeOf(header: string): Option<nat> {
    if HasHex(header) then Some(ReadHex(header)) else None
  }

  /** The messages successive reads take from a stream, and whether they end at an invalid header rather than
      at the end of the bytes. */
  datatype Received = Received(messages: seq<string>, invalid: bool)

  function ReadAll(stream: string): Received
    decreases |stream|
  {
    if |stream| < HEADER_LENGTH then Received([], false)
    else
      match SizeOf(stream[..HEADER_LENGTH])
      case None => Received([], true)
      case Some(n) =>
        if |stream| < HEADER_LENGTH + n then Received([], false)
        else
          var rest := ReadAll(stream[HEADER_LENGTH + n..]);
          Received([stream[HEADER_LENGTH..HEADER_LENGTH + n]] + rest.messages, rest.invalid)
  }

  /** Data is written exactly when its size is below 2 to the 32, and its header then announces it. */
  lemma WrittenIff(data: string)
    ensures Written(data).Some? <==> |data| < 0x1_0000_0000
    ensures Written(data).Some? ==> |Header(|data|)| == HEADER_LENGTH && SizeOf(Header(|data|)) == Some(|data|)
  {
    Power16Values();
    HexLength(|data|, HEADER_LENGTH);
    HexDenotes(|data|);
    ReadPadded(Hex(|data|), HEADER_LENGTH);
  }

  /** A header of spaces, hexadecimal digits and anything else announces the number the digits denote, and is refused
      exactly when there are no digits. */
  lemma SizeOfIff(spaces: nat, digits: string, rest: string)
    requires AllHex(digits) && (rest != "" ==> rest[0] !in DIGITS && rest[0] !in CAPITALS)
    requires digits == "" && rest != "" ==> rest[0] != ' '
    ensures SizeOf(Spaces(spaces) + (digits + rest)) == if digits == "" then None else Some(HexValue(digits))
  {
    if rest != "" {
      HexDigits(rest[0]);
    }
    ReadsDigits(spaces, digits, rest);
  }

  /** Every header is of that form. */
  lemma {:induction false} HeaderParts(header: string) returns (spaces: nat, digits: string, rest: string)
    ensures header == Spaces(spaces) + (digits + rest)
    ensures AllHex(digits) && (rest != "" ==> rest[0] !in DIGITS && rest[0] !in CAPITALS)
    ensures digits == "" && rest != "" ==> rest[0] != ' '
  {
    if header != "" && header[0] == ' ' {
      spaces, digits, rest := HeaderParts(header[1..]);
      assert header == [' '] + header[1..];
      assert [' '] + Spaces(spaces) == Spaces(spaces + 1);
      Assoc([' '], Spaces(spaces), digits + rest);
      spaces := spaces + 1;
    } else {
      spaces, digits := 0, HexPrefix(header);
      rest := header[|digits|..];
      assert header == digits + rest == Spaces(0) + (digits + rest);
      LongestPrefix(header);
      if rest != "" {
        HexDigits(rest[0]);
      }
    }
  }

  lemma {:induction false} LongestPrefix(s: string)
    ensures var k := |HexPrefix(s)|; k < |s| ==> !IsHex(s[k])
  {
    if s == "" || !IsHex(s[0]) {
    } else {
      LongestPrefix(s[1..]);
      assert |HexPrefix(s)| < |s| ==> s[|HexPrefix(s)|] == s[1..][|HexPrefix(s)| - 1];
    }
  }

  /** A stream of messages; those that cannot be written are not in it. */
  function Stream(messages: seq<string>): string {
    if messages == [] then ""
    else (match Written(messages[0]) case None => "" case Some(s) => s) + Stream(messages[1..])
  }

  predicate AllWritable(messages: seq<string>) {
    messages != [] ==> Written(messages[0]).Some? && AllWritable(messages[1..])
  }

  lemma {:induction false} ReadOne(data: string, tail: string)
    requires Written(data).Some?
    ensures var rest := ReadAll(tail);
            ReadAll(Written(data).value + tail) == Received([data] + rest.messages, rest.invalid)
  {
    WrittenIff(data);
    var s := Written(data).value + tail;
    assert s[..HEADER_LENGTH] == Header(|data|);
    assert s[HEADER_LENGTH..HEADER_LENGTH + |data|] == data;
    assert s[HEADER_LENGTH + |data|..] == tail;
  }

  /** Messages written one after another are read back one by one, and reading then goes on with the bytes
      after them. */
  lemma {:induction false} ReadInvertsWrite(messages: seq<string>, rest: string)
    requires AllWritable(messages)
    ensures ReadAll(Stream(messages) + rest) == Received(messages + ReadAll(rest).messages, ReadAll(rest).invalid)
  {
    if messages == [] {
      assert Stream(messages) + rest == rest;
      assert messages + ReadAll(rest).messages == ReadAll(rest).messages;
    } else {
      var data, others := messages[0], messages[1..];
      Assoc(Written(data).value, Stream(others), rest);
      ReadOne(data, Stream(others) + rest);
      ReadInvertsWrite(others, rest);
      Assoc([data], others, ReadAll(rest).messages);
      assert [data] + others == messages;
    }
  }

  /** While a message is still arriving, exactly the messages before it have been read, whatever part of it is
      there, and no error is reported. */
  lemma {:induction false} ReadsWhatIsComplete(messages: seq<string>, next: string, partial: string)
    requires AllWritable(messages) && Written(next).Some? && partial < Written(next).value
    ensures ReadAll(Stream(messages) + partial) == Received(messages, false)
  {
    ReadInvertsWrite(messages, partial);
    WrittenIff(next);
    if |partial| >= HEADER_LENGTH {
      assert partial[..HEADER_LENGTH] == Written(next).value[..HEADER_LENGTH] == Header(|next|);
    }
    assert messages + [] == messages;
  }

  // ----- the connection object -----------------------------------------------------------------------------

  class Connection {
    var outboundHeader: string
    var outboundData: string
    var inboundHeader: string
    var inboundData: string

    /** `data` is the serialized structure; the result is what the socket is given to write. */
    method AsyncWrite(data: string) returns (sent: Option<string>)
      modifies this`outboundData, this`outboundHeader
      ensures sent == Written(data) && outboundData == data
      ensures sent.Some? ==> sent.value == outboundHeader + outboundData
      ensures sent.None? ==> outboundHeader == old(outboundHeader)
    {
      outboundData := data;
      var header := PadLeft(Hex(|outboundData|), HEADER_LENGTH);
      if |header| != HEADER_LENGTH {
        return None;
      }
      outboundHeader := header;
      sent := Some(outboundHeader + outboundData);
    }

    /** The header has arrived; the result is how much data to read next. */
    method HandleReadHeader(header: string) returns (size: Option<nat>)
      modifies this`inboundHeader, this`inboundData
      ensures size == SizeOf(header) && inboundHeader == header
      ensures if size.Some? then |inboundData| == size.value else inboundData == old(inboundData)
    {
      inboundHeader := header;
      if !HasHex(inboundHeader) {
        return None;
      }
      inboundData := seq(ReadHex(inboundHeader), i => '\0');
      size := Some(|inboundData|);
    }
  }
}
