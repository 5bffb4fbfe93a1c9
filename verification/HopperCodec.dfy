/** The fixed-width hexadecimal formats of the porthopper: control requests and frames. */
module HopperCodec {
  import opened HexFields

  const PORT_SIZE := 4
  const NUMBER_SIZE := 8
  const PAYLOAD_SIZE := 32
  const FRAME_SIZE := NUMBER_SIZE + PAYLOAD_SIZE

  // ----- control requests ----------------------------------------------------------------------------------

  /** A 16-bit port; 0 stands for none. */
  type Port = n: nat | n < 0x1_0000

  /** The bytes of a request to change from one port to another. */
  function ControlRequest(oldPort: Port, newPort: Port): string {
    PadLeft(Hex(oldPort), PORT_SIZE) + PadLeft(Hex(newPort), PORT_SIZE)
  }

  function OldPort(data: string): nat
    requires |data| == 2 * PORT_SIZE
  {
    ReadHex(data[..PORT_SIZE])
  }

  function NewPort(data: string): nat
    requires |data| == 2 * PORT_SIZE
  {
    ReadHex(data[PORT_SIZE..])
  }

  lemma PortRoundTrip(p: Port)
    ensures |PadLeft(Hex(p), PORT_SIZE)| == PORT_SIZE && ReadHex(PadLeft(Hex(p), PORT_SIZE)) == p
  {
    Power16Values();
    HexLength(p, PORT_SIZE);
    ReadPadded(Hex(p), PORT_SIZE);
    HexDenotes(p);
  }

  /** Both ports of a request are read back. */
  lemma RequestRoundTrip(oldPort: Port, newPort: Port)
    ensures var data := ControlRequest(oldPort, newPort);
            |data| == 2 * PORT_SIZE && OldPort(data) == oldPort && NewPort(data) == newPort
  {
    PortRoundTrip(oldPort);
    PortRoundTrip(newPort);
    var data := ControlRequest(oldPort, newPort);
    assert data[..PORT_SIZE] == PadLeft(Hex(oldPort), PORT_SIZE);
    assert data[PORT_SIZE..] == PadLeft(Hex(newPort), PORT_SIZE);
  }

  // ----- frames --------------------------------------------------------------------------------------------

  function Cut(s: string, n: nat): string {
    if |s| > n then s[..n] else s
  }

  /** The bytes of a frame, as far as they fit the buffer. */
  function Frame(number: nat, payload: string): (data: string)
    ensures |data| == FRAME_SIZE
  {
    Cut(PadLeft(Hex(number), NUMBER_SIZE) + PadLeft(Cut(payload, PAYLOAD_SIZE), PAYLOAD_SIZE), FRAME_SIZE)
  }

  function FrameNumber(data: string): nat
    requires |data| == FRAME_SIZE
  {
    ReadHex(data[..NUMBER_SIZE])
  }

  function FramePayload(data: string): string
    requires |data| == FRAME_SIZE
  {
    data[NUMBER_SIZE..]
  }

  /** A frame's number is read back exactly when it is below 2 to the 32, and then so is its payload, padded or
      cut to 32 characters. */
  lemma FrameRoundTrip(number: nat, payload: string)
    ensures var data := Frame(number, payload);
            && |data| == FRAME_SIZE
            && (FrameNumber(data) == number <==> number < 0x1_0000_0000)
            && (number < 0x1_0000_0000 ==> FramePayload(data) == PadLeft(Cut(payload, PAYLOAD_SIZE), PAYLOAD_SIZE))
  {
    var head, tail := PadLeft(Hex(number), NUMBER_SIZE), PadLeft(Cut(payload, PAYLOAD_SIZE), PAYLOAD_SIZE);
    var data := Frame(number, payload);
    Power16Values();
    FieldRoundTrip(number, NUMBER_SIZE, tail);
    assert data[..NUMBER_SIZE] == (head + tail)[..NUMBER_SIZE];
    if number < 0x1_0000_0000 {
      HexLength(number, NUMBER_SIZE);
      assert data == head + tail;
    }
  }
}
