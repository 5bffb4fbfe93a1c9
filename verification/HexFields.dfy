/** Hexadecimal numbers in fields of a fixed width, as the standard streams write and read them. */
module HexFields {

  function HexDigit(n: nat): char
    requires n < 16
  {
    if n < 10 then '0' + n as char else 'a' + (n - 10) as char
  }

  predicate IsHex(c: char) {
    '0' <= c <= '9' || 'a' <= c <= 'f' || 'A' <= c <= 'F'
  }

  function HexDigitValue(c: char): nat
    requires IsHex(c)
  {
    if c <= '9' then c as int - '0' as int
    else if c <= 'F' then c as int - 'A' as int + 10
    else c as int - 'a' as int + 10
  }

  /** The digits of a number as it is written, and the capital ones that are also read. */
  const DIGITS := "0123456789abcdef"
  const CAPITALS := "0123456789ABCDEF"

  /** The digits read are these, each with its place as its value, and those written are the small ones. */
  lemma HexDigits(c: char)
    ensures IsHex(c) <==> c in DIGITS || c in CAPITALS
    ensures IsHex(c) ==> var n := HexDigitValue(c); n < 16 && (DIGITS[n] == c || CAPITALS[n] == c)
  {}

  lemma WrittenDigits(n: nat)
    requires n < 16
    ensures HexDigit(n) == DIGITS[n]
  {}

  predicate AllHex(s: string) {
    forall i | 0 <= i < |s| :: IsHex(s[i])
  }

  function Hex(n: nat): (s: string)
    ensures s != "" && AllHex(s)
  {
    if n < 16 then [HexDigit(n)] else Hex(n / 16) + [HexDigit(n % 16)]
  }

  function HexValue(s: string): nat
    requires AllHex(s)
  {
    if s == "" then 0 else HexValue(s[..|s| - 1]) * 16 + HexDigitValue(s[|s| - 1])
  }

  function Spaces(n: nat): string {
    seq(n, i => ' ')
  }

  /** Stream output to a field of the given width: padded on the left, never cut. */
  function PadLeft(s: string, width: nat): (r: string)
    ensures |r| == if |s| >= width then |s| else width
  {
    if |s| >= width then s else Spaces(width - |s|) + s
  }

  /** The leading hexadecimal digits of a string. */
  function HexPrefix(s: string): (r: string)
    ensures AllHex(r) && r <= s
  {
    if s == "" || !IsHex(s[0]) then "" else [s[0]] + HexPrefix(s[1..])
  }

  /** Stream input of a hexadecimal number: leading spaces are skipped. */
  function ReadHex(s: string): nat {
    if s != "" && s[0] == ' ' then ReadHex(s[1..]) else HexValue(HexPrefix(s))
  }

  /** Whether there is a number to read, after any leading spaces. */
  predicate HasHex(s: string) {
    if s != "" && s[0] == ' ' then HasHex(s[1..]) else s != "" && IsHex(s[0])
  }

  /** A text that starts with a digit, after any spaces, is read as the digits it starts with; any other text is
      refused. */
  lemma ReadsDigits(spaces: nat, digits: string, rest: string)
    requires AllHex(digits) && (rest != "" ==> !IsHex(rest[0]))
    requires digits == "" && rest != "" ==> rest[0] != ' '
    ensures HasHex(Spaces(spaces) + (digits + rest)) <==> digits != ""
    ensures digits != "" ==> ReadHex(Spaces(spaces) + (digits + rest)) == HexValue(digits)
  {
    ReadSkipsSpaces(spaces, digits + rest);
    PrefixIs(digits, rest);
    if digits != "" {
      assert (digits + rest)[0] == digits[0];
    } else {
      assert digits + rest == rest;
    }
  }

  lemma {:induction false} PrefixIs(digits: string, rest: string)
    requires AllHex(digits) && (rest != "" ==> !IsHex(rest[0]))
    ensures HexPrefix(digits + rest) == digits
  {
    if digits == "" {
      assert digits + rest == rest;
    } else {
      PrefixIs(digits[1..], rest);
      assert (digits + rest)[1..] == digits[1..] + rest && (digits + rest)[0] == digits[0];
      assert [digits[0]] + digits[1..] == digits;
    }
  }

  lemma {:induction false} HexDenotes(n: nat)
    ensures HexValue(Hex(n)) == n
  {
    if n >= 16 {
      HexDenotes(n / 16);
      assert Hex(n)[..|Hex(n)| - 1] == Hex(n / 16);
    } else {
      assert Hex(n)[..0] == "";
    }
  }

  lemma {:induction false} HexPrefixAll(s: string)
    requires AllHex(s)
    ensures HexPrefix(s) == s
  {
    if s == "" {
    } else {
      HexPrefixAll(s[1..]);
    }
  }

  lemma {:induction false} ReadSkipsSpaces(n: nat, s: string)
    ensures ReadHex(Spaces(n) + s) == ReadHex(s)
    ensures HasHex(Spaces(n) + s) == HasHex(s)
  {
    if n == 0 {
      assert Spaces(n) + s == s;
    } else {
      ReadSkipsSpaces(n - 1, s);
      assert (Spaces(n) + s)[1..] == Spaces(n - 1) + s;
    }
  }

  /** Padding is skipped when a number is read. */
  lemma ReadPadded(s: string, width: nat)
    requires s != "" && AllHex(s)
    ensures HasHex(PadLeft(s, width)) && ReadHex(PadLeft(s, width)) == HexValue(s)
  {
    HexPrefixAll(s);
    if |s| < width {
      ReadSkipsSpaces(width - |s|, s);
    }
  }

  /** How long the digits of a number are: at most `width` exactly when it is below 16 to the `width`. */
  function Power16(width: nat): nat {
    if width == 0 then 1 else 16 * Power16(width - 1)
  }

  lemma {:induction false} HexLength(n: nat, width: nat)
    requires width > 0
    ensures |Hex(n)| <= width <==> n < Power16(width)
    decreases n
  {
    if n < 16 {
      Power16Positive(width - 1);
    } else if width == 1 {
      assert Power16(1) == 16 * Power16(0);
    } else {
      HexLength(n / 16, width - 1);
      assert n / 16 < Power16(width - 1) <==> n < 16 * Power16(width - 1);
    }
  }

  lemma {:induction false} Power16Positive(width: nat)
    ensures Power16(width) >= 1
  {
    if width == 0 {
    } else {
      Power16Positive(width - 1);
    }
  }

  lemma Power16Values()
    ensures Power16(4) == 0x1_0000 && Power16(8) == 0x1_0000_0000
  {
    assert Power16(2) == 256;
    assert Power16(4) == 16 * (16 * Power16(2));
    assert Power16(6) == 16 * (16 * Power16(4));
  }

  /** A number cut short is a smaller number. */
  lemma {:induction false} PrefixIsSmaller(s: string, width: nat)
    requires AllHex(s) && width < |s| && HexValue(s) > 0
    ensures HexValue(s[..width]) < HexValue(s)
    decreases |s|
  {
    var front := s[..|s| - 1];
    if width < |s| - 1 {
      assert front[..width] == s[..width];
      if HexValue(front) > 0 {
        PrefixIsSmaller(front, width);
      } else {
        ZeroPrefix(front, width);
      }
    }
  }

  lemma {:induction false} ZeroPrefix(s: string, width: nat)
    requires AllHex(s) && width <= |s| && HexValue(s) == 0
    ensures HexValue(s[..width]) == 0
    decreases |s|
  {
    if width < |s| {
      var front := s[..|s| - 1];
      assert front[..width] == s[..width];
      ZeroPrefix(front, width);
    } else {
      assert s[..width] == s;
    }
  }

  /** A number written to a field of a fixed-size buffer and read back from the field alone is that number
      exactly when its digits fit the field. */
  lemma {:induction false} FieldRoundTrip(n: nat, width: nat, rest: string)
    requires width > 0
    ensures ReadHex((PadLeft(Hex(n), width) + rest)[..width]) == n <==> n < Power16(width)
  {
    var s, p := Hex(n), PadLeft(Hex(n), width);
    HexLength(n, width);
    HexDenotes(n);
    if |s| <= width {
      assert (p + rest)[..width] == p;
      ReadPadded(s, width);
    } else {
      assert p == s && (p + rest)[..width] == s[..width];
      ReadPadded(s[..width], 0);
      Power16Positive(width);
      PrefixIsSmaller(s, width);
    }
  }
}
