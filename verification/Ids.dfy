/** 160-bit account, application and transaction identifiers and their hexadecimal form
    (internal/scalegraph/id.go). */
module Ids {
  import opened Wrappers

  newtype byte = x: int | 0 <= x < 256

  type Bytes20 = s: seq<byte> | |s| == 20 witness seq(20, _ => 0)

  datatype ScalegraphId = ScalegraphId(bytes: Bytes20)

  const DIGITS: string := "0123456789abcdef"

  function High(b: byte): (d: nat)
    ensures d < 16
  {
    b as int / 16
  }

  function Low(b: byte): (d: nat)
    ensures d < 16
  {
    b as int % 16
  }

  function Byte(high: nat, low: nat): byte
    requires high < 16 && low < 16
  {
    (16 * high + low) as byte
  }

  /** Lower-case hexadecimal, two digits a byte. */
  function Encode(bytes: seq<byte>): (s: string)
    ensures |s| == 2 * |bytes|
  {
    if bytes == [] then ""
    else [DIGITS[High(bytes[0])], DIGITS[Low(bytes[0])]] + Encode(bytes[1..])
  }

  function Digit(c: char): (r: Option<nat>)
    ensures r.Some? ==> r.value < 16
  {
    if '0' <= c <= '9' then Some(c as int - '0' as int)
    else if 'a' <= c <= 'f' then Some(c as int - 'a' as int + 10)
    else if 'A' <= c <= 'F' then Some(c as int - 'A' as int + 10)
    else None
  }

  /** Accepts digits of either case; an odd length or any other character is an error. */
  function Decode(s: string): Option<seq<byte>> {
    if s == "" then Some([])
    else if |s| == 1 then None
    else
      match (Digit(s[0]), Digit(s[1]), Decode(s[2..]))
      case (Some(high), Some(low), Some(rest)) => Some([Byte(high, low)] + rest)
      case _ => None
  }

  function Format(id: ScalegraphId): string {
    Encode(id.bytes)
  }

  function Parse(s: string): Option<ScalegraphId> {
    match Decode(s)
    case None => None
    case Some(bytes) => if |bytes| == 20 then Some(ScalegraphId(bytes)) else None
  }

  function LowerChar(c: char): char {
    if 'A' <= c <= 'F' then (c as int + 32) as char else c
  }

  function Lower(s: string): (r: string)
    ensures |r| == |s|
  {
    seq(|s|, i requires 0 <= i < |s| => LowerChar(s[i]))
  }

  /** Case does not matter to the decoder. */
  lemma {:induction false} DecodeLower(s: string)
    ensures Decode(Lower(s)) == Decode(s)
  {
    if |s| >= 2 {
      assert Lower(s)[2..] == Lower(s[2..]);
      DecodeLower(s[2..]);
      assert Digit(Lower(s)[0]) == Digit(s[0]);
      assert Digit(Lower(s)[1]) == Digit(s[1]);
    }
  }

  lemma {:induction false} DecodeEncode(bytes: seq<byte>)
    ensures Decode(Encode(bytes)) == Some(bytes)
  {
    if bytes != [] {
      DecodeEncode(bytes[1..]);
      DecodePair(bytes[0], Encode(bytes[1..]));
      assert [bytes[0]] + bytes[1..] == bytes;
    }
  }

  /** The digits of byte i stand at places 2i and 2i + 1, the high one first. */
  lemma {:induction false} EncodeAt(bytes: seq<byte>, i: nat)
    requires i < |bytes|
    ensures Encode(bytes)[2 * i] == "0123456789abcdef"[bytes[i] as int / 16]
    ensures Encode(bytes)[2 * i + 1] == "0123456789abcdef"[bytes[i] as int % 16]
  {
    if i > 0 { EncodeAt(bytes[1..], i - 1); }
  }

  lemma DecodePair(b: byte, rest: string)
    requires Decode(rest).Some?
    ensures Decode([DIGITS[High(b)], DIGITS[Low(b)]] + rest) == Some([b] + Decode(rest).value)
  {
    var s := [DIGITS[High(b)], DIGITS[Low(b)]] + rest;
    assert s[2..] == rest;
    DigitOf(High(b));
    DigitOf(Low(b));
    assert Byte(High(b), Low(b)) == b;
  }

  lemma DigitOf(d: nat)
    requires d < 16
    ensures Digit(DIGITS[d]) == Some(d)
  {
  }

  lemma {:induction false} EncodeDecode(s: string, bytes: seq<byte>)
    requires Decode(s) == Some(bytes)
    ensures Encode(bytes) == Lower(s)
  {
    if s != "" {
      var high, low, rest := Digit(s[0]).value, Digit(s[1]).value, Decode(s[2..]).value;
      assert bytes == [Byte(high, low)] + rest;
      EncodeDecode(s[2..], rest);
      EncodePair(high, low, rest);
      DigitBack(s[0]);
      DigitBack(s[1]);
      assert Lower(s) == [LowerChar(s[0]), LowerChar(s[1])] + Lower(s[2..]);
    }
  }

  lemma EncodePair(high: nat, low: nat, rest: seq<byte>)
    requires high < 16 && low < 16
    ensures Encode([Byte(high, low)] + rest) == [DIGITS[high], DIGITS[low]] + Encode(rest)
  {
    var bytes := [Byte(high, low)] + rest;
    assert bytes[1..] == rest;
    DigitsOf(high, low);
  }

  lemma DigitsOf(high: nat, low: nat)
    requires high < 16 && low < 16
    ensures High(Byte(high, low)) == high && Low(Byte(high, low)) == low
  {
  }

  lemma DigitBack(c: char)
    requires Digit(c).Some?
    ensures LowerChar(c) == DIGITS[Digit(c).value]
  {
  }

  /** The identifier a string names: exactly the one it spells, in either case. */
  lemma ParseExactly(s: string, id: ScalegraphId)
    ensures Parse(s) == Some(id) <==> Lower(s) == Format(id)
  {
    if Parse(s) == Some(id) {
      EncodeDecode(s, id.bytes);
    } else if Lower(s) == Format(id) {
      DecodeLower(s);
      DecodeEncode(id.bytes);
      assert false;
    }
  }

  /** Formatting and parsing are inverse. */
  lemma ParseFormat(id: ScalegraphId)
    ensures Parse(Format(id)) == Some(id)
  {
    DecodeEncode(id.bytes);
  }

  /** Comparing printed identifiers, as the program often does, is comparing identifiers. */
  lemma FormatInjective(x: ScalegraphId, y: ScalegraphId)
    ensures Format(x) == Format(y) <==> x == y
  {
    ParseFormat(x);
    ParseFormat(y);
  }
}
