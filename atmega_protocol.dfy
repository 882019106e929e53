/**
 * Constants and field codes of the frame protocol spoken by the Atmega328P
 * co-processor over UART0 (atmega/atmega.h). A frame is a start byte, a fixed
 * number of ASCII data characters and an end byte. The header documents the
 * encodings of several fields; the decoders here state those encodings. The
 * header declares no decoder implementation, so these are the documented
 * encodings only, not a full frame layout.
 */
module AtmegaProtocol {
  import opened Wrappers

  /** One byte of the UART stream (uint8_t / unsigned char on the RP2040). */
  type Byte = x: int | 0 <= x < 256

  const MaxFramesStored: nat := 5
  const FrameLength: nat := 25
  const StartChar: char := '$'
  const EndChar: char := '^'
  const StartByte: Byte := 36
  const EndByte: Byte := 94

  const BumpLeftMask: bv8 := 0x02
  const BumpRightMask: bv8 := 0x01

  const MotorFrontLeftDirectionMask: bv8 := 0x20
  const MotorFrontRightDirectionMask: bv8 := 0x10

  /** The example frame given at the top of the header. */
  const ExampleFrame: string := "$FFFFF1FFFF1FFFF1FFFFA3FF1^"

  lemma StartEndBytesAreTheDelimiterChars()
    ensures StartByte == StartChar as int && EndByte == EndChar as int
  {
  }

  /** The ASCII bytes of a string whose characters all fit in a byte. */
  function ToBytes(s: string): (b: seq<Byte>)
    requires forall i :: 0 <= i < |s| ==> s[i] as int < 256
    ensures |b| == |s|
    ensures forall i :: 0 <= i < |s| ==> b[i] == s[i] as int
  {
    seq(|s|, i requires 0 <= i < |s| => s[i] as int)
  }

  /** The example frame is delimited by the start and end characters and holds
      exactly FrameLength data characters, none of them a delimiter. */
  lemma ExampleFrameShape()
    ensures |ExampleFrame| == FrameLength + 2
    ensures ExampleFrame[0] == StartChar && ExampleFrame[|ExampleFrame| - 1] == EndChar
    ensures forall i :: 1 <= i < |ExampleFrame| - 1 ==>
              ExampleFrame[i] != StartChar && ExampleFrame[i] != EndChar
    ensures forall i :: 1 <= i < |ExampleFrame| - 1 ==> HexDigitValue(ExampleFrame[i]).Some?
  {
    var data := "FFFFF1FFFF1FFFF1FFFFA3FF1";
    assert ExampleFrame == [StartChar] + data + [EndChar];
    assert forall i :: 0 <= i < |data| ==> data[i] in {'F', '1', 'A', '3'};
    assert forall i :: 1 <= i < |ExampleFrame| - 1 ==> ExampleFrame[i] == data[i - 1];
  }

  // ---------------------------------------------------------------------
  // Hex-digit fields (IR, ultrasonic, weight, speeds): most significant first.
  // ---------------------------------------------------------------------

  function HexDigitValue(c: char): (v: Option<nat>)
    ensures v.Some? ==> v.value < 16
    ensures v.Some? <==> ('0' <= c <= '9' || 'A' <= c <= 'F' || 'a' <= c <= 'f')
  {
    if '0' <= c <= '9' then Some(c as nat - '0' as nat)
    else if 'A' <= c <= 'F' then Some(c as nat - 'A' as nat + 10)
    else if 'a' <= c <= 'f' then Some(c as nat - 'a' as nat + 10)
    else None
  }

  function HexChar(d: nat): (c: char)
    requires d < 16
  {
    if d < 10 then ('0' as int + d) as char else ('A' as int + d - 10) as char
  }

  lemma HexCharRoundTrip(d: nat)
    requires d < 16
    ensures HexDigitValue(HexChar(d)) == Some(d)
  {
  }

  function Pow16(n: nat): (p: nat)
    ensures p >= 1
  {
    if n == 0 then 1 else 16 * Pow16(n - 1)
  }

  /** The value of a field of hex digits, or None when a character is not a hex digit. */
  function HexField(s: string): (v: Option<nat>)
    ensures v.Some? ==> v.value < Pow16(|s|)
    ensures v.Some? <==> forall i :: 0 <= i < |s| ==> HexDigitValue(s[i]).Some?
  {
    if s == [] then Some(0)
    else
      match HexField(s[..|s| - 1])
      case None => None
      case Some(high) =>
        match HexDigitValue(s[|s| - 1])
        case None => None
        case Some(low) => Some(16 * high + low)
  }

  /** The upper-case hex digits of n, zero-padded to `width` characters. */
  function HexEncode(n: nat, width: nat): (s: string)
    requires n < Pow16(width)
    ensures |s| == width
  {
    if width == 0 then "" else HexEncode(n / 16, width - 1) + [HexChar(n % 16)]
  }

  lemma {:induction false} HexFieldRoundTrip(n: nat, width: nat)
    requires n < Pow16(width)
    ensures HexField(HexEncode(n, width)) == Some(n)
  {
    if width > 0 {
      var s := HexEncode(n, width);
      HexFieldRoundTrip(n / 16, width - 1);
      assert s[..|s| - 1] == HexEncode(n / 16, width - 1);
      HexCharRoundTrip(n % 16);
    }
  }

  /** IR distances are two hex digits: 00..FF mm. */
  lemma IrFieldRange(s: string)
    requires |s| == 2 && HexField(s).Some?
    ensures HexField(s).value <= 255
  {
  }

  /** Ultrasonic fields are five hex digits; the documented maximum 1FFFF is 131071 counts. */
  lemma UltrasonicFieldRange()
    ensures HexField("00000") == Some(0) && HexField("1FFFF") == Some(0x1FFFF)
    ensures 0x1FFFF < Pow16(5)
  {
    assert HexField("0") == Some(0) && HexField("00") == Some(0) && HexField("000") == Some(0);
    assert "00000"[..4] == "0000" && "0000"[..3] == "000";
    assert HexField("0000") == Some(0);
    assert "1FFFF"[..4] == "1FFF" && "1FFF"[..3] == "1FF" && "1FF"[..2] == "1F" && "1F"[..1] == "1";
    assert HexField("1") == Some(1) && HexField("1F") == Some(0x1F) && HexField("1FF") == Some(0x1FF);
    assert HexField("1FFF") == Some(0x1FFF);
  }

  /** The weight field is three hex digits; a 10-bit ADC value (0..1023) always fits. */
  lemma WeightFieldHoldsTenBitAdc(adc: nat)
    requires adc < 1024
    ensures HexField(HexEncode(adc, 3)) == Some(adc)
  {
    HexFieldRoundTrip(adc, 3);
  }

  // ---------------------------------------------------------------------
  // Bump nibble: A..D, bit 1 = left, bit 0 = right.
  // ---------------------------------------------------------------------

  datatype Bumps = Bumps(left: bool, right: bool)

  function DecodeBumps(c: char): (b: Option<Bumps>)
    ensures b.Some? <==> 'A' <= c <= 'D'
  {
    match c
    case 'A' => Some(Bumps(true, false))
    case 'B' => Some(Bumps(true, true))
    case 'C' => Some(Bumps(false, false))
    case 'D' => Some(Bumps(false, true))
    case _ => None
  }

  function EncodeBumps(b: Bumps): (c: char)
  {
    if b.left && b.right then 'B'
    else if b.left then 'A'
    else if b.right then 'D'
    else 'C'
  }

  /** Each legal nibble names exactly one bump pair and each pair has a nibble. */
  lemma BumpsRoundTrip(b: Bumps, c: char)
    ensures DecodeBumps(EncodeBumps(b)) == Some(b)
    ensures DecodeBumps(c).Some? ==> EncodeBumps(DecodeBumps(c).value) == c
  {
  }

  /** The decoded pair is the low two bits of the nibble's hex value, read with
      the ATMEGA_BUMP_L and ATMEGA_BUMP_R masks. */
  lemma BumpsAreLowBitsOfHexValue(c: char)
    requires 'A' <= c <= 'D'
    ensures HexDigitValue(c).Some?
    ensures var v := HexDigitValue(c).value as bv8;
            DecodeBumps(c) == Some(Bumps(v & BumpLeftMask != 0, v & BumpRightMask != 0))
  {
  }

  // ---------------------------------------------------------------------
  // Motor direction byte (from the encoders): a set bit means forward.
  // ---------------------------------------------------------------------

  datatype EncoderDirection = Forward | Backward

  function DirectionFromMask(b: bv8, mask: bv8): (d: EncoderDirection)
    ensures mask == 0 ==> d == Backward
    ensures d == Forward ==> b != 0
    ensures b & mask == mask && mask != 0 ==> d == Forward
  {
    if b & mask != 0 then Forward else Backward
  }

  /** Front left is bit 5 and front right is bit 4 of the direction byte. */
  lemma MotorDirectionBits(b: bv8)
    ensures MotorFrontLeftDirectionMask == 1 << 5 && MotorFrontRightDirectionMask == 1 << 4
    ensures DirectionFromMask(b, MotorFrontLeftDirectionMask) == Forward <==> (b >> 5) & 1 == 1
    ensures DirectionFromMask(b, MotorFrontRightDirectionMask) == Forward <==> (b >> 4) & 1 == 1
  {
  }

  // ---------------------------------------------------------------------
  // Change mask: one bit per sensor channel, b7 down to b0.
  // ---------------------------------------------------------------------

  datatype Channel = IrLeft | IrRight | UsLeft | UsCenter | UsRight | BumpSensors | WeightSensor | Encoders

  function ChannelBit(ch: Channel): (bit: nat)
    ensures bit < 8
  {
    match ch
    case IrLeft => 7
    case IrRight => 6
    case UsLeft => 5
    case UsCenter => 4
    case UsRight => 3
    case BumpSensors => 2
    case WeightSensor => 1
    case Encoders => 0
  }

  function ChannelAt(bit: nat): (ch: Channel)
    requires bit < 8
  {
    match bit
    case 7 => IrLeft
    case 6 => IrRight
    case 5 => UsLeft
    case 4 => UsCenter
    case 3 => UsRight
    case 2 => BumpSensors
    case 1 => WeightSensor
    case 0 => Encoders
  }

  /** The documented bit of each channel, b7 down to b0. */
  lemma ChannelBitsAsDocumented()
    ensures ChannelBit(IrLeft) == 7 && ChannelBit(IrRight) == 6
    ensures ChannelBit(UsLeft) == 5 && ChannelBit(UsCenter) == 4 && ChannelBit(UsRight) == 3
    ensures ChannelBit(BumpSensors) == 2 && ChannelBit(WeightSensor) == 1 && ChannelBit(Encoders) == 0
  {
  }

  /** The eight channels occupy the eight bits one to one. */
  lemma ChannelBitsBijective(ch: Channel, bit: nat)
    requires bit < 8
    ensures ChannelAt(ChannelBit(ch)) == ch
    ensures ChannelBit(ChannelAt(bit)) == bit
  {
  }

  function ChannelChanged(mask: bv8, ch: Channel): (changed: bool)
    ensures changed <==> mask & (1 << ChannelBit(ch)) != 0
  {
    (mask >> ChannelBit(ch)) & 1 == 1
  }

  /** Testing a channel reads its bit only: setting another channel's bit does
      not change the answer. */
  lemma ChannelChangedIndependent(mask: bv8, ch: Channel, other: Channel)
    requires ch != other
    ensures ChannelChanged(mask | (1 << ChannelBit(other)), ch) == ChannelChanged(mask, ch)
    ensures ChannelChanged(mask | (1 << ChannelBit(ch)), ch)
  {
  }
}
