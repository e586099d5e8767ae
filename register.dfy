/**
 * The MCP3424 register encoding shared by the Python script and the bus
 * variant of the Node script: the configuration byte written with every
 * read request, its decoding (`printCfg`), the response length, and the
 * conversion of the response bytes into a signed raw code.
 */
module Register {
  import opened Wrappers
  import opened Text

  /** A byte as the bus libraries deliver it: an integer 0..255. */
  type Byte = b: int | 0 <= b < 0x100

  // The two flags of the configuration register, bit 7 and bit 4.
  const RDY: Byte := 0x80
  const OC: Byte := 0x10

  /*
   * The configuration byte is modelled as an integer, like the data bytes.
   * Its fields have no bit in common, so the OR that assembles it is their
   * sum, and masking with 0x60, 0x0c or 0x03 keeps b / 0x20 % 4, b / 4 % 4 or
   * b % 4 times the field's lowest bit.
   */

  /** `b & RDY != 0`. */
  predicate NotReady(b: Byte) { b / 0x80 == 1 }

  /** `b & OC != 0`. */
  predicate Continuous(b: Byte) { b / 0x10 % 2 == 1 }

  /** `b & 0x60`, the channel field in place. */
  function ChannelBits(b: Byte): int { b / 0x20 % 4 * 0x20 }

  /** `b & 0x0c`, the resolution field in place. */
  function ResolutionBits(b: Byte): int { b / 4 % 4 * 4 }

  /** `b & 0x03`, the gain field. */
  function GainBits(b: Byte): int { b % 4 }

  predicate LegalChannel(ch: int) { 1 <= ch <= 4 }
  predicate LegalBits(bits: int) { bits == 12 || bits == 14 || bits == 16 || bits == 18 }
  predicate LegalGain(gain: int) { gain == 1 || gain == 2 || gain == 4 || gain == 8 }

  function Pow2(n: nat): (r: nat)
    ensures r >= 1
  {
    if n == 0 then 1 else 2 * Pow2(n - 1)
  }

  /** The powers of two the four resolutions need. */
  lemma Pow2Values()
    ensures Pow2(11) == 2048 && Pow2(12) == 4096
    ensures Pow2(13) == 8192 && Pow2(14) == 16384
    ensures Pow2(15) == 32768 && Pow2(16) == 65536
    ensures Pow2(17) == 131072 && Pow2(18) == 262144
  {
    assert Pow2(4) == 16;
    assert Pow2(8) == 256;
    assert Pow2(11) == 2048;
    assert Pow2(14) == 16384;
    assert Pow2(17) == 131072;
  }

  /** The channel table: channels 1..4 select field values 0x00..0x60; any other key is missing. */
  function ChannelField(ch: int): (r: Option<int>)
    ensures r.Some? <==> LegalChannel(ch)
    ensures r.Some? ==> r.value == (ch - 1) * 0x20
  {
    if ch == 1 then Some(0x00)
    else if ch == 2 then Some(0x20)
    else if ch == 3 then Some(0x40)
    else if ch == 4 then Some(0x60)
    else None
  }

  /** The resolution table: 12/14/16/18 bits select 0x00/0x04/0x08/0x0c. */
  function BitsField(bits: int): (r: Option<int>)
    ensures r.Some? <==> LegalBits(bits)
    ensures r.Some? ==> r.value == (bits - 12) * 2
  {
    if bits == 12 then Some(0x00)
    else if bits == 14 then Some(0x04)
    else if bits == 16 then Some(0x08)
    else if bits == 18 then Some(0x0c)
    else None
  }

  /** The gain table: gains 1/2/4/8 select 0x00..0x03. */
  function GainField(gain: int): (r: Option<int>)
    ensures r.Some? <==> LegalGain(gain)
    ensures r.Some? ==> 0 <= r.value < 4 && Pow2(r.value) == gain
  {
    if gain == 1 then Some(0x00)
    else if gain == 2 then Some(0x01)
    else if gain == 4 then Some(0x02)
    else if gain == 8 then Some(0x03)
    else None
  }

  /** The key a table lookup failed on, in the order the OR expression evaluates them. */
  datatype KeyError = MissingChannel(ch: int) | MissingBits(bits: int) | MissingGain(gain: int)

  /** The fields of a configuration (or status) byte, read arithmetically. */
  datatype CfgFields = CfgFields(notReady: bool, channel: int, continuous: bool, bits: int, gain: int)

  /**
   * Reference reading of a byte: bit 7 is RDY, bits 6-5 the channel minus one,
   * bit 4 the conversion mode, bits 3-2 select 12 + 2k bits, bits 1-0 the gain 2^k.
   */
  function DecodeCfg(b: Byte): (r: CfgFields)
    ensures LegalChannel(r.channel) && LegalBits(r.bits) && LegalGain(r.gain)
  {
    var k := GainBits(b);
    CfgFields(
      NotReady(b),
      ChannelBits(b) / 0x20 + 1,
      Continuous(b),
      12 + 2 * (ResolutionBits(b) / 4),
      if k == 0 then 1 else if k == 1 then 2 else if k == 2 then 4 else 8)
  }

  /**
   * The Python request byte `RDY | OC | Channel[ch] | bits[b] | GAIN[g]`;
   * a key missing from one of the tables raises KeyError.
   */
  function EncodeConfig(ch: int, bits: int, gain: int): (r: Result<Byte, KeyError>)
    ensures r.Success? <==> LegalChannel(ch) && LegalBits(bits) && LegalGain(gain)
    ensures r.Success? ==> NotReady(r.value) && Continuous(r.value)
    ensures r.Failure? ==> r.error == (if !LegalChannel(ch) then MissingChannel(ch)
                                       else if !LegalBits(bits) then MissingBits(bits)
                                       else MissingGain(gain))
  {
    match (ChannelField(ch), BitsField(bits), GainField(gain))
    case (None, _, _) => Failure(MissingChannel(ch))
    case (Some(_), None, _) => Failure(MissingBits(bits))
    case (Some(_), Some(_), None) => Failure(MissingGain(gain))
    case (Some(c), Some(s), Some(g)) => Success(RDY + OC + c + s + g)
  }

  /** The fields of RDY + OC + c + s + g read back as c, s and g. */
  lemma {:induction false} AssembledFields(c: int, s: int, g: int)
    requires c in {0x00, 0x20, 0x40, 0x60} && s in {0x00, 0x04, 0x08, 0x0c} && 0 <= g < 4
    ensures var b: Byte := RDY + OC + c + s + g;
      NotReady(b) && Continuous(b) && ChannelBits(b) == c && ResolutionBits(b) == s && GainBits(b) == g
  {
    var b := RDY + OC + c + s + g;
    assert b / 0x20 == 4 + c / 0x20;
    assert b / 4 == 0x24 + c / 4 + s / 4;
  }

  /** Masking the encoded byte recovers the channel, resolution and gain; RDY and OC read as set. */
  lemma EncodeConfigDecodes(ch: int, bits: int, gain: int)
    requires EncodeConfig(ch, bits, gain).Success?
    ensures DecodeCfg(EncodeConfig(ch, bits, gain).value) == CfgFields(true, ch, true, bits, gain)
  {
    AssembledFields(ChannelField(ch).value, BitsField(bits).value, GainField(gain).value);
  }

  /** Two legal settings that encode to the same byte are the same setting. */
  lemma EncodeConfigInjective(ch1: int, bits1: int, gain1: int, ch2: int, bits2: int, gain2: int)
    requires EncodeConfig(ch1, bits1, gain1).Success?
    requires EncodeConfig(ch1, bits1, gain1) == EncodeConfig(ch2, bits2, gain2)
    ensures ch1 == ch2 && bits1 == bits2 && gain1 == gain2
  {
    EncodeConfigDecodes(ch1, bits1, gain1);
    EncodeConfigDecodes(ch2, bits2, gain2);
  }

  /** A missing key reads as an undefined value, which `|` treats as 0. */
  function FieldOrZero(f: Option<int>): int {
    match f
    case Some(v) => v
    case None => 0
  }

  /**
   * The Node request byte: the same OR expression, but a key missing from a
   * table contributes 0 instead of raising.
   */
  function RequestByte(ch: int, bits: int, gain: int): (r: Byte)
  {
    var c, s, g := FieldOrZero(ChannelField(ch)), FieldOrZero(BitsField(bits)), FieldOrZero(GainField(gain));
    AssembledFields(c, s, g);
    RDY + OC + c + s + g
  }

  /**
   * The Node request byte always asks for a continuous conversion, agrees
   * with the Python byte whenever that one exists, and has a zero field
   * wherever the key is missing from its table.
   */
  lemma RequestByteSpec(ch: int, bits: int, gain: int)
    ensures var r := RequestByte(ch, bits, gain);
      && NotReady(r) && Continuous(r)
      && (EncodeConfig(ch, bits, gain).Success? ==> EncodeConfig(ch, bits, gain).value == r)
      && (!LegalChannel(ch) ==> ChannelBits(r) == 0)
      && (!LegalBits(bits) ==> ResolutionBits(r) == 0)
      && (!LegalGain(gain) ==> GainBits(r) == 0)
  {
    var c, s, g := FieldOrZero(ChannelField(ch)), FieldOrZero(BitsField(bits)), FieldOrZero(GainField(gain));
    AssembledFields(c, s, g);
  }

  /** An illegal gain in the Node variant silently requests gain 1. */
  lemma RequestByteIllegalGainIsGainOne(ch: int, bits: int, gain: int)
    requires !LegalGain(gain)
    ensures RequestByte(ch, bits, gain) == RequestByte(ch, bits, 1)
  {
  }

  /** Number of bytes requested: 18-bit results need three data bytes, the rest two, plus the status byte. */
  function ResponseLength(bits: int): (n: nat)
    ensures n == DataBytes(bits) + 1
  {
    if bits == 18 then 4 else 3
  }

  function DataBytes(bits: int): (n: nat)
    ensures 2 <= n <= 3 && (n == 3 <==> bits == 18)
  {
    if bits == 18 then 3 else 2
  }

  /** The status byte is the last byte of the response. */
  function StatusByte(bits: int, raw: seq<Byte>): (s: Byte)
    requires |raw| == ResponseLength(bits)
    ensures s == raw[|raw| - 1]
    ensures bits == 18 ==> s == raw[3]
    ensures bits != 18 ==> s == raw[2]
  {
    if bits == 18 then raw[3] else raw[2]
  }

  /**
   * The unsigned mantissa: the top byte masked to its low 2/6/4 bits for
   * 18/14/12 bits (unmasked for 16), the following bytes shifted in. On byte
   * values, `b & 0x3`, `b & 0x3f` and `b & 0xf` are `b % 4`, `b % 64` and
   * `b % 16`, a shift left by 8 or 16 is a product with 0x100 or 0x1_0000, and
   * the OR of fields with no bit in common is their sum. An illegal resolution
   * leaves it unassigned.
   */
  function Mantissa(bits: int, val: seq<Byte>): (m: Option<int>)
    requires |val| >= DataBytes(bits)
    ensures m.Some? <==> LegalBits(bits)
  {
    var b0, b1 := val[0] as int, val[1] as int;
    if bits == 18 then Some(b0 % 4 * 0x1_0000 + b1 * 0x100 + val[2])
    else if bits == 16 then Some(b0 * 0x100 + b1)
    else if bits == 14 then Some(b0 % 64 * 0x100 + b1)
    else if bits == 12 then Some(b0 % 16 * 0x100 + b1)
    else None
  }

  /**
   * The signed raw code: the mantissa, minus 2^bits when bit 7 of the first
   * byte (`val[0] & 0x80`) is set. None stands for the unassigned result of an
   * illegal resolution.
   */
  function DecodeRaw(bits: int, val: seq<Byte>): (r: Option<int>)
    requires |val| >= DataBytes(bits)
    ensures r.Some? <==> LegalBits(bits)
  {
    match Mantissa(bits, val)
    case None => None
    case Some(m) => Some(if val[0] >= 0x80 then m - Pow2(bits) else m)
  }

  /**
   * Only the DataBytes(bits) data bytes count: two responses that agree on
   * them decode to the same code, whatever follows (the status byte, or the
   * zero padding of a four-byte buffer).
   */
  lemma DecodeRawReadsDataBytes(bits: int, v: seq<Byte>, w: seq<Byte>)
    requires |v| >= DataBytes(bits) && |w| >= DataBytes(bits)
    requires v[..DataBytes(bits)] == w[..DataBytes(bits)]
    ensures DecodeRaw(bits, v) == DecodeRaw(bits, w)
    ensures DecodeRaw(bits, v) == DecodeRaw(bits, v[..DataBytes(bits)])
  {
    var n := DataBytes(bits);
    assert forall i :: 0 <= i < n ==> v[i] == v[..n][i] == w[..n][i] == w[i];
  }

  /** The mantissa is a `bits`-bit unsigned number. */
  lemma MantissaRange(bits: int, val: seq<Byte>)
    requires LegalBits(bits) && |val| >= DataBytes(bits)
    ensures 0 <= Mantissa(bits, val).value < Pow2(bits)
  {
    Pow2Values();
  }

  /**
   * The code lies in [-2^bits, 2^bits), is negative exactly when bit 7 of the
   * first byte is set, and a 16-bit code fits in a signed 16-bit integer.
   */
  lemma DecodeRawRange(bits: int, val: seq<Byte>)
    requires LegalBits(bits) && |val| >= DataBytes(bits)
    ensures var r := DecodeRaw(bits, val).value;
            -(Pow2(bits) as int) <= r < Pow2(bits) && (r < 0 <==> val[0] >= 0x80)
            && (bits == 16 ==> -32768 <= r < 32768)
  {
    MantissaRange(bits, val);
    Pow2Values();
  }

  /** The decoded code and the mantissa agree modulo 2^bits: only the sign's weight differs. */
  lemma DecodeRawCongruent(bits: int, val: seq<Byte>)
    requires LegalBits(bits) && |val| >= DataBytes(bits)
    ensures (DecodeRaw(bits, val).value - Mantissa(bits, val).value) % Pow2(bits) == 0
  {
    Pow2Values();
    MantissaRange(bits, val);
    var d := DecodeRaw(bits, val).value - Mantissa(bits, val).value;
    assert d == 0 || d == -(Pow2(bits) as int);
    if bits == 18 {
      assert d % 0x4_0000 == 0;
    } else if bits == 16 {
      assert d % 0x1_0000 == 0;
    } else if bits == 14 {
      assert d % 0x4000 == 0;
    } else {
      assert d % 0x1000 == 0;
    }
  }

  /** The bits above the code in the first byte, all copies of the sign bit for a negative code. */
  function SignExtension(bits: int): int {
    if bits == 18 then 0xfc else if bits == 14 then 0xc0 else if bits == 12 then 0xf0 else 0x00
  }

  /**
   * The data bytes the converter sends for the code v: its two's-complement
   * bits, big-endian, with the sign repeated in the unused top bits of the first
   * byte (three bytes at 18 bits, two otherwise).
   */
  function SampleBytes(bits: int, v: int): (val: seq<Byte>)
    requires LegalBits(bits) && -(Pow2(bits - 1) as int) <= v < Pow2(bits - 1)
    ensures |val| == DataBytes(bits)
  {
    Pow2Values();
    var ext := if v < 0 then SignExtension(bits) else 0;
    if bits == 18 then
      var w := if v < 0 then v + 0x4_0000 else v;
      assert if v < 0 then 2 <= w / 0x1_0000 <= 3 else w / 0x1_0000 <= 1;
      var b0: Byte, b1: Byte, b2: Byte := ext + w / 0x1_0000, w / 0x100 % 0x100, w % 0x100;
      [b0, b1, b2]
    else if bits == 16 then
      var w := if v < 0 then v + 0x1_0000 else v;
      var b0: Byte, b1: Byte := w / 0x100, w % 0x100;
      [b0, b1]
    else if bits == 14 then
      var w := if v < 0 then v + 0x4000 else v;
      assert if v < 0 then 0x20 <= w / 0x100 < 0x40 else w / 0x100 < 0x20;
      var b0: Byte, b1: Byte := ext + w / 0x100, w % 0x100;
      [b0, b1]
    else
      var w := if v < 0 then v + 0x1000 else v;
      assert if v < 0 then 0x8 <= w / 0x100 < 0x10 else w / 0x100 < 0x8;
      var b0: Byte, b1: Byte := ext + w / 0x100, w % 0x100;
      [b0, b1]
  }

  /** Three bytes of the wrapped 18-bit code, sign-extended, read back as the code. */
  lemma Digits18(v: int, b0: int, b1: int, b2: int)
    requires -0x2_0000 <= v < 0x2_0000
    requires var w := if v < 0 then v + 0x4_0000 else v;
             b0 == (if v < 0 then 0xfc else 0) + w / 0x1_0000 && b1 == w / 0x100 % 0x100 && b2 == w % 0x100
    ensures b0 % 4 * 0x1_0000 + b1 * 0x100 + b2 - (if b0 >= 0x80 then 0x4_0000 else 0) == v
  {
    var w := if v < 0 then v + 0x4_0000 else v;
    assert b0 % 4 == w / 0x1_0000;
  }

  /** Two bytes of the wrapped 16-bit code read back as the code. */
  lemma Digits16(v: int, b0: int, b1: int)
    requires -0x8000 <= v < 0x8000
    requires var w := if v < 0 then v + 0x1_0000 else v;
             b0 == w / 0x100 && b1 == w % 0x100
    ensures b0 * 0x100 + b1 - (if b0 >= 0x80 then 0x1_0000 else 0) == v
  {
  }

  /** Two bytes of the wrapped 14-bit code, sign-extended, read back as the code. */
  lemma Digits14(v: int, b0: int, b1: int)
    requires -0x2000 <= v < 0x2000
    requires var w := if v < 0 then v + 0x4000 else v;
             b0 == (if v < 0 then 0xc0 else 0) + w / 0x100 && b1 == w % 0x100
    ensures b0 % 64 * 0x100 + b1 - (if b0 >= 0x80 then 0x4000 else 0) == v
  {
    var w := if v < 0 then v + 0x4000 else v;
    assert b0 % 64 == w / 0x100;
  }

  /** Two bytes of the wrapped 12-bit code, sign-extended, read back as the code. */
  lemma Digits12(v: int, b0: int, b1: int)
    requires -0x800 <= v < 0x800
    requires var w := if v < 0 then v + 0x1000 else v;
             b0 == (if v < 0 then 0xf0 else 0) + w / 0x100 && b1 == w % 0x100
    ensures b0 % 16 * 0x100 + b1 - (if b0 >= 0x80 then 0x1000 else 0) == v
  {
    var w := if v < 0 then v + 0x1000 else v;
    assert b0 % 16 == w / 0x100;
  }

  /** Decoding the bytes the converter sends for a code in range gives that code back. */
  lemma DecodeSampleBytes(bits: int, v: int)
    requires LegalBits(bits) && -(Pow2(bits - 1) as int) <= v < Pow2(bits - 1)
    ensures DecodeRaw(bits, SampleBytes(bits, v)) == Some(v)
  {
    Pow2Values();
    var val := SampleBytes(bits, v);
    if bits == 18 {
      Digits18(v, val[0], val[1], val[2]);
    } else if bits == 16 {
      Digits16(v, val[0], val[1]);
    } else if bits == 14 {
      Digits14(v, val[0], val[1]);
    } else {
      Digits12(v, val[0], val[1]);
    }
  }

  /** The text `printCfg` gives a resolution field. */
  function BitsText(bits: int): string {
    if bits == 12 then "12 bits/ 240 SPS"
    else if bits == 14 then "14 bits/ 60 SPS"
    else if bits == 16 then "16 bits/ 15 SPS"
    else "18 bits/ 3 SPS"
  }

  function ChannelMessage(cfg: Byte): string {
    var f := ChannelBits(cfg);
    if Some(f) == ChannelField(1) then "Channel 1"
    else if Some(f) == ChannelField(2) then "Channel 2"
    else if Some(f) == ChannelField(3) then "Channel 3"
    else if Some(f) == ChannelField(4) then "Channel 4"
    else "           Channel BUG - should not be here"
  }

  function BitsMessage(cfg: Byte): string {
    var f := ResolutionBits(cfg);
    if Some(f) == BitsField(12) then BitsText(12)
    else if Some(f) == BitsField(14) then BitsText(14)
    else if Some(f) == BitsField(16) then BitsText(16)
    else if Some(f) == BitsField(18) then BitsText(18)
    else "           bits BUG - should not be here"
  }

  function GainMessage(cfg: Byte): string {
    var f := GainBits(cfg);
    if Some(f) == GainField(1) then "PGA = 1"
    else if Some(f) == GainField(2) then "PGA = 2"
    else if Some(f) == GainField(4) then "PGA = 4"
    else if Some(f) == GainField(8) then "PGA = 8"
    else "          GAIN BUG - should not be here"
  }

  /** `printCfg`: the byte in hex followed by the meaning of each of its fields. */
  function PrintCfg(cfg: Byte): string {
    HexString(cfg)
    + (if NotReady(cfg) then ": data NOT ready" else ": Data ready")
    + ", " + ChannelMessage(cfg)
    + ", " + (if Continuous(cfg) then "Continous mode" else "One shot")
    + ", " + BitsMessage(cfg)
    + ", " + GainMessage(cfg)
  }

  /** The message `printCfg` gives for fields read by the reference decoding; no byte reaches a BUG branch. */
  function Describe(cfg: Byte, f: CfgFields): string
    requires LegalChannel(f.channel) && LegalGain(f.gain)
  {
    HexString(cfg)
    + (if f.notReady then ": data NOT ready" else ": Data ready")
    + ", " + ("Channel " + [DigitChar(f.channel)])
    + ", " + (if f.continuous then "Continous mode" else "One shot")
    + ", " + BitsText(f.bits)
    + ", " + ("PGA = " + [DigitChar(f.gain)])
  }

  lemma ChannelMessageDecodes(cfg: Byte)
    ensures ChannelMessage(cfg) == "Channel " + [DigitChar(DecodeCfg(cfg).channel)]
  {
  }

  lemma BitsMessageDecodes(cfg: Byte)
    ensures BitsMessage(cfg) == BitsText(DecodeCfg(cfg).bits)
  {
  }

  lemma GainMessageDecodes(cfg: Byte)
    ensures GainMessage(cfg) == "PGA = " + [DigitChar(DecodeCfg(cfg).gain)]
  {
  }

  /**
   * `printCfg` names exactly the fields of the byte: "data NOT ready" iff bit 7
   * is set, and the channel, mode, resolution and gain the masked fields hold.
   */
  lemma PrintCfgDescribesFields(cfg: Byte)
    ensures PrintCfg(cfg) == Describe(cfg, DecodeCfg(cfg))
  {
    ChannelMessageDecodes(cfg);
    BitsMessageDecodes(cfg);
    GainMessageDecodes(cfg);
  }

  /** On a byte the encoder built, `printCfg` reports the encoded channel, bits and gain, not ready and continuous. */
  lemma PrintCfgOfEncoded(ch: int, bits: int, gain: int)
    requires EncodeConfig(ch, bits, gain).Success?
    ensures PrintCfg(EncodeConfig(ch, bits, gain).value)
            == Describe(EncodeConfig(ch, bits, gain).value, CfgFields(true, ch, true, bits, gain))
  {
    PrintCfgDescribesFields(EncodeConfig(ch, bits, gain).value);
    EncodeConfigDecodes(ch, bits, gain);
  }
}
