/**
 * The two wire formats of the bridge: the 2-byte temperature notification
 * of the Environmental Sensing Service's Temperature characteristic (UUID
 * 0x2A6E), and the `interval:<n>` text command written to the Nordic UART
 * TX characteristic.
 */
module FrameCodec {
  import opened Wrappers
  import opened JsText
  import opened JsNumber

  /** One byte of a notification buffer. */
  type Byte = bv8

  /** A decoded temperature notification: the raw word and degrees Celsius. */
  datatype Reading = Reading(raw: nat, celsius: real)

  datatype DecodeResult = Decoded(reading: Reading) | BadLength(length: nat)

  lemma WidenByte(b: Byte)
    ensures b as bv32 < 256 && (b as bv32) as int == b as int
  {
  }

  lemma ShiftOrIsAdd(hi: bv32, lo: bv32)
    requires hi < 256 && lo < 256
    ensures (hi << 8) | lo == hi * 256 + lo
  {
  }

  lemma WordValue(hi: bv32, lo: bv32)
    requires hi < 256 && lo < 256
    ensures (hi * 256 + lo) as int == hi as int * 256 + lo as int
  {
  }

  /** `(buffer[1] << 8) | buffer[0]` on JavaScript's 32-bit integers. */
  function ShiftOr(lo: Byte, hi: Byte): bv32 {
    ((hi as bv32) << 8) | (lo as bv32)
  }

  /**
   * The raw temperature word: the little-endian unsigned 16-bit value of the
   * two bytes.
   */
  function RawTemperature(lo: Byte, hi: Byte): (raw: nat)
    ensures raw == lo as int + 256 * hi as int
    ensures raw <= 0xFFFF
  {
    ShiftOrValue(lo, hi);
    ShiftOr(lo, hi) as int
  }

  lemma ShiftOrValue(lo: Byte, hi: Byte)
    ensures ShiftOr(lo, hi) as int == lo as int + 256 * hi as int
  {
    var h, l := hi as bv32, lo as bv32;
    WidenByte(hi);
    WidenByte(lo);
    ShiftOrIsAdd(h, l);
    WordValue(h, l);
    assert ShiftOr(lo, hi) == h * 256 + l;
  }

  /**
   * The `valuechanged` handler of the temperature characteristic: a buffer
   * that is not exactly two bytes long is rejected; otherwise the raw word
   * divided by 100 is the temperature in degrees Celsius.
   */
  function DecodeTemperature(buffer: seq<Byte>): (r: DecodeResult)
    ensures r.BadLength? <==> |buffer| != 2
    ensures r.BadLength? ==> r.length == |buffer|
    ensures r.Decoded? ==>
      && r.reading.raw == buffer[0] as int + 256 * buffer[1] as int
      && r.reading.celsius == r.reading.raw as real / 100.0
  {
    if |buffer| != 2 then BadLength(|buffer|)
    else
      var raw := RawTemperature(buffer[0], buffer[1]);
      Decoded(Reading(raw, raw as real / 100.0))
  }

  /**
   * The cloud update the handler issues: `{temperature: t}` for a good
   * frame, nothing for a rejected one.
   */
  function TemperatureUpdate(buffer: seq<Byte>): (update: Option<real>)
    ensures update.None? <==> |buffer| != 2
    ensures update.Some? ==> 0.0 <= update.value <= 655.35
    ensures update.Some? ==> update.value == (buffer[0] as int + 256 * buffer[1] as int) as real / 100.0
  {
    match DecodeTemperature(buffer)
    case BadLength(_) => None
    case Decoded(reading) => Some(reading.celsius)
  }

  /** The frame a peripheral sends for a raw 16-bit word, low byte first. */
  function EncodeTemperature(word: bv32): (buffer: seq<Byte>)
    requires word < 0x1_0000
    ensures |buffer| == 2
  {
    [(word & 0xFF) as bv8, (word >> 8) as bv8]
  }

  /** Every 2-byte frame is the encoding of the word it decodes to. */
  lemma EncodeDecodedFrame(lo: Byte, hi: Byte)
    ensures ShiftOr(lo, hi) < 0x1_0000
    ensures EncodeTemperature(ShiftOr(lo, hi)) == [lo, hi]
  {
    WidenByte(hi);
    WidenByte(lo);
    ShiftOrIsAdd(hi as bv32, lo as bv32);
  }

  lemma ShiftOrOfEncoding(word: bv32)
    requires word < 0x1_0000
    ensures var b := EncodeTemperature(word); ShiftOr(b[0], b[1]) == word
  {
  }

  /** Decoding the encoding of a word gives that word back, divided by 100. */
  lemma DecodeEncodedWord(word: bv32)
    requires word < 0x1_0000
    ensures DecodeTemperature(EncodeTemperature(word)) == Decoded(Reading(word as int, word as int as real / 100.0))
  {
    var b := EncodeTemperature(word);
    ShiftOrOfEncoding(word);
    assert RawTemperature(b[0], b[1]) == word as int;
  }
  // ---------------------------------------------------------------------
  // Interval commands

  /** "interval:" */
  const IntervalPrefix: JsString := [0x69, 0x6E, 0x74, 0x65, 0x72, 0x76, 0x61, 0x6C, 0x3A]

  /**
   * `interval:${ms}` for a finite interval: the prefix, then the number,
   * which starts with a minus sign exactly when it is negative.
   */
  function IntervalCommand(ms: Decimal): (c: JsString)
    ensures |c| > |IntervalPrefix| && c[..|IntervalPrefix|] == IntervalPrefix
    ensures c[|IntervalPrefix|] == Minus <==> Value(ms) < 0.0
  {
    IntervalPrefix + DecimalText(ms)
  }

  /**
   * The literal `interval:1` that the initial sync's error path sends: the
   * command format applied to the number 1.
   */
  function FallbackCommand(): (c: JsString)
    ensures c == IntervalCommand(Whole(1))
  {
    assert Normalize(Whole(1)) == Whole(1);
    assert UnsignedText(1, 0) == [Zero + 1];
    IntervalPrefix + [Zero + 1]
  }

  /** How the peripheral reads a command back: the number after "interval:". */
  function ParseIntervalCommand(s: JsString): Option<Decimal> {
    if |s| >= |IntervalPrefix| && s[..|IntervalPrefix|] == IntervalPrefix then
      ParseDecimal(s[|IntervalPrefix|..])
    else
      None
  }

  /** An interval command carries its interval: it reads back to the same value. */
  lemma IntervalCommandRoundTrip(ms: Decimal)
    ensures var back := ParseIntervalCommand(IntervalCommand(ms));
      back.Some? && Value(back.value) == Value(ms)
  {
    var c := IntervalCommand(ms);
    assert c[..|IntervalPrefix|] == IntervalPrefix;
    assert c[|IntervalPrefix|..] == DecimalText(ms);
    DecimalTextRoundTrip(ms);
  }

  /**
   * The fallback command carries the number 1, while every other path sends
   * the interval in milliseconds, 1000 for the same one-second period.
   */
  lemma FallbackCommandMismatch()
    ensures ParseIntervalCommand(FallbackCommand()) == Some(Whole(1))
    ensures ParseIntervalCommand(IntervalCommand(Whole(1000))) == Some(Whole(1000))
  {
    assert FallbackCommand()[..|IntervalPrefix|] == IntervalPrefix;
    assert FallbackCommand()[|IntervalPrefix|..] == [Zero + 1];
    assert DotIndex([Zero + 1]) == 1;
    assert NumeralValue([Zero + 1]) == 1;
    var c := IntervalCommand(Whole(1000));
    assert c[..|IntervalPrefix|] == IntervalPrefix;
    assert c[|IntervalPrefix|..] == DecimalText(Whole(1000));
    DecimalTextRoundTrip(Whole(1000));
  }

  /** A whole number of milliseconds up to 10000 makes a command of at most 14 units. */
  lemma WholeIntervalCommandFits(n: nat)
    requires n <= 10000
    ensures |IntervalCommand(Whole(n))| <= 14
  {
    DigitsLength(n, 5);
    assert Normalize(Whole(n)) == Whole(n);
  }

  /**
   * A fractional interval inside the clamped range can make a command longer
   * than the 20-unit limit: the command is never truncated.
   */
  lemma FractionalIntervalCommandOverflows()
    ensures 1000.0 <= Value(Decimal(10_000_000_000_001, 10)) <= 10000.0
    ensures |IntervalCommand(Decimal(10_000_000_000_001, 10))| > MaxWriteUnits
  {
    var d := Decimal(10_000_000_000_001, 10);
    assert Pow10(10) == 10_000_000_000;
    assert Normalize(d) == d;
  }
}
