// Register file of the LTR-329ALS ambient-light sensor, as mirrored by the
// driver in a packed 9-byte image: the register address map, the bit-field
// views of CONTROL, MEAS_RATE, PART_ID and STATUS, and the byte layout of the
// image itself.
//
// The source declares the bit-fields as C bit-field structs inside unions with
// a plain byte.  C leaves bit-field order to the compiler; the target compiler
// (GCC, little-endian) allocates from the least significant bit upward, which
// is what the model does with explicit shifts and masks.

module Ltr329Regs {

  type Byte = bv8

  /** Bit-field widths: a field value is always representable in its width. */
  type Bit = b: bv8 | b <= 1
  type Bits2 = b: bv8 | b <= 3
  type Bits3 = b: bv8 | b <= 7
  type Nibble = b: bv8 | b <= 15

  // ---------------------------------------------------------------------------
  // Register address map
  // ---------------------------------------------------------------------------

  datatype Register =
    | RegControl
    | RegMeasRate
    | RegPartId
    | RegManufacId
    | RegDataCh1Lo
    | RegDataCh1Hi
    | RegDataCh0Lo
    | RegDataCh0Hi
    | RegStatus

  /** The chip's bus address of each register. */
  function Address(r: Register): (a: Byte)
    ensures 0x80 <= a <= 0x8C && (a == 0x80 || 0x85 <= a)
  {
    match r
    case RegControl => 0x80
    case RegMeasRate => 0x85
    case RegPartId => 0x86
    case RegManufacId => 0x87
    case RegDataCh1Lo => 0x88
    case RegDataCh1Hi => 0x89
    case RegDataCh0Lo => 0x8A
    case RegDataCh0Hi => 0x8B
    case RegStatus => 0x8C
  }

  /** Byte offset of each register's mirror inside the 9-byte image. */
  function Offset(r: Register): (off: nat)
    ensures off < ImageSize
  {
    match r
    case RegControl => 0
    case RegMeasRate => 1
    case RegPartId => 2
    case RegManufacId => 3
    case RegDataCh1Lo => 4
    case RegDataCh1Hi => 5
    case RegDataCh0Lo => 6
    case RegDataCh0Hi => 7
    case RegStatus => 8
  }

  /** Decoding a bus address back to the register it names. */
  function RegisterAt(a: Byte): (r: Option<Register>)
    ensures r.Some? ==> Address(r.value) == a
    ensures (exists q :: Address(q) == a) ==> r.Some?
  {
    if a == 0x80 then Some(RegControl)
    else if a == 0x85 then Some(RegMeasRate)
    else if a == 0x86 then Some(RegPartId)
    else if a == 0x87 then Some(RegManufacId)
    else if a == 0x88 then Some(RegDataCh1Lo)
    else if a == 0x89 then Some(RegDataCh1Hi)
    else if a == 0x8A then Some(RegDataCh0Lo)
    else if a == 0x8B then Some(RegDataCh0Hi)
    else if a == 0x8C then Some(RegStatus)
    else None
  }

  datatype Option<T> = None | Some(value: T)

  /** Distinct registers have distinct addresses (the map is injective). */
  lemma AddressInjective(r: Register, q: Register)
    ensures Address(r) == Address(q) ==> r == q
  {
  }

  lemma RegisterAtAddress(r: Register)
    ensures RegisterAt(Address(r)) == Some(r)
  {
  }

  /** The four data registers sit at consecutive addresses, channel 1 low and
      high before channel 0 low and high, and STATUS follows them; in the
      image they keep that order at offsets 4..8. */
  lemma DataRegistersConsecutive()
    ensures Address(RegDataCh1Lo) == 0x88
    ensures Address(RegDataCh1Hi) == Address(RegDataCh1Lo) + 1
    ensures Address(RegDataCh0Lo) == Address(RegDataCh1Hi) + 1
    ensures Address(RegDataCh0Hi) == Address(RegDataCh0Lo) + 1
    ensures Address(RegStatus) == Address(RegDataCh0Hi) + 1
    ensures forall r :: r in DataRegisters ==>
      Offset(r) == ChannelOffset + (Address(r) - Address(RegDataCh1Lo)) as int
  {
  }

  const DataRegisters: seq<Register> := [RegDataCh1Lo, RegDataCh1Hi, RegDataCh0Lo, RegDataCh0Hi]

  // ---------------------------------------------------------------------------
  // Bit-field views
  // ---------------------------------------------------------------------------

  /** CONTROL: mode (bit 0, 0 = Standby, 1 = Active), reset (bit 1),
      gain code (bits 2..4), reserved (bits 5..7). */
  datatype Control = Control(mode: Bit, reset: Bit, gain: Bits3, res: Bits3)

  function DecodeControl(b: Byte): (c: Control)
    ensures EncodeControl(c) == b
  {
    Control(b & 1, (b >> 1) & 1, (b >> 2) & 7, (b >> 5) & 7)
  }

  function EncodeControl(c: Control): (b: Byte)
    ensures b & 1 == c.mode && (b >> 1) & 1 == c.reset
    ensures (b >> 2) & 7 == c.gain && b >> 5 == c.res
  {
    c.mode | (c.reset << 1) | (c.gain << 2) | (c.res << 5)
  }

  /** Every field value survives encoding and decoding unchanged. */
  lemma ControlRoundTrip(c: Control)
    ensures DecodeControl(EncodeControl(c)) == c
  {
  }

  /** MEAS_RATE: measurement-rate code (bits 0..2), integration-time code
      (bits 3..5), reserved (bits 6..7). */
  datatype MeasRate = MeasRate(rate: Bits3, time: Bits3, res: Bits2)

  function DecodeMeasRate(b: Byte): (m: MeasRate)
    ensures EncodeMeasRate(m) == b
  {
    MeasRate(b & 7, (b >> 3) & 7, (b >> 6) & 3)
  }

  function EncodeMeasRate(m: MeasRate): (b: Byte)
    ensures b & 7 == m.rate && (b >> 3) & 7 == m.time && b >> 6 == m.res
  {
    m.rate | (m.time << 3) | (m.res << 6)
  }

  lemma MeasRateRoundTrip(m: MeasRate)
    ensures DecodeMeasRate(EncodeMeasRate(m)) == m
  {
  }

  /** PART_ID: revision (low nibble), part number (high nibble). */
  datatype PartId = PartId(rev: Nibble, part: Nibble)

  /** The part number this driver accepts. */
  const PartLtr329: Nibble := 0xA

  function DecodePartId(b: Byte): (p: PartId)
    ensures EncodePartId(p) == b
    ensures p.part == PartLtr329 <==> 0xA0 <= b <= 0xAF
  {
    PartId(b & 0xF, b >> 4)
  }

  function EncodePartId(p: PartId): (b: Byte)
    ensures b & 0xF == p.rev && b >> 4 == p.part
  {
    p.rev | (p.part << 4)
  }

  lemma PartIdRoundTrip(p: PartId)
    ensures DecodePartId(EncodePartId(p)) == p
  {
  }

  /** STATUS: reserved (bits 0..1), new-data flag (bit 2), interrupt flag
      (bit 3), gain at measurement (bits 4..6), valid flag (bit 7). */
  datatype Status = Status(res: Bits2, data: Bit, intr: Bit, gain: Bits3, valid: Bit)

  /** Status-bit masks declared alongside the register map. */
  const StatusTdr: Byte := 0x02
  const StatusPdr: Byte := 0x04
  const StatusPtdr: Byte := 0x08

  function DecodeStatus(b: Byte): (s: Status)
    ensures EncodeStatus(s) == b
    ensures s.data == 1 <==> b & StatusPdr != 0
    ensures s.intr == 1 <==> b & StatusPtdr != 0
  {
    Status(b & 3, (b >> 2) & 1, (b >> 3) & 1, (b >> 4) & 7, b >> 7)
  }

  function EncodeStatus(s: Status): (b: Byte)
    ensures b & 3 == s.res && (b >> 2) & 1 == s.data && (b >> 3) & 1 == s.intr
    ensures (b >> 4) & 7 == s.gain && b >> 7 == s.valid
  {
    s.res | (s.data << 2) | (s.intr << 3) | (s.gain << 4) | (s.valid << 7)
  }

  lemma StatusRoundTrip(s: Status)
    ensures DecodeStatus(EncodeStatus(s)) == s
  {
  }

  // ---------------------------------------------------------------------------
  // The 9-byte register image
  // ---------------------------------------------------------------------------

  const ImageSize: nat := 9
  const ChannelOffset: nat := 4

  /** The packed image: CONTROL, MEAS_RATE, PART_ID, MANUFAC_ID, four channel
      bytes, STATUS. */
  type Image = s: seq<Byte> | |s| == ImageSize witness [0, 0, 0, 0, 0, 0, 0, 0, 0]

  /** The image laid out from its named parts. */
  function Layout(control: Byte, measRate: Byte, partId: Byte, manufacId: Byte,
                  ch: seq<Byte>, status: Byte): (img: Image)
    requires |ch| == 4
    ensures img[Offset(RegControl)] == control
    ensures img[Offset(RegMeasRate)] == measRate
    ensures img[Offset(RegPartId)] == partId
    ensures img[Offset(RegManufacId)] == manufacId
    ensures img[ChannelOffset..ChannelOffset + 4] == ch
    ensures img[Offset(RegStatus)] == status
  {
    [control, measRate, partId, manufacId] + ch + [status]
  }

  /** Every image is the layout of its own parts: the nine offsets cover the
      image exactly once. */
  lemma LayoutCoversImage(img: Image)
    ensures img == Layout(img[0], img[1], img[2], img[3], img[4..8], img[8])
  {
  }

  /** A little-endian 16-bit count assembled from two bytes. */
  function Le16(lo: Byte, hi: Byte): (v: nat)
    ensures v < 0x1_0000
    ensures v % 256 == lo as int && v / 256 == hi as int
  {
    lo as int + 256 * hi as int
  }

  /** CH1 (and ch1[0..1]) overlay channel bytes ch[0] and ch[1]. */
  function Ch1(img: Image): (v: nat)
    ensures v == Le16(img[Offset(RegDataCh1Lo)], img[Offset(RegDataCh1Hi)])
  {
    Le16(img[4], img[5])
  }

  /** CH0 as the union is written: the anonymous inner unions of the channel
      union all start at its first byte, so CH0 overlays ch[0] and ch[1]
      exactly like CH1. */
  function Ch0AsWritten(img: Image): (v: nat)
    ensures v == Le16(img[Offset(RegDataCh1Lo)], img[Offset(RegDataCh1Hi)])
  {
    Le16(img[ChannelOffset], img[ChannelOffset + 1])
  }

  /** The discrepancy: two images whose channel-0 data bytes (0x8A, 0x8B)
      agree, while CH0 as written differs, and CH0 as written always equals
      CH1. */
  lemma Ch0AsWrittenAliasesCh1(img: Image)
    ensures Ch0AsWritten(img) == Ch1(img)
    ensures
      var a: Image := [0x01, 0, 0xA0, 0x05, 0x11, 0x22, 0x33, 0x44, 0];
      var b: Image := [0x01, 0, 0xA0, 0x05, 0x55, 0x66, 0x33, 0x44, 0];
      a[Offset(RegDataCh0Lo)] == b[Offset(RegDataCh0Lo)] &&
      a[Offset(RegDataCh0Hi)] == b[Offset(RegDataCh0Hi)] &&
      Ch0AsWritten(a) != Ch0AsWritten(b)
  {
  }

  /** CH0 as evidently intended: the count the chip reports in registers
      0x8A (low) and 0x8B (high), i.e. ch[2] and ch[3]. */
  function Ch0(img: Image): (v: nat)
    ensures v == Le16(img[Offset(RegDataCh0Lo)], img[Offset(RegDataCh0Hi)])
  {
    Le16(img[ChannelOffset + 2], img[ChannelOffset + 3])
  }

  /** The corrected CH0 depends only on the channel-0 data bytes, and the two
      channels can be read back independently from any four data bytes. */
  lemma ChannelsIndependent(img: Image, lo1: Byte, hi1: Byte, lo0: Byte, hi0: Byte)
    ensures
      var img' := img[Offset(RegDataCh1Lo) := lo1][Offset(RegDataCh1Hi) := hi1]
                     [Offset(RegDataCh0Lo) := lo0][Offset(RegDataCh0Hi) := hi0];
      Ch1(img') == Le16(lo1, hi1) && Ch0(img') == Le16(lo0, hi0)
  {
  }
}
