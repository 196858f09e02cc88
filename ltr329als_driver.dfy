// The LTR-329ALS driver proper: register read and write over the I2C bus,
// the Identify / Config sequence that takes the chip from power-on to
// configured, the diagnostics hook, and the gain and measurement-rate tables.
//
// The driver is a singleton whose register image and bus binding are updated
// in place, and the I2C endpoint descriptor it is handed carries the flags the
// sequence sets; both are classes here.  The I2C transport is an oracle: the
// outcome of the n-th transaction is script(n), and every transaction issued
// is appended to a log, so the number and the shape of the transactions can
// be stated.

module Ltr329Driver {

  import opened Ltr329Regs

  // ---------------------------------------------------------------------------
  // Return codes
  // ---------------------------------------------------------------------------

  /** Success is 0 and every failure is negative; a bus status is passed on
      unchanged, so a positive status also counts as success. */
  const ErSuccess: int := 0
  const ErFailure: int := -1
  const ErInvState: int := -2
  const ErInvWhoami: int := -3

  /** The manufacturer ID the chip must report. */
  const ManufacturerId: Byte := 0x05

  /** Endpoint timing parameters the chip requires: 400 kHz, 25 ms bus timeout. */
  const I2cSpeed400: nat := 400
  const BusTimeout: nat := 25

  // ---------------------------------------------------------------------------
  // Lookup tables
  // ---------------------------------------------------------------------------

  /** Gain multiplier per CONTROL gain code; codes 4 and 5 are reserved. */
  const GainTable: seq<nat> := [1, 2, 4, 8, 0, 0, 48, 96]

  /** Measurement period in ms per MEAS_RATE rate code. */
  const MeasRateTable: seq<nat> := [50, 100, 200, 500, 1000, 2000, 2000, 2000]

  /** The multiplier for a decoded 3-bit gain field: zero exactly for the two
      reserved codes, and within the table's 8-bit element type. */
  function GainMultiplier(code: Bits3): (m: nat)
    ensures m == 0 <==> code == 4 || code == 5
    ensures m < 0x100
  {
    GainTable[code as int]
  }

  /** The period for a decoded 3-bit rate field, within the table's 16-bit
      element type. */
  function MeasRatePeriod(code: Bits3): (ms: nat)
    ensures 50 <= ms <= 2000
  {
    MeasRateTable[code as int]
  }

  /** Both tables are non-decreasing over the codes they define: a higher gain
      code never selects a smaller amplification and a higher rate code never
      a shorter period. */
  lemma TablesMonotone(a: Bits3, b: Bits3)
    requires a <= b
    ensures MeasRatePeriod(a) <= MeasRatePeriod(b)
    ensures GainMultiplier(a) != 0 && GainMultiplier(b) != 0 ==> GainMultiplier(a) <= GainMultiplier(b)
  {
  }

  /** The report indexes both tables with fields decoded from the image: any
      image byte gives an in-range index. */
  lemma ReportIndexesInBounds(img: Image)
    ensures DecodeControl(img[Offset(RegControl)]).gain as int < |GainTable|
    ensures DecodeMeasRate(img[Offset(RegMeasRate)]).rate as int < |MeasRateTable|
  {
  }

  // ---------------------------------------------------------------------------
  // The I2C endpoint descriptor
  // ---------------------------------------------------------------------------

  datatype DevType = Untyped | DevLtr329als

  /** The fields of the bus endpoint descriptor this driver reads or writes. */
  class Endpoint {
    var devType: DevType
    var speed: nat
    var toBus: nat
    var test: bool
    var idOk: bool
    var cfgOk: bool

    constructor ()
      ensures devType == Untyped && speed == 0 && toBus == 0
      ensures !test && !idOk && !cfgOk
    {
      devType, speed, toBus := Untyped, 0, 0;
      test, idOk, cfgOk := false, false, false;
    }
  }

  /** The endpoint flags that Identify and Config change. */
  datatype Flags = Flags(idOk: bool, cfgOk: bool, test: bool)

  function FlagsOf(ep: Endpoint): Flags
    reads ep
  {
    Flags(ep.idOk, ep.cfgOk, ep.test)
  }

  // ---------------------------------------------------------------------------
  // The bus transport
  // ---------------------------------------------------------------------------

  /** Write-then-read (address out, data in) or write-only. */
  datatype Kind = WriteRead | WriteOnly

  /** One queued transaction: the endpoint it goes to, the bytes written and
      the number of bytes read back. */
  datatype Txn = Txn(dev: Endpoint?, kind: Kind, tx: seq<Byte>, rxLen: nat)

  /** A transaction's outcome: its status, and the byte the transport stored in
      the receive buffer, if it stored one. */
  datatype Reply = Reply(status: int, rx: Option<Byte>)

  /** Reading one register: the 1-byte address is written, 1 byte is read. */
  function ReadTxn(dev: Endpoint?, r: Register): Txn
  {
    Txn(dev, WriteRead, [Address(r)], 1)
  }

  /** Writing one register: exactly the two bytes [address, value], no read. */
  function WriteTxn(dev: Endpoint?, r: Register, val: Byte): Txn
  {
    Txn(dev, WriteOnly, [Address(r), val], 0)
  }

  /** Number of write-only transactions in a log: the bus-write counter. */
  function WriteCount(log: seq<Txn>): (n: nat)
    ensures n <= |log|
    ensures n == 0 <==> forall i :: 0 <= i < |log| ==> log[i].kind != WriteOnly
  {
    if log == [] then 0
    else WriteCount(log[..|log| - 1]) + (if log[|log| - 1].kind == WriteOnly then 1 else 0)
  }

  /** The write counter adds up over consecutive stretches of a log. */
  lemma {:induction false} WriteCountAppend(a: seq<Txn>, b: seq<Txn>)
    ensures WriteCount(a + b) == WriteCount(a) + WriteCount(b)
    decreases |b|
  {
    if b != [] {
      assert (a + b)[..|a + b| - 1] == a + b[..|b| - 1];
      WriteCountAppend(a, b[..|b| - 1]);
    } else {
      assert a + b == a;
    }
  }

  /** The transport, abstracted to an oracle over the transaction count. */
  class Bus {
    const script: nat -> Reply
    var log: seq<Txn>

    constructor (script: nat -> Reply)
      ensures this.script == script && log == []
    {
      this.script := script;
      log := [];
    }

    /** The outcome the next transaction will have. */
    function Next(): Reply
      reads this
    {
      script(|log|)
    }

    /** Queue one transaction and wait for its outcome. */
    method Queue(t: Txn) returns (r: Reply)
      modifies this
      ensures log == old(log) + [t]
      ensures r == old(Next())
    {
      r := script(|log|);
      log := log + [t];
    }
  }

  // ---------------------------------------------------------------------------
  // Specification of the register image after a read
  // ---------------------------------------------------------------------------

  /** The image after reading register r into its mirror: only that byte can
      change, and it changes exactly when the transport stored a byte. */
  function Receive(img: Image, r: Register, rx: Option<Byte>): (img': Image)
    ensures forall i :: 0 <= i < ImageSize && i != Offset(r) ==> img'[i] == img[i]
    ensures rx.Some? ==> img'[Offset(r)] == rx.value
    ensures rx.None? ==> img' == img
  {
    match rx
    case Some(b) => img[Offset(r) := b]
    case None => img
  }

  // ---------------------------------------------------------------------------
  // Specification of Identify and Config
  // ---------------------------------------------------------------------------

  /** What a sequence step produced: its return code, the transactions it
      issued, the register image and the endpoint flags afterwards. */
  datatype Step = Step(status: int, txns: seq<Txn>, img: Image, flags: Flags)

  /** The identity test: the manufacturer-ID read succeeds and shows 0x05, and
      the part-ID read succeeds and shows part number 0xA in its high nibble.
      The bytes compared are whatever the image holds after each read. */
  predicate IdentityConfirmed(r1: Reply, r2: Reply, img: Image)
    ensures IdentityConfirmed(r1, r2, img) <==>
              r1.status >= ErSuccess && r2.status >= ErSuccess &&
              Receive(img, RegManufacId, r1.rx)[Offset(RegManufacId)] == ManufacturerId &&
              DecodePartId(Receive(img, RegPartId, r2.rx)[Offset(RegPartId)]).part == PartLtr329
  {
    var mfr := Receive(img, RegManufacId, r1.rx)[Offset(RegManufacId)];
    var part := Receive(img, RegPartId, r2.rx)[Offset(RegPartId)];
    r1.status >= ErSuccess && mfr == ManufacturerId &&
    r2.status >= ErSuccess && 0xA0 <= part <= 0xAF
  }

  /** Identify, given the transport's next two outcomes, the image and the
      flags on entry (Test is set on entry, before any transaction). */
  function IdentifySpec(dev: Endpoint?, script: nat -> Reply, n: nat, img: Image, f: Flags): (s: Step)
    // the only transactions are the manufacturer-ID read, then possibly the part-ID read
    ensures |s.txns| == 1 || |s.txns| == 2
    ensures s.txns[0] == ReadTxn(dev, RegManufacId)
    ensures |s.txns| == 2 ==> s.txns[1] == ReadTxn(dev, RegPartId)
    ensures WriteCount(s.txns) == 0
    // a failed first read is returned unchanged and ends the sequence
    ensures script(n).status < ErSuccess ==> s.status == script(n).status && |s.txns| == 1
    // a wrong manufacturer ID ends the sequence before PART_ID is read
    ensures script(n).status >= ErSuccess &&
            Receive(img, RegManufacId, script(n).rx)[Offset(RegManufacId)] != ManufacturerId
            ==> s.status == ErInvWhoami && |s.txns| == 1
    // a good manufacturer ID is followed by the PART_ID read; its failure is
    // returned unchanged, and a part nibble other than 0xA gives erINV_WHOAMI
    ensures var mfr := Receive(img, RegManufacId, script(n).rx)[Offset(RegManufacId)];
            var part := Receive(img, RegPartId, script(n + 1).rx)[Offset(RegPartId)];
            script(n).status >= ErSuccess && mfr == ManufacturerId ==>
              |s.txns| == 2 &&
              (script(n + 1).status < ErSuccess ==> s.status == script(n + 1).status) &&
              ((script(n + 1).status >= ErSuccess && DecodePartId(part).part != PartLtr329)
                 ==> s.status == ErInvWhoami)
    // the device is marked identified, and Test cleared, exactly on a confirmed identity
    ensures var ok := IdentityConfirmed(script(n), script(n + 1), img);
            s.flags == Flags(f.idOk || ok, f.cfgOk, !ok) &&
            (s.status >= ErSuccess <==> ok) &&
            (ok ==> s.status == script(n + 1).status)
    // only the two identity bytes of the image can change, each to what its
    // read stored, and PART_ID only when it was read
    ensures forall i :: 0 <= i < ImageSize && i != Offset(RegManufacId) && i != Offset(RegPartId)
              ==> s.img[i] == img[i]
    ensures var img1 := Receive(img, RegManufacId, script(n).rx);
            s.img == if |s.txns| == 1 then img1 else Receive(img1, RegPartId, script(n + 1).rx)
  {
    var r1, r2 := script(n), script(n + 1);
    var img1 := Receive(img, RegManufacId, r1.rx);
    var t1 := [ReadTxn(dev, RegManufacId)];
    var failed := f.(test := true);
    if r1.status < ErSuccess then
      Step(r1.status, t1, img1, failed)
    else if img1[Offset(RegManufacId)] != ManufacturerId then
      Step(ErInvWhoami, t1, img1, failed)
    else
      var img2 := Receive(img1, RegPartId, r2.rx);
      var t2 := t1 + [ReadTxn(dev, RegPartId)];
      if r2.status < ErSuccess then
        Step(r2.status, t2, img2, failed)
      else if DecodePartId(img2[Offset(RegPartId)]).part != PartLtr329 then
        Step(ErInvWhoami, t2, img2, failed)
      else
        Step(r2.status, t2, img2, f.(idOk := true, test := false))
  }

  /** Config, given the transport's next three outcomes, the image and the
      flags of the endpoint it is handed; dev is the endpoint bound by
      Identify, which the transactions go to. */
  function ConfigSpec(dev: Endpoint?, script: nat -> Reply, n: nat, img: Image, f: Flags): (s: Step)
    // without a confirmed identity: refused, no transaction, nothing changed
    ensures !f.idOk ==> s == Step(ErInvState, [], img, f)
    // past the check: CONTROL := Active, gain 0, written first, whatever the outcome
    ensures f.idOk ==>
              DecodeControl(s.img[Offset(RegControl)]) == Control(1, 0, 0, 0) &&
              |s.txns| >= 1 && s.txns[0] == WriteTxn(dev, RegControl, 0x01) &&
              s.status == script(n).status &&
              s.flags == f.(cfgOk := script(n).status >= ErSuccess)
    // a failed write ends the sequence
    ensures f.idOk && script(n).status < ErSuccess ==> |s.txns| == 1
    // a successful write is followed by the MEAS_RATE and STATUS reads,
    // whatever their outcomes
    ensures f.idOk && script(n).status >= ErSuccess ==>
              s.txns[1..] == [ReadTxn(dev, RegMeasRate), ReadTxn(dev, RegStatus)]
    ensures WriteCount(s.txns) == if f.idOk then 1 else 0
    // after a failed write the image differs only in CONTROL; after a
    // successful one, MEAS_RATE and STATUS hold what the reads stored
    ensures f.idOk ==>
              var img1 := img[Offset(RegControl) := 0x01];
              s.img == if script(n).status < ErSuccess then img1
                       else Receive(Receive(img1, RegMeasRate, script(n + 1).rx), RegStatus, script(n + 2).rx)
    // identity and channel bytes are untouched
    ensures forall i :: 0 <= i < ImageSize && i != Offset(RegControl) &&
                        i != Offset(RegMeasRate) && i != Offset(RegStatus)
              ==> s.img[i] == img[i]
  {
    if !f.idOk then
      Step(ErInvState, [], img, f)
    else
      var w := script(n).status;
      var img1 := img[Offset(RegControl) := 0x01];
      var t1 := [WriteTxn(dev, RegControl, 0x01)];
      if w < ErSuccess then
        Step(w, t1, img1, f.(cfgOk := false))
      else
        var img2 := Receive(img1, RegMeasRate, script(n + 1).rx);
        var img3 := Receive(img2, RegStatus, script(n + 2).rx);
        var t3 := t1 + [ReadTxn(dev, RegMeasRate), ReadTxn(dev, RegStatus)];
        WriteCountAppend(t1, [ReadTxn(dev, RegMeasRate), ReadTxn(dev, RegStatus)]);
        Step(w, t3, img3, f.(cfgOk := true))
  }

  /** Identify followed by Config on a chip that answers every transaction
      with success and reports manufacturer 0x05 and a part-ID byte in
      0xA0..0xAF leaves the endpoint identified and configured, after exactly
      five transactions of which one is a write. */
  lemma IdentifyThenConfig(dev: Endpoint?, script: nat -> Reply, n: nat, img: Image, f: Flags,
                           part: Byte)
    requires 0xA0 <= part <= 0xAF
    requires script(n) == Reply(ErSuccess, Some(ManufacturerId))
    requires script(n + 1) == Reply(ErSuccess, Some(part))
    requires forall k :: n + 2 <= k ==> script(k).status == ErSuccess
    ensures var s1 := IdentifySpec(dev, script, n, img, f);
            var s2 := ConfigSpec(dev, script, n + 2, s1.img, s1.flags);
            s1.status == ErSuccess && s2.status == ErSuccess &&
            s2.flags == Flags(true, true, false) &&
            |s1.txns + s2.txns| == 5 && WriteCount(s1.txns + s2.txns) == 1
  {
    var s1 := IdentifySpec(dev, script, n, img, f);
    assert IdentityConfirmed(script(n), script(n + 1), img);
    var s2 := ConfigSpec(dev, script, n + 2, s1.img, s1.flags);
    WriteCountAppend(s1.txns, s2.txns);
  }

  // ---------------------------------------------------------------------------
  // The driver
  // ---------------------------------------------------------------------------

  class Ltr329als {
    /** The bound endpoint (null until Identify binds one). */
    var dev: Endpoint?
    /** The 9-byte register image. */
    const reg: array<Byte>
    /** The transport the endpoint's transactions are queued on. */
    const bus: Bus

    ghost predicate Valid()
      reads this
    {
      reg.Length == ImageSize
    }

    function RegImage(): Image
      reads this, reg
      requires Valid()
    {
      reg[..]
    }

    /** The zero-initialised singleton. */
    constructor (bus: Bus)
      ensures Valid() && fresh(reg) && this.bus == bus && dev == null
      ensures RegImage() == [0, 0, 0, 0, 0, 0, 0, 0, 0]
    {
      this.bus := bus;
      dev := null;
      reg := new Byte[ImageSize](_ => 0);
    }

    /** Read one register into its mirror in the image. */
    method ReadReg(r: Register) returns (status: int)
      requires Valid()
      modifies bus, reg
      ensures bus.log == old(bus.log) + [Txn(dev, WriteRead, [Address(r)], 1)]
      ensures status == old(bus.Next()).status
      ensures RegImage() == Receive(old(RegImage()), r, old(bus.Next()).rx)
    {
      var reply := bus.Queue(ReadTxn(dev, r));
      if reply.rx.Some? {
        reg[Offset(r)] := reply.rx.value;
      }
      status := reply.status;
    }

    /** Write one register. */
    method WriteReg(r: Register, val: Byte) returns (status: int)
      modifies bus
      ensures bus.log == old(bus.log) + [Txn(dev, WriteOnly, [Address(r), val], 0)]
      ensures status == old(bus.Next()).status
    {
      var reply := bus.Queue(WriteTxn(dev, r, val));
      status := reply.status;
    }

    /** Bind the endpoint, set its parameters, and check the chip's identity. */
    method Identify(ep: Endpoint) returns (status: int)
      requires Valid()
      modifies this, ep, bus, reg
      ensures Valid() && dev == ep
      ensures ep.devType == DevLtr329als && ep.speed == I2cSpeed400 && ep.toBus == BusTimeout
      ensures var s := IdentifySpec(ep, bus.script, old(|bus.log|), old(RegImage()), old(FlagsOf(ep)));
              status == s.status && bus.log == old(bus.log) + s.txns &&
              RegImage() == s.img && FlagsOf(ep) == s.flags
    {
      dev := ep;
      ep.devType := DevLtr329als;
      ep.speed := I2cSpeed400;
      ep.toBus := BusTimeout;
      ep.test := true;
      ghost var n, img, log := |bus.log|, RegImage(), bus.log;
      status := ReadReg(RegManufacId);
      if status < ErSuccess {
        return;
      }
      if reg[Offset(RegManufacId)] != ManufacturerId {
        status := ErInvWhoami;
        return;
      }
      status := ReadReg(RegPartId);
      assert bus.log == log + [ReadTxn(ep, RegManufacId)] + [ReadTxn(ep, RegPartId)];
      if status < ErSuccess {
        return;
      }
      if DecodePartId(reg[Offset(RegPartId)]).part != PartLtr329 {
        status := ErInvWhoami;
        return;
      }
      ep.idOk := true;
      ep.test := false;
    }

    /** Program CONTROL and re-read MEAS_RATE and STATUS; only after a
        confirmed identity.  The status of the two reads is not examined. */
    method Config(ep: Endpoint) returns (status: int)
      requires Valid()
      modifies ep, bus, reg
      ensures ep.devType == old(ep.devType) && ep.speed == old(ep.speed) && ep.toBus == old(ep.toBus)
      ensures var s := ConfigSpec(dev, bus.script, old(|bus.log|), old(RegImage()), old(FlagsOf(ep)));
              status == s.status && bus.log == old(bus.log) + s.txns &&
              RegImage() == s.img && FlagsOf(ep) == s.flags
    {
      if !ep.idOk {
        return ErInvState;
      }
      ghost var log := bus.log;
      ep.cfgOk := false;
      reg[Offset(RegControl)] := 0x01;
      status := WriteReg(RegControl, 0x01);
      if status < ErSuccess {
        return;
      }
      if status > ErFailure {
        var _ := ReadReg(RegMeasRate);
      }
      if status > ErFailure {
        var _ := ReadReg(RegStatus);
      }
      assert bus.log == log + [WriteTxn(dev, RegControl, 0x01)] + [ReadTxn(dev, RegMeasRate)]
                            + [ReadTxn(dev, RegStatus)];
      ep.cfgOk := true;
    }

    /** Diagnostics: nothing to check on this chip; changes nothing. */
    method Diags(ep: Endpoint) returns (status: int)
      ensures status == ErSuccess
    {
      status := ErSuccess;
    }
  }
}
