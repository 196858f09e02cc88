# LTR-329ALS ambient-light sensor driver — verified model

This project models the register file and the identify/configure sequence of
a driver for the LTR-329ALS ambient-light sensor. The sensor sits on an I2C
bus. The Dafny project has two modules:

- `Ltr329Regs` (`ltr329als_regs.dfy`, from `ltr329als.h`) — the register
  address map, the bit-field views of CONTROL, MEAS_RATE, PART_ID and STATUS
  as encode/decode pairs over a byte, and the 9-byte register image. The
  image holds CONTROL, MEAS_RATE, PART_ID, MANUFAC_ID, the 4-byte channel
  union and STATUS, in that order.
  C bit-fields are allocated from the least significant bit upward, as GCC
  does on the little-endian target. Every field sits at an explicit shift and
  mask.
- `Ltr329Driver` (`ltr329als_driver.dfy`, from `ltr329als.c`) — the gain and
  measurement-rate tables, and single-register read and write. It also models
  `Identify`, `Config` and `Diags`.
  - The driver singleton is the class `Ltr329als`. It holds the bound
    endpoint and the image as a 9-byte `array`.
  - The I2C endpoint descriptor is the class `Endpoint`. It holds `Type`,
    `Speed`, `TObus`, `Test`, `IDok` and `CFGok`.
  - The transport is the class `Bus`, an oracle. The outcome of the n-th
    transaction is `script(n)`: a status plus the byte the transport stored
    in the receive buffer, if it stored one. Every transaction issued is
    appended to `log`, so the number and shape of the transactions can be
    stated.

`Identify` and `Config` are imperative methods that follow the source's
control flow. Each is proved equal to a pure specification function,
`IdentifySpec` or `ConfigSpec`. The contracts of those functions state the
source's promises:
- which transactions are issued, in which order;
- which return code comes back;
- which flags are set;
- what each image byte becomes.

Return codes: success is 0 and failures are negative. A bus status is passed
on unchanged, so a positive bus status also counts as success. The error
constants (`erFAILURE`, `erINV_STATE`, `erINV_WHOAMI`) come from a header
that is not part of this model. The model gives them the distinct negative
values -1, -2 and -3, and relies only on their sign and distinctness.

The source's `Config` discards the status of its MEAS_RATE and STATUS reads.
It guards each read with `iRV > erFAILURE` and re-tests `iRV < erSUCCESS`
after each one. At that point `iRV` still holds the successful write status,
so the guards always hold and the re-tests never fire. `Config` keeps the
guards, drops the two dead re-tests, and `ConfigSpec` states that both reads
are issued whatever their outcome.

## Model

| member | source | states |
|---|---|---|
| `Ltr329Regs.Address` | ltr329als.h:22-32 | every register address lies in the chip's window 0x80..0x8C, with nothing at 0x81..0x84 |
| `Ltr329Regs.Offset` | ltr329als.h:68-97 | every register's mirror lies inside the 9-byte image |
| `Ltr329Regs.RegisterAt` | ltr329als.h:22-32 | decoding an address gives back a register with that address, and every address in the map decodes |
| `Ltr329Regs.AddressInjective` | ltr329als.h:22-32 | distinct registers have distinct addresses |
| `Ltr329Regs.RegisterAtAddress` | ltr329als.h:22-32 | address decoding inverts the address map |
| `Ltr329Regs.DataRegistersConsecutive` | ltr329als.h:27-31 | CH1 low/high, CH0 low/high and STATUS are at consecutive addresses 0x88..0x8C; the data registers' image offsets follow their address order |
| `Ltr329Regs.DecodeControl` | ltr329als.h:42-47 | decoding a CONTROL byte loses nothing: re-encoding gives the byte back |
| `Ltr329Regs.EncodeControl` | ltr329als.h:42-47 | mode at bit 0, reset at bit 1, gain at bits 2..4, reserved at bits 5..7 |
| `Ltr329Regs.ControlRoundTrip` | ltr329als.h:42-47 | decoding after encoding returns every in-range field value |
| `Ltr329Regs.DecodeMeasRate` | ltr329als.h:49-53 | decoding a MEAS_RATE byte loses nothing |
| `Ltr329Regs.EncodeMeasRate` | ltr329als.h:49-53 | rate at bits 0..2, time at bits 3..5, reserved at bits 6..7 |
| `Ltr329Regs.MeasRateRoundTrip` | ltr329als.h:49-53 | decoding after encoding is the identity on rate, time and reserved fields |
| `Ltr329Regs.DecodePartId` | ltr329als.h:55-58 | decoding loses nothing; the part nibble is 0xA exactly when the byte is in 0xA0..0xAF |
| `Ltr329Regs.EncodePartId` | ltr329als.h:55-58 | revision in the low nibble, part number in the high nibble |
| `Ltr329Regs.PartIdRoundTrip` | ltr329als.h:55-58 | decoding after encoding returns revision and part |
| `Ltr329Regs.DecodeStatus` | ltr329als.h:34-38 | decoding loses nothing; the data flag is the 0x04 status bit and the interrupt flag the 0x08 bit |
| `Ltr329Regs.EncodeStatus` | ltr329als.h:60-66 | reserved at bits 0..1, data at bit 2, intr at bit 3, gain at bits 4..6, valid at bit 7 |
| `Ltr329Regs.StatusRoundTrip` | ltr329als.h:60-66 | decoding after encoding returns every field, the 3-bit gain included |
| `Ltr329Regs.Layout` | ltr329als.h:68-97 | CONTROL, MEAS_RATE, PART_ID, MANUFAC_ID, the 4 channel bytes and STATUS sit at offsets 0, 1, 2, 3, 4..7 and 8 |
| `Ltr329Regs.LayoutCoversImage` | ltr329als.h:68-98 | the image is exactly those nine bytes: every image is the layout of its own parts |
| `Ltr329Regs.Le16` | ltr329als.h:84 | a 16-bit channel count is little-endian: low byte is the count mod 256, high byte the count div 256 |
| `Ltr329Regs.Ch1` | ltr329als.h:83-86 | CH1 is the little-endian count in the bytes mirrored from 0x88 and 0x89 |
| `Ltr329Regs.Ch0AsWritten` | ltr329als.h:82-92 | CH0 as the union is written reads the bytes mirrored from 0x88 and 0x89, the CH1 registers |
| `Ltr329Regs.Ch0AsWrittenAliasesCh1` | ltr329als.h:82-92 | as written, CH0 always equals CH1, and two images that agree on the 0x8A/0x8B bytes can differ in CH0 |
| `Ltr329Regs.Ch0` | ltr329als.h:87-90 | CH0 as intended is the little-endian count in the bytes mirrored from 0x8A and 0x8B |
| `Ltr329Regs.ChannelsIndependent` | ltr329als.h:82-92 | with the corrected CH0, storing four data bytes yields both channel counts independently |
| `Ltr329Driver.GainMultiplier` | ltr329als.c:37 | the multiplier is zero exactly for the reserved gain codes 4 and 5, and fits the table's 8-bit element type |
| `Ltr329Driver.MeasRatePeriod` | ltr329als.c:39 | every rate code selects a period between 50 and 2000 ms |
| `Ltr329Driver.TablesMonotone` | ltr329als.c:37-39 | the period table, and the gain table over its defined codes, never decrease |
| `Ltr329Driver.ReportIndexesInBounds` | ltr329als.c:126-131 | indexing either table by a decoded 3-bit field is always in bounds |
| `Ltr329Driver.WriteCount` | ltr329als.c:54-60 | the bus-write counter never exceeds the transaction count and is zero exactly when the log has no write |
| `Ltr329Driver.WriteCountAppend` | ltr329als.c:54-60 | the write counter adds up over consecutive stretches of a log |
| `Ltr329Driver.Bus.Queue` | ltr329als.c:49 | the transaction is appended to the log and its outcome is the oracle's next reply |
| `Ltr329Driver.Receive` | ltr329als.c:49 | a read can change only the target register's mirror, and changes it exactly when the transport stored a byte |
| `Ltr329Driver.IdentityConfirmed` | ltr329als.c:75-81 | identity holds exactly when both reads succeed, the manufacturer byte is 0x05 and the PART_ID byte's high nibble is 0xA |
| `Ltr329Driver.IdentifySpec` | ltr329als.c:68-91 | one or two reads, never a write; a failed first read is returned unchanged; a wrong manufacturer ID gives erINV_WHOAMI without reading PART_ID; a good one is followed by the PART_ID read, whose failure is returned unchanged and whose wrong part nibble gives erINV_WHOAMI; IDok is set and Test cleared exactly on a confirmed identity, and the status is non-negative exactly then; MANUFAC_ID and PART_ID take what their reads stored, PART_ID only when read, and nothing else changes |
| `Ltr329Driver.ConfigSpec` | ltr329als.c:93-118 | without IDok: erINV_STATE, no transaction, nothing changed; otherwise CONTROL becomes Active/gain 0 whatever the write's outcome, the write's status is returned, CFGok is its success, and a successful write is followed by the MEAS_RATE and STATUS reads whatever they return, and those two image bytes take what the reads stored; after a failed write they are unchanged; exactly one write |
| `Ltr329Driver.IdentifyThenConfig` | ltr329als.c:68-118 | on a chip that answers as an LTR-329ALS, Identify then Config succeed and leave IDok and CFGok set and Test clear, after five transactions with one write |
| `Ltr329Driver.Ltr329als.constructor` | ltr329als.c:43 | the singleton starts unbound with an all-zero image |
| `Ltr329Driver.Ltr329als.ReadReg` | ltr329als.c:47-52 | logs one write-then-read transaction to the bound endpoint that sends the 1-byte address and reads 1 byte, returns the bus status unchanged, and updates the image as `Receive` says |
| `Ltr329Driver.Ltr329als.WriteReg` | ltr329als.c:54-60 | logs one write-only transaction to the bound endpoint of exactly the 2 bytes [address, value] with no read, returns the bus status unchanged, and leaves the image alone |
| `Ltr329Driver.Ltr329als.Identify` | ltr329als.c:68-91 | binds the endpoint and sets Type, Speed = 400 and TObus = 25; status, transactions, image and flags are those of `IdentifySpec` |
| `Ltr329Driver.Ltr329als.Config` | ltr329als.c:93-118 | leaves the endpoint parameters alone; status, transactions, image and flags are those of `ConfigSpec` |
| `Ltr329Driver.Ltr329als.Diags` | ltr329als.c:120 | always returns erSUCCESS and changes nothing |

## Left out

- ESP32 CPU watchpoint calls and system-timer debug macros (ltr329als.c:48-50, 56-58, 70, 89, 96, 109, 116): debug hardware side effects with no effect on the driver's state.
- Transport internals (queuing, bus speed and timeout handling, the device address): the transport is an oracle of per-transaction outcomes.
- Ltr329Driver.Ltr329als.Identify: the order "endpoint parameters set before the first transaction" is visible only through the logged endpoint reference. The model does not record Speed, TObus or Test at each transaction.
- `ltr329alsReportAll` and the bus endpoint report (ltr329als.c:124-141): text formatting to a report sink. Only the table indexing it does is modelled (`ReportIndexesInBounds`).
- `ltr329IntgTime` (ltr329als.c:38): a floating-point table used only for display.
- The `ltr329alsI2C_LOGIC == 3` timer path and the `CFGerr` once-off initialisation (ltr329als.c:108-113, 137-139; ltr329als.h:108-111): compiled out, or debug-timer set-up only, since ltr329als.h:18 selects mode 1.
- The `mux` semaphore (ltr329als.h:102): a concurrency primitive the modelled code never uses.
- The 20-byte layout of the driver structure: the bus-handle pointer's 4 bytes, the `u8Buf` overlay and the spare bytes (ltr329als.h:100-113). The pointer itself is modelled as `Ltr329als.dev`; only its size and position in the structure are left out.
- `ltr329alsReadHdlr` (sampling and lux conversion), `ltr329alsConfigMode` and `ltr329alsReConfig` (ltr329als.h:120-130): declared only; their bodies are not part of this model, and the lux formula is floating point.
- The mismatch between the `ltr329alsReportAll` prototype and its definition: a C declaration issue with no behaviour.
- The numeric values of the error constants and of the endpoint's device-type code live in headers that are not part of this model. The error codes are distinct negatives here. The device type is an enumeration.

## Findings

| source | as written | input that shows it | evidently intended | confidence | as-written member | corrected member |
|---|---|---|---|---|---|---|
| ltr329als.h:82-92 | the channel union holds two anonymous unions and `ch[4]`, all at offset 0, so `CH0`/`ch0[2]` overlay `ch[0]` and `ch[1]`, the same bytes as `CH1` | channel bytes `11 22 33 44` (registers 0x88..0x8B): `CH0` reads 0x2211 instead of 0x4433 | `CH1` in `ch[0..1]` and `CH0` in `ch[2..3]`, i.e. an inner struct of the two channel unions, matching registers 0x8A/0x8B | not executed; high for the layout, unknown whether the unshown sampling code uses `CH0` | `Ltr329Regs.Ch0AsWrittenAliasesCh1` | `Ltr329Regs.Ch0` |
