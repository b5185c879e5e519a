/*
 * USB mass-storage function (Bulk-Only Transport carrying SCSI block
 * commands): command block wrapper decoding, the SCSI command handlers, the
 * ping-pong read-ahead used for READ(10), the block-by-block write path of
 * WRITE(10) and the bulk-endpoint state machine.
 *
 * The whole device state is a value of `Msc`; each operation of the driver
 * is specified by a step function `...Step` from the old state to the new
 * one, and the class `MassStorageDevice` holds the same state in fields and
 * implements every operation as a method proved equal to its step.
 *
 * The storage card, the USB controller and the DMA engine are outside the
 * model: a queued USB transfer is appended to `requests`, a block written to
 * the card is appended to `written`, the data held in the ping and pong
 * buffers is represented by the range of blocks read into them, and the
 * outcome of the card calls that can fail is a `CardIo` parameter.
 */
module MassStorage {

  import opened Word32

  // ---------------------------------------------------------------------
  // Constants
  // ---------------------------------------------------------------------

  // Bulk-Only Transport wrappers: "USBC" and "USBS" read as little-endian words.
  const CBW_SIGNATURE: int := 0x43425355
  const CSW_SIGNATURE: int := 0x53425355
  const CBW_SIZE: int := 31
  const CSW_SIZE: int := 13
  const CBW_CB_SIZE: int := 16

  const USB_PACKET_LENGTH: int := 512
  const DEVICE_BLOCK_SIZE: int := 512
  const BLOCK_READ_AHEAD: int := 16
  const MAX_TRANSFER_SIZE: int := USB_PACKET_LENGTH
  /** Bytes of gCommandBuffer that the model tracks (one bulk packet). */
  const COMMAND_BUFFER_SIZE: int := MAX_TRANSFER_SIZE
  const DATA_IN_ENDPOINT: int := 1
  const DATA_OUT_ENDPOINT: int := 2

  // SCSI operation codes.
  const SCSI_TEST_UNIT_READY: byte := 0x00
  const SCSI_REQUEST_SENSE: byte := 0x03
  const SCSI_REASSIGN_BLOCKS: byte := 0x07
  const SCSI_INQUIRY_CMD: byte := 0x12
  const SCSI_MODE_SENSE_6: byte := 0x1A
  const SCSI_START_STOP_UNIT: byte := 0x1B
  const SCSI_PREVENT_ALLOW_MEDIUM_REMOVAL: byte := 0x1E
  const SCSI_READ_FORMAT_CAPACITIES: byte := 0x23
  const SCSI_READ_CAPACITY: byte := 0x25
  const SCSI_READ_10: byte := 0x28
  const SCSI_WRITE_10: byte := 0x2A
  const SCSI_VERIFY_10: byte := 0x2F

  // Sense data.
  /** SCSI_RS_VALID | SCSI_RS_CUR_ERRORS (0x80 | 0x70). */
  const SCSI_RS_VALID_CUR_ERRORS: byte := 0xF0
  const SCSI_RS_CUR_ERRORS: byte := 0x70
  const SCSI_RS_KEY_NOT_READY: byte := 0x02
  const SCSI_RS_KEY_ILGL_RQST: byte := 0x05
  /** Additional sense code in the high byte, qualifier in the low byte. */
  const SCSI_ASC_MED_NOT_PRSNT: int := 0x3A00
  const SCSI_ASC_PARAMETER_VALUE_INVALID: int := 0x2602
  const SCSI_INQ_PDT_SBC: byte := 0x00
  const SCSI_INQ_RMB: byte := 0x80

  // ---------------------------------------------------------------------
  // Byte order
  // ---------------------------------------------------------------------

  /** Big-endian 32-bit value of four bytes (most significant first). */
  function Be32(b0: byte, b1: byte, b2: byte, b3: byte): (x: int)
    ensures IsU32(x)
  {
    ((b0 * 256 + b1) * 256 + b2) * 256 + b3
  }

  function Be32Bytes(x: int): (b: seq<byte>)
    requires IsU32(x)
    ensures |b| == 4
  {
    var q1 := x / 256;
    var q2 := q1 / 256;
    [q2 / 256, q2 % 256, q1 % 256, x % 256]
  }

  /** Big-endian 16-bit value of two bytes. */
  function Be16(b0: byte, b1: byte): (x: int)
    ensures 0 <= x < 0x1_0000
  {
    b0 * 256 + b1
  }

  /** Little-endian 32-bit value: the CBW and CSW words are stored this way. */
  function Le32(b0: byte, b1: byte, b2: byte, b3: byte): (x: int)
    ensures IsU32(x)
  {
    Be32(b3, b2, b1, b0)
  }

  function Le32Bytes(x: int): (b: seq<byte>)
    requires IsU32(x)
    ensures |b| == 4
  {
    var e := Be32Bytes(x);
    [e[3], e[2], e[1], e[0]]
  }

  lemma DivMod256(x: int)
    requires 0 <= x
    ensures x == (x / 256) * 256 + x % 256
  {
  }

  lemma DivOfByte(hi: int, lo: byte)
    requires 0 <= hi
    ensures (hi * 256 + lo) / 256 == hi && (hi * 256 + lo) % 256 == lo
  {
  }

  lemma Be32RoundTrip(x: int)
    requires IsU32(x)
    ensures Be32(Be32Bytes(x)[0], Be32Bytes(x)[1], Be32Bytes(x)[2], Be32Bytes(x)[3]) == x
  {
    DivMod256(x);
    DivMod256(x / 256);
    DivMod256(x / 256 / 256);
  }

  lemma Be32BytesRoundTrip(b0: byte, b1: byte, b2: byte, b3: byte)
    ensures Be32Bytes(Be32(b0, b1, b2, b3)) == [b0, b1, b2, b3]
  {
    DivOfByte((b0 * 256 + b1) * 256 + b2, b3);
    DivOfByte(b0 * 256 + b1, b2);
    DivOfByte(b0, b1);
  }

  lemma Le32RoundTrip(x: int)
    requires IsU32(x)
    ensures Le32(Le32Bytes(x)[0], Le32Bytes(x)[1], Le32Bytes(x)[2], Le32Bytes(x)[3]) == x
  {
    Be32RoundTrip(x);
  }

  lemma Le32BytesRoundTrip(b0: byte, b1: byte, b2: byte, b3: byte)
    ensures Le32Bytes(Le32(b0, b1, b2, b3)) == [b0, b1, b2, b3]
  {
    Be32BytesRoundTrip(b3, b2, b1, b0);
  }

  /** Reading back a little-endian word stored at offset `i`. */
  lemma Le32At(b: seq<byte>, i: nat, x: int)
    requires IsU32(x) && i + 4 <= |b| && b[i..i + 4] == Le32Bytes(x)
    ensures Le32(b[i], b[i + 1], b[i + 2], b[i + 3]) == x
  {
    assert b[i] == Le32Bytes(x)[0] && b[i + 1] == Le32Bytes(x)[1];
    assert b[i + 2] == Le32Bytes(x)[2] && b[i + 3] == Le32Bytes(x)[3];
    Le32RoundTrip(x);
  }

  // ---------------------------------------------------------------------
  // Command block wrapper and command status wrapper
  // ---------------------------------------------------------------------

  /** tMSCCBW: the 31-byte command block wrapper sent by the host. */
  datatype Cbw = Cbw(signature: int, tag: int, dataTransferLength: int,
                     flags: byte, lun: byte, cbLength: byte, cb: seq<byte>)

  predicate CbwValues(c: Cbw) {
    IsU32(c.signature) && IsU32(c.tag) && IsU32(c.dataTransferLength) && |c.cb| == CBW_CB_SIZE
  }

  /** tMSCCSW: the 13-byte command status wrapper returned to the host. */
  datatype Csw = Csw(signature: int, tag: int, dataResidue: int, status: byte)

  predicate CswValues(c: Csw) {
    IsU32(c.signature) && IsU32(c.tag) && IsU32(c.dataResidue)
  }

  function DecodeCbw(buf: seq<byte>): (c: Cbw)
    requires |buf| >= CBW_SIZE
    ensures CbwValues(c)
  {
    Cbw(Le32(buf[0], buf[1], buf[2], buf[3]),
        Le32(buf[4], buf[5], buf[6], buf[7]),
        Le32(buf[8], buf[9], buf[10], buf[11]),
        buf[12], buf[13], buf[14], buf[15..31])
  }

  /** The host side of DecodeCbw: the bytes a host puts on the wire. */
  function EncodeCbw(c: Cbw): (b: seq<byte>)
    requires CbwValues(c)
    ensures |b| == CBW_SIZE
  {
    Le32Bytes(c.signature) + Le32Bytes(c.tag) + Le32Bytes(c.dataTransferLength)
      + [c.flags, c.lun, c.cbLength] + c.cb
  }

  lemma CbwRoundTrip(c: Cbw)
    requires CbwValues(c)
    ensures DecodeCbw(EncodeCbw(c)) == c
  {
    var b := EncodeCbw(c);
    assert b[0..4] == Le32Bytes(c.signature);
    assert b[4..8] == Le32Bytes(c.tag);
    assert b[8..12] == Le32Bytes(c.dataTransferLength);
    assert b[15..31] == c.cb;
    Le32At(b, 0, c.signature);
    Le32At(b, 4, c.tag);
    Le32At(b, 8, c.dataTransferLength);
  }

  lemma CbwBytesRoundTrip(buf: seq<byte>)
    requires |buf| == CBW_SIZE
    ensures EncodeCbw(DecodeCbw(buf)) == buf
  {
    var c := DecodeCbw(buf);
    Le32BytesRoundTrip(buf[0], buf[1], buf[2], buf[3]);
    Le32BytesRoundTrip(buf[4], buf[5], buf[6], buf[7]);
    Le32BytesRoundTrip(buf[8], buf[9], buf[10], buf[11]);
    assert Le32Bytes(c.signature) == buf[0..4];
    assert Le32Bytes(c.tag) == buf[4..8];
    assert Le32Bytes(c.dataTransferLength) == buf[8..12];
    assert buf == buf[0..4] + buf[4..8] + buf[8..12] + buf[12..15] + buf[15..31];
  }

  function EncodeCsw(c: Csw): (b: seq<byte>)
    requires CswValues(c)
    ensures |b| == CSW_SIZE
  {
    Le32Bytes(c.signature) + Le32Bytes(c.tag) + Le32Bytes(c.dataResidue) + [c.status]
  }

  /** The host side of EncodeCsw. */
  function DecodeCsw(b: seq<byte>): Csw
    requires |b| >= CSW_SIZE
  {
    Csw(Le32(b[0], b[1], b[2], b[3]), Le32(b[4], b[5], b[6], b[7]),
        Le32(b[8], b[9], b[10], b[11]), b[12])
  }

  lemma CswRoundTrip(c: Csw)
    requires CswValues(c)
    ensures DecodeCsw(EncodeCsw(c)) == c
  {
    var b := EncodeCsw(c);
    assert b[0..4] == Le32Bytes(c.signature);
    assert b[4..8] == Le32Bytes(c.tag);
    assert b[8..12] == Le32Bytes(c.dataResidue);
    Le32At(b, 0, c.signature);
    Le32At(b, 4, c.tag);
    Le32At(b, 8, c.dataResidue);
  }

  // ---------------------------------------------------------------------
  // Command descriptor block fields
  // ---------------------------------------------------------------------

  /** Logical block address of a READ(10)/WRITE(10): bytes 2..5, big-endian. */
  function CdbLba(cb: seq<byte>): (lba: int)
    requires |cb| == CBW_CB_SIZE
    ensures IsU32(lba)
  {
    Be32(cb[2], cb[3], cb[4], cb[5])
  }

  /** Transfer length in blocks of a READ(10)/WRITE(10): bytes 7..8, big-endian. */
  function CdbBlockCount(cb: seq<byte>): (n: int)
    requires |cb| == CBW_CB_SIZE
    ensures 0 <= n < 0x1_0000
  {
    Be16(cb[7], cb[8])
  }

  /** A READ(10)/WRITE(10) block as a host builds it, zero padded to the CBW's 16 bytes. */
  function Cdb10(op: byte, lba: int, count: int): (cb: seq<byte>)
    requires IsU32(lba) && 0 <= count < 0x1_0000
    ensures |cb| == CBW_CB_SIZE
  {
    [op, 0] + Be32Bytes(lba) + [0, count / 256, count % 256, 0] + [0, 0, 0, 0, 0, 0]
  }

  lemma Cdb10Decodes(op: byte, lba: int, count: int)
    requires IsU32(lba) && 0 <= count < 0x1_0000
    ensures CdbLba(Cdb10(op, lba, count)) == lba
    ensures CdbBlockCount(Cdb10(op, lba, count)) == count
  {
    Be32RoundTrip(lba);
    DivMod256(count);
  }

  /** START STOP UNIT byte 4: LOEJ is bit 1, START is bit 0. */
  function LoadEject(b: byte): bool { (b / 2) % 2 == 1 }
  function StartBit(b: byte): bool { b % 2 == 1 }

  // ---------------------------------------------------------------------
  // Response data of the SCSI commands answered from gCommandBuffer
  // ---------------------------------------------------------------------

  /** Standard INQUIRY data: direct access, removable, vendor, product, revision. */
  function InquiryResponse(): (r: seq<byte>)
    ensures |r| == 36
    ensures r[0] == SCSI_INQ_PDT_SBC && r[1] == SCSI_INQ_RMB
    ensures r[4] == |r| - 5
  {
    InquiryHeader() + INQUIRY_VENDOR + INQUIRY_PRODUCT + INQUIRY_VERSION
  }

  /** Device type, removable medium, version 0, additional length 31. */
  function InquiryHeader(): (h: seq<byte>)
    ensures |h| == 8
  {
    [SCSI_INQ_PDT_SBC, SCSI_INQ_RMB, 0, 0, 31, 0, 0, 0]
  }

  /** "O|D     " */
  const INQUIRY_VENDOR: seq<byte> := [0x4F, 0x7C, 0x44, 0x20, 0x20, 0x20, 0x20, 0x20]
  /** "ER-301          " */
  const INQUIRY_PRODUCT: seq<byte> :=
    [0x45, 0x52, 0x2D, 0x33, 0x30, 0x31, 0x20, 0x20, 0x20, 0x20, 0x20, 0x20, 0x20, 0x20, 0x20, 0x20]
  /** "0.00" */
  const INQUIRY_VERSION: seq<byte> := [0x30, 0x2E, 0x30, 0x30]

  /** Last addressable block reported by READ CAPACITY for a card of `size` blocks. */
  function LastLba(size: int): (last: int)
    requires IsU32(size)
    ensures IsU32(last)
    ensures size > 0 ==> last == size - 1
    ensures size == 0 ==> last == 0
  {
    if size > 0 then size - 1 else size
  }

  function ReadCapacityResponse(size: int): (r: seq<byte>)
    requires IsU32(size)
    ensures |r| == 8
  {
    Be32Bytes(LastLba(size)) + [0, 0x00, 0x02, 0x00]
  }

  lemma ReadCapacityReports(size: int)
    requires IsU32(size)
    ensures var r := ReadCapacityResponse(size);
            Be32(r[0], r[1], r[2], r[3]) == LastLba(size) && Be32(r[4], r[5], r[6], r[7]) == DEVICE_BLOCK_SIZE
  {
    Be32RoundTrip(LastLba(size));
  }

  function ReadFormatCapacitiesResponse(size: int): (r: seq<byte>)
    requires IsU32(size)
    ensures |r| == 12
  {
    [0, 0, 0, 8] + Be32Bytes(size) + [0x02, 0x00, 0x02, 0x00]
  }

  /** One capacity descriptor (list length 8) of `size` formattable blocks of 512 bytes. */
  lemma ReadFormatCapacitiesReports(size: int)
    requires IsU32(size)
    ensures var r := ReadFormatCapacitiesResponse(size);
            r[3] == 8 && Be32(r[4], r[5], r[6], r[7]) == size && r[8] == 0x02
            && Be32(0, r[9], r[10], r[11]) == DEVICE_BLOCK_SIZE
  {
    Be32RoundTrip(size);
  }

  /** Fixed-format sense data (18 bytes, additional length 10). */
  function RequestSenseResponse(errorCode: byte, senseKey: byte, asc: int): (r: seq<byte>)
    requires 0 <= asc < 0x1_0000
    ensures |r| == 18
  {
    [errorCode, 0, senseKey, 0, 0, 0, 0, 10, 0, 0, 0, 0,
     asc / 256, asc % 256, 0, 0, 0, 0]
  }

  lemma RequestSenseReports(errorCode: byte, senseKey: byte, asc: int)
    requires 0 <= asc < 0x1_0000
    ensures var r := RequestSenseResponse(errorCode, senseKey, asc);
            r[0] == errorCode && r[2] == senseKey && r[7] == |r| - 8 && Be16(r[12], r[13]) == asc
  {
    DivMod256(asc);
  }

  function ModeSense6Response(): (r: seq<byte>)
    ensures |r| == 4 && r[0] == |r| - 1
  {
    [3, 0, 0, 0]
  }

  /** Copies a response over the start of the command buffer. */
  function Overlay(buf: seq<byte>, r: seq<byte>): (b: seq<byte>)
    requires |r| <= |buf|
    ensures |b| == |buf| && b[..|r|] == r && b[|r|..] == buf[|r|..]
  {
    r + buf[|r|..]
  }

  /** Copying `str` just past an overlaid prefix `a` extends the overlay. */
  lemma OverlayGrows(a: seq<byte>, str: seq<byte>, buf: seq<byte>)
    requires |a| + |str| <= |buf|
    ensures var c := Overlay(buf, a);
            c[..|a|] + str + c[|a| + |str|..] == Overlay(buf, a + str)
  {
    var c := Overlay(buf, a);
    assert c[|a| + |str|..] == buf[|a| + |str|..];
  }

  // ---------------------------------------------------------------------
  // Two defects of the command decoding
  // ---------------------------------------------------------------------

  /** PREVENT ALLOW MEDIUM REMOVAL as written: `CBWCB[4] && 0x3` is a logical
      and, so any non-zero byte 4 prevents removal. The command switch
      keeps this test. */
  function PreventRemovalAsWritten(b: byte): (prevent: bool)
    ensures prevent <==> PreventRemoval(b) || b - b % 4 != 0
  {
    b != 0 && 0x3 != 0
  }

  /** The PREVENT field is bits 1..0 of byte 4; the other bits are reserved. */
  function PreventRemoval(b: byte): (prevent: bool)
    ensures prevent <==> (StartBit(b) || LoadEject(b))
  {
    b % 4 != 0
  }

  lemma PreventRemovalIgnoresReservedBits(b: byte)
    ensures PreventRemoval(b) == PreventRemoval(b % 4)
    ensures !PreventRemoval(b - b % 4)
  {
  }

  /** Byte 4 = 0x04 (a reserved bit, PREVENT = 00 "allow") is read as "prevent". */
  lemma PreventRemovalAsWrittenMisreads()
    ensures PreventRemovalAsWritten(0x04) && !PreventRemoval(0x04)
  {
  }

  /** MODE SENSE(6) residue as written: `dCBWDataTransferLength - 4` in uint32. */
  function ModeSense6ResidueAsWritten(transferLength: int): int {
    Wrap32(transferLength - 4)
  }

  /** Residue of the 4-byte MODE SENSE(6) answer, never above what the host asked for. */
  function ModeSense6Residue(transferLength: int): (residue: int)
    requires IsU32(transferLength)
    ensures 0 <= residue <= transferLength
    ensures transferLength >= 4 ==> residue == transferLength - 4
  {
    if transferLength >= 4 then transferLength - 4 else 0
  }

  /** With a zero data transfer length the residue wraps to 0xFFFFFFFC. */
  lemma ModeSense6ResidueAsWrittenExceeds()
    ensures ModeSense6ResidueAsWritten(0) == 0xFFFF_FFFC
    ensures ModeSense6Residue(0) == 0
  {
  }

  // ---------------------------------------------------------------------
  // Device state
  // ---------------------------------------------------------------------

  datatype ScsiState = Idle | SendBlocks | SendStatus | SentStatus | ReceiveBlocks

  /** Card_getMode: not connected, connected for raw block access over USB, or mounted locally. */
  datatype CardMode = NotConnected | Raw | FatFs

  datatype Buffer = CommandBuffer | Ping | Pong | CswBuffer

  /** What an IN transfer carries: bytes, or `count` blocks read from the card at `lba`. */
  datatype Content = Bytes(data: seq<byte>) | Blocks(lba: int, count: int)

  /** A transfer queued by setupRequest on a bulk endpoint. */
  datatype Request =
    | InRequest(endpoint: int, buffer: Buffer, content: Content)
    | OutRequest(endpoint: int, buffer: Buffer, length: int)

  /** Outcome of the card operations that can fail: `readOk` for the read
      whose failure is acted on, `readAheadOk` for the read-ahead that
      scsiRead10 issues after the first buffer is sent, whose result it ignores. */
  datatype CardIo = CardIo(readOk: bool, readAheadOk: bool, connectOk: bool)

  /** The bulk endpoint events that handleEndpoints reacts to; the others are ignored. */
  datatype UsbEvent = DataInComplete | DataOutComplete | OtherEvent

  /** Transfers queued so far, and mPendingTransmits. */
  datatype Xfer = Xfer(requests: seq<Request>, pendingTransmits: nat)

  /** mErrorCode, mSenseKey, mAddSenseCode: what REQUEST SENSE reports. */
  datatype Sense = Sense(errorCode: byte, senseKey: byte, addSenseCode: int)

  /** What a ping or pong buffer holds: `size` blocks read from `lba`
      (mPingSize / mPongSize, and the data itself). */
  datatype Slot = Slot(lba: int, size: int)

  /** The block transfer counters of READ(10) and WRITE(10). */
  datatype Stream = Stream(currentLba: int, blocksToRead: int, blocksToSend: int, blocksToReceive: int,
                           readAhead: int, readAheadGrowth: int,
                           pingPong: bool, ping: Slot, pong: Slot)

  /** The card as seen by the driver, and the driver's own connection flags. */
  datatype Media = Media(present: bool, mode: CardMode, size: int,
                         inhibitCardConnect: bool, allowMediumRemoval: bool)

  /** The fields of MassStorage and the static buffers it owns. */
  datatype Msc = Msc(scsiState: ScsiState, xfer: Xfer, sense: Sense, csw: Csw,
                     stream: Stream, media: Media, commandBuffer: seq<byte>, written: seq<int>)

  predicate StreamValues(t: Stream) {
    IsU32(t.currentLba) && IsU32(t.blocksToRead) && IsU32(t.blocksToSend) && IsU32(t.blocksToReceive)
    && IsU32(t.readAhead) && IsU32(t.readAheadGrowth)
    && IsU32(t.ping.lba) && IsU32(t.ping.size) && IsU32(t.pong.lba) && IsU32(t.pong.size)
  }

  predicate WellFormed(s: Msc) {
    |s.commandBuffer| == COMMAND_BUFFER_SIZE
    && s.csw.signature == CSW_SIGNATURE && CswValues(s.csw)
    && 0 <= s.sense.addSenseCode < 0x1_0000
    && StreamValues(s.stream) && IsU32(s.media.size)
  }

  /** Number of IN transfers in a request log. */
  function InCount(q: seq<Request>): nat {
    if |q| == 0 then 0
    else InCount(q[..|q| - 1]) + (if q[|q| - 1].InRequest? then 1 else 0)
  }

  /** `r` only appended requests to `s`, and mPendingTransmits grew by exactly
      the number of IN transfers appended. */
  predicate CountsTransmits(s: Msc, r: Msc) {
    s.xfer.requests <= r.xfer.requests
    && r.xfer.pendingTransmits - InCount(r.xfer.requests) == s.xfer.pendingTransmits - InCount(s.xfer.requests)
  }

  /** setupRequest on a bulk endpoint; an IN transfer is also counted in mPendingTransmits. */
  function Queue(s: Msc, q: Request): (r: Msc)
    ensures CountsTransmits(s, r)
    ensures r.xfer.requests == s.xfer.requests + [q]
    ensures r == s.(xfer := r.xfer)
  {
    var x := Xfer(s.xfer.requests + [q],
                  if q.InRequest? then s.xfer.pendingTransmits + 1 else s.xfer.pendingTransmits);
    assert x.requests[..|x.requests| - 1] == s.xfer.requests;
    s.(xfer := x)
  }

  /** A command handler keeps the state well formed and the CSW's tag. */
  predicate KeepsCommand(s: Msc, r: Msc) {
    WellFormed(r) && r.csw.tag == s.csw.tag
  }

  // ---------------------------------------------------------------------
  // Step functions: the effect of each driver operation on the state
  // ---------------------------------------------------------------------

  /** isCardConnected: raw mode, and a connected card clears the inhibit flag. */
  function ConnectedCheck(s: Msc): (Msc, bool) {
    if s.media.mode == Raw then (s.(media := s.media.(inhibitCardConnect := false)), true) else (s, false)
  }

  /** Card_connect(drive, CARD_MODE_RAW). */
  function ConnectCard(s: Msc, io: CardIo): Msc {
    if io.connectOk then s.(media := s.media.(mode := Raw)) else s
  }

  /** onDisconnect (mass-storage part): a card connected in raw mode is handed
      back with Card_disconnect. */
  function OnDisconnectStep(s: Msc): (r: Msc)
    ensures r.media.mode != Raw
    ensures s.media.mode != Raw ==> r == s
  {
    var (s1, connected) := ConnectedCheck(s);
    if connected then s1.(media := s1.media.(mode := NotConnected)) else s1
  }

  /** bCSWStatus: 0 command passed, 1 command failed. */
  function CswStatus(passed: bool): byte { if passed then 0 else 1 }

  /** The failure answer of the media-access commands: medium not present. */
  function NoMedium(s: Msc): Msc {
    s.(csw := s.csw.(status := 1, dataResidue := 0),
       sense := Sense(SCSI_RS_VALID_CUR_ERRORS, SCSI_RS_KEY_NOT_READY, SCSI_ASC_MED_NOT_PRSNT),
       scsiState := SendStatus)
  }

  /** The success status with no residue. */
  function Passed(s: Msc): Msc {
    s.(csw := s.csw.(status := 0, dataResidue := 0))
  }

  function ResetScsiStateStep(s: Msc): (r: Msc)
    ensures WellFormed(r) <==> |s.commandBuffer| == COMMAND_BUFFER_SIZE && StreamValues(s.stream) && IsU32(s.media.size)
    ensures r.scsiState == Idle && r.xfer == Xfer(s.xfer.requests, 0)
    ensures r.csw == Csw(CSW_SIGNATURE, 0, 0, 0)
  {
    s.(sense := Sense(SCSI_RS_VALID_CUR_ERRORS, SCSI_RS_KEY_NOT_READY, SCSI_ASC_MED_NOT_PRSNT),
       csw := Csw(CSW_SIGNATURE, 0, 0, 0),
       scsiState := Idle,
       xfer := s.xfer.(pendingTransmits := 0))
  }

  function ReceiveCbwStep(s: Msc): (r: Msc)
    ensures CountsTransmits(s, r)
    ensures r == s.(xfer := r.xfer, scsiState := Idle)
  {
    Queue(s, OutRequest(DATA_OUT_ENDPOINT, CommandBuffer, MAX_TRANSFER_SIZE)).(scsiState := Idle)
  }

  function SendCswStep(s: Msc): (r: Msc)
    requires CswValues(s.csw)
    ensures CountsTransmits(s, r)
    ensures r.xfer.requests == s.xfer.requests + [InRequest(DATA_IN_ENDPOINT, CswBuffer, Bytes(EncodeCsw(s.csw)))]
    ensures r == s.(xfer := r.xfer, scsiState := SentStatus)
  {
    Queue(s, InRequest(DATA_IN_ENDPOINT, CswBuffer, Bytes(EncodeCsw(s.csw)))).(scsiState := SentStatus)
  }

  /** receiveBlocks: the block in gPing goes to the card at mCurrentLBA. */
  function ReceiveBlocksStep(s: Msc): (r: Msc)
    requires CswValues(s.csw)
    ensures CountsTransmits(s, r)
    ensures r.written == s.written + [s.stream.currentLba] && CswValues(r.csw)
    ensures r.stream == s.stream.(blocksToReceive := Wrap32(s.stream.blocksToReceive - 1),
                                  currentLba := Wrap32(s.stream.currentLba + 1))
    ensures r.stream.blocksToReceive != 0 ==> r.scsiState == s.scsiState
    ensures r.stream.blocksToReceive == 0 ==>
              r.scsiState == SentStatus && r.csw.status == 0 && r.csw.dataResidue == 0
    ensures WellFormed(s) ==> WellFormed(r)
  {
    var s1 := s.(written := s.written + [s.stream.currentLba],
                 stream := s.stream.(blocksToReceive := Wrap32(s.stream.blocksToReceive - 1),
                                     currentLba := Wrap32(s.stream.currentLba + 1)));
    if s1.stream.blocksToReceive == 0 then SendCswStep(Passed(s1))
    else Queue(s1, OutRequest(DATA_OUT_ENDPOINT, Ping, MAX_TRANSFER_SIZE))
  }

  /** Number of blocks readPingPong reads: the read-ahead clamped to
      BLOCK_READ_AHEAD, and no more than remain to be read. */
  function ReadAmount(blocksToRead: int, readAhead: int): (n: int)
    requires 0 <= blocksToRead && 0 <= readAhead
    ensures 0 <= n <= blocksToRead && n <= BLOCK_READ_AHEAD && n <= readAhead
    ensures n == blocksToRead || n == readAhead || n == BLOCK_READ_AHEAD
    ensures blocksToRead > 0 && readAhead > 0 ==> n > 0
  {
    var ra := if readAhead > BLOCK_READ_AHEAD then BLOCK_READ_AHEAD else readAhead;
    if ra < blocksToRead then ra else blocksToRead
  }

  function ReadPingPongStream(t: Stream, readOk: bool): (r: Stream)
    requires StreamValues(t)
    ensures StreamValues(r)
  {
    var ra := if t.readAhead > BLOCK_READ_AHEAD then BLOCK_READ_AHEAD else t.readAhead;
    var n := ReadAmount(t.blocksToRead, t.readAhead);
    if !readOk then t.(readAhead := ra)
    else
      var t1 := if t.pingPong then t.(ping := Slot(t.currentLba, n)) else t.(pong := Slot(t.currentLba, n));
      t1.(currentLba := Wrap32(t.currentLba + n), blocksToRead := t.blocksToRead - n,
          readAhead := Wrap32(ra + t.readAheadGrowth))
  }

  /** readPingPong: only the stream counters change (Card_readAlignedBlocks fills a buffer). */
  function ReadPingPongStep(s: Msc, readOk: bool): (r: (Msc, bool))
    requires StreamValues(s.stream)
    ensures r.1 == readOk && r.0 == s.(stream := ReadPingPongStream(s.stream, readOk))
  {
    (s.(stream := ReadPingPongStream(s.stream, readOk)), readOk)
  }

  /** The buffer sendPingPong transmits next, and what it holds. */
  function NextBuffer(t: Stream): Buffer { if t.pingPong then Ping else Pong }
  function Next(t: Stream): Slot { if t.pingPong then t.ping else t.pong }

  function SendPingPongStep(s: Msc): (r: Msc)
    ensures CountsTransmits(s, r)
    ensures r.xfer.requests == s.xfer.requests
              + [InRequest(DATA_IN_ENDPOINT, NextBuffer(s.stream), Blocks(Next(s.stream).lba, Next(s.stream).size))]
    ensures r.stream == s.stream.(blocksToSend := Wrap32(s.stream.blocksToSend - Next(s.stream).size),
                                  pingPong := !s.stream.pingPong)
  {
    var t := s.stream;
    Queue(s, InRequest(DATA_IN_ENDPOINT, NextBuffer(t), Blocks(Next(t).lba, Next(t).size)))
      .(stream := t.(blocksToSend := Wrap32(t.blocksToSend - Next(t).size), pingPong := !t.pingPong))
  }

  function SendBlocksStep(s: Msc, readOk: bool): (r: Msc)
    requires CswValues(s.csw) && StreamValues(s.stream)
    ensures CountsTransmits(s, r)
    ensures WellFormed(s) ==> WellFormed(r)
  {
    if s.stream.blocksToSend > 0 then
      var s1 := SendPingPongStep(s);
      if s1.stream.blocksToRead > 0 then ReadPingPongStep(s1, readOk).0 else s1
    else SendCswStep(Passed(s))
  }

  /** A response from gCommandBuffer queued on the bulk IN endpoint. */
  function Respond(s: Msc, data: seq<byte>): (r: Msc)
    requires |data| <= |s.commandBuffer|
    ensures CountsTransmits(s, r)
  {
    Queue(s.(commandBuffer := Overlay(s.commandBuffer, data)),
          InRequest(DATA_IN_ENDPOINT, CommandBuffer, Bytes(data)))
  }

  function ScsiInquiryStep(s: Msc): (r: Msc)
    requires WellFormed(s)
    ensures CountsTransmits(s, r)
    ensures KeepsCommand(s, r)
  {
    Passed(Respond(s, InquiryResponse())).(scsiState := SendStatus)
  }

  function ScsiTestUnitReadyMedia(m: Media, io: CardIo): Media {
    if m.present then
      var m1 :=
        if m.inhibitCardConnect then (if m.mode == FatFs then m.(inhibitCardConnect := false) else m)
        else if m.mode == NotConnected && io.connectOk then m.(mode := Raw)
        else m;
      if m1.mode == Raw then m1.(inhibitCardConnect := false) else m1
    else m.(inhibitCardConnect := false)
  }

  function ScsiTestUnitReadyStep(s: Msc, io: CardIo): (r: Msc)
    requires WellFormed(s)
    ensures KeepsCommand(s, r) && r.xfer == s.xfer
  {
    var m := ScsiTestUnitReadyMedia(s.media, io);
    s.(media := m, csw := s.csw.(dataResidue := 0, status := CswStatus(s.media.present && m.mode == Raw)))
  }

  function ScsiReadFormatCapacitiesStep(s: Msc): (r: Msc)
    requires WellFormed(s)
    ensures CountsTransmits(s, r)
    ensures KeepsCommand(s, r)
  {
    var (s1, connected) := ConnectedCheck(s);
    if connected then
      Passed(Respond(s1, ReadFormatCapacitiesResponse(s1.media.size))).(scsiState := SendStatus)
    else NoMedium(s1)
  }

  function ScsiReadCapacityStep(s: Msc): (r: Msc)
    requires WellFormed(s)
    ensures CountsTransmits(s, r)
    ensures KeepsCommand(s, r)
  {
    var (s1, connected) := ConnectedCheck(s);
    if connected then
      Passed(Respond(s1, ReadCapacityResponse(s1.media.size))).(scsiState := SendStatus)
    else NoMedium(s1)
  }

  function ScsiRequestSenseStep(s: Msc): (r: Msc)
    requires WellFormed(s)
    ensures CountsTransmits(s, r)
    ensures KeepsCommand(s, r)
  {
    var s1 := Respond(s, RequestSenseResponse(s.sense.errorCode, s.sense.senseKey, s.sense.addSenseCode));
    Passed(s1.(sense := s1.sense.(errorCode := SCSI_RS_CUR_ERRORS))).(scsiState := SendStatus)
  }

  /** The first read of READ(10): starts a stream of `blockCount` blocks at `lba`. */
  function StartRead(t: Stream, lba: int, blockCount: int): Stream {
    t.(currentLba := lba, pingPong := true, blocksToRead := blockCount,
       readAhead := blockCount / 8 + 1, readAheadGrowth := 4)
  }

  /** The first part of scsiRead10: on a connected card, decode the command,
      start the stream and read the first buffer; a failed read unmounts the
      card (Card_unmount leaves it not connected). */
  function Read10FirstRead(s: Msc, cbw: Cbw, io: CardIo): (r: Msc)
    requires WellFormed(s) && CbwValues(cbw)
    ensures WellFormed(r) && r.csw == s.csw && r.xfer == s.xfer && r.scsiState == s.scsiState
  {
    var (s1, connected) := ConnectedCheck(s);
    if connected then
      var (t1, ok) := ReadPingPongStep(s1.(stream := StartRead(s1.stream, CdbLba(cbw.cb), CdbBlockCount(cbw.cb))), io.readOk);
      if ok then t1 else t1.(media := t1.media.(mode := NotConnected))
    else s1
  }

  /** The second part of scsiRead10: if the card is still connected, send the
      first buffer of `blockCount` blocks and read ahead into the other one.
      The outcome of that read-ahead is not checked: when it fails, the other
      buffer keeps the slot it held before. */
  function Read10Transfer(s: Msc, blockCount: int, io: CardIo): (r: Msc)
    requires WellFormed(s) && IsU32(blockCount)
    ensures CountsTransmits(s, r) && KeepsCommand(s, r)
  {
    var (s3, stillConnected) := ConnectedCheck(s);
    if stillConnected then
      var t := SendPingPongStep(s3.(stream := s3.stream.(blocksToSend := blockCount))).(scsiState := SendBlocks);
      if t.stream.blocksToRead > 0 then ReadPingPongStep(t, io.readAheadOk).0 else t
    else NoMedium(s3)
  }

  function ScsiRead10Step(s: Msc, cbw: Cbw, io: CardIo): (r: Msc)
    requires WellFormed(s) && CbwValues(cbw)
    ensures CountsTransmits(s, r) && KeepsCommand(s, r)
  {
    var blockCount := if s.media.mode == Raw then CdbBlockCount(cbw.cb) else 0;
    Read10Transfer(Read10FirstRead(s, cbw, io), blockCount, io)
  }

  function ScsiWrite10Step(s: Msc, cbw: Cbw): (r: Msc)
    requires WellFormed(s) && CbwValues(cbw)
    ensures CountsTransmits(s, r) && KeepsCommand(s, r)
  {
    var (s1, connected) := ConnectedCheck(s);
    if connected then
      Queue(s1.(stream := s1.stream.(currentLba := CdbLba(cbw.cb), blocksToReceive := CdbBlockCount(cbw.cb))),
            OutRequest(DATA_OUT_ENDPOINT, Ping, DEVICE_BLOCK_SIZE)).(scsiState := ReceiveBlocks)
    else NoMedium(s1)
  }

  function ScsiModeSense6Step(s: Msc, cbw: Cbw): (r: Msc)
    requires WellFormed(s) && CbwValues(cbw)
    ensures CountsTransmits(s, r)
    ensures KeepsCommand(s, r)
  {
    var (s1, connected) := ConnectedCheck(s);
    if connected then
      var s2 := Respond(s1, ModeSense6Response());
      s2.(csw := s2.csw.(status := 0, dataResidue := ModeSense6Residue(cbw.dataTransferLength)),
          scsiState := SendStatus)
    else NoMedium(s1)
  }

  /** START STOP UNIT on the card: LOEJ with START connects, LOEJ alone disconnects. */
  function ScsiStartStopUnitMedia(m: Media, b: byte, io: CardIo): Media {
    if !LoadEject(b) then m
    else if StartBit(b) then
      if m.mode == Raw then m.(inhibitCardConnect := false)
      else if io.connectOk then m.(mode := Raw, inhibitCardConnect := false)
      else m.(inhibitCardConnect := false)
    else if m.mode == Raw then m.(mode := NotConnected, inhibitCardConnect := true)
    else m
  }

  function ScsiStartStopUnitStep(s: Msc, cbw: Cbw, io: CardIo): (r: Msc)
    requires WellFormed(s) && CbwValues(cbw)
    ensures KeepsCommand(s, r) && r.xfer == s.xfer
  {
    var b := cbw.cb[4];
    var m := ScsiStartStopUnitMedia(s.media, b, io);
    var status :=
      if !LoadEject(b) then s.csw.status
      else if StartBit(b) then CswStatus(m.mode == Raw)
      else CswStatus(m.mode != Raw);
    s.(media := m, csw := s.csw.(dataResidue := 0, status := status))
  }

  function ScsiUnsupportedCommandStep(s: Msc, cbw: Cbw): (r: Msc)
    requires WellFormed(s) && CbwValues(cbw)
    ensures KeepsCommand(s, r) && r.xfer == s.xfer
  {
    s.(scsiState := if cbw.dataTransferLength != 0 then SendStatus else Idle,
       csw := s.csw.(status := 1, dataResidue := cbw.dataTransferLength),
       sense := Sense(SCSI_RS_VALID_CUR_ERRORS, SCSI_RS_KEY_ILGL_RQST, SCSI_ASC_PARAMETER_VALUE_INVALID))
  }

  /** The PREVENT ALLOW MEDIUM REMOVAL case of the command switch. */
  function PreventAllowStep(s: Msc, cbw: Cbw): (r: Msc)
    requires WellFormed(s) && CbwValues(cbw)
    ensures KeepsCommand(s, r) && r.xfer == s.xfer
    ensures r.media.allowMediumRemoval <==> cbw.cb[4] == 0
  {
    s.(media := s.media.(allowMediumRemoval := !PreventRemovalAsWritten(cbw.cb[4])))
  }

  /** The command switch of scsiHandleCommand, after the CSW was prepared.
      REASSIGN BLOCKS falls through into PREVENT ALLOW MEDIUM REMOVAL. */
  function DispatchStep(s: Msc, cbw: Cbw, io: CardIo): (r: Msc)
    requires WellFormed(s) && CbwValues(cbw)
    ensures CountsTransmits(s, r)
    ensures WellFormed(r) && r.csw.tag == s.csw.tag
  {
    var op := cbw.cb[0];
    if op == SCSI_INQUIRY_CMD then ScsiInquiryStep(s)
    else if op == SCSI_TEST_UNIT_READY then ScsiTestUnitReadyStep(s, io)
    else if op == SCSI_READ_FORMAT_CAPACITIES then ScsiReadFormatCapacitiesStep(s)
    else if op == SCSI_READ_CAPACITY then ScsiReadCapacityStep(s)
    else if op == SCSI_REQUEST_SENSE then ScsiRequestSenseStep(s)
    else if op == SCSI_READ_10 then ScsiRead10Step(s, cbw, io)
    else if op == SCSI_WRITE_10 then ScsiWrite10Step(s, cbw)
    else if op == SCSI_MODE_SENSE_6 then ScsiModeSense6Step(s, cbw)
    else if op == SCSI_START_STOP_UNIT then ScsiStartStopUnitStep(s, cbw, io)
    else if op == SCSI_VERIFY_10 then
      s.(csw := s.csw.(dataResidue := cbw.dataTransferLength), scsiState := SendStatus)
    else if op == SCSI_REASSIGN_BLOCKS then PreventAllowStep(ScsiUnsupportedCommandStep(s, cbw), cbw)
    else if op == SCSI_PREVENT_ALLOW_MEDIUM_REMOVAL then PreventAllowStep(s, cbw)
    else ScsiUnsupportedCommandStep(s, cbw)
  }

  function ScsiHandleCommandStep(s: Msc, io: CardIo): (r: (Msc, bool))
    requires WellFormed(s)
    ensures CountsTransmits(s, r.0) && WellFormed(r.0)
  {
    var cbw := DecodeCbw(s.commandBuffer);
    if cbw.signature != CBW_SIGNATURE then (s, false)
    else
      var s0 := s.(csw := s.csw.(tag := cbw.tag, dataResidue := 0, status := 0));
      var s1 := DispatchStep(s0, cbw, io);
      if cbw.dataTransferLength == 0 || s1.scsiState == SendStatus then (SendCswStep(s1), true)
      else (s1, true)
  }

  /** A bulk IN transfer completed: one pending transmit fewer, then the next
      piece of the answer. */
  function DataInStep(s: Msc, io: CardIo): (r: Msc)
    requires WellFormed(s)
    ensures WellFormed(r)
  {
    var s1 := s.(xfer := s.xfer.(pendingTransmits := if s.xfer.pendingTransmits > 0 then s.xfer.pendingTransmits - 1 else 0));
    match s1.scsiState
    case SendBlocks => SendBlocksStep(s1, io.readOk)
    case SendStatus => SendCswStep(s1)
    case SentStatus => ReceiveCbwStep(s1)
    case _ => s1
  }

  /** A bulk OUT transfer of `outData` completed: a block to write, or a new command. */
  function DataOutStep(s: Msc, outData: seq<byte>, io: CardIo): (r: Msc)
    requires WellFormed(s) && |outData| <= MAX_TRANSFER_SIZE
    ensures WellFormed(r)
  {
    match s.scsiState
    case ReceiveBlocks => ReceiveBlocksStep(s)
    case Idle =>
      var (s1, ok) := ScsiHandleCommandStep(s.(commandBuffer := Overlay(s.commandBuffer, outData)), io);
      if ok then s1 else s1.(scsiState := Idle)
    case _ => s
  }

  function HandleEndpointsStep(s: Msc, ev: UsbEvent, outData: seq<byte>, io: CardIo): (r: Msc)
    requires WellFormed(s) && |outData| <= MAX_TRANSFER_SIZE
  {
    match ev
    case DataInComplete => DataInStep(s, io)
    case DataOutComplete => DataOutStep(s, outData, io)
    case OtherEvent => s
  }

  // ---------------------------------------------------------------------
  // Properties of the command handling
  // ---------------------------------------------------------------------

  /** A command is accepted exactly when its CBW carries the CBW signature; a
      rejected one changes nothing, an accepted one answers with its tag. */
  lemma HandleCommandChecksSignature(s: Msc, io: CardIo)
    requires WellFormed(s)
    ensures var cbw := DecodeCbw(s.commandBuffer);
            var (r, ok) := ScsiHandleCommandStep(s, io);
            (ok <==> cbw.signature == CBW_SIGNATURE)
            && (!ok ==> r == s)
            && (ok ==> WellFormed(r) && r.csw.tag == cbw.tag)
  {
  }

  /** A command without a data phase is answered at once by a CSW that the
      host decodes to the CSW signature and the command's own tag. */
  lemma NoDataCommandIsAnswered(s: Msc, io: CardIo)
    requires WellFormed(s)
    requires DecodeCbw(s.commandBuffer).signature == CBW_SIGNATURE
    requires DecodeCbw(s.commandBuffer).dataTransferLength == 0
    ensures var r := ScsiHandleCommandStep(s, io).0;
            r.scsiState == SentStatus
            && |r.xfer.requests| > 0
            && var last := r.xfer.requests[|r.xfer.requests| - 1];
               last.InRequest? && last.endpoint == DATA_IN_ENDPOINT && last.content.Bytes?
               && |last.content.data| == CSW_SIZE
               && DecodeCsw(last.content.data).signature == CSW_SIGNATURE
               && DecodeCsw(last.content.data).tag == DecodeCbw(s.commandBuffer).tag
  {
    var cbw := DecodeCbw(s.commandBuffer);
    var s0 := s.(csw := s.csw.(tag := cbw.tag, dataResidue := 0, status := 0));
    var s1 := DispatchStep(s0, cbw, io);
    CswRoundTrip(s1.csw);
  }

  /** REQUEST SENSE reports the stored sense data and then clears its valid bit. */
  lemma RequestSenseReportsAndClears(s: Msc)
    requires WellFormed(s)
    ensures var r := ScsiRequestSenseStep(s);
            var q := r.xfer.requests;
            q == s.xfer.requests + [InRequest(DATA_IN_ENDPOINT, CommandBuffer,
                                       Bytes(RequestSenseResponse(s.sense.errorCode, s.sense.senseKey, s.sense.addSenseCode)))]
            && r.sense == s.sense.(errorCode := SCSI_RS_CUR_ERRORS)
            && r.scsiState == SendStatus && r.csw.status == 0 && r.csw.dataResidue == 0
  {
  }

  /** READ CAPACITY answers with the last block and the block size when the
      card is connected, and otherwise fails with "medium not present". */
  lemma ReadCapacityAnswers(s: Msc)
    requires WellFormed(s)
    ensures var r := ScsiReadCapacityStep(s);
            r.scsiState == SendStatus
            && (s.media.mode == Raw ==>
                  r.xfer.requests == s.xfer.requests
                    + [InRequest(DATA_IN_ENDPOINT, CommandBuffer, Bytes(ReadCapacityResponse(s.media.size)))]
                  && r.csw.status == 0)
            && (s.media.mode != Raw ==>
                  r.xfer == s.xfer && r.csw.status == 1
                  && r.sense == Sense(SCSI_RS_VALID_CUR_ERRORS, SCSI_RS_KEY_NOT_READY, SCSI_ASC_MED_NOT_PRSNT))
  {
  }

  /** TEST UNIT READY passes exactly when a card is present and connected; an
      inhibited driver never connects the card itself. */
  lemma TestUnitReadyReportsConnection(s: Msc, io: CardIo)
    requires WellFormed(s)
    ensures var r := ScsiTestUnitReadyStep(s, io);
            (r.csw.status == 0 <==> s.media.present && r.media.mode == Raw)
            && (s.media.inhibitCardConnect ==> r.media.mode == s.media.mode)
            && (!s.media.present ==> !r.media.inhibitCardConnect && r.media.mode == s.media.mode)
            && (r.media.mode == Raw ==> !r.media.inhibitCardConnect)
  {
  }

  /** START STOP UNIT: load with start connects (status tells whether it
      worked), eject without start leaves the card disconnected and keeps TEST
      UNIT READY from reconnecting it, and without LOEJ the card is untouched. */
  lemma StartStopUnitConnects(s: Msc, cbw: Cbw, io: CardIo)
    requires WellFormed(s) && CbwValues(cbw)
    ensures var b := cbw.cb[4];
            var r := ScsiStartStopUnitStep(s, cbw, io);
            r.csw.dataResidue == 0
            && (LoadEject(b) && StartBit(b) ==>
                  (r.csw.status == 0 <==> r.media.mode == Raw) && !r.media.inhibitCardConnect)
            && (LoadEject(b) && !StartBit(b) ==>
                  r.media.mode != Raw && r.csw.status == 0
                  && (s.media.mode == Raw ==> r.media.inhibitCardConnect))
            && (!LoadEject(b) ==> r.media == s.media && r.csw.status == s.csw.status)
  {
  }

  /** An unknown command fails with ILLEGAL REQUEST; all of its data is residue. */
  lemma UnsupportedCommandFails(s: Msc, cbw: Cbw)
    requires WellFormed(s) && CbwValues(cbw)
    ensures var r := ScsiUnsupportedCommandStep(s, cbw);
            r.csw.status == 1 && r.csw.dataResidue == cbw.dataTransferLength
            && r.sense == Sense(SCSI_RS_VALID_CUR_ERRORS, SCSI_RS_KEY_ILGL_RQST, SCSI_ASC_PARAMETER_VALUE_INVALID)
            && (r.scsiState == SendStatus <==> cbw.dataTransferLength != 0)
  {
  }

  /** mPendingTransmits counts the IN transfers queued and not yet reported
      complete: every event adds the IN transfers it queues, and an IN
      completion removes one (never going below zero). */
  lemma HandleEndpointsCountsTransmits(s: Msc, ev: UsbEvent, outData: seq<byte>, io: CardIo)
    requires WellFormed(s) && |outData| <= MAX_TRANSFER_SIZE
    ensures var r := HandleEndpointsStep(s, ev, outData, io);
            var before := if ev == DataInComplete && s.xfer.pendingTransmits > 0
                          then s.xfer.pendingTransmits - 1 else s.xfer.pendingTransmits;
            s.xfer.requests <= r.xfer.requests
            && r.xfer.pendingTransmits - InCount(r.xfer.requests) == before - InCount(s.xfer.requests)
  {
  }

  /** Once the CSW has gone out, its completion re-arms the OUT endpoint for the next CBW. */
  lemma StatusCompletionRearmsCommand(s: Msc, outData: seq<byte>, io: CardIo)
    requires WellFormed(s) && |outData| <= MAX_TRANSFER_SIZE && s.scsiState == SentStatus
    ensures var r := HandleEndpointsStep(s, DataInComplete, outData, io);
            r.scsiState == Idle
            && r.xfer.requests == s.xfer.requests + [OutRequest(DATA_OUT_ENDPOINT, CommandBuffer, MAX_TRANSFER_SIZE)]
  {
  }

  // ---------------------------------------------------------------------
  // READ(10): the ping-pong stream
  // ---------------------------------------------------------------------

  /** The stream invariant while blocks are being sent: either everything is
      sent, or the buffer to send next holds 1..BLOCK_READ_AHEAD blocks that end
      where the next read starts, and it together with the blocks still to be
      read makes up everything still to be sent. */
  predicate Streaming(t: Stream) {
    t.readAhead > 0 && t.readAheadGrowth == 4
    && ((t.blocksToSend == 0 && t.blocksToRead == 0)
        || (t.blocksToSend == t.blocksToRead + Next(t).size
            && 0 < Next(t).size <= BLOCK_READ_AHEAD
            && Wrap32(Next(t).lba + Next(t).size) == t.currentLba))
  }

  lemma Wrap32Add(a: int, b: int)
    ensures Wrap32(Wrap32(a) + b) == Wrap32(a + b)
  {
    var m := U32_LIMIT;
    assert a == (a / m) * m + a % m;
    assert Wrap32(a) + b == (a + b) - (a / m) * m;
    ModShift(a + b, a / m);
  }

  lemma ModShift(x: int, k: int)
    ensures (x - k * U32_LIMIT) % U32_LIMIT == x % U32_LIMIT
  {
  }

  /** READ(10) on a connected card whose reads succeed: the first buffer of up
      to BLOCK_READ_AHEAD blocks from the requested address goes out at once
      and the stream invariant holds. */
  lemma Read10StartsStream(s: Msc, cbw: Cbw, io: CardIo)
    requires WellFormed(s) && CbwValues(cbw) && io.readOk && io.readAheadOk && s.media.mode == Raw
    ensures var r := ScsiRead10Step(s, cbw, io);
            var count := CdbBlockCount(cbw.cb);
            var n := ReadAmount(count, count / 8 + 1);
            r.scsiState == SendBlocks && Streaming(r.stream)
            && r.xfer.requests == s.xfer.requests + [InRequest(DATA_IN_ENDPOINT, Ping, Blocks(CdbLba(cbw.cb), n))]
            && r.stream.blocksToSend == count - n
            && (r.stream.blocksToSend > 0 ==> Next(r.stream).lba == Wrap32(CdbLba(cbw.cb) + n) && !r.stream.pingPong)
  {
  }

  /** READ(10) where the first read succeeds and the read-ahead fails: the
      failure is ignored, the card stays mounted, the first buffer still goes
      out, and when blocks remain the buffer announced next is the stale slot
      the Pong buffer held before the command. */
  lemma Read10ReadAheadFailKeepsStale(s: Msc, cbw: Cbw, io: CardIo)
    requires WellFormed(s) && CbwValues(cbw) && io.readOk && !io.readAheadOk && s.media.mode == Raw
    ensures var r := ScsiRead10Step(s, cbw, io);
            var count := CdbBlockCount(cbw.cb);
            var n := ReadAmount(count, count / 8 + 1);
            r.scsiState == SendBlocks && r.media.mode == Raw
            && r.xfer.requests == s.xfer.requests + [InRequest(DATA_IN_ENDPOINT, Ping, Blocks(CdbLba(cbw.cb), n))]
            && r.stream.blocksToSend == count - n
            && (count > n ==> !r.stream.pingPong && Next(r.stream) == s.stream.pong)
  {
  }

  /** Each IN completion while sending blocks: the buffer announced by the
      invariant goes out, the other buffer is refilled from where it ends, and
      the count still to send strictly decreases; when nothing is left the
      transfer ends with a passing status. */
  lemma SendBlocksAdvancesStream(s: Msc)
    requires CswValues(s.csw) && StreamValues(s.stream) && Streaming(s.stream)
    ensures var t := s.stream;
            var r := SendBlocksStep(s, true);
            (t.blocksToSend > 0 ==>
               r.scsiState == s.scsiState && Streaming(r.stream) && StreamValues(r.stream)
               && r.xfer.requests == s.xfer.requests
                    + [InRequest(DATA_IN_ENDPOINT, NextBuffer(t), Blocks(Next(t).lba, Next(t).size))]
               && r.stream.blocksToSend == t.blocksToSend - Next(t).size < t.blocksToSend
               && (r.stream.blocksToSend > 0 ==>
                     Next(r.stream).lba == Wrap32(Next(t).lba + Next(t).size)
                     && NextBuffer(r.stream) != NextBuffer(t)))
            && (t.blocksToSend == 0 ==>
               r.scsiState == SentStatus && r.csw.status == 0 && r.csw.dataResidue == 0)
  {
  }

  // ---------------------------------------------------------------------
  // WRITE(10): block by block
  // ---------------------------------------------------------------------

  /** `k` OUT completions while receiving blocks. */
  function ReceiveMany(s: Msc, k: nat): (r: Msc)
    requires CswValues(s.csw)
    ensures CswValues(r.csw)
    decreases k
  {
    if k == 0 then s else ReceiveMany(ReceiveBlocksStep(s), k - 1)
  }

  /** `k` consecutive block addresses from `lba`, in uint32 arithmetic. */
  function Consecutive(lba: int, k: nat): (q: seq<int>)
    ensures |q| == k
  {
    seq(k, i => Wrap32(lba + i))
  }

  lemma ConsecutiveCons(lba: int, k: nat)
    requires IsU32(lba) && 1 <= k
    ensures Consecutive(lba, k) == [lba] + Consecutive(Wrap32(lba + 1), k - 1)
  {
    var q := Consecutive(Wrap32(lba + 1), k - 1);
    forall i | 0 <= i < |q|
      ensures q[i] == Consecutive(lba, k)[i + 1]
    {
      Wrap32Add(lba + 1, i);
    }
    assert Consecutive(lba, k)[0] == Wrap32(lba + 0) == lba;
  }

  /** What `k` OUT completions from `s` leave in `r`: the blocks written at
      consecutive addresses, the counters advanced by `k`, and the passing
      status once the last block is in. */
  predicate Received(s: Msc, r: Msc, k: nat) {
    r.written == s.written + Consecutive(s.stream.currentLba, k)
    && r.stream.blocksToReceive == s.stream.blocksToReceive - k
    && r.stream.currentLba == Wrap32(s.stream.currentLba + k)
    && (k < s.stream.blocksToReceive ==> r.scsiState == ReceiveBlocks)
    && (k == s.stream.blocksToReceive ==>
          r.scsiState == SentStatus && r.csw.status == 0 && r.csw.dataResidue == 0)
  }

  /** A single completion. */
  lemma ReceivedOne(s: Msc, s1: Msc)
    requires IsU32(s.stream.currentLba) && 1 <= s.stream.blocksToReceive
    requires s1.written == s.written + [s.stream.currentLba]
    requires s1.stream.currentLba == Wrap32(s.stream.currentLba + 1)
    requires s1.stream.blocksToReceive == s.stream.blocksToReceive - 1
    requires s1.stream.blocksToReceive != 0 ==> s1.scsiState == ReceiveBlocks
    requires s1.stream.blocksToReceive == 0 ==>
               s1.scsiState == SentStatus && s1.csw.status == 0 && s1.csw.dataResidue == 0
    ensures Received(s, s1, 1)
  {
    assert Consecutive(s.stream.currentLba, 1) == [Wrap32(s.stream.currentLba + 0)];
  }

  /** One completion followed by `k - 1` more is `k` completions. */
  lemma ReceivedExtend(s: Msc, s1: Msc, r: Msc, k: nat)
    requires IsU32(s.stream.currentLba) && 1 < k <= s.stream.blocksToReceive
    requires s1.written == s.written + [s.stream.currentLba]
    requires s1.stream.currentLba == Wrap32(s.stream.currentLba + 1)
    requires s1.stream.blocksToReceive == s.stream.blocksToReceive - 1
    requires Received(s1, r, k - 1)
    ensures Received(s, r, k)
  {
    ConsecutiveCons(s.stream.currentLba, k);
    Wrap32Add(s.stream.currentLba + 1, k - 1);
  }

  /** After WRITE(10) of `count` blocks, `k <= count` OUT completions write the
      blocks at consecutive addresses from the command's address; the last one
      ends the transfer with a passing status. */
  lemma {:induction false} ReceiveBlocksWritesConsecutive(s: Msc, k: nat)
    requires CswValues(s.csw) && StreamValues(s.stream) && s.scsiState == ReceiveBlocks
    requires 1 <= k <= s.stream.blocksToReceive
    ensures Received(s, ReceiveMany(s, k), k)
    decreases k
  {
    var s1 := ReceiveBlocksStep(s);
    assert ReceiveMany(s, k) == ReceiveMany(s1, k - 1);
    if k > 1 {
      ReceiveBlocksWritesConsecutive(s1, k - 1);
      ReceivedExtend(s, s1, ReceiveMany(s1, k - 1), k);
    } else {
      ReceivedOne(s, s1);
    }
  }

  // ---------------------------------------------------------------------
  // The driver object
  // ---------------------------------------------------------------------

  /** The MassStorage object: its members and the static buffers it owns, each
      operation a method whose effect is the step function of the same name. */
  class MassStorageDevice {
    var scsiState: ScsiState
    var requests: seq<Request>
    var pendingTransmits: nat
    var sense: Sense
    var csw: Csw
    var stream: Stream
    var media: Media
    var commandBuffer: seq<byte>
    var written: seq<int>

    function State(): Msc
      reads this
    {
      Msc(scsiState, Xfer(requests, pendingTransmits), sense, csw, stream, media, commandBuffer, written)
    }

    predicate Valid()
      reads this
    {
      WellFormed(State())
    }

    /** Construction followed by init(): zeroed static buffers, nothing queued,
        the card as found. */
    constructor (card: Media)
      requires IsU32(card.size)
      ensures Valid()
      ensures State() == ResetScsiStateStep(Msc(Idle, Xfer([], 0), Sense(0, 0, 0), Csw(0, 0, 0, 0),
                                                Stream(0, 0, 0, 0, 0, 0, false, Slot(0, 0), Slot(0, 0)),
                                                card, seq(COMMAND_BUFFER_SIZE, _ => 0), []))
    {
      scsiState := Idle;
      requests := [];
      pendingTransmits := 0;
      sense := Sense(0, 0, 0);
      csw := Csw(0, 0, 0, 0);
      stream := Stream(0, 0, 0, 0, 0, 0, false, Slot(0, 0), Slot(0, 0));
      media := card;
      commandBuffer := seq(COMMAND_BUFFER_SIZE, _ => 0);
      written := [];
      new;
      ResetScsiState();
    }

    /** setupRequest on a bulk endpoint, counting an IN transfer in mPendingTransmits. */
    method SetupRequest(q: Request)
      modifies this
      ensures State() == Queue(old(State()), q)
    {
      requests := requests + [q];
      if q.InRequest? {
        pendingTransmits := pendingTransmits + 1;
      }
    }

    method ResetScsiState()
      modifies this
      ensures State() == ResetScsiStateStep(old(State()))
    {
      sense := Sense(SCSI_RS_VALID_CUR_ERRORS, SCSI_RS_KEY_NOT_READY, SCSI_ASC_MED_NOT_PRSNT);
      csw := Csw(CSW_SIGNATURE, 0, 0, 0);
      scsiState := Idle;
      pendingTransmits := 0;
    }

    method ReceiveCbw()
      modifies this
      ensures State() == ReceiveCbwStep(old(State()))
    {
      SetupRequest(OutRequest(DATA_OUT_ENDPOINT, CommandBuffer, MAX_TRANSFER_SIZE));
      scsiState := Idle;
    }

    method SendCsw()
      requires CswValues(csw)
      modifies this
      ensures State() == SendCswStep(old(State()))
    {
      SetupRequest(InRequest(DATA_IN_ENDPOINT, CswBuffer, Bytes(EncodeCsw(csw))));
      scsiState := SentStatus;
    }

    method ReceiveBlocks()
      requires CswValues(csw)
      modifies this
      ensures State() == ReceiveBlocksStep(old(State()))
    {
      ghost var s0 := State();
      written := written + [stream.currentLba];
      stream := stream.(blocksToReceive := Wrap32(stream.blocksToReceive - 1),
                        currentLba := Wrap32(stream.currentLba + 1));
      assert State() == s0.(written := s0.written + [s0.stream.currentLba],
                            stream := s0.stream.(blocksToReceive := Wrap32(s0.stream.blocksToReceive - 1),
                                                 currentLba := Wrap32(s0.stream.currentLba + 1)));
      if stream.blocksToReceive == 0 {
        csw := csw.(status := 0, dataResidue := 0);
        SendCsw();
      } else {
        SetupRequest(OutRequest(DATA_OUT_ENDPOINT, Ping, MAX_TRANSFER_SIZE));
      }
    }

    method ReadPingPong(readOk: bool) returns (ok: bool)
      requires StreamValues(stream)
      modifies this
      ensures (State(), ok) == ReadPingPongStep(old(State()), readOk)
    {
      var n := stream.blocksToRead;
      if stream.readAhead > BLOCK_READ_AHEAD {
        stream := stream.(readAhead := BLOCK_READ_AHEAD);
      }
      if stream.readAhead < n {
        n := stream.readAhead;
      }
      if !readOk {
        return false;
      }
      if stream.pingPong {
        stream := stream.(ping := Slot(stream.currentLba, n));
      } else {
        stream := stream.(pong := Slot(stream.currentLba, n));
      }
      stream := stream.(currentLba := Wrap32(stream.currentLba + n), blocksToRead := stream.blocksToRead - n,
                        readAhead := Wrap32(stream.readAhead + stream.readAheadGrowth));
      return true;
    }

    method SendPingPong()
      modifies this
      ensures State() == SendPingPongStep(old(State()))
    {
      if stream.pingPong {
        SetupRequest(InRequest(DATA_IN_ENDPOINT, Ping, Blocks(stream.ping.lba, stream.ping.size)));
        stream := stream.(blocksToSend := Wrap32(stream.blocksToSend - stream.ping.size), pingPong := false);
      } else {
        SetupRequest(InRequest(DATA_IN_ENDPOINT, Pong, Blocks(stream.pong.lba, stream.pong.size)));
        stream := stream.(blocksToSend := Wrap32(stream.blocksToSend - stream.pong.size), pingPong := true);
      }
    }

    method SendBlocks(readOk: bool)
      requires CswValues(csw) && StreamValues(stream)
      modifies this
      ensures State() == SendBlocksStep(old(State()), readOk)
    {
      if stream.blocksToSend > 0 {
        SendPingPong();
      } else {
        csw := csw.(status := 0, dataResidue := 0);
        SendCsw();
        return;
      }
      if stream.blocksToRead > 0 {
        var _ := ReadPingPong(readOk);
      }
    }

    method IsCardConnected() returns (connected: bool)
      modifies this
      ensures (State(), connected) == ConnectedCheck(old(State()))
    {
      if media.mode == Raw {
        media := media.(inhibitCardConnect := false);
        return true;
      }
      return false;
    }

    method OnDisconnect()
      modifies this
      ensures State() == OnDisconnectStep(old(State()))
    {
      var connected := IsCardConnected();
      if connected {
        media := media.(mode := NotConnected);
      }
    }
  
    /** One of the byte-copy loops of scsiInquiry: `str` copied into gCommandBuffer at `offset`. */
    method CopyToCommandBuffer(offset: nat, str: seq<byte>)
      requires offset + |str| <= |commandBuffer|
      modifies this
      ensures State() == old(State()).(commandBuffer :=
                old(commandBuffer)[..offset] + str + old(commandBuffer)[offset + |str|..])
    {
      var i := 0;
      while i < |str|
        invariant 0 <= i <= |str| && |commandBuffer| == |old(commandBuffer)|
        invariant commandBuffer == old(commandBuffer)[..offset] + str[..i] + old(commandBuffer)[offset + i..]
        invariant State() == old(State()).(commandBuffer := commandBuffer)
      {
        commandBuffer := commandBuffer[offset + i := str[i]];
        i := i + 1;
      }
      assert str[..i] == str;
    }

    /** Queues `data`, already in gCommandBuffer, on the bulk IN endpoint. */
    method QueueResponse(data: seq<byte>)
      requires |data| <= |commandBuffer|
      requires commandBuffer[..|data|] == data
      modifies this
      ensures State() == Respond(old(State()), data)
    {
      SetupRequest(InRequest(DATA_IN_ENDPOINT, CommandBuffer, Bytes(data)));
    }

    /** The failure answer of the media-access commands. */
    method FailNoMedium()
      modifies this
      ensures State() == NoMedium(old(State()))
    {
      csw := csw.(status := 1, dataResidue := 0);
      sense := Sense(SCSI_RS_VALID_CUR_ERRORS, SCSI_RS_KEY_NOT_READY, SCSI_ASC_MED_NOT_PRSNT);
      scsiState := SendStatus;
    }

    method ScsiInquiry()
      requires Valid()
      modifies this
      ensures State() == ScsiInquiryStep(old(State()))
    {
      ghost var s0 := State();
      ghost var b := commandBuffer;
      commandBuffer := InquiryHeader() + commandBuffer[8..];
      assert commandBuffer == Overlay(b, InquiryHeader());
      CopyToCommandBuffer(8, INQUIRY_VENDOR);
      OverlayGrows(InquiryHeader(), INQUIRY_VENDOR, b);
      CopyToCommandBuffer(16, INQUIRY_PRODUCT);
      OverlayGrows(InquiryHeader() + INQUIRY_VENDOR, INQUIRY_PRODUCT, b);
      CopyToCommandBuffer(32, INQUIRY_VERSION);
      OverlayGrows(InquiryHeader() + INQUIRY_VENDOR + INQUIRY_PRODUCT, INQUIRY_VERSION, b);
      assert commandBuffer == Overlay(b, InquiryResponse());
      QueueResponse(InquiryResponse());
      assert State() == Respond(s0, InquiryResponse());
      csw := csw.(status := 0, dataResidue := 0);
      scsiState := SendStatus;
    }
  
    method ScsiTestUnitReady(io: CardIo)
      requires Valid()
      modifies this
      ensures State() == ScsiTestUnitReadyStep(old(State()), io)
    {
      csw := csw.(dataResidue := 0, status := 1);
      if media.present {
        if media.inhibitCardConnect {
          if media.mode == FatFs {
            media := media.(inhibitCardConnect := false);
          }
        } else if media.mode == NotConnected && io.connectOk {
          media := media.(mode := Raw);
        }
        var connected := IsCardConnected();
        if connected {
          csw := csw.(status := 0);
        }
      } else if media.inhibitCardConnect {
        media := media.(inhibitCardConnect := false);
      }
    }

    method ScsiStartStopUnit(cbw: Cbw, io: CardIo)
      requires Valid() && CbwValues(cbw)
      modifies this
      ensures State() == ScsiStartStopUnitStep(old(State()), cbw, io)
    {
      var loadEject := LoadEject(cbw.cb[4]);
      var start := StartBit(cbw.cb[4]);
      csw := csw.(dataResidue := 0);
      if loadEject {
        if start {
          media := media.(inhibitCardConnect := false);
          var connected := IsCardConnected();
          if !connected && io.connectOk {
            media := media.(mode := Raw);
          }
          connected := IsCardConnected();
          csw := csw.(status := CswStatus(connected));
        } else {
          var connected := IsCardConnected();
          if connected {
            media := media.(mode := NotConnected, inhibitCardConnect := true);
          }
          connected := IsCardConnected();
          csw := csw.(status := CswStatus(!connected));
        }
      }
    }

    method ScsiUnsupportedCommand(cbw: Cbw)
      requires Valid() && CbwValues(cbw)
      modifies this
      ensures State() == ScsiUnsupportedCommandStep(old(State()), cbw)
    {
      scsiState := Idle;
      csw := csw.(status := 1, dataResidue := cbw.dataTransferLength);
      if cbw.dataTransferLength != 0 {
        scsiState := SendStatus;
      }
      sense := Sense(SCSI_RS_VALID_CUR_ERRORS, SCSI_RS_KEY_ILGL_RQST, SCSI_ASC_PARAMETER_VALUE_INVALID);
    }

    method ScsiReadFormatCapacities()
      requires Valid()
      modifies this
      ensures State() == ScsiReadFormatCapacitiesStep(old(State()))
    {
      var connected := IsCardConnected();
      if connected {
        var response := ReadFormatCapacitiesResponse(media.size);
        commandBuffer := Overlay(commandBuffer, response);
        QueueResponse(response);
        csw := csw.(status := 0, dataResidue := 0);
      } else {
        FailNoMedium();
      }
      scsiState := SendStatus;
    }

    method ScsiReadCapacity()
      requires Valid()
      modifies this
      ensures State() == ScsiReadCapacityStep(old(State()))
    {
      var connected := IsCardConnected();
      if connected {
        var response := ReadCapacityResponse(media.size);
        commandBuffer := Overlay(commandBuffer, response);
        QueueResponse(response);
        csw := csw.(status := 0, dataResidue := 0);
      } else {
        FailNoMedium();
      }
      scsiState := SendStatus;
    }

    method ScsiRequestSense()
      requires Valid()
      modifies this
      ensures State() == ScsiRequestSenseStep(old(State()))
    {
      var response := RequestSenseResponse(sense.errorCode, sense.senseKey, sense.addSenseCode);
      commandBuffer := Overlay(commandBuffer, response);
      QueueResponse(response);
      sense := sense.(errorCode := SCSI_RS_CUR_ERRORS);
      csw := csw.(status := 0, dataResidue := 0);
      scsiState := SendStatus;
    }

    method StartReading(cbw: Cbw, io: CardIo)
      requires Valid() && CbwValues(cbw)
      modifies this
      ensures State() == Read10FirstRead(old(State()), cbw, io)
    {
      var connected := IsCardConnected();
      if connected {
        stream := StartRead(stream, CdbLba(cbw.cb), CdbBlockCount(cbw.cb));
        var ok := ReadPingPong(io.readOk);
        if !ok {
          media := media.(mode := NotConnected);
        }
      }
    }

    method TransferRead(blockCount: int, io: CardIo)
      requires Valid() && IsU32(blockCount)
      modifies this
      ensures State() == Read10Transfer(old(State()), blockCount, io)
    {
      var connected := IsCardConnected();
      if connected {
        stream := stream.(blocksToSend := blockCount);
        SendPingPong();
        scsiState := ScsiState.SendBlocks;
        if stream.blocksToRead > 0 {
          var _ := ReadPingPong(io.readAheadOk);
        }
      } else {
        FailNoMedium();
      }
    }

    method ScsiRead10(cbw: Cbw, io: CardIo)
      requires Valid() && CbwValues(cbw)
      modifies this
      ensures State() == ScsiRead10Step(old(State()), cbw, io)
    {
      var blockCount := if media.mode == Raw then CdbBlockCount(cbw.cb) else 0;
      StartReading(cbw, io);
      TransferRead(blockCount, io);
    }

    method ScsiWrite10(cbw: Cbw)
      requires Valid() && CbwValues(cbw)
      modifies this
      ensures State() == ScsiWrite10Step(old(State()), cbw)
    {
      var connected := IsCardConnected();
      if connected {
        stream := stream.(currentLba := CdbLba(cbw.cb), blocksToReceive := CdbBlockCount(cbw.cb));
        SetupRequest(OutRequest(DATA_OUT_ENDPOINT, Ping, DEVICE_BLOCK_SIZE));
        scsiState := ScsiState.ReceiveBlocks;
      } else {
        FailNoMedium();
      }
    }

    method ScsiModeSense6(cbw: Cbw)
      requires Valid() && CbwValues(cbw)
      modifies this
      ensures State() == ScsiModeSense6Step(old(State()), cbw)
    {
      var connected := IsCardConnected();
      if connected {
        commandBuffer := Overlay(commandBuffer, ModeSense6Response());
        QueueResponse(ModeSense6Response());
        csw := csw.(status := 0, dataResidue := ModeSense6Residue(cbw.dataTransferLength));
      } else {
        FailNoMedium();
      }
      scsiState := SendStatus;
    }
  
    /** The command switch of scsiHandleCommand. */
    method Dispatch(cbw: Cbw, io: CardIo)
      requires Valid() && CbwValues(cbw)
      modifies this
      ensures State() == DispatchStep(old(State()), cbw, io)
    {
      var op := cbw.cb[0];
      if op == SCSI_INQUIRY_CMD {
        ScsiInquiry();
      } else if op == SCSI_TEST_UNIT_READY {
        ScsiTestUnitReady(io);
      } else if op == SCSI_READ_FORMAT_CAPACITIES {
        ScsiReadFormatCapacities();
      } else if op == SCSI_READ_CAPACITY {
        ScsiReadCapacity();
      } else if op == SCSI_REQUEST_SENSE {
        ScsiRequestSense();
      } else if op == SCSI_READ_10 {
        ScsiRead10(cbw, io);
      } else if op == SCSI_WRITE_10 {
        ScsiWrite10(cbw);
      } else if op == SCSI_MODE_SENSE_6 {
        ScsiModeSense6(cbw);
      } else if op == SCSI_START_STOP_UNIT {
        ScsiStartStopUnit(cbw, io);
      } else if op == SCSI_VERIFY_10 {
        csw := csw.(dataResidue := cbw.dataTransferLength);
        scsiState := SendStatus;
      } else if op == SCSI_REASSIGN_BLOCKS || op == SCSI_PREVENT_ALLOW_MEDIUM_REMOVAL {
        if op == SCSI_REASSIGN_BLOCKS {
          ScsiUnsupportedCommand(cbw);
        }
        media := media.(allowMediumRemoval := !PreventRemovalAsWritten(cbw.cb[4]));
      } else {
        ScsiUnsupportedCommand(cbw);
      }
    }

    method ScsiHandleCommand(io: CardIo) returns (ok: bool)
      requires Valid()
      modifies this
      ensures (State(), ok) == ScsiHandleCommandStep(old(State()), io)
    {
      var cbw := DecodeCbw(commandBuffer);
      if cbw.signature != CBW_SIGNATURE {
        return false;
      }
      csw := csw.(tag := cbw.tag, dataResidue := 0, status := 0);
      var transferLength := cbw.dataTransferLength;
      Dispatch(cbw, io);
      if transferLength == 0 || scsiState == SendStatus {
        SendCsw();
      }
      return true;
    }

    method DataInComplete(io: CardIo)
      requires Valid()
      modifies this
      ensures State() == DataInStep(old(State()), io)
    {
      if pendingTransmits > 0 {
        pendingTransmits := pendingTransmits - 1;
      }
      match scsiState {
        case SendBlocks => SendBlocks(io.readOk);
        case SendStatus => SendCsw();
        case SentStatus => ReceiveCbw();
        case _ =>
      }
    }

    method DataOutComplete(outData: seq<byte>, io: CardIo)
      requires Valid() && |outData| <= MAX_TRANSFER_SIZE
      modifies this
      ensures State() == DataOutStep(old(State()), outData, io)
    {
      match scsiState {
        case ReceiveBlocks => ReceiveBlocks();
        case Idle =>
          commandBuffer := Overlay(commandBuffer, outData);
          var ok := ScsiHandleCommand(io);
          if !ok {
            scsiState := Idle;
          }
        case _ =>
      }
    }

    method HandleEndpoints(ev: UsbEvent, outData: seq<byte>, io: CardIo)
      requires Valid() && |outData| <= MAX_TRANSFER_SIZE
      modifies this
      ensures State() == HandleEndpointsStep(old(State()), ev, outData, io)
      ensures Valid()
    {
      match ev
      case DataInComplete => DataInComplete(io);
      case DataOutComplete => DataOutComplete(outData, io);
      case OtherEvent =>
    }
  }
}
