/*
 * Descriptor handling of the USB device controller class: copying the
 * device, configuration and string descriptors into the EP0 buffer,
 * walking a configuration's descriptor list, looking up interfaces and
 * endpoints, and sizing and placing the endpoint FIFOs.
 *
 * A configuration is held as the byte image of its descriptor list,
 * starting with the configuration descriptor (section 9.6.3 of the USB 2.0
 * specification). The C walk stops only at a header whose length or type
 * is zero; the model reads every byte past the end of an image as zero,
 * that is, each image is followed by such a terminating header.
 */
module UsbDescriptors {

  import opened Word32

  datatype Option<T> = None | Some(value: T)

  datatype Direction = In | Out

  // ---------------------------------------------------------------------
  // Constants
  // ---------------------------------------------------------------------

  const USB_DTYPE_STRING: byte := 3
  const USB_DTYPE_INTERFACE: byte := 4
  const USB_DTYPE_ENDPOINT: byte := 5

  const USB_LANG_EN_US: int := 0x0409

  /** Bit 7 of bEndpointAddress marks an IN endpoint; bits 3:0 are its number. */
  const USB_EP_DESC_IN: int := 0x80
  const USB_EP_DESC_NUM_M: int := 0x0f
  /** wMaxPacketSize bits 10:0 are the packet size. */
  const USB_EP_MAX_PACKET_COUNT_M: int := 0x07FF

  /** Size of the control endpoint's packets and FIFO (assumed value). */
  const MAX_PACKET_SIZE_EP0: nat := 64

  /** Endpoints of the controller including EP0 (assumed equal to USBLIB_NUM_EP). */
  const NUM_USB_EP: nat := 16

  /** Size codes USB_FIFO_SZ_8 .. USB_FIFO_SZ_8192 are 0 .. 10; 0x10 marks a double-buffered FIFO. */
  const USB_FIFO_SZ_8: nat := 0
  const USB_FIFO_SZ_8192: nat := 10
  const USB_FIFO_SIZE_DB_FLAG: nat := 0x10

  // ---------------------------------------------------------------------
  // Byte images
  // ---------------------------------------------------------------------

  /** The byte at offset `i`; zero past the end of the image. */
  function At(b: seq<byte>, i: nat): byte
  {
    if i < |b| then b[i] else 0
  }

  /** The first `n` bytes read from `src` (zero past its end). */
  function Prefix(src: seq<byte>, n: nat): (r: seq<byte>)
    ensures |r| == n
    ensures forall i :: 0 <= i < n ==> r[i] == At(src, i)
  {
    seq(n, i requires 0 <= i < n => At(src, i))
  }

  /** Little-endian 16-bit field at offset `i`. */
  function Word16At(b: seq<byte>, i: nat): (r: nat)
    ensures r < 0x1_0000
  {
    At(b, i) + 256 * At(b, i + 1)
  }

  // Configuration descriptor fields (USB 2.0, section 9.6.3).
  function TotalLength(config: seq<byte>): nat { Word16At(config, 2) }
  function NumInterfaces(config: seq<byte>): byte { At(config, 4) }
  function ConfigurationValue(config: seq<byte>): byte { At(config, 5) }

  // Interface descriptor fields (USB 2.0, section 9.6.5), at offset `o`.
  function InterfaceNumber(b: seq<byte>, o: nat): byte { At(b, o + 2) }
  function AlternateSetting(b: seq<byte>, o: nat): byte { At(b, o + 3) }
  function NumEndpoints(b: seq<byte>, o: nat): byte { At(b, o + 4) }

  // Endpoint descriptor fields (USB 2.0, section 9.6.6), at offset `o`.
  function EndpointNumber(b: seq<byte>, o: nat): nat { At(b, o + 2) % (USB_EP_DESC_NUM_M + 1) }
  function EndpointDirection(b: seq<byte>, o: nat): Direction
  {
    if At(b, o + 2) >= USB_EP_DESC_IN then In else Out
  }
  function TransferType(b: seq<byte>, o: nat): nat { At(b, o + 3) % 4 }
  function MaxPacketSize(b: seq<byte>, o: nat): (r: nat)
    ensures r <= USB_EP_MAX_PACKET_COUNT_M
  {
    Word16At(b, o + 4) % (USB_EP_MAX_PACKET_COUNT_M + 1)
  }

  predicate IsEndpoint(b: seq<byte>, o: nat) { At(b, o + 1) == USB_DTYPE_ENDPOINT }

  // ---------------------------------------------------------------------
  // safeCopy and the descriptor copies
  // ---------------------------------------------------------------------

  /**
   * The count `safeCopy` returns: with a destination, 0 when the source
   * does not fit in `dstN` bytes and `srcN` otherwise; without one, `srcN`.
   */
  function CopyLength(hasDst: bool, dstN: nat, srcN: nat): (r: nat)
    ensures r == 0 || r == srcN
    ensures hasDst ==> r <= dstN
    ensures r == srcN <==> !hasDst || srcN <= dstN
  {
    if hasDst && srcN > dstN then 0 else srcN
  }

  /** `buf` with its first `n` bytes replaced by those of `src`. */
  function CopiedInto(buf: seq<byte>, src: seq<byte>, n: nat): (r: seq<byte>)
    requires n <= |buf|
    ensures |r| == |buf|
    ensures r[..n] == Prefix(src, n) && r[n..] == buf[n..]
  {
    Prefix(src, n) + buf[n..]
  }

  /**
   * `safeCopy`: copies `srcN` bytes of `src` into `dst` when they fit in
   * `dstN`; a null destination only measures.
   */
  method SafeCopy(dst: array?<byte>, dstN: nat, src: seq<byte>, srcN: nat) returns (n: nat)
    requires dst != null ==> dstN <= dst.Length
    modifies dst
    ensures n == CopyLength(dst != null, dstN, srcN)
    ensures dst != null ==> dst[..] == CopiedInto(old(dst[..]), src, n)
  {
    if dst != null {
      if srcN > dstN {
        return 0;
      }
      forall i | 0 <= i < srcN {
        dst[i] := At(src, i);
      }
    }
    return srcN;
  }

  /** `copyDeviceDescriptor`: copies `bLength` bytes of the device descriptor, if there is one. */
  method CopyDeviceDescriptor(device: Option<seq<byte>>, buffer: array?<byte>, bufferLength: nat)
    returns (n: nat)
    requires buffer != null ==> bufferLength <= buffer.Length
    modifies buffer
    ensures n == if device.None? then 0 else CopyLength(buffer != null, bufferLength, At(device.value, 0))
    ensures buffer != null ==> buffer[..] == CopiedInto(old(buffer[..]), if device.None? then [] else device.value, n)
  {
    if device.None? {
      return 0;
    }
    n := SafeCopy(buffer, bufferLength, device.value, At(device.value, 0));
  }

  /** `getConfigurationDescriptorByIndex`: the table entry at `index`, if it exists. */
  function ConfigurationByIndex(table: seq<seq<byte>>, index: nat): (r: Option<nat>)
    ensures r.Some? <==> index < |table|
    ensures r.Some? ==> r.value == index
  {
    if index < |table| then Some(index) else None
  }

  /** `copyConfigurationDescriptor`: copies `wTotalLength` bytes of the configuration at `index`. */
  method CopyConfigurationDescriptor(table: seq<seq<byte>>, index: nat, buffer: array?<byte>, bufferLength: nat)
    returns (n: nat)
    requires buffer != null ==> bufferLength <= buffer.Length
    modifies buffer
    ensures n == if index < |table| then CopyLength(buffer != null, bufferLength, TotalLength(table[index])) else 0
    ensures buffer != null ==> buffer[..] == CopiedInto(old(buffer[..]), if index < |table| then table[index] else [], n)
  {
    var config := ConfigurationByIndex(table, index);
    if config.Some? {
      n := SafeCopy(buffer, bufferLength, table[config.value], TotalLength(table[config.value]));
    } else {
      n := 0;
    }
  }

  /** First table entry at or after `i` whose bConfigurationValue is `value`. */
  function ConfigurationFrom(table: seq<seq<byte>>, value: int, i: nat): (r: Option<nat>)
    requires i <= |table|
    ensures r.Some? ==> i <= r.value < |table| && ConfigurationValue(table[r.value]) == value
    ensures forall j :: i <= j < |table| && (r.None? || j < r.value) ==> ConfigurationValue(table[j]) != value
    decreases |table| - i
  {
    if i == |table| then None
    else if ConfigurationValue(table[i]) == value then Some(i)
    else ConfigurationFrom(table, value, i + 1)
  }

  /** The first configuration whose bConfigurationValue is `value`. */
  function ConfigurationByValue(table: seq<seq<byte>>, value: int): Option<nat>
  {
    ConfigurationFrom(table, value, 0)
  }

  /** `getConfigurationDescriptorByValue`: a linear search of the configuration table. */
  method GetConfigurationDescriptorByValue(table: seq<seq<byte>>, value: int) returns (r: Option<nat>)
    ensures r == ConfigurationByValue(table, value)
  {
    var i := 0;
    while i < |table|
      invariant 0 <= i <= |table|
      invariant ConfigurationFrom(table, value, i) == ConfigurationByValue(table, value)
    {
      if ConfigurationValue(table[i]) == value {
        return Some(i);
      }
      i := i + 1;
    }
    return None;
  }

  // ---------------------------------------------------------------------
  // String descriptors
  // ---------------------------------------------------------------------

  /** The language-ID descriptor returned for index 0: English (United States). */
  const LANGUAGE_DESCRIPTOR: seq<byte> := [4, USB_DTYPE_STRING, 0x09, 0x04]

  /** UTF-16LE form of a string whose characters are bytes. */
  function Utf16(text: seq<byte>): (r: seq<byte>)
    ensures |r| == 2 * |text|
  {
    if text == [] then [] else [text[0], 0] + Utf16(text[1..])
  }

  /** Reads back the low byte of every UTF-16 code unit. */
  function FromUtf16(units: seq<byte>): (r: seq<byte>)
    ensures |r| == |units| / 2
  {
    if |units| < 2 then [] else [units[0]] + FromUtf16(units[2..])
  }

  lemma {:induction false} Utf16RoundTrip(text: seq<byte>)
    ensures FromUtf16(Utf16(text)) == text
  {
    if text != [] {
      Utf16RoundTrip(text[1..]);
      assert Utf16(text)[2..] == Utf16(text[1..]);
    }
  }

  lemma {:induction false} Utf16Append(text: seq<byte>, c: byte)
    ensures Utf16(text + [c]) == Utf16(text) + [c, 0]
  {
    if text != [] {
      assert (text + [c])[1..] == text[1..] + [c];
      Utf16Append(text[1..], c);
    } else {
      assert Utf16([c]) == [c, 0] + Utf16([]);
    }
  }

  lemma {:induction false} Utf16Units(text: seq<byte>, k: nat)
    requires k < |text|
    ensures Utf16(text)[2 * k] == text[k] && Utf16(text)[2 * k + 1] == 0
  {
    if k > 0 {
      Utf16Units(text[1..], k - 1);
    }
  }

  /**
   * What `copyStringDescriptor` returns, and the bytes it writes at the
   * front of the buffer (none when it writes nothing).
   */
  function StringDescriptor(strings: seq<seq<byte>>, index: nat, bufferLength: nat): (nat, seq<byte>)
  {
    if index == 0 then
      var n := CopyLength(true, bufferLength, |LANGUAGE_DESCRIPTOR|);
      (n, LANGUAGE_DESCRIPTOR[..n])
    else if index - 1 < |strings| then
      var text := strings[index - 1];
      var n := 2 * |text| + 2;
      if n > bufferLength then (n, [])
      else (n, [n % 256, USB_DTYPE_STRING] + Utf16(text))
    else
      (0, [])
  }

  /**
   * String index i >= 1 yields n = 2*len+2 and the bytes [n, 3, c0, 0, c1, 0, ...],
   * nothing written when n exceeds the buffer; index 0 yields the language
   * descriptor; an index past the table yields 0.
   */
  lemma StringDescriptorContents(strings: seq<seq<byte>>, index: nat, bufferLength: nat)
    ensures var (n, written) := StringDescriptor(strings, index, bufferLength);
      |written| <= bufferLength &&
      (index == 0 ==>
         (bufferLength >= 4 ==> n == 4 && written == [4, 3, 0x09, 0x04]) &&
         (bufferLength < 4 ==> n == 0 && written == [])) &&
      (1 <= index <= |strings| ==>
         n == 2 * |strings[index - 1]| + 2 &&
         (n > bufferLength ==> written == []) &&
         (n <= bufferLength ==>
            |written| == n && written[0] == n % 256 && written[1] == USB_DTYPE_STRING &&
            FromUtf16(written[2..]) == strings[index - 1])) &&
      (index > |strings| && index != 0 ==> n == 0 && written == [])
  {
    if 1 <= index <= |strings| {
      var text := strings[index - 1];
      var n := 2 * |text| + 2;
      if n <= bufferLength {
        var written := [n % 256, USB_DTYPE_STRING] + Utf16(text);
        assert written[2..] == Utf16(text);
        Utf16RoundTrip(text);
      }
    }
  }

  /** Every UTF-16 unit written holds one character in its low byte and zero in its high byte. */
  lemma StringDescriptorUnits(strings: seq<seq<byte>>, index: nat, bufferLength: nat, k: nat)
    requires 1 <= index <= |strings| && k < |strings[index - 1]|
    requires 2 * |strings[index - 1]| + 2 <= bufferLength
    ensures var written := StringDescriptor(strings, index, bufferLength).1;
      written[2 + 2 * k] == strings[index - 1][k] && written[3 + 2 * k] == 0
  {
    Utf16Units(strings[index - 1], k);
  }

  /** `buf` with `data` written over it from offset `start`. */
  function PutAt(buf: seq<byte>, start: nat, data: seq<byte>): (r: seq<byte>)
    requires start + |data| <= |buf|
    ensures |r| == |buf|
    ensures forall i :: 0 <= i < |buf| ==> r[i] == if start <= i < start + |data| then data[i - start] else buf[i]
  {
    buf[..start] + data + buf[start + |data|..]
  }

  /** The character loop of `copyStringDescriptor`: each byte followed by a zero byte. */
  method PutUtf16(buffer: array<byte>, start: nat, text: seq<byte>)
    requires start + 2 * |text| <= buffer.Length
    modifies buffer
    ensures buffer[..] == PutAt(old(buffer[..]), start, Utf16(text))
  {
    var k := 0;
    while k < |text|
      invariant 0 <= k <= |text|
      invariant forall i :: 0 <= i < buffer.Length ==>
        buffer[i] == if start <= i < start + 2 * k then Utf16(text)[i - start] else old(buffer[i])
    {
      Utf16Units(text, k);
      buffer[start + 2 * k] := text[k];
      buffer[start + 2 * k + 1] := 0;
      k := k + 1;
    }
  }

  /** `copyStringDescriptor`: writes the header, then the UTF-16 characters. */
  method CopyStringDescriptor(strings: seq<seq<byte>>, index: nat, buffer: array<byte>, bufferLength: nat)
    returns (n: nat)
    requires bufferLength <= buffer.Length
    modifies buffer
    ensures var (m, written) := StringDescriptor(strings, index, bufferLength);
      n == m && |written| <= buffer.Length && buffer[..] == PutAt(old(buffer[..]), 0, written)
  {
    if index == 0 {
      n := SafeCopy(buffer, bufferLength, LANGUAGE_DESCRIPTOR, |LANGUAGE_DESCRIPTOR|);
      return;
    }
    var i := index - 1;
    if i < |strings| {
      var text := strings[i];
      n := 2 * |text| + 2;
      if n > bufferLength {
        return;
      }
      buffer[0] := n % 256;
      buffer[1] := USB_DTYPE_STRING;
      PutUtf16(buffer, 2, text);
      return;
    }
    n := 0;
  }

  // ---------------------------------------------------------------------
  // Walking a configuration
  // ---------------------------------------------------------------------

  /**
   * `nextDescriptor`: the descriptor `bLength` bytes after the one at
   * `pos`, unless that header's length or type is zero.
   */
  function NextDescriptor(b: seq<byte>, pos: nat): (r: Option<nat>)
    ensures r.Some? <==> At(b, pos + At(b, pos)) > 0 && At(b, pos + At(b, pos) + 1) > 0
    ensures r.Some? ==> r.value == pos + At(b, pos) && pos < r.value < |b|
  {
    var p := pos + At(b, pos);
    if At(b, p) > 0 && At(b, p + 1) > 0 then Some(p) else None
  }

  /** Offsets of the descriptors a walk visits, starting after the one at `pos`, in order. */
  function Walk(b: seq<byte>, pos: nat): (r: seq<nat>)
    ensures forall k :: 0 <= k < |r| ==> pos < r[k] < |b|
    decreases |b| - pos
  {
    match NextDescriptor(b, pos)
    case None => []
    case Some(p) => [p] + Walk(b, p)
  }

  predicate IsInterface(b: seq<byte>, o: nat, interfaceId: int, alternate: int)
  {
    At(b, o + 1) == USB_DTYPE_INTERFACE && InterfaceNumber(b, o) == interfaceId && AlternateSetting(b, o) == alternate
  }

  /** The first interface descriptor after `pos` with the given number and alternate setting. */
  function InterfaceAfter(b: seq<byte>, pos: nat, interfaceId: int, alternate: int): Option<nat>
    decreases |b| - pos
  {
    match NextDescriptor(b, pos)
    case None => None
    case Some(p) => if IsInterface(b, p, interfaceId, alternate) then Some(p) else InterfaceAfter(b, p, interfaceId, alternate)
  }

  /** The interface lookup finds the first matching descriptor of the walk, and none when no descriptor matches. */
  lemma {:induction false} InterfaceAfterIsFirstMatch(b: seq<byte>, pos: nat, interfaceId: int, alternate: int)
    ensures var w := Walk(b, pos); var r := InterfaceAfter(b, pos, interfaceId, alternate);
      (r.Some? ==> r.value in w && IsInterface(b, r.value, interfaceId, alternate)) &&
      (forall q :: q in w && (r.None? || q < r.value) ==> !IsInterface(b, q, interfaceId, alternate))
    decreases |b| - pos
  {
    match NextDescriptor(b, pos)
    case None =>
    case Some(p) =>
      if !IsInterface(b, p, interfaceId, alternate) {
        InterfaceAfterIsFirstMatch(b, p, interfaceId, alternate);
      }
  }

  /** `getInterfaceDescriptor`: walks the configuration for the interface and alternate setting. */
  method GetInterfaceDescriptor(config: Option<seq<byte>>, interfaceId: int, alternate: int) returns (r: Option<nat>)
    ensures r == if config.None? then None else InterfaceAfter(config.value, 0, interfaceId, alternate)
  {
    if config.None? {
      return None;
    }
    var b := config.value;
    var ptr := NextDescriptor(b, 0);
    while ptr.Some?
      invariant ptr.Some? ==> ptr.value < |b|
      invariant ptr.Some? ==>
        InterfaceAfter(b, 0, interfaceId, alternate) ==
          if IsInterface(b, ptr.value, interfaceId, alternate) then ptr else InterfaceAfter(b, ptr.value, interfaceId, alternate)
      invariant ptr.None? ==> InterfaceAfter(b, 0, interfaceId, alternate) == None
      decreases if ptr.Some? then |b| - ptr.value else 0
    {
      if IsInterface(b, ptr.value, interfaceId, alternate) {
        return ptr;
      }
      ptr := NextDescriptor(b, ptr.value);
    }
    return None;
  }

  /** The `k`-th (from zero) endpoint descriptor after `pos`. */
  function EndpointAfter(b: seq<byte>, pos: nat, k: nat): Option<nat>
    decreases |b| - pos
  {
    match NextDescriptor(b, pos)
    case None => None
    case Some(p) =>
      if IsEndpoint(b, p) then (if k == 0 then Some(p) else EndpointAfter(b, p, k - 1))
      else EndpointAfter(b, p, k)
  }

  /** The endpoint descriptors among the offsets `w`, in order. */
  function Endpoints(b: seq<byte>, w: seq<nat>): (r: seq<nat>)
    ensures forall q :: q in r ==> q in w && IsEndpoint(b, q)
  {
    if w == [] then []
    else if IsEndpoint(b, w[0]) then [w[0]] + Endpoints(b, w[1..])
    else Endpoints(b, w[1..])
  }

  /** The endpoint lookup returns the k-th endpoint descriptor of the walk, if there are more than k. */
  lemma {:induction false} EndpointAfterIsKth(b: seq<byte>, pos: nat, k: nat)
    ensures var e := Endpoints(b, Walk(b, pos));
      EndpointAfter(b, pos, k) == if k < |e| then Some(e[k]) else None
    decreases |b| - pos
  {
    match NextDescriptor(b, pos)
    case None =>
    case Some(p) =>
      var w := Walk(b, pos);
      assert w[0] == p && w[1..] == Walk(b, p);
      if IsEndpoint(b, p) {
        if k > 0 {
          EndpointAfterIsKth(b, p, k - 1);
        }
      } else {
        EndpointAfterIsKth(b, p, k);
      }
  }

  /** `getEndpointDescriptor`: the k-th endpoint after the interface at `ifPos`, only when k < bNumEndpoints. */
  function EndpointOf(b: seq<byte>, ifPos: Option<nat>, k: nat): Option<nat>
  {
    if ifPos.Some? && k < NumEndpoints(b, ifPos.value) then EndpointAfter(b, ifPos.value, k) else None
  }

  method GetEndpointDescriptor(b: seq<byte>, ifPos: Option<nat>, endpointIndex: nat) returns (r: Option<nat>)
    ensures r == EndpointOf(b, ifPos, endpointIndex)
  {
    if ifPos.None? || endpointIndex >= NumEndpoints(b, ifPos.value) {
      return None;
    }
    var k := endpointIndex;
    var ptr := NextDescriptor(b, ifPos.value);
    while ptr.Some?
      invariant ptr.Some? ==> ptr.value < |b|
      invariant ptr.Some? ==>
        EndpointOf(b, ifPos, endpointIndex) ==
          if IsEndpoint(b, ptr.value) then (if k == 0 then ptr else EndpointAfter(b, ptr.value, k - 1))
          else EndpointAfter(b, ptr.value, k)
      invariant ptr.None? ==> EndpointOf(b, ifPos, endpointIndex) == None
      decreases if ptr.Some? then |b| - ptr.value else 0
    {
      if IsEndpoint(b, ptr.value) {
        if k == 0 {
          return ptr;
        }
        k := k - 1;
      }
      ptr := NextDescriptor(b, ptr.value);
    }
    return None;
  }

  // ---------------------------------------------------------------------
  // FIFO sizing
  // ---------------------------------------------------------------------

  /** USB_FIFO_SZ_TO_BYTES for a single-buffered size code: 8 << code. */
  function FifoBytes(code: nat): (r: nat)
    ensures r >= 8
  {
    if code == 0 then 8 else 2 * FifoBytes(code - 1)
  }

  lemma {:induction false} FifoBytesMonotonic(i: nat, j: nat)
    requires i <= j
    ensures FifoBytes(i) <= FifoBytes(j)
    decreases j
  {
    if i < j {
      FifoBytesMonotonic(i, j - 1);
    }
  }

  /** A FIFO size flag and the bytes of FIFO memory it occupies. */
  datatype FifoSize = FifoSize(flag: nat, bytesUsed: nat)

  /** The search of `quantizeEndpointFIFOSize` from size code `code` upwards; past USB_FIFO_SZ_8192 when none fits. */
  function QuantizeCode(bytes: int, code: nat): (c: nat)
    requires code <= USB_FIFO_SZ_8192 + 1
    ensures code <= c <= USB_FIFO_SZ_8192 + 1
    decreases USB_FIFO_SZ_8192 + 1 - code
  {
    if code > USB_FIFO_SZ_8192 || FifoBytes(code) >= bytes then code
    else QuantizeCode(bytes, code + 1)
  }

  /** `quantizeEndpointFIFOSize`: the size flag and the bytes of FIFO it occupies (0 when nothing fits). */
  function Quantize(bytes: int, doubleBuffer: bool): FifoSize
  {
    var c := QuantizeCode(bytes, USB_FIFO_SZ_8);
    if c > USB_FIFO_SZ_8192 then FifoSize(USB_FIFO_SZ_8, 0)
    else if doubleBuffer then FifoSize(c + USB_FIFO_SIZE_DB_FLAG, FifoBytes(c) * 2)
    else FifoSize(c, FifoBytes(c))
  }

  lemma {:induction false} QuantizeCodeSmallest(bytes: int, code: nat)
    requires code <= USB_FIFO_SZ_8192 + 1
    requires code > 0 ==> FifoBytes(code - 1) < bytes
    ensures var c := QuantizeCode(bytes, code);
      (c <= USB_FIFO_SZ_8192 ==> FifoBytes(c) >= bytes && (c == 0 || FifoBytes(c - 1) < bytes)) &&
      (c > USB_FIFO_SZ_8192 ==> FifoBytes(USB_FIFO_SZ_8192) < bytes)
    decreases USB_FIFO_SZ_8192 + 1 - code
  {
    if code <= USB_FIFO_SZ_8192 && FifoBytes(code) < bytes {
      QuantizeCodeSmallest(bytes, code + 1);
    }
  }

  /**
   * `quantizeEndpointFIFOSize` picks the smallest size code whose byte
   * count covers the request, doubles the bytes used for a double-buffered
   * FIFO, and reports 0 bytes when even 8192 bytes are too few.
   */
  lemma QuantizePicksSmallest(bytes: int, doubleBuffer: bool)
    ensures var r := Quantize(bytes, doubleBuffer); var c := r.flag - if doubleBuffer then USB_FIFO_SIZE_DB_FLAG else 0;
      (r.bytesUsed == 0 <==> bytes > 8192) &&
      (r.bytesUsed > 0 ==>
         0 <= c <= USB_FIFO_SZ_8192 && FifoBytes(c) >= bytes && (c == 0 || FifoBytes(c - 1) < bytes) &&
         r.bytesUsed == (if doubleBuffer then 2 else 1) * FifoBytes(c))
  {
    var c := QuantizeCode(bytes, USB_FIFO_SZ_8);
    QuantizeCodeSmallest(bytes, USB_FIFO_SZ_8);
    assert FifoBytes(USB_FIFO_SZ_8192) == 8192;
    if c <= USB_FIFO_SZ_8192 {
      FifoBytesMonotonic(c, USB_FIFO_SZ_8192);
    }
  }

  /** A packet of up to 8192 bytes always gets a FIFO at least as large. */
  lemma QuantizeCovers(bytes: int, doubleBuffer: bool)
    requires bytes <= 8192
    ensures Quantize(bytes, doubleBuffer).bytesUsed >= bytes
  {
    QuantizePicksSmallest(bytes, doubleBuffer);
  }

  /** `quantizeEndpointFIFOSize`: the loop over the supported FIFO sizes. */
  method QuantizeEndpointFifoSize(maxPacketSize: nat, multiplier: nat, doubleBuffer: bool)
    returns (flag: nat, bytesUsed: nat)
    requires multiplier != 0
    ensures FifoSize(flag, bytesUsed) == Quantize(Wrap32(maxPacketSize * multiplier), doubleBuffer)
  {
    var bytes := Wrap32(maxPacketSize * multiplier);
    var i := USB_FIFO_SZ_8;
    while i <= USB_FIFO_SZ_8192
      invariant USB_FIFO_SZ_8 <= i <= USB_FIFO_SZ_8192 + 1
      invariant QuantizeCode(bytes, i) == QuantizeCode(bytes, USB_FIFO_SZ_8)
    {
      var fifoSize := FifoBytes(i);
      if fifoSize >= bytes {
        if doubleBuffer {
          return i + USB_FIFO_SIZE_DB_FLAG, fifoSize * 2;
        } else {
          return i, fifoSize;
        }
      }
      i := i + 1;
    }
    return USB_FIFO_SZ_8, 0;
  }

  // ---------------------------------------------------------------------
  // FIFO requirements and layout of a configuration
  // ---------------------------------------------------------------------

  /** Endpoints 1 .. NUM_USB_EP-1 each have an IN and an OUT slot, in that order. */
  const FIFO_SLOTS: nat := 2 * (NUM_USB_EP - 1)

  function Slot(ep: nat, dir: Direction): nat
    requires 1 <= ep < NUM_USB_EP
  {
    2 * (ep - 1) + (if dir == In then 0 else 1)
  }

  /** The slot a placement is for. */
  function SlotOf(a: FifoAssignment): int
  {
    2 * (a.ep - 1) + (if a.dir == In then 0 else 1)
  }

  function SlotEndpoint(s: nat): nat { s / 2 + 1 }
  function SlotDirection(s: nat): Direction { if s % 2 == 0 then In else Out }

  /** Every endpoint descriptor among `w` names an endpoint 1 .. NUM_USB_EP-1. */
  predicate EndpointNumbersValid(b: seq<byte>, w: seq<nat>)
  {
    forall q :: q in w && IsEndpoint(b, q) ==> 0 < EndpointNumber(b, q) < NUM_USB_EP
  }

  /**
   * The per-slot maximum wMaxPacketSize over the endpoint descriptors
   * among `w` (the `fifoSizes` table of `setConfiguration`).
   */
  function FifoRequirements(b: seq<byte>, w: seq<nat>): (r: seq<nat>)
    requires EndpointNumbersValid(b, w)
    ensures |r| == FIFO_SLOTS
    decreases |w|
  {
    if w == [] then seq(FIFO_SLOTS, _ => 0)
    else
      var prev := FifoRequirements(b, w[..|w| - 1]);
      var q := w[|w| - 1];
      if IsEndpoint(b, q) then
        var s := Slot(EndpointNumber(b, q), EndpointDirection(b, q));
        if MaxPacketSize(b, q) > prev[s] then prev[s := MaxPacketSize(b, q)] else prev
      else prev
  }

  /**
   * Each slot's requirement is the largest packet size of any endpoint
   * descriptor for it (0 when there is none).
   */
  lemma {:induction false} FifoRequirementsAreMaxima(b: seq<byte>, w: seq<nat>, s: nat)
    requires EndpointNumbersValid(b, w) && s < FIFO_SLOTS
    ensures var r := FifoRequirements(b, w);
      (forall q :: q in w && IsEndpoint(b, q) && Slot(EndpointNumber(b, q), EndpointDirection(b, q)) == s ==>
         MaxPacketSize(b, q) <= r[s]) &&
      (r[s] == 0 || exists q :: q in w && IsEndpoint(b, q) && Slot(EndpointNumber(b, q), EndpointDirection(b, q)) == s
                               && MaxPacketSize(b, q) == r[s])
    decreases |w|
  {
    if w != [] {
      var init := w[..|w| - 1];
      assert forall q :: q in init ==> q in w;
      FifoRequirementsAreMaxima(b, init, s);
      assert w == init + [w[|w| - 1]];
    }
  }

  /**
   * The first loop of `setConfiguration`: walks the configuration, fails on
   * an endpoint numbered 0 or NUM_USB_EP and above, and otherwise keeps the
   * largest packet size seen for each endpoint and direction.
   */
  method CollectFifoSizes(b: seq<byte>) returns (ok: bool, sizes: seq<nat>)
    ensures ok == EndpointNumbersValid(b, Walk(b, 0))
    ensures ok ==> sizes == FifoRequirements(b, Walk(b, 0))
  {
    sizes := seq(FIFO_SLOTS, _ => 0);
    ghost var done: seq<nat> := [];
    var ptr := NextDescriptor(b, 0);
    while ptr.Some?
      invariant ptr.Some? ==> ptr.value < |b| && Walk(b, 0) == done + [ptr.value] + Walk(b, ptr.value)
      invariant ptr.None? ==> Walk(b, 0) == done
      invariant EndpointNumbersValid(b, done)
      invariant sizes == FifoRequirements(b, done)
      decreases if ptr.Some? then |b| - ptr.value else 0
    {
      var p := ptr.value;
      if IsEndpoint(b, p) {
        var ep := EndpointNumber(b, p);
        if ep == 0 || ep >= NUM_USB_EP {
          assert p in Walk(b, 0);
          return false, sizes;
        }
        var slot := Slot(ep, EndpointDirection(b, p));
        if MaxPacketSize(b, p) > sizes[slot] {
          sizes := sizes[slot := MaxPacketSize(b, p)];
        }
      }
      FifoRequirementsSnoc(b, done, p);
      done := done + [p];
      ptr := NextDescriptor(b, p);
      if ptr.Some? {
        assert Walk(b, p) == [ptr.value] + Walk(b, ptr.value);
        assert Walk(b, 0) == done + [ptr.value] + Walk(b, ptr.value);
      }
    }
    return true, sizes;
  }

  lemma FifoRequirementsSnoc(b: seq<byte>, w: seq<nat>, q: nat)
    requires EndpointNumbersValid(b, w + [q])
    ensures EndpointNumbersValid(b, w)
    ensures var prev := FifoRequirements(b, w);
      FifoRequirements(b, w + [q]) ==
        if IsEndpoint(b, q) then
          var s := Slot(EndpointNumber(b, q), EndpointDirection(b, q));
          if MaxPacketSize(b, q) > prev[s] then prev[s := MaxPacketSize(b, q)] else prev
        else prev
  {
    assert (w + [q])[..|w|] == w;
  }

  /** One FIFO placement: endpoint, direction, start address, size flag and bytes used. */
  datatype FifoAssignment = FifoAssignment(ep: nat, dir: Direction, start: nat, flag: nat, bytes: nat)

  /**
   * The FIFO layout loop of `setConfiguration` from slot `s` at FIFO address
   * `pos`: the placements made and whether every slot fitted.
   */
  function LayoutFrom(sizes: seq<nat>, s: nat, pos: nat): (r: (bool, seq<FifoAssignment>))
    requires |sizes| == FIFO_SLOTS && s <= FIFO_SLOTS
    decreases FIFO_SLOTS - s
  {
    if s == FIFO_SLOTS then (true, [])
    else if sizes[s] == 0 then LayoutFrom(sizes, s + 1, pos)
    else
      var q := Quantize(sizes[s], false);
      if q.bytesUsed < sizes[s] then (false, [])
      else
        var rest := LayoutFrom(sizes, s + 1, pos + q.bytesUsed);
        (rest.0, [FifoAssignment(SlotEndpoint(s), SlotDirection(s), pos, q.flag, q.bytesUsed)] + rest.1)
  }

  /** Endpoint 0 owns the first MAX_PACKET_SIZE_EP0 bytes of FIFO memory; the others follow. */
  function FifoLayout(sizes: seq<nat>): (bool, seq<FifoAssignment>)
    requires |sizes| == FIFO_SLOTS
  {
    LayoutFrom(sizes, 0, MAX_PACKET_SIZE_EP0)
  }

  /**
   * Placements are contiguous from `pos`, in increasing slot order from
   * slot `lo`, each covering its slot's nonzero requirement.
   */
  predicate PlacedFrom(sizes: seq<nat>, a: seq<FifoAssignment>, pos: nat, lo: nat)
    requires |sizes| == FIFO_SLOTS
  {
    (|a| > 0 ==> a[0].start == pos) &&
    (forall k :: 0 <= k < |a| - 1 ==> a[k + 1].start == a[k].start + a[k].bytes) &&
    (forall k :: 0 <= k < |a| ==> lo <= SlotOf(a[k]) < FIFO_SLOTS && 0 < sizes[SlotOf(a[k])] <= a[k].bytes) &&
    (forall k :: 0 <= k < |a| - 1 ==> SlotOf(a[k]) < SlotOf(a[k + 1]))
  }

  lemma {:induction false} LayoutFromPlaced(sizes: seq<nat>, s: nat, pos: nat)
    requires |sizes| == FIFO_SLOTS && s <= FIFO_SLOTS
    ensures PlacedFrom(sizes, LayoutFrom(sizes, s, pos).1, pos, s)
    decreases FIFO_SLOTS - s
  {
    var r := LayoutFrom(sizes, s, pos);
    if s == FIFO_SLOTS {
      assert r.1 == [];
    } else if sizes[s] == 0 {
      assert r == LayoutFrom(sizes, s + 1, pos);
      LayoutFromPlaced(sizes, s + 1, pos);
      PlacedLower(sizes, r.1, pos, s + 1, s);
    } else {
      var q := Quantize(sizes[s], false);
      if q.bytesUsed < sizes[s] {
        assert r.1 == [];
      } else {
        var rest := LayoutFrom(sizes, s + 1, pos + q.bytesUsed).1;
        var x := FifoAssignment(SlotEndpoint(s), SlotDirection(s), pos, q.flag, q.bytesUsed);
        assert r.1 == [x] + rest;
        LayoutFromPlaced(sizes, s + 1, pos + q.bytesUsed);
        SlotRoundTrip(s, x);
        PlacedCons(sizes, s, x, rest, pos, pos + q.bytesUsed);
      }
    }
  }

  lemma SlotRoundTrip(s: nat, x: FifoAssignment)
    requires x.ep == SlotEndpoint(s) && x.dir == SlotDirection(s)
    ensures SlotOf(x) == s
  {
    if s % 2 == 0 {
      assert s == 2 * (s / 2);
    } else {
      assert s == 2 * (s / 2) + 1;
    }
  }

  lemma PlacedLower(sizes: seq<nat>, a: seq<FifoAssignment>, pos: nat, lo: nat, lo': nat)
    requires |sizes| == FIFO_SLOTS && lo' <= lo
    requires PlacedFrom(sizes, a, pos, lo)
    ensures PlacedFrom(sizes, a, pos, lo')
  {
  }

  lemma PlacedCons(sizes: seq<nat>, s: nat, x: FifoAssignment, rest: seq<FifoAssignment>, pos: nat, next: nat)
    requires |sizes| == FIFO_SLOTS && s < FIFO_SLOTS && SlotOf(x) == s
    requires x.start == pos && next == pos + x.bytes && 0 < sizes[s] <= x.bytes
    requires PlacedFrom(sizes, rest, next, s + 1)
    ensures PlacedFrom(sizes, [x] + rest, pos, s)
  {
    var a := [x] + rest;
    assert forall k :: 1 <= k < |a| ==> a[k] == rest[k - 1];
  }

  /**
   * `setConfiguration` lays the FIFOs out contiguously from
   * MAX_PACKET_SIZE_EP0, in endpoint order with IN before OUT, each at
   * least as large as its requirement.
   */
  lemma FifoLayoutContiguous(sizes: seq<nat>)
    requires |sizes| == FIFO_SLOTS
    ensures PlacedFrom(sizes, FifoLayout(sizes).1, MAX_PACKET_SIZE_EP0, 0)
  {
    LayoutFromPlaced(sizes, 0, MAX_PACKET_SIZE_EP0);
  }

  lemma {:induction false} LayoutFromSucceeds(sizes: seq<nat>, s: nat, pos: nat)
    requires |sizes| == FIFO_SLOTS && s <= FIFO_SLOTS
    requires forall t :: s <= t < FIFO_SLOTS ==> sizes[t] <= USB_EP_MAX_PACKET_COUNT_M
    ensures LayoutFrom(sizes, s, pos).0
    decreases FIFO_SLOTS - s
  {
    if s < FIFO_SLOTS {
      if sizes[s] == 0 {
        LayoutFromSucceeds(sizes, s + 1, pos);
      } else {
        QuantizeCovers(sizes[s], false);
        LayoutFromSucceeds(sizes, s + 1, pos + Quantize(sizes[s], false).bytesUsed);
      }
    }
  }

  /** The requirements of a configuration never exceed 0x7FF bytes, so its layout always succeeds. */
  lemma FifoLayoutSucceeds(b: seq<byte>, w: seq<nat>)
    requires EndpointNumbersValid(b, w)
    ensures FifoLayout(FifoRequirements(b, w)).0
  {
    var sizes := FifoRequirements(b, w);
    forall t | 0 <= t < FIFO_SLOTS
      ensures sizes[t] <= USB_EP_MAX_PACKET_COUNT_M
    {
      FifoRequirementsAreMaxima(b, w, t);
    }
    LayoutFromSucceeds(sizes, 0, MAX_PACKET_SIZE_EP0);
  }
}
