/*
 * The control side of the USB device class: the endpoint-0 state machine
 * (IDLE, TX, RX, STATUS, STALL) with its 64-byte packets, the standard
 * requests it answers, the deferred SET_ADDRESS, bus reset and
 * disconnect, and the selection of a configuration and of alternate
 * settings with the FIFO layout that goes with it.
 *
 * The controller is reduced to what the state machine observes: the
 * packets put into the EP0 FIFO, the bytes read from it, the function
 * address register, and logs of the endpoint and FIFO configurations
 * written. Whether the FIFO accepts a packet, what it holds and the EP0
 * status bits are parameters of each step.
 *
 * `Usb` is the state as a value and the `...Step` functions say what each
 * routine does to it; the class `UsbDevice` holds the same state in fields
 * and its methods are proved to perform those steps.
 */
module UsbDevice {
  import opened Word32
  import opened UsbDescriptors

  /** Interfaces a configuration may have (MaxInterfaceCount; value assumed). */
  const MAX_INTERFACE_COUNT: nat := 4

  // Standard request codes and descriptor types, section 9.4 of USB 2.0.
  const GET_STATUS: nat := 0
  const SET_ADDRESS: nat := 5
  const GET_DESCRIPTOR: nat := 6
  const SET_CONFIGURATION: nat := 9
  const SET_INTERFACE: nat := 11
  const USB_DESC_TYPE_DEVICE: nat := 1
  const USB_DESC_TYPE_CONFIGURATION: nat := 2
  const USB_DESC_TYPE_STRING: nat := 3

  datatype Ep0State = Idle | Tx | Rx | Status | Stall

  datatype DeviceState = Unknown | Reset | Addressed | Configured

  /** The fields of request 0 that steer endpoint 0. */
  datatype Ep0Request = Ep0Request(data: seq<byte>, length: nat, zeroLengthPacket: bool, dir: Direction)

  /** The request 0 is reset to: no data, zero-length packet, OUT. */
  const EMPTY_REQUEST := Ep0Request([], 0, true, Out)

  /** The eight bytes of a SETUP packet. */
  datatype SetupPacket = SetupPacket(requestType: byte, request: byte, value: nat, index: nat, length: nat)

  /** One endpoint configuration written to the controller; `keepsOtherFlags` when the old DMA and auto-set bits are masked in. */
  datatype EndpointConfig = EndpointConfig(ep: nat, maxPacketSize: nat, dir: Direction, transferType: nat, keepsOtherFlags: bool)

  /** The EP0 status bits `handleEP0Event` acts on. */
  datatype Ep0Status = Ep0Status(sentStall: bool, setupEnd: bool, outPacketReady: bool)

  /** The interrupt causes `handleUSBEvent` acts on. */
  datatype UsbEvent = UsbEvent(disconnect: bool, reset: bool, ep0: bool)

  /** The descriptors the device class is built with. */
  datatype Descriptors = Descriptors(device: Option<seq<byte>>, configurations: seq<seq<byte>>, strings: seq<seq<byte>>)

  /**
   * Endpoint 0: its state, the data stage in progress (the buffer, the
   * offset reached, the bytes remaining, the OUT data size) and request 0.
   */
  datatype Ep0Transfer = Ep0Transfer(state: Ep0State, data: seq<byte>, offset: nat, remain: nat, outDataSize: nat,
                                     request: Ep0Request)

  /** The device state, the function address register and the address waiting to be committed. */
  datatype Bus = Bus(devState: DeviceState, address: byte, pendingAddress: nat, updateAddress: bool)

  /** The active configuration (an index into the table) and each interface's alternate setting. */
  datatype Selection = Selection(active: Option<nat>, alternateSettings: seq<nat>)

  /**
   * What the controller was given or gave back: the packets put into the
   * EP0 FIFO, the bytes read in OUT data stages, and the endpoint and FIFO
   * configurations written.
   */
  datatype Controller = Controller(sent: seq<seq<byte>>, received: seq<byte>, endpoints: seq<EndpointConfig>,
                                   fifos: seq<FifoAssignment>)

  /** The device state, with the contents of the two EP0 buffers. */
  datatype Usb = Usb(ep0: Ep0Transfer, bus: Bus, selection: Selection, hw: Controller,
                     inputBuffer: seq<byte>, outputBuffer: seq<byte>)

  predicate WellFormed(d: Descriptors, s: Usb)
  {
    |s.selection.alternateSettings| == MAX_INTERFACE_COUNT &&
    |s.inputBuffer| == MAX_PACKET_SIZE_EP0 && |s.outputBuffer| == MAX_PACKET_SIZE_EP0 &&
    (s.selection.active.Some? ==> s.selection.active.value < |d.configurations|)
  }

  function NoAlternates(): (r: seq<nat>)
    ensures |r| == MAX_INTERFACE_COUNT && forall i :: 0 <= i < |r| ==> r[i] == 0
  {
    seq(MAX_INTERFACE_COUNT, _ => 0)
  }

  /** The state `start` leaves behind, around the given EP0 buffers. */
  function Started(inputBuffer: seq<byte>, outputBuffer: seq<byte>): Usb
  {
    Usb(Ep0Transfer(Idle, [], 0, 0, 0, Ep0Request([], 0, false, Out)), Bus(Unknown, 0, 0, false),
        Selection(None, NoAlternates()), Controller([], [], [], []), inputBuffer, outputBuffer)
  }

  function Min(a: nat, b: nat): nat { if a < b then a else b }

  /** `n` bytes of the transfer buffer from `offset` (zero past its end). */
  function Chunk(data: seq<byte>, offset: nat, n: nat): (r: seq<byte>)
    ensures |r| == n && forall i :: 0 <= i < n ==> r[i] == At(data, offset + i)
  {
    Prefix(if offset <= |data| then data[offset..] else [], n)
  }

  /**
   * `r` differs from `s` at most in endpoint 0, the controller log and the
   * contents of the output buffer: the EP0 transfer machinery does not touch
   * the address, the configuration or the input buffer.
   */
  predicate Ep0Only(s: Usb, r: Usb)
  {
    r.bus == s.bus && r.selection == s.selection && r.inputBuffer == s.inputBuffer &&
    |r.outputBuffer| == |s.outputBuffer|
  }

  /** The state with endpoint 0 in `state`. */
  function WithState(s: Usb, state: Ep0State): Usb
  {
    s.(ep0 := s.ep0.(state := state))
  }


  // ---------------------------------------------------------------------
  // Endpoint 0 transfers
  // ---------------------------------------------------------------------

  /**
   * `handleEP0TransmitState`: advances by the next packet of at most 64
   * bytes; a full packet keeps EP0 in TX, a shorter one ends the data stage.
   * When the FIFO is still busy the packet is lost and EP0 stays in TX.
   */
  function TransmitStep(s: Usb, putOk: bool): (r: Usb)
    ensures Ep0Only(s, r)
  {
    var e := s.ep0;
    var n := Min(e.remain, MAX_PACKET_SIZE_EP0);
    var s1 := s.(ep0 := e.(state := Tx, remain := e.remain - n, offset := e.offset + n));
    if !putOk then s1
    else
      var s2 := s1.(hw := s.hw.(sent := s.hw.sent + [Chunk(e.data, e.offset, n)]));
      if n == MAX_PACKET_SIZE_EP0 then s2 else WithState(s2, Status)
  }

  /** `setupEP0Request`: only an IDLE endpoint 0 starts a data stage. */
  function SetupEp0RequestStep(s: Usb, req: Ep0Request, putOk: bool): (r: Usb)
    ensures Ep0Only(s, r)
  {
    if s.ep0.state != Idle || req.zeroLengthPacket then s
    else
      var s1 := s.(ep0 := s.ep0.(data := req.data, offset := 0, remain := req.length, outDataSize := req.length));
      if req.dir == In then TransmitStep(s1, putOk) else WithState(s1, Rx)
  }

  /** `onEP0RequestComplete`: an IN request with data is reset and EP0 returns to IDLE. */
  function RequestCompleteStep(s: Usb): (r: Usb)
    ensures Ep0Only(s, r)
  {
    if s.ep0.request.dir == In && !s.ep0.request.zeroLengthPacket then
      s.(ep0 := s.ep0.(request := EMPTY_REQUEST, state := Idle))
    else s
  }

  /** The bytes `USBEndpointDataGet` reads: at most `max`, none when no packet is ready. */
  function FifoRead(fifo: Option<seq<byte>>, max: nat): (r: seq<byte>)
    ensures |r| <= max
    ensures fifo.Some? ==> |r| <= |fifo.value| && r == fifo.value[..|r|] && (|r| == max || r == fifo.value)
    ensures fifo.None? ==> r == []
  {
    if fifo.None? then [] else fifo.value[..Min(|fifo.value|, max)]
  }

  /** The state after reading `got` in an OUT data stage. */
  function Received(s: Usb, got: seq<byte>): Usb
    requires |got| <= s.ep0.remain
  {
    s.(ep0 := s.ep0.(offset := s.ep0.offset + |got|, remain := s.ep0.remain - |got|),
       hw := s.hw.(received := s.hw.received + got))
  }

  /** The end of an OUT data stage: back to IDLE, request complete, OUT data size cleared. */
  function ReceiveDone(s: Usb): Usb
  {
    var s1 := RequestCompleteStep(WithState(s, Idle));
    if s1.ep0.outDataSize != 0 then s1.(ep0 := s1.ep0.(outDataSize := 0)) else s1
  }

  /**
   * The RX branch of `handleEP0Event` with the test that decides whether
   * more data is coming written as `remaining > threshold`.
   */
  function ReceiveWith(s: Usb, fifo: Option<seq<byte>>, threshold: nat): (r: Usb)
    ensures Ep0Only(s, r)
  {
    if fifo.None? then s
    else
      var s1 := Received(s, FifoRead(fifo, Min(s.ep0.remain, MAX_PACKET_SIZE_EP0)));
      if s1.ep0.remain > threshold then RequestCompleteStep(s1) else ReceiveDone(s1)
  }

  /** The RX branch as written: the data stage ends once at most 64 bytes remain. */
  function ReceiveStepAsWritten(s: Usb, fifo: Option<seq<byte>>): Usb
  {
    ReceiveWith(s, fifo, MAX_PACKET_SIZE_EP0)
  }

  /** The RX branch as intended: the data stage ends when nothing remains. */
  function ReceiveStep(s: Usb, fifo: Option<seq<byte>>): Usb
  {
    ReceiveWith(s, fifo, 0)
  }

  /**
   * As written, an OUT data stage of 100 bytes returns to IDLE after its
   * first packet with 36 bytes still expected; the next packet would be
   * taken for a SETUP packet.
   */
  lemma ReceiveAsWrittenEndsEarly()
    ensures var s0 := Started(seq(64, _ => 0), seq(64, _ => 0));
      var s := s0.(ep0 := s0.ep0.(state := Rx, remain := 100, outDataSize := 100));
      var r := ReceiveStepAsWritten(s, Some(seq(64, _ => 7)));
      r.ep0.state == Idle && r.ep0.remain == 36
  {
  }

  /**
   * With the corrected test, a packet of an OUT data stage appends the bytes
   * read, and endpoint 0 returns to IDLE exactly when nothing remains.
   */
  lemma ReceiveCompletesWhenDone(s: Usb, fifo: Option<seq<byte>>)
    requires s.ep0.state == Rx && s.ep0.request.dir == Out && fifo.Some?
    ensures var got := FifoRead(fifo, Min(s.ep0.remain, MAX_PACKET_SIZE_EP0));
      var r := ReceiveStep(s, fifo);
      r.hw.received == s.hw.received + got && r.ep0.remain == s.ep0.remain - |got| &&
      (r.ep0.state == Idle <==> r.ep0.remain == 0) &&
      (r.ep0.state != Idle ==> r.ep0.state == Rx)
  {
  }

  // ---------------------------------------------------------------------
  // Standard requests
  // ---------------------------------------------------------------------

  /** `handleSetAddressRequest`: the address is only recorded; the register is written later. */
  function SetAddressStep(s: Usb, setup: SetupPacket): Usb
  {
    WithState(s, Status).(bus := s.bus.(pendingAddress := setup.value, updateAddress := true))
  }

  /** Request 0 set to `req` over the output buffer holding `buffer`. */
  function WithRequest(s: Usb, buffer: seq<byte>, req: Ep0Request): Usb
  {
    s.(outputBuffer := buffer, ep0 := s.ep0.(request := req))
  }

  /** `handleGetStatusRequest`: two bytes, the first of them zero, whatever the recipient. */
  function GetStatusStep(s: Usb, putOk: bool): (r: Usb)
    requires |s.outputBuffer| == MAX_PACKET_SIZE_EP0
    ensures Ep0Only(s, r)
  {
    var buffer := s.outputBuffer[0 := 0];
    var req := Ep0Request(buffer, 2, false, In);
    SetupEp0RequestStep(WithRequest(s, buffer, req), req, putOk)
  }

  /** The tail of each case of `handleGetDescriptorRequest`: send `n` bytes, or nothing when `n` is 0. */
  function DescriptorReady(s: Usb, buffer: seq<byte>, n: nat, putOk: bool): (r: Usb)
    requires |buffer| == |s.outputBuffer|
    ensures Ep0Only(s, r)
  {
    if n == 0 then WithRequest(s, buffer, s.ep0.request.(data := buffer, length := 0))
    else
      var req := Ep0Request(buffer, n, false, In);
      SetupEp0RequestStep(WithRequest(s, buffer, req), req, putOk)
  }

  /** The configuration descriptor at `index`, or nothing. */
  function ConfigurationAt(d: Descriptors, index: nat): seq<byte>
  {
    if index < |d.configurations| then d.configurations[index] else []
  }

  /**
   * `handleGetDescriptorRequest`: copies the device, configuration or
   * string descriptor the high byte of wValue names into the output buffer
   * and sends it. A wLength of 9 on a configuration request cuts the answer
   * to the 9-byte configuration header.
   */
  function GetDescriptorStep(d: Descriptors, s: Usb, setup: SetupPacket, putOk: bool): (r: Usb)
    requires |s.outputBuffer| == MAX_PACKET_SIZE_EP0
    ensures Ep0Only(s, r)
  {
    var kind := setup.value / 256;
    var index := setup.value % 256;
    if kind == USB_DESC_TYPE_DEVICE then
      var n := if d.device.None? then 0 else CopyLength(true, MAX_PACKET_SIZE_EP0, At(d.device.value, 0));
      var buffer := CopiedInto(s.outputBuffer, if d.device.None? then [] else d.device.value, n);
      DescriptorReady(s, buffer, n, putOk)
    else if kind == USB_DESC_TYPE_CONFIGURATION then
      var n := if index < |d.configurations| then CopyLength(true, MAX_PACKET_SIZE_EP0, TotalLength(d.configurations[index])) else 0;
      var buffer := CopiedInto(s.outputBuffer, ConfigurationAt(d, index), n);
      DescriptorReady(s, buffer, if n != 0 && setup.length == 9 then 9 else n, putOk)
    else if kind == USB_DESC_TYPE_STRING then
      var (n, written) := StringDescriptor(d.strings, index, MAX_PACKET_SIZE_EP0);
      DescriptorReady(s, PutAt(s.outputBuffer, 0, written), n, putOk)
    else s
  }

  /**
   * A GET_DESCRIPTOR answer is never longer than one packet: what it sends
   * is the start of the descriptor asked for, copied into the output buffer.
   */
  lemma GetDeviceDescriptorSends(d: Descriptors, s: Usb, setup: SetupPacket)
    requires |s.outputBuffer| == MAX_PACKET_SIZE_EP0 && s.ep0.state == Idle
    requires setup.value / 256 == USB_DESC_TYPE_DEVICE && d.device.Some?
    ensures var r := GetDescriptorStep(d, s, setup, true);
      var n := At(d.device.value, 0);
      (n == 0 || n > MAX_PACKET_SIZE_EP0 ==> r.hw.sent == s.hw.sent) &&
      (0 < n < MAX_PACKET_SIZE_EP0 ==>
        r.hw.sent == s.hw.sent + [Prefix(d.device.value, n)] && r.ep0.state == Status)
  {
    var n := At(d.device.value, 0);
    if 0 < n < MAX_PACKET_SIZE_EP0 {
      var buffer := CopiedInto(s.outputBuffer, d.device.value, n);
      assert Chunk(buffer, 0, n) == Prefix(d.device.value, n);
    }
  }

  /** `resetConfiguration`: no active configuration, every alternate setting 0. */
  function ResetConfigurationStep(s: Usb): Usb
  {
    s.(selection := Selection(None, NoAlternates()))
  }

  /** `resetAddress`. */
  function ResetAddressStep(s: Usb): Usb
  {
    s.(bus := Bus(Reset, 0, 0, false))
  }

  /** The endpoint configuration `configureInterfaceEndpoints` writes for the endpoint descriptor at `e`. */
  function ConfigOf(b: seq<byte>, e: nat, keep: bool): EndpointConfig
  {
    EndpointConfig(EndpointNumber(b, e), MaxPacketSize(b, e), EndpointDirection(b, e), TransferType(b, e), keep)
  }

  /**
   * `configureInterfaceEndpoints` from the `i`-th endpoint of the interface
   * at `ifPos`: the configurations written, and false when an endpoint the
   * interface announces is missing.
   */
  function EndpointConfigsFrom(b: seq<byte>, ifPos: nat, keep: bool, i: nat): (r: (bool, seq<EndpointConfig>))
    requires i <= NumEndpoints(b, ifPos)
    ensures r.0 <==> forall k :: i <= k < NumEndpoints(b, ifPos) ==> EndpointOf(b, Some(ifPos), k).Some?
    ensures r.0 ==> |r.1| == NumEndpoints(b, ifPos) - i
    decreases NumEndpoints(b, ifPos) - i
  {
    if i == NumEndpoints(b, ifPos) then (true, [])
    else match EndpointOf(b, Some(ifPos), i)
      case None => (false, [])
      case Some(e) =>
        var rest := EndpointConfigsFrom(b, ifPos, keep, i + 1);
        (rest.0, [ConfigOf(b, e, keep)] + rest.1)
  }

  /**
   * A result `whole` of a loop that builds a sequence, seen after the items
   * `added`: when `ok`, the rest of it is `rest`; otherwise the loop stopped
   * right after them.
   */
  ghost predicate Continues<T>(whole: (bool, seq<T>), ok: bool, added: seq<T>, rest: (bool, seq<T>))
  {
    if ok then whole == (rest.0, added + rest.1) else whole == (false, added)
  }

  lemma ContinuesCompose<T>(whole: (bool, seq<T>), a1: seq<T>, mid: (bool, seq<T>), ok: bool, a2: seq<T>, rest: (bool, seq<T>))
    requires Continues(whole, true, a1, mid) && Continues(mid, ok, a2, rest)
    ensures Continues(whole, ok, a1 + a2, rest)
  {
    if ok {
      assert a1 + (a2 + rest.1) == (a1 + a2) + rest.1;
    }
  }

  /** One round of the loop of `configureInterfaceEndpoints`: the configuration of the `i`-th endpoint. */
  method EndpointConfigAt(b: seq<byte>, ifPos: nat, keep: bool, i: nat) returns (ok: bool, added: seq<EndpointConfig>)
    requires i < NumEndpoints(b, ifPos)
    ensures Continues(EndpointConfigsFrom(b, ifPos, keep, i), ok, added, EndpointConfigsFrom(b, ifPos, keep, i + 1))
  {
    var e := GetEndpointDescriptor(b, Some(ifPos), i);
    if e.None? {
      return false, [];
    }
    return true, [ConfigOf(b, e.value, keep)];
  }

  /**
   * The loop of `configureInterfaceEndpoints`: the configuration of each
   * endpoint of the interface at `ifPos` in turn, stopping at the first
   * endpoint descriptor that is missing.
   */
  method EndpointConfigs(b: seq<byte>, ifPos: nat, keep: bool) returns (ok: bool, configs: seq<EndpointConfig>)
    ensures (ok, configs) == EndpointConfigsFrom(b, ifPos, keep, 0)
  {
    configs := [];
    var i := 0;
    assert [] + EndpointConfigsFrom(b, ifPos, keep, 0).1 == EndpointConfigsFrom(b, ifPos, keep, 0).1;
    while i < NumEndpoints(b, ifPos)
      invariant i <= NumEndpoints(b, ifPos)
      invariant Continues(EndpointConfigsFrom(b, ifPos, keep, 0), true, configs, EndpointConfigsFrom(b, ifPos, keep, i))
    {
      var found, added := EndpointConfigAt(b, ifPos, keep, i);
      ContinuesCompose(EndpointConfigsFrom(b, ifPos, keep, 0), configs, EndpointConfigsFrom(b, ifPos, keep, i),
                       found, added, EndpointConfigsFrom(b, ifPos, keep, i + 1));
      configs := configs + added;
      if !found {
        return false, configs;
      }
      i := i + 1;
    }
    assert configs + [] == configs;
    return true, configs;
  }

  /** The state with `configs` appended to the endpoint configurations written. */
  function WithEndpoints(s: Usb, configs: seq<EndpointConfig>): Usb
  {
    s.(hw := s.hw.(endpoints := s.hw.endpoints + configs))
  }

  /**
   * The interface loop of `setConfiguration` from interface `i`: alternate
   * setting 0 of each interface must exist, be numbered below
   * MAX_INTERFACE_COUNT and have all its endpoints.
   */
  function ConfigureInterfacesFrom(b: seq<byte>, i: nat, s: Usb): (r: (bool, Usb))
    ensures r.1 == s.(hw := s.hw.(endpoints := r.1.hw.endpoints)) && s.hw.endpoints <= r.1.hw.endpoints
    decreases NumInterfaces(b) - i
  {
    if i >= NumInterfaces(b) then (true, s)
    else match InterfaceAfter(b, 0, i, 0)
      case None => (false, s)
      case Some(p) =>
        if InterfaceNumber(b, p) >= MAX_INTERFACE_COUNT then (false, s)
        else
          var (ok, configs) := EndpointConfigsFrom(b, p, false, 0);
          if !ok then (false, WithEndpoints(s, configs)) else ConfigureInterfacesFrom(b, i + 1, WithEndpoints(s, configs))
  }

  /**
   * `setConfiguration`: looks the configuration up by value, checks its
   * interface count and endpoint numbers, forgets the active configuration,
   * configures alternate setting 0 of every interface, lays out the FIFOs
   * and makes the configuration active.
   */
  function SetConfigurationStep(d: Descriptors, s: Usb, value: nat): (r: (Usb, bool))
    requires WellFormed(d, s)
    ensures WellFormed(d, r.0)
  {
    match ConfigurationByValue(d.configurations, value)
    case None => (s, false)
    case Some(c) =>
      var b := d.configurations[c];
      if NumInterfaces(b) > MAX_INTERFACE_COUNT || !EndpointNumbersValid(b, Walk(b, 0)) then (s, false)
      else
        var (ok1, s1) := ConfigureInterfacesFrom(b, 0, ResetConfigurationStep(s));
        if !ok1 then (s1, false)
        else
          var (ok2, placed) := FifoLayout(FifoRequirements(b, Walk(b, 0)));
          var s2 := s1.(hw := s1.hw.(fifos := s1.hw.fifos + placed));
          if !ok2 then (s2, false) else (s2.(selection := s2.selection.(active := Some(c))), true)
  }

  /**
   * The index of `mAlternateSettings` that `setAlternateSetting` reads,
   * as written: any interface number, once a configuration is active.
   */
  function AlternateIndexAsWritten(s: Usb, interfaceId: nat): Option<nat>
  {
    if s.selection.active.None? then None else Some(interfaceId)
  }

  /** As written, SET_INTERFACE for interface 4 reads past the four alternate settings. */
  lemma AlternateIndexAsWrittenOutOfBounds(d: Descriptors, s: Usb)
    requires WellFormed(d, s) && s.selection.active.Some?
    ensures var k := AlternateIndexAsWritten(s, MAX_INTERFACE_COUNT);
      k.Some? && k.value >= |s.selection.alternateSettings|
  {
  }

  /** The index as intended: only interfaces below MAX_INTERFACE_COUNT have an alternate setting. */
  function AlternateIndex(s: Usb, interfaceId: nat): (r: Option<nat>)
    ensures r.Some? <==> s.selection.active.Some? && interfaceId < MAX_INTERFACE_COUNT
    ensures r.Some? ==> r.value == interfaceId
  {
    if s.selection.active.None? || interfaceId >= MAX_INTERFACE_COUNT then None else Some(interfaceId)
  }

  /**
   * `setAlternateSetting`: with an active configuration, selects alternate
   * setting `alternate` of interface `interfaceId` and reconfigures its
   * endpoints, keeping their DMA and auto-set bits.
   */
  function AlternateSettingStep(d: Descriptors, s: Usb, interfaceId: nat, alternate: nat): (r: (Usb, bool))
    requires WellFormed(d, s)
    ensures WellFormed(d, r.0)
  {
    match AlternateIndex(s, interfaceId)
    case None => (s, false)
    case Some(k) =>
      if s.selection.alternateSettings[k] == alternate then (s, true)
      else
        var b := d.configurations[s.selection.active.value];
        match InterfaceAfter(b, 0, interfaceId, alternate)
        case None => (s, false)
        case Some(p) =>
          var (ok, configs) := EndpointConfigsFrom(b, p, true, 0);
          var s1 := WithEndpoints(s, configs);
          if ok then (s1.(selection := s.selection.(alternateSettings := s.selection.alternateSettings[k := alternate])), true)
          else (s1, false)
  }

  /** `handleSetConfigurationRequest`. */
  function SetConfigurationRequestStep(d: Descriptors, s: Usb, setup: SetupPacket, putOk: bool): (r: Usb)
    requires WellFormed(d, s)
    ensures WellFormed(d, r) && r.bus.address == s.bus.address
  {
    if ConfigurationByValue(d.configurations, setup.value).None? then WithState(s, Stall)
    else
      var s1 := SetupEp0RequestStep(s.(ep0 := s.ep0.(request := EMPTY_REQUEST)), EMPTY_REQUEST, putOk);
      if setup.value == 0 then s1
      else
        var (s2, ok) := SetConfigurationStep(d, s1, setup.value);
        if ok then s2.(bus := s2.bus.(devState := Configured)) else WithState(s2, Stall)
  }

  /** `handleSetInterfaceRequest`: wIndex names the interface, wValue the alternate setting. */
  function SetInterfaceRequestStep(d: Descriptors, s: Usb, setup: SetupPacket): (r: Usb)
    requires WellFormed(d, s)
    ensures WellFormed(d, r) && r.bus == s.bus
  {
    var (s1, ok) := AlternateSettingStep(d, s, setup.index, setup.value);
    if ok then s1 else WithState(s1, Stall)
  }

  /** The SETUP packet in the first eight bytes of a buffer (little-endian words). */
  function DecodeSetup(b: seq<byte>): SetupPacket
  {
    SetupPacket(At(b, 0), At(b, 1), Word16At(b, 2), Word16At(b, 4), Word16At(b, 6))
  }

  /** `handleSetupPacket`: standard requests are dispatched; the rest change nothing here. */
  function SetupPacketStep(d: Descriptors, s: Usb, p: SetupPacket, putOk: bool): (r: Usb)
    requires WellFormed(d, s)
    ensures WellFormed(d, r) && r.bus.address == s.bus.address
  {
    if (p.requestType / 32) % 4 != 0 then s
    else if p.request == GET_STATUS then GetStatusStep(s, putOk)
    else if p.request == SET_ADDRESS then SetAddressStep(s, p)
    else if p.request == GET_DESCRIPTOR then GetDescriptorStep(d, s, p, putOk)
    else if p.request == SET_CONFIGURATION then SetConfigurationRequestStep(d, s, p, putOk)
    else if p.request == SET_INTERFACE then SetInterfaceRequestStep(d, s, p)
    else s
  }

  /** The SETUP stage: read up to 64 bytes into the input buffer; an empty packet is ignored. */
  function SetupStageStep(d: Descriptors, s: Usb, fifo: Option<seq<byte>>, putOk: bool): (r: Usb)
    requires WellFormed(d, s)
    ensures WellFormed(d, r) && r.bus.address == s.bus.address
  {
    var got := FifoRead(fifo, MAX_PACKET_SIZE_EP0);
    var s1 := s.(inputBuffer := PutAt(s.inputBuffer, 0, got));
    if |got| == 0 then s1 else SetupPacketStep(d, s1, DecodeSetup(s1.inputBuffer), putOk)
  }

  /** EP0 after the stall and premature-end bits: either returns it to IDLE. */
  function Ep0Aborted(s: Usb, st: Ep0Status): Usb
  {
    if st.sentStall || st.setupEnd then WithState(s, Idle) else s
  }

  /**
   * `handleEP0Event`. A sent stall or a premature end of the control
   * transfer first returns EP0 to IDLE. A packet pending in STATUS is
   * handled as a SETUP packet once the request is complete.
   */
  function Ep0EventStep(d: Descriptors, s: Usb, st: Ep0Status, fifo: Option<seq<byte>>, putOk: bool): (r: Usb)
    requires WellFormed(d, s)
    ensures WellFormed(d, r) && r.bus.address == s.bus.address
  {
    var s1 := Ep0Aborted(s, st);
    match s1.ep0.state
    case Idle => if st.outPacketReady then SetupStageStep(d, s1, fifo, putOk) else s1
    case Status =>
      var s2 := RequestCompleteStep(WithState(s1, Idle));
      if st.outPacketReady then SetupStageStep(d, s2, fifo, putOk) else s2
    case Tx => TransmitStep(s1, putOk)
    case Rx => ReceiveStep(s1, fifo)
    case Stall => s1  // a sent stall has already returned EP0 to IDLE above
  }

  /** The address commit at the start of `handleUSBEvent`. */
  function CommitAddressStep(s: Usb): Usb
  {
    var b := s.bus;
    var address := if b.pendingAddress != b.address then b.pendingAddress % 256 else b.address;
    s.(bus := b.(address := address, updateAddress := false, devState := Addressed))
  }

  /** `handleUSBEvent`: disconnect, else bus reset, else commit the address and serve endpoint 0. */
  function UsbEventStep(d: Descriptors, s: Usb, ev: UsbEvent, st: Ep0Status, fifo: Option<seq<byte>>, putOk: bool): (r: Usb)
    requires WellFormed(d, s)
    ensures WellFormed(d, r)
  {
    if ev.disconnect then WithState(ResetAddressStep(ResetConfigurationStep(s)), Idle)
    else if ev.reset then WithState(ResetConfigurationStep(s).(bus := s.bus.(devState := Reset)), Idle)
    else
      var s1 := if s.bus.updateAddress then CommitAddressStep(s) else s;
      if ev.ep0 then Ep0EventStep(d, s1, st, fifo, putOk) else s1
  }

  // ---------------------------------------------------------------------
  // Properties
  // ---------------------------------------------------------------------

  /** The concatenation of a sequence of packets. */
  function Flatten(packets: seq<seq<byte>>): seq<byte>
  {
    if packets == [] then [] else packets[0] + Flatten(packets[1..])
  }

  lemma FlattenCons(p: seq<byte>, rest: seq<seq<byte>>)
    ensures Flatten([p] + rest) == p + Flatten(rest)
  {
    assert ([p] + rest)[1..] == rest;
  }

  lemma ChunkSplit(data: seq<byte>, offset: nat, m: nat, n: nat)
    ensures Chunk(data, offset, m + n) == Chunk(data, offset, m) + Chunk(data, offset + m, n)
  {
    var whole := Chunk(data, offset, m + n);
    var parts := Chunk(data, offset, m) + Chunk(data, offset + m, n);
    assert forall i :: 0 <= i < m + n ==> whole[i] == parts[i];
  }

  /** `k` transmit steps in which the FIFO accepts every packet. */
  function TransmitRun(s: Usb, k: nat): Usb
    decreases k
  {
    if k == 0 then s else TransmitRun(TransmitStep(s, true), k - 1)
  }

  /**
   * The packets a data stage of `remain` bytes from `offset` is cut into:
   * full 64-byte packets, then one shorter packet.
   */
  function Packets(data: seq<byte>, offset: nat, remain: nat): seq<seq<byte>>
    decreases remain
  {
    if remain < MAX_PACKET_SIZE_EP0 then [Chunk(data, offset, remain)]
    else [Chunk(data, offset, MAX_PACKET_SIZE_EP0)] + Packets(data, offset + MAX_PACKET_SIZE_EP0, remain - MAX_PACKET_SIZE_EP0)
  }

  /**
   * The packets carry exactly the bytes of the data stage, every one of
   * them but the last is full, and the last one is short (empty when the
   * length is a multiple of 64), which tells the host the stage is over.
   */
  lemma {:induction false} PacketsCarryData(data: seq<byte>, offset: nat, remain: nat)
    ensures var p := Packets(data, offset, remain);
      |p| == remain / MAX_PACKET_SIZE_EP0 + 1 && Flatten(p) == Chunk(data, offset, remain) &&
      (forall j :: 0 <= j < |p| - 1 ==> |p[j]| == MAX_PACKET_SIZE_EP0) &&
      |p[|p| - 1]| < MAX_PACKET_SIZE_EP0
    decreases remain
  {
    var p := Packets(data, offset, remain);
    if remain < MAX_PACKET_SIZE_EP0 {
      FlattenCons(p[0], []);
      assert [p[0]] + [] == p;
    } else {
      var c := Chunk(data, offset, MAX_PACKET_SIZE_EP0);
      var rest := Packets(data, offset + MAX_PACKET_SIZE_EP0, remain - MAX_PACKET_SIZE_EP0);
      PacketsCarryData(data, offset + MAX_PACKET_SIZE_EP0, remain - MAX_PACKET_SIZE_EP0);
      assert p == [c] + rest;
      FlattenCons(c, rest);
      ChunkSplit(data, offset, MAX_PACKET_SIZE_EP0, remain - MAX_PACKET_SIZE_EP0);
      assert forall j :: 1 <= j < |p| ==> p[j] == rest[j - 1];
    }
  }

  /**
   * In TX, with the FIFO accepting every packet, endpoint 0 puts the
   * `Packets` of its remaining data into the FIFO, one per interrupt, and
   * then waits in STATUS with nothing left.
   */
  lemma {:induction false} TransmitSendsAll(s: Usb)
    ensures TransmitRun(s, s.ep0.remain / MAX_PACKET_SIZE_EP0 + 1) ==
      s.(ep0 := s.ep0.(state := Status, remain := 0, offset := s.ep0.offset + s.ep0.remain),
         hw := s.hw.(sent := s.hw.sent + Packets(s.ep0.data, s.ep0.offset, s.ep0.remain)))
    decreases s.ep0.remain
  {
    var k := s.ep0.remain / MAX_PACKET_SIZE_EP0 + 1;
    var s1 := TransmitStep(s, true);
    if s.ep0.remain < MAX_PACKET_SIZE_EP0 {
      assert k == 1 && TransmitRun(s, 1) == s1;
    } else {
      var c := Chunk(s.ep0.data, s.ep0.offset, MAX_PACKET_SIZE_EP0);
      var rest := Packets(s.ep0.data, s.ep0.offset + MAX_PACKET_SIZE_EP0, s.ep0.remain - MAX_PACKET_SIZE_EP0);
      assert s1 == s.(ep0 := s.ep0.(state := Tx, remain := s.ep0.remain - MAX_PACKET_SIZE_EP0,
                                    offset := s.ep0.offset + MAX_PACKET_SIZE_EP0),
                      hw := s.hw.(sent := s.hw.sent + [c]));
      TransmitSendsAll(s1);
      assert s1.ep0.remain / MAX_PACKET_SIZE_EP0 + 1 == k - 1;
      assert TransmitRun(s, k) == TransmitRun(s1, k - 1);
      assert (s.hw.sent + [c]) + rest == s.hw.sent + ([c] + rest);
    }
  }

  /**
   * An IN request started in IDLE sends its `length` bytes of data as
   * full packets and one short packet: the first packet at once, the rest
   * on the following TX interrupts.
   */
  lemma InRequestSendsAll(s: Usb, req: Ep0Request)
    requires s.ep0.state == Idle && !req.zeroLengthPacket && req.dir == In
    ensures var k := req.length / MAX_PACKET_SIZE_EP0;
      var r := TransmitRun(SetupEp0RequestStep(s, req, true), k);
      var sent := r.hw.sent;
      r.ep0.state == Status && r.ep0.remain == 0 &&
      |sent| == |s.hw.sent| + k + 1 && sent[..|s.hw.sent|] == s.hw.sent &&
      Flatten(sent[|s.hw.sent|..]) == Chunk(req.data, 0, req.length) &&
      (forall j :: |s.hw.sent| <= j < |sent| - 1 ==> |sent[j]| == MAX_PACKET_SIZE_EP0)
  {
    var s1 := s.(ep0 := s.ep0.(data := req.data, offset := 0, remain := req.length, outDataSize := req.length));
    TransmitSendsAll(s1);
    PacketsCarryData(req.data, 0, req.length);
    var k := req.length / MAX_PACKET_SIZE_EP0;
    assert TransmitRun(s1, k + 1) == TransmitRun(SetupEp0RequestStep(s, req, true), k);
    var p := Packets(req.data, 0, req.length);
    var sent := s.hw.sent + p;
    assert sent[|s.hw.sent|..] == p;
    assert forall j :: |s.hw.sent| <= j < |sent| ==> sent[j] == p[j - |s.hw.sent|];
  }

  /**
   * After the data stage of an IN request, the host's status-stage
   * interrupt resets request 0 and returns endpoint 0 to IDLE.
   */
  lemma StatusStageCompletes(d: Descriptors, s: Usb)
    requires WellFormed(d, s) && s.ep0.state == Status && s.ep0.request.dir == In && !s.ep0.request.zeroLengthPacket
    ensures var r := Ep0EventStep(d, s, Ep0Status(false, false, false), None, true);
      r.ep0.state == Idle && r.ep0.request == EMPTY_REQUEST
  {
  }

  /**
   * SET_ADDRESS only answers with a status stage: the register keeps the
   * old address until the next USB interrupt that is neither a disconnect
   * nor a bus reset, which writes the low byte of wValue.
   */
  lemma SetAddressIsDeferred(d: Descriptors, s: Usb, setup: SetupPacket, ev: UsbEvent, st: Ep0Status,
                             fifo: Option<seq<byte>>, putOk: bool)
    requires WellFormed(d, s) && !ev.disconnect && !ev.reset
    ensures var s1 := SetAddressStep(s, setup);
      s1.bus.address == s.bus.address && s1.ep0.state == Status && s1.bus.updateAddress &&
      var s2 := UsbEventStep(d, s1, ev, st, fifo, putOk);
      s2.bus.address == setup.value % 256 &&
      (!ev.ep0 ==> s2.bus.devState == Addressed && !s2.bus.updateAddress)
  {
  }

  /**
   * A disconnect or a bus reset forgets the configuration and returns
   * endpoint 0 to IDLE; only a disconnect clears the address.
   */
  lemma DisconnectAndResetClear(d: Descriptors, s: Usb, ev: UsbEvent, st: Ep0Status, fifo: Option<seq<byte>>, putOk: bool)
    requires WellFormed(d, s) && (ev.disconnect || ev.reset)
    ensures var r := UsbEventStep(d, s, ev, st, fifo, putOk);
      r.ep0.state == Idle && r.selection == Selection(None, NoAlternates()) && r.bus.devState == Reset &&
      (ev.disconnect ==> r.bus == Bus(Reset, 0, 0, false)) &&
      (!ev.disconnect ==> r.bus.address == s.bus.address && r.bus.pendingAddress == s.bus.pendingAddress)
  {
  }

  /**
   * A configuration is made active only when its bConfigurationValue is
   * the one asked for; then every alternate setting is 0 and its FIFOs are
   * laid out contiguously after endpoint 0's, each covering its largest
   * endpoint. An unknown value changes nothing.
   */
  lemma SetConfigurationSelects(d: Descriptors, s: Usb, value: nat)
    requires WellFormed(d, s)
    ensures var (r, ok) := SetConfigurationStep(d, s, value);
      (ConfigurationByValue(d.configurations, value).None? ==> !ok && r == s) &&
      (ok ==>
        r.selection.active == ConfigurationByValue(d.configurations, value) &&
        ConfigurationValue(d.configurations[r.selection.active.value]) == value &&
        r.selection.alternateSettings == NoAlternates() &&
        var b := d.configurations[r.selection.active.value];
        EndpointNumbersValid(b, Walk(b, 0)) &&
        s.hw.fifos <= r.hw.fifos &&
        PlacedFrom(FifoRequirements(b, Walk(b, 0)), r.hw.fifos[|s.hw.fifos|..], MAX_PACKET_SIZE_EP0, 0))
  {
    match ConfigurationByValue(d.configurations, value)
    case None =>
    case Some(c) =>
      var b := d.configurations[c];
      if NumInterfaces(b) <= MAX_INTERFACE_COUNT && EndpointNumbersValid(b, Walk(b, 0)) {
        var sizes := FifoRequirements(b, Walk(b, 0));
        FifoLayoutContiguous(sizes);
        var (ok1, s1) := ConfigureInterfacesFrom(b, 0, ResetConfigurationStep(s));
        var placed := FifoLayout(sizes).1;
        assert (s1.hw.fifos + placed)[|s.hw.fifos|..] == placed;
      }
  }

  /**
   * SET_CONFIGURATION fails only on a configuration this device does not
   * describe validly: with a known value, at most MAX_INTERFACE_COUNT
   * interfaces, valid endpoint numbers and complete interfaces it succeeds.
   */
  lemma SetConfigurationSucceeds(d: Descriptors, s: Usb, value: nat)
    requires WellFormed(d, s)
    requires ConfigurationByValue(d.configurations, value).Some?
    ensures var b := d.configurations[ConfigurationByValue(d.configurations, value).value];
      SetConfigurationStep(d, s, value).1 <==>
        NumInterfaces(b) <= MAX_INTERFACE_COUNT && EndpointNumbersValid(b, Walk(b, 0)) &&
        ConfigureInterfacesFrom(b, 0, ResetConfigurationStep(s)).0
  {
    var b := d.configurations[ConfigurationByValue(d.configurations, value).value];
    if EndpointNumbersValid(b, Walk(b, 0)) {
      FifoLayoutSucceeds(b, Walk(b, 0));
    }
  }

  /**
   * SET_INTERFACE changes only the alternate setting of the interface it
   * names, and only to an alternate setting the active configuration has.
   */
  lemma AlternateSettingSelects(d: Descriptors, s: Usb, interfaceId: nat, alternate: nat)
    requires WellFormed(d, s)
    ensures var (r, ok) := AlternateSettingStep(d, s, interfaceId, alternate);
      var alts := s.selection.alternateSettings;
      (ok <==>
        (s.selection.active.Some? && interfaceId < MAX_INTERFACE_COUNT &&
         (alts[interfaceId] == alternate ||
          var b := d.configurations[s.selection.active.value];
          InterfaceAfter(b, 0, interfaceId, alternate).Some? &&
          EndpointConfigsFrom(b, InterfaceAfter(b, 0, interfaceId, alternate).value, true, 0).0))) &&
      (ok ==> r.selection.alternateSettings == alts[interfaceId := alternate]) &&
      (!ok ==> r.selection.alternateSettings == alts) &&
      r.selection.active == s.selection.active
  {
  }

  /**
   * Places the FIFO of slot `s` at FIFO address `pos`, when it has a
   * requirement: what it places is how the layout from that slot begins.
   */
  method PlaceFifo(sizes: seq<nat>, s: nat, pos: nat) returns (ok: bool, next: nat, added: seq<FifoAssignment>)
    requires |sizes| == FIFO_SLOTS && s < FIFO_SLOTS
    requires IsU32(sizes[s])
    ensures Continues(LayoutFrom(sizes, s, pos), ok, added, LayoutFrom(sizes, s + 1, next))
  {
    if sizes[s] == 0 {
      assert [] + LayoutFrom(sizes, s + 1, pos).1 == LayoutFrom(sizes, s + 1, pos).1;
      return true, pos, [];
    }
    var flag, bytesUsed := QuantizeEndpointFifoSize(sizes[s], 1, false);
    if bytesUsed < sizes[s] {
      return false, pos + bytesUsed, [];
    }
    return true, pos + bytesUsed, [FifoAssignment(SlotEndpoint(s), SlotDirection(s), pos, flag, bytesUsed)];
  }

  /**
   * The FIFO loop of `setConfiguration`: for endpoints 1 .. NUM_USB_EP-1,
   * the IN and then the OUT FIFO, each placed right after the previous one;
   * it stops at the first requirement no FIFO size covers.
   */
  method LayoutFifos(sizes: seq<nat>) returns (ok: bool, placed: seq<FifoAssignment>)
    requires |sizes| == FIFO_SLOTS
    requires forall t :: 0 <= t < |sizes| ==> IsU32(sizes[t])
    ensures (ok, placed) == FifoLayout(sizes)
  {
    var pos := MAX_PACKET_SIZE_EP0;
    var ep := 1;
    placed := [];
    assert [] + LayoutFrom(sizes, 0, pos).1 == LayoutFrom(sizes, 0, pos).1;
    while ep < NUM_USB_EP
      invariant 1 <= ep <= NUM_USB_EP
      invariant Continues(FifoLayout(sizes), true, placed, LayoutFrom(sizes, 2 * ep - 2, pos))
    {
      var placedIn, afterIn, addedIn := PlaceFifo(sizes, Slot(ep, In), pos);
      ContinuesCompose(FifoLayout(sizes), placed, LayoutFrom(sizes, 2 * ep - 2, pos),
                         placedIn, addedIn, LayoutFrom(sizes, 2 * ep - 1, afterIn));
      placed := placed + addedIn;
      if !placedIn {
        return false, placed;
      }
      var placedOut, afterOut, addedOut := PlaceFifo(sizes, Slot(ep, Out), afterIn);
      ContinuesCompose(FifoLayout(sizes), placed, LayoutFrom(sizes, 2 * ep - 1, afterIn),
                         placedOut, addedOut, LayoutFrom(sizes, 2 * ep, afterOut));
      placed := placed + addedOut;
      if !placedOut {
        return false, placed;
      }
      pos, ep := afterOut, ep + 1;
    }
    assert LayoutFrom(sizes, 2 * ep - 2, pos) == (true, []);
    assert placed + [] == placed;
    return true, placed;
  }

  /** The FIFO requirements of a configuration are packet sizes, so they fit in 32 bits. */
  lemma FifoRequirementsBounded(b: seq<byte>, w: seq<nat>)
    requires EndpointNumbersValid(b, w)
    ensures forall t :: 0 <= t < FIFO_SLOTS ==> IsU32(FifoRequirements(b, w)[t])
  {
    forall t | 0 <= t < FIFO_SLOTS
      ensures IsU32(FifoRequirements(b, w)[t])
    {
      FifoRequirementsAreMaxima(b, w, t);
    }
  }

  // ---------------------------------------------------------------------
  // The device object
  // ---------------------------------------------------------------------

  class UsbDevice {
    const descriptors: Descriptors
    /** The EP0 buffers (gEP0InputBuffer and gEP0OutputBuffer). */
    const inputBuffer: array<byte>
    const outputBuffer: array<byte>

    var ep0State: Ep0State
    var ep0Data: seq<byte>
    var ep0Offset: nat
    var ep0DataRemain: nat
    var outDataSize: nat
    var request0: Ep0Request
    var devState: DeviceState
    var address: byte
    var pendingAddress: nat
    var updateAddress: bool
    var active: Option<nat>
    var alternateSettings: seq<nat>
    var sent: seq<seq<byte>>
    var received: seq<byte>
    var endpoints: seq<EndpointConfig>
    var fifos: seq<FifoAssignment>

    function Ep0(): Ep0Transfer
      reads this
    {
      Ep0Transfer(ep0State, ep0Data, ep0Offset, ep0DataRemain, outDataSize, request0)
    }

    function State(): Usb
      reads this, inputBuffer, outputBuffer
    {
      Usb(Ep0(), Bus(devState, address, pendingAddress, updateAddress), Selection(active, alternateSettings),
          Controller(sent, received, endpoints, fifos), inputBuffer[..], outputBuffer[..])
    }

    predicate Valid()
      reads this, inputBuffer, outputBuffer
    {
      inputBuffer != outputBuffer && WellFormed(descriptors, State())
    }

    /** Construction followed by `start`, with zeroed EP0 buffers. */
    constructor (d: Descriptors)
      ensures Valid() && descriptors == d
      ensures State() == Started(seq(MAX_PACKET_SIZE_EP0, _ => 0), seq(MAX_PACKET_SIZE_EP0, _ => 0))
    {
      descriptors := d;
      inputBuffer := new byte[MAX_PACKET_SIZE_EP0](_ => 0);
      outputBuffer := new byte[MAX_PACKET_SIZE_EP0](_ => 0);
      ep0State, ep0Data, ep0Offset, ep0DataRemain, outDataSize := Idle, [], 0, 0, 0;
      request0 := Ep0Request([], 0, false, Out);
      devState, address, pendingAddress, updateAddress := Unknown, 0, 0, false;
      active, alternateSettings := None, NoAlternates();
      sent, received, endpoints, fifos := [], [], [], [];
    }

    method HandleEp0TransmitState(putOk: bool)
      modifies this
      ensures State() == TransmitStep(old(State()), putOk)
    {
      ghost var s0 := State();
      var n := Min(ep0DataRemain, MAX_PACKET_SIZE_EP0);
      var offset := ep0Offset;
      ep0State, ep0DataRemain, ep0Offset := Tx, ep0DataRemain - n, ep0Offset + n;
      assert State() == s0.(ep0 := s0.ep0.(state := Tx, remain := s0.ep0.remain - n, offset := s0.ep0.offset + n));
      if !putOk {
        return;
      }
      sent := sent + [Chunk(ep0Data, offset, n)];
      if n != MAX_PACKET_SIZE_EP0 {
        ep0State := Status;
      }
    }

    method SetupEp0Request(req: Ep0Request, putOk: bool)
      modifies this
      ensures State() == SetupEp0RequestStep(old(State()), req, putOk)
    {
      if ep0State == Idle && !req.zeroLengthPacket {
        ghost var s0 := State();
        ep0Data, ep0Offset, ep0DataRemain, outDataSize := req.data, 0, req.length, req.length;
        ghost var s1 := s0.(ep0 := s0.ep0.(data := req.data, offset := 0, remain := req.length, outDataSize := req.length));
        assert State() == s1;
        if req.dir == In {
          HandleEp0TransmitState(putOk);
        } else {
          ep0State := Rx;
        }
      }
    }

    method OnEp0RequestComplete()
      modifies this
      ensures State() == RequestCompleteStep(old(State()))
    {
      if request0.dir == In && !request0.zeroLengthPacket {
        request0 := EMPTY_REQUEST;
        ep0State := Idle;
      }
    }

    method StallEp0()
      modifies this
      ensures State() == WithState(old(State()), Stall)
    {
      ep0State := Stall;
    }

    method HandleSetAddressRequest(setup: SetupPacket)
      modifies this
      ensures State() == SetAddressStep(old(State()), setup)
    {
      ep0State := Status;
      pendingAddress := setup.value;
      updateAddress := true;
    }

    method HandleGetStatusRequest(putOk: bool)
      requires Valid()
      modifies this, outputBuffer
      ensures State() == GetStatusStep(old(State()), putOk)
    {
      outputBuffer[0] := 0;
      request0 := Ep0Request(outputBuffer[..], 2, false, In);
      SetupEp0Request(request0, putOk);
    }

    /** Points request 0 at the output buffer holding `n` bytes and starts it, unless `n` is 0. */
    method SendDescriptor(n: nat, putOk: bool)
      modifies this
      ensures State() == DescriptorReady(old(State()), outputBuffer[..], n, putOk)
    {
      if n == 0 {
        request0 := request0.(data := outputBuffer[..], length := 0);
      } else {
        request0 := Ep0Request(outputBuffer[..], n, false, In);
        SetupEp0Request(request0, putOk);
      }
    }

    method HandleGetDescriptorRequest(setup: SetupPacket, putOk: bool)
      requires Valid()
      modifies this, outputBuffer
      ensures State() == GetDescriptorStep(descriptors, old(State()), setup, putOk)
    {
      var kind := setup.value / 256;
      var index := setup.value % 256;
      if kind == USB_DESC_TYPE_DEVICE {
        var n := CopyDeviceDescriptor(descriptors.device, outputBuffer, MAX_PACKET_SIZE_EP0);
        SendDescriptor(n, putOk);
      } else if kind == USB_DESC_TYPE_CONFIGURATION {
        var n := CopyConfigurationDescriptor(descriptors.configurations, index, outputBuffer, MAX_PACKET_SIZE_EP0);
        if n != 0 && setup.length == 9 {
          n := 9;
        }
        SendDescriptor(n, putOk);
      } else if kind == USB_DESC_TYPE_STRING {
        var n := CopyStringDescriptor(descriptors.strings, index, outputBuffer, MAX_PACKET_SIZE_EP0);
        SendDescriptor(n, putOk);
      }
    }

    method ResetConfiguration()
      modifies this
      ensures State() == ResetConfigurationStep(old(State()))
    {
      active := None;
      alternateSettings := NoAlternates();
    }

    method ResetAddress()
      modifies this
      ensures State() == ResetAddressStep(old(State()))
    {
      devState, address, pendingAddress, updateAddress := Reset, 0, 0, false;
    }

    /** `configureInterfaceEndpoints` for the interface at `ifPos` of configuration `b`. */
    method ConfigureInterfaceEndpoints(b: seq<byte>, ifPos: nat, resetFlags: bool) returns (ok: bool)
      modifies this
      ensures var (r, configs) := EndpointConfigsFrom(b, ifPos, !resetFlags, 0);
        ok == r && State() == WithEndpoints(old(State()), configs)
    {
      var configs;
      ok, configs := EndpointConfigs(b, ifPos, !resetFlags);
      endpoints := endpoints + configs;
    }

    /** The interface loop of `setConfiguration`. */
    method ConfigureInterfaces(b: seq<byte>) returns (ok: bool)
      modifies this
      ensures var (r, s) := ConfigureInterfacesFrom(b, 0, old(State()));
        ok == r && State() == s
    {
      var i := 0;
      while i < NumInterfaces(b)
        invariant i <= NumInterfaces(b)
        invariant ConfigureInterfacesFrom(b, 0, old(State())) == ConfigureInterfacesFrom(b, i, State())
      {
        var p := GetInterfaceDescriptor(Some(b), i, 0);
        if p.None? {
          return false;
        }
        if InterfaceNumber(b, p.value) >= MAX_INTERFACE_COUNT {
          return false;
        }
        ok := ConfigureInterfaceEndpoints(b, p.value, true);
        if !ok {
          return;
        }
        i := i + 1;
      }
      return true;
    }

    method SetConfiguration(value: nat) returns (ok: bool)
      requires Valid()
      modifies this
      ensures Valid()
      ensures (State(), ok) == SetConfigurationStep(descriptors, old(State()), value)
    {
      var c := GetConfigurationDescriptorByValue(descriptors.configurations, value);
      if c.None? {
        return false;
      }
      var b := descriptors.configurations[c.value];
      if NumInterfaces(b) > MAX_INTERFACE_COUNT {
        return false;
      }
      var valid, sizes := CollectFifoSizes(b);
      if !valid {
        return false;
      }
      ResetConfiguration();
      ok := ConfigureInterfaces(b);
      if !ok {
        return;
      }
      FifoRequirementsBounded(b, Walk(b, 0));
      var placed;
      ok, placed := LayoutFifos(sizes);
      fifos := fifos + placed;
      if !ok {
        return;
      }
      active := c;
    }

    method SetAlternateSetting(interfaceId: nat, alternate: nat) returns (ok: bool)
      requires Valid()
      modifies this
      ensures Valid()
      ensures (State(), ok) == AlternateSettingStep(descriptors, old(State()), interfaceId, alternate)
    {
      var k := AlternateIndex(State(), interfaceId);
      if k.None? {
        return false;
      }
      if alternateSettings[k.value] == alternate {
        return true;
      }
      var b := descriptors.configurations[active.value];
      var p := GetInterfaceDescriptor(Some(b), interfaceId, alternate);
      if p.None? {
        return false;
      }
      ok := ConfigureInterfaceEndpoints(b, p.value, false);
      if ok {
        alternateSettings := alternateSettings[k.value := alternate];
      }
    }

    method HandleSetConfigurationRequest(setup: SetupPacket, putOk: bool)
      requires Valid()
      modifies this
      ensures Valid()
      ensures State() == SetConfigurationRequestStep(descriptors, old(State()), setup, putOk)
    {
      var c := GetConfigurationDescriptorByValue(descriptors.configurations, setup.value);
      if c.None? {
        StallEp0();
        return;
      }
      request0 := EMPTY_REQUEST;
      SetupEp0Request(request0, putOk);
      if setup.value != 0 {
        var ok := SetConfiguration(setup.value);
        if ok {
          devState := Configured;
        } else {
          StallEp0();
        }
      }
    }

    method HandleSetInterfaceRequest(setup: SetupPacket)
      requires Valid()
      modifies this
      ensures Valid()
      ensures State() == SetInterfaceRequestStep(descriptors, old(State()), setup)
    {
      var ok := SetAlternateSetting(setup.index, setup.value);
      if !ok {
        StallEp0();
      }
    }

    method HandleSetupPacket(p: SetupPacket, putOk: bool)
      requires Valid()
      modifies this, outputBuffer
      ensures Valid()
      ensures State() == SetupPacketStep(descriptors, old(State()), p, putOk)
    {
      if (p.requestType / 32) % 4 != 0 {
        return;
      }
      if p.request == GET_STATUS {
        HandleGetStatusRequest(putOk);
      } else if p.request == SET_ADDRESS {
        HandleSetAddressRequest(p);
      } else if p.request == GET_DESCRIPTOR {
        HandleGetDescriptorRequest(p, putOk);
      } else if p.request == SET_CONFIGURATION {
        HandleSetConfigurationRequest(p, putOk);
      } else if p.request == SET_INTERFACE {
        HandleSetInterfaceRequest(p);
      }
    }

    /** `USBEndpointDataGet` into the input buffer: the bytes read are returned and copied to its front. */
    method ReadSetupPacket(fifo: Option<seq<byte>>) returns (got: seq<byte>)
      requires Valid()
      modifies inputBuffer
      ensures got == FifoRead(fifo, MAX_PACKET_SIZE_EP0)
      ensures inputBuffer[..] == PutAt(old(inputBuffer[..]), 0, got)
    {
      got := FifoRead(fifo, MAX_PACKET_SIZE_EP0);
      var i := 0;
      while i < |got|
        invariant i <= |got|
        invariant forall j :: 0 <= j < inputBuffer.Length ==>
          inputBuffer[j] == if j < i then got[j] else old(inputBuffer[j])
      {
        inputBuffer[i] := got[i];
        i := i + 1;
      }
    }

    method HandleSetupStage(fifo: Option<seq<byte>>, putOk: bool)
      requires Valid()
      modifies this, inputBuffer, outputBuffer
      ensures Valid()
      ensures State() == SetupStageStep(descriptors, old(State()), fifo, putOk)
    {
      var got := ReadSetupPacket(fifo);
      if |got| == 0 {
        return;
      }
      HandleSetupPacket(DecodeSetup(inputBuffer[..]), putOk);
    }

    /** The end of an OUT data stage. */
    method FinishReceive()
      modifies this
      ensures State() == ReceiveDone(old(State()))
    {
      ep0State := Idle;
      OnEp0RequestComplete();
      if outDataSize != 0 {
        outDataSize := 0;
      }
    }

    /** The RX branch of `handleEP0Event` (with the corrected end-of-data test). */
    method ReceiveEp0Data(fifo: Option<seq<byte>>)
      modifies this
      ensures State() == ReceiveStep(old(State()), fifo)
    {
      if fifo.None? {
        return;
      }
      ghost var s0 := State();
      var got := FifoRead(fifo, Min(ep0DataRemain, MAX_PACKET_SIZE_EP0));
      received, ep0Offset, ep0DataRemain := received + got, ep0Offset + |got|, ep0DataRemain - |got|;
      assert State() == Received(s0, got);
      if ep0DataRemain > 0 {
        OnEp0RequestComplete();
      } else {
        FinishReceive();
      }
    }

    method HandleEp0Event(st: Ep0Status, fifo: Option<seq<byte>>, putOk: bool)
      requires Valid()
      modifies this, inputBuffer, outputBuffer
      ensures Valid()
      ensures State() == Ep0EventStep(descriptors, old(State()), st, fifo, putOk)
    {
      if st.sentStall {
        ep0State := Idle;
      }
      if st.setupEnd {
        ep0State := Idle;
      }
      match ep0State {
        case Idle =>
          if st.outPacketReady {
            HandleSetupStage(fifo, putOk);
          }
        case Status =>
          ep0State := Idle;
          OnEp0RequestComplete();
          if st.outPacketReady {
            HandleSetupStage(fifo, putOk);
          }
        case Tx =>
          HandleEp0TransmitState(putOk);
        case Rx =>
          ReceiveEp0Data(fifo);
        case Stall =>
      }
    }

    /** Writes the address SET_ADDRESS recorded to the function address register. */
    method CommitAddress()
      modifies this
      ensures State() == CommitAddressStep(old(State()))
    {
      if pendingAddress != address {
        address := pendingAddress % 256;
      }
      updateAddress, devState := false, Addressed;
    }

    method HandleUsbEvent(ev: UsbEvent, st: Ep0Status, fifo: Option<seq<byte>>, putOk: bool)
      requires Valid()
      modifies this, inputBuffer, outputBuffer
      ensures Valid()
      ensures State() == UsbEventStep(descriptors, old(State()), ev, st, fifo, putOk)
    {
      if ev.disconnect {
        ResetConfiguration();
        ResetAddress();
        ep0State := Idle;
        return;
      }
      if ev.reset {
        ResetConfiguration();
        devState, ep0State := Reset, Idle;
        return;
      }
      if updateAddress {
        CommitAddress();
      }
      if ev.ep0 {
        HandleEp0Event(st, fifo, putOk);
      }
    }
  }
}
