/** The USB virtual COM port bridge (VCP/vcp_if.c).

    Downlink (USB OUT -> UART): two 64-byte pages, each tagged with a
    PageStatus; one receives from the host while the other is sent by the
    UART transmit DMA.  Uplink (UART -> USB IN): the UART receive DMA fills a
    128-byte circular buffer and a cursor `index` trails its write position.

    The first half of the module states every handler as a pure step on a
    `State` value and proves what the handlers keep; the class `Bridge` at the
    end holds the state the firmware keeps in `VCP_Memory` and `SerialConfig`
    and implements each handler as one atomic method proved against its step.
    Calls into the USB, UART and DMA drivers are recorded as `Call` values. */
module Vcp {
  import opened CTypes

  const OutDataSize: nat := 128
  const InDataSize: nat := 128
  /** Capacity of one downlink page: VCP_OUT_DATA_SIZE / 2. */
  const PageSize: nat := OutDataSize / 2

  /** BufferStatusType, in its declaration order. */
  datatype PageStatus = Empty | Full | Receiving | Transmitting

  datatype StopBits = OneStopBit | TwoStopBits
  datatype Parity = NoParity | OddParity | EvenParity

  /** The fields of `SerialConfig` that the bridge ever changes; direction,
      sampling, flow control and duplex keep their initial values. */
  datatype UartConfig = UartConfig(baudrate: U32, dataSize: U8, stopBits: StopBits, parity: Parity)

  const DefaultConfig := UartConfig(115200, 8, OneStopBit, NoParity)

  /** The line coding structure of a CDC SET_LINE_CODING request
      (USB CDC PSTN Subclass 1.2, section 6.3.11, Table 17). */
  datatype LineCoding = LineCoding(dteRate: U32, charFormat: U8, parityType: U8, dataBits: U8)

  datatype Request = SetLineCoding(line: LineCoding) | GetLineCoding | OtherRequest

  /** A call the bridge makes into a driver, in the order it makes them. */
  datatype Call =
    | UartInit(config: UartConfig)                               // USART_vInitAsync
    | StopTransmitDma                                            // DMA_vStop(Transmit)
    | StopReceiveDma                                             // DMA_vStop(Receive)
    | UsbReceive(page: nat, size: nat)                           // USBD_CDC_Receive into a page
    | ClearRxFlag                                                // USART_FLAG_CLEAR(RXNE)
    | UartReceiveCircular(size: nat)                             // USART_eReceive_DMA
    | UartTransmit(page: nat, length: nat)                       // USART_eTransmit_DMA from a page
    | UsbTransmit(offset: nat, length: nat, accepted: bool)      // USBD_CDC_Transmit and its verdict
    | UartDeinit                                                 // USART_vDeinit

  /** The bridge state: OutStatus, OutLength, Index and SerialConfig. */
  datatype State = State(status: seq<PageStatus>, outLength: U16, index: nat, config: UartConfig)

  /** The state after a handler and the driver calls it made. */
  datatype Outcome = Outcome(next: State, calls: seq<Call>)

  /** The zero-initialised global memory before the first VCP_Init. */
  const PowerOn := State([Empty, Empty], 0, 0, DefaultConfig)

  predicate WellFormed(s: State)
  {
    |s.status| == 2 && s.index <= InDataSize
  }

  /** The six page-status pairs the downlink handlers can reach once the
      bridge has been initialised. */
  predicate Reachable(status: seq<PageStatus>)
  {
    || status == [Receiving, Empty] || status == [Empty, Receiving]
    || status == [Transmitting, Receiving] || status == [Receiving, Transmitting]
    || status == [Transmitting, Full] || status == [Full, Transmitting]
  }

  /** Reachable, or still the power-on pair before any VCP_Init. */
  predicate Settled(status: seq<PageStatus>)
  {
    Reachable(status) || status == [Empty, Empty]
  }

  function ReceivingPage(status: seq<PageStatus>): (page: nat)
    requires |status| == 2
  {
    if status[0] == Receiving then 0 else 1
  }

  function TransmittingPage(status: seq<PageStatus>): (page: nat)
    requires |status| == 2
  {
    if status[0] == Transmitting then 0 else 1
  }

  // ---------------------------------------------------------------------
  // Handlers as steps

  /** VCP_Init: restart the UART, stop both DMAs, receive into page 0 and
      restart the circular reception with the cursor at 0. */
  function InitStep(s: State): (r: Outcome)
    ensures WellFormed(r.next) && Reachable(r.next.status)
    ensures r.next.status == [Receiving, Empty] && r.next.index == 0
    ensures r.next.config == s.config && r.next.outLength == s.outLength
    ensures UartInit(s.config) in r.calls
    ensures UsbReceive(0, PageSize) in r.calls && UartReceiveCircular(InDataSize) in r.calls
    ensures forall c | c in r.calls :: !c.UartTransmit? && !c.UsbTransmit?
  {
    Outcome(State([Receiving, Empty], s.outLength, 0, s.config),
            [UartInit(s.config), StopTransmitDma, StopReceiveDma,
             UsbReceive(0, PageSize), ClearRxFlag, UartReceiveCircular(InDataSize)])
  }

  /** The SET_LINE_CODING translation from the CDC fields to the UART setup. */
  function LineCodingConfig(line: LineCoding): (c: UartConfig)
    ensures c.baudrate == line.dteRate && c.dataSize == line.dataBits
    ensures c.stopBits == TwoStopBits <==> line.charFormat == 2
    ensures c.parity == OddParity <==> line.parityType == 1
    ensures c.parity == EvenParity <==> line.parityType == 2
  {
    UartConfig(line.dteRate, line.dataBits,
               if line.charFormat == 2 then TwoStopBits else OneStopBit,
               if line.parityType == 1 then OddParity
               else if line.parityType == 2 then EvenParity
               else NoParity)
  }

  /** VCP_USB_Control; GET_LINE_CODING only writes the request buffer. */
  function ControlStep(s: State, req: Request): (r: Outcome)
    ensures req.SetLineCoding? ==>
              && r.next == State([Receiving, Empty], s.outLength, 0, LineCodingConfig(req.line))
              && UartInit(LineCodingConfig(req.line)) in r.calls
              && UsbReceive(0, PageSize) in r.calls && UartReceiveCircular(InDataSize) in r.calls
              && forall c | c in r.calls :: !c.UartTransmit? && !c.UsbTransmit?
    ensures !req.SetLineCoding? ==> r.next == s && r.calls == []
  {
    match req
    case SetLineCoding(line) => InitStep(s.(config := LineCodingConfig(line)))
    case _ => Outcome(s, [])
  }

  /** VCP_USB_ReceiveNew: the host delivered `length` bytes into the receiving page. */
  function ReceiveNewStep(s: State, length: U16): (r: Outcome)
    requires |s.status| == 2
    ensures |r.next.status| == 2 && r.next.index == s.index && r.next.config == s.config
    ensures Reachable(s.status) && Receiving in s.status ==> Reachable(r.next.status)
    ensures forall c | c in r.calls :: !c.UsbTransmit?
    ensures forall c | c in r.calls :: c.UartTransmit? ==>
              c == UartTransmit(ReceivingPage(s.status), length)
  {
    var page := ReceivingPage(s.status);
    if s.status[1 - page] == Transmitting then
      Outcome(s.(status := s.status[page := Full], outLength := length), [])
    else
      Outcome(s.(status := s.status[page := Transmitting][1 - page := Receiving]),
              [UartTransmit(page, length), UsbReceive(1 - page, PageSize)])
  }

  /** VCP_UART_Transmitted: the UART finished sending the transmitting page. */
  function TransmittedStep(s: State): (r: Outcome)
    requires |s.status| == 2
    ensures |r.next.status| == 2 && r.next.index == s.index && r.next.config == s.config
    ensures r.next.outLength == s.outLength
    ensures Reachable(s.status) && Transmitting in s.status ==> Reachable(r.next.status)
    ensures forall c | c in r.calls :: !c.UsbTransmit?
    ensures forall c | c in r.calls :: c.UartTransmit? ==>
              c.page < 2 && s.status[c.page] == Full && c.length == s.outLength
  {
    var page := TransmittingPage(s.status);
    var emptied := s.status[page := Empty];
    if emptied[1 - page] == Full then
      Outcome(s.(status := emptied[1 - page := Transmitting][page := Receiving]),
              [UartTransmit(1 - page, s.outLength), UsbReceive(page, PageSize)])
    else
      Outcome(s.(status := emptied), [])
  }

  /** The buffer positions `offset`, ..., `offset + length - 1`. */
  function Range(offset: nat, length: nat): (r: seq<nat>)
    ensures |r| == length
  {
    seq(length, i requires 0 <= i < length => offset + i)
  }

  /** `n` consecutive positions of the circular buffer starting at `start`. */
  function Positions(start: nat, n: nat): (r: seq<nat>)
    ensures |r| == n
  {
    seq(n, i requires 0 <= i < n => (start + i) % InDataSize)
  }

  /** The uplink buffer positions handed to the host by accepted transfers, in order. */
  function Delivered(calls: seq<Call>): (positions: seq<nat>)
  {
    if calls == [] then []
    else
      (match calls[0]
       case UsbTransmit(offset, length, true) => Range(offset, length)
       case _ => [])
      + Delivered(calls[1..])
  }

  /** VCP_USB_TransmitNew: forward what the receive DMA wrote since the cursor.
      `remaining` is the DMA's remaining count, `accepted` whether the USB
      stack takes the transfer. */
  function ScanStep(s: State, remaining: nat, accepted: bool): (r: Outcome)
    requires WellFormed(s) && remaining <= InDataSize
    ensures WellFormed(r.next)
    ensures r.next.status == s.status && r.next.outLength == s.outLength && r.next.config == s.config
    ensures |r.calls| <= 1 && forall c | c in r.calls :: c.UsbTransmit? && c.offset + c.length <= InDataSize
    ensures Contiguous(s.index, r.calls, r.next.index)
    ensures s.index == InDataSize - remaining ==> r == Outcome(s, [])
  {
    var rxIndex := InDataSize - remaining;
    if s.index < rxIndex then
      var c := UsbTransmit(s.index, rxIndex - s.index, accepted);
      assert Delivered([c]) == if accepted then Range(s.index, rxIndex - s.index) else [];
      assert accepted ==> Range(s.index, rxIndex - s.index) == Positions(s.index, rxIndex - s.index);
      Outcome(if accepted then s.(index := rxIndex) else s, [c])
    else if s.index > rxIndex then
      var c := UsbTransmit(s.index, InDataSize - s.index, accepted);
      assert Delivered([c]) == if accepted then Range(s.index, InDataSize - s.index) else [];
      assert accepted ==> Range(s.index, InDataSize - s.index) == Positions(s.index, InDataSize - s.index);
      Outcome(if accepted then s.(index := 0) else s, [c])
    else
      Outcome(s, [])
  }

  // ---------------------------------------------------------------------
  // Event runs

  /** The events that drive the bridge: the CDC class callbacks, the UART
      transmit-complete callback and the periodic tick. */
  datatype Event =
    | Configure                                               // CDC Init -> VCP_Init
    | Deconfigure                                             // CDC Deinit -> VCP_Deinit
    | ControlRequest(req: Request)                            // VCP_USB_Control
    | ChunkReceived(length: U16)                              // VCP_USB_ReceiveNew
    | UartTransmitDone                                        // VCP_UART_Transmitted
    | UsbInDone(remaining: nat, accepted: bool)               // VCP_USB_TransmitNew
    | Tick(configured: bool, remaining: nat, accepted: bool)  // VCP_Periodic
  {
    /** The events that restart the bridge through VCP_Init. */
    predicate Restarts()
    {
      Configure? || (ControlRequest? && req.SetLineCoding?)
    }
  }

  /** What the drivers guarantee before an event is delivered: a chunk only
      arrives into a page a USB receive was issued for, and fits the page; a
      transmit completes only while a page is being transmitted; the DMA's
      remaining count never exceeds the buffer. */
  predicate Enabled(s: State, e: Event)
    requires |s.status| == 2
  {
    match e
    case ChunkReceived(length) => Receiving in s.status && length <= PageSize
    case UartTransmitDone => Transmitting in s.status
    case UsbInDone(remaining, _) => remaining <= InDataSize
    case Tick(_, remaining, _) => remaining <= InDataSize
    case _ => true
  }

  function Step(s: State, e: Event): (r: Outcome)
    requires WellFormed(s) && Enabled(s, e)
    ensures WellFormed(r.next)
  {
    var r := match e
      case Configure => InitStep(s)
      case Deconfigure => Outcome(s, [UartDeinit])
      case ControlRequest(req) => ControlStep(s, req)
      case ChunkReceived(length) => ReceiveNewStep(s, length)
      case UartTransmitDone => TransmittedStep(s)
      case UsbInDone(remaining, accepted) => ScanStep(s, remaining, accepted)
      case Tick(configured, remaining, accepted) =>
        if configured then ScanStep(s, remaining, accepted) else Outcome(s, []);
    r
  }

  lemma {:induction false} DeliveredNone(calls: seq<Call>)
    requires forall c | c in calls :: !c.UsbTransmit?
    ensures Delivered(calls) == []
  {
    if calls != [] {
      assert calls[0] in calls;
      DeliveredNone(calls[1..]);
    }
  }

  /** Every enabled event keeps the page pair among the six reachable pairs
      (or at the power-on pair), and outside a restart hands the host the
      uplink positions that follow the cursor. */
  lemma StepKeeps(s: State, e: Event)
    requires WellFormed(s) && Enabled(s, e)
    ensures Reachable(s.status) ==> Reachable(Step(s, e).next.status)
    ensures Settled(s.status) ==> Settled(Step(s, e).next.status)
    ensures !e.Restarts() ==> Contiguous(s.index, Step(s, e).calls, Step(s, e).next.index)
  {
    var r := Step(s, e);
    if !e.UsbInDone? && !e.Tick? {
      DeliveredNone(r.calls);
    }
  }

  predicate EnabledRun(s: State, evs: seq<Event>)
    requires WellFormed(s)
    decreases |evs|
  {
    evs == [] || (Enabled(s, evs[0]) && EnabledRun(Step(s, evs[0]).next, evs[1..]))
  }

  /** The events applied in order; the calls of all handlers concatenated. */
  function Run(s: State, evs: seq<Event>): (r: Outcome)
    requires WellFormed(s) && EnabledRun(s, evs)
    ensures WellFormed(r.next)
    decreases |evs|
  {
    if evs == [] then Outcome(s, [])
    else
      var first := Step(s, evs[0]);
      var rest := Run(first.next, evs[1..]);
      Outcome(rest.next, first.calls + rest.calls)
  }

  /** The UART transmissions among some calls. */
  function Transmissions(calls: seq<Call>): (r: seq<Call>)
    ensures forall c | c in r :: c.UartTransmit? && c in calls
  {
    if calls == [] then []
    else (if calls[0].UartTransmit? then [calls[0]] else []) + Transmissions(calls[1..])
  }

  // ---------------------------------------------------------------------
  // Properties of runs

  /** Page exclusivity: from the power-on state the page pair stays settled,
      and once initialised it stays among the six reachable pairs, so two
      transmitting or two full pages never occur. */
  lemma {:induction false} RunKeepsPagesExclusive(s: State, evs: seq<Event>)
    requires WellFormed(s) && EnabledRun(s, evs)
    ensures Settled(s.status) ==> Settled(Run(s, evs).next.status)
    ensures Reachable(s.status) ==> Reachable(Run(s, evs).next.status)
    ensures Reachable(s.status) ==>
              Run(s, evs).next.status != [Transmitting, Transmitting]
              && Run(s, evs).next.status != [Full, Full]
    decreases |evs|
  {
    if evs != [] {
      StepKeeps(s, evs[0]);
      RunKeepsPagesExclusive(Step(s, evs[0]).next, evs[1..]);
    }
  }

  lemma {:induction false} DeliveredAppend(a: seq<Call>, b: seq<Call>)
    ensures Delivered(a + b) == Delivered(a) + Delivered(b)
    decreases |a|
  {
    if a == [] {
      assert a + b == b;
    } else {
      assert (a + b)[1..] == a[1..] + b;
      DeliveredAppend(a[1..], b);
    }
  }

  lemma {:induction false} TransmissionsAppend(a: seq<Call>, b: seq<Call>)
    ensures Transmissions(a + b) == Transmissions(a) + Transmissions(b)
    decreases |a|
  {
    if a == [] {
      assert a + b == b;
    } else {
      assert (a + b)[1..] == a[1..] + b;
      TransmissionsAppend(a[1..], b);
    }
  }

  /** Consecutive runs of circular positions join into one. */
  lemma PositionsJoin(a: nat, n: nat, b: nat, m: nat)
    requires b % InDataSize == (a + n) % InDataSize
    ensures Positions(a, n) + Positions(b, m) == Positions(a, n + m)
  {
    var joined, whole := Positions(a, n) + Positions(b, m), Positions(a, n + m);
    forall i | 0 <= i < n + m
      ensures joined[i] == whole[i]
    {
      if i >= n {
        ModShift(b, a + n, i - n);
      }
    }
  }

  lemma ModShift(x: nat, y: nat, i: nat)
    requires x % InDataSize == y % InDataSize
    ensures (x + i) % InDataSize == (y + i) % InDataSize
  {
    var k := InDataSize;
    assert x == (x / k) * k + x % k;
    assert y == (y / k) * k + y % k;
    assert x + i == (x / k) * k + (x % k + i);
    assert y + i == (y / k) * k + (y % k + i);
    ModMultipleAdd(x / k, x % k + i);
    ModMultipleAdd(y / k, y % k + i);
  }

  lemma ModMultipleAdd(q: nat, r: nat)
    ensures (q * InDataSize + r) % InDataSize == r % InDataSize
  {
    if q > 0 {
      ModMultipleAdd(q - 1, r);
      assert q * InDataSize + r == (q - 1) * InDataSize + r + InDataSize;
    }
  }

  /** The accepted transfers among `calls` hand over consecutive circular
      positions from `start`, and `finish` is the position just past them. */
  predicate Contiguous(start: nat, calls: seq<Call>, finish: nat)
  {
    var d := Delivered(calls);
    d == Positions(start, |d|) && finish % InDataSize == (start + |d|) % InDataSize
  }

  lemma ContiguousJoin(a: nat, first: seq<Call>, b: nat, rest: seq<Call>, f: nat)
    requires Contiguous(a, first, b) && Contiguous(b, rest, f)
    ensures Contiguous(a, first + rest, f)
  {
    var n, m := |Delivered(first)|, |Delivered(rest)|;
    DeliveredAppend(first, rest);
    PositionsJoin(a, n, b, m);
    ModShift(b, a + n, m);
  }

  /** Uplink order: without a restart, the bytes handed to the host over any
      run are consecutive positions of the circular buffer starting at the
      cursor, and the cursor ends just past them; nothing is skipped or sent
      twice except through the DMA overwriting unread bytes. */
  lemma {:induction false} UplinkIsContiguous(s: State, evs: seq<Event>)
    requires WellFormed(s) && EnabledRun(s, evs)
    requires forall e | e in evs :: !e.Restarts()
    ensures Contiguous(s.index, Run(s, evs).calls, Run(s, evs).next.index)
    decreases |evs|
  {
    if evs != [] {
      var e := evs[0];
      assert e in evs;
      var first := Step(s, e);
      StepKeeps(s, e);
      assert forall x | x in evs[1..] :: x in evs;
      UplinkIsContiguous(first.next, evs[1..]);
      var rest := Run(first.next, evs[1..]);
      ContiguousJoin(s.index, first.calls, first.next.index, rest.calls, rest.next.index);
    }
  }

  /** Events that leave the downlink alone while a page waits as FULL. */
  lemma {:induction false} FullPageWaits(s: State, pre: seq<Event>, p: nat)
    requires WellFormed(s) && Reachable(s.status) && p < 2 && s.status[p] == Full
    requires EnabledRun(s, pre)
    requires forall e | e in pre :: e != UartTransmitDone && !e.Restarts()
    ensures Run(s, pre).next.status == s.status && Run(s, pre).next.outLength == s.outLength
    ensures Transmissions(Run(s, pre).calls) == []
    decreases |pre|
  {
    if pre != [] {
      var e := pre[0];
      assert e in pre;
      assert !e.ChunkReceived?;
      var first := Step(s, e);
      assert first.next.status == s.status && first.next.outLength == s.outLength;
      assert Transmissions(first.calls) == [] by {
        if first.calls != [] {
          assert !first.calls[0].UartTransmit?;
          assert first.calls[1..] == [];
        }
      }
      assert forall x | x in pre[1..] :: x in pre;
      FullPageWaits(first.next, pre[1..], p);
      TransmissionsAppend(first.calls, Run(first.next, pre[1..]).calls);
    }
  }

  lemma SwapTransmissions(p: nat, length: nat, q: nat)
    ensures Transmissions([UartTransmit(p, length), UsbReceive(q, PageSize)]) == [UartTransmit(p, length)]
  {
    var calls := [UartTransmit(p, length), UsbReceive(q, PageSize)];
    assert calls[1..] == [UsbReceive(q, PageSize)];
    assert calls[1..][1..] == [];
    assert Transmissions(calls[1..][1..]) == [];
    assert Transmissions(calls[1..]) == [];
  }

  /** No loss under backpressure: a page left FULL waits, untouched, through
      any events before the next transmit-complete, and that transmit-complete
      hands it to the UART exactly once, with the length recorded when it was
      filled; it is then TRANSMITTING, no longer FULL. */
  lemma FullPageHandedOnce(s: State, pre: seq<Event>, p: nat)
    requires WellFormed(s) && Reachable(s.status) && p < 2 && s.status[p] == Full
    requires EnabledRun(s, pre)
    requires forall e | e in pre :: e != UartTransmitDone && !e.Restarts()
    ensures var waited := Run(s, pre);
            var done := TransmittedStep(waited.next);
            && Transmissions(waited.calls) == []
            && Transmissions(done.calls) == [UartTransmit(p, s.outLength)]
            && done.next.status[p] == Transmitting
  {
    FullPageWaits(s, pre, p);
    var waited := Run(s, pre);
    var done := TransmittedStep(waited.next);
    assert TransmittingPage(waited.next.status) == 1 - p;
    assert done.calls == [UartTransmit(p, s.outLength), UsbReceive(1 - p, PageSize)];
    SwapTransmissions(p, s.outLength, 1 - p);
  }

  /** A chunk that arrives while the other page is transmitting is queued,
      and the next transmit-complete sends exactly that chunk. */
  lemma QueuedChunkIsSent(s: State, length: U16)
    requires WellFormed(s) && Reachable(s.status) && Receiving in s.status && Transmitting in s.status
    ensures var q := ReceiveNewStep(s, length);
            var t := TransmittedStep(q.next);
            && q.calls == []
            && q.next.status[ReceivingPage(s.status)] == Full
            && Transmissions(t.calls) == [UartTransmit(ReceivingPage(s.status), length)]
  {
    var q := ReceiveNewStep(s, length);
    var t := TransmittedStep(q.next);
    var p := ReceivingPage(s.status);
    assert q.next.status[p] == Full && q.next.status[1 - p] == Transmitting && q.next.outLength == length;
    assert TransmittingPage(q.next.status) == 1 - p;
    assert t.calls == [UartTransmit(p, length), UsbReceive(1 - p, PageSize)];
    SwapTransmissions(p, length, 1 - p);
  }

  /** A repeated scan with no new data forwards nothing: after a scan that
      caught up with the DMA write position, the next scan at the same
      position leaves the state alone and calls nothing. */
  lemma RepeatScanIsNoOp(s: State, remaining: nat, accepted: bool)
    requires WellFormed(s) && remaining <= InDataSize && s.index <= InDataSize - remaining
    ensures var first := ScanStep(s, remaining, true);
            ScanStep(first.next, remaining, accepted) == Outcome(first.next, [])
  {
  }

  /** A restart (a new configuration or SET_LINE_CODING) resets the bridge
      whatever its state: the pages become [Receiving, Empty] and the cursor
      0, SET_LINE_CODING installs its line coding, and a chunk that was
      queued as FULL is dropped: the next transmit-complete hands nothing to
      the UART. */
  lemma RestartDropsQueuedPage(s: State, e: Event)
    requires WellFormed(s) && Enabled(s, e) && e.Restarts()
    ensures var r := Step(s, e).next;
            && r.status == [Receiving, Empty] && r.index == 0 && r.outLength == s.outLength
            && (e.ControlRequest? ==> r.config == LineCodingConfig(e.req.line))
            && Transmissions(TransmittedStep(r).calls) == []
  {
    var r := Step(s, e).next;
    assert TransmittedStep(r).calls == [];
  }

  // ---------------------------------------------------------------------
  // The bridge as the firmware keeps it

  class Bridge {
    /** VCP_Memory.OutStatus */
    const outStatus: array<PageStatus>
    /** VCP_Memory.OutLength */
    var outLength: U16
    /** VCP_Memory.Index */
    var index: nat
    /** SerialConfig */
    var serialConfig: UartConfig
    /** The driver calls made so far. */
    var calls: seq<Call>

    ghost predicate Valid()
      reads this
    {
      outStatus.Length == 2 && index <= InDataSize
    }

    function Snapshot(): (s: State)
      reads this, outStatus
      requires Valid()
      ensures WellFormed(s)
    {
      State(outStatus[..], outLength, index, serialConfig)
    }

    /** The statically initialised globals. */
    constructor ()
      ensures Valid() && fresh(outStatus)
      ensures Snapshot() == PowerOn && calls == []
    {
      outStatus := new PageStatus[2](_ => Empty);
      outLength := 0;
      index := 0;
      serialConfig := DefaultConfig;
      calls := [];
    }

    /** VCP_Init */
    method Init()
      requires Valid()
      modifies this, outStatus
      ensures Valid()
      ensures outStatus[..] == [Receiving, Empty] && index == 0
      ensures outLength == old(outLength) && serialConfig == old(serialConfig)
      ensures calls == old(calls) + [UartInit(serialConfig), StopTransmitDma, StopReceiveDma,
                                     UsbReceive(0, PageSize), ClearRxFlag, UartReceiveCircular(InDataSize)]
      ensures Outcome(Snapshot(), calls[|old(calls)|..]) == InitStep(old(Snapshot()))
    {
      calls := calls + [UartInit(serialConfig), StopTransmitDma, StopReceiveDma];
      outStatus[0] := Receiving;
      outStatus[1] := Empty;
      calls := calls + [UsbReceive(0, PageSize)];
      index := 0;
      calls := calls + [ClearRxFlag, UartReceiveCircular(InDataSize)];
      assert outStatus[..] == [Receiving, Empty];
    }

    /** VCP_Deinit */
    method Deinit()
      requires Valid()
      modifies this
      ensures Valid() && Snapshot() == old(Snapshot())
      ensures calls == old(calls) + [UartDeinit]
    {
      calls := calls + [UartDeinit];
    }

    /** VCP_USB_Control */
    method Control(req: Request)
      requires Valid()
      modifies this, outStatus
      ensures Valid()
      ensures req.SetLineCoding? ==>
                serialConfig == LineCodingConfig(req.line) && outStatus[..] == [Receiving, Empty] && index == 0
      ensures |calls| >= |old(calls)| && calls[..|old(calls)|] == old(calls)
      ensures Outcome(Snapshot(), calls[|old(calls)|..]) == ControlStep(old(Snapshot()), req)
    {
      match req {
        case SetLineCoding(line) =>
          serialConfig := serialConfig.(baudrate := line.dteRate);
          serialConfig := serialConfig.(dataSize := line.dataBits);
          if line.charFormat == 2 {
            serialConfig := serialConfig.(stopBits := TwoStopBits);
          } else {
            serialConfig := serialConfig.(stopBits := OneStopBit);
          }
          if line.parityType == 1 {
            serialConfig := serialConfig.(parity := OddParity);
          } else if line.parityType == 2 {
            serialConfig := serialConfig.(parity := EvenParity);
          } else {
            serialConfig := serialConfig.(parity := NoParity);
          }
          Init();
        case GetLineCoding =>
        case OtherRequest =>
      }
    }

    /** VCP_USB_ReceiveNew */
    method ReceiveNew(length: U16)
      requires Valid()
      modifies this, outStatus
      ensures Valid() && index == old(index) && serialConfig == old(serialConfig)
      ensures var page := ReceivingPage(old(outStatus[..]));
              old(outStatus[1 - page]) == Transmitting ==>
                && outStatus[page] == Full && outStatus[1 - page] == Transmitting
                && outLength == length && calls == old(calls)
      ensures var page := ReceivingPage(old(outStatus[..]));
              old(outStatus[1 - page]) != Transmitting ==>
                && outStatus[page] == Transmitting && outStatus[1 - page] == Receiving
                && outLength == old(outLength)
                && calls == old(calls) + [UartTransmit(page, length), UsbReceive(1 - page, PageSize)]
      ensures Outcome(Snapshot(), calls[|old(calls)|..]) == ReceiveNewStep(old(Snapshot()), length)
    {
      var page := if outStatus[0] == Receiving then 0 else 1;
      if outStatus[1 - page] == Transmitting {
        outStatus[page] := Full;
        outLength := length;
      } else {
        outStatus[page] := Transmitting;
        calls := calls + [UartTransmit(page, length)];
        outStatus[1 - page] := Receiving;
        calls := calls + [UsbReceive(1 - page, PageSize)];
      }
    }

    /** VCP_UART_Transmitted */
    method Transmitted()
      requires Valid()
      modifies this, outStatus
      ensures Valid() && index == old(index) && serialConfig == old(serialConfig)
      ensures outLength == old(outLength)
      ensures var page := TransmittingPage(old(outStatus[..]));
              old(outStatus[1 - page]) == Full ==>
                && outStatus[1 - page] == Transmitting && outStatus[page] == Receiving
                && calls == old(calls) + [UartTransmit(1 - page, outLength), UsbReceive(page, PageSize)]
      ensures var page := TransmittingPage(old(outStatus[..]));
              old(outStatus[1 - page]) != Full ==>
                && outStatus[page] == Empty && outStatus[1 - page] == old(outStatus[1 - page])
                && calls == old(calls)
      ensures Outcome(Snapshot(), calls[|old(calls)|..]) == TransmittedStep(old(Snapshot()))
    {
      var page := if outStatus[0] == Transmitting then 0 else 1;
      outStatus[page] := Empty;
      if outStatus[1 - page] == Full {
        outStatus[1 - page] := Transmitting;
        calls := calls + [UartTransmit(1 - page, outLength)];
        outStatus[page] := Receiving;
        calls := calls + [UsbReceive(page, PageSize)];
      }
    }

    /** VCP_USB_TransmitNew, with the receive DMA's remaining count and the
        USB stack's verdict on the transfer as inputs. */
    method TransmitNew(remaining: nat, accepted: bool)
      requires Valid() && remaining <= InDataSize
      modifies this
      ensures Valid() && outLength == old(outLength) && serialConfig == old(serialConfig)
      ensures var rxIndex := InDataSize - remaining;
              && (old(index) < rxIndex ==>
                    calls == old(calls) + [UsbTransmit(old(index), rxIndex - old(index), accepted)]
                    && index == (if accepted then rxIndex else old(index)))
              && (old(index) > rxIndex ==>
                    calls == old(calls) + [UsbTransmit(old(index), InDataSize - old(index), accepted)]
                    && index == (if accepted then 0 else old(index)))
              && (old(index) == rxIndex ==> calls == old(calls) && index == old(index))
      ensures Outcome(Snapshot(), calls[|old(calls)|..]) == ScanStep(old(Snapshot()), remaining, accepted)
    {
      var rxIndex := InDataSize - remaining;
      if index < rxIndex {
        calls := calls + [UsbTransmit(index, rxIndex - index, accepted)];
        if accepted {
          index := rxIndex;
        }
      } else if index > rxIndex {
        calls := calls + [UsbTransmit(index, InDataSize - index, accepted)];
        if accepted {
          index := 0;
        }
      }
    }

    /** VCP_Periodic: scan the uplink only while the device is configured. */
    method Periodic(configured: bool, remaining: nat, accepted: bool)
      requires Valid() && remaining <= InDataSize
      modifies this
      ensures Valid()
      ensures !configured ==> Snapshot() == old(Snapshot()) && calls == old(calls)
      ensures |calls| >= |old(calls)| && calls[..|old(calls)|] == old(calls)
      ensures Outcome(Snapshot(), calls[|old(calls)|..])
              == Step(old(Snapshot()), Tick(configured, remaining, accepted))
    {
      if configured {
        TransmitNew(remaining, accepted);
      }
    }
  }
}
