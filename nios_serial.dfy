/**
 * Interrupt-driven UART driver of the Nios II (Cyclone III) demo.
 *
 * The same two queues as the other serial drivers, but no idle flag: instead the
 * interrupt-enable bits of the shadow control word `uartControl` (written to the
 * UART's control register after every change) act as flow control. The transmit
 * interrupt is enabled whenever a byte is queued and disabled when the queue runs
 * dry; the receive interrupt is disabled when a byte has to be dropped and enabled
 * again when a task finds the receive queue empty.
 *
 * The register words are `bv32`; the state functions work on their decoded form
 * (`Control`, `Status`), and small lemmas tie each bit operation of the driver to
 * the corresponding update of the decoded form.
 */
module NiosSerial {
  import opened KernelQueue
  import opened CStrings
  import opened Streams

  /** `unsigned portBASE_TYPE` is 32 bits wide on this port. */
  const WordRange: nat := 0x1_0000_0000

  // Bit masks of the Altera Avalon UART status and control registers.
  const StatusPe: bv32 := 0x0001
  const StatusFe: bv32 := 0x0002
  const StatusTrdy: bv32 := 0x0040
  const StatusRrdy: bv32 := 0x0080
  const ControlTrdy: bv32 := 0x0040
  const ControlRrdy: bv32 := 0x0080
  const ControlDcts: bv32 := 0x0400
  const ControlRts: bv32 := 0x0800

  /** The two control bits the driver sets and clears after initialisation. */
  const FlowBits: bv32 := ControlTrdy | ControlRrdy

  /** The control word written by a successful initialisation: RTS, receive and CTS-change interrupts. */
  const InitialControl: bv32 := ControlRts | ControlRrdy | ControlDcts

  /** A control word: transmit-ready interrupt enable, receive-ready interrupt enable, and all other bits. */
  datatype Control = Control(trdy: bool, rrdy: bool, fixed: bv32)

  /** One reading of the status register, as far as the interrupt handler looks at it. */
  datatype Status = Status(parityError: bool, framingError: bool, txReady: bool, rxReady: bool)

  function DecodeControl(w: bv32): Control
  {
    Control(w & ControlTrdy != 0, w & ControlRrdy != 0, w & !FlowBits)
  }

  function DecodeStatus(w: bv32): Status
  {
    Status(w & StatusPe != 0, w & StatusFe != 0, w & StatusTrdy != 0, w & StatusRrdy != 0)
  }

  /** The control word with the given decoded form. */
  function EncodeControl(c: Control): bv32
  {
    (c.fixed & !FlowBits) | (if c.trdy then ControlTrdy else 0) | (if c.rrdy then ControlRrdy else 0)
  }

  /** Decoding loses nothing: every control word is the encoding of its decoded form. */
  lemma EncodeDecode(w: bv32)
    ensures EncodeControl(DecodeControl(w)) == w
  {
  }

  /** `uartControl |= TRDY` enables the transmit interrupt and changes nothing else. */
  lemma SetTrdy(w: bv32)
    ensures DecodeControl(w | ControlTrdy) == DecodeControl(w).(trdy := true)
  {
  }

  /** `uartControl &= ~TRDY` disables the transmit interrupt and changes nothing else. */
  lemma ClearTrdy(w: bv32)
    ensures DecodeControl(w & !ControlTrdy) == DecodeControl(w).(trdy := false)
  {
  }

  /** `uartControl |= RRDY` enables the receive interrupt and changes nothing else. */
  lemma SetRrdy(w: bv32)
    ensures DecodeControl(w | ControlRrdy) == DecodeControl(w).(rrdy := true)
  {
  }

  /** `uartControl &= ~RRDY` disables the receive interrupt and changes nothing else. */
  lemma ClearRrdy(w: bv32)
    ensures DecodeControl(w & !ControlRrdy) == DecodeControl(w).(rrdy := false)
  {
  }

  /** The handler's test of PE and FE in one mask is the error test on the decoded reading. */
  lemma ErrorMask(w: bv32)
    ensures w & (StatusPe | StatusFe) != 0 <==> DecodeStatus(w).parityError || DecodeStatus(w).framingError
  {
  }

  /** Initialisation enables the receive interrupt, not the transmit one, and sets RTS and DCTS among the fixed bits. */
  lemma InitialControlDecodes()
    ensures DecodeControl(InitialControl) == Control(false, true, ControlRts | ControlDcts)
  {
  }

  /**
   * The driver's state: the receive and transmit queues with their capacities,
   * the decoded `uartControl`, and every byte written to the TXDATA register so far.
   */
  datatype Port = Port(rx: seq<bv8>, rxCap: nat, tx: seq<bv8>, txCap: nat, control: Control, line: seq<bv8>)

  /** Queues within their capacities, and a byte is never left queued with the transmit interrupt disabled. */
  predicate Inv(p: Port)
  {
    |p.rx| <= p.rxCap && |p.tx| <= p.txCap && (p.tx != [] ==> p.control.trdy)
  }

  /** Every byte accepted for transmission: those already written to TXDATA, then those still queued. */
  function Outbound(p: Port): seq<bv8>
  {
    p.line + p.tx
  }

  /** State right after a successful xSerialPortInitMinimal(_, n) (the line keeps what was sent before). */
  function Initial(n: nat, line: seq<bv8>): (p: Port)
    requires n < WordRange
    ensures Inv(p) && p.rx == [] && p.tx == []
    ensures p.control.rrdy && !p.control.trdy
  {
    InitialControlDecodes();
    Port([], n, [], (n + 1) % WordRange, DecodeControl(InitialControl), line)
  }

  /** xSerialPutChar with zero block time: the new state and whether pdPASS is returned. */
  function PutChar(p: Port, c: bv8): (r: (Port, bool))
    ensures r.1 <==> |p.tx| < p.txCap
    ensures r.1 ==> r.0 == p.(tx := p.tx + [c], control := p.control.(trdy := true))
    ensures !r.1 ==> r.0 == p
    ensures Inv(p) ==> Inv(r.0) && Outbound(r.0) == Outbound(p) + (if r.1 then [c] else [])
  {
    var (q, ok) := Send(p.tx, p.txCap, c);
    if ok then (p.(tx := q, control := p.control.(trdy := true)), true) else (p, false)
  }

  /** xSerialGetChar with zero block time: on failure the receive interrupt is enabled again. */
  function GetChar(p: Port): (r: (Port, Option<bv8>))
    ensures r.1.Some? <==> p.rx != []
    ensures r.1.Some? ==> r.1.value == p.rx[0] && r.0 == p.(rx := p.rx[1..])
    ensures r.1.None? ==> r.0 == p.(control := p.control.(rrdy := true))
    ensures Inv(p) ==> Inv(r.0)
  {
    match Receive(p.rx)
    case (q, Some(b)) => (p.(rx := q), Some(b))
    case (_, None) => (p.(control := p.control.(rrdy := true)), None)
  }

  /** A parity or framing error flagged in the status reading. */
  predicate RxError(s: Status)
  {
    s.parityError || s.framingError
  }

  /**
   * vUARTReceiveHandler: a byte with a parity or framing error is discarded; a byte
   * that finds the queue full is dropped and masks the receive interrupt.
   */
  function ReceiveHandler(p: Port, s: Status, data: bv8): (r: Port)
    ensures RxError(s) ==> r == p
    ensures !RxError(s) && |p.rx| < p.rxCap ==> r == p.(rx := p.rx + [data])
    ensures !RxError(s) && |p.rx| >= p.rxCap ==> r == p.(control := p.control.(rrdy := false))
    ensures Inv(p) ==> Inv(r)
  {
    if RxError(s) then p
    else
      var (q, ok) := Send(p.rx, p.rxCap, data);
      if ok then p.(rx := q) else p.(control := p.control.(rrdy := false))
  }

  /** vUARTTransmitHandler: the next queued byte goes to TXDATA, or the transmit interrupt is masked. */
  function TransmitHandler(p: Port): (r: Port)
    ensures p.tx != [] ==> r == p.(tx := p.tx[1..], line := p.line + [p.tx[0]])
    ensures p.tx == [] ==> r == p.(control := p.control.(trdy := false))
    ensures Outbound(r) == Outbound(p)
    ensures Inv(p) ==> Inv(r)
  {
    match Receive(p.tx)
    case (q, Some(b)) => p.(tx := q, line := p.line + [b])
    case (_, None) => p.(control := p.control.(trdy := false))
  }

  /** vUARTInterruptHandler: one reading of the status register selects the receive path, the transmit path, or both, in that order. */
  function InterruptHandler(p: Port, s: Status, data: bv8): (r: Port)
    ensures Outbound(r) == Outbound(p)
    ensures r.control.fixed == p.control.fixed && r.rxCap == p.rxCap && r.txCap == p.txCap
    ensures !s.rxReady ==> r.rx == p.rx
    ensures !s.txReady ==> r.tx == p.tx && r.line == p.line
    ensures Inv(p) ==> Inv(r)
  {
    var p1 := if s.rxReady then ReceiveHandler(p, s, data) else p;
    if s.txReady then TransmitHandler(p1) else p1
  }

  /** Sending a sequence of bytes one after the other (the loop of vSerialPutString). */
  function PutBytes(p: Port, bs: seq<bv8>): (r: Port)
    ensures r.rx == p.rx && r.rxCap == p.rxCap && r.txCap == p.txCap
    ensures r.control.rrdy == p.control.rrdy && r.control.fixed == p.control.fixed
    ensures p.control.trdy ==> r.control.trdy
    ensures Inv(p) ==> Inv(r)
    decreases |bs|
  {
    if bs == [] then p else PutBytes(PutChar(p, bs[0]).0, bs[1..])
  }

  /** vSerialPutString: every byte before the NUL, each with zero block time; the length argument is ignored. */
  function PutString(p: Port, s: seq<bv8>): Port
  {
    PutBytes(p, BeforeNul(s))
  }

  function Min(a: int, b: int): int
  {
    if a <= b then a else b
  }

  /**
   * A burst of bytes fills the free transmit slots in order and the bytes that do
   * not fit are lost; once one byte is queued the transmit interrupt is enabled.
   */
  lemma {:induction false} PutBytesAcceptsPrefix(p: Port, bs: seq<bv8>)
    requires Inv(p)
    ensures Outbound(PutBytes(p, bs)) == Outbound(p) + bs[..Min(|bs|, p.txCap - |p.tx|)]
    ensures bs != [] && |p.tx| < p.txCap ==> PutBytes(p, bs).control.trdy
    decreases |bs|
  {
    if bs != [] {
      var (p1, ok) := PutChar(p, bs[0]);
      assert PutBytes(p, bs) == PutBytes(p1, bs[1..]);
      PutBytesAcceptsPrefix(p1, bs[1..]);
      if ok {
        var k := Min(|bs|, p.txCap - |p.tx|);
        assert Min(|bs| - 1, p1.txCap - |p1.tx|) == k - 1;
        AcceptFirst(Outbound(p), bs, k);
      }
    }
  }

  /** vSerialPutString sends the bytes before the NUL that fit, in order, and leaves the receive side alone. */
  lemma PutStringSendsPrefix(p: Port, s: seq<bv8>)
    requires Inv(p)
    ensures Outbound(PutString(p, s)) == Outbound(p) + BeforeNul(s)[..Min(|BeforeNul(s)|, p.txCap - |p.tx|)]
    ensures PutString(p, s).rx == p.rx
  {
    PutBytesAcceptsPrefix(p, BeforeNul(s));
  }

  /** A task or interrupt step, as seen from outside the driver. */
  datatype Event = Put(c: bv8) | Get | Interrupt(status: Status, data: bv8)

  /** A state together with the bytes PutChar accepted and the bytes GetChar returned, oldest first. */
  datatype Trace = Trace(port: Port, accepted: seq<bv8>, delivered: seq<bv8>)

  /** One event: the new state, what it accepted for sending and what it handed to the task. */
  function Step(p: Port, e: Event): (t: Trace)
    ensures t.port.rxCap == p.rxCap && t.port.txCap == p.txCap
    ensures t.port.control.fixed == p.control.fixed
    ensures Inv(p) ==> Inv(t.port)
  {
    match e
    case Put(c) =>
      var (p1, ok) := PutChar(p, c);
      Trace(p1, if ok then [c] else [], [])
    case Get =>
      var (p1, b) := GetChar(p);
      Trace(p1, [], if b.Some? then [b.value] else [])
    case Interrupt(s, data) =>
      Trace(InterruptHandler(p, s, data), [], [])
  }

  function Run(p: Port, evs: seq<Event>): (t: Trace)
    ensures t.port.rxCap == p.rxCap && t.port.txCap == p.txCap
    ensures Inv(p) ==> Inv(t.port)
    decreases |evs|
  {
    if evs == [] then Trace(p, [], [])
    else
      var s := Step(p, evs[0]);
      var t := Run(s.port, evs[1..]);
      Trace(t.port, s.accepted + t.accepted, s.delivered + t.delivered)
  }

  /** The byte an interrupt hands to the receive path: status RRDY set and no parity or framing error. */
  function ArrivalsOf(e: Event): seq<bv8>
  {
    if e.Interrupt? && e.status.rxReady && !RxError(e.status) then [e.data] else []
  }

  function Arrivals(evs: seq<Event>): seq<bv8>
    decreases |evs|
  {
    if evs == [] then [] else ArrivalsOf(evs[0]) + Arrivals(evs[1..])
  }

  /** The receive queue has room for every byte that arrives, event by event, as the run goes on. */
  predicate NoDrop(p: Port, evs: seq<Event>)
    decreases |evs|
  {
    evs == [] || (|p.rx| + |ArrivalsOf(evs[0])| <= p.rxCap && NoDrop(Step(p, evs[0]).port, evs[1..]))
  }

  /** One event moves accepted bytes to the outbound stream. */
  lemma StepTransmits(p: Port, e: Event)
    requires Inv(p)
    ensures Outbound(Step(p, e).port) == Outbound(p) + Step(p, e).accepted
  {
  }

  /** One event, without overflow, moves the arrived byte to the receive queue and hands its head to the task. */
  lemma StepReceives(p: Port, e: Event)
    requires |p.rx| + |ArrivalsOf(e)| <= p.rxCap
    ensures Step(p, e).delivered + Step(p, e).port.rx == p.rx + ArrivalsOf(e)
  {
    if e.Get? && p.rx != [] {
      assert p.rx == [p.rx[0]] + p.rx[1..];
    }
  }

  /** Transmit order: the bytes accepted by xSerialPutChar reach TXDATA in the order they were accepted, none lost or duplicated. */
  lemma {:induction false} TransmitInOrder(p: Port, evs: seq<Event>)
    requires Inv(p)
    ensures Outbound(Run(p, evs).port) == Outbound(p) + Run(p, evs).accepted
    decreases |evs|
  {
    if evs != [] {
      var s := Step(p, evs[0]);
      var t := Run(s.port, evs[1..]);
      StepTransmits(p, evs[0]);
      TransmitInOrder(s.port, evs[1..]);
      assert Run(p, evs) == Trace(t.port, s.accepted + t.accepted, s.delivered + t.delivered);
      assert Outbound(t.port) == (Outbound(p) + s.accepted) + t.accepted;
    }
  }

  /**
   * Receive order: when the receive queue never has to drop a byte, the tasks read
   * exactly the error-free received bytes, in arrival order (with the rest still queued).
   */
  lemma {:induction false} ReceiveInOrder(p: Port, evs: seq<Event>)
    requires NoDrop(p, evs)
    ensures Run(p, evs).delivered + Run(p, evs).port.rx == p.rx + Arrivals(evs)
    decreases |evs|
  {
    if evs != [] {
      var s := Step(p, evs[0]);
      var t := Run(s.port, evs[1..]);
      var here, later := ArrivalsOf(evs[0]), Arrivals(evs[1..]);
      assert Arrivals(evs) == here + later;
      StepReceives(p, evs[0]);
      ReceiveInOrder(s.port, evs[1..]);
      assert Run(p, evs) == Trace(t.port, s.accepted + t.accepted, s.delivered + t.delivered);
      Splice(s.delivered, t.delivered, t.port.rx, s.port.rx, later, p.rx, here);
    }
  }

  /** Room for every arrival of the whole run up front is one way, the strictest, to never drop a byte. */
  lemma {:induction false} RoomForAllNoDrop(p: Port, evs: seq<Event>)
    requires |p.rx| + |Arrivals(evs)| <= p.rxCap
    ensures NoDrop(p, evs)
    decreases |evs|
  {
    if evs != [] {
      var s := Step(p, evs[0]);
      assert Arrivals(evs) == ArrivalsOf(evs[0]) + Arrivals(evs[1..]);
      StepReceives(p, evs[0]);
      assert |s.port.rx| <= |p.rx| + |ArrivalsOf(evs[0])|;
      RoomForAllNoDrop(s.port, evs[1..]);
    }
  }

  /** Two bytes through a one-byte receive queue: the task reads the first before the second arrives, so nothing is dropped. */
  lemma ReadBetweenArrivals()
    ensures var p := Port([], 1, [], 1, Control(false, true, 0), []);
            var ok := Status(false, false, false, true);
            var evs := [Interrupt(ok, 1), Get, Interrupt(ok, 2)];
            NoDrop(p, evs) && |Arrivals(evs)| > p.rxCap && Run(p, evs).delivered == [1] && Run(p, evs).port.rx == [2]
  {
    var p := Port([], 1, [], 1, Control(false, true, 0), []);
    var ok := Status(false, false, false, true);
    var evs := [Interrupt(ok, 1), Get, Interrupt(ok, 2)];
    var q1, q3 := p.(rx := [1]), p.(rx := [2]);
    assert evs[1..][1..] == evs[2..] && evs[2..][1..] == [];
    assert Step(p, evs[0]) == Trace(q1, [], []);
    assert Step(q1, evs[1]) == Trace(p, [], [1]);
    assert Step(p, evs[2]) == Trace(q3, [], []);
    assert Run(p, evs[2..]) == Trace(q3, [], []);
    assert Run(q1, evs[1..]) == Trace(q3, [], [1]);
    assert Run(p, evs) == Trace(q3, [], [1]);
    assert NoDrop(p, evs[2..]);
    assert NoDrop(q1, evs[1..]);
    assert Arrivals(evs) == [1, 2] by {
      assert Arrivals(evs[2..]) == [2];
      assert Arrivals(evs[1..]) == [2];
    }
  }

  /** No sequence of calls or interrupts touches any control bit but TRDY and RRDY: RTS and the CTS-change interrupt stay as initialised. */
  lemma {:induction false} OnlyFlowBitsChange(p: Port, evs: seq<Event>)
    ensures Run(p, evs).port.control.fixed == p.control.fixed
    decreases |evs|
  {
    if evs != [] {
      OnlyFlowBitsChange(Step(p, evs[0]).port, evs[1..]);
    }
  }

  /** k calls of xSerialGetChar in a row. */
  function ReadMany(p: Port, k: nat): (r: Port)
    ensures |r.rx| == if k <= |p.rx| then |p.rx| - k else 0
    decreases k
  {
    if k == 0 then p else ReadMany(GetChar(p).0, k - 1)
  }

  /**
   * Once a byte is dropped the receive interrupt stays masked while the tasks read
   * the queued bytes; only the read that finds the queue empty enables it again.
   */
  lemma {:induction false} ReceiveStaysMaskedUntilEmptyRead(p: Port, k: nat)
    requires !p.control.rrdy
    requires k <= |p.rx|
    ensures !ReadMany(p, k).control.rrdy
    ensures k == |p.rx| ==> GetChar(ReadMany(p, k)).0.control.rrdy
    decreases k
  {
    if k > 0 {
      ReceiveStaysMaskedUntilEmptyRead(GetChar(p).0, k - 1);
    }
  }

  /** The driver's global variables and the part of the UART it drives. */
  class UartDriver {
    var rxCreated: bool       // xRxedChars is a valid handle
    var txCreated: bool       // xCharsForTx is a valid handle
    var rxQueue: seq<bv8>
    var rxCapacity: nat
    var txQueue: seq<bv8>
    var txCapacity: nat
    var uartControl: Control  // the shadow control word, decoded; the register holds EncodeControl(uartControl)
    var handlerRegistered: bool
    var line: seq<bv8>        // every byte written to TXDATA, oldest first

    function View(): Port
      reads this
    {
      Port(rxQueue, rxCapacity, txQueue, txCapacity, uartControl, line)
    }

    /** Queues created, handler registered, and the port invariant. */
    predicate Valid()
      reads this
    {
      rxCreated && txCreated && handlerRegistered && Inv(View())
    }

    /** Program start: no queues, no interrupt handler, a zero control word. */
    constructor ()
      ensures !rxCreated && !txCreated && !handlerRegistered
      ensures uartControl == DecodeControl(0)
      ensures rxQueue == [] && txQueue == [] && line == []
    {
      rxCreated, txCreated, handlerRegistered := false, false, false;
      uartControl := DecodeControl(0);
      rxQueue, txQueue, line := [], [], [];
      rxCapacity, txCapacity := 0, 0;
    }

    /**
     * xSerialPortInitMinimal: returns handle 1 when both queues could be created
     * (whether the kernel could allocate each is an input), handle 0 otherwise.
     */
    method SerialPortInitMinimal(wantedBaud: nat, queueLength: nat, rxAllocated: bool, txAllocated: bool)
      returns (handle: nat)
      requires queueLength < WordRange
      modifies this
      ensures handle == if rxAllocated && txAllocated then 1 else 0
      ensures rxCreated == rxAllocated && txCreated == txAllocated
      ensures rxCapacity == queueLength && txCapacity == (queueLength + 1) % WordRange
      ensures rxQueue == [] && txQueue == [] && line == old(line)
      ensures handle == 1 ==> Valid() && View() == Initial(queueLength, old(line))
      ensures handle == 1 ==> EncodeControl(uartControl) == InitialControl
      ensures handle == 0 ==> uartControl == old(uartControl)
      ensures handle == 0 ==> handlerRegistered == old(handlerRegistered)
    {
      rxCreated, rxQueue, rxCapacity := rxAllocated, [], queueLength;
      txCreated, txQueue, txCapacity := txAllocated, [], (queueLength + 1) % WordRange;
      if rxCreated && txCreated {
        uartControl := DecodeControl(InitialControl);
        EncodeDecode(InitialControl);
        handlerRegistered := true;
        handle := 1;
      } else {
        handle := 0;
      }
    }

    /** xSerialGetChar with zero block time. */
    method SerialGetChar() returns (ok: bool, c: bv8)
      requires Valid()
      modifies this
      ensures Valid()
      ensures ok ==> old(rxQueue) != [] && c == old(rxQueue)[0]
      ensures (View(), if ok then Some(c) else None) == GetChar(old(View()))
    {
      if rxQueue != [] {
        ok, c := true, rxQueue[0];
        rxQueue := rxQueue[1..];
      } else {
        uartControl := uartControl.(rrdy := true);
        ok, c := false, 0;
      }
    }

    /** xSerialPutChar with zero block time; returns true for pdPASS. */
    method SerialPutChar(c: bv8) returns (ok: bool)
      requires Valid()
      modifies this
      ensures Valid()
      ensures (View(), ok) == PutChar(old(View()), c)
    {
      if |txQueue| < txCapacity {
        txQueue := txQueue + [c];
        uartControl := uartControl.(trdy := true);
        ok := true;
      } else {
        ok := false;
      }
    }

    /** vSerialPutString: `s` must hold a NUL; `stringLength` is not used. */
    method SerialPutString(s: seq<bv8>, stringLength: nat)
      requires Valid()
      requires 0 in s
      modifies this
      ensures Valid()
      ensures View() == PutString(old(View()), s)
    {
      ghost var bytes := BeforeNul(s);
      var i := 0;
      while s[i] != 0
        invariant 0 <= i <= |bytes|
        invariant Valid()
        invariant PutBytes(View(), bytes[i..]) == PutString(old(View()), s)
        decreases |bytes| - i
      {
        assert s[i] == bytes[i];
        assert bytes[i..][1..] == bytes[i + 1..];
        var _ := SerialPutChar(s[i]);
        i := i + 1;
      }
      assert bytes[i..] == [];
    }

    /** vUARTReceiveHandler, given the decoded status reading and the RXDATA byte. */
    method UartReceiveHandler(status: Status, data: bv8)
      requires Valid()
      modifies this
      ensures Valid()
      ensures View() == ReceiveHandler(old(View()), status, data)
    {
      if status.parityError || status.framingError {
        return;
      }
      if |rxQueue| < rxCapacity {
        rxQueue := rxQueue + [data];
      } else {
        uartControl := uartControl.(rrdy := false);
      }
    }

    /** vUARTTransmitHandler. */
    method UartTransmitHandler()
      requires Valid()
      modifies this
      ensures Valid()
      ensures View() == TransmitHandler(old(View()))
    {
      if txQueue != [] {
        line := line + [txQueue[0]];
        txQueue := txQueue[1..];
      } else {
        uartControl := uartControl.(trdy := false);
      }
    }

    /** vUARTInterruptHandler, given the status register and the RXDATA byte. */
    method UartInterruptHandler(status: bv32, data: bv8)
      requires Valid()
      modifies this
      ensures Valid()
      ensures View() == InterruptHandler(old(View()), DecodeStatus(status), data)
    {
      var reading := DecodeStatus(status);
      if reading.rxReady {
        UartReceiveHandler(reading, data);
      }
      if reading.txReady {
        UartTransmitHandler();
      }
    }
  }
}
