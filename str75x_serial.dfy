/**
 * Interrupt-driven driver for UART0 of the STR75x (ARM7) demo.
 *
 * Received bytes are moved by the interrupt into a receive queue; bytes to send
 * wait in a transmit queue one slot longer. The flag `xQueueEmpty` (here
 * `txIdle`) says that the transmitter has nothing in flight, in which case
 * the next byte is written straight to the data register instead of being
 * queued. Every task call and every interrupt is one atomic step.
 */
module Str75xSerial {
  import opened KernelQueue
  import opened CStrings
  import opened Streams

  /** `unsigned portBASE_TYPE` is 32 bits wide on this port. */
  const WordRange: nat := 0x1_0000_0000

  /** One reading of UART0->MIS inside the interrupt loop, with the byte UART0->DR yields when the receive bit is set. */
  datatype Mis = Mis(transmit: bool, receive: bool, rxByte: bv8)

  /**
   * The driver's module-level state: the receive queue and the transmit queue with
   * their capacities, the idle flag, and every byte written to UART0->DR so far.
   */
  datatype Port = Port(rx: seq<bv8>, rxCap: nat, tx: seq<bv8>, txCap: nat, txIdle: bool, line: seq<bv8>)

  /** Queues within their capacities, and an idle transmitter never leaves bytes waiting. */
  predicate Inv(p: Port)
  {
    |p.rx| <= p.rxCap && |p.tx| <= p.txCap && (p.txIdle ==> p.tx == [])
  }

  /** Every byte accepted for transmission and not yet lost: those on the line, then those still queued. */
  function Outbound(p: Port): seq<bv8>
  {
    p.line + p.tx
  }

  /** State right after a successful xSerialPortInitMinimal(_, n). */
  function Initial(n: nat): (p: Port)
    requires n < WordRange
    ensures Inv(p) && p.txIdle && p.rx == [] && p.tx == []
  {
    Port([], n, [], (n + 1) % WordRange, true, [])
  }

  /** xSerialPutChar with zero block time: the new state and whether pdPASS is returned. */
  function PutChar(p: Port, c: bv8): (r: (Port, bool))
    ensures !r.0.txIdle
    ensures r.1 <==> p.txIdle || |p.tx| < p.txCap
    ensures r.0.rx == p.rx && r.0.rxCap == p.rxCap && r.0.txCap == p.txCap
    ensures p.txIdle ==> r.0.tx == p.tx && r.0.line == p.line + [c]
    ensures !p.txIdle ==> r.0.line == p.line && r.0.tx == (if r.1 then p.tx + [c] else p.tx)
    ensures Inv(p) ==> Inv(r.0) && Outbound(r.0) == Outbound(p) + (if r.1 then [c] else [])
  {
    if p.txIdle then
      (p.(line := p.line + [c], txIdle := false), true)
    else
      var (q, ok) := Send(p.tx, p.txCap, c);
      (p.(tx := q, txIdle := false), ok)
  }

  /** xSerialGetChar with zero block time: the new state and the byte received, if any. */
  function GetChar(p: Port): (r: (Port, Option<bv8>))
    ensures r.1.Some? <==> p.rx != []
    ensures r.1.Some? ==> r.1.value == p.rx[0] && r.0 == p.(rx := p.rx[1..])
    ensures r.1.None? ==> r.0 == p
    ensures Inv(p) ==> Inv(r.0)
  {
    var (q, b) := Receive(p.rx);
    (p.(rx := q), b)
  }

  /** The transmit branch of the interrupt: send the next queued byte, or mark the transmitter idle. */
  function TransmitInterrupt(p: Port): (r: Port)
    ensures r.rx == p.rx && r.rxCap == p.rxCap && r.txCap == p.txCap
    ensures Outbound(r) == Outbound(p)
    ensures p.tx != [] ==> r.line == p.line + [p.tx[0]] && r.txIdle == p.txIdle
    ensures p.tx == [] ==> r.line == p.line && r.txIdle
    ensures Inv(p) ==> Inv(r)
  {
    match Receive(p.tx)
    case (q, Some(b)) => p.(tx := q, line := p.line + [b])
    case (_, None) => p.(txIdle := true)
  }

  /** The receive branch of the interrupt: queue the byte, or drop it when the queue is full. */
  function ReceiveInterrupt(p: Port, b: bv8): (r: Port)
    ensures r.tx == p.tx && r.txIdle == p.txIdle && r.line == p.line
    ensures r.rxCap == p.rxCap && r.txCap == p.txCap
    ensures |p.rx| < p.rxCap ==> r.rx == p.rx + [b]
    ensures |p.rx| >= p.rxCap ==> r == p
    ensures Inv(p) ==> Inv(r)
  {
    p.(rx := Send(p.rx, p.rxCap, b).0)
  }

  predicate Pending(m: Mis)
  {
    m.transmit || m.receive
  }

  /** One pass of the interrupt loop: the transmit bit is served before the receive bit. */
  function ServiceOnce(p: Port, m: Mis): (r: Port)
    ensures r.rxCap == p.rxCap && r.txCap == p.txCap
    ensures Outbound(r) == Outbound(p)
    ensures r.rx == p.rx + (if m.receive && |p.rx| < p.rxCap then [m.rxByte] else [])
    ensures Inv(p) ==> Inv(r)
  {
    var p1 := if m.transmit then TransmitInterrupt(p) else p;
    if m.receive then ReceiveInterrupt(p1, m.rxByte) else p1
  }

  /** Passes over the readings, in order. */
  function ServiceAll(p: Port, ms: seq<Mis>): (r: Port)
    ensures r.rxCap == p.rxCap && r.txCap == p.txCap
    ensures Outbound(r) == Outbound(p)
    ensures Inv(p) ==> Inv(r)
    decreases |ms|
  {
    if ms == [] then p else ServiceAll(ServiceOnce(p, ms[0]), ms[1..])
  }

  /** The readings taken while MIS is still non-zero. */
  function PendingPrefix(ms: seq<Mis>): (r: seq<Mis>)
    ensures r <= ms
    ensures forall i :: 0 <= i < |r| ==> Pending(r[i])
    ensures |r| < |ms| ==> !Pending(ms[|r|])
    decreases |ms|
  {
    if ms == [] || !Pending(ms[0]) then [] else [ms[0]] + PendingPrefix(ms[1..])
  }

  /** The readings vSerialISR acts on: the first one always (a do-while loop), then the pending ones. */
  function Serviced(ms: seq<Mis>): (r: seq<Mis>)
    ensures r <= ms
    ensures ms != [] ==> r != []
  {
    if ms == [] then [] else [ms[0]] + PendingPrefix(ms[1..])
  }

  /** vSerialISR, given the successive readings of MIS (the register reads zero after the last). */
  function Isr(p: Port, ms: seq<Mis>): (r: Port)
    ensures Outbound(r) == Outbound(p)
    ensures Inv(p) ==> Inv(r)
  {
    ServiceAll(p, Serviced(ms))
  }

  /** The bytes the readings deliver to the receive side. */
  function RxBytes(ms: seq<Mis>): seq<bv8>
    decreases |ms|
  {
    if ms == [] then [] else (if ms[0].receive then [ms[0].rxByte] else []) + RxBytes(ms[1..])
  }

  /** Without overflow, every received byte joins the tail of the receive queue, in arrival order. */
  lemma {:induction false} ServiceAllReceives(p: Port, ms: seq<Mis>)
    requires |p.rx| + |RxBytes(ms)| <= p.rxCap
    ensures ServiceAll(p, ms).rx == p.rx + RxBytes(ms)
    decreases |ms|
  {
    if ms != [] {
      var here := if ms[0].receive then [ms[0].rxByte] else [];
      var p1 := ServiceOnce(p, ms[0]);
      assert RxBytes(ms) == here + RxBytes(ms[1..]);
      assert p1.rx == p.rx + here && p1.rxCap == p.rxCap;
      assert ServiceAll(p, ms) == ServiceAll(p1, ms[1..]);
      ServiceAllReceives(p1, ms[1..]);
      Associate(p.rx, here, RxBytes(ms[1..]));
    }
  }

  /** Sending a sequence of bytes one after the other (the loop of vSerialPutString). */
  function PutBytes(p: Port, bs: seq<bv8>): (r: Port)
    ensures r.rx == p.rx && r.rxCap == p.rxCap && r.txCap == p.txCap
    ensures bs != [] ==> !r.txIdle
    ensures Inv(p) ==> Inv(r)
    decreases |bs|
  {
    if bs == [] then p else PutBytes(PutChar(p, bs[0]).0, bs[1..])
  }

  /** vSerialPutString: every byte before the NUL, each with zero block time; the length argument is ignored. */
  function PutString(p: Port, s: seq<bv8>): Port
  {
    PutBytes(p, BeforeNul(s))
  }

  /** How many more bytes the port accepts before a call returns pdFAIL: one direct write if idle, plus free queue slots. */
  function Room(p: Port): int
  {
    (if p.txIdle then 1 else 0) + p.txCap - |p.tx|
  }

  function Min(a: int, b: int): int
  {
    if a <= b then a else b
  }

  /**
   * A burst of bytes is accepted as long as there is room and silently dropped from
   * then on: exactly the first min(|bs|, Room(p)) bytes reach the line or the queue,
   * in order.
   */
  lemma {:induction false} PutBytesAcceptsPrefix(p: Port, bs: seq<bv8>)
    requires Inv(p)
    ensures Outbound(PutBytes(p, bs)) == Outbound(p) + bs[..Min(|bs|, Room(p))]
    decreases |bs|
  {
    if bs != [] {
      var p1 := PutChar(p, bs[0]).0;
      PutCharRoom(p, bs[0]);
      assert PutBytes(p, bs) == PutBytes(p1, bs[1..]);
      PutBytesAcceptsPrefix(p1, bs[1..]);
      if Room(p) > 0 {
        var k := Min(|bs|, Room(p));
        assert Min(|bs| - 1, Room(p1)) == k - 1;
        AcceptFirst(Outbound(p), bs, k);
      }
    }
  }

  /** vSerialPutString sends the bytes before the NUL that fit, in order, and leaves the receive side alone. */
  lemma PutStringSendsPrefix(p: Port, s: seq<bv8>)
    requires Inv(p)
    ensures Outbound(PutString(p, s)) == Outbound(p) + BeforeNul(s)[..Min(|BeforeNul(s)|, Room(p))]
    ensures PutString(p, s).rx == p.rx
  {
    PutBytesAcceptsPrefix(p, BeforeNul(s));
  }

  /** One put uses up one unit of room when there is any, and changes nothing when there is none. */
  lemma PutCharRoom(p: Port, c: bv8)
    requires Inv(p)
    ensures Room(p) >= 0
    ensures PutChar(p, c).1 <==> Room(p) > 0
    ensures Room(p) > 0 ==> Inv(PutChar(p, c).0) && Room(PutChar(p, c).0) == Room(p) - 1
    ensures Room(p) > 0 ==> Outbound(PutChar(p, c).0) == Outbound(p) + [c]
    ensures Room(p) <= 0 ==> PutChar(p, c).0 == p
  {
  }

  /**
   * Right after initialisation with queue length n the driver accepts n + 2 bytes
   * without any interrupt: one written directly, n + 1 queued.
   */
  lemma FreshPortAcceptsLengthPlusTwo(n: nat, bs: seq<bv8>)
    requires n + 1 < WordRange
    ensures Outbound(PutBytes(Initial(n), bs)) == bs[..Min(|bs|, n + 2)]
  {
    var p := Initial(n);
    assert (n + 1) % WordRange == n + 1;
    assert Room(p) == n + 2;
    PutBytesAcceptsPrefix(p, bs);
  }

  /** A task or interrupt step, as seen from outside the driver. */
  datatype Event = Put(c: bv8) | Get | Interrupt(ms: seq<Mis>)

  /** A state together with the bytes PutChar accepted and the bytes GetChar returned, oldest first. */
  datatype Trace = Trace(port: Port, accepted: seq<bv8>, delivered: seq<bv8>)

  /** One event: the new state, what it accepted for sending and what it handed to the task. */
  function Step(p: Port, e: Event): (t: Trace)
    ensures t.port.rxCap == p.rxCap && t.port.txCap == p.txCap
    ensures Inv(p) ==> Inv(t.port)
  {
    match e
    case Put(c) =>
      var (p1, ok) := PutChar(p, c);
      Trace(p1, if ok then [c] else [], [])
    case Get =>
      var (p1, b) := GetChar(p);
      Trace(p1, [], if b.Some? then [b.value] else [])
    case Interrupt(ms) =>
      Trace(Isr(p, ms), [], [])
  }

  function Run(p: Port, evs: seq<Event>): (t: Trace)
    ensures t.port.rxCap == p.rxCap && t.port.txCap == p.txCap
    ensures Inv(p) ==> Inv(t.port)
    decreases |evs|
  {
    if evs == [] then Trace(p, [], [])
    else
      var s := Step(p, evs[0]);
      var t := Run(s.port, evs[1..]);
      Trace(t.port, s.accepted + t.accepted, s.delivered + t.delivered)
  }

  /** The bytes that arrive with the receive bit set during one event. */
  function ArrivalsOf(e: Event): seq<bv8>
  {
    if e.Interrupt? then RxBytes(Serviced(e.ms)) else []
  }

  /** Every byte that arrives with the receive bit set during the events, in order. */
  function Arrivals(evs: seq<Event>): seq<bv8>
    decreases |evs|
  {
    if evs == [] then [] else ArrivalsOf(evs[0]) + Arrivals(evs[1..])
  }

  /** The receive queue has room for every byte that arrives, event by event, as the run goes on. */
  predicate NoDrop(p: Port, evs: seq<Event>)
    decreases |evs|
  {
    evs == [] || (|p.rx| + |ArrivalsOf(evs[0])| <= p.rxCap && NoDrop(Step(p, evs[0]).port, evs[1..]))
  }

  /** One event moves accepted bytes to the outbound stream. */
  lemma StepTransmits(p: Port, e: Event)
    requires Inv(p)
    ensures Outbound(Step(p, e).port) == Outbound(p) + Step(p, e).accepted
  {
  }

  /** One event, without overflow, moves arrived bytes to the receive queue and hands its head to the task. */
  lemma StepReceives(p: Port, e: Event)
    requires |p.rx| + |ArrivalsOf(e)| <= p.rxCap
    ensures Step(p, e).delivered + Step(p, e).port.rx == p.rx + ArrivalsOf(e)
  {
    match e
    case Put(c) =>
    case Get =>
      if p.rx != [] {
        assert p.rx == [p.rx[0]] + p.rx[1..];
      }
    case Interrupt(ms) =>
      ServiceAllReceives(p, Serviced(ms));
  }

  /** Transmit order: the bytes accepted by xSerialPutChar reach the line in the order they were accepted, none lost or duplicated. */
  lemma {:induction false} TransmitInOrder(p: Port, evs: seq<Event>)
    requires Inv(p)
    ensures Outbound(Run(p, evs).port) == Outbound(p) + Run(p, evs).accepted
    decreases |evs|
  {
    if evs != [] {
      var s := Step(p, evs[0]);
      var t := Run(s.port, evs[1..]);
      StepTransmits(p, evs[0]);
      TransmitInOrder(s.port, evs[1..]);
      assert Run(p, evs) == Trace(t.port, s.accepted + t.accepted, s.delivered + t.delivered);
      assert Outbound(t.port) == (Outbound(p) + s.accepted) + t.accepted;
    }
  }

  /**
   * Receive order: when the receive queue never has to drop a byte, the tasks read
   * exactly the received bytes, in arrival order (with the rest still queued).
   */
  lemma {:induction false} ReceiveInOrder(p: Port, evs: seq<Event>)
    requires NoDrop(p, evs)
    ensures Run(p, evs).delivered + Run(p, evs).port.rx == p.rx + Arrivals(evs)
    decreases |evs|
  {
    if evs != [] {
      var s := Step(p, evs[0]);
      var t := Run(s.port, evs[1..]);
      var here, later := ArrivalsOf(evs[0]), Arrivals(evs[1..]);
      assert Arrivals(evs) == here + later;
      StepReceives(p, evs[0]);
      ReceiveInOrder(s.port, evs[1..]);
      assert Run(p, evs) == Trace(t.port, s.accepted + t.accepted, s.delivered + t.delivered);
      Splice(s.delivered, t.delivered, t.port.rx, s.port.rx, later, p.rx, here);
    }
  }

  /** Room for every arrival of the whole run up front is one way, the strictest, to never drop a byte. */
  lemma {:induction false} RoomForAllNoDrop(p: Port, evs: seq<Event>)
    requires |p.rx| + |Arrivals(evs)| <= p.rxCap
    ensures NoDrop(p, evs)
    decreases |evs|
  {
    if evs != [] {
      var s := Step(p, evs[0]);
      assert Arrivals(evs) == ArrivalsOf(evs[0]) + Arrivals(evs[1..]);
      StepReceives(p, evs[0]);
      assert |s.port.rx| <= |p.rx| + |ArrivalsOf(evs[0])|;
      RoomForAllNoDrop(s.port, evs[1..]);
    }
  }

  /** Two bytes through a one-byte receive queue: the task reads the first before the second arrives, so nothing is dropped. */
  lemma ReadBetweenArrivals()
    ensures var p := Port([], 1, [], 1, true, []);
            var evs := [Interrupt([Mis(false, true, 1)]), Get, Interrupt([Mis(false, true, 2)])];
            NoDrop(p, evs) && |Arrivals(evs)| > p.rxCap && Run(p, evs).delivered == [1] && Run(p, evs).port.rx == [2]
  {
    var p := Port([], 1, [], 1, true, []);
    var evs := [Interrupt([Mis(false, true, 1)]), Get, Interrupt([Mis(false, true, 2)])];
    var q1, q3 := p.(rx := [1]), p.(rx := [2]);
    assert evs[1..][1..] == evs[2..] && evs[2..][1..] == [];
    assert Serviced(evs[0].ms) == evs[0].ms && Serviced(evs[2].ms) == evs[2].ms;
    assert Step(p, evs[0]) == Trace(q1, [], []);
    assert Step(q1, evs[1]) == Trace(p, [], [1]);
    assert Step(p, evs[2]) == Trace(q3, [], []);
    assert Run(p, evs[2..]) == Trace(q3, [], []);
    assert Run(q1, evs[1..]) == Trace(q3, [], [1]);
    assert Run(p, evs) == Trace(q3, [], [1]);
    assert NoDrop(p, evs[2..]);
    assert NoDrop(q1, evs[1..]);
    assert Arrivals(evs) == [1, 2] by {
      assert Arrivals(evs[2..]) == [2];
      assert Arrivals(evs[1..]) == [2];
    }
  }

  /** The driver's static variables and the part of UART0 it drives. */
  class Uart0Driver {
    var rxCreated: bool       // xRxedChars is a valid handle
    var txCreated: bool       // xCharsForTx is a valid handle
    var rxQueue: seq<bv8>
    var rxCapacity: nat
    var txQueue: seq<bv8>
    var txCapacity: nat
    var txIdle: bool          // xQueueEmpty
    var configured: bool      // clock, pins, UART0, its EIC channel and its interrupts are set up
    var baudRate: nat         // the baud rate UART0 was configured with
    var line: seq<bv8>        // every byte written to UART0->DR, oldest first

    function View(): Port
      reads this
    {
      Port(rxQueue, rxCapacity, txQueue, txCapacity, txIdle, line)
    }

    predicate Valid()
      reads this
    {
      rxCreated && txCreated && configured && Inv(View())
    }

    /** Program start: no queues, nothing configured, and xQueueEmpty statically pdTRUE. */
    constructor ()
      ensures !rxCreated && !txCreated && !configured && txIdle
      ensures rxQueue == [] && txQueue == [] && line == []
    {
      rxCreated, txCreated, configured, txIdle := false, false, false, true;
      rxQueue, txQueue, line := [], [], [];
      rxCapacity, txCapacity, baudRate := 0, 0, 0;
    }

    /**
     * xSerialPortInitMinimal. Whether the kernel could allocate each queue is an input.
     * The hardware is only set up (and the transmitter marked idle) when both exist.
     */
    method SerialPortInitMinimal(wantedBaud: nat, queueLength: nat, rxAllocated: bool, txAllocated: bool)
      returns (ok: bool)
      requires queueLength < WordRange
      modifies this
      ensures ok <==> rxAllocated && txAllocated
      ensures rxCreated == rxAllocated && txCreated == txAllocated
      ensures rxCapacity == queueLength && txCapacity == (queueLength + 1) % WordRange
      ensures rxQueue == [] && txQueue == []
      ensures ok ==> Valid() && View() == Initial(queueLength).(line := old(line)) && configured && baudRate == wantedBaud
      ensures !ok ==> configured == old(configured) && baudRate == old(baudRate) && txIdle == old(txIdle)
      ensures line == old(line)
    {
      rxCreated, rxQueue, rxCapacity := rxAllocated, [], queueLength;
      txCreated, txQueue, txCapacity := txAllocated, [], (queueLength + 1) % WordRange;
      ok := rxCreated && txCreated;
      if ok {
        configured, baudRate := true, wantedBaud;
        txIdle := true;
      }
    }

    /** xSerialGetChar with zero block time. */
    method SerialGetChar() returns (ok: bool, c: bv8)
      requires Valid()
      modifies this
      ensures Valid() && baudRate == old(baudRate)
      ensures ok <==> old(rxQueue) != []
      ensures ok ==> c == old(rxQueue)[0]
      ensures (View(), if ok then Some(c) else None) == GetChar(old(View()))
    {
      if rxQueue != [] {
        ok, c := true, rxQueue[0];
        rxQueue := rxQueue[1..];
      } else {
        ok, c := false, 0;
      }
    }

    /** xSerialPutChar with zero block time; returns true for pdPASS. */
    method SerialPutChar(c: bv8) returns (ok: bool)
      requires Valid()
      modifies this
      ensures Valid() && baudRate == old(baudRate)
      ensures (View(), ok) == PutChar(old(View()), c)
    {
      if txIdle {
        line := line + [c];
        ok := true;
      } else if |txQueue| < txCapacity {
        txQueue := txQueue + [c];
        ok := true;
      } else {
        ok := false;
      }
      txIdle := false;
    }

    /** vSerialPutString: `s` must hold a NUL; `stringLength` is not used. */
    method SerialPutString(s: seq<bv8>, stringLength: nat)
      requires Valid()
      requires 0 in s
      modifies this
      ensures Valid() && baudRate == old(baudRate)
      ensures View() == PutString(old(View()), s)
    {
      ghost var bytes := BeforeNul(s);
      var i := 0;
      while s[i] != 0
        invariant 0 <= i <= |bytes|
        invariant Valid()
        invariant baudRate == old(baudRate)
        invariant PutBytes(View(), bytes[i..]) == PutString(old(View()), s)
        decreases |bytes| - i
      {
        assert s[i] == bytes[i];
        assert bytes[i..][1..] == bytes[i + 1..];
        var _ := SerialPutChar(s[i]);
        i := i + 1;
      }
      assert bytes[i..] == [];
    }

    /** One pass of the interrupt loop. */
    method ServiceReading(m: Mis)
      requires Valid()
      modifies this
      ensures Valid() && baudRate == old(baudRate)
      ensures View() == ServiceOnce(old(View()), m)
    {
      if m.transmit {
        if txQueue != [] {
          line := line + [txQueue[0]];
          txQueue := txQueue[1..];
        } else {
          txIdle := true;
        }
      }
      if m.receive {
        if |rxQueue| < rxCapacity {
          rxQueue := rxQueue + [m.rxByte];
        }
      }
    }

    /** vSerialISR, given the successive readings of UART0->MIS. */
    method SerialIsr(ms: seq<Mis>)
      requires Valid()
      modifies this
      ensures Valid() && baudRate == old(baudRate)
      ensures View() == Isr(old(View()), ms)
    {
      if ms != [] {
        ServiceReading(ms[0]);
        var i := 1;
        while i < |ms| && Pending(ms[i])
          invariant 1 <= i <= |ms|
          invariant Valid()
        invariant baudRate == old(baudRate)
          invariant ServiceAll(View(), PendingPrefix(ms[i..])) == Isr(old(View()), ms)
        {
          assert ms[i..][1..] == ms[i + 1..];
          ServiceReading(ms[i]);
          i := i + 1;
        }
      }
    }
  }
}
