/**
 * The uIP task of the STR91x web server demo: the MAC address written to the
 * Ethernet controller, the transmission of uip_buf through a DMA buffer, and the
 * main loop that hands received frames to uIP by Ethernet type and polls every
 * connection when the periodic timer expires.
 *
 * The uIP stack itself (uip_input, the ARP code, the timers) and the Ethernet
 * driver are not part of this model: what they do to `uip_len`, and the buffers
 * pcGetNextBuffer hands out, are parameters.
 */
module UipTask {
  import Streams

  type Byte = b: int | 0 <= b < 0x100

  datatype Option<T> = None | Some(value: T)

  // ---------------------------------------------------------------------------
  // The MAC address.

  /** uipMAC_ADDR0 .. uipMAC_ADDR5. */
  const MacAddress: seq<Byte> := [0x00, 0x12, 0x13, 0x14, 0x15, 0x20]

  /**
   * ENET_MAC->MAL: byte 3 in bits 31..24 down to byte 0 in bits 7..0. The four
   * shifted bytes occupy disjoint bits, so their OR is their sum.
   */
  function MacLow(mac: seq<Byte>): (r: nat)
    requires |mac| == 6
    ensures r < 0x1_0000_0000
  {
    mac[0] as int + 0x100 * (mac[1] as int + 0x100 * (mac[2] as int + 0x100 * mac[3] as int))
  }

  /** ENET_MAC->MAH: byte 5 in bits 15..8 and byte 4 in bits 7..0. */
  function MacHigh(mac: seq<Byte>): (r: nat)
    requires |mac| == 6
    ensures r < 0x1_0000
  {
    mac[4] as int + 0x100 * mac[5] as int
  }

  /** The six address bytes as the controller holds them in MAL and MAH. */
  function MacFromRegisters(mal: nat, mah: nat): (r: seq<Byte>)
    requires mal < 0x1_0000_0000 && mah < 0x1_0000
    ensures |r| == 6
  {
    [mal % 0x100, mal / 0x100 % 0x100, mal / 0x1_0000 % 0x100, mal / 0x100_0000,
     mah % 0x100, mah / 0x100]
  }

  /** Splitting the low byte off a number made of a byte and a higher part. */
  lemma SplitByte(low: Byte, high: nat)
    ensures (low + 0x100 * high) % 0x100 == low
    ensures (low + 0x100 * high) / 0x100 == high
  {
  }

  /** Every MAC address is recovered from the two register values written for it. */
  lemma {:induction false} MacRegistersRoundTrip(mac: seq<Byte>)
    requires |mac| == 6
    ensures MacFromRegisters(MacLow(mac), MacHigh(mac)) == mac
  {
    var mal := MacLow(mac);
    var upper := mac[1] as int + 0x100 * (mac[2] as int + 0x100 * mac[3] as int);
    SplitByte(mac[0], upper);
    SplitByte(mac[1], mac[2] as int + 0x100 * mac[3] as int);
    SplitByte(mac[2], mac[3]);
    assert mal / 0x1_0000 == (mal / 0x100) / 0x100;
    assert mal / 0x100_0000 == ((mal / 0x100) / 0x100) / 0x100;
    SplitByte(mac[4], mac[5]);
  }

  /** Conversely every pair of register values is the encoding of the bytes read back from it. */
  lemma {:induction false} RegistersMacRoundTrip(mal: nat, mah: nat)
    requires mal < 0x1_0000_0000 && mah < 0x1_0000
    ensures MacLow(MacFromRegisters(mal, mah)) == mal
    ensures MacHigh(MacFromRegisters(mal, mah)) == mah
  {
    var b1 := mal / 0x100;
    var b2 := b1 / 0x100;
    assert mal / 0x1_0000 == b2;
    assert mal / 0x100_0000 == b2 / 0x100;
  }

  /** What prvSetMACAddress leaves behind: the address given to uIP and the two register values. */
  datatype MacSetting = MacSetting(ethAddr: seq<Byte>, mal: nat, mah: nat)

  /** prvSetMACAddress. */
  function SetMacAddress(): (r: MacSetting)
    ensures r.ethAddr == MacAddress
    ensures r.mal < 0x1_0000_0000 && r.mah < 0x1_0000
    ensures MacFromRegisters(r.mal, r.mah) == r.ethAddr
  {
    MacRegistersRoundTrip(MacAddress);
    MacSetting(MacAddress, MacLow(MacAddress), MacHigh(MacAddress))
  }

  /** The demo's address packs to MAL = 0x14131200 and MAH = 0x2015. */
  lemma DemoMacRegisters()
    ensures SetMacAddress().mal == 0x1413_1200 && SetMacAddress().mah == 0x2015
  {
  }

  // ---------------------------------------------------------------------------
  // prvENET_Send.

  /** uipBUFFER_WAIT_ATTEMPTS. */
  const BufferWaitAttempts: nat := 10

  /** uipTOTAL_FRAME_HEADER_SIZE. */
  const HeaderSize: nat := 54

  /**
   * What the `attempt`-th call of pcGetNextBuffer returns, `offers` being the
   * driver's answers in order (a missing answer is a NULL pointer).
   */
  function Offer<B>(offers: seq<Option<B>>, attempt: nat): Option<B>
  {
    if attempt < |offers| then offers[attempt] else None
  }

  /** The first buffer among the first `n` answers, with the number of calls made to get it. */
  function FirstBuffer<B>(offers: seq<Option<B>>, n: nat): (r: (Option<B>, nat))
    ensures r.1 <= n
    ensures r.0.Some? ==> 0 < r.1 && Offer(offers, r.1 - 1) == r.0
    ensures forall i :: 0 <= i < r.1 - 1 ==> Offer(offers, i).None?
    ensures r.0.None? ==> r.1 == n && forall i :: 0 <= i < n ==> Offer(offers, i).None?
  {
    if n == 0 then (None, 0)
    else
      var (b, calls) := FirstBuffer(offers, n - 1);
      if b.Some? then (b, calls) else (Offer(offers, n - 1), n)
  }

  /**
   * The retry loop of prvENET_Send: pcGetNextBuffer is called until it returns a
   * buffer, at most uipBUFFER_WAIT_ATTEMPTS times; `delays` counts the
   * vTaskDelay calls made after each NULL answer.
   */
  method AcquireBuffer<B>(offers: seq<Option<B>>) returns (buffer: Option<B>, calls: nat, delays: nat)
    ensures (buffer, calls) == FirstBuffer(offers, BufferWaitAttempts)
    ensures 1 <= calls <= BufferWaitAttempts
    ensures buffer.Some? ==> Offer(offers, calls - 1) == buffer && delays == calls - 1
    ensures buffer.None? ==> delays == BufferWaitAttempts
    ensures forall i :: 0 <= i < delays ==> Offer(offers, i).None?
  {
    buffer, calls, delays := None, 0, 0;
    var i := 0;
    while i < BufferWaitAttempts
      invariant 0 <= i <= BufferWaitAttempts
      invariant (buffer, calls) == FirstBuffer(offers, i) && buffer.None? && calls == i && delays == i
      invariant forall j :: 0 <= j < delays ==> Offer(offers, j).None?
    {
      buffer := Offer(offers, i);
      calls := i + 1;
      if buffer.Some? {
        FirstBufferStops(offers, i + 1, BufferWaitAttempts);
        return;
      }
      delays := delays + 1;
      i := i + 1;
    }
  }

  /** Once a buffer is found, further attempts would not change the answer. */
  lemma {:induction false} FirstBufferStops<B>(offers: seq<Option<B>>, n: nat, m: nat)
    requires n <= m
    requires FirstBuffer(offers, n).0.Some?
    ensures FirstBuffer(offers, m) == FirstBuffer(offers, n)
    decreases m - n
  {
    if n < m {
      FirstBufferStops(offers, n, m - 1);
    }
  }

  /**
   * The bytes ENET_TxPkt sends: the `uip_len` first bytes of the DMA buffer after
   * the 54 header bytes of uip_buf and, for a longer frame, `uip_len - 54` bytes of
   * uip_appdata behind them have been copied in. A frame shorter than the
   * header is a prefix of the header.
   */
  function TxFrame(uipBuf: seq<Byte>, appData: seq<Byte>, uipLen: nat): (r: seq<Byte>)
    requires |uipBuf| >= HeaderSize
    requires uipLen > HeaderSize ==> |appData| >= uipLen - HeaderSize
    ensures |r| == uipLen
    ensures forall i :: 0 <= i < uipLen && i < HeaderSize ==> r[i] == uipBuf[i]
    ensures forall i :: HeaderSize <= i < uipLen ==> r[i] == appData[i - HeaderSize]
  {
    if uipLen > HeaderSize then uipBuf[..HeaderSize] + appData[..uipLen - HeaderSize]
    else uipBuf[..uipLen]
  }

  /**
   * The DMA buffer handed out by the driver, and prvENET_Send filling it: the
   * header is copied, then the application data when the frame is longer than
   * the header, and the first `uip_len` bytes are transmitted.
   */
  class TxBuffer {
    var data: array<Byte>
    var transmitted: seq<seq<Byte>>   // every frame given to ENET_TxPkt, in order

    constructor (size: nat)
      ensures data.Length == size && fresh(data) && transmitted == []
    {
      data := new Byte[size](_ => 0);
      transmitted := [];
    }

    /** The copy and the ENET_TxPkt call of prvENET_Send, once a buffer has been obtained. */
    method Fill(uipBuf: seq<Byte>, appData: seq<Byte>, uipLen: nat)
      requires |uipBuf| >= HeaderSize && HeaderSize <= data.Length && uipLen <= data.Length
      requires uipLen > HeaderSize ==> |appData| >= uipLen - HeaderSize
      modifies data, this
      ensures data == old(data)
      ensures data[..HeaderSize] == uipBuf[..HeaderSize]
      ensures uipLen > HeaderSize ==> data[HeaderSize..uipLen] == appData[..uipLen - HeaderSize]
      ensures uipLen <= HeaderSize ==> data[HeaderSize..] == old(data[HeaderSize..])
      ensures uipLen > HeaderSize ==> data[uipLen..] == old(data[uipLen..])
      ensures transmitted == old(transmitted) + [data[..uipLen]]
      ensures data[..uipLen] == TxFrame(uipBuf, appData, uipLen)
    {
      forall i | 0 <= i < HeaderSize {
        data[i] := uipBuf[i];
      }
      if uipLen > HeaderSize {
        forall i | HeaderSize <= i < uipLen {
          data[i] := appData[i - HeaderSize];
        }
      }
      transmitted := transmitted + [data[..uipLen]];
    }
  }

  /**
   * prvENET_Send as a whole: the frame that goes out, or nothing when no buffer
   * was obtained in ten attempts.
   */
  function Send<B>(offers: seq<Option<B>>, uipBuf: seq<Byte>, appData: seq<Byte>, uipLen: nat): (r: Option<seq<Byte>>)
    requires |uipBuf| >= HeaderSize
    requires uipLen > HeaderSize ==> |appData| >= uipLen - HeaderSize
    ensures r.None? <==> forall i :: 0 <= i < BufferWaitAttempts ==> Offer(offers, i).None?
    ensures r.Some? ==> |r.value| == uipLen && r.value == TxFrame(uipBuf, appData, uipLen)
  {
    if FirstBuffer(offers, BufferWaitAttempts).0.Some? then Some(TxFrame(uipBuf, appData, uipLen))
    else None
  }

  /** A frame no longer than the header is a prefix of the header; a longer one is the header followed by the application data. */
  lemma FrameLayout(uipBuf: seq<Byte>, appData: seq<Byte>, uipLen: nat)
    requires |uipBuf| >= HeaderSize
    requires uipLen > HeaderSize ==> |appData| >= uipLen - HeaderSize
    ensures uipLen <= HeaderSize ==> TxFrame(uipBuf, appData, uipLen) <= uipBuf[..HeaderSize]
    ensures uipLen > HeaderSize ==>
      TxFrame(uipBuf, appData, uipLen)[..HeaderSize] == uipBuf[..HeaderSize] &&
      TxFrame(uipBuf, appData, uipLen)[HeaderSize..] == appData[..uipLen - HeaderSize]
  {
  }

  // ---------------------------------------------------------------------------
  // vuIP_Task.

  /** UIP_ETHTYPE_IP and UIP_ETHTYPE_ARP. */
  const EthTypeIp: nat := 0x0800
  const EthTypeArp: nat := 0x0806

  /** The Ethernet type of the frame in uip_buf: bytes 12 and 13 in network order, as `xHeader->type` compared with htons. */
  function FrameType(frame: seq<Byte>): (r: nat)
    requires |frame| >= 14
    ensures r < 0x1_0000
    ensures r == EthTypeIp <==> frame[12] == 0x08 && frame[13] == 0x00
    ensures r == EthTypeArp <==> frame[12] == 0x08 && frame[13] == 0x06
  {
    frame[12] as int * 0x100 + frame[13] as int
  }

  /** The calls the task makes into uIP and into prvENET_Send. */
  datatype Call =
    | ArpIpIn            // uip_arp_ipin
    | Input              // uip_input
    | ArpOut             // uip_arp_out
    | Transmit           // prvENET_Send
    | ArpIn              // uip_arp_arpin
    | Periodic(conn: nat) // uip_periodic(conn)
    | ArpTimer           // uip_arp_timer
    | Wait               // xSemaphoreTake with a timeout

  /**
   * The handling of a received frame of the given type: `lenAfterInput` and
   * `lenAfterArp` are uip_len as uip_input and uip_arp_arpin leave it.
   */
  function Dispatch(ethType: nat, lenAfterInput: nat, lenAfterArp: nat): (r: seq<Call>)
    ensures ethType == EthTypeIp ==> |r| >= 2 && r[..2] == [ArpIpIn, Input] && (Transmit in r <==> lenAfterInput > 0)
    ensures ethType == EthTypeArp ==> |r| >= 1 && r[0] == ArpIn && ArpOut !in r && (Transmit in r <==> lenAfterArp > 0)
    ensures ethType != EthTypeIp && ethType != EthTypeArp ==> r == []
  {
    if ethType == EthTypeIp then
      [ArpIpIn, Input] + (if lenAfterInput > 0 then [ArpOut, Transmit] else [])
    else if ethType == EthTypeArp then
      [ArpIn] + (if lenAfterArp > 0 then [Transmit] else [])
    else []
  }

  /** Every transmission in a call sequence: each Transmit is preceded by uip_arp_out. */
  predicate ResolvedBeforeSend(calls: seq<Call>)
  {
    forall i :: 0 <= i < |calls| && calls[i] == Transmit ==> 0 < i && calls[i - 1] == ArpOut
  }

  /** Outgoing IP traffic goes through ARP resolution; replies produced by ARP itself are sent as they are. */
  lemma DispatchResolves(lenAfterInput: nat, lenAfterArp: nat)
    ensures ResolvedBeforeSend(Dispatch(EthTypeIp, lenAfterInput, 0))
    ensures lenAfterArp > 0 ==> !ResolvedBeforeSend(Dispatch(EthTypeArp, 0, lenAfterArp))
  {
    if lenAfterArp > 0 {
      assert Dispatch(EthTypeArp, 0, lenAfterArp)[1] == Transmit;
    }
  }

  /** The calls one pass of the periodic loop makes for connections `from` and up. */
  function PeriodicCalls(lens: seq<nat>, from: nat): seq<Call>
    decreases |lens|
  {
    if lens == [] then [] else ConnectionCalls(from, lens[0]) + PeriodicCalls(lens[1..], from + 1)
  }

  /** The calls made for one connection: its poll, then the ARP header and the send when it produced output. */
  function ConnectionCalls(conn: nat, len: nat): seq<Call>
  {
    [Periodic(conn)] + (if len > 0 then [ArpOut, Transmit] else [])
  }

  /** The connections visited by a call sequence, in order. */
  function Visited(calls: seq<Call>): seq<nat>
  {
    if calls == [] then []
    else (if calls[0].Periodic? then [calls[0].conn] else []) + Visited(calls[1..])
  }

  /** The number of transmissions in a call sequence. */
  function Transmissions(calls: seq<Call>): nat
  {
    if calls == [] then 0 else (if calls[0] == Transmit then 1 else 0) + Transmissions(calls[1..])
  }

  /** The number of connections that produced output. */
  function Producing(lens: seq<nat>): nat
  {
    if lens == [] then 0 else (if lens[0] > 0 then 1 else 0) + Producing(lens[1..])
  }

  /** The numbers from `from` up to, but excluding, `to`. */
  function Range(from: nat, to: nat): seq<nat>
    decreases to - from
  {
    if from >= to then [] else [from] + Range(from + 1, to)
  }

  lemma {:induction false} VisitedAppend(a: seq<Call>, b: seq<Call>)
    ensures Visited(a + b) == Visited(a) + Visited(b)
  {
    if a == [] {
      assert a + b == b;
    } else {
      var here := if a[0].Periodic? then [a[0].conn] else [];
      assert (a + b)[0] == a[0];
      assert (a + b)[1..] == a[1..] + b;
      assert Visited(a + b) == here + Visited(a[1..] + b);
      VisitedAppend(a[1..], b);
      Streams.Associate(here, Visited(a[1..]), Visited(b));
    }
  }

  lemma {:induction false} TransmissionsAppend(a: seq<Call>, b: seq<Call>)
    ensures Transmissions(a + b) == Transmissions(a) + Transmissions(b)
  {
    if a == [] {
      assert a + b == b;
    } else {
      assert (a + b)[0] == a[0];
      assert (a + b)[1..] == a[1..] + b;
      TransmissionsAppend(a[1..], b);
    }
  }

  /**
   * One periodic pass visits the connections in order, and sends once after each
   * connection that produced output.
   */
  lemma {:induction false} PeriodicPassProperties(lens: seq<nat>, from: nat)
    ensures Visited(PeriodicCalls(lens, from)) == Range(from, from + |lens|)
    ensures Transmissions(PeriodicCalls(lens, from)) == Producing(lens)
    decreases |lens|
  {
    if lens != [] {
      var head := ConnectionCalls(from, lens[0]);
      PeriodicPassProperties(lens[1..], from + 1);
      VisitedAppend(head, PeriodicCalls(lens[1..], from + 1));
      TransmissionsAppend(head, PeriodicCalls(lens[1..], from + 1));
      OneConnection(from, lens[0]);
    }
  }

  /** The calls made for one connection: its poll, then the send when it produced output. */
  lemma OneConnection(conn: nat, len: nat)
    ensures Visited(ConnectionCalls(conn, len)) == [conn]
    ensures Transmissions(ConnectionCalls(conn, len)) == (if len > 0 then 1 else 0)
  {
    var tail := if len > 0 then [ArpOut, Transmit] else [];
    var calls := ConnectionCalls(conn, len);
    assert calls[1..] == tail;
    if len > 0 {
      assert tail[1..] == [Transmit] && tail[1..][1..] == [];
      assert Visited(tail[1..]) == [] && Transmissions(tail[1..]) == 1;
      assert Visited(tail) == [] && Transmissions(tail) == 1;
    }
  }

  /**
   * The `for( i = 0; i < UIP_CONNS; i++ )` loop: `lens[i]` is uip_len as
   * uip_periodic(i) leaves it.
   */
  method PeriodicPass(lens: seq<nat>) returns (calls: seq<Call>)
    ensures calls == PeriodicCalls(lens, 0)
    ensures Visited(calls) == Range(0, |lens|)
    ensures Transmissions(calls) == Producing(lens)
  {
    calls := [];
    var i := 0;
    while i < |lens|
      invariant 0 <= i <= |lens|
      invariant calls + PeriodicCalls(lens[i..], i) == PeriodicCalls(lens, 0)
    {
      ghost var before := calls;
      assert lens[i..][1..] == lens[i + 1..];
      assert PeriodicCalls(lens[i..], i) == ConnectionCalls(i, lens[i]) + PeriodicCalls(lens[i + 1..], i + 1);
      calls := calls + [Periodic(i)];
      if lens[i] > 0 {
        calls := calls + [ArpOut, Transmit];
      }
      assert calls == before + ConnectionCalls(i, lens[i]);
      Streams.Associate(before, ConnectionCalls(i, lens[i]), PeriodicCalls(lens[i + 1..], i + 1));
      i := i + 1;
    }
    assert lens[i..] == [];
    PeriodicPassProperties(lens, 0);
  }

  /**
   * One iteration of the task's `while(1)` loop: `rxLen` is what ENET_HandleRxPkt
   * returned, `frame` the received uip_buf, the timers' expiry is given, and the
   * lengths are those the uIP calls leave in uip_len.
   */
  function Iteration(rxLen: nat, frame: seq<Byte>, lenAfterInput: nat, lenAfterArp: nat,
                     periodicExpired: bool, lens: seq<nat>, arpExpired: bool): (r: seq<Call>)
    requires |frame| >= 14
    ensures rxLen > 0 ==> r == Dispatch(FrameType(frame), lenAfterInput, lenAfterArp)
    ensures rxLen == 0 && !periodicExpired ==> r == [Wait]
    ensures rxLen == 0 && periodicExpired ==>
      Visited(r) == Range(0, |lens|) && (ArpTimer in r <==> arpExpired)
    ensures rxLen == 0 && periodicExpired ==>
      Transmissions(r) == Producing(lens) && (arpExpired ==> r[|r| - 1] == ArpTimer)
  {
    if rxLen > 0 then Dispatch(FrameType(frame), lenAfterInput, lenAfterArp)
    else if periodicExpired then
      var pass := PeriodicCalls(lens, 0);
      PeriodicPassProperties(lens, 0);
      VisitedAppend(pass, if arpExpired then [ArpTimer] else []);
      TransmissionsAppend(pass, if arpExpired then [ArpTimer] else []);
      assert Visited(if arpExpired then [ArpTimer] else []) == [] by {
        if arpExpired {
          assert [ArpTimer][1..] == [];
        }
      }
      assert Transmissions(if arpExpired then [ArpTimer] else []) == 0 by {
        if arpExpired {
          assert [ArpTimer][1..] == [];
        }
      }
      assert ArpTimer !in pass by { PeriodicHasNoTimer(lens, 0); }
      pass + (if arpExpired then [ArpTimer] else [])
    else [Wait]
  }

  lemma {:induction false} PeriodicHasNoTimer(lens: seq<nat>, from: nat)
    ensures ArpTimer !in PeriodicCalls(lens, from)
    decreases |lens|
  {
    if lens != [] {
      PeriodicHasNoTimer(lens[1..], from + 1);
    }
  }
}
