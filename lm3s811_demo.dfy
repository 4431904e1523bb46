/**
 * The tasks and the UART interrupt of the LM3S811 demo: a button press starts
 * the transmission of a fixed message, which the UART interrupt then sends one
 * character at a time; the check task latches any error reported by the other
 * demo tasks; the print task draws each queued message at the next LCD position.
 */
module Lm3s811Demo {
  import opened KernelQueue
  import Streams

  /** cMessage, without its terminating NUL. */
  const Message: string := "Task woken by button interrupt! --- "

  /** A C string's characters before its terminator: none of them is a NUL. */
  predicate NoNul(msg: string)
  {
    forall i :: 0 <= i < |msg| ==> msg[i] != '\0'
  }

  /** The character a pointer at index `i` of the NUL-terminated `msg` reads. */
  function CharAt(msg: string, i: nat): (c: char)
    requires NoNul(msg)
    ensures c == '\0' <==> i >= |msg|
  {
    if i < |msg| then msg[i] else '\0'
  }

  /** cMessage holds no NUL before its terminator. */
  lemma MessageHasNoNul()
    ensures NoNul(Message)
  {
  }

  // ---------------------------------------------------------------------------
  // The message transmitter.

  /**
   * The state the button task and the UART interrupt share: whether pcNextChar
   * has been set (it is NULL until the first press), the index it points at in
   * the message, and every character written to the UART data register.
   */
  datatype Transmitter = Transmitter(started: bool, next: nat, wire: string)

  /** pcNextChar is NULL or points into the message, at the latest at its NUL. */
  predicate Valid(msg: string, t: Transmitter)
  {
    t.next <= |msg| && (!t.started ==> t.next == 0)
  }

  /** An interrupt or a task release that touches the transmitter. */
  datatype Event =
    | Press(fifoFull: bool)                   // vButtonHandlerTask woken by the button
    | UartInterrupt(tx: bool, fifoFull: bool) // vUART_ISR, `tx` being UART_INT_TX in the status

  /** An event may only be taken once pcNextChar points somewhere: the interrupt dereferences it. */
  predicate Allowed(t: Transmitter, e: Event)
  {
    e.UartInterrupt? && e.tx ==> t.started
  }

  /** The character written when the transmit FIFO has room, nothing when it is full. */
  function WriteUnlessFull(fifoFull: bool, c: char): string
  {
    if fifoFull then [] else [c]
  }

  /**
   * The effect of one event on the transmission of the non-empty string `msg`: a
   * press restarts it and tries to write its first character; a transmit
   * interrupt at a character other than the NUL tries to write it and moves on
   * whether or not it was written.
   */
  function Step(msg: string, t: Transmitter, e: Event): (r: Transmitter)
    requires NoNul(msg) && msg != [] && Valid(msg, t) && Allowed(t, e)
    ensures Valid(msg, r)
    ensures r.wire == t.wire || (|r.wire| == |t.wire| + 1 && r.wire[..|t.wire|] == t.wire)
    ensures e.UartInterrupt? && (!e.tx || t.next == |msg|) ==> r == t
  {
    match e
    case Press(full) =>
      Transmitter(true, 1, t.wire + WriteUnlessFull(full, CharAt(msg, 0)))
    case UartInterrupt(tx, full) =>
      if tx && CharAt(msg, t.next) != '\0' then
        t.(next := t.next + 1, wire := t.wire + WriteUnlessFull(full, CharAt(msg, t.next)))
      else t
  }

  /** The characters of `s` whose FIFO reading was "not full", in order. */
  function Select(s: string, full: seq<bool>): (r: string)
    requires |full| <= |s|
    ensures |r| <= |full|
  {
    if full == [] then []
    else WriteUnlessFull(full[0], s[0]) + Select(s[1..], full[1..])
  }

  /** A run of transmit interrupts, with their FIFO readings, once the pointer has been set. */
  function RunTx(msg: string, t: Transmitter, full: seq<bool>): (r: Transmitter)
    requires NoNul(msg) && msg != [] && Valid(msg, t) && t.started
    ensures Valid(msg, r) && r.started
    decreases |full|
  {
    if full == [] then t
    else RunTx(msg, Step(msg, t, UartInterrupt(true, full[0])), full[1..])
  }

  /**
   * After k transmit interrupts from position i the pointer is at i + k, or at
   * the NUL if it was reached, and exactly the characters in between whose FIFO
   * reading had room were written, in order. A character met with a full FIFO is
   * skipped and never retried.
   */
  lemma {:induction false} RunTxWrites(msg: string, t: Transmitter, full: seq<bool>)
    requires NoNul(msg) && msg != [] && Valid(msg, t) && t.started
    ensures var n := if t.next + |full| <= |msg| then |full| else |msg| - t.next;
      RunTx(msg, t, full).next == t.next + n &&
      RunTx(msg, t, full).wire == t.wire + Select(msg[t.next..], full[..n])
    decreases |full|
  {
    var n := if t.next + |full| <= |msg| then |full| else |msg| - t.next;
    if full == [] {
      assert Select(msg[t.next..], full[..n]) == [];
    } else if t.next == |msg| {
      RunTxAtNul(msg, t, full);
      assert n == 0 && Select(msg[t.next..], full[..n]) == [];
    } else {
      var u := Step(msg, t, UartInterrupt(true, full[0]));
      assert u.next == t.next + 1 && u.wire == t.wire + WriteUnlessFull(full[0], CharAt(msg, t.next));
      RunTxWrites(msg, u, full[1..]);
      var m := if u.next + |full[1..]| <= |msg| then |full[1..]| else |msg| - u.next;
      assert m + 1 == n;
      SelectFirst(msg[t.next..], full, n);
      assert msg[t.next..][1..] == msg[u.next..];
      Streams.Associate(t.wire, WriteUnlessFull(full[0], CharAt(msg, t.next)), Select(msg[u.next..], full[1..][..m]));
    }
  }

  /** Selecting from the first n readings: the first character's outcome, then the rest. */
  lemma SelectFirst(s: string, full: seq<bool>, n: nat)
    requires 1 <= n <= |full| && n <= |s|
    ensures Select(s, full[..n]) == WriteUnlessFull(full[0], s[0]) + Select(s[1..], full[1..][..n - 1])
  {
    assert full[..n][1..] == full[1..][..n - 1];
  }

  /** Interrupts at the terminating NUL change nothing: the pointer never passes it. */
  lemma {:induction false} RunTxAtNul(msg: string, t: Transmitter, full: seq<bool>)
    requires NoNul(msg) && msg != [] && Valid(msg, t) && t.started && t.next == |msg|
    ensures RunTx(msg, t, full) == t
    decreases |full|
  {
    if full != [] {
      RunTxAtNul(msg, Step(msg, t, UartInterrupt(true, full[0])), full[1..]);
    }
  }

  /**
   * A press followed by transmit interrupts: the message is sent from its first
   * character, each character whose FIFO reading had room appearing on the wire
   * in message order, and the pointer stops at the NUL.
   */
  lemma PressThenInterrupts(msg: string, t: Transmitter, first: bool, full: seq<bool>)
    requires NoNul(msg) && msg != [] && Valid(msg, t)
    ensures var n := if |full| + 1 <= |msg| then |full| + 1 else |msg|;
      var r := RunTx(msg, Step(msg, t, Press(first)), full);
      r.next == n && r.wire == t.wire + Select(msg, ([first] + full)[..n])
  {
    var w := WriteUnlessFull(first, msg[0]);
    var u := Step(msg, t, Press(first));
    PressRestarts(msg, t, first);
    var n := if |full| + 1 <= |msg| then |full| + 1 else |msg|;
    var m := n - 1;
    RunTxWrites(msg, u, full);
    assert RunTx(msg, u, full).wire == (t.wire + w) + Select(msg[1..], full[..m]);
    ConsTake(first, full, m);
    SelectCons(msg, first, full[..m]);
    Streams.Associate(t.wire, w, Select(msg[1..], full[..m]));
  }

  /** A press points at the second character, having tried to write the first. */
  lemma PressRestarts(msg: string, t: Transmitter, first: bool)
    requires NoNul(msg) && msg != [] && Valid(msg, t)
    ensures Step(msg, t, Press(first)) == Transmitter(true, 1, t.wire + WriteUnlessFull(first, msg[0]))
  {
  }

  /** Selecting with one more reading in front: that reading decides the first character. */
  lemma SelectCons(s: string, first: bool, rest: seq<bool>)
    requires |rest| + 1 <= |s|
    ensures Select(s, [first] + rest) == WriteUnlessFull(first, s[0]) + Select(s[1..], rest)
  {
    assert ([first] + rest)[1..] == rest;
  }

  /** Taking k + 1 readings from a sequence with a first one added in front. */
  lemma ConsTake(first: bool, full: seq<bool>, k: nat)
    requires k <= |full|
    ensures ([first] + full)[..k + 1] == [first] + full[..k]
  {
  }

  /**
   * With every FIFO reading showing room, a press and |msg| - 1 transmit
   * interrupts put the whole string on the wire; cMessage is such a string.
   */
  lemma WholeMessageSent(msg: string, t: Transmitter, full: seq<bool>)
    requires NoNul(msg) && msg != [] && Valid(msg, t)
    requires |full| == |msg| - 1 && forall i :: 0 <= i < |full| ==> !full[i]
    ensures RunTx(msg, Step(msg, t, Press(false)), full).wire == t.wire + msg
  {
    PressThenInterrupts(msg, t, false, full);
    var flags := [false] + full;
    assert flags[..|msg|] == flags;
    SelectAllRoom(msg, flags);
  }

  /** When the FIFO always had room, every character is selected. */
  lemma {:induction false} SelectAllRoom(s: string, full: seq<bool>)
    requires |full| == |s| && forall i :: 0 <= i < |full| ==> !full[i]
    ensures Select(s, full) == s
    decreases |full|
  {
    if full != [] {
      SelectAllRoom(s[1..], full[1..]);
    }
  }

  /**
   * The UART interrupt and the button handler task sharing pcNextChar, which
   * walks cMessage. The `wire` field records what is written to the UART data
   * register.
   */
  class UartMessage {
    var started: bool
    var next: nat
    var wire: string

    function View(): Transmitter
      reads this
    {
      Transmitter(started, next, wire)
    }

    predicate Ok()
      reads this
    {
      Valid(Message, View())
    }

    constructor ()
      ensures View() == Transmitter(false, 0, []) && Ok()
    {
      started, next, wire := false, 0, [];
    }

    /**
     * The part of vButtonHandlerTask between UARTIntDisable and UARTIntEnable:
     * point at the message, write its first character if the FIFO has room, and
     * move on.
     */
    method ButtonPressed(fifoFull: bool)
      requires Ok()
      modifies this
      ensures NoNul(Message) && View() == Step(Message, old(View()), Press(fifoFull)) && Ok()
    {
      MessageHasNoNul();
      started := true;
      next := 0;
      if !fifoFull {
        wire := wire + [CharAt(Message, next)];
      }
      next := next + 1;
    }

    /** vUART_ISR: on a transmit interrupt, send the character pointed at unless it is the NUL. */
    method UartIsr(txPending: bool, fifoFull: bool)
      requires Ok() && (txPending ==> started)
      modifies this
      ensures NoNul(Message) && View() == Step(Message, old(View()), UartInterrupt(txPending, fifoFull)) && Ok()
    {
      MessageHasNoNul();
      if txPending {
        var c := CharAt(Message, next);
        if c != '\0' {
          if !fifoFull {
            wire := wire + [c];
          }
          next := next + 1;
        }
      }
    }
  }

  // ---------------------------------------------------------------------------
  // The check task.

  /** The four "still running" reports the check task asks for on each cycle. */
  datatype Health = Health(integerMaths: bool, pollingQueues: bool, semaphores: bool, blockingQueues: bool)

  /** A report with any task not running sets the error flag. */
  predicate Failing(h: Health)
  {
    !h.integerMaths || !h.pollingQueues || !h.semaphores || !h.blockingQueues
  }

  const PassMessage: string := "PASS"
  const FailMessage: string := "FAIL"

  /** Whether any report among the first `n` was failing. */
  predicate AnyFailing(reports: seq<Health>, n: nat)
    requires n <= |reports|
  {
    exists i :: 0 <= i < n && Failing(reports[i])
  }

  /**
   * vCheckTask over a sequence of cycles: the message it queues for the print task
   * on each. The error flag starts false and is only ever set.
   */
  method CheckTask(reports: seq<Health>) returns (messages: seq<string>)
    ensures |messages| == |reports|
    ensures forall i :: 0 <= i < |reports| ==>
      messages[i] == (if AnyFailing(reports, i + 1) then FailMessage else PassMessage)
  {
    var errorOccurred := false;
    messages := [];
    var k := 0;
    while k < |reports|
      invariant 0 <= k <= |reports|
      invariant errorOccurred <==> AnyFailing(reports, k)
      invariant |messages| == k
      invariant forall i :: 0 <= i < k ==>
        messages[i] == (if AnyFailing(reports, i + 1) then FailMessage else PassMessage)
    {
      var h := reports[k];
      if !h.integerMaths {
        errorOccurred := true;
      }
      if !h.pollingQueues {
        errorOccurred := true;
      }
      if !h.semaphores {
        errorOccurred := true;
      }
      if !h.blockingQueues {
        errorOccurred := true;
      }
      if errorOccurred {
        messages := messages + [FailMessage];
      } else {
        messages := messages + [PassMessage];
      }
      k := k + 1;
    }
  }

  /** Once FAIL has been reported it is reported on every later cycle. */
  lemma FailIsSticky(reports: seq<Health>, i: nat, j: nat)
    requires i <= j < |reports|
    requires AnyFailing(reports, i + 1)
    ensures AnyFailing(reports, j + 1)
  {
  }

  /**
   * PASS is reported on cycle i exactly when none of the reports up to and
   * including it failed; the flag behind it is the previous cycle's flag, set
   * when any of this cycle's four checks fails.
   */
  lemma PassMeansAllHealthy(reports: seq<Health>, i: nat)
    requires i < |reports|
    ensures !AnyFailing(reports, i + 1) <==> forall h :: h in reports[..i + 1] ==> !Failing(h)
    ensures AnyFailing(reports, i + 1) <==> AnyFailing(reports, i) || Failing(reports[i])
  {
  }

  // ---------------------------------------------------------------------------
  // The print task and its queue.

  /** mainQUEUE_SIZE: the print queue holds at most three message pointers. */
  const PrintQueueSize: nat := 3

  /** `unsigned portBASE_TYPE` is 32 bits wide on the Cortex-M3 port. */
  const WordRange: nat := 0x1_0000_0000

  /** An OSRAMStringDraw call: the text, the column and the row. */
  datatype Draw = Draw(text: string, column: nat, row: nat)

  /**
   * vPrintTask over the messages it receives: both counters are incremented,
   * wrapping at 2^32, and the message is drawn at column `uxLine & 0x3f` and row
   * `uxRow & 0x01` (for an unsigned value, the remainders modulo 64 and 2).
   */
  method PrintTask(received: seq<string>) returns (draws: seq<Draw>)
    ensures |draws| == |received|
    ensures forall i :: 0 <= i < |received| ==>
      draws[i] == Draw(received[i], ((i + 1) % WordRange) % 64, ((i + 1) % WordRange) % 2)
  {
    var line: nat, row: nat := 0, 0;
    draws := [];
    var k := 0;
    while k < |received|
      invariant 0 <= k <= |received|
      invariant line == k % WordRange && row == k % WordRange
      invariant |draws| == k
      invariant forall i :: 0 <= i < k ==>
        draws[i] == Draw(received[i], ((i + 1) % WordRange) % 64, ((i + 1) % WordRange) % 2)
    {
      NextCount(k);
      row := (row + 1) % WordRange;
      line := (line + 1) % WordRange;
      draws := draws + [Draw(received[k], line % 64, row % 2)];
      k := k + 1;
    }
  }

  /** Incrementing a wrapped counter and wrapping again is wrapping the incremented count. */
  lemma NextCount(k: nat)
    ensures (k % WordRange + 1) % WordRange == (k + 1) % WordRange
  {
    var q, r := k / WordRange, k % WordRange;
    assert k + 1 == q * WordRange + (r + 1);
    if r + 1 == WordRange {
      assert k + 1 == (q + 1) * WordRange;
    }
  }

  /** The wrap-around of the counters does not disturb the positions: 2^32 is a multiple of 64. */
  lemma WrapKeepsPosition(n: nat)
    ensures (n % WordRange) % 64 == n % 64
    ensures (n % WordRange) % 2 == n % 2
  {
    var q := n / WordRange;
    assert n == q * WordRange + n % WordRange;
    assert q * WordRange == (q * 0x400_0000) * 64;
    assert q * WordRange == (q * 0x8000_0000) * 2;
  }

  /** Successive messages move one column to the right, wrapping after 63, and alternate between the two rows. */
  lemma PositionsAdvance(n: nat)
    ensures 0 <= (n % WordRange) % 64 < 64 && 0 <= (n % WordRange) % 2 < 2
    ensures ((n + 1) % WordRange) % 64 == ((n % WordRange) % 64 + 1) % 64
    ensures ((n + 1) % WordRange) % 2 != (n % WordRange) % 2
  {
    WrapKeepsPosition(n);
    WrapKeepsPosition(n + 1);
    NextColumn(n);
    NextRow(n);
  }

  /** The column of the successor is the next column, wrapping after 63. */
  lemma NextColumn(n: nat)
    ensures (n + 1) % 64 == (n % 64 + 1) % 64
  {
    var q, r := n / 64, n % 64;
    assert n + 1 == q * 64 + (r + 1);
    if r + 1 == 64 {
      assert n + 1 == (q + 1) * 64;
    }
  }

  /** The row of the successor is the other row. */
  lemma NextRow(n: nat)
    ensures (n + 1) % 2 != n % 2
  {
    var q, r := n / 2, n % 2;
    assert n + 1 == q * 2 + (r + 1);
    if r + 1 == 2 {
      assert n + 1 == (q + 1) * 2;
    }
  }

  /** What a task does with the print queue: post a message (xQueueSend), or take the oldest (xQueueReceive in vPrintTask). */
  datatype PrintOp = Post(m: string) | Take

  /** The print queue after some operations, the messages it accepted and those vPrintTask took, oldest first. */
  datatype PrintTrace = PrintTrace(queue: seq<string>, accepted: seq<string>, taken: seq<string>)

  /** One operation; a post to a full queue is not accepted at that point (the sender waits and posts again later). */
  function PrintStep(q: seq<string>, op: PrintOp): PrintTrace
  {
    match op
    case Post(m) =>
      var (q1, ok) := Send(q, PrintQueueSize, m);
      PrintTrace(q1, if ok then [m] else [], [])
    case Take =>
      var (q1, r) := Receive(q);
      PrintTrace(q1, [], if r.Some? then [r.value] else [])
  }

  function PrintRun(q: seq<string>, ops: seq<PrintOp>): PrintTrace
    decreases |ops|
  {
    if ops == [] then PrintTrace(q, [], [])
    else
      var s := PrintStep(q, ops[0]);
      var t := PrintRun(s.queue, ops[1..]);
      PrintTrace(t.queue, s.accepted + t.accepted, s.taken + t.taken)
  }

  /** One operation keeps the queue within mainQUEUE_SIZE, and moves messages through it in order. */
  lemma PrintStepBound(q: seq<string>, op: PrintOp)
    requires |q| <= PrintQueueSize
    ensures |PrintStep(q, op).queue| <= PrintQueueSize
    ensures op.Post? ==> (PrintStep(q, op).accepted != [] <==> |q| < PrintQueueSize)
    ensures PrintStep(q, op).taken + PrintStep(q, op).queue == q + PrintStep(q, op).accepted
  {
  }

  /**
   * Over any interleaving of posts and takes, the print queue never holds more than
   * three messages, and vPrintTask takes exactly the accepted messages, in the
   * order they were accepted (with the rest still queued).
   */
  lemma {:induction false} PrintQueueBound(q: seq<string>, ops: seq<PrintOp>)
    requires |q| <= PrintQueueSize
    ensures |PrintRun(q, ops).queue| <= PrintQueueSize
    ensures PrintRun(q, ops).taken + PrintRun(q, ops).queue == q + PrintRun(q, ops).accepted
    decreases |ops|
  {
    if ops != [] {
      var s := PrintStep(q, ops[0]);
      var t := PrintRun(s.queue, ops[1..]);
      PrintStepBound(q, ops[0]);
      PrintQueueBound(s.queue, ops[1..]);
      assert PrintRun(q, ops) == PrintTrace(t.queue, s.accepted + t.accepted, s.taken + t.taken);
      Streams.Splice(s.taken, t.taken, t.queue, s.queue, t.accepted, q, s.accepted);
    }
  }
}
