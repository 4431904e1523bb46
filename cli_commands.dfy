/**
 * The command-line commands of the FreeRTOS+CLI demo: the command table, the two
 * statistics commands, the two parameter-echo commands that produce their output
 * one line per call, and the trace start/stop command.
 *
 * A command function is called repeatedly by the interpreter for as long as it
 * returns true; each call writes one string. The echo commands remember where they
 * are in a static counter, modelled as a field of a class per command.
 */
module CliCommands {
  /** `CLI_Command_Definition_t`: the command word, its help text and how many parameters it expects (-1: any number). */
  datatype CommandDefinition = CommandDefinition(command: string, helpString: string, expectedParameters: int)

  const TaskStatsCommand := CommandDefinition(
    "task-stats",
    "\r\ntask-stats:\r\n Displays a table showing the state of each FreeRTOS task\r\n\r\n",
    0)

  const RunTimeStatsCommand := CommandDefinition(
    "run-time-stats",
    "\r\nrun-time-stats:\r\n Displays a table showing how much processing time each FreeRTOS task has used\r\n\r\n",
    0)

  const ThreeParameterEchoCommand := CommandDefinition(
    "echo_3_parameters",
    "\r\necho_3_parameters <param1> <param2> <param3>:\r\n Expects three parameters, echos each in turn\r\n\r\n",
    3)

  const ParameterEchoCommand := CommandDefinition(
    "echo_parameters",
    "\r\necho_parameters <...>:\r\n Take variable number of parameters, echos each in turn\r\n\r\n",
    -1)

  const StartTraceCommand := CommandDefinition(
    "trace",
    "\r\ntrace [start | stop]:\r\n Starts or stops a trace recording for viewing in FreeRTOS+Trace\r\n\r\n",
    1)

  /** vRegisterCLICommands: the commands in the order they are registered. */
  function RegisteredCommands(): (r: seq<CommandDefinition>)
    ensures |r| == 5
    ensures forall i, j :: 0 <= i < j < |r| ==> r[i].command != r[j].command
    ensures forall i :: 0 <= i < |r| ==> r[i].expectedParameters >= -1
  {
    [TaskStatsCommand, RunTimeStatsCommand, ThreeParameterEchoCommand, ParameterEchoCommand, StartTraceCommand]
  }

  /** The expected parameter counts, in registration order: none, none, three, any number, one. */
  lemma ExpectedParameterCounts()
    ensures seq(5, i requires 0 <= i < 5 => RegisteredCommands()[i].expectedParameters) == [0, 0, 3, -1, 1]
  {
  }

  // ---------------------------------------------------------------------------
  // Decimal rendering, as sprintf's "%d" does for a non-negative number.

  function DigitChar(d: nat): (c: char)
    requires d < 10
    ensures '0' <= c <= '9'
  {
    ('0' as int + d) as char
  }

  function DigitValue(c: char): nat
  {
    if '0' <= c <= '9' then (c as int - '0' as int) else 0
  }

  /** "%d" for a non-negative number: its decimal digits, most significant first, without leading zeros. */
  function Decimal(n: nat): (s: string)
    ensures |s| >= 1
    ensures forall i :: 0 <= i < |s| ==> '0' <= s[i] <= '9'
    ensures |s| > 1 ==> s[0] != '0'
    decreases n
  {
    if n < 10 then [DigitChar(n)] else Decimal(n / 10) + [DigitChar(n % 10)]
  }

  /** Reading a string of decimal digits back as a number. */
  function DecimalValue(s: string): nat
    decreases |s|
  {
    if s == [] then 0 else DecimalValue(s[..|s| - 1]) * 10 + DigitValue(s[|s| - 1])
  }

  /** "%d" loses nothing: the digits it writes read back as the number. */
  lemma {:induction false} DecimalRoundTrip(n: nat)
    ensures DecimalValue(Decimal(n)) == n
    decreases n
  {
    if n >= 10 {
      DecimalRoundTrip(n / 10);
      var s := Decimal(n);
      assert s[..|s| - 1] == Decimal(n / 10);
      assert DigitValue(s[|s| - 1]) == n % 10;
    }
  }

  // ---------------------------------------------------------------------------
  // The statistics commands.

  const TaskStatsHeader := "Task          State  Priority  Stack\t#\r\n************************************************\r\n"
  const RunTimeStatsHeader := "Task            Abs Time      % Time\r\n****************************************\r\n"

  /**
   * prvTaskStatsCommand, given the table vTaskList writes: the header followed by
   * the table, and false, as the whole output fits in one call.
   */
  function TaskStats(table: string): (r: (string, bool))
    ensures TaskStatsHeader <= r.0 && r.0[|TaskStatsHeader|..] == table
    ensures !r.1
  {
    (TaskStatsHeader + table, false)
  }

  /** prvRunTimeStatsCommand, given the table vTaskGetRunTimeStats writes: the header followed by the table, and false. */
  function RunTimeStats(table: string): (r: (string, bool))
    ensures RunTimeStatsHeader <= r.0 && r.0[|RunTimeStatsHeader|..] == table
    ensures !r.1
  {
    (RunTimeStatsHeader + table, false)
  }

  // ---------------------------------------------------------------------------
  // The echo commands. `parameters` are the words after the command word, as
  // FreeRTOS_CLIGetParameter finds them: parameter n (from 1) is parameters[n - 1].

  /** The line echoing parameter n: "n: ", the parameter, then CR LF. */
  function EchoLine(n: nat, parameter: string): string
  {
    Decimal(n) + ": " + parameter + "\r\n"
  }

  const ThreeEchoHeader := "The three parameters were:\r\n"
  const EchoHeader := "The parameters were:\r\n"

  /** One call: the counter afterwards, the string written and the value returned. */
  datatype Reply = Reply(counter: nat, output: string, more: bool)

  /**
   * One call of prvThreeParameterEchoCommand with the static counter at `n`: the
   * header first, then parameters 1, 2 and 3; after the third the counter starts over.
   * The interpreter only runs the command with three parameters, and the command
   * asserts that parameter n exists.
   */
  function ThreeEchoStep(n: nat, parameters: seq<string>): (r: Reply)
    requires n <= 3 && n <= |parameters|
    ensures n == 0 ==> r == Reply(1, ThreeEchoHeader, true)
    ensures n > 0 ==> r.output == EchoLine(n, parameters[n - 1])
    ensures r.more <==> n < 3
    ensures r.counter == if n == 3 then 0 else n + 1
  {
    if n == 0 then Reply(1, ThreeEchoHeader, true)
    else
      var line := EchoLine(n, parameters[n - 1]);
      if n == 3 then Reply(0, line, false) else Reply(n + 1, line, true)
  }

  /**
   * One call of prvParameterEchoCommand with the static counter at `n`: the header
   * first, then one parameter per call; the call that finds no parameter n writes
   * an empty string, returns false and starts the counter over.
   */
  function EchoStep(n: nat, parameters: seq<string>): (r: Reply)
    ensures n == 0 ==> r == Reply(1, EchoHeader, true)
    ensures 0 < n <= |parameters| ==> r == Reply(n + 1, EchoLine(n, parameters[n - 1]), true)
    ensures n > |parameters| ==> r == Reply(0, "", false)
  {
    if n == 0 then Reply(1, EchoHeader, true)
    else if n <= |parameters| then Reply(n + 1, EchoLine(n, parameters[n - 1]), true)
    else Reply(0, "", false)
  }

  /** A number of consecutive calls: the counter at the end, the strings written and the values returned. */
  datatype Session = Session(counter: nat, outputs: seq<string>, results: seq<bool>)

  function ThreeEchoRun(n: nat, parameters: seq<string>, calls: nat): (s: Session)
    requires n <= 3 && |parameters| >= 3
    ensures |s.outputs| == calls && |s.results| == calls
    decreases calls
  {
    if calls == 0 then Session(n, [], [])
    else
      var r := ThreeEchoStep(n, parameters);
      var rest := ThreeEchoRun(r.counter, parameters, calls - 1);
      Session(rest.counter, [r.output] + rest.outputs, [r.more] + rest.results)
  }

  function EchoRun(n: nat, parameters: seq<string>, calls: nat): (s: Session)
    ensures |s.outputs| == calls && |s.results| == calls
    decreases calls
  {
    if calls == 0 then Session(n, [], [])
    else
      var r := EchoStep(n, parameters);
      var rest := EchoRun(r.counter, parameters, calls - 1);
      Session(rest.counter, [r.output] + rest.outputs, [r.more] + rest.results)
  }

  /** The lines echoing parameters `from`, `from + 1`, ... to the last. */
  function EchoLines(parameters: seq<string>, from: nat): (r: seq<string>)
    requires 1 <= from <= |parameters| + 1
    ensures |r| == |parameters| + 1 - from
    ensures forall i :: 0 <= i < |r| ==> r[i] == EchoLine(from + i, parameters[from + i - 1])
    decreases |parameters| + 1 - from
  {
    if from == |parameters| + 1 then [] else [EchoLine(from, parameters[from - 1])] + EchoLines(parameters, from + 1)
  }

  function Trues(k: nat): (r: seq<bool>)
    ensures |r| == k && forall i :: 0 <= i < k ==> r[i]
  {
    seq(k, _ => true)
  }

  /**
   * One invocation of echo_3_parameters takes exactly four calls: the header and
   * the three parameters in order, true after each but the last, and the counter
   * is back at zero for the next invocation.
   */
  lemma {:induction false} ThreeEchoSession(parameters: seq<string>)
    requires |parameters| >= 3
    ensures ThreeEchoRun(0, parameters, 4) == Session(
      0,
      [ThreeEchoHeader, EchoLine(1, parameters[0]), EchoLine(2, parameters[1]), EchoLine(3, parameters[2])],
      [true, true, true, false])
  {
    var l1, l2, l3 := EchoLine(1, parameters[0]), EchoLine(2, parameters[1]), EchoLine(3, parameters[2]);
    assert ThreeEchoRun(0, parameters, 0) == Session(0, [], []);
    assert ThreeEchoRun(3, parameters, 1) == Session(0, [l3], [false]);
    assert ThreeEchoRun(2, parameters, 2) == Session(0, [l2, l3], [true, false]);
    assert ThreeEchoRun(1, parameters, 3) == Session(0, [l1, l2, l3], [true, true, false]);
    var s4 := ThreeEchoRun(0, parameters, 4);
    assert s4.outputs == [ThreeEchoHeader] + [l1, l2, l3];
    assert s4.results == [true] + [true, true, false];
  }

  /** From parameter `from` on, the calls echo each remaining parameter and then end the session. */
  lemma {:induction false} EchoRunFrom(parameters: seq<string>, from: nat)
    requires 1 <= from <= |parameters| + 1
    ensures EchoRun(from, parameters, |parameters| + 2 - from) ==
      Session(0, EchoLines(parameters, from) + [""], Trues(|parameters| + 1 - from) + [false])
    decreases |parameters| + 1 - from
  {
    if from <= |parameters| {
      EchoRunFrom(parameters, from + 1);
      assert Trues(|parameters| + 1 - from) == [true] + Trues(|parameters| - from);
    }
  }

  /**
   * One invocation of echo_parameters with k parameters takes exactly k + 2 calls:
   * the header, one line per parameter in order, and a final empty string; every
   * call but the last returns true, and the counter is back at zero.
   */
  lemma {:induction false} EchoSession(parameters: seq<string>)
    ensures EchoRun(0, parameters, |parameters| + 2) ==
      Session(0, [EchoHeader] + EchoLines(parameters, 1) + [""], Trues(|parameters| + 1) + [false])
  {
    EchoRunFrom(parameters, 1);
    var rest := EchoRun(1, parameters, |parameters| + 1);
    var all := EchoRun(0, parameters, |parameters| + 2);
    assert all.counter == 0;
    assert all.outputs == [EchoHeader] + rest.outputs;
    assert all.results == [true] + rest.results;
    assert Trues(|parameters| + 1) == [true] + Trues(|parameters|);
  }

  /** prvThreeParameterEchoCommand and its static lParameterNumber. */
  class ThreeParameterEcho {
    var parameterNumber: nat

    constructor ()
      ensures parameterNumber == 0
    {
      parameterNumber := 0;
    }

    /** One call by the interpreter; the string is what is left in the write buffer. */
    method Call(parameters: seq<string>) returns (output: string, more: bool)
      requires parameterNumber <= 3 && parameterNumber <= |parameters|
      modifies this
      ensures Reply(parameterNumber, output, more) == ThreeEchoStep(old(parameterNumber), parameters)
    {
      if parameterNumber == 0 {
        output := ThreeEchoHeader;
        parameterNumber := 1;
        more := true;
      } else {
        var parameter := parameters[parameterNumber - 1];
        output := Decimal(parameterNumber) + ": ";
        output := output + parameter;
        output := output + "\r\n";
        if parameterNumber == 3 {
          more := false;
          parameterNumber := 0;
        } else {
          more := true;
          parameterNumber := parameterNumber + 1;
        }
      }
    }
  }

  /** prvParameterEchoCommand and its static lParameterNumber. */
  class ParameterEcho {
    var parameterNumber: nat

    constructor ()
      ensures parameterNumber == 0
    {
      parameterNumber := 0;
    }

    /** One call by the interpreter; the string is what is left in the write buffer. */
    method Call(parameters: seq<string>) returns (output: string, more: bool)
      modifies this
      ensures Reply(parameterNumber, output, more) == EchoStep(old(parameterNumber), parameters)
    {
      if parameterNumber == 0 {
        output := EchoHeader;
        parameterNumber := 1;
        more := true;
      } else if parameterNumber <= |parameters| {
        var parameter := parameters[parameterNumber - 1];
        output := Decimal(parameterNumber) + ": ";
        output := output + parameter;
        output := output + "\r\n";
        more := true;
        parameterNumber := parameterNumber + 1;
      } else {
        output := "";
        more := false;
        parameterNumber := 0;
      }
    }
  }

  // ---------------------------------------------------------------------------
  // The trace command.

  /**
   * strncmp(a, b, n) == 0 on strings that end where the sequence ends: the first
   * n characters agree, or both strings end together before that.
   */
  predicate StrNCmpEqual(a: string, b: string, n: nat)
    decreases n
  {
    n == 0 || (a == [] && b == []) || (a != [] && b != [] && a[0] == b[0] && StrNCmpEqual(a[1..], b[1..], n - 1))
  }

  /** Comparing as many characters as a literal has tells whether the string starts with that literal. */
  lemma {:induction false} StrNCmpPrefix(a: string, literal: string)
    ensures StrNCmpEqual(a, literal, |literal|) <==> literal <= a
    decreases |literal|
  {
    if literal != [] && a != [] {
      StrNCmpPrefix(a[1..], literal[1..]);
      assert literal <= a <==> a[0] == literal[0] && literal[1..] <= a[1..];
    }
  }

  datatype TraceAction = Restart | StopAndSave | Reject

  const RestartMessage := "Trace recording (re)started.\r\n"
  const StopMessage := "Stopping trace recording and dumping log to disk.\r\n"
  const RejectMessage := "Valid parameters are 'start' and 'stop'.\r\n"

  /** The action prvStartStopTraceCommand takes and the string it writes, always returning false. */
  datatype TraceReply = TraceReply(action: TraceAction, output: string, more: bool)

  /**
   * prvStartStopTraceCommand, given the command line from its first parameter on:
   * only as many characters as "start" (then "stop") has are compared, so any
   * parameter that begins with "start" restarts the recording, any other that begins
   * with "stop" stops it, and everything else is refused.
   */
  function StartStopTrace(parameter: string): (r: TraceReply)
    ensures r.action == Restart <==> "start" <= parameter
    ensures r.action == StopAndSave <==> !("start" <= parameter) && "stop" <= parameter
    ensures r.output == match r.action
      case Restart => RestartMessage
      case StopAndSave => StopMessage
      case Reject => RejectMessage
    ensures !r.more
  {
    StrNCmpPrefix(parameter, "start");
    StrNCmpPrefix(parameter, "stop");
    if StrNCmpEqual(parameter, "start", |"start"|) then TraceReply(Restart, RestartMessage, false)
    else if StrNCmpEqual(parameter, "stop", |"stop"|) then TraceReply(StopAndSave, StopMessage, false)
    else TraceReply(Reject, RejectMessage, false)
  }
}
