/**
 * The shell command the scheduled entry runs (recipes/cron.rb: the redirect and
 * daemon-option strings, then the `cmd` buffer built by appending segments).
 * Nothing is shell-escaped: every segment is pasted in as it is.
 */
module CronCommand {
  import opened Options
  import opened Text

  const SleepProgram: string := "/bin/sleep "
  const NiceProgram: string := "/bin/nice -n "
  const ErrToOut: string := " 2>&1"

  /** The values the command is assembled from, as the recipe holds them just before the buffer is built. */
  datatype CommandInputs = CommandInputs(
    sleepTime: Option<nat>,          // nil when there is no splay
    envVars: Option<string>,         // env_vars, present exactly when env_vars? holds
    processPriority: Option<int>,    // process_priority, nil when not configured
    clientBin: string,               // path of the chef-client executable
    daemonOptions: string,           // the string DaemonOptions derives
    redirect: string,                // the string Redirect derives
    logFile: string)

  /** `>>` appends to the log, `>` truncates it. */
  function Redirect(appendLog: bool): (r: string)
    ensures 1 <= |r| <= 2 && forall i :: 0 <= i < |r| ==> r[i] == '>'
    ensures |r| == 2 <==> appendLog
  {
    if appendLog then ">>" else ">"
  }

  /**
   * daemon_options: the options joined by single spaces with one space on each
   * side, or nothing (Ruby's nil interpolates as "") when the list is empty.
   */
  function DaemonOptions(options: seq<string>): (r: string)
    ensures r == "" <==> |options| == 0
    ensures |options| > 0 ==> r[0] == ' ' && r[|r| - 1] == ' '
  {
    if |options| > 0 then " " + Join(options, ' ') + " " else ""
  }

  /** The options can be read back from the derived string, as long as none of them holds a space. */
  lemma DaemonOptionsRoundTrip(options: seq<string>)
    requires 1 <= |options|
    requires forall i :: 0 <= i < |options| ==> ' ' !in options[i]
    ensures var r := DaemonOptions(options);
      2 <= |r| && Split(r[1..|r| - 1], ' ') == options
  {
    var r := DaemonOptions(options);
    assert r[1..|r| - 1] == Join(options, ' ');
    SplitJoin(options, ' ');
  }

  // The four segments of the command, in the order they are appended.

  function SleepSegment(sleepTime: Option<nat>): string {
    match sleepTime
    case Some(n) => SleepProgram + NatToDecimal(n) + "; "
    case None => ""
  }

  function EnvSegment(envVars: Option<string>): string {
    match envVars
    case Some(v) => v + " "
    case None => ""
  }

  function NiceSegment(processPriority: Option<int>): string {
    match processPriority
    case Some(p) => NiceProgram + IntToDecimal(p) + " "
    case None => ""
  }

  /**
   * The client invocation, always appended last: the executable, a space, the
   * derived options, the redirect, a space, the log file, and standard error
   * sent to the same place.
   */
  function ClientSegment(c: CommandInputs): string {
    c.clientBin + " " + c.daemonOptions + c.redirect + " " + c.logFile + ErrToOut
  }

  /** The optional segments that precede the client invocation. */
  function OptionalSegments(c: CommandInputs): string {
    SleepSegment(c.sleepTime) + EnvSegment(c.envVars) + NiceSegment(c.processPriority)
  }

  /** The command line: the present optional segments, then the client invocation. */
  function CommandLine(c: CommandInputs): string {
    OptionalSegments(c) + ClientSegment(c)
  }

  /** The recipe's `cmd = ''` followed by its conditional `cmd <<` appends. */
  method BuildCommand(c: CommandInputs) returns (cmd: string)
    ensures cmd == CommandLine(c)
  {
    cmd := "";
    if c.sleepTime.Some? {
      cmd := cmd + (SleepProgram + NatToDecimal(c.sleepTime.value) + "; ");
    }
    assert cmd == SleepSegment(c.sleepTime);
    if c.envVars.Some? {
      cmd := cmd + (c.envVars.value + " ");
    }
    assert cmd == SleepSegment(c.sleepTime) + EnvSegment(c.envVars);
    if c.processPriority.Some? {
      cmd := cmd + (NiceProgram + IntToDecimal(c.processPriority.value) + " ");
    }
    assert cmd == OptionalSegments(c);
    cmd := cmd + (c.clientBin + " " + c.daemonOptions + c.redirect + " " + c.logFile + ErrToOut);
  }

  /** The client invocation: the executable, a space and the derived options. */
  function Invocation(c: CommandInputs): string {
    c.clientBin + " " + c.daemonOptions
  }

  /** Where the output goes, after the redirect operator. */
  function LogTarget(logFile: string): string {
    " " + logFile + ErrToOut
  }

  lemma ClientSegmentParts(c: CommandInputs)
    ensures ClientSegment(c) == Invocation(c) + (c.redirect + LogTarget(c.logFile))
  {
  }

  // ---------------------------------------------------------------------------
  // Reading a command back

  /** The delay a command starts with: `/bin/sleep <digits>; ` at its head, or none. */
  function SleepPrefixOf(cmd: string): Option<nat> {
    if StartsWith(cmd, SleepProgram) then
      var rest := cmd[|SleepProgram|..];
      var k := DigitRun(rest);
      if 0 < k && StartsWith(rest[k..], "; ") then Some(DecimalValue(rest[..k])) else None
    else None
  }

  /** A sleep segment at the head of any text is read back as its delay. */
  lemma SleepSegmentReadBack(n: nat, r: string)
    ensures SleepPrefixOf(SleepSegment(Some(n)) + r) == Some(n)
  {
    var d := NatToDecimal(n);
    var t := "; " + r;
    assert SleepSegment(Some(n)) + r == SleepProgram + (d + t);
    ConcatParts(SleepProgram, d + t);
    DigitRunOfDigits(d, t);
    ConcatParts(d, t);
    ConcatParts("; ", r);
    DecimalRoundTrip(n);
  }

  /** The delay written into the command is the one read back from it (a delay of 0 included). */
  lemma SleepRoundTrip(c: CommandInputs)
    requires c.sleepTime.Some?
    ensures SleepPrefixOf(CommandLine(c)) == c.sleepTime
  {
    var s, e, p, cl := SleepSegment(c.sleepTime), EnvSegment(c.envVars), NiceSegment(c.processPriority), ClientSegment(c);
    assert CommandLine(c) == s + (e + p + cl);
    SleepSegmentReadBack(c.sleepTime.value, e + p + cl);
  }

  /** The character after the executable's space is a space (options) or a '>' (redirect). */
  lemma AfterExecutable(c: CommandInputs, appendLog: bool, options: seq<string>)
    requires c.redirect == Redirect(appendLog) && c.daemonOptions == DaemonOptions(options)
    ensures var after := c.daemonOptions + (c.redirect + LogTarget(c.logFile));
      ClientSegment(c) == c.clientBin + (" " + after) &&
      1 <= |after| && (after[0] == ' ' || after[0] == '>')
  {
  }

  /** An executable path that does not start like the sleep program, then a space and a redirect or option, carries no delay. */
  lemma NoSleepAtExecutable(bin: string, after: string)
    requires !StartsWith(bin, SleepProgram)
    requires 1 <= |after| && (after[0] == ' ' || after[0] == '>')
    ensures SleepPrefixOf(bin + (" " + after)) == None
  {
    var x, sp, k := bin + (" " + after), SleepProgram, |bin|;
    assert x[k] == ' ' && x[k + 1] == after[0];
    if k >= |sp| {
      assert x[..|sp|] == bin[..|sp|];
    } else if k == 10 {
      assert x[..10] == bin;
      assert x[..|sp|][..10] == x[..10];
      if StartsWith(x, sp) {
        assert x[|sp|..] == after;
      }
    } else if k == 4 {
      assert x[5] != sp[5];
    } else {
      assert x[k] != sp[k];
    }
  }

  /** A priority segment at the head of any text is not taken for a delay. */
  lemma NoSleepAtNice(p: int, r: string)
    ensures SleepPrefixOf(NiceSegment(Some(p)) + r) == None
  {
  }

  /** A command whose first character is not '/' cannot start with the sleep program. */
  lemma NoSleepWithoutSlash(cmd: string)
    requires 1 <= |cmd| && cmd[0] != '/'
    ensures SleepPrefixOf(cmd) == None
  {
    if |SleepProgram| <= |cmd| {
      assert cmd[..|SleepProgram|][0] == cmd[0];
    }
  }

  /**
   * Without a splay there is no sleep prefix, provided nothing else at the head
   * of the command looks like one: an environment prefix, when there is one,
   * does not start with '/', and the executable path does not itself start with
   * `/bin/sleep `. A priority prefix starts with `/bin/nice`, which differs.
   */
  lemma NoSleepNoPrefix(c: CommandInputs, appendLog: bool, options: seq<string>)
    requires c.sleepTime.None?
    requires c.envVars.Some? ==> !StartsWith(c.envVars.value, "/")
    requires c.redirect == Redirect(appendLog) && c.daemonOptions == DaemonOptions(options)
    requires !StartsWith(c.clientBin, SleepProgram)
    ensures SleepPrefixOf(CommandLine(c)) == None
  {
    var cl := ClientSegment(c);
    var n := NiceSegment(c.processPriority);
    if c.envVars.Some? {
      var v := c.envVars.value;
      assert CommandLine(c) == (v + " ") + (n + cl);
      assert (v + " ")[0] != '/' by {
        if v != [] {
          assert v[..1] == [v[0]];
        }
      }
      NoSleepWithoutSlash(CommandLine(c));
    } else {
      assert CommandLine(c) == n + cl;
      if c.processPriority.Some? {
        NoSleepAtNice(c.processPriority.value, cl);
      } else {
        AfterExecutable(c, appendLog, options);
        assert CommandLine(c) == cl;
        NoSleepAtExecutable(c.clientBin, c.daemonOptions + (c.redirect + LogTarget(c.logFile)));
      }
    }
  }

  /** The command always ends by sending output and errors to the log. */
  lemma CommandEndsWithLog(c: CommandInputs)
    ensures EndsWith(CommandLine(c), c.redirect + LogTarget(c.logFile))
  {
  }

  /** Whether a command appends its output to `logFile`. */
  predicate AppendsTo(cmd: string, logFile: string) {
    EndsWith(cmd, ">>" + LogTarget(logFile))
  }

  lemma NotEndsWithAfterDifferentChar(p: string, t: string, ch: char)
    requires 1 <= |p| && p[|p| - 1] != ch
    ensures !EndsWith(p + t, [ch] + t)
  {
    var s, u := p + t, [ch] + t;
    assert |s| - |u| == |p| - 1;
    assert s[|s| - |u|..][0] == p[|p| - 1] != u[0];
  }

  /**
   * The log is appended to exactly when append_log is set: with `>`, the
   * character in front of the redirect is a space (the one after the executable,
   * or the trailing one of the options), so the command never reads as `>>`.
   */
  lemma AppendModeRecoverable(c: CommandInputs, appendLog: bool, options: seq<string>)
    requires c.redirect == Redirect(appendLog)
    requires c.daemonOptions == DaemonOptions(options)
    ensures AppendsTo(CommandLine(c), c.logFile) <==> appendLog
  {
    if appendLog {
      CommandEndsWithLog(c);
    } else {
      TruncateModeNotAppend(c, options);
    }
  }

  lemma TruncateModeNotAppend(c: CommandInputs, options: seq<string>)
    requires c.redirect == ">"
    requires c.daemonOptions == DaemonOptions(options)
    ensures !AppendsTo(CommandLine(c), c.logFile)
  {
    var t := ">" + LogTarget(c.logFile);
    var o, i := OptionalSegments(c), Invocation(c);
    ClientSegmentParts(c);
    assert CommandLine(c) == o + (i + t);
    assert o + (i + t) == (o + i) + t;
    InvocationEndsWithSpace(c, options);
    assert (o + i)[|o + i| - 1] == i[|i| - 1];
    NotEndsWithAfterDifferentChar(o + i, t, '>');
    assert ">>" + LogTarget(c.logFile) == ['>'] + t;
  }

  /** The executable is always followed by a space, and the options end with one. */
  lemma InvocationEndsWithSpace(c: CommandInputs, options: seq<string>)
    requires c.daemonOptions == DaemonOptions(options)
    ensures var i := Invocation(c); 1 <= |i| && i[|i| - 1] == ' '
  {
  }

  /** With no optional segment and no options the command is just the client invocation. */
  lemma MinimalCommand(c: CommandInputs)
    requires c.sleepTime.None? && c.envVars.None? && c.processPriority.None?
    requires c.daemonOptions == DaemonOptions([])
    ensures CommandLine(c) == c.clientBin + " " + c.redirect + " " + c.logFile + " 2>&1"
  {
  }

  lemma ExampleWithoutOptions()
    ensures CommandLine(CommandInputs(None, None, None, "/usr/bin/chef-client", DaemonOptions([]),
                                      Redirect(false), "/var/log/chef/client.log"))
            == "/usr/bin/chef-client > /var/log/chef/client.log 2>&1"
  {
    var bin, log := "/usr/bin/chef-client", "/var/log/chef/client.log";
    assert DaemonOptions([]) == "" && Redirect(false) == ">";
    MinimalCommand(CommandInputs(None, None, None, bin, "", ">", log));
    ExampleLayout(bin, log);
  }

  lemma ExampleLayout(bin: string, log: string)
    requires bin == "/usr/bin/chef-client" && log == "/var/log/chef/client.log"
    ensures bin + " " + ">" + " " + log + " 2>&1" == "/usr/bin/chef-client > /var/log/chef/client.log 2>&1"
  {
  }
}
