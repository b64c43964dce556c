/**
 * The surrogate's launch-argument contract: every argument after the program
 * name must be `-parent_pid=<digits>` or `-clsid=<text>` with text that parses
 * as a GUID; afterwards the parent pid must be non-zero and the CLSID not null.
 */
module Arguments {
  import opened Wrappers
  import opened ComTypes

  const PID_PREFIX := "-parent_pid="
  const CLSID_PREFIX := "-clsid="

  /** LONG_MAX for the 32-bit `long` of the Windows ABI. */
  const LONG_MAX: nat := 0x7FFF_FFFF

  /** The values `atol` can produce from a string of decimal digits. */
  type Long = x: nat | x <= LONG_MAX

  /** Outcome of the argument loop and the required-argument check. */
  datatype ParseResult = Ok(ppid: Long, clsid: Guid) | UsageError

  /** The regex class `\d`. */
  predicate IsDigit(c: char) {
    '0' <= c <= '9'
  }

  predicate AllDigits(s: string) {
    forall i :: 0 <= i < |s| ==> IsDigit(s[i])
  }

  /** The regex `.` matches every character except a line terminator. */
  predicate IsLineTerminator(c: char) {
    c == '\n' || c == '\r'
  }

  predicate NoLineTerminator(s: string) {
    forall i :: 0 <= i < |s| ==> !IsLineTerminator(s[i])
  }

  /** Which of the two argument patterns a single argument matches in full. */
  datatype ArgKind = ParentPid(digits: string) | ClsidText(text: string) | Unrecognized

  predicate HasPrefix(s: string, p: string) {
    |p| <= |s| && s[..|p|] == p
  }

  /**
   * `regex_match` against `-parent_pid=(\d+)`, then against `-clsid=(.+)`;
   * the captured group is the argument with the prefix removed.
   */
  function Classify(arg: string): (k: ArgKind)
    ensures k.ParentPid? ==> arg == PID_PREFIX + k.digits && k.digits != [] && AllDigits(k.digits)
    ensures k.ClsidText? ==> arg == CLSID_PREFIX + k.text && k.text != [] && NoLineTerminator(k.text)
  {
    if |arg| > |PID_PREFIX| && HasPrefix(arg, PID_PREFIX) && AllDigits(arg[|PID_PREFIX|..]) then
      assert arg == arg[..|PID_PREFIX|] + arg[|PID_PREFIX|..];
      ParentPid(arg[|PID_PREFIX|..])
    else if |arg| > |CLSID_PREFIX| && HasPrefix(arg, CLSID_PREFIX) && NoLineTerminator(arg[|CLSID_PREFIX|..]) then
      assert arg == arg[..|CLSID_PREFIX|] + arg[|CLSID_PREFIX|..];
      ClsidText(arg[|CLSID_PREFIX|..])
    else
      Unrecognized
  }

  /** Every argument of the form `-parent_pid=<one or more digits>` is classified as such. */
  lemma ClassifyParentPid(d: string)
    requires d != [] && AllDigits(d)
    ensures Classify(PID_PREFIX + d) == ParentPid(d)
  {
    var arg := PID_PREFIX + d;
    assert arg[..|PID_PREFIX|] == PID_PREFIX;
    assert arg[|PID_PREFIX|..] == d;
  }

  /** Every argument of the form `-clsid=<one or more non-line-terminators>` is classified as such. */
  lemma ClassifyClsid(t: string)
    requires t != [] && NoLineTerminator(t)
    ensures Classify(CLSID_PREFIX + t) == ClsidText(t)
  {
    var arg := CLSID_PREFIX + t;
    assert arg[1] == 'c' && PID_PREFIX[1] == 'p';
    assert arg[..|CLSID_PREFIX|] == CLSID_PREFIX;
    assert arg[|CLSID_PREFIX|..] == t;
  }

  function DigitValue(c: char): (v: nat)
    requires IsDigit(c)
    ensures v < 10
  {
    c as int - '0' as int
  }

  /** The decimal value of a digit string, most significant digit first. */
  function DecimalValue(s: string): nat
    requires AllDigits(s)
    decreases |s|
  {
    if s == [] then 0 else 10 * DecimalValue(s[..|s| - 1]) + DigitValue(s[|s| - 1])
  }

  /**
   * `atol` of a digit string: the decimal value, saturated at LONG_MAX as the
   * Microsoft C runtime does on overflow.
   */
  function Atol(s: string): Long
    requires AllDigits(s)
  {
    if DecimalValue(s) > LONG_MAX then LONG_MAX else DecimalValue(s)
  }

  /** Decimal digits of n without leading zeros (as the host writes its pid). */
  function DecimalDigits(n: nat): (s: string)
    ensures s != [] && AllDigits(s)
    decreases n
  {
    if n < 10 then [('0' as int + n) as char]
    else DecimalDigits(n / 10) + [('0' as int + n % 10) as char]
  }

  /** Reading back a decimal rendering gives the number. */
  lemma {:induction false} DecimalRoundTrip(n: nat)
    ensures DecimalValue(DecimalDigits(n)) == n
    decreases n
  {
    var s := DecimalDigits(n);
    if n >= 10 {
      DecimalRoundTrip(n / 10);
      assert s[..|s| - 1] == DecimalDigits(n / 10);
    }
  }

  /** Any pid the ABI's `long` can hold survives `atol` of its decimal rendering. */
  lemma AtolOfDecimal(n: Long)
    ensures Atol(DecimalDigits(n)) == n
  {
    DecimalRoundTrip(n);
  }

  predicate AllZeros(s: string) {
    forall i :: 0 <= i < |s| ==> s[i] == '0'
  }

  /** A digit string denotes zero exactly when all its digits are '0'. */
  lemma {:induction false} DecimalZeroIffAllZeros(s: string)
    requires AllDigits(s)
    ensures DecimalValue(s) == 0 <==> AllZeros(s)
    decreases |s|
  {
    if s != [] {
      var front := s[..|s| - 1];
      DecimalZeroIffAllZeros(front);
      if AllZeros(s) {
        assert AllZeros(front) by {
          forall i | 0 <= i < |front| ensures front[i] == '0' {
            assert front[i] == s[i];
          }
        }
      }
      if DecimalValue(s) == 0 {
        forall i | 0 <= i < |s| ensures s[i] == '0' {
          if i < |s| - 1 {
            assert s[i] == front[i];
          }
        }
      }
    }
  }

  /** `-parent_pid=` followed only by zeros yields pid 0, which counts as absent. */
  lemma AtolZeroIffAllZeros(s: string)
    requires AllDigits(s)
    ensures Atol(s) == 0 <==> AllZeros(s)
  {
    DecimalZeroIffAllZeros(s);
  }

  /** The arguments the loop walks: argv[1..], nothing when argc is 0. */
  function ProgramArgs(argv: seq<string>): seq<string> {
    if |argv| == 0 then [] else argv[1..]
  }

  /** An argument the loop accepts without a usage exit. */
  predicate Accepted(arg: string, parseGuid: string -> Option<Guid>) {
    match Classify(arg)
    case ParentPid(_) => true
    case ClsidText(t) => parseGuid(t).Some?
    case Unrecognized => false
  }

  predicate AllAccepted(args: seq<string>, parseGuid: string -> Option<Guid>) {
    forall i :: 0 <= i < |args| ==> Accepted(args[i], parseGuid)
  }

  /** The value of the last `-parent_pid=` argument, or 0 when there is none. */
  function LastPid(args: seq<string>): Long
    decreases |args|
  {
    if args == [] then 0
    else match Classify(args[|args| - 1])
      case ParentPid(d) => Atol(d)
      case _ => LastPid(args[..|args| - 1])
  }

  /** The GUID of the last parseable `-clsid=` argument, or CLSID_NULL when there is none. */
  function LastClsid(args: seq<string>, parseGuid: string -> Option<Guid>): Guid
    decreases |args|
  {
    if args == [] then CLSID_NULL
    else match Classify(args[|args| - 1])
      case ClsidText(t) =>
        (match parseGuid(t)
         case Some(g) => g
         case None => LastClsid(args[..|args| - 1], parseGuid))
      case _ => LastClsid(args[..|args| - 1], parseGuid)
  }

  /**
   * What the launch arguments mean: a usage error unless every argument is
   * accepted and the last pid and CLSID given are non-zero and non-null.
   */
  function ParseCommandLine(argv: seq<string>, parseGuid: string -> Option<Guid>): ParseResult {
    var args := ProgramArgs(argv);
    if !AllAccepted(args, parseGuid) then UsageError
    else if LastPid(args) == 0 || LastClsid(args, parseGuid) == CLSID_NULL then UsageError
    else Ok(LastPid(args), LastClsid(args, parseGuid))
  }

  /**
   * The argument loop of `main`: later occurrences overwrite earlier ones, an
   * unrecognised argument or an unparseable GUID stops with a usage error.
   */
  method ParseArguments(argv: seq<string>, parseGuid: string -> Option<Guid>) returns (r: ParseResult)
    ensures r == ParseCommandLine(argv, parseGuid)
  {
    ghost var args := ProgramArgs(argv);
    var ppid: Long := 0;
    var clsid := CLSID_NULL;
    var i := 1;
    while i < |argv|
      invariant 1 <= i && i - 1 <= |args|
      invariant |argv| > 0 ==> i <= |argv|
      invariant AllAccepted(args[..i - 1], parseGuid)
      invariant ppid == LastPid(args[..i - 1])
      invariant clsid == LastClsid(args[..i - 1], parseGuid)
      decreases |argv| - i
    {
      assert args[i - 1] == argv[i];
      assert args[..i][..i - 1] == args[..i - 1];
      assert args[..i][i - 1] == argv[i];
      match Classify(argv[i]) {
        case ParentPid(d) =>
          ppid := Atol(d);
        case ClsidText(t) =>
          var g := parseGuid(t);
          if g.None? {
            assert !Accepted(args[i - 1], parseGuid);
            return UsageError;
          }
          clsid := g.value;
        case Unrecognized =>
          assert !Accepted(args[i - 1], parseGuid);
          return UsageError;
      }
      i := i + 1;
    }
    assert args[..i - 1] == args;
    if ppid == 0 || clsid == CLSID_NULL {
      return UsageError;
    }
    return Ok(ppid, clsid);
  }

  /** An argument matching neither pattern is a usage error wherever it appears. */
  lemma UnrecognizedIsUsageError(argv: seq<string>, parseGuid: string -> Option<Guid>, i: nat)
    requires 1 <= i < |argv| && Classify(argv[i]) == Unrecognized
    ensures ParseCommandLine(argv, parseGuid) == UsageError
  {
    assert ProgramArgs(argv)[i - 1] == argv[i];
  }

  /** A `-clsid=` argument whose text is not a GUID is a usage error wherever it appears. */
  lemma UnparseableGuidIsUsageError(argv: seq<string>, parseGuid: string -> Option<Guid>, i: nat)
    requires 1 <= i < |argv| && Classify(argv[i]).ClsidText?
    requires parseGuid(Classify(argv[i]).text).None?
    ensures ParseCommandLine(argv, parseGuid) == UsageError
  {
    assert ProgramArgs(argv)[i - 1] == argv[i];
  }

  /** With no `-parent_pid=` argument the pid stays 0. */
  lemma {:induction false} NoPidArgument(args: seq<string>)
    requires forall i :: 0 <= i < |args| ==> !Classify(args[i]).ParentPid?
    ensures LastPid(args) == 0
    decreases |args|
  {
    if args != [] {
      var front := args[..|args| - 1];
      assert forall i :: 0 <= i < |front| ==> front[i] == args[i];
      NoPidArgument(front);
    }
  }

  /** With no `-clsid=` argument the CLSID stays CLSID_NULL. */
  lemma {:induction false} NoClsidArgument(args: seq<string>, parseGuid: string -> Option<Guid>)
    requires forall i :: 0 <= i < |args| ==> !Classify(args[i]).ClsidText?
    ensures LastClsid(args, parseGuid) == CLSID_NULL
    decreases |args|
  {
    if args != [] {
      var front := args[..|args| - 1];
      assert forall i :: 0 <= i < |front| ==> front[i] == args[i];
      NoClsidArgument(front, parseGuid);
    }
  }

  /** A launch without `-parent_pid=` is a usage error. */
  lemma MissingPidIsUsageError(argv: seq<string>, parseGuid: string -> Option<Guid>)
    requires forall i :: 1 <= i < |argv| ==> !Classify(argv[i]).ParentPid?
    ensures ParseCommandLine(argv, parseGuid) == UsageError
  {
    var args := ProgramArgs(argv);
    assert forall i :: 0 <= i < |args| ==> args[i] == argv[i + 1];
    NoPidArgument(args);
  }

  /** A launch without `-clsid=` is a usage error. */
  lemma MissingClsidIsUsageError(argv: seq<string>, parseGuid: string -> Option<Guid>)
    requires forall i :: 1 <= i < |argv| ==> !Classify(argv[i]).ClsidText?
    ensures ParseCommandLine(argv, parseGuid) == UsageError
  {
    var args := ProgramArgs(argv);
    assert forall i :: 0 <= i < |args| ==> args[i] == argv[i + 1];
    NoClsidArgument(args, parseGuid);
  }

  /** The last `-parent_pid=` wins: arguments after it that are not pids do not change the pid. */
  lemma {:induction false} LaterPidWins(before: seq<string>, d: string, after: seq<string>)
    requires d != [] && AllDigits(d)
    requires forall i :: 0 <= i < |after| ==> !Classify(after[i]).ParentPid?
    ensures LastPid(before + [PID_PREFIX + d] + after) == Atol(d)
    decreases |after|
  {
    var all := before + [PID_PREFIX + d] + after;
    ClassifyParentPid(d);
    if after == [] {
      assert all[|all| - 1] == PID_PREFIX + d;
    } else {
      var shorter := after[..|after| - 1];
      assert forall i :: 0 <= i < |shorter| ==> shorter[i] == after[i];
      LaterPidWins(before, d, shorter);
      assert all[|all| - 1] == after[|after| - 1];
      assert all[..|all| - 1] == before + [PID_PREFIX + d] + shorter;
    }
  }

  /** The last parseable `-clsid=` wins: arguments after it that are not CLSIDs do not change it. */
  lemma {:induction false} LaterClsidWins(before: seq<string>, t: string, after: seq<string>,
                                  parseGuid: string -> Option<Guid>)
    requires t != [] && NoLineTerminator(t) && parseGuid(t).Some?
    requires forall i :: 0 <= i < |after| ==> !Classify(after[i]).ClsidText?
    ensures LastClsid(before + [CLSID_PREFIX + t] + after, parseGuid) == parseGuid(t).value
    decreases |after|
  {
    var all := before + [CLSID_PREFIX + t] + after;
    ClassifyClsid(t);
    if after == [] {
      assert all[|all| - 1] == CLSID_PREFIX + t;
    } else {
      var shorter := after[..|after| - 1];
      assert forall i :: 0 <= i < |shorter| ==> shorter[i] == after[i];
      LaterClsidWins(before, t, shorter, parseGuid);
      assert all[|all| - 1] == after[|after| - 1];
      assert all[..|all| - 1] == before + [CLSID_PREFIX + t] + shorter;
    }
  }

  /** A successful parse always carries a non-zero pid and a non-null CLSID taken from the arguments. */
  lemma OkIsValidated(argv: seq<string>, parseGuid: string -> Option<Guid>)
    requires ParseCommandLine(argv, parseGuid).Ok?
    ensures ParseCommandLine(argv, parseGuid).ppid != 0
    ensures ParseCommandLine(argv, parseGuid).clsid != CLSID_NULL
    ensures AllAccepted(ProgramArgs(argv), parseGuid)
  {
  }

  /** The usual launch line `<prog> -parent_pid=<pid> -clsid=<guid>` parses to that pid and GUID. */
  lemma StandardLaunch(prog: string, pid: Long, text: string, parseGuid: string -> Option<Guid>)
    requires pid != 0
    requires text != [] && NoLineTerminator(text)
    requires parseGuid(text).Some? && parseGuid(text).value != CLSID_NULL
    ensures ParseCommandLine([prog, PID_PREFIX + DecimalDigits(pid), CLSID_PREFIX + text], parseGuid)
            == Ok(pid, parseGuid(text).value)
  {
    var pidArg := PID_PREFIX + DecimalDigits(pid);
    var clsidArg := CLSID_PREFIX + text;
    var args := ProgramArgs([prog, pidArg, clsidArg]);
    assert args == [pidArg, clsidArg];
    ClassifyParentPid(DecimalDigits(pid));
    ClassifyClsid(text);
    AtolOfDecimal(pid);
    assert args[..1] == [pidArg];
    assert [pidArg][..0] == [];
    assert Classify(clsidArg) == ClsidText(text);
    assert LastPid([pidArg]) == pid;
    assert LastPid(args) == pid;
    assert LastClsid(args, parseGuid) == parseGuid(text).value;
    assert Accepted(args[0], parseGuid) && Accepted(args[1], parseGuid);
  }
}
