/**
 * The argument handling of the `agentctl` command line: the requests that
 * `spawn`, `run`, `spy`, `notify` and `bus` build from their arguments, the
 * completion verdict of `check` and `list`, and the window of recent
 * messages the bus view shows.
 *
 * `args` is the whole argument vector, program name first, so `args[1]` is
 * the command and the indices below are those of the command line.
 */
module Cli {
  import opened Wrappers
  import opened Text
  import Spy
  import Supervisor

  // ---------------------------------------------------------------------------
  // Decimal integers, as `strconv.Atoi` reads them on a 64-bit platform
  // ---------------------------------------------------------------------------

  const MinInt: int := -0x8000_0000_0000_0000
  const MaxInt: int := 0x7FFF_FFFF_FFFF_FFFF

  predicate IsDigit(c: char) {
    '0' <= c <= '9'
  }

  predicate AllDigits(s: string) {
    forall i :: 0 <= i < |s| ==> IsDigit(s[i])
  }

  /** The value of a string of decimal digits, leading zeros allowed. */
  function DigitsValue(s: string): nat
    requires AllDigits(s)
  {
    if s == [] then 0 else DigitsValue(s[..|s| - 1]) * 10 + (s[|s| - 1] as int - '0' as int)
  }

  /**
   * `strconv.Atoi`: an optional sign followed by at least one decimal digit,
   * whose value fits a 64-bit int; anything else is an error (None).
   */
  function Atoi(s: string): (r: Option<int>)
    ensures r.Some? ==> MinInt <= r.value <= MaxInt
    ensures r.Some? ==> s != [] && (AllDigits(s) || ((s[0] == '-' || s[0] == '+') && AllDigits(s[1..])))
    ensures s == [] || s == "-" || s == "+" ==> r.None?
  {
    var signed := s != [] && (s[0] == '-' || s[0] == '+');
    var digits := if signed then s[1..] else s;
    if digits == [] || !AllDigits(digits) then None
    else
      var magnitude: int := DigitsValue(digits);
      var n := if signed && s[0] == '-' then 0 - magnitude else magnitude;
      if MinInt <= n <= MaxInt then Some(n) else None
  }

  function Digit(d: nat): (c: char)
    requires d < 10
    ensures IsDigit(c) && c as int - '0' as int == d
  {
    ('0' as int + d) as char
  }

  /** The decimal digits of `n`, without leading zeros. */
  function Decimal(n: nat): (s: string)
    ensures s != [] && AllDigits(s)
  {
    if n < 10 then [Digit(n)] else Decimal(n / 10) + [Digit(n % 10)]
  }

  /** `strconv.Itoa`: the decimal form of `n`, with a '-' when negative. */
  function Itoa(n: int): (s: string)
    ensures s != []
  {
    if n < 0 then "-" + Decimal(-n) else Decimal(n)
  }

  lemma {:induction false} DecimalValue(n: nat)
    ensures DigitsValue(Decimal(n)) == n
  {
    if n >= 10 {
      DecimalValue(n / 10);
      var s := Decimal(n / 10);
      assert (s + [Digit(n % 10)])[..|s|] == s;
    }
  }

  /** Reading back the decimal form of any 64-bit int gives that int. */
  lemma {:induction false} AtoiItoa(n: int)
    requires MinInt <= n <= MaxInt
    ensures Atoi(Itoa(n)) == Some(n)
  {
    if n < 0 {
      DecimalValue(-n);
      assert Itoa(n)[1..] == Decimal(-n);
    } else {
      DecimalValue(n);
      assert IsDigit(Decimal(n)[0]);
    }
  }

  // ---------------------------------------------------------------------------
  // spawn and run
  // ---------------------------------------------------------------------------

  datatype SpawnRequest = SpawnRequest(name: string, repo: string, branch: string)

  /** `spawn <name> <repo> [branch]`: the branch is "main" unless one is given; fewer arguments mean usage. */
  function ParseSpawn(args: seq<string>): (r: Option<SpawnRequest>)
    ensures r.None? <==> |args| < 4
    ensures r.Some? ==> r.value.name == args[2] && r.value.repo == args[3]
    ensures r.Some? && |args| == 4 ==> r.value.branch == "main"
    ensures r.Some? && |args| > 4 ==> r.value.branch == args[4]
  {
    if |args| < 4 then None
    else Some(SpawnRequest(args[2], args[3], if |args| > 4 then args[4] else "main"))
  }

  /** The attempt budget `run` uses when none is given or the given one is not an integer. */
  const DefaultRunAttempts: int := 10

  datatype RunRequest = RunRequest(name: string, task: string, maxAttempts: int)

  /** `run <name> <task> [max-attempts]`. */
  function ParseRun(args: seq<string>): (r: Option<RunRequest>)
    ensures r.None? <==> |args| < 4
    ensures r.Some? ==> r.value.name == args[2] && r.value.task == args[3]
    ensures r.Some? && (|args| == 4 || Atoi(args[4]).None?) ==> r.value.maxAttempts == DefaultRunAttempts
    ensures r.Some? && |args| > 4 && Atoi(args[4]).Some? ==> r.value.maxAttempts == Atoi(args[4]).value
  {
    if |args| < 4 then None
    else
      var max := if |args| > 4 && Atoi(args[4]).Some? then Atoi(args[4]).value else DefaultRunAttempts;
      Some(RunRequest(args[2], args[3], max))
  }

  /** Any 64-bit attempt count written in decimal reaches the supervisor unchanged. */
  lemma RunTakesWrittenAttempts(name: string, task: string, n: int, rest: seq<string>)
    requires MinInt <= n <= MaxInt
    ensures ParseRun(["agentctl", "run", name, task, Itoa(n)] + rest) == Some(RunRequest(name, task, n))
  {
    AtoiItoa(n);
  }

  // ---------------------------------------------------------------------------
  // check and list
  // ---------------------------------------------------------------------------

  /** `check`: whether the agent appears complete. */
  function CheckVerdict(s: Supervisor.AgentStatus): (complete: bool)
    ensures complete <==> Supervisor.Complete(s)
  {
    s.testStatus == "pass" && !s.hasUncommitted
  }

  datatype Indicator = Done | Working | Pending

  /** The marker `list` shows beside an agent. */
  function ListIndicator(s: Supervisor.AgentStatus): (r: Indicator)
    ensures r == Done <==> Supervisor.Complete(s)
    ensures r == Working <==> !Supervisor.Complete(s) && s.claudeRunning
    ensures r == Pending <==> !Supervisor.Complete(s) && !s.claudeRunning
  {
    if s.testStatus == "pass" && !s.hasUncommitted then Done
    else if s.claudeRunning then Working
    else Pending
  }

  // ---------------------------------------------------------------------------
  // spy
  // ---------------------------------------------------------------------------

  /** The last argument that does not start with "--", or "" when there is none. */
  function LastPlain(args: seq<string>): (r: string)
    ensures (r == "" && forall j :: 0 <= j < |args| ==> HasPrefix(args[j], "--"))
            || exists i :: 0 <= i < |args| && args[i] == r && !HasPrefix(args[i], "--")
                           && forall j :: i < j < |args| ==> HasPrefix(args[j], "--")
  {
    if args == [] then ""
    else if !HasPrefix(args[|args| - 1], "--") then args[|args| - 1]
    else LastPlain(args[..|args| - 1])
  }

  /**
   * The option loop of `spy`: each known flag anywhere among the arguments
   * sets its option, the last argument not starting with "--" is the agent
   * name, and other "--" arguments are ignored.
   */
  method ParseSpyArgs(args: seq<string>) returns (name: string, opts: Spy.SpyOptions)
    ensures name == LastPlain(args)
    ensures opts.raw <==> "--raw" in args
    ensures opts.toolsOnly <==> "--tools" in args
    ensures opts.thinking <==> "--thinking" in args
    ensures opts.verbose <==> "--verbose" in args
    ensures opts.json <==> "--json" in args
  {
    name := "";
    opts := Spy.SpyOptions(false, false, false, false, false);
    for i := 0 to |args|
      invariant name == LastPlain(args[..i])
      invariant opts.raw <==> "--raw" in args[..i]
      invariant opts.toolsOnly <==> "--tools" in args[..i]
      invariant opts.thinking <==> "--thinking" in args[..i]
      invariant opts.verbose <==> "--verbose" in args[..i]
      invariant opts.json <==> "--json" in args[..i]
    {
      var arg := args[i];
      if arg == "--raw" {
        opts := opts.(raw := true);
      } else if arg == "--tools" {
        opts := opts.(toolsOnly := true);
      } else if arg == "--thinking" {
        opts := opts.(thinking := true);
      } else if arg == "--verbose" {
        opts := opts.(verbose := true);
      } else if arg == "--json" {
        opts := opts.(json := true);
      } else if !HasPrefix(arg, "--") {
        name := arg;
      }
      assert args[..i + 1] == args[..i] + [arg];
    }
    assert args[..|args|] == args;
  }

  /** `spy <name> [flags]`: None means the usage message, for a missing argument or an empty name. */
  method ParseSpy(args: seq<string>) returns (r: Option<(string, Spy.SpyOptions)>)
    ensures r.None? <==> |args| < 3 || LastPlain(args[2..]) == ""
    ensures r.Some? ==> r.value.0 == LastPlain(args[2..]) && !HasPrefix(r.value.0, "--")
    ensures r.Some? ==> (r.value.1.raw <==> "--raw" in args[2..]) && (r.value.1.json <==> "--json" in args[2..])
    ensures r.Some? ==> (r.value.1.toolsOnly <==> "--tools" in args[2..]) && (r.value.1.thinking <==> "--thinking" in args[2..])
    ensures r.Some? ==> (r.value.1.verbose <==> "--verbose" in args[2..])
  {
    if |args| < 3 {
      return None;
    }
    var name, opts := ParseSpyArgs(args[2..]);
    if name == "" {
      return None;
    }
    r := Some((name, opts));
  }

  // ---------------------------------------------------------------------------
  // notify
  // ---------------------------------------------------------------------------

  /** `strings.SplitN(arg, "=", 2)` when it yields two parts: the text before and after the first '='. */
  function SplitPair(arg: string): (r: Option<(string, string)>)
    ensures r.None? <==> '=' !in arg
    ensures r.Some? ==> '=' !in r.value.0 && arg == r.value.0 + "=" + r.value.1
  {
    match IndexOf(arg, '=')
    case None => None
    case Some(i) =>
      assert arg == arg[..i] + "=" + arg[i + 1..];
      Some((arg[..i], arg[i + 1..]))
  }

  /** Splitting `key=value` at its first '=' gives back the key and the value, whatever the value holds. */
  lemma SplitJoin(key: string, value: string)
    requires '=' !in key
    ensures SplitPair(key + "=" + value) == Some((key, value))
  {
    var arg := key + "=" + value;
    var p := SplitPair(arg);
    assert arg[|key|] == '=';
    assert p.Some?;
    assert p.value.0 == key;
  }

  /** The key an argument sets, if it holds a '='. */
  function KeyOf(arg: string): Option<string> {
    match SplitPair(arg)
    case None => None
    case Some((k, _)) => Some(k)
  }

  /** The data of a notification: every `key=value` argument sets its key; later ones overwrite earlier ones. */
  function DataOf(args: seq<string>): (r: map<string, string>)
    ensures forall k :: k in r <==> exists i :: 0 <= i < |args| && KeyOf(args[i]) == Some(k)
  {
    if args == [] then map[]
    else
      var init := args[..|args| - 1];
      var d := DataOf(init);
      assert forall i :: 0 <= i < |init| ==> init[i] == args[i];
      match SplitPair(args[|args| - 1])
      case None => d
      case Some((k, v)) =>
        assert KeyOf(args[|args| - 1]) == Some(k);
        d[k := v]
  }

  /** The value of a key is the one its last `key=value` argument gives. */
  lemma {:induction false} DataOfLastWins(args: seq<string>, i: nat)
    requires i < |args| && SplitPair(args[i]).Some?
    requires forall j :: i < j < |args| ==> KeyOf(args[j]) != KeyOf(args[i])
    ensures SplitPair(args[i]).value.0 in DataOf(args)
    ensures DataOf(args)[SplitPair(args[i]).value.0] == SplitPair(args[i]).value.1
  {
    var init := args[..|args| - 1];
    if i < |args| - 1 {
      assert init[i] == args[i];
      assert forall j :: i < j < |init| ==> init[j] == args[j];
      DataOfLastWins(init, i);
    }
  }

  /** The notify argument loop. */
  method ParseData(args: seq<string>) returns (data: map<string, string>)
    ensures data == DataOf(args)
  {
    data := map[];
    for i := 0 to |args|
      invariant data == DataOf(args[..i])
    {
      var parts := SplitPair(args[i]);
      if parts.Some? {
        data := data[parts.value.0 := parts.value.1];
      }
      assert args[..i + 1][..i] == args[..i];
    }
    assert args[..|args|] == args;
  }

  datatype NotifyRequest = NotifyRequest(agent: string, repo: string, kind: string, data: map<string, string>)

  /** `notify <agent> <repo-url> <type> [key=value...]`; fewer arguments mean usage. */
  method ParseNotify(args: seq<string>) returns (r: Option<NotifyRequest>)
    ensures r.None? <==> |args| < 5
    ensures r.Some? ==> r.value.agent == args[2] && r.value.repo == args[3] && r.value.kind == args[4]
    ensures r.Some? ==> r.value.data == DataOf(args[5..])
  {
    if |args| < 5 {
      return None;
    }
    var data := ParseData(args[5..]);
    r := Some(NotifyRequest(args[2], args[3], args[4], data));
  }

  // ---------------------------------------------------------------------------
  // bus
  // ---------------------------------------------------------------------------

  datatype Views = Views(claims: bool, messages: bool, state: bool)

  /**
   * The flag loop of `bus`: with none of "--claims", "--messages", "--state"
   * every view is shown; otherwise exactly the named ones. Other arguments
   * are ignored.
   */
  method ParseBusFlags(flags: seq<string>) returns (v: Views)
    ensures v.claims || v.messages || v.state
    ensures v.claims <==> "--claims" in flags || ("--messages" !in flags && "--state" !in flags)
    ensures v.messages <==> "--messages" in flags || ("--claims" !in flags && "--state" !in flags)
    ensures v.state <==> "--state" in flags || ("--claims" !in flags && "--messages" !in flags)
  {
    var claims, messages, state := false, false, false;
    for i := 0 to |flags|
      invariant claims <==> "--claims" in flags[..i]
      invariant messages <==> "--messages" in flags[..i]
      invariant state <==> "--state" in flags[..i]
    {
      if flags[i] == "--claims" {
        claims := true;
      } else if flags[i] == "--messages" {
        messages := true;
      } else if flags[i] == "--state" {
        state := true;
      }
      assert flags[..i + 1] == flags[..i] + [flags[i]];
    }
    assert flags[..|flags|] == flags;
    if !claims && !messages && !state {
      claims, messages, state := true, true, true;
    }
    v := Views(claims, messages, state);
  }

  /** `bus <repo-url> [flags]`; a missing repository means usage. */
  method ParseBus(args: seq<string>) returns (r: Option<(string, Views)>)
    ensures r.None? <==> |args| < 3
    ensures r.Some? ==> r.value.0 == args[2]
    ensures r.Some? ==> (r.value.1.claims <==> "--claims" in args[3..] || ("--messages" !in args[3..] && "--state" !in args[3..]))
    ensures r.Some? ==> (r.value.1.messages <==> "--messages" in args[3..] || ("--claims" !in args[3..] && "--state" !in args[3..]))
    ensures r.Some? ==> (r.value.1.state <==> "--state" in args[3..] || ("--claims" !in args[3..] && "--messages" !in args[3..]))
  {
    if |args| < 3 {
      return None;
    }
    var v := ParseBusFlags(args[3..]);
    r := Some((args[2], v));
  }

  /** How many of the most recent messages the bus view shows. */
  const RecentCount: nat := 20

  /** The messages the bus view shows: the last `RecentCount` of the log, or all of a shorter one, in log order. */
  function Recent<T>(msgs: seq<T>): (r: seq<T>)
    ensures |r| == if |msgs| > RecentCount then RecentCount else |msgs|
    ensures forall i :: 0 <= i < |r| ==> r[i] == msgs[|msgs| - |r| + i]
  {
    var start := if |msgs| > RecentCount then |msgs| - RecentCount else 0;
    msgs[start..]
  }

  /** A new message enters the window at its end and pushes out the oldest one once the window is full. */
  lemma RecentSlides<T>(msgs: seq<T>, m: T)
    ensures |msgs| < RecentCount ==> Recent(msgs + [m]) == Recent(msgs) + [m]
    ensures |msgs| >= RecentCount ==> Recent(msgs + [m]) == Recent(msgs)[1..] + [m]
  {
    var r := Recent(msgs + [m]);
    if |msgs| < RecentCount {
      assert r == msgs + [m];
    } else {
      var w := Recent(msgs)[1..] + [m];
      assert |r| == |w|;
      forall i | 0 <= i < |r| ensures r[i] == w[i] {
        if i < |r| - 1 {
          assert r[i] == (msgs + [m])[|msgs| + 1 - RecentCount + i];
        }
      }
    }
  }
}
