/**
 * The supervisor: `RunUntilDone` keeps an agent working, attempt after
 * attempt, until its tests pass and nothing is left uncommitted, taking
 * part in coordination when the agent's metadata names a repository.
 *
 * Commands run inside the agent's container (`podman exec <name> sh -c …`)
 * are an oracle `Exec` from the shell command to its exit status and output.
 * The container changes between observations, so `RunUntilDone` receives one
 * oracle per observation; messages other agents publish while an attempt
 * runs are a parameter too. Sleeping and console output are not modelled.
 */
module Supervisor {
  import opened Wrappers
  import opened Text
  import Stores
  import Bus
  import CoordinationDir
  import Claims
  import States
  import Lifecycle

  type Time = Stores.Time

  /** What `podman exec` reports for one command: whether it exited 0, and its output. */
  datatype ExecResult = ExecResult(ok: bool, output: string)

  type Exec = string -> ExecResult

  datatype AgentStatus = AgentStatus(testStatus: string, hasUncommitted: bool, claudeRunning: bool)

  /** The completion rule: tests pass and nothing is uncommitted. */
  predicate Complete(s: AgentStatus) {
    s.testStatus == "pass" && !s.hasUncommitted
  }

  /** A test runner: the command that detects it and the command that runs it. */
  datatype TestRunner = TestRunner(check: string, run: string)

  const InRepo: string := "cd /home/agent/workspace/repo && "

  /** The runners `getStatus` tries, in order. */
  const TestRunners: seq<TestRunner> := [
    TestRunner(InRepo + "test -f vendor/bin/pest", InRepo + "vendor/bin/pest --no-coverage 2>&1; echo EXIT_CODE:$?"),
    TestRunner(InRepo + "test -f package.json", InRepo + "npm test 2>&1; echo EXIT_CODE:$?"),
    TestRunner(InRepo + "test -f go.mod", InRepo + "go test ./... 2>&1; echo EXIT_CODE:$?"),
    TestRunner(InRepo + "test -f pytest.ini -o -f pyproject.toml", InRepo + "pytest 2>&1; echo EXIT_CODE:$?"),
    TestRunner(InRepo + "test -f Cargo.toml", InRepo + "cargo test 2>&1; echo EXIT_CODE:$?")
  ]

  const GitStatusCommand: string := InRepo + "git status --porcelain 2>/dev/null"
  const ClaudeProcessCommand: string := "ps aux 2>/dev/null | grep -v grep | grep claude || true"
  const PassMarker: string := "EXIT_CODE:0"

  /** Runner `i` is the first whose detection command succeeds. */
  predicate FirstPresent(exec: Exec, runners: seq<TestRunner>, i: int) {
    0 <= i < |runners| && exec(runners[i].check).ok
    && forall j :: 0 <= j < i ==> !exec(runners[j].check).ok
  }

  /** The test status the runners yield: decided by the first runner present, "unknown" when none is. */
  function TestStatusFrom(exec: Exec, runners: seq<TestRunner>): string {
    if runners == [] then "unknown"
    else if exec(runners[0].check).ok then
      (if Contains(exec(runners[0].run).output, PassMarker) then "pass" else "fail")
    else TestStatusFrom(exec, runners[1..])
  }

  /** The status is one of three words, and "unknown" exactly when no runner is present. */
  lemma {:induction false} TestStatusUnknownIff(exec: Exec, runners: seq<TestRunner>)
    ensures var r := TestStatusFrom(exec, runners);
            && (r == "pass" || r == "fail" || r == "unknown")
            && (r == "unknown" <==> forall i :: 0 <= i < |runners| ==> !exec(runners[i].check).ok)
  {
    if runners != [] && !exec(runners[0].check).ok {
      TestStatusUnknownIff(exec, runners[1..]);
      assert forall i :: 1 <= i < |runners| ==> runners[i] == runners[1..][i - 1];
    }
  }

  /** The first runner present decides: "pass" exactly when its output reports exit code 0. */
  lemma {:induction false} FirstPresentDecides(exec: Exec, runners: seq<TestRunner>, i: int)
    requires FirstPresent(exec, runners, i)
    ensures TestStatusFrom(exec, runners) == if Contains(exec(runners[i].run).output, PassMarker) then "pass" else "fail"
  {
    if i > 0 {
      assert !exec(runners[0].check).ok;
      var rest := runners[1..];
      assert forall j :: 0 <= j < i - 1 ==> rest[j] == runners[j + 1];
      FirstPresentDecides(exec, rest, i - 1);
    }
  }

  /** The status `getStatus` observes through `exec`. */
  function Observed(exec: Exec): AgentStatus {
    AgentStatus(
      TestStatusFrom(exec, TestRunners),
      TrimSpace(exec(GitStatusCommand).output) != "",
      TrimSpace(exec(ClaudeProcessCommand).output) != "")
  }


  /**
   * `getStatus`: uncommitted changes from `git status`, the test status from
   * the first runner present, and whether the agent CLI shows in `ps`.
   */
  method GetStatus(exec: Exec) returns (s: AgentStatus)
    ensures s == Observed(exec)
    ensures s.hasUncommitted <==> TrimSpace(exec(GitStatusCommand).output) != ""
    ensures s.testStatus == "unknown" <==> forall i :: 0 <= i < |TestRunners| ==> !exec(TestRunners[i].check).ok
    ensures forall i :: FirstPresent(exec, TestRunners, i) ==>
              (s.testStatus == "pass" <==> Contains(exec(TestRunners[i].run).output, PassMarker))
  {
    var uncommitted := TrimSpace(exec(GitStatusCommand).output) != "";
    var testStatus := "unknown";
    var i := 0;
    while i < |TestRunners|
      invariant 0 <= i <= |TestRunners|
      invariant TestStatusFrom(exec, TestRunners) == TestStatusFrom(exec, TestRunners[i..])
    {
      var tc := TestRunners[i];
      assert TestRunners[i..][0] == tc && TestRunners[i..][1..] == TestRunners[i + 1..];
      if !exec(tc.check).ok {
        i := i + 1;
        continue;
      }
      if Contains(exec(tc.run).output, PassMarker) {
        testStatus := "pass";
      } else {
        testStatus := "fail";
      }
      break;
    }
    var running := TrimSpace(exec(ClaudeProcessCommand).output) != "";
    s := AgentStatus(testStatus, uncommitted, running);
    TestStatusUnknownIff(exec, TestRunners);
    forall i | FirstPresent(exec, TestRunners, i)
      ensures s.testStatus == "pass" <==> Contains(exec(TestRunners[i].run).output, PassMarker)
    {
      FirstPresentDecides(exec, TestRunners, i);
    }
  }

  /** `%v` of a bool. */
  function BoolText(b: bool): string {
    if b then "true" else "false"
  }

  const RecapTail: string := "\n\nKeep going until tests pass and all changes are committed."

  /** The part of the recap prompt ahead of the original task. */
  function RecapHead(status: AgentStatus): string {
    "Continue working. Previous status:\n- Tests: " + status.testStatus
    + "\n- Uncommitted changes: " + BoolText(status.hasUncommitted) + "\n\nOriginal task: "
  }


  /**
   * The prompt of every attempt after the first: the previous status, then
   * the task unchanged, then the instruction to keep going.
   */
  function RecapPrompt(status: AgentStatus, task: string): string {
    RecapHead(status) + task + RecapTail
  }

  /** The recap opens with the previous test status and uncommitted flag, carries the task unchanged, and ends with the instruction. */
  lemma RecapPromptShape(status: AgentStatus, task: string)
    ensures var r := RecapPrompt(status, task);
            && HasPrefix(r, "Continue working. Previous status:\n- Tests: " + status.testStatus
                                + "\n- Uncommitted changes: " + BoolText(status.hasUncommitted) + "\n")
            && OccursAt(r, task, |RecapHead(status)|)
            && HasSuffix(r, RecapTail)
  {
    RecapOpening(status, task);
    var head := RecapHead(status);
    var r := head + task + RecapTail;
    assert r[|head|..|head| + |task|] == task;
    assert r[|r| - |RecapTail|..] == RecapTail;
  }

  lemma RecapOpening(status: AgentStatus, task: string)
    ensures HasPrefix(RecapPrompt(status, task), "Continue working. Previous status:\n- Tests: " + status.testStatus
                                + "\n- Uncommitted changes: " + BoolText(status.hasUncommitted) + "\n")
  {
    var head := RecapHead(status);
    var r := head + task + RecapTail;
    assert r[..|head|] == head;
  }

  const RebaseNote: string := "\n\nIMPORTANT: Another agent has pushed changes. Run 'git pull --rebase' before continuing."

  /** The task after the attempts in `signals`: one rebase note appended per attempt that saw a signal. */
  function WithNotes(task: string, signals: seq<bool>): string {
    if signals == [] then task
    else WithNotes(task, signals[..|signals| - 1]) + if signals[|signals| - 1] then RebaseNote else ""
  }

  /** How many notes `WithNotes` appends. */
  function CountTrue(signals: seq<bool>): nat {
    if signals == [] then 0 else CountTrue(signals[..|signals| - 1]) + if signals[|signals| - 1] then 1 else 0
  }

  /** The task keeps its text at the front and grows by one note per signalled attempt. */
  lemma {:induction false} WithNotesGrows(task: string, signals: seq<bool>)
    ensures HasPrefix(WithNotes(task, signals), task)
    ensures |WithNotes(task, signals)| == |task| + CountTrue(signals) * |RebaseNote|
  {
    if signals != [] {
      var init := signals[..|signals| - 1];
      WithNotesGrows(task, init);
      var w := WithNotes(task, init);
      assert (w + if signals[|signals| - 1] then RebaseNote else "")[..|task|] == w[..|task|];
    }
  }

  /** `runClaude`'s quoting: every `'` becomes `'\''`. */
  function Escape(prompt: string): string {
    ReplaceChar(prompt, '\'', "'\\''")
  }


  /**
   * The value of a shell word made of single-quoted runs and backslash
   * escapes (`quoted`: inside single quotes). None when the text is not one
   * such word: an unterminated quote, or an unescaped character outside
   * quotes.
   */
  function Unquote(s: string, quoted: bool): Option<string>
    decreases |s|
  {
    if s == [] then (if quoted then None else Some([]))
    else if quoted then
      if s[0] == '\'' then Unquote(s[1..], false)
      else match Unquote(s[1..], true)
        case None => None
        case Some(rest) => Some([s[0]] + rest)
    else if s[0] == '\'' then Unquote(s[1..], true)
    else if s[0] == '\\' && |s| >= 2 then
      match Unquote(s[2..], false)
      case None => None
      case Some(rest) => Some([s[1]] + rest)
    else None
  }

  /** Escaping and closing the quote yields, to the shell, exactly the prompt. */
  lemma {:induction false} EscapeRoundTrip(prompt: string)
    ensures Unquote(Escape(prompt) + "'", true) == Some(prompt)
  {
    if prompt != [] {
      var rest := prompt[1..];
      EscapeRoundTrip(rest);
      var tail := Escape(rest) + "'";
      if prompt[0] == '\'' {
        var w := "'\\''" + tail;
        assert Escape(prompt) + "'" == w;
        var u := w[1..];
        assert w[0] == '\'' && u[0] == '\\' && u[1] == '\'' && |u| >= 2;
        var v := u[2..];
        assert v[0] == '\'' && v[1..] == tail;
        assert Unquote(v, false) == Some(rest);
        assert Unquote(u, false) == Some([u[1]] + rest);
        assert [prompt[0]] + rest == prompt;
      } else {
        var w := [prompt[0]] + tail;
        assert Escape(prompt) + "'" == w;
        assert w[0] != '\'' && w[1..] == tail;
        assert Unquote(w, true) == Some([w[0]] + rest);
        assert [prompt[0]] + rest == prompt;
      }
    }
  }

  const ClaudeHead: string := InRepo + "claude --dangerously-skip-permissions -p "
  const ClaudeTail: string := " 2>&1 | tee -a /home/agent/claude.log"

  /** The shell command `runClaude` runs. */
  function ClaudeCommand(prompt: string): string {
    ClaudeHead + "'" + Escape(prompt) + "'" + ClaudeTail
  }

  /** The shell reads the prompt argument of `runClaude`'s command back as the prompt itself. */
  lemma ClaudeCommandQuotesPrompt(prompt: string)
    ensures exists w :: ClaudeCommand(prompt) == ClaudeHead + w + ClaudeTail && Unquote(w, false) == Some(prompt)
  {
    var e := Escape(prompt);
    var w := "'" + e + "'";
    EscapeRoundTrip(prompt);
    assert w[1..] == e + "'";
    ConcatAssoc(ClaudeHead, "'", e);
    ConcatAssoc(ClaudeHead, "'" + e, "'");
  }

  /** The attempt budget: 0 selects the default of 10; a negative budget allows no attempt. */
  const DefaultMaxAttempts: int := 10

  function EffectiveMax(maxAttempts: int): int {
    if maxAttempts == 0 then DefaultMaxAttempts else maxAttempts
  }

  /** The number of attempts a budget allows. */
  function Budget(maxAttempts: int): (n: nat)
    ensures maxAttempts == 0 ==> n == 10
    ensures maxAttempts > 0 ==> n == maxAttempts
    ensures maxAttempts < 0 ==> n == 0
  {
    var m := EffectiveMax(maxAttempts);
    if m < 0 then 0 else m
  }

  datatype TaskResult = TaskResult(
    completed: bool, testsPassed: bool, lintPassed: bool, hasChanges: bool, error: string, attempts: int)

  /** The error `RunUntilDone` returns when the budget runs out, carrying the budget. */
  datatype SupervisorError = NotCompletedAfter(maxAttempts: int)


  /**
   * The world around one run: the container as `getStatus` sees it ahead of
   * attempt k (for the recap) and after attempt k (for the completion check),
   * and the messages other agents publish while attempt k runs.
   */
  datatype Surroundings = Surroundings(before: nat -> Exec, after: nat -> Exec, arrivals: nat -> seq<Bus.Message>)

  /** `observed` are the statuses the completion checks after attempts 1, 2, … see. */
  predicate ObservedAfter(env: Surroundings, observed: seq<AgentStatus>) {
    observed == []
    || (ObservedAfter(env, observed[..|observed| - 1]) && observed[|observed| - 1] == Observed(env.after(|observed|)))
  }

  lemma {:induction false} ObservedAfterMeans(env: Surroundings, observed: seq<AgentStatus>)
    requires ObservedAfter(env, observed)
    ensures forall k :: 0 <= k < |observed| ==> observed[k] == Observed(env.after(k + 1))
  {
    if observed != [] {
      var init := observed[..|observed| - 1];
      ObservedAfterMeans(env, init);
      assert forall k :: 0 <= k < |init| ==> init[k] == observed[k];
    }
  }

  /** None of the statuses is complete. */
  predicate NoneComplete(observed: seq<AgentStatus>) {
    observed == [] || (NoneComplete(observed[..|observed| - 1]) && !Complete(observed[|observed| - 1]))
  }

  lemma {:induction false} NoneCompleteMeans(observed: seq<AgentStatus>, n: nat)
    requires n <= |observed| && NoneComplete(observed[..n])
    ensures forall k :: 0 <= k < n ==> !Complete(observed[k])
  {
    if n > 0 {
      assert observed[..n][..n - 1] == observed[..n - 1];
      NoneCompleteMeans(observed, n - 1);
    }
  }

  /** The prompt of attempt k given the task as it stands then: the task itself first, a recap after. */
  function PromptAt(k: nat, task: string, env: Surroundings): string {
    if k <= 1 then task else RecapPrompt(Observed(env.before(k)), task)
  }

  /** The prompts of the attempts whose rebase checks gave `signals`. */
  function PromptsFor(task: string, signals: seq<bool>, env: Surroundings): (prompts: seq<string>)
    ensures |prompts| == |signals|
  {
    if signals == [] then []
    else PromptsFor(task, signals[..|signals| - 1], env) + [PromptAt(|signals|, WithNotes(task, signals), env)]
  }

  /** Attempt k+1 is given the prompt built from the task with the notes of attempts 1..k+1. */
  lemma {:induction false} PromptsForAt(task: string, signals: seq<bool>, env: Surroundings, k: nat)
    requires k < |signals|
    ensures PromptsFor(task, signals, env)[k] == PromptAt(k + 1, WithNotes(task, signals[..k + 1]), env)
  {
    if k < |signals| - 1 {
      var init := signals[..|signals| - 1];
      PromptsForAt(task, init, env, k);
      assert init[..k + 1] == signals[..k + 1];
    } else {
      assert signals[..k + 1] == signals;
    }
  }

  /** Each attempt that sees a rebase request is followed only by attempts that see one. */
  predicate Monotone(signals: seq<bool>) {
    |signals| <= 1
    || (Monotone(signals[..|signals| - 1]) && (signals[|signals| - 2] ==> signals[|signals| - 1]))
  }

  lemma {:induction false} MonotoneMeans(signals: seq<bool>)
    requires Monotone(signals)
    ensures forall i, j :: 0 <= i < j < |signals| && signals[i] ==> signals[j]
  {
    if |signals| > 1 {
      var init := signals[..|signals| - 1];
      MonotoneMeans(init);
      forall i, j | 0 <= i < j < |signals| && signals[i] ensures signals[j] {
        assert signals[i] == init[i];
        if j < |signals| - 1 {
          assert init[j] == signals[j];
        } else if i < |signals| - 2 {
          assert init[|signals| - 2] == signals[|signals| - 2];
        }
      }
    }
  }

  /** No note was added exactly when no attempt saw a request; a note each time exactly when all did. */
  lemma {:induction false} CountTrueExtremes(signals: seq<bool>)
    ensures CountTrue(signals) == 0 <==> forall k :: 0 <= k < |signals| ==> !signals[k]
    ensures CountTrue(signals) == |signals| <==> forall k :: 0 <= k < |signals| ==> signals[k]
    ensures CountTrue(signals) <= |signals|
  {
    if signals != [] {
      var init := signals[..|signals| - 1];
      CountTrueExtremes(init);
      assert forall k :: 0 <= k < |init| ==> init[k] == signals[k];
    }
  }

  /** One more attempt extends the task notes and the prompts by its own. */
  lemma PromptsExtend(task: string, signals: seq<bool>, s: bool, env: Surroundings, prompts: seq<string>)
    requires prompts == PromptsFor(task, signals, env)
    ensures WithNotes(task, signals + [s]) == WithNotes(task, signals) + if s then RebaseNote else ""
    ensures prompts + [PromptAt(|signals| + 1, WithNotes(task, signals + [s]), env)] == PromptsFor(task, signals + [s], env)
  {
    var extended := signals + [s];
    assert extended[..|extended| - 1] == signals;
  }

  /** What attempt k appends to the bus: the messages other agents publish meanwhile, stamped at the attempt's instant. */
  function Arrived(env: Surroundings, start: Time, k: nat): seq<Bus.Message> {
    Bus.Stamped(env.arrivals(k), start + k)
  }

  /** The bus log after attempts 1..n, starting from `log0`. */
  function LogAfter(log0: Bus.LogFile, env: Surroundings, fits: Bus.Message -> bool, start: Time, n: nat): Bus.LogFile {
    if n == 0 then log0 else Bus.Appended(LogAfter(log0, env, fits, start, n - 1), Arrived(env, start, n), fits)
  }

  /** Everything published before the rebase check of attempt n fits the reader's line limit. */
  ghost predicate ArrivalsFit(env: Surroundings, fits: Bus.Message -> bool, start: Time, n: nat) {
    forall k :: 1 <= k < n ==> Bus.AllFit(Arrived(env, start, k), fits)
  }


  /**
   * `signals[k]` is the rebase check of attempt k+1: coordination is on and
   * the bus, as attempts 1..k left it, asks the agent to rebase.
   */
  ghost predicate SignalsRead(signals: seq<bool>, coordinated: bool, log0: Bus.LogFile, env: Surroundings,
                              fits: Bus.Message -> bool, name: string, start: Time)
  {
    signals == []
    || (SignalsRead(signals[..|signals| - 1], coordinated, log0, env, fits, name, start)
        && (signals[|signals| - 1] <==>
              coordinated && Bus.RebaseSignalled(LogAfter(log0, env, fits, start, |signals| - 1), name, start)))
  }

  lemma {:induction false} SignalsReadMeans(signals: seq<bool>, coordinated: bool, log0: Bus.LogFile, env: Surroundings,
                                            fits: Bus.Message -> bool, name: string, start: Time)
    requires SignalsRead(signals, coordinated, log0, env, fits, name, start)
    ensures forall k :: 0 <= k < |signals| ==>
              (signals[k] <==> coordinated && Bus.RebaseSignalled(LogAfter(log0, env, fits, start, k), name, start))
  {
    if signals != [] {
      var init := signals[..|signals| - 1];
      SignalsReadMeans(init, coordinated, log0, env, fits, name, start);
      assert forall k :: 0 <= k < |init| ==> init[k] == signals[k];
    }
  }


  /** Without coordination no attempt sees a request. */
  lemma {:induction false} SignalsOff(signals: seq<bool>, log0: Bus.LogFile, env: Surroundings,
                                      fits: Bus.Message -> bool, name: string, start: Time)
    requires SignalsRead(signals, false, log0, env, fits, name, start)
    ensures CountTrue(signals) == 0
  {
    if signals != [] {
      SignalsOff(signals[..|signals| - 1], log0, env, fits, name, start);
    }
  }

  /** While everything published fits the reader, a request the bus holds after attempt i is still there after attempt j. */
  lemma {:induction false} SignalKept(log0: Bus.LogFile, env: Surroundings, fits: Bus.Message -> bool,
                                      name: string, start: Time, i: nat, j: nat)
    requires i <= j && ArrivalsFit(env, fits, start, j + 1)
    requires Bus.RebaseSignalled(LogAfter(log0, env, fits, start, i), name, start)
    ensures Bus.RebaseSignalled(LogAfter(log0, env, fits, start, j), name, start)
  {
    if i < j {
      SignalKept(log0, env, fits, name, start, i, j - 1);
      assert Bus.AllFit(Arrived(env, start, j), fits);
      Bus.RebaseSignalPersists(LogAfter(log0, env, fits, start, j - 1), Arrived(env, start, j), fits, name, start);
    }
  }

  /**
   * While everything published before the last check fits the reader, a
   * request once seen is seen by every later attempt, and a request on the
   * bus at the start gives every attempt a note.
   */
  lemma SignalsWhileFit(signals: seq<bool>, coordinated: bool, log0: Bus.LogFile, env: Surroundings,
                        fits: Bus.Message -> bool, name: string, start: Time)
    requires SignalsRead(signals, coordinated, log0, env, fits, name, start)
    requires ArrivalsFit(env, fits, start, |signals|)
    ensures forall i, j :: 0 <= i < j < |signals| && signals[i] ==> signals[j]
    ensures coordinated && Bus.RebaseSignalled(log0, name, start) ==> CountTrue(signals) == |signals|
  {
    SignalsReadMeans(signals, coordinated, log0, env, fits, name, start);
    forall i, j | 0 <= i < j < |signals| && signals[i] ensures signals[j] {
      SignalKept(log0, env, fits, name, start, i, j);
    }
    if coordinated && Bus.RebaseSignalled(log0, name, start) {
      forall k | 0 <= k < |signals| ensures signals[k] {
        assert LogAfter(log0, env, fits, start, 0) == log0;
        SignalKept(log0, env, fits, name, start, 0, k);
      }
      CountTrueExtremes(signals);
    }
  }

  /** Signals that never go from seen to unseen are monotone. */
  lemma {:induction false} MonotoneFromOrder(signals: seq<bool>)
    requires forall i, j :: 0 <= i < j < |signals| && signals[i] ==> signals[j]
    ensures Monotone(signals)
  {
    if |signals| > 1 {
      var init := signals[..|signals| - 1];
      assert forall i, j :: 0 <= i < j < |init| && init[i] ==> init[j] by {
        forall i, j | 0 <= i < j < |init| && init[i] ensures init[j] {
          assert signals[i] && signals[j] == init[j];
        }
      }
      MonotoneFromOrder(init);
    }
  }

  /**
   * Scenario: another agent publishes one rebase request while attempt 1
   * runs, on a bus that held none. Attempt 1 saw no request; attempt 2 sees
   * it, and its prompt carries the note, exactly when the request is
   * untargeted or aimed at this agent; one aimed at a third agent is not
   * seen.
   */
  lemma RequestReachesNextAttempt(name: string, task: string, log0: Bus.LogFile, env: Surroundings,
                                  fits: Bus.Message -> bool, start: Time, signals: seq<bool>, m: Bus.Message)
    requires SignalsRead(signals, true, log0, env, fits, name, start) && |signals| >= 2
    requires Bus.ReadLog(log0).1.None? && !Bus.RebaseSignalled(log0, name, start)
    requires env.arrivals(1) == [m] && m.kind == Bus.MsgRebaseNeeded && fits(m.(timestamp := start + 1))
    ensures !signals[0]
    ensures signals[1] <==> "target" !in m.data || m.data["target"] == name
    ensures PromptsFor(task, signals, env)[1] ==
              RecapPrompt(Observed(env.before(2)), if signals[1] then task + RebaseNote else task)
  {
    FirstTwoSignals(signals, true, log0, env, fits, name, start);
    OneRequestArrives(name, log0, env, fits, start, m);
    SecondPrompt(task, signals, env);
  }

  /** The first two signals of a run, as the bus gives them. */
  lemma FirstTwoSignals(signals: seq<bool>, coordinated: bool, log0: Bus.LogFile, env: Surroundings,
                        fits: Bus.Message -> bool, name: string, start: Time)
    requires SignalsRead(signals, coordinated, log0, env, fits, name, start) && |signals| >= 2
    ensures signals[0] <==> coordinated && Bus.RebaseSignalled(log0, name, start)
    ensures signals[1] <==> coordinated && Bus.RebaseSignalled(LogAfter(log0, env, fits, start, 1), name, start)
  {
    SignalsReadMeans(signals, coordinated, log0, env, fits, name, start);
    assert signals[0] <==> coordinated && Bus.RebaseSignalled(LogAfter(log0, env, fits, start, 0), name, start);
    assert signals[1] <==> coordinated && Bus.RebaseSignalled(LogAfter(log0, env, fits, start, 1), name, start);
  }

  /** The prompt of attempt 2 after a first attempt without a note: the recap on the task with attempt 2's note, if any. */
  lemma SecondPrompt(task: string, signals: seq<bool>, env: Surroundings)
    requires |signals| >= 2 && !signals[0]
    ensures PromptsFor(task, signals, env)[1] ==
              RecapPrompt(Observed(env.before(2)), if signals[1] then task + RebaseNote else task)
  {
    PromptsForAt(task, signals, env, 1);
    NotesOfTwo(task, signals[..2]);
  }

  /** The bus after attempt 1 signals the agent exactly when the one request that arrived is for it. */
  lemma OneRequestArrives(name: string, log0: Bus.LogFile, env: Surroundings,
                          fits: Bus.Message -> bool, start: Time, m: Bus.Message)
    requires Bus.ReadLog(log0).1.None? && !Bus.RebaseSignalled(log0, name, start)
    requires env.arrivals(1) == [m] && m.kind == Bus.MsgRebaseNeeded && fits(m.(timestamp := start + 1))
    ensures Bus.RebaseSignalled(LogAfter(log0, env, fits, start, 1), name, start) <==>
              "target" !in m.data || m.data["target"] == name
  {
    var stamped := m.(timestamp := start + 1);
    assert Arrived(env, start, 1) == [stamped];
    assert LogAfter(log0, env, fits, start, 1) == Bus.Appended(log0, [stamped], fits);
    assert Bus.AllFit([stamped], fits);
    Bus.SignalledAfterAppend(log0, [stamped], fits, name, start);
    OnlyRequest(stamped, name, start);
  }

  /** A single message stamped after `since` asks the agent to rebase exactly when it is a rebase request for it. */
  lemma OnlyRequest(m: Bus.Message, agent: string, since: Time)
    requires m.timestamp > since
    ensures (exists x :: x in Bus.Since([m], since) && Bus.IsRebaseFor(x, agent)) <==> Bus.IsRebaseFor(m, agent)
  {
    assert [m][..0] == [];
    assert Bus.Since([m], since) == [m];
  }

  /** The task of attempt 2 after a first attempt without a note. */
  lemma NotesOfTwo(task: string, two: seq<bool>)
    requires |two| == 2 && !two[0]
    ensures WithNotes(task, two) == if two[1] then task + RebaseNote else task
  {
    assert two[..1][..0] == [];
    assert WithNotes(task, two[..1]) == task + "";
    assert task + "" == task;
  }


  /**
   * Coordination is on for the run: the agent's metadata loads and names a
   * repository, and that repository's namespace can be initialised.
   */
  ghost predicate CoordinationOn(host: Lifecycle.Host, disk: CoordinationDir.Disk, home: Option<string>,
                                 sha: string -> CoordinationDir.Digest, name: string)
    reads host, disk
  {
    && name in host.agents && host.agents[name].repo != "" && home.Some?
    && CoordinationDir.InitCanSucceed(disk, CoordinationDir.CoordDir(home, sha, host.agents[name].repo).value)
  }


  /**
   * The opening of `RunUntilDone`: the repository URL from the agent's
   * metadata, kept only when its namespace initialises ("" turns
   * coordination off).
   */
  method SetUpCoordination(name: string, host: Lifecycle.Host, disk: CoordinationDir.Disk, home: Option<string>,
                           sha: string -> CoordinationDir.Digest)
    returns (repoURL: string)
    modifies disk
    ensures repoURL != "" <==> old(CoordinationOn(host, disk, home, sha, name))
    ensures repoURL != "" ==>
              repoURL == host.agents[name].repo
              && CoordinationDir.Prepared(disk, CoordinationDir.CoordDir(home, sha, repoURL).value)
              && (CoordinationDir.StatsClean(disk, CoordinationDir.CoordDir(home, sha, repoURL).value) ==>
                    CoordinationDir.Initialised(disk, CoordinationDir.CoordDir(home, sha, repoURL).value))
    ensures CoordinationDir.Keeps(old(disk.files), disk.files)
    ensures !(name in host.agents && host.agents[name].repo != "") ==> disk.files == old(disk.files) && disk.dirs == old(disk.dirs)
  {
    repoURL := "";
    if name in host.agents && host.agents[name].repo != "" {
      repoURL := host.agents[name].repo;
      var init := CoordinationDir.Init(disk, home, sha, repoURL);
      if init.Err? {
        repoURL := "";
      }
    }
  }


  /**
   * The state file after a coordinated run's update: the agent's record with
   * `status` at instant `at` when the file `before` loaded, the file untouched
   * otherwise (or when coordination is off).
   */
  ghost predicate StateAfter(file: Stores.Stored<States.StateDoc>, on: bool, before: Stores.Stored<States.StateDoc>,
                             name: string, status: string, at: Time)
  {
    if on && States.LoadState(before).Ok?
    then States.LoadState(file) == Ok(States.Upserted(States.LoadState(before).value, name, status, "", at))
    else file == before
  }

  /** The state file after `n` attempts of a run: untouched before the first, "working" at instant `start + n` after. */
  ghost predicate WorkingAfter(file: Stores.Stored<States.StateDoc>, on: bool, before: Stores.Stored<States.StateDoc>,
                               name: string, start: Time, n: int)
  {
    if n <= 0 then file == before else StateAfter(file, on, before, name, "working", start + n)
  }

  /** A later update of the agent's record replaces a "working" one. */
  lemma WorkingThen(file: Stores.Stored<States.StateDoc>, on: bool, f0: Stores.Stored<States.StateDoc>,
                    f1: Stores.Stored<States.StateDoc>, name: string, start: Time, n: nat, status: string, at: Time)
    requires WorkingAfter(f1, on, f0, name, start, n)
    requires StateAfter(file, on, f1, name, status, at)
    ensures StateAfter(file, on, f0, name, status, at)
  {
    if n > 0 && on && States.LoadState(f0).Ok? {
      States.LastWriteWins(States.LoadState(f0).value, name, "working", "", start + n, status, "", at);
    }
  }

  /** Publish messages of other agents, one after another, at the instant `now`. */
  method PublishAll(bus: Bus.MessageBus, ms: seq<Bus.Message>, now: Time)
    modifies bus
    ensures bus.log == Bus.Appended(old(bus.log), Bus.Stamped(ms, now), bus.fits)
  {
    assert Bus.Stamped(ms[..0], now) == [];
    assert Bus.Encoded([], bus.fits) == [];
    if bus.log.Lines? {
      assert bus.log.lines + [] == bus.log.lines;
    }
    for i := 0 to |ms|
      invariant bus.log == Bus.Appended(old(bus.log), Bus.Stamped(ms[..i], now), bus.fits)
    {
      ghost var log := bus.log;
      var failed := bus.Publish(ms[i], now);
      Bus.AppendedTwice(old(bus.log), Bus.Stamped(ms[..i], now), [ms[i].(timestamp := now)], bus.fits);
      assert Bus.Stamped(ms[..i + 1], now) == Bus.Stamped(ms[..i], now) + [ms[i].(timestamp := now)];
    }
    assert ms[..|ms|] == ms;
  }

  /** The opening of attempt k: a coordinated agent is marked "working" at instant `start + k`. */
  method MarkWorking(name: string, k: nat, coordinated: bool, states: States.StateTable, start: Time,
                     ghost f0: Stores.Stored<States.StateDoc>)
    modifies states
    requires k >= 1 && WorkingAfter(states.file, coordinated, f0, name, start, k - 1)
    ensures WorkingAfter(states.file, coordinated, f0, name, start, k)
  {
    ghost var f1 := states.file;
    if coordinated {
      var ignored := states.UpdateAgentState(name, "working", "", start + k);
    }
    WorkingThen(states.file, coordinated, f0, f1, name, start, k - 1, "working", start + k);
  }


  /**
   * The rebase check that opens each attempt of a coordinated run: a
   * request on the bus since the loop start adds the rebase note to the
   * task; a failed read counts as no request.
   */
  method RebaseCheck(name: string, current: string, coordinated: bool, bus: Bus.MessageBus, start: Time)
    returns (signalled: bool, next: string)
    ensures signalled <==> coordinated && Bus.RebaseSignalled(bus.log, name, start)
    ensures next == current + if signalled then RebaseNote else ""
  {
    signalled := false;
    next := current;
    if coordinated {
      var needed, ignored := bus.HasRebaseNeeded(name, start);
      if needed {
        next := current + RebaseNote;
        signalled := true;
      }
    }
  }
  /**
   * The rest of attempt k of `RunUntilDone`: add a rebase note to the task
   * if the bus asks for one, run the agent CLI on the prompt (the recap
   * after the first attempt), let other agents publish, and observe the
   * container.
   */
  method Attempt(name: string, k: nat, current: string, coordinated: bool,
                 bus: Bus.MessageBus, env: Surroundings, start: Time)
    returns (signalled: bool, next: string, prompt: string, status: AgentStatus)
    modifies bus
    ensures signalled <==> coordinated && old(Bus.RebaseSignalled(bus.log, name, start))
    ensures next == current + if signalled then RebaseNote else ""
    ensures prompt == PromptAt(k, next, env)
    ensures status == Observed(env.after(k))
    ensures bus.log == Bus.Appended(old(bus.log), Arrived(env, start, k), bus.fits)
  {
    signalled, next := RebaseCheck(name, current, coordinated, bus, start);
    prompt := next;
    if k > 1 {
      var recap := GetStatus(env.before(k));
      prompt := RecapPrompt(recap, next);
    }
    var command := ClaudeCommand(prompt);
    ghost var before := bus.log;
    PublishAll(bus, env.arrivals(k), start + k);
    assert bus.log == Bus.Appended(before, Bus.Stamped(env.arrivals(k), start + k), bus.fits);
    assert Arrived(env, start, k) == Bus.Stamped(env.arrivals(k), start + k);
    status := GetStatus(env.after(k));
  }


  /**
   * What the attempt loop keeps after each attempt: the statuses the
   * completion checks saw and the last of them, the task with its rebase
   * notes, one prompt per attempt, the signals as read from the bus, the
   * bus log, and the agent's "working" record in the state file.
   */
  ghost predicate Progress(name: string, task: string, coordinated: bool, env: Surroundings, start: Time,
                           f0: Stores.Stored<States.StateDoc>, log0: Bus.LogFile, fits: Bus.Message -> bool,
                           file: Stores.Stored<States.StateDoc>, log: Bus.LogFile, current: string,
                           prompts: seq<string>, observed: seq<AgentStatus>, signals: seq<bool>, last: AgentStatus)
  {
    && StatusesSoFar(env, observed, last)
    && |signals| == |observed|
    && NotesSoFar(name, task, coordinated, env, start, log0, fits, log, current, prompts, signals)
    && WorkingAfter(file, coordinated, f0, name, start, |observed|)
  }

  /** The statuses observed after each attempt so far, `last` being the latest. */
  ghost predicate StatusesSoFar(env: Surroundings, observed: seq<AgentStatus>, last: AgentStatus) {
    ObservedAfter(env, observed) && (observed != [] ==> last == observed[|observed| - 1])
  }

  lemma StatusesExtend(env: Surroundings, observed: seq<AgentStatus>, last: AgentStatus, status: AgentStatus)
    requires StatusesSoFar(env, observed, last) && status == Observed(env.after(|observed| + 1))
    ensures StatusesSoFar(env, observed + [status], status)
  {
    var extended := observed + [status];
    assert extended[..|extended| - 1] == observed;
  }

  /** The notes and prompts of the attempts so far, the signals they read and the bus they leave. */
  ghost predicate NotesSoFar(name: string, task: string, coordinated: bool, env: Surroundings, start: Time,
                             log0: Bus.LogFile, fits: Bus.Message -> bool, log: Bus.LogFile,
                             current: string, prompts: seq<string>, signals: seq<bool>)
  {
    && current == WithNotes(task, signals) && prompts == PromptsFor(task, signals, env)
    && SignalsRead(signals, coordinated, log0, env, fits, name, start)
    && log == LogAfter(log0, env, fits, start, |signals|)
  }

  lemma NotesExtend(name: string, task: string, coordinated: bool, env: Surroundings, start: Time,
                    log0: Bus.LogFile, fits: Bus.Message -> bool, log: Bus.LogFile,
                    current: string, prompts: seq<string>, signals: seq<bool>,
                    log': Bus.LogFile, signalled: bool, next: string, prompt: string)
    requires NotesSoFar(name, task, coordinated, env, start, log0, fits, log, current, prompts, signals)
    requires signalled <==> coordinated && Bus.RebaseSignalled(log, name, start)
    requires log' == Bus.Appended(log, Arrived(env, start, |signals| + 1), fits)
    requires next == current + (if signalled then RebaseNote else "")
    requires prompt == PromptAt(|signals| + 1, next, env)
    ensures NotesSoFar(name, task, coordinated, env, start, log0, fits, log', next, prompts + [prompt], signals + [signalled])
  {
    SignalsReadExtend(signals, coordinated, log0, env, fits, name, start, signalled);
    PromptsExtend(task, signals, signalled, env, prompts);
  }

  /** One more check on the bus as the attempts so far left it extends the signals read. */
  lemma SignalsReadExtend(signals: seq<bool>, coordinated: bool, log0: Bus.LogFile, env: Surroundings,
                          fits: Bus.Message -> bool, name: string, start: Time, s: bool)
    requires SignalsRead(signals, coordinated, log0, env, fits, name, start)
    requires s <==> coordinated && Bus.RebaseSignalled(LogAfter(log0, env, fits, start, |signals|), name, start)
    ensures SignalsRead(signals + [s], coordinated, log0, env, fits, name, start)
  {
    var extended := signals + [s];
    assert extended[..|extended| - 1] == signals;
  }

  /** An attempt that behaves as `MarkWorking` and `Attempt` promise extends the loop's progress by one. */
  lemma ProgressExtend(name: string, task: string, coordinated: bool, env: Surroundings, start: Time,
                       f0: Stores.Stored<States.StateDoc>, log0: Bus.LogFile, fits: Bus.Message -> bool,
                       file: Stores.Stored<States.StateDoc>, log: Bus.LogFile, current: string,
                       prompts: seq<string>, observed: seq<AgentStatus>, signals: seq<bool>, last: AgentStatus,
                       file': Stores.Stored<States.StateDoc>, log': Bus.LogFile,
                       signalled: bool, next: string, prompt: string, status: AgentStatus)
    requires Progress(name, task, coordinated, env, start, f0, log0, fits, file, log, current, prompts, observed, signals, last)
    requires WorkingAfter(file', coordinated, f0, name, start, |observed| + 1)
    requires signalled <==> coordinated && Bus.RebaseSignalled(log, name, start)
    requires log' == Bus.Appended(log, Arrived(env, start, |observed| + 1), fits)
    requires next == current + (if signalled then RebaseNote else "")
    requires prompt == PromptAt(|observed| + 1, next, env) && status == Observed(env.after(|observed| + 1))
    ensures Progress(name, task, coordinated, env, start, f0, log0, fits, file', log', next,
                     prompts + [prompt], observed + [status], signals + [signalled], status)
  {
    StatusesExtend(env, observed, last, status);
    NotesExtend(name, task, coordinated, env, start, log0, fits, log, current, prompts, signals,
                log', signalled, next, prompt);
  }

  /** Attempt k of the loop, from the state the previous attempts left. */
  method Step(name: string, task: string, k: nat, coordinated: bool,
              states: States.StateTable, bus: Bus.MessageBus, env: Surroundings, start: Time,
              ghost f0: Stores.Stored<States.StateDoc>, ghost log0: Bus.LogFile,
              current: string, prompts: seq<string>, ghost observed: seq<AgentStatus>, ghost signals: seq<bool>,
              last: AgentStatus)
    returns (next: string, nextPrompts: seq<string>, status: AgentStatus,
             ghost nextObserved: seq<AgentStatus>, ghost nextSignals: seq<bool>)
    modifies states, bus
    requires k == |observed| + 1
    requires Progress(name, task, coordinated, env, start, f0, log0, bus.fits, states.file, bus.log,
                      current, prompts, observed, signals, last)
    ensures nextObserved == observed + [status]
    ensures Progress(name, task, coordinated, env, start, f0, log0, bus.fits, states.file, bus.log,
                     next, nextPrompts, nextObserved, nextSignals, status)
  {
    ghost var file, log := states.file, bus.log;
    MarkWorking(name, k, coordinated, states, start, f0);
    var signalled, prompt;
    signalled, next, prompt, status := Attempt(name, k, current, coordinated, bus, env, start);
    ProgressExtend(name, task, coordinated, env, start, f0, log0, bus.fits, file, log, current, prompts, observed, signals,
                   last, states.file, bus.log, signalled, next, prompt, status);
    nextSignals := signals + [signalled];
    nextObserved := observed + [status];
    nextPrompts := prompts + [prompt];
  }


  /**
   * The attempt loop of `RunUntilDone`, up to the first attempt that leaves
   * the agent complete; `finalTask` is the task with the notes the loop
   * added.
   */
  method Attempts(name: string, task: string, max: int, coordinated: bool,
                  states: States.StateTable, bus: Bus.MessageBus, env: Surroundings, start: Time)
    returns (attempts: nat, done: bool, last: AgentStatus, finalTask: string, prompts: seq<string>,
             ghost observed: seq<AgentStatus>, ghost signals: seq<bool>)
    modifies states, bus
    ensures (max < 0 ==> attempts == 0) && (max >= 0 ==> attempts <= max) && |observed| == attempts
    ensures StatusesSoFar(env, observed, last) && |signals| == |observed|
    ensures NotesSoFar(name, task, coordinated, env, start, old(bus.log), bus.fits, bus.log, finalTask, prompts, signals)
    ensures WorkingAfter(states.file, coordinated, old(states.file), name, start, |observed|)
    ensures done ==> attempts >= 1 && Complete(last) && NoneComplete(observed[..attempts - 1])
    ensures !done ==> attempts == (if max < 0 then 0 else max) && NoneComplete(observed)
  {
    attempts, done, last := 0, false, AgentStatus("unknown", false, false);
    prompts, observed, signals := [], [], [];
    finalTask := task;
    var attempt := 1;
    while attempt <= max
      invariant 1 <= attempt && (max >= 0 ==> attempt <= max + 1) && (max < 0 ==> attempt == 1)
      invariant attempts == attempt - 1 && |observed| == attempts && !done
      invariant NoneComplete(observed)
      invariant Progress(name, task, coordinated, env, start, old(states.file), old(bus.log), bus.fits,
                         states.file, bus.log, finalTask, prompts, observed, signals, last)
      decreases max - attempt
    {
      ghost var seen := observed;
      var status;
      finalTask, prompts, status, observed, signals :=
        Step(name, task, attempt, coordinated, states, bus, env, start, old(states.file), old(bus.log),
             finalTask, prompts, observed, signals, last);
      attempts, last := attempt, status;
      if Complete(status) {
        done := true;
        assert observed[..attempts - 1] == seen;
        return;
      }
      assert observed[..|observed| - 1] == seen;
      attempt := attempt + 1;
    }
  }

  /** The end of a run whose last attempt left the agent complete. */
  method FinishDone(name: string, repoURL: string, attempts: nat, start: Time, now: Time,
                    host: Lifecycle.Host, claims: Claims.ClaimRegistry, states: States.StateTable,
                    ghost f0: Stores.Stored<States.StateDoc>)
    modifies host, claims, states
    requires WorkingAfter(states.file, repoURL != "", f0, name, start, attempts)
    ensures StateAfter(states.file, repoURL != "", f0, name, "done", now)
    ensures if repoURL != "" && old(claims.Table()).Ok?
            then claims.file == Stores.Present(Claims.WithoutAgent(old(claims.Table()).value, name))
            else claims.file == old(claims.file)
    ensures host.agents == old(host.agents) && host.containers == old(host.containers)
    ensures if host.historyWritable
            then host.history == old(host.history)[name := Lifecycle.AgentHistory(
                   name, repoURL, "", "", start, Some(now), None, "success", attempts, map[])]
            else host.history == old(host.history)
  {
    ghost var f1 := states.file;
    if repoURL != "" {
      var ignored := states.UpdateAgentState(name, "done", "", now);
      var released := claims.ReleaseAllForAgent(name);
    }
    WorkingThen(states.file, repoURL != "", f0, f1, name, start, attempts, "done", now);
    var saved := host.SaveHistory(Lifecycle.AgentHistory(name, repoURL, "", "", start, Some(now), None, "success", attempts, map[]));
  }

  /** The end of a run whose budget ran out: the agent "blocked" one instant after the last attempt. */
  method FinishBlocked(name: string, coordinated: bool, attempts: nat, start: Time, now: Time,
                       states: States.StateTable, ghost f0: Stores.Stored<States.StateDoc>)
    modifies states
    requires WorkingAfter(states.file, coordinated, f0, name, start, attempts)
    ensures StateAfter(states.file, coordinated, f0, name, "blocked", now)
  {
    ghost var f1 := states.file;
    if coordinated {
      var ignored := states.UpdateAgentState(name, "blocked", "", now);
    }
    WorkingThen(states.file, coordinated, f0, f1, name, start, attempts, "blocked", now);
  }


  /**
   * The end of `RunUntilDone` after `attempts` attempts, the last of which
   * saw `last`: the result, and the agent "done" (claims released, success
   * record saved) or "blocked".
   */
  method Finish(name: string, repoURL: string, maxAttempts: int, done: bool, attempts: nat, last: AgentStatus,
                start: Time, host: Lifecycle.Host, claims: Claims.ClaimRegistry, states: States.StateTable,
                ghost f0: Stores.Stored<States.StateDoc>)
    returns (result: TaskResult, err: Option<SupervisorError>)
    modifies host, claims, states
    requires WorkingAfter(states.file, repoURL != "", f0, name, start, attempts)
    ensures result.completed == done && result.attempts == attempts && !result.lintPassed
    ensures result.testsPassed == (attempts >= 1 && last.testStatus == "pass")
    ensures result.hasChanges == (attempts >= 1 && last.hasUncommitted)
    ensures result.completed ==> err.None? && result.error == ""
    ensures !result.completed ==> err == Some(NotCompletedAfter(EffectiveMax(maxAttempts))) && result.error == "max attempts reached"
    ensures result.completed ==>
              StateAfter(states.file, repoURL != "", f0, name, "done", start + result.attempts)
    ensures !result.completed ==>
              StateAfter(states.file, repoURL != "", f0, name, "blocked", start + result.attempts + 1)
    ensures if repoURL != "" && result.completed && old(claims.Table()).Ok?
            then claims.file == Stores.Present(Claims.WithoutAgent(old(claims.Table()).value, name))
            else claims.file == old(claims.file)
    ensures host.agents == old(host.agents) && host.containers == old(host.containers)
    ensures if result.completed && host.historyWritable
            then host.history == old(host.history)[name := Lifecycle.AgentHistory(
                   name, repoURL, "", "", start, Some(start + result.attempts), None, "success", result.attempts, map[])]
            else host.history == old(host.history)
  {
    result := TaskResult(done, attempts >= 1 && last.testStatus == "pass", false, attempts >= 1 && last.hasUncommitted, "", attempts);
    err := None;
    if done {
      FinishDone(name, repoURL, attempts, start, start + attempts, host, claims, states, f0);
    } else {
      result := result.(error := "max attempts reached");
      err := Some(NotCompletedAfter(EffectiveMax(maxAttempts)));
      FinishBlocked(name, repoURL != "", attempts, start, start + attempts + 1, states, f0);
    }
  }


  /** The statuses a finished attempt loop saw, in the terms `RunUntilDone` promises them. */
  lemma StatusOutcome(env: Surroundings, observed: seq<AgentStatus>, last: AgentStatus, done: bool)
    requires StatusesSoFar(env, observed, last)
    requires done ==> |observed| >= 1 && Complete(last) && NoneComplete(observed[..|observed| - 1])
    requires !done ==> NoneComplete(observed)
    ensures ObservedAfter(env, observed)
    ensures forall k :: 0 <= k < |observed| - 1 ==> !Complete(observed[k])
    ensures done <==> observed != [] && Complete(observed[|observed| - 1])
    ensures observed != [] ==> last == observed[|observed| - 1]
  {
    if done {
      NoneCompleteMeans(observed, |observed| - 1);
    } else {
      assert observed[..|observed|] == observed;
      NoneCompleteMeans(observed, |observed|);
    }
  }

  /** The signals and the bus a finished attempt loop leaves, in the terms `RunUntilDone` promises them. */
  lemma SignalOutcome(name: string, task: string, coordinated: bool, env: Surroundings, start: Time,
                      log0: Bus.LogFile, fits: Bus.Message -> bool, log: Bus.LogFile,
                      current: string, prompts: seq<string>, signals: seq<bool>)
    requires NotesSoFar(name, task, coordinated, env, start, log0, fits, log, current, prompts, signals)
    ensures prompts == PromptsFor(task, signals, env)
    ensures forall k :: 0 <= k < |signals| ==>
              (signals[k] <==> coordinated && Bus.RebaseSignalled(LogAfter(log0, env, fits, start, k), name, start))
    ensures log == LogAfter(log0, env, fits, start, |signals|)
    ensures !coordinated ==> CountTrue(signals) == 0
    ensures ArrivalsFit(env, fits, start, |signals|) ==> Monotone(signals)
    ensures coordinated && Bus.RebaseSignalled(log0, name, start) && ArrivalsFit(env, fits, start, |signals|) ==>
              CountTrue(signals) == |signals|
  {
    SignalsReadMeans(signals, coordinated, log0, env, fits, name, start);
    if !coordinated {
      SignalsOff(signals, log0, env, fits, name, start);
    }
    if ArrivalsFit(env, fits, start, |signals|) {
      SignalsWhileFit(signals, coordinated, log0, env, fits, name, start);
      MonotoneFromOrder(signals);
    }
  }

  /**
   * `RunUntilDone` once coordination is settled (`repoURL` is "" when it is
   * off): the attempt loop, then the end of the run.
   */
  method Supervise(name: string, task: string, maxAttempts: int, repoURL: string,
                   host: Lifecycle.Host, claims: Claims.ClaimRegistry, states: States.StateTable, bus: Bus.MessageBus,
                   env: Surroundings, start: Time)
    returns (result: TaskResult, err: Option<SupervisorError>, prompts: seq<string>,
             ghost observed: seq<AgentStatus>, ghost signals: seq<bool>)
    modifies host, claims, states, bus
    // one completion check per attempt, the run ending at the first that passes or with the budget
    ensures 0 <= result.attempts <= Budget(maxAttempts)
    ensures |observed| == result.attempts && ObservedAfter(env, observed)
    ensures forall k :: 0 <= k < |observed| - 1 ==> !Complete(observed[k])
    ensures result.completed <==> observed != [] && Complete(observed[|observed| - 1])
    ensures !result.completed ==> result.attempts == Budget(maxAttempts)
    ensures result.completed ==> err.None? && result.error == ""
    ensures !result.completed ==> err == Some(NotCompletedAfter(EffectiveMax(maxAttempts))) && result.error == "max attempts reached"
    ensures result.testsPassed == (observed != [] && observed[|observed| - 1].testStatus == "pass")
    ensures result.hasChanges == (observed != [] && observed[|observed| - 1].hasUncommitted)
    ensures !result.lintPassed
    // one prompt per attempt, on the task as the rebase notes have grown it
    ensures |signals| == result.attempts && prompts == PromptsFor(task, signals, env)
    // each rebase check reads the bus as the attempts before it left it
    ensures forall k :: 0 <= k < |signals| ==>
              (signals[k] <==> repoURL != "" && Bus.RebaseSignalled(LogAfter(old(bus.log), env, bus.fits, start, k), name, start))
    ensures bus.log == LogAfter(old(bus.log), env, bus.fits, start, |signals|)
    ensures repoURL == "" ==> CountTrue(signals) == 0
    ensures ArrivalsFit(env, bus.fits, start, |signals|) ==> Monotone(signals)
    ensures repoURL != "" && old(Bus.RebaseSignalled(bus.log, name, start)) && ArrivalsFit(env, bus.fits, start, |signals|) ==>
              CountTrue(signals) == |signals|
    // the agent's state ends "done" or "blocked"
    ensures result.completed ==>
              StateAfter(states.file, repoURL != "", old(states.file), name,
                         "done", start + result.attempts)
    ensures !result.completed ==>
              StateAfter(states.file, repoURL != "", old(states.file), name,
                         "blocked", start + result.attempts + 1)
    // its claims are released on completion
    ensures if repoURL != "" && result.completed && old(claims.Table()).Ok?
            then claims.file == Stores.Present(Claims.WithoutAgent(old(claims.Table()).value, name))
            else claims.file == old(claims.file)
    // a success record is saved on completion
    ensures host.agents == old(host.agents) && host.containers == old(host.containers)
    ensures if result.completed && host.historyWritable
            then host.history == old(host.history)[name := Lifecycle.AgentHistory(
                   name, repoURL, "", "", start, Some(start + result.attempts), None, "success", result.attempts, map[])]
            else host.history == old(host.history)
  {
    var attempts, done, last, finalTask;
    attempts, done, last, finalTask, prompts, observed, signals :=
      Attempts(name, task, EffectiveMax(maxAttempts), repoURL != "", states, bus, env, start);
    StatusOutcome(env, observed, last, done);
    SignalOutcome(name, task, repoURL != "", env, start, old(bus.log), bus.fits, bus.log, finalTask, prompts, signals);
    result, err := Finish(name, repoURL, maxAttempts, done, attempts, last, start, host, claims, states, old(states.file));
  }


  /**
   * `RunUntilDone`: the first attempt after which the agent is complete ends
   * the run with the agent "done", its claims released and a success record
   * in its history; an exhausted budget leaves it "blocked" (one instant
   * after the last attempt) and returns an error. `prompts` are what the
   * agent CLI was given, one per attempt (each run through `ClaudeCommand`);
   * `observed` are the statuses the completion checks saw and `signals`
   * records which attempts saw a rebase request.
   */
  method RunUntilDone(name: string, task: string, maxAttempts: int,
                      host: Lifecycle.Host, disk: CoordinationDir.Disk, home: Option<string>,
                      sha: string -> CoordinationDir.Digest,
                      claims: Claims.ClaimRegistry, states: States.StateTable, bus: Bus.MessageBus,
                      env: Surroundings, start: Time)
    returns (result: TaskResult, err: Option<SupervisorError>, prompts: seq<string>,
             ghost observed: seq<AgentStatus>, ghost signals: seq<bool>)
    modifies host, disk, claims, states, bus
    // one completion check per attempt, the run ending at the first that passes or with the budget
    ensures 0 <= result.attempts <= Budget(maxAttempts)
    ensures |observed| == result.attempts && ObservedAfter(env, observed)
    ensures forall k :: 0 <= k < |observed| - 1 ==> !Complete(observed[k])
    ensures result.completed <==> observed != [] && Complete(observed[|observed| - 1])
    ensures !result.completed ==> result.attempts == Budget(maxAttempts)
    ensures result.completed ==> err.None? && result.error == ""
    ensures !result.completed ==> err == Some(NotCompletedAfter(EffectiveMax(maxAttempts))) && result.error == "max attempts reached"
    ensures result.testsPassed == (observed != [] && observed[|observed| - 1].testStatus == "pass")
    ensures result.hasChanges == (observed != [] && observed[|observed| - 1].hasUncommitted)
    ensures !result.lintPassed
    // one prompt per attempt, on the task as the rebase notes have grown it
    ensures |signals| == result.attempts && prompts == PromptsFor(task, signals, env)
    // each rebase check reads the bus as the attempts before it left it
    ensures forall k :: 0 <= k < |signals| ==>
              (signals[k] <==> old(CoordinationOn(host, disk, home, sha, name))
                               && Bus.RebaseSignalled(LogAfter(old(bus.log), env, bus.fits, start, k), name, start))
    ensures bus.log == LogAfter(old(bus.log), env, bus.fits, start, |signals|)
    ensures !old(CoordinationOn(host, disk, home, sha, name)) ==> CountTrue(signals) == 0
    ensures ArrivalsFit(env, bus.fits, start, |signals|) ==> Monotone(signals)
    ensures old(CoordinationOn(host, disk, home, sha, name)) && old(Bus.RebaseSignalled(bus.log, name, start))
            && ArrivalsFit(env, bus.fits, start, |signals|) ==>
              CountTrue(signals) == |signals|
    // the agent's state ends "done" or "blocked"
    ensures result.completed ==>
              StateAfter(states.file, old(CoordinationOn(host, disk, home, sha, name)), old(states.file), name,
                         "done", start + result.attempts)
    ensures !result.completed ==>
              StateAfter(states.file, old(CoordinationOn(host, disk, home, sha, name)), old(states.file), name,
                         "blocked", start + result.attempts + 1)
    // its claims are released on completion
    ensures if old(CoordinationOn(host, disk, home, sha, name)) && result.completed && old(claims.Table()).Ok?
            then claims.file == Stores.Present(Claims.WithoutAgent(old(claims.Table()).value, name))
            else claims.file == old(claims.file)
    // a success record is saved on completion
    ensures host.agents == old(host.agents) && host.containers == old(host.containers)
    ensures var repo := if old(CoordinationOn(host, disk, home, sha, name)) then old(host.agents)[name].repo else "";
            if result.completed && host.historyWritable
            then host.history == old(host.history)[name := Lifecycle.AgentHistory(
                   name, repo, "", "", start, Some(start + result.attempts), None, "success", result.attempts, map[])]
            else host.history == old(host.history)
    // the namespace is created only when the metadata names a repository
    ensures CoordinationDir.Keeps(old(disk.files), disk.files)
    ensures !(name in old(host.agents) && old(host.agents)[name].repo != "") ==> disk.files == old(disk.files) && disk.dirs == old(disk.dirs)
    ensures old(CoordinationOn(host, disk, home, sha, name)) ==>
              CoordinationDir.Prepared(disk, CoordinationDir.CoordDir(home, sha, old(host.agents)[name].repo).value)
    ensures old(CoordinationOn(host, disk, home, sha, name))
            && CoordinationDir.StatsClean(disk, CoordinationDir.CoordDir(home, sha, old(host.agents)[name].repo).value) ==>
              CoordinationDir.Initialised(disk, CoordinationDir.CoordDir(home, sha, old(host.agents)[name].repo).value)
  {
    var repoURL := SetUpCoordination(name, host, disk, home, sha);
    result, err, prompts, observed, signals := Supervise(name, task, maxAttempts, repoURL, host, claims, states, bus, env, start);
  }
}
