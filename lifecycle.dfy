/**
 * Agent lifecycle: classifying agents from their container's state, saving a
 * history record before an agent is removed, and the three sweeps (`Prune`,
 * `CleanupCompleted`, `CleanupStale`) that remove agents.
 *
 * The container runtime is an oracle: `inspect(name)` is the trimmed output
 * of `podman inspect` (empty when it fails) and `claudeRunning(name)` says
 * whether the process listing inside the container shows the agent CLI.
 */
module Lifecycle {
  import opened Wrappers
  import opened Text
  import Stores

  type Time = Stores.Time

  /** An agent's metadata record. */
  datatype Agent = Agent(
    name: string, containerId: string, port: int, repo: string,
    branch: string, status: string, created: Time, intent: string)

  /** What is kept about an agent after its container is gone. */
  datatype AgentHistory = AgentHistory(
    name: string, repo: string, branch: string, intent: string,
    created: Time, completedAt: Option<Time>, removedAt: Option<Time>,
    result: string, attempts: int, metadata: map<string, string>)

  datatype LifecycleState = Active | Completed | Exited | Stopped

  datatype AgentWithState = AgentWithState(agent: Agent, lifecycle: LifecycleState, containerUp: bool, age: int)

  /** The default grace period: one hour, in the unit of `Time`. */
  const DefaultGracePeriod: int := 3600

  /**
   * The lifecycle of an agent whose container reports `status`: a running
   * container is active while the agent CLI runs and completed otherwise;
   * an exited one is exited; anything else, the empty status included, is
   * stopped.
   */
  function Classify(status: string, claudeRunning: bool): (r: (LifecycleState, bool))
    ensures r.1 <==> status == "running"
    ensures r.1 <==> r.0 == Active || r.0 == Completed
    ensures r.0 == Active <==> status == "running" && claudeRunning
    ensures r.0 == Exited <==> status == "exited"
    ensures status == "" ==> r.0 == Stopped
  {
    if status == "running" then (if claudeRunning then Active else Completed, true)
    else if status == "exited" then (Exited, false)
    else (Stopped, false)
  }

  /** The status recorded on a listed agent: the container status, or "stopped" when there is none. */
  function ShownStatus(status: string): (r: string)
    ensures r != ""
    ensures status != "" ==> r == status
  {
    if status == "" then "stopped" else status
  }

  /** An entry of a metadata or history directory; `content` is None when it cannot be read or decoded. */
  datatype Entry<T> = Entry(fileName: string, content: Option<T>)

  /** The entries `ListWithState` keeps, each with its lifecycle. */
  function Listed(entries: seq<Entry<Agent>>, inspect: string -> string, claudeRunning: string -> bool, now: Time): seq<AgentWithState> {
    if entries == [] then []
    else
      var e := entries[|entries| - 1];
      Listed(entries[..|entries| - 1], inspect, claudeRunning, now)
      + if HasSuffix(e.fileName, ".json") && e.content.Some? then [Enrich(e.content.value, inspect, claudeRunning, now)] else []
  }

  /** One listed agent: only its status changes, to the inspected one or "stopped"; its lifecycle follows `Classify`. */
  function Enrich(agent: Agent, inspect: string -> string, claudeRunning: string -> bool, now: Time): (r: AgentWithState)
    ensures r.agent == agent.(status := r.agent.status)
    ensures r.agent.status != "" && (inspect(agent.name) != "" ==> r.agent.status == inspect(agent.name))
    ensures r.containerUp <==> inspect(agent.name) == "running"
    ensures r.lifecycle == Active <==> inspect(agent.name) == "running" && claudeRunning(agent.name)
    ensures r.lifecycle == Completed <==> inspect(agent.name) == "running" && !claudeRunning(agent.name)
    ensures r.lifecycle == Exited <==> inspect(agent.name) == "exited"
    ensures r.age == now - agent.created
  {
    var status := inspect(agent.name);
    var (lifecycle, up) := Classify(status, claudeRunning(agent.name));
    AgentWithState(agent.(status := ShownStatus(status)), lifecycle, up, now - agent.created)
  }

  /** `ListWithState`: every `.json` entry that decodes, in directory order, with its lifecycle and age. */
  method ListWithState(entries: seq<Entry<Agent>>, inspect: string -> string, claudeRunning: string -> bool, now: Time)
    returns (agents: seq<AgentWithState>)
    ensures agents == Listed(entries, inspect, claudeRunning, now)
    ensures |agents| <= |entries|
  {
    agents := [];
    for i := 0 to |entries|
      invariant agents == Listed(entries[..i], inspect, claudeRunning, now)
      invariant |agents| <= i
    {
      assert entries[..i + 1][..i] == entries[..i];
      var e := entries[i];
      if !HasSuffix(e.fileName, ".json") {
        continue;
      }
      if e.content.None? {
        continue;
      }
      agents := agents + [Enrich(e.content.value, inspect, claudeRunning, now)];
    }
    assert entries[..|entries|] == entries;
  }

  /** A listing of the history directory. */
  datatype HistoryDir = NoDir | DirUnreadable | Entries(entries: seq<Entry<AgentHistory>>)

  /** The history records `ListHistory` returns from a set of entries. */
  function Histories(entries: seq<Entry<AgentHistory>>): seq<AgentHistory> {
    if entries == [] then []
    else
      var e := entries[|entries| - 1];
      Histories(entries[..|entries| - 1])
      + if HasSuffix(e.fileName, ".json") && e.content.Some? then [e.content.value] else []
  }

  lemma {:induction false} HistoriesMembers(entries: seq<Entry<AgentHistory>>, h: AgentHistory)
    ensures h in Histories(entries) <==> exists e :: e in entries && HasSuffix(e.fileName, ".json") && e.content == Some(h)
  {
    if entries != [] {
      var init := entries[..|entries| - 1];
      HistoriesMembers(init, h);
      assert entries == init + [entries[|entries| - 1]];
    }
  }

  /** `ListHistory`: nothing when the directory is missing; otherwise every decodable `.json` record. */
  method ListHistory(dir: HistoryDir) returns (r: Result<seq<AgentHistory>, string>)
    ensures dir.NoDir? ==> r == Ok([])
    ensures dir.DirUnreadable? <==> r.Err?
    ensures dir.Entries? ==> r == Ok(Histories(dir.entries))
  {
    match dir
    case NoDir => return Ok([]);
    case DirUnreadable => return Err("cannot read history directory");
    case Entries(entries) =>
      var records := [];
      for i := 0 to |entries|
        invariant records == Histories(entries[..i])
      {
        assert entries[..i + 1][..i] == entries[..i];
        if !HasSuffix(entries[i].fileName, ".json") {
          continue;
        }
        match entries[i].content {
          case None =>
          case Some(h) => records := records + [h];
        }
      }
      assert entries[..|entries|] == entries;
      return Ok(records);
  }

  /** The externally visible effects of `Cleanup`, in the order it performs them. */
  datatype Effect = SavedHistory(name: string) | StoppedContainer(name: string) | RemovedContainer(name: string) | RemovedMetadata(name: string)

  datatype CleanupError = NotFound(name: string) | HistoryFailed

  /**
   * The host as the lifecycle code sees it: agent metadata files by name,
   * the containers that exist, the history directory, and the trace of
   * effects performed on them.
   */
  class Host {
    var agents: map<string, Agent>
    var containers: set<string>
    var history: map<string, AgentHistory>
    var trace: seq<Effect>
    /** Whether the history directory can be created and written. */
    const historyWritable: bool

    constructor (agents: map<string, Agent>, containers: set<string>, history: map<string, AgentHistory>, historyWritable: bool)
      ensures this.agents == agents && this.containers == containers && this.history == history
      ensures this.historyWritable == historyWritable && trace == []
    {
      this.agents := agents;
      this.containers := containers;
      this.history := history;
      this.historyWritable := historyWritable;
      trace := [];
    }

    /** `SaveHistory`: write the record under its name. */
    method SaveHistory(h: AgentHistory) returns (ok: bool)
      modifies this
      ensures ok == historyWritable
      ensures history == if ok then old(history)[h.name := h] else old(history)
      ensures trace == if ok then old(trace) + [SavedHistory(h.name)] else old(trace)
      ensures agents == old(agents) && containers == old(containers)
    {
      ok := historyWritable;
      if ok {
        history := history[h.name := h];
        trace := trace + [SavedHistory(h.name)];
      }
    }

    /**
     * `Cleanup`: an unknown agent is an error; otherwise the history record is
     * saved first and, only if that worked, the container is stopped and
     * removed and the metadata file deleted.
     */
    method Cleanup(name: string, result: string, attempts: int, metadata: map<string, string>, now: Time)
      returns (err: Option<CleanupError>)
      modifies this
      ensures name !in old(agents) ==>
                err == Some(NotFound(name)) && agents == old(agents)
                && containers == old(containers) && history == old(history) && trace == old(trace)
      ensures name in old(agents) && !historyWritable ==>
                err == Some(HistoryFailed) && agents == old(agents)
                && containers == old(containers) && history == old(history) && trace == old(trace)
      ensures err.None? <==> name in old(agents) && historyWritable
      ensures err.None? ==>
        var a := old(agents)[name];
        && history == old(history)[a.name := AgentHistory(a.name, a.repo, a.branch, a.intent, a.created, Some(now), Some(now), result, attempts, metadata)]
        && containers == old(containers) - {name}
        && agents == old(agents) - {name}
        && trace == old(trace) + [SavedHistory(a.name), StoppedContainer(name), RemovedContainer(name), RemovedMetadata(name)]
    {
      if name !in agents {
        return Some(NotFound(name));
      }
      var a := agents[name];
      var h := AgentHistory(a.name, a.repo, a.branch, a.intent, a.created, Some(now), Some(now), result, attempts, metadata);
      var saved := SaveHistory(h);
      if !saved {
        return Some(HistoryFailed);
      }
      containers := containers - {name};
      trace := trace + [StoppedContainer(name), RemovedContainer(name)];
      agents := agents - {name};
      trace := trace + [RemovedMetadata(name)];
      err := None;
    }
  }

  /** The three sweeps, with the grace period where there is one. */
  datatype Sweep = Prune | CompletedAfter(grace: int) | StaleAfter(grace: int)

  /** Which listed agents a sweep cleans up. */
  predicate Selects(sweep: Sweep, a: AgentWithState) {
    match sweep
    case Prune => a.lifecycle == Exited || a.lifecycle == Stopped
    case CompletedAfter(grace) => a.lifecycle == Completed && a.age > grace
    case StaleAfter(grace) => (a.lifecycle == Exited || a.lifecycle == Stopped) && a.age > grace
  }

  /** The result recorded in the history of an agent a sweep removes. */
  function SweepResult(sweep: Sweep): string {
    match sweep
    case Prune => "pruned"
    case CompletedAfter(_) => "success"
    case StaleAfter(_) => "stale"
  }

  /**
   * The names a sweep reports over `listed`, starting from the metadata in
   * `agents`: each selected agent whose cleanup succeeds, in listing order.
   */
  function Swept(agents: set<string>, writable: bool, listed: seq<AgentWithState>, sweep: Sweep): (names: seq<string>)
    ensures forall n :: n in names ==> n in agents
    decreases |listed|
  {
    if listed == [] then []
    else
      var a := listed[0];
      if Selects(sweep, a) && a.agent.name in agents && writable then
        [a.agent.name] + Swept(agents - {a.agent.name}, writable, listed[1..], sweep)
      else
        Swept(agents, writable, listed[1..], sweep)
  }

  /** The names of the agents a sweep selects, in listing order. */
  function SelectedNames(listed: seq<AgentWithState>, sweep: Sweep): seq<string> {
    if listed == [] then []
    else (if Selects(sweep, listed[0]) then [listed[0].agent.name] else []) + SelectedNames(listed[1..], sweep)
  }

  predicate DistinctNames(listed: seq<AgentWithState>) {
    forall i, j :: 0 <= i < j < |listed| ==> listed[i].agent.name != listed[j].agent.name
  }

  /** Every reported name belongs to an agent the sweep selects. */
  lemma {:induction false} SweptAreSelected(agents: set<string>, writable: bool, listed: seq<AgentWithState>, sweep: Sweep)
    ensures forall n :: n in Swept(agents, writable, listed, sweep) ==> n in SelectedNames(listed, sweep)
    decreases |listed|
  {
    if listed != [] {
      var a := listed[0];
      SweptAreSelected(agents - {a.agent.name}, writable, listed[1..], sweep);
      SweptAreSelected(agents, writable, listed[1..], sweep);
    }
  }

  /**
   * When history can be written and every listed agent has distinct,
   * existing metadata, a sweep removes exactly the agents it selects,
   * in listing order.
   */
  lemma {:induction false} SweepRemovesAllSelected(agents: set<string>, listed: seq<AgentWithState>, sweep: Sweep)
    requires DistinctNames(listed)
    requires forall i :: 0 <= i < |listed| ==> listed[i].agent.name in agents
    ensures Swept(agents, true, listed, sweep) == SelectedNames(listed, sweep)
    decreases |listed|
  {
    if listed != [] {
      var a := listed[0];
      var rest := listed[1..];
      assert forall i :: 0 <= i < |rest| ==> rest[i] == listed[i + 1];
      if Selects(sweep, a) {
        SweepRemovesAllSelected(agents - {a.agent.name}, rest, sweep);
      } else {
        SweepRemovesAllSelected(agents, rest, sweep);
      }
    }
  }

  /** Without a writable history directory, no sweep removes anything. */
  lemma {:induction false} SweepNeedsHistory(agents: set<string>, listed: seq<AgentWithState>, sweep: Sweep)
    ensures Swept(agents, false, listed, sweep) == []
    decreases |listed|
  {
    if listed != [] {
      SweepNeedsHistory(agents, listed[1..], sweep);
    }
  }

  /**
   * The stale sweep is pruning restricted to agents older than the grace
   * period, and neither touches an agent whose container is up.
   */
  lemma StaleIsAgedPrune(a: AgentWithState, grace: int)
    ensures Selects(StaleAfter(grace), a) <==> Selects(Prune, a) && a.age > grace
    ensures a.lifecycle == Active ==> !Selects(Prune, a) && !Selects(StaleAfter(grace), a) && !Selects(CompletedAfter(grace), a)
  {
  }

  /**
   * What a sweep has done so far: the agents in `names` are gone from the
   * metadata and the containers, everything else is as it was, and each
   * removed agent has a history record with the sweep's result.
   */
  ghost predicate Tidied(agents0: map<string, Agent>, containers0: set<string>, names: seq<string>,
                         agents: map<string, Agent>, containers: set<string>, history: map<string, AgentHistory>,
                         sweep: Sweep)
  {
    && agents.Keys == agents0.Keys - (set n | n in names)
    && (forall n :: n in agents ==> agents[n] == agents0[n])
    && containers == containers0 - (set n | n in names)
    && (forall n :: n in names ==> n in agents0)
    && (forall n :: n in names ==>
          agents0[n].name in history && history[agents0[n].name].result == SweepResult(sweep)
          && history[agents0[n].name].attempts == 0)
  }

  /** Cleaning up one more agent that is still there extends what the sweep has done. */
  lemma TidiedExtend(agents0: map<string, Agent>, containers0: set<string>, names: seq<string>,
                     agents: map<string, Agent>, containers: set<string>, history: map<string, AgentHistory>,
                     sweep: Sweep, name: string, h: AgentHistory)
    requires Tidied(agents0, containers0, names, agents, containers, history, sweep)
    requires name in agents && h.result == SweepResult(sweep) && h.attempts == 0
    ensures Tidied(agents0, containers0, names + [name], agents - {name}, containers - {name},
                   history[agents[name].name := h], sweep)
  {
    assert (set n | n in names + [name]) == (set n | n in names) + {name};
  }

  /** One more listed agent: the sweep reports it exactly when it is selected, still there and history is writable. */
  lemma SweptStep(keys0: set<string>, names: seq<string>, writable: bool, listed: seq<AgentWithState>, i: nat, sweep: Sweep)
    requires i < |listed|
    requires names + Swept(keys0 - (set n | n in names), writable, listed[i..], sweep) == Swept(keys0, writable, listed, sweep)
    ensures var name := listed[i].agent.name;
            if Selects(sweep, listed[i]) && name in keys0 - (set n | n in names) && writable
            then (names + [name]) + Swept(keys0 - (set n | n in names + [name]), writable, listed[i + 1..], sweep)
                 == Swept(keys0, writable, listed, sweep)
            else names + Swept(keys0 - (set n | n in names), writable, listed[i + 1..], sweep)
                 == Swept(keys0, writable, listed, sweep)
  {
    var name := listed[i].agent.name;
    assert listed[i..][1..] == listed[i + 1..];
    assert keys0 - (set n | n in names + [name]) == keys0 - (set n | n in names) - {name};
  }

  /**
   * The loop shared by the three sweeps: clean up each selected agent in
   * listing order, skipping the ones whose cleanup fails.
   */
  method SweepListed(host: Host, listed: seq<AgentWithState>, sweep: Sweep, now: Time) returns (names: seq<string>)
    modifies host
    ensures names == Swept(old(host.agents.Keys), host.historyWritable, listed, sweep)
    ensures Tidied(old(host.agents), old(host.containers), names, host.agents, host.containers, host.history, sweep)
  {
    names := [];
    assert listed[0..] == listed && old(host.agents.Keys) - (set n | n in names) == old(host.agents.Keys);
    var i := 0;
    while i < |listed|
      invariant 0 <= i <= |listed|
      invariant names + Swept(old(host.agents.Keys) - (set n | n in names), host.historyWritable, listed[i..], sweep)
                == Swept(old(host.agents.Keys), host.historyWritable, listed, sweep)
      invariant Tidied(old(host.agents), old(host.containers), names, host.agents, host.containers, host.history, sweep)
    {
      var a := listed[i];
      SweptStep(old(host.agents.Keys), names, host.historyWritable, listed, i, sweep);
      if Selects(sweep, a) {
        ghost var agents, containers, history := host.agents, host.containers, host.history;
        var err := host.Cleanup(a.agent.name, SweepResult(sweep), 0, map[], now);
        if err.None? {
          ghost var b := agents[a.agent.name];
          TidiedExtend(old(host.agents), old(host.containers), names, agents, containers, history, sweep, a.agent.name,
                       AgentHistory(b.name, b.repo, b.branch, b.intent, b.created, Some(now), Some(now), SweepResult(sweep), 0, map[]));
          names := names + [a.agent.name];
        }
      }
      i := i + 1;
    }
  }

  /** `Prune`: remove every exited or stopped agent, recording "pruned". */
  method PruneAgents(host: Host, entries: seq<Entry<Agent>>, inspect: string -> string, claudeRunning: string -> bool, now: Time)
    returns (names: seq<string>)
    modifies host
    ensures names == Swept(old(host.agents.Keys), host.historyWritable, Listed(entries, inspect, claudeRunning, now), Prune)
    ensures Tidied(old(host.agents), old(host.containers), names, host.agents, host.containers, host.history, Prune)
  {
    var listed := ListWithState(entries, inspect, claudeRunning, now);
    names := SweepListed(host, listed, Prune, now);
  }

  /** `CleanupCompleted`: remove completed agents older than the grace period, recording "success". */
  method CleanupCompleted(host: Host, entries: seq<Entry<Agent>>, inspect: string -> string, claudeRunning: string -> bool, now: Time, grace: int)
    returns (names: seq<string>)
    modifies host
    ensures names == Swept(old(host.agents.Keys), host.historyWritable, Listed(entries, inspect, claudeRunning, now), CompletedAfter(grace))
    ensures Tidied(old(host.agents), old(host.containers), names, host.agents, host.containers, host.history, CompletedAfter(grace))
  {
    var listed := ListWithState(entries, inspect, claudeRunning, now);
    names := SweepListed(host, listed, CompletedAfter(grace), now);
  }

  /** `CleanupStale`: remove exited or stopped agents older than the grace period, recording "stale". */
  method CleanupStale(host: Host, entries: seq<Entry<Agent>>, inspect: string -> string, claudeRunning: string -> bool, now: Time, grace: int)
    returns (names: seq<string>)
    modifies host
    ensures names == Swept(old(host.agents.Keys), host.historyWritable, Listed(entries, inspect, claudeRunning, now), StaleAfter(grace))
    ensures Tidied(old(host.agents), old(host.containers), names, host.agents, host.containers, host.history, StaleAfter(grace))
  {
    var listed := ListWithState(entries, inspect, claudeRunning, now);
    names := SweepListed(host, listed, StaleAfter(grace), now);
  }
}
