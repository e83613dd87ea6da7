/**
 * The agent state table (`state.json`): the latest record per agent and a
 * table-wide "last updated" marker. Updates replace a record wholesale.
 *
 * The marker is RFC 3339 text in the file; here it is the instant it
 * records, with None standing for the empty text.
 */
module States {
  import opened Wrappers
  import opened Stores

  datatype AgentState = AgentState(name: string, branch: string, status: string, lastUpdate: Time)

  type AgentTable = map<string, AgentState>

  /** The decoded document; its `agents` member may be the JSON `null`. */
  datatype StateDoc = StateDoc(agents: Option<AgentTable>, lastUpdated: Option<Time>)

  /** The state as `loadState` hands it out: the table is never null. */
  datatype State = State(agents: AgentTable, lastUpdated: Option<Time>)

  const EmptyState: State := State(map[], None)

  /** `loadState`: a missing file, a `null` document or a null table reads as an empty table. */
  function LoadState(f: Stored<StateDoc>): (r: Result<State, LoadError>)
    ensures r.Err? <==> f.Unreadable? || f.Unparsable?
    ensures f.Absent? || f.Null? ==> r == Ok(EmptyState)
    ensures f.Present? && f.value.agents.None? ==> r == Ok(State(map[], f.value.lastUpdated))
  {
    match f
    case Absent => Ok(EmptyState)
    case Null => Ok(EmptyState)
    case Unreadable => Err(ReadFailed)
    case Unparsable => Err(ParseFailed)
    case Present(d) => Ok(State(d.agents.GetOr(map[]), d.lastUpdated))
  }

  /** Every record carries the name it is filed under. */
  predicate NamesMatchKeys(t: AgentTable) {
    forall a :: a in t ==> t[a].name == a
  }

  /** The state after `agent` reports `status` on `branch` at `now`. */
  function Upserted(s: State, agent: string, status: string, branch: string, now: Time): (r: State)
    ensures agent in r.agents && r.agents[agent] == AgentState(agent, branch, status, now)
    ensures r.agents.Keys == s.agents.Keys + {agent}
    ensures forall a :: a in s.agents && a != agent ==> r.agents[a] == s.agents[a]
    ensures r.lastUpdated == Some(now)
    ensures NamesMatchKeys(s.agents) ==> NamesMatchKeys(r.agents)
  {
    State(s.agents[agent := AgentState(agent, branch, status, now)], Some(now))
  }

  /** The state after `agent`'s record is removed at `now`. */
  function Removed(s: State, agent: string, now: Time): (r: State)
    ensures r.agents.Keys == s.agents.Keys - {agent}
    ensures forall a :: a in r.agents ==> r.agents[a] == s.agents[a]
    ensures r.lastUpdated == Some(now)
    ensures NamesMatchKeys(s.agents) ==> NamesMatchKeys(r.agents)
  {
    State(s.agents - {agent}, Some(now))
  }

  /** Last write wins: a second update of the same agent erases every trace of the first. */
  lemma LastWriteWins(s: State, agent: string, st1: string, b1: string, t1: Time, st2: string, b2: string, t2: Time)
    ensures Upserted(Upserted(s, agent, st1, b1, t1), agent, st2, b2, t2) == Upserted(s, agent, st2, b2, t2)
  {
  }

  /** Removing an agent after an update leaves the table as removal alone would. */
  lemma RemoveAfterUpdate(s: State, agent: string, st: string, b: string, t1: Time, t2: Time)
    ensures Removed(Upserted(s, agent, st, b, t1), agent, t2) == Removed(s, agent, t2)
  {
    assert Removed(Upserted(s, agent, st, b, t1), agent, t2).agents == Removed(s, agent, t2).agents;
  }

  /** The saved document of a state. */
  function Doc(s: State): StateDoc {
    StateDoc(Some(s.agents), s.lastUpdated)
  }

  lemma SavedStateReloads(s: State)
    ensures LoadState(Present(Doc(s))) == Ok(s)
  {
  }

  class StateTable {
    var file: Stored<StateDoc>

    constructor (file: Stored<StateDoc>)
      ensures this.file == file
    {
      this.file := file;
    }

    function Current(): Result<State, LoadError>
      reads this
    {
      LoadState(file)
    }

    /** `UpdateAgentState`: load, replace the agent's record, stamp the marker, save. */
    method UpdateAgentState(agent: string, status: string, branch: string, now: Time) returns (err: Option<LoadError>)
      modifies this
      ensures old(Current()).Err? ==> err == Some(old(Current()).error) && file == old(file)
      ensures old(Current()).Ok? ==> err.None? && Current() == Ok(Upserted(old(Current()).value, agent, status, branch, now))
    {
      var loaded := LoadState(file);
      if loaded.Err? {
        return Some(loaded.error);
      }
      var state := loaded.value;
      state := state.(agents := state.agents[agent := AgentState(agent, branch, status, now)]);
      state := state.(lastUpdated := Some(now));
      file := Present(Doc(state));
      err := None;
    }

    /** `RemoveAgentState`: load, delete the agent's record (absent is fine), stamp the marker, save. */
    method RemoveAgentState(agent: string, now: Time) returns (err: Option<LoadError>)
      modifies this
      ensures old(Current()).Err? ==> err == Some(old(Current()).error) && file == old(file)
      ensures old(Current()).Ok? ==> err.None? && Current() == Ok(Removed(old(Current()).value, agent, now))
    {
      var loaded := LoadState(file);
      if loaded.Err? {
        return Some(loaded.error);
      }
      var state := loaded.value;
      state := state.(agents := state.agents - {agent}, lastUpdated := Some(now));
      file := Present(Doc(state));
      err := None;
    }

    /** `GetState`: the loaded state. */
    method GetState() returns (r: Result<State, LoadError>)
      ensures r == Current()
      ensures file.Absent? ==> r == Ok(EmptyState)
    {
      r := LoadState(file);
    }
  }
}
