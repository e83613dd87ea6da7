/**
 * The claim registry (`claims.json`): which agent holds which path.
 * Every successful single claim or release is announced on the bus.
 */
module Claims {
  import opened Wrappers
  import opened Stores
  import Bus


  datatype Claim = Claim(agent: string, file: string, claimedAt: Time)

  type ClaimTable = map<string, Claim>

  datatype ClaimError =
    | LoadFailed(reason: LoadError)
    | Conflict(file: string, holder: string, since: Time)
    | Forbidden(file: string, holder: string, caller: string)
    | PublishFailed

  /** `loadClaims`: a missing file or a `null` document is an empty table. */
  function LoadClaims(f: Stored<ClaimTable>): (r: Result<ClaimTable, ClaimError>)
    ensures r.Ok? <==> f.Absent? || f.Null? || f.Present?
    ensures f.Absent? || f.Null? ==> r == Ok(map[])
    ensures f.Present? ==> r == Ok(f.value)
  {
    match f
    case Absent => Ok(map[])
    case Null => Ok(map[])
    case Unreadable => Err(LoadFailed(ReadFailed))
    case Unparsable => Err(LoadFailed(ParseFailed))
    case Present(m) => Ok(m)
  }

  /** Every entry records the path it is filed under. */
  predicate WellKeyed(m: ClaimTable) {
    forall p :: p in m ==> m[p].file == p
  }

  /**
   * The table after `agent` claims `path` at `now`, with the refusal if
   * another agent holds it. A claim already held by the caller is kept as it
   * was, time included.
   */
  function Claimed(m: ClaimTable, agent: string, path: string, now: Time): (r: (ClaimTable, Option<ClaimError>))
    ensures r.1.Some? <==> path in m && m[path].agent != agent
    ensures r.1.Some? ==> r.0 == m && r.1.value == Conflict(path, m[path].agent, m[path].claimedAt)
    ensures r.1.None? ==> path in r.0 && r.0[path].agent == agent
    ensures path in m ==> r.0 == m
    ensures path !in m ==> r.0.Keys == m.Keys + {path} && r.0[path] == Claim(agent, path, now)
    ensures forall q :: q in m && q != path ==> q in r.0 && r.0[q] == m[q]
    ensures WellKeyed(m) ==> WellKeyed(r.0)
  {
    if path in m then
      if m[path].agent != agent then (m, Some(Conflict(path, m[path].agent, m[path].claimedAt)))
      else (m, None)
    else (m[path := Claim(agent, path, now)], None)
  }

  /**
   * The table after `agent` releases `path`: nothing to do when unclaimed,
   * refused when another agent holds it, otherwise the entry is dropped.
   */
  function Released(m: ClaimTable, agent: string, path: string): (r: (ClaimTable, Option<ClaimError>))
    ensures r.1.Some? <==> path in m && m[path].agent != agent
    ensures r.1.Some? ==> r.0 == m && r.1.value == Forbidden(path, m[path].agent, agent)
    ensures path !in r.0
            || (path in m && m[path].agent != agent && r.0 == m)
    ensures r.0.Keys == if path in m && m[path].agent == agent then m.Keys - {path} else m.Keys
    ensures forall q :: q in r.0 ==> q in m && r.0[q] == m[q]
    ensures WellKeyed(m) ==> WellKeyed(r.0)
  {
    if path !in m then (m, None)
    else if m[path].agent != agent then (m, Some(Forbidden(path, m[path].agent, agent)))
    else (m - {path}, None)
  }

  /** The table without any entry held by `agent`. */
  function WithoutAgent(m: ClaimTable, agent: string): (r: ClaimTable)
    ensures forall q :: q in r <==> q in m && m[q].agent != agent
    ensures forall q :: q in r ==> r[q] == m[q]
  {
    map q | q in m && m[q].agent != agent :: m[q]
  }

  /** Releasing a fresh claim restores the table it was made on. */
  lemma ReleaseUndoesClaim(m: ClaimTable, agent: string, path: string, now: Time)
    requires path !in m
    ensures Released(Claimed(m, agent, path, now).0, agent, path) == (m, None)
  {
    var c := Claimed(m, agent, path, now).0;
    assert c - {path} == m;
  }

  /** Claiming twice is claiming once: the second call succeeds and keeps the first claim's time. */
  lemma ClaimIdempotent(m: ClaimTable, agent: string, path: string, t1: Time, t2: Time)
    requires path !in m || m[path].agent == agent
    ensures var once := Claimed(m, agent, path, t1);
            Claimed(once.0, agent, path, t2) == (once.0, None)
  {
  }

  /** After `a` claims a free path, any other agent's claim is refused and names `a` and the claim time. */
  lemma SecondClaimantRefused(m: ClaimTable, a: string, b: string, path: string, t1: Time, t2: Time)
    requires path !in m && a != b
    ensures var first := Claimed(m, a, path, t1).0;
            Claimed(first, b, path, t2) == (first, Some(Conflict(path, a, t1)))
  {
  }

  /** Releasing all of one agent's claims leaves nothing of it, and is idempotent. */
  lemma WithoutAgentIdempotent(m: ClaimTable, agent: string)
    ensures forall q :: q in WithoutAgent(m, agent) ==> WithoutAgent(m, agent)[q].agent != agent
    ensures WithoutAgent(WithoutAgent(m, agent), agent) == WithoutAgent(m, agent)
  {
  }

  /** The claim and release messages announced on the bus. */
  function Announcement(kind: string, agent: string, path: string): Bus.Message {
    Bus.Message(kind, agent, 0, map["file" := path])
  }

  /** The claim registry of one namespace, which announces on that namespace's bus. */
  class ClaimRegistry {
    var file: Stored<ClaimTable>
    const bus: Bus.MessageBus

    constructor (file: Stored<ClaimTable>, bus: Bus.MessageBus)
      ensures this.file == file && this.bus == bus
    {
      this.file := file;
      this.bus := bus;
    }

    /** The table the loader would return, if it loads. */
    function Table(): Result<ClaimTable, ClaimError>
      reads this
    {
      LoadClaims(file)
    }

    /**
     * `ClaimFile`: a load failure or a conflict changes nothing; a re-claim
     * by the holder changes nothing and publishes nothing; a new claim is
     * saved and then announced with a `claim` message carrying `file`.
     */
    method ClaimFile(agent: string, path: string, now: Time) returns (err: Option<ClaimError>)
      modifies this, bus
      ensures old(Table()).Err? ==> err == Some(old(Table()).error) && file == old(file) && bus.log == old(bus.log)
      ensures old(Table()).Ok? ==>
        var m := old(Table()).value;
        var (m', refusal) := Claimed(m, agent, path, now);
        if path in m then
          err == refusal && file == old(file) && bus.log == old(bus.log)
        else
          && file == Present(m')
          && (old(bus.log).Unopenable? ==> err == Some(PublishFailed) && bus.log == old(bus.log))
          && (!old(bus.log).Unopenable? ==>
                err.None? && bus.log == Bus.Appended(old(bus.log), [Announcement(Bus.MsgClaim, agent, path).(timestamp := now)], bus.fits))
      ensures old(Table()).Ok? && WellKeyed(old(Table()).value) ==> Table().Ok? && WellKeyed(Table().value)
    {
      var loaded := LoadClaims(file);
      if loaded.Err? {
        return Some(loaded.error);
      }
      var claims := loaded.value;
      if path in claims {
        if claims[path].agent != agent {
          return Some(Conflict(path, claims[path].agent, claims[path].claimedAt));
        }
        return None;
      }
      claims := claims[path := Claim(agent, path, now)];
      file := Present(claims);
      var published := bus.Publish(Announcement(Bus.MsgClaim, agent, path), now);
      err := if published.Some? then Some(PublishFailed) else None;
    }

    /**
     * `ReleaseFile`: releasing an unclaimed path succeeds and changes nothing;
     * a release by another agent is refused; the holder's release drops the
     * entry, saves, and announces a `release` message.
     */
    method ReleaseFile(agent: string, path: string, now: Time) returns (err: Option<ClaimError>)
      modifies this, bus
      ensures old(Table()).Err? ==> err == Some(old(Table()).error) && file == old(file) && bus.log == old(bus.log)
      ensures old(Table()).Ok? ==>
        var m := old(Table()).value;
        var (m', refusal) := Released(m, agent, path);
        if path !in m || m[path].agent != agent then
          err == refusal && file == old(file) && bus.log == old(bus.log)
        else
          && file == Present(m')
          && (old(bus.log).Unopenable? ==> err == Some(PublishFailed) && bus.log == old(bus.log))
          && (!old(bus.log).Unopenable? ==>
                err.None? && bus.log == Bus.Appended(old(bus.log), [Announcement(Bus.MsgRelease, agent, path).(timestamp := now)], bus.fits))
      ensures old(Table()).Ok? && WellKeyed(old(Table()).value) ==> Table().Ok? && WellKeyed(Table().value)
    {
      var loaded := LoadClaims(file);
      if loaded.Err? {
        return Some(loaded.error);
      }
      var claims := loaded.value;
      if path !in claims {
        return None;
      }
      if claims[path].agent != agent {
        return Some(Forbidden(path, claims[path].agent, agent));
      }
      claims := claims - {path};
      file := Present(claims);
      var published := bus.Publish(Announcement(Bus.MsgRelease, agent, path), now);
      err := if published.Some? then Some(PublishFailed) else None;
    }

    /** `ListClaims`: the loaded table. */
    method ListClaims() returns (r: Result<ClaimTable, ClaimError>)
      ensures r == LoadClaims(file)
      ensures file.Absent? || file.Null? ==> r == Ok(map[])
    {
      r := LoadClaims(file);
    }

    /** `IsFileClaimed`: the holder and true when the path is claimed, otherwise the empty name and false. */
    method IsFileClaimed(path: string) returns (holder: string, claimed: bool, err: Option<ClaimError>)
      ensures err.Some? <==> Table().Err?
      ensures Table().Ok? ==> (claimed <==> path in Table().value)
      ensures Table().Ok? && claimed ==> holder == Table().value[path].agent
      ensures !claimed ==> holder == ""
    {
      var loaded := LoadClaims(file);
      if loaded.Err? {
        return "", false, Some(loaded.error);
      }
      if path in loaded.value {
        return loaded.value[path].agent, true, None;
      }
      return "", false, None;
    }

    /**
     * `ReleaseAllForAgent`: drop every entry held by the agent, one key at a
     * time, and save; nothing is published.
     */
    method ReleaseAllForAgent(agent: string) returns (err: Option<ClaimError>)
      modifies this
      ensures old(Table()).Err? ==> err == Some(old(Table()).error) && file == old(file)
      ensures old(Table()).Ok? ==> err.None? && file == Present(WithoutAgent(old(Table()).value, agent))
      ensures old(Table()).Ok? && WellKeyed(old(Table()).value) ==> Table().Ok? && WellKeyed(Table().value)
    {
      var loaded := LoadClaims(file);
      if loaded.Err? {
        return Some(loaded.error);
      }
      var claims := loaded.value;
      ghost var m := claims;
      var pending := claims.Keys;
      while pending != {}
        invariant pending <= m.Keys
        invariant forall q :: q in claims <==> q in m && (q in pending || m[q].agent != agent)
        invariant forall q :: q in claims ==> claims[q] == m[q]
        decreases pending
      {
        var q :| q in pending;
        if claims[q].agent == agent {
          claims := claims - {q};
        }
        pending := pending - {q};
      }
      assert claims == WithoutAgent(m, agent);
      file := Present(claims);
      err := None;
    }
  }
}
