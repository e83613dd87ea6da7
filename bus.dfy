/**
 * The message bus: an append-only log of coordination messages
 * (`messages.jsonl`), the writer `Publish` and the filtered readers.
 *
 * A log line is modelled by what the reader makes of it: an empty line, a
 * line that does not decode as a message, a decoded message, or a line too
 * long for the line scanner (which stops the scan with an error).
 */
module Bus {
  import opened Wrappers
  import Stores

  type Time = Stores.Time

  const MsgClaim: string := "claim"
  const MsgRelease: string := "release"
  const MsgCommitted: string := "committed"
  const MsgPushed: string := "pushed"
  const MsgPRCreated: string := "pr_created"
  const MsgMerged: string := "merged"
  const MsgRebaseNeeded: string := "rebase_needed"

  /** The message type is free text: the command line publishes any type it is given. */
  datatype Message = Message(kind: string, agent: string, timestamp: Time, data: map<string, string>)

  datatype LogLine = Blank | Malformed(text: string) | Record(msg: Message) | Overlong

  /** The log file: missing, present but not openable, or its lines. */
  datatype LogFile = Missing | Unopenable | Lines(lines: seq<LogLine>)

  datatype BusError = OpenFailed | ScanFailed

  /** `isRelevantToAgent`: rebase requests that are untargeted or aimed at the agent, and every push and merge. */
  predicate IsRelevantToAgent(m: Message, agent: string)
  {
    if m.kind == MsgRebaseNeeded then
      "target" !in m.data || m.data["target"] == agent
    else
      m.kind == MsgPushed || m.kind == MsgMerged
  }

  /** A rebase request this agent has to act on. */
  predicate IsRebaseFor(m: Message, agent: string) {
    m.kind == MsgRebaseNeeded && IsRelevantToAgent(m, agent)
  }

  /** The relevance rule, case by case. */
  lemma RelevanceRule(m: Message, agent: string)
    ensures m.kind == MsgPushed || m.kind == MsgMerged ==> IsRelevantToAgent(m, agent)
    ensures m.kind == MsgRebaseNeeded ==>
              (IsRelevantToAgent(m, agent) <==> "target" !in m.data || m.data["target"] == agent)
    ensures m.kind !in {MsgRebaseNeeded, MsgPushed, MsgMerged} ==> !IsRelevantToAgent(m, agent)
  {
  }

  /** Index of the first overlong line: the scanner stops there. */
  function ScanEnd(lines: seq<LogLine>): (n: nat)
    ensures n <= |lines|
    ensures forall k :: 0 <= k < n ==> !lines[k].Overlong?
    ensures n < |lines| ==> lines[n].Overlong?
  {
    if lines == [] || lines[0].Overlong? then 0 else 1 + ScanEnd(lines[1..])
  }

  /** The decoded messages among `lines`, in order; blank and malformed lines are dropped. */
  function Records(lines: seq<LogLine>): seq<Message> {
    if lines == [] then []
    else
      var last := lines[|lines| - 1];
      Records(lines[..|lines| - 1]) + (if last.Record? then [last.msg] else [])
  }

  /** What `readMessagesFromDir` returns for a log: the messages read and the error, if any. */
  function ReadLog(log: LogFile): (seq<Message>, Option<BusError>) {
    match log
    case Missing => ([], None)
    case Unopenable => ([], Some(OpenFailed))
    case Lines(ls) =>
      var n := ScanEnd(ls);
      (Records(ls[..n]), if n < |ls| then Some(ScanFailed) else None)
  }

  /** The messages strictly after `since`, in log order. */
  function Since(ms: seq<Message>, since: Time): seq<Message> {
    if ms == [] then []
    else
      var last := ms[|ms| - 1];
      Since(ms[..|ms| - 1], since) + (if last.timestamp > since then [last] else [])
  }

  /** The messages written by `agent` or relevant to it, in log order. */
  function ForAgent(ms: seq<Message>, agent: string): seq<Message> {
    if ms == [] then []
    else
      var last := ms[|ms| - 1];
      ForAgent(ms[..|ms| - 1], agent) + (if last.agent == agent || IsRelevantToAgent(last, agent) then [last] else [])
  }

  /** Reading the records of a concatenation reads each part in turn. */
  lemma {:induction false} RecordsAppend(a: seq<LogLine>, b: seq<LogLine>)
    ensures Records(a + b) == Records(a) + Records(b)
    decreases |b|
  {
    if b == [] {
      assert a + b == a;
    } else {
      var b' := b[..|b| - 1];
      assert (a + b)[..|a + b| - 1] == a + b';
      RecordsAppend(a, b');
    }
  }

  /** A message is read back exactly when a line holds it. */
  lemma {:induction false} RecordsMembers(lines: seq<LogLine>, m: Message)
    ensures m in Records(lines) <==> Record(m) in lines
  {
    if lines != [] {
      var init := lines[..|lines| - 1];
      RecordsMembers(init, m);
      assert lines == init + [lines[|lines| - 1]];
    }
  }

  /** `Since` distributes over concatenation, so it keeps log order. */
  lemma {:induction false} SinceAppend(a: seq<Message>, b: seq<Message>, since: Time)
    ensures Since(a + b, since) == Since(a, since) + Since(b, since)
    decreases |b|
  {
    if b == [] {
      assert a + b == a;
    } else {
      var b' := b[..|b| - 1];
      assert (a + b)[..|a + b| - 1] == a + b';
      SinceAppend(a, b', since);
    }
  }

  /** `Since` keeps exactly the messages stamped after `since`. */
  lemma {:induction false} SinceMembers(ms: seq<Message>, since: Time, m: Message)
    ensures m in Since(ms, since) <==> m in ms && m.timestamp > since
  {
    if ms != [] {
      var init := ms[..|ms| - 1];
      SinceMembers(init, since, m);
      assert ms == init + [ms[|ms| - 1]];
    }
  }

  /** `ForAgent` keeps exactly the agent's own messages and those relevant to it. */
  lemma {:induction false} ForAgentMembers(ms: seq<Message>, agent: string, m: Message)
    ensures m in ForAgent(ms, agent) <==> m in ms && (m.agent == agent || IsRelevantToAgent(m, agent))
  {
    if ms != [] {
      var init := ms[..|ms| - 1];
      ForAgentMembers(init, agent, m);
      assert ms == init + [ms[|ms| - 1]];
    }
  }

  /** `ForAgent` distributes over concatenation, so it keeps log order. */
  lemma {:induction false} ForAgentAppend(a: seq<Message>, b: seq<Message>, agent: string)
    ensures ForAgent(a + b, agent) == ForAgent(a, agent) + ForAgent(b, agent)
    decreases |b|
  {
    if b == [] {
      assert a + b == a;
    } else {
      var b' := b[..|b| - 1];
      assert (a + b)[..|a + b| - 1] == a + b';
      ForAgentAppend(a, b', agent);
    }
  }

  /** A rebase request aimed at another agent is never relevant, unless that agent wrote it itself. */
  lemma TargetedElsewhereIsIgnored(ms: seq<Message>, agent: string, m: Message)
    requires m.kind == MsgRebaseNeeded && "target" in m.data && m.data["target"] != agent
    ensures m in ForAgent(ms, agent) <==> m in ms && m.agent == agent
  {
    ForAgentMembers(ms, agent, m);
  }

  /** Some message of the log read since `since` asks `agent` to rebase (a failed read sees none). */
  ghost predicate RebaseSignalled(log: LogFile, agent: string, since: Time) {
    var (ms, err) := ReadLog(log);
    err.None? && exists m :: m in Since(ms, since) && IsRebaseFor(m, agent)
  }

  /** Messages stamped with the instant they are published at, whatever they carried. */
  function Stamped(ms: seq<Message>, now: Time): seq<Message> {
    seq(|ms|, k requires 0 <= k < |ms| => ms[k].(timestamp := now))
  }

  /**
   * The line a published message becomes: a record when its encoding fits
   * the reader's line limit, an overlong line otherwise. `fits` stands for
   * the JSON encoding, which is not modelled.
   */
  function Encoded(ms: seq<Message>, fits: Message -> bool): seq<LogLine> {
    seq(|ms|, k requires 0 <= k < |ms| => if fits(ms[k]) then Record(ms[k]) else Overlong)
  }

  /**
   * The log after appending messages to it: a missing file is created by
   * the first message; one that cannot be opened is left alone.
   */
  function Appended(log: LogFile, ms: seq<Message>, fits: Message -> bool): LogFile {
    match log
    case Unopenable => Unopenable
    case Missing => if ms == [] then Missing else Lines(Encoded(ms, fits))
    case Lines(ls) => Lines(ls + Encoded(ms, fits))
  }

  /** Appending in two steps appends the concatenation. */
  lemma AppendedTwice(log: LogFile, a: seq<Message>, b: seq<Message>, fits: Message -> bool)
    ensures Appended(Appended(log, a, fits), b, fits) == Appended(log, a + b, fits)
  {
    assert Encoded(a + b, fits) == Encoded(a, fits) + Encoded(b, fits);
    if log.Lines? {
      assert log.lines + Encoded(a, fits) + Encoded(b, fits) == log.lines + (Encoded(a, fits) + Encoded(b, fits));
    }
  }

  /** Every message fits the reader's line limit. */
  predicate AllFit(ms: seq<Message>, fits: Message -> bool) {
    forall k :: 0 <= k < |ms| ==> fits(ms[k])
  }

  /**
   * Appending messages that fit never withdraws a rebase request: once an
   * agent is signalled since a fixed instant, it stays signalled.
   */
  lemma RebaseSignalPersists(log: LogFile, ms: seq<Message>, fits: Message -> bool, agent: string, since: Time)
    requires AllFit(ms, fits)
    requires RebaseSignalled(log, agent, since)
    ensures RebaseSignalled(Appended(log, ms, fits), agent, since)
  {
    var read := ReadLog(log).0;
    var m :| m in Since(read, since) && IsRebaseFor(m, agent);
    SinceMembers(read, since, m);
    var ls := log.lines;
    var more := Encoded(ms, fits);
    var n := ScanEnd(ls);
    assert n == |ls|;
    ScanEndPastRecords(ls, more);
    assert (ls + more)[..|ls + more|] == ls + more;
    assert ls[..n] == ls;
    RecordsAppend(ls, more);
    SinceAppend(Records(ls), Records(more), since);
    assert m in Since(Records(ls + more), since);
  }

  /**
   * Appending a message too long for the reader withdraws every rebase
   * request: each later read of the log stops at that line with an error,
   * and a failed read signals nothing.
   */
  lemma OverlongWithdraws(log: LogFile, ms: seq<Message>, fits: Message -> bool, agent: string, since: Time)
    requires !AllFit(ms, fits)
    ensures ReadLog(Appended(log, ms, fits)).1 == (if log.Unopenable? then Some(OpenFailed) else Some(ScanFailed))
    ensures !RebaseSignalled(Appended(log, ms, fits), agent, since)
  {
    if !log.Unopenable? {
      var k :| 0 <= k < |ms| && !fits(ms[k]);
      var ls := if log.Lines? then log.lines else [];
      var all := ls + Encoded(ms, fits);
      assert Appended(log, ms, fits) == Lines(all);
      assert all[|ls| + k] == Overlong;
      assert ScanEnd(all) < |all|;
    }
  }

  /** Messages that fit are read back as they were appended. */
  lemma {:induction false} RecordsEncoded(ms: seq<Message>, fits: Message -> bool)
    requires AllFit(ms, fits)
    ensures Records(Encoded(ms, fits)) == ms
  {
    if ms != [] {
      var init := ms[..|ms| - 1];
      RecordsEncoded(init, fits);
      assert Encoded(ms, fits)[..|ms| - 1] == Encoded(init, fits);
    }
  }

  /** A log that reads without error reads, after appending messages that fit, as before followed by them. */
  lemma ReadAppended(log: LogFile, ms: seq<Message>, fits: Message -> bool)
    requires ReadLog(log).1.None? && AllFit(ms, fits)
    ensures ReadLog(Appended(log, ms, fits)) == (ReadLog(log).0 + ms, None)
  {
    RecordsEncoded(ms, fits);
    if log.Missing? {
      assert Records([]) == [];
      if ms != [] {
        var more := Encoded(ms, fits);
        assert [] + more == more;
        ScanEndPastRecords([], more);
        assert more[..|more|] == more;
        assert ReadLog(Lines(more)).0 == Records(more) == ms;
        assert ReadLog(log).0 + ms == ms;
      } else {
        assert ReadLog(log).0 + ms == [];
      }
    } else {
      var ls := log.lines;
      var more := Encoded(ms, fits);
      assert ScanEnd(ls) == |ls| && ls[..|ls|] == ls;
      ScanEndPastRecords(ls, more);
      assert (ls + more)[..|ls + more|] == ls + more;
      RecordsAppend(ls, more);
    }
  }

  /**
   * On a log that reads without error, appending messages that fit signals
   * an agent exactly when the log already did or one of the new messages
   * is a rebase request for it after `since`.
   */
  lemma SignalledAfterAppend(log: LogFile, ms: seq<Message>, fits: Message -> bool, agent: string, since: Time)
    requires ReadLog(log).1.None? && AllFit(ms, fits)
    ensures RebaseSignalled(Appended(log, ms, fits), agent, since) <==>
              RebaseSignalled(log, agent, since) || exists m :: m in Since(ms, since) && IsRebaseFor(m, agent)
  {
    ReadAppended(log, ms, fits);
    SinceAppend(ReadLog(log).0, ms, since);
  }

  lemma {:induction false} ScanEndPastRecords(ls: seq<LogLine>, more: seq<LogLine>)
    requires ScanEnd(ls) == |ls|
    requires forall k :: 0 <= k < |more| ==> more[k].Record?
    ensures ScanEnd(ls + more) == |ls + more|
  {
    var all := ls + more;
    forall k | 0 <= k < |all| ensures !all[k].Overlong? {
      if k < |ls| {
        assert all[k] == ls[k];
      } else {
        assert all[k] == more[k - |ls|];
      }
    }
  }

  /** The bus of one namespace: its `messages.jsonl`. */
  class MessageBus {
    var log: LogFile
    /** Whether a message's encoded line fits the reader's 64 KiB line limit. */
    const fits: Message -> bool

    constructor (log: LogFile, fits: Message -> bool)
      ensures this.log == log && this.fits == fits
    {
      this.log := log;
      this.fits := fits;
    }

    /**
     * `Publish`: stamp the message with the current time, whatever it
     * carried, and append it as one line; a log that cannot be opened is an
     * error.
     */
    method Publish(msg: Message, now: Time) returns (err: Option<BusError>)
      modifies this
      ensures err.Some? <==> old(log).Unopenable?
      ensures err.Some? ==> err.value == OpenFailed
      ensures log == Appended(old(log), [msg.(timestamp := now)], fits)
    {
      var stamped := msg.(timestamp := now);
      var line := if fits(stamped) then Record(stamped) else Overlong;
      assert Encoded([stamped], fits) == [line];
      match log
      case Unopenable =>
        err := Some(OpenFailed);
      case Missing =>
        log := Lines([line]);
        err := None;
      case Lines(ls) =>
        log := Lines(ls + [line]);
        err := None;
    }

    /**
     * `ReadMessages`: every decoded message in log order. A missing log reads
     * as empty; blank and malformed lines are skipped; an overlong line ends
     * the scan with an error, keeping what was read before it.
     */
    method ReadMessages() returns (msgs: seq<Message>, err: Option<BusError>)
      ensures (msgs, err) == ReadLog(log)
      ensures log.Missing? ==> msgs == [] && err.None?
      ensures forall m :: m in msgs ==> log.Lines? && Record(m) in log.lines
    {
      match log
      case Missing => return [], None;
      case Unopenable => return [], Some(OpenFailed);
      case Lines(ls) =>
        msgs := [];
        var i := 0;
        while i < |ls| && !ls[i].Overlong?
          invariant 0 <= i <= ScanEnd(ls)
          invariant msgs == Records(ls[..i])
          decreases |ls| - i
        {
          assert ls[..i + 1][..i] == ls[..i];
          if ls[i].Record? {
            msgs := msgs + [ls[i].msg];
          }
          i := i + 1;
        }
        err := if i < |ls| then Some(ScanFailed) else None;
        RecordsMembersAll(ls[..i]);
        forall m | m in msgs ensures Record(m) in ls {
          assert Record(m) in ls[..i];
        }
    }

    /** `ReadMessagesSince`: the messages stamped strictly after `since`, in log order. */
    method ReadMessagesSince(since: Time) returns (r: Result<seq<Message>, BusError>)
      ensures ReadLog(log).1.Some? <==> r.Err?
      ensures r.Err? ==> r.error == ReadLog(log).1.value
      ensures r.Ok? ==> r.value == Since(ReadLog(log).0, since)
      ensures r.Ok? ==> forall m :: m in r.value <==> m in ReadLog(log).0 && m.timestamp > since
    {
      var all, err := ReadMessages();
      if err.Some? {
        return Err(err.value);
      }
      var filtered := [];
      for i := 0 to |all|
        invariant filtered == Since(all[..i], since)
      {
        assert all[..i + 1][..i] == all[..i];
        if all[i].timestamp > since {
          filtered := filtered + [all[i]];
        }
      }
      assert all[..|all|] == all;
      forall m ensures m in filtered <==> m in all && m.timestamp > since {
        SinceMembers(all, since, m);
      }
      r := Ok(filtered);
    }

    /** `ReadMessagesForAgent`: the agent's own messages and those relevant to it, in log order. */
    method ReadMessagesForAgent(agent: string) returns (r: Result<seq<Message>, BusError>)
      ensures ReadLog(log).1.Some? <==> r.Err?
      ensures r.Err? ==> r.error == ReadLog(log).1.value
      ensures r.Ok? ==> r.value == ForAgent(ReadLog(log).0, agent)
      ensures r.Ok? ==> forall m :: m in r.value <==>
                m in ReadLog(log).0 && (m.agent == agent || IsRelevantToAgent(m, agent))
    {
      var all, err := ReadMessages();
      if err.Some? {
        return Err(err.value);
      }
      var filtered := [];
      for i := 0 to |all|
        invariant filtered == ForAgent(all[..i], agent)
      {
        assert all[..i + 1][..i] == all[..i];
        if all[i].agent == agent || IsRelevantToAgent(all[i], agent) {
          filtered := filtered + [all[i]];
        }
      }
      assert all[..|all|] == all;
      forall m ensures m in filtered <==> m in all && (m.agent == agent || IsRelevantToAgent(m, agent)) {
        ForAgentMembers(all, agent, m);
      }
      r := Ok(filtered);
    }

    /**
     * `HasRebaseNeeded`: some message after `since` is a rebase request for
     * this agent, targeted at it or untargeted. A failed read reports false
     * with the error.
     */
    method HasRebaseNeeded(agent: string, since: Time) returns (needed: bool, err: Option<BusError>)
      ensures err == ReadLog(log).1
      ensures needed <==> RebaseSignalled(log, agent, since)
    {
      var r := ReadMessagesSince(since);
      if r.Err? {
        return false, Some(r.error);
      }
      var msgs := r.value;
      var i := 0;
      while i < |msgs|
        invariant 0 <= i <= |msgs|
        invariant forall k :: 0 <= k < i ==> !IsRebaseFor(msgs[k], agent)
      {
        var msg := msgs[i];
        if msg.kind == MsgRebaseNeeded {
          if "target" in msg.data && msg.data["target"] == agent {
            return true, None;
          }
          if "target" !in msg.data {
            return true, None;
          }
        }
        i := i + 1;
      }
      return false, None;
    }
  }

  lemma RecordsMembersAll(lines: seq<LogLine>)
    ensures forall m :: m in Records(lines) ==> Record(m) in lines
  {
    forall m | m in Records(lines) ensures Record(m) in lines {
      RecordsMembers(lines, m);
    }
  }
}
