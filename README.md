# agentctl coordination and supervision core, in Dafny

agentctl runs coding agents in containers. Several agents may work on the same
repository, so they share a per-repository **coordination namespace**: a
directory `~/.agentctl/coordination/<hash>/`. It holds three stores:

- a claim registry (`claims.json`): which agent holds which file;
- an append-only message bus (`messages.jsonl`);
- an agent state table (`state.json`).

The **supervisor** (`RunUntilDone`) keeps one agent working, attempt after
attempt, until its tests pass and its work tree is clean. It takes part in
coordination while it does so:

- it marks the agent "working";
- it appends a rebase note to the task when another agent has asked for a rebase;
- at the end it marks the agent "done" (releasing its claims and saving a history record) or "blocked".

Around this core sit:

- **transcript rendering** for `spy`: truncation, tool summaries, and which content blocks are shown in each mode;
- **lifecycle classification** and the three cleanup sweeps;
- the **command-line parsing** of `spawn`, `run`, `check`, `list`, `spy`, `notify` and `bus`.

The project has one module per source file:

| module | models |
|---|---|
| `CoordinationDir` (coordination.dfy) | namespace hashing, `CoordDir`, `Init` over a `Disk` class |
| `Bus` (bus.dfy) | messages, the relevance rule, the `MessageBus` class |
| `Claims` (claims.dfy) | the claim table and the `ClaimRegistry` class |
| `States` (states.dfy) | the state table and the `StateTable` class |
| `Supervisor` (supervisor.dfy) | `getStatus`, prompts, quoting, the `RunUntilDone` loop |
| `Spy` (spy.dfy) | `truncate`, `toolSummary`, the text, JSON and progress views, the line loop |
| `Lifecycle` (lifecycle.dfy) | classification, history, `Cleanup` on a `Host` class, the sweeps |
| `Cli` (cli.dfy) | argument parsing of the commands above |
| `Stores`, `Wrappers`, `Text` | the store-file states, `Option`/`Result`, and the Go `strings` functions used |

Modelling conventions:

- **Stores.** A JSON store file is `Stored<T>`: `Absent`, `Unreadable`, `Unparsable`, `Null` or `Present(value)`. This is exactly what the loaders distinguish.
- **Bus log.** A log line is `Blank`, `Malformed`, `Record(message)` or `Overlong`; an overlong line stops the Go line scanner with an error. Whether a published message's encoded line fits the scanner's 64 KiB limit is the bus's `fits` parameter, because the JSON encoding is not modelled; a message that does not fit is written as an `Overlong` line.
- **Time.** An integer; `time.Now()` is a parameter.
- **Environment.** SHA-256, the home directory, the container runtime (`podman exec`, `podman inspect`), JSON decoding of transcript lines and session discovery are all parameters (oracles).
- **Integers.** Dafny's integers are unbounded. The one place where Go's width matters is `strconv.Atoi`, and `Cli.Atoi` keeps its int64 range check.

## Model

| member | source | states |
|---|---|---|
| CoordinationDir.HexEncode | pkg/coordination/coordination.go:69 | hex encoding yields two lower-case hex digits per byte |
| CoordinationDir.HexDecode | pkg/coordination/coordination.go:69 | the inverse of the hex encoding: a decoded text has half as many bytes as characters |
| CoordinationDir.HexRoundTrip | pkg/coordination/coordination.go:69 | decoding the hex encoding of any byte string gives it back, so the encoding loses nothing |
| CoordinationDir.HexEncodePrefix | pkg/coordination/coordination.go:69 | the first 2n characters of the encoding are the encoding of the first n bytes |
| CoordinationDir.RepoHash | pkg/coordination/coordination.go:67-70 | the repository hash is exactly 12 lower-case hex characters, and it decodes to the first 6 bytes of the URL's digest |
| CoordinationDir.CoordDir | pkg/coordination/coordination.go:16-24 | no home directory is an error; otherwise the namespace is `<home>/.agentctl/coordination/<repoHash(url)>` |
| CoordinationDir.SameNamespaceIffSameHash | pkg/coordination/coordination.go:21-23 | two URLs resolve to the same namespace exactly when their repository hashes are equal |
| CoordinationDir.StorePathsDistinct | pkg/coordination/coordination.go:39-55 | the three store paths differ from each other and from the namespace directory |
| CoordinationDir.Disk.MkdirAll | pkg/coordination/coordination.go:34-36 | creating the directory succeeds exactly when it already exists, or nothing is at the path and it may be created (a regular file there fails, as ENOTDIR); it adds only that directory and touches no file |
| CoordinationDir.Disk.CreateIfAbsent | pkg/coordination/coordination.go:40-44 | the file is written with the given text only when `os.Stat` reports it absent, and the step fails only when that write is denied; an existing path, or one whose `os.Stat` fails otherwise, is passed over successfully |
| CoordinationDir.CreateStores | pkg/coordination/coordination.go:38-63 | on success every store exists or is one on which `os.Stat` failed otherwise than by absence, so all three exist when no such failure occurred; otherwise a write error is returned; no file appears at a path whose `os.Stat` fails; only absent stores are created, with their empty contents, and no existing file changes |
| CoordinationDir.Init | pkg/coordination/coordination.go:28-64 | fails without a home directory, with a regular file at the namespace path, or with a refused directory or store write; on success returns the namespace directory, with every store present except one on which `os.Stat` failed otherwise than by absence, which is passed over as the source does; never changes an existing file; changes nothing and returns the same directory when already initialised |
| Bus.RelevanceRule | pkg/coordination/bus.go:155-166 | pushes and merges are relevant to everyone; a rebase request is relevant when untargeted or targeted at the agent; every other type is not relevant |
| Bus.ScanEnd | pkg/coordination/bus.go:137-150 | the scan stops at the first overlong line, or reads every line |
| Bus.RecordsAppend | pkg/coordination/bus.go:137-150 | reading concatenated log lines gives the concatenation of the messages read, so append order is kept |
| Bus.RecordsMembers | pkg/coordination/bus.go:139-148 | a message is read exactly when it is a decodable line of the log; blank and malformed lines are skipped |
| Bus.SinceAppend | pkg/coordination/bus.go:76-82 | the time filter distributes over concatenation, so it keeps the log order |
| Bus.SinceMembers | pkg/coordination/bus.go:76-82 | a message passes the time filter exactly when its timestamp is strictly after the given time |
| Bus.ForAgentMembers | pkg/coordination/bus.go:92-99 | a message is kept for an agent exactly when the agent wrote it or it is relevant to the agent |
| Bus.ForAgentAppend | pkg/coordination/bus.go:92-99 | the per-agent filter distributes over concatenation, so it keeps the log order |
| Bus.TargetedElsewhereIsIgnored | pkg/coordination/bus.go:92-99 | a rebase request targeted at another agent reaches this agent only if this agent wrote it |
| Bus.RebaseSignalPersists | pkg/coordination/bus.go:104-123 | appending messages that fit the line limit never withdraws a rebase request already in the log |
| Bus.OverlongWithdraws | pkg/coordination/bus.go:137-150 | appending a message too long for the line scanner makes every later read of the log fail with a scan error, so no rebase request is seen any more |
| Bus.ReadAppended | pkg/coordination/bus.go:125-151 | a log that reads without error reads, after appending messages that fit, as before followed by those messages in order |
| Bus.SignalledAfterAppend | pkg/coordination/bus.go:104-123 | on a log that reads without error, appending messages that fit signals an agent exactly when the log already did or a new message is a rebase request for it after the given time |
| Bus.AppendedTwice | pkg/coordination/bus.go:34-57 | publishing in two steps appends the concatenation |
| Bus.MessageBus.Publish | pkg/coordination/bus.go:34-57 | a log that cannot be opened is an error and is unchanged; otherwise exactly one line is appended, holding the message with the caller's timestamp replaced by now, or an overlong line when its encoding does not fit the reader's limit |
| Bus.MessageBus.ReadMessages | pkg/coordination/bus.go:125-151 | a missing log reads as empty; every message returned is a decodable line of the log, in log order |
| Bus.MessageBus.ReadMessagesSince | pkg/coordination/bus.go:70-83 | the messages after the given time, in order, or the read error |
| Bus.MessageBus.ReadMessagesForAgent | pkg/coordination/bus.go:86-100 | the messages the agent wrote or that are relevant to it, in order, or the read error |
| Bus.MessageBus.HasRebaseNeeded | pkg/coordination/bus.go:104-123 | true exactly when a rebase request relevant to the agent has a timestamp after the given time |
| Claims.LoadClaims | pkg/coordination/claims.go:148-167 | a missing or `null` file is the empty table; an unreadable or unparsable file is an error |
| Claims.Claimed | pkg/coordination/claims.go:34-47 | a path held by another agent is a conflict naming the holder and time, with the table unchanged; a path held by the caller is unchanged; a free path gets exactly the caller's claim; other entries are kept, and so is every entry's key matching its file |
| Claims.Released | pkg/coordination/claims.go:74-85 | release by a non-holder is refused with the table unchanged; otherwise the path is gone and only it is removed |
| Claims.WithoutAgent | pkg/coordination/claims.go:139-143 | exactly the entries held by other agents remain, unchanged |
| Claims.ReleaseUndoesClaim | pkg/coordination/claims.go:23-97 | claiming a free path and then releasing it restores the table, with no error |
| Claims.ClaimIdempotent | pkg/coordination/claims.go:39-40 | claiming a path the caller already holds changes nothing, whatever the time |
| Claims.SecondClaimantRefused | pkg/coordination/claims.go:34-38 | after one agent claims a free path, another agent's claim of it fails with a conflict |
| Claims.WithoutAgentIdempotent | pkg/coordination/claims.go:139-143 | after a bulk release the agent holds nothing, and a second bulk release changes nothing |
| Claims.ClaimRegistry.ClaimFile | pkg/coordination/claims.go:23-59 | a load error is returned with nothing changed; a conflict changes neither table nor bus; a new claim is saved and announced by exactly one `claim` message, or the publish failure is returned; a re-claim publishes nothing |
| Claims.ClaimRegistry.ReleaseFile | pkg/coordination/claims.go:63-97 | a load error or a non-holder changes nothing; an unclaimed path is a silent success; the holder's release removes the key and announces one `release` message |
| Claims.ClaimRegistry.ListClaims | pkg/coordination/claims.go:100-106 | the loaded table; a missing file lists no claims |
| Claims.ClaimRegistry.IsFileClaimed | pkg/coordination/claims.go:110-125 | claimed exactly when the path is in the table, with its holder; otherwise the holder is "" |
| Claims.ClaimRegistry.ReleaseAllForAgent | pkg/coordination/claims.go:128-146 | the saved table is the loaded one without the agent's entries; no message is published |
| States.LoadState | pkg/coordination/state.go:75-94 | a missing file or a `null` agents map reads as an empty table; an unreadable or unparsable file is an error |
| States.Upserted | pkg/coordination/state.go:37-43 | the agent's record is replaced wholesale by {name, branch, status, now}; other agents are unchanged; the last-updated marker is set; names keep matching their keys |
| States.Removed | pkg/coordination/state.go:60-61 | only the agent's key is removed, and removing an absent agent still succeeds; the marker is set; names keep matching their keys |
| States.LastWriteWins | pkg/coordination/state.go:37-42 | of two updates of one agent, only the second is visible |
| States.RemoveAfterUpdate | pkg/coordination/state.go:37-61 | removing an agent cancels an earlier update of it |
| States.SavedStateReloads | pkg/coordination/state.go:96-103 | a saved state loads back as the same state |
| States.StateTable.UpdateAgentState | pkg/coordination/state.go:26-46 | a load error is returned with the file unchanged; otherwise the stored state becomes the upsert of the loaded one |
| States.StateTable.RemoveAgentState | pkg/coordination/state.go:49-64 | a load error is returned with the file unchanged; otherwise the stored state becomes the removal from the loaded one |
| States.StateTable.GetState | pkg/coordination/state.go:67-73 | the loaded state; a missing file reads as the empty state |
| Supervisor.TestStatusUnknownIff | pkg/container/supervisor.go:143-192 | the test status is "unknown" exactly when no runner is present, and otherwise "pass" or "fail" |
| Supervisor.FirstPresentDecides | pkg/container/supervisor.go:178-192 | the first present runner decides: "pass" exactly when its output contains `EXIT_CODE:0`, else "fail" |
| Supervisor.GetStatus | pkg/container/supervisor.go:142-200 | uncommitted changes exactly when `git status` prints something; the test status as the runner rule says; the agent CLI's liveness from the process listing |
| Supervisor.RecapPromptShape | pkg/container/supervisor.go:70-80 | a later attempt's prompt reports the previous test status and uncommitted flag and ends with the original task and the closing instruction |
| Supervisor.WithNotesGrows | pkg/container/supervisor.go:61-66 | the task keeps its text and grows by one rebase note per signalled attempt |
| Supervisor.EscapeRoundTrip | pkg/container/supervisor.go:204 | undoing the shell quoting of the escaped prompt gives back the prompt |
| Supervisor.ClaudeCommandQuotesPrompt | pkg/container/supervisor.go:204-207 | the agent command is the fixed head, one quoted word and the fixed tail, and the shell reads that word as exactly the prompt |
| Supervisor.Budget | pkg/container/supervisor.go:34-36 | a budget of 0 means 10 attempts, a positive budget is used as given, and a negative one allows none |
| Supervisor.PromptsFor | pkg/container/supervisor.go:69-80 | one prompt per attempt |
| Supervisor.PromptsForAt | pkg/container/supervisor.go:61-80 | attempt k's prompt is built from the task carrying the notes of attempts 1..k |
| Supervisor.MonotoneMeans | pkg/container/supervisor.go:61-66 | for monotone signals (those of a run while everything published fits the bus reader, see `SignalsWhileFit`), once an attempt sees a rebase request every later attempt sees it too |
| Supervisor.SignalsReadMeans | pkg/container/supervisor.go:61-66 | signal k is true exactly when coordination is on and the bus, as attempts 1..k left it, holds a rebase request for the agent stamped after the loop start |
| Supervisor.SignalsOff | pkg/container/supervisor.go:61-66 | without coordination no attempt sees a rebase request, so no note is added |
| Supervisor.SignalKept | pkg/container/supervisor.go:61-66 | while everything published fits the bus reader, a request on the bus after attempt i is still seen after any later attempt, because the check always looks back to the fixed loop start |
| Supervisor.SignalsWhileFit | pkg/container/supervisor.go:61-66 | while everything published before the last check fits the reader, a request once seen is seen by every later attempt, and a request on the bus at the start gives every attempt a note |
| Supervisor.MonotoneFromOrder | pkg/container/supervisor.go:61-66 | signals that never go from seen to unseen satisfy the step-by-step monotonicity the loop is stated with |
| Supervisor.FirstTwoSignals | pkg/container/supervisor.go:61-66 | the first two attempts' checks read the bus at the start and after attempt 1 |
| Supervisor.SecondPrompt | pkg/container/supervisor.go:61-80 | after a first attempt without a note, attempt 2's prompt is the recap on the task with attempt 2's note, if any |
| Supervisor.StatusOutcome | pkg/container/supervisor.go:90-101 | the loop's statuses are those observed after each attempt; none but the last is complete, and the last is complete exactly when the loop finished early |
| Supervisor.SignalOutcome | pkg/container/supervisor.go:61-80 | the loop's prompts, its signals as read from the bus, the bus it leaves, and what the signals add up to |
| Supervisor.RequestReachesNextAttempt | pkg/container/supervisor.go:61-80 | a rebase request another agent publishes during attempt 1, on a bus that held none, puts the note into attempt 2's prompt exactly when it is untargeted or aimed at this agent; one aimed at a third agent does not |
| Supervisor.OneRequestArrives | pkg/coordination/bus.go:104-123 | the bus after attempt 1 signals the agent exactly when the one request that arrived is for it |
| Supervisor.PublishAll | pkg/coordination/bus.go:34-57 | the messages other agents publish during an attempt are appended to the bus in order, stamped with the attempt's instant |
| Supervisor.SetUpCoordination | pkg/container/supervisor.go:39-47 | coordination is on exactly when the agent's metadata names a repository and `Init` succeeds; an `Init` failure turns it off without aborting; a missing repository leaves the disk untouched |
| Supervisor.RebaseCheck | pkg/container/supervisor.go:60-66 | with coordination on, the note is added exactly when the bus holds a rebase request for the agent since the loop start; a failed read counts as none |
| Supervisor.MarkWorking | pkg/container/supervisor.go:55-58 | with coordination on, the agent's state becomes "working" at the attempt's time |
| Supervisor.Attempt | pkg/container/supervisor.go:56-97 | the rebase check sees exactly the requests on the bus since the loop start; the task grows by the note when it does; the prompt and the observed status are those of this attempt; the bus ends with the attempt's arrivals appended |
| Supervisor.Attempts | pkg/container/supervisor.go:51-126 | the loop runs at most the budget; it stops at the first complete status, with no earlier one complete; otherwise it uses the whole budget with none complete; each attempt's signal is read from the bus as the earlier attempts left it, and the bus ends with every attempt's arrivals appended |
| Supervisor.FinishDone | pkg/container/supervisor.go:100-120 | the state becomes "done", the agent's claims are released, and a success record with the attempt count is saved |
| Supervisor.FinishBlocked | pkg/container/supervisor.go:128-131 | the state becomes "blocked" and the claims are kept |
| Supervisor.Finish | pkg/container/supervisor.go:96-134 | the result fields follow the last status; completion returns no error; exhaustion returns the budget error and "max attempts reached" |
| Supervisor.Supervise | pkg/container/supervisor.go:49-134 | the attempt loop and its ending, with every property of `RunUntilDone` for a settled coordination choice, including each signal read from the bus as the earlier attempts left it |
| Supervisor.RunUntilDone | pkg/container/supervisor.go:31-135 | attempts never exceed the budget; the run ends at the first complete status or with the whole budget; attempt k's prompt carries a rebase note for each earlier or current attempt whose check found a request on the bus as the attempts before it left it; the end state is "done" (claims released, success recorded) or "blocked" (claims kept, error returned) |
| Spy.SingleLine | pkg/container/spy.go:346-347 | the collapsed text has no newline, is no longer than the input, and neither starts nor ends with white space |
| Spy.Truncate | pkg/container/spy.go:344-352 | the result has no newline and at most max+3 characters; a collapsed text within max is returned whole; otherwise its first max characters are followed by "..." |
| Spy.TruncateIdempotent | pkg/container/spy.go:344-352 | truncating a truncated text again changes nothing |
| Spy.ToolSummary | pkg/container/spy.go:249-279 | the per-tool choice of field: the file path, the pattern, the URL, the command truncated to 100, the query or content truncated to 80; unknown tools prefer the file path, then the command, then the encoded input; a truncated summary is one line of bounded length |
| Spy.BlockOutput | pkg/container/spy.go:214-237 | a block yields one item exactly when it is visible under the role and options |
| Spy.TextOutput | pkg/container/spy.go:213-238 | one item per visible block; the tool calls shown are exactly those of the message, in order |
| Spy.TextOutputHides | pkg/container/spy.go:213-237 | text is never shown under tools-only or for a non-assistant role; thinking needs the thinking option; tool results need the verbose option |
| Spy.RenderBlock | pkg/container/spy.go:214-237 | the items for one block, as the text view defines them |
| Spy.RenderMessage | pkg/container/spy.go:207-239 | the loop emits exactly the text view of the message's blocks |
| Spy.EventFor | pkg/container/spy.go:318-334 | each kept block becomes one JSON event of the block's own type |
| Spy.JsonOutput | pkg/container/spy.go:307-337 | one event per kept block; the tool calls shown are exactly those of the message, in order |
| Spy.JsonOutputKinds | pkg/container/spy.go:307-316 | everything emitted is an event; tools-only emits only tool calls; thinking needs the thinking option; tool results need the verbose option |
| Spy.RenderEvent | pkg/container/spy.go:318-336 | the event for one block, as the JSON view defines it |
| Spy.RenderJson | pkg/container/spy.go:302-338 | a line without a message emits nothing; otherwise the loop emits exactly the JSON view |
| Spy.RenderProgress | pkg/container/spy.go:281-300 | nothing under tools-only or when the progress data does not decode; otherwise a running line for bash progress, a hook line for hook progress, and other kinds only when verbose |
| Spy.LineOutput | pkg/container/spy.go:182-205 | an undecodable line is echoed; the JSON option takes precedence and emits only events; tools-only progress emits nothing; other lines show only when verbose |
| Spy.RenderLine | pkg/container/spy.go:182-205 | the items for one line, as the line dispatch defines them |
| Spy.NonBlank | pkg/container/spy.go:109-111 | the kept lines are lines of the input that are not blank |
| Spy.Echoes | pkg/container/spy.go:113-116 | raw mode echoes each line verbatim, in order |
| Spy.StreamOutputAppend | pkg/container/spy.go:107-119 | the output of a concatenated stream is the concatenation of the outputs |
| Spy.BlankLinesSkipped | pkg/container/spy.go:109-111 | blank lines contribute nothing: the stream's output is that of its non-blank lines |
| Spy.RawModeEchoes | pkg/container/spy.go:113-116 | in raw mode the output is the non-blank lines echoed verbatim |
| Spy.ScanLimit | pkg/container/spy.go:103-107 | the scanner yields the lines before the first one of 1 MiB or more, and stops there |
| Spy.LongLineEndsStream | pkg/container/spy.go:103-107 | lines that fit are all yielded; nothing after the first line too long to scan is |
| Spy.Stream | pkg/container/spy.go:103-119 | the scanning loop emits exactly the stream view of the lines up to the first one too long to scan |
| Spy.Spy | pkg/container/spy.go:70-122 | a container that is not found, not running, or whose session cannot be found is an error of that kind; otherwise the output is the stream view of the session lines up to the first one too long to scan |
| Lifecycle.Classify | pkg/container/lifecycle.go:133-150 | running with the agent CLI is active, running without it is completed, exited is exited, anything else is stopped; the container is up exactly when it is running |
| Lifecycle.ShownStatus | pkg/container/lifecycle.go:152-155 | the shown status is the inspected one, or "stopped" when that is empty |
| Lifecycle.Enrich | pkg/container/lifecycle.go:124-155 | a listed agent keeps its metadata except the status; its lifecycle and up flag follow the classification; its age is now minus its creation time |
| Lifecycle.ListWithState | pkg/container/lifecycle.go:111-160 | the loop lists exactly the decodable `.json` entries, enriched, in directory order |
| Lifecycle.HistoriesMembers | pkg/container/lifecycle.go:75-88 | a record is listed exactly when some `.json` entry decodes to it; other entries are skipped |
| Lifecycle.ListHistory | pkg/container/lifecycle.go:66-90 | a missing directory lists nothing; an unreadable one is an error; otherwise the decodable `.json` records in order |
| Lifecycle.Host.SaveHistory | pkg/container/lifecycle.go:41-50 | the record is stored under its name exactly when the history directory is writable |
| Lifecycle.Host.Cleanup | pkg/container/lifecycle.go:163-194 | an unknown agent is an error; if the history cannot be saved nothing is removed; otherwise the history is saved first, then the container is stopped and removed and the metadata deleted |
| Lifecycle.Swept | pkg/container/lifecycle.go:204-212 | only known agents are ever reported as swept |
| Lifecycle.SweptAreSelected | pkg/container/lifecycle.go:204-212 | every swept agent is one the sweep selects |
| Lifecycle.SweepRemovesAllSelected | pkg/container/lifecycle.go:204-212 | with a writable history, the swept names are exactly the selected ones, in listing order |
| Lifecycle.SweepNeedsHistory | pkg/container/lifecycle.go:206-209 | when history cannot be saved, every cleanup fails and nothing is swept |
| Lifecycle.StaleIsAgedPrune | pkg/container/lifecycle.go:245 | the stale sweep selects what prune selects, restricted to ages above the grace period; an active agent is never selected by any sweep |
| Lifecycle.SweepListed | pkg/container/lifecycle.go:203-213 | the loop cleans the selected agents in order, skips failures, and records each with the sweep's result |
| Lifecycle.PruneAgents | pkg/container/lifecycle.go:197-214 | the pruned names are the exited and stopped agents successfully cleaned; exactly those leave the metadata and the containers, the rest is unchanged, and each gets a "pruned" history record |
| Lifecycle.CleanupCompleted | pkg/container/lifecycle.go:217-234 | the cleaned names are the completed agents older than the grace period successfully cleaned; exactly those leave the metadata and the containers, and each gets a "success" history record |
| Lifecycle.CleanupStale | pkg/container/lifecycle.go:237-254 | the cleaned names are the exited and stopped agents older than the grace period successfully cleaned; exactly those leave the metadata and the containers, and each gets a "stale" history record |
| Cli.Atoi | cmd/agentctl/main.go:48 | a parsed number is in the int64 range and the text is an optional sign followed by digits; empty text or a bare sign does not parse |
| Cli.AtoiItoa | cmd/agentctl/main.go:48 | every int64 written in decimal parses back to itself |
| Cli.ParseSpawn | cmd/agentctl/main.go:21-29 | fewer than two operands is a usage error; the branch is "main" unless a third operand is given |
| Cli.ParseRun | cmd/agentctl/main.go:37-51 | fewer than two operands is a usage error; the attempts are 10 unless the third operand parses as an integer |
| Cli.RunTakesWrittenAttempts | cmd/agentctl/main.go:46-51 | any int64 written as the third operand becomes the attempt budget |
| Cli.CheckVerdict | cmd/agentctl/main.go:77-81 | `check` reports complete exactly when the supervisor's completion rule holds |
| Cli.ListIndicator | cmd/agentctl/main.go:98-103 | done when complete, else working when the agent CLI runs, else pending |
| Cli.LastPlain | cmd/agentctl/main.go:149-153 | the name is the last argument not starting with `--`, or "" when there is none |
| Cli.ParseSpyArgs | cmd/agentctl/main.go:137-154 | the loop sets each option exactly when its flag appears and takes the last plain argument as the name |
| Cli.ParseSpy | cmd/agentctl/main.go:130-158 | no operand or no plain argument is a usage error; otherwise the name and options from the loop |
| Cli.SplitPair | cmd/agentctl/main.go:280-281 | an argument without `=` gives nothing; otherwise it splits at its first `=`, so the value may contain `=` |
| Cli.SplitJoin | cmd/agentctl/main.go:280-282 | a key without `=`, joined to any value, splits back into that key and value |
| Cli.DataOf | cmd/agentctl/main.go:278-284 | the data's keys are exactly the keys of the arguments that contain `=` |
| Cli.DataOfLastWins | cmd/agentctl/main.go:279-284 | a key takes the value of its last occurrence |
| Cli.ParseData | cmd/agentctl/main.go:278-284 | the loop builds exactly the data map of the arguments |
| Cli.ParseNotify | cmd/agentctl/main.go:266-284 | fewer than three operands is a usage error; otherwise agent, repository, type and the data of the remaining arguments |
| Cli.ParseBusFlags | cmd/agentctl/main.go:312-330 | each view is shown when its flag is given, or when none of the three is; unknown arguments are ignored; at least one view is shown |
| Cli.ParseBus | cmd/agentctl/main.go:303-330 | no operand is a usage error; otherwise the repository and the views |
| Cli.Recent | cmd/agentctl/main.go:364-368 | the window holds the last min(20, n) messages in log order |
| Cli.RecentSlides | cmd/agentctl/main.go:364-368 | a new message joins the window, and once it is full the oldest one drops out |

## Left out

- Concurrency: each coordination operation is one atomic step. The unsynchronised load-modify-save races between processes are not modelled.
- Namespace resolution in each store operation: every function in `claims.go`, `bus.go` and `state.go` first calls `CoordDir`. Its only failure, a missing home directory, is modelled once, in `CoordDir` and `Init`. The store classes start from the resolved store.
- Write failures after a successful load (saving claims or state, writing a published line) are not modelled.
- Bus.MessageBus.Publish: a log whose last line lacks its newline (written by something other than `Publish`) is not modelled; there the source would join the new message to that line. A message log that cannot be opened is modelled: `Publish` fails, and a claim or release that was already saved returns that failure, as the source does.
- CoordinationDir.Init, CoordinationDir.CreateStores, CoordinationDir.Disk.CreateIfAbsent: success promises all three stores only when `os.Stat` fails on none of them for a reason other than absence (`StatsClean`); otherwise the source passes over such a store and still returns the directory, and the model says exactly that (`Prepared`).
- CoordinationDir.Disk.MkdirAll: the namespace directory is one path. Missing ancestors are created with it, and a regular file at an ancestor (where `os.MkdirAll` also fails with ENOTDIR) is not modelled; only a file at the path itself is.
- SHA-256 and `os.UserHomeDir` are parameters. Only the hex encoding and the 12-character prefix are modelled. `filepath.Join` cleaning is modelled as joining with "/" onto a non-empty home.
- JSON encoding and decoding are left out. Store contents are decoded values; a transcript line's decoding is the `parse` parameter; the fallback summary of an unknown tool's input is the `marshal` parameter.
- Spy.Truncate, Spy.SingleLine, Spy.ToolSummary, Spy.NonBlank, Spy.ScanLimit: strings are single-byte characters and white space is the ASCII set. Unicode white space in `strings.TrimSpace`, cutting a multi-byte character in `truncate`, and line lengths counted in bytes rather than characters are not modelled.
- Output formatting is left out: the `ts()` timestamps, ANSI escapes, emoji, column widths and the RFC 3339 layout. The text and JSON views are abstract items. A text item carries the truncated text; a JSON event carries the untruncated text, as the source does.
- Spy.Spy: session discovery (`discoverSessionFile`) is the `session` parameter, because it depends on Go map iteration order and container commands. The pipe, start and wait errors of the `tail` process are not modelled, and neither is the wait for `tail -f` after the scanner stops at an overlong line.
- The sleeps in `RunUntilDone`, its console output, and the output of the agent CLI are left out. The CLI's errors are ignored by the source and have no effect in the model.
- Supervisor.Supervise and Supervisor.RunUntilDone: the container is an oracle per observation, and messages other agents publish during an attempt are a parameter. Errors of the state updates and of `SaveHistory` are ignored by the source and have no effect on the result in the model. A failed bus read in `HasRebaseNeeded` is ignored too, and reads as no rebase request. No other process writes `claims.json` or `state.json` during a run: the source reloads both tables at each update and at the final release, so entries other agents write meanwhile survive, whereas the model states the end tables relative to the tables at the start of the run.
- Lifecycle: `podman inspect` and the process listing are oracles. `LoadHistory` (lifecycle.go:53-63) is a plain read-and-decode with no rule of its own and is not modelled. Cleanup's removals are modelled as succeeding, because the source ignores their errors.
- `pkg/container/agent.go` is not part of this model. The agent metadata lookup is the `Host.agents` map.
- Commands other than `spawn`, `run`, `check`, `list`, `spy`, `notify` and `bus` are not modelled (`kill`, `status`, `logs`, `shell`, `diagnose` and the claim, release and history commands). The modelled commands stop at the parsed request; the operations they call are modelled in their own modules.
