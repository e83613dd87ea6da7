/**
 * The spy view of an agent's session transcript: each line of the session
 * log is decoded and rendered as a short human-readable item, or as one JSON
 * record per content block, according to the viewer's options.
 *
 * Decoding is an oracle: `parse(line)` is the decoded envelope, or None when
 * the line is not valid JSON, and `marshal(input)` is the JSON encoding of a
 * tool input. Printed lines are abstract `Output` items; timestamps, colours
 * and column layout are not part of them.
 */
module Spy {
  import opened Wrappers
  import opened Text

  /** What the viewer asked for: raw lines, tool calls only, thinking, tool results, JSON records. */
  datatype SpyOptions = SpyOptions(raw: bool, toolsOnly: bool, thinking: bool, verbose: bool, json: bool)

  /** The input fields of a tool call that the view knows how to summarise. */
  datatype ToolInput = ToolInput(command: string, filePath: string, pattern: string, query: string, url: string, content: string)

  /** One content block of a transcript message. */
  datatype Block = Block(kind: string, name: string, text: string, thinking: string, input: ToolInput)

  datatype MessageBody = MessageBody(role: string, content: seq<Block>)

  /** The payload of a progress line; the decoding of an absent or malformed payload is None. */
  datatype ProgressData = ProgressData(kind: string, elapsedSeconds: int, totalLines: int, name: string)

  /** A decoded transcript line. */
  datatype Envelope = Envelope(kind: string, message: Option<MessageBody>, data: Option<ProgressData>)

  /** One printed item. `Event` is a JSON record without its wall-clock "time" field. */
  datatype Output =
    | Echo(line: string)
    | ToolUse(tool: string, summary: string)
    | Said(text: string)
    | Thought(text: string)
    | ToolResult(text: string)
    | Running(elapsedSeconds: int, totalLines: int)
    | Hook(name: string)
    | ProgressKind(kind: string)
    | TypeTag(kind: string)
    | Event(kind: string, fields: map<string, string>)

  // ---------------------------------------------------------------------------
  // Truncation and tool summaries
  // ---------------------------------------------------------------------------

  /** `s` on one line: newlines become spaces and the ends are trimmed. */
  function SingleLine(s: string): (r: string)
    ensures '\n' !in r
    ensures |r| <= |s|
    ensures r == [] || (!IsSpace(r[0]) && !IsSpace(r[|r| - 1]))
  {
    var flat := ReplaceChar(s, '\n', " ");
    TrimSpace(flat)
  }

  /**
   * `truncate`: the single-line form of `s`, cut to its first `max`
   * characters followed by "..." when it is longer than `max`.
   */
  function Truncate(s: string, max: nat): (r: string)
    ensures '\n' !in r
    ensures |r| <= max + 3
    ensures r == [] || (!IsSpace(r[0]) && !IsSpace(r[|r| - 1]))
    ensures |SingleLine(s)| <= max ==> r == SingleLine(s)
    ensures |SingleLine(s)| > max ==> |r| == max + 3 && r[..max] == SingleLine(s)[..max] && r[max..] == "..."
  {
    var t := SingleLine(s);
    if |t| > max then t[..max] + "..." else t
  }

  /** Truncating twice at the same width changes nothing. */
  lemma {:induction false} TruncateIdempotent(s: string, max: nat)
    ensures Truncate(Truncate(s, max), max) == Truncate(s, max)
  {
    var r := Truncate(s, max);
    assert ReplaceChar(r, '\n', " ") == r;
    TrimSpaceOfTrimmed(r);
    assert SingleLine(r) == r;
    if |r| > max {
      assert |SingleLine(s)| > max;
      assert r[..max] + "..." == r;
    }
  }

  /** Tools whose summary is one of their input fields, shown in full. */
  const VerbatimTools: set<string> := {"Read", "Write", "Edit", "Glob", "Grep", "WebFetch"}

  /** Tools with a summary of their own; any other tool gets the generic one. */
  const KnownTools: set<string> := VerbatimTools + {"Bash", "WebSearch", "Task"}

  /**
   * `toolSummary`: the one-line description of a tool call. File tools show
   * the path, search tools the pattern, the fetcher the URL; the shell
   * command, search query and sub-task are truncated; an unknown tool shows
   * its path, else its truncated command, else its truncated JSON input.
   */
  function ToolSummary(name: string, ti: ToolInput, marshal: ToolInput -> string): (r: string)
    ensures name == "Read" || name == "Write" || name == "Edit" ==> r == ti.filePath
    ensures name == "Glob" || name == "Grep" ==> r == ti.pattern
    ensures name == "WebFetch" ==> r == ti.url
    ensures name == "Bash" ==> r == Truncate(ti.command, 100)
    ensures name == "WebSearch" ==> r == Truncate(ti.query, 80)
    ensures name == "Task" ==> r == Truncate(ti.content, 80)
    ensures name !in KnownTools && ti.filePath != "" ==> r == ti.filePath
    ensures name !in KnownTools && ti.filePath == "" && ti.command != "" ==> r == Truncate(ti.command, 80)
    ensures name !in KnownTools && ti.filePath == "" && ti.command == "" ==> r == Truncate(marshal(ti), 80)
    ensures name !in VerbatimTools && (name in KnownTools || ti.filePath == "") ==>
              '\n' !in r && |r| <= (if name == "Bash" then 103 else 83)
  {
    if name == "Bash" then Truncate(ti.command, 100)
    else if name == "Read" then ti.filePath
    else if name == "Write" then ti.filePath
    else if name == "Edit" then ti.filePath
    else if name == "Glob" then ti.pattern
    else if name == "Grep" then ti.pattern
    else if name == "WebFetch" then ti.url
    else if name == "WebSearch" then Truncate(ti.query, 80)
    else if name == "Task" then Truncate(ti.content, 80)
    else if ti.filePath != "" then ti.filePath
    else if ti.command != "" then Truncate(ti.command, 80)
    else Truncate(marshal(ti), 80)
  }

  // ---------------------------------------------------------------------------
  // Tool calls, as both views show them
  // ---------------------------------------------------------------------------

  /** The (tool, summary) pair of every tool-call block, in order. */
  function ToolCalls(blocks: seq<Block>, marshal: ToolInput -> string): seq<(string, string)> {
    if blocks == [] then []
    else
      var b := blocks[|blocks| - 1];
      ToolCalls(blocks[..|blocks| - 1], marshal)
      + if b.kind == "tool_use" then [(b.name, ToolSummary(b.name, b.input, marshal))] else []
  }

  /** The tool call an output item shows, if any. */
  function CallShown(o: Output): seq<(string, string)> {
    match o
    case ToolUse(tool, summary) => [(tool, summary)]
    case Event(kind, fields) =>
      if kind == "tool_use" && "tool" in fields && "summary" in fields then [(fields["tool"], fields["summary"])] else []
    case _ => []
  }

  /** The tool calls a sequence of output items shows, in order. */
  function Calls(out: seq<Output>): seq<(string, string)> {
    if out == [] then [] else Calls(out[..|out| - 1]) + CallShown(out[|out| - 1])
  }

  lemma CallsAppend(out: seq<Output>, more: seq<Output>)
    requires |more| <= 1
    ensures Calls(out + more) == Calls(out) + (if more == [] then [] else CallShown(more[0]))
  {
    if more == [] {
      assert out + more == out;
    } else {
      assert (out + more)[..|out|] == out;
    }
  }

  // ---------------------------------------------------------------------------
  // The text view of a message
  // ---------------------------------------------------------------------------

  /**
   * Whether the text view shows a block: tool calls always, assistant text
   * unless only tools are wanted, thinking on request, tool results when
   * verbose, and nothing of any other kind.
   */
  predicate Visible(role: string, kind: string, opts: SpyOptions) {
    kind == "tool_use"
    || (kind == "text" && !opts.toolsOnly && role == "assistant")
    || (kind == "thinking" && opts.thinking)
    || (kind == "tool_result" && opts.verbose)
  }

  function CountVisible(role: string, blocks: seq<Block>, opts: SpyOptions): nat {
    if blocks == [] then 0
    else CountVisible(role, blocks[..|blocks| - 1], opts) + if Visible(role, blocks[|blocks| - 1].kind, opts) then 1 else 0
  }

  /** The item the text view prints for one block, if it prints one. */
  function BlockOutput(role: string, b: Block, opts: SpyOptions, marshal: ToolInput -> string): (r: seq<Output>)
    ensures |r| == if Visible(role, b.kind, opts) then 1 else 0
  {
    if b.kind == "tool_use" then [ToolUse(b.name, ToolSummary(b.name, b.input, marshal))]
    else if b.kind == "text" then (if !opts.toolsOnly && role == "assistant" then [Said(Truncate(b.text, 120))] else [])
    else if b.kind == "thinking" then (if opts.thinking then [Thought(Truncate(b.thinking, 100))] else [])
    else if b.kind == "tool_result" then (if opts.verbose then [ToolResult(Truncate(b.text, 80))] else [])
    else []
  }

  /**
   * What `renderMessage` prints for the blocks of a message from `role`:
   * one item per visible block, in block order. Every tool call is shown;
   * text is hidden under tools-only and for other roles than the assistant;
   * thinking needs the thinking option and tool results the verbose one.
   */
  function TextOutput(role: string, blocks: seq<Block>, opts: SpyOptions, marshal: ToolInput -> string): (r: seq<Output>)
    ensures |r| == CountVisible(role, blocks, opts)
    ensures Calls(r) == ToolCalls(blocks, marshal)
  {
    if blocks == [] then []
    else
      var init := blocks[..|blocks| - 1];
      var b := blocks[|blocks| - 1];
      var r0 := TextOutput(role, init, opts, marshal);
      var more := BlockOutput(role, b, opts, marshal);
      CallsAppend(r0, more);
      r0 + more
  }

  /**
   * The text view prints only tool calls, text, thinking and tool results;
   * no text under tools-only or for another role than the assistant, no
   * thinking without the thinking option, no tool result unless verbose.
   */
  lemma {:induction false} TextOutputHides(role: string, blocks: seq<Block>, opts: SpyOptions, marshal: ToolInput -> string)
    ensures forall o :: o in TextOutput(role, blocks, opts, marshal) ==> o.ToolUse? || o.Said? || o.Thought? || o.ToolResult?
    ensures opts.toolsOnly || role != "assistant" ==> forall o :: o in TextOutput(role, blocks, opts, marshal) ==> !o.Said?
    ensures !opts.thinking ==> forall o :: o in TextOutput(role, blocks, opts, marshal) ==> !o.Thought?
    ensures !opts.verbose ==> forall o :: o in TextOutput(role, blocks, opts, marshal) ==> !o.ToolResult?
  {
    if blocks != [] {
      TextOutputHides(role, blocks[..|blocks| - 1], opts, marshal);
    }
  }

  /** One case of the block switch in `renderMessage`. */
  method RenderBlock(role: string, b: Block, opts: SpyOptions, marshal: ToolInput -> string) returns (shown: seq<Output>)
    ensures shown == BlockOutput(role, b, opts, marshal)
  {
    shown := [];
    if b.kind == "tool_use" {
      shown := [ToolUse(b.name, ToolSummary(b.name, b.input, marshal))];
    } else if b.kind == "text" {
      if !opts.toolsOnly && role == "assistant" {
        shown := [Said(Truncate(b.text, 120))];
      }
    } else if b.kind == "thinking" {
      if opts.thinking {
        shown := [Thought(Truncate(b.thinking, 100))];
      }
    } else if b.kind == "tool_result" {
      if opts.verbose {
        shown := [ToolResult(Truncate(b.text, 80))];
      }
    }
  }

  lemma TextOutputSnoc(role: string, blocks: seq<Block>, i: nat, opts: SpyOptions, marshal: ToolInput -> string)
    requires i < |blocks|
    ensures TextOutput(role, blocks[..i + 1], opts, marshal)
            == TextOutput(role, blocks[..i], opts, marshal) + BlockOutput(role, blocks[i], opts, marshal)
  {
    assert blocks[..i + 1][..i] == blocks[..i];
  }

  /** `renderMessage` over a decoded message body. */
  method RenderMessage(m: MessageBody, opts: SpyOptions, marshal: ToolInput -> string) returns (out: seq<Output>)
    ensures out == TextOutput(m.role, m.content, opts, marshal)
  {
    out := [];
    var i := 0;
    while i < |m.content|
      invariant 0 <= i <= |m.content|
      invariant out == TextOutput(m.role, m.content[..i], opts, marshal)
    {
      var shown := RenderBlock(m.role, m.content[i], opts, marshal);
      TextOutputSnoc(m.role, m.content, i, opts, marshal);
      out := out + shown;
      i := i + 1;
    }
    assert m.content[..i] == m.content;
  }

  // ---------------------------------------------------------------------------
  // The JSON view of a message
  // ---------------------------------------------------------------------------

  /** Whether the JSON view keeps a block: tools-only keeps tool calls alone, thinking and tool results need their options. */
  predicate KeptAsJson(kind: string, opts: SpyOptions) {
    (!opts.toolsOnly || kind == "tool_use")
    && (opts.thinking || kind != "thinking")
    && (opts.verbose || kind != "tool_result")
  }

  function CountKept(blocks: seq<Block>, opts: SpyOptions): nat {
    if blocks == [] then 0
    else CountKept(blocks[..|blocks| - 1], opts) + if KeptAsJson(blocks[|blocks| - 1].kind, opts) then 1 else 0
  }

  /** The JSON record of one block: its type plus the field its kind carries, text untruncated. */
  function EventFor(b: Block, marshal: ToolInput -> string): (r: Output)
    ensures r.Event? && r.kind == b.kind
  {
    var fields :=
      if b.kind == "tool_use" then map["tool" := b.name, "summary" := ToolSummary(b.name, b.input, marshal)]
      else if b.kind == "text" then map["text" := b.text]
      else if b.kind == "thinking" then map["thinking" := b.thinking]
      else if b.kind == "tool_result" then map["result" := b.text]
      else map[];
    Event(b.kind, fields)
  }

  /**
   * What `renderJSON` prints for the blocks of a message: one record per
   * kept block, in block order, whatever the role.
   */
  function JsonOutput(blocks: seq<Block>, opts: SpyOptions, marshal: ToolInput -> string): (r: seq<Output>)
    ensures |r| == CountKept(blocks, opts)
    ensures Calls(r) == ToolCalls(blocks, marshal)
  {
    if blocks == [] then []
    else
      var init := blocks[..|blocks| - 1];
      var b := blocks[|blocks| - 1];
      var r0 := JsonOutput(init, opts, marshal);
      var more := if KeptAsJson(b.kind, opts) then [EventFor(b, marshal)] else [];
      CallsAppend(r0, more);
      r0 + more
  }

  /**
   * The JSON view prints only records; under tools-only they are all tool
   * calls, and thinking and tool results appear only with their options.
   */
  lemma {:induction false} JsonOutputKinds(blocks: seq<Block>, opts: SpyOptions, marshal: ToolInput -> string)
    ensures forall o :: o in JsonOutput(blocks, opts, marshal) ==> o.Event?
    ensures opts.toolsOnly ==> forall o :: o in JsonOutput(blocks, opts, marshal) ==> o.Event? && o.kind == "tool_use"
    ensures !opts.thinking ==> forall o :: o in JsonOutput(blocks, opts, marshal) ==> o.Event? && o.kind != "thinking"
    ensures !opts.verbose ==> forall o :: o in JsonOutput(blocks, opts, marshal) ==> o.Event? && o.kind != "tool_result"
  {
    if blocks != [] {
      JsonOutputKinds(blocks[..|blocks| - 1], opts, marshal);
    }
  }

  /** The record `renderJSON` builds for a kept block. */
  method RenderEvent(b: Block, marshal: ToolInput -> string) returns (event: Output)
    ensures event == EventFor(b, marshal)
  {
    var fields: map<string, string> := map[];
    if b.kind == "tool_use" {
      fields := fields["tool" := b.name];
      fields := fields["summary" := ToolSummary(b.name, b.input, marshal)];
    } else if b.kind == "text" {
      fields := fields["text" := b.text];
    } else if b.kind == "thinking" {
      fields := fields["thinking" := b.thinking];
    } else if b.kind == "tool_result" {
      fields := fields["result" := b.text];
    }
    event := Event(b.kind, fields);
  }

  lemma JsonOutputSnoc(blocks: seq<Block>, i: nat, opts: SpyOptions, marshal: ToolInput -> string)
    requires i < |blocks|
    ensures JsonOutput(blocks[..i + 1], opts, marshal)
            == JsonOutput(blocks[..i], opts, marshal) + if KeptAsJson(blocks[i].kind, opts) then [EventFor(blocks[i], marshal)] else []
  {
    assert blocks[..i + 1][..i] == blocks[..i];
  }

  /** `renderJSON`: nothing for a line without a message, else the JSON view of its blocks. */
  method RenderJson(message: Option<MessageBody>, opts: SpyOptions, marshal: ToolInput -> string) returns (out: seq<Output>)
    ensures message.None? ==> out == []
    ensures message.Some? ==> out == JsonOutput(message.value.content, opts, marshal)
  {
    out := [];
    if message.None? {
      return;
    }
    var blocks := message.value.content;
    var i := 0;
    while i < |blocks|
      invariant 0 <= i <= |blocks|
      invariant out == JsonOutput(blocks[..i], opts, marshal)
    {
      var b := blocks[i];
      JsonOutputSnoc(blocks, i, opts, marshal);
      if !(opts.toolsOnly && b.kind != "tool_use") && !(!opts.thinking && b.kind == "thinking")
         && !(!opts.verbose && b.kind == "tool_result") {
        var event := RenderEvent(b, marshal);
        out := out + [event];
      }
      i := i + 1;
    }
    assert blocks[..i] == blocks;
  }

  // ---------------------------------------------------------------------------
  // Progress lines and line dispatch
  // ---------------------------------------------------------------------------

  /**
   * `renderProgress`: nothing under tools-only or for an undecodable
   * payload; shell progress and hook progress always; any other progress
   * kind only when verbose.
   */
  function RenderProgress(data: Option<ProgressData>, opts: SpyOptions): (r: seq<Output>)
    ensures |r| <= 1
    ensures r != [] <==> !opts.toolsOnly && data.Some?
                         && (data.value.kind == "bash_progress" || data.value.kind == "hook_progress" || opts.verbose)
    ensures r != [] && data.value.kind == "bash_progress" ==> r == [Running(data.value.elapsedSeconds, data.value.totalLines)]
    ensures r != [] && data.value.kind == "hook_progress" ==> r == [Hook(data.value.name)]
  {
    if opts.toolsOnly || data.None? then []
    else if data.value.kind == "bash_progress" then [Running(data.value.elapsedSeconds, data.value.totalLines)]
    else if data.value.kind == "hook_progress" then [Hook(data.value.name)]
    else if opts.verbose then [ProgressKind(data.value.kind)]
    else []
  }

  /**
   * What `renderLine` prints for one transcript line: an undecodable line is
   * echoed unchanged; in JSON mode only the JSON view is used; otherwise a
   * message is rendered as text, a progress line as progress, and any other
   * line only as its type tag when verbose.
   */
  function LineOutput(line: string, opts: SpyOptions, parse: string -> Option<Envelope>, marshal: ToolInput -> string): (r: seq<Output>)
    ensures parse(line).None? ==> r == [Echo(line)]
    ensures parse(line).Some? && opts.json ==> forall o :: o in r ==> o.Event?
    ensures parse(line).Some? && opts.json && parse(line).value.message.None? ==> r == []
    ensures parse(line).Some? && !opts.json ==> forall o :: o in r ==> !o.Event? && !o.Echo?
    ensures (parse(line).Some? && !opts.json && opts.toolsOnly && parse(line).value.message.None?
             && parse(line).value.kind == "progress") ==> r == []
    ensures (parse(line).Some? && !opts.verbose && parse(line).value.message.None?
             && parse(line).value.kind != "progress") ==> r == []
  {
    match parse(line)
    case None => [Echo(line)]
    case Some(env) =>
      if opts.json then
        (if env.message.None? then []
         else JsonOutputKinds(env.message.value.content, opts, marshal); JsonOutput(env.message.value.content, opts, marshal))
      else if env.message.Some? then
        TextOutputHides(env.message.value.role, env.message.value.content, opts, marshal);
        TextOutput(env.message.value.role, env.message.value.content, opts, marshal)
      else if env.kind == "progress" then RenderProgress(env.data, opts)
      else if opts.verbose then [TypeTag(env.kind)]
      else []
  }

  /** `renderLine`. */
  method RenderLine(line: string, opts: SpyOptions, parse: string -> Option<Envelope>, marshal: ToolInput -> string)
    returns (out: seq<Output>)
    ensures out == LineOutput(line, opts, parse, marshal)
  {
    var parsed := parse(line);
    if parsed.None? {
      return [Echo(line)];
    }
    var env := parsed.value;
    if opts.json {
      out := RenderJson(env.message, opts, marshal);
      return;
    }
    if env.message.Some? {
      out := RenderMessage(env.message.value, opts, marshal);
    } else if env.kind == "progress" {
      out := RenderProgress(env.data, opts);
    } else if opts.verbose {
      out := [TypeTag(env.kind)];
    } else {
      out := [];
    }
  }

  // ---------------------------------------------------------------------------
  // The session stream
  // ---------------------------------------------------------------------------

  predicate Blank(line: string) {
    TrimSpace(line) == ""
  }

  /** What the spy loop prints for the lines of the session log, in order. */
  function StreamOutput(lines: seq<string>, opts: SpyOptions, parse: string -> Option<Envelope>, marshal: ToolInput -> string): seq<Output> {
    if lines == [] then []
    else
      var line := lines[|lines| - 1];
      StreamOutput(lines[..|lines| - 1], opts, parse, marshal) + LineStep(line, opts, parse, marshal)
  }

  /** What the spy loop prints for one line: nothing for a blank line, the line itself in raw mode. */
  function LineStep(line: string, opts: SpyOptions, parse: string -> Option<Envelope>, marshal: ToolInput -> string): seq<Output> {
    if Blank(line) then [] else if opts.raw then [Echo(line)] else LineOutput(line, opts, parse, marshal)
  }

  /** The lines that are not blank, in order. */
  function NonBlank(lines: seq<string>): (r: seq<string>)
    ensures |r| <= |lines|
    ensures forall line :: line in r ==> line in lines && !Blank(line)
  {
    if lines == [] then []
    else NonBlank(lines[..|lines| - 1]) + if Blank(lines[|lines| - 1]) then [] else [lines[|lines| - 1]]
  }

  function Echoes(lines: seq<string>): (r: seq<Output>)
    ensures |r| == |lines| && forall i :: 0 <= i < |lines| ==> r[i] == Echo(lines[i])
  {
    seq(|lines|, i requires 0 <= i < |lines| => Echo(lines[i]))
  }

  lemma StreamOutputSnoc(lines: seq<string>, opts: SpyOptions, parse: string -> Option<Envelope>, marshal: ToolInput -> string)
    requires lines != []
    ensures StreamOutput(lines, opts, parse, marshal)
            == StreamOutput(lines[..|lines| - 1], opts, parse, marshal) + LineStep(lines[|lines| - 1], opts, parse, marshal)
  {
  }

  /** The output of a stream is the output of its first part followed by that of the rest. */
  lemma {:induction false} StreamOutputAppend(first: seq<string>, rest: seq<string>, opts: SpyOptions,
                                              parse: string -> Option<Envelope>, marshal: ToolInput -> string)
    ensures StreamOutput(first + rest, opts, parse, marshal)
            == StreamOutput(first, opts, parse, marshal) + StreamOutput(rest, opts, parse, marshal)
    decreases |rest|
  {
    if rest == [] {
      assert first + rest == first;
    } else {
      var init := rest[..|rest| - 1];
      var line := rest[|rest| - 1];
      var whole := first + rest;
      assert whole[..|whole| - 1] == first + init;
      assert whole[|whole| - 1] == line;
      StreamOutputAppend(first, init, opts, parse, marshal);
      StreamOutputSnoc(whole, opts, parse, marshal);
      StreamOutputSnoc(rest, opts, parse, marshal);
      var a, b, c := StreamOutput(first, opts, parse, marshal), StreamOutput(init, opts, parse, marshal), LineStep(line, opts, parse, marshal);
      assert StreamOutput(whole, opts, parse, marshal) == (a + b) + c;
      assert StreamOutput(rest, opts, parse, marshal) == b + c;
      ConcatAssoc(a, b, c);
    }
  }

  /** Blank lines print nothing: the stream prints what its non-blank lines print. */
  lemma {:induction false} BlankLinesSkipped(lines: seq<string>, opts: SpyOptions,
                                             parse: string -> Option<Envelope>, marshal: ToolInput -> string)
    ensures StreamOutput(lines, opts, parse, marshal) == StreamOutput(NonBlank(lines), opts, parse, marshal)
  {
    if lines != [] {
      var init := lines[..|lines| - 1];
      var line := lines[|lines| - 1];
      BlankLinesSkipped(init, opts, parse, marshal);
      assert StreamOutput(lines, opts, parse, marshal)
             == StreamOutput(init, opts, parse, marshal) + LineStep(line, opts, parse, marshal);
      if Blank(line) {
        assert NonBlank(lines) == NonBlank(init);
      } else {
        var kept := NonBlank(init);
        assert NonBlank(lines) == kept + [line];
        assert (kept + [line])[..|kept|] == kept;
        assert StreamOutput(kept + [line], opts, parse, marshal)
               == StreamOutput(kept, opts, parse, marshal) + LineStep(line, opts, parse, marshal);
      }
    }
  }

  /** In raw mode every non-blank line is echoed verbatim, in order, and nothing else is printed. */
  lemma {:induction false} RawModeEchoes(lines: seq<string>, opts: SpyOptions,
                                         parse: string -> Option<Envelope>, marshal: ToolInput -> string)
    requires opts.raw
    ensures StreamOutput(lines, opts, parse, marshal) == Echoes(NonBlank(lines))
  {
    if lines != [] {
      var init := lines[..|lines| - 1];
      var line := lines[|lines| - 1];
      RawModeEchoes(init, opts, parse, marshal);
      StreamOutputSnoc(lines, opts, parse, marshal);
      if !Blank(line) {
        assert NonBlank(lines) == NonBlank(init) + [line];
        assert LineStep(line, opts, parse, marshal) == [Echo(line)];
        assert Echoes(NonBlank(init) + [line]) == Echoes(NonBlank(init)) + [Echo(line)];
      }
    }
  }

  /** The scanner's buffer: a line is read only when it fits together with its newline. */
  const MaxLineBytes: nat := 1024 * 1024

  /** How many lines the scanner yields: it stops, silently, at the first line too long for its buffer. */
  function ScanLimit(lines: seq<string>): (n: nat)
    ensures n <= |lines|
    ensures forall k :: 0 <= k < n ==> |lines[k]| < MaxLineBytes
    ensures n < |lines| ==> |lines[n]| >= MaxLineBytes
  {
    if lines == [] || |lines[0]| >= MaxLineBytes then 0 else 1 + ScanLimit(lines[1..])
  }

  /** Lines that fit are all shown; nothing after the first line too long to scan is. */
  lemma {:induction false} LongLineEndsStream(before: seq<string>, long: string, after: seq<string>)
    requires forall k :: 0 <= k < |before| ==> |before[k]| < MaxLineBytes
    ensures ScanLimit(before) == |before|
    ensures |long| >= MaxLineBytes ==> ScanLimit(before + [long] + after) == |before|
  {
    if before != [] {
      LongLineEndsStream(before[1..], long, after);
      assert (before + [long] + after)[1..] == before[1..] + [long] + after;
    }
  }

  /** The spy loop over the lines the session log yields, up to the first one too long to scan. */
  method Stream(lines: seq<string>, opts: SpyOptions, parse: string -> Option<Envelope>, marshal: ToolInput -> string)
    returns (out: seq<Output>)
    ensures out == StreamOutput(lines[..ScanLimit(lines)], opts, parse, marshal)
  {
    out := [];
    var i := 0;
    while i < |lines| && |lines[i]| < MaxLineBytes
      invariant 0 <= i <= ScanLimit(lines)
      invariant out == StreamOutput(lines[..i], opts, parse, marshal)
      decreases |lines| - i
    {
      var line := lines[i];
      if TrimSpace(line) == "" {
      } else if opts.raw {
        out := out + [Echo(line)];
      } else {
        var shown := RenderLine(line, opts, parse, marshal);
        out := out + shown;
      }
      assert lines[..i + 1][..i] == lines[..i];
      i := i + 1;
    }
  }

  datatype SpyError =
    | NotFound(name: string)
    | NotRunning(name: string, status: string)
    | DiscoveryFailed(reason: string)

  /**
   * `Spy`: refuses a container that cannot be inspected or is not running,
   * and a session that cannot be located; otherwise streams the session.
   * `inspect` is the output of `podman inspect` (None when it fails),
   * `session` the outcome of locating the session file and `lines` what
   * tailing that file yields; a line of 1 MiB or more ends the stream
   * without a word, and nothing after it is shown.
   */
  method Spy(name: string, opts: SpyOptions, inspect: Option<string>, session: Result<string, string>,
             lines: seq<string>, parse: string -> Option<Envelope>, marshal: ToolInput -> string)
    returns (r: Result<seq<Output>, SpyError>)
    ensures inspect.None? ==> r == Err(NotFound(name))
    ensures inspect.Some? && TrimSpace(inspect.value) != "running" ==> r == Err(NotRunning(name, TrimSpace(inspect.value)))
    ensures inspect.Some? && TrimSpace(inspect.value) == "running" && session.Err? ==> r == Err(DiscoveryFailed(session.error))
    ensures r.Ok? <==> inspect.Some? && TrimSpace(inspect.value) == "running" && session.Ok?
    ensures r.Ok? ==> r.value == StreamOutput(lines[..ScanLimit(lines)], opts, parse, marshal)
  {
    if inspect.None? {
      return Err(NotFound(name));
    }
    var status := TrimSpace(inspect.value);
    if status != "running" {
      return Err(NotRunning(name, status));
    }
    if session.Err? {
      return Err(DiscoveryFailed(session.error));
    }
    var out := Stream(lines, opts, parse, marshal);
    r := Ok(out);
  }
}
