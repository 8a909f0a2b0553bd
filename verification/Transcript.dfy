/** Mapping a Claude subagent's transcript records (crates/agent/src/subagent_tail.rs, `TranscriptMapper`). */
module Transcript {
  import opened Text
  import opened Events

  /** The snapshot an `Agent` call starts with: in progress, without summary or effort. */
  type Snapshot = c: Content | c.Subagent? && c.status == InProgress && c.summary.None? && c.effort.None?
    witness Subagent("", "", InProgress, None, None, None)

  /** What an `Agent` call spawns and whether it runs in the background. */
  datatype Spawn = Spawn(snapshot: Snapshot, background: bool)

  datatype Block =
    | TextBlock(text: string)
    | ThinkingBlock(text: string)
    | ToolUse(id: Option<string>, name: string, input: Json, spawn: Option<Spawn>)
    | ToolResult(toolUseId: Option<string>, isError: bool, output: string)
    | OtherBlock

  datatype ModelSeen = ModelSeen(model: Option<string>, effort: Option<string>)

  /**
   * A decoded transcript record. `skipped` stands for queue operations, summaries, attachments
   * and meta or synthetic records; `blocks` is absent when the message has no content.
   */
  datatype Record =
    | Assistant(skipped: bool, messageId: string, blocks: Option<seq<Block>>, seen: Option<ModelSeen>)
    | User(skipped: bool, blocks: Option<seq<Block>>, asyncLaunched: bool)
    | OtherRecord

  datatype ChildTool = Tool(name: string, input: Json) | Nested(spawn: Spawn)

  datatype State = State(tools: map<string, ChildTool>, users: nat, model: Option<ModelSeen>)

  const INITIAL := State(map[], 0, None)

  /** A new state and the events the step emitted. */
  datatype Mapped = Mapped(state: State, events: seq<Event>)

  // ---------------------------------------------------------------- text helpers

  function DropWhitespace(s: string): (r: string)
    ensures |r| <= |s|
  {
    if s != [] && IsWhitespace(s[0]) then DropWhitespace(s[1..]) else s
  }

  const NOISE: seq<string> := ["<command-message>", "<command-name>", "<local-command-stdout>", "Caveat: The messages below"]

  predicate IsUserNoise(text: string) {
    exists i :: 0 <= i < |NOISE| && StartsWith(DropWhitespace(text), NOISE[i])
  }

  function Squeezed(s: string): string
    decreases |s|
  {
    if s == [] then []
    else if IsWhitespace(s[0]) then [' '] + Squeezed(DropWhitespace(s[1..]))
    else [s[0]] + Squeezed(s[1..])
  }

  function OneLineSummary(text: string): string {
    Squeezed(Trim(text))
  }

  // ---------------------------------------------------------------- specification

  function ChildItem(parent: string, rawId: string, content: Content): Item {
    Item(parent + ":" + rawId, Some(parent), content)
  }

  /** A nested spawn keeps its bare tool-use id. */
  function NestedItem(parent: string, toolUseId: string, content: Content): Item {
    Item(toolUseId, Some(parent), content)
  }

  function AssistantBlock(s: State, parent: string, messageId: string, index: nat, block: Block): Mapped {
    match block
    case TextBlock(text) =>
      if text == [] then Mapped(s, [])
      else Mapped(s, [ItemCompleted(ChildItem(parent, BlockId(messageId, index), AssistantMessage(text)))])
    case ThinkingBlock(text) =>
      if text == [] then Mapped(s, [])
      else Mapped(s, [ItemCompleted(ChildItem(parent, BlockId(messageId, index), Reasoning(text)))])
    case ToolUse(id, name, input, spawn) =>
      if id.None? then Mapped(s, [])
      else if spawn.Some? then
        Mapped(s.(tools := s.tools[id.value := Nested(spawn.value)]),
               [ItemStarted(NestedItem(parent, id.value, spawn.value.snapshot))])
      else
        Mapped(s.(tools := s.tools[id.value := Tool(name, input)]),
               [ItemStarted(ChildItem(parent, id.value, ToolCall(name, input, None, InProgress)))])
    case _ => Mapped(s, [])
  }

  const LAUNCHED := "Async agent launched successfully"

  function ResultEvents(parent: string, id: string, tool: ChildTool, isError: bool, output: string, asyncLaunched: bool): seq<Event> {
    var status := if isError then Failed else Completed;
    match tool
    case Tool(name, input) => [ItemCompleted(ChildItem(parent, id, ToolCall(name, input, Some(output), status)))]
    case Nested(Spawn(snapshot, background)) =>
      if background || asyncLaunched || StartsWith(output, LAUNCHED) then []
      else
        var summary := if Blank(output) then None else Some(OneLineSummary(output));
        [ItemCompleted(NestedItem(parent, id, snapshot.(status := status, summary := summary)))]
  }

  function UserBlock(s: State, parent: string, asyncLaunched: bool, block: Block): Mapped {
    match block
    case TextBlock(text) =>
      if IsUserNoise(text) then Mapped(s, [])
      else Mapped(s.(users := s.users + 1),
                  [ItemCompleted(ChildItem(parent, "user-" + Decimal(s.users + 1), UserMessage(text)))])
    case ToolResult(id, isError, output) =>
      if id.None? || id.value !in s.tools then Mapped(s, [])
      else Mapped(s.(tools := s.tools - {id.value}),
                  ResultEvents(parent, id.value, s.tools[id.value], isError, output, asyncLaunched))
    case _ => Mapped(s, [])
  }

  function AssistantBlocks(s: State, parent: string, messageId: string, blocks: seq<Block>): Mapped {
    if blocks == [] then Mapped(s, [])
    else
      var n := |blocks| - 1;
      var before := AssistantBlocks(s, parent, messageId, blocks[..n]);
      var last := AssistantBlock(before.state, parent, messageId, n, blocks[n]);
      Mapped(last.state, before.events + last.events)
  }

  function UserBlocks(s: State, parent: string, asyncLaunched: bool, blocks: seq<Block>): Mapped {
    if blocks == [] then Mapped(s, [])
    else
      var n := |blocks| - 1;
      var before := UserBlocks(s, parent, asyncLaunched, blocks[..n]);
      var last := UserBlock(before.state, parent, asyncLaunched, blocks[n]);
      Mapped(last.state, before.events + last.events)
  }

  function MapRecord(s: State, parent: string, record: Record): Mapped {
    if record.OtherRecord? || record.skipped then Mapped(s, [])
    else
      var noted := if record.Assistant? && record.seen.Some? then s.(model := record.seen) else s;
      if record.blocks.None? then Mapped(noted, [])
      else if record.Assistant? then AssistantBlocks(noted, parent, record.messageId, record.blocks.value)
      else UserBlocks(noted, parent, record.asyncLaunched, record.blocks.value)
  }

  function MapRecords(s: State, parent: string, records: seq<Record>): Mapped {
    if records == [] then Mapped(s, [])
    else
      var before := MapRecords(s, parent, records[..|records| - 1]);
      var last := MapRecord(before.state, parent, records[|records| - 1]);
      Mapped(last.state, before.events + last.events)
  }

  // ---------------------------------------------------------------- the mapper

  class TranscriptMapper {
    const parent: string
    var tools: map<string, ChildTool>
    var users: nat
    var model: Option<ModelSeen>

    constructor (parent: string)
      ensures this.parent == parent && View() == INITIAL
    {
      this.parent := parent;
      tools, users, model := map[], 0, None;
    }

    function View(): State
      reads this
    {
      State(tools, users, model)
    }

    method TakeModel() returns (taken: Option<ModelSeen>)
      modifies this`model
      ensures taken == old(model) && View() == old(View()).(model := None)
    {
      taken, model := model, None;
    }

    method MapValue(record: Record) returns (events: seq<Event>)
      modifies this
      ensures Mapped(View(), events) == MapRecord(old(View()), parent, record)
    {
      if record.OtherRecord? || record.skipped {
        return [];
      }
      if record.Assistant? && record.seen.Some? {
        model := record.seen;
      }
      if record.blocks.None? {
        return [];
      }
      if record.Assistant? {
        events := MapAssistant(record.messageId, record.blocks.value);
      } else {
        events := MapUser(record.asyncLaunched, record.blocks.value);
      }
    }

    method MapAssistant(messageId: string, blocks: seq<Block>) returns (events: seq<Event>)
      modifies this
      ensures Mapped(View(), events) == AssistantBlocks(old(View()), parent, messageId, blocks)
    {
      events := [];
      assert blocks[..0] == [];
      for index := 0 to |blocks|
        invariant Mapped(View(), events) == AssistantBlocks(old(View()), parent, messageId, blocks[..index])
      {
        assert blocks[..index + 1][..index] == blocks[..index];
        ghost var step := AssistantBlock(View(), parent, messageId, index, blocks[index]);
        var emitted: seq<Event> := [];
        match blocks[index] {
          case TextBlock(text) =>
            if text != [] {
              emitted := [ItemCompleted(ChildItem(parent, BlockId(messageId, index), AssistantMessage(text)))];
            }
          case ThinkingBlock(text) =>
            if text != [] {
              emitted := [ItemCompleted(ChildItem(parent, BlockId(messageId, index), Reasoning(text)))];
            }
          case ToolUse(id, name, input, spawn) =>
            if id.Some? && spawn.Some? {
              tools := tools[id.value := Nested(spawn.value)];
              emitted := [ItemStarted(NestedItem(parent, id.value, spawn.value.snapshot))];
            } else if id.Some? {
              tools := tools[id.value := Tool(name, input)];
              emitted := [ItemStarted(ChildItem(parent, id.value, ToolCall(name, input, None, InProgress)))];
            }
          case _ =>
        }
        assert step == Mapped(View(), emitted);
        events := events + emitted;
      }
      assert blocks[..|blocks|] == blocks;
    }

    method MapUser(asyncLaunched: bool, blocks: seq<Block>) returns (events: seq<Event>)
      modifies this
      ensures Mapped(View(), events) == UserBlocks(old(View()), parent, asyncLaunched, blocks)
    {
      events := [];
      assert blocks[..0] == [];
      for index := 0 to |blocks|
        invariant Mapped(View(), events) == UserBlocks(old(View()), parent, asyncLaunched, blocks[..index])
      {
        assert blocks[..index + 1][..index] == blocks[..index];
        ghost var step := UserBlock(View(), parent, asyncLaunched, blocks[index]);
        var emitted: seq<Event> := [];
        match blocks[index] {
          case TextBlock(text) =>
            if !IsUserNoise(text) {
              users := users + 1;
              emitted := [ItemCompleted(ChildItem(parent, "user-" + Decimal(users), UserMessage(text)))];
            }
          case ToolResult(id, isError, output) =>
            if id.Some? && id.value in tools {
              var tool := tools[id.value];
              tools := tools - {id.value};
              emitted := ResultEvents(parent, id.value, tool, isError, output, asyncLaunched);
            }
          case _ =>
        }
        assert step == Mapped(View(), emitted);
        events := events + emitted;
      }
      assert blocks[..|blocks|] == blocks;
    }
  }

  // ---------------------------------------------------------------- what a transcript's events look like

  /** The event that opened a tool still waiting for its result. */
  function Opening(parent: string, id: string, tool: ChildTool): Event {
    match tool
    case Tool(name, input) => ItemStarted(ChildItem(parent, id, ToolCall(name, input, None, InProgress)))
    case Nested(spawn) => ItemStarted(NestedItem(parent, id, spawn.snapshot))
  }

  /**
   * A completion of a tool call or of a nested subagent repeats an earlier start: the same item
   * id, and the name and input, or the type and description, that start carried.
   */
  ghost predicate Answers(completed: Item, started: Item) {
    && started.id == completed.id && started.parent == completed.parent
    && match completed.content
       case ToolCall(name, input, _, _) => started.content == ToolCall(name, input, None, InProgress)
       case Subagent(agentType, description, _, _, model, effort) =>
         && started.content.Subagent?
         && started.content.agentType == agentType && started.content.description == description
         && started.content.model == model && started.content.effort == effort
       case _ => false
  }

  ghost predicate NeedsStart(e: Event) {
    e.ItemCompleted? && (e.completed.content.ToolCall? || e.completed.content.Subagent?)
  }

  ghost predicate StartedBefore(events: seq<Event>, i: nat)
    requires i < |events| && events[i].ItemCompleted?
  {
    exists j :: 0 <= j < i && events[j].ItemStarted? && Answers(events[i].completed, events[j].started)
  }

  /** Only starts and completions, all children of one parent, and every answer after its call. */
  ghost predicate Orderly(events: seq<Event>, parent: string) {
    forall i :: 0 <= i < |events| ==>
      && (events[i].ItemStarted? || events[i].ItemCompleted?)
      && EventItem(events[i]).parent == Some(parent)
      && (EventItem(events[i]).content.Subagent? ==>
            (events[i].ItemStarted? <==> EventItem(events[i]).content.status == InProgress))
      && (NeedsStart(events[i]) ==> StartedBefore(events, i))
  }

  /** Tools waiting for a result were opened by an event already emitted. */
  ghost predicate Opened(s: State, parent: string, events: seq<Event>) {
    forall id :: id in s.tools ==> Opening(parent, id, s.tools[id]) in events
  }

  lemma OrderlyAppend(events: seq<Event>, parent: string, e: Event)
    requires Orderly(events, parent)
    requires e.ItemStarted? || e.ItemCompleted?
    requires EventItem(e).parent == Some(parent)
    requires EventItem(e).content.Subagent? ==> (e.ItemStarted? <==> EventItem(e).content.status == InProgress)
    requires NeedsStart(e) ==> exists f :: f in events && f.ItemStarted? && Answers(e.completed, f.started)
    ensures Orderly(events + [e], parent)
  {
    var all := events + [e];
    forall i | 0 <= i < |all| && NeedsStart(all[i])
      ensures StartedBefore(all, i)
    {
      if i < |events| {
        assert StartedBefore(events, i);
        var j :| 0 <= j < i && events[j].ItemStarted? && Answers(events[i].completed, events[j].started);
        assert all[j] == events[j];
      } else {
        var f :| f in events && f.ItemStarted? && Answers(e.completed, f.started);
        var j :| 0 <= j < |events| && events[j] == f;
        assert all[j] == f;
      }
    }
  }

  lemma AssistantBlockOrderly(s: State, parent: string, messageId: string, index: nat, block: Block, events: seq<Event>)
    requires Orderly(events, parent) && Opened(s, parent, events)
    ensures var m := AssistantBlock(s, parent, messageId, index, block);
      Orderly(events + m.events, parent) && Opened(m.state, parent, events + m.events)
  {
    var m := AssistantBlock(s, parent, messageId, index, block);
    if m.events == [] {
      assert events + [] == events;
    } else {
      assert |m.events| == 1 && m.events == [m.events[0]];
      OrderlyAppend(events, parent, m.events[0]);
    }
  }

  lemma UserBlockOrderly(s: State, parent: string, asyncLaunched: bool, block: Block, events: seq<Event>)
    requires Orderly(events, parent) && Opened(s, parent, events)
    ensures var m := UserBlock(s, parent, asyncLaunched, block);
      Orderly(events + m.events, parent) && Opened(m.state, parent, events + m.events)
  {
    var m := UserBlock(s, parent, asyncLaunched, block);
    if m.events == [] {
      assert events + [] == events;
    } else {
      assert |m.events| == 1 && m.events == [m.events[0]];
      if block.ToolResult? {
        var opening := Opening(parent, block.toolUseId.value, s.tools[block.toolUseId.value]);
        assert opening in events && Answers(m.events[0].completed, opening.started);
      }
      OrderlyAppend(events, parent, m.events[0]);
    }
  }

  lemma {:induction false} AssistantBlocksOrderly(s: State, parent: string, messageId: string, blocks: seq<Block>, events: seq<Event>)
    requires Orderly(events, parent) && Opened(s, parent, events)
    ensures var m := AssistantBlocks(s, parent, messageId, blocks);
      Orderly(events + m.events, parent) && Opened(m.state, parent, events + m.events)
  {
    if blocks == [] {
      assert events + [] == events;
    } else {
      var n := |blocks| - 1;
      var before := AssistantBlocks(s, parent, messageId, blocks[..n]);
      AssistantBlocksOrderly(s, parent, messageId, blocks[..n], events);
      AssistantBlockOrderly(before.state, parent, messageId, n, blocks[n], events + before.events);
      var last := AssistantBlock(before.state, parent, messageId, n, blocks[n]);
      assert events + (before.events + last.events) == (events + before.events) + last.events;
    }
  }

  lemma {:induction false} UserBlocksOrderly(s: State, parent: string, asyncLaunched: bool, blocks: seq<Block>, events: seq<Event>)
    requires Orderly(events, parent) && Opened(s, parent, events)
    ensures var m := UserBlocks(s, parent, asyncLaunched, blocks);
      Orderly(events + m.events, parent) && Opened(m.state, parent, events + m.events)
  {
    if blocks == [] {
      assert events + [] == events;
    } else {
      var n := |blocks| - 1;
      var before := UserBlocks(s, parent, asyncLaunched, blocks[..n]);
      UserBlocksOrderly(s, parent, asyncLaunched, blocks[..n], events);
      UserBlockOrderly(before.state, parent, asyncLaunched, blocks[n], events + before.events);
      var last := UserBlock(before.state, parent, asyncLaunched, blocks[n]);
      assert events + (before.events + last.events) == (events + before.events) + last.events;
    }
  }

  /**
   * Whatever a transcript holds, its mapped events are starts and completions of the parent's
   * children, never updates, and every tool or nested-subagent completion answers an earlier
   * start with the original name and input.
   */
  lemma {:induction false} TranscriptIsOrderly(parent: string, records: seq<Record>)
    ensures var m := MapRecords(INITIAL, parent, records);
      Orderly(m.events, parent) && Opened(m.state, parent, m.events)
  {
    if records != [] {
      var n := |records| - 1;
      TranscriptIsOrderly(parent, records[..n]);
      var before := MapRecords(INITIAL, parent, records[..n]);
      var record := records[n];
      if record.OtherRecord? || record.skipped || record.blocks.None? {
        assert before.events + [] == before.events;
      } else if record.Assistant? {
        var noted := if record.seen.Some? then before.state.(model := record.seen) else before.state;
        AssistantBlocksOrderly(noted, parent, record.messageId, record.blocks.value, before.events);
      } else {
        UserBlocksOrderly(before.state, parent, record.asyncLaunched, record.blocks.value, before.events);
      }
    }
  }

  // ---------------------------------------------------------------- every event tells its block

  function Settled(isError: bool): Status {
    if isError then Failed else Completed
  }

  /** What an assistant's block is shown as, the k-th of its record. */
  ghost predicate AssistantTells(e: Event, parent: string, messageId: string, k: nat, block: Block) {
    match block
    case TextBlock(text) => e == ItemCompleted(Item(parent + ":" + BlockId(messageId, k), Some(parent), AssistantMessage(text)))
    case ThinkingBlock(text) => e == ItemCompleted(Item(parent + ":" + BlockId(messageId, k), Some(parent), Reasoning(text)))
    case ToolUse(Some(id), name, input, None) =>
      e == ItemStarted(Item(parent + ":" + id, Some(parent), ToolCall(name, input, None, InProgress)))
    case ToolUse(Some(id), _, _, Some(spawn)) => e == ItemStarted(Item(id, Some(parent), spawn.snapshot))
    case _ => false
  }

  /** What a user's block is shown as: a text, or a result with its output and whether it is an error. */
  ghost predicate UserTells(e: Event, parent: string, block: Block) {
    && e.ItemCompleted? && e.completed.parent == Some(parent)
    && match block
       case TextBlock(text) => e.completed.content == UserMessage(text)
       case ToolResult(Some(id), isError, output) =>
         || (e.completed.id == parent + ":" + id && e.completed.content.ToolCall?
             && e.completed.content.output == Some(output) && e.completed.content.status == Settled(isError))
         || (e.completed.id == id && e.completed.content.Subagent?
             && e.completed.content.status == Settled(isError)
             && e.completed.content.summary == if Blank(output) then None else Some(OneLineSummary(output)))
       case _ => false
  }

  ghost predicate RecordTells(e: Event, parent: string, record: Record) {
    match record
    case Assistant(false, messageId, Some(blocks), _) => exists k :: 0 <= k < |blocks| && AssistantTells(e, parent, messageId, k, blocks[k])
    case User(false, Some(blocks), _) => exists k :: 0 <= k < |blocks| && UserTells(e, parent, blocks[k])
    case _ => false
  }

  lemma AssistantBlockTells(s: State, parent: string, messageId: string, index: nat, block: Block)
    ensures forall e :: e in AssistantBlock(s, parent, messageId, index, block).events ==>
      AssistantTells(e, parent, messageId, index, block)
  {
  }

  lemma UserBlockTells(s: State, parent: string, asyncLaunched: bool, block: Block)
    ensures forall e :: e in UserBlock(s, parent, asyncLaunched, block).events ==> UserTells(e, parent, block)
  {
  }

  lemma {:induction false} AssistantBlocksTell(s: State, parent: string, messageId: string, blocks: seq<Block>)
    ensures forall e :: e in AssistantBlocks(s, parent, messageId, blocks).events ==>
      exists k :: 0 <= k < |blocks| && AssistantTells(e, parent, messageId, k, blocks[k])
  {
    if blocks != [] {
      var n := |blocks| - 1;
      AssistantBlocksTell(s, parent, messageId, blocks[..n]);
      var before := AssistantBlocks(s, parent, messageId, blocks[..n]);
      AssistantBlockTells(before.state, parent, messageId, n, blocks[n]);
      forall e | e in AssistantBlocks(s, parent, messageId, blocks).events
        ensures exists k :: 0 <= k < |blocks| && AssistantTells(e, parent, messageId, k, blocks[k])
      {
        if e in before.events {
          var k :| 0 <= k < n && AssistantTells(e, parent, messageId, k, blocks[..n][k]);
          assert AssistantTells(e, parent, messageId, k, blocks[k]);
        } else {
          assert AssistantTells(e, parent, messageId, n, blocks[n]);
        }
      }
    }
  }

  lemma {:induction false} UserBlocksTell(s: State, parent: string, asyncLaunched: bool, blocks: seq<Block>)
    ensures forall e :: e in UserBlocks(s, parent, asyncLaunched, blocks).events ==>
      exists k :: 0 <= k < |blocks| && UserTells(e, parent, blocks[k])
  {
    if blocks != [] {
      var n := |blocks| - 1;
      UserBlocksTell(s, parent, asyncLaunched, blocks[..n]);
      var before := UserBlocks(s, parent, asyncLaunched, blocks[..n]);
      UserBlockTells(before.state, parent, asyncLaunched, blocks[n]);
      forall e | e in UserBlocks(s, parent, asyncLaunched, blocks).events
        ensures exists k :: 0 <= k < |blocks| && UserTells(e, parent, blocks[k])
      {
        if e in before.events {
          var k :| 0 <= k < n && UserTells(e, parent, blocks[..n][k]);
          assert UserTells(e, parent, blocks[k]);
        } else {
          assert UserTells(e, parent, blocks[n]);
        }
      }
    }
  }

  lemma RecordIsTold(s: State, parent: string, record: Record)
    ensures forall e :: e in MapRecord(s, parent, record).events ==> RecordTells(e, parent, record)
  {
    if !record.OtherRecord? && !record.skipped && record.blocks.Some? {
      var noted := if record.Assistant? && record.seen.Some? then s.(model := record.seen) else s;
      if record.Assistant? {
        AssistantBlocksTell(noted, parent, record.messageId, record.blocks.value);
      } else {
        UserBlocksTell(noted, parent, record.asyncLaunched, record.blocks.value);
      }
    }
  }

  /**
   * Every event of a transcript shows some block of it as it is: a text or thought under its
   * message and number, a call by its name and input, a result with its output and outcome.
   */
  lemma {:induction false} EveryEventIsTold(parent: string, records: seq<Record>)
    ensures forall e :: e in MapRecords(INITIAL, parent, records).events ==>
      exists record :: record in records && RecordTells(e, parent, record)
  {
    if records != [] {
      var n := |records| - 1;
      EveryEventIsTold(parent, records[..n]);
      var before := MapRecords(INITIAL, parent, records[..n]);
      RecordIsTold(before.state, parent, records[n]);
      forall e | e in MapRecords(INITIAL, parent, records).events
        ensures exists record :: record in records && RecordTells(e, parent, record)
      {
        if e in before.events {
          var record :| record in records[..n] && RecordTells(e, parent, record);
          assert record in records;
        } else {
          assert records[n] in records && RecordTells(e, parent, records[n]);
        }
      }
    }
  }

  /** And each result of a call that is open is shown at once, unless it only tells of a launch. */
  lemma OpenCallIsAnswered(s: State, parent: string, asyncLaunched: bool, id: string, isError: bool, output: string)
    requires id in s.tools
    ensures var out := UserBlock(s, parent, asyncLaunched, ToolResult(Some(id), isError, output));
      && id !in out.state.tools
      && match s.tools[id]
         case Tool(name, input) =>
           out.events == [ItemCompleted(Item(parent + ":" + id, Some(parent), ToolCall(name, input, Some(output), Settled(isError))))]
         case Nested(spawn) =>
           out.events == [] <==> spawn.background || asyncLaunched || StartsWith(output, "Async agent launched successfully")
  {
  }

  /** A user's text is shown under the next number, unless it is the noise of a command. */
  lemma UserTextIsShown(s: State, parent: string, asyncLaunched: bool, text: string)
    ensures var out := UserBlock(s, parent, asyncLaunched, TextBlock(text));
      if IsUserNoise(text) then out == Mapped(s, [])
      else && out.events == [ItemCompleted(Item(parent + ":" + ("user-" + Decimal(s.users + 1)), Some(parent), UserMessage(text)))]
           && out.state == s.(users := s.users + 1)
  {
  }
}
