/** One live ACP session's protocol state (crates/agent/src/acp_session.rs, `State`). */
module AcpSession {
  import opened Text
  import opened Events

  datatype TurnEnd = TurnEnd(status: TurnStatus, message: Option<string>, usage: Option<Json>)

  /** The text block currently streaming. */
  datatype Stream = Stream(id: string, kind: DeltaKind, text: string)

  /** A tool call as last known, and whether an item was started for it. */
  datatype Tool = Tool(fields: ToolFields, announced: bool)

  const BLANK := ToolFields("", OtherKind, ToolPending, [], [], None, None)

  /** A `tool_call_update`: absent fields keep their value, present ones replace it whole. */
  datatype Patch = Patch(
    title: Option<string>, kind: Option<ToolKind>, status: Option<ToolStatus>, content: Option<seq<Json>>,
    locations: Option<seq<Json>>, rawInput: Option<Json>, rawOutput: Option<Json>)

  datatype Session = Session(turn: Option<string>, nextTurn: Option<string>, text: Option<Stream>, textSeq: nat,
                             tools: map<string, Tool>)

  const INITIAL := Session(None, None, None, 0, map[])

  datatype Stepped = Stepped(session: Session, events: seq<Event>)

  // ---------------------------------------------------------------- specification

  function TurnName(n: nat): string {
    "turn-" + Decimal(n)
  }

  function TextId(kind: DeltaKind, n: nat): string {
    (if kind.ReasoningText? then "thought-" else "msg-") + Decimal(n)
  }

  function TextContent(kind: DeltaKind, text: string): Content {
    if kind.ReasoningText? then Reasoning(text) else AssistantMessage(text)
  }

  function Flushed(s: Session): Stepped {
    if s.text.None? || s.text.value.text == [] then Stepped(s.(text := None), [])
    else
      var stream := s.text.value;
      Stepped(s.(text := None), [ItemCompleted(Item(stream.id, None, TextContent(stream.kind, stream.text)))])
  }

  function Pushed(s: Session, kind: DeltaKind, text: string): Stepped {
    if s.text.Some? && s.text.value.kind == kind then
      var stream := s.text.value;
      Stepped(s.(text := Some(stream.(text := stream.text + text))), [Delta(stream.id, kind, text)])
    else
      var flushed := Flushed(s);
      var id := TextId(kind, s.textSeq + 1);
      Stepped(s.(textSeq := s.textSeq + 1, text := Some(Stream(id, kind, text))), flushed.events + [Delta(id, kind, text)])
  }

  /** An agent message or thought chunk; an empty one is ignored. */
  function Chunked(s: Session, kind: DeltaKind, text: string): Stepped {
    if text == [] then Stepped(s, []) else Pushed(s, kind, text)
  }

  function Begun(s: Session, turn: string): Stepped {
    if s.turn.Some? then Stepped(s.(nextTurn := Some(turn)), [])
    else Stepped(s.(turn := Some(turn)), [TurnStarted(turn)])
  }

  function Preamble(s: Session, end: TurnEnd): seq<Event> {
    Flushed(s).events + if end.message.Some? then [TurnError(end.message.value)] else []
  }

  function Closed(s: Session, turn: string, end: TurnEnd): Stepped {
    var closing := Preamble(s, end) + [TurnCompleted(turn, end.status, end.usage)];
    var closed := s.(text := None, turn := None);
    if s.nextTurn.None? then Stepped(closed, closing)
    else Stepped(closed.(turn := s.nextTurn, nextTurn := None), closing + [TurnStarted(s.nextTurn.value)])
  }

  function Ended(s: Session, turn: string, end: TurnEnd): Stepped {
    var unparked := if s.nextTurn == Some(turn) then s.(nextTurn := None) else s;
    if s.turn != Some(turn) then Flushed(unparked) else Closed(unparked, turn, end)
  }

  function Merge(f: ToolFields, p: Patch): ToolFields {
    ToolFields(
      if p.title.Some? then p.title.value else f.title,
      if p.kind.Some? then p.kind.value else f.kind,
      if p.status.Some? then p.status.value else f.status,
      if p.content.Some? then p.content.value else f.content,
      if p.locations.Some? then p.locations.value else f.locations,
      if p.rawInput.Some? then p.rawInput else f.rawInput,
      if p.rawOutput.Some? then p.rawOutput else f.rawOutput)
  }

  function Known(s: Session, id: string): Tool {
    if id in s.tools then s.tools[id] else Tool(BLANK, false)
  }

  function CardItem(id: string, fields: ToolFields): Item {
    Item(id, None, ToolCard(fields))
  }

  function Called(s: Session, id: string, fields: ToolFields): Stepped {
    var flushed := Flushed(s);
    var item := CardItem(id, fields);
    Stepped(flushed.session.(tools := s.tools[id := Tool(fields, true)]),
            flushed.events + [if Known(s, id).announced then ItemUpdated(item) else ItemStarted(item)])
  }

  function Patched(s: Session, id: string, patch: Patch): Stepped {
    var flushed := Flushed(s);
    var fields := Merge(Known(s, id).fields, patch);
    var item := CardItem(id, fields);
    var event := if !Known(s, id).announced then ItemStarted(item)
      else if fields.status == ToolCompleted || fields.status == ToolFailed then ItemCompleted(item)
      else ItemUpdated(item);
    Stepped(flushed.session.(tools := s.tools[id := Tool(fields, true)]), flushed.events + [event])
  }

  /** A permission request keeps the card's title, kind and input in step and announces nothing. */
  function PermissionPatch(title: Option<string>, kind: Option<ToolKind>, rawInput: Option<Json>): Patch {
    Patch(title, kind, None, None, None, rawInput, None)
  }

  function Permitted(s: Session, id: string, title: Option<string>, kind: Option<ToolKind>, rawInput: Option<Json>): Session {
    var tool := Known(s, id);
    s.(tools := s.tools[id := tool.(fields := Merge(tool.fields, PermissionPatch(title, kind, rawInput)))])
  }

  function TurnSent(s: Session, n: nat): Stepped {
    Stepped(s.(turn := Some(TurnName(n))), [TurnStarted(TurnName(n))])
  }

  /** The `session/prompt` result of sent turn n. */
  function Settled(s: Session, n: nat, end: TurnEnd): Stepped {
    if s.turn != Some(TurnName(n)) then Stepped(s, []) else Closed(s, TurnName(n), end)
  }

  // ---------------------------------------------------------------- the state object

  class State {
    var turn: Option<string>
    var nextTurn: Option<string>
    var text: Option<Stream>
    var textSeq: nat
    var tools: map<string, Tool>

    constructor ()
      ensures View() == INITIAL
    {
      turn, nextTurn, text, textSeq, tools := None, None, None, 0, map[];
    }

    function View(): Session
      reads this
    {
      Session(turn, nextTurn, text, textSeq, tools)
    }

    method FlushText() returns (events: seq<Event>)
      modifies this`text
      ensures Stepped(View(), events) == Flushed(old(View()))
    {
      var stream := text;
      text := None;
      if stream.None? || stream.value.text == [] {
        return [];
      }
      return [ItemCompleted(Item(stream.value.id, None, TextContent(stream.value.kind, stream.value.text)))];
    }

    method PushText(kind: DeltaKind, chunk: string) returns (events: seq<Event>)
      modifies this`text, this`textSeq
      ensures Stepped(View(), events) == Pushed(old(View()), kind, chunk)
    {
      events := [];
      assert forall e: Event :: [] + [e] == [e];
      if !(text.Some? && text.value.kind == kind) {
        events := FlushText();
        textSeq := textSeq + 1;
        text := Some(Stream(TextId(kind, textSeq), kind, []));
      }
      assert [] + chunk == chunk;
      text := Some(text.value.(text := text.value.text + chunk));
      events := events + [Delta(text.value.id, kind, chunk)];
    }

    method ApplyChunk(kind: DeltaKind, chunk: string) returns (events: seq<Event>)
      modifies this`text, this`textSeq
      ensures Stepped(View(), events) == Chunked(old(View()), kind, chunk)
    {
      events := [];
      if chunk != [] {
        events := PushText(kind, chunk);
      }
    }

    method BeginAgentTurn(id: string) returns (events: seq<Event>)
      modifies this`turn, this`nextTurn
      ensures Stepped(View(), events) == Begun(old(View()), id)
    {
      if turn.Some? {
        nextTurn := Some(id);
        return [];
      }
      turn := Some(id);
      return [TurnStarted(id)];
    }

    method CompleteTurn(id: string, end: TurnEnd) returns (events: seq<Event>)
      modifies this`turn, this`nextTurn, this`text
      ensures Stepped(View(), events) == Closed(old(View()), id, end)
    {
      events := FlushText();
      turn := None;
      if end.message.Some? {
        events := events + [TurnError(end.message.value)];
      }
      events := events + [TurnCompleted(id, end.status, end.usage)];
      if nextTurn.Some? {
        var next := nextTurn.value;
        nextTurn := None;
        var begun := BeginAgentTurn(next);
        events := events + begun;
      }
    }

    method EndTurn(id: string, end: TurnEnd) returns (events: seq<Event>)
      modifies this`turn, this`nextTurn, this`text
      ensures Stepped(View(), events) == Ended(old(View()), id, end)
    {
      if nextTurn == Some(id) {
        nextTurn := None;
      }
      if turn != Some(id) {
        events := FlushText();
      } else {
        events := CompleteTurn(id, end);
      }
    }

    method ApplyToolCall(id: string, fields: ToolFields) returns (events: seq<Event>)
      modifies this`text, this`tools
      ensures Stepped(View(), events) == Called(old(View()), id, fields)
    {
      events := FlushText();
      var existed := id in tools && tools[id].announced;
      tools := tools[id := Tool(fields, true)];
      var item := CardItem(id, fields);
      events := events + [if existed then ItemUpdated(item) else ItemStarted(item)];
    }

    method ApplyToolPatch(id: string, patch: Patch) returns (events: seq<Event>)
      modifies this`text, this`tools
      ensures Stepped(View(), events) == Patched(old(View()), id, patch)
    {
      events := FlushText();
      var entry := if id in tools then tools[id] else Tool(BLANK, false);
      var announced := entry.announced;
      entry := Tool(Merge(entry.fields, patch), true);
      tools := tools[id := entry];
      var item := CardItem(id, entry.fields);
      if !announced {
        events := events + [ItemStarted(item)];
      } else if entry.fields.status == ToolCompleted || entry.fields.status == ToolFailed {
        events := events + [ItemCompleted(item)];
      } else {
        events := events + [ItemUpdated(item)];
      }
    }

    method NotePermission(id: string, title: Option<string>, kind: Option<ToolKind>, rawInput: Option<Json>)
      modifies this`tools
      ensures View() == Permitted(old(View()), id, title, kind, rawInput)
    {
      var entry := if id in tools then tools[id] else Tool(BLANK, false);
      if title.Some? {
        entry := entry.(fields := entry.fields.(title := title.value));
      }
      if kind.Some? {
        entry := entry.(fields := entry.fields.(kind := kind.value));
      }
      if rawInput.Some? {
        entry := entry.(fields := entry.fields.(rawInput := rawInput));
      }
      tools := tools[id := entry];
    }

    /** `turnSeq` is the actor's own counter. */
    method HandleSendTurn(turnSeq: nat) returns (newSeq: nat, events: seq<Event>)
      modifies this`turn
      ensures newSeq == turnSeq + 1
      ensures Stepped(View(), events) == TurnSent(old(View()), turnSeq + 1)
    {
      newSeq := turnSeq + 1;
      turn := Some(TurnName(newSeq));
      events := [TurnStarted(TurnName(newSeq))];
    }

    method HandlePromptResult(n: nat, end: TurnEnd) returns (events: seq<Event>)
      modifies this`turn, this`nextTurn, this`text
      ensures Stepped(View(), events) == Settled(old(View()), n, end)
    {
      if turn != Some(TurnName(n)) {
        return [];
      }
      events := CompleteTurn(TurnName(n), end);
    }
  }

  // ---------------------------------------------------------------- whole runs

  /** One lock-protected handler, in the order the session ran them. */
  datatype Op =
    | Sent
    | PromptResult(n: nat, end: TurnEnd)
    | AgentBegan(turn: string)
    | AgentEnded(turn: string, end: TurnEnd)
    | Streamed(kind: DeltaKind, text: string)
    | ToolCalled(id: string, fields: ToolFields)
    | ToolPatched(id: string, patch: Patch)
    | PermissionAsked(id: string, title: Option<string>, toolKind: Option<ToolKind>, rawInput: Option<Json>)
    | Reported(event: Event)

  /** An event that concerns no turn, text or tool: plans, usage, options, retries, background counts. */
  predicate Neutral(e: Event) {
    e.BackgroundTasksChanged? || e.Unrelated? || e.TurnError?
  }

  /** Ids the agent gives its own turns are never of the form the client gives its own. */
  ghost predicate AgentTurnId(turn: string) {
    forall n: nat :: turn != TurnName(n)
  }

  ghost predicate Legal(op: Op) {
    && (op.AgentBegan? ==> AgentTurnId(op.turn))
    && (op.Reported? ==> Neutral(op.event))
  }

  ghost predicate AllLegal(ops: seq<Op>) {
    forall i :: 0 <= i < |ops| ==> Legal(ops[i])
  }

  function Apply(s: Session, sent: nat, op: Op): Stepped {
    match op
    case Sent => TurnSent(s, sent + 1)
    case PromptResult(n, end) => Settled(s, n, end)
    case AgentBegan(turn) => Begun(s, turn)
    case AgentEnded(turn, end) => Ended(s, turn, end)
    case Streamed(kind, text) => Chunked(s, kind, text)
    case ToolCalled(id, fields) => Called(s, id, fields)
    case ToolPatched(id, patch) => Patched(s, id, patch)
    case PermissionAsked(id, title, kind, rawInput) => Stepped(Permitted(s, id, title, kind, rawInput), [])
    case Reported(event) => Stepped(s, [event])
  }

  datatype Run = Run(session: Session, sent: nat, log: seq<Event>)

  function Step(r: Run, op: Op): Run {
    var stepped := Apply(r.session, r.sent, op);
    Run(stepped.session, if op.Sent? then r.sent + 1 else r.sent, r.log + stepped.events)
  }

  function Exec(ops: seq<Op>): Run {
    if ops == [] then Run(INITIAL, 0, []) else Step(Exec(ops[..|ops| - 1]), ops[|ops| - 1])
  }
}
