/** The canonical items and events every provider is mapped onto (crates/agent/src/lib.rs). */
module Events {
  import opened Text

  /** Raw JSON, carried and compared but never looked into. */
  type Json = string

  datatype Status = InProgress | Completed | Failed

  datatype ToolKind = ReadKind | EditKind | DeleteKind | MoveKind | SearchKind | ExecuteKind | ThinkKind | FetchKind | OtherKind

  datatype ToolStatus = ToolPending | ToolInProgress | ToolCompleted | ToolFailed

  /** Everything known about an ACP tool call; the card it renders to is a function of this. */
  datatype ToolFields = ToolFields(
    title: string, kind: ToolKind, status: ToolStatus, content: seq<Json>, locations: seq<Json>,
    rawInput: Option<Json>, rawOutput: Option<Json>)

  datatype Content =
    | AssistantMessage(text: string)
    | Reasoning(text: string)
    | UserMessage(text: string)
    | ToolCall(name: string, input: Json, output: Option<string>, status: Status)
    | Command(command: string, commandOutput: string, exitCode: Option<int>, status: Status)
    | Subagent(agentType: string, description: string, status: Status, summary: Option<string>,
               model: Option<string>, effort: Option<string>)
    | ToolCard(fields: ToolFields)

  datatype Item = Item(id: string, parent: Option<string>, content: Content)

  datatype DeltaKind = AssistantText | ReasoningText

  datatype TurnStatus = TurnDone | TurnInterrupted | TurnFailed

  datatype Event =
    | TurnStarted(turn: string)
    | TurnCompleted(turn: string, outcome: TurnStatus, usage: Option<Json>)
    | TurnError(message: string)
    | Delta(item: string, kind: DeltaKind, text: string)
    | ItemStarted(started: Item)
    | ItemUpdated(updated: Item)
    | ItemCompleted(completed: Item)
    | BackgroundTasksChanged(count: nat)
    | Unrelated(description: string)

  predicate IsItemEvent(e: Event) {
    e.ItemStarted? || e.ItemUpdated? || e.ItemCompleted?
  }

  function EventItem(e: Event): Item
    requires IsItemEvent(e)
  {
    match e
    case ItemStarted(item) => item
    case ItemUpdated(item) => item
    case ItemCompleted(item) => item
  }

  /** Appending a batch is appending its front and then its last event. */
  lemma AppendLast(log: seq<Event>, front: seq<Event>, last: Event)
    ensures log + (front + [last]) == (log + front) + [last]
    ensures log + [] == log
  {
  }
}
