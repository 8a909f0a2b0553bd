/**
 * The part of Claude's mapper that settles subagents (crates/agent/src/claude.rs, `Mapper`): tool
 * items, child dedupe, and terminal snapshots held until a transcript tail has flushed.
 */
module SubagentGate {
  import opened Text
  import opened Events
  import opened ChildDedupe
  import Transcript

  datatype Sub = Sub(agentType: string, description: string, status: Status, summary: Option<string>,
                     model: Option<string>, effort: Option<string>, parent: Option<string>)

  /** What a tool-use id refers to; a file or other tool keeps its name and input. */
  datatype ToolItem = SubItem(sub: Sub) | CommandItem(command: string, output: string) | PlainItem(name: string, input: Json)

  datatype Mapper = Mapper(items: map<string, ToolItem>, taskTools: map<string, string>, stages: map<string, Stage>,
                           tailed: set<string>, pending: map<string, Event>)

  const INITIAL := Mapper(map[], map[], map[], {}, map[])

  datatype Request = StartTail(parent: string) | PreferPath(preferred: string) | StopTail(stopped: string)

  /** A step of the mapper: what it emits, and the snapshots it holds back, in order. */
  datatype Out = Out(mapper: Mapper, events: seq<Event>, gated: seq<Event>)

  datatype Reply = Reply(out: Out, requests: seq<Request>)

  // ---------------------------------------------------------------- snapshots

  predicate IsSub(m: Mapper, id: string) {
    id in m.items && m.items[id].SubItem?
  }

  function Snapshot(s: Sub): Content {
    Subagent(s.agentType, s.description, s.status, s.summary, s.model, s.effort)
  }

  function SubOf(content: Content, parent: Option<string>): Sub
    requires content.Subagent?
  {
    Sub(content.agentType, content.description, content.status, content.summary, content.model, content.effort, parent)
  }

  /** A Subagent snapshot that closes it. */
  predicate Terminal(e: Event) {
    (e.ItemUpdated? || e.ItemCompleted?) && EventItem(e).content.Subagent? && EventItem(e).content.status != InProgress
  }

  predicate TerminalOf(e: Event, id: string) {
    Terminal(e) && EventItem(e).id == id
  }

  // ---------------------------------------------------------------- specification

  function Chain(a: Out, b: Out): Out {
    Out(b.mapper, a.events + b.events, a.gated + b.gated)
  }

  function Quiet(m: Mapper): Out {
    Out(m, [], [])
  }

  /** A terminal snapshot is held while its transcript is tailed; a later one replaces it. */
  function Gated(m: Mapper, id: string, e: Event): Out {
    if id in m.tailed then Out(m.(pending := m.pending[id := e]), [], [e]) else Out(m, [e], [])
  }

  function SubUpdated(m: Mapper, id: string, status: Status, summary: Option<string>): Out {
    if !IsSub(m, id) then Quiet(m)
    else
      var known := m.items[id].sub;
      var sub := known.(status := status, summary := if summary.Some? then summary else known.summary);
      var updated := m.(items := m.items[id := SubItem(sub)]);
      var e := ItemUpdated(Item(id, sub.parent, Snapshot(sub)));
      if status == InProgress then Out(updated, [e], []) else Gated(updated, id, e)
  }

  function ModelNoted(m: Mapper, id: string, seen: Transcript.ModelSeen): Out {
    if !IsSub(m, id) then Quiet(m)
    else
      var known := m.items[id].sub;
      var sub := known.(model := OrElse(seen.model, known.model), effort := OrElse(seen.effort, known.effort));
      if sub == known then Quiet(m)
      else SubUpdated(m.(items := m.items[id := SubItem(sub)]), id, sub.status, None)
  }

  function MaybeNoted(m: Mapper, id: string, seen: Option<Transcript.ModelSeen>): Out {
    if seen.Some? then ModelNoted(m, id, seen.value) else Quiet(m)
  }

  function ChildFolded(m: Mapper, e: Event): Out {
    if !Passes(m.stages, e) then Quiet(m)
    else
      var known := m.(stages := Advanced(m.stages, e));
      if e.ItemStarted? && e.started.content.Subagent? then
        var id := e.started.id;
        Out(if id in m.items then known else known.(items := m.items[id := SubItem(SubOf(e.started.content, e.started.parent))]), [e], [])
      else if e.ItemCompleted? && e.completed.content.Subagent? && IsSub(m, e.completed.id) then
        Gated(known.(items := m.items - {e.completed.id}), e.completed.id, e)
      else Out(known, [e], [])
  }

  function ChildrenFolded(m: Mapper, events: seq<Event>): Out {
    if events == [] then Quiet(m)
    else
      var before := ChildrenFolded(m, events[..|events| - 1]);
      Chain(before, ChildFolded(before.mapper, events[|events| - 1]))
  }

  /** One read of a tailed transcript; `stopped` marks the final batch. */
  datatype Notice = Notice(parent: string, events: seq<Event>, seen: Option<Transcript.ModelSeen>, stopped: bool)

  function Released(m: Mapper, parent: string): Out {
    Out(m.(tailed := m.tailed - {parent}, pending := m.pending - {parent}),
        if parent in m.pending then [m.pending[parent]] else [], [])
  }

  /** The batch itself, before a stopped tail's snapshot is released. */
  function Flushed(m: Mapper, n: Notice): Out {
    var noted := MaybeNoted(m, n.parent, n.seen);
    Chain(noted, ChildrenFolded(noted.mapper, n.events))
  }

  function NoticeTaken(m: Mapper, n: Notice): Out {
    var flushed := Flushed(m, n);
    if n.stopped then Chain(flushed, Released(flushed.mapper, n.parent)) else flushed
  }

  // ---------------------------------------------------------------- messages on stdout

  datatype ResultBlock = ResultBlock(toolUseId: string, isError: bool, output: string)

  /** What a user message says of its tool results as a whole. */
  datatype ResultFlags = ResultFlags(asyncLaunched: bool, agentId: Option<string>, inBackground: bool)

  datatype Message =
    | ToolUsed(id: string, item: ToolItem)
    | ToolResults(blocks: seq<ResultBlock>, flags: ResultFlags)
    | TaskStarted(taskId: Option<string>, toolUseId: Option<string>, localBash: bool)
    | TaskUpdated(updatedTask: string, status: Option<Status>)
    | TaskNotified(notifiedTask: Option<string>, notifiedTool: Option<string>, outcome: Status, summary: Option<string>, hasPath: bool)
    | ChildRecords(parent: string, seen: Option<Transcript.ModelSeen>, children: seq<Event>)
    | OtherMessage(plain: seq<Event>)

  function StartedContent(item: ToolItem): Content {
    match item
    case SubItem(sub) => Snapshot(sub)
    case CommandItem(command, _) => Command(command, "", None, InProgress)
    case PlainItem(name, input) => ToolCall(name, input, None, InProgress)
  }

  /** A spawn snapshot starts in progress, at the top level and without a summary. */
  predicate FreshItem(item: ToolItem) {
    match item
    case SubItem(sub) => sub.status == InProgress && sub.summary.None? && sub.effort.None? && sub.parent.None?
    case CommandItem(_, output) => output == ""
    case PlainItem(_, _) => true
  }

  function ResultTaken(m: Mapper, block: ResultBlock, flags: ResultFlags): Out {
    var id := block.toolUseId;
    if id !in m.items then Quiet(m)
    else
      var status := if block.isError then Failed else Completed;
      var rest := m.(items := m.items - {id});
      match m.items[id]
      case SubItem(sub) =>
        if flags.asyncLaunched then
          var tasks := if flags.agentId.Some? then m.taskTools[flags.agentId.value := id] else m.taskTools;
          SubUpdated(m.(taskTools := tasks), id, InProgress, None)
        else
          var summary := if sub.summary.Some? then sub.summary
            else if Blank(block.output) then None else Some(Transcript.OneLineSummary(block.output));
          Gated(rest, id, ItemCompleted(Item(id, sub.parent, Snapshot(sub.(status := status, summary := summary)))))
      case CommandItem(command, _) =>
        if flags.inBackground then
          Out(m.(items := m.items[id := CommandItem(command, block.output)]),
              [ItemUpdated(Item(id, None, Command(command, block.output, None, InProgress)))], [])
        else
          Out(rest, [ItemCompleted(Item(id, None, Command(command, block.output, Some(if block.isError then 1 else 0), status)))], [])
      case PlainItem(name, input) =>
        Out(rest, [ItemCompleted(Item(id, None, ToolCall(name, input, Some(block.output), status)))], [])
  }

  function ResultsTaken(m: Mapper, blocks: seq<ResultBlock>, flags: ResultFlags): Out {
    if blocks == [] then Quiet(m)
    else
      var before := ResultsTaken(m, blocks[..|blocks| - 1], flags);
      Chain(before, ResultTaken(before.mapper, blocks[|blocks| - 1], flags))
  }

  function TaskBegun(m: Mapper, taskId: Option<string>, toolUseId: Option<string>, localBash: bool): Reply {
    if toolUseId.None? then Reply(Quiet(m), [])
    else if taskId.None? then Reply(SubUpdated(m, toolUseId.value, InProgress, None), [])
    else
      var parent := if taskId.value in m.taskTools then m.taskTools[taskId.value] else toolUseId.value;
      var known := m.(taskTools := m.taskTools[taskId.value := parent]);
      if localBash then Reply(SubUpdated(known, parent, InProgress, None), [])
      else Reply(SubUpdated(known.(tailed := known.tailed + {parent}), parent, InProgress, None), [StartTail(parent)])
  }

  function CommandEnded(m: Mapper, id: string, status: Status, summary: Option<string>): Out
  {
    var rest := m.(items := m.items - {id});
    if id !in m.items || !m.items[id].CommandItem? then Quiet(rest)
    else
      var command, output := m.items[id].command, m.items[id].output;
      var shown := if Blank(output) && summary.Some? then summary.value else output;
      Out(rest, [ItemCompleted(Item(id, None, Command(command, shown, if status == Completed then Some(0) else None, status)))], [])
  }

  function Answer(m: Mapper, message: Message): Reply {
    match message
    case ToolUsed(id, item) =>
      Reply(Out(m.(items := m.items[id := item]), [ItemStarted(Item(id, None, StartedContent(item)))], []), [])
    case ToolResults(blocks, flags) => Reply(ResultsTaken(m, blocks, flags), [])
    case TaskStarted(taskId, toolUseId, localBash) => TaskBegun(m, taskId, toolUseId, localBash)
    case TaskUpdated(taskId, status) =>
      if taskId !in m.taskTools || status.None? then Reply(Quiet(m), [])
      else
        var id := m.taskTools[taskId];
        Reply(SubUpdated(m, id, status.value, None), if status.value == InProgress then [] else [StopTail(id)])
    case TaskNotified(taskId, toolUseId, outcome, summary, hasPath) =>
      var id := if taskId.Some? && taskId.value in m.taskTools then Some(m.taskTools[taskId.value]) else toolUseId;
      if id.None? then Reply(Quiet(m), [])
      else
        var line := if summary.Some? then Some(Transcript.OneLineSummary(summary.value)) else None;
        var out := if id.value in m.items && m.items[id.value].CommandItem?
          then CommandEnded(m, id.value, outcome, line) else SubUpdated(m, id.value, outcome, line);
        Reply(out, if hasPath then [PreferPath(id.value), StopTail(id.value)] else [StopTail(id.value)])
    case ChildRecords(parent, seen, children) =>
      var noted := MaybeNoted(m, parent, seen);
      Reply(Chain(noted, ChildrenFolded(noted.mapper, children)), [])
    case OtherMessage(plain) => Reply(Out(m, plain, []), [])
  }

  /** A spawn read back from Claude's metadata, and a task resumed under its original spawn. */
  datatype Spawned = Spawned(taskId: string, toolUseId: string, sub: Sub)

  datatype Wire = Wire(message: Message, spawn: Option<Spawned>, resumed: Option<string>)

  function SpawnRestored(m: Mapper, spawn: Option<Spawned>): Mapper {
    if spawn.None? || (spawn.value.taskId in m.taskTools && IsSub(m, m.taskTools[spawn.value.taskId])) then m
    else
      var s := spawn.value;
      m.(taskTools := m.taskTools[s.taskId := s.toolUseId],
         items := if s.toolUseId in m.items then m.items else m.items[s.toolUseId := SubItem(s.sub)])
  }

  function WireTaken(m: Mapper, w: Wire): Reply {
    var restored := SpawnRestored(m, w.spawn);
    var parent := if w.resumed.Some? && w.resumed.value in restored.taskTools then Some(restored.taskTools[w.resumed.value]) else None;
    var reply := Answer(restored, w.message);
    if parent.None? then reply
    else Reply(Chain(reply.out, SubUpdated(reply.out.mapper, parent.value, InProgress, None)), reply.requests)
  }

  /** The snapshots still held at teardown, in the order the hash map gives them. */
  function HeldIn(pending: map<string, Event>, order: seq<string>): seq<Event> {
    if order == [] then []
    else if order[0] in pending then [pending[order[0]]] + HeldIn(pending, order[1..])
    else HeldIn(pending, order[1..])
  }

  lemma {:induction false} HeldInSnoc(pending: map<string, Event>, order: seq<string>, id: string)
    ensures HeldIn(pending, order + [id]) == HeldIn(pending, order) + if id in pending then [pending[id]] else []
  {
    if order == [] {
      assert HeldIn(pending, [id][1..]) == [];
    } else {
      assert (order + [id])[1..] == order[1..] + [id];
      HeldInSnoc(pending, order[1..], id);
    }
  }

  // ---------------------------------------------------------------- the mapper object

  class MapperState {
    var items: map<string, ToolItem>
    var taskTools: map<string, string>
    var stages: map<string, Stage>
    var tailed: set<string>
    var pending: map<string, Event>

    constructor ()
      ensures View() == INITIAL
    {
      items, taskTools, stages, tailed, pending := map[], map[], map[], {}, map[];
    }

    function View(): Mapper
      reads this
    {
      Mapper(items, taskTools, stages, tailed, pending)
    }

    method GateSubagentTerminal(id: string, e: Event) returns (events: seq<Event>)
      modifies this`pending
      ensures View() == Gated(old(View()), id, e).mapper && events == Gated(old(View()), id, e).events
    {
      if id in tailed {
        pending := pending[id := e];
        return [];
      }
      return [e];
    }

    method UpdateSubagent(id: string, status: Status, summary: Option<string>) returns (events: seq<Event>)
      modifies this`items, this`pending
      ensures View() == SubUpdated(old(View()), id, status, summary).mapper
      ensures events == SubUpdated(old(View()), id, status, summary).events
    {
      if !(id in items && items[id].SubItem?) {
        return [];
      }
      var sub := items[id].sub;
      if summary.Some? {
        sub := sub.(summary := summary);
      }
      sub := sub.(status := status);
      items := items[id := SubItem(sub)];
      var e := ItemUpdated(Item(id, sub.parent, Snapshot(sub)));
      if status == InProgress {
        return [e];
      }
      events := GateSubagentTerminal(id, e);
    }

    method NoteSubagentModel(id: string, seen: Transcript.ModelSeen) returns (events: seq<Event>)
      modifies this`items, this`pending
      ensures View() == ModelNoted(old(View()), id, seen).mapper && events == ModelNoted(old(View()), id, seen).events
    {
      if !(id in items && items[id].SubItem?) {
        return [];
      }
      var sub := items[id].sub;
      var model, effort := OrElse(seen.model, sub.model), OrElse(seen.effort, sub.effort);
      if model == sub.model && effort == sub.effort {
        return [];
      }
      sub := sub.(model := model, effort := effort);
      items := items[id := SubItem(sub)];
      events := UpdateSubagent(id, sub.status, None);
    }

    method AdvanceChildItem(e: Event) returns (news: bool)
      modifies this`stages
      ensures news == Passes(old(stages), e) && stages == Advanced(old(stages), e)
    {
      if !IsItemEvent(e) {
        return true;
      }
      var id := EventItem(e).id;
      if id in stages && (stages[id].HasCompleted? || e.ItemStarted? || stages[id] == StageOf(e)) {
        return false;
      }
      stages := stages[id := StageOf(e)];
      return true;
    }

    method FoldChildEvents(events: seq<Event>) returns (out: seq<Event>)
      modifies this`items, this`stages, this`pending
      ensures View() == ChildrenFolded(old(View()), events).mapper && out == ChildrenFolded(old(View()), events).events
    {
      out := [];
      assert events[..0] == [];
      for i := 0 to |events|
        invariant View() == ChildrenFolded(old(View()), events[..i]).mapper
        invariant out == ChildrenFolded(old(View()), events[..i]).events
      {
        assert events[..i + 1][..i] == events[..i];
        var emitted := FoldChildEvent(events[i]);
        out := out + emitted;
      }
      assert events[..|events|] == events;
    }

    method FoldChildEvent(e: Event) returns (out: seq<Event>)
      modifies this`items, this`stages, this`pending
      ensures View() == ChildFolded(old(View()), e).mapper && out == ChildFolded(old(View()), e).events
    {
      var news := AdvanceChildItem(e);
      if !news {
        return [];
      }
      if e.ItemStarted? && e.started.content.Subagent? {
        if e.started.id !in items {
          items := items[e.started.id := SubItem(SubOf(e.started.content, e.started.parent))];
        }
        return [e];
      }
      if e.ItemCompleted? && e.completed.content.Subagent? && e.completed.id in items && items[e.completed.id].SubItem? {
        items := items - {e.completed.id};
        out := GateSubagentTerminal(e.completed.id, e);
        return;
      }
      return [e];
    }

    method OnTailNotice(n: Notice) returns (events: seq<Event>)
      modifies this
      ensures View() == NoticeTaken(old(View()), n).mapper && events == NoticeTaken(old(View()), n).events
    {
      events := [];
      if n.seen.Some? {
        events := NoteSubagentModel(n.parent, n.seen.value);
      }
      var folded := FoldChildEvents(n.events);
      events := events + folded;
      if n.stopped {
        tailed := tailed - {n.parent};
        if n.parent in pending {
          events := events + [pending[n.parent]];
        }
        pending := pending - {n.parent};
      }
    }

    method OnTaskStarted(taskId: Option<string>, toolUseId: Option<string>, localBash: bool)
      returns (events: seq<Event>, requests: seq<Request>)
      modifies this`taskTools, this`tailed, this`items, this`pending
      ensures View() == TaskBegun(old(View()), taskId, toolUseId, localBash).out.mapper
      ensures events == TaskBegun(old(View()), taskId, toolUseId, localBash).out.events
      ensures requests == TaskBegun(old(View()), taskId, toolUseId, localBash).requests
    {
      events, requests := [], [];
      if toolUseId.None? {
        return;
      }
      var parent := toolUseId.value;
      if taskId.Some? {
        if taskId.value in taskTools {
          parent := taskTools[taskId.value];
        } else {
          taskTools := taskTools[taskId.value := parent];
        }
        assert old(View()).taskTools[taskId.value := parent] == taskTools;
        if !localBash {
          tailed := tailed + {parent};
          requests := [StartTail(parent)];
        }
      }
      events := UpdateSubagent(parent, InProgress, None);
    }

    method OnToolUse(id: string, item: ToolItem) returns (events: seq<Event>)
      modifies this`items
      ensures View() == Answer(old(View()), ToolUsed(id, item)).out.mapper
      ensures events == Answer(old(View()), ToolUsed(id, item)).out.events
    {
      items := items[id := item];
      return [ItemStarted(Item(id, None, StartedContent(item)))];
    }

    method OnUser(blocks: seq<ResultBlock>, flags: ResultFlags) returns (events: seq<Event>)
      modifies this`items, this`taskTools, this`pending
      ensures View() == ResultsTaken(old(View()), blocks, flags).mapper
      ensures events == ResultsTaken(old(View()), blocks, flags).events
    {
      events := [];
      assert blocks[..0] == [];
      for i := 0 to |blocks|
        invariant View() == ResultsTaken(old(View()), blocks[..i], flags).mapper
        invariant events == ResultsTaken(old(View()), blocks[..i], flags).events
      {
        assert blocks[..i + 1][..i] == blocks[..i];
        var settled := SettleResult(blocks[i], flags);
        events := events + settled;
      }
      assert blocks[..|blocks|] == blocks;
    }

    /** One tool result: the item leaves `items`, unless it runs on in the background. */
    method SettleResult(block: ResultBlock, flags: ResultFlags) returns (events: seq<Event>)
      modifies this`items, this`taskTools, this`pending
      ensures View() == ResultTaken(old(View()), block, flags).mapper
      ensures events == ResultTaken(old(View()), block, flags).events
    {
      var id := block.toolUseId;
      if id !in items {
        return [];
      }
      var item, known := items[id], items;
      items := items - {id};
      if item.SubItem? && flags.asyncLaunched {
        if flags.agentId.Some? {
          taskTools := taskTools[flags.agentId.value := id];
        }
        items := items[id := item];
        assert items == known;
        events := UpdateSubagent(id, InProgress, None);
        return;
      }
      var status := if block.isError then Failed else Completed;
      match item
      case SubItem(sub) =>
        var summary := sub.summary;
        if summary.None? && !Blank(block.output) {
          summary := Some(Transcript.OneLineSummary(block.output));
        }
        events := GateSubagentTerminal(id, ItemCompleted(Item(id, sub.parent, Snapshot(sub.(status := status, summary := summary)))));
      case CommandItem(command, _) =>
        if flags.inBackground {
          items := items[id := CommandItem(command, block.output)];
          assert items == known[id := CommandItem(command, block.output)];
          return [ItemUpdated(Item(id, None, Command(command, block.output, None, InProgress)))];
        }
        return [ItemCompleted(Item(id, None, Command(command, block.output, Some(if block.isError then 1 else 0), status)))];
      case PlainItem(name, input) =>
        return [ItemCompleted(Item(id, None, ToolCall(name, input, Some(block.output), status)))];
    }

    method OnTaskUpdated(taskId: string, status: Option<Status>) returns (events: seq<Event>, requests: seq<Request>)
      modifies this`items, this`pending
      ensures View() == Answer(old(View()), TaskUpdated(taskId, status)).out.mapper
      ensures events == Answer(old(View()), TaskUpdated(taskId, status)).out.events
      ensures requests == Answer(old(View()), TaskUpdated(taskId, status)).requests
    {
      if taskId !in taskTools || status.None? {
        return [], [];
      }
      var id := taskTools[taskId];
      requests := [];
      if status.value != InProgress {
        requests := [StopTail(id)];
      }
      events := UpdateSubagent(id, status.value, None);
    }

    method OnTaskNotification(taskId: Option<string>, toolUseId: Option<string>, outcome: Status,
                              summary: Option<string>, hasPath: bool)
      returns (events: seq<Event>, requests: seq<Request>)
      modifies this`items, this`pending
      ensures View() == Answer(old(View()), TaskNotified(taskId, toolUseId, outcome, summary, hasPath)).out.mapper
      ensures events == Answer(old(View()), TaskNotified(taskId, toolUseId, outcome, summary, hasPath)).out.events
      ensures requests == Answer(old(View()), TaskNotified(taskId, toolUseId, outcome, summary, hasPath)).requests
    {
      var found := toolUseId;
      if taskId.Some? && taskId.value in taskTools {
        found := Some(taskTools[taskId.value]);
      }
      if found.None? {
        return [], [];
      }
      var id := found.value;
      requests := [];
      if hasPath {
        requests := requests + [PreferPath(id)];
      }
      requests := requests + [StopTail(id)];
      var line := if summary.Some? then Some(Transcript.OneLineSummary(summary.value)) else None;
      if id in items && items[id].CommandItem? {
        events := CompleteBackgroundCommand(id, outcome, line);
      } else {
        events := UpdateSubagent(id, outcome, line);
      }
    }

    method CompleteBackgroundCommand(id: string, status: Status, summary: Option<string>) returns (events: seq<Event>)
      modifies this`items
      ensures View() == CommandEnded(old(View()), id, status, summary).mapper
      ensures events == CommandEnded(old(View()), id, status, summary).events
    {
      if id !in items || !items[id].CommandItem? {
        items := items - {id};
        return [];
      }
      var command, output := items[id].command, items[id].output;
      items := items - {id};
      if Blank(output) && summary.Some? {
        output := summary.value;
      }
      return [ItemCompleted(Item(id, None, Command(command, output, if status == Completed then Some(0) else None, status)))];
    }

    /** Teardown: every held snapshot, in the order in which the map happens to give them. */
    method TakePendingSubagentTerminals() returns (events: seq<Event>, order: seq<string>)
      modifies this`tailed, this`pending
      ensures View() == old(View()).(tailed := {}, pending := map[])
      ensures forall id :: id in order <==> id in old(pending)
      ensures forall i, j :: 0 <= i < j < |order| ==> order[i] != order[j]
      ensures events == HeldIn(old(pending), order)
    {
      tailed := {};
      events, order := [], [];
      ghost var held := pending;
      while pending != map[]
        invariant View() == old(View()).(tailed := {}, pending := pending)
        invariant forall id :: id in held <==> id in pending || id in order
        invariant forall id :: id in pending ==> id !in order && pending[id] == held[id]
        invariant forall i, j :: 0 <= i < j < |order| ==> order[i] != order[j]
        invariant events == HeldIn(held, order)
        decreases |pending|
      {
        var id :| id in pending;
        HeldInSnoc(held, order, id);
        events, order := events + [pending[id]], order + [id];
        pending := pending - {id};
      }
    }
  }

  // ---------------------------------------------------------------- results of commands and tools

  /** A card's event shows a result as it came: its output, its outcome, and a command's exit code. */
  ghost predicate ResultShown(e: Event, block: ResultBlock, inBackground: bool) {
    var status := if block.isError then Failed else Completed;
    && (e.ItemUpdated? || e.ItemCompleted?) && EventItem(e).id == block.toolUseId
    && match EventItem(e).content
       case ToolCall(_, _, output, shown) => e.ItemCompleted? && output == Some(block.output) && shown == status
       case Command(_, output, exitCode, shown) =>
         && output == block.output
         && if inBackground then e.ItemUpdated? && exitCode.None? && shown == InProgress
            else e.ItemCompleted? && exitCode == Some(if block.isError then 1 else 0) && shown == status
       case _ => true
  }

  lemma {:induction false} ResultsAreShown(m: Mapper, blocks: seq<ResultBlock>, flags: ResultFlags)
    ensures forall e :: e in ResultsTaken(m, blocks, flags).events ==>
      exists block :: block in blocks && ResultShown(e, block, flags.inBackground)
  {
    if blocks != [] {
      var n := |blocks| - 1;
      ResultsAreShown(m, blocks[..n], flags);
      var before := ResultsTaken(m, blocks[..n], flags);
      OneResultIsShown(before.mapper, blocks[n], flags);
      forall e | e in ResultsTaken(m, blocks, flags).events
        ensures exists block :: block in blocks && ResultShown(e, block, flags.inBackground)
      {
        if e in before.events {
          var block :| block in blocks[..n] && ResultShown(e, block, flags.inBackground);
          assert block in blocks;
        } else {
          assert blocks[n] in blocks && ResultShown(e, blocks[n], flags.inBackground);
        }
      }
    }
  }

  lemma OneResultIsShown(m: Mapper, block: ResultBlock, flags: ResultFlags)
    ensures forall e :: e in ResultTaken(m, block, flags).events ==> ResultShown(e, block, flags.inBackground)
    ensures block.toolUseId in m.items && !IsSub(m, block.toolUseId) ==> |ResultTaken(m, block, flags).events| == 1
  {
  }
}
