/**
 * Tasks, their spawns and their tails, message by message (crates/agent/src/claude.rs,
 * `on_task_started`, `on_task_updated`, `on_task_notification`, `on_user`, `on_wire_message`).
 */
module SubagentTasks {
  import opened Text
  import opened Events
  import opened SubagentGate
  import opened TailProtocol
  import Transcript

  /** A message without a spawn to read back and without a resumed task. */
  function Plainly(message: Message): Move {
    Line(Wire(message, None, None))
  }

  function Mapped(a: Actor, message: Message): Actor {
    a.(mapper := Answer(a.mapper, message).out.mapper)
  }

  /** The mapper answers a message, and then its requests are served. */
  lemma Served(a: Actor, message: Message)
    requires !message.ChildRecords?
    ensures Step(a, Plainly(message)).actor == RequestedAll(Mapped(a, message), Answer(a.mapper, message).requests)
  {
    assert a.reported + {} == a.reported;
    assert SpawnRestored(a.mapper, None) == a.mapper;
  }

  // ---------------------------------------------------------------- tails start and stop

  lemma TaskIsTied(m: Mapper, task: string, toolUse: string, localBash: bool)
    ensures var parent := if task in m.taskTools then m.taskTools[task] else toolUse;
      var reply := TaskBegun(m, Some(task), Some(toolUse), localBash);
      && reply.out.mapper.taskTools == m.taskTools[task := parent]
      && reply.out.mapper.tailed == m.tailed + (if localBash then {} else {parent})
      && reply.requests == if localBash then [] else [StartTail(parent)]
  {
    var parent := if task in m.taskTools then m.taskTools[task] else toolUse;
    var known := m.(taskTools := m.taskTools[task := parent]);
    UpdateKeepsTasks(known, parent, InProgress, None);
    UpdateKeepsTasks(known.(tailed := known.tailed + {parent}), parent, InProgress, None);
    assert m.tailed + {} == m.tailed;
  }

  /**
   * A started task is tied to its spawn for good, the first one it was tied to, and that spawn is
   * tailed from then on, unless the task is a shell command.
   */
  lemma StartedTaskIsTailed(a: Actor, task: string, toolUse: string, localBash: bool, homes: Homes)
    requires Inv(a, homes) && !a.closed
    ensures var b := Step(a, Plainly(TaskStarted(Some(task), Some(toolUse), localBash))).actor;
      var parent := if task in a.mapper.taskTools then a.mapper.taskTools[task] else toolUse;
      && b.mapper.taskTools == a.mapper.taskTools[task := parent]
      && b.mapper.tailed == a.mapper.tailed + (if localBash then {} else {parent})
      && b.tailers == b.mapper.tailed
      && (!localBash && parent !in a.mapper.tailed ==> parent in b.live && !b.live[parent].stopAsked)
      && (forall p :: p in a.live ==> p in b.live && b.live[p] == a.live[p])
  {
    var parent := if task in a.mapper.taskTools then a.mapper.taskTools[task] else toolUse;
    var message := TaskStarted(Some(task), Some(toolUse), localBash);
    Served(a, message);
    TaskIsTied(a.mapper, task, toolUse, localBash);
    var mid := Mapped(a, message);
    if localBash {
      assert RequestedAll(mid, []) == mid;
    } else {
      OneRequest(mid, StartTail(parent));
      assert parent !in a.tailers ==> parent !in a.live;
    }
  }

  lemma UpdateKeepsTasks(m: Mapper, id: string, status: Status, summary: Option<string>)
    ensures var n := SubUpdated(m, id, status, summary).mapper; n.taskTools == m.taskTools && n.tailed == m.tailed
  {
  }

  lemma OneRequest(a: Actor, r: Request)
    ensures RequestedAll(a, [r]) == Requested(a, r)
  {
    var requests := [r];
    assert requests[..0] == [];
  }

  lemma TwoRequests(a: Actor, r: Request, s: Request)
    ensures RequestedAll(a, [r, s]) == Requested(Requested(a, r), s)
  {
    var requests := [r, s];
    assert requests[..1] == [r];
    OneRequest(a, r);
  }

  /** A terminal update of a known task asks its tail to stop; any other update leaves all tails alone. */
  lemma TerminalUpdateAsksStop(a: Actor, task: string, status: Status)
    requires task in a.mapper.taskTools
    ensures var b, id := Step(a, Plainly(TaskUpdated(task, Some(status)))).actor, a.mapper.taskTools[task];
      && b.tailers == a.tailers && b.live.Keys == a.live.Keys
      && (status == InProgress ==> b.live == a.live)
      && (status != InProgress && id in a.tailers && id in a.live ==> b.live[id].stopAsked)
      && (forall p :: p in a.live && p != id ==> b.live[p] == a.live[p])
  {
    Served(a, TaskUpdated(task, Some(status)));
    var mid := Mapped(a, TaskUpdated(task, Some(status)));
    OneRequest(mid, StopTail(a.mapper.taskTools[task]));
    assert RequestedAll(mid, []) == mid;
  }

  /** A notification always does. */
  lemma NotificationAsksStop(a: Actor, message: Message)
    requires message.TaskNotified?
    requires message.notifiedTask.Some? && message.notifiedTask.value in a.mapper.taskTools
    ensures var b, id := Step(a, Plainly(message)).actor, a.mapper.taskTools[message.notifiedTask.value];
      && b.tailers == a.tailers && b.live.Keys == a.live.Keys
      && (id in a.tailers && id in a.live ==> b.live[id].stopAsked)
      && (forall p :: p in a.live && p != id ==> b.live[p] == a.live[p])
  {
    var id := a.mapper.taskTools[message.notifiedTask.value];
    Served(a, message);
    var mid := Mapped(a, message);
    OneRequest(mid, StopTail(id));
    TwoRequests(mid, PreferPath(id), StopTail(id));
  }

  // ---------------------------------------------------------------- spawns and launches

  /** A spawn read back ties its task, and is known from then on unless its id already is. */
  lemma SpawnIsReadBack(m: Mapper, s: Spawned)
    ensures var n := SpawnRestored(m, Some(s));
      if s.taskId in m.taskTools && IsSub(m, m.taskTools[s.taskId]) then n == m
      else
        && n.taskTools == m.taskTools[s.taskId := s.toolUseId]
        && s.toolUseId in n.items
        && n.items[s.toolUseId] == (if s.toolUseId in m.items then m.items[s.toolUseId] else SubItem(s.sub))
        && (forall id :: id != s.toolUseId ==> (id in n.items <==> id in m.items) && (id in m.items ==> n.items[id] == m.items[id]))
        && n.tailed == m.tailed && n.pending == m.pending && n.stages == m.stages
  {
  }

  /** The result that tells of a background launch ties the agent to its spawn, which stays in progress. */
  lemma LaunchTiesAgent(m: Mapper, block: ResultBlock, flags: ResultFlags, agent: string)
    requires IsSub(m, block.toolUseId) && flags.asyncLaunched && flags.agentId == Some(agent)
    ensures var n := ResultTaken(m, block, flags).mapper;
      && n.taskTools == m.taskTools[agent := block.toolUseId]
      && n.items == m.items[block.toolUseId := SubItem(m.items[block.toolUseId].sub.(status := InProgress))]
      && n.pending == m.pending && n.tailed == m.tailed
  {
  }

  /** A tool use is shown started with its own command, name or input, and nothing of an outcome yet. */
  lemma UseIsShown(m: Mapper, id: string, item: ToolItem)
    ensures var out := Answer(m, ToolUsed(id, item)).out;
      && out.mapper == m.(items := m.items[id := item])
      && out.events == [ItemStarted(Item(id, None,
           match item
           case SubItem(sub) => Subagent(sub.agentType, sub.description, sub.status, sub.summary, sub.model, sub.effort)
           case CommandItem(command, _) => Command(command, "", None, InProgress)
           case PlainItem(name, input) => ToolCall(name, input, None, InProgress)))]
  {
  }

  // ---------------------------------------------------------------- commands in the background

  /**
   * A command that goes on in the background is shown running, with the output so far; the
   * notification completes it with that output, or with its own summary if there was none, and
   * with exit code 0 exactly if it completed.
   */
  lemma BackgroundCommandEnds(m: Mapper, block: ResultBlock, flags: ResultFlags, task: Option<string>, outcome: Status,
                              summary: Option<string>, hasPath: bool)
    requires block.toolUseId in m.items && m.items[block.toolUseId].CommandItem? && flags.inBackground
    requires task.Some? ==> task.value !in m.taskTools
    ensures var id, command := block.toolUseId, m.items[block.toolUseId].command;
      var launched := ResultTaken(m, block, flags);
      var ended := Answer(launched.mapper, TaskNotified(task, Some(id), outcome, summary, hasPath)).out;
      && launched.events == [ItemUpdated(Item(id, None, Command(command, block.output, None, InProgress)))]
      && (var output := if Blank(block.output) && summary.Some? then Transcript.OneLineSummary(summary.value) else block.output;
          ended.events == [ItemCompleted(Item(id, None,
            Command(command, output, if outcome == Completed then Some(0) else None, outcome)))])
      && ended.mapper.items == m.items - {id}
  {
  }
}
