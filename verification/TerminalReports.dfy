/**
 * What a held terminal snapshot shows: the last terminal status and the last summary reported for
 * its subagent (crates/agent/src/claude.rs, `gate_subagent_terminal` and its callers).
 */
module TerminalReports {
  import opened Text
  import opened Events
  import opened ChildDedupe
  import opened SubagentGate
  import opened TailProtocol
  import Transcript

  // ---------------------------------------------------------------- reading the messages

  /** A terminal status and the summary that goes with it. */
  datatype Told = Told(status: Status, summary: Option<string>)

  /**
   * One subagent as the messages report it: what was told last while its tail ran, and the status
   * and summary it has while it is known.
   */
  datatype Watch = Watch(told: Option<Told>, status: Status, summary: Option<string>)

  const UNSEEN := Watch(None, InProgress, None)

  /** A terminal status is told while the tail runs. */
  function Tell(w: Watch, status: Status, summary: Option<string>, tailed: bool): Watch {
    if tailed && status != InProgress then w.(told := Some(Told(status, summary))) else w
  }

  /** A report of a status, perhaps with a summary, on a subagent that is known. */
  function Report(w: Watch, m: Mapper, id: string, on: string, status: Status, given: Option<string>): Watch {
    if on != id || !IsSub(m, id) then w
    else
      var summary := OrElse(given, w.summary);
      Tell(Watch(w.told, status, summary), status, summary, id in m.tailed)
  }

  /** A model that is news tells the subagent's status once more. */
  function ModelReport(w: Watch, m: Mapper, id: string, on: string, seen: Option<Transcript.ModelSeen>): Watch {
    if on != id || !IsSub(m, id) || seen.None? then w
    else
      var sub := m.items[id].sub;
      var news := (seen.value.model.Some? && seen.value.model != sub.model) || (seen.value.effort.Some? && seen.value.effort != sub.effort);
      if news then Tell(w, w.status, w.summary, id in m.tailed) else w
  }

  /** A nested spawn starts, or completes with a status and summary of its own. */
  function ChildReport(w: Watch, m: Mapper, id: string, e: Event): Watch {
    if !Passes(m.stages, e) then w
    else if e.ItemStarted? && e.started.content.Subagent? && e.started.id == id && id !in m.items then
      Watch(w.told, e.started.content.status, e.started.content.summary)
    else if e.ItemCompleted? && e.completed.content.Subagent? && e.completed.id == id && IsSub(m, id) then
      Tell(w, e.completed.content.status, e.completed.content.summary, id in m.tailed)
    else w
  }

  function ChildReports(w: Watch, m: Mapper, id: string, events: seq<Event>): Watch {
    if events == [] then w
    else
      var n := |events| - 1;
      ChildReport(ChildReports(w, m, id, events[..n]), ChildrenFolded(m, events[..n]).mapper, id, events[n])
  }

  /** A tool result settles the subagent; the summary it has wins over the result's text. */
  function ResultReport(w: Watch, m: Mapper, id: string, block: ResultBlock, flags: ResultFlags): Watch {
    if block.toolUseId != id || !IsSub(m, id) then w
    else if flags.asyncLaunched then w.(status := InProgress)
    else
      var text := if Blank(block.output) then None else Some(Transcript.OneLineSummary(block.output));
      Tell(w, if block.isError then Failed else Completed, OrElse(w.summary, text), id in m.tailed)
  }

  function ResultReports(w: Watch, m: Mapper, id: string, blocks: seq<ResultBlock>, flags: ResultFlags): Watch {
    if blocks == [] then w
    else
      var n := |blocks| - 1;
      ResultReport(ResultReports(w, m, id, blocks[..n], flags), ResultsTaken(m, blocks[..n], flags).mapper, id, blocks[n], flags)
  }

  /** The subagent a task stands for, if the task is known. */
  function SubOfTask(m: Mapper, task: Option<string>, otherwise: Option<string>): Option<string> {
    if task.Some? && task.value in m.taskTools then Some(m.taskTools[task.value]) else otherwise
  }

  function MessageReport(w: Watch, m: Mapper, id: string, message: Message): Watch {
    match message
    case ToolUsed(used, item) =>
      if used == id && item.SubItem? then Watch(w.told, item.sub.status, item.sub.summary) else w
    case ToolResults(blocks, flags) => ResultReports(w, m, id, blocks, flags)
    case TaskStarted(task, toolUse, _) =>
      var on := if toolUse.None? then None else SubOfTask(m, task, toolUse);
      if on == Some(id) && IsSub(m, id) then w.(status := InProgress) else w
    case TaskUpdated(task, status) =>
      var on := SubOfTask(m, Some(task), None);
      if on.Some? && status.Some? then Report(w, m, id, on.value, status.value, None) else w
    case TaskNotified(task, toolUse, outcome, summary, _) =>
      var on := SubOfTask(m, task, toolUse);
      var line := if summary.Some? then Some(Transcript.OneLineSummary(summary.value)) else None;
      if on.Some? then Report(w, m, id, on.value, outcome, line) else w
    case ChildRecords(parent, seen, children) =>
      ChildReports(ModelReport(w, m, id, parent, seen), MaybeNoted(m, parent, seen).mapper, id, children)
    case OtherMessage(_) => w
  }

  /** A spawn read back is known from then on. */
  function SpawnReport(w: Watch, m: Mapper, id: string, spawn: Option<Spawned>): Watch {
    if id !in m.items && id in SpawnRestored(m, spawn).items
    then Watch(w.told, spawn.value.sub.status, spawn.value.sub.summary) else w
  }

  /** A resumed subagent is in progress again. */
  function WireReport(w: Watch, m: Mapper, id: string, wire: Wire): Watch {
    var restored := SpawnRestored(m, wire.spawn);
    var answered := MessageReport(SpawnReport(w, m, id, wire.spawn), restored, id, wire.message);
    var on := SubOfTask(restored, wire.resumed, None);
    if on == Some(id) && IsSub(WireAnswered(m, wire), id) then answered.(status := InProgress) else answered
  }

  function WireAnswered(m: Mapper, wire: Wire): Mapper {
    Answer(SpawnRestored(m, wire.spawn), wire.message).out.mapper
  }

  function BatchReport(w: Watch, m: Mapper, id: string, n: Notice): Watch {
    ChildReports(ModelReport(w, m, id, n.parent, n.seen), MaybeNoted(m, n.parent, n.seen).mapper, id, n.events)
  }

  /** With a tail's acknowledgement, and at teardown, what was told is settled. */
  function MoveReport(w: Watch, a: Actor, id: string, move: Move): Watch {
    match move
    case Line(wire) => WireReport(w, a.mapper, id, wire)
    case Deliver =>
      if a.channel == [] then w
      else
        var batch := BatchReport(w, a.mapper, id, a.channel[0]);
        if a.channel[0].stopped && a.channel[0].parent == id then batch.(told := None) else batch
    case Polled(_, _, _, _) => w
    case TornDown(_) => w.(told := None)
  }

  /** One subagent over a whole run. */
  function Watching(moves: seq<Move>, id: string): Watch {
    if moves == [] then UNSEEN
    else MoveReport(Watching(moves[..|moves| - 1], id), Run(moves[..|moves| - 1]).actor, id, moves[|moves| - 1])
  }

  // ---------------------------------------------------------------- what is held agrees with it

  ghost predicate Shows(e: Event, told: Told) {
    && (e.ItemUpdated? || e.ItemCompleted?) && EventItem(e).content.Subagent?
    && EventItem(e).content.status == told.status && EventItem(e).content.summary == told.summary
  }

  /** A snapshot is held exactly if something was told, and shows just that. */
  ghost predicate Agrees(m: Mapper, w: Watch, id: string) {
    && (id in m.pending <==> w.told.Some?)
    && (id in m.pending ==> Shows(m.pending[id], w.told.value))
    && (IsSub(m, id) ==> m.items[id].sub.status == w.status && m.items[id].sub.summary == w.summary)
  }

  /** What a step leaves alone. */
  ghost predicate Same(m: Mapper, n: Mapper, id: string) {
    && (id in m.pending <==> id in n.pending) && (id in m.pending ==> m.pending[id] == n.pending[id])
    && (IsSub(n, id) ==> IsSub(m, id) && n.items[id] == m.items[id])
  }

  lemma SameAgrees(m: Mapper, n: Mapper, w: Watch, id: string)
    requires Agrees(m, w, id) && Same(m, n, id)
    ensures Agrees(n, w, id)
  {
  }

  lemma GatedAgrees(m: Mapper, w: Watch, id: string, e: Event, told: Told)
    requires Agrees(m, w, id) && Shows(e, told) && told.status != InProgress
    ensures Agrees(Gated(m, id, e).mapper, Tell(w, told.status, told.summary, id in m.tailed), id)
  {
  }

  lemma GatedOther(m: Mapper, id: string, other: string, e: Event)
    requires other != id
    ensures Same(m, Gated(m, other, e).mapper, id)
  {
  }

  lemma SubUpdatedAgrees(m: Mapper, w: Watch, id: string, on: string, status: Status, given: Option<string>)
    requires Agrees(m, w, id)
    ensures Agrees(SubUpdated(m, on, status, given).mapper, Report(w, m, id, on, status, given), id)
  {
    if IsSub(m, on) {
      var known := m.items[on].sub;
      var sub := known.(status := status, summary := if given.Some? then given else known.summary);
      var updated := m.(items := m.items[on := SubItem(sub)]);
      var e := ItemUpdated(Item(on, sub.parent, Snapshot(sub)));
      if on != id {
        GatedOther(updated, id, on, e);
      } else if status != InProgress {
        GatedAgrees(updated, Watch(w.told, status, sub.summary), id, e, Told(status, sub.summary));
      }
    }
  }

  lemma ModelAgrees(m: Mapper, w: Watch, id: string, on: string, seen: Option<Transcript.ModelSeen>)
    requires Agrees(m, w, id)
    ensures Agrees(MaybeNoted(m, on, seen).mapper, ModelReport(w, m, id, on, seen), id)
  {
    if seen.Some? && IsSub(m, on) {
      var known := m.items[on].sub;
      var sub := known.(model := OrElse(seen.value.model, known.model), effort := OrElse(seen.value.effort, known.effort));
      if sub != known {
        var n := m.(items := m.items[on := SubItem(sub)]);
        SubUpdatedAgrees(n, w, id, on, sub.status, None);
      }
    }
  }

  lemma ChildAgrees(m: Mapper, w: Watch, id: string, e: Event)
    requires Agrees(m, w, id) && (e.ItemCompleted? && e.completed.content.Subagent? ==> e.completed.content.status != InProgress)
    ensures Agrees(ChildFolded(m, e).mapper, ChildReport(w, m, id, e), id)
  {
    if Passes(m.stages, e) && e.ItemCompleted? && e.completed.content.Subagent? && IsSub(m, e.completed.id) {
      var on := e.completed.id;
      var rest := m.(stages := Advanced(m.stages, e), items := m.items - {on});
      if on == id {
        GatedAgrees(rest, w, id, e, Told(e.completed.content.status, e.completed.content.summary));
      } else {
        GatedOther(rest, id, on, e);
      }
    }
  }

  /** Nested completions of a feed are terminal. */
  predicate Settled(events: seq<Event>) {
    forall i :: 0 <= i < |events| ==>
      (events[i].ItemCompleted? && events[i].completed.content.Subagent? ==> events[i].completed.content.status != InProgress)
  }

  lemma {:induction false} ChildrenAgree(m: Mapper, w: Watch, id: string, events: seq<Event>)
    requires Agrees(m, w, id) && Settled(events)
    ensures Agrees(ChildrenFolded(m, events).mapper, ChildReports(w, m, id, events), id)
  {
    if events != [] {
      var n := |events| - 1;
      ChildrenAgree(m, w, id, events[..n]);
      ChildAgrees(ChildrenFolded(m, events[..n]).mapper, ChildReports(w, m, id, events[..n]), id, events[n]);
    }
  }

  lemma SettledAgrees(m: Mapper, w: Watch, id: string, on: string, e: Event, told: Told)
    requires Agrees(m, w, id) && Shows(e, told) && told.status != InProgress
    ensures var out := Gated(m.(items := m.items - {on}), on, e);
      Agrees(out.mapper, if on == id then Tell(w, told.status, told.summary, id in m.tailed) else w, id)
  {
    var rest := m.(items := m.items - {on});
    if on == id {
      GatedAgrees(rest, w, id, e, told);
    } else {
      GatedOther(rest, id, on, e);
    }
  }

  lemma PlainResultAgrees(m: Mapper, w: Watch, id: string, block: ResultBlock, flags: ResultFlags)
    requires Agrees(m, w, id) && !IsSub(m, block.toolUseId)
    ensures Agrees(ResultTaken(m, block, flags).mapper, w, id)
  {
    SameAgrees(m, ResultTaken(m, block, flags).mapper, w, id);
  }

  lemma ResultAgrees(m: Mapper, w: Watch, id: string, block: ResultBlock, flags: ResultFlags)
    requires Agrees(m, w, id)
    ensures Agrees(ResultTaken(m, block, flags).mapper, ResultReport(w, m, id, block, flags), id)
  {
    var on := block.toolUseId;
    if !IsSub(m, on) {
      PlainResultAgrees(m, w, id, block, flags);
    } else if flags.asyncLaunched {
      var tasks := if flags.agentId.Some? then m.taskTools[flags.agentId.value := on] else m.taskTools;
      SubUpdatedAgrees(m.(taskTools := tasks), w, id, on, InProgress, None);
    } else {
      var sub := m.items[on].sub;
      var summary := if sub.summary.Some? then sub.summary
        else if Blank(block.output) then None else Some(Transcript.OneLineSummary(block.output));
      var status := if block.isError then Failed else Completed;
      var e := ItemCompleted(Item(on, sub.parent, Snapshot(sub.(status := status, summary := summary))));
      SettledAgrees(m, w, id, on, e, Told(status, summary));
    }
  }

  lemma {:induction false} ResultsAgree(m: Mapper, w: Watch, id: string, blocks: seq<ResultBlock>, flags: ResultFlags)
    requires Agrees(m, w, id)
    ensures Agrees(ResultsTaken(m, blocks, flags).mapper, ResultReports(w, m, id, blocks, flags), id)
  {
    if blocks != [] {
      var n := |blocks| - 1;
      ResultsAgree(m, w, id, blocks[..n], flags);
      ResultAgrees(ResultsTaken(m, blocks[..n], flags).mapper, ResultReports(w, m, id, blocks[..n], flags), id, blocks[n], flags);
    }
  }

  lemma BatchAgrees(m: Mapper, w: Watch, id: string, parent: string, seen: Option<Transcript.ModelSeen>, events: seq<Event>)
    requires Agrees(m, w, id) && Settled(events)
    ensures var noted := MaybeNoted(m, parent, seen).mapper;
      Agrees(ChildrenFolded(noted, events).mapper, ChildReports(ModelReport(w, m, id, parent, seen), noted, id, events), id)
  {
    ModelAgrees(m, w, id, parent, seen);
    ChildrenAgree(MaybeNoted(m, parent, seen).mapper, ModelReport(w, m, id, parent, seen), id, events);
  }

  lemma TaskAgrees(m: Mapper, w: Watch, id: string, task: Option<string>, toolUse: Option<string>, localBash: bool)
    requires Agrees(m, w, id)
    ensures Agrees(TaskBegun(m, task, toolUse, localBash).out.mapper, MessageReport(w, m, id, TaskStarted(task, toolUse, localBash)), id)
  {
    if toolUse.Some? {
      if task.None? {
        SubUpdatedAgrees(m, w, id, toolUse.value, InProgress, None);
      } else {
        var parent := if task.value in m.taskTools then m.taskTools[task.value] else toolUse.value;
        var known := m.(taskTools := m.taskTools[task.value := parent]);
        var n := if localBash then known else known.(tailed := known.tailed + {parent});
        SubUpdatedAgrees(n, w, id, parent, InProgress, None);
      }
    }
  }

  lemma NotifiedAgrees(m: Mapper, w: Watch, id: string, message: Message)
    requires Agrees(m, w, id) && message.TaskNotified?
    ensures Agrees(Answer(m, message).out.mapper, MessageReport(w, m, id, message), id)
  {
    var on := SubOfTask(m, message.notifiedTask, message.notifiedTool);
    if on.Some? {
      var line := if message.summary.Some? then Some(Transcript.OneLineSummary(message.summary.value)) else None;
      if on.value in m.items && m.items[on.value].CommandItem? {
        SameAgrees(m, CommandEnded(m, on.value, message.outcome, line).mapper, w, id);
      } else {
        SubUpdatedAgrees(m, w, id, on.value, message.outcome, line);
      }
    }
  }

  lemma MessageAgrees(m: Mapper, w: Watch, id: string, message: Message)
    requires Agrees(m, w, id) && (message.ChildRecords? ==> Settled(message.children))
    ensures Agrees(Answer(m, message).out.mapper, MessageReport(w, m, id, message), id)
  {
    match message {
      case ToolUsed(_, _) =>
      case ToolResults(blocks, flags) => ResultsAgree(m, w, id, blocks, flags);
      case TaskStarted(task, toolUse, localBash) => TaskAgrees(m, w, id, task, toolUse, localBash);
      case TaskUpdated(task, status) =>
        if task in m.taskTools && status.Some? {
          SubUpdatedAgrees(m, w, id, m.taskTools[task], status.value, None);
        }
      case TaskNotified(_, _, _, _, _) => NotifiedAgrees(m, w, id, message);
      case ChildRecords(parent, seen, children) => BatchAgrees(m, w, id, parent, seen, children);
      case OtherMessage(_) =>
    }
  }

  lemma SpawnAgrees(m: Mapper, w: Watch, id: string, spawn: Option<Spawned>)
    requires Agrees(m, w, id)
    ensures Agrees(SpawnRestored(m, spawn), SpawnReport(w, m, id, spawn), id)
  {
  }

  lemma WireAgrees(m: Mapper, w: Watch, id: string, wire: Wire)
    requires Agrees(m, w, id) && (wire.message.ChildRecords? ==> Settled(wire.message.children))
    ensures Agrees(WireTaken(m, wire).out.mapper, WireReport(w, m, id, wire), id)
  {
    var restored, known := SpawnRestored(m, wire.spawn), SpawnReport(w, m, id, wire.spawn);
    SpawnAgrees(m, w, id, wire.spawn);
    MessageAgrees(restored, known, id, wire.message);
    var on := SubOfTask(restored, wire.resumed, None);
    if on.Some? {
      ResumedAgrees(WireAnswered(m, wire), MessageReport(known, restored, id, wire.message), id, on.value);
    }
  }

  lemma ResumedAgrees(m: Mapper, w: Watch, id: string, on: string)
    requires Agrees(m, w, id)
    ensures Agrees(SubUpdated(m, on, InProgress, None).mapper, if on == id && IsSub(m, id) then w.(status := InProgress) else w, id)
  {
    SubUpdatedAgrees(m, w, id, on, InProgress, None);
  }

  lemma NoticeAgrees(m: Mapper, w: Watch, id: string, n: Notice)
    requires Agrees(m, w, id) && Settled(n.events)
    ensures Agrees(Flushed(m, n).mapper, BatchReport(w, m, id, n), id)
    ensures var batch := BatchReport(w, m, id, n);
      Agrees(NoticeTaken(m, n).mapper, if n.stopped && n.parent == id then batch.(told := None) else batch, id)
  {
    BatchAgrees(m, w, id, n.parent, n.seen, n.events);
  }

  // ---------------------------------------------------------------- whole runs

  lemma BatchIsSettled(events: seq<Event>, parent: string, told: set<string>, homes: Homes)
    requires BatchOk(events, parent, told, homes)
    ensures Settled(events)
  {
  }

  lemma MoveAgrees(a: Actor, w: Watch, id: string, move: Move, homes: Homes)
    requires Inv(a, homes) && Enabled(a, move, homes) && Agrees(a.mapper, w, id)
    ensures Agrees(Step(a, move).actor.mapper, MoveReport(w, a, id, move), id)
  {
    match move {
      case Line(wire) =>
        if wire.message.ChildRecords? {
          BatchIsSettled(wire.message.children, wire.message.parent, a.reported, homes);
        }
        WireAgrees(a.mapper, w, id, wire);
        var told := if wire.message.ChildRecords? then Spawns(wire.message.children) else {};
        var reply := WireTaken(a.mapper, wire);
        RequestsKeepMapper(a.(mapper := reply.out.mapper, reported := a.reported + told), reply.requests);
      case Deliver =>
        BatchIsSettled(a.channel[0].events, a.channel[0].parent, a.mapper.stages.Keys, homes);
        NoticeAgrees(a.mapper, w, id, a.channel[0]);
      case Polled(_, _, _, _) =>
      case TornDown(_) =>
    }
  }

  lemma {:induction false} RequestsKeepMapper(a: Actor, requests: seq<Request>)
    ensures RequestedAll(a, requests).mapper == a.mapper
  {
    if requests != [] {
      RequestsKeepMapper(a, requests[..|requests| - 1]);
    }
  }

  /**
   * In every run a subagent's terminal snapshot is held if and only if a terminal status was told
   * of it since its tail started, and it shows the status and the summary told last.
   */
  lemma {:induction false} HeldIsToldLast(moves: seq<Move>, homes: Homes, id: string)
    requires AllEnabled(moves, homes)
    ensures Agrees(Run(moves).actor.mapper, Watching(moves, id), id)
  {
    if moves != [] {
      var init := moves[..|moves| - 1];
      HeldIsToldLast(init, homes, id);
      RunsKeepInv(init, homes);
      MoveAgrees(Run(init).actor, Watching(init, id), id, moves[|moves| - 1], homes);
    }
  }

  lemma StoppedIsTailed(a: Actor, homes: Homes)
    requires Inv(a, homes) && Enabled(a, Deliver, homes) && a.channel[0].stopped
    ensures a.channel[0].parent in a.mapper.tailed
  {
    assert Acks(a.channel, a.channel[0].parent) >= 1;
  }

  /** A batch emits nothing terminal for a subagent whose tail runs. */
  lemma BatchIsQuiet(m: Mapper, n: Notice, told: set<string>, homes: Homes, id: string)
    requires NestedOk(m, homes) && HeldOk(m) && BatchOk(n.events, n.parent, told, homes) && told <= m.stages.Keys
    requires id in m.tailed
    ensures Count(Flushed(m, n).events, id) == 0
  {
    NoticeKept(m, n, told, homes);
    CountNone(Flushed(m, n).events, id);
  }

  /**
   * A tail's acknowledgement releases exactly what was told last: one terminal snapshot as the last
   * event, with that status and summary, or none at all if nothing was told since the tail started.
   */
  lemma ReleasedIsToldLast(moves: seq<Move>, homes: Homes, id: string)
    requires AllEnabled(moves, homes)
    requires var a := Run(moves).actor; Enabled(a, Deliver, homes) && a.channel[0].stopped && a.channel[0].parent == id
    ensures var a := Run(moves).actor;
      var events, told := Step(a, Deliver).events, BatchReport(Watching(moves, id), a.mapper, id, a.channel[0]).told;
      if told.None? then Count(events, id) == 0
      else Count(events, id) == 1 && events != [] && Shows(events[|events| - 1], told.value) && TerminalOf(events[|events| - 1], id)
  {
    var a := Run(moves).actor;
    RunsKeepInv(moves, homes);
    HeldIsToldLast(moves, homes, id);
    StoppedIsTailed(a, homes);
    NoticeReleases(a.mapper, Watching(moves, id), a.channel[0], homes);
  }

  lemma NoticeReleases(m: Mapper, w: Watch, n: Notice, homes: Homes)
    requires NestedOk(m, homes) && HeldOk(m) && BatchOk(n.events, n.parent, m.stages.Keys, homes)
    requires n.stopped && n.parent in m.tailed && Agrees(m, w, n.parent)
    ensures var events, told := NoticeTaken(m, n).events, BatchReport(w, m, n.parent, n).told;
      if told.None? then Count(events, n.parent) == 0
      else Count(events, n.parent) == 1 && events != [] && Shows(events[|events| - 1], told.value)
           && TerminalOf(events[|events| - 1], n.parent)
  {
    var flushed := Flushed(m, n);
    BatchIsSettled(n.events, n.parent, m.stages.Keys, homes);
    NoticeAgrees(m, w, n.parent, n);
    BatchIsQuiet(m, n, m.stages.Keys, homes, n.parent);
    NoticeKept(m, n, m.stages.Keys, homes);
    if n.parent in flushed.mapper.pending {
      var last := flushed.mapper.pending[n.parent];
      CountAppend(flushed.events, [last], n.parent);
      assert Count([last][1..], n.parent) == 0;
    } else {
      assert flushed.events + [] == flushed.events;
    }
  }

  /** Teardown does the same for every subagent at once. */
  lemma TornDownIsToldLast(moves: seq<Move>, order: seq<string>, homes: Homes, id: string)
    requires AllEnabled(moves, homes) && Enabled(Run(moves).actor, TornDown(order), homes)
    ensures var events, told := Step(Run(moves).actor, TornDown(order)).events, Watching(moves, id).told;
      && Count(events, id) == (if told.Some? then 1 else 0)
      && (told.Some? ==> exists e :: e in events && TerminalOf(e, id) && Shows(e, told.value))
  {
    var a := Run(moves).actor;
    RunsKeepInv(moves, homes);
    HeldIsToldLast(moves, homes, id);
    TeardownReleasesAll(a.mapper.pending, order, id);
    if id in a.mapper.pending {
      TeardownEmitsOne(a, order, homes, id);
    }
  }

  function Notification(task: string, outcome: Status, summary: string): Move {
    Line(Wire(TaskNotified(Some(task), None, outcome, Some(summary), false), None, None))
  }

  lemma NotificationIsTold(w: Watch, a: Actor, id: string, task: string, outcome: Status, summary: string)
    requires var m := a.mapper;
      task in m.taskTools && m.taskTools[task] == id && IsSub(m, id) && id in m.tailed && outcome != InProgress
    ensures MoveReport(w, a, id, Notification(task, outcome, summary)).told
         == Some(Told(outcome, Some(Transcript.OneLineSummary(summary))))
  {
  }

  /** A later report replaces an earlier one: the notification's summary is the one that is held. */
  lemma NotificationIsHeld(moves: seq<Move>, homes: Homes, id: string, task: string, outcome: Status, summary: string)
    requires AllEnabled(moves, homes) && !Run(moves).actor.closed && outcome != InProgress
    requires var m := Run(moves).actor.mapper;
      task in m.taskTools && m.taskTools[task] == id && IsSub(m, id) && id in m.tailed
    ensures var pending := Run(moves + [Notification(task, outcome, summary)]).actor.mapper.pending;
      id in pending && Shows(pending[id], Told(outcome, Some(Transcript.OneLineSummary(summary))))
  {
    var a, move := Run(moves).actor, Notification(task, outcome, summary);
    HeldIsToldLast(moves, homes, id);
    RunsKeepInv(moves, homes);
    NotificationIsTold(Watching(moves, id), a, id, task, outcome, summary);
    MoveAgrees(a, Watching(moves, id), id, move, homes);
    assert (moves + [move])[..|moves|] == moves;
  }

  // ---------------------------------------------------------------- without a tail

  /** A report on a subagent that is not tailed is shown at once. */
  lemma UntailedIsShownAtOnce(m: Mapper, id: string, status: Status, given: Option<string>)
    requires IsSub(m, id) && id !in m.tailed
    ensures var sub := m.items[id].sub;
      SubUpdated(m, id, status, given).events
      == [ItemUpdated(Item(id, sub.parent, Subagent(sub.agentType, sub.description, status, OrElse(given, sub.summary), sub.model, sub.effort)))]
  {
  }

  /** A model that is news is shown with everything else as it was; one that is not shows nothing. */
  lemma UntailedModelIsShownAtOnce(m: Mapper, id: string, seen: Transcript.ModelSeen)
    requires IsSub(m, id) && id !in m.tailed
    ensures var sub := m.items[id].sub;
      var model, effort := OrElse(seen.model, sub.model), OrElse(seen.effort, sub.effort);
      ModelNoted(m, id, seen).events
      == if model == sub.model && effort == sub.effort then []
         else [ItemUpdated(Item(id, sub.parent, Subagent(sub.agentType, sub.description, sub.status, sub.summary, model, effort)))]
  {
  }

  lemma UntailedResultIsShownAtOnce(m: Mapper, block: ResultBlock, flags: ResultFlags)
    requires IsSub(m, block.toolUseId) && block.toolUseId !in m.tailed && !flags.asyncLaunched
    ensures var sub := m.items[block.toolUseId].sub;
      var text := if Blank(block.output) then None else Some(Transcript.OneLineSummary(block.output));
      ResultTaken(m, block, flags).events
      == [ItemCompleted(Item(block.toolUseId, sub.parent,
            Subagent(sub.agentType, sub.description, if block.isError then Failed else Completed, OrElse(sub.summary, text), sub.model, sub.effort)))]
  {
  }

  lemma UntailedChildIsShownAtOnce(m: Mapper, e: Event)
    requires IsItemEvent(e) && Passes(m.stages, e) && EventItem(e).id !in m.tailed
    ensures ChildFolded(m, e).events == [e]
  {
  }
}
