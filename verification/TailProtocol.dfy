/**
 * The actor loop, its transcript tail tasks and the channel between them
 * (crates/agent/src/claude.rs, `actor_loop`, `process_tail_requests`, `run_subagent_tail`).
 */
module TailProtocol {
  import opened Text
  import opened Events
  import opened ChildDedupe
  import opened SubagentGate
  import Transcript

  // ---------------------------------------------------------------- the system

  /** A running tail task: whether a Stop waits in its queue, and the nested spawns it has reported. */
  datatype Task = Task(stopAsked: bool, reported: set<string>)

  /**
   * The mapper, the control senders the actor holds, the running tails, the notices on their way,
   * and the nested spawns reported on stdout. `closed` once the session was torn down.
   */
  datatype Actor = Actor(mapper: Mapper, tailers: set<string>, live: map<string, Task>, channel: seq<Notice>,
                         reported: set<string>, closed: bool)

  const START := Actor(INITIAL, {}, map[], [], {}, false)

  /** One scheduling step: a stdout line, a notice received, one poll of a tail, or teardown. */
  datatype Move =
    | Line(wire: Wire)
    | Deliver
    | Polled(parent: string, events: seq<Event>, seen: Option<Transcript.ModelSeen>, sawStop: bool)
    | TornDown(order: seq<string>)

  /** Nested spawns started by a batch of child events. */
  function Spawns(events: seq<Event>): set<string> {
    set e | e in events && e.ItemStarted? && e.started.content.Subagent? :: e.started.id
  }

  function Requested(a: Actor, r: Request): Actor {
    match r
    case StartTail(p) =>
      if p in a.tailers then a else a.(tailers := a.tailers + {p}, live := a.live[p := Task(false, {})])
    case PreferPath(_) => a
    case StopTail(p) =>
      if p in a.tailers && p in a.live then a.(live := a.live[p := a.live[p].(stopAsked := true)]) else a
  }

  function RequestedAll(a: Actor, requests: seq<Request>): Actor {
    if requests == [] then a
    else Requested(RequestedAll(a, requests[..|requests| - 1]), requests[|requests| - 1])
  }

  datatype Next = Next(actor: Actor, events: seq<Event>, gated: seq<Event>)

  function Step(a: Actor, move: Move): Next {
    match move
    case Line(wire) =>
      var reply := WireTaken(a.mapper, wire);
      var told := if wire.message.ChildRecords? then Spawns(wire.message.children) else {};
      Next(RequestedAll(a.(mapper := reply.out.mapper, reported := a.reported + told), reply.requests),
           reply.out.events, reply.out.gated)
    case Deliver =>
      if a.channel == [] then Next(a, [], [])
      else
        var n := a.channel[0];
        var out := NoticeTaken(a.mapper, n);
        Next(a.(mapper := out.mapper, channel := a.channel[1..],
                tailers := if n.stopped then a.tailers - {n.parent} else a.tailers), out.events, out.gated)
    case Polled(parent, events, seen, sawStop) =>
      if parent !in a.live then Next(a, [], [])
      else
        var notice := Notice(parent, events, seen, sawStop);
        var sent := sawStop || events != [] || seen.Some?;
        var task := a.live[parent].(reported := a.live[parent].reported + Spawns(events));
        Next(a.(channel := if sent then a.channel + [notice] else a.channel,
                live := if sawStop then a.live - {parent} else a.live[parent := task]), [], [])
    case TornDown(order) =>
      Next(a.(closed := true, tailers := {}, mapper := a.mapper.(tailed := {}, pending := map[])),
           HeldIn(a.mapper.pending, order), [])
  }

  // ---------------------------------------------------------------- what the outside may do

  /**
   * Which transcript a nested spawn belongs to; `None` for every id that is not a nested spawn.
   * That one function exists says that no tool-use id occurs in two transcripts.
   */
  type Homes = string -> Option<string>

  /** A batch of one transcript's child events, after the spawns in `told` were reported. */
  ghost predicate BatchOk(events: seq<Event>, parent: string, told: set<string>, homes: Homes) {
    forall i :: 0 <= i < |events| ==>
      var e := events[i];
      && (e.ItemStarted? || e.ItemCompleted?)
      && homes(EventItem(e).id) == (if EventItem(e).content.Subagent? then Some(parent) else None)
      && (EventItem(e).content.Subagent? ==> (e.ItemStarted? <==> EventItem(e).content.status == InProgress))
      && (e.ItemCompleted? && e.completed.content.Subagent? ==>
            e.completed.id in told || e.completed.id in Spawns(events[..i]))
  }

  ghost predicate MessageOk(m: Message, told: set<string>, homes: Homes) {
    match m
    case ToolUsed(id, item) => homes(id).None? && FreshItem(item)
    case ToolResults(blocks, _) => forall i :: 0 <= i < |blocks| ==> homes(blocks[i].toolUseId).None?
    case ChildRecords(parent, _, children) => BatchOk(children, parent, told, homes)
    case OtherMessage(plain) => forall i :: 0 <= i < |plain| ==> !Terminal(plain[i])
    case _ => true
  }

  ghost predicate Enabled(a: Actor, move: Move, homes: Homes) {
    match move
    case Line(wire) => !a.closed && MessageOk(wire.message, a.reported, homes)
    case Deliver => !a.closed && a.channel != []
    case Polled(parent, events, seen, sawStop) =>
      && parent in a.live && (sawStop ==> a.live[parent].stopAsked)
      && BatchOk(events, parent, a.live[parent].reported, homes)
    case TornDown(order) =>
      && !a.closed
      && (forall id :: id in a.mapper.pending ==> id in order)
      && (forall i, j :: 0 <= i < j < |order| ==> order[i] != order[j])
  }

  // ---------------------------------------------------------------- the invariant

  /** Only tailed subagents are held, each with a terminal snapshot of its own. */
  ghost predicate HeldOk(m: Mapper) {
    forall id :: id in m.pending ==> id in m.tailed && TerminalOf(m.pending[id], id)
  }

  /** A nested spawn that has started and not completed is known as a subagent. */
  ghost predicate NestedOk(m: Mapper, homes: Homes) {
    forall id :: homes(id).Some? ==>
      && (id in m.items ==> m.items[id].SubItem?)
      && (id in m.stages && !m.stages[id].HasCompleted? ==> id in m.items)
  }

  /** Every completion on its way finds its start delivered, or on its way before it. */
  ghost predicate ChannelOk(channel: seq<Notice>, told: set<string>, homes: Homes) {
    channel == [] ||
    (BatchOk(channel[0].events, channel[0].parent, told, homes)
     && ChannelOk(channel[1..], told + Spawns(channel[0].events), homes))
  }

  function SpawnsOnTheWay(channel: seq<Notice>): set<string> {
    if channel == [] then {} else Spawns(channel[0].events) + SpawnsOnTheWay(channel[1..])
  }

  /** How many final notices of a tail are on their way. */
  function Acks(channel: seq<Notice>, parent: string): nat {
    if channel == [] then 0
    else (if channel[0].stopped && channel[0].parent == parent then 1 else 0) + Acks(channel[1..], parent)
  }

  /** Every tailed subagent has exactly one acknowledgement to come: its tail runs, or has sent it. */
  ghost predicate AcksOk(a: Actor) {
    && a.mapper.tailed == a.tailers
    && forall p: string :: Acks(a.channel, p) + (if p in a.live then 1 else 0) == if p in a.tailers then 1 else 0
  }

  ghost predicate FeedsOk(a: Actor, homes: Homes) {
    && a.reported <= a.mapper.stages.Keys
    && ChannelOk(a.channel, a.mapper.stages.Keys, homes)
    && forall p :: p in a.live ==> a.live[p].reported <= a.mapper.stages.Keys + SpawnsOnTheWay(a.channel)
  }

  ghost predicate Inv(a: Actor, homes: Homes) {
    && HeldOk(a.mapper) && NestedOk(a.mapper, homes)
    && (!a.closed ==> AcksOk(a) && FeedsOk(a, homes))
    && (a.closed ==> a.mapper.tailed == {})
  }

  // ---------------------------------------------------------------- what a step of the mapper keeps

  predicate AllTerminal(events: seq<Event>) {
    forall i :: 0 <= i < |events| ==> Terminal(events[i])
  }

  /** The snapshots held after more were gated: each replaces an earlier one of the same subagent. */
  function Held(pending: map<string, Event>, gated: seq<Event>): map<string, Event>
    requires AllTerminal(gated)
  {
    if gated == [] then pending
    else
      var last := gated[|gated| - 1];
      assert Terminal(last);
      Held(pending, gated[..|gated| - 1])[EventItem(last).id := last]
  }

  /** Nothing terminal is emitted for a tailed subagent; what is held instead is the latest. */
  ghost predicate Kept(m: Mapper, out: Out) {
    && m.tailed <= out.mapper.tailed
    && (forall i :: 0 <= i < |out.events| && Terminal(out.events[i]) ==> EventItem(out.events[i]).id !in out.mapper.tailed)
    && AllTerminal(out.gated)
    && (forall i :: 0 <= i < |out.gated| ==> EventItem(out.gated[i]).id in out.mapper.tailed)
    && out.mapper.pending == Held(m.pending, out.gated)
    && m.stages.Keys <= out.mapper.stages.Keys
  }

  /** `Kept` by a step that does not touch the set of tailed subagents. */
  ghost predicate KeptSame(m: Mapper, out: Out) {
    Kept(m, out) && out.mapper.tailed == m.tailed
  }

  lemma AllTerminalAppend(a: seq<Event>, b: seq<Event>)
    ensures AllTerminal(a + b) <==> AllTerminal(a) && AllTerminal(b)
  {
    if AllTerminal(a + b) {
      assert forall i :: 0 <= i < |a| ==> a[i] == (a + b)[i];
      assert forall i :: 0 <= i < |b| ==> b[i] == (a + b)[|a| + i];
    }
  }

  lemma {:induction false} HeldAppend(pending: map<string, Event>, a: seq<Event>, b: seq<Event>)
    requires AllTerminal(a) && AllTerminal(b) && AllTerminal(a + b)
    ensures Held(pending, a + b) == Held(Held(pending, a), b)
  {
    if b == [] {
      assert a + b == a;
    } else {
      var n := |b| - 1;
      assert (a + b)[..|a + b| - 1] == a + b[..n];
      AllTerminalAppend(a, b[..n]);
      HeldAppend(pending, a, b[..n]);
    }
  }

  lemma ChainKept(m: Mapper, a: Out, b: Out)
    requires Kept(m, a) && KeptSame(a.mapper, b)
    ensures Kept(m, Chain(a, b))
  {
    AllTerminalAppend(a.gated, b.gated);
    HeldAppend(m.pending, a.gated, b.gated);
  }

  lemma QuietKept(m: Mapper)
    ensures KeptSame(m, Quiet(m))
  {
  }

  lemma GatedKept(m: Mapper, id: string, e: Event)
    requires TerminalOf(e, id)
    ensures KeptSame(m, Gated(m, id, e))
  {
    assert [e][..0] == [];
    assert Held(m.pending, [e]) == Held(m.pending, [])[id := e];
  }

  /** Steps seen from a mapper that differs only in its items or tasks keep the same things. */
  lemma KeptFrom(m: Mapper, n: Mapper, out: Out)
    requires KeptSame(n, out)
    requires m.tailed == n.tailed && m.pending == n.pending && m.stages.Keys <= n.stages.Keys
    ensures KeptSame(m, out)
  {
  }

  lemma SubUpdatedKept(m: Mapper, id: string, status: Status, summary: Option<string>, homes: Homes)
    ensures KeptSame(m, SubUpdated(m, id, status, summary))
    ensures SubUpdated(m, id, status, summary).mapper.stages == m.stages
    ensures NestedOk(m, homes) ==> NestedOk(SubUpdated(m, id, status, summary).mapper, homes)
    ensures status == InProgress ==> SubUpdated(m, id, status, summary).gated == []
  {
    if IsSub(m, id) {
      var known := m.items[id].sub;
      var sub := known.(status := status, summary := if summary.Some? then summary else known.summary);
      var updated := m.(items := m.items[id := SubItem(sub)]);
      if status != InProgress {
        GatedKept(updated, id, ItemUpdated(Item(id, sub.parent, Snapshot(sub))));
      }
    }
  }

  lemma ModelNotedKept(m: Mapper, id: string, seen: Option<Transcript.ModelSeen>, homes: Homes)
    ensures KeptSame(m, MaybeNoted(m, id, seen))
    ensures MaybeNoted(m, id, seen).mapper.stages == m.stages
    ensures NestedOk(m, homes) ==> NestedOk(MaybeNoted(m, id, seen).mapper, homes)
  {
    if seen.Some? && IsSub(m, id) {
      var known := m.items[id].sub;
      var sub := known.(model := OrElse(seen.value.model, known.model), effort := OrElse(seen.value.effort, known.effort));
      var n := m.(items := m.items[id := SubItem(sub)]);
      SubUpdatedKept(n, id, sub.status, None, homes);
      KeptFrom(m, n, SubUpdated(n, id, sub.status, None));
    }
  }

  /** One event of an orderly batch, whose start, if it completes a spawn, was delivered. */
  ghost predicate EventOk(e: Event, parent: string, told: set<string>, homes: Homes) {
    && (e.ItemStarted? || e.ItemCompleted?)
    && homes(EventItem(e).id) == (if EventItem(e).content.Subagent? then Some(parent) else None)
    && (EventItem(e).content.Subagent? ==> (e.ItemStarted? <==> EventItem(e).content.status == InProgress))
    && (e.ItemCompleted? && e.completed.content.Subagent? ==> e.completed.id in told)
  }

  lemma ChildFoldedKept(m: Mapper, e: Event, parent: string, homes: Homes)
    requires NestedOk(m, homes) && EventOk(e, parent, m.stages.Keys, homes)
    ensures KeptSame(m, ChildFolded(m, e)) && NestedOk(ChildFolded(m, e).mapper, homes)
    ensures EventItem(e).id in ChildFolded(m, e).mapper.stages
  {
    if Passes(m.stages, e) && e.ItemCompleted? && e.completed.content.Subagent? {
      var id := e.completed.id;
      assert homes(id).Some? && IsSub(m, id);
      var known := m.(stages := Advanced(m.stages, e), items := m.items - {id});
      GateOf(m, known, id, e);
    }
  }

  lemma GateOf(m: Mapper, known: Mapper, id: string, e: Event)
    requires TerminalOf(e, id)
    requires m.tailed == known.tailed && m.pending == known.pending && m.stages.Keys <= known.stages.Keys
    ensures KeptSame(m, Gated(known, id, e))
  {
    GatedKept(known, id, e);
    KeptFrom(m, known, Gated(known, id, e));
  }

  lemma {:induction false} ChildrenFoldedKept(m: Mapper, events: seq<Event>, parent: string, told: set<string>, homes: Homes)
    requires NestedOk(m, homes) && BatchOk(events, parent, told, homes) && told <= m.stages.Keys
    ensures KeptSame(m, ChildrenFolded(m, events)) && NestedOk(ChildrenFolded(m, events).mapper, homes)
    ensures m.stages.Keys + Spawns(events) <= ChildrenFolded(m, events).mapper.stages.Keys
  {
    if events != [] {
      var n := |events| - 1;
      var init, e := events[..n], events[n];
      BatchPrefix(events, n, parent, told, homes);
      ChildrenFoldedKept(m, init, parent, told, homes);
      OneMoreKept(m, ChildrenFolded(m, init), e, parent, told + Spawns(init), homes);
      SpawnsSnoc(init, e);
      assert events == init + [e];
    }
  }

  lemma OneMoreKept(m: Mapper, before: Out, e: Event, parent: string, told: set<string>, homes: Homes)
    requires KeptSame(m, before) && NestedOk(before.mapper, homes)
    requires EventOk(e, parent, told, homes) && told <= before.mapper.stages.Keys
    ensures var out := Chain(before, ChildFolded(before.mapper, e));
      KeptSame(m, out) && NestedOk(out.mapper, homes) && told + {EventItem(e).id} <= out.mapper.stages.Keys
  {
    ChildFoldedKept(before.mapper, e, parent, homes);
    ChainKept(m, before, ChildFolded(before.mapper, e));
  }

  lemma BatchPrefix(events: seq<Event>, n: nat, parent: string, told: set<string>, homes: Homes)
    requires BatchOk(events, parent, told, homes) && n < |events|
    ensures BatchOk(events[..n], parent, told, homes)
    ensures EventOk(events[n], parent, told + Spawns(events[..n]), homes)
  {
    forall i | 0 <= i < n ensures events[..n][..i] == events[..i] && events[..n][i] == events[i] {
    }
  }

  lemma SpawnsSnoc(events: seq<Event>, e: Event)
    ensures Spawns(events + [e])
         == if e.ItemStarted? && e.started.content.Subagent? then Spawns(events) + {e.started.id} else Spawns(events)
  {
    var all := events + [e];
    assert forall f :: f in all <==> f in events || f == e;
  }

  // ---------------------------------------------------------------- messages

  lemma LaunchKept(m: Mapper, tasks: map<string, string>, id: string, homes: Homes)
    requires NestedOk(m, homes)
    ensures var out := SubUpdated(m.(taskTools := tasks), id, InProgress, None);
      KeptSame(m, out) && NestedOk(out.mapper, homes) && out.mapper.stages == m.stages
  {
    var n := m.(taskTools := tasks);
    SubUpdatedKept(n, id, InProgress, None, homes);
    KeptFrom(m, n, SubUpdated(n, id, InProgress, None));
  }

  /** What a tool result keeps: it concerns no nested spawn. */
  ghost predicate ResultKept(m: Mapper, out: Out, homes: Homes) {
    KeptSame(m, out) && NestedOk(out.mapper, homes) && out.mapper.stages == m.stages
  }

  lemma SettledKept(m: Mapper, id: string, e: Event, homes: Homes)
    requires NestedOk(m, homes) && homes(id).None? && TerminalOf(e, id)
    ensures ResultKept(m, Gated(m.(items := m.items - {id}), id, e), homes)
  {
    GateOf(m, m.(items := m.items - {id}), id, e);
  }

  lemma PlainResultKept(m: Mapper, block: ResultBlock, flags: ResultFlags, homes: Homes)
    requires NestedOk(m, homes) && homes(block.toolUseId).None? && !IsSub(m, block.toolUseId)
    ensures ResultKept(m, ResultTaken(m, block, flags), homes)
  {
  }

  lemma ResultTakenKept(m: Mapper, block: ResultBlock, flags: ResultFlags, homes: Homes)
    requires NestedOk(m, homes) && homes(block.toolUseId).None?
    ensures ResultKept(m, ResultTaken(m, block, flags), homes)
  {
    var id := block.toolUseId;
    if !IsSub(m, id) {
      PlainResultKept(m, block, flags, homes);
    } else if flags.asyncLaunched {
      LaunchKept(m, if flags.agentId.Some? then m.taskTools[flags.agentId.value := id] else m.taskTools, id, homes);
    } else {
      var sub := m.items[id].sub;
      var summary := if sub.summary.Some? then sub.summary
        else if Blank(block.output) then None else Some(Transcript.OneLineSummary(block.output));
      var status := if block.isError then Failed else Completed;
      SettledKept(m, id, ItemCompleted(Item(id, sub.parent, Snapshot(sub.(status := status, summary := summary)))), homes);
    }
  }

  lemma {:induction false} ResultsTakenKept(m: Mapper, blocks: seq<ResultBlock>, flags: ResultFlags, homes: Homes)
    requires NestedOk(m, homes) && forall i :: 0 <= i < |blocks| ==> homes(blocks[i].toolUseId).None?
    ensures ResultKept(m, ResultsTaken(m, blocks, flags), homes)
  {
    if blocks != [] {
      var n := |blocks| - 1;
      ResultsTakenKept(m, blocks[..n], flags, homes);
      var before := ResultsTaken(m, blocks[..n], flags);
      ResultTakenKept(before.mapper, blocks[n], flags, homes);
      ChainKept(m, before, ResultTaken(before.mapper, blocks[n], flags));
    }
  }

  /** The tails a reply asks to start. */
  function Starts(requests: seq<Request>): set<string> {
    set r | r in requests && r.StartTail? :: r.parent
  }

  lemma StartKept(m: Mapper, tasks: map<string, string>, tailed: set<string>, parent: string, homes: Homes)
    requires NestedOk(m, homes)
    ensures var out := SubUpdated(m.(taskTools := tasks, tailed := m.tailed + tailed), parent, InProgress, None);
      && Kept(m, out) && NestedOk(out.mapper, homes) && out.mapper.stages == m.stages
      && out.mapper.tailed == m.tailed + tailed
  {
    SubUpdatedKept(m.(taskTools := tasks, tailed := m.tailed + tailed), parent, InProgress, None, homes);
  }

  lemma TaskBegunKept(m: Mapper, taskId: Option<string>, toolUseId: Option<string>, localBash: bool, homes: Homes)
    requires NestedOk(m, homes)
    ensures var reply := TaskBegun(m, taskId, toolUseId, localBash);
      && Kept(m, reply.out) && NestedOk(reply.out.mapper, homes) && reply.out.mapper.stages == m.stages
      && reply.out.mapper.tailed == m.tailed + Starts(reply.requests)
  {
    if toolUseId.None? {
      QuietKept(m);
    } else if taskId.None? {
      SubUpdatedKept(m, toolUseId.value, InProgress, None, homes);
    } else {
      var parent := if taskId.value in m.taskTools then m.taskTools[taskId.value] else toolUseId.value;
      StartKept(m, m.taskTools[taskId.value := parent], if localBash then {} else {parent}, parent, homes);
      assert m.tailed + {} == m.tailed;
      assert Starts([StartTail(parent)]) == {parent};
    }
  }

  lemma CommandEndedKept(m: Mapper, id: string, status: Status, summary: Option<string>, homes: Homes)
    requires NestedOk(m, homes) && id in m.items && m.items[id].CommandItem?
    ensures ResultKept(m, CommandEnded(m, id, status, summary), homes)
  {
  }

  lemma TaskNotifiedKept(m: Mapper, message: Message, homes: Homes)
    requires NestedOk(m, homes) && message.TaskNotified?
    ensures ResultKept(m, Answer(m, message).out, homes) && Starts(Answer(m, message).requests) == {}
  {
    var id := if message.notifiedTask.Some? && message.notifiedTask.value in m.taskTools
      then Some(m.taskTools[message.notifiedTask.value]) else message.notifiedTool;
    if id.None? {
      QuietKept(m);
    } else {
      var line := if message.summary.Some? then Some(Transcript.OneLineSummary(message.summary.value)) else None;
      if id.value in m.items && m.items[id.value].CommandItem? {
        CommandEndedKept(m, id.value, message.outcome, line, homes);
      } else {
        SubUpdatedKept(m, id.value, message.outcome, line, homes);
      }
    }
  }

  lemma AnswerKept(m: Mapper, message: Message, told: set<string>, homes: Homes)
    requires NestedOk(m, homes) && MessageOk(message, told, homes) && told <= m.stages.Keys
    ensures var reply := Answer(m, message);
      && Kept(m, reply.out) && NestedOk(reply.out.mapper, homes)
      && reply.out.mapper.tailed == m.tailed + Starts(reply.requests)
      && (message.ChildRecords? ==> Spawns(message.children) <= reply.out.mapper.stages.Keys)
  {
    QuietKept(m);
    match message {
      case ToolUsed(id, item) =>
      case ToolResults(blocks, flags) => ResultsTakenKept(m, blocks, flags, homes);
      case TaskStarted(taskId, toolUseId, localBash) => TaskBegunKept(m, taskId, toolUseId, localBash, homes);
      case TaskUpdated(taskId, status) =>
        if taskId in m.taskTools && status.Some? {
          SubUpdatedKept(m, m.taskTools[taskId], status.value, None, homes);
        }
      case TaskNotified(_, _, _, _, _) => TaskNotifiedKept(m, message, homes);
      case ChildRecords(parent, seen, children) => BatchKept(m, parent, seen, children, told, homes);
      case OtherMessage(plain) =>
    }
  }

  /** One feed's batch: the model it saw, then its child events. */
  lemma BatchKept(m: Mapper, parent: string, seen: Option<Transcript.ModelSeen>, events: seq<Event>, told: set<string>, homes: Homes)
    requires NestedOk(m, homes) && BatchOk(events, parent, told, homes) && told <= m.stages.Keys
    ensures var noted := MaybeNoted(m, parent, seen);
      var out := Chain(noted, ChildrenFolded(noted.mapper, events));
      && KeptSame(m, out) && NestedOk(out.mapper, homes)
      && m.stages.Keys + Spawns(events) <= out.mapper.stages.Keys
  {
    var noted := MaybeNoted(m, parent, seen);
    ModelNotedKept(m, parent, seen, homes);
    ChildrenFoldedKept(noted.mapper, events, parent, told, homes);
    ChainKept(m, noted, ChildrenFolded(noted.mapper, events));
  }

  lemma WireKept(m: Mapper, w: Wire, told: set<string>, homes: Homes)
    requires NestedOk(m, homes) && MessageOk(w.message, told, homes) && told <= m.stages.Keys
    ensures var reply := WireTaken(m, w);
      && Kept(m, reply.out) && NestedOk(reply.out.mapper, homes)
      && reply.out.mapper.tailed == m.tailed + Starts(reply.requests)
      && (w.message.ChildRecords? ==> Spawns(w.message.children) <= reply.out.mapper.stages.Keys)
  {
    var restored := SpawnRestored(m, w.spawn);
    AnswerKept(restored, w.message, told, homes);
    var reply := Answer(restored, w.message);
    assert Kept(m, reply.out);
    if w.resumed.Some? && w.resumed.value in restored.taskTools {
      var parent := restored.taskTools[w.resumed.value];
      SubUpdatedKept(reply.out.mapper, parent, InProgress, None, homes);
      ChainKept(m, reply.out, SubUpdated(reply.out.mapper, parent, InProgress, None));
    }
  }

  // ---------------------------------------------------------------- the system's invariant

  lemma {:induction false} HeldStaysOk(m: Mapper, out: Out)
    requires HeldOk(m) && Kept(m, out)
    ensures HeldOk(out.mapper)
  {
    HeldKeys(m.pending, out.gated, m.tailed, out.mapper.tailed);
  }

  lemma {:induction false} HeldKeys(pending: map<string, Event>, gated: seq<Event>, before: set<string>, after: set<string>)
    requires before <= after && AllTerminal(gated)
    requires forall id :: id in pending ==> id in before && TerminalOf(pending[id], id)
    requires forall i :: 0 <= i < |gated| ==> EventItem(gated[i]).id in after
    ensures forall id :: id in Held(pending, gated) ==> id in after && TerminalOf(Held(pending, gated)[id], id)
  {
    if gated != [] {
      HeldKeys(pending, gated[..|gated| - 1], before, after);
      assert Terminal(gated[|gated| - 1]);
    }
  }

  /** A tail runs or its acknowledgement is on its way, exactly for the ids the actor has a sender for. */
  ghost predicate LiveOk(a: Actor) {
    forall p: string :: Acks(a.channel, p) + (if p in a.live then 1 else 0) == if p in a.tailers then 1 else 0
  }

  lemma RequestKept(a: Actor, r: Request)
    requires LiveOk(a)
    ensures var b := Requested(a, r);
      && LiveOk(b) && b.tailers == a.tailers + (if r.StartTail? then {r.parent} else {})
      && b.mapper == a.mapper && b.channel == a.channel && b.reported == a.reported && b.closed == a.closed
      && (forall p :: p in b.live ==> b.live[p].reported == if p in a.live then a.live[p].reported else {})
  {
    assert forall p :: p !in a.tailers ==> p !in a.live;
  }

  lemma {:induction false} RequestsKept(a: Actor, requests: seq<Request>)
    requires LiveOk(a)
    ensures var b := RequestedAll(a, requests);
      && LiveOk(b) && b.tailers == a.tailers + Starts(requests)
      && b.mapper == a.mapper && b.channel == a.channel && b.reported == a.reported && b.closed == a.closed
      && (forall p :: p in b.live ==> b.live[p].reported <= if p in a.live then a.live[p].reported else {})
  {
    if requests != [] {
      var n := |requests| - 1;
      RequestsKept(a, requests[..n]);
      RequestKept(RequestedAll(a, requests[..n]), requests[n]);
      assert forall r :: r in requests <==> r in requests[..n] || r == requests[n];
    }
  }

  lemma {:induction false} ChannelGrows(channel: seq<Notice>, told: set<string>, more: set<string>, homes: Homes)
    requires ChannelOk(channel, told, homes) && told <= more
    ensures ChannelOk(channel, more, homes)
  {
    if channel != [] {
      ChannelGrows(channel[1..], told + Spawns(channel[0].events), more + Spawns(channel[0].events), homes);
    }
  }

  lemma {:induction false} ChannelAppend(channel: seq<Notice>, n: Notice, told: set<string>, homes: Homes)
    requires ChannelOk(channel, told, homes)
    requires BatchOk(n.events, n.parent, told + SpawnsOnTheWay(channel), homes)
    ensures ChannelOk(channel + [n], told, homes)
    ensures SpawnsOnTheWay(channel + [n]) == SpawnsOnTheWay(channel) + Spawns(n.events)
    ensures forall p :: Acks(channel + [n], p) == Acks(channel, p) + if n.stopped && n.parent == p then 1 else 0
  {
    if channel == [] {
      assert ([n])[1..] == [] && [] + [n] == [n] && told + {} == told;
      assert ChannelOk([], told + Spawns(n.events), homes);
      assert forall p :: Acks([], p) == 0;
    } else {
      assert (channel + [n])[1..] == channel[1..] + [n];
      assert told + SpawnsOnTheWay(channel) == (told + Spawns(channel[0].events)) + SpawnsOnTheWay(channel[1..]);
      ChannelAppend(channel[1..], n, told + Spawns(channel[0].events), homes);
    }
  }

  lemma BatchGrows(events: seq<Event>, parent: string, told: set<string>, more: set<string>, homes: Homes)
    requires BatchOk(events, parent, told, homes) && told <= more
    ensures BatchOk(events, parent, more, homes)
  {
  }

  lemma LineFeeds(a: Actor, b: Actor, told: set<string>, homes: Homes)
    requires FeedsOk(a, homes)
    requires b.channel == a.channel && b.reported == a.reported + told
    requires a.mapper.stages.Keys + told <= b.mapper.stages.Keys
    requires forall p :: p in b.live ==> b.live[p].reported <= if p in a.live then a.live[p].reported else {}
    ensures FeedsOk(b, homes)
  {
    ChannelGrows(a.channel, a.mapper.stages.Keys, b.mapper.stages.Keys, homes);
  }

  lemma LineKept(a: Actor, wire: Wire, homes: Homes)
    requires Inv(a, homes) && Enabled(a, Line(wire), homes)
    ensures Inv(Step(a, Line(wire)).actor, homes)
    ensures Kept(a.mapper, WireTaken(a.mapper, wire).out)
  {
    var reply := WireTaken(a.mapper, wire);
    WireKept(a.mapper, wire, a.reported, homes);
    HeldStaysOk(a.mapper, reply.out);
    var told := if wire.message.ChildRecords? then Spawns(wire.message.children) else {};
    var mid := a.(mapper := reply.out.mapper, reported := a.reported + told);
    RequestsKept(mid, reply.requests);
    LineFeeds(a, RequestedAll(mid, reply.requests), told, homes);
  }

  /** What receiving a notice keeps: the batch as any batch, then the release. */
  lemma NoticeKept(m: Mapper, n: Notice, told: set<string>, homes: Homes)
    requires NestedOk(m, homes) && HeldOk(m) && BatchOk(n.events, n.parent, told, homes) && told <= m.stages.Keys
    ensures KeptSame(m, Flushed(m, n)) && HeldOk(Flushed(m, n).mapper)
    ensures var out := NoticeTaken(m, n);
      && NestedOk(out.mapper, homes) && HeldOk(out.mapper)
      && out.mapper.tailed == (if n.stopped then m.tailed - {n.parent} else m.tailed)
      && m.stages.Keys + Spawns(n.events) <= out.mapper.stages.Keys
  {
    BatchKept(m, n.parent, n.seen, n.events, told, homes);
    HeldStaysOk(m, Flushed(m, n));
  }

  lemma DeliverKept(a: Actor, homes: Homes)
    requires Inv(a, homes) && Enabled(a, Deliver, homes)
    ensures Inv(Step(a, Deliver).actor, homes)
  {
    var n, b := a.channel[0], Step(a, Deliver).actor;
    NoticeKept(a.mapper, n, a.mapper.stages.Keys, homes);
    ChannelGrows(a.channel[1..], a.mapper.stages.Keys + Spawns(n.events), b.mapper.stages.Keys, homes);
    forall p: string
      ensures Acks(b.channel, p) + (if p in b.live then 1 else 0) == if p in b.tailers then 1 else 0
    {
      assert Acks(a.channel, p) == (if n.stopped && n.parent == p then 1 else 0) + Acks(b.channel, p);
    }
  }

  lemma PolledKept(a: Actor, parent: string, events: seq<Event>, seen: Option<Transcript.ModelSeen>, sawStop: bool, homes: Homes)
    requires Inv(a, homes) && Enabled(a, Polled(parent, events, seen, sawStop), homes)
    ensures Inv(Step(a, Polled(parent, events, seen, sawStop)).actor, homes)
  {
    if !a.closed {
      var told := a.mapper.stages.Keys;
      var n := Notice(parent, events, seen, sawStop);
      BatchGrows(events, parent, a.live[parent].reported, told + SpawnsOnTheWay(a.channel), homes);
      ChannelAppend(a.channel, n, told, homes);
    }
  }

  lemma StepKeepsInv(a: Actor, move: Move, homes: Homes)
    requires Inv(a, homes) && Enabled(a, move, homes)
    ensures Inv(Step(a, move).actor, homes)
  {
    match move {
      case Line(wire) => LineKept(a, wire, homes);
      case Deliver => DeliverKept(a, homes);
      case Polled(parent, events, seen, sawStop) => PolledKept(a, parent, events, seen, sawStop, homes);
      case TornDown(order) =>
    }
  }

  // ---------------------------------------------------------------- whole runs

  function Run(moves: seq<Move>): Next {
    if moves == [] then Next(START, [], [])
    else
      var before := Run(moves[..|moves| - 1]);
      var next := Step(before.actor, moves[|moves| - 1]);
      Next(next.actor, before.events + next.events, before.gated + next.gated)
  }

  ghost predicate AllEnabled(moves: seq<Move>, homes: Homes) {
    moves == [] || (AllEnabled(moves[..|moves| - 1], homes)
                    && Enabled(Run(moves[..|moves| - 1]).actor, moves[|moves| - 1], homes))
  }

  /**
   * In every reachable state only tailed subagents are held, and while the session runs each
   * tailed subagent's tail is either still running or has its one acknowledgement on its way.
   */
  lemma {:induction false} RunsKeepInv(moves: seq<Move>, homes: Homes)
    requires AllEnabled(moves, homes)
    ensures Inv(Run(moves).actor, homes)
  {
    if moves == [] {
      assert AcksOk(START) && FeedsOk(START, homes);
    } else {
      RunsKeepInv(moves[..|moves| - 1], homes);
      StepKeepsInv(Run(moves[..|moves| - 1]).actor, moves[|moves| - 1], homes);
    }
  }

  /** The moves that let a held snapshot go: its tail's acknowledgement, or teardown. */
  predicate ReleasesOf(a: Actor, move: Move, id: string) {
    move.TornDown? || (move.Deliver? && a.channel != [] && a.channel[0].stopped && a.channel[0].parent == id)
  }

  lemma MoveKept(a: Actor, move: Move, homes: Homes)
    requires Inv(a, homes) && Enabled(a, move, homes) && !move.TornDown?
    ensures AllTerminal(Step(a, move).gated)
    ensures forall id :: !ReleasesOf(a, move, id) ==>
      && (id in a.mapper.tailed ==> id in Step(a, move).actor.mapper.tailed)
      && (id in Step(a, move).actor.mapper.pending <==> id in Held(a.mapper.pending, Step(a, move).gated))
      && (id in Step(a, move).actor.mapper.pending ==>
            Step(a, move).actor.mapper.pending[id] == Held(a.mapper.pending, Step(a, move).gated)[id])
  {
    match move {
      case Line(wire) =>
        LineKept(a, wire, homes);
        var reply := WireTaken(a.mapper, wire);
        var told := if wire.message.ChildRecords? then Spawns(wire.message.children) else {};
        RequestsKept(a.(mapper := reply.out.mapper, reported := a.reported + told), reply.requests);
      case Deliver =>
        NoticeKept(a.mapper, a.channel[0], a.mapper.stages.Keys, homes);
        assert Flushed(a.mapper, a.channel[0]).gated + [] == Flushed(a.mapper, a.channel[0]).gated;
      case Polled(_, _, _, _) =>
    }
  }

  lemma {:induction false} HeldKeeps(pending: map<string, Event>, gated: seq<Event>, id: string)
    requires AllTerminal(gated)
    ensures id in pending ==> id in Held(pending, gated)
    ensures id in pending && id !in Held(map[], gated) ==> Held(pending, gated)[id] == pending[id]
    ensures id in Held(map[], gated) ==> id in Held(pending, gated) && Held(pending, gated)[id] == Held(map[], gated)[id]
  {
    if gated != [] {
      HeldKeeps(pending, gated[..|gated| - 1], id);
    }
  }

  /**
   * No terminal Subagent snapshot is emitted for a tailed subagent, except by the move that
   * releases it; and that move emits it last, as the final event of the stopped notice.
   */
  lemma NothingTerminalWhileTailed(a: Actor, move: Move, homes: Homes, i: nat)
    requires Inv(a, homes) && Enabled(a, move, homes) && !move.TornDown?
    requires i < |Step(a, move).events| && Terminal(Step(a, move).events[i])
    ensures var id := EventItem(Step(a, move).events[i]).id;
      && id !in Step(a, move).actor.mapper.tailed
      && (id in a.mapper.tailed ==> ReleasesOf(a, move, id) && i == |Step(a, move).events| - 1)
  {
    match move {
      case Line(wire) =>
        LineKept(a, wire, homes);
        var reply := WireTaken(a.mapper, wire);
        var told := if wire.message.ChildRecords? then Spawns(wire.message.children) else {};
        RequestsKept(a.(mapper := reply.out.mapper, reported := a.reported + told), reply.requests);
      case Deliver =>
        NoticeKept(a.mapper, a.channel[0], a.mapper.stages.Keys, homes);
        var flushed := Flushed(a.mapper, a.channel[0]);
        assert i < |flushed.events| ==> Step(a, move).events[i] == flushed.events[i];
      case Polled(_, _, _, _) =>
    }
  }

  /**
   * A stopped notice ends with the snapshot held for its subagent, the latest one gated; the
   * child items of the tail's final read come before it, and nothing is held afterwards.
   */
  lemma StoppedNoticeReleasesLatest(a: Actor, homes: Homes)
    requires Inv(a, homes) && Enabled(a, Deliver, homes) && a.channel[0].stopped
    ensures var n := a.channel[0];
      var out, flushed := NoticeTaken(a.mapper, n), Flushed(a.mapper, n);
      && AllTerminal(flushed.gated)
      && (var held := Held(a.mapper.pending, flushed.gated);
          out.events == flushed.events + if n.parent in held then [held[n.parent]] else [])
      && n.parent !in out.mapper.pending && n.parent !in out.mapper.tailed
  {
    NoticeReleasesLatest(a.mapper, a.channel[0], a.mapper.stages.Keys, homes);
  }

  lemma NoticeReleasesLatest(m: Mapper, n: Notice, told: set<string>, homes: Homes)
    requires NestedOk(m, homes) && HeldOk(m) && BatchOk(n.events, n.parent, told, homes) && told <= m.stages.Keys
    requires n.stopped
    ensures var out, flushed := NoticeTaken(m, n), Flushed(m, n);
      && AllTerminal(flushed.gated)
      && (var held := Held(m.pending, flushed.gated);
          out.events == flushed.events + if n.parent in held then [held[n.parent]] else [])
      && n.parent !in out.mapper.pending && n.parent !in out.mapper.tailed
  {
    NoticeKept(m, n, told, homes);
  }

  /** Every snapshot still held is emitted at teardown, once, and nothing else is. */
  lemma {:induction false} TeardownReleasesAll(pending: map<string, Event>, order: seq<string>, id: string)
    requires forall i, j :: 0 <= i < j < |order| ==> order[i] != order[j]
    requires forall held :: held in pending ==> TerminalOf(pending[held], held)
    ensures Count(HeldIn(pending, order), id) == if id in pending && id in order then 1 else 0
    ensures forall e :: e in HeldIn(pending, order) ==> exists held :: held in pending && e == pending[held]
  {
    if order != [] {
      assert forall i, j :: 0 <= i < j < |order[1..]| ==> order[1..][i] == order[i + 1] && order[1..][j] == order[j + 1];
      TeardownReleasesAll(pending, order[1..], id);
      if order[0] in pending {
        var rest := HeldIn(pending, order[1..]);
        assert ([pending[order[0]]] + rest)[1..] == rest;
      }
    }
  }

  /** How many terminal snapshots of one subagent a list holds. */
  function Count(events: seq<Event>, id: string): nat {
    if events == [] then 0 else (if TerminalOf(events[0], id) then 1 else 0) + Count(events[1..], id)
  }

  lemma {:induction false} CountAppend(a: seq<Event>, b: seq<Event>, id: string)
    ensures Count(a + b, id) == Count(a, id) + Count(b, id)
  {
    if a == [] {
      assert a + b == b;
    } else {
      assert (a + b)[1..] == a[1..] + b;
      CountAppend(a[1..], b, id);
    }
  }

  lemma {:induction false} CountNone(events: seq<Event>, id: string)
    requires forall i :: 0 <= i < |events| ==> !TerminalOf(events[i], id)
    ensures Count(events, id) == 0
  {
    if events != [] {
      assert forall i :: 0 <= i < |events[1..]| ==> events[1..][i] == events[i + 1];
      CountNone(events[1..], id);
    }
  }

  // ---------------------------------------------------------------- from being held to being released

  function RunFrom(a: Actor, moves: seq<Move>): Next {
    if moves == [] then Next(a, [], [])
    else
      var before := RunFrom(a, moves[..|moves| - 1]);
      var next := Step(before.actor, moves[|moves| - 1]);
      Next(next.actor, before.events + next.events, before.gated + next.gated)
  }

  /** Enabled moves of which none releases the subagent. */
  ghost predicate Holding(a: Actor, moves: seq<Move>, homes: Homes, id: string) {
    moves == [] ||
    (var init, move := moves[..|moves| - 1], moves[|moves| - 1];
     && Holding(a, init, homes, id)
     && Enabled(RunFrom(a, init).actor, move, homes) && !ReleasesOf(RunFrom(a, init).actor, move, id))
  }

  /**
   * From the moment a snapshot is held until its release, however many moves lie between: none of
   * that subagent's terminal snapshots is emitted, and what is held is the latest one gated.
   */
  lemma {:induction false} HeldUntilReleased(a: Actor, moves: seq<Move>, homes: Homes, id: string)
    requires Inv(a, homes) && id in a.mapper.pending && Holding(a, moves, homes, id)
    ensures var next := RunFrom(a, moves);
      && Inv(next.actor, homes) && AllTerminal(next.gated)
      && Count(next.events, id) == 0
      && id in next.actor.mapper.pending
      && id in Held(a.mapper.pending, next.gated)
      && next.actor.mapper.pending[id] == Held(a.mapper.pending, next.gated)[id]
  {
    if moves != [] {
      var init, move := moves[..|moves| - 1], moves[|moves| - 1];
      HeldUntilReleased(a, init, homes, id);
      var before := RunFrom(a, init);
      HeldByMove(before.actor, move, homes, id);
      var next := Step(before.actor, move);
      LatestOfTwo(a.mapper.pending, before.actor.mapper.pending, before.gated, next.gated, id);
      CountAppend(before.events, next.events, id);
    }
  }

  /** One move that does not release: nothing of the subagent is emitted, the latest is held. */
  lemma HeldByMove(a: Actor, move: Move, homes: Homes, id: string)
    requires Inv(a, homes) && id in a.mapper.pending && Enabled(a, move, homes) && !ReleasesOf(a, move, id)
    ensures var next := Step(a, move);
      && Inv(next.actor, homes) && AllTerminal(next.gated)
      && Count(next.events, id) == 0
      && id in next.actor.mapper.pending
      && id in Held(a.mapper.pending, next.gated)
      && next.actor.mapper.pending[id] == Held(a.mapper.pending, next.gated)[id]
  {
    StepKeepsInv(a, move, homes);
    MoveKept(a, move, homes);
    var next := Step(a, move);
    HeldKeeps(a.mapper.pending, next.gated, id);
    forall i | 0 <= i < |next.events| ensures !TerminalOf(next.events[i], id) {
      if TerminalOf(next.events[i], id) {
        NothingTerminalWhileTailed(a, move, homes, i);
      }
    }
    CountNone(next.events, id);
  }

  lemma LatestOfTwo(start: map<string, Event>, between: map<string, Event>, first: seq<Event>, second: seq<Event>, id: string)
    requires AllTerminal(first) && AllTerminal(second)
    requires id in between && id in Held(start, first) && between[id] == Held(start, first)[id]
    ensures AllTerminal(first + second)
    ensures id in Held(between, second) && id in Held(start, first + second)
    ensures Held(start, first + second)[id] == Held(between, second)[id]
  {
    AllTerminalAppend(first, second);
    HeldAppend(start, first, second);
    HeldKeeps(between, second, id);
    HeldKeeps(Held(start, first), second, id);
  }

  /** A batch emits nothing terminal for a subagent that is held, and keeps it held. */
  lemma FlushKeepsHeld(m: Mapper, n: Notice, told: set<string>, homes: Homes, id: string)
    requires NestedOk(m, homes) && HeldOk(m) && BatchOk(n.events, n.parent, told, homes) && told <= m.stages.Keys
    requires id in m.pending
    ensures var flushed := Flushed(m, n);
      && Count(flushed.events, id) == 0
      && AllTerminal(flushed.gated) && id in Held(m.pending, flushed.gated)
      && TerminalOf(Held(m.pending, flushed.gated)[id], id)
  {
    NoticeKept(m, n, told, homes);
    var flushed := Flushed(m, n);
    HeldKeeps(m.pending, flushed.gated, id);
    CountNone(flushed.events, id);
  }

  /** A stopped notice emits one terminal snapshot of its held subagent, the latest, at the end. */
  lemma NoticeEmitsOne(m: Mapper, n: Notice, told: set<string>, homes: Homes)
    requires NestedOk(m, homes) && HeldOk(m) && BatchOk(n.events, n.parent, told, homes) && told <= m.stages.Keys
    requires n.stopped && n.parent in m.pending
    ensures var out := NoticeTaken(m, n);
      && AllTerminal(out.gated) && n.parent in Held(m.pending, out.gated)
      && Count(out.events, n.parent) == 1
      && out.events != [] && out.events[|out.events| - 1] == Held(m.pending, out.gated)[n.parent]
      && n.parent !in out.mapper.pending && n.parent !in out.mapper.tailed
  {
    var flushed := Flushed(m, n);
    NoticeReleasesLatest(m, n, told, homes);
    FlushKeepsHeld(m, n, told, homes, n.parent);
    var last := Held(m.pending, flushed.gated)[n.parent];
    assert NoticeTaken(m, n).gated == flushed.gated;
    CountAppend(flushed.events, [last], n.parent);
    assert Count([last][1..], n.parent) == 0;
  }

  /** One terminal snapshot of the subagent among the events: the latest gated, as the last event. */
  ghost predicate ReleasedOnce(pending: map<string, Event>, events: seq<Event>, gated: seq<Event>, id: string) {
    && AllTerminal(gated) && id in Held(pending, gated)
    && Count(events, id) == 1
    && events != [] && events[|events| - 1] == Held(pending, gated)[id]
  }

  lemma DeliverReleases(a: Actor, homes: Homes, id: string)
    requires Inv(a, homes) && id in a.mapper.pending && Enabled(a, Deliver, homes) && ReleasesOf(a, Deliver, id)
    ensures var next := Step(a, Deliver);
      && ReleasedOnce(a.mapper.pending, next.events, next.gated, id)
      && id !in next.actor.mapper.pending && id !in next.actor.mapper.tailed
  {
    NoticeEmitsOne(a.mapper, a.channel[0], a.mapper.stages.Keys, homes);
  }

  lemma ReleasedAfter(start: map<string, Event>, between: map<string, Event>, quiet: seq<Event>, first: seq<Event>,
                      events: seq<Event>, second: seq<Event>, id: string)
    requires AllTerminal(first) && id in between && id in Held(start, first) && between[id] == Held(start, first)[id]
    requires Count(quiet, id) == 0 && ReleasedOnce(between, events, second, id)
    ensures ReleasedOnce(start, quiet + events, first + second, id)
  {
    LatestOfTwo(start, between, first, second, id);
    CountAppend(quiet, events, id);
  }

  lemma RunFromSnoc(a: Actor, moves: seq<Move>, move: Move)
    ensures var before := RunFrom(a, moves);
      var last := Step(before.actor, move);
      RunFrom(a, moves + [move]) == Next(last.actor, before.events + last.events, before.gated + last.gated)
  {
    assert (moves + [move])[..|moves|] == moves;
  }

  /**
   * From being held to the acknowledgement, exactly one terminal snapshot of the subagent is
   * emitted: the latest one gated, as the very last event.
   */
  lemma HeldIsReleasedOnce(a: Actor, moves: seq<Move>, homes: Homes, id: string)
    requires Inv(a, homes) && id in a.mapper.pending && Holding(a, moves, homes, id)
    requires Enabled(RunFrom(a, moves).actor, Deliver, homes) && ReleasesOf(RunFrom(a, moves).actor, Deliver, id)
    ensures var next := RunFrom(a, moves + [Deliver]);
      && ReleasedOnce(a.mapper.pending, next.events, next.gated, id)
      && id !in next.actor.mapper.pending && id !in next.actor.mapper.tailed
  {
    HeldUntilReleased(a, moves, homes, id);
    var before := RunFrom(a, moves);
    DeliverReleases(before.actor, homes, id);
    var last := Step(before.actor, Deliver);
    ReleasedAfter(a.mapper.pending, before.actor.mapper.pending, before.events, before.gated, last.events, last.gated, id);
    RunFromSnoc(a, moves, Deliver);
  }

  lemma {:induction false} HeldInHolds(pending: map<string, Event>, order: seq<string>, id: string)
    requires id in pending && id in order
    ensures pending[id] in HeldIn(pending, order)
  {
    if order[0] != id {
      HeldInHolds(pending, order[1..], id);
    }
  }

  /** Teardown, from any state it can happen in: of each held subagent one snapshot, the held one. */
  lemma TeardownEmitsOne(a: Actor, order: seq<string>, homes: Homes, id: string)
    requires Inv(a, homes) && Enabled(a, TornDown(order), homes) && id in a.mapper.pending
    ensures var next := Step(a, TornDown(order));
      && Count(next.events, id) == 1 && a.mapper.pending[id] in next.events && TerminalOf(a.mapper.pending[id], id)
      && next.gated == [] && next.actor.mapper.pending == map[] && next.actor.mapper.tailed == {}
  {
    TeardownReleasesAll(a.mapper.pending, order, id);
    HeldInHolds(a.mapper.pending, order, id);
  }

  /**
   * From being held to teardown, when no acknowledgement comes in between, exactly one terminal
   * snapshot of the subagent is emitted, and it is the latest one gated.
   */
  lemma HeldIsReleasedAtTeardown(a: Actor, moves: seq<Move>, order: seq<string>, homes: Homes, id: string)
    requires Inv(a, homes) && id in a.mapper.pending && Holding(a, moves, homes, id)
    requires Enabled(RunFrom(a, moves).actor, TornDown(order), homes)
    ensures var next := RunFrom(a, moves + [TornDown(order)]);
      && AllTerminal(next.gated) && id in Held(a.mapper.pending, next.gated)
      && (var latest := Held(a.mapper.pending, next.gated)[id];
          Count(next.events, id) == 1 && latest in next.events && TerminalOf(latest, id))
      && next.actor.mapper.pending == map[] && next.actor.mapper.tailed == {}
  {
    HeldUntilReleased(a, moves, homes, id);
    var before := RunFrom(a, moves);
    TeardownEmitsOne(before.actor, order, homes, id);
    RunFromSnoc(a, moves, TornDown(order));
    var last := Step(before.actor, TornDown(order));
    CountAppend(before.events, last.events, id);
    assert before.gated + last.gated == before.gated;
  }

  // ---------------------------------------------------------------- transcripts keep their side

  /**
   * What the mapper of one transcript emits, cut into batches anywhere, meets the condition the
   * protocol puts on a feed, given that its tool-use ids occur in no other transcript.
   */
  lemma TranscriptFeedsAreOk(parent: string, records: seq<Transcript.Record>, from: nat, to: nat, homes: Homes)
    requires var events := Transcript.MapRecords(Transcript.INITIAL, parent, records).events;
      && from <= to <= |events|
      && forall i :: 0 <= i < |events| ==>
           IsItemEvent(events[i]) ==>
           homes(EventItem(events[i]).id) == if EventItem(events[i]).content.Subagent? then Some(parent) else None
    ensures var events := Transcript.MapRecords(Transcript.INITIAL, parent, records).events;
      BatchOk(events[from..to], parent, Spawns(events[..from]), homes)
  {
    Transcript.TranscriptIsOrderly(parent, records);
    OrderlyBatch(Transcript.MapRecords(Transcript.INITIAL, parent, records).events, parent, from, to, homes);
  }

  lemma OrderlyBatch(events: seq<Event>, parent: string, from: nat, to: nat, homes: Homes)
    requires Transcript.Orderly(events, parent) && from <= to <= |events|
    requires forall i :: 0 <= i < |events| ==>
      homes(EventItem(events[i]).id) == if EventItem(events[i]).content.Subagent? then Some(parent) else None
    ensures BatchOk(events[from..to], parent, Spawns(events[..from]), homes)
  {
    var batch := events[from..to];
    assert forall i :: 0 <= i < |batch| ==> batch[i] == events[from + i];
    forall i | 0 <= i < |batch| && batch[i].ItemCompleted? && batch[i].completed.content.Subagent?
      ensures batch[i].completed.id in Spawns(events[..from]) || batch[i].completed.id in Spawns(batch[..i])
    {
      assert Transcript.NeedsStart(events[from + i]) && Transcript.StartedBefore(events, from + i);
      var j :| 0 <= j < from + i && events[j].ItemStarted? && Transcript.Answers(events[from + i].completed, events[j].started);
      if j < from {
        assert events[..from][j] == events[j];
      } else {
        assert batch[..i][j - from] == events[j];
      }
    }
  }
}
