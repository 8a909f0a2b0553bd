/** Grok's dialect: prompts it runs itself and its background tasks (crates/agent/src/grok.rs). */
module Grok {
  import opened Text
  import opened Events
  import opened AcpSession
  import AcpTurns

  datatype Activity = Activity(queued: set<string>, client: Option<string>, agent: Option<string>,
                               backgrounded: set<string>, tasks: nat, drained: bool)

  const IDLE := Activity({}, None, None, {}, 0, false)

  datatype Notice =
    | QueueChanged(entries: seq<string>, running: Option<string>)
    | PromptEnded(prompt: Option<string>, end: TurnEnd)
    | TaskBackgrounded(toolId: Option<string>)
    | BackgroundTasks(live: nat)
    | OtherNotice(events: seq<Event>)

  /** Everything that reaches a Grok session: commands, results, updates, requests, notifications. */
  datatype Signal =
    | Send
    | Result(n: nat, resultEnd: TurnEnd)
    | Update(replayed: bool, op: Op, bash: bool)
    | PermissionRequest(id: string, title: Option<string>, toolKind: Option<ToolKind>, rawInput: Option<Json>)
    | Notified(notice: Notice)

  // ---------------------------------------------------------------- specification

  predicate SentTurnOpen(a: Activity, s: Session) {
    s.turn.Some? && s.turn != a.agent
  }

  /** What a signal makes of the activity, and the session operations it comes down to. */
  datatype Decision = Decision(activity: Activity, ops: seq<Op>)

  function QueueDecision(a: Activity, entries: seq<string>, running: Option<string>): Decision {
    var known := a.(queued := a.queued + ToSet(entries));
    if running.None? || known.client == running || known.agent == running then Decision(known, [])
    else if running.value in known.queued then
      Decision(known.(queued := known.queued - {running.value}, client := running), [])
    else Decision(known.(agent := running), [AgentBegan(running.value)])
  }

  function EndDecision(a: Activity, s: Session, prompt: Option<string>, end: TurnEnd): Decision {
    if prompt.None? then Decision(a, [])
    else if a.agent == prompt then Decision(a.(agent := None), [AgentEnded(prompt.value, end)])
    else if a.client == prompt then
      Decision(a.(client := None), if SentTurnOpen(a, s) then [AgentEnded(s.turn.value, end)] else [])
    else Decision(a, [])
  }

  function TasksDecision(a: Activity, s: Session, running: nat): Decision {
    var drained := running == 0 && a.tasks > 0 && SentTurnOpen(a, s);
    Decision(a.(tasks := running, drained := drained), if drained then [] else [Reported(BackgroundTasksChanged(running))])
  }

  function Reports(events: seq<Event>): (ops: seq<Op>)
    ensures |ops| == |events| && forall i :: 0 <= i < |ops| ==> ops[i] == Reported(events[i])
  {
    seq(|events|, i requires 0 <= i < |events| => Reported(events[i]))
  }

  function NoticeDecision(a: Activity, s: Session, notice: Notice): Decision {
    match notice
    case QueueChanged(entries, running) => QueueDecision(a, entries, running)
    case PromptEnded(prompt, end) => EndDecision(a, s, prompt, end)
    case TaskBackgrounded(id) => Decision(if id.Some? then a.(backgrounded := a.backgrounded + {id.value}) else a, [])
    case BackgroundTasks(running) => TasksDecision(a, s, running)
    case OtherNotice(events) => Decision(a, Reports(events))
  }

  function ApplyAll(s: Session, ops: seq<Op>): Stepped {
    if ops == [] then Stepped(s, [])
    else
      var before := ApplyAll(s, ops[..|ops| - 1]);
      var last := Apply(before.session, 0, ops[|ops| - 1]);
      Stepped(last.session, before.events + last.events)
  }

  /** After every notification a withheld zero is published unless a sent turn is still open. */
  function Handled(a: Activity, s: Session, notice: Notice): Decision {
    var d := NoticeDecision(a, s, notice);
    if d.activity.drained && !SentTurnOpen(d.activity, ApplyAll(s, d.ops).session)
    then Decision(d.activity.(drained := false), d.ops + [Reported(BackgroundTasksChanged(0))])
    else d
  }

  /** Output of a command that went on in the background never completes its card again. */
  function Prepared(a: Activity, op: Op, bash: bool): Op {
    if op.ToolPatched? && bash && op.id in a.backgrounded then op.(patch := op.patch.(status := None)) else op
  }

  function Decide(a: Activity, s: Session, signal: Signal): Decision {
    match signal
    case Send => Decision(a, [Sent])
    case Result(n, end) => Decision(a, [PromptResult(n, end)])
    case Update(replayed, op, bash) => Decision(a, if replayed then [] else [Prepared(a, op, bash)])
    case PermissionRequest(id, title, kind, rawInput) => Decision(a, [PermissionAsked(id, title, kind, rawInput)])
    case Notified(notice) => Handled(a, s, notice)
  }

  // ---------------------------------------------------------------- the dialect object

  class Dialect {
    var queued: set<string>
    var client: Option<string>
    var agent: Option<string>
    var backgrounded: set<string>
    var tasks: nat
    var drained: bool

    constructor ()
      ensures View() == IDLE
    {
      queued, client, agent, backgrounded, tasks, drained := {}, None, None, {}, 0, false;
    }

    function View(): Activity
      reads this
    {
      Activity(queued, client, agent, backgrounded, tasks, drained)
    }

    predicate IsSentTurnOpen(state: State)
      reads this, state
    {
      state.turn.Some? && state.turn != agent
    }

    method OnQueueChanged(state: State, entries: seq<string>, running: Option<string>) returns (events: seq<Event>)
      modifies this, state
      ensures Matches(old(state.View()), state.View(), View(), events, QueueDecision(old(View()), entries, running))
    {
      ApplyNone(state.View());
      queued := queued + ToSet(entries);
      if running.None? || client == running || agent == running {
        return [];
      }
      if running.value in queued {
        queued := queued - {running.value};
        client := running;
        return [];
      }
      agent := running;
      ApplyOne(state.View(), AgentBegan(running.value));
      events := state.BeginAgentTurn(running.value);
    }

    method OnTurnCompleted(state: State, prompt: Option<string>, end: TurnEnd) returns (events: seq<Event>)
      modifies this, state
      ensures Matches(old(state.View()), state.View(), View(), events, EndDecision(old(View()), old(state.View()), prompt, end))
    {
      ApplyNone(state.View());
      if prompt.None? {
        return [];
      }
      if agent == prompt {
        agent := None;
        ApplyOne(state.View(), AgentEnded(prompt.value, end));
        events := state.EndTurn(prompt.value, end);
        return;
      }
      if client == prompt {
        client := None;
        if IsSentTurnOpen(state) {
          ApplyOne(state.View(), AgentEnded(state.turn.value, end));
          events := state.EndTurn(state.turn.value, end);
          return;
        }
      }
      return [];
    }

    method OnBackgroundTasks(state: State, running: nat) returns (events: seq<Event>)
      modifies this
      ensures Matches(old(state.View()), state.View(), View(), events, TasksDecision(old(View()), old(state.View()), running))
    {
      ApplyNone(state.View());
      var drop := running == 0 && tasks > 0;
      tasks := running;
      drained := drop && IsSentTurnOpen(state);
      if drained {
        return [];
      }
      ApplyOne(state.View(), Reported(BackgroundTasksChanged(running)));
      return [BackgroundTasksChanged(running)];
    }

    method OnNotice(state: State, notice: Notice) returns (events: seq<Event>)
      modifies this, state
      ensures Matches(old(state.View()), state.View(), View(), events, NoticeDecision(old(View()), old(state.View()), notice))
    {
      ApplyNone(state.View());
      match notice {
        case QueueChanged(entries, running) =>
          events := OnQueueChanged(state, entries, running);
        case PromptEnded(prompt, end) =>
          events := OnTurnCompleted(state, prompt, end);
        case TaskBackgrounded(id) =>
          if id.Some? {
            backgrounded := backgrounded + {id.value};
          }
          events := [];
        case BackgroundTasks(live) =>
          events := OnBackgroundTasks(state, live);
        case OtherNotice(reported) =>
          ApplyReports(state.View(), reported);
          events := reported;
      }
    }

    method OnNotification(state: State, notice: Notice) returns (events: seq<Event>)
      modifies this, state
      ensures Matches(old(state.View()), state.View(), View(), events, Handled(old(View()), old(state.View()), notice))
    {
      ghost var d := NoticeDecision(View(), state.View(), notice);
      events := OnNotice(state, notice);
      if drained && !IsSentTurnOpen(state) {
        drained := false;
        ApplySnoc(old(state.View()), d.ops, Reported(BackgroundTasksChanged(0)));
        events := events + [BackgroundTasksChanged(0)];
      }
    }
  }

  /** A handler did what was decided: the activity, and the session operations with their events. */
  ghost predicate Matches(before: Session, after: Session, activity: Activity, events: seq<Event>, d: Decision) {
    activity == d.activity && Stepped(after, events) == ApplyAll(before, d.ops)
  }

  lemma ApplyNone(s: Session)
    ensures ApplyAll(s, []) == Stepped(s, [])
  {
  }

  lemma ApplyOne(s: Session, op: Op)
    ensures ApplyAll(s, [op]) == Apply(s, 0, op)
  {
    var stepped := Apply(s, 0, op);
    assert [op][..0] == [] && [] + stepped.events == stepped.events;
  }

  lemma ApplySnoc(s: Session, ops: seq<Op>, op: Op)
    ensures var before, last := ApplyAll(s, ops), Apply(ApplyAll(s, ops).session, 0, op);
      ApplyAll(s, ops + [op]) == Stepped(last.session, before.events + last.events)
  {
    assert (ops + [op])[..|ops|] == ops;
  }

  lemma {:induction false} ApplyReports(s: Session, events: seq<Event>)
    ensures ApplyAll(s, Reports(events)) == Stepped(s, events)
  {
    if events != [] {
      var n := |events| - 1;
      ApplyReports(s, events[..n]);
      assert Reports(events)[..n] == Reports(events[..n]);
    }
  }

  // ---------------------------------------------------------------- whole runs

  /** Events a notification reports on its own that are not background counts. */
  ghost predicate Plain(events: seq<Event>) {
    forall i :: 0 <= i < |events| ==> events[i].Unrelated? || events[i].TurnError?
  }

  /** Prompt ids are Grok's own and never look like the client's turn ids. */
  ghost predicate LegalSignal(signal: Signal) {
    match signal
    case Notified(QueueChanged(_, running)) => running.Some? ==> AgentTurnId(running.value)
    case Notified(OtherNotice(events)) => Plain(events)
    case Update(_, op, _) => op.Streamed? || op.ToolCalled? || op.ToolPatched? || (op.Reported? && op.event.Unrelated?)
    case _ => true
  }

  ghost predicate AllLegalSignals(signals: seq<Signal>) {
    forall i :: 0 <= i < |signals| ==> LegalSignal(signals[i])
  }

  /** A run: the activity, and every session operation so far. */
  datatype Trace = Trace(activity: Activity, ops: seq<Op>)

  function Advance(t: Trace, signal: Signal): Trace {
    var d := Decide(t.activity, Exec(t.ops).session, signal);
    Trace(d.activity, t.ops + d.ops)
  }

  function RunFrom(t: Trace, signals: seq<Signal>): Trace {
    if signals == [] then t else Advance(RunFrom(t, signals[..|signals| - 1]), signals[|signals| - 1])
  }

  function RunAll(signals: seq<Signal>): Trace {
    RunFrom(Trace(IDLE, []), signals)
  }

  lemma ExecReported(ops: seq<Op>, e: Event)
    ensures Exec(ops + [Reported(e)]).session == Exec(ops).session
  {
    AcpTurns.ExecSnoc(ops, Reported(e));
  }

  /** Every session operation of a Grok run is a legal one, so the turn theorems apply to it. */
  lemma {:induction false} RunsAreLegal(signals: seq<Signal>)
    requires AllLegalSignals(signals)
    ensures AllLegal(RunAll(signals).ops)
  {
    if signals != [] {
      RunsAreLegal(signals[..|signals| - 1]);
      var t := RunAll(signals[..|signals| - 1]);
      DecisionIsLegal(t.activity, Exec(t.ops).session, signals[|signals| - 1]);
    }
  }

  lemma DecisionIsLegal(a: Activity, s: Session, signal: Signal)
    requires LegalSignal(signal)
    ensures AllLegal(Decide(a, s, signal).ops)
  {
  }

  /** In every Grok run completions name the open turn and no parked turn is stranded. */
  lemma GrokTurnsAreSafe(signals: seq<Signal>)
    requires AllLegalSignals(signals)
    ensures var r := Exec(RunAll(signals).ops);
      && AcpTurns.CompletionsAreCurrent(r.log)
      && (r.session.nextTurn.Some? ==> r.session.turn.Some?)
      && forall n: nat :: AcpTurns.Completed(r.log, TurnName(n)) <= 1
  {
    var ops := RunAll(signals).ops;
    RunsAreLegal(signals);
    AcpTurns.EveryCompletionIsCurrent(ops);
    AcpTurns.RunsKeepInv(ops);
    forall n: nat ensures AcpTurns.Completed(Exec(ops).log, TurnName(n)) <= 1 {
      AcpTurns.StartsAreAccountedFor(Exec(ops).log, TurnName(n));
    }
  }

  // ---------------------------------------------------------------- the background count

  /** The background counts published, in order. */
  function Counts(log: seq<Event>): seq<nat> {
    if log == [] then []
    else if log[|log| - 1].BackgroundTasksChanged? then Counts(log[..|log| - 1]) + [log[|log| - 1].count]
    else Counts(log[..|log| - 1])
  }

  /** The count a reader of the log believes in; a session starts with none. */
  function Published(log: seq<Event>): nat {
    LastCount(Counts(log))
  }

  function LastCount(counts: seq<nat>): nat {
    if counts == [] then 0 else counts[|counts| - 1]
  }

  predicate NoCounts(events: seq<Event>) {
    forall i :: 0 <= i < |events| ==> !events[i].BackgroundTasksChanged?
  }

  lemma {:induction false} NoCountsAppend(log: seq<Event>, events: seq<Event>)
    requires NoCounts(events)
    ensures Counts(log + events) == Counts(log)
  {
    if events == [] {
      assert log + [] == log;
    } else {
      NoCountsAppend(log, events[..|events| - 1]);
      var all := log + events;
      assert all[..|all| - 1] == log + events[..|events| - 1];
    }
  }

  lemma NoCountsInClose(s: Session, turn: string, end: TurnEnd)
    ensures NoCounts(Flushed(s).events) && NoCounts(Closed(s, turn, end).events)
  {
  }

  lemma CountsStep(r: Run, op: Op)
    ensures Counts(Step(r, op).log)
         == if op.Reported? && op.event.BackgroundTasksChanged? then Counts(r.log) + [op.event.count] else Counts(r.log)
  {
    var s, events := r.session, Apply(r.session, r.sent, op).events;
    if op.Reported? {
      assert (r.log + [op.event])[..|r.log|] == r.log;
    } else {
      match op {
        case PromptResult(n, end) => NoCountsInClose(s, TurnName(n), end);
        case AgentEnded(turn, end) => NoCountsInClose(if s.nextTurn == Some(turn) then s.(nextTurn := None) else s, turn, end);
        case _ => NoCountsInClose(s, "", TurnEnd(TurnDone, None, None));
      }
      NoCountsAppend(r.log, events);
    }
  }

  predicate NoCountOps(ops: seq<Op>) {
    forall i :: 0 <= i < |ops| && ops[i].Reported? ==> !ops[i].event.BackgroundTasksChanged?
  }

  lemma CountsOfOp(ops: seq<Op>, op: Op)
    ensures Counts(Exec(ops + [op]).log)
         == if op.Reported? && op.event.BackgroundTasksChanged? then Counts(Exec(ops).log) + [op.event.count]
            else Counts(Exec(ops).log)
  {
    AcpTurns.ExecSnoc(ops, op);
    CountsStep(Exec(ops), op);
  }

  /** What no single operation of a batch changes, the batch does not change. */
  lemma {:induction false} BatchKeeps(read: seq<Op> -> seq<nat>, ops: seq<Op>, more: seq<Op>)
    requires forall before: seq<Op>, op: Op :: op in more ==> read(before + [op]) == read(before)
    ensures read(ops + more) == read(ops)
  {
    if more == [] {
      assert ops + [] == ops;
    } else {
      var n := |more| - 1;
      BatchKeeps(read, ops, more[..n]);
      assert ops + more == (ops + more[..n]) + [more[n]];
    }
  }

  lemma NoCountOpsAppend(ops: seq<Op>, more: seq<Op>)
    requires NoCountOps(more)
    ensures Counts(Exec(ops + more).log) == Counts(Exec(ops).log)
  {
    var read := (ops: seq<Op>) => Counts(Exec(ops).log);
    forall before: seq<Op>, op: Op | op in more ensures read(before + [op]) == read(before) {
      CountsOfOp(before, op);
    }
    BatchKeeps(read, ops, more);
  }

  lemma CounterUnused(s: Session, m: nat, n: nat, op: Op)
    requires !op.Sent?
    ensures Apply(s, m, op) == Apply(s, n, op)
  {
  }

  /** Outside `Sent`, the session after a run of operations does not depend on the send counter. */
  lemma {:induction false} ApplyAllIsExec(ops: seq<Op>, more: seq<Op>)
    requires forall i :: 0 <= i < |more| ==> !more[i].Sent?
    ensures ApplyAll(Exec(ops).session, more).session == Exec(ops + more).session
  {
    if more == [] {
      assert ops + [] == ops;
    } else {
      var init, last := more[..|more| - 1], more[|more| - 1];
      ApplyAllIsExec(ops, init);
      assert more == init + [last] && ops + more == (ops + init) + [last];
      ApplySnoc(Exec(ops).session, init, last);
      AcpTurns.ExecSnoc(ops + init, last);
      CounterUnused(Exec(ops + init).session, 0, Exec(ops + init).sent, last);
    }
  }

  /** What a run leaves published agrees with what it tracks, except for a withheld zero. */
  ghost predicate CountInv(t: Trace) {
    Agrees(t.activity, Published(Exec(t.ops).log))
  }

  predicate Agrees(a: Activity, published: nat) {
    if a.drained then a.tasks == 0 && published > 0 else published == a.tasks
  }

  /** The operations a notice itself comes down to, before any withheld zero is released. */
  lemma NoticeOps(a: Activity, s: Session, notice: Notice)
    requires LegalSignal(Notified(notice))
    ensures var d := NoticeDecision(a, s, notice);
      && (forall i :: 0 <= i < |d.ops| ==> !d.ops[i].Sent?)
      && (!notice.BackgroundTasks? ==> NoCountOps(d.ops) && d.activity.tasks == a.tasks && d.activity.drained == a.drained)
  {
  }

  /** A notification in two parts: what the notice does, then the release of a withheld zero. */
  function Noted(t: Trace, notice: Notice): Trace {
    var d := NoticeDecision(t.activity, Exec(t.ops).session, notice);
    Trace(d.activity, t.ops + d.ops)
  }

  predicate Releases(t: Trace) {
    t.activity.drained && !SentTurnOpen(t.activity, Exec(t.ops).session)
  }

  function Release(t: Trace): Trace {
    if Releases(t) then Trace(t.activity.(drained := false), t.ops + [Reported(BackgroundTasksChanged(0))]) else t
  }

  lemma TwoParts(t: Trace, notice: Notice)
    requires LegalSignal(Notified(notice))
    ensures Advance(t, Notified(notice)) == Release(Noted(t, notice))
  {
    var d := NoticeDecision(t.activity, Exec(t.ops).session, notice);
    NoticeOps(t.activity, Exec(t.ops).session, notice);
    ApplyAllIsExec(t.ops, d.ops);
    assert t.ops + (d.ops + [Reported(BackgroundTasksChanged(0))]) == (t.ops + d.ops) + [Reported(BackgroundTasksChanged(0))];
  }

  lemma ReleaseCounts(t: Trace)
    ensures Counts(Exec(Release(t).ops).log) == Counts(Exec(t.ops).log) + (if Releases(t) then [0] else [])
    ensures Exec(Release(t).ops).session == Exec(t.ops).session
  {
    CountsOfOp(t.ops, Reported(BackgroundTasksChanged(0)));
    ExecReported(t.ops, BackgroundTasksChanged(0));
  }

  lemma NotedCounts(t: Trace, notice: Notice)
    requires LegalSignal(Notified(notice)) && !notice.BackgroundTasks?
    ensures var t' := Noted(t, notice);
      && Counts(Exec(t'.ops).log) == Counts(Exec(t.ops).log)
      && t'.activity.tasks == t.activity.tasks && t'.activity.drained == t.activity.drained
  {
    var d := NoticeDecision(t.activity, Exec(t.ops).session, notice);
    NoticeOps(t.activity, Exec(t.ops).session, notice);
    NoCountOpsAppend(t.ops, d.ops);
  }

  /** Whether a signal, taken in this state, releases the withheld zero. */
  predicate ReleasesBy(t: Trace, signal: Signal) {
    && signal.Notified? && t.activity.drained
    && !SentTurnOpen(Advance(t, signal).activity, Exec(Advance(t, signal).ops).session)
  }

  lemma AdvanceCounts(t: Trace, signal: Signal)
    requires LegalSignal(signal)
    requires !(signal.Notified? && signal.notice.BackgroundTasks?)
    ensures var t' := Advance(t, signal);
      && Counts(Exec(t'.ops).log) == Counts(Exec(t.ops).log) + (if ReleasesBy(t, signal) then [0] else [])
      && t'.activity.drained == (t.activity.drained && !ReleasesBy(t, signal))
      && t'.activity.tasks == t.activity.tasks
  {
    if signal.Notified? {
      TwoParts(t, signal.notice);
      NotedCounts(t, signal.notice);
      ReleaseCounts(Noted(t, signal.notice));
    } else {
      NoCountOpsAppend(t.ops, Decide(t.activity, Exec(t.ops).session, signal).ops);
    }
  }

  /** A report publishes its count at once, unless it is the drop to zero under an open sent turn. */
  lemma ReportCounts(t: Trace, running: nat)
    ensures var t' := Advance(t, Notified(BackgroundTasks(running)));
      var withheld := running == 0 && t.activity.tasks > 0 && SentTurnOpen(t.activity, Exec(t.ops).session);
      && Counts(Exec(t'.ops).log) == Counts(Exec(t.ops).log) + (if withheld then [] else [running])
      && t'.activity.drained == withheld && t'.activity.tasks == running
      && (SentTurnOpen(t'.activity, Exec(t'.ops).session) <==> SentTurnOpen(t.activity, Exec(t.ops).session))
  {
    TwoParts(t, BackgroundTasks(running));
    ReportNoted(t, running);
  }

  lemma ReportNoted(t: Trace, running: nat)
    ensures var t' := Noted(t, BackgroundTasks(running));
      var withheld := running == 0 && t.activity.tasks > 0 && SentTurnOpen(t.activity, Exec(t.ops).session);
      && Counts(Exec(t'.ops).log) == Counts(Exec(t.ops).log) + (if withheld then [] else [running])
      && t'.activity == t.activity.(tasks := running, drained := withheld)
      && Exec(t'.ops).session == Exec(t.ops).session
  {
    ExecReported(t.ops, BackgroundTasksChanged(running));
    CountsOfOp(t.ops, Reported(BackgroundTasksChanged(running)));
    assert t.ops + [] == t.ops;
  }

  /**
   * In every reachable state the published count is the tracked one, or nothing is tracked any
   * more and the published count is still positive.
   */
  lemma {:induction false} PublishedCountIsTracked(signals: seq<Signal>)
    requires AllLegalSignals(signals)
    ensures CountInv(RunAll(signals))
  {
    if signals != [] {
      var init, signal := signals[..|signals| - 1], signals[|signals| - 1];
      PublishedCountIsTracked(init);
      CountInvStep(RunAll(init), signal);
      assert RunAll(signals) == Advance(RunAll(init), signal);
    }
  }

  lemma CountInvStep(t: Trace, signal: Signal)
    requires CountInv(t) && LegalSignal(signal)
    ensures CountInv(Advance(t, signal))
  {
    if signal.Notified? && signal.notice.BackgroundTasks? {
      ReportCounts(t, signal.notice.live);
      var withheld := Advance(t, signal).activity.drained;
      CountInvGrows(t.activity, Advance(t, signal).activity, Counts(Exec(t.ops).log),
                    if withheld then [] else [signal.notice.live]);
    } else {
      AdvanceCounts(t, signal);
      CountInvGrows(t.activity, Advance(t, signal).activity, Counts(Exec(t.ops).log),
                    if ReleasesBy(t, signal) then [0] else []);
    }
  }

  /** What was published last, after `more`. */
  lemma CountInvGrows(a: Activity, a': Activity, counts: seq<nat>, more: seq<nat>)
    requires Agrees(a, LastCount(counts)) && |more| <= 1
    requires if more == [] then
        (a'.drained == a.drained && a'.tasks == a.tasks) || (a'.drained && a'.tasks == 0 && (a.drained || a.tasks > 0))
      else !a'.drained && a'.tasks == more[0]
    ensures Agrees(a', LastCount(counts + more))
  {
    assert more == [] ==> counts + more == counts;
  }

  /** Some notification of the run left no sent turn open. */
  predicate Released(t: Trace, signals: seq<Signal>) {
    signals != [] &&
    (Released(t, signals[..|signals| - 1])
     || (signals[|signals| - 1].Notified?
         && !SentTurnOpen(RunFrom(t, signals).activity, Exec(RunFrom(t, signals).ops).session)))
  }

  /**
   * A withheld zero is published exactly once and by the first notification that leaves no sent
   * turn open, as long as no further report arrives; until then no count is published.
   */
  lemma {:induction false} WithheldZeroIsReleased(t: Trace, signals: seq<Signal>)
    requires t.activity.drained && AllLegalSignals(signals)
    requires forall i :: 0 <= i < |signals| && signals[i].Notified? ==> !signals[i].notice.BackgroundTasks?
    ensures var t' := RunFrom(t, signals);
      && Counts(Exec(t'.ops).log) == Counts(Exec(t.ops).log) + (if Released(t, signals) then [0] else [])
      && t'.activity.drained == !Released(t, signals)
  {
    if signals == [] {
      assert Counts(Exec(t.ops).log) + [] == Counts(Exec(t.ops).log);
    } else {
      var n := |signals| - 1;
      WithheldZeroIsReleased(t, signals[..n]);
      AdvanceCounts(RunFrom(t, signals[..n]), signals[n]);
    }
  }

  /**
   * Where the withholding gives way: a report of no running tasks publishes its zero under an
   * open sent turn exactly when nothing was tracked before it.
   */
  lemma ZeroUnderSentTurn(t: Trace)
    requires SentTurnOpen(t.activity, Exec(t.ops).session)
    ensures var t' := Advance(t, Notified(BackgroundTasks(0)));
      && SentTurnOpen(t'.activity, Exec(t'.ops).session)
      && (Counts(Exec(t'.ops).log) == Counts(Exec(t.ops).log) + [0] <==> t.activity.tasks == 0)
  {
    ReportCounts(t, 0);
  }

  /** A second report of no running tasks publishes the zero the first one withheld. */
  lemma RepeatedReportIsEarly(t: Trace)
    requires SentTurnOpen(t.activity, Exec(t.ops).session) && t.activity.tasks > 0
    ensures var once := Advance(t, Notified(BackgroundTasks(0)));
      var twice := Advance(once, Notified(BackgroundTasks(0)));
      && Counts(Exec(once.ops).log) == Counts(Exec(t.ops).log)
      && SentTurnOpen(twice.activity, Exec(twice.ops).session)
      && Published(Exec(twice.ops).log) == 0
  {
    ReportCounts(t, 0);
    var once := Advance(t, Notified(BackgroundTasks(0)));
    ReportCounts(once, 0);
  }

  lemma AfterSend(t: Trace)
    ensures SentTurnOpen(Advance(t, Send).activity, Exec(Advance(t, Send).ops).session)
       <==> t.activity.agent != Some(TurnName(Exec(t.ops).sent + 1))
  {
    AcpTurns.ExecSnoc(t.ops, Sent);
  }

  /** Such a state is two signals away from the start: a sent turn, then one running task. */
  lemma SentTurnWithTask()
    ensures var t := Advance(Advance(Trace(IDLE, []), Send), Notified(BackgroundTasks(1)));
      SentTurnOpen(t.activity, Exec(t.ops).session) && t.activity.tasks == 1
  {
    AfterSend(Trace(IDLE, []));
    ReportCounts(Advance(Trace(IDLE, []), Send), 1);
  }

  // ---------------------------------------------------------------- when the test for a sent turn is exact

  /** The test for an open sent turn says what it is meant to say. */
  ghost predicate TestIsExact(t: Trace) {
    var s := Exec(t.ops).session;
    SentTurnOpen(t.activity, s) <==> s.turn.Some? && !AgentTurnId(s.turn.value)
  }

  /** The signal starts no prompt of Grok's own while the turn of an earlier one is the open turn. */
  predicate Spares(t: Trace, signal: Signal) {
    match signal
    case Notified(QueueChanged(entries, running)) =>
      || QueueDecision(t.activity, entries, running).ops == []
      || t.activity.agent.None? || Exec(t.ops).session.turn != t.activity.agent
    case _ => true
  }

  predicate AllSpare(signals: seq<Signal>) {
    signals == [] || (AllSpare(signals[..|signals| - 1]) && Spares(RunAll(signals[..|signals| - 1]), signals[|signals| - 1]))
  }

  ghost predicate AgentInv(a: Activity, s: Session) {
    && (s.turn.Some? && AgentTurnId(s.turn.value) ==> a.agent == s.turn)
    && (s.nextTurn.Some? ==> a.agent == s.nextTurn && s.turn.Some? && AgentTurnId(s.nextTurn.value))
    && (a.agent.Some? ==> AgentTurnId(a.agent.value))
  }

  lemma OpKeepsTurns(s: Session, sent: nat, op: Op)
    requires op.Streamed? || op.ToolCalled? || op.ToolPatched? || op.PermissionAsked? || op.Reported?
    ensures var s' := Apply(s, sent, op).session; s'.turn == s.turn && s'.nextTurn == s.nextTurn
  {
  }

  lemma {:induction false} ReportsKeepTurns(ops: seq<Op>, events: seq<Event>)
    ensures var s, s' := Exec(ops).session, Exec(ops + Reports(events)).session;
      s'.turn == s.turn && s'.nextTurn == s.nextTurn
  {
    if events == [] {
      assert ops + Reports([]) == ops;
    } else {
      var n := |events| - 1;
      ReportsKeepTurns(ops, events[..n]);
      assert Reports(events) == Reports(events[..n]) + [Reported(events[n])];
      assert ops + Reports(events) == (ops + Reports(events[..n])) + [Reported(events[n])];
      ExecReported(ops + Reports(events[..n]), events[n]);
    }
  }

  lemma SentNamesAreNotAgents(n: nat)
    ensures !AgentTurnId(TurnName(n))
  {
  }

  lemma ClosedTurns(s: Session, turn: string, end: TurnEnd)
    ensures var s' := Closed(s, turn, end).session; s'.turn == s.nextTurn && s'.nextTurn == None
  {
  }

  lemma QueueKeepsAgentInv(t: Trace, entries: seq<string>, running: Option<string>)
    requires AgentInv(t.activity, Exec(t.ops).session)
    requires running.Some? ==> AgentTurnId(running.value)
    requires Spares(t, Notified(QueueChanged(entries, running)))
    ensures var d := QueueDecision(t.activity, entries, running);
      AgentInv(d.activity, Exec(t.ops + d.ops).session)
  {
    var d := QueueDecision(t.activity, entries, running);
    if d.ops == [] {
      assert t.ops + [] == t.ops;
    } else {
      AcpTurns.ExecSnoc(t.ops, d.ops[0]);
      assert t.ops + d.ops == t.ops + [d.ops[0]];
    }
  }

  lemma EndKeepsAgentInv(t: Trace, prompt: Option<string>, end: TurnEnd)
    requires AgentInv(t.activity, Exec(t.ops).session)
    ensures var d := EndDecision(t.activity, Exec(t.ops).session, prompt, end);
      AgentInv(d.activity, Exec(t.ops + d.ops).session)
  {
    var s := Exec(t.ops).session;
    var d := EndDecision(t.activity, s, prompt, end);
    if d.ops == [] {
      assert t.ops + [] == t.ops;
    } else {
      var turn := d.ops[0].turn;
      AcpTurns.ExecSnoc(t.ops, d.ops[0]);
      assert d.ops == [AgentEnded(turn, end)];
      EndedTurns(s, turn, end);
    }
  }

  /** What ending a turn by its name leaves open and parked. */
  lemma EndedTurns(s: Session, turn: string, end: TurnEnd)
    ensures var s' := Ended(s, turn, end).session;
      var parked := if s.nextTurn == Some(turn) then None else s.nextTurn;
      if s.turn == Some(turn) then s'.turn == parked && s'.nextTurn == None else s'.turn == s.turn && s'.nextTurn == parked
  {
    ClosedTurns(s, turn, end);
    ClosedTurns(s.(nextTurn := None), turn, end);
  }

  lemma NotedKeepsAgentInv(t: Trace, notice: Notice)
    requires AgentInv(t.activity, Exec(t.ops).session) && LegalSignal(Notified(notice))
    requires Spares(t, Notified(notice))
    ensures AgentInv(Noted(t, notice).activity, Exec(Noted(t, notice).ops).session)
  {
    match notice {
      case QueueChanged(entries, running) => QueueKeepsAgentInv(t, entries, running);
      case PromptEnded(prompt, end) => EndKeepsAgentInv(t, prompt, end);
      case OtherNotice(events) => ReportsKeepTurns(t.ops, events);
      case BackgroundTasks(live) =>
        ExecReported(t.ops, BackgroundTasksChanged(live));
        assert t.ops + [] == t.ops;
      case TaskBackgrounded(_) => assert t.ops + [] == t.ops;
    }
  }

  lemma SentKeepsAgentInv(t: Trace)
    requires AgentInv(t.activity, Exec(t.ops).session)
    ensures AgentInv(t.activity, Exec(t.ops + [Sent]).session)
  {
    AcpTurns.ExecSnoc(t.ops, Sent);
    SentNamesAreNotAgents(Exec(t.ops).sent + 1);
  }

  lemma ResultKeepsAgentInv(t: Trace, n: nat, end: TurnEnd)
    requires AgentInv(t.activity, Exec(t.ops).session)
    ensures AgentInv(t.activity, Exec(t.ops + [PromptResult(n, end)]).session)
  {
    AcpTurns.ExecSnoc(t.ops, PromptResult(n, end));
    SentNamesAreNotAgents(n);
    ClosedTurns(Exec(t.ops).session, TurnName(n), end);
  }

  lemma QuietKeepsAgentInv(t: Trace, op: Op)
    requires AgentInv(t.activity, Exec(t.ops).session)
    requires op.Streamed? || op.ToolCalled? || op.ToolPatched? || op.PermissionAsked? || op.Reported?
    ensures AgentInv(t.activity, Exec(t.ops + [op]).session)
  {
    AcpTurns.ExecSnoc(t.ops, op);
    OpKeepsTurns(Exec(t.ops).session, Exec(t.ops).sent, op);
  }

  lemma AdvanceKeepsAgentInv(t: Trace, signal: Signal)
    requires AgentInv(t.activity, Exec(t.ops).session) && LegalSignal(signal)
    requires Spares(t, signal)
    ensures AgentInv(Advance(t, signal).activity, Exec(Advance(t, signal).ops).session)
  {
    match signal {
      case Notified(notice) =>
        TwoParts(t, notice);
        NotedKeepsAgentInv(t, notice);
        ReleaseCounts(Noted(t, notice));
      case Send => SentKeepsAgentInv(t);
      case Result(n, end) => ResultKeepsAgentInv(t, n, end);
      case Update(replayed, op, bash) =>
        assert t.ops + [] == t.ops;
        QuietKeepsAgentInv(t, Prepared(t.activity, op, bash));
      case PermissionRequest(id, title, kind, rawInput) =>
        QuietKeepsAgentInv(t, PermissionAsked(id, title, kind, rawInput));
    }
  }

  lemma ExactByInv(t: Trace)
    requires AgentInv(t.activity, Exec(t.ops).session)
    ensures TestIsExact(t)
  {
  }

  /**
   * As long as Grok starts no prompt of its own while another one's turn is open, the test for an
   * open sent turn is exact: it holds when and only when the open turn is one the client sent.
   */
  lemma {:induction false} SentTurnTestIsExact(signals: seq<Signal>)
    requires AllLegalSignals(signals) && AllSpare(signals)
    ensures AgentInv(RunAll(signals).activity, Exec(RunAll(signals).ops).session)
    ensures TestIsExact(RunAll(signals))
  {
    if signals != [] {
      SentTurnTestIsExact(signals[..|signals| - 1]);
      AdvanceKeepsAgentInv(RunAll(signals[..|signals| - 1]), signals[|signals| - 1]);
    }
    ExactByInv(RunAll(signals));
  }

  /** A prompt over an open agent turn: its turn stays open, parked behind it the new one. */
  lemma OverlapFoolsTheTest(t: Trace, entries: seq<string>, running: Option<string>)
    requires AgentInv(t.activity, Exec(t.ops).session)
    requires !Spares(t, Notified(QueueChanged(entries, running)))
    ensures !TestIsExact(Noted(t, QueueChanged(entries, running)))
  {
    AcpTurns.ExecSnoc(t.ops, AgentBegan(running.value));
  }

  lemma ReleaseKeepsTest(t: Trace)
    ensures TestIsExact(Release(t)) <==> TestIsExact(t)
  {
    ReleaseCounts(t);
  }

  /**
   * The condition is exact: the first signal of a run that makes the test wrong is the first one
   * that starts a prompt of Grok's own while another one's turn is open.
   */
  lemma TestLostIffOverlap(signals: seq<Signal>, signal: Signal)
    requires AllLegalSignals(signals + [signal]) && AllSpare(signals)
    ensures TestIsExact(RunAll(signals + [signal])) <==> Spares(RunAll(signals), signal)
  {
    var all, t := signals + [signal], RunAll(signals);
    assert all[..|signals|] == signals && all[|signals|] == signal;
    assert forall i :: 0 <= i < |signals| ==> signals[i] == all[i];
    SentTurnTestIsExact(signals);
    if Spares(t, signal) {
      SentTurnTestIsExact(all);
    } else {
      OverlapFoolsTheTest(t, signal.notice.entries, signal.notice.running);
      TwoParts(t, signal.notice);
      ReleaseKeepsTest(Noted(t, signal.notice));
    }
  }

  /** Two prompts of Grok's own, one over the other, are enough. */
  lemma TwoPromptsOverlap(first: string, second: string)
    requires AgentTurnId(first) && AgentTurnId(second) && first != second
    ensures var signals := [Notified(QueueChanged([], Some(first)))];
      && AllLegalSignals(signals) && AllSpare(signals)
      && !TestIsExact(RunAll(signals + [Notified(QueueChanged([], Some(second)))]))
  {
    var one, two := Notified(QueueChanged([], Some(first))), Notified(QueueChanged([], Some(second)));
    OnePrompt(first);
    assert ([one] + [two])[0] == one && ([one] + [two])[1] == two;
    TestLostIffOverlap([one], two);
  }

  lemma OnePrompt(first: string)
    requires AgentTurnId(first)
    ensures var one := Notified(QueueChanged([], Some(first)));
      && AllSpare([one])
      && RunAll([one]) == Trace(IDLE.(agent := Some(first)), [AgentBegan(first)])
      && Exec([AgentBegan(first)]).session.turn == Some(first)
  {
    var one := Notified(QueueChanged([], Some(first)));
    AcpTurns.ExecSnoc([], AgentBegan(first));
    assert [] + [AgentBegan(first)] == [AgentBegan(first)];
    TwoParts(Trace(IDLE, []), QueueChanged([], Some(first)));
    RunSnoc([], one);
    assert [] + [one] == [one] && [one][..0] == [];
    assert RunAll([]) == Trace(IDLE, []) && Spares(RunAll([]), one) && AllSpare([]);
  }

  // ---------------------------------------------------------------- whose turn the end of a prompt ends

  /** The signal that a prompt the client sent has ended. */
  predicate EndsClientPrompt(t: Trace, prompt: string) {
    t.activity.client == Some(prompt) && t.activity.agent != Some(prompt)
  }

  lemma ClientEndOps(t: Trace, prompt: string, end: TurnEnd)
    requires EndsClientPrompt(t, prompt)
    ensures var s := Exec(t.ops).session;
      Noted(t, PromptEnded(Some(prompt), end)).ops
      == if SentTurnOpen(t.activity, s) then t.ops + [AgentEnded(s.turn.value, end)] else t.ops
  {
    assert t.ops + [] == t.ops;
  }

  lemma ReleaseCompletesNone(t: Trace, turn: string)
    ensures AcpTurns.Completed(Exec(Release(t).ops).log, turn) == AcpTurns.Completed(Exec(t.ops).log, turn)
  {
    AcpTurns.ExecSnoc(t.ops, Reported(BackgroundTasksChanged(0)));
    AcpTurns.CountsSnoc(Exec(t.ops).log, BackgroundTasksChanged(0), turn);
  }

  /** Ending a turn by its name completes, of the sent turns, that one if it is open and no other. */
  lemma EndCompletes(ops: seq<Op>, turn: string, end: TurnEnd, n: nat)
    requires AllLegal(ops) && 1 <= n <= Exec(ops).sent && Exec(ops).session.turn == Some(turn)
    ensures var log, log' := Exec(ops).log, Exec(ops + [AgentEnded(turn, end)]).log;
      AcpTurns.Completed(log', TurnName(n)) == AcpTurns.Completed(log, TurnName(n)) + if turn == TurnName(n) then 1 else 0
  {
    var op, r := AgentEnded(turn, end), Exec(ops);
    AcpTurns.ExecSnoc(ops, op);
    AcpTurns.RunsKeepInv(ops);
    AcpTurns.SentTurnHasOneFate(ops, n);
    AcpTurns.SentTurnHasOneFate(ops + [op], n);
    AcpTurns.RunsKeepInv(ops + [op]);
    SentNamesAreNotAgents(n);
    var events := Apply(r.session, r.sent, op).events;
    AcpTurns.CompletedGrows(r.log, events, TurnName(n), 0);
    AcpTurns.ReplacedGrows(r.log, events, TurnName(n));
    if turn == TurnName(n) {
      AcpTurns.AfterCompletion(r, n, end);
    }
  }

  /**
   * The end of a client's prompt completes the sent turn n it belongs to if and only if no turn
   * was sent after n and n has not completed before; and no other sent turn but the latest.
   */
  lemma ClientEndCompletesOwnTurn(signals: seq<Signal>, prompt: string, end: TurnEnd, n: nat)
    requires AllLegalSignals(signals) && EndsClientPrompt(RunAll(signals), prompt)
    requires 1 <= n <= Exec(RunAll(signals).ops).sent
    ensures var before, after := Exec(RunAll(signals).ops), Exec(Advance(RunAll(signals), Notified(PromptEnded(Some(prompt), end))).ops);
      AcpTurns.Completed(after.log, TurnName(n)) == AcpTurns.Completed(before.log, TurnName(n))
        + if n == before.sent && AcpTurns.Completed(before.log, TurnName(n)) == 0 then 1 else 0
  {
    var t := RunAll(signals);
    var s := Exec(t.ops).session;
    RunsAreLegal(signals);
    TwoParts(t, PromptEnded(Some(prompt), end));
    ReleaseCompletesNone(Noted(t, PromptEnded(Some(prompt), end)), TurnName(n));
    ClientEndOps(t, prompt, end);
    AgentIsNoSentTurn(signals, n);
    AcpTurns.OpenIffLatestUncompleted(t.ops, n);
    if SentTurnOpen(t.activity, s) {
      EndCompletes(t.ops, s.turn.value, end, n);
    }
  }

  lemma AgentStep(a: Activity, s: Session, signal: Signal)
    requires LegalSignal(signal)
    ensures var agent := Decide(a, s, signal).activity.agent;
      agent == a.agent || agent.None? || AgentTurnId(agent.value)
  {
  }

  lemma {:induction false} AgentIsNoSentTurn(signals: seq<Signal>, n: nat)
    requires AllLegalSignals(signals)
    ensures RunAll(signals).activity.agent != Some(TurnName(n))
  {
    SentNamesAreNotAgents(n);
    if signals != [] {
      var init, last := signals[..|signals| - 1], signals[|signals| - 1];
      AgentIsNoSentTurn(init, n);
      AgentStep(RunAll(init).activity, Exec(RunAll(init).ops).session, last);
      assert RunAll(signals) == Advance(RunAll(init), last);
    }
  }

  /** A turn sent while the client's first prompt runs is the one that this prompt's end completes. */
  lemma SecondSendIsCompleted(prompt: string, end: TurnEnd)
    requires AgentTurnId(prompt)
    ensures var signals := [Send] + [Notified(QueueChanged([prompt], Some(prompt)))] + [Send];
      var after := Exec(Advance(RunAll(signals), Notified(PromptEnded(Some(prompt), end))).ops);
      && EndsClientPrompt(RunAll(signals), prompt)
      && AcpTurns.Completed(after.log, TurnName(1)) == 0 && AcpTurns.Completed(after.log, TurnName(2)) == 1
  {
    var signals := [Send] + [Notified(QueueChanged([prompt], Some(prompt)))] + [Send];
    TwoSendsAndAPrompt(prompt);
    TwoSends();
    assert forall i :: 0 <= i < |signals| ==> LegalSignal(signals[i]);
    ClientEndCompletesOwnTurn(signals, prompt, end, 1);
    ClientEndCompletesOwnTurn(signals, prompt, end, 2);
  }

  lemma TwoSendsAndAPrompt(prompt: string)
    requires AgentTurnId(prompt)
    ensures RunAll([Send] + [Notified(QueueChanged([prompt], Some(prompt)))] + [Send])
         == Trace(IDLE.(client := Some(prompt)), [Sent] + [Sent])
  {
    var first := [Send];
    var second := first + [Notified(QueueChanged([prompt], Some(prompt)))];
    RunSnoc([], Send);
    assert [] + [Send] == first;
    RunSnoc(first, second[1]);
    RunSnoc(second, Send);
    TwoParts(RunAll(first), QueueChanged([prompt], Some(prompt)));
    assert [] + [Sent] == [Sent] && RunAll([]) == Trace(IDLE, []);
    assert RunAll(first) == Trace(IDLE, [Sent]);
    assert RunAll(second) == Trace(IDLE.(client := Some(prompt)), [Sent]);
  }

  lemma RunSnoc(signals: seq<Signal>, signal: Signal)
    ensures RunAll(signals + [signal]) == Advance(RunAll(signals), signal)
  {
    assert (signals + [signal])[..|signals|] == signals;
  }

  lemma TwoSends()
    ensures var r := Exec([Sent] + [Sent]);
      r.sent == 2 && forall turn :: AcpTurns.Completed(r.log, turn) == 0
  {
    AcpTurns.ExecSnoc([], Sent);
    assert [] + [Sent] == [Sent];
    AcpTurns.ExecSnoc([Sent], Sent);
    var first, second := TurnStarted(TurnName(1)), TurnStarted(TurnName(2));
    assert Exec([Sent] + [Sent]).log == [] + [first] + [second];
    forall turn ensures AcpTurns.Completed([] + [first] + [second], turn) == 0 {
      AcpTurns.CountsSnoc([], first, turn);
      AcpTurns.CountsSnoc([] + [first], second, turn);
    }
  }

  // ---------------------------------------------------------------- whose prompt runs

  /** The prompt was listed in the queue, and has not run since. */
  predicate Waiting(signals: seq<Signal>, prompt: string) {
    signals != [] &&
    (var before := Waiting(signals[..|signals| - 1], prompt);
     match signals[|signals| - 1]
     case Notified(QueueChanged(entries, running)) => running != Some(prompt) && (prompt in entries || before)
     case _ => before)
  }

  /** The prompt was never listed in the queue. */
  predicate NeverListed(signals: seq<Signal>, prompt: string) {
    forall i :: 0 <= i < |signals| && signals[i].Notified? && signals[i].notice.QueueChanged? ==>
      prompt !in signals[i].notice.entries
  }

  lemma QueuedStep(a: Activity, s: Session, signal: Signal, prompt: string)
    ensures var queued := Decide(a, s, signal).activity.queued;
      if signal.Notified? && signal.notice.QueueChanged? then
        && (prompt in queued ==> prompt in a.queued || prompt in signal.notice.entries)
        && ((prompt in a.queued || prompt in signal.notice.entries) && signal.notice.running != Some(prompt) ==> prompt in queued)
      else queued == a.queued
  {
  }

  lemma {:induction false} QueuedIsListed(signals: seq<Signal>, prompt: string)
    ensures Waiting(signals, prompt) ==> prompt in RunAll(signals).activity.queued
    ensures NeverListed(signals, prompt) ==> prompt !in RunAll(signals).activity.queued
  {
    if signals != [] {
      var init, last := signals[..|signals| - 1], signals[|signals| - 1];
      QueuedIsListed(init, prompt);
      QueuedStep(RunAll(init).activity, Exec(RunAll(init).ops).session, last, prompt);
      assert RunAll(signals) == Advance(RunAll(init), last);
      assert NeverListed(signals, prompt) ==> NeverListed(init, prompt);
    }
  }

  /** A prompt that waited in the queue, however long, is the client's when it runs, and opens no turn. */
  lemma WaitingPromptIsClients(signals: seq<Signal>, entries: seq<string>, prompt: string)
    requires var a := RunAll(signals).activity; a.client != Some(prompt) && a.agent != Some(prompt)
    requires Waiting(signals, prompt) || prompt in entries
    ensures var t, t' := RunAll(signals), Noted(RunAll(signals), QueueChanged(entries, Some(prompt)));
      t'.ops == t.ops && t'.activity.client == Some(prompt) && t'.activity.agent == t.activity.agent
  {
    QueuedIsListed(signals, prompt);
    assert RunAll(signals).ops + [] == RunAll(signals).ops;
  }

  /** A prompt that no notification ever listed is Grok's own, and begins a turn of its own id. */
  lemma UnlistedPromptIsOwn(signals: seq<Signal>, entries: seq<string>, prompt: string)
    requires var a := RunAll(signals).activity; a.client != Some(prompt) && a.agent != Some(prompt)
    requires NeverListed(signals, prompt) && prompt !in entries
    ensures var t, t' := RunAll(signals), Noted(RunAll(signals), QueueChanged(entries, Some(prompt)));
      t'.ops == t.ops + [AgentBegan(prompt)] && t'.activity.agent == Some(prompt) && t'.activity.client == t.activity.client
  {
    QueuedIsListed(signals, prompt);
  }

  /** The end of a prompt of Grok's own ends the turn of that id, if it is the open one. */
  lemma OwnEndCompletesItsTurn(t: Trace, prompt: string, end: TurnEnd)
    requires t.activity.agent == Some(prompt)
    ensures var t' := Noted(t, PromptEnded(Some(prompt), end));
      && t'.ops == t.ops + [AgentEnded(prompt, end)]
      && t'.activity == t.activity.(agent := None)
  {
  }

  /** A prompt that has ended is neither the client's nor Grok's running one any more. */
  lemma EndedIsForgotten(t: Trace, prompt: string, end: TurnEnd)
    ensures var a, a' := t.activity, Noted(t, PromptEnded(Some(prompt), end)).activity;
      && a'.agent == (if a.agent == Some(prompt) then None else a.agent)
      && a'.client == (if a.agent != Some(prompt) && a.client == Some(prompt) then None else a.client)
      && a'.queued == a.queued
  {
  }

  /** The result of a sent turn settles it in a Grok session as in any other. */
  lemma GrokResultSettles(signals: seq<Signal>, n: nat, end: TurnEnd)
    requires AllLegalSignals(signals) && 1 <= n <= Exec(RunAll(signals).ops).sent
    ensures var log := Exec(Advance(RunAll(signals), Result(n, end)).ops).log;
      AcpTurns.Completed(log, TurnName(n)) + AcpTurns.Replaced(log, TurnName(n)) == 1
  {
    RunsAreLegal(signals);
    AcpTurns.ResultSettlesTurn(RunAll(signals).ops, n, end);
  }

  // ---------------------------------------------------------------- updates

  /** What a resumed session replays is not shown again. */
  lemma ReplayedIsSilent(t: Trace, op: Op, bash: bool)
    ensures Advance(t, Update(true, op, bash)) == t
  {
    assert t.ops + [] == t.ops;
  }

  /** Any update not replayed, of a call that did not go on in the background, is taken as it is. */
  lemma UpdateIsTaken(t: Trace, op: Op, bash: bool)
    requires !(op.ToolPatched? && bash && op.id in t.activity.backgrounded)
    ensures Advance(t, Update(false, op, bash)) == t.(ops := t.ops + [op])
  {
  }

  /**
   * The later output of a command that went on in the background leaves its card's status as it
   * was, and changes everything else as it says.
   */
  lemma BackgroundedKeepsStatus(t: Trace, id: string, patch: Patch)
    requires id in t.activity.backgrounded
    ensures var s, s' := Exec(t.ops).session, Exec(Advance(t, Update(false, ToolPatched(id, patch), true)).ops).session;
      var f, f' := Known(s, id).fields, Known(s', id).fields;
      && f'.status == f.status
      && f' == Merge(f, patch).(status := f.status)
  {
    AcpTurns.ExecSnoc(t.ops, ToolPatched(id, patch.(status := None)));
  }

  /** A call that Grok says went on in the background is remembered from then on. */
  lemma {:induction false} BackgroundedIsRemembered(t: Trace, id: string, more: seq<Signal>)
    ensures id in RunFrom(Advance(t, Notified(TaskBackgrounded(Some(id)))), more).activity.backgrounded
  {
    if more == [] {
      TaskBackgroundedIsNoted(t, id);
    } else {
      var init, last := more[..|more| - 1], more[|more| - 1];
      BackgroundedIsRemembered(t, id, init);
      var before := RunFrom(Advance(t, Notified(TaskBackgrounded(Some(id)))), init);
      BackgroundedStays(before.activity, Exec(before.ops).session, last, id);
    }
  }

  lemma TaskBackgroundedIsNoted(t: Trace, id: string)
    ensures id in Advance(t, Notified(TaskBackgrounded(Some(id)))).activity.backgrounded
  {
  }

  lemma BackgroundedStays(a: Activity, s: Session, signal: Signal, id: string)
    requires id in a.backgrounded
    ensures id in Decide(a, s, signal).activity.backgrounded
  {
  }
}
