/** Turns over whole runs of an ACP session: who opens, who completes, and what happens to the rest. */
module AcpTurns {
  import opened Text
  import opened Events
  import opened AcpSession

  // ---------------------------------------------------------------- reading the log

  predicate IsTurnEvent(e: Event) {
    e.TurnStarted? || e.TurnCompleted?
  }

  predicate NoTurnEvents(events: seq<Event>) {
    forall i :: 0 <= i < |events| ==> !IsTurnEvent(events[i])
  }

  /** The turn a reader of the log takes to be running. */
  function OpenTurn(log: seq<Event>): Option<string> {
    if log == [] then None
    else
      match log[|log| - 1]
      case TurnStarted(turn) => Some(turn)
      case TurnCompleted(_, _, _) => None
      case _ => OpenTurn(log[..|log| - 1])
  }

  /** Every completion names the most recently started turn, which is still open. */
  ghost predicate CompletionsAreCurrent(log: seq<Event>) {
    forall i :: 0 <= i < |log| && log[i].TurnCompleted? ==> OpenTurn(log[..i]) == Some(log[i].turn)
  }

  function Started(log: seq<Event>, turn: string): nat {
    if log == [] then 0
    else Started(log[..|log| - 1], turn) + (if log[|log| - 1] == TurnStarted(turn) then 1 else 0)
  }

  function Completed(log: seq<Event>, turn: string): nat {
    if log == [] then 0
    else
      var last := log[|log| - 1];
      Completed(log[..|log| - 1], turn) + (if last.TurnCompleted? && last.turn == turn then 1 else 0)
  }

  /** How often another turn's start took the place of this one while it was open. */
  function Replaced(log: seq<Event>, turn: string): nat {
    if log == [] then 0
    else
      var init := log[..|log| - 1];
      Replaced(init, turn) + (if log[|log| - 1].TurnStarted? && OpenTurn(init) == Some(turn) then 1 else 0)
  }

  /** Turns only the client opens over another one. */
  ghost predicate ReplacedOnlyBySent(log: seq<Event>) {
    forall i :: 0 <= i < |log| && log[i].TurnStarted? && OpenTurn(log[..i]).Some? ==> !AgentTurnId(log[i].turn)
  }

  lemma PrefixOfAppend(log: seq<Event>, e: Event, i: nat)
    requires i <= |log|
    ensures (log + [e])[..i] == log[..i]
  {
  }

  lemma OpenTurnSnoc(log: seq<Event>, e: Event)
    ensures OpenTurn(log + [e]) == if e.TurnStarted? then Some(e.turn) else if e.TurnCompleted? then None else OpenTurn(log)
  {
    PrefixOfAppend(log, e, |log|);
  }

  lemma CountsSnoc(log: seq<Event>, e: Event, turn: string)
    ensures Started(log + [e], turn) == Started(log, turn) + if e == TurnStarted(turn) then 1 else 0
    ensures Completed(log + [e], turn) == Completed(log, turn) + if e.TurnCompleted? && e.turn == turn then 1 else 0
    ensures Replaced(log + [e], turn) == Replaced(log, turn) + if e.TurnStarted? && OpenTurn(log) == Some(turn) then 1 else 0
  {
    PrefixOfAppend(log, e, |log|);
  }

  lemma CurrentSnoc(log: seq<Event>, e: Event)
    requires CompletionsAreCurrent(log) && ReplacedOnlyBySent(log)
    requires e.TurnCompleted? ==> OpenTurn(log) == Some(e.turn)
    requires e.TurnStarted? && OpenTurn(log).Some? ==> !AgentTurnId(e.turn)
    ensures CompletionsAreCurrent(log + [e]) && ReplacedOnlyBySent(log + [e])
  {
    var all := log + [e];
    forall i | 0 <= i < |all| ensures all[..i] == log[..i] {
      PrefixOfAppend(log, e, i);
    }
    assert log[..|log|] == log;
  }

  /** Every start of a turn is accounted for: completed, replaced, or still open. */
  lemma {:induction false} StartsAreAccountedFor(log: seq<Event>, turn: string)
    requires CompletionsAreCurrent(log)
    ensures Started(log, turn) == Completed(log, turn) + Replaced(log, turn) + if OpenTurn(log) == Some(turn) then 1 else 0
  {
    if log != [] {
      var init := log[..|log| - 1];
      assert forall i :: 0 <= i < |init| ==> init[..i] == log[..i];
      StartsAreAccountedFor(init, turn);
    }
  }

  // ---------------------------------------------------------------- the invariant

  /** What every legal run keeps between its state and its log. */
  ghost predicate Inv(r: Run) {
    && OpenTurn(r.log) == r.session.turn
    && CompletionsAreCurrent(r.log) && ReplacedOnlyBySent(r.log)
    && (r.session.nextTurn.Some? ==> r.session.turn.Some? && AgentTurnId(r.session.nextTurn.value))
    && (r.session.turn.Some? ==> AgentTurnId(r.session.turn.value) || r.session.turn == Some(TurnName(r.sent)))
    && (forall n: nat :: Started(r.log, TurnName(n)) == if 1 <= n <= r.sent then 1 else 0)
    && (forall n: nat :: n >= r.sent ==> Replaced(r.log, TurnName(n)) == 0)
  }

  lemma NamesDiffer(m: nat, n: nat)
    ensures TurnName(m) == TurnName(n) ==> m == n
    ensures !AgentTurnId(TurnName(n))
  {
    if TurnName(m) == TurnName(n) {
      NumberedInjective("turn-", m, n);
    }
  }

  /** Events that concern no turn leave the log's reading of turns alone. */
  lemma {:induction false} QuietEvents(r: Run, session: Session, events: seq<Event>)
    requires Inv(r) && NoTurnEvents(events)
    requires session.turn == r.session.turn && session.nextTurn == r.session.nextTurn
    ensures Inv(Run(session, r.sent, r.log + events))
  {
    if events == [] {
      assert r.log + [] == r.log;
    } else {
      var n := |events| - 1;
      QuietEvents(r, session, events[..n]);
      var log := r.log + events[..n];
      assert r.log + events == log + [events[n]];
      OneEvent(Run(session, r.sent, log), session, r.sent, events[n]);
    }
  }

  /** One more event, with the state change that goes with it. */
  lemma OneEvent(r: Run, session: Session, sent: nat, e: Event)
    requires Inv(r)
    requires e.TurnCompleted? ==> r.session.turn == Some(e.turn)
    requires e.TurnStarted? ==>
      && session.turn == Some(e.turn)
      && if sent == r.sent then AgentTurnId(e.turn) && r.session.turn.None?
         else sent == r.sent + 1 && e.turn == TurnName(sent)
    requires !e.TurnStarted? ==> sent == r.sent && session.turn == if e.TurnCompleted? then None else r.session.turn
    requires session.nextTurn.Some? ==> session.turn.Some? && AgentTurnId(session.nextTurn.value)
    ensures Inv(Run(session, sent, r.log + [e]))
  {
    OpenTurnSnoc(r.log, e);
    forall n: nat
      ensures Started(r.log + [e], TurnName(n)) == Started(r.log, TurnName(n)) + if e == TurnStarted(TurnName(n)) then 1 else 0
      ensures e.TurnStarted? && e.turn == TurnName(sent) == TurnName(n) ==> n == sent
      ensures n >= sent ==> Replaced(r.log + [e], TurnName(n)) == 0
      ensures !AgentTurnId(TurnName(n))
    {
      CountsSnoc(r.log, e, TurnName(n));
      NamesDiffer(sent, n);
      NamesDiffer(r.sent, n);
    }
    CurrentSnoc(r.log, e);
  }

  lemma FlushIsQuiet(s: Session)
    ensures NoTurnEvents(Flushed(s).events)
    ensures Flushed(s).session == s.(text := None)
  {
  }

  lemma PreambleKeepsInv(r: Run, end: TurnEnd)
    requires Inv(r)
    ensures Inv(r.(log := r.log + Preamble(r.session, end)))
  {
    QuietEvents(r, r.session, Preamble(r.session, end));
  }

  lemma CloseKeepsInv(r: Run, turn: string, end: TurnEnd)
    requires Inv(r) && r.session.turn == Some(turn)
    ensures Inv(Run(r.session.(text := None, turn := None, nextTurn := None), r.sent,
                    r.log + [TurnCompleted(turn, end.status, end.usage)]))
  {
    OneEvent(r, r.session.(text := None, turn := None, nextTurn := None), r.sent, TurnCompleted(turn, end.status, end.usage));
  }

  lemma OpenKeepsInv(r: Run, turn: string)
    requires Inv(r) && r.session.turn.None? && AgentTurnId(turn)
    ensures Inv(Run(r.session.(turn := Some(turn)), r.sent, r.log + [TurnStarted(turn)]))
  {
    OneEvent(r, r.session.(turn := Some(turn)), r.sent, TurnStarted(turn));
  }

  lemma CompletionKeepsInv(r: Run, turn: string, end: TurnEnd)
    requires Inv(r) && r.session.turn == Some(turn)
    ensures var done := Closed(r.session, turn, end);
      Inv(Run(done.session, r.sent, r.log + done.events))
  {
    var s, done := r.session, Closed(r.session, turn, end);
    var opening, completion := Preamble(s, end), TurnCompleted(turn, end.status, end.usage);
    PreambleKeepsInv(r, end);
    CloseKeepsInv(r.(log := r.log + opening), turn, end);
    var closed := Run(s.(text := None, turn := None, nextTurn := None), r.sent, r.log + opening + [completion]);
    AppendLast(r.log, opening, completion);
    if s.nextTurn.Some? {
      OpenKeepsInv(closed, s.nextTurn.value);
      AppendLast(r.log, opening + [completion], TurnStarted(s.nextTurn.value));
    }
  }

  lemma QuietOp(r: Run, op: Op)
    requires Inv(r) && Legal(op)
    requires op.Streamed? || op.ToolCalled? || op.ToolPatched? || op.PermissionAsked? || op.Reported?
    ensures Inv(Step(r, op))
  {
    var stepped := Apply(r.session, r.sent, op);
    FlushIsQuiet(r.session);
    QuietEvents(r, stepped.session, stepped.events);
  }

  lemma StepKeepsInv(r: Run, op: Op)
    requires Inv(r) && Legal(op)
    ensures Inv(Step(r, op))
  {
    var stepped := Apply(r.session, r.sent, op);
    FlushIsQuiet(r.session);
    match op {
      case Sent =>
        OneEvent(r, stepped.session, r.sent + 1, stepped.events[0]);
      case PromptResult(n, end) =>
        if r.session.turn == Some(TurnName(n)) {
          CompletionKeepsInv(r, TurnName(n), end);
        } else {
          QuietEvents(r, stepped.session, []);
        }
      case AgentBegan(turn) =>
        if r.session.turn.Some? {
          QuietEvents(r, r.session, []);
        } else {
          OneEvent(r, stepped.session, r.sent, stepped.events[0]);
        }
      case AgentEnded(turn, end) =>
        var unparked := r.session.(nextTurn := if r.session.nextTurn == Some(turn) then None else r.session.nextTurn);
        var r' := r.(session := unparked);
        if r.session.turn == Some(turn) {
          CompletionKeepsInv(r', turn, end);
        } else {
          FlushIsQuiet(unparked);
          QuietEvents(r', stepped.session, stepped.events);
        }
      case _ =>
        QuietOp(r, op);
    }
  }

  lemma {:induction false} RunsKeepInv(ops: seq<Op>)
    requires AllLegal(ops)
    ensures Inv(Exec(ops))
  {
    if ops == [] {
      assert OpenTurn([]) == None;
    } else {
      RunsKeepInv(ops[..|ops| - 1]);
      StepKeepsInv(Exec(ops[..|ops| - 1]), ops[|ops| - 1]);
    }
  }

  // ---------------------------------------------------------------- main results

  /**
   * In every interleaving, each completion names the turn started last, which is still open; a
   * turn is parked only behind an open one; and only the client opens a turn over another.
   */
  lemma EveryCompletionIsCurrent(ops: seq<Op>)
    requires AllLegal(ops)
    ensures var r := Exec(ops);
      && CompletionsAreCurrent(r.log)
      && ReplacedOnlyBySent(r.log)
      && r.session.turn == OpenTurn(r.log)
      && (r.session.nextTurn.Some? ==> r.session.turn.Some?)
  {
    RunsKeepInv(ops);
  }

  /** A sent turn starts once and meets exactly one fate: open, completed once, or replaced once. */
  lemma SentTurnHasOneFate(ops: seq<Op>, n: nat)
    requires AllLegal(ops) && 1 <= n <= Exec(ops).sent
    ensures var log := Exec(ops).log;
      && Started(log, TurnName(n)) == 1
      && Completed(log, TurnName(n)) + Replaced(log, TurnName(n))
         + (if OpenTurn(log) == Some(TurnName(n)) then 1 else 0) == 1
  {
    RunsKeepInv(ops);
    StartsAreAccountedFor(Exec(ops).log, TurnName(n));
  }

  /** Only the latest sent turn can still be open, so a replaced one was replaced by a later send. */
  lemma OnlyLatestSentIsOpen(ops: seq<Op>, n: nat)
    requires AllLegal(ops) && OpenTurn(Exec(ops).log) == Some(TurnName(n))
    ensures n == Exec(ops).sent
  {
    RunsKeepInv(ops);
    NamesDiffer(n, Exec(ops).sent);
  }

  /**
   * Once the `session/prompt` result of a sent turn was handled, that turn is over: it completed
   * exactly once, or a later send replaced it and it never completes.
   */
  lemma ResultSettlesTurn(ops: seq<Op>, n: nat, end: TurnEnd)
    requires AllLegal(ops) && 1 <= n <= Exec(ops).sent
    ensures var after := Exec(ops + [PromptResult(n, end)]);
      && Completed(after.log, TurnName(n)) + Replaced(after.log, TurnName(n)) == 1
      && (Replaced(after.log, TurnName(n)) == 1 <==> Replaced(Exec(ops).log, TurnName(n)) == 1)
  {
    var all, r := ops + [PromptResult(n, end)], Exec(ops);
    assert all[..|ops|] == ops;
    assert AllLegal(all);
    RunsKeepInv(ops);
    SentTurnHasOneFate(ops, n);
    SentTurnHasOneFate(all, n);
    RunsKeepInv(all);
    assert Exec(all) == Step(r, PromptResult(n, end));
    if r.session.turn == Some(TurnName(n)) {
      NotReopened(r, n, end);
      AfterCompletion(r, n, end);
    } else {
      assert r.log + [] == r.log;
    }
  }

  lemma NotReopened(r: Run, n: nat, end: TurnEnd)
    requires Inv(r) && r.session.turn == Some(TurnName(n))
    ensures Closed(r.session, TurnName(n), end).session.turn != Some(TurnName(n))
  {
    NamesDiffer(n, n);
  }

  lemma AfterCompletion(r: Run, n: nat, end: TurnEnd)
    requires r.session.turn == Some(TurnName(n))
    ensures Completed(r.log + Closed(r.session, TurnName(n), end).events, TurnName(n)) > Completed(r.log, TurnName(n))
  {
    var s, events := r.session, Closed(r.session, TurnName(n), end).events;
    CompletedGrows(r.log, events, TurnName(n), if s.nextTurn.Some? then |events| - 2 else |events| - 1);
  }

  lemma {:induction false} CompletedGrows(log: seq<Event>, events: seq<Event>, turn: string, i: int)
    ensures Completed(log + events, turn) >= Completed(log, turn)
    ensures 0 <= i < |events| && events[i].TurnCompleted? && events[i].turn == turn
      ==> Completed(log + events, turn) > Completed(log, turn)
  {
    if events == [] {
      assert log + [] == log;
    } else {
      var n := |events| - 1;
      CompletedGrows(log, events[..n], turn, i);
      CountsSnoc(log + events[..n], events[n], turn);
      assert log + events == (log + events[..n]) + [events[n]];
    }
  }

  lemma {:induction false} ReplacedGrows(log: seq<Event>, events: seq<Event>, turn: string)
    ensures Replaced(log + events, turn) >= Replaced(log, turn)
  {
    if events == [] {
      assert log + [] == log;
    } else {
      var n := |events| - 1;
      ReplacedGrows(log, events[..n], turn);
      CountsSnoc(log + events[..n], events[n], turn);
      assert log + events == (log + events[..n]) + [events[n]];
    }
  }

  /** A sent turn is open exactly as long as nothing was sent after it and it has not completed. */
  lemma OpenIffLatestUncompleted(ops: seq<Op>, n: nat)
    requires AllLegal(ops) && 1 <= n <= Exec(ops).sent
    ensures Exec(ops).session.turn == Some(TurnName(n)) <==> n == Exec(ops).sent && Completed(Exec(ops).log, TurnName(n)) == 0
  {
    RunsKeepInv(ops);
    SentTurnHasOneFate(ops, n);
    NamesDiffer(n, Exec(ops).sent);
  }

  // ---------------------------------------------------------------- what becomes of a parked turn

  /** How many turns were completed at all. */
  function Completions(log: seq<Event>): nat {
    if log == [] then 0 else Completions(log[..|log| - 1]) + (if log[|log| - 1].TurnCompleted? then 1 else 0)
  }

  lemma CompletionsSnoc(log: seq<Event>, e: Event)
    ensures Completions(log + [e]) == Completions(log) + if e.TurnCompleted? then 1 else 0
  {
    PrefixOfAppend(log, e, |log|);
  }

  lemma {:induction false} QuietCounts(log: seq<Event>, events: seq<Event>, turn: string)
    requires NoTurnEvents(events)
    ensures Started(log + events, turn) == Started(log, turn) && Completions(log + events) == Completions(log)
  {
    if events == [] {
      assert log + [] == log;
    } else {
      var n := |events| - 1;
      QuietCounts(log, events[..n], turn);
      assert log + events == (log + events[..n]) + [events[n]];
      CountsSnoc(log + events[..n], events[n], turn);
      CompletionsSnoc(log + events[..n], events[n]);
    }
  }

  /** A completion opens the parked turn at once. */
  lemma CompletionOpensParked(log: seq<Event>, s: Session, turn: string, end: TurnEnd, parked: string)
    ensures var done := Closed(s, turn, end);
      && done.session.nextTurn.None?
      && Completions(log + done.events) == Completions(log) + 1
      && Started(log + done.events, parked) == Started(log, parked) + if s.nextTurn == Some(parked) then 1 else 0
  {
    var opening, completion := Preamble(s, end), TurnCompleted(turn, end.status, end.usage);
    QuietCounts(log, opening, parked);
    AppendLast(log, opening, completion);
    CountsSnoc(log + opening, completion, parked);
    CompletionsSnoc(log + opening, completion);
    if s.nextTurn.Some? {
      AppendLast(log, opening + [completion], TurnStarted(s.nextTurn.value));
      CountsSnoc(log + opening + [completion], TurnStarted(s.nextTurn.value), parked);
      CompletionsSnoc(log + opening + [completion], TurnStarted(s.nextTurn.value));
    }
  }

  /** Nothing that parks another turn or ends the parked one. */
  predicate Leaves(op: Op, parked: string) {
    !op.AgentBegan? && (op.AgentEnded? ==> op.turn != parked)
  }

  /** Either no turn completed and the parked one still waits, or it started, once, and waits no more. */
  ghost predicate OpensOrWaits(before: Run, after: Run, parked: string) {
    && Completions(after.log) >= Completions(before.log)
    && if Completions(after.log) == Completions(before.log)
       then after.session.nextTurn == before.session.nextTurn && Started(after.log, parked) == Started(before.log, parked)
       else after.session.nextTurn.None?
            && Started(after.log, parked) == Started(before.log, parked) + if before.session.nextTurn.Some? then 1 else 0
  }

  lemma QuietStep(r: Run, op: Op, parked: string)
    requires NoTurnEvents(Apply(r.session, r.sent, op).events)
    requires Apply(r.session, r.sent, op).session.nextTurn == r.session.nextTurn
    ensures OpensOrWaits(r, Step(r, op), parked)
  {
    QuietCounts(r.log, Apply(r.session, r.sent, op).events, parked);
  }

  lemma SentStep(r: Run, parked: string)
    requires AgentTurnId(parked)
    ensures OpensOrWaits(r, Step(r, Sent), parked)
  {
    NamesDiffer(r.sent + 1, r.sent + 1);
    CountsSnoc(r.log, TurnStarted(TurnName(r.sent + 1)), parked);
    CompletionsSnoc(r.log, TurnStarted(TurnName(r.sent + 1)));
  }

  lemma ParkedStep(r: Run, op: Op, parked: string)
    requires Leaves(op, parked) && AgentTurnId(parked) && Legal(op)
    requires r.session.nextTurn.Some? ==> r.session.nextTurn == Some(parked)
    ensures OpensOrWaits(r, Step(r, op), parked)
  {
    FlushIsQuiet(r.session);
    match op {
      case Sent => SentStep(r, parked);
      case PromptResult(n, end) => EndStep(r, op, TurnName(n), end, parked);
      case AgentEnded(turn, end) => EndStep(r, op, turn, end, parked);
      case _ => QuietStep(r, op, parked);
    }
  }

  lemma EndStep(r: Run, op: Op, turn: string, end: TurnEnd, parked: string)
    requires op == AgentEnded(turn, end) || exists n :: op == PromptResult(n, end) && turn == TurnName(n)
    requires r.session.nextTurn.Some? ==> r.session.nextTurn == Some(parked)
    requires op.AgentEnded? ==> turn != parked
    ensures OpensOrWaits(r, Step(r, op), parked)
  {
    if r.session.turn == Some(turn) {
      CompletionOpensParked(r.log, r.session, turn, end, parked);
    } else {
      FlushIsQuiet(r.session);
      QuietStep(r, op, parked);
    }
  }

  lemma OpensThen(a: Run, b: Run, c: Run, parked: string)
    requires a.session.nextTurn == Some(parked) && OpensOrWaits(a, b, parked) && OpensOrWaits(b, c, parked)
    ensures OpensOrWaits(a, c, parked)
  {
  }

  lemma ExecSnoc(ops: seq<Op>, op: Op)
    ensures Exec(ops + [op]) == Step(Exec(ops), op)
  {
    assert (ops + [op])[..|ops|] == ops;
  }

  /**
   * A parked turn, unless it ends itself or another one takes its place, stays parked until the
   * next completion of any turn, starts exactly once with it, and never again.
   */
  lemma {:induction false} ParkedOpensAtNextCompletion(ops: seq<Op>, more: seq<Op>, parked: string)
    requires AllLegal(ops) && AllLegal(more) && Exec(ops).session.nextTurn == Some(parked)
    requires forall i :: 0 <= i < |more| ==> Leaves(more[i], parked)
    ensures AgentTurnId(parked) && OpensOrWaits(Exec(ops), Exec(ops + more), parked)
  {
    if more == [] {
      RunsKeepInv(ops);
      assert ops + [] == ops;
    } else {
      var init, last := more[..|more| - 1], more[|more| - 1];
      ParkedOpensAtNextCompletion(ops, init, parked);
      assert ops + more == (ops + init) + [last];
      ExecSnoc(ops + init, last);
      ParkedStep(Exec(ops + init), last, parked);
      OpensThen(Exec(ops), Exec(ops + init), Exec(ops + more), parked);
    }
  }

  // ---------------------------------------------------------------- the outcome of a turn

  /** An operation that ends a turn, with its outcome. */
  predicate EndsTurn(op: Op, turn: string, end: TurnEnd) {
    (op.PromptResult? && TurnName(op.n) == turn && op.end == end) || (op.AgentEnded? && op.turn == turn && op.end == end)
  }

  /** A completion tells an outcome: its status and usage, right behind its message if there is one. */
  ghost predicate TellsOutcome(log: seq<Event>, i: nat, end: TurnEnd)
    requires i < |log| && log[i].TurnCompleted?
  {
    && log[i].outcome == end.status && log[i].usage == end.usage
    && (end.message.Some? ==> i > 0 && log[i - 1] == TurnError(end.message.value))
  }

  ghost predicate OutcomesAreGiven(log: seq<Event>, ops: seq<Op>) {
    forall i :: 0 <= i < |log| && log[i].TurnCompleted? ==>
      exists op, end :: op in ops && EndsTurn(op, log[i].turn, end) && TellsOutcome(log, i, end)
  }

  lemma ClosingTells(s: Session, turn: string, end: TurnEnd, i: nat)
    requires i < |Closed(s, turn, end).events| && Closed(s, turn, end).events[i].TurnCompleted?
    ensures Closed(s, turn, end).events[i].turn == turn && TellsOutcome(Closed(s, turn, end).events, i, end)
  {
    assert i == |Preamble(s, end)|;
  }

  lemma StepTells(r: Run, op: Op, i: nat)
    requires Legal(op) && i < |Apply(r.session, r.sent, op).events| && Apply(r.session, r.sent, op).events[i].TurnCompleted?
    ensures var events := Apply(r.session, r.sent, op).events;
      exists end :: EndsTurn(op, events[i].turn, end) && TellsOutcome(events, i, end)
  {
    var events := Apply(r.session, r.sent, op).events;
    FlushIsQuiet(r.session);
    match op {
      case PromptResult(n, end) => ClosingTells(r.session, TurnName(n), end, i);
      case AgentEnded(turn, end) =>
        var s := if r.session.nextTurn == Some(turn) then r.session.(nextTurn := None) else r.session;
        FlushIsQuiet(s);
        ClosingTells(s, turn, end, i);
      case _ => assert false;
    }
  }

  /** Every completion carries the outcome some operation gave that turn, and reports its message. */
  lemma {:induction false} EveryOutcomeIsGiven(ops: seq<Op>)
    requires AllLegal(ops)
    ensures OutcomesAreGiven(Exec(ops).log, ops)
  {
    if ops != [] {
      var init, last := ops[..|ops| - 1], ops[|ops| - 1];
      EveryOutcomeIsGiven(init);
      var r := Exec(init);
      var events := Apply(r.session, r.sent, last).events;
      forall i | 0 <= i < |events| && events[i].TurnCompleted?
        ensures exists end :: EndsTurn(last, events[i].turn, end) && TellsOutcome(events, i, end)
      {
        StepTells(r, last, i);
      }
      OutcomesGrow(r.log, events, init, last);
      assert ops == init + [last];
    }
  }

  lemma OutcomesGrow(log: seq<Event>, events: seq<Event>, ops: seq<Op>, last: Op)
    requires OutcomesAreGiven(log, ops)
    requires forall i :: 0 <= i < |events| && events[i].TurnCompleted? ==>
      exists end :: EndsTurn(last, events[i].turn, end) && TellsOutcome(events, i, end)
    ensures OutcomesAreGiven(log + events, ops + [last])
  {
    var all := log + events;
    forall i | 0 <= i < |all| && all[i].TurnCompleted?
      ensures exists op, end :: op in ops + [last] && EndsTurn(op, all[i].turn, end) && TellsOutcome(all, i, end)
    {
      if i < |log| {
        var op, end :| op in ops && EndsTurn(op, log[i].turn, end) && TellsOutcome(log, i, end);
        assert TellsOutcome(all, i, end);
      } else {
        var j := i - |log|;
        var end :| EndsTurn(last, events[j].turn, end) && TellsOutcome(events, j, end);
        assert TellsOutcome(all, i, end);
      }
    }
  }
}
