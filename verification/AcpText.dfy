/** Streamed text over whole runs of an ACP session. */
module AcpText {
  import opened Text
  import opened Events
  import opened AcpSession

  // ---------------------------------------------------------------- reading the log

  predicate IsText(content: Content) {
    content.AssistantMessage? || content.Reasoning?
  }

  predicate IsTextCompletion(e: Event) {
    e.ItemCompleted? && IsText(e.completed.content)
  }

  /** A reader that follows the streamed text and rejects the first event out of order. */
  datatype Watch = Watch(numbered: nat, open: Option<Stream>, ok: bool)

  function WatchEvent(w: Watch, e: Event): Watch {
    if e.Delta? then
      if w.open.Some? && w.open.value.id == e.item && w.open.value.kind == e.kind then
        w.(open := Some(w.open.value.(text := w.open.value.text + e.text)), ok := w.ok && e.text != [])
      else
        // A new item: the previous one is closed, and its number is the next one.
        Watch(w.numbered + 1, Some(Stream(e.item, e.kind, e.text)),
              w.ok && w.open.None? && e.item == TextId(e.kind, w.numbered + 1) && e.text != [])
    else if IsTextCompletion(e) then
      w.(open := None, ok := w.ok && w.open.Some?
         && e.completed.id == w.open.value.id && e.completed.parent.None?
         && e.completed.content == (match w.open.value.kind
                                    case AssistantText => AssistantMessage(w.open.value.text)
                                    case ReasoningText => Reasoning(w.open.value.text)))
    else if e.TurnCompleted? then w.(ok := w.ok && w.open.None?)
    else w
  }

  function WatchAll(log: seq<Event>): Watch {
    if log == [] then Watch(0, None, true) else WatchEvent(WatchAll(log[..|log| - 1]), log[|log| - 1])
  }

  /** All text streamed for an item, in order. */
  function Streamed(log: seq<Event>, id: string): string {
    if log == [] then []
    else
      var before, e := Streamed(log[..|log| - 1], id), log[|log| - 1];
      if e.Delta? && e.item == id then before + e.text else before
  }

  function Completions(log: seq<Event>, id: string): nat {
    if log == [] then 0
    else
      var e := log[|log| - 1];
      Completions(log[..|log| - 1], id) + (if IsTextCompletion(e) && e.completed.id == id then 1 else 0)
  }

  /** The text an item was last completed with. */
  function FinalText(log: seq<Event>, id: string): Option<string> {
    if log == [] then None
    else
      var e := log[|log| - 1];
      if IsTextCompletion(e) && e.completed.id == id then Some(e.completed.content.text)
      else FinalText(log[..|log| - 1], id)
  }

  lemma Snoc(log: seq<Event>, e: Event, id: string)
    ensures WatchAll(log + [e]) == WatchEvent(WatchAll(log), e)
    ensures Streamed(log + [e], id) == if e.Delta? && e.item == id then Streamed(log, id) + e.text else Streamed(log, id)
    ensures Completions(log + [e], id)
         == Completions(log, id) + if IsTextCompletion(e) && e.completed.id == id then 1 else 0
    ensures FinalText(log + [e], id)
         == if IsTextCompletion(e) && e.completed.id == id then Some(e.completed.content.text) else FinalText(log, id)
  {
    assert (log + [e])[..|log|] == log;
  }

  // ---------------------------------------------------------------- what an accepted log means

  lemma TextIdInjective(k: DeltaKind, m: nat, l: DeltaKind, n: nat)
    requires TextId(k, m) == TextId(l, n)
    ensures k == l && m == n
  {
    assert TextId(k, m)[0] == if k.ReasoningText? then 't' else 'm';
    assert TextId(l, n)[0] == if l.ReasoningText? then 't' else 'm';
    NumberedInjective(if k.ReasoningText? then "thought-" else "msg-", m, n);
  }

  /** The id was given out: it carries a number up to the last one used. */
  ghost predicate Numbered(id: string, upTo: nat) {
    exists kind: DeltaKind, n: nat :: 1 <= n <= upTo && id == TextId(kind, n)
  }

  /** What the log says of one item, given what is open. */
  ghost predicate Faithful(log: seq<Event>, id: string, w: Watch) {
    var text := Streamed(log, id);
    && (text != [] ==> Numbered(id, w.numbered))
    && if text == [] || (w.open.Some? && w.open.value.id == id)
       then Completions(log, id) == 0 && FinalText(log, id) == None
       else Completions(log, id) == 1 && FinalText(log, id) == Some(text)
  }

  ghost predicate OpenIsLatest(log: seq<Event>, w: Watch) {
    w.open.Some? ==>
      && w.open.value.id == TextId(w.open.value.kind, w.numbered) && w.numbered >= 1
      && w.open.value.text == Streamed(log, w.open.value.id) && w.open.value.text != []
  }

  lemma FreshIsUnnumbered(kind: DeltaKind, upTo: nat)
    ensures !Numbered(TextId(kind, upTo + 1), upTo)
  {
    if Numbered(TextId(kind, upTo + 1), upTo) {
      var l: DeltaKind, n: nat :| 1 <= n <= upTo && TextId(kind, upTo + 1) == TextId(l, n);
      TextIdInjective(kind, upTo + 1, l, n);
    }
  }

  lemma FaithfulStep(log: seq<Event>, e: Event, id: string)
    requires WatchAll(log + [e]).ok && WatchAll(log).ok
    requires Faithful(log, id, WatchAll(log)) && OpenIsLatest(log, WatchAll(log))
    requires e.Delta? ==> Faithful(log, e.item, WatchAll(log))
    ensures Faithful(log + [e], id, WatchAll(log + [e]))
  {
    var w, w' := WatchAll(log), WatchAll(log + [e]);
    Snoc(log, e, id);
    if Numbered(id, w.numbered) {
      var k: DeltaKind, n: nat :| 1 <= n <= w.numbered && id == TextId(k, n);
      assert Numbered(id, w.numbered + 1);
    }
    if e.Delta? && e.item == id {
      FreshIsUnnumbered(e.kind, w.numbered);
      assert Numbered(id, w'.numbered);
    }
  }

  lemma OpenStep(log: seq<Event>, e: Event)
    requires WatchAll(log + [e]).ok && WatchAll(log).ok && OpenIsLatest(log, WatchAll(log))
    requires e.Delta? ==> Faithful(log, e.item, WatchAll(log))
    ensures OpenIsLatest(log + [e], WatchAll(log + [e]))
  {
    if e.Delta? {
      OpenDelta(log, e);
    } else {
      var w := WatchAll(log);
      Snoc(log, e, if w.open.Some? then w.open.value.id else "");
    }
  }

  lemma OpenDelta(log: seq<Event>, e: Event)
    requires WatchAll(log + [e]).ok && WatchAll(log).ok && OpenIsLatest(log, WatchAll(log))
    requires e.Delta? && Faithful(log, e.item, WatchAll(log))
    ensures OpenIsLatest(log + [e], WatchAll(log + [e]))
  {
    Snoc(log, e, e.item);
    FreshIsUnnumbered(e.kind, WatchAll(log).numbered);
  }

  /**
   * In an accepted log every item that streamed text either is the open one, not completed yet,
   * or was completed exactly once with all of its text; nothing else was completed.
   */
  lemma {:induction false} AcceptedIsFaithful(log: seq<Event>)
    requires WatchAll(log).ok
    ensures forall id :: Faithful(log, id, WatchAll(log))
    ensures OpenIsLatest(log, WatchAll(log))
  {
    if log != [] {
      var n := |log| - 1;
      var init, e := log[..n], log[n];
      assert log == init + [e];
      Snoc(init, e, "");
      AcceptedIsFaithful(init);
      OpenStep(init, e);
      forall id ensures Faithful(log, id, WatchAll(log)) {
        FaithfulStep(init, e, id);
      }
    }
  }

  // ---------------------------------------------------------------- every run is accepted

  ghost predicate Inv(r: Run) {
    && WatchAll(r.log) == Watch(r.session.textSeq, r.session.text, true)
    && (r.session.text.Some? ==> r.session.text.value.text != [])
  }

  predicate Silent(e: Event) {
    !e.Delta? && !IsTextCompletion(e) && !e.TurnCompleted?
  }

  lemma SilentEvent(log: seq<Event>, e: Event)
    requires Silent(e)
    ensures WatchAll(log + [e]) == WatchAll(log)
  {
    Snoc(log, e, "");
  }

  lemma FlushKeepsInv(r: Run)
    requires Inv(r)
    ensures Inv(Run(Flushed(r.session).session, r.sent, r.log + Flushed(r.session).events))
    ensures Flushed(r.session).session == r.session.(text := None)
  {
    var events := Flushed(r.session).events;
    if events == [] {
      assert r.log + [] == r.log;
    } else {
      Snoc(r.log, events[0], "");
      assert r.log + events == r.log + [events[0]];
    }
  }

  lemma ChunkKeepsInv(r: Run, kind: DeltaKind, text: string)
    requires Inv(r) && text != []
    ensures var pushed := Pushed(r.session, kind, text);
      Inv(Run(pushed.session, r.sent, r.log + pushed.events))
  {
    var s, pushed := r.session, Pushed(r.session, kind, text);
    if s.text.Some? && s.text.value.kind == kind {
      WatchSnoc(r.log, Delta(s.text.value.id, kind, text));
    } else {
      FlushKeepsInv(r);
      var flushed := Run(Flushed(s).session, r.sent, r.log + Flushed(s).events);
      OpeningKeepsInv(flushed, kind, text);
      AppendLast(r.log, Flushed(s).events, Delta(TextId(kind, s.textSeq + 1), kind, text));
    }
  }

  /** The first chunk of an item, when none is open. */
  lemma OpeningKeepsInv(r: Run, kind: DeltaKind, text: string)
    requires Inv(r) && r.session.text.None? && text != []
    ensures var n := r.session.textSeq + 1;
      var id := TextId(kind, n);
      Inv(Run(r.session.(textSeq := n, text := Some(Stream(id, kind, text))), r.sent, r.log + [Delta(id, kind, text)]))
  {
    WatchSnoc(r.log, Delta(TextId(kind, r.session.textSeq + 1), kind, text));
  }

  lemma WatchSnoc(log: seq<Event>, e: Event)
    ensures WatchAll(log + [e]) == WatchEvent(WatchAll(log), e)
  {
    assert (log + [e])[..|log|] == log;
  }

  lemma PreambleKeepsInv(r: Run, end: TurnEnd)
    requires Inv(r)
    ensures Inv(Run(r.session.(text := None), r.sent, r.log + Preamble(r.session, end)))
  {
    FlushKeepsInv(r);
    var flushed := Flushed(r.session).events;
    if end.message.Some? {
      SilentEvent(r.log + flushed, TurnError(end.message.value));
      AppendLast(r.log, flushed, TurnError(end.message.value));
    } else {
      assert flushed + [] == flushed;
    }
  }

  lemma CompletionKeepsInv(r: Run, turn: string, end: TurnEnd)
    requires Inv(r)
    ensures var done := Closed(r.session, turn, end);
      Inv(Run(done.session, r.sent, r.log + done.events))
  {
    var s, opening, completion := r.session, Preamble(r.session, end), TurnCompleted(turn, end.status, end.usage);
    PreambleKeepsInv(r, end);
    Snoc(r.log + opening, completion, "");
    AppendLast(r.log, opening, completion);
    if s.nextTurn.Some? {
      SilentEvent(r.log + (opening + [completion]), TurnStarted(s.nextTurn.value));
      AppendLast(r.log, opening + [completion], TurnStarted(s.nextTurn.value));
    }
  }

  lemma CardKeepsInv(r: Run, session: Session, card: Event)
    requires Inv(r) && Silent(card) && session.text.None? && session.textSeq == r.session.textSeq
    ensures Inv(Run(session, r.sent, r.log + (Flushed(r.session).events + [card])))
  {
    FlushKeepsInv(r);
    SilentEvent(r.log + Flushed(r.session).events, card);
    AppendLast(r.log, Flushed(r.session).events, card);
  }

  lemma StepKeepsInv(r: Run, op: Op)
    requires Inv(r) && Legal(op)
    ensures Inv(Step(r, op))
  {
    var stepped := Apply(r.session, r.sent, op);
    if stepped.events == [] {
      assert r.log + [] == r.log;
    }
    match op {
      case Sent => SilentEvent(r.log, stepped.events[0]);
      case PromptResult(n, end) =>
        if r.session.turn == Some(TurnName(n)) {
          CompletionKeepsInv(r, TurnName(n), end);
        }
      case AgentBegan(turn) =>
        if r.session.turn.None? {
          SilentEvent(r.log, stepped.events[0]);
        }
      case AgentEnded(turn, end) =>
        var unparked := r.session.(nextTurn := if r.session.nextTurn == Some(turn) then None else r.session.nextTurn);
        if r.session.turn == Some(turn) {
          CompletionKeepsInv(r.(session := unparked), turn, end);
        } else {
          FlushKeepsInv(r.(session := unparked));
        }
      case Streamed(kind, text) =>
        if text != [] {
          ChunkKeepsInv(r, kind, text);
        }
      case Reported(event) => SilentEvent(r.log, event);
      case PermissionAsked(_, _, _, _) =>
      case _ => CardKeepsInv(r, stepped.session, stepped.events[|stepped.events| - 1]);
    }
  }

  /**
   * The log of every run is accepted: each streamed item takes the next number, at most one is
   * open, it is completed with the text streamed so far, and none is open when a turn completes.
   */
  lemma {:induction false} EveryRunIsAccepted(ops: seq<Op>)
    requires AllLegal(ops)
    ensures Inv(Exec(ops))
  {
    if ops != [] {
      EveryRunIsAccepted(ops[..|ops| - 1]);
      StepKeepsInv(Exec(ops[..|ops| - 1]), ops[|ops| - 1]);
    }
  }

  lemma {:induction false} PrefixAccepted(log: seq<Event>, i: nat)
    requires WatchAll(log).ok && i <= |log|
    ensures WatchAll(log[..i]).ok
    ensures i < |log| && log[i].TurnCompleted? ==> WatchAll(log[..i]).open.None?
  {
    if i < |log| {
      var n := |log| - 1;
      assert log[..n][..i] == log[..i];
      PrefixAccepted(log[..n], i);
    } else {
      assert log[..i] == log;
    }
  }

  /**
   * In every run, an item that streamed text is either the one still open or completed exactly
   * once with the concatenation of its deltas.
   */
  lemma StreamedTextIsFaithful(ops: seq<Op>, id: string)
    requires AllLegal(ops)
    ensures var r := Exec(ops);
      if Streamed(r.log, id) == [] then Completions(r.log, id) == 0
      else if r.session.text.Some? && r.session.text.value.id == id
        then Completions(r.log, id) == 0 && r.session.text.value.text == Streamed(r.log, id)
      else Completions(r.log, id) == 1 && FinalText(r.log, id) == Some(Streamed(r.log, id))
  {
    EveryRunIsAccepted(ops);
    AcceptedIsFaithful(Exec(ops).log);
    assert Faithful(Exec(ops).log, id, WatchAll(Exec(ops).log));
  }

  /** When a turn completes, every item that streamed text so far has been completed with it. */
  lemma NoTextOpenAtCompletion(ops: seq<Op>, i: nat, id: string)
    requires AllLegal(ops)
    requires i < |Exec(ops).log| && Exec(ops).log[i].TurnCompleted?
    requires Streamed(Exec(ops).log[..i], id) != []
    ensures Completions(Exec(ops).log[..i], id) == 1
    ensures FinalText(Exec(ops).log[..i], id) == Some(Streamed(Exec(ops).log[..i], id))
  {
    var log := Exec(ops).log;
    EveryRunIsAccepted(ops);
    PrefixAccepted(log, i);
    AcceptedIsFaithful(log[..i]);
    assert Faithful(log[..i], id, WatchAll(log[..i]));
  }

  // ---------------------------------------------------------------- what arrives is what is streamed

  /** A piece of streamed text. */
  datatype Piece = Piece(kind: DeltaKind, text: string)

  /** The deltas of a log, in order. */
  function Pieces(log: seq<Event>): seq<Piece> {
    if log == [] then []
    else
      var init, last := Pieces(log[..|log| - 1]), log[|log| - 1];
      if last.Delta? then init + [Piece(last.kind, last.text)] else init
  }

  /** The chunks that arrived and were not empty, in order. */
  function Arrived(ops: seq<Op>): seq<Piece> {
    if ops == [] then []
    else
      var init, last := Arrived(ops[..|ops| - 1]), ops[|ops| - 1];
      if last.Streamed? && last.text != "" then init + [Piece(last.kind, last.text)] else init
  }

  predicate NoDeltas(events: seq<Event>) {
    forall i :: 0 <= i < |events| ==> !events[i].Delta?
  }

  lemma {:induction false} PiecesAppend(log: seq<Event>, events: seq<Event>)
    requires NoDeltas(events)
    ensures Pieces(log + events) == Pieces(log)
  {
    if events == [] {
      assert log + [] == log;
    } else {
      PiecesAppend(log, events[..|events| - 1]);
      assert (log + events)[..|log + events| - 1] == log + events[..|events| - 1];
    }
  }

  lemma PiecesSnoc(log: seq<Event>, e: Event)
    ensures Pieces(log + [e]) == if e.Delta? then Pieces(log) + [Piece(e.kind, e.text)] else Pieces(log)
  {
    assert (log + [e])[..|log|] == log;
  }

  lemma ChunkIsOnePiece(log: seq<Event>, s: Session, kind: DeltaKind, text: string)
    ensures Pieces(log + Chunked(s, kind, text).events) == if text == "" then Pieces(log) else Pieces(log) + [Piece(kind, text)]
  {
    var events := Chunked(s, kind, text).events;
    if text == "" {
      PiecesAppend(log, events);
    } else {
      var n := |events| - 1;
      PiecesAppend(log, events[..n]);
      PiecesSnoc(log + events[..n], events[n]);
      assert log + events == (log + events[..n]) + [events[n]];
    }
  }

  lemma NoDeltasElsewhere(s: Session, sent: nat, op: Op)
    requires Legal(op) && !op.Streamed?
    ensures NoDeltas(Apply(s, sent, op).events)
  {
    match op {
      case PromptResult(n, end) => NoDeltasInClose(s, TurnName(n), end);
      case AgentEnded(turn, end) => NoDeltasInClose(if s.nextTurn == Some(turn) then s.(nextTurn := None) else s, turn, end);
      case _ =>
    }
  }

  lemma NoDeltasInClose(s: Session, turn: string, end: TurnEnd)
    ensures NoDeltas(Flushed(s).events) && NoDeltas(Closed(s, turn, end).events)
  {
  }

  /**
   * In every run the deltas are exactly the chunks that arrived and were not empty: none is
   * lost, none is changed in kind or text, and they keep their order.
   */
  lemma {:induction false} EveryChunkIsStreamed(ops: seq<Op>)
    requires AllLegal(ops)
    ensures Pieces(Exec(ops).log) == Arrived(ops)
  {
    if ops != [] {
      var init, last := ops[..|ops| - 1], ops[|ops| - 1];
      EveryChunkIsStreamed(init);
      var r := Exec(init);
      if last.Streamed? {
        ChunkIsOnePiece(r.log, r.session, last.kind, last.text);
      } else {
        NoDeltasElsewhere(r.session, r.sent, last);
        PiecesAppend(r.log, Apply(r.session, r.sent, last).events);
      }
    }
  }

  /** What leaves the open item open: chunks of its kind, and what shows nothing in the timeline. */
  predicate LeavesOpen(op: Op, kind: DeltaKind) {
    (op.Streamed? && op.kind == kind) || op.PermissionAsked? || op.Reported? || op.Sent? || op.AgentBegan?
  }

  function TextOf(pieces: seq<Piece>): string {
    if pieces == [] then "" else TextOf(pieces[..|pieces| - 1]) + pieces[|pieces| - 1].text
  }

  lemma OpenStays(s: Session, sent: nat, op: Op)
    requires s.text.Some? && LeavesOpen(op, s.text.value.kind)
    ensures var stream := s.text.value;
      Apply(s, sent, op).session.text == Some(stream.(text := stream.text + if op.Streamed? then op.text else ""))
  {
    assert s.text.value.text + "" == s.text.value.text;
  }

  lemma Assoc(a: string, b: string, c: string)
    ensures (a + b) + c == a + (b + c)
  {
  }

  lemma TextOfSnoc(ops: seq<Op>)
    requires ops != []
    ensures var last := ops[|ops| - 1];
      TextOf(Arrived(ops)) == TextOf(Arrived(ops[..|ops| - 1])) + if last.Streamed? then last.text else ""
  {
    var init := Arrived(ops[..|ops| - 1]);
    if Arrived(ops) != init {
      assert Arrived(ops)[..|init|] == init;
    }
  }

  /** Chunks of one kind stream into one item for as long as nothing else comes in between. */
  lemma {:induction false} SameKindContinues(ops: seq<Op>, more: seq<Op>)
    requires Exec(ops).session.text.Some?
    requires forall i :: 0 <= i < |more| ==> LeavesOpen(more[i], Exec(ops).session.text.value.kind)
    ensures var stream := Exec(ops).session.text.value;
      Exec(ops + more).session.text == Some(stream.(text := stream.text + TextOf(Arrived(more))))
  {
    var text := Exec(ops).session.text.value.text;
    if more == [] {
      assert ops + [] == ops && text + "" == text;
    } else {
      var init, last := more[..|more| - 1], more[|more| - 1];
      SameKindContinues(ops, init);
      assert (ops + more)[..|ops + more| - 1] == ops + init;
      OpenStays(Exec(ops + init).session, Exec(ops + init).sent, last);
      TextOfSnoc(more);
      Assoc(text, TextOf(Arrived(init)), if last.Streamed? then last.text else "");
    }
  }
}
