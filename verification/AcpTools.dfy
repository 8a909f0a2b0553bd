/** Tool cards over whole runs of an ACP session. */
module AcpTools {
  import opened Text
  import opened Events
  import opened AcpSession

  // ---------------------------------------------------------------- the merge, read backwards

  /** The fields one update sets; a whole tool call sets them all. */
  datatype Writes = Writes(
    title: Option<string>, kind: Option<ToolKind>, status: Option<ToolStatus>, content: Option<seq<Json>>,
    locations: Option<seq<Json>>, rawInput: Option<Option<Json>>, rawOutput: Option<Option<Json>>)

  const NOTHING := Writes(None, None, None, None, None, None, None)

  function Wrapped<T>(value: Option<T>): Option<Option<T>> {
    if value.Some? then Some(value) else None
  }

  function WritesOf(op: Op, id: string): Writes {
    match op
    case ToolCalled(called, f) =>
      if called != id then NOTHING
      else Writes(Some(f.title), Some(f.kind), Some(f.status), Some(f.content), Some(f.locations), Some(f.rawInput), Some(f.rawOutput))
    case ToolPatched(patched, p) =>
      if patched != id then NOTHING
      else Writes(p.title, p.kind, p.status, p.content, p.locations, Wrapped(p.rawInput), Wrapped(p.rawOutput))
    case PermissionAsked(asked, title, kind, rawInput) =>
      if asked != id then NOTHING else Writes(title, kind, None, None, None, Wrapped(rawInput), None)
    case _ => NOTHING
  }

  /** The value the last update that set the field gave it. */
  function Latest<T>(ops: seq<Op>, id: string, field: Writes -> Option<T>, default: T): T {
    if ops == [] then default
    else
      var written := field(WritesOf(ops[|ops| - 1], id));
      if written.Some? then written.value else Latest(ops[..|ops| - 1], id, field, default)
  }

  function LatestFields(ops: seq<Op>, id: string): ToolFields {
    ToolFields(
      Latest(ops, id, (w: Writes) => w.title, BLANK.title),
      Latest(ops, id, (w: Writes) => w.kind, BLANK.kind),
      Latest(ops, id, (w: Writes) => w.status, BLANK.status),
      Latest(ops, id, (w: Writes) => w.content, BLANK.content),
      Latest(ops, id, (w: Writes) => w.locations, BLANK.locations),
      Latest(ops, id, (w: Writes) => w.rawInput, BLANK.rawInput),
      Latest(ops, id, (w: Writes) => w.rawOutput, BLANK.rawOutput))
  }

  /** Fields with one more update over them. */
  function Overwritten(f: ToolFields, w: Writes): ToolFields {
    ToolFields(
      w.title.UnwrapOr(f.title), w.kind.UnwrapOr(f.kind), w.status.UnwrapOr(f.status), w.content.UnwrapOr(f.content),
      w.locations.UnwrapOr(f.locations), w.rawInput.UnwrapOr(f.rawInput), w.rawOutput.UnwrapOr(f.rawOutput))
  }

  /** An update that shows the card; a permission request only keeps it in step. */
  predicate Shows(op: Op, id: string) {
    (op.ToolCalled? || op.ToolPatched?) && op.id == id
  }

  predicate Touches(op: Op, id: string) {
    (op.ToolCalled? || op.ToolPatched? || op.PermissionAsked?) && op.id == id
  }

  function Showings(ops: seq<Op>, id: string): nat {
    if ops == [] then 0 else Showings(ops[..|ops| - 1], id) + (if Shows(ops[|ops| - 1], id) then 1 else 0)
  }

  predicate Touched(ops: seq<Op>, id: string) {
    ops != [] && (Touches(ops[|ops| - 1], id) || Touched(ops[..|ops| - 1], id))
  }

  // ---------------------------------------------------------------- the events of one card

  predicate IsCardOf(e: Event, id: string) {
    IsItemEvent(e) && EventItem(e).id == id && EventItem(e).content.ToolCard?
  }

  function CardEvents(log: seq<Event>, id: string): seq<Event> {
    if log == [] then []
    else if IsCardOf(log[|log| - 1], id) then CardEvents(log[..|log| - 1], id) + [log[|log| - 1]]
    else CardEvents(log[..|log| - 1], id)
  }

  /**
   * What one card's events must be: one per showing, each with the latest fields; the first
   * starts the item, and later ones complete it when a patch leaves it completed or failed.
   */
  function Expected(ops: seq<Op>, id: string): seq<Event> {
    if ops == [] then []
    else
      var init, last := ops[..|ops| - 1], ops[|ops| - 1];
      if !Shows(last, id) then Expected(init, id)
      else
        var fields := LatestFields(ops, id);
        var item := CardItem(id, fields);
        var finished := last.ToolPatched? && (fields.status == ToolCompleted || fields.status == ToolFailed);
        Expected(init, id) + [if Showings(init, id) == 0 then ItemStarted(item)
                              else if finished then ItemCompleted(item) else ItemUpdated(item)]
  }

  lemma CardEventsSnoc(log: seq<Event>, e: Event, id: string)
    ensures CardEvents(log + [e], id) == if IsCardOf(e, id) then CardEvents(log, id) + [e] else CardEvents(log, id)
  {
    assert (log + [e])[..|log|] == log;
  }

  predicate NoCards(events: seq<Event>) {
    forall i :: 0 <= i < |events| ==> IsItemEvent(events[i]) ==> !EventItem(events[i]).content.ToolCard?
  }

  lemma {:induction false} NoCardsAppend(log: seq<Event>, events: seq<Event>, id: string)
    requires NoCards(events)
    ensures CardEvents(log + events, id) == CardEvents(log, id)
  {
    if events == [] {
      assert log + [] == log;
    } else {
      var n := |events| - 1;
      NoCardsAppend(log, events[..n], id);
      CardEventsSnoc(log + events[..n], events[n], id);
      assert log + events == (log + events[..n]) + [events[n]];
    }
  }

  lemma NoCardsInFlush(s: Session)
    ensures NoCards(Flushed(s).events) && Flushed(s).session.tools == s.tools
  {
  }

  lemma NoCardsInClose(s: Session, turn: string, end: TurnEnd)
    ensures NoCards(Closed(s, turn, end).events) && Closed(s, turn, end).session.tools == s.tools
  {
    NoCardsInFlush(s);
  }

  /** Only tool calls and patches emit card events; only they and permissions touch the tools. */
  lemma NoCardsElsewhere(s: Session, sent: nat, op: Op)
    requires Legal(op) && !op.ToolCalled? && !op.ToolPatched?
    ensures NoCards(Apply(s, sent, op).events)
    ensures !op.PermissionAsked? ==> Apply(s, sent, op).session.tools == s.tools
  {
    match op {
      case PromptResult(n, end) => NoCardsInClose(s, TurnName(n), end);
      case AgentEnded(turn, end) =>
        var unparked := if s.nextTurn == Some(turn) then s.(nextTurn := None) else s;
        NoCardsInFlush(unparked);
        NoCardsInClose(unparked, turn, end);
      case Streamed(_, _) => NoCardsInFlush(s);
      case _ =>
    }
  }

  lemma CardAppended(log: seq<Event>, flushed: seq<Event>, card: Event, id: string)
    requires NoCards(flushed)
    ensures CardEvents(log + (flushed + [card]), id) == if IsCardOf(card, id) then CardEvents(log, id) + [card] else CardEvents(log, id)
  {
    NoCardsAppend(log, flushed, id);
    CardEventsSnoc(log + flushed, card, id);
    AppendLast(log, flushed, card);
  }

  /** The event a tool call or patch shows its card with. */
  function ShownAs(s: Session, op: Op): Event
    requires op.ToolCalled? || op.ToolPatched?
  {
    var known := Known(s, op.id);
    var fields := if op.ToolCalled? then op.fields else Merge(known.fields, op.patch);
    var item := CardItem(op.id, fields);
    if !known.announced then ItemStarted(item)
    else if op.ToolPatched? && (fields.status == ToolCompleted || fields.status == ToolFailed) then ItemCompleted(item)
    else ItemUpdated(item)
  }

  lemma ShowingEmits(s: Session, sent: nat, op: Op)
    requires op.ToolCalled? || op.ToolPatched?
    ensures Apply(s, sent, op).events == Flushed(s).events + [ShownAs(s, op)]
    ensures Known(Apply(s, sent, op).session, op.id) == Tool(EventItem(ShownAs(s, op)).content.fields, true)
  {
  }

  /** A step adds at most one event to a card: the one that shows it. */
  lemma CardStep(r: Run, op: Op, id: string)
    requires Legal(op)
    ensures CardEvents(Step(r, op).log, id)
         == if Shows(op, id) then CardEvents(r.log, id) + [ShownAs(r.session, op)] else CardEvents(r.log, id)
  {
    if op.ToolCalled? || op.ToolPatched? {
      ShowingEmits(r.session, r.sent, op);
      NoCardsInFlush(r.session);
      CardAppended(r.log, Flushed(r.session).events, ShownAs(r.session, op), id);
    } else {
      NoCardsElsewhere(r.session, r.sent, op);
      NoCardsAppend(r.log, Apply(r.session, r.sent, op).events, id);
    }
  }

  // ---------------------------------------------------------------- main results

  /** The card as the state knows it is the right-biased merge of everything received for it. */
  lemma {:induction false} CardIsMerge(ops: seq<Op>, id: string)
    requires AllLegal(ops)
    ensures var tools := Exec(ops).session.tools;
      && (id in tools <==> Touched(ops, id))
      && Known(Exec(ops).session, id).fields == LatestFields(ops, id)
      && (Known(Exec(ops).session, id).announced <==> Showings(ops, id) > 0)
  {
    if ops != [] {
      var init, last := ops[..|ops| - 1], ops[|ops| - 1];
      CardIsMerge(init, id);
      KnownStep(Exec(init), last, id);
      LatestStep(ops, id);
    }
  }

  /** What a step makes of a card. */
  lemma KnownStep(r: Run, op: Op, id: string)
    requires Legal(op)
    ensures var s, s' := r.session, Step(r, op).session;
      && (id in s'.tools <==> id in s.tools || Touches(op, id))
      && Known(s', id).fields == Overwritten(Known(s, id).fields, WritesOf(op, id))
      && Known(s', id).announced == (Known(s, id).announced || Shows(op, id))
  {
    if !op.ToolCalled? && !op.ToolPatched? {
      NoCardsElsewhere(r.session, r.sent, op);
    }
  }

  lemma LatestStep(ops: seq<Op>, id: string)
    requires ops != []
    ensures LatestFields(ops, id) == Overwritten(LatestFields(ops[..|ops| - 1], id), WritesOf(ops[|ops| - 1], id))
  {
  }

  /** One card's events are exactly the expected ones, whatever else happens in between. */
  lemma {:induction false} CardEventsAreExpected(ops: seq<Op>, id: string)
    requires AllLegal(ops)
    ensures CardEvents(Exec(ops).log, id) == Expected(ops, id)
  {
    if ops != [] {
      var init, last := ops[..|ops| - 1], ops[|ops| - 1];
      CardEventsAreExpected(init, id);
      CardStep(Exec(init), last, id);
      if Shows(last, id) {
        ShownIsExpected(ops, id);
      }
    }
  }

  lemma ShownIsExpected(ops: seq<Op>, id: string)
    requires ops != [] && AllLegal(ops) && Shows(ops[|ops| - 1], id)
    ensures var init := ops[..|ops| - 1];
      Expected(ops, id) == Expected(init, id) + [ShownAs(Exec(init).session, ops[|ops| - 1])]
  {
    var init, last := ops[..|ops| - 1], ops[|ops| - 1];
    CardIsMerge(init, id);
    CardIsMerge(ops, id);
    ShowingEmits(Exec(init).session, Exec(init).sent, last);
  }

  /** Each card is started exactly once, by the first event it has, and never again. */
  lemma {:induction false} CardStartsOnce(ops: seq<Op>, id: string)
    requires AllLegal(ops)
    ensures var events := CardEvents(Exec(ops).log, id);
      && |events| == Showings(ops, id)
      && (forall i :: 0 <= i < |events| ==> (events[i].ItemStarted? <==> i == 0))
  {
    CardEventsAreExpected(ops, id);
    if ops != [] {
      CardStartsOnce(ops[..|ops| - 1], id);
      CardEventsAreExpected(ops[..|ops| - 1], id);
    }
  }
}
