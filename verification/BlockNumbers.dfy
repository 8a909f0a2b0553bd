/** Numbering the content blocks of streamed messages (crates/agent/src/claude.rs, `on_assistant`, `block_item_id`). */
module BlockNumbers {
  import opened Text

  /** One `assistant` line: the message it belongs to, if named, and how many blocks it carries. */
  datatype Line = Line(messageId: Option<string>, blocks: nat)

  function Named(messageId: Option<string>): string {
    if messageId.Some? then messageId.value else "msg"
  }

  /** The id a streamed delta of the current message gets. */
  function StreamedId(current: Option<string>, index: nat): string {
    BlockId(Named(current), index)
  }

  function Seen(counts: map<string, nat>, message: string): nat {
    if message in counts then counts[message] else 0
  }

  function Numbered(message: string, first: nat, blocks: nat): (ids: seq<string>)
    ensures |ids| == blocks && forall k :: 0 <= k < blocks ==> ids[k] == BlockId(message, first + k)
  {
    seq(blocks, k requires 0 <= k < blocks => BlockId(message, first + k))
  }

  /** Whether the session and a turn are known, the streaming message, and the blocks seen this turn. */
  datatype State = State(session: bool, turn: bool, current: Option<string>, counts: map<string, nat>)

  const INITIAL := State(false, false, None, map[])

  /**
   * What reaches the numbering: the session's first message, a prompt or slash command of the
   * client, the stream's events, whole lines, compactions, and results that are not repeated.
   */
  datatype Step =
    | SessionBegan
    | TurnBegan
    | MessageStart(id: Option<string>)
    | Delta(index: nat)
    | OtherStreamed
    | AssistantLine(line: Line)
    | Compacted
    | ResultTaken

  datatype Stepped = Stepped(state: State, ids: seq<string>)

  predicate FromStream(step: Step) {
    step.MessageStart? || step.Delta? || step.OtherStreamed? || step.AssistantLine?
  }

  /** A turn begins: the client's, or one made up for what streams outside any turn. */
  predicate OpensTurn(s: State, step: Step) {
    step.TurnBegan? || (FromStream(step) && s.session && !s.turn)
  }

  function Opened(s: State, step: Step): State {
    if OpensTurn(s, step) then s.(turn := true, current := None) else s
  }

  function Take(s: State, step: Step): Stepped {
    var o := Opened(s, step);
    match step
    case SessionBegan => Stepped(o.(session := true), [])
    case MessageStart(id) => Stepped(o.(current := id), [])
    case Delta(index) => Stepped(o, [StreamedId(o.current, index)])
    case AssistantLine(line) =>
      var message := Named(line.messageId);
      Stepped(o.(counts := After(o.counts, line)), Numbered(message, Seen(o.counts, message), line.blocks))
    case Compacted => Stepped(o.(current := None), [])
    case ResultTaken => Stepped(o.(turn := false, counts := map[]), [])
    case _ => Stepped(o, [])
  }

  class BlockCounter {
    var session: bool
    var turn: bool
    /** The message that streams, until a turn begins or a compaction ends. */
    var current: Option<string>
    /** How many blocks of each message were seen in the running turn. */
    var counts: map<string, nat>

    constructor ()
      ensures View() == INITIAL
    {
      session, turn, current, counts := false, false, None, map[];
    }

    function View(): State
      reads this
    {
      State(session, turn, current, counts)
    }

    method StartTurn()
      modifies this`turn, this`current
      ensures View() == Take(old(View()), TurnBegan).state
    {
      turn, current := true, None;
    }

    method SynthesizedTurnStarted(step: Step)
      requires FromStream(step)
      modifies this`turn, this`current
      ensures View() == Opened(old(View()), step)
    {
      if session && !turn {
        StartTurn();
      }
    }

    method OnMessageStart(id: Option<string>)
      modifies this`turn, this`current
      ensures View() == Take(old(View()), MessageStart(id)).state
    {
      SynthesizedTurnStarted(MessageStart(id));
      current := id;
    }

    method OnDelta(index: nat) returns (id: string)
      modifies this`turn, this`current
      ensures Stepped(View(), [id]) == Take(old(View()), Delta(index))
    {
      SynthesizedTurnStarted(Delta(index));
      id := StreamedId(current, index);
    }

    method OnAssistant(line: Line) returns (ids: seq<string>)
      modifies this`turn, this`current, this`counts
      ensures Stepped(View(), ids) == Take(old(View()), AssistantLine(line))
    {
      SynthesizedTurnStarted(AssistantLine(line));
      var message := Named(line.messageId);
      var first := Seen(counts, message);
      counts := counts[message := first + line.blocks];
      ids := [];
      for offset := 0 to line.blocks
        invariant ids == Numbered(message, first, offset)
      {
        ids := ids + [BlockId(message, first + offset)];
      }
    }

    method OnCompactBoundary()
      modifies this`current
      ensures View() == Take(old(View()), Compacted).state
    {
      current := None;
    }

    /** The counters can go with the turn; the streaming message is left as it is. */
    method OnResult()
      modifies this`turn, this`counts
      ensures View() == Take(old(View()), ResultTaken).state
    {
      turn, counts := false, map[];
    }
  }

  // ---------------------------------------------------------------- one turn's lines

  function After(counts: map<string, nat>, line: Line): map<string, nat> {
    var message := Named(line.messageId);
    counts[message := Seen(counts, message) + line.blocks]
  }

  function CountsAfter(lines: seq<Line>): map<string, nat> {
    if lines == [] then map[] else After(CountsAfter(lines[..|lines| - 1]), lines[|lines| - 1])
  }

  /** The ids one message's blocks get over a turn, in order. */
  function IdsOf(lines: seq<Line>, message: string): seq<string> {
    if lines == [] then []
    else
      var init, last := lines[..|lines| - 1], lines[|lines| - 1];
      if Named(last.messageId) == message then IdsOf(init, message) + Numbered(message, Seen(CountsAfter(init), message), last.blocks)
      else IdsOf(init, message)
  }

  /** How many blocks of a message a turn's lines carry. */
  function Blocks(lines: seq<Line>, message: string): nat {
    if lines == [] then 0
    else
      Blocks(lines[..|lines| - 1], message)
      + (if Named(lines[|lines| - 1].messageId) == message then lines[|lines| - 1].blocks else 0)
  }

  /**
   * However a turn's messages are split over lines and interleaved, the k-th block of a message
   * gets the id numbered k, as if the message had come on one line.
   */
  lemma {:induction false} SplittingDoesNotMatter(lines: seq<Line>, message: string)
    ensures IdsOf(lines, message) == Numbered(message, 0, Blocks(lines, message))
    ensures Seen(CountsAfter(lines), message) == Blocks(lines, message)
  {
    if lines != [] {
      SplittingDoesNotMatter(lines[..|lines| - 1], message);
    }
  }

  lemma DigitsAreNotColons(n: nat)
    ensures ':' !in Decimal(n)
  {
    DecimalValue(n);
    assert forall i :: 0 <= i < |Decimal(n)| ==> IsDigit(Decimal(n)[i]);
  }

  /** Block ids determine their message and their number, whatever characters message ids hold. */
  lemma BlockIdInjective(a: string, m: nat, b: string, n: nat)
    requires BlockId(a, m) == BlockId(b, n)
    ensures a == b && m == n
  {
    DigitsAreNotColons(m);
    DigitsAreNotColons(n);
    LastColon(a, Decimal(m), b, Decimal(n));
    DecimalInjective(m, n);
  }

  /** What follows the last colon. */
  function AfterColon(s: string): string {
    if s == [] || s[|s| - 1] == ':' then [] else AfterColon(s[..|s| - 1]) + [s[|s| - 1]]
  }

  lemma {:induction false} AfterColonIs(a: string, x: string)
    requires ':' !in x
    ensures AfterColon(a + ":" + x) == x
  {
    var s := a + ":" + x;
    if x != [] {
      assert x == x[..|x| - 1] + [x[|x| - 1]];
      assert s[..|s| - 1] == a + ":" + x[..|x| - 1];
      AfterColonIs(a, x[..|x| - 1]);
    }
  }

  lemma LastColon(a: string, x: string, b: string, y: string)
    requires a + ":" + x == b + ":" + y && ':' !in x && ':' !in y
    ensures a == b && x == y
  {
    AfterColonIs(a, x);
    AfterColonIs(b, y);
    assert (a + ":" + x)[..|a|] == a && (b + ":" + y)[..|b|] == b;
  }

  // ---------------------------------------------------------------- whole runs

  function Run(steps: seq<Step>): State {
    if steps == [] then INITIAL else Take(Run(steps[..|steps| - 1]), steps[|steps| - 1]).state
  }

  /** The ids a step gives when it comes after the others. */
  function Ids(steps: seq<Step>, step: Step): seq<string> {
    Take(Run(steps), step).ids
  }

  /** The lines since the last result. */
  function TurnLines(steps: seq<Step>): seq<Line> {
    if steps == [] then []
    else
      var init := TurnLines(steps[..|steps| - 1]);
      match steps[|steps| - 1]
      case ResultTaken => []
      case AssistantLine(line) => init + [line]
      case _ => init
  }

  lemma CountsSnoc(lines: seq<Line>, line: Line)
    ensures CountsAfter(lines + [line]) == After(CountsAfter(lines), line)
  {
    assert (lines + [line])[..|lines|] == lines;
  }

  lemma CountsStep(s: State, step: Step)
    ensures Take(s, step).state.counts
         == if step.ResultTaken? then map[] else if step.AssistantLine? then After(s.counts, step.line) else s.counts
  {
  }

  lemma {:induction false} CountsAreOfTurn(steps: seq<Step>)
    ensures Run(steps).counts == CountsAfter(TurnLines(steps))
  {
    if steps != [] {
      var init, last := steps[..|steps| - 1], steps[|steps| - 1];
      CountsAreOfTurn(init);
      CountsStep(Run(init), last);
      if last.AssistantLine? {
        CountsSnoc(TurnLines(init), last.line);
      }
    }
  }

  /** A block of a line is numbered after the blocks of its message on the turn's earlier lines. */
  lemma LineContinues(steps: seq<Step>, line: Line, offset: nat)
    requires offset < line.blocks
    ensures var message := Named(line.messageId);
      var ids := Ids(steps, AssistantLine(line));
      |ids| == line.blocks && ids[offset] == BlockId(message, Blocks(TurnLines(steps), message) + offset)
  {
    CountsAreOfTurn(steps);
    SplittingDoesNotMatter(TurnLines(steps), Named(line.messageId));
  }

  /** Among the steps after `start` a turn begins or a compaction ends. */
  predicate Disturbed(start: seq<Step>, more: seq<Step>) {
    more != [] &&
    (var init, last := more[..|more| - 1], more[|more| - 1];
     Disturbed(start, init) || last.Compacted? || OpensTurn(Run(start + init), last))
  }

  predicate NoMessageStart(steps: seq<Step>) {
    forall i :: 0 <= i < |steps| ==> !steps[i].MessageStart?
  }

  lemma RunSnoc(steps: seq<Step>, step: Step)
    ensures Run(steps + [step]) == Take(Run(steps), step).state
  {
    assert (steps + [step])[..|steps|] == steps;
  }

  /** The streaming message is remembered until the first disturbance, and then forgotten. */
  lemma {:induction false} CurrentUntilDisturbed(before: seq<Step>, message: string, more: seq<Step>)
    requires NoMessageStart(more)
    ensures var start := before + [MessageStart(Some(message))];
      Run(start + more).current == if Disturbed(start, more) then None else Some(message)
  {
    var start := before + [MessageStart(Some(message))];
    if more == [] {
      RunSnoc(before, MessageStart(Some(message)));
      assert start + [] == start;
    } else {
      var init, last := more[..|more| - 1], more[|more| - 1];
      CurrentUntilDisturbed(before, message, init);
      assert start + more == (start + init) + [last];
      RunSnoc(start + init, last);
    }
  }

  /** What a delta is numbered under. */
  lemma DeltaNames(before: seq<Step>, message: string, between: seq<Step>, index: nat)
    requires NoMessageStart(between)
    ensures var start := before + [MessageStart(Some(message))];
      var current := if Disturbed(start, between + [Delta(index)]) then None else Some(message);
      Ids(start + between, Delta(index)) == [StreamedId(current, index)]
  {
    var start, more := before + [MessageStart(Some(message))], between + [Delta(index)];
    CurrentUntilDisturbed(before, message, more);
    assert start + more == (start + between) + [Delta(index)];
    RunSnoc(start + between, Delta(index));
  }

  lemma SameId(current: Option<string>, index: nat, message: string, number: nat)
    ensures StreamedId(current, index) == BlockId(message, number) <==> Named(current) == message && index == number
  {
    if StreamedId(current, index) == BlockId(message, number) {
      BlockIdInjective(Named(current), index, message, number);
    }
  }

  /**
   * A delta of block k of message m gets the id m:k if and only if no turn began and no
   * compaction ended between m's start and the delta; a message named as the nameless ones are
   * cannot tell.
   */
  lemma DeltaIdIffUndisturbed(before: seq<Step>, message: string, between: seq<Step>, index: nat)
    requires NoMessageStart(between)
    ensures var start := before + [MessageStart(Some(message))];
      (Ids(start + between, Delta(index)) == [BlockId(message, index)]) <==>
      (message == Named(None) || !Disturbed(start, between + [Delta(index)]))
  {
    DeltaNames(before, message, between, index);
    SameId(None, index, message, index);
  }

  predicate Disturbs(step: Step) {
    step.TurnBegan? || step.Compacted? || step.ResultTaken?
  }

  predicate AnyDisturbs(steps: seq<Step>) {
    exists i :: 0 <= i < |steps| && Disturbs(steps[i])
  }

  lemma AnyDisturbsSnoc(steps: seq<Step>, step: Step)
    ensures AnyDisturbs(steps + [step]) <==> AnyDisturbs(steps) || Disturbs(step)
  {
    var all := steps + [step];
    assert all[|steps|] == step && forall i :: 0 <= i < |steps| ==> all[i] == steps[i];
    if AnyDisturbs(steps) {
      var i :| 0 <= i < |steps| && Disturbs(steps[i]);
      assert Disturbs(all[i]);
    }
  }

  /** In a session that has begun, what can disturb is a new turn, a compaction, or a result. */
  lemma {:induction false} DisturbedInSession(before: seq<Step>, message: string, more: seq<Step>)
    requires Run(before).session && NoMessageStart(more)
    ensures var start := before + [MessageStart(Some(message))];
      var s := Run(start + more);
      s.session && (AnyDisturbs(more) <==> Disturbed(start, more) || !s.turn)
  {
    var start := before + [MessageStart(Some(message))];
    if more == [] {
      RunSnoc(before, MessageStart(Some(message)));
      assert start + [] == start;
    } else {
      var init, last := more[..|more| - 1], more[|more| - 1];
      DisturbedInSession(before, message, init);
      assert start + more == (start + init) + [last];
      assert more == init + [last];
      RunSnoc(start + init, last);
      AnyDisturbsSnoc(init, last);
      DisturbedSnoc(start, init, last);
      TurnStep(Run(start + init), last);
    }
  }

  lemma DisturbedSnoc(start: seq<Step>, more: seq<Step>, last: Step)
    ensures Disturbed(start, more + [last]) <==> Disturbed(start, more) || last.Compacted? || OpensTurn(Run(start + more), last)
  {
    assert (more + [last])[..|more|] == more;
  }

  lemma TurnStep(s: State, step: Step)
    requires s.session && !step.MessageStart?
    ensures var next := Take(s, step).state;
      && next.session
      && (next.turn <==> !step.ResultTaken? && (s.turn || OpensTurn(s, step)))
      && (OpensTurn(s, step) ==> step.TurnBegan? || !s.turn)
      && (!s.turn && FromStream(step) ==> OpensTurn(s, step))
  {
  }

  /** So a delta keeps its message exactly when none of these steps lies in between. */
  lemma DeltaIdInSession(before: seq<Step>, message: string, between: seq<Step>, index: nat)
    requires Run(before).session && NoMessageStart(between)
    ensures (Ids(before + [MessageStart(Some(message))] + between, Delta(index)) == [BlockId(message, index)]) <==>
            (message == Named(None) || !AnyDisturbs(between))
  {
    var more := between + [Delta(index)];
    DeltaIdIffUndisturbed(before, message, between, index);
    DisturbedInSession(before, message, between);
    assert more[..|between|] == between;
  }

  /**
   * A completed block has the id of a streamed delta of its message if and only if it has the
   * delta's number and nothing disturbed the stream before the delta.
   */
  lemma CompletionsMatchDeltas(before: seq<Step>, message: string, between: seq<Step>, index: nat,
                               done: seq<Step>, line: Line, offset: nat)
    requires NoMessageStart(between) && Named(line.messageId) == message && offset < line.blocks
    ensures var start := before + [MessageStart(Some(message))];
      (Ids(start + between, Delta(index)) == [Ids(done, AssistantLine(line))[offset]]) <==>
      (index == Blocks(TurnLines(done), message) + offset
       && (message == Named(None) || !Disturbed(start, between + [Delta(index)])))
  {
    var number := Blocks(TurnLines(done), message) + offset;
    LineContinues(done, line, offset);
    DeltaNames(before, message, between, index);
    SameId(None, index, message, number);
    SameId(Some(message), index, message, number);
  }

  /** Clearing the goal while a message streams splits the block: later deltas name another item. */
  lemma ClearedGoalSplitsBlock(message: string)
    requires message != Named(None)
    ensures var streaming := [SessionBegan, TurnBegan] + [MessageStart(Some(message))] + [Delta(0)];
      var cleared := streaming + [TurnBegan];
      && Ids([SessionBegan, TurnBegan] + [MessageStart(Some(message))] + [], Delta(0)) == [BlockId(message, 0)]
      && Ids(cleared, Delta(0)) == [BlockId(Named(None), 0)] != [BlockId(message, 0)]
      && Ids(cleared, AssistantLine(Line(Some(message), 1))) == [BlockId(message, 0)]
  {
    var before := [SessionBegan] + [TurnBegan];
    assert before == [SessionBegan, TurnBegan];
    RunSnoc([SessionBegan], TurnBegan);
    RunSnoc([], SessionBegan);
    assert [] + [SessionBegan] == [SessionBegan];
    var start := before + [MessageStart(Some(message))];
    assert start + [Delta(0)] + [TurnBegan] == start + ([Delta(0)] + [TurnBegan]);
    DeltaIdInSession(before, message, [], 0);
    DeltaIdInSession(before, message, [Delta(0)] + [TurnBegan], 0);
    AnyDisturbsSnoc([Delta(0)], TurnBegan);
    RunSnoc(start + [Delta(0)], TurnBegan);
    LineContinues(start + [Delta(0)] + [TurnBegan], Line(Some(message), 1), 0);
    NoLinesYet(message);
  }

  lemma NoLinesYet(message: string)
    ensures TurnLines([SessionBegan, TurnBegan] + [MessageStart(Some(message))] + [Delta(0)] + [TurnBegan]) == []
  {
    var steps := [SessionBegan, TurnBegan] + [MessageStart(Some(message))] + [Delta(0)] + [TurnBegan];
    assert steps == [SessionBegan, TurnBegan, MessageStart(Some(message)), Delta(0), TurnBegan];
    QuietTurn(steps);
  }

  lemma {:induction false} QuietTurn(steps: seq<Step>)
    requires forall i :: 0 <= i < |steps| ==> !steps[i].AssistantLine?
    ensures TurnLines(steps) == []
  {
    if steps != [] {
      QuietTurn(steps[..|steps| - 1]);
    }
  }
}
