/**
 * Incremental readers of growing transcripts (crates/agent/src/subagent_tail.rs, `TailReader`;
 * crates/agent/src/claude_goal.rs, `GoalTranscript`).
 */
module LineReaders {
  import opened Text
  import opened ByteLines
  import opened Events
  import opened Transcript

  // ---------------------------------------------------------------- reading from an offset

  /** Where a read starts: the offset, or the beginning once the file has become shorter. */
  function ReadStart(file: seq<Byte>, offset: nat): (start: nat)
    ensures start <= |file|
  {
    if |file| < offset then 0 else offset
  }

  /** The finished lines a read takes. */
  function NewLines(file: seq<Byte>, offset: nat): seq<seq<Byte>> {
    Complete(file[ReadStart(file, offset)..])
  }

  /** Where the next read starts: behind the last newline. */
  function NextOffset(file: seq<Byte>, offset: nat): (next: nat)
    ensures next <= |file|
  {
    UnfinishedHasNoNewline(file[ReadStart(file, offset)..]);
    |file| - |Unfinished(file[ReadStart(file, offset)..])|
  }

  /** Offset 0 or just behind a newline. */
  predicate AtLineStart(file: seq<Byte>, offset: nat) {
    offset == 0 || (offset <= |file| && file[offset - 1] == NEWLINE)
  }

  // ---------------------------------------------------------------- the transcript tail

  /** Decode a line, skipping what is not a record, and map it. */
  function MapLine(s: State, parent: string, line: seq<Byte>, decode: seq<Byte> -> Option<Record>): Mapped {
    var record := decode(line);
    if record.Some? then MapRecord(s, parent, record.value) else Mapped(s, [])
  }

  function MapLines(s: State, parent: string, lines: seq<seq<Byte>>, decode: seq<Byte> -> Option<Record>): Mapped
    decreases |lines|
  {
    if lines == [] then Mapped(s, [])
    else
      var first := MapLine(s, parent, lines[0], decode);
      var rest := MapLines(first.state, parent, lines[1..], decode);
      Mapped(rest.state, first.events + rest.events)
  }

  /** What remains to be emitted, behind what was emitted already. */
  function After(events: seq<Event>, m: Mapped): Mapped {
    Mapped(m.state, events + m.events)
  }

  lemma AfterMore(events: seq<Event>, more: seq<Event>, m: Mapped)
    ensures After(events, After(more, m)) == After(events + more, m)
    ensures After(events, Mapped(m.state, [])) == Mapped(m.state, events)
    ensures After([], m) == m
  {
    assert events + (more + m.events) == (events + more) + m.events;
    assert [] + m.events == m.events;
  }

  class TailReader {
    var offset: nat
    const mapper: TranscriptMapper
    const decode: seq<Byte> -> Option<Record>

    constructor (parent: string, decode: seq<Byte> -> Option<Record>)
      ensures fresh(mapper) && mapper.parent == parent && this.decode == decode
      ensures offset == 0 && mapper.View() == INITIAL
    {
      offset := 0;
      mapper := new TranscriptMapper(parent);
      this.decode := decode;
    }

    /** `file` is what the file holds while it is read; the read succeeds. */
    method ReadAppended(file: seq<Byte>) returns (events: seq<Event>)
      modifies this, mapper
      ensures offset == NextOffset(file, old(offset))
      ensures Mapped(mapper.View(), events)
           == MapLines(old(mapper.View()), mapper.parent, NewLines(file, old(offset)), decode)
    {
      if |file| < offset {
        offset := 0;
      }
      var rest := file[offset..];
      ghost var all, was := rest, mapper.View();
      events := [];
      AfterMore([], [], MapLines(was, mapper.parent, Complete(all), decode));
      while LineLength(rest) < |rest|
        invariant offset + |rest| == |file| && Unfinished(all) == Unfinished(rest)
        invariant MapLines(was, mapper.parent, Complete(all), decode)
          == After(events, MapLines(mapper.View(), mapper.parent, Complete(rest), decode))
        decreases |rest|
      {
        ghost var mapped := MapLine(mapper.View(), mapper.parent, FirstLine(rest), decode);
        LineFirst(rest);
        AfterMore(events, mapped.events, MapLines(mapped.state, mapper.parent, Complete(AfterLine(rest)), decode));
        offset := offset + LineLength(rest) + 1;
        var record := decode(FirstLine(rest));
        var emitted: seq<Event> := [];
        if record.Some? {
          emitted := mapper.MapValue(record.value);
        }
        assert mapped == Mapped(mapper.View(), emitted);
        events := events + emitted;
        rest := AfterLine(rest);
      }
      // The end of the file, or a line still being written: it is read again once it is complete.
      AfterMore(events, [], Mapped(mapper.View(), []));
    }
  }

  lemma LineFirst(s: seq<Byte>)
    requires LineLength(s) < |s|
    ensures Complete(s) != [] && Complete(s)[0] == FirstLine(s) && Complete(s)[1..] == Complete(AfterLine(s))
    ensures Unfinished(s) == Unfinished(AfterLine(s))
  {
  }

  // ---------------------------------------------------------------- any sequence of reads

  /** One poll: what the file holds, and whether the model seen is taken afterwards. */
  datatype Poll = Poll(file: seq<Byte>, takeModel: bool)

  /** The reader, what it emitted, and the model last taken from it. */
  datatype Tail = Tail(offset: nat, state: State, events: seq<Event>, taken: Option<ModelSeen>)

  function ReadOnce(t: Tail, parent: string, poll: Poll, decode: seq<Byte> -> Option<Record>): Tail {
    var m := MapLines(t.state, parent, NewLines(poll.file, t.offset), decode);
    var state := if poll.takeModel then m.state.(model := None) else m.state;
    Tail(NextOffset(poll.file, t.offset), state, t.events + m.events, if poll.takeModel then OrElse(m.state.model, t.taken) else t.taken)
  }

  function ReadAll(parent: string, polls: seq<Poll>, decode: seq<Byte> -> Option<Record>): Tail {
    if polls == [] then Tail(0, INITIAL, [], None)
    else ReadOnce(ReadAll(parent, polls[..|polls| - 1], decode), parent, polls[|polls| - 1], decode)
  }

  /** The file only grows from poll to poll. */
  predicate Growing(polls: seq<Poll>) {
    forall i :: 0 < i < |polls| ==> IsPrefix(polls[i - 1].file, polls[i].file)
  }

  lemma NoModelInBlocks(s: State, parent: string, record: Record)
    ensures var a, b := MapRecord(s, parent, record), MapRecord(s.(model := None), parent, record);
      a.events == b.events && a.state.(model := None) == b.state.(model := None)
  {
    if !(record.OtherRecord? || record.skipped) && record.blocks.Some? {
      var none := s.(model := None);
      if record.Assistant? {
        if record.seen.Some? {
          ModelUnusedAssistant(s.(model := record.seen), record.seen, parent, record.messageId, record.blocks.value);
        } else {
          ModelUnusedAssistant(s, None, parent, record.messageId, record.blocks.value);
        }
      } else {
        ModelUnusedUser(s, None, parent, record.asyncLaunched, record.blocks.value);
      }
    }
  }

  lemma {:induction false} ModelUnusedAssistant(s: State, model: Option<ModelSeen>, parent: string, messageId: string, blocks: seq<Block>)
    ensures var a, b := AssistantBlocks(s, parent, messageId, blocks), AssistantBlocks(s.(model := model), parent, messageId, blocks);
      a.events == b.events && b.state == a.state.(model := model)
  {
    if blocks != [] {
      ModelUnusedAssistant(s, model, parent, messageId, blocks[..|blocks| - 1]);
    }
  }

  lemma {:induction false} ModelUnusedUser(s: State, model: Option<ModelSeen>, parent: string, asyncLaunched: bool, blocks: seq<Block>)
    ensures var a, b := UserBlocks(s, parent, asyncLaunched, blocks), UserBlocks(s.(model := model), parent, asyncLaunched, blocks);
      a.events == b.events && b.state == a.state.(model := model)
  {
    if blocks != [] {
      ModelUnusedUser(s, model, parent, asyncLaunched, blocks[..|blocks| - 1]);
    }
  }

  /** Taking the model changes nothing else the mapper does. */
  lemma {:induction false} ModelUnused(s: State, t: State, parent: string, lines: seq<seq<Byte>>, decode: seq<Byte> -> Option<Record>)
    requires s.(model := None) == t.(model := None)
    ensures var a, b := MapLines(s, parent, lines, decode), MapLines(t, parent, lines, decode);
      a.events == b.events && a.state.(model := None) == b.state.(model := None)
    decreases |lines|
  {
    if lines != [] {
      var record := decode(lines[0]);
      if record.Some? {
        NoModelInBlocks(s, parent, record.value);
        NoModelInBlocks(t, parent, record.value);
      }
      ModelUnused(MapLine(s, parent, lines[0], decode).state, MapLine(t, parent, lines[0], decode).state, parent, lines[1..], decode);
    }
  }

  lemma {:induction false} MapLinesAppend(s: State, parent: string, a: seq<seq<Byte>>, b: seq<seq<Byte>>, decode: seq<Byte> -> Option<Record>)
    ensures var first := MapLines(s, parent, a, decode);
      var second := MapLines(first.state, parent, b, decode);
      MapLines(s, parent, a + b, decode) == After(first.events, second)
    decreases |a|
  {
    if a == [] {
      assert a + b == b;
      AfterMore([], [], MapLines(s, parent, b, decode));
    } else {
      var m := MapLine(s, parent, a[0], decode);
      MapLinesAppend(m.state, parent, a[1..], b, decode);
      assert (a + b)[1..] == a[1..] + b;
      var rest := MapLines(m.state, parent, a[1..], decode);
      AfterMore(m.events, rest.events, MapLines(rest.state, parent, b, decode));
    }
  }

  /** The model the last of the lines to name one names. */
  function LastSeen(lines: seq<seq<Byte>>, decode: seq<Byte> -> Option<Record>): Option<ModelSeen>
    decreases |lines|
  {
    if lines == [] then None
    else
      var record := decode(lines[0]);
      OrElse(LastSeen(lines[1..], decode),
             if record.Some? && record.value.Assistant? && !record.value.skipped then record.value.seen else None)
  }

  lemma RecordNotesModel(s: State, parent: string, record: Record)
    ensures MapRecord(s, parent, record).state.model
         == OrElse(if record.Assistant? && !record.skipped then record.seen else None, s.model)
  {
    if !(record.OtherRecord? || record.skipped) && record.blocks.Some? {
      if record.Assistant? {
        var noted := if record.seen.Some? then s.(model := record.seen) else s;
        ModelUnusedAssistant(noted, noted.model, parent, record.messageId, record.blocks.value);
      } else {
        ModelUnusedUser(s, s.model, parent, record.asyncLaunched, record.blocks.value);
      }
    }
  }

  lemma {:induction false} NotedIsLastSeen(s: State, parent: string, lines: seq<seq<Byte>>, decode: seq<Byte> -> Option<Record>)
    ensures MapLines(s, parent, lines, decode).state.model == OrElse(LastSeen(lines, decode), s.model)
    decreases |lines|
  {
    if lines != [] {
      var record := decode(lines[0]);
      if record.Some? {
        RecordNotesModel(s, parent, record.value);
      }
      NotedIsLastSeen(MapLine(s, parent, lines[0], decode).state, parent, lines[1..], decode);
    }
  }

  lemma {:induction false} LastSeenAppend(a: seq<seq<Byte>>, b: seq<seq<Byte>>, decode: seq<Byte> -> Option<Record>)
    ensures LastSeen(a + b, decode) == OrElse(LastSeen(b, decode), LastSeen(a, decode))
    decreases |a|
  {
    if a == [] {
      assert a + b == b;
    } else {
      assert (a + b)[1..] == a[1..] + b;
      LastSeenAppend(a[1..], b, decode);
    }
  }

  /** No model is lost: the one noted, or else the last one taken, is the last one seen. */
  lemma NoModelIsLost(t: Tail, parent: string, poll: Poll, lines: seq<seq<Byte>>, decode: seq<Byte> -> Option<Record>)
    requires OrElse(t.state.model, t.taken) == LastSeen(lines, decode)
    ensures var next := ReadOnce(t, parent, poll, decode);
      OrElse(next.state.model, next.taken) == LastSeen(lines + NewLines(poll.file, t.offset), decode)
  {
    NotedIsLastSeen(t.state, parent, NewLines(poll.file, t.offset), decode);
    LastSeenAppend(lines, NewLines(poll.file, t.offset), decode);
  }

  /** Where a file's unfinished line starts. */
  function LineStart(file: seq<Byte>): (start: nat)
    ensures start <= |file|
  {
    UnfinishedHasNoNewline(file);
    |file| - |Unfinished(file)|
  }

  lemma GrownAt(head: seq<Byte>, tail: seq<Byte>, before: seq<Byte>, file: seq<Byte>)
    requires before == head + tail && IsPrefix(before, file)
    ensures file == before + file[|before|..]
    ensures file[|head|..] == tail + file[|before|..]
  {
    AppendKeepsSuffix(head, tail, file);
  }

  lemma LineStartIs(file: seq<Byte>, head: seq<Byte>)
    requires file == head + Unfinished(file)
    ensures LineStart(file) == |head|
  {
  }

  lemma GrownRest(before: seq<Byte>, file: seq<Byte>)
    requires IsPrefix(before, file)
    ensures file == before + file[|before|..]
    ensures file[LineStart(before)..] == Unfinished(before) + file[|before|..]
  {
    var head := UnfinishedIsSuffix(before);
    GrownAt(head, Unfinished(before), before, file);
    LineStartIs(before, head);
  }

  /** A read that starts where the previous file's unfinished line starts continues it exactly. */
  lemma ReadContinues(before: seq<Byte>, file: seq<Byte>)
    requires IsPrefix(before, file)
    ensures Complete(file) == Complete(before) + NewLines(file, LineStart(before))
    ensures NextOffset(file, LineStart(before)) == LineStart(file)
  {
    GrownRest(before, file);
    CompleteAppend(before, file[|before|..]);
  }

  lemma FirstRead(file: seq<Byte>)
    ensures NewLines(file, 0) == Complete(file) && NextOffset(file, 0) == LineStart(file)
  {
    assert file[0..] == file;
  }

  lemma LineStartIsAligned(file: seq<Byte>)
    ensures AtLineStart(file, LineStart(file))
  {
    var head := UnfinishedIsSuffix(file);
    LineStartIs(file, head);
  }

  /**
   * However often a growing transcript is read, and whether or not models are taken in between,
   * the events and the mapper's state are those of one pass over its finished lines; the model
   * the pass ends with is the one still noted or else the last one taken. The offset stands at 0
   * or just behind a newline, in front of the unfinished line.
   */
  lemma {:induction false} ReadsAreOnePass(parent: string, polls: seq<Poll>, decode: seq<Byte> -> Option<Record>)
    requires polls != [] && Growing(polls)
    ensures var file, t := polls[|polls| - 1].file, ReadAll(parent, polls, decode);
      var once := MapLines(INITIAL, parent, Complete(file), decode);
      && t.events == once.events
      && t.state.(model := None) == once.state.(model := None)
      && OrElse(t.state.model, t.taken) == once.state.model
      && t.offset == LineStart(file) && AtLineStart(file, t.offset)
  {
    var n := |polls| - 1;
    var file, init := polls[n].file, polls[..n];
    LineStartIsAligned(file);
    NotedIsLastSeen(INITIAL, parent, Complete(file), decode);
    if n == 0 {
      FirstRead(file);
      AfterMore([], [], MapLines(INITIAL, parent, Complete(file), decode));
      NoModelIsLost(ReadAll(parent, init, decode), parent, polls[n], [], decode);
      assert [] + NewLines(file, 0) == NewLines(file, 0);
    } else {
      ReadsAreOnePass(parent, init, decode);
      var before := polls[n - 1].file;
      assert init[|init| - 1] == polls[n - 1] && IsPrefix(polls[n - 1].file, polls[n].file);
      ReadContinues(before, file);
      ContinuedPass(ReadAll(parent, init, decode), parent, Complete(before), NewLines(file, LineStart(before)), decode);
      NotedIsLastSeen(INITIAL, parent, Complete(before), decode);
      NoModelIsLost(ReadAll(parent, init, decode), parent, polls[n], Complete(before), decode);
    }
  }

  /** A pass taken up from a state without its model ends as the pass over all lines does. */
  lemma ContinuedPass(t: Tail, parent: string, a: seq<seq<Byte>>, b: seq<seq<Byte>>, decode: seq<Byte> -> Option<Record>)
    requires var first := MapLines(INITIAL, parent, a, decode);
      t.events == first.events && t.state.(model := None) == first.state.(model := None)
    ensures var once, more := MapLines(INITIAL, parent, a + b, decode), MapLines(t.state, parent, b, decode);
      t.events + more.events == once.events && more.state.(model := None) == once.state.(model := None)
  {
    MapLinesAppend(INITIAL, parent, a, b, decode);
    ModelUnused(t.state, MapLines(INITIAL, parent, a, decode).state, parent, b, decode);
  }

  // ---------------------------------------------------------------- the goal transcript

  datatype GoalStatus = Active | Blocked | Complete_

  datatype Goal = Goal(objective: string, status: GoalStatus, tokensUsed: Option<nat>, timeUsedSecs: Option<nat>,
                       checks: Option<nat>, lastCheck: Option<string>)

  /** A decoded `goal_status` attachment. */
  datatype GoalRecord = GoalRecord(objective: string, sentinel: bool, met: bool, failed: bool, reason: Option<string>,
                                   tokens: Option<nat>, durationMs: Option<nat>, iterations: Option<nat>)

  const U32_MAX: nat := 0xFFFF_FFFF

  function Fold(goal: Option<Goal>, r: GoalRecord, live: bool): Option<Goal> {
    if r.sentinel then
      if r.met then None else Some(Goal(r.objective, Active, None, None, Some(0), None))
    else if r.met || r.failed then
      if !live then None
      else Some(Goal(r.objective, if r.failed then Blocked else Complete_, r.tokens,
                     if r.durationMs.Some? then Some(r.durationMs.value / 1000) else None,
                     if r.iterations.Some? && r.iterations.value <= U32_MAX then r.iterations else None,
                     r.reason))
    else
      var counted := if goal.Some? && goal.value.objective == r.objective && goal.value.checks.Some?
                     then goal.value.checks.value else 0;
      Some(Goal(r.objective, Active, None, None, Some(counted + 1), r.reason))
  }

  function FoldLines(goal: Option<Goal>, lines: seq<seq<Byte>>, decode: seq<Byte> -> Option<GoalRecord>, live: bool): Option<Goal>
    decreases |lines|
  {
    if lines == [] then goal
    else
      var record := decode(lines[0]);
      FoldLines(if record.Some? then Fold(goal, record.value, live) else goal, lines[1..], decode, live)
  }

  predicate Over(goal: Option<Goal>) {
    goal.Some? && goal.value.status != Active
  }

  class GoalTranscript {
    var offset: nat
    var history: bool
    var goal: Option<Goal>
    const decode: seq<Byte> -> Option<GoalRecord>

    constructor (resumed: bool, decode: seq<Byte> -> Option<GoalRecord>)
      ensures offset == 0 && history == resumed && goal == None && this.decode == decode
    {
      offset, history, goal := 0, resumed, None;
      this.decode := decode;
    }

    method Dismiss()
      modifies this`goal
      ensures goal == None
    {
      goal := None;
    }

    /** Clearing a goal that is over only dismisses it here; any other goal is left to the provider. */
    method ClearGoal() returns (dismissed: bool)
      modifies this`goal
      ensures dismissed == Over(old(goal))
      ensures goal == if dismissed then None else old(goal)
    {
      dismissed := goal.Some? && (goal.value.status == Complete_ || goal.value.status == Blocked);
      if dismissed {
        Dismiss();
      }
    }

    /** `file` is absent while the transcript does not exist yet. The answer is the goal if it changed. */
    method ReadAppended(file: Option<seq<Byte>>) returns (changed: Option<Option<Goal>>)
      modifies this
      ensures file.None? ==> changed == None && offset == old(offset) && history == old(history) && goal == old(goal)
      ensures file.Some? ==>
        && offset == NextOffset(file.value, old(offset)) && !history
        && goal == FoldLines(old(goal), NewLines(file.value, old(offset)), decode, !old(history))
      ensures changed == if goal == old(goal) then None else Some(goal)
    {
      if file.None? {
        return None;
      }
      var bytes := file.value;
      var before, live := goal, !history;
      if |bytes| < offset {
        offset := 0;
      }
      var rest := bytes[offset..];
      ghost var all := rest;
      while LineLength(rest) < |rest|
        invariant offset + |rest| == |bytes| && Unfinished(all) == Unfinished(rest)
        invariant FoldLines(before, Complete(all), decode, live) == FoldLines(goal, Complete(rest), decode, live)
        decreases |rest|
      {
        LineFirst(rest);
        offset := offset + LineLength(rest) + 1;
        var record := decode(FirstLine(rest));
        if record.Some? {
          goal := Fold(goal, record.value, live);
        }
        rest := AfterLine(rest);
      }
      history := false;
      changed := if goal == before then None else Some(goal);
    }
  }

  datatype GoalState = GoalState(offset: nat, history: bool, goal: Option<Goal>, shown: Option<Goal>)

  /** A successful read, or the user clearing the goal. */
  datatype GoalStep = Read(file: seq<Byte>) | Cleared

  /** `shown` is what the emitted changes have told so far. */
  function GoalTake(g: GoalState, step: GoalStep, decode: seq<Byte> -> Option<GoalRecord>): GoalState {
    match step
    case Read(file) =>
      var goal := FoldLines(g.goal, NewLines(file, g.offset), decode, !g.history);
      GoalState(NextOffset(file, g.offset), false, goal, if goal == g.goal then g.shown else goal)
    case Cleared => if Over(g.goal) then g.(goal := None, shown := None) else g
  }

  function GoalRun(resumed: bool, steps: seq<GoalStep>, decode: seq<Byte> -> Option<GoalRecord>): GoalState {
    if steps == [] then GoalState(0, resumed, None, None)
    else GoalTake(GoalRun(resumed, steps[..|steps| - 1], decode), steps[|steps| - 1], decode)
  }

  function FirstFile(steps: seq<GoalStep>): Option<seq<Byte>> {
    if steps == [] then None
    else OrElse(FirstFile(steps[..|steps| - 1]), if steps[|steps| - 1].Read? then Some(steps[|steps| - 1].file) else None)
  }

  function LastFile(steps: seq<GoalStep>): Option<seq<Byte>> {
    if steps == [] then None
    else if steps[|steps| - 1].Read? then Some(steps[|steps| - 1].file) else LastFile(steps[..|steps| - 1])
  }

  /** The file only grows from read to read. */
  predicate GrowingReads(steps: seq<GoalStep>) {
    steps == [] ||
    (var init, last := steps[..|steps| - 1], steps[|steps| - 1];
     GrowingReads(init) && (last.Read? && LastFile(init).Some? ==> IsPrefix(LastFile(init).value, last.file)))
  }

  /** What had been read when a goal that was over was last cleared. */
  function ClearedAt(resumed: bool, steps: seq<GoalStep>, decode: seq<Byte> -> Option<GoalRecord>): Option<seq<Byte>> {
    if steps == [] then None
    else
      var init := steps[..|steps| - 1];
      if steps[|steps| - 1].Cleared? && Over(GoalRun(resumed, init, decode).goal) then LastFile(init)
      else ClearedAt(resumed, init, decode)
  }

  lemma {:induction false} FoldAppend(goal: Option<Goal>, a: seq<seq<Byte>>, b: seq<seq<Byte>>, decode: seq<Byte> -> Option<GoalRecord>, live: bool)
    ensures FoldLines(goal, a + b, decode, live) == FoldLines(FoldLines(goal, a, decode, live), b, decode, live)
    decreases |a|
  {
    if a == [] {
      assert a + b == b;
    } else {
      var record := decode(a[0]);
      FoldAppend(if record.Some? then Fold(goal, record.value, live) else goal, a[1..], b, decode, live);
      assert (a + b)[1..] == a[1..] + b;
    }
  }

  lemma CancelPrefix(a: seq<seq<Byte>>, b: seq<seq<Byte>>, c: seq<seq<Byte>>, d: seq<seq<Byte>>)
    requires a + b == (a + c) + d
    ensures b == c + d
  {
    assert b == (a + b)[|a|..];
    assert c + d == ((a + c) + d)[|a|..];
  }

  /** The lines behind the first read, when the file grew in between. */
  lemma LaterLines(first: seq<Byte>, before: seq<Byte>, file: seq<Byte>)
    requires IsPrefix(first, before) && IsPrefix(before, file)
    ensures IsPrefix(first, file)
    ensures NewLines(file, LineStart(first)) == NewLines(before, LineStart(first)) + NewLines(file, LineStart(before))
  {
    assert file[..|first|] == file[..|before|][..|first|];
    ReadContinues(first, before);
    ReadContinues(before, file);
    ReadContinues(first, file);
    CancelPrefix(Complete(first), NewLines(file, LineStart(first)),
                 NewLines(before, LineStart(first)), NewLines(file, LineStart(before)));
  }

  /** The goal a pass over the rest of the file starts from, and the file up to there. */
  datatype Anchor = Anchor(goal: Option<Goal>, file: seq<Byte>)

  function AnchorOf(resumed: bool, steps: seq<GoalStep>, decode: seq<Byte> -> Option<GoalRecord>): Anchor
    requires FirstFile(steps).Some?
  {
    var cleared := ClearedAt(resumed, steps, decode);
    if cleared.Some? then Anchor(None, cleared.value)
    else Anchor(FoldLines(None, Complete(FirstFile(steps).value), decode, !resumed), FirstFile(steps).value)
  }

  /** The goal is a live pass over what follows the anchor. */
  ghost predicate FoldsFrom(anchor: Anchor, file: seq<Byte>, goal: Option<Goal>, decode: seq<Byte> -> Option<GoalRecord>) {
    IsPrefix(anchor.file, file) && goal == FoldLines(anchor.goal, NewLines(file, LineStart(anchor.file)), decode, true)
  }

  lemma FoldsFromHere(anchor: Anchor, decode: seq<Byte> -> Option<GoalRecord>)
    ensures FoldsFrom(anchor, anchor.file, anchor.goal, decode)
  {
    ReadContinues(anchor.file, anchor.file);
    assert |NewLines(anchor.file, LineStart(anchor.file))| == 0;
  }

  lemma FoldsOn(anchor: Anchor, before: seq<Byte>, file: seq<Byte>, goal: Option<Goal>, decode: seq<Byte> -> Option<GoalRecord>)
    requires FoldsFrom(anchor, before, goal, decode) && IsPrefix(before, file)
    ensures FoldsFrom(anchor, file, FoldLines(goal, NewLines(file, LineStart(before)), decode, true), decode)
  {
    LaterLines(anchor.file, before, file);
    FoldAppend(anchor.goal, NewLines(before, LineStart(anchor.file)), NewLines(file, LineStart(before)), decode, true);
  }

  lemma {:induction false} BeforeAnyRead(resumed: bool, steps: seq<GoalStep>, decode: seq<Byte> -> Option<GoalRecord>)
    requires LastFile(steps).None?
    ensures GoalRun(resumed, steps, decode) == GoalState(0, resumed, None, None)
    ensures FirstFile(steps).None? && ClearedAt(resumed, steps, decode).None?
  {
    if steps != [] {
      BeforeAnyRead(resumed, steps[..|steps| - 1], decode);
    }
  }

  /** What the goal reader has made of the last file it read. */
  ghost predicate GoalIsFold(g: GoalState, anchor: Anchor, file: seq<Byte>, decode: seq<Byte> -> Option<GoalRecord>) {
    && FoldsFrom(anchor, file, g.goal, decode)
    && g.shown == g.goal && !g.history
    && g.offset == LineStart(file) && AtLineStart(file, g.offset)
  }

  lemma FirstGoalRead(resumed: bool, file: seq<Byte>, decode: seq<Byte> -> Option<GoalRecord>)
    ensures GoalIsFold(GoalTake(GoalState(0, resumed, None, None), Read(file), decode),
                       Anchor(FoldLines(None, Complete(file), decode, !resumed), file), file, decode)
  {
    FirstRead(file);
    LineStartIsAligned(file);
    FoldsFromHere(Anchor(FoldLines(None, Complete(file), decode, !resumed), file), decode);
  }

  lemma NextGoalRead(g: GoalState, anchor: Anchor, before: seq<Byte>, file: seq<Byte>, decode: seq<Byte> -> Option<GoalRecord>)
    requires GoalIsFold(g, anchor, before, decode) && IsPrefix(before, file)
    ensures GoalIsFold(GoalTake(g, Read(file), decode), anchor, file, decode)
  {
    ReadContinues(before, file);
    LineStartIsAligned(file);
    FoldsOn(anchor, before, file, g.goal, decode);
  }

  lemma GoalCleared(g: GoalState, anchor: Anchor, file: seq<Byte>, decode: seq<Byte> -> Option<GoalRecord>)
    requires GoalIsFold(g, anchor, file, decode)
    ensures GoalIsFold(GoalTake(g, Cleared, decode), if Over(g.goal) then Anchor(None, file) else anchor, file, decode)
  {
    FoldsFromHere(Anchor(None, file), decode);
  }

  /** How one more step moves the anchor. */
  lemma AnchorSnoc(resumed: bool, steps: seq<GoalStep>, step: GoalStep, decode: seq<Byte> -> Option<GoalRecord>)
    requires FirstFile(steps).Some? && LastFile(steps).Some?
    ensures FirstFile(steps + [step]).Some?
    ensures LastFile(steps + [step]) == if step.Read? then Some(step.file) else LastFile(steps)
    ensures AnchorOf(resumed, steps + [step], decode)
         == if step.Cleared? && Over(GoalRun(resumed, steps, decode).goal) then Anchor(None, LastFile(steps).value)
            else AnchorOf(resumed, steps, decode)
  {
    assert (steps + [step])[..|steps|] == steps;
  }

  lemma FirstAnchor(resumed: bool, steps: seq<GoalStep>, file: seq<Byte>, decode: seq<Byte> -> Option<GoalRecord>)
    requires LastFile(steps).None?
    ensures FirstFile(steps + [Read(file)]) == Some(file)
    ensures AnchorOf(resumed, steps + [Read(file)], decode) == Anchor(FoldLines(None, Complete(file), decode, !resumed), file)
  {
    BeforeAnyRead(resumed, steps, decode);
    assert (steps + [Read(file)])[..|steps|] == steps;
  }

  /**
   * Only the first read decides what is history. The goal is the fold of that read's finished
   * lines, as history when the session was resumed, and of all later lines as live; once a goal
   * that was over has been cleared, it is the fold of the lines behind that point alone. The
   * changes reported along the way always add up to the goal itself.
   */
  lemma {:induction false} GoalReadsAreTwoPasses(resumed: bool, steps: seq<GoalStep>, decode: seq<Byte> -> Option<GoalRecord>)
    requires LastFile(steps).Some? && GrowingReads(steps)
    ensures FirstFile(steps).Some?
    ensures GoalIsFold(GoalRun(resumed, steps, decode), AnchorOf(resumed, steps, decode), LastFile(steps).value, decode)
  {
    var init, last := steps[..|steps| - 1], steps[|steps| - 1];
    assert steps == init + [last];
    var g, before := GoalRun(resumed, init, decode), LastFile(init);
    if before.None? {
      BeforeAnyRead(resumed, init, decode);
      FirstAnchor(resumed, init, last.file, decode);
      FirstGoalRead(resumed, last.file, decode);
    } else {
      GoalReadsAreTwoPasses(resumed, init, decode);
      AnchorSnoc(resumed, init, last, decode);
      if last.Read? {
        NextGoalRead(g, AnchorOf(resumed, init, decode), before.value, last.file, decode);
      } else {
        GoalCleared(g, AnchorOf(resumed, init, decode), before.value, decode);
      }
    }
  }

  /** A session that was not resumed sees exactly one live pass, behind the last goal cleared if any. */
  lemma FreshGoalReadsAreOnePass(steps: seq<GoalStep>, decode: seq<Byte> -> Option<GoalRecord>)
    requires LastFile(steps).Some? && GrowingReads(steps)
    ensures var file, cleared := LastFile(steps).value, ClearedAt(false, steps, decode);
      GoalRun(false, steps, decode).goal
      == FoldLines(None, if cleared.Some? then NewLines(file, LineStart(cleared.value)) else Complete(file), decode, true)
  {
    GoalReadsAreTwoPasses(false, steps, decode);
    var first, file := FirstFile(steps).value, LastFile(steps).value;
    if ClearedAt(false, steps, decode).None? {
      ReadContinues(first, file);
      FoldAppend(None, Complete(first), NewLines(file, LineStart(first)), decode, true);
    }
  }

  // ---------------------------------------------------------------- what the goal tells

  /** The goal records among the lines. */
  function Records(lines: seq<seq<Byte>>, decode: seq<Byte> -> Option<GoalRecord>): seq<GoalRecord> {
    if lines == [] then []
    else
      var init, record := Records(lines[..|lines| - 1], decode), decode(lines[|lines| - 1]);
      if record.Some? then init + [record.value] else init
  }

  predicate Ends(r: GoalRecord) {
    !r.sentinel && (r.met || r.failed)
  }

  /** An unmet check of this objective. */
  predicate Checks(r: GoalRecord, objective: string) {
    !r.sentinel && !r.met && !r.failed && r.objective == objective
  }

  function Small(iterations: Option<nat>): nat {
    if iterations.Some? && iterations.value <= U32_MAX then iterations.value else 0
  }

  /** What the count of checks of an objective starts from, behind these records. */
  function CountBefore(records: seq<GoalRecord>, before: Option<Goal>, objective: string, live: bool): nat {
    if records == [] then
      if before.Some? && before.value.objective == objective then before.value.checks.UnwrapOr(0) else 0
    else
      var last := records[|records| - 1];
      if Ends(last) && live && last.objective == objective then Small(last.iterations) else 0
  }

  /** How many of the last records are unmet checks of the objective. */
  function LastChecks(records: seq<GoalRecord>, objective: string): (n: nat)
    ensures n <= |records|
    ensures forall i :: |records| - n <= i < |records| ==> Checks(records[i], objective)
    ensures n < |records| ==> !Checks(records[|records| - n - 1], objective)
  {
    if records == [] || !Checks(records[|records| - 1], objective) then 0
    else
      var init := records[..|records| - 1];
      assert forall i :: 0 <= i < |init| ==> init[i] == records[i];
      1 + LastChecks(init, objective)
  }

  /** Those checks, on top of what was counted before them. */
  function Counted(records: seq<GoalRecord>, before: Option<Goal>, objective: string, live: bool): nat {
    var n := LastChecks(records, objective);
    n + CountBefore(records[..|records| - n], before, objective, live)
  }

  /**
   * The goal that records leave behind, told by the last of them alone, except for the number of
   * checks: that counts the unmet checks of the same objective that came last, on top of what an
   * ended goal of that objective reported or the goal before the records had.
   */
  ghost predicate GoalTells(goal: Option<Goal>, before: Option<Goal>, records: seq<GoalRecord>, live: bool) {
    if records == [] then goal == before
    else
      var last := records[|records| - 1];
      LastTells(goal, last, Counted(records, before, last.objective, live), live)
  }

  /** The goal that the last record tells, given the number of checks it counts. */
  predicate LastTells(goal: Option<Goal>, last: GoalRecord, counted: nat, live: bool) {
    && (goal.None? <==> (last.sentinel && last.met) || (Ends(last) && !live))
    && (goal.Some? ==>
          && goal.value.objective == last.objective
          && (goal.value.status == Complete_ <==> live && !last.sentinel && last.met && !last.failed)
          && (goal.value.status == Blocked <==> live && !last.sentinel && last.failed)
          && goal.value.lastCheck == (if last.sentinel then None else last.reason)
          && if Ends(last) then EndTells(goal.value, last)
             else goal.value.tokensUsed.None? && goal.value.timeUsedSecs.None? && goal.value.checks == Some(counted))
  }

  /** An ended goal has the record's tokens, whole seconds, and iterations if they fit in 32 bits. */
  predicate EndTells(goal: Goal, last: GoalRecord) {
    && goal.tokensUsed == last.tokens
    && (goal.timeUsedSecs.Some? <==> last.durationMs.Some?)
    && (goal.timeUsedSecs.Some? ==>
          goal.timeUsedSecs.value * 1000 <= last.durationMs.value < (goal.timeUsedSecs.value + 1) * 1000)
    && (goal.checks.Some? <==> last.iterations.Some? && last.iterations.value <= U32_MAX)
    && (goal.checks.Some? ==> goal.checks == last.iterations)
  }

  /** The last line is the last to be folded. */
  lemma FoldLast(goal: Option<Goal>, lines: seq<seq<Byte>>, decode: seq<Byte> -> Option<GoalRecord>, live: bool)
    requires lines != []
    ensures var init, record := FoldLines(goal, lines[..|lines| - 1], decode, live), decode(lines[|lines| - 1]);
      FoldLines(goal, lines, decode, live) == if record.Some? then Fold(init, record.value, live) else init
  {
    var last := lines[|lines| - 1];
    assert lines == lines[..|lines| - 1] + [last];
    FoldAppend(goal, lines[..|lines| - 1], [last], decode, live);
    var rest := [last];
    assert rest[1..] == [];
  }

  lemma CountedSnoc(records: seq<GoalRecord>, r: GoalRecord, before: Option<Goal>, objective: string, live: bool)
    ensures Counted(records + [r], before, objective, live)
         == if Checks(r, objective) then 1 + Counted(records, before, objective, live)
            else CountBefore(records + [r], before, objective, live)
  {
    var all := records + [r];
    assert all[..|all| - 1] == records && all[..|all|] == all;
    if Checks(r, objective) {
      var n := LastChecks(records, objective);
      assert all[..|all| - (n + 1)] == records[..|records| - n];
    }
  }

  /** What a goal contributes to the count of one more check. */
  lemma CountedBefore(goal: Option<Goal>, before: Option<Goal>, records: seq<GoalRecord>, objective: string, live: bool)
    requires GoalTells(goal, before, records, live)
    ensures (if goal.Some? && goal.value.objective == objective then goal.value.checks.UnwrapOr(0) else 0)
         == Counted(records, before, objective, live)
  {
    if records != [] {
      var init, last := records[..|records| - 1], records[|records| - 1];
      assert records == init + [last];
      CountedSnoc(init, last, before, objective, live);
      CountedSnoc(init, last, before, last.objective, live);
    }
  }

  lemma FoldTells(goal: Option<Goal>, r: GoalRecord, live: bool)
    ensures var known := if goal.Some? && goal.value.objective == r.objective then goal.value.checks.UnwrapOr(0) else 0;
      LastTells(Fold(goal, r, live), r, if Checks(r, r.objective) then 1 + known else 0, live)
  {
  }

  lemma OneMoreRecord(goal: Option<Goal>, before: Option<Goal>, records: seq<GoalRecord>, r: GoalRecord, live: bool)
    requires GoalTells(goal, before, records, live)
    ensures GoalTells(Fold(goal, r, live), before, records + [r], live)
  {
    assert (records + [r])[|records|] == r;
    CountedSnoc(records, r, before, r.objective, live);
    CountedBefore(goal, before, records, r.objective, live);
    FoldTells(goal, r, live);
  }

  /** A pass leaves behind the goal that its records tell. */
  lemma {:induction false} PassTells(goal: Option<Goal>, lines: seq<seq<Byte>>, decode: seq<Byte> -> Option<GoalRecord>, live: bool)
    ensures GoalTells(FoldLines(goal, lines, decode, live), goal, Records(lines, decode), live)
  {
    if lines != [] {
      var init := lines[..|lines| - 1];
      PassTells(goal, init, decode, live);
      FoldLast(goal, lines, decode, live);
      var record := decode(lines[|lines| - 1]);
      if record.Some? {
        OneMoreRecord(FoldLines(goal, init, decode, live), goal, Records(init, decode), record.value, live);
      }
    }
  }

  /** The anchor's goal as its records tell it: no goal where one was cleared, else the first read's. */
  ghost predicate AnchorTells(resumed: bool, steps: seq<GoalStep>, decode: seq<Byte> -> Option<GoalRecord>, anchor: Anchor) {
    var cleared := ClearedAt(resumed, steps, decode);
    if cleared.Some? then anchor == Anchor(None, cleared.value)
    else FirstFile(steps) == Some(anchor.file) && GoalTells(anchor.goal, None, Records(Complete(anchor.file), decode), !resumed)
  }

  /**
   * Over every run of reads and clearings the goal is what the records tell: those of the lines
   * behind the anchor as live ones, on top of the goal at the anchor.
   */
  lemma GoalIsTold(resumed: bool, steps: seq<GoalStep>, decode: seq<Byte> -> Option<GoalRecord>) returns (anchor: Anchor)
    requires LastFile(steps).Some? && GrowingReads(steps)
    ensures AnchorTells(resumed, steps, decode, anchor) && IsPrefix(anchor.file, LastFile(steps).value)
    ensures GoalTells(GoalRun(resumed, steps, decode).goal, anchor.goal,
                      Records(NewLines(LastFile(steps).value, LineStart(anchor.file)), decode), true)
  {
    GoalReadsAreTwoPasses(resumed, steps, decode);
    anchor := AnchorOf(resumed, steps, decode);
    PassTells(None, Complete(FirstFile(steps).value), decode, !resumed);
    PassTells(anchor.goal, NewLines(LastFile(steps).value, LineStart(anchor.file)), decode, true);
  }
}
