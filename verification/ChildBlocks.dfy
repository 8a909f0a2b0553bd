/**
 * Which blocks of a child survive deduplication (crates/agent/src/subagent_tail.rs,
 * `map_assistant`; crates/agent/src/claude.rs, `advance_child_item`).
 */
module ChildBlocks {
  import opened Text
  import opened Events
  import opened ChildDedupe
  import Transcript
  import BlockNumbers

  /** The completions among the events, in order. */
  function Completions(events: seq<Event>): seq<Event> {
    if events == [] then []
    else
      var init, last := Completions(events[..|events| - 1]), events[|events| - 1];
      if last.ItemCompleted? then init + [last] else init
  }

  predicate Completes(events: seq<Event>, id: string) {
    exists i :: 0 <= i < |events| && events[i].ItemCompleted? && events[i].completed.id == id
  }

  lemma CompletesSnoc(events: seq<Event>, e: Event, id: string)
    ensures Completes(events + [e], id) <==> Completes(events, id) || (e.ItemCompleted? && e.completed.id == id)
  {
    var all := events + [e];
    assert all[|events|] == e && forall i :: 0 <= i < |events| ==> all[i] == events[i];
    if Completes(events, id) {
      var i :| 0 <= i < |events| && events[i].ItemCompleted? && events[i].completed.id == id;
      assert all[i].ItemCompleted? && all[i].completed.id == id;
    }
  }

  /** Whatever else came before, a completion passes if and only if it is its item's first. */
  lemma {:induction false} OnlyFirstCompletionPasses(events: seq<Event>, e: Event)
    requires e.ItemCompleted?
    ensures Passes(AdvancedAll(events), e) <==> !Completes(events, e.completed.id)
    ensures Reached(AdvancedAll(events), e.completed.id) == Some(HasCompleted) <==> Completes(events, e.completed.id)
  {
    if events != [] {
      var init, last := events[..|events| - 1], events[|events| - 1];
      OnlyFirstCompletionPasses(init, e);
      assert events == init + [last];
      CompletesSnoc(init, last, e.completed.id);
    }
  }

  predicate Distinct<T(==)>(s: seq<T>) {
    forall i, j :: 0 <= i < j < |s| ==> s[i] != s[j]
  }

  lemma DistinctSnoc<T>(s: seq<T>, x: T)
    ensures Distinct(s + [x]) <==> Distinct(s) && x !in s
  {
    var all := s + [x];
    assert all[|s|] == x && forall i :: 0 <= i < |s| ==> all[i] == s[i];
    if x in s {
      var i :| 0 <= i < |s| && s[i] == x;
      assert all[i] == all[|s|];
    }
  }

  function CompletedIds(events: seq<Event>): seq<string> {
    if events == [] then []
    else
      var init, last := CompletedIds(events[..|events| - 1]), events[|events| - 1];
      if last.ItemCompleted? then init + [last.completed.id] else init
  }

  lemma {:induction false} CompletedIdsAre(events: seq<Event>, id: string)
    ensures id in CompletedIds(events) <==> Completes(events, id)
  {
    if events != [] {
      var init, last := events[..|events| - 1], events[|events| - 1];
      CompletedIdsAre(init, id);
      assert events == init + [last];
      CompletesSnoc(init, last, id);
    }
  }

  lemma CompletionsSnoc(events: seq<Event>, e: Event)
    ensures Completions(events + [e]) == if e.ItemCompleted? then Completions(events) + [e] else Completions(events)
  {
    assert (events + [e])[..|events|] == events;
  }

  /** Of any events, every completion is accepted if and only if no item is completed twice. */
  lemma {:induction false} CompletionsSurviveIffDistinct(events: seq<Event>)
    ensures |Completions(Accepted(events))| <= |Completions(events)|
    ensures Completions(Accepted(events)) == Completions(events) <==> Distinct(CompletedIds(events))
  {
    if events != [] {
      var init, last := events[..|events| - 1], events[|events| - 1];
      CompletionsSurviveIffDistinct(init);
      CompletionsSnoc(Accepted(init), last);
      if last.ItemCompleted? {
        var id := last.completed.id;
        OnlyFirstCompletionPasses(init, last);
        CompletedIdsAre(init, id);
        DistinctSnoc(CompletedIds(init), id);
        SnocEqual(Completions(Accepted(init)), Completions(init), last);
      }
    }
  }

  lemma SnocEqual<T>(a: seq<T>, b: seq<T>, x: T)
    ensures a + [x] == b + [x] <==> a == b
  {
    assert (a + [x])[..|a|] == a && (b + [x])[..|b|] == b;
  }

  /** A block that is shown: text or thinking that is not empty. */
  predicate Shown(block: Transcript.Block) {
    (block.TextBlock? || block.ThinkingBlock?) && block.text != []
  }

  /** The message id and the number within its record of every shown block. */
  datatype Key = Key(message: string, index: nat)

  function KeysOf(message: string, blocks: seq<Transcript.Block>): seq<Key> {
    if blocks == [] then []
    else
      var n := |blocks| - 1;
      KeysOf(message, blocks[..n]) + (if Shown(blocks[n]) then [Key(message, n)] else [])
  }

  predicate Speaks(record: Transcript.Record) {
    record.Assistant? && !record.skipped && record.blocks.Some?
  }

  function BlockKeys(records: seq<Transcript.Record>): seq<Key> {
    if records == [] then []
    else
      var last := records[|records| - 1];
      BlockKeys(records[..|records| - 1]) + (if Speaks(last) then KeysOf(last.messageId, last.blocks.value) else [])
  }

  function KeyIds(parent: string, keys: seq<Key>): (ids: seq<string>)
    ensures |ids| == |keys|
    ensures forall i :: 0 <= i < |keys| ==> ids[i] == parent + ":" + BlockId(keys[i].message, keys[i].index)
  {
    seq(|keys|, i requires 0 <= i < |keys| => parent + ":" + BlockId(keys[i].message, keys[i].index))
  }

  lemma {:induction false} CompletedIdsAppend(a: seq<Event>, b: seq<Event>)
    ensures CompletedIds(a + b) == CompletedIds(a) + CompletedIds(b)
  {
    if b == [] {
      assert a + b == a;
    } else {
      CompletedIdsAppend(a, b[..|b| - 1]);
      assert (a + b)[..|a + b| - 1] == a + b[..|b| - 1];
    }
  }

  lemma BlockCompletes(s: Transcript.State, parent: string, message: string, index: nat, block: Transcript.Block)
    ensures CompletedIds(Transcript.AssistantBlock(s, parent, message, index, block).events)
         == if Shown(block) then [parent + ":" + BlockId(message, index)] else []
  {
    assert forall e: Event :: [e][..0] == [];
  }

  lemma KeyIdsAppend(parent: string, a: seq<Key>, b: seq<Key>)
    ensures KeyIds(parent, a + b) == KeyIds(parent, a) + KeyIds(parent, b)
  {
  }

  lemma {:induction false} BlocksComplete(s: Transcript.State, parent: string, message: string, blocks: seq<Transcript.Block>)
    ensures CompletedIds(Transcript.AssistantBlocks(s, parent, message, blocks).events) == KeyIds(parent, KeysOf(message, blocks))
  {
    if blocks != [] {
      var n := |blocks| - 1;
      BlocksComplete(s, parent, message, blocks[..n]);
      var before := Transcript.AssistantBlocks(s, parent, message, blocks[..n]);
      var last := Transcript.AssistantBlock(before.state, parent, message, n, blocks[n]).events;
      BlockCompletes(before.state, parent, message, n, blocks[n]);
      CompletedIdsAppend(before.events, last);
      var key := if Shown(blocks[n]) then [Key(message, n)] else [];
      KeyIdsAppend(parent, KeysOf(message, blocks[..n]), key);
      assert CompletedIds(last) == KeyIds(parent, key);
    }
  }

  lemma RecordCompletes(s: Transcript.State, parent: string, record: Transcript.Record)
    requires !record.User?
    ensures CompletedIds(Transcript.MapRecord(s, parent, record).events)
         == KeyIds(parent, if Speaks(record) then KeysOf(record.messageId, record.blocks.value) else [])
  {
    if Speaks(record) {
      var noted := if record.seen.Some? then s.(model := record.seen) else s;
      BlocksComplete(noted, parent, record.messageId, record.blocks.value);
    }
  }

  lemma {:induction false} RecordsComplete(parent: string, records: seq<Transcript.Record>)
    requires forall i :: 0 <= i < |records| ==> !records[i].User?
    ensures CompletedIds(Transcript.MapRecords(Transcript.INITIAL, parent, records).events) == KeyIds(parent, BlockKeys(records))
  {
    if records != [] {
      var init, last := records[..|records| - 1], records[|records| - 1];
      RecordsComplete(parent, init);
      var before := Transcript.MapRecords(Transcript.INITIAL, parent, init);
      RecordCompletes(before.state, parent, last);
      CompletedIdsAppend(before.events, Transcript.MapRecord(before.state, parent, last).events);
      KeyIdsAppend(parent, BlockKeys(init), if Speaks(last) then KeysOf(last.messageId, last.blocks.value) else []);
    }
  }

  lemma KeyIdsDistinct(parent: string, keys: seq<Key>)
    ensures Distinct(KeyIds(parent, keys)) <==> Distinct(keys)
  {
    forall i, j | 0 <= i < j < |keys|
      ensures KeyIds(parent, keys)[i] == KeyIds(parent, keys)[j] <==> keys[i] == keys[j]
    {
      KeyIdsDiffer(parent, keys[i], keys[j]);
    }
  }

  lemma KeyIdsDiffer(parent: string, k: Key, l: Key)
    ensures parent + ":" + BlockId(k.message, k.index) == parent + ":" + BlockId(l.message, l.index) <==> k == l
  {
    var x, y := BlockId(k.message, k.index), BlockId(l.message, l.index);
    assert (parent + ":" + x)[|parent| + 1..] == x && (parent + ":" + y)[|parent| + 1..] == y;
    if x == y {
      BlockNumbers.BlockIdInjective(k.message, k.index, l.message, l.index);
    }
  }

  /**
   * Block numbers restart with every transcript record. Of whatever assistant records a child
   * writes, every shown block is accepted if and only if no two of them share their message and
   * their number within their record.
   */
  lemma BlocksSurviveIffNumberedApart(parent: string, records: seq<Transcript.Record>)
    requires forall i :: 0 <= i < |records| ==> !records[i].User?
    ensures var events := Transcript.MapRecords(Transcript.INITIAL, parent, records).events;
      (Completions(Accepted(events)) == Completions(events)) <==> Distinct(BlockKeys(records))
  {
    RecordsComplete(parent, records);
    KeyIdsDistinct(parent, BlockKeys(records));
    CompletionsSurviveIffDistinct(Transcript.MapRecords(Transcript.INITIAL, parent, records).events);
  }

  /** Assistant records of one message. */
  function Lines(message: string, blocks: seq<seq<Transcript.Block>>): (r: seq<Transcript.Record>)
    ensures |r| == |blocks|
    ensures forall i :: 0 <= i < |blocks| ==> r[i] == Transcript.Assistant(false, message, Some(blocks[i]), None)
  {
    seq(|blocks|, i requires 0 <= i < |blocks| => Transcript.Assistant(false, message, Some(blocks[i]), None))
  }

  function KeyIfShown(message: string, block: Transcript.Block): seq<Key> {
    if Shown(block) then [Key(message, 0)] else []
  }

  lemma KeysOfOne(message: string, x: Transcript.Block)
    ensures KeysOf(message, [x]) == KeyIfShown(message, x)
  {
    assert KeysOf(message, [x][..0]) == [];
  }

  lemma KeysOfTwo(message: string, x: Transcript.Block, y: Transcript.Block)
    requires Shown(y)
    ensures KeysOf(message, [x, y]) == KeyIfShown(message, x) + [Key(message, 1)]
  {
    assert [x, y][..1] == [x];
    KeysOfOne(message, x);
  }

  lemma BlockKeysSnoc(records: seq<Transcript.Record>, last: Transcript.Record)
    requires Speaks(last)
    ensures BlockKeys(records + [last]) == BlockKeys(records) + KeysOf(last.messageId, last.blocks.value)
  {
    assert (records + [last])[..|records|] == records;
  }

  lemma WholeKeys(message: string, blocks: seq<Transcript.Block>)
    ensures BlockKeys(Lines(message, [blocks])) == KeysOf(message, blocks)
  {
    var record := Transcript.Assistant(false, message, Some(blocks), None);
    assert Lines(message, [blocks]) == [] + [record];
    BlockKeysSnoc([], record);
  }

  lemma SplitKeys(message: string, x: Transcript.Block, y: Transcript.Block)
    ensures BlockKeys(Lines(message, [[x], [y]])) == KeyIfShown(message, x) + KeyIfShown(message, y)
  {
    var second := Transcript.Assistant(false, message, Some([y]), None);
    assert Lines(message, [[x], [y]]) == Lines(message, [[x]]) + [second];
    BlockKeysSnoc(Lines(message, [[x]]), second);
    WholeKeys(message, [x]);
    KeysOfOne(message, x);
    KeysOfOne(message, y);
  }

  lemma WholeSurvives(parent: string, message: string, x: Transcript.Block, y: Transcript.Block)
    requires Shown(y)
    ensures var whole := Transcript.MapRecords(Transcript.INITIAL, parent, Lines(message, [[x, y]])).events;
      Completions(Accepted(whole)) == Completions(whole)
  {
    WholeKeys(message, [x, y]);
    KeysOfTwo(message, x, y);
    BlocksSurviveIffNumberedApart(parent, Lines(message, [[x, y]]));
  }

  /**
   * So a child message whose second block is shown keeps both of its blocks on one record, and
   * on two records exactly when the first block is not a shown one.
   */
  lemma SplitChildMessageKeepsFirst(parent: string, message: string, x: Transcript.Block, y: Transcript.Block)
    requires Shown(y)
    ensures var whole := Transcript.MapRecords(Transcript.INITIAL, parent, Lines(message, [[x, y]])).events;
      Completions(Accepted(whole)) == Completions(whole)
    ensures var split := Transcript.MapRecords(Transcript.INITIAL, parent, Lines(message, [[x], [y]])).events;
      Completions(Accepted(split)) == Completions(split) <==> !Shown(x)
  {
    WholeSurvives(parent, message, x, y);
    SplitKeys(message, x, y);
    var records := Lines(message, [[x], [y]]);
    BlocksSurviveIffNumberedApart(parent, records);
    var keys := BlockKeys(records);
    if Shown(x) {
      assert keys[0] == keys[1];
    }
  }
}
