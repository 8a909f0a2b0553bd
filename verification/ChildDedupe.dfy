/** Two feeds, one stream of child items (crates/agent/src/claude.rs, `advance_child_item`). */
module ChildDedupe {
  import opened Text
  import opened Events
  import Transcript

  datatype Stage = HasStarted | HasUpdated(content: Content) | HasCompleted

  function StageOf(e: Event): Stage
    requires IsItemEvent(e)
  {
    match e
    case ItemStarted(_) => HasStarted
    case ItemUpdated(item) => HasUpdated(item.content)
    case ItemCompleted(_) => HasCompleted
  }

  /** Whether an event is news, given how far its item has come. */
  predicate IsNews(stage: Option<Stage>, e: Event)
    requires IsItemEvent(e)
  {
    match stage
    case None => true
    case Some(HasCompleted) => false
    case Some(reached) => !e.ItemStarted? && reached != StageOf(e)
  }

  function Reached(stages: map<string, Stage>, id: string): Option<Stage> {
    if id in stages then Some(stages[id]) else None
  }

  predicate Passes(stages: map<string, Stage>, e: Event) {
    IsItemEvent(e) ==> IsNews(Reached(stages, EventItem(e).id), e)
  }

  function Advanced(stages: map<string, Stage>, e: Event): map<string, Stage> {
    if IsItemEvent(e) && Passes(stages, e) then stages[EventItem(e).id := StageOf(e)] else stages
  }

  function AdvancedAll(events: seq<Event>): map<string, Stage> {
    if events == [] then map[] else Advanced(AdvancedAll(events[..|events| - 1]), events[|events| - 1])
  }

  /** The events let through. */
  function Accepted(events: seq<Event>): seq<Event> {
    if events == [] then []
    else
      var init, last := events[..|events| - 1], events[|events| - 1];
      if Passes(AdvancedAll(init), last) then Accepted(init) + [last] else Accepted(init)
  }

  // ---------------------------------------------------------------- one item at a time

  predicate Concerns(e: Event, id: string) {
    IsItemEvent(e) && EventItem(e).id == id
  }

  function Of(events: seq<Event>, id: string): seq<Event> {
    if events == [] then []
    else if Concerns(events[|events| - 1], id) then Of(events[..|events| - 1], id) + [events[|events| - 1]]
    else Of(events[..|events| - 1], id)
  }

  lemma OfSnoc(events: seq<Event>, e: Event, id: string)
    ensures Of(events + [e], id) == if Concerns(e, id) then Of(events, id) + [e] else Of(events, id)
  {
    assert (events + [e])[..|events|] == events;
  }

  lemma AcceptedSnoc(events: seq<Event>, e: Event)
    ensures AdvancedAll(events + [e]) == Advanced(AdvancedAll(events), e)
    ensures Accepted(events + [e]) == if Passes(AdvancedAll(events), e) then Accepted(events) + [e] else Accepted(events)
  {
    assert (events + [e])[..|events|] == events;
  }

  lemma {:induction false} OfConcerns(events: seq<Event>, id: string)
    ensures forall i :: 0 <= i < |Of(events, id)| ==> Concerns(Of(events, id)[i], id)
    ensures forall e :: e in Of(events, id) ==> e in events
  {
    if events != [] {
      OfConcerns(events[..|events| - 1], id);
    }
  }

  /** What is accepted of one item depends on that item's own events only. */
  lemma {:induction false} ItemsAreIndependent(events: seq<Event>, id: string)
    ensures Of(Accepted(events), id) == Accepted(Of(events, id))
    ensures Reached(AdvancedAll(events), id) == Reached(AdvancedAll(Of(events, id)), id)
  {
    if events != [] {
      var init, last := events[..|events| - 1], events[|events| - 1];
      ItemsAreIndependent(init, id);
      OfSnoc(Accepted(init), last, id);
      if Concerns(last, id) {
        AcceptedSnoc(Of(init, id), last);
      }
    }
  }

  // ---------------------------------------------------------------- the shape of what is accepted

  /** Started? Updated* Completed?, with no two equal updates in a row. */
  ghost predicate WellShaped(events: seq<Event>) {
    && (forall i :: 0 <= i < |events| ==> IsItemEvent(events[i]))
    && (forall i :: 0 < i < |events| ==> !events[i].ItemStarted?)
    && (forall i :: 0 <= i < |events| - 1 ==> !events[i].ItemCompleted?)
    && (forall i :: 0 <= i < |events| - 1 ==> StageOf(events[i]) != StageOf(events[i + 1]))
  }

  /** The stage reached is the last accepted event's. */
  ghost predicate EndsAt(events: seq<Event>, stage: Option<Stage>) {
    if events == [] then stage == None
    else IsItemEvent(events[|events| - 1]) && stage == Some(StageOf(events[|events| - 1]))
  }

  lemma {:induction false} AcceptedOfOneItem(events: seq<Event>, id: string)
    requires forall i :: 0 <= i < |events| ==> Concerns(events[i], id)
    ensures WellShaped(Accepted(events))
    ensures EndsAt(Accepted(events), Reached(AdvancedAll(events), id))
  {
    if events != [] {
      AcceptedOfOneItem(events[..|events| - 1], id);
    }
  }

  /** Whatever the feeds deliver in whatever order, each item's accepted events are well shaped. */
  lemma AcceptedIsWellShaped(events: seq<Event>, id: string)
    ensures WellShaped(Of(Accepted(events), id))
  {
    ItemsAreIndependent(events, id);
    OfConcerns(events, id);
    AcceptedOfOneItem(Of(events, id), id);
  }

  // ---------------------------------------------------------------- two copies are as good as one

  /** `w` shuffles `a` and `b` without reordering either. */
  ghost predicate Interleaves(w: seq<Event>, a: seq<Event>, b: seq<Event>) {
    if w == [] then a == [] && b == []
    else
      var n := |w| - 1;
      || (a != [] && a[|a| - 1] == w[n] && Interleaves(w[..n], a[..|a| - 1], b))
      || (b != [] && b[|b| - 1] == w[n] && Interleaves(w[..n], a, b[..|b| - 1]))
  }

  lemma {:induction false} InterleavesOf(w: seq<Event>, a: seq<Event>, b: seq<Event>, id: string)
    requires Interleaves(w, a, b)
    ensures Interleaves(Of(w, id), Of(a, id), Of(b, id))
  {
    if w != [] {
      var n := |w| - 1;
      if a != [] && a[|a| - 1] == w[n] && Interleaves(w[..n], a[..|a| - 1], b) {
        InterleavesOf(w[..n], a[..|a| - 1], b, id);
        KeepShuffled(Of(w[..n], id), Of(a[..|a| - 1], id), Of(b, id), w[n]);
      } else {
        InterleavesOf(w[..n], a, b[..|b| - 1], id);
        KeepShuffled(Of(w[..n], id), Of(a, id), Of(b[..|b| - 1], id), w[n]);
      }
    }
  }

  lemma KeepShuffled(w: seq<Event>, a: seq<Event>, b: seq<Event>, e: Event)
    requires Interleaves(w, a, b)
    ensures Interleaves(w + [e], a + [e], b) && Interleaves(w + [e], a, b + [e])
  {
    assert (w + [e])[..|w|] == w && (a + [e])[..|a|] == a && (b + [e])[..|b|] == b;
  }

  predicate NoUpdates(events: seq<Event>) {
    forall i :: 0 <= i < |events| ==> events[i].ItemStarted? || events[i].ItemCompleted?
  }

  function FirstCompletion(events: seq<Event>): Option<Event> {
    if events == [] then None
    else
      var earlier := FirstCompletion(events[..|events| - 1]);
      if earlier.Some? then earlier
      else if events[|events| - 1].ItemCompleted? then Some(events[|events| - 1]) else None
  }

  /** An update that comes before any completion. */
  predicate LastIsLive(events: seq<Event>)
    requires events != []
  {
    events[|events| - 1].ItemUpdated? && FirstCompletion(events[..|events| - 1]).None?
  }

  function FirstUpdate(events: seq<Event>): Option<Item> {
    if events == [] then None
    else
      var earlier := FirstUpdate(events[..|events| - 1]);
      if earlier.Some? then earlier
      else if LastIsLive(events) then Some(events[|events| - 1].updated) else None
  }

  /** Every update before the first completion carries this content. */
  predicate UpdatesCarry(events: seq<Event>, content: Content) {
    events == [] ||
    (UpdatesCarry(events[..|events| - 1], content)
     && (LastIsLive(events) ==> events[|events| - 1].updated.content == content))
  }

  /** The updates before the first completion all carry one content. */
  predicate OneContent(events: seq<Event>) {
    FirstUpdate(events).Some? ==> UpdatesCarry(events, FirstUpdate(events).value.content)
  }

  function EssenceOf(first: Event, update: Option<Item>, completion: Option<Event>): seq<Event> {
    var begun := if first.ItemStarted? then [first] else [];
    var told := if update.Some? then begun + [ItemUpdated(update.value)] else begun;
    if completion.Some? then told + [completion.value] else told
  }

  /** One item: its first event if that is a start, then its first update, then its first completion. */
  function Essence(events: seq<Event>): seq<Event> {
    if events == [] then [] else EssenceOf(events[0], FirstUpdate(events), FirstCompletion(events))
  }

  function StageAt(update: Option<Item>, completion: Option<Event>): Stage {
    if completion.Some? then HasCompleted
    else if update.Some? then HasUpdated(update.value.content)
    else HasStarted
  }

  function StageOfEssence(events: seq<Event>): Option<Stage> {
    if events == [] then None else Some(StageAt(FirstUpdate(events), FirstCompletion(events)))
  }

  lemma {:induction false} FirstEvents(events: seq<Event>, id: string)
    requires events != [] && forall i :: 0 <= i < |events| ==> Concerns(events[i], id)
    ensures FirstCompletion(events).Some? ==> FirstCompletion(events).value.ItemCompleted?
    ensures events[0].ItemCompleted? ==> FirstCompletion(events) == Some(events[0]) && FirstUpdate(events).None?
    ensures events[0].ItemUpdated? ==> FirstUpdate(events) == Some(events[0].updated)
    ensures FirstCompletion(events).None? && FirstUpdate(events).None? ==> events[0].ItemStarted?
  {
    if |events| > 1 {
      FirstEvents(events[..|events| - 1], id);
    } else {
      assert events[..0] == [];
    }
  }

  lemma {:induction false} CarriesFirst(events: seq<Event>, content: Content)
    requires UpdatesCarry(events, content)
    ensures FirstUpdate(events).Some? ==> FirstUpdate(events).value.content == content
  {
    if events != [] {
      CarriesFirst(events[..|events| - 1], content);
    }
  }

  lemma FirstsSnoc(events: seq<Event>, e: Event)
    ensures FirstCompletion(events + [e]) == OrElse(FirstCompletion(events), if e.ItemCompleted? then Some(e) else None)
    ensures FirstUpdate(events + [e])
         == OrElse(FirstUpdate(events), if e.ItemUpdated? && FirstCompletion(events).None? then Some(e.updated) else None)
  {
    assert (events + [e])[..|events|] == events;
  }

  lemma EssenceOfOne(e: Event)
    requires IsItemEvent(e)
    ensures Essence([e]) == [e] && StageOfEssence([e]) == Some(StageOf(e))
  {
    FirstsSnoc([], e);
    assert [] + [e] == [e];
  }

  /** An event behind the first adds itself exactly if it is news. */
  lemma EssenceGrows(first: Event, update: Option<Item>, completion: Option<Event>, e: Event)
    requires IsItemEvent(e)
    requires first.ItemStarted? || update.Some? || completion.Some?
    requires e.ItemUpdated? && completion.None? && update.Some? ==> update.value.content == e.updated.content
    ensures var stage := StageAt(update, completion);
      var update' := OrElse(update, if e.ItemUpdated? && completion.None? then Some(e.updated) else None);
      var completion' := OrElse(completion, if e.ItemCompleted? then Some(e) else None);
      var before := EssenceOf(first, update, completion);
      && EssenceOf(first, update', completion') == (if IsNews(Some(stage), e) then before + [e] else before)
      && StageAt(update', completion') == if IsNews(Some(stage), e) then StageOf(e) else stage
  {
  }

  lemma EssenceSnoc(events: seq<Event>, e: Event, id: string)
    requires events != [] && Concerns(e, id) && forall i :: 0 <= i < |events| ==> Concerns(events[i], id)
    requires e.ItemUpdated? && FirstCompletion(events).None? && FirstUpdate(events).Some? ==>
      FirstUpdate(events).value.content == e.updated.content
    ensures Essence(events + [e]) == if IsNews(StageOfEssence(events), e) then Essence(events) + [e] else Essence(events)
    ensures StageOfEssence(events + [e]) == if IsNews(StageOfEssence(events), e) then Some(StageOf(e)) else StageOfEssence(events)
  {
    FirstsSnoc(events, e);
    FirstEvents(events, id);
    assert (events + [e])[0] == events[0];
    EssenceGrows(events[0], FirstUpdate(events), FirstCompletion(events), e);
  }

  lemma {:induction false} AcceptedIsEssence(events: seq<Event>, id: string, content: Content)
    requires UpdatesCarry(events, content) && forall i :: 0 <= i < |events| ==> Concerns(events[i], id)
    ensures Accepted(events) == Essence(events)
    ensures Reached(AdvancedAll(events), id) == StageOfEssence(events)
  {
    if events != [] {
      var init, last := events[..|events| - 1], events[|events| - 1];
      AcceptedIsEssence(init, id, content);
      CarriesFirst(init, content);
      assert events == init + [last];
      AcceptedSnoc(init, last);
      if init == [] {
        EssenceOfOne(last);
      } else {
        EssenceSnoc(init, last, id);
      }
    }
  }

  lemma {:induction false} InterleavedFirst(w: seq<Event>, a: seq<Event>, b: seq<Event>)
    requires Interleaves(w, a, b)
    ensures w == [] <==> a == [] && b == []
    ensures w != [] ==> (a != [] && w[0] == a[0]) || (b != [] && w[0] == b[0])
    ensures FirstCompletion(w) == FirstCompletion(a) || FirstCompletion(w) == FirstCompletion(b)
    ensures FirstCompletion(w).None? ==> FirstCompletion(a).None? && FirstCompletion(b).None?
    ensures FirstUpdate(w).Some? ==> FirstUpdate(w) == FirstUpdate(a) || FirstUpdate(w) == FirstUpdate(b)
    ensures FirstUpdate(w).None? ==>
      || (FirstUpdate(a).None? && (FirstCompletion(a).Some? || FirstUpdate(b).None?))
      || (FirstUpdate(b).None? && FirstCompletion(b).Some?)
  {
    if w != [] {
      var n := |w| - 1;
      if a != [] && a[|a| - 1] == w[n] && Interleaves(w[..n], a[..|a| - 1], b) {
        InterleavedFirst(w[..n], a[..|a| - 1], b);
      } else {
        InterleavedFirst(w[..n], a, b[..|b| - 1]);
      }
    }
  }

  lemma {:induction false} InterleavedCarry(w: seq<Event>, a: seq<Event>, b: seq<Event>, content: Content)
    requires Interleaves(w, a, b) && UpdatesCarry(a, content) && UpdatesCarry(b, content)
    ensures UpdatesCarry(w, content)
  {
    if w != [] {
      var n := |w| - 1;
      if a != [] && a[|a| - 1] == w[n] && Interleaves(w[..n], a[..|a| - 1], b) {
        InterleavedCarry(w[..n], a[..|a| - 1], b, content);
        InterleavedFirst(w[..n], a[..|a| - 1], b);
      } else {
        InterleavedCarry(w[..n], a, b[..|b| - 1], content);
        InterleavedFirst(w[..n], a, b[..|b| - 1]);
      }
    }
  }

  lemma {:induction false} NoUpdatesToCarry(events: seq<Event>, id: string)
    requires NoUpdates(events)
    ensures FirstUpdate(Of(events, id)).None?
  {
    if events != [] {
      NoUpdatesToCarry(events[..|events| - 1], id);
    }
  }

  /** Without an update, any content will do. */
  lemma {:induction false} CarriesNone(events: seq<Event>, content: Content)
    requires FirstUpdate(events).None?
    ensures UpdatesCarry(events, content)
  {
    if events != [] {
      CarriesNone(events[..|events| - 1], content);
    }
  }

  lemma {:induction false} PrefixFirsts(a: seq<Event>, k: nat)
    requires k <= |a|
    ensures FirstCompletion(a[..k]).Some? ==>
      FirstCompletion(a) == FirstCompletion(a[..k]) && FirstUpdate(a) == FirstUpdate(a[..k])
    ensures FirstUpdate(a[..k]).Some? ==> FirstUpdate(a) == FirstUpdate(a[..k])
    ensures forall c :: UpdatesCarry(a, c) ==> UpdatesCarry(a[..k], c)
  {
    if k < |a| {
      assert a[..|a| - 1][..k] == a[..k];
      PrefixFirsts(a[..|a| - 1], k);
    } else {
      assert a[..k] == a;
    }
  }

  lemma {:induction false} OfPrefix(a: seq<Event>, k: nat, id: string)
    requires k <= |a|
    ensures IsPrefix(Of(a[..k], id), Of(a, id))
  {
    if k < |a| {
      assert a[..|a| - 1][..k] == a[..k];
      OfPrefix(a[..|a| - 1], k, id);
    } else {
      assert a[..k] == a;
    }
  }

  /** One item on two feeds, the second perhaps cut short. */
  lemma OneItemTwice(w: seq<Event>, a: seq<Event>, b: seq<Event>, id: string)
    requires Interleaves(w, a, b) && IsPrefix(b, a) && OneContent(a)
    requires forall i :: 0 <= i < |a| ==> Concerns(a[i], id)
    requires forall i :: 0 <= i < |w| ==> Concerns(w[i], id)
    ensures Accepted(w) == Accepted(a)
  {
    if a != [] {
      var content := if FirstUpdate(a).Some? then FirstUpdate(a).value.content else EventItem(a[0]).content;
      if FirstUpdate(a).None? {
        CarriesNone(a, content);
      }
      PrefixFirsts(a, |b|);
      InterleavedFirst(w, a, b);
      InterleavedCarry(w, a, b, content);
      AcceptedIsEssence(w, id, content);
      AcceptedIsEssence(a, id, content);
    }
  }

  /**
   * Confluence: shuffle a feed with a second copy of it, or with as much of one as has arrived,
   * and an item whose updates all carry one content is accepted exactly as from the feed alone.
   */
  lemma TwoCopiesAreOne(w: seq<Event>, a: seq<Event>, b: seq<Event>, id: string)
    requires Interleaves(w, a, b) && IsPrefix(b, a) && OneContent(Of(a, id))
    ensures Of(Accepted(w), id) == Of(Accepted(a), id)
  {
    ItemsAreIndependent(w, id);
    ItemsAreIndependent(a, id);
    InterleavesOf(w, a, b, id);
    OfPrefix(a, |b|, id);
    OfConcerns(w, id);
    OfConcerns(a, id);
    OneItemTwice(Of(w, id), Of(a, id), Of(b, id), id);
  }

  // ---------------------------------------------------------------- a transcript told twice

  lemma {:induction false} MappedPrefix(parent: string, records: seq<Transcript.Record>, k: nat)
    requires k <= |records|
    ensures IsPrefix(Transcript.MapRecords(Transcript.INITIAL, parent, records[..k]).events,
                     Transcript.MapRecords(Transcript.INITIAL, parent, records).events)
  {
    if k < |records| {
      assert records[..|records| - 1][..k] == records[..k];
      MappedPrefix(parent, records[..|records| - 1], k);
    } else {
      assert records[..k] == records;
    }
  }

  /**
   * A subagent's transcript arriving on both feeds, one of them possibly cut short, in any
   * interleaving: every child item is accepted exactly as from one feed.
   */
  lemma BothFeedsAreOne(parent: string, records: seq<Transcript.Record>, k: nat, w: seq<Event>, id: string)
    requires k <= |records|
    requires Interleaves(w, Transcript.MapRecords(Transcript.INITIAL, parent, records).events,
                         Transcript.MapRecords(Transcript.INITIAL, parent, records[..k]).events)
    ensures Of(Accepted(w), id) == Of(Accepted(Transcript.MapRecords(Transcript.INITIAL, parent, records).events), id)
  {
    var a := Transcript.MapRecords(Transcript.INITIAL, parent, records).events;
    var b := Transcript.MapRecords(Transcript.INITIAL, parent, records[..k]).events;
    MappedPrefix(parent, records, k);
    Transcript.TranscriptIsOrderly(parent, records);
    NoUpdatesToCarry(a, id);
    TwoCopiesAreOne(w, a, b, id);
  }
}
