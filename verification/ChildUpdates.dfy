/** When two copies of a feed with updates are as good as one (crates/agent/src/claude.rs, `advance_child_item`). */
module ChildUpdates {
  import opened Text
  import opened Events
  import opened ChildDedupe

  function Updates(events: seq<Event>): nat {
    if events == [] then 0
    else Updates(events[..|events| - 1]) + (if events[|events| - 1].ItemUpdated? then 1 else 0)
  }

  lemma UpdatesSnoc(events: seq<Event>, e: Event)
    ensures Updates(events + [e]) == Updates(events) + if e.ItemUpdated? then 1 else 0
  {
    assert (events + [e])[..|events|] == events;
  }

  lemma {:induction false} UpdatesGrow(x: seq<Event>, y: seq<Event>)
    ensures Updates(Accepted(x + y)) >= Updates(Accepted(x))
  {
    if y == [] {
      assert x + y == x;
    } else {
      var n := |y| - 1;
      UpdatesGrow(x, y[..n]);
      assert x + y == (x + y[..n]) + [y[n]];
      AcceptedSnoc(x + y[..n], y[n]);
      UpdatesSnoc(Accepted(x + y[..n]), y[n]);
    }
  }

  lemma OneMoreUpdate(x: seq<Event>, e: Event, id: string, content: Content)
    requires Concerns(e, id) && !e.ItemCompleted? && Reached(AdvancedAll(x), id) == Some(HasUpdated(content))
    ensures var news := e.ItemUpdated? && e.updated.content != content;
      && Updates(Accepted(x + [e])) == Updates(Accepted(x)) + (if news then 1 else 0)
      && (!news ==> Reached(AdvancedAll(x + [e]), id) == Some(HasUpdated(content)))
  {
    AcceptedSnoc(x, e);
    UpdatesSnoc(Accepted(x), e);
  }

  /** Behind an update, events that accept no further update carry its content and leave it current. */
  lemma {:induction false} NoNewUpdate(x: seq<Event>, y: seq<Event>, id: string, content: Content)
    requires forall i :: 0 <= i < |y| ==> Concerns(y[i], id) && !y[i].ItemCompleted?
    requires Reached(AdvancedAll(x), id) == Some(HasUpdated(content))
    requires Updates(Accepted(x + y)) == Updates(Accepted(x))
    ensures Reached(AdvancedAll(x + y), id) == Some(HasUpdated(content))
    ensures forall i :: 0 <= i < |y| && y[i].ItemUpdated? ==> y[i].updated.content == content
  {
    if y == [] {
      assert x + y == x;
    } else {
      var n := |y| - 1;
      var init := y[..n];
      assert x + y == (x + init) + [y[n]];
      UpdatesGrow(x, init);
      UpdatesGrow(x + init, [y[n]]);
      NoNewUpdate(x, init, id, content);
      OneMoreUpdate(x + init, y[n], id, content);
      assert forall i :: 0 <= i < n ==> y[i] == init[i];
    }
  }

  lemma {:induction false} NothingAfterCompletion(x: seq<Event>, y: seq<Event>, id: string)
    requires forall i :: 0 <= i < |y| ==> Concerns(y[i], id)
    requires Reached(AdvancedAll(x), id) == Some(HasCompleted)
    ensures Accepted(x + y) == Accepted(x) && Reached(AdvancedAll(x + y), id) == Some(HasCompleted)
  {
    if y == [] {
      assert x + y == x;
    } else {
      var n := |y| - 1;
      assert x + y == (x + y[..n]) + [y[n]];
      AcceptedSnoc(x + y[..n], y[n]);
      NothingAfterCompletion(x, y[..n], id);
    }
  }

  /** Where the first completion stands, or the length when there is none. */
  function CompletionAt(events: seq<Event>): (k: nat)
    ensures k <= |events|
    ensures forall i :: 0 <= i < k ==> !events[i].ItemCompleted?
    ensures k < |events| ==> events[k].ItemCompleted?
  {
    if events == [] || events[0].ItemCompleted? then 0 else 1 + CompletionAt(events[1..])
  }

  lemma {:induction false} LiveUpdatesAre(events: seq<Event>, k: nat, content: Content)
    requires k <= |events| && (k < |events| ==> events[k].ItemCompleted?)
    requires forall i :: 0 <= i < k ==> !events[i].ItemCompleted?
    ensures FirstCompletion(events).Some? <==> k < |events|
    ensures UpdatesCarry(events, content) <==> forall i :: 0 <= i < k && events[i].ItemUpdated? ==> events[i].updated.content == content
    ensures FirstUpdate(events).Some? <==> exists i :: 0 <= i < k && events[i].ItemUpdated?
  {
    if events != [] {
      var n := |events| - 1;
      LiveUpdatesAre(events[..n], if k < |events| && k <= n then (if k < n then k else n) else n, content);
    }
  }

  lemma {:induction false} LastUpdateIsCurrent(events: seq<Event>, id: string)
    requires forall i :: 0 <= i < |events| ==> Concerns(events[i], id) && !events[i].ItemCompleted?
    requires exists i :: 0 <= i < |events| && events[i].ItemUpdated?
    ensures Reached(AdvancedAll(events), id).Some? && Reached(AdvancedAll(events), id).value.HasUpdated?
  {
    var n := |events| - 1;
    if !events[n].ItemUpdated? {
      LastUpdateIsCurrent(events[..n], id);
    }
    NotCompletedYet(events[..n], id);
  }

  lemma {:induction false} NotCompletedYet(events: seq<Event>, id: string)
    requires forall i :: 0 <= i < |events| ==> Concerns(events[i], id) && !events[i].ItemCompleted?
    ensures Reached(AdvancedAll(events), id) != Some(HasCompleted)
  {
    if events != [] {
      NotCompletedYet(events[..|events| - 1], id);
    }
  }

  /** Live updates of more than one content: telling them a second time adds an update. */
  lemma SecondTellingAdds(a: seq<Event>, k: nat, id: string)
    requires k == CompletionAt(a) && forall i :: 0 <= i < |a| ==> Concerns(a[i], id)
    requires !OneContent(a)
    ensures Updates(Accepted(a[..k] + a[..k])) > Updates(Accepted(a[..k]))
  {
    var early := a[..k];
    assert forall i :: 0 <= i < k ==> a[i] == early[i];
    LiveUpdatesAre(a, k, FirstUpdate(a).value.content);
    var i :| 0 <= i < k && a[i].ItemUpdated?;
    assert early[i].ItemUpdated?;
    LastUpdateIsCurrent(early, id);
    var current := Reached(AdvancedAll(early), id).value.content;
    UpdatesGrow(early, early);
    if Updates(Accepted(early + early)) == Updates(Accepted(early)) {
      NoNewUpdate(early, early, id, current);
      AllCarry(a, k, current);
    }
  }

  lemma AllCarry(a: seq<Event>, k: nat, content: Content)
    requires k == CompletionAt(a) && forall i :: 0 <= i < k && a[i].ItemUpdated? ==> a[i].updated.content == content
    ensures OneContent(a)
  {
    LiveUpdatesAre(a, k, content);
    CarriesFirst(a, content);
  }

  /** Told twice before the completion, one more update is accepted. */
  lemma ToldTwiceIsMore(early: seq<Event>, late: seq<Event>, id: string)
    requires forall i :: 0 <= i < |early| ==> Concerns(early[i], id) && !early[i].ItemCompleted?
    requires forall i :: 0 <= i < |late| ==> Concerns(late[i], id)
    requires late != [] ==> late[0].ItemCompleted?
    requires Updates(Accepted(early + early)) > Updates(Accepted(early))
    ensures Accepted(early + early + (late + late)) != Accepted(early + late)
  {
    UpdatesGrow(early + early, late + late);
    RestAddsNone(early, late, id);
  }

  /** What follows from the first completion on adds no update. */
  lemma RestAddsNone(early: seq<Event>, late: seq<Event>, id: string)
    requires forall i :: 0 <= i < |early| ==> Concerns(early[i], id) && !early[i].ItemCompleted?
    requires forall i :: 0 <= i < |late| ==> Concerns(late[i], id)
    requires late != [] ==> late[0].ItemCompleted?
    ensures Updates(Accepted(early + late)) == Updates(Accepted(early))
  {
    if late == [] {
      assert early + late == early;
    } else {
      CompletionAddsNone(early, late[0], id);
      assert early + late == (early + [late[0]]) + late[1..];
      NothingAfterCompletion(early + [late[0]], late[1..], id);
    }
  }

  lemma CompletionAdvances(stages: map<string, Stage>, e: Event, id: string)
    requires Concerns(e, id) && e.ItemCompleted?
    ensures Reached(Advanced(stages, e), id) == Some(HasCompleted)
  {
  }

  lemma CompletionAddsNone(x: seq<Event>, e: Event, id: string)
    requires Concerns(e, id) && e.ItemCompleted?
    ensures Updates(Accepted(x + [e])) == Updates(Accepted(x))
    ensures Reached(AdvancedAll(x + [e]), id) == Some(HasCompleted)
  {
    CompletionAdvances(AdvancedAll(x), e, id);
    AcceptedSnoc(x, e);
    UpdatesSnoc(Accepted(x), e);
  }

  lemma {:induction false} ShuffleMore(w: seq<Event>, a: seq<Event>, b: seq<Event>, more: seq<Event>)
    requires Interleaves(w, a, b)
    ensures Interleaves(w + more, a + more, b)
  {
    if more == [] {
      assert w + more == w && a + more == a;
    } else {
      var n := |more| - 1;
      ShuffleMore(w, a, b, more[..n]);
      KeepShuffled(w + more[..n], a + more[..n], b, more[n]);
      assert w + more == (w + more[..n]) + [more[n]];
      assert a + more == (a + more[..n]) + [more[n]];
    }
  }

  lemma {:induction false} ShuffleSwaps(w: seq<Event>, a: seq<Event>, b: seq<Event>)
    requires Interleaves(w, a, b)
    ensures Interleaves(w, b, a)
  {
    if w != [] {
      var n := |w| - 1;
      if a != [] && a[|a| - 1] == w[n] && Interleaves(w[..n], a[..|a| - 1], b) {
        ShuffleSwaps(w[..n], a[..|a| - 1], b);
      } else {
        ShuffleSwaps(w[..n], a, b[..|b| - 1]);
      }
    }
  }

  lemma BothTell(w: seq<Event>, a: seq<Event>, b: seq<Event>, more: seq<Event>)
    requires Interleaves(w, a, b)
    ensures Interleaves(w + (more + more), a + more, b + more)
  {
    ShuffleMore(w, a, b, more);
    ShuffleSwaps(w + more, a + more, b);
    ShuffleMore(w + more, b, a + more, more);
    ShuffleSwaps(w + more + more, b + more, a + more);
    assert w + more + more == w + (more + more);
  }

  /** Twice the first part, then twice the rest, is a shuffle of two copies. */
  lemma HalvesShuffle(early: seq<Event>, late: seq<Event>)
    ensures Interleaves(early + early + (late + late), early + late, early + late)
  {
    BothTell([], [], [], early);
    assert [] + (early + early) == early + early && [] + early == early;
    BothTell(early + early, early, early, late);
  }

  lemma {:induction false} OfAppend(x: seq<Event>, y: seq<Event>, id: string)
    ensures Of(x + y, id) == Of(x, id) + Of(y, id)
  {
    if y == [] {
      assert x + y == x;
    } else {
      var n := |y| - 1;
      OfAppend(x, y[..n], id);
      assert x + y == (x + y[..n]) + [y[n]];
      OfSnoc(x + y[..n], y[n], id);
    }
  }

  /** A place in the feed at which exactly the first j events of the item have passed. */
  lemma {:induction false} PlaceOf(a: seq<Event>, j: nat, id: string) returns (k: nat)
    requires j <= |Of(a, id)|
    ensures k <= |a| && Of(a[..k], id) == Of(a, id)[..j]
  {
    if j == |Of(a, id)| {
      k := |a|;
      assert a[..k] == a;
    } else {
      k := PlaceOf(a[..|a| - 1], j, id);
      assert a[..|a| - 1][..k] == a[..k];
    }
  }

  lemma SpoiledShuffle(a: seq<Event>, id: string) returns (w: seq<Event>)
    requires !OneContent(Of(a, id))
    ensures Interleaves(w, a, a) && Of(Accepted(w), id) != Of(Accepted(a), id)
  {
    var own := Of(a, id);
    OfConcerns(a, id);
    var j := CompletionAt(own);
    var k := PlaceOf(a, j, id);
    var early, late := a[..k], a[k..];
    assert a == early + late;
    OfAppend(early, late, id);
    assert own[j..] == Of(late, id);
    w := early + early + (late + late);
    HalvesShuffle(early, late);
    OfAppend(early + early, late + late, id);
    OfAppend(early, early, id);
    OfAppend(late, late, id);
    ItemsAreIndependent(w, id);
    ItemsAreIndependent(a, id);
    SecondTellingAdds(own, j, id);
    assert own == own[..j] + own[j..];
    ToldTwiceIsMore(own[..j], own[j..], id);
  }

  /**
   * The condition is exact: every shuffle of two copies of a feed is accepted, for one item, as
   * one copy if and only if the item's updates before its first completion carry one content.
   */
  lemma ConfluentIffOneContent(a: seq<Event>, id: string)
    ensures (forall w :: Interleaves(w, a, a) ==> Of(Accepted(w), id) == Of(Accepted(a), id)) <==> OneContent(Of(a, id))
  {
    if OneContent(Of(a, id)) {
      forall w | Interleaves(w, a, a) ensures Of(Accepted(w), id) == Of(Accepted(a), id) {
        TwoCopiesAreOne(w, a, a, id);
      }
    } else {
      var w := SpoiledShuffle(a, id);
    }
  }
}
