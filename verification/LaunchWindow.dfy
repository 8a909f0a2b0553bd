/**
 * Launch flags that realise a chosen context window (crates/agent/src/claude_manifest.rs,
 * `CatalogModel`; crates/agent/src/claude.rs, `ClaudeLaunchOptions::resolve_with`).
 */
module LaunchWindow {
  import opened Text
  import ContextWindow

  /**
   * A catalog model's window data: its fixed window, or the option that is its default, the
   * options' token counts and the slug suffixes that open them.
   */
  datatype Model = Model(fixed: Option<nat>, defaultOption: Option<string>, tokens: map<string, nat>,
                         suffixes: Option<map<string, string>>)

  function DefaultWindow(m: Model): Option<nat> {
    if m.fixed.Some? then m.fixed
    else if m.defaultOption.Some? && m.defaultOption.value in m.tokens then Some(m.tokens[m.defaultOption.value])
    else None
  }

  /** The options in the order a hash map happens to iterate them. */
  predicate Enumerates(order: seq<string>, m: Model) {
    && (forall i :: 0 <= i < |order| ==> order[i] in m.tokens)
    && (forall id :: id in m.tokens ==> id in order)
    && (forall i, j :: 0 <= i < j < |order| ==> order[i] != order[j])
  }

  function MaxTokens(order: seq<string>, tokens: map<string, nat>): (r: Option<nat>)
    requires forall i :: 0 <= i < |order| ==> order[i] in tokens
    ensures r.None? <==> order == []
    ensures r.Some? ==> exists i :: 0 <= i < |order| && tokens[order[i]] == r.value
    ensures r.Some? ==> forall i :: 0 <= i < |order| ==> tokens[order[i]] <= r.value
  {
    if order == [] then None
    else
      var others := MaxTokens(order[1..], tokens);
      assert forall i :: 1 <= i < |order| ==> order[i] == order[1..][i - 1];
      if others.Some? && others.value >= tokens[order[0]] then
        assert exists i :: 0 <= i < |order[1..]| && tokens[order[1..][i]] == others.value;
        assert forall i :: 0 <= i < |order[1..]| ==> order[1..][i] == order[i + 1];
        others
      else Some(tokens[order[0]])
  }

  function LargestWindow(m: Model, order: seq<string>): Option<nat>
    requires Enumerates(order, m)
  {
    if m.fixed.Some? then m.fixed else MaxTokens(order, m.tokens)
  }

  /** The first option, in iteration order, with the fewest tokens among those that fit. */
  function SmallestFit(order: seq<string>, tokens: map<string, nat>, window: nat): (r: Option<string>)
    requires forall i :: 0 <= i < |order| ==> order[i] in tokens
    ensures r.None? <==> forall i :: 0 <= i < |order| ==> tokens[order[i]] < window
    ensures r.Some? ==> r.value in order && tokens[r.value] >= window
    ensures r.Some? ==> forall i :: 0 <= i < |order| && tokens[order[i]] >= window ==> tokens[r.value] <= tokens[order[i]]
  {
    if order == [] then None
    else
      var others := SmallestFit(order[1..], tokens, window);
      assert forall i :: 1 <= i < |order| ==> order[i] == order[1..][i - 1];
      assert forall i :: 0 <= i < |order[1..]| ==> order[1..][i] == order[i + 1];
      if tokens[order[0]] >= window && (others.None? || tokens[order[0]] <= tokens[others.value]) then Some(order[0]) else others
  }

  /** The slug suffix that opens a window of at least this size; none for what the bare slug covers. */
  function WindowSuffix(m: Model, order: seq<string>, window: nat): string
    requires Enumerates(order, m)
  {
    if DefaultWindow(m).Some? && window <= DefaultWindow(m).value then ""
    else if m.suffixes.None? then ""
    else
      var fit := SmallestFit(order, m.tokens, window);
      if fit.Some? && fit.value in m.suffixes.value then m.suffixes.value[fit.value] else ""
  }

  datatype Launch = Launch(suffix: string, autoCompact: Option<nat>)

  /** The window the flags are computed for: the selection, else the model's default, else 200k. */
  function ResolvedWindow(m: Option<Model>, selection: Option<ContextWindow.Value>): nat {
    var chosen := if selection.Some? then ContextWindow.ParseTokens(selection.value) else None;
    if chosen.Some? then chosen.value
    else if m.Some? && DefaultWindow(m.value).Some? then DefaultWindow(m.value).value
    else 200_000
  }

  function LaunchFor(m: Model, order: seq<string>, window: nat): Launch
    requires Enumerates(order, m)
  {
    var largest := if LargestWindow(m, order).Some? then LargestWindow(m, order).value else window;
    Launch(WindowSuffix(m, order, window), if window < largest then Some(window) else None)
  }

  /** A model the catalog does not know launches bare, without an early compaction. */
  function Resolve(m: Option<Model>, order: seq<string>, selection: Option<ContextWindow.Value>): Launch
    requires m.Some? ==> Enumerates(order, m.value)
  {
    if m.Some? then LaunchFor(m.value, order, ResolvedWindow(m, selection)) else Launch("", None)
  }

  // ---------------------------------------------------------------- what the flags open

  /** A window a slug can open: the default for the bare slug, else that of an option with the suffix. */
  ghost predicate Opens(m: Model, suffix: string, window: nat) {
    if suffix == "" then DefaultWindow(m) == Some(window)
    else m.suffixes.Some? && exists id :: id in m.tokens && id in m.suffixes.value
                                           && m.suffixes.value[id] == suffix && m.tokens[id] == window
  }

  function Capped(window: nat, autoCompact: Option<nat>): nat {
    if autoCompact.Some? && autoCompact.value < window then autoCompact.value else window
  }

  /** Whatever the slug opens, capped by the early compaction, is the window asked for. */
  ghost predicate Realises(m: Model, launch: Launch, window: nat) {
    && (exists reach: nat :: Opens(m, launch.suffix, reach))
    && (forall reach: nat :: Opens(m, launch.suffix, reach) ==> Capped(reach, launch.autoCompact) == window)
  }

  /** An option is reachable: it has a suffix, and no smaller option shares it. */
  ghost predicate Reachable(m: Model, id: string)
    requires id in m.tokens
  {
    && m.suffixes.Some? && id in m.suffixes.value && m.suffixes.value[id] != ""
    && forall other :: other in m.tokens && other in m.suffixes.value && m.suffixes.value[other] == m.suffixes.value[id]
         ==> m.tokens[other] >= m.tokens[id]
  }

  /** Every option above the model's default is reachable. */
  ghost predicate Covered(m: Model) {
    m.fixed.Some? ||
    (DefaultWindow(m).Some? && forall id :: id in m.tokens && m.tokens[id] > DefaultWindow(m).value ==> Reachable(m, id))
  }

  lemma LaunchRealisesWindow(m: Model, order: seq<string>, window: nat)
    requires Enumerates(order, m) && Covered(m)
    requires LargestWindow(m, order).Some? && window <= LargestWindow(m, order).value
    ensures Realises(m, LaunchFor(m, order, window), window)
  {
    var default, largest := DefaultWindow(m).value, LargestWindow(m, order).value;
    var launch := LaunchFor(m, order, window);
    DefaultNotLargest(m, order);
    if window <= default {
      assert Opens(m, launch.suffix, default);
    } else {
      var fit := SmallestFit(order, m.tokens, window).value;
      assert Reachable(m, fit);
      assert Opens(m, launch.suffix, m.tokens[fit]);
      forall reach: nat | Opens(m, launch.suffix, reach) ensures Capped(reach, launch.autoCompact) == window {
        var id :| id in m.tokens && id in m.suffixes.value && m.suffixes.value[id] == launch.suffix && m.tokens[id] == reach;
        OptionNotLargest(m, order, id);
      }
    }
  }

  lemma OptionNotLargest(m: Model, order: seq<string>, id: string)
    requires Enumerates(order, m) && id in m.tokens && m.fixed.None?
    ensures LargestWindow(m, order).Some? && m.tokens[id] <= LargestWindow(m, order).value
  {
    assert id in order;
  }

  lemma DefaultNotLargest(m: Model, order: seq<string>)
    requires Enumerates(order, m) && DefaultWindow(m).Some?
    ensures LargestWindow(m, order).Some? && DefaultWindow(m).value <= LargestWindow(m, order).value
  {
    if m.fixed.None? {
      OptionNotLargest(m, order, m.defaultOption.value);
    }
  }

  /** Every window up to the largest is realised, however the hash map is iterated. */
  ghost predicate RealisesAll(m: Model) {
    forall order: seq<string>, window: nat
      | Enumerates(order, m) && LargestWindow(m, order).Some? && window <= LargestWindow(m, order).value
      :: Realises(m, LaunchFor(m, order, window), window)
  }

  /** An option that is not reachable is itself a window that is not realised. */
  lemma UnreachableIsNotRealised(m: Model, order: seq<string>)
    requires m.fixed.None? && DefaultWindow(m).Some? && order != [] && Enumerates(order, m)
    requires m.tokens[order[0]] > DefaultWindow(m).value && !Reachable(m, order[0])
    ensures m.tokens[order[0]] <= LargestWindow(m, order).value
    ensures !Realises(m, LaunchFor(m, order, m.tokens[order[0]]), m.tokens[order[0]])
  {
    var id := order[0];
    var window := m.tokens[id];
    var launch := LaunchFor(m, order, window);
    OptionNotLargest(m, order, id);
    assert SmallestFit(order, m.tokens, window) == Some(id);
    if launch.suffix == "" {
      assert Opens(m, "", DefaultWindow(m).value);
    } else {
      var other :| other in m.tokens && other in m.suffixes.value
        && m.suffixes.value[other] == m.suffixes.value[id] && m.tokens[other] < m.tokens[id];
      assert Opens(m, launch.suffix, m.tokens[other]);
    }
  }

  /** Where the i-th element comes from when the k-th is moved to the front. */
  function Source(i: nat, k: nat): nat {
    if i == 0 then k else if i <= k then i - 1 else i
  }

  lemma MovedToFront(m: Model, order: seq<string>, id: string) returns (all: seq<string>)
    requires Enumerates(order, m) && id in m.tokens
    ensures Enumerates(all, m) && all != [] && all[0] == id
  {
    var k :| 0 <= k < |order| && order[k] == id;
    all := seq(|order|, i requires 0 <= i < |order| => order[Source(i, k)]);
    MovedKeepsAll(order, all, k);
    forall other | other in m.tokens ensures other in all {
      assert other in order;
    }
  }

  lemma MovedKeepsAll(order: seq<string>, all: seq<string>, k: nat)
    requires k < |order| == |all| && forall i :: 0 <= i < |all| ==> all[i] == order[Source(i, k)]
    ensures forall id :: id in order ==> id in all
    ensures (forall i, j :: 0 <= i < j < |order| ==> order[i] != order[j]) ==> forall i, j :: 0 <= i < j < |all| ==> all[i] != all[j]
  {
    forall id | id in order ensures id in all {
      var i :| 0 <= i < |order| && order[i] == id;
      var at := if i < k then i + 1 else if i == k then 0 else i;
      assert Source(at, k) == i && all[at] == id;
    }
    if forall i, j :: 0 <= i < j < |order| ==> order[i] != order[j] {
      forall i, j | 0 <= i < j < |all| ensures all[i] != all[j] {
        assert Source(i, k) != Source(j, k);
      }
    }
  }

  /**
   * For a model whose default window is known, every window up to the largest launches with
   * flags that realise exactly it if and only if every option above the default is reachable.
   */
  lemma WindowsRealisedIffCovered(m: Model, order: seq<string>)
    requires DefaultWindow(m).Some? && Enumerates(order, m)
    ensures RealisesAll(m) <==> Covered(m)
  {
    if Covered(m) {
      forall order: seq<string>, window: nat | Enumerates(order, m) && LargestWindow(m, order).Some?
        && window <= LargestWindow(m, order).value
        ensures Realises(m, LaunchFor(m, order, window), window)
      {
        LaunchRealisesWindow(m, order, window);
      }
    } else {
      var id :| id in m.tokens && m.tokens[id] > DefaultWindow(m).value && !Reachable(m, id);
      var front := MovedToFront(m, order, id);
      UnreachableIsNotRealised(m, front);
    }
  }

  // ---------------------------------------------------------------- what a session runs at

  /** A selection that names a window: a text written by the grammar, or a number of at least the minimum. */
  ghost predicate Names(selection: ContextWindow.Value, window: nat) {
    match selection
    case Str(text) =>
      exists w :: ContextWindow.IsWritten(w) && ContextWindow.Spelled(w) == text && ContextWindow.Meaning(w) == Some(window)
    case Number(asU64) => asU64 == Some(window) && window >= ContextWindow.MIN_TOKENS
    case Other => false
  }

  /** A selection that is absent, or that names no window at all. */
  ghost predicate NamesNone(selection: Option<ContextWindow.Value>) {
    selection.Some? ==> forall window :: !Names(selection.value, window)
  }

  lemma NamesIsParsed(selection: ContextWindow.Value, window: nat)
    ensures Names(selection, window) <==> ContextWindow.ParseTokens(selection) == Some(window)
  {
    if selection.Str? {
      if Names(selection, window) {
        var w :| ContextWindow.IsWritten(w) && ContextWindow.Spelled(w) == selection.text && ContextWindow.Meaning(w) == Some(window);
        ContextWindow.WrittenIsRead(w);
      }
      if ContextWindow.ParseTokens(selection) == Some(window) {
        var w := ContextWindow.ReadIsWritten(selection.text);
        ContextWindow.WrittenIsRead(w);
      }
    }
  }

  lemma NamesNoneIsUnparsed(selection: Option<ContextWindow.Value>)
    requires NamesNone(selection)
    ensures selection.Some? ==> ContextWindow.ParseTokens(selection.value).None?
  {
    if selection.Some? && ContextWindow.ParseTokens(selection.value).Some? {
      NamesIsParsed(selection.value, ContextWindow.ParseTokens(selection.value).value);
    }
  }

  /** A session of a covered model runs at the window its selection names. */
  lemma SessionRunsAtSelection(m: Model, order: seq<string>, selection: ContextWindow.Value, window: nat)
    requires Enumerates(order, m) && Covered(m)
    requires Names(selection, window) && LargestWindow(m, order).Some? && window <= LargestWindow(m, order).value
    ensures Realises(m, Resolve(Some(m), order, Some(selection)), window)
  {
    NamesIsParsed(selection, window);
    LaunchRealisesWindow(m, order, window);
  }

  /** Without a selection that names a window, it runs at the model's default. */
  lemma SessionRunsAtDefault(m: Model, order: seq<string>, selection: Option<ContextWindow.Value>)
    requires Enumerates(order, m) && Covered(m) && NamesNone(selection)
    ensures DefaultWindow(m).Some? && Realises(m, Resolve(Some(m), order, selection), DefaultWindow(m).value)
  {
    NamesNoneIsUnparsed(selection);
    DefaultNotLargest(m, order);
    LaunchRealisesWindow(m, order, DefaultWindow(m).value);
  }

  /**
   * A model whose default is not known runs at the window selected, or at 200k without one, if
   * the options from there on are reachable.
   */
  lemma DefaultlessRuns(m: Model, order: seq<string>, selection: Option<ContextWindow.Value>, window: nat)
    requires Enumerates(order, m) && DefaultWindow(m).None?
    requires forall id :: id in m.tokens && m.tokens[id] >= window ==> Reachable(m, id)
    requires LargestWindow(m, order).Some? && window <= LargestWindow(m, order).value
    requires if selection.Some? && !NamesNone(selection) then Names(selection.value, window) else window == 200_000
    ensures Realises(m, Resolve(Some(m), order, selection), window)
  {
    if NamesNone(selection) {
      NamesNoneIsUnparsed(selection);
    } else {
      NamesIsParsed(selection.value, window);
    }
    var launch := LaunchFor(m, order, window);
    var fit := SmallestFit(order, m.tokens, window).value;
    assert Opens(m, launch.suffix, m.tokens[fit]);
    forall reach: nat | Opens(m, launch.suffix, reach) ensures Capped(reach, launch.autoCompact) == window {
      var id :| id in m.tokens && id in m.suffixes.value && m.suffixes.value[id] == launch.suffix && m.tokens[id] == reach;
      OptionNotLargest(m, order, id);
    }
  }

  /** An early compaction is asked for exactly below the largest window, and at the window asked for. */
  lemma CompactsEarlyIffSmaller(m: Model, order: seq<string>, selection: ContextWindow.Value, window: nat)
    requires Enumerates(order, m) && Names(selection, window) && LargestWindow(m, order).Some?
    ensures Resolve(Some(m), order, Some(selection)).autoCompact
         == if window < LargestWindow(m, order).value then Some(window) else None
  {
    NamesIsParsed(selection, window);
  }
}
