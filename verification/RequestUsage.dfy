/** Context usage of the request in progress (crates/agent/src/claude.rs, `Mapper::observe_request_usage`). */
module RequestUsage {
  import opened Text

  datatype Freshness = Unknown | Current | LastKnown | Compacting | AwaitingObservation

  /** The token counts of a usage record; a field that is absent or not a u64 is `None`. */
  datatype Counts = Counts(input: Option<nat>, cacheRead: Option<nat>, cacheCreation: Option<nat>, output: Option<nat>)

  const NO_COUNTS := Counts(None, None, None, None)

  datatype Latest = Latest(freshness: Freshness, input: Option<nat>, cached: Option<nat>, output: Option<nat>,
                           used: Option<nat>, window: Option<nat>)

  datatype State = State(request: Counts, latest: Latest, current: Option<string>, known: set<string>)

  const INITIAL := State(NO_COUNTS, Latest(Unknown, None, None, None, None, None), None, {})

  datatype Step =
    | Observed(id: Option<string>, usage: Option<Counts>)
    | TurnBegan
    | CompactionBegan
    | Compacted
    | ResultTaken(window: Option<nat>)

  // ---------------------------------------------------------------- specification

  function SaturatingAdd(a: nat, b: nat): nat {
    if a + b <= U64_MAX then a + b else U64_MAX
  }

  function OrZero(a: Option<nat>): nat {
    if a.Some? then a.value else 0
  }

  /** `Option`'s order: nothing is below any count. */
  predicate AtMost(a: Option<nat>, b: Option<nat>) {
    a.None? || (b.Some? && a.value <= b.value)
  }

  /** A later report replaces what it carries, except that output never goes back. */
  function Merged(request: Counts, usage: Counts): Counts {
    Counts(OrElse(usage.input, request.input), OrElse(usage.cacheRead, request.cacheRead),
           OrElse(usage.cacheCreation, request.cacheCreation),
           if usage.output.Some? && AtMost(request.output, usage.output) then usage.output else request.output)
  }

  function UsedTokens(c: Counts): Option<nat> {
    if c.input.None? then None
    else Some(SaturatingAdd(SaturatingAdd(c.input.value, OrZero(c.cacheRead)), OrZero(c.cacheCreation)))
  }

  function Shown(latest: Latest, c: Counts): Latest {
    var used := UsedTokens(c);
    Latest(if used.Some? then Current else AwaitingObservation, c.input, c.cacheRead, c.output, used, latest.window)
  }

  /** An unnamed message, or one that was observed before and is no longer in progress. */
  predicate Ignored(s: State, id: Option<string>) {
    id.None? || (s.current != id && id.value in s.known)
  }

  function Observe(s: State, id: Option<string>, usage: Option<Counts>): State {
    if Ignored(s, id) then s
    else
      var live := if s.current == id then s else s.(request := NO_COUNTS, current := id, known := s.known + {id.value});
      var request := if usage.Some? then Merged(live.request, usage.value) else live.request;
      live.(request := request, latest := Shown(s.latest, request))
  }

  function Take(s: State, step: Step): State {
    match step
    case Observed(id, usage) => Observe(s, id, usage)
    case TurnBegan =>
      s.(request := NO_COUNTS, current := None,
         latest := if s.latest.freshness == Current then s.latest.(freshness := LastKnown) else s.latest)
    case CompactionBegan => s.(latest := s.latest.(freshness := Compacting))
    case Compacted =>
      s.(request := NO_COUNTS, current := None, latest := Latest(AwaitingObservation, None, None, None, None, s.latest.window))
    case ResultTaken(window) => s.(latest := s.latest.(window := OrElse(window, s.latest.window)))
  }

  function Run(steps: seq<Step>): State {
    if steps == [] then INITIAL else Take(Run(steps[..|steps| - 1]), steps[|steps| - 1])
  }

  // ---------------------------------------------------------------- the mapper's fields

  class UsageMapper {
    var request: Counts
    var latest: Latest
    var current: Option<string>
    var known: set<string>

    constructor ()
      ensures View() == INITIAL
    {
      request, latest, current, known := NO_COUNTS, INITIAL.latest, None, {};
    }

    function View(): State
      reads this
    {
      State(request, latest, current, known)
    }

    /** The answer is the event's payload, when the observation is one to report. */
    method ObserveRequestUsage(id: Option<string>, usage: Option<Counts>, start: bool) returns (report: Option<Latest>)
      modifies this
      ensures View() == Observe(old(View()), id, usage)
      ensures report == if Ignored(old(View()), id) || !(usage.Some? || start) then None else Some(latest)
    {
      if id.None? {
        return None;
      }
      if current != id {
        if id.value in known {
          return None;
        }
        known := known + {id.value};
        current := id;
        request := NO_COUNTS;
      }
      if usage.Some? {
        var u := usage.value;
        if u.input.Some? { request := request.(input := u.input); }
        if u.cacheRead.Some? { request := request.(cacheRead := u.cacheRead); }
        if u.cacheCreation.Some? { request := request.(cacheCreation := u.cacheCreation); }
        if u.output.Some? && AtMost(request.output, u.output) { request := request.(output := u.output); }
      }
      latest := latest.(input := request.input, cached := request.cacheRead, output := request.output);
      latest := latest.(used := UsedTokens(request));
      latest := latest.(freshness := if latest.used.Some? then Current else AwaitingObservation);
      report := if usage.Some? || start then Some(latest) else None;
    }

    method StartTurn()
      modifies this
      ensures View() == Take(old(View()), TurnBegan)
    {
      current := None;
      request := NO_COUNTS;
      if latest.freshness == Current {
        latest := latest.(freshness := LastKnown);
      }
    }

    method OnCompacting()
      modifies this`latest
      ensures View() == Take(old(View()), CompactionBegan)
    {
      latest := latest.(freshness := Compacting);
    }

    method OnCompactBoundary()
      modifies this
      ensures View() == Take(old(View()), Compacted)
    {
      request, current := NO_COUNTS, None;
      latest := latest.(used := None, input := None, cached := None, output := None, freshness := AwaitingObservation);
    }

    method OnResult(window: Option<nat>)
      modifies this`latest
      ensures View() == Take(old(View()), ResultTaken(window))
    {
      if window.Some? {
        latest := latest.(window := window);
      }
    }
  }

  // ---------------------------------------------------------------- the request in progress, from the history

  predicate SeenBefore(steps: seq<Step>, id: string) {
    steps != [] && ((steps[|steps| - 1].Observed? && steps[|steps| - 1].id == Some(id)) || SeenBefore(steps[..|steps| - 1], id))
  }

  /**
   * The request in progress: the message observed last among those never seen before, unless a
   * turn began or a compaction ended since.
   */
  function InProgress(steps: seq<Step>): Option<string> {
    if steps == [] then None
    else
      var init, last := steps[..|steps| - 1], steps[|steps| - 1];
      match last
      case TurnBegan => None
      case Compacted => None
      case Observed(Some(id), _) => if SeenBefore(init, id) then InProgress(init) else Some(id)
      case _ => InProgress(init)
  }

  /** What was reported for the request in progress, in order. */
  function Reports(steps: seq<Step>): seq<Counts> {
    if steps == [] || InProgress(steps).None? then []
    else
      var init, last := steps[..|steps| - 1], steps[|steps| - 1];
      var before := if InProgress(init) == InProgress(steps) then Reports(init) else [];
      if last.Observed? && last.id == InProgress(steps) && last.usage.Some? then before + [last.usage.value] else before
  }

  function LastReported(reports: seq<Counts>, field: Counts -> Option<nat>): Option<nat> {
    if reports == [] then None
    else OrElse(field(reports[|reports| - 1]), LastReported(reports[..|reports| - 1], field))
  }

  /** The greatest output reported, however the reports are ordered. */
  ghost predicate IsGreatestOutput(reports: seq<Counts>, output: Option<nat>) {
    && (forall i :: 0 <= i < |reports| ==> AtMost(reports[i].output, output))
    && (output.Some? ==> exists i :: 0 <= i < |reports| && reports[i].output == output)
  }

  const INPUT: Counts -> Option<nat> := (c: Counts) => c.input
  const CACHE_READ: Counts -> Option<nat> := (c: Counts) => c.cacheRead
  const CACHE_CREATION: Counts -> Option<nat> := (c: Counts) => c.cacheCreation

  ghost predicate Summarises(request: Counts, reports: seq<Counts>) {
    && request.input == LastReported(reports, INPUT)
    && request.cacheRead == LastReported(reports, CACHE_READ)
    && request.cacheCreation == LastReported(reports, CACHE_CREATION)
    && IsGreatestOutput(reports, request.output)
  }

  lemma SummarisesMore(request: Counts, reports: seq<Counts>, usage: Counts)
    requires Summarises(request, reports)
    ensures Summarises(Merged(request, usage), reports + [usage])
  {
    var all, merged := reports + [usage], Merged(request, usage);
    assert all[..|all| - 1] == reports;
    if merged.output.Some? {
      if merged.output == usage.output {
        assert all[|reports|].output == merged.output;
      } else {
        var i :| 0 <= i < |reports| && reports[i].output == request.output;
        assert all[i].output == merged.output;
      }
    }
  }

  lemma SummarisesNothing()
    ensures Summarises(NO_COUNTS, [])
  {
  }

  /** The tracked request is the one in progress, and its counts summarise exactly its reports. */
  lemma {:induction false} RequestIsInProgress(steps: seq<Step>)
    ensures var s := Run(steps);
      && s.current == InProgress(steps)
      && (forall id :: id in s.known <==> SeenBefore(steps, id))
      && (s.current.Some? ==> s.current.value in s.known)
      && Summarises(s.request, Reports(steps))
  {
    SummarisesNothing();
    if steps != [] {
      var init, last := steps[..|steps| - 1], steps[|steps| - 1];
      RequestIsInProgress(init);
      var s := Run(init);
      if last.Observed? && last.id.Some? && InProgress(steps) == last.id && last.usage.Some? {
        var before := if InProgress(init) == InProgress(steps) then Reports(init) else [];
        SummarisesMore(if s.current == last.id then s.request else NO_COUNTS, before, last.usage.value);
      }
    }
  }

  // ---------------------------------------------------------------- main results

  /**
   * Whenever the shown usage counts as current, there is a request in progress and the used
   * tokens are the saturating sum of the input, cache-read and cache-creation it last reported.
   */
  lemma {:induction false} CurrentIsTheRequest(steps: seq<Step>)
    ensures var s, reports := Run(steps), Reports(steps);
      s.latest.freshness == Current ==>
        && InProgress(steps).Some?
        && LastReported(reports, INPUT).Some?
        && s.latest.input == LastReported(reports, INPUT)
        && s.latest.cached == LastReported(reports, CACHE_READ)
        && IsGreatestOutput(reports, s.latest.output)
        && s.latest.used == Some(SaturatingAdd(SaturatingAdd(LastReported(reports, INPUT).value,
             OrZero(LastReported(reports, CACHE_READ))), OrZero(LastReported(reports, CACHE_CREATION))))
  {
    RequestIsInProgress(steps);
    LatestShowsRequest(steps);
  }

  lemma {:induction false} LatestShowsRequest(steps: seq<Step>)
    ensures var s := Run(steps);
      s.latest.freshness == Current ==> s.current.Some? && s.latest == Shown(s.latest, s.request)
  {
    if steps != [] {
      LatestShowsRequest(steps[..|steps| - 1]);
      RequestIsInProgress(steps[..|steps| - 1]);
    }
  }

  /** Within a request the output tokens never decrease. */
  lemma OutputNeverDecreases(steps: seq<Step>, step: Step)
    requires InProgress(steps).Some? && InProgress(steps + [step]) == InProgress(steps)
    ensures AtMost(Run(steps).request.output, Run(steps + [step]).request.output)
  {
    assert (steps + [step])[..|steps|] == steps;
    RequestIsInProgress(steps);
  }

  /** An observation of a message that was seen before and is no longer in progress changes nothing. */
  lemma SupersededChangesNothing(steps: seq<Step>, id: string, usage: Option<Counts>)
    requires SeenBefore(steps, id) && InProgress(steps) != Some(id)
    ensures Run(steps + [Observed(Some(id), usage)]) == Run(steps)
  {
    assert (steps + [Observed(Some(id), usage)])[..|steps|] == steps;
    RequestIsInProgress(steps);
  }

  /** Once a request is no longer in progress it never is again. */
  lemma {:induction false} NeverResumed(steps: seq<Step>, more: seq<Step>, id: string)
    requires SeenBefore(steps, id) && InProgress(steps) != Some(id)
    ensures SeenBefore(steps + more, id) && InProgress(steps + more) != Some(id)
  {
    if more == [] {
      assert steps + [] == steps;
    } else {
      NeverResumed(steps, more[..|more| - 1], id);
      assert (steps + more)[..|steps + more| - 1] == steps + more[..|more| - 1];
    }
  }

  /** An observation of the request in progress makes the shown usage current, once its input was reported. */
  lemma ObservationIsCurrent(steps: seq<Step>, id: string, usage: Option<Counts>)
    requires InProgress(steps + [Observed(Some(id), usage)]) == Some(id)
    ensures var after := steps + [Observed(Some(id), usage)];
      Run(after).latest.freshness == if LastReported(Reports(after), INPUT).Some? then Current else AwaitingObservation
  {
    var after := steps + [Observed(Some(id), usage)];
    assert after[..|steps|] == steps;
    RequestIsInProgress(steps);
    RequestIsInProgress(after);
  }

  /** How old the shown usage is, but for observations: told by what happened since the last one. */
  lemma FreshnessFollows(steps: seq<Step>, step: Step)
    requires !step.Observed?
    ensures var before, after := Run(steps).latest, Run(steps + [step]).latest;
      match step
      case TurnBegan => after == before.(freshness := if before.freshness == Current then LastKnown else before.freshness)
      case CompactionBegan => after == before.(freshness := Compacting)
      case Compacted => after == Latest(AwaitingObservation, None, None, None, None, before.window)
      case _ => after.freshness == before.freshness && after == before.(window := after.window)
  {
    assert (steps + [step])[..|steps|] == steps;
  }

  /** The window shown is the last one that a result named. */
  function LastWindow(steps: seq<Step>): Option<nat> {
    if steps == [] then None
    else
      var last := steps[|steps| - 1];
      if last.ResultTaken? && last.window.Some? then last.window else LastWindow(steps[..|steps| - 1])
  }

  lemma {:induction false} WindowIsLastNamed(steps: seq<Step>)
    ensures Run(steps).latest.window == LastWindow(steps)
  {
    if steps != [] {
      WindowIsLastNamed(steps[..|steps| - 1]);
    }
  }
}
