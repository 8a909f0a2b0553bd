/** Claude's background liveness (crates/agent/src/claude.rs, `on_background_tasks_changed`, `on_result`). */
module ClaudeBackground {
  import opened Text

  datatype State = State(tasks: set<string>, results: set<string>)

  /** A report of all running tasks, or a turn's result with its uuid. */
  datatype Step = Reported(taskIds: seq<string>) | Result(uuid: Option<string>)

  const INITIAL := State({}, {})

  datatype Stepped = Stepped(state: State, published: seq<nat>)

  /** A result repeated under the same uuid is ignored. */
  predicate Duplicate(s: State, step: Step) {
    step.Result? && step.uuid.Some? && step.uuid.value in s.results
  }

  function Take(s: State, step: Step): Stepped {
    match step
    case Reported(taskIds) =>
      var tasks := ToSet(taskIds);
      Stepped(s.(tasks := tasks), if tasks == {} && s.tasks != {} then [] else [|tasks|])
    case Result(uuid) =>
      if Duplicate(s, step) then Stepped(s, [])
      else Stepped(if uuid.Some? then s.(results := s.results + {uuid.value}) else s, [|s.tasks|])
  }

  class BackgroundMapper {
    var tasks: set<string>
    var results: set<string>

    constructor ()
      ensures View() == INITIAL
    {
      tasks, results := {}, {};
    }

    function View(): State
      reads this
    {
      State(tasks, results)
    }

    method OnBackgroundTasksChanged(taskIds: seq<string>) returns (published: seq<nat>)
      modifies this`tasks
      ensures Stepped(View(), published) == Take(old(View()), Reported(taskIds))
    {
      var had := tasks != {};
      tasks := ToSet(taskIds);
      if tasks == {} && had {
        return [];
      }
      return [|tasks|];
    }

    method OnResult(uuid: Option<string>) returns (published: seq<nat>)
      modifies this`results
      ensures Stepped(View(), published) == Take(old(View()), Result(uuid))
    {
      if uuid.Some? {
        if uuid.value in results {
          return [];
        }
        results := results + {uuid.value};
      }
      return [|tasks|];
    }
  }

  // ---------------------------------------------------------------- whole runs

  function Run(steps: seq<Step>): Stepped {
    if steps == [] then Stepped(INITIAL, [])
    else
      var before := Run(steps[..|steps| - 1]);
      var last := Take(before.state, steps[|steps| - 1]);
      Stepped(last.state, before.published + last.published)
  }

  /** The count the runtime believes in; a session starts with none. */
  function Published(published: seq<nat>): nat {
    if published == [] then 0 else published[|published| - 1]
  }

  /** The tasks the last report named. */
  function LastReport(steps: seq<Step>): seq<string> {
    if steps == [] then []
    else if steps[|steps| - 1].Reported? then steps[|steps| - 1].taskIds else LastReport(steps[..|steps| - 1])
  }

  /** What is tracked is what the last report named, each task once. */
  lemma {:induction false} TrackedIsLastReport(steps: seq<Step>)
    ensures forall id :: id in Run(steps).state.tasks <==> id in LastReport(steps)
    ensures |Run(steps).state.tasks| <= |LastReport(steps)|
  {
    if steps != [] {
      TrackedIsLastReport(steps[..|steps| - 1]);
      if steps[|steps| - 1].Reported? {
        ToSetIsNoLarger(steps[|steps| - 1].taskIds);
      }
    }
  }

  lemma {:induction false} ToSetIsNoLarger(ids: seq<string>)
    ensures |ToSet(ids)| <= |ids|
  {
    if ids != [] {
      var init, last := ids[..|ids| - 1], ids[|ids| - 1];
      ToSetIsNoLarger(init);
      assert ToSet(ids) == ToSet(init) + {last};
    }
  }

  /**
   * In every reachable state the published count is the tracked one, or nothing is tracked any
   * more and the published count is still positive: no zero is published before its time.
   */
  lemma {:induction false} PublishedIsTracked(steps: seq<Step>)
    ensures var r := Run(steps);
      Published(r.published) == |r.state.tasks| || (r.state.tasks == {} && Published(r.published) > 0)
  {
    if steps != [] {
      PublishedIsTracked(steps[..|steps| - 1]);
      var s := Run(steps[..|steps| - 1]).state;
      assert s.tasks != {} ==> |s.tasks| > 0;
    }
  }

  /** Every result that is not a duplicate leaves the published count equal to the tracked one. */
  lemma ResultRestores(steps: seq<Step>, uuid: Option<string>)
    ensures var after := Run(steps + [Result(uuid)]);
      if Duplicate(Run(steps).state, Result(uuid)) then after == Run(steps)
      else Published(after.published) == |after.state.tasks| && after.state.tasks == Run(steps).state.tasks
  {
    assert (steps + [Result(uuid)])[..|steps|] == steps;
    assert Run(steps).published + [] == Run(steps).published;
  }

  /** The last task was reported gone, and since then only repeated results arrived. */
  predicate Withheld(steps: seq<Step>) {
    steps != [] &&
    (var init, last := steps[..|steps| - 1], steps[|steps| - 1];
     if last.Reported? then ToSet(last.taskIds) == {} && Run(init).state.tasks != {}
     else Duplicate(Run(init).state, last) && Withheld(init))
  }

  /** In every run the published count is off if and only if a zero is being withheld. */
  lemma {:induction false} OffIffWithheld(steps: seq<Step>)
    ensures Published(Run(steps).published) != |Run(steps).state.tasks| <==> Withheld(steps)
  {
    if steps != [] {
      var init := steps[..|steps| - 1];
      OffIffWithheld(init);
      PublishedIsTracked(init);
      assert Run(init).published + [] == Run(init).published;
      assert Run(init).state.tasks != {} ==> |Run(init).state.tasks| > 0;
    }
  }

  /** Repeated results only, which publish nothing. */
  predicate Waiting(s: State, steps: seq<Step>) {
    steps == [] || (Waiting(s, steps[..|steps| - 1]) && Duplicate(s, steps[|steps| - 1]))
  }

  lemma {:induction false} WaitingIsSilent(steps: seq<Step>, wait: seq<Step>)
    requires Waiting(Run(steps).state, wait)
    ensures Run(steps + wait) == Run(steps)
  {
    if wait == [] {
      assert steps + [] == steps;
    } else {
      WaitingIsSilent(steps, wait[..|wait| - 1]);
      assert (steps + wait)[..|steps + wait| - 1] == steps + wait[..|wait| - 1];
      assert Run(steps).published + [] == Run(steps).published;
    }
  }

  /** A new result, or a report of no tasks. */
  predicate Publishes(s: State, step: Step) {
    if step.Reported? then ToSet(step.taskIds) == {} else !Duplicate(s, step)
  }

  /**
   * After the report that drains the last task, the zero is published by exactly the first step
   * that is not a duplicate result: a new result, as intended, but a second empty report as well.
   */
  lemma WithheldZeroAppears(steps: seq<Step>, drain: seq<string>, wait: seq<Step>, step: Step)
    requires Run(steps).state.tasks != {} && ToSet(drain) == {}
    requires Waiting(Run(steps + [Reported(drain)]).state, wait)
    ensures var drained := steps + [Reported(drain)];
      var after := Run(drained + wait + [step]);
      && Run(drained + wait).published == Run(steps).published
      && Published(Run(steps).published) > 0
      && (Published(after.published) == 0 <==> Publishes(Run(drained).state, step))
  {
    var drained := steps + [Reported(drain)];
    assert drained[..|steps|] == steps;
    assert Run(steps).published + [] == Run(steps).published;
    WaitingIsSilent(drained, wait);
    PublishedIsTracked(steps);
    assert (drained + wait + [step])[..|drained + wait|] == drained + wait;
    assert step.Reported? && ToSet(step.taskIds) != {} ==> |ToSet(step.taskIds)| > 0;
  }
}
