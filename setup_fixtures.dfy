/**
 * How the facade runs its setup fixtures once the provider exists: every
 * handler is invoked in subscription order, a handler that throws before
 * returning its task ends the invocation, and the tasks are waited on.
 */
module SetupFixtures {
  import opened Types

  /** The position of the first call whose action throws before returning a task, if any. */
  function FirstThrow(calls: seq<Call>, run: Call -> TaskStatus): (r: Option<nat>)
    ensures r.Some? ==> r.value < |calls| && run(calls[r.value]) == Threw
                        && forall j :: 0 <= j < r.value ==> run(calls[j]) != Threw
    ensures r.None? <==> forall j :: 0 <= j < |calls| ==> run(calls[j]) != Threw
  {
    if calls == [] then None
    else if run(calls[0]) == Threw then Some(0)
    else match FirstThrow(calls[1..], run)
      case None => None
      case Some(i) => Some(i + 1)
  }

  /** The calls actually made: all of them, or those up to and including the first that throws. */
  function Invoked(calls: seq<Call>, run: Call -> TaskStatus): (made: seq<Call>)
    ensures |made| <= |calls| && made == calls[..|made|]
    ensures FirstThrow(calls, run).None? ==> made == calls
    ensures FirstThrow(calls, run).Some? ==> |made| == FirstThrow(calls, run).value + 1
  {
    match FirstThrow(calls, run)
    case None => calls
    case Some(i) => calls[..i + 1]
  }

  /**
   * Waiting on `Task.WhenAll` of the handlers' tasks: a synchronous throw
   * propagates as it is; otherwise the wait raises AggregateException when
   * any task faulted, and passes when all ran to completion.
   */
  function WhenAllOutcome(calls: seq<Call>, run: Call -> TaskStatus): Outcome {
    if FirstThrow(calls, run).Some? then Raise(ActionFailed)
    else if exists i :: 0 <= i < |calls| && run(calls[i]) == Faulted then Raise(Aggregate)
    else Pass
  }

  /**
   * Invoking a multicast delegate and waiting on the task it returns, which
   * is the task of its LAST handler: a synchronous throw propagates;
   * otherwise only the last task's fault is observed.
   */
  function LastTaskOutcome(calls: seq<Call>, run: Call -> TaskStatus): Outcome {
    if FirstThrow(calls, run).Some? then Raise(ActionFailed)
    else if calls != [] && run(calls[|calls| - 1]) == Faulted then Raise(Aggregate)
    else Pass
  }

  /**
   * The handlers' invocation that `Task.WhenAll(...)` drives, followed by the
   * wait: each handler is called in order until one throws.
   */
  method WhenAll(calls: seq<Call>, run: Call -> TaskStatus) returns (made: seq<Call>, o: Outcome)
    ensures made == Invoked(calls, run)
    ensures o == WhenAllOutcome(calls, run)
  {
    made := [];
    var faulted := false;
    var i := 0;
    while i < |calls|
      invariant 0 <= i <= |calls|
      invariant made == calls[..i]
      invariant forall j :: 0 <= j < i ==> run(calls[j]) != Threw
      invariant faulted <==> exists j :: 0 <= j < i && run(calls[j]) == Faulted
    {
      made := made + [calls[i]];
      var status := run(calls[i]);
      if status == Threw {
        assert FirstThrow(calls, run) == Some(i);
        return made, Raise(ActionFailed);
      }
      faulted := faulted || status == Faulted;
      i := i + 1;
    }
    assert made == calls;
    o := if faulted then Raise(Aggregate) else Pass;
  }

  /** Invoking the event directly and waiting on its result: the same invocation, waiting only on the last handler's task. */
  method InvokeAndWaitLast(calls: seq<Call>, run: Call -> TaskStatus) returns (made: seq<Call>, o: Outcome)
    ensures made == Invoked(calls, run)
    ensures o == LastTaskOutcome(calls, run)
  {
    made := [];
    var last := RanToCompletion;
    var i := 0;
    while i < |calls|
      invariant 0 <= i <= |calls|
      invariant made == calls[..i]
      invariant forall j :: 0 <= j < i ==> run(calls[j]) != Threw
      invariant last == if i == 0 then RanToCompletion else run(calls[i - 1])
    {
      made := made + [calls[i]];
      last := run(calls[i]);
      if last == Threw {
        assert FirstThrow(calls, run) == Some(i);
        return made, Raise(ActionFailed);
      }
      i := i + 1;
    }
    assert made == calls;
    o := if last == Faulted then Raise(Aggregate) else Pass;
  }

  /**
   * Waiting on all the tasks passes exactly when every handler returned a
   * task that ran to completion, and then every handler was invoked.
   */
  lemma WhenAllPasses(calls: seq<Call>, run: Call -> TaskStatus)
    ensures WhenAllOutcome(calls, run) == Pass <==> forall c :: c in calls ==> run(c) == RanToCompletion
    ensures WhenAllOutcome(calls, run) == Pass ==> Invoked(calls, run) == calls
  {
    if forall c :: c in calls ==> run(c) == RanToCompletion {
      assert forall j :: 0 <= j < |calls| ==> run(calls[j]) == RanToCompletion;
    } else {
      var c :| c in calls && run(c) != RanToCompletion;
      var j :| 0 <= j < |calls| && calls[j] == c;
      assert run(calls[j]) == Threw || run(calls[j]) == Faulted;
    }
  }

  /** Waiting on the last task never reports more than waiting on all of them; both see a synchronous throw. */
  lemma LastTaskWeakerThanWhenAll(calls: seq<Call>, run: Call -> TaskStatus)
    ensures WhenAllOutcome(calls, run) == Pass ==> LastTaskOutcome(calls, run) == Pass
    ensures LastTaskOutcome(calls, run) == Raise(Aggregate) ==> WhenAllOutcome(calls, run) == Raise(Aggregate)
    ensures (WhenAllOutcome(calls, run) == Raise(ActionFailed)) == (LastTaskOutcome(calls, run) == Raise(ActionFailed))
  {
    if calls != [] && FirstThrow(calls, run).None? && run(calls[|calls| - 1]) == Faulted {
      assert 0 <= |calls| - 1 < |calls|;
    }
  }

  /** With two handlers of which only the first faults, waiting on the last task passes while waiting on all raises. */
  lemma LastTaskMissesEarlierFault(first: Call, second: Call, run: Call -> TaskStatus)
    requires run(first) == Faulted && run(second) == RanToCompletion
    ensures LastTaskOutcome([first, second], run) == Pass
    ensures WhenAllOutcome([first, second], run) == Raise(Aggregate)
  {
    assert [first, second][0] == first;
    assert [first, second][1] == second;
    assert FirstThrow([first, second], run) == None;
  }

  /**
   * ExecuteSetupFixture as written: with no fixture subscribed the event is
   * null, so the handler sequence handed to `Task.WhenAll` is null and the
   * call raises ArgumentNullException; otherwise it waits on all tasks.
   */
  function ExecuteSetupFixtureOutcome(fixtures: seq<Fixture>, p: Provider, run: Call -> TaskStatus): Outcome {
    if fixtures == [] then Raise(ArgumentNull) else WhenAllOutcome(FixtureCalls(fixtures, p), run)
  }

  /** With no fixture subscribed, the code as written raises where waiting on no tasks at all passes. */
  lemma ExecuteSetupFixtureWithoutFixtures(p: Provider, run: Call -> TaskStatus)
    ensures ExecuteSetupFixtureOutcome([], p, run) == Raise(ArgumentNull)
    ensures WhenAllOutcome(FixtureCalls([], p), run) == Pass
    ensures Invoked(FixtureCalls([], p), run) == []
  {
  }
}
