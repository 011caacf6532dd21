/** The prompt barrier over whole runs. */
module PromptRuns {
  import opened PromptBarrier

  ghost predicate IsRun(states: seq<State>, actions: seq<Action>) {
    && |states| == |actions| + 1
    && states[0] == Init()
    && forall i {:trigger actions[i]} :: 0 <= i < |actions| ==>
         Enabled(states[i], actions[i]) && states[i + 1] == Step(states[i], actions[i])
  }

  lemma {:induction false} RunKeepsInv(states: seq<State>, actions: seq<Action>, i: nat)
    requires IsRun(states, actions) && i < |states|
    ensures Inv(states[i])
  {
    if i > 0 {
      RunKeepsInv(states, actions, i - 1);
      StepKeepsInv(states[i - 1], actions[i - 1]);
    }
  }

  /** The counter is the number of prompts whose guard has not been finished, so no decrement can take it
      below zero. */
  lemma CounterCountsUnstarted(states: seq<State>, actions: seq<Action>, i: nat)
    requires IsRun(states, actions) && i < |states|
    ensures states[i].starting == Count(states[i].guards)
    ensures forall k | 0 <= k < |states[i].guards| && Unfinished(states[i].guards[k]) :: states[i].starting > 0
  {
    RunKeepsInv(states, actions, i);
    CountZero(states[i].guards);
  }

  /** However often a guard is finished and dropped, it decrements at most once. */
  lemma {:induction false} DecrementsOnce(states: seq<State>, actions: seq<Action>, i: nat, j: nat, k: nat)
    requires IsRun(states, actions) && i < j < |states|
    requires actions[i] == Decrement(k)
    ensures k < |states[j].guards| && (states[j].guards[k] == Notifying || states[j].guards[k] == Finished)
    ensures j < |actions| ==> actions[j] != Decrement(k)
    decreases j
  {
    if j > i + 1 {
      DecrementsOnce(states, actions, i, j - 1, k);
    }
  }

  /** No lost wakeup: a parked waiter without a permit always has a prompt to wait for or a notification
      on its way. */
  lemma NoLostWakeup(states: seq<State>, actions: seq<Action>, i: nat)
    requires IsRun(states, actions) && i < |states| && states[i].waiter == Parked
    ensures (exists k :: 0 <= k < |states[i].guards| && Unfinished(states[i].guards[k])) || Owed(states[i])
  {
    RunKeepsInv(states, actions, i);
    CountZero(states[i].guards);
  }

  /** The barrier lets the shutdown through only at a moment when no accepted prompt is unsent. */
  lemma ReturnsOnlyWhenStarted(states: seq<State>, actions: seq<Action>, i: nat)
    requires IsRun(states, actions) && i < |actions|
    requires states[i].waiter != Returned && states[i + 1].waiter == Returned
    ensures forall k | 0 <= k < |states[i].guards| :: !Unfinished(states[i].guards[k])
  {
    RunKeepsInv(states, actions, i);
    assert actions[i] == ReadCounter;
    CountZero(states[i].guards);
  }

  // ---- Progress -------------------------------------------------------------------------------

  /** The waiter's next step by itself, if it has one. */
  function WaiterStep(s: State): State {
    match s.waiter
    case Looping => Step(s, CreateFuture)
    case Armed => Step(s, ReadCounter)
    case Polling => Step(s, PollFuture)
    case Parked => s
    case Returned => s
  }

  function WaiterRuns(s: State, steps: nat): State
    decreases steps
  {
    if steps == 0 then s else WaiterRuns(WaiterStep(s), steps - 1)
  }

  /** Once every guard has finished, the waiter returns within three of its own steps, wherever it was
      and whatever stale permits were stored. */
  lemma WaiterReturns(states: seq<State>, actions: seq<Action>, i: nat)
    requires IsRun(states, actions) && i < |states|
    requires forall k | 0 <= k < |states[i].guards| :: states[i].guards[k] == Finished
    ensures WaiterRuns(states[i], 3).waiter == Returned
  {
    var s := states[i];
    RunKeepsInv(states, actions, i);
    CountZero(s.guards);
    assert !Owed(s);
    var one := WaiterStep(s);
    var two := WaiterStep(one);
    assert WaiterRuns(s, 3) == WaiterRuns(one, 2) == WaiterRuns(two, 1);
    assert WaiterRuns(two, 1) == WaiterRuns(WaiterStep(two), 0);
  }
}
