/**
 What a shutdown does to the calls, in every interleaving with registration, cancellation
 and the read loop.
 */
module Closing {
  import opened Text
  import opened JsonRpc

  /** The cause of the first shutdown of a run, if any; later ones do not count. */
  function FirstCause(actions: seq<Action>): Option<Option<Err>> {
    if actions == [] then None
    else
      var earlier, last := FirstCause(actions[..|actions| - 1]), actions[|actions| - 1];
      if earlier.None? && last.Begin? then Some(last.cause) else earlier
  }

  lemma {:induction false} CauseIsFirst(actions: seq<Action>)
    ensures After(actions).cause == FirstCause(actions)
    decreases |actions|
  {
    if actions != [] {
      var init, a := actions[..|actions| - 1], actions[|actions| - 1];
      CauseIsFirst(init);
      Reachable(init);
      StepCause(After(init), a);
      hide Step, Inv;
    }
  }

  lemma StepCause(s: State, a: Action)
    requires Inv(s)
    ensures Step(s, a).cause == if s.cause.None? && a.Begin? then Some(a.cause) else s.cause
  {
    hide MapsOk, CallsOk, ReaderOk, TicketsOk, AcceptedOk, Decimal, IdKey;
  }

  /** A missing cause and one that wraps an end of file become a closed pipe; any other stays. */
  lemma CauseIsNormalized(cause: Option<Err>)
    ensures cause.None? || (cause.value.Fault? && cause.value.wrapsEof) ==> NormalizedCause(cause) == ClosedPipe
    ensures cause.Some? && !(cause.value.Fault? && cause.value.wrapsEof) ==> Some(NormalizedCause(cause)) == cause
  {
  }

  /** Every error an inactive branch returns is the normalised cause of the first shutdown. */
  lemma InactiveErrorIsFirstCause(actions: seq<Action>, c: nat, e: Err)
    requires InPhase(After(actions), c, Ended(Inactive(e)))
    ensures FirstCause(actions).Some?
    ensures
      var cause := FirstCause(actions).value;
      if cause.None? || (cause.value.Fault? && cause.value.wrapsEof) then e == ClosedPipe else e == cause.value
  {
    Reachable(actions);
    CauseIsFirst(actions);
    CallAt(After(actions), c);
    CauseIsNormalized(FirstCause(actions).value);
  }

  /** A call that finds its channel closed and empty finds it so because of a shutdown, and returns its cause. */
  lemma EmptyReceiveMeansShutdown(actions: seq<Action>, c: nat)
    requires InPhase(After(actions), c, Waiting)
    requires After(actions).calls[c].ch == FRESH.(closed := true)
    ensures FirstCause(actions).Some?
    ensures InPhase(Step(After(actions), Receive(c)), c, Ended(Inactive(NormalizedCause(FirstCause(actions).value))))
  {
    Reachable(actions);
    CauseIsFirst(actions);
    CallAt(After(actions), c);
  }

  /** Once `done` is closed every waiting call can return, with the cause, whenever it was registered. */
  lemma NoWaiterIsStuck(actions: seq<Action>, c: nat)
    requires After(actions).done && InPhase(After(actions), c, Waiting)
    ensures FirstCause(actions).Some?
    ensures InPhase(Step(After(actions), SeeDone(c)), c, Ended(Inactive(NormalizedCause(FirstCause(actions).value))))
  {
    Reachable(actions);
    CauseIsFirst(actions);
  }

  // ---------- a shutdown that has begun runs to its end on its own ----------

  predicate IsShutdownStep(a: Action) {
    a.Swap? || a.CloseOne? || a.CloseDone?
  }

  /** The steps left to a shutdown. */
  function StepsLeft(s: State): nat {
    match s.shutdown
    case NotBegun => 0
    case CauseSet => |s.pending| + 2
    case Swapped(captured) => |captured| + 1
    case Over => 0
  }

  /** In every state of a begun shutdown that is not over, its next step is possible and leaves fewer. */
  lemma ShutdownCanStep(s: State) returns (a: Action)
    requires Inv(s) && !s.shutdown.NotBegun? && !s.done
    ensures IsShutdownStep(a) && Enabled(s, a)
    ensures StepsLeft(Step(s, a)) + 1 == StepsLeft(s)
    ensures !Step(s, a).shutdown.NotBegun?
  {
    InvHasShutdown(s);
    hide Inv, Step;
    match s.shutdown {
      case CauseSet =>
        a := Swap;
        SwapLeft(s);
      case Swapped(captured) =>
        if captured == map[] {
          a := CloseDone;
          CloseDoneLeft(s);
        } else {
          assert captured.Keys != {};
          var k :| k in captured.Keys;
          a := CloseOne(k);
          CloseOneLeft(s, k);
        }
    }
  }

  lemma SwapLeft(s: State)
    requires s.shutdown.CauseSet?
    ensures StepsLeft(Step(s, Swap)) + 1 == StepsLeft(s) && Step(s, Swap).shutdown.Swapped?
  {
  }

  lemma CloseDoneLeft(s: State)
    requires s.shutdown == Swapped(map[])
    ensures StepsLeft(Step(s, CloseDone)) + 1 == StepsLeft(s) && Step(s, CloseDone).shutdown.Over?
  {
  }

  lemma CloseOneLeft(s: State, k: string)
    requires Enabled(s, CloseOne(k))
    ensures StepsLeft(Step(s, CloseOne(k))) + 1 == StepsLeft(s) && Step(s, CloseOne(k)).shutdown.Swapped?
  {
    FewerEntries(s.shutdown.captured, k);
  }

  lemma InvHasShutdown(s: State)
    requires Inv(s)
    ensures s.done <==> s.shutdown.Over?
    ensures s.shutdown.Swapped? ==> forall k :: k in s.shutdown.captured ==> s.shutdown.captured[k] < |s.calls|
  {
  }

  lemma ShutdownStepKeepsWaiters(s: State, a: Action, c: nat)
    requires IsShutdownStep(a) && InPhase(s, c, Waiting)
    ensures InPhase(Step(s, a), c, Waiting)
  {
  }

  lemma {:induction false} ShutdownCompletes(s: State, c: nat) returns (plan: seq<Action>)
    requires Inv(s) && !s.shutdown.NotBegun? && InPhase(s, c, Waiting)
    ensures |plan| == StepsLeft(s) && forall i :: 0 <= i < |plan| ==> IsShutdownStep(plan[i])
    ensures Run(s, plan).done && InPhase(Run(s, plan), c, Waiting)
    decreases StepsLeft(s)
  {
    if s.done {
      plan := [];
    } else {
      var a := ShutdownCanStep(s);
      StepKeepsInv(s, a);
      ShutdownStepKeepsWaiters(s, a, c);
      hide Inv, Step, IsShutdownStep, StepsLeft;
      var rest := ShutdownCompletes(Step(s, a), c);
      plan := [a] + rest;
      RunCons(s, a, rest);
    }
  }

  lemma {:induction false} RunCons(s: State, a: Action, rest: seq<Action>)
    ensures Run(s, [a] + rest) == Run(Step(s, a), rest)
    decreases |rest|
  {
    hide Step;
    if rest == [] {
      RunSnoc(s, [], a);
      assert [] + [a] == [a] == [a] + rest;
    } else {
      var init, last := rest[..|rest| - 1], rest[|rest| - 1];
      assert [a] + rest == ([a] + init) + [last];
      RunCons(s, a, init);
      RunSnoc(s, [a] + init, last);
    }
  }

  /**
   From any reachable state in which a shutdown has begun, its own remaining steps close `done`, and
   then a waiting call, however late it registered, returns the cause.
   */
  lemma WaiterReturnsAfterShutdown(actions: seq<Action>, c: nat) returns (plan: seq<Action>)
    requires FirstCause(actions).Some? && InPhase(After(actions), c, Waiting)
    ensures |plan| == StepsLeft(After(actions)) && forall i :: 0 <= i < |plan| ==> IsShutdownStep(plan[i])
    ensures
      var cause := NormalizedCause(FirstCause(actions).value);
      InPhase(After(actions + plan + [SeeDone(c)]), c, Ended(Inactive(cause)))
  {
    Reachable(actions);
    CauseIsFirst(actions);
    var s := After(actions);
    plan := ShutdownCompletes(s, c);
    RunAppend(INITIAL, actions, plan);
    CauseStays(s, plan);
    CauseIsFirst(actions + plan);
    NoWaiterIsStuck(actions + plan, c);
    RunSnoc(INITIAL, actions + plan, SeeDone(c));
  }

  lemma {:induction false} CauseStays(s: State, actions: seq<Action>)
    requires Inv(s) && s.cause.Some?
    ensures Run(s, actions).cause == s.cause
    decreases |actions|
  {
    hide Step, Inv;
    if actions != [] {
      var init, a := actions[..|actions| - 1], actions[|actions| - 1];
      CauseStays(s, init);
      RunKeepsInv(s, init);
      StepCause(Run(s, init), a);
    }
  }
}
