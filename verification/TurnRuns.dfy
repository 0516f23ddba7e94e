/**
 The client's turns as a step system: handlers whose locked sections interleave, any number of
 failures and closes, and the slot of the active turn. As in `JsonRpc`, a step that is not enabled
 does nothing, so every sequence of steps is a run.
 */
module TurnRuns {
  import opened Text
  import opened Turn

  /** A handler after its locked section: what it has still to send, and whether it then closes the handle. */
  datatype Worker = Worker(queue: seq<Message>, closes: bool)

  /** The once-only close: its caller sends the error, closes the three channels one by one, and calls back. */
  datatype Once = Fresh | Running(stage: nat, err: Option<string>) | Finished

  /**
   `produced` counts the results ever made, `errBuf` is the errors channel's buffer of one, and the
   three counters say how often each channel was closed. `overflow` is set if the error did not fit, and
   `panicked` if a message was sent on the closed messages channel, which its handler does not survive.
   */
  datatype TurnState = TurnState(
    fields: Fields, workers: seq<Worker>, sent: seq<Message>, produced: nat,
    once: Once, errBuf: seq<string>, overflow: bool,
    doneCloses: nat, messagesCloses: nat, errsCloses: nat, panicked: bool)

  function NewTurn(sessionID: string): TurnState {
    TurnState(NewFields(sessionID), [], [], 0, Fresh, [], false, 0, 0, 0, false)
  }

  datatype TurnAction =
    | Lock(input: Input) | Deliver(w: nat) | CloseBy(w: nat) | FailWith(err: string) | CloseStage

  predicate TurnEnabled(t: TurnState, a: TurnAction) {
    match a
    case Lock(_) => true
    case Deliver(w) => w < |t.workers| && t.workers[w].queue != []
    case CloseBy(w) => w < |t.workers| && t.workers[w].queue == [] && t.workers[w].closes && t.once.Fresh?
    case FailWith(_) => t.once.Fresh?
    case CloseStage => t.once.Running?
  }

  function CountResults(messages: seq<Message>): nat {
    if messages == [] then 0 else (if messages[0].Result? then 1 else 0) + CountResults(messages[1..])
  }

  function TurnApply(t: TurnState, a: TurnAction): TurnState
    requires TurnEnabled(t, a)
  {
    match a
    case Lock(input) =>
      var (f, messages) := OnInput(t.fields, input);
      t.(fields := f, workers := t.workers + [Worker(messages, ClosesAfter(messages))],
         produced := t.produced + CountResults(messages))
    case Deliver(w) =>
      var queue := t.workers[w].queue;
      if t.messagesCloses > 0 then t.(panicked := true)
      else t.(sent := t.sent + [queue[0]], workers := t.workers[w := t.workers[w].(queue := queue[1..])])
    case CloseBy(_) => t.(once := Running(0, None))
    case FailWith(err) => t.(once := Running(0, Some(err)))
    case CloseStage =>
      var stage, err := t.once.stage, t.once.err;
      if stage == 0 then
        if err.None? then t.(once := Running(1, err))
        else if t.errBuf == [] then t.(once := Running(1, err), errBuf := [err.value])
        else t.(overflow := true)
      else if stage == 1 then t.(once := Running(2, err), doneCloses := t.doneCloses + 1)
      else if stage == 2 then t.(once := Running(3, err), messagesCloses := t.messagesCloses + 1)
      else if stage == 3 then t.(once := Running(4, err), errsCloses := t.errsCloses + 1)
      else t.(once := Finished)
  }

  // ---------- the client ----------

  datatype State = State(active: Option<nat>, turns: seq<TurnState>, sessionID: string)

  function InitialState(sessionID: string): State {
    State(None, [], sessionID)
  }

  /** `Release` is also the release of a turn whose prompt could not be sent, and any late release. */
  datatype Action = Begin | Release(t: nat) | On(t: nat, a: TurnAction)

  function ReleaseTurn(s: State, t: nat): State {
    if s.active == Some(t) then s.(active := None) else s
  }

  /** The last stage of a close calls back to release the turn. */
  function Step(s: State, a: Action): State {
    match a
    case Begin =>
      if s.active.Some? then s else s.(active := Some(|s.turns|), turns := s.turns + [NewTurn(s.sessionID)])
    case Release(t) => ReleaseTurn(s, t)
    case On(t, b) =>
      if t >= |s.turns| || !TurnEnabled(s.turns[t], b) then s
      else
        var turn := TurnApply(s.turns[t], b);
        var next := s.(turns := s.turns[t := turn]);
        if b.CloseStage? && turn.once.Finished? then ReleaseTurn(next, t) else next
  }

  function Run(s: State, actions: seq<Action>): State {
    if actions == [] then s else Step(Run(s, actions[..|actions| - 1]), actions[|actions| - 1])
  }

  // ---------- one turn ----------

  /** The results handlers have still to send. */
  function Queued(workers: seq<Worker>): nat {
    if workers == [] then 0
    else Queued(workers[..|workers| - 1]) + CountResults(workers[|workers| - 1].queue)
  }

  ghost predicate StageOk(t: TurnState) {
    && !t.overflow && |t.errBuf| <= 1 && (t.panicked ==> t.messagesCloses > 0)
    && match t.once
       case Fresh => t.errBuf == [] && t.doneCloses == t.messagesCloses == t.errsCloses == 0
       case Running(stage, err) =>
         && stage <= 4 && (stage == 0 ==> t.errBuf == [])
         && t.doneCloses == (if stage >= 2 then 1 else 0)
         && t.messagesCloses == (if stage >= 3 then 1 else 0)
         && t.errsCloses == (if stage >= 4 then 1 else 0)
       case Finished => t.doneCloses == t.messagesCloses == t.errsCloses == 1
  }

  /** A result exists exactly when the handle is closed, both signals having arrived, and is sent or still queued. */
  ghost predicate TurnInv(t: TurnState) {
    && (t.fields.closed <==> t.fields.promptAcked && t.fields.terminal)
    && t.produced == (if t.fields.closed then 1 else 0)
    && CountResults(t.sent) + Queued(t.workers) == t.produced
    && StageOk(t)
  }

  /**
   Exactly one handler closes a closed handle, and none an open one; only that handler has the result to send.
   */
  ghost predicate CloserOk(t: TurnState) {
    && (forall w :: 0 <= w < |t.workers| && t.workers[w].closes ==> t.fields.closed)
    && (forall v, w :: 0 <= v < w < |t.workers| ==> !(t.workers[v].closes && t.workers[w].closes))
    && (t.fields.closed ==> exists w :: 0 <= w < |t.workers| && t.workers[w].closes)
    && (forall w :: 0 <= w < |t.workers| && !t.workers[w].closes ==> CountResults(t.workers[w].queue) == 0)
  }

  lemma {:induction false} CountAppend(a: seq<Message>, b: seq<Message>)
    ensures CountResults(a + b) == CountResults(a) + CountResults(b)
  {
    if a == [] {
      assert a + b == b;
    } else {
      assert (a + b)[1..] == a[1..] + b;
      CountAppend(a[1..], b);
    }
  }

  lemma {:induction false} QueuedUpdate(workers: seq<Worker>, w: nat, worker: Worker)
    requires w < |workers|
    ensures Queued(workers[w := worker]) + CountResults(workers[w].queue)
         == Queued(workers) + CountResults(worker.queue)
  {
    var n := |workers| - 1;
    if w == n {
      assert workers[w := worker][..n] == workers[..n];
    } else {
      assert workers[w := worker][..n] == workers[..n][w := worker];
      QueuedUpdate(workers[..n], w, worker);
    }
  }

  /** A locked section makes a result exactly when it closes the handle, which needs both signals. */
  lemma InputResults(f: Fields, input: Input)
    ensures
      var (g, messages) := OnInput(f, input);
      && CountResults(messages) == (if g.closed && !f.closed then 1 else 0)
      && (f.closed ==> g.closed)
      && (g.closed && !f.closed ==> g.promptAcked && g.terminal)
      && (f.closed == (f.promptAcked && f.terminal) ==> g.closed == (g.promptAcked && g.terminal))
      && (f.promptAcked ==> g.promptAcked) && (f.terminal ==> g.terminal)
  {
    hide TrimSpace, BlockOf;
    match input
    case FromPrompt(r) =>
    case FromEvent(ev) =>
      CountAssistant(ev);
      if IsTerminal(ev) && !f.closed {
        var g := Noted(f, ev);
        var h := g.(terminal := true, turnErr := if TrimSpace(ev.error) != "" then TrimSpace(ev.error) else g.turnErr);
        CountAppend(MessageOf(ev), TryClose(h).1);
      }
  }

  lemma CountAssistant(ev: Event)
    ensures CountResults(MessageOf(ev)) == 0
  {
    hide BlockOf;
    if MessageOf(ev) != [] {
      assert MessageOf(ev)[0] in MessageOf(ev);
    }
  }

  lemma LockKeepsInv(t: TurnState, input: Input)
    requires TurnInv(t)
    ensures TurnInv(TurnApply(t, Lock(input)))
  {
    hide OnInput;
    InputResults(t.fields, input);
    var u := TurnApply(t, Lock(input));
    assert u.workers[..|t.workers|] == t.workers;
    if t.fields.closed {
      ClosedIsSettled(t.fields, input);
    }
  }

  lemma ClosedIsSettled(f: Fields, input: Input)
    requires f.closed
    ensures OnInput(f, input) == (f, [])
  {
  }

  lemma DeliverKeepsInv(t: TurnState, w: nat)
    requires TurnInv(t) && TurnEnabled(t, Deliver(w))
    ensures TurnInv(TurnApply(t, Deliver(w)))
  {
    var queue := t.workers[w].queue;
    CountAppend(t.sent, [queue[0]]);
    QueuedUpdate(t.workers, w, t.workers[w].(queue := queue[1..]));
    assert CountResults([queue[0]]) == if queue[0].Result? then 1 else 0;
  }

  /** A handler closes the handle afterwards exactly when its section made the result. */
  lemma InputCloses(f: Fields, input: Input)
    ensures
      var (g, messages) := OnInput(f, input);
      && (ClosesAfter(messages) <==> g.closed && !f.closed)
      && (!ClosesAfter(messages) ==> CountResults(messages) == 0)
  {
    InputResults(f, input);
    hide TrimSpace, BlockOf;
    match input
    case FromPrompt(r) =>
    case FromEvent(ev) => CountAssistant(ev);
  }

  lemma LockKeepsCloser(t: TurnState, input: Input)
    requires CloserOk(t)
    ensures CloserOk(TurnApply(t, Lock(input)))
  {
    InputCloses(t.fields, input);
    InputResults(t.fields, input);
    hide OnInput, ClosesAfter, CountResults;
    var u := TurnApply(t, Lock(input));
    assert forall w :: 0 <= w < |t.workers| ==> u.workers[w] == t.workers[w];
    if t.fields.closed {
      var w :| 0 <= w < |t.workers| && t.workers[w].closes;
      assert u.workers[w].closes;
    } else if u.fields.closed {
      assert u.workers[|t.workers|].closes;
    }
  }

  lemma DeliverKeepsCloser(t: TurnState, w: nat)
    requires CloserOk(t) && TurnEnabled(t, Deliver(w))
    ensures CloserOk(TurnApply(t, Deliver(w)))
  {
    var u := TurnApply(t, Deliver(w));
    assert |u.workers| == |t.workers|;
    assert forall v :: 0 <= v < |t.workers| ==> u.workers[v].closes == t.workers[v].closes;
    if t.fields.closed {
      var v :| 0 <= v < |t.workers| && t.workers[v].closes;
      assert u.workers[v].closes;
    }
  }

  lemma TurnStepKeepsCloser(t: TurnState, a: TurnAction)
    requires CloserOk(t) && TurnEnabled(t, a)
    ensures CloserOk(TurnApply(t, a))
  {
    match a
    case Lock(input) => LockKeepsCloser(t, input);
    case Deliver(w) => DeliverKeepsCloser(t, w);
    case _ => hide CountResults;
  }

  lemma TurnStepKeepsInv(t: TurnState, a: TurnAction)
    requires TurnInv(t) && TurnEnabled(t, a)
    ensures TurnInv(TurnApply(t, a))
  {
    match a
    case Lock(input) => LockKeepsInv(t, input);
    case Deliver(w) => DeliverKeepsInv(t, w);
    case _ =>
  }

  // ---------- every run ----------

  ghost predicate Inv(s: State) {
    && (forall t :: 0 <= t < |s.turns| ==> TurnInv(s.turns[t]) && CloserOk(s.turns[t]))
    && (s.active.Some? ==> s.active.value < |s.turns| && !s.turns[s.active.value].once.Finished?)
  }

  lemma StepKeepsInv(s: State, a: Action)
    requires Inv(s)
    ensures Inv(Step(s, a))
  {
    match a
    case Begin => assert CountResults([]) == 0;
    case Release(_) =>
    case On(t, b) =>
      if t < |s.turns| && TurnEnabled(s.turns[t], b) {
        TurnStepKeepsInv(s.turns[t], b);
        TurnStepKeepsCloser(s.turns[t], b);
        hide TurnInv, CloserOk, TurnApply;
      }
  }

  function After(sessionID: string, actions: seq<Action>): State {
    Run(InitialState(sessionID), actions)
  }

  lemma {:induction false} Reachable(sessionID: string, actions: seq<Action>)
    ensures Inv(After(sessionID, actions))
    decreases |actions|
  {
    hide Step, Inv;
    if actions == [] {
      InitialInv(sessionID);
    } else {
      var init := actions[..|actions| - 1];
      Reachable(sessionID, init);
      StepKeepsInv(After(sessionID, init), actions[|actions| - 1]);
    }
  }

  lemma InitialInv(sessionID: string)
    ensures Inv(InitialState(sessionID))
  {
  }

  /**
   In every interleaving: a turn has one result if both signals are in and none otherwise, which is sent once
   or still with its handler; each channel is closed at most once, the error always fits its buffer, and a
   handler panics only once the messages channel is closed.
   */
  lemma TurnsEndOnce(sessionID: string, actions: seq<Action>, t: nat)
    requires t < |After(sessionID, actions).turns|
    ensures
      var turn := After(sessionID, actions).turns[t];
      && turn.produced == (if turn.fields.promptAcked && turn.fields.terminal then 1 else 0)
      && CountResults(turn.sent) + Queued(turn.workers) == turn.produced
      && turn.doneCloses <= 1 && turn.messagesCloses <= 1 && turn.errsCloses <= 1
      && |turn.errBuf| <= 1 && !turn.overflow && (turn.panicked ==> turn.messagesCloses == 1)
  {
    Reachable(sessionID, actions);
    hide Run;
  }

  /** The two signals, once in, stay in; so does the end of a close. */
  lemma SignalsNeverRevert(s: State, a: Action, t: nat)
    requires t < |s.turns|
    ensures
      var before, after := s.turns[t], Step(s, a).turns[t];
      && (before.fields.promptAcked ==> after.fields.promptAcked)
      && (before.fields.terminal ==> after.fields.terminal)
      && (before.fields.closed ==> after.fields.closed)
      && (before.once.Finished? ==> after.once.Finished?)
  {
    hide OnInput, TurnApply;
    if a.On? && a.t == t && TurnEnabled(s.turns[t], a.a) {
      TurnSignalsStay(s.turns[t], a.a);
    }
  }

  lemma TurnSignalsStay(t: TurnState, a: TurnAction)
    requires TurnEnabled(t, a)
    ensures
      var u := TurnApply(t, a);
      && (t.fields.promptAcked ==> u.fields.promptAcked) && (t.fields.terminal ==> u.fields.terminal)
      && (t.fields.closed ==> u.fields.closed) && (t.once.Finished? ==> u.once.Finished?)
  {
    hide OnInput;
    if a.Lock? {
      InputResults(t.fields, a.input);
    }
  }

  // ---------- the active turn ----------

  lemma AfterSnoc(sessionID: string, actions: seq<Action>, a: Action)
    ensures After(sessionID, actions + [a]) == Step(After(sessionID, actions), a)
  {
    assert (actions + [a])[..|actions|] == actions;
  }

  /** The active turn is released, or its close comes to its end. */
  predicate EndsActive(s: State, a: Action) {
    && s.active.Some?
    && (a == Release(s.active.value)
        || (a == On(s.active.value, CloseStage) && s.active.value < |s.turns|
            && s.turns[s.active.value].once.Running? && s.turns[s.active.value].once.stage == 4))
  }

  /**
   Over every run the slot moves from empty to a turn that did not exist before when one begins, back to empty
   when the active turn is released or its close has come to its end, and never else.
   */
  lemma SlotMoves(sessionID: string, actions: seq<Action>, a: Action)
    ensures
      var s, next := After(sessionID, actions), After(sessionID, actions + [a]);
      && next.active == (
           if a == Begin && s.active == None then Some(|s.turns|)
           else if EndsActive(s, a) then None
           else s.active)
      && |next.turns| == if a == Begin && s.active == None then |s.turns| + 1 else |s.turns|
  {
    AfterSnoc(sessionID, actions, a);
    Reachable(sessionID, actions);
    var s := After(sessionID, actions);
    if a.On? && a.t < |s.turns| {
      assert StageOk(s.turns[a.t]);
    }
    hide Run, OnInput, CountResults;
  }

  /** A turn that becomes active later in a run is a newer one. */
  lemma LaterIsNewer(sessionID: string, actions: seq<Action>, more: seq<Action>, t: nat, u: nat)
    requires After(sessionID, actions).active == Some(t) && Run(After(sessionID, actions), more).active == Some(u)
    ensures t <= u
  {
    Reachable(sessionID, actions);
    hide Run, Step;
    if u < t {
      RetiredStaysRetired(After(sessionID, actions), more, u);
    }
  }

  /** Only the active turn's own release or the end of its own close clears the slot. */
  lemma OnlyItsOwnReleaseClears(s: State, a: Action, t: nat)
    requires s.active == Some(t) && Step(s, a).active != Some(t)
    ensures Step(s, a).active == None && (a == Release(t) || a == On(t, CloseStage))
    ensures a == On(t, CloseStage) && t < |s.turns| ==> Step(s, a).turns[t].once.Finished?
  {
  }

  /** A turn that exists and is not active. */
  predicate Retired(s: State, t: nat) {
    t < |s.turns| && s.active != Some(t)
  }

  lemma {:induction false} RetiredStaysRetired(s: State, actions: seq<Action>, t: nat)
    requires Retired(s, t)
    ensures Retired(Run(s, actions), t)
    decreases |actions|
  {
    if actions != [] {
      RetiredStaysRetired(s, actions[..|actions| - 1], t);
      RetiredStep(Run(s, actions[..|actions| - 1]), actions[|actions| - 1], t);
      hide Step;
    }
  }

  lemma RetiredStep(s: State, a: Action, t: nat)
    requires Retired(s, t)
    ensures Retired(Step(s, a), t)
  {
  }

  /** Once a turn's close has completed, no continuation of the run makes it the active turn. */
  lemma ClosedTurnIsNeverActive(sessionID: string, actions: seq<Action>, more: seq<Action>, t: nat)
    requires t < |After(sessionID, actions).turns| && After(sessionID, actions).turns[t].once.Finished?
    ensures Run(After(sessionID, actions), more).active != Some(t)
  {
    Reachable(sessionID, actions);
    RetiredStaysRetired(After(sessionID, actions), more, t);
  }

  // ---------- the steps of one turn ----------

  function TurnStep(t: TurnState, a: TurnAction): TurnState {
    if TurnEnabled(t, a) then TurnApply(t, a) else t
  }

  function TurnRun(t: TurnState, actions: seq<TurnAction>): TurnState
    decreases |actions|
  {
    if actions == [] then t else TurnRun(TurnStep(t, actions[0]), actions[1..])
  }

  lemma {:induction false} TurnRunAppend(t: TurnState, a: seq<TurnAction>, b: seq<TurnAction>)
    ensures TurnRun(t, a + b) == TurnRun(TurnRun(t, a), b)
    decreases |a|
  {
    hide TurnStep;
    if a == [] {
      assert a + b == b;
    } else {
      assert (a + b)[1..] == a[1..] + b;
      TurnRunAppend(TurnStep(t, a[0]), a[1..], b);
    }
  }

  function OnTurn(t: nat, actions: seq<TurnAction>): seq<Action> {
    seq(|actions|, i requires 0 <= i < |actions| => On(t, actions[i]))
  }

  /** What one turn's own steps lead to, the client's do. */
  lemma {:induction false} TurnRunIsARun(s: State, t: nat, actions: seq<TurnAction>)
    requires t < |s.turns|
    ensures |Run(s, OnTurn(t, actions)).turns| == |s.turns|
    ensures Run(s, OnTurn(t, actions)).turns[t] == TurnRun(s.turns[t], actions)
    decreases |actions|
  {
    if actions != [] {
      var init, a := actions[..|actions| - 1], actions[|actions| - 1];
      assert OnTurn(t, actions)[..|actions| - 1] == OnTurn(t, init);
      TurnRunIsARun(s, t, init);
      assert actions == init + [a];
      TurnRunAppend(s.turns[t], init, [a]);
      OneTurnStep(Run(s, OnTurn(t, init)), t, a);
      assert OnTurn(t, actions)[|actions| - 1] == On(t, a);
      hide TurnStep, Step, OnTurn;
      assert [a][1..] == [];
      assert TurnRun(TurnRun(s.turns[t], init), [a]) == TurnStep(TurnRun(s.turns[t], init), a);
    }
  }

  lemma OneTurnStep(s: State, t: nat, a: TurnAction)
    requires t < |s.turns|
    ensures |Step(s, On(t, a)).turns| == |s.turns| && Step(s, On(t, a)).turns[t] == TurnStep(s.turns[t], a)
  {
    hide TurnApply;
  }

  // ---------- what a failure reports ----------

  /** A close that a failure began: its error is in the channel's buffer once its first stage is done. */
  ghost predicate Reporting(t: TurnState, err: string) {
    match t.once
    case Fresh => false
    case Running(stage, e) => e == Some(err) && t.errBuf == if stage == 0 then [] else [err]
    case Finished => t.errBuf == [err]
  }

  lemma TurnStepKeepsReporting(t: TurnState, a: TurnAction, err: string)
    requires Reporting(t, err)
    ensures Reporting(TurnStep(t, a), err)
  {
    hide OnInput, CountResults;
  }

  lemma {:induction false} RunKeepsReporting(t: TurnState, more: seq<TurnAction>, err: string)
    requires Reporting(t, err)
    ensures Reporting(TurnRun(t, more), err)
    decreases |more|
  {
    hide TurnStep, Reporting;
    if more != [] {
      TurnStepKeepsReporting(t, more[0], err);
      RunKeepsReporting(TurnStep(t, more[0]), more[1..], err);
    }
  }

  /**
   A failure of a reachable turn that nothing has begun to close: however the turn goes on, its error is the
   only one ever in the errors channel, it is there once the close ends, and the close can always go on.
   */
  lemma FailureIsReported(sessionID: string, actions: seq<Action>, t: nat, err: string, more: seq<TurnAction>)
    requires t < |After(sessionID, actions).turns| && After(sessionID, actions).turns[t].once.Fresh?
    ensures
      var turn := TurnRun(TurnStep(After(sessionID, actions).turns[t], FailWith(err)), more);
      && (turn.errBuf == [] || turn.errBuf == [err])
      && (turn.once.Finished? ==> turn.errBuf == [err])
      && (!turn.once.Finished? ==> TurnEnabled(turn, CloseStage))
  {
    Reachable(sessionID, actions);
    var turn := After(sessionID, actions).turns[t];
    assert StageOk(turn);
    assert Reporting(TurnStep(turn, FailWith(err)), err);
    hide Run, TurnRun, TurnStep;
    RunKeepsReporting(TurnStep(turn, FailWith(err)), more, err);
  }

  // ---------- handlers that are not interrupted ----------

  function Delivers(w: nat, n: nat): seq<TurnAction> {
    if n == 0 then [] else [Deliver(w)] + Delivers(w, n - 1)
  }

  lemma DeliverStep(t: TurnState, w: nat)
    requires w < |t.workers| && t.workers[w].queue != [] && t.messagesCloses == 0
    ensures
      var queue := t.workers[w].queue;
      TurnStep(t, Deliver(w))
        == t.(sent := t.sent + [queue[0]], workers := t.workers[w := t.workers[w].(queue := queue[1..])])
  {
    hide OnInput, CountResults;
  }

  lemma {:induction false} DeliversDrainQueue(t: TurnState, w: nat)
    requires w < |t.workers| && t.messagesCloses == 0
    ensures TurnRun(t, Delivers(w, |t.workers[w].queue|))
         == t.(sent := t.sent + t.workers[w].queue, workers := t.workers[w := t.workers[w].(queue := [])])
    decreases |t.workers[w].queue|
  {
    hide TurnStep;
    var queue := t.workers[w].queue;
    if queue == [] {
      assert t.sent + [] == t.sent;
      assert t.workers[w := t.workers[w].(queue := [])] == t.workers;
    } else {
      DeliverStep(t, w);
      DeliversDrainQueue(TurnStep(t, Deliver(w)), w);
      assert Delivers(w, |queue|)[1..] == Delivers(w, |queue| - 1);
      assert t.sent + [queue[0]] + queue[1..] == t.sent + queue;
    }
  }

  lemma {:induction false} DeliversPanic(t: TurnState, w: nat, n: nat)
    requires w < |t.workers| && t.workers[w].queue != [] && t.messagesCloses > 0 && (n > 0 || t.panicked)
    ensures TurnRun(t, Delivers(w, n)) == t.(panicked := true)
    decreases n
  {
    if n > 0 {
      assert Delivers(w, n)[1..] == Delivers(w, n - 1);
      DeliversPanic(t.(panicked := true), w, n - 1);
    }
  }

  /** A handler run without interruption is the handler of `Turn` taken as one step, the panic included. */
  lemma HandlerIsARun(t: TurnState, input: Input)
    ensures
      var n := |OnInput(t.fields, input).1|;
      var u := TurnRun(t, [Lock(input)] + Delivers(|t.workers|, n));
      && u.fields == OnInput(t.fields, input).0
      && if t.messagesCloses > 0 && HasToSend(t.fields, input) then u.panicked && u.sent == t.sent
         else u.panicked == t.panicked && Chat(u.fields, u.sent) == Feed(Chat(t.fields, t.sent), input)
  {
    HasToSendIff(t.fields, input);
    hide OnInput, HasToSend;
    var messages := OnInput(t.fields, input).1;
    var script := [Lock(input)] + Delivers(|t.workers|, |messages|);
    assert script[1..] == Delivers(|t.workers|, |messages|);
    var u := TurnApply(t, Lock(input));
    if t.messagesCloses == 0 {
      DeliversDrainQueue(u, |t.workers|);
    } else if messages != [] {
      DeliversPanic(u, |t.workers|, |messages|);
    } else {
      assert t.sent + [] == t.sent;
    }
  }

  // ---------- sends after the close ----------

  /** Steps that only carry on with what handlers and a close have begun. */
  predicate Finishing(a: TurnAction) {
    a.Deliver? || a.CloseBy? || a.CloseStage?
  }

  predicate AllFinishing(actions: seq<TurnAction>) {
    forall i :: 0 <= i < |actions| ==> Finishing(actions[i])
  }

  /** The turn can panic without another event, prompt result or failure. */
  ghost predicate CanPanic(t: TurnState) {
    exists more :: AllFinishing(more) && TurnRun(t, more).panicked
  }

  /** A handler with something to send while another handler closes the channels, or something has begun to. */
  predicate Late(t: TurnState, w: nat) {
    && w < |t.workers| && t.workers[w].queue != []
    && (!t.once.Fresh? || (t.fields.closed && !t.workers[w].closes))
  }

  /** A reachable turn that has not panicked yet can panic exactly when one of its handlers is late. */
  lemma LateSendIff(sessionID: string, actions: seq<Action>, t: nat)
    requires t < |After(sessionID, actions).turns| && !After(sessionID, actions).turns[t].panicked
    ensures
      var turn := After(sessionID, actions).turns[t];
      CanPanic(turn) <==> exists w :: Late(turn, w)
  {
    Reachable(sessionID, actions);
    var turn := After(sessionID, actions).turns[t];
    hide TurnInv, CloserOk, Late, TurnRun, AllFinishing, Run;
    if w :| Late(turn, w) {
      var more := LatePanics(turn, w);
    } else {
      forall more | AllFinishing(more)
        ensures !TurnRun(turn, more).panicked
      {
        NoneLateStays(turn, more);
      }
    }
  }

  ghost predicate NoneLate(t: TurnState) {
    !t.panicked && forall w :: 0 <= w < |t.workers| ==> !Late(t, w)
  }

  lemma FinishingKeepsNoneLate(t: TurnState, a: TurnAction)
    requires StageOk(t) && CloserOk(t) && NoneLate(t) && TurnEnabled(t, a) && Finishing(a)
    ensures NoneLate(TurnApply(t, a))
  {
    hide CountResults;
    var u := TurnApply(t, a);
    assert |u.workers| == |t.workers|;
    if a.Deliver? {
      assert !Late(t, a.w);
    }
    forall w | 0 <= w < |t.workers|
      ensures !Late(u, w)
    {
      assert !Late(t, w);
    }
  }

  lemma {:induction false} NoneLateStays(t: TurnState, more: seq<TurnAction>)
    requires TurnInv(t) && CloserOk(t) && NoneLate(t) && AllFinishing(more)
    ensures !TurnRun(t, more).panicked
    decreases |more|
  {
    if more != [] {
      assert Finishing(more[0]);
      if TurnEnabled(t, more[0]) {
        TurnStepKeepsInv(t, more[0]);
        TurnStepKeepsCloser(t, more[0]);
        FinishingKeepsNoneLate(t, more[0]);
      }
      var next := TurnStep(t, more[0]);
      hide TurnInv, CloserOk, NoneLate, TurnEnabled, TurnApply;
      NoneLateStays(next, more[1..]);
    }
  }

  /** A close that has begun gets to the messages channel by its own steps. */
  lemma {:induction false} CloseReachesMessages(t: TurnState) returns (more: seq<TurnAction>)
    requires StageOk(t) && !t.once.Fresh?
    ensures AllFinishing(more) && TurnRun(t, more).messagesCloses > 0 && TurnRun(t, more).workers == t.workers
    decreases if t.once.Running? then 5 - t.once.stage else 0
  {
    more := [];
    if t.messagesCloses == 0 {
      more := CloseReachesMessages(TurnApply(t, CloseStage));
      assert ([CloseStage] + more)[1..] == more;
      more := [CloseStage] + more;
    }
  }

  lemma DeliversFinish(w: nat, n: nat)
    ensures AllFinishing(Delivers(w, n))
  {
  }

  /** On a closed handle nothing closes yet, the one handler that does so can send what it has and begin. */
  lemma CloserBegins(t: TurnState, v: nat) returns (more: seq<TurnAction>)
    requires t.once.Fresh? && t.messagesCloses == 0 && v < |t.workers| && t.workers[v].closes
    ensures AllFinishing(more)
    ensures TurnRun(t, more) == t.(once := Running(0, None), sent := t.sent + t.workers[v].queue,
                                   workers := t.workers[v := t.workers[v].(queue := [])])
  {
    var delivers := Delivers(v, |t.workers[v].queue|);
    DeliversFinish(v, |t.workers[v].queue|);
    DeliversDrainQueue(t, v);
    TurnRunAppend(t, delivers, [CloseBy(v)]);
    var u := TurnRun(t, delivers);
    assert TurnRun(u, [CloseBy(v)]) == TurnStep(u, CloseBy(v));
    more := delivers + [CloseBy(v)];
  }

  lemma LatePanics(t: TurnState, w: nat) returns (more: seq<TurnAction>)
    requires TurnInv(t) && CloserOk(t) && Late(t, w)
    ensures AllFinishing(more) && TurnRun(t, more).panicked
  {
    more := [];
    if t.once.Fresh? {
      var v :| 0 <= v < |t.workers| && t.workers[v].closes;
      more := CloserBegins(t, v);
    }
    var u := TurnRun(t, more);
    assert StageOk(u) && !u.once.Fresh? && w < |u.workers| && u.workers[w].queue != [];
    hide TurnInv, CloserOk, StageOk;
    var rest := CloseReachesMessages(u);
    TurnRunAppend(t, more, rest);
    TurnRunAppend(t, more + rest, [Deliver(w)]);
    SendPanics(TurnRun(u, rest), w);
    more := more + rest + [Deliver(w)];
  }

  lemma SendPanics(t: TurnState, w: nat)
    requires w < |t.workers| && t.workers[w].queue != [] && t.messagesCloses > 0
    ensures TurnStep(t, Deliver(w)) == t.(panicked := true)
    ensures TurnRun(t, [Deliver(w)]) == t.(panicked := true)
  {
    hide OnInput, CountResults;
    assert TurnRun(t, [Deliver(w)]) == TurnStep(t, Deliver(w));
  }

  /** Two locked sections, of which the second completes the turn. */
  lemma OvertakenSections(sessionID: string) returns (t: TurnState)
    ensures
      var chunk := Event(MessageChunk, "", "", "hi", "", "", false, "", "");
      var r := PromptResult("end_turn", "");
      t == TurnStep(TurnStep(NewTurn(sessionID), Lock(FromEvent(chunk))), Lock(FromPrompt(r)))
    ensures t.workers == [Worker([Assistant("", "", TextBlock("hi"))], false),
                          Worker([Result(sessionID, "", "end_turn", false, "")], true)]
    ensures t.once == Fresh && t.errBuf == [] && t.sent == [] && t.messagesCloses == 0
  {
    var chunk := Event(MessageChunk, "", "", "hi", "", "", false, "", "");
    assert Trimmed("") && Trimmed("end_turn");
    assert TrimSpace("") == "" && TrimSpace("end_turn") == "end_turn";
    hide TrimSpace, Trimmed, CountResults;
    var t0 := NewTurn(sessionID);
    assert OnInput(t0.fields, FromEvent(chunk)) == (t0.fields, [Assistant("", "", TextBlock("hi"))]);
    var r := PromptResult("end_turn", "");
    assert OnInput(t0.fields, FromPrompt(r)).1 == [Result(sessionID, "", "end_turn", false, "")];
    hide OnInput;
    t := TurnStep(TurnStep(t0, Lock(FromEvent(chunk))), Lock(FromPrompt(r)));
  }

  lemma TurnRunTwo(t: TurnState, a: TurnAction, b: TurnAction, rest: seq<TurnAction>)
    ensures TurnRun(t, [a, b] + rest) == TurnRun(TurnStep(TurnStep(t, a), b), rest)
  {
    assert ([a, b] + rest)[1..] == [b] + rest && ([b] + rest)[1..] == rest;
    hide TurnStep;
  }

  lemma ResultIsSentAndCloses(t: TurnState, text: Message, result: Message) returns (u: TurnState)
    requires t.workers == [Worker([text], false), Worker([result], true)]
    requires t.once == Fresh && t.sent == [] && t.messagesCloses == 0
    ensures u == TurnStep(TurnStep(t, Deliver(1)), CloseBy(1))
    ensures u == t.(sent := [result], once := Running(0, None),
                    workers := [Worker([text], false), Worker([], true)])
  {
    DeliverStep(t, 1);
    hide OnInput, CountResults;
    u := TurnStep(TurnStep(t, Deliver(1)), CloseBy(1));
  }

  lemma ThreeStages(t: TurnState)
    requires t.once == Running(0, None)
    ensures TurnStep(TurnStep(TurnStep(t, CloseStage), CloseStage), CloseStage)
         == t.(once := Running(3, None), doneCloses := t.doneCloses + 1, messagesCloses := t.messagesCloses + 1)
  {
    hide OnInput, CountResults;
  }

  lemma CloseThenSend(t: TurnState)
    requires t.once == Running(0, None) && t.workers != [] && t.workers[0].queue != []
    ensures
      var u := TurnRun(t, [CloseStage, CloseStage, CloseStage, Deliver(0)]);
      u.panicked && u.errBuf == t.errBuf && u.sent == t.sent
  {
    ThreeStages(t);
    var t2 := TurnStep(TurnStep(t, CloseStage), CloseStage);
    var t3 := TurnStep(t2, CloseStage);
    assert t3.messagesCloses > 0 && t3.workers == t.workers && t3.sent == t.sent && t3.errBuf == t.errBuf;
    hide TurnStep;
    SendPanics(t3, 0);
    assert [CloseStage, CloseStage, CloseStage, Deliver(0)] == [CloseStage, CloseStage] + [CloseStage, Deliver(0)];
    TurnRunTwo(t, CloseStage, CloseStage, [CloseStage, Deliver(0)]);
    assert [CloseStage, Deliver(0)][1..] == [Deliver(0)];
    assert TurnRun(t2, [CloseStage, Deliver(0)]) == TurnRun(t3, [Deliver(0)]);
  }

  lemma OvertakingClose(t: TurnState, text: Message, result: Message)
    requires t.workers == [Worker([text], false), Worker([result], true)]
    requires t.once == Fresh && t.errBuf == [] && t.sent == [] && t.messagesCloses == 0
    ensures
      var u := TurnRun(t, [Deliver(1), CloseBy(1), CloseStage, CloseStage, CloseStage, Deliver(0)]);
      u.panicked && u.errBuf == [] && u.sent == [result]
  {
    hide *;
    var t1 := ResultIsSentAndCloses(t, text, result);
    CloseThenSend(t1);
    var rest := [CloseStage, CloseStage, CloseStage, Deliver(0)];
    assert [Deliver(1), CloseBy(1), CloseStage, CloseStage, CloseStage, Deliver(0)] == [Deliver(1), CloseBy(1)] + rest;
    TurnRunTwo(t, Deliver(1), CloseBy(1), rest);
  }

  /** A turn can panic though nothing failed: a prompt result with a stop reason overtakes a text on its way. */
  lemma LateSendExample(sessionID: string)
    ensures
      var chunk := Event(MessageChunk, "", "", "hi", "", "", false, "", "");
      var sections := [Lock(FromEvent(chunk)), Lock(FromPrompt(PromptResult("end_turn", "")))];
      var sends := [Deliver(1), CloseBy(1), CloseStage, CloseStage, CloseStage, Deliver(0)];
      var turn := TurnRun(NewTurn(sessionID), sections + sends);
      turn.panicked && turn.errBuf == [] && turn.sent == [Result(sessionID, "", "end_turn", false, "")]
  {
    hide *;
    var chunk := Event(MessageChunk, "", "", "hi", "", "", false, "", "");
    var t := OvertakenSections(sessionID);
    OvertakingClose(t, Assistant("", "", TextBlock("hi")), Result(sessionID, "", "end_turn", false, ""));
    TurnRunTwo(NewTurn(sessionID), Lock(FromEvent(chunk)), Lock(FromPrompt(PromptResult("end_turn", ""))),
               [Deliver(1), CloseBy(1), CloseStage, CloseStage, CloseStage, Deliver(0)]);
  }

  // ---------- runs without a failure ----------

  /** A close begins only after the result was sent, and without an error. */
  ghost predicate OrderlyClose(t: TurnState) {
    && t.errBuf == [] && (t.once.Running? ==> t.once.err.None?)
    && (!t.once.Fresh? ==> t.fields.closed && Queued(t.workers) == 0)
  }

  lemma {:induction false} NoResultsQueued(workers: seq<Worker>)
    requires forall w :: 0 <= w < |workers| ==> CountResults(workers[w].queue) == 0
    ensures Queued(workers) == 0
  {
    if workers != [] {
      NoResultsQueued(workers[..|workers| - 1]);
    }
  }

  lemma LockKeepsOrder(t: TurnState, input: Input)
    requires OrderlyClose(t)
    ensures OrderlyClose(TurnApply(t, Lock(input)))
  {
    hide OnInput, CountResults;
    var u := TurnApply(t, Lock(input));
    if t.fields.closed {
      ClosedIsSettled(t.fields, input);
      assert u.workers[..|t.workers|] == t.workers;
      assert CountResults([]) == 0 by {
        CountNone();
      }
    }
  }

  lemma CountNone()
    ensures CountResults([]) == 0
  {
  }

  lemma DeliverKeepsOrder(t: TurnState, w: nat)
    requires OrderlyClose(t) && TurnEnabled(t, Deliver(w))
    ensures OrderlyClose(TurnApply(t, Deliver(w)))
  {
    var queue := t.workers[w].queue;
    QueuedUpdate(t.workers, w, t.workers[w].(queue := queue[1..]));
    assert CountResults(queue[1..]) <= CountResults(queue);
    hide CountResults, Queued;
  }

  lemma CloseByKeepsOrder(t: TurnState, w: nat)
    requires CloserOk(t) && OrderlyClose(t) && TurnEnabled(t, CloseBy(w))
    ensures OrderlyClose(TurnApply(t, CloseBy(w)))
  {
    CountNone();
    hide CountResults;
    assert forall v :: 0 <= v < |t.workers| && v != w ==> !t.workers[v].closes;
    NoResultsQueued(t.workers);
  }

  lemma TurnStepKeepsOrder(t: TurnState, a: TurnAction)
    requires CloserOk(t) && OrderlyClose(t) && TurnEnabled(t, a) && !a.FailWith?
    ensures OrderlyClose(TurnApply(t, a))
  {
    match a
    case Lock(input) => LockKeepsOrder(t, input);
    case Deliver(w) => DeliverKeepsOrder(t, w);
    case CloseBy(w) => CloseByKeepsOrder(t, w);
    case CloseStage => hide CountResults, Queued;
  }

  predicate NoFailures(actions: seq<Action>) {
    forall i :: 0 <= i < |actions| && actions[i].On? ==> !actions[i].a.FailWith?
  }

  lemma {:induction false} RunKeepsOrder(sessionID: string, actions: seq<Action>)
    requires NoFailures(actions)
    ensures forall t :: 0 <= t < |After(sessionID, actions).turns| ==> OrderlyClose(After(sessionID, actions).turns[t])
    decreases |actions|
  {
    if actions != [] {
      var init, a := actions[..|actions| - 1], actions[|actions| - 1];
      RunKeepsOrder(sessionID, init);
      Reachable(sessionID, init);
      StepKeepsOrder(After(sessionID, init), a);
    }
  }

  lemma StepKeepsOrder(s: State, a: Action)
    requires Inv(s) && (a.On? ==> !a.a.FailWith?)
    requires forall t :: 0 <= t < |s.turns| ==> OrderlyClose(s.turns[t])
    ensures forall t :: 0 <= t < |Step(s, a).turns| ==> OrderlyClose(Step(s, a).turns[t])
  {
    if a.On? && a.t < |s.turns| && TurnEnabled(s.turns[a.t], a.a) {
      TurnStepKeepsOrder(s.turns[a.t], a.a);
      hide OrderlyClose, TurnApply, TurnEnabled;
    }
  }

  /**
   In a run without failures a close begins only once the turn's one result has been sent: a panic can then
   cost the messages of events, never the result, and no error is reported.
   */
  lemma ResultPrecedesClose(sessionID: string, actions: seq<Action>, t: nat)
    requires t < |After(sessionID, actions).turns| && NoFailures(actions)
    ensures
      var turn := After(sessionID, actions).turns[t];
      && turn.errBuf == []
      && (!turn.once.Fresh? ==> CountResults(turn.sent) == 1 && Queued(turn.workers) == 0)
  {
    RunKeepsOrder(sessionID, actions);
    Reachable(sessionID, actions);
    hide Run;
  }

  // ---------- the slot as an object ----------

  datatype BeginResult = NotConnected | InProgress | Begun(turn: nat)

  class ActiveTurn {
    var active: Option<nat>
    var turns: seq<TurnState>
    const sessionID: string

    ghost function View(): State
      reads this
    {
      State(active, turns, sessionID)
    }

    constructor (sessionID: string)
      ensures View() == InitialState(sessionID)
    {
      this.sessionID := sessionID;
      active, turns := None, [];
    }

    /** A turn begins only on a connected session with no turn active. */
    method BeginTurn(connected: bool) returns (result: BeginResult)
      modifies this
      ensures !connected || sessionID == "" ==> result == NotConnected && View() == old(View())
      ensures connected && sessionID != "" ==>
        && View() == Step(old(View()), Begin)
        && result == if old(active).Some? then InProgress else Begun(old(|turns|))
    {
      if !connected || sessionID == "" {
        return NotConnected;
      }
      if active.Some? {
        return InProgress;
      }
      var turn := |turns|;
      turns := turns + [NewTurn(sessionID)];
      active := Some(turn);
      return Begun(turn);
    }

    /** Only the active turn is released; a late release of another does nothing. */
    method ReleaseTurn(t: nat)
      modifies this`active
      ensures View() == Step(old(View()), Release(t))
    {
      if active == Some(t) {
        active := None;
      }
    }
  }
}
