/**
 Correlation of responses over whole runs: ids, what is accepted, and what is delivered.
 The 64-bit counter wraps, so the results that need distinct ids are for runs that draw
 fewer than 2^64 of them.
 */
module Delivery {
  import opened Text
  import opened JsonRpc

  /** Two ids have the same key exactly when the draws are a multiple of 2^64 apart. */
  lemma KeysCollideIff(t: nat, u: nat)
    ensures KeyOf(t) == KeyOf(u) <==> t % TWO_64 == u % TWO_64
  {
    DecimalRoundTrip(t % TWO_64);
    DecimalRoundTrip(u % TWO_64);
  }

  lemma KeysAreDistinct(s: State, c: nat, d: nat)
    requires Inv(s) && s.issued < TWO_64
    requires c < |s.calls| && d < |s.calls| && c != d && s.calls[c].ticket > 0 && s.calls[d].ticket > 0
    ensures s.calls[c].key != s.calls[d].key
  {
    CallAt(s, c);
    CallAt(s, d);
    KeysCollideIff(s.calls[c].ticket, s.calls[d].ticket);
    hide KeyOf;
    SmallMod(s.calls[c].ticket);
    SmallMod(s.calls[d].ticket);
    assert s.calls[c].ticket != s.calls[d].ticket;
  }

  lemma SmallMod(n: nat)
    requires n < TWO_64
    ensures n % TWO_64 == n
  {
  }

  /** In any run of fewer than 2^64 draws, calls that drew an id have pairwise distinct keys. */
  lemma RunKeysAreDistinct(actions: seq<Action>, c: nat, d: nat)
    requires var s := After(actions);
      s.issued < TWO_64 && c < |s.calls| && d < |s.calls| && c != d && s.calls[c].ticket > 0 && s.calls[d].ticket > 0
    ensures After(actions).calls[c].key != After(actions).calls[d].key
  {
    Reachable(actions);
    KeysAreDistinct(After(actions), c, d);
  }

  // ---------- where a waiting call's channel is ----------

  /** A call in the map, in the map a shutdown took, or with its channel closed. */
  ghost predicate Held(s: State, c: nat)
    requires c < |s.calls|
  {
    var k := s.calls[c].key;
    || (k in s.pending && s.pending[k] == c)
    || (s.shutdown.Swapped? && k in s.shutdown.captured && s.shutdown.captured[k] == c)
    || (s.calls[c].ch.closed && (s.shutdown.Swapped? || s.shutdown.Over?))
  }

  ghost predicate NoneLost(s: State) {
    forall c :: 0 <= c < |s.calls| && (s.calls[c].phase.Registered? || s.calls[c].phase.Waiting?) && c !in s.accepted
      ==> Held(s, c)
  }

  lemma SendKeepsHistory(s: State, to: nat, msg: Response)
    requires to < |s.calls|
    ensures TrySend(s, to, msg).issued == s.issued && TrySend(s, to, msg).accepted == s.accepted
  {
  }

  lemma CloseKeepsHistory(s: State, to: nat)
    requires to < |s.calls|
    ensures CloseChan(s, to).issued == s.issued && CloseChan(s, to).accepted == s.accepted
  {
  }

  /** Draws and acceptances are never undone. */
  lemma HistoryGrows(s: State, a: Action)
    ensures s.issued <= Step(s, a).issued && s.accepted <= Step(s, a).accepted
  {
    hide Decimal, IdKey, TrySend, CloseChan;
    if Enabled(s, a) {
      match a
      case Send => SendKeepsHistory(s, s.reader.call, s.reader.msg);
      case CloseTaken => CloseKeepsHistory(s, s.reader.call);
      case CloseOne(k) => CloseKeepsHistory(s, s.shutdown.captured[k]);
      case _ =>
    }
  }

  lemma StepLosesNone(s: State, a: Action)
    requires Inv(s) && NoneLost(s) && Step(s, a).issued < TWO_64
    ensures NoneLost(Step(s, a))
  {
    var t := Step(s, a);
    HistoryGrows(s, a);
    forall c | 0 <= c < |t.calls| && (t.calls[c].phase.Registered? || t.calls[c].phase.Waiting?) && c !in t.accepted
      ensures Held(t, c)
    {
      StepKeepsHeld(s, a, c);
    }
  }

  lemma StepKeepsHeld(s: State, a: Action, c: nat)
    requires Inv(s) && NoneLost(s) && s.issued < TWO_64
    requires var t := Step(s, a);
      c < |t.calls| && (t.calls[c].phase.Registered? || t.calls[c].phase.Waiting?) && c !in t.accepted
    ensures Held(Step(s, a), c)
  {
    WasWaiting(s, a, c);
    hide Apply, Inv, NoneLost, Held;
    if Enabled(s, a) {
      match a
      case Register(d) => RegisterKeepsHeld(s, d, c);
      case Leave(d) => LeaveKeepsHeld(s, d, c);
      case Take(msg) =>
        HeldNow(s, c);
        TakeKeepsHeld(s, msg, c);
      case CloseOne(k) => CloseOneKeepsHeld(s, k, c);
      case Admit => AdmitKeepsHeld(s, c);
      case Abandon(d) => AbandonKeepsHeld(s, d, c);
      case Reserve(d) => ReserveKeepsHeld(s, d, c);
      case Write(d, ok) => WriteKeepsHeld(s, d, ok, c);
      case Cancel(d) => CancelKeepsHeld(s, d, c);
      case SeeDone(d) => SeeDoneKeepsHeld(s, d, c);
      case Receive(d) => ReceiveKeepsHeld(s, d, c);
      case Send => SendKeepsHeld(s, c);
      case CloseTaken => CloseTakenKeepsHeld(s, c);
      case Begin(cause) => BeginKeepsHeld(s, cause, c);
      case Swap => SwapKeepsHeld(s, c);
      case CloseDone => CloseDoneKeepsHeld(s, c);
    }
  }

  lemma AcceptedGrows(s: State, a: Action, c: nat)
    requires c in s.accepted
    ensures c in Step(s, a).accepted
  {
    hide *;
    HistoryGrows(s, a);
    var i :| 0 <= i < |s.accepted| && s.accepted[i] == c;
    assert Step(s, a).accepted[i] == c;
  }

  predicate OnChannel(a: Action) {
    a.Send? || a.CloseTaken? || a.CloseOne?
  }

  lemma SendKeepsPhase(s: State, to: nat, msg: Response, c: nat)
    requires to < |s.calls|
    ensures |TrySend(s, to, msg).calls| == |s.calls|
    ensures c < |s.calls| ==> TrySend(s, to, msg).calls[c].phase == s.calls[c].phase
  {
  }

  lemma CloseKeepsPhase(s: State, to: nat, c: nat)
    requires to < |s.calls|
    ensures |CloseChan(s, to).calls| == |s.calls|
    ensures c < |s.calls| ==> CloseChan(s, to).calls[c].phase == s.calls[c].phase
  {
  }

  lemma ChannelStepsKeepPhases(s: State, a: Action, c: nat)
    requires OnChannel(a)
    ensures |Step(s, a).calls| == |s.calls|
    ensures c < |s.calls| ==> Step(s, a).calls[c].phase == s.calls[c].phase
  {
    hide TrySend, CloseChan, SetPhase, Decimal, IdKey;
    if Enabled(s, a) {
      match a
      case Send => SendKeepsPhase(s, s.reader.call, s.reader.msg, c);
      case CloseTaken => CloseKeepsPhase(s, s.reader.call, c);
      case CloseOne(k) => CloseKeepsPhase(s, s.shutdown.captured[k], c);
    }
  }

  predicate OfCaller(a: Action) {
    a.Abandon? || a.Reserve? || a.Register? || a.Write? || a.Cancel? || a.Leave? || a.SeeDone? || a.Receive?
  }

  lemma PhaseAfterMove(s: State, d: nat, phase: Phase, c: nat)
    requires d < |s.calls|
    ensures |SetPhase(s, d, phase).calls| == |s.calls|
    ensures c < |s.calls| ==> SetPhase(s, d, phase).calls[c].phase == if c == d then phase else s.calls[c].phase
  {
  }

  lemma PhaseAfterReceive(s: State, d: nat, c: nat)
    requires Enabled(s, Receive(d))
    ensures |Apply(s, Receive(d)).calls| == |s.calls|
    ensures c < |s.calls| && c != d ==> Apply(s, Receive(d)).calls[c].phase == s.calls[c].phase
    ensures Apply(s, Receive(d)).calls[d].phase.Ended?
  {
    hide TrySend, CloseChan, Decimal, IdKey, InactiveErr, NormalizedCause;
  }

  lemma CallerStepsStart(s: State, a: Action, c: nat)
    requires OfCaller(a) && c < |Step(s, a).calls|
    requires Step(s, a).calls[c].phase.Registered? || Step(s, a).calls[c].phase.Waiting?
    ensures c < |s.calls|
    ensures (a.Register? && a.c == c) || s.calls[c].phase.Registered? || s.calls[c].phase.Waiting?
  {
    hide Decimal, SetPhase, SetChan;
    if Enabled(s, a) {
      match a
      case Reserve(_) =>
      case Receive(d) => PhaseAfterReceive(s, d, c);
      case Register(d) => PhaseAfterMove(s, d, Registered, c);
      case Write(d, ok) => PhaseAfterMove(s, d, if ok then Waiting else Leaving, c);
      case Cancel(d) => PhaseAfterMove(s, d, Leaving, c);
      case SeeDone(d) => PhaseAfterMove(s, d, Ended(Inactive(InactiveErr(s))), c);
      case Abandon(d) => PhaseAfterMove(s, d, Ended(GaveUp), c);
      case Leave(d) => PhaseAfterMove(s, d, Ended(GaveUp), c);
    }
  }

  lemma OtherStepsStart(s: State, a: Action, c: nat)
    requires !OfCaller(a) && !OnChannel(a) && c < |Step(s, a).calls|
    requires Step(s, a).calls[c].phase.Registered? || Step(s, a).calls[c].phase.Waiting?
    ensures c < |s.calls|
    ensures s.calls[c].phase.Registered? || s.calls[c].phase.Waiting?
  {
    hide Decimal, IdKey, TrySend, CloseChan, SetPhase;
  }

  /** A call that waits after a step, except the one it registers, waited before it. */
  lemma WasWaiting(s: State, a: Action, c: nat)
    requires var t := Step(s, a);
      c < |t.calls| && (t.calls[c].phase.Registered? || t.calls[c].phase.Waiting?) && c !in t.accepted
    ensures c < |s.calls| && c !in s.accepted
    ensures (a.Register? && a.c == c) || s.calls[c].phase.Registered? || s.calls[c].phase.Waiting?
  {
    hide Step;
    if c in s.accepted {
      AcceptedGrows(s, a, c);
    }
    if OnChannel(a) {
      ChannelStepsKeepPhases(s, a, c);
    } else if OfCaller(a) {
      CallerStepsStart(s, a, c);
    } else {
      OtherStepsStart(s, a, c);
    }
  }

  lemma HeldNow(s: State, c: nat)
    requires NoneLost(s) && c < |s.calls| && c !in s.accepted
    requires s.calls[c].phase.Registered? || s.calls[c].phase.Waiting?
    ensures Held(s, c)
  {
  }

  /** A call that is not in the accepted ones is held, under a key no other call has. */
  lemma HeldAlone(s: State, c: nat, d: nat)
    requires Inv(s) && NoneLost(s) && s.issued < TWO_64
    requires c < |s.calls| && d < |s.calls| && c != d && c !in s.accepted
    requires s.calls[c].phase.Registered? || s.calls[c].phase.Waiting?
    requires s.calls[d].phase.Reserved? || s.calls[d].phase.Leaving?
    ensures Held(s, c) && s.calls[c].key != s.calls[d].key
  {
    CallAt(s, c);
    CallAt(s, d);
    hide MapsOk, ReaderOk, CallsOk, TicketsOk, AcceptedOk, ShutdownOk, KeyOf;
    KeysAreDistinct(s, c, d);
  }

  lemma RegisterKeepsHeld(s: State, d: nat, c: nat)
    requires Inv(s) && NoneLost(s) && s.issued < TWO_64 && Enabled(s, Register(d))
    requires c < |s.calls| && c !in s.accepted
    requires c == d || s.calls[c].phase.Registered? || s.calls[c].phase.Waiting?
    ensures Held(Step(s, Register(d)), c)
  {
    hide Inv, NoneLost;
    if d != c {
      HeldAlone(s, c, d);
    }
  }

  lemma LeaveKeepsHeld(s: State, d: nat, c: nat)
    requires Inv(s) && NoneLost(s) && s.issued < TWO_64 && Enabled(s, Leave(d))
    requires c < |s.calls| && c !in s.accepted && (s.calls[c].phase.Registered? || s.calls[c].phase.Waiting?)
    ensures Held(Step(s, Leave(d)), c)
  {
    hide Inv, NoneLost;
    HeldAlone(s, c, d);
  }

  lemma CloseOneKeepsHeld(s: State, k: string, c: nat)
    requires Inv(s) && NoneLost(s) && Enabled(s, CloseOne(k))
    requires c < |s.calls| && c !in s.accepted && (s.calls[c].phase.Registered? || s.calls[c].phase.Waiting?)
    ensures Held(Step(s, CloseOne(k)), c)
  {
    assert Held(s, c);
    assert !s.calls[s.shutdown.captured[k]].ch.closed;
    hide Inv, NoneLost, KeyOf;
  }

  /** Steps that leave the maps alone and open no channel. */
  lemma HeldFrame(s: State, t: State, c: nat)
    requires c < |s.calls| && c < |t.calls| && Held(s, c)
    requires t.pending == s.pending && t.shutdown == s.shutdown && t.calls[c].key == s.calls[c].key
    requires s.calls[c].ch.closed ==> t.calls[c].ch.closed
    ensures Held(t, c)
  {
  }

  lemma AdmitKeepsHeld(s: State, c: nat)
    requires NoneLost(s) && Enabled(s, Admit)
    requires c < |s.calls| && c !in s.accepted && (s.calls[c].phase.Registered? || s.calls[c].phase.Waiting?)
    ensures Held(Step(s, Admit), c)
  {
    hide Held, Decimal;
    HeldNow(s, c);
    hide NoneLost;
    HeldFrame(s, Step(s, Admit), c);
  }

  lemma AbandonKeepsHeld(s: State, d: nat, c: nat)
    requires NoneLost(s) && Enabled(s, Abandon(d))
    requires c < |s.calls| && c !in s.accepted && (s.calls[c].phase.Registered? || s.calls[c].phase.Waiting?)
    ensures Held(Step(s, Abandon(d)), c)
  {
    hide Held, Decimal;
    HeldNow(s, c);
    hide NoneLost;
    HeldFrame(s, Step(s, Abandon(d)), c);
  }

  lemma ReserveKeepsHeld(s: State, d: nat, c: nat)
    requires NoneLost(s) && Enabled(s, Reserve(d))
    requires c < |s.calls| && c !in s.accepted && (s.calls[c].phase.Registered? || s.calls[c].phase.Waiting?)
    ensures Held(Step(s, Reserve(d)), c)
  {
    hide Held, Decimal;
    HeldNow(s, c);
    hide NoneLost;
    HeldFrame(s, Step(s, Reserve(d)), c);
  }

  lemma WriteKeepsHeld(s: State, d: nat, ok: bool, c: nat)
    requires NoneLost(s) && Enabled(s, Write(d, ok))
    requires c < |s.calls| && c !in s.accepted && (s.calls[c].phase.Registered? || s.calls[c].phase.Waiting?)
    ensures Held(Step(s, Write(d, ok)), c)
  {
    hide Held, Decimal;
    HeldNow(s, c);
    hide NoneLost;
    HeldFrame(s, Step(s, Write(d, ok)), c);
  }

  lemma CancelKeepsHeld(s: State, d: nat, c: nat)
    requires NoneLost(s) && Enabled(s, Cancel(d))
    requires c < |s.calls| && c !in s.accepted && (s.calls[c].phase.Registered? || s.calls[c].phase.Waiting?)
    ensures Held(Step(s, Cancel(d)), c)
  {
    hide Held;
    HeldNow(s, c);
    hide NoneLost;
    HeldFrame(s, Step(s, Cancel(d)), c);
  }

  lemma SeeDoneKeepsHeld(s: State, d: nat, c: nat)
    requires NoneLost(s) && Enabled(s, SeeDone(d))
    requires c < |s.calls| && c !in s.accepted && (s.calls[c].phase.Registered? || s.calls[c].phase.Waiting?)
    ensures Held(Step(s, SeeDone(d)), c)
  {
    hide Held;
    HeldNow(s, c);
    hide NoneLost;
    HeldFrame(s, Step(s, SeeDone(d)), c);
  }

  lemma ReceiveKeepsHeld(s: State, d: nat, c: nat)
    requires NoneLost(s) && Enabled(s, Receive(d))
    requires c < |s.calls| && c !in s.accepted && (s.calls[c].phase.Registered? || s.calls[c].phase.Waiting?)
    ensures Held(Step(s, Receive(d)), c)
  {
    hide Held;
    HeldNow(s, c);
    hide NoneLost;
    HeldFrame(s, Step(s, Receive(d)), c);
  }

  lemma SendKeepsHeld(s: State, c: nat)
    requires NoneLost(s) && Enabled(s, Send)
    requires c < |s.calls| && c !in s.accepted && (s.calls[c].phase.Registered? || s.calls[c].phase.Waiting?)
    ensures Held(Step(s, Send), c)
  {
    hide Held;
    HeldNow(s, c);
    hide NoneLost;
    HeldFrame(s, Step(s, Send), c);
  }

  lemma CloseTakenKeepsHeld(s: State, c: nat)
    requires NoneLost(s) && Enabled(s, CloseTaken)
    requires c < |s.calls| && c !in s.accepted && (s.calls[c].phase.Registered? || s.calls[c].phase.Waiting?)
    ensures Held(Step(s, CloseTaken), c)
  {
    hide Held;
    HeldNow(s, c);
    hide NoneLost;
    HeldFrame(s, Step(s, CloseTaken), c);
  }

  lemma SwapKeepsHeld(s: State, c: nat)
    requires NoneLost(s) && Enabled(s, Swap)
    requires c < |s.calls| && c !in s.accepted && (s.calls[c].phase.Registered? || s.calls[c].phase.Waiting?)
    ensures Held(Step(s, Swap), c)
  {
    HeldNow(s, c);
    hide NoneLost;
  }

  lemma BeginKeepsHeld(s: State, cause: Option<Err>, c: nat)
    requires NoneLost(s) && Enabled(s, Begin(cause))
    requires c < |s.calls| && c !in s.accepted && (s.calls[c].phase.Registered? || s.calls[c].phase.Waiting?)
    ensures Held(Step(s, Begin(cause)), c)
  {
    HeldNow(s, c);
    hide NoneLost;
  }

  lemma CloseDoneKeepsHeld(s: State, c: nat)
    requires NoneLost(s) && Enabled(s, CloseDone)
    requires c < |s.calls| && c !in s.accepted && (s.calls[c].phase.Registered? || s.calls[c].phase.Waiting?)
    ensures Held(Step(s, CloseDone), c)
  {
    HeldNow(s, c);
    hide NoneLost;
  }

  lemma TakeKeepsHeld(s: State, msg: Response, c: nat)
    requires Inv(s) && c < |s.calls| && Held(s, c) && Enabled(s, Take(msg))
    requires c !in Step(s, Take(msg)).accepted
    ensures Held(Step(s, Take(msg)), c)
  {
    hide KeyOf, Decimal, IdKey, CallsOk, TicketsOk;
    var k := IdKey(msg);
    if k in s.pending && s.calls[c].key == k {
      assert s.pending[k] in Step(s, Take(msg)).accepted;
    }
  }

  lemma {:induction false} RunLosesNone(actions: seq<Action>)
    requires After(actions).issued < TWO_64
    ensures NoneLost(After(actions))
    decreases |actions|
  {
    hide Step, NoneLost, Inv;
    if actions == [] {
      InitialLosesNone();
    } else {
      var init, a := actions[..|actions| - 1], actions[|actions| - 1];
      HistoryGrows(After(init), a);
      RunLosesNone(init);
      Reachable(init);
      StepLosesNone(After(init), a);
    }
  }

  lemma InitialLosesNone()
    ensures NoneLost(After([]))
  {
  }

  // ---------- what the read loop's responses do ----------

  /** Whatever is on its way to the call, or has reached it, is this response. */
  ghost predicate OnlyGets(s: State, c: nat, msg: Response) {
    && c < |s.calls| && c in s.accepted
    && (s.reader.Took? && s.reader.call == c ==> s.reader.msg == msg)
    && (s.calls[c].ch.buf == [] || s.calls[c].ch.buf == [msg])
    && (s.calls[c].phase.Ended? && s.calls[c].phase.outcome.Got? ==> s.calls[c].phase.outcome.msg == msg)
  }

  lemma MoveKeepsOnlyGets(s: State, d: nat, phase: Phase, c: nat, msg: Response)
    requires d < |s.calls| && OnlyGets(s, c, msg) && !(phase.Ended? && phase.outcome.Got?)
    ensures OnlyGets(SetPhase(s, d, phase), c, msg)
  {
  }

  lemma ReserveKeepsOnlyGets(s: State, d: nat, c: nat, msg: Response)
    requires Enabled(s, Reserve(d)) && OnlyGets(s, c, msg)
    ensures OnlyGets(Apply(s, Reserve(d)), c, msg)
  {
    hide Decimal;
  }

  lemma ReceiveKeepsOnlyGets(s: State, d: nat, c: nat, msg: Response)
    requires Enabled(s, Receive(d)) && OnlyGets(s, c, msg)
    ensures OnlyGets(Apply(s, Receive(d)), c, msg)
  {
    hide TrySend, CloseChan, Decimal, IdKey, InactiveErr, NormalizedCause;
  }

  lemma TakeKeepsOnlyGets(s: State, m: Response, c: nat, msg: Response)
    requires MapsOk(s) && Enabled(s, Take(m)) && OnlyGets(s, c, msg)
    ensures OnlyGets(Apply(s, Take(m)), c, msg)
  {
    hide IdKey, MapsOk;
    if IdKey(m) in s.pending {
      EntryAt(s, IdKey(m));
    }
  }

  lemma EntryAt(s: State, k: string)
    requires MapsOk(s) && k in s.pending
    ensures EntryOk(s, k, s.pending[k])
  {
  }

  lemma SendKeepsOnlyGets(s: State, c: nat, msg: Response)
    requires Enabled(s, Send) && OnlyGets(s, c, msg)
    ensures OnlyGets(Apply(s, Send), c, msg)
  {
    hide CloseChan, SetPhase, Decimal, IdKey, InactiveErr, NormalizedCause;
  }

  lemma CloseKeepsOnlyGets(s: State, d: nat, c: nat, msg: Response)
    requires d < |s.calls| && OnlyGets(s, c, msg)
    ensures OnlyGets(CloseChan(s, d), c, msg)
  {
  }

  lemma StepKeepsOnlyGets(s: State, a: Action, c: nat, msg: Response)
    requires Inv(s) && OnlyGets(s, c, msg)
    ensures OnlyGets(Step(s, a), c, msg)
  {
    hide Decimal, IdKey, CallsOk, TicketsOk, AcceptedOk, ShutdownOk, ReaderOk, MapsOk, TrySend, CloseChan, SetPhase;
    if Enabled(s, a) {
      match a
      case Admit =>
      case Abandon(d) => MoveKeepsOnlyGets(s, d, Ended(GaveUp), c, msg);
      case Reserve(d) => ReserveKeepsOnlyGets(s, d, c, msg);
      case Register(d) => MoveKeepsOnlyGets(s, d, Registered, c, msg);
      case Write(d, ok) => MoveKeepsOnlyGets(s, d, if ok then Waiting else Leaving, c, msg);
      case Cancel(d) => MoveKeepsOnlyGets(s, d, Leaving, c, msg);
      case Leave(d) => MoveKeepsOnlyGets(s, d, Ended(GaveUp), c, msg);
      case SeeDone(d) => MoveKeepsOnlyGets(s, d, Ended(Inactive(InactiveErr(s))), c, msg);
      case Receive(d) => ReceiveKeepsOnlyGets(s, d, c, msg);
      case Take(m) => TakeKeepsOnlyGets(s, m, c, msg);
      case Send => SendKeepsOnlyGets(s, c, msg);
      case CloseTaken => CloseKeepsOnlyGets(s, s.reader.call, c, msg);
      case CloseOne(k) => CloseKeepsOnlyGets(s, s.shutdown.captured[k], c, msg);
      case _ =>
    }
  }

  lemma {:induction false} RunKeepsOnlyGets(s: State, more: seq<Action>, c: nat, msg: Response)
    requires Inv(s) && OnlyGets(s, c, msg)
    ensures Inv(Run(s, more)) && OnlyGets(Run(s, more), c, msg)
    decreases |more|
  {
    hide Inv, Step, OnlyGets;
    if more != [] {
      var init, a := more[..|more| - 1], more[|more| - 1];
      RunKeepsOnlyGets(s, init, c, msg);
      StepKeepsInv(Run(s, init), a);
      StepKeepsOnlyGets(Run(s, init), a, c, msg);
    }
  }

  /** The call has returned this response, or has it ready, or the read loop is about to send it. */
  ghost predicate GetsExactly(t: State, c: nat, msg: Response) {
    && c < |t.calls|
    && (forall m :: t.calls[c].phase == Ended(Got(m)) ==> m == msg)
    && (t.calls[c].phase.Waiting? ==>
          if t.reader.Took? && t.reader.call == c then InPhase(Step(Step(t, Send), Receive(c)), c, Ended(Got(msg)))
          else InPhase(Step(t, Receive(c)), c, Ended(Got(msg))))
  }

  lemma BufferedIsReceived(t: State, c: nat, msg: Response)
    requires InPhase(t, c, Waiting) && t.calls[c].ch.buf == [msg]
    ensures InPhase(Step(t, Receive(c)), c, Ended(Got(msg)))
  {
  }

  lemma SentIsBuffered(t: State, c: nat, msg: Response)
    requires InPhase(t, c, Waiting) && t.reader == Took(c, msg) && t.calls[c].ch == FRESH
    ensures InPhase(Step(t, Send), c, Waiting) && Step(t, Send).calls[c].ch.buf == [msg]
  {
  }

  lemma WaiterGets(t: State, c: nat, msg: Response)
    requires Inv(t) && OnlyGets(t, c, msg)
    ensures GetsExactly(t, c, msg)
  {
    CallAt(t, c);
    hide Decimal, IdKey, KeyOf, CallsOk, MapsOk, TicketsOk, AcceptedOk, ShutdownOk, Step;
    if t.calls[c].phase.Waiting? {
      if t.reader.Took? && t.reader.call == c {
        SentIsBuffered(t, c, msg);
        BufferedIsReceived(Step(t, Send), c, msg);
      } else {
        BufferedIsReceived(t, c, msg);
      }
    }
  }

  /**
   Once the read loop has taken a call's entry for a response, then however the other actors carry on,
   that response is the only one the call can return with, and while it waits it is one or two steps away.
   */
  lemma TakenIsReceived(actions: seq<Action>, msg: Response, more: seq<Action>)
    requires After(actions).reader.Idle? && TrimSpace(msg.id) in After(actions).pending
    ensures GetsExactly(Run(Step(After(actions), Take(msg)), more), After(actions).pending[TrimSpace(msg.id)], msg)
  {
    var s, c := After(actions), After(actions).pending[IdKey(msg)];
    Reachable(actions);
    EntryIsFresh(s, IdKey(msg));
    var t := Step(s, Take(msg));
    assert t.calls == s.calls && t.accepted[|s.accepted|] == c;
    StepKeepsInv(s, Take(msg));
    hide *;
    RunKeepsOnlyGets(t, more, c, msg);
    WaiterGets(Run(t, more), c, msg);
  }

  lemma EntryIsFresh(s: State, k: string)
    requires Inv(s) && k in s.pending
    ensures s.pending[k] < |s.calls| && s.calls[s.pending[k]].ch == FRESH
    ensures !(s.calls[s.pending[k]].phase.Ended? && s.calls[s.pending[k]].phase.outcome.Got?)
  {
    CallAt(s, s.pending[k]);
  }

  /**
   Until a shutdown takes the map, a response under the numeral of the id a waiting call drew is accepted,
   and in every continuation of the run it is what the call returns with if it returns with a response.
   */
  lemma ResponseIsDelivered(actions: seq<Action>, c: nat, msg: Response, more: seq<Action>)
    requires
      var s := After(actions);
      && s.issued < TWO_64 && InPhase(s, c, Waiting) && c !in s.accepted
      && s.reader.Idle? && (s.shutdown.NotBegun? || s.shutdown.CauseSet?)
      && TrimSpace(msg.id) == Decimal(s.calls[c].ticket % TWO_64)
    ensures c in Step(After(actions), Take(msg)).accepted
    ensures GetsExactly(Run(Step(After(actions), Take(msg)), more), c, msg)
  {
    RunLosesNone(actions);
    Reachable(actions);
    var s := After(actions);
    assert Held(s, c);
    assert IdKey(msg) in s.pending && s.pending[IdKey(msg)] == c by {
      CallAt(s, c);
      hide Decimal, TrimSpace;
    }
    assert Step(s, Take(msg)).accepted[|s.accepted|] == c;
    hide *;
    TakenIsReceived(actions, msg, more);
  }

  /** In particular the answer to the request of a waiting call, under the very id it was sent with. */
  lemma AnswerIsDelivered(actions: seq<Action>, c: nat, body: string, more: seq<Action>)
    requires
      var s := After(actions);
      && s.issued < TWO_64 && InPhase(s, c, Waiting) && c !in s.accepted
      && s.reader.Idle? && (s.shutdown.NotBegun? || s.shutdown.CauseSet?)
    ensures
      var answer := Response(Decimal(After(actions).calls[c].ticket % TWO_64), body);
      GetsExactly(Run(Step(After(actions), Take(answer)), more), c, answer)
  {
    var answer := Response(Decimal(After(actions).calls[c].ticket % TWO_64), body);
    AnswerCarriesID(After(actions).calls[c].ticket % TWO_64, body);
    assert TrimSpace(answer.id) == IdKey(answer);
    hide TrimSpace, Decimal, Run, Step, GetsExactly, IdKey;
    ResponseIsDelivered(actions, c, answer, more);
  }

  // ---------- what becomes of a channel after its response ----------

  predicate ReaderAt(s: State, c: nat) {
    (s.reader.Took? || s.reader.Sent?) && s.reader.call == c
  }

  /** The channel is closed, or the read loop is still on its way to closing it. */
  ghost predicate SettledCall(s: State, c: nat) {
    c < |s.calls| && (s.calls[c].ch.closed || ReaderAt(s, c))
  }

  ghost predicate Settled(s: State) {
    forall c :: c in s.accepted ==> SettledCall(s, c)
  }

  lemma StepKeepsSettledCall(s: State, a: Action, c: nat)
    requires SettledCall(s, c) && Enabled(s, a)
    ensures SettledCall(Apply(s, a), c)
  {
    hide Decimal, IdKey, InactiveErr, NormalizedCause, SetPhase, SetChan, TrySend, CloseChan;
    match a
    case Abandon(d) => MoveKeepsChannel(s, d, Ended(GaveUp), c);
    case Register(d) => MoveKeepsChannel(s, d, Registered, c);
    case Write(d, ok) => MoveKeepsChannel(s, d, if ok then Waiting else Leaving, c);
    case Cancel(d) => MoveKeepsChannel(s, d, Leaving, c);
    case Leave(d) => MoveKeepsChannel(s, d, Ended(GaveUp), c);
    case SeeDone(d) => MoveKeepsChannel(s, d, Ended(Inactive(InactiveErr(s))), c);
    case Receive(d) => ReceiveKeepsClosed(s, d, c);
    case Send => SendKeepsClosed(s, s.reader.call, s.reader.msg, c);
    case CloseTaken => CloseMakesClosed(s, s.reader.call, c);
    case CloseOne(k) => CloseMakesClosed(s, s.shutdown.captured[k], c);
    case _ =>
  }

  lemma MoveKeepsChannel(s: State, d: nat, phase: Phase, c: nat)
    requires d < |s.calls|
    ensures |SetPhase(s, d, phase).calls| == |s.calls| && SetPhase(s, d, phase).reader == s.reader
    ensures c < |s.calls| ==> SetPhase(s, d, phase).calls[c].ch == s.calls[c].ch
  {
  }

  lemma ReceiveKeepsClosed(s: State, d: nat, c: nat)
    requires Enabled(s, Receive(d)) && c < |s.calls|
    ensures |Apply(s, Receive(d)).calls| == |s.calls| && Apply(s, Receive(d)).reader == s.reader
    ensures Apply(s, Receive(d)).calls[c].ch.closed == s.calls[c].ch.closed
  {
    hide TrySend, CloseChan, Decimal, IdKey, InactiveErr, NormalizedCause;
  }

  lemma SendKeepsClosed(s: State, d: nat, msg: Response, c: nat)
    requires d < |s.calls|
    ensures |TrySend(s, d, msg).calls| == |s.calls|
    ensures c < |s.calls| ==> TrySend(s, d, msg).calls[c].ch.closed == s.calls[c].ch.closed
  {
  }

  lemma CloseMakesClosed(s: State, d: nat, c: nat)
    requires d < |s.calls|
    ensures |CloseChan(s, d).calls| == |s.calls| && CloseChan(s, d).reader == s.reader
    ensures c < |s.calls| ==> (CloseChan(s, d).calls[c].ch.closed <==> c == d || s.calls[c].ch.closed)
  {
  }

  lemma StepKeepsSettled(s: State, a: Action)
    requires Inv(s) && Settled(s)
    ensures Settled(Step(s, a))
  {
    hide SettledCall, Apply, Enabled, Inv;
    if Enabled(s, a) {
      AcceptedByStep(s, a);
      forall c | c in Step(s, a).accepted
        ensures SettledCall(Step(s, a), c)
      {
        if c in s.accepted {
          StepKeepsSettledCall(s, a, c);
        }
      }
    }
  }

  /** A step accepts a response only for the call the read loop then holds. */
  lemma AcceptedByStep(s: State, a: Action)
    requires Inv(s) && Enabled(s, a)
    ensures forall c :: c in Apply(s, a).accepted ==> c in s.accepted || SettledCall(Apply(s, a), c)
  {
    hide Decimal, IdKey, SetPhase, SetChan, TrySend, CloseChan, CallsOk, TicketsOk, ReaderOk, AcceptedOk, ShutdownOk;
    match a
    case Take(msg) =>
      if IdKey(msg) in s.pending {
        EntryAt(s, IdKey(msg));
      }
    case Send => SendKeepsHistory(s, s.reader.call, s.reader.msg);
    case CloseTaken => CloseKeepsHistory(s, s.reader.call);
    case CloseOne(k) => CloseKeepsHistory(s, s.shutdown.captured[k]);
    case Register(d) => MoveKeepsHistory(s, d, Registered);
    case Leave(d) => MoveKeepsHistory(s, d, Ended(GaveUp));
    case Abandon(d) => MoveKeepsHistory(s, d, Ended(GaveUp));
    case Write(d, ok) => MoveKeepsHistory(s, d, if ok then Waiting else Leaving);
    case Cancel(d) => MoveKeepsHistory(s, d, Leaving);
    case SeeDone(d) => MoveKeepsHistory(s, d, Ended(Inactive(InactiveErr(s))));
    case Receive(d) => ReceiveKeepsHistory(s, d);
    case _ =>
  }

  lemma MoveKeepsHistory(s: State, d: nat, phase: Phase)
    requires d < |s.calls|
    ensures SetPhase(s, d, phase).accepted == s.accepted
  {
  }

  lemma ReceiveKeepsHistory(s: State, d: nat)
    requires Enabled(s, Receive(d))
    ensures Apply(s, Receive(d)).accepted == s.accepted
  {
    hide TrySend, CloseChan, Decimal, IdKey, InactiveErr, NormalizedCause;
  }

  lemma {:induction false} RunSettles(actions: seq<Action>)
    ensures Settled(After(actions))
    decreases |actions|
  {
    hide Step, Inv;
    if actions != [] {
      var init, a := actions[..|actions| - 1], actions[|actions| - 1];
      RunSettles(init);
      Reachable(init);
      hide Settled;
      StepKeepsSettled(After(init), a);
    }
  }

  /** Between two messages of the read loop the channel of every call a response was accepted for is closed. */
  lemma AcceptedIsClosed(actions: seq<Action>, c: nat)
    requires After(actions).reader.Idle? && c in After(actions).accepted
    ensures c < |After(actions).calls| && After(actions).calls[c].ch.closed
  {
    RunSettles(actions);
    hide Run;
  }

  /**
   A response changes nothing when no call is registered under its id: an unknown id, a second response
   to an accepted call, or one to a call that was cancelled or could not be written.
   */
  lemma StrayResponseIsIgnored(actions: seq<Action>, c: nat, msg: Response)
    requires After(actions).issued < TWO_64 && c < |After(actions).calls| && After(actions).calls[c].ticket > 0
    requires c in After(actions).accepted || After(actions).calls[c].phase == Ended(GaveUp)
    requires TrimSpace(msg.id) == Decimal(After(actions).calls[c].ticket % TWO_64)
    ensures Step(After(actions), Take(msg)) == After(actions)
  {
    Reachable(actions);
    CallAt(After(actions), c);
    hide Decimal, TrimSpace;
    var s, k := After(actions), IdKey(msg);
    if k in s.pending {
      var d := s.pending[k];
      assert EntryOk(s, k, d);
      if d != c {
        KeysAreDistinct(s, c, d);
      }
      assert false;
    }
  }

  /** A response whose id no call of the run ever drew changes nothing. */
  lemma UnknownResponseIsIgnored(actions: seq<Action>, msg: Response)
    requires forall c :: 0 <= c < |After(actions).calls| && After(actions).calls[c].ticket > 0 ==>
      Decimal(After(actions).calls[c].ticket % TWO_64) != TrimSpace(msg.id)
    ensures Step(After(actions), Take(msg)) == After(actions)
  {
    Reachable(actions);
    var s, k := After(actions), IdKey(msg);
    hide Decimal, TrimSpace, TicketsOk, AcceptedOk, ShutdownOk, ReaderOk;
    if k in s.pending {
      assert EntryOk(s, k, s.pending[k]);
      CallAt(s, s.pending[k]);
      assert false;
    }
  }
}
