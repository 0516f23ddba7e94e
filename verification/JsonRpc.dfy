/**
 The JSON-RPC connection as a step system. Each step is one section the source runs under a
 lock, or one operation on a channel; a run is any sequence of steps of any callers, of the
 read loop and of a shutdown. A step that is not enabled where it stands does nothing, so
 every sequence of steps is a run.
 */
module JsonRpc {
  import opened Text

  const TWO_64 := 0x1_0000_0000_0000_0000

  // ---------- data ----------

  /** Errors as far as the connection looks at them. */
  datatype Err = ClosedPipe | Fault(detail: string, wrapsEof: bool)

  /** A missing cause and an end of file are reported as a closed pipe. */
  function NormalizedCause(cause: Option<Err>): Err {
    match cause
    case None => ClosedPipe
    case Some(e) => if e.Fault? && e.wrapsEof then ClosedPipe else e
  }

  datatype Response = Response(id: string, body: string)

  function IdKey(m: Response): string {
    TrimSpace(m.id)
  }

  /** A response channel of capacity one. */
  datatype Chan = Chan(buf: seq<Response>, closed: bool)

  const FRESH := Chan([], false)

  /** How a call ends: with a response, on an inactive connection, or cancelled or failed on its own side. */
  datatype Outcome = Got(msg: Response) | Inactive(err: Err) | GaveUp

  /** Where a caller is: past the check of `done`, with an id, in the map, waiting, about to remove itself, back. */
  datatype Phase = Admitted | Reserved | Registered | Waiting | Leaving | Ended(outcome: Outcome)

  /** A caller, the id it drew (`ticket` counts draws, from 1), its key in the map, and its channel. */
  datatype Call = Call(phase: Phase, ticket: nat, key: string, ch: Chan)

  /** The read loop: between messages, owning a channel, or having sent on it. */
  datatype Reader = Idle | Took(call: nat, msg: Response) | Sent(call: nat)

  /** The shutdown: not begun, cause recorded, map swapped out with these entries still to close, or over. */
  datatype Shutdown = NotBegun | CauseSet | Swapped(captured: map<string, nat>) | Over

  /**
   Callers are known by their position in `calls`. `issued`, `accepted`, `cause`, `panicked` and
   `dropped` are history: ids drawn, calls a response was accepted for, the cause of the shutdown
   that ran, whether a channel was misused, and whether a response was ever discarded at the send.
   */
  datatype State = State(
    calls: seq<Call>, pending: map<string, nat>, nextID: nat, closeErr: Option<Err>, done: bool,
    reader: Reader, shutdown: Shutdown,
    issued: nat, accepted: seq<nat>, cause: Option<Option<Err>>, panicked: bool, dropped: bool)

  const INITIAL := State([], map[], 0, None, false, Idle, NotBegun, 0, [], None, false, false)

  datatype Action =
    | Admit | Abandon(c: nat) | Reserve(c: nat) | Register(c: nat) | Write(c: nat, ok: bool)
    | Cancel(c: nat) | Leave(c: nat) | SeeDone(c: nat) | Receive(c: nat)
    | Take(msg: Response) | Send | CloseTaken
    | Begin(cause: Option<Err>) | Swap | CloseOne(key: string) | CloseDone

  /** The key of the id a draw of the 64-bit counter gives. */
  function KeyOf(ticket: nat): string {
    Decimal(ticket % TWO_64)
  }

  // ---------- steps ----------

  function InactiveErr(s: State): Err {
    if s.closeErr.Some? then s.closeErr.value else ClosedPipe
  }

  predicate InPhase(s: State, c: nat, phase: Phase) {
    c < |s.calls| && s.calls[c].phase == phase
  }

  predicate Enabled(s: State, a: Action) {
    match a
    case Admit => true
    case Abandon(c) => InPhase(s, c, Admitted)
    case Reserve(c) => InPhase(s, c, Admitted)
    case Register(c) => InPhase(s, c, Reserved)
    case Write(c, _) => InPhase(s, c, Registered)
    case Cancel(c) => InPhase(s, c, Waiting)
    case Leave(c) => InPhase(s, c, Leaving)
    case SeeDone(c) => InPhase(s, c, Waiting) && s.done
    case Receive(c) => InPhase(s, c, Waiting) && (s.calls[c].ch.buf != [] || s.calls[c].ch.closed)
    case Take(_) => s.reader.Idle?
    case Send => s.reader.Took? && s.reader.call < |s.calls|
    case CloseTaken => s.reader.Sent? && s.reader.call < |s.calls|
    case Begin(_) => s.shutdown.NotBegun?
    case Swap => s.shutdown.CauseSet?
    case CloseOne(k) => s.shutdown.Swapped? && k in s.shutdown.captured && s.shutdown.captured[k] < |s.calls|
    case CloseDone => s.shutdown.Swapped? && s.shutdown.captured == map[]
  }

  function SetPhase(s: State, c: nat, phase: Phase): State
    requires c < |s.calls|
  {
    s.(calls := s.calls[c := s.calls[c].(phase := phase)])
  }

  function SetChan(s: State, c: nat, ch: Chan): State
    requires c < |s.calls|
  {
    s.(calls := s.calls[c := s.calls[c].(ch := ch)])
  }

  /** A send that does not block: into the buffer if there is room, else dropped; on a closed channel it panics. */
  function TrySend(s: State, c: nat, msg: Response): State
    requires c < |s.calls|
  {
    var ch := s.calls[c].ch;
    if ch.closed then s.(panicked := true)
    else if ch.buf == [] then SetChan(s, c, ch.(buf := [msg]))
    else s.(dropped := true)
  }

  /** Closing a closed channel panics. */
  function CloseChan(s: State, c: nat): State
    requires c < |s.calls|
  {
    if s.calls[c].ch.closed then s.(panicked := true) else SetChan(s, c, s.calls[c].ch.(closed := true))
  }

  function Apply(s: State, a: Action): State
    requires Enabled(s, a)
  {
    match a
    case Admit =>
      s.(calls := s.calls + [Call(if s.done then Ended(Inactive(InactiveErr(s))) else Admitted, 0, "", FRESH)])
    case Abandon(c) => SetPhase(s, c, Ended(GaveUp))
    case Reserve(c) =>
      var id := (s.nextID + 1) % TWO_64;
      s.(nextID := id, issued := s.issued + 1,
         calls := s.calls[c := s.calls[c].(phase := Reserved, ticket := s.issued + 1, key := Decimal(id))])
    case Register(c) => SetPhase(s, c, Registered).(pending := s.pending[s.calls[c].key := c])
    case Write(c, ok) => SetPhase(s, c, if ok then Waiting else Leaving)
    case Cancel(c) => SetPhase(s, c, Leaving)
    case Leave(c) => SetPhase(s, c, Ended(GaveUp)).(pending := s.pending - {s.calls[c].key})
    case SeeDone(c) => SetPhase(s, c, Ended(Inactive(InactiveErr(s))))
    case Receive(c) =>
      var ch := s.calls[c].ch;
      if ch.buf != [] then SetPhase(SetChan(s, c, ch.(buf := ch.buf[1..])), c, Ended(Got(ch.buf[0])))
      else SetPhase(s, c, Ended(Inactive(InactiveErr(s))))
    case Take(msg) =>
      var k := IdKey(msg);
      if k in s.pending then
        s.(pending := s.pending - {k}, reader := Took(s.pending[k], msg), accepted := s.accepted + [s.pending[k]])
      else s
    case Send => TrySend(s, s.reader.call, s.reader.msg).(reader := Sent(s.reader.call))
    case CloseTaken => CloseChan(s, s.reader.call).(reader := Idle)
    case Begin(cause) =>
      s.(closeErr := if s.closeErr.None? then Some(NormalizedCause(cause)) else s.closeErr,
         shutdown := CauseSet, cause := Some(cause))
    case Swap => s.(pending := map[], shutdown := Swapped(s.pending))
    case CloseOne(k) =>
      CloseChan(s, s.shutdown.captured[k]).(shutdown := Swapped(s.shutdown.captured - {k}))
    case CloseDone => s.(done := true, shutdown := Over, panicked := s.panicked || s.done)
  }

  function Step(s: State, a: Action): State {
    if Enabled(s, a) then Apply(s, a) else s
  }

  function Run(s: State, actions: seq<Action>): State {
    if actions == [] then s
    else Step(Run(s, actions[..|actions| - 1]), actions[|actions| - 1])
  }

  lemma RunSnoc(s: State, actions: seq<Action>, a: Action)
    ensures Run(s, actions + [a]) == Step(Run(s, actions), a)
  {
    assert (actions + [a])[..|actions|] == actions;
  }

  lemma {:induction false} RunAppend(s: State, a: seq<Action>, b: seq<Action>)
    ensures Run(s, a + b) == Run(Run(s, a), b)
    decreases |b|
  {
    hide Step;
    if b == [] {
      assert a + b == a;
    } else {
      var init, last := b[..|b| - 1], b[|b| - 1];
      assert a + b == (a + init) + [last];
      RunAppend(s, a, init);
      RunSnoc(s, a + init, last);
    }
  }

  lemma FewerEntries(m: map<string, nat>, k: string)
    requires k in m
    ensures |m - {k}| + 1 == |m|
  {
    assert (m - {k}).Keys == m.Keys - {k};
    assert |m.Keys - {k}| == |m.Keys| - 1;
  }

  // ---------- the invariant ----------

  predicate InMapPhase(phase: Phase) {
    phase.Registered? || phase.Waiting? || phase.Leaving? || phase.Ended?
  }

  /** An entry of the map, or of the map a shutdown took: an untouched channel of the call with that key. */
  ghost predicate EntryOk(s: State, k: string, c: nat) {
    && c < |s.calls| && s.calls[c].key == k && s.calls[c].ch == FRESH
    && InMapPhase(s.calls[c].phase) && c !in s.accepted && s.calls[c].ticket > 0
  }

  ghost predicate MapsOk(s: State) {
    && (forall k :: k in s.pending ==> EntryOk(s, k, s.pending[k]) && s.calls[s.pending[k]].phase != Ended(GaveUp))
    && (s.shutdown.Swapped? ==> forall k :: k in s.shutdown.captured ==>
          EntryOk(s, k, s.shutdown.captured[k]) && (k in s.pending ==> s.pending[k] != s.shutdown.captured[k]))
  }

  ghost predicate ReaderOk(s: State) {
    match s.reader
    case Idle => true
    case Took(c, msg) => c < |s.calls| && c in s.accepted && s.calls[c].ch == FRESH && IdKey(msg) == s.calls[c].key
    case Sent(c) => c < |s.calls| && c in s.accepted && !s.calls[c].ch.closed
  }

  ghost predicate CallOk(s: State, c: nat)
    requires c < |s.calls|
  {
    var x := s.calls[c];
    && (x.phase.Admitted? || x.phase.Reserved? ==> x.ch == FRESH && c !in s.accepted)
    && (x.phase.Registered? || x.phase.Waiting? || x.phase.Leaving? || x.phase.Reserved? ==> x.ticket > 0)
    && (x.ticket > 0 ==> x.ticket <= s.issued && x.key == KeyOf(x.ticket))
    && (x.phase.Admitted? ==> x.ticket == 0)
    && (c in s.accepted ==> x.ticket > 0)
    && (x.ch.buf != [] ==> |x.ch.buf| == 1 && c in s.accepted && IdKey(x.ch.buf[0]) == x.key)
    && (x.ch.closed && c !in s.accepted ==> s.shutdown.Swapped? || s.shutdown.Over?)
    && ((x.phase.Registered? || x.phase.Waiting?) && c in s.accepted ==>
          x.ch.buf != [] || (s.reader.Took? && s.reader.call == c))
    && (x.phase.Ended? && x.phase.outcome.Got? ==> c in s.accepted && IdKey(x.phase.outcome.msg) == x.key)
    && (x.phase.Ended? && x.phase.outcome.Inactive? ==> s.closeErr == Some(x.phase.outcome.err))
  }

  ghost predicate CallsOk(s: State) {
    forall c :: 0 <= c < |s.calls| ==> CallOk(s, c)
  }

  ghost predicate TicketsOk(s: State) {
    && s.nextID == s.issued % TWO_64
    && forall c, d :: 0 <= c < d < |s.calls| && s.calls[c].ticket == s.calls[d].ticket ==> s.calls[c].ticket == 0
  }

  ghost predicate AcceptedOk(s: State) {
    && (forall i :: 0 <= i < |s.accepted| ==> s.accepted[i] < |s.calls|)
    && (forall i, j :: 0 <= i < j < |s.accepted| ==> s.accepted[i] != s.accepted[j])
  }

  ghost predicate ShutdownOk(s: State) {
    && (s.shutdown.NotBegun? <==> s.cause.None?)
    && s.closeErr == (if s.cause.None? then None else Some(NormalizedCause(s.cause.value)))
    && (s.done <==> s.shutdown.Over?)
  }

  ghost predicate Inv(s: State) {
    && !s.panicked && !s.dropped
    && MapsOk(s) && ReaderOk(s) && CallsOk(s) && TicketsOk(s) && AcceptedOk(s) && ShutdownOk(s)
  }

  lemma CallAt(s: State, c: nat)
    requires CallsOk(s) && c < |s.calls|
    ensures CallOk(s, c)
  {
  }

  /** Moves that leave channels and maps alone. */
  predicate CanMove(s: State, c: nat, phase: Phase) {
    && c < |s.calls|
    && match s.calls[c].phase
       case Admitted => phase == Ended(GaveUp)
       case Registered => phase == Waiting || phase == Leaving
       case Waiting =>
         || phase == Leaving
         || (phase.Ended? && phase.outcome.Inactive? && s.closeErr == Some(phase.outcome.err))
       case _ => false
  }

  lemma MoveKeepsCalls(s: State, c: nat, phase: Phase)
    requires Inv(s) && CanMove(s, c, phase)
    ensures CallsOk(SetPhase(s, c, phase))
  {
    hide KeyOf, Decimal, IdKey, AcceptedOk, TicketsOk, MapsOk;
    var t := SetPhase(s, c, phase);
    forall d | 0 <= d < |s.calls|
      ensures CallOk(t, d)
    {
      CallAt(s, d);
    }
  }

  lemma MoveKeepsInv(s: State, c: nat, phase: Phase)
    requires Inv(s) && CanMove(s, c, phase)
    ensures Inv(SetPhase(s, c, phase))
  {
    MoveKeepsCalls(s, c, phase);
    MoveKeepsMaps(s, c, phase);
    hide KeyOf, Decimal, IdKey, CallsOk, MapsOk;
  }

  lemma MoveKeepsMaps(s: State, c: nat, phase: Phase)
    requires Inv(s) && CanMove(s, c, phase)
    ensures MapsOk(SetPhase(s, c, phase))
  {
    hide KeyOf, Decimal, IdKey, CallsOk, TicketsOk, ReaderOk, AcceptedOk, ShutdownOk;
  }

  lemma AdmitKeepsInv(s: State)
    requires Inv(s) && Enabled(s, Admit)
    ensures Inv(Step(s, Admit))
  {
    hide KeyOf, Decimal, IdKey;
    var t := Step(s, Admit);
    forall d | 0 <= d < |t.calls|
      ensures CallOk(t, d)
    {
      if d < |s.calls| {
        CallAt(s, d);
      } else {
        assert d !in s.accepted;
      }
    }
  }

  lemma NextRemainder(n: nat)
    ensures (n % TWO_64 + 1) % TWO_64 == (n + 1) % TWO_64
  {
  }

  lemma NextKey(s: State)
    requires TicketsOk(s)
    ensures Decimal((s.nextID + 1) % TWO_64) == KeyOf(s.issued + 1)
  {
    hide Decimal;
    NextRemainder(s.issued);
  }

  lemma TicketsAreIssued(s: State, c: nat)
    requires Inv(s) && c < |s.calls|
    ensures forall d :: 0 <= d < |s.calls| ==> s.calls[d].ticket <= s.issued
    ensures s.calls[c].phase.Admitted? || s.calls[c].phase.Reserved? ==> c !in s.accepted && s.calls[c].ch == FRESH
    ensures s.calls[c].phase.Reserved? ==> s.calls[c].ticket > 0
  {
    hide KeyOf, Decimal, IdKey, AcceptedOk, TicketsOk, MapsOk, ReaderOk;
    CallAt(s, c);
    forall d | 0 <= d < |s.calls|
      ensures s.calls[d].ticket <= s.issued
    {
      CallAt(s, d);
    }
  }

  lemma ReserveKeepsCalls(s: State, c: nat)
    requires Inv(s) && Enabled(s, Reserve(c))
    ensures CallsOk(Step(s, Reserve(c)))
  {
    NextKey(s);
    hide KeyOf, Decimal, IdKey, AcceptedOk, TicketsOk;
    var t := Step(s, Reserve(c));
    forall d | 0 <= d < |s.calls|
      ensures CallOk(t, d)
    {
      CallAt(s, d);
    }
  }

  lemma ReserveKeepsMaps(s: State, c: nat)
    requires Inv(s) && Enabled(s, Reserve(c))
    ensures MapsOk(Step(s, Reserve(c)))
  {
    TicketsAreIssued(s, c);
    hide KeyOf, Decimal, IdKey, CallsOk, TicketsOk, ReaderOk, AcceptedOk, ShutdownOk;
  }

  lemma ReserveKeepsHistory(s: State, c: nat)
    requires Inv(s) && Enabled(s, Reserve(c))
    ensures
      var t := Step(s, Reserve(c));
      !t.panicked && !t.dropped && ReaderOk(t) && TicketsOk(t) && AcceptedOk(t) && ShutdownOk(t)
  {
    TicketsAreIssued(s, c);
    ReserveKeepsTickets(s, c);
    hide KeyOf, Decimal, IdKey, CallsOk, MapsOk, TicketsOk;
  }

  lemma ReserveKeepsTickets(s: State, c: nat)
    requires TicketsOk(s) && Enabled(s, Reserve(c))
    requires forall d :: 0 <= d < |s.calls| ==> s.calls[d].ticket <= s.issued
    ensures TicketsOk(Step(s, Reserve(c)))
  {
    NextRemainder(s.issued);
    hide Decimal;
  }

  lemma RegisterKeepsCalls(s: State, c: nat)
    requires Inv(s) && Enabled(s, Register(c))
    ensures CallsOk(Step(s, Register(c)))
  {
    hide KeyOf, Decimal, IdKey, AcceptedOk, TicketsOk;
    var t := Step(s, Register(c));
    forall d | 0 <= d < |s.calls|
      ensures CallOk(t, d)
    {
      CallAt(s, d);
    }
  }

  lemma RegisterKeepsMaps(s: State, c: nat)
    requires Inv(s) && Enabled(s, Register(c))
    ensures MapsOk(Step(s, Register(c)))
  {
    TicketsAreIssued(s, c);
    hide KeyOf, Decimal, IdKey, CallsOk, TicketsOk, ReaderOk, AcceptedOk, ShutdownOk;
  }

  lemma RegisterKeepsHistory(s: State, c: nat)
    requires Inv(s) && Enabled(s, Register(c))
    ensures
      var t := Step(s, Register(c));
      !t.panicked && !t.dropped && ReaderOk(t) && TicketsOk(t) && AcceptedOk(t) && ShutdownOk(t)
  {
    TicketsAreIssued(s, c);
    hide KeyOf, Decimal, IdKey, CallsOk, MapsOk;
  }

  lemma LeaveKeepsCalls(s: State, c: nat)
    requires Inv(s) && Enabled(s, Leave(c))
    ensures CallsOk(Step(s, Leave(c)))
  {
    hide KeyOf, Decimal, IdKey, AcceptedOk, TicketsOk;
    var t := Step(s, Leave(c));
    forall d | 0 <= d < |s.calls|
      ensures CallOk(t, d)
    {
      CallAt(s, d);
    }
  }

  lemma LeaveKeepsMaps(s: State, c: nat)
    requires Inv(s) && Enabled(s, Leave(c))
    ensures MapsOk(Step(s, Leave(c)))
  {
    hide KeyOf, Decimal, IdKey, CallsOk, TicketsOk, ReaderOk, AcceptedOk, ShutdownOk;
  }

  lemma LeaveKeepsHistory(s: State, c: nat)
    requires Inv(s) && Enabled(s, Leave(c))
    ensures
      var t := Step(s, Leave(c));
      !t.panicked && !t.dropped && ReaderOk(t) && TicketsOk(t) && AcceptedOk(t) && ShutdownOk(t)
  {
    hide KeyOf, Decimal, IdKey, CallsOk, MapsOk;
  }

  /** A waiting call whose channel is closed and empty was never accepted, so a shutdown closed it. */
  lemma ClosedEmpty(s: State, c: nat)
    requires Inv(s) && InPhase(s, c, Waiting) && s.calls[c].ch == FRESH.(closed := true)
    ensures s.closeErr.Some?
  {
    CallAt(s, c);
    hide KeyOf, Decimal, IdKey, CallsOk, MapsOk;
  }

  lemma ReceiveKeepsCalls(s: State, c: nat)
    requires Inv(s) && Enabled(s, Receive(c)) && s.calls[c].ch.buf != []
    ensures CallsOk(Step(s, Receive(c)))
  {
    hide KeyOf, Decimal, IdKey, AcceptedOk, TicketsOk;
    var t := Step(s, Receive(c));
    forall d | 0 <= d < |s.calls|
      ensures CallOk(t, d)
    {
      CallAt(s, d);
    }
  }

  lemma ReceiveKeepsMaps(s: State, c: nat)
    requires Inv(s) && Enabled(s, Receive(c)) && s.calls[c].ch.buf != []
    ensures MapsOk(Step(s, Receive(c)))
  {
    hide KeyOf, Decimal, IdKey, CallsOk, TicketsOk, ReaderOk, AcceptedOk, ShutdownOk;
  }

  lemma ReceiveKeepsHistory(s: State, c: nat)
    requires Inv(s) && Enabled(s, Receive(c)) && s.calls[c].ch.buf != []
    ensures
      var t := Step(s, Receive(c));
      !t.panicked && !t.dropped && ReaderOk(t) && TicketsOk(t) && AcceptedOk(t) && ShutdownOk(t)
  {
    hide KeyOf, Decimal, IdKey, CallsOk, MapsOk;
  }

  lemma TakeKeepsCalls(s: State, msg: Response)
    requires Inv(s) && Enabled(s, Take(msg))
    ensures CallsOk(Step(s, Take(msg)))
  {
    hide KeyOf, Decimal, IdKey, AcceptedOk, TicketsOk;
    var t := Step(s, Take(msg));
    forall d | 0 <= d < |s.calls|
      ensures CallOk(t, d)
    {
      CallAt(s, d);
    }
  }

  lemma TakeKeepsMaps(s: State, msg: Response)
    requires Inv(s) && Enabled(s, Take(msg))
    ensures MapsOk(Step(s, Take(msg)))
  {
    hide KeyOf, Decimal, IdKey, CallsOk, TicketsOk, ReaderOk, AcceptedOk, ShutdownOk;
  }

  lemma TakeKeepsHistory(s: State, msg: Response)
    requires Inv(s) && Enabled(s, Take(msg))
    ensures
      var t := Step(s, Take(msg));
      !t.panicked && !t.dropped && ReaderOk(t) && TicketsOk(t) && AcceptedOk(t) && ShutdownOk(t)
  {
    hide KeyOf, Decimal, IdKey, CallsOk;
  }

  lemma SendKeepsInv(s: State)
    requires Inv(s) && Enabled(s, Send)
    ensures Inv(Step(s, Send))
  {
    hide KeyOf, Decimal, IdKey;
    var t := Step(s, Send);
    forall d | 0 <= d < |s.calls|
      ensures CallOk(t, d)
    {
      CallAt(s, d);
    }
  }

  lemma CloseTakenKeepsInv(s: State)
    requires Inv(s) && Enabled(s, CloseTaken)
    ensures Inv(Step(s, CloseTaken))
  {
    hide KeyOf, Decimal, IdKey;
    var t := Step(s, CloseTaken);
    forall d | 0 <= d < |s.calls|
      ensures CallOk(t, d)
    {
      CallAt(s, d);
    }
  }

  lemma BeginKeepsInv(s: State, cause: Option<Err>)
    requires Inv(s) && Enabled(s, Begin(cause))
    ensures Inv(Step(s, Begin(cause)))
  {
    hide KeyOf, Decimal, IdKey;
    var t := Step(s, Begin(cause));
    forall d | 0 <= d < |s.calls|
      ensures CallOk(t, d)
    {
      CallAt(s, d);
    }
  }

  lemma SwapKeepsInv(s: State)
    requires Inv(s) && Enabled(s, Swap)
    ensures Inv(Step(s, Swap))
  {
    hide KeyOf, Decimal, IdKey;
    var t := Step(s, Swap);
    forall d | 0 <= d < |s.calls|
      ensures CallOk(t, d)
    {
      CallAt(s, d);
    }
  }

  lemma CloseOneKeepsCalls(s: State, k: string)
    requires Inv(s) && Enabled(s, CloseOne(k))
    ensures CallsOk(Step(s, CloseOne(k)))
  {
    hide KeyOf, Decimal, IdKey, AcceptedOk, TicketsOk;
    var t := Step(s, CloseOne(k));
    forall d | 0 <= d < |s.calls|
      ensures CallOk(t, d)
    {
      CallAt(s, d);
    }
  }

  lemma CloseOneKeepsMaps(s: State, k: string)
    requires Inv(s) && Enabled(s, CloseOne(k))
    ensures MapsOk(Step(s, CloseOne(k)))
  {
    hide KeyOf, Decimal, IdKey, CallsOk, TicketsOk, ReaderOk, AcceptedOk, ShutdownOk;
  }

  lemma CloseOneKeepsHistory(s: State, k: string)
    requires Inv(s) && Enabled(s, CloseOne(k))
    ensures
      var t := Step(s, CloseOne(k));
      !t.panicked && !t.dropped && ReaderOk(t) && TicketsOk(t) && AcceptedOk(t) && ShutdownOk(t)
  {
    hide KeyOf, Decimal, IdKey, CallsOk;
  }

  lemma CloseDoneKeepsInv(s: State)
    requires Inv(s) && Enabled(s, CloseDone)
    ensures Inv(Step(s, CloseDone))
  {
    hide KeyOf, Decimal, IdKey;
    var t := Step(s, CloseDone);
    forall d | 0 <= d < |s.calls|
      ensures CallOk(t, d)
    {
      CallAt(s, d);
    }
  }

  /**
   No step breaks the invariant: whoever holds a channel outside the map is alone in holding it, so
   no step sends on or closes a closed channel and none discards a response.
   */
  lemma StepKeepsInv(s: State, a: Action)
    requires Inv(s)
    ensures Inv(Step(s, a))
  {
    hide CallsOk, MapsOk, ReaderOk, TicketsOk, AcceptedOk;
    if Enabled(s, a) {
      match a
      case Admit => AdmitKeepsInv(s);
      case Abandon(c) => MoveKeepsInv(s, c, Ended(GaveUp));
      case Reserve(c) =>
        ReserveKeepsCalls(s, c);
        ReserveKeepsMaps(s, c);
        ReserveKeepsHistory(s, c);
      case Register(c) =>
        RegisterKeepsCalls(s, c);
        RegisterKeepsMaps(s, c);
        RegisterKeepsHistory(s, c);
      case Write(c, ok) => MoveKeepsInv(s, c, if ok then Waiting else Leaving);
      case Cancel(c) => MoveKeepsInv(s, c, Leaving);
      case Leave(c) =>
        LeaveKeepsCalls(s, c);
        LeaveKeepsMaps(s, c);
        LeaveKeepsHistory(s, c);
      case SeeDone(c) => MoveKeepsInv(s, c, Ended(Inactive(InactiveErr(s))));
      case Receive(c) =>
        if s.calls[c].ch.buf == [] {
          ClosedEmpty(s, c);
          MoveKeepsInv(s, c, Ended(Inactive(InactiveErr(s))));
        } else {
          ReceiveKeepsCalls(s, c);
          ReceiveKeepsMaps(s, c);
          ReceiveKeepsHistory(s, c);
        }
      case Take(msg) =>
        TakeKeepsCalls(s, msg);
        TakeKeepsMaps(s, msg);
        TakeKeepsHistory(s, msg);
      case Send => SendKeepsInv(s);
      case CloseTaken => CloseTakenKeepsInv(s);
      case Begin(cause) => BeginKeepsInv(s, cause);
      case Swap => SwapKeepsInv(s);
      case CloseOne(k) =>
        CloseOneKeepsCalls(s, k);
        CloseOneKeepsMaps(s, k);
        CloseOneKeepsHistory(s, k);
      case CloseDone => CloseDoneKeepsInv(s);
    }
  }

  // ---------- every run ----------

  lemma {:induction false} RunKeepsInv(s: State, actions: seq<Action>)
    requires Inv(s)
    ensures Inv(Run(s, actions))
    decreases |actions|
  {
    hide Inv, Step;
    if actions != [] {
      RunKeepsInv(s, actions[..|actions| - 1]);
      StepKeepsInv(Run(s, actions[..|actions| - 1]), actions[|actions| - 1]);
    }
  }

  /** The state a run reaches. */
  function After(actions: seq<Action>): State {
    Run(INITIAL, actions)
  }

  lemma Reachable(actions: seq<Action>)
    ensures Inv(After(actions))
  {
    RunKeepsInv(INITIAL, actions);
  }

  /** In every interleaving no channel is closed twice or sent to after closing, and no send drops a response. */
  lemma ChannelsAreSafe(actions: seq<Action>)
    ensures !After(actions).panicked && !After(actions).dropped
  {
    Reachable(actions);
  }

  /** A response under the numeral of an id, as the request was sent, is found under that numeral. */
  lemma AnswerCarriesID(n: nat, body: string)
    ensures IdKey(Response(Decimal(n), body)) == Decimal(n)
  {
    var s := Decimal(n);
    assert s[0] in s && s[|s| - 1] in s;
    assert Trimmed(s);
  }

  /**
   A call only ever receives a response whose id is the numeral of the one it drew; each call has at most one
   response accepted for it.
   */
  lemma ResponsesAreCorrelated(actions: seq<Action>, c: nat)
    requires c < |After(actions).calls|
    ensures
      var s := After(actions);
      var x := s.calls[c];
      && (forall m :: x.phase == Ended(Got(m)) ==> TrimSpace(m.id) == Decimal(x.ticket % TWO_64) && c in s.accepted)
      && forall i, j :: 0 <= i < j < |s.accepted| ==> s.accepted[i] != s.accepted[j]
  {
    Reachable(actions);
    CallAt(After(actions), c);
    hide Decimal, TrimSpace, MapsOk;
  }

  /** Once the connection is closed a new call ends at once with the cause; before that it is admitted. */
  lemma AdmitChecksDone(actions: seq<Action>)
    ensures
      var s, t := After(actions), Step(After(actions), Admit);
      && |t.calls| == |s.calls| + 1 && (s.done ==> s.closeErr.Some?)
      && t.calls[|s.calls|].phase == if s.done then Ended(Inactive(s.closeErr.value)) else Admitted
  {
    Reachable(actions);
    hide MapsOk, ReaderOk, CallsOk, TicketsOk, AcceptedOk;
  }
}
