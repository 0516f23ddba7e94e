/**
 The connection object. Its small methods are the sections that run under a lock or touch a
 channel, each proved to be one step of the system in `JsonRpc`; its large methods are the
 source's functions, proved to be runs of those steps, in the source's order. What the steps
 of several functions do when they interleave is the subject of `JsonRpc`, `Delivery` and `Closing`.
 */
module Connection {
  import opened Text
  import opened JsonRpc

  /** A request as handed to the writer: the method and its encoded parameters under the call's id. */
  datatype Request = Request(id: string, name: string, params: string)

  class Conn {
    var pending: map<string, nat>
    var nextID: nat
    var closeErr: Option<Err>
    var done: bool
    /** The callers and the channels they own, by position. */
    var calls: seq<Call>
    /** Every request handed to the writer, in order. */
    var handed: seq<Request>

    // The read loop's and the shutdown's own variables, the count of draws, and the history.
    var reader: Reader
    var shutdown: Shutdown
    var issued: nat
    ghost var accepted: seq<nat>
    ghost var cause: Option<Option<Err>>
    ghost var panicked: bool
    ghost var dropped: bool

    ghost function View(): State
      reads this
    {
      State(calls, pending, nextID, closeErr, done, reader, shutdown, issued, accepted, cause, panicked, dropped)
    }

    constructor ()
      ensures View() == INITIAL
    {
      pending, nextID, closeErr, done, calls, handed := map[], 0, None, false, [], [];
      reader, shutdown := Idle, NotBegun;
      issued, accepted, cause, panicked, dropped := 0, [], None, false, false;
    }

    // ---------- sections ----------

    method InactiveError() returns (e: Err)
      ensures e == InactiveErr(View())
    {
      if closeErr.None? {
        return ClosedPipe;
      }
      return closeErr.value;
    }

    method RemovePending(key: string) returns (c: Option<nat>)
      modifies this`pending
      ensures c == if key in old(pending) then Some(old(pending)[key]) else None
      ensures pending == old(pending) - {key}
    {
      c := if key in pending then Some(pending[key]) else None;
      pending := pending - {key};
    }

    method CheckActive() returns (c: nat)
      modifies this`calls
      ensures c == old(|calls|) && View() == Step(old(View()), Admit)
    {
      c := |calls|;
      if done {
        var e := InactiveError();
        calls := calls + [Call(Ended(Inactive(e)), 0, "", FRESH)];
      } else {
        calls := calls + [Call(Admitted, 0, "", FRESH)];
      }
    }

    method DrawID(c: nat)
      requires InPhase(View(), c, Admitted)
      modifies this`calls, this`nextID, this`issued
      ensures View() == Step(old(View()), Reserve(c))
    {
      nextID := (nextID + 1) % TWO_64;
      issued := issued + 1;
      calls := calls[c := calls[c].(phase := Reserved, ticket := issued, key := Decimal(nextID))];
    }

    method AddPending(c: nat)
      requires InPhase(View(), c, Reserved)
      modifies this`calls, this`pending
      ensures View() == Step(old(View()), Register(c))
    {
      pending := pending[calls[c].key := c];
      calls := calls[c := calls[c].(phase := Registered)];
    }

    method Move(c: nat, a: Action, phase: Phase)
      requires Enabled(View(), a) && c < |calls| && Apply(View(), a) == SetPhase(View(), c, phase)
      modifies this`calls
      ensures View() == Step(old(View()), a)
    {
      calls := calls[c := calls[c].(phase := phase)];
    }

    /** The parameters could not be encoded. */
    method AbandonCall(c: nat)
      requires InPhase(View(), c, Admitted)
      modifies this`calls
      ensures View() == Step(old(View()), Abandon(c))
    {
      Move(c, Abandon(c), Ended(GaveUp));
    }

    /** `done` was seen closed. */
    method LeaveInactive(c: nat)
      requires Enabled(View(), SeeDone(c))
      modifies this`calls
      ensures View() == Step(old(View()), SeeDone(c)) && c < |calls| && calls[c].phase.Ended?
    {
      var e := InactiveError();
      Move(c, SeeDone(c), Ended(Inactive(e)));
    }

    method LeavePending(c: nat)
      requires InPhase(View(), c, Leaving)
      modifies this`calls, this`pending
      ensures View() == Step(old(View()), Leave(c)) && c < |calls| && calls[c].key == old(calls)[c].key
    {
      var removed := RemovePending(calls[c].key);
      calls := calls[c := calls[c].(phase := Ended(GaveUp))];
    }

    method ReceiveResponse(c: nat)
      requires Enabled(View(), Receive(c))
      modifies this`calls
      ensures View() == Step(old(View()), Receive(c)) && c < |calls| && calls[c].phase.Ended?
    {
      var ch := calls[c].ch;
      if ch.buf != [] {
        calls := calls[c := calls[c].(ch := ch.(buf := ch.buf[1..]), phase := Ended(Got(ch.buf[0])))];
      } else {
        var e := InactiveError();
        calls := calls[c := calls[c].(phase := Ended(Inactive(e)))];
      }
    }

    method CloseChannel(c: nat)
      requires c < |calls|
      modifies this`calls, this`panicked
      ensures View() == CloseChan(old(View()), c)
    {
      if calls[c].ch.closed {
        panicked := true;
      } else {
        calls := calls[c := calls[c].(ch := calls[c].ch.(closed := true))];
      }
    }

    method SendResponse(c: nat, msg: Response)
      requires c < |calls|
      modifies this`calls, this`panicked, this`dropped
      ensures View() == TrySend(old(View()), c, msg)
    {
      var ch := calls[c].ch;
      if ch.closed {
        panicked := true;
      } else if ch.buf == [] {
        calls := calls[c := calls[c].(ch := ch.(buf := [msg]))];
      } else {
        dropped := true;
      }
    }

    method SetCloseErr(c: Option<Err>)
      modifies this`closeErr
      ensures old(closeErr).Some? ==> closeErr == old(closeErr)
      ensures old(closeErr).None? ==>
        closeErr == if c.None? || (c.value.Fault? && c.value.wrapsEof) then Some(ClosedPipe) else c
    {
      var e := match c
        case None => ClosedPipe
        case Some(x) => if x.Fault? && x.wrapsEof then ClosedPipe else x;
      if closeErr.None? {
        closeErr := Some(e);
      }
    }

    // ---------- the source's functions ----------

    /**
     A call until it is written, or until the first thing that stops it: an empty method name, an inactive
     connection, parameters that cannot be encoded. The request carries the id the call is registered under.
     */
    method BeginCall(name: string, params: Option<string>, writes: bool) returns (c: nat, ghost script: seq<Action>)
      modifies this
      ensures c == old(|calls|) && View() == Run(old(View()), script)
      ensures script == (
        if name == "" then []
        else if old(done) then [Admit]
        else if params.None? then [Admit, Abandon(c)]
        else if writes then [Admit, Reserve(c), Register(c), Write(c, true)]
        else [Admit, Reserve(c), Register(c), Write(c, false), Leave(c)])
      ensures if name == "" || old(done) || params.None? then handed == old(handed)
        else c < |calls| && handed == old(handed) + [Request(calls[c].key, name, params.value)]
    {
      c, script := |calls|, [];
      if name == "" {
        return;
      }
      hide Run, Step, Apply, Enabled;
      ghost var s := View();
      c := CheckActive();
      script := Extend(s, [], Admit);
      if done {
        return;
      }
      StepAdmit(s);
      if params.None? {
        AbandonCall(c);
        script := Extend(s, script, Abandon(c));
        return;
      }
      ghost var rest := SubmitCall(c, name, params.value, writes);
      RunAppend(s, script, rest);
      script := script + rest;
    }

    /** An id, the entry in the map, and the write; a failed write takes the entry out again. */
    method SubmitCall(c: nat, name: string, params: string, writes: bool) returns (ghost script: seq<Action>)
      requires InPhase(View(), c, Admitted)
      modifies this`calls, this`nextID, this`issued, this`pending, this`handed
      ensures View() == Run(old(View()), script)
      ensures script == (
        if writes then [Reserve(c), Register(c), Write(c, true)]
        else [Reserve(c), Register(c), Write(c, false), Leave(c)])
      ensures c < |calls| && handed == old(handed) + [Request(calls[c].key, name, params)]
    {
      hide Run, Step;
      ghost var s := View();
      RegisterCall(c);
      script := Extend(s, Extend(s, [], Reserve(c)), Register(c));
      WriteCall(c, Request(calls[c].key, name, params), writes);
      script := Extend(s, script, Write(c, writes));
      if !writes {
        LeavePending(c);
        script := Extend(s, script, Leave(c));
      }
    }

    method WriteCall(c: nat, request: Request, writes: bool)
      requires InPhase(View(), c, Registered)
      modifies this`calls, this`handed
      ensures View() == Step(old(View()), Write(c, writes)) && InPhase(View(), c, if writes then Waiting else Leaving)
      ensures calls[c].key == old(calls)[c].key && handed == old(handed) + [request]
    {
      handed := handed + [request];
      Move(c, Write(c, writes), if writes then Waiting else Leaving);
    }

    method RegisterCall(c: nat)
      requires InPhase(View(), c, Admitted)
      modifies this`calls, this`nextID, this`issued, this`pending
      ensures View() == Step(Step(old(View()), Reserve(c)), Register(c))
      ensures InPhase(View(), c, Registered)
    {
      StepStarts(View(), c);
      hide Step;
      DrawID(c);
      AddPending(c);
    }

    /** The select of a waiting call: whichever of the ready branches, the context being ready at any time. */
    method Wait(c: nat, cancelled: bool) returns (ghost script: seq<Action>)
      requires InPhase(View(), c, Waiting)
      requires cancelled || Enabled(View(), SeeDone(c)) || Enabled(View(), Receive(c))
      modifies this
      ensures View() == Run(old(View()), script) && c < |calls| && calls[c].phase.Ended? && handed == old(handed)
      ensures script == [Cancel(c), Leave(c)] || script == [SeeDone(c)] || script == [Receive(c)]
    {
      ghost var s := View();
      WaitBranches(s, c);
      hide Run, Step, Apply, Enabled, InPhase;
      if {
        case cancelled =>
          GiveUpWaiting(c);
          script := [Cancel(c), Leave(c)];
          RunTwo(s, Cancel(c), Leave(c));
        case done =>
          LeaveInactive(c);
          script := [SeeDone(c)];
          RunOne(s, SeeDone(c));
        case calls[c].ch.buf != [] || calls[c].ch.closed =>
          ReceiveResponse(c);
          script := [Receive(c)];
          RunOne(s, Receive(c));
      }
    }

    method GiveUpWaiting(c: nat)
      requires InPhase(View(), c, Waiting)
      modifies this`calls, this`pending
      ensures View() == Step(Step(old(View()), Cancel(c)), Leave(c)) && c < |calls| && calls[c].phase.Ended?
    {
      Move(c, Cancel(c), Leaving);
      LeavePending(c);
    }

    /** A response is taken from the map, sent and its channel closed; one without an entry is ignored. */
    method DispatchResponse(msg: Response) returns (ghost script: seq<Action>)
      requires reader == Idle && Inv(View())
      modifies this
      ensures View() == Run(old(View()), script) && reader == Idle && handed == old(handed)
      ensures script == if TrimSpace(msg.id) in old(pending) then [Take(msg), Send, CloseTaken] else [Take(msg)]
    {
      hide Run, TrimSpace, Step, Inv;
      ghost var s := View();
      var found := TakeEntry(msg);
      script := Extend(s, [], Take(msg));
      if found.Some? {
        SendTaken(found.value, msg);
        script := Extend(s, script, Send);
        CloseTakenChannel(found.value);
        script := Extend(s, script, CloseTaken);
      }
    }

    /** Whoever removes an entry owns its channel from then on. */
    method TakeEntry(msg: Response) returns (c: Option<nat>)
      requires reader == Idle && Inv(View())
      modifies this`pending, this`reader, this`accepted
      ensures View() == Step(old(View()), Take(msg))
      ensures
        var key := TrimSpace(msg.id);
        c == if key in old(pending) then Some(old(pending)[key]) else None
      ensures if c.Some? then c.value < |calls| && reader == Took(c.value, msg) else reader == Idle
    {
      hide TrimSpace, Inv, SetPhase, SetChan, TrySend, CloseChan, Decimal;
      if IdKey(msg) in pending {
        EntryInRange(View(), IdKey(msg));
      }
      c := RemovePending(IdKey(msg));
      if c.Some? {
        reader, accepted := Took(c.value, msg), accepted + [c.value];
      }
      assert IdKey(msg) !in old(pending) ==> pending == old(pending);
    }

    method SendTaken(c: nat, msg: Response)
      requires reader == Took(c, msg) && c < |calls|
      modifies this`calls, this`panicked, this`dropped, this`reader
      ensures View() == Step(old(View()), Send) && reader == Sent(c) && c < |calls|
    {
      SendResponse(c, msg);
      reader := Sent(c);
    }

    method CloseTakenChannel(c: nat)
      requires reader == Sent(c) && c < |calls|
      modifies this`calls, this`panicked, this`reader
      ensures View() == Step(old(View()), CloseTaken) && reader == Idle
    {
      CloseChannel(c);
      reader := Idle;
    }

    /** Only the first shutdown runs; it closes the entries of the map it took in any order. */
    method Shutdown(c: Option<Err>) returns (ghost order: seq<string>)
      requires Inv(View())
      modifies this
      ensures handed == old(handed) && (old(shutdown) != NotBegun ==> View() == old(View()))
      ensures old(shutdown) == NotBegun ==>
        && View() == Run(old(View()), [Begin(c), Swap] + Closes(order) + [CloseDone])
        && done && pending == map[]
        && Visited(order, map[], old(pending))
    {
      hide Run, Inv, Step, Apply, Enabled;
      order := [];
      if shutdown != NotBegun {
        return;
      }
      ghost var s := View();
      StartShutdown(c);
      TakePending();
      ghost var script := Extend(s, Extend(s, [], Begin(c)), Swap);
      assert script == [Begin(c), Swap];
      order := CloseEntries();
      RunAppend(s, [Begin(c), Swap], Closes(order));
      Finish();
      RunSnoc(s, [Begin(c), Swap] + Closes(order), CloseDone);
    }

    /** The loop over the map that was taken: each turn closes any entry not closed yet. */
    method CloseEntries() returns (ghost order: seq<string>)
      requires shutdown.Swapped? && Inv(View())
      modifies this`calls, this`panicked, this`shutdown
      ensures View() == Run(old(View()), Closes(order)) && Inv(View()) && shutdown == Swapped(map[])
      ensures Visited(order, map[], old(shutdown).captured)
    {
      hide Inv, Step, Apply, Enabled, CloseChan;
      ghost var s := View();
      order := [];
      assert Run(s, Closes([])) == s;
      hide Run;
      var captured := shutdown.captured;
      assert Visited(order, captured, captured);
      hide Visited;
      while captured != map[]
        invariant shutdown == Swapped(captured) && Inv(View()) && View() == Run(s, Closes(order))
        invariant Visited(order, captured, old(shutdown).captured)
        decreases |captured|
      {
        assert captured.Keys != {};
        var k :| k in captured.Keys;
        FewerEntries(captured, k);
        VisitOne(order, captured, old(shutdown).captured, k);
        ClosesSnoc(order, k);
        RunSnoc(s, Closes(order), CloseOne(k));
        CapturedInRange(View(), k);
        StepKeepsInv(View(), CloseOne(k));
        CloseCaptured(captured, k);
        captured := captured - {k};
        order := order + [k];
      }
    }

    method StartShutdown(c: Option<Err>)
      requires shutdown == NotBegun && Inv(View())
      modifies this`closeErr, this`shutdown, this`cause
      ensures View() == Step(old(View()), Begin(c)) && Inv(View()) && shutdown == CauseSet && !done
    {
      StepKeepsInv(View(), Begin(c));
      NotDoneBeforeShutdown(View());
      hide Inv;
      SetCloseErr(c);
      cause, shutdown := Some(c), CauseSet;
    }

    /** The map is swapped for an empty one under the lock. */
    method TakePending()
      requires shutdown == CauseSet && Inv(View())
      modifies this`pending, this`shutdown
      ensures View() == Step(old(View()), Swap) && Inv(View())
      ensures pending == map[] && shutdown == Swapped(old(pending))
    {
      StepKeepsInv(View(), Swap);
      hide Inv;
      shutdown := Swapped(pending);
      pending := map[];
    }

    method CloseCaptured(captured: map<string, nat>, k: string)
      requires shutdown == Swapped(captured) && k in captured && captured[k] < |calls|
      modifies this`calls, this`panicked, this`shutdown
      ensures View() == Step(old(View()), CloseOne(k)) && shutdown == Swapped(captured - {k})
    {
      hide CloseChan;
      CloseChannel(captured[k]);
      shutdown := Swapped(captured - {k});
    }

    method Finish()
      requires shutdown == Swapped(map[]) && !done
      modifies this`done, this`shutdown
      ensures View() == Step(old(View()), CloseDone) && done && shutdown == Over
    {
      done, shutdown := true, Over;
    }
  }

  /** The keys of a map, each visited once in this order but for those left. */
  ghost predicate Visited(order: seq<string>, left: map<string, nat>, all: map<string, nat>) {
    && (forall k :: k in all <==> k in left || k in order)
    && (forall i :: 0 <= i < |order| ==> order[i] !in left)
    && (forall i, j :: 0 <= i < j < |order| ==> order[i] != order[j])
  }

  lemma VisitOne(order: seq<string>, left: map<string, nat>, all: map<string, nat>, k: string)
    requires Visited(order, left, all) && k in left
    ensures Visited(order + [k], left - {k}, all)
  {
  }

  // ---------- scripts ----------

  /** One more step at the end of a script that leads from `s`. */
  ghost function Extend(s: State, script: seq<Action>, a: Action): (longer: seq<Action>)
    ensures longer == script + [a]
    ensures script == [] ==> Run(s, script) == s
    ensures Run(s, longer) == Step(Run(s, script), a)
  {
    RunSnoc(s, script, a);
    script + [a]
  }

  lemma RunOne(s: State, a: Action)
    ensures Run(s, [a]) == Step(s, a)
  {
    hide Step;
    assert [a][..0] == [];
  }

  lemma RunTwo(s: State, a: Action, b: Action)
    ensures Run(s, [a, b]) == Step(Step(s, a), b)
  {
    hide Step;
    RunOne(s, a);
    assert [a, b][..1] == [a];
  }

  function Closes(order: seq<string>): (script: seq<Action>)
    ensures |script| == |order|
  {
    seq(|order|, i requires 0 <= i < |order| => CloseOne(order[i]))
  }

  lemma ClosesSnoc(order: seq<string>, k: string)
    ensures Closes(order + [k]) == Closes(order) + [CloseOne(k)]
  {
  }

  lemma WaitBranches(s: State, c: nat)
    requires InPhase(s, c, Waiting)
    ensures c < |s.calls|
    ensures Enabled(s, SeeDone(c)) <==> s.done
    ensures Enabled(s, Receive(c)) <==> s.calls[c].ch.buf != [] || s.calls[c].ch.closed
  {
  }

  lemma StepAdmit(s: State)
    requires !s.done
    ensures InPhase(Step(s, Admit), |s.calls|, Admitted)
  {
  }

  lemma StepStarts(s: State, c: nat)
    requires InPhase(s, c, Admitted)
    ensures InPhase(Step(s, Reserve(c)), c, Reserved)
    ensures InPhase(Step(Step(s, Reserve(c)), Register(c)), c, Registered)
  {
    hide Decimal;
  }

  lemma EntryInRange(s: State, k: string)
    requires Inv(s) && k in s.pending
    ensures s.pending[k] < |s.calls|
  {
  }

  lemma CapturedInRange(s: State, k: string)
    requires Inv(s) && s.shutdown.Swapped? && k in s.shutdown.captured
    ensures s.shutdown.captured[k] < |s.calls|
  {
  }

  lemma NotDoneBeforeShutdown(s: State)
    requires Inv(s) && s.shutdown.NotBegun?
    ensures !s.done && s.closeErr.None?
  {
  }
}
