/**
 The top-level query: a loop that forwards one turn's messages and errors to the caller's
 channels, selecting among whichever of the context, the errors and the messages is ready.
 */
module Query {
  import opened Text

  datatype Failure = Cancelled | Failed(detail: string)

  /** The first error of a turn's error stream that is not nil. */
  ghost predicate IsFirstError(errs: seq<Option<Failure>>, e: Failure) {
    exists k :: 0 <= k < |errs| && errs[k] == Some(e) && forall j :: 0 <= j < k ==> errs[j] == None
  }

  /** A turn's two streams, each closed at its end; a nil error is `None`. */
  datatype TurnStreams = TurnStreams(messages: seq<string>, errs: seq<Option<Failure>>)

  /**
   `start` is the turn; without one, connecting or starting it failed with `startError`. Which branch
   a select takes among those that are ready is arbitrary, and so is the moment the context ends,
   if `ends` lets it end at all.
   */
  method Forward(start: Option<TurnStreams>, startError: Failure, ends: bool)
    returns (outMessages: seq<string>, outErrs: seq<Failure>)
    ensures |outErrs| <= 1
    ensures start.None? ==> outMessages == [] && outErrs == [startError]
    ensures start.Some? ==> outMessages <= start.value.messages
    ensures start.Some? && outErrs == [] ==>
      outMessages == start.value.messages && forall k :: 0 <= k < |start.value.errs| ==> start.value.errs[k] == None
    ensures start.Some? && outErrs != [] ==>
      (ends && outErrs[0] == Cancelled) || IsFirstError(start.value.errs, outErrs[0])
  {
    outMessages, outErrs := [], [];
    if start.None? {
      return [], [startError];
    }
    var turn := start.value;
    // How far each channel has been read; an open flag stands for a channel variable that is not nil.
    var m, e := 0, 0;
    var messagesOpen, errsOpen := true, true;
    while messagesOpen || errsOpen
      invariant 0 <= m <= |turn.messages| && 0 <= e <= |turn.errs|
      invariant outMessages == turn.messages[..m] && outErrs == []
      invariant forall k :: 0 <= k < e ==> turn.errs[k] == None
      invariant !messagesOpen ==> m == |turn.messages|
      invariant !errsOpen ==> e == |turn.errs|
      decreases |turn.messages| - m + |turn.errs| - e, (if messagesOpen then 1 else 0) + (if errsOpen then 1 else 0)
    {
      if {
        case ends =>
          outErrs := [Cancelled];
          return;
        case errsOpen =>
          if e == |turn.errs| {
            errsOpen := false;
            continue;
          }
          if turn.errs[e].Some? {
            outErrs := [turn.errs[e].value];
            return;
          }
          e := e + 1;
        case messagesOpen =>
          if m == |turn.messages| {
            messagesOpen := false;
            continue;
          }
          if {
            case ends =>
              outErrs := [Cancelled];
              return;
            case true =>
              outMessages := outMessages + [turn.messages[m]];
              m := m + 1;
          }
      }
    }
  }
}
