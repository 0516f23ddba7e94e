/**
 The two signals that end a turn, its terminal event and its prompt's result, can arrive in
 either order: what the turn emits then, handlers being taken one at a time.
 */
module Confluence {
  import opened Text
  import opened Turn

  function Events(events: seq<Event>): (inputs: seq<Input>)
    ensures |inputs| == |events|
  {
    seq(|events|, i requires 0 <= i < |events| => FromEvent(events[i]))
  }

  function Mapped(events: seq<Event>): seq<Message> {
    if events == [] then [] else MessageOf(events[0]) + Mapped(events[1..])
  }

  function NotedAll(f: Fields, events: seq<Event>): Fields
    decreases |events|
  {
    if events == [] then f else NotedAll(Noted(f, events[0]), events[1..])
  }

  /** The last turn id an event carries, or the empty string. */
  function LastTurnID(events: seq<Event>): string {
    if events == [] then ""
    else if LastTurnID(events[1..]) != "" then LastTurnID(events[1..])
    else events[0].turnID
  }

  predicate NoneTerminal(events: seq<Event>) {
    forall i :: 0 <= i < |events| ==> !IsTerminal(events[i])
  }

  /** The only event that ends the turn is the last one. */
  predicate EndsLast(events: seq<Event>) {
    events != [] && IsTerminal(events[|events| - 1]) && NoneTerminal(events[..|events| - 1])
  }

  /** The prompt result inserted before the event at a position, or after all of them. */
  function Inserted(events: seq<Event>, r: PromptResult, at: nat): seq<Input>
    requires at <= |events|
  {
    Events(events[..at]) + [FromPrompt(r)] + Events(events[at..])
  }

  lemma {:induction false} PlayAppend(chat: Chat, a: seq<Input>, b: seq<Input>)
    ensures Play(chat, a + b) == Play(Play(chat, a), b)
    decreases |a|
  {
    hide Feed;
    if a == [] {
      assert a + b == b;
    } else {
      assert (a + b)[1..] == a[1..] + b;
      PlayAppend(Feed(chat, a[0]), a[1..], b);
    }
  }

  lemma FeedOpenEvent(chat: Chat, ev: Event)
    requires !chat.fields.closed && !IsTerminal(ev)
    ensures Feed(chat, FromEvent(ev)) == Chat(Noted(chat.fields, ev), chat.sent + MessageOf(ev))
    ensures !Noted(chat.fields, ev).closed
  {
    hide MessageOf, IsTerminal;
  }

  /** Events that do not end the turn are mapped in order and only update the two ids. */
  lemma {:induction false} PlayOpenEvents(chat: Chat, events: seq<Event>)
    requires !chat.fields.closed
    requires NoneTerminal(events)
    ensures Play(chat, Events(events)) == Chat(NotedAll(chat.fields, events), chat.sent + Mapped(events))
    decreases |events|
  {
    hide MessageOf, IsTerminal, Feed, Noted;
    if events == [] {
      assert chat.sent + [] == chat.sent;
    } else {
      assert Events(events)[1..] == Events(events[1..]);
      FeedOpenEvent(chat, events[0]);
      PlayOpenEvents(Feed(chat, FromEvent(events[0])), events[1..]);
      assert chat.sent + MessageOf(events[0]) + Mapped(events[1..]) == chat.sent + Mapped(events);
    }
  }

  lemma {:induction false} NotedAllFields(f: Fields, events: seq<Event>)
    ensures NotedAll(f, events) == f.(
      sessionID := NotedAll(f, events).sessionID,
      turnID := if LastTurnID(events) != "" then LastTurnID(events) else f.turnID)
    decreases |events|
  {
    if events != [] {
      NotedAllFields(Noted(f, events[0]), events[1..]);
    }
  }

  /** Only the two ids of the fields matter to what noting events does to them. */
  lemma {:induction false} NotedAllSession(f: Fields, g: Fields, events: seq<Event>)
    requires f.sessionID == g.sessionID
    ensures NotedAll(f, events).sessionID == NotedAll(g, events).sessionID
    decreases |events|
  {
    if events != [] {
      NotedAllSession(Noted(f, events[0]), Noted(g, events[0]), events[1..]);
    }
  }

  lemma {:induction false} NotedAllAppend(f: Fields, a: seq<Event>, b: seq<Event>)
    ensures NotedAll(f, a + b) == NotedAll(NotedAll(f, a), b)
    decreases |a|
  {
    if a == [] {
      assert a + b == b;
    } else {
      assert (a + b)[1..] == a[1..] + b;
      NotedAllAppend(Noted(f, a[0]), a[1..], b);
    }
  }

  lemma {:induction false} MappedAppend(a: seq<Event>, b: seq<Event>)
    ensures Mapped(a + b) == Mapped(a) + Mapped(b)
  {
    if a == [] {
      assert a + b == b;
    } else {
      assert (a + b)[1..] == a[1..] + b;
      MappedAppend(a[1..], b);
    }
  }

  /** The result a turn ends with, when only the order of its prompt result and events is open. */
  function FinalResult(sessionID: string, turnID: string, events: seq<Event>): Message
    requires events != []
  {
    var err := TrimSpace(events[|events| - 1].error);
    Result(NotedAll(NewFields(sessionID), events).sessionID, turnID, "", err != "", err)
  }

  /** The turn id the result carries when the prompt result comes before the events from `at` on. */
  function FinalTurnID(events: seq<Event>, r: PromptResult, at: nat): string
    requires at <= |events|
  {
    if LastTurnID(events[at..]) != "" then LastTurnID(events[at..])
    else if TrimSpace(r.turnID) != "" then TrimSpace(r.turnID)
    else LastTurnID(events)
  }

  lemma {:induction false} LastTurnIDAppend(a: seq<Event>, b: seq<Event>)
    ensures LastTurnID(a + b) == if LastTurnID(b) != "" then LastTurnID(b) else LastTurnID(a)
  {
    if a == [] {
      assert a + b == b;
    } else {
      assert (a + b)[1..] == a[1..] + b;
      LastTurnIDAppend(a[1..], b);
    }
  }

  function WithError(f: Fields, ev: Event): Fields {
    f.(terminal := true, turnErr := if TrimSpace(ev.error) != "" then TrimSpace(ev.error) else f.turnErr)
  }

  /** Events of which the last ends the turn close the handle if the prompt result came before. */
  lemma PlayToEnd(chat: Chat, open: seq<Event>, last: Event)
    requires IsTerminal(last) && !chat.fields.closed
    requires NoneTerminal(open)
    ensures
      var f := WithError(NotedAll(chat.fields, open + [last]), last);
      var played := Play(chat, Events(open + [last]));
      if chat.fields.promptAcked then played.sent == chat.sent + Mapped(open + [last]) + [ResultOf(f)]
      else played == Chat(f, chat.sent + Mapped(open + [last]))
  {
    hide *;
    PlayOpenEvents(chat, open);
    NotedAllKeeps(chat.fields, open);
    NotedAllSnoc(chat.fields, open, last);
    MappedSnoc(chat.sent, open, last);
    PlaySnoc(chat, open, last);
    PlayLast(Chat(NotedAll(chat.fields, open), chat.sent + Mapped(open)), last);
  }

  lemma NotedAllKeeps(f: Fields, events: seq<Event>)
    ensures
      var g := NotedAll(f, events);
      && g.promptAcked == f.promptAcked && g.terminal == f.terminal && g.closed == f.closed
      && g.stopReason == f.stopReason && g.turnErr == f.turnErr
      && g.turnID == if LastTurnID(events) != "" then LastTurnID(events) else f.turnID
  {
    NotedAllFields(f, events);
  }

  lemma NotedAllSnoc(f: Fields, open: seq<Event>, last: Event)
    ensures NotedAll(f, open + [last]) == Noted(NotedAll(f, open), last)
  {
    NotedAllAppend(f, open, [last]);
    assert NotedAll(NotedAll(f, open), [last]) == NotedAll(Noted(NotedAll(f, open), last), [last][1..]);
  }

  lemma MappedSnoc(sent: seq<Message>, open: seq<Event>, last: Event)
    ensures sent + Mapped(open + [last]) == sent + Mapped(open) + MessageOf(last)
  {
    hide MessageOf;
    MappedAppend(open, [last]);
    assert Mapped([last]) == MessageOf(last) + Mapped([last][1..]) == MessageOf(last);
  }

  lemma PlaySnoc(chat: Chat, open: seq<Event>, last: Event)
    ensures Play(chat, Events(open + [last])) == Play(Play(chat, Events(open)), Events([last]))
  {
    hide Feed;
    assert Events(open + [last]) == Events(open) + Events([last]);
    PlayAppend(chat, Events(open), Events([last]));
  }

  lemma PlayLast(chat: Chat, last: Event)
    requires IsTerminal(last) && !chat.fields.closed
    ensures
      var f := WithError(Noted(chat.fields, last), last);
      var played := Play(chat, Events([last]));
      if chat.fields.promptAcked then played.sent == chat.sent + MessageOf(last) + [ResultOf(f)]
      else played == Chat(f, chat.sent + MessageOf(last))
  {
    hide MessageOf, TrimSpace, IsTerminal, BlockOf;
    assert Events([last]) == [FromEvent(last)];
    assert Play(chat, [FromEvent(last)]) == Play(Feed(chat, FromEvent(last)), [FromEvent(last)][1..]);
    assert chat.sent + (MessageOf(last) + []) == chat.sent + MessageOf(last);
  }

  /** A prompt result without a stop reason, before the end of the turn, only records itself. */
  lemma FeedAck(chat: Chat, r: PromptResult)
    requires !chat.fields.closed && !chat.fields.terminal && TrimSpace(r.stopReason) == ""
    ensures Feed(chat, FromPrompt(r)) == Chat(Acked(chat.fields, r), chat.sent)
  {
    assert chat.sent + [] == chat.sent;
  }

  function Acked(f: Fields, r: PromptResult): Fields {
    f.(promptAcked := true, turnID := if TrimSpace(r.turnID) != "" then TrimSpace(r.turnID) else f.turnID)
  }

  lemma ResultOfAcked(sessionID: string, events: seq<Event>, r: PromptResult, at: nat)
    requires EndsLast(events) && at <= |events|
    ensures
      var f := Acked(NotedAll(NewFields(sessionID), events[..at]), r);
      var g := WithError(NotedAll(f, events[at..]), events[|events| - 1]);
      ResultOf(g) == FinalResult(sessionID, FinalTurnID(events, r, at), events)
  {
    var last := events[|events| - 1];
    var f1 := NotedAll(NewFields(sessionID), events[..at]);
    var f2 := Acked(f1, r);
    TrimTwice(last.error);
    hide TrimSpace, NotedAll, LastTurnID, IsTerminal, FinalTurnID, EndsLast;
    NotedAllKeeps(NewFields(sessionID), events[..at]);
    NotedAllKeeps(f2, events[at..]);
    FinalSession(sessionID, f2, events, at);
    TurnIDOfAcked(sessionID, events, r, at);
  }

  lemma FinalSession(sessionID: string, f: Fields, events: seq<Event>, at: nat)
    requires at <= |events| && f.sessionID == NotedAll(NewFields(sessionID), events[..at]).sessionID
    ensures NotedAll(f, events[at..]).sessionID == NotedAll(NewFields(sessionID), events).sessionID
  {
    hide NotedAll;
    assert events[..at] + events[at..] == events;
    NotedAllAppend(NewFields(sessionID), events[..at], events[at..]);
    NotedAllSession(f, NotedAll(NewFields(sessionID), events[..at]), events[at..]);
  }

  lemma TurnIDOfAcked(sessionID: string, events: seq<Event>, r: PromptResult, at: nat)
    requires at <= |events|
    ensures
      var f := Acked(NotedAll(NewFields(sessionID), events[..at]), r);
      NotedAll(f, events[at..]).turnID == FinalTurnID(events, r, at)
  {
    hide NotedAll, LastTurnID, TrimSpace;
    NotedAllKeeps(NewFields(sessionID), events[..at]);
    NotedAllKeeps(Acked(NotedAll(NewFields(sessionID), events[..at]), r), events[at..]);
    assert events[..at] + events[at..] == events;
    LastTurnIDAppend(events[..at], events[at..]);
  }

  lemma TrimTwice(s: string)
    ensures TrimSpace(TrimSpace(s)) == TrimSpace(s) && TrimSpace("") == ""
  {
  }

  /**
   Wherever the prompt result falls among the events, the turn's messages are the mapped events
   in order and then one result; only the result's turn id can depend on the place.
   */
  lemma PlayInserted(sessionID: string, events: seq<Event>, r: PromptResult, at: nat)
    requires EndsLast(events) && TrimSpace(r.stopReason) == "" && at <= |events|
    ensures Play(Chat(NewFields(sessionID), []), Inserted(events, r, at)).sent
         == Mapped(events) + [FinalResult(sessionID, FinalTurnID(events, r, at), events)]
  {
    assert events[..|events|] == events && events[|events|..] == [];
    hide MessageOf, TrimSpace, ResultOf, FinalResult, FinalTurnID, WithError, Play, Mapped, EndsLast, Acked, Inserted;
    ResultOfAcked(sessionID, events, r, at);
    if at < |events| {
      PlaySplit(sessionID, events, r, at);
    } else {
      PlayAckLast(sessionID, events, r);
    }
  }

  lemma PlaySplit(sessionID: string, events: seq<Event>, r: PromptResult, at: nat)
    requires EndsLast(events) && TrimSpace(r.stopReason) == "" && at < |events|
    ensures
      var f := Acked(NotedAll(NewFields(sessionID), events[..at]), r);
      Play(Chat(NewFields(sessionID), []), Inserted(events, r, at)).sent
        == Mapped(events) + [ResultOf(WithError(NotedAll(f, events[at..]), events[|events| - 1]))]
  {
    hide MessageOf, TrimSpace, IsTerminal, ResultOf, WithError, Play, Mapped, EndsLast, Acked, NotedAll;
    hide NoneTerminal, Events, NewFields;
    EndsLastParts(events, at);
    SplitParts(events, at);
    PlayAckFirst(sessionID, events[..at], events[at..|events| - 1], events[|events| - 1], r);
    MappedAppend(events[..at], events[at..]);
  }

  lemma SplitParts<T>(s: seq<T>, at: nat)
    requires at < |s|
    ensures s[at..] == s[at..|s| - 1] + [s[|s| - 1]] && s[..at] + s[at..] == s
  {
  }

  lemma PlayAckFirst(sessionID: string, before: seq<Event>, open: seq<Event>, last: Event, r: PromptResult)
    requires NoneTerminal(before)
    requires NoneTerminal(open)
    requires IsTerminal(last) && TrimSpace(r.stopReason) == ""
    ensures
      var after := open + [last];
      var f := Acked(NotedAll(NewFields(sessionID), before), r);
      Play(Chat(NewFields(sessionID), []), Events(before) + [FromPrompt(r)] + Events(after)).sent
        == Mapped(before) + Mapped(after) + [ResultOf(WithError(NotedAll(f, after), last))]
  {
    hide Play, Feed, NotedAll, Mapped, Acked, WithError, ResultOf, TrimSpace, IsTerminal, Events;
    var start := Chat(NewFields(sessionID), []);
    assert [] + Mapped(before) == Mapped(before);
    var mid := Chat(NotedAll(start.fields, before), Mapped(before));
    NotedAllKeeps(start.fields, before);
    PlayOpenEvents(start, before);
    FeedAck(mid, r);
    PlayThree(start, Events(before), FromPrompt(r), Events(open + [last]));
    AckedKeeps(mid.fields, r);
    PlayToEnd(Chat(Acked(mid.fields, r), mid.sent), open, last);
  }

  lemma EndsLastParts(events: seq<Event>, at: nat)
    requires EndsLast(events) && at < |events|
    ensures IsTerminal(events[|events| - 1])
    ensures NoneTerminal(events[..at]) && NoneTerminal(events[at..|events| - 1])
  {
    hide IsTerminal;
    var init := events[..|events| - 1];
    assert events[..at] == init[..at] && events[at..|events| - 1] == init[at..];
  }

  lemma AckedKeeps(f: Fields, r: PromptResult)
    ensures Acked(f, r).promptAcked && Acked(f, r).closed == f.closed
  {
  }

  lemma PlayThree(chat: Chat, a: seq<Input>, i: Input, b: seq<Input>)
    ensures Play(chat, a + [i] + b) == Play(Feed(Play(chat, a), i), b)
  {
    hide Feed;
    PlayAppend(chat, a + [i], b);
    PlayAppend(chat, a, [i]);
    assert Play(Play(chat, a), [i]) == Play(Feed(Play(chat, a), i), [i][1..]);
  }

  lemma PlayAllEvents(chat: Chat, events: seq<Event>)
    requires EndsLast(events) && !chat.fields.closed && !chat.fields.promptAcked
    ensures Play(chat, Events(events))
         == Chat(WithError(NotedAll(chat.fields, events), events[|events| - 1]), chat.sent + Mapped(events))
  {
    hide Play, Mapped, MessageOf, IsTerminal, NotedAll, WithError, Events;
    var open, last := events[..|events| - 1], events[|events| - 1];
    assert events == open + [last];
    PlayToEnd(chat, open, last);
  }

  lemma PlayAckLast(sessionID: string, events: seq<Event>, r: PromptResult)
    requires EndsLast(events) && TrimSpace(r.stopReason) == ""
    ensures
      var f := Acked(NotedAll(NewFields(sessionID), events), r);
      Play(Chat(NewFields(sessionID), []), Inserted(events, r, |events|)).sent
        == Mapped(events) + [ResultOf(WithError(f, events[|events| - 1]))]
  {
    var start := Chat(NewFields(sessionID), []);
    assert events[..|events|] == events && Events(events[|events|..]) == [];
    hide MessageOf, TrimSpace, IsTerminal, Play, Mapped, NotedAll, EndsLast, Events, Feed, ResultOf;
    PlayAllEvents(start, events);
    assert [] + Mapped(events) == Mapped(events);
    NotedAllKeeps(start.fields, events);
    var f := NotedAll(start.fields, events);
    FeedLateAck(f, events[|events| - 1], Mapped(events), r);
    PlayThree(start, Events(events), FromPrompt(r), []);
    PlayNothing(Feed(Chat(WithError(f, events[|events| - 1]), Mapped(events)), FromPrompt(r)));
  }

  lemma PlayNothing(chat: Chat)
    ensures Play(chat, []) == chat
  {
  }

  /** A prompt result after the terminal event closes the handle. */
  lemma FeedLateAck(f: Fields, last: Event, sent: seq<Message>, r: PromptResult)
    requires !f.closed && f.stopReason == "" && TrimSpace(r.stopReason) == ""
    ensures Feed(Chat(WithError(f, last), sent), FromPrompt(r)).sent
         == sent + [ResultOf(WithError(Acked(f, r), last))]
  {
    hide TrimSpace;
  }

  // ---------- a prompt result with a stop reason ----------

  lemma {:induction false} PlayClosed(chat: Chat, inputs: seq<Input>)
    requires chat.fields.closed
    ensures Play(chat, inputs) == chat
    decreases |inputs|
  {
    if inputs != [] {
      assert chat.sent + [] == chat.sent;
      PlayClosed(chat, inputs[1..]);
    }
  }

  function Stopped(f: Fields, r: PromptResult): Fields {
    Acked(f, r).(stopReason := TrimSpace(r.stopReason), terminal := true, closed := true)
  }

  /** A stop reason is both signals at once. */
  lemma FeedStop(chat: Chat, r: PromptResult)
    requires !chat.fields.closed && TrimSpace(r.stopReason) != ""
    ensures Feed(chat, FromPrompt(r)) == Chat(Stopped(chat.fields, r), chat.sent + [ResultOf(Stopped(chat.fields, r))])
  {
    hide TrimSpace;
  }

  /** The result of a turn that a stop reason ends after the events before `at`. */
  function StopResult(sessionID: string, events: seq<Event>, r: PromptResult, at: nat): Message
    requires at <= |events| && events != []
  {
    var before := events[..at];
    var err := if at == |events| then TrimSpace(events[|events| - 1].error) else "";
    Result(NotedAll(NewFields(sessionID), before).sessionID,
           if TrimSpace(r.turnID) != "" then TrimSpace(r.turnID) else LastTurnID(before),
           TrimSpace(r.stopReason), err != "", err)
  }

  function Played(sessionID: string, events: seq<Event>, r: PromptResult, at: nat): seq<Message>
    requires at <= |events|
  {
    Play(Chat(NewFields(sessionID), []), Inserted(events, r, at)).sent
  }

  /**
   A prompt result with a stop reason ends the turn where it falls: the messages are those of the events
   before it, in order, and one result; later events are dropped, and so is their error.
   */
  lemma StopReasonEndsTurn(sessionID: string, events: seq<Event>, r: PromptResult, at: nat)
    requires EndsLast(events) && TrimSpace(r.stopReason) != "" && at <= |events|
    ensures Played(sessionID, events, r, at) == Mapped(events[..at]) + [StopResult(sessionID, events, r, at)]
  {
    var start, before := Chat(NewFields(sessionID), []), events[..at];
    assert [] + Mapped(before) == Mapped(before);
    assert events[..|events|] == events;
    hide MessageOf, IsTerminal, Play, Feed, NotedAll, Mapped, TrimSpace, Events, EndsLast, WithError, ResultOf, Stopped;
    var f := NotedAll(start.fields, before);
    if at < |events| {
      EndsLastParts(events, at);
      PlayOpenEvents(start, before);
    } else {
      PlayAllEvents(start, events);
      f := WithError(f, events[|events| - 1]);
    }
    StoppedResult(sessionID, events, r, at);
    StopAfter(start, Chat(f, Mapped(before)), before, r, events[at..]);
  }

  lemma StopAfter(start: Chat, mid: Chat, before: seq<Event>, r: PromptResult, after: seq<Event>)
    requires Play(start, Events(before)) == mid && !mid.fields.closed && TrimSpace(r.stopReason) != ""
    ensures Play(start, Events(before) + [FromPrompt(r)] + Events(after)).sent
         == mid.sent + [ResultOf(Stopped(mid.fields, r))]
  {
    hide Play, Feed, ResultOf, TrimSpace, Events;
    PlayThree(start, Events(before), FromPrompt(r), Events(after));
    FeedStop(mid, r);
    PlayClosed(Feed(mid, FromPrompt(r)), Events(after));
  }

  lemma StoppedResult(sessionID: string, events: seq<Event>, r: PromptResult, at: nat)
    requires events != [] && at <= |events|
    ensures
      var noted := NotedAll(NewFields(sessionID), events[..at]);
      var f := if at == |events| then WithError(noted, events[|events| - 1]) else noted;
      ResultOf(Stopped(f, r)) == StopResult(sessionID, events, r, at) && !f.closed
  {
    TrimTwice(events[|events| - 1].error);
    hide NotedAll, LastTurnID, TrimSpace;
    NotedAllKeeps(NewFields(sessionID), events[..at]);
  }

  // ---------- where the prompt result may fall ----------

  /** The messages of the turn are the same wherever its prompt result falls. */
  ghost predicate PlaceIsIrrelevant(sessionID: string, events: seq<Event>, r: PromptResult) {
    forall i, j :: 0 <= i <= |events| && 0 <= j <= |events| ==>
      Played(sessionID, events, r, i) == Played(sessionID, events, r, j)
  }

  /** The turn id of the prompt result agrees with the events: it has none, they have none, or it is their last. */
  predicate TurnIDsAgree(events: seq<Event>, r: PromptResult) {
    TrimSpace(r.turnID) == "" || LastTurnID(events) == "" || LastTurnID(events) == TrimSpace(r.turnID)
  }

  /** The events say nothing that a result in front of them would miss. */
  predicate SilentEvents(sessionID: string, events: seq<Event>, r: PromptResult)
    requires events != []
  {
    && Mapped(events) == [] && TrimSpace(events[|events| - 1].error) == ""
    && (forall i :: 0 <= i < |events| ==> events[i].sessionID == "" || events[i].sessionID == sessionID)
    && (TrimSpace(r.turnID) != "" || forall i :: 0 <= i < |events| ==> events[i].turnID == "")
  }

  /**
   The two signals commute: the messages are the same wherever the prompt result falls exactly when its
   turn id agrees with the events or, if it has a stop reason, when the events are silent.
   */
  lemma AckCommutesIff(sessionID: string, events: seq<Event>, r: PromptResult)
    requires EndsLast(events)
    ensures PlaceIsIrrelevant(sessionID, events, r)
       <==> if TrimSpace(r.stopReason) == "" then TurnIDsAgree(events, r) else SilentEvents(sessionID, events, r)
  {
    hide *;
    if TrimSpace(r.stopReason) == "" {
      AckWithoutStopReason(sessionID, events, r);
    } else {
      AckWithStopReason(sessionID, events, r);
    }
  }

  lemma AckWithoutStopReason(sessionID: string, events: seq<Event>, r: PromptResult)
    requires EndsLast(events) && TrimSpace(r.stopReason) == ""
    ensures PlaceIsIrrelevant(sessionID, events, r) <==> TurnIDsAgree(events, r)
  {
    hide TrimSpace, MessageOf, IsTerminal;
    forall i | 0 <= i <= |events|
      ensures Played(sessionID, events, r, i)
           == Mapped(events) + [FinalResult(sessionID, FinalTurnID(events, r, i), events)]
    {
      PlayInserted(sessionID, events, r, i);
    }
    hide Played, Mapped;
    if TurnIDsAgree(events, r) {
      forall i | 0 <= i <= |events|
        ensures FinalTurnID(events, r, i) == FinalTurnID(events, r, |events|)
      {
        assert events[..i] + events[i..] == events;
        LastTurnIDAppend(events[..i], events[i..]);
        assert events[|events|..] == [];
      }
    } else {
      assert events[0..] == events && events[|events|..] == [];
      assert FinalTurnID(events, r, 0) != FinalTurnID(events, r, |events|);
      assert (Mapped(events) + [FinalResult(sessionID, FinalTurnID(events, r, 0), events)])[|Mapped(events)|]
          != (Mapped(events) + [FinalResult(sessionID, FinalTurnID(events, r, |events|), events)])[|Mapped(events)|];
    }
  }

  lemma AckWithStopReason(sessionID: string, events: seq<Event>, r: PromptResult)
    requires EndsLast(events) && TrimSpace(r.stopReason) != ""
    ensures PlaceIsIrrelevant(sessionID, events, r) <==> SilentEvents(sessionID, events, r)
  {
    forall i | 0 <= i <= |events|
      ensures Played(sessionID, events, r, i) == Mapped(events[..i]) + [StopResult(sessionID, events, r, i)]
    {
      StopReasonEndsTurn(sessionID, events, r, i);
    }
    hide Played, Mapped, StopResult, EndsLast, TrimSpace;
    if SilentEvents(sessionID, events, r) {
      forall i | 0 <= i <= |events|
        ensures Mapped(events[..i]) == [] && StopResult(sessionID, events, r, i) == StopResult(sessionID, events, r, 0)
      {
        SilentPrefix(sessionID, events, r, i);
      }
    } else if PlaceIsIrrelevant(sessionID, events, r) {
      SamePlaces(sessionID, events, r);
    }
  }

  lemma SilentPrefix(sessionID: string, events: seq<Event>, r: PromptResult, i: nat)
    requires events != [] && SilentEvents(sessionID, events, r) && i <= |events|
    ensures Mapped(events[..i]) == [] && StopResult(sessionID, events, r, i) == StopResult(sessionID, events, r, 0)
  {
    hide Mapped, TrimSpace, NotedAll, LastTurnID;
    assert events[..i] + events[i..] == events && events[..0] == [];
    MappedAppend(events[..i], events[i..]);
    SessionKept(NewFields(sessionID), events[..i]);
    SessionKept(NewFields(sessionID), events[..0]);
    if TrimSpace(r.turnID) == "" {
      NoTurnID(events[..i]);
      NoTurnID(events[..0]);
    }
  }

  lemma {:induction false} SessionKept(f: Fields, events: seq<Event>)
    requires forall i :: 0 <= i < |events| ==> events[i].sessionID == "" || events[i].sessionID == f.sessionID
    ensures NotedAll(f, events).sessionID == f.sessionID
    decreases |events|
  {
    if events != [] {
      SessionKept(Noted(f, events[0]), events[1..]);
    }
  }

  lemma {:induction false} NoTurnID(events: seq<Event>)
    ensures LastTurnID(events) == "" <==> forall i :: 0 <= i < |events| ==> events[i].turnID == ""
  {
    if events != [] {
      NoTurnID(events[1..]);
      assert forall i :: 0 < i < |events| ==> events[i] == events[1..][i - 1];
    }
  }

  /** Equal messages at every place leave the events nothing to say. */
  lemma SamePlaces(sessionID: string, events: seq<Event>, r: PromptResult)
    requires EndsLast(events) && TrimSpace(r.stopReason) != "" && PlaceIsIrrelevant(sessionID, events, r)
    ensures SilentEvents(sessionID, events, r)
  {
    assert events != [];
    hide Played, EndsLast, TrimSpace, MessageOf, StopResult;
    var n := |events|;
    forall i | 0 <= i <= n
      ensures |Mapped(events[..i])| == 0 && StopResult(sessionID, events, r, i) == StopResult(sessionID, events, r, 0)
    {
      StopReasonEndsTurn(sessionID, events, r, i);
      StopReasonEndsTurn(sessionID, events, r, 0);
      assert Played(sessionID, events, r, i) == Played(sessionID, events, r, 0);
      assert events[..0] == [] && Mapped([]) == [];
      SameEnd(Mapped(events[..i]), StopResult(sessionID, events, r, i), StopResult(sessionID, events, r, 0));
    }
    assert events[..n] == events;
    SameResults(sessionID, events, r);
  }

  lemma SameEnd(a: seq<Message>, x: Message, y: Message)
    requires a + [x] == [] + [y]
    ensures a == [] && x == y
  {
    assert |a + [x]| == |[] + [y]|;
    assert (a + [x])[|a|] == ([] + [y])[|a|];
  }

  lemma SameResults(sessionID: string, events: seq<Event>, r: PromptResult)
    requires events != []
    requires forall i :: 0 <= i <= |events| ==>
      StopResult(sessionID, events, r, i) == StopResult(sessionID, events, r, 0)
    ensures TrimSpace(events[|events| - 1].error) == ""
    ensures forall i :: 0 <= i < |events| ==> events[i].sessionID == "" || events[i].sessionID == sessionID
    ensures TrimSpace(r.turnID) != "" || forall i :: 0 <= i < |events| ==> events[i].turnID == ""
  {
    hide TrimSpace, NotedAll, LastTurnID;
    var n := |events|;
    assert events[..0] == [] && events[..n] == events;
    NotedNone(NewFields(sessionID));
    assert StopResult(sessionID, events, r, n) == StopResult(sessionID, events, r, 0);
    NoTurnID(events);
    forall i | 0 <= i < n
      ensures events[i].sessionID == "" || events[i].sessionID == sessionID
    {
      assert StopResult(sessionID, events, r, i) == StopResult(sessionID, events, r, 0);
      assert StopResult(sessionID, events, r, i + 1) == StopResult(sessionID, events, r, 0);
      assert events[..i + 1] == events[..i] + [events[i]];
      NotedAllSnoc(NewFields(sessionID), events[..i], events[i]);
    }
  }

  lemma NotedNone(f: Fields)
    ensures NotedAll(f, []) == f && LastTurnID([]) == ""
  {
  }

  /** Neither condition always holds. Two turn ids: the one that arrives last is reported. */
  lemma AckCommutesExample(sessionID: string)
    ensures
      var completed := Event(Completed, "", "a", "", "", "", true, "", "");
      var r := PromptResult("", "b");
      && Played(sessionID, [completed], r, 0) == [Result(sessionID, "a", "", false, "")]
      && Played(sessionID, [completed], r, 1) == [Result(sessionID, "b", "", false, "")]
  {
    var completed := Event(Completed, "", "a", "", "", "", true, "", "");
    var events, r := [completed], PromptResult("", "b");
    assert Trimmed("") && Trimmed("b");
    assert TrimSpace("") == "" && TrimSpace("b") == "b";
    hide TrimSpace, Trimmed, Played;
    assert EndsLast(events);
    assert events[0..] == events && events[..1] == events && events[1..] == [] && events[1..] == [];
    PlayInserted(sessionID, events, r, 0);
    PlayInserted(sessionID, events, r, 1);
    assert Mapped(events) == MessageOf(completed) + Mapped(events[1..]) == [];
    assert LastTurnID(events) == "a";
    assert NotedAll(NewFields(sessionID), events).sessionID == sessionID;
  }

  lemma MappedPair(a: Event, b: Event)
    ensures Mapped([]) == [] && Mapped([a, b]) == MessageOf(a) + MessageOf(b)
  {
    hide MessageOf;
    assert [a, b][1..] == [b] && [b][1..] == [];
    assert Mapped([b]) == MessageOf(b) + Mapped([]);
    assert Mapped([a, b]) == MessageOf(a) + Mapped([b]);
  }

  /** An ordinary turn with a stop reason: ahead of its events, the prompt result drops their messages. */
  lemma StopReasonExample(sessionID: string)
    ensures
      var chunk := Event(MessageChunk, "", "", "hi", "", "", false, "", "");
      var completed := Event(Completed, "", "", "", "", "", true, "", "");
      var r := PromptResult("end_turn", "");
      && Played(sessionID, [chunk, completed], r, 0) == [Result(sessionID, "", "end_turn", false, "")]
      && Played(sessionID, [chunk, completed], r, 2)
         == [Assistant("", "", TextBlock("hi")), Result(sessionID, "", "end_turn", false, "")]
  {
    var chunk := Event(MessageChunk, "", "", "hi", "", "", false, "", "");
    var completed := Event(Completed, "", "", "", "", "", true, "", "");
    var events, r := [chunk, completed], PromptResult("end_turn", "");
    assert Trimmed("") && Trimmed("end_turn");
    assert TrimSpace("") == "" && TrimSpace("end_turn") == "end_turn";
    hide TrimSpace, Trimmed, Played;
    assert EndsLast(events);
    StopReasonEndsTurn(sessionID, events, r, 0);
    StopReasonEndsTurn(sessionID, events, r, 2);
    assert events[..0] == [] && events[..2] == events;
    MappedPair(chunk, completed);
    assert MessageOf(chunk) == [Assistant("", "", TextBlock("hi"))] && MessageOf(completed) == [];
    hide NotedAll, LastTurnID, EndsLast, IsTerminal, MessageOf;
    NoTurnID(events);
    SessionKept(NewFields(sessionID), events);
    NotedNone(NewFields(sessionID));
  }
}
