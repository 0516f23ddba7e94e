/**
 One response turn: what an event or a prompt result does to the handle, the handle as an
 object, and the confluence of the two signals that end a turn.
 */
module Turn {
  import opened Text

  datatype EventType =
    | Unknown | FullMessage | MessageChunk | Thinking | ToolCallStart | ToolCallUpdate | Completed | Errored

  /** A session event; its payload stays undecoded. */
  datatype Event = Event(
    kind: EventType, sessionID: string, turnID: string, text: string,
    toolName: string, toolCallID: string, finished: bool, error: string, data: string)

  datatype PromptResult = PromptResult(stopReason: string, turnID: string)

  datatype Block = TextBlock(text: string) | ThinkingBlock(text: string)
    | ToolUseBlock(id: string, name: string, input: string)
    | ToolResultBlock(toolUseID: string, name: string, content: string)

  datatype Message =
    | Assistant(sessionID: string, turnID: string, block: Block)
    | Result(sessionID: string, turnID: string, stopReason: string, isError: bool, error: string)

  function BlockOf(ev: Event): Option<Block> {
    match ev.kind
    case FullMessage => if ev.text == "" then None else Some(TextBlock(ev.text))
    case MessageChunk => if ev.text == "" then None else Some(TextBlock(ev.text))
    case Thinking => if ev.text == "" then None else Some(ThinkingBlock(ev.text))
    case ToolCallStart => Some(ToolUseBlock(ev.toolCallID, ev.toolName, ev.data))
    case ToolCallUpdate => Some(ToolResultBlock(ev.toolCallID, ev.toolName, ev.data))
    case _ => None
  }

  /** The message of an event, if it has one, as a sequence. */
  function MessageOf(ev: Event): (ms: seq<Message>)
    ensures |ms| <= 1 && forall m :: m in ms ==> m.Assistant?
  {
    match BlockOf(ev)
    case None => []
    case Some(block) => [Assistant(ev.sessionID, ev.turnID, block)]
  }

  /** The message tells of this event: its ids, and the content its kind calls for. */
  predicate TellsOf(m: Message, ev: Event) {
    && m.Assistant? && m.sessionID == ev.sessionID && m.turnID == ev.turnID
    && match m.block
       case TextBlock(text) => (ev.kind == FullMessage || ev.kind == MessageChunk) && text == ev.text && text != ""
       case ThinkingBlock(text) => ev.kind == Thinking && text == ev.text && text != ""
       case ToolUseBlock(id, name, input) =>
         ev.kind == ToolCallStart && id == ev.toolCallID && name == ev.toolName && input == ev.data
       case ToolResultBlock(id, name, content) =>
         ev.kind == ToolCallUpdate && id == ev.toolCallID && name == ev.toolName && content == ev.data
  }

  /** An event yields a message exactly when the message tells of it. */
  lemma MessageTellsOfEvent(ev: Event, m: Message)
    ensures MessageOf(ev) == [m] <==> TellsOf(m, ev)
  {
  }

  predicate IsTerminal(ev: Event) {
    ev.finished || ev.kind == Completed || ev.kind == Errored
  }

  // ---------- the fields behind the handle's mutex ----------

  datatype Fields = Fields(
    sessionID: string, turnID: string, stopReason: string,
    promptAcked: bool, terminal: bool, turnErr: string, closed: bool)

  function NewFields(sessionID: string): Fields {
    Fields(sessionID, "", "", false, false, "", false)
  }

  function ResultOf(f: Fields): Message {
    Result(f.sessionID, f.turnID, f.stopReason, TrimSpace(f.turnErr) != "", f.turnErr)
  }

  /** Closing needs both signals, and happens once. */
  function TryClose(f: Fields): (Fields, seq<Message>) {
    if f.closed || !f.promptAcked || !f.terminal then (f, [])
    else (f.(closed := true), [ResultOf(f)])
  }

  function Noted(f: Fields, ev: Event): Fields {
    f.(sessionID := if ev.sessionID != "" then ev.sessionID else f.sessionID,
       turnID := if ev.turnID != "" then ev.turnID else f.turnID)
  }

  /** The locked section for an event: the new fields and the messages to send after unlocking. */
  function OnEvent(f: Fields, ev: Event): (Fields, seq<Message>) {
    if f.closed then (f, [])
    else
      var g := Noted(f, ev);
      if IsTerminal(ev) then
        var h := g.(terminal := true, turnErr := if TrimSpace(ev.error) != "" then TrimSpace(ev.error) else g.turnErr);
        (TryClose(h).0, MessageOf(ev) + TryClose(h).1)
      else (g, MessageOf(ev))
  }

  /** The error a handle reports after an event that ends its turn. */
  function ErrorAfter(f: Fields, ev: Event): string {
    if TrimSpace(ev.error) != "" then TrimSpace(ev.error) else f.turnErr
  }

  /**
   The events that end a turn are those that say so and those of the kinds completed and error, and only
   they: with the prompt's result in, such an event closes the handle with the turn's result.
   */
  lemma EventEndsTurn(f: Fields, ev: Event)
    requires !f.closed
    ensures
      var ends := ev.finished || ev.kind == Completed || ev.kind == Errored;
      var (g, messages) := OnEvent(f, ev);
      && (g.terminal <==> f.terminal || ends) && (g.closed <==> f.promptAcked && ends)
      && g.sessionID == (if ev.sessionID != "" then ev.sessionID else f.sessionID)
      && g.turnID == (if ev.turnID != "" then ev.turnID else f.turnID)
      && (ends ==> g.turnErr == ErrorAfter(f, ev)) && (!ends ==> g.turnErr == f.turnErr)
      && messages == MessageOf(ev)
         + if g.closed then [Result(g.sessionID, g.turnID, f.stopReason, TrimSpace(g.turnErr) != "", g.turnErr)] else []
  {
    hide TrimSpace, MessageOf;
    assert MessageOf(ev) + [] == MessageOf(ev);
  }

  /** The locked section for the prompt's result. */
  function OnResult(f: Fields, r: PromptResult): (Fields, seq<Message>) {
    if f.closed then (f, [])
    else
      var id, reason := TrimSpace(r.turnID), TrimSpace(r.stopReason);
      TryClose(f.(promptAcked := true,
        turnID := if id != "" then id else f.turnID,
        stopReason := if reason != "" then reason else f.stopReason,
        terminal := f.terminal || reason != ""))
  }

  datatype Input = FromEvent(ev: Event) | FromPrompt(result: PromptResult)

  function OnInput(f: Fields, i: Input): (Fields, seq<Message>) {
    match i
    case FromEvent(ev) => OnEvent(f, ev)
    case FromPrompt(r) => OnResult(f, r)
  }

  /** Whether a handler has something to send: a message of the event, or the result it completes. */
  predicate HasToSend(f: Fields, i: Input) {
    && !f.closed
    && match i
       case FromEvent(ev) => BlockOf(ev).Some? || (IsTerminal(ev) && f.promptAcked)
       case FromPrompt(r) => f.terminal || TrimSpace(r.stopReason) != ""
  }

  lemma HasToSendIff(f: Fields, i: Input)
    ensures OnInput(f, i).1 != [] <==> HasToSend(f, i)
  {
    hide TrimSpace, BlockOf;
  }

  /** Whether a handler that got these messages closes the handle after sending them. */
  predicate ClosesAfter(messages: seq<Message>) {
    messages != [] && messages[|messages| - 1].Result?
  }

  // ---------- the handle as an object, handlers taken one at a time ----------

  datatype Chat = Chat(fields: Fields, sent: seq<Message>)

  function Feed(chat: Chat, i: Input): Chat {
    var (f, messages) := OnInput(chat.fields, i);
    Chat(f, chat.sent + messages)
  }

  lemma FeedEvent(chat: Chat, ev: Event)
    ensures Feed(chat, FromEvent(ev)).sent == chat.sent + OnEvent(chat.fields, ev).1
  {
    hide OnEvent;
  }

  lemma EventKeepsReason(f: Fields, ev: Event)
    ensures OnEvent(f, ev).0.stopReason == f.stopReason
  {
    hide TrimSpace, IsTerminal, MessageOf;
  }

  function Play(chat: Chat, inputs: seq<Input>): Chat
    decreases |inputs|
  {
    if inputs == [] then chat else Play(Feed(chat, inputs[0]), inputs[1..])
  }

  function Pending(result: Option<Message>): seq<Message> {
    if result.Some? then [result.value] else []
  }

  class TurnHandle {
    /** Everything sent on the messages channel; the errors channel holds at most one error. */
    var sent: seq<Message>
    var errs: seq<string>
    var messagesClosed: bool
    var errsClosed: bool
    var done: bool

    var sessionID: string
    var turnID: string
    var stopReason: string
    var promptAcked: bool
    var terminal: bool
    var turnErr: string
    var closed: bool
    var closeOnce: bool

    /** Whether a handler sent on the closed messages channel, which a failure may have closed before. */
    var panicked: bool

    ghost function View(): Chat
      reads this
    {
      Chat(Fields(sessionID, turnID, stopReason, promptAcked, terminal, turnErr, closed), sent)
    }

    /** The channels close together, the first time `close` runs, and a result is only sent before that. */
    ghost predicate Valid()
      reads this
    {
      && messagesClosed == errsClosed == done == closeOnce
      && (closed ==> closeOnce)
      && (!closeOnce ==> errs == []) && |errs| <= 1
    }

    constructor (sessionID: string)
      ensures Valid() && View() == Chat(NewFields(sessionID), []) && !closeOnce && !panicked
    {
      this.sessionID := sessionID;
      turnID, stopReason, turnErr := "", "", "";
      promptAcked, terminal, closed, closeOnce := false, false, false, false;
      sent, errs, messagesClosed, errsClosed, done, panicked := [], [], false, false, false, false;
    }

    method TryCloseLocked() returns (result: Option<Message>)
      modifies this`closed
      ensures View() == Chat(TryClose(old(View()).fields).0, old(sent))
      ensures result == if TryClose(old(View()).fields).1 == [] then None else Some(ResultOf(old(View()).fields))
    {
      if closed || !promptAcked || !terminal {
        return None;
      }
      closed := true;
      return Some(Result(sessionID, turnID, stopReason, TrimSpace(turnErr) != "", turnErr));
    }

    /** A send on a closed channel panics, and the handler goes no further. */
    method SendMessage(m: Message) returns (ok: bool)
      modifies this`sent, this`panicked
      ensures ok == !messagesClosed && panicked == (old(panicked) || messagesClosed)
      ensures sent == if messagesClosed then old(sent) else old(sent) + [m]
    {
      ok := !messagesClosed;
      if messagesClosed {
        panicked := true;
      } else {
        sent := sent + [m];
      }
    }

    /** Only the first call has an effect: at most one error, then the three channels are closed. */
    method Close(err: Option<string>)
      requires messagesClosed == errsClosed == done == closeOnce && (!closeOnce ==> errs == []) && |errs| <= 1
      modifies this`errs, this`messagesClosed, this`errsClosed, this`done, this`closeOnce
      ensures Valid() && closeOnce
      ensures errs == if old(closeOnce) || err.None? then old(errs) else [err.value]
    {
      if closeOnce {
        return;
      }
      closeOnce := true;
      if err.Some? {
        errs := errs + [err.value];
      }
      done := true;
      messagesClosed := true;
      errsClosed := true;
    }

    /** The section of `handleEvent` under the mutex; what it returns is sent after unlocking. */
    method LockedEvent(ev: Event) returns (message: seq<Message>, result: Option<Message>)
      modifies this`sessionID, this`turnID, this`terminal, this`turnErr, this`closed
      ensures View() == Chat(OnEvent(old(View()).fields, ev).0, old(sent))
      ensures message + Pending(result) == OnEvent(old(View()).fields, ev).1
      ensures |message| <= 1 && (result.Some? <==> closed && !old(closed))
      ensures old(closed) ==> closed && message == []
    {
      hide TrimSpace, BlockOf;
      message, result := [], None;
      if closed {
        return;
      }
      if ev.sessionID != "" {
        sessionID := ev.sessionID;
      }
      if ev.turnID != "" {
        turnID := ev.turnID;
      }
      message := MessageOf(ev);
      if IsTerminal(ev) {
        terminal := true;
        var errText := TrimSpace(ev.error);
        if errText != "" {
          turnErr := errText;
        }
        result := TryCloseLocked();
      }
    }

    method LockedResult(r: PromptResult) returns (result: Option<Message>)
      modifies this`turnID, this`stopReason, this`promptAcked, this`terminal, this`closed
      ensures View() == Chat(OnResult(old(View()).fields, r).0, old(sent))
      ensures Pending(result) == OnResult(old(View()).fields, r).1
      ensures (result.Some? <==> closed && !old(closed)) && (old(closed) ==> closed)
    {
      hide TrimSpace;
      result := None;
      if closed {
        return;
      }
      promptAcked := true;
      var id := TrimSpace(r.turnID);
      if id != "" {
        turnID := id;
      }
      var reason := TrimSpace(r.stopReason);
      if reason != "" {
        stopReason := reason;
        terminal := true;
      }
      result := TryCloseLocked();
    }

    /** What a handler does after its locked section: the message, then the result, then the close. */
    method Emit(message: seq<Message>, result: Option<Message>)
      requires |message| <= 1
      requires messagesClosed == errsClosed == done == closeOnce && (!closeOnce ==> errs == []) && |errs| <= 1
      modifies this`sent, this`panicked, this`errs, this`messagesClosed, this`errsClosed, this`done, this`closeOnce
      ensures messagesClosed == errsClosed == done == closeOnce == (old(closeOnce) || result.Some?)
      ensures errs == old(errs)
      ensures if old(closeOnce) && message + Pending(result) != [] then panicked && sent == old(sent)
        else panicked == old(panicked) && sent == old(sent) + (message + Pending(result))
    {
      assert old(sent) + (message + Pending(result)) == old(sent) + message + Pending(result);
      if message != [] {
        var ok := SendMessage(message[0]);
        if !ok {
          return;
        }
      }
      if result.Some? {
        var ok := SendMessage(result.value);
        if !ok {
          return;
        }
        Close(None);
      }
    }

    method EventSections(ev: Event)
      requires Valid()
      modifies this
      ensures Valid() && errs == old(errs) && closeOnce == (old(closeOnce) || closed)
      ensures View().fields == OnEvent(old(View()).fields, ev).0
      ensures if old(closeOnce) && HasToSend(old(View()).fields, FromEvent(ev)) then panicked && sent == old(sent)
        else panicked == old(panicked) && View() == Feed(old(View()), FromEvent(ev))
    {
      HasToSendIff(View().fields, FromEvent(ev));
      hide OnEvent, MessageOf, HasToSend;
      var message, result := LockedEvent(ev);
      Emit(message, result);
    }

    /**
     Taken whole, a handler panics exactly if the channels were closed before it and it has something to send.
     What an interruption between its locked section and its sends can do is the subject of `TurnRuns`.
     On an open handle it sends the event's message and, if that ends an acknowledged turn, the result, and closes.
     */
    method HandleEvent(ev: Event)
      requires Valid()
      modifies this
      ensures Valid() && errs == old(errs) && closeOnce == (old(closeOnce) || closed)
      ensures View().fields == OnEvent(old(View()).fields, ev).0
      ensures if old(closeOnce) && HasToSend(old(View()).fields, FromEvent(ev)) then panicked && sent == old(sent)
        else panicked == old(panicked) && View() == Feed(old(View()), FromEvent(ev))
      ensures !old(closed) && !old(closeOnce) ==>
        && closeOnce == (old(promptAcked) && (ev.finished || ev.kind == Completed || ev.kind == Errored))
        && sent == old(sent) + (MessageOf(ev)
           + if closeOnce then [Result(sessionID, turnID, stopReason, TrimSpace(turnErr) != "", turnErr)] else [])
    {
      if !closed {
        EventEndsTurn(View().fields, ev);
      }
      hide OnEvent, OnInput, MessageOf, HasToSend, TrimSpace;
      ghost var chat := View();
      EventSections(ev);
      if !chat.fields.closed {
        FeedEvent(chat, ev);
        EventKeepsReason(chat.fields, ev);
      }
    }

    method HandlePromptResult(r: PromptResult)
      requires Valid()
      modifies this
      ensures Valid() && errs == old(errs) && closeOnce == (old(closeOnce) || closed)
      ensures View().fields == OnResult(old(View()).fields, r).0
      ensures if old(closeOnce) && HasToSend(old(View()).fields, FromPrompt(r)) then panicked && sent == old(sent)
        else panicked == old(panicked) && View() == Feed(old(View()), FromPrompt(r))
    {
      HasToSendIff(View().fields, FromPrompt(r));
      hide OnResult, HasToSend;
      var final := LockedResult(r);
      assert [] + Pending(final) == Pending(final);
      Emit([], final);
    }

    method Fail(err: string)
      requires Valid()
      modifies this`errs, this`messagesClosed, this`errsClosed, this`done, this`closeOnce
      ensures Valid() && closeOnce && View() == old(View())
      ensures errs == if old(closeOnce) then old(errs) else [err]
    {
      Close(Some(err));
    }
  }
}
