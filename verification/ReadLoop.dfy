/**
 The connection's read loop: which decoded messages it dispatches, and the bounded channel
 through which notifications reach the client, as a step system with the client's pump and
 with a shutdown from outside.
 */
module ReadLoop {
  import opened Text

  /** The capacity of the notification channel. */
  const EVENT_BUFFER := 128

  /** A decoded message: its raw id, its method name, and the bytes of its parameters, result and error data. */
  datatype Message = Message(id: string, verb: string, paramBytes: nat, resultBytes: nat, errorBytes: nat)

  /** What decoding gives: a message, or an error that is or is not just the stream having been closed. */
  datatype Decoded = Good(msg: Message) | Broken(benign: bool)

  datatype StopCause = EndOfStream | DecodeFailure | Oversized

  predicate HasID(m: Message) {
    TrimSpace(m.id) != "" && TrimSpace(m.id) != "null"
  }

  datatype Route = ToHandler | ToNotifications | ToCaller | ToErrors

  function RouteOf(m: Message): Route {
    if m.verb != "" && HasID(m) then ToHandler
    else if m.verb != "" then ToNotifications
    else if HasID(m) then ToCaller
    else ToErrors
  }

  /** A notification has a method and no id; a null id is none. */
  predicate IsNotification(m: Message) {
    m.verb != "" && (TrimSpace(m.id) == "" || TrimSpace(m.id) == "null")
  }

  /** Where a message goes depends on whether it names a method and on whether it has an id. */
  lemma RoutesOnFields(m: Message)
    ensures
      var noID := TrimSpace(m.id) == "" || TrimSpace(m.id) == "null";
      && (RouteOf(m) == ToHandler <==> m.verb != "" && !noID)
      && (RouteOf(m) == ToNotifications <==> m.verb != "" && noID)
      && (RouteOf(m) == ToCaller <==> m.verb == "" && !noID)
      && (RouteOf(m) == ToErrors <==> m.verb == "" && noID)
  {
    hide TrimSpace;
  }

  predicate WithinLimit(maxEventBytes: int, m: Message) {
    maxEventBytes > 0 ==> m.paramBytes + m.resultBytes + m.errorBytes <= maxEventBytes
  }

  predicate Dispatchable(maxEventBytes: int, d: Decoded) {
    d.Good? && WithinLimit(maxEventBytes, d.msg)
  }

  /** The messages before the first decoding error or oversized message. */
  function LongestPrefix(stream: seq<Decoded>, maxEventBytes: int): seq<Message> {
    if stream == [] || !Dispatchable(maxEventBytes, stream[0]) then []
    else [stream[0].msg] + LongestPrefix(stream[1..], maxEventBytes)
  }

  function Bytes(m: Message): nat {
    m.paramBytes + m.resultBytes + m.errorBytes
  }

  /** It has only messages within the limit, if there is one, and what follows it is not such a message. */
  lemma {:induction false} LongestPrefixIsLongest(stream: seq<Decoded>, maxEventBytes: int)
    ensures
      var prefix := LongestPrefix(stream, maxEventBytes);
      var n := |prefix|;
      && n <= |stream|
      && (forall i :: 0 <= i < n ==>
            stream[i] == Good(prefix[i]) && (maxEventBytes <= 0 || Bytes(prefix[i]) <= maxEventBytes))
      && (n < |stream| && stream[n].Good? ==> 0 < maxEventBytes < Bytes(stream[n].msg))
  {
    if stream != [] && Dispatchable(maxEventBytes, stream[0]) {
      LongestPrefixIsLongest(stream[1..], maxEventBytes);
    }
  }

  lemma LongestPrefixAt(stream: seq<Decoded>, maxEventBytes: int, next: nat)
    requires next <= |stream|
    ensures LongestPrefix(stream[next..], maxEventBytes)
         == if next < |stream| && Dispatchable(maxEventBytes, stream[next])
            then [stream[next].msg] + LongestPrefix(stream[next + 1..], maxEventBytes) else []
  {
    hide Dispatchable;
    if next < |stream| {
      assert stream[next..][0] == stream[next] && stream[next..][1..] == stream[next + 1..];
    }
  }

  /** The loop: it dispatches the longest acceptable prefix and stops with the cause of what follows it, if any. */
  method Loop(stream: seq<Decoded>, maxEventBytes: int) returns (dispatched: seq<Message>, cause: Option<StopCause>)
    ensures dispatched == LongestPrefix(stream, maxEventBytes)
    ensures cause.None? <==> |dispatched| == |stream|
    ensures |dispatched| < |stream| ==>
      match stream[|dispatched|]
      case Good(msg) => cause == Some(Oversized) && 0 < maxEventBytes < Bytes(msg)
      case Broken(benign) => cause == Some(if benign then EndOfStream else DecodeFailure)
  {
    hide LongestPrefix;
    dispatched := [];
    var next := 0;
    assert stream[0..] == stream;
    LongestPrefixAt(stream, maxEventBytes, |stream|);
    while next < |stream|
      invariant 0 <= next <= |stream| && |dispatched| == next
      invariant LongestPrefix(stream, maxEventBytes) == dispatched + LongestPrefix(stream[next..], maxEventBytes)
    {
      LongestPrefixAt(stream, maxEventBytes, next);
      match stream[next] {
        case Broken(benign) =>
          return dispatched, Some(if benign then EndOfStream else DecodeFailure);
        case Good(msg) =>
          if maxEventBytes > 0 {
            var total := msg.paramBytes + msg.resultBytes + msg.errorBytes;
            if total > maxEventBytes {
              return dispatched, Some(Oversized);
            }
          }
          dispatched := dispatched + [msg];
      }
      next := next + 1;
    }
    return dispatched, None;
  }

  // ---------- the loop, the channel and its consumer ----------

  /**
   `held` is a notification whose send has not happened yet, `ended` says that the loop has
   stopped by itself, and `stopped` that a shutdown came from outside it.
   */
  datatype State = State(
    next: nat, held: Option<Message>, buffer: seq<Message>, ended: bool, stopped: bool,
    dispatched: seq<Message>, consumed: seq<Message>)

  const INITIAL := State(0, None, [], false, false, [], [])

  datatype Action = ReadNext | SendHeld | DropHeld | Consume | Stop

  predicate Enabled(stream: seq<Decoded>, s: State, a: Action) {
    match a
    case ReadNext => !s.ended && s.held.None? && s.next < |stream|
    case SendHeld => s.held.Some? && |s.buffer| < EVENT_BUFFER
    case DropHeld => s.held.Some? && s.stopped
    case Consume => s.buffer != []
    case Stop => true
  }

  function Apply(stream: seq<Decoded>, maxEventBytes: int, s: State, a: Action): State
    requires Enabled(stream, s, a)
  {
    match a
    case ReadNext =>
      var d := stream[s.next];
      if !Dispatchable(maxEventBytes, d) then s.(ended := true)
      else
        s.(next := s.next + 1, dispatched := s.dispatched + [d.msg],
           held := if RouteOf(d.msg).ToNotifications? then Some(d.msg) else None)
    case SendHeld => s.(buffer := s.buffer + [s.held.value], held := None)
    case DropHeld => s.(held := None)
    case Consume => s.(consumed := s.consumed + [s.buffer[0]], buffer := s.buffer[1..])
    case Stop => s.(stopped := true)
  }

  function Run(stream: seq<Decoded>, maxEventBytes: int, actions: seq<Action>): State {
    if actions == [] then INITIAL
    else
      var s, a := Run(stream, maxEventBytes, actions[..|actions| - 1]), actions[|actions| - 1];
      if Enabled(stream, s, a) then Apply(stream, maxEventBytes, s, a) else s
  }

  function Notifications(messages: seq<Message>): seq<Message> {
    if messages == [] then []
    else
      Notifications(messages[..|messages| - 1])
        + if IsNotification(messages[|messages| - 1]) then [messages[|messages| - 1]] else []
  }

  function Pending(held: Option<Message>): seq<Message> {
    if held.Some? then [held.value] else []
  }

  ghost predicate Inv(stream: seq<Decoded>, maxEventBytes: int, s: State) {
    && s.next <= |stream| && |s.dispatched| == s.next
    && LongestPrefix(stream, maxEventBytes) == s.dispatched + LongestPrefix(stream[s.next..], maxEventBytes)
    && (s.ended ==> s.next < |stream| && !Dispatchable(maxEventBytes, stream[s.next]))
    && |s.buffer| <= EVENT_BUFFER
    && (!s.stopped ==> s.consumed + s.buffer + Pending(s.held) == Notifications(s.dispatched))
  }

  lemma PrefixStep(stream: seq<Decoded>, maxEventBytes: int, dispatched: seq<Message>, next: nat)
    requires next < |stream| && Dispatchable(maxEventBytes, stream[next])
    ensures dispatched + LongestPrefix(stream[next..], maxEventBytes)
         == (dispatched + [stream[next].msg]) + LongestPrefix(stream[next + 1..], maxEventBytes)
  {
    LongestPrefixAt(stream, maxEventBytes, next);
    hide LongestPrefix, WithinLimit;
  }

  lemma NotificationsSnoc(messages: seq<Message>, m: Message)
    ensures Notifications(messages + [m]) == Notifications(messages) + if IsNotification(m) then [m] else []
  {
    hide IsNotification;
    assert (messages + [m])[..|messages|] == messages;
  }

  lemma ReadKeepsInv(stream: seq<Decoded>, maxEventBytes: int, s: State)
    requires Inv(stream, maxEventBytes, s) && Enabled(stream, s, ReadNext)
    ensures Inv(stream, maxEventBytes, Apply(stream, maxEventBytes, s, ReadNext))
  {
    var d := stream[s.next];
    if Dispatchable(maxEventBytes, d) {
      PrefixStep(stream, maxEventBytes, s.dispatched, s.next);
      NotificationsSnoc(s.dispatched, d.msg);
      RoutesOnFields(d.msg);
      assert RouteOf(d.msg).ToNotifications? <==> IsNotification(d.msg);
      hide RouteOf, IsNotification, LongestPrefix, Notifications, WithinLimit;
      var t := Apply(stream, maxEventBytes, s, ReadNext);
      assert s.consumed + s.buffer + Pending(None) == s.consumed + s.buffer;
      assert t.next == s.next + 1 && t.consumed == s.consumed && t.buffer == s.buffer;
    }
  }

  lemma OtherKeepsInv(stream: seq<Decoded>, maxEventBytes: int, s: State, a: Action)
    requires Inv(stream, maxEventBytes, s) && Enabled(stream, s, a) && !a.ReadNext?
    ensures Inv(stream, maxEventBytes, Apply(stream, maxEventBytes, s, a))
  {
    hide LongestPrefix, Notifications, Dispatchable;
    if a.Consume? {
      assert s.buffer == [s.buffer[0]] + s.buffer[1..];
    }
  }

  lemma {:induction false} RunKeepsInv(stream: seq<Decoded>, maxEventBytes: int, actions: seq<Action>)
    ensures Inv(stream, maxEventBytes, Run(stream, maxEventBytes, actions))
  {
    hide Enabled, Apply, Dispatchable, WithinLimit, RouteOf;
    if actions == [] {
      assert stream[0..] == stream;
    } else {
      var init, a := actions[..|actions| - 1], actions[|actions| - 1];
      RunKeepsInv(stream, maxEventBytes, init);
      hide Inv;
      var s := Run(stream, maxEventBytes, init);
      if Enabled(stream, s, a) {
        if a.ReadNext? {
          ReadKeepsInv(stream, maxEventBytes, s);
        } else {
          OtherKeepsInv(stream, maxEventBytes, s, a);
        }
      }
    }
  }

  /** The notifications among messages, in their order: all of them and nothing else. */
  lemma {:induction false} NotificationsAreTheOnes(messages: seq<Message>)
    ensures forall m :: m in Notifications(messages) <==> m in messages && IsNotification(m)
  {
    hide IsNotification;
    if messages != [] {
      var init, last := messages[..|messages| - 1], messages[|messages| - 1];
      NotificationsAreTheOnes(init);
      assert messages == init + [last];
    }
  }

  /**
   In every run what is dispatched is a prefix of the longest acceptable one, and all of it once the loop
   has ended; at most 128 notifications are buffered; and unless a shutdown comes from outside, those
   consumed, then those buffered, then the one waiting are the ones dispatched, in order: none is dropped.
   A notification waits exactly while the buffer is full, and while the stream has more something can happen.
   */
  lemma NotificationsAreForwarded(stream: seq<Decoded>, maxEventBytes: int, actions: seq<Action>)
    ensures
      var s := Run(stream, maxEventBytes, actions);
      && s.dispatched <= LongestPrefix(stream, maxEventBytes)
      && (s.ended ==> s.dispatched == LongestPrefix(stream, maxEventBytes))
      && |s.buffer| <= 128
      && (!s.stopped ==> s.consumed + s.buffer + Pending(s.held) == Notifications(s.dispatched))
      && (s.held.Some? ==> (Enabled(stream, s, SendHeld) <==> |s.buffer| < 128))
      && (s.buffer != [] ==> Enabled(stream, s, Consume))
      && (s.held.None? && !s.ended && |s.dispatched| < |stream| ==> Enabled(stream, s, ReadNext))
  {
    RunKeepsInv(stream, maxEventBytes, actions);
    hide Run, Notifications, Dispatchable;
    var s := Run(stream, maxEventBytes, actions);
    if s.ended {
      assert stream[s.next..][0] == stream[s.next];
    }
  }
}
