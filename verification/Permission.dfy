/**
 From a decision to the reply to a permission request: the policy's choice of an option,
 the client's fallback, and the check that the chosen option was offered.
 */
module Permission {
  import opened Text
  import opened Platform
  import opened Policy

  const REJECT := "reject_"
  const ASK := "ask_"
  const ALLOW := "allow_"

  datatype PermissionOption = PermissionOption(optionID: string, id: string)

  /** The option's identifier across protocol versions. */
  function OptionIDValue(o: PermissionOption): string {
    if TrimSpace(o.optionID) != "" then TrimSpace(o.optionID) else TrimSpace(o.id)
  }

  /** The id of the current protocol counts before the one of the older protocol. */
  lemma OptionIDOrder(o: PermissionOption)
    ensures TrimSpace(o.optionID) != "" ==> OptionIDValue(o) == TrimSpace(o.optionID)
    ensures TrimSpace(o.optionID) == "" ==> OptionIDValue(o) == TrimSpace(o.id)
  {
    hide TrimSpace;
  }

  /** What the permission callback gives back: an option id or an error. */
  datatype Choice = Chosen(id: string) | ChoiceError

  datatype Reply = Selected(optionID: string) | CallbackFailed | MissingOptions | NotOffered

  predicate Offered(options: seq<PermissionOption>, id: string) {
    id != "" && exists o :: o in options && OptionIDValue(o) == id
  }

  predicate HasFoldedPrefix(w: World, id: string, prefix: string) {
    id != "" && HasPrefix(w.Lower(id), w.Lower(TrimSpace(prefix)))
  }

  /** The id of the first offered option with the prefix, or the empty string. */
  function FirstWithPrefix(w: World, options: seq<PermissionOption>, prefix: string): (id: string)
    ensures id != "" ==> Offered(options, id) && HasFoldedPrefix(w, id, prefix)
    ensures id == "" ==> forall o :: o in options ==> !HasFoldedPrefix(w, OptionIDValue(o), prefix)
  {
    if options == [] then ""
    else if HasFoldedPrefix(w, OptionIDValue(options[0]), prefix) then OptionIDValue(options[0])
    else FirstWithPrefix(w, options[1..], prefix)
  }

  function FirstID(options: seq<PermissionOption>): (id: string)
    ensures id != "" ==> Offered(options, id)
    ensures id == "" ==> forall o :: o in options ==> OptionIDValue(o) == ""
  {
    if options == [] then ""
    else if OptionIDValue(options[0]) != "" then OptionIDValue(options[0])
    else FirstID(options[1..])
  }

  /** A prefix that is blank finds nothing. */
  method FindOptionByPrefix(w: World, options: seq<PermissionOption>, prefix: string) returns (id: string)
    ensures id == if TrimSpace(prefix) == "" then "" else FirstWithPrefix(w, options, prefix)
  {
    hide OptionIDValue, TrimSpace, HasPrefix, Offered;
    var folded := w.Lower(TrimSpace(prefix));
    assert folded == "" <==> TrimSpace(prefix) == "";
    if folded == "" {
      return "";
    }
    for i := 0 to |options|
      invariant FirstWithPrefix(w, options, prefix) == FirstWithPrefix(w, options[i..], prefix)
    {
      var candidate := OptionIDValue(options[i]);
      assert options[i..][0] == options[i] && options[i..][1..] == options[i + 1..];
      if candidate != "" && HasPrefix(w.Lower(candidate), folded) {
        return candidate;
      }
    }
    return "";
  }

  /** Reject before allow before anything. */
  function SafeFallback(w: World, options: seq<PermissionOption>): string {
    if FirstWithPrefix(w, options, REJECT) != "" then FirstWithPrefix(w, options, REJECT)
    else if FirstWithPrefix(w, options, ALLOW) != "" then FirstWithPrefix(w, options, ALLOW)
    else FirstID(options)
  }

  /** The last resort: the first option with an id. */
  method FirstOptionID(options: seq<PermissionOption>) returns (id: string)
    ensures id == FirstID(options)
  {
    hide OptionIDValue;
    for i := 0 to |options|
      invariant FirstID(options) == FirstID(options[i..])
    {
      assert options[i..][0] == options[i] && options[i..][1..] == options[i + 1..];
      id := OptionIDValue(options[i]);
      if id != "" {
        return;
      }
    }
    return "";
  }

  method PickSafeFallbackOption(w: World, options: seq<PermissionOption>) returns (id: string)
    ensures id == SafeFallback(w, options)
  {
    PrefixesAreTrimmed();
    hide OptionIDValue, HasFoldedPrefix, FirstWithPrefix, FirstID, Offered, TrimSpace, Trimmed, REJECT, ASK, ALLOW;
    id := FindOptionByPrefix(w, options, REJECT);
    if id != "" {
      return;
    }
    id := FindOptionByPrefix(w, options, ALLOW);
    if id != "" {
      return;
    }
    id := FirstOptionID(options);
  }

  lemma PrefixesAreTrimmed()
    ensures Trimmed(REJECT) && Trimmed(ASK) && Trimmed(ALLOW)
    ensures REJECT != "" && ASK != "" && ALLOW != ""
  {
  }

  method HasPermissionOption(options: seq<PermissionOption>, selected: string) returns (found: bool)
    ensures found == Offered(options, TrimSpace(selected))
  {
    hide OptionIDValue;
    var id := TrimSpace(selected);
    if id == "" {
      return false;
    }
    for i := 0 to |options|
      invariant forall j :: 0 <= j < i ==> OptionIDValue(options[j]) != id
    {
      if OptionIDValue(options[i]) == id {
        return true;
      }
    }
    return false;
  }

  /** The reply to a request, given what the callback chose; without a callback the choice is blank. */
  function ReplyTo(w: World, options: seq<PermissionOption>, choice: Choice): Reply {
    match choice
    case ChoiceError => CallbackFailed
    case Chosen(id) =>
      var selected := if TrimSpace(id) == "" then SafeFallback(w, options) else id;
      if selected == "" then MissingOptions
      else if Offered(options, TrimSpace(selected)) then Selected(selected)
      else NotOffered
  }

  method HandlePermissionRequest(w: World, options: seq<PermissionOption>, choice: Choice) returns (reply: Reply)
    ensures reply == ReplyTo(w, options, choice)
  {
    hide SafeFallback, Offered;
    match choice {
      case ChoiceError => return CallbackFailed;
      case Chosen(id) =>
        var selected := id;
        if TrimSpace(selected) == "" {
          selected := PickSafeFallbackOption(w, options);
        }
        if selected == "" {
          return MissingOptions;
        }
        var offered := HasPermissionOption(options, selected);
        return if offered then Selected(selected) else NotOffered;
    }
  }

  /** The option the policy's callback chooses for a decision. */
  function ChoiceFor(w: World, options: seq<PermissionOption>, d: Decision): string {
    match d
    case Deny => FirstWithPrefix(w, options, REJECT)
    case Ask => FirstWithPrefix(w, options, ASK)
    case Allow => FirstWithPrefix(w, options, ALLOW)
    case NoDecision => ""
  }

  method PolicyHandler(w: World, p: RuleSet, baseDir: string, call: ToolCall, options: seq<PermissionOption>)
    returns (choice: Choice)
    ensures choice == Chosen(ChoiceFor(w, options, Verdict(w, p, call, baseDir)))
  {
    PrefixesAreTrimmed();
    hide Verdict, FirstWithPrefix, TrimSpace, Trimmed, REJECT, ASK, ALLOW;
    var d := Decide(w, p, call, baseDir);
    var id := "";
    match d {
      case Deny => id := FindOptionByPrefix(w, options, REJECT);
      case Ask => id := FindOptionByPrefix(w, options, ASK);
      case Allow => id := FindOptionByPrefix(w, options, ALLOW);
      case NoDecision =>
    }
    return Chosen(id);
  }

  /** A permission request answered by the policy, end to end. */
  method AnswerWithPolicy(w: World, p: RuleSet, baseDir: string, call: ToolCall, options: seq<PermissionOption>)
    returns (reply: Reply)
    ensures reply == ReplyTo(w, options, Chosen(ChoiceFor(w, options, Verdict(w, p, call, baseDir))))
  {
    hide Verdict, ReplyTo, ChoiceFor;
    var choice := PolicyHandler(w, p, baseDir, call, options);
    reply := HandlePermissionRequest(w, options, choice);
  }

  // ---------- laws ----------

  lemma OfferedIsTrimmed(options: seq<PermissionOption>, id: string)
    requires Offered(options, id)
    ensures Trimmed(id)
  {
  }

  lemma PrefixAt(w: World, id: string, prefix: string, k: nat)
    requires Trimmed(prefix) && k < |prefix| && HasFoldedPrefix(w, id, prefix)
    ensures k < |id| && w.lower(id[k]) == w.lower(prefix[k])
  {
    assert TrimSpace(prefix) == prefix;
    hide TrimSpace, Trimmed;
    assert w.Lower(id)[k] == w.Lower(prefix)[k];
  }

  /** An id cannot carry two prefixes that differ somewhere, case folded. */
  lemma PrefixesExclude(w: World, id: string, p: string, q: string, k: nat)
    requires Trimmed(p) && Trimmed(q) && k < |p| && k < |q| && w.lower(p[k]) != w.lower(q[k])
    ensures !(HasFoldedPrefix(w, id, p) && HasFoldedPrefix(w, id, q))
  {
    hide HasFoldedPrefix;
    if HasFoldedPrefix(w, id, p) {
      PrefixAt(w, id, p, k);
    }
    if HasFoldedPrefix(w, id, q) {
      PrefixAt(w, id, q, k);
    }
  }

  lemma PrefixesAreDisjoint(w: World, id: string)
    requires w.Valid()
    ensures !(HasFoldedPrefix(w, id, REJECT) && HasFoldedPrefix(w, id, ALLOW))
    ensures !(HasFoldedPrefix(w, id, ASK) && HasFoldedPrefix(w, id, ALLOW))
  {
    PrefixesAreTrimmed();
    hide HasFoldedPrefix, TrimSpace, Trimmed;
    PrefixesExclude(w, id, REJECT, ALLOW, 0);
    PrefixesExclude(w, id, ASK, ALLOW, 1);
  }

  /** An id carries a prefix if, both in lower case and the prefix trimmed, it starts with it. */
  lemma PrefixIsFolded(w: World, id: string, prefix: string)
    ensures
      var p, lower := w.Lower(TrimSpace(prefix)), w.Lower(id);
      HasFoldedPrefix(w, id, prefix) <==> id != "" && |p| <= |lower| && lower[..|p|] == p
  {
    hide TrimSpace;
  }

  /** Some option carries the prefix. */
  predicate Offers(w: World, options: seq<PermissionOption>, prefix: string) {
    exists o :: o in options && HasFoldedPrefix(w, OptionIDValue(o), prefix)
  }

  /** The id is that of the first option that carries the prefix; the empty prefix is any id's. */
  predicate IsFirst(w: World, options: seq<PermissionOption>, prefix: string, id: string) {
    && HasFoldedPrefix(w, id, prefix)
    && exists i :: 0 <= i < |options| && OptionIDValue(options[i]) == id
         && forall j :: 0 <= j < i ==> !HasFoldedPrefix(w, OptionIDValue(options[j]), prefix)
  }

  lemma {:induction false} FirstIsFirst(w: World, options: seq<PermissionOption>, prefix: string) returns (i: nat)
    requires Offers(w, options, prefix)
    ensures i < |options| && OptionIDValue(options[i]) == FirstWithPrefix(w, options, prefix)
    ensures HasFoldedPrefix(w, FirstWithPrefix(w, options, prefix), prefix)
    ensures forall j :: 0 <= j < i ==> !HasFoldedPrefix(w, OptionIDValue(options[j]), prefix)
  {
    hide OptionIDValue, HasFoldedPrefix;
    if HasFoldedPrefix(w, OptionIDValue(options[0]), prefix) {
      i := 0;
      assert FirstWithPrefix(w, options, prefix) == OptionIDValue(options[0]);
    } else {
      i := FirstIsFirst(w, options[1..], prefix);
      i := i + 1;
    }
  }

  lemma FirstWithPrefixMeans(w: World, options: seq<PermissionOption>, prefix: string)
    ensures FirstWithPrefix(w, options, prefix) != "" <==> Offers(w, options, prefix)
    ensures Offers(w, options, prefix) ==> IsFirst(w, options, prefix, FirstWithPrefix(w, options, prefix))
  {
    hide OptionIDValue;
    if Offers(w, options, prefix) {
      var i := FirstIsFirst(w, options, prefix);
      hide FirstWithPrefix;
    }
  }

  /** The id the policy's answer comes down to: its choice, or else the fallback. */
  function FinalID(w: World, options: seq<PermissionOption>, d: Decision): string {
    if ChoiceFor(w, options, d) != "" then ChoiceFor(w, options, d) else SafeFallback(w, options)
  }

  /** The offered check never refuses what the policy chooses. */
  lemma PolicyReplyIsFinalID(w: World, options: seq<PermissionOption>, d: Decision)
    ensures
      var id := FinalID(w, options, d);
      ReplyTo(w, options, Chosen(ChoiceFor(w, options, d))) == if id == "" then MissingOptions else Selected(id)
  {
    hide OptionIDValue, HasFoldedPrefix, TrimSpace;
    var id := FinalID(w, options, d);
    assert TrimSpace("") == "";
    if id != "" {
      OfferedIsTrimmed(options, id);
    }
  }

  lemma FinalIDIsOffered(w: World, options: seq<PermissionOption>, d: Decision)
    ensures FinalID(w, options, d) != "" ==> Offered(options, FinalID(w, options, d))
  {
    hide OptionIDValue, HasFoldedPrefix, Offered;
  }

  predicate SomeID(options: seq<PermissionOption>) {
    exists o :: o in options && OptionIDValue(o) != ""
  }

  lemma FinalIDExists(w: World, options: seq<PermissionOption>, d: Decision)
    ensures FinalID(w, options, d) != "" <==> SomeID(options)
  {
    hide OptionIDValue, HasFoldedPrefix, FirstWithPrefix, FirstID;
  }

  lemma FinalIDIsNotAllow(w: World, options: seq<PermissionOption>, d: Decision)
    requires w.Valid() && d != Allow && Offers(w, options, REJECT)
    ensures !HasFoldedPrefix(w, FinalID(w, options, d), ALLOW)
  {
    FirstWithPrefixMeans(w, options, REJECT);
    hide OptionIDValue, HasFoldedPrefix, Offered, FirstID, Offers, IsFirst;
    var id := FinalID(w, options, d);
    assert HasFoldedPrefix(w, id, REJECT) || HasFoldedPrefix(w, id, ASK);
    hide *;
    PrefixesAreDisjoint(w, id);
  }

  /**
   The policy's answer is an offered id whenever some option has one, and otherwise reports that
   options are missing; if a reject option is offered, it starts with `allow_` only on an allow.
   */
  lemma PolicyReplyIsSafe(w: World, options: seq<PermissionOption>, d: Decision)
    requires w.Valid()
    ensures
      var reply := ReplyTo(w, options, Chosen(ChoiceFor(w, options, d)));
      && (if SomeID(options) then reply.Selected? && Offered(options, reply.optionID) else reply == MissingOptions)
      && (reply.Selected? && Offers(w, options, "reject_") && HasFoldedPrefix(w, reply.optionID, "allow_") ==>
            d == Allow)
  {
    assert REJECT == "reject_" && ALLOW == "allow_";
    hide *;
    PolicyReplyIsFinalID(w, options, d);
    FinalIDIsOffered(w, options, d);
    FinalIDExists(w, options, d);
    if Offers(w, options, REJECT) && d != Allow {
      FinalIDIsNotAllow(w, options, d);
    }
  }

  lemma {:induction false} FirstIDIsFirst(w: World, options: seq<PermissionOption>)
    ensures FirstID(options) == FirstWithPrefix(w, options, "")
  {
    assert TrimSpace("") == "";
    hide OptionIDValue, TrimSpace;
    if options != [] {
      FirstIDIsFirst(w, options[1..]);
    }
  }

  /** The prefix of the options a decision asks for. */
  function Wanted(d: Decision): Option<string> {
    match d
    case Deny => Some("reject_")
    case Ask => Some("ask_")
    case Allow => Some("allow_")
    case NoDecision => None
  }

  /**
   Which option each decision selects: the first one it asks for, and if none is offered, the first
   reject option, else the first allow option, else the first option with an id.
   */
  lemma PolicyReplyCases(w: World, options: seq<PermissionOption>, d: Decision, id: string)
    requires ReplyTo(w, options, Chosen(ChoiceFor(w, options, d))) == Selected(id)
    ensures
      if Wanted(d).Some? && Offers(w, options, Wanted(d).value) then IsFirst(w, options, Wanted(d).value, id)
      else if Offers(w, options, "reject_") then IsFirst(w, options, "reject_", id)
      else if Offers(w, options, "allow_") then IsFirst(w, options, "allow_", id)
      else IsFirst(w, options, "", id)
  {
    assert REJECT == "reject_" && ASK == "ask_" && ALLOW == "allow_";
    hide OptionIDValue, HasFoldedPrefix, ReplyTo, IsFirst, REJECT, ASK, ALLOW, TrimSpace, Offers;
    hide FirstWithPrefix, FirstID;
    PolicyReplyIsFinalID(w, options, d);
    FirstIDIsFirst(w, options);
    FirstWithPrefixMeans(w, options, REJECT);
    FirstWithPrefixMeans(w, options, ASK);
    FirstWithPrefixMeans(w, options, ALLOW);
    FirstWithPrefixMeans(w, options, "");
  }

  /**
   With any callback, from its choice: a choice that is not blank is the reply if the trimmed choice was offered and
   refused otherwise; for a blank one the reply is the first reject option, else the first allow option, else the
   first option with an id, and without any the options are missing. The id in the reply is an offered one exactly
   when the choice is blank or carries no surrounding white space.
   */
  lemma ReplyIsOfferedIff(w: World, options: seq<PermissionOption>, id: string)
    ensures ReplyTo(w, options, ChoiceError) == CallbackFailed
    ensures
      var reply, blank := ReplyTo(w, options, Chosen(id)), TrimSpace(id) == "";
      && (reply == NotOffered <==> !blank && !Offered(options, TrimSpace(id)))
      && (reply == MissingOptions <==> blank && !SomeID(options))
      && (reply.Selected? && !blank ==> reply.optionID == id)
      && (reply.Selected? && blank ==>
            if Offers(w, options, "reject_") then IsFirst(w, options, "reject_", reply.optionID)
            else if Offers(w, options, "allow_") then IsFirst(w, options, "allow_", reply.optionID)
            else IsFirst(w, options, "", reply.optionID))
      && (reply.Selected? || reply == NotOffered || reply == MissingOptions)
      && (reply.Selected? ==> (Offered(options, reply.optionID) <==> blank || TrimSpace(id) == id))
  {
    assert REJECT == "reject_" && ALLOW == "allow_";
    FirstIDIsFirst(w, options);
    FirstWithPrefixMeans(w, options, REJECT);
    FirstWithPrefixMeans(w, options, ALLOW);
    FirstWithPrefixMeans(w, options, "");
    hide TrimSpace, OptionIDValue, HasFoldedPrefix, FirstWithPrefix, FirstID, REJECT, ALLOW, Trimmed, IsFirst, Offers;
    var fallback := SafeFallback(w, options);
    assert TrimSpace("") == "";
    if fallback != "" {
      OfferedIsTrimmed(options, fallback);
    }
    if Offered(options, id) {
      OfferedIsTrimmed(options, id);
    }
  }

  lemma SpacedChoice(w: World, x: string)
    requires Trimmed(x) && x != ""
    ensures
      var options := [PermissionOption(x, "")];
      ReplyTo(w, options, Chosen(" " + x)) == Selected(" " + x) && !Offered(options, " " + x)
  {
    var o, id := PermissionOption(x, ""), " " + x;
    TrimLeadingSpace(x);
    assert TrimSpace(x) == x;
    hide TrimSpace, Trimmed, SafeFallback, HasFoldedPrefix;
    assert OptionIDValue(o) == x && [o][0] == o && |id| != |x|;
  }

  /** The family that fails is not empty: a leading space in the choice reaches the reply. */
  lemma ReplyIsOfferedExample(w: World)
    ensures
      var options := [PermissionOption("allow_once", "")];
      && ReplyTo(w, options, Chosen(" allow_once")) == Selected(" allow_once")
      && !Offered(options, " allow_once")
  {
    assert Trimmed("allow_once");
    hide *;
    assert " allow_once" == " " + "allow_once";
    SpacedChoice(w, "allow_once");
  }
}
