/**
 What the policy decides, said on its inputs: the names of the call, the rules, the commands the shell
 parser returns, the paths in the arguments and the text. `Policy` says how the decision is reached.
 */
module Verdicts {
  import opened Text
  import opened Platform
  import opened Wildcard
  import opened Rules
  import opened Paths
  import opened Args
  import opened Policy

  // ---------- rules and calls ----------

  /** A rule is about every call if its tool is `*`, and else about those whose kind or tool goes by its name. */
  predicate IsAbout(w: World, r: Rule, call: ToolCall) {
    || r.tool == "*"
    || (r.tool != "" && (r.tool == CanonicalToolName(w, call.kind) || r.tool == CanonicalToolName(w, call.name)))
  }

  lemma AboutIsToolMatches(w: World, r: Rule, call: ToolCall)
    ensures ToolMatches(w, r, call) <==> IsAbout(w, r, call)
  {
    hide CanonicalToolName;
  }

  ghost predicate SomeAbout(w: World, p: RuleSet, call: ToolCall) {
    exists r :: (r in p.deny || r in p.ask || r in p.allow) && IsAbout(w, r, call)
  }

  predicate GoesBy(w: World, call: ToolCall, name: string) {
    CanonicalToolName(w, call.kind) == name || CanonicalToolName(w, call.name) == name
  }

  predicate IsFileCall(w: World, call: ToolCall) {
    !GoesBy(w, call, "execute") && (GoesBy(w, call, "read") || GoesBy(w, call, "edit") || GoesBy(w, call, "delete"))
  }

  lemma KindsOfCall(w: World, call: ToolCall)
    ensures IsExecuteCall(w, call) <==> GoesBy(w, call, "execute")
    ensures IsFilesystemCall(w, call)
       <==> GoesBy(w, call, "read") || GoesBy(w, call, "edit") || GoesBy(w, call, "delete")
  {
    NamesOfKinds();
    hide CanonicalToolName, KindName;
  }

  // ---------- the law of a decision ----------

  /**
   With nothing to judge a call is denied if some rule is about it. Otherwise a deny rule on one subject denies, an
   ask rule on one asks if nothing denies, and the call is allowed if nothing denies or asks and everything is
   allowed; there is no decision in all other cases.
   */
  ghost predicate Lawful(d: Decision, about: bool, subjects: set<string>,
                         denied: set<string>, asked: set<string>, allowed: set<string>)
  {
    if subjects == {} then d == if about then Deny else NoDecision
    else
      && (d == Deny <==> denied != {})
      && (d == Ask <==> denied == {} && asked != {})
      && (d == Allow <==> denied == {} && asked == {} && allowed == subjects)
  }

  ghost predicate SomeHit(w: World, call: ToolCall, kind: Subject, rules: seq<Rule>, s: string) {
    exists r :: r in rules && Hit(w, call, kind, r, s)
  }

  lemma HitsAreSets(w: World, call: ToolCall, kind: Subject, rules: seq<Rule>, subjects: set<string>)
    ensures AnyHit(w, call, kind, rules, subjects)
       <==> (set s | s in subjects && SomeHit(w, call, kind, rules, s)) != {}
    ensures AllHit(w, call, kind, rules, subjects)
       <==> (set s | s in subjects && SomeHit(w, call, kind, rules, s)) == subjects
  {
    hide Hit;
    var hit := set s | s in subjects && SomeHit(w, call, kind, rules, s);
    if AnyHit(w, call, kind, rules, subjects) {
      var s, r :| s in subjects && r in rules && Hit(w, call, kind, r, s);
      assert SomeHit(w, call, kind, rules, s);
      assert s in hit;
    }
    if AllHit(w, call, kind, rules, subjects) {
      assert forall s :: s in subjects ==> SomeHit(w, call, kind, rules, s);
    }
    if hit == subjects {
      assert forall s :: s in subjects ==> s in hit;
    }
  }

  lemma AboutIsFailClosed(w: World, p: RuleSet, call: ToolCall)
    ensures FailClosed(w, p, call) == if SomeAbout(w, p, call) then Deny else NoDecision
  {
    forall r
      ensures ToolMatches(w, r, call) <==> IsAbout(w, r, call)
    {
      AboutIsToolMatches(w, r, call);
    }
    hide IsAbout, ToolMatches;
  }

  lemma JudgeIsLawful(w: World, p: RuleSet, call: ToolCall, kind: Subject, subjects: set<string>)
    ensures Lawful(Judge(w, p, call, kind, subjects), SomeAbout(w, p, call), subjects,
                   set s | s in subjects && SomeHit(w, call, kind, p.deny, s),
                   set s | s in subjects && SomeHit(w, call, kind, p.ask, s),
                   set s | s in subjects && SomeHit(w, call, kind, p.allow, s))
  {
    HitsAreSets(w, call, kind, p.deny, subjects);
    HitsAreSets(w, call, kind, p.ask, subjects);
    HitsAreSets(w, call, kind, p.allow, subjects);
    AboutIsFailClosed(w, p, call);
    hide AnyHit, AllHit, SomeHit, FailClosed, SomeAbout;
  }

  // ---------- scripts ----------

  /** What the pattern stands for, both in lower case and trimmed, newlines included. */
  predicate WildOn(w: World, pattern: string, command: string) {
    var p := w.Lower(TrimSpace(pattern));
    p != "" && Wild(p, w.Lower(TrimSpace(command)), true)
  }

  ghost predicate CoversCommand(w: World, call: ToolCall, rules: seq<Rule>, command: string) {
    exists r :: r in rules && IsAbout(w, r, call) && (!r.hasPattern || WildOn(w, r.pattern, command))
  }

  /** The simple commands of the script, if there is one that parses: white space evened out, blank ones dropped. */
  ghost function CommandsOf(w: World, args: RawArgs): set<string> {
    match ShellScript(args)
    case None => {}
    case Some(script) =>
      match w.shell(script)
      case None => {}
      case Some(texts) => set t | t in texts && NormalizeInlineSpaces(t) != "" :: NormalizeInlineSpaces(t)
  }

  /** Every command of the script is judged, and nothing else. */
  lemma {:induction false} NormalizedCommandsAre(texts: seq<string>, c: string)
    ensures c in NormalizedCommands(texts) <==> c != "" && exists t :: t in texts && NormalizeInlineSpaces(t) == c
  {
    hide NormalizeInlineSpaces;
    if texts != [] {
      NormalizedCommandsAre(texts[1..], c);
      assert texts == [texts[0]] + texts[1..];
    }
  }

  lemma CommandsAre(w: World, args: RawArgs)
    ensures CommandsOf(w, args)
         == match ShellCommands(w, args) case Some(cs) => Elements(cs) case None => {}
  {
    hide NormalizeInlineSpaces, NormalizedCommands, ShellScript;
    if ShellCommands(w, args).Some? {
      var texts := w.shell(ShellScript(args).value).value;
      forall c
        ensures c in CommandsOf(w, args) <==> c in NormalizedCommands(texts)
      {
        NormalizedCommandsAre(texts, c);
      }
    }
  }

  lemma CommandMatch(w: World, args: RawArgs, pattern: string, c: string)
    requires w.Valid() && c in CommandsOf(w, args)
    ensures GlobMatchFold(w, pattern, c) <==> WildOn(w, pattern, c)
  {
    hide GlobMatchFold, NormalizeInlineSpaces;
    var t :| t in w.shell(ShellScript(args).value).value && NormalizeInlineSpaces(t) == c;
    GlobMatchOnCommand(w, pattern, t);
  }

  lemma CommandHit(w: World, call: ToolCall, rules: seq<Rule>, c: string)
    requires w.Valid() && c in CommandsOf(w, call.args)
    ensures SomeHit(w, call, ShellCommand, rules, c) <==> CoversCommand(w, call, rules, c)
  {
    forall r
      ensures Hit(w, call, ShellCommand, r, c)
         <==> IsAbout(w, r, call) && (!r.hasPattern || WildOn(w, r.pattern, c))
    {
      AboutIsToolMatches(w, r, call);
      CommandMatch(w, call.args, r.pattern, c);
      hide GlobMatchFold, WildOn, ToolMatches, IsAbout, CommandsOf;
    }
    hide Hit, IsAbout, WildOn;
  }

  lemma CommandHits(w: World, call: ToolCall, rules: seq<Rule>)
    requires w.Valid()
    ensures (set c | c in CommandsOf(w, call.args) && SomeHit(w, call, ShellCommand, rules, c))
         == (set c | c in CommandsOf(w, call.args) && CoversCommand(w, call, rules, c))
  {
    forall c | c in CommandsOf(w, call.args)
      ensures SomeHit(w, call, ShellCommand, rules, c) <==> CoversCommand(w, call, rules, c)
    {
      CommandHit(w, call, rules, c);
    }
    hide CommandsOf, SomeHit, CoversCommand;
  }

  lemma CallIsScript(w: World, call: ToolCall, baseDir: string)
    requires GoesBy(w, call, "execute")
    ensures SubjectOf(w, call, baseDir) == (ShellCommand, CommandsOf(w, call.args))
  {
    KindsOfCall(w, call);
    CommandsAre(w, call.args);
    hide GoesBy, IsExecuteCall, CommandsOf, ShellCommands;
  }

  /** The decision on a script: every command the parser returns is held against the rules, newlines or not. */
  lemma ShellVerdict(w: World, p: RuleSet, call: ToolCall, baseDir: string)
    requires w.Valid() && GoesBy(w, call, "execute")
    ensures
      var commands := CommandsOf(w, call.args);
      Lawful(Verdict(w, p, call, baseDir), SomeAbout(w, p, call), commands,
             set c | c in commands && CoversCommand(w, call, p.deny, c),
             set c | c in commands && CoversCommand(w, call, p.ask, c),
             set c | c in commands && CoversCommand(w, call, p.allow, c))
  {
    CallIsScript(w, call, baseDir);
    CommandHits(w, call, p.deny);
    CommandHits(w, call, p.ask);
    CommandHits(w, call, p.allow);
    JudgeIsLawful(w, p, call, ShellCommand, CommandsOf(w, call.args));
    hide CommandsOf, SomeHit, CoversCommand, Judge, SubjectOf, Lawful, SomeAbout, GoesBy;
  }

  // ---------- files ----------

  /** Where the paths in the arguments lead; a path without a normal form leads nowhere. */
  ghost function TargetsOf(w: World, args: RawArgs, base: string): set<string> {
    set x | x in PathSet(w, args) && NormalizePathTarget(w, x, base).Some? :: NormalizePathTarget(w, x, base).value
  }

  ghost predicate CoversPath(w: World, call: ToolCall, rules: seq<Rule>, base: string, target: string) {
    exists r :: r in rules && IsAbout(w, r, call)
      && (!r.hasPattern
          || exists p, t :: NormalizePathTarget(w, r.pattern, base) == Some(p)
               && NormalizePathTarget(w, target, base) == Some(t) && w.doublestar(p, t))
  }

  lemma PathHit(w: World, call: ToolCall, rules: seq<Rule>, base: string, target: string)
    ensures SomeHit(w, call, PathUnder(base), rules, target) <==> CoversPath(w, call, rules, base, target)
  {
    forall r
      ensures ToolMatches(w, r, call) <==> IsAbout(w, r, call)
    {
      AboutIsToolMatches(w, r, call);
    }
    hide NormalizePathTarget, ToolMatches, IsAbout;
  }

  lemma PathHits(w: World, call: ToolCall, rules: seq<Rule>, base: string, targets: set<string>)
    ensures (set t | t in targets && SomeHit(w, call, PathUnder(base), rules, t))
         == (set t | t in targets && CoversPath(w, call, rules, base, t))
  {
    forall t
      ensures SomeHit(w, call, PathUnder(base), rules, t) <==> CoversPath(w, call, rules, base, t)
    {
      PathHit(w, call, rules, base, t);
    }
    hide SomeHit, CoversPath;
  }

  lemma CallIsFile(w: World, call: ToolCall, baseDir: string)
    requires IsFileCall(w, call)
    ensures
      var base := NormalizeBaseDir(w, baseDir);
      SubjectOf(w, call, baseDir) == (PathUnder(base), TargetsOf(w, call.args, NormalizeBaseDir(w, base)))
  {
    KindsOfCall(w, call);
    hide GoesBy, IsExecuteCall, IsFilesystemCall, NormalizePathTarget, NormalizeBaseDir, PathSet;
  }

  /** The decision on a file call: every path in the arguments that has a normal form is held against the rules. */
  lemma FileVerdict(w: World, p: RuleSet, call: ToolCall, baseDir: string)
    requires IsFileCall(w, call)
    ensures
      var base := NormalizeBaseDir(w, baseDir);
      var targets := TargetsOf(w, call.args, NormalizeBaseDir(w, base));
      Lawful(Verdict(w, p, call, baseDir), SomeAbout(w, p, call), targets,
             set t | t in targets && CoversPath(w, call, p.deny, base, t),
             set t | t in targets && CoversPath(w, call, p.ask, base, t),
             set t | t in targets && CoversPath(w, call, p.allow, base, t))
  {
    var base := NormalizeBaseDir(w, baseDir);
    var targets := TargetsOf(w, call.args, NormalizeBaseDir(w, base));
    CallIsFile(w, call, baseDir);
    PathHits(w, call, p.deny, base, targets);
    PathHits(w, call, p.ask, base, targets);
    PathHits(w, call, p.allow, base, targets);
    JudgeIsLawful(w, p, call, PathUnder(base), targets);
    hide TargetsOf, SomeHit, CoversPath, Judge, SubjectOf, Lawful, SomeAbout, IsFileCall, NormalizeBaseDir;
  }

  // ---------- other calls ----------

  /** A text is matched with newlines only under the pattern `*`; an empty one only by rules without a pattern. */
  ghost predicate CoversText(w: World, call: ToolCall, rules: seq<Rule>, text: string) {
    exists r :: r in rules && IsAbout(w, r, call)
      && (!r.hasPattern
          || (text != "" && w.Lower(TrimSpace(r.pattern)) != ""
              && Wild(w.Lower(TrimSpace(r.pattern)), w.Lower(TrimSpace(text)), w.Lower(TrimSpace(r.pattern)) == "*")))
  }

  lemma TextHit(w: World, call: ToolCall, rules: seq<Rule>, text: string)
    ensures SomeHit(w, call, FreeText, rules, text) <==> CoversText(w, call, rules, text)
  {
    forall r
      ensures ToolMatches(w, r, call) <==> IsAbout(w, r, call)
      ensures GlobMatchFold(w, r.pattern, text) <==>
        && w.Lower(TrimSpace(r.pattern)) != ""
        && Wild(w.Lower(TrimSpace(r.pattern)), w.Lower(TrimSpace(text)), w.Lower(TrimSpace(r.pattern)) == "*")
    {
      AboutIsToolMatches(w, r, call);
      GlobMatchIsWild(w, r.pattern, text);
    }
    hide GlobMatchFold, ToolMatches, IsAbout, TrimSpace, Wild;
  }

  /** The decision on any other call: deny before ask before allow, on its text. */
  lemma TextVerdict(w: World, p: RuleSet, call: ToolCall, baseDir: string)
    requires !GoesBy(w, call, "execute") && !IsFileCall(w, call)
    ensures
      var text := CommandLikeText(call.args);
      Verdict(w, p, call, baseDir) ==
        if CoversText(w, call, p.deny, text) then Deny
        else if CoversText(w, call, p.ask, text) then Ask
        else if CoversText(w, call, p.allow, text) then Allow
        else NoDecision
  {
    KindsOfCall(w, call);
    var text := CommandLikeText(call.args);
    TextHit(w, call, p.deny, text);
    TextHit(w, call, p.ask, text);
    TextHit(w, call, p.allow, text);
    hide GoesBy, IsExecuteCall, IsFilesystemCall, CoversText, CommandLikeText;
    assert SubjectOf(w, call, baseDir) == (FreeText, {text});
    OneSubject(w, p, call, text);
  }

  lemma OneSubject(w: World, p: RuleSet, call: ToolCall, text: string)
    ensures Judge(w, p, call, FreeText, {text}) ==
      if SomeHit(w, call, FreeText, p.deny, text) then Deny
      else if SomeHit(w, call, FreeText, p.ask, text) then Ask
      else if SomeHit(w, call, FreeText, p.allow, text) then Allow
      else NoDecision
  {
    hide Hit;
    assert text in {text};
  }

  // ---------- fail closed ----------

  /**
   A script that is missing, does not parse or has no commands, and a file call without a usable path, are denied
   exactly if some rule of any list is about the call; otherwise there is no decision. They are never allowed.
   */
  lemma FailsClosed(w: World, p: RuleSet, call: ToolCall, baseDir: string)
    requires w.Valid()
    requires
      || (GoesBy(w, call, "execute")
          && (ShellScript(call.args).None?
              || w.shell(ShellScript(call.args).value).None?
              || forall t :: t in w.shell(ShellScript(call.args).value).value ==> NormalizeInlineSpaces(t) == ""))
      || (IsFileCall(w, call)
          && forall x :: x in PathSet(w, call.args) ==>
               NormalizePathTarget(w, x, NormalizeBaseDir(w, NormalizeBaseDir(w, baseDir))).None?)
    ensures Verdict(w, p, call, baseDir) == if SomeAbout(w, p, call) then Deny else NoDecision
  {
    if GoesBy(w, call, "execute") {
      ShellVerdict(w, p, call, baseDir);
      hide Verdict, SomeAbout, NormalizeInlineSpaces, ShellScript, CoversCommand;
      assert CommandsOf(w, call.args) == {};
    } else {
      FileVerdict(w, p, call, baseDir);
      hide Verdict, SomeAbout, NormalizePathTarget, NormalizeBaseDir, PathSet, CoversPath;
      assert TargetsOf(w, call.args, NormalizeBaseDir(w, NormalizeBaseDir(w, baseDir))) == {};
    }
  }
}
