/**
 The policy's decision. The methods follow the source, including its visits of maps in
 arbitrary order; `Verdict` is the order-free decision they are proved to reach, and the
 laws of the decision are lemmas about `Verdict`.
 */
module Policy {
  import opened Text
  import opened Platform
  import opened Wildcard
  import opened Rules
  import opened Paths
  import opened Args

  datatype Decision = NoDecision | Allow | Deny | Ask

  datatype RuleSet = RuleSet(allow: seq<Rule>, deny: seq<Rule>, ask: seq<Rule>)

  datatype ToolCall = ToolCall(kind: string, name: string, args: RawArgs)

  /** What a pattern is held against: a shell command, the text of a generic call, or a path. */
  datatype Subject = ShellCommand | FreeText | PathUnder(baseDir: string)

  function Elements(s: seq<string>): set<string> {
    set x | x in s
  }

  // ---------- the order-free decision ----------

  function Candidates(w: World, call: ToolCall): set<string> {
    {CanonicalToolName(w, call.kind), CanonicalToolName(w, call.name)} - {""}
  }

  predicate ToolMatches(w: World, r: Rule, call: ToolCall) {
    r.tool == "*" || r.tool in Candidates(w, call)
  }

  ghost predicate HasToolRule(w: World, call: ToolCall, rules: seq<Rule>) {
    exists r :: r in rules && ToolMatches(w, r, call)
  }

  /** Patterns and targets are normalised alike before they are matched. */
  predicate PathGlobMatch(w: World, pattern: string, target: string, baseDir: string) {
    var p, t := NormalizePathTarget(w, pattern, baseDir), NormalizePathTarget(w, target, baseDir);
    p.Some? && t.Some? && w.doublestar(p.value, t.value)
  }

  predicate PatternMatches(w: World, kind: Subject, pattern: string, s: string) {
    match kind
    case ShellCommand => GlobMatchFold(w, pattern, s)
    case FreeText => s != "" && GlobMatchFold(w, pattern, s)
    case PathUnder(baseDir) => PathGlobMatch(w, pattern, s, baseDir)
  }

  predicate Hit(w: World, call: ToolCall, kind: Subject, r: Rule, s: string) {
    ToolMatches(w, r, call) && (!r.hasPattern || PatternMatches(w, kind, r.pattern, s))
  }

  ghost predicate AnyHit(w: World, call: ToolCall, kind: Subject, rules: seq<Rule>, subjects: set<string>) {
    exists s, r :: s in subjects && r in rules && Hit(w, call, kind, r, s)
  }

  ghost predicate AllHit(w: World, call: ToolCall, kind: Subject, rules: seq<Rule>, subjects: set<string>) {
    forall s :: s in subjects ==> exists r :: r in rules && Hit(w, call, kind, r, s)
  }

  /** With nothing to judge, a call some rule is about is denied. */
  ghost function FailClosed(w: World, p: RuleSet, call: ToolCall): Decision {
    if HasToolRule(w, call, p.deny) || HasToolRule(w, call, p.ask) || HasToolRule(w, call, p.allow) then Deny
    else NoDecision
  }

  ghost function Judge(w: World, p: RuleSet, call: ToolCall, kind: Subject, subjects: set<string>): Decision {
    if subjects == {} then FailClosed(w, p, call)
    else if AnyHit(w, call, kind, p.deny, subjects) then Deny
    else if AnyHit(w, call, kind, p.ask, subjects) then Ask
    else if AllHit(w, call, kind, p.allow, subjects) then Allow
    else NoDecision
  }

  /** The normalised simple commands of a script, blank ones dropped. */
  function NormalizedCommands(texts: seq<string>): seq<string> {
    if texts == [] then []
    else
      var text := NormalizeInlineSpaces(texts[0]);
      (if text == "" then [] else [text]) + NormalizedCommands(texts[1..])
  }

  /** `None` is a missing script or a parse error. */
  function ShellCommands(w: World, args: RawArgs): Option<seq<string>> {
    match ShellScript(args)
    case None => None
    case Some(script) =>
      match w.shell(script)
      case None => None
      case Some(texts) => Some(NormalizedCommands(texts))
  }

  /** The normalised forms of the paths that have one. */
  ghost function Targets(w: World, paths: set<string>, baseDir: string): set<string> {
    set x | x in paths && NormalizePathTarget(w, x, baseDir).Some? :: NormalizePathTarget(w, x, baseDir).value
  }

  predicate IsExecuteCall(w: World, call: ToolCall) {
    KindName(Execute) in Candidates(w, call)
  }

  predicate IsFilesystemCall(w: World, call: ToolCall) {
    || KindName(Read) in Candidates(w, call)
    || KindName(Edit) in Candidates(w, call)
    || KindName(Delete) in Candidates(w, call)
  }

  /** What the call is judged as, and what there is to judge. */
  ghost function SubjectOf(w: World, call: ToolCall, baseDir: string): (Subject, set<string>) {
    var base := NormalizeBaseDir(w, baseDir);
    if IsExecuteCall(w, call) then
      (ShellCommand, match ShellCommands(w, call.args) case Some(cs) => Elements(cs) case None => {})
    else if IsFilesystemCall(w, call) then
      (PathUnder(base), Targets(w, PathSet(w, call.args), NormalizeBaseDir(w, base)))
    else (FreeText, {CommandLikeText(call.args)})
  }

  ghost function Verdict(w: World, p: RuleSet, call: ToolCall, baseDir: string): Decision {
    var (kind, subjects) := SubjectOf(w, call, baseDir);
    Judge(w, p, call, kind, subjects)
  }

  // ---------- the evaluator ----------

  /** The keys of a map, in the arbitrary order of an iteration over it. */
  method KeysInSomeOrder(keys: set<string>) returns (order: seq<string>)
    ensures Elements(order) == keys && NoDuplicates(order)
  {
    order := [];
    var left := keys;
    while left != {}
      invariant left <= keys && Elements(order) == keys - left
      invariant NoDuplicates(order)
      decreases |left|
    {
      var k :| k in left;
      assert k !in Elements(order);
      assert Elements(order + [k]) == Elements(order) + {k};
      order := order + [k];
      left := left - {k};
    }
  }

  method ToolCandidates(w: World, call: ToolCall) returns (names: seq<string>)
    ensures Elements(names) == Candidates(w, call) && NoDuplicates(names)
  {
    hide CanonicalToolName;
    var seen: set<string> := {};
    var kind, name := CanonicalToolName(w, call.kind), CanonicalToolName(w, call.name);
    if kind != "" {
      seen := seen + {kind};
    }
    if name != "" {
      seen := seen + {name};
    }
    assert seen == Candidates(w, call);
    names := KeysInSomeOrder(seen);
  }

  method MatchesTool(w: World, r: Rule, call: ToolCall) returns (matches: bool)
    ensures matches == ToolMatches(w, r, call)
  {
    hide Candidates;
    if r.tool == "*" {
      return true;
    }
    var names := ToolCandidates(w, call);
    assert forall x :: x in names <==> x in Elements(names);
    for i := 0 to |names|
      invariant r.tool !in names[..i]
    {
      if names[i] == r.tool {
        return true;
      }
    }
    return false;
  }

  method HasMatchingToolRule(w: World, call: ToolCall, rules: seq<Rule>) returns (found: bool)
    ensures found == HasToolRule(w, call, rules)
  {
    hide ToolMatches;
    for i := 0 to |rules|
      invariant forall j :: 0 <= j < i ==> !ToolMatches(w, rules[j], call)
    {
      var matches := MatchesTool(w, rules[i], call);
      if matches {
        return true;
      }
    }
    return false;
  }

  /** The first rule that hits, in rule order. */
  method SomeRuleHits(w: World, call: ToolCall, kind: Subject, s: string, rules: seq<Rule>) returns (found: bool)
    ensures found == exists r :: r in rules && Hit(w, call, kind, r, s)
  {
    hide ToolMatches, PatternMatches;
    for i := 0 to |rules|
      invariant forall j :: 0 <= j < i ==> !Hit(w, call, kind, rules[j], s)
    {
      var matches := MatchesTool(w, rules[i], call);
      if matches && (!rules[i].hasPattern || PatternMatches(w, kind, rules[i].pattern, s)) {
        assert Hit(w, call, kind, rules[i], s);
        return true;
      }
    }
    return false;
  }

  method AnyMatches(w: World, call: ToolCall, kind: Subject, subjects: seq<string>, rules: seq<Rule>)
    returns (found: bool)
    ensures found == AnyHit(w, call, kind, rules, Elements(subjects))
  {
    hide Hit;
    for i := 0 to |subjects|
      invariant forall j, r :: 0 <= j < i && r in rules ==> !Hit(w, call, kind, r, subjects[j])
    {
      found := SomeRuleHits(w, call, kind, subjects[i], rules);
      if found {
        return true;
      }
    }
    return false;
  }

  method AllAllowed(w: World, call: ToolCall, kind: Subject, subjects: seq<string>, rules: seq<Rule>)
    returns (allowed: bool)
    ensures allowed == (subjects != [] && AllHit(w, call, kind, rules, Elements(subjects)))
  {
    hide ToolMatches, PatternMatches;
    if |subjects| == 0 {
      return false;
    }
    var hasAllowRule := HasMatchingToolRule(w, call, rules);
    if !hasAllowRule {
      assert subjects[0] in Elements(subjects);
      return false;
    }
    for i := 0 to |subjects|
      invariant forall j :: 0 <= j < i ==> exists r :: r in rules && Hit(w, call, kind, r, subjects[j])
    {
      var matched := SomeRuleHits(w, call, kind, subjects[i], rules);
      if !matched {
        assert subjects[i] in Elements(subjects);
        return false;
      }
    }
    return true;
  }

  method NormalizeTargetPaths(w: World, paths: seq<string>, baseDir: string) returns (targets: seq<string>)
    ensures Elements(targets) == Targets(w, Elements(paths), NormalizeBaseDir(w, baseDir))
    ensures NoDuplicates(targets)
  {
    hide NormalizePathTarget, NormalizeBaseDir;
    var base := NormalizeBaseDir(w, baseDir);
    targets := [];
    var seen: set<string> := {};
    for i := 0 to |paths|
      invariant Elements(targets) == seen == Targets(w, Elements(paths[..i]), base)
      invariant NoDuplicates(targets)
    {
      assert Elements(paths[..i + 1]) == Elements(paths[..i]) + {paths[i]};
      match NormalizePathTarget(w, paths[i], base) {
        case None =>
        case Some(normalized) =>
          if normalized !in seen {
            assert normalized !in Elements(targets);
            seen := seen + {normalized};
            targets := targets + [normalized];
          }
      }
    }
    assert paths[..|paths|] == paths;
  }

  method DecideFailClosed(w: World, p: RuleSet, call: ToolCall) returns (d: Decision)
    ensures d == FailClosed(w, p, call)
  {
    hide HasToolRule;
    var deny := HasMatchingToolRule(w, call, p.deny);
    var ask := HasMatchingToolRule(w, call, p.ask);
    var allow := HasMatchingToolRule(w, call, p.allow);
    d := if deny || ask || allow then Deny else NoDecision;
  }

  /** Deny before ask before allow; everything must be allowed. */
  method DecideSubjects(w: World, p: RuleSet, call: ToolCall, kind: Subject, subjects: seq<string>)
    returns (d: Decision)
    ensures d == Judge(w, p, call, kind, Elements(subjects))
  {
    hide AnyHit, AllHit, FailClosed;
    if |subjects| == 0 {
      d := DecideFailClosed(w, p, call);
      return;
    }
    assert subjects[0] in Elements(subjects);
    var denied := AnyMatches(w, call, kind, subjects, p.deny);
    if denied {
      return Deny;
    }
    var asked := AnyMatches(w, call, kind, subjects, p.ask);
    if asked {
      return Ask;
    }
    var allowed := AllAllowed(w, call, kind, subjects, p.allow);
    return if allowed then Allow else NoDecision;
  }

  /** The decision is a function of the call and the rules, whatever order maps are visited in. */
  method Decide(w: World, p: RuleSet, call: ToolCall, baseDir: string) returns (d: Decision)
    ensures d == Verdict(w, p, call, baseDir)
  {
    hide Judge, Candidates, PathSet, ShellCommands, CommandLikeText, NormalizeBaseDir, NormalizePathTarget;
    var base := NormalizeBaseDir(w, baseDir);
    var names := ToolCandidates(w, call);
    assert forall x :: x in names <==> x in Candidates(w, call) by {
      assert forall x :: x in names <==> x in Elements(names);
    }
    if KindName(Execute) in names {
      var commands := match ShellCommands(w, call.args) case Some(cs) => cs case None => [];
      d := DecideSubjects(w, p, call, ShellCommand, commands);
      assert Elements([]) == {};
    } else if KindName(Read) in names || KindName(Edit) in names || KindName(Delete) in names {
      var paths := ExtractCandidatePaths(w, call.args);
      var targets := [];
      if paths.Some? {
        targets := NormalizeTargetPaths(w, paths.value, base);
        assert Elements(paths.value) == PathSet(w, call.args);
      }
      assert Elements(targets) == Targets(w, PathSet(w, call.args), NormalizeBaseDir(w, base));
      d := DecideSubjects(w, p, call, PathUnder(base), targets);
    } else {
      var text := CommandLikeText(call.args);
      d := DecideSubjects(w, p, call, FreeText, [text]);
      assert Elements([text]) == {text};
    }
  }

  // ---------- laws ----------

  /** Deny below ask below no decision below allow. */
  function Rank(d: Decision): nat {
    match d
    case Deny => 0
    case Ask => 1
    case NoDecision => 2
    case Allow => 3
  }

  function Meet(a: Decision, b: Decision): Decision {
    if Rank(a) <= Rank(b) then a else b
  }

  /** Judging two non-empty lists together is the stricter of judging each. */
  lemma JudgeIsMeet(w: World, p: RuleSet, call: ToolCall, kind: Subject, a: seq<string>, b: seq<string>)
    requires a != [] && b != []
    ensures Judge(w, p, call, kind, Elements(a + b))
         == Meet(Judge(w, p, call, kind, Elements(a)), Judge(w, p, call, kind, Elements(b)))
  {
    assert a[0] in Elements(a) && b[0] in Elements(b);
    assert Elements(a + b) == Elements(a) + Elements(b);
    MeetTable(w, p, call, kind, Elements(a), Elements(b));
  }

  lemma AnyHitUnion(w: World, call: ToolCall, kind: Subject, rules: seq<Rule>, a: set<string>, b: set<string>)
    ensures AnyHit(w, call, kind, rules, a + b) <==> AnyHit(w, call, kind, rules, a) || AnyHit(w, call, kind, rules, b)
  {
    hide Hit;
  }

  lemma AllHitUnion(w: World, call: ToolCall, kind: Subject, rules: seq<Rule>, a: set<string>, b: set<string>)
    ensures AllHit(w, call, kind, rules, a + b) <==> AllHit(w, call, kind, rules, a) && AllHit(w, call, kind, rules, b)
  {
    hide Hit;
  }

  lemma MeetTable(w: World, p: RuleSet, call: ToolCall, kind: Subject, a: set<string>, b: set<string>)
    requires a != {} && b != {}
    ensures Judge(w, p, call, kind, a + b) == Meet(Judge(w, p, call, kind, a), Judge(w, p, call, kind, b))
  {
    AnyHitUnion(w, call, kind, p.deny, a, b);
    AnyHitUnion(w, call, kind, p.ask, a, b);
    AllHitUnion(w, call, kind, p.allow, a, b);
    hide AnyHit, AllHit;
  }

  ghost predicate Covers(more: seq<Rule>, rules: seq<Rule>) {
    forall r :: r in rules ==> r in more
  }

  /** More deny rules can only turn a decision into deny. */
  lemma MoreDeny(w: World, p: RuleSet, call: ToolCall, baseDir: string, deny: seq<Rule>)
    requires Covers(deny, p.deny)
    ensures var d := Verdict(w, p.(deny := deny), call, baseDir); d == Deny || d == Verdict(w, p, call, baseDir)
  {
    hide Hit, SubjectOf, ToolMatches;
  }

  /** More ask rules can only make a decision stricter. */
  lemma MoreAsk(w: World, p: RuleSet, call: ToolCall, baseDir: string, ask: seq<Rule>)
    requires Covers(ask, p.ask)
    ensures Rank(Verdict(w, p.(ask := ask), call, baseDir)) <= Rank(Verdict(w, p, call, baseDir))
  {
    hide Hit, SubjectOf, ToolMatches;
  }

  /** More allow rules never change a decision that was made. */
  lemma MoreAllow(w: World, p: RuleSet, call: ToolCall, baseDir: string, allow: seq<Rule>)
    requires Covers(allow, p.allow)
    ensures var d := Verdict(w, p, call, baseDir); d == NoDecision || Verdict(w, p.(allow := allow), call, baseDir) == d
  {
    hide Hit, SubjectOf, ToolMatches;
  }

  /** Only which rules are listed matters: not their order, not repetitions. */
  lemma RuleOrderIsIrrelevant(w: World, p: RuleSet, q: RuleSet, call: ToolCall, baseDir: string)
    requires Covers(p.deny, q.deny) && Covers(q.deny, p.deny)
    requires Covers(p.ask, q.ask) && Covers(q.ask, p.ask)
    requires Covers(p.allow, q.allow) && Covers(q.allow, p.allow)
    ensures Verdict(w, p, call, baseDir) == Verdict(w, q, call, baseDir)
  {
    hide Hit, SubjectOf, ToolMatches;
  }

  /** A rule whose tool name is empty is about no call. */
  lemma EmptyToolMatchesNothing(w: World, r: Rule, call: ToolCall)
    requires r.tool == ""
    ensures !ToolMatches(w, r, call)
  {
    hide CanonicalToolName;
  }

  /** A normalised target without trailing white space is matched as it stands. */
  lemma PathMatchOnTarget(w: World, pattern: string, target: string, baseDir: string)
    requires w.Valid() && NormalizePathTarget(w, target, baseDir).Some?
    requires var n := NormalizePathTarget(w, target, baseDir).value; !IsSpace(n[|n| - 1])
    ensures
      var n := NormalizePathTarget(w, target, baseDir).value;
      var p := NormalizePathTarget(w, pattern, baseDir);
      PathGlobMatch(w, pattern, n, baseDir) <==> p.Some? && w.doublestar(p.value, n)
  {
    hide NormalizePathTarget;
    RenormalizeIff(w, target, baseDir, baseDir);
  }
}
