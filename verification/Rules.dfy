/**
 Policy rules: the canonical tool names, the rule syntax `tool` / `tool(pattern)`, and
 its printable normal form.
 */
module Rules {
  import opened Text
  import opened Platform

  datatype Rule = Rule(tool: string, pattern: string, hasPattern: bool)

  datatype ParsedRule = Parsed(rule: Rule) | EmptyRule | BadSyntax(raw: string)

  /** The tool kinds with a canonical name of their own. */
  datatype Kind = Unnamed | AnyTool | Execute | Read | Edit | Delete

  function KindName(k: Kind): string {
    match k
    case Unnamed => ""
    case AnyTool => "*"
    case Execute => "execute"
    case Read => "read"
    case Edit => "edit"
    case Delete => "delete"
  }

  /** The kind a name in lower case stands for, if it is one of the listed ones. */
  function KindOf(s: string): Option<Kind> {
    if s == "" || s == "unknown" then Some(Unnamed)
    else if s == "*" then Some(AnyTool)
    else if s in ["bash", "execute", "shell", "command"] then Some(Execute)
    else if s in ["read", "fs_read", "file_read"] then Some(Read)
    else if s in ["edit", "write", "fs_write", "file_write"] then Some(Edit)
    else if s in ["delete", "remove", "unlink", "fs_delete", "file_delete"] then Some(Delete)
    else None
  }

  /** A listed name becomes the name of its kind; any other is kept, trimmed and in lower case. */
  function CanonicalToolName(w: World, raw: string): string {
    var s := w.Lower(TrimSpace(raw));
    match KindOf(s)
    case Some(k) => KindName(k)
    case None => s
  }

  lemma KindTable(s: string)
    ensures KindOf(s) == Some(Execute) <==> s in {"bash", "execute", "shell", "command"}
    ensures KindOf(s) == Some(Read) <==> s in {"read", "fs_read", "file_read"}
    ensures KindOf(s) == Some(Edit) <==> s in {"edit", "write", "fs_write", "file_write"}
    ensures KindOf(s) == Some(Delete) <==> s in {"delete", "remove", "unlink", "fs_delete", "file_delete"}
    ensures KindOf(s) == Some(Unnamed) <==> s in {"", "unknown"}
    ensures KindOf(s) == Some(AnyTool) <==> s == "*"
  {
  }

  lemma KindNamesDiffer(k: Kind, l: Kind)
    ensures KindName(k) == KindName(l) <==> k == l
  {
  }

  /** The names that mean each tool, and what becomes of every other name. */
  lemma CanonicalNames(w: World, raw: string)
    ensures
      var s, c := w.Lower(TrimSpace(raw)), CanonicalToolName(w, raw);
      && (c == "execute" <==> s in {"bash", "execute", "shell", "command"})
      && (c == "read" <==> s in {"read", "fs_read", "file_read"})
      && (c == "edit" <==> s in {"edit", "write", "fs_write", "file_write"})
      && (c == "delete" <==> s in {"delete", "remove", "unlink", "fs_delete", "file_delete"})
      && (c == "" <==> s in {"", "unknown"})
      && (c !in {"execute", "read", "edit", "delete", ""} ==> c == s)
  {
    var s, c := w.Lower(TrimSpace(raw)), CanonicalToolName(w, raw);
    KindTable(s);
    NamesOfKinds();
    hide TrimSpace, KindOf, KindName;
    if KindOf(s).Some? {
      var k := KindOf(s).value;
      KindNamesDiffer(k, Execute);
      KindNamesDiffer(k, Read);
      KindNamesDiffer(k, Edit);
      KindNamesDiffer(k, Delete);
      KindNamesDiffer(k, Unnamed);
    }
  }

  lemma NamesOfKinds()
    ensures KindName(Execute) == "execute" && KindName(Read) == "read" && KindName(Edit) == "edit"
    ensures KindName(Delete) == "delete" && KindName(Unnamed) == "" && KindName(AnyTool) == "*"
  {
  }

  function ParseRule(w: World, raw: string): ParsedRule {
    ParseTrimmed(w, TrimSpace(raw))
  }

  function ParseTrimmed(w: World, raw: string): ParsedRule {
    if raw == "" then EmptyRule
    else if '(' !in raw && ')' !in raw then Parsed(Rule(CanonicalToolName(w, raw), "", false))
    else
      var left, right := IndexOf(raw, '('), LastIndexOf(raw, ')');
      if left <= 0 || right != |raw| - 1 || right <= left then BadSyntax(raw)
      else
        var tool := CanonicalToolName(w, raw[..left]);
        var pattern := TrimSpace(raw[left + 1..right]);
        if tool == "" then BadSyntax(raw)
        else Parsed(Rule(tool, if pattern == "" then "*" else pattern, true))
  }

  function PrintRule(r: Rule): string {
    if r.hasPattern then r.tool + "(" + r.pattern + ")" else r.tool
  }

  /** The rules with a tool that some text denotes. */
  predicate NormalRule(w: World, r: Rule) {
    && r.tool != "" && CanonicalToolName(w, r.tool) == r.tool && '(' !in r.tool
    && (if r.hasPattern then r.pattern != "" && Trimmed(r.pattern) else r.pattern == "" && ')' !in r.tool)
  }

  lemma KindNamesAreFixed(k: Kind)
    ensures KindOf(KindName(k)) == Some(k)
  {
  }

  lemma KindNamesArePlain(k: Kind)
    ensures forall i :: 0 <= i < |KindName(k)| ==> 'a' <= KindName(k)[i] <= 'z' || KindName(k)[i] == '*'
  {
  }

  lemma LowerOfAscii(w: World, s: string)
    requires w.Valid()
    requires forall k :: 0 <= k < |s| ==> 'a' <= s[k] <= 'z' || Plain(s[k])
    ensures w.Lower(s) == s
  {
  }

  /** Canonical names are trimmed and already canonical. */
  lemma CanonicalIsIdempotent(w: World, raw: string)
    requires w.Valid()
    ensures var c := CanonicalToolName(w, raw); Trimmed(c) && CanonicalToolName(w, c) == c
  {
    var s := w.Lower(TrimSpace(raw));
    match KindOf(s) {
      case Some(k) => CanonicalOfKind(w, k);
      case None => LowerTrimmedTwice(w, raw);
    }
  }

  lemma CanonicalOfPlain(w: World, name: string)
    requires w.Valid() && forall i :: 0 <= i < |name| ==> 'a' <= name[i] <= 'z' || name[i] == '*'
    ensures Trimmed(name) && w.Lower(TrimSpace(name)) == name
  {
    LowerOfAscii(w, name);
    assert Trimmed(name);
    hide TrimSpace;
  }

  lemma CanonicalOfKind(w: World, k: Kind)
    requires w.Valid()
    ensures Trimmed(KindName(k)) && CanonicalToolName(w, KindName(k)) == KindName(k)
  {
    KindNamesArePlain(k);
    KindNamesAreFixed(k);
    hide KindName, KindOf, TrimSpace, Trimmed;
    CanonicalOfPlain(w, KindName(k));
  }

  lemma LowerTrimmedTwice(w: World, raw: string)
    requires w.Valid()
    ensures var s := w.Lower(TrimSpace(raw)); Trimmed(s) && w.Lower(TrimSpace(s)) == s
  {
    LowerKeepsTrimmed(w.lower, TrimSpace(raw));
    hide TrimSpace;
    var s := w.Lower(TrimSpace(raw));
    assert w.Lower(s) == s;
  }

  /** A canonical name has a parenthesis only if the text it comes from has it. */
  lemma CanonicalAddsNoParenthesis(w: World, raw: string, c: char)
    requires w.Valid() && Plain(c) && c !in raw && c in "()"
    ensures c !in CanonicalToolName(w, raw)
  {
    TrimPicks(raw);
    var t := TrimSpace(raw);
    match KindOf(w.Lower(t)) {
      case Some(k) => KindNamesArePlain(k);
      case None =>
    }
    forall k | 0 <= k < |t|
      ensures w.Lower(t)[k] != c
    {
      assert t[k] in t;
    }
  }

  /** Every rule with a tool that comes out of parsing is normal. */
  lemma ParsedRulesAreNormal(w: World, t: string)
    requires w.Valid() && ParseTrimmed(w, t).Parsed? && ParseTrimmed(w, t).rule.tool != ""
    ensures NormalRule(w, ParseTrimmed(w, t).rule)
  {
    hide CanonicalToolName;
    if '(' !in t && ')' !in t {
      CanonicalIsIdempotent(w, t);
      CanonicalAddsNoParenthesis(w, t, '(');
      CanonicalAddsNoParenthesis(w, t, ')');
    } else {
      var left := IndexOf(t, '(');
      CanonicalIsIdempotent(w, t[..left]);
      CanonicalAddsNoParenthesis(w, t[..left], '(');
    }
  }

  lemma FirstParenthesis(a: string, c: char, b: string)
    requires c !in a
    ensures IndexOf(a + [c] + b, c) == |a|
  {
    var s := a + [c] + b;
    var i := IndexOf(s, c);
    assert s[|a|] == c && s[..|a|] == a;
    assert forall k :: 0 <= k < |a| ==> s[k] == a[k];
  }

  lemma PatternPrintParses(w: World, tool: string, pattern: string)
    requires tool != "" && '(' !in tool && CanonicalToolName(w, tool) == tool
    requires pattern != "" && Trimmed(pattern)
    ensures ParseTrimmed(w, tool + "(" + pattern + ")") == Parsed(Rule(tool, pattern, true))
  {
    assert TrimSpace(pattern) == pattern;
    hide CanonicalToolName, TrimSpace, Trimmed, IndexOf, LastIndexOf;
    var text := tool + "(" + pattern + ")";
    assert text == tool + ['('] + (pattern + ")");
    FirstParenthesis(tool, '(', pattern + ")");
    assert text[|text| - 1] == ')' && LastIndexOf(text, ')') == |text| - 1;
    assert text[..|tool|] == tool;
    assert text[|tool| + 1..|text| - 1] == pattern;
  }

  /** Printing a normal rule and parsing the text again gives the rule back. */
  lemma PrintThenParse(w: World, r: Rule)
    requires w.Valid() && NormalRule(w, r)
    ensures ParseRule(w, PrintRule(r)) == Parsed(r)
  {
    hide CanonicalToolName, ParseTrimmed;
    CanonicalIsIdempotent(w, r.tool);
    if r.hasPattern {
      PatternPrintParses(w, r.tool, r.pattern);
      assert PrintRule(r)[|PrintRule(r)| - 1] == ')';
    } else {
      NamePrintParses(w, r.tool);
    }
  }

  lemma NamePrintParses(w: World, tool: string)
    requires tool != "" && '(' !in tool && ')' !in tool && CanonicalToolName(w, tool) == tool
    ensures ParseTrimmed(w, tool) == Parsed(Rule(tool, "", false))
  {
    hide CanonicalToolName;
  }

  /** The normal rules are exactly what parsing can return with a tool, and printing inverts it. */
  lemma NormalFormTheorem(w: World, r: Rule)
    requires w.Valid()
    ensures NormalRule(w, r) <==> r.tool != "" && exists raw :: ParseRule(w, raw) == Parsed(r)
    ensures NormalRule(w, r) ==> ParseRule(w, PrintRule(r)) == Parsed(r)
  {
    if NormalRule(w, r) {
      PrintThenParse(w, r);
    }
    forall raw | ParseRule(w, raw) == Parsed(r) && r.tool != ""
      ensures NormalRule(w, r)
    {
      ParsedRulesAreNormal(w, TrimSpace(raw));
    }
  }

  predicate HasToolAndPattern(w: World, t: string, a: string, b: string) {
    t == a + "(" + b + ")" && '(' !in a && CanonicalToolName(w, a) != ""
  }

  /** Which texts are accepted at all: a plain name, or a named tool before a pattern that ends the text. */
  lemma ParseRuleAccepts(w: World, t: string)
    ensures ParseTrimmed(w, t).Parsed? <==>
      || (t != "" && '(' !in t && ')' !in t)
      || exists a, b :: HasToolAndPattern(w, t, a, b)
  {
    hide CanonicalToolName, ParseTrimmed, TrimSpace;
    if ParseTrimmed(w, t).Parsed? && !('(' !in t && ')' !in t) {
      var a, b := AcceptedParts(w, t);
    }
    if '(' !in t && ')' !in t {
      PlainNameAccepted(w, t);
    }
    forall a, b | HasToolAndPattern(w, t, a, b)
      ensures ParseTrimmed(w, t).Parsed?
    {
      NoNameNoTool(w);
      AcceptsToolAndPattern(w, a, b);
    }
  }

  lemma PlainNameAccepted(w: World, t: string)
    requires '(' !in t && ')' !in t
    ensures ParseTrimmed(w, t).Parsed? <==> t != ""
  {
  }

  lemma AcceptedParts(w: World, t: string) returns (a: string, b: string)
    requires ParseTrimmed(w, t).Parsed? && ('(' in t || ')' in t)
    ensures HasToolAndPattern(w, t, a, b)
  {
    hide CanonicalToolName, TrimSpace;
    var left, right := IndexOf(t, '('), LastIndexOf(t, ')');
    assert 0 < left < right == |t| - 1;
    a, b := t[..left], t[left + 1..right];
    assert t == a + ['('] + b + [')'];
  }

  lemma NoNameNoTool(w: World)
    ensures CanonicalToolName(w, "") == ""
  {
    assert w.Lower("") == "";
    KindNamesAreFixed(Unnamed);
  }

  lemma AcceptsToolAndPattern(w: World, a: string, b: string)
    requires '(' !in a && CanonicalToolName(w, a) != ""
    requires a != ""
    ensures ParseTrimmed(w, a + "(" + b + ")").Parsed?
  {
    hide CanonicalToolName;
    var t := a + "(" + b + ")";
    assert t == a + ['('] + (b + ")");
    FirstParenthesis(a, '(', b + ")");
    assert t[..|a|] == a;
    assert t[|t| - 1] == ')' && LastIndexOf(t, ')') == |t| - 1;
  }

  /** What a text of the form `tool(pattern)` or `tool` stands for, a blank pattern being `*`. */
  lemma ParsedRuleIs(w: World, a: string, b: string)
    requires '(' !in a && CanonicalToolName(w, a) != ""
    ensures ParseTrimmed(w, a + "(" + b + ")")
         == Parsed(Rule(CanonicalToolName(w, a), if TrimSpace(b) == "" then "*" else TrimSpace(b), true))
    ensures ')' !in a ==> ParseTrimmed(w, a) == Parsed(Rule(CanonicalToolName(w, a), "", false))
  {
    NoNameNoTool(w);
    hide CanonicalToolName, TrimSpace, IndexOf, LastIndexOf;
    var t := a + "(" + b + ")";
    assert t == a + ['('] + (b + ")");
    FirstParenthesis(a, '(', b + ")");
    assert t[..|a|] == a && t[|a| + 1..|t| - 1] == b;
    assert t[|t| - 1] == ')' && LastIndexOf(t, ')') == |t| - 1;
  }

  // ---------- rule lists ----------

  datatype CompiledList = Compiled(rules: seq<Rule>) | Refused(error: ParsedRule)

  /** A list is refused with its first bad rule; otherwise every rule is kept, in order. */
  method CompileRuleList(w: World, items: seq<string>) returns (result: CompiledList)
    ensures result.Compiled? <==> forall i :: 0 <= i < |items| ==> ParseRule(w, items[i]).Parsed?
    ensures result.Compiled? ==>
      && |result.rules| == |items|
      && forall i :: 0 <= i < |items| ==> ParseRule(w, items[i]) == Parsed(result.rules[i])
    ensures result.Refused? ==>
      exists i :: 0 <= i < |items| && result.error == ParseRule(w, items[i]) && !result.error.Parsed?
        && forall j :: 0 <= j < i ==> ParseRule(w, items[j]).Parsed?
  {
    hide ParseRule;
    var out: seq<Rule> := [];
    for i := 0 to |items|
      invariant |out| == i
      invariant forall j :: 0 <= j < i ==> ParseRule(w, items[j]) == Parsed(out[j])
    {
      match ParseRule(w, items[i]) {
        case Parsed(rule) => out := out + [rule];
        case error => return Refused(error);
      }
    }
    return Compiled(out);
  }
}
