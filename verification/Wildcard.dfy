/**
 The command wildcard matcher. The SDK compiles a wildcard to a regular expression
 by quoting it and then rewriting the quoted stars and question marks back; this module
 models that string rewriting, the regular expressions it produces, and proves that
 the compiled expression accepts exactly the strings the wildcard stands for.
 */
module Wildcard {
  import opened Text
  import opened Platform

  // ---------- what a wildcard means ----------

  /**
   `*` stands for any run of characters and `?` for one character; every other
   character stands for itself. Unless `crossLines`, neither covers a newline.
   */
  predicate Wild(pattern: string, value: string, crossLines: bool)
    decreases |pattern|
  {
    if pattern == [] then value == []
    else if pattern[0] == '*' then
      exists i :: 0 <= i <= |value| && (crossLines || '\n' !in value[..i]) && Wild(pattern[1..], value[i..], crossLines)
    else if pattern[0] == '?' then
      value != [] && (crossLines || value[0] != '\n') && Wild(pattern[1..], value[1..], crossLines)
    else
      value != [] && value[0] == pattern[0] && Wild(pattern[1..], value[1..], crossLines)
  }

  lemma {:induction false} WildOneLine(pattern: string, value: string)
    requires '\n' !in value
    ensures Wild(pattern, value, false) <==> Wild(pattern, value, true)
    decreases |pattern|
  {
    if pattern == [] {
    } else if pattern[0] == '*' {
      forall i | 0 <= i <= |value|
        ensures '\n' !in value[..i] && (Wild(pattern[1..], value[i..], false) <==> Wild(pattern[1..], value[i..], true))
      {
        WildOneLine(pattern[1..], value[i..]);
      }
    } else if value != [] {
      WildOneLine(pattern[1..], value[1..]);
    }
  }

  lemma StarMatchesAll(value: string)
    ensures Wild("*", value, true)
  {
    assert Wild("*"[1..], value[|value|..], true);
  }

  // ---------- regular expressions ----------

  /** The regular expressions the translation can produce. */
  datatype Regex = Eps | Lit(c: char) | Dot | Star(body: Regex) | Cat(first: Regex, second: Regex)

  /** The language of a regular expression; `.` does not cover a newline. */
  predicate Matches(r: Regex, s: string)
    decreases r, |s|
  {
    match r
    case Eps => s == []
    case Lit(c) => s == [c]
    case Dot => |s| == 1 && s[0] != '\n'
    case Star(body) => s == [] || exists i :: 0 < i <= |s| && Matches(body, s[..i]) && Matches(r, s[i..])
    case Cat(first, second) => exists i :: 0 <= i <= |s| && Matches(first, s[..i]) && Matches(second, s[i..])
  }

  /** The characters that mean something in a regular expression unless a backslash comes before them. */
  predicate IsOperator(c: char) {
    c in "\\.+*?()|[]{}^$"
  }

  /** ASCII punctuation: a backslash before it makes it stand for itself. */
  predicate IsPunctuation(c: char) {
    '!' <= c <= '/' || ':' <= c <= '@' || '[' <= c <= '`' || '{' <= c <= '~'
  }

  /** A sequence of characters, escapes and dots, each possibly starred; anything else is refused. */
  function ParseSequence(s: string): Option<Regex>
    decreases |s|, 0
  {
    if s == [] then Some(Eps)
    else if s[0] == '\\' then
      if |s| >= 2 && IsPunctuation(s[1]) then ParseRepeat(Lit(s[1]), s[2..]) else None
    else if s[0] == '.' then ParseRepeat(Dot, s[1..])
    else if IsOperator(s[0]) then None
    else ParseRepeat(Lit(s[0]), s[1..])
  }

  function ParseRepeat(atom: Regex, rest: string): Option<Regex>
    decreases |rest|, 1
  {
    var starred := rest != [] && rest[0] == '*';
    match ParseSequence(if starred then rest[1..] else rest)
    case None => None
    case Some(r) => Some(Cat(if starred then Star(atom) else atom, r))
  }

  /** `regexp.Compile`, for an expression anchored at both ends. */
  function Compile(s: string): Option<Regex> {
    if |s| >= 2 && s[0] == '^' && s[|s| - 1] == '$' then ParseSequence(s[1..|s| - 1]) else None
  }

  // ---------- the translation ----------

  /** The characters `regexp.QuoteMeta` puts a backslash before. */
  predicate IsMeta(c: char) {
    c in "\\.+*?()|[]{}^$"
  }

  /** `regexp.QuoteMeta`. */
  function QuoteMeta(s: string): string {
    if s == [] then [] else Quoted(s[0]) + QuoteMeta(s[1..])
  }

  function Quoted(c: char): string {
    if IsMeta(c) then ['\\', c] else [c]
  }

  /** `strings.ReplaceAll` of a two-character string: leftmost, non-overlapping. */
  function ReplaceAll(s: string, from: string, to: string): string
    requires |from| == 2
    decreases |s|
  {
    if |s| < 2 then s
    else if s[..2] == from then to + ReplaceAll(s[2..], from, to)
    else [s[0]] + ReplaceAll(s[1..], from, to)
  }

  /** The expression the SDK compiles for a pattern. */
  function Rewritten(pattern: string): string {
    var quoted := QuoteMeta(pattern);
    var stars := ReplaceAll(quoted, "\\*", ".*");
    ReplaceAll(stars, "\\?", ".")
  }

  function GlobMatchFold(w: World, pattern: string, value: string): bool {
    var p := w.Lower(TrimSpace(pattern));
    var v := w.Lower(TrimSpace(value));
    if p == [] then false
    else if p == "*" then true
    else
      match Compile("^" + Rewritten(p) + "$")
      case None => p == v
      case Some(r) => Matches(r, v)
  }

  // ---------- the two passes are a character-by-character translation ----------

  function Translate(pattern: string): string {
    if pattern == [] then [] else TranslateOne(pattern[0]) + Translate(pattern[1..])
  }

  function TranslateOne(c: char): string {
    if c == '*' then ".*" else if c == '?' then "." else Quoted(c)
  }

  /** The pattern after the first of the two passes. */
  function Halfway(pattern: string): string {
    if pattern == [] then []
    else (if pattern[0] == '*' then ".*" else Quoted(pattern[0])) + Halfway(pattern[1..])
  }

  /** Text that does not start with the character the pass looks for after a backslash keeps a quoted unit whole. */
  lemma ReplaceUnit(c: char, rest: string, x: char, to: string)
    requires x == '*' || x == '?'
    requires c != x && (rest == [] || rest[0] != x)
    ensures ReplaceAll(Quoted(c) + rest, ['\\', x], to) == Quoted(c) + ReplaceAll(rest, ['\\', x], to)
  {
    var from := ['\\', x];
    if IsMeta(c) {
      assert (Quoted(c) + rest)[1..] == [c] + rest;
    }
    assert ([c] + rest)[1..] == rest;
    assert |rest| >= 1 ==> ([c] + rest)[..2] == [c, rest[0]] != from;
  }

  lemma ReplaceSkip(c: char, rest: string, x: char, to: string)
    requires c != '\\'
    ensures ReplaceAll([c] + rest, ['\\', x], to) == [c] + ReplaceAll(rest, ['\\', x], to)
  {
    assert ([c] + rest)[1..] == rest;
  }

  lemma ReplaceHit(rest: string, x: char, to: string)
    ensures ReplaceAll(['\\', x] + rest, ['\\', x], to) == to + ReplaceAll(rest, ['\\', x], to)
  {
    assert (['\\', x] + rest)[2..] == rest;
  }

  lemma {:induction false} FirstPass(pattern: string)
    ensures ReplaceAll(QuoteMeta(pattern), ['\\', '*'], ".*") == Halfway(pattern)
  {
    if pattern != [] {
      var rest := QuoteMeta(pattern[1..]);
      FirstPass(pattern[1..]);
      if pattern[0] == '*' {
        ReplaceHit(rest, '*', ".*");
      } else {
        ReplaceUnit(pattern[0], rest, '*', ".*");
      }
    }
  }

  lemma {:induction false} SecondPass(pattern: string)
    ensures ReplaceAll(Halfway(pattern), ['\\', '?'], ".") == Translate(pattern)
  {
    if pattern != [] {
      var rest := Halfway(pattern[1..]);
      SecondPass(pattern[1..]);
      if pattern[0] == '?' {
        ReplaceHit(rest, '?', ".");
      } else if pattern[0] == '*' {
        SecondPassStar(rest);
      } else {
        ReplaceUnit(pattern[0], rest, '?', ".");
      }
    }
  }

  lemma SecondPassStar(rest: string)
    ensures ReplaceAll(".*" + rest, ['\\', '?'], ".") == ".*" + ReplaceAll(rest, ['\\', '?'], ".")
  {
    ReplaceSkip('*', rest, '?', ".");
    ReplaceSkip('.', "*" + rest, '?', ".");
    assert ".*" + rest == ['.'] + ("*" + rest);
  }

  /** Quoting and two substring replacements amount to translating each character on its own. */
  lemma RewriteIsTranslation(pattern: string)
    ensures Rewritten(pattern) == Translate(pattern)
  {
    FirstPass(pattern);
    SecondPass(pattern);
  }

  // ---------- the translation means the wildcard ----------

  function WildRegex(pattern: string): Regex {
    if pattern == [] then Eps
    else Cat(
      if pattern[0] == '*' then Star(Dot) else if pattern[0] == '?' then Dot else Lit(pattern[0]),
      WildRegex(pattern[1..]))
  }

  lemma NotStarred(c: char, rest: string)
    requires rest == [] || rest[0] != '*'
    requires !IsMeta(c) || c == '.'
    ensures ParseSequence([c] + rest) == ParseRepeat(if c == '.' then Dot else Lit(c), rest)
  {
    assert ([c] + rest)[1..] == rest;
  }

  /** What the parser makes of one translated character before a text that does not start with a star. */
  lemma ParseUnit(c: char, rest: string)
    requires rest == [] || rest[0] != '*'
    requires ParseSequence(rest).Some?
    ensures ParseSequence(TranslateOne(c) + rest)
      == Some(Cat(if c == '*' then Star(Dot) else if c == '?' then Dot else Lit(c), ParseSequence(rest).value))
  {
    if c == '*' {
      assert (".*" + rest)[1..] == ['*'] + rest;
      assert (['*'] + rest)[1..] == rest;
    } else if c == '?' {
      NotStarred('.', rest);
    } else if IsMeta(c) {
      assert (Quoted(c) + rest)[2..] == rest;
    } else {
      NotStarred(c, rest);
    }
  }

  lemma TranslationStart(pattern: string)
    ensures Translate(pattern) == [] || Translate(pattern)[0] != '*'
  {
  }

  lemma {:induction false} TranslationParses(pattern: string)
    ensures ParseSequence(Translate(pattern)) == Some(WildRegex(pattern))
  {
    if pattern != [] {
      var rest := Translate(pattern[1..]);
      TranslationParses(pattern[1..]);
      TranslationStart(pattern[1..]);
      ParseUnit(pattern[0], rest);
    }
  }

  lemma {:induction false} StarDot(s: string)
    ensures Matches(Star(Dot), s) <==> '\n' !in s
  {
    if s != [] {
      StarDot(s[1..]);
      assert s == s[..1] + s[1..];
      if Matches(Star(Dot), s) {
        var i :| 0 < i <= |s| && Matches(Dot, s[..i]) && Matches(Star(Dot), s[i..]);
        assert i == 1;
      }
      if '\n' !in s {
        assert Matches(Dot, s[..1]) && Matches(Star(Dot), s[1..]);
      }
    }
  }

  lemma {:induction false} RegexMeansWild(pattern: string, s: string)
    ensures Matches(WildRegex(pattern), s) <==> Wild(pattern, s, false)
    decreases |pattern|
  {
    if pattern != [] {
      var atom, rest := WildRegex(pattern).first, WildRegex(pattern[1..]);
      forall i | 0 <= i <= |s|
        ensures Matches(rest, s[i..]) <==> Wild(pattern[1..], s[i..], false)
        ensures pattern[0] == '*' ==> (Matches(atom, s[..i]) <==> '\n' !in s[..i])
        ensures pattern[0] != '*' && Matches(atom, s[..i]) ==> i == 1
      {
        RegexMeansWild(pattern[1..], s[i..]);
        StarDot(s[..i]);
      }
      if pattern[0] != '*' && s != [] {
        assert s[..1] == [s[0]];
      }
    }
  }

  /** The compiled expression accepts exactly the strings of the wildcard; compiling never fails. */
  lemma CompileIsCorrect(pattern: string, s: string)
    ensures
      var r := Compile("^" + Rewritten(pattern) + "$");
      r.Some? && (Matches(r.value, s) <==> Wild(pattern, s, false))
  {
    RewriteIsTranslation(pattern);
    TranslationParses(pattern);
    RegexMeansWild(pattern, s);
    var e := "^" + Rewritten(pattern) + "$";
    assert e[1..|e| - 1] == Rewritten(pattern);
  }

  /** The matcher decides the wildcard relation, folded and trimmed; a lone `*` also covers newlines. */
  lemma GlobMatchIsWild(w: World, pattern: string, value: string)
    ensures
      var p, v := w.Lower(TrimSpace(pattern)), w.Lower(TrimSpace(value));
      GlobMatchFold(w, pattern, value) <==> p != [] && Wild(p, v, p == "*")
  {
    var p, v := w.Lower(TrimSpace(pattern)), w.Lower(TrimSpace(value));
    if p == "*" {
      StarMatchesAll(v);
    } else {
      CompileIsCorrect(p, v);
    }
  }

  // ---------- normalised commands ----------

  /** Runs of white space become one space. */
  function NormalizeInlineSpaces(s: string): string {
    Join(Fields(TrimSpace(s)), " ")
  }

  /** Whatever white space stands between the words of a command, one space each is left. */
  lemma NormalizedWords(words: seq<string>, sep: string)
    requires forall x :: x in words ==> x != "" && Visible(x)
    requires sep != "" && forall k :: 0 <= k < |sep| ==> IsSpace(sep[k])
    ensures NormalizeInlineSpaces(Join(words, sep)) == Join(words, " ")
  {
    FieldsOfJoin(words, sep);
    JoinIsTrimmed(words, sep);
    assert TrimSpace(Join(words, sep)) == Join(words, sep);
    hide Join, Fields, TrimSpace;
  }

  /** The only white space left is the space. */
  lemma NormalizedHasOnlySpaces(s: string)
    ensures forall c :: c in NormalizeInlineSpaces(s) && IsSpace(c) ==> c == ' '
  {
    FieldsAreVisible(TrimSpace(s));
    JoinSpaces(Fields(TrimSpace(s)), " ");
    hide Join, Fields, TrimSpace, IsSpace;
  }

  lemma FoldingAddsNoNewline(w: World, s: string)
    requires w.Valid() && '\n' !in s
    ensures '\n' !in w.Lower(TrimSpace(s))
  {
    TrimPicks(s);
    hide TrimSpace;
    var t := TrimSpace(s);
    forall k | 0 <= k < |t|
      ensures w.Lower(t)[k] != '\n'
    {
      assert t[k] in t;
    }
  }

  /** On a normalised command newlines do not occur, so the matcher is the plain wildcard relation. */
  lemma GlobMatchOnCommand(w: World, pattern: string, script: string)
    requires w.Valid()
    ensures
      var p, v := w.Lower(TrimSpace(pattern)), w.Lower(TrimSpace(NormalizeInlineSpaces(script)));
      GlobMatchFold(w, pattern, NormalizeInlineSpaces(script)) <==> p != [] && Wild(p, v, true)
  {
    assert IsSpace('\n');
    hide *;
    var command := NormalizeInlineSpaces(script);
    NormalizedHasOnlySpaces(script);
    FoldingAddsNoNewline(w, command);
    GlobMatchIsWild(w, pattern, command);
    WildOneLine(w.Lower(TrimSpace(pattern)), w.Lower(TrimSpace(command)));
  }
}
