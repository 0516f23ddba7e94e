/**
 The string operations the SDK takes from Go's `strings` and `unicode` packages,
 and the laws about them that the policy and the protocol rely on.
 Strings are sequences of Unicode characters.
 */
module Text {

  datatype Option<+T> = None | Some(value: T)

  /** `unicode.IsSpace`. */
  predicate IsSpace(c: char) {
    || c == ' ' || '\t' <= c <= '\r' || c == '\U{85}' || c == '\U{A0}' || c == '\U{1680}'
    || '\U{2000}' <= c <= '\U{200A}' || c == '\U{2028}' || c == '\U{2029}' || c == '\U{202F}'
    || c == '\U{205F}' || c == '\U{3000}'
  }

  /** A string `strings.TrimSpace` leaves alone. */
  predicate Trimmed(s: string) {
    s == [] || (!IsSpace(s[0]) && !IsSpace(s[|s| - 1]))
  }

  /** The first position from `i` on without white space, or the end. */
  function SkipSpace(s: string, i: nat): (n: nat)
    requires i <= |s|
    ensures i <= n <= |s| && (n == |s| || !IsSpace(s[n]))
    decreases |s| - i
  {
    if i == |s| || !IsSpace(s[i]) then i else SkipSpace(s, i + 1)
  }

  /** Where the white space at the end of `s[..i]` begins. */
  function SkipSpaceBack(s: string, i: nat): (n: nat)
    requires i <= |s|
    ensures n <= i && (n == 0 || !IsSpace(s[n - 1]))
  {
    if i == 0 || !IsSpace(s[i - 1]) then i else SkipSpaceBack(s, i - 1)
  }

  function TrimLeft(s: string): string {
    s[SkipSpace(s, 0)..]
  }

  function TrimRight(s: string): string {
    s[..SkipSpaceBack(s, |s|)]
  }

  function TrimSpace(s: string): (t: string)
    ensures Trimmed(t) && |t| <= |s|
    ensures Trimmed(s) ==> t == s
  {
    TrimRight(TrimLeft(s))
  }

  lemma PartPicks(s: string, i: nat, j: nat)
    requires i <= j <= |s|
    ensures forall c :: c in s[i..j] ==> c in s
  {
    forall c | c in s[i..j]
      ensures c in s
    {
      var k :| 0 <= k < j - i && s[i..j][k] == c;
      assert s[i + k] == c;
    }
  }

  lemma TrimPicks(s: string)
    ensures forall c :: c in TrimSpace(s) ==> c in s
  {
    var left := TrimLeft(s);
    var from, to := SkipSpace(s, 0), SkipSpaceBack(left, |left|);
    hide *;
    PartPicks(s, from, |s|);
    PartPicks(left, 0, to);
  }

  lemma {:induction false} SkipSpaceAround(a: string, c: char, b: string, i: nat)
    requires !IsSpace(c) && i <= |a|
    ensures SkipSpace(a + [c] + b, i) == SkipSpace(a, i)
    decreases |a| - i
  {
    hide IsSpace;
    if i < |a| && IsSpace(a[i]) {
      SkipSpaceAround(a, c, b, i + 1);
    }
  }

  lemma {:induction false} SkipSpaceBackAround(a: string, c: char, b: string, i: nat)
    requires !IsSpace(c) && i <= |b|
    ensures SkipSpaceBack(a + [c] + b, |a| + 1 + i) == |a| + 1 + SkipSpaceBack(b, i)
  {
    hide IsSpace;
    if i > 0 && IsSpace(b[i - 1]) {
      SkipSpaceBackAround(a, c, b, i - 1);
    }
  }

  lemma TrimLeftAround(a: string, c: char, b: string)
    requires !IsSpace(c)
    ensures TrimLeft(a + [c] + b) == TrimLeft(a) + [c] + b
  {
    SkipSpaceAround(a, c, b, 0);
    hide IsSpace, SkipSpace;
  }

  lemma TrimRightAround(a: string, c: char, b: string)
    requires !IsSpace(c)
    ensures TrimRight(a + [c] + b) == a + [c] + TrimRight(b)
  {
    SkipSpaceBackAround(a, c, b, |b|);
    hide IsSpace, SkipSpaceBack;
    assert |a + [c] + b| == |a| + 1 + |b|;
  }

  lemma TrimLeftParts(s: string) returns (a: string)
    ensures s == a + TrimLeft(s) && forall k :: 0 <= k < |a| ==> IsSpace(a[k])
  {
    SkipsOnlySpace(s, 0);
    hide IsSpace;
    a := s[..SkipSpace(s, 0)];
  }

  lemma TrimRightParts(s: string) returns (b: string)
    ensures s == TrimRight(s) + b && forall k :: 0 <= k < |b| ==> IsSpace(b[k])
  {
    SkipsOnlySpaceBack(s, |s|);
    hide IsSpace;
    b := s[SkipSpaceBack(s, |s|)..];
  }

  /** Trimming takes white space off both ends and nothing else. */
  lemma TrimSpaceParts(s: string) returns (a: string, b: string)
    ensures s == a + TrimSpace(s) + b && Trimmed(TrimSpace(s))
    ensures forall k :: 0 <= k < |a| ==> IsSpace(a[k])
    ensures forall k :: 0 <= k < |b| ==> IsSpace(b[k])
  {
    a := TrimLeftParts(s);
    b := TrimRightParts(TrimLeft(s));
    hide IsSpace, TrimLeft, TrimRight;
  }

  lemma {:induction false} SkipsOnlySpace(s: string, i: nat)
    requires i <= |s|
    ensures forall k :: i <= k < SkipSpace(s, i) ==> IsSpace(s[k])
    decreases |s| - i
  {
    hide IsSpace;
    if i < |s| && IsSpace(s[i]) {
      SkipsOnlySpace(s, i + 1);
    }
  }

  lemma {:induction false} SkipsOnlySpaceBack(s: string, i: nat)
    requires i <= |s|
    ensures forall k :: SkipSpaceBack(s, i) <= k < i ==> IsSpace(s[k])
  {
    hide IsSpace;
    if i > 0 && IsSpace(s[i - 1]) {
      SkipsOnlySpaceBack(s, i - 1);
    }
  }

  /** Trimming works on the two sides of a visible character independently. */
  lemma TrimAround(a: string, c: char, b: string)
    requires !IsSpace(c)
    ensures TrimSpace(a + [c] + b) == TrimLeft(a) + [c] + TrimRight(b)
  {
    TrimLeftAround(a, c, b);
    TrimRightAround(TrimLeft(a), c, b);
  }

  lemma TrimLeadingSpace(s: string)
    requires Trimmed(s)
    ensures TrimSpace(" " + s) == s
  {
    assert SkipSpace(" " + s, 0) == SkipSpace(" " + s, 1) == 1;
    assert (" " + s)[1..] == s;
  }

  /** `strings.ToLower`, character by character. */
  function ToLower(lower: char -> char, s: string): (t: string)
    ensures |t| == |s| && forall k :: 0 <= k < |s| ==> t[k] == lower(s[k])
  {
    seq(|s|, k requires 0 <= k < |s| => lower(s[k]))
  }

  /** Characters the policy code tests for that no case folding touches. */
  predicate Plain(c: char) {
    c in "()*?_"
  }

  /** What the policy code needs of `unicode.ToLower`. */
  ghost predicate Folding(lower: char -> char) {
    && (forall c :: lower(lower(c)) == lower(c))
    && (forall c :: IsSpace(c) || IsSpace(lower(c)) ==> lower(c) == c)
    && (forall c :: Plain(c) || Plain(lower(c)) ==> lower(c) == c)
    && (forall c :: 'a' <= c <= 'z' ==> lower(c) == c)
  }

  lemma LowerKeepsTrimmed(lower: char -> char, s: string)
    requires Folding(lower) && Trimmed(s)
    ensures Trimmed(ToLower(lower, s))
  {
  }

  predicate HasPrefix(s: string, prefix: string) {
    prefix <= s
  }

  /** `strings.Index` for a single character: the first position, or -1. */
  function IndexOf(s: string, c: char): (i: int)
    ensures -1 <= i < |s|
    ensures i == -1 <==> c !in s
    ensures 0 <= i ==> s[i] == c && c !in s[..i]
  {
    if s == [] then -1
    else if s[0] == c then 0
    else
      var i := IndexOf(s[1..], c);
      assert 0 <= i ==> s[..i + 1] == [s[0]] + s[1..][..i];
      if i == -1 then -1 else i + 1
  }

  /** `strings.LastIndex` for a single character: the last position, or -1. */
  function LastIndexOf(s: string, c: char): (i: int)
    ensures -1 <= i < |s|
    ensures i == -1 <==> c !in s
    ensures 0 <= i ==> s[i] == c && c !in s[i + 1..]
  {
    if s == [] then -1
    else if s[|s| - 1] == c then |s| - 1
    else
      var i := LastIndexOf(s[..|s| - 1], c);
      assert s == s[..|s| - 1] + [s[|s| - 1]];
      i
  }

  /** No character of the string is white space. */
  predicate Visible(s: string) {
    forall k :: 0 <= k < |s| ==> !IsSpace(s[k])
  }

  /** `strings.Fields`: the maximal runs of characters that are not white space. */
  function Fields(s: string): seq<string>
    decreases |s|
  {
    var t := TrimLeft(s);
    if t == [] then []
    else
      var n := RunLength(t);
      [t[..n]] + Fields(t[n..])
  }

  lemma {:induction false} FieldsAreVisible(s: string)
    ensures forall f :: f in Fields(s) ==> Visible(f)
    decreases |s|
  {
    var t := TrimLeft(s);
    if t != [] {
      var n := RunLength(t);
      assert Visible(t[..n]);
      FieldsAreVisible(t[n..]);
      hide Visible, TrimLeft, RunLength;
    }
  }

  /** White space in front of the fields is skipped. */
  lemma FieldsSkipSpace(c: char, s: string)
    requires IsSpace(c)
    ensures Fields([c] + s) == Fields(s)
  {
    SkipShifted(c, s, 0);
    assert ([c] + s)[SkipSpace([c] + s, 0)..] == s[SkipSpace(s, 0)..];
    assert TrimLeft([c] + s) == TrimLeft(s);
  }

  lemma {:induction false} SkipShifted(c: char, s: string, i: nat)
    requires i <= |s| && IsSpace(c)
    ensures SkipSpace([c] + s, i + 1) == SkipSpace(s, i) + 1
    ensures SkipSpace([c] + s, 0) == SkipSpace([c] + s, 1)
    decreases |s| - i
  {
    hide IsSpace;
    if i < |s| && IsSpace(s[i]) {
      SkipShifted(c, s, i + 1);
    }
  }

  /** A word before white space, or at the end, is a field of its own. */
  lemma FieldsTakeWord(word: string, s: string)
    requires word != "" && Visible(word) && (s == "" || IsSpace(s[0]))
    ensures Fields(word + s) == [word] + Fields(s)
  {
    var t := word + s;
    assert t[0] == word[0];
    assert SkipSpace(t, 0) == 0 && t[0..] == t;
    RunIsWord(word, s);
    assert t[..|word|] == word && t[|word|..] == s;
  }

  lemma {:induction false} RunIsWord(word: string, s: string)
    requires Visible(word) && (s == "" || IsSpace(s[0]))
    ensures RunLength(word + s) == |word|
  {
    if word == "" {
      assert word + s == s;
    } else {
      assert (word + s)[1..] == word[1..] + s && (word + s)[0] == word[0];
      assert Visible(word[1..]);
      RunIsWord(word[1..], s);
    }
  }

  lemma FieldsEmpty()
    ensures Fields("") == []
  {
    assert TrimLeft("") == [];
  }

  lemma JoinMore(words: seq<string>, sep: string)
    requires |words| > 1
    ensures Join(words, sep) == words[0] + (sep + Join(words[1..], sep))
  {
  }

  lemma {:induction false} FieldsSkipSpaces(sep: string, s: string)
    requires forall k :: 0 <= k < |sep| ==> IsSpace(sep[k])
    ensures Fields(sep + s) == Fields(s)
  {
    hide Fields, IsSpace;
    if sep == "" {
      assert sep + s == s;
    } else {
      FieldsSkipSpaces(sep[1..], s);
      FieldsSkipSpace(sep[0], sep[1..] + s);
      assert sep + s == [sep[0]] + (sep[1..] + s);
    }
  }

  /** Splitting words that were joined by any white space gives the words back. */
  lemma {:induction false} FieldsOfJoin(words: seq<string>, sep: string)
    requires forall x :: x in words ==> x != "" && Visible(x)
    requires sep != "" && forall k :: 0 <= k < |sep| ==> IsSpace(sep[k])
    ensures Fields(Join(words, sep)) == words
  {
    hide Fields, Visible, IsSpace;
    FieldsEmpty();
    if |words| == 1 {
      assert words[0] in words;
      FieldsTakeWord(words[0], "");
      assert words[0] + "" == words[0] && words == [words[0]] + [];
    } else if words != [] {
      assert words[0] in words;
      var rest := Join(words[1..], sep);
      JoinMore(words, sep);
      assert forall x :: x in words[1..] ==> x in words;
      FieldsOfJoin(words[1..], sep);
      hide Join;
      FieldsSkipSpaces(sep, rest);
      assert (sep + rest)[0] == sep[0];
      assert words[0] != "" && Visible(words[0]);
      FieldsTakeWord(words[0], sep + rest);
      assert [words[0]] + words[1..] == words;
    }
  }

  lemma {:induction false} JoinIsTrimmed(words: seq<string>, sep: string)
    requires forall x :: x in words ==> x != "" && Visible(x)
    ensures Trimmed(Join(words, sep)) && (words != [] ==> Join(words, sep) != "")
  {
    hide IsSpace;
    if |words| == 1 {
      assert words[0] in words;
    } else if words != [] {
      assert words[0] in words;
      assert forall x :: x in words[1..] ==> x in words;
      JoinMore(words, sep);
      JoinIsTrimmed(words[1..], sep);
      var rest := Join(words[1..], sep);
      assert Join(words, sep)[0] == words[0][0];
      assert Join(words, sep)[|Join(words, sep)| - 1] == rest[|rest| - 1];
    }
  }

  /** How many characters come before the first white space. */
  function RunLength(s: string): (n: nat)
    ensures n <= |s|
    ensures forall k :: 0 <= k < n ==> !IsSpace(s[k])
    ensures n < |s| ==> IsSpace(s[n])
  {
    if s == [] || IsSpace(s[0]) then 0 else 1 + RunLength(s[1..])
  }

  /** `strings.Join`. */
  function Join(parts: seq<string>, sep: string): string {
    if parts == [] then []
    else if |parts| == 1 then parts[0]
    else parts[0] + sep + Join(parts[1..], sep)
  }

  /** Joining adds no white space but the separator's. */
  lemma {:induction false} JoinSpaces(parts: seq<string>, sep: string)
    requires forall p :: p in parts ==> Visible(p)
    ensures forall k :: 0 <= k < |Join(parts, sep)| && IsSpace(Join(parts, sep)[k]) ==> Join(parts, sep)[k] in sep
  {
    hide IsSpace;
    if |parts| == 1 {
      assert parts[0] in parts;
    } else if parts != [] {
      assert parts[0] in parts;
      JoinSpaces(parts[1..], sep);
    }
  }

  /** The decimal digits `strconv.AppendUint` writes. */
  function Decimal(n: nat): (s: string)
    ensures s != [] && forall c :: c in s ==> '0' <= c <= '9'
    ensures n > 0 ==> s[0] != '0'
  {
    if n < 10 then ['0' + n as char] else Decimal(n / 10) + ['0' + (n % 10) as char]
  }

  function DecimalValue(s: string): int {
    if s == [] then 0 else 10 * DecimalValue(s[..|s| - 1]) + (s[|s| - 1] as int - '0' as int)
  }

  lemma {:induction false} DecimalRoundTrip(n: nat)
    ensures DecimalValue(Decimal(n)) == n
  {
    if n < 10 {
      assert Decimal(n)[..0] == [];
    } else {
      DecimalRoundTrip(n / 10);
      assert Decimal(n)[..|Decimal(n)| - 1] == Decimal(n / 10);
    }
  }
}
