/**
 Lexical path normalisation, for slash-separated paths: `filepath.Clean` as a fold of the
 path's segments onto a stack, and the policy's normalisation of targets on top of it.
 */
module Paths {
  import opened Text
  import opened Platform

  predicate IsAbs(path: string) {
    path != [] && path[0] == '/'
  }

  // ---------- splitting and joining ----------

  /** The text between the slashes. */
  function Split(path: string): (segments: seq<string>)
    ensures segments != []
    ensures forall i :: 0 <= i < |segments| ==> '/' !in segments[i]
  {
    if path == [] then [[]]
    else if path[0] == '/' then [[]] + Split(path[1..])
    else
      var rest := Split(path[1..]);
      [[path[0]] + rest[0]] + rest[1..]
  }

  function Glue(segments: seq<string>): string {
    if segments == [] then []
    else if |segments| == 1 then segments[0]
    else segments[0] + ['/'] + Glue(segments[1..])
  }

  lemma SplitFirst(c: char, s: string)
    ensures Split([c] + s) == if c == '/' then [[]] + Split(s) else [[c] + Split(s)[0]] + Split(s)[1..]
  {
    assert ([c] + s)[1..] == s;
  }

  lemma Regroup3<T>(a: seq<T>, b: seq<T>, c: seq<T>)
    ensures (a + b) + c == a + (b + c)
    ensures |b| > 0 ==> (b + c)[0] == b[0] && (b + c)[1..] == b[1..] + c
  {
  }

  lemma {:induction false} SplitAt(a: string, b: string)
    ensures Split(a + ['/'] + b) == Split(a) + Split(b)
  {
    assert Split([]) == [[]];
    hide Split;
    if a == [] {
      assert [] + ['/'] + b == ['/'] + b;
      SplitFirst('/', b);
    } else {
      var c, rest := a[0], a[1..];
      assert a == [c] + rest;
      Regroup3([c], rest, ['/']);
      Regroup3([c], rest + ['/'], b);
      SplitFirst(c, rest + ['/'] + b);
      SplitFirst(c, rest);
      SplitAt(rest, b);
      var x := Split(rest);
      Regroup3([[]], x, Split(b));
      Regroup3([[c] + x[0]], x[1..], Split(b));
    }
  }

  lemma {:induction false} SplitSegment(x: string)
    requires '/' !in x
    ensures Split(x) == [x]
  {
    if x != [] {
      forall k | 0 <= k < |x[1..]|
        ensures x[1..][k] != '/'
      {
        assert x[k + 1] in x;
      }
      assert x[0] in x;
      SplitSegment(x[1..]);
      assert [x[0]] + x[1..] == x;
    }
  }

  lemma {:induction false} SplitGlue(segments: seq<string>)
    requires segments != [] && forall i :: 0 <= i < |segments| ==> '/' !in segments[i]
    ensures Split(Glue(segments)) == segments
  {
    SplitSegment(segments[0]);
    if |segments| > 1 {
      SplitGlue(segments[1..]);
      SplitAt(segments[0], Glue(segments[1..]));
    }
  }

  // ---------- the stack ----------

  /** A segment that names something. */
  predicate Proper(x: string) {
    x != "" && x != "." && x != ".." && '/' !in x
  }

  predicate AllProper(stack: seq<string>) {
    forall i :: 0 <= i < |stack| ==> Proper(stack[i])
  }

  function PushRooted(stack: seq<string>, x: string): seq<string> {
    if x == "" || x == "." then stack
    else if x == ".." then if stack == [] then [] else stack[..|stack| - 1]
    else stack + [x]
  }

  /** Below a relative path, `..` that has nothing to remove is kept. */
  function PushRelative(stack: seq<string>, x: string): seq<string> {
    if x == "" || x == "." then stack
    else if x == ".." then
      if stack == [] || stack[|stack| - 1] == ".." then stack + [x] else stack[..|stack| - 1]
    else stack + [x]
  }

  function Resolve(rooted: bool, stack: seq<string>, segments: seq<string>): seq<string>
    decreases |segments|
  {
    if segments == [] then stack
    else Resolve(rooted,
      if rooted then PushRooted(stack, segments[0]) else PushRelative(stack, segments[0]), segments[1..])
  }

  /** `filepath.Clean`. */
  function Clean(path: string): string {
    if IsAbs(path) then ['/'] + Glue(Resolve(true, [], Split(path)))
    else
      var stack := Resolve(false, [], Split(path));
      if stack == [] then "." else Glue(stack)
  }

  lemma {:induction false} ResolveAppend(rooted: bool, stack: seq<string>, a: seq<string>, b: seq<string>)
    ensures Resolve(rooted, stack, a + b) == Resolve(rooted, Resolve(rooted, stack, a), b)
    decreases |a|
  {
    if a == [] {
      assert a + b == b;
    } else {
      assert (a + b)[1..] == a[1..] + b;
      var next := if rooted then PushRooted(stack, a[0]) else PushRelative(stack, a[0]);
      ResolveAppend(rooted, next, a[1..], b);
    }
  }

  lemma {:induction false} ResolveProper(stack: seq<string>, segments: seq<string>)
    requires AllProper(stack) && forall i :: 0 <= i < |segments| ==> '/' !in segments[i]
    ensures AllProper(Resolve(true, stack, segments))
    decreases |segments|
  {
    if segments != [] {
      ResolveProper(PushRooted(stack, segments[0]), segments[1..]);
    }
  }

  lemma {:induction false} ResolveFixesProper(stack: seq<string>, segments: seq<string>)
    requires AllProper(segments)
    ensures Resolve(true, stack, segments) == stack + segments
    decreases |segments|
  {
    if segments == [] {
      assert stack + segments == stack;
    } else {
      ResolveFixesProper(stack + [segments[0]], segments[1..]);
      assert stack + [segments[0]] + segments[1..] == stack + segments;
    }
  }

  /** A cleaned absolute path: a slash and proper segments with single slashes between them. */
  ghost predicate IsClean(path: string) {
    exists stack :: AllProper(stack) && path == ['/'] + Glue(stack)
  }

  lemma CleanIsClean(path: string)
    requires IsAbs(path)
    ensures IsClean(Clean(path))
  {
    ResolveProper([], Split(path));
  }

  lemma SplitRooted(path: string)
    requires IsAbs(path)
    ensures Split(path) == [""] + Split(path[1..])
  {
  }

  /** Cleaning leaves a clean path alone, and only a clean path. */
  lemma CleanFixesClean(path: string)
    requires IsAbs(path)
    ensures Clean(path) == path <==> IsClean(path)
  {
    if IsClean(path) {
      var stack :| AllProper(stack) && path == ['/'] + Glue(stack);
      assert path[1..] == Glue(stack);
      SplitRooted(path);
      if stack == [] {
        assert Split(path) == ["", ""];
        assert Resolve(true, [], ["", ""]) == Resolve(true, [], [""]);
      } else {
        SplitGlue(stack);
        ResolveAppend(true, [], [""], stack);
        ResolveFixesProper([], stack);
        assert [] + stack == stack;
      }
    } else {
      CleanIsClean(path);
    }
  }

  // ---------- detours ----------

  /** A piece of path that leads back to where it starts, wherever that is. */
  ghost predicate Detour(d: string) {
    forall stack :: Resolve(true, stack, Split(d)) == stack
  }

  /** Segments that, `depth` levels down, never climb above where they started and end there. */
  predicate Balanced(segments: seq<string>, depth: nat)
    decreases |segments|
  {
    if segments == [] then depth == 0
    else if segments[0] == "" || segments[0] == "." then Balanced(segments[1..], depth)
    else if segments[0] == ".." then depth > 0 && Balanced(segments[1..], depth - 1)
    else Balanced(segments[1..], depth + 1)
  }

  /** A piece is a detour exactly when its segments are balanced. */
  lemma DetourIff(d: string)
    ensures Detour(d) <==> Balanced(Split(d), 0)
  {
    var segments := Split(d);
    if Balanced(segments, 0) {
      forall stack
        ensures Resolve(true, stack, segments) == stack
      {
        BalancedReturns(stack, [], segments);
        assert stack + [] == stack;
      }
    } else {
      var stranger := NotAmong(segments);
      UnbalancedStrays([], segments, stranger);
      assert [stranger] + [] == [stranger];
    }
  }

  lemma {:induction false} BalancedReturns(stack: seq<string>, below: seq<string>, segments: seq<string>)
    requires Balanced(segments, |below|)
    ensures Resolve(true, stack + below, segments) == stack
    decreases |segments|
  {
    if segments == [] {
      assert stack + below == stack;
    } else {
      var x, next := segments[0], PushRooted(below, segments[0]);
      assert PushRooted(stack + below, x) == stack + next by {
        if x == ".." {
          assert (stack + below)[..|stack + below| - 1] == stack + next;
        } else if x != "" && x != "." {
          assert stack + below + [x] == stack + next;
        }
      }
      BalancedReturns(stack, next, segments[1..]);
    }
  }

  /** A name longer than every segment. */
  lemma NotAmong(segments: seq<string>) returns (name: string)
    ensures name !in segments
  {
    name := [];
    for i := 0 to |segments|
      invariant forall j :: 0 <= j < i ==> |segments[j]| < |name|
    {
      name := name + segments[i] + ['x'];
    }
  }

  /** Segments that are not balanced leave a name they do not contain, or end below it. */
  lemma {:induction false} UnbalancedStrays(below: seq<string>, segments: seq<string>, name: string)
    requires !Balanced(segments, |below|) && name !in segments
    ensures Resolve(true, [name] + below, segments) != [name]
    decreases |segments|
  {
    if segments == [] {
      assert |[name] + below| > 1;
    } else {
      var x, next := segments[0], PushRooted(below, segments[0]);
      if x == ".." && below == [] {
        assert PushRooted([name] + below, x) == [];
        NeverPushed([], segments[1..], name);
      } else {
        assert PushRooted([name] + below, x) == [name] + next by {
          if x == ".." {
            assert ([name] + below)[..|below|] == [name] + next;
          } else if x != "" && x != "." {
            assert [name] + below + [x] == [name] + next;
          }
        }
        UnbalancedStrays(next, segments[1..], name);
      }
    }
  }

  lemma {:induction false} NeverPushed(stack: seq<string>, segments: seq<string>, name: string)
    requires name !in stack && name !in segments
    ensures name !in Resolve(true, stack, segments)
    decreases |segments|
  {
    if segments != [] {
      NeverPushed(PushRooted(stack, segments[0]), segments[1..], name);
    }
  }

  /** `.` and `x/..` are detours. */
  lemma DotsAreDetours(x: string, d: string)
    requires Proper(x) && (d == "." || d == x + ['/'] + "..")
    ensures Detour(d)
  {
    DetourIff(d);
    if d == "." {
      SplitSegment(".");
      assert Balanced(["."], 0);
    } else {
      SplitAt(x, "..");
      SplitSegment(x);
      SplitSegment("..");
      assert [x] + [".."] == [x, ".."] && [x, ".."][1..] == [".."];
      assert Balanced([".."], 1);
    }
  }

  /** Cleaning only sees how the segments before and after a slash resolve. */
  lemma CleanAt(a: string, b: string)
    requires IsAbs(a + ['/'] + b)
    ensures Clean(a + ['/'] + b) == ['/'] + Glue(Resolve(true, Resolve(true, [], Split(a)), Split(b)))
  {
    SplitAt(a, b);
    ResolveAppend(true, [], Split(a), Split(b));
  }

  lemma CleanDropsLastDetour(a: string, d: string)
    requires IsAbs(a) && Detour(d)
    ensures Clean(a + ['/'] + d) == Clean(a)
  {
    CleanAt(a, d);
    hide Split, Glue;
  }

  lemma CleanDropsDetour(a: string, d: string, b: string)
    requires IsAbs(a + ['/'] + b) && Detour(d)
    ensures Clean(a + ['/'] + d + ['/'] + b) == Clean(a + ['/'] + b)
  {
    var rest := d + ['/'] + b;
    assert a + ['/'] + d + ['/'] + b == a + ['/'] + rest;
    assert (a + ['/'] + rest)[0] == (a + ['/'] + b)[0];
    CleanAt(a, rest);
    CleanAt(a, b);
    SplitAt(d, b);
    ResolveAppend(true, Resolve(true, [], Split(a)), Split(d), Split(b));
  }

  /** Repeated slashes count as one. */
  lemma CleanDropsSlash(a: string, b: string)
    requires IsAbs(a + ['/'] + b)
    ensures Clean(a + ['/'] + ['/'] + b) == Clean(a + ['/'] + b)
  {
    var rest := [] + ['/'] + b;
    assert a + ['/'] + ['/'] + b == a + ['/'] + rest;
    assert (a + ['/'] + rest)[0] == (a + ['/'] + b)[0];
    CleanAt(a, rest);
    CleanAt(a, b);
    SplitAt([], b);
    ResolveAppend(true, Resolve(true, [], Split(a)), [[]], Split(b));
  }

  /** The root is its own parent. */
  lemma CleanStopsAtRoot(b: string)
    ensures Clean(['/'] + ".." + ['/'] + b) == Clean(['/'] + b)
  {
    var rest := ".." + ['/'] + b;
    assert ['/'] + ".." + ['/'] + b == [] + ['/'] + rest && ['/'] + b == [] + ['/'] + b;
    CleanAt([], rest);
    CleanAt([], b);
    SplitAt("..", b);
    SplitSegment("..");
    assert Split([]) == [""];
    ResolveAppend(true, [], [".."], Split(b));
  }

  // ---------- relative paths ----------

  /** Names above the start first, then names below it. */
  predicate Climbing(stack: seq<string>) {
    && (forall i :: 0 <= i < |stack| ==> Proper(stack[i]) || stack[i] == "..")
    && (forall i :: 0 < i < |stack| && stack[i] == ".." ==> stack[i - 1] == "..")
  }

  lemma {:induction false} ResolveClimbs(stack: seq<string>, segments: seq<string>)
    requires Climbing(stack) && forall i :: 0 <= i < |segments| ==> '/' !in segments[i]
    ensures Climbing(Resolve(false, stack, segments))
    decreases |segments|
  {
    if segments != [] {
      assert Climbing(PushRelative(stack, segments[0]));
      ResolveClimbs(PushRelative(stack, segments[0]), segments[1..]);
    }
  }

  lemma ResolveLast(stack: seq<string>, init: seq<string>, x: string)
    ensures Resolve(true, stack, init + [x]) == PushRooted(Resolve(true, stack, init), x)
  {
    ResolveAppend(true, stack, init, [x]);
    var s := Resolve(true, stack, init);
    assert Resolve(true, s, [x]) == Resolve(true, PushRooted(s, x), [x][1..]);
  }

  /** A relative step and then the rooted steps is the rooted steps and then the step. */
  lemma PushThenResolve(stack: seq<string>, rel: seq<string>, x: string)
    requires Climbing(rel)
    ensures Resolve(true, stack, PushRelative(rel, x)) == PushRooted(Resolve(true, stack, rel), x)
  {
    ResolveLast(stack, rel, x);
    if x == ".." && rel != [] && rel[|rel| - 1] != ".." {
      var init, last := rel[..|rel| - 1], rel[|rel| - 1];
      assert rel == init + [last] && Proper(last);
      ResolveLast(stack, init, last);
      assert PushRooted(Resolve(true, stack, init) + [last], x) == Resolve(true, stack, init);
    }
  }

  lemma {:induction false} RelativeThenRooted(stack: seq<string>, rel: seq<string>, segments: seq<string>)
    requires Climbing(rel) && forall i :: 0 <= i < |segments| ==> '/' !in segments[i]
    ensures Resolve(true, stack, Resolve(false, rel, segments))
         == Resolve(true, Resolve(true, stack, rel), segments)
    decreases |segments|
  {
    if segments != [] {
      var next := PushRelative(rel, segments[0]);
      assert Climbing(next);
      PushThenResolve(stack, rel, segments[0]);
      RelativeThenRooted(stack, next, segments[1..]);
    }
  }

  /**
   Cleaning a relative path loses nothing: under any directory it still leads to the same place. What is left
   of it are steps up and then names.
   */
  lemma CleanRelative(dir: string, path: string)
    requires IsAbs(dir) && !IsAbs(path)
    ensures Clean(dir + ['/'] + Clean(path)) == Clean(dir + ['/'] + path)
    ensures Clean(path) == "." || Climbing(Split(Clean(path)))
  {
    var rel := Resolve(false, [], Split(path));
    ResolveClimbs([], Split(path));
    CleanAt(dir, path);
    CleanAt(dir, Clean(path));
    var stack := Resolve(true, [], Split(dir));
    RelativeThenRooted(stack, [], Split(path));
    assert Resolve(true, stack, []) == stack;
    hide Glue, Resolve;
    if rel == [] {
      SplitSegment(".");
      DotsAreDetours("x", ".");
    } else {
      SplitGlue(rel);
    }
  }

  // ---------- the policy's normalisation ----------

  /** `filepath.Abs`. */
  function Abs(w: World, path: string): Option<string> {
    if IsAbs(path) then Some(Clean(path))
    else
      match w.cwd
      case None => None
      case Some(dir) => Some(JoinPath(dir, path))
  }

  /** `filepath.Join` of two elements. */
  function JoinPath(dir: string, path: string): string {
    if dir == [] && path == [] then []
    else if dir == [] then Clean(path)
    else if path == [] then Clean(dir)
    else Clean(dir + ['/'] + path)
  }

  /** A target path, anchored and cleaned; `None` is the source's error. */
  function NormalizePathTarget(w: World, target: string, baseDir: string): Option<string> {
    var t := TrimSpace(target);
    if t == [] then None
    else Abs(w, Clean(if IsAbs(t) then t else JoinPath(baseDir, t)))
  }

  function NormalizeBaseDir(w: World, baseDir: string): string {
    var trimmed := TrimSpace(baseDir);
    var named := if trimmed == [] && w.cwd.Some? then w.cwd.value else trimmed;
    var dir := if named == [] then "." else named;
    match Abs(w, dir)
    case Some(path) => path
    case None => Clean(dir)
  }

  /** The base directory is absolute and clean unless it is relative and there is no working directory. */
  lemma BaseDirIsClean(w: World, baseDir: string)
    requires w.Valid() && (w.cwd.Some? || IsAbs(TrimSpace(baseDir)))
    ensures IsClean(NormalizeBaseDir(w, baseDir))
  {
    hide TrimSpace, Clean;
    var trimmed := TrimSpace(baseDir);
    var named := if trimmed == [] && w.cwd.Some? then w.cwd.value else trimmed;
    AbsIsClean(w, if named == [] then "." else named);
  }

  /** The base directory is the one given, under the working directory if relative, or the working directory. */
  lemma BaseDirIs(w: World, baseDir: string)
    requires w.Valid()
    ensures
      var dir, given := NormalizeBaseDir(w, baseDir), TrimSpace(baseDir);
      && (IsAbs(given) ==> dir == Clean(given))
      && (given != "" && !IsAbs(given) && w.cwd.Some? ==> dir == Clean(w.cwd.value + ['/'] + given))
      && (given == "" && w.cwd.Some? ==> dir == Clean(w.cwd.value))
      && (!IsAbs(given) && w.cwd.None? ==> dir == Clean(if given == "" then "." else given))
  {
    hide TrimSpace, Clean;
  }

  lemma AbsIsClean(w: World, path: string)
    requires w.Valid() && Abs(w, path).Some?
    ensures IsClean(Abs(w, path).value)
  {
    if IsAbs(path) {
      CleanIsClean(path);
    } else if path == [] {
      CleanIsClean(w.cwd.value);
    } else {
      CleanIsClean(w.cwd.value + ['/'] + path);
    }
  }

  /** A normalised target is absolute, with no empty, `.` or `..` segment. */
  lemma NormalizedIsClean(w: World, target: string, baseDir: string)
    requires w.Valid() && NormalizePathTarget(w, target, baseDir).Some?
    ensures IsClean(NormalizePathTarget(w, target, baseDir).value)
  {
    var t := TrimSpace(target);
    AbsIsClean(w, Clean(if IsAbs(t) then t else JoinPath(baseDir, t)));
  }

  /** What a target names under an absolute base, before cleaning. */
  function Anchored(baseDir: string, t: string): string {
    if IsAbs(t) then t else baseDir + ['/'] + t
  }

  /** A target is the cleaned path it names: itself if absolute, under the base directory otherwise. */
  lemma TargetIsAnchored(w: World, target: string, baseDir: string)
    requires IsAbs(baseDir)
    ensures NormalizePathTarget(w, target, baseDir)
         == if TrimSpace(target) == [] then None else Some(Clean(Anchored(baseDir, TrimSpace(target))))
  {
    hide TrimSpace;
    var t := TrimSpace(target);
    if t != [] {
      var path := Anchored(baseDir, t);
      CleanIsClean(path);
      CleanFixesClean(Clean(path));
    }
  }

  /** Trimming a target never reaches past a slash. */
  lemma TrimAroundDetour(a: string, d: string, b: string)
    ensures TrimSpace(a + ['/'] + d + ['/'] + b) == TrimLeft(a) + ['/'] + d + ['/'] + TrimRight(b)
    ensures TrimSpace(a + ['/'] + b) == TrimLeft(a) + ['/'] + TrimRight(b)
  {
    assert !IsSpace('/');
    hide *;
    Regroup(a, d, b);
    TrimAround(a, '/', d + ['/'] + b);
    TrimRightAround(d, '/', b);
    Regroup(TrimLeft(a), d, TrimRight(b));
    TrimAround(a, '/', b);
  }

  lemma Regroup(a: string, d: string, b: string)
    ensures a + ['/'] + d + ['/'] + b == a + ['/'] + (d + ['/'] + b)
  {
  }

  lemma RegroupBase(base: string, l: string, tail: string)
    ensures base + ['/'] + (l + ['/'] + tail) == (base + ['/'] + l) + ['/'] + tail
  {
  }

  /** A target that still has its parts on both sides of a slash, already trimmed. */
  lemma NormalizeTrimmedParts(w: World, baseDir: string, t: string, l: string, tail: string)
    requires IsAbs(baseDir) && TrimSpace(t) == l + ['/'] + tail
    ensures
      var path := (if l == [] || l[0] == '/' then l else baseDir + ['/'] + l) + ['/'] + tail;
      IsAbs(path) && NormalizePathTarget(w, t, baseDir) == Abs(w, Clean(path))
  {
    hide Clean, Abs, TrimSpace;
    RegroupBase(baseDir, l, tail);
    assert (l + ['/'] + tail)[0] == if l == [] then '/' else l[0];
    var path := (if l == [] || l[0] == '/' then l else baseDir + ['/'] + l) + ['/'] + tail;
    CleanIsClean(path);
    CleanFixesClean(Clean(path));
  }

  /** A detour inserted after any slash of a target changes nothing. */
  lemma NormalizeDropsDetour(w: World, baseDir: string, a: string, d: string, b: string)
    requires IsAbs(baseDir) && Detour(d)
    ensures NormalizePathTarget(w, a + ['/'] + d + ['/'] + b, baseDir) == NormalizePathTarget(w, a + ['/'] + b, baseDir)
  {
    hide *;
    TrimAroundDetour(a, d, b);
    var l, r := TrimLeft(a), TrimRight(b);
    var prefix := if l == [] || l[0] == '/' then l else baseDir + ['/'] + l;
    Regroup(l, d, r);
    NormalizeTrimmedParts(w, baseDir, a + ['/'] + d + ['/'] + b, l, d + ['/'] + r);
    NormalizeTrimmedParts(w, baseDir, a + ['/'] + b, l, r);
    CleanDropsDetour(prefix, d, r);
    Regroup(prefix, d, r);
  }

  /** The end of a path that its last slash leaves, and what comes before. */
  lemma LastSegment(path: string) returns (dir: string, x: string)
    requires '/' in path
    ensures path == dir + ['/'] + x && '/' !in x
    ensures Split(path) == Split(dir) + [x]
  {
    var i := LastIndexOf(path, '/');
    dir, x := path[..i], path[i + 1..];
    hide Split;
    SplitAt(dir, x);
    SplitSegment(x);
  }

  /** A segment that ends in white space names something. */
  lemma SpacedIsProper(x: string)
    requires x != [] && IsSpace(x[|x| - 1]) && '/' !in x
    ensures Proper(x)
  {
  }

  /** A piece that ends in white space is no detour: its last segment names something. */
  lemma SpacedIsNoDetour(d: string)
    requires d != [] && IsSpace(d[|d| - 1])
    ensures !Detour(d)
  {
    var front, x: string := [], d;
    if '/' in d {
      var dir;
      dir, x := LastSegment(d);
      front := Split(dir);
      assert d[|d| - 1] == (['/'] + x)[|x|];
    } else {
      SplitSegment(d);
      assert front + [d] == [d];
    }
    SpacedIsProper(x);
    ResolveAppend(true, [], front, [x]);
    ResolveFixesProper(Resolve(true, [], front), [x]);
    assert Resolve(true, [], Split(d)) != [];
  }

  lemma GlueOfProper(stack: seq<string>)
    requires AllProper(stack) && stack != []
    ensures Glue(stack) != [] && Split(Glue(stack)) == stack
  {
    assert Proper(stack[0]);
    SplitGlue(stack);
  }

  lemma GlueIsInjective(a: seq<string>, b: seq<string>)
    requires AllProper(a) && AllProper(b) && a != b
    ensures Glue(a) != Glue(b)
  {
    hide Proper;
    if a != [] {
      GlueOfProper(a);
    }
    if b != [] {
      GlueOfProper(b);
    }
  }

  lemma LastSegmentMatters(front: seq<string>, x: string, y: string)
    requires Proper(x) && '/' !in y && |y| < |x|
    requires forall i :: 0 <= i < |front| ==> '/' !in front[i]
    ensures Glue(Resolve(true, [], front + [x])) != Glue(Resolve(true, [], front + [y]))
  {
    var stack := Resolve(true, [], front);
    ResolveAppend(true, [], front, [x]);
    ResolveAppend(true, [], front, [y]);
    ResolveProper([], front + [x]);
    ResolveProper([], front + [y]);
    LastPush(stack, x, y);
    hide Glue, Resolve, Proper;
    GlueIsInjective(Resolve(true, [], front + [x]), Resolve(true, [], front + [y]));
  }

  lemma LastPush(stack: seq<string>, x: string, y: string)
    requires Proper(x) && |y| < |x|
    ensures Resolve(true, stack, [x]) != Resolve(true, stack, [y])
  {
    assert Resolve(true, stack, [x]) == PushRooted(stack, x) == stack + [x];
    assert Resolve(true, stack, [y]) == PushRooted(stack, y);
    assert (stack + [x])[|stack|] == x;
  }

  /** White space at the end of a path makes a difference to where it leads. */
  lemma CleanSeesTrailingSpace(path: string)
    requires IsAbs(path) && IsSpace(path[|path| - 1])
    ensures IsAbs(TrimRight(path)) && Clean(TrimRight(path)) != Clean(path)
  {
    assert path[0] in path;
    var dir, x := LastSegment(path);
    assert path[|path| - 1] == (['/'] + x)[|x|];
    SpacedIsProper(x);
    TrimRightAround(dir, '/', x);
    TrimRightShortens(x);
    assert dir == [] || dir[0] == '/';
    hide Clean, Split, TrimRight, IsSpace, Proper;
    SegmentMatters(dir, x, TrimRight(x));
  }

  lemma TrimRightShortens(x: string)
    requires x != [] && IsSpace(x[|x| - 1]) && '/' !in x
    ensures |TrimRight(x)| < |x| && '/' !in TrimRight(x)
  {
  }

  lemma SegmentMatters(dir: string, x: string, y: string)
    requires (dir == [] || dir[0] == '/') && Proper(x) && '/' !in y && |y| < |x|
    ensures IsAbs(dir + ['/'] + x) && IsAbs(dir + ['/'] + y)
    ensures Clean(dir + ['/'] + x) != Clean(dir + ['/'] + y)
  {
    var p, q := dir + ['/'] + x, dir + ['/'] + y;
    SplitAt(dir, x);
    SplitAt(dir, y);
    SplitSegment(x);
    SplitSegment(y);
    hide Split, Glue, Resolve, Proper;
    LastSegmentMatters(Split(dir), x, y);
    var g, h := Glue(Resolve(true, [], Split(p))), Glue(Resolve(true, [], Split(q)));
    assert (['/'] + g)[1..] == g && (['/'] + h)[1..] == h;
  }

  lemma {:induction false} StopsAtVisible(s: string, i: nat)
    requires s != [] && !IsSpace(s[0]) && 0 < i <= |s|
    ensures SkipSpaceBack(s, i) > 0
  {
    hide IsSpace;
    if IsSpace(s[i - 1]) {
      StopsAtVisible(s, i - 1);
    }
  }

  lemma FirstStays(l: string)
    requires l != [] && !IsSpace(l[0])
    ensures TrimRight(l) != [] && TrimRight(l)[0] == l[0] && !IsSpace('/')
  {
    StopsAtVisible(l, |l|);
  }

  lemma AnchoredParts(baseDir: string, l: string, d: string)
    requires IsAbs(baseDir) && l != [] && !IsSpace(l[0])
    ensures IsAbs(Anchored(baseDir, l)) && Anchored(baseDir, l + ['/'] + d) == Anchored(baseDir, l) + ['/'] + d
    ensures Anchored(baseDir, l)[|Anchored(baseDir, l)| - 1] == l[|l| - 1]
    ensures Anchored(baseDir, TrimRight(l)) == TrimRight(Anchored(baseDir, l))
  {
    FirstStays(l);
    TrimRightAround(baseDir, '/', l);
    hide TrimRight, IsSpace;
    RegroupBase(baseDir, l, d);
    if !IsAbs(l) {
      assert (baseDir + ['/'] + l)[|baseDir| + |l|] == l[|l| - 1];
    }
  }

  lemma LastDetourOfPath(path: string, d: string)
    requires IsAbs(path) && Detour(d)
    ensures Clean(path + ['/'] + d) == Clean(TrimRight(path)) <==> !IsSpace(path[|path| - 1])
  {
    CleanDropsLastDetour(path, d);
    if IsSpace(path[|path| - 1]) {
      CleanSeesTrailingSpace(path);
    } else {
      assert TrimRight(path) == path;
    }
  }

  lemma DetourEndsVisible(d: string)
    requires Detour(d)
    ensures TrimRight(d) == d && !IsSpace('/')
  {
    if d != [] && IsSpace(d[|d| - 1]) {
      SpacedIsNoDetour(d);
    }
  }

  /** Trimming on the left leaves the end of a string that is not blank. */
  lemma TrimmedEnd(a: string)
    requires TrimSpace(a) != ""
    ensures a != [] && TrimLeft(a) != [] && !IsSpace(TrimLeft(a)[0])
    ensures TrimLeft(a)[|TrimLeft(a)| - 1] == a[|a| - 1] && TrimSpace(a) == TrimRight(TrimLeft(a))
  {
    hide IsSpace;
  }

  lemma EndsVisible(a: string)
    requires a != "" && !IsSpace(a[|a| - 1])
    ensures TrimSpace(a) != ""
  {
    hide TrimSpace, TrimLeft, TrimRight, IsSpace;
    assert a == a[..|a| - 1] + [a[|a| - 1]] + [];
    TrimAround(a[..|a| - 1], a[|a| - 1], []);
  }

  /** A detour at the end changes nothing exactly when the target neither is empty nor ends in white space. */
  lemma LastDetourIff(w: World, baseDir: string, a: string, d: string)
    requires IsAbs(baseDir) && Detour(d)
    ensures NormalizePathTarget(w, a + ['/'] + d, baseDir) == NormalizePathTarget(w, a, baseDir)
        <==> a != "" && !IsSpace(a[|a| - 1])
  {
    hide *;
    var l := TrimLeft(a);
    DetourEndsVisible(d);
    TrimAround(a, '/', d);
    assert |l + ['/'] + d| > 0;
    TargetIsAnchored(w, a + ['/'] + d, baseDir);
    TargetIsAnchored(w, a, baseDir);
    if TrimSpace(a) != "" {
      TrimmedEnd(a);
      AnchoredParts(baseDir, l, d);
      LastDetourOfPath(Anchored(baseDir, l), d);
    } else if a != "" && !IsSpace(a[|a| - 1]) {
      EndsVisible(a);
    }
  }

  /** The first character is that of a relative path, and trimming leaves it. */
  predicate StartsRelative(b: string) {
    b != [] && b[0] != '/' && !IsSpace(b[0])
  }

  /** A detour before a relative target changes nothing. */
  lemma FirstDetour(w: World, baseDir: string, d: string, b: string)
    requires IsAbs(baseDir) && Detour(d) && StartsRelative(d) && StartsRelative(b)
    ensures NormalizePathTarget(w, d + ['/'] + b, baseDir) == NormalizePathTarget(w, b, baseDir)
  {
    var r := TrimRight(b);
    StaysAtStart(d);
    StaysAtStart(b);
    TrimAround(d, '/', b);
    TargetIsAnchored(w, d + ['/'] + b, baseDir);
    TargetIsAnchored(w, b, baseDir);
    hide TrimSpace, TrimLeft, TrimRight, Clean, Detour;
    Regroup(baseDir, d, r);
    CleanDropsDetour(baseDir, d, r);
  }

  lemma StaysAtStart(b: string)
    requires StartsRelative(b)
    ensures TrimLeft(b) == b && TrimSpace(b) == TrimRight(b) && StartsRelative(TrimRight(b))
  {
    assert SkipSpace(b, 0) == 0;
    assert b[0..] == b;
    FirstStays(b);
  }

  /** In particular `.` and `x/..`, inside, after or before a target. */
  lemma DotsAreNoOps(w: World, baseDir: string, a: string, x: string, d: string, b: string)
    requires IsAbs(baseDir) && Proper(x) && (d == "." || d == x + ['/'] + "..")
    ensures NormalizePathTarget(w, a + ['/'] + d + ['/'] + b, baseDir) == NormalizePathTarget(w, a + ['/'] + b, baseDir)
    ensures a != "" && !IsSpace(a[|a| - 1]) ==>
      NormalizePathTarget(w, a + ['/'] + d, baseDir) == NormalizePathTarget(w, a, baseDir)
    ensures !IsSpace(d[0]) && StartsRelative(b) ==>
      NormalizePathTarget(w, d + ['/'] + b, baseDir) == NormalizePathTarget(w, b, baseDir)
  {
    DotsAreDetours(x, d);
    assert d[0] != '/' by {
      assert x[0] in x;
    }
    hide NormalizePathTarget, Detour, TrimSpace;
    NormalizeDropsDetour(w, baseDir, a, d, b);
    LastDetourIff(w, baseDir, a, d);
    if !IsSpace(d[0]) && StartsRelative(b) {
      FirstDetour(w, baseDir, d, b);
    }
  }

  // ---------- normalising twice ----------

  /** The room segments take with a slash before each. */
  function Room(segments: seq<string>): nat {
    if segments == [] then 0 else |segments[0]| + 1 + Room(segments[1..])
  }

  lemma {:induction false} RoomAppend(a: seq<string>, b: seq<string>)
    ensures Room(a + b) == Room(a) + Room(b)
  {
    if a == [] {
      assert a + b == b;
    } else {
      assert (a + b)[1..] == a[1..] + b;
      RoomAppend(a[1..], b);
    }
  }

  lemma {:induction false} RoomOfSplit(path: string)
    ensures Room(Split(path)) == |path| + 1
  {
    if path != [] {
      RoomOfSplit(path[1..]);
      RoomAppend([[]], Split(path[1..]));
    }
  }

  lemma {:induction false} RoomOfGlue(segments: seq<string>)
    requires segments != []
    ensures |Glue(segments)| + 1 == Room(segments)
  {
    if |segments| > 1 {
      RoomOfGlue(segments[1..]);
    } else {
      assert Room(segments[1..]) == 0;
    }
  }

  lemma {:induction false} ResolveShrinks(stack: seq<string>, segments: seq<string>)
    ensures Room(Resolve(true, stack, segments)) <= Room(stack) + Room(segments)
    decreases |segments|
  {
    if segments != [] {
      var x := segments[0];
      var next := PushRooted(stack, x);
      ResolveShrinks(next, segments[1..]);
      RoomAppend(stack, [x]);
      assert Room([x]) == |x| + 1;
      if x == ".." && stack != [] {
        RoomAppend(next, [stack[|stack| - 1]]);
        assert stack == next + [stack[|stack| - 1]];
      }
    }
  }

  lemma CleanShrinks(path: string)
    requires IsAbs(path)
    ensures |Clean(path)| <= |path|
  {
    SplitRooted(path);
    var rest := Split(path[1..]);
    var stack := Resolve(true, [], Split(path));
    assert Split(path)[1..] == rest;
    assert stack == Resolve(true, [], rest);
    ResolveShrinks([], rest);
    RoomOfSplit(path[1..]);
    if stack != [] {
      RoomOfGlue(stack);
    }
  }

  /**
   Normalising a normalised target again gives it back exactly when it does not end in
   white space: the first thing the second pass does is trim it.
   */
  lemma RenormalizeIff(w: World, target: string, baseDir: string, otherBase: string)
    requires w.Valid() && NormalizePathTarget(w, target, baseDir).Some?
    ensures
      var n := NormalizePathTarget(w, target, baseDir).value;
      NormalizePathTarget(w, n, otherBase) == Some(n) <==> !IsSpace(n[|n| - 1])
  {
    NormalizedIsClean(w, target, baseDir);
    var n := NormalizePathTarget(w, target, baseDir).value;
    CleanFixesClean(n);
    if IsSpace(n[|n| - 1]) {
      var m := TrimSpace(n);
      TrimAround([], '/', n[1..]);
      assert n == [] + ['/'] + n[1..];
      assert |m| < |n| && IsAbs(m);
      CleanShrinks(m);
      CleanIsClean(m);
      CleanFixesClean(Clean(m));
    } else {
      assert Trimmed(n);
    }
  }

  /** The family that fails is not empty: the trailing space of `/a /` survives one pass and not two. */
  lemma RenormalizeExample(w: World)
    ensures NormalizePathTarget(w, "/a /", "/") == Some("/a ")
    ensures NormalizePathTarget(w, "/a ", "/") == Some("/a")
  {
    hide Clean, TrimSpace;
    TrimExamples();
    CleanOne("a ");
    CleanOne("a");
    CleanTrailingSlash("a ");
    assert "/a /" == ['/'] + "a " + ['/'] && "/a " == ['/'] + "a " && "/a" == ['/'] + "a";
  }

  lemma TrimExamples()
    ensures TrimSpace("/a /") == "/a /" && TrimSpace("/a ") == "/a"
  {
    assert Trimmed("/a /");
    TrimAround([], '/', "a ");
    var s := "a ";
    assert [] + ['/'] + s == "/a " && TrimLeft([]) == [];
    assert SkipSpaceBack(s, 2) == SkipSpaceBack(s, 1) == 1;
  }

  lemma CleanTrailingSlash(x: string)
    requires Proper(x)
    ensures Clean(['/'] + x + ['/']) == ['/'] + x
  {
    var path := ['/'] + x;
    CleanOne(x);
    assert path + ['/'] == path + ['/'] + [];
    CleanAt(path, []);
    var stack := Resolve(true, [], Split(path));
    assert Resolve(true, stack, [""]) == Resolve(true, stack, []);
  }

  lemma CleanOne(x: string)
    requires Proper(x)
    ensures Clean(['/'] + x) == ['/'] + x
  {
    assert AllProper([x]) && Glue([x]) == x;
    CleanFixesClean(['/'] + x);
  }
}
