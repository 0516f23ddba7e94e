/**
 The arguments of a tool call: the JSON tree, the shell script and the candidate paths
 the policy reads out of it. Objects are maps, which the source visits in any order.
 */
module Args {
  import opened Text
  import opened Platform

  datatype Json = Null | Bool(b: bool) | Number(text: string) | Str(s: string)
    | Arr(items: seq<Json>) | Obj(fields: map<string, Json>)

  /** Raw arguments: their text and what decoding it gives. */
  datatype RawArgs = RawArgs(text: string, decoded: Option<Json>)

  // ---------- shell scripts ----------

  /** The strings of an array that are not blank, trimmed. */
  function StringParts(items: seq<Json>): seq<string> {
    if items == [] then []
    else
      var last := items[|items| - 1];
      StringParts(items[..|items| - 1])
        + if last.Str? && TrimSpace(last.s) != "" then [TrimSpace(last.s)] else []
  }

  /** Item by item: a string that is not blank gives itself, trimmed; anything else gives nothing. */
  lemma {:induction false} StringPartsOf(a: seq<Json>, b: seq<Json>, v: Json)
    ensures StringParts(a + b) == StringParts(a) + StringParts(b)
    ensures v.Str? && TrimSpace(v.s) != "" ==> StringParts([v]) == [TrimSpace(v.s)]
    ensures !v.Str? || TrimSpace(v.s) == "" ==> StringParts([v]) == []
  {
    hide TrimSpace;
    assert [v][..0] == [];
    if b == [] {
      assert a + b == a;
    } else {
      assert (a + b)[..|a + b| - 1] == a + b[..|b| - 1];
      StringPartsOf(a, b[..|b| - 1], v);
    }
  }

  function JoinedStrings(v: Json): string {
    if v.Arr? then Join(StringParts(v.items), " ") else ""
  }

  method JoinStringArray(v: Json) returns (joined: string)
    ensures joined == JoinedStrings(v)
  {
    if !v.Arr? {
      return "";
    }
    var parts: seq<string> := [];
    for i := 0 to |v.items|
      invariant parts == StringParts(v.items[..i])
    {
      assert v.items[..i + 1][..i] == v.items[..i];
      if v.items[i].Str? {
        var s := TrimSpace(v.items[i].s);
        if s != "" {
          parts := parts + [s];
        }
      }
    }
    assert v.items[..|v.items|] == v.items;
    joined := Join(parts, " ");
  }

  function TextField(fields: map<string, Json>, key: string): string {
    if key in fields && fields[key].Str? then TrimSpace(fields[key].s) else ""
  }

  function ArrayField(fields: map<string, Json>, key: string): string {
    if key in fields then JoinedStrings(fields[key]) else ""
  }

  /** The first of the command fields that is not blank, or the empty string. */
  function CommandField(fields: map<string, Json>): string {
    if TextField(fields, "command") != "" then TextField(fields, "command")
    else if TextField(fields, "cmd") != "" then TextField(fields, "cmd")
    else if TextField(fields, "script") != "" then TextField(fields, "script")
    else if ArrayField(fields, "argv") != "" then ArrayField(fields, "argv")
    else ArrayField(fields, "args")
  }

  /** The text a string field holds, if the field is there, is a string and is not blank. */
  ghost predicate HasText(fields: map<string, Json>, key: string, s: string) {
    key in fields && fields[key].Str? && TrimSpace(fields[key].s) == s && s != ""
  }

  /** The strings a list field holds, joined, if the field is there, is a list and has a string that is not blank. */
  ghost predicate HasList(fields: map<string, Json>, key: string, s: string) {
    key in fields && fields[key].Arr? && Join(StringParts(fields[key].items), " ") == s && s != ""
  }

  /** `command` counts before `cmd`, `script`, `argv` and `args`, in this order. */
  lemma CommandFieldOrder(fields: map<string, Json>, c: string)
    requires c != ""
    ensures
      var noCommand, noCmd := !exists t :: HasText(fields, "command", t), !exists t :: HasText(fields, "cmd", t);
      var noScript, noArgv := !exists t :: HasText(fields, "script", t), !exists t :: HasList(fields, "argv", t);
      CommandField(fields) == c <==>
        || HasText(fields, "command", c)
        || (noCommand && HasText(fields, "cmd", c))
        || (noCommand && noCmd && HasText(fields, "script", c))
        || (noCommand && noCmd && noScript && HasList(fields, "argv", c))
        || (noCommand && noCmd && noScript && noArgv && HasList(fields, "args", c))
  {
    TextFieldIs(fields, "command");
    TextFieldIs(fields, "cmd");
    TextFieldIs(fields, "script");
    ArrayFieldIs(fields, "argv");
    ArrayFieldIs(fields, "args");
    hide TextField, ArrayField, HasText, HasList;
  }

  lemma TextFieldIs(fields: map<string, Json>, key: string)
    ensures forall t :: HasText(fields, key, t) <==> TextField(fields, key) == t && t != ""
    ensures (exists t :: HasText(fields, key, t)) <==> TextField(fields, key) != ""
  {
    hide TrimSpace;
    assert TextField(fields, key) != "" ==> HasText(fields, key, TextField(fields, key));
  }

  lemma ArrayFieldIs(fields: map<string, Json>, key: string)
    ensures forall t :: HasList(fields, key, t) <==> ArrayField(fields, key) == t && t != ""
    ensures (exists t :: HasList(fields, key, t)) <==> ArrayField(fields, key) != ""
  {
    hide Join, StringParts;
    assert ArrayField(fields, key) != "" ==> HasList(fields, key, ArrayField(fields, key));
  }

  predicate Quotes(s: string) {
    forall k :: 0 <= k < |s| ==> s[k] == '"'
  }

  lemma AddQuote(a: string, t: string, b: string)
    requires Quotes(a) && Quotes(b)
    ensures ['"'] + (a + t + b) == (['"'] + a) + t + b && Quotes(['"'] + a)
    ensures (a + t + b) + ['"'] == a + t + (b + ['"']) && Quotes(b + ['"'])
  {
  }

  lemma {:induction false} TrimQuotesEnds(s: string)
    ensures var t := TrimQuotes(s); t == "" || (t[0] != '"' && t[|t| - 1] != '"')
    decreases |s|
  {
    if s != [] && s[0] == '"' {
      TrimQuotesEnds(s[1..]);
    } else if s != [] && s[|s| - 1] == '"' {
      TrimQuotesEnds(s[..|s| - 1]);
    }
  }

  /** Quotes come off both ends, all of them, and nothing else. */
  lemma {:induction false} TrimQuotesParts(s: string) returns (a: string, b: string)
    ensures s == a + TrimQuotes(s) + b && Quotes(a) && Quotes(b)
    ensures var t := TrimQuotes(s); t == "" || (t[0] != '"' && t[|t| - 1] != '"')
    decreases |s|
  {
    TrimQuotesEnds(s);
    a, b := [], [];
    if s != [] && s[0] == '"' {
      var t := TrimQuotes(s[1..]);
      assert TrimQuotes(s) == t && s == ['"'] + s[1..];
      a, b := TrimQuotesParts(s[1..]);
      hide *;
      AddQuote(a, t, b);
      a := ['"'] + a;
    } else if s != [] && s[|s| - 1] == '"' {
      var t := TrimQuotes(s[..|s| - 1]);
      assert TrimQuotes(s) == t && s == s[..|s| - 1] + ['"'];
      a, b := TrimQuotesParts(s[..|s| - 1]);
      hide *;
      AddQuote(a, t, b);
      b := b + ['"'];
    }
  }

  function TrimQuotes(s: string): string {
    if s != [] && s[0] == '"' then TrimQuotes(s[1..])
    else if s != [] && s[|s| - 1] == '"' then TrimQuotes(s[..|s| - 1])
    else s
  }

  function NonEmpty(s: string): Option<string> {
    if s == "" then None else Some(s)
  }

  /** The script to parse; `None` is any of the source's errors. */
  function ShellScript(args: RawArgs): Option<string> {
    var raw := TrimSpace(args.text);
    if raw == "" || raw == "null" then None
    else
      match args.decoded
      case Some(Null) => None
      case Some(Str(s)) => NonEmpty(TrimSpace(s))
      case Some(Obj(fields)) => NonEmpty(CommandField(fields))
      case Some(Arr(items)) => NonEmpty(JoinedStrings(Arr(items)))
      case _ => if raw[0] == '{' || raw[0] == '[' then None else Some(TrimQuotes(raw))
  }

  /** The script by the shape of the arguments: a string, an object, a list, or plain text with its quotes off. */
  lemma ShellScriptByShape(args: RawArgs)
    ensures
      var raw, script := TrimSpace(args.text), ShellScript(args);
      var plain := args.decoded.None? || args.decoded.value.Number? || args.decoded.value.Bool?;
      && (raw == "" || raw == "null" || args.decoded == Some(Null) ==> script == None)
      && (raw != "" && raw != "null" ==>
            && (forall s :: args.decoded == Some(Str(s)) ==> script == NonEmpty(TrimSpace(s)))
            && (forall f :: args.decoded == Some(Obj(f)) ==> script == NonEmpty(CommandField(f)))
            && (forall i :: args.decoded == Some(Arr(i)) ==> script == NonEmpty(Join(StringParts(i), " ")))
            && (plain && raw[0] != '{' && raw[0] != '[' ==> script == Some(TrimQuotes(raw)))
            && (plain && (raw[0] == '{' || raw[0] == '[') ==> script == None))
  {
    hide TrimSpace, TrimQuotes, CommandField, Join, StringParts;
  }

  /** The text a generic call is matched on. */
  function CommandLikeText(args: RawArgs): string {
    if args.text == "" then ""
    else
      match args.decoded
      case Some(Null) => ""
      case Some(Str(s)) => TrimSpace(s)
      case Some(Obj(fields)) => if CommandField(fields) != "" then CommandField(fields) else TrimSpace(args.text)
      case _ => TrimSpace(args.text)
  }

  /** The text a generic call is matched on, by the shape of the arguments. */
  lemma CommandLikeTextByShape(args: RawArgs)
    ensures
      var text, raw := CommandLikeText(args), TrimSpace(args.text);
      && (args.text == "" || args.decoded == Some(Null) ==> text == "")
      && (args.text != "" ==>
            && (forall s :: args.decoded == Some(Str(s)) ==> text == TrimSpace(s))
            && (forall f :: args.decoded == Some(Obj(f)) && CommandField(f) != "" ==> text == CommandField(f))
            && (forall f :: args.decoded == Some(Obj(f)) && CommandField(f) == "" ==> text == raw)
            && (args.decoded.None? || args.decoded.value.Arr? || args.decoded.value.Number? || args.decoded.value.Bool?
                ==> text == raw))
  {
    hide TrimSpace, CommandField;
  }

  // ---------- candidate paths ----------

  predicate IsPathKey(key: string) {
    key in {"path", "paths", "file", "filepath", "target", "targets", "destination", "dest", "source", "src", "dst"}
  }

  predicate NamesPath(w: World, key: string) {
    IsPathKey(w.Lower(TrimSpace(key)))
  }

  /** What one string under a key contributes. */
  function PathsOfString(v: Json): multiset<string> {
    if v.Str? && TrimSpace(v.s) != "" then multiset{TrimSpace(v.s)} else multiset{}
  }

  lemma WithPath(out: seq<string>, v: Json)
    ensures multiset(if v.Str? && TrimSpace(v.s) != "" then out + [TrimSpace(v.s)] else out)
         == multiset(out) + PathsOfString(v)
  {
    hide TrimSpace;
  }

  /** Everything collected below a key, with multiplicity and without order. */
  ghost function PathBag(w: World, key: string, v: Json): multiset<string>
    decreases v, 1, 0
  {
    match v
    case Str(_) => if NamesPath(w, key) then PathsOfString(v) else multiset{}
    case Arr(items) => (if NamesPath(w, key) then DirectPaths(items) else multiset{}) + ItemsBag(w, v, |items|)
    case Obj(fields) => FieldsBag(w, v, fields.Keys)
    case _ => multiset{}
  }

  ghost function DirectPaths(items: seq<Json>): multiset<string> {
    if items == [] then multiset{}
    else DirectPaths(items[..|items| - 1]) + PathsOfString(items[|items| - 1])
  }

  ghost function ItemsBag(w: World, v: Json, n: nat): multiset<string>
    requires v.Arr? && n <= |v.items|
    decreases v, 0, n
  {
    if n == 0 then multiset{} else ItemsBag(w, v, n - 1) + PathBag(w, "", v.items[n - 1])
  }

  ghost function FieldsBag(w: World, v: Json, keys: set<string>): multiset<string>
    requires v.Obj? && keys <= v.fields.Keys
    decreases v, 0, |keys|
  {
    if keys == {} then multiset{}
    else
      var k :| k in keys;
      PathBag(w, k, v.fields[k]) + FieldsBag(w, v, keys - {k})
  }

  /** Any key may be visited first. */
  lemma {:induction false} FieldsInAnyOrder(w: World, v: Json, keys: set<string>, k: string)
    requires v.Obj? && k in keys && keys <= v.fields.Keys
    ensures FieldsBag(w, v, keys) == PathBag(w, k, v.fields[k]) + FieldsBag(w, v, keys - {k})
    decreases |keys|
  {
    var first :| && first in keys
                 && FieldsBag(w, v, keys) == PathBag(w, first, v.fields[first]) + FieldsBag(w, v, keys - {first});
    if first != k {
      FieldsInAnyOrder(w, v, keys - {first}, k);
      FieldsInAnyOrder(w, v, keys - {k}, first);
      assert keys - {first} - {k} == keys - {k} - {first};
    }
  }

  /** Whatever order the fields of the objects are visited in, the same paths are collected. */
  method CollectPaths(w: World, key: string, v: Json, out0: seq<string>) returns (out: seq<string>)
    ensures multiset(out) == multiset(out0) + PathBag(w, key, v)
    decreases v, 1
  {
    hide NamesPath, TrimSpace, PathsOfString, DirectPaths;
    out := out0;
    match v {
      case Str(s) =>
        WithPath(out, v);
        if NamesPath(w, key) && TrimSpace(s) != "" {
          out := out + [TrimSpace(s)];
        }
      case Arr(items) =>
        if NamesPath(w, key) {
          out := AppendDirectPaths(items, out);
        }
        out := CollectItems(w, v, out);
      case Obj(fields) =>
        out := CollectFields(w, v, out);
      case _ =>
    }
  }

  method CollectItems(w: World, v: Json, out0: seq<string>) returns (out: seq<string>)
    requires v.Arr?
    ensures multiset(out) == multiset(out0) + ItemsBag(w, v, |v.items|)
    decreases v, 0
  {
    hide PathBag;
    out := out0;
    for i := 0 to |v.items|
      invariant multiset(out) == multiset(out0) + ItemsBag(w, v, i)
    {
      out := CollectPaths(w, "", v.items[i], out);
    }
  }

  /** The loop over a map's entries: each turn takes any key not visited yet. */
  method CollectFields(w: World, v: Json, out0: seq<string>) returns (out: seq<string>)
    requires v.Obj?
    ensures multiset(out) == multiset(out0) + FieldsBag(w, v, v.fields.Keys)
    decreases v, 0
  {
    hide PathBag;
    out := out0;
    var left := v.fields.Keys;
    while left != {}
      invariant left <= v.fields.Keys
      invariant multiset(out) + FieldsBag(w, v, left) == multiset(out0) + FieldsBag(w, v, v.fields.Keys)
      decreases |left|
    {
      var k :| k in left;
      FieldsInAnyOrder(w, v, left, k);
      out := CollectPaths(w, k, v.fields[k], out);
      left := left - {k};
    }
  }

  method AppendDirectPaths(items: seq<Json>, out0: seq<string>) returns (out: seq<string>)
    ensures multiset(out) == multiset(out0) + DirectPaths(items)
  {
    hide TrimSpace, PathsOfString, DirectPaths;
    out := out0;
    DirectPathsOfPrefix(items, 0);
    for i := 0 to |items|
      invariant multiset(out) == multiset(out0) + DirectPaths(items[..i])
    {
      DirectPathsOfPrefix(items, i);
      WithPath(out, items[i]);
      if items[i].Str? && TrimSpace(items[i].s) != "" {
        out := out + [TrimSpace(items[i].s)];
      }
    }
    assert items[..|items|] == items;
  }

  lemma DirectPathsOfPrefix(items: seq<Json>, i: nat)
    requires i <= |items|
    ensures DirectPaths(items[..0]) == multiset{}
    ensures i < |items| ==> DirectPaths(items[..i + 1]) == DirectPaths(items[..i]) + PathsOfString(items[i])
  {
    hide PathsOfString;
    if i < |items| {
      assert items[..i + 1][..i] == items[..i];
    }
  }

  ghost predicate NoDuplicates(s: seq<string>) {
    forall i, j :: 0 <= i < j < |s| ==> s[i] != s[j]
  }

  /** The values that are not blank, trimmed, each at its first place only. */
  function Compact(values: seq<string>): seq<string> {
    if values == [] then []
    else
      var init, x := Compact(values[..|values| - 1]), TrimSpace(values[|values| - 1]);
      if x == "" || x in init then init else init + [x]
  }

  lemma {:induction false} CompactContents(values: seq<string>)
    ensures NoDuplicates(Compact(values))
    ensures forall x :: x in Compact(values) <==> x != "" && exists v :: v in values && TrimSpace(v) == x
  {
    hide TrimSpace;
    if values != [] {
      var init, last := values[..|values| - 1], values[|values| - 1];
      CompactContents(init);
      assert values == init + [last];
      forall x
        ensures x in Compact(values) <==> x != "" && exists v :: v in values && TrimSpace(v) == x
      {
        assert x in Compact(values) <==> x in Compact(init) || (x == TrimSpace(last) && x != "");
        assert (exists v :: v in values && TrimSpace(v) == x)
          <==> (exists v :: v in init && TrimSpace(v) == x) || TrimSpace(last) == x;
      }
    }
  }

  method CompactStringSlice(values: seq<string>) returns (out: seq<string>)
    ensures out == Compact(values)
  {
    out := [];
    var seen: set<string> := {};
    for i := 0 to |values|
      invariant out == Compact(values[..i])
      invariant forall x :: x in seen <==> x in out
    {
      assert values[..i + 1][..i] == values[..i];
      var value := TrimSpace(values[i]);
      if value != "" && value !in seen {
        seen := seen + {value};
        out := out + [value];
      }
    }
    assert values[..|values|] == values;
  }

  /** The set of candidate paths; empty where the source reports an error. */
  ghost function PathSet(w: World, args: RawArgs): set<string> {
    var raw := TrimSpace(args.text);
    if raw == "" || raw == "null" || args.decoded.None? then {}
    else set x | x in PathBag(w, "", args.decoded.value)
  }

  /** The value `u` stands under the key `k` somewhere in the tree; items of a list stand under no key. */
  ghost predicate HasNode(key: string, v: Json, k: string, u: Json)
    decreases v
  {
    || (k == key && u == v)
    || (v.Arr? && exists i :: 0 <= i < |v.items| && HasNode("", v.items[i], k, u))
    || (v.Obj? && exists f :: f in v.fields && HasNode(f, v.fields[f], k, u))
  }

  predicate IsText(u: Json, x: string) {
    u.Str? && TrimSpace(u.s) == x && x != ""
  }

  /** The path is the trimmed string, or one of those in the list. */
  ghost predicate HoldsPath(u: Json, x: string) {
    IsText(u, x) || (u.Arr? && exists i :: 0 <= i < |u.items| && IsText(u.items[i], x))
  }

  ghost predicate Named(w: World, key: string, v: Json, x: string) {
    exists k, u :: HasNode(key, v, k, u) && NamesPath(w, k) && HoldsPath(u, x)
  }

  lemma InPathsOfString(v: Json, x: string)
    ensures x in PathsOfString(v) <==> IsText(v, x)
  {
    hide TrimSpace;
  }

  lemma {:induction false} InDirectPaths(items: seq<Json>, x: string)
    ensures x in DirectPaths(items) <==> exists i :: 0 <= i < |items| && IsText(items[i], x)
  {
    hide IsText, PathsOfString;
    if items != [] {
      InDirectPaths(items[..|items| - 1], x);
      InPathsOfString(items[|items| - 1], x);
      assert forall i :: 0 <= i < |items| - 1 ==> items[..|items| - 1][i] == items[i];
    }
  }

  lemma {:induction false} InItemsBag(w: World, v: Json, n: nat, x: string)
    requires v.Arr? && n <= |v.items|
    ensures x in ItemsBag(w, v, n) <==> exists i :: 0 <= i < n && Named(w, "", v.items[i], x)
    decreases v, 0, n
  {
    hide Named, PathBag;
    if n > 0 {
      InItemsBag(w, v, n - 1, x);
      InPathBag(w, "", v.items[n - 1], x);
    }
  }

  lemma {:induction false} InFieldsBag(w: World, v: Json, keys: set<string>, x: string)
    requires v.Obj? && keys <= v.fields.Keys
    ensures x in FieldsBag(w, v, keys) <==> exists f :: f in keys && Named(w, f, v.fields[f], x)
    decreases v, 0, |keys|
  {
    hide Named, PathBag;
    if keys != {} {
      var k :| k in keys && FieldsBag(w, v, keys) == PathBag(w, k, v.fields[k]) + FieldsBag(w, v, keys - {k});
      InPathBag(w, k, v.fields[k], x);
      InFieldsBag(w, v, keys - {k}, x);
      assert keys == keys - {k} + {k};
    }
  }

  /** What is collected below a key is exactly what stands somewhere under a key that names paths. */
  lemma {:induction false} InPathBag(w: World, key: string, v: Json, x: string)
    ensures x in PathBag(w, key, v) <==> Named(w, key, v, x)
    decreases v, 1, 0
  {
    hide TrimSpace, NamesPath, IsText, PathsOfString, DirectPaths, Named;
    match v {
      case Str(_) =>
        InPathsOfString(v, x);
        NamedLeaf(w, key, v, x);
      case Arr(items) =>
        InDirectPaths(items, x);
        InItemsBag(w, v, |items|, x);
        NamedBelowList(w, key, v, x);
      case Obj(fields) =>
        InFieldsBag(w, v, fields.Keys, x);
        NamedBelowObject(w, key, v, x);
      case _ => NamedLeaf(w, key, v, x);
    }
  }

  lemma NamedLeaf(w: World, key: string, v: Json, x: string)
    requires !v.Arr? && !v.Obj?
    ensures Named(w, key, v, x) <==> NamesPath(w, key) && IsText(v, x)
    ensures !v.Str? ==> !IsText(v, x)
  {
    hide NamesPath, TrimSpace;
    assert HasNode(key, v, key, v);
  }

  lemma NamedBelowList(w: World, key: string, v: Json, x: string)
    requires v.Arr?
    ensures Named(w, key, v, x) <==>
      || (NamesPath(w, key) && HoldsPath(v, x))
      || exists i :: 0 <= i < |v.items| && Named(w, "", v.items[i], x)
    ensures !IsText(v, x)
  {
    hide NamesPath, HoldsPath;
    assert HasNode(key, v, key, v);
  }

  lemma NamedBelowObject(w: World, key: string, v: Json, x: string)
    requires v.Obj?
    ensures Named(w, key, v, x) <==> exists f :: f in v.fields && Named(w, f, v.fields[f], x)
  {
    assert !HoldsPath(v, x);
    hide NamesPath, HoldsPath;
    if Named(w, key, v, x) {
      var k, u :| HasNode(key, v, k, u) && NamesPath(w, k) && HoldsPath(u, x);
      var f :| f in v.fields && HasNode(f, v.fields[f], k, u);
      assert Named(w, f, v.fields[f], x);
    }
    if f :| f in v.fields && Named(w, f, v.fields[f], x) {
      var k, u :| HasNode(f, v.fields[f], k, u) && NamesPath(w, k) && HoldsPath(u, x);
      assert HasNode(key, v, k, u);
    }
  }

  /** The candidate paths: what stands, however deep, under a key that names paths, trimmed and in lower case. */
  lemma PathSetIs(w: World, args: RawArgs, x: string)
    ensures x in PathSet(w, args) <==>
      && TrimSpace(args.text) != "" && TrimSpace(args.text) != "null" && args.decoded.Some?
      && exists k, u :: HasNode("", args.decoded.value, k, u) && HoldsPath(u, x)
           && w.Lower(TrimSpace(k)) in {"path", "paths", "file", "filepath", "target", "targets", "destination", "dest",
                                        "source", "src", "dst"}
  {
    hide TrimSpace, PathBag, HasNode, HoldsPath;
    if args.decoded.Some? {
      InPathBag(w, "", args.decoded.value, x);
    }
  }

  lemma BagIsTrimmed(w: World, key: string, v: Json)
    ensures forall x :: x in PathBag(w, key, v) ==> x != "" && Trimmed(x)
    decreases v, 1, 0
  {
    hide NamesPath;
    match v {
      case Arr(items) =>
        DirectPathsAreTrimmed(items);
        ItemsBagIsTrimmed(w, v, |items|);
      case Obj(fields) => FieldsBagIsTrimmed(w, v, fields.Keys);
      case _ =>
    }
  }

  lemma {:induction false} DirectPathsAreTrimmed(items: seq<Json>)
    ensures forall x :: x in DirectPaths(items) ==> x != "" && Trimmed(x)
  {
    if items != [] {
      DirectPathsAreTrimmed(items[..|items| - 1]);
    }
  }

  lemma {:induction false} ItemsBagIsTrimmed(w: World, v: Json, n: nat)
    requires v.Arr? && n <= |v.items|
    ensures forall x :: x in ItemsBag(w, v, n) ==> x != "" && Trimmed(x)
    decreases v, 0, n
  {
    if n > 0 {
      ItemsBagIsTrimmed(w, v, n - 1);
      BagIsTrimmed(w, "", v.items[n - 1]);
    }
  }

  lemma {:induction false} FieldsBagIsTrimmed(w: World, v: Json, keys: set<string>)
    requires v.Obj? && keys <= v.fields.Keys
    ensures forall x :: x in FieldsBag(w, v, keys) ==> x != "" && Trimmed(x)
    decreases v, 0, |keys|
  {
    if keys != {} {
      var k :| k in keys && FieldsBag(w, v, keys) == PathBag(w, k, v.fields[k]) + FieldsBag(w, v, keys - {k});
      BagIsTrimmed(w, k, v.fields[k]);
      FieldsBagIsTrimmed(w, v, keys - {k});
    }
  }

  lemma CompactedBag(w: World, v: Json, found: seq<string>)
    requires multiset(found) == PathBag(w, "", v)
    ensures NoDuplicates(Compact(found))
    ensures forall x :: x in Compact(found) <==> x in PathBag(w, "", v)
  {
    hide TrimSpace, PathBag, Compact;
    BagIsTrimmed(w, "", v);
    CompactContents(found);
    forall x
      ensures x in Compact(found) <==> x in PathBag(w, "", v)
    {
      assert x in found <==> x in multiset(found);
      if x in found {
        assert TrimSpace(x) == x;
      }
      if x in Compact(found) {
        var y :| y in found && TrimSpace(y) == x;
        assert y in multiset(found);
      }
    }
  }

  /** The candidate paths, each once, in an order that depends on the visit; their set does not. */
  method ExtractCandidatePaths(w: World, args: RawArgs) returns (paths: Option<seq<string>>)
    ensures paths.None? <==> PathSet(w, args) == {}
    ensures paths.Some? ==> NoDuplicates(paths.value) && forall x :: x in paths.value <==> x in PathSet(w, args)
  {
    hide PathBag, Compact, TrimSpace;
    var raw := TrimSpace(args.text);
    if raw == "" || raw == "null" || args.decoded.None? {
      return None;
    }
    var found := CollectPaths(w, "", args.decoded.value, []);
    CompactedBag(w, args.decoded.value, found);
    var out := CompactStringSlice(found);
    assert forall x :: x in out <==> x in PathSet(w, args);
    if |out| == 0 {
      return None;
    }
    assert out[0] in out;
    return Some(out);
  }
}
