/** `getTranslation` (frontend/lib/translations.ts:202-215) over any nested
    string table: a dot-separated key is split on '.', the table is descended
    one segment at a time, a resolved string has its `{name}` placeholders
    filled in one left-to-right pass when parameters are given, and anything
    falsy falls back to the key itself. */
module Translations {
  import opened Wrappers
  import Text

  /** A table value: a leaf, or a nested object literal. The string tables have
      strings at their leaves; the shape comparisons below are stated for any
      two leaf types. */
  datatype Node<+L> = Leaf(leaf: L) | Section(entries: Entries<L>)

  /** The properties of an object literal in the order it lists them. */
  datatype Entries<+L> = End | Entry(key: string, value: Node<L>, rest: Entries<L>)

  /** The integers a JavaScript number holds exactly (`Number.isSafeInteger`);
      `String` writes each of them as its plain decimal text. */
  type SafeInteger = n: int | -0x1F_FFFF_FFFF_FFFF <= n <= 0x1F_FFFF_FFFF_FFFF

  /** A parameter value as JavaScript sees it. Numbers are the safe integers
      and `NaN`; an object is a plain object literal. */
  datatype Param =
    | JsString(s: string)
    | JsNumber(n: SafeInteger)
    | JsNaN
    | JsBoolean(b: bool)
    | JsNull
    | JsUndefined
    | JsPlainObject

  /** The falsy values of JavaScript among the parameters. */
  predicate Falsy(p: Param) {
    p == JsString("") || p == JsNumber(0) || p == JsNaN || p == JsBoolean(false)
    || p == JsNull || p == JsUndefined
  }

  // ---------------------------------------------------------------------------
  // Path descent
  // ---------------------------------------------------------------------------

  /** The property names of an object literal, in order. */
  function Keys<L>(e: Entries<L>): seq<string> {
    match e
    case End => []
    case Entry(k, _, rest) => [k] + Keys(rest)
  }

  /** Property access: the value of the property named `k`. The tables never
      declare a name twice, so which duplicate wins does not arise. */
  function Lookup<L>(e: Entries<L>, k: string): Option<Node<L>> {
    match e
    case End => None
    case Entry(k2, v, rest) => if k2 == k then Some(v) else Lookup(rest, k)
  }

  /** A property is found exactly when its name is among the keys. */
  lemma {:induction false} LookupFound<L>(e: Entries<L>, k: string)
    ensures Lookup(e, k).Some? <==> k in Keys(e)
  {
    if e.Entry? && e.key != k {
      LookupFound(e.rest, k);
    }
  }

  /** `value?.[k]`: a section yields its entry, anything else yields nothing. */
  function Child<L>(v: Option<Node<L>>, k: string): (r: Option<Node<L>>)
    ensures v.None? || v.value.Leaf? ==> r.None?
  {
    match v
    case Some(Section(entries)) => Lookup(entries, k)
    case _ => None
  }

  /** Applies `Child` for each segment in turn. */
  function Descend<L>(v: Option<Node<L>>, segments: seq<string>): Option<Node<L>>
    decreases |segments|
  {
    if |segments| == 0 then v else Descend(Child(v, segments[0]), segments[1..])
  }

  /** The value the loop over `key.split('.')` leaves behind, starting from `root`. */
  function Resolve<L>(root: Node<L>, key: string): Option<Node<L>> {
    Descend(Some(root), Text.Split(key, '.'))
  }

  /** Descending a path in two steps is descending it in one. */
  lemma {:induction false} DescendAppend<L>(v: Option<Node<L>>, a: seq<string>, b: seq<string>)
    ensures Descend(v, a + b) == Descend(Descend(v, a), b)
    decreases |a|
  {
    if |a| > 0 {
      assert (a + b)[0] == a[0];
      assert (a + b)[1..] == a[1..] + b;
      DescendAppend(Child(v, a[0]), a[1..], b);
    } else {
      assert a + b == b;
    }
  }

  /** A key without a dot is looked up directly in the root. */
  lemma ResolveTopLevel<L>(root: Node<L>, key: string)
    requires '.' !in key
    ensures Resolve(root, key) == Child(Some(root), key)
  {
    Text.SplitNone(key, '.');
    assert Descend(Some(root), [key]) == Descend(Child(Some(root), key), []);
  }

  /** A top-level key naming a leaf resolves to that leaf. */
  lemma ResolveTopLevelLeaf<L>(entries: Entries<L>, key: string, v: L)
    requires '.' !in key && Lookup(entries, key) == Some(Leaf(v))
    ensures Resolve(Section(entries), key) == Some(Leaf(v))
  {
    ResolveTopLevel(Section(entries), key);
  }

  /** A key `a.b` looks up `a` in the root, then `b` in what that gave. */
  lemma ResolveTwoLevels<L>(root: Node<L>, a: string, b: string)
    requires '.' !in a && '.' !in b
    ensures Resolve(root, a + "." + b) == Child(Child(Some(root), a), b)
  {
    assert a + "." + b == a + ['.'] + b;
    Text.SplitOnce(a, b, '.');
    Text.SplitNone(b, '.');
    assert Text.Split(a + "." + b, '.') == [a, b];
    assert Descend(Some(root), [a, b]) == Descend(Child(Some(root), a), [b]);
    assert Descend(Child(Some(root), a), [b]) == Descend(Child(Child(Some(root), a), b), []);
  }

  /** Once a segment is missing every later step stays missing. */
  lemma {:induction false} DescendNothing<L>(segments: seq<string>)
    ensures Descend<L>(None, segments).None?
    decreases |segments|
  {
    if |segments| > 0 {
      DescendNothing<L>(segments[1..]);
    }
  }

  // ---------------------------------------------------------------------------
  // Placeholder substitution: `value.replace(/\{(\w+)\}/g, ...)`
  // ---------------------------------------------------------------------------

  /** The regular-expression class `\w`: ASCII letters, digits and underscore. */
  predicate IsWordChar(c: char) {
    ('a' <= c <= 'z') || ('A' <= c <= 'Z') || ('0' <= c <= '9') || c == '_'
  }

  predicate IsWord(w: string) {
    |w| > 0 && forall i :: 0 <= i < |w| ==> IsWordChar(w[i])
  }

  /** Length of the longest run of word characters at the start of `s`. */
  function WordRun(s: string): (n: nat)
    ensures n <= |s|
    ensures forall i :: 0 <= i < n ==> IsWordChar(s[i])
    ensures n == |s| || !IsWordChar(s[n])
    decreases |s|
  {
    if |s| > 0 && IsWordChar(s[0]) then 1 + WordRun(s[1..]) else 0
  }

  /** One left-to-right pass replacing each `{word}` by `fill(word)`. Scanning
      resumes after the closing brace, so text produced by `fill` is never
      scanned again. A `{` that does not open a placeholder is kept. */
  function Substitute(s: string, fill: string -> string): (r: string)
    ensures '{' !in s ==> r == s
    decreases |s|
  {
    if |s| == 0 then ""
    else if s[0] == '{' then
      var n := WordRun(s[1..]);
      if 0 < n && n + 1 < |s| && s[n + 1] == '}' then
        fill(s[1..n + 1]) + Substitute(s[n + 2..], fill)
      else
        "{" + Substitute(s[1..], fill)
    else
      [s[0]] + Substitute(s[1..], fill)
  }

  lemma {:induction false} WordRunOfWord(w: string, rest: string)
    requires IsWord(w)
    requires |rest| > 0 && !IsWordChar(rest[0])
    ensures WordRun(w + rest) == |w|
    decreases |w|
  {
    assert (w + rest)[0] == w[0];
    if |w| > 1 {
      assert (w + rest)[1..] == w[1..] + rest;
      WordRunOfWord(w[1..], rest);
    } else {
      assert (w + rest)[1..] == rest;
    }
  }

  /** A placeholder is replaced by `fill` of its name, verbatim, and scanning
      continues with the text after it. */
  lemma Placeholder(w: string, rest: string, fill: string -> string)
    requires IsWord(w)
    ensures Substitute("{" + w + "}" + rest, fill) == fill(w) + Substitute(rest, fill)
  {
    var s := "{" + w + "}" + rest;
    assert s[1..] == w + ("}" + rest);
    WordRunOfWord(w, "}" + rest);
    assert s[|w| + 1] == '}';
    assert s[1..|w| + 1] == w;
    assert s[|w| + 2..] == rest;
  }

  /** Text before the first `{` is copied unchanged. */
  lemma {:induction false} LiteralPrefix(a: string, rest: string, fill: string -> string)
    requires '{' !in a
    ensures Substitute(a + rest, fill) == a + Substitute(rest, fill)
    decreases |a|
  {
    if |a| > 0 {
      assert (a + rest)[0] == a[0];
      assert (a + rest)[1..] == a[1..] + rest;
      LiteralPrefix(a[1..], rest, fill);
      assert a == [a[0]] + a[1..];
    } else {
      assert a + rest == rest;
    }
  }

  /** The fill that writes a placeholder back as it was. */
  function Verbatim(w: string): string {
    "{" + w + "}"
  }

  /** The pass loses nothing: filling every placeholder with itself gives the input back. */
  lemma {:induction false} FillWithSelf(s: string)
    ensures Substitute(s, Verbatim) == s
    decreases |s|, 1
  {
    if |s| > 0 {
      var n := WordRun(s[1..]);
      if s[0] == '{' && 0 < n && n + 1 < |s| && s[n + 1] == '}' {
        FillWithSelfPlaceholder(s, n);
      } else {
        KeptStep(s, Verbatim);
        FillWithSelf(s[1..]);
        assert s == [s[0]] + s[1..];
      }
    }
  }

  /** One step of the pass at a character that does not open a placeholder. */
  lemma KeptStep(s: string, fill: string -> string)
    requires |s| > 0
    requires var n := WordRun(s[1..]); !(s[0] == '{' && 0 < n && n + 1 < |s| && s[n + 1] == '}')
    ensures Substitute(s, fill) == [s[0]] + Substitute(s[1..], fill)
  {
  }

  /** One step of the pass at a placeholder of `n` word characters. */
  lemma PlaceholderStep(s: string, n: nat, fill: string -> string)
    requires 0 < n && n + 1 < |s| && s[0] == '{' && s[n + 1] == '}' && n == WordRun(s[1..])
    ensures Substitute(s, fill) == fill(s[1..n + 1]) + Substitute(s[n + 2..], fill)
  {
  }

  lemma {:induction false} FillWithSelfPlaceholder(s: string, n: nat)
    requires 0 < n && n + 1 < |s| && s[0] == '{' && s[n + 1] == '}' && n == WordRun(s[1..])
    ensures Substitute(s, Verbatim) == s
    decreases |s|, 0
  {
    PlaceholderStep(s, n, Verbatim);
    FillWithSelf(s[n + 2..]);
    PlaceholderParts(s, n);
  }

  /** A text opening with a placeholder is `{`, the name, `}` and the rest. */
  lemma PlaceholderParts(s: string, n: nat)
    requires n + 1 < |s| && s[0] == '{' && s[n + 1] == '}'
    ensures s == "{" + s[1..n + 1] + "}" + s[n + 2..]
  {
    assert s[..n + 2] == [s[0]] + s[1..n + 1] + [s[n + 1]];
    assert s == s[..n + 2] + s[n + 2..];
  }

  // ---------------------------------------------------------------------------
  // getTranslation (frontend/lib/translations.ts:202-215)
  // ---------------------------------------------------------------------------

  /** JavaScript truthiness of a table value: an empty string is falsy, an object never is. */
  predicate Truthy(n: Node<string>) {
    n.Section? || n.leaf != ""
  }

  /** `params[name] || ''`, converted to a string by `replace`. */
  function ParamText(params: map<string, Param>, name: string): (r: string)
    ensures r == "" <==> name !in params || Falsy(params[name])
    ensures name in params && params[name].JsString? ==> r == params[name].s
    ensures name in params && params[name].JsNumber? && params[name].n != 0 ==>
              r == Text.IntToString(params[name].n)
    ensures name in params && params[name] == JsBoolean(true) ==> r == "true"
    ensures name in params && params[name] == JsPlainObject ==> r == "[object Object]"
  {
    if name !in params then ""
    else match params[name]
      case JsString(s) => s
      case JsNumber(n) => if n == 0 then "" else Text.IntToString(n)
      case JsBoolean(b) => if b then "true" else ""
      case JsPlainObject => "[object Object]"
      case _ => ""
  }

  /** A lone number param gives its decimal text, or nothing when it is 0. */
  lemma NumberParamText(name: string, n: SafeInteger)
    ensures ParamText(map[name := JsNumber(n)], name) == (if n == 0 then "" else Text.IntToString(n))
  {
  }

  /** The callback handed to `replace`: a placeholder's name to its parameter's text. */
  function Fill(params: map<string, Param>): string -> string {
    w => ParamText(params, w)
  }

  /** `getTranslation` over an arbitrary table. The result is a `Node` because a
      key naming a whole section returns that section object. */
  function Translate(root: Node<string>, key: string, params: Option<map<string, Param>>): (r: Node<string>)
    ensures Resolve(root, key).None? ==> r == Leaf(key)
    ensures params.None? && Resolve(root, key).Some? && Truthy(Resolve(root, key).value) ==>
              r == Resolve(root, key).value
    ensures params.None? && Resolve(root, key) == Some(Leaf("")) ==> r == Leaf(key)
    ensures params.Some? && Resolve(root, key).Some? && Resolve(root, key).value.Leaf? ==>
              r == Leaf(Substitute(Resolve(root, key).value.leaf, Fill(params.value)))
    ensures params.Some? && Resolve(root, key).Some? && Resolve(root, key).value.Section? ==>
              r == Resolve(root, key).value
  {
    var value := Resolve(root, key);
    if value.Some? && value.value.Leaf? && params.Some? then
      Leaf(Substitute(value.value.leaf, Fill(params.value)))
    else if value.Some? && Truthy(value.value) then
      value.value
    else
      Leaf(key)
  }

  /** If descent fails at any segment, the key itself is shown, with or without parameters. */
  lemma MissingSegmentShowsKey(root: Node<string>, key: string, params: Option<map<string, Param>>, i: nat)
    requires i < |Text.Split(key, '.')|
    requires Descend(Some(root), Text.Split(key, '.')[..i + 1]) == None
    ensures Translate(root, key, params) == Leaf(key)
  {
    var segs := Text.Split(key, '.');
    assert segs == segs[..i + 1] + segs[i + 1..];
    DescendAppend(Some(root), segs[..i + 1], segs[i + 1..]);
    DescendNothing<string>(segs[i + 1..]);
  }

  /** Without parameters a resolved non-empty string is shown as is, placeholders included. */
  lemma NoParamsKeepsPlaceholders(root: Node<string>, key: string, s: string)
    requires Resolve(root, key) == Some(Leaf(s)) && s != ""
    ensures Translate(root, key, None) == Leaf(s)
  {
  }

  // ---------------------------------------------------------------------------
  // Tables with the same keys
  // ---------------------------------------------------------------------------

  /** The same keys in the same order at every level, leaves where the other has leaves. */
  predicate SameShape<A, B>(a: Node<A>, b: Node<B>) {
    match (a, b)
    case (Leaf(_), Leaf(_)) => true
    case (Section(m), Section(n)) => EntriesAgree(m, n)
    case _ => false
  }

  predicate EntriesAgree<A, B>(m: Entries<A>, n: Entries<B>) {
    match (m, n)
    case (End, End) => true
    case (Entry(k, v, r), Entry(k2, w, r2)) => k == k2 && SameShape(v, w) && EntriesAgree(r, r2)
    case _ => false
  }

  predicate SameShapeOpt<A, B>(a: Option<Node<A>>, b: Option<Node<B>>) {
    (a.None? && b.None?) || (a.Some? && b.Some? && SameShape(a.value, b.value))
  }

  lemma {:induction false} SameShapeLookup<A, B>(m: Entries<A>, n: Entries<B>, k: string)
    requires EntriesAgree(m, n)
    ensures SameShapeOpt(Lookup(m, k), Lookup(n, k))
  {
    if m.Entry? && m.key != k {
      SameShapeLookup(m.rest, n.rest, k);
    }
  }

  lemma {:induction false} SameShapeDescend<A, B>(a: Option<Node<A>>, b: Option<Node<B>>, segments: seq<string>)
    requires SameShapeOpt(a, b)
    ensures SameShapeOpt(Descend(a, segments), Descend(b, segments))
    decreases |segments|
  {
    if |segments| > 0 {
      if a.Some? && a.value.Section? {
        SameShapeLookup(a.value.entries, b.value.entries, segments[0]);
      }
      SameShapeDescend(Child(a, segments[0]), Child(b, segments[0]), segments[1..]);
    }
  }

  /** Same-shaped tables resolve the same keys, to leaves in one exactly where to leaves in the other. */
  lemma SameShapeResolve<A, B>(a: Node<A>, b: Node<B>, key: string)
    requires SameShape(a, b)
    ensures Resolve(a, key).Some? <==> Resolve(b, key).Some?
    ensures Resolve(a, key).Some? ==> (Resolve(a, key).value.Leaf? <==> Resolve(b, key).value.Leaf?)
  {
    SameShapeDescend(Some(a), Some(b), Text.Split(key, '.'));
  }
}
