/** What the backend does to a model's reply text before and after `json.loads`,
    identically for Gemini, Claude and OpenRouter: strip a Markdown code fence,
    blank out control characters, and flatten list-valued `experience` and
    `education` fields into text. */
module AiReply {
  import opened Wrappers
  import opened Text
  import opened Analysis

  /** Python's `str.strip()` with no argument. */
  function PyStrip(s: string): (r: string)
    ensures Trimmed(r, IsPyWhitespace)
  {
    Trim(s, IsPyWhitespace)
  }

  const JsonFence := "```json"
  const Fence := "```"

  // ---------------------------------------------------------------------------
  // Code fences
  // ---------------------------------------------------------------------------

  /** Strips, drops a leading "```json", then a leading "```", then a trailing
      "```", and strips again. Each step looks at what the previous one left. */
  function StripFences(text: string): (r: string)
    ensures Trimmed(r, IsPyWhitespace)
  {
    var t0 := PyStrip(text);
    var t1 := if StartsWith(t0, JsonFence) then t0[|JsonFence|..] else t0;
    var t2 := if StartsWith(t1, Fence) then t1[|Fence|..] else t1;
    var t3 := if EndsWith(t2, Fence) then t2[..|t2| - |Fence|] else t2;
    PyStrip(t3)
  }

  /** The fenced body, once the fence is cut away, trims to the body's own trim. */
  lemma InnerTrim(pre: string, body: string, post: string)
    requires AllWhitespace(pre, IsPyWhitespace) && AllWhitespace(post, IsPyWhitespace)
    ensures PyStrip(pre + body + post) == PyStrip(body)
  {
    TrimIgnoresPadding(pre, body, post, IsPyWhitespace);
  }

  /** A string opening and closing with a backtick is left alone by `strip`. */
  lemma BacktickEndsTrimmed(s: string)
    requires |s| > 0 && s[0] == '`' && s[|s| - 1] == '`'
    ensures PyStrip(s) == s
  {
    TrimOfTrimmed(s, IsPyWhitespace);
  }

  /** A reply wrapped as "```json", whitespace, body, whitespace, "```" yields the
      body, trimmed. The whitespace after the opening fence must not be empty:
      without it a body that itself opens with "```" would lose that too. */
  lemma JsonFencedReply(pre: string, body: string, post: string)
    requires AllWhitespace(pre, IsPyWhitespace) && |pre| > 0
    requires AllWhitespace(post, IsPyWhitespace)
    ensures StripFences(JsonFence + pre + body + post + Fence) == PyStrip(body)
  {
    var inner := pre + body + post;
    var s := JsonFence + inner + Fence;
    assert s == JsonFence + pre + body + post + Fence;
    BacktickEndsTrimmed(s);
    StartsWithAppend(JsonFence, inner + Fence);
    assert s == JsonFence + (inner + Fence);
    var t1 := s[|JsonFence|..];
    assert t1 == inner + Fence;
    assert t1[0] == pre[0];
    assert !StartsWith(t1, Fence);
    EndsWithAppend(inner, Fence);
    assert t1[..|t1| - |Fence|] == inner;
    InnerTrim(pre, body, post);
  }

  /** Whitespace right after the opening backticks rules out "```json". */
  lemma SpaceAfterFence(s: string)
    requires |s| > 3 && IsPyWhitespace(s[3])
    ensures !StartsWith(s, JsonFence)
  {
    assert s[3] != JsonFence[3];
  }

  /** The same with a bare "```" fence. */
  lemma BareFencedReply(pre: string, body: string, post: string)
    requires AllWhitespace(pre, IsPyWhitespace) && |pre| > 0
    requires AllWhitespace(post, IsPyWhitespace)
    ensures StripFences(Fence + pre + body + post + Fence) == PyStrip(body)
  {
    var inner := pre + body + post;
    var s := Fence + inner + Fence;
    assert s == Fence + pre + body + post + Fence;
    BacktickEndsTrimmed(s);
    assert s[3] == pre[0];
    SpaceAfterFence(s);
    StartsWithAppend(Fence, inner + Fence);
    assert s == Fence + (inner + Fence);
    var t2 := s[|Fence|..];
    assert t2 == inner + Fence;
    EndsWithAppend(inner, Fence);
    assert t2[..|t2| - |Fence|] == inner;
    InnerTrim(pre, body, post);
  }

  lemma JsonFenceOpensFence(s: string)
    ensures StartsWith(s, JsonFence) ==> StartsWith(s, Fence)
  {
    if StartsWith(s, JsonFence) {
      assert s[..|Fence|] == s[..|JsonFence|][..|Fence|];
    }
  }

  /** A reply that is already bare JSON passes through unchanged. */
  lemma UnfencedReply(text: string)
    requires Trimmed(text, IsPyWhitespace)
    requires !StartsWith(text, Fence) && !EndsWith(text, Fence)
    ensures StripFences(text) == text
  {
    TrimOfTrimmed(text, IsPyWhitespace);
    JsonFenceOpensFence(text);
  }

  // ---------------------------------------------------------------------------
  // Control characters
  // ---------------------------------------------------------------------------

  /** The class `[\x00-\x1f\x7f-\x9f]`. */
  predicate IsControl(c: char) {
    c as int <= 0x1F || 0x7F <= c as int <= 0x9F
  }

  function Blank(c: char): (d: char)
    ensures !IsControl(d)
    ensures !IsControl(c) ==> d == c
  {
    if IsControl(c) then ' ' else c
  }

  /** `re.sub(r'[\x00-\x1f\x7f-\x9f]', ' ', s)`: each control character becomes
      one space, every other character stays where it is. */
  function Sanitize(s: string): (r: string)
    ensures |r| == |s|
    ensures forall i :: 0 <= i < |s| ==> r[i] == Blank(s[i])
    decreases |s|
  {
    if s == [] then [] else [Blank(s[0])] + Sanitize(s[1..])
  }

  /** After sanitising nothing is left to replace, so a second pass is a no-op. */
  lemma SanitizeIdempotent(s: string)
    ensures Sanitize(Sanitize(s)) == Sanitize(s)
  {
    var r := Sanitize(s);
    assert forall i :: 0 <= i < |r| ==> !IsControl(r[i]);
  }

  /** Text without control characters is left exactly as it is. */
  lemma SanitizeClean(s: string)
    requires forall i :: 0 <= i < |s| ==> !IsControl(s[i])
    ensures Sanitize(s) == s
  {
  }

  /** The whole clean-up between the provider's reply and `json.loads`. */
  function CleanReply(raw: string): (r: string)
    ensures forall i :: 0 <= i < |r| ==> !IsControl(r[i])
  {
    Sanitize(StripFences(raw))
  }

  /** A fenced reply with a clean body comes out as the trimmed body. */
  lemma CleanFencedReply(pre: string, body: string, post: string)
    requires AllWhitespace(pre, IsPyWhitespace) && |pre| > 0
    requires AllWhitespace(post, IsPyWhitespace)
    requires forall i :: 0 <= i < |body| ==> !IsControl(body[i])
    ensures CleanReply(JsonFence + pre + body + post + Fence) == PyStrip(body)
  {
    JsonFencedReply(pre, body, post);
    var b := PyStrip(body);
    assert forall i :: 0 <= i < |b| ==> b[i] in body;
    SanitizeClean(b);
  }

  // ---------------------------------------------------------------------------
  // Normalising list-valued fields
  // ---------------------------------------------------------------------------

  /** One entry of a list-valued field, with its string-valued keys. */
  type Entry = map<string, string>

  /** `entry.get(key, '')`. */
  function Get(e: Entry, key: string): string {
    if key in e then e[key] else ""
  }

  /** One element of a list-valued field: a JSON object, or any other JSON
      value (a string, a number, a nested list, null) named by its Python type. */
  datatype Item = Object(fields: Entry) | NonObject(typeName: string)

  /** The value a top-level field of the parsed reply holds, as far as
      normalisation looks at it: a string, a list, or anything else. */
  datatype Value = Str(text: string) | List(items: seq<Item>) | OtherValue

  /** `"{title} - {company}\n{duration}\n{description}"`. */
  function ExperienceEntry(e: Entry): string {
    Get(e, "title") + " - " + Get(e, "company") + "\n" + Get(e, "duration") + "\n"
      + Get(e, "description")
  }

  /** `"{degree} - {major}\n{school} ({year})"`. */
  function EducationEntry(e: Entry): string {
    Get(e, "degree") + " - " + Get(e, "major") + "\n" + Get(e, "school") + " (" + Get(e, "year") + ")"
  }

  function ExperienceEntries(es: seq<Entry>): (r: seq<string>)
    ensures |r| == |es|
    ensures forall i :: 0 <= i < |es| ==> r[i] == ExperienceEntry(es[i])
    decreases |es|
  {
    if es == [] then [] else [ExperienceEntry(es[0])] + ExperienceEntries(es[1..])
  }

  function EducationEntries(es: seq<Entry>): (r: seq<string>)
    ensures |r| == |es|
    ensures forall i :: 0 <= i < |es| ==> r[i] == EducationEntry(es[i])
    decreases |es|
  {
    if es == [] then [] else [EducationEntry(es[0])] + EducationEntries(es[1..])
  }

  /** `'\n\n'.join(...)` of the experience entries. */
  function ExperienceText(es: seq<Entry>): string {
    Join(ExperienceEntries(es), "\n\n")
  }

  /** `'\n'.join(...)` of the education entries. */
  function EducationText(es: seq<Entry>): string {
    Join(EducationEntries(es), "\n")
  }

  /** Every element of the list is an object, so `.get` works on each. */
  predicate AllObjects(items: seq<Item>) {
    forall i :: 0 <= i < |items| ==> items[i].Object?
  }

  /** The objects of an all-object list, in order. */
  function Fields(items: seq<Item>): (es: seq<Entry>)
    requires AllObjects(items)
    ensures |es| == |items|
    ensures forall i :: 0 <= i < |items| ==> es[i] == items[i].fields
  {
    seq(|items|, i requires 0 <= i < |items| => items[i].fields)
  }

  /** The position of the first element that is not an object: the comprehension
      visits the elements in order and stops there. */
  function FirstNonObject(items: seq<Item>): (i: nat)
    requires !AllObjects(items)
    ensures i < |items| && items[i].NonObject?
    ensures forall j :: 0 <= j < i ==> items[j].Object?
    decreases |items|
  {
    if items[0].NonObject? then 0
    else
      var k := FirstNonObject(items[1..]);
      assert forall j :: 1 <= j < k + 1 ==> items[j] == items[1..][j - 1];
      k + 1
  }

  /** The `AttributeError` that `.get` on a non-object raises. */
  function NoGet(typeName: string): Failure {
    Raised("'" + typeName + "' object has no attribute 'get'")
  }

  /** Flattens a list-valued field with `render`; any other value stays. A list
      holding a non-object fails at its first one. */
  function Flatten(v: Value, render: seq<Entry> -> string): (r: Result<Value, Failure>)
    ensures !v.List? ==> r == Success(v)
    ensures v.List? ==> (r.Success? <==> AllObjects(v.items))
    ensures v.List? && AllObjects(v.items) ==> r == Success(Str(render(Fields(v.items))))
    ensures v.List? && !AllObjects(v.items) ==>
      r == Failure(NoGet(v.items[FirstNonObject(v.items)].typeName))
  {
    match v
    case List(items) =>
      if AllObjects(items) then Success(Str(render(Fields(items))))
      else Failure(NoGet(items[FirstNonObject(items)].typeName))
    case _ => Success(v)
  }

  /** The parsed reply: the top-level keys of the JSON object. */
  type Reply = map<string, Value>

  /** The field is absent, not a list, or a list `.get` works on throughout. */
  predicate Flattens(reply: Reply, key: string) {
    key in reply ==> !reply[key].List? || AllObjects(reply[key].items)
  }

  /** Flattens one field of the reply in place. */
  function Reflow(reply: Reply, key: string, render: seq<Entry> -> string): Result<Reply, Failure> {
    if key !in reply then Success(reply)
    else
      match Flatten(reply[key], render)
      case Success(v) => Success(reply[key := v])
      case Failure(e) => Failure(e)
  }

  /** The normalisation step: a list-valued `experience` becomes its entries
      joined by blank lines and a list-valued `education` its entries one per
      line; every other key and every non-list value is untouched. A list
      element that is not an object fails the whole step, experience first. */
  function Normalise(reply: Reply): (r: Result<Reply, Failure>)
    ensures r.Success? <==> Flattens(reply, "experience") && Flattens(reply, "education")
    ensures !Flattens(reply, "experience") ==>
      var items := reply["experience"].items;
      r == Failure(NoGet(items[FirstNonObject(items)].typeName))
    ensures Flattens(reply, "experience") && !Flattens(reply, "education") ==>
      var items := reply["education"].items;
      r == Failure(NoGet(items[FirstNonObject(items)].typeName))
    ensures r.Success? ==> r.value.Keys == reply.Keys
    ensures r.Success? ==>
      forall k :: k in reply && k != "experience" && k != "education" ==> r.value[k] == reply[k]
    ensures r.Success? ==> forall k :: k in reply && !reply[k].List? ==> r.value[k] == reply[k]
    ensures r.Success? && "experience" in reply && reply["experience"].List? ==>
      r.value["experience"] == Str(ExperienceText(Fields(reply["experience"].items)))
    ensures r.Success? && "education" in reply && reply["education"].List? ==>
      r.value["education"] == Str(EducationText(Fields(reply["education"].items)))
  {
    var r1 :- Reflow(reply, "experience", ExperienceText);
    Reflow(r1, "education", EducationText)
  }

  /** Normalising an already normalised reply changes nothing. */
  lemma NormaliseIdempotent(reply: Reply)
    requires Normalise(reply).Success?
    ensures Normalise(Normalise(reply).value) == Normalise(reply)
  {
    var r := Normalise(reply).value;
    var rr := Normalise(r);
    assert rr.Success?;
    assert rr.value.Keys == r.Keys;
    forall k | k in r
      ensures rr.value[k] == r[k]
    {
    }
    assert rr.value == r;
  }

  /** The education entries flattened line by line: two lines per entry. */
  function EducationLines(es: seq<Entry>): (r: seq<string>)
    ensures |r| == 2 * |es|
    decreases |es|
  {
    if es == [] then []
    else
      [Get(es[0], "degree") + " - " + Get(es[0], "major"),
       Get(es[0], "school") + " (" + Get(es[0], "year") + ")"] + EducationLines(es[1..])
  }

  /** No value of the entry spans more than one line. */
  predicate SingleLine(e: Entry) {
    forall k :: k in e ==> '\n' !in e[k]
  }

  /** Splitting the first part of a join at a separator regroups the join. */
  lemma JoinRegroup(a: string, b: string, rest: seq<string>, restLines: seq<string>, sep: string)
    requires |rest| > 0 && |restLines| > 0
    requires Join(rest, sep) == Join(restLines, sep)
    ensures Join([a + sep + b] + rest, sep) == Join([a, b] + restLines, sep)
  {
    var tail := Join(rest, sep);
    JoinCons(a + sep + b, rest, sep);
    JoinCons(b, restLines, sep);
    assert [a, b] + restLines == [a] + ([b] + restLines);
    JoinCons(a, [b] + restLines, sep);
    assert Join([a, b] + restLines, sep) == a + sep + (b + sep + tail);
    var x := a + sep;
    Associative(x, b, sep);
    Associative(x, b + sep, tail);
    Associative(b, sep, tail);
  }

  lemma Associative(x: string, y: string, z: string)
    ensures (x + y) + z == x + (y + z)
  {
  }

  lemma {:induction false} EducationTextIsLines(es: seq<Entry>)
    requires |es| > 0
    ensures EducationText(es) == Join(EducationLines(es), "\n")
    decreases |es|
  {
    var first := EducationEntries(es)[0];
    var lines := EducationLines(es);
    var a, b := lines[0], lines[1];
    assert first == a + "\n" + b;
    if |es| == 1 {
      assert EducationEntries(es) == [first];
      assert lines == [a, b];
      assert Join([b], "\n") == b;
    } else {
      EducationTextIsLines(es[1..]);
      var rest := EducationEntries(es[1..]);
      var restLines := EducationLines(es[1..]);
      assert EducationEntries(es) == [first] + rest by {
        assert EducationEntries(es)[1..] == rest;
      }
      assert lines == [a, b] + restLines;
      JoinRegroup(a, b, rest, restLines, "\n");
    }
  }

  /** Splitting the education text at line breaks gives back every entry's two
      lines, in order, as long as no value contains a line break itself. */
  lemma EducationTextSplits(es: seq<Entry>)
    requires |es| > 0
    requires forall i :: 0 <= i < |es| ==> SingleLine(es[i])
    ensures Split(EducationText(es), '\n') == EducationLines(es)
  {
    EducationTextIsLines(es);
    var lines := EducationLines(es);
    forall i | 0 <= i < |lines|
      ensures '\n' !in lines[i]
    {
      LinesSingle(es, i);
    }
    SplitJoin(lines, '\n');
  }

  lemma {:induction false} LinesSingle(es: seq<Entry>, i: nat)
    requires forall j :: 0 <= j < |es| ==> SingleLine(es[j])
    requires i < 2 * |es|
    ensures '\n' !in EducationLines(es)[i]
    decreases |es|
  {
    var e := es[0];
    assert SingleLine(e);
    if i >= 2 {
      LinesSingle(es[1..], i - 2);
    } else {
      assert '\n' !in Get(e, "degree") && '\n' !in Get(e, "major");
      assert '\n' !in Get(e, "school") && '\n' !in Get(e, "year");
    }
  }

  /** The three lines one experience entry is written as. */
  function ExperienceEntryLines(e: Entry): seq<string> {
    [Get(e, "title") + " - " + Get(e, "company"), Get(e, "duration"), Get(e, "description")]
  }

  /** The experience entries flattened line by line: three lines per entry and
      an empty line between two entries. */
  function ExperienceLines(es: seq<Entry>): (r: seq<string>)
    requires |es| > 0
    ensures |r| == 4 * |es| - 1
    decreases |es|
  {
    if |es| == 1 then ExperienceEntryLines(es[0])
    else ExperienceEntryLines(es[0]) + [""] + ExperienceLines(es[1..])
  }

  /** Joining `[a, b, c]`. */
  lemma JoinThree(a: string, b: string, c: string, s: string)
    ensures Join([a, b, c], s) == a + s + b + s + c
  {
    JoinCons(a, [b, c], s);
    assert [a, b, c] == [a] + [b, c];
    JoinCons(b, [c], s);
    assert [b, c] == [b] + [c];
  }

  /** Three lines followed by more lines join as the three lines' text, a
      separator and the rest. */
  lemma JoinThreeCons(a: string, b: string, c: string, more: seq<string>, s: string)
    requires |more| > 0
    ensures Join([a, b, c] + more, s) == a + s + b + s + c + s + Join(more, s)
  {
    var m := Join(more, s);
    assert [a, b, c] + more == [a] + ([b] + ([c] + more));
    JoinCons(c, more, s);
    JoinCons(b, [c] + more, s);
    JoinCons(a, [b] + ([c] + more), s);
    Associative(a + s, b + s + c + s, m);
    Associative(a + s + b + s, c + s, m);
  }

  /** An entry's text, a doubled separator, then the rest, regroups as its
      three lines, an empty line and the rest's lines. */
  lemma JoinRegroupThree(a: string, b: string, c: string, rest: seq<string>, restLines: seq<string>,
                         s: string)
    requires |rest| > 0 && |restLines| > 0
    requires Join(rest, s + s) == Join(restLines, s)
    ensures Join([a + s + b + s + c] + rest, s + s) == Join([a, b, c] + ([""] + restLines), s)
  {
    var e := a + s + b + s + c;
    var tail := Join(rest, s + s);
    JoinCons(e, rest, s + s);
    JoinCons("", restLines, s);
    assert "" + s == s;
    assert Join([""] + restLines, s) == s + tail;
    JoinThreeCons(a, b, c, [""] + restLines, s);
    Associative(e, s, s + tail);
    Associative(s, s, tail);
    Associative(e, s + s, tail);
  }

  /** The experience text is its lines joined by single line breaks. */
  lemma ExperienceTextIsLines(es: seq<Entry>)
    requires |es| > 0
    ensures ExperienceText(es) == Join(ExperienceLines(es), "\n")
  {
    var nl: string := "\n";
    DoubleBreak();
    EntriesJoinAsLines(es, nl);
  }

  lemma DoubleBreak()
    ensures "\n" + "\n" == "\n\n"
  {
  }

  /** `ExperienceTextIsLines` with the line break passed in, which keeps the
      solver from reasoning about the separators' lengths. */
  lemma {:induction false} EntriesJoinAsLines(es: seq<Entry>, nl: string)
    requires |es| > 0 && nl == "\n"
    ensures Join(ExperienceEntries(es), nl + nl) == Join(ExperienceLines(es), nl)
    decreases |es|
  {
    var ls := ExperienceEntryLines(es[0]);
    EntryIsLines(es[0], nl);
    if |es| == 1 {
      assert ExperienceEntries(es) == [ExperienceEntry(es[0])];
      JoinThree(ls[0], ls[1], ls[2], nl);
      assert ls == [ls[0], ls[1], ls[2]];
    } else {
      EntriesJoinAsLines(es[1..], nl);
      ExperienceEntriesCons(es);
      ExperienceLinesCons(es);
      RegroupEntries(ExperienceEntries(es), ExperienceEntries(es[1..]), ExperienceLines(es),
                     ExperienceLines(es[1..]), ls, nl);
    }
  }

  /** An entry's text is its three lines joined by line breaks. */
  lemma EntryIsLines(e: Entry, nl: string)
    requires nl == "\n"
    ensures var ls := ExperienceEntryLines(e);
            ExperienceEntry(e) == ls[0] + nl + ls[1] + nl + ls[2]
  {
  }

  lemma ExperienceEntriesCons(es: seq<Entry>)
    requires |es| > 0
    ensures ExperienceEntries(es) == [ExperienceEntry(es[0])] + ExperienceEntries(es[1..])
  {
  }

  lemma ExperienceLinesCons(es: seq<Entry>)
    requires |es| > 1
    ensures ExperienceLines(es) == ExperienceEntryLines(es[0]) + ([""] + ExperienceLines(es[1..]))
  {
  }

  /** The inductive step of `EntriesJoinAsLines`, stated over plain strings. */
  lemma RegroupEntries(entries: seq<string>, rest: seq<string>, lines: seq<string>,
                       restLines: seq<string>, ls: seq<string>, s: string)
    requires |ls| == 3 && |rest| > 0 && |restLines| > 0
    requires entries == [ls[0] + s + ls[1] + s + ls[2]] + rest
    requires lines == ls + ([""] + restLines)
    requires Join(rest, s + s) == Join(restLines, s)
    ensures Join(entries, s + s) == Join(lines, s)
  {
    JoinRegroupThree(ls[0], ls[1], ls[2], rest, restLines, s);
    assert ls == [ls[0], ls[1], ls[2]];
  }

  lemma {:induction false} ExperienceLinesSingle(es: seq<Entry>, i: nat)
    requires |es| > 0
    requires forall j :: 0 <= j < |es| ==> SingleLine(es[j])
    requires i < 4 * |es| - 1
    ensures '\n' !in ExperienceLines(es)[i]
    decreases |es|
  {
    var e := es[0];
    assert SingleLine(e);
    if i >= 4 {
      ExperienceLinesSingle(es[1..], i - 4);
      assert ExperienceLines(es)[i] == ExperienceLines(es[1..])[i - 4];
    } else if i < 3 {
      assert '\n' !in Get(e, "title") && '\n' !in Get(e, "company");
      assert '\n' !in Get(e, "duration") && '\n' !in Get(e, "description");
      assert ExperienceLines(es)[i] == ExperienceEntryLines(e)[i];
    }
  }

  /** Splitting the experience text at line breaks gives back every entry's
      three lines, in order, with one empty line between two entries, as long
      as no value contains a line break itself. */
  lemma ExperienceTextSplits(es: seq<Entry>)
    requires |es| > 0
    requires forall i :: 0 <= i < |es| ==> SingleLine(es[i])
    ensures Split(ExperienceText(es), '\n') == ExperienceLines(es)
  {
    ExperienceTextIsLines(es);
    var lines := ExperienceLines(es);
    forall i | 0 <= i < |lines|
      ensures '\n' !in lines[i]
    {
      ExperienceLinesSingle(es, i);
    }
    SplitJoin(lines, '\n');
  }
}
