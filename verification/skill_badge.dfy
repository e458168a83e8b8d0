/** The skill badge (frontend/components/SkillBadge.tsx:101-130): an icon looked
    up by the skill's lower-cased, trimmed text in the icon table, with a wrench
    for anything not in it; a colour picked by the untrimmed text's length modulo
    the palette size; and the skill's own text as the label. */
module SkillBadge {
  import opened Wrappers
  import opened Translations
  import opened SkillIconTable
  import Text

  // ---------------------------------------------------------------------------
  // The icon (lines 102-103)
  // ---------------------------------------------------------------------------

  /** `skill.toLowerCase().trim()`. */
  function Normalise(skill: string): string {
    Text.Trim(Text.Lower(skill), Text.IsJsWhitespace)
  }

  /** Normalising twice is normalising once. */
  lemma NormaliseIdempotent(skill: string)
    ensures Normalise(Normalise(skill)) == Normalise(skill)
  {
    var t := Normalise(skill);
    Text.LowerOfLowered(t, skill);
    Text.TrimIdempotent(Text.Lower(skill), Text.IsJsWhitespace);
  }

  /** `table[skillLower] || '🔧'` for any object literal `table` of strings. */
  function IconIn(table: Entries<string>, skill: string): (r: string)
    ensures r != ""
    ensures Lookup(table, Normalise(skill)).None? ==> r == Wrench
  {
    match Lookup(table, Normalise(skill))
    case Some(Leaf(v)) => if v != "" then v else Wrench
    case _ => Wrench
  }

  /** The badge's icon, from `skillIcons`. */
  function Icon(skill: string): string {
    IconIn(SkillIcons(), skill)
  }

  /** The icon depends only on the normalised text. */
  lemma IconOfNormalised(table: Entries<string>, skill: string)
    ensures IconIn(table, Normalise(skill)) == IconIn(table, skill)
  {
    NormaliseIdempotent(skill);
  }

  /** In a well-formed table a skill gets the default icon exactly when its
      normalised text is not a key, and otherwise the table's entry for it. */
  lemma IconFound(table: Entries<string>, skill: string)
    requires IconsWellFormed(table)
    ensures IconIn(table, skill) != Wrench <==> Normalise(skill) in Keys(table)
    ensures Normalise(skill) in Keys(table) ==>
              Lookup(table, Normalise(skill)) == Some(Leaf(IconIn(table, skill)))
  {
    LookupFound(table, Normalise(skill));
    if Lookup(table, Normalise(skill)).Some? {
      LookupWellFormed(table, Normalise(skill));
    }
  }

  /** A skill whose normalised text is a key shows that key's icon. */
  lemma IconOfKey(table: Entries<string>, skill: string, icon: string)
    requires Lookup(table, Normalise(skill)) == Some(Leaf(icon)) && icon != ""
    ensures IconIn(table, skill) == icon
  {
  }

  /** The same for `skillIcons`. */
  lemma SkillIconFound(skill: string)
    ensures Icon(skill) != Wrench <==> Normalise(skill) in Keys(SkillIcons())
  {
    SkillIconsWellFormed();
    IconFound(SkillIcons(), skill);
  }

  /** ASCII lower-casing leaves whitespace alone and distributes over concatenation. */
  lemma LowerPadded(pre: string, s: string, post: string)
    requires Text.AllWhitespace(pre, Text.IsJsWhitespace) && Text.AllWhitespace(post, Text.IsJsWhitespace)
    ensures Text.Lower(pre + s + post) == pre + Text.Lower(s) + post
  {
  }

  /** Surrounding whitespace does not change the normalised text. */
  lemma NormalisePadded(pre: string, s: string, post: string)
    requires Text.AllWhitespace(pre, Text.IsJsWhitespace) && Text.AllWhitespace(post, Text.IsJsWhitespace)
    ensures Normalise(pre + s + post) == Normalise(s)
  {
    LowerPadded(pre, s, post);
    Text.TrimIgnoresPadding(pre, Text.Lower(s), post, Text.IsJsWhitespace);
  }

  /** Surrounding whitespace does not change the icon. */
  lemma IconIgnoresPadding(table: Entries<string>, pre: string, s: string, post: string)
    requires Text.AllWhitespace(pre, Text.IsJsWhitespace) && Text.AllWhitespace(post, Text.IsJsWhitespace)
    ensures IconIn(table, pre + s + post) == IconIn(table, s)
  {
    NormalisePadded(pre, s, post);
  }

  /** A padded spelling of a key shows that key's icon. */
  lemma PaddedKeyIcon(table: Entries<string>, pre: string, word: string, post: string, icon: string)
    requires Text.AllWhitespace(pre, Text.IsJsWhitespace) && Text.AllWhitespace(post, Text.IsJsWhitespace)
    requires Lookup(table, Normalise(word)) == Some(Leaf(icon)) && icon != ""
    ensures IconIn(table, pre + word + post) == icon
  {
    IconIgnoresPadding(table, pre, word, post);
  }

  /** A padded spelling of a missing key shows the default icon. */
  lemma PaddedMissIcon(table: Entries<string>, pre: string, word: string, post: string)
    requires Text.AllWhitespace(pre, Text.IsJsWhitespace) && Text.AllWhitespace(post, Text.IsJsWhitespace)
    requires Lookup(table, Normalise(word)).None?
    ensures IconIn(table, pre + word + post) == Wrench
  {
    IconIgnoresPadding(table, pre, word, post);
  }

  // ---------------------------------------------------------------------------
  // The colour (lines 105-115) and the label (line 127)
  // ---------------------------------------------------------------------------

  /** The six entries of `colors`, in order. */
  datatype Color = Blue | Purple | Green | Orange | Pink | Indigo

  /** `colors`. */
  const Palette: seq<Color> := [Blue, Purple, Green, Orange, Pink, Indigo]

  /** The class string of each colour. */
  function ClassName(c: Color): string {
    match c
    case Blue => "bg-blue-100 text-blue-700 border-blue-200"
    case Purple => "bg-purple-100 text-purple-700 border-purple-200"
    case Green => "bg-green-100 text-green-700 border-green-200"
    case Orange => "bg-orange-100 text-orange-700 border-orange-200"
    case Pink => "bg-pink-100 text-pink-700 border-pink-200"
    case Indigo => "bg-indigo-100 text-indigo-700 border-indigo-200"
  }

  /** `skill.length % colors.length`, on the untrimmed text, in UTF-16 units;
      `colors` has six entries. */
  function ColorIndex(skill: string): (i: nat)
    ensures i < |Palette|
  {
    Text.Utf16Length(skill) % 6
  }

  /** `colors[colorIndex]`. */
  function ColorOf(skill: string): Color {
    Palette[ColorIndex(skill)]
  }

  /** What the badge shows. */
  datatype Badge = Badge(icon: string, colorClass: string, text: string)

  /** `SkillBadge({skill})`: the text shown is the skill exactly as given. */
  function Render(skill: string): (b: Badge)
    ensures b.text == skill
    ensures b.icon == Icon(skill) && b.colorClass == ClassName(ColorOf(skill))
  {
    Badge(Icon(skill), ClassName(ColorOf(skill)), skill)
  }

  /** The six colours are distinct, so two skills share a colour exactly when
      they share an index. */
  lemma SameColorIffSameIndex(a: string, b: string)
    ensures ColorOf(a) == ColorOf(b) <==> ColorIndex(a) == ColorIndex(b)
  {
    var i, j := ColorIndex(a), ColorIndex(b);
    if Palette[i] == Palette[j] {
      assert i == j;
    }
  }

  /** Appending six UTF-16 units cycles back to the same colour. */
  lemma ColorRepeatsEverySix(s: string, t: string)
    requires Text.Utf16Length(t) == |Palette|
    ensures ColorOf(s + t) == ColorOf(s)
  {
    SuffixShiftsIndex(s, t);
    SameColorIffSameIndex(s + t, s);
  }

  lemma SuffixShiftsIndex(s: string, t: string)
    ensures ColorIndex(s + t) == ColorIndex(s) <==> Text.Utf16Length(t) % 6 == 0
  {
    Text.Utf16LengthAppend(s, t);
    ShiftModSix(Text.Utf16Length(t), Text.Utf16Length(s), Text.Utf16Length(s + t));
  }

  /** Adding `x` to `y` keeps its remainder modulo six exactly when six divides `x`. */
  lemma ShiftModSix(x: nat, y: nat, sum: nat)
    requires sum == x + y
    ensures sum % 6 == y % 6 <==> x % 6 == 0
  {
    var r, r2 := x % 6, y % 6;
    if r + r2 < 6 {
      ModSixOf(sum, x / 6 + y / 6, r + r2);
    } else {
      ModSixOf(sum, x / 6 + y / 6 + 1, r + r2 - 6);
    }
  }

  /** The remainder of a number written as six times something plus a digit. */
  lemma ModSixOf(n: int, q: int, d: int)
    requires 0 <= d < 6 && n == 6 * q + d
    ensures n % 6 == d
  {
  }

  /** A prefix keeps the colour exactly when its length is a multiple of six. */
  lemma PrefixChangesColor(pre: string, s: string)
    ensures ColorOf(pre + s) == ColorOf(s) <==> Text.Utf16Length(pre) % 6 == 0
  {
    PrefixShiftsIndex(pre, s);
    SameColorIffSameIndex(pre + s, s);
  }

  lemma PrefixShiftsIndex(pre: string, s: string)
    ensures ColorIndex(pre + s) == ColorIndex(s) <==> Text.Utf16Length(pre) % 6 == 0
  {
    Text.Utf16LengthAppend(pre, s);
    ShiftModSix(Text.Utf16Length(pre), Text.Utf16Length(s), Text.Utf16Length(pre + s));
  }
}

/** Worked examples of the badge rules. */
module SkillBadgeExamples {
  import opened Wrappers
  import opened Translations
  import opened SkillIconTable
  import opened SkillBadge
  import Text

  lemma LowerReact()
    ensures Text.Lower("React") == "react" && Text.Lower("react") == "react"
  {
  }

  lemma TrimReact()
    ensures Text.Trim("react", Text.IsJsWhitespace) == "react"
  {
    Text.TrimOfTrimmed("react", Text.IsJsWhitespace);
  }

  lemma NormaliseReact()
    ensures Normalise("React") == "react" && Normalise("react") == "react"
  {
    LowerReact();
    TrimReact();
  }

  lemma NormaliseCobol()
    ensures Normalise("COBOL") == "cobol"
  {
    LowerCobol();
    Text.TrimOfTrimmed("cobol", Text.IsJsWhitespace);
  }

  lemma LowerCobol()
    ensures Text.Lower("COBOL") == "cobol"
  {
  }

  /** Any text that normalises to `'react'`, with any whitespace around it, shows '⚛️'. */
  lemma ReactSpellingIcon(pre: string, word: string, post: string)
    requires Text.AllWhitespace(pre, Text.IsJsWhitespace) && Text.AllWhitespace(post, Text.IsJsWhitespace)
    requires Normalise(word) == "react"
    ensures Icon(pre + word + post) == "⚛️"
  {
    ReactInTable();
    PaddedKeyIcon(SkillIcons(), pre, word, post, "⚛️");
  }

  /** `'React'` and `'react'`, padded or not, show '⚛️'. */
  lemma ReactIcon(pre: string, post: string)
    requires Text.AllWhitespace(pre, Text.IsJsWhitespace) && Text.AllWhitespace(post, Text.IsJsWhitespace)
    ensures Icon(pre + "React" + post) == "⚛️"
    ensures Icon(pre + "react" + post) == "⚛️"
  {
    NormaliseReact();
    ReactSpellingIcon(pre, "React", post);
    ReactSpellingIcon(pre, "react", post);
  }

  /** `'Go'` and `'C#'` have the same length and so the same colour. */
  lemma GoAndCSharpShareColor()
    ensures ColorOf("Go") == ColorOf("C#") == Green
  {
  }

  /** `' React'` is one unit longer than `'React'`, so the two differ in colour. */
  lemma ReactColors()
    ensures ColorOf(" React") == Blue && ColorOf("React") == Indigo
  {
  }

  /** `'COBOL'`, with any whitespace around it, gets the default icon. */
  lemma UnknownSkillIcon(pre: string, post: string)
    requires Text.AllWhitespace(pre, Text.IsJsWhitespace) && Text.AllWhitespace(post, Text.IsJsWhitespace)
    ensures Icon(pre + "COBOL" + post) == Wrench
  {
    NormaliseCobol();
    CobolNotInTable();
    PaddedMissIcon(SkillIcons(), pre, "COBOL", post);
  }
}
