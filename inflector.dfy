/**
 * Fuel\Common\Inflector: ordinal suffixes, rule-table pluralisation and singularisation,
 * and the string helpers that split, join and re-case class and table names.
 *
 * A regular-expression rule is modelled by what the inflector asks of it: whether it
 * matches a word (preg_match) and what the word becomes (preg_replace). Only the last two
 * pluralisation rules, '/s$/' and '/$/', are modelled concretely.
 */
module Inflection {
  import opened Wrappers
  import Ascii

  datatype Rule = Rule(matches: string -> bool, rewrite: string -> string)

  /** Whether the word ends in a newline: PCRE's `$` (no D modifier) also matches just before it. */
  predicate EndsInNewline(w: string) {
    |w| > 0 && w[|w| - 1] == '\n'
  }

  /** What '/s$/' matches: a lower-case s at the end, or just before a final newline. */
  predicate EndsInS(w: string) {
    (|w| > 0 && w[|w| - 1] == 's') || (EndsInNewline(w) && |w| > 1 && w[|w| - 2] == 's')
  }

  /**
   * preg_replace('/$/', 's', w): `$` matches at the end and, when the word ends in a
   * newline, also just before it, so both places receive an s.
   */
  function AppendAtEnds(w: string): (r: string)
    ensures EndsInNewline(w) ==> |r| == |w| + 2 && r[..|w| - 1] == w[..|w| - 1] && r[|w| - 1..] == "s\ns"
    ensures !EndsInNewline(w) ==> |r| == |w| + 1 && r[..|w|] == w && r[|w|] == 's'
  {
    if EndsInNewline(w) then w[..|w| - 1] + "s\n" + "s" else w + "s"
  }

  /** '/s$/' => 's': the matched s is replaced by itself, so the word is left as it is. */
  function KeepTrailingS(): Rule {
    Rule(w => EndsInS(w), w => w)
  }

  /** '/$/' => 's': matches every word; an s is placed wherever `$` matches. */
  function AppendS(): Rule {
    Rule(w => true, w => AppendAtEnds(w))
  }

  /** The uncountable words of the class (src/Inflector.php lines 26-29). */
  const DefaultUncountable: seq<string> :=
    ["equipment", "information", "rice", "money", "species", "series", "fish", "meta"]

  /**
   * The inflector's rule tables: the uncountable words, the pluralisation rules before
   * the final '/s$/' and '/$/', and the singularisation rules, each in table order.
   */
  datatype Inflector = Inflector(uncountable: seq<string>, pluralHead: seq<Rule>, singularRules: seq<Rule>)
  {
    function PluralRules(): (rules: seq<Rule>)
      ensures |rules| == |pluralHead| + 2
      ensures rules[..|pluralHead|] == pluralHead
      ensures rules[|pluralHead|] == KeepTrailingS() && rules[|pluralHead| + 1] == AppendS()
    {
      pluralHead + [KeepTrailingS(), AppendS()]
    }
  }

  // ---------------------------------------------------------------------------------------
  // Ordinals

  /** PHP's `%`: the remainder takes the sign of the dividend. */
  function PhpRem(a: int, m: int): (r: int)
    requires m > 0
    ensures -m < r < m
    ensures a >= 0 ==> r == a % m
    ensures a < 0 ==> r <= 0 && r == -((-a) % m)
  {
    if a >= 0 then a % m else -((-a) % m)
  }

  /** An argument of ordinalize(): a number (its text and integer value) or anything else. */
  datatype OrdinalArg = NumberArg(text: string, value: int) | NotANumber(text: string)

  /**
   * The suffix ordinalize() picks: th for remainders 11 to 13 modulo 100, otherwise st, nd
   * or rd for last digits 1, 2 and 3, and th for anything else.
   */
  function OrdinalSuffix(n: int): (r: string)
    ensures r in {"st", "nd", "rd", "th"}
    ensures 11 <= PhpRem(n, 100) <= 13 ==> r == "th"
    ensures PhpRem(n, 10) !in {1, 2, 3} ==> r == "th"
  {
    if 11 <= PhpRem(n, 100) <= 13 then "th"
    else
      match PhpRem(n, 10)
      case 1 => "st"
      case 2 => "nd"
      case 3 => "rd"
      case _ => "th"
  }

  /** ordinalize(): the number followed by its suffix; a non-number is returned unchanged. */
  function Ordinalize(x: OrdinalArg): (r: string)
    ensures x.NotANumber? ==> r == x.text
    ensures x.NumberArg? ==> r == x.text + OrdinalSuffix(x.value)
  {
    match x
    case NotANumber(t) => t
    case NumberArg(t, v) => t + OrdinalSuffix(v)
  }

  /** The suffix rules for non-negative numbers, each in both directions. */
  lemma {:induction false} OrdinalSuffixRules(n: nat)
    ensures OrdinalSuffix(n) == "st" <==> n % 10 == 1 && n % 100 != 11
    ensures OrdinalSuffix(n) == "nd" <==> n % 10 == 2 && n % 100 != 12
    ensures OrdinalSuffix(n) == "rd" <==> n % 10 == 3 && n % 100 != 13
    ensures OrdinalSuffix(n) == "th" <==> (11 <= n % 100 <= 13 || n % 10 !in {1, 2, 3})
  {
    var h, u := n % 100, n % 10;
    assert u == h % 10;
  }

  /** Under PHP's `%` a negative number's remainders are never positive, so its suffix is th. */
  lemma NegativeOrdinalsEndInTh(n: int)
    requires n < 0
    ensures OrdinalSuffix(n) == "th"
  {
  }

  // ---------------------------------------------------------------------------------------
  // Rule tables

  /** The position of the first rule that matches, if any. */
  function FirstMatch(rules: seq<Rule>, word: string): (r: Option<nat>)
    ensures r != None ==> r.value < |rules| && rules[r.value].matches(word)
    ensures r != None ==> forall j :: 0 <= j < r.value ==> !rules[j].matches(word)
    ensures r == None ==> forall j :: 0 <= j < |rules| ==> !rules[j].matches(word)
  {
    if |rules| == 0 then None
    else if rules[0].matches(word) then Some(0)
    else
      match FirstMatch(rules[1..], word)
      case None => None
      case Some(k) => Some(k + 1)
  }

  /** The word rewritten by the first matching rule only, or unchanged when none matches. */
  function RewriteFirst(rules: seq<Rule>, word: string): (r: string)
    ensures (exists k :: 0 <= k < |rules| && rules[k].matches(word) &&
                         (forall j :: 0 <= j < k ==> !rules[j].matches(word)) &&
                         r == rules[k].rewrite(word))
            || ((forall j :: 0 <= j < |rules| ==> !rules[j].matches(word)) && r == word)
  {
    match FirstMatch(rules, word)
    case Some(k) => rules[k].rewrite(word)
    case None => word
  }

  /**
   * The foreach loop of pluralize()/singularize(): rules are tried in table order and the
   * first one that matches rewrites the word, after which the loop stops.
   */
  method ApplyFirstRule(rules: seq<Rule>, word: string) returns (result: string)
    ensures result == RewriteFirst(rules, word)
  {
    result := word;
    var i := 0;
    while i < |rules|
      invariant 0 <= i <= |rules|
      invariant forall j :: 0 <= j < i ==> !rules[j].matches(word)
      invariant result == word
    {
      if rules[i].matches(result) {
        result := rules[i].rewrite(result);
        return;
      }
      i := i + 1;
    }
  }

  /** isCountable(): the lower-cased word is not one of the uncountable words. */
  predicate IsCountable(inf: Inflector, word: string) {
    Ascii.Lower(word) !in inf.uncountable
  }

  /**
   * pluralize(): a count of exactly 1 or an uncountable word leaves the word alone;
   * otherwise the first matching pluralisation rule is applied.
   */
  method Pluralize(inf: Inflector, word: string, count: int) returns (r: string)
    ensures count == 1 || !IsCountable(inf, word) ==> r == word
    ensures count != 1 && IsCountable(inf, word) ==> r == RewriteFirst(inf.PluralRules(), word)
  {
    r := word;
    if count == 1 {
      return;
    }
    if !IsCountable(inf, r) {
      return;
    }
    r := ApplyFirstRule(inf.PluralRules(), r);
  }

  /** singularize(): an uncountable word is unchanged; otherwise the first matching rule applies. */
  method Singularize(inf: Inflector, word: string) returns (r: string)
    ensures !IsCountable(inf, word) ==> r == word
    ensures IsCountable(inf, word) ==> r == RewriteFirst(inf.singularRules, word)
  {
    r := word;
    if !IsCountable(inf, r) {
      return;
    }
    r := ApplyFirstRule(inf.singularRules, r);
  }

  /**
   * Because '/$/' matches every word, a countable word always has some pluralisation rule
   * applied; when no rule before '/s$/' matches, the word is left alone if '/s$/' matches
   * it and otherwise gains an s wherever `$` matches.
   */
  lemma PluralRulesAlwaysMatch(inf: Inflector, word: string)
    ensures FirstMatch(inf.PluralRules(), word) != None
    ensures (forall j :: 0 <= j < |inf.pluralHead| ==> !inf.pluralHead[j].matches(word)) ==>
              RewriteFirst(inf.PluralRules(), word) == (if EndsInS(word) then word else AppendAtEnds(word))
  {
    var rules := inf.PluralRules();
    var last := |rules| - 1;
    assert rules[last].matches(word);
  }

  /**
   * isCountable() ignores case: a word and its lower-cased form are countable alike, for
   * any list of uncountable words.
   */
  lemma UncountableInAnyCase(inf: Inflector, word: string)
    ensures IsCountable(inf, word) <==> IsCountable(inf, Ascii.Lower(word))
  {
    Ascii.LowerIdempotent(word);
  }

  /** With the class's own list, "Fish" and "MONEY" are uncountable and "fishes" is not. */
  lemma DefaultUncountableWords(inf: Inflector)
    requires inf.uncountable == DefaultUncountable
    ensures !IsCountable(inf, "Fish") && !IsCountable(inf, "MONEY")
    ensures IsCountable(inf, "fishes")
  {
    assert Ascii.Lower("Fish") == "fish";
    assert Ascii.Lower("MONEY") == "money";
    assert Ascii.Lower("fishes") == "fishes";
  }

  // ---------------------------------------------------------------------------------------
  // camelize

  /**
   * preg_replace_callback('/(^|_)(.)/', ...) past the start of the subject: an underscore
   * and the character after it (not a newline) become that character upper-cased.
   */
  function CamelizeRest(s: string): (r: string)
    ensures |r| <= |s|
    ensures |s| > 0 ==> |r| > 0
    decreases |s|
  {
    if |s| < 2 then s
    else if s[0] == '_' && s[1] != '\n' then [Ascii.UpperChar(s[1])] + CamelizeRest(s[2..])
    else [s[0]] + CamelizeRest(s[1..])
  }

  /** camelize(): the first character (unless a newline) is upper-cased, then CamelizeRest. */
  function Camelize(s: string): (r: string)
    ensures |r| <= |s| && (|s| > 0 ==> |r| > 0)
    ensures |s| > 0 && s[0] != '\n' ==> r[0] == Ascii.UpperChar(s[0])
  {
    if |s| == 0 then s
    else if s[0] != '\n' then [Ascii.UpperChar(s[0])] + CamelizeRest(s[1..])
    else CamelizeRest(s)
  }

  /** A word of an underscored name: not empty, no underscore, no newline. */
  predicate IsNamePart(w: string) {
    |w| > 0 && '_' !in w && '\n' !in w
  }

  /** The parts joined with underscores, "a_b_c". */
  function JoinUnderscore(parts: seq<string>): string {
    if |parts| == 0 then ""
    else if |parts| == 1 then parts[0]
    else parts[0] + "_" + JoinUnderscore(parts[1..])
  }

  /** The parts each upper-cased on its first character, concatenated. */
  function ConcatCapitalised(parts: seq<string>): string {
    if |parts| == 0 then "" else Ascii.UpperFirst(parts[0]) + ConcatCapitalised(parts[1..])
  }

  lemma {:induction false} CamelizeRestSkipsPlainText(u: string, v: string)
    requires '_' !in u
    ensures CamelizeRest(u + v) == u + CamelizeRest(v)
    decreases |u|
  {
    var s := u + v;
    if |u| == 0 {
      assert s == v;
    } else if |s| < 2 {
      assert v == [] && s == u;
    } else {
      assert s[0] == u[0] && u[0] != '_';
      assert s[1..] == u[1..] + v;
      assert '_' !in u[1..] by {
        assert forall i :: 0 <= i < |u[1..]| ==> u[1..][i] == u[i + 1];
      }
      CamelizeRestSkipsPlainText(u[1..], v);
      calc {
        CamelizeRest(s);
        [u[0]] + CamelizeRest(u[1..] + v);
        [u[0]] + (u[1..] + CamelizeRest(v));
        { assert u == [u[0]] + u[1..]; }
        u + CamelizeRest(v);
      }
    }
  }

  /** camelize() of a single name part only upper-cases its first character. */
  lemma CamelizeNamePart(w: string)
    requires IsNamePart(w)
    ensures Camelize(w) == Ascii.UpperFirst(w)
  {
    assert w[0] in w;
    assert '_' !in w[1..] by {
      assert forall i :: 0 <= i < |w[1..]| ==> w[1..][i] == w[i + 1];
    }
    CamelizeRestSkipsPlainText(w[1..], "");
    assert w[1..] + "" == w[1..];
  }

  /** camelize() of "w_rest": the part w capitalised, then rest camelized on its own. */
  lemma CamelizeJoinedStep(w: string, rest: string)
    requires IsNamePart(w) && |rest| > 0 && rest[0] != '\n'
    ensures Camelize(w + "_" + rest) == Ascii.UpperFirst(w) + Camelize(rest)
  {
    assert w[0] in w;
    assert '_' !in w[1..] by {
      assert forall i :: 0 <= i < |w[1..]| ==> w[1..][i] == w[i + 1];
    }
    var s := w + "_" + rest;
    var r := "_" + rest;
    assert s[0] == w[0] && s[1..] == w[1..] + r;
    CamelizeRestSkipsPlainText(w[1..], r);
    assert r[0] == '_' && r[1] == rest[0] && r[2..] == rest[1..];
    assert CamelizeRest(r) == Camelize(rest);
    calc {
      Camelize(s);
      [Ascii.UpperChar(w[0])] + CamelizeRest(w[1..] + r);
      [Ascii.UpperChar(w[0])] + (w[1..] + Camelize(rest));
      ([Ascii.UpperChar(w[0])] + w[1..]) + Camelize(rest);
    }
  }

  lemma {:induction false} JoinUnderscoreStart(parts: seq<string>)
    requires |parts| > 0 && forall i :: 0 <= i < |parts| ==> IsNamePart(parts[i])
    ensures |JoinUnderscore(parts)| > 0 && JoinUnderscore(parts)[0] != '\n'
  {
    assert IsNamePart(parts[0]) && parts[0][0] in parts[0];
  }

  /**
   * camelize() on underscore-joined parts upper-cases the first character of every part
   * and removes the underscores: "foo_bar_baz" becomes "FooBarBaz".
   */
  lemma {:induction false} CamelizeJoined(parts: seq<string>)
    requires forall i :: 0 <= i < |parts| ==> IsNamePart(parts[i])
    ensures Camelize(JoinUnderscore(parts)) == ConcatCapitalised(parts)
  {
    if |parts| == 1 {
      CamelizeNamePart(parts[0]);
      assert ConcatCapitalised(parts[1..]) == "";
    } else if |parts| > 1 {
      JoinUnderscoreStart(parts[1..]);
      CamelizeJoinedStep(parts[0], JoinUnderscore(parts[1..]));
      CamelizeJoined(parts[1..]);
    }
  }

  // ---------------------------------------------------------------------------------------
  // humanize, demodulize

  /** Every occurrence of `from` replaced by `to` (str_replace with one-character strings). */
  function ReplaceChar(s: string, from: char, to: char): (r: string)
    ensures |r| == |s|
    ensures forall i :: 0 <= i < |s| ==> r[i] == if s[i] == from then to else s[i]
  {
    seq(|s|, i requires 0 <= i < |s| => if s[i] == from then to else s[i])
  }

  /** humanize()'s separator: a dash if asked for, an underscore otherwise. */
  function HumanizeSeparator(sep: string): char {
    if sep != "-" then '_' else '-'
  }

  /**
   * humanize(): with `lowercase` the first character is upper-cased first; every
   * separator then becomes a space.
   */
  function Humanize(s: string, sep: string, lowercase: bool): (r: string)
    ensures |r| == |s| && HumanizeSeparator(sep) !in r
    ensures forall i :: 0 < i < |s| ==> r[i] == if s[i] == HumanizeSeparator(sep) then ' ' else s[i]
    ensures |s| > 0 ==> r[0] == if s[0] == HumanizeSeparator(sep) then ' '
                               else if lowercase then Ascii.UpperChar(s[0]) else s[0]
  {
    var c := HumanizeSeparator(sep);
    var t := if lowercase then Ascii.UpperFirst(s) else s;
    assert |s| > 0 && s[0] == c ==> t[0] == c;
    ReplaceChar(t, c, ' ')
  }

  /** The length of the first line: the position of the first newline, or the whole length. */
  function FirstLineLength(s: string): (n: nat)
    ensures n <= |s| && '\n' !in s[..n]
    ensures n < |s| ==> s[n] == '\n'
  {
    if |s| == 0 then 0
    else if s[0] == '\n' then 0
    else
      var n := 1 + FirstLineLength(s[1..]);
      assert s[..n] == [s[0]] + s[1..][..n - 1];
      n
  }

  /** Whether "::" occupies positions j and j + 1. */
  predicate ColonsAt(s: string, j: int) {
    0 <= j && j + 1 < |s| && s[j] == ':' && s[j + 1] == ':'
  }

  /** The end of the last "::" that ends at or before k, or 0 when there is none. */
  function LastColonsEnd(s: string, k: nat): (e: nat)
    requires k <= |s|
    ensures e <= k
    ensures e > 0 ==> e >= 2 && ColonsAt(s, e - 2)
    ensures forall j :: e - 1 <= j && j + 2 <= k ==> !ColonsAt(s, j)
    decreases k
  {
    if k < 2 then 0
    else if ColonsAt(s, k - 2) then k
    else LastColonsEnd(s, k - 1)
  }

  /**
   * demodulize(): preg_replace('/^.*::/', '', ...) drops everything through the last "::"
   * of the first line (`.` does not cross a newline).
   */
  function Demodulize(s: string): (r: string)
    ensures |r| <= |s| && r == s[|s| - |r|..]
    ensures var e, n := |s| - |r|, FirstLineLength(s);
            e <= n && (e == 0 || ColonsAt(s, e - 2)) &&
            forall j :: e - 1 <= j && j + 2 <= n ==> !ColonsAt(s, j)
  {
    s[LastColonsEnd(s, FirstLineLength(s))..]
  }

  lemma {:induction false} NoColonsMeansNoCut(s: string, k: nat)
    requires k <= |s|
    requires forall j :: 0 <= j && j + 2 <= k ==> !ColonsAt(s, j)
    ensures LastColonsEnd(s, k) == 0
    decreases k
  {
    if k >= 2 {
      NoColonsMeansNoCut(s, k - 1);
    }
  }

  /** demodulize() is idempotent: what it leaves has no "::" left on its first line. */
  lemma DemodulizeIdempotent(s: string)
    ensures Demodulize(Demodulize(s)) == Demodulize(s)
  {
    var n := FirstLineLength(s);
    var e := LastColonsEnd(s, n);
    var t := s[e..];
    assert FirstLineLength(t) == n - e by {
      FirstLineOfSuffix(s, e);
    }
    forall j | 0 <= j && j + 2 <= n - e
      ensures !ColonsAt(t, j)
    {
      assert !ColonsAt(s, j + e);
      assert t[j] == s[j + e] && t[j + 1] == s[j + 1 + e];
    }
    NoColonsMeansNoCut(t, n - e);
  }

  lemma {:induction false} FirstLineOfSuffix(s: string, e: nat)
    requires e <= FirstLineLength(s)
    ensures FirstLineLength(s[e..]) == FirstLineLength(s) - e
    decreases e
  {
    if e > 0 {
      assert s[0] != '\n';
      FirstLineOfSuffix(s[1..], e - 1);
      assert s[1..][e - 1..] == s[e..];
    }
  }

  // ---------------------------------------------------------------------------------------
  // Namespaces

  function TrimLeadingBackslashes(s: string): (r: string)
    ensures |r| <= |s| && r == s[|s| - |r|..]
    ensures forall i :: 0 <= i < |s| - |r| ==> s[i] == '\\'
    ensures |r| > 0 ==> r[0] != '\\'
  {
    if |s| > 0 && s[0] == '\\' then TrimLeadingBackslashes(s[1..]) else s
  }

  function TrimTrailingBackslashes(s: string): (r: string)
    ensures |r| <= |s| && r == s[..|r|]
    ensures forall i :: |r| <= i < |s| ==> s[i] == '\\'
    ensures |r| > 0 ==> r[|r| - 1] != '\\'
  {
    if |s| > 0 && s[|s| - 1] == '\\' then TrimTrailingBackslashes(s[..|s| - 1]) else s
  }

  /** r is s from position i on, with only backslashes cut from either side of it. */
  predicate TrimmedAt(s: string, r: string, i: int) {
    0 <= i <= |s| - |r| && r == s[i..i + |r|] &&
    (forall j :: 0 <= j < i ==> s[j] == '\\') &&
    (forall j :: i + |r| <= j < |s| ==> s[j] == '\\')
  }

  /** trim($name, '\\'): backslashes removed from both ends. */
  function TrimBackslashes(s: string): (r: string)
    ensures |r| > 0 ==> r[0] != '\\' && r[|r| - 1] != '\\'
    ensures exists i :: TrimmedAt(s, r, i)
  {
    var t := TrimLeadingBackslashes(s);
    var r := TrimTrailingBackslashes(t);
    assert |r| > 0 ==> r[0] == t[0];
    var i := |s| - |t|;
    assert r == s[i..i + |r|];
    assert forall j :: i + |r| <= j < |s| ==> s[j] == t[j - i];
    assert TrimmedAt(s, r, i);
    r
  }

  /** strrpos($s, '\\'): the position of the last backslash. */
  function LastBackslash(s: string): (r: Option<nat>)
    ensures r != None ==> r.value < |s| && s[r.value] == '\\' && '\\' !in s[r.value + 1..]
    ensures r == None ==> '\\' !in s
  {
    if |s| == 0 then None
    else if s[|s| - 1] == '\\' then Some(|s| - 1)
    else
      var r := LastBackslash(s[..|s| - 1]);
      assert s == s[..|s| - 1] + [s[|s| - 1]];
      r
  }

  /** What follows the last backslash of a trimmed name (`if ($pos = strrpos(...))`). */
  function ClassPart(t: string): string {
    match LastBackslash(t)
    case Some(k) => if k != 0 then t[k + 1..] else t
    case None => t
  }

  /** What precedes the class part: up to and including the last backslash, else "". */
  function NamespacePart(t: string): string {
    match LastBackslash(t)
    case Some(k) => if k != 0 then t[..k + 1] else ""
    case None => ""
  }

  /** On a name that does not start with a backslash, the two parts split it at its last one. */
  lemma SplitTrimmed(t: string)
    requires |t| == 0 || t[0] != '\\'
    ensures NamespacePart(t) + ClassPart(t) == t
    ensures '\\' !in ClassPart(t)
    ensures NamespacePart(t) == "" || NamespacePart(t)[|NamespacePart(t)| - 1] == '\\'
    ensures '\\' in t <==> NamespacePart(t) != ""
  {
    match LastBackslash(t)
    case Some(k) =>
      assert k != 0;
      assert t[..k + 1] + t[k + 1..] == t;
      assert t[k] in t;
    case None =>
  }

  /** denamespace(): the trimmed name after its last backslash. */
  function Denamespace(name: string): (r: string)
    ensures '\\' !in r
    ensures |r| <= |TrimBackslashes(name)| && r == TrimBackslashes(name)[|TrimBackslashes(name)| - |r|..]
  {
    var t := TrimBackslashes(name);
    SplitTrimmed(t);
    ClassPart(t)
  }

  /** getNamespace(): the trimmed name up to and including its last backslash, else "". */
  function GetNamespace(name: string): (r: string)
    ensures |r| <= |TrimBackslashes(name)| && r == TrimBackslashes(name)[..|r|]
    ensures r == "" || r[|r| - 1] == '\\'
  {
    var t := TrimBackslashes(name);
    SplitTrimmed(t);
    NamespacePart(t)
  }

  /**
   * The namespace and the class name split the trimmed name: together they are the whole
   * trimmed name, the class name holds no backslash, and the namespace is empty or ends in
   * a backslash.
   */
  lemma NamespaceSplit(name: string)
    ensures GetNamespace(name) + Denamespace(name) == TrimBackslashes(name)
    ensures '\\' !in Denamespace(name)
    ensures GetNamespace(name) == "" || GetNamespace(name)[|GetNamespace(name)| - 1] == '\\'
    ensures '\\' in TrimBackslashes(name) <==> GetNamespace(name) != ""
  {
    SplitTrimmed(TrimBackslashes(name));
  }

  // ---------------------------------------------------------------------------------------
  // wordsToUpper, classify

  /** The characters ucwords() treats as word delimiters. */
  predicate IsUcwordsDelimiter(c: char) {
    c == ' ' || c == '\t' || c == '\r' || c == '\n' || c == 12 as char || c == 11 as char
  }

  /** Whether ucwords() upper-cases position i: the start, or just after a delimiter. */
  predicate StartsWord(s: string, i: int)
    requires 0 <= i < |s|
  {
    i == 0 || IsUcwordsDelimiter(s[i - 1])
  }

  /** ucwords(): the first character and every character after a delimiter upper-cased. */
  function UcWords(s: string): (r: string)
    ensures |r| == |s|
    ensures forall i :: 0 <= i < |s| ==> r[i] == if StartsWord(s, i) then Ascii.UpperChar(s[i]) else s[i]
  {
    seq(|s|, i requires 0 <= i < |s| => if StartsWord(s, i) then Ascii.UpperChar(s[i]) else s[i])
  }

  /**
   * wordsToUpper(): separators become spaces, ucwords() runs, and spaces (the original
   * ones included) become separators.
   */
  function WordsToUpper(s: string, sep: char): (r: string)
    ensures |r| == |s|
    ensures sep != ' ' ==> ' ' !in r
  {
    ReplaceChar(UcWords(ReplaceChar(s, sep, ' ')), ' ', sep)
  }

  /**
   * What wordsToUpper() does at each position: separators and spaces become separators,
   * and a character at the start or after a separator or other delimiter is upper-cased.
   */
  lemma WordsToUpperAt(s: string, sep: char, i: int)
    requires 0 <= i < |s|
    ensures WordsToUpper(s, sep)[i] ==
              if s[i] == sep || s[i] == ' ' then sep
              else if i == 0 || s[i - 1] == sep || IsUcwordsDelimiter(s[i - 1]) then Ascii.UpperChar(s[i])
              else s[i]
  {
    var t := ReplaceChar(s, sep, ' ');
    var u := UcWords(t);
    assert i > 0 ==> (IsUcwordsDelimiter(t[i - 1]) <==> s[i - 1] == sep || IsUcwordsDelimiter(s[i - 1]));
    assert Ascii.UpperChar(t[i]) == ' ' <==> t[i] == ' ';
  }

  /** classify(): the (by default singularised) table name with its words upper-cased. */
  method Classify(inf: Inflector, name: string, forceSingular: bool) returns (r: string)
    ensures forceSingular ==> r == WordsToUpper(if IsCountable(inf, name) then RewriteFirst(inf.singularRules, name) else name, '_')
    ensures !forceSingular ==> r == WordsToUpper(name, '_')
  {
    var c := name;
    if forceSingular {
      c := Singularize(inf, name);
    }
    r := WordsToUpper(c, '_');
  }
}
