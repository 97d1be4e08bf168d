/**
 * toSnakeCase (OpenApiMapper.java:281-288, identical in the draft at 256-263):
 * trim, lower-case, replace every run of characters outside [a-z0-9] by one
 * "_", collapse runs of "_", strip leading and trailing "_", and fall back to
 * "tool" when nothing is left. Each regex pass is a function below.
 */
module Slug {
  import opened Wrappers

  /** The class [a-z0-9] of the first regex. */
  predicate IsWordChar(c: char) {
    'a' <= c <= 'z' || '0' <= c <= '9'
  }

  predicate IsSlugChar(c: char) {
    IsWordChar(c) || c == '_'
  }

  predicate NotUnderscore(c: char) {
    c != '_'
  }

  predicate AllSlugChars(s: string) {
    forall i :: 0 <= i < |s| ==> IsSlugChar(s[i])
  }

  predicate NoDoubleUnderscore(s: string) {
    forall i :: 0 < i < |s| ==> !(s[i - 1] == '_' && s[i] == '_')
  }

  /** A well-formed slug: [a-z0-9_]+, not starting or ending with "_", no "__". */
  predicate IsSlug(s: string) {
    && |s| > 0
    && AllSlugChars(s)
    && s[0] != '_'
    && s[|s| - 1] != '_'
    && NoDoubleUnderscore(s)
  }

  /** The letters and digits of `s`, in order. */
  function WordChars(s: string): string
  {
    if s == [] then [] else (if IsWordChar(s[0]) then [s[0]] else []) + WordChars(s[1..])
  }

  /** String.trim: drop leading characters up to U+0020. */
  function TrimStart(s: string): (r: string)
    ensures |r| <= |s| && r == s[|s| - |r|..]
    ensures forall i :: 0 <= i < |s| - |r| ==> s[i] <= ' '
    ensures r == [] || r[0] > ' '
  {
    if s != [] && s[0] <= ' ' then TrimStart(s[1..]) else s
  }

  /** String.trim: drop trailing characters up to U+0020. */
  function TrimEnd(s: string): (r: string)
    ensures |r| <= |s| && r == s[..|r|]
    ensures forall i :: |r| <= i < |s| ==> s[i] <= ' '
    ensures r == [] || r[|r| - 1] > ' '
  {
    if s != [] && s[|s| - 1] <= ' ' then TrimEnd(s[..|s| - 1]) else s
  }

  function Trim(s: string): string
  {
    TrimEnd(TrimStart(s))
  }

  /** toLowerCase(Locale.ROOT) on ASCII letters. */
  function LowerChar(c: char): char
  {
    if 'A' <= c <= 'Z' then (c as int + 32) as char else c
  }

  function Lower(s: string): string
  {
    seq(|s|, i requires 0 <= i < |s| => LowerChar(s[i]))
  }

  /**
   * replaceAll("[^k]+", "_") for the character class `keep`: every maximal run of
   * characters outside the class becomes a single "_". `inRun` says that the
   * previous character was outside the class and its "_" is already written.
   */
  function Squash(s: string, keep: char -> bool, inRun: bool): string
    decreases |s|
  {
    if s == [] then []
    else if keep(s[0]) then [s[0]] + Squash(s[1..], keep, false)
    else if inRun then Squash(s[1..], keep, true)
    else "_" + Squash(s[1..], keep, true)
  }

  /** replaceAll("^_+", ""). */
  function StripLeading(s: string): (r: string)
    ensures |r| <= |s| && r == s[|s| - |r|..]
    ensures forall i :: 0 <= i < |s| - |r| ==> s[i] == '_'
    ensures r == [] || r[0] != '_'
  {
    if s != [] && s[0] == '_' then StripLeading(s[1..]) else s
  }

  /** replaceAll("_+$", ""). */
  function StripTrailing(s: string): (r: string)
    ensures |r| <= |s| && r == s[..|r|]
    ensures forall i :: |r| <= i < |s| ==> s[i] == '_'
    ensures r == [] || r[|r| - 1] != '_'
  {
    if s != [] && s[|s| - 1] == '_' then StripTrailing(s[..|s| - 1]) else s
  }

  /** The string before the "tool" fallback. */
  function Normalize(s: string): string
  {
    var t := Lower(Trim(s));
    var u := Squash(t, IsWordChar, false);
    var v := Squash(u, NotUnderscore, false);
    StripTrailing(StripLeading(v))
  }

  /** toSnakeCase; `None` is a null argument. */
  function ToSnakeCase(s: Option<string>): string
  {
    match s
    case None => "tool"
    case Some(text) =>
      var t := Normalize(text);
      if t == [] then "tool" else t
  }

  // ---------------------------------------------------------------------------
  // Lemmas on the passes

  lemma {:induction false} WordCharsAppend(a: string, b: string)
    ensures WordChars(a + b) == WordChars(a) + WordChars(b)
    decreases |a|
  {
    if a != [] {
      var ab := a + b;
      assert ab[0] == a[0] && ab[1..] == a[1..] + b;
      WordCharsAppend(a[1..], b);
    } else {
      assert a + b == b;
    }
  }

  lemma {:induction false} WordCharsNone(s: string)
    requires forall i :: 0 <= i < |s| ==> !IsWordChar(s[i])
    ensures WordChars(s) == []
    decreases |s|
  {
    if s != [] {
      WordCharsNone(s[1..]);
    }
  }

  /** Dropping a prefix and a suffix free of letters and digits keeps the letters and digits. */
  lemma WordCharsOfMiddle(s: string, a: nat, b: nat)
    requires a <= b <= |s|
    requires forall i :: 0 <= i < a ==> !IsWordChar(s[i])
    requires forall i :: b <= i < |s| ==> !IsWordChar(s[i])
    ensures WordChars(s[a..b]) == WordChars(s)
  {
    WordCharsDropSuffix(s, b);
    WordCharsDropPrefix(s[..b], a);
    assert s[..b][a..] == s[a..b];
  }

  lemma {:induction false} WordCharsDropPrefix(s: string, a: nat)
    requires a <= |s|
    requires forall i :: 0 <= i < a ==> !IsWordChar(s[i])
    ensures WordChars(s[a..]) == WordChars(s)
    decreases a
  {
    if a == 0 {
      assert s[a..] == s;
    } else {
      var t := s[1..];
      assert forall i :: 0 <= i < a - 1 ==> t[i] == s[i + 1];
      WordCharsDropPrefix(t, a - 1);
      assert t[a - 1..] == s[a..];
      assert !IsWordChar(s[0]);
    }
  }

  lemma WordCharsDropSuffix(s: string, b: nat)
    requires b <= |s|
    requires forall i :: b <= i < |s| ==> !IsWordChar(s[i])
    ensures WordChars(s[..b]) == WordChars(s)
  {
    var post := s[b..];
    assert forall i :: 0 <= i < |post| ==> post[i] == s[b + i];
    WordCharsNone(post);
    assert s == s[..b] + post;
    WordCharsAppend(s[..b], post);
    assert WordChars(s[..b]) + [] == WordChars(s[..b]);
  }

  lemma LowerSlice(s: string, a: nat, b: nat)
    requires a <= b <= |s|
    ensures Lower(s[a..b]) == Lower(s)[a..b]
  {
    assert forall i :: 0 <= i < b - a ==> Lower(s[a..b])[i] == LowerChar(s[a + i]);
  }

  lemma BlankIsNoWordChar(c: char)
    requires c <= ' '
    ensures !IsWordChar(LowerChar(c))
  {
  }

  /** String.trim keeps a slice whose dropped ends are all blank. */
  lemma TrimSlice(s: string) returns (a: nat, b: nat)
    ensures a <= b <= |s| && Trim(s) == s[a..b]
    ensures forall i :: 0 <= i < a ==> s[i] <= ' '
    ensures forall i :: b <= i < |s| ==> s[i] <= ' '
  {
    var u := TrimStart(s);
    a := |s| - |u|;
    assert u == s[a..];
    var t := TrimEnd(u);
    b := a + |t|;
    assert t == u[..|t|];
    assert s[a..][..|t|] == s[a..b];
    forall i | b <= i < |s| ensures s[i] <= ' ' {
      assert |t| <= i - a < |u|;
      assert u[i - a] == s[i];
    }
  }

  /** Trimming removes no letter or digit. */
  lemma TrimKeepsWordChars(s: string)
    ensures WordChars(Lower(Trim(s))) == WordChars(Lower(s))
  {
    var a, b := TrimSlice(s);
    LowerSlice(s, a, b);
    var l := Lower(s);
    forall i | 0 <= i < a ensures !IsWordChar(l[i]) {
      BlankIsNoWordChar(s[i]);
    }
    forall i | b <= i < |s| ensures !IsWordChar(l[i]) {
      BlankIsNoWordChar(s[i]);
    }
    WordCharsOfMiddle(l, a, b);
  }

  /** Squashing runs outside a class that contains every letter and digit keeps the letters and digits. */
  lemma {:induction false} SquashKeepsWordChars(s: string, keep: char -> bool, inRun: bool)
    requires forall c :: IsWordChar(c) ==> keep(c)
    ensures WordChars(Squash(s, keep, inRun)) == WordChars(s)
    decreases |s|
  {
    if s != [] {
      SquashKeepsWordChars(s[1..], keep, !keep(s[0]));
      if keep(s[0]) {
        WordCharsAppend([s[0]], Squash(s[1..], keep, false));
      } else if !inRun {
        WordCharsAppend("_", Squash(s[1..], keep, true));
      }
    }
  }

  /** When "_" is outside the class, squashing leaves no "__", and a run in progress is not repeated. */
  lemma {:induction false} SquashNoDouble(s: string, keep: char -> bool, inRun: bool)
    requires !keep('_')
    ensures NoDoubleUnderscore(Squash(s, keep, inRun))
    ensures inRun ==> Squash(s, keep, inRun) == [] || Squash(s, keep, inRun)[0] != '_'
    decreases |s|
  {
    if s != [] {
      SquashNoDouble(s[1..], keep, !keep(s[0]));
      var r := Squash(s, keep, inRun);
      if keep(s[0]) {
        var t := Squash(s[1..], keep, false);
        assert r == [s[0]] + t;
        forall i | 0 < i < |r| ensures !(r[i - 1] == '_' && r[i] == '_') {
          if i > 1 { assert r[i - 1] == t[i - 2] && r[i] == t[i - 1]; }
        }
      } else if !inRun {
        var t := Squash(s[1..], keep, true);
        assert r == "_" + t;
        forall i | 0 < i < |r| ensures !(r[i - 1] == '_' && r[i] == '_') {
          if i > 1 { assert r[i - 1] == t[i - 2] && r[i] == t[i - 1]; }
        }
      }
    }
  }

  /** The first pass leaves only [a-z0-9_]. */
  lemma {:induction false} SquashWordCharsSlugChars(s: string, inRun: bool)
    ensures AllSlugChars(Squash(s, IsWordChar, inRun))
    decreases |s|
  {
    if s != [] {
      SquashWordCharsSlugChars(s[1..], !IsWordChar(s[0]));
    }
  }

  /** The second pass writes no character that was not already there, or "_". */
  lemma {:induction false} SquashUnderscoresSlugChars(s: string, inRun: bool)
    requires AllSlugChars(s)
    ensures AllSlugChars(Squash(s, NotUnderscore, inRun))
    decreases |s|
  {
    if s != [] {
      SquashUnderscoresSlugChars(s[1..], s[0] == '_');
    }
  }

  /** On a string that is already squashed, a squash changes nothing. */
  lemma {:induction false} SquashIdentity(s: string, keep: char -> bool, inRun: bool)
    requires !keep('_')
    requires forall i :: 0 <= i < |s| ==> keep(s[i]) || s[i] == '_'
    requires NoDoubleUnderscore(s)
    requires inRun ==> s == [] || s[0] != '_'
    ensures Squash(s, keep, inRun) == s
    decreases |s|
  {
    if s != [] {
      var t := s[1..];
      assert forall i :: 0 < i < |t| ==> t[i - 1] == s[i] && t[i] == s[i + 1];
      assert s[0] == '_' && t != [] ==> t[0] == s[1] && s[1] != '_';
      SquashIdentity(t, keep, !keep(s[0]));
    }
  }

  /** Stripping "_" at either end keeps the letters, the digits, the alphabet and the absence of "__". */
  lemma StripKeeps(v: string)
    ensures WordChars(StripTrailing(StripLeading(v))) == WordChars(v)
    ensures AllSlugChars(v) ==> AllSlugChars(StripTrailing(StripLeading(v)))
    ensures NoDoubleUnderscore(v) ==> NoDoubleUnderscore(StripTrailing(StripLeading(v)))
  {
    var w := StripLeading(v);
    var x := StripTrailing(w);
    var a := |v| - |w|;
    var b := a + |x|;
    assert x == v[a..b];
    forall i | b <= i < |v| ensures v[i] == '_' {
      assert v[i] == w[i - a];
    }
    WordCharsOfMiddle(v, a, b);
    assert forall i :: 0 <= i < |x| ==> x[i] == v[a + i];
  }

  // ---------------------------------------------------------------------------
  // Properties of toSnakeCase

  /** Before the fallback: [a-z0-9_]* with no leading, trailing or doubled "_". */
  lemma NormalizeWellFormed(s: string)
    ensures AllSlugChars(Normalize(s)) && NoDoubleUnderscore(Normalize(s))
    ensures Normalize(s) == [] || (Normalize(s)[0] != '_' && Normalize(s)[|Normalize(s)| - 1] != '_')
  {
    var t := Lower(Trim(s));
    var u := Squash(t, IsWordChar, false);
    var v := Squash(u, NotUnderscore, false);
    SquashWordCharsSlugChars(t, false);
    SquashUnderscoresSlugChars(u, false);
    SquashNoDouble(u, NotUnderscore, false);
    StripKeeps(v);
  }

  /** Every slug is non-empty, uses only [a-z0-9_], and has no leading, trailing or doubled "_". */
  lemma SlugIsWellFormed(s: Option<string>)
    ensures IsSlug(ToSnakeCase(s))
  {
    var tool := "tool";
    assert IsSlug(tool) by {
      assert forall i :: 0 <= i < |tool| ==> IsWordChar(tool[i]);
    }
    if s.Some? {
      NormalizeWellFormed(s.value);
    }
  }

  lemma NormalizeKeepsWordChars(s: string)
    ensures WordChars(Normalize(s)) == WordChars(Lower(s))
  {
    var t := Lower(Trim(s));
    var u := Squash(t, IsWordChar, false);
    var v := Squash(u, NotUnderscore, false);
    TrimKeepsWordChars(s);
    SquashKeepsWordChars(t, IsWordChar, false);
    SquashKeepsWordChars(u, NotUnderscore, false);
    StripKeeps(v);
  }

  /**
   * The slug keeps exactly the letters and digits of the lower-cased input, in
   * order, and is "tool" when the input has none (or is null).
   */
  lemma SlugKeepsWordChars(s: string)
    ensures WordChars(Lower(s)) == [] ==> ToSnakeCase(Some(s)) == "tool"
    ensures WordChars(Lower(s)) != [] ==> WordChars(ToSnakeCase(Some(s))) == WordChars(Lower(s))
  {
    NormalizeKeepsWordChars(s);
    NormalizeWellFormed(s);
    var n := Normalize(s);
    if n != [] {
      assert IsWordChar(n[0]);
      assert WordChars(n) == [n[0]] + WordChars(n[1..]);
    }
  }

  /** A well-formed slug is its own slug, so slugging twice is slugging once. */
  lemma SlugIdempotent(w: string)
    requires IsSlug(w)
    ensures ToSnakeCase(Some(w)) == w
  {
    assert TrimStart(w) == w;
    assert TrimEnd(w) == w;
    assert Lower(w) == w;
    SquashIdentity(w, IsWordChar, false);
    SquashIdentity(w, NotUnderscore, false);
    assert StripLeading(w) == w;
    assert StripTrailing(w) == w;
  }

  lemma SlugTwice(s: Option<string>)
    ensures ToSnakeCase(Some(ToSnakeCase(s))) == ToSnakeCase(s)
  {
    SlugIsWellFormed(s);
    SlugIdempotent(ToSnakeCase(s));
  }

  /** A text with no letters or digits, the empty one included, becomes "tool". */
  lemma EmptySlug()
    ensures ToSnakeCase(Some("")) == "tool"
  {
    assert Lower("") == [];
    SlugKeepsWordChars("");
  }

  // ---------------------------------------------------------------------------
  // Where the "_" go: the words of the text joined by single "_"

  /** A word: one or more letters or digits. */
  predicate IsWord(w: string) {
    |w| > 0 && forall i :: 0 <= i < |w| ==> IsWordChar(w[i])
  }

  /** A separator: no letter or digit (it may be empty). */
  predicate IsSeparator(w: string) {
    forall i :: 0 <= i < |w| ==> !IsWordChar(w[i])
  }

  /** ws[0] + "_" + ws[1] + "_" + ... + ws[n-1]. */
  function JoinWords(ws: seq<string>): string
    decreases |ws|
  {
    if ws == [] then [] else if |ws| == 1 then ws[0] else ws[0] + "_" + JoinWords(ws[1..])
  }

  /** ws[0] + seps[0] + ws[1] + seps[1] + ... : a text cut after each word. */
  function Layout(ws: seq<string>, seps: seq<string>): string
    requires |seps| == |ws|
    decreases |ws|
  {
    if ws == [] then [] else ws[0] + seps[0] + Layout(ws[1..], seps[1..])
  }

  /**
   * `lead + Layout(ws, seps)` cuts a text into its maximal runs of letters and
   * digits: every ws[i] is a word, every separator is free of letters and
   * digits, and every separator between two words is non-empty. Every text has
   * such a cut (CutOf, CutOfSpec).
   */
  predicate IsCut(ws: seq<string>, seps: seq<string>) {
    && |seps| == |ws|
    && (forall i :: 0 <= i < |ws| ==> IsWord(ws[i]))
    && (forall i :: 0 <= i < |seps| ==> IsSeparator(seps[i]))
    && (forall i :: 0 <= i < |seps| - 1 ==> |seps[i]| > 0)
  }

  /** "_" for a non-empty separator, nothing for an empty one. */
  function Mark(sep: string): string
  {
    if sep == [] then [] else "_"
  }

  lemma {:induction false} SquashWord(w: string, rest: string, inRun: bool)
    requires IsWord(w)
    ensures Squash(w + rest, IsWordChar, inRun) == w + Squash(rest, IsWordChar, false)
    decreases |w|
  {
    assert (w + rest)[0] == w[0] && (w + rest)[1..] == w[1..] + rest;
    if |w| > 1 {
      SquashWord(w[1..], rest, false);
      assert [w[0]] + (w[1..] + Squash(rest, IsWordChar, false)) == w + Squash(rest, IsWordChar, false);
    }
  }

  lemma {:induction false} SquashSeparator(sep: string, rest: string, inRun: bool)
    requires IsSeparator(sep)
    ensures Squash(sep + rest, IsWordChar, inRun)
         == (if inRun then [] else Mark(sep)) + Squash(rest, IsWordChar, inRun || sep != [])
    decreases |sep|
  {
    if sep == [] {
      assert sep + rest == rest;
    } else {
      assert (sep + rest)[0] == sep[0] && (sep + rest)[1..] == sep[1..] + rest;
      SquashSeparator(sep[1..], rest, true);
    }
  }

  /** A run of letters and digits starts the same whether or not a run of other characters precedes it. */
  lemma SquashAtWord(s: string)
    requires s != [] && IsWordChar(s[0])
    ensures Squash(s, IsWordChar, true) == Squash(s, IsWordChar, false)
  {
  }

  /** The tail of a cut is a cut. */
  lemma CutTail(ws: seq<string>, seps: seq<string>)
    requires IsCut(ws, seps) && ws != []
    ensures IsCut(ws[1..], seps[1..])
  {
    assert forall i :: 0 <= i < |ws| - 1 ==> ws[1..][i] == ws[i + 1] && seps[1..][i] == seps[i + 1];
  }

  /** A cut text starts with the first letter of its first word. */
  lemma LayoutStart(ws: seq<string>, seps: seq<string>)
    requires |seps| == |ws| && ws != [] && IsWord(ws[0])
    ensures var l := Layout(ws, seps); l != [] && IsWordChar(l[0])
  {
    var l := Layout(ws, seps);
    assert l == ws[0] + (seps[0] + Layout(ws[1..], seps[1..]));
    assert l[0] == ws[0][0];
  }

  /** One word and its separator squashed: the word, then a "_" for a non-empty separator. */
  lemma SquashLayoutHead(ws: seq<string>, seps: seq<string>)
    requires IsCut(ws, seps) && ws != []
    ensures Squash(Layout(ws, seps), IsWordChar, false)
         == ws[0] + Mark(seps[0]) + Squash(Layout(ws[1..], seps[1..]), IsWordChar, seps[0] != [])
  {
    var w, sep, rest := ws[0], seps[0], Layout(ws[1..], seps[1..]);
    assert Layout(ws, seps) == w + (sep + rest);
    assert IsWord(w) && IsSeparator(sep);
    SquashWord(w, sep + rest, false);
    SquashSeparator(sep, rest, false);
    assert w + (Mark(sep) + Squash(rest, IsWordChar, sep != [])) == w + Mark(sep) + Squash(rest, IsWordChar, sep != []);
  }

  /** The squash of a cut text: its words joined by "_", plus "_" for a non-empty last separator. */
  lemma {:induction false} SquashLayout(ws: seq<string>, seps: seq<string>)
    requires IsCut(ws, seps) && ws != []
    ensures Squash(Layout(ws, seps), IsWordChar, false) == JoinWords(ws) + Mark(seps[|seps| - 1])
    decreases |ws|
  {
    SquashLayoutHead(ws, seps);
    var w, sep, rest := ws[0], seps[0], Layout(ws[1..], seps[1..]);
    var m := Mark(seps[|seps| - 1]);
    if |ws| == 1 {
      assert rest == [];
      assert w + Mark(sep) + [] == JoinWords(ws) + m;
    } else {
      CutTail(ws, seps);
      SquashLayout(ws[1..], seps[1..]);
      assert IsWord(ws[1..][0]);
      LayoutStart(ws[1..], seps[1..]);
      SquashAtWord(rest);
      var j := JoinWords(ws[1..]);
      assert Mark(sep) == "_";
      assert w + "_" + (j + m) == (w + "_" + j) + m;
    }
  }

  /** A join of words starts with the first word's first letter and ends with the last word's last one. */
  lemma {:induction false} JoinWordsEnds(ws: seq<string>)
    requires ws != [] && forall i :: 0 <= i < |ws| ==> IsWord(ws[i])
    ensures var j := JoinWords(ws);
      |j| > 0 && IsWordChar(j[0]) && IsWordChar(j[|j| - 1])
    decreases |ws|
  {
    if |ws| > 1 {
      assert forall i :: 0 <= i < |ws| - 1 ==> ws[1..][i] == ws[i + 1];
      JoinWordsEnds(ws[1..]);
      var j := JoinWords(ws[1..]);
      assert (ws[0] + "_" + j)[0] == ws[0][0];
      assert (ws[0] + "_" + j)[|ws[0]| + 1 + |j| - 1] == j[|j| - 1];
    } else {
      assert JoinWords(ws) == ws[0];
    }
  }

  lemma StripOneLeading(p: string, x: string)
    requires p == [] || p == "_"
    requires x != [] && x[0] != '_'
    ensures StripLeading(p + x) == x
  {
    if p == [] {
      assert p + x == x;
    } else {
      assert (p + x)[1..] == x;
    }
  }

  lemma StripOneTrailing(x: string, m: string)
    requires m == [] || m == "_"
    requires x != [] && x[|x| - 1] != '_'
    ensures StripTrailing(x + m) == x
  {
    if m == [] {
      assert x + m == x;
    } else {
      assert (x + m)[..|x|] == x;
    }
  }

  lemma SquashCutEmpty(lead: string, ws: seq<string>, seps: seq<string>)
    requires IsCut(ws, seps) && IsSeparator(lead) && ws == []
    ensures Squash(lead + Layout(ws, seps), IsWordChar, false) == Mark(lead)
  {
    var l := Layout(ws, seps);
    assert l == [];
    assert lead + l == lead;
    SquashSeparator(lead, l, false);
  }

  lemma SquashCutWords(lead: string, ws: seq<string>, seps: seq<string>)
    requires IsCut(ws, seps) && IsSeparator(lead) && ws != []
    ensures Squash(lead + Layout(ws, seps), IsWordChar, false) == Mark(lead) + JoinWords(ws) + Mark(seps[|seps| - 1])
  {
    var l := Layout(ws, seps);
    SquashSeparator(lead, l, false);
    assert IsWord(ws[0]);
    LayoutStart(ws, seps);
    SquashAtWord(l);
    SquashLayout(ws, seps);
  }

  /** The words and their separators squashed, with at most one "_" either side, stripped. */
  lemma StripCut(lead: string, ws: seq<string>, seps: seq<string>)
    requires IsCut(ws, seps) && IsSeparator(lead) && ws != []
    ensures StripTrailing(StripLeading(Squash(lead + Layout(ws, seps), IsWordChar, false))) == JoinWords(ws)
  {
    var j := JoinWords(ws);
    var m := Mark(seps[|seps| - 1]);
    SquashCutWords(lead, ws, seps);
    JoinWordsEnds(ws);
    assert Mark(lead) + j + m == Mark(lead) + (j + m);
    StripOneLeading(Mark(lead), j + m);
    StripOneTrailing(j, m);
  }

  /**
   * Before the fallback, toSnakeCase joins the words of the trimmed,
   * lower-cased text (its maximal runs of [a-z0-9]) with single "_": each run
   * of other characters between two words becomes one "_", and the runs
   * before the first word and after the last leave nothing.
   */
  lemma NormalizeJoinsWords(s: string, lead: string, ws: seq<string>, seps: seq<string>)
    requires IsCut(ws, seps) && IsSeparator(lead)
    requires Lower(Trim(s)) == lead + Layout(ws, seps)
    ensures Normalize(s) == JoinWords(ws)
  {
    var t := Lower(Trim(s));
    SquashedOnce(t);
    if ws == [] {
      SquashCutEmpty(lead, ws, seps);
      assert StripLeading(Mark(lead)) == [];
    } else {
      StripCut(lead, ws, seps);
    }
  }

  /** The second squash leaves the result of the first as it is. */
  lemma SquashedOnce(t: string)
    ensures var u := Squash(t, IsWordChar, false);
      Squash(u, NotUnderscore, false) == u
  {
    var u := Squash(t, IsWordChar, false);
    SquashNoDouble(t, IsWordChar, false);
    SquashWordCharsSlugChars(t, false);
    assert forall i :: 0 <= i < |u| ==> NotUnderscore(u[i]) || u[i] == '_';
    SquashIdentity(u, NotUnderscore, false);
  }

  /** A text cut into a leading separator, its words, and the separator after each word. */
  datatype Cut = Cut(lead: string, words: seq<string>, seps: seq<string>)

  /** The cut of a text at the edges of its runs of letters and digits. */
  function CutOf(t: string): Cut
    decreases |t|
  {
    if t == [] then Cut([], [], [])
    else
      var c := CutOf(t[1..]);
      if !IsWordChar(t[0]) then c.(lead := [t[0]] + c.lead)
      else if c.lead == [] && c.words != [] then c.(words := [[t[0]] + c.words[0]] + c.words[1..])
      else Cut([], [[t[0]]] + c.words, [c.lead] + c.seps)
  }

  /** CutOf does cut the text: its pieces put back together give the text. */
  lemma {:induction false} CutOfSpec(t: string)
    ensures var c := CutOf(t);
      IsCut(c.words, c.seps) && IsSeparator(c.lead) && t == c.lead + Layout(c.words, c.seps)
    decreases |t|
  {
    if t != [] {
      var c := CutOf(t[1..]);
      CutOfSpec(t[1..]);
      var l := Layout(c.words, c.seps);
      assert t == [t[0]] + (c.lead + l);
      if !IsWordChar(t[0]) {
        assert [t[0]] + (c.lead + l) == ([t[0]] + c.lead) + l;
        assert forall i :: 1 <= i < |c.lead| + 1 ==> ([t[0]] + c.lead)[i] == c.lead[i - 1];
      } else if c.lead == [] && c.words != [] {
        CutJoinFirst(t[0], c.words, c.seps);
        assert c.lead + l == l;
      } else {
        CutPrepend(t[0], c.lead, c.words, c.seps);
      }
    }
  }

  /** A letter or digit in front of a cut with no leading separator lengthens its first word. */
  lemma CutJoinFirst(x: char, ws: seq<string>, seps: seq<string>)
    requires IsWordChar(x) && IsCut(ws, seps) && ws != []
    ensures var ws' := [[x] + ws[0]] + ws[1..];
      IsCut(ws', seps) && [x] + Layout(ws, seps) == Layout(ws', seps)
  {
    var ws' := [[x] + ws[0]] + ws[1..];
    assert ws'[1..] == ws[1..];
    var rest := Layout(ws[1..], seps[1..]);
    assert [x] + (ws[0] + seps[0] + rest) == ([x] + ws[0]) + seps[0] + rest;
    assert IsWord(ws[0]);
    assert forall i :: 1 <= i < |ws[0]| + 1 ==> ([x] + ws[0])[i] == ws[0][i - 1];
    assert forall i :: 1 <= i < |ws'| ==> ws'[i] == ws[i];
  }

  /** A letter or digit in front of a separator and a cut makes a new first word. */
  lemma CutPrepend(x: char, lead: string, ws: seq<string>, seps: seq<string>)
    requires IsWordChar(x) && IsCut(ws, seps) && IsSeparator(lead)
    requires lead == [] ==> ws == []
    ensures var ws', seps' := [[x]] + ws, [lead] + seps;
      IsCut(ws', seps') && [x] + (lead + Layout(ws, seps)) == Layout(ws', seps')
  {
    var ws', seps' := [[x]] + ws, [lead] + seps;
    assert ws'[1..] == ws && seps'[1..] == seps;
    assert [x] + (lead + Layout(ws, seps)) == [x] + lead + Layout(ws, seps);
    assert forall i :: 1 <= i < |ws'| ==> ws'[i] == ws[i - 1] && seps'[i] == seps[i - 1];
  }

  /**
   * toSnakeCase of a text: the words of the trimmed, lower-cased text (its
   * maximal runs of [a-z0-9]) joined by single "_", or "tool" when it has none.
   */
  lemma SlugJoinsWords(s: string)
    ensures var words := CutOf(Lower(Trim(s))).words;
      ToSnakeCase(Some(s)) == if words == [] then "tool" else JoinWords(words)
  {
    var c := CutOf(Lower(Trim(s)));
    CutOfSpec(Lower(Trim(s)));
    NormalizeJoinsWords(s, c.lead, c.words, c.seps);
    if c.words != [] {
      JoinWordsEnds(c.words);
    }
  }

  /** The tool name of a GET on /posts without summary or description. */
  lemma GetPostsSlug(s: string)
    requires s == "GET /posts"
    ensures ToSnakeCase(Some(s)) == "get_posts"
  {
    var ws, seps := ["get", "posts"], [" /", ""];
    GetPostsCut(s, ws, seps);
    NormalizeJoinsWords(s, [], ws, seps);
    GetPostsJoined(ws);
  }

  lemma GetPostsJoined(ws: seq<string>)
    requires ws == ["get", "posts"]
    ensures JoinWords(ws) == "get_posts"
  {
    assert JoinWords(ws[1..]) == "posts";
  }

  lemma GetPostsCut(s: string, ws: seq<string>, seps: seq<string>)
    requires s == "GET /posts" && ws == ["get", "posts"] && seps == [" /", ""]
    ensures IsCut(ws, seps) && Lower(Trim(s)) == [] + Layout(ws, seps)
  {
    assert TrimStart(s) == s;
    assert TrimEnd(s) == s;
    var t := "get /posts";
    forall i | 0 <= i < |s| ensures LowerChar(s[i]) == t[i] {
    }
    assert IsWord(ws[0]) && IsWord(ws[1]) && IsSeparator(seps[0]);
    assert Layout(ws[1..], seps[1..]) == "posts" + "" + Layout([], []);
  }
}
