/** Slugs, after Unicode decomposition: letters and digits in runs joined by single hyphens. */
module Slugify {

  predicate IsMark(c: char) { '\U{0300}' <= c <= '\U{036f}' }

  predicate IsSlugChar(c: char) { 'a' <= c <= 'z' || '0' <= c <= '9' }

  function LowerChar(c: char): char { if 'A' <= c <= 'Z' then c + ' ' else c }

  const LETTERS := "abcdefghijklmnopqrstuvwxyz"
  const CAPITALS := "ABCDEFGHIJKLMNOPQRSTUVWXYZ"
  const DIGITS := "0123456789"

  /** The alphabet of slugs. */
  lemma {:induction false} SlugAlphabet(c: char)
    ensures IsSlugChar(c) <==> c in LETTERS || c in DIGITS
  {
    IsLetter(c);
    IsDigit(c);
  }

  lemma {:induction false} IsLetter(c: char)
    ensures c in LETTERS <==> 'a' <= c <= 'z'
  {
    if 'a' <= c <= 'z' { assert c == LETTERS[c as int - 'a' as int]; }
  }

  lemma {:induction false} IsDigit(c: char)
    ensures c in DIGITS <==> '0' <= c <= '9'
  {
    if '0' <= c <= '9' { assert c == DIGITS[c as int - '0' as int]; }
  }

  /** Capitals, and only they, are folded, to the letter 32 code points on. */
  lemma {:induction false} FoldedAlphabet(c: char)
    ensures LowerChar(c) as int == if c in CAPITALS then c as int + 32 else c as int
  {
    if 'A' <= c <= 'Z' { assert c == CAPITALS[c as int - 'A' as int]; }
  }

  /** Marks dropped, case folded. */
  function Folded(s: string): string {
    if s == [] then [] else (if IsMark(s[0]) then [] else [LowerChar(s[0])]) + Folded(s[1..])
  }

  /** What follows the leading run of characters that are not slug characters. */
  function AfterGap(s: string): (r: string)
    ensures |r| <= |s| && (r != [] ==> IsSlugChar(r[0]))
  {
    if s != [] && !IsSlugChar(s[0]) then AfterGap(s[1..]) else s
  }

  /** Every maximal run of other characters becomes one hyphen. */
  function Collapse(s: string): string
    decreases |s|
  {
    if s == [] then []
    else if IsSlugChar(s[0]) then [s[0]] + Collapse(s[1..])
    else "-" + Collapse(AfterGap(s[1..]))
  }

  function DropHyphens(s: string): string { if s != [] && s[0] == '-' then DropHyphens(s[1..]) else s }

  function ChopHyphens(s: string): string {
    if s != [] && s[|s| - 1] == '-' then ChopHyphens(s[..|s| - 1]) else s
  }

  function Slug(s: string): string { ChopHyphens(DropHyphens(Collapse(Folded(s)))) }

  // ---------------------------------------------------------------------------------
  // The words of a text, and the slug as their join.

  function Word(s: string): string { if s != [] && IsSlugChar(s[0]) then [s[0]] + Word(s[1..]) else [] }

  function AfterWord(s: string): (r: string)
    ensures |r| <= |s| && (s != [] && IsSlugChar(s[0]) ==> |r| < |s|) && (r != [] ==> !IsSlugChar(r[0]))
  {
    if s != [] && IsSlugChar(s[0]) then AfterWord(s[1..]) else s
  }

  /** The maximal runs of slug characters, in order. */
  function Words(s: string): seq<string>
    decreases |s|
  {
    if s == [] then []
    else if IsSlugChar(s[0]) then [Word(s)] + Words(AfterWord(s))
    else Words(s[1..])
  }

  function Join(words: seq<string>): string {
    if words == [] then [] else if |words| == 1 then words[0] else words[0] + ("-" + Join(words[1..]))
  }

  predicate IsWord(w: string) { w != [] && forall c <- w :: IsSlugChar(c) }

  lemma {:induction false} WordIsWord(s: string)
    requires s != [] && IsSlugChar(s[0])
    ensures IsWord(Word(s)) && Word(s)[0] == s[0] && s == Word(s) + AfterWord(s)
    ensures Collapse(s) == Word(s) + Collapse(AfterWord(s))
  {
    var rest := s[1..];
    assert s == [s[0]] + rest;
    if rest != [] && IsSlugChar(rest[0]) {
      WordIsWord(rest);
      assert Word(s) == [s[0]] + Word(rest) && AfterWord(s) == AfterWord(rest);
      assert [s[0]] + (Word(rest) + Collapse(AfterWord(rest))) == Word(s) + Collapse(AfterWord(s));
    } else {
      assert Word(rest) == [] && AfterWord(rest) == rest;
      assert Word(s) == [s[0]];
    }
  }

  lemma {:induction false} GapHasNoWord(s: string)
    ensures Words(AfterGap(s)) == Words(s)
    ensures AfterGap(s) != [] ==> s != [] && AfterGap(s)[|AfterGap(s)| - 1] == s[|s| - 1]
    ensures s != [] && AfterGap(s) == [] ==> !IsSlugChar(s[|s| - 1])
  {
    if s != [] && !IsSlugChar(s[0]) { GapHasNoWord(s[1..]); }
  }

  function Edge(outer: bool): string { if outer then "-" else [] }

  predicate GapFirst(s: string) { s != [] && !IsSlugChar(s[0]) }

  predicate GapLast(s: string) { s != [] && !IsSlugChar(s[|s| - 1]) }

  /** The text collapses to its words joined by hyphens, with a hyphen at each end where the text has a gap there. */
  ghost predicate CollapsesToWords(s: string) {
    && Collapse(s) == (if Words(s) == [] then Edge(s != [])
                       else Edge(GapFirst(s)) + (Join(Words(s)) + Edge(GapLast(s))))
    && (Words(s) == [] && s != [] ==> GapLast(s))
  }

  lemma JoinOnto(w: string, words: seq<string>, edge: string)
    ensures Join([w] + words) + edge == if words == [] then w + edge else w + ("-" + (Join(words) + edge))
  {
    if words == [] {
      assert [w] + words == [w];
    } else {
      assert ([w] + words)[0] == w && ([w] + words)[1..] == words;
      assert (w + ("-" + Join(words))) + edge == w + ("-" + (Join(words) + edge));
    }
  }

  lemma {:induction false} WordLeavesTheEnd(s: string)
    ensures GapLast(s) == GapLast(AfterWord(s))
  {
    if s != [] && IsSlugChar(s[0]) {
      WordLeavesTheEnd(s[1..]);
      assert s[1..] != [] ==> s[1..][|s| - 2] == s[|s| - 1];
    }
  }

  lemma WordInFront(s: string)
    requires s != [] && IsSlugChar(s[0]) && CollapsesToWords(AfterWord(s))
    ensures CollapsesToWords(s)
  {
    WordIsWord(s);
    WordLeavesTheEnd(s);
    JoinOnto(Word(s), Words(AfterWord(s)), Edge(GapLast(s)));
    assert Collapse([]) == [] && Words([]) == [];
    assert Edge(GapFirst(s)) + (Join(Words(s)) + Edge(GapLast(s))) == Join(Words(s)) + Edge(GapLast(s));
  }

  lemma GapInFront(s: string)
    requires GapFirst(s) && CollapsesToWords(AfterGap(s[1..]))
    ensures CollapsesToWords(s)
  {
    var rest := AfterGap(s[1..]);
    GapHasNoWord(s[1..]);
    if rest != [] {
      assert Words(rest) != [] && !GapFirst(rest);
      assert s[|s| - 1] == rest[|rest| - 1];
    }
  }

  lemma {:induction false} CollapseJoinsWords(s: string)
    ensures CollapsesToWords(s)
    decreases |s|
  {
    if s != [] {
      if IsSlugChar(s[0]) {
        CollapseJoinsWords(AfterWord(s));
        WordInFront(s);
      } else {
        CollapseJoinsWords(AfterGap(s[1..]));
        GapInFront(s);
      }
    }
  }

  lemma {:induction false} WordsAreWords(s: string)
    ensures forall w <- Words(s) :: IsWord(w)
    decreases |s|
  {
    if s != [] {
      if IsSlugChar(s[0]) {
        WordIsWord(s);
        WordsAreWords(AfterWord(s));
      } else {
        WordsAreWords(s[1..]);
      }
    }
  }

  /** A slug: letters and digits in runs joined by single hyphens, none at either end. */
  ghost predicate IsSlug(s: string) {
    && (forall c <- s :: IsSlugChar(c) || c == '-')
    && (s != [] ==> s[0] != '-' && s[|s| - 1] != '-')
    && forall i :: 0 < i < |s| ==> s[i - 1] != '-' || s[i] != '-'
  }

  lemma WordIsSlug(w: string)
    requires IsWord(w)
    ensures IsSlug(w)
  {
    assert forall i :: 0 <= i < |w| ==> w[i] in w;
  }

  lemma HyphenatedIsSlug(w: string, rest: string)
    requires IsWord(w) && IsSlug(rest) && rest != []
    ensures IsSlug(w + ("-" + rest))
  {
    var s := w + ("-" + rest);
    assert forall i :: 0 <= i < |w| ==> w[i] in w;
    assert forall i :: 0 <= i < |s| ==> s[i] == if i < |w| then w[i] else if i == |w| then '-' else rest[i - |w| - 1];
    assert forall c :: c in s <==> c in w || c == '-' || c in rest;
  }

  lemma {:induction false} JoinIsSlug(words: seq<string>)
    requires forall w <- words :: IsWord(w)
    ensures IsSlug(Join(words)) && (words != [] ==> Join(words) != [])
  {
    if words != [] {
      assert words[0] in words;
      WordIsSlug(words[0]);
      if |words| > 1 {
        JoinIsSlug(words[1..]);
        HyphenatedIsSlug(words[0], Join(words[1..]));
      }
    }
  }

  lemma DropOne(s: string, hyphen: bool)
    requires s != [] && s[0] != '-'
    ensures DropHyphens(Edge(hyphen) + s) == s
  {
    assert DropHyphens(s) == s;
    if hyphen { assert ("-" + s)[1..] == s; } else { assert [] + s == s; }
  }

  lemma ChopOne(s: string, hyphen: bool)
    requires s != [] && s[|s| - 1] != '-'
    ensures ChopHyphens(s + Edge(hyphen)) == s
  {
    assert ChopHyphens(s) == s;
    if hyphen { assert (s + "-")[..|s|] == s; } else { assert s + [] == s; }
  }

  lemma EdgesGo(middle: string, first: bool, last: bool)
    requires middle != [] && middle[0] != '-' && middle[|middle| - 1] != '-'
    ensures ChopHyphens(DropHyphens(Edge(first) + (middle + Edge(last)))) == middle
  {
    var tail := middle + Edge(last);
    assert tail[0] == middle[0];
    DropOne(tail, first);
    ChopOne(middle, last);
  }

  /** A slug is the words of the folded text, in order, joined by hyphens: nothing else is lost and nothing added. */
  lemma SlugJoinsWords(s: string)
    ensures Slug(s) == Join(Words(Folded(s))) && IsSlug(Slug(s))
  {
    var folded := Folded(s);
    CollapseJoinsWords(folded);
    WordsAreWords(folded);
    JoinIsSlug(Words(folded));
    if Words(folded) != [] {
      EdgesGo(Join(Words(folded)), GapFirst(folded), GapLast(folded));
    } else {
      assert "-"[1..] == [];
    }
  }

  lemma {:induction false} FoldedSlug(s: string)
    requires forall c <- s :: IsSlugChar(c) || c == '-'
    ensures Folded(s) == s
  {
    if s != [] {
      assert s[0] in s && s == [s[0]] + s[1..];
      FoldedSlug(s[1..]);
    }
  }

  lemma {:induction false} CollapsedSlug(s: string)
    requires forall c <- s :: IsSlugChar(c) || c == '-'
    requires forall i :: 0 < i < |s| ==> s[i - 1] != '-' || s[i] != '-'
    ensures Collapse(s) == s
    decreases |s|
  {
    if s != [] {
      var rest := s[1..];
      assert s[0] in s && s == [s[0]] + rest;
      assert forall i :: 0 <= i < |rest| ==> rest[i] == s[i + 1];
      CollapsedSlug(rest);
      if !IsSlugChar(s[0]) && rest != [] {
        assert s[1] != '-' && IsSlugChar(rest[0]);
      }
    }
  }

  lemma {:induction false} NothingToTrim(s: string)
    requires s != [] ==> s[0] != '-' && s[|s| - 1] != '-'
    ensures ChopHyphens(DropHyphens(s)) == s
  {
  }

  lemma {:induction false} SlugOfASlug(s: string)
    requires IsSlug(s)
    ensures Slug(s) == s
  {
    FoldedSlug(s);
    CollapsedSlug(s);
    NothingToTrim(s);
  }

  /** The texts that are their own slug are exactly the slugs; so slugging twice changes nothing. */
  lemma {:induction false} SlugIsIdempotent(s: string)
    ensures Slug(s) == s <==> IsSlug(s)
    ensures Slug(Slug(s)) == Slug(s)
  {
    SlugJoinsWords(s);
    if IsSlug(s) { SlugOfASlug(s); }
    SlugOfASlug(Slug(s));
  }
}
