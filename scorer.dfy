/** The lexical similarity score the Mapping page ranks candidate codes by:
    normalised term tokens, their Jaccard similarity, and bonuses for equal
    or prefix-related codes and for a shared long token. Scores are exact
    rationals. */
module Scorer {
  import opened Seqs
  import opened Text
  import opened Catalog

  predicate IsWordChar(c: char) { 'a' <= c <= 'z' || '0' <= c <= '9' }

  /** `replace(/[^a-z0-9\s]/g, " ")` */
  function Scrub(s: string): (r: string)
    ensures |r| == |s|
    ensures forall i :: 0 <= i < |r| ==> IsWordChar(r[i]) || IsSpace(r[i])
  {
    seq(|s|, i requires 0 <= i < |s| => if IsWordChar(s[i]) || IsSpace(s[i]) then s[i] else ' ')
  }

  /** `replace(/\s+/g, " ")`: every run of white space becomes one space. */
  function Squeeze(s: string): (r: string)
    ensures s == [] <==> r == []
    ensures s != [] ==> r[0] == if IsSpace(s[0]) then ' ' else s[0]
    ensures forall i :: 0 <= i < |r| - 1 ==> r[i] != ' ' || r[i + 1] != ' '
    ensures (forall i :: 0 <= i < |s| ==> IsWordChar(s[i]) || IsSpace(s[i])) ==>
      forall i :: 0 <= i < |r| ==> IsWordChar(r[i]) || r[i] == ' '
    decreases |s|
  {
    if s == [] then []
    else if IsSpace(s[0]) then [' '] + Squeeze(TrimStart(s[1..]))
    else [s[0]] + Squeeze(s[1..])
  }

  /** Only letters a-z, digits and single inner spaces. */
  predicate IsNormal(r: string) {
    && (forall i :: 0 <= i < |r| ==> IsWordChar(r[i]) || r[i] == ' ')
    && (r == [] || (r[0] != ' ' && r[|r| - 1] != ' '))
    && (forall i :: 0 <= i < |r| - 1 ==> r[i] != ' ' || r[i + 1] != ' ')
  }

  /** Word characters and single spaces only. */
  predicate IsSqueezed(s: string) {
    && (forall i :: 0 <= i < |s| ==> IsWordChar(s[i]) || s[i] == ' ')
    && (forall i :: 0 <= i < |s| - 1 ==> s[i] != ' ' || s[i + 1] != ' ')
  }

  lemma SliceSqueezed(s: string, a: nat, b: nat)
    requires IsSqueezed(s) && a <= b <= |s|
    ensures IsSqueezed(s[a..b])
  {
    var t := s[a..b];
    assert forall i :: 0 <= i < |t| ==> t[i] == s[a + i];
  }

  /** Trimming a squeezed string normalises it. */
  lemma TrimNormal(s: string)
    requires IsSqueezed(s)
    ensures IsNormal(Trim(s))
  {
    var t := TrimStart(s);
    SliceSqueezed(s, |s| - |t|, |s|);
    var u := TrimEnd(t);
    SliceSqueezed(t, 0, |u|);
    assert u == Trim(s);
  }

  /** `norm(s)` */
  function Norm(s: string): (r: string)
    ensures IsNormal(r)
  {
    var x := Squeeze(Scrub(Lower(s)));
    TrimNormal(x);
    Trim(x)
  }

  const StopWords: set<string> := {"of", "and", "the", "a", "an", "to", "in", "on", "for"}

  /** `tokens(s)`: the words of the normalised text, without empty pieces and
      stop words. */
  function Tokens(s: string): (r: seq<string>)
    ensures forall k :: 0 <= k < |r| ==> r[k] != "" && r[k] !in StopWords
    ensures forall k :: 0 <= k < |r| ==> ' ' !in r[k]
  {
    Filter(Filter(Split(Norm(s), ' '), t => t != ""), t => t !in StopWords)
  }

  function SetOf(s: seq<string>): set<string> { set x | x in s }

  /** Jaccard similarity of two token sets; 0 when both are empty. */
  function JaccardOf(a: set<string>, b: set<string>): real {
    if |a + b| == 0 then 0.0 else |a * b| as real / |a + b| as real
  }

  lemma JaccardRange(a: set<string>, b: set<string>)
    ensures 0.0 <= JaccardOf(a, b) <= 1.0
  {
    assert a * b <= a + b;
    SubsetCard(a * b, a + b);
    if |a + b| != 0 {
      RatioUnit(|a * b|, |a + b|);
    }
  }

  /** A part over its whole lies in [0, 1]. */
  lemma RatioUnit(n: nat, d: nat)
    requires n <= d && 0 < d
    ensures 0.0 <= n as real / d as real <= 1.0
  {
    var q := n as real / d as real;
    assert q * (d as real) == n as real;
  }

  lemma SubsetCard(x: set<string>, y: set<string>)
    requires x <= y
    ensures |x| <= |y|
    ensures |x| == |y| ==> x == y
  {
    assert y == x + (y - x);
    assert x * (y - x) == {};
  }

  lemma JaccardSymmetric(a: set<string>, b: set<string>)
    ensures JaccardOf(a, b) == JaccardOf(b, a)
  {
    assert a + b == b + a && a * b == b * a;
  }

  /** The similarity is 1 exactly for two equal non-empty sets and 0 exactly
      when the sets share nothing. */
  lemma JaccardExtremes(a: set<string>, b: set<string>)
    ensures JaccardOf(a, b) == 1.0 <==> a == b && a != {}
    ensures JaccardOf(a, b) == 0.0 <==> a * b == {}
  {
    SubsetCard(a * b, a + b);
    if a + b != {} && |a * b| == |a + b| {
      assert a * b == a + b;
      assert a <= a + b && b <= a + b;
    }
    if a == b && a != {} {
      assert a * b == a + b;
    }
  }

  /** Moving `x` from the unvisited members of A to the visited ones adds
      one to the count of shared members exactly when B has `x`. */
  lemma CountStep(setA: set<string>, setB: set<string>, rest: set<string>, x: string)
    requires rest <= setA && x in rest
    ensures |(setA - (rest - {x})) * setB| == |(setA - rest) * setB| + (if x in setB then 1 else 0)
  {
    assert (setA - (rest - {x})) == (setA - rest) + {x};
    if x in setB {
      assert (setA - (rest - {x})) * setB == (setA - rest) * setB + {x};
    } else {
      assert (setA - (rest - {x})) * setB == (setA - rest) * setB;
    }
  }

  /** `jaccard(a, b)`: count the members of A that B has, then divide by the
      size of the union. */
  method Jaccard(a: seq<string>, b: seq<string>) returns (r: real)
    ensures r == JaccardOf(SetOf(a), SetOf(b))
  {
    var setA := SetOf(a);
    var setB := SetOf(b);
    var inter := 0;
    var rest := setA;
    while rest != {}
      invariant rest <= setA
      invariant inter == |(setA - rest) * setB|
      decreases |rest|
    {
      var x :| x in rest;
      CountStep(setA, setB, rest, x);
      if x in setB {
        inter := inter + 1;
      }
      rest := rest - {x};
    }
    assert setA - rest == setA;
    var uni := |setA| + |setB| - inter;
    assert uni == |setA + setB|;
    r := if uni != 0 then inter as real / uni as real else 0.0;
  }

  /** The code part of the score: 0.65 for equal non-empty codes, else 0.25
      when both are non-empty and one starts with the other. */
  function CodePart(codeA: string, codeB: string): (r: real)
    ensures 0.0 <= r <= 0.65
  {
    if codeA != "" && codeA == codeB then 0.65
    else if codeA != "" && codeB != "" && (StartsWith(codeA, codeB) || StartsWith(codeB, codeA)) then 0.25
    else 0.0
  }

  /** Some token of six or more characters of `tb` is also in `ta`. */
  predicate SharesLong(ta: seq<string>, tb: seq<string>) {
    exists j :: 0 <= j < |tb| && |tb[j]| >= 6 && tb[j] in ta
  }

  /** 0.05 when a token of six or more characters is in both token lists. */
  function LongBonus(ta: seq<string>, tb: seq<string>): (r: real)
    ensures 0.0 <= r <= 0.05
  {
    if SharesLong(ta, tb) then 0.05 else 0.0
  }

  /** `Math.min(1, code + 0.6 * sim + bonus)` */
  function Combine(code: real, sim: real, bonus: real): (r: real)
    requires 0.0 <= code && 0.0 <= sim <= 1.0 && 0.0 <= bonus
    ensures 0.0 <= r <= 1.0
    ensures r >= code || r == 1.0
  {
    var raw := code + 0.6 * sim + bonus;
    if 1.0 < raw then 1.0 else raw
  }

  /** The similarity of two terms' token sets. */
  function TermSimilarity(termA: string, termB: string): (r: real)
    ensures 0.0 <= r <= 1.0
  {
    JaccardRange(SetOf(Tokens(termA)), SetOf(Tokens(termB)));
    JaccardOf(SetOf(Tokens(termA)), SetOf(Tokens(termB)))
  }

  /** The score `scorePair(src, dst)` computes. */
  function Score(src: CodeEntry, dst: CodeEntry): (r: real)
    ensures 0.0 <= r <= 1.0
    ensures r >= CodePart(Lower(src.code), Lower(dst.code)) || r == 1.0
  {
    Combine(CodePart(Lower(src.code), Lower(dst.code)), TermSimilarity(src.term, dst.term),
            LongBonus(Tokens(src.term), Tokens(dst.term)))
  }

  /** `scorePair(src, dst)`, accumulating the score step by step. */
  method ScorePair(src: CodeEntry, dst: CodeEntry) returns (r: real)
    ensures r == Score(src, dst)
    ensures 0.0 <= r <= 1.0
  {
    var score := 0.0;
    var codeA := Lower(src.code);
    var codeB := Lower(dst.code);
    if codeA != "" && codeA == codeB {
      score := score + 0.65;
    } else if codeA != "" && codeB != "" && (StartsWith(codeA, codeB) || StartsWith(codeB, codeA)) {
      score := score + 0.25;
    }
    assert score == CodePart(codeA, codeB);
    var ta := Tokens(src.term);
    var tb := Tokens(dst.term);
    var sim := Jaccard(ta, tb);
    assert sim == TermSimilarity(src.term, dst.term);
    score := score + 0.6 * sim;
    var bump := LongTokenBump(ta, tb);
    score := score + bump;
    r := if 1.0 < score then 1.0 else score;
    assert r == Combine(CodePart(codeA, codeB), sim, bump);
  }

  /** The pass of `scorePair` over the destination tokens: `bump` becomes
      0.05 at the first token that is a long token of the source. */
  method LongTokenBump(ta: seq<string>, tb: seq<string>) returns (bump: real)
    ensures bump == LongBonus(ta, tb)
  {
    var long := set t | t in ta && |t| >= 6;
    bump := 0.0;
    var i := 0;
    while i < |tb|
      invariant 0 <= i <= |tb|
      invariant bump == LongBonus(ta, tb[..i])
    {
      assert tb[..i + 1] == tb[..i] + [tb[i]];
      if tb[i] in long {
        bump := if bump < 0.05 then 0.05 else bump;
      }
      i := i + 1;
    }
    assert tb[..i] == tb;
  }

  lemma CodePartSymmetric(codeA: string, codeB: string)
    ensures CodePart(codeA, codeB) == CodePart(codeB, codeA)
  {
  }

  lemma LongBonusSymmetric(ta: seq<string>, tb: seq<string>)
    ensures LongBonus(ta, tb) == LongBonus(tb, ta)
  {
  }

  lemma TermSimilaritySymmetric(termA: string, termB: string)
    ensures TermSimilarity(termA, termB) == TermSimilarity(termB, termA)
  {
    JaccardSymmetric(SetOf(Tokens(termA)), SetOf(Tokens(termB)));
  }

  /** The score does not depend on which row is the source. */
  lemma ScoreSymmetric(src: CodeEntry, dst: CodeEntry)
    ensures Score(src, dst) == Score(dst, src)
  {
    TermSimilaritySymmetric(src.term, dst.term);
    LongBonusSymmetric(Tokens(src.term), Tokens(dst.term));
    CodePartSymmetric(Lower(src.code), Lower(dst.code));
  }

  /** Equal non-empty codes, compared without case, score at least 0.65. */
  lemma EqualCodesScore(src: CodeEntry, dst: CodeEntry)
    requires src.code != "" && Lower(src.code) == Lower(dst.code)
    ensures Score(src, dst) >= 0.65
  {
    assert Lower(src.code) != "";
    assert CodePart(Lower(src.code), Lower(dst.code)) == 0.65;
  }

  /** The prefix bonus applies exactly when the codes differ, both are
      non-empty, and one starts with the other. */
  lemma PrefixBonusWhen(codeA: string, codeB: string)
    ensures CodePart(codeA, codeB) == 0.25 <==>
      codeA != codeB && codeA != "" && codeB != "" && (StartsWith(codeA, codeB) || StartsWith(codeB, codeA))
    ensures CodePart(codeA, codeB) == 0.65 <==> codeA != "" && codeA == codeB
  {
  }

  /** However many long tokens the terms share, the bonus is at most 0.05. */
  lemma LongBonusBound(ta: seq<string>, tb: seq<string>)
    ensures LongBonus(ta, tb) == 0.0 || LongBonus(ta, tb) == 0.05
  {
  }

  /** A row whose term has at least one token scores at least 0.6 against
      itself, and 1 when its code is non-empty as well. */
  lemma SelfScore(e: CodeEntry)
    requires Tokens(e.term) != []
    ensures Score(e, e) >= 0.6
    ensures e.code != "" ==> Score(e, e) == 1.0
  {
    var s := SetOf(Tokens(e.term));
    assert Tokens(e.term)[0] in s;
    JaccardExtremes(s, s);
    assert TermSimilarity(e.term, e.term) == 1.0;
    if e.code != "" {
      assert Lower(e.code) != "";
      assert CodePart(Lower(e.code), Lower(e.code)) == 0.65;
    }
  }
}
