/**
  * The tokeniser of the recommender: the synonym table, term extraction with the pattern
  * `(?i)[a-z0-9]+|\p{IsHan}+`, the expansion of a term into tokens (n-grams for ideographic
  * runs, canonical form plus original for synonyms), and the count table that fromText fills.
  */
module Tokenizer {
  import opened Text

  /** A term count; counts only ever grow from 1. */
  type Count = n: nat | n > 0 witness 1

  /** CANONICAL_TERMS: surface synonym -> canonical concept. */
  const CanonicalTerms: map<string, string> := map[
    "感情" := "关系", "恋爱" := "关系", "爱情" := "关系", "婚姻" := "关系", "伴侣" := "关系",
    "对象" := "关系", "情侣" := "关系", "暧昧" := "关系", "合作" := "关系", "搭档" := "关系",
    "走向" := "未来", "趋势" := "未来", "发展" := "未来", "前景" := "未来", "接下来" := "未来",
    "之后" := "未来",
    "怎么办" := "建议", "如何" := "建议", "怎么" := "建议", "要不要" := "建议", "是否" := "建议",
    "方案" := "建议", "方向" := "建议", "选择" := "建议", "决定" := "建议",
    "困境" := "阻碍", "困难" := "阻碍", "瓶颈" := "阻碍", "压力" := "阻碍", "挑战" := "阻碍",
    "障碍" := "阻碍", "问题" := "阻碍", "阻力" := "阻碍",
    "成因" := "原因", "结局" := "结果"]

  /** normalizeToken: the canonical form of a synonym; any other token is its own canonical form. */
  function NormalizeToken(token: string): (r: string)
    ensures token !in CanonicalTerms ==> r == token
    ensures token in CanonicalTerms ==> r == CanonicalTerms[token]
  {
    if token in CanonicalTerms then CanonicalTerms[token] else token
  }

  /** The canonical concepts the synonyms map to. */
  const Concepts: set<string> := {"关系", "未来", "建议", "阻碍", "原因", "结果"}

  lemma SynonymsMapToConcepts()
    ensures forall t :: t in CanonicalTerms ==> CanonicalTerms[t] in Concepts
  {
  }

  /** The first two characters of a token of at least two characters. Head2 and SynonymHeads
      exist only for the proofs: they spare the solver from unfolding the literal synonym map. */
  function Head2(t: string): (char, char) {
    if |t| < 2 then (' ', ' ') else (t[0], t[1])
  }

  /** The first two characters of every synonym (a proof device, see Head2). */
  const SynonymHeads: set<(char, char)> := {('之', '后'), ('伴', '侣'), ('决', '定'), ('前', '景'), ('压', '力'), ('发', '展'), ('合', '作'), ('困', '境'), ('困', '难'), ('如', '何'), ('婚', '姻'), ('对', '象'), ('怎', '么'), ('恋', '爱'), ('情', '侣'), ('感', '情'), ('成', '因'), ('挑', '战'), ('接', '下'), ('搭', '档'), ('方', '向'), ('方', '案'), ('是', '否'), ('暧', '昧'), ('爱', '情'), ('瓶', '颈'), ('结', '局'), ('要', '不'), ('走', '向'), ('趋', '势'), ('选', '择'), ('问', '题'), ('阻', '力'), ('障', '碍')}

  lemma SynonymHeadsListed()
    ensures forall t :: t in CanonicalTerms ==> Head2(t) in SynonymHeads
  {
  }

  lemma ConceptsAreNotSynonyms()
    ensures forall c :: c in Concepts ==> c !in CanonicalTerms
  {
    SynonymHeadsListed();
    forall c | c in Concepts
      ensures Head2(c) !in SynonymHeads
    {
    }
  }

  /** No canonical form is itself a synonym of something else. */
  lemma CanonicalFormsAreNotSynonyms()
    ensures forall t :: t in CanonicalTerms ==> CanonicalTerms[t] !in CanonicalTerms
  {
    SynonymsMapToConcepts();
    ConceptsAreNotSynonyms();
  }

  /** Normalising twice is normalising once. */
  lemma NormalizeTokenIdempotent(token: string)
    ensures NormalizeToken(NormalizeToken(token)) == NormalizeToken(token)
  {
    CanonicalFormsAreNotSynonyms();
  }

  /** The tokens addNormalizedToken counts for one token: its canonical form, then the token
      itself when the two differ. */
  function Expand(token: string): (r: seq<string>)
    ensures 1 <= |r| <= 2 && r[0] == NormalizeToken(token)
    ensures |r| == 2 <==> NormalizeToken(token) != token
    ensures |r| == 2 ==> r[1] == token
  {
    var canonical := NormalizeToken(token);
    [canonical] + (if canonical != token then [token] else [])
  }

  /** The tokens counted for a list of tokens, one expansion after the other. */
  function ExpandAll(tokens: seq<string>): seq<string> {
    if tokens == [] then [] else Expand(tokens[0]) + ExpandAll(tokens[1..])
  }

  lemma {:induction false} ExpandAllAppend(a: seq<string>, b: seq<string>)
    ensures ExpandAll(a + b) == ExpandAll(a) + ExpandAll(b)
  {
    if a == [] {
      assert a + b == b;
    } else {
      assert (a + b)[1..] == a[1..] + b;
      ExpandAllAppend(a[1..], b);
    }
  }

  /** isAsciiTerm's condition: no character above 0x7F. */
  predicate IsAscii(term: string) {
    forall i | 0 <= i < |term| :: term[i] <= '\U{7F}'
  }

  /** isAsciiTerm: scans the term for a character above 0x7F. */
  method IsAsciiTerm(term: string) returns (b: bool)
    ensures b <==> IsAscii(term)
  {
    var i := 0;
    while i < |term|
      invariant 0 <= i <= |term|
      invariant forall k :: 0 <= k < i ==> term[k] <= '\U{7F}'
    {
      if term[i] > '\U{7F}' {
        return false;
      }
      i := i + 1;
    }
    return true;
  }

  /** The contiguous substrings of length n of a term, left to right. */
  function NGrams(term: string, n: nat): (r: seq<string>)
    requires n > 0
    ensures |r| == if |term| >= n then |term| - n + 1 else 0
    ensures forall i :: 0 <= i < |r| ==> r[i] == term[i..i + n]
  {
    if |term| < n then []
    else seq(|term| - n + 1, i requires 0 <= i <= |term| - n => term[i..i + n])
  }

  /** The sub-tokens of a multi-character ideographic term: its 2-grams, then its 3-grams. */
  function Grams(term: string): seq<string> {
    NGrams(term, 2) + NGrams(term, 3)
  }

  /** The tokens addTokens counts for one term: none for a blank term; the term itself (expanded)
      for an ASCII term or a one-character term; otherwise the expansions of its n-grams. */
  function TermTokens(term: string): seq<string> {
    if IsBlank(term) then []
    else if IsAscii(term) || |term| == 1 then Expand(term)
    else ExpandAll(Grams(term))
  }

  /** The n-gram decomposition of an ideographic term of length L >= 2: exactly its L - 1
      contiguous 2-grams, in order, then its L - 2 contiguous 3-grams, in order; nothing shorter. */
  lemma GramsOfLongTerm(term: string)
    requires |term| >= 2
    ensures |Grams(term)| == (|term| - 1) + (|term| - 2)
    ensures forall i :: 0 <= i < |term| - 1 ==> Grams(term)[i] == term[i..i + 2]
    ensures forall k :: |term| - 1 <= k < |Grams(term)| ==>
      Grams(term)[k] == term[k - (|term| - 1)..k - (|term| - 1) + 3]
    ensures forall g :: g in Grams(term) ==> 2 <= |g| <= 3
  {
  }

  // ---------------------------------------------------------------------------
  // Counting

  /** The count of a token in a count table; absent tokens count 0. */
  function Get(m: map<string, Count>, token: string): nat {
    if token in m then m[token] else 0
  }

  /** increment: counts.merge(token, 1, Integer::sum). */
  function Bump(m: map<string, Count>, token: string): (r: map<string, Count>)
    ensures r.Keys == m.Keys + {token}
    ensures Get(r, token) == Get(m, token) + 1
    ensures forall k :: k != token ==> Get(r, k) == Get(m, k)
  {
    m[token := Get(m, token) + 1]
  }

  /** The table after counting each token of a sequence once, in order. */
  function AddAll(m: map<string, Count>, tokens: seq<string>): map<string, Count>
    decreases tokens
  {
    if tokens == [] then m else AddAll(Bump(m, tokens[0]), tokens[1..])
  }

  lemma {:induction false} AddAllAppend(m: map<string, Count>, a: seq<string>, b: seq<string>)
    ensures AddAll(m, a + b) == AddAll(AddAll(m, a), b)
    decreases a
  {
    if a == [] {
      assert a + b == b;
    } else {
      assert (a + b)[1..] == a[1..] + b;
      AddAllAppend(Bump(m, a[0]), a[1..], b);
    }
  }

  /** Counting a token sequence adds to every key exactly its multiplicity in the sequence, and
      introduces exactly the keys that occur in it. */
  lemma {:induction false} AddAllCounts(m: map<string, Count>, tokens: seq<string>)
    ensures forall k :: Get(AddAll(m, tokens), k) == Get(m, k) + multiset(tokens)[k]
    ensures AddAll(m, tokens).Keys == m.Keys + set t | t in tokens
    decreases tokens
  {
    if tokens != [] {
      AddAllCounts(Bump(m, tokens[0]), tokens[1..]);
      assert tokens == [tokens[0]] + tokens[1..];
      assert multiset(tokens) == multiset{tokens[0]} + multiset(tokens[1..]);
      assert (set t | t in tokens) == {tokens[0]} + set t | t in tokens[1..];
    }
  }

  /** addNormalizedToken adds 1 to the canonical form and, when it differs, 1 to the token itself:
      the total grows by 1 or 2 and no other key changes. */
  lemma AddNormalizedTokenCounts(m: map<string, Count>, token: string)
    ensures forall k ::
              Get(AddAll(m, Expand(token)), k) == Get(m, k)
                + (if k == NormalizeToken(token) then 1 else 0)
                + (if k == token && NormalizeToken(token) != token then 1 else 0)
  {
    AddAllCounts(m, Expand(token));
  }

  /** Counting the first i + 1 n-grams is counting the first i, then the expansion of gram i. */
  lemma CountNextGram(m: map<string, Count>, term: string, size: nat, i: nat)
    requires size > 0 && i < |NGrams(term, size)|
    ensures AddAll(m, ExpandAll(NGrams(term, size)[..i + 1])) ==
      AddAll(AddAll(m, ExpandAll(NGrams(term, size)[..i])), Expand(term[i..i + size]))
  {
    var grams := NGrams(term, size);
    var g := term[i..i + size];
    assert grams[..i + 1] == grams[..i] + [g];
    ExpandAllAppend(grams[..i], [g]);
    assert ExpandAll([g]) == Expand(g) + ExpandAll([]) == Expand(g);
    assert ExpandAll(grams[..i + 1]) == ExpandAll(grams[..i]) + Expand(g);
    AddAllAppend(m, ExpandAll(grams[..i]), Expand(g));
  }

  /** Counting the 2-grams and then the 3-grams is counting all the grams. */
  lemma CountGramsInTwoRounds(m: map<string, Count>, term: string)
    ensures AddAll(AddAll(m, ExpandAll(NGrams(term, 2))), ExpandAll(NGrams(term, 3))) ==
      AddAll(m, ExpandAll(Grams(term)))
  {
    ExpandAllAppend(NGrams(term, 2), NGrams(term, 3));
    AddAllAppend(m, ExpandAll(NGrams(term, 2)), ExpandAll(NGrams(term, 3)));
  }

  /** The count table that fromText fills, passed from helper to helper and updated in place. */
  class TermCounts {
    var counts: map<string, Count>

    constructor ()
      ensures counts == map[]
    {
      counts := map[];
    }

    /** increment(counts, token). */
    method Increment(token: string)
      modifies this
      ensures counts == Bump(old(counts), token)
    {
      counts := counts[token := Get(counts, token) + 1];
    }

    /** addNormalizedToken(counts, token). */
    method AddNormalizedToken(token: string)
      modifies this
      ensures counts == AddAll(old(counts), Expand(token))
    {
      ghost var before := counts;
      var normalized := NormalizeToken(token);
      Increment(normalized);
      if normalized != token {
        Increment(token);
        assert Expand(token) == [normalized, token];
        assert AddAll(before, [normalized, token]) == AddAll(Bump(before, normalized), [token]);
        assert AddAll(Bump(before, normalized), [token]) == AddAll(counts, []);
      } else {
        assert Expand(token) == [normalized];
        assert AddAll(before, [normalized]) == AddAll(counts, []);
      }
    }

    /** addTokens(counts, term). */
    method AddTokens(term: string)
      modifies this
      ensures counts == AddAll(old(counts), TermTokens(term))
    {
      if IsBlank(term) {
        return;
      }
      var ascii := IsAsciiTerm(term);
      if ascii {
        AddNormalizedToken(term);
        return;
      }
      var length := |term|;
      if length == 1 {
        AddNormalizedToken(term);
        return;
      }
      ghost var base := counts;
      for size := 2 to 4
        invariant size == 3 ==> counts == AddAll(base, ExpandAll(NGrams(term, 2)))
        invariant size == 4 ==> counts == AddAll(base, ExpandAll(Grams(term)))
        invariant size == 2 ==> counts == base
      {
        if length < size {
          assert size == 3 && Grams(term) == NGrams(term, 2) + [];
          continue;
        }
        AddGrams(term, size);
        if size == 3 {
          CountGramsInTwoRounds(base, term);
        }
      }
    }

    /** The inner loop of addTokens: every n-gram of the given size, left to right. */
    method AddGrams(term: string, size: nat)
      requires 0 < size <= |term|
      modifies this
      ensures counts == AddAll(old(counts), ExpandAll(NGrams(term, size)))
    {
      ghost var done := counts;
      var length := |term|;
      var i := 0;
      while i <= length - size
        invariant 0 <= i <= length - size + 1
        invariant counts == AddAll(done, ExpandAll(NGrams(term, size)[..i]))
      {
        CountNextGram(done, term, size, i);
        AddNormalizedToken(term[i..i + size]);
        i := i + 1;
      }
      assert NGrams(term, size)[..i] == NGrams(term, size);
    }
  }

  // ---------------------------------------------------------------------------
  // Term extraction: the matches of `(?i)[a-z0-9]+|\p{IsHan}+`, left to right

  /** The two alternatives of the term pattern. */
  datatype TermClass = AsciiRun | HanRun

  predicate InClass(c: char, cls: TermClass) {
    match cls
    case AsciiRun => IsAsciiAlnum(c)
    case HanRun => IsHan(c)
  }

  /** Where the greedy run of class cls that starts at pos ends. */
  function RunEnd(text: string, pos: nat, cls: TermClass): (e: nat)
    requires pos <= |text|
    ensures pos <= e <= |text|
    ensures forall k :: pos <= k < e ==> InClass(text[k], cls)
    ensures e == |text| || !InClass(text[e], cls)
    decreases |text| - pos
  {
    if pos < |text| && InClass(text[pos], cls) then RunEnd(text, pos + 1, cls) else pos
  }

  /** The terms the matcher finds from pos on: maximal runs of ASCII letters and digits and
      maximal runs of Han characters; every other character separates. */
  function TermsFrom(text: string, pos: nat): (r: seq<string>)
    requires pos <= |text|
    ensures |r| <= |text| - pos
    decreases |text| - pos
  {
    if pos == |text| then []
    else if IsAsciiAlnum(text[pos]) then
      var e := RunEnd(text, pos, AsciiRun);
      [text[pos..e]] + TermsFrom(text, e)
    else if IsHan(text[pos]) then
      var e := RunEnd(text, pos, HanRun);
      [text[pos..e]] + TermsFrom(text, e)
    else TermsFrom(text, pos + 1)
  }

  /** A term: a non-empty string all of whose characters belong to one class. */
  predicate IsRun(term: string, cls: TermClass) {
    |term| > 0 && forall k | 0 <= k < |term| :: InClass(term[k], cls)
  }

  /** Every term found is a non-empty run of one class. */
  lemma {:induction false} TermsAreRuns(text: string, pos: nat)
    requires pos <= |text|
    ensures forall t :: t in TermsFrom(text, pos) ==> IsRun(t, AsciiRun) || IsRun(t, HanRun)
    decreases |text| - pos
  {
    if pos < |text| {
      if IsAsciiAlnum(text[pos]) {
        TermsAreRuns(text, RunEnd(text, pos, AsciiRun));
      } else if IsHan(text[pos]) {
        TermsAreRuns(text, RunEnd(text, pos, HanRun));
      } else {
        TermsAreRuns(text, pos + 1);
      }
    }
  }

  /** A blank text (null, empty or whitespace only) has no terms. */
  lemma {:induction false} BlankTextHasNoTerms(text: string, pos: nat)
    requires pos <= |text| && IsBlank(text)
    ensures TermsFrom(text, pos) == []
    decreases |text| - pos
  {
    if pos < |text| {
      WhitespaceIsNoTermChar(text[pos]);
      BlankTextHasNoTerms(text, pos + 1);
    }
  }

  /** What addTokens does with an extracted, lower-cased term: an ASCII run, or a Han run of one
      character, is counted as one token; a longer Han run as its 2-grams and 3-grams. The blank
      guard never fires on such a term. */
  lemma ExtractedTermTokens(term: string)
    requires IsRun(term, AsciiRun) || IsRun(term, HanRun)
    ensures !IsBlank(Lower(term))
    ensures IsRun(term, AsciiRun) ==> TermTokens(Lower(term)) == Expand(Lower(term))
    ensures IsRun(term, HanRun) && |term| == 1 ==> TermTokens(Lower(term)) == Expand(term)
    ensures IsRun(term, HanRun) && |term| >= 2 ==> TermTokens(Lower(term)) == ExpandAll(Grams(term))
  {
    var low := Lower(term);
    assert term[0] in term;
    if IsRun(term, HanRun) {
      assert forall k | 0 <= k < |term| :: low[k] == term[k];
      assert low == term;
      assert !IsWhitespace(low[0]);
      if |term| >= 2 {
        assert !(term[0] <= '\U{7F}');
      }
    } else {
      assert IsAsciiAlnum(low[0]) && !IsWhitespace(low[0]);
      assert forall k | 0 <= k < |low| :: low[k] <= '\U{7F}';
    }
  }

  /** The tokens fromText counts for one matched term: those of the term lower-cased. */
  function MatchTokens(term: string): seq<string> {
    TermTokens(Lower(term))
  }

  /** The tokens fromText counts for a list of matched terms, one after the other. */
  function TermsTokens(terms: seq<string>): seq<string> {
    if terms == [] then [] else MatchTokens(terms[0]) + TermsTokens(terms[1..])
  }

  lemma {:induction false} TermsTokensAppend(a: seq<string>, b: seq<string>)
    ensures TermsTokens(a + b) == TermsTokens(a) + TermsTokens(b)
  {
    if a == [] {
      assert a + b == b;
      assert TermsTokens(a) == [];
    } else {
      var head, rest, tail := MatchTokens(a[0]), TermsTokens(a[1..]), TermsTokens(b);
      assert (a + b)[0] == a[0] && (a + b)[1..] == a[1..] + b;
      TermsTokensAppend(a[1..], b);
      calc {
        TermsTokens(a + b);
        head + TermsTokens(a[1..] + b);
        head + (rest + tail);
        (head + rest) + tail;
        TermsTokens(a) + tail;
      }
    }
  }

  /** Every token fromText counts for a text, in order. */
  function TextTokens(text: string): seq<string> {
    TermsTokens(TermsFrom(text, 0))
  }

  /** The greedy match of one alternative of the term pattern, as the regex engine performs it. */
  method ScanRun(text: string, pos: nat, cls: TermClass) returns (end: nat)
    requires pos <= |text|
    ensures end == RunEnd(text, pos, cls)
  {
    end := pos;
    while end < |text| && InClass(text[end], cls)
      invariant pos <= end <= |text|
      invariant RunEnd(text, end, cls) == RunEnd(text, pos, cls)
    {
      end := end + 1;
    }
  }
}
