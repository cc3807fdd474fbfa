/**
  * TokenVector: a term-frequency vector with its magnitude, built from text by fromText, and the
  * cosine similarity of two such vectors. Magnitudes and scores are kept exact: a vector stores
  * the square of its magnitude, and a score is kept as the dot product together with the
  * product of the two squared magnitudes.
  */
module Vectors {
  import opened Text
  import opened Tokenizer

  // ---------------------------------------------------------------------------
  // Sums over key sets

  /** Some element of a non-empty key set; fixed for each set. */
  ghost function Pick(keys: set<string>): string
    requires keys != {}
  {
    var k :| k in keys; k
  }

  /** The sum, over the given keys, of the product of the two counts at each key. */
  ghost function DotOver(keys: set<string>, a: map<string, Count>, b: map<string, Count>): nat
    decreases keys
  {
    if keys == {} then 0
    else
      var k := Pick(keys);
      Get(a, k) * Get(b, k) + DotOver(keys - {k}, a, b)
  }

  /** The dot product of two count maps: the sum over their common keys. */
  ghost function Dot(a: map<string, Count>, b: map<string, Count>): nat {
    DotOver(a.Keys * b.Keys, a, b)
  }

  /** Any key may be taken out of the sum first. */
  lemma {:induction false} DotOverRemove(keys: set<string>, a: map<string, Count>, b: map<string, Count>, k: string)
    requires k in keys
    ensures DotOver(keys, a, b) == Get(a, k) * Get(b, k) + DotOver(keys - {k}, a, b)
    decreases keys
  {
    var j := Pick(keys);
    if j != k {
      DotOverRemove(keys - {j}, a, b, k);
      DotOverRemove(keys - {k}, a, b, j);
      assert keys - {j} - {k} == keys - {k} - {j};
    }
  }

  lemma {:induction false} DotOverSwap(keys: set<string>, a: map<string, Count>, b: map<string, Count>)
    ensures DotOver(keys, a, b) == DotOver(keys, b, a)
    decreases keys
  {
    if keys != {} {
      DotOverSwap(keys - {Pick(keys)}, a, b);
    }
  }

  /** The dot product does not depend on the order of its arguments. */
  lemma DotSymmetric(a: map<string, Count>, b: map<string, Count>)
    ensures Dot(a, b) == Dot(b, a)
  {
    assert a.Keys * b.Keys == b.Keys * a.Keys;
    DotOverSwap(a.Keys * b.Keys, a, b);
  }

  /** Keys whose products are zero do not change a sum. */
  lemma {:induction false} DotOverZeroOutside(keys: set<string>, sub: set<string>, a: map<string, Count>, b: map<string, Count>)
    requires sub <= keys
    requires forall k :: k in keys - sub ==> Get(a, k) * Get(b, k) == 0
    ensures DotOver(keys, a, b) == DotOver(sub, a, b)
    decreases keys
  {
    if keys != {} {
      var k := Pick(keys);
      DotOverZeroOutside(keys - {k}, sub - {k}, a, b);
      if k in sub {
        DotOverRemove(sub, a, b, k);
      } else {
        assert sub - {k} == sub;
      }
    }
  }

  /** Summing a map with itself over some of its keys gives at least one per key. */
  lemma {:induction false} DotOverSelfAtLeastSize(keys: set<string>, a: map<string, Count>)
    requires keys <= a.Keys
    ensures DotOver(keys, a, a) >= |keys|
    decreases keys
  {
    if keys != {} {
      var k := Pick(keys);
      DotOverSelfAtLeastSize(keys - {k}, a);
      assert Get(a, k) * Get(a, k) >= 1;
    }
  }

  /** The squared magnitude of a count map is zero exactly when the map is empty. */
  lemma SelfDotZeroIffEmpty(a: map<string, Count>)
    ensures Dot(a, a) == 0 <==> a == map[]
  {
    assert a.Keys * a.Keys == a.Keys;
    DotOverSelfAtLeastSize(a.Keys, a);
    if a != map[] {
      var k :| k in a;
      assert k in a.Keys;
    }
  }

  // Arithmetic for Cauchy-Schwarz

  lemma MultiplyMonotone(c: int, s: int, t: int)
    requires c >= 0 && s <= t
    ensures c * s <= c * t
  {
  }

  lemma SquareMonotone(s: int, t: int)
    requires 0 <= s < t
    ensures s * s < t * t
  {
    MultiplyMonotone(s, s, t);
    MultiplyMonotone(t, s, t);
  }

  lemma SquareOfSum(u: int, v: int)
    ensures (u + v) * (u + v) == (u - v) * (u - v) + 4 * (u * v)
  {
  }

  lemma ProductOfSquares(x: int, y: int, sa: int, sb: int)
    ensures (x * x * sb) * (y * y * sa) == (x * y) * (x * y) * (sa * sb)
  {
  }

  lemma ExpandProduct(sa: int, sb: int, s: int, t: int)
    ensures (sa + s) * (sb + t) == sa * sb + sa * t + s * sb + s * t
  {
  }

  lemma SquareNonNegative(x: int)
    ensures x * x >= 0
  {
    if x < 0 {
      MultiplyMonotone(-x, 0, -x);
    }
  }

  lemma DoubleSquared(w: int)
    ensures (2 * w) * (2 * w) == 4 * (w * w)
  {
  }

  /** The arithmetic-geometric mean inequality in the form 2w <= u + v when w^2 <= uv. */
  lemma MeanInequality(u: nat, v: nat, w: nat)
    requires w * w <= u * v
    ensures 2 * w <= u + v
  {
    var s, t, d := u + v, 2 * w, u - v;
    var uv, ww, dd := u * v, w * w, d * d;
    SquareOfSum(u, v);
    assert s * s == dd + 4 * uv;
    SquareNonNegative(d);
    DoubleSquared(w);
    assert t * t == 4 * ww;
    if s < t {
      SquareMonotone(s, t);
    }
  }

  lemma ProductBound(p: nat, d: nat, sa: nat, sb: nat)
    requires d * d <= sa * sb
    ensures (p * d) * (p * d) <= (p * p) * (sa * sb)
  {
    var pp, dd, ss := p * p, d * d, sa * sb;
    MultiplyMonotone(pp, dd, ss);
    assert (p * d) * (p * d) == pp * dd;
  }

  /** 2pd <= x^2 sb + y^2 sa, where p = xy and d^2 <= sa sb. */
  lemma CrossTermBound(sa: nat, sb: nat, d: nat, x: nat, y: nat)
    requires d * d <= sa * sb
    ensures 2 * (x * y) * d <= x * x * sb + y * y * sa
  {
    var p := x * y;
    ProductBound(p, d, sa, sb);
    ProductOfSquares(x, y, sa, sb);
    var u, v, w := x * x * sb, y * y * sa, p * d;
    assert w * w <= u * v;
    MeanInequality(u, v, w);
    assert 2 * p * d == 2 * w;
  }

  /** One step of the induction for Cauchy-Schwarz: adding one key keeps dot^2 <= |a|^2 |b|^2. */
  lemma CauchySchwarzStep(sa: nat, sb: nat, d: nat, x: nat, y: nat)
    requires d * d <= sa * sb
    ensures (d + x * y) * (d + x * y) <= (sa + x * x) * (sb + y * y)
  {
    var p, xx, yy := x * y, x * x, y * y;
    CrossTermBound(sa, sb, d, x, y);
    ExpandProduct(d, d, p, p);
    ExpandProduct(sa, sb, xx, yy);
    assert xx * yy == p * p;
    var dd, ss, pd, pp := d * d, sa * sb, d * p, p * p;
    assert (d + p) * (d + p) == dd + 2 * pd + pp;
    assert (sa + xx) * (sb + yy) == ss + sa * yy + xx * sb + pp;
    assert 2 * pd <= xx * sb + yy * sa;
  }

  lemma {:induction false} DotOverCauchySchwarz(keys: set<string>, a: map<string, Count>, b: map<string, Count>)
    ensures DotOver(keys, a, b) * DotOver(keys, a, b) <= DotOver(keys, a, a) * DotOver(keys, b, b)
    decreases keys
  {
    if keys != {} {
      var k := Pick(keys);
      DotOverCauchySchwarz(keys - {k}, a, b);
      CauchySchwarzStep(DotOver(keys - {k}, a, a), DotOver(keys - {k}, b, b),
        DotOver(keys - {k}, a, b), Get(a, k), Get(b, k));
    }
  }

  /** Cauchy-Schwarz for count maps: dot(a, b)^2 <= |a|^2 |b|^2. */
  lemma CauchySchwarz(a: map<string, Count>, b: map<string, Count>)
    ensures Dot(a, b) * Dot(a, b) <= Dot(a, a) * Dot(b, b)
  {
    var all := a.Keys + b.Keys;
    DotOverZeroOutside(all, a.Keys * b.Keys, a, b);
    DotOverZeroOutside(all, a.Keys * a.Keys, a, a);
    DotOverZeroOutside(all, b.Keys * b.Keys, b, b);
    DotOverCauchySchwarz(all, a, b);
  }

  // ---------------------------------------------------------------------------
  // TokenVector

  /** A term-frequency vector. `magnitudeSquared` stands for the stored magnitude, squared. */
  datatype TokenVector = TokenVector(counts: map<string, Count>, magnitudeSquared: nat) {
    /** The constructor's invariant: the magnitude is computed from the counts. */
    ghost predicate Consistent() {
      magnitudeSquared == Dot(counts, counts)
    }

    /** isEmpty(): the count map has no keys. */
    predicate IsEmpty(): (b: bool)
      ensures b <==> counts == map[]
    {
      |counts| == 0
    }
  }

  /** The vector's magnitude is zero exactly when the vector is empty. */
  lemma MagnitudeZeroIffEmpty(v: TokenVector)
    requires v.Consistent()
    ensures v.magnitudeSquared == 0 <==> v.IsEmpty()
  {
    SelfDotZeroIffEmpty(v.counts);
  }

  /** new TokenVector(counts): sums the squared counts into the magnitude. */
  method NewTokenVector(counts: map<string, Count>) returns (v: TokenVector)
    ensures v.counts == counts && v.Consistent()
  {
    var sum: nat := 0;
    var remaining := counts.Keys;
    while remaining != {}
      invariant remaining <= counts.Keys
      invariant sum + DotOver(remaining, counts, counts) == DotOver(counts.Keys, counts, counts)
      decreases remaining
    {
      var k :| k in remaining;
      DotOverRemove(remaining, counts, counts, k);
      sum := sum + counts[k] * counts[k];
      remaining := remaining - {k};
    }
    assert counts.Keys * counts.Keys == counts.Keys;
    v := TokenVector(counts, sum);
  }

  /** The counts fromText produces for a text: each token's number of occurrences. */
  ghost function CountsOf(text: string): map<string, Count> {
    AddAll(map[], TextTokens(text))
  }

  /** The vector fromText produces for a text. */
  ghost function VectorOf(text: string): TokenVector {
    TokenVector(CountsOf(text), Dot(CountsOf(text), CountsOf(text)))
  }

  /** Every key of the vector of a text counts its occurrences among the text's tokens, and
      nothing else is a key. */
  lemma CountsOfText(text: string)
    ensures forall k :: Get(CountsOf(text), k) == multiset(TextTokens(text))[k]
    ensures CountsOf(text).Keys == set t | t in TextTokens(text)
  {
    AddAllCounts(map[], TextTokens(text));
  }

  /** A blank text has the empty vector. */
  lemma BlankTextVector(text: string)
    requires IsBlank(text)
    ensures VectorOf(text).IsEmpty() && VectorOf(text).magnitudeSquared == 0
  {
    BlankTextHasNoTerms(text, 0);
  }

  /** At the start of a run, the terms found are that run and then the terms after it. */
  lemma TermsFromAtRun(text: string, pos: nat, cls: TermClass)
    requires pos < |text|
    requires cls == (if IsAsciiAlnum(text[pos]) then AsciiRun else HanRun)
    requires IsAsciiAlnum(text[pos]) || IsHan(text[pos])
    ensures TermsFrom(text, pos) == [text[pos..RunEnd(text, pos, cls)]] + TermsFrom(text, RunEnd(text, pos, cls))
  {
  }

  lemma CountsOneMoreTerm(found: seq<string>, term: string)
    ensures AddAll(map[], TermsTokens(found + [term])) ==
      AddAll(AddAll(map[], TermsTokens(found)), MatchTokens(term))
  {
    TermsTokensAppend(found, [term]);
    assert TermsTokens([term]) == MatchTokens(term) + TermsTokens([]);
    assert TermsTokens([term]) == MatchTokens(term);
    AddAllAppend(map[], TermsTokens(found), MatchTokens(term));
  }

  /** fromText(text): counts the tokens of every term the pattern finds, left to right. */
  method FromText(text: string) returns (v: TokenVector)
    ensures v == VectorOf(text) && v.Consistent()
  {
    if IsBlank(text) {
      BlankTextHasNoTerms(text, 0);
      v := NewTokenVector(map[]);
      return;
    }
    var counts := CountTerms(text);
    v := NewTokenVector(counts);
  }

  /** The matcher loop of fromText: the counts of the tokens of every term it finds. */
  method CountTerms(text: string) returns (counts: map<string, Count>)
    ensures counts == CountsOf(text)
  {
    var table := new TermCounts();
    var pos := 0;
    ghost var found: seq<string> := [];
    while pos < |text|
      invariant 0 <= pos <= |text|
      invariant TermsFrom(text, 0) == found + TermsFrom(text, pos)
      invariant table.counts == AddAll(map[], TermsTokens(found))
      decreases |text| - pos
    {
      if IsAsciiAlnum(text[pos]) || IsHan(text[pos]) {
        var term;
        pos, term := CountTermAt(table, text, pos, found);
        found := found + [term];
      } else {
        assert TermsFrom(text, pos) == TermsFrom(text, pos + 1);
        pos := pos + 1;
      }
    }
    assert TermsFrom(text, pos) == [];
    assert found == TermsFrom(text, 0);
    assert TextTokens(text) == TermsTokens(found);
    counts := table.counts;
  }

  /** One match of fromText's loop: the run starting at pos, lower-cased and counted. */
  method CountTermAt(table: TermCounts, text: string, pos: nat, ghost found: seq<string>)
    returns (end: nat, term: string)
    requires pos < |text| && (IsAsciiAlnum(text[pos]) || IsHan(text[pos]))
    requires table.counts == AddAll(map[], TermsTokens(found))
    modifies table
    ensures pos < end <= |text| && term == text[pos..end]
    ensures TermsFrom(text, pos) == [term] + TermsFrom(text, end)
    ensures table.counts == AddAll(map[], TermsTokens(found + [term]))
  {
    var cls := if IsAsciiAlnum(text[pos]) then AsciiRun else HanRun;
    end := ScanRun(text, pos, cls);
    term := text[pos..end];
    TermsFromAtRun(text, pos, cls);
    table.AddTokens(Lower(term));
    CountsOneMoreTerm(found, term);
  }

  // ---------------------------------------------------------------------------
  // Cosine similarity

  /**
    * An exact cosine score: dot / sqrt(norm), where norm is the product of the two squared
    * magnitudes; 0 when norm is 0.
    */
  datatype Cosine = Cosine(dot: nat, norm: nat) {
    /** The square of the score; scores are never negative, so squares order them as the scores. */
    function Squared(): real {
      if norm == 0 then 0.0 else (dot * dot) as real / norm as real
    }
  }

  /** The cosine similarity of two count maps, by definition. */
  ghost function CosineOf(a: map<string, Count>, b: map<string, Count>): Cosine {
    if Dot(a, a) == 0 || Dot(b, b) == 0 then Cosine(0, 0)
    else Cosine(Dot(a, b), Dot(a, a) * Dot(b, b))
  }

  /** cosineSimilarity(other): 0 when either magnitude is 0; otherwise the dot product, summed
      over the smaller map's keys that the larger map also holds, over the product of the
      magnitudes. */
  method CosineSimilarity(v: TokenVector, other: TokenVector) returns (c: Cosine)
    requires v.Consistent() && other.Consistent()
    ensures c == CosineOf(v.counts, other.counts)
  {
    if v.magnitudeSquared == 0 || other.magnitudeSquared == 0 {
      return Cosine(0, 0);
    }
    var smaller := if |v.counts| <= |other.counts| then v.counts else other.counts;
    var larger := if |v.counts| <= |other.counts| then other.counts else v.counts;
    var dot: nat := 0;
    var remaining := smaller.Keys;
    while remaining != {}
      invariant remaining <= smaller.Keys
      invariant dot + DotOver(remaining * larger.Keys, smaller, larger) ==
        DotOver(smaller.Keys * larger.Keys, smaller, larger)
      decreases remaining
    {
      var k :| k in remaining;
      if k in larger {
        DotOverRemove(remaining * larger.Keys, smaller, larger, k);
        assert (remaining - {k}) * larger.Keys == remaining * larger.Keys - {k};
        dot := dot + smaller[k] * larger[k];
      } else {
        assert (remaining - {k}) * larger.Keys == remaining * larger.Keys;
      }
      remaining := remaining - {k};
    }
    assert dot == Dot(smaller, larger);
    DotSymmetric(smaller, larger);
    c := Cosine(dot, v.magnitudeSquared * other.magnitudeSquared);
  }

  /** The score of q against p is the score of p against q. */
  lemma CosineSymmetric(a: map<string, Count>, b: map<string, Count>)
    ensures CosineOf(a, b) == CosineOf(b, a)
  {
    DotSymmetric(a, b);
  }

  /** Scores lie in [0, 1], and are 0 when either vector is empty. */
  lemma CosineBounds(a: map<string, Count>, b: map<string, Count>)
    ensures 0.0 <= CosineOf(a, b).Squared() <= 1.0
    ensures a == map[] || b == map[] ==> CosineOf(a, b).Squared() == 0.0
  {
    SelfDotZeroIffEmpty(a);
    SelfDotZeroIffEmpty(b);
    var c := CosineOf(a, b);
    if c.norm != 0 {
      CauchySchwarz(a, b);
      assert (c.dot * c.dot) as real <= c.norm as real;
    }
  }

  /** The minimum score, MIN_SCORE = 0.05. */
  const MinScore: real := 0.05

  /** A score clears MIN_SCORE exactly when 400 dot^2 >= |q|^2 |p|^2 (and the norm is not 0). */
  lemma ClearsMinScoreExactly(c: Cosine)
    ensures c.Squared() >= MinScore * MinScore <==> c.norm > 0 && 400 * (c.dot * c.dot) >= c.norm
  {
    if c.norm > 0 {
      var n, d := c.norm as real, (c.dot * c.dot) as real;
      assert c.Squared() == d / n;
      assert d / n >= 0.0025 <==> d >= 0.0025 * n;
    }
  }
}
