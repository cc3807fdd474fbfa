/**
  * SpreadRecommender: picks spreads for a question. Every spread of a fixed catalogue has a
  * profile (a token vector of its name and position texts, and a reason); a question's token
  * vector is scored against each profile, the profiles clearing the minimum score are ranked,
  * and the first three distinct names are returned. A blank question, a question without
  * terms, or one that nothing matches gets a fixed default list.
  */
module Recommender {
  import opened Wrappers
  import opened Text
  import opened Tokenizer
  import opened Vectors
  import opened Spreads

  /** MAX_SUGGESTIONS. */
  const MaxSuggestions: nat := 3

  /** SpreadSuggestion: a spread and why it was suggested. */
  datatype SpreadSuggestion = SpreadSuggestion(spread: Spread, reason: string)

  /** DEFAULT_SUGGESTIONS. */
  const DefaultSuggestions: seq<SpreadSuggestion> := [
    SpreadSuggestion(SingleCardSpread, "适合开放式问题的整体提示"),
    SpreadSuggestion(PatternBasedSpread(Some(ThreeCardPrefix), ThreeCard(PastPresentFuture)), "基础时间线解读，帮助观察趋势")]

  /** The default list: the single-card spread, then the three-card past / present / future
      spread, under different names and each with its own reason. */
  lemma DefaultSuggestionsListed()
    ensures |DefaultSuggestions| == 2
    ensures DefaultSuggestions[0].spread.Name() == "单张牌：主题指引"
    ensures DefaultSuggestions[1].spread.Name() == "三张牌：过去 / 现在 / 未来"
    ensures DefaultSuggestions[1].spread.CardCount() == 3 && DefaultSuggestions[0].spread.CardCount() == 1
    ensures DistinctNames(DefaultSuggestions)
  {
    var three := DefaultSuggestions[1].spread;
    assert !IsBlank(ThreeCardPrefix) by { assert !IsWhitespace(ThreeCardPrefix[0]); }
    assert three.Name() == ThreeCardPrefix + NameSeparator + "过去 / 现在 / 未来";
    assert |three.Name()| != |DefaultSuggestions[0].spread.Name()|;
  }

  /** normalize(question): null becomes "", anything else is lower-cased character by character.
      The result is already lower-case, and it is blank exactly when the question was null or
      blank. */
  function Normalize(question: Option<string>): (r: string)
    ensures question.None? ==> r == ""
    ensures question.Some? ==> |r| == |question.value|
    ensures question.Some? ==> forall i :: 0 <= i < |r| ==> r[i] == LowerChar(question.value[i])
    ensures Lower(r) == r
    ensures IsBlank(r) <==> question.None? || IsBlank(question.value)
  {
    if question.None? then
      assert Lower("") == "";
      ""
    else
      LowerIdempotent(question.value);
      Lower(question.value)
  }

  // ---------------------------------------------------------------------------
  // The catalogue and its profiles

  const ThreeCardPrefix: string := "三张牌"
  const FourCardPrefix: string := "四张牌"

  /** The three-card patterns under their prefix, in ThreeCardPattern.values() order. */
  const ThreeCardSpreads: seq<Spread> := [
    PatternBasedSpread(Some(ThreeCardPrefix), ThreeCard(PastPresentFuture)),
    PatternBasedSpread(Some(ThreeCardPrefix), ThreeCard(SituationObstacleAdvice)),
    PatternBasedSpread(Some(ThreeCardPrefix), ThreeCard(YouRelationshipOther))]

  /** The four-card patterns under their prefix, in FourCardPattern.values() order. */
  const FourCardSpreads: seq<Spread> := [
    PatternBasedSpread(Some(FourCardPrefix), FourCard(YouOtherRelationshipAdvice)),
    PatternBasedSpread(Some(FourCardPrefix), FourCard(SituationObstacleHelpAdvice)),
    PatternBasedSpread(Some(FourCardPrefix), FourCard(ProblemCauseSolutionOutcome)),
    PatternBasedSpread(Some(FourCardPrefix), FourCard(InnerOuterBlockAdvice)),
    PatternBasedSpread(Some(FourCardPrefix), FourCard(TimeLine)),
    PatternBasedSpread(Some(FourCardPrefix), FourCard(FireWaterAirEarth))]

  /** Both lists hold every pattern of their enumeration under the prefix, in values() order. */
  lemma PatternSpreadsFollowValues()
    ensures |ThreeCardSpreads| == |ThreeCardPatterns| && |FourCardSpreads| == |FourCardPatterns|
    ensures forall k :: 0 <= k < |ThreeCardPatterns| ==>
      ThreeCardSpreads[k] == PatternBasedSpread(Some(ThreeCardPrefix), ThreeCard(ThreeCardPatterns[k]))
    ensures forall k :: 0 <= k < |FourCardPatterns| ==>
      FourCardSpreads[k] == PatternBasedSpread(Some(FourCardPrefix), FourCard(FourCardPatterns[k]))
  {
  }

  /** The spreads buildProfiles profiles, in order. */
  const Catalogue: seq<Spread> :=
    [SingleCardSpread, RelationshipFourCardSpread] + ThreeCardSpreads + FourCardSpreads

  /** The text one position adds to a profile: its label, and its description unless blank. */
  function PositionText(p: CardPosition): string {
    " " + p.labelText + (if IsBlank(p.description) then "" else " " + p.description)
  }

  function PositionsText(ps: seq<CardPosition>): string {
    if ps == [] then "" else PositionsText(ps[..|ps| - 1]) + PositionText(ps[|ps| - 1])
  }

  /** The descriptive text of a spread: its name, then every position's text. */
  function ProfileText(spread: Spread): string {
    spread.Name() + PositionsText(spread.Positions())
  }

  lemma {:induction false} PositionsTextContains(ps: seq<CardPosition>, i: nat)
    requires i < |ps|
    ensures Contains(PositionsText(ps), PositionText(ps[i]))
  {
    var n := |ps| - 1;
    var front := PositionsText(ps[..n]);
    if i == n {
      ContainsSelf(PositionText(ps[i]));
      ContainsInConcat(front, PositionText(ps[i]), "", PositionText(ps[i]));
      assert front + PositionText(ps[i]) + "" == PositionsText(ps);
    } else {
      PositionsTextContains(ps[..n], i);
      ContainsInConcat("", front, PositionText(ps[n]), PositionText(ps[i]));
      assert "" + front + PositionText(ps[n]) == PositionsText(ps);
    }
  }

  /** A position's text names its label, and its description unless that is blank. */
  lemma PositionTextMentions(p: CardPosition)
    ensures Contains(PositionText(p), p.labelText)
    ensures !IsBlank(p.description) ==> Contains(PositionText(p), p.description)
  {
    var rest := if IsBlank(p.description) then "" else " " + p.description;
    ContainsSelf(p.labelText);
    ContainsInConcat(" ", p.labelText, rest, p.labelText);
    if !IsBlank(p.description) {
      ContainsSelf(p.description);
      ContainsInConcat(" " + p.labelText + " ", p.description, "", p.description);
      assert " " + p.labelText + " " + p.description + "" == PositionText(p);
    }
  }

  /** A profile text (a spread's name followed by the texts of its positions) starts with the
      name and mentions every label and every non-blank description. */
  lemma ProfileTextMentions(name: string, ps: seq<CardPosition>)
    ensures |name + PositionsText(ps)| >= |name| && (name + PositionsText(ps))[..|name|] == name
    ensures forall i :: 0 <= i < |ps| ==> Contains(name + PositionsText(ps), ps[i].labelText)
    ensures forall i :: 0 <= i < |ps| && !IsBlank(ps[i].description) ==>
      Contains(name + PositionsText(ps), ps[i].description)
  {
    var text := name + PositionsText(ps);
    forall i | 0 <= i < |ps|
      ensures Contains(text, ps[i].labelText)
      ensures !IsBlank(ps[i].description) ==> Contains(text, ps[i].description)
    {
      var p := ps[i];
      PositionsTextContains(ps, i);
      ContainsInConcat(name, PositionsText(ps), "", PositionText(p));
      assert name + PositionsText(ps) + "" == text;
      PositionTextMentions(p);
      ContainsTransitive(text, PositionText(p), p.labelText);
      if !IsBlank(p.description) {
        ContainsTransitive(text, PositionText(p), p.description);
      }
    }
  }

  /** buildProfileText(spread): starts from the name and appends the positions' texts. */
  method BuildProfileText(spread: Spread) returns (s: string)
    ensures s == ProfileText(spread)
  {
    s := AppendPositionTexts(spread.Name(), spread.Positions());
  }

  /** The loop of buildProfileText: appends " label" for every position, and " description"
      after it when the description is not blank. */
  method AppendPositionTexts(start: string, positions: seq<CardPosition>) returns (s: string)
    ensures s == start + PositionsText(positions)
  {
    s := start;
    for i := 0 to |positions|
      invariant s == start + PositionsText(positions[..i])
    {
      assert positions[..i + 1][..i] == positions[..i];
      var position := positions[i];
      s := s + " " + position.labelText;
      var description := position.description;
      if !IsBlank(description) {
        s := s + " " + description;
      }
    }
    assert positions[..|positions|] == positions;
  }

  /** The reason of a spread without positions. */
  const NoPositionsReason: string := "与你的问题描述相近"
  /** The start of the reason of a spread with positions. */
  const ReasonPrefix: string := "牌位侧重："
  const LabelSeparator: string := " / "

  /** The labels, joined by " / ". */
  function JoinedLabels(ps: seq<CardPosition>): string {
    if ps == [] then ""
    else if |ps| == 1 then ps[0].labelText
    else JoinedLabels(ps[..|ps| - 1]) + LabelSeparator + ps[|ps| - 1].labelText
  }

  /** The reason of a spread: its labels after "牌位侧重：", or a fixed sentence without labels. */
  function Reason(spread: Spread): string {
    if spread.Positions() == [] then NoPositionsReason
    else ReasonPrefix + JoinedLabels(spread.Positions())
  }

  lemma {:induction false} JoinedLabelsContain(ps: seq<CardPosition>, i: nat)
    requires i < |ps|
    ensures Contains(JoinedLabels(ps), ps[i].labelText)
  {
    var n := |ps| - 1;
    if n == 0 {
      ContainsSelf(ps[0].labelText);
    } else if i == n {
      ContainsSelf(ps[i].labelText);
      ContainsInConcat(JoinedLabels(ps[..n]) + LabelSeparator, ps[i].labelText, "", ps[i].labelText);
      assert JoinedLabels(ps[..n]) + LabelSeparator + ps[i].labelText + "" == JoinedLabels(ps);
    } else {
      JoinedLabelsContain(ps[..n], i);
      ContainsInConcat("", JoinedLabels(ps[..n]), LabelSeparator + ps[n].labelText, ps[i].labelText);
      assert "" + JoinedLabels(ps[..n]) + (LabelSeparator + ps[n].labelText) == JoinedLabels(ps);
    }
  }

  /** The reason of a spread with positions starts with "牌位侧重：" and names every label. */
  lemma ReasonNamesLabels(spread: Spread)
    requires spread.Positions() != []
    ensures |Reason(spread)| >= |ReasonPrefix| && Reason(spread)[..|ReasonPrefix|] == ReasonPrefix
    ensures forall i :: 0 <= i < |spread.Positions()| ==>
      Contains(Reason(spread), spread.Positions()[i].labelText)
  {
    var ps := spread.Positions();
    forall i | 0 <= i < |ps|
      ensures Contains(Reason(spread), ps[i].labelText)
    {
      JoinedLabelsContain(ps, i);
      ContainsInConcat(ReasonPrefix, JoinedLabels(ps), "", ps[i].labelText);
      assert ReasonPrefix + JoinedLabels(ps) + "" == Reason(spread);
    }
  }

  /** buildReason(spread). */
  method BuildReason(spread: Spread) returns (r: string)
    ensures r == Reason(spread)
  {
    var positions := spread.Positions();
    if |positions| == 0 {
      return NoPositionsReason;
    }
    r := AppendLabels(ReasonPrefix, positions);
  }

  /** The loop of buildReason: appends the labels, with " / " between two of them. */
  method AppendLabels(start: string, positions: seq<CardPosition>) returns (r: string)
    ensures r == start + JoinedLabels(positions)
  {
    r := start;
    for i := 0 to |positions|
      invariant r == start + JoinedLabels(positions[..i])
    {
      assert positions[..i + 1][..i] == positions[..i];
      if i > 0 {
        r := r + LabelSeparator;
      }
      r := r + positions[i].labelText;
    }
    assert positions[..|positions|] == positions;
  }

  /** SpreadProfile: a spread, the vector of its profile text, and its reason. */
  datatype SpreadProfile = SpreadProfile(spread: Spread, vector: TokenVector, reason: string)

  /** The profile buildProfile makes for a spread. */
  ghost function ProfileOf(spread: Spread): SpreadProfile {
    SpreadProfile(spread, VectorOf(ProfileText(spread)), Reason(spread))
  }

  /** One profile per spread, in the spreads' order. */
  ghost function ProfilesOf(spreads: seq<Spread>): seq<SpreadProfile> {
    Map(ProfileOf, spreads)
  }

  /** `f` applied to every element of `s`, in order. */
  ghost function Map<A, B>(f: A -> B, s: seq<A>): seq<B> {
    seq(|s|, i requires 0 <= i < |s| => f(s[i]))
  }

  lemma MapSnoc<A, B>(f: A -> B, s: seq<A>, i: nat, y: B)
    requires i < |s| && y == f(s[i])
    ensures Map(f, s[..i + 1]) == Map(f, s[..i]) + [y]
  {
  }

  /** Every profile holds the vector fromText builds, so its magnitude matches its counts. */
  lemma ProfilesConsistent(spreads: seq<Spread>)
    ensures forall p :: p in ProfilesOf(spreads) ==> p.vector.Consistent()
  {
    forall p | p in ProfilesOf(spreads)
      ensures p.vector.Consistent()
    {
      var i :| 0 <= i < |spreads| && ProfilesOf(spreads)[i] == p;
      assert p == ProfileOf(spreads[i]);
    }
  }

  /** PROFILES: one profile per catalogue spread, in catalogue order. */
  ghost function Profiles(): seq<SpreadProfile> {
    ProfilesOf(Catalogue)
  }

  /** buildProfile(spread). */
  method BuildProfile(spread: Spread) returns (p: SpreadProfile)
    ensures p == ProfileOf(spread)
  {
    var profileText := BuildProfileText(spread);
    var vector := FromText(profileText);
    var reason := BuildReason(spread);
    p := SpreadProfile(spread, vector, reason);
  }

  /** buildProfiles(): one profile per catalogue spread, in catalogue order. */
  method BuildProfiles() returns (profiles: seq<SpreadProfile>)
    ensures profiles == Profiles()
  {
    profiles := BuildProfilesOf(Catalogue);
  }

  /** The loops of buildProfiles: the profile of every spread, in order. */
  method BuildProfilesOf(spreads: seq<Spread>) returns (profiles: seq<SpreadProfile>)
    ensures profiles == ProfilesOf(spreads)
  {
    profiles := [];
    for i := 0 to |spreads|
      invariant profiles == ProfilesOf(spreads[..i])
    {
      var p := BuildProfile(spreads[i]);
      MapSnoc(ProfileOf, spreads, i, p);
      profiles := profiles + [p];
    }
    assert spreads[..|spreads|] == spreads;
  }

  /** The length of a name, its first character and its fifth: enough to tell the catalogue's
      names apart. Signature and CatalogueSignatures exist only for the proofs: they spare the
      solver from unfolding the literal catalogue names. */
  function Signature(name: string): (int, char, char) {
    if |name| < 5 then (|name|, ' ', ' ') else (|name|, name[0], name[4])
  }

  /** The signatures of the catalogue's names, in catalogue order (a proof device, see Signature). */
  const CatalogueSignatures: seq<(int, char, char)> := [
    (8, '单', '主'), (22, '四', '你'), (16, '三', '过'), (15, '三', '现'), (15, '三', '你'),
    (20, '四', '你'), (21, '四', '现'), (23, '四', '问'), (20, '四', '内'), (21, '四', '过'), (17, '四', '火')]

  /** The name of a pattern-based spread under a three-character prefix: its length, and which
      characters stand first and fifth. */
  lemma PatternNameShape(prefix: string, p: SpreadPattern)
    requires |prefix| == 3 && !IsWhitespace(prefix[0]) && |p.DisplayName()| > 0
    ensures var n := PatternBasedSpread(Some(prefix), p).Name();
      |n| == 4 + |p.DisplayName()| && n[0] == prefix[0] && n[4] == p.DisplayName()[0]
  {
  }

  lemma ThreeCardSignatures(k: nat)
    requires k < |ThreeCardSpreads|
    ensures Signature(ThreeCardSpreads[k].Name()) == CatalogueSignatures[2 + k]
  {
    var p := ThreeCardSpreads[k].pattern;
    assert !IsWhitespace(ThreeCardPrefix[0]);
    PatternNameShape(ThreeCardPrefix, p);
  }

  lemma FourCardSignatures(k: nat)
    requires k < |FourCardSpreads|
    ensures Signature(FourCardSpreads[k].Name()) == CatalogueSignatures[5 + k]
  {
    var p := FourCardSpreads[k].pattern;
    assert !IsWhitespace(FourCardPrefix[0]);
    PatternNameShape(FourCardPrefix, p);
  }

  /** The signatures of the catalogue's names, in catalogue order. */
  lemma CatalogueSignaturesListed()
    ensures |Catalogue| == |CatalogueSignatures| == 11
    ensures forall k :: 0 <= k < |Catalogue| ==> Signature(Catalogue[k].Name()) == CatalogueSignatures[k]
  {
    forall k | 0 <= k < |Catalogue|
      ensures Signature(Catalogue[k].Name()) == CatalogueSignatures[k]
    {
      if k >= 5 {
        FourCardSignatures(k - 5);
        assert Catalogue[k] == FourCardSpreads[k - 5];
      } else if k >= 2 {
        ThreeCardSignatures(k - 2);
        assert Catalogue[k] == ThreeCardSpreads[k - 2];
      }
    }
  }

  /** The catalogue holds eleven spreads, each with positions, under eleven different names. */
  lemma CatalogueFacts()
    ensures |Catalogue| == 11
    ensures forall s :: s in Catalogue ==> s.Positions() != []
    ensures forall i, j :: 0 <= i < j < |Catalogue| ==> Catalogue[i].Name() != Catalogue[j].Name()
  {
    forall s | s in Catalogue
      ensures s.Positions() != []
    {
      CardCounts(s);
    }
    CatalogueSignaturesListed();
    SignaturesDistinct();
  }

  lemma SignaturesDistinct()
    ensures forall i, j :: 0 <= i < j < |CatalogueSignatures| ==> CatalogueSignatures[i] != CatalogueSignatures[j]
  {
  }

  // ---------------------------------------------------------------------------
  // Ranking

  /** What the comparator at recommend's sort looks at: the score, the card count, the name. */
  datatype RankKey = RankKey(score: Cosine, cardCount: nat, name: string)

  /**
    * `a` sorts strictly before `b`: a higher score, then fewer cards, then the smaller name.
    * Scores are never negative, so comparing their squares orders them as the scores.
    */
  predicate Before(a: RankKey, b: RankKey) {
    a.score.Squared() > b.score.Squared()
    || (a.score.Squared() == b.score.Squared()
      && (a.cardCount < b.cardCount || (a.cardCount == b.cardCount && LexLess(a.name, b.name))))
  }

  lemma BeforeIrreflexive(a: RankKey)
    ensures !Before(a, a)
  {
    LexLessIrreflexive(a.name);
  }

  lemma BeforeTransitive(a: RankKey, b: RankKey, c: RankKey)
    requires Before(a, b) && Before(b, c)
    ensures Before(a, c)
  {
    if a.score.Squared() == b.score.Squared() == c.score.Squared()
      && a.cardCount == b.cardCount == c.cardCount
    {
      LexLessTransitive(a.name, b.name, c.name);
    }
  }

  /** Keys under different names are always ordered one way or the other. */
  lemma BeforeTotal(a: RankKey, b: RankKey)
    requires a.name != b.name
    ensures Before(a, b) || Before(b, a)
  {
    LexLessTotal(a.name, b.name);
  }

  /** ScoredSuggestion: a profile and its score against the question. */
  datatype ScoredSuggestion = ScoredSuggestion(profile: SpreadProfile, score: Cosine) {
    function Key(): RankKey {
      RankKey(score, profile.spread.CardCount(), profile.spread.Name())
    }
  }

  /** score >= MIN_SCORE; scores are never negative, so this compares the squares. */
  predicate ClearsMinScore(c: Cosine) {
    c.Squared() >= MinScore * MinScore
  }

  /** The profiles that clear MIN_SCORE against the query counts, scored, in profile order. */
  ghost function Qualifying(query: map<string, Count>, profiles: seq<SpreadProfile>): seq<ScoredSuggestion> {
    if profiles == [] then []
    else
      var p := profiles[|profiles| - 1];
      var c := CosineOf(query, p.vector.counts);
      Qualifying(query, profiles[..|profiles| - 1]) + (if ClearsMinScore(c) then [ScoredSuggestion(p, c)] else [])
  }

  /** A scored suggestion is kept exactly when its profile clears MIN_SCORE. */
  lemma {:induction false} QualifyingMembers(query: map<string, Count>, profiles: seq<SpreadProfile>)
    ensures forall x :: x in Qualifying(query, profiles) ==>
      x.profile in profiles && x.score == CosineOf(query, x.profile.vector.counts) && ClearsMinScore(x.score)
    ensures forall p :: p in profiles && ClearsMinScore(CosineOf(query, p.vector.counts)) ==>
      ScoredSuggestion(p, CosineOf(query, p.vector.counts)) in Qualifying(query, profiles)
  {
    if profiles != [] {
      var front := profiles[..|profiles| - 1];
      QualifyingMembers(query, front);
      assert forall p :: p in profiles ==> p in front || p == profiles[|profiles| - 1];
    }
  }

  /** An empty query scores 0 against everything, so nothing qualifies. */
  lemma EmptyQueryQualifiesNothing(profiles: seq<SpreadProfile>)
    ensures Qualifying(map[], profiles) == []
  {
    if Qualifying(map[], profiles) != [] {
      var x := Qualifying(map[], profiles)[0];
      QualifyingMembers(map[], profiles);
      CosineBounds(map[], x.profile.vector.counts);
      assert false;
    }
  }

  /** The scoring loop of recommend: the profiles clearing MIN_SCORE, in profile order. */
  method ScoreProfiles(query: TokenVector, profiles: seq<SpreadProfile>) returns (scored: seq<ScoredSuggestion>)
    requires query.Consistent()
    requires forall p :: p in profiles ==> p.vector.Consistent()
    ensures scored == Qualifying(query.counts, profiles)
  {
    scored := [];
    for i := 0 to |profiles|
      invariant scored == Qualifying(query.counts, profiles[..i])
    {
      assert profiles[..i + 1][..i] == profiles[..i];
      var profile := profiles[i];
      var score := CosineSimilarity(query, profile.vector);
      if ClearsMinScore(score) {
        scored := scored + [ScoredSuggestion(profile, score)];
      }
    }
    assert profiles[..|profiles|] == profiles;
  }

  /** Nothing sorts after something that follows it. */
  predicate Sorted(s: seq<ScoredSuggestion>) {
    forall i, j :: 0 <= i < j < |s| ==> !Before(s[j].Key(), s[i].Key())
  }

  /** Inserts x after every element it does not sort strictly before. */
  function Insert(x: ScoredSuggestion, s: seq<ScoredSuggestion>): seq<ScoredSuggestion> {
    if s == [] then [x]
    else if Before(x.Key(), s[0].Key()) then [x] + s
    else [s[0]] + Insert(x, s[1..])
  }

  /** scored.sort(comparator): a stable sort, here by insertion. */
  function SortByRank(s: seq<ScoredSuggestion>): seq<ScoredSuggestion> {
    if s == [] then [] else Insert(s[|s| - 1], SortByRank(s[..|s| - 1]))
  }

  lemma {:induction false} InsertPermutes(x: ScoredSuggestion, s: seq<ScoredSuggestion>)
    ensures multiset(Insert(x, s)) == multiset(s) + multiset{x}
  {
    if s != [] {
      InsertPermutes(x, s[1..]);
      assert s == [s[0]] + s[1..];
      assert multiset([s[0]] + Insert(x, s[1..])) == multiset{s[0]} + multiset(Insert(x, s[1..]));
    }
  }

  lemma {:induction false} InsertSorted(x: ScoredSuggestion, s: seq<ScoredSuggestion>)
    requires Sorted(s)
    ensures Sorted(Insert(x, s))
  {
    if s == [] {
    } else if Before(x.Key(), s[0].Key()) {
      var r := [x] + s;
      forall i, j | 0 <= i < j < |r|
        ensures !Before(r[j].Key(), r[i].Key())
      {
        if i == 0 && Before(r[j].Key(), x.Key()) {
          if j == 1 {
            BeforeTransitive(x.Key(), s[0].Key(), x.Key());
            BeforeIrreflexive(x.Key());
          } else {
            BeforeTransitive(r[j].Key(), x.Key(), s[0].Key());
          }
        }
      }
    } else {
      var rest := Insert(x, s[1..]);
      InsertSorted(x, s[1..]);
      InsertPermutes(x, s[1..]);
      var r := [s[0]] + rest;
      forall i, j | 0 <= i < j < |r|
        ensures !Before(r[j].Key(), r[i].Key())
      {
        if i == 0 {
          assert r[j] in multiset(rest);
          assert r[j] == x || r[j] in s[1..];
        }
      }
    }
  }

  /** The sort orders the list and keeps its elements. */
  lemma {:induction false} SortByRankSortsAndPermutes(s: seq<ScoredSuggestion>)
    ensures Sorted(SortByRank(s))
    ensures multiset(SortByRank(s)) == multiset(s)
  {
    if s != [] {
      var front, last := s[..|s| - 1], s[|s| - 1];
      var sorted := SortByRank(front);
      assert SortByRank(s) == Insert(last, sorted);
      SortByRankSortsAndPermutes(front);
      InsertSorted(last, sorted);
      InsertPermutes(last, sorted);
      MultisetOfSnoc(s);
    }
  }

  /** A non-empty list holds its front and its last element. */
  lemma MultisetOfSnoc<T>(s: seq<T>)
    requires s != []
    ensures multiset(s) == multiset(s[..|s| - 1]) + multiset{s[|s| - 1]}
  {
    assert s == s[..|s| - 1] + [s[|s| - 1]];
  }

  // ---------------------------------------------------------------------------
  // Collecting suggestions

  /** Some suggestion of the list is for a spread of the given name. */
  predicate NameIn(suggestions: seq<SpreadSuggestion>, name: string) {
    exists i | 0 <= i < |suggestions| :: suggestions[i].spread.Name() == name
  }

  predicate DistinctNames(suggestions: seq<SpreadSuggestion>) {
    forall i, j :: 0 <= i < j < |suggestions| ==> suggestions[i].spread.Name() != suggestions[j].spread.Name()
  }

  /** addSuggestion(target, profile): appends the profile's spread and reason unless a spread of
      the same name is already there. */
  function AddSuggestion(target: seq<SpreadSuggestion>, profile: SpreadProfile): (r: seq<SpreadSuggestion>)
    ensures NameIn(r, profile.spread.Name())
    ensures |target| <= |r| <= |target| + 1 && r[..|target|] == target
    ensures |r| == |target| + 1 <==> !NameIn(target, profile.spread.Name())
    ensures |r| == |target| + 1 ==> r[|target|] == SpreadSuggestion(profile.spread, profile.reason)
  {
    var added := target + [SpreadSuggestion(profile.spread, profile.reason)];
    assert added[|target|].spread.Name() == profile.spread.Name();
    if NameIn(target, profile.spread.Name()) then target else added
  }

  /** addSuggestion never adds a second suggestion under a name already present. */
  lemma AddSuggestionKeepsNamesDistinct(target: seq<SpreadSuggestion>, profile: SpreadProfile)
    requires DistinctNames(target)
    ensures DistinctNames(AddSuggestion(target, profile))
  {
    var r := AddSuggestion(target, profile);
    if |r| == |target| + 1 {
      forall i | 0 <= i < |target|
        ensures r[i].spread.Name() != r[|target|].spread.Name()
      {
        assert r[..|target|][i] == r[i];
      }
    }
  }

  /** What addSuggestion leaves after every element of a list, in order. */
  function Deduplicated(s: seq<ScoredSuggestion>): seq<SpreadSuggestion> {
    if s == [] then [] else AddSuggestion(Deduplicated(s[..|s| - 1]), s[|s| - 1].profile)
  }

  /** A suggestion made from a scored profile. */
  function SuggestionOf(x: ScoredSuggestion): SpreadSuggestion {
    SpreadSuggestion(x.profile.spread, x.profile.reason)
  }

  lemma {:induction false} DeduplicatedDistinct(s: seq<ScoredSuggestion>)
    ensures DistinctNames(Deduplicated(s))
    ensures |s| > 0 ==> |Deduplicated(s)| > 0
  {
    if s != [] {
      DeduplicatedDistinct(s[..|s| - 1]);
      AddSuggestionKeepsNamesDistinct(Deduplicated(s[..|s| - 1]), s[|s| - 1].profile);
    }
  }

  /** A name in a list is in every list that starts with it. */
  lemma NameInExtends(d: seq<SpreadSuggestion>, r: seq<SpreadSuggestion>, name: string)
    requires |d| <= |r| && r[..|d|] == d && NameIn(d, name)
    ensures NameIn(r, name)
  {
    var i :| 0 <= i < |d| && d[i].spread.Name() == name;
    assert r[..|d|][i] == r[i];
  }

  /** The collected list names every element of its input. */
  lemma {:induction false} DeduplicatedCovers(s: seq<ScoredSuggestion>, j: nat)
    requires j < |s|
    ensures NameIn(Deduplicated(s), s[j].profile.spread.Name())
  {
    var front := s[..|s| - 1];
    var d := Deduplicated(front);
    var r := AddSuggestion(d, s[|s| - 1].profile);
    var name := s[j].profile.spread.Name();
    assert Deduplicated(s) == r;
    if j < |front| {
      assert front[j] == s[j];
      DeduplicatedCovers(front, j);
      NameInExtends(d, r, name);
    } else {
      assert name == s[|s| - 1].profile.spread.Name();
    }
    assert NameIn(r, name);
  }

  /** Every collected suggestion is made from an element of the input. */
  lemma {:induction false} DeduplicatedFrom(s: seq<ScoredSuggestion>, i: nat)
    requires i < |Deduplicated(s)|
    ensures exists j :: 0 <= j < |s| && Deduplicated(s)[i] == SuggestionOf(s[j])
  {
    var front := s[..|s| - 1];
    var d := Deduplicated(front);
    var r := AddSuggestion(d, s[|s| - 1].profile);
    assert Deduplicated(s) == r;
    if i < |d| {
      DeduplicatedFrom(front, i);
      var j :| 0 <= j < |front| && d[i] == SuggestionOf(front[j]);
      assert r[..|d|][i] == r[i];
      assert r[i] == d[i] && front[j] == s[j];
    } else {
      assert r[i] == SuggestionOf(s[|s| - 1]);
    }
  }

  /** The order fact of DeduplicatedInOrder for one more element, as a fact about sequences:
      `r` is `d`, possibly followed by the suggestion of the last element of `s`. */
  lemma InOrderAfterAppend(d: seq<SpreadSuggestion>, r: seq<SpreadSuggestion>, front: seq<ScoredSuggestion>,
                           s: seq<ScoredSuggestion>, i: nat, j: nat)
    requires |s| > 0 && front == s[..|s| - 1]
    requires |d| <= |r| <= |d| + 1 && r[..|d|] == d
    requires |r| == |d| + 1 ==> r[|d|] == SuggestionOf(s[|s| - 1])
    requires i < j < |r| && i < |d|
    requires exists a :: 0 <= a < |front| && d[i] == SuggestionOf(front[a])
    requires j < |d| ==> exists a, b ::
      0 <= a < b < |front| && d[i] == SuggestionOf(front[a]) && d[j] == SuggestionOf(front[b])
    ensures exists a, b :: 0 <= a < b < |s| && r[i] == SuggestionOf(s[a]) && r[j] == SuggestionOf(s[b])
  {
    assert r[..|d|][i] == r[i];
    if j < |d| {
      assert r[..|d|][j] == r[j];
      var a, b :| 0 <= a < b < |front| && d[i] == SuggestionOf(front[a]) && d[j] == SuggestionOf(front[b]);
      assert front[a] == s[a] && front[b] == s[b];
      assert r[i] == SuggestionOf(s[a]) && r[j] == SuggestionOf(s[b]);
    } else {
      var a :| 0 <= a < |front| && d[i] == SuggestionOf(front[a]);
      var b := |s| - 1;
      assert front[a] == s[a];
      assert r[i] == SuggestionOf(s[a]) && r[j] == SuggestionOf(s[b]);
    }
  }

  /** Collected suggestions keep the order of the elements they are made from. */
  lemma {:induction false} DeduplicatedInOrder(s: seq<ScoredSuggestion>, i: nat, j: nat)
    requires i < j < |Deduplicated(s)|
    ensures exists a, b ::
      0 <= a < b < |s| && Deduplicated(s)[i] == SuggestionOf(s[a]) && Deduplicated(s)[j] == SuggestionOf(s[b])
  {
    var front := s[..|s| - 1];
    var d := Deduplicated(front);
    var r := AddSuggestion(d, s[|s| - 1].profile);
    assert Deduplicated(s) == r;
    DeduplicatedFrom(front, i);
    if j < |d| {
      DeduplicatedInOrder(front, i, j);
    }
    InOrderAfterAppend(d, r, front, s, i, j);
  }

  /** The collecting loop of recommend: addSuggestion for each ranked profile in turn, stopping
      once MAX_SUGGESTIONS suggestions are collected. `n` is how many profiles were looked at. */
  method CollectSuggestions(ranked: seq<ScoredSuggestion>) returns (results: seq<SpreadSuggestion>, ghost n: nat)
    ensures n <= |ranked| && results == Deduplicated(ranked[..n])
    ensures |results| <= MaxSuggestions
    ensures n < |ranked| ==> |results| == MaxSuggestions
  {
    results := [];
    var i := 0;
    while i < |ranked|
      invariant 0 <= i <= |ranked|
      invariant results == Deduplicated(ranked[..i])
      invariant |results| < MaxSuggestions
    {
      assert ranked[..i + 1][..i] == ranked[..i];
      results := AddSuggestion(results, ranked[i].profile);
      i := i + 1;
      if |results| >= MaxSuggestions {
        break;
      }
    }
    n := i;
  }

  // ---------------------------------------------------------------------------
  // recommend

  /** The counts of the question's vector: fromText of the normalised question. */
  ghost function QueryCounts(question: Option<string>): map<string, Count> {
    CountsOf(Normalize(question))
  }

  /** The score of a catalogue spread's profile against query counts. */
  ghost function ScoreFor(query: map<string, Count>, spread: Spread): Cosine {
    CosineOf(query, ProfileOf(spread).vector.counts)
  }

  /** Where the sort places a spread for the query. */
  ghost function KeyFor(query: map<string, Count>, spread: Spread): RankKey {
    RankKey(ScoreFor(query, spread), spread.CardCount(), spread.Name())
  }

  /** The scored profiles that clear MIN_SCORE for a question. */
  ghost function Qualified(question: Option<string>): seq<ScoredSuggestion> {
    Qualifying(QueryCounts(question), Profiles())
  }

  /** Every element is a catalogue spread's profile, scored against the query and clearing
      MIN_SCORE. */
  ghost predicate FromCatalogue(query: map<string, Count>, s: seq<ScoredSuggestion>) {
    forall x :: x in s ==> ScoredFromCatalogue(query, x)
  }

  /** A suggestion for a catalogue spread, with its reason, clearing MIN_SCORE. */
  ghost predicate SuggestedFromCatalogue(query: map<string, Count>, r: SpreadSuggestion) {
    r.spread in Catalogue && r.reason == Reason(r.spread) && ClearsMinScore(ScoreFor(query, r.spread))
  }

  ghost predicate ScoredFromCatalogue(query: map<string, Count>, x: ScoredSuggestion) {
    x.profile == ProfileOf(x.profile.spread) && x.profile.spread in Catalogue
    && x.score == ScoreFor(query, x.profile.spread) && ClearsMinScore(x.score)
  }

  /** The qualifying profiles are exactly the catalogue spreads whose score clears MIN_SCORE. */
  lemma QualifiedFromCatalogue(query: map<string, Count>)
    ensures FromCatalogue(query, Qualifying(query, Profiles()))
    ensures forall sp :: sp in Catalogue && ClearsMinScore(ScoreFor(query, sp)) ==>
      ScoredSuggestion(ProfileOf(sp), ScoreFor(query, sp)) in Qualifying(query, Profiles())
  {
    QualifyingMembers(query, Profiles());
    forall x | x in Qualifying(query, Profiles())
      ensures x.profile == ProfileOf(x.profile.spread) && x.profile.spread in Catalogue
    {
      var i :| 0 <= i < |Profiles()| && Profiles()[i] == x.profile;
      assert x.profile == ProfileOf(Catalogue[i]);
    }
    forall sp | sp in Catalogue
      ensures ProfileOf(sp) in Profiles()
    {
      var i :| 0 <= i < |Catalogue| && Catalogue[i] == sp;
      assert Profiles()[i] == ProfileOf(sp);
    }
  }

  /** The collected suggestions come from qualifying catalogue spreads, with their reasons. */
  lemma RankedSuggestionsFromCatalogue(query: map<string, Count>, ranked: seq<ScoredSuggestion>, n: nat)
    requires FromCatalogue(query, ranked) && n <= |ranked|
    ensures forall i :: 0 <= i < |Deduplicated(ranked[..n])| ==>
      SuggestedFromCatalogue(query, Deduplicated(ranked[..n])[i])
  {
    var s := ranked[..n];
    var r := Deduplicated(s);
    forall i | 0 <= i < |r|
      ensures SuggestedFromCatalogue(query, r[i])
    {
      DeduplicatedFrom(s, i);
      var a :| 0 <= a < |s| && r[i] == SuggestionOf(s[a]);
      assert s[a] in ranked;
    }
  }

  /** The collected suggestions are in strict rank order. */
  lemma RankedSuggestionsOrdered(query: map<string, Count>, ranked: seq<ScoredSuggestion>, n: nat)
    requires Sorted(ranked) && FromCatalogue(query, ranked) && n <= |ranked|
    ensures forall i, j :: 0 <= i < j < |Deduplicated(ranked[..n])| ==>
      Before(KeyFor(query, Deduplicated(ranked[..n])[i].spread), KeyFor(query, Deduplicated(ranked[..n])[j].spread))
  {
    var s := ranked[..n];
    var r := Deduplicated(s);
    DeduplicatedDistinct(s);
    forall i, j | 0 <= i < j < |r|
      ensures Before(KeyFor(query, r[i].spread), KeyFor(query, r[j].spread))
    {
      DeduplicatedInOrder(s, i, j);
      var a, b :| 0 <= a < b < |s| && r[i] == SuggestionOf(s[a]) && r[j] == SuggestionOf(s[b]);
      assert s[a] == ranked[a] && s[b] == ranked[b];
      assert r[i].spread.Name() != r[j].spread.Name();
      DistinctOrderedPair(query, ranked, a, b, r[i], r[j]);
    }
  }

  /** Two suggestions under different names, made from ranked elements a < b, are in strict
      rank order. */
  lemma DistinctOrderedPair(query: map<string, Count>, ranked: seq<ScoredSuggestion>, a: nat, b: nat,
                            x: SpreadSuggestion, y: SpreadSuggestion)
    requires Sorted(ranked) && FromCatalogue(query, ranked) && a < b < |ranked|
    requires x == SuggestionOf(ranked[a]) && y == SuggestionOf(ranked[b])
    requires x.spread.Name() != y.spread.Name()
    ensures Before(KeyFor(query, x.spread), KeyFor(query, y.spread))
  {
    assert ranked[a] in ranked && ranked[b] in ranked;
    assert ranked[a].Key() == KeyFor(query, x.spread);
    assert ranked[b].Key() == KeyFor(query, y.spread);
    assert !Before(ranked[b].Key(), ranked[a].Key());
    BeforeTotal(ranked[a].Key(), ranked[b].Key());
  }

  /** A qualifying spread left out of the collected suggestions ranks after all of them, and was
      left out only because the list was full. */
  lemma RankedSuggestionsComplete(query: map<string, Count>, ranked: seq<ScoredSuggestion>, n: nat, y: ScoredSuggestion)
    requires Sorted(ranked) && FromCatalogue(query, ranked) && n <= |ranked|
    requires y in ranked && !NameIn(Deduplicated(ranked[..n]), y.profile.spread.Name())
    ensures n < |ranked|
    ensures forall i :: 0 <= i < |Deduplicated(ranked[..n])| ==>
      Before(KeyFor(query, Deduplicated(ranked[..n])[i].spread), y.Key())
  {
    var s := ranked[..n];
    var r := Deduplicated(s);
    var iy :| 0 <= iy < |ranked| && ranked[iy] == y;
    if iy < n {
      assert s[iy] == y;
      DeduplicatedCovers(s, iy);
    }
    forall i | 0 <= i < |r|
      ensures Before(KeyFor(query, r[i].spread), y.Key())
    {
      DeduplicatedFrom(s, i);
      var a :| 0 <= a < |s| && r[i] == SuggestionOf(s[a]);
      assert s[a] == ranked[a] && s[a] in ranked;
      assert s[a].Key() == KeyFor(query, r[i].spread);
      assert !Before(y.Key(), s[a].Key());
      assert r[i].spread.Name() != y.profile.spread.Name();
      BeforeTotal(s[a].Key(), y.Key());
    }
  }

  /** Every suggestion sorts strictly before the ones after it. */
  ghost predicate InRankOrder(query: map<string, Count>, r: seq<SpreadSuggestion>) {
    forall i, j :: 0 <= i < j < |r| ==> Before(KeyFor(query, r[i].spread), KeyFor(query, r[j].spread))
  }

  /** A qualifying catalogue spread is missing only from a full list, and then ranks after
      every suggestion in it. */
  ghost predicate NoneSkipped(query: map<string, Count>, r: seq<SpreadSuggestion>) {
    forall sp :: sp in Catalogue && ClearsMinScore(ScoreFor(query, sp)) && !NameIn(r, sp.Name()) ==>
      |r| == MaxSuggestions && forall i :: 0 <= i < |r| ==> Before(KeyFor(query, r[i].spread), KeyFor(query, sp))
  }

  /** What recommend returns when something qualifies: one to MAX_SUGGESTIONS suggestions under
      distinct names, each for a catalogue spread clearing MIN_SCORE, with its reason, in strict
      rank order, and none skipped. */
  ghost predicate RankedAnswer(query: map<string, Count>, r: seq<SpreadSuggestion>) {
    0 < |r| <= MaxSuggestions && DistinctNames(r)
    && (forall i :: 0 <= i < |r| ==> SuggestedFromCatalogue(query, r[i]))
    && InRankOrder(query, r) && NoneSkipped(query, r)
  }

  /**
    * recommend(question). The default list when the normalised question is blank, when its
    * vector is empty, or when no profile clears MIN_SCORE; otherwise at most MAX_SUGGESTIONS
    * suggestions under distinct names, each from a catalogue spread clearing MIN_SCORE, in
    * strict rank order, and leaving out a qualifying spread only when the list is full and
    * that spread ranks after every suggestion.
    */
  method Recommend(question: Option<string>) returns (r: seq<SpreadSuggestion>)
    ensures |r| > 0
    ensures question.None? || IsBlank(question.value) ==> r == DefaultSuggestions
    ensures QueryCounts(question) == map[] ==> r == DefaultSuggestions
    ensures Qualified(question) == [] ==> r == DefaultSuggestions
    ensures Qualified(question) != [] ==> RankedAnswer(QueryCounts(question), r)
  {
    ghost var query := QueryCounts(question);
    var normalized := Normalize(question);
    if IsBlank(normalized) {
      BlankTextVector(normalized);
      EmptyQueryQualifiesNothing(Profiles());
      return DefaultSuggestions;
    }
    var queryVector := FromText(normalized);
    if queryVector.IsEmpty() {
      assert query == map[];
      EmptyQueryQualifiesNothing(Profiles());
      return DefaultSuggestions;
    }
    var profiles := BuildProfiles();
    ProfilesConsistent(Catalogue);
    var scored := ScoreProfiles(queryVector, profiles);
    if |scored| == 0 {
      return DefaultSuggestions;
    }
    var ranked := SortByRank(scored);
    SortByRankSortsAndPermutes(scored);
    ghost var n: nat;
    r, n := CollectSuggestions(ranked);
    RecommendRanked(query, scored, ranked, n, r);
  }

  /** The non-default half of recommend, from the facts about its steps. */
  lemma RecommendRanked(query: map<string, Count>, scored: seq<ScoredSuggestion>, ranked: seq<ScoredSuggestion>,
                        n: nat, r: seq<SpreadSuggestion>)
    requires scored == Qualifying(query, Profiles()) && scored != []
    requires Sorted(ranked) && multiset(ranked) == multiset(scored)
    requires n <= |ranked| && r == Deduplicated(ranked[..n])
    requires |r| <= MaxSuggestions && (n < |ranked| ==> |r| == MaxSuggestions)
    ensures RankedAnswer(query, r)
  {
    QualifiedFromCatalogue(query);
    assert forall x :: x in ranked <==> x in scored by {
      forall x ensures x in ranked <==> x in scored {
        assert x in ranked <==> x in multiset(ranked);
        assert x in scored <==> x in multiset(scored);
      }
    }
    assert FromCatalogue(query, ranked);
    DeduplicatedDistinct(ranked[..n]);
    RankedSuggestionsFromCatalogue(query, ranked, n);
    RankedSuggestionsOrdered(query, ranked, n);
    forall sp | sp in Catalogue && ClearsMinScore(ScoreFor(query, sp)) && !NameIn(r, sp.Name())
      ensures |r| == MaxSuggestions
      ensures forall i :: 0 <= i < |r| ==> Before(KeyFor(query, r[i].spread), KeyFor(query, sp))
    {
      var y := ScoredSuggestion(ProfileOf(sp), ScoreFor(query, sp));
      assert y in scored;
      RankedSuggestionsComplete(query, ranked, n, y);
      assert y.Key() == KeyFor(query, sp);
    }
  }

  /** A question gets the default list exactly when no profile clears MIN_SCORE for it. */
  lemma DefaultExactlyWhenNothingQualifies(question: Option<string>)
    ensures (question.None? || IsBlank(question.value) || QueryCounts(question) == map[] || Qualified(question) == [])
      <==> Qualified(question) == []
  {
    if question.None? || IsBlank(question.value) {
      BlankTextVector(Normalize(question));
    }
    EmptyQueryQualifiesNothing(Profiles());
  }

}
