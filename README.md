# tarot-cli: the spread recommender, the deck and the spread results

A Dafny model of the core of tarot-cli, a command-line tarot reader written in Java:

- **The spread recommender** (`SpreadRecommender`). A question is lower-cased. It is cut into maximal
  runs of ASCII letters and digits and maximal runs of Han characters. Each run becomes tokens:
  the run itself, or its 2-grams and 3-grams for a Han run of two or more characters. Every token
  is counted once under its canonical synonym and once more under its own spelling when that
  differs. The resulting term-frequency vector is scored by cosine similarity against the vector
  of each of eleven catalogue spreads; a spread's vector comes from its name and the texts of its
  positions. Spreads scoring at least `MIN_SCORE` are ranked: higher score first, then fewer
  cards, then the smaller name. The first `MAX_SUGGESTIONS` distinct names are returned, each with
  a reason naming its position labels. A blank question, a question without terms, or one that no
  spread matches gets a fixed two-entry default list.
- **The deck and the standard draw strategy** (`Deck`, `StandardDrawStrategy`). The deck is a
  list of cards that `shuffle` and `drawTop` change in place. `draw` checks capacity, shuffles,
  and pops `count` cards off the top, each possibly reversed.
- **Spreads and spread results** (`Spread`, `PatternBasedSpread`, `SpreadResult`). A spread's
  name and positions are modelled. A result must hold exactly one drawn card per position, and it
  renders one line per position pairing position i with card i.

Modules, one per file:

- `wrappers.dfy`: Option and Result.
- `text.dfy`: the character classes, ASCII lower-casing, `String.compareTo`, and substring
  containment.
- `randomness.dfy`: `java.util.Random` as an oracle.
- `domain.dfy`: cards, drawn cards, and the `Deck` class.
- `draw.dfy`: `StandardDrawStrategy.draw`.
- `spreads.dfy`: positions, patterns, and spreads.
- `spread_result.dfy`: `SpreadResult`.
- `tokenizer.dfy`: synonyms, term extraction, n-grams, and the count table as the `TermCounts`
  class.
- `vectors.dfy`: `TokenVector`, dot products, Cauchy–Schwarz, and the cosine score.
- `recommender.dfy`: profiles, scoring, ranking, deduplication, and `recommend`.

Scores are exact. A vector keeps its squared magnitude as a natural number, and a score is the
pair (dot product, product of the two squared magnitudes). The score itself is never formed;
scores are compared through their squares, which order them the same way because no score is
negative. `score >= 0.05` thus becomes `400 * dot^2 >= |q|^2 * |p|^2`.

## Model

| member | source | states |
|---|---|---|
| Text.WhitespaceIsNoTermChar | app/src/main/java/tarot/spread/SpreadRecommender.java:37 | a whitespace character belongs to neither alternative of the term pattern |
| Text.LowerIdempotent | app/src/main/java/tarot/spread/SpreadRecommender.java:181-183 | lower-casing an already lower-cased string changes nothing |
| Text.LowerKeepsClasses | app/src/main/java/tarot/spread/SpreadRecommender.java:181-183 | lower-casing keeps each character's term class and whitespace-ness, so it keeps blankness |
| Text.LexLessIrreflexive | app/src/main/java/tarot/spread/SpreadRecommender.java:109 | no name sorts before itself under String.compareTo |
| Text.LexLessTransitive | app/src/main/java/tarot/spread/SpreadRecommender.java:109 | the name order is transitive |
| Text.LexLessTotal | app/src/main/java/tarot/spread/SpreadRecommender.java:109 | two different names are always ordered one way or the other |
| Randomness.Random.NextInt | app/src/main/java/tarot/domain/Deck.java:41 | the value handed to the shuffle lies in [0, bound) and consumes one oracle value |
| Randomness.Random.NextBoolean | app/src/main/java/tarot/draw/strategy/StandardDrawStrategy.java:33 | the flag is the coin of the next oracle value, which is consumed |
| Domain.DrawnCard.Text | app/src/main/java/tarot/domain/DrawnCard.java:22-25 | the text starts with the card's name, followed by a four-character mark that reads 逆位 exactly when the card is reversed and 正位 exactly when it is upright |
| Domain.Swap | app/src/main/java/tarot/domain/Deck.java:40-42 | one step of the shuffle exchanges two cards, leaves the others in place, and keeps the multiset |
| Domain.ShuffleDraws | app/src/main/java/tarot/domain/Deck.java:40-42 | a shuffle of n cards draws n - 1 random values, none for n <= 1 |
| Domain.Deck.constructor | app/src/main/java/tarot/domain/Deck.java:13-15 | the deck holds exactly the given cards and its size is their number |
| Domain.Deck.GetCards | app/src/main/java/tarot/domain/Deck.java:22-24 | returns the current cards, card for card, without changing the deck |
| Domain.Deck.Size | app/src/main/java/tarot/domain/Deck.java:31-33 | the size is the number of cards currently in the deck |
| Domain.Deck.IsEmpty | app/src/main/java/tarot/domain/Deck.java:62-64 | true exactly when the size is 0 |
| Domain.Deck.Shuffle | app/src/main/java/tarot/domain/Deck.java:40-42 | keeps the multiset of cards and the size; consumes one random value per swap |
| Domain.Deck.DrawTop | app/src/main/java/tarot/domain/Deck.java:49-55 | an empty deck fails and is left unchanged; otherwise returns the old first card, leaves the old cards from index 1 on, and the size drops by one |
| DrawStrategy.Draw | app/src/main/java/tarot/draw/strategy/StandardDrawStrategy.java:20-38 | fails exactly when fewer than count cards remain, before touching the deck or the random source; otherwise returns the first count cards of the shuffled deck, in order, and the deck keeps the rest; drawn plus remaining is a permutation of the old deck; a card is reversed only when enableReversed holds and its coin says so; the random source is consumed by the shuffle and, only when enableReversed holds, once per drawn card |
| Spreads.Spread.Name | app/src/main/java/tarot/spread/PatternBasedSpread.java:25-31 | a pattern-based spread is named by its display name alone when the prefix is null or blank, otherwise by prefix + "：" + display name |
| Spreads.Spread.Positions | app/src/main/java/tarot/spread/PatternBasedSpread.java:33-36 | a pattern-based spread returns its pattern's positions unchanged |
| Spreads.Spread.CardCount | app/src/main/java/tarot/spread/Spread.java:28-30 | the card count is the number of positions |
| Spreads.PatternBasedAccessors | app/src/main/java/tarot/spread/PatternBasedSpread.java:33-36 | the spread hands out the positions of the pattern given at construction, and its card count is that pattern's number of positions |
| Spreads.CardCounts | app/src/main/java/tarot/spread/Spread.java:28-30 | the single-card spread needs 1 card, a three-card pattern 3, the relationship spread and a four-card pattern 4 |
| Spreads.NameEndsWithDisplayName | app/src/main/java/tarot/spread/PatternBasedSpread.java:25-31 | every pattern-based name ends with the pattern's display name |
| Spreads.NamesUnderPrefixInjective | app/src/main/java/tarot/spread/PatternBasedSpread.java:25-31 | under one prefix, two pattern-based spreads share a name exactly when their patterns share a display name |
| SpreadResults.NewSpreadResult | app/src/main/java/tarot/spread/SpreadResult.java:19-27 | fails exactly when the number of drawn cards differs from the card count, reporting both numbers; otherwise the getters return the spread, cards and timestamp given |
| SpreadResults.SpreadResult.ToString | app/src/main/java/tarot/spread/SpreadResult.java:42-64 | the text is the header followed by one line per position, position i paired with drawn card i |
| SpreadResults.AppendPositionLines | app/src/main/java/tarot/spread/SpreadResult.java:52-62 | the loop appends exactly the position lines, in order, to what was already written |
| SpreadResults.PositionLinesContain | app/src/main/java/tarot/spread/SpreadResult.java:52-62 | the line pairing position i with drawn card i occurs in the rendered lines |
| SpreadResults.PositionLineContains | app/src/main/java/tarot/spread/SpreadResult.java:57-61 | a position line names the position's label and the drawn card's name |
| SpreadResults.LinesMentionEverything | app/src/main/java/tarot/spread/SpreadResult.java:52-62 | after any header, the lines contain every pairing line, every label and every card name |
| SpreadResults.RenderedNamesEverything | app/src/main/java/tarot/spread/SpreadResult.java:43-64 | toString starts with 牌阵： and the spread's name, and contains every position label, every drawn card's name, and the line pairing each position with its card |
| Tokenizer.NormalizeToken | app/src/main/java/tarot/spread/SpreadRecommender.java:185-188 | a token in the synonym table maps to its canonical term; any other token is returned unchanged |
| Tokenizer.SynonymsMapToConcepts | app/src/main/java/tarot/spread/SpreadRecommender.java:39-74 | every synonym maps to one of the six concepts 关系, 未来, 建议, 阻碍, 原因, 结果 |
| Tokenizer.ConceptsAreNotSynonyms | app/src/main/java/tarot/spread/SpreadRecommender.java:39-74 | no concept is itself a key of the synonym table |
| Tokenizer.CanonicalFormsAreNotSynonyms | app/src/main/java/tarot/spread/SpreadRecommender.java:39-74 | a canonical form never maps further |
| Tokenizer.NormalizeTokenIdempotent | app/src/main/java/tarot/spread/SpreadRecommender.java:185-188 | normalising twice is normalising once |
| Tokenizer.Expand | app/src/main/java/tarot/spread/SpreadRecommender.java:190-196 | the tokens counted for one token: its canonical form first, then the token itself exactly when the two differ |
| Tokenizer.IsAsciiTerm | app/src/main/java/tarot/spread/SpreadRecommender.java:225-232 | true exactly when no character is above 0x7F |
| Tokenizer.NGrams | app/src/main/java/tarot/spread/SpreadRecommender.java:219-221 | the n-grams of a term: L - n + 1 of them, the i-th being the substring from i of length n, none when L < n |
| Tokenizer.GramsOfLongTerm | app/src/main/java/tarot/spread/SpreadRecommender.java:210-222 | a Han term of length L >= 2 yields exactly its L - 1 contiguous 2-grams in order, then its L - 2 contiguous 3-grams in order, and nothing shorter than 2 or longer than 3 |
| Tokenizer.Bump | app/src/main/java/tarot/spread/SpreadRecommender.java:198-200 | incrementing adds the token as a key, raises its count by one, and leaves every other count alone |
| Tokenizer.AddAllCounts | app/src/main/java/tarot/spread/SpreadRecommender.java:198-200 | counting a token sequence adds, for every key, that key's multiplicity in the sequence; the new keys are the tokens |
| Tokenizer.AddNormalizedTokenCounts | app/src/main/java/tarot/spread/SpreadRecommender.java:190-196 | adds 1 to the canonical form and 1 more to the token only when it differs; no other key changes |
| Tokenizer.CountNextGram | app/src/main/java/tarot/spread/SpreadRecommender.java:219-221 | counting one more n-gram extends the counts of the previous ones |
| Tokenizer.CountGramsInTwoRounds | app/src/main/java/tarot/spread/SpreadRecommender.java:215-222 | counting the 2-grams, then the 3-grams, counts all the grams of the term |
| Tokenizer.TermCounts.Increment | app/src/main/java/tarot/spread/SpreadRecommender.java:198-200 | the table after merging token with 1 is the old table with that token incremented |
| Tokenizer.TermCounts.AddNormalizedToken | app/src/main/java/tarot/spread/SpreadRecommender.java:190-196 | the table gains the expansion of the token: the canonical form, then the token when different |
| Tokenizer.TermCounts.AddTokens | app/src/main/java/tarot/spread/SpreadRecommender.java:202-223 | the table gains exactly the term's tokens: none for a blank term, the normalised term for an ASCII or one-character term, otherwise the expansions of its 2-grams then 3-grams |
| Tokenizer.TermCounts.AddGrams | app/src/main/java/tarot/spread/SpreadRecommender.java:219-221 | the inner loop counts every n-gram of the term, left to right |
| Tokenizer.TermsFrom | app/src/main/java/tarot/spread/SpreadRecommender.java:271-272 | the terms find() returns from a position on, the reference for the matcher loop: at most one term per remaining character |
| Tokenizer.RunEnd | app/src/main/java/tarot/spread/SpreadRecommender.java:37 | a run of one term class is maximal: all characters up to the end belong to the class, and the next one does not |
| Tokenizer.ScanRun | app/src/main/java/tarot/spread/SpreadRecommender.java:271-272 | the greedy scan stops exactly at the end of the maximal run |
| Tokenizer.TermsAreRuns | app/src/main/java/tarot/spread/SpreadRecommender.java:37 | every term found is a non-empty run of ASCII letters and digits or of Han characters |
| Tokenizer.BlankTextHasNoTerms | app/src/main/java/tarot/spread/SpreadRecommender.java:37 | the pattern finds no term in a blank text |
| Tokenizer.ExtractedTermTokens | app/src/main/java/tarot/spread/SpreadRecommender.java:272-274 | a matched term is never blank after lower-casing; an ASCII term adds itself, a one-character Han term adds itself, a longer Han term adds its grams |
| Vectors.DotSymmetric | app/src/main/java/tarot/spread/SpreadRecommender.java:254-262 | the dot product is the same from either side, so iterating the smaller map is enough |
| Vectors.SelfDotZeroIffEmpty | app/src/main/java/tarot/spread/SpreadRecommender.java:239-244 | the sum of squared counts is 0 exactly when the map is empty |
| Vectors.CauchySchwarz | app/src/main/java/tarot/spread/SpreadRecommender.java:263 | dot(a, b)^2 <= dot(a, a) * dot(b, b) |
| Vectors.TokenVector.IsEmpty | app/src/main/java/tarot/spread/SpreadRecommender.java:246-248 | a vector is empty exactly when its count map has no keys |
| Vectors.MagnitudeZeroIffEmpty | app/src/main/java/tarot/spread/SpreadRecommender.java:239-248 | a vector's magnitude is 0 exactly when isEmpty holds |
| Vectors.NewTokenVector | app/src/main/java/tarot/spread/SpreadRecommender.java:239-244 | the constructor keeps the counts and sets the squared magnitude to their sum of squares |
| Vectors.CountsOfText | app/src/main/java/tarot/spread/SpreadRecommender.java:266-277 | every count of the vector of a text is the key's multiplicity among the text's tokens, and the keys are exactly those tokens |
| Vectors.BlankTextVector | app/src/main/java/tarot/spread/SpreadRecommender.java:266-269 | a blank text has the empty vector, with magnitude 0 |
| Vectors.FromText | app/src/main/java/tarot/spread/SpreadRecommender.java:266-277 | the vector of a text: the counts of the tokens of every matched term, lower-cased, with the magnitude of those counts |
| Vectors.CountTerms | app/src/main/java/tarot/spread/SpreadRecommender.java:270-276 | the matcher loop counts the tokens of all the terms of the text, in order |
| Vectors.CountTermAt | app/src/main/java/tarot/spread/SpreadRecommender.java:272-274 | one find() returns the run at the current position and counts its tokens, leaving the terms after the run still to find |
| Vectors.CosineSimilarity | app/src/main/java/tarot/spread/SpreadRecommender.java:250-264 | the score is 0 when either magnitude is 0, otherwise the dot product over the product of the magnitudes |
| Vectors.CosineSymmetric | app/src/main/java/tarot/spread/SpreadRecommender.java:250-264 | the score of q against p is the score of p against q |
| Vectors.CosineBounds | app/src/main/java/tarot/spread/SpreadRecommender.java:250-264 | every score lies in [0, 1], and is 0 when either vector is empty |
| Vectors.ClearsMinScoreExactly | app/src/main/java/tarot/spread/SpreadRecommender.java:98 | score >= 0.05 holds exactly when the norm is positive and 400 dot^2 >= norm |
| Recommender.DefaultSuggestionsListed | app/src/main/java/tarot/spread/SpreadRecommender.java:33-35 | the default list holds two suggestions under different names: the single-card spread, then the three-card past / present / future spread |
| Recommender.Normalize | app/src/main/java/tarot/spread/SpreadRecommender.java:181-183 | null becomes the empty string; any other question is lower-cased character by character, keeping its length; the result is lower-case already, and blank exactly when the question was null or blank |
| Recommender.PatternSpreadsFollowValues | app/src/main/java/tarot/spread/SpreadRecommender.java:130-135 | the catalogue holds every three-card and four-card pattern under its prefix, in values() order |
| Recommender.PositionsTextContains | app/src/main/java/tarot/spread/SpreadRecommender.java:148-154 | the text of every position occurs in the profile text |
| Recommender.PositionTextMentions | app/src/main/java/tarot/spread/SpreadRecommender.java:149-153 | a position contributes its label, and its description unless that is blank |
| Recommender.ProfileTextMentions | app/src/main/java/tarot/spread/SpreadRecommender.java:146-156 | the profile text starts with the spread's name and contains every label and every non-blank description |
| Recommender.BuildProfileText | app/src/main/java/tarot/spread/SpreadRecommender.java:146-156 | the builder loop produces the name followed by each position's text |
| Recommender.AppendPositionTexts | app/src/main/java/tarot/spread/SpreadRecommender.java:148-154 | the loop appends every position's text, in order |
| Recommender.JoinedLabelsContain | app/src/main/java/tarot/spread/SpreadRecommender.java:164-169 | every label occurs in the joined labels |
| Recommender.ReasonNamesLabels | app/src/main/java/tarot/spread/SpreadRecommender.java:158-171 | a spread with positions gets a reason starting with 牌位侧重： that names every position's label |
| Recommender.BuildReason | app/src/main/java/tarot/spread/SpreadRecommender.java:158-171 | the reason of a spread without positions is the fixed fallback; otherwise the prefix and the labels joined by " / " |
| Recommender.AppendLabels | app/src/main/java/tarot/spread/SpreadRecommender.java:164-169 | the loop appends the labels with " / " between consecutive ones |
| Recommender.ProfilesConsistent | app/src/main/java/tarot/spread/SpreadRecommender.java:139-144 | every profile's vector keeps its magnitude consistent with its counts |
| Recommender.BuildProfile | app/src/main/java/tarot/spread/SpreadRecommender.java:139-144 | a profile is the spread, the vector of its profile text, and its reason |
| Recommender.BuildProfiles | app/src/main/java/tarot/spread/SpreadRecommender.java:126-137 | the profiles are those of the catalogue, in catalogue order |
| Recommender.BuildProfilesOf | app/src/main/java/tarot/spread/SpreadRecommender.java:126-137 | building profiles one spread at a time yields one profile per spread, in order |
| Recommender.CatalogueFacts | app/src/main/java/tarot/spread/SpreadRecommender.java:126-137 | the catalogue holds 11 spreads, each with positions, under pairwise distinct names |
| Recommender.BeforeIrreflexive | app/src/main/java/tarot/spread/SpreadRecommender.java:107-109 | no suggestion sorts strictly before itself |
| Recommender.BeforeTransitive | app/src/main/java/tarot/spread/SpreadRecommender.java:107-109 | the ranking order is transitive |
| Recommender.BeforeTotal | app/src/main/java/tarot/spread/SpreadRecommender.java:107-109 | suggestions under different names are always ranked one way or the other |
| Recommender.QualifyingMembers | app/src/main/java/tarot/spread/SpreadRecommender.java:95-101 | a profile is kept, with its score, exactly when its score clears MIN_SCORE |
| Recommender.EmptyQueryQualifiesNothing | app/src/main/java/tarot/spread/SpreadRecommender.java:90-93 | an empty query vector clears MIN_SCORE against no profile |
| Recommender.ScoreProfiles | app/src/main/java/tarot/spread/SpreadRecommender.java:95-101 | the scoring loop keeps exactly the qualifying profiles, scored, in profile order |
| Recommender.InsertPermutes | app/src/main/java/tarot/spread/SpreadRecommender.java:107-109 | inserting adds exactly the one element |
| Recommender.InsertSorted | app/src/main/java/tarot/spread/SpreadRecommender.java:107-109 | inserting into a ranked list keeps it ranked |
| Recommender.SortByRankSortsAndPermutes | app/src/main/java/tarot/spread/SpreadRecommender.java:107-109 | the sort returns a permutation of its input, ranked by score descending, card count ascending, name ascending |
| Recommender.AddSuggestion | app/src/main/java/tarot/spread/SpreadRecommender.java:173-179 | the spread's name is present afterwards; the list grows by one, the new spread with its reason, exactly when the name was absent, and the old entries stay put |
| Recommender.AddSuggestionKeepsNamesDistinct | app/src/main/java/tarot/spread/SpreadRecommender.java:173-179 | adding a suggestion keeps the names distinct |
| Recommender.DeduplicatedDistinct | app/src/main/java/tarot/spread/SpreadRecommender.java:111-117 | the collected suggestions have distinct names, and at least one exists when anything was scored |
| Recommender.DeduplicatedCovers | app/src/main/java/tarot/spread/SpreadRecommender.java:111-117 | every name among the examined scored suggestions appears in the result |
| Recommender.DeduplicatedFrom | app/src/main/java/tarot/spread/SpreadRecommender.java:111-117 | every collected suggestion is the spread and reason of some examined scored suggestion |
| Recommender.DeduplicatedInOrder | app/src/main/java/tarot/spread/SpreadRecommender.java:111-117 | collected suggestions keep the order of the scored suggestions they come from |
| Recommender.CollectSuggestions | app/src/main/java/tarot/spread/SpreadRecommender.java:111-117 | the loop deduplicates a prefix of the ranked list, returns at most MAX_SUGGESTIONS, and stops early only when the list is full |
| Recommender.QualifiedFromCatalogue | app/src/main/java/tarot/spread/SpreadRecommender.java:95-101 | the scored suggestions are the catalogue profiles clearing MIN_SCORE with their scores, and every catalogue spread clearing MIN_SCORE is among them |
| Recommender.RankedSuggestionsFromCatalogue | app/src/main/java/tarot/spread/SpreadRecommender.java:111-117 | every suggestion collected from the ranked list is a catalogue spread clearing MIN_SCORE, with its reason |
| Recommender.RankedSuggestionsOrdered | app/src/main/java/tarot/spread/SpreadRecommender.java:107-117 | suggestions collected from the ranked list appear in strict rank order |
| Recommender.RankedSuggestionsComplete | app/src/main/java/tarot/spread/SpreadRecommender.java:107-117 | a qualifying spread left out was never examined, and ranks after every collected suggestion |
| Recommender.Recommend | app/src/main/java/tarot/spread/SpreadRecommender.java:84-120 | never empty; the default list for a null or blank question, an empty query vector, or when nothing clears MIN_SCORE; otherwise 1 to 3 suggestions under distinct names, each a catalogue spread clearing MIN_SCORE with its reason, in strict rank order, a qualifying spread missing only from a full list that it ranks after |
| Recommender.RecommendRanked | app/src/main/java/tarot/spread/SpreadRecommender.java:95-117 | filtering, sorting and collecting together give the ranked answer |
| Recommender.DefaultExactlyWhenNothingQualifies | app/src/main/java/tarot/spread/SpreadRecommender.java:84-105 | the three fallback conditions together hold exactly when no profile clears MIN_SCORE |

## Left out

- Recommender.Recommend, Vectors.CosineSimilarity: scores are exact rationals rather than IEEE doubles. `Math.sqrt`, the double division and the double comparison with 0.05 are idealised. Scores are compared through their squares, which order them exactly as the scores.
- Vectors.NewTokenVector, Vectors.CosineSimilarity, Tokenizer.TermCounts.Increment: counts, squared counts and dot products are unbounded. Java's 32-bit `int` overflow on very long texts is not modelled.
- Domain.Deck.Shuffle: the contract promises only a permutation of the same size, plus the number of random values consumed. The body does perform the exact swap sequence of `Collections.shuffle` on a random-access list.
- DrawStrategy.Draw: a reversal flag is stated through `Coin` of the oracle value at its position in the stream; it does not model `java.util.Random`'s generator.
- `java.util.Random` is an oracle: any supplied stream of integers, consumed in order. The generator's arithmetic is not modelled.
- Text.IsHan: `\p{IsHan}` is approximated by the ranges listed in the predicate. They include a few unassigned code points that Java does not match (in 2A700..2EBE0) and miss a few Han characters Java does match (16FE2, 16FE3, 16FF0, 16FF1). The full Unicode Script table is not reproduced.
- Text.Lower: `toLowerCase(Locale.ROOT)` is modelled for ASCII letters only. Other scripts' case mappings, and length-changing mappings, are left out.
- Characters are Unicode scalar values. UTF-16 surrogate pairs, and `substring` splitting one, are not modelled; `String.compareTo` is modelled as comparing characters.
- The regex engine is replaced by the greedy scan of maximal runs the pattern performs; `(?i)` is covered by the ASCII-letter class taking both cases.
- `CardPosition` descriptions are never null here, so `buildProfileText`'s null test reduces to the blank test.
- `System.lineSeparator()` is fixed to `"\n"`. The timestamp is an opaque string: `Instant` formatting is not modelled.
- Exception messages are not modelled. The failure cases carry the numbers the messages report.
- Arcana and suit of a card are left out: no modelled operation reads them.
- `ThreeCardSpread` and `ThreePlusOneAdviceSpread` are not in the recommender's catalogue and are not modelled.
- The scenario tests of `SpreadRecommenderTest` are not restated as lemmas. Evaluating the eleven profile vectors and their scores symbolically is beyond what is attempted.
- The console front ends, JSON card loading, the deck factory, the draw service and the interfaces only wire the modelled parts to I/O. They are not part of this model.
- Recommender.SortByRank: `List.sort` is modelled as a stable insertion sort under the same comparator, as a function. Because the comparator is total on distinct names, any correct sort gives the same order.
- Recommender.BuildProfiles: the three phases of `buildProfiles` (two fixed spreads, then each pattern enumeration) are one loop over the catalogue constant. `Recommender.PatternSpreadsFollowValues` states that the constant follows the enumerations' `values()` order.
- Recommender.Recommend builds the profiles on each call instead of reading a static `PROFILES` field; the profiles are the same.
- The loops of `toString`, `buildProfileText`, `buildReason`, `fromText` and `addTokens` are separate methods: `SpreadResults.AppendPositionLines`, `Recommender.AppendPositionTexts`, `Recommender.AppendLabels`, `Vectors.CountTerms`, `Vectors.CountTermAt` and `Tokenizer.TermCounts.AddGrams`.
- Unmodifiable list views need no model: Dafny sequences are values.
- `PatternBasedSpread.getPattern` is the `pattern` field of the `Spreads.Spread` datatype; a field read needs no contract of its own.
