/** The result of drawing for a spread: the spread, one drawn card per position, and the time (SpreadResult.java). */
module SpreadResults {
  import opened Wrappers
  import opened Text
  import opened Domain
  import opened Spreads

  /** System.lineSeparator(), fixed to the Unix value. */
  const LineSeparator: string := "\n"

  /** Why construction failed: the number of drawn cards differs from the spread's card count
      (IllegalArgumentException). */
  datatype ResultFailure = CardCountMismatch(required: nat, actual: nat)

  /** The line toString writes for one position and the card drawn for it. */
  function PositionLine(p: CardPosition, d: DrawnCard): string {
    " - " + p.labelText + ": " + d.Text() + LineSeparator
  }

  /** The position lines, in order, pairing position i with drawn card i. */
  function PositionLines(ps: seq<CardPosition>, ds: seq<DrawnCard>): string
    requires |ps| == |ds|
  {
    if ps == [] then ""
    else PositionLines(ps[..|ps| - 1], ds[..|ds| - 1]) + PositionLine(ps[|ps| - 1], ds[|ds| - 1])
  }

  /** Every position line occurs in the rendered lines, position i with card i. */
  lemma {:induction false} PositionLinesContain(ps: seq<CardPosition>, ds: seq<DrawnCard>, i: nat)
    requires |ps| == |ds| && i < |ps|
    ensures Contains(PositionLines(ps, ds), PositionLine(ps[i], ds[i]))
  {
    var n := |ps| - 1;
    var front := PositionLines(ps[..n], ds[..n]);
    if i == n {
      ContainsSelf(PositionLine(ps[i], ds[i]));
      ContainsInConcat(front, PositionLine(ps[i], ds[i]), "", PositionLine(ps[i], ds[i]));
      assert front + PositionLine(ps[i], ds[i]) + "" == PositionLines(ps, ds);
    } else {
      PositionLinesContain(ps[..n], ds[..n], i);
      ContainsInConcat("", front, PositionLine(ps[n], ds[n]), PositionLine(ps[i], ds[i]));
      assert "" + front + PositionLine(ps[n], ds[n]) == PositionLines(ps, ds);
    }
  }

  /** A position line names the position's label and the drawn card. */
  lemma PositionLineContains(p: CardPosition, d: DrawnCard)
    ensures Contains(PositionLine(p, d), p.labelText)
    ensures Contains(PositionLine(p, d), d.card.name)
  {
    var tail := ": " + d.Text() + LineSeparator;
    ContainsSelf(p.labelText);
    ContainsInConcat(" - ", p.labelText, tail, p.labelText);
    assert " - " + p.labelText + tail == PositionLine(p, d);
    var name := d.card.name;
    assert OccursAt(d.Text(), name, 0);
    ContainsInConcat(" - " + p.labelText + ": ", d.Text(), LineSeparator, name);
  }

  datatype SpreadResult = SpreadResult(spread: Spread, drawnCards: seq<DrawnCard>, timestamp: string) {
    /** What the constructor guarantees: one drawn card per position. */
    predicate Valid() {
      |drawnCards| == spread.CardCount()
    }

    /** The header toString writes before the position lines. */
    function Header(): string {
      "牌阵：" + spread.Name() + LineSeparator + "抽牌时间：" + LineSeparator + timestamp + LineSeparator
    }

    /** What toString produces: the header, then one line per position. */
    function Rendered(): string
      requires Valid()
    {
      Header() + PositionLines(spread.Positions(), drawnCards)
    }

    /** toString(): appends one line per position to the header. Position i is always paired
        with drawn card i, and the index stays in bounds because the card count is the
        number of positions. */
    method ToString() returns (s: string)
      requires Valid()
      ensures s == Rendered()
    {
      s := AppendPositionLines(Header(), spread.Positions(), drawnCards);
    }
  }

  /** The loop of toString: appends one line per position, position i with drawn card i. */
  method AppendPositionLines(start: string, positions: seq<CardPosition>, drawnCards: seq<DrawnCard>) returns (s: string)
    requires |positions| == |drawnCards|
    ensures s == start + PositionLines(positions, drawnCards)
  {
    s := start;
    var i := 0;
    while i < |positions|
      invariant 0 <= i <= |positions|
      invariant s == start + PositionLines(positions[..i], drawnCards[..i])
    {
      var position := positions[i];
      var card := drawnCards[i];
      assert positions[..i + 1][..i] == positions[..i];
      assert drawnCards[..i + 1][..i] == drawnCards[..i];
      s := s + PositionLine(position, card);
      i := i + 1;
    }
    assert positions[..i] == positions && drawnCards[..i] == drawnCards;
  }

  /** new SpreadResult(spread, drawnCards, timestamp): fails exactly when the number of drawn
      cards differs from the spread's card count; otherwise it keeps what it was given. */
  function NewSpreadResult(spread: Spread, drawnCards: seq<DrawnCard>, timestamp: string)
    : (r: Result<SpreadResult, ResultFailure>)
    ensures r.Failure? <==> |drawnCards| != spread.CardCount()
    ensures r.Failure? ==> r.error == CardCountMismatch(spread.CardCount(), |drawnCards|)
    ensures r.Success? ==> r.value.Valid()
    ensures r.Success? ==>
      r.value.spread == spread && r.value.drawnCards == drawnCards && r.value.timestamp == timestamp
  {
    if |drawnCards| != spread.CardCount() then
      Failure(CardCountMismatch(spread.CardCount(), |drawnCards|))
    else
      Success(SpreadResult(spread, drawnCards, timestamp))
  }

  /** A header followed by the position lines names every position's label and every drawn
      card, and pairs position i with drawn card i on one line. */
  lemma LinesMentionEverything(header: string, ps: seq<CardPosition>, ds: seq<DrawnCard>)
    requires |ps| == |ds|
    ensures forall i :: 0 <= i < |ds| ==>
      && Contains(header + PositionLines(ps, ds), PositionLine(ps[i], ds[i]))
      && Contains(header + PositionLines(ps, ds), ps[i].labelText)
      && Contains(header + PositionLines(ps, ds), ds[i].card.name)
  {
    var lines := PositionLines(ps, ds);
    var whole := header + lines;
    forall i | 0 <= i < |ds|
      ensures Contains(whole, PositionLine(ps[i], ds[i]))
      ensures Contains(whole, ps[i].labelText)
      ensures Contains(whole, ds[i].card.name)
    {
      var line := PositionLine(ps[i], ds[i]);
      PositionLinesContain(ps, ds, i);
      ContainsInConcat(header, lines, "", line);
      assert header + lines + "" == whole;
      PositionLineContains(ps[i], ds[i]);
      ContainsTransitive(whole, line, ps[i].labelText);
      ContainsTransitive(whole, line, ds[i].card.name);
    }
  }

  /** toString's text starts with 牌阵： and the spread's name, names every position's label and
      every drawn card, and pairs position i with drawn card i on one line. */
  lemma RenderedNamesEverything(r: SpreadResult)
    requires r.Valid()
    ensures var head := "牌阵：" + r.spread.Name();
      |r.Rendered()| >= |head| && r.Rendered()[..|head|] == head
    ensures forall i :: 0 <= i < |r.drawnCards| ==>
      && Contains(r.Rendered(), PositionLine(r.spread.Positions()[i], r.drawnCards[i]))
      && Contains(r.Rendered(), r.spread.Positions()[i].labelText)
      && Contains(r.Rendered(), r.drawnCards[i].card.name)
  {
    var head := "牌阵：" + r.spread.Name();
    var rest := LineSeparator + "抽牌时间：" + LineSeparator + r.timestamp + LineSeparator;
    var lines := PositionLines(r.spread.Positions(), r.drawnCards);
    assert r.Rendered() == head + (rest + lines);
    LinesMentionEverything(r.Header(), r.spread.Positions(), r.drawnCards);
  }
}
