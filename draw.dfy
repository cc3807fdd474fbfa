/** The standard draw strategy: shuffle the deck, then take cards from its top (StandardDrawStrategy.java). */
module DrawStrategy {
  import opened Wrappers
  import opened Randomness
  import opened Domain

  /** Why draw failed: fewer cards remain than were asked for (IllegalArgumentException). */
  datatype DrawFailure = NotEnoughCards(requested: int, remaining: nat)

  /** The number of cards the pop loop takes: `for (i = 0; i < count; i++)` runs max(count, 0) times. */
  function Taken(count: int): nat {
    if count > 0 then count else 0
  }

  /**
    * draw(deck, count, enableReversed, random). Fails, touching neither the deck nor the random
    * source, when the deck holds fewer than count cards. Otherwise it shuffles the deck and pops
    * count cards off the top; each card is reversed when enableReversed holds and the next
    * nextBoolean says so (nextBoolean is not consulted at all when enableReversed is false).
    * The ghost result `shuffled` is the deck right after the shuffle.
    */
  method Draw(deck: Deck, count: int, enableReversed: bool, random: Random)
    returns (r: Result<seq<DrawnCard>, DrawFailure>, ghost shuffled: seq<TarotCard>)
    modifies deck, random
    ensures old(|deck.cards|) < count <==> r.Failure?
    ensures r.Failure? ==>
      && r.error == NotEnoughCards(count, old(|deck.cards|))
      && deck.cards == old(deck.cards)
      && random.consumed == old(random.consumed)
    ensures r.Success? ==>
      && |r.value| == Taken(count)
      && |deck.cards| == old(|deck.cards|) - Taken(count)
      && |shuffled| == old(|deck.cards|)
      && multiset(shuffled) == old(multiset(deck.cards))
      && CardsOf(r.value) == shuffled[..Taken(count)]
      && deck.cards == shuffled[Taken(count)..]
      && multiset(CardsOf(r.value) + deck.cards) == old(multiset(deck.cards))
    ensures r.Success? ==>
      random.consumed == old(random.consumed) + ShuffleDraws(old(|deck.cards|)) + (if enableReversed then Taken(count) else 0)
    ensures r.Success? ==> forall i :: 0 <= i < |r.value| ==>
      r.value[i].reversed == (enableReversed &&
        Coin(random.source, old(random.consumed) + ShuffleDraws(old(|deck.cards|)) + i))
    ensures r.Success? && !enableReversed ==> forall d :: d in r.value ==> !d.reversed
  {
    if deck.Size() < count {
      return Failure(NotEnoughCards(count, deck.Size())), deck.cards;
    }
    deck.Shuffle(random);
    shuffled := deck.cards;
    ghost var start := random.consumed;
    var result: seq<DrawnCard> := [];
    var i := 0;
    while i < count
      invariant 0 <= i <= Taken(count) <= |shuffled|
      invariant |result| == i
      invariant CardsOf(result) == shuffled[..i]
      invariant deck.cards == shuffled[i..]
      invariant random.consumed == start + (if enableReversed then i else 0)
      invariant forall k :: 0 <= k < i ==>
        result[k].reversed == (enableReversed && Coin(random.source, start + k))
    {
      var top := deck.DrawTop();
      var card := top.value;
      var reversed := false;
      if enableReversed {
        reversed := random.NextBoolean();
      }
      result := result + [DrawnCard(card, reversed)];
      assert CardsOf(result) == CardsOf(result[..i]) + [card];
      i := i + 1;
    }
    assert shuffled == shuffled[..i] + shuffled[i..];
    r := Success(result);
  }
}
