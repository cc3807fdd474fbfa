/** The card domain: tarot cards, drawn cards, and the deck they are drawn from. */
module Domain {
  import opened Wrappers
  import opened Randomness

  /** One tarot card, without orientation (TarotCard.java). */
  datatype TarotCard = TarotCard(id: string, name: string, number: int)

  /** A drawn card: the card and whether it came out reversed (DrawnCard.java). */
  datatype DrawnCard = DrawnCard(card: TarotCard, reversed: bool) {
    /** DrawnCard.toString: the card's name, then 逆位 or 正位 in parentheses. */
    function Text(): (s: string)
      ensures |s| == |card.name| + 4
      ensures s[..|card.name|] == card.name
      ensures reversed <==> s[|card.name| + 1] == '逆'
      ensures !reversed <==> s[|card.name| + 1] == '正'
    {
      card.name + (if reversed then "(逆位)" else "(正位)")
    }
  }

  /** The cards of a list of drawn cards, in order. */
  function CardsOf(drawn: seq<DrawnCard>): (cards: seq<TarotCard>)
    ensures |cards| == |drawn|
    ensures forall i :: 0 <= i < |drawn| ==> cards[i] == drawn[i].card
  {
    seq(|drawn|, i requires 0 <= i < |drawn| => drawn[i].card)
  }

  /** Why drawTop failed: the deck had no card left (IllegalStateException). */
  datatype DeckFailure = DeckExhausted

  /** How many oracle values Collections.shuffle consumes on a list of n cards. */
  function ShuffleDraws(n: nat): (k: nat)
    ensures n <= 1 ==> k == 0
    ensures n > 1 ==> k + 1 == n
  {
    if n > 1 then n - 1 else 0
  }

  /** s with the elements at a and b exchanged. */
  function Swap<T>(s: seq<T>, a: nat, b: nat): (r: seq<T>)
    requires a < |s| && b < |s|
    ensures |r| == |s| && r[a] == s[b] && r[b] == s[a]
    ensures forall k :: 0 <= k < |s| && k != a && k != b ==> r[k] == s[k]
    ensures multiset(r) == multiset(s)
  {
    var r := s[a := s[b]][b := s[a]];
    assert multiset(s[a := s[b]]) == multiset(s) - multiset{s[a]} + multiset{s[b]};
    r
  }

  /** The cards currently available to draw; first is the top of the deck (Deck.java). */
  class Deck {
    var cards: seq<TarotCard>

    /** new Deck(cards): copies the given list. */
    constructor (cards: seq<TarotCard>)
      ensures this.cards == cards
      ensures Size() == |cards|
    {
      this.cards := cards;
    }

    /** getCards(): the current cards, read-only. */
    function GetCards(): (r: seq<TarotCard>)
      reads this
      ensures |r| == Size()
      ensures forall i :: 0 <= i < |r| ==> r[i] == cards[i]
    {
      cards
    }

    /** size(): the number of remaining cards. */
    function Size(): (n: nat)
      reads this
      ensures n == |cards|
    {
      |cards|
    }

    /** isEmpty(): no card remains. */
    function IsEmpty(): (b: bool)
      reads this
      ensures b <==> Size() == 0
    {
      |cards| == 0
    }

    /** shuffle(random): Collections.shuffle on a random-access list, that is, for i from the size
        down to 2, swap the card at i - 1 with the card at random.nextInt(i). */
    method Shuffle(random: Random)
      modifies this, random
      ensures multiset(cards) == old(multiset(cards))
      ensures |cards| == old(|cards|)
      ensures random.consumed == old(random.consumed) + ShuffleDraws(old(|cards|))
    {
      var i := |cards|;
      while i > 1
        invariant 0 <= i <= |cards| == old(|cards|)
        invariant |cards| > 0 ==> i >= 1
        invariant multiset(cards) == old(multiset(cards))
        invariant random.consumed == old(random.consumed) + (|cards| - i)
      {
        var j := random.NextInt(i);
        cards := Swap(cards, i - 1, j);
        i := i - 1;
      }
    }

    /** drawTop(): removes and returns the top card; fails on an empty deck, which it leaves as is. */
    method DrawTop() returns (r: Result<TarotCard, DeckFailure>)
      modifies this
      ensures old(cards) == [] ==> r == Failure(DeckExhausted) && cards == old(cards)
      ensures old(cards) != [] ==> r == Success(old(cards)[0]) && cards == old(cards)[1..]
      ensures r.Success? ==> Size() + 1 == old(Size())
    {
      if |cards| == 0 {
        return Failure(DeckExhausted);
      }
      r := Success(cards[0]);
      cards := cards[1..];
    }
  }
}
