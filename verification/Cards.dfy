// Cards and decks (backend/internal/poker/card.go).

module Cards {

  // rank * 4 + suit; rank 0 is a two and 12 an ace.
  type Card = c: int | 0 <= c < 52

  type Rank = r: int | 0 <= r < 13

  const TEN: Rank := 8
  const ACE: Rank := 12
  const FIVE: Rank := 3

  function MakeCard(rank: Rank, suit: int): (c: Card)
    requires 0 <= suit < 4
    ensures RankOf(c) == rank && SuitOf(c) == suit
  {
    rank * 4 + suit
  }

  function RankOf(c: Card): Rank { c / 4 }

  function SuitOf(c: Card): int { c % 4 }

  datatype Variant = Holdem | Royal

  function LowestRank(v: Variant): Rank { if v.Royal? then TEN else 0 }

  function DeckSize(v: Variant): nat { (ACE - LowestRank(v) + 1) * 4 }

  // The cards of the variant from the lowest up.
  function Deck(v: Variant): seq<Card> {
    seq(DeckSize(v), i requires 0 <= i < DeckSize(v) => LowestRank(v) * 4 + i)
  }

  ghost predicate NoDuplicates(cards: seq<Card>) {
    forall i, j :: 0 <= i < j < |cards| ==> cards[i] != cards[j]
  }

  // A deck holds every card of rank at least the variant's lowest, once.
  lemma {:induction false} DeckIsComplete(v: Variant)
    ensures NoDuplicates(Deck(v)) && |Deck(v)| == DeckSize(v)
    ensures forall c: Card :: c in Deck(v) <==> RankOf(c) >= LowestRank(v)
  {
    forall c: Card | RankOf(c) >= LowestRank(v) ensures c in Deck(v) {
      assert Deck(v)[c - LowestRank(v) * 4] == c;
    }
  }

  method BuildDeck(v: Variant) returns (deck: seq<Card>)
    ensures deck == Deck(v)
  {
    deck := [];
    for c := 0 to 52
      invariant deck == Deck(v)[..if c < LowestRank(v) * 4 then 0 else c - LowestRank(v) * 4]
    {
      if RankOf(c) >= LowestRank(v) {
        deck := deck + [c];
      }
    }
  }

  // Fisher-Yates with the draws given: draw[i] is the position picked for the i-th step from
  // the end. Whatever the draws, no card is lost or repeated.
  method Shuffle(deck: array<Card>, draw: seq<nat>)
    requires |draw| == deck.Length
    requires forall i :: 0 <= i < |draw| ==> draw[i] <= i
    modifies deck
    ensures multiset(deck[..]) == multiset(old(deck[..]))
  {
    var i := deck.Length - 1;
    while i > 0
      invariant -1 <= i < deck.Length
      invariant multiset(deck[..]) == multiset(old(deck[..]))
    {
      var j := draw[i];
      deck[i], deck[j] := deck[j], deck[i];
      i := i - 1;
    }
  }

  lemma {:induction false} CountInPrefix(cards: seq<Card>, c: Card)
    requires NoDuplicates(cards)
    ensures multiset(cards)[c] <= 1
    decreases |cards|
  {
    if cards != [] {
      var init, last := cards[..|cards| - 1], cards[|cards| - 1];
      assert cards == init + [last];
      CountInPrefix(init, c);
    }
  }

  // Rearranging cards keeps them distinct.
  lemma {:induction false} DistinctUnderShuffle(a: seq<Card>, b: seq<Card>)
    requires NoDuplicates(a) && multiset(b) <= multiset(a)
    ensures NoDuplicates(b)
  {
    forall i, j | 0 <= i < j < |b| ensures b[i] != b[j] {
      if b[i] == b[j] {
        assert b == b[..i] + [b[i]] + b[i + 1..j] + [b[j]] + b[j + 1..];
        assert multiset(b)[b[i]] >= 2;
        CountInPrefix(a, b[i]);
      }
    }
  }
}
