// Hand evaluation (backend/internal/poker/eval.go): the rank of five cards as a function of how
// often each rank occurs and whether the suits agree, and the best of the five-card hands in
// six or seven cards.

module Eval {
  import opened Cards

  datatype Category =
    HighCard | OnePair | TwoPair | ThreeOfAKind | Straight | Flush | FullHouse | FourOfAKind | StraightFlush

  function Level(c: Category): nat {
    match c
    case HighCard => 0
    case OnePair => 1
    case TwoPair => 2
    case ThreeOfAKind => 3
    case Straight => 4
    case Flush => 5
    case FullHouse => 6
    case FourOfAKind => 7
    case StraightFlush => 8
  }

  // A hand's category and the ranks that break ties, most significant first.
  datatype Grade = Grade(category: Category, ties: seq<int>)

  // The grade as one number, four bits a place: the category and then the ranks.
  function Packed(g: Grade, places: nat): int {
    if places == 0 then Level(g.category) else 0x10 * Packed(g, places - 1) + At(g.ties, places - 1)
  }

  function Encode(g: Grade): int { Packed(g, 5) }

  // Unused places of the tie-break ranks are zero.
  function At(s: seq<int>, i: nat): int { if i < |s| then s[i] else 0 }

  // ---- five cards -------------------------------------------------------------------------------

  function RankCount(cards: seq<Card>, rank: int): nat {
    if cards == [] then 0
    else RankCount(cards[..|cards| - 1], rank) + if RankOf(cards[|cards| - 1]) == rank then 1 else 0
  }

  function Counts(cards: seq<Card>): (counts: seq<nat>)
    ensures |counts| == 13
  {
    seq(13, r requires 0 <= r < 13 => RankCount(cards, r))
  }

  predicate SameSuit(cards: seq<Card>) {
    forall i :: 0 <= i < |cards| ==> SuitOf(cards[i]) == SuitOf(cards[0])
  }

  function Repeat(x: int, n: nat): (s: seq<int>)
    ensures |s| == n
  {
    if n == 0 then [] else [x] + Repeat(x, n - 1)
  }

  // The ranks below n, the highest first, each as often as it occurs.
  function Descending(counts: seq<nat>, n: nat): seq<int>
    requires n <= |counts|
  {
    if n == 0 then [] else Repeat(n - 1, counts[n - 1]) + Descending(counts, n - 1)
  }

  // The ranks below n that occur exactly k times, the highest first.
  function WithCount(counts: seq<nat>, k: nat, n: nat): seq<int>
    requires n <= |counts|
  {
    if n == 0 then []
    else (if counts[n - 1] == k then [n - 1] else []) + WithCount(counts, k, n - 1)
  }

  // The ranks that occur, the most frequent first.
  function Groups(counts: seq<nat>): seq<int> {
    WithCount(counts, 5, |counts|) + WithCount(counts, 4, |counts|) + WithCount(counts, 3, |counts|) +
    WithCount(counts, 2, |counts|) + WithCount(counts, 1, |counts|)
  }

  predicate AllDifferent(ranks: seq<int>) {
    forall i :: 0 < i < |ranks| ==> ranks[i] != ranks[i - 1]
  }

  // The top of the straight that five descending ranks make, -1 when they do not. An ace also
  // counts below a two.
  function StraightTop(ranks: seq<int>): int {
    if |ranks| != 5 || !AllDifferent(ranks) then -1
    else if ranks[0] - ranks[4] == 4 then ranks[0]
    else if ranks[0] == ACE && ranks[1] == FIVE && ranks[4] == 0 then FIVE
    else -1
  }

  function CountAt(counts: seq<nat>, groups: seq<int>, i: nat): int {
    if i < |groups| && 0 <= groups[i] < |counts| then counts[groups[i]] else 0
  }

  // Whether counts and suits make a hand of the category, told from the two largest groups.
  predicate Fits(category: Category, counts: seq<nat>, flush: bool)
    requires |counts| == 13
  {
    var groups := Groups(counts);
    var c0, c1 := CountAt(counts, groups, 0), CountAt(counts, groups, 1);
    var straight := StraightTop(Descending(counts, 13)) >= 0;
    match category
    case StraightFlush => straight && flush
    case FourOfAKind => c0 == 4
    case FullHouse => c0 == 3 && c1 == 2
    case Flush => flush
    case Straight => straight
    case ThreeOfAKind => c0 == 3
    case TwoPair => c0 == 2 && c1 == 2
    case OnePair => c0 == 2
    case HighCard => true
  }

  // The ranks that break ties within a category.
  function Ties(category: Category, counts: seq<nat>): seq<int>
    requires |counts| == 13
  {
    var ranks := Descending(counts, 13);
    var groups := Groups(counts);
    match category
    case StraightFlush => [StraightTop(ranks)]
    case FourOfAKind => First(groups, 2)
    case FullHouse => First(groups, 2)
    case Flush => ranks
    case Straight => [StraightTop(ranks)]
    case ThreeOfAKind => First(groups, 3)
    case TwoPair => First(groups, 3)
    case OnePair => First(groups, 4)
    case HighCard => ranks
  }

  const CATEGORIES := [HighCard, OnePair, TwoPair, ThreeOfAKind, Straight, Flush, FullHouse, FourOfAKind, StraightFlush]

  // The strongest category up to the level that the cards fit.
  function GradeUpTo(counts: seq<nat>, flush: bool, level: nat): Grade
    requires |counts| == 13 && level < |CATEGORIES|
  {
    var category := CATEGORIES[level];
    if level == 0 || Fits(category, counts, flush) then Grade(category, Ties(category, counts))
    else GradeUpTo(counts, flush, level - 1)
  }

  function GradeOf(counts: seq<nat>, flush: bool): Grade
    requires |counts| == 13
  {
    GradeUpTo(counts, flush, 8)
  }

  function First(s: seq<int>, n: nat): seq<int> { if n <= |s| then s[..n] else s }

  function Zeros(n: nat): (s: seq<nat>)
    ensures |s| == n
  {
    if n == 0 then [] else Zeros(n - 1) + [0]
  }

  // The cards from place k on are counted and their suits compared with the first card's.
  function Tally(cards: seq<Card>, k: nat, counts: seq<nat>, flush: bool): Grade
    requires k <= |cards| && |counts| == 13
    decreases |cards| - k
  {
    if k == |cards| then GradeOf(counts, flush)
    else
      var r := RankOf(cards[k]);
      Tally(cards, k + 1, counts[r := counts[r] + 1], flush && SuitOf(cards[k]) == SuitOf(cards[0]))
  }

  function Grade5(cards: seq<Card>): Grade { Tally(cards, 0, Zeros(13), true) }

  function Rank5(cards: seq<Card>): int { Encode(Grade5(cards)) }

  // ---- six and seven cards --------------------------------------------------------------------------

  function Without(cards: seq<Card>, i: nat): (r: seq<Card>)
    requires i < |cards|
    ensures |r| == |cards| - 1
  {
    cards[..i] + cards[i + 1..]
  }

  // The highest rank among the five-card hands in the cards.
  function BestRank(cards: seq<Card>): int
    decreases |cards|, |cards| + 1
  {
    if |cards| <= 5 then Rank5(cards) else BestDropping(cards, |cards|)
  }

  // The best that is left when one of the first n cards is dropped.
  function BestDropping(cards: seq<Card>, n: nat): int
    requires n <= |cards|
    decreases |cards|, n
  {
    if n == 0 || |cards| == 0 then 0
    else
      var v := BestRank(Without(cards, n - 1));
      var rest := BestDropping(cards, n - 1);
      if v > rest then v else rest
  }
}
