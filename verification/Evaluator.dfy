// The evaluator's loops (Evaluate, evaluate5 and straightTop in backend/internal/poker/eval.go),
// proved to compute the grade and the best rank that Eval specifies.

module Evaluator {
  import opened Cards
  import opened Eval
  import opened EvalMeaning

  datatype HandValue = HandValue(category: Category, rank: int, best: seq<Card>)

  datatype Group = Group(rank: int, count: nat)

  // ---- insertion --------------------------------------------------------------------------------

  // The element at place i has moved to place j.
  ghost function Moved<T>(g: seq<T>, i: nat, j: nat): (r: seq<T>)
    requires j <= i < |g|
    ensures |r| == |g|
  {
    g[..j] + [g[i]] + g[j..i] + g[i + 1..]
  }

  lemma {:induction false} MovedKeeps<T>(g: seq<T>, i: nat, j: nat)
    requires j <= i < |g|
    ensures multiset(Moved(g, i, j)) == multiset(g)
  {
    assert g == g[..j] + g[j..i] + [g[i]] + g[i + 1..];
  }

  // The place that the element now at place p came from.
  ghost function Source(i: nat, j: nat, p: nat): nat
    requires j <= i
  {
    if p < j || p > i then p else if p == j then i else p - 1
  }

  lemma {:induction false} MovedFrom<T>(g: seq<T>, i: nat, j: nat, p: nat)
    requires j <= i < |g| && p < |g|
    ensures Source(i, j, p) < |g| && Moved(g, i, j)[p] == g[Source(i, j, p)]
  {
  }

  // ---- sorting the cards ------------------------------------------------------------------------

  lemma {:induction false} MovedFalls(c: seq<Card>, i: nat, j: nat)
    requires j <= i < |c|
    requires forall p, q :: 0 <= p < q < i ==> RankOf(c[p]) >= RankOf(c[q])
    requires forall p :: j <= p < i ==> RankOf(c[i]) > RankOf(c[p])
    requires j > 0 ==> RankOf(c[i]) <= RankOf(c[j - 1])
    ensures Falls(RanksIn(Moved(c, i, j)[..i + 1]))
  {
    var r := Moved(c, i, j);
    forall p | 0 <= p < j ensures RankOf(c[p]) >= RankOf(c[i]) {
      assert p < j - 1 ==> RankOf(c[p]) >= RankOf(c[j - 1]);
    }
    forall p, q | 0 <= p < q <= i ensures RankOf(r[p]) >= RankOf(r[q]) {
      MovedFrom(c, i, j, p);
      MovedFrom(c, i, j, q);
    }
  }

  // Card i moves forward past the lower cards, to place j.
  method MoveCard(c: array<Card>, i: nat) returns (j: nat)
    requires i < c.Length
    modifies c
    ensures j <= i && c[..] == Moved(old(c[..]), i, j)
    ensures forall p :: j <= p < i ==> RankOf(old(c[i])) > RankOf(old(c[p]))
    ensures j > 0 ==> RankOf(old(c[i])) <= RankOf(old(c[j - 1]))
  {
    ghost var before := c[..];
    j := i;
    while j > 0 && RankOf(c[j]) > RankOf(c[j - 1])
      invariant 0 <= j <= i
      invariant c[j] == before[i]
      invariant forall p :: 0 <= p < j || i < p < c.Length ==> c[p] == before[p]
      invariant forall p :: j < p <= i ==> c[p] == before[p - 1]
      invariant forall p :: j <= p < i ==> RankOf(before[i]) > RankOf(before[p])
    {
      c[j], c[j - 1] := c[j - 1], c[j];
      j := j - 1;
    }
  }

  method InsertCard(c: array<Card>, i: nat)
    requires i < c.Length && Falls(RanksIn(c[..i]))
    modifies c
    ensures Falls(RanksIn(c[..i + 1]))
    ensures multiset(c[..]) == multiset(old(c[..]))
  {
    ghost var before := c[..];
    assert forall p :: 0 <= p < i ==> RankOf(before[p]) == RanksIn(before[..i])[p];
    assert before[..i] == c[..i];
    var j := MoveCard(c, i);
    MovedFalls(before, i, j);
    MovedKeeps(before, i, j);
    assert c[..i + 1] == c[..][..i + 1];
  }

  // Highest rank first.
  method SortByRank(c: array<Card>)
    modifies c
    ensures Falls(RanksIn(c[..]))
    ensures multiset(c[..]) == multiset(old(c[..]))
  {
    var i := 1;
    while i < c.Length
      invariant 1 <= i
      invariant c.Length > 0 ==> i <= c.Length && Falls(RanksIn(c[..i]))
      invariant multiset(c[..]) == multiset(old(c[..]))
    {
      InsertCard(c, i);
      i := i + 1;
    }
    assert c.Length > 0 ==> c[..i] == c[..];
  }

  method CountRanks(c: seq<Card>) returns (counts: seq<nat>)
    ensures counts == Counts(c)
  {
    counts := seq(13, _ => 0);
    for k := 0 to |c|
      invariant counts == Counts(c[..k])
    {
      var r := RankOf(c[k]);
      counts := counts[r := counts[r] + 1];
      assert c[..k + 1][..k] == c[..k];
    }
    assert c[..|c|] == c;
  }

  // ---- groups of equal rank -----------------------------------------------------------------------

  ghost predicate Grouped(counts: seq<nat>, g: seq<Group>, from: int)
    requires |counts| == 13
  {
    && (forall i :: 0 <= i < |g| ==> 0 <= g[i].rank < 13 && from <= g[i].rank && g[i].count == counts[g[i].rank] > 0)
    && (forall r :: 0 <= r < 13 && from <= r && counts[r] > 0 ==> Group(r, counts[r]) in g)
  }

  method FindGroups(counts: seq<nat>) returns (groups: seq<Group>)
    requires |counts| == 13
    ensures Grouped(counts, groups, 0)
    ensures forall i, j :: 0 <= i < j < |groups| ==> groups[i].rank > groups[j].rank
  {
    groups := [];
    var r := 13;
    while r > 0
      invariant 0 <= r <= 13
      invariant Grouped(counts, groups, r)
      invariant forall i, j :: 0 <= i < j < |groups| ==> groups[i].rank > groups[j].rank
    {
      r := r - 1;
      if counts[r] > 0 {
        var before := groups;
        groups := groups + [Group(r, counts[r])];
        forall q | r <= q < 13 && counts[q] > 0 ensures Group(q, counts[q]) in groups {
          if q == r { assert groups[|before|] == Group(r, counts[r]); } else { assert Group(q, counts[q]) in before; }
        }
      }
    }
  }

  predicate Ahead(x: Group, y: Group) {
    x.count > y.count || (x.count == y.count && x.rank > y.rank)
  }

  // Every group up to place i has a higher rank than those after it.
  ghost predicate HigherFirst(g: seq<Group>, i: int) {
    forall p, q :: 0 <= p < q < |g| && i <= q ==> g[p].rank > g[q].rank
  }

  ghost predicate Sorted(g: seq<Group>) {
    forall p, q :: 0 <= p < q < |g| ==> Ahead(g[p], g[q])
  }

  lemma {:induction false} MovedSorts(g: seq<Group>, i: nat, j: nat)
    requires j <= i < |g|
    requires forall p, q :: 0 <= p < q < i ==> Ahead(g[p], g[q])
    requires forall p :: 0 <= p < i ==> g[p].rank > g[i].rank
    requires forall p :: j <= p < i ==> g[i].count > g[p].count
    requires j > 0 ==> g[i].count <= g[j - 1].count
    ensures Sorted(Moved(g, i, j)[..i + 1])
  {
    var r := Moved(g, i, j);
    forall p | 0 <= p < j ensures Ahead(g[p], g[i]) {
      assert p < j - 1 ==> Ahead(g[p], g[j - 1]);
    }
    forall p, q | 0 <= p < q <= i ensures Ahead(r[p], r[q]) {
      MovedFrom(g, i, j, p);
      MovedFrom(g, i, j, q);
    }
  }

  lemma {:induction false} MovedHigher(g: seq<Group>, i: nat, j: nat)
    requires j <= i < |g| && HigherFirst(g, i)
    ensures HigherFirst(Moved(g, i, j), i + 1)
  {
    var r := Moved(g, i, j);
    forall p, q | 0 <= p < q < |r| && i + 1 <= q ensures r[p].rank > r[q].rank {
      MovedFrom(g, i, j, p);
      MovedFrom(g, i, j, q);
      assert g[Source(i, j, p)].rank > g[q].rank;
    }
  }

  // Group i moves forward past the smaller groups, to place j.
  method MoveForward(g: array<Group>, i: nat) returns (j: nat)
    requires i < g.Length
    modifies g
    ensures j <= i && g[..] == Moved(old(g[..]), i, j)
    ensures forall p :: j <= p < i ==> old(g[i]).count > old(g[p]).count
    ensures j > 0 ==> old(g[i]).count <= old(g[j - 1]).count
  {
    ghost var before := g[..];
    j := i;
    while j > 0 && g[j].count > g[j - 1].count
      invariant 0 <= j <= i
      invariant g[j] == before[i]
      invariant forall p :: 0 <= p < j || i < p < g.Length ==> g[p] == before[p]
      invariant forall p :: j < p <= i ==> g[p] == before[p - 1]
      invariant forall p :: j <= p < i ==> before[i].count > before[p].count
    {
      g[j], g[j - 1] := g[j - 1], g[j];
      j := j - 1;
    }
  }

  method InsertGroup(g: array<Group>, i: nat)
    requires i < g.Length && Sorted(g[..i])
    requires HigherFirst(g[..], i)
    modifies g
    ensures Sorted(g[..i + 1])
    ensures HigherFirst(g[..], i + 1)
    ensures multiset(g[..]) == multiset(old(g[..]))
  {
    ghost var before := g[..];
    assert forall p :: 0 <= p < i ==> before[p] == g[..i][p];
    var j := MoveForward(g, i);
    MovedSorts(before, i, j);
    MovedHigher(before, i, j);
    MovedKeeps(before, i, j);
    assert g[..i + 1] == g[..][..i + 1];
  }

  // The largest groups first. The sort is stable, so equal groups stay in falling rank.
  method SortGroups(g: array<Group>)
    requires HigherFirst(g[..], 0)
    modifies g
    ensures Sorted(g[..])
    ensures multiset(g[..]) == multiset(old(g[..]))
  {
    var i := 1;
    while i < g.Length
      invariant 1 <= i
      invariant g.Length > 0 ==> i <= g.Length && Sorted(g[..i]) && HigherFirst(g[..], i)
      invariant multiset(g[..]) == multiset(old(g[..]))
    {
      InsertGroup(g, i);
      i := i + 1;
    }
    assert g.Length > 0 ==> i == g.Length && g[..i] == g[..];
  }

  function GroupRanks(g: seq<Group>): (s: seq<int>)
    ensures |s| == |g|
  {
    seq(|g|, i requires 0 <= i < |g| => g[i].rank)
  }

  // Sorted groups are the list of groups of the specification.
  lemma {:induction false} SortedGroups(counts: seq<nat>, found: seq<Group>, g: seq<Group>)
    requires |counts| == 13 && Sum(counts, 13) == 5
    requires Grouped(counts, found, 0) && multiset(found) == multiset(g)
    requires Sorted(g)
    ensures GroupRanks(g) == Groups(counts)
    ensures forall i :: 0 <= i < |g| ==> 0 <= g[i].rank < 13 && g[i].count == counts[g[i].rank]
  {
    var s, t := GroupRanks(g), Groups(counts);
    GroupsMean(counts);
    forall i | 0 <= i < |g| ensures 0 <= g[i].rank < 13 && g[i].count == counts[g[i].rank] > 0 {
      assert g[i] in multiset(g);
      assert g[i] in found;
    }
    forall r | r in t ensures r in s {
      assert Group(r, counts[r]) in found;
      assert Group(r, counts[r]) in multiset(g);
      assert Group(r, counts[r]) in g;
      var i :| 0 <= i < |g| && g[i] == Group(r, counts[r]);
      assert s[i] == r;
    }
    forall r | r in s ensures r in t {
      SumSplit(counts, r, 13);
    }
    OneWeighing(counts, s, t);
  }

  // ---- straights -------------------------------------------------------------------------------------

  method StraightHigh(c: seq<Card>) returns (top: int, found: bool)
    requires |c| == 5 && Falls(RanksIn(c))
    ensures found <==> StraightTop(RanksIn(c)) >= 0
    ensures found ==> top == StraightTop(RanksIn(c))
  {
    var ranks := RanksIn(c);
    for i := 1 to 5
      invariant forall k :: 0 < k < i ==> ranks[k] != ranks[k - 1]
    {
      if RankOf(c[i]) == RankOf(c[i - 1]) {
        assert ranks[i] == ranks[i - 1];
        return 0, false;
      }
    }
    if RankOf(c[0]) - RankOf(c[4]) == 4 {
      return RankOf(c[0]), true;
    }
    if RankOf(c[0]) == ACE && RankOf(c[1]) == FIVE && RankOf(c[4]) == 0 {
      return FIVE, true;
    }
    return 0, false;
  }

  // ---- the best five in order of significance -----------------------------------------------------------

  // A straight shows from its top down; other hands show the largest group first.
  ghost predicate Significant(best: seq<Card>, counts: seq<nat>, top: int)
    requires |counts| == 13
  {
    if top >= 0 then |best| == 5 && forall i :: 0 <= i < 5 ==> RankOf(best[i]) == RunRank(top, i)
    else forall i, j :: 0 <= i < j < |best| ==> Weight(counts, RankOf(best[i])) >= Weight(counts, RankOf(best[j]))
  }

  method ArrangeStraight(c: seq<Card>, top: int, ghost counts: seq<nat>) returns (best: seq<Card>)
    requires |c| == 5 && Falls(RanksIn(c))
    requires top == StraightTop(RanksIn(c)) >= 0 && |counts| == 13
    ensures multiset(best) == multiset(c)
    ensures Significant(best, counts, top)
  {
    var ranks := RanksIn(c);
    assert ranks[0] > ranks[1] > ranks[2] > ranks[3] > ranks[4];
    if top == FIVE {
      best := [c[1], c[2], c[3], c[4], c[0]];
      assert c == [c[0]] + c[1..] && best == c[1..] + [c[0]];
    } else {
      best := c;
    }
  }

  // The cards of one group go to the end of the best five.
  method AppendGroup(c: seq<Card>, rank: int, best0: seq<Card>) returns (best: seq<Card>)
    ensures best0 <= best
    ensures forall i :: |best0| <= i < |best| ==> RankOf(best[i]) == rank
    ensures forall x: Card :: multiset(best)[x] == multiset(best0)[x] + if RankOf(x) == rank then multiset(c)[x] else 0
  {
    best := best0;
    for k := 0 to |c|
      invariant best0 <= best
      invariant forall i :: |best0| <= i < |best| ==> RankOf(best[i]) == rank
      invariant forall x: Card ::
                  multiset(best)[x] == multiset(best0)[x] + if RankOf(x) == rank then multiset(c[..k])[x] else 0
    {
      assert c[..k + 1] == c[..k] + [c[k]];
      if RankOf(c[k]) == rank {
        best := best + [c[k]];
      }
    }
    assert c[..|c|] == c;
  }

  // The best cards so far are those of the ranks handled so far, in order of weight.
  ghost predicate Arranged(c: seq<Card>, counts: seq<nat>, ranks: seq<int>, best: seq<Card>)
    requires |counts| == 13
  {
    && (forall x: Card :: multiset(best)[x] == if RankOf(x) in ranks then multiset(c)[x] else 0)
    && (forall i :: 0 <= i < |best| ==> RankOf(best[i]) in ranks)
    && Significant(best, counts, -1)
  }

  lemma {:induction false} Heavier(counts: seq<nat>, ranks: seq<int>, rank: int, r: int)
    requires |counts| == 13 && Weighed(counts, ranks + [rank]) && r in ranks
    ensures 0 <= r < 13 && 0 <= rank < 13 && Weight(counts, r) > Weight(counts, rank) && r != rank
  {
    var all := ranks + [rank];
    var m :| 0 <= m < |ranks| && ranks[m] == r;
    assert all[m] == r && all[|ranks|] == rank;
  }

  lemma {:induction false} ArrangeStep(c: seq<Card>, counts: seq<nat>, ranks: seq<int>, rank: int, done: seq<Card>,
        best: seq<Card>)
    requires |counts| == 13 && Weighed(counts, ranks + [rank])
    requires Arranged(c, counts, ranks, done) && done <= best
    requires forall i :: |done| <= i < |best| ==> RankOf(best[i]) == rank
    requires forall x: Card :: multiset(best)[x] == multiset(done)[x] + if RankOf(x) == rank then multiset(c)[x] else 0
    ensures Arranged(c, counts, ranks + [rank], best)
  {
    forall i | 0 <= i < |best| ensures RankOf(best[i]) in ranks + [rank] {
      if i < |done| { assert RankOf(done[i]) in ranks; }
    }
    forall x: Card ensures multiset(best)[x] == if RankOf(x) in ranks + [rank] then multiset(c)[x] else 0 {
      if RankOf(x) in ranks { Heavier(counts, ranks, rank, RankOf(x)); }
    }
    forall i, j | 0 <= i < j < |best| ensures Weight(counts, RankOf(best[i])) >= Weight(counts, RankOf(best[j])) {
      if i < |done| {
        assert best[i] == done[i];
        Heavier(counts, ranks, rank, RankOf(done[i]));
        assert j < |done| ==> best[j] == done[j];
      }
    }
  }

  lemma {:induction false} WeighedPrefix(counts: seq<nat>, ranks: seq<int>, k: nat)
    requires |counts| == 13 && Weighed(counts, ranks) && k < |ranks|
    ensures ranks[..k + 1] == ranks[..k] + [ranks[k]] && Weighed(counts, ranks[..k + 1])
  {
  }

  lemma {:induction false} AllArranged(c: seq<Card>, counts: seq<nat>, ranks: seq<int>, best: seq<Card>)
    requires counts == Counts(c) && Arranged(c, counts, ranks, best)
    requires forall r :: 0 <= r < 13 && counts[r] > 0 ==> r in ranks
    ensures multiset(best) == multiset(c)
  {
    forall x: Card ensures multiset(best)[x] == multiset(c)[x] {
      if x in multiset(c) {
        assert x in c;
        CountPositive(c, x);
      }
    }
  }

  method ArrangeGroups(c: seq<Card>, g: seq<Group>, ghost counts: seq<nat>) returns (best: seq<Card>)
    requires counts == Counts(c)
    requires Weighed(counts, GroupRanks(g)) && forall r :: 0 <= r < 13 && counts[r] > 0 ==> r in GroupRanks(g)
    ensures multiset(best) == multiset(c)
    ensures Significant(best, counts, -1)
  {
    ghost var ranks := GroupRanks(g);
    best := [];
    for k := 0 to |g|
      invariant Arranged(c, counts, ranks[..k], best)
    {
      ghost var done := best;
      best := AppendGroup(c, g[k].rank, best);
      WeighedPrefix(counts, ranks, k);
      ArrangeStep(c, counts, ranks[..k], ranks[k], done, best);
    }
    assert ranks[..|g|] == ranks;
    AllArranged(c, counts, ranks, best);
  }

  lemma {:induction false} CountPositive(c: seq<Card>, x: Card)
    requires x in c
    ensures RankCount(c, RankOf(x)) > 0
  {
    RankCountOfMultiset(c, RankOf(x));
    assert x in multiset(c);
    assert x == 4 * RankOf(x) + SuitOf(x);
  }

  // ---- five cards ----------------------------------------------------------------------------------------

  // The category the evaluator's tests come to, strongest first.
  function Switch(counts: seq<nat>, flush: bool): Category
    requires |counts| == 13
  {
    var groups := Groups(counts);
    var c0, c1 := CountAt(counts, groups, 0), CountAt(counts, groups, 1);
    var straight := StraightTop(Descending(counts, 13)) >= 0;
    if straight && flush then StraightFlush
    else if c0 == 4 then FourOfAKind
    else if c0 == 3 && c1 == 2 then FullHouse
    else if flush then Flush
    else if straight then Straight
    else if c0 == 3 then ThreeOfAKind
    else if c0 == 2 && c1 == 2 then TwoPair
    else if c0 == 2 then OnePair
    else HighCard
  }

  // Zeros in unused places make no difference.
  lemma {:induction false} GradedAs(counts: seq<nat>, flush: bool, ties: seq<int>)
    requires |counts| == 13
    requires forall i: nat :: i < 5 ==> At(ties, i) == At(Ties(Switch(counts, flush), counts), i)
    ensures GradeOf(counts, flush).category == Switch(counts, flush)
    ensures Encode(Grade(Switch(counts, flush), ties)) == Encode(GradeOf(counts, flush))
  {
    var category := Switch(counts, flush);
    FirstFitIs(counts, flush, category);
    GradeIsFirstFit(counts, flush, 8);
    EncodePlaces(Grade(category, ties));
    EncodePlaces(GradeOf(counts, flush));
  }

  method Classify(ranks: seq<int>, g: seq<Group>, flush: bool, straight: bool, top: int, ghost counts: seq<nat>)
    returns (category: Category, ties: seq<int>)
    requires |counts| == 13 && Sum(counts, 13) == 5
    requires ranks == Descending(counts, 13) && |ranks| == 5
    requires straight <==> StraightTop(ranks) >= 0
    requires straight ==> top == StraightTop(ranks)
    requires GroupRanks(g) == Groups(counts)
    requires forall i :: 0 <= i < |g| ==> 0 <= g[i].rank < 13 && g[i].count == counts[g[i].rank]
    ensures category == Switch(counts, flush)
    ensures forall i: nat :: i < 5 ==> At(ties, i) == At(Ties(category, counts), i)
  {
    GroupsEnough(counts);
    assert |g| == |Groups(counts)|;
    assert forall i :: 0 <= i < |g| ==> g[i].rank == Groups(counts)[i];
    if straight && flush {
      category := StraightFlush;
      ties := [top, 0, 0, 0, 0];
    } else if g[0].count == 4 {
      category := FourOfAKind;
      ties := [g[0].rank, g[1].rank, 0, 0, 0];
    } else if g[0].count == 3 && g[1].count == 2 {
      category := FullHouse;
      ties := [g[0].rank, g[1].rank, 0, 0, 0];
    } else if flush {
      category := Flush;
      ties := ranks;
    } else if straight {
      category := Straight;
      ties := [top, 0, 0, 0, 0];
    } else if g[0].count == 3 {
      category := ThreeOfAKind;
      ties := [g[0].rank, g[1].rank, g[2].rank, 0, 0];
    } else if g[0].count == 2 && g[1].count == 2 {
      category := TwoPair;
      ties := [g[0].rank, g[1].rank, g[2].rank, 0, 0];
    } else if g[0].count == 2 {
      category := OnePair;
      ties := [g[0].rank, g[1].rank, g[2].rank, g[3].rank, 0];
    } else {
      category := HighCard;
      ties := ranks;
    }
  }

  method Evaluate5(cards: seq<Card>) returns (v: HandValue)
    requires |cards| == 5
    ensures v.category == Grade5(cards).category && v.rank == Rank5(cards)
    ensures multiset(v.best) == multiset(cards)
    ensures Significant(v.best, Counts(cards), StraightTop(Descending(Counts(cards), 13)))
  {
    var c := new Card[5](i requires 0 <= i < 5 => cards[i]);
    assert c[..] == cards;
    SortByRank(c);
    var sorted := c[..];
    OrderIsIrrelevant(sorted, cards);
    CountsOfMultiset(sorted, cards);
    GradeIsOfCounts(sorted);
    var flush := SuitOf(sorted[0]) == SuitOf(sorted[1]) && SuitOf(sorted[0]) == SuitOf(sorted[2]) &&
                 SuitOf(sorted[0]) == SuitOf(sorted[3]) && SuitOf(sorted[0]) == SuitOf(sorted[4]);
    assert flush == SameSuit(sorted);
    var counts := CountRanks(sorted);
    CountsSum(sorted);
    SortedRanks(sorted);
    var top, straight := StraightHigh(sorted);
    var found := FindGroups(counts);
    var g := new Group[|found|](i requires 0 <= i < |found| => found[i]);
    assert g[..] == found;
    SortGroups(g);
    var groups := g[..];
    SortedGroups(counts, found, groups);
    GroupsMean(counts);
    var category, ties := Classify(RanksIn(sorted), groups, flush, straight, top, counts);
    var rank := Encode(Grade(category, ties));
    GradedAs(counts, flush, ties);
    var best;
    if straight {
      best := ArrangeStraight(sorted, top, counts);
    } else {
      forall r | 0 <= r < 13 && counts[r] > 0 ensures r in GroupRanks(groups) { SumSplit(counts, r, 13); }
      best := ArrangeGroups(sorted, groups, counts);
    }
    v := HandValue(category, rank, best);
  }

  // ---- six and seven cards -----------------------------------------------------------------------------------

  // The first n cards but for those at places a and b, in order.
  function Kept(cards: seq<Card>, a: nat, b: nat, n: nat): (r: seq<Card>)
    requires a < b && n <= |cards|
    ensures |r| == n - (if a < n then 1 else 0) - if b < n then 1 else 0
  {
    if n == 0 then []
    else if n - 1 == a || n - 1 == b then Kept(cards, a, b, n - 1)
    else Kept(cards, a, b, n - 1) + [cards[n - 1]]
  }

  // With b == |cards| only the card at place a is dropped.
  function Dropping(cards: seq<Card>, a: nat, b: nat): (r: seq<Card>)
    requires a < b <= |cards|
    ensures |r| == |cards| - if b < |cards| then 2 else 1
  {
    Kept(cards, a, b, |cards|)
  }

  method Pick(cards: seq<Card>, a: nat, b: nat) returns (five: seq<Card>)
    requires a < b <= |cards|
    ensures five == Dropping(cards, a, b)
  {
    five := [];
    for i := 0 to |cards|
      invariant five == Kept(cards, a, b, i)
    {
      if i != a && i != b {
        five := five + [cards[i]];
      }
    }
  }

  lemma {:induction false} CountAfter(s: seq<Card>, x: Card, c: Card)
    ensures multiset(s + [x])[c] == multiset(s)[c] + if x == c then 1 else 0
  {
  }

  // One if the card at place i, among the first n, is c.
  function Hit(cards: seq<Card>, i: nat, n: nat, c: Card): nat
    requires n <= |cards|
  {
    if i < n && cards[i] == c then 1 else 0
  }

  lemma {:induction false} PrefixCount(cards: seq<Card>, n: nat, c: Card)
    requires 0 < n <= |cards|
    ensures multiset(cards[..n])[c] == multiset(cards[..n - 1])[c] + if cards[n - 1] == c then 1 else 0
  {
    assert cards[..n] == cards[..n - 1] + [cards[n - 1]];
  }

  lemma {:induction false} HitStep(cards: seq<Card>, i: nat, n: nat, c: Card)
    requires 0 < n <= |cards|
    ensures Hit(cards, i, n, c) == Hit(cards, i, n - 1, c) + if i == n - 1 && cards[n - 1] == c then 1 else 0
  {
  }

  lemma {:induction false} KeptStep(cards: seq<Card>, a: nat, b: nat, n: nat, c: Card)
    requires a < b && 0 < n <= |cards|
    ensures multiset(Kept(cards, a, b, n))[c] == multiset(Kept(cards, a, b, n - 1))[c] +
              if n - 1 != a && n - 1 != b && cards[n - 1] == c then 1 else 0
  {
    CountAfter(Kept(cards, a, b, n - 1), cards[n - 1], c);
  }

  lemma {:induction false} KeptCount(cards: seq<Card>, a: nat, b: nat, n: nat, c: Card)
    requires a < b && n <= |cards|
    ensures multiset(cards[..n])[c] == multiset(Kept(cards, a, b, n))[c] + Hit(cards, a, n, c) + Hit(cards, b, n, c)
  {
    if n > 0 {
      KeptCount(cards, a, b, n - 1, c);
      PrefixCount(cards, n, c);
      KeptStep(cards, a, b, n, c);
      HitStep(cards, a, n, c);
      HitStep(cards, b, n, c);
    }
  }

  // The count of a card after the drop.
  lemma {:induction false} DropCount(cards: seq<Card>, a: nat, b: nat, c: Card)
    requires a < b <= |cards|
    ensures multiset(cards)[c] ==
              multiset(Dropping(cards, a, b))[c] + Hit(cards, a, |cards|, c) + Hit(cards, b, |cards|, c)
  {
    KeptCount(cards, a, b, |cards|, c);
    assert cards[..|cards|] == cards;
  }

  lemma {:induction false} DropSome(cards: seq<Card>, a: nat, b: nat)
    requires a < b <= |cards|
    ensures multiset(Dropping(cards, a, b)) <= multiset(cards)
  {
    forall c: Card ensures multiset(Dropping(cards, a, b))[c] <= multiset(cards)[c] { DropCount(cards, a, b, c); }
  }

  // The five cards are what is left when two of seven, or one of six, are dropped.
  ghost predicate IsDrop(five: seq<Card>, cards: seq<Card>, a: nat, b: nat) {
    a < b <= |cards| && (b < |cards| <==> |cards| == 7) && multiset(five) == multiset(Dropping(cards, a, b))
  }

  lemma {:induction false} SameSize(a: seq<Card>, b: seq<Card>)
    requires multiset(a) <= multiset(b) && |a| == |b|
    ensures multiset(a) == multiset(b)
  {
    assert |multiset(b) - multiset(a)| == 0;
  }

  lemma {:induction false} WithoutCount(cards: seq<Card>, i: nat, c: Card)
    requires i < |cards|
    ensures multiset(cards)[c] == multiset(Without(cards, i))[c] + if cards[i] == c then 1 else 0
  {
    WithoutOne(cards, i);
    assert cards[i] in multiset(cards) by { assert cards[i] in cards; }
  }

  lemma {:induction false} OneDropped(cards: seq<Card>, i: nat)
    requires i < |cards|
    ensures multiset(Without(cards, i)) == multiset(Dropping(cards, i, |cards|))
  {
    forall c: Card ensures multiset(Without(cards, i))[c] == multiset(Dropping(cards, i, |cards|))[c] {
      WithoutCount(cards, i, c);
      DropCount(cards, i, |cards|, c);
    }
  }

  lemma {:induction false} TwoDropped(cards: seq<Card>, i: nat, j: nat) returns (a: nat, b: nat)
    requires |cards| == 7 && i < 7 && j < 6
    ensures IsDrop(Without(Without(cards, i), j), cards, a, b)
  {
    var rest := Without(cards, i);
    var k := if j < i then j else j + 1;
    assert rest[j] == cards[k];
    a, b := if i < k then i else k, if i < k then k else i;
    forall c: Card ensures multiset(Without(rest, j))[c] == multiset(Dropping(cards, a, b))[c] {
      WithoutCount(cards, i, c);
      WithoutCount(rest, j, c);
      DropCount(cards, a, b, c);
    }
  }

  // Any five of the cards are left by some drop.
  lemma {:induction false} EveryFiveIsADrop(five: seq<Card>, cards: seq<Card>) returns (a: nat, b: nat)
    requires FiveOf(five, cards) && 6 <= |cards| <= 7
    ensures IsDrop(five, cards, a, b)
  {
    var i := OneIsLeftOut(five, cards);
    if |cards| == 6 {
      a, b := i, 6;
      OneDropped(cards, i);
      SameSize(five, Without(cards, i));
    } else {
      var rest := Without(cards, i);
      var j := OneIsLeftOut(five, rest);
      a, b := TwoDropped(cards, i, j);
      SameSize(five, Without(rest, j));
    }
  }

  // What the loops keep: the value found is real, and none of the drops done so far beats it.
  ghost predicate Candidate(cards: seq<Card>, v: HandValue) {
    && 0 <= v.rank
    && (v.rank > 0 ==> FiveOf(v.best, cards) && Rank5(v.best) == v.rank && Grade5(v.best).category == v.category)
  }

  // None of the drops of the card at place a with one before place b beats the rank.
  ghost predicate NoBetter(cards: seq<Card>, rank: int, a: nat, b: nat)
    requires b <= |cards| && |cards| >= 6
    decreases b
  {
    b <= a + 1 || (NoBetter(cards, rank, a, b - 1) && Rank5(Dropping(cards, a, b - 1)) <= rank)
  }

  lemma {:induction false} NoBetterThanMore(cards: seq<Card>, rank: int, more: int, a: nat, b: nat)
    requires b <= |cards| && |cards| >= 6 && rank <= more && NoBetter(cards, rank, a, b)
    ensures NoBetter(cards, more, a, b)
  {
    if b > a + 1 { NoBetterThanMore(cards, rank, more, a, b - 1); }
  }

  lemma {:induction false} NoBetterAt(cards: seq<Card>, rank: int, a: nat, b: nat, y: nat)
    requires b <= |cards| && |cards| >= 6 && a < y < b && NoBetter(cards, rank, a, b)
    ensures Rank5(Dropping(cards, a, y)) <= rank
  {
    if y < b - 1 { NoBetterAt(cards, rank, a, b - 1, y); }
  }

  // None of the drops whose first card is before place a beats the rank.
  ghost predicate NoneBetter(cards: seq<Card>, rank: int, a: nat)
    requires |cards| >= 6
  {
    a == 0 || (NoneBetter(cards, rank, a - 1) && NoBetter(cards, rank, a - 1, |cards|))
  }

  lemma {:induction false} NoneBetterThanMore(cards: seq<Card>, rank: int, more: int, a: nat)
    requires |cards| >= 6 && rank <= more && NoneBetter(cards, rank, a)
    ensures NoneBetter(cards, more, a)
  {
    if a > 0 {
      NoneBetterThanMore(cards, rank, more, a - 1);
      NoBetterThanMore(cards, rank, more, a - 1, |cards|);
    }
  }

  lemma {:induction false} NoneBetterAt(cards: seq<Card>, rank: int, a: nat, x: nat)
    requires |cards| >= 6 && x < a && NoneBetter(cards, rank, a)
    ensures NoBetter(cards, rank, x, |cards|)
  {
    if x < a - 1 { NoneBetterAt(cards, rank, a - 1, x); }
  }

  lemma {:induction false} CandidateIsBest(cards: seq<Card>, v: HandValue)
    requires 6 <= |cards| <= 7 && Candidate(cards, v)
    requires if |cards| == 7 then NoneBetter(cards, v.rank, 7)
             else forall a: nat :: a < 6 ==> Rank5(Dropping(cards, a, 6)) <= v.rank
    ensures v.rank == BestRank(cards)
  {
    BestAmongDropped(cards, |cards|);
    if BestRank(cards) > 0 {
      var five := BestIsMade(cards);
      var a, b := EveryFiveIsADrop(five, cards);
      OrderIsIrrelevant(five, Dropping(cards, a, b));
      if |cards| == 7 {
        NoneBetterAt(cards, v.rank, 7, a);
        NoBetterAt(cards, v.rank, a, 7, b);
      }
    }
    if v.rank > 0 { NoneIsBetter(v.best, cards); }
  }

  // One more drop is evaluated; the better value is kept.
  method Better(cards: seq<Card>, a: nat, b: nat, best: HandValue) returns (v: HandValue)
    requires a < b <= |cards| && |Dropping(cards, a, b)| == 5
    requires Candidate(cards, best)
    ensures Candidate(cards, v) && v.rank >= best.rank && v.rank >= Rank5(Dropping(cards, a, b))
  {
    var five := Pick(cards, a, b);
    var w := Evaluate5(five);
    if w.rank > best.rank {
      v := w;
      DropSome(cards, a, b);
      OrderIsIrrelevant(w.best, five);
      SameElements(w.best, five);
    } else {
      v := best;
    }
  }

  method EvaluateSix(cards: seq<Card>) returns (v: HandValue)
    requires |cards| == 6
    ensures Candidate(cards, v) && v.rank == BestRank(cards)
  {
    v := HandValue(HighCard, 0, [0, 0, 0, 0, 0]);
    for drop := 0 to 6
      invariant Candidate(cards, v)
      invariant forall a: nat :: a < drop ==> Rank5(Dropping(cards, a, 6)) <= v.rank
    {
      v := Better(cards, drop, 6, v);
    }
    CandidateIsBest(cards, v);
  }

  // Every drop of the card at place a with a later one.
  method EvaluatePairs(cards: seq<Card>, a: nat, best: HandValue) returns (v: HandValue)
    requires |cards| == 7 && a < 7
    requires Candidate(cards, best)
    ensures Candidate(cards, v) && v.rank >= best.rank
    ensures NoBetter(cards, v.rank, a, 7)
  {
    v := best;
    for b := a + 1 to 7
      invariant Candidate(cards, v) && v.rank >= best.rank
      invariant NoBetter(cards, v.rank, a, b)
    {
      ghost var rank := v.rank;
      v := Better(cards, a, b, v);
      NoBetterThanMore(cards, rank, v.rank, a, b);
    }
  }

  method EvaluateSeven(cards: seq<Card>) returns (v: HandValue)
    requires |cards| == 7
    ensures Candidate(cards, v) && v.rank == BestRank(cards)
  {
    v := HandValue(HighCard, 0, [0, 0, 0, 0, 0]);
    for a := 0 to 7
      invariant Candidate(cards, v)
      invariant NoneBetter(cards, v.rank, a)
    {
      ghost var rank := v.rank;
      v := EvaluatePairs(cards, a, v);
      NoneBetterThanMore(cards, rank, v.rank, a);
    }
    CandidateIsBest(cards, v);
  }

  // The best five of five, six or seven distinct cards: five of the cards themselves, with the
  // highest rank that any five of them have.
  method Evaluate(cards: seq<Card>) returns (v: HandValue)
    requires 5 <= |cards| <= 7
    ensures v.rank == BestRank(cards)
    ensures NoDuplicates(cards) ==>
              && FiveOf(v.best, cards)
              && Rank5(v.best) == v.rank > 0
              && Grade5(v.best).category == v.category
              && forall five :: FiveOf(five, cards) ==> Rank5(five) <= v.rank
  {
    if |cards| == 5 {
      v := Evaluate5(cards);
      SameElements(v.best, cards);
      OrderIsIrrelevant(v.best, cards);
    } else if |cards| == 6 {
      v := EvaluateSix(cards);
    } else {
      v := EvaluateSeven(cards);
    }
    if NoDuplicates(cards) { BestIsMaximal(cards); }
  }
}
