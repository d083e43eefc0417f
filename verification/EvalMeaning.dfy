// What the hand evaluation of Eval means: the rank of five cards does not depend on their order,
// the best rank is the highest over all five-card hands in the cards, and ranks compare as
// (category, tie-breaking ranks) compare lexicographically.

module EvalMeaning {
  import opened Cards
  import opened Eval

  // ---- the order of the cards does not matter -------------------------------------------------

  lemma {:induction false} RankCountOfMultiset(cards: seq<Card>, r: Rank)
    ensures var m := multiset(cards);
            RankCount(cards, r) == m[4 * r] + m[4 * r + 1] + m[4 * r + 2] + m[4 * r + 3]
  {
    if cards != [] {
      var init, last := cards[..|cards| - 1], cards[|cards| - 1];
      RankCountOfMultiset(init, r);
      assert cards == init + [last];
    }
  }

  lemma {:induction false} CountsOfMultiset(a: seq<Card>, b: seq<Card>)
    requires multiset(a) == multiset(b)
    ensures Counts(a) == Counts(b)
  {
    forall r | 0 <= r < 13 ensures RankCount(a, r) == RankCount(b, r) {
      RankCountOfMultiset(a, r);
      RankCountOfMultiset(b, r);
    }
  }

  lemma {:induction false} SameElements(a: seq<Card>, b: seq<Card>)
    requires multiset(a) == multiset(b)
    ensures |a| == |b|
    ensures forall c :: c in a <==> c in b
  {
    assert |multiset(a)| == |a| && |multiset(b)| == |b|;
    forall c ensures c in a <==> c in b {
      assert c in a <==> c in multiset(a);
      assert c in b <==> c in multiset(b);
    }
  }

  lemma {:induction false} SuitsOfMultiset(a: seq<Card>, b: seq<Card>)
    requires multiset(a) == multiset(b) && SameSuit(a)
    ensures SameSuit(b)
  {
    SameElements(a, b);
    forall i | 0 <= i < |b| ensures SuitOf(b[i]) == SuitOf(b[0]) {
      assert b[i] in a && b[0] in a;
    }
  }

  lemma {:induction false} TallyRest(cards: seq<Card>, k: nat)
    requires k <= |cards|
    ensures Tally(cards, k, Counts(cards[..k]), SameSuit(cards[..k])) == GradeOf(Counts(cards), SameSuit(cards))
    decreases |cards| - k
  {
    if k == |cards| {
      assert cards[..k] == cards;
    } else {
      TallyRest(cards, k + 1);
      var done, more := cards[..k], cards[..k + 1];
      var r := RankOf(cards[k]);
      assert more[..k] == done;
      assert Counts(more) == Counts(done)[r := Counts(done)[r] + 1];
      assert SameSuit(more) == (SameSuit(done) && SuitOf(cards[k]) == SuitOf(cards[0])) by {
        assert forall i :: 0 <= i < k ==> done[i] == more[i];
        assert k > 0 ==> done[0] == cards[0];
        assert more[0] == cards[0] && more[k] == cards[k];
      }
    }
  }

  lemma {:induction false} ZerosAre(n: nat)
    ensures forall r :: 0 <= r < n ==> Zeros(n)[r] == 0
  {
    if n > 0 { ZerosAre(n - 1); }
  }

  // The grade depends only on how often each rank occurs and on whether the suits agree.
  lemma {:induction false} GradeIsOfCounts(cards: seq<Card>)
    ensures Grade5(cards) == GradeOf(Counts(cards), SameSuit(cards))
  {
    ZerosAre(13);
    assert Counts(cards[..0]) == Zeros(13);
    TallyRest(cards, 0);
  }

  // Five cards have the same grade in every order.
  lemma {:induction false} OrderIsIrrelevant(a: seq<Card>, b: seq<Card>)
    requires multiset(a) == multiset(b)
    ensures Grade5(a) == Grade5(b) && Rank5(a) == Rank5(b)
  {
    CountsOfMultiset(a, b);
    GradeIsOfCounts(a);
    GradeIsOfCounts(b);
    if SameSuit(a) { SuitsOfMultiset(a, b); }
    if SameSuit(b) { SuitsOfMultiset(b, a); }
  }

  // ---- how often each rank occurs --------------------------------------------------------------

  function Sum(counts: seq<nat>, n: nat): nat
    requires n <= |counts|
  {
    if n == 0 then 0 else Sum(counts, n - 1) + counts[n - 1]
  }

  lemma {:induction false} OneMore(a: seq<nat>, b: seq<nat>, r: nat, n: nat)
    requires |a| == |b| && n <= |a| && r < |a| && b == a[r := a[r] + 1]
    ensures Sum(b, n) == Sum(a, n) + if r < n then 1 else 0
  {
    if n > 0 { OneMore(a, b, r, n - 1); }
  }

  // Every card is counted once.
  lemma {:induction false} CountsSum(cards: seq<Card>)
    ensures Sum(Counts(cards), 13) == |cards|
  {
    if cards == [] {
      ZeroSum(Counts(cards), 13);
    } else {
      var init, last := cards[..|cards| - 1], cards[|cards| - 1];
      CountsSum(init);
      assert Counts(cards) == Counts(init)[RankOf(last) := Counts(init)[RankOf(last)] + 1];
      OneMore(Counts(init), Counts(cards), RankOf(last), 13);
    }
  }

  lemma {:induction false} ZeroSum(counts: seq<nat>, n: nat)
    requires n <= |counts| && forall r :: 0 <= r < n ==> counts[r] == 0
    ensures Sum(counts, n) == 0
  {
    if n > 0 { ZeroSum(counts, n - 1); }
  }

  // At most four of the distinct cards share a rank.
  lemma {:induction false} AtMostFour(cards: seq<Card>, r: Rank)
    requires NoDuplicates(cards)
    ensures RankCount(cards, r) <= 4
  {
    RankCountOfMultiset(cards, r);
    CountInPrefix(cards, 4 * r);
    CountInPrefix(cards, 4 * r + 1);
    CountInPrefix(cards, 4 * r + 2);
    CountInPrefix(cards, 4 * r + 3);
  }

  // The part of the counts of five distinct cards that grading relies on.
  ghost predicate Countable(counts: seq<nat>) {
    |counts| == 13 && Sum(counts, 13) == 5 && forall r :: 0 <= r < 13 ==> counts[r] <= 4
  }

  ghost predicate Hand5(cards: seq<Card>) { |cards| == 5 && NoDuplicates(cards) }

  lemma {:induction false} HandIsCountable(cards: seq<Card>)
    requires Hand5(cards)
    ensures Countable(Counts(cards))
  {
    CountsSum(cards);
    forall r | 0 <= r < 13 ensures Counts(cards)[r] <= 4 { AtMostFour(cards, r); }
  }

  // ---- descending ranks ------------------------------------------------------------------------

  ghost predicate Falls(s: seq<int>) {
    forall i, j :: 0 <= i < j < |s| ==> s[i] >= s[j]
  }

  lemma {:induction false} RepeatIs(x: int, n: nat)
    ensures forall i :: 0 <= i < n ==> Repeat(x, n)[i] == x
  {
    if n > 0 { RepeatIs(x, n - 1); }
  }

  lemma {:induction false} FallsAfter(x: int, head: seq<int>, tail: seq<int>)
    requires forall i :: 0 <= i < |head| ==> head[i] == x
    requires Falls(tail) && forall i :: 0 <= i < |tail| ==> tail[i] < x
    ensures Falls(head + tail)
  {
  }

  lemma {:induction false} DescendingFalls(counts: seq<nat>, n: nat)
    requires n <= |counts|
    ensures var s := Descending(counts, n);
            && |s| == Sum(counts, n)
            && Falls(s)
            && (forall i :: 0 <= i < |s| ==> 0 <= s[i] < n && counts[s[i]] > 0)
  {
    if n > 0 {
      DescendingFalls(counts, n - 1);
      RepeatIs(n - 1, counts[n - 1]);
      FallsAfter(n - 1, Repeat(n - 1, counts[n - 1]), Descending(counts, n - 1));
    }
  }

  lemma {:induction false} DescendingHas(counts: seq<nat>, n: nat, r: nat)
    requires r < n <= |counts| && counts[r] > 0
    ensures r in Descending(counts, n)
  {
    var head, tail := Repeat(n - 1, counts[n - 1]), Descending(counts, n - 1);
    if r == n - 1 {
      RepeatIs(n - 1, counts[n - 1]);
      assert (head + tail)[0] == r;
    } else {
      DescendingHas(counts, n - 1, r);
    }
  }

  // The ranks below n, in falling order, each listed as often as it is counted.
  lemma {:induction false} DescendingMeans(counts: seq<nat>, n: nat)
    requires n <= |counts|
    ensures var s := Descending(counts, n);
            && |s| == Sum(counts, n)
            && Falls(s)
            && (forall i :: 0 <= i < |s| ==> 0 <= s[i] < n && counts[s[i]] > 0)
            && (forall r :: 0 <= r < n && counts[r] > 0 ==> r in s)
  {
    DescendingFalls(counts, n);
    forall r | 0 <= r < n && counts[r] > 0 ensures r in Descending(counts, n) { DescendingHas(counts, n, r); }
  }

  // ---- groups of equal rank ------------------------------------------------------------------------

  lemma {:induction false} WithCountMeans(counts: seq<nat>, k: nat, n: nat)
    requires n <= |counts|
    ensures var s := WithCount(counts, k, n);
            && (forall i :: 0 <= i < |s| ==> 0 <= s[i] < n && counts[s[i]] == k)
            && (forall i, j :: 0 <= i < j < |s| ==> s[i] > s[j])
            && (forall r :: 0 <= r < n && counts[r] == k ==> r in s)
  {
    if n > 0 {
      WithCountMeans(counts, k, n - 1);
      var head, tail := if counts[n - 1] == k then [n - 1] else [], WithCount(counts, k, n - 1);
      forall r | 0 <= r < n && counts[r] == k ensures r in head + tail {
        if r == n - 1 { assert (head + tail)[0] == r; } else { assert r in tail; }
      }
    }
  }

  // Ranks come in this order: the more frequent first, the higher first among equals.
  ghost function Weight(counts: seq<nat>, r: int): int
    requires |counts| == 13 && 0 <= r < 13
  {
    13 * counts[r] + r
  }

  ghost predicate Weighed(counts: seq<nat>, s: seq<int>)
    requires |counts| == 13
  {
    && (forall i :: 0 <= i < |s| ==> 0 <= s[i] < 13)
    && (forall i, j :: 0 <= i < j < |s| ==> Weight(counts, s[i]) > Weight(counts, s[j]))
  }

  // The ranks in s occur between lo and hi times.
  ghost predicate CountedIn(counts: seq<nat>, s: seq<int>, lo: int, hi: int)
    requires |counts| == 13
  {
    forall i :: 0 <= i < |s| ==> 0 <= s[i] < 13 && lo <= counts[s[i]] <= hi
  }

  ghost predicate Lists(counts: seq<nat>, s: seq<int>, lo: int, hi: int)
    requires |counts| == 13
  {
    Weighed(counts, s) && CountedIn(counts, s, lo, hi) &&
    forall r :: 0 <= r < 13 && lo <= counts[r] <= hi ==> r in s
  }

  lemma {:induction false} OneCount(counts: seq<nat>, k: nat)
    requires |counts| == 13
    ensures Lists(counts, WithCount(counts, k, 13), k, k)
  {
    WithCountMeans(counts, k, 13);
  }

  lemma {:induction false} AddCount(counts: seq<nat>, s: seq<int>, lo: nat, hi: nat)
    requires |counts| == 13 && 0 < lo <= hi && Lists(counts, s, lo, hi)
    ensures Lists(counts, s + WithCount(counts, lo - 1, 13), lo - 1, hi)
  {
    var t := WithCount(counts, lo - 1, 13);
    OneCount(counts, lo - 1);
    forall r | 0 <= r < 13 && lo - 1 <= counts[r] <= hi ensures r in s + t {
      assert r in s || r in t;
    }
  }

  // The groups are the ranks that occur, each once, by falling frequency and then rank.
  lemma {:induction false} GroupsMean(counts: seq<nat>)
    requires |counts| == 13
    ensures Lists(counts, Groups(counts), 1, 5)
  {
    OneCount(counts, 5);
    AddCount(counts, WithCount(counts, 5, 13), 5, 5);
    AddCount(counts, WithCount(counts, 5, 13) + WithCount(counts, 4, 13), 4, 5);
    AddCount(counts, WithCount(counts, 5, 13) + WithCount(counts, 4, 13) + WithCount(counts, 3, 13), 3, 5);
    AddCount(counts, WithCount(counts, 5, 13) + WithCount(counts, 4, 13) + WithCount(counts, 3, 13) +
                     WithCount(counts, 2, 13), 2, 5);
  }

  // There is only one such list.
  lemma {:induction false} OneWeighing(counts: seq<nat>, s: seq<int>, t: seq<int>)
    requires |counts| == 13 && Weighed(counts, s) && Weighed(counts, t)
    requires forall r :: r in s <==> r in t
    ensures s == t
  {
    if s == [] {
      assert forall i :: 0 <= i < |t| ==> t[i] in t;
    } else {
      assert s[0] in s && s[0] in t;
      assert t[0] in t && t[0] in s;
      assert s[0] == t[0];
      forall r ensures r in s[1..] <==> r in t[1..] {
        assert r in s <==> r == s[0] || r in s[1..];
        assert r in t <==> r == t[0] || r in t[1..];
        assert s[0] !in s[1..];
        assert t[0] !in t[1..];
      }
      OneWeighing(counts, s[1..], t[1..]);
      assert s == [s[0]] + s[1..] && t == [t[0]] + t[1..];
    }
  }

  // ---- what the categories are ----------------------------------------------------------------------

  lemma {:induction false} SumSplit(counts: seq<nat>, r: nat, n: nat)
    requires r < n <= |counts|
    ensures Sum(counts, n) >= counts[r] + Sum(counts, r)
  {
    if r < n - 1 { SumSplit(counts, r, n - 1); }
  }

  ghost predicate Has(counts: seq<nat>, k: nat) {
    exists r :: 0 <= r < |counts| && counts[r] == k
  }

  ghost predicate HasTwo(counts: seq<nat>, k: nat) {
    exists r, s :: 0 <= r < s < |counts| && counts[r] == k && counts[s] == k
  }

  lemma {:induction false} TwoAtMost(counts: seq<nat>, r: nat, s: nat)
    requires Countable(counts) && r < 13 && s < 13 && r != s
    ensures counts[r] + counts[s] <= 5
  {
    var lo, hi := if r < s then r else s, if r < s then s else r;
    SumSplit(counts, hi, 13);
    SumSplit(counts, lo, hi);
  }

  lemma {:induction false} TwoOrSame(counts: seq<nat>, r: nat, s: nat)
    requires Countable(counts) && r < 13 && s < 13
    ensures r == s || counts[r] + counts[s] <= 5
  {
    if r != s { TwoAtMost(counts, r, s); }
  }

  lemma {:induction false} ThreeAtMost(counts: seq<nat>, r: nat, s: nat, t: nat)
    requires Countable(counts) && r < s < 13 && t < 13 && t != r && t != s
    ensures counts[r] + counts[s] + counts[t] <= 5
  {
    if t < r {
      SumSplit(counts, s, 13); SumSplit(counts, r, s); SumSplit(counts, t, r);
    } else if t < s {
      SumSplit(counts, s, 13); SumSplit(counts, t, s); SumSplit(counts, r, t);
    } else {
      SumSplit(counts, t, 13); SumSplit(counts, s, t); SumSplit(counts, r, s);
    }
  }

  lemma {:induction false} AloneSum(counts: seq<nat>, r: nat, n: nat)
    requires n <= |counts| && forall s :: 0 <= s < n && s != r ==> counts[s] == 0
    ensures Sum(counts, n) == if r < n then counts[r] else 0
  {
    if n > 0 { AloneSum(counts, r, n - 1); }
  }

  // Five cards have at least two ranks among them; the first is the most frequent and the
  // second the most frequent of the others.
  lemma {:induction false} FirstGroups(counts: seq<nat>)
    requires Countable(counts)
    ensures var g := Groups(counts);
            && |g| >= 2 && 0 <= g[0] < 13 && 0 <= g[1] < 13 && g[0] != g[1]
            && (forall r :: 0 <= r < 13 ==> counts[r] <= counts[g[0]])
            && (forall r :: 0 <= r < 13 && r != g[0] ==> counts[r] <= counts[g[1]])
            && counts[g[1]] > 0
  {
    var g := Groups(counts);
    GroupsMean(counts);
    if forall r :: 0 <= r < 13 ==> counts[r] == 0 {
      ZeroSum(counts, 13);
      assert false;
    }
    var r0 :| 0 <= r0 < 13 && counts[r0] > 0;
    assert r0 in g;
    if forall s :: 0 <= s < 13 && s != g[0] ==> counts[s] == 0 {
      AloneSum(counts, g[0], 13);
      assert false;
    }
    var r1 :| 0 <= r1 < 13 && r1 != g[0] && counts[r1] > 0;
    assert r1 in g;
    var i1 :| 0 <= i1 < |g| && g[i1] == r1;
    assert i1 >= 1;
    assert Weight(counts, g[0]) > Weight(counts, g[1]);
    forall r | 0 <= r < 13 ensures counts[r] <= counts[g[0]] {
      if counts[r] > 0 {
        assert r in g;
        var i :| 0 <= i < |g| && g[i] == r;
        assert i > 0 ==> Weight(counts, g[0]) > Weight(counts, g[i]);
      }
    }
    forall r | 0 <= r < 13 && r != g[0] ensures counts[r] <= counts[g[1]] {
      if counts[r] > 0 {
        assert r in g;
        var i :| 0 <= i < |g| && g[i] == r;
        assert i > 1 ==> Weight(counts, g[1]) > Weight(counts, g[i]);
      }
    }
  }

  lemma {:induction false} GroupCounts(counts: seq<nat>)
    requires Countable(counts)
    ensures var c0, c1 := CountAt(counts, Groups(counts), 0), CountAt(counts, Groups(counts), 1);
            && (c0 == 4 <==> Has(counts, 4))
            && (c0 == 3 <==> Has(counts, 3))
            && (c0 == 3 && c1 == 2 <==> Has(counts, 3) && Has(counts, 2))
            && (c0 == 2 && c1 == 2 <==> HasTwo(counts, 2))
            && (c0 == 2 <==> Has(counts, 2) && !Has(counts, 3))
  {
    var g := Groups(counts);
    FirstGroups(counts);
    TwoAtMost(counts, g[0], g[1]);
    if Has(counts, 3) {
      var r :| 0 <= r < 13 && counts[r] == 3;
      TwoOrSame(counts, r, g[0]);
      if Has(counts, 2) {
        var s :| 0 <= s < 13 && counts[s] == 2;
      }
    } else if Has(counts, 2) {
      var s :| 0 <= s < 13 && counts[s] == 2;
    }
    if HasTwo(counts, 2) {
      var r, s :| 0 <= r < s < 13 && counts[r] == 2 && counts[s] == 2;
      if g[0] != r && g[0] != s { ThreeAtMost(counts, r, s, g[0]); }
    }
    if counts[g[0]] == 2 && counts[g[1]] == 2 {
      var lo, hi := if g[0] < g[1] then g[0] else g[1], if g[0] < g[1] then g[1] else g[0];
      assert 0 <= lo < hi < 13 && counts[lo] == 2 && counts[hi] == 2;
    }
  }

  // Five ranks in a row under top; the ace may stand below the two.
  ghost function RunRank(top: int, i: int): int { if top - i < 0 then ACE else top - i }

  ghost predicate Run(counts: seq<nat>, top: int)
    requires |counts| == 13
  {
    FIVE <= top <= ACE && forall i :: 0 <= i < 5 ==> counts[RunRank(top, i)] > 0
  }

  lemma {:induction false} RunFound(counts: seq<nat>)
    requires Countable(counts)
    ensures var top := StraightTop(Descending(counts, 13)); top >= 0 ==> Run(counts, top)
  {
    var s := Descending(counts, 13);
    DescendingMeans(counts, 13);
    var top := StraightTop(s);
    if top >= 0 {
      assert s[0] > s[1] > s[2] > s[3] > s[4];
      forall i | 0 <= i < 5 ensures counts[RunRank(top, i)] > 0 {
        if top == s[0] {
          assert RunRank(top, i) == s[i];
        } else {
          assert RunRank(top, i) == if i < 4 then s[i + 1] else s[0];
        }
      }
    }
  }

  lemma {:induction false} FiveInFive(s: seq<int>, v: seq<int>)
    requires |s| == 5 && |v| == 5 && Falls(s)
    requires v[0] > v[1] > v[2] > v[3] > v[4]
    requires v[0] in s && v[1] in s && v[2] in s && v[3] in s && v[4] in s
    ensures s == v
  {
    var i0 :| 0 <= i0 < 5 && s[i0] == v[0];
    var i1 :| 0 <= i1 < 5 && s[i1] == v[1];
    var i2 :| 0 <= i2 < 5 && s[i2] == v[2];
    var i3 :| 0 <= i3 < 5 && s[i3] == v[3];
    var i4 :| 0 <= i4 < 5 && s[i4] == v[4];
    assert i0 < i1 < i2 < i3 < i4;
  }

  ghost function RunCards(top: int): seq<int> {
    if top == FIVE then [ACE, 3, 2, 1, 0] else [top, top - 1, top - 2, top - 3, top - 4]
  }

  lemma {:induction false} RunInOrder(counts: seq<nat>, top: int)
    requires Countable(counts) && Run(counts, top)
    ensures Descending(counts, 13) == RunCards(top)
  {
    DescendingMeans(counts, 13);
    assert forall i :: 0 <= i < 5 ==> RunRank(top, i) in Descending(counts, 13);
    var v := RunCards(top);
    if top == FIVE {
      assert v[0] == RunRank(top, 4) && v[1] == RunRank(top, 0) && v[2] == RunRank(top, 1);
      assert v[3] == RunRank(top, 2) && v[4] == RunRank(top, 3);
    } else {
      assert v[0] == RunRank(top, 0) && v[1] == RunRank(top, 1) && v[2] == RunRank(top, 2);
      assert v[3] == RunRank(top, 3) && v[4] == RunRank(top, 4);
    }
    FiveInFive(Descending(counts, 13), v);
  }

  lemma {:induction false} RunSeen(counts: seq<nat>, top: int)
    requires Countable(counts) && Run(counts, top)
    ensures StraightTop(Descending(counts, 13)) == top
  {
    RunInOrder(counts, top);
  }

  ghost predicate Straighten(counts: seq<nat>)
    requires |counts| == 13
  {
    exists top :: Run(counts, top)
  }

  lemma {:induction false} OneOfSuit(cards: seq<Card>, c: Card)
    requires Hand5(cards) && SameSuit(cards)
    ensures multiset(cards)[c] <= if SuitOf(c) == SuitOf(cards[0]) then 1 else 0
  {
    CountInPrefix(cards, c);
    assert c in multiset(cards) <==> c in cards;
  }

  // Five distinct cards of one suit have five different ranks.
  lemma {:induction false} FlushCounts(cards: seq<Card>)
    requires Hand5(cards) && SameSuit(cards)
    ensures forall r :: 0 <= r < 13 ==> Counts(cards)[r] <= 1
  {
    forall r: Rank ensures RankCount(cards, r) <= 1 {
      RankCountOfMultiset(cards, r);
      OneOfSuit(cards, 4 * r);
      OneOfSuit(cards, 4 * r + 1);
      OneOfSuit(cards, 4 * r + 2);
      OneOfSuit(cards, 4 * r + 3);
    }
  }

  // The category of five distinct cards, told from the rules of poker.
  ghost function ByTheRules(counts: seq<nat>, flush: bool): Category
    requires |counts| == 13
  {
    if Straighten(counts) then (if flush then StraightFlush else Straight)
    else if flush then Flush
    else if Has(counts, 4) then FourOfAKind
    else if Has(counts, 3) then (if Has(counts, 2) then FullHouse else ThreeOfAKind)
    else if HasTwo(counts, 2) then TwoPair
    else if Has(counts, 2) then OnePair
    else HighCard
  }

  // A run leaves no room for a pair.
  lemma {:induction false} RunHasNoPairs(counts: seq<nat>, top: int)
    requires Countable(counts) && Run(counts, top)
    ensures forall r :: 0 <= r < 13 ==> counts[r] <= 1
  {
    var v := RunCards(top);
    DescendingMeans(counts, 13);
    RunInOrder(counts, top);
    assert forall i :: 0 <= i < 5 ==> counts[v[i]] > 0;
    FiveAtMost(counts, v[4], v[3], v[2], v[1], v[0]);
    assert forall r :: 0 <= r < 13 && counts[r] > 0 ==> r in v;
  }

  lemma {:induction false} FiveAtMost(counts: seq<nat>, a: nat, b: nat, c: nat, d: nat, e: nat)
    requires Countable(counts) && a < b < c < d < e < 13
    ensures counts[a] + counts[b] + counts[c] + counts[d] + counts[e] <= 5
  {
    SumSplit(counts, e, 13); SumSplit(counts, d, e); SumSplit(counts, c, d); SumSplit(counts, b, c);
    SumSplit(counts, a, b);
  }

  // The grading finds exactly the category the rules name.
  lemma {:induction false} CategoryIsRight(cards: seq<Card>)
    requires Hand5(cards)
    ensures Grade5(cards).category == ByTheRules(Counts(cards), SameSuit(cards))
  {
    var counts, flush := Counts(cards), SameSuit(cards);
    HandIsCountable(cards);
    GradeIsOfCounts(cards);
    GroupCounts(counts);
    RunFound(counts);
    var top := StraightTop(Descending(counts, 13));
    if Straighten(counts) {
      var t :| Run(counts, t);
      RunSeen(counts, t);
      RunHasNoPairs(counts, t);
    }
    if flush { FlushCounts(cards); }
    GradeIsFirstFit(counts, flush, 8);
    FirstFitIs(counts, flush, ByTheRules(counts, flush));
  }

  // A category that fits while none above it does is the grade's.
  lemma {:induction false} FirstFitIs(counts: seq<nat>, flush: bool, c: Category)
    requires |counts| == 13 && Fits(c, counts, flush)
    requires forall d: Category :: Level(c) < Level(d) ==> !Fits(d, counts, flush)
    ensures GradeOf(counts, flush).category == c
  {
    GradeIsFirstFit(counts, flush, 8);
    var g := GradeUpTo(counts, flush, 8);
    assert Level(c) <= 8;
    assert !(Level(c) < Level(g.category));
    assert !(Level(g.category) < Level(c));
  }

  // ---- comparing grades ------------------------------------------------------------------------------

  ghost predicate ValidTies(g: Grade) {
    |g.ties| <= 5 && forall i :: 0 <= i < |g.ties| ==> 0 <= g.ties[i] < 16
  }

  // The first place in which the tie-breaking ranks differ decides.
  ghost predicate TiesBelow(g: Grade, h: Grade, i: nat)
    decreases 5 - i
  {
    i < 5 && (At(g.ties, i) < At(h.ties, i) || (At(g.ties, i) == At(h.ties, i) && TiesBelow(g, h, i + 1)))
  }

  ghost predicate SameTies(g: Grade, h: Grade) {
    forall i :: 0 <= i < 5 ==> At(g.ties, i) == At(h.ties, i)
  }

  // The weaker hand: a lower category, or the same and lower ranks.
  ghost predicate GradeBelow(g: Grade, h: Grade) {
    Level(g.category) < Level(h.category) || (g.category == h.category && TiesBelow(g, h, 0))
  }

  lemma {:induction false} TiesUnfold(g: Grade, h: Grade)
    ensures TiesBelow(g, h, 0) <==>
              var a, b := (i: nat) => At(g.ties, i), (i: nat) => At(h.ties, i);
              || a(0) < b(0)
              || (a(0) == b(0) && a(1) < b(1))
              || (a(0) == b(0) && a(1) == b(1) && a(2) < b(2))
              || (a(0) == b(0) && a(1) == b(1) && a(2) == b(2) && a(3) < b(3))
              || (a(0) == b(0) && a(1) == b(1) && a(2) == b(2) && a(3) == b(3) && a(4) < b(4))
  {
    assert !TiesBelow(g, h, 5);
    assert TiesBelow(g, h, 4) <==> At(g.ties, 4) < At(h.ties, 4);
    assert TiesBelow(g, h, 3) <==>
      At(g.ties, 3) < At(h.ties, 3) || (At(g.ties, 3) == At(h.ties, 3) && TiesBelow(g, h, 4));
    assert TiesBelow(g, h, 2) <==>
      At(g.ties, 2) < At(h.ties, 2) || (At(g.ties, 2) == At(h.ties, 2) && TiesBelow(g, h, 3));
  }

  lemma {:induction false} EncodePlaces(g: Grade)
    ensures Encode(g) == Level(g.category) * 0x10_0000 + At(g.ties, 0) * 0x1_0000 + At(g.ties, 1) * 0x1000 +
                         At(g.ties, 2) * 0x100 + At(g.ties, 3) * 0x10 + At(g.ties, 4)
  {
    assert Packed(g, 1) == 0x10 * Level(g.category) + At(g.ties, 0);
    assert Packed(g, 2) == 0x10 * Packed(g, 1) + At(g.ties, 1);
    assert Packed(g, 3) == 0x10 * Packed(g, 2) + At(g.ties, 2);
    assert Packed(g, 4) == 0x10 * Packed(g, 3) + At(g.ties, 3);
  }

  // One number compares as the grade does: the packed rank is lower exactly for the weaker
  // hand and equal exactly for a tie.
  lemma {:induction false} RanksCompareGrades(g: Grade, h: Grade)
    requires ValidTies(g) && ValidTies(h)
    ensures Encode(g) < Encode(h) <==> GradeBelow(g, h)
    ensures Encode(g) == Encode(h) <==> g.category == h.category && SameTies(g, h)
  {
    TiesUnfold(g, h);
    EncodePlaces(g);
    EncodePlaces(h);
    forall i: nat | i < 5 ensures 0 <= At(g.ties, i) < 16 && 0 <= At(h.ties, i) < 16 {}
  }

  // The grade is the first category from the top that fits, with that category's ties.
  lemma {:induction false} GradeIsFirstFit(counts: seq<nat>, flush: bool, level: nat)
    requires |counts| == 13 && level < 9
    ensures var g := GradeUpTo(counts, flush, level);
            && Level(g.category) <= level
            && Fits(g.category, counts, flush)
            && g.ties == Ties(g.category, counts)
            && forall c: Category :: Level(g.category) < Level(c) <= level ==> !Fits(c, counts, flush)
  {
    assert Level(CATEGORIES[level]) == level && forall c: Category :: Level(c) == level ==> c == CATEGORIES[level];
    if level > 0 && !Fits(CATEGORIES[level], counts, flush) {
      GradeIsFirstFit(counts, flush, level - 1);
    }
  }

  lemma {:induction false} TiesShape(counts: seq<nat>, flush: bool)
    requires |counts| == 13
    ensures var g := GradeOf(counts, flush);
            var ranks := Descending(counts, 13);
            var groups := Groups(counts);
            && (g.category == HighCard ==> g.ties == ranks)
            && (|| g.ties == ranks
                || (StraightTop(ranks) >= 0 && g.ties == [StraightTop(ranks)])
                || g.ties == First(groups, 2) || g.ties == First(groups, 3) || g.ties == First(groups, 4))
  {
    GradeIsFirstFit(counts, flush, 8);
  }

  ghost predicate InRange(s: seq<int>) { forall i :: 0 <= i < |s| ==> 0 <= s[i] < 13 }

  lemma {:induction false} ListsInRange(counts: seq<nat>)
    requires Countable(counts)
    ensures |Descending(counts, 13)| == 5 && InRange(Descending(counts, 13)) && InRange(Groups(counts))
  {
    DescendingMeans(counts, 13);
    GroupsMean(counts);
  }

  lemma {:induction false} TiesValid(counts: seq<nat>, flush: bool)
    requires Countable(counts)
    ensures ValidTies(GradeOf(counts, flush))
  {
    ListsInRange(counts);
    TiesShape(counts, flush);
  }

  lemma {:induction false} EncodePositive(g: Grade)
    requires ValidTies(g) && (g.category == HighCard ==> |g.ties| > 0 && g.ties[0] > 0)
    ensures Encode(g) > 0
  {
    EncodePlaces(g);
    forall i: nat | i < 5 ensures 0 <= At(g.ties, i) {}
  }

  // Every hand of five distinct cards is worth more than no hand.
  lemma {:induction false} GradeValid(cards: seq<Card>)
    requires Hand5(cards)
    ensures ValidTies(Grade5(cards))
    ensures Rank5(cards) > 0
  {
    var counts, flush := Counts(cards), SameSuit(cards);
    HandIsCountable(cards);
    GradeIsOfCounts(cards);
    TiesValid(counts, flush);
    TiesShape(counts, flush);
    DescendingMeans(counts, 13);
    var s := Descending(counts, 13);
    if s[0] == 0 {
      AloneSum(counts, 0, 13);
      assert false;
    }
    EncodePositive(GradeOf(counts, flush));
  }

  // ---- the best of six or seven cards -----------------------------------------------------------------

  // The five cards are among the cards.
  ghost predicate FiveOf(five: seq<Card>, cards: seq<Card>) {
    |five| == 5 && multiset(five) <= multiset(cards)
  }

  ghost predicate Pool(cards: seq<Card>) { |cards| >= 5 && NoDuplicates(cards) }

  lemma {:induction false} WithoutOne(cards: seq<Card>, i: nat)
    requires i < |cards|
    ensures multiset(Without(cards, i)) == multiset(cards) - multiset{cards[i]}
  {
    assert cards == cards[..i] + [cards[i]] + cards[i + 1..];
  }

  lemma {:induction false} PoolWithout(cards: seq<Card>, i: nat)
    requires i < |cards| && |cards| >= 6 && NoDuplicates(cards)
    ensures Pool(Without(cards, i))
  {
    WithoutOne(cards, i);
    DistinctUnderShuffle(cards, Without(cards, i));
  }

  // Five of at least six cards leave one out.
  lemma {:induction false} OneIsLeftOut(five: seq<Card>, cards: seq<Card>) returns (i: nat)
    requires FiveOf(five, cards) && |cards| >= 6
    ensures i < |cards| && FiveOf(five, Without(cards, i))
  {
    var rest := multiset(cards) - multiset(five);
    assert |rest| == |cards| - 5 by { assert |multiset(cards)| == |cards|; }
    var c :| c in rest;
    assert c in multiset(cards);
    assert c in cards;
    i :| 0 <= i < |cards| && cards[i] == c;
    WithoutOne(cards, i);
  }

  lemma {:induction false} BestAmongDropped(cards: seq<Card>, n: nat)
    requires n <= |cards| && cards != []
    ensures BestDropping(cards, n) >= 0
    ensures forall i :: 0 <= i < n ==> BestRank(Without(cards, i)) <= BestDropping(cards, n)
    ensures BestDropping(cards, n) > 0 ==>
      exists i :: 0 <= i < n && BestRank(Without(cards, i)) == BestDropping(cards, n)
  {
    if n > 0 { BestAmongDropped(cards, n - 1); }
  }

  lemma {:induction false} NoneIsBetter(five: seq<Card>, cards: seq<Card>)
    requires |cards| >= 5 && FiveOf(five, cards)
    ensures Rank5(five) <= BestRank(cards)
    decreases |cards|
  {
    if |cards| == 5 {
      assert multiset(cards) - multiset(five) == multiset{} by {
        assert |multiset(cards) - multiset(five)| == 0;
      }
      OrderIsIrrelevant(five, cards);
    } else {
      var i := OneIsLeftOut(five, cards);
      NoneIsBetter(five, Without(cards, i));
      BestAmongDropped(cards, |cards|);
    }
  }

  lemma {:induction false} BestIsPositive(cards: seq<Card>)
    requires Pool(cards)
    ensures BestRank(cards) > 0
    decreases |cards|
  {
    if |cards| == 5 {
      GradeValid(cards);
    } else {
      PoolWithout(cards, 0);
      BestIsPositive(Without(cards, 0));
      BestAmongDropped(cards, |cards|);
    }
  }

  lemma {:induction false} BestIsMade(cards: seq<Card>) returns (five: seq<Card>)
    requires |cards| >= 5 && BestRank(cards) > 0
    ensures FiveOf(five, cards) && Rank5(five) == BestRank(cards)
    decreases |cards|
  {
    if |cards| == 5 {
      five := cards;
    } else {
      BestAmongDropped(cards, |cards|);
      var i :| 0 <= i < |cards| && BestRank(Without(cards, i)) == BestRank(cards);
      five := BestIsMade(Without(cards, i));
      WithoutOne(cards, i);
    }
  }

  // The best rank is made by five of the cards and beaten by no five of them.
  lemma {:induction false} BestIsMaximal(cards: seq<Card>)
    requires Pool(cards)
    ensures forall five :: FiveOf(five, cards) ==> Rank5(five) <= BestRank(cards)
    ensures exists five :: FiveOf(five, cards) && Rank5(five) == BestRank(cards)
    ensures BestRank(cards) > 0
  {
    forall five | FiveOf(five, cards) ensures Rank5(five) <= BestRank(cards) { NoneIsBetter(five, cards); }
    BestIsPositive(cards);
    var best := BestIsMade(cards);
  }

  // So it does not depend on the order in which the cards are given.
  lemma {:induction false} BestInAnyOrder(a: seq<Card>, b: seq<Card>)
    requires Pool(a) && multiset(a) == multiset(b)
    ensures BestRank(a) == BestRank(b)
  {
    SameElements(a, b);
    DistinctUnderShuffle(a, b);
    BestIsPositive(a);
    BestIsPositive(b);
    var x := BestIsMade(a);
    var y := BestIsMade(b);
    NoneIsBetter(x, b);
    NoneIsBetter(y, a);
  }

  // ---- lists of ranks -----------------------------------------------------------------------------------

  function RanksIn(cards: seq<Card>): (s: seq<int>)
    ensures |s| == |cards|
  {
    seq(|cards|, i requires 0 <= i < |cards| => RankOf(cards[i]))
  }

  function CountIn(s: seq<int>, r: int): nat {
    if s == [] then 0 else (if s[0] == r then 1 else 0) + CountIn(s[1..], r)
  }

  lemma {:induction false} CountJoin(s: seq<int>, t: seq<int>, r: int)
    ensures CountIn(s + t, r) == CountIn(s, r) + CountIn(t, r)
  {
    if s == [] {
      assert s + t == t;
    } else {
      CountJoin(s[1..], t, r);
      assert (s + t)[1..] == s[1..] + t;
    }
  }

  lemma {:induction false} CountMember(s: seq<int>, r: int)
    ensures r in s <==> CountIn(s, r) > 0
  {
    if s != [] {
      CountMember(s[1..], r);
      assert r in s <==> r == s[0] || r in s[1..];
    }
  }

  lemma {:induction false} RanksCounted(cards: seq<Card>, r: int)
    ensures CountIn(RanksIn(cards), r) == RankCount(cards, r)
  {
    if cards != [] {
      var init, last := cards[..|cards| - 1], cards[|cards| - 1];
      RanksCounted(init, r);
      assert RanksIn(cards) == RanksIn(init) + [RankOf(last)];
      CountJoin(RanksIn(init), [RankOf(last)], r);
    }
  }

  lemma {:induction false} RepeatCounted(x: int, n: nat, r: int)
    ensures CountIn(Repeat(x, n), r) == if r == x then n else 0
  {
    if n > 0 {
      RepeatCounted(x, n - 1, r);
      assert Repeat(x, n)[1..] == Repeat(x, n - 1);
    }
  }

  lemma {:induction false} DescendingCounted(counts: seq<nat>, n: nat, r: int)
    requires n <= |counts|
    ensures CountIn(Descending(counts, n), r) == if 0 <= r < n then counts[r] else 0
  {
    if n > 0 {
      DescendingCounted(counts, n - 1, r);
      RepeatCounted(n - 1, counts[n - 1], r);
      CountJoin(Repeat(n - 1, counts[n - 1]), Descending(counts, n - 1), r);
    }
  }

  // Falling lists that count the same are the same.
  lemma {:induction false} OneFall(s: seq<int>, t: seq<int>)
    requires Falls(s) && Falls(t) && forall r :: CountIn(s, r) == CountIn(t, r)
    ensures s == t
  {
    forall r ensures r in s <==> r in t {
      CountMember(s, r);
      CountMember(t, r);
    }
    if s != [] {
      assert s[0] in t && t[0] in s;
      assert s[0] == t[0];
      forall r ensures CountIn(s[1..], r) == CountIn(t[1..], r) {
        assert CountIn(s, r) == CountIn(t, r);
      }
      OneFall(s[1..], t[1..]);
      assert s == [s[0]] + s[1..] && t == [s[0]] + t[1..];
    } else {
      assert forall i :: 0 <= i < |t| ==> t[i] in t;
    }
  }

  lemma {:induction false} RankCountRange(cards: seq<Card>, r: int)
    requires r < 0 || r >= 13
    ensures RankCount(cards, r) == 0
  {
    if cards != [] { RankCountRange(cards[..|cards| - 1], r); }
  }

  // Cards sorted from the highest rank down show the ranks in the order the grade lists them.
  lemma {:induction false} SortedRanks(cards: seq<Card>)
    requires Falls(RanksIn(cards))
    ensures RanksIn(cards) == Descending(Counts(cards), 13)
  {
    var s, t := RanksIn(cards), Descending(Counts(cards), 13);
    DescendingMeans(Counts(cards), 13);
    forall r ensures CountIn(s, r) == CountIn(t, r) {
      RanksCounted(cards, r);
      DescendingCounted(Counts(cards), 13, r);
      if r < 0 || r >= 13 { RankCountRange(cards, r); }
    }
    OneFall(s, t);
  }

  function ListTotal(counts: seq<nat>, s: seq<int>): nat {
    if s == [] then 0 else (if 0 <= s[0] < |counts| then counts[s[0]] else 0) + ListTotal(counts, s[1..])
  }

  lemma {:induction false} TotalElsewhere(counts: seq<nat>, s: seq<int>, r: nat)
    requires r < |counts| && r !in s
    ensures ListTotal(counts[r := 0], s) == ListTotal(counts, s)
  {
    if s != [] { TotalElsewhere(counts, s[1..], r); }
  }

  lemma {:induction false} SumWithout(counts: seq<nat>, r: nat, n: nat)
    requires r < |counts| && n <= |counts|
    ensures Sum(counts, n) == Sum(counts[r := 0], n) + if r < n then counts[r] else 0
  {
    if n > 0 { SumWithout(counts, r, n - 1); }
  }

  // A list with every rank that occurs accounts for all the cards.
  lemma {:induction false} ListIsAll(counts: seq<nat>, s: seq<int>)
    requires forall i :: 0 <= i < |s| ==> 0 <= s[i] < |counts|
    requires forall i, j :: 0 <= i < j < |s| ==> s[i] != s[j]
    requires forall r :: 0 <= r < |counts| && counts[r] > 0 ==> r in s
    ensures ListTotal(counts, s) == Sum(counts, |counts|)
    decreases |s|
  {
    if s == [] {
      ZeroSum(counts, |counts|);
    } else {
      var rest := counts[s[0] := 0];
      forall r | 0 <= r < |rest| && rest[r] > 0 ensures r in s[1..] { assert r in s; }
      ListIsAll(rest, s[1..]);
      TotalElsewhere(counts, s[1..], s[0]);
      SumWithout(counts, s[0], |counts|);
    }
  }

  // How many groups there are at least, from the sizes of the first two.
  lemma {:induction false} GroupsEnough(counts: seq<nat>)
    requires |counts| == 13 && Sum(counts, 13) == 5
    ensures var g := Groups(counts);
            var c0, c1 := CountAt(counts, g, 0), CountAt(counts, g, 1);
            && (forall i :: 0 <= i < |g| ==> 0 <= g[i] < 13)
            && |g| >= 1
            && (c0 <= 4 ==> |g| >= 2)
            && (c0 == 3 && c1 != 2 ==> |g| >= 3)
            && (c0 == 2 ==> |g| >= 3)
            && (c0 == 2 && c1 != 2 ==> |g| >= 4)
  {
    var g := Groups(counts);
    GroupsMean(counts);
    forall r | 0 <= r < 13 && counts[r] > 0 ensures r in g { SumSplit(counts, r, 13); }
    ListIsAll(counts, g);
    Listed(counts, g);
    if |g| >= 2 { assert Weight(counts, g[0]) > Weight(counts, g[1]); }
    if |g| >= 3 { assert Weight(counts, g[1]) > Weight(counts, g[2]); }
  }

  lemma {:induction false} Listed(counts: seq<nat>, g: seq<int>)
    requires |counts| == 13 && forall i :: 0 <= i < |g| ==> 0 <= g[i] < 13
    ensures |g| == 0 ==> ListTotal(counts, g) == 0
    ensures |g| == 1 ==> ListTotal(counts, g) == counts[g[0]]
    ensures |g| == 2 ==> ListTotal(counts, g) == counts[g[0]] + counts[g[1]]
    ensures |g| == 3 ==> ListTotal(counts, g) == counts[g[0]] + counts[g[1]] + counts[g[2]]
  {
    if |g| >= 1 && |g| <= 3 { Listed(counts, g[1..]); }
  }
}
