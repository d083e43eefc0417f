// Exact equity (backend/internal/poker/equity.go): every completion of the board is scored
// exactly once, so each hand's result is its exact share. Shares are real numbers.

module Equity {
  import opened Cards
  import Eval
  import Evaluator

  datatype Hole = Hole(first: Card, second: Card)

  // ---- one board -------------------------------------------------------------------------------

  function Worth(h: Hole, b: seq<Card>): int { Eval.BestRank([h.first, h.second] + b) }

  // The worth of every hand on a board.
  function Worths(hands: seq<Hole>, b: seq<Card>): (w: seq<int>)
    ensures |w| == |hands|
  {
    seq(|hands|, i requires 0 <= i < |hands| => Worth(hands[i], b))
  }

  // Nobody beats hand i.
  predicate IsBest(w: seq<int>, i: nat)
    requires i < |w|
  {
    forall j :: 0 <= j < |w| ==> w[j] <= w[i]
  }

  function BestCount(w: seq<int>, n: nat): nat
    requires n <= |w|
  {
    if n == 0 then 0 else BestCount(w, n - 1) + if IsBest(w, n - 1) then 1 else 0
  }

  // The pot goes to the best hand, or in equal parts to the best hands.
  function Share(w: seq<int>, i: nat): real
    requires i < |w|
  {
    if IsBest(w, i) && BestCount(w, |w|) > 0 then 1.0 / BestCount(w, |w|) as real else 0.0
  }

  // The best hands share the pot evenly, and no other hand gets anything.
  lemma {:induction false} SharesAreEven(w: seq<int>, i: nat, j: nat)
    requires i < |w| && j < |w|
    ensures (exists k :: 0 <= k < |w| && w[k] > w[i]) ==> Share(w, i) == 0.0
    ensures (forall k :: 0 <= k < |w| ==> w[k] <= w[i]) ==> Share(w, i) > 0.0
    ensures w[i] == w[j] ==> Share(w, i) == Share(w, j)
  {
    if IsBest(w, i) { BestIsCounted(w, i, |w|); }
  }

  function ShareTotal(w: seq<int>, n: nat): real
    requires n <= |w|
  {
    if n == 0 then 0.0 else ShareTotal(w, n - 1) + Share(w, n - 1)
  }

  lemma {:induction false} SomebodyIsBest(w: seq<int>, n: nat) returns (i: nat)
    requires 0 < n <= |w|
    ensures i < n && forall j :: 0 <= j < n ==> w[j] <= w[i]
  {
    if n == 1 {
      i := 0;
    } else {
      i := SomebodyIsBest(w, n - 1);
      if w[n - 1] > w[i] { i := n - 1; }
    }
  }

  lemma {:induction false} BestIsCounted(w: seq<int>, i: nat, n: nat)
    requires i < n <= |w| && IsBest(w, i)
    ensures BestCount(w, n) > 0
  {
    if i < n - 1 { BestIsCounted(w, i, n - 1); }
  }

  function Parts(s: real, n: nat): real { if n == 0 then 0.0 else Parts(s, n - 1) + s }

  lemma {:induction false} PartsMultiply(s: real, n: nat)
    ensures Parts(s, n) == n as real * s
  {
    if n > 0 { PartsMultiply(s, n - 1); }
  }

  lemma {:induction false} PartsMakeOne(m: nat)
    requires m > 0
    ensures Parts(1.0 / m as real, m) == 1.0
  {
    PartsMultiply(1.0 / m as real, m);
  }

  lemma {:induction false} SharesSoFar(w: seq<int>, s: real, n: nat)
    requires n <= |w| && BestCount(w, |w|) > 0 && s == 1.0 / BestCount(w, |w|) as real
    ensures ShareTotal(w, n) == Parts(s, BestCount(w, n))
  {
    if n > 0 { SharesSoFar(w, s, n - 1); }
  }

  // On every board the shares make one pot.
  lemma {:induction false} SharesMakeOne(w: seq<int>)
    requires w != []
    ensures ShareTotal(w, |w|) == 1.0
  {
    var i := SomebodyIsBest(w, |w|);
    BestIsCounted(w, i, |w|);
    SharesSoFar(w, 1.0 / BestCount(w, |w|) as real, |w|);
    PartsMakeOne(BestCount(w, |w|));
  }

  // ---- combinations --------------------------------------------------------------------------------

  // k places of n, rising.
  ghost predicate Combination(c: seq<int>, n: nat, k: nat) {
    && |c| == k
    && (forall i :: 0 <= i < k ==> 0 <= c[i] < n)
    && (forall i, j :: 0 <= i < j < k ==> c[i] < c[j])
  }

  // c comes before d: at the first place p where they differ it is lower.
  ghost predicate BeforeAt(c: seq<int>, d: seq<int>, p: nat) {
    p < |c| == |d| && c[p] < d[p] && forall i :: 0 <= i < p ==> c[i] == d[i]
  }

  ghost predicate Before(c: seq<int>, d: seq<int>) { exists p: nat :: BeforeAt(c, d, p) }

  lemma {:induction false} FirstDifference(c: seq<int>, d: seq<int>, n: nat) returns (p: nat)
    requires |c| == |d| && n <= |c|
    ensures p <= n && (forall i :: 0 <= i < p ==> c[i] == d[i]) && (p < n ==> c[p] != d[p])
  {
    p := 0;
    while p < n && c[p] == d[p]
      invariant p <= n && forall i :: 0 <= i < p ==> c[i] == d[i]
    {
      p := p + 1;
    }
  }

  // Different combinations stand in order.
  lemma {:induction false} EitherWay(c: seq<int>, d: seq<int>)
    requires |c| == |d|
    ensures c == d || Before(c, d) || Before(d, c)
  {
    var p := FirstDifference(c, d, |c|);
    if p < |c| {
      assert BeforeAt(c, d, p) || BeforeAt(d, c, p);
    } else {
      assert c == d;
    }
  }

  lemma {:induction false} NotBothWays(c: seq<int>, d: seq<int>)
    requires Before(c, d)
    ensures !Before(d, c) && c != d
  {
    var p: nat :| BeforeAt(c, d, p);
    forall q: nat ensures !BeforeAt(d, c, q) {
      if q < p {
        assert q < |c| ==> c[q] == d[q];
      }
    }
  }

  lemma {:induction false} BeforeOn(a: seq<int>, b: seq<int>, c: seq<int>)
    requires Before(a, b) && Before(b, c)
    ensures Before(a, c)
  {
    var p: nat :| BeforeAt(a, b, p);
    var q: nat :| BeforeAt(b, c, q);
    assert BeforeAt(a, c, if p < q then p else q);
  }

  // The j-th place of a combination leaves room for j places before it and the rest after it.
  lemma {:induction false} Rises(c: seq<int>, n: nat, k: nat, i: nat, j: nat)
    requires Combination(c, n, k) && i <= j < k
    ensures c[j] >= c[i] + (j - i)
    decreases j - i
  {
    if i < j { Rises(c, n, k, i, j - 1); }
  }

  lemma {:induction false} PlaceBounds(c: seq<int>, n: nat, k: nat, j: nat)
    requires Combination(c, n, k) && j < k
    ensures j <= c[j] <= n - k + j
  {
    Rises(c, n, k, 0, j);
    Rises(c, n, k, j, k - 1);
  }

  // Place p is moved up by one and the places after it follow as low as they can.
  ghost function Advanced(c: seq<int>, p: nat): (d: seq<int>)
    requires p < |c|
    ensures |d| == |c|
  {
    seq(|c|, i requires 0 <= i < |c| => if i < p then c[i] else c[p] + 1 + (i - p))
  }

  // p is the last place that can still move up.
  ghost predicate Turning(c: seq<int>, n: nat, p: int) {
    && -1 <= p < |c|
    && (forall i :: p < i < |c| ==> c[i] == n - |c| + i)
    && (p >= 0 ==> c[p] != n - |c| + p)
  }

  lemma {:induction false} AdvancedIsNext(c: seq<int>, n: nat, k: nat, p: nat)
    requires Combination(c, n, k) && Turning(c, n, p)
    ensures Combination(Advanced(c, p), n, k) && Before(c, Advanced(c, p))
    ensures forall d :: Combination(d, n, k) && Before(c, d) ==> !Before(d, Advanced(c, p))
  {
    var next := Advanced(c, p);
    PlaceBounds(c, n, k, p);
    assert BeforeAt(c, next, p);
    forall d | Combination(d, n, k) && Before(c, d) ensures !Before(d, next) { NothingBetween(c, n, k, p, d); }
  }

  lemma {:induction false} NothingBetween(c: seq<int>, n: nat, k: nat, p: nat, d: seq<int>)
    requires Combination(c, n, k) && Turning(c, n, p) && Combination(d, n, k) && Before(c, d)
    ensures !Before(d, Advanced(c, p))
  {
    var next := Advanced(c, p);
    var q: nat :| BeforeAt(c, d, q);
    PlaceBounds(d, n, k, q);
    assert q <= p;
    forall r: nat | r < k ensures !BeforeAt(d, next, r) {
      assert forall i :: 0 <= i < q ==> d[i] == next[i];
      if q == p && r > p { Rises(d, n, k, p, r); }
    }
  }

  lemma {:induction false} NothingAfter(c: seq<int>, n: nat, k: nat, d: seq<int>)
    requires Combination(c, n, k) && Turning(c, n, -1) && Combination(d, n, k)
    ensures !Before(c, d)
  {
    if Before(c, d) {
      var q: nat :| BeforeAt(c, d, q);
      PlaceBounds(d, n, k, q);
      assert false;
    }
  }

  lemma {:induction false} NothingEarlier(c: seq<int>, n: nat, k: nat, d: seq<int>)
    requires Combination(c, n, k) && (forall i :: 0 <= i < k ==> c[i] == i) && Combination(d, n, k)
    ensures !Before(d, c)
  {
    if Before(d, c) {
      var q: nat :| BeforeAt(d, c, q);
      PlaceBounds(d, n, k, q);
      assert false;
    }
  }

  // Every combination, once.
  ghost predicate EachOnce(list: seq<seq<int>>, n: nat, k: nat) {
    && (forall c :: Combination(c, n, k) <==> c in list)
    && (forall i, j :: 0 <= i < j < |list| ==> list[i] != list[j])
  }

  // Exactly the combinations before c have been visited, each once.
  ghost predicate VisitedBefore(list: seq<seq<int>>, c: seq<int>, n: nat, k: nat) {
    && Combination(c, n, k)
    && (forall d :: d in list <==> Combination(d, n, k) && Before(d, c))
    && (forall i, j :: 0 <= i < j < |list| ==> list[i] != list[j])
  }

  lemma {:induction false} VisitNext(list: seq<seq<int>>, c: seq<int>, n: nat, k: nat, p: nat)
    requires VisitedBefore(list, c, n, k) && Turning(c, n, p)
    ensures VisitedBefore(list + [c], Advanced(c, p), n, k)
  {
    var next := Advanced(c, p);
    AdvancedIsNext(c, n, k, p);
    forall d ensures d in list + [c] <==> Combination(d, n, k) && Before(d, next) {
      if Combination(d, n, k) {
        EitherWay(d, c);
        if Before(d, c) { BeforeOn(d, c, next); }
      }
    }
    VisitNew(list, c, n, k);
  }

  lemma {:induction false} VisitNew(list: seq<seq<int>>, c: seq<int>, n: nat, k: nat)
    requires VisitedBefore(list, c, n, k)
    ensures c !in list
    ensures var all := list + [c]; forall i, j :: 0 <= i < j < |all| ==> all[i] != all[j]
  {
    if c in list { NotBothWays(c, c); }
    assert forall i :: 0 <= i < |list| ==> list[i] in list;
  }

  lemma {:induction false} VisitLast(list: seq<seq<int>>, c: seq<int>, n: nat, k: nat)
    requires VisitedBefore(list, c, n, k) && Turning(c, n, -1)
    ensures EachOnce(list + [c], n, k)
  {
    forall d ensures Combination(d, n, k) <==> d in list + [c] {
      if Combination(d, n, k) {
        EitherWay(d, c);
        NothingAfter(c, n, k, d);
      }
    }
    VisitNew(list, c, n, k);
  }

  // Moves the places on to the next combination, or reports that there is none.
  method NextCombination(idx: array<int>, n: nat) returns (more: bool)
    requires Combination(idx[..], n, idx.Length)
    modifies idx
    ensures more ==>
      exists p: nat :: p < idx.Length && Turning(old(idx[..]), n, p) && idx[..] == Advanced(old(idx[..]), p)
    ensures !more ==> Turning(old(idx[..]), n, -1) && idx[..] == old(idx[..])
  {
    ghost var c := idx[..];
    var k := idx.Length - 1;
    while k >= 0 && idx[k] == n - idx.Length + k
      invariant -1 <= k < idx.Length
      invariant forall i :: k < i < idx.Length ==> c[i] == n - |c| + i
    {
      k := k - 1;
    }
    assert Turning(c, n, k);
    if k < 0 {
      return false;
    }
    idx[k] := idx[k] + 1;
    var j := k + 1;
    while j < idx.Length
      invariant k < j <= idx.Length
      invariant forall i :: 0 <= i < idx.Length ==> idx[i] == if i < j then Advanced(c, k)[i] else c[i]
    {
      idx[j] := idx[j - 1] + 1;
      j := j + 1;
    }
    assert idx[..] == Advanced(c, k);
    more := true;
  }

  // ---- all boards ------------------------------------------------------------------------------------

  // The board completed with the cards at the places.
  function Completed(board: seq<Card>, deck: seq<Card>, c: seq<int>): (b: seq<Card>)
    requires Fitting(c, deck)
    ensures |b| == |board| + |c|
  {
    board + seq(|c|, i requires 0 <= i < |c| => deck[c[i]])
  }

  // What hand i wins over the boards of the list.
  function Winnings(hands: seq<Hole>, board: seq<Card>, deck: seq<Card>, list: seq<seq<int>>, i: nat): real
    requires i < |hands|
    requires forall c :: c in list ==> Fitting(c, deck)
  {
    if list == [] then 0.0
    else
      var last := list[|list| - 1];
      assert last in list;
      Winnings(hands, board, deck, list[..|list| - 1], i) + Share(Worths(hands, Completed(board, deck, last)), i)
  }

  predicate Fitting(c: seq<int>, deck: seq<Card>) { forall i :: 0 <= i < |c| ==> 0 <= c[i] < |deck| }

  function Total(out: seq<real>, n: nat): real
    requires n <= |out|
  {
    if n == 0 then 0.0 else Total(out, n - 1) + out[n - 1]
  }

  // The hands nobody beats on a board.
  method FindBest(hands: seq<Hole>, b: seq<Card>) returns (winners: seq<nat>)
    requires 3 <= |b| <= 5 && |hands| > 0
    ensures var w := Worths(hands, b);
            && (forall i :: 0 <= i < |hands| ==> (i in winners <==> IsBest(w, i)))
            && (forall k :: 0 <= k < |winners| ==> winners[k] < |hands|)
            && (forall k, l :: 0 <= k < l < |winners| ==> winners[k] < winners[l])
            && |winners| == BestCount(w, |w|) > 0
  {
    ghost var w := Worths(hands, b);
    var best := -1;
    var bestRank := 0;
    winners := [];
    for i := 0 to |hands|
      invariant if i == 0 then best < 0 && winners == [] else 0 <= best < i && bestRank == w[best]
      invariant forall j :: 0 <= j < i ==> w[j] <= bestRank
      invariant Leaders(w, winners, bestRank, i)
    {
      var v := Evaluator.Evaluate([hands[i].first, hands[i].second] + b);
      if best < 0 || v.rank > bestRank {
        NoneAt(w, v.rank, i);
        best, bestRank, winners := i, v.rank, [i];
      } else if v.rank == bestRank {
        LeadersGrow(w, winners, bestRank, i);
        winners := winners + [i];
      }
    }
    assert w[best] in w;
    BestAre(w, bestRank, |w|);
  }

  // Scores one board: the best hands share it.
  method Score(hands: seq<Hole>, b: seq<Card>, out: array<real>)
    requires 3 <= |b| <= 5 && out.Length == |hands| > 0
    modifies out
    ensures forall i :: 0 <= i < |hands| ==> out[i] == old(out[i]) + Share(Worths(hands, b), i)
  {
    var winners := FindBest(hands, b);
    var share := 1.0 / |winners| as real;
    Spread(winners, share, out);
  }

  method Spread(winners: seq<nat>, share: real, out: array<real>)
    requires forall k :: 0 <= k < |winners| ==> winners[k] < out.Length
    requires forall k, l :: 0 <= k < l < |winners| ==> winners[k] < winners[l]
    modifies out
    ensures forall i :: 0 <= i < out.Length ==> out[i] == old(out[i]) + if i in winners then share else 0.0
  {
    for k := 0 to |winners|
      invariant forall j :: 0 <= j < out.Length ==> out[j] == old(out[j]) + if j in winners[..k] then share else 0.0
    {
      assert winners[..k + 1] == winners[..k] + [winners[k]];
      assert winners[k] !in winners[..k];
      out[winners[k]] := out[winners[k]] + share;
    }
    assert winners[..|winners|] == winners;
  }

  // The winners so far: the places among the first n with the value x, in order.
  ghost predicate Leaders(w: seq<int>, winners: seq<nat>, x: int, n: nat)
    requires n <= |w|
  {
    && (forall k :: 0 <= k < |winners| ==> winners[k] < n)
    && (forall j :: 0 <= j < n ==> (j in winners <==> w[j] == x))
    && |winners| == (if n == 0 then 0 else CountAt(w, x, n))
    && (forall k, l :: 0 <= k < l < |winners| ==> winners[k] < winners[l])
  }

  lemma {:induction false} LeadersGrow(w: seq<int>, winners: seq<nat>, x: int, n: nat)
    requires n < |w| && w[n] == x && Leaders(w, winners, x, n)
    ensures Leaders(w, winners + [n], x, n + 1)
  {
    var more := winners + [n];
    forall j | 0 <= j < n + 1 ensures j in more <==> w[j] == x {
      if j == n { assert more[|winners|] == n; } else { assert j in more <==> j in winners; }
    }
  }

  function CountAt(w: seq<int>, x: int, n: nat): nat
    requires n <= |w|
  {
    if n == 0 then 0 else CountAt(w, x, n - 1) + if w[n - 1] == x then 1 else 0
  }

  lemma {:induction false} NoneAt(w: seq<int>, x: int, n: nat)
    requires n <= |w| && forall j :: 0 <= j < n ==> w[j] < x
    ensures CountAt(w, x, n) == 0
  {
    if n > 0 { NoneAt(w, x, n - 1); }
  }

  lemma {:induction false} BestAre(w: seq<int>, x: int, n: nat)
    requires n <= |w| && w != [] && (forall j :: 0 <= j < |w| ==> w[j] <= x) && x in w
    ensures CountAt(w, x, n) == BestCount(w, n)
    ensures forall i :: 0 <= i < |w| ==> (IsBest(w, i) <==> w[i] == x)
    ensures n == |w| ==> CountAt(w, x, n) > 0
  {
    var top :| 0 <= top < |w| && w[top] == x;
    if n > 0 { BestAre(w, x, n - 1); }
    if n == |w| { BestIsCounted(w, top, n); }
  }

  // ---- the walk over all boards ------------------------------------------------------------------------

  // All words of k letters below n: there are only so many combinations.
  ghost function Words(n: nat, k: nat): set<seq<int>> {
    if k == 0 then {[]} else set c, x | c in Words(n, k - 1) && 0 <= x < n :: c + [x]
  }

  lemma {:induction false} CombinationIsWord(c: seq<int>, n: nat, k: nat)
    requires |c| == k && forall i :: 0 <= i < k ==> 0 <= c[i] < n
    ensures c in Words(n, k)
  {
    if k > 0 {
      var init, last := c[..k - 1], c[k - 1];
      CombinationIsWord(init, n, k - 1);
      assert c == init + [last];
    }
  }

  ghost function Elements(list: seq<seq<int>>): set<seq<int>> { set c | c in list }

  lemma {:induction false} DistinctFit(list: seq<seq<int>>)
    requires forall i, j :: 0 <= i < j < |list| ==> list[i] != list[j]
    ensures |Elements(list)| == |list|
  {
    if list != [] {
      var init, last := list[..|list| - 1], list[|list| - 1];
      DistinctFit(init);
      forall c ensures c in Elements(list) <==> c in Elements(init) + {last} {
        assert list == init + [last];
      }
      assert Elements(list) == Elements(init) + {last};
      assert last !in Elements(init);
    }
  }

  lemma {:induction false} SmallerSet(a: set<seq<int>>, b: set<seq<int>>)
    requires a <= b
    ensures |a| <= |b|
  {
    assert b == a + (b - a);
  }

  // The list of visited combinations cannot outgrow the words.
  lemma {:induction false} ListBound(list: seq<seq<int>>, n: nat, k: nat)
    requires forall c :: c in list ==> Combination(c, n, k)
    requires forall i, j :: 0 <= i < j < |list| ==> list[i] != list[j]
    ensures |list| <= |Words(n, k)|
  {
    forall c | c in Elements(list) ensures c in Words(n, k) { CombinationIsWord(c, n, k); }
    DistinctFit(list);
    SmallerSet(Elements(list), Words(n, k));
  }

  // What all hands together win over the boards of the list.
  function AllWinnings(hands: seq<Hole>, board: seq<Card>, deck: seq<Card>, list: seq<seq<int>>, n: nat): real
    requires n <= |hands|
    requires forall c :: c in list ==> Fitting(c, deck)
  {
    if n == 0 then 0.0 else AllWinnings(hands, board, deck, list, n - 1) + Winnings(hands, board, deck, list, n - 1)
  }

  lemma {:induction false} AllWinningsStep(hands: seq<Hole>, board: seq<Card>, deck: seq<Card>, list: seq<seq<int>>,
        n: nat)
    requires n <= |hands| && list != []
    requires forall c :: c in list ==> Fitting(c, deck)
    ensures list[|list| - 1] in list
    ensures AllWinnings(hands, board, deck, list, n) ==
              AllWinnings(hands, board, deck, list[..|list| - 1], n) +
              ShareTotal(Worths(hands, Completed(board, deck, list[|list| - 1])), n)
  {
    assert list[|list| - 1] in list;
    if n > 0 { AllWinningsStep(hands, board, deck, list, n - 1); }
  }

  // Every board pays out one pot.
  lemma {:induction false} OnePotABoard(hands: seq<Hole>, board: seq<Card>, deck: seq<Card>, list: seq<seq<int>>)
    requires hands != [] && forall c :: c in list ==> Fitting(c, deck)
    ensures AllWinnings(hands, board, deck, list, |hands|) == |list| as real
  {
    if list == [] {
      NothingWon(hands, board, deck, |hands|);
    } else {
      AllWinningsStep(hands, board, deck, list, |hands|);
      OnePotABoard(hands, board, deck, list[..|list| - 1]);
      SharesMakeOne(Worths(hands, Completed(board, deck, list[|list| - 1])));
    }
  }

  lemma {:induction false} NothingWon(hands: seq<Hole>, board: seq<Card>, deck: seq<Card>, n: nat)
    requires n <= |hands|
    ensures AllWinnings(hands, board, deck, [], n) == 0.0
  {
    if n > 0 { NothingWon(hands, board, deck, n - 1); }
  }

  lemma {:induction false} DividedSum(x: real, y: real, t: real)
    requires t != 0.0
    ensures (x + y) / t == x / t + y / t
  {
  }

  lemma {:induction false} SharesAddUp(hands: seq<Hole>, board: seq<Card>, deck: seq<Card>, list: seq<seq<int>>,
        shares: seq<real>, n: nat)
    requires n <= |hands| == |shares| && list != []
    requires forall c :: c in list ==> Fitting(c, deck)
    requires forall i :: 0 <= i < |shares| ==> shares[i] == Winnings(hands, board, deck, list, i) / |list| as real
    ensures Total(shares, n) == AllWinnings(hands, board, deck, list, n) / |list| as real
  {
    if n > 0 {
      SharesAddUp(hands, board, deck, list, shares, n - 1);
      DividedSum(
        AllWinnings(hands, board, deck, list, n - 1), Winnings(hands, board, deck, list, n - 1), |list| as real);
    }
  }

  // ---- the result does not depend on the walk --------------------------------------------------------------

  lemma {:induction false} WinningsRemove(hands: seq<Hole>, board: seq<Card>, deck: seq<Card>, list: seq<seq<int>>,
        j: nat, i: nat)
    requires i < |hands| && j < |list|
    requires forall c :: c in list ==> Fitting(c, deck)
    ensures list[j] in list
    ensures forall c :: c in list[..j] + list[j + 1..] ==> c in list
    ensures Winnings(hands, board, deck, list, i) ==
              Winnings(hands, board, deck, list[..j] + list[j + 1..], i) +
              Share(Worths(hands, Completed(board, deck, list[j])), i)
    decreases |list|
  {
    var rest := list[..j] + list[j + 1..];
    if j == |list| - 1 {
      assert rest == list[..j];
    } else {
      var init := list[..|list| - 1];
      WinningsRemove(hands, board, deck, init, j, i);
      assert rest[..|rest| - 1] == init[..j] + init[j + 1..];
      assert rest[|rest| - 1] == list[|list| - 1];
    }
  }

  // Two lists that hold the same boards once each give every hand the same winnings.
  lemma {:induction false} AnyOrder(hands: seq<Hole>, board: seq<Card>, deck: seq<Card>, a: seq<seq<int>>,
        b: seq<seq<int>>, i: nat)
    requires i < |hands|
    requires forall c :: c in a ==> Fitting(c, deck)
    requires forall c :: c in a <==> c in b
    requires forall x, y :: 0 <= x < y < |a| ==> a[x] != a[y]
    requires forall x, y :: 0 <= x < y < |b| ==> b[x] != b[y]
    ensures Winnings(hands, board, deck, a, i) == Winnings(hands, board, deck, b, i) && |a| == |b|
    decreases |a|
  {
    if a == [] {
      assert forall x :: 0 <= x < |b| ==> b[x] in b;
    } else {
      var last := a[|a| - 1];
      assert last in a;
      var j :| 0 <= j < |b| && b[j] == last;
      var init, rest := a[..|a| - 1], b[..j] + b[j + 1..];
      forall c ensures c in init <==> c in rest {
        assert c in a <==> c in init || c == last;
        assert c in b <==> c in rest || c == last;
        assert last !in init;
        assert last !in rest;
      }
      WinningsRemove(hands, board, deck, b, j, i);
      AnyOrder(hands, board, deck, init, rest, i);
    }
  }

  // ---- the whole computation -----------------------------------------------------------------------------

  // The cards of the variant that are neither in a hand nor on the board.
  ghost predicate Live(v: Variant, board: seq<Card>, hands: seq<Hole>, c: Card) {
    c in Deck(v) && c !in board && forall h :: h in hands ==> c != h.first && c != h.second
  }

  method RemainingDeck(v: Variant, board: seq<Card>, hands: seq<Hole>) returns (deck: seq<Card>)
    ensures NoDuplicates(deck)
    ensures forall c: Card :: c in deck <==> Live(v, board, hands, c)
  {
    var used := new bool[52](i => false);
    for k := 0 to |board|
      invariant forall c: Card :: used[c] <==> c in board[..k]
    {
      assert board[..k + 1] == board[..k] + [board[k]];
      used[board[k]] := true;
    }
    assert board[..|board|] == board;
    for k := 0 to |hands|
      invariant forall c: Card :: used[c] <==>
        c in board || exists i :: 0 <= i < k && (c == hands[i].first || c == hands[i].second)
    {
      used[hands[k].first], used[hands[k].second] := true, true;
    }
    var all := BuildDeck(v);
    DeckIsComplete(v);
    deck := [];
    for k := 0 to |all|
      invariant NoDuplicates(deck)
      invariant forall c: Card :: c in deck <==> c in all[..k] && !used[c]
    {
      assert all[..k + 1] == all[..k] + [all[k]];
      if !used[all[k]] {
        assert all[k] !in all[..k];
        deck := deck + [all[k]];
      }
    }
    assert all[..|all|] == all;
  }

  // Cards that are all different and all in a list are no more than the list.
  lemma {:induction false} NoMoreThan(cards: seq<Card>, list: seq<Card>)
    requires NoDuplicates(cards) && forall c :: c in cards ==> c in list
    ensures |cards| <= |list|
  {
    if cards != [] {
      var init, last := cards[..|cards| - 1], cards[|cards| - 1];
      assert last in cards;
      var p :| 0 <= p < |list| && list[p] == last;
      var rest := list[..p] + list[p + 1..];
      forall c | c in init ensures c in rest {
        var i :| 0 <= i < |init| && init[i] == c;
        assert cards[i] == c && cards[i] in list && c != last;
        var q :| 0 <= q < |list| && list[q] == c;
        if q < p { assert rest[q] == c; } else { assert rest[q - 1] == c; }
      }
      NoMoreThan(init, rest);
    }
  }

  function HeldCards(board: seq<Card>, hands: seq<Hole>): (r: seq<Card>)
    ensures |r| == |board| + 2 * |hands|
  {
    board + seq(|hands|, i requires 0 <= i < |hands| => hands[i].first)
          + seq(|hands|, i requires 0 <= i < |hands| => hands[i].second)
  }

  // Every hand takes at most two cards out of the deck, and the board its own.
  lemma {:induction false} CardsAreLeft(v: Variant, board: seq<Card>, hands: seq<Hole>, deck: seq<Card>)
    requires forall c: Card :: c in deck <==> Live(v, board, hands, c)
    ensures |deck| >= DeckSize(v) - |board| - 2 * |hands|
  {
    var held := HeldCards(board, hands);
    DeckIsComplete(v);
    forall c | c in Deck(v) ensures c in deck + held {
      if c in board {
        var i :| 0 <= i < |board| && board[i] == c;
        assert held[i] == c;
      } else if h :| h in hands && (c == h.first || c == h.second) {
        var i :| 0 <= i < |hands| && hands[i] == h;
        assert held[|board| + i] == h.first && held[|board| + |hands| + i] == h.second;
      } else {
        assert Live(v, board, hands, c);
      }
    }
    NoMoreThan(Deck(v), deck + held);
  }

  // The completion of the board at the places.
  method Complete(board: seq<Card>, deck: seq<Card>, idx: array<int>) returns (b: seq<Card>)
    requires Fitting(idx[..], deck)
    ensures b == Completed(board, deck, idx[..])
  {
    b := board;
    for j := 0 to idx.Length
      invariant b == Completed(board, deck, idx[..])[..|board| + j]
    {
      b := b + [deck[idx[j]]];
    }
    assert b == Completed(board, deck, idx[..]);
  }

  // What the walk over the boards keeps: the boards before the current one are done, and each
  // hand has been given what it wins on them.
  ghost predicate Walking(list: seq<seq<int>>, c: seq<int>, n: nat, k: nat, more: bool) {
    if more then VisitedBefore(list, c, n, k) else EachOnce(list, n, k) && |list| > 0
  }

  ghost predicate Fair(hands: seq<Hole>, board: seq<Card>, deck: seq<Card>, list: seq<seq<int>>, out: seq<real>)
    requires forall c :: c in list ==> Fitting(c, deck)
  {
    |out| == |hands| && forall i :: 0 <= i < |hands| ==> out[i] == Winnings(hands, board, deck, list, i)
  }

  lemma {:induction false} WalkFits(list: seq<seq<int>>, c: seq<int>, deck: seq<Card>, k: nat, more: bool)
    requires Walking(list, c, |deck|, k, more)
    ensures forall d :: d in list ==> Fitting(d, deck)
    ensures more ==> Fitting(c, deck)
    ensures |list| <= |Words(|deck|, k)|
  {
    ListBound(list, |deck|, k);
  }

  lemma {:induction false} WonOnce(hands: seq<Hole>, board: seq<Card>, deck: seq<Card>, list: seq<seq<int>>,
        c: seq<int>, i: nat)
    requires i < |hands| && Fitting(c, deck)
    requires forall d :: d in list ==> Fitting(d, deck)
    ensures forall d :: d in list + [c] ==> Fitting(d, deck)
    ensures Winnings(hands, board, deck, list + [c], i) ==
              Winnings(hands, board, deck, list, i) + Share(Worths(hands, Completed(board, deck, c)), i)
  {
    var all := list + [c];
    assert all[..|list|] == list;
    assert all[|list|] == c;
  }

  // Scores the current board and moves on.
  method Step(board: seq<Card>, hands: seq<Hole>, deck: seq<Card>, idx: array<int>, out: array<real>,
        ghost list: seq<seq<int>>)
    returns (more: bool)
    requires |board| + idx.Length == 5 && |hands| > 0
    requires Walking(list, idx[..], |deck|, idx.Length, true) && Fitting(idx[..], deck)
    requires forall c :: c in list ==> Fitting(c, deck)
    requires Fair(hands, board, deck, list, out[..])
    modifies idx, out
    ensures Walking(list + [old(idx[..])], idx[..], |deck|, idx.Length, more)
    ensures forall c :: c in list + [old(idx[..])] ==> Fitting(c, deck)
    ensures Fair(hands, board, deck, list + [old(idx[..])], out[..])
  {
    ghost var c, before := idx[..], out[..];
    var b := Complete(board, deck, idx);
    Score(hands, b, out);
    forall i | 0 <= i < |hands| ensures out[i] == Winnings(hands, board, deck, list + [c], i) {
      WonOnce(hands, board, deck, list, c, i);
      assert out[i] == before[i] + Share(Worths(hands, b), i);
    }
    WonOnce(hands, board, deck, list, c, 0);
    more := NextCombination(idx, |deck|);
    if more {
      ghost var p: nat :| p < |c| && Turning(c, |deck|, p) && idx[..] == Advanced(c, p);
      VisitNext(list, c, |deck|, idx.Length, p);
    } else {
      VisitLast(list, c, |deck|, idx.Length);
    }
  }

  lemma {:induction false} WalkStarts(n: nat, c: seq<int>)
    requires |c| <= n && forall i :: 0 <= i < |c| ==> c[i] == i
    ensures Walking([], c, n, |c|, true)
  {
    forall d | Combination(d, n, |c|) ensures !Before(d, c) { NothingEarlier(c, n, |c|, d); }
  }

  method Divide(out: seq<real>, total: real) returns (shares: seq<real>)
    requires total != 0.0
    ensures |shares| == |out| && forall i :: 0 <= i < |out| ==> shares[i] == out[i] / total
  {
    shares := [];
    for i := 0 to |out|
      invariant |shares| == i
      invariant forall j :: 0 <= j < i ==> shares[j] == out[j] / total
    {
      shares := shares + [out[i] / total];
    }
  }

  // The next board is scored; the list of those done stays within bounds.
  method Continue(board: seq<Card>, hands: seq<Hole>, deck: seq<Card>, idx: array<int>, out: array<real>,
        ghost list: seq<seq<int>>)
    returns (more: bool, ghost longer: seq<seq<int>>)
    requires |board| + idx.Length == 5 && |hands| > 0
    requires Walking(list, idx[..], |deck|, idx.Length, true)
    requires forall c :: c in list ==> Fitting(c, deck)
    requires Fair(hands, board, deck, list, out[..])
    modifies idx, out
    ensures Walking(longer, idx[..], |deck|, idx.Length, more)
    ensures forall c :: c in longer ==> Fitting(c, deck)
    ensures Fair(hands, board, deck, longer, out[..])
    ensures |longer| == |list| + 1 <= |Words(|deck|, idx.Length)|
  {
    WalkFits(list, idx[..], deck, idx.Length, true);
    longer := list + [idx[..]];
    more := Step(board, hands, deck, idx, out, list);
    WalkFits(longer, idx[..], deck, idx.Length, more);
  }

  method Walk(board: seq<Card>, hands: seq<Hole>, deck: seq<Card>, idx: array<int>, out: array<real>)
    returns (total: real, ghost list: seq<seq<int>>)
    requires |board| + idx.Length == 5 && |hands| > 0 && |deck| >= idx.Length
    requires forall i :: 0 <= i < idx.Length ==> idx[i] == i
    requires out.Length == |hands| && forall i :: 0 <= i < |hands| ==> out[i] == 0.0
    modifies idx, out
    ensures EachOnce(list, |deck|, idx.Length) && total == |list| as real > 0.0
    ensures forall c :: c in list ==> Fitting(c, deck)
    ensures Fair(hands, board, deck, list, out[..])
  {
    var more := true;
    total, list := 0.0, [];
    WalkStarts(|deck|, idx[..]);
    while more
      invariant Walking(list, idx[..], |deck|, idx.Length, more)
      invariant forall c :: c in list ==> Fitting(c, deck)
      invariant Fair(hands, board, deck, list, out[..])
      invariant total == |list| as real && |list| <= |Words(|deck|, idx.Length)|
      decreases |Words(|deck|, idx.Length)| - |list|, more
    {
      more, list := Continue(board, hands, deck, idx, out, list);
      total := total + 1.0;
    }
  }

  // The exhaustive branch: each hand's share is its winnings over all completions of the board,
  // each taken once, divided by their number; together the shares make one.
  method ExactShares(board: seq<Card>, hands: seq<Hole>, deck: seq<Card>) returns (shares: seq<real>,
        ghost list: seq<seq<int>>)
    requires |board| <= 5 && |hands| > 0 && |deck| >= 5 - |board|
    ensures EachOnce(list, |deck|, 5 - |board|) && |list| > 0
    ensures forall c :: c in list ==> Fitting(c, deck)
    ensures |shares| == |hands| && Total(shares, |shares|) == 1.0
    ensures forall i :: 0 <= i < |hands| ==> shares[i] == Winnings(hands, board, deck, list, i) / |list| as real
  {
    var out := new real[|hands|](i => 0.0);
    var idx := new int[5 - |board|](i => i);
    var total;
    total, list := Walk(board, hands, deck, idx, out);
    shares := Divide(out[..], total);
    SharesAreOne(hands, board, deck, list, shares);
  }

  // What the exhaustive calculation returns for a variant, a board and the hands: no shares for
  // no hands, else each hand's exact share over every completion of the board with cards of the
  // variant that are neither held nor on it.
  method ExactEquity(v: Variant, board: seq<Card>, hands: seq<Hole>)
    returns (shares: seq<real>, ghost deck: seq<Card>, ghost list: seq<seq<int>>)
    requires |board| <= 5 && (hands == [] || 2 * |hands| + 5 <= DeckSize(v))
    ensures hands == [] ==> shares == []
    ensures hands != [] ==>
              && NoDuplicates(deck) && (forall c: Card :: c in deck <==> Live(v, board, hands, c))
              && EachOnce(list, |deck|, 5 - |board|) && |list| > 0 && (forall c :: c in list ==> Fitting(c, deck))
              && |shares| == |hands| && Total(shares, |shares|) == 1.0
              && forall i :: 0 <= i < |hands| ==> shares[i] == Winnings(hands, board, deck, list, i) / |list| as real
  {
    shares, deck, list := [], [], [];
    if |hands| > 0 {
      var left := RemainingDeck(v, board, hands);
      CardsAreLeft(v, board, hands, left);
      deck := left;
      shares, list := ExactShares(board, hands, left);
    }
  }

  lemma {:induction false} SharesAreOne(hands: seq<Hole>, board: seq<Card>, deck: seq<Card>, list: seq<seq<int>>,
        shares: seq<real>)
    requires |hands| == |shares| > 0 && list != []
    requires forall c :: c in list ==> Fitting(c, deck)
    requires forall i :: 0 <= i < |shares| ==> shares[i] == Winnings(hands, board, deck, list, i) / |list| as real
    ensures Total(shares, |shares|) == 1.0
  {
    SharesAddUp(hands, board, deck, list, shares, |hands|);
    OnePotABoard(hands, board, deck, list);
  }

  // The shares are those of the boards themselves: any list that holds every board once gives them.
  lemma {:induction false} SharesAreExact(hands: seq<Hole>, board: seq<Card>, deck: seq<Card>, k: nat,
        a: seq<seq<int>>, b: seq<seq<int>>, i: nat)
    requires i < |hands| && EachOnce(a, |deck|, k) && EachOnce(b, |deck|, k)
    requires forall c :: c in a ==> Fitting(c, deck)
    requires forall c :: c in b ==> Fitting(c, deck)
    ensures |a| == |b| && Winnings(hands, board, deck, a, i) == Winnings(hands, board, deck, b, i)
  {
    AnyOrder(hands, board, deck, a, b, i);
  }
}
