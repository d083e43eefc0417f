// Side pots (backend/internal/poker/pots.go).
//
// A pot layout is specified from the contributions alone, one level after the other; the
// imperative BuildPots sorts, dedupes and accumulates as the source does and is proved
// equal to that specification.

module Pots {
  import Sorting

  // What one player has put into completed streets.
  datatype Contribution = Contribution(seat: int, total: int, folded: bool, allIn: bool)

  // A main or side pot.
  datatype Pot = Pot(amount: int, eligible: seq<int>)

  // ---- measures over the contributions ------------------------------------------------

  function Min(a: int, b: int): int { if a < b then a else b }

  ghost predicate NonNegative(ps: seq<Contribution>) {
    forall i :: 0 <= i < |ps| ==> ps[i].total >= 0
  }

  ghost predicate DistinctSeats(ps: seq<Contribution>) {
    forall i, j :: 0 <= i < j < |ps| ==> ps[i].seat != ps[j].seat
  }

  ghost predicate SomeoneLive(ps: seq<Contribution>) {
    exists i :: 0 <= i < |ps| && !ps[i].folded
  }

  // The chips of the first n players that lie below the height h.
  function Below(ps: seq<Contribution>, h: int, n: nat): int
    requires n <= |ps|
  {
    if n == 0 then 0 else Below(ps, h, n - 1) + Min(ps[n - 1].total, h)
  }

  function Contributed(ps: seq<Contribution>, n: nat): int
    requires n <= |ps|
  {
    if n == 0 then 0 else Contributed(ps, n - 1) + ps[n - 1].total
  }

  function MaxLive(ps: seq<Contribution>, n: nat): (m: int)
    requires n <= |ps|
    ensures m >= 0
  {
    if n == 0 then 0
    else
      var m := MaxLive(ps, n - 1);
      if !ps[n - 1].folded && ps[n - 1].total > m then ps[n - 1].total else m
  }

  lemma {:induction false} MaxLiveBounds(ps: seq<Contribution>, n: nat)
    requires n <= |ps|
    ensures forall i :: 0 <= i < n && !ps[i].folded ==> ps[i].total <= MaxLive(ps, n)
    ensures MaxLive(ps, n) > 0 ==> exists i :: 0 <= i < n && !ps[i].folded && ps[i].total == MaxLive(ps, n)
  {
    if n > 0 { MaxLiveBounds(ps, n - 1); }
  }

  // The total of player i caps a pot: it is all that a live player could put in.
  predicate IsAllInLevel(ps: seq<Contribution>, i: int, level: int) {
    0 <= i < |ps| && !ps[i].folded && ps[i].allIn && ps[i].total == level
  }

  // The lowest all-in level above prev, and bound when there is none below it.
  function NextLevel(ps: seq<Contribution>, prev: int, bound: int, n: nat): (l: int)
    requires n <= |ps| && prev < bound
    ensures prev < l <= bound
  {
    if n == 0 then bound
    else
      var l := NextLevel(ps, prev, bound, n - 1);
      var p := ps[n - 1];
      if !p.folded && p.allIn && prev < p.total < l then p.total else l
  }

  lemma {:induction false} NextLevelIsLeast(ps: seq<Contribution>, prev: int, bound: int, n: nat)
    requires n <= |ps| && prev < bound
    ensures var l := NextLevel(ps, prev, bound, n);
            && (l == bound || exists i :: 0 <= i < n && IsAllInLevel(ps, i, l))
            && (forall i, x :: 0 <= i < n && IsAllInLevel(ps, i, x) && x > prev ==> l <= x)
  {
    if n > 0 {
      NextLevelIsLeast(ps, prev, bound, n - 1);
      var p := ps[n - 1];
      if !p.folded && p.allIn && prev < p.total < NextLevel(ps, prev, bound, n - 1) {
        assert IsAllInLevel(ps, n - 1, p.total);
      }
    }
  }

  // ---- the layout ----------------------------------------------------------------------

  function Contenders(ps: seq<Contribution>, level: int, n: nat): seq<int>
    requires n <= |ps|
  {
    if n == 0 then []
    else
      var seats := Contenders(ps, level, n - 1);
      if !ps[n - 1].folded && ps[n - 1].total >= level then seats + [ps[n - 1].seat] else seats
  }

  function Identity(x: int): int { x }

  function Eligible(ps: seq<Contribution>, level: int): seq<int> {
    Sorting.SortBy(Contenders(ps, level, |ps|), Identity)
  }

  predicate Contends(ps: seq<Contribution>, i: int, level: int) {
    0 <= i < |ps| && !ps[i].folded && ps[i].total >= level
  }

  lemma {:induction false} ContendersMean(ps: seq<Contribution>, level: int, n: nat, seat: int)
    requires n <= |ps|
    ensures seat in Contenders(ps, level, n) <==> exists i :: i < n && Contends(ps, i, level) && ps[i].seat == seat
  {
    if n > 0 {
      ContendersMean(ps, level, n - 1, seat);
      assert Contends(ps, n - 1, level) || !Contends(ps, n - 1, level);
    }
  }

  // A seat can win the pot up to level exactly when it is live and put in that much.
  lemma {:induction false} EligibleMeans(ps: seq<Contribution>, level: int, seat: int)
    ensures seat in Eligible(ps, level) <==> exists i :: Contends(ps, i, level) && ps[i].seat == seat
  {
    var seats := Contenders(ps, level, |ps|);
    Sorting.SortElements(seats, Identity);
    ContendersMean(ps, level, |ps|, seat);
  }

  // The chips between two heights, for the seats that reached the upper one.
  function PotBetween(ps: seq<Contribution>, lo: int, hi: int): Pot {
    Pot(Below(ps, hi, |ps|) - Below(ps, lo, |ps|), Eligible(ps, hi))
  }

  // The pots between the heights prev and top, from the bottom up.
  function PotsAbove(ps: seq<Contribution>, prev: int, top: int): seq<Pot>
    decreases top - prev
  {
    if prev >= top then []
    else
      var level := NextLevel(ps, prev, top, |ps|);
      [PotBetween(ps, prev, level)] + PotsAbove(ps, level, top)
  }

  function PotSum(pots: seq<Pot>): int {
    if pots == [] then 0 else pots[0].amount + PotSum(pots[1..])
  }

  // What exceeds every live total is added to the last pot.
  function WithDeadMoney(ps: seq<Contribution>, pots: seq<Pot>, rest: int): seq<Pot> {
    if rest <= 0 then pots
    else if pots == [] then [Pot(rest, Eligible(ps, 0))]
    else pots[|pots| - 1 := pots[|pots| - 1].(amount := pots[|pots| - 1].amount + rest)]
  }

  function Layout(ps: seq<Contribution>): seq<Pot> {
    if Contributed(ps, |ps|) == 0 then []
    else
      var pots := PotsAbove(ps, 0, MaxLive(ps, |ps|));
      WithDeadMoney(ps, pots, Contributed(ps, |ps|) - PotSum(pots))
  }

  // ---- the levels behind the pots --------------------------------------------------------

  ghost function LevelsAbove(ps: seq<Contribution>, prev: int, top: int): seq<int>
    decreases top - prev
  {
    if prev >= top then []
    else
      var level := NextLevel(ps, prev, top, |ps|);
      [level] + LevelsAbove(ps, level, top)
  }

  ghost predicate IsLevel(ps: seq<Contribution>, top: int, level: int) {
    level == top || exists i :: IsAllInLevel(ps, i, level)
  }

  // The height below pot k: the level of the pot before it.
  ghost function Floor(levels: seq<int>, prev: int, k: nat): int
    requires k < |levels|
  {
    if k == 0 then prev else levels[k - 1]
  }

  lemma {:induction false} FirstLevel(ps: seq<Contribution>, prev: int, top: int)
    requires prev < top
    ensures var level := NextLevel(ps, prev, top, |ps|);
            && LevelsAbove(ps, prev, top) == [level] + LevelsAbove(ps, level, top)
            && LevelsAbove(ps, prev, top)[0] == level
            && prev < level <= top
            && IsLevel(ps, top, level)
  {
    var level := NextLevel(ps, prev, top, |ps|);
    NextLevelIsLeast(ps, prev, top, |ps|);
    if level != top {
      var i :| 0 <= i < |ps| && IsAllInLevel(ps, i, level);
    }
  }

  lemma {:induction false} LevelsRise(ps: seq<Contribution>, prev: int, top: int, k: nat)
    requires prev < top
    requires k < |LevelsAbove(ps, prev, top)|
    ensures var levels := LevelsAbove(ps, prev, top);
            Floor(levels, prev, k) < levels[k] <= top && IsLevel(ps, top, levels[k])
    decreases k
  {
    FirstLevel(ps, prev, top);
    if k > 0 {
      var level := NextLevel(ps, prev, top, |ps|);
      LevelsRise(ps, level, top, k - 1);
    }
  }

  lemma {:induction false} TopIsLast(ps: seq<Contribution>, prev: int, top: int)
    requires prev < top
    ensures var levels := LevelsAbove(ps, prev, top); |levels| > 0 && levels[|levels| - 1] == top
    decreases top - prev
  {
    FirstLevel(ps, prev, top);
    var level := NextLevel(ps, prev, top, |ps|);
    if level < top { TopIsLast(ps, level, top); }
  }

  // Pot k is what lies between its floor and its level.
  lemma {:induction false} PotsBetweenLevels(ps: seq<Contribution>, prev: int, top: int, k: nat)
    requires k < |LevelsAbove(ps, prev, top)| == |PotsAbove(ps, prev, top)|
    ensures var levels := LevelsAbove(ps, prev, top);
            PotsAbove(ps, prev, top)[k] == PotBetween(ps, Floor(levels, prev, k), levels[k])
    decreases k
  {
    var level := NextLevel(ps, prev, top, |ps|);
    var levels, rest := LevelsAbove(ps, prev, top), LevelsAbove(ps, level, top);
    assert levels == [level] + rest;
    if k > 0 {
      assert PotsAbove(ps, prev, top)[k] == PotsAbove(ps, level, top)[k - 1];
      PotsBetweenLevels(ps, level, top, k - 1);
      assert Floor(levels, prev, k) == Floor(rest, level, k - 1);
    }
  }

  lemma {:induction false} SameLength(ps: seq<Contribution>, prev: int, top: int)
    ensures |PotsAbove(ps, prev, top)| == |LevelsAbove(ps, prev, top)|
    decreases top - prev
  {
    if prev < top { SameLength(ps, NextLevel(ps, prev, top, |ps|), top); }
  }

  // ---- conservation ----------------------------------------------------------------------

  lemma {:induction false} AboveSum(ps: seq<Contribution>, prev: int, top: int)
    requires prev <= top
    ensures PotSum(PotsAbove(ps, prev, top)) == Below(ps, top, |ps|) - Below(ps, prev, |ps|)
    decreases top - prev
  {
    if prev < top {
      var level := NextLevel(ps, prev, top, |ps|);
      AboveSum(ps, level, top);
      assert PotsAbove(ps, prev, top)[1..] == PotsAbove(ps, level, top);
    }
  }

  lemma {:induction false} DeadMoneySum(ps: seq<Contribution>, pots: seq<Pot>, rest: int)
    requires rest >= 0
    ensures PotSum(WithDeadMoney(ps, pots, rest)) == PotSum(pots) + rest
    decreases pots
  {
    if rest > 0 && |pots| > 1 {
      DeadMoneySum(ps, pots[1..], rest);
      assert WithDeadMoney(ps, pots, rest)[1..] == WithDeadMoney(ps, pots[1..], rest);
    }
  }

  lemma {:induction false} BelowGrows(ps: seq<Contribution>, lo: int, hi: int, n: nat)
    requires lo <= hi && n <= |ps|
    ensures Below(ps, lo, n) <= Below(ps, hi, n) <= Contributed(ps, n)
    ensures forall i :: 0 <= i < n && ps[i].total >= hi ==> Below(ps, hi, n) - Below(ps, lo, n) >= hi - lo
  {
    if n > 0 { BelowGrows(ps, lo, hi, n - 1); }
  }

  lemma {:induction false} BelowZero(ps: seq<Contribution>, n: nat)
    requires NonNegative(ps) && n <= |ps|
    ensures Below(ps, 0, n) == 0
  {
    if n > 0 { BelowZero(ps, n - 1); }
  }

  // Chips no live player could match.
  ghost function DeadMoney(ps: seq<Contribution>): int {
    Contributed(ps, |ps|) - Below(ps, MaxLive(ps, |ps|), |ps|)
  }

  // The pots hold exactly what the players put in.
  lemma {:induction false} LayoutSums(ps: seq<Contribution>)
    requires NonNegative(ps)
    ensures PotSum(Layout(ps)) == Contributed(ps, |ps|)
  {
    var top := MaxLive(ps, |ps|);
    AboveSum(ps, 0, top);
    BelowZero(ps, |ps|);
    BelowGrows(ps, 0, top, |ps|);
    DeadMoneySum(ps, PotsAbove(ps, 0, top), DeadMoney(ps));
  }

  // ---- every pot can be won, and only by those who paid for it ----------------------------

  ghost predicate LiveSeat(ps: seq<Contribution>, seat: int) {
    exists i :: Contends(ps, i, 0) && ps[i].seat == seat
  }

  // With live chips in, the pots run up to the largest live contribution.
  lemma {:induction false} LayoutAboveZero(ps: seq<Contribution>)
    requires NonNegative(ps) && MaxLive(ps, |ps|) > 0
    ensures var pots := PotsAbove(ps, 0, MaxLive(ps, |ps|));
            && Layout(ps) == WithDeadMoney(ps, pots, DeadMoney(ps))
            && DeadMoney(ps) >= 0
            && pots != []
            && pots[|pots| - 1].eligible == Eligible(ps, MaxLive(ps, |ps|))
  {
    var top := MaxLive(ps, |ps|);
    MaxLiveBounds(ps, |ps|);
    BelowZero(ps, |ps|);
    BelowGrows(ps, 0, top, |ps|);
    AboveSum(ps, 0, top);
    SameLength(ps, 0, top);
    TopIsLast(ps, 0, top);
    PotsBetweenLevels(ps, 0, top, |PotsAbove(ps, 0, top)| - 1);
  }

  // Otherwise there is at most one pot, of dead money.
  lemma {:induction false} LayoutAtZero(ps: seq<Contribution>)
    requires NonNegative(ps) && MaxLive(ps, |ps|) == 0
    ensures Layout(ps) == if Contributed(ps, |ps|) == 0 then [] else [Pot(Contributed(ps, |ps|), Eligible(ps, 0))]
    ensures DeadMoney(ps) == Contributed(ps, |ps|) >= 0
  {
    BelowZero(ps, |ps|);
    BelowGrows(ps, 0, 0, |ps|);
    assert PotsAbove(ps, 0, 0) == [];
  }

  // Where pot k of the layout comes from.
  lemma {:induction false} LayoutPot(ps: seq<Contribution>, k: nat)
    requires NonNegative(ps) && k < |Layout(ps)| && MaxLive(ps, |ps|) > 0
    ensures var levels := LevelsAbove(ps, 0, MaxLive(ps, |ps|)); var pots := Layout(ps);
            && |pots| == |levels|
            && pots[k].eligible == Eligible(ps, levels[k])
            && pots[k].amount ==
               PotBetween(ps, Floor(levels, 0, k), levels[k]).amount + (if k == |pots| - 1 then DeadMoney(ps) else 0)
  {
    LayoutAboveZero(ps);
    SameLength(ps, 0, MaxLive(ps, |ps|));
    PotsBetweenLevels(ps, 0, MaxLive(ps, |ps|), k);
  }

  lemma {:induction false} LevelHasContender(ps: seq<Contribution>, level: int)
    requires level > 0 && IsLevel(ps, MaxLive(ps, |ps|), level)
    ensures exists i :: Contends(ps, i, level) && ps[i].total == level
  {
    MaxLiveBounds(ps, |ps|);
    if level == MaxLive(ps, |ps|) {
      var i :| 0 <= i < |ps| && !ps[i].folded && ps[i].total == level;
      assert Contends(ps, i, level);
    } else {
      var i :| IsAllInLevel(ps, i, level);
      assert Contends(ps, i, level);
    }
  }

  lemma {:induction false} EligibleAreLive(ps: seq<Contribution>, level: int)
    requires NonNegative(ps)
    ensures forall seat :: seat in Eligible(ps, level) ==> LiveSeat(ps, seat)
  {
    forall seat | seat in Eligible(ps, level) ensures LiveSeat(ps, seat) {
      EligibleMeans(ps, level, seat);
      var i :| Contends(ps, i, level) && ps[i].seat == seat;
      assert Contends(ps, i, 0);
    }
  }

  // A pot of dead money only, from which anybody still in the hand can win.
  lemma {:induction false} DeadPotWinnable(ps: seq<Contribution>, k: nat)
    requires NonNegative(ps) && SomeoneLive(ps) && MaxLive(ps, |ps|) == 0 && k < |Layout(ps)|
    ensures Layout(ps)[k].amount > 0 && Layout(ps)[k].eligible == Eligible(ps, 0) != []
  {
    LayoutAtZero(ps);
    var i :| 0 <= i < |ps| && !ps[i].folded;
    assert Contends(ps, i, 0);
    EligibleMeans(ps, 0, ps[i].seat);
  }

  lemma {:induction false} LivePotWinnable(ps: seq<Contribution>, k: nat) returns (level: int)
    requires NonNegative(ps) && MaxLive(ps, |ps|) > 0 && k < |Layout(ps)|
    ensures Layout(ps)[k].amount > 0 && Layout(ps)[k].eligible == Eligible(ps, level) != []
  {
    var top := MaxLive(ps, |ps|);
    LayoutAboveZero(ps);
    LayoutPot(ps, k);
    LevelsRise(ps, 0, top, k);
    level := LevelsAbove(ps, 0, top)[k];
    if k > 0 { LevelsRise(ps, 0, top, k - 1); }
    LevelHasContender(ps, level);
    var i :| Contends(ps, i, level) && ps[i].total == level;
    EligibleMeans(ps, level, ps[i].seat);
    BelowGrows(ps, Floor(LevelsAbove(ps, 0, top), 0, k), level, |ps|);
  }

  // Every pot holds chips and has someone, still in the hand, who can win it.
  lemma {:induction false} PotsWinnable(ps: seq<Contribution>, k: nat)
    requires NonNegative(ps) && SomeoneLive(ps) && k < |Layout(ps)|
    ensures Layout(ps)[k].amount > 0
    ensures Layout(ps)[k].eligible != []
    ensures forall seat :: seat in Layout(ps)[k].eligible ==> LiveSeat(ps, seat)
  {
    var level := 0;
    MaxLiveBounds(ps, |ps|);
    if MaxLive(ps, |ps|) == 0 {
      DeadPotWinnable(ps, k);
    } else {
      level := LivePotWinnable(ps, k);
    }
    EligibleAreLive(ps, level);
  }

  // From each pot to the next somebody drops out and nobody joins.
  lemma {:induction false} PotsShrink(ps: seq<Contribution>, k: nat)
    requires NonNegative(ps) && DistinctSeats(ps) && k + 1 < |Layout(ps)|
    ensures forall seat :: seat in Layout(ps)[k + 1].eligible ==> seat in Layout(ps)[k].eligible
    ensures exists seat :: seat in Layout(ps)[k].eligible && seat !in Layout(ps)[k + 1].eligible
  {
    var top := MaxLive(ps, |ps|);
    if top == 0 { LayoutAtZero(ps); }
    LayoutPot(ps, k);
    LayoutPot(ps, k + 1);
    var levels := LevelsAbove(ps, 0, top);
    LevelsRise(ps, 0, top, k);
    LevelsRise(ps, 0, top, k + 1);
    var lo, hi := levels[k], levels[k + 1];
    assert Floor(levels, 0, k + 1) == lo;
    if k > 0 { LevelsRise(ps, 0, top, k - 1); }
    forall seat | seat in Layout(ps)[k + 1].eligible ensures seat in Layout(ps)[k].eligible {
      EligibleMeans(ps, hi, seat);
      var i :| Contends(ps, i, hi) && ps[i].seat == seat;
      assert Contends(ps, i, lo);
      EligibleMeans(ps, lo, seat);
    }
    LevelHasContender(ps, lo);
    var i :| Contends(ps, i, lo) && ps[i].total == lo;
    EligibleMeans(ps, lo, ps[i].seat);
    EligibleMeans(ps, hi, ps[i].seat);
  }

  // ---- chip by chip -----------------------------------------------------------------------
  //
  // The reference view of side pots: layer h is the h-th chip of everyone who put in at least
  // h, and the live players among them contest it.

  ghost function LayerSize(ps: seq<Contribution>, h: int, n: nat): int
    requires n <= |ps|
  {
    if n == 0 then 0 else LayerSize(ps, h, n - 1) + if ps[n - 1].total >= h then 1 else 0
  }

  ghost function Layers(ps: seq<Contribution>, lo: int, hi: int): int
    decreases hi - lo
  {
    if hi <= lo then 0 else Layers(ps, lo, hi - 1) + LayerSize(ps, hi, |ps|)
  }

  lemma {:induction false} OneLayer(ps: seq<Contribution>, h: int, n: nat)
    requires n <= |ps|
    ensures Below(ps, h, n) - Below(ps, h - 1, n) == LayerSize(ps, h, n)
  {
    if n > 0 { OneLayer(ps, h, n - 1); }
  }

  // A pot between two heights is made of the layers in between.
  lemma {:induction false} PotIsLayers(ps: seq<Contribution>, lo: int, hi: int)
    requires lo <= hi
    ensures PotBetween(ps, lo, hi).amount == Layers(ps, lo, hi)
    decreases hi - lo
  {
    if lo < hi {
      OneLayer(ps, hi, |ps|);
      PotIsLayers(ps, lo, hi - 1);
    }
  }

  // Pot k holds layer h.
  ghost predicate Holds(ps: seq<Contribution>, k: nat, h: int) {
    var levels := LevelsAbove(ps, 0, MaxLive(ps, |ps|));
    k < |levels| && Floor(levels, 0, k) < h <= levels[k]
  }

  lemma {:induction false} LayerFound(ps: seq<Contribution>, prev: int, top: int, h: int) returns (k: nat)
    requires prev < h <= top
    ensures var levels := LevelsAbove(ps, prev, top); k < |levels| && Floor(levels, prev, k) < h <= levels[k]
    decreases top - prev
  {
    FirstLevel(ps, prev, top);
    var level := NextLevel(ps, prev, top, |ps|);
    if h <= level {
      k := 0;
    } else {
      k := LayerFound(ps, level, top, h);
      assert Floor(LevelsAbove(ps, prev, top), prev, k + 1) == Floor(LevelsAbove(ps, level, top), level, k);
      k := k + 1;
    }
  }

  lemma {:induction false} NoLevelBetween(ps: seq<Contribution>, prev: int, top: int, k: nat, x: int)
    requires prev < top && k < |LevelsAbove(ps, prev, top)|
    requires IsLevel(ps, top, x)
    ensures var levels := LevelsAbove(ps, prev, top); !(Floor(levels, prev, k) < x < levels[k])
    decreases k
  {
    FirstLevel(ps, prev, top);
    var level := NextLevel(ps, prev, top, |ps|);
    if k == 0 {
      NextLevelIsLeast(ps, prev, top, |ps|);
    } else {
      NoLevelBetween(ps, level, top, k - 1, x);
      assert Floor(LevelsAbove(ps, prev, top), prev, k) == Floor(LevelsAbove(ps, level, top), level, k - 1);
    }
  }

  // The pot holding layer h is contested by exactly the live seats with at least h chips in.
  ghost predicate LayerFair(ps: seq<Contribution>, k: nat, h: int)
    requires k < |Layout(ps)|
  {
    forall seat :: seat in Layout(ps)[k].eligible <==> exists i :: Contends(ps, i, h) && ps[i].seat == seat
  }

  ghost predicate AllLayersFair(ps: seq<Contribution>) {
    forall k: nat, h: int :: Holds(ps, k, h) && k < |Layout(ps)| ==> LayerFair(ps, k, h)
  }

  // Every live player with chips in is all-in or has put in as much as anyone still in.
  ghost predicate LiveTotalsMatched(ps: seq<Contribution>) {
    forall i :: 0 <= i < |ps| && !ps[i].folded && ps[i].total > 0 ==> IsLevel(ps, MaxLive(ps, |ps|), ps[i].total)
  }

  lemma {:induction false} HeldPot(ps: seq<Contribution>, k: nat, h: int)
    requires NonNegative(ps) && Holds(ps, k, h) && MaxLive(ps, |ps|) > 0
    ensures k < |Layout(ps)|
    ensures Layout(ps)[k].eligible == Eligible(ps, LevelsAbove(ps, 0, MaxLive(ps, |ps|))[k])
  {
    SameLength(ps, 0, MaxLive(ps, |ps|));
    LayoutAboveZero(ps);
    LayoutPot(ps, k);
  }

  lemma {:induction false} FairWhenMatched(ps: seq<Contribution>, k: nat, h: int)
    requires NonNegative(ps) && LiveTotalsMatched(ps)
    requires Holds(ps, k, h) && k < |Layout(ps)|
    ensures LayerFair(ps, k, h)
  {
    var top := MaxLive(ps, |ps|);
    var levels := LevelsAbove(ps, 0, top);
    HeldPot(ps, k, h);
    LevelsRise(ps, 0, top, k);
    if k > 0 { LevelsRise(ps, 0, top, k - 1); }
    forall seat ensures seat in Layout(ps)[k].eligible <==> exists i :: Contends(ps, i, h) && ps[i].seat == seat {
      EligibleMeans(ps, levels[k], seat);
      if i :| Contends(ps, i, h) && ps[i].seat == seat {
        NoLevelBetween(ps, 0, top, k, ps[i].total);
        assert Contends(ps, i, levels[k]);
      }
      if i :| Contends(ps, i, levels[k]) && ps[i].seat == seat {
        assert Contends(ps, i, h);
      }
    }
  }

  lemma {:induction false} NotListedIsUnfair(ps: seq<Contribution>, k: nat, h: int, i: nat)
    requires k < |Layout(ps)| && Contends(ps, i, h) && ps[i].seat !in Layout(ps)[k].eligible
    ensures !LayerFair(ps, k, h)
  {
  }

  lemma {:induction false} UnmatchedIsUnfair(ps: seq<Contribution>, i: nat) returns (k: nat)
    requires NonNegative(ps) && DistinctSeats(ps)
    requires i < |ps| && !ps[i].folded && ps[i].total > 0 && !IsLevel(ps, MaxLive(ps, |ps|), ps[i].total)
    ensures Holds(ps, k, ps[i].total) && k < |Layout(ps)| && !LayerFair(ps, k, ps[i].total)
  {
    var top := MaxLive(ps, |ps|);
    var h := ps[i].total;
    MaxLiveBounds(ps, |ps|);
    k := LayerFound(ps, 0, top, h);
    HeldPot(ps, k, h);
    var level := LevelsAbove(ps, 0, top)[k];
    assert h < level by { LevelsRise(ps, 0, top, k); }
    EligibleMeans(ps, level, ps[i].seat);
    NotListedIsUnfair(ps, k, h, i);
  }

  // The layout agrees with the chip-by-chip view on every layer if and only if every live
  // player who is not all-in has matched the largest live contribution (or happens to sit at
  // an all-in level, or has nothing in).
  lemma {:induction false} LayersFairIff(ps: seq<Contribution>)
    requires NonNegative(ps) && DistinctSeats(ps)
    ensures AllLayersFair(ps) <==> LiveTotalsMatched(ps)
  {
    if LiveTotalsMatched(ps) {
      forall k: nat, h: int | Holds(ps, k, h) && k < |Layout(ps)| ensures LayerFair(ps, k, h) {
        FairWhenMatched(ps, k, h);
      }
    } else {
      var i :| 0 <= i < |ps| && !ps[i].folded && ps[i].total > 0 && !IsLevel(ps, MaxLive(ps, |ps|), ps[i].total);
      var k := UnmatchedIsUnfair(ps, i);
    }
  }

  // ---- table stakes -----------------------------------------------------------------------

  // The chips in the pots that list a seat.
  ghost function Winnable(pots: seq<Pot>, seat: int): int {
    if pots == [] then 0 else (if seat in pots[0].eligible then pots[0].amount else 0) + Winnable(pots[1..], seat)
  }

  lemma {:induction false} WinnableAbove(ps: seq<Contribution>, prev: int, top: int, i: nat)
    requires i < |ps| && !ps[i].folded && DistinctSeats(ps)
    ensures Winnable(PotsAbove(ps, prev, top), ps[i].seat) <=
            if ps[i].total >= prev then Below(ps, ps[i].total, |ps|) - Below(ps, prev, |ps|) else 0
    decreases top - prev
  {
    var c := ps[i].total;
    if prev <= c { BelowGrows(ps, prev, c, |ps|); }
    if prev < top {
      var level := NextLevel(ps, prev, top, |ps|);
      WinnableAbove(ps, level, top, i);
      assert PotsAbove(ps, prev, top)[1..] == PotsAbove(ps, level, top);
      EligibleMeans(ps, level, ps[i].seat);
      if c >= level { assert Contends(ps, i, level); }
    }
  }

  lemma {:induction false} WinnableWithDeadMoney(ps: seq<Contribution>, pots: seq<Pot>, rest: int, seat: int)
    requires rest >= 0 && pots != []
    ensures Winnable(WithDeadMoney(ps, pots, rest), seat) ==
            Winnable(pots, seat) + if seat in pots[|pots| - 1].eligible then rest else 0
    decreases pots
  {
    if rest > 0 && |pots| > 1 {
      WinnableWithDeadMoney(ps, pots[1..], rest, seat);
      assert WithDeadMoney(ps, pots, rest)[1..] == WithDeadMoney(ps, pots[1..], rest);
    }
  }

  // A seat with c chips in can win at most c from everyone, plus the dead money when nobody
  // still in put in more.
  lemma {:induction false} TableStakes(ps: seq<Contribution>, i: nat)
    requires NonNegative(ps) && DistinctSeats(ps) && i < |ps| && !ps[i].folded
    ensures Winnable(Layout(ps), ps[i].seat) <=
            Below(ps, ps[i].total, |ps|) + if ps[i].total == MaxLive(ps, |ps|) then DeadMoney(ps) else 0
  {
    var top := MaxLive(ps, |ps|);
    MaxLiveBounds(ps, |ps|);
    BelowZero(ps, |ps|);
    if top > 0 {
      LayoutAboveZero(ps);
      WinnableAbove(ps, 0, top, i);
      WinnableWithDeadMoney(ps, PotsAbove(ps, 0, top), DeadMoney(ps), ps[i].seat);
      if ps[i].total < top {
        assert ps[i].seat !in Eligible(ps, top) by { EligibleMeans(ps, top, ps[i].seat); }
      }
    } else {
      LayoutAtZero(ps);
      assert ps[i].total == 0;
    }
  }

  // ---- what the layout depends on --------------------------------------------------------------

  // Whether a folded player is all-in makes no difference.
  ghost predicate Alike(ps: seq<Contribution>, qs: seq<Contribution>) {
    |ps| == |qs| && forall i :: 0 <= i < |ps| ==>
      && ps[i].seat == qs[i].seat && ps[i].total == qs[i].total && ps[i].folded == qs[i].folded
      && (!ps[i].folded ==> ps[i].allIn == qs[i].allIn)
  }

  lemma {:induction false} AlikeMeasures(ps: seq<Contribution>, qs: seq<Contribution>, h: int, n: nat)
    requires Alike(ps, qs) && n <= |ps|
    ensures Below(ps, h, n) == Below(qs, h, n) && Contributed(ps, n) == Contributed(qs, n)
    ensures MaxLive(ps, n) == MaxLive(qs, n) && Contenders(ps, h, n) == Contenders(qs, h, n)
  {
    if n > 0 { AlikeMeasures(ps, qs, h, n - 1); }
  }

  lemma {:induction false} AlikeLevels(ps: seq<Contribution>, qs: seq<Contribution>, prev: int, bound: int, n: nat)
    requires Alike(ps, qs) && n <= |ps| && prev < bound
    ensures NextLevel(ps, prev, bound, n) == NextLevel(qs, prev, bound, n)
  {
    if n > 0 { AlikeLevels(ps, qs, prev, bound, n - 1); }
  }

  lemma {:induction false} AlikePots(ps: seq<Contribution>, qs: seq<Contribution>, prev: int, top: int)
    requires Alike(ps, qs)
    ensures PotsAbove(ps, prev, top) == PotsAbove(qs, prev, top)
    decreases top - prev
  {
    if prev < top {
      AlikeLevels(ps, qs, prev, top, |ps|);
      var level := NextLevel(ps, prev, top, |ps|);
      AlikeMeasures(ps, qs, level, |ps|);
      AlikeMeasures(ps, qs, prev, |ps|);
      AlikePots(ps, qs, level, top);
    }
  }

  lemma {:induction false} AlikeLayouts(ps: seq<Contribution>, qs: seq<Contribution>)
    requires Alike(ps, qs)
    ensures Layout(ps) == Layout(qs)
  {
    AlikeMeasures(ps, qs, 0, |ps|);
    AlikePots(ps, qs, 0, MaxLive(ps, |ps|));
  }

  // ---- the algorithm ----------------------------------------------------------------------

  // The first n entries without those that repeat the one before.
  function Deduped(s: seq<int>, n: nat): (r: seq<int>)
    requires n <= |s|
    ensures |r| <= n && (n > 0 ==> r != [] && r[|r| - 1] == s[n - 1])
  {
    if n == 0 then []
    else if n == 1 || s[n - 1] != s[n - 2] then Deduped(s, n - 1) + [s[n - 1]]
    else Deduped(s, n - 1)
  }

  // Of sorted levels it leaves each one once.
  lemma {:induction false} DedupedMeans(s: seq<int>, n: nat)
    requires n <= |s| && Sorting.Ordered(s, Identity)
    ensures Sorting.Rising(Deduped(s, n), Identity)
    ensures forall x :: x in Deduped(s, n) <==> x in s[..n]
  {
    if n > 0 {
      DedupedMeans(s, n - 1);
      assert s[..n] == s[..n - 1] + [s[n - 1]];
      assert n > 1 ==> Identity(s[n - 2]) <= Identity(s[n - 1]);
    }
  }

  // Keeps each level once, in place: the first k entries are what remains. An entry is read
  // before it can be overwritten by anything but itself.
  method Dedupe(levels: array<int>) returns (k: nat)
    modifies levels
    ensures k <= levels.Length && levels[..k] == Deduped(old(levels[..]), levels.Length)
  {
    ghost var was := levels[..];
    k := 0;
    for i := 0 to levels.Length
      invariant k <= i
      invariant forall j :: i - 1 <= j < levels.Length && j >= 0 ==> levels[j] == was[j]
      invariant levels[..k] == Deduped(was, i)
    {
      var l := levels[i];
      if i == 0 || l != levels[i - 1] {
        ghost var kept := levels[..k];
        levels[k] := l;
        k := k + 1;
        assert levels[..k] == kept + [l];
      }
    }
  }

  lemma {:induction false} LevelNoted(cs: seq<Contribution>, n: nat, before: seq<int>, levels: seq<int>)
    requires n < |cs|
    requires forall x :: x in before <==> x > 0 && exists i :: i < n && IsAllInLevel(cs, i, x)
    requires levels == if !cs[n].folded && cs[n].allIn && cs[n].total > 0 then before + [cs[n].total] else before
    ensures forall x :: x in levels <==> x > 0 && exists i :: i < n + 1 && IsAllInLevel(cs, i, x)
  {
    forall x ensures x in levels <==> x > 0 && exists i :: i < n + 1 && IsAllInLevel(cs, i, x) {
      if x in levels && x !in before { assert IsAllInLevel(cs, n, x); }
      if i :| x > 0 && i < n + 1 && IsAllInLevel(cs, i, x) {
        assert i < n || x == cs[n].total;
      }
    }
  }

  // The all-in levels, the largest live contribution and the sum of all contributions.
  method Survey(players: seq<Contribution>) returns (levels: seq<int>, maxLive: int, contributed: int)
    ensures contributed == Contributed(players, |players|) && maxLive == MaxLive(players, |players|)
    ensures forall x :: x in levels <==> x > 0 && exists i :: IsAllInLevel(players, i, x)
  {
    levels, maxLive, contributed := [], 0, 0;
    for n := 0 to |players|
      invariant contributed == Contributed(players, n) && maxLive == MaxLive(players, n)
      invariant forall x :: x in levels <==> x > 0 && exists i :: i < n && IsAllInLevel(players, i, x)
    {
      var p := players[n];
      contributed := contributed + p.total;
      ghost var before := levels;
      if !p.folded {
        if p.total > maxLive {
          maxLive := p.total;
        }
        if p.allIn && p.total > 0 {
          levels := levels + [p.total];
        }
      }
      LevelNoted(players, n, before, levels);
    }
  }

  // One pot: what lies between two heights, and who reached the upper one.
  method Slice(players: seq<Contribution>, prev: int, level: int) returns (pot: Pot)
    ensures pot == PotBetween(players, prev, level)
  {
    var amount := 0;
    var eligible: seq<int> := [];
    for n := 0 to |players|
      invariant amount == Below(players, level, n) - Below(players, prev, n)
      invariant eligible == Contenders(players, level, n)
    {
      var p := players[n];
      amount := amount + (Min(p.total, level) - Min(p.total, prev));
      if !p.folded && p.total >= level {
        eligible := eligible + [p.seat];
      }
    }
    pot := Pot(amount, Sorting.SortBy(eligible, Identity));
  }

  // What the sorted, deduped and topped-up list of levels holds.
  ghost predicate LevelList(players: seq<Contribution>, levels: seq<int>, top: int) {
    && Sorting.Rising(levels, Identity)
    && |levels| > 0
    && levels[|levels| - 1] == top
    && forall x :: x in levels <==> x == top || (x > 0 && exists i :: IsAllInLevel(players, i, x))
  }

  lemma {:induction false} ListFollowsLevels(players: seq<Contribution>, levels: seq<int>, top: int, k: nat)
    requires LevelList(players, levels, top) && k < |levels| && top > 0
    ensures Floor(levels, 0, k) < levels[k] <= top
    ensures NextLevel(players, Floor(levels, 0, k), top, |players|) == levels[k]
  {
    var prev := Floor(levels, 0, k);
    assert levels[k] in levels;
    assert levels[k] <= top;
    if k > 0 { assert levels[k - 1] in levels; }
    NextLevelIsLeast(players, prev, top, |players|);
    var next := NextLevel(players, prev, top, |players|);
    assert prev >= 0;
    assert next in levels;
    var j :| 0 <= j < |levels| && levels[j] == next;
    assert j >= k;
  }

  lemma {:induction false} AppendPot(pots: seq<Pot>, pot: Pot)
    ensures PotSum(pots + [pot]) == PotSum(pots) + pot.amount
    decreases pots
  {
    if pots != [] {
      AppendPot(pots[1..], pot);
      assert (pots + [pot])[1..] == pots[1..] + [pot];
    }
  }

  // Slicing at the next level of the list takes the first pot off what is left above prev.
  lemma {:induction false} SliceStep(players: seq<Contribution>, levels: seq<int>, top: int, k: nat, done: seq<Pot>)
    requires NonNegative(players) && top == MaxLive(players, |players|)
    requires LevelList(players, levels, top) && k < |levels|
    ensures var prev := Floor(levels, 0, k); var pot := PotBetween(players, prev, levels[k]);
            && prev <= levels[k] <= top
            && done + PotsAbove(players, prev, top) ==
               (if pot.amount == 0 then done else done + [pot]) + PotsAbove(players, levels[k], top)
  {
    var prev, level := Floor(levels, 0, k), levels[k];
    var pot := PotBetween(players, prev, level);
    if top > 0 {
      ListFollowsLevels(players, levels, top, k);
      MaxLiveBounds(players, |players|);
      BelowGrows(players, prev, level, |players|);
      assert done + ([pot] + PotsAbove(players, level, top)) == (done + [pot]) + PotsAbove(players, level, top);
    } else {
      MaxLiveBounds(players, |players|);
      assert levels[0] in levels;
      assert k == 0;
    }
  }

  method SliceAll(players: seq<Contribution>, levels: seq<int>, ghost top: int) returns (pots: seq<Pot>,
        distributed: int)
    requires NonNegative(players) && top == MaxLive(players, |players|)
    requires LevelList(players, levels, top)
    ensures pots == PotsAbove(players, 0, top) && distributed == PotSum(pots)
  {
    pots, distributed := [], 0;
    var prev := 0;
    for k := 0 to |levels|
      invariant prev == if k == 0 then 0 else levels[k - 1]
      invariant prev <= top
      invariant pots + PotsAbove(players, prev, top) == PotsAbove(players, 0, top)
      invariant distributed == PotSum(pots)
    {
      var pot := Slice(players, prev, levels[k]);
      SliceStep(players, levels, top, k, pots);
      prev := levels[k];
      if pot.amount != 0 {
        AppendPot(pots, pot);
        pots := pots + [pot];
        distributed := distributed + pot.amount;
      }
    }
    assert PotsAbove(players, prev, top) == [];
  }

  method LiveSeats(players: seq<Contribution>) returns (eligible: seq<int>)
    requires NonNegative(players)
    ensures eligible == Eligible(players, 0)
  {
    eligible := [];
    for n := 0 to |players|
      invariant eligible == Contenders(players, 0, n)
    {
      if !players[n].folded {
        eligible := eligible + [players[n].seat];
      }
    }
    eligible := Sorting.SortBy(eligible, Identity);
  }

  method Distinct(found: seq<int>) returns (levels: seq<int>)
    ensures Sorting.Rising(levels, Identity)
    ensures forall x :: x in levels <==> x in found
  {
    var sorted := Sorting.SortBy(found, Identity);
    Sorting.SortElements(found, Identity);
    Sorting.SortOrders(found, Identity);
    var a := new int[|sorted|](i requires 0 <= i < |sorted| => sorted[i]);
    assert a[..] == sorted;
    DedupedMeans(sorted, |sorted|);
    assert sorted[..|sorted|] == sorted;
    var k := Dedupe(a);
    levels := a[..k];
  }

  method Levels(found: seq<int>, maxLive: int, ghost players: seq<Contribution>) returns (levels: seq<int>)
    requires maxLive == MaxLive(players, |players|)
    requires forall x :: x in found <==> x > 0 && exists i :: IsAllInLevel(players, i, x)
    ensures LevelList(players, levels, maxLive)
  {
    levels := Distinct(found);
    MaxLiveBounds(players, |players|);
    assert forall x :: x in levels ==> x <= maxLive;
    assert levels != [] ==> levels[|levels| - 1] in levels;
    if |levels| == 0 || levels[|levels| - 1] < maxLive {
      levels := levels + [maxLive];
    }
  }

  // What exceeds every live total is added to the last pot, or is a pot of its own.
  method AddDeadMoney(players: seq<Contribution>, pots: seq<Pot>, rest: int) returns (r: seq<Pot>)
    requires NonNegative(players)
    ensures r == WithDeadMoney(players, pots, rest)
  {
    r := pots;
    if rest > 0 {
      if |pots| == 0 {
        var eligible := LiveSeats(players);
        return [Pot(rest, eligible)];
      }
      var last := |pots| - 1;
      r := pots[last := pots[last].(amount := pots[last].amount + rest)];
    }
  }

  method BuildPots(players: seq<Contribution>) returns (pots: seq<Pot>)
    requires NonNegative(players)
    ensures pots == Layout(players)
  {
    var levels, maxLive, contributed := Survey(players);
    if contributed == 0 {
      return [];
    }
    levels := Levels(levels, maxLive, players);
    var distributed;
    pots, distributed := SliceAll(players, levels, maxLive);
    pots := AddDeadMoney(players, pots, contributed - distributed);
  }
}
