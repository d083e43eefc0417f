// Who wins a pot and how it is split (potWinnersOn, clockwiseFromButton and the pay closure of
// awardPots in backend/internal/poker/hand.go).

module Payout {
  import opened Pots
  import Sorting

  // A seat's hand rank. A seat without an entry has the zero value, as a Go map lookup does.
  type Ranks = map<int, int>

  datatype PotWinner = PotWinner(seat: int, amount: int)

  // board: 0 when there is one board, else its number.
  datatype PotAward = PotAward(index: nat, amount: int, winners: seq<PotWinner>, board: nat)

  function HandRank(ranks: Ranks, seat: int): int {
    if seat in ranks then ranks[seat] else 0
  }

  // ---- winners ----------------------------------------------------------------------------

  function TopRank(seats: seq<int>, ranks: Ranks): int
    requires seats != []
  {
    var r := HandRank(ranks, seats[|seats| - 1]);
    if |seats| == 1 then r
    else
      var top := TopRank(seats[..|seats| - 1], ranks);
      if r > top then r else top
  }

  function WithRank(seats: seq<int>, ranks: Ranks, rank: int): seq<int> {
    if seats == [] then []
    else
      var last := seats[|seats| - 1];
      WithRank(seats[..|seats| - 1], ranks, rank) + if HandRank(ranks, last) == rank then [last] else []
  }

  // The eligible seats nobody eligible beats, in the order they are listed.
  function BestSeats(eligible: seq<int>, ranks: Ranks): seq<int> {
    if eligible == [] then [] else WithRank(eligible, ranks, TopRank(eligible, ranks))
  }

  lemma {:induction false} TopRankIsTop(seats: seq<int>, ranks: Ranks)
    requires seats != []
    ensures forall s :: s in seats ==> HandRank(ranks, s) <= TopRank(seats, ranks)
    ensures exists s :: s in seats && HandRank(ranks, s) == TopRank(seats, ranks)
  {
    var last := seats[|seats| - 1];
    assert last in seats;
    if |seats| > 1 {
      var init := seats[..|seats| - 1];
      TopRankIsTop(init, ranks);
      assert forall s :: s in seats ==> s in init || s == last;
      var s :| s in init && HandRank(ranks, s) == TopRank(init, ranks);
      assert s in seats;
    }
  }

  lemma {:induction false} WithRankMeans(seats: seq<int>, ranks: Ranks, rank: int)
    ensures forall s :: s in WithRank(seats, ranks, rank) <==> s in seats && HandRank(ranks, s) == rank
  {
    if seats != [] {
      var init, last := seats[..|seats| - 1], seats[|seats| - 1];
      WithRankMeans(init, ranks, rank);
      assert forall s :: s in seats <==> s in init || s == last;
    }
  }

  // ---- clockwise from the button ------------------------------------------------------------

  const SEAT_LIMIT := 0x10_0000

  function ClockwiseKey(seat: int, button: int): int {
    if seat > button then seat - button else seat + SEAT_LIMIT - button
  }

  function KeyFrom(button: int): int -> int {
    seat => ClockwiseKey(seat, button)
  }

  function Clockwise(seats: seq<int>, button: int): seq<int> {
    Sorting.SortBy(seats, KeyFrom(button))
  }

  // Going round the table from the button, x comes no later than y.
  predicate NoLater(button: int, x: int, y: int) {
    if x > button then y > button ==> x <= y else y <= button && x <= y
  }

  // Nobody right of the button is too far above somebody left of it for the sort key.
  predicate CloseTogether(seats: seq<int>, button: int) {
    forall x, y :: x in seats && y in seats && x > button >= y ==> x - y < SEAT_LIMIT
  }

  // Somebody is.
  predicate FarApart(seats: seq<int>, button: int) {
    exists x, y :: x in seats && y in seats && x > button >= y && x - y > SEAT_LIMIT
  }

  predicate GoesRound(seats: seq<int>, button: int) {
    forall i, j :: 0 <= i < j < |seats| ==> NoLater(button, seats[i], seats[j])
  }

  lemma {:induction false} KeyGoesRound(r: seq<int>, button: int)
    requires CloseTogether(r, button)
    requires forall i, j :: 0 <= i < j < |r| ==> ClockwiseKey(r[i], button) <= ClockwiseKey(r[j], button)
    ensures GoesRound(r, button)
  {
    forall i, j | 0 <= i < j < |r| ensures NoLater(button, r[i], r[j]) {
      assert r[i] in r && r[j] in r;
    }
  }

  // A seat right of the button and one too far below it: the key puts the lower seat first.
  lemma {:induction false} KeyTurnsBack(r: seq<int>, button: int, x: int, y: int)
    requires x in r && y in r && x > button >= y && x - y > SEAT_LIMIT
    requires forall i, j :: 0 <= i < j < |r| ==> KeyFrom(button)(r[i]) <= KeyFrom(button)(r[j])
    ensures !GoesRound(r, button)
  {
    var i :| 0 <= i < |r| && r[i] == y;
    var j :| 0 <= j < |r| && r[j] == x;
    Sorting.LowerKeyFirst(r, KeyFrom(button), i, j);
    assert !NoLater(button, r[i], r[j]);
  }

  // The sort key orders seats the way the deal goes round - first the seats after the button,
  // then from the lowest seat up to the button itself - while they are close together, and does
  // not once two are too far apart. In between, where two keys are equal, either may come first.
  lemma {:induction false} ClockwiseGoesRound(seats: seq<int>, button: int)
    ensures multiset(Clockwise(seats, button)) == multiset(seats)
    ensures CloseTogether(seats, button) ==> GoesRound(Clockwise(seats, button), button)
    ensures FarApart(seats, button) ==> !GoesRound(Clockwise(seats, button), button)
  {
    var r := Clockwise(seats, button);
    Sorting.SortKeeps(seats, KeyFrom(button));
    Sorting.SortOrders(seats, KeyFrom(button));
    Sorting.SortElements(seats, KeyFrom(button));
    if CloseTogether(seats, button) {
      assert forall i, j :: 0 <= i < j < |r| ==> KeyFrom(button)(r[i]) <= KeyFrom(button)(r[j]);
      KeyGoesRound(r, button);
    }
    if FarApart(seats, button) {
      var x, y :| x in seats && y in seats && x > button >= y && x - y > SEAT_LIMIT;
      KeyTurnsBack(r, button, x, y);
    }
  }

  function Winners(pot: Pot, ranks: Ranks, button: int): seq<int> {
    Clockwise(BestSeats(pot.eligible, ranks), button)
  }

  // The seats paid from a pot are exactly the eligible seats of maximal rank, and there is one.
  lemma {:induction false} WinnersAreBest(pot: Pot, ranks: Ranks, button: int)
    requires pot.eligible != []
    ensures Winners(pot, ranks, button) != []
    ensures forall s :: s in Winners(pot, ranks, button) <==>
              s in pot.eligible && forall q :: q in pot.eligible ==> HandRank(ranks, q) <= HandRank(ranks, s)
  {
    var top := TopRank(pot.eligible, ranks);
    TopRankIsTop(pot.eligible, ranks);
    WithRankMeans(pot.eligible, ranks, top);
    Sorting.SortElements(BestSeats(pot.eligible, ranks), KeyFrom(button));
    var best :| best in pot.eligible && HandRank(ranks, best) == top;
    assert best in BestSeats(pot.eligible, ranks);
    assert best in Winners(pot, ranks, button);
  }

  // ---- shares -------------------------------------------------------------------------------

  function Share(amount: int, n: nat, i: nat): int
    requires n > 0
  {
    amount / n + if i < amount - amount / n * n then 1 else 0
  }

  function Shares(winners: seq<int>, amount: int): seq<PotWinner> {
    seq(|winners|, i requires 0 <= i < |winners| => PotWinner(winners[i], Share(amount, |winners|, i)))
  }

  function PaidOut(winners: seq<PotWinner>, n: nat): int
    requires n <= |winners|
  {
    if n == 0 then 0 else PaidOut(winners, n - 1) + winners[n - 1].amount
  }

  lemma {:induction false} SharesSoFar(winners: seq<int>, amount: int, n: nat)
    requires amount >= 0 && n <= |winners|
    ensures n > 0 ==> var w := |winners|; var odd := amount - amount / w * w;
              PaidOut(Shares(winners, amount), n) == n * (amount / w) + if n <= odd then n else odd
  {
    if n > 1 { SharesSoFar(winners, amount, n - 1); }
  }

  lemma {:induction false} ShareAtMost(amount: int, w: nat, q: int, odd: int)
    requires w > 0 && q >= 0 && 0 <= odd < w && amount == w * q + odd
    ensures q <= amount && (odd > 0 ==> q + 1 <= amount)
  {
    assert (w - 1) * q >= 0;
  }

  lemma {:induction false} DivideBy(amount: int, w: nat)
    requires w > 0 && amount >= 0
    ensures var q := amount / w; q >= 0 && 0 <= amount - q * w < w
  {
  }

  // A pot is split without loss, equally up to one chip, the odd chips going to the winners
  // who come first.
  lemma {:induction false} SharesAreFair(winners: seq<int>, amount: int)
    requires amount >= 0 && winners != []
    ensures var shares := Shares(winners, amount);
            && PaidOut(shares, |shares|) == amount
            && (forall i :: 0 <= i < |shares| ==> shares[i].seat == winners[i] && 0 <= shares[i].amount <= amount)
            && (forall i, j :: 0 <= i < j < |shares| ==> shares[j].amount <= shares[i].amount <= shares[j].amount + 1)
  {
    var w := |winners|;
    var q := amount / w;
    DivideBy(amount, w);
    SharesSoFar(winners, amount, w);
    ShareAtMost(amount, w, q, amount - q * w);
  }

  // ---- awards -------------------------------------------------------------------------------

  function Award(index: nat, pot: Pot, amount: int, ranks: Ranks, button: int, board: nat): PotAward {
    PotAward(index, amount, Shares(Winners(pot, ranks, button), amount), board)
  }

  // One pot: paid whole on one board, or in two halves, the odd chip with the first board.
  function PotAwards(index: nat, pot: Pot, ranks: Ranks, ranks2: Ranks, twice: bool, button: int): seq<PotAward> {
    if !twice then [Award(index, pot, pot.amount, ranks, button, 0)]
    else
      var half := pot.amount / 2;
      [Award(index, pot, pot.amount - half, ranks, button, 1)] +
      if half > 0 then [Award(index, pot, half, ranks2, button, 2)] else []
  }

  function Awards(pots: seq<Pot>, first: nat, ranks: Ranks, ranks2: Ranks, twice: bool, button: int): seq<PotAward> {
    if pots == [] then []
    else PotAwards(first, pots[0], ranks, ranks2, twice, button) + Awards(pots[1..], first + 1, ranks, ranks2, twice,
        button)
  }

  // What a list of shares, or of awards, pays to one seat.
  function PaidTo(winners: seq<PotWinner>, seat: int): int {
    if winners == [] then 0 else (if winners[0].seat == seat then winners[0].amount else 0) + PaidTo(winners[1..], seat)
  }

  function WonBy(awards: seq<PotAward>, seat: int): int {
    if awards == [] then 0 else PaidTo(awards[0].winners, seat) + WonBy(awards[1..], seat)
  }

  function AwardSum(awards: seq<PotAward>): int {
    if awards == [] then 0 else awards[0].amount + AwardSum(awards[1..])
  }

  ghost predicate Payable(pots: seq<Pot>) {
    forall k :: 0 <= k < |pots| ==> pots[k].amount > 0 && pots[k].eligible != []
  }

  // The two halves of a pot are the pot, the first board taking the odd chip.
  lemma {:induction false} HalvesMakeThePot(index: nat, pot: Pot, ranks: Ranks, ranks2: Ranks, twice: bool, button: int)
    requires pot.amount > 0
    ensures var awards := PotAwards(index, pot, ranks, ranks2, twice, button);
            && 1 <= |awards| <= 2
            && AwardSum(awards) == pot.amount
            && (forall k :: 0 <= k < |awards| ==> awards[k].amount > 0 && awards[k].index == index)
            && (|awards| == 2 ==> awards[1].amount <= awards[0].amount <= awards[1].amount + 1)
  {
    var awards := PotAwards(index, pot, ranks, ranks2, twice, button);
    assert AwardSum(awards[1..]) == if |awards| == 1 then 0 else awards[1].amount by {
      if |awards| == 2 { assert awards[1..][1..] == []; }
    }
  }

  lemma {:induction false} AwardSumConcat(a: seq<PotAward>, b: seq<PotAward>)
    ensures AwardSum(a + b) == AwardSum(a) + AwardSum(b)
  {
    if a != [] {
      AwardSumConcat(a[1..], b);
      assert (a + b)[1..] == a[1..] + b;
    } else {
      assert a + b == b;
    }
  }

  // Everything in the pots is awarded.
  lemma {:induction false} AwardsSum(pots: seq<Pot>, first: nat, ranks: Ranks, ranks2: Ranks, twice: bool, button: int)
    requires Payable(pots)
    ensures AwardSum(Awards(pots, first, ranks, ranks2, twice, button)) == PotSum(pots)
    decreases pots
  {
    if pots != [] {
      HalvesMakeThePot(first, pots[0], ranks, ranks2, twice, button);
      AwardsSum(pots[1..], first + 1, ranks, ranks2, twice, button);
      AwardSumConcat(PotAwards(first, pots[0], ranks, ranks2, twice, button),
                     Awards(pots[1..], first + 1, ranks, ranks2, twice, button));
    }
  }

  // ---- what one seat can win ------------------------------------------------------------------

  lemma {:induction false} PaidToBound(winners: seq<PotWinner>, seat: int)
    requires forall i :: 0 <= i < |winners| ==> winners[i].amount >= 0
    ensures 0 <= PaidTo(winners, seat)
    ensures (forall i :: 0 <= i < |winners| ==> winners[i].seat != seat) ==> PaidTo(winners, seat) == 0
    ensures PaidTo(winners, seat) <= Total(winners)
  {
    if winners != [] { PaidToBound(winners[1..], seat); }
  }

  function Total(winners: seq<PotWinner>): int {
    if winners == [] then 0 else winners[0].amount + Total(winners[1..])
  }

  lemma {:induction false} TotalIsPaidOut(winners: seq<PotWinner>)
    ensures Total(winners) == PaidOut(winners, |winners|)
  {
    if winners != [] {
      TotalIsPaidOut(winners[1..]);
      PaidOutShift(winners, |winners|);
    }
  }

  lemma {:induction false} PaidOutShift(winners: seq<PotWinner>, n: nat)
    requires 0 < n <= |winners|
    ensures PaidOut(winners, n) == winners[0].amount + PaidOut(winners[1..], n - 1)
  {
    if n > 1 { PaidOutShift(winners, n - 1); }
  }

  lemma {:induction false} AwardBound(index: nat, pot: Pot, amount: int, ranks: Ranks, button: int, board: nat,
        seat: int)
    requires amount >= 0 && pot.eligible != []
    ensures 0 <= PaidTo(Award(index, pot, amount, ranks, button, board).winners, seat)
            <= if seat in pot.eligible then amount else 0
    ensures seat !in Winners(pot, ranks, button) ==>
      PaidTo(Award(index, pot, amount, ranks, button, board).winners, seat) == 0
  {
    var winners := Winners(pot, ranks, button);
    WinnersAreBest(pot, ranks, button);
    SharesAreFair(winners, amount);
    TotalIsPaidOut(Shares(winners, amount));
    PaidToBound(Shares(winners, amount), seat);
    if seat !in winners {
      forall i | 0 <= i < |winners| ensures Shares(winners, amount)[i].seat != seat { assert winners[i] in winners; }
    }
  }

  lemma {:induction false} WonByConcat(a: seq<PotAward>, b: seq<PotAward>, seat: int)
    ensures WonBy(a + b, seat) == WonBy(a, seat) + WonBy(b, seat)
  {
    if a != [] {
      WonByConcat(a[1..], b, seat);
      assert (a + b)[1..] == a[1..] + b;
    } else {
      assert a + b == b;
    }
  }

  lemma {:induction false} PotWonBound(index: nat, pot: Pot, ranks: Ranks, ranks2: Ranks, twice: bool, button: int,
        seat: int)
    requires pot.amount > 0 && pot.eligible != []
    ensures 0 <= WonBy(PotAwards(index, pot, ranks, ranks2, twice, button), seat) <=
            if seat in pot.eligible then pot.amount else 0
    ensures seat !in Winners(pot, ranks, button) && (twice ==> seat !in Winners(pot, ranks2, button)) ==>
              WonBy(PotAwards(index, pot, ranks, ranks2, twice, button), seat) == 0
  {
    var awards := PotAwards(index, pot, ranks, ranks2, twice, button);
    var half := pot.amount / 2;
    AwardBound(index, pot, pot.amount, ranks, button, 0, seat);
    AwardBound(index, pot, pot.amount - half, ranks, button, 1, seat);
    AwardBound(index, pot, half, ranks2, button, 2, seat);
    assert WonBy(awards[1..], seat) == if |awards| == 1 then 0 else PaidTo(awards[1].winners, seat) by {
      if |awards| == 2 { assert awards[1..][1..] == []; }
    }
  }

  // A seat wins at most the pots that list it, whatever the cards and however many boards; and
  // nothing at all when it is among the winners of no pot.
  lemma {:induction false} WonAtMostWinnable(pots: seq<Pot>, first: nat, ranks: Ranks, ranks2: Ranks, twice: bool,
        button: int, seat: int)
    requires Payable(pots)
    ensures 0 <= WonBy(Awards(pots, first, ranks, ranks2, twice, button), seat) <= Winnable(pots, seat)
    ensures (forall k :: 0 <= k < |pots| ==>
          seat !in Winners(pots[k], ranks, button) && (twice ==> seat !in Winners(pots[k], ranks2, button)))
            ==> WonBy(Awards(pots, first, ranks, ranks2, twice, button), seat) == 0
    decreases pots
  {
    if pots != [] {
      PotWonBound(first, pots[0], ranks, ranks2, twice, button, seat);
      WonAtMostWinnable(pots[1..], first + 1, ranks, ranks2, twice, button, seat);
      WonByConcat(PotAwards(first, pots[0], ranks, ranks2, twice, button),
                  Awards(pots[1..], first + 1, ranks, ranks2, twice, button), seat);
    }
  }

  // ---- the loop over the eligible seats --------------------------------------------------------

  method FindWinners(eligible: seq<int>, ranks: Ranks, button: int) returns (winners: seq<int>)
    ensures winners == Clockwise(BestSeats(eligible, ranks), button)
  {
    var best := 0;
    winners := [];
    for i := 0 to |eligible|
      invariant winners == BestSeats(eligible[..i], ranks)
      invariant i > 0 ==> winners != [] && best == TopRank(eligible[..i], ranks)
    {
      var seat := eligible[i];
      var v := HandRank(ranks, seat);
      ghost var seen, before := eligible[..i + 1], eligible[..i];
      assert seen[..|seen| - 1] == before && seen[|seen| - 1] == seat;
      if i > 0 { NoneAbove(before, ranks, v); } else { assert before == []; }
      assert WithRank(seen, ranks, v) == WithRank(before, ranks, v) + [seat];
      if |winners| == 0 || v > best {
        best, winners := v, [seat];
        assert WithRank(before, ranks, v) == [];
      } else if v == best {
        winners := winners + [seat];
      } else {
        assert WithRank(seen, ranks, best) == WithRank(before, ranks, best);
      }
      SomeWithTop(seen, ranks);
    }
    assert eligible[..|eligible|] == eligible;
    winners := Sorting.SortBy(winners, KeyFrom(button));
  }

  lemma {:induction false} NoneAbove(seats: seq<int>, ranks: Ranks, v: int)
    requires seats != []
    ensures WithRank(seats, ranks, v) != [] ==> v <= TopRank(seats, ranks)
  {
    TopRankIsTop(seats, ranks);
    WithRankMeans(seats, ranks, v);
    var w := WithRank(seats, ranks, v);
    if w != [] {
      var x := w[0];
      assert x in w;
      assert x in seats && HandRank(ranks, x) == v;
    }
  }

  lemma {:induction false} SomeWithTop(seats: seq<int>, ranks: Ranks)
    requires seats != []
    ensures BestSeats(seats, ranks) != []
  {
    TopRankIsTop(seats, ranks);
    WithRankMeans(seats, ranks, TopRank(seats, ranks));
    var s :| s in seats && HandRank(ranks, s) == TopRank(seats, ranks);
    assert s in WithRank(seats, ranks, TopRank(seats, ranks));
  }
}
