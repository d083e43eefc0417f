// Chips in a hand: what each movement keeps, from a single commitment to the final award.

module HandChips {
  import opened Pots
  import opened Payout
  import opened HandModel
  import opened HandRules

  // ---- players that differ in their chips and flags only -----------------------------------

  // The same person in the same seat, with the same cards and buy-in.
  predicate Kin(p: Player, q: Player) {
    p.seat == q.seat && p.startStack == q.startStack && p.hole0 == q.hole0 && p.hole1 == q.hole1
  }

  ghost predicate SameSeats(ps: seq<Player>, qs: seq<Player>) {
    |ps| == |qs| && forall i :: 0 <= i < |ps| ==> Kin(ps[i], qs[i])
  }

  // The same seats and buy-ins, whatever the cards.
  ghost predicate SeatsMatch(ps: seq<Player>, qs: seq<Player>) {
    |ps| == |qs| && forall i :: 0 <= i < |ps| ==> ps[i].seat == qs[i].seat && ps[i].startStack == qs[i].startStack
  }

  lemma {:induction false} SameSeatsMatch(ps: seq<Player>, qs: seq<Player>)
    requires SameSeats(ps, qs)
    ensures SeatsMatch(ps, qs)
  {
    forall i | 0 <= i < |ps| ensures ps[i].seat == qs[i].seat && ps[i].startStack == qs[i].startStack {
      assert Kin(ps[i], qs[i]);
    }
  }

  // Who is in, who has shown and who has won what stay the same.
  ghost predicate SameHands(ps: seq<Player>, qs: seq<Player>) {
    |ps| == |qs| && forall i :: 0 <= i < |ps| ==>
      ps[i].folded == qs[i].folded && ps[i].revealed == qs[i].revealed && ps[i].mucked == qs[i].mucked
        && ps[i].won == qs[i].won
  }

  // At least two players, in ascending seat order.
  ghost predicate Seating(ps: seq<Player>) {
    && |ps| >= 2
    && (forall i :: 0 <= i < |ps| ==> ps[i].seat >= 0)
    && (forall i, j :: 0 <= i < j < |ps| ==> ps[i].seat < ps[j].seat)
  }

  lemma {:induction false} SeatsMatchFind(ps: seq<Player>, qs: seq<Player>, seat: int, n: nat)
    requires SeatsMatch(ps, qs) && n <= |ps|
    ensures IndexOf(ps, seat, n) == IndexOf(qs, seat, n)
  {
    if n > 0 { SeatsMatchFind(ps, qs, seat, n - 1); }
  }

  lemma {:induction false} SameSeatsFind(ps: seq<Player>, qs: seq<Player>, seat: int, n: nat)
    requires SameSeats(ps, qs) && n <= |ps|
    ensures IndexOf(ps, seat, n) == IndexOf(qs, seat, n)
  {
    SameSeatsMatch(ps, qs);
    SeatsMatchFind(ps, qs, seat, n);
  }

  lemma {:induction false} SameSeatsSeating(ps: seq<Player>, qs: seq<Player>)
    requires SameSeats(ps, qs) && Seating(ps)
    ensures Seating(qs)
  {
    SameSeatsMatch(ps, qs);
  }

  lemma {:induction false} FindSeat(ps: seq<Player>, i: nat)
    requires Seating(ps) && i < |ps|
    ensures Find(ps, ps[i].seat) == i
  {
    IndexOfBound(ps, ps[i].seat, |ps|);
  }

  // ---- sums ------------------------------------------------------------------------------------

  // A player's chips, wherever they lie.
  function Worth(p: Player): int { p.stack + p.bet + p.committed }

  // TotalChips: stacks plus everything in front of players and in the pots.
  function TotalChips(ps: seq<Player>, n: nat): int
    requires n <= |ps|
  {
    if n == 0 then 0 else TotalChips(ps, n - 1) + Worth(ps[n - 1])
  }

  function StartChips(ps: seq<Player>, n: nat): int
    requires n <= |ps|
  {
    if n == 0 then 0 else StartChips(ps, n - 1) + ps[n - 1].startStack
  }

  function Stacks(ps: seq<Player>, n: nat): int
    requires n <= |ps|
  {
    if n == 0 then 0 else Stacks(ps, n - 1) + ps[n - 1].stack
  }

  lemma {:induction false} TotalPointwise(ps: seq<Player>, qs: seq<Player>, n: nat)
    requires |ps| == |qs| && n <= |ps|
    requires forall i :: 0 <= i < n ==> Worth(ps[i]) == Worth(qs[i])
    ensures TotalChips(ps, n) == TotalChips(qs, n)
  {
    if n > 0 { TotalPointwise(ps, qs, n - 1); }
  }

  lemma {:induction false} StartPointwise(ps: seq<Player>, qs: seq<Player>, n: nat)
    requires SeatsMatch(ps, qs) && n <= |ps|
    ensures StartChips(ps, n) == StartChips(qs, n)
  {
    if n > 0 { StartPointwise(ps, qs, n - 1); }
  }

  lemma {:induction false} TotalUpdate(ps: seq<Player>, i: nat, q: Player, n: nat)
    requires i < |ps| && n <= |ps|
    ensures TotalChips(ps[i := q], n) == TotalChips(ps, n) + if i < n then Worth(q) - Worth(ps[i]) else 0
  {
    if n > 0 { TotalUpdate(ps, i, q, n - 1); }
  }

  lemma {:induction false} StacksUpdate(ps: seq<Player>, i: nat, q: Player, n: nat)
    requires i < |ps| && n <= |ps|
    ensures Stacks(ps[i := q], n) == Stacks(ps, n) + if i < n then q.stack - ps[i].stack else 0
  {
    if n > 0 { StacksUpdate(ps, i, q, n - 1); }
  }

  // ---- counts ------------------------------------------------------------------------------------

  lemma {:induction false} LiveUpdate(ps: seq<Player>, i: nat, q: Player, n: nat)
    requires i < |ps| && n <= |ps|
    ensures LiveCount(ps[i := q], n) ==
            LiveCount(ps, n) + if i < n then (if q.folded then 0 else 1) - (if ps[i].folded then 0 else 1) else 0
  {
    if n > 0 { LiveUpdate(ps, i, q, n - 1); }
  }

  lemma {:induction false} LivePointwise(ps: seq<Player>, qs: seq<Player>, n: nat)
    requires |ps| == |qs| && n <= |ps|
    requires forall i :: 0 <= i < n ==> ps[i].folded == qs[i].folded
    ensures LiveCount(ps, n) == LiveCount(qs, n)
  {
    if n > 0 { LivePointwise(ps, qs, n - 1); }
  }

  lemma {:induction false} LastLiveIsLive(ps: seq<Player>, n: nat)
    requires n <= |ps|
    ensures LiveCount(ps, n) > 0 <==> LastLive(ps, n) >= 0
    ensures LastLive(ps, n) >= 0 ==> !ps[LastLive(ps, n)].folded
  {
    if n > 0 { LastLiveIsLive(ps, n - 1); }
  }

  // With one live player, that is the only one.
  lemma {:induction false} OneLive(ps: seq<Player>, n: nat)
    requires n <= |ps| && LiveCount(ps, n) <= 1
    ensures forall i :: 0 <= i < n && !ps[i].folded ==> i == LastLive(ps, n)
  {
    if n > 0 {
      if ps[n - 1].folded { OneLive(ps, n - 1); } else { NoneLive(ps, n - 1); }
    }
  }

  lemma {:induction false} NoneLive(ps: seq<Player>, n: nat)
    requires n <= |ps| && LiveCount(ps, n) == 0
    ensures forall i :: 0 <= i < n ==> ps[i].folded
  {
    if n > 0 { NoneLive(ps, n - 1); }
  }

  lemma {:induction false} SomeLive(ps: seq<Player>, i: nat, n: nat)
    requires i < n <= |ps| && !ps[i].folded
    ensures LiveCount(ps, n) >= 1
  {
    if i < n - 1 { SomeLive(ps, i, n - 1); }
  }

  lemma {:induction false} ActiveAtLeast(ps: seq<Player>, i: nat, n: nat)
    requires i < n <= |ps| && Active(ps[i])
    ensures ActiveCount(ps, n) >= 1
    ensures (exists j :: 0 <= j < n && j != i && Active(ps[j])) ==> ActiveCount(ps, n) >= 2
  {
    if i < n - 1 {
      ActiveAtLeast(ps, i, n - 1);
    } else if j :| 0 <= j < n && j != i && Active(ps[j]) {
      ActiveAtLeast(ps, j, n - 1);
    }
  }

  // ---- healthy chips -----------------------------------------------------------------------------

  // No negative amounts, and all-in means an empty stack.
  predicate Healthy(p: Player) {
    p.stack >= 0 && p.bet >= 0 && p.committed >= 0 && (p.allIn <==> p.stack == 0)
  }

  ghost predicate AllHealthy(ps: seq<Player>) {
    forall i :: 0 <= i < |ps| ==> Healthy(ps[i])
  }

  // Whoever can still act has bet no more than the price. (An all-in blind may stand above a
  // straddle that was posted in full below it.)
  ghost predicate ActiveWithin(ps: seq<Player>, currentBet: int) {
    forall i :: 0 <= i < |ps| && Active(ps[i]) ==> ps[i].bet <= currentBet
  }

  ghost predicate NoBets(ps: seq<Player>) {
    forall i :: 0 <= i < |ps| ==> ps[i].bet == 0
  }

  // ---- uncalled bets and collection ----------------------------------------------------------------

  lemma {:induction false} TopBettorIsTop(ps: seq<Player>, n: nat)
    requires 0 < n <= |ps|
    ensures forall i :: 0 <= i < n ==> ps[i].bet <= ps[TopBettor(ps, n)].bet
  {
    if n > 1 { TopBettorIsTop(ps, n - 1); }
  }

  lemma {:induction false} SecondBetIsSecond(ps: seq<Player>, top: nat, n: nat)
    requires n <= |ps|
    ensures SecondBet(ps, top, n) >= 0
    ensures forall i :: 0 <= i < n && i != top ==> ps[i].bet <= SecondBet(ps, top, n)
    ensures SecondBet(ps, top, n) == 0 || exists i :: 0 <= i < n && i != top && ps[i].bet == SecondBet(ps, top, n)
  {
    if n > 0 { SecondBetIsSecond(ps, top, n - 1); }
  }

  // What everyone else matched stays; the rest goes back.
  lemma {:induction false} ReturnedBets(s: State)
    requires |s.players| > 0 && AllHealthy(s.players)
    ensures var r := ReturnUncalled(s); var t := TopBettor(s.players, |s.players|);
            && SameSeats(s.players, r.players)
            && AllHealthy(r.players)
            && TotalChips(r.players, |r.players|) == TotalChips(s.players, |s.players|)
            && SameHands(s.players, r.players)
            && (forall i :: 0 <= i < |r.players| ==> r.players[i].committed == s.players[i].committed)
            && (forall i :: 0 <= i < |r.players| && i != t ==> r.players[i] == s.players[i])
            && r.players[t].bet == SecondBet(s.players, t, |s.players|)
            && (forall i :: 0 <= i < |r.players| ==> r.players[i].bet <= r.players[t].bet)
  {
    var n := |s.players|;
    var t := TopBettor(s.players, n);
    TopBettorIsTop(s.players, n);
    SecondBetIsSecond(s.players, t, n);
    var r := ReturnUncalled(s);
    if Uncalled(s.players) > 0 {
      TotalUpdate(s.players, t, r.players[t], n);
    }
  }

  // After CloseBets everything bet is in the pots, nothing is in front, and no chip is lost.
  lemma {:induction false} ClosedBets(s: State)
    requires |s.players| > 0 && AllHealthy(s.players)
    ensures var r := CloseBets(s);
            && SameSeats(s.players, r.players)
            && AllHealthy(r.players) && NoBets(r.players)
            && TotalChips(r.players, |r.players|) == TotalChips(s.players, |s.players|)
            && SameHands(s.players, r.players)
  {
    ReturnedBets(s);
    var s1 := ReturnUncalled(s);
    TotalPointwise(s1.players, Collected(s1.players), |s.players|);
    forall i | 0 <= i < |s.players| ensures Kin(s.players[i], CloseBets(s).players[i]) {
      assert Kin(s.players[i], s1.players[i]);
    }
  }

  // ---- the contributions behind the pots -------------------------------------------------------------

  lemma {:induction false} ContributionsFine(ps: seq<Player>)
    requires Seating(ps) && AllHealthy(ps)
    ensures NonNegative(Contributions(ps)) && DistinctSeats(Contributions(ps))
    ensures (exists i :: 0 <= i < |ps| && !ps[i].folded) ==> SomeoneLive(Contributions(ps))
  {
    var cs := Contributions(ps);
    forall i | 0 <= i < |cs| ensures cs[i].total >= 0 { assert Healthy(ps[i]); }
    if i :| 0 <= i < |ps| && !ps[i].folded { assert !cs[i].folded; }
  }

  function Committed(ps: seq<Player>, n: nat): int
    requires n <= |ps|
  {
    if n == 0 then 0 else Committed(ps, n - 1) + ps[n - 1].committed
  }

  lemma {:induction false} ContributedIsCommitted(ps: seq<Player>, n: nat)
    requires n <= |ps|
    ensures Contributed(Contributions(ps), n) == Committed(ps, n)
  {
    if n > 0 { ContributedIsCommitted(ps, n - 1); }
  }

  lemma {:induction false} TotalSplits(ps: seq<Player>, n: nat)
    requires n <= |ps| && NoBets(ps)
    ensures TotalChips(ps, n) == Stacks(ps, n) + Committed(ps, n)
  {
    if n > 0 { TotalSplits(ps, n - 1); }
  }

  // Every pot can be paid out: it holds chips and lists live seats of this hand.
  lemma {:induction false} PotsPayable(ps: seq<Player>)
    requires Seating(ps) && AllHealthy(ps) && LiveCount(ps, |ps|) >= 1
    ensures Payable(PotsOf(ps))
    ensures PotSum(PotsOf(ps)) == Committed(ps, |ps|)
    ensures forall k, seat :: 0 <= k < |PotsOf(ps)| && seat in PotsOf(ps)[k].eligible ==>
      Find(ps, seat) >= 0 && !ps[Find(ps, seat)].folded
  {
    var cs := Contributions(ps);
    ContributionsFine(ps);
    LastLiveIsLive(ps, |ps|);
    LayoutSums(cs);
    ContributedIsCommitted(ps, |ps|);
    forall k | 0 <= k < |PotsOf(ps)|
      ensures PotsOf(ps)[k].amount > 0 && PotsOf(ps)[k].eligible != []
      ensures forall seat :: seat in PotsOf(ps)[k].eligible ==> Find(ps, seat) >= 0 && !ps[Find(ps, seat)].folded
    {
      PotsWinnable(cs, k);
      forall seat | seat in PotsOf(ps)[k].eligible ensures Find(ps, seat) >= 0 && !ps[Find(ps, seat)].folded {
        assert LiveSeat(cs, seat);
        var i :| Contends(cs, i, 0) && cs[i].seat == seat;
        FindSeat(ps, i);
      }
    }
  }

  // ---- paying out ----------------------------------------------------------------------------------

  function Paid(p: Player, amount: int): Player {
    p.(stack := p.stack + amount, won := p.won + amount)
  }

  lemma {:induction false} CreditOne(ps: seq<Player>, seat: int, amount: int, i: nat)
    requires Seating(ps) && i < |ps|
    ensures Credit(ps, seat, amount)[i] == if ps[i].seat == seat then Paid(ps[i], amount) else ps[i]
  {
    if ps[i].seat == seat { FindSeat(ps, i); } else { IndexOfBound(ps, seat, |ps|); }
  }

  lemma {:induction false} CreditSeating(ps: seq<Player>, seat: int, amount: int)
    requires Seating(ps)
    ensures Seating(Credit(ps, seat, amount)) && SameSeats(ps, Credit(ps, seat, amount))
  {
    var qs := Credit(ps, seat, amount);
    forall i | 0 <= i < |ps| ensures Kin(ps[i], qs[i]) { CreditOne(ps, seat, amount, i); }
    SameSeatsSeating(ps, qs);
  }

  // Paying a list of shares gives each seat exactly what the list says.
  lemma {:induction false} PayGives(ps: seq<Player>, winners: seq<PotWinner>, i: nat)
    requires Seating(ps) && i < |ps|
    ensures Pay(ps, winners)[i] == Paid(ps[i], PaidTo(winners, ps[i].seat))
    ensures Seating(Pay(ps, winners))
    decreases |winners|
  {
    if winners != [] {
      var qs := Credit(ps, winners[0].seat, winners[0].amount);
      CreditOne(ps, winners[0].seat, winners[0].amount, i);
      CreditSeating(ps, winners[0].seat, winners[0].amount);
      PayGives(qs, winners[1..], i);
    }
  }

  lemma {:induction false} PayAllGives(ps: seq<Player>, awards: seq<PotAward>, i: nat)
    requires Seating(ps) && i < |ps|
    ensures PayAll(ps, awards)[i] == Paid(ps[i], WonBy(awards, ps[i].seat))
    ensures Seating(PayAll(ps, awards))
    decreases |awards|
  {
    if awards != [] {
      PayGives(ps, awards[0].winners, i);
      PayAllGives(Pay(ps, awards[0].winners), awards[1..], i);
    }
  }

  // Every share goes to somebody in the hand and the shares make up the award.
  ghost predicate Honest(ps: seq<Player>, award: PotAward) {
    && Total(award.winners) == award.amount
    && forall j :: 0 <= j < |award.winners| ==> Find(ps, award.winners[j].seat) >= 0
  }

  ghost predicate AllHonest(ps: seq<Player>, awards: seq<PotAward>) {
    forall k :: 0 <= k < |awards| ==> Honest(ps, awards[k])
  }

  lemma {:induction false} HonestAward(ps: seq<Player>, index: nat, pot: Pot, amount: int, ranks: Ranks, button: int,
        board: nat)
    requires amount >= 0 && pot.eligible != []
    requires forall seat :: seat in pot.eligible ==> Find(ps, seat) >= 0
    ensures Honest(ps, Award(index, pot, amount, ranks, button, board))
  {
    var winners := Winners(pot, ranks, button);
    WinnersAreBest(pot, ranks, button);
    SharesAreFair(winners, amount);
    TotalIsPaidOut(Shares(winners, amount));
    forall j | 0 <= j < |winners| ensures Find(ps, Shares(winners, amount)[j].seat) >= 0 {
      assert winners[j] in winners;
    }
  }

  lemma {:induction false} PotHonest(ps: seq<Player>, index: nat, pot: Pot, r1: Ranks, r2: Ranks, button: int)
    requires pot.amount >= 0 && pot.eligible != []
    requires forall seat :: seat in pot.eligible ==> Find(ps, seat) >= 0
    ensures Honest(ps, Award(index, pot, pot.amount, r1, button, 0))
    ensures Honest(ps, Award(index, pot, pot.amount - pot.amount / 2, r1, button, 1))
    ensures Honest(ps, Award(index, pot, pot.amount / 2, r2, button, 2))
  {
    HonestAward(ps, index, pot, pot.amount, r1, button, 0);
    HonestAward(ps, index, pot, pot.amount - pot.amount / 2, r1, button, 1);
    HonestAward(ps, index, pot, pot.amount / 2, r2, button, 2);
  }

  lemma {:induction false} AwardsHonest(ps: seq<Player>, pots: seq<Pot>, first: nat, r1: Ranks, r2: Ranks, twice: bool,
        button: int)
    requires Payable(pots)
    requires forall k, seat :: 0 <= k < |pots| && seat in pots[k].eligible ==> Find(ps, seat) >= 0
    ensures AllHonest(ps, Awards(pots, first, r1, r2, twice, button))
    decreases |pots|
  {
    if pots != [] {
      PotHonest(ps, first, pots[0], r1, r2, button);
      forall k, seat | 0 <= k < |pots[1..]| && seat in pots[1..][k].eligible ensures Find(ps, seat) >= 0 {
        assert pots[1..][k] == pots[k + 1];
      }
      AwardsHonest(ps, pots[1..], first + 1, r1, r2, twice, button);
    }
  }

  lemma {:induction false} SoleAwardsHonest(ps: seq<Player>, pots: seq<Pot>, first: nat, seat: int)
    requires Find(ps, seat) >= 0
    ensures AllHonest(ps, SoleAwards(pots, first, seat))
    ensures AwardSum(SoleAwards(pots, first, seat)) == PotSum(pots)
    decreases |pots|
  {
    if pots != [] {
      SoleAwardsHonest(ps, pots[1..], first + 1, seat);
      var w := [PotWinner(seat, pots[0].amount)];
      assert w[1..] == [];
      assert Honest(ps, SoleAwards(pots, first, seat)[0]);
    }
  }

  lemma {:induction false} PaySum(ps: seq<Player>, winners: seq<PotWinner>)
    requires forall j :: 0 <= j < |winners| ==> Find(ps, winners[j].seat) >= 0
    ensures Stacks(Pay(ps, winners), |ps|) == Stacks(ps, |ps|) + Total(winners)
    ensures SameSeats(ps, Pay(ps, winners))
    decreases |winners|
  {
    if winners != [] {
      var i := Find(ps, winners[0].seat);
      var qs := Credit(ps, winners[0].seat, winners[0].amount);
      StacksUpdate(ps, i, qs[i], |ps|);
      assert SameSeats(ps, qs);
      forall j | 0 <= j < |winners[1..]| ensures Find(qs, winners[1..][j].seat) >= 0 {
        SameSeatsFind(ps, qs, winners[j + 1].seat, |ps|);
      }
      PaySum(qs, winners[1..]);
      forall k | 0 <= k < |ps| ensures Kin(ps[k], Pay(ps, winners)[k]) {
        assert Kin(ps[k], qs[k]) && Kin(qs[k], Pay(ps, winners)[k]);
      }
    } else {
      assert forall k :: 0 <= k < |ps| ==> Kin(ps[k], ps[k]);
    }
  }

  // No chip is made or lost by paying honest awards.
  lemma {:induction false} PayAllSum(ps: seq<Player>, awards: seq<PotAward>)
    requires AllHonest(ps, awards)
    ensures Stacks(PayAll(ps, awards), |ps|) == Stacks(ps, |ps|) + AwardSum(awards)
    ensures SameSeats(ps, PayAll(ps, awards))
    decreases |awards|
  {
    if awards != [] {
      assert Honest(ps, awards[0]);
      var qs := Pay(ps, awards[0].winners);
      PaySum(ps, awards[0].winners);
      forall k | 0 <= k < |awards[1..]| ensures Honest(qs, awards[1..][k]) {
        assert Honest(ps, awards[k + 1]);
        var winners := awards[k + 1].winners;
        forall j | 0 <= j < |winners| ensures Find(qs, winners[j].seat) >= 0 {
          SameSeatsFind(ps, qs, winners[j].seat, |ps|);
        }
      }
      PayAllSum(qs, awards[1..]);
      forall k | 0 <= k < |ps| ensures Kin(ps[k], PayAll(ps, awards)[k]) {
        assert Kin(ps[k], qs[k]) && Kin(qs[k], PayAll(ps, awards)[k]);
      }
    } else {
      assert forall k :: 0 <= k < |ps| ==> Kin(ps[k], ps[k]);
    }
  }
}
