// Who is paid, over every run: at a contested result the pots go to the best hands that were
// dealt, in even shares; an uncontested one goes to the player left.

module HandPayout {
  import opened Cards
  import opened Pots
  import opened Payout
  import opened HandModel
  import opened HandRules
  import opened HandChips
  import opened HandInvariant
  import opened HandStart
  import opened HandRuns
  import opened HandShowdown
  import opened HandDealing

  // The strength of the seat's hole cards with the board.
  function SeatStrength(ps: seq<Player>, seat: int, board: seq<Card>): int {
    var i := Find(ps, seat);
    if i < 0 then 0 else Strength(ps[i], board)
  }

  // The seat can win the pot, and nobody who can has a better hand on the board.
  ghost predicate BestHand(ps: seq<Player>, pot: Pot, board: seq<Card>, seat: int) {
    && seat in pot.eligible
    && forall q :: q in pot.eligible ==> SeatStrength(ps, q, board) <= SeatStrength(ps, seat, board)
  }

  function PaidSeats(winners: seq<PotWinner>): (r: seq<int>)
    ensures |r| == |winners|
  {
    seq(|winners|, i requires 0 <= i < |winners| => winners[i].seat)
  }

  // The amount is paid out in shares that differ by at most one chip, the larger ones first.
  ghost predicate EvenShares(winners: seq<PotWinner>, amount: int) {
    && PaidOut(winners, |winners|) == amount
    && forall i, j :: 0 <= i < j < |winners| ==> winners[j].amount <= winners[i].amount <= winners[j].amount + 1
  }

  function AwardBoard(d: Deal, a: PotAward): seq<Card> { if a.board == 2 then d.board2 else d.board }

  // On two boards the first takes the odd chip.
  function AwardAmount(pot: Pot, board: nat): int {
    if board == 0 then pot.amount else if board == 1 then pot.amount - pot.amount / 2 else pot.amount / 2
  }

  // The award pays its part of its pot to exactly the best hands, from left of the button.
  ghost predicate JustAward(ps: seq<Player>, pots: seq<Pot>, d: Deal, button: int, a: PotAward) {
    && a.index < |pots| && |AwardBoard(d, a)| == 5 && (if d.runTwice then 1 <= a.board <= 2 else a.board == 0)
    && var pot := pots[a.index];
       && a.amount == AwardAmount(pot, a.board)
       && (forall seat :: seat in PaidSeats(a.winners) <==> BestHand(ps, pot, AwardBoard(d, a), seat))
       && (CloseTogether(pot.eligible, button) ==> GoesRound(PaidSeats(a.winners), button))
       && EvenShares(a.winners, a.amount)
  }

  ghost predicate JustAwards(r: State)
    requires r.results.Results?
  {
    && (forall a :: a in r.results.pots ==> JustAward(r.players, r.finalPots, r.deal, r.cfg.button, a))
    && AwardSum(r.results.pots) == PotSum(r.finalPots)
  }

  // Every pot goes whole to the one seat.
  ghost predicate AllTo(r: State, seat: int)
    requires r.results.Results?
  {
    && |r.results.pots| == |r.finalPots|
    && forall k :: 0 <= k < |r.finalPots| ==>
         r.results.pots[k] == PotAward(k, r.finalPots[k].amount, [PotWinner(seat, r.finalPots[k].amount)], 0)
  }

  ghost predicate JustlyPaid(r: State) {
    && r.results.Results?
    && if LiveCount(r.players, |r.players|) == 1 then
         exists w :: 0 <= w < |r.players| && !r.players[w].folded && AllTo(r, r.players[w].seat)
       else JustAwards(r)
  }

  ghost predicate Just(r: State) { r.phase == Result ==> JustlyPaid(r) }

  // ---- one award ----------------------------------------------------------------------------------------

  lemma {:induction false} BestByRank(ps: seq<Player>, pot: Pot, board: seq<Card>, seat: int)
    requires Seating(ps) && forall q :: q in pot.eligible ==>
      exists i :: 0 <= i < |ps| && ps[i].seat == q && !ps[i].folded
    requires seat in pot.eligible
    ensures var ranks := RanksOf(ps, board, |ps|);
            BestHand(ps, pot, board, seat) <==> forall q :: q in pot.eligible ==>
              HandRank(ranks, q) <= HandRank(ranks, seat)
  {
    var ranks := RanksOf(ps, board, |ps|);
    forall q | q in pot.eligible ensures HandRank(ranks, q) == SeatStrength(ps, q, board) {
      var i :| 0 <= i < |ps| && ps[i].seat == q && !ps[i].folded;
      RanksGive(ps, board, i, |ps|);
      FindSeat(ps, i);
    }
  }

  lemma {:induction false} WinnersHaveBest(ps: seq<Player>, pot: Pot, board: seq<Card>, button: int)
    requires Seating(ps) && pot.eligible != []
    requires forall q :: q in pot.eligible ==> exists i :: 0 <= i < |ps| && ps[i].seat == q && !ps[i].folded
    ensures var w := Winners(pot, RanksOf(ps, board, |ps|), button);
            w != [] && forall seat :: seat in w <==> BestHand(ps, pot, board, seat)
  {
    var ranks := RanksOf(ps, board, |ps|);
    WinnersAreBest(pot, ranks, button);
    forall seat ensures seat in Winners(pot, ranks, button) <==> BestHand(ps, pot, board, seat) {
      if seat in pot.eligible { BestByRank(ps, pot, board, seat); }
    }
  }

  lemma {:induction false} WinnersGoRound(pot: Pot, ranks: Ranks, button: int)
    requires CloseTogether(pot.eligible, button) && pot.eligible != []
    ensures GoesRound(Winners(pot, ranks, button), button)
  {
    WithRankMeans(pot.eligible, ranks, TopRank(pot.eligible, ranks));
    ClockwiseGoesRound(BestSeats(pot.eligible, ranks), button);
  }

  lemma {:induction false} SharesAreEven(winners: seq<int>, amount: int)
    requires amount >= 0 && winners != []
    ensures EvenShares(Shares(winners, amount), amount) && PaidSeats(Shares(winners, amount)) == winners
  {
    SharesAreFair(winners, amount);
  }

  lemma {:induction false} AwardIsJust(ps: seq<Player>, pots: seq<Pot>, k: nat, d: Deal, button: int, board: nat)
    requires Seating(ps) && k < |pots| && pots[k].eligible != [] && pots[k].amount > 0
    requires forall q :: q in pots[k].eligible ==> exists i :: 0 <= i < |ps| && ps[i].seat == q && !ps[i].folded
    requires if d.runTwice then 1 <= board <= 2 else board == 0
    requires |d.board| == 5 && (d.runTwice ==> |d.board2| == 5)
    ensures var b := if board == 2 then d.board2 else d.board;
            var amount := AwardAmount(pots[k], board);
            JustAward(ps, pots, d, button, Award(k, pots[k], amount, RanksOf(ps, b, |ps|), button, board))
  {
    var b := if board == 2 then d.board2 else d.board;
    var ranks := RanksOf(ps, b, |ps|);
    WinnersHaveBest(ps, pots[k], b, button);
    SharesAreEven(Winners(pots[k], ranks, button), AwardAmount(pots[k], board));
    if CloseTogether(pots[k].eligible, button) { WinnersGoRound(pots[k], ranks, button); }
  }

  // Every award of a list of pots is one of the awards of some pot.
  lemma {:induction false} AwardOfPot(pots: seq<Pot>, first: nat, ranks: Ranks, ranks2: Ranks, twice: bool,
        button: int, a: PotAward)
    requires a in Awards(pots, first, ranks, ranks2, twice, button)
    ensures first <= a.index < first + |pots|
    ensures a in PotAwards(a.index, pots[a.index - first], ranks, ranks2, twice, button)
    decreases |pots|
  {
    if a !in PotAwards(first, pots[0], ranks, ranks2, twice, button) {
      AwardOfPot(pots[1..], first + 1, ranks, ranks2, twice, button, a);
      assert pots[1..][a.index - first - 1] == pots[a.index - first];
    }
  }

  lemma {:induction false} PotAwardsAreJust(ps: seq<Player>, pots: seq<Pot>, k: nat, d: Deal, button: int, a: PotAward)
    requires Seating(ps) && k < |pots| && pots[k].eligible != [] && pots[k].amount > 0
    requires forall q :: q in pots[k].eligible ==> exists i :: 0 <= i < |ps| && ps[i].seat == q && !ps[i].folded
    requires |d.board| == 5 && (d.runTwice ==> |d.board2| == 5)
    requires var r2 := if d.runTwice then RanksOf(ps, d.board2, |ps|) else map[];
             a in PotAwards(k, pots[k], RanksOf(ps, d.board, |ps|), r2, d.runTwice, button)
    ensures JustAward(ps, pots, d, button, a)
  {
    if d.runTwice {
      AwardIsJust(ps, pots, k, d, button, 1);
      AwardIsJust(ps, pots, k, d, button, 2);
    } else {
      AwardIsJust(ps, pots, k, d, button, 0);
    }
  }

  // ---- the end of a hand ------------------------------------------------------------------------------------

  ghost predicate Complete(d: Deal) { |d.board| == 5 && (d.runTwice ==> |d.board2| == 5) }

  lemma {:induction false} FinalAwardsAreJust(s: State, a: PotAward)
    requires Seating(s.players) && AllHealthy(s.players) && LiveCount(s.players, |s.players|) >= 1 && Complete(s.deal)
    requires a in FinalAwards(s)
    ensures JustAward(s.players, PotsOf(s.players), s.deal, s.cfg.button, a)
  {
    var ps := s.players;
    var pots := PotsOf(ps);
    PotsPayable(ps);
    AwardOfPot(pots, 0, BoardRanks(s), BoardRanks2(s), s.deal.runTwice, s.cfg.button, a);
    forall q | q in pots[a.index].eligible ensures exists i :: 0 <= i < |ps| && ps[i].seat == q && !ps[i].folded {
      var i := Find(ps, q);
      IndexOfBound(ps, q, |ps|);
      assert ps[i].seat == q && !ps[i].folded;
    }
    PotAwardsAreJust(ps, pots, a.index, s.deal, s.cfg.button, a);
  }

  // The same cards in the same seats have the same strength.
  lemma {:induction false} SameJustice(ps: seq<Player>, qs: seq<Player>, pots: seq<Pot>, d: Deal, button: int,
        a: PotAward)
    requires SameSeats(ps, qs) && JustAward(ps, pots, d, button, a)
    ensures JustAward(qs, pots, d, button, a)
  {
    var board := AwardBoard(d, a);
    forall seat ensures SeatStrength(qs, seat, board) == SeatStrength(ps, seat, board) {
      SameSeatsFind(ps, qs, seat, |ps|);
      var i := Find(ps, seat);
      if i >= 0 { assert Kin(ps[i], qs[i]); }
    }
  }

  lemma {:induction false} AwardPotsJust(s: State)
    requires Sound(s) && AllHealthy(s.players) && NoBets(s.players) && LiveCount(s.players, |s.players|) >= 2
      && Complete(s.deal)
    ensures Just(AwardPots(s))
  {
    var r := AwardPots(s);
    AwardPotsKeeps(s);
    AwardPotsDeal(s);
    forall i | 0 <= i < |s.players|
      ensures r.players[i].folded == s.players[i].folded && r.finalPots == PotsOf(s.players)
    {
      AwardedPlayers(s, i);
    }
    LivePointwise(s.players, r.players, |s.players|);
    PotsPayable(s.players);
    AwardsSum(PotsOf(s.players), 0, BoardRanks(s), BoardRanks2(s), s.deal.runTwice, s.cfg.button);
    assert r.results.pots == FinalAwards(s) && r.finalPots == PotsOf(s.players);
    forall a | a in r.results.pots ensures JustAward(r.players, r.finalPots, r.deal, r.cfg.button, a) {
      FinalAwardsAreJust(s, a);
      SameJustice(s.players, r.players, r.finalPots, r.deal, r.cfg.button, a);
    }
  }

  lemma {:induction false} SoleAwardsAre(pots: seq<Pot>, first: nat, seat: int, k: nat)
    requires k < |pots|
    ensures var a := SoleAwards(pots, first, seat);
            |a| == |pots| && a[k] == PotAward(first + k, pots[k].amount, [PotWinner(seat, pots[k].amount)], 0)
    decreases |pots|
  {
    if |pots| > 1 { SoleAwardsAre(pots[1..], first + 1, seat, if k > 0 then k - 1 else 0); }
  }

  lemma {:induction false} SoleJust(s: State, winner: nat)
    requires Sound(s) && AllHealthy(s.players) && winner < |s.players|
    requires LiveCount(s.players, |s.players|) == 1 && !s.players[winner].folded
    ensures Just(FinishUncontested(s, winner))
  {
    var r := FinishUncontested(s, winner);
    var s1 := CloseBets(s);
    var pots := PotsOf(s1.players);
    var seat := s.players[winner].seat;
    var awards := SoleAwards(pots, 0, seat);
    ClosedBets(s);
    SameSeatsSeating(s.players, s1.players);
    forall i | 0 <= i < |s.players|
      ensures r.players[i].folded == s.players[i].folded && r.players[i].seat == s.players[i].seat
    {
      PayAllGives(s1.players, awards, i);
      assert Kin(s.players[i], s1.players[i]);
    }
    PayAllGives(s1.players, awards, winner);
    LivePointwise(s.players, r.players, |s.players|);
    forall k | 0 <= k < |pots|
      ensures |awards| == |pots| && awards[k] == PotAward(k, pots[k].amount, [PotWinner(seat, pots[k].amount)], 0)
    {
      SoleAwardsAre(pots, 0, seat, k);
    }
    assert r.results.pots == awards && r.finalPots == pots;
    assert AllTo(r, r.players[winner].seat);
  }

  // ---- every step ---------------------------------------------------------------------------------------------

  lemma {:induction false} ToShowdownJust(s: State)
    requires Sound(s) && Contested(s) && Complete(s.deal)
    ensures Just(ToShowdown(s))
  {
    var s1 := s.(round := s.round.(toAct := -1));
    LineageSelf(s, s1);
    SoundCarries(s, s1);
    AwardPotsJust(s1);
  }

  lemma {:induction false} EndStreetJust(s: State)
    requires Playing(s) && LiveCount(s.players, |s.players|) >= 2 && (s.deal.street == RIVER ==> Complete(s.deal))
    ensures Just(EndStreet(s))
  {
    CloseBetsKeeps(s);
    var s1 := CloseBets(s).(round := CloseBets(s).round.(toAct := -1));
    LineageSelf(CloseBets(s), s1);
    SoundCarries(CloseBets(s), s1);
    if s1.deal.street == RIVER { ToShowdownJust(s1); }
  }

  lemma {:induction false} SettleJust(s: State, from: nat, inclusive: bool)
    requires Playing(s) && from < |s.players| && (s.deal.street == RIVER ==> Complete(s.deal))
    ensures Just(Settle(s, from, inclusive))
  {
    var n := |s.players|;
    LastLiveIsLive(s.players, n);
    if LiveCount(s.players, n) == 1 {
      SoleJust(s, LastLive(s.players, n));
    } else if RoundComplete(s.players, s.round.currentBet) {
      EndStreetJust(s);
    }
  }

  lemma {:induction false} ForfeitJust(s: State, seat: int)
    requires Inv(s) && (s.deal.street == RIVER ==> Complete(s.deal)) && Forfeit(s, seat).Done?
    ensures Just(Forfeit(s, seat).state)
  {
    var n := |s.players|;
    var i := Find(s.players, seat);
    var s1 := AfterForfeit(s, i);
    AfterForfeitFacts(s, i);
    LastLiveIsLive(s1.players, n);
    if LiveCount(s1.players, n) == 1 {
      var s2 := s1.(phase := Betting);
      LineageSelf(s1, s2);
      SoundCarries(s1, s2);
      SoleJust(s2, LastLive(s1.players, n));
    } else if s.phase == Betting {
      if s.round.toAct == i { SettleJust(s1, i, false); }
      else if RoundComplete(s1.players, s1.round.currentBet) { EndStreetJust(s1); }
    }
  }

  lemma {:induction false} AdvanceJust(s: State)
    requires Inv(s) && Advance(s).Done?
    requires var d := NextDeal(s.deal); d.street == RIVER ==> Complete(d)
    ensures Just(Advance(s).state)
  {
    var s1 := DealStreet(s);
    LineageSelf(s, s1);
    SoundCarries(s, s1);
    if s.runout {
      if s1.deal.street == RIVER { ToShowdownJust(s1); }
    } else {
      NewRoundKeeps(s1);
      SettleJust(NewRound(s1), Next(ButtonIndex(s.cfg, s.players), |s.players|), true);
    }
  }

  lemma {:induction false} RevealStepJust(s: State, show: bool)
    requires Inv(s) && s.phase == Showdown && Complete(s.deal)
    requires s.show.idx < |s.show.order| && s.show.order[s.show.idx] < |s.players|
    ensures Just(RevealStep(s, show))
  {
    var s0 := Called(s);
    LineageSelf(s, s0);
    SoundCarries(s, s0);
    TurnedKeeps(s0, s.show.order[s.show.idx], show);
    AwardPotsJust(Turned(s0, s.show.order[s.show.idx], show));
  }

  lemma {:induction false} RevealNextJust(s: State)
    requires Inv(s) && Complete(s.deal) && RevealNext(s).Done?
    ensures Just(RevealNext(s).state)
  {
    RevealStepJust(s, true);
    RevealStepJust(s, false);
  }

  lemma {:induction false} RiverComplete(s: State, k: nat)
    requires DealtFrom(s, k)
    ensures s.deal.street >= RIVER ==> Complete(s.deal)
  {
  }

  lemma {:induction false} StepJust(s: State, c: Command, k: nat)
    requires Inv(s) && DealtFrom(s, k) && Just(s)
    ensures Just(After(s, c))
  {
    if Step(s, c).Done? {
      RiverComplete(s, k);
      match c
      case DoApply(seat, a) =>
        var m := Perform(s.cfg, s.round, s.players[s.round.toAct], a);
        AfterMoveKeeps(s, a);
        SettleJust(AfterMove(s, m.player, m.round, m.kind), s.round.toAct, false);
      case DoTimeout(seat) =>
        TimedOutPlaying(s);
        SettleJust(AfterTimeout(s), s.round.toAct, false);
      case DoForfeit(seat) => ForfeitJust(s, seat);
      case DoAdvance =>
        StreetIsDealt(s, k);
        RiverComplete(DealStreet(s), SharedAfter(s, k, DealStreet(s)));
        AdvanceJust(s);
      case DoRunItTwice =>
      case DoRevealNext => RevealNextJust(s);
    }
  }

  lemma {:induction false} RunJust(s: State, cs: seq<Command>)
    requires Inv(s) && DealtFrom(s, |s.deal.board|) && Just(s)
    ensures Just(Run(s, cs))
    decreases |cs|
  {
    if cs != [] {
      var init := cs[..|cs| - 1];
      RunJust(s, init);
      RunDealt(s, init);
      StepJust(Run(s, init), cs[|cs| - 1], Shared(s, init));
    }
  }

  lemma {:induction false} NewHandJust(cfg: Config, seats: seq<Seat>, shuffled: seq<Card>)
    requires SaneConfig(cfg, seats) && NewHand(cfg, seats, shuffled).Done?
    ensures Just(NewHand(cfg, seats, shuffled).state)
  {
    NewHandAccepts(cfg, seats, shuffled);
    OpenedWell(cfg, seats, shuffled);
    var s := Opened(cfg, seats, shuffled);
    var b := ButtonIndex(cfg, Seated(cfg, seats));
    DealHolesKeeps(s, b);
    SettleJust(DealHoles(s, b), FirstToAct(DealHoles(s, b), b), true);
  }

  // In every run: once the hand is over, either one player was left, and every pot went to them
  // whole; or every award went to exactly the players who could win its pot and held the best
  // five cards with its board, from left of the button, in even shares with the odd chips first,
  // and all awards together are all pots.
  lemma {:induction false} BestHandsArePaid(cfg: Config, seats: seq<Seat>, shuffled: seq<Card>, cs: seq<Command>)
    requires SaneConfig(cfg, seats) && NewHand(cfg, seats, shuffled).Done?
    ensures var r := Run(NewHand(cfg, seats, shuffled).state, cs); r.phase == Result ==> JustlyPaid(r)
  {
    NewHandStarts(cfg, seats, shuffled);
    NewHandDealt(cfg, seats, shuffled);
    NewHandJust(cfg, seats, shuffled);
    RunJust(NewHand(cfg, seats, shuffled).state, cs);
  }
}
