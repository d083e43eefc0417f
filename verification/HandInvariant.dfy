// What every step of a hand keeps: healthy chips, the levels of the betting round, somebody to
// act while betting is on, and the total number of chips.

module HandInvariant {
  import opened Pots
  import opened Payout
  import opened HandModel
  import opened HandRules
  import opened HandChips

  // ---- the invariant --------------------------------------------------------------------------

  ghost predicate Sound(s: State) {
    && Seating(s.players)
    && s.cfg.bigBlind >= 1
    && ButtonIndex(s.cfg, s.players) >= 0
    && TotalChips(s.players, |s.players|) == StartChips(s.players, |s.players|)
    && -1 <= s.round.aggressor < |s.players|
    && PREFLOP <= s.deal.street <= RIVER
  }

  ghost predicate PriceLevels(s: State) {
    && 0 <= s.round.fullLevel <= s.round.currentBet
    && s.round.raiseSize >= 1
    && (s.round.currentBet == 0 ==> s.round.raiseSize == s.cfg.bigBlind)
    && ActiveWithin(s.players, s.round.currentBet)
  }

  // A betting round in which it is not yet settled who is to act.
  ghost predicate Playing(s: State) {
    && Sound(s) && s.phase == Betting && !s.runout && !s.deal.runTwice
    && AllHealthy(s.players)
    && PriceLevels(s)
    && LiveCount(s.players, |s.players|) >= 1
  }

  // Somebody still owes an action, and it is their turn.
  ghost predicate SomeoneToAct(s: State) {
    && 0 <= s.round.toAct < |s.players|
    && NeedsToAct(s.players[s.round.toAct], s.round.currentBet)
    && !RoundComplete(s.players, s.round.currentBet)
  }

  ghost predicate Contested(s: State) {
    AllHealthy(s.players) && NoBets(s.players) && LiveCount(s.players, |s.players|) >= 2
  }

  ghost predicate AllShown(ps: seq<Player>) {
    forall i :: 0 <= i < |ps| && !ps[i].folded ==> ps[i].revealed
  }

  // All chips are back in the stacks, and the results say so.
  ghost predicate PaidUp(s: State) {
    && NoBets(s.players)
    && (forall i :: 0 <= i < |s.players| ==> s.players[i].committed == 0 && s.players[i].stack >= 0)
    && s.results.Results? && |s.results.seats| == |s.players|
    && forall i :: 0 <= i < |s.players| ==>
         var r := s.results.seats[i]; var p := s.players[i];
         && r.seat == p.seat && r.endStack == p.stack && r.startStack == p.startStack
         && r.net == p.stack - p.startStack && r.won == p.won
         && r.folded == p.folded && r.allIn == p.allIn && r.revealed == p.revealed
  }

  ghost predicate Inv(s: State) {
    && Sound(s)
    && match s.phase
       case Betting => Playing(s) && LiveCount(s.players, |s.players|) >= 2 && SomeoneToAct(s)
       case DealPending => Contested(s) && s.deal.street < RIVER && (s.runout ==> AllShown(s.players))
         && (s.deal.runTwice ==> s.runout)
       case Showdown =>
         && Contested(s) && s.deal.street == RIVER && !s.deal.runTwice
         && s.show.order == ShowdownOrder(s) && s.show.idx < |s.show.order|
       case Result => PaidUp(s)
  }

  // The same hand later on: the same people with the same cards, and a longer log.
  ghost predicate Lineage(s: State, r: State) {
    r.cfg == s.cfg && SameSeats(s.players, r.players) && s.log <= r.log
  }

  lemma {:induction false} LineageSelf(s: State, r: State)
    requires r.cfg == s.cfg && r.players == s.players && s.log <= r.log
    ensures Lineage(s, r)
  {
    forall i | 0 <= i < |s.players| ensures Kin(s.players[i], r.players[i]) { }
  }

  lemma {:induction false} LineageOn(a: State, b: State, c: State)
    requires Lineage(a, b) && Lineage(b, c)
    ensures Lineage(a, c)
  {
    forall i | 0 <= i < |a.players| ensures Kin(a.players[i], c.players[i]) {
      assert Kin(a.players[i], b.players[i]) && Kin(b.players[i], c.players[i]);
    }
  }

  // ---- frames ----------------------------------------------------------------------------------

  // Sound carries over to players in the same seats with the same total.
  lemma {:induction false} SoundFrom(s: State, r: State)
    requires Sound(s) && SeatsMatch(s.players, r.players)
    requires TotalChips(r.players, |r.players|) == TotalChips(s.players, |s.players|)
    requires r.cfg == s.cfg && -1 <= r.round.aggressor < |r.players| && PREFLOP <= r.deal.street <= RIVER
    ensures Sound(r)
  {
    SeatsMatchFind(s.players, r.players, s.cfg.button, |s.players|);
    StartPointwise(s.players, r.players, |s.players|);
  }

  lemma {:induction false} SoundCarries(s: State, r: State)
    requires Sound(s) && SameSeats(s.players, r.players)
    requires TotalChips(r.players, |r.players|) == TotalChips(s.players, |s.players|)
    requires r.cfg == s.cfg && -1 <= r.round.aggressor < |r.players| && PREFLOP <= r.deal.street <= RIVER
    ensures Sound(r)
  {
    SameSeatsMatch(s.players, r.players);
    SoundFrom(s, r);
  }

  // One player's chips move; the others are untouched.
  lemma {:induction false} SoundUpdate(s: State, i: nat, q: Player, r: State)
    requires Sound(s) && i < |s.players| && Kin(s.players[i], q) && Worth(q) == Worth(s.players[i])
    requires r.players == s.players[i := q]
    requires r.cfg == s.cfg && -1 <= r.round.aggressor < |r.players| && PREFLOP <= r.deal.street <= RIVER
    ensures Sound(r)
  {
    TotalUpdate(s.players, i, q, |s.players|);
    assert SameSeats(s.players, r.players);
    SoundCarries(s, r);
  }

  // ---- the end of a hand -------------------------------------------------------------------------

  lemma {:induction false} FinishKeeps(s: State, awards: seq<PotAward>, pots: seq<Pot>)
    requires Sound(s) && AllHealthy(s.players) && NoBets(s.players)
    requires AllHonest(s.players, awards) && AwardSum(awards) == Committed(s.players, |s.players|)
    requires forall i :: 0 <= i < |s.players| ==> WonBy(awards, s.players[i].seat) >= 0
    ensures var r := Finish(PayOut(s, awards), awards, pots);
            && Inv(r) && r.phase == Result && r.log == s.log + AllAwardEvents(awards) + [HandEnded(r.results)]
            && Lineage(s, r)
  {
    var n := |s.players|;
    var paid := PayAll(s.players, awards);
    var r := Finish(PayOut(s, awards), awards, pots);
    PayAllSum(s.players, awards);
    forall i | 0 <= i < n
      ensures r.players[i] == Paid(s.players[i], WonBy(awards, s.players[i].seat)).(committed := 0)
      ensures Kin(s.players[i], r.players[i])
    {
      PayAllGives(s.players, awards, i);
    }
    TotalSplits(s.players, n);
    StacksOnly(r.players, paid, n);
    SoundCarries(s, r);
  }

  lemma {:induction false} StacksOnly(rs: seq<Player>, ps: seq<Player>, n: nat)
    requires |rs| == |ps| && n <= |ps|
    requires forall i :: 0 <= i < n ==> rs[i].stack == ps[i].stack && rs[i].bet == 0 && rs[i].committed == 0
    ensures TotalChips(rs, n) == Stacks(ps, n)
  {
    if n > 0 { StacksOnly(rs, ps, n - 1); }
  }

  lemma {:induction false} SoleAwardsPay(pots: seq<Pot>, first: nat, winner: int, seat: int)
    requires forall k :: 0 <= k < |pots| ==> pots[k].amount >= 0
    ensures WonBy(SoleAwards(pots, first, winner), seat) == if seat == winner then PotSum(pots) else 0
    decreases |pots|
  {
    if pots != [] {
      SoleAwardsPay(pots[1..], first + 1, winner, seat);
      var w := [PotWinner(winner, pots[0].amount)];
      assert w[1..] == [] && PaidTo([], seat) == 0;
    }
  }

  lemma {:induction false} PotSumNonNegative(pots: seq<Pot>)
    requires forall k :: 0 <= k < |pots| ==> pots[k].amount >= 0
    ensures PotSum(pots) >= 0
  {
    if pots != [] { PotSumNonNegative(pots[1..]); }
  }

  // The sole winner's awards are payable and make up the pots.
  lemma {:induction false} SoleFacts(s: State, winner: nat)
    requires Seating(s.players) && AllHealthy(s.players) && winner < |s.players| && !s.players[winner].folded
    ensures var awards := SoleAwards(PotsOf(s.players), 0, s.players[winner].seat);
            && AllHonest(s.players, awards) && AwardSum(awards) == Committed(s.players, |s.players|)
            && forall i :: 0 <= i < |s.players| ==> WonBy(awards, s.players[i].seat) >= 0
  {
    var pots, seat := PotsOf(s.players), s.players[winner].seat;
    SomeLive(s.players, winner, |s.players|);
    PotsPayable(s.players);
    FindSeat(s.players, winner);
    SoleAwardsHonest(s.players, pots, 0, seat);
    PotSumNonNegative(pots);
    forall i | 0 <= i < |s.players| ensures WonBy(SoleAwards(pots, 0, seat), s.players[i].seat) >= 0 {
      SoleAwardsPay(pots, 0, seat, s.players[i].seat);
    }
  }

  lemma {:induction false} FinishUncontestedKeeps(s: State, winner: nat)
    requires Sound(s) && AllHealthy(s.players) && winner < |s.players| && !s.players[winner].folded
    ensures Inv(FinishUncontested(s, winner)) && FinishUncontested(s, winner).phase == Result
    ensures Lineage(s, FinishUncontested(s, winner))
  {
    var s1 := CloseBets(s);
    ClosedBets(s);
    SoundCarries(s, s1);
    assert Kin(s.players[winner], s1.players[winner]);
    SoleFacts(s1, winner);
    FinishKeeps(s1, SoleAwards(PotsOf(s1.players), 0, s.players[winner].seat), PotsOf(s1.players));
    LineageOn(s, s1, FinishUncontested(s, winner));
  }

  lemma {:induction false} ShowWinnersKeeps(s: State, winners: set<int>)
    requires Sound(s)
    ensures var r := ShowWinners(s, winners);
            && Sound(r) && Lineage(s, r)
            && (AllHealthy(s.players) ==> AllHealthy(r.players))
            && (NoBets(s.players) ==> NoBets(r.players))
            && Committed(r.players, |r.players|) == Committed(s.players, |s.players|)
  {
    var r := ShowWinners(s, winners);
    forall i | 0 <= i < |s.players| ensures Kin(s.players[i], r.players[i]) { }
    TotalPointwise(s.players, r.players, |s.players|);
    CommittedPointwise(s.players, r.players, |s.players|);
    SoundCarries(s, r);
  }

  lemma {:induction false} CommittedPointwise(ps: seq<Player>, qs: seq<Player>, n: nat)
    requires |ps| == |qs| && n <= |ps|
    requires forall i :: 0 <= i < n ==> ps[i].committed == qs[i].committed
    ensures Committed(ps, n) == Committed(qs, n)
  {
    if n > 0 { CommittedPointwise(ps, qs, n - 1); }
  }

  lemma {:induction false} AwardPotsKeeps(s: State)
    requires Sound(s) && AllHealthy(s.players) && NoBets(s.players) && LiveCount(s.players, |s.players|) >= 1
    ensures Inv(AwardPots(s)) && AwardPots(s).phase == Result && Lineage(s, AwardPots(s))
  {
    var pots := PotsOf(s.players);
    var awards := FinalAwards(s);
    var s1 := ShowWinners(s, FinalWinners(s));
    PotsPayable(s.players);
    ShowWinnersKeeps(s, FinalWinners(s));
    forall k, seat | 0 <= k < |pots| && seat in pots[k].eligible ensures Find(s1.players, seat) >= 0 {
      assert Find(s.players, seat) >= 0;
      SameSeatsFind(s.players, s1.players, seat, |s.players|);
    }
    AwardsHonest(s1.players, pots, 0, BoardRanks(s), BoardRanks2(s), s.deal.runTwice, s.cfg.button);
    AwardsSum(pots, 0, BoardRanks(s), BoardRanks2(s), s.deal.runTwice, s.cfg.button);
    forall i | 0 <= i < |s1.players| ensures WonBy(awards, s1.players[i].seat) >= 0 {
      WonAtMostWinnable(pots, 0, BoardRanks(s), BoardRanks2(s), s.deal.runTwice, s.cfg.button, s1.players[i].seat);
    }
    FinishKeeps(s1, awards, pots);
    LineageOn(s, s1, AwardPots(s));
  }

  // ---- showdown and the end of a street --------------------------------------------------------------

  lemma {:induction false} LiveFromFinds(ps: seq<Player>, i: nat, n: nat)
    requires i < |ps| && n > 0 && !ps[i].folded
    ensures |LiveFrom(ps, i, n)| > 0
  {
  }

  lemma {:induction false} FirstLiveIsLive(ps: seq<Player>, i: nat, m: nat, j: nat)
    requires i < |ps| && j < |ps| && m <= |ps|
    requires ps[FirstLive(ps, i, m)].folded
    requires (if j >= i then j - i else j + |ps| - i) < m
    ensures ps[j].folded
    decreases m
  {
    if m > 0 && ps[i].folded && j != i {
      FirstLiveIsLive(ps, Next(i, |ps|), m - 1, j);
    }
  }

  // Where the showdown order starts.
  function ShowdownStart(s: State): (i: nat)
    requires |s.players| > 0
    ensures i < |s.players|
  {
    var n := |s.players|;
    var b := ButtonIndex(s.cfg, s.players);
    if 0 <= s.round.aggressor < n && !s.players[s.round.aggressor].folded then s.round.aggressor
    else FirstLive(s.players, if b < 0 then 0 else Next(b, n), n)
  }

  lemma {:induction false} SomebodyShows(s: State)
    requires |s.players| > 0 && LiveCount(s.players, |s.players|) >= 1
    ensures |ShowdownOrder(s)| > 0
  {
    var ps := s.players;
    LastLiveIsLive(ps, |ps|);
    var start := ShowdownStart(s);
    if ps[start].folded {
      var b := ButtonIndex(s.cfg, ps);
      FirstLiveIsLive(ps, if b < 0 then 0 else Next(b, |ps|), |ps|, LastLive(ps, |ps|));
    }
    LiveFromFinds(ps, start, |ps|);
  }

  lemma {:induction false} ToShowdownKeeps(s: State)
    requires Sound(s) && Contested(s) && s.deal.street == RIVER
    requires s.deal.runTwice ==> AllShown(s.players)
    ensures Inv(ToShowdown(s)) && (ToShowdown(s).phase == Result || ToShowdown(s).phase == Showdown)
    ensures Lineage(s, ToShowdown(s))
  {
    var s1 := s.(round := s.round.(toAct := -1));
    LineageSelf(s, s1);
    SoundCarries(s, s1);
    SomebodyShows(s1);
    if forall k :: 0 <= k < |ShowdownOrder(s1)| ==> s1.players[ShowdownOrder(s1)[k]].revealed {
      AwardPotsKeeps(s1);
      LineageOn(s, s1, ToShowdown(s));
    } else {
      var r := ToShowdown(s);
      LineageSelf(s, r);
      SameShowdown(s1, r);
      if s.deal.runTwice { OrderIsLive(s1.players, ShowdownStart(s1), |s1.players|); assert false; }
    }
  }

  lemma {:induction false} SameShowdown(s: State, r: State)
    requires |s.players| > 0 && r.players == s.players && r.cfg == s.cfg && r.round.aggressor == s.round.aggressor
    ensures ShowdownOrder(r) == ShowdownOrder(s)
  {
  }

  lemma {:induction false} OrderIsLive(ps: seq<Player>, i: nat, n: nat)
    requires i < |ps|
    ensures forall k :: 0 <= k < |LiveFrom(ps, i, n)| ==> !ps[LiveFrom(ps, i, n)[k]].folded
    decreases n
  {
    if n > 0 { OrderIsLive(ps, Next(i, |ps|), n - 1); }
  }

  lemma {:induction false} HiddenMeans(ps: seq<Player>, n: nat)
    requires n <= |ps|
    ensures HiddenSeats(ps, n) == [] <==> forall i :: 0 <= i < n && !ps[i].folded ==> ps[i].revealed
  {
    if n > 0 { HiddenMeans(ps, n - 1); }
  }

  lemma {:induction false} ExposedFacts(ps: seq<Player>)
    ensures SameSeats(ps, Exposed(ps)) && AllShown(Exposed(ps))
    ensures AllHealthy(ps) ==> AllHealthy(Exposed(ps))
    ensures NoBets(ps) ==> NoBets(Exposed(ps))
    ensures forall i :: 0 <= i < |ps| ==> Worth(Exposed(ps)[i]) == Worth(ps[i]) && Exposed(ps)[i].folded == ps[i].folded
  {
    forall i | 0 <= i < |ps| ensures Kin(ps[i], Exposed(ps)[i]) { }
  }

  lemma {:induction false} RevealEveryoneKeeps(s: State)
    requires Sound(s) && Contested(s)
    ensures var r := RevealEveryone(s); Sound(r) && Contested(r) && AllShown(r.players) && Lineage(s, r)
  {
    var r := RevealEveryone(s);
    HiddenMeans(s.players, |s.players|);
    ExposedFacts(s.players);
    LineageSelf(s, s);
    TotalPointwise(s.players, r.players, |s.players|);
    LivePointwise(s.players, r.players, |s.players|);
    SoundCarries(s, r);
  }

  lemma {:induction false} CloseBetsKeeps(s: State)
    requires Playing(s) && LiveCount(s.players, |s.players|) >= 2
    ensures var r := CloseBets(s);
            && Sound(r) && Contested(r) && SameHands(s.players, r.players)
            && r.deal == s.deal && r.phase == Betting && r.runout == s.runout
            && Lineage(s, r)
  {
    ClosedBets(s);
    LivePointwise(s.players, CloseBets(s).players, |s.players|);
    SoundCarries(s, CloseBets(s));
  }

  lemma {:induction false} EndStreetKeeps(s: State)
    requires Playing(s) && LiveCount(s.players, |s.players|) >= 2
    ensures Inv(EndStreet(s)) && EndStreet(s).phase != Betting && Lineage(s, EndStreet(s))
  {
    CloseBetsKeeps(s);
    var s1 := CloseBets(s).(round := CloseBets(s).round.(toAct := -1));
    LineageSelf(CloseBets(s), s1);
    SoundCarries(CloseBets(s), s1);
    LineageOn(s, CloseBets(s), s1);
    if s1.deal.street == RIVER {
      ToShowdownKeeps(s1);
    } else if ActiveCount(s1.players, |s1.players|) < 2 {
      var s2 := s1.(phase := DealPending, runout := true);
      LineageSelf(s1, s2);
      SoundCarries(s1, s2);
      RevealEveryoneKeeps(s2);
      LineageOn(s1, s2, EndStreet(s));
    } else {
      LineageSelf(s1, EndStreet(s));
    }
    LineageOn(s, s1, EndStreet(s));
  }

  // ---- whose turn ---------------------------------------------------------------------------------------

  // The scan misses nobody within its reach.
  lemma {:induction false} ScanMissesNobody(ps: seq<Player>, currentBet: int, i: nat, m: nat, j: nat)
    requires i < |ps| && j < |ps| && m <= |ps|
    requires NextActor(ps, currentBet, i, m) < 0
    requires (if j >= i then j - i else j + |ps| - i) < m
    ensures !NeedsToAct(ps[j], currentBet)
    decreases m
  {
    if m > 0 && j != i {
      ScanMissesNobody(ps, currentBet, Next(i, |ps|), m - 1, j);
    }
  }

  lemma {:induction false} ScanFindsNeedy(ps: seq<Player>, currentBet: int, i: nat, m: nat)
    requires i < |ps|
    ensures NextActor(ps, currentBet, i, m) >= 0 ==> NeedsToAct(ps[NextActor(ps, currentBet, i, m)], currentBet)
    decreases m
  {
    if m > 0 && !NeedsToAct(ps[i], currentBet) { ScanFindsNeedy(ps, currentBet, Next(i, |ps|), m - 1); }
  }

  // The source's panic "no player to act although the round is not complete" cannot happen.
  lemma {:induction false} SomebodyIsFound(ps: seq<Player>, currentBet: int, start: nat)
    requires start < |ps| && ActiveWithin(ps, currentBet) && !RoundComplete(ps, currentBet)
    ensures var a := NextActor(ps, currentBet, start, |ps|); a >= 0 && NeedsToAct(ps[a], currentBet)
  {
    var j :| 0 <= j < |ps| && Active(ps[j]) && !(ps[j].bet == currentBet
        && (ActiveCount(ps, |ps|) >= 2 ==> ps[j].hasActed));
    assert NeedsToAct(ps[j], currentBet);
    NeedyIsFound(ps, currentBet, start, j);
  }

  lemma {:induction false} SomebodyActs(s: State, start: nat)
    requires start < |s.players| && !RoundComplete(s.players, s.round.currentBet)
    requires Playing(s) || GoesOn(s)
    ensures NextActor(s.players, s.round.currentBet, start, |s.players|) >= 0
  {
    if Playing(s) {
      SomebodyIsFound(s.players, s.round.currentBet, start);
    } else {
      var j :| 0 <= j < |s.players| && NeedsToAct(s.players[j], s.round.currentBet);
      NeedyIsFound(s.players, s.round.currentBet, start, j);
    }
  }

  // A round that will go on, whatever the bets: somebody still needs to act.
  ghost predicate GoesOn(s: State) {
    && LiveCount(s.players, |s.players|) >= 2 && !RoundComplete(s.players, s.round.currentBet)
    && exists j :: 0 <= j < |s.players| && NeedsToAct(s.players[j], s.round.currentBet)
  }

  lemma {:induction false} NeedyIsFound(ps: seq<Player>, currentBet: int, start: nat, j: nat)
    requires start < |ps| && j < |ps| && NeedsToAct(ps[j], currentBet)
    ensures var a := NextActor(ps, currentBet, start, |ps|); a >= 0 && NeedsToAct(ps[a], currentBet)
  {
    if NextActor(ps, currentBet, start, |ps|) < 0 {
      ScanMissesNobody(ps, currentBet, start, |ps|, j);
    }
    ScanFindsNeedy(ps, currentBet, start, |ps|);
  }

  lemma {:induction false} SettleKeeps(s: State, from: nat, inclusive: bool)
    requires Playing(s) && from < |s.players|
    ensures Inv(Settle(s, from, inclusive)) && Lineage(s, Settle(s, from, inclusive))
  {
    var n := |s.players|;
    LastLiveIsLive(s.players, n);
    if LiveCount(s.players, n) == 1 {
      FinishUncontestedKeeps(s, LastLive(s.players, n));
    } else if RoundComplete(s.players, s.round.currentBet) {
      EndStreetKeeps(s);
    } else {
      SomebodyIsFound(s.players, s.round.currentBet, if inclusive then from else Next(from, n));
      LineageSelf(s, Settle(s, from, inclusive));
    }
  }

  // ---- the commands -----------------------------------------------------------------------------------------

  ghost predicate Priced(cfg: Config, r: Round, p: Player) {
    && Healthy(p) && Active(p) && cfg.bigBlind >= 1
    && 0 <= r.fullLevel <= r.currentBet && r.raiseSize >= 1 && p.bet <= r.currentBet
    && (r.currentBet == 0 ==> r.raiseSize == cfg.bigBlind)
  }

  // What an accepted action may do to the player on turn and to the levels of the round.
  ghost predicate FairMove(cfg: Config, r: Round, p: Player, m: Performed)
    requires m.Moved?
  {
    && Kin(p, m.player) && Healthy(m.player) && Worth(m.player) == Worth(p)
    && m.player.committed == p.committed && m.player.stack <= p.stack
    && m.player.revealed == p.revealed && m.player.mucked == p.mucked && m.player.won == p.won
    && m.player.bet <= m.round.currentBet
    && r.currentBet <= m.round.currentBet && r.fullLevel <= m.round.fullLevel <= m.round.currentBet
    && m.round.raiseSize >= r.raiseSize
    && (m.round.currentBet == 0 ==> m.round.raiseSize == cfg.bigBlind)
    && m.round.toAct == r.toAct && m.round.aggressor == r.aggressor
    && (m.player.folded <==> m.kind == Fold)
  }

  lemma {:induction false} BetIsFair(cfg: Config, r: Round, p: Player, amt: int)
    requires Priced(cfg, r, p) && PerformBet(cfg, r, p, amt).Moved?
    ensures FairMove(cfg, r, p, PerformBet(cfg, r, p, amt))
  {
  }

  lemma {:induction false} RaiseIsFair(cfg: Config, r: Round, p: Player, amt: int)
    requires Priced(cfg, r, p) && PerformRaise(r, p, amt).Moved?
    ensures FairMove(cfg, r, p, PerformRaise(r, p, amt))
  {
  }

  lemma {:induction false} PerformedIsFair(cfg: Config, r: Round, p: Player, a: Action)
    requires Priced(cfg, r, p) && Perform(cfg, r, p, a).Moved?
    ensures FairMove(cfg, r, p, Perform(cfg, r, p, a))
  {
    var m := Meant(r, p, a);
    match m.kind
    case Bet => BetIsFair(cfg, r, p, m.amount);
    case Raise => RaiseIsFair(cfg, r, p, m.amount);
    case _ =>
  }

  lemma {:induction false} AfterMoveKeeps(s: State, a: Action)
    requires Inv(s) && s.phase == Betting
    requires Perform(s.cfg, s.round, s.players[s.round.toAct], a).Moved?
    ensures var m := Perform(s.cfg, s.round, s.players[s.round.toAct], a);
            Playing(AfterMove(s, m.player, m.round, m.kind)) && Lineage(s, AfterMove(s, m.player, m.round, m.kind))
  {
    var i := s.round.toAct;
    var p := s.players[i];
    var m := Perform(s.cfg, s.round, p, a);
    var r := AfterMove(s, m.player, m.round, m.kind);
    assert Healthy(p);
    PerformedIsFair(s.cfg, s.round, p, a);
    SoundUpdate(s, i, r.players[i], r);
    LiveUpdate(s.players, i, r.players[i], |s.players|);
    forall j | 0 <= j < |r.players|
      ensures Healthy(r.players[j]) && (Active(r.players[j]) ==> r.players[j].bet <= r.round.currentBet)
    {
      assert Healthy(s.players[j]);
    }
  }

  lemma {:induction false} ApplyKeeps(s: State, seat: int, a: Action)
    requires Inv(s) && Apply(s, seat, a).Done?
    ensures Inv(Apply(s, seat, a).state) && Lineage(s, Apply(s, seat, a).state)
  {
    var m := Perform(s.cfg, s.round, s.players[s.round.toAct], a);
    AfterMoveKeeps(s, a);
    var s1 := AfterMove(s, m.player, m.round, m.kind);
    SettleKeeps(s1, s.round.toAct, false);
    LineageOn(s, s1, Apply(s, seat, a).state);
  }

  lemma {:induction false} TimedOutPlaying(s: State)
    requires Inv(s) && s.phase == Betting
    ensures Playing(AfterTimeout(s)) && Lineage(s, AfterTimeout(s))
  {
    var i := s.round.toAct;
    var r := AfterTimeout(s);
    SoundUpdate(s, i, r.players[i], r);
    LiveUpdate(s.players, i, r.players[i], |s.players|);
    forall j | 0 <= j < |r.players| ensures Healthy(r.players[j]) { assert Healthy(s.players[j]); }
  }

  lemma {:induction false} TimeoutKeeps(s: State, seat: int)
    requires Inv(s) && Timeout(s, seat).Done?
    ensures Inv(Timeout(s, seat).state) && Lineage(s, Timeout(s, seat).state)
  {
    TimedOutPlaying(s);
    SettleKeeps(AfterTimeout(s), s.round.toAct, false);
    LineageOn(s, AfterTimeout(s), Timeout(s, seat).state);
  }

  lemma {:induction false} AfterForfeitFacts(s: State, i: nat)
    requires Inv(s) && (s.phase == Betting || s.phase == DealPending) && i < |s.players| && !s.players[i].folded
    ensures var r := AfterForfeit(s, i);
            && Sound(r) && AllHealthy(r.players)
              && LiveCount(r.players, |r.players|) == LiveCount(s.players, |s.players|) - 1
            && Lineage(s, r)
            && (s.phase == Betting ==> Playing(r))
            && (s.phase == DealPending ==> NoBets(r.players) && (s.runout ==> AllShown(r.players)))
  {
    var r := AfterForfeit(s, i);
    SoundUpdate(s, i, r.players[i], r);
    LiveUpdate(s.players, i, r.players[i], |s.players|);
    forall j | 0 <= j < |r.players| ensures Healthy(r.players[j]) { assert Healthy(s.players[j]); }
  }

  // What is left to do when player i has left.
  ghost function LeftOver(s: State, i: nat): State
    requires i < |s.players|
  {
    var n := |s.players|;
    if LiveCount(s.players, n) == 1 && LastLive(s.players, n) >= 0 then
      FinishUncontested(s.(phase := Betting), LastLive(s.players, n))
    else if s.phase != Betting then s
    else if s.round.toAct == i then Settle(s, i, false)
    else if RoundComplete(s.players, s.round.currentBet) then EndStreet(s)
    else s
  }

  lemma {:induction false} ForfeitIs(s: State, seat: int)
    requires Forfeit(s, seat).Done?
    ensures var i := Find(s.players, seat); Forfeit(s, seat).state == LeftOver(AfterForfeit(s, i), i)
  {
  }

  lemma {:induction false} ForfeitKeeps(s: State, seat: int)
    requires Inv(s) && Forfeit(s, seat).Done?
    ensures Inv(Forfeit(s, seat).state) && Lineage(s, Forfeit(s, seat).state)
  {
    var n := |s.players|;
    var i := Find(s.players, seat);
    var s1 := AfterForfeit(s, i);
    AfterForfeitFacts(s, i);
    LastLiveIsLive(s1.players, n);
    if LiveCount(s1.players, n) == 1 {
      var s2 := s1.(phase := Betting);
      LineageSelf(s1, s2);
      SoundCarries(s1, s2);
      FinishUncontestedKeeps(s2, LastLive(s1.players, n));
      LineageOn(s1, s2, Forfeit(s, seat).state);
      LineageOn(s, s1, Forfeit(s, seat).state);
    } else if s.phase == Betting {
      if s.round.toAct == i {
        SettleKeeps(s1, i, false);
        LineageOn(s, s1, Forfeit(s, seat).state);
      } else if RoundComplete(s1.players, s1.round.currentBet) {
        EndStreetKeeps(s1);
        LineageOn(s, s1, Forfeit(s, seat).state);
      }
    }
  }

  lemma {:induction false} NewRoundKeeps(s: State)
    requires Sound(s) && Contested(s) && !s.runout && !s.deal.runTwice
    ensures Playing(NewRound(s)) && Lineage(s, NewRound(s))
  {
    var r := NewRound(s);
    assert SameSeats(s.players, r.players);
    TotalPointwise(s.players, r.players, |s.players|);
    LivePointwise(s.players, r.players, |s.players|);
    SoundCarries(s, r);
  }

  lemma {:induction false} AdvanceKeeps(s: State)
    requires Inv(s) && Advance(s).Done?
    ensures Inv(Advance(s).state) && Lineage(s, Advance(s).state)
  {
    var s1 := DealStreet(s);
    LineageSelf(s, s1);
    SoundCarries(s, s1);
    if s.runout {
      if s1.deal.street == RIVER {
        ToShowdownKeeps(s1);
        LineageOn(s, s1, ToShowdown(s1));
      }
    } else {
      var s2 := NewRound(s1);
      NewRoundKeeps(s1);
      SettleKeeps(s2, Next(ButtonIndex(s.cfg, s.players), |s.players|), true);
      LineageOn(s, s1, s2);
      LineageOn(s, s2, Advance(s).state);
    }
  }

  lemma {:induction false} TurnedKeeps(s: State, i: nat, show: bool)
    requires Sound(s) && Contested(s) && i < |s.players|
    ensures var r := Turned(s, i, show);
            && Sound(r) && Contested(r) && Lineage(s, r)
            && r == s.(players := r.players, log := r.log)
            && (forall j :: 0 <= j < |r.players| ==> r.players[j].folded == s.players[j].folded)
  {
    var r := Turned(s, i, show);
    assert forall j :: 0 <= j < |s.players| ==> Kin(s.players[j], r.players[j]);
    TotalPointwise(s.players, r.players, |s.players|);
    LivePointwise(s.players, r.players, |s.players|);
    SoundCarries(s, r);
  }

  lemma {:induction false} LiveFromFolds(ps: seq<Player>, qs: seq<Player>, i: nat, n: nat)
    requires |ps| == |qs| && i < |ps|
    requires forall j :: 0 <= j < |ps| ==> ps[j].folded == qs[j].folded
    ensures LiveFrom(ps, i, n) == LiveFrom(qs, i, n) && FirstLive(ps, i, n) == FirstLive(qs, i, n)
    decreases n
  {
    if n > 0 { LiveFromFolds(ps, qs, Next(i, |ps|), n - 1); }
  }

  // The showdown order depends on who is in, not on who has shown.
  lemma {:induction false} OrderStays(s: State, r: State)
    requires |s.players| > 0 && SameSeats(s.players, r.players) && r.cfg == s.cfg
      && r.round.aggressor == s.round.aggressor
    requires forall j :: 0 <= j < |s.players| ==> s.players[j].folded == r.players[j].folded
    ensures ShowdownOrder(r) == ShowdownOrder(s)
  {
    SameSeatsFind(s.players, r.players, s.cfg.button, |s.players|);
    var b := ButtonIndex(s.cfg, s.players);
    LiveFromFolds(s.players, r.players, if b < 0 then 0 else Next(b, |s.players|), |s.players|);
    LiveFromFolds(s.players, r.players, ShowdownStart(s), |s.players|);
  }

  lemma {:induction false} RevealNextKeeps(s: State)
    requires Inv(s) && RevealNext(s).Done?
    ensures Inv(RevealNext(s).state) && Lineage(s, RevealNext(s).state)
  {
    RevealStepKeeps(s, true);
    RevealStepKeeps(s, false);
  }

  lemma {:induction false} RevealStepKeeps(s: State, show: bool)
    requires Inv(s) && s.phase == Showdown && s.show.order[s.show.idx] < |s.players|
    ensures Inv(RevealStep(s, show)) && Lineage(s, RevealStep(s, show))
  {
    var s0 := Called(s);
    var i := s.show.order[s.show.idx];
    var s1 := Turned(s0, i, show);
    LineageSelf(s, s0);
    SoundCarries(s, s0);
    TurnedKeeps(s0, i, show);
    LineageOn(s, s0, s1);
    if s1.show.idx >= |s1.show.order| {
      AwardPotsKeeps(s1);
      LineageOn(s, s1, AwardPots(s1));
    } else {
      OrderStays(s, s1);
    }
  }

  // Every command keeps the invariant, accepted or refused.
  lemma {:induction false} StepKeeps(s: State, c: Command)
    requires Inv(s)
    ensures Inv(After(s, c)) && Lineage(s, After(s, c))
  {
    if Step(s, c).Done? {
      match c
      case DoApply(seat, a) => ApplyKeeps(s, seat, a);
      case DoTimeout(seat) => TimeoutKeeps(s, seat);
      case DoForfeit(seat) => ForfeitKeeps(s, seat);
      case DoAdvance => AdvanceKeeps(s);
      case DoRunItTwice =>
        LineageSelf(s, RunItTwice(s).state);
        SoundCarries(s, RunItTwice(s).state);
      case DoRevealNext => RevealNextKeeps(s);
    } else {
      LineageSelf(s, s);
    }
  }
}
