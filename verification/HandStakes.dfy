// Table stakes: what a player can win is limited by what the player put in, contested or not,
// on one board or two; and the results report exactly what was paid.

module HandStakes {
  import opened Cards
  import opened Pots
  import opened Payout
  import opened HandModel
  import opened HandRules
  import opened HandChips
  import opened HandInvariant
  import opened HandStart

  // Until the pots are paid everybody's own chips are in their stack, in front of them or in
  // the pots.
  ghost predicate OwnChips(ps: seq<Player>) {
    forall i :: 0 <= i < |ps| ==> Worth(ps[i]) == ps[i].startStack && ps[i].won == 0
  }

  // What the players had put in when the hand ended: the chips they are short of, winnings aside.
  function PutIn(ps: seq<Player>): (cs: seq<Contribution>)
    ensures |cs| == |ps|
  {
    seq(|ps|, i requires 0 <= i < |ps| =>
      Contribution(ps[i].seat, ps[i].startStack - ps[i].stack + ps[i].won, ps[i].folded, ps[i].allIn))
  }

  // A folded player wins nothing; a live one at most their own contribution from everyone, plus
  // the dead money above the largest live contribution if they made it.
  ghost predicate StakesKept(r: State) {
    var cs := PutIn(r.players);
    forall i :: 0 <= i < |cs| ==>
      if r.players[i].folded then r.players[i].won == 0
      else
        r.players[i].won <=
        Below(cs, cs[i].total, |cs|) + if cs[i].total == MaxLive(cs, |cs|) then DeadMoney(cs) else 0
  }

  ghost predicate WonAsReported(r: State) {
    r.results.Results? && forall i :: 0 <= i < |r.players| ==>
      r.players[i].won == WonBy(r.results.pots, r.players[i].seat)
  }

  ghost predicate Fair(s: State) {
    if s.phase == Result then StakesKept(s) && WonAsReported(s) else OwnChips(s.players)
  }

  // ---- at the award ---------------------------------------------------------------------------------

  lemma {:induction false} FinishedPlayers(s: State, awards: seq<PotAward>, pots: seq<Pot>, i: nat)
    requires Seating(s.players) && i < |s.players|
    ensures var r := Finish(PayOut(s, awards), awards, pots);
            && |r.players| == |s.players|
            && r.players[i] == Paid(s.players[i], WonBy(awards, s.players[i].seat)).(committed := 0)
            && r.results.Results? && r.results.pots == awards
  {
    PayAllGives(s.players, awards, i);
  }

  // The bookkeeping at the end gives back the contributions the pots were made from.
  lemma {:induction false} PutInIsCommitted(s: State, awards: seq<PotAward>, pots: seq<Pot>)
    requires Seating(s.players) && OwnChips(s.players) && NoBets(s.players)
    ensures var r := Finish(PayOut(s, awards), awards, pots);
            && PutIn(r.players) == Contributions(s.players)
            && WonAsReported(r)
            && forall i :: 0 <= i < |s.players| ==>
              r.players[i].won == WonBy(awards, s.players[i].seat) && r.players[i].folded == s.players[i].folded
  {
    var r := Finish(PayOut(s, awards), awards, pots);
    forall i | 0 <= i < |s.players|
      ensures r.players[i] == Paid(s.players[i], WonBy(awards, s.players[i].seat)).(committed := 0)
    {
      FinishedPlayers(s, awards, pots, i);
    }
    assert |PutIn(r.players)| == |Contributions(s.players)|;
    forall i | 0 <= i < |s.players| ensures PutIn(r.players)[i] == Contributions(s.players)[i] {
      assert Worth(s.players[i]) == s.players[i].startStack;
    }
  }

  lemma {:induction false} FoldedWinsNothing(ps: seq<Player>, i: nat, r1: Ranks, r2: Ranks, twice: bool, button: int)
    requires Seating(ps) && AllHealthy(ps) && LiveCount(ps, |ps|) >= 1 && i < |ps| && ps[i].folded
    ensures WonBy(Awards(PotsOf(ps), 0, r1, r2, twice, button), ps[i].seat) == 0
  {
    PotsPayable(ps);
    var pots := PotsOf(ps);
    var seat := ps[i].seat;
    FindSeat(ps, i);
    forall k | 0 <= k < |pots| ensures seat !in Winners(pots[k], r1, button) && seat !in Winners(pots[k], r2, button) {
      assert seat !in pots[k].eligible;
      WinnersAreBest(pots[k], r1, button);
      WinnersAreBest(pots[k], r2, button);
    }
    WonAtMostWinnable(pots, 0, r1, r2, twice, button, seat);
  }

  lemma {:induction false} LiveWinsWithinStakes(ps: seq<Player>, i: nat, r1: Ranks, r2: Ranks, twice: bool, button: int)
    requires Seating(ps) && AllHealthy(ps) && LiveCount(ps, |ps|) >= 1 && i < |ps| && !ps[i].folded
    ensures var cs := Contributions(ps);
            WonBy(Awards(PotsOf(ps), 0, r1, r2, twice, button), ps[i].seat) <=
            Below(cs, cs[i].total, |cs|) + if cs[i].total == MaxLive(cs, |cs|) then DeadMoney(cs) else 0
  {
    PotsPayable(ps);
    ContributionsFine(ps);
    WonAtMostWinnable(PotsOf(ps), 0, r1, r2, twice, button, ps[i].seat);
    TableStakes(Contributions(ps), i);
  }

  lemma {:induction false} ShownKeepsContributions(s: State, winners: set<int>)
    ensures Contributions(ShowWinners(s, winners).players) == Contributions(s.players)
    ensures OwnChips(s.players) ==> OwnChips(ShowWinners(s, winners).players)
  {
  }

  lemma {:induction false} AwardPotsFair(s: State)
    requires Sound(s) && AllHealthy(s.players) && NoBets(s.players) && LiveCount(s.players, |s.players|) >= 1
      && OwnChips(s.players)
    ensures Fair(AwardPots(s))
  {
    var s1 := ShowWinners(s, FinalWinners(s));
    var awards := FinalAwards(s);
    ShowWinnersKeeps(s, FinalWinners(s));
    ShownKeepsContributions(s, FinalWinners(s));
    PutInIsCommitted(s1, awards, PotsOf(s.players));
    forall i | 0 <= i < |s.players|
      ensures if s.players[i].folded then WonBy(awards, s.players[i].seat) == 0
              else var cs := Contributions(s.players);
                   WonBy(awards, s.players[i].seat) <= Below(cs, cs[i].total, |cs|) + if cs[i].total == MaxLive(cs,
                       |cs|) then DeadMoney(cs) else 0
    {
      if s.players[i].folded {
        FoldedWinsNothing(s.players, i, BoardRanks(s), BoardRanks2(s), s.deal.runTwice, s.cfg.button);
      } else {
        LiveWinsWithinStakes(s.players, i, BoardRanks(s), BoardRanks2(s), s.deal.runTwice, s.cfg.button);
      }
    }
  }

  lemma {:induction false} SoleContender(cs: seq<Contribution>, w: nat, n: nat)
    requires NonNegative(cs) && n <= |cs| && w < |cs|
    requires forall i :: 0 <= i < |cs| ==> (!cs[i].folded <==> i == w)
    ensures MaxLive(cs, n) == if w < n then cs[w].total else 0
  {
    if n > 0 { SoleContender(cs, w, n - 1); }
  }

  lemma {:induction false} ClosedOwnChips(s: State)
    requires |s.players| > 0 && OwnChips(s.players)
    ensures OwnChips(CloseBets(s).players)
  {
    var t := TopBettor(s.players, |s.players|);
    var rs := ReturnUncalled(s).players;
    forall i | 0 <= i < |rs| ensures Worth(rs[i]) == rs[i].startStack && rs[i].won == 0 {
      assert Worth(s.players[i]) == s.players[i].startStack;
    }
  }

  lemma {:induction false} FinishUncontestedFair(s: State, winner: nat)
    requires Sound(s) && AllHealthy(s.players) && OwnChips(s.players)
    requires winner < |s.players| && forall i :: 0 <= i < |s.players| ==> (!s.players[i].folded <==> i == winner)
    ensures Fair(FinishUncontested(s, winner))
  {
    var s1 := CloseBets(s);
    ClosedBets(s);
    SameSeatsSeating(s.players, s1.players);
    ClosedOwnChips(s);
    SomeLive(s1.players, winner, |s1.players|);
    PotsPayable(s1.players);
    var pots := PotsOf(s1.players);
    var seat := s.players[winner].seat;
    var awards := SoleAwards(pots, 0, seat);
    PutInIsCommitted(s1, awards, pots);
    var cs := Contributions(s1.players);
    ContributionsFine(s1.players);
    SoleContender(cs, winner, |cs|);
    ContributedIsCommitted(s1.players, |cs|);
    assert Kin(s.players[winner], s1.players[winner]);
    forall i | 0 <= i < |cs|
      ensures WonBy(awards, s1.players[i].seat) == if i == winner then PotSum(pots) else 0
    {
      SoleAwardsPay(pots, 0, seat, s1.players[i].seat);
    }
  }

  // ---- keeping it -----------------------------------------------------------------------------------

  lemma {:induction false} OwnUpdate(ps: seq<Player>, i: nat, q: Player)
    requires OwnChips(ps) && i < |ps| && Worth(q) == Worth(ps[i]) && q.startStack == ps[i].startStack
      && q.won == ps[i].won
    ensures OwnChips(ps[i := q])
  {
    assert Worth(ps[i]) == ps[i].startStack;
  }

  lemma {:induction false} OwnPointwise(ps: seq<Player>, qs: seq<Player>)
    requires OwnChips(ps) && |ps| == |qs|
    requires forall i :: 0 <= i < |ps| ==>
      Worth(qs[i]) == Worth(ps[i]) && qs[i].startStack == ps[i].startStack && qs[i].won == ps[i].won
    ensures OwnChips(qs)
  {
    forall i | 0 <= i < |qs| ensures Worth(qs[i]) == qs[i].startStack && qs[i].won == 0 {
      assert Worth(ps[i]) == ps[i].startStack;
    }
  }

  lemma {:induction false} ToShowdownFair(s: State)
    requires Sound(s) && Contested(s) && OwnChips(s.players)
    ensures Fair(ToShowdown(s))
  {
    var s1 := s.(round := s.round.(toAct := -1));
    LineageSelf(s, s1);
    SoundCarries(s, s1);
    AwardPotsKeeps(s1);
    AwardPotsFair(s1);
  }

  lemma {:induction false} EndStreetFair(s: State)
    requires Playing(s) && LiveCount(s.players, |s.players|) >= 2 && OwnChips(s.players)
    ensures Fair(EndStreet(s))
  {
    CloseBetsKeeps(s);
    ClosedOwnChips(s);
    var s1 := CloseBets(s).(round := CloseBets(s).round.(toAct := -1));
    LineageSelf(CloseBets(s), s1);
    SoundCarries(CloseBets(s), s1);
    if s1.deal.street == RIVER {
      ToShowdownFair(s1);
    } else if ActiveCount(s1.players, |s1.players|) < 2 {
      OwnPointwise(s1.players, Exposed(s1.players));
    }
  }

  lemma {:induction false} SettleFair(s: State, from: nat, inclusive: bool)
    requires Playing(s) && from < |s.players| && OwnChips(s.players)
    ensures Fair(Settle(s, from, inclusive))
  {
    var n := |s.players|;
    LastLiveIsLive(s.players, n);
    if LiveCount(s.players, n) == 1 {
      OneLive(s.players, n);
      FinishUncontestedKeeps(s, LastLive(s.players, n));
      FinishUncontestedFair(s, LastLive(s.players, n));
    } else if RoundComplete(s.players, s.round.currentBet) {
      EndStreetFair(s);
    }
  }

  lemma {:induction false} ApplyFair(s: State, seat: int, a: Action)
    requires Inv(s) && Fair(s) && Apply(s, seat, a).Done?
    ensures Fair(Apply(s, seat, a).state)
  {
    var i := s.round.toAct;
    var m := Perform(s.cfg, s.round, s.players[i], a);
    assert Healthy(s.players[i]);
    PerformedIsFair(s.cfg, s.round, s.players[i], a);
    AfterMoveKeeps(s, a);
    OwnUpdate(s.players, i, Acted(m.player, m.round.fullLevel));
    SettleFair(AfterMove(s, m.player, m.round, m.kind), i, false);
  }

  lemma {:induction false} TimeoutFair(s: State, seat: int)
    requires Inv(s) && Fair(s) && Timeout(s, seat).Done?
    ensures Fair(Timeout(s, seat).state)
  {
    var i := s.round.toAct;
    OwnUpdate(s.players, i, AfterTimeout(s).players[i]);
    TimedOutPlaying(s);
    SettleFair(AfterTimeout(s), i, false);
  }

  lemma {:induction false} SoleFair(s: State, winner: nat)
    requires Sound(s) && AllHealthy(s.players) && OwnChips(s.players)
    requires winner < |s.players| && !s.players[winner].folded && LiveCount(s.players, |s.players|) == 1
    ensures Fair(FinishUncontested(s.(phase := Betting), winner))
  {
    var s2 := s.(phase := Betting);
    OneLive(s.players, |s.players|);
    LineageSelf(s, s2);
    SoundCarries(s, s2);
    FinishUncontestedFair(s2, winner);
  }

  lemma {:induction false} LeftOverFair(s: State, i: nat)
    requires Sound(s) && AllHealthy(s.players) && OwnChips(s.players) && i < |s.players|
    requires LiveCount(s.players, |s.players|) >= 1
    requires if s.phase == Betting then Playing(s) else s.phase == DealPending
    ensures Fair(LeftOver(s, i))
  {
    var n := |s.players|;
    LastLiveIsLive(s.players, n);
    if LiveCount(s.players, n) == 1 {
      SoleFair(s, LastLive(s.players, n));
    } else if s.phase == Betting {
      if s.round.toAct == i { SettleFair(s, i, false); }
      else if RoundComplete(s.players, s.round.currentBet) { EndStreetFair(s); }
    }
  }

  lemma {:induction false} ForfeitFair(s: State, seat: int)
    requires Inv(s) && Fair(s) && Forfeit(s, seat).Done?
    ensures Fair(Forfeit(s, seat).state)
  {
    var i := Find(s.players, seat);
    AfterForfeitFacts(s, i);
    OwnUpdate(s.players, i, AfterForfeit(s, i).players[i]);
    ForfeitIs(s, seat);
    LeftOverFair(AfterForfeit(s, i), i);
  }

  lemma {:induction false} AdvanceFair(s: State)
    requires Inv(s) && Fair(s) && Advance(s).Done?
    ensures Fair(Advance(s).state)
  {
    var s1 := DealStreet(s);
    LineageSelf(s, s1);
    SoundCarries(s, s1);
    if s.runout {
      ToShowdownFair(s1);
    } else {
      NewRoundKeeps(s1);
      OwnPointwise(s1.players, NewRound(s1).players);
      SettleFair(NewRound(s1), Next(ButtonIndex(s.cfg, s.players), |s.players|), true);
    }
  }

  lemma {:induction false} RevealNextFair(s: State)
    requires Inv(s) && Fair(s) && RevealNext(s).Done?
    ensures Fair(RevealNext(s).state)
  {
    LineageSelf(s, Called(s));
    SoundCarries(s, Called(s));
    TurnedFair(Called(s), s.show.order[s.show.idx], true);
    TurnedFair(Called(s), s.show.order[s.show.idx], false);
  }

  lemma {:induction false} TurnedFair(s: State, i: nat, show: bool)
    requires Sound(s) && Contested(s) && OwnChips(s.players) && i < |s.players|
    ensures OwnChips(Turned(s, i, show).players) && Fair(AwardPots(Turned(s, i, show)))
  {
    var s1 := Turned(s, i, show);
    OwnUpdate(s.players, i, s1.players[i]);
    TurnedKeeps(s, i, show);
    AwardPotsKeeps(s1);
    AwardPotsFair(s1);
  }

  lemma {:induction false} StepFair(s: State, c: Command)
    requires Inv(s) && Fair(s)
    ensures Fair(After(s, c))
  {
    if Step(s, c).Done? {
      match c
      case DoApply(seat, a) => ApplyFair(s, seat, a);
      case DoTimeout(seat) => TimeoutFair(s, seat);
      case DoForfeit(seat) => ForfeitFair(s, seat);
      case DoAdvance => AdvanceFair(s);
      case DoRunItTwice =>
      case DoRevealNext => RevealNextFair(s);
    }
  }

  // ---- every run ------------------------------------------------------------------------------------

  lemma {:induction false} FreshOwnChips(cfg: Config, seats: seq<Seat>)
    ensures OwnChips(Seated(cfg, seats))
  {
  }

  lemma {:induction false} PostAntesOwn(s: State, b: nat, m: nat)
    requires b < |s.players| && m <= |s.players| && OwnChips(s.players)
    ensures OwnChips(PostAntes(s, b, m).players)
    decreases |s.players| - m
  {
    if m < |s.players| {
      var i := Around(b, m, |s.players|);
      OwnUpdate(s.players, i, Post(s.players[i], s.cfg.ante));
      PostAntesOwn(PostAnte(s, i), b, m + 1);
    }
  }

  lemma {:induction false} PostDeadsOwn(s: State, b: nat, m: nat)
    requires b < |s.players| && m <= |s.players| && OwnChips(s.players)
    ensures OwnChips(PostDeads(s, b, m).players)
    decreases |s.players| - m
  {
    if m < |s.players| {
      var i := Around(b, m, |s.players|);
      OwnUpdate(s.players, i, Post(s.players[i], s.players[i].deadBlind));
      PostDeadsOwn(PostDead(s, i), b, m + 1);
    }
  }

  lemma {:induction false} BlindOwn(s: State, i: nat, amount: int, blind: BlindKind)
    requires i < |s.players| && OwnChips(s.players)
    ensures OwnChips(PostBlind(s, i, amount, blind).players)
  {
    OwnUpdate(s.players, i, Stake(s.players[i], amount));
  }

  lemma {:induction false} OpenedOwn(cfg: Config, seats: seq<Seat>, shuffled: seq<Card>)
    requires Acceptable(cfg, seats, shuffled) && ButtonIndex(cfg, Seated(cfg, seats)) >= 0
    ensures OwnChips(Opened(cfg, seats, shuffled).players)
  {
    var ps := Seated(cfg, seats);
    var b := ButtonIndex(cfg, ps);
    var s0 := Started(cfg, ps, shuffled);
    FreshOwnChips(cfg, seats);
    PostAntesOwn(s0, b, 0);
    PostDeadsOwn(if cfg.ante > 0 then PostAntes(s0, b, 0) else s0, b, 0);
    var s2 := Anted(cfg, seats, shuffled);
    PostBlindsOwn(s2);
    PostStraddleOwn(PostBlinds(s2));
  }

  lemma {:induction false} PostBlindsOwn(s: State)
    requires OwnChips(s.players)
    ensures OwnChips(PostBlinds(s).players)
  {
    var sb := Find(s.players, s.sbSeat);
    if sb >= 0 {
      BlindOwn(s, sb, s.cfg.smallBlind, SmallBlind);
      var s1 := PostBlind(s, sb, s.cfg.smallBlind, SmallBlind);
      var bb := Find(s1.players, s.bbSeat);
      if bb >= 0 { BlindOwn(s1, bb, s.cfg.bigBlind, BigBlind); }
    }
  }

  lemma {:induction false} PostStraddleOwn(s: State)
    requires OwnChips(s.players)
    ensures OwnChips(PostStraddle(s).players)
  {
    var bb := Find(s.players, s.bbSeat);
    if bb >= 0 && |s.players| >= 3 {
      BlindOwn(s, Next(bb, |s.players|), s.cfg.straddleAmount, StraddleBlind);
    }
  }

  lemma {:induction false} NewHandFair(cfg: Config, seats: seq<Seat>, shuffled: seq<Card>)
    requires SaneConfig(cfg, seats) && NewHand(cfg, seats, shuffled).Done?
    ensures Fair(NewHand(cfg, seats, shuffled).state)
  {
    var b := ButtonIndex(cfg, Seated(cfg, seats));
    OpenedWell(cfg, seats, shuffled);
    OpenedOwn(cfg, seats, shuffled);
    DealtFair(Opened(cfg, seats, shuffled), b);
  }

  lemma {:induction false} DealtFair(s: State, b: nat)
    requires Posting(s) && PriceLevels(s) && b < |s.players| && 2 * |s.players| <= |s.deal.deck|
    requires OwnChips(s.players)
    ensures Fair(Settle(DealHoles(s, b), FirstToAct(DealHoles(s, b), b), true))
  {
    var s1 := DealHoles(s, b);
    DealHolesKeeps(s, b);
    OwnPointwise(s.players, s1.players);
    SettleFair(s1, FirstToAct(s1, b), true);
  }

  lemma {:induction false} RunFair(s: State, cs: seq<Command>)
    requires Inv(s) && Fair(s)
    ensures Inv(Run(s, cs)) && Fair(Run(s, cs))
    decreases |cs|
  {
    if cs != [] {
      RunFair(s, cs[..|cs| - 1]);
      StepKeeps(Run(s, cs[..|cs| - 1]), cs[|cs| - 1]);
      StepFair(Run(s, cs[..|cs| - 1]), cs[|cs| - 1]);
    }
  }

  // In every run: before the result each player's own chips add up to the buy-in, and at the
  // result nobody has won more than table stakes allow and the report says what was paid.
  lemma {:induction false} TableStakesHold(cfg: Config, seats: seq<Seat>, shuffled: seq<Card>, cs: seq<Command>)
    requires SaneConfig(cfg, seats) && NewHand(cfg, seats, shuffled).Done?
    ensures var r := Run(NewHand(cfg, seats, shuffled).state, cs);
            if r.phase == Result then StakesKept(r) && WonAsReported(r) else OwnChips(r.players)
  {
    NewHandStarts(cfg, seats, shuffled);
    NewHandFair(cfg, seats, shuffled);
    RunFair(NewHand(cfg, seats, shuffled).state, cs);
  }
}
