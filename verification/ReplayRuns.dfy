// The observer over whole hands: the agreement of Replay is kept by every command.

module ReplayRuns {
  import opened Cards
  import opened Pots
  import opened Payout
  import opened HandModel
  import opened HandRules
  import opened HandChips
  import opened HandInvariant
  import opened HandStart
  import opened HandStakes
  import opened HandOptions
  import opened Replay

  // ---- paying out -----------------------------------------------------------------------------------

  lemma {:induction false} CreditAgrees(d: Derived, ps: seq<Player>, seat: int, amount: int, index: nat, board: nat)
    requires ChipsAgree(d, ps) && Seating(ps) && Find(ps, seat) >= 0 && d.ok && !d.ended
    ensures var d' := Observe(d, PotAwarded(index, seat, amount, board));
            && ChipsAgree(d', Credit(ps, seat, amount)) && SeatsOf(Credit(ps, seat, amount)) == SeatsOf(ps)
            && d'.ok && !d'.ended && d'.started == d.started && d'.cfg == d.cfg && d'.awarded == d.awarded + amount
  {
    var i := Find(ps, seat);
    IndexOfBound(ps, seat, |ps|);
    assert SeatAgrees(d, ps[i]);
    AgreeUpdate(d, Observe(d, PotAwarded(index, seat, amount, board)), ps, i, Credit(ps, seat, amount)[i]);
  }

  lemma {:induction false} PayAgrees(d: Derived, ps: seq<Player>, award: PotAward)
    requires ChipsAgree(d, ps) && Seating(ps) && d.ok && !d.ended
    requires forall j :: 0 <= j < |award.winners| ==> Find(ps, award.winners[j].seat) >= 0
    ensures var d' := ObserveAll(d, AwardEvents(award));
            && ChipsAgree(d', Pay(ps, award.winners)) && SeatsOf(Pay(ps, award.winners)) == SeatsOf(ps)
            && d'.ok && !d'.ended && d'.started == d.started && d'.cfg == d.cfg
              && d'.awarded == d.awarded + Total(award.winners)
    decreases |award.winners|
  {
    var ws := award.winners;
    if ws != [] {
      var rest := award.(winners := ws[1..]);
      var qs := Credit(ps, ws[0].seat, ws[0].amount);
      CreditAgrees(d, ps, ws[0].seat, ws[0].amount, award.index, award.board);
      CreditSeating(ps, ws[0].seat, ws[0].amount);
      forall j | 0 <= j < |rest.winners| ensures Find(qs, rest.winners[j].seat) >= 0 {
        assert rest.winners[j] == ws[j + 1];
        SameSeatsFind(ps, qs, ws[j + 1].seat, |ps|);
      }
      PayAgrees(Observe(d, AwardEvents(award)[0]), qs, rest);
      assert AwardEvents(award)[1..] == AwardEvents(rest);
    }
  }

  lemma {:induction false} PayAllAgrees(d: Derived, ps: seq<Player>, awards: seq<PotAward>)
    requires ChipsAgree(d, ps) && Seating(ps) && AllHonest(ps, awards) && d.ok && !d.ended
    ensures var d' := ObserveAll(d, AllAwardEvents(awards));
            && ChipsAgree(d', PayAll(ps, awards)) && SeatsOf(PayAll(ps, awards)) == SeatsOf(ps)
            && d'.ok && !d'.ended && d'.started == d.started && d'.cfg == d.cfg
              && d'.awarded == d.awarded + AwardSum(awards)
    decreases |awards|
  {
    if awards != [] {
      assert Honest(ps, awards[0]);
      var qs := Pay(ps, awards[0].winners);
      PayAgrees(d, ps, awards[0]);
      PaySum(ps, awards[0].winners);
      SameSeatsSeating(ps, qs);
      forall k | 0 <= k < |awards[1..]| ensures Honest(qs, awards[1..][k]) {
        assert Honest(ps, awards[k + 1]);
        var winners := awards[k + 1].winners;
        forall j | 0 <= j < |winners| ensures Find(qs, winners[j].seat) >= 0 {
          SameSeatsFind(ps, qs, winners[j].seat, |ps|);
        }
      }
      PayAllAgrees(ObserveAll(d, AwardEvents(awards[0])), qs, awards[1..]);
      ObserveConcat(d, AwardEvents(awards[0]), AllAwardEvents(awards[1..]));
    }
  }

  lemma {:induction false} FinishFits(s: State, awards: seq<PotAward>, pots: seq<Pot>)
    requires Agreed(Seen(s), s) && Seating(s.players) && AllHonest(s.players, awards)
    ensures Fits(Finish(PayOut(s, awards), awards, pots))
  {
    var s1 := PayOut(s, awards);
    var r := Finish(s1, awards, pots);
    PayAllAgrees(Seen(s), s.players, awards);
    SeenEmitAll(s, s1, AllAwardEvents(awards));
    AgreePointwise(Seen(s1), s1.players, r.players);
    SeenEmit(s1, r, HandEnded(r.results));
    var d := Seen(r);
    assert d == Seen(s1).(ended := true);
    forall i | 0 <= i < |r.players| ensures SeatAgrees(d, r.players[i]) {
      assert SeatAgrees(Seen(s1), r.players[i]);
    }
  }

  lemma {:induction false} ShowWinnersAgrees(s: State, winners: set<int>)
    requires Agreed(Seen(s), s)
    ensures var r := ShowWinners(s, winners); Agreed(Seen(r), r)
  {
    var r := ShowWinners(s, winners);
    var hidden := HiddenWinners(s.players, winners, |s.players|);
    if hidden != [] {
      AgreePointwise(Seen(s), s.players, r.players);
      SeenEmit(s, r, HandsRevealed(hidden));
    }
  }

  lemma {:induction false} AwardPotsFits(s: State)
    requires Agreed(Seen(s), s) && Sound(s) && AllHealthy(s.players) && LiveCount(s.players, |s.players|) >= 1
    ensures Fits(AwardPots(s))
  {
    var pots := PotsOf(s.players);
    var s1 := ShowWinners(s, FinalWinners(s));
    PotsPayable(s.players);
    ShowWinnersKeeps(s, FinalWinners(s));
    ShowWinnersAgrees(s, FinalWinners(s));
    forall k, seat | 0 <= k < |pots| && seat in pots[k].eligible ensures Find(s1.players, seat) >= 0 {
      assert Find(s.players, seat) >= 0;
      SameSeatsFind(s.players, s1.players, seat, |s.players|);
    }
    AwardsHonest(s1.players, pots, 0, BoardRanks(s), BoardRanks2(s), s.deal.runTwice, s.cfg.button);
    FinishFits(s1, FinalAwards(s), pots);
  }

  lemma {:induction false} UncontestedFits(s: State, winner: nat)
    requires Agreed(Seen(s), s) && Sound(s) && AllHealthy(s.players) && OwnChips(s.players)
    requires winner < |s.players| && !s.players[winner].folded
    ensures Fits(FinishUncontested(s, winner))
  {
    var s1 := CloseBets(s);
    SomeLive(s.players, winner, |s.players|);
    CloseBetsAgrees(s);
    ClosedBets(s);
    SameSeatsSeating(s.players, s1.players);
    assert Kin(s.players[winner], s1.players[winner]);
    FindSeat(s1.players, winner);
    SoleAwardsHonest(s1.players, PotsOf(s1.players), 0, s.players[winner].seat);
    FinishFits(s1, SoleAwards(PotsOf(s1.players), 0, s.players[winner].seat), PotsOf(s1.players));
  }

  // ---- rounds and showdown -----------------------------------------------------------------------------

  lemma {:induction false} ToShowdownFits(s: State)
    requires Agreed(Seen(s), s) && Sound(s) && AllHealthy(s.players) && LiveCount(s.players, |s.players|) >= 1
    ensures Fits(ToShowdown(s))
  {
    var s1 := s.(round := s.round.(toAct := -1));
    LineageSelf(s, s1);
    SoundCarries(s, s1);
    assert Seen(s1) == Seen(s);
    AwardPotsFits(s1);
    var r := ToShowdown(s);
    if r.phase == Showdown { assert Seen(r) == Seen(s); }
  }

  lemma {:induction false} RevealEveryoneAgrees(s: State)
    requires Agreed(Seen(s), s)
    ensures var r := RevealEveryone(s); Agreed(Seen(r), r)
  {
    var r := RevealEveryone(s);
    var hidden := HiddenSeats(s.players, |s.players|);
    if hidden != [] {
      AgreePointwise(Seen(s), s.players, r.players);
      SeenEmit(s, r, HandsRevealed(hidden));
    }
  }

  lemma {:induction false} EndStreetFits(s: State)
    requires Agreed(Seen(s), s) && Playing(s) && OwnChips(s.players) && LiveCount(s.players, |s.players|) >= 2
    ensures Fits(EndStreet(s))
  {
    CloseBetsAgrees(s);
    CloseBetsKeeps(s);
    var s1 := CloseBets(s).(round := CloseBets(s).round.(toAct := -1));
    LineageSelf(CloseBets(s), s1);
    SoundCarries(CloseBets(s), s1);
    assert Seen(s1) == Seen(CloseBets(s));
    if s1.deal.street == RIVER {
      ToShowdownFits(s1);
    } else if ActiveCount(s1.players, |s1.players|) < 2 {
      var s2 := s1.(phase := DealPending, runout := true);
      assert Seen(s2) == Seen(s1);
      RevealEveryoneAgrees(s2);
    } else {
      assert Seen(EndStreet(s)) == Seen(s1);
    }
  }

  lemma {:induction false} SettleFits(s: State, from: nat, inclusive: bool)
    requires Agreed(Seen(s), s) && RoundAgrees(Seen(s), s) && Playing(s) && OwnChips(s.players) && from < |s.players|
    ensures Fits(Settle(s, from, inclusive))
  {
    var n := |s.players|;
    LastLiveIsLive(s.players, n);
    if LiveCount(s.players, n) == 1 {
      UncontestedFits(s, LastLive(s.players, n));
    } else if RoundComplete(s.players, s.round.currentBet) {
      EndStreetFits(s);
    } else {
      SomebodyIsFound(s.players, s.round.currentBet, if inclusive then from else Next(from, n));
      assert Seen(Settle(s, from, inclusive)) == Seen(s);
    }
  }

  // ---- the commands --------------------------------------------------------------------------------------

  lemma {:induction false} ApplyFits(s: State, seat: int, a: Action)
    requires Inv(s) && Fair(s) && Fits(s) && Apply(s, seat, a).Done?
    ensures Fits(Apply(s, seat, a).state)
  {
    var i := s.round.toAct;
    var m := Perform(s.cfg, s.round, s.players[i], a);
    var s1 := AfterMove(s, m.player, m.round, m.kind);
    AfterMoveAgrees(s, a);
    assert Healthy(s.players[i]);
    PerformedIsFair(s.cfg, s.round, s.players[i], a);
    AfterMoveKeeps(s, a);
    OwnUpdate(s.players, i, Acted(m.player, m.round.fullLevel));
    SettleFits(s1, i, false);
  }

  lemma {:induction false} TimeoutFits(s: State, seat: int)
    requires Inv(s) && Fair(s) && Fits(s) && Timeout(s, seat).Done?
    ensures Fits(Timeout(s, seat).state)
  {
    AfterTimeoutAgrees(s);
    TimedOutPlaying(s);
    OwnUpdate(s.players, s.round.toAct, AfterTimeout(s).players[s.round.toAct]);
    SettleFits(AfterTimeout(s), s.round.toAct, false);
  }

  lemma {:induction false} LastStandingFits(s: State, winner: nat)
    requires Agreed(Seen(s), s) && Sound(s) && AllHealthy(s.players) && OwnChips(s.players)
    requires winner < |s.players| && !s.players[winner].folded
    ensures Fits(FinishUncontested(s.(phase := Betting), winner))
  {
    var s2 := s.(phase := Betting);
    LineageSelf(s, s2);
    SoundCarries(s, s2);
    assert Seen(s2) == Seen(s);
    UncontestedFits(s2, winner);
  }

  // A player has left, and the log says so.
  ghost predicate Leaving(s: State) {
    && Sound(s) && AllHealthy(s.players) && OwnChips(s.players) && Agreed(Seen(s), s)
    && LiveCount(s.players, |s.players|) >= 1
    && (s.phase == Betting ==> Playing(s) && RoundAgrees(Seen(s), s))
    && (s.phase == Betting || s.phase == DealPending)
  }

  lemma {:induction false} LeftOverFits(s: State, i: nat)
    requires Leaving(s) && i < |s.players|
    ensures Fits(LeftOver(s, i))
  {
    var n := |s.players|;
    LastLiveIsLive(s.players, n);
    if LiveCount(s.players, n) == 1 {
      LastStandingFits(s, LastLive(s.players, n));
    } else if s.phase == Betting {
      if s.round.toAct == i { SettleFits(s, i, false); }
      else if RoundComplete(s.players, s.round.currentBet) { EndStreetFits(s); }
    }
  }

  lemma {:induction false} LeavingAgrees(s: State, i: nat)
    requires Inv(s) && Fair(s) && Fits(s) && (s.phase == Betting || s.phase == DealPending)
    requires i < |s.players| && !s.players[i].folded
    ensures Leaving(AfterForfeit(s, i))
  {
    AfterForfeitAgrees(s, i);
    AfterForfeitFacts(s, i);
    OwnUpdate(s.players, i, AfterForfeit(s, i).players[i]);
  }

  lemma {:induction false} ForfeitFits(s: State, seat: int)
    requires Inv(s) && Fair(s) && Fits(s) && Forfeit(s, seat).Done?
    ensures Fits(Forfeit(s, seat).state)
  {
    var i := Find(s.players, seat);
    LeavingAgrees(s, i);
    ForfeitIs(s, seat);
    LeftOverFits(AfterForfeit(s, i), i);
  }

  // A street event clears the derived round; the second board's does nothing.
  lemma {:induction false} StreetSeen(d: Derived, deal: Deal)
    requires d.ok && !d.ended
    ensures ObserveAll(d, StreetEvents(deal)) ==
            d.(price := Price(0, d.cfg.bigBlind, 0, map[], map[]))
  {
    var es := StreetEvents(deal);
    ObserveOne(d, [], es[0]);
    if deal.runTwice {
      assert es == [es[0]] + [es[1]];
      ObserveOne(d, [es[0]], es[1]);
    }
    assert [] + [es[0]] == [es[0]];
  }

  lemma {:induction false} DealStreetAgrees(s: State)
    requires Agreed(Seen(s), s)
    ensures var r := DealStreet(s);
            && Agreed(Seen(r), r)
            && Seen(r) == Seen(s).(price := Price(0, s.cfg.bigBlind, 0, map[], map[]))
  {
    var r := DealStreet(s);
    StreetSeen(Seen(s), s.deal);
    SeenEmitAll(s, r, StreetEvents(s.deal));
    forall i | 0 <= i < |r.players| ensures SeatAgrees(Seen(r), r.players[i]) {
      assert SeatAgrees(Seen(s), s.players[i]);
    }
  }

  lemma {:induction false} NewRoundAgrees(s: State)
    requires Agreed(Seen(s), s)
    requires Seen(s).price == Price(0, s.cfg.bigBlind, 0, map[], map[])
    ensures var r := NewRound(s); Agreed(Seen(r), r) && RoundAgrees(Seen(r), r)
  {
    var r := NewRound(s);
    assert SeatsOf(r.players) == SeatsOf(s.players);
    assert Seen(r) == Seen(s);
    forall i | 0 <= i < |r.players| ensures SeatAgrees(Seen(r), r.players[i]) {
      assert SeatAgrees(Seen(s), s.players[i]);
    }
  }

  lemma {:induction false} NextRoundFits(s: State, from: nat)
    requires Sound(s) && Contested(s) && OwnChips(s.players) && Agreed(Seen(s), s) && !s.runout && !s.deal.runTwice
    requires Seen(s).price == Price(0, s.cfg.bigBlind, 0, map[], map[]) && from < |s.players|
    ensures Fits(Settle(NewRound(s), from, true))
  {
    NewRoundKeeps(s);
    NewRoundAgrees(s);
    OwnPointwise(s.players, NewRound(s).players);
    SettleFits(NewRound(s), from, true);
  }

  lemma {:induction false} AdvanceFits(s: State)
    requires Inv(s) && Fair(s) && Fits(s) && Advance(s).Done?
    ensures Fits(Advance(s).state)
  {
    var s1 := DealStreet(s);
    DealStreetAgrees(s);
    LineageSelf(s, s1);
    SoundCarries(s, s1);
    if s.runout {
      ToShowdownFits(s1);
    } else {
      NextRoundFits(s1, Next(ButtonIndex(s.cfg, s.players), |s.players|));
    }
  }

  lemma {:induction false} TurnedFits(s: State, i: nat, show: bool)
    requires Agreed(Seen(s), s) && Sound(s) && Contested(s) && s.phase == Showdown && i < |s.players|
    ensures Fits(Turned(s, i, show)) && Fits(AwardPots(Turned(s, i, show)))
  {
    var r := Turned(s, i, show);
    TurnedKeeps(s, i, show);
    if !s.players[i].revealed {
      AgreePointwise(Seen(s), s.players, r.players);
      SeenEmit(s, r, if show then HandsRevealed([s.players[i].seat]) else Mucked(s.players[i].seat));
    }
    AwardPotsFits(r);
  }

  lemma {:induction false} NextToShow(s: State)
    requires Inv(s) && Fits(s) && s.phase == Showdown
    ensures var s0 := Called(s); Agreed(Seen(s0), s0) && Sound(s0) && Contested(s0)
  {
    var s0 := Called(s);
    LineageSelf(s, s0);
    SoundCarries(s, s0);
    assert Seen(s0) == Seen(s);
  }

  lemma {:induction false} RevealStepFits(s: State, show: bool)
    requires Inv(s) && Fits(s) && s.phase == Showdown && s.show.order[s.show.idx] < |s.players|
    ensures Fits(RevealStep(s, show))
  {
    NextToShow(s);
    TurnedFits(Called(s), s.show.order[s.show.idx], show);
  }

  lemma {:induction false} RevealNextFits(s: State)
    requires Inv(s) && Fits(s) && RevealNext(s).Done?
    ensures Fits(RevealNext(s).state)
  {
    RevealStepFits(s, true);
    RevealStepFits(s, false);
  }

  lemma {:induction false} StepFits(s: State, c: Command)
    requires Inv(s) && Fair(s) && Fits(s)
    ensures Fits(After(s, c))
  {
    if Step(s, c).Done? {
      match c
      case DoApply(seat, a) => ApplyFits(s, seat, a);
      case DoTimeout(seat) => TimeoutFits(s, seat);
      case DoForfeit(seat) => ForfeitFits(s, seat);
      case DoAdvance => AdvanceFits(s);
      case DoRunItTwice => assert Seen(RunItTwice(s).state) == Seen(s);
      case DoRevealNext => RevealNextFits(s);
    }
  }

  lemma {:induction false} OpenedAgrees(cfg: Config, seats: seq<Seat>, shuffled: seq<Card>)
    requires Acceptable(cfg, seats, shuffled) && SaneConfig(cfg, seats) && ButtonIndex(cfg, Seated(cfg, seats)) >= 0
    ensures var r := Opened(cfg, seats, shuffled); Agreed(Seen(r), r) && RoundAgrees(Seen(r), r)
  {
    var sb := SmallBlindAt(cfg, Seated(cfg, seats));
    var s2 := Anted(cfg, seats, shuffled);
    AntedWell(cfg, seats, shuffled);
    AntedAgrees(cfg, seats, shuffled);
    BlindsAgree(s2, sb);
    var s3 := PostBlinds(s2);
    PostBlindsKeep(s2, sb);
    BlindsStay(s2, s3, sb);
    StraddleAgrees(s3, sb);
  }

  lemma {:induction false} DealtAgrees(s: State, b: nat, from: nat)
    requires Posting(s) && PriceLevels(s) && OwnChips(s.players) && Agreed(Seen(s), s) && RoundAgrees(Seen(s), s)
    requires b < |s.players| && from < |s.players| && 2 * |s.players| <= |s.deal.deck|
    ensures Fits(Settle(DealHoles(s, b), from, true))
  {
    var s1 := DealHoles(s, b);
    HolesAgree(s, b);
    DealHolesKeeps(s, b);
    OwnPointwise(s.players, s1.players);
    SettleFits(s1, from, true);
  }

  lemma {:induction false} NewHandFits(cfg: Config, seats: seq<Seat>, shuffled: seq<Card>)
    requires SaneConfig(cfg, seats) && NewHand(cfg, seats, shuffled).Done?
    ensures Fits(NewHand(cfg, seats, shuffled).state)
  {
    var b := ButtonIndex(cfg, Seated(cfg, seats));
    OpenedWell(cfg, seats, shuffled);
    OpenedAgrees(cfg, seats, shuffled);
    OpenedOwn(cfg, seats, shuffled);
    var s := Opened(cfg, seats, shuffled);
    DealtAgrees(s, b, FirstToAct(DealHoles(s, b), b));
  }

  // ---- every run --------------------------------------------------------------------------------------------

  lemma {:induction false} RunFits(s: State, cs: seq<Command>)
    requires Inv(s) && Fair(s) && Fits(s)
    ensures Inv(Run(s, cs)) && Fair(Run(s, cs)) && Fits(Run(s, cs))
    decreases |cs|
  {
    if cs != [] {
      var r := Run(s, cs[..|cs| - 1]);
      RunFits(s, cs[..|cs| - 1]);
      StepKeeps(r, cs[|cs| - 1]);
      StepFair(r, cs[|cs| - 1]);
      StepFits(r, cs[|cs| - 1]);
    }
  }

  // Whether the seat may raise, as the observer derives it.
  predicate DerivedMayRaise(d: Derived, seat: int) {
    !Flag(d.price.acted, seat) || Num(d.price.actedAt, seat) < d.price.fullLevel
  }

  // The options as the observer derives them for a seat with the bet and stack.
  function DerivedOptions(d: Derived, seat: int, bet: int, stack: int): Options {
    var toCall := d.price.currentBet - bet;
    var maxTo := bet + stack;
    var o := Options(true, toCall <= 0, if toCall <= 0 then 0 else Min(toCall, stack), NoRaise, 0);
    if d.price.currentBet == 0 then o.(raise := RangeFrom(d.cfg.bigBlind, maxTo), allIn := maxTo)
    else if DerivedMayRaise(d, seat) && maxTo > d.price.currentBet then
      o.(raise := RangeFrom(d.price.currentBet + d.price.raiseSize, maxTo), allIn := maxTo)
    else if stack <= toCall then o.(allIn := maxTo)
    else o
  }

  // The observer's check of a turn: the player on it, the price and least raise the engine
  // names, and the options it offers.
  predicate OptionsFit(d: Derived, p: Player, currentBet: int, minRaiseTo: int, got: Options) {
    && Active(p)
    && d.price.currentBet == currentBet && d.price.currentBet + d.price.raiseSize == minRaiseTo
    && got == DerivedOptions(d, p.seat, p.bet, p.stack)
  }

  // The stack of a player as the log tells it.
  function DerivedStack(d: Derived, p: Player): int {
    p.startStack - Num(d.chips.contrib, p.seat) - Num(d.chips.bet, p.seat) + Num(d.chips.paid, p.seat)
  }

  // What the log tells of a player.
  ghost predicate PlayerTold(d: Derived, r: State, p: Player) {
    && DerivedStack(d, p) == p.stack && Num(d.chips.bet, p.seat) == p.bet && Flag(d.chips.folded, p.seat) == p.folded
    && (!p.folded ==> Flag(d.chips.allIn, p.seat) == p.allIn)
    && (r.phase != Result ==> Num(d.chips.contrib, p.seat) == p.committed)
    && (r.phase == Betting && !p.folded ==> (DerivedMayRaise(d, p.seat) <==> MayRaise(p, r.round.fullLevel)))
  }

  // What it tells of the turn.
  ghost predicate TurnTold(d: Derived, r: State) {
    && RoundNumbers(d.price, r.round) && 0 <= r.round.toAct < |r.players|
    && var p := r.players[r.round.toAct];
       && OptionsFit(d, p, r.round.currentBet, MinRaiseTo(r.round), Offered(r, p.seat))
       && DerivedOptions(d, p.seat, Num(d.chips.bet, p.seat), DerivedStack(d, p)) == Offered(r, p.seat)
  }

  // In every run, replaying the events from the starting stacks flags nothing - no event out of
  // place, no pot layout that the contributions do not give - and tells every player's stack,
  // bet, contribution and whether they are in or all-in; while betting also the price, the
  // minimum raise, who has acted and may raise, and with that the options of the player on turn.
  lemma {:induction false} ReplayAgrees(cfg: Config, seats: seq<Seat>, shuffled: seq<Card>, cs: seq<Command>)
    requires SaneConfig(cfg, seats) && NewHand(cfg, seats, shuffled).Done?
    ensures var r := Run(NewHand(cfg, seats, shuffled).state, cs); var d := Seen(r);
            && d.ok && (d.ended <==> r.phase == Result)
            && (forall i :: 0 <= i < |r.players| ==> PlayerTold(d, r, r.players[i]))
            && (r.phase == Betting ==> TurnTold(d, r))
  {
    NewHandStarts(cfg, seats, shuffled);
    NewHandFair(cfg, seats, shuffled);
    NewHandFits(cfg, seats, shuffled);
    var r := Run(NewHand(cfg, seats, shuffled).state, cs);
    RunFits(NewHand(cfg, seats, shuffled).state, cs);
    FitMeans(r);
  }

  lemma {:induction false} FitMeans(r: State)
    requires Inv(r) && Fair(r) && Fits(r)
    ensures forall i :: 0 <= i < |r.players| ==> PlayerTold(Seen(r), r, r.players[i])
    ensures r.phase == Betting ==> TurnTold(Seen(r), r)
  {
    var d := Seen(r);
    forall i | 0 <= i < |r.players| ensures PlayerTold(d, r, r.players[i]) {
      assert SeatAgrees(d, r.players[i]);
      if r.phase != Result { assert Worth(r.players[i]) == r.players[i].startStack; }
      if r.phase == Betting { assert ActedAgrees(d, r.players[i]); }
    }
    if r.phase == Betting {
      assert PlayerTold(d, r, r.players[r.round.toAct]);
    }
  }
}
