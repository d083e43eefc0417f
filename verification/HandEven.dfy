// Matched contributions: without dead blinds everybody still betting has put in the same, which
// is the most of all, so the pots are exactly those of the chip-by-chip view. A dead blind
// breaks this.

module HandEven {
  import opened Cards
  import opened Pots
  import opened HandModel
  import opened HandRules
  import opened HandChips
  import opened HandInvariant
  import opened HandStart
  import Sorting

  // Nobody has put more than c into completed streets, and whoever can still bet, or has bet on
  // this street, has put in c.
  ghost predicate EvenAt(ps: seq<Player>, c: int) {
    forall i :: 0 <= i < |ps| ==> ps[i].committed <= c && (Active(ps[i]) || ps[i].bet > 0 ==> ps[i].committed == c)
  }

  // Nobody but perhaps player e has bet more than the price.
  ghost predicate WithinBut(ps: seq<Player>, currentBet: int, e: int) {
    forall i :: 0 <= i < |ps| && i != e ==> ps[i].bet <= currentBet
  }

  ghost predicate OneAbove(ps: seq<Player>, currentBet: int) { exists e :: WithinBut(ps, currentBet, e) }

  ghost predicate Even(s: State) {
    && (s.phase != Result ==> exists c :: EvenAt(s.players, c))
    && (s.phase == Betting ==> OneAbove(s.players, s.round.currentBet))
  }

  // ---- what the invariant gives ------------------------------------------------------------------

  lemma {:induction false} EvenIsMatched(ps: seq<Player>, c: int)
    requires Seating(ps) && AllHealthy(ps) && EvenAt(ps, c)
    ensures LiveTotalsMatched(Contributions(ps))
  {
    var cs := Contributions(ps);
    MaxLiveBounds(cs, |cs|);
    forall i | 0 <= i < |cs| && !cs[i].folded && cs[i].total > 0 ensures IsLevel(cs, MaxLive(cs, |cs|), cs[i].total) {
      if ps[i].allIn {
        assert IsAllInLevel(cs, i, cs[i].total);
      } else {
        assert Active(ps[i]);
      }
    }
  }

  // The pot holding any layer of chips is contested by exactly the live players who reached it.
  lemma {:induction false} EvenPotsAreFair(ps: seq<Player>, c: int)
    requires Seating(ps) && AllHealthy(ps) && EvenAt(ps, c)
    ensures AllLayersFair(Contributions(ps))
  {
    EvenIsMatched(ps, c);
    ContributionsFine(ps);
    LayersFairIff(Contributions(ps));
  }

  // ---- keeping it -----------------------------------------------------------------------------------

  lemma {:induction false} EvenUpdate(ps: seq<Player>, c: int, i: nat, q: Player)
    requires EvenAt(ps, c) && i < |ps| && q.committed == ps[i].committed
    requires Active(q) || q.bet > 0 ==> Active(ps[i]) || ps[i].bet > 0
    ensures EvenAt(ps[i := q], c)
  {
  }

  lemma {:induction false} AboveUpdate(ps: seq<Player>, price: int, i: nat, q: Player, after: int)
    requires OneAbove(ps, price) && i < |ps| && price <= after && (q.bet <= after || q.bet == ps[i].bet)
    ensures OneAbove(ps[i := q], after)
  {
    var e :| WithinBut(ps, price, e);
    assert WithinBut(ps[i := q], after, e);
  }

  // Players whose contributions and activity are the same are as even.
  lemma {:induction false} EvenPointwise(ps: seq<Player>, qs: seq<Player>, c: int)
    requires EvenAt(ps, c) && |ps| == |qs|
    requires forall i :: 0 <= i < |ps| ==>
      ps[i].committed == qs[i].committed && ps[i].bet == qs[i].bet && Active(ps[i]) == Active(qs[i])
    ensures EvenAt(qs, c)
  {
  }

  // What everyone else has matched is at most the price.
  lemma {:induction false} OthersMatch(s: State)
    requires |s.players| > 0 && OneAbove(s.players, s.round.currentBet) && s.round.currentBet >= 0
    ensures SecondBet(s.players, TopBettor(s.players, |s.players|), |s.players|) <= s.round.currentBet
  {
    var ps := s.players;
    var t := TopBettor(ps, |ps|);
    TopBettorIsTop(ps, |ps|);
    SecondBetIsSecond(ps, t, |ps|);
    var e :| WithinBut(ps, s.round.currentBet, e);
    if 0 <= e < |ps| && e != t { assert ps[e].bet <= ps[t].bet <= s.round.currentBet; }
  }

  // When a round is complete, returning the uncalled bet and collecting keeps things even, at a
  // higher level.
  lemma {:induction false} CloseBetsEven(s: State, c: int)
    requires Playing(s) && RoundComplete(s.players, s.round.currentBet) && EvenAt(s.players, c)
    requires OneAbove(s.players, s.round.currentBet)
    ensures exists d :: EvenAt(CloseBets(s).players, d)
  {
    var ps := s.players;
    var t := TopBettor(ps, |ps|);
    ReturnedBets(s);
    var rs := ReturnUncalled(s).players;
    var d := c + rs[t].bet;
    var qs := CloseBets(s).players;
    OthersMatch(s);
    forall i | 0 <= i < |qs|
      ensures qs[i].committed <= d && (Active(qs[i]) || qs[i].bet > 0 ==> qs[i].committed == d)
    {
      assert rs[i].bet <= rs[t].bet && rs[i].committed == ps[i].committed <= c;
      assert Healthy(ps[i]);
      if Active(qs[i]) {
        if i == t {
          assert Active(ps[t]) || ps[t].bet > 0;
        } else {
          assert Active(ps[i]) && ps[i].bet == s.round.currentBet;
          assert rs[i] == ps[i] && rs[t].bet <= s.round.currentBet;
        }
      }
    }
    assert EvenAt(qs, d);
  }

  lemma {:induction false} ShowdownEven(s: State, c: int)
    requires |s.players| > 0 && EvenAt(s.players, c)
    ensures Even(ToShowdown(s))
  {
    if ToShowdown(s).phase != Result { assert EvenAt(ToShowdown(s).players, c); }
  }

  lemma {:induction false} EndStreetEven(s: State, c: int)
    requires Playing(s) && RoundComplete(s.players, s.round.currentBet) && EvenAt(s.players, c)
    requires OneAbove(s.players, s.round.currentBet)
    ensures Even(EndStreet(s))
  {
    CloseBetsEven(s, c);
    var s1 := CloseBets(s).(round := CloseBets(s).round.(toAct := -1));
    var d :| EvenAt(s1.players, d);
    if s1.deal.street == RIVER {
      ShowdownEven(s1, d);
    } else if ActiveCount(s1.players, |s1.players|) < 2 {
      EvenPointwise(s1.players, Exposed(s1.players), d);
    }
  }

  lemma {:induction false} SettleEven(s: State, from: nat, inclusive: bool, c: int)
    requires Playing(s) && from < |s.players| && EvenAt(s.players, c) && OneAbove(s.players, s.round.currentBet)
    ensures Even(Settle(s, from, inclusive))
  {
    var n := |s.players|;
    LastLiveIsLive(s.players, n);
    if LiveCount(s.players, n) == 1 {
      FinishUncontestedKeeps(s, LastLive(s.players, n));
    } else if RoundComplete(s.players, s.round.currentBet) {
      EndStreetEven(s, c);
    }
  }

  lemma {:induction false} ApplyEven(s: State, seat: int, a: Action)
    requires Inv(s) && Even(s) && Apply(s, seat, a).Done?
    ensures Even(Apply(s, seat, a).state)
  {
    var i := s.round.toAct;
    var m := Perform(s.cfg, s.round, s.players[i], a);
    var c :| EvenAt(s.players, c);
    assert Healthy(s.players[i]);
    PerformedIsFair(s.cfg, s.round, s.players[i], a);
    AfterMoveKeeps(s, a);
    EvenUpdate(s.players, c, i, Acted(m.player, m.round.fullLevel));
    AboveUpdate(s.players, s.round.currentBet, i, Acted(m.player, m.round.fullLevel), m.round.currentBet);
    SettleEven(AfterMove(s, m.player, m.round, m.kind), i, false, c);
  }

  lemma {:induction false} TimeoutEven(s: State, seat: int)
    requires Inv(s) && Even(s) && Timeout(s, seat).Done?
    ensures Even(Timeout(s, seat).state)
  {
    var i := s.round.toAct;
    var r := AfterTimeout(s);
    var c :| EvenAt(s.players, c);
    EvenUpdate(s.players, c, i, r.players[i]);
    AboveUpdate(s.players, s.round.currentBet, i, r.players[i], s.round.currentBet);
    TimedOutPlaying(s);
    SettleEven(r, i, false, c);
  }

  lemma {:induction false} ForfeitEven(s: State, seat: int)
    requires Inv(s) && Even(s) && Forfeit(s, seat).Done?
    ensures Even(Forfeit(s, seat).state)
  {
    var n := |s.players|;
    var i := Find(s.players, seat);
    var s1 := AfterForfeit(s, i);
    var c :| EvenAt(s.players, c);
    EvenUpdate(s.players, c, i, s1.players[i]);
    if s.phase == Betting { AboveUpdate(s.players, s.round.currentBet, i, s1.players[i], s.round.currentBet); }
    AfterForfeitFacts(s, i);
    LastLiveIsLive(s1.players, n);
    if LiveCount(s1.players, n) == 1 {
      FinishUncontestedKeeps(s1.(phase := Betting), LastLive(s1.players, n)) by { SoundAnyPhase(s1); }
    } else if s.phase == Betting {
      if s.round.toAct == i {
        SettleEven(s1, i, false, c);
      } else if RoundComplete(s1.players, s1.round.currentBet) {
        EndStreetEven(s1, c);
      }
    }
  }

  lemma {:induction false} SoundAnyPhase(s: State)
    requires Sound(s)
    ensures Sound(s.(phase := Betting))
  {
    LineageSelf(s, s.(phase := Betting));
    SoundCarries(s, s.(phase := Betting));
  }

  lemma {:induction false} AdvanceEven(s: State)
    requires Inv(s) && Even(s) && Advance(s).Done?
    ensures Even(Advance(s).state)
  {
    var c :| EvenAt(s.players, c);
    var s1 := DealStreet(s);
    if s.runout {
      if s1.deal.street == RIVER { ShowdownEven(s1, c); }
    } else {
      LineageSelf(s, s1);
      SoundCarries(s, s1);
      NewRoundKeeps(s1);
      EvenPointwise(s.players, Refreshed(s.players), c);
      assert WithinBut(Refreshed(s.players), 0, -1);
      SettleEven(NewRound(s1), Next(ButtonIndex(s.cfg, s.players), |s.players|), true, c);
    }
  }

  lemma {:induction false} TurnedEven(s: State, i: nat, show: bool, c: int)
    requires i < |s.players| && EvenAt(s.players, c)
    ensures EvenAt(Turned(s, i, show).players, c)
  {
    EvenPointwise(s.players, Turned(s, i, show).players, c);
  }

  lemma {:induction false} RevealStepEven(s: State, show: bool, c: int)
    requires s.phase == Showdown && EvenAt(s.players, c)
    requires s.show.idx < |s.show.order| && s.show.order[s.show.idx] < |s.players|
    ensures Even(RevealStep(s, show))
  {
    TurnedEven(Called(s), s.show.order[s.show.idx], show, c);
  }

  lemma {:induction false} RevealNextEven(s: State)
    requires Inv(s) && Even(s) && RevealNext(s).Done?
    ensures Even(RevealNext(s).state)
  {
    var c :| EvenAt(s.players, c);
    RevealStepEven(s, true, c);
    RevealStepEven(s, false, c);
  }

  lemma {:induction false} StepEven(s: State, cmd: Command)
    requires Inv(s) && Even(s)
    ensures Even(After(s, cmd))
  {
    if Step(s, cmd).Done? {
      match cmd
      case DoApply(seat, a) => ApplyEven(s, seat, a);
      case DoTimeout(seat) => TimeoutEven(s, seat);
      case DoForfeit(seat) => ForfeitEven(s, seat);
      case DoAdvance => AdvanceEven(s);
      case DoRunItTwice =>
      case DoRevealNext => RevealNextEven(s);
    }
  }

  // ---- the start ------------------------------------------------------------------------------------

  // Antes and dead blinds leave everybody who still has chips equally far in, and nobody further.
  ghost predicate LevelStart(cfg: Config, seats: seq<Seat>, c: int) {
    var ps := Seated(cfg, seats);
    forall i :: 0 <= i < |ps| ==>
      var q := DuesPaid(cfg, ps[i]);
      q.committed <= c && (q.stack > 0 ==> q.committed == c)
  }

  ghost predicate NoDeadBlinds(cfg: Config) {
    forall seat :: seat in cfg.deadBlinds ==> cfg.deadBlinds[seat] <= 0
  }

  // It is so when nobody owes a dead blind.
  lemma {:induction false} NoDeadBlindsIsLevel(cfg: Config, seats: seq<Seat>, shuffled: seq<Card>)
    requires Acceptable(cfg, seats, shuffled) && NoDeadBlinds(cfg)
    ensures LevelStart(cfg, seats, cfg.ante)
  {
    SeatedInOrder(cfg, seats, shuffled);
    var ps := Seated(cfg, seats);
    forall i | 0 <= i < |ps|
      ensures var q := DuesPaid(cfg, ps[i]); q.committed <= cfg.ante && (q.stack > 0 ==> q.committed == cfg.ante)
    {
      assert ps[i].deadBlind <= 0 && ps[i].committed == 0;
    }
  }

  lemma {:induction false} AntedEven(cfg: Config, seats: seq<Seat>, shuffled: seq<Card>, c: int)
    requires Acceptable(cfg, seats, shuffled) && ButtonIndex(cfg, Seated(cfg, seats)) >= 0
    requires LevelStart(cfg, seats, c)
    ensures EvenAt(Anted(cfg, seats, shuffled).players, c)
  {
    var r := Anted(cfg, seats, shuffled);
    AntedWell(cfg, seats, shuffled);
    forall i | 0 <= i < |r.players|
      ensures r.players[i].committed <= c && (Active(r.players[i]) || r.players[i].bet > 0 ==>
            r.players[i].committed == c)
    {
      AntedExactly(cfg, seats, shuffled, i);
      assert Healthy(r.players[i]);
    }
  }

  // A blind is a bet by somebody who still had chips.
  lemma {:induction false} StakeEven(ps: seq<Player>, c: int, i: nat, amount: int)
    requires AllHealthy(ps) && EvenAt(ps, c) && i < |ps| && amount > 0 && NobodyFolded(ps)
    ensures EvenAt(ps[i := Stake(ps[i], amount)], c)
  {
    assert Healthy(ps[i]);
    EvenUpdate(ps, c, i, Stake(ps[i], amount));
  }

  lemma {:induction false} OpenedEven(cfg: Config, seats: seq<Seat>, shuffled: seq<Card>, c: int)
    requires Acceptable(cfg, seats, shuffled) && ButtonIndex(cfg, Seated(cfg, seats)) >= 0
    requires LevelStart(cfg, seats, c)
    ensures EvenAt(Opened(cfg, seats, shuffled).players, c)
  {
    var s2 := Anted(cfg, seats, shuffled);
    var sb := SmallBlindAt(cfg, Seated(cfg, seats));
    AntedWell(cfg, seats, shuffled);
    AntedEven(cfg, seats, shuffled, c);
    FindSeat(s2.players, sb);
    var s3a := PostBlind(s2, sb, cfg.smallBlind, SmallBlind);
    StakeEven(s2.players, c, sb, cfg.smallBlind);
    PostingUpdate(s2, sb, Stake(s2.players[sb], cfg.smallBlind), s3a) by { assert Healthy(s2.players[sb]); }
    var bb := Find(s3a.players, s3a.bbSeat);
    if bb >= 0 { StakeEven(s3a.players, c, bb, cfg.bigBlind); }
    PostBlindsKeep(s2, sb);
    var s3 := PostBlinds(s2);
    assert EvenAt(s3.players, c);
    StraddleEven(s3, c);
  }

  lemma {:induction false} StraddleEven(s: State, c: int)
    requires AllHealthy(s.players) && NobodyFolded(s.players) && EvenAt(s.players, c)
    ensures EvenAt(PostStraddle(s).players, c)
  {
    var bb := Find(s.players, s.bbSeat);
    if s.cfg.straddleAmount > 0 && bb >= 0 && |s.players| >= 3 {
      StakeEven(s.players, c, Next(bb, |s.players|), s.cfg.straddleAmount);
    }
  }

  // Both blinds posted more than a straddle posted in full.
  ghost predicate TwoAboveStraddle(cfg: Config, seats: seq<Seat>) {
    var ps := Seated(cfg, seats);
    var n := |ps|;
    var b := ButtonIndex(cfg, ps);
    && FullStraddle(cfg, seats)
    && Min(cfg.smallBlind, Remaining(cfg, ps[Next(b, n)])) > cfg.straddleAmount
    && Min(cfg.bigBlind, Remaining(cfg, ps[Next(Next(b, n), n)])) > cfg.straddleAmount
  }

  // Unless a full straddle lies below both blinds, it leaves at most one bet above the price.
  lemma {:induction false} StraddleAbove(s: State, sb: nat)
    requires Posting(s) && BlindsAt(s, sb) && s.round.currentBet == s.cfg.bigBlind
    requires forall i :: 0 <= i < |s.players| && i != sb && i != Next(sb, |s.players|) ==> s.players[i].bet == 0
    requires s.players[sb].bet <= s.cfg.bigBlind && s.players[Next(sb, |s.players|)].bet <= s.cfg.bigBlind
    requires StraddleFits(s, sb) ==>
      s.players[sb].bet <= s.cfg.straddleAmount || s.players[Next(sb, |s.players|)].bet <= s.cfg.straddleAmount
    ensures var r := PostStraddle(s); OneAbove(r.players, r.round.currentBet)
  {
    var n := |s.players|;
    var bb := Next(sb, n);
    FindSeat(s.players, bb);
    var r := PostStraddle(s);
    assert Healthy(s.players[Next(bb, n)]);
    assert forall j :: 0 <= j < n && j != sb && j != bb && j != Next(bb, n) ==> r.players[j] == s.players[j];
    assert WithinBut(r.players, r.round.currentBet, if r.players[sb].bet > r.round.currentBet then sb else bb);
  }

  lemma {:induction false} OpenedAbove(cfg: Config, seats: seq<Seat>, shuffled: seq<Card>)
    requires Acceptable(cfg, seats, shuffled) && ButtonIndex(cfg, Seated(cfg, seats)) >= 0
    requires !TwoAboveStraddle(cfg, seats)
    ensures var r := Opened(cfg, seats, shuffled); OneAbove(r.players, r.round.currentBet)
  {
    var sb := SmallBlindAt(cfg, Seated(cfg, seats));
    var s := PostBlinds(Anted(cfg, seats, shuffled));
    StraddleIsFull(cfg, seats, shuffled);
    AntedWell(cfg, seats, shuffled);
    PostBlindsKeep(Anted(cfg, seats, shuffled), sb);
    BlindsStay(Anted(cfg, seats, shuffled), s, sb);
    AntedExactly(cfg, seats, shuffled, sb);
    AntedExactly(cfg, seats, shuffled, Next(sb, |s.players|));
    StraddleAbove(s, sb);
  }

  lemma {:induction false} NewHandEven(cfg: Config, seats: seq<Seat>, shuffled: seq<Card>, c: int)
    requires SaneConfig(cfg, seats) && LevelStart(cfg, seats, c) && NewHand(cfg, seats, shuffled).Done?
    requires !TwoAboveStraddle(cfg, seats)
    ensures Even(NewHand(cfg, seats, shuffled).state)
  {
    NewHandAccepts(cfg, seats, shuffled);
    OpenedWell(cfg, seats, shuffled);
    OpenedEven(cfg, seats, shuffled, c);
    OpenedAbove(cfg, seats, shuffled);
    DealtEven(Opened(cfg, seats, shuffled), ButtonIndex(cfg, Seated(cfg, seats)), c);
  }

  lemma {:induction false} DealtEven(s: State, b: nat, ante: int)
    requires Posting(s) && PriceLevels(s) && b < |s.players| && 2 * |s.players| <= |s.deal.deck|
    requires EvenAt(s.players, ante) && OneAbove(s.players, s.round.currentBet)
    ensures Even(Settle(DealHoles(s, b), FirstToAct(DealHoles(s, b), b), true))
  {
    var s1 := DealHoles(s, b);
    DealHolesKeeps(s, b);
    EvenPointwise(s.players, s1.players, ante);
    var e :| WithinBut(s.players, s.round.currentBet, e);
    assert WithinBut(s1.players, s1.round.currentBet, e);
    SettleEven(s1, FirstToAct(s1, b), true, ante);
  }

  // ---- every run ------------------------------------------------------------------------------------

  lemma {:induction false} RunEven(s: State, cs: seq<Command>)
    requires Inv(s) && Even(s)
    ensures Inv(Run(s, cs)) && Even(Run(s, cs))
    decreases |cs|
  {
    if cs != [] {
      RunEven(s, cs[..|cs| - 1]);
      StepKeeps(Run(s, cs[..|cs| - 1]), cs[|cs| - 1]);
      StepEven(Run(s, cs[..|cs| - 1]), cs[|cs| - 1]);
    }
  }

  // When the start is level, at every moment of every run before the result: the players who can
  // still bet have all put in the same and nobody has put in more, and the pots are those of
  // the chip-by-chip view.
  lemma {:induction false} PotsAlwaysFair(cfg: Config, seats: seq<Seat>, shuffled: seq<Card>, cs: seq<Command>, c: int)
    requires SaneConfig(cfg, seats) && LevelStart(cfg, seats, c) && NewHand(cfg, seats, shuffled).Done?
    requires !TwoAboveStraddle(cfg, seats)
    ensures var r := Run(NewHand(cfg, seats, shuffled).state, cs);
            r.phase != Result ==>
              && (forall i, j :: 0 <= i < |r.players| && 0 <= j < |r.players| && Active(r.players[i]) ==>
                    r.players[j].committed <= r.players[i].committed)
              && AllLayersFair(Contributions(r.players))
  {
    NewHandStarts(cfg, seats, shuffled);
    NewHandEven(cfg, seats, shuffled, c);
    var r := Run(NewHand(cfg, seats, shuffled).state, cs);
    RunEven(NewHand(cfg, seats, shuffled).state, cs);
    if r.phase != Result {
      var d :| EvenAt(r.players, d);
      EvenPotsAreFair(r.players, d);
    }
  }

  // ---- when the round closes on uneven contributions --------------------------------------------------

  ghost predicate NobodyAllIn(ps: seq<Player>) {
    forall i :: 0 <= i < |ps| && !ps[i].folded ==> !ps[i].allIn
  }

  ghost predicate LiveLevel(ps: seq<Player>) {
    forall i, j :: 0 <= i < |ps| && 0 <= j < |ps| && !ps[i].folded && !ps[j].folded ==>
      ps[i].committed == ps[j].committed
  }

  // When two players can still bet, no bet goes back to anybody who can.
  lemma {:induction false} LiveBetsStay(s: State, i: nat, j: nat, k: nat)
    requires Playing(s) && RoundComplete(s.players, s.round.currentBet)
    requires i < j < |s.players| && Active(s.players[i]) && Active(s.players[j])
    requires k < |s.players| && Active(s.players[k])
    ensures ReturnUncalled(s).players[k] == s.players[k] && s.players[k].bet == s.round.currentBet
  {
    var n := |s.players|;
    var t := TopBettor(s.players, n);
    TopBettorIsTop(s.players, n);
    SecondBetIsSecond(s.players, t, n);
    assert s.players[i].bet == s.players[j].bet == s.players[k].bet == s.round.currentBet;
  }

  // A street before the river ends with its bets in the pots.
  lemma {:induction false} StreetContributions(s: State)
    requires |s.players| > 0 && s.deal.street == PREFLOP
    ensures var r := EndStreet(s);
            r.phase == DealPending && Contributions(r.players) == Contributions(CloseBets(s).players)
  {
  }

  // With nobody all-in, a street that closes at a positive price lays out the pots of the
  // chip-by-chip view if and only if the live players had put in the same before it.
  lemma {:induction false} FairIffLevel(s: State, i: nat, j: nat)
    requires Playing(s) && RoundComplete(s.players, s.round.currentBet) && s.round.currentBet > 0
    requires NobodyAllIn(s.players) && i < j < |s.players| && !s.players[i].folded && !s.players[j].folded
    ensures AllLayersFair(Contributions(CloseBets(s).players)) <==> LiveLevel(s.players)
  {
    var ps := s.players;
    var qs := CloseBets(s).players;
    ClosedBets(s);
    SameSeatsSeating(ps, qs);
    ContributionsFine(qs);
    LayersFairIff(Contributions(qs));
    forall k | 0 <= k < |ps| && !ps[k].folded
      ensures !qs[k].allIn && qs[k].committed == ps[k].committed + s.round.currentBet && ps[k].committed >= 0
    {
      LiveBetsStay(s, i, j, k);
      assert Healthy(ps[k]);
    }
    LevelIsMatched(ps, qs, s.round.currentBet, i);
  }

  lemma {:induction false} LevelIsMatched(ps: seq<Player>, qs: seq<Player>, price: int, i: nat)
    requires |qs| == |ps| && price > 0 && NobodyAllIn(ps) && i < |ps| && !ps[i].folded
    requires forall k :: 0 <= k < |ps| ==> qs[k].folded == ps[k].folded
    requires forall k :: 0 <= k < |ps| && !ps[k].folded ==>
      !qs[k].allIn && ps[k].committed >= 0 && qs[k].committed == ps[k].committed + price
    ensures LiveTotalsMatched(Contributions(qs)) <==> LiveLevel(ps)
  {
    var cs := Contributions(qs);
    var top := MaxLive(cs, |cs|);
    MaxLiveBounds(cs, |cs|);
    forall k, x ensures !IsAllInLevel(cs, k, x) { }
    assert !cs[i].folded;
    if LiveTotalsMatched(cs) {
      forall k | 0 <= k < |ps| && !ps[k].folded ensures cs[k].total == top {
        assert IsLevel(cs, top, cs[k].total);
      }
      assert forall k :: 0 <= k < |ps| && !ps[k].folded ==> ps[k].committed == top - price;
    }
  }

  // ---- the gap a dead blind opens ---------------------------------------------------------------------

  // Two players still in: one who merely called, and one who did so on top of a dead blind.
  function DeadBlindPair(other: int, seat: int, called: int, dead: int): seq<Contribution> {
    [Contribution(other, called, false, false), Contribution(seat, called + dead, false, false)]
  }

  lemma {:induction false} GapMeasures(other: int, seat: int, called: int, dead: int)
    requires called > 0 && dead > 0
    ensures var cs := DeadBlindPair(other, seat, called, dead); var top := called + dead;
            && MaxLive(cs, 2) == top && NextLevel(cs, 0, top, 2) == top
            && Contributed(cs, 2) == Below(cs, top, 2) == top + called && Below(cs, 0, 2) == 0
            && Contenders(cs, top, 2) == [seat]
  {
    var cs := DeadBlindPair(other, seat, called, dead); var top := called + dead;
    assert MaxLive(cs, 0) == 0 && MaxLive(cs, 1) == called;
    assert NextLevel(cs, 0, top, 0) == top && NextLevel(cs, 0, top, 1) == top;
    assert Contributed(cs, 0) == 0 && Contributed(cs, 1) == called;
    assert Below(cs, top, 0) == 0 && Below(cs, top, 1) == called;
    assert Below(cs, 0, 0) == 0 && Below(cs, 0, 1) == 0;
    assert Contenders(cs, top, 0) == [] && Contenders(cs, top, 1) == [];
  }

  // With nobody all-in there is one level, which only the poster of the dead blind reaches: the
  // pot lists nobody else, and the caller cannot win their own chips back.
  lemma {:induction false} GapLayout(other: int, seat: int, called: int, dead: int)
    requires seat != other && called > 0 && dead > 0
    ensures Layout(DeadBlindPair(other, seat, called, dead)) == [Pot(2 * called + dead, [seat])]
  {
    var cs := DeadBlindPair(other, seat, called, dead);
    var top := called + dead;
    GapMeasures(other, seat, called, dead);
    Sorting.SortedAlready([seat], Identity);
    var pot := PotBetween(cs, 0, top);
    assert PotsAbove(cs, 0, top) == [pot] + PotsAbove(cs, top, top) == [pot];
    assert PotSum([pot]) == pot.amount + PotSum([]);
  }
}
