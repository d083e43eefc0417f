// Three starts of a hand that lead where the rules do not mean to go: a straddle posted in full
// below a blind who can still act, one below two blinds who are all-in, and a dead blind on top
// of a call. Each holds for every deck and for whole families of amounts.

module HandGaps {
  import opened Cards
  import opened Pots
  import opened HandModel
  import opened HandRules
  import opened HandChips
  import opened HandInvariant
  import opened HandStart
  import opened HandEven
  import Sorting

  const CHECK := Action(Check, 0)

  // ---- a short straddle -----------------------------------------------------------------------------

  // Three players with the button in seat 0, who is also left of the big blind and straddles.
  function ShortConfig(small: int, big: int, straddle: int): Config {
    Config(small, big, 0, 0, RevealAll, map[], 0, straddle, Holdem)
  }

  function ThreeSeats(a: int, b: int, c: int): seq<Seat> { [Seat(0, a), Seat(1, b), Seat(2, c)] }

  ghost predicate ShortAmounts(small: int, big: int, straddle: int, stack: int) {
    1 <= straddle < small <= big < stack
  }

  // Everybody has chips left; the blinds stand above the price, which is the straddle. The flags
  // say who has acted.
  ghost predicate Stranded(s: State, small: int, big: int, straddle: int, acted: seq<bool>) {
    && |s.players| == 3 == |acted| && s.phase == Betting && s.round.currentBet == straddle < small <= big
    && (forall i :: 0 <= i < 3 ==>
          && s.players[i].seat == i && Active(s.players[i]) && s.players[i].hasActed == acted[i]
          && s.players[i].bet == [straddle, small, big][i])
  }

  // The next of the three who has not acted, from position i on.
  function NextIdle(acted: seq<bool>, i: nat): int
    requires |acted| == 3 && i < 3
  {
    if !acted[i] then i else if !acted[Next(i, 3)] then Next(i, 3)
    else if !acted[Next(Next(i, 3), 3)] then Next(Next(i, 3), 3) else -1
  }

  lemma {:induction false} StrandedSettles(s: State, small: int, big: int, straddle: int, acted: seq<bool>, from: nat,
        inclusive: bool)
    requires Stranded(s, small, big, straddle, acted) && from < 3
    ensures var start := if inclusive then from else Next(from, 3);
            Settle(s, from, inclusive) == s.(round := s.round.(toAct := NextIdle(acted, start)))
    ensures !RoundComplete(s.players, straddle)
  {
    var ps := s.players;
    AllLive(ps, 3);
    assert Active(ps[2]) && ps[2].bet != straddle;
    var start := if inclusive then from else Next(from, 3);
    var second := Next(start, 3);
    var third := Next(second, 3);
    assert NextActor(ps, straddle, third, 1) == if NeedsToAct(ps[third], straddle) then third
      else NextActor(ps, straddle, start, 0);
    assert NextActor(ps, straddle, second, 2) ==
           if NeedsToAct(ps[second], straddle) then second else NextActor(ps, straddle, third, 1);
    assert NextActor(ps, straddle, start, 3) ==
           if NeedsToAct(ps[start], straddle) then start else NextActor(ps, straddle, second, 2);
  }

  // A check is accepted from everybody, the blinds included.
  lemma {:induction false} CheckPasses(s: State, small: int, big: int, straddle: int, acted: seq<bool>, i: nat)
    requires Stranded(s, small, big, straddle, acted) && i < 3 && s.round.toAct == i
    ensures var r := After(s, DoApply(i, CHECK)); var more := acted[i := true];
            && Stranded(r, small, big, straddle, more)
            && r.round.toAct == NextIdle(more, Next(i, 3))
            && !RoundComplete(r.players, r.round.currentBet)
  {
    var p := s.players[i];
    var m := Perform(s.cfg, s.round, p, CHECK);
    assert m == Moved(p, s.round, Check);
    FindAt(s.players, i);
    var s1 := AfterMove(s, p, s.round, Check);
    assert Stranded(s1, small, big, straddle, acted[i := true]);
    StrandedSettles(s1, small, big, straddle, acted[i := true], i, false);
  }

  lemma {:induction false} FindAt(ps: seq<Player>, i: nat)
    requires |ps| == 3 && i < 3 && forall k :: 0 <= k < 3 ==> ps[k].seat == k
    ensures Find(ps, i) == i
  {
    assert ps[i].seat == i;
    IndexOfBound(ps, i, 3);
  }

  ghost predicate ThreeStacks(small: int, big: int, a: int, b: int, c: int) {
    1 <= small <= big && a > 0 && b > 0 && c > 0
  }

  lemma {:induction false} ThreeSeated(small: int, big: int, straddle: int, a: int, b: int, c: int)
    ensures var cfg := ShortConfig(small, big, straddle); var seats := ThreeSeats(a, b, c);
            var ps := Seated(cfg, seats);
            && |ps| == 3 && ButtonIndex(cfg, ps) == 0
            && forall i :: 0 <= i < 3 ==> ps[i] == NewPlayer(cfg, seats[i])
  {
    var cfg := ShortConfig(small, big, straddle);
    Sorting.SortedAlready(ThreeSeats(a, b, c), SeatNumber);
    FindAt(Seated(cfg, ThreeSeats(a, b, c)), 0);
  }

  // The three of them after the blinds.
  lemma {:induction false} ThreeBlinds(small: int, big: int, straddle: int, a: int, b: int, c: int,
        shuffled: seq<Card>)
    requires ThreeStacks(small, big, a, b, c) && |shuffled| == DeckSize(Holdem)
    ensures var cfg := ShortConfig(small, big, straddle); var seats := ThreeSeats(a, b, c);
            && Acceptable(cfg, seats, shuffled) && ButtonIndex(cfg, Seated(cfg, seats)) == 0
            && var s := PostBlinds(Anted(cfg, seats, shuffled));
               && |s.players| == 3 && Find(s.players, s.bbSeat) == 2 && s.cfg == cfg && s.phase == Betting
               && s.players[0] == NewPlayer(cfg, Seat(0, a))
               && s.players[1] == Stake(NewPlayer(cfg, Seat(1, b)), small)
               && s.players[2] == Stake(NewPlayer(cfg, Seat(2, c)), big)
               && s.deal.deck == shuffled && s.deal.street == PREFLOP
  {
    var cfg := ShortConfig(small, big, straddle);
    var seats := ThreeSeats(a, b, c);
    assert seats[0].seat == cfg.button;
    ThreeSeated(small, big, straddle, a, b, c);
    AntedWell(cfg, seats, shuffled);
    AntedExactly(cfg, seats, shuffled, 0);
    AntedExactly(cfg, seats, shuffled, 1);
    AntedExactly(cfg, seats, shuffled, 2);
    PostBlindsKeep(Anted(cfg, seats, shuffled), 1);
    FindAt(PostBlinds(Anted(cfg, seats, shuffled)).players, 2);
  }

  // The straddle, the cards and the first turn.
  lemma {:induction false} ShortDeals(s: State, small: int, big: int, straddle: int, stack: int)
    requires ShortAmounts(small, big, straddle, stack) && |s.players| == 3 && Find(s.players, s.bbSeat) == 2
    requires var cfg := ShortConfig(small, big, straddle);
             && s.cfg == cfg && s.phase == Betting && 6 <= |s.deal.deck|
             && s.players[0] == NewPlayer(cfg, Seat(0, stack))
             && s.players[1] == Stake(NewPlayer(cfg, Seat(1, stack)), small)
             && s.players[2] == Stake(NewPlayer(cfg, Seat(2, stack)), big)
    ensures var r := DealHoles(PostStraddle(s), 0);
            Stranded(r, small, big, straddle, [false, false, false]) && FirstToAct(r, 0) == 1
  {
    var s4 := PostStraddle(s);
    assert s4.players == s.players[0 := Stake(s.players[0], straddle)];
    var s5 := DealHoles(s4, 0);
    FindAt(s5.players, 0);
  }

  lemma {:induction false} ShortOpens(small: int, big: int, straddle: int, stack: int, shuffled: seq<Card>)
    requires ShortAmounts(small, big, straddle, stack) && |shuffled| == DeckSize(Holdem)
    ensures var outcome := NewHand(ShortConfig(small, big, straddle), ThreeSeats(stack, stack, stack), shuffled);
            && outcome.Done? && outcome.state.round.toAct == 1
            && Stranded(outcome.state, small, big, straddle, [false, false, false])
  {
    var cfg := ShortConfig(small, big, straddle);
    var seats := ThreeSeats(stack, stack, stack);
    ThreeBlinds(small, big, straddle, stack, stack, stack, shuffled);
    NewHandAccepts(cfg, seats, shuffled);
    ShortDeals(PostBlinds(Anted(cfg, seats, shuffled)), small, big, straddle, stack);
    var s := DealHoles(Opened(cfg, seats, shuffled), 0);
    StrandedSettles(s, small, big, straddle, [false, false, false], 1, true);
  }

  lemma {:induction false} ThreeChecks(s: State, small: int, big: int, straddle: int)
    requires Stranded(s, small, big, straddle, [false, false, false]) && s.round.toAct == 1
    ensures var r := After(After(After(s, DoApply(1, CHECK)), DoApply(2, CHECK)), DoApply(0, CHECK));
            r.phase == Betting && r.round.toAct == -1 && !RoundComplete(r.players, r.round.currentBet)
  {
    CheckPasses(s, small, big, straddle, [false, false, false], 1);
    var s1 := After(s, DoApply(1, CHECK));
    CheckPasses(s1, small, big, straddle, [false, true, false], 2);
    var s2 := After(s1, DoApply(2, CHECK));
    CheckPasses(s2, small, big, straddle, [false, true, true], 0);
  }

  // Three checks later nobody is left who needs to act, and yet the round is not complete: this
  // is where the source panics.
  lemma {:induction false} ShortStraddlePanics(small: int, big: int, straddle: int, stack: int, shuffled: seq<Card>)
    requires ShortAmounts(small, big, straddle, stack) && |shuffled| == DeckSize(Holdem)
    ensures var cfg := ShortConfig(small, big, straddle); var seats := ThreeSeats(stack, stack, stack);
            var outcome := NewHand(cfg, seats, shuffled);
            && StrandedBlind(cfg, seats) && outcome.Done?
            && var r := After(After(After(outcome.state, DoApply(1, CHECK)), DoApply(2, CHECK)), DoApply(0, CHECK));
               r.phase == Betting && r.round.toAct == -1 && !RoundComplete(r.players, r.round.currentBet)
  {
    ThreeSeated(small, big, straddle, stack, stack, stack);
    ShortOpens(small, big, straddle, stack, shuffled);
    var s := NewHand(ShortConfig(small, big, straddle), ThreeSeats(stack, stack, stack), shuffled).state;
    ThreeChecks(s, small, big, straddle);
  }

  // ---- both blinds all-in above the straddle --------------------------------------------------------

  // The straddler can still act; both blinds are all-in for more than the price.
  ghost predicate Outbid(s: State, straddle: int) {
    && |s.players| == 3 && Seating(s.players) && AllHealthy(s.players)
    && s.phase == Betting && s.deal.street == PREFLOP && s.round.currentBet == straddle > 0
    && Active(s.players[0]) && s.players[0].bet == straddle
    && forall i :: 0 <= i < 3 ==>
         && !s.players[i].folded && s.players[i].committed == 0
         && (i > 0 ==> s.players[i].allIn && s.players[i].bet > straddle)
  }

  // What the straddler has put in is no level of the pots, and less than the most.
  lemma {:induction false} OutbidIsUnfair(s: State, straddle: int)
    requires Outbid(s, straddle)
    ensures !AllLayersFair(Contributions(CloseBets(s).players))
  {
    var qs := CloseBets(s).players;
    var cs := Contributions(qs);
    var t := TopBettor(s.players, 3);
    ReturnedBets(s);
    TopBettorIsTop(s.players, 3);
    SecondBetIsSecond(s.players, t, 3);
    ClosedBets(s);
    SameSeatsSeating(s.players, qs);
    ContributionsFine(qs);
    assert cs[0].total == straddle && cs[1].total > straddle && cs[2].total > straddle;
    assert s.players[1].bet > straddle && s.players[2].bet > straddle;
    MaxLiveBounds(cs, 3);
    forall i ensures !IsAllInLevel(cs, i, straddle) { }
    assert !IsLevel(cs, MaxLive(cs, 3), cs[0].total);
    LayersFairIff(cs);
  }

  lemma {:induction false} OutbidDeals(s: State, small: int, big: int, straddle: int, a: int, b: int, c: int)
    requires 1 <= straddle < a && straddle < b <= small && straddle < c <= big && small <= big
    requires |s.players| == 3 && Find(s.players, s.bbSeat) == 2 && 6 <= |s.deal.deck| && s.deal.street == PREFLOP
    requires var cfg := ShortConfig(small, big, straddle);
             && s.cfg == cfg && s.phase == Betting
             && s.players[0] == NewPlayer(cfg, Seat(0, a))
             && s.players[1] == Stake(NewPlayer(cfg, Seat(1, b)), small)
             && s.players[2] == Stake(NewPlayer(cfg, Seat(2, c)), big)
    ensures Outbid(DealHoles(PostStraddle(s), 0), straddle)
  {
    var s4 := PostStraddle(s);
    assert s4.players == s.players[0 := Stake(s.players[0], straddle)];
  }

  lemma {:induction false} OutbidCloses(s: State, straddle: int, from: nat)
    requires Outbid(s, straddle) && from < 3
    ensures Settle(s, from, true) == EndStreet(s)
  {
    AllLive(s.players, 3);
    assert ActiveCount(s.players, 0) == 0 && ActiveCount(s.players, 1) == 1 && ActiveCount(s.players, 2) == 1;
    assert RoundComplete(s.players, straddle);
  }

  // For every deck: both blinds are all-in above a straddle posted in full, the street is over at
  // once, and the straddler is not in for the chips they have put in.
  lemma {:induction false} BlindsOverStraddle(small: int, big: int, straddle: int, a: int, b: int, c: int,
        shuffled: seq<Card>)
    requires 1 <= straddle < a && straddle < b <= small && straddle < c <= big && small <= big
    requires |shuffled| == DeckSize(Holdem)
    ensures var cfg := ShortConfig(small, big, straddle); var seats := ThreeSeats(a, b, c);
            var outcome := NewHand(cfg, seats, shuffled);
            && TwoAboveStraddle(cfg, seats) && SaneConfig(cfg, seats) && LevelStart(cfg, seats, 0)
            && outcome.Done? && outcome.state.phase == DealPending
            && !AllLayersFair(Contributions(outcome.state.players))
  {
    var cfg := ShortConfig(small, big, straddle);
    var seats := ThreeSeats(a, b, c);
    ThreeSeated(small, big, straddle, a, b, c);
    ThreeBlinds(small, big, straddle, a, b, c, shuffled);
    NewHandAccepts(cfg, seats, shuffled);
    OutbidDeals(PostBlinds(Anted(cfg, seats, shuffled)), small, big, straddle, a, b, c);
    var s := DealHoles(Opened(cfg, seats, shuffled), 0);
    OutbidCloses(s, straddle, FirstToAct(s, 0));
    OutbidIsUnfair(s, straddle);
    StreetContributions(s);
  }

  // ---- a dead blind ------------------------------------------------------------------------------------

  // Heads-up, the button and small blind in seat 0; the big blind in seat 1 owes a dead blind.
  function DeadConfig(small: int, big: int, dead: int): Config {
    Config(small, big, 0, 0, RevealAll, map[1 := dead], -1, 0, Holdem)
  }

  function TwoSeats(first: int, second: int): seq<Seat> { [Seat(0, first), Seat(1, second)] }

  ghost predicate DeadAmounts(small: int, big: int, dead: int, first: int, second: int) {
    1 <= small < big < first && dead > 0 && big + dead < second
  }

  lemma {:induction false} PairFind(ps: seq<Player>, i: nat)
    requires |ps| == 2 && i < 2 && ps[0].seat == 0 && ps[1].seat == 1
    ensures Find(ps, i) == i
  {
    assert ps[i].seat == i;
    IndexOfBound(ps, i, 2);
  }

  // The two players: chips in front of them, chips in the pot and whether they have acted.
  ghost predicate Pair(s: State, price: int, bets: (int, int), paid: (int, int), acted: (bool, bool)) {
    && |s.players| == 2 && s.phase == Betting && s.round.currentBet == price && s.deal.street == PREFLOP
    && s.players[0].seat == 0 && Active(s.players[0]) && s.players[0].stack > 0
    && s.players[0].bet == bets.0 && s.players[0].committed == paid.0 && s.players[0].hasActed == acted.0
    && s.players[1].seat == 1 && Active(s.players[1]) && s.players[1].stack > 0
    && s.players[1].bet == bets.1 && s.players[1].committed == paid.1 && s.players[1].hasActed == acted.1
  }

  lemma {:induction false} DeadBlinds(small: int, big: int, dead: int, first: int, second: int, shuffled: seq<Card>)
    requires DeadAmounts(small, big, dead, first, second) && |shuffled| == DeckSize(Holdem)
    ensures var cfg := DeadConfig(small, big, dead); var seats := TwoSeats(first, second);
            && Acceptable(cfg, seats, shuffled) && ButtonIndex(cfg, Seated(cfg, seats)) == 0
            && var s := PostBlinds(Anted(cfg, seats, shuffled));
               && Pair(s, big, (small, big), (0, dead), (false, false)) && s.cfg == cfg && s.straddleSeat == -1
               && s.deal.deck == shuffled
               && s.players[0].stack == first - small && s.players[1].stack == second - dead - big
  {
    var cfg := DeadConfig(small, big, dead);
    var seats := TwoSeats(first, second);
    Sorting.SortedAlready(seats, SeatNumber);
    assert seats[0].seat == cfg.button;
    PairFind(Seated(cfg, seats), 0);
    AntedWell(cfg, seats, shuffled);
    AntedExactly(cfg, seats, shuffled, 0);
    AntedExactly(cfg, seats, shuffled, 1);
    PostBlindsKeep(Anted(cfg, seats, shuffled), 0);
  }

  lemma {:induction false} DeadOpens(small: int, big: int, dead: int, first: int, second: int, shuffled: seq<Card>)
    requires DeadAmounts(small, big, dead, first, second) && |shuffled| == DeckSize(Holdem)
    ensures var outcome := NewHand(DeadConfig(small, big, dead), TwoSeats(first, second), shuffled);
            && outcome.Done? && outcome.state.round.toAct == 0
            && Pair(outcome.state, big, (small, big), (0, dead), (false, false))
            && outcome.state.players[0].stack == first - small
  {
    var cfg := DeadConfig(small, big, dead);
    var seats := TwoSeats(first, second);
    DeadBlinds(small, big, dead, first, second, shuffled);
    NewHandAccepts(cfg, seats, shuffled);
    var s := DealHoles(Opened(cfg, seats, shuffled), 0);
    PairFind(s.players, 0);
    PairSettles(s, big, (small, big), (0, dead), (false, false), 0, true);
  }

  lemma {:induction false} PairSettles(
      s: State, price: int, bets: (int, int), paid: (int, int), acted: (bool, bool), from: nat, inclusive: bool)
    requires Pair(s, price, bets, paid, acted) && from < 2
    requires bets.1 == price >= bets.0 && !acted.1
    requires if inclusive then from == 0 && !acted.0 else from == 0 && acted.0 && bets.0 == price
    ensures Settle(s, from, inclusive) == s.(round := s.round.(toAct := if inclusive then 0 else 1))
  {
    var ps := s.players;
    AllLive(ps, 2);
    ActiveAtLeast(ps, 1, 2);
    assert Active(ps[0]) && Active(ps[1]) && !ps[1].hasActed;
    assert !RoundComplete(ps, price);
    assert NeedsToAct(ps[1], price);
  }

  // The call completes the price; the big blind may still check.
  lemma {:induction false} PairCalls(s: State, small: int, big: int, dead: int)
    requires 1 <= small < big && Pair(s, big, (small, big), (0, dead), (false, false)) && s.round.toAct == 0
    requires s.players[0].stack > big - small
    ensures var r := After(s, DoApply(0, Action(Call, 0)));
            Pair(r, big, (big, big), (0, dead), (true, false)) && r.round.toAct == 1
  {
    PairFind(s.players, 0);
    var p := s.players[0];
    var m := Perform(s.cfg, s.round, p, Action(Call, 0));
    assert m == Moved(Commit(p, big - small), s.round, Call);
    var s1 := AfterMove(s, m.player, m.round, m.kind);
    PairSettles(s1, big, (big, big), (0, dead), (true, false), 0, false);
  }

  // The check closes the street and lays out the pots.
  lemma {:induction false} PairChecks(s: State, big: int, dead: int)
    requires big > 0 && Pair(s, big, (big, big), (0, dead), (true, false)) && s.round.toAct == 1
    ensures var r := After(s, DoApply(1, CHECK));
            r.phase == DealPending && Contributions(r.players) == DeadBlindPair(0, 1, big, dead)
  {
    PairFind(s.players, 1);
    var p := s.players[1];
    assert Perform(s.cfg, s.round, p, CHECK) == Moved(p, s.round, Check);
    var s1 := AfterMove(s, p, s.round, Check);
    AllLive(s1.players, 2);
    assert RoundComplete(s1.players, s1.round.currentBet);
    PairCloses(s1, big, dead);
  }

  lemma {:induction false} PairCloses(s: State, big: int, dead: int)
    requires big > 0 && Pair(s, big, (big, big), (0, dead), (true, true))
    ensures EndStreet(s).phase == DealPending && Contributions(EndStreet(s).players) == DeadBlindPair(0, 1, big, dead)
  {
    var t := TopBettor(s.players, 2);
    TopBettorIsTop(s.players, 2);
    SecondBetIsSecond(s.players, t, 2);
    assert s.players[0].bet == s.players[1].bet == big;
    assert ReturnUncalled(s) == s;
    var ps := CloseBets(s).players;
    ActiveAtLeast(ps, 0, 2);
    assert Active(ps[1]);
    assert Contributions(ps) == DeadBlindPair(0, 1, big, dead);
  }

  // A call and a check, and the caller is not eligible for the only pot: the layer of the call
  // is contested by the poster of the dead blind alone.
  lemma {:induction false} DeadBlindGap(small: int, big: int, dead: int, first: int, second: int, shuffled: seq<Card>)
    requires DeadAmounts(small, big, dead, first, second) && |shuffled| == DeckSize(Holdem)
    ensures var outcome := NewHand(DeadConfig(small, big, dead), TwoSeats(first, second), shuffled);
            && outcome.Done?
            && var r := After(After(outcome.state, DoApply(0, Action(Call, 0))), DoApply(1, CHECK));
               && r.phase == DealPending && Contributions(r.players) == DeadBlindPair(0, 1, big, dead)
               && PotsOf(r.players) == [Pot(2 * big + dead, [1])] && !AllLayersFair(Contributions(r.players))
  {
    DeadOpens(small, big, dead, first, second, shuffled);
    var s := NewHand(DeadConfig(small, big, dead), TwoSeats(first, second), shuffled).state;
    PairCalls(s, small, big, dead);
    var s1 := After(s, DoApply(0, Action(Call, 0)));
    PairChecks(s1, big, dead);
    var r := After(s1, DoApply(1, CHECK));
    GapLayout(0, 1, big, dead);
    PairIsUnfair(big, dead);
  }

  lemma {:induction false} PairIsUnfair(called: int, dead: int)
    requires called > 0 && dead > 0
    ensures !AllLayersFair(DeadBlindPair(0, 1, called, dead))
  {
    var cs := DeadBlindPair(0, 1, called, dead);
    GapMeasures(0, 1, called, dead);
    forall i ensures !IsAllInLevel(cs, i, called) { }
    assert !IsLevel(cs, called + dead, cs[0].total);
    assert !LiveTotalsMatched(cs);
    LayersFairIff(cs);
  }
}
