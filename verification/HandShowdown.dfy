// The staged showdown: whatever the reveal policy, mucking never costs anybody a chip, and the
// winners worked out when it starts are the ones paid when it ends.

module HandShowdown {
  import opened Cards
  import opened Pots
  import opened Payout
  import opened HandModel
  import opened HandRules
  import opened HandChips
  import opened HandInvariant
  import opened HandStart

  // ---- what decides the winners ------------------------------------------------------------------

  // The same cards and contributions, whoever has shown.
  ghost predicate SameStakes(ps: seq<Player>, qs: seq<Player>) {
    |ps| == |qs| && forall i :: 0 <= i < |ps| ==>
      && Kin(ps[i], qs[i]) && ps[i].committed == qs[i].committed
      && ps[i].folded == qs[i].folded && ps[i].allIn == qs[i].allIn
  }

  lemma {:induction false} SamePots(ps: seq<Player>, qs: seq<Player>)
    requires SameStakes(ps, qs)
    ensures PotsOf(qs) == PotsOf(ps)
  {
    assert Contributions(ps) == Contributions(qs) by {
      forall i | 0 <= i < |ps| ensures Contributions(ps)[i] == Contributions(qs)[i] { assert Kin(ps[i], qs[i]); }
    }
  }

  lemma {:induction false} SameRanks(ps: seq<Player>, qs: seq<Player>, board: seq<Card>, n: nat)
    requires SameStakes(ps, qs) && n <= |ps|
    ensures RanksOf(ps, board, n) == RanksOf(qs, board, n)
  {
    if n > 0 {
      SameRanks(ps, qs, board, n - 1);
      assert Kin(ps[n - 1], qs[n - 1]);
    }
  }

  lemma {:induction false} RanksGive(ps: seq<Player>, board: seq<Card>, i: nat, n: nat)
    requires Seating(ps) && i < n <= |ps| && !ps[i].folded
    ensures HandRank(RanksOf(ps, board, n), ps[i].seat) == Strength(ps[i], board)
  {
    if i < n - 1 { RanksGive(ps, board, i, n - 1); }
  }

  lemma {:induction false} WinnerSeatsMean(pots: seq<Pot>, ranks: Ranks, button: int, seat: int)
    ensures seat in WinnerSeats(pots, ranks, button) <==>
      exists k :: 0 <= k < |pots| && seat in Winners(pots[k], ranks, button)
    decreases |pots|
  {
    if pots != [] {
      WinnerSeatsMean(pots[1..], ranks, button, seat);
      if k :| 0 <= k < |pots[1..]| && seat in Winners(pots[1..][k], ranks, button) {
        assert pots[1..][k] == pots[k + 1];
      }
      if k :| 0 <= k < |pots| && seat in Winners(pots[k], ranks, button) {
        if k > 0 { assert pots[1..][k - 1] == pots[k]; }
      }
    }
  }

  // ---- the invariant of the stages ----------------------------------------------------------------

  // Every pot the player could win already has a strictly better hand, of somebody else who can
  // win it, on the table.
  ghost predicate BeatenEverywhere(s: State, p: Player) {
    forall k :: 0 <= k < |PotsOf(s.players)| && p.seat in PotsOf(s.players)[k].eligible ==>
      Beaten(s, PotsOf(s.players)[k], p)
  }

  ghost predicate Staged(s: State) {
    && s.show.winners == WinnerSeats(PotsOf(s.players), BoardRanks(s), s.cfg.button)
    && forall i :: 0 <= i < |s.players| && s.players[i].mucked ==>
         && !s.players[i].revealed && !s.players[i].folded
         && s.players[i].seat !in s.show.winners
         && s.cfg.policy != RevealAll
         && (s.cfg.policy == RevealInOrder ==> BeatenEverywhere(s, s.players[i]))
  }

  // Nobody is asked twice: the players whose turn is to come have not mucked.
  ghost predicate StillToShow(s: State) {
    forall k :: s.show.idx <= k < |s.show.order| && s.show.order[k] < |s.players| ==> !s.players[s.show.order[k]].mucked
  }

  // At the result: who mucked won nothing and stays hidden, and who was paid at a showdown has
  // shown.
  ghost predicate MuckedLost(s: State) {
    forall i :: 0 <= i < |s.players| && s.players[i].mucked ==> s.players[i].won == 0 && !s.players[i].revealed
  }

  ghost predicate NobodyMucked(ps: seq<Player>) {
    forall i :: 0 <= i < |ps| ==> !ps[i].mucked && ps[i].won == 0
  }

  ghost predicate ShowdownSafe(s: State) {
    match s.phase
    case Showdown => Staged(s) && StillToShow(s) && forall i :: 0 <= i < |s.players| ==> s.players[i].won == 0
    case Result => MuckedLost(s)
    case _ => NobodyMucked(s.players)
  }

  // ---- one reveal ------------------------------------------------------------------------------------

  lemma {:induction false} NotBestWhenBeaten(s: State, i: nat, k: nat)
    requires Seating(s.players) && i < |s.players| && !s.players[i].folded && k < |PotsOf(s.players)|
    requires Beaten(s, PotsOf(s.players)[k], s.players[i])
    ensures s.players[i].seat !in Winners(PotsOf(s.players)[k], BoardRanks(s), s.cfg.button)
  {
    var pot := PotsOf(s.players)[k];
    var p := s.players[i];
    var j :| 0 <= j < |pot.eligible| && pot.eligible[j] != p.seat && Beats(s, pot.eligible[j], p);
    var q := Find(s.players, pot.eligible[j]);
    IndexOfBound(s.players, pot.eligible[j], |s.players|);
    RanksGive(s.players, s.deal.board, i, |s.players|);
    RanksGive(s.players, s.deal.board, q, |s.players|);
    assert pot.eligible[j] in pot.eligible;
    WinnersAreBest(pot, BoardRanks(s), s.cfg.button);
  }

  // Under the in-order policy only a hand beaten everywhere is mucked, and it wins nowhere.
  lemma {:induction false} MuckInOrder(s: State, i: nat)
    requires Sound(s) && Contested(s) && i < |s.players| && !s.players[i].folded
    requires s.cfg.policy == RevealInOrder && !MustShow(s, s.players[i])
    ensures BeatenEverywhere(s, s.players[i])
    ensures s.players[i].seat !in WinnerSeats(PotsOf(s.players), BoardRanks(s), s.cfg.button)
  {
    var pots := PotsOf(s.players);
    var seat := s.players[i].seat;
    PotsPayable(s.players);
    forall k | 0 <= k < |pots| ensures seat !in Winners(pots[k], BoardRanks(s), s.cfg.button) {
      if seat in pots[k].eligible {
        NotBestWhenBeaten(s, i, k);
      } else {
        WinnersAreBest(pots[k], BoardRanks(s), s.cfg.button);
      }
    }
    WinnerSeatsMean(pots, BoardRanks(s), s.cfg.button, seat);
  }

  lemma {:induction false} TurnedStakes(s: State, i: nat, show: bool)
    requires i < |s.players|
    ensures var r := Turned(s, i, show);
            && SameStakes(s.players, r.players) && r.deal == s.deal && r.cfg == s.cfg && r.show == s.show
            && (forall j :: 0 <= j < |s.players| && j != i ==> r.players[j] == s.players[j])
            && (forall j :: 0 <= j < |s.players| ==>
                (s.players[j].revealed ==> r.players[j].revealed) && r.players[j].won == s.players[j].won)
  {
    assert forall j :: 0 <= j < |s.players| ==> Kin(s.players[j], Turned(s, i, show).players[j]);
  }

  // A hand on the table stays there.
  lemma {:induction false} BeatsStays(s: State, r: State, seat: int, p: Player)
    requires SameStakes(s.players, r.players) && r.deal.board == s.deal.board
    requires forall j :: 0 <= j < |s.players| && s.players[j].revealed ==> r.players[j].revealed
    requires Beats(s, seat, p)
    ensures Beats(r, seat, p)
  {
    assert SameSeats(s.players, r.players);
    SameSeatsFind(s.players, r.players, seat, |s.players|);
    var i := Find(s.players, seat);
    assert Kin(s.players[i], r.players[i]);
  }

  lemma {:induction false} BeatenStays(s: State, r: State, pot: Pot, p: Player)
    requires SameStakes(s.players, r.players) && r.deal.board == s.deal.board
    requires forall j :: 0 <= j < |s.players| && s.players[j].revealed ==> r.players[j].revealed
    requires Beaten(s, pot, p)
    ensures Beaten(r, pot, p)
  {
    var k :| 0 <= k < |pot.eligible| && pot.eligible[k] != p.seat && Beats(s, pot.eligible[k], p);
    BeatsStays(s, r, pot.eligible[k], p);
  }

  lemma {:induction false} EverywhereStays(s: State, r: State, p: Player)
    requires SameStakes(s.players, r.players) && r.deal.board == s.deal.board
    requires forall j :: 0 <= j < |s.players| && s.players[j].revealed ==> r.players[j].revealed
    requires BeatenEverywhere(s, p)
    ensures BeatenEverywhere(r, p)
  {
    SamePots(s.players, r.players);
    forall k | 0 <= k < |PotsOf(r.players)| && p.seat in PotsOf(r.players)[k].eligible
      ensures Beaten(r, PotsOf(r.players)[k], p)
    {
      BeatenStays(s, r, PotsOf(s.players)[k], p);
    }
  }

  lemma {:induction false} EverywhereSameSeat(s: State, p: Player, q: Player)
    requires BeatenEverywhere(s, p) && Kin(p, q)
    ensures BeatenEverywhere(s, q)
  {
    forall k | 0 <= k < |PotsOf(s.players)| && q.seat in PotsOf(s.players)[k].eligible
      ensures Beaten(s, PotsOf(s.players)[k], q)
    {
      var pot := PotsOf(s.players)[k];
      var j :| 0 <= j < |pot.eligible| && pot.eligible[j] != p.seat && Beats(s, pot.eligible[j], p);
      assert Beats(s, pot.eligible[j], q);
    }
  }

  // What mucking at this turn takes for granted.
  ghost predicate MayMuck(s: State, i: nat)
    requires i < |s.players|
  {
    && s.players[i].seat !in s.show.winners && s.cfg.policy != RevealAll
    && (s.cfg.policy == RevealInOrder ==> BeatenEverywhere(s, s.players[i]))
  }

  lemma {:induction false} RefusalMayMuck(s: State, i: nat)
    requires Sound(s) && Contested(s) && Staged(s) && i < |s.players| && !s.players[i].folded
    ensures !MustShow(s, s.players[i]) ==> MayMuck(s, i)
  {
    if s.cfg.policy == RevealInOrder && !MustShow(s, s.players[i]) { MuckInOrder(s, i); }
  }

  lemma {:induction false} TurnedStaged(s: State, i: nat, show: bool)
    requires Sound(s) && Staged(s) && i < |s.players| && !s.players[i].folded && !s.players[i].mucked
    requires show || MayMuck(s, i)
    ensures Staged(Turned(s, i, show))
  {
    var r := Turned(s, i, show);
    TurnedStakes(s, i, show);
    SamePots(s.players, r.players);
    SameRanks(s.players, r.players, s.deal.board, |s.players|);
    forall j | 0 <= j < |r.players| && r.players[j].mucked
      ensures s.cfg.policy == RevealInOrder ==> BeatenEverywhere(r, r.players[j])
      ensures r.players[j].seat !in r.show.winners && s.cfg.policy != RevealAll && !r.players[j].revealed
        && !r.players[j].folded
    {
      assert Kin(s.players[j], r.players[j]);
      if s.cfg.policy == RevealInOrder {
        EverywhereStays(s, r, s.players[j]);
        EverywhereSameSeat(r, s.players[j], r.players[j]);
      }
    }
  }

  // ---- the award after the stages ------------------------------------------------------------------------

  lemma {:induction false} MuckedWinNothing(s: State, i: nat)
    requires Sound(s) && Contested(s) && !s.deal.runTwice && i < |s.players|
    requires s.players[i].seat !in WinnerSeats(PotsOf(s.players), BoardRanks(s), s.cfg.button)
    ensures WonBy(FinalAwards(s), s.players[i].seat) == 0 && s.players[i].seat !in FinalWinners(s)
  {
    var pots := PotsOf(s.players);
    var seat := s.players[i].seat;
    PotsPayable(s.players);
    WinnerSeatsMean(pots, BoardRanks(s), s.cfg.button, seat);
    WonAtMostWinnable(pots, 0, BoardRanks(s), BoardRanks2(s), false, s.cfg.button, seat);
  }

  lemma {:induction false} AwardedPlayers(s: State, i: nat)
    requires Seating(s.players) && i < |s.players|
    ensures var r := AwardPots(s); var q := ShowWinners(s, FinalWinners(s)).players[i];
            && |r.players| == |s.players|
            && r.players[i] == Paid(q, WonBy(FinalAwards(s), s.players[i].seat)).(committed := 0)
            && q == s.players[i].(revealed := q.revealed)
            && (q.revealed <==> s.players[i].revealed || (!s.players[i].folded && s.players[i].seat in FinalWinners(s)))
            && r.finalPots == PotsOf(s.players)
  {
    var s1 := ShowWinners(s, FinalWinners(s));
    assert Seating(s1.players);
    PayAllGives(s1.players, FinalAwards(s), i);
    HiddenWinnersMean(s.players, FinalWinners(s), |s.players|);
  }

  lemma {:induction false} HiddenWinnersMean(ps: seq<Player>, winners: set<int>, n: nat)
    requires n <= |ps|
    ensures HiddenWinners(ps, winners, n) == [] <==>
              forall i :: 0 <= i < n && !ps[i].folded && ps[i].seat in winners ==> ps[i].revealed
  {
    if n > 0 { HiddenWinnersMean(ps, winners, n - 1); }
  }

  lemma {:induction false} StagedAward(s: State)
    requires Sound(s) && Contested(s) && !s.deal.runTwice && Staged(s)
    requires forall i :: 0 <= i < |s.players| ==> s.players[i].won == 0
    ensures MuckedLost(AwardPots(s)) && FinalWinners(s) == s.show.winners
  {
    forall i | 0 <= i < |s.players| && AwardPots(s).players[i].mucked
      ensures AwardPots(s).players[i].won == 0 && !AwardPots(s).players[i].revealed
    {
      AwardedPlayers(s, i);
      MuckedWinNothing(s, i);
    }
  }

  lemma {:induction false} PlainAward(s: State)
    requires Seating(s.players) && NobodyMucked(s.players)
    ensures MuckedLost(AwardPots(s))
  {
    forall i | 0 <= i < |s.players| ensures !AwardPots(s).players[i].mucked { AwardedPlayers(s, i); }
  }

  // Whoever is paid at a showdown has shown.
  lemma {:induction false} PaidHaveShown(s: State, i: nat)
    requires Sound(s) && Contested(s) && i < |s.players| && s.players[i].won == 0
    ensures var r := AwardPots(s); r.players[i].won > 0 ==> r.players[i].revealed && !r.players[i].folded
  {
    var pots := PotsOf(s.players);
    var seat := s.players[i].seat;
    AwardedPlayers(s, i);
    PotsPayable(s.players);
    FindSeat(s.players, i);
    forall k | 0 <= k < |pots|
      ensures s.players[i].folded ==>
        seat !in Winners(pots[k], BoardRanks(s), s.cfg.button)
          && seat !in Winners(pots[k], BoardRanks2(s), s.cfg.button)
    {
      WinnersAreBest(pots[k], BoardRanks(s), s.cfg.button);
      WinnersAreBest(pots[k], BoardRanks2(s), s.cfg.button);
    }
    WinnerSeatsMean(pots, BoardRanks(s), s.cfg.button, seat);
    WinnerSeatsMean(pots, BoardRanks2(s), s.cfg.button, seat);
    WonAtMostWinnable(pots, 0, BoardRanks(s), BoardRanks2(s), s.deal.runTwice, s.cfg.button, seat);
  }

  // ---- keeping it -----------------------------------------------------------------------------------------

  lemma {:induction false} ToShowdownSafe(s: State)
    requires Sound(s) && Contested(s) && NobodyMucked(s.players)
    ensures ShowdownSafe(ToShowdown(s))
  {
    var s1 := s.(round := s.round.(toAct := -1));
    PlainAward(s1);
    ToShowdownPhase(s);
  }

  lemma {:induction false} ToShowdownPhase(s: State)
    requires |s.players| > 0
    ensures ToShowdown(s).phase == Showdown || ToShowdown(s) == AwardPots(s.(round := s.round.(toAct := -1)))
    ensures AwardPots(s.(round := s.round.(toAct := -1))).phase == Result
  {
  }

  lemma {:induction false} AwaitSafe(s: State)
    requires NobodyMucked(s.players)
    ensures ShowdownSafe(s.(phase := DealPending))
    ensures ShowdownSafe(RevealEveryone(s.(phase := DealPending, runout := true)))
  {
  }

  lemma {:induction false} EndStreetSafe(s: State)
    requires Playing(s) && LiveCount(s.players, |s.players|) >= 2 && NobodyMucked(s.players)
    ensures ShowdownSafe(EndStreet(s))
  {
    CloseBetsKeeps(s);
    var s1 := CloseBets(s).(round := CloseBets(s).round.(toAct := -1));
    LineageSelf(CloseBets(s), s1);
    SoundCarries(CloseBets(s), s1);
    if s.deal.street == RIVER { ToShowdownSafe(s1); } else { AwaitSafe(s1); }
  }

  lemma {:induction false} UncontestedSafe(s: State, winner: nat)
    requires Sound(s) && AllHealthy(s.players) && NobodyMucked(s.players) && winner < |s.players|
    ensures MuckedLost(FinishUncontested(s, winner)) && FinishUncontested(s, winner).phase == Result
  {
    ClosedBets(s);
    var s1 := CloseBets(s);
    SameSeatsSeating(s.players, s1.players);
    forall i | 0 <= i < |s.players| ensures !FinishUncontested(s, winner).players[i].mucked {
      PayAllGives(s1.players, SoleAwards(PotsOf(s1.players), 0, s.players[winner].seat), i);
    }
  }

  lemma {:induction false} SettleSafe(s: State, from: nat, inclusive: bool)
    requires Playing(s) && from < |s.players| && NobodyMucked(s.players)
    ensures ShowdownSafe(Settle(s, from, inclusive))
  {
    var n := |s.players|;
    LastLiveIsLive(s.players, n);
    if LiveCount(s.players, n) == 1 {
      UncontestedSafe(s, LastLive(s.players, n));
    } else if RoundComplete(s.players, s.round.currentBet) {
      EndStreetSafe(s);
    }
  }

  lemma {:induction false} ApplySafe(s: State, seat: int, a: Action)
    requires Inv(s) && ShowdownSafe(s) && Apply(s, seat, a).Done?
    ensures ShowdownSafe(Apply(s, seat, a).state)
  {
    var i := s.round.toAct;
    var m := Perform(s.cfg, s.round, s.players[i], a);
    assert Healthy(s.players[i]);
    PerformedIsFair(s.cfg, s.round, s.players[i], a);
    AfterMoveKeeps(s, a);
    SettleSafe(AfterMove(s, m.player, m.round, m.kind), i, false);
  }

  lemma {:induction false} LastStandingSafe(s: State, winner: nat)
    requires Sound(s) && AllHealthy(s.players) && NobodyMucked(s.players) && winner < |s.players|
    ensures ShowdownSafe(FinishUncontested(s.(phase := Betting), winner))
  {
    var s2 := s.(phase := Betting);
    LineageSelf(s, s2);
    SoundCarries(s, s2);
    UncontestedSafe(s2, winner);
  }

  lemma {:induction false} LeftOverSafe(s: State, i: nat)
    requires Sound(s) && AllHealthy(s.players) && NobodyMucked(s.players) && i < |s.players|
    requires LiveCount(s.players, |s.players|) >= 1
    requires if s.phase == Betting then Playing(s) else s.phase == DealPending
    ensures ShowdownSafe(LeftOver(s, i))
  {
    var n := |s.players|;
    LastLiveIsLive(s.players, n);
    if LiveCount(s.players, n) == 1 {
      LastStandingSafe(s, LastLive(s.players, n));
    } else if s.phase == Betting {
      if s.round.toAct == i { SettleSafe(s, i, false); }
      else if RoundComplete(s.players, s.round.currentBet) { EndStreetSafe(s); }
    }
  }

  lemma {:induction false} ForfeitSafe(s: State, seat: int)
    requires Inv(s) && ShowdownSafe(s) && Forfeit(s, seat).Done?
    ensures ShowdownSafe(Forfeit(s, seat).state)
  {
    var i := Find(s.players, seat);
    AfterForfeitFacts(s, i);
    assert NobodyMucked(AfterForfeit(s, i).players);
    ForfeitIs(s, seat);
    LeftOverSafe(AfterForfeit(s, i), i);
  }

  lemma {:induction false} AdvanceSafe(s: State)
    requires Inv(s) && ShowdownSafe(s) && Advance(s).Done?
    ensures ShowdownSafe(Advance(s).state)
  {
    var s1 := DealStreet(s);
    LineageSelf(s, s1);
    SoundCarries(s, s1);
    if s.runout {
      ToShowdownSafe(s1);
    } else {
      NewRoundKeeps(s1);
      SettleSafe(NewRound(s1), Next(ButtonIndex(s.cfg, s.players), |s.players|), true);
    }
  }

  lemma {:induction false} LiveFromWhere(ps: seq<Player>, i: nat, n: nat, k: nat)
    requires i < |ps| && n <= |ps| && k < |LiveFrom(ps, i, n)|
    ensures var x := LiveFrom(ps, i, n)[k]; (if x >= i then x - i else x + |ps| - i) < n
    decreases n
  {
    if n > 0 {
      var rest := LiveFrom(ps, Next(i, |ps|), n - 1);
      if ps[i].folded { LiveFromWhere(ps, Next(i, |ps|), n - 1, k); }
      else if k > 0 { LiveFromWhere(ps, Next(i, |ps|), n - 1, k - 1); }
    }
  }

  lemma {:induction false} LiveFromOnce(ps: seq<Player>, i: nat, n: nat)
    requires i < |ps| && n <= |ps|
    ensures forall a, b :: 0 <= a < b < |LiveFrom(ps, i, n)| ==> LiveFrom(ps, i, n)[a] != LiveFrom(ps, i, n)[b]
    decreases n
  {
    if n > 0 {
      var j := Next(i, |ps|);
      var rest := LiveFrom(ps, j, n - 1);
      LiveFromOnce(ps, j, n - 1);
      if !ps[i].folded {
        forall b | 0 <= b < |rest| ensures rest[b] != i { LiveFromWhere(ps, j, n - 1, b); }
      }
    }
  }

  // One reveal, up to the award: whether the player shows or has to muck.
  lemma {:induction false} TurnSafe(s: State, i: nat)
    requires Sound(s) && Contested(s) && !s.deal.runTwice && Staged(s)
    requires i < |s.players| && !s.players[i].folded && !s.players[i].mucked
    requires forall j :: 0 <= j < |s.players| ==> s.players[j].won == 0
    ensures var r := ShowOrMuck(s, i);
            && Staged(r) && MuckedLost(AwardPots(r)) && AwardPots(r).phase == Result
            && r == s.(players := r.players, log := r.log)
            && (forall j :: 0 <= j < |s.players| ==> r.players[j].won == 0)
            && (forall j :: 0 <= j < |s.players| && j != i ==> r.players[j] == s.players[j])
  {
    RefusalMayMuck(s, i);
    var show := MustShow(s, s.players[i]);
    TurnedStaged(s, i, show);
    TurnedStakes(s, i, show);
    TurnedKeeps(s, i, show);
    StagedAward(Turned(s, i, show));
  }

  lemma {:induction false} NextTurnSafe(s: State) returns (s1: State)
    requires Inv(s) && s.phase == Showdown && ShowdownSafe(s)
    ensures var i := s.show.order[s.show.idx];
            && s1 == ShowOrMuck(Called(s), i)
            && s1.phase == Showdown && Staged(s1) && MuckedLost(AwardPots(s1)) && AwardPots(s1).phase == Result
            && (forall j :: 0 <= j < |s1.players| ==> s1.players[j].won == 0) && StillToShow(s1)
  {
    var s0 := Called(s);
    var i := s.show.order[s.show.idx];
    LineageSelf(s, s0);
    SoundCarries(s, s0);
    OrderIsLive(s.players, ShowdownStart(s), |s.players|);
    StagedShow(s, s0);
    TurnSafe(s0, i);
    LiveFromOnce(s.players, ShowdownStart(s), |s.players|);
    s1 := ShowOrMuck(s0, i);
  }

  lemma {:induction false} RevealNextSafe(s: State)
    requires Inv(s) && ShowdownSafe(s) && RevealNext(s).Done?
    ensures ShowdownSafe(RevealNext(s).state)
  {
    var s1 := NextTurnSafe(s);
  }

  lemma {:induction false} StagedShow(s: State, s0: State)
    requires Staged(s) && s0 == Called(s)
    ensures Staged(s0)
  {
    forall i | 0 <= i < |s.players| && s.players[i].mucked && s.cfg.policy == RevealInOrder
      ensures BeatenEverywhere(s0, s.players[i])
    {
      forall k | 0 <= k < |PotsOf(s0.players)| && s.players[i].seat in PotsOf(s0.players)[k].eligible
        ensures Beaten(s0, PotsOf(s0.players)[k], s.players[i])
      {
        var pot := PotsOf(s.players)[k];
        var j :| 0 <= j < |pot.eligible| && pot.eligible[j] != s.players[i].seat
          && Beats(s, pot.eligible[j], s.players[i]);
        assert Beats(s0, pot.eligible[j], s.players[i]);
      }
    }
  }

  lemma {:induction false} TimeoutSafe(s: State, seat: int)
    requires Inv(s) && ShowdownSafe(s) && Timeout(s, seat).Done?
    ensures ShowdownSafe(Timeout(s, seat).state)
  {
    TimedOutPlaying(s);
    SettleSafe(AfterTimeout(s), s.round.toAct, false);
  }

  lemma {:induction false} StepSafe(s: State, c: Command)
    requires Inv(s) && ShowdownSafe(s)
    ensures ShowdownSafe(After(s, c))
  {
    if Step(s, c).Done? {
      match c
      case DoApply(seat, a) => ApplySafe(s, seat, a);
      case DoTimeout(seat) => TimeoutSafe(s, seat);
      case DoForfeit(seat) => ForfeitSafe(s, seat);
      case DoAdvance => AdvanceSafe(s);
      case DoRunItTwice =>
      case DoRevealNext => RevealNextSafe(s);
    }
  }

  lemma {:induction false} NewHandSafe(cfg: Config, seats: seq<Seat>, shuffled: seq<Card>)
    requires SaneConfig(cfg, seats) && NewHand(cfg, seats, shuffled).Done?
    ensures ShowdownSafe(NewHand(cfg, seats, shuffled).state)
  {
    var b := ButtonIndex(cfg, Seated(cfg, seats));
    OpenedWell(cfg, seats, shuffled);
    var s := Opened(cfg, seats, shuffled);
    DealHolesKeeps(s, b);
    SettleSafe(DealHoles(s, b), FirstToAct(DealHoles(s, b), b), true);
  }

  lemma {:induction false} RunSafe(s: State, cs: seq<Command>)
    requires Inv(s) && ShowdownSafe(s)
    ensures Inv(Run(s, cs)) && ShowdownSafe(Run(s, cs))
    decreases |cs|
  {
    if cs != [] {
      RunSafe(s, cs[..|cs| - 1]);
      StepKeeps(Run(s, cs[..|cs| - 1]), cs[|cs| - 1]);
      StepSafe(Run(s, cs[..|cs| - 1]), cs[|cs| - 1]);
    }
  }

  // In every run and under every policy: the winners worked out at the start of a staged
  // showdown stay the winners throughout, whoever mucks is not among them, under the in-order
  // policy is beaten in every pot by a hand on the table, and at the result has won nothing. A
  // hand run twice is never staged.
  lemma {:induction false} MuckingIsSafe(cfg: Config, seats: seq<Seat>, shuffled: seq<Card>, cs: seq<Command>)
    requires SaneConfig(cfg, seats) && NewHand(cfg, seats, shuffled).Done?
    ensures var r := Run(NewHand(cfg, seats, shuffled).state, cs);
            && (r.phase == Showdown ==> Staged(r) && !r.deal.runTwice)
            && (r.phase == Result ==> MuckedLost(r))
  {
    NewHandStarts(cfg, seats, shuffled);
    NewHandSafe(cfg, seats, shuffled);
    RunSafe(NewHand(cfg, seats, shuffled).state, cs);
  }
}
