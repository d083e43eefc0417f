// The staged showdown, hand by hand: who shows first, who shows and who mucks, and whose hands
// are on the table at the end. No more is shown than the policy and the pots ask for.

module HandShows {
  import opened Cards
  import opened Pots
  import opened Payout
  import opened HandModel
  import opened HandRules
  import opened HandChips
  import opened HandInvariant
  import opened HandStart
  import opened HandRuns
  import opened HandShowdown
  import opened HandPayout
  import opened HandMoves

  // ---- the order ------------------------------------------------------------------------------------------

  // How many places clockwise x is from start, going once round.
  function Gap(start: nat, x: nat, n: nat): int { if x >= start then x - start else x + n - start }

  // Everybody still in shows once, going clockwise from whoever shows first: the last aggressor if
  // still in, or else the first player still in left of the button.
  ghost predicate ShowsRound(s: State, order: seq<nat>) {
    var ps := s.players; var n := |ps|; var b := ButtonIndex(s.cfg, ps);
    && order != [] && (forall k :: 0 <= k < |order| ==> order[k] < n)
    && (forall j :: 0 <= j < n ==> (j in order <==> !ps[j].folded))
    && RunsOn(order, order[0], n, 0)
    && if 0 <= s.round.aggressor < n && !ps[s.round.aggressor].folded then order[0] == s.round.aggressor
       else b >= 0 && forall j :: 0 <= j < n && DealPlace(b, j, n) < DealPlace(b, order[0], n) ==> ps[j].folded
  }

  // Positions least places or more from the start, each further on than the one before.
  ghost predicate RunsOn(order: seq<nat>, start: nat, n: nat, least: int) {
    && (forall k :: 0 <= k < |order| ==> Gap(start, order[k], n) >= least)
    && (forall k, l :: 0 <= k < l < |order| ==> Gap(start, order[k], n) < Gap(start, order[l], n))
  }

  lemma {:induction false} RunsBefore(order: seq<nat>, start: nat, n: nat, i: nat)
    requires RunsOn(order, start, n, Gap(start, i, n) + 1)
    ensures RunsOn([i] + order, start, n, Gap(start, i, n)) && RunsOn(order, start, n, Gap(start, i, n))
  {
  }

  lemma {:induction false} RoundRuns(ps: seq<Player>, start: nat, i: nat, m: nat)
    requires start < |ps| && i < |ps| && m <= |ps| && (m > 0 ==> Gap(start, i, |ps|) == |ps| - m)
    ensures RunsOn(LiveFrom(ps, i, m), start, |ps|, |ps| - m)
    decreases m
  {
    if m > 0 {
      RoundRuns(ps, start, Next(i, |ps|), m - 1);
      RunsBefore(LiveFrom(ps, Next(i, |ps|), m - 1), start, |ps|, i);
      assert LiveFrom(ps, i, m) ==
             if ps[i].folded then LiveFrom(ps, Next(i, |ps|), m - 1) else [i] + LiveFrom(ps, Next(i, |ps|), m - 1);
    }
  }

  lemma {:induction false} FirstLiveIsFirst(ps: seq<Player>, b: nat, k: nat)
    requires b < |ps| && k < |ps|
    requires forall j :: 0 <= j < |ps| && DealPlace(b, j, |ps|) < k ==> ps[j].folded
    ensures var a := FirstLive(ps, Around(b, k, |ps|), |ps| - k);
            !ps[a].folded ==>
              forall j :: 0 <= j < |ps| && DealPlace(b, j, |ps|) < DealPlace(b, a, |ps|) ==> ps[j].folded
    decreases |ps| - k
  {
    var i := Around(b, k, |ps|);
    assert DealPlace(b, i, |ps|) == k;
    if ps[i].folded && k + 1 < |ps| {
      forall j | 0 <= j < |ps| && DealPlace(b, j, |ps|) < k + 1 ensures ps[j].folded {
        if DealPlace(b, j, |ps|) == k { assert j == i; }
      }
      assert Around(b, k + 1, |ps|) == Next(i, |ps|);
      FirstLiveIsFirst(ps, b, k + 1);
    }
  }

  lemma {:induction false} OrderGoesRound(s: State)
    requires |s.players| > 0 && ButtonIndex(s.cfg, s.players) >= 0 && LiveCount(s.players, |s.players|) >= 1
    ensures ShowsRound(s, ShowdownOrder(s))
  {
    var ps := s.players;
    var n := |ps|;
    var b := ButtonIndex(s.cfg, ps);
    var start := ShowdownStart(s);
    LastLiveIsLive(ps, n);
    assert Around(b, 0, n) == Next(b, n);
    FirstLiveIsFirst(ps, b, 0);
    if ps[start].folded { FirstLiveIsLive(ps, Next(b, n), n, LastLive(ps, n)); }
    RoundRuns(ps, start, start, n);
    OrderHoldsLive(ps, start, n);
    OrderIsLive(ps, start, n);
    assert LiveFrom(ps, start, n)[0] == start;
  }

  // So it is in every staged showdown.
  lemma {:induction false} ShowOrder(s: State)
    requires Inv(s) && s.phase == Showdown
    ensures ShowsRound(s, s.show.order)
  {
    OrderGoesRound(s);
  }

  // ---- who has to show ---------------------------------------------------------------------------------------

  // A hand on the table is strictly better, and can win the pot.
  ghost predicate Outshown(ps: seq<Player>, pot: Pot, board: seq<Card>, p: Player) {
    exists j :: 0 <= j < |ps| && BetterShown(ps, pot, board, p, j)
  }

  predicate BetterShown(ps: seq<Player>, pot: Pot, board: seq<Card>, p: Player, j: nat)
    requires j < |ps|
  {
    && ps[j].seat in pot.eligible && ps[j].seat != p.seat && !ps[j].folded && ps[j].revealed
    && Strength(ps[j], board) > Strength(p, board)
  }

  ghost predicate WinsSomePot(ps: seq<Player>, board: seq<Card>, seat: int) {
    exists k :: 0 <= k < |PotsOf(ps)| && BestHand(ps, PotsOf(ps)[k], board, seat)
  }

  // What the reveal policy asks of a player whose turn it is to show.
  ghost predicate HasToShow(s: State, p: Player) {
    match s.cfg.policy
    case RevealAll => true
    case RevealWinnersOnly => WinsSomePot(s.players, s.deal.board, p.seat)
    case RevealInOrder =>
      exists k :: 0 <= k < |PotsOf(s.players)| && p.seat in PotsOf(s.players)[k].eligible
        && !Outshown(s.players, PotsOf(s.players)[k], s.deal.board, p)
  }

  lemma {:induction false} BeatenIsOutshown(s: State, pot: Pot, p: Player)
    requires Seating(s.players)
    ensures Beaten(s, pot, p) <==> Outshown(s.players, pot, s.deal.board, p)
  {
    var ps := s.players;
    if Beaten(s, pot, p) {
      var k :| 0 <= k < |pot.eligible| && pot.eligible[k] != p.seat && Beats(s, pot.eligible[k], p);
      var j := Find(ps, pot.eligible[k]);
      IndexOfBound(ps, pot.eligible[k], |ps|);
      assert BetterShown(ps, pot, s.deal.board, p, j);
    }
    if Outshown(ps, pot, s.deal.board, p) {
      var j :| 0 <= j < |ps| && BetterShown(ps, pot, s.deal.board, p, j);
      FindSeat(ps, j);
      var k :| 0 <= k < |pot.eligible| && pot.eligible[k] == ps[j].seat;
      assert Beats(s, pot.eligible[k], p);
    }
  }

  // The winners worked out at the start of the stages.
  lemma {:induction false} WinnersWin(s: State, board: seq<Card>, seat: int)
    requires Seating(s.players) && AllHealthy(s.players) && LiveCount(s.players, |s.players|) >= 1
    ensures seat in WinnerSeats(PotsOf(s.players), RanksOf(s.players, board, |s.players|), s.cfg.button) <==>
            WinsSomePot(s.players, board, seat)
  {
    var ps := s.players;
    var pots := PotsOf(ps);
    var ranks := RanksOf(ps, board, |ps|);
    PotsPayable(ps);
    WinnerSeatsMean(pots, ranks, s.cfg.button, seat);
    forall k | 0 <= k < |pots|
      ensures seat in Winners(pots[k], ranks, s.cfg.button) <==> BestHand(ps, pots[k], board, seat)
    {
      EligibleLive(ps, k);
      WinnersHaveBest(ps, pots[k], board, s.cfg.button);
    }
  }

  lemma {:induction false} EligibleLive(ps: seq<Player>, k: nat)
    requires Seating(ps) && AllHealthy(ps) && LiveCount(ps, |ps|) >= 1 && k < |PotsOf(ps)|
    ensures PotsOf(ps)[k].eligible != []
    ensures forall q :: q in PotsOf(ps)[k].eligible ==> exists i :: 0 <= i < |ps| && ps[i].seat == q && !ps[i].folded
  {
    PotsPayable(ps);
    forall q | q in PotsOf(ps)[k].eligible ensures exists i :: 0 <= i < |ps| && ps[i].seat == q && !ps[i].folded {
      var i := Find(ps, q);
      IndexOfBound(ps, q, |ps|);
      assert ps[i].seat == q && !ps[i].folded;
    }
  }

  lemma {:induction false} MustIsHas(s: State, p: Player)
    requires Sound(s) && Contested(s) && s.show.winners == WinnerSeats(PotsOf(s.players), BoardRanks(s), s.cfg.button)
    ensures MustShow(s, p) <==> HasToShow(s, p)
  {
    var pots := PotsOf(s.players);
    WinnersWin(s, s.deal.board, p.seat);
    forall k | 0 <= k < |pots| ensures Beaten(s, pots[k], p) <==> Outshown(s.players, pots[k], s.deal.board, p) {
      BeatenIsOutshown(s, pots[k], p);
    }
  }

  // ---- a turn of the showdown --------------------------------------------------------------------------------

  // The table when the player at position i has shown or mucked; a hand already shown stays.
  function TableShown(s: State, i: nat, show: bool): State
    requires i < |s.players|
  {
    var p := s.players[i];
    var t := s.(show := s.show.(idx := s.show.idx + 1));
    if p.revealed then t
    else if show then t.(players := s.players[i := p.(revealed := true)], log := s.log + [HandsRevealed([p.seat])])
    else t.(players := s.players[i := p.(mucked := true)], log := s.log + [Mucked(p.seat)])
  }

  // After the last turn everything is paid, and besides those who had shown exactly the winners
  // are shown.
  ghost predicate ShowsWinners(s: State, r: State) {
    && r.phase == Result && |r.players| == |s.players| && s.log <= r.log
    && forall j :: 0 <= j < |s.players| ==>
         (r.players[j].revealed <==>
          || s.players[j].revealed
          || (!s.players[j].folded && WinsSomePot(s.players, s.deal.board, s.players[j].seat)))
         && r.players[j].mucked == s.players[j].mucked && r.players[j].folded == s.players[j].folded
  }

  ghost predicate ShowsOn(s: State, r: State) {
    if s.show.idx < |s.show.order| then r == s else ShowsWinners(s, r)
  }

  lemma {:induction false} AwardShows(s: State)
    requires Sound(s) && Contested(s) && !s.deal.runTwice
    ensures ShowsWinners(s, AwardPots(s))
  {
    var r := AwardPots(s);
    AwardPotsKeeps(s);
    forall j | 0 <= j < |s.players|
      ensures r.players[j].revealed <==>
              || s.players[j].revealed
              || (!s.players[j].folded && WinsSomePot(s.players, s.deal.board, s.players[j].seat))
      ensures r.players[j].mucked == s.players[j].mucked && r.players[j].folded == s.players[j].folded
    {
      AwardedPlayers(s, j);
      WinnersWin(s, s.deal.board, s.players[j].seat);
    }
  }

  // One turn of the showdown.
  ghost predicate RevealsWell(s: State) {
    && s.show.idx < |s.show.order| && ShowsRound(s, s.show.order) && Step(s, DoRevealNext).Done?
    && var i := s.show.order[s.show.idx];
       && i < |s.players|
       && ShowsOn(TableShown(s, i, HasToShow(s, s.players[i])), Step(s, DoRevealNext).state)
  }

  lemma {:induction false} ShownTable(s: State, i: nat, show: bool)
    requires i < |s.players|
    ensures Turned(Called(s), i, show) == TableShown(s, i, show)
  {
  }

  lemma {:induction false} StepShows(s: State, i: nat, show: bool)
    requires Inv(s) && s.phase == Showdown && i < |s.players| && i == s.show.order[s.show.idx]
    ensures ShowsOn(TableShown(s, i, show), RevealStep(s, show))
  {
    var s0 := Called(s);
    LineageSelf(s, s0);
    SoundCarries(s, s0);
    TurnedKeeps(s0, i, show);
    ShownTable(s, i, show);
    var s1 := TableShown(s, i, show);
    if s1.show.idx >= |s1.show.order| { AwardShows(s1); }
  }

  lemma {:induction false} RevealIs(s: State)
    requires Inv(s) && s.phase == Showdown && Staged(s)
    ensures RevealsWell(s)
  {
    ShowOrder(s);
    var i := s.show.order[s.show.idx];
    MustIsAsked(s, s.players[i]);
    StepShows(s, i, HasToShow(s, s.players[i]));
    StepReveals(s);
  }

  lemma {:induction false} MustIsAsked(s: State, p: Player)
    requires Inv(s) && s.phase == Showdown && Staged(s)
    ensures MustShow(Called(s), p) <==> HasToShow(s, p)
  {
    var s0 := Called(s);
    LineageSelf(s, s0);
    SoundCarries(s, s0);
    MustIsHas(s0, p);
  }

  lemma {:induction false} StepReveals(s: State)
    requires s.phase == Showdown && s.show.idx < |s.show.order| && s.show.order[s.show.idx] < |s.players|
    ensures Step(s, DoRevealNext) ==
            Done(RevealStep(s, MustShow(Called(s), s.players[s.show.order[s.show.idx]])))
  {
  }

  lemma {:induction false} OnlyInShowdown(s: State)
    requires Step(s, DoRevealNext).Done?
    ensures s.phase == Showdown
  {
  }

  // In every run: the next player of a staged showdown shows exactly when the policy asks it of
  // them. Everybody shows under reveal-all; under winners-only exactly whoever has the best hand
  // for some pot; in order exactly whoever no shown hand beats in some pot they can win.
  lemma {:induction false} RevealMoves(cfg: Config, seats: seq<Seat>, shuffled: seq<Card>, cs: seq<Command>)
    requires SaneConfig(cfg, seats) && NewHand(cfg, seats, shuffled).Done?
    ensures var s := Run(NewHand(cfg, seats, shuffled).state, cs);
            (Step(s, DoRevealNext).Done? <==> s.phase == Showdown) && (s.phase == Showdown ==> RevealsWell(s))
  {
    NewHandStarts(cfg, seats, shuffled);
    NewHandSafe(cfg, seats, shuffled);
    RunReveals(NewHand(cfg, seats, shuffled).state, cs);
  }

  lemma {:induction false} RunReveals(h: State, cs: seq<Command>)
    requires Inv(h) && ShowdownSafe(h)
    ensures var s := Run(h, cs);
            (Step(s, DoRevealNext).Done? <==> s.phase == Showdown) && (s.phase == Showdown ==> RevealsWell(s))
  {
    RunSafe(h, cs);
    var s := Run(h, cs);
    if s.phase == Showdown { RevealIs(s); }
    if Step(s, DoRevealNext).Done? { OnlyInShowdown(s); }
  }

  // ---- what is reported ----------------------------------------------------------------------------------------

  // When all hands are opened, exactly those not yet shown are named.
  lemma {:induction false} OpenedAreNamed(ps: seq<Player>, n: nat, seat: int)
    requires n <= |ps|
    ensures seat in HiddenSeats(ps, n) <==>
            exists j :: 0 <= j < n && ps[j].seat == seat && !ps[j].folded && !ps[j].revealed
  {
    if n > 0 {
      OpenedAreNamed(ps, n - 1, seat);
      if j :| 0 <= j < n && ps[j].seat == seat && !ps[j].folded && !ps[j].revealed { assert j < n - 1 || j == n - 1; }
    }
  }

  // When winners are shown, exactly those not yet shown are named.
  lemma {:induction false} ShownAreNamed(ps: seq<Player>, winners: set<int>, n: nat, seat: int)
    requires n <= |ps|
    ensures seat in HiddenWinners(ps, winners, n) <==>
            seat in winners && exists j :: 0 <= j < n && ps[j].seat == seat && !ps[j].folded && !ps[j].revealed
  {
    if n > 0 {
      ShownAreNamed(ps, winners, n - 1, seat);
      if j :| 0 <= j < n && ps[j].seat == seat && !ps[j].folded && !ps[j].revealed { assert j < n - 1 || j == n - 1; }
    }
  }
}
