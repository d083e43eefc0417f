// What becomes of a hand in which everybody checks when that is free and calls otherwise. Such a
// run reaches the panic of the source whenever any run does, and lays out unfair pots whenever
// posting has left the players uneven; with that, both have an exact condition on the start.

module HandCalls {
  import opened Cards
  import opened Pots
  import opened Payout
  import opened HandModel
  import opened HandRules
  import opened HandChips
  import opened HandInvariant
  import opened HandStart
  import opened HandEven
  import HandRuns

  // ---- one check or call --------------------------------------------------------------------------

  // It is the turn of somebody who needs to act.
  ghost predicate Asked(s: State) {
    && s.phase == Betting && Seating(s.players) && AllHealthy(s.players)
    && LiveCount(s.players, |s.players|) >= 2
    && 0 <= s.round.toAct < |s.players| && NeedsToAct(s.players[s.round.toAct], s.round.currentBet)
  }

  function CheckOrCall(p: Player, price: int): Action { Action(if p.bet >= price then Check else Call, 0) }

  function Follow(s: State): Command
    requires 0 <= s.round.toAct < |s.players|
  {
    var p := s.players[s.round.toAct];
    DoApply(p.seat, CheckOrCall(p, s.round.currentBet))
  }

  // The player who has checked or called.
  function Followed(p: Player, r: Round): Player {
    Acted(if p.bet >= r.currentBet then p else Commit(p, Min(r.currentBet - p.bet, p.stack)), r.fullLevel)
  }

  function NeedyCount(ps: seq<Player>, price: int, n: nat): nat
    requires n <= |ps|
  {
    if n == 0 then 0 else NeedyCount(ps, price, n - 1) + if NeedsToAct(ps[n - 1], price) then 1 else 0
  }

  lemma {:induction false} NeedyUpdate(ps: seq<Player>, price: int, i: nat, q: Player, n: nat)
    requires i < |ps| && n <= |ps| && NeedsToAct(ps[i], price) && !NeedsToAct(q, price)
    ensures NeedyCount(ps[i := q], price, n) == NeedyCount(ps, price, n) - if i < n then 1 else 0
  {
    if n > 0 { NeedyUpdate(ps, price, i, q, n - 1); }
  }

  lemma {:induction false} FollowPerforms(cfg: Config, r: Round, p: Player)
    requires NeedsToAct(p, r.currentBet) && Healthy(p)
    ensures var m := Perform(cfg, r, p, CheckOrCall(p, r.currentBet)); var q := Followed(p, r);
            && m.Moved? && m.round == r && Acted(m.player, r.fullLevel) == q && (m.kind == Check || m.kind == Call)
            && Healthy(q) && !q.folded && !NeedsToAct(q, r.currentBet)
  {
  }

  // A check or call is accepted, changes nobody else and no level of the round, and settles what
  // its player owed to it.
  lemma {:induction false} FollowIs(s: State)
    requires Asked(s)
    ensures var i := s.round.toAct; var p := s.players[i];
            var m := Perform(s.cfg, s.round, p, CheckOrCall(p, s.round.currentBet));
            && m.Moved?
            && var s1 := AfterMove(s, m.player, m.round, m.kind);
               && s1.players == s.players[i := Followed(p, s.round)] && s1.round == s.round && s1.phase == Betting
               && s1.deal == s.deal && After(s, Follow(s)) == Settle(s1, i, false)
  {
    FollowPerforms(s.cfg, s.round, s.players[s.round.toAct]) by { assert Healthy(s.players[s.round.toAct]); }
    FindSeat(s.players, s.round.toAct);
  }

  lemma {:induction false} FollowLeaves(s: State)
    requires Asked(s)
    ensures var i := s.round.toAct; var ps := s.players[i := Followed(s.players[i], s.round)];
            && Seating(ps) && AllHealthy(ps) && LiveCount(ps, |ps|) == LiveCount(s.players, |s.players|)
            && NeedyCount(ps, s.round.currentBet, |ps|) < NeedyCount(s.players, s.round.currentBet, |s.players|)
  {
    var i := s.round.toAct;
    var q := Followed(s.players[i], s.round);
    assert Healthy(s.players[i]);
    FollowPerforms(s.cfg, s.round, s.players[i]);
    NeedyUpdate(s.players, s.round.currentBet, i, q, |s.players|);
    LiveUpdate(s.players, i, q, |s.players|);
    var ps := s.players[i := q];
    forall j | 0 <= j < |ps| ensures Healthy(ps[j]) { assert Healthy(s.players[j]); }
  }

  // A first command, then the others.
  lemma {:induction false} RunOn(s: State, c: Command, cs: seq<Command>)
    ensures Run(s, [c] + cs) == Run(After(s, c), cs)
    decreases |cs|
  {
    var all := [c] + cs;
    if cs == [] {
      assert all[..0] == [];
      assert Run(s, all[..0]) == s;
    } else {
      assert all[..|all| - 1] == [c] + cs[..|cs| - 1];
      RunOn(s, c, cs[..|cs| - 1]);
    }
  }

  // ---- the panic ------------------------------------------------------------------------------------

  // Where the source panics: nobody is found to act although the round is not complete.
  ghost predicate Panics(s: State) {
    s.phase == Betting && s.round.toAct < 0 && !RoundComplete(s.players, s.round.currentBet)
  }

  // Checks and calls leave a stranded blind stranded until nobody needs to act any more.
  lemma {:induction false} StrandedPanics(s: State) returns (cs: seq<Command>)
    requires Asked(s) && BlindStranded(s)
    ensures Panics(Run(s, cs))
    decreases NeedyCount(s.players, s.round.currentBet, |s.players|)
  {
    var i := s.round.toAct;
    var price := s.round.currentBet;
    FollowIs(s);
    FollowLeaves(s);
    var ps := s.players[i := Followed(s.players[i], s.round)];
    var e :| 0 <= e < |ps| && Active(s.players[e]) && s.players[e].bet > price;
    assert Active(ps[e]) && ps[e].bet > price;
    var r := After(s, Follow(s));
    assert !RoundComplete(ps, price) && r.players == ps;
    RunOn(s, Follow(s), []);
    cs := [Follow(s)];
    if r.round.toAct >= 0 {
      ScanFindsNeedy(ps, price, Next(i, |ps|), |ps|);
      var more := StrandedPanics(r);
      RunOn(s, Follow(s), more);
      cs := cs + more;
    }
  }

  ghost predicate SomeRunPanics(s: State) { exists cs :: Panics(Run(s, cs)) }

  lemma {:induction false} PanicsUnlessInv(s: State)
    requires Inv(s)
    ensures !SomeRunPanics(s)
  {
    forall cs ensures !Panics(Run(s, cs)) {
      HandRuns.RunKeeps(s, cs);
    }
  }

  lemma {:induction false} StrandedStartPanics(cfg: Config, seats: seq<Seat>, shuffled: seq<Card>)
    requires NewHand(cfg, seats, shuffled).Done? && StrandedBlind(cfg, seats)
    ensures SomeRunPanics(NewHand(cfg, seats, shuffled).state)
  {
    NewHandAccepts(cfg, seats, shuffled);
    OpenedPrice(cfg, seats, shuffled);
    StrandedOpens(Opened(cfg, seats, shuffled), ButtonIndex(cfg, Seated(cfg, seats)));
    var cs := StrandedPanics(NewHand(cfg, seats, shuffled).state);
  }

  // Some run of an accepted start comes to the panic if and only if a blind posted by somebody
  // with chips left stands above a straddle posted in full.
  lemma {:induction false} PanicsIff(cfg: Config, seats: seq<Seat>, shuffled: seq<Card>)
    requires NewHand(cfg, seats, shuffled).Done?
    ensures SomeRunPanics(NewHand(cfg, seats, shuffled).state) <==> StrandedBlind(cfg, seats)
  {
    if StrandedBlind(cfg, seats) {
      StrandedStartPanics(cfg, seats, shuffled);
    } else {
      NewHandStarts(cfg, seats, shuffled);
      PanicsUnlessInv(NewHand(cfg, seats, shuffled).state);
    }
  }

  // ---- the pots -------------------------------------------------------------------------------------

  // Nobody still in is all-in, and everybody can pay the price with chips to spare.
  ghost predicate Roomy(s: State) {
    && s.round.currentBet > 0 && NobodyAllIn(s.players)
    && forall i :: 0 <= i < |s.players| && !s.players[i].folded ==> MaxTo(s.players[i]) > s.round.currentBet
  }

  // Nobody has put anything into completed streets, or folded, in between.
  ghost predicate SamePaid(ps: seq<Player>, qs: seq<Player>) {
    |ps| == |qs| && forall i :: 0 <= i < |ps| ==>
      ps[i].committed == qs[i].committed && ps[i].folded == qs[i].folded
  }

  // A street that is about to close with everybody still in.
  ghost predicate Closing(s: State) {
    Playing(s) && RoundComplete(s.players, s.round.currentBet) && Roomy(s)
  }

  // One check or call: either the street closes, or it is somebody else's turn.
  lemma {:induction false} FollowOn(s: State) returns (r: State)
    requires Inv(s) && s.phase == Betting && Roomy(s)
    ensures |r.players| == |s.players| > 0 && Roomy(r) && SamePaid(s.players, r.players) && r.deal == s.deal
    ensures || (Closing(r) && After(s, Follow(s)) == EndStreet(r))
            || (After(s, Follow(s)) == r && Inv(r) && r.phase == Betting
                && NeedyCount(r.players, r.round.currentBet, |r.players|) <
                   NeedyCount(s.players, s.round.currentBet, |s.players|))
  {
    var i := s.round.toAct;
    var p := s.players[i];
    var m := Perform(s.cfg, s.round, p, CheckOrCall(p, s.round.currentBet));
    FollowIs(s);
    FollowLeaves(s);
    AfterMoveKeeps(s, CheckOrCall(p, s.round.currentBet));
    r := AfterMove(s, m.player, m.round, m.kind);
    assert Healthy(p);
    RoomKept(s, r);
    if !RoundComplete(r.players, r.round.currentBet) {
      SettleKeeps(r, i, false);
      r := Settle(r, i, false);
    }
  }

  lemma {:induction false} RoomKept(s: State, r: State)
    requires Asked(s) && Roomy(s) && r.round == s.round
    requires r.players == s.players[s.round.toAct := Followed(s.players[s.round.toAct], s.round)]
    ensures Roomy(r) && SamePaid(s.players, r.players)
  {
  }

  // Checks and calls bring the round to its end with everybody still in.
  lemma {:induction false} CallsClose(s: State) returns (cs: seq<Command>, r: State)
    requires Inv(s) && s.phase == Betting && Roomy(s)
    ensures |r.players| > 0 && Closing(r) && Run(s, cs) == EndStreet(r)
    ensures SamePaid(s.players, r.players) && r.deal == s.deal
    decreases NeedyCount(s.players, s.round.currentBet, |s.players|)
  {
    r := FollowOn(s);
    cs := [Follow(s)];
    RunOn(s, Follow(s), []);
    if After(s, Follow(s)) == r && !(Closing(r) && After(s, Follow(s)) == EndStreet(r)) {
      var more, last := CallsClose(r);
      RunOn(s, Follow(s), more);
      cs, r := cs + more, last;
    }
  }

  // After antes and dead blinds everybody can still call any blind with chips to spare.
  ghost predicate DeepStart(cfg: Config, seats: seq<Seat>) {
    var ps := Seated(cfg, seats);
    forall i :: 0 <= i < |ps| ==> Remaining(cfg, ps[i]) > cfg.bigBlind && Remaining(cfg, ps[i]) > cfg.straddleAmount
  }

  // Blinds and the straddle move chips in front of their players, nothing into the pot.
  lemma {:induction false} StraddleMoney(s: State, sb: nat, k: nat)
    requires Posting(s) && BlindsAt(s, sb) && k < |s.players|
    ensures var p := s.players[k]; var q := PostStraddle(s).players[k];
            && q.committed == p.committed && q.folded == p.folded && MaxTo(q) == MaxTo(p)
            && (q == p || (k != sb && k != Next(sb, |s.players|) && q == Stake(p, s.cfg.straddleAmount)))
  {
    FindSeat(s.players, Next(sb, |s.players|));
  }

  lemma {:induction false} OpenedMoney(cfg: Config, seats: seq<Seat>, shuffled: seq<Card>, k: nat)
    requires Acceptable(cfg, seats, shuffled) && ButtonIndex(cfg, Seated(cfg, seats)) >= 0 && k < |seats|
    ensures var p := Seated(cfg, seats)[k]; var q := Opened(cfg, seats, shuffled).players[k];
            && q.committed == DuesPaid(cfg, p).committed && MaxTo(q) == Remaining(cfg, p)
            && (DeepStart(cfg, seats) ==> !q.allIn)
  {
    var sb := SmallBlindAt(cfg, Seated(cfg, seats));
    var s := Anted(cfg, seats, shuffled);
    AntedWell(cfg, seats, shuffled);
    AntedExactly(cfg, seats, shuffled, k);
    PostBlindsKeep(s, sb);
    BlindsStay(s, PostBlinds(s), sb);
    StraddleMoney(PostBlinds(s), sb, k);
    assert Healthy(s.players[k]);
  }

  lemma {:induction false} OpenedAtPrice(cfg: Config, seats: seq<Seat>, shuffled: seq<Card>)
    requires Acceptable(cfg, seats, shuffled) && ButtonIndex(cfg, Seated(cfg, seats)) >= 0
    ensures var price := Opened(cfg, seats, shuffled).round.currentBet;
            price > 0 && (price <= cfg.bigBlind || price <= cfg.straddleAmount)
  {
    AntedWell(cfg, seats, shuffled);
    PostBlindsKeep(Anted(cfg, seats, shuffled), SmallBlindAt(cfg, Seated(cfg, seats)));
  }

  // Everybody is in with room, and has paid what they owed before the blinds.
  ghost predicate DeepRound(s: State, cfg: Config, seats: seq<Seat>) {
    var ps := Seated(cfg, seats);
    && s.phase == Betting && Roomy(s) && s.deal.street == PREFLOP && |s.players| == |ps| >= 2
    && forall k :: 0 <= k < |ps| ==> !s.players[k].folded && s.players[k].committed == DuesPaid(cfg, ps[k]).committed
  }

  lemma {:induction false} DeepDealt(cfg: Config, seats: seq<Seat>, shuffled: seq<Card>)
    requires NewHand(cfg, seats, shuffled).Done? && DeepStart(cfg, seats)
    ensures ButtonIndex(cfg, Seated(cfg, seats)) >= 0
    ensures var s := DealHoles(Opened(cfg, seats, shuffled), ButtonIndex(cfg, Seated(cfg, seats)));
            && DeepRound(s, cfg, seats)
            && forall k :: 0 <= k < |s.players| ==> Active(s.players[k]) && !s.players[k].hasActed
  {
    NewHandAccepts(cfg, seats, shuffled);
    OpenedPrice(cfg, seats, shuffled);
    OpenedAtPrice(cfg, seats, shuffled);
    var s0 := Opened(cfg, seats, shuffled);
    forall k | 0 <= k < |seats|
      ensures var p := Seated(cfg, seats)[k]; var q := s0.players[k];
              q.committed == DuesPaid(cfg, p).committed && MaxTo(q) == Remaining(cfg, p) && Active(q) && !q.hasActed
    {
      OpenedMoney(cfg, seats, shuffled, k);
    }
    DealtDeep(s0, ButtonIndex(cfg, Seated(cfg, seats)), cfg, seats);
  }

  lemma {:induction false} DealtDeep(s: State, b: nat, cfg: Config, seats: seq<Seat>)
    requires DeepStart(cfg, seats) && s.phase == Betting && s.deal.street == PREFLOP
    requires b < |s.players| == |Seated(cfg, seats)| && 2 * |s.players| <= |s.deal.deck| && |s.players| >= 2
    requires s.round.currentBet > 0
    requires s.round.currentBet <= cfg.bigBlind || s.round.currentBet <= cfg.straddleAmount
    requires forall k :: 0 <= k < |s.players| ==>
      var p := Seated(cfg, seats)[k]; var q := s.players[k];
      q.committed == DuesPaid(cfg, p).committed && MaxTo(q) == Remaining(cfg, p) && Active(q) && !q.hasActed
    ensures var r := DealHoles(s, b);
            && DeepRound(r, cfg, seats)
            && forall k :: 0 <= k < |r.players| ==> Active(r.players[k]) && !r.players[k].hasActed
  {
    var r := DealHoles(s, b);
    assert forall k :: 0 <= k < |r.players| ==>
        r.players[k] == s.players[k].(hole0 := r.players[k].hole0, hole1 := r.players[k].hole1);
  }

  // A deep start leaves room for everybody, and a first turn.
  lemma {:induction false} DeepOpens(cfg: Config, seats: seq<Seat>, shuffled: seq<Card>)
    requires NewHand(cfg, seats, shuffled).Done? && SaneConfig(cfg, seats) && DeepStart(cfg, seats)
    ensures var s := NewHand(cfg, seats, shuffled).state; Inv(s) && DeepRound(s, cfg, seats)
  {
    NewHandStarts(cfg, seats, shuffled);
    NewHandAccepts(cfg, seats, shuffled);
    DeepDealt(cfg, seats, shuffled);
    var b := ButtonIndex(cfg, Seated(cfg, seats));
    var s := DealHoles(Opened(cfg, seats, shuffled), b);
    UnactedOpens(s, FirstToAct(s, b));
  }

  // Before two players who can act have done so the round goes on.
  lemma {:induction false} UnactedOpens(s: State, from: nat)
    requires s.phase == Betting && 2 <= |s.players| && from < |s.players|
    requires forall k :: 0 <= k < |s.players| ==> Active(s.players[k]) && !s.players[k].hasActed
    ensures var r := Settle(s, from, true); r == s.(round := s.round.(toAct := r.round.toAct))
  {
    AllLive(s.players, |s.players|);
    ActiveAtLeast(s.players, 0, |s.players|);
    assert Active(s.players[1]);
  }

  // At this moment every layer of the pots is contested by exactly the live players in it.
  ghost predicate FairNow(s: State) { s.phase != Result ==> AllLayersFair(Contributions(s.players)) }

  ghost predicate AlwaysFair(s: State) { forall cs :: FairNow(Run(s, cs)) }

  lemma {:induction false} LevelIsFair(cfg: Config, seats: seq<Seat>, shuffled: seq<Card>, c: int)
    requires NewHand(cfg, seats, shuffled).Done? && SaneConfig(cfg, seats) && DeepStart(cfg, seats)
    requires LevelStart(cfg, seats, c)
    ensures AlwaysFair(NewHand(cfg, seats, shuffled).state)
  {
    forall cs ensures FairNow(Run(NewHand(cfg, seats, shuffled).state, cs)) {
      PotsAlwaysFair(cfg, seats, shuffled, cs, c);
    }
  }

  lemma {:induction false} UnevenIsUnfair(s: State, k: nat)
    requires Inv(s) && s.phase == Betting && Roomy(s) && s.deal.street == PREFLOP && NobodyFolded(s.players)
    requires k < |s.players| && s.players[k].committed != s.players[0].committed
    ensures !AlwaysFair(s)
  {
    var cs, r := CallsClose(s);
    ClosesUnfairly(r, k);
    assert !FairNow(Run(s, cs));
  }

  lemma {:induction false} DeepIsUnfair(s: State, cfg: Config, seats: seq<Seat>)
    requires Inv(s) && DeepRound(s, cfg, seats) && !LevelStart(cfg, seats, s.players[0].committed)
    ensures !AlwaysFair(s)
  {
    var k :| 0 <= k < |s.players| && s.players[k].committed != s.players[0].committed;
    UnevenIsUnfair(s, k);
  }

  // When everybody can call the blinds with chips to spare: the pots are fair at every moment of
  // every run if and only if antes and dead blinds leave everybody equally far in.
  lemma {:induction false} AlwaysFairIff(cfg: Config, seats: seq<Seat>, shuffled: seq<Card>)
    requires NewHand(cfg, seats, shuffled).Done? && SaneConfig(cfg, seats) && DeepStart(cfg, seats)
    ensures AlwaysFair(NewHand(cfg, seats, shuffled).state) <==> exists c :: LevelStart(cfg, seats, c)
  {
    if c :| LevelStart(cfg, seats, c) {
      LevelIsFair(cfg, seats, shuffled, c);
    } else {
      DeepOpens(cfg, seats, shuffled);
      DeepIsUnfair(NewHand(cfg, seats, shuffled).state, cfg, seats);
    }
  }

  lemma {:induction false} ClosesUnfairly(r: State, k: nat)
    requires Closing(r) && r.deal.street == PREFLOP && NobodyFolded(r.players)
    requires k < |r.players| && r.players[k].committed != r.players[0].committed
    ensures !FairNow(EndStreet(r))
  {
    FairIffLevel(r, 0, 1);
    assert !LiveLevel(r.players);
    StreetContributions(r);
  }
}
