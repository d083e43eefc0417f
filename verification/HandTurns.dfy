// Who opens a betting round: left of the big blind or the straddle before the flop, left of the
// button afterwards, skipping everybody who is folded or all-in (checkFirstActor in
// backend/cmd/simulate/hand.go demands it of the engine).

module HandTurns {
  import opened Cards
  import opened HandModel
  import opened HandRules
  import opened HandChips
  import opened HandInvariant
  import opened HandStart
  import opened HandRuns
  import opened HandRaises

  // Player a can act, and nobody can between the anchor and them, going clockwise.
  ghost predicate FirstClockwise(ps: seq<Player>, anchor: nat, a: int) {
    && anchor < |ps| && 0 <= a < |ps| && Active(ps[a])
    && forall j :: 0 <= j < |ps| && DealPlace(anchor, j, |ps|) < DealPlace(anchor, a, |ps|) ==> !Active(ps[j])
  }

  ghost predicate NobodyActed(ps: seq<Player>) { forall i :: 0 <= i < |ps| ==> !ps[i].hasActed }

  // The engine's scan, when nobody has acted yet and the first k places are out.
  lemma {:induction false} ScanFindsFirst(ps: seq<Player>, price: int, anchor: nat, k: nat)
    requires anchor < |ps| && k < |ps| && NobodyActed(ps)
    requires forall j :: 0 <= j < |ps| && DealPlace(anchor, j, |ps|) < k ==> !Active(ps[j])
    ensures var a := NextActor(ps, price, Around(anchor, k, |ps|), |ps| - k);
            a >= 0 ==> FirstClockwise(ps, anchor, a)
    decreases |ps| - k
  {
    var i := Around(anchor, k, |ps|);
    assert DealPlace(anchor, i, |ps|) == k;
    if !NeedsToAct(ps[i], price) && k + 1 < |ps| {
      forall j | 0 <= j < |ps| && DealPlace(anchor, j, |ps|) < k + 1 ensures !Active(ps[j]) {
        if DealPlace(anchor, j, |ps|) == k { assert j == i; }
      }
      assert Around(anchor, k + 1, |ps|) == Next(i, |ps|);
      ScanFindsFirst(ps, price, anchor, k + 1);
    }
  }

  lemma {:induction false} RoundOpens(s: State, anchor: nat)
    requires Playing(s) && anchor < |s.players| && NobodyActed(s.players)
    ensures var r := Settle(s, Next(anchor, |s.players|), true);
            r.phase == Betting ==> FirstClockwise(r.players, anchor, r.round.toAct)
  {
    var n := |s.players|;
    StillBetting(s, Next(anchor, n), true);
    SettleKeeps(s, Next(anchor, n), true);
    assert Around(anchor, 0, n) == Next(anchor, n);
    ScanFindsFirst(s.players, s.round.currentBet, anchor, 0);
  }

  // The seat the first betting round starts after.
  function OpeningAnchor(s: State): int { Find(s.players, if s.straddleSeat >= 0 then s.straddleSeat else s.bbSeat) }

  lemma {:induction false} FirstIsAfterAnchor(s: State, b: nat, sb: nat)
    requires Seating(s.players) && b < |s.players| && BlindsAt(s, sb)
    requires sb == if |s.players| == 2 then b else Next(b, |s.players|)
    requires s.straddleSeat >= 0 ==> Find(s.players, s.straddleSeat) >= 0
    ensures OpeningAnchor(s) >= 0 && FirstToAct(s, b) == Next(OpeningAnchor(s), |s.players|)
  {
    FindSeat(s.players, Next(sb, |s.players|));
  }

  lemma {:induction false} DealtSeats(s: State, b: nat)
    requires Posting(s) && PriceLevels(s) && b < |s.players| && 2 * |s.players| <= |s.deal.deck|
    ensures var r := DealHoles(s, b);
            && Playing(r) && NobodyActed(r.players) && SeatsMatch(s.players, r.players)
            && (forall seat :: Find(r.players, seat) == Find(s.players, seat))
            && r.straddleSeat == s.straddleSeat && r.bbSeat == s.bbSeat && r.sbSeat == s.sbSeat
  {
    var r := DealHoles(s, b);
    DealHolesKeeps(s, b);
    forall seat ensures Find(r.players, seat) == Find(s.players, seat) {
      SeatsMatchFind(s.players, r.players, seat, |s.players|);
    }
  }

  lemma {:induction false} StraddleStays(cfg: Config, seats: seq<Seat>, shuffled: seq<Card>)
    requires Acceptable(cfg, seats, shuffled) && ButtonIndex(cfg, Seated(cfg, seats)) >= 0
    ensures var s := Opened(cfg, seats, shuffled); s.straddleSeat >= 0 ==> Find(s.players, s.straddleSeat) >= 0
  {
    AntedWell(cfg, seats, shuffled);
    PostBlindsKeep(Anted(cfg, seats, shuffled), SmallBlindAt(cfg, Seated(cfg, seats)));
    StraddlerSits(PostBlinds(Anted(cfg, seats, shuffled)));
  }

  // The opening of the hand.
  lemma {:induction false} FirstTurn(cfg: Config, seats: seq<Seat>, shuffled: seq<Card>)
    requires SaneConfig(cfg, seats) && NewHand(cfg, seats, shuffled).Done?
    ensures var r := NewHand(cfg, seats, shuffled).state;
            r.phase == Betting ==> OpeningAnchor(r) >= 0 && FirstClockwise(r.players, OpeningAnchor(r), r.round.toAct)
  {
    NewHandAccepts(cfg, seats, shuffled);
    OpenedWell(cfg, seats, shuffled);
    StraddleStays(cfg, seats, shuffled);
    var ps := Seated(cfg, seats);
    OpensAfterAnchor(Opened(cfg, seats, shuffled), ButtonIndex(cfg, ps), SmallBlindAt(cfg, ps));
  }

  lemma {:induction false} OpensAfterAnchor(s: State, b: nat, sb: nat)
    requires Posting(s) && PriceLevels(s) && b < |s.players| && 2 * |s.players| <= |s.deal.deck| && BlindsAt(s, sb)
    requires sb == if |s.players| == 2 then b else Next(b, |s.players|)
    requires s.straddleSeat >= 0 ==> Find(s.players, s.straddleSeat) >= 0
    ensures var s1 := DealHoles(s, b); var r := Settle(s1, FirstToAct(s1, b), true);
            r.phase == Betting ==> OpeningAnchor(r) >= 0 && FirstClockwise(r.players, OpeningAnchor(r), r.round.toAct)
  {
    var s1 := DealHoles(s, b);
    DealtSeats(s, b);
    FirstIsAfterAnchor(s1, b, sb);
    RoundOpens(s1, OpeningAnchor(s1));
    StillBetting(s1, FirstToAct(s1, b), true);
    SettleIsInPlace(s1, FirstToAct(s1, b));
  }

  // A turn passed on leaves the seats of the blinds and the straddle.
  lemma {:induction false} SettleIsInPlace(s: State, from: nat)
    requires Playing(s) && from < |s.players|
    ensures var r := Settle(s, from, true);
            r.phase == Betting ==> r.players == s.players && r.straddleSeat == s.straddleSeat && r.bbSeat == s.bbSeat
  {
    LastLiveIsLive(s.players, |s.players|);
    if LiveCount(s.players, |s.players|) == 1 {
      FinishUncontestedKeeps(s, LastLive(s.players, |s.players|));
    } else if RoundComplete(s.players, s.round.currentBet) {
      EndStreetKeeps(s);
    }
  }

  // In every run: whenever the next street opens betting, the first turn is that of the first
  // player left of the button who can act.
  lemma {:induction false} NextTurn(cfg: Config, seats: seq<Seat>, shuffled: seq<Card>, cs: seq<Command>)
    requires SaneConfig(cfg, seats) && NewHand(cfg, seats, shuffled).Done?
    ensures var s := Run(NewHand(cfg, seats, shuffled).state, cs);
            Advance(s).Done? && Advance(s).state.phase == Betting ==>
              && ButtonIndex(s.cfg, s.players) >= 0
              && FirstClockwise(Advance(s).state.players, ButtonIndex(s.cfg, s.players), Advance(s).state.round.toAct)
  {
    NewHandStarts(cfg, seats, shuffled);
    RunKeeps(NewHand(cfg, seats, shuffled).state, cs);
    var s := Run(NewHand(cfg, seats, shuffled).state, cs);
    if Advance(s).Done? { StreetOpens(s); }
  }

  lemma {:induction false} StreetOpens(s: State)
    requires Inv(s) && Advance(s).Done?
    ensures Advance(s).state.phase == Betting ==>
      FirstClockwise(Advance(s).state.players, ButtonIndex(s.cfg, s.players), Advance(s).state.round.toAct)
  {
    var s1 := DealStreet(s);
    LineageSelf(s, s1);
    SoundCarries(s, s1);
    if s.runout {
      if s1.deal.street == RIVER { ToShowdownKeeps(s1); }
    } else {
      NewRoundKeeps(s1);
      RoundOpens(NewRound(s1), ButtonIndex(s.cfg, s.players));
    }
  }
}
