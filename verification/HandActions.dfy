// The commands of the betting, one by one: whose chips move by how much, what is reported, and
// what follows from the table they leave. Actions are taken by their name and amount and by the
// options that were offered.

module HandActions {
  import opened Cards
  import opened Pots
  import opened HandModel
  import opened HandRules
  import opened HandChips
  import opened HandInvariant
  import opened HandStart
  import opened HandOptions
  import opened HandMoves
  import HandRuns

  predicate HasTurn(s: State, seat: int) {
    s.phase == Betting && 0 <= s.round.toAct < |s.players| && s.players[s.round.toAct].seat == seat
  }

  // ---- an action ---------------------------------------------------------------------------------------

  // The chips in front of the player once they have acted.
  function Front(o: Options, p: Player, a: Action): int {
    match a.kind
    case Call => p.bet + o.call
    case AllIn => p.bet + p.stack
    case Bet => a.amount
    case Raise => a.amount
    case _ => p.bet
  }

  function PlayerAfter(p: Player, front: int, fold: bool, level: int): Player {
    p.(bet := front, stack := p.stack - (front - p.bet), allIn := p.stack == front - p.bet, folded := fold,
       hasActed := true, actedAt := level)
  }

  // A bet above the price is the new price, and a full one the new level and least raise.
  function RoundAfter(r: Round, front: int, i: int): Round {
    if front <= r.currentBet then r
    else if front - r.currentBet >= r.raiseSize then Round(front, front, front - r.currentBet, r.toAct, i)
    else r.(currentBet := front, aggressor := i)
  }

  // The report names what the action came to: bets and raises with their total, calls with what
  // they added.
  function ActionReport(p: Player, price: int, front: int, kind: ActionKind): Event {
    var allIn := p.stack == front - p.bet;
    if kind == Fold || kind == Check then ActionTaken(p.seat, 0, allIn, kind)
    else if front <= price then ActionTaken(p.seat, front - p.bet, allIn, Call)
    else ActionTaken(p.seat, front, allIn, if price == 0 then Bet else Raise)
  }

  // The table when the player on turn has acted.
  function TableAfter(s: State, a: Action): State
    requires 0 <= s.round.toAct < |s.players|
  {
    var i := s.round.toAct;
    var p := s.players[i];
    var front := Front(OfferedTo(s.cfg, s.round, p), p, a);
    var r := RoundAfter(s.round, front, i);
    s.(players := s.players[i := PlayerAfter(p, front, a.kind == Fold, r.fullLevel)], round := r,
       log := s.log + [ActionReport(p, s.round.currentBet, front, a.kind)])
  }

  // The engine's outcome is the one told from name and amount.
  ghost predicate MovesAsNamed(cfg: Config, r: Round, p: Player, a: Action, m: Performed, i: int)
    requires m.Moved?
  {
    var front := Front(OfferedTo(cfg, r, p), p, a);
    && Acted(m.player, m.round.fullLevel) == PlayerAfter(p, front, a.kind == Fold, m.round.fullLevel)
    && RoundAfter(r, front, i) ==
       m.round.(aggressor := if m.kind == Bet || m.kind == Raise then i else m.round.aggressor)
    && ActionTaken(p.seat, EventAmount(m.kind, p.bet, m.player), m.player.allIn, m.kind) ==
       ActionReport(p, r.currentBet, front, a.kind)
    && (a.kind == AllIn ==> OfferedTo(cfg, r, p).allIn == front)
  }

  lemma {:induction false} BetMoves(cfg: Config, r: Round, p: Player, a: Action, i: int)
    requires Priced(cfg, r, p) && Perform(cfg, r, p, a).Moved? && r.currentBet == 0
    requires a.kind == Bet || a.kind == Raise || a.kind == AllIn
    ensures MovesAsNamed(cfg, r, p, a, Perform(cfg, r, p, a), i)
  {
  }

  lemma {:induction false} RaiseMoves(cfg: Config, r: Round, p: Player, a: Action, i: int)
    requires Priced(cfg, r, p) && Perform(cfg, r, p, a).Moved? && r.currentBet > 0
    requires a.kind == Bet || a.kind == Raise || a.kind == AllIn
    ensures MovesAsNamed(cfg, r, p, a, Perform(cfg, r, p, a), i)
  {
  }

  lemma {:induction false} PerformMoves(cfg: Config, r: Round, p: Player, a: Action, i: int)
    requires Priced(cfg, r, p) && Perform(cfg, r, p, a).Moved?
    ensures MovesAsNamed(cfg, r, p, a, Perform(cfg, r, p, a), i)
  {
    if a.kind == Bet || a.kind == Raise || a.kind == AllIn {
      if r.currentBet == 0 { BetMoves(cfg, r, p, a, i); } else { RaiseMoves(cfg, r, p, a, i); }
    }
  }

  // The engine's table after an action is the one told from name and amount.
  lemma {:induction false} TableIsMoved(s: State, a: Action)
    requires Inv(s) && s.phase == Betting && Perform(s.cfg, s.round, s.players[s.round.toAct], a).Moved?
    ensures var m := Perform(s.cfg, s.round, s.players[s.round.toAct], a);
            AfterMove(s, m.player, m.round, m.kind) == TableAfter(s, a)
    ensures a.kind == AllIn ==>
              var p := s.players[s.round.toAct]; OfferedTo(s.cfg, s.round, p).allIn == MaxTo(p)
  {
    assert Healthy(s.players[s.round.toAct]);
    PerformMoves(s.cfg, s.round, s.players[s.round.toAct], a, s.round.toAct);
  }

  lemma {:induction false} ApplyIs(s: State, seat: int, a: Action)
    requires Step(s, DoApply(seat, a)).Done?
    ensures HasTurn(s, seat)
    ensures var m := Perform(s.cfg, s.round, s.players[s.round.toAct], a);
            && m.Moved?
            && Step(s, DoApply(seat, a)).state == Settle(AfterMove(s, m.player, m.round, m.kind), s.round.toAct, false)
  {
  }

  // What an accepted action does: it moves its player's chips as it says, nobody else's, and from
  // the table it leaves the turn passes clockwise or the street closes.
  lemma {:induction false} ActionMoves(s: State, seat: int, a: Action)
    requires Inv(s) && Step(s, DoApply(seat, a)).Done?
    ensures HasTurn(s, seat) && Follows(TableAfter(s, a), s.round.toAct, Step(s, DoApply(seat, a)).state)
    ensures a.kind == AllIn ==> Offered(s, seat).allIn == MaxTo(s.players[s.round.toAct])
  {
    ApplyIs(s, seat, a);
    TableIsMoved(s, a);
    AfterMoveKeeps(s, a);
    SettleFollows(TableAfter(s, a), s.round.toAct, s.round.toAct, false);
  }

  // Why an action is refused.
  lemma {:induction false} RefusedFor(s: State, seat: int, a: Action)
    requires Inv(s) && Step(s, DoApply(seat, a)).Rejected?
    ensures var e := Step(s, DoApply(seat, a)).error; var o := Offered(s, seat);
            e == if forall j :: 0 <= j < |s.players| ==> s.players[j].seat != seat then UnknownSeat
                 else if !HasTurn(s, seat) then NotYourTurn
                 else if (a.kind == Bet || a.kind == Raise) && o.allIn > s.round.currentBet then AmountOutOfRange
                 else IllegalAction
  {
    IndexOfBound(s.players, seat, |s.players|);
    if OnTurn(s, seat) {
      FindSeat(s.players, s.round.toAct);
      assert Healthy(s.players[s.round.toAct]);
      PerformRefused(s.cfg, s.round, s.players[s.round.toAct], a);
    }
  }

  lemma {:induction false} PerformRefused(cfg: Config, r: Round, p: Player, a: Action)
    requires Priced(cfg, r, p) && Perform(cfg, r, p, a).Refused?
    ensures Perform(cfg, r, p, a).error ==
            if (a.kind == Bet || a.kind == Raise) && OfferedTo(cfg, r, p).allIn > r.currentBet then AmountOutOfRange
            else IllegalAction
  {
  }

  // ---- whose turn is next ------------------------------------------------------------------------------------

  // The command is that of the player on turn: their action, their time running out, or leaving.
  predicate OfPlayerOnTurn(s: State, c: Command) {
    && OnTurnAt(s)
    && match c
       case DoApply(_, _) => true
       case DoTimeout(_) => true
       case DoForfeit(seat) => seat == s.players[s.round.toAct].seat
       case _ => false
  }

  predicate OnTurnAt(s: State) { s.phase == Betting && 0 <= s.round.toAct < |s.players| }

  // In every run: when betting on the street goes on after somebody's turn, the next turn is that
  // of the first player clockwise from them who needs to act.
  lemma {:induction false} TurnPasses(cfg: Config, seats: seq<Seat>, shuffled: seq<Card>, cs: seq<Command>,
        c: Command)
    requires SaneConfig(cfg, seats) && NewHand(cfg, seats, shuffled).Done?
    ensures var s := Run(NewHand(cfg, seats, shuffled).state, cs);
            Step(s, c).Done? && OfPlayerOnTurn(s, c) && Step(s, c).state.phase == Betting ==>
              var r := Step(s, c).state;
              && |r.players| == |s.players|
              && NextClockwise(r.players, r.round.currentBet, s.round.toAct, r.round.toAct)
              && forall j :: 0 <= j < |s.players| && j != s.round.toAct ==> r.players[j] == s.players[j]
  {
    NewHandStarts(cfg, seats, shuffled);
    HandRuns.RunKeeps(NewHand(cfg, seats, shuffled).state, cs);
    var s := Run(NewHand(cfg, seats, shuffled).state, cs);
    if Step(s, c).Done? && OfPlayerOnTurn(s, c) && Step(s, c).state.phase == Betting { TurnGoesOn(s, c); }
  }

  lemma {:induction false} TurnGoesOn(s: State, c: Command)
    requires Inv(s) && Step(s, c).Done? && OfPlayerOnTurn(s, c) && Step(s, c).state.phase == Betting
    ensures var r := Step(s, c).state;
            && |r.players| == |s.players| && NextClockwise(r.players, r.round.currentBet, s.round.toAct, r.round.toAct)
            && forall j :: 0 <= j < |s.players| && j != s.round.toAct ==> r.players[j] == s.players[j]
  {
    match c
    case DoApply(seat, a) => ActionMoves(s, seat, a);
    case DoTimeout(seat) => TimeoutMoves(s, seat);
    case DoForfeit(seat) =>
      ForfeitMoves(s, s.round.toAct);
    case _ =>
  }

  // ---- an armed action ------------------------------------------------------------------------------------------

  // What is reported of an armed action.
  function ArmedReport(seat: int, stack: int, o: Options, kind: PreAction): Event {
    if kind == PreFold || (kind == PreCheckFold && !o.check) then ActionTaken(seat, 0, false, Fold)
    else if o.check then ActionTaken(seat, 0, false, Check)
    else ActionTaken(seat, o.call, o.call == stack, Call)
  }

  // What becomes of an armed action: a fold folds, a check-fold folds exactly when a check is not
  // free, and a call-any calls whatever the price and never folds.
  lemma {:induction false} ArmedActs(s: State, seat: int, kind: PreAction)
    requires Inv(s) && HasTurn(s, seat)
    ensures var o := Offered(s, seat); var i := s.round.toAct; var outcome := Apply(s, seat, PreActionMove(kind, o));
            && outcome.Done? && |outcome.state.players| == |s.players|
            && (outcome.state.players[i].folded <==> kind == PreFold || (kind == PreCheckFold && !o.check))
            && s.log + [ArmedReport(seat, s.players[i].stack, o, kind)] <= outcome.state.log
  {
    var o := Offered(s, seat);
    var a := PreActionMove(kind, o);
    var p := s.players[s.round.toAct];
    assert Healthy(p);
    PreActionAccepted(s, seat, kind);
    assert Step(s, DoApply(seat, a)) == Apply(s, seat, a);
    ActionMoves(s, seat, a);
    FollowsStand(TableAfter(s, a), s.round.toAct, Apply(s, seat, a).state);
    ArmedReported(s.cfg, s.round, p, kind);
  }

  lemma {:induction false} ArmedReported(cfg: Config, r: Round, p: Player, kind: PreAction)
    requires Priced(cfg, r, p)
    ensures var o := OfferedTo(cfg, r, p); var a := PreActionMove(kind, o);
            && ActionReport(p, r.currentBet, Front(o, p, a), a.kind) == ArmedReport(p.seat, p.stack, o, kind)
            && (a.kind == Fold <==> kind == PreFold || (kind == PreCheckFold && !o.check))
  {
  }

  // What is offered: a check when the bet is at the price, else a call of what is missing or of the
  // rest of the stack; raises from the price and the least raise up to everything the player has.
  lemma {:induction false} OptionsMean(s: State, seat: int)
    requires Inv(s)
    ensures var o := Offered(s, seat);
            if !HasTurn(s, seat) then o == Options(false, false, 0, NoRaise, 0)
            else
              var p := s.players[s.round.toAct]; var price := s.round.currentBet;
              && o.fold && (o.check <==> p.bet == price)
              && o.call == (if p.stack < price - p.bet then p.stack else price - p.bet)
              && (o.raise.Range? ==>
                    && o.raise.min == (if price == 0 then s.cfg.bigBlind else price + s.round.raiseSize)
                    && o.raise.max == p.bet + p.stack)
              && (o.allIn == 0 || o.allIn == p.bet + p.stack)
  {
    if HasTurn(s, seat) { assert Healthy(s.players[s.round.toAct]); }
  }

  // ---- a timeout ------------------------------------------------------------------------------------------

  // The table when the player on turn has run out of time: they check when that is free, and
  // fold otherwise.
  function TableTimedOut(s: State, free: bool): State
    requires 0 <= s.round.toAct < |s.players|
  {
    var i := s.round.toAct;
    var p := s.players[i];
    s.(players := s.players[i := p.(folded := !free, hasActed := true, actedAt := s.round.fullLevel)],
       log := s.log + [TimedOut(p.seat, if free then Check else Fold)])
  }

  // A timeout is taken exactly from the player on turn, and no chips move.
  lemma {:induction false} TimeoutMoves(s: State, seat: int)
    requires Inv(s)
    ensures Step(s, DoTimeout(seat)).Done? <==> HasTurn(s, seat)
    ensures HasTurn(s, seat) ==>
              Follows(TableTimedOut(s, Offered(s, seat).check), s.round.toAct, Step(s, DoTimeout(seat)).state)
  {
    if OnTurn(s, seat) {
      var i := s.round.toAct;
      TimedOutPlaying(s);
      assert AfterTimeout(s) == TableTimedOut(s, Offered(s, seat).check);
      SettleFollows(AfterTimeout(s), i, i, false);
    }
  }

  // Whatever follows, the fold or the check of a timeout stands.
  lemma {:induction false} TimeoutFoldsIff(s: State, seat: int)
    requires Inv(s) && HasTurn(s, seat)
    ensures var r := Step(s, DoTimeout(seat)).state; var i := s.round.toAct; var free := Offered(s, seat).check;
            && Step(s, DoTimeout(seat)).Done? && |r.players| == |s.players|
            && (r.players[i].folded <==> !free)
            && s.log + [TimedOut(seat, if free then Check else Fold)] <= r.log
  {
    TimeoutMoves(s, seat);
    FollowsStand(TableTimedOut(s, Offered(s, seat).check), s.round.toAct, Step(s, DoTimeout(seat)).state);
  }

  // What follows changes neither who is in nor what was reported.
  lemma {:induction false} FollowsStand(s: State, anchor: nat, r: State)
    requires Follows(s, anchor, r)
    ensures |r.players| == |s.players| && s.log <= r.log
    ensures forall j :: 0 <= j < |s.players| ==> r.players[j].folded == s.players[j].folded
  {
    if !StaysOpen(s) { ClosesStand(s, r); }
  }

  lemma {:induction false} ClosesStand(s: State, r: State)
    requires Closes(s, r)
    ensures |r.players| == |s.players| && s.log <= r.log
    ensures forall j :: 0 <= j < |s.players| ==> r.players[j].folded == s.players[j].folded
  {
    forall j | 0 <= j < |s.players| ensures r.players[j].folded == s.players[j].folded {
      if r.phase == Result {
        assert PaidFrom(s.players, j, r.players[j]);
      } else if r.phase == Showdown {
        assert ClosedFrom(s.players, j, r.players[j]);
      } else {
        assert ClosedFrom(s.players, j, r.players[j].(revealed := s.players[j].revealed));
      }
    }
  }

  // ---- a forfeit --------------------------------------------------------------------------------------------

  function TableForfeited(s: State, i: nat): State
    requires i < |s.players|
  {
    s.(players := s.players[i := s.players[i].(folded := true)],
       log := s.log + [ActionTaken(s.players[i].seat, 0, false, Fold)])
  }

  ghost predicate MayForfeit(s: State, i: nat)
    requires i < |s.players|
  {
    !s.players[i].folded && (s.phase == Betting || s.phase == DealPending)
  }

  // What is left to follow from a table that player i has left.
  ghost predicate LeavesOff(s: State, m: State, i: nat, r: State) {
    if s.phase == Betting && s.round.toAct == i then Follows(m, i, r)
    else if (if s.phase == Betting then StaysOpen(m) else TwoLive(m.players)) then r == m
    else Closes(m, r)
  }

  lemma {:induction false} ForfeitAccepted(s: State, i: nat)
    requires Seating(s.players) && i < |s.players|
    ensures var seat := s.players[i].seat;
            && (Step(s, DoForfeit(seat)).Done? <==> MayForfeit(s, i))
            && (MayForfeit(s, i) ==> Step(s, DoForfeit(seat)).state == LeftOver(TableForfeited(s, i), i))
  {
    FindSeat(s.players, i);
  }

  lemma {:induction false} ForfeitEnds(s: State, i: nat)
    requires Inv(s) && i < |s.players| && MayForfeit(s, i)
    requires LiveCount(TableForfeited(s, i).players, |s.players|) == 1
    ensures var m := TableForfeited(s, i); LeavesOff(s, m, i, LeftOver(m, i))
  {
    var m := TableForfeited(s, i);
    assert m == AfterForfeit(s, i);
    AfterForfeitFacts(s, i);
    EndsAlone(m, i);
  }

  // One player is left: the phase before does not matter.
  lemma {:induction false} EndsAlone(m: State, i: nat)
    requires Seating(m.players) && AllHealthy(m.players) && i < |m.players| && LiveCount(m.players, |m.players|) == 1
    ensures !TwoLive(m.players) && !StaysOpen(m) && Closes(m, LeftOver(m, i))
  {
    var n := |m.players|;
    LastLiveIsLive(m.players, n);
    LivePair(m.players, n);
    SolePays(m.(phase := Betting), LastLive(m.players, n));
    ClosesAnyPhase(m, Betting, FinishUncontested(m.(phase := Betting), LastLive(m.players, n)));
  }

  lemma {:induction false} ClosesAnyPhase(m: State, phase: Phase, r: State)
    requires Closes(m.(phase := phase), r)
    ensures Closes(m, r)
  {
  }

  lemma {:induction false} ForfeitInRound(s: State, i: nat)
    requires Inv(s) && s.phase == Betting && i < |s.players| && MayForfeit(s, i)
    requires LiveCount(TableForfeited(s, i).players, |s.players|) >= 2
    ensures var m := TableForfeited(s, i); LeavesOff(s, m, i, LeftOver(m, i))
  {
    var m := TableForfeited(s, i);
    assert m == AfterForfeit(s, i);
    AfterForfeitFacts(s, i);
    OpenMeans(m);
    if s.round.toAct == i {
      SettleFollows(m, i, i, false);
    } else if RoundComplete(m.players, m.round.currentBet) {
      StreetCloses(m);
    }
  }

  // A forfeit folds the hand of its player and no other. On turn the turn passes on; out of turn
  // it stays where it is while betting goes on; between streets nothing else happens unless one
  // player is left.
  lemma {:induction false} ForfeitMoves(s: State, i: nat)
    requires Inv(s) && i < |s.players|
    ensures var seat := s.players[i].seat;
            && (Step(s, DoForfeit(seat)).Done? <==> MayForfeit(s, i))
            && (MayForfeit(s, i) ==> LeavesOff(s, TableForfeited(s, i), i, Step(s, DoForfeit(seat)).state))
  {
    ForfeitAccepted(s, i);
    if MayForfeit(s, i) {
      var m := TableForfeited(s, i);
      assert m == AfterForfeit(s, i);
      AfterForfeitFacts(s, i);
      LivePair(m.players, |m.players|);
      if LiveCount(m.players, |m.players|) == 1 {
        ForfeitEnds(s, i);
      } else if s.phase == Betting {
        ForfeitInRound(s, i);
      }
    }
  }

  // ---- the next street -----------------------------------------------------------------------------------------

  // The street is on the board, and nobody has bet or acted on it.
  function TableDealt(s: State): State {
    s.(deal := NextDeal(s.deal), log := s.log + StreetEvents(s.deal), phase := Betting,
       round := Round(0, 0, s.cfg.bigBlind, s.round.toAct, -1),
       players := seq(|s.players|, j requires 0 <= j < |s.players| =>
         s.players[j].(hasActed := false, actedAt := 0)))
  }

  // The street is dealt exactly when one is awaited. Betting opens left of the button; a run-out
  // only goes on, and ends with the pay-out when the river is there.
  lemma {:induction false} AdvanceMoves(s: State)
    requires Inv(s)
    ensures Step(s, DoAdvance).Done? <==> s.phase == DealPending
    ensures s.phase == DealPending ==>
              var r := Step(s, DoAdvance).state; var m := TableDealt(s);
              if !s.runout then ButtonIndex(s.cfg, s.players) >= 0 && Follows(m, ButtonIndex(s.cfg, s.players), r)
              else if m.deal.street != RIVER then r == s.(deal := m.deal, log := m.log)
              else r.phase == Result && r.deal == m.deal && m.log <= r.log
  {
    if s.phase == DealPending {
      var s1 := DealStreet(s);
      LineageSelf(s, s1);
      SoundCarries(s, s1);
      if s.runout {
        if s1.deal.street == RIVER { RunoutPays(s1); }
      } else {
        NewRoundKeeps(s1);
        assert NewRound(s1) == TableDealt(s);
        var b := ButtonIndex(s.cfg, s.players);
        SettleFollows(NewRound(s1), b, Next(b, |s.players|), true);
      }
    }
  }

  lemma {:induction false} RunoutPays(s: State)
    requires Sound(s) && Contested(s) && AllShown(s.players) && s.deal.street == RIVER
    ensures ToShowdown(s).phase == Result && ToShowdown(s).deal == s.deal && s.log <= ToShowdown(s).log
  {
    var s1 := s.(round := s.round.(toAct := -1));
    LineageSelf(s, s1);
    SoundCarries(s, s1);
    OpenShows(s1);
    AwardPotsKeeps(s1);
  }

  // What is reported of a street is what goes onto the boards: the flop is three cards, turn and
  // river one each, on the second board as on the first.
  lemma {:induction false} StreetReported(d: Deal)
    requires PREFLOP <= d.street < RIVER && d.deckPos + 6 <= |d.deck|
    ensures var n := if d.street == PREFLOP then 3 else 1; var r := NextDeal(d);
            var cards := d.deck[d.deckPos..d.deckPos + n]; var cards2 := d.deck[d.deckPos + n..d.deckPos + 2 * n];
            && r.street == d.street + 1 && r.board == d.board + cards && r.deck == d.deck
            && r.board2 == (if d.runTwice then d.board2 + cards2 else d.board2) && r.runTwice == d.runTwice
            && r.deckPos == d.deckPos + (if d.runTwice then 2 * n else n)
            && StreetEvents(d) == [StreetDealt(d.street + 1, cards, 0)] +
                 if d.runTwice then [StreetDealt(d.street + 1, cards2, 2)] else []
  {
  }

  // A second board starts as a copy of the first, in a run-out with enough cards for both.
  lemma {:induction false} TwiceMoves(s: State)
    ensures Step(s, DoRunItTwice) ==
            if s.phase == DealPending && s.runout && !s.deal.runTwice && |s.deal.board| < 5
              && s.deal.deckPos + 2 * (5 - |s.deal.board|) <= |s.deal.deck|
            then Done(s.(deal := s.deal.(runTwice := true, board2 := s.deal.board)))
            else Rejected(WrongPhase)
  {
  }
}
