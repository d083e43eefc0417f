// Who may raise. The engine compares two levels; the rule it stands for speaks of what happened:
// a player may raise unless they have acted on this street and nobody made a full bet or raise
// since. Every full bet or raise costs at least the big blind, which bounds their number.

module HandRaises {
  import opened Cards
  import opened Pots
  import opened HandModel
  import opened HandRules
  import opened HandChips
  import opened HandInvariant
  import opened HandStart
  import opened HandRuns
  import opened HandStakes

  // A turn taken in the betting round: by which position, and whether it was a full bet or raise.
  datatype Turn = Turn(who: int, full: bool)

  predicate IsFull(cfg: Config, r: Round, p: Player, a: Action) {
    var m := Meant(r, p, a);
    || (m.kind == Bet && m.amount >= cfg.bigBlind)
    || (m.kind == Raise && m.amount >= MinRaiseTo(r))
  }

  // The turns taken so far in the current betting round, after one more command.
  function Recall(turns: seq<Turn>, s: State, c: Command): seq<Turn> {
    if s.phase != Betting || After(s, c).phase != Betting then []
    else
      match c
      case DoApply(seat, a) =>
        if Apply(s, seat, a).Done? then
          turns + [Turn(s.round.toAct, IsFull(s.cfg, s.round, s.players[s.round.toAct], a))]
        else turns
      case DoTimeout(seat) => if Timeout(s, seat).Done? then turns + [Turn(s.round.toAct, false)] else turns
      case _ => turns
  }

  function Memory(s: State, cs: seq<Command>): seq<Turn> {
    if cs == [] then [] else Recall(Memory(s, cs[..|cs| - 1]), Run(s, cs[..|cs| - 1]), cs[|cs| - 1])
  }

  // Player i has not acted on this street, or somebody made a full bet or raise after they did.
  predicate Reopened(turns: seq<Turn>, i: int) {
    if turns == [] then true
    else
      var t := turns[|turns| - 1];
      t.who != i && (t.full || Reopened(turns[..|turns| - 1], i))
  }

  // The same, place by place: all turns of player i lie before some full bet or raise of others.
  lemma {:induction false} ReopenedMeans(turns: seq<Turn>, i: int)
    ensures Reopened(turns, i) <==>
              || (forall k :: 0 <= k < |turns| ==> turns[k].who != i)
              || exists j :: 0 <= j < |turns| && turns[j].full && forall k :: j <= k < |turns| ==> turns[k].who != i
  {
    if turns != [] {
      var last := |turns| - 1;
      var init := turns[..last];
      ReopenedMeans(init, i);
      if turns[last].who != i {
        if !turns[last].full {
          if j :| 0 <= j < |init| && init[j].full && forall k :: j <= k < |init| ==> init[k].who != i {
            assert turns[j].full && forall k :: j <= k < |turns| ==> turns[k].who != i;
          }
          if j :| 0 <= j < |turns| && turns[j].full && forall k :: j <= k < |turns| ==> turns[k].who != i {
            assert init[j].full && forall k :: j <= k < |init| ==> init[k].who != i;
          }
          assert (forall k :: 0 <= k < |turns| ==> turns[k].who != i) <==>
                 (forall k :: 0 <= k < |init| ==> init[k].who != i) by {
            assert forall k :: 0 <= k < |init| ==> init[k] == turns[k];
          }
        }
      }
    }
  }

  function FullCount(turns: seq<Turn>): nat {
    if turns == [] then 0 else FullCount(turns[..|turns| - 1]) + if turns[|turns| - 1].full then 1 else 0
  }

  // n big blinds.
  function Blinds(bb: int, n: nat): int { if n == 0 then 0 else Blinds(bb, n - 1) + bb }

  // ---- what the levels remember --------------------------------------------------------------------

  ghost predicate LevelsTell(s: State, turns: seq<Turn>) {
    forall i :: 0 <= i < |s.players| ==>
      && (s.players[i].hasActed ==> s.players[i].actedAt <= s.round.fullLevel)
      && (MayRaise(s.players[i], s.round.fullLevel) <==> Reopened(turns, i))
  }

  ghost predicate SomebodyBet(ps: seq<Player>, amount: int) {
    exists i :: 0 <= i < |ps| && ps[i].bet == amount
  }

  // The price has been driven up by a big blind for every full bet or raise, and is on the table.
  ghost predicate PricePaid(s: State, turns: seq<Turn>) {
    && s.round.currentBet >= Blinds(s.cfg.bigBlind, FullCount(turns))
    && (FullCount(turns) > 0 ==> SomebodyBet(s.players, s.round.currentBet))
  }

  // The least raise is at least the big blind: always after the flop, and before it when the hand
  // began so (a straddle below the big blind may set a smaller one).
  ghost predicate Sized(s: State, sized: bool) { sized || s.deal.street > PREFLOP }

  ghost predicate Remembered(s: State, turns: seq<Turn>, sized: bool) {
    s.phase == Betting ==>
      && LevelsTell(s, turns)
      && (Sized(s, sized) ==> PricePaid(s, turns) && s.round.raiseSize >= s.cfg.bigBlind)
  }

  lemma {:induction false} Appended(turns: seq<Turn>, t: Turn)
    ensures forall i :: Reopened(turns + [t], i) <==> t.who != i && (t.full || Reopened(turns, i))
    ensures FullCount(turns + [t]) == FullCount(turns) + if t.full then 1 else 0
  {
    assert (turns + [t])[..|turns|] == turns;
  }

  // A settled round still in progress has only passed the turn on.
  lemma {:induction false} StillBetting(s: State, from: nat, inclusive: bool)
    requires Playing(s) && from < |s.players|
    ensures var r := Settle(s, from, inclusive);
            r.phase == Betting ==>
              r.players == s.players && r.cfg == s.cfg && r.deal == s.deal
                && r.round == s.round.(toAct := r.round.toAct)
  {
    LastLiveIsLive(s.players, |s.players|);
    if LiveCount(s.players, |s.players|) == 1 {
      FinishUncontestedKeeps(s, LastLive(s.players, |s.players|));
    } else if RoundComplete(s.players, s.round.currentBet) {
      EndStreetKeeps(s);
    }
  }

  lemma {:induction false} RememberedOn(s: State, r: State, turns: seq<Turn>, sized: bool)
    requires Remembered(s, turns, sized) && s.phase == Betting
    requires r.phase == Betting ==>
               r.players == s.players && r.cfg == s.cfg && r.deal == s.deal
                 && r.round == s.round.(toAct := r.round.toAct)
    ensures Remembered(r, turns, sized)
  {
  }

  // ---- the steps --------------------------------------------------------------------------------------

  // What an accepted action does to the levels.
  lemma {:induction false} LevelsMove(cfg: Config, r: Round, p: Player, a: Action)
    requires Priced(cfg, r, p) && Perform(cfg, r, p, a).Moved?
    ensures var m := Perform(cfg, r, p, a);
            && (if IsFull(cfg, r, p, a) then
                  && m.round.fullLevel > r.fullLevel && m.player.bet == m.round.currentBet
                  && (r.raiseSize >= cfg.bigBlind ==> m.round.currentBet >= r.currentBet + cfg.bigBlind)
                else m.round.fullLevel == r.fullLevel)
            && (m.player.bet == m.round.currentBet || (m.round.currentBet == r.currentBet && m.player.bet >= p.bet))
            && m.round.currentBet >= r.currentBet && m.round.raiseSize >= r.raiseSize
  {
    PerformedIsFair(cfg, r, p, a);
  }

  lemma {:induction false} MoveTells(s: State, a: Action, turns: seq<Turn>, sized: bool)
    requires Inv(s) && s.phase == Betting && Remembered(s, turns, sized)
    requires Perform(s.cfg, s.round, s.players[s.round.toAct], a).Moved?
    ensures var i := s.round.toAct; var p := s.players[i]; var m := Perform(s.cfg, s.round, p, a);
            Remembered(AfterMove(s, m.player, m.round, m.kind), turns + [Turn(i, IsFull(s.cfg, s.round, p, a))], sized)
  {
    var i := s.round.toAct;
    var p := s.players[i];
    var m := Perform(s.cfg, s.round, p, a);
    var t := Turn(i, IsFull(s.cfg, s.round, p, a));
    var r := AfterMove(s, m.player, m.round, m.kind);
    assert Healthy(p);
    LevelsMove(s.cfg, s.round, p, a);
    Appended(turns, t);
    forall j | 0 <= j < |r.players|
      ensures r.players[j].hasActed ==> r.players[j].actedAt <= r.round.fullLevel
      ensures MayRaise(r.players[j], r.round.fullLevel) <==> Reopened(turns + [t], j)
    {
      assert s.players[j].hasActed ==> s.players[j].actedAt <= s.round.fullLevel;
    }
    if m.player.bet == m.round.currentBet {
      assert r.players[i].bet == r.round.currentBet;
    } else if Sized(s, sized) && FullCount(turns) > 0 {
      var j :| 0 <= j < |s.players| && s.players[j].bet == s.round.currentBet;
      assert r.players[j].bet == r.round.currentBet;
    }
  }

  lemma {:induction false} LapseTells(s: State, turns: seq<Turn>, sized: bool)
    requires Inv(s) && s.phase == Betting && Remembered(s, turns, sized)
    ensures Remembered(AfterTimeout(s), turns + [Turn(s.round.toAct, false)], sized)
  {
    var r := AfterTimeout(s);
    Appended(turns, Turn(s.round.toAct, false));
    forall j | 0 <= j < |r.players|
      ensures r.players[j].hasActed ==> r.players[j].actedAt <= r.round.fullLevel
      ensures MayRaise(r.players[j], r.round.fullLevel) <==> Reopened(turns + [Turn(s.round.toAct, false)], j)
    {
      assert s.players[j].hasActed ==> s.players[j].actedAt <= s.round.fullLevel;
    }
    if Sized(s, sized) { SameBets(s, r, turns); }
  }

  lemma {:induction false} SameBets(s: State, r: State, turns: seq<Turn>)
    requires |r.players| == |s.players| && r.round.currentBet == s.round.currentBet && PricePaid(s, turns)
    requires forall j :: 0 <= j < |s.players| ==> r.players[j].bet == s.players[j].bet
    ensures FullCount(turns) > 0 ==> SomebodyBet(r.players, r.round.currentBet)
  {
    if FullCount(turns) > 0 {
      var j :| 0 <= j < |s.players| && s.players[j].bet == s.round.currentBet;
      assert r.players[j].bet == r.round.currentBet;
    }
  }

  lemma {:induction false} FoldTells(s: State, i: nat, turns: seq<Turn>, sized: bool)
    requires i < |s.players| && s.phase == Betting && Remembered(s, turns, sized)
    ensures Remembered(AfterForfeit(s, i), turns, sized)
  {
    var r := AfterForfeit(s, i);
    forall j | 0 <= j < |r.players|
      ensures r.players[j].hasActed ==> r.players[j].actedAt <= r.round.fullLevel
      ensures MayRaise(r.players[j], r.round.fullLevel) <==> Reopened(turns, j)
    {
      assert s.players[j].hasActed ==> s.players[j].actedAt <= s.round.fullLevel;
    }
    if Sized(s, sized) { SameBets(s, r, turns); }
  }

  // Nobody has acted yet.
  lemma {:induction false} NothingYet(s: State, sized: bool)
    requires forall i :: 0 <= i < |s.players| ==> !s.players[i].hasActed
    requires s.round.currentBet >= 0 && (Sized(s, sized) ==> s.round.raiseSize >= s.cfg.bigBlind)
    ensures Remembered(s, [], sized)
  {
  }

  lemma {:induction false} ApplyTells(s: State, seat: int, a: Action, turns: seq<Turn>, sized: bool)
    requires Inv(s) && s.phase == Betting && Remembered(s, turns, sized)
    ensures Remembered(After(s, DoApply(seat, a)), Recall(turns, s, DoApply(seat, a)), sized)
  {
    if Apply(s, seat, a).Done? {
      var i := s.round.toAct;
      var m := Perform(s.cfg, s.round, s.players[i], a);
      var s1 := AfterMove(s, m.player, m.round, m.kind);
      AfterMoveKeeps(s, a);
      MoveTells(s, a, turns, sized);
      StillBetting(s1, i, false);
      RememberedOn(s1, Settle(s1, i, false), turns + [Turn(i, IsFull(s.cfg, s.round, s.players[i], a))], sized);
    }
  }

  lemma {:induction false} TimeoutTells(s: State, seat: int, turns: seq<Turn>, sized: bool)
    requires Inv(s) && s.phase == Betting && Remembered(s, turns, sized)
    ensures Remembered(After(s, DoTimeout(seat)), Recall(turns, s, DoTimeout(seat)), sized)
  {
    if Timeout(s, seat).Done? {
      var s1 := AfterTimeout(s);
      TimedOutPlaying(s);
      LapseTells(s, turns, sized);
      StillBetting(s1, s.round.toAct, false);
      RememberedOn(s1, Settle(s1, s.round.toAct, false), turns + [Turn(s.round.toAct, false)], sized);
    }
  }

  // A forfeit after which betting goes on has only folded the hand, and perhaps passed the turn.
  lemma {:induction false} StillBettingWithout(s: State, seat: int)
    requires Inv(s) && Forfeit(s, seat).Done?
    ensures var r := Forfeit(s, seat).state; var s1 := AfterForfeit(s, Find(s.players, seat));
            r.phase == Betting ==>
              && s.phase == Betting && r.players == s1.players && r.cfg == s1.cfg && r.deal == s1.deal
              && r.round == s1.round.(toAct := r.round.toAct)
  {
    var n := |s.players|;
    var i := Find(s.players, seat);
    var s1 := AfterForfeit(s, i);
    AfterForfeitFacts(s, i);
    LastLiveIsLive(s1.players, n);
    if LiveCount(s1.players, n) == 1 {
      FinishUncontestedDeal(s1.(phase := Betting), LastLive(s1.players, n));
    } else if s.phase == Betting {
      if s.round.toAct == i {
        StillBetting(s1, i, false);
      } else if RoundComplete(s1.players, s1.round.currentBet) {
        EndStreetKeeps(s1);
      }
    }
  }

  lemma {:induction false} ForfeitTells(s: State, seat: int, turns: seq<Turn>, sized: bool)
    requires Inv(s) && s.phase == Betting && Remembered(s, turns, sized)
    ensures Remembered(After(s, DoForfeit(seat)), Recall(turns, s, DoForfeit(seat)), sized)
  {
    if Forfeit(s, seat).Done? {
      var i := Find(s.players, seat);
      FoldTells(s, i, turns, sized);
      StillBettingWithout(s, seat);
      RememberedOn(AfterForfeit(s, i), Forfeit(s, seat).state, turns, sized);
    }
  }

  // A new round of betting starts with a clean slate.
  lemma {:induction false} NewRoundTells(s: State, c: Command, sized: bool)
    requires Inv(s) && s.phase != Betting
    ensures Remembered(After(s, c), [], sized)
  {
    if Step(s, c).Done? {
      match c
      case DoApply(seat, a) =>
      case DoTimeout(seat) =>
      case DoForfeit(seat) => StillBettingWithout(s, seat);
      case DoAdvance => AdvanceTells(s, sized);
      case DoRunItTwice =>
      case DoRevealNext => StepKeeps(s, c); RevealedIsOver(s);
    }
  }

  lemma {:induction false} RevealedIsOver(s: State)
    requires Inv(s) && RevealNext(s).Done?
    ensures RevealNext(s).state.phase != Betting
  {
  }

  lemma {:induction false} AdvanceTells(s: State, sized: bool)
    requires Inv(s) && Advance(s).Done?
    ensures Remembered(Advance(s).state, [], sized)
  {
    var s1 := DealStreet(s);
    LineageSelf(s, s1);
    SoundCarries(s, s1);
    if s.runout {
      if s1.deal.street == RIVER { ToShowdownKeeps(s1); }
    } else {
      var s2 := NewRound(s1);
      NewRoundKeeps(s1);
      NothingYet(s2, sized);
      var from := Next(ButtonIndex(s.cfg, s.players), |s.players|);
      StillBetting(s2, from, true);
      RememberedOn(s2, Settle(s2, from, true), [], sized);
    }
  }

  lemma {:induction false} StepTells(s: State, c: Command, turns: seq<Turn>, sized: bool)
    requires Inv(s) && Remembered(s, turns, sized)
    ensures Remembered(After(s, c), Recall(turns, s, c), sized)
  {
    if s.phase != Betting {
      NewRoundTells(s, c, sized);
    } else {
      match c
      case DoApply(seat, a) => ApplyTells(s, seat, a, turns, sized);
      case DoTimeout(seat) => TimeoutTells(s, seat, turns, sized);
      case DoForfeit(seat) => ForfeitTells(s, seat, turns, sized);
      case DoAdvance =>
      case DoRunItTwice =>
      case DoRevealNext =>
    }
  }

  // ---- every run ----------------------------------------------------------------------------------------

  lemma {:induction false} NewHandTells(cfg: Config, seats: seq<Seat>, shuffled: seq<Card>, sized: bool)
    requires SaneConfig(cfg, seats) && NewHand(cfg, seats, shuffled).Done?
    requires sized ==> NewHand(cfg, seats, shuffled).state.round.raiseSize >= cfg.bigBlind
    ensures Remembered(NewHand(cfg, seats, shuffled).state, [], sized)
  {
    NewHandAccepts(cfg, seats, shuffled);
    OpenedWell(cfg, seats, shuffled);
    var s := Opened(cfg, seats, shuffled);
    var b := ButtonIndex(cfg, Seated(cfg, seats));
    DealHolesKeeps(s, b);
    var s1 := DealHoles(s, b);
    StillBetting(s1, FirstToAct(s1, b), true);
    if NewHand(cfg, seats, shuffled).state.phase == Betting {
      NothingYet(s1, sized);
      RememberedOn(s1, Settle(s1, FirstToAct(s1, b), true), [], sized);
    }
  }

  lemma {:induction false} RunTells(s: State, cs: seq<Command>, sized: bool)
    requires Inv(s) && Remembered(s, [], sized)
    ensures Inv(Run(s, cs)) && Remembered(Run(s, cs), Memory(s, cs), sized)
    decreases |cs|
  {
    if cs != [] {
      var init := cs[..|cs| - 1];
      RunTells(s, init, sized);
      StepKeeps(Run(s, init), cs[|cs| - 1]);
      StepTells(Run(s, init), cs[|cs| - 1], Memory(s, init), sized);
    }
  }

  // In every run, while betting is on: the player on turn may raise exactly when they have not
  // acted on this street or somebody made a full bet or raise since.
  lemma {:induction false} RaiseRule(cfg: Config, seats: seq<Seat>, shuffled: seq<Card>, cs: seq<Command>, i: nat)
    requires SaneConfig(cfg, seats) && NewHand(cfg, seats, shuffled).Done?
    requires i < |Run(NewHand(cfg, seats, shuffled).state, cs).players|
    ensures var s := NewHand(cfg, seats, shuffled).state; var r := Run(s, cs);
            r.phase == Betting ==> (MayRaise(r.players[i], r.round.fullLevel) <==> Reopened(Memory(s, cs), i))
  {
    NewHandStarts(cfg, seats, shuffled);
    NewHandTells(cfg, seats, shuffled, false);
    RunTells(NewHand(cfg, seats, shuffled).state, cs, false);
  }

  // What has been raised so far has been paid for.
  ghost predicate RaisesPaid(r: State, full: nat) {
    && r.round.raiseSize >= r.cfg.bigBlind
    && (full > 0 ==>
          exists i :: 0 <= i < |r.players| &&
            Blinds(r.cfg.bigBlind, full) <= r.round.currentBet == r.players[i].bet <= r.players[i].startStack)
  }

  lemma {:induction false} RunRaises(s: State, cs: seq<Command>, sized: bool)
    requires Inv(s) && Fair(s) && Remembered(s, [], sized)
    ensures var r := Run(s, cs);
            r.phase == Betting && (r.deal.street > PREFLOP || sized) ==> RaisesPaid(r, FullCount(Memory(s, cs)))
  {
    RunTells(s, cs, sized);
    RunFair(s, cs);
    var r := Run(s, cs);
    if r.phase == Betting && (r.deal.street > PREFLOP || sized) && FullCount(Memory(s, cs)) > 0 {
      var i :| 0 <= i < |r.players| && r.players[i].bet == r.round.currentBet;
      assert Healthy(r.players[i]) && Worth(r.players[i]) == r.players[i].startStack;
    }
  }

  // After the flop, and before it unless a straddle below the big blind has set a smaller raise:
  // the least raise is at least the big blind, every full bet or raise of the round has cost
  // one, and somebody has paid for them all, so that their buy-in bounds the number.
  lemma {:induction false} RaisesBounded(cfg: Config, seats: seq<Seat>, shuffled: seq<Card>, cs: seq<Command>)
    requires SaneConfig(cfg, seats) && NewHand(cfg, seats, shuffled).Done?
    ensures var s := NewHand(cfg, seats, shuffled).state; var r := Run(s, cs);
            r.cfg == cfg
            && (r.phase == Betting && (r.deal.street > PREFLOP || s.round.raiseSize >= cfg.bigBlind) ==>
                  RaisesPaid(r, FullCount(Memory(s, cs))))
  {
    var s := NewHand(cfg, seats, shuffled).state;
    NewHandStarts(cfg, seats, shuffled);
    NewHandTells(cfg, seats, shuffled, s.round.raiseSize >= cfg.bigBlind);
    NewHandFair(cfg, seats, shuffled);
    NewHandConfig(cfg, seats, shuffled);
    RunRaises(s, cs, s.round.raiseSize >= cfg.bigBlind);
    RunKeeps(s, cs);
  }

  lemma {:induction false} NewHandConfig(cfg: Config, seats: seq<Seat>, shuffled: seq<Card>)
    requires SaneConfig(cfg, seats) && NewHand(cfg, seats, shuffled).Done?
    ensures NewHand(cfg, seats, shuffled).state.cfg == cfg
  {
    NewHandAccepts(cfg, seats, shuffled);
    OpenedWell(cfg, seats, shuffled);
    var s := Opened(cfg, seats, shuffled);
    var b := ButtonIndex(cfg, Seated(cfg, seats));
    DealHolesKeeps(s, b);
    var s1 := DealHoles(s, b);
    SettleKeeps(s1, FirstToAct(s1, b), true);
  }

  // Within a street the least raise never shrinks.
  lemma {:induction false} RaiseSizeHolds(s: State, c: Command)
    requires Inv(s) && s.phase == Betting && After(s, c).phase == Betting
    ensures After(s, c).round.raiseSize >= s.round.raiseSize >= 1
  {
    if Step(s, c).Done? {
      match c
      case DoApply(seat, a) =>
        var m := Perform(s.cfg, s.round, s.players[s.round.toAct], a);
        assert Healthy(s.players[s.round.toAct]);
        LevelsMove(s.cfg, s.round, s.players[s.round.toAct], a);
        AfterMoveKeeps(s, a);
        StillBetting(AfterMove(s, m.player, m.round, m.kind), s.round.toAct, false);
      case DoTimeout(seat) =>
        TimedOutPlaying(s);
        StillBetting(AfterTimeout(s), s.round.toAct, false);
      case DoForfeit(seat) => StillBettingWithout(s, seat);
      case DoAdvance =>
      case DoRunItTwice =>
      case DoRevealNext =>
    }
  }
}
