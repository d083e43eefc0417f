// Whole runs of a hand: every interleaving of commands keeps the invariant and the chips, and
// every hand ends.

module HandRuns {
  import opened Cards
  import opened HandModel
  import opened HandRules
  import opened HandChips
  import opened HandInvariant
  import opened HandStart

  // ---- conservation -----------------------------------------------------------------------------

  lemma {:induction false} RunKeeps(s: State, cs: seq<Command>)
    requires Inv(s)
    ensures Inv(Run(s, cs)) && Lineage(s, Run(s, cs))
    decreases |cs|
  {
    if cs == [] {
      LineageSelf(s, s);
    } else {
      var r := Run(s, cs[..|cs| - 1]);
      RunKeeps(s, cs[..|cs| - 1]);
      StepKeeps(r, cs[|cs| - 1]);
      LineageOn(s, r, Run(s, cs));
    }
  }

  function NetSum(results: seq<SeatResult>): int {
    if results == [] then 0 else results[0].net + NetSum(results[1..])
  }

  lemma {:induction false} NetsAddUp(ps: seq<Player>, results: seq<SeatResult>, n: nat)
    requires |results| == |ps| && n <= |ps|
    requires forall i :: 0 <= i < |ps| ==> results[i].net == ps[i].stack - ps[i].startStack
    ensures NetSum(results[n..]) == Stacks(ps, |ps|) - Stacks(ps, n) - (StartChips(ps, |ps|) - StartChips(ps, n))
    decreases |ps| - n
  {
    if n < |ps| {
      NetsAddUp(ps, results, n + 1);
      assert results[n..][1..] == results[n + 1..];
    }
  }

  lemma {:induction false} NothingCommitted(ps: seq<Player>, n: nat)
    requires n <= |ps| && forall i :: 0 <= i < |ps| ==> ps[i].committed == 0
    ensures Committed(ps, n) == 0
  {
    if n > 0 { NothingCommitted(ps, n - 1); }
  }

  lemma {:induction false} RunConserves(s: State, cs: seq<Command>, brought: int)
    requires Inv(s) && StartChips(s.players, |s.players|) == brought
    ensures var r := Run(s, cs);
            && TotalChips(r.players, |r.players|) == brought
            && (r.phase == Result ==>
                  PaidUp(r) && Stacks(r.players, |r.players|) == brought && NetSum(r.results.seats) == 0)
  {
    var r := Run(s, cs);
    RunKeeps(s, cs);
    SameSeatsMatch(s.players, r.players);
    StartPointwise(s.players, r.players, |s.players|);
    if r.phase == Result {
      NothingCommitted(r.players, |r.players|);
      TotalSplits(r.players, |r.players|);
      NetsAddUp(r.players, r.results.seats, 0);
      assert r.results.seats[0..] == r.results.seats;
    }
  }

  // Over every sequence of commands the chips in the hand are the stacks the players brought.
  // Once the hand is over they are all in the stacks again and the results sum to zero.
  lemma {:induction false} ChipsConserved(cfg: Config, seats: seq<Seat>, shuffled: seq<Card>, cs: seq<Command>)
    requires SaneConfig(cfg, seats) && NewHand(cfg, seats, shuffled).Done?
    ensures var r := Run(NewHand(cfg, seats, shuffled).state, cs);
            && TotalChips(r.players, |r.players|) == SeatSum(seats)
            && (r.phase == Result ==>
                  PaidUp(r) && Stacks(r.players, |r.players|) == SeatSum(seats) && NetSum(r.results.seats) == 0)
  {
    NewHandStarts(cfg, seats, shuffled);
    NewHandChips(cfg, seats, shuffled);
    RunConserves(NewHand(cfg, seats, shuffled).state, cs, SeatSum(seats));
  }

  // ---- termination ---------------------------------------------------------------------------------

  function PhaseRank(p: Phase): nat {
    match p
    case Betting => 3
    case DealPending => 2
    case Showdown => 1
    case Result => 0
  }

  // Players who have not acted in this round and still can.
  function Unacted(ps: seq<Player>, n: nat): nat
    requires n <= |ps|
  {
    if n == 0 then 0 else Unacted(ps, n - 1) + if Active(ps[n - 1]) && !ps[n - 1].hasActed then 1 else 0
  }

  // Streets to come, phase, whether a second board can still be asked for, chips in stacks,
  // players in or yet to act, hands yet to be shown.
  datatype Progress = Progress(streets: int, phase: nat, twice: nat, stacks: int, players: nat, hands: nat)

  function ProgressOf(s: State): Progress {
    Progress(RIVER - s.deal.street, PhaseRank(s.phase), if s.deal.runTwice then 0 else 1,
             Stacks(s.players, |s.players|), LiveCount(s.players, |s.players|) + Unacted(s.players, |s.players|),
             if s.show.idx <= |s.show.order| then |s.show.order| - s.show.idx else 0)
  }

  predicate Less(a: Progress, b: Progress) {
    || a.streets < b.streets
    || (a.streets == b.streets && (
         || a.phase < b.phase
         || (a.phase == b.phase && (
              || a.twice < b.twice
              || (a.twice == b.twice && (
                   || a.stacks < b.stacks
                   || (a.stacks == b.stacks && (
                        || a.players < b.players
                        || (a.players == b.players && a.hands < b.hands)))))))))
  }

  lemma {:induction false} UnactedUpdate(ps: seq<Player>, i: nat, q: Player, n: nat)
    requires i < |ps| && n <= |ps|
    ensures Unacted(ps[i := q], n) == Unacted(ps, n) +
              if i < n then
                (if Active(q) && !q.hasActed then 1 else 0) - (if Active(ps[i]) && !ps[i].hasActed then 1 else 0)
              else 0
  {
    if n > 0 { UnactedUpdate(ps, i, q, n - 1); }
  }

  // Closing a round deals no cards.
  lemma {:induction false} AwardPotsDeal(s: State)
    ensures AwardPots(s).deal == s.deal
  {
  }

  lemma {:induction false} ToShowdownDeal(s: State)
    requires |s.players| > 0
    ensures ToShowdown(s).deal == s.deal && (ToShowdown(s).phase == Result || ToShowdown(s).phase == Showdown)
  {
    AwardPotsDeal(s.(round := s.round.(toAct := -1)));
  }

  lemma {:induction false} EndStreetDeal(s: State)
    requires |s.players| > 0
    ensures EndStreet(s).deal == s.deal && PhaseRank(EndStreet(s).phase) <= 2
  {
    var s1 := CloseBets(s).(round := CloseBets(s).round.(toAct := -1));
    ToShowdownDeal(s1);
  }

  // Settling moves on to a later phase of the same street, or only passes the turn.
  lemma {:induction false} SettleDeal(s: State, from: nat, inclusive: bool)
    requires from < |s.players| && s.phase == Betting
    ensures var r := Settle(s, from, inclusive);
            r.deal == s.deal && (PhaseRank(r.phase) <= 2 || (r.phase == Betting && r.players == s.players))
  {
    EndStreetDeal(s);
  }

  lemma {:induction false} MoveShrinks(s: State, i: nat, q: Player, r: State)
    requires i < |s.players| && r.players == s.players[i := q] && r.deal == s.deal && r.phase == s.phase
    requires q.stack < s.players[i].stack ||
             (q.stack == s.players[i].stack && (q.folded || q.hasActed) && q.allIn == s.players[i].allIn
                 && (s.players[i].folded ==> q.folded)
              && ((q.folded && !s.players[i].folded) || (Active(s.players[i]) && !s.players[i].hasActed)))
    ensures Less(ProgressOf(r), ProgressOf(s))
  {
    var n := |s.players|;
    StacksUpdate(s.players, i, q, n);
    LiveUpdate(s.players, i, q, n);
    UnactedUpdate(s.players, i, q, n);
  }

  // Every accepted action costs its player chips, the hand, or the turn to speak.
  lemma {:induction false} PerformCosts(cfg: Config, r: Round, p: Player, a: Action)
    requires Priced(cfg, r, p) && NeedsToAct(p, r.currentBet) && Perform(cfg, r, p, a).Moved?
    ensures var q := Perform(cfg, r, p, a).player;
            q.stack < p.stack || (q.stack == p.stack && q.allIn == p.allIn && (q.folded || (q == p && !p.hasActed)))
  {
  }

  lemma {:induction false} ApplyShrinks(s: State, seat: int, a: Action)
    requires Inv(s) && Apply(s, seat, a).Done?
    ensures Less(ProgressOf(Apply(s, seat, a).state), ProgressOf(s))
  {
    var i := s.round.toAct;
    var m := Perform(s.cfg, s.round, s.players[i], a);
    var s1 := AfterMove(s, m.player, m.round, m.kind);
    assert Healthy(s.players[i]);
    PerformCosts(s.cfg, s.round, s.players[i], a);
    MoveShrinks(s, i, Acted(m.player, m.round.fullLevel), s1);
    AfterMoveKeeps(s, a);
    SettleDeal(s1, i, false);
  }

  lemma {:induction false} TimeoutShrinks(s: State, seat: int)
    requires Inv(s) && Timeout(s, seat).Done?
    ensures Less(ProgressOf(Timeout(s, seat).state), ProgressOf(s))
  {
    var i := s.round.toAct;
    var s1 := AfterTimeout(s);
    MoveShrinks(s, i, s1.players[i], s1);
    SettleDeal(s1, i, false);
  }

  lemma {:induction false} FoldShrinks(s: State, i: nat)
    requires i < |s.players| && !s.players[i].folded
    ensures Less(ProgressOf(AfterForfeit(s, i)), ProgressOf(s))
  {
    MoveShrinks(s, i, AfterForfeit(s, i).players[i], AfterForfeit(s, i));
  }

  lemma {:induction false} FinishUncontestedDeal(s: State, winner: nat)
    requires winner < |s.players|
    ensures FinishUncontested(s, winner).deal == s.deal && FinishUncontested(s, winner).phase == Result
  {
  }

  // A forfeit ends the hand or the round, passes the turn, or changes nothing else.
  lemma {:induction false} ForfeitDeal(s: State, seat: int)
    requires |s.players| > 0 && Forfeit(s, seat).Done?
    ensures var r := Forfeit(s, seat).state; var i := Find(s.players, seat); var s1 := AfterForfeit(s, i);
            && r.deal == s.deal
            && ((s.phase != Result && r.phase == Result)
                || (s.phase == Betting && PhaseRank(r.phase) <= 2)
                || (r.phase == s.phase && r.players == s1.players && r.show == s.show))
  {
    var i := Find(s.players, seat);
    var s1 := AfterForfeit(s, i);
    var n := |s.players|;
    if LiveCount(s1.players, n) == 1 && LastLive(s1.players, n) >= 0 {
      FinishUncontestedDeal(s1.(phase := Betting), LastLive(s1.players, n));
    } else if s.phase == Betting {
      if s.round.toAct == i { SettleDeal(s1, i, false); } else { EndStreetDeal(s1); }
    }
  }

  lemma {:induction false} ForfeitShrinks(s: State, seat: int)
    requires Inv(s) && Forfeit(s, seat).Done?
    ensures Less(ProgressOf(Forfeit(s, seat).state), ProgressOf(s))
  {
    ForfeitDeal(s, seat);
    FoldShrinks(s, Find(s.players, seat));
  }

  lemma {:induction false} AdvanceShrinks(s: State)
    requires Inv(s) && Advance(s).Done?
    ensures Less(ProgressOf(Advance(s).state), ProgressOf(s))
  {
    var s1 := DealStreet(s);
    if s.runout {
      ToShowdownDeal(s1);
    } else {
      SettleDeal(NewRound(s1), Next(ButtonIndex(s.cfg, s.players), |s.players|), true);
    }
  }

  lemma {:induction false} SameProgress(ps: seq<Player>, qs: seq<Player>, n: nat)
    requires |ps| == |qs| && n <= |ps|
    requires forall i :: 0 <= i < n ==>
      ps[i].stack == qs[i].stack && ps[i].folded == qs[i].folded && Active(ps[i]) == Active(qs[i])
        && ps[i].hasActed == qs[i].hasActed
    ensures Stacks(ps, n) == Stacks(qs, n) && LiveCount(ps, n) == LiveCount(qs, n) && Unacted(ps, n) == Unacted(qs, n)
  {
    if n > 0 { SameProgress(ps, qs, n - 1); }
  }

  // Progress of a reveal, whether the hand is shown or mucked.
  lemma {:induction false} TurnedShrinks(s: State, i: nat, show: bool)
    requires i < |s.players| && s.show.idx < |s.show.order|
    ensures Less(ProgressOf(Turned(Called(s), i, show)), ProgressOf(s))
  {
    SameProgress(s.players, Turned(Called(s), i, show).players, |s.players|);
  }

  lemma {:induction false} RevealStepShrinks(s: State, show: bool)
    requires s.phase == Showdown && s.show.idx < |s.show.order| && s.show.order[s.show.idx] < |s.players|
    ensures Less(ProgressOf(RevealStep(s, show)), ProgressOf(s)) && RevealStep(s, show).deal == s.deal
  {
    TurnedShrinks(s, s.show.order[s.show.idx], show);
    AwardPotsDeal(Turned(Called(s), s.show.order[s.show.idx], show));
  }

  lemma {:induction false} RevealNextShrinks(s: State)
    requires Inv(s) && RevealNext(s).Done?
    ensures Less(ProgressOf(RevealNext(s).state), ProgressOf(s))
  {
    RevealStepShrinks(s, true);
    RevealStepShrinks(s, false);
  }

  // Every accepted command makes progress, although uncalled bets go back to stacks.
  lemma {:induction false} StepShrinks(s: State, c: Command)
    requires Inv(s) && Step(s, c).Done?
    ensures Less(ProgressOf(Step(s, c).state), ProgressOf(s))
  {
    match c
    case DoApply(seat, a) => ApplyShrinks(s, seat, a);
    case DoTimeout(seat) => TimeoutShrinks(s, seat);
    case DoForfeit(seat) => ForfeitShrinks(s, seat);
    case DoAdvance => AdvanceShrinks(s);
    case DoRunItTwice => SameProgress(s.players, RunItTwice(s).state.players, |s.players|);
    case DoRevealNext => RevealNextShrinks(s);
  }

  // What the table does when nobody does anything: let the turn time out, deal on, reveal.
  function Default(s: State): Command {
    match s.phase
    case Betting => DoTimeout(if 0 <= s.round.toAct < |s.players| then s.players[s.round.toAct].seat else 0)
    case DealPending => DoAdvance
    case _ => DoRevealNext
  }

  // A hand that is not over is never stuck.
  lemma {:induction false} NeverStuck(s: State)
    requires Inv(s) && s.phase != Result
    ensures Step(s, Default(s)).Done?
  {
  }

  lemma {:induction false} StacksNonNegative(ps: seq<Player>, n: nat)
    requires n <= |ps| && forall i :: 0 <= i < |ps| ==> ps[i].stack >= 0
    ensures Stacks(ps, n) >= 0
  {
    if n > 0 { StacksNonNegative(ps, n - 1); }
  }

  // A choice that would be refused is replaced by what happens on its own.
  function Chosen(s: State, choose: State -> Command): Command {
    if Step(s, choose(s)).Done? then choose(s) else Default(s)
  }

  lemma {:induction false} PlayOn(s: State, choose: State -> Command)
    requires Inv(s) && s.phase != Result
    ensures var r := After(s, Chosen(s, choose));
            Inv(r) && Lineage(s, r) && Less(ProgressOf(r), ProgressOf(s)) && Stacks(s.players, |s.players|) >= 0
  {
    NeverStuck(s);
    var c := Chosen(s, choose);
    StepKeeps(s, c);
    StepShrinks(s, c);
    assert AllHealthy(s.players);
    forall i | 0 <= i < |s.players| ensures s.players[i].stack >= 0 { assert Healthy(s.players[i]); }
    StacksNonNegative(s.players, |s.players|);
  }

  // One move after the other, as the players and the table choose.
  function Move(choose: State -> Command): State -> State {
    (s: State) => After(s, Chosen(s, choose))
  }

  ghost predicate Progresses(move: State -> State) {
    forall s: State :: Inv(s) && s.phase != Result ==>
      Inv(move(s)) && Lineage(s, move(s)) && Less(ProgressOf(move(s)), ProgressOf(s))
        && Stacks(s.players, |s.players|) >= 0
  }

  lemma {:induction false} EveryChoiceProgresses(choose: State -> Command)
    ensures Progresses(Move(choose))
  {
    forall s: State | Inv(s) && s.phase != Result
      ensures var r := Move(choose)(s);
              Inv(r) && Lineage(s, r) && Less(ProgressOf(r), ProgressOf(s)) && Stacks(s.players, |s.players|) >= 0
    {
      PlayOn(s, choose);
    }
  }

  // The state a hand ends in.
  ghost function PlayOut(s: State, move: State -> State): (r: State)
    requires Inv(s) && Progresses(move)
    ensures Inv(r) && r.phase == Result && Lineage(s, r)
    decreases ProgressOf(s).streets, ProgressOf(s).phase, ProgressOf(s).twice, ProgressOf(s).stacks,
              ProgressOf(s).players, ProgressOf(s).hands
  {
    if s.phase == Result then
      LineageSelf(s, s);
      s
    else
      var next := move(s);
      assert Inv(next) && Lineage(s, next);
      var r := PlayOut(next, move);
      LineageOn(s, next, r);
      r
  }

  // Whatever the players and the table choose, the hand reaches its result, with all the chips
  // the players brought back in their stacks.
  lemma {:induction false} EveryHandEnds(cfg: Config, seats: seq<Seat>, shuffled: seq<Card>, choose: State -> Command)
    requires SaneConfig(cfg, seats) && NewHand(cfg, seats, shuffled).Done?
    ensures Inv(NewHand(cfg, seats, shuffled).state) && Progresses(Move(choose))
    ensures var r := PlayOut(NewHand(cfg, seats, shuffled).state, Move(choose));
            PaidUp(r) && Stacks(r.players, |r.players|) == SeatSum(seats)
  {
    NewHandStarts(cfg, seats, shuffled);
    NewHandChips(cfg, seats, shuffled);
    EveryChoiceProgresses(choose);
    var s := NewHand(cfg, seats, shuffled).state;
    var r := PlayOut(s, Move(choose));
    SameSeatsMatch(s.players, r.players);
    StartPointwise(s.players, r.players, |s.players|);
    NothingCommitted(r.players, |r.players|);
    TotalSplits(r.players, |r.players|);
  }
}
