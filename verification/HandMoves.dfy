// What a command leaves on the table: whose chips move, whether the street closes and what that
// does to the bets, and else whose turn comes next. Stated of Step, in terms of the table before
// it and the options offered, for every reachable state.

module HandMoves {
  import opened Cards
  import opened Pots
  import opened Payout
  import opened HandModel
  import opened HandRules
  import opened HandChips
  import opened HandInvariant
  import opened HandOptions
  import opened HandRuns
  import opened HandRaises
  import opened HandShowdown
  import opened HandPayout

  // ---- what follows from a table ---------------------------------------------------------------------

  // Player j is in, has chips and owes the price, or an action while somebody else can act too.
  ghost predicate OwesAction(ps: seq<Player>, price: int, j: nat)
    requires j < |ps|
  {
    && !ps[j].folded && !ps[j].allIn
    && (ps[j].bet < price || (!ps[j].hasActed && exists k :: OtherActive(ps, j, k)))
  }

  predicate OtherActive(ps: seq<Player>, j: nat, k: int) {
    0 <= k < |ps| && k != j && !ps[k].folded && !ps[k].allIn
  }

  ghost predicate TwoLive(ps: seq<Player>) {
    exists j, k :: 0 <= j < k < |ps| && !ps[j].folded && !ps[k].folded
  }

  ghost predicate StaysOpen(s: State) {
    TwoLive(s.players) && exists j :: 0 <= j < |s.players| && OwesAction(s.players, s.round.currentBet, j)
  }

  // Player a needs to act, and nobody does between the anchor and them, going clockwise.
  ghost predicate NextClockwise(ps: seq<Player>, price: int, anchor: nat, a: int) {
    && anchor < |ps| && 0 <= a < |ps| && NeedsToAct(ps[a], price)
    && forall j :: 0 <= j < |ps| && DealPlace(anchor, j, |ps|) < DealPlace(anchor, a, |ps|) ==>
         !NeedsToAct(ps[j], price)
  }

  // x is the part of player j's bet that somebody else has matched.
  ghost predicate Matched(ps: seq<Player>, j: nat, x: int)
    requires j < |ps|
  {
    && 0 <= x <= ps[j].bet
    && (x == 0 || exists k :: 0 <= k < |ps| && k != j && ps[k].bet >= x)
    && (x == ps[j].bet || forall k :: 0 <= k < |ps| && k != j ==> ps[k].bet <= x)
  }

  // The player once the street is closed and x of their bet has gone into the pots.
  function Closed(p: Player, x: int): Player {
    p.(bet := 0, committed := p.committed + x, stack := p.stack + p.bet - x, allIn := p.stack + p.bet - x == 0)
  }

  ghost predicate ClosedFrom(ps: seq<Player>, j: nat, q: Player)
    requires j < |ps|
  {
    exists x :: Matched(ps, j, x) && q == Closed(ps[j], x)
  }

  // After the pay-out: what the street left, and what was won on top of it.
  ghost predicate PaidFrom(ps: seq<Player>, j: nat, q: Player)
    requires j < |ps|
  {
    exists x :: Matched(ps, j, x) && exists w :: PaidOn(Closed(ps[j], x), q, w)
  }

  predicate PaidOn(p: Player, q: Player, w: int) {
    q == Paid(p, w).(committed := 0, revealed := q.revealed)
  }

  // All live hands are on the table.
  ghost predicate AllOpen(ps: seq<Player>) {
    forall j :: 0 <= j < |ps| && !ps[j].folded ==> ps[j].revealed
  }

  ghost predicate TwoCanBet(ps: seq<Player>) {
    exists j, k :: 0 <= j < k < |ps| && Active(ps[j]) && Active(ps[k])
  }

  ghost predicate EndsHand(s: State, r: State) {
    r.phase == Result && |r.players| == |s.players| &&
    forall j :: 0 <= j < |s.players| ==> PaidFrom(s.players, j, r.players[j])
  }

  ghost predicate OpensShowdown(s: State, r: State) {
    r.phase == Showdown && r.show.idx == 0 && |r.players| == |s.players| &&
    forall j :: 0 <= j < |s.players| ==> ClosedFrom(s.players, j, r.players[j])
  }

  ghost predicate AwaitsStreet(s: State, r: State) {
    && r.phase == DealPending && |r.players| == |s.players| && (r.runout <==> s.runout || !TwoCanBet(r.players))
    && forall j :: 0 <= j < |s.players| ==>
         && ClosedFrom(s.players, j, r.players[j].(revealed := s.players[j].revealed))
         && (r.players[j].revealed <==> s.players[j].revealed || (r.runout && !s.players[j].folded))
  }

  // The street is closed: one player left takes everything; after the river comes the showdown,
  // in stages when somebody still hides their hand; else the next street is awaited, with all
  // hands open when fewer than two players can bet on.
  ghost predicate Closes(s: State, r: State) {
    && r.deal == s.deal && r.cfg == s.cfg && s.log <= r.log && r.round == s.round.(toAct := -1)
    && if !TwoLive(s.players) || (s.deal.street == RIVER && AllOpen(s.players)) then EndsHand(s, r)
       else if s.deal.street == RIVER then OpensShowdown(s, r)
       else AwaitsStreet(s, r)
  }

  // The turn passes clockwise from the anchor to the first player who needs it, or the street
  // closes.
  ghost predicate Follows(s: State, anchor: nat, r: State) {
    if StaysOpen(s) then
      && r == s.(round := s.round.(toAct := r.round.toAct))
      && NextClockwise(s.players, s.round.currentBet, anchor, r.round.toAct)
    else Closes(s, r)
  }

  // ---- counting ----------------------------------------------------------------------------------------

  lemma {:induction false} LivePair(ps: seq<Player>, n: nat)
    requires n <= |ps|
    ensures LiveCount(ps, n) >= 2 <==> exists j, k :: 0 <= j < k < n && !ps[j].folded && !ps[k].folded
    ensures LiveCount(ps, n) >= 1 <==> exists j :: 0 <= j < n && !ps[j].folded
  {
    if n > 0 { LivePair(ps, n - 1); }
  }

  lemma {:induction false} ActivePair(ps: seq<Player>, n: nat)
    requires n <= |ps|
    ensures ActiveCount(ps, n) >= 2 <==> exists j, k :: 0 <= j < k < n && Active(ps[j]) && Active(ps[k])
    ensures ActiveCount(ps, n) >= 1 <==> exists j :: 0 <= j < n && Active(ps[j])
  {
    if n > 0 { ActivePair(ps, n - 1); }
  }

  // The engine's test for a complete round.
  lemma {:induction false} CompleteMeans(ps: seq<Player>, price: int)
    requires ActiveWithin(ps, price)
    ensures RoundComplete(ps, price) <==> forall j :: 0 <= j < |ps| ==> !OwesAction(ps, price, j)
  {
    ActivePair(ps, |ps|);
    if RoundComplete(ps, price) {
      forall j | 0 <= j < |ps| ensures !OwesAction(ps, price, j) {
        if Active(ps[j]) {
          if k :| OtherActive(ps, j, k) { PairActive(ps, j, k); }
        }
      }
    } else {
      var j :| 0 <= j < |ps| && Active(ps[j]) &&
        !(ps[j].bet == price && (ActiveCount(ps, |ps|) >= 2 ==> ps[j].hasActed));
      if ps[j].bet == price { AnotherActive(ps, j); }
      assert OwesAction(ps, price, j);
    }
  }

  lemma {:induction false} PairActive(ps: seq<Player>, j: nat, k: int)
    requires j < |ps| && Active(ps[j]) && OtherActive(ps, j, k)
    ensures ActiveCount(ps, |ps|) >= 2
  {
    ActivePair(ps, |ps|);
    if j < k { assert Active(ps[j]) && Active(ps[k]); } else { assert Active(ps[k]) && Active(ps[j]); }
  }

  lemma {:induction false} AnotherActive(ps: seq<Player>, j: nat)
    requires j < |ps| && ActiveCount(ps, |ps|) >= 2
    ensures exists k :: OtherActive(ps, j, k)
  {
    ActivePair(ps, |ps|);
    var a, b :| 0 <= a < b < |ps| && Active(ps[a]) && Active(ps[b]);
    assert OtherActive(ps, j, if a == j then b else a);
  }

  // ---- the next turn -------------------------------------------------------------------------------------

  // The scan, when the first k places after the anchor need not act.
  lemma {:induction false} ScanIsClockwise(ps: seq<Player>, price: int, anchor: nat, k: nat)
    requires anchor < |ps| && k < |ps|
    requires forall j :: 0 <= j < |ps| && DealPlace(anchor, j, |ps|) < k ==> !NeedsToAct(ps[j], price)
    ensures var a := NextActor(ps, price, Around(anchor, k, |ps|), |ps| - k);
            a >= 0 ==> NextClockwise(ps, price, anchor, a)
    decreases |ps| - k
  {
    var i := Around(anchor, k, |ps|);
    assert DealPlace(anchor, i, |ps|) == k;
    if !NeedsToAct(ps[i], price) && k + 1 < |ps| {
      forall j | 0 <= j < |ps| && DealPlace(anchor, j, |ps|) < k + 1 ensures !NeedsToAct(ps[j], price) {
        if DealPlace(anchor, j, |ps|) == k { assert j == i; }
      }
      assert Around(anchor, k + 1, |ps|) == Next(i, |ps|);
      ScanIsClockwise(ps, price, anchor, k + 1);
    }
  }

  // ---- closing a street ------------------------------------------------------------------------------------

  // What stays of player j's bet: all of it, or for the highest bettor what the others reach.
  function Kept(ps: seq<Player>, j: nat): int
    requires j < |ps|
  {
    var t := TopBettor(ps, |ps|);
    var second := SecondBet(ps, t, |ps|);
    if j == t && second < ps[t].bet then second else ps[j].bet
  }

  lemma {:induction false} KeptIsMatched(ps: seq<Player>, j: nat)
    requires j < |ps| && forall k :: 0 <= k < |ps| ==> ps[k].bet >= 0
    ensures Matched(ps, j, Kept(ps, j))
  {
    var t := TopBettor(ps, |ps|);
    TopBettorIsTop(ps, |ps|);
    SecondBetIsSecond(ps, t, |ps|);
    assert j != t ==> ps[t].bet >= ps[j].bet;
  }

  lemma {:induction false} ClosedIsKept(s: State, j: nat)
    requires j < |s.players| && Healthy(s.players[j])
    ensures CloseBets(s).players[j] == Closed(s.players[j], Kept(s.players, j))
  {
    var t := TopBettor(s.players, |s.players|);
    assert j != t || Uncalled(s.players) <= 0 ==> ReturnUncalled(s).players[j] == s.players[j];
  }

  // The bets are in the pots, and nothing else has happened.
  ghost predicate BetsClosed(s: State, s1: State) {
    && s1 == s.(players := s1.players, log := s1.log, round := s1.round) && s.log <= s1.log
    && s1.round == s.round.(toAct := s1.round.toAct)
    && |s1.players| == |s.players| && forall j :: 0 <= j < |s.players| ==> ClosedFrom(s.players, j, s1.players[j])
  }

  lemma {:induction false} CloseIsClosed(s: State)
    requires AllHealthy(s.players) && |s.players| > 0
    ensures BetsClosed(s, CloseBets(s)) && BetsClosed(s, CloseBets(s).(round := s.round.(toAct := -1)))
  {
    var ps := s.players;
    forall j | 0 <= j < |ps| ensures ps[j].bet >= 0 { assert Healthy(ps[j]); }
    forall j | 0 <= j < |ps| ensures ClosedFrom(ps, j, CloseBets(s).players[j]) {
      assert Healthy(ps[j]);
      KeptIsMatched(ps, j);
      ClosedIsKept(s, j);
    }
  }

  // Closing the bets changes neither who is in nor who has shown.
  lemma {:induction false} ClosedHands(s: State, s1: State)
    requires BetsClosed(s, s1)
    ensures SameHands(s.players, s1.players) && SameSeats(s.players, s1.players)
    ensures AllOpen(s1.players) <==> AllOpen(s.players)
  {
    forall j | 0 <= j < |s.players|
      ensures Kin(s.players[j], s1.players[j]) && s1.players[j].folded == s.players[j].folded
        && s1.players[j].revealed == s.players[j].revealed && s1.players[j].mucked == s.players[j].mucked
        && s1.players[j].won == s.players[j].won
    {
      assert ClosedFrom(s.players, j, s1.players[j]);
    }
  }

  lemma {:induction false} PaidFromClosed(ps: seq<Player>, j: nat, p: Player, q: Player, w: int)
    requires j < |ps| && ClosedFrom(ps, j, p) && PaidOn(p, q, w)
    ensures PaidFrom(ps, j, q)
  {
    var x :| Matched(ps, j, x) && p == Closed(ps[j], x);
    assert PaidOn(Closed(ps[j], x), q, w);
  }

  lemma {:induction false} SolePays(s: State, winner: nat)
    requires Seating(s.players) && AllHealthy(s.players) && winner < |s.players| && !s.players[winner].folded
    requires LiveCount(s.players, |s.players|) == 1
    ensures Closes(s, FinishUncontested(s, winner))
  {
    var r := FinishUncontested(s, winner);
    var s1 := CloseBets(s);
    var awards := SoleAwards(PotsOf(s1.players), 0, s.players[winner].seat);
    CloseIsClosed(s);
    ClosedHands(s, s1);
    SameSeatsSeating(s.players, s1.players);
    LivePair(s.players, |s.players|);
    forall j | 0 <= j < |s.players| ensures PaidFrom(s.players, j, r.players[j]) {
      PayAllGives(s1.players, awards, j);
      PaidFromClosed(s.players, j, s1.players[j], r.players[j], WonBy(awards, s1.players[j].seat));
    }
  }

  // After the river: the table with its bets closed goes to the showdown.
  lemma {:induction false} ShowdownFrom(s: State, s1: State)
    requires BetsClosed(s, s1) && Seating(s.players) && s1.round.toAct == -1 && LiveCount(s.players, |s.players|) >= 2
    ensures var r := ToShowdown(s1); if AllOpen(s.players) then EndsHand(s, r) else OpensShowdown(s, r)
  {
    ClosedHands(s, s1);
    SameSeatsSeating(s.players, s1.players);
    LivePointwise(s.players, s1.players, |s.players|);
    OpenShows(s1);
    if AllOpen(s.players) { AwardedFrom(s, s1); }
  }

  lemma {:induction false} ShowdownTable(s: State)
    requires |s.players| > 0 && s.round.toAct == -1
    ensures var r := ToShowdown(s); r.deal == s.deal && r.cfg == s.cfg && r.round == s.round && s.log <= r.log
  {
  }

  lemma {:induction false} ShowdownPays(s: State)
    requires Playing(s) && LiveCount(s.players, |s.players|) >= 2 && s.deal.street == RIVER
    ensures Closes(s, EndStreet(s))
  {
    CloseIsClosed(s);
    var s1 := CloseBets(s).(round := s.round.(toAct := -1));
    LivePair(s.players, |s.players|);
    ShowdownFrom(s, s1);
    ShowdownTable(s1);
  }

  lemma {:induction false} AwardedFrom(s: State, s1: State)
    requires Seating(s1.players) && |s1.players| == |s.players|
    requires forall j :: 0 <= j < |s.players| ==> ClosedFrom(s.players, j, s1.players[j])
    ensures forall j :: 0 <= j < |s.players| ==> PaidFrom(s.players, j, AwardPots(s1).players[j])
  {
    var r := AwardPots(s1);
    forall j | 0 <= j < |s.players| ensures PaidFrom(s.players, j, r.players[j]) {
      AwardedPlayers(s1, j);
      PaidFromClosed(s.players, j, s1.players[j], r.players[j], WonBy(FinalAwards(s1), s1.players[j].seat));
    }
  }

  // The showdown is staged when somebody still hides their hand.
  lemma {:induction false} OpenShows(s: State)
    requires |s.players| > 0 && LiveCount(s.players, |s.players|) >= 1 && s.round.toAct == -1
    ensures if AllOpen(s.players) then ToShowdown(s) == AwardPots(s)
            else ToShowdown(s) == s.(show := ToShowdown(s).show, phase := Showdown) && ToShowdown(s).show.idx == 0
  {
    assert s.(round := s.round.(toAct := -1)) == s;
    OrderHoldsLive(s.players, ShowdownStart(s), |s.players|);
    OrderIsLive(s.players, ShowdownStart(s), |s.players|);
    var order := ShowdownOrder(s);
    if forall k :: 0 <= k < |order| ==> s.players[order[k]].revealed {
      forall j | 0 <= j < |s.players| && !s.players[j].folded ensures s.players[j].revealed {
        assert j in order;
      }
    } else {
      var k :| 0 <= k < |order| && !s.players[order[k]].revealed;
      assert !s.players[order[k]].folded;
    }
  }

  // Going once round the table meets everybody.
  lemma {:induction false} OrderHoldsLive(ps: seq<Player>, i: nat, m: nat)
    requires i < |ps| && m <= |ps|
    ensures forall j :: 0 <= j < |ps| && !ps[j].folded && (if j >= i then j - i else j + |ps| - i) < m ==>
              j in LiveFrom(ps, i, m)
    decreases m
  {
    if m > 0 { OrderHoldsLive(ps, Next(i, |ps|), m - 1); }
  }

  // Before the river: all hands are opened when there will be no more betting.
  function Awaiting(s: State): State
    requires |s.players| > 0
  {
    if ActiveCount(s.players, |s.players|) < 2 then RevealEveryone(s.(phase := DealPending, runout := true))
    else s.(phase := DealPending)
  }

  lemma {:induction false} OpenedIf(s: State)
    requires |s.players| > 0
    ensures var r := Awaiting(s);
            && |r.players| == |s.players| && (r.runout <==> s.runout || !TwoCanBet(s.players))
            && forall j :: 0 <= j < |s.players| ==>
                 && r.players[j] == s.players[j].(revealed := r.players[j].revealed)
                 && (r.players[j].revealed <==>
                     s.players[j].revealed || (!TwoCanBet(s.players) && !s.players[j].folded))
  {
    ActivePair(s.players, |s.players|);
    HiddenMeans(s.players, |s.players|);
  }

  lemma {:induction false} AwaitsFrom(s: State, s1: State)
    requires |s.players| > 0 && BetsClosed(s, s1) && s1.round.toAct == -1 && !s.runout
    ensures AwaitsStreet(s, Awaiting(s1))
  {
    var r := Awaiting(s1);
    ClosedHands(s, s1);
    OpenedIf(s1);
    assert TwoCanBet(r.players) <==> TwoCanBet(s1.players);
    forall j | 0 <= j < |s.players| ensures ClosedFrom(s.players, j, r.players[j].(revealed := s.players[j].revealed)) {
      assert r.players[j].(revealed := s.players[j].revealed) == s1.players[j];
    }
  }

  lemma {:induction false} AwaitingTable(s: State)
    requires |s.players| > 0
    ensures var r := Awaiting(s); r.deal == s.deal && r.cfg == s.cfg && r.round == s.round && s.log <= r.log
  {
  }

  lemma {:induction false} AwaitsDeal(s: State)
    requires Playing(s) && LiveCount(s.players, |s.players|) >= 2 && s.deal.street != RIVER
    ensures Closes(s, EndStreet(s))
  {
    CloseIsClosed(s);
    var s1 := CloseBets(s).(round := s.round.(toAct := -1));
    LivePair(s.players, |s.players|);
    AwaitsFrom(s, s1);
    AwaitingTable(s1);
  }

  // ---- settling ------------------------------------------------------------------------------------------------

  // A complete round, whatever the phase before it.
  lemma {:induction false} StreetCloses(s: State)
    requires Playing(s) && LiveCount(s.players, |s.players|) >= 2
    ensures Closes(s, EndStreet(s))
  {
    if s.deal.street == RIVER { ShowdownPays(s); } else { AwaitsDeal(s); }
  }

  // Which of the three it is.
  lemma {:induction false} OpenMeans(s: State)
    requires Playing(s)
    ensures StaysOpen(s) <==>
              LiveCount(s.players, |s.players|) >= 2 && !RoundComplete(s.players, s.round.currentBet)
  {
    LivePair(s.players, |s.players|);
    CompleteMeans(s.players, s.round.currentBet);
  }

  lemma {:induction false} TurnIsNext(s: State, anchor: nat)
    requires Playing(s) && anchor < |s.players| && !RoundComplete(s.players, s.round.currentBet)
    ensures var n := |s.players|;
            NextClockwise(s.players, s.round.currentBet, anchor,
                          NextActor(s.players, s.round.currentBet, Next(anchor, n), n))
  {
    SomebodyIsFound(s.players, s.round.currentBet, Next(anchor, |s.players|));
    assert Around(anchor, 0, |s.players|) == Next(anchor, |s.players|);
    ScanIsClockwise(s.players, s.round.currentBet, anchor, 0);
  }

  lemma {:induction false} SettleFollows(s: State, anchor: nat, from: nat, inclusive: bool)
    requires Playing(s) && anchor < |s.players| && from < |s.players|
    requires Next(anchor, |s.players|) == if inclusive then from else Next(from, |s.players|)
    ensures Follows(s, anchor, Settle(s, from, inclusive))
  {
    var n := |s.players|;
    LastLiveIsLive(s.players, n);
    OpenMeans(s);
    if LiveCount(s.players, n) == 1 {
      SolePays(s, LastLive(s.players, n));
    } else if RoundComplete(s.players, s.round.currentBet) {
      StreetCloses(s);
    } else {
      TurnIsNext(s, anchor);
    }
  }
}
