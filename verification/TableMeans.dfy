// What a command leaves of the people at a table, told from what they were before: who is busted
// or sits out after a hand, what a missed turn counts, where a newcomer or a mover ends up.

module TableMeans {
  import opened Cards
  import opened HandModel
  import opened HandChips
  import opened TableRules
  import opened TableSteps
  import Rules = HandRules
  import Sorting

  // ---- after a hand -----------------------------------------------------------------------------------------

  // A player of the hand who stays holds their end stack. Out of chips they are busted, having
  // asked to sit out they do so from now on, and otherwise they stand as before.
  ghost predicate Stands(p: Person, end: int, q: Person) {
    && q.status == (if p.status == Active && end == 0 then BustedOut
                    else if p.status == Active && p.sitOutNext then SittingOut else p.status)
    && q == p.(stack := end, status := q.status, missed := if p.sitOutNext then 0 else p.missed, sitOutNext := false)
  }

  lemma {:induction false} StandingAfter(seats: seq<Chair>, h: State, i: nat)
    requires i < |seats|
    ensures var c := seats[i]; var d := SettledChairs(seats, h)[i];
            if !c.Taken? || !c.p.inHand then d == c
            else if c.p.leaving then d == Empty
            else d.Taken? && Stands(c.p, EndStack(h, i), d.p)
  {
  }

  // A change to somebody else's chips leaves the chair alone.
  lemma {:induction false} OthersUnadjusted(seats: seq<Chair>, changes: seq<Adjust>, n: nat, i: nat)
    requires n <= |changes| && i < |seats|
    requires forall k :: 0 <= k < n ==> seats[i].Taken? ==> changes[k].id != seats[i].p.id
    ensures AdjustAll(seats, changes, n)[i] == seats[i]
  {
    if n > 0 {
      OthersUnadjusted(seats, changes, n - 1, i);
      var before := AdjustAll(seats, changes, n - 1);
      if before[i].Taken? { assert Sitting(before, changes[n - 1].id) != i; }
      EmptyStays(seats, changes, n - 1);
    }
  }

  lemma {:induction false} EmptyStays(seats: seq<Chair>, changes: seq<Adjust>, n: nat)
    requires n <= |changes|
    ensures forall i :: 0 <= i < |seats| ==> (AdjustAll(seats, changes, n)[i].Taken? <==> seats[i].Taken?)
  {
    AdjustKeepsPeople(seats, changes, n);
  }

  // When the command ends the hand, everybody in it whose chips the host has not changed
  // meanwhile stands like that.
  lemma {:induction false} HandEndStanding(m: Moment, c: TableCommand, i: nat)
    requires Sized(m) && EndsHand(m, c) && i < |m.seats|
    requires var r := AtEngine(m, c);
             && r.seats[i].Taken? && r.seats[i].p.inHand && !r.seats[i].p.leaving
             && forall k :: 0 <= k < |r.pending| ==> r.pending[k].id != r.seats[i].p.id
    ensures var r := AtEngine(m, c); var d := Obeyed(m, c).seats[i];
            d.Taken? && Stands(r.seats[i].p, EndStack(r.hand.h, i), d.p)
  {
    EndIsSettled(m, c);
    StoodStays(AtEngine(m, c), i);
  }

  lemma {:induction false} EndIsSettled(m: Moment, c: TableCommand)
    requires Sized(m) && EndsHand(m, c)
    ensures Obeyed(m, c) == Stepped(AtEngine(m, c))
  {
  }

  lemma {:induction false} StoodStays(r: Moment, i: nat)
    requires Over(r.hand) && i < |r.seats| && r.seats[i].Taken? && r.seats[i].p.inHand && !r.seats[i].p.leaving
    requires forall k :: 0 <= k < |r.pending| ==> r.pending[k].id != r.seats[i].p.id
    ensures var d := Stepped(r).seats[i]; d.Taken? && Stands(r.seats[i].p, EndStack(r.hand.h, i), d.p)
  {
    StandingAfter(r.seats, r.hand.h, i);
    OthersUnadjusted(SettledChairs(r.seats, r.hand.h), r.pending, |r.pending|, i);
  }

  // A change by the host that is possible adds to the stack, counts as bought in when it is a gift,
  // busts an active player left without chips and brings a busted one back.
  lemma {:induction false} ChangeMeans(seats: seq<Chair>, a: Adjust)
    ensures var i := Sitting(seats, a.id); var r := AdjustOne(seats, a);
            if i < 0 || seats[i].p.stack + a.delta < 0 then r == seats
            else
              var p := seats[i].p;
              r == seats[i := Taken(p.(
                stack := p.stack + a.delta, buyIn := p.buyIn + if a.delta > 0 then a.delta else 0,
                status := if p.status == Active && p.stack + a.delta == 0 then BustedOut
                          else if p.status == BustedOut && p.stack + a.delta > 0 then Active else p.status))]
  {
  }

  // Between hands a busted player may buy in again when rebuys are on, and is back with the start
  // money.
  lemma {:induction false} BustedMayRebuy(m: Moment, id: int)
    requires Sized(m) && Sitting(m.seats, id) >= 0 && m.seats[Sitting(m.seats, id)].p.status == BustedOut
    requires m.state != Ended && m.settings.allowRebuy && !InProgress(m.hand)
    ensures var i := Sitting(m.seats, id); var p := m.seats[i].p; var money := m.settings.startMoney;
            Obeyed(m, BuyAgain(id)) ==
            m.(seats := m.seats[i := Taken(p.(stack := money, buyIn := p.buyIn + money, status := Active))],
               bought := m.bought + money)
  {
  }

  // ---- during a hand -------------------------------------------------------------------------------------------

  // An action counts when the engine accepts it from a player in the hand.
  lemma {:induction false} ActCounts(m: Moment, id: int, a: Action)
    requires Sitting(m.seats, id) >= 0
    ensures var i := Sitting(m.seats, id);
            MayAct(m, id, a) <==>
              && m.state != Ended && InProgress(m.hand) && m.seats[i].p.inHand
              && Rules.Step(m.hand.h, Rules.DoApply(i, a)).Done?
  {
  }

  // It goes to the engine then, and clears what its player has missed.
  lemma {:induction false} ActMeans(m: Moment, id: int, a: Action)
    requires Sized(m) && Sitting(m.seats, id) >= 0 && !EndsHand(m, Act(id, a))
    ensures var i := Sitting(m.seats, id); var p := m.seats[i].p;
            Obeyed(m, Act(id, a)) ==
            if !MayAct(m, id, a) then m
            else m.(hand := Dealt(Rules.After(m.hand.h, Rules.DoApply(i, a))),
                    seats := m.seats[i := Taken(p.(missed := 0))])
  {
    var r := AtEngine(m, Act(id, a));
    assert Obeyed(m, Act(id, a)) == r;
  }

  // A missed turn is counted, and one too many means sitting out once the hand is over.
  lemma {:induction false} MissedCounts(m: Moment)
    requires Sized(m) && OnClock(m) && !EndsHand(m, TableCommand.TurnOver)
    ensures var i := m.hand.h.players[m.hand.h.round.toAct].seat; var p := m.seats[i].p;
            var r := Obeyed(m, TableCommand.TurnOver);
            && r.hand == Dealt(Rules.After(m.hand.h, Rules.DoTimeout(i)))
            && r.seats == m.seats[i := Taken(p.(
                 missed := p.missed + 1, sitOutNext := p.sitOutNext || p.missed + 1 >= m.settings.sitOutAfter))]
            && r == m.(hand := r.hand, seats := r.seats)
  {
    ClockRuns(m);
    assert AtEngine(m, TableCommand.TurnOver) == OutOfTime(m);
    assert !Over(OutOfTime(m).hand);
  }

  // Player k of the hand sits in chair i and could still act.
  predicate CanAct(h: State, i: int, k: nat)
    requires k < |h.players|
  {
    h.players[k].seat == i && !h.players[k].folded && !h.players[k].allIn
  }

  // Sitting out is for active players. A hand of theirs that is still open is folded.
  lemma {:induction false} RestMeans(m: Moment, id: int)
    requires Sized(m) && Sitting(m.seats, id) >= 0 && (InProgress(m.hand) ==> Seating(m.hand.h.players))
    ensures var i := Sitting(m.seats, id); var p := m.seats[i].p; var r := AtEngine(m, Rest(id));
            if m.state == Ended || p.status != Active then r == m
            else
              var open := InProgress(m.hand) && p.inHand
                && exists k :: 0 <= k < |m.hand.h.players| && CanAct(m.hand.h, i, k);
              r == m.(seats := m.seats[i := Taken(p.(status := SittingOut))],
                      hand := if open then Dealt(Rules.After(m.hand.h, Rules.DoForfeit(i))) else m.hand)
  {
    var i := Sitting(m.seats, id);
    if InProgress(m.hand) {
      IndexOfBound(m.hand.h.players, i, |m.hand.h.players|);
      if k :| 0 <= k < |m.hand.h.players| && CanAct(m.hand.h, i, k) { FindSeat(m.hand.h.players, k); }
      if CanFold(m.hand.h, i) { assert CanAct(m.hand.h, i, Find(m.hand.h.players, i)); }
    }
  }

  // ---- coming and moving ------------------------------------------------------------------------------------------

  // x is the lowest free seat, -1 when there is none below n.
  ghost predicate LowestFree(seats: seq<Chair>, n: nat, x: int)
    requires n <= |seats|
  {
    if x < 0 then x == -1 && forall j :: 0 <= j < n ==> seats[j] != Empty
    else x < n && seats[x] == Empty && forall j :: 0 <= j < x ==> seats[j] != Empty
  }

  lemma {:induction false} FirstFreeIsLowest(seats: seq<Chair>, n: nat)
    requires n <= |seats|
    ensures LowestFree(seats, n, FirstFree(seats, n))
  {
    if n > 0 { FirstFreeIsLowest(seats, n - 1); }
  }

  // x is the seat for somebody new: the wanted one, or without a wish the lowest free one.
  ghost predicate GoesTo(m: Moment, wanted: int, x: int)
    requires Sized(m)
  {
    if wanted < 0 then LowestFree(m.seats, m.settings.maxPlayers, x)
    else x == if wanted < m.settings.maxPlayers && m.seats[wanted] == Empty then wanted else -1
  }

  // Whoever is new sits there, with the start money and a clean record.
  lemma {:induction false} NewcomerSits(m: Moment, id: int, wanted: int, open: bool)
    requires Sized(m) && Sitting(m.seats, id) < 0
    ensures exists x :: GoesTo(m, wanted, x) && SatDown(m, id, open, x, Obeyed(m, Sit(id, wanted, open)))
  {
    FirstFreeIsLowest(m.seats, m.settings.maxPlayers);
    var x := SeatFor(m, wanted);
    assert GoesTo(m, wanted, x);
  }

  ghost predicate SatDown(m: Moment, id: int, open: bool, x: int, r: Moment)
    requires x < |m.seats|
  {
    var money := m.settings.startMoney;
    var p := Person(id, money, money, Active, false, false, 0, false, false, -1, false, 0);
    r == if m.state == Ended || !open || x < 0 then m
         else m.(bought := m.bought + money, seats := m.seats[x := Taken(p)])
  }

  // Who may ask for the seat: not in a tournament that has started, nor while waiting for another
  // or within three hands of the last move; and the seat has to be free and unclaimed.
  ghost predicate MayMove(m: Moment, i: nat, seat: int)
    requires Sized(m) && i < |m.seats| && m.seats[i].Taken?
  {
    && m.state != Ended && !(m.settings.tournament && (m.state != Waiting || m.handNumber > m.roundStart))
    && 0 <= seat < m.settings.maxPlayers && seat != i && m.seats[seat] == Empty
    && (forall j :: 0 <= j < |m.seats| && m.seats[j].Taken? ==> m.seats[j].p.pendingSeat != seat)
    && m.seats[i].p.pendingSeat < 0
    && (m.seats[i].p.lastMove == 0 || m.handNumber - m.seats[i].p.lastMove >= 3)
  }

  // A mover owes a dead blind. In a hand of theirs they wait for its end, else they move at once.
  lemma {:induction false} MoverMoves(m: Moment, id: int, seat: int)
    requires Sized(m) && Sitting(m.seats, id) >= 0
    ensures var i := Sitting(m.seats, id); var p := m.seats[i].p; var r := Obeyed(m, TableCommand.Move(id, seat));
            if !MayMove(m, i, seat) then r == m
            else if InProgress(m.hand) && p.inHand then
              r == m.(seats := m.seats[i := Taken(p.(
                pendingSeat := seat, owesDeadBlind := true, lastMove := m.handNumber))])
            else
              r == m.(seats := m.seats[i := Empty][seat := Taken(p.(
                pendingSeat := -1, owesDeadBlind := true, lastMove := m.handNumber))])
  {
    var i := Sitting(m.seats, id);
    assert Reserved(m.seats, seat) <==>
           !(forall j :: 0 <= j < |m.seats| && m.seats[j].Taken? ==> m.seats[j].p.pendingSeat != seat);
  }

  // ---- dealing ---------------------------------------------------------------------------------------------------

  lemma {:induction false} InListMeans(seats: seq<Chair>, list: seq<Seat>, n: nat, i: nat)
    requires Listed(seats, list, n) && i < |seats|
    ensures InList(list, i) <==> i < n && CanPlay(seats[i])
  {
    if InList(list, i) {
      var k :| 0 <= k < |list| && list[k].seat == i;
    }
  }

  lemma {:induction false} BegunIs(m: Moment, draw: nat, shuffled: seq<Card>)
    requires Sized(m) && m.hand == NoHand && HandBegun(m, draw, shuffled).hand.Dealt?
    ensures var list := EligibleIn(m.seats, m.settings.maxPlayers); var r := HandBegun(m, draw, shuffled);
            r.seats == DealtIn(DebtsCleared(m.seats, list), list) && r.handNumber == m.handNumber + 1
  {
  }

  lemma {:induction false} DealtChair(seats: seq<Chair>, list: seq<Seat>, i: nat)
    requires i < |seats|
    ensures DealtIn(DebtsCleared(seats, list), list)[i] ==
            if seats[i].Taken? && InList(list, i) then Taken(seats[i].p.(inHand := true, owesDeadBlind := false))
            else seats[i]
  {
  }

  // A hand that is dealt puts exactly the active players with chips into it, and takes their debts.
  lemma {:induction false} DealtMeans(m: Moment, draw: nat, shuffled: seq<Card>, i: nat)
    requires Sized(m) && m.hand == NoHand && HandBegun(m, draw, shuffled).hand.Dealt? && i < |m.seats|
    ensures var c := m.seats[i]; var d := HandBegun(m, draw, shuffled).seats[i];
            if i < m.settings.maxPlayers && c.Taken? && c.p.status == Active && c.p.stack > 0 then
              d == Taken(c.p.(inHand := true, owesDeadBlind := false))
            else d == c
    ensures HandBegun(m, draw, shuffled).handNumber == m.handNumber + 1
  {
    var list := EligibleIn(m.seats, m.settings.maxPlayers);
    BegunIs(m, draw, shuffled);
    EligibleListed(m.seats, m.settings.maxPlayers);
    InListMeans(m.seats, list, m.settings.maxPlayers, i);
    DealtChair(m.seats, list, i);
  }

  // The player in the chair has armed the straddle and has more than it takes.
  predicate WillStraddle(seats: seq<Chair>, i: int, bigBlind: int) {
    0 <= i < |seats| && seats[i].Taken? && seats[i].p.straddleNext && seats[i].p.stack > 2 * bigBlind
  }

  // The settings of the hand are those of the table. The third player clockwise from the button
  // straddles exactly when that is allowed, armed and affordable, with twice the big blind.
  lemma {:induction false} ConfigMeans(m: Moment, draw: nat)
    requires Sized(m) && EligibleIn(m.seats, m.settings.maxPlayers) != []
    ensures var s := m.settings; var list := EligibleIn(m.seats, s.maxPlayers); var cfg := HandConfig(m, list, draw);
            var order := ClockwiseFrom(cfg.button, list);
            && cfg.smallBlind == s.smallBlind && cfg.bigBlind == s.bigBlind && cfg.ante == s.ante
            && cfg.policy == s.policy && cfg.variant == s.variant && |order| == |list|
            && if s.allowStraddle && |list| >= 3 && WillStraddle(m.seats, order[2].seat, s.bigBlind) then
                 cfg.straddleSeat == order[2].seat && cfg.straddleAmount == 2 * s.bigBlind
               else cfg.straddleSeat == -1 && cfg.straddleAmount == 0
  {
    var list := EligibleIn(m.seats, m.settings.maxPlayers);
    Sorting.SortElements(list, SeatKey(HandConfig(m, list, draw).button));
  }

  // ---- the end of a round ------------------------------------------------------------------------------

  lemma {:induction false} SeatedPair(seats: seq<Chair>, n: nat)
    requires n <= |seats|
    ensures SeatedCount(seats, n) >= 1 <==> exists j :: 0 <= j < n && seats[j].Taken?
    ensures SeatedCount(seats, n) >= 2 <==> exists j, k :: 0 <= j < k < n && seats[j].Taken? && seats[k].Taken?
  {
    if n > 0 { SeatedPair(seats, n - 1); }
  }

  predicate HasChips(c: Chair) { c.Taken? && c.p.stack > 0 }

  lemma {:induction false} HolderPair(seats: seq<Chair>, n: nat)
    requires n <= |seats|
    ensures HolderCount(seats, n) >= 1 <==> exists j :: 0 <= j < n && HasChips(seats[j])
    ensures HolderCount(seats, n) >= 2 <==> exists j, k :: 0 <= j < k < n && HasChips(seats[j]) && HasChips(seats[k])
  {
    if n > 0 { HolderPair(seats, n - 1); }
  }

  // Without rebuys the round is over when two or more are seated and no two have chips.
  lemma {:induction false} RoundOverMeans(seats: seq<Chair>, allowRebuy: bool)
    ensures RoundOver(seats, allowRebuy) <==>
              && !allowRebuy
              && (exists j, k :: 0 <= j < k < |seats| && seats[j].Taken? && seats[k].Taken?)
              && !(exists j, k :: 0 <= j < k < |seats| && HasChips(seats[j]) && HasChips(seats[k]))
  {
    SeatedPair(seats, |seats|);
    HolderPair(seats, |seats|);
  }

  // The hand over, the round is marked to end when it was already, or by the rule above.
  lemma {:induction false} HandEndMarks(m: Moment, c: TableCommand)
    requires Sized(m) && EndsHand(m, c)
    ensures var r := AtEngine(m, c); var d := Obeyed(m, c);
            && (d.endAfterHand <==> r.endAfterHand || RoundOver(d.seats, r.settings.allowRebuy))
            && d.pending == [] && d.hand == r.hand && d.state == r.state
  {
    EndIsSettled(m, c);
  }

  // A finished hand is cleared away. A round marked to end is over then, and with it the mark;
  // otherwise whoever waits for a seat tries to move.
  lemma {:induction false} ClearMeans(m: Moment)
    requires Sized(m) && m.hand.Dealt? && m.hand.h.phase == Result
    ensures var r := Obeyed(m, Clear);
            && r == m.(hand := NoHand, endAfterHand := false, seats := r.seats,
                       state := if m.endAfterHand then Ended else m.state)
            && (!m.endAfterHand ==> r.seats == MoveWaiting(ReleasedAll(m.seats), 0, m.settings.maxPlayers))
            && (m.endAfterHand ==> forall i :: 0 <= i < |m.seats| ==>
                  r.seats[i] == if m.seats[i].Taken? then Taken(m.seats[i].p.(inHand := false)) else Empty)
  {
  }

  // Ending the table waits for the hand in play unless it is to be at once.
  lemma {:induction false} EndMeans(m: Moment)
    requires Sized(m) && m.state != Ended
    ensures InProgress(m.hand) ==> Obeyed(m, Finish(false)) == m.(endAfterHand := true)
    ensures !InProgress(m.hand) ==> Obeyed(m, Finish(false)) == Obeyed(m, Finish(true))
    ensures Obeyed(m, Finish(true)).state == Ended && Obeyed(m, Finish(true)).hand == NoHand
  {
  }

  // A hand that is called off leaves everybody their chips, and nobody in a hand; whoever was
  // leaving is gone.
  lemma {:induction false} VoidMeans(m: Moment, i: nat)
    requires Sized(m) && m.state != Ended && InProgress(m.hand) && i < |m.seats|
    ensures var r := Obeyed(m, Finish(true)); var c := m.seats[i];
            && r == m.(state := Ended, hand := NoHand, seats := r.seats, gone := r.gone)
            && r.seats[i] == if c.Taken? && !c.p.leaving then Taken(c.p.(inHand := false)) else Empty
  {
  }

  // A new round: everybody in their seat as if they had just come, under the starting blinds.
  lemma {:induction false} RestartMeans(m: Moment, i: nat)
    requires Sized(m) && m.state == Ended && i < |m.seats|
    ensures var r := Obeyed(m, Again); var s := m.settings; var money := s.startMoney;
            && r.state == Waiting && r.hand == NoHand && r.pending == [] && r.roundStart == m.handNumber
            && r.settings == s.(smallBlind := s.startSmallBlind, bigBlind := s.startBigBlind, ante := s.startAnte)
            && r.seats[i] == if m.seats[i].Taken? then
                 Taken(Person(m.seats[i].p.id, money, money, Active, false, false, 0, false, false, -1, false, 0))
               else Empty
  {
  }
}
