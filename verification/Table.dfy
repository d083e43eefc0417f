// A table as an object (backend/internal/table/hand.go and table.go), with a ghost ledger of what
// was bought in and what was carried away. Every command keeps the books balanced.

module TableLedger {
  import opened Cards
  import opened HandModel
  import opened HandChips
  import opened HandInvariant
  import opened HandStart
  import opened TableRules
  import opened TableSteps
  import Rules = HandRules
  import Sorting

  class Table {
    var settings: Settings
    var seats: seq<Chair>
    var hand: MaybeHand
    var starts: map<int, int>
    var pending: seq<Adjust>
    var state: TableState
    var endAfterHand: bool
    var handNumber: int
    var roundStart: int
    var button: int
    // The log line "chip conservation violated" has been written.
    var alarm: bool
    // Chips bought in this round and chips carried away; who was dealt into the hand.
    ghost var bought: int
    ghost var gone: int
    ghost var ids: seq<int>

    ghost predicate Balanced()
      reads this
    {
      Chips(seats, |seats|) + gone == bought && !alarm
    }

    ghost predicate Valid()
      reads this
    {
      && ChairsFine(seats) && HandFine(seats, hand, starts, ids) && Balanced()
      && settings.startMoney >= 0 && settings.maxPlayers <= MAX_SEATS
      && (state == Ended ==> hand == NoHand)
    }

    // The table as a whole while a hand is being finished.
    ghost predicate Finishing()
      reads this
    {
      && ChairsFine(seats) && Balanced() && hand.Dealt? && Inv(hand.h) && hand.h.phase == Result
      && settings.startMoney >= 0 && settings.maxPlayers <= MAX_SEATS
    }

    // A hand is on the table; if it has just ended, nothing has been settled yet.
    ghost predicate InPlay()
      reads this
    {
      && ChairsFine(seats) && Balanced() && settings.startMoney >= 0 && settings.maxPlayers <= MAX_SEATS
      && hand.Dealt? && Inv(hand.h) && InHandFine(seats, hand.h, starts, ids) && state != Ended
    }

    ghost function Now(): Moment
      reads this
    {
      Moment(settings, seats, hand, pending, state, endAfterHand, handNumber, roundStart, button, bought, gone)
    }

    method FindPlayer(id: int) returns (i: int)
      ensures i == Sitting(seats, id)
    {
      i := -1;
      for k := 0 to |seats|
        invariant i == ChairOf(seats, id, k)
      {
        if i < 0 && seats[k].Taken? && seats[k].p.id == id {
          i := k;
        }
      }
    }

    // ---- the end of a hand ---------------------------------------------------------------------------

    // Writes the end stacks to the chairs and compares the sums before and after.
    method PayStacks()
      requires Finishing() && InHandFine(seats, hand.h, starts, ids)
      modifies `seats, `alarm
      ensures Finishing() && PaidOff(old(seats), seats, hand.h)
    {
      var startSum, endSum := WriteStacks();
      PaidIsFine(old(seats), seats, hand.h, starts, ids);
      alarm := alarm || startSum != endSum;
    }

    method WriteStacks() returns (startSum: int, endSum: int)
      requires Finishing() && InHandFine(seats, hand.h, starts, ids)
      modifies `seats
      ensures PaidSoFar(old(seats), seats, hand.h, |hand.h.players|) && PaidOff(old(seats), seats, hand.h)
      ensures endSum == startSum
    {
      startSum, endSum := 0, 0;
      for k := 0 to |hand.h.results.seats|
        invariant PaidSoFar(old(seats), seats, hand.h, k)
        invariant endSum - startSum == Nets(hand.h.players, k)
      {
        var r := hand.h.results.seats[k];
        startSum, endSum := startSum + r.startStack, endSum + r.endStack;
        PayOneStack(old(seats), seats, hand.h, starts, ids, k);
        seats := seats[r.seat := Taken(seats[r.seat].p.(stack := r.endStack))];
      }
      NetsBalance(hand.h);
      PaidExactly(old(seats), seats, hand.h, starts, ids);
    }

    // Busted players and those who asked to sit out change their status.
    method SettleStatuses()
      requires Finishing()
      modifies `seats
      ensures Finishing() && |seats| == |old(seats)|
      ensures forall i :: 0 <= i < |seats| ==>
                seats[i] == Rested(old(seats)[i])
    {
      for k := 0 to |seats|
        invariant Finishing() && |seats| == |old(seats)|
        invariant forall i :: 0 <= i < |seats| ==>
                    seats[i] == if i < k then Rested(old(seats)[i]) else old(seats)[i]
      {
        if seats[k].Taken? && seats[k].p.inHand {
          ChairKept(seats, k, Taken(AfterHand(seats[k].p)));
          seats := seats[k := Taken(AfterHand(seats[k].p))];
        }
      }
    }

    // Frees the seats of those who left during the hand; their chips go with them.
    method FreeLeavers()
      requires Finishing()
      modifies `seats, `gone
      ensures Finishing() && |seats| == |old(seats)|
      ensures forall i :: 0 <= i < |seats| ==> seats[i] == Left(old(seats)[i])
    {
      for k := 0 to |seats|
        invariant Finishing() && |seats| == |old(seats)|
        invariant forall i :: 0 <= i < |seats| ==> seats[i] == if i < k then Left(old(seats)[i]) else old(seats)[i]
      {
        if seats[k].Taken? && seats[k].p.inHand && seats[k].p.leaving {
          FreeSeat(k);
        }
      }
    }

    method Dismiss()
      requires Finishing()
      modifies `seats, `gone
      ensures Finishing() && Dismissed(old(seats), seats)
    {
      SettleStatuses();
      FreeLeavers();
    }

    method FreeSeat(i: nat)
      requires ChairsFine(seats) && Balanced() && i < |seats| && seats[i].Taken?
      modifies `seats, `gone
      ensures ChairsFine(seats) && Balanced()
      ensures seats == old(seats)[i := Empty] && gone == old(gone) + old(seats[i].p.stack)
    {
      ChipsUpdate(seats, i, Empty, |seats|);
      gone := gone + seats[i].p.stack;
      seats := seats[i := Empty];
    }

    // Changes a stack by delta; a stack cannot go below zero.
    method ApplyChips(i: nat, delta: int) returns (ok: bool)
      requires ChairsFine(seats) && Balanced() && i < |seats| && seats[i].Taken?
      modifies `seats, `bought
      ensures ChairsFine(seats) && Balanced()
      ensures ok <==> old(seats[i].p.stack) + delta >= 0
      ensures ok ==> seats == old(seats)[i := Taken(Applied(old(seats[i].p), delta))] && bought == old(bought) + delta
      ensures !ok ==> seats == old(seats) && bought == old(bought)
    {
      if seats[i].p.stack + delta < 0 {
        return false;
      }
      var q := WithChips(seats[i].p, delta);
      AppliedFine(seats, i, delta);
      seats := seats[i := Taken(q)];
      bought := bought + delta;
      ok := true;
    }

    // The stack, what was bought in and the status that goes with it.
    static method WithChips(p: Person, delta: int) returns (q: Person)
      ensures q == Applied(p, delta)
    {
      q := p.(stack := p.stack + delta);
      if delta > 0 {
        q := q.(buyIn := q.buyIn + delta);
      }
      if q.stack == 0 && q.status == Active {
        q := q.(status := BustedOut);
      } else if q.stack > 0 && q.status == BustedOut {
        q := q.(status := Active);
      }
    }

    // Makes the chip changes that were queued during the hand.
    method ApplyPending()
      requires Finishing() && NobodyLeaving(seats)
      modifies `seats, `bought, `pending
      ensures Finishing() && NobodyLeaving(seats) && pending == []
      ensures seats == AdjustAll(old(seats), old(pending), |old(pending)|)
      ensures bought == old(bought) + Granted(old(seats), old(pending), |old(pending)|)
    {
      for k := 0 to |pending|
        invariant pending == old(pending)
        invariant ChairsFine(seats) && Balanced() && NobodyLeaving(seats)
        invariant seats == AdjustAll(old(seats), pending, k)
        invariant bought == old(bought) + Granted(old(seats), pending, k)
      {
        ApplyOne(pending[k]);
      }
      pending := [];
    }

    method ApplyOne(a: Adjust)
      requires ChairsFine(seats) && Balanced() && NobodyLeaving(seats)
      modifies `seats, `bought
      ensures ChairsFine(seats) && Balanced() && NobodyLeaving(seats)
      ensures seats == AdjustOne(old(seats), a) && bought == old(bought) + if Grants(old(seats), a) then a.delta else 0
    {
      var i := FindPlayer(a.id);
      if i >= 0 {
        var ok := ApplyChips(i, a.delta);
      }
    }

    // The bookkeeping when the engine reaches the result. The conservation alarm stays silent.
    method FinishHand()
      requires Finishing() && InHandFine(seats, hand.h, starts, ids) && state != Ended
      modifies `seats, `alarm, `gone, `bought, `pending, `endAfterHand
      ensures Valid() && NobodyLeaving(seats) && Now() == Stepped(old(Now()))
    {
      SettleHand();
      GrantPending();
    }

    method GrantPending()
      requires Finishing() && NobodyLeaving(seats)
      modifies `seats, `bought, `pending, `endAfterHand
      ensures Finishing() && NobodyLeaving(seats) && Now() == GrantedMoment(old(Now()))
    {
      ApplyPending();
      CheckLast();
    }

    // Without rebuys the round ends when one player has all the chips.
    method CheckLast()
      modifies `endAfterHand
      ensures endAfterHand == (old(endAfterHand) || RoundOver(seats, settings.allowRebuy))
    {
      var seated, withChips := CountSeated();
      if !settings.allowRebuy && seated >= 2 && withChips <= 1 {
        endAfterHand := true;
      }
    }

    method SettleHand()
      requires Finishing() && InHandFine(seats, hand.h, starts, ids)
      modifies `seats, `alarm, `gone
      ensures Finishing() && NobodyLeaving(seats) && Now() == PaidMoment(old(Now()))
    {
      PayStacks();
      ghost var paid := seats;
      Dismiss();
      SettledBooks(old(seats), paid, seats, hand.h, starts, ids);
    }

    method CountSeated() returns (seated: nat, withChips: nat)
      ensures seated == SeatedCount(seats, |seats|) && withChips == HolderCount(seats, |seats|)
    {
      seated, withChips := 0, 0;
      for k := 0 to |seats|
        invariant seated == SeatedCount(seats, k) && withChips == HolderCount(seats, k)
      {
        if seats[k].Taken? {
          seated := seated + 1;
          if seats[k].p.stack > 0 {
            withChips := withChips + 1;
          }
        }
      }
    }

    // ---- the engine ------------------------------------------------------------------------------------

    // After the engine has moved: a finished hand is settled at once.
    method AfterEngine()
      requires InPlay()
      modifies `seats, `alarm, `gone, `bought, `pending, `endAfterHand
      ensures Valid() && Now() == Stepped(old(Now()))
    {
      if hand.h.phase == Result {
        FinishHand();
      }
    }

    // One command to the hand in play, which moves no chips between the chairs yet.
    method Ask(c: Rules.Command) returns (ok: bool)
      requires Valid() && InProgress(hand)
      modifies `hand
      ensures hand == Dealt(Rules.After(old(hand.h), c)) && (ok <==> Rules.Step(old(hand.h), c).Done?)
      ensures !ok ==> hand == old(hand)
      ensures InPlay()
    {
      StepFine(seats, hand.h, c, starts, ids);
      ok := Rules.Step(hand.h, c).Done?;
      hand := Dealt(Rules.After(hand.h, c));
    }

    // The next street, a hand shown, a board run twice, a fold out of turn.
    method Engine(c: Rules.Command) returns (ok: bool)
      requires Valid() && InProgress(hand)
      modifies `hand, `seats, `alarm, `gone, `bought, `pending, `endAfterHand
      ensures Valid() && Now() == Stepped(Moved(old(Now()), c)) && (ok <==> Rules.Step(old(hand.h), c).Done?)
    {
      ok := Ask(c);
      AfterEngine();
    }

    // After the engine has moved: a note about the player in chair i, who is in the hand.
    method Conclude(i: nat, p: Person)
      requires InPlay()
      requires i < |seats| && SameSeat(seats[i], Taken(p)) && p.inHand && p.status == seats[i].p.status
      modifies `hand, `seats, `alarm, `gone, `bought, `pending, `endAfterHand
      ensures Valid() && Now() == Stepped(Put(old(Now()), i, p))
    {
      SeatInHand(seats, hand.h, starts, ids, i);
      ChairKept(seats, i, Taken(p));
      HandUnmoved(seats, i, Taken(p), hand.h, starts, ids);
      seats := seats[i := Taken(p)];
      AfterEngine();
    }

    // An action of a player, who has not missed this turn.
    method Play(id: int, a: Action) returns (ok: bool)
      requires Valid()
      modifies `hand, `seats, `alarm, `gone, `bought, `pending, `endAfterHand
      ensures Valid()
      ensures ok <==> MayAct(old(Now()), id, a)
      ensures var i := Sitting(old(seats), id);
              Now() == if ok then Stepped(Played(old(Now()), i, Rules.DoApply(i, a))) else old(Now())
    {
      var i := FindPlayer(id);
      if state == Ended || i < 0 || !InProgress(hand) || !seats[i].p.inHand {
        return false;
      }
      ok := PlayFrom(i, Rules.DoApply(i, a));
    }

    method PlayFrom(i: nat, c: Rules.Command) returns (ok: bool)
      requires Valid() && InProgress(hand) && i < |seats| && seats[i].Taken? && seats[i].p.inHand
      modifies `hand, `seats, `alarm, `gone, `bought, `pending, `endAfterHand
      ensures Valid() && (ok <==> Rules.Step(old(hand.h), c).Done?)
      ensures Now() == if ok then Stepped(Played(old(Now()), i, c)) else old(Now())
    {
      ghost var asked := Moved(Now(), c);
      ok := Ask(c);
      if !ok {
        return;
      }
      assert Now() == asked;
      Conclude(i, seats[i].p.(missed := 0));
    }

    // The player on turn has run out of time.
    method TurnOver()
      requires Valid() && InProgress(hand) && hand.h.phase == Betting
      modifies `hand, `seats, `alarm, `gone, `bought, `pending, `endAfterHand
      ensures Valid()
      ensures OnClock(old(Now())) && Now() == Stepped(OutOfTime(old(Now())))
    {
      var k := hand.h.round.toAct;
      var i := hand.h.players[k].seat;
      assert StillSeated(seats, hand.h, ids, k);
      ghost var asked := Moved(Now(), Rules.DoTimeout(i));
      var ok := Ask(Rules.DoTimeout(i));
      assert Now() == asked;
      Conclude(i, Missed(seats[i].p, settings.sitOutAfter));
    }

    // ---- players come and go ---------------------------------------------------------------------------

    // Seats a new player in the wanted seat, or in the lowest free one; -1 when refused.
    method Join(id: int, wanted: int, open: bool) returns (seat: int)
      requires Valid() && Absent(seats, id)
      modifies `seats, `bought
      ensures Valid()
      ensures seat == if state != Ended && open then SeatFor(old(Now()), wanted) else -1
      ensures if seat < 0 then seats == old(seats) && bought == old(bought)
              else && seat < settings.maxPlayers && old(seats)[seat] == Empty
                   && (if wanted >= 0 then seat == wanted else forall i :: 0 <= i < seat ==> old(seats)[i] != Empty)
                   && seats == old(seats)[seat := Taken(Newcomer(id, settings.startMoney))]
                   && bought == old(bought) + settings.startMoney
      ensures seat >= 0 <==>
                && state != Ended && open
                && if wanted >= 0 then wanted < settings.maxPlayers && old(seats)[wanted] == Empty
                   else exists i :: 0 <= i < settings.maxPlayers && old(seats)[i] == Empty
    {
      if state == Ended || !open {
        return -1;
      }
      seat := wanted;
      if wanted >= 0 {
        if wanted >= settings.maxPlayers || seats[wanted] != Empty {
          return -1;
        }
      } else {
        seat := LowestFree();
        if seat < 0 {
          return;
        }
      }
      var p := Newcomer(id, settings.startMoney);
      ChipsUpdate(seats, seat, Taken(p), |seats|);
      FreeChairTaken(seats, seat, Taken(p), hand, starts, ids);
      seats := seats[seat := Taken(p)];
      bought := bought + settings.startMoney;
    }

    method LowestFree() returns (seat: int)
      requires |seats| == MAX_SEATS && settings.maxPlayers <= MAX_SEATS
      ensures -1 <= seat < settings.maxPlayers && seat == FirstFree(seats, settings.maxPlayers)
      ensures seat >= 0 ==> seats[seat] == Empty && forall i :: 0 <= i < seat ==> seats[i] != Empty
      ensures seat < 0 ==> forall i :: 0 <= i < settings.maxPlayers ==> seats[i] != Empty
    {
      for i := 0 to settings.maxPlayers
        invariant FirstFree(seats, i) < 0 && forall j :: 0 <= j < i ==> seats[j] != Empty
      {
        if seats[i] == Empty {
          FreeStays(seats, i + 1, settings.maxPlayers);
          return i;
        }
      }
      seat := -1;
    }

    // A busted player buys in again between hands.
    method Rebuy(id: int) returns (ok: bool)
      requires Valid()
      modifies `seats, `bought
      ensures Valid()
      ensures var i := Sitting(old(seats), id);
              && (ok <==>
                  state != Ended && i >= 0 && settings.allowRebuy && old(seats)[i].p.status == BustedOut
                    && !InProgress(hand))
              && (ok ==>
                  seats == old(seats)[i := Taken(Rebought(old(seats)[i].p, settings.startMoney))]
                    && bought == old(bought) + settings.startMoney)
              && (!ok ==> seats == old(seats) && bought == old(bought))
    {
      var i := FindPlayer(id);
      if state == Ended || i < 0 || !settings.allowRebuy || seats[i].p.status != BustedOut || InProgress(hand) {
        return false;
      }
      var p := seats[i].p;
      var q := p.(stack := settings.startMoney, buyIn := p.buyIn + settings.startMoney, status := Active);
      ChipsUpdate(seats, i, Taken(q), |seats|);
      seats := seats[i := Taken(q)];
      bought := bought + settings.startMoney;
      ok := true;
    }

    // The host changes a stack: at once between hands, else when the hand is over.
    method AdjustChips(id: int, delta: int) returns (ok: bool, applied: bool)
      requires Valid()
      modifies `seats, `bought, `pending
      ensures Valid()
      ensures ok <==>
                && state != Ended && Sitting(old(seats), id) >= 0 && delta != 0 && !settings.tournament
                && (InProgress(hand) || Grants(old(seats), Adjust(id, delta)))
      ensures applied <==> ok && !InProgress(hand)
      ensures applied ==>
                Now() == old(Now()).(seats := AdjustOne(old(seats), Adjust(id, delta)), bought := old(bought) + delta)
      ensures !applied ==> Now() == old(Now()).(pending := old(pending) + if ok then [Adjust(id, delta)] else [])
    {
      ok, applied := false, false;
      var i := FindPlayer(id);
      if state == Ended || i < 0 || delta == 0 || settings.tournament {
        return;
      }
      if !InProgress(hand) {
        applied := ApplyChips(i, delta);
        ok := applied;
        return;
      }
      pending := pending + [Adjust(id, delta)];
      ok := true;
    }

    // A player leaves or is kicked. In the middle of a hand they are folded and keep the seat
    // until it is over.
    method Remove(id: int) returns (ok: bool)
      requires Valid()
      modifies `hand, `seats, `alarm, `gone, `bought, `pending, `endAfterHand
      ensures Valid()
      ensures var i := Sitting(old(seats), id);
              && (ok <==> i >= 0)
              && (ok && PlaysIn(old(Now()), id) ==>
                    var leaver := old(seats)[i].p.(leaving := true);
                    Now() == Stepped(Put(Moved(old(Now()), Rules.DoForfeit(i)), i, leaver)))
              && (ok && !PlaysIn(old(Now()), id) ==>
                    Now() ==
                    old(Now()).(seats := old(seats)[i := Empty], gone := old(gone) + old(seats)[i].p.stack))
              && (!ok ==> Now() == old(Now()))
      ensures ok && !InProgress(hand) ==> Absent(seats, id)
    {
      var i := FindPlayer(id);
      if i < 0 {
        return false;
      }
      ok := true;
      if InProgress(hand) && seats[i].p.inHand {
        FoldLeaver(i);
        if InProgress(hand) {
          return;
        }
      }
      VacateFor(id);
    }

    method FoldLeaver(i: nat)
      requires Valid() && InProgress(hand) && i < |seats| && seats[i].Taken? && seats[i].p.inHand
      modifies `hand, `seats, `alarm, `gone, `bought, `pending, `endAfterHand
      ensures Valid()
      ensures var leaver := old(seats)[i].p.(leaving := true);
              Now() == Stepped(Put(Moved(old(Now()), Rules.DoForfeit(i)), i, leaver))
      ensures !InProgress(hand) ==> Absent(seats, old(seats)[i].p.id)
    {
      MarkLeaving(i);
      ghost var marked := Now();
      var folded := Engine(Rules.DoForfeit(i));
      if !InProgress(hand) {
        LeaverGone(Moved(marked, Rules.DoForfeit(i)), i);
      }
    }

    // Frees the player's seat, unless the end of the hand has freed it already.
    method VacateFor(id: int)
      requires Valid() && (InProgress(hand) ==>
            forall i :: 0 <= i < |seats| && seats[i].Taken? && seats[i].p.id == id ==> !seats[i].p.inHand)
      modifies `seats, `gone
      ensures Valid() && Absent(seats, id)
      ensures var i := Sitting(old(seats), id);
              if i < 0 then seats == old(seats) && gone == old(gone)
              else seats == old(seats)[i := Empty] && gone == old(gone) + old(seats)[i].p.stack
    {
      var i := FindPlayer(id);
      if i >= 0 {
        Vacate(i);
      }
    }

    method MarkLeaving(i: nat)
      requires Valid() && InProgress(hand) && i < |seats| && seats[i].Taken? && seats[i].p.inHand
      modifies `seats
      ensures Valid() && seats == old(seats)[i := Taken(old(seats)[i].p.(leaving := true))]
    {
      var d := Taken(seats[i].p.(leaving := true));
      ChairKept(seats, i, d);
      HandUnmoved(seats, i, d, hand.h, starts, ids);
      seats := seats[i := d];
    }

    // Frees the seat of somebody who is not in a running hand.
    method Vacate(i: nat)
      requires Valid() && i < |seats| && seats[i].Taken? && (InProgress(hand) ==> !seats[i].p.inHand)
      modifies `seats, `gone
      ensures Valid() && seats == old(seats)[i := Empty] && gone == old(gone) + old(seats)[i].p.stack
    {
      if InProgress(hand) {
        NotInHand(seats, hand.h, starts, ids, i);
        HandUnmoved(seats, i, Empty, hand.h, starts, ids);
      }
      FreeSeat(i);
    }

    // Sitting out: the hand is folded, the seat is kept.
    method SitOut(id: int) returns (ok: bool)
      requires Valid()
      modifies `hand, `seats, `alarm, `gone, `bought, `pending, `endAfterHand
      ensures Valid()
      ensures var i := Sitting(old(seats), id);
              && (ok <==> state != Ended && i >= 0 && old(seats)[i].p.status == Active)
              && (!ok ==> Now() == old(Now()))
              && (ok ==>
                    var resting := Put(old(Now()), i, old(seats)[i].p.(status := SittingOut));
                    Now() == if PlaysIn(old(Now()), id) && CanFold(old(hand.h), i)
                             then Stepped(Moved(resting, Rules.DoForfeit(i))) else resting)
    {
      var i := FindPlayer(id);
      if state == Ended || i < 0 || seats[i].p.status != Active {
        return false;
      }
      Restate(i, seats[i].p.(status := SittingOut));
      ok := true;
      if InProgress(hand) && seats[i].p.inHand {
        FoldRester(i);
      }
    }

    // A hand that can still be folded is.
    method FoldRester(i: nat)
      requires Valid() && InProgress(hand)
      modifies `hand, `seats, `alarm, `gone, `bought, `pending, `endAfterHand
      ensures Valid()
      ensures Now() == if CanFold(old(hand.h), i) then Stepped(Moved(old(Now()), Rules.DoForfeit(i))) else old(Now())
    {
      var k := FindInHand(i);
      if k >= 0 && !hand.h.players[k].folded && !hand.h.players[k].allIn {
        var folded := Engine(Rules.DoForfeit(i));
      }
    }

    // Back in from the next hand on.
    method SitIn(id: int) returns (ok: bool)
      requires Valid()
      modifies `seats
      ensures Valid()
      ensures var i := Sitting(old(seats), id);
              && (ok <==> state != Ended && i >= 0 && old(seats)[i].p.status == SittingOut)
              && seats == if !ok then old(seats)
                          else var p := old(seats)[i].p;
                               var back := if p.stack == 0 then BustedOut else Active;
                               old(seats)[i := Taken(p.(status := back, missed := 0))]
    {
      var i := FindPlayer(id);
      if state == Ended || i < 0 || seats[i].p.status != SittingOut {
        return false;
      }
      var p := seats[i].p.(status := Active, missed := 0);
      if p.stack == 0 {
        p := p.(status := BustedOut);
      }
      Restate(i, p);
      ok := true;
    }

    // The player will straddle when it is their turn to, or will not.
    method SetStraddle(id: int, on: bool) returns (ok: bool)
      requires Valid()
      modifies `seats
      ensures Valid()
      ensures var i := Sitting(old(seats), id);
              && (ok <==> state != Ended && i >= 0 && (on ==> settings.allowStraddle))
              && seats == if !ok then old(seats) else old(seats)[i := Taken(old(seats)[i].p.(straddleNext := on))]
    {
      var i := FindPlayer(id);
      if state == Ended || i < 0 || (on && !settings.allowStraddle) {
        return false;
      }
      Restate(i, seats[i].p.(straddleNext := on));
      ok := true;
    }

    method FindInHand(seat: int) returns (k: int)
      requires hand.Dealt?
      ensures k == Find(hand.h.players, seat)
    {
      k := Find(hand.h.players, seat);
    }

    // A change to the player in chair i that leaves their chips and their part in the hand alone.
    method Restate(i: nat, p: Person)
      requires Valid() && i < |seats| && SameSeat(seats[i], Taken(p)) && p.leaving == seats[i].p.leaving
      requires p.status == BustedOut ==> p.stack == 0
      modifies `seats
      ensures Valid() && seats == old(seats)[i := Taken(p)]
    {
      KeepChair(seats, i, Taken(p), hand, starts, ids);
      seats := seats[i := Taken(p)];
    }

    // ---- changing seats --------------------------------------------------------------------------------

    // Asks for another seat. Nobody moves in the middle of a hand they are dealt into.
    method ChangeSeat(id: int, seat: int) returns (ok: bool)
      requires Valid()
      modifies `seats
      ensures Valid()
      ensures var i := Sitting(old(seats), id);
              && (ok <==>
                  state != Ended && i >= 0 && !SeatsLocked(old(Now()))
                    && MayAsk(old(seats), i, seat, settings.maxPlayers, handNumber))
      ensures Now() == Asking(old(Now()), id, seat)
    {
      var i := FindPlayer(id);
      if state == Ended || i < 0 || seat < 0 || seat >= settings.maxPlayers || seat == i
        || (settings.tournament && (state != Waiting || handNumber > roundStart)) {
        return false;
      }
      var p := seats[i].p;
      if p.pendingSeat >= 0 || (p.lastMove != 0 && handNumber - p.lastMove < COOLDOWN) {
        return false;
      }
      var reserved := SeatReserved(seat);
      if seats[seat] != Empty || reserved {
        return false;
      }
      AskFor(i, seat);
      ok := true;
    }

    method AskFor(i: nat, seat: nat)
      requires Valid() && i < |seats| && seats[i].Taken? && seat < settings.maxPlayers && seats[seat] == Empty
      modifies `seats
      ensures Valid() && MovedTo(old(seats), seats, old(seats)[i].p.id, i, seat, handNumber, InProgress(hand))
    {
      var q := seats[i].p.(pendingSeat := seat, owesDeadBlind := true, lastMove := handNumber);
      KeepChair(seats, i, Taken(q), hand, starts, ids);
      AskedMoves(seats, i, seat, handNumber, settings.maxPlayers);
      seats := seats[i := Taken(q)];
      if !InProgress(hand) || !q.inHand {
        ApplySeatChange(i);
      }
    }

    method SeatReserved(seat: int) returns (reserved: bool)
      ensures reserved <==> Reserved(seats, seat)
    {
      for i := 0 to |seats|
        invariant forall j :: 0 <= j < i ==> !(seats[j].Taken? && seats[j].p.pendingSeat == seat)
      {
        if seats[i].Taken? && seats[i].p.pendingSeat == seat {
          return true;
        }
      }
      reserved := false;
    }

    // Performs a pending move, if the seat is still free.
    method ApplySeatChange(i: nat)
      requires Valid() && i < |seats| && seats[i].Taken? && (InProgress(hand) ==> !seats[i].p.inHand)
      modifies `seats
      ensures Valid() && seats == Reseated(old(seats), i, settings.maxPlayers)
    {
      var to := seats[i].p.pendingSeat;
      var q := seats[i].p.(pendingSeat := -1);
      if to < 0 || to >= settings.maxPlayers || seats[to] != Empty {
        KeepChair(seats, i, Taken(q), hand, starts, ids);
        seats := seats[i := Taken(q)];
        return;
      }
      MoveFine(seats, i, to, q, hand, starts, ids);
      seats := seats[i := Empty][to := Taken(q)];
    }

    // Everybody who asked for another seat during the hand tries to move, by seat.
    method ApplyPendingSeatChanges()
      requires Valid() && !InProgress(hand)
      modifies `seats
      ensures Valid() && seats == MoveWaiting(old(seats), 0, settings.maxPlayers)
    {
      for i := 0 to |seats|
        invariant Valid() && |seats| == |old(seats)|
        invariant MoveWaiting(seats, i, settings.maxPlayers) == MoveWaiting(old(seats), 0, settings.maxPlayers)
      {
        if seats[i].Taken? && seats[i].p.pendingSeat >= 0 {
          ApplySeatChange(i);
        }
      }
    }

    // ---- a hand begins ------------------------------------------------------------------------------------

    // The players who can be dealt in, by seat.
    method Eligible() returns (list: seq<Seat>)
      requires |seats| == MAX_SEATS && settings.maxPlayers <= MAX_SEATS
      ensures Listed(seats, list, settings.maxPlayers) && list == EligibleIn(seats, settings.maxPlayers)
    {
      list := [];
      for i := 0 to settings.maxPlayers
        invariant Listed(seats, list, i) && list == EligibleIn(seats, i)
      {
        if seats[i].Taken? && seats[i].p.status == Active && seats[i].p.stack > 0 {
          ListedNext(seats, list, i);
          list := list + [Seat(i, seats[i].p.stack)];
        }
      }
    }

    // The next eligible seat clockwise from the button; any eligible seat when there is none yet.
    method NextButton(list: seq<Seat>, draw: nat) returns (seat: int)
      requires Listed(seats, list, settings.maxPlayers) && draw < |list| && settings.maxPlayers <= MAX_SEATS
      ensures NextAfter(button, list, seat) && (!(0 <= button < MAX_SEATS) ==> seat == list[draw].seat)
    {
      seat := list[draw].seat;
      if 0 <= button < MAX_SEATS {
        ghost var last := Distance(button, seat);
        AroundTheTable(button, list, draw);
        var i := 1;
        while !SitsAt(list, button, i)
          invariant 1 <= i <= last <= MAX_SEATS
          invariant forall d :: 1 <= d < i ==> !SitsAt(list, button, d)
          decreases last - i
        {
          i := i + 1;
        }
        FirstFound(button, list, i);
        seat := (button + i) % MAX_SEATS;
      }
    }

    // Deals a hand to everybody eligible. outcome is the engine's answer when there are two.
    method StartHand(draw: nat, shuffled: seq<Card>) returns (ok: bool)
      requires Valid() && hand == NoHand && state == Running
      modifies `hand, `seats, `starts, `ids, `state, `handNumber, `button, `alarm, `gone, `bought, `pending,
               `endAfterHand
      ensures Valid() && Now() == Stepped(HandBegun(old(Now()), draw, shuffled)) && (ok <==> hand.Dealt?)
    {
      var list := Eligible();
      if |list| < 2 {
        return false;
      }
      var cfg := Setup(list, draw);
      ok := DealOut(cfg, list, shuffled);
    }

    method DealOut(cfg: Config, list: seq<Seat>, shuffled: seq<Card>) returns (ok: bool)
      requires Valid() && hand == NoHand && state == Running && Listed(seats, list, settings.maxPlayers)
      requires cfg.straddleAmount <= 0 || cfg.straddleAmount >= cfg.bigBlind
      modifies `hand, `seats, `starts, `ids, `state, `handNumber, `button, `alarm, `gone, `bought, `pending,
               `endAfterHand
      ensures Valid() && (ok <==> hand.Dealt?)
      ensures Now() == Stepped(Answered(old(Now()), list, cfg.button, Rules.NewHand(cfg, list, shuffled)))
    {
      var outcome := AskEngine(cfg, list, shuffled);
      ok := Deal(cfg.button, list, outcome);
    }

    // The button moves on, debts are called in and the straddler is found.
    method Setup(list: seq<Seat>, draw: nat) returns (cfg: Config)
      requires Valid() && hand == NoHand && Listed(seats, list, settings.maxPlayers) && list != []
      modifies `seats
      ensures Valid() && Listed(seats, list, settings.maxPlayers) && seats == DebtsCleared(old(seats), list)
      ensures NextAfter(button, list, cfg.button) && DebtsOf(cfg.deadBlinds, old(seats), list, settings.bigBlind)
      ensures cfg == HandConfig(old(Now()), list, draw)
      ensures cfg.straddleAmount <= 0 || cfg.straddleAmount >= cfg.bigBlind
    {
      var pick := if draw < |list| then draw else 0;
      var seat := NextButton(list, pick);
      var dead := ClearDebts(list);
      ButtonIsNext(button, list, pick, seat);
      DebtsExact(dead, old(seats), list, settings.bigBlind);
      var straddler := FindStraddler(seat, list);
      cfg := Config(settings.smallBlind, settings.bigBlind, settings.ante, seat, settings.policy, dead,
                    straddler, if straddler >= 0 then 2 * settings.bigBlind else 0, settings.variant);
    }

    // Third from the button, when armed and able to pay.
    method FindStraddler(button: int, list: seq<Seat>) returns (straddler: int)
      requires Listed(seats, list, settings.maxPlayers)
      ensures straddler == Straddler(settings, seats, button, list)
    {
      straddler := -1;
      if settings.allowStraddle && |list| >= 3 {
        var order := ClockwiseFrom(button, list);
        Sorting.SortElements(list, SeatKey(button));
        assert order[2] in list;
        var utg := order[2].seat;
        if seats[utg].p.straddleNext && seats[utg].p.stack > 2 * settings.bigBlind {
          straddler := utg;
        }
      }
    }

    // The engine has dealt the hand to everybody on the list, or has declined to.
    method Deal(button: int, list: seq<Seat>, outcome: Outcome) returns (ok: bool)
      requires Valid() && hand == NoHand && state == Running
      requires Listed(seats, list, settings.maxPlayers)
      requires outcome.Done? ==> Inv(outcome.state) && DealtTo(outcome.state, list)
      modifies `hand, `seats, `starts, `ids, `state, `handNumber, `button, `alarm, `gone, `bought, `pending,
               `endAfterHand
      ensures Valid()
      ensures ok <==> outcome.Done?
      ensures Now() == Stepped(Answered(old(Now()), list, button, outcome))
    {
      match outcome {
        case Rejected(_) =>
          state := Paused;
          ok := false;
        case Done(h) =>
          Begin(button, list, h);
          ok := true;
      }
    }

    method Begin(button: int, list: seq<Seat>, h: State)
      requires Valid() && hand == NoHand && state != Ended && Inv(h)
      requires Listed(seats, list, settings.maxPlayers) && DealtTo(h, list)
      modifies `hand, `seats, `starts, `ids, `handNumber, `button, `alarm, `gone, `bought, `pending, `endAfterHand
      ensures Valid() && Now() == Stepped(Answered(old(Now()), list, button, Done(h)))
    {
      Place(button, list, h);
      AfterEngine();
    }

    method Place(button: int, list: seq<Seat>, h: State)
      requires Valid() && hand == NoHand && state != Ended && Inv(h)
      requires Listed(seats, list, settings.maxPlayers) && DealtTo(h, list)
      modifies `hand, `seats, `starts, `ids, `handNumber, `button
      ensures InPlay() && Now() == Answered(old(Now()), list, button, Done(h))
    {
      ghost var before := Now();
      DealIn(list, h);
      assert Now() == before.(hand := Dealt(h), seats := DealtIn(before.seats, list));
      handNumber, this.button := handNumber + 1, button;
    }

    // Everybody dealt in is marked, and their start stacks are kept.
    method DealIn(list: seq<Seat>, h: State)
      requires Valid() && hand == NoHand && state != Ended && Inv(h)
      requires settings.maxPlayers <= MAX_SEATS && Listed(seats, list, settings.maxPlayers) && DealtTo(h, list)
      modifies `hand, `seats, `starts, `ids
      ensures InPlay() && hand == Dealt(h) && seats == DealtIn(old(seats), list)
    {
      MarkAll(list);
      MarkedExactly(old(seats), seats, list, starts, ids);
      AllMarked(old(seats), seats, list, starts, ids, h, settings.maxPlayers);
      hand := Dealt(h);
    }

    method MarkAll(list: seq<Seat>)
      requires ChairsFine(seats) && Listed(seats, list, settings.maxPlayers)
      modifies `seats, `starts, `ids
      ensures MarkedIn(old(seats), seats, list, starts, ids, |list|)
      ensures ChairsFine(seats) && Chips(seats, |seats|) == Chips(old(seats), |seats|)
    {
      starts := map[];
      ids := [];
      for k := 0 to |list|
        invariant MarkedIn(old(seats), seats, list, starts, ids, k)
        invariant ChairsFine(seats) && Chips(seats, |seats|) == Chips(old(seats), |seats|)
      {
        var x := list[k].seat;
        var d := Taken(seats[x].p.(inHand := true));
        MarkFine(seats, x);
        MarkNext(old(seats), seats, list, starts, ids, k);
        starts := starts[x := list[k].stack];
        ids := ids + [seats[x].p.id];
        seats := seats[x := d];
      }
    }

    // Dead blinds are owed once.
    method ClearDebts(list: seq<Seat>) returns (dead: map<int, int>)
      requires Valid() && hand == NoHand && Listed(seats, list, settings.maxPlayers) && settings.maxPlayers <= MAX_SEATS
      modifies `seats
      ensures Valid() && Listed(seats, list, settings.maxPlayers)
      ensures seats == DebtsCleared(old(seats), list) && DebtsOf(dead, old(seats), list, settings.bigBlind)
    {
      dead := map[];
      for k := 0 to |list|
        invariant Valid() && (forall j :: k <= j < |list| ==> seats[list[j].seat].Taken?)
        invariant ClearedSoFar(old(seats), seats, list, dead, settings.bigBlind, k)
      {
        var x := list[k].seat;
        ClearNext(old(seats), seats, list, dead, settings.bigBlind, k);
        if seats[x].p.owesDeadBlind {
          dead := dead[x := settings.bigBlind];
          Restate(x, seats[x].p.(owesDeadBlind := false));
        }
      }
      ClearedListed(old(seats), list, settings.maxPlayers);
      ClearedExactly(old(seats), seats, list, dead, settings.bigBlind);
    }

    // ---- a hand or a round ends ------------------------------------------------------------------------------

    // The finished hand is cleared away.
    method ClearHand()
      requires Valid() && hand.Dealt? && hand.h.phase == Result
      modifies `hand, `seats, `state, `endAfterHand
      ensures Valid() && Now() == Cleared(old(Now()))
    {
      Release();
      if endAfterHand {
        endAfterHand := false;
        EndTable();
        return;
      }
      ApplyPendingSeatChanges();
    }

    method Release()
      requires Valid() && hand.Dealt? && hand.h.phase == Result
      modifies `hand, `seats
      ensures Valid() && hand == NoHand && seats == ReleasedAll(old(seats))
    {
      NobodyIn();
      hand := NoHand;
    }

    method NobodyIn()
      requires ChairsFine(seats) && Balanced()
      modifies `seats
      ensures ChairsFine(seats) && Balanced() && seats == ReleasedAll(old(seats))
    {
      for k := 0 to |seats|
        invariant ChairsFine(seats) && Balanced() && |seats| == |old(seats)|
        invariant forall i :: 0 <= i < |seats| ==> seats[i] == if i < k then Released(old(seats)[i]) else old(seats)[i]
      {
        if seats[k].Taken? {
          ChipsUpdate(seats, k, Released(seats[k]), |seats|);
          seats := seats[k := Released(seats[k])];
        }
      }
    }

    // Cancels the running hand. The stacks are written back to what they were at its start, and
    // that is what they are: nothing changes but who is in a hand, and leavers go.
    method VoidHand()
      requires Valid() && InProgress(hand)
      modifies `hand, `seats, `gone
      ensures Valid() && Now() == Voided(old(Now()))
    {
      ReleasedLeave(seats, |seats|);
      DroppedFine(seats);
      WriteBack();
      hand := NoHand;
      DropLeavers();
    }

    method DropLeavers()
      requires ChairsFine(seats) && Balanced()
      modifies `seats, `gone
      ensures ChairsFine(seats) && Balanced() && seats == DroppedAll(old(seats))
      ensures gone == old(gone) + LeavingChips(old(seats), |old(seats)|)
    {
      DroppedTake(seats, |seats|);
      for k := 0 to |seats|
        invariant ChairsFine(seats) && Balanced() && |seats| == |old(seats)|
        invariant forall i :: 0 <= i < |seats| ==> seats[i] == if i < k then Dropped(old(seats)[i]) else old(seats)[i]
      {
        if seats[k].Taken? && seats[k].p.leaving {
          FreeSeat(k);
        }
      }
    }

    method WriteBack()
      requires Valid() && InProgress(hand)
      modifies `seats
      ensures ChairsFine(seats) && Balanced() && seats == ReleasedAll(old(seats))
    {
      for k := 0 to |seats|
        invariant ChairsFine(seats) && Balanced() && |seats| == |old(seats)|
        invariant forall i :: 0 <= i < |seats| ==> seats[i] == if i < k then Released(old(seats)[i]) else old(seats)[i]
      {
        StartIsStack(old(seats), hand.h, starts, ids, k);
        if k in starts && seats[k].Taken? {
          var d := Taken(seats[k].p.(stack := starts[k], inHand := false));
          ChipsUpdate(seats, k, d, |seats|);
          seats := seats[k := d];
        }
      }
    }

    // Ends the round: the stacks are frozen.
    method EndTable()
      requires Valid() && !InProgress(hand)
      modifies `hand, `seats, `state
      ensures Valid() && Now() == Closed(old(Now()))
    {
      hand := NoHand;
      state := Ended;
      NobodyIn();
    }

    // The host ends the table, after the hand or at once.
    method End(immediate: bool) returns (ok: bool)
      requires Valid()
      modifies `hand, `seats, `state, `gone, `endAfterHand
      ensures Valid()
      ensures ok <==> old(state) != Ended
      ensures Now() == if !ok then old(Now())
                       else if !old(InProgress(hand)) then Closed(old(Now()))
                       else if immediate then Closed(Voided(old(Now())))
                       else old(Now()).(endAfterHand := true)
    {
      if state == Ended {
        return false;
      }
      ok := true;
      if InProgress(hand) {
        if !immediate {
          endAfterHand := true;
          return;
        }
        VoidHand();
      }
      EndTable();
    }

    // A new round: everybody keeps their seat and starts over with the start money.
    method Restart() returns (ok: bool)
      requires Valid()
      modifies `settings, `seats, `pending, `state, `endAfterHand, `roundStart, `button, `bought, `gone
      ensures Valid()
      ensures ok <==> old(state) == Ended
      ensures Now() == if ok then Restarted(old(Now())) else old(Now())
    {
      if state != Ended {
        return false;
      }
      ClearBooks();
      settings := settings.(
        smallBlind := settings.startSmallBlind, bigBlind := settings.startBigBlind, ante := settings.startAnte);
      BuyInAgain();
      state := Waiting;
      ok := true;
    }

    method ClearBooks()
      modifies `roundStart, `endAfterHand, `button, `pending
      ensures roundStart == handNumber && !endAfterHand && button == -1 && pending == []
    {
      roundStart := handNumber;
      endAfterHand := false;
      button := -1;
      pending := [];
    }

    // The books of the new round.
    method BuyInAgain()
      requires ChairsFine(seats) && settings.startMoney >= 0 && !alarm
      modifies `seats, `bought, `gone
      ensures ChairsFine(seats) && Balanced() && HandFine(seats, NoHand, starts, ids)
      ensures seats == StartedOver(old(seats), settings.startMoney) && bought == Chips(seats, |seats|) && gone == 0
    {
      StartOver();
      bought, gone := Chips(seats, |seats|), 0;
    }

    method StartOver()
      requires ChairsFine(seats) && settings.startMoney >= 0
      modifies `seats
      ensures ChairsFine(seats) && seats == StartedOver(old(seats), settings.startMoney)
    {
      for k := 0 to |seats|
        invariant ChairsFine(seats) && |seats| == |old(seats)|
        invariant forall i :: 0 <= i < |seats| ==>
                    seats[i] ==
                    if i < k && old(seats)[i].Taken? then Taken(Newcomer(old(seats)[i].p.id, settings.startMoney))
                                else old(seats)[i]
      {
        if seats[k].Taken? {
          seats := seats[k := Taken(Newcomer(seats[k].p.id, settings.startMoney))];
        }
      }
    }

    // ---- every command sequence ----------------------------------------------------------------------------

    constructor (settings: Settings)
      requires settings.startMoney >= 0 && settings.maxPlayers <= MAX_SEATS
      ensures Valid() && state == Waiting && hand == NoHand && bought == 0 && gone == 0
      ensures forall i :: 0 <= i < |seats| ==> seats[i] == Empty
    {
      this.settings := settings;
      seats := seq(MAX_SEATS, _ => Empty);
      hand, starts, pending := NoHand, map[], [];
      state, endAfterHand, handNumber, roundStart, button := Waiting, false, 0, 0, -1;
      alarm := false;
      bought, gone, ids := 0, 0, [];
      new;
      NoChips(seats, |seats|);
    }

    // Carries out a command if it applies.
    method Obey(c: TableCommand)
      requires Valid()
      modifies this
      ensures Valid() && Now() == Obeyed(old(Now()), c)
    {
      if c.Sit? {
        ObeyNewcomer(c);
      } else if c.Act? {
        ObeyPlayer(c);
      } else if c.BuyAgain? {
        ObeyBuyer(c);
      } else if c.Give? {
        ObeyGiver(c);
      } else if c.Move? || c.Arm? {
        ObeyWish(c);
      } else if c.Go? {
        ObeyLeaver(c);
      } else if c.Clear? {
        ObeyClear(c);
      } else if c.TurnOver? {
        ObeyClock(c);
      } else if c.InHand? {
        ObeyEngine(c);
      } else if c.DealHand? {
        ObeyDealer(c.draw, c.shuffled);
      } else if Sets(c) {
        ObeyHost(c);
      } else if c.Finish? {
        ObeyFinish(c);
      } else if c.Again? {
        ObeyAgain(c);
      } else {
        ObeyGuest(c);
      }
    }

    method ObeyNewcomer(c: TableCommand)
      requires Valid() && c.Sit?
      modifies this
      ensures Valid() && Now() == Obeyed(old(Now()), c)
    {
      var i := FindPlayer(c.id);
      if i < 0 {
        var seat := Join(c.id, c.wanted, c.open);
      }
    }

    method ObeyGuest(c: TableCommand)
      requires Valid() && (c.Rest? || c.Return?)
      modifies this
      ensures Valid() && Now() == Obeyed(old(Now()), c)
    {
      match c {
        case Rest(id) => var ok := SitOut(id);
        case Return(id) => var ok := SitIn(id);
      }
    }

    method ObeyPlayer(c: TableCommand)
      requires Valid() && c.Act?
      modifies this
      ensures Valid() && Now() == Obeyed(old(Now()), c)
    {
      var ok := Play(c.id, c.action);
    }

    method ObeyClock(c: TableCommand)
      requires Valid() && c.TurnOver?
      modifies this
      ensures Valid() && Now() == Obeyed(old(Now()), c)
    {
      if !InProgress(hand) || hand.h.phase != Betting {
        return;
      }
      ghost var m := Now();
      TurnOver();
      ClockRuns(m);
    }

    method ObeyEngine(c: TableCommand)
      requires Valid() && c.InHand?
      modifies this
      ensures Valid() && Now() == Obeyed(old(Now()), c)
    {
      if !InProgress(hand) {
        return;
      }
      StaysOpen(Now(), c.command);
      var ok := Engine(c.command);
    }

    method ObeyDealer(draw: nat, shuffled: seq<Card>)
      requires Valid()
      modifies this
      ensures Valid() && Now() == Obeyed(old(Now()), DealHand(draw, shuffled))
    {
      if hand == NoHand && state == Running {
        var ok := StartHand(draw, shuffled);
      }
    }

    method ObeyHost(c: TableCommand)
      requires Valid() && Sets(c)
      modifies this
      ensures Valid() && Now() == Obeyed(old(Now()), c)
    {
      match c {
        case Switch(running) =>
          if state != Ended {
            state := if running then Running else Paused;
          }
        case Configure(settings) =>
          if settings.startMoney >= 0 && settings.maxPlayers <= MAX_SEATS {
            this.settings := settings;
          }
      }
    }

    method ObeyLeaver(c: TableCommand)
      requires Valid() && c.Go?
      modifies this
      ensures Valid() && Now() == Obeyed(old(Now()), c)
    {
      var ok := Remove(c.id);
    }

    method ObeyWish(c: TableCommand)
      requires Valid() && (c.Move? || c.Arm?)
      modifies this
      ensures Valid() && Now() == Obeyed(old(Now()), c)
    {
      match c {
        case Move(id, seat) => var ok := ChangeSeat(id, seat);
        case Arm(id, on) => var ok := SetStraddle(id, on);
      }
    }

    method ObeyClear(c: TableCommand)
      requires Valid() && c.Clear?
      modifies this
      ensures Valid() && Now() == Obeyed(old(Now()), c)
    {
      if hand.Dealt? && hand.h.phase == Result {
        ClearHand();
      }
    }

    method ObeyBuyer(c: TableCommand)
      requires Valid() && c.BuyAgain?
      modifies this
      ensures Valid() && Now() == Obeyed(old(Now()), c)
    {
      var ok := Rebuy(c.id);
    }

    method ObeyGiver(c: TableCommand)
      requires Valid() && c.Give?
      modifies this
      ensures Valid() && Now() == Obeyed(old(Now()), c)
    {
      var ok, applied := AdjustChips(c.id, c.delta);
    }

    method ObeyFinish(c: TableCommand)
      requires Valid() && c.Finish?
      modifies this
      ensures Valid() && Now() == Obeyed(old(Now()), c)
    {
      var ok := End(c.immediate);
    }

    method ObeyAgain(c: TableCommand)
      requires Valid() && c.Again?
      modifies this
      ensures Valid() && Now() == Obeyed(old(Now()), c)
    {
      var ok := Restart();
    }

    // Over every sequence of commands the books balance: what sits in the stacks is what the
    // commands have brought in less what they have carried away, and the conservation alarm
    // stays silent.
    method Run(commands: seq<TableCommand>)
      requires Valid()
      modifies this
      ensures Valid() && Now() == TableRun(old(Now()), commands) && !alarm
      ensures var ledger := Ledger(old(Now()), commands);
              && bought == ledger.brought && gone == ledger.carried
              && Chips(seats, |seats|) == ledger.brought - ledger.carried
    {
      for k := 0 to |commands|
        invariant Valid() && Now() == TableRun(old(Now()), commands[..k])
      {
        Obey(commands[k]);
        assert commands[..k + 1][..k] == commands[..k];
      }
      assert commands[..|commands|] == commands;
      RunMoney(old(Now()), commands);
    }
  }
}
