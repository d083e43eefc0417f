// What happens at a table around the hand engine, on values (backend/internal/table/hand.go and
// table.go): who sits where with how many chips, and what a command or the end of a hand makes
// of it. The class in Table.dfy carries it out.

module TableRules {
  import opened Cards
  import opened Payout
  import opened HandModel
  import opened HandChips
  import opened HandInvariant
  import opened HandStart
  import opened HandDealing
  import Rules = HandRules
  import Sorting

  const MAX_SEATS := 10

  datatype Status = Active | SittingOut | BustedOut

  // A seated player. Their seat is the chair they are found in.
  datatype Person = Person(
    id: int, stack: int, buyIn: int, status: Status, inHand: bool, leaving: bool,
    missed: int, sitOutNext: bool, straddleNext: bool, pendingSeat: int, owesDeadBlind: bool, lastMove: int)

  datatype Chair = Empty | Taken(p: Person)

  datatype MaybeHand = NoHand | Dealt(h: State)

  datatype Settings = Settings(
    startMoney: int, maxPlayers: nat, smallBlind: int, bigBlind: int, ante: int,
    startSmallBlind: int, startBigBlind: int, startAnte: int,
    allowRebuy: bool, allowStraddle: bool, tournament: bool, sitOutAfter: int, policy: RevealPolicy, variant: Variant)

  datatype TableState = Waiting | Running | Paused | Ended

  datatype Adjust = Adjust(id: int, delta: int)

  // ---- sums ----------------------------------------------------------------------------------

  function StackOf(c: Chair): int { if c.Taken? then c.p.stack else 0 }

  function Chips(seats: seq<Chair>, n: nat): int
    requires n <= |seats|
  {
    if n == 0 then 0 else Chips(seats, n - 1) + StackOf(seats[n - 1])
  }

  lemma {:induction false} ChipsUpdate(seats: seq<Chair>, i: nat, c: Chair, n: nat)
    requires i < |seats| && n <= |seats|
    ensures Chips(seats[i := c], n) == Chips(seats, n) + if i < n then StackOf(c) - StackOf(seats[i]) else 0
  {
    if n > 0 { ChipsUpdate(seats, i, c, n - 1); }
  }

  // What the first n players have won or lost on their start stacks.
  function Nets(ps: seq<Player>, n: nat): int
    requires n <= |ps|
  {
    if n == 0 then 0 else Nets(ps, n - 1) + ps[n - 1].stack - ps[n - 1].startStack
  }

  lemma {:induction false} NetsOfTotals(ps: seq<Player>, n: nat)
    requires n <= |ps| && forall i :: 0 <= i < n ==> ps[i].bet == 0 && ps[i].committed == 0
    ensures Nets(ps, n) == TotalChips(ps, n) - StartChips(ps, n)
  {
    if n > 0 { NetsOfTotals(ps, n - 1); }
  }

  // A finished hand has moved chips among its players only.
  lemma {:induction false} NetsBalance(h: State)
    requires Inv(h) && h.phase == Result
    ensures Nets(h.players, |h.players|) == 0
  {
    NetsOfTotals(h.players, |h.players|);
  }

  // ---- what holds between commands --------------------------------------------------------------

  predicate InProgress(hand: MaybeHand) { hand.Dealt? && hand.h.phase != Result }

  ghost predicate ChairsFine(seats: seq<Chair>) {
    && |seats| == MAX_SEATS
    && (forall i :: 0 <= i < |seats| && seats[i].Taken? ==>
          seats[i].p.stack >= 0 && (seats[i].p.status == BustedOut ==> seats[i].p.stack == 0))
    && (forall i, j :: 0 <= i < j < |seats| && seats[i].Taken? && seats[j].Taken? ==> seats[i].p.id != seats[j].p.id)
  }

  // Player k of the hand still sits where they were dealt in, with the chips they started with.
  ghost predicate StillSeated(seats: seq<Chair>, h: State, ids: seq<int>, k: nat)
    requires k < |h.players| == |ids|
  {
    var q := h.players[k];
    && 0 <= q.seat < |seats| && seats[q.seat].Taken?
    && seats[q.seat].p.id == ids[k] && seats[q.seat].p.inHand && seats[q.seat].p.stack == q.startStack > 0
  }

  // The start stacks are those of the players of the hand.
  ghost predicate StartsFine(h: State, starts: map<int, int>) {
    && (forall k :: 0 <= k < |h.players| ==>
        h.players[k].seat in starts && starts[h.players[k].seat] == h.players[k].startStack)
    && (forall x :: x in starts ==> Find(h.players, x) >= 0)
  }

  ghost predicate InHandFine(seats: seq<Chair>, h: State, starts: map<int, int>, ids: seq<int>) {
    && |ids| == |h.players|
    && (forall k :: 0 <= k < |ids| ==> StillSeated(seats, h, ids, k))
    && StartsFine(h, starts)
    && (forall i :: 0 <= i < |seats| && seats[i].Taken? && (seats[i].p.inHand || seats[i].p.leaving) ==>
        Find(h.players, i) >= 0)
  }

  ghost predicate NobodyLeaving(seats: seq<Chair>) {
    forall i :: 0 <= i < |seats| && seats[i].Taken? ==> !seats[i].p.leaving
  }

  ghost predicate NobodyInHand(seats: seq<Chair>) {
    forall i :: 0 <= i < |seats| && seats[i].Taken? ==> !seats[i].p.inHand
  }

  ghost predicate HandFine(seats: seq<Chair>, hand: MaybeHand, starts: map<int, int>, ids: seq<int>) {
    match hand
    case NoHand => NobodyLeaving(seats) && NobodyInHand(seats)
    case Dealt(h) => Inv(h) && if h.phase == Result then NobodyLeaving(seats) else InHandFine(seats, h, starts, ids)
  }

  // ---- changes to one chair ------------------------------------------------------------------------

  // Replacing a chair by one with the same player, whose chips and part in the hand are as before.
  ghost predicate SameSeat(c: Chair, d: Chair) {
    c.Taken? && d.Taken? && d.p.id == c.p.id && d.p.stack == c.p.stack && d.p.inHand == c.p.inHand
  }

  lemma {:induction false} ChairKept(seats: seq<Chair>, i: nat, d: Chair)
    requires ChairsFine(seats) && i < |seats| && SameSeat(seats[i], d)
    requires d.p.status == BustedOut ==> d.p.stack == 0
    ensures ChairsFine(seats[i := d]) && Chips(seats[i := d], |seats|) == Chips(seats, |seats|)
  {
    ChipsUpdate(seats, i, d, |seats|);
  }

  // In the middle of a hand a chair may change in any way but these.
  lemma {:induction false} HandUnmoved(seats: seq<Chair>, i: nat, d: Chair, h: State, starts: map<int, int>,
        ids: seq<int>)
    requires InHandFine(seats, h, starts, ids) && i < |seats|
    requires if Find(h.players, i) >= 0 then SameSeat(seats[i], d) else d.Taken? ==> !d.p.inHand && !d.p.leaving
    ensures InHandFine(seats[i := d], h, starts, ids)
  {
    var after := seats[i := d];
    forall k | 0 <= k < |ids| ensures StillSeated(after, h, ids, k) {
      assert StillSeated(seats, h, ids, k);
      IndexOfBound(h.players, i, |h.players|);
    }
  }

  lemma {:induction false} NotInHand(seats: seq<Chair>, h: State, starts: map<int, int>, ids: seq<int>, i: nat)
    requires InHandFine(seats, h, starts, ids) && i < |seats|
    requires seats[i].Taken? ==> !seats[i].p.inHand
    ensures Find(h.players, i) < 0
  {
    IndexOfBound(h.players, i, |h.players|);
    forall k | 0 <= k < |ids| ensures h.players[k].seat != i { assert StillSeated(seats, h, ids, k); }
  }

  // Whoever leaves during a hand is in it.
  lemma {:induction false} LeaverIsIn(seats: seq<Chair>, h: State, starts: map<int, int>, ids: seq<int>, i: nat)
    requires InHandFine(seats, h, starts, ids) && i < |seats| && seats[i].Taken? && seats[i].p.leaving
    ensures seats[i].p.inHand
  {
    var k := Find(h.players, i);
    IndexOfBound(h.players, i, |h.players|);
    assert StillSeated(seats, h, ids, k);
  }

  // The people in the chairs, whatever became of their chips.
  ghost predicate SamePeople(a: seq<Chair>, b: seq<Chair>) {
    |a| == |b| && forall i :: 0 <= i < |a| ==>
      (a[i].Taken? <==> b[i].Taken?) && (a[i].Taken? ==> b[i] == Taken(a[i].p.(stack := b[i].p.stack)))
  }

  // The end stacks of the first k players of the finished hand have been written to their chairs.
  ghost predicate PaidSoFar(a: seq<Chair>, b: seq<Chair>, h: State, k: nat)
    requires k <= |h.players|
  {
    && SamePeople(a, b)
    && (forall j :: 0 <= j < k ==>
        0 <= h.players[j].seat < |b| && b[h.players[j].seat].Taken?
          && b[h.players[j].seat].p.stack == h.players[j].stack)
    && (forall i :: 0 <= i < |a| && (forall j :: 0 <= j < k ==> h.players[j].seat != i) ==> b[i] == a[i])
    && Chips(b, |b|) == Chips(a, |a|) + Nets(h.players, k)
  }

  lemma {:induction false} PayOneStack(a: seq<Chair>, b: seq<Chair>, h: State, starts: map<int, int>, ids: seq<int>,
        k: nat)
    requires InHandFine(a, h, starts, ids) && Seating(h.players) && k < |h.players| && PaidSoFar(a, b, h, k)
    ensures var x := h.players[k].seat;
            && 0 <= x < |b| && b[x].Taken? && b[x] == a[x] && a[x].p.stack == h.players[k].startStack > 0
            && PaidSoFar(a, b[x := Taken(b[x].p.(stack := h.players[k].stack))], h, k + 1)
  {
    var x := h.players[k].seat;
    assert StillSeated(a, h, ids, k);
    assert forall j :: 0 <= j < k ==> h.players[j].seat < x;
    ChipsUpdate(b, x, Taken(b[x].p.(stack := h.players[k].stack)), |b|);
  }

  lemma {:induction false} PaidIsFine(a: seq<Chair>, b: seq<Chair>, h: State, starts: map<int, int>, ids: seq<int>)
    requires InHandFine(a, h, starts, ids) && Inv(h) && h.phase == Result && ChairsFine(a)
    requires PaidSoFar(a, b, h, |h.players|)
    ensures ChairsFine(b) && Chips(b, |b|) == Chips(a, |a|)
  {
    NetsBalance(h);
    forall i | 0 <= i < |b| && b[i].Taken?
      ensures b[i].p.stack >= 0 && (b[i].p.status == BustedOut ==> b[i].p.stack == 0)
    {
      if j :| 0 <= j < |h.players| && h.players[j].seat == i {
        assert StillSeated(a, h, ids, j);
      }
    }
  }

  // Leaving the table with one's chips.
  function Left(c: Chair): Chair { if c.Taken? && c.p.leaving && c.p.inHand then Empty else c }

  // What the end of a hand does to a player's standing.
  function AfterHand(p: Person): Person {
    var q := if p.stack == 0 && p.status == Active then p.(status := BustedOut) else p;
    if !q.sitOutNext then q
    else q.(sitOutNext := false, missed := 0, status := if q.status == Active then SittingOut else q.status)
  }

  function Rested(c: Chair): Chair { if c.Taken? && c.p.inHand then Taken(AfterHand(c.p)) else c }

  function Applied(p: Person, delta: int): Person {
    var stack := p.stack + delta;
    p.(stack := stack, buyIn := if delta > 0 then p.buyIn + delta else p.buyIn,
       status := if stack == 0 && p.status == Active then BustedOut
                 else if stack > 0 && p.status == BustedOut then Active else p.status)
  }

  lemma {:induction false} AppliedFine(seats: seq<Chair>, i: nat, delta: int)
    requires ChairsFine(seats) && i < |seats| && seats[i].Taken? && seats[i].p.stack + delta >= 0
    ensures var after := seats[i := Taken(Applied(seats[i].p, delta))];
            ChairsFine(after) && Chips(after, |after|) == Chips(seats, |seats|) + delta
  {
    ChipsUpdate(seats, i, Taken(Applied(seats[i].p, delta)), |seats|);
  }

  datatype TableCommand =
    | Sit(id: int, wanted: int, open: bool)
    | BuyAgain(id: int)
    | Give(id: int, delta: int)
    | Go(id: int)
    | Move(id: int, seat: int)
    | Rest(id: int)
    | Return(id: int)
    | Arm(id: int, on: bool)
    | Act(id: int, action: Action)
    | TurnOver
    | Switch(running: bool)
    | Configure(settings: Settings)
    | DealHand(draw: nat, shuffled: seq<Card>)
    | InHand(command: Rules.Command)
    | Clear
    | Finish(immediate: bool)
    | Again

  lemma {:induction false} NoChips(seats: seq<Chair>, n: nat)
    requires n <= |seats| && forall i :: 0 <= i < n ==> seats[i] == Empty
    ensures Chips(seats, n) == 0
  {
    if n > 0 { NoChips(seats, n - 1); }
  }

  // ---- the end of a hand -------------------------------------------------------------------------

  function EndStack(h: State, seat: int): int {
    var k := Find(h.players, seat);
    if k < 0 then 0 else h.players[k].stack
  }

  // The chair once the hand is over: the player of the hand has their end stack, or has left.
  function Settled(c: Chair, i: int, h: State): Chair {
    if c.Taken? && c.p.inHand then Left(Rested(Taken(c.p.(stack := EndStack(h, i))))) else c
  }

  function SettledChairs(seats: seq<Chair>, h: State): (r: seq<Chair>)
    ensures |r| == |seats|
  {
    seq(|seats|, i requires 0 <= i < |seats| => Settled(seats[i], i, h))
  }

  // Statuses are settled and leavers gone.
  ghost predicate Dismissed(paid: seq<Chair>, after: seq<Chair>) {
    |after| == |paid| && forall i :: 0 <= i < |after| ==> after[i] == Left(Rested(paid[i]))
  }

  // The players of the hand, and nobody else, hold their end stacks.
  ghost predicate PaidOff(before: seq<Chair>, paid: seq<Chair>, h: State) {
    |paid| == |before| && forall i :: 0 <= i < |before| ==>
      paid[i] ==
      if before[i].Taken? && before[i].p.inHand then Taken(before[i].p.(stack := EndStack(h, i))) else before[i]
  }

  lemma {:induction false} PaidExactly(before: seq<Chair>, paid: seq<Chair>, h: State, starts: map<int, int>,
        ids: seq<int>)
    requires InHandFine(before, h, starts, ids) && PaidSoFar(before, paid, h, |h.players|)
    ensures PaidOff(before, paid, h)
  {
    forall i | 0 <= i < |before|
      ensures paid[i] ==
              if before[i].Taken? && before[i].p.inHand then Taken(before[i].p.(stack := EndStack(h, i))) else before[i]
    {
      IndexOfBound(h.players, i, |h.players|);
      if before[i].Taken? && before[i].p.inHand {
        var k := Find(h.players, i);
        assert h.players[k].seat == i && paid[i].p.stack == h.players[k].stack;
      } else {
        NotInHand(before, h, starts, ids, i);
      }
    }
  }

  lemma {:induction false} SettledExactly(before: seq<Chair>, paid: seq<Chair>, after: seq<Chair>, h: State,
        starts: map<int, int>, ids: seq<int>)
    requires InHandFine(before, h, starts, ids) && PaidOff(before, paid, h) && Dismissed(paid, after)
    ensures after == SettledChairs(before, h) && NobodyLeaving(after)
  {
    forall i | 0 <= i < |before|
      ensures after[i] == Settled(before[i], i, h) && (after[i].Taken? ==> !after[i].p.leaving)
    {
      if before[i].Taken? && before[i].p.leaving { LeaverIsIn(before, h, starts, ids, i); }
    }
  }

  lemma {:induction false} SeatInHand(seats: seq<Chair>, h: State, starts: map<int, int>, ids: seq<int>, i: nat)
    requires InHandFine(seats, h, starts, ids) && i < |seats| && seats[i].Taken? && seats[i].p.inHand
    ensures Find(h.players, i) >= 0 && h.players[Find(h.players, i)].seat == i
  {
    IndexOfBound(h.players, i, |h.players|);
  }

  // What the players make of it: everybody dealt in holds their end stack, unless they have left
  // and taken it with them; nobody else's chair has changed.
  lemma {:induction false} SettledMeans(seats: seq<Chair>, h: State, starts: map<int, int>, ids: seq<int>)
    requires InHandFine(seats, h, starts, ids) && Seating(h.players)
    ensures var after := SettledChairs(seats, h);
            && (forall k :: 0 <= k < |h.players| ==>
                  var q := h.players[k];
                  && 0 <= q.seat < |seats| && seats[q.seat].Taken?
                  && if seats[q.seat].p.leaving then after[q.seat] == Empty
                     else after[q.seat].Taken? && after[q.seat].p.id == ids[k] && after[q.seat].p.stack == q.stack)
            && (forall i :: 0 <= i < |seats| && Find(h.players, i) < 0 ==> after[i] == seats[i])
  {
    forall k | 0 <= k < |h.players| ensures StillSeated(seats, h, ids, k) && Find(h.players, h.players[k].seat) == k {
      assert StillSeated(seats, h, ids, k);
      IndexOfBound(h.players, h.players[k].seat, |h.players|);
    }
  }

  // ---- queued chip changes ----------------------------------------------------------------------------

  // The chair of the player among the first n; -1 when there is none.
  function ChairOf(seats: seq<Chair>, id: int, n: nat): int
    requires n <= |seats|
  {
    if n == 0 then -1
    else
      var i := ChairOf(seats, id, n - 1);
      if i >= 0 then i else if seats[n - 1].Taken? && seats[n - 1].p.id == id then n - 1 else -1
  }

  lemma {:induction false} ChairFound(seats: seq<Chair>, id: int, n: nat)
    requires n <= |seats|
    ensures var i := ChairOf(seats, id, n);
            && -1 <= i < n
            && (i >= 0 ==> seats[i].Taken? && seats[i].p.id == id)
            && (i < 0 ==> forall j :: 0 <= j < n && seats[j].Taken? ==> seats[j].p.id != id)
  {
    if n > 0 { ChairFound(seats, id, n - 1); }
  }

  // The player's chair at the table; -1 when they are not seated.
  function Sitting(seats: seq<Chair>, id: int): (i: int)
    ensures -1 <= i < |seats|
    ensures i >= 0 ==> seats[i].Taken? && seats[i].p.id == id
    ensures i < 0 ==> Absent(seats, id)
  {
    ChairFound(seats, id, |seats|);
    ChairOf(seats, id, |seats|)
  }

  // What the table does with one change: nothing for somebody who has gone, nor when the stack
  // would fall below zero.
  predicate Grants(seats: seq<Chair>, a: Adjust) {
    var i := Sitting(seats, a.id);
    i >= 0 && seats[i].p.stack + a.delta >= 0
  }

  function AdjustOne(seats: seq<Chair>, a: Adjust): (r: seq<Chair>)
    ensures |r| == |seats|
  {
    var i := Sitting(seats, a.id);
    if Grants(seats, a) then seats[i := Taken(Applied(seats[i].p, a.delta))] else seats
  }

  function AdjustAll(seats: seq<Chair>, changes: seq<Adjust>, n: nat): (r: seq<Chair>)
    requires n <= |changes|
    ensures |r| == |seats|
  {
    if n == 0 then seats else AdjustOne(AdjustAll(seats, changes, n - 1), changes[n - 1])
  }

  // The chips that the first n changes have brought to the table.
  function Granted(seats: seq<Chair>, changes: seq<Adjust>, n: nat): int
    requires n <= |changes|
  {
    if n == 0 then 0
    else
      Granted(seats, changes, n - 1) +
      if Grants(AdjustAll(seats, changes, n - 1), changes[n - 1]) then changes[n - 1].delta else 0
  }

  // Changing chips seats nobody and removes nobody.
  lemma {:induction false} AdjustKeepsPeople(seats: seq<Chair>, changes: seq<Adjust>, n: nat)
    requires n <= |changes|
    ensures var r := AdjustAll(seats, changes, n);
            forall i :: 0 <= i < |seats| ==>
              (r[i].Taken? <==> seats[i].Taken?) && (r[i].Taken? ==> r[i].p.id == seats[i].p.id)
  {
    if n > 0 {
      AdjustKeepsPeople(seats, changes, n - 1);
    }
  }

  // ---- the end of a round ---------------------------------------------------------------------------------

  function SeatedCount(seats: seq<Chair>, n: nat): (c: nat)
    requires n <= |seats|
    ensures c <= n
  {
    if n == 0 then 0 else SeatedCount(seats, n - 1) + if seats[n - 1].Taken? then 1 else 0
  }

  function HolderCount(seats: seq<Chair>, n: nat): (c: nat)
    requires n <= |seats|
    ensures c <= SeatedCount(seats, n)
  {
    if n == 0 then 0 else HolderCount(seats, n - 1) + if seats[n - 1].Taken? && seats[n - 1].p.stack > 0 then 1 else 0
  }

  // Without rebuys the round is over when at most one of two or more players has chips.
  predicate RoundOver(seats: seq<Chair>, allowRebuy: bool) {
    !allowRebuy && SeatedCount(seats, |seats|) >= 2 && HolderCount(seats, |seats|) <= 1
  }

  // ---- turns ------------------------------------------------------------------------------------------------

  // Whether sitting out folds a hand: not one that is folded or all-in already.
  predicate CanFold(h: State, seat: int) {
    var k := Find(h.players, seat); k >= 0 && !h.players[k].folded && !h.players[k].allIn
  }

  // A turn was missed; after too many the player sits out from the next hand on.
  function Missed(p: Person, sitOutAfter: int): Person {
    p.(missed := p.missed + 1, sitOutNext := p.sitOutNext || p.missed + 1 >= sitOutAfter)
  }

  ghost predicate Absent(seats: seq<Chair>, id: int) {
    forall i :: 0 <= i < |seats| && seats[i].Taken? ==> seats[i].p.id != id
  }

  function Newcomer(id: int, money: int): Person {
    Person(id, money, money, Active, false, false, 0, false, false, -1, false, 0)
  }

  function Rebought(p: Person, money: int): Person {
    p.(stack := money, buyIn := p.buyIn + money, status := Active)
  }

  // The engine changes neither seats nor start stacks.
  lemma {:induction false} InHandOn(seats: seq<Chair>, h: State, r: State, starts: map<int, int>, ids: seq<int>)
    requires InHandFine(seats, h, starts, ids) && Lineage(h, r)
    ensures InHandFine(seats, r, starts, ids)
  {
    forall k | 0 <= k < |h.players| ensures Kin(h.players[k], r.players[k]) { }
    forall k | 0 <= k < |ids| ensures StillSeated(seats, r, ids, k) {
      assert StillSeated(seats, h, ids, k) && Kin(h.players[k], r.players[k]);
    }
    forall x ensures Find(r.players, x) == Find(h.players, x) { SameSeatsFind(h.players, r.players, x, |h.players|); }
    forall k | 0 <= k < |r.players|
      ensures r.players[k].seat in starts && starts[r.players[k].seat] == r.players[k].startStack
    {
      assert Kin(h.players[k], r.players[k]);
    }
  }

  lemma {:induction false} StepFine(seats: seq<Chair>, h: State, c: Rules.Command, starts: map<int, int>, ids: seq<int>)
    requires Inv(h) && InHandFine(seats, h, starts, ids)
    ensures Inv(Rules.After(h, c)) && InHandFine(seats, Rules.After(h, c), starts, ids)
  {
    StepKeeps(h, c);
    InHandOn(seats, h, Rules.After(h, c), starts, ids);
  }

  // Somebody new, or a mover who is not in the hand, takes a free chair.
  lemma {:induction false} FreeChairTaken(seats: seq<Chair>, i: nat, d: Chair, hand: MaybeHand, starts: map<int, int>,
        ids: seq<int>)
    requires HandFine(seats, hand, starts, ids) && i < |seats| && seats[i] == Empty
    requires d.Taken? ==> !d.p.inHand && !d.p.leaving
    ensures HandFine(seats[i := d], hand, starts, ids)
  {
    if InProgress(hand) {
      NotInHand(seats, hand.h, starts, ids, i);
      HandUnmoved(seats, i, d, hand.h, starts, ids);
    }
  }

  // A change to a chair that leaves its player, their chips and their part in the hand alone.
  lemma {:induction false} KeepChair(seats: seq<Chair>, i: nat, d: Chair, hand: MaybeHand, starts: map<int, int>,
        ids: seq<int>)
    requires ChairsFine(seats) && HandFine(seats, hand, starts, ids) && i < |seats| && SameSeat(seats[i], d)
    requires d.p.leaving == seats[i].p.leaving && (d.p.status == BustedOut ==> d.p.stack == 0)
    ensures ChairsFine(seats[i := d]) && HandFine(seats[i := d], hand, starts, ids)
    ensures Chips(seats[i := d], |seats|) == Chips(seats, |seats|)
  {
    ChairKept(seats, i, d);
    if InProgress(hand) {
      if Find(hand.h.players, i) < 0 { OutsiderIsOut(seats, hand.h, starts, ids, i); }
      HandUnmoved(seats, i, d, hand.h, starts, ids);
    }
  }

  lemma {:induction false} OutsiderIsOut(seats: seq<Chair>, h: State, starts: map<int, int>, ids: seq<int>, i: nat)
    requires InHandFine(seats, h, starts, ids) && i < |seats| && seats[i].Taken? && Find(h.players, i) < 0
    ensures !seats[i].p.inHand && !seats[i].p.leaving
  {
  }

  // Hands between two seat changes of a player.
  const COOLDOWN := 3

  function Asked(p: Person, seat: int, handNumber: int): Person {
    p.(pendingSeat := seat, owesDeadBlind := true, lastMove := handNumber)
  }

  // The player in chair i has asked for the free seat; in a running hand of theirs they wait.
  ghost predicate MovedTo(before: seq<Chair>, after: seq<Chair>, id: int, i: int, seat: int, handNumber: int,
        inProgress: bool) {
    && 0 <= i < |before| == |after| && before[i].Taken? && before[i].p.id == id
    && 0 <= seat < |before| && before[seat] == Empty
    && var p := Asked(before[i].p, seat, handNumber);
       after == if inProgress && p.inHand then before[i := Taken(p)]
                else before[i := Empty][seat := Taken(p.(pendingSeat := -1))]
  }

  // The chairs after the player in chair i has tried to move.
  function Reseated(seats: seq<Chair>, i: nat, maxPlayers: nat): seq<Chair>
    requires i < |seats| && seats[i].Taken? && maxPlayers <= |seats|
  {
    var to := seats[i].p.pendingSeat;
    var q := Taken(seats[i].p.(pendingSeat := -1));
    if to < 0 || to >= maxPlayers || seats[to] != Empty then seats[i := q] else seats[i := Empty][to := q]
  }

  lemma {:induction false} AskedMoves(seats: seq<Chair>, i: nat, seat: nat, handNumber: int, maxPlayers: nat)
    requires i < |seats| && seats[i].Taken? && seat < maxPlayers <= |seats| && seats[seat] == Empty
    ensures var p := Asked(seats[i].p, seat, handNumber);
            Reseated(seats[i := Taken(p)], i, maxPlayers) == seats[i := Empty][seat := Taken(p.(pendingSeat := -1))]
  {
  }

  predicate Reserved(seats: seq<Chair>, seat: int) {
    exists i :: 0 <= i < |seats| && seats[i].Taken? && seats[i].p.pendingSeat == seat
  }

  // Whether the player in chair i may ask for the seat.
  predicate MayAsk(seats: seq<Chair>, i: nat, seat: int, maxPlayers: nat, handNumber: int)
    requires i < |seats| && seats[i].Taken? && maxPlayers <= |seats|
  {
    var p := seats[i].p;
    && 0 <= seat < maxPlayers && seat != i && seats[seat] == Empty && !Reserved(seats, seat)
    && p.pendingSeat < 0 && (p.lastMove == 0 || handNumber - p.lastMove >= COOLDOWN)
  }

  // Everybody waiting in chair k or later has tried to move, chair by chair.
  function MoveWaiting(seats: seq<Chair>, k: nat, maxPlayers: nat): (r: seq<Chair>)
    requires maxPlayers <= |seats|
    ensures |r| == |seats|
    decreases |seats| - k
  {
    if k >= |seats| then seats
    else
      var next := if seats[k].Taken? && seats[k].p.pendingSeat >= 0 then Reseated(seats, k, maxPlayers) else seats;
      MoveWaiting(next, k + 1, maxPlayers)
  }

  predicate Present(seats: seq<Chair>, p: Person) {
    exists j :: 0 <= j < |seats| && seats[j].Taken? && seats[j].p.(pendingSeat := p.pendingSeat) == p
  }

  lemma {:induction false} PresentOn(a: seq<Chair>, b: seq<Chair>, p: Person)
    requires Present(a, p) && forall j :: 0 <= j < |a| && a[j].Taken? ==> Present(b, a[j].p)
    ensures Present(b, p)
  {
    var j :| 0 <= j < |a| && a[j].Taken? && a[j].p.(pendingSeat := p.pendingSeat) == p;
    var k :| 0 <= k < |b| && b[k].Taken? && b[k].p.(pendingSeat := a[j].p.pendingSeat) == a[j].p;
    assert b[k].p.(pendingSeat := p.pendingSeat) == p;
  }

  lemma {:induction false} MoverStays(seats: seq<Chair>, k: nat, maxPlayers: nat, i: nat)
    requires k < |seats| && seats[k].Taken? && maxPlayers <= |seats| && i < |seats| && seats[i].Taken?
    ensures Present(Reseated(seats, k, maxPlayers), seats[i].p)
  {
    var r := Reseated(seats, k, maxPlayers);
    var j := if i == k && r[k] == Empty then seats[k].p.pendingSeat else i;
    assert r[j].p.(pendingSeat := seats[i].p.pendingSeat) == seats[i].p;
  }

  // Everybody is still at the table after the moves.
  lemma {:induction false} NobodyLost(seats: seq<Chair>, k: nat, maxPlayers: nat)
    requires maxPlayers <= |seats|
    ensures forall i :: 0 <= i < |seats| && seats[i].Taken? ==> Present(MoveWaiting(seats, k, maxPlayers), seats[i].p)
    decreases |seats| - k
  {
    if k >= |seats| {
      forall i | 0 <= i < |seats| && seats[i].Taken? ensures Present(seats, seats[i].p) {
        assert seats[i].p.(pendingSeat := seats[i].p.pendingSeat) == seats[i].p;
      }
    } else if seats[k].Taken? && seats[k].p.pendingSeat >= 0 {
      var next := Reseated(seats, k, maxPlayers);
      NobodyLost(next, k + 1, maxPlayers);
      forall i | 0 <= i < |seats| && seats[i].Taken? ensures Present(MoveWaiting(seats, k, maxPlayers), seats[i].p) {
        MoverStays(seats, k, maxPlayers, i);
        PresentOn(next, MoveWaiting(seats, k, maxPlayers), seats[i].p);
      }
    } else {
      NobodyLost(seats, k + 1, maxPlayers);
      assert MoveWaiting(seats, k, maxPlayers) == MoveWaiting(seats, k + 1, maxPlayers);
    }
  }

  predicate NoneWaits(seats: seq<Chair>, n: nat)
    requires n <= |seats|
  {
    forall i :: 0 <= i < n && seats[i].Taken? ==> seats[i].p.pendingSeat < 0
  }

  // And nobody waits any longer, moved or not.
  lemma {:induction false} NobodyWaits(seats: seq<Chair>, k: nat, maxPlayers: nat)
    requires maxPlayers <= |seats|
    requires k <= |seats| && NoneWaits(seats, k)
    ensures NoneWaits(MoveWaiting(seats, k, maxPlayers), |seats|)
    decreases |seats| - k
  {
    if k < |seats| {
      var next := if seats[k].Taken? && seats[k].p.pendingSeat >= 0 then Reseated(seats, k, maxPlayers) else seats;
      NobodyWaits(next, k + 1, maxPlayers);
      assert MoveWaiting(seats, k, maxPlayers) == MoveWaiting(next, k + 1, maxPlayers);
    }
  }

  function Dropped(c: Chair): Chair { if c.Taken? && c.p.leaving then Empty else c }

  function Released(c: Chair): Chair { if c.Taken? then Taken(c.p.(inHand := false)) else c }

  function ReleasedAll(seats: seq<Chair>): (r: seq<Chair>)
    ensures |r| == |seats|
  {
    seq(|seats|, i requires 0 <= i < |seats| => Released(seats[i]))
  }

  function DroppedAll(seats: seq<Chair>): (r: seq<Chair>)
    ensures |r| == |seats|
  {
    seq(|seats|, i requires 0 <= i < |seats| => Dropped(seats[i]))
  }

  // A player who is in no running hand moves to a free chair.
  lemma {:induction false} MoveFine(seats: seq<Chair>, i: nat, to: nat, q: Person, hand: MaybeHand, starts: map<int,
        int>, ids: seq<int>)
    requires ChairsFine(seats) && HandFine(seats, hand, starts, ids)
    requires i < |seats| && to < |seats| && seats[i].Taken? && seats[to] == Empty
    requires InProgress(hand) ==> !seats[i].p.inHand
    requires q.id == seats[i].p.id && q.stack == seats[i].p.stack && q.inHand == seats[i].p.inHand
    requires q.leaving == seats[i].p.leaving && q.status == seats[i].p.status
    ensures var after := seats[i := Empty][to := Taken(q)];
            && ChairsFine(after) && HandFine(after, hand, starts, ids) && Chips(after, |seats|) == Chips(seats, |seats|)
  {
    var mid := seats[i := Empty];
    ChipsUpdate(seats, i, Empty, |seats|);
    ChipsUpdate(mid, to, Taken(q), |seats|);
    if InProgress(hand) {
      NotInHand(seats, hand.h, starts, ids, i);
      OutsiderIsOut(seats, hand.h, starts, ids, i);
      HandUnmoved(seats, i, Empty, hand.h, starts, ids);
      NotInHand(mid, hand.h, starts, ids, to);
      HandUnmoved(mid, to, Taken(q), hand.h, starts, ids);
    }
  }

  // ---- who is dealt in ---------------------------------------------------------------------------------

  predicate CanPlay(c: Chair) { c.Taken? && c.p.status == Active && c.p.stack > 0 }

  // The players in the first n chairs who can play, by seat.
  ghost predicate Listed(seats: seq<Chair>, list: seq<Seat>, n: nat) {
    && n <= |seats|
    && (forall k :: 0 <= k < |list| ==>
        0 <= list[k].seat < n && CanPlay(seats[list[k].seat]) && list[k].stack == seats[list[k].seat].p.stack)
    && (forall j, k :: 0 <= j < k < |list| ==> list[j].seat < list[k].seat)
    && (forall i :: 0 <= i < n && CanPlay(seats[i]) ==> InList(list, i))
  }

  predicate InList(list: seq<Seat>, seat: int) { exists k :: 0 <= k < |list| && list[k].seat == seat }

  lemma {:induction false} ListedNext(seats: seq<Chair>, list: seq<Seat>, i: nat)
    requires Listed(seats, list, i) && i < |seats| && CanPlay(seats[i])
    ensures Listed(seats, list + [Seat(i, seats[i].p.stack)], i + 1)
  {
    var more := list + [Seat(i, seats[i].p.stack)];
    forall j | 0 <= j < i + 1 && CanPlay(seats[j]) ensures InList(more, j) {
      if j == i {
        assert more[|list|].seat == j;
      } else {
        var k :| 0 <= k < |list| && list[k].seat == j;
        assert more[k].seat == j;
      }
    }
  }

  // How far clockwise the seat is from the button, going once round at most.
  function Distance(button: int, seat: int): int
  {
    if seat > button then seat - button else seat + MAX_SEATS - button
  }

  // The seat d places clockwise from the button is in the list.
  predicate SitsAt(list: seq<Seat>, button: int, d: int) { InList(list, (button + d) % MAX_SEATS) }

  // The button's next seat: one of the list, and the first of them clockwise when there was a
  // button before.
  ghost predicate NextAfter(button: int, list: seq<Seat>, seat: int) {
    && InList(list, seat)
    && (0 <= button < MAX_SEATS ==> forall d :: 1 <= d < Distance(button, seat) ==> !SitsAt(list, button, d))
  }

  lemma {:induction false} AroundTheTable(button: int, list: seq<Seat>, k: nat)
    requires 0 <= button < MAX_SEATS && k < |list| && 0 <= list[k].seat < MAX_SEATS
    ensures var d := Distance(button, list[k].seat);
            1 <= d <= MAX_SEATS && SitsAt(list, button, d) && (button + d) % MAX_SEATS == list[k].seat
  {
    assert (button + Distance(button, list[k].seat)) % MAX_SEATS == list[k].seat;
  }

  // The first place clockwise where somebody of the list sits.
  lemma {:induction false} FirstFound(button: int, list: seq<Seat>, d: int)
    requires 0 <= button < MAX_SEATS && 1 <= d <= MAX_SEATS && SitsAt(list, button, d)
    requires forall e :: 1 <= e < d ==> !SitsAt(list, button, e)
    ensures NextAfter(button, list, (button + d) % MAX_SEATS)
  {
    assert Distance(button, (button + d) % MAX_SEATS) == d;
  }

  // The players dealt a hand are in it, and no longer owe a dead blind.
  function DealtIn(seats: seq<Chair>, list: seq<Seat>): (r: seq<Chair>)
    ensures |r| == |seats|
  {
    seq(|seats|, i requires 0 <= i < |seats| =>
      if seats[i].Taken? && InList(list, i) then Taken(seats[i].p.(inHand := true)) else seats[i])
  }

  function DebtsCleared(seats: seq<Chair>, list: seq<Seat>): (r: seq<Chair>)
    ensures |r| == |seats|
  {
    seq(|seats|, i requires 0 <= i < |seats| =>
      if seats[i].Taken? && InList(list, i) then Taken(seats[i].p.(owesDeadBlind := false)) else seats[i])
  }

  // How far ClearDebts has come after the first k of the list.
  ghost predicate ClearedSoFar(before: seq<Chair>, seats: seq<Chair>, list: seq<Seat>, dead: map<int, int>,
        bigBlind: int, k: nat)
    requires k <= |list|
  {
    && |seats| == |before|
    && (forall j :: 0 <= j < k ==> 0 <= list[j].seat < |seats| && before[list[j].seat].Taken?
                                   && seats[list[j].seat] == Taken(before[list[j].seat].p.(owesDeadBlind := false)))
    && (forall i :: 0 <= i < |seats| && (forall j :: 0 <= j < k ==> list[j].seat != i) ==> seats[i] == before[i])
    && (forall x :: x in dead ==>
        dead[x] == bigBlind && exists j :: 0 <= j < k && list[j].seat == x && before[x].p.owesDeadBlind)
    && (forall j :: 0 <= j < k && before[list[j].seat].p.owesDeadBlind ==> list[j].seat in dead)
  }

  lemma {:induction false} ClearNext(before: seq<Chair>, seats: seq<Chair>, list: seq<Seat>, dead: map<int, int>,
        bigBlind: int, k: nat)
    requires k < |list| && ClearedSoFar(before, seats, list, dead, bigBlind, k)
    requires forall i, j :: 0 <= i < j < |list| ==> list[i].seat < list[j].seat
    requires 0 <= list[k].seat < |seats| && seats[list[k].seat].Taken?
    ensures var x := list[k].seat;
            && seats[x] == before[x]
            && ClearedSoFar(before, seats[x := Taken(before[x].p.(owesDeadBlind := false))], list,
                            if before[x].p.owesDeadBlind then dead[x := bigBlind] else dead, bigBlind, k + 1)
  {
    var x := list[k].seat;
    assert forall j :: 0 <= j < k ==> list[j].seat < x;
    var more := if before[x].p.owesDeadBlind then dead[x := bigBlind] else dead;
    forall y | y in more
      ensures more[y] == bigBlind && exists j :: 0 <= j < k + 1 && list[j].seat == y && before[y].p.owesDeadBlind
    {
      if y == x && before[x].p.owesDeadBlind {
        assert list[k].seat == y;
      } else {
        var j :| 0 <= j < k && list[j].seat == y && before[y].p.owesDeadBlind;
      }
    }
  }

  lemma {:induction false} ClearedExactly(before: seq<Chair>, seats: seq<Chair>, list: seq<Seat>, dead: map<int, int>,
        bigBlind: int)
    requires ClearedSoFar(before, seats, list, dead, bigBlind, |list|)
    ensures seats == DebtsCleared(before, list) && DebtsOf(dead, before, list, bigBlind)
  {
    forall i | 0 <= i < |seats| ensures seats[i] == DebtsCleared(before, list)[i] {
      if InList(list, i) {
        var j :| 0 <= j < |list| && list[j].seat == i;
      }
    }
    forall x
      ensures x in dead <==> InList(list, x) && 0 <= x < |before| && before[x].Taken? && before[x].p.owesDeadBlind
    {
      if InList(list, x) {
        var j :| 0 <= j < |list| && list[j].seat == x;
      }
    }
  }

  lemma {:induction false} ClearedListed(seats: seq<Chair>, list: seq<Seat>, n: nat)
    requires Listed(seats, list, n)
    ensures Listed(DebtsCleared(seats, list), list, n)
  {
  }

  function SeatKey(button: int): Seat -> int { (s: Seat) => Distance(button, s.seat) }

  function ClockwiseFrom(button: int, list: seq<Seat>): seq<Seat> { Sorting.SortBy(list, SeatKey(button)) }

  // The list of the table's seats, started after the button, is the order of the engine.
  lemma {:induction false} ClockwiseIsTheDeal(button: int, list: seq<Seat>, b: nat)
    requires forall j, k :: 0 <= j < k < |list| ==> list[j].seat < list[k].seat
    requires forall k :: 0 <= k < |list| ==> 0 <= list[k].seat < MAX_SEATS
    requires b < |list| && list[b].seat == button
    ensures var r := ClockwiseFrom(button, list);
            |r| == |list| && forall m :: 0 <= m < |r| ==> r[m] == list[Around(b, m, |list|)]
  {
    var round := list[b + 1..] + list[..b + 1];
    RoundRises(button, list, b);
    SameMembers(list, b + 1);
    Sorting.SortKeeps(list, SeatKey(button));
    Sorting.SortOrders(list, SeatKey(button));
    Sorting.OneOrder(round, ClockwiseFrom(button, list), SeatKey(button));
  }

  lemma {:induction false} SameMembers(list: seq<Seat>, k: nat)
    requires k <= |list|
    ensures multiset(list[k..] + list[..k]) == multiset(list)
  {
    assert list == list[..k] + list[k..];
  }

  lemma {:induction false} RoundRises(button: int, list: seq<Seat>, b: nat)
    requires forall j, k :: 0 <= j < k < |list| ==> list[j].seat < list[k].seat
    requires forall k :: 0 <= k < |list| ==> 0 <= list[k].seat < MAX_SEATS
    requires b < |list| && list[b].seat == button
    ensures Sorting.Rising(list[b + 1..] + list[..b + 1], SeatKey(button))
  {
    var round := list[b + 1..] + list[..b + 1];
    forall i, j | 0 <= i < j < |round| ensures SeatKey(button)(round[i]) < SeatKey(button)(round[j]) {
      var x := Around(b, i, |list|);
      var y := Around(b, j, |list|);
      assert round[i] == list[x] && round[j] == list[y];
      assert x > b ==> list[x].seat > button;
      assert y > b ==> list[y].seat > button;
    }
  }

  // The straddler: third from the button, when armed and able to pay.
  function Straddler(settings: Settings, seats: seq<Chair>, button: int, list: seq<Seat>): int {
    if !settings.allowStraddle || |list| < 3 then -1
    else
      Sorting.SortElements(list, SeatKey(button));
      var utg := ClockwiseFrom(button, list)[2].seat;
      if 0 <= utg < |seats| && seats[utg].Taken? && seats[utg].p.straddleNext
        && seats[utg].p.stack > 2 * settings.bigBlind then utg
      else -1
  }

  // The straddler the table names sits where the engine looks for one: after the big blind.
  lemma {:induction false} StraddlerFollowsBigBlind(settings: Settings, seats: seq<Chair>, button: int,
        list: seq<Seat>, b: nat)
    requires forall j, k :: 0 <= j < k < |list| ==> list[j].seat < list[k].seat
    requires forall k :: 0 <= k < |list| ==> 0 <= list[k].seat < MAX_SEATS
    requires b < |list| && list[b].seat == button
    requires Straddler(settings, seats, button, list) >= 0
    ensures var n := |list|;
            n >= 3 && list[Next(Next(Next(b, n), n), n)].seat == Straddler(settings, seats, button, list)
  {
    ClockwiseIsTheDeal(button, list, b);
    assert Around(b, 2, |list|) == Next(Next(Next(b, |list|), |list|), |list|);
  }

  // A player who owes a dead blind and is dealt in posts a big blind.
  ghost predicate DebtsOf(dead: map<int, int>, seats: seq<Chair>, list: seq<Seat>, bigBlind: int) {
    && (forall x :: x in dead <==> InList(list, x) && 0 <= x < |seats| && seats[x].Taken? && seats[x].p.owesDeadBlind)
    && (forall x :: x in dead ==> dead[x] == bigBlind)
  }

  function ConfigOf(settings: Settings, seats: seq<Chair>, button: int, list: seq<Seat>, dead: map<int, int>): Config {
    var straddler := Straddler(settings, seats, button, list);
    Config(settings.smallBlind, settings.bigBlind, settings.ante, button, settings.policy, dead,
           straddler, if straddler >= 0 then 2 * settings.bigBlind else 0, settings.variant)
  }

  // The hand's players are those of the list.
  ghost predicate DealtTo(h: State, list: seq<Seat>) {
    && |h.players| == |list|
    && forall k :: 0 <= k < |list| ==> h.players[k].seat == list[k].seat && h.players[k].startStack == list[k].stack
  }

  lemma {:induction false} NewHandMatches(cfg: Config, list: seq<Seat>, shuffled: seq<Card>)
    requires SaneConfig(cfg, list) && Rules.NewHand(cfg, list, shuffled).Done?
    ensures SeatsMatch(Seated(cfg, list), Rules.NewHand(cfg, list, shuffled).state.players)
  {
    NewHandStarts(cfg, list, shuffled);
    OpenedWell(cfg, list, shuffled);
    var ps := Seated(cfg, list);
    var b := ButtonIndex(cfg, ps);
    var s := Opened(cfg, list, shuffled);
    SameSeatsMatch(ps, s.players);
    DealHolesKeeps(s, b);
    var s1 := DealHoles(s, b);
    SettleKeeps(s1, FirstToAct(s1, b), true);
    SameSeatsMatch(s1.players, Settle(s1, FirstToAct(s1, b)).players);
    MatchOn(ps, s.players, s1.players, Rules.NewHand(cfg, list, shuffled).state.players);
  }

  ghost function Settle(s: State, first: nat): State
    requires first < |s.players|
  {
    Rules.Settle(s, first, true)
  }

  lemma {:induction false} MatchOn(a: seq<Player>, b: seq<Player>, c: seq<Player>, d: seq<Player>)
    requires SeatsMatch(a, b) && SeatsMatch(b, c) && SeatsMatch(c, d)
    ensures SeatsMatch(a, d)
  {
  }

  lemma {:induction false} SeatedAsListed(cfg: Config, list: seq<Seat>, h: State)
    requires SeatsMatch(Seated(cfg, list), h.players)
    requires forall j, k :: 0 <= j < k < |list| ==> list[j].seat < list[k].seat
    ensures DealtTo(h, list)
  {
    Sorting.SortedAlready(list, SeatNumber);
    forall k | 0 <= k < |list| ensures h.players[k].seat == list[k].seat && h.players[k].startStack == list[k].stack {
      assert Seated(cfg, list)[k] == NewPlayer(cfg, list[k]);
    }
  }

  // The engine is asked for a hand; it deals to everybody on the list, or declines.
  method AskEngine(cfg: Config, list: seq<Seat>, shuffled: seq<Card>) returns (outcome: Outcome)
    requires cfg.straddleAmount <= 0 || cfg.straddleAmount >= cfg.bigBlind
    requires forall j, k :: 0 <= j < k < |list| ==> list[j].seat < list[k].seat
    ensures outcome == Rules.NewHand(cfg, list, shuffled)
    ensures outcome.Done? <==> Acceptable(cfg, list, shuffled)
    ensures outcome.Done? ==> Inv(outcome.state) && DealtTo(outcome.state, list)
  {
    outcome := Rules.NewHand(cfg, list, shuffled);
    NewHandStarts(cfg, list, shuffled);
    if outcome.Done? {
      FullStraddleIsSane(cfg, list);
      NewHandMatches(cfg, list, shuffled);
      SeatedAsListed(cfg, list, outcome.state);
    }
  }

  lemma {:induction false} MarkedExactly(before: seq<Chair>, seats: seq<Chair>, list: seq<Seat>, starts: map<int, int>,
        ids: seq<int>)
    requires MarkedIn(before, seats, list, starts, ids, |list|)
    ensures seats == DealtIn(before, list)
  {
    forall i | 0 <= i < |seats| ensures seats[i] == DealtIn(before, list)[i] {
      if InList(list, i) {
        var j :| 0 <= j < |list| && list[j].seat == i;
      }
    }
  }

  // The first k of the list have been marked as dealt in.
  ghost predicate MarkedIn(before: seq<Chair>, seats: seq<Chair>, list: seq<Seat>, starts: map<int, int>,
        ids: seq<int>, k: nat) {
    && k <= |list| && |seats| == |before| && |ids| == k
    && (forall j :: 0 <= j < |list| ==> 0 <= list[j].seat < |seats| && before[list[j].seat].Taken?)
    && (forall j :: 0 <= j < k ==>
        seats[list[j].seat] == Taken(before[list[j].seat].p.(inHand := true)) && ids[j] == before[list[j].seat].p.id
                                   && list[j].seat in starts && starts[list[j].seat] == list[j].stack)
    && (forall x :: x in starts ==> exists j :: 0 <= j < k && list[j].seat == x)
    && (forall i :: 0 <= i < |seats| && (forall j :: 0 <= j < k ==> list[j].seat != i) ==> seats[i] == before[i])
  }

  // A player dealt in keeps their chips.
  lemma {:induction false} MarkFine(seats: seq<Chair>, i: nat)
    requires ChairsFine(seats) && i < |seats| && seats[i].Taken?
    ensures var after := seats[i := Taken(seats[i].p.(inHand := true))];
            ChairsFine(after) && Chips(after, |after|) == Chips(seats, |seats|)
  {
    ChipsUpdate(seats, i, Taken(seats[i].p.(inHand := true)), |seats|);
  }

  lemma {:induction false} MarkNext(before: seq<Chair>, seats: seq<Chair>, list: seq<Seat>, starts: map<int, int>,
        ids: seq<int>, k: nat)
    requires MarkedIn(before, seats, list, starts, ids, k) && k < |list|
    requires forall i, j :: 0 <= i < j < |list| ==> list[i].seat < list[j].seat
    ensures var x := list[k].seat;
            && seats[x] == before[x]
            && MarkedIn(before, seats[x := Taken(seats[x].p.(inHand := true))], list,
                        starts[x := list[k].stack], ids + [seats[x].p.id], k + 1)
  {
    var x := list[k].seat;
    assert forall j :: 0 <= j < k ==> list[j].seat < x;
    var more := starts[x := list[k].stack];
    forall y | y in more ensures exists j :: 0 <= j < k + 1 && list[j].seat == y {
      if y == x {
        assert list[k].seat == y;
      } else {
        assert y in starts;
        var j :| 0 <= j < k && list[j].seat == y;
      }
    }
  }

  lemma {:induction false} AllMarked(before: seq<Chair>, seats: seq<Chair>, list: seq<Seat>, starts: map<int, int>,
        ids: seq<int>, h: State, n: nat)
    requires Listed(before, list, n) && NobodyLeaving(before) && NobodyInHand(before)
    requires MarkedIn(before, seats, list, starts, ids, |list|) && DealtTo(h, list)
    ensures InHandFine(seats, h, starts, ids)
  {
    forall k | 0 <= k < |ids| ensures StillSeated(seats, h, ids, k) {
      assert seats[list[k].seat] == Taken(before[list[k].seat].p.(inHand := true));
    }
    forall x | x in starts ensures Find(h.players, x) >= 0 {
      IndexOfBound(h.players, x, |h.players|);
      var j :| 0 <= j < |list| && list[j].seat == x;
      assert h.players[j].seat == x;
    }
    forall i | 0 <= i < |seats| && seats[i].Taken? && (seats[i].p.inHand || seats[i].p.leaving)
      ensures Find(h.players, i) >= 0
    {
      IndexOfBound(h.players, i, |h.players|);
      if forall j :: 0 <= j < |list| ==> list[j].seat != i {
        assert seats[i] == before[i];
      } else {
        var j :| 0 <= j < |list| && list[j].seat == i;
        assert h.players[j].seat == i;
      }
    }
  }

  // The start stacks written back by a void are the stacks on the table.
  lemma {:induction false} StartIsStack(seats: seq<Chair>, h: State, starts: map<int, int>, ids: seq<int>, i: nat)
    requires InHandFine(seats, h, starts, ids) && i < |seats|
    ensures i in starts ==> seats[i].Taken? && starts[i] == seats[i].p.stack
    ensures i !in starts && seats[i].Taken? ==> !seats[i].p.inHand
  {
    IndexOfBound(h.players, i, |h.players|);
    if i in starts {
      assert StillSeated(seats, h, ids, Find(h.players, i));
    }
  }
}
