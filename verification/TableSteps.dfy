// Every command to a table as a function on its state, and what each buys in and carries away
// (backend/internal/table/table.go and hand.go). The class in Table.dfy carries them out.

module TableSteps {
  import opened Cards
  import opened HandModel
  import opened TableRules
  import Rules = HandRules

  // The table at a moment, with the chips bought in this round and those carried away.
  datatype Moment = Moment(
    settings: Settings, seats: seq<Chair>, hand: MaybeHand, pending: seq<Adjust>, state: TableState,
    endAfterHand: bool, handNumber: int, roundStart: int, button: int, bought: int, gone: int)

  ghost predicate Sized(m: Moment) { |m.seats| == MAX_SEATS && m.settings.maxPlayers <= MAX_SEATS }

  // ---- the end of a hand -------------------------------------------------------------------------

  // The chips that leave with those who left during the hand, from the first n chairs.
  function LeaverChips(seats: seq<Chair>, h: State, n: nat): int
    requires n <= |seats|
  {
    if n == 0 then 0
    else
      var c := seats[n - 1];
      LeaverChips(seats, h, n - 1) + if c.Taken? && c.p.inHand && c.p.leaving then EndStack(h, n - 1) else 0
  }

  // The chips of those who are about to leave.
  function LeavingChips(seats: seq<Chair>, n: nat): int
    requires n <= |seats|
  {
    if n == 0 then 0
    else
      var c := seats[n - 1];
      LeavingChips(seats, n - 1) + if c.Taken? && c.p.leaving then c.p.stack else 0
  }

  lemma {:induction false} LeaversTake(before: seq<Chair>, paid: seq<Chair>, h: State, n: nat)
    requires PaidOff(before, paid, h) && n <= |before|
    ensures Chips(SettledChairs(before, h), n) + LeaverChips(before, h, n) == Chips(paid, n)
  {
    if n > 0 { LeaversTake(before, paid, h, n - 1); }
  }

  lemma {:induction false} SettledBooks(before: seq<Chair>, paid: seq<Chair>, after: seq<Chair>, h: State,
        starts: map<int, int>, ids: seq<int>)
    requires InHandFine(before, h, starts, ids) && PaidOff(before, paid, h) && Dismissed(paid, after)
    ensures after == SettledChairs(before, h) && NobodyLeaving(after)
    ensures Chips(after, |after|) + LeaverChips(before, h, |before|) == Chips(paid, |paid|)
  {
    SettledExactly(before, paid, after, h, starts, ids);
    LeaversTake(before, paid, h, |before|);
  }

  lemma {:induction false} DroppedTake(seats: seq<Chair>, n: nat)
    requires n <= |seats|
    ensures Chips(DroppedAll(seats), n) + LeavingChips(seats, n) == Chips(seats, n)
  {
    if n > 0 { DroppedTake(seats, n - 1); }
  }

  lemma {:induction false} ReleasedLeave(seats: seq<Chair>, n: nat)
    requires n <= |seats|
    ensures LeavingChips(ReleasedAll(seats), n) == LeavingChips(seats, n)
  {
    if n > 0 { ReleasedLeave(seats, n - 1); }
  }

  lemma {:induction false} DroppedFine(seats: seq<Chair>)
    ensures var r := DroppedAll(ReleasedAll(seats)); NobodyLeaving(r) && NobodyInHand(r)
  {
  }

  predicate Over(hand: MaybeHand) { hand.Dealt? && hand.h.phase == Result }

  // Everybody dealt in holds their end stack or has left with it.
  function PaidMoment(m: Moment): (r: Moment)
    requires m.hand.Dealt?
    ensures |r.seats| == |m.seats|
  {
    m.(seats := SettledChairs(m.seats, m.hand.h), gone := m.gone + LeaverChips(m.seats, m.hand.h, |m.seats|))
  }

  // The queued chip changes are made, and the round may be over.
  function GrantedMoment(m: Moment): (r: Moment)
    ensures |r.seats| == |m.seats|
  {
    var after := AdjustAll(m.seats, m.pending, |m.pending|);
    m.(seats := after, pending := [], bought := m.bought + Granted(m.seats, m.pending, |m.pending|),
       endAfterHand := m.endAfterHand || RoundOver(after, m.settings.allowRebuy))
  }

  // The engine has moved: a hand that is over is settled, then the queued chip changes are made.
  function Stepped(m: Moment): (r: Moment)
    ensures |r.seats| == |m.seats|
  {
    if Over(m.hand) then GrantedMoment(PaidMoment(m)) else m
  }

  lemma {:induction false} LeaverGone(m: Moment, i: nat)
    requires i < |m.seats| && m.seats[i].Taken? && m.seats[i].p.leaving && m.seats[i].p.inHand && Over(m.hand)
    requires forall j :: 0 <= j < |m.seats| && j != i && m.seats[j].Taken? ==> m.seats[j].p.id != m.seats[i].p.id
    ensures Absent(Stepped(m).seats, m.seats[i].p.id)
  {
    AdjustKeepsPeople(SettledChairs(m.seats, m.hand.h), m.pending, |m.pending|);
  }

  // ---- commands to the hand ------------------------------------------------------------------------

  function Put(m: Moment, i: int, p: Person): (r: Moment)
    requires 0 <= i < |m.seats|
    ensures |r.seats| == |m.seats|
  {
    m.(seats := m.seats[i := Taken(p)])
  }

  // The engine's next state.
  function Moved(m: Moment, c: Rules.Command): Moment
    requires m.hand.Dealt?
  {
    m.(hand := Dealt(Rules.After(m.hand.h, c)))
  }

  // Somebody to time out, who has a chair.
  predicate OnClock(m: Moment) {
    && InProgress(m.hand) && m.hand.h.phase == Betting
    && 0 <= m.hand.h.round.toAct < |m.hand.h.players|
    && var i := m.hand.h.players[m.hand.h.round.toAct].seat;
       0 <= i < |m.seats| && m.seats[i].Taken?
  }

  // The player on turn has missed it, and perhaps one too many.
  function OutOfTime(m: Moment): (r: Moment)
    requires OnClock(m)
    ensures |r.seats| == |m.seats| && r.settings == m.settings
  {
    var i := m.hand.h.players[m.hand.h.round.toAct].seat;
    Put(Moved(m, Rules.DoTimeout(i)), i, Missed(m.seats[i].p, m.settings.sitOutAfter))
  }

  predicate PlaysIn(m: Moment, id: int) {
    var i := Sitting(m.seats, id);
    i >= 0 && InProgress(m.hand) && m.seats[i].p.inHand
  }

  predicate MayAct(m: Moment, id: int, a: Action) {
    && m.state != Ended && PlaysIn(m, id)
    && Rules.Step(m.hand.h, Rules.DoApply(Sitting(m.seats, id), a)).Done?
  }

  // The player in chair i has acted, and not missed the turn.
  function Played(m: Moment, i: int, c: Rules.Command): (r: Moment)
    requires m.hand.Dealt? && 0 <= i < |m.seats| && m.seats[i].Taken?
    ensures |r.seats| == |m.seats| && r.settings == m.settings
  {
    Put(Moved(m, c), i, m.seats[i].p.(missed := 0))
  }

  // A command to the hand in play is obeyed by the engine, and what it leaves is settled.
  lemma {:induction false} StaysOpen(m: Moment, c: Rules.Command)
    requires Sized(m) && InProgress(m.hand)
    ensures Obeyed(m, InHand(c)) == Stepped(Moved(m, c))
  {
  }

  lemma {:induction false} ClockRuns(m: Moment)
    requires Sized(m) && OnClock(m)
    ensures Obeyed(m, TableCommand.TurnOver) == Stepped(OutOfTime(m))
  {
  }

  // The lowest of the first n chairs that is free; -1 when there is none.
  function FirstFree(seats: seq<Chair>, n: nat): int
    requires n <= |seats|
  {
    if n == 0 then -1
    else
      var i := FirstFree(seats, n - 1);
      if i >= 0 then i else if seats[n - 1] == Empty then n - 1 else -1
  }

  lemma {:induction false} FreeStays(seats: seq<Chair>, k: nat, n: nat)
    requires k <= n <= |seats| && FirstFree(seats, k) >= 0
    ensures FirstFree(seats, n) == FirstFree(seats, k)
  {
    if k < n { FreeStays(seats, k, n - 1); }
  }

  // Those of the first n chairs who can be dealt in.
  function EligibleIn(seats: seq<Chair>, n: nat): seq<Seat>
    requires n <= |seats|
  {
    if n == 0 then []
    else EligibleIn(seats, n - 1) + if CanPlay(seats[n - 1]) then [Seat(n - 1, seats[n - 1].p.stack)] else []
  }

  // How many places on from the button the next player of the list sits, d places or more.
  function StepsTo(list: seq<Seat>, button: int, d: nat): nat
    decreases MAX_SEATS - d
  {
    if d >= MAX_SEATS || SitsAt(list, button, d) then d else StepsTo(list, button, d + 1)
  }

  function ButtonAfter(button: int, list: seq<Seat>, draw: nat): int
    requires draw < |list|
  {
    if 0 <= button < MAX_SEATS then (button + StepsTo(list, button, 1)) % MAX_SEATS else list[draw].seat
  }

  // It is the first of them, when there is one.
  lemma {:induction false} StepsMean(list: seq<Seat>, button: int, d: nat, k: nat)
    requires d <= k <= MAX_SEATS && SitsAt(list, button, k)
    ensures var s := StepsTo(list, button, d);
            d <= s <= k && SitsAt(list, button, s) && forall e :: d <= e < s ==> !SitsAt(list, button, e)
    decreases k - d
  {
    if d < k && !SitsAt(list, button, d) { StepsMean(list, button, d + 1, k); }
  }

  // One seat comes after the button, and that is where it goes.
  lemma {:induction false} ButtonIsNext(button: int, list: seq<Seat>, draw: nat, seat: int)
    requires draw < |list| && NextAfter(button, list, seat)
    requires forall k :: 0 <= k < |list| ==> 0 <= list[k].seat < MAX_SEATS
    requires !(0 <= button < MAX_SEATS) ==> seat == list[draw].seat
    ensures seat == ButtonAfter(button, list, draw)
  {
    if 0 <= button < MAX_SEATS {
      var k :| 0 <= k < |list| && list[k].seat == seat;
      AroundTheTable(button, list, k);
      StepsMean(list, button, 1, Distance(button, seat));
      assert StepsTo(list, button, 1) == Distance(button, seat);
    }
  }

  lemma {:induction false} ButtonComesNext(button: int, list: seq<Seat>, draw: nat)
    requires draw < |list| && forall k :: 0 <= k < |list| ==> 0 <= list[k].seat < MAX_SEATS
    ensures NextAfter(button, list, ButtonAfter(button, list, draw))
  {
    if 0 <= button < MAX_SEATS {
      AroundTheTable(button, list, draw);
      StepsMean(list, button, 1, Distance(button, list[draw].seat));
      FirstFound(button, list, StepsTo(list, button, 1));
    } else {
      assert list[draw].seat == ButtonAfter(button, list, draw);
    }
  }

  lemma {:induction false} EligibleListed(seats: seq<Chair>, n: nat)
    requires n <= |seats|
    ensures Listed(seats, EligibleIn(seats, n), n)
  {
    if n > 0 {
      EligibleListed(seats, n - 1);
      var list := EligibleIn(seats, n - 1);
      if CanPlay(seats[n - 1]) {
        ListedNext(seats, list, n - 1);
      } else {
        assert EligibleIn(seats, n) == list;
        assert forall i :: 0 <= i < n && CanPlay(seats[i]) ==> i < n - 1;
      }
    }
  }

  predicate Owes(seats: seq<Chair>, i: int) { 0 <= i < |seats| && seats[i].Taken? && seats[i].p.owesDeadBlind }

  // The dead blinds of the first k of the list.
  function Debts(seats: seq<Chair>, list: seq<Seat>, bigBlind: int, k: nat): map<int, int>
    requires k <= |list|
  {
    if k == 0 then map[]
    else
      var dead := Debts(seats, list, bigBlind, k - 1);
      if Owes(seats, list[k - 1].seat) then dead[list[k - 1].seat := bigBlind] else dead
  }

  lemma {:induction false} DebtsMean(seats: seq<Chair>, list: seq<Seat>, bigBlind: int, k: nat, x: int)
    requires k <= |list|
    ensures var d := Debts(seats, list, bigBlind, k);
            && (x in d <==> Owes(seats, x) && exists j :: 0 <= j < k && list[j].seat == x)
            && (x in d ==> d[x] == bigBlind)
  {
    if k > 0 {
      DebtsMean(seats, list, bigBlind, k - 1, x);
      if list[k - 1].seat != x && exists j :: 0 <= j < k && list[j].seat == x {
        var j :| 0 <= j < k && list[j].seat == x;
        assert j < k - 1;
      }
    }
  }

  lemma {:induction false} DebtsExact(dead: map<int, int>, seats: seq<Chair>, list: seq<Seat>, bigBlind: int)
    requires DebtsOf(dead, seats, list, bigBlind)
    ensures dead == Debts(seats, list, bigBlind, |list|)
  {
    var d := Debts(seats, list, bigBlind, |list|);
    forall x ensures (x in dead <==> x in d) && (x in d ==> d[x] == bigBlind) {
      DebtsMean(seats, list, bigBlind, |list|, x);
      assert InList(list, x) <==> exists j :: 0 <= j < |list| && list[j].seat == x;
    }
    assert forall x :: x in dead.Keys <==> x in d.Keys;
    assert dead.Keys == d.Keys;
    assert forall x {:trigger dead[x]} {:trigger d[x]} :: x in dead ==> dead[x] == d[x];
  }

  // The list is dealt the hand, or the engine has declined.
  function Answered(m: Moment, list: seq<Seat>, button: int, outcome: Outcome): (r: Moment)
    ensures |r.seats| == |m.seats| && r.settings == m.settings
  {
    match outcome
    case Rejected(_) => m.(state := Paused)
    case Done(h) =>
      m.(seats := DealtIn(m.seats, list), hand := Dealt(h), handNumber := m.handNumber + 1, button := button)
  }

  // The settings of the hand, with the button moved on and the debts called in.
  function HandConfig(m: Moment, list: seq<Seat>, draw: nat): Config
    requires list != []
  {
    ConfigOf(m.settings, DebtsCleared(m.seats, list), ButtonAfter(m.button, list, if draw < |list| then draw else 0),
             list, Debts(m.seats, list, m.settings.bigBlind, |list|))
  }

  // Who is dealt in: the active players with chips. The button goes to the first of them
  // clockwise, and whoever owes a dead blind among them posts a big blind.
  lemma {:induction false} HandConfigMeans(m: Moment, draw: nat)
    requires Sized(m) && EligibleIn(m.seats, m.settings.maxPlayers) != []
    ensures var list := EligibleIn(m.seats, m.settings.maxPlayers); var cfg := HandConfig(m, list, draw);
            && Listed(m.seats, list, m.settings.maxPlayers) && NextAfter(m.button, list, cfg.button)
            && DebtsOf(cfg.deadBlinds, m.seats, list, m.settings.bigBlind)
  {
    var list := EligibleIn(m.seats, m.settings.maxPlayers);
    EligibleListed(m.seats, m.settings.maxPlayers);
    ButtonComesNext(m.button, list, if draw < |list| then draw else 0);
    forall x
      ensures var d := Debts(m.seats, list, m.settings.bigBlind, |list|);
              && (x in d <==> InList(list, x) && Owes(m.seats, x)) && (x in d ==> d[x] == m.settings.bigBlind)
    {
      DebtsMean(m.seats, list, m.settings.bigBlind, |list|, x);
    }
  }

  // A hand is dealt, but nothing has been settled yet.
  function HandBegun(m: Moment, draw: nat, shuffled: seq<Card>): (r: Moment)
    requires Sized(m)
    ensures Sized(r)
  {
    var list := EligibleIn(m.seats, m.settings.maxPlayers);
    if m.hand != NoHand || m.state != Running || |list| < 2 then m
    else
      var cfg := HandConfig(m, list, draw);
      Answered(m.(seats := DebtsCleared(m.seats, list)), list, cfg.button, Rules.NewHand(cfg, list, shuffled))
  }

  // What a command has done when the engine has moved, and nothing has been settled yet.
  function AtEngine(m: Moment, c: TableCommand): (r: Moment)
    requires Sized(m)
    ensures Sized(r)
  {
    match c
    case Act(id, action) =>
      var i := Sitting(m.seats, id);
      if MayAct(m, id, action) then Played(m, i, Rules.DoApply(i, action)) else m
    case TurnOver =>
      if OnClock(m) then OutOfTime(m) else m
    case Go(id) =>
      var i := Sitting(m.seats, id);
      if !PlaysIn(m, id) then m else Put(Moved(m, Rules.DoForfeit(i)), i, m.seats[i].p.(leaving := true))
    case Rest(id) =>
      var i := Sitting(m.seats, id);
      if m.state == Ended || i < 0 || m.seats[i].p.status != Active then m
      else
        var resting := Put(m, i, m.seats[i].p.(status := SittingOut));
        if PlaysIn(m, id) && CanFold(m.hand.h, i) then Moved(resting, Rules.DoForfeit(i)) else resting
    case InHand(command) => if InProgress(m.hand) then Moved(m, command) else m
    case DealHand(draw, shuffled) => HandBegun(m, draw, shuffled)
    case _ => m
  }

  // The command brings the hand to its end.
  predicate EndsHand(m: Moment, c: TableCommand)
    requires Sized(m)
  {
    !Over(m.hand) && Over(AtEngine(m, c).hand)
  }

  // ---- players come and go --------------------------------------------------------------------------

  function SeatFor(m: Moment, wanted: int): (seat: int)
    requires Sized(m)
  {
    if wanted < 0 then FirstFree(m.seats, m.settings.maxPlayers)
    else if wanted < m.settings.maxPlayers && m.seats[wanted] == Empty then wanted else -1
  }

  predicate MaySit(m: Moment, id: int, wanted: int, open: bool)
    requires Sized(m)
  {
    Sitting(m.seats, id) < 0 && m.state != Ended && open && 0 <= SeatFor(m, wanted) < |m.seats|
  }

  predicate MayRebuy(m: Moment, id: int) {
    var i := Sitting(m.seats, id);
    m.state != Ended && i >= 0 && m.settings.allowRebuy && m.seats[i].p.status == BustedOut && !InProgress(m.hand)
  }

  predicate MayGive(m: Moment, id: int, delta: int) {
    m.state != Ended && Sitting(m.seats, id) >= 0 && delta != 0 && !m.settings.tournament
  }

  // The change is made at once: between hands, and when it leaves no stack below zero.
  predicate Gives(m: Moment, id: int, delta: int) {
    MayGive(m, id, delta) && !InProgress(m.hand) && Grants(m.seats, Adjust(id, delta))
  }

  predicate SeatsLocked(m: Moment) { m.settings.tournament && (m.state != Waiting || m.handNumber > m.roundStart) }

  function Asking(m: Moment, id: int, seat: int): (r: Moment)
    requires Sized(m)
    ensures Sized(r)
  {
    var i := Sitting(m.seats, id);
    if m.state == Ended || i < 0 || SeatsLocked(m)
      || !MayAsk(m.seats, i, seat, m.settings.maxPlayers, m.handNumber) then m
    else
      var p := Asked(m.seats[i].p, seat, m.handNumber);
      if PlaysIn(m, id) then Put(m, i, p)
      else m.(seats := m.seats[i := Empty][seat := Taken(p.(pendingSeat := -1))])
  }

  function StartedOver(seats: seq<Chair>, money: int): (r: seq<Chair>)
    ensures |r| == |seats|
  {
    seq(|seats|, i requires 0 <= i < |seats| =>
      if seats[i].Taken? then Taken(Newcomer(seats[i].p.id, money)) else Empty)
  }

  function Closed(m: Moment): Moment { m.(hand := NoHand, state := Ended, seats := ReleasedAll(m.seats)) }

  // The finished hand is cleared away; then the round ends, or those who wait try to move.
  function Cleared(m: Moment): (r: Moment)
    requires Sized(m)
    ensures Sized(r)
  {
    var r := m.(hand := NoHand, seats := ReleasedAll(m.seats));
    if m.endAfterHand then Closed(r.(endAfterHand := false))
    else r.(seats := MoveWaiting(r.seats, 0, m.settings.maxPlayers))
  }

  // The running hand is called off; whoever was leaving goes with their chips.
  function Voided(m: Moment): Moment {
    m.(hand := NoHand, seats := DroppedAll(ReleasedAll(m.seats)),
       gone := m.gone + LeavingChips(m.seats, |m.seats|))
  }

  function Restarted(m: Moment): Moment {
    var s := m.settings;
    var seats := StartedOver(m.seats, s.startMoney);
    Moment(s.(smallBlind := s.startSmallBlind, bigBlind := s.startBigBlind, ante := s.startAnte),
           seats, NoHand, [], Waiting, false, m.handNumber, m.handNumber, -1, Chips(seats, |seats|), 0)
  }

  // Commands that bring chips to a seat, move the engine on, set something, or end the round.
  predicate Buys(c: TableCommand) { c.BuyAgain? || c.Give? }

  predicate Runs(c: TableCommand) { c.TurnOver? || c.InHand? }

  predicate Sets(c: TableCommand) { c.Switch? || c.Configure? }

  predicate Ends(c: TableCommand) { c.Finish? || c.Again? }

  // ---- every command -----------------------------------------------------------------------------------

  function Obeyed(m: Moment, c: TableCommand): (r: Moment)
    requires Sized(m)
    ensures Sized(r)
  {
    match c
    case Sit(id, wanted, open) =>
      if !MaySit(m, id, wanted, open) then m
      else
        Put(m, SeatFor(m, wanted), Newcomer(id, m.settings.startMoney)).(bought := m.bought + m.settings.startMoney)
    case BuyAgain(id) =>
      var i := Sitting(m.seats, id);
      if !MayRebuy(m, id) then m
      else Put(m, i, Rebought(m.seats[i].p, m.settings.startMoney)).(bought := m.bought + m.settings.startMoney)
    case Give(id, delta) =>
      if Gives(m, id, delta) then m.(seats := AdjustOne(m.seats, Adjust(id, delta)), bought := m.bought + delta)
      else if MayGive(m, id, delta) && InProgress(m.hand) then m.(pending := m.pending + [Adjust(id, delta)])
      else m
    case Go(id) =>
      var i := Sitting(m.seats, id);
      if PlaysIn(m, id) then Stepped(AtEngine(m, c))
      else if i < 0 then m
      else m.(seats := m.seats[i := Empty], gone := m.gone + m.seats[i].p.stack)
    case Move(id, seat) => Asking(m, id, seat)
    case Return(id) =>
      var i := Sitting(m.seats, id);
      if m.state == Ended || i < 0 || m.seats[i].p.status != SittingOut then m
      else Put(m, i, m.seats[i].p.(status := if m.seats[i].p.stack == 0 then BustedOut else Active, missed := 0))
    case Arm(id, on) =>
      var i := Sitting(m.seats, id);
      if m.state == Ended || i < 0 || (on && !m.settings.allowStraddle) then m
      else Put(m, i, m.seats[i].p.(straddleNext := on))
    case Switch(running) => if m.state == Ended then m else m.(state := if running then Running else Paused)
    case Configure(settings) =>
      if settings.startMoney >= 0 && settings.maxPlayers <= MAX_SEATS then m.(settings := settings) else m
    case Clear =>
      if Over(m.hand) then Cleared(m) else m
    case Finish(immediate) =>
      if m.state == Ended then m
      else if !InProgress(m.hand) then Closed(m)
      else if immediate then Closed(Voided(m)) else m.(endAfterHand := true)
    case Again => if m.state == Ended then Restarted(m) else m
    case _ => if Over(m.hand) then AtEngine(m, c) else Stepped(AtEngine(m, c))
  }

  function TableRun(m: Moment, cs: seq<TableCommand>): (r: Moment)
    requires Sized(m)
    ensures Sized(r)
  {
    if cs == [] then m else Obeyed(TableRun(m, cs[..|cs| - 1]), cs[|cs| - 1])
  }

  // ---- the money ---------------------------------------------------------------------------------------

  // Whether the command starts a new round, with new books.
  predicate Renews(m: Moment, c: TableCommand) { c == Again && m.state == Ended }

  // The chips a command brings to the table: what a player buys in with, what the host gives, and
  // when it ends a hand what the host has given during it.
  function BroughtBy(m: Moment, c: TableCommand): int
    requires Sized(m)
  {
    match c
    case Sit(id, wanted, open) => if MaySit(m, id, wanted, open) then m.settings.startMoney else 0
    case BuyAgain(id) => if MayRebuy(m, id) then m.settings.startMoney else 0
    case Give(id, delta) => if Gives(m, id, delta) then delta else 0
    case _ =>
      if !EndsHand(m, c) then 0
      else
        var r := AtEngine(m, c);
        Granted(SettledChairs(r.seats, r.hand.h), r.pending, |r.pending|)
  }

  // The chips carried away: the stack of whoever goes, at once, or at the end of the hand they
  // leave during, or when it is called off.
  function CarriedBy(m: Moment, c: TableCommand): int
    requires Sized(m)
  {
    if EndsHand(m, c) then
      var r := AtEngine(m, c);
      LeaverChips(r.seats, r.hand.h, |r.seats|)
    else
      match c
      case Go(id) =>
        var i := Sitting(m.seats, id);
        if i >= 0 && !PlaysIn(m, id) then m.seats[i].p.stack else 0
      case Finish(immediate) =>
        if immediate && m.state != Ended && InProgress(m.hand) then LeavingChips(m.seats, |m.seats|) else 0
      case _ => 0
  }

  // Chips brought in and carried away.
  datatype Money = Money(brought: int, carried: int)

  function MoneyAfter(m: Moment, c: TableCommand, money: Money): Money
    requires Sized(m)
  {
    if Renews(m, c) then Money(Chips(Restarted(m).seats, |m.seats|), 0)
    else Money(money.brought + BroughtBy(m, c), money.carried + CarriedBy(m, c))
  }

  // What the commands have brought in and carried away, command by command, since the last new
  // round.
  function Ledger(m: Moment, cs: seq<TableCommand>): Money
    requires Sized(m)
  {
    if cs == [] then Money(m.bought, m.gone)
    else MoneyAfter(TableRun(m, cs[..|cs| - 1]), cs[|cs| - 1], Ledger(m, cs[..|cs| - 1]))
  }

  lemma {:induction false} BuyMoney(m: Moment, c: TableCommand)
    requires Sized(m) && (c.Sit? || Buys(c))
    ensures var r := Obeyed(m, c); Money(r.bought, r.gone) == MoneyAfter(m, c, Money(m.bought, m.gone))
  {
  }

  lemma {:induction false} PlayMoney(m: Moment, c: TableCommand)
    requires Sized(m) && (c.Act? || c.Rest?)
    ensures var r := Obeyed(m, c); Money(r.bought, r.gone) == MoneyAfter(m, c, Money(m.bought, m.gone))
  {
  }

  lemma {:induction false} ClockMoney(m: Moment, c: TableCommand)
    requires Sized(m) && Runs(c)
    ensures var r := Obeyed(m, c); Money(r.bought, r.gone) == MoneyAfter(m, c, Money(m.bought, m.gone))
  {
  }

  lemma {:induction false} DealMoney(m: Moment, c: TableCommand)
    requires Sized(m) && c.DealHand?
    ensures var r := Obeyed(m, c); Money(r.bought, r.gone) == MoneyAfter(m, c, Money(m.bought, m.gone))
  {
  }

  lemma {:induction false} LeaveMoney(m: Moment, c: TableCommand)
    requires Sized(m) && (c.Go? || Ends(c))
    ensures var r := Obeyed(m, c); Money(r.bought, r.gone) == MoneyAfter(m, c, Money(m.bought, m.gone))
  {
  }

  // Each command changes the books by what it brings and carries away.
  lemma {:induction false} StepMoney(m: Moment, c: TableCommand)
    requires Sized(m)
    ensures var r := Obeyed(m, c); Money(r.bought, r.gone) == MoneyAfter(m, c, Money(m.bought, m.gone))
  {
    if c.Sit? || Buys(c) {
      BuyMoney(m, c);
    } else if c.Act? || c.Rest? {
      PlayMoney(m, c);
    } else if Runs(c) {
      ClockMoney(m, c);
    } else if c.DealHand? {
      DealMoney(m, c);
    } else if c.Go? || Ends(c) {
      LeaveMoney(m, c);
    }
  }

  lemma {:induction false} RunMoney(m: Moment, cs: seq<TableCommand>)
    requires Sized(m)
    ensures Money(TableRun(m, cs).bought, TableRun(m, cs).gone) == Ledger(m, cs)
    decreases |cs|
  {
    if cs != [] {
      RunMoney(m, cs[..|cs| - 1]);
      StepMoney(TableRun(m, cs[..|cs| - 1]), cs[|cs| - 1]);
    }
  }
}
