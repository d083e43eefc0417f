// The observer as the mutable object of the source (type handState in
// backend/cmd/simulate/hand.go): events are folded into its maps one after the other. It is
// proved to derive what Replay specifies.

module EventObserver {
  import opened Cards
  import opened Pots
  import opened HandModel
  import opened Replay
  import HandOptions
  import HandRuns
  import HandStart
  import ReplayRuns
  import Rules = HandRules
  import Sorting

  class HandState {
    const cfg: Config
    const seats: seq<int>
    var chips: Ledger
    var price: Price
    var straddleSeat: int
    var awarded: int
    var started: bool
    var ended: bool
    var ok: bool

    function View(): Derived
      reads this
    {
      Derived(cfg, seats, chips, price, straddleSeat, awarded, started, ended, ok)
    }

    // The seats are kept in order.
    ghost predicate Valid() { Sorting.Ordered(seats, Identity) }

    constructor (cfg: Config, seats: seq<int>)
      ensures Valid() && View() == Observer(cfg, Sorting.SortBy(seats, Identity))
    {
      this.cfg, this.seats := cfg, Sorting.SortBy(seats, Identity);
      Sorting.SortOrders(seats, Identity);
      chips := Ledger(map[], map[], map[], map[], map[]);
      // The first price is that of the blinds, whose events do not say so.
      price := Price(cfg.bigBlind, cfg.bigBlind, cfg.bigBlind, map[], map[]);
      straddleSeat, awarded := -1, 0;
      started, ended, ok := false, false, true;
    }

    method Fail()
      modifies `ok
      ensures !ok
    {
      ok := false;
    }

    // Takes in the next events, one by one.
    method Consume(events: seq<Event>)
      requires Valid()
      modifies this
      ensures View() == ObserveAll(old(View()), events)
    {
      for k := 0 to |events|
        invariant ObserveAll(View(), events[k..]) == ObserveAll(old(View()), events)
      {
        assert events[k..][1..] == events[k + 1..];
        if ended {
          Fail();
        }
        ConsumeOne(events[k]);
      }
    }

    method ConsumeOne(e: Event)
      requires Valid()
      modifies this
      ensures View() == Take(old(View()), e)
    {
      match e {
        case HandStarted(button, sb, bb) => HandStarts(button, sb, bb);
        case AntePosted(seat, amount, allIn) =>
          // An ante leaves the price alone, since it counts as a contribution at once.
          chips := chips.(contrib := Plus(chips.contrib, seat, amount), allIn := chips.allIn[seat := allIn]);
        case BlindPosted(seat, amount, allIn, blind) => Blind(seat, amount, allIn, blind);
        case StreetDealt(_, _, board) =>
          if board != 2 {
            NewStreet();
          }
        case ActionTaken(seat, amount, allIn, kind) => Act(seat, amount, allIn, kind);
        case TimedOut(seat, kind) =>
          if kind == Fold {
            chips := chips.(folded := chips.folded[seat := true]);
          }
          HasActed(seat);
        case UncalledReturned(seat, amount) =>
          chips := chips.(bet := Plus(chips.bet, seat, -amount), allIn := chips.allIn[seat := false]);
        case PotsUpdated(pots) =>
          Collect();
          CheckPots(pots);
        case PotAwarded(_, seat, amount, _) =>
          awarded := awarded + amount;
          chips := chips.(paid := Plus(chips.paid, seat, amount));
        case HandEnded(_) =>
          ended := true;
        case _ =>
      }
    }

    // Checks the announced blinds against where the button is.
    method HandStarts(button: int, sb: int, bb: int)
      modifies `started, `ok
      ensures View() == ObserveStart(old(View()), button, sb, bb)
    {
      if started {
        Fail();
      }
      started := true;
      if |seats| == 0 || button != cfg.button {
        Fail();
        return;
      }
      var wantSB := if |seats| == 2 then button else SeatAfter(seats, button);
      if sb != wantSB || bb != SeatAfter(seats, wantSB) {
        Fail();
      }
    }

    method Blind(seat: int, amount: int, allIn: bool, blind: BlindKind)
      modifies `chips, `price, `straddleSeat
      ensures View() == ObserveBlind(old(View()), seat, amount, allIn, blind)
    {
      if blind == DeadBlind {
        chips := chips.(contrib := Plus(chips.contrib, seat, amount));
      } else {
        chips := chips.(bet := Plus(chips.bet, seat, amount));
      }
      chips := chips.(allIn := chips.allIn[seat := allIn]);
      if blind == StraddleBlind {
        straddleSeat := seat;
        if amount >= cfg.straddleAmount {
          price := price.(
            currentBet := cfg.straddleAmount, raiseSize := cfg.straddleAmount, fullLevel := cfg.straddleAmount);
        } else if amount > price.currentBet {
          price := price.(currentBet := amount);
        }
      }
    }

    method NewStreet()
      modifies `price
      ensures price == Price(0, cfg.bigBlind, 0, map[], map[])
    {
      price := Price(0, cfg.bigBlind, 0, map[], map[]);
    }

    method HasActed(seat: int)
      modifies `price
      ensures price == ActedNow(old(price), seat)
    {
      price := price.(acted := price.acted[seat := true], actedAt := price.actedAt[seat := price.fullLevel]);
    }

    method Act(seat: int, amount: int, allIn: bool, kind: ActionKind)
      modifies `chips, `price
      ensures View() == ObserveAction(old(View()), seat, amount, allIn, kind)
    {
      chips := chips.(allIn := chips.allIn[seat := allIn]);
      match kind {
        case Fold =>
          chips := chips.(folded := chips.folded[seat := true]);
        case Call =>
          // Here the amount is what the call added, not its total.
          chips := chips.(bet := Plus(chips.bet, seat, amount));
        case Bet => SeenBet(seat, amount);
        case Raise => SeenBet(seat, amount);
        case _ =>
      }
      HasActed(seat);
    }

    // The amount is a total here. When it is a full bet or raise everybody may raise again.
    method SeenBet(seat: int, amt: int)
      modifies `chips, `price
      ensures chips == old(chips).(bet := old(chips).bet[seat := amt])
      ensures price == BetPriceSeen(cfg, old(price), amt)
    {
      chips := chips.(bet := chips.bet[seat := amt]);
      var minTo := price.currentBet + price.raiseSize;
      if price.currentBet == 0 {
        minTo := cfg.bigBlind;
      }
      if amt >= minTo {
        price := price.(raiseSize := if price.currentBet == 0 then amt else amt - price.currentBet, fullLevel := amt);
      }
      price := price.(currentBet := amt);
    }

    // At the end of a street every bet becomes part of its seat's contribution.
    method Collect()
      modifies `chips
      ensures chips == Gathered(old(chips))
      ensures forall seat :: Num(chips.contrib, seat) == Num(old(chips).contrib, seat) + Num(old(chips).bet, seat)
      ensures forall seat :: Num(chips.bet, seat) == 0
    {
      ghost var was := chips;
      var todo: set<int> := chips.bet.Keys;
      while exists seat :: seat in todo
        invariant todo <= was.bet.Keys && chips == was.(contrib := chips.contrib, bet := chips.bet)
        invariant PartGathered(was, chips, todo)
        decreases |todo|
      {
        var seat :| seat in todo;
        chips := chips.(contrib := Plus(chips.contrib, seat, chips.bet[seat]), bet := chips.bet[seat := 0]);
        todo := todo - {seat};
      }
      assert todo == {};
      AllGathered(was, chips);
    }

    // The contributions of the seats, the all-in levels among them and the largest still in;
    // sane turns false at a negative one.
    method Tally() returns (sane: bool, levels: seq<int>, maxLive: int, contributed: int)
      ensures var cs := DerivedContributions(View());
              && (sane <==> NonNegative(cs))
              && (sane ==>
                    && contributed == Contributed(cs, |cs|) && maxLive == MaxLive(cs, |cs|)
                    && forall x :: x in levels <==> x > 0 && exists i :: IsAllInLevel(cs, i, x))
    {
      ghost var cs := DerivedContributions(View());
      sane, levels, maxLive, contributed := true, [], 0, 0;
      for n := 0 to |seats|
        invariant sane && forall i :: 0 <= i < n ==> cs[i].total >= 0
        invariant contributed == Contributed(cs, n) && maxLive == MaxLive(cs, n)
        invariant forall x :: x in levels <==> x > 0 && exists i :: i < n && IsAllInLevel(cs, i, x)
      {
        var c := Num(chips.contrib, seats[n]);
        if c < 0 {
          assert cs[n].total < 0;
          return false, levels, maxLive, contributed;
        }
        contributed := contributed + c;
        ghost var before := levels;
        if !Flag(chips.folded, seats[n]) {
          if c > maxLive {
            maxLive := c;
          }
          if Flag(chips.allIn, seats[n]) && c > 0 {
            levels := levels + [c];
          }
        }
        LevelNoted(cs, n, before, levels);
      }
    }

    // One pot: what lies between two heights, and the seats that reached the upper one.
    method SliceSeats(prev: int, level: int) returns (pot: Pot)
      ensures pot == PotBetween(DerivedContributions(View()), prev, level)
    {
      ghost var cs := DerivedContributions(View());
      var amount := 0;
      var eligible: seq<int> := [];
      for n := 0 to |seats|
        invariant amount == Below(cs, level, n) - Below(cs, prev, n)
        invariant eligible == Contenders(cs, level, n)
      {
        var c := Num(chips.contrib, seats[n]);
        amount := amount + (Min(c, level) - Min(c, prev));
        if !Flag(chips.folded, seats[n]) && c >= level {
          eligible := eligible + [seats[n]];
        }
      }
      pot := Pot(amount, Sorting.SortBy(eligible, Identity));
    }

    method SliceLevels(levels: seq<int>, ghost top: int) returns (want: seq<Pot>, distributed: int)
      requires var cs := DerivedContributions(View());
               NonNegative(cs) && top == MaxLive(cs, |cs|) && LevelList(cs, levels, top)
      ensures want == PotsAbove(DerivedContributions(View()), 0, top) && distributed == PotSum(want)
    {
      ghost var cs := DerivedContributions(View());
      want, distributed := [], 0;
      var prev := 0;
      for k := 0 to |levels|
        invariant prev == if k == 0 then 0 else levels[k - 1]
        invariant prev <= top
        invariant want + PotsAbove(cs, prev, top) == PotsAbove(cs, 0, top)
        invariant distributed == PotSum(want)
      {
        var pot := SliceSeats(prev, levels[k]);
        SliceStep(cs, levels, top, k, want);
        prev := levels[k];
        if pot.amount != 0 {
          AppendPot(want, pot);
          want := want + [pot];
          distributed := distributed + pot.amount;
        }
      }
      assert PotsAbove(cs, prev, top) == [];
    }

    method SeatsIn() returns (eligible: seq<int>)
      requires NonNegative(DerivedContributions(View()))
      ensures eligible == Contenders(DerivedContributions(View()), 0, |seats|)
    {
      ghost var cs := DerivedContributions(View());
      eligible := [];
      for n := 0 to |seats|
        invariant eligible == Contenders(cs, 0, n)
      {
        assert cs[n].total >= 0;
        if !Flag(chips.folded, seats[n]) {
          eligible := eligible + [seats[n]];
        }
      }
    }

    // Dead money that no level takes up goes to the last pot, or with none to everybody still in;
    // those are in order already.
    method TopUp(pots: seq<Pot>, rest: int) returns (want: seq<Pot>)
      requires Valid() && NonNegative(DerivedContributions(View()))
      ensures want == WithDeadMoney(DerivedContributions(View()), pots, rest)
    {
      ghost var cs := DerivedContributions(View());
      want := pots;
      if rest > 0 {
        if |pots| == 0 {
          var eligible := SeatsIn();
          SeatsInOrder(cs, seats);
          ContendersInOrder(cs, 0, |cs|);
          Sorting.SortedAlready(eligible, Identity);
          return [Pot(rest, eligible)];
        }
        var last := |pots| - 1;
        want := pots[last := pots[last].(amount := pots[last].amount + rest)];
      }
    }

    // The observer's own layout of the pots, from what it knows of each seat.
    method Rebuild(found: seq<int>, maxLive: int, contributed: int) returns (want: seq<Pot>)
      requires var cs := DerivedContributions(View());
               && NonNegative(cs) && contributed == Contributed(cs, |cs|) && maxLive == MaxLive(cs, |cs|)
               && forall x :: x in found <==> x > 0 && exists i :: IsAllInLevel(cs, i, x)
      requires Valid()
      ensures want == Layout(DerivedContributions(View()))
    {
      ghost var cs := DerivedContributions(View());
      var levels := Levels(found, maxLive, cs);
      var pots, distributed := SliceLevels(levels, maxLive);
      want := TopUp(pots, contributed - distributed);
      NothingPutIn(cs, |cs|);
      NothingIsNothing(cs);
    }

    // Objects to pots that differ from those of its own contributions.
    method CheckPots(got: seq<Pot>)
      requires Valid()
      modifies `ok
      ensures ok <==> old(ok) && PotsFit(View(), got)
    {
      var sane, levels, maxLive, contributed := Tally();
      if !sane {
        Fail();
        return;
      }
      var want := Rebuild(levels, maxLive, contributed);
      var fits := CheckEligible(got);
      if got != want || !fits || PotSum(got) != contributed {
        Fail();
      }
    }

    // No folded seat is listed as able to win a pot.
    method CheckEligible(pots: seq<Pot>) returns (fits: bool)
      ensures fits <==>
        forall k :: 0 <= k < |pots| ==> forall seat :: seat in pots[k].eligible ==> !Flag(chips.folded, seat)
    {
      for k := 0 to |pots|
        invariant forall j :: 0 <= j < k ==> forall seat :: seat in pots[j].eligible ==> !Flag(chips.folded, seat)
      {
        for i := 0 to |pots[k].eligible|
          invariant forall j :: 0 <= j < i ==> !Flag(chips.folded, pots[k].eligible[j])
        {
          if Flag(chips.folded, pots[k].eligible[i]) {
            assert pots[k].eligible[i] in pots[k].eligible;
            return false;
          }
        }
      }
      fits := true;
    }

    // A player may raise unless they acted after the last full bet or raise.
    method MayRaise(seat: int) returns (may: bool)
      ensures may == ReplayRuns.DerivedMayRaise(View(), seat)
    {
      may := !Flag(price.acted, seat) || Num(price.actedAt, seat) < price.fullLevel;
    }

    // The options the events give the seat on turn.
    method WantedOptions(seat: int, bet: int, stack: int) returns (want: HandOptions.Options)
      ensures want == ReplayRuns.DerivedOptions(View(), seat, bet, stack)
    {
      var toCall, maxTo := price.currentBet - bet, bet + stack;
      want := HandOptions.NOTHING.(fold := true);
      if toCall <= 0 {
        want := want.(check := true);
      } else {
        want := want.(call := Min(toCall, stack));
      }
      var may := MayRaise(seat);
      if price.currentBet == 0 {
        if maxTo >= cfg.bigBlind {
          want := want.(raise := HandOptions.Range(cfg.bigBlind, maxTo));
        }
        want := want.(allIn := maxTo);
      } else if may && maxTo > price.currentBet {
        var minTo := price.currentBet + price.raiseSize;
        if maxTo >= minTo {
          want := want.(raise := HandOptions.Range(minTo, maxTo));
        }
        want := want.(allIn := maxTo);
      } else if stack <= toCall {
        want := want.(allIn := maxTo);
      }
    }

    // Compares what the engine says of the player on turn and offers them.
    method CheckOptions(p: Player, currentBet: int, minRaiseTo: int, got: HandOptions.Options)
      modifies `ok
      ensures ok <==> old(ok) && ReplayRuns.OptionsFit(View(), p, currentBet, minRaiseTo, got)
    {
      if p.folded || p.allIn || price.currentBet != currentBet || price.currentBet + price.raiseSize != minRaiseTo {
        Fail();
        return;
      }
      var want := WantedOptions(p.seat, p.bet, p.stack);
      if got != want {
        Fail();
      }
    }
  }

  // All bets but those of the seats in todo have been moved.
  ghost predicate PartGathered(was: Ledger, now: Ledger, todo: set<int>) {
    && (forall x :: x in now.bet <==> x in was.bet)
    && (forall x :: x in was.bet ==> now.bet[x] == if x in todo then was.bet[x] else 0)
    && (forall x :: x in now.contrib <==> x in was.contrib || (x in was.bet && x !in todo))
    && (forall x :: x in now.contrib ==>
        now.contrib[x] == Num(was.contrib, x) + if x in todo then 0 else Num(was.bet, x))
  }

  lemma {:induction false} AllGathered(was: Ledger, now: Ledger)
    requires PartGathered(was, now, {}) && now == was.(contrib := now.contrib, bet := now.bet)
    ensures now == Gathered(was)
    ensures forall x :: Num(now.contrib, x) == Num(was.contrib, x) + Num(was.bet, x) && Num(now.bet, x) == 0
  {
    SameMap(now.contrib, Gathered(was).contrib);
    SameMap(now.bet, Gathered(was).bet);
  }

  lemma {:induction false} SeatsInOrder(cs: seq<Contribution>, seats: seq<int>)
    requires Sorting.Ordered(seats, Identity) && |cs| == |seats|
    requires forall i :: 0 <= i < |cs| ==> cs[i].seat == seats[i]
    ensures forall i, j :: 0 <= i < j < |cs| ==> cs[i].seat <= cs[j].seat
  {
    forall i, j | 0 <= i < j < |cs| ensures cs[i].seat <= cs[j].seat {
      assert Identity(seats[i]) <= Identity(seats[j]);
    }
  }

  // Seats that are in order stay in order when some are left out.
  lemma {:induction false} ContendersInOrder(cs: seq<Contribution>, level: int, n: nat)
    requires n <= |cs| && forall i, j :: 0 <= i < j < |cs| ==> cs[i].seat <= cs[j].seat
    ensures Sorting.Ordered(Contenders(cs, level, n), Identity)
    ensures forall x :: x in Contenders(cs, level, n) ==> exists i :: 0 <= i < n && cs[i].seat == x
  {
    if n > 0 {
      var r, init := Contenders(cs, level, n), Contenders(cs, level, n - 1);
      ContendersInOrder(cs, level, n - 1);
      forall i, j | 0 <= i < j < |r| ensures Identity(r[i]) <= Identity(r[j]) {
        if j < |init| {
          assert Identity(init[i]) <= Identity(init[j]);
        } else {
          assert init[i] in init;
        }
      }
    }
  }

  // Without chips put in nobody has put in the most.
  lemma {:induction false} NothingPutIn(cs: seq<Contribution>, n: nat)
    requires NonNegative(cs) && n <= |cs|
    ensures Contributed(cs, n) >= 0
    ensures Contributed(cs, n) == 0 ==> MaxLive(cs, n) == 0
  {
    if n > 0 { NothingPutIn(cs, n - 1); }
  }

  lemma {:induction false} NothingIsNothing(cs: seq<Contribution>)
    requires Contributed(cs, |cs|) == 0 ==> MaxLive(cs, |cs|) == 0
    ensures var pots := PotsAbove(cs, 0, MaxLive(cs, |cs|));
            WithDeadMoney(cs, pots, Contributed(cs, |cs|) - PotSum(pots)) == Layout(cs)
  {
  }

  lemma {:induction false} SameMap(a: map<int, int>, b: map<int, int>)
    requires forall x :: x in a <==> x in b
    requires forall x :: x in a ==> a[x] == b[x]
    ensures a == b
  {
    assert forall x :: x in a.Keys <==> x in b.Keys;
    assert a.Keys == b.Keys;
    assert forall x {:trigger a[x]} {:trigger b[x]} :: x in a ==> a[x] == b[x];
  }

  // The observer reads the whole log of a run and never objects; at the end it knows whether the
  // hand is over.
  method ReadLog(cfg: Config, seats: seq<Seat>, shuffled: seq<Card>, cs: seq<Rules.Command>) returns (o: HandState)
    requires HandStart.SaneConfig(cfg, seats) && Rules.NewHand(cfg, seats, shuffled).Done?
    ensures var r := Rules.Run(Rules.NewHand(cfg, seats, shuffled).state, cs);
            o.View() == Seen(r) && o.ok && (o.ended <==> r.phase == Result)
  {
    var r := Rules.Run(Rules.NewHand(cfg, seats, shuffled).state, cs);
    HandStart.NewHandStarts(cfg, seats, shuffled);
    HandRuns.RunKeeps(Rules.NewHand(cfg, seats, shuffled).state, cs);
    ReplayRuns.ReplayAgrees(cfg, seats, shuffled, cs);
    o := ReadHand(r);
  }

  method ReadHand(r: State) returns (o: HandState)
    requires HandChips.Seating(r.players)
    ensures o.View() == Seen(r) && o.ok == Seen(r).ok && o.ended == Seen(r).ended
  {
    SeatsRise(r.players);
    Sorting.SortedAlready(SeatsOf(r.players), Identity);
    o := new HandState(r.cfg, SeatsOf(r.players));
    o.Consume(r.log);
  }

  lemma {:induction false} SeatsRise(ps: seq<Player>)
    requires HandChips.Seating(ps)
    ensures Sorting.Ordered(SeatsOf(ps), Identity)
  {
  }
}
