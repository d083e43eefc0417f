// What the observer objects to: blinds that are not next to the button, a second start, anything
// after the end, and once it has objected it stays so.

module ReplayChecks {
  import opened Cards
  import opened Pots
  import opened HandModel
  import opened HandOptions
  import opened Replay
  import opened ReplayRuns
  import opened HandOpenings

  ghost predicate InOrder(seats: seq<int>) { forall i, j :: 0 <= i < j < |seats| ==> seats[i] < seats[j] }

  lemma {:induction false} PlaceFoundAt(seats: seq<int>, i: nat)
    requires InOrder(seats) && i < |seats|
    ensures PlaceOf(seats, seats[i]) == i
    decreases |seats|
  {
    if i < |seats| - 1 { PlaceFoundAt(seats[..|seats| - 1], i); }
  }

  lemma {:induction false} AfterIsNext(seats: seq<int>, i: nat)
    requires InOrder(seats) && i < |seats|
    ensures SeatAfter(seats, seats[i]) == seats[(i + 1) % |seats|]
  {
    PlaceFoundAt(seats, i);
    if i + 1 == |seats| { OnceRound(i + 1, |seats|); } else { SmallMod(i + 1, |seats|); }
  }

  // The first start is accepted exactly with the button of the settings and the blinds next to it,
  // heads-up with the small blind on the button.
  lemma {:induction false} BlindsChecked(d: Derived, b: nat, sb: int, bb: int)
    requires InOrder(d.seats) && b < |d.seats| && |d.seats| >= 2 && d.ok
    ensures ObserveStart(d, d.seats[b], sb, bb).ok <==>
              && !d.started && d.seats[b] == d.cfg.button
              && sb == d.seats[SmallAt(b, |d.seats|)] && bb == d.seats[BigAt(b, |d.seats|)]
  {
    AfterIsNext(d.seats, b);
    AfterIsNext(d.seats, SmallAt(b, |d.seats|));
  }

  // A second start is objected to, and so is every event after the end.
  lemma {:induction false} LateEventsFail(d: Derived, e: Event)
    ensures d.ended || (d.started && e.HandStarted?) ==> !Observe(d, e).ok
    ensures !d.ok ==> !Observe(d, e).ok
  {
  }

  // The contributions once the bets in front have been added.
  function PutIn(d: Derived): seq<Contribution> { DerivedContributions(ObserveCollect(d)) }

  // Published pots are accepted exactly when they are those of the contributions, bets included.
  lemma {:induction false} PotsChecked(d: Derived, pots: seq<Pot>)
    requires InOrder(d.seats) && d.ok && NonNegative(PutIn(d))
    requires exists i :: 0 <= i < |d.seats| && !Flag(d.chips.folded, d.seats[i])
    ensures ObservePots(d, pots).ok <==> pots == Layout(PutIn(d))
    ensures forall i :: 0 <= i < |d.seats| ==>
              PutIn(d)[i].total == Num(d.chips.contrib, d.seats[i]) + Num(d.chips.bet, d.seats[i])
  {
    var cs := PutIn(d);
    var i :| 0 <= i < |d.seats| && !Flag(d.chips.folded, d.seats[i]);
    assert !cs[i].folded;
    LayoutSums(cs);
    forall k, seat | 0 <= k < |Layout(cs)| && seat in Layout(cs)[k].eligible ensures !Flag(d.chips.folded, seat) {
      PotsWinnable(cs, k);
      assert LiveSeat(cs, seat);
    }
  }

  // The player as the observer has followed them on this street.
  function AsFollowed(d: Derived, p: Player): Player {
    p.(hasActed := Flag(d.price.acted, p.seat), actedAt := Num(d.price.actedAt, p.seat))
  }

  // What the engine says of a turn is accepted exactly when its player can act, the price and the
  // least raise are those followed, and the options are those of the rules for them.
  lemma {:induction false} TurnChecked(d: Derived, p: Player, currentBet: int, minRaiseTo: int, got: Options)
    ensures OptionsFit(d, p, currentBet, minRaiseTo, got) <==>
              && !p.folded && !p.allIn
              && currentBet == d.price.currentBet && minRaiseTo == d.price.currentBet + d.price.raiseSize
              && got == OfferedTo(d.cfg, Round(d.price.currentBet, d.price.fullLevel, d.price.raiseSize, -1, -1),
                                  AsFollowed(d, p))
  {
  }
}
