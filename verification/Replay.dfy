// The event log as a second implementation (handState in backend/cmd/simulate/hand.go): it
// re-derives the betting state from the events alone and flags whatever does not fit. In every
// run it agrees with the engine and flags nothing.

module Replay {
  import opened Cards
  import opened Pots
  import opened Payout
  import opened HandModel
  import opened HandRules
  import opened HandChips
  import opened HandInvariant
  import opened HandStart
  import opened HandStakes
  import opened HandOptions
  import Sorting

  // ---- the derivation -------------------------------------------------------------------------------

  // Chips and standing per seat, with Go's zero value for a missing entry. paid splits the
  // amount awarded by seat.
  datatype Ledger = Ledger(
    contrib: map<int, int>, bet: map<int, int>, folded: map<int, bool>, allIn: map<int, bool>, paid: map<int, int>)

  datatype Price = Price(currentBet: int, raiseSize: int, fullLevel: int, acted: map<int, bool>, actedAt: map<int, int>)

  // Everything derived so far. ok turns false at the first violation.
  datatype Derived = Derived(
    cfg: Config, seats: seq<int>, chips: Ledger, price: Price, straddleSeat: int, awarded: int,
    started: bool, ended: bool, ok: bool)

  function Num(m: map<int, int>, seat: int): int { if seat in m then m[seat] else 0 }

  function Flag(m: map<int, bool>, seat: int): bool { seat in m && m[seat] }

  function Plus(m: map<int, int>, seat: int, amount: int): map<int, int> { m[seat := Num(m, seat) + amount] }

  function Observer(cfg: Config, seats: seq<int>): Derived {
    Derived(cfg, seats, Ledger(map[], map[], map[], map[], map[]),
            Price(cfg.bigBlind, cfg.bigBlind, cfg.bigBlind, map[], map[]), -1, 0, false, false, true)
  }

  function PlaceOf(seats: seq<int>, seat: int): int {
    if seats == [] then -1
    else if seats[|seats| - 1] == seat then |seats| - 1
    else PlaceOf(seats[..|seats| - 1], seat)
  }

  // The seat clockwise after seat.
  function SeatAfter(seats: seq<int>, seat: int): int
    requires seats != []
  {
    var i := PlaceOf(seats, seat) + 1;
    if 0 <= i < |seats| then seats[i] else seats[0]
  }

  function ObserveStart(d: Derived, button: int, sb: int, bb: int): Derived {
    var placed := d.seats != [] && button == d.cfg.button &&
      sb == (if |d.seats| == 2 then button else SeatAfter(d.seats, button)) && bb == SeatAfter(d.seats, sb);
    d.(started := true, ok := d.ok && !d.started && placed)
  }

  function StraddlePrice(cfg: Config, r: Price, amount: int): Price {
    if amount >= cfg.straddleAmount then
      r.(currentBet := cfg.straddleAmount, raiseSize := cfg.straddleAmount, fullLevel := cfg.straddleAmount)
    else r.(currentBet := if amount > r.currentBet then amount else r.currentBet)
  }

  function ObserveBlind(d: Derived, seat: int, amount: int, allIn: bool, blind: BlindKind): Derived {
    var c := (if blind == DeadBlind then d.chips.(contrib := Plus(d.chips.contrib, seat, amount))
              else d.chips.(bet := Plus(d.chips.bet, seat, amount))).(allIn := d.chips.allIn[seat := allIn]);
    if blind != StraddleBlind then d.(chips := c)
    else d.(chips := c, straddleSeat := seat, price := StraddlePrice(d.cfg, d.price, amount))
  }

  function BetPriceSeen(cfg: Config, r: Price, amt: int): Price {
    var minTo := if r.currentBet == 0 then cfg.bigBlind else r.currentBet + r.raiseSize;
    if amt < minTo then r.(currentBet := amt)
    else r.(currentBet := amt, raiseSize := if r.currentBet == 0 then amt else amt - r.currentBet, fullLevel := amt)
  }

  function ActedNow(r: Price, seat: int): Price {
    r.(acted := r.acted[seat := true], actedAt := r.actedAt[seat := r.fullLevel])
  }

  function ActionChips(c: Ledger, seat: int, amount: int, kind: ActionKind): Ledger {
    match kind
    case Fold => c.(folded := c.folded[seat := true])
    case Call => c.(bet := Plus(c.bet, seat, amount))
    case Bet => c.(bet := c.bet[seat := amount])
    case Raise => c.(bet := c.bet[seat := amount])
    case _ => c
  }

  function ObserveAction(d: Derived, seat: int, amount: int, allIn: bool, kind: ActionKind): Derived {
    var c := ActionChips(d.chips, seat, amount, kind).(allIn := d.chips.allIn[seat := allIn]);
    var r := if kind == Bet || kind == Raise then BetPriceSeen(d.cfg, d.price, amount) else d.price;
    d.(chips := c, price := ActedNow(r, seat))
  }

  function ObserveTimeout(d: Derived, seat: int, kind: ActionKind): Derived {
    d.(chips := if kind == Fold then d.chips.(folded := d.chips.folded[seat := true]) else d.chips,
       price := ActedNow(d.price, seat))
  }

  // The bets in front go into the contributions.
  function Gathered(c: Ledger): Ledger {
    c.(contrib := map seat | seat in c.contrib.Keys + c.bet.Keys :: Num(c.contrib, seat) + Num(c.bet, seat),
       bet := map seat | seat in c.bet :: 0)
  }

  function ObserveCollect(d: Derived): Derived { d.(chips := Gathered(d.chips)) }

  function DerivedContributions(d: Derived): (cs: seq<Contribution>)
    ensures |cs| == |d.seats|
  {
    seq(|d.seats|, i requires 0 <= i < |d.seats| =>
      var seat := d.seats[i];
      Contribution(seat, Num(d.chips.contrib, seat), Flag(d.chips.folded, seat), Flag(d.chips.allIn, seat)))
  }

  // The published layout is the one the derived contributions give; it lists no folded seat and
  // holds what was contributed.
  predicate PotsFit(d: Derived, pots: seq<Pot>) {
    var cs := DerivedContributions(d);
    && (forall i :: 0 <= i < |cs| ==> cs[i].total >= 0)
    && pots == Layout(cs)
    && (forall k :: 0 <= k < |pots| ==> forall seat :: seat in pots[k].eligible ==> !Flag(d.chips.folded, seat))
    && PotSum(pots) == Contributed(cs, |cs|)
  }

  function ObservePots(d: Derived, pots: seq<Pot>): Derived {
    var d1 := ObserveCollect(d);
    d1.(ok := d.ok && PotsFit(d1, pots))
  }

  function ObserveStreet(d: Derived, board: nat): Derived {
    if board == 2 then d
    else d.(price := Price(0, d.cfg.bigBlind, 0, map[], map[]))
  }

  // One event, apart from the check that none comes after hand_ended.
  function Take(d: Derived, e: Event): Derived {
    var c := d.chips;
    match e
    case HandStarted(button, sb, bb) => ObserveStart(d, button, sb, bb)
    case AntePosted(seat, amount, allIn) =>
      d.(chips := c.(contrib := Plus(c.contrib, seat, amount), allIn := c.allIn[seat := allIn]))
    case BlindPosted(seat, amount, allIn, blind) => ObserveBlind(d, seat, amount, allIn, blind)
    case HoleCardsDealt(_, _, _) => d
    case ActionTaken(seat, amount, allIn, kind) => ObserveAction(d, seat, amount, allIn, kind)
    case TimedOut(seat, kind) => ObserveTimeout(d, seat, kind)
    case UncalledReturned(seat, amount) =>
      d.(chips := c.(bet := Plus(c.bet, seat, -amount), allIn := c.allIn[seat := false]))
    case StreetDealt(_, _, board) => ObserveStreet(d, board)
    case PotsUpdated(pots) => ObservePots(d, pots)
    case HandsRevealed(_) => d
    case Mucked(_) => d
    case PotAwarded(_, seat, amount, _) =>
      d.(awarded := d.awarded + amount, chips := c.(paid := Plus(c.paid, seat, amount)))
    case HandEnded(_) => d.(ended := true)
  }

  function Observe(d: Derived, e: Event): Derived { Take(if d.ended then d.(ok := false) else d, e) }

  function ObserveAll(d: Derived, es: seq<Event>): Derived
    decreases |es|
  {
    if es == [] then d else ObserveAll(Observe(d, es[0]), es[1..])
  }

  lemma {:induction false} ObserveConcat(d: Derived, a: seq<Event>, b: seq<Event>)
    ensures ObserveAll(d, a + b) == ObserveAll(ObserveAll(d, a), b)
    decreases |a|
  {
    if a == [] {
      assert a + b == b;
    } else {
      ObserveConcat(Observe(d, a[0]), a[1..], b);
      assert (a + b)[1..] == a[1..] + b;
    }
  }

  lemma {:induction false} ObserveOne(d: Derived, es: seq<Event>, e: Event)
    ensures ObserveAll(d, es + [e]) == Observe(ObserveAll(d, es), e)
  {
    ObserveConcat(d, es, [e]);
    assert [e][1..] == [];
  }

  // ---- agreement --------------------------------------------------------------------------------------

  function SeatsOf(ps: seq<Player>): (r: seq<int>)
    ensures |r| == |ps|
  {
    seq(|ps|, i requires 0 <= i < |ps| => ps[i].seat)
  }

  // What the log so far has to say.
  function Seen(s: State): Derived { ObserveAll(Observer(s.cfg, SeatsOf(s.players)), s.log) }

  // The derived chips of a player: in front, in the pots and won, and with that the stack.
  predicate SeatAgrees(d: Derived, p: Player) {
    && Num(d.chips.bet, p.seat) == p.bet
    && Num(d.chips.contrib, p.seat) + p.bet == p.startStack - p.stack + p.won
    && Num(d.chips.paid, p.seat) == p.won
    && Flag(d.chips.folded, p.seat) == p.folded
    && (!p.folded ==> Flag(d.chips.allIn, p.seat) == p.allIn)
  }

  ghost predicate ChipsAgree(d: Derived, ps: seq<Player>) {
    d.seats == SeatsOf(ps) && forall i :: 0 <= i < |ps| ==> SeatAgrees(d, ps[i])
  }

  predicate ActedAgrees(d: Derived, p: Player) {
    !p.folded ==>
      Flag(d.price.acted, p.seat) == p.hasActed && (p.hasActed ==> Num(d.price.actedAt, p.seat) == p.actedAt)
  }

  predicate RoundNumbers(r: Price, s: Round) {
    r.currentBet == s.currentBet && r.raiseSize == s.raiseSize && r.fullLevel == s.fullLevel
  }

  ghost predicate RoundAgrees(d: Derived, s: State) {
    && RoundNumbers(d.price, s.round)
    && forall i :: 0 <= i < |s.players| ==> ActedAgrees(d, s.players[i])
  }

  // The log fits the state: nothing flagged, the chips agree and, while betting, the round too.
  ghost predicate Fits(s: State) {
    var d := Seen(s);
    && d.ok && d.cfg == s.cfg && d.started
    && (d.ended <==> s.phase == Result)
    && ChipsAgree(d, s.players)
    && (s.phase == Betting ==> RoundAgrees(d, s))
  }

  // The same, as the log of s is being extended: d is what it says.
  ghost predicate Agreed(d: Derived, s: State) {
    d == Seen(s) && d.ok && !d.ended && d.started && d.cfg == s.cfg && ChipsAgree(d, s.players)
  }

  lemma {:induction false} SeenEmit(s: State, r: State, e: Event)
    requires r.log == s.log + [e] && r.cfg == s.cfg && SeatsOf(r.players) == SeatsOf(s.players)
    ensures Seen(r) == Observe(Seen(s), e)
  {
    ObserveOne(Observer(s.cfg, SeatsOf(s.players)), s.log, e);
  }

  lemma {:induction false} SeenEmitAll(s: State, r: State, es: seq<Event>)
    requires r.log == s.log + es && r.cfg == s.cfg && SeatsOf(r.players) == SeatsOf(s.players)
    ensures Seen(r) == ObserveAll(Seen(s), es)
  {
    ObserveConcat(Observer(s.cfg, SeatsOf(s.players)), s.log, es);
  }

  // Entries of the other seats are untouched.
  ghost predicate SameElsewhere(c: Ledger, c': Ledger, seat: int) {
    forall x :: x != seat ==>
      && Num(c'.bet, x) == Num(c.bet, x) && Num(c'.contrib, x) == Num(c.contrib, x) && Num(c'.paid, x) == Num(c.paid, x)
      && Flag(c'.folded, x) == Flag(c.folded, x) && Flag(c'.allIn, x) == Flag(c.allIn, x)
  }

  lemma {:induction false} AgreeUpdate(d: Derived, d': Derived, ps: seq<Player>, i: nat, q: Player)
    requires Seating(ps) && ChipsAgree(d, ps) && i < |ps| && q.seat == ps[i].seat
    requires d'.seats == d.seats && SameElsewhere(d.chips, d'.chips, q.seat) && SeatAgrees(d', q)
    ensures ChipsAgree(d', ps[i := q]) && SeatsOf(ps[i := q]) == SeatsOf(ps)
  {
    assert SeatsOf(ps[i := q]) == SeatsOf(ps);
    var qs := ps[i := q];
    forall j | 0 <= j < |qs| ensures SeatAgrees(d', qs[j]) {
      if j != i {
        assert ps[j].seat != q.seat;
        assert SeatAgrees(d, ps[j]);
      }
    }
  }

  // ---- posting --------------------------------------------------------------------------------------------

  lemma {:induction false} AnteAgrees(d: Derived, s: State, i: nat)
    requires Agreed(d, s) && Posting(s) && i < |s.players|
    ensures var r := PostAnte(s, i); Agreed(Seen(r), r) && SeatsOf(r.players) == SeatsOf(s.players)
  {
    var r := PostAnte(s, i);
    var e := r.log[|r.log| - 1];
    assert SeatAgrees(d, s.players[i]);
    AgreeUpdate(d, Observe(d, e), s.players, i, r.players[i]);
    SeenEmit(s, r, e);
  }

  lemma {:induction false} DeadAgrees(d: Derived, s: State, i: nat)
    requires Agreed(d, s) && Posting(s) && i < |s.players|
    ensures var r := PostDead(s, i);
            && Agreed(Seen(r), r) && SeatsOf(r.players) == SeatsOf(s.players)
            && (d == Seen(s) ==> Seen(r).price == d.price)
  {
    var r := PostDead(s, i);
    if r != s {
      var e := r.log[|r.log| - 1];
      assert SeatAgrees(d, s.players[i]);
      AgreeUpdate(d, Observe(d, e), s.players, i, r.players[i]);
      SeenEmit(s, r, e);
    }
  }

  lemma {:induction false} BlindObserved(d: Derived, d': Derived, p: Player, q: Player)
    requires SeatAgrees(d, p) && !p.folded
    requires q == p.(stack := q.stack, bet := p.bet + p.stack - q.stack, allIn := q.allIn)
    requires d'.chips ==
             d.chips.(bet := Plus(d.chips.bet, p.seat, p.stack - q.stack), allIn := d.chips.allIn[p.seat := q.allIn])
    ensures SameElsewhere(d.chips, d'.chips, p.seat) && SeatAgrees(d', q)
  {
  }

  // A blind changes the bet and the all-in flag of its seat; a straddle also sets the price.
  lemma {:induction false} BlindAgrees(d: Derived, s: State, i: nat, amount: int, blind: BlindKind)
    requires Agreed(d, s) && Posting(s) && i < |s.players| && blind != DeadBlind
    ensures var r := PostBlind(s, i, amount, blind);
            && Agreed(Seen(r), r) && SeatsOf(r.players) == SeatsOf(s.players)
            && Seen(r).price ==
               if blind != StraddleBlind then d.price
               else StraddlePrice(s.cfg, d.price, Min(amount, s.players[i].stack))
  {
    var p := s.players[i];
    var q := Stake(p, amount);
    var r := PostBlind(s, i, amount, blind);
    var e := BlindPosted(p.seat, p.stack - q.stack, q.allIn, blind);
    assert SeatAgrees(d, p);
    BlindObserved(d, Observe(d, e), p, q);
    AgreeUpdate(d, Observe(d, e), s.players, i, q);
    SeenEmit(s, r, e);
  }

  lemma {:induction false} AntesAgree(s: State, b: nat, m: nat)
    requires Agreed(Seen(s), s) && Posting(s) && NoBets(s.players) && s.cfg.ante >= 0 && b < |s.players|
      && m <= |s.players|
    ensures var r := PostAntes(s, b, m);
            Agreed(Seen(r), r) && Seen(r).price == Seen(s).price && SeatsOf(r.players) == SeatsOf(s.players)
    decreases |s.players| - m
  {
    if m < |s.players| {
      var i := Around(b, m, |s.players|);
      var s1 := PostAnte(s, i);
      AnteAgrees(Seen(s), s, i);
      SeenEmit(s, s1, s1.log[|s1.log| - 1]);
      PostAnteKeeps(s, i);
      AntesAgree(s1, b, m + 1);
    }
  }

  lemma {:induction false} DeadsAgree(s: State, b: nat, m: nat)
    requires Agreed(Seen(s), s) && Posting(s) && NoBets(s.players) && b < |s.players| && m <= |s.players|
    ensures var r := PostDeads(s, b, m);
            Agreed(Seen(r), r) && Seen(r).price == Seen(s).price && SeatsOf(r.players) == SeatsOf(s.players)
    decreases |s.players| - m
  {
    if m < |s.players| {
      var i := Around(b, m, |s.players|);
      var s1 := PostDead(s, i);
      DeadAgrees(Seen(s), s, i);
      PostDeadKeeps(s, i);
      DeadsAgree(s1, b, m + 1);
    }
  }

  // ---- the start ------------------------------------------------------------------------------------------

  lemma {:induction false} PlaceFound(ps: seq<Player>, seats: seq<int>, i: nat)
    requires Seating(ps) && i < |seats| <= |ps| && forall j :: 0 <= j < |seats| ==> seats[j] == ps[j].seat
    ensures PlaceOf(seats, ps[i].seat) == i
    decreases |seats|
  {
    if i < |seats| - 1 { PlaceFound(ps, seats[..|seats| - 1], i); }
  }

  lemma {:induction false} SeatAfterIsNext(ps: seq<Player>, i: nat)
    requires Seating(ps) && i < |ps|
    ensures SeatAfter(SeatsOf(ps), ps[i].seat) == ps[Next(i, |ps|)].seat
  {
    PlaceFound(ps, SeatsOf(ps), i);
  }

  lemma {:induction false} StartAgrees(cfg: Config, seats: seq<Seat>, shuffled: seq<Card>)
    requires Acceptable(cfg, seats, shuffled) && SaneConfig(cfg, seats) && ButtonIndex(cfg, Seated(cfg, seats)) >= 0
    ensures var s := Started(cfg, Seated(cfg, seats), shuffled);
            Agreed(Seen(s), s) && Seen(s).price == Observer(cfg, []).price
  {
    var ps := Seated(cfg, seats);
    var s := Started(cfg, ps, shuffled);
    var b := ButtonIndex(cfg, ps);
    StartedIsPosting(cfg, seats, shuffled);
    IndexOfBound(ps, cfg.button, |ps|);
    SeatAfterIsNext(ps, b);
    SeatAfterIsNext(ps, SmallBlindAt(cfg, ps));
    assert s.log == [HandStarted(cfg.button, s.sbSeat, s.bbSeat)];
    ObserveOne(Observer(cfg, SeatsOf(ps)), [], s.log[0]);
    assert [] + [s.log[0]] == s.log;
    FreshOwnChips(cfg, seats);
    forall i | 0 <= i < |ps| ensures SeatAgrees(Seen(s), ps[i]) {
      assert Worth(ps[i]) == ps[i].startStack && ps[i].bet == 0;
      assert ps[i] == NewPlayer(cfg, Sorting.SortBy(seats, SeatNumber)[i]);
    }
  }

  lemma {:induction false} AntedAgrees(cfg: Config, seats: seq<Seat>, shuffled: seq<Card>)
    requires Acceptable(cfg, seats, shuffled) && SaneConfig(cfg, seats) && ButtonIndex(cfg, Seated(cfg, seats)) >= 0
    ensures var s := Anted(cfg, seats, shuffled);
            Agreed(Seen(s), s) && Seen(s).price == Observer(cfg, []).price
  {
    var ps := Seated(cfg, seats);
    var b := ButtonIndex(cfg, ps);
    var s0 := Started(cfg, ps, shuffled);
    StartAgrees(cfg, seats, shuffled);
    StartedIsPosting(cfg, seats, shuffled);
    var s1 := if cfg.ante > 0 then PostAntes(s0, b, 0) else s0;
    if cfg.ante > 0 {
      PostAntesKeep(s0, b, 0);
      AntesAgree(s0, b, 0);
    }
    DeadsAgree(s1, b, 0);
  }

  lemma {:induction false} BlindsAgree(s: State, sb: nat)
    requires Agreed(Seen(s), s) && Posting(s) && NoBets(s.players) && BlindsAt(s, sb)
    requires Seen(s).price == Observer(s.cfg, []).price
    ensures var r := PostBlinds(s); Agreed(Seen(r), r) && RoundAgrees(Seen(r), r)
  {
    var n := |s.players|;
    var bb := Next(sb, n);
    FindSeat(s.players, sb);
    FindSeat(s.players, bb);
    assert Healthy(s.players[sb]);
    var s1 := PostBlind(s, sb, s.cfg.smallBlind, SmallBlind);
    PostingUpdate(s, sb, Stake(s.players[sb], s.cfg.smallBlind), s1);
    BlindAgrees(Seen(s), s, sb, s.cfg.smallBlind, SmallBlind);
    SameSeatsFind(s.players, s1.players, s.bbSeat, n);
    var s2 := PostBlind(s1, bb, s.cfg.bigBlind, BigBlind);
    BlindAgrees(Seen(s1), s1, bb, s.cfg.bigBlind, BigBlind);
    var r := PostBlinds(s);
    assert Seen(r) == Seen(s2);
    PostBlindsKeep(s, sb);
  }

  lemma {:induction false} StraddleAgrees(s: State, sb: nat)
    requires Agreed(Seen(s), s) && RoundAgrees(Seen(s), s) && Posting(s) && BlindsAt(s, sb)
    ensures var r := PostStraddle(s); Agreed(Seen(r), r) && RoundAgrees(Seen(r), r)
  {
    var n := |s.players|;
    FindSeat(s.players, Next(sb, n));
    var i := Next(Next(sb, n), n);
    var r := PostStraddle(s);
    if r != s {
      var s1 := PostBlind(s, i, s.cfg.straddleAmount, StraddleBlind);
      BlindAgrees(Seen(s), s, i, s.cfg.straddleAmount, StraddleBlind);
      assert Seen(r) == Seen(s1);
      forall j | 0 <= j < n ensures ActedAgrees(Seen(r), r.players[j]) {
        assert ActedAgrees(Seen(s), s.players[j]);
      }
    }
  }

  // Events that say nothing about chips.
  predicate Silent(e: Event) { e.HoleCardsDealt? || e.HandsRevealed? || e.Mucked? }

  lemma {:induction false} SilentObserved(d: Derived, es: seq<Event>)
    requires d.ok && !d.ended && forall i :: 0 <= i < |es| ==> Silent(es[i])
    ensures ObserveAll(d, es) == d
    decreases |es|
  {
    if es != [] {
      assert Silent(es[0]);
      assert Observe(d, es[0]) == d;
      SilentObserved(d, es[1..]);
    }
  }

  // Players that differ in their cards and what they have shown agree alike.
  lemma {:induction false} AgreePointwise(d: Derived, ps: seq<Player>, qs: seq<Player>)
    requires ChipsAgree(d, ps) && |ps| == |qs|
    requires forall i :: 0 <= i < |ps| ==>
      qs[i] == ps[i].(hole0 := qs[i].hole0, hole1 := qs[i].hole1, revealed := qs[i].revealed,
                      mucked := qs[i].mucked, committed := qs[i].committed)
    ensures ChipsAgree(d, qs) && SeatsOf(qs) == SeatsOf(ps)
  {
    assert SeatsOf(qs) == SeatsOf(ps);
    forall i | 0 <= i < |qs| ensures SeatAgrees(d, qs[i]) { assert SeatAgrees(d, ps[i]); }
  }

  lemma {:induction false} HolesAgree(s: State, b: nat)
    requires Agreed(Seen(s), s) && RoundAgrees(Seen(s), s) && b < |s.players| && 2 * |s.players| <= |s.deal.deck|
    ensures var r := DealHoles(s, b); Agreed(Seen(r), r) && RoundAgrees(Seen(r), r)
  {
    var r := DealHoles(s, b);
    AgreePointwise(Seen(s), s.players, r.players);
    var es := HoleEvents(r.players, b);
    SilentObserved(Seen(s), es);
    SeenEmitAll(s, r, es);
    forall j | 0 <= j < |r.players| ensures ActedAgrees(Seen(r), r.players[j]) {
      assert ActedAgrees(Seen(s), s.players[j]);
    }
  }

  // ---- actions --------------------------------------------------------------------------------------------

  // Everybody else's record of having acted is untouched.
  ghost predicate SameActedElsewhere(r: Price, r': Price, seat: int) {
    forall x :: x != seat ==> Flag(r'.acted, x) == Flag(r.acted, x) && Num(r'.actedAt, x) == Num(r.actedAt, x)
  }

  // What the observer makes of an accepted action.
  ghost predicate MoveSeen(d: Derived, d': Derived, q: Player, r: Round) {
    && d' == d.(chips := d'.chips, price := d'.price)
    && SameElsewhere(d.chips, d'.chips, q.seat) && SameActedElsewhere(d.price, d'.price, q.seat)
    && SeatAgrees(d', q) && RoundNumbers(d'.price, r) && ActedAgrees(d', q)
  }

  lemma {:induction false} PlainMoveSeen(d: Derived, r: Round, p: Player, kind: ActionKind)
    requires SeatAgrees(d, p) && RoundNumbers(d.price, r) && !d.ended && !p.folded && (kind == Fold || kind == Check)
    ensures var q := if kind == Fold then p.(folded := true) else p;
            MoveSeen(d, Observe(d, ActionTaken(p.seat, 0, p.allIn, kind)), Acted(q, r.fullLevel), r)
  {
  }

  lemma {:induction false} CallSeen(d: Derived, r: Round, p: Player, add: int)
    requires SeatAgrees(d, p) && RoundNumbers(d.price, r) && !d.ended && !p.folded
    ensures var q := Commit(p, add);
            MoveSeen(d, Observe(d, ActionTaken(p.seat, q.bet - p.bet, q.allIn, Call)), Acted(q, r.fullLevel), r)
  {
  }

  // The round after a bet or raise to amt.
  function NewPrice(cfg: Config, r: Round, amt: int): Round {
    if amt >= (if r.currentBet == 0 then cfg.bigBlind else MinRaiseTo(r)) then
      r.(currentBet := amt, raiseSize := amt - r.currentBet, fullLevel := amt)
    else r.(currentBet := amt)
  }

  lemma {:induction false} BetSeen(d: Derived, r: Round, p: Player, amt: int, kind: ActionKind)
    requires SeatAgrees(d, p) && RoundNumbers(d.price, r) && !d.ended && !p.folded && (kind == Bet || kind == Raise)
    ensures var m := Moved(Commit(p, amt - p.bet), NewPrice(d.cfg, r, amt), kind);
            MoveSeen(d, Observe(d, MoveEvent(p, m)), Acted(m.player, m.round.fullLevel), m.round)
  {
  }

  lemma {:induction false} BetPrice(cfg: Config, r: Round, p: Player, amt: int)
    requires Priced(cfg, r, p)
    ensures PerformBet(cfg, r, p, amt).Moved? ==>
      PerformBet(cfg, r, p, amt) == Moved(Commit(p, amt - p.bet), NewPrice(cfg, r, amt), Bet)
    ensures r.currentBet > 0 && PerformRaise(r, p, amt).Moved? ==>
              PerformRaise(r, p, amt) == Moved(Commit(p, amt - p.bet), NewPrice(cfg, r, amt), Raise)
  {
  }

  // The event the engine emits for an accepted action.
  function MoveEvent(p: Player, m: Performed): Event
    requires m.Moved?
  {
    ActionTaken(p.seat, EventAmount(m.kind, p.bet, m.player), m.player.allIn, m.kind)
  }

  // An accepted action is one of four moves.
  predicate OneOfFour(cfg: Config, r: Round, p: Player, n: Action, m: Performed) {
    || ((n.kind == Bet || n.kind == Raise)
        && m == Moved(Commit(p, n.amount - p.bet), NewPrice(cfg, r, n.amount), n.kind))
    || m == Moved(Commit(p, Min(r.currentBet - p.bet, p.stack)), r, Call)
    || m == Moved(p, r, Check)
    || m == Moved(p.(folded := true), r, Fold)
  }

  lemma {:induction false} PerformIs(cfg: Config, r: Round, p: Player, a: Action)
    requires Priced(cfg, r, p) && Perform(cfg, r, p, a).Moved?
    ensures OneOfFour(cfg, r, p, Meant(r, p, a), Perform(cfg, r, p, a))
  {
    BetPrice(cfg, r, p, Meant(r, p, a).amount);
  }

  // The observer sees the move for what it is.
  ghost predicate SeenAs(d: Derived, p: Player, m: Performed)
    requires m.Moved?
  {
    MoveSeen(d, Observe(d, MoveEvent(p, m)), Acted(m.player, m.round.fullLevel), m.round)
  }

  lemma {:induction false} RaisedSeen(d: Derived, r: Round, p: Player, n: Action, m: Performed)
    requires SeatAgrees(d, p) && RoundNumbers(d.price, r) && !d.ended && !p.folded && (n.kind == Bet || n.kind == Raise)
    requires m == Moved(Commit(p, n.amount - p.bet), NewPrice(d.cfg, r, n.amount), n.kind)
    ensures SeenAs(d, p, m)
  {
    BetSeen(d, r, p, n.amount, n.kind);
  }

  lemma {:induction false} CalledSeen(d: Derived, r: Round, p: Player, m: Performed)
    requires SeatAgrees(d, p) && RoundNumbers(d.price, r) && !d.ended && !p.folded
    requires m == Moved(Commit(p, Min(r.currentBet - p.bet, p.stack)), r, Call)
    ensures SeenAs(d, p, m)
  {
    CallSeen(d, r, p, Min(r.currentBet - p.bet, p.stack));
  }

  lemma {:induction false} PassedSeen(d: Derived, r: Round, p: Player, m: Performed)
    requires SeatAgrees(d, p) && RoundNumbers(d.price, r) && !d.ended && !p.folded
    requires m == Moved(p, r, Check) || m == Moved(p.(folded := true), r, Fold)
    ensures SeenAs(d, p, m)
  {
    PlainMoveSeen(d, r, p, m.kind);
  }

  lemma {:induction false} FourSeen(d: Derived, r: Round, p: Player, n: Action, m: Performed)
    requires m.Moved? && OneOfFour(d.cfg, r, p, n, m)
    requires SeatAgrees(d, p) && RoundNumbers(d.price, r) && !d.ended && !p.folded
    ensures SeenAs(d, p, m)
  {
    if m.kind == Bet || m.kind == Raise {
      RaisedSeen(d, r, p, n, m);
    } else if m.kind == Call {
      CalledSeen(d, r, p, m);
    } else {
      PassedSeen(d, r, p, m);
    }
  }

  lemma {:induction false} PerformSeen(d: Derived, cfg: Config, r: Round, p: Player, a: Action)
    requires Priced(cfg, r, p) && Perform(cfg, r, p, a).Moved?
    requires SeatAgrees(d, p) && RoundNumbers(d.price, r) && !d.ended && d.cfg == cfg
    ensures SeenAs(d, p, Perform(cfg, r, p, a))
  {
    PerformIs(cfg, r, p, a);
    FourSeen(d, r, p, Meant(r, p, a), Perform(cfg, r, p, a));
  }

  // A step of one player that the observer has seen keeps the agreement.
  lemma {:induction false} MoveAgrees(s: State, i: nat, q: Player, r: Round, s1: State, e: Event)
    requires Agreed(Seen(s), s) && RoundAgrees(Seen(s), s) && Seating(s.players) && i < |s.players|
      && q.seat == s.players[i].seat
    requires MoveSeen(Seen(s), Observe(Seen(s), e), q, r)
    requires s1.players == s.players[i := q] && s1.cfg == s.cfg && s1.log == s.log + [e]
      && RoundNumbers(Observe(Seen(s), e).price, s1.round)
    ensures Agreed(Seen(s1), s1) && RoundAgrees(Seen(s1), s1)
  {
    var d, d' := Seen(s), Observe(Seen(s), e);
    AgreeUpdate(d, d', s.players, i, q);
    SeenEmit(s, s1, e);
    forall j | 0 <= j < |s1.players| ensures ActedAgrees(d', s1.players[j]) {
      if j != i {
        assert s.players[j].seat != q.seat;
        assert ActedAgrees(d, s.players[j]);
      }
    }
  }

  lemma {:induction false} AfterMoveAgrees(s: State, a: Action)
    requires Inv(s) && Fits(s) && s.phase == Betting && Perform(s.cfg, s.round, s.players[s.round.toAct], a).Moved?
    ensures var m := Perform(s.cfg, s.round, s.players[s.round.toAct], a);
            var r := AfterMove(s, m.player, m.round, m.kind); Agreed(Seen(r), r) && RoundAgrees(Seen(r), r)
  {
    var i := s.round.toAct;
    var p := s.players[i];
    var m := Perform(s.cfg, s.round, p, a);
    assert Healthy(p) && SeatAgrees(Seen(s), p);
    PerformSeen(Seen(s), s.cfg, s.round, p, a);
    PerformedIsFair(s.cfg, s.round, p, a);
    var r := AfterMove(s, m.player, m.round, m.kind);
    MoveAgrees(s, i, Acted(m.player, m.round.fullLevel), m.round, r, MoveEvent(p, m));
  }

  lemma {:induction false} TimeoutSeen(d: Derived, r: Round, p: Player, free: bool)
    requires SeatAgrees(d, p) && RoundNumbers(d.price, r) && !d.ended && !p.folded
    ensures MoveSeen(d, Observe(d, TimedOut(p.seat, if free then Check else Fold)),
                     Acted(if free then p else p.(folded := true), r.fullLevel), r)
  {
  }

  lemma {:induction false} AfterTimeoutAgrees(s: State)
    requires Inv(s) && Fits(s) && s.phase == Betting
    ensures var r := AfterTimeout(s); Agreed(Seen(r), r) && RoundAgrees(Seen(r), r)
  {
    var i := s.round.toAct;
    var p := s.players[i];
    var free := p.bet == s.round.currentBet;
    assert SeatAgrees(Seen(s), p);
    TimeoutSeen(Seen(s), s.round, p, free);
    var r := AfterTimeout(s);
    MoveAgrees(s, i, r.players[i], s.round, r, TimedOut(p.seat, if free then Check else Fold));
  }

  // A forfeit counts as having acted in the derivation, but the player is out.
  lemma {:induction false} ForfeitSeen(d: Derived, p: Player)
    requires SeatAgrees(d, p) && !d.ended && !p.folded
    ensures var d' := Observe(d, ActionTaken(p.seat, 0, false, Fold)); var q := p.(folded := true);
            && d' == d.(chips := d'.chips, price := ActedNow(d.price, p.seat))
            && SameElsewhere(d.chips, d'.chips, p.seat) && SeatAgrees(d', q)
  {
  }

  lemma {:induction false} AfterForfeitAgrees(s: State, i: nat)
    requires Inv(s) && Fits(s) && s.phase != Result && i < |s.players| && !s.players[i].folded
    ensures var r := AfterForfeit(s, i); Agreed(Seen(r), r) && (s.phase == Betting ==> RoundAgrees(Seen(r), r))
  {
    var p := s.players[i];
    var r := AfterForfeit(s, i);
    var d' := Observe(Seen(s), ActionTaken(p.seat, 0, false, Fold));
    assert SeatAgrees(Seen(s), p);
    ForfeitSeen(Seen(s), p);
    AgreeUpdate(Seen(s), d', s.players, i, p.(folded := true));
    SeenEmit(s, r, ActionTaken(p.seat, 0, false, Fold));
    if s.phase == Betting {
      forall j | 0 <= j < |r.players| ensures ActedAgrees(d', r.players[j]) {
        if j != i {
          assert s.players[j].seat != p.seat;
          assert ActedAgrees(Seen(s), s.players[j]);
        }
      }
    }
  }

  // ---- the end of a street ------------------------------------------------------------------------------------

  lemma {:induction false} ReturnAgrees(s: State)
    requires Agreed(Seen(s), s) && Seating(s.players)
    ensures var r := ReturnUncalled(s); Agreed(Seen(r), r) && SeatsOf(r.players) == SeatsOf(s.players)
  {
    var t := TopBettor(s.players, |s.players|);
    var diff := Uncalled(s.players);
    if diff > 0 {
      var r := ReturnUncalled(s);
      var p := s.players[t];
      var e := UncalledReturned(p.seat, diff);
      assert SeatAgrees(Seen(s), p);
      AgreeUpdate(Seen(s), Observe(Seen(s), e), s.players, t, r.players[t]);
      SeenEmit(s, r, e);
    }
  }

  lemma {:induction false} CollectAgrees(d: Derived, ps: seq<Player>)
    requires ChipsAgree(d, ps) && Seating(ps)
    ensures ChipsAgree(ObserveCollect(d), Collected(ps)) && SeatsOf(Collected(ps)) == SeatsOf(ps)
  {
    var d' := ObserveCollect(d);
    assert SeatsOf(Collected(ps)) == SeatsOf(ps);
    forall i | 0 <= i < |ps| ensures SeatAgrees(d', Collected(ps)[i]) {
      assert SeatAgrees(d, ps[i]);
    }
  }

  // The layout rebuilt from the log is the engine's.
  lemma {:induction false} LayoutAgrees(d: Derived, ps: seq<Player>)
    requires ChipsAgree(d, ps) && Seating(ps) && AllHealthy(ps) && NoBets(ps) && OwnChips(ps)
      && LiveCount(ps, |ps|) >= 1
    ensures PotsFit(d, PotsOf(ps))
  {
    var cs, es := DerivedContributions(d), Contributions(ps);
    forall i | 0 <= i < |ps|
      ensures es[i].seat == cs[i].seat && es[i].total == cs[i].total && es[i].folded == cs[i].folded
        && (!es[i].folded ==> es[i].allIn == cs[i].allIn)
    {
      assert SeatAgrees(d, ps[i]) && Worth(ps[i]) == ps[i].startStack;
    }
    assert Alike(es, cs);
    AlikeLayouts(es, cs);
    ContributionsFine(ps);
    LayoutSums(cs);
    PotsPayable(ps);
    var pots := PotsOf(ps);
    forall k, seat | 0 <= k < |pots| && seat in pots[k].eligible ensures !Flag(d.chips.folded, seat) {
      var i := Find(ps, seat);
      IndexOfBound(ps, seat, |ps|);
      assert SeatAgrees(d, ps[i]);
    }
  }

  lemma {:induction false} CloseBetsAgrees(s: State)
    requires Agreed(Seen(s), s) && Seating(s.players) && AllHealthy(s.players) && OwnChips(s.players)
      && LiveCount(s.players, |s.players|) >= 1
    ensures var r := CloseBets(s); Agreed(Seen(r), r) && SeatsOf(r.players) == SeatsOf(s.players)
  {
    var s1 := ReturnUncalled(s);
    ReturnAgrees(s);
    ReturnedBets(s);
    SameSeatsSeating(s.players, s1.players);
    var r := CloseBets(s);
    CollectAgrees(Seen(s1), s1.players);
    ClosedBets(s);
    ClosedOwnChips(s);
    SameSeatsSeating(s.players, r.players);
    LivePointwise(s.players, r.players, |s.players|);
    LayoutAgrees(ObserveCollect(Seen(s1)), r.players);
    SeenEmit(s1, r, PotsUpdated(PotsOf(r.players)));
    var d := Seen(r);
    assert d == ObserveCollect(Seen(s1));
  }
}
