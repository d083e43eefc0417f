// The actions offered to the player on turn are exactly the actions Apply accepts
// (Options in backend/internal/poker/hand.go); what the table and the bots choose from them is
// therefore always accepted (applyPreAction in backend/internal/table/table.go, decide in
// backend/internal/botplay/strategy.go).

module HandOptions {
  import opened Pots
  import opened HandModel
  import opened HandRules
  import opened HandChips
  import opened HandInvariant

  datatype RaiseRange = NoRaise | Range(min: int, max: int)

  // call is 0 when there is nothing to call, allIn when all-in is not a legal action.
  datatype Options = Options(fold: bool, check: bool, call: int, raise: RaiseRange, allIn: int)

  const NOTHING := Options(false, false, 0, NoRaise, 0)

  function RangeFrom(min: int, max: int): RaiseRange { if max >= min then Range(min, max) else NoRaise }

  function OfferedTo(cfg: Config, r: Round, p: Player): Options {
    var toCall := r.currentBet - p.bet;
    var o := Options(true, toCall <= 0, if toCall <= 0 then 0 else Min(toCall, p.stack), NoRaise, 0);
    if r.currentBet == 0 then o.(raise := RangeFrom(cfg.bigBlind, MaxTo(p)), allIn := MaxTo(p))
    else if MayRaise(p, r.fullLevel) && MaxTo(p) > r.currentBet then
      o.(raise := RangeFrom(MinRaiseTo(r), MaxTo(p)), allIn := MaxTo(p))
    else if p.stack <= toCall then o.(allIn := MaxTo(p))
    else o
  }

  function Offered(s: State, seat: int): Options {
    if OnTurn(s, seat) then OfferedTo(s.cfg, s.round, s.players[s.round.toAct]) else NOTHING
  }

  // What a reader of the options takes them to mean.
  predicate Allowed(o: Options, currentBet: int, a: Action) {
    match a.kind
    case Fold => o.fold
    case Check => o.check
    case Call => o.call > 0
    case AllIn => o.allIn > 0
    case Unknown => false
    case _ =>
      || (o.raise.Range? && o.raise.min <= a.amount <= o.raise.max)
      || (o.allIn > 0 && a.amount == o.allIn && a.amount > currentBet)
  }

  lemma {:induction false} PerformIffAllowed(cfg: Config, r: Round, p: Player, a: Action)
    requires Priced(cfg, r, p)
    ensures Perform(cfg, r, p, a).Moved? <==> Allowed(OfferedTo(cfg, r, p), r.currentBet, a)
  {
  }

  // Sound and complete: in every reachable state, for every seat and every action.
  lemma {:induction false} OptionsExact(s: State, seat: int, a: Action)
    requires Inv(s)
    ensures Apply(s, seat, a).Done? <==> Allowed(Offered(s, seat), s.round.currentBet, a)
  {
    if OnTurn(s, seat) {
      var i := s.round.toAct;
      assert Healthy(s.players[i]);
      PerformIffAllowed(s.cfg, s.round, s.players[i], a);
      FindSeat(s.players, i);
    }
  }

  // ---- choices made for a player ------------------------------------------------------------------

  datatype PreAction = PreFold | PreCheckFold | PreCallAny

  function PreActionMove(kind: PreAction, o: Options): Action {
    match kind
    case PreFold => Action(Fold, 0)
    case PreCheckFold => if o.check then Action(Check, 0) else Action(Fold, 0)
    case PreCallAny => if o.check then Action(Check, 0) else if o.call > 0 then Action(Call, 0) else Action(Fold, 0)
  }

  // An armed action is always possible, so the fall-back to a timeout is never taken.
  lemma {:induction false} PreActionAccepted(s: State, seat: int, kind: PreAction)
    requires Inv(s) && OnTurn(s, seat)
    ensures Apply(s, seat, PreActionMove(kind, Offered(s, seat))).Done?
  {
    OptionsExact(s, seat, PreActionMove(kind, Offered(s, seat)));
  }

  function CheckOrCall(o: Options): Action {
    if o.check then Action(Check, 0) else if o.call > 0 then Action(Call, 0) else Action(Fold, 0)
  }

  // What the bot reads off the table, with its estimate of the hand's worth.
  datatype Spot = Spot(
    preflop: bool, pot: int, call: int, currentBet: int, bb: int, stack: int, opponents: nat,
    relPos: real, equity: real)

  // A raise by a fraction of the pot in whole big blinds, clamped to the range; a shove when
  // raising is not offered.
  function RaiseTo(o: Options, sp: Spot, fraction: real): Action {
    RaiseNear(o, sp.bb, sp.currentBet + (fraction * (sp.pot + sp.call) as real).Floor)
  }

  function RaiseNear(o: Options, bb: int, target: int): Action {
    if o.raise.NoRaise? then (if o.allIn > 0 then Action(AllIn, 0) else CheckOrCall(o))
    else
      var rounded := if bb > 0 then target / bb * bb else target;
      Action(Raise, Min(if rounded < o.raise.min then o.raise.min else rounded, o.raise.max))
  }

  // How far the hand lies between an average share of the pot (0) and certainty (1).
  function Edge(opponents: nat, equity: real): real
    requires opponents > 0
  {
    var average := 1.0 / (opponents + 1) as real;
    (equity - average) / (1.0 - average)
  }

  // thin and bluff are the coin flips.
  function Decide(o: Options, sp: Spot, thin: bool, bluff: bool): Action
    requires sp.opponents > 0
  {
    DecideAt(o, sp, Edge(sp.opponents, sp.equity), thin, bluff)
  }

  function DecideAt(o: Options, sp: Spot, edge: real, thin: bool, bluff: bool): Action {
    var potOdds := if sp.call > 0 && sp.pot + sp.call > 0 then sp.call as real / (sp.pot + sp.call) as real else 0.0;
    var pressure := if sp.stack <= 0 then 0.0 else if sp.currentBet >= sp.stack then 1.0
      else sp.currentBet as real / sp.stack as real;
    if sp.preflop then
      if sp.currentBet <= 2 * sp.bb then
        if edge >= 0.045 - 0.030 * sp.relPos then RaiseTo(o, sp, 1.0)
        else if o.check then Action(Check, 0)
        else if edge >= 0.0 && sp.call <= sp.bb / 2 then Action(Call, 0)
        else Action(Fold, 0)
      else if edge >= 0.13 + 2.5 * pressure then RaiseTo(o, sp, 1.0)
      else if edge >= 0.055 - 0.020 * sp.relPos && sp.equity >= potOdds * 1.25 then CheckOrCall(o)
      else Action(Fold, 0)
    else if sp.call == 0 then
      if edge >= 0.35 then RaiseTo(o, sp, 0.67)
      else if edge >= 0.18 && thin then RaiseTo(o, sp, 0.5)
      else if sp.opponents == 1 && sp.relPos == 1.0 && bluff then RaiseTo(o, sp, 0.5)
      else Action(Check, 0)
    else
      var need := potOdds * (1.2 + 0.6 * potOdds + 0.1 * (sp.opponents - 1) as real);
      if edge >= 0.55 + 1.5 * pressure then RaiseTo(o, sp, 0.67)
      else if sp.equity >= need then Action(Call, 0)
      else if sp.equity >= potOdds && sp.call <= sp.bb then Action(Call, 0)
      else Action(Fold, 0)
  }

  // The bot's move: the cheapest way to stay in when it cannot read the table or nobody is left
  // against it, else its decision.
  function BotMove(o: Options, readable: bool, sp: Spot, thin: bool, bluff: bool): Action {
    if !readable || sp.opponents == 0 then CheckOrCall(o) else Decide(o, sp, thin, bluff)
  }

  ghost predicate Consistent(o: Options, sp: Spot) {
    && o.fold && o.call >= 0 && sp.call == o.call && (o.check <==> o.call == 0)
    && (o.raise.Range? ==> o.raise.min <= o.raise.max)
  }

  lemma {:induction false} RaiseToAllowed(o: Options, sp: Spot, fraction: real, currentBet: int)
    requires Consistent(o, sp)
    ensures Allowed(o, currentBet, RaiseTo(o, sp, fraction))
  {
  }

  predicate InRange(r: RaiseRange, x: int) { r.Range? && r.min <= x <= r.max }

  // x is the whole number of big blinds next below the target, as near to it as the range allows.
  ghost predicate NearestIn(r: RaiseRange, bb: int, target: int, x: int) {
    && InRange(r, x)
    && exists k: int :: Rounded(bb, target, k) &&
         x == if k < r.min then r.min else if k > r.max then r.max else k
  }

  // k is the target, rounded down to whole big blinds.
  ghost predicate Rounded(bb: int, target: int, k: int) {
    if bb <= 0 then k == target else k <= target < k + bb && exists m: int :: k == m * bb
  }

  lemma {:induction false} WholeBlinds(bb: int, target: int)
    ensures Rounded(bb, target, if bb > 0 then target / bb * bb else target)
  {
    if bb > 0 {
      assert target == target / bb * bb + target % bb;
      assert target / bb * bb == (target / bb) * bb;
    }
  }

  lemma {:induction false} ClampedIsNearest(r: RaiseRange, bb: int, target: int, k: int)
    requires r.Range? && r.min <= r.max && Rounded(bb, target, k)
    ensures NearestIn(r, bb, target, Min(if k < r.min then r.min else k, r.max))
  {
  }

  lemma {:induction false} RaiseNearMeans(o: Options, bb: int, target: int)
    requires o.call >= 0 && (o.check <==> o.call == 0) && (o.raise.Range? ==> o.raise.min <= o.raise.max)
    ensures RaisesNear(o, bb, target, RaiseNear(o, bb, target))
  {
    if o.raise.Range? {
      WholeBlinds(bb, target);
      ClampedIsNearest(o.raise, bb, target, if bb > 0 then target / bb * bb else target);
    }
  }

  // A raise as near to the target as the range allows; without a range a shove, or the cheapest
  // way to stay in.
  ghost predicate RaisesNear(o: Options, bb: int, target: int, a: Action) {
    if o.raise.Range? then a.kind == Raise && NearestIn(o.raise, bb, target, a.amount)
    else if o.allIn > 0 then a.kind == AllIn
    else a.kind == if o.call > 0 then Call else Check
  }

  // The bot aims for the price plus its part of the pot after a call.
  lemma {:induction false} RaiseToMeans(o: Options, sp: Spot, fraction: real)
    requires Consistent(o, sp)
    ensures RaisesNear(o, sp.bb, sp.currentBet + (fraction * (sp.pot + sp.call) as real).Floor,
                       RaiseTo(o, sp, fraction))
  {
    RaiseNearMeans(o, sp.bb, sp.currentBet + (fraction * (sp.pot + sp.call) as real).Floor);
  }

  // Whatever the bot reads, estimates and flips, its move is accepted.
  lemma {:induction false} DecisionAccepted(s: State, seat: int, readable: bool, sp: Spot, thin: bool, bluff: bool)
    requires Inv(s) && OnTurn(s, seat) && (readable ==> sp.call == Offered(s, seat).call)
    ensures Apply(s, seat, BotMove(Offered(s, seat), readable, sp, thin, bluff)).Done?
  {
    var o := Offered(s, seat);
    assert Healthy(s.players[s.round.toAct]);
    if readable && sp.opponents > 0 { DecisionAllowed(o, sp, thin, bluff, s.round.currentBet); }
    OptionsExact(s, seat, BotMove(o, readable, sp, thin, bluff));
  }

  lemma {:induction false} DecisionAllowed(o: Options, sp: Spot, thin: bool, bluff: bool, currentBet: int)
    requires Consistent(o, sp) && sp.opponents > 0
    ensures Allowed(o, currentBet, Decide(o, sp, thin, bluff))
  {
    RaiseToAllowed(o, sp, 1.0, currentBet);
    RaiseToAllowed(o, sp, 0.67, currentBet);
    RaiseToAllowed(o, sp, 0.5, currentBet);
  }

  // ---- what the bot's decisions have in common -----------------------------------------------------------

  // Giving up, staying in, or putting pressure on.
  function Boldness(a: Action): int {
    match a.kind
    case Fold => 0
    case Check => 1
    case Call => 1
    case _ => 2
  }

  lemma {:induction false} RaiseToIsBold(o: Options, sp: Spot, fraction: real)
    requires Consistent(o, sp)
    ensures Boldness(RaiseTo(o, sp, fraction)) == if o.raise.Range? || o.allIn > 0 then 2 else 1
  {
  }

  // The edge grows with the equity.
  lemma {:induction false} EdgeGrows(opponents: nat, e: real, f: real)
    requires opponents > 0 && e <= f
    ensures Edge(opponents, e) <= Edge(opponents, f)
  {
    var d := (opponents + 1) as real;
    var average := 1.0 / d;
    assert average * d == 1.0;
    assert average < 1.0;
    DividedGrows(e - average, f - average, 1.0 - average);
  }

  lemma {:induction false} DividedGrows(x: real, y: real, d: real)
    requires x <= y && d > 0.0
    ensures x / d <= y / d
  {
  }

  lemma {:induction false} BolderAt(o: Options, sp: Spot, more: real, edge: real, edge': real, thin: bool, bluff: bool)
    requires Consistent(o, sp) && sp.equity <= more && edge <= edge'
    ensures Boldness(DecideAt(o, sp, edge, thin, bluff)) <=
            Boldness(DecideAt(o, sp.(equity := more), edge', thin, bluff))
  {
    RaiseToIsBold(o, sp, 1.0);
    RaiseToIsBold(o, sp, 0.67);
    RaiseToIsBold(o, sp, 0.5);
  }

  // With a better hand in the same spot the bot never gives up where it stayed in, nor merely
  // stays in where it raised.
  lemma {:induction false} BolderWithMore(o: Options, sp: Spot, more: real, thin: bool, bluff: bool)
    requires Consistent(o, sp) && sp.opponents > 0 && sp.equity <= more
    ensures Boldness(Decide(o, sp, thin, bluff)) <= Boldness(Decide(o, sp.(equity := more), thin, bluff))
  {
    EdgeGrows(sp.opponents, sp.equity, more);
    BolderAt(o, sp, more, Edge(sp.opponents, sp.equity), Edge(sp.opponents, more), thin, bluff);
  }

  // Where staying in is free the bot does not fold, except before the flop facing a raise.
  lemma {:induction false} NoFreeFold(o: Options, sp: Spot, thin: bool, bluff: bool)
    requires Consistent(o, sp) && sp.opponents > 0 && o.check && (sp.preflop ==> sp.currentBet <= 2 * sp.bb)
    ensures Decide(o, sp, thin, bluff).kind != Fold
  {
  }
}
