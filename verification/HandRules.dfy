// The hand engine's steps (backend/internal/poker/hand.go, from NewHand's last lines on).

module HandRules {
  import opened Cards
  import opened Pots
  import opened Payout
  import opened HandModel
  import Eval

  // ---- pots and pay-out -----------------------------------------------------------------

  function Contributions(ps: seq<Player>): (c: seq<Contribution>)
    ensures |c| == |ps|
  {
    seq(|ps|, i requires 0 <= i < |ps| => Contribution(ps[i].seat, ps[i].committed, ps[i].folded, ps[i].allIn))
  }

  function PotsOf(ps: seq<Player>): seq<Pot> { Layout(Contributions(ps)) }

  // The hand rank of a player on a board.
  function Strength(p: Player, board: seq<Card>): int { Eval.BestRank([p.hole0, p.hole1] + board) }

  function RanksOf(ps: seq<Player>, board: seq<Card>, n: nat): Ranks
    requires n <= |ps|
  {
    if n == 0 then map[]
    else
      var ranks := RanksOf(ps, board, n - 1);
      if ps[n - 1].folded then ranks else ranks[ps[n - 1].seat := Strength(ps[n - 1], board)]
  }

  function Credit(ps: seq<Player>, seat: int, amount: int): (r: seq<Player>)
    ensures |r| == |ps|
  {
    var i := Find(ps, seat);
    if i < 0 then ps else ps[i := ps[i].(stack := ps[i].stack + amount, won := ps[i].won + amount)]
  }

  function Pay(ps: seq<Player>, winners: seq<PotWinner>): (r: seq<Player>)
    ensures |r| == |ps|
    decreases |winners|
  {
    if winners == [] then ps else Pay(Credit(ps, winners[0].seat, winners[0].amount), winners[1..])
  }

  function PayAll(ps: seq<Player>, awards: seq<PotAward>): (r: seq<Player>)
    ensures |r| == |ps|
    decreases |awards|
  {
    if awards == [] then ps else PayAll(Pay(ps, awards[0].winners), awards[1..])
  }

  function AwardEvents(award: PotAward): seq<Event> {
    seq(|award.winners|, i requires 0 <= i < |award.winners| =>
      PotAwarded(award.index, award.winners[i].seat, award.winners[i].amount, award.board))
  }

  function AllAwardEvents(awards: seq<PotAward>): seq<Event> {
    if awards == [] then [] else AwardEvents(awards[0]) + AllAwardEvents(awards[1..])
  }

  function Cleared(ps: seq<Player>): (r: seq<Player>)
    ensures |r| == |ps|
  {
    seq(|ps|, i requires 0 <= i < |ps| => ps[i].(committed := 0))
  }

  function SeatResults(ps: seq<Player>): (r: seq<SeatResult>)
    ensures |r| == |ps|
  {
    seq(|ps|, i requires 0 <= i < |ps| =>
      SeatResult(ps[i].seat, ps[i].startStack, ps[i].stack, ps[i].stack - ps[i].startStack, ps[i].won,
                 ps[i].folded, ps[i].allIn, ps[i].revealed))
  }

  function Finish(s: State, awards: seq<PotAward>, pots: seq<Pot>): State {
    var results := Results(awards, SeatResults(s.players));
    Emit(s.(players := Cleared(s.players), finalPots := pots, results := results, phase := Result,
            round := s.round.(toAct := -1)),
         HandEnded(results))
  }

  // ---- the end of a street -----------------------------------------------------------------

  // The first player with the highest bet.
  function TopBettor(ps: seq<Player>, n: nat): (t: nat)
    requires 0 < n <= |ps|
    ensures t < n
  {
    if n == 1 then 0
    else
      var t := TopBettor(ps, n - 1);
      if ps[n - 1].bet > ps[t].bet then n - 1 else t
  }

  // The highest bet of anyone else.
  function SecondBet(ps: seq<Player>, top: nat, n: nat): int
    requires n <= |ps|
  {
    if n == 0 then 0
    else
      var second := SecondBet(ps, top, n - 1);
      if n - 1 != top && ps[n - 1].bet > second then ps[n - 1].bet else second
  }

  function Uncalled(ps: seq<Player>): int
    requires |ps| > 0
  {
    var top := TopBettor(ps, |ps|);
    ps[top].bet - SecondBet(ps, top, |ps|)
  }

  function ReturnUncalled(s: State): (r: State)
    requires |s.players| > 0
    ensures |r.players| == |s.players|
  {
    var top := TopBettor(s.players, |s.players|);
    var diff := Uncalled(s.players);
    if diff <= 0 then s
    else
      var p := s.players[top];
      Emit(s.(players := s.players[top := p.(bet := p.bet - diff, stack := p.stack + diff, allIn := false)]),
           UncalledReturned(p.seat, diff))
  }

  function Collected(ps: seq<Player>): (r: seq<Player>)
    ensures |r| == |ps|
  {
    seq(|ps|, i requires 0 <= i < |ps| => ps[i].(committed := ps[i].committed + ps[i].bet, bet := 0))
  }

  // Bets go back or into the pots, and the layout is published.
  function CloseBets(s: State): (r: State)
    requires |s.players| > 0
    ensures |r.players| == |s.players|
  {
    var s1 := ReturnUncalled(s);
    var ps := Collected(s1.players);
    Emit(s1.(players := ps), PotsUpdated(PotsOf(ps)))
  }

  function HiddenSeats(ps: seq<Player>, n: nat): seq<int>
    requires n <= |ps|
  {
    if n == 0 then []
    else HiddenSeats(ps, n - 1) + if !ps[n - 1].folded && !ps[n - 1].revealed then [ps[n - 1].seat] else []
  }

  function Exposed(ps: seq<Player>): (r: seq<Player>)
    ensures |r| == |ps|
  {
    seq(|ps|, i requires 0 <= i < |ps| => if ps[i].folded then ps[i] else ps[i].(revealed := true))
  }

  function RevealEveryone(s: State): State {
    var hidden := HiddenSeats(s.players, |s.players|);
    if hidden == [] then s else Emit(s.(players := Exposed(s.players)), HandsRevealed(hidden))
  }

  function EndStreet(s: State): State
    requires |s.players| > 0
  {
    var s1 := CloseBets(s).(round := s.round.(toAct := -1));
    if s1.deal.street == RIVER then ToShowdown(s1)
    else if ActiveCount(s1.players, |s1.players|) < 2 then RevealEveryone(s1.(phase := DealPending, runout := true))
    else s1.(phase := DealPending)
  }

  // ---- showdown -----------------------------------------------------------------------------

  function FirstLive(ps: seq<Player>, i: nat, n: nat): (j: nat)
    requires i < |ps|
    ensures j < |ps|
    decreases n
  {
    if n == 0 || !ps[i].folded then i else FirstLive(ps, Next(i, |ps|), n - 1)
  }

  function LiveFrom(ps: seq<Player>, i: nat, n: nat): (r: seq<nat>)
    requires i < |ps|
    ensures forall k :: 0 <= k < |r| ==> r[k] < |ps|
    decreases n
  {
    if n == 0 then []
    else (if ps[i].folded then [] else [i]) + LiveFrom(ps, Next(i, |ps|), n - 1)
  }

  function ShowdownOrder(s: State): (r: seq<nat>)
    requires |s.players| > 0
    ensures forall k :: 0 <= k < |r| ==> r[k] < |s.players|
  {
    var n := |s.players|;
    var b := ButtonIndex(s.cfg, s.players);
    var start :=
      if 0 <= s.round.aggressor < n && !s.players[s.round.aggressor].folded then s.round.aggressor
      else FirstLive(s.players, if b < 0 then 0 else Next(b, n), n);
    LiveFrom(s.players, start, n)
  }

  function WinnerSeats(pots: seq<Pot>, ranks: Ranks, button: int): set<int> {
    if pots == [] then {}
    else (set x | x in Winners(pots[0], ranks, button)) + WinnerSeats(pots[1..], ranks, button)
  }

  function ToShowdown(s: State): State
    requires |s.players| > 0
  {
    var s1 := s.(round := s.round.(toAct := -1));
    var order := ShowdownOrder(s1);
    if forall k :: 0 <= k < |order| ==> s1.players[order[k]].revealed then AwardPots(s1)
    else
      var ranks := RanksOf(s1.players, s1.deal.board, |s1.players|);
      s1.(show := Show(order, 0, WinnerSeats(PotsOf(s1.players), ranks, s1.cfg.button)), phase := Showdown)
  }

  function ShownWinners(ps: seq<Player>, winners: set<int>): (r: seq<Player>)
    ensures |r| == |ps|
  {
    seq(|ps|, i requires 0 <= i < |ps| =>
      if !ps[i].folded && ps[i].seat in winners then ps[i].(revealed := true) else ps[i])
  }

  function HiddenWinners(ps: seq<Player>, winners: set<int>, n: nat): seq<int>
    requires n <= |ps|
  {
    if n == 0 then []
    else
      var p := ps[n - 1];
      HiddenWinners(ps, winners, n - 1) + (if !p.folded && !p.revealed && p.seat in winners then [p.seat] else [])
  }

  function BoardRanks(s: State): Ranks { RanksOf(s.players, s.deal.board, |s.players|) }

  function BoardRanks2(s: State): Ranks {
    if s.deal.runTwice then RanksOf(s.players, s.deal.board2, |s.players|) else map[]
  }

  function FinalAwards(s: State): seq<PotAward> {
    Awards(PotsOf(s.players), 0, BoardRanks(s), BoardRanks2(s), s.deal.runTwice, s.cfg.button)
  }

  function FinalWinners(s: State): set<int> {
    var pots := PotsOf(s.players);
    WinnerSeats(pots, BoardRanks(s), s.cfg.button) +
    if s.deal.runTwice then WinnerSeats(pots, BoardRanks2(s), s.cfg.button) else {}
  }

  // Pays the awards out and reports them.
  function PayOut(s: State, awards: seq<PotAward>): State {
    EmitAll(s.(players := PayAll(s.players, awards)), AllAwardEvents(awards))
  }

  function ShowWinners(s: State, winners: set<int>): State {
    var hidden := HiddenWinners(s.players, winners, |s.players|);
    if hidden == [] then s else Emit(s.(players := ShownWinners(s.players, winners)), HandsRevealed(hidden))
  }

  function AwardPots(s: State): State {
    var pots := PotsOf(s.players);
    var awards := FinalAwards(s);
    Finish(PayOut(ShowWinners(s, FinalWinners(s)), awards), awards, pots)
  }

  // The last player standing takes every pot.
  function SoleAwards(pots: seq<Pot>, first: nat, seat: int): seq<PotAward> {
    if pots == [] then []
    else
      [PotAward(first, pots[0].amount, [PotWinner(seat, pots[0].amount)], 0)] +
      SoleAwards(pots[1..], first + 1, seat)
  }

  function FinishUncontested(s: State, winner: nat): State
    requires winner < |s.players|
  {
    var s1 := CloseBets(s);
    var pots := PotsOf(s1.players);
    var awards := SoleAwards(pots, 0, s.players[winner].seat);
    Finish(PayOut(s1, awards), awards, pots)
  }

  // ---- whose turn ---------------------------------------------------------------------------

  predicate RoundComplete(ps: seq<Player>, currentBet: int) {
    forall i :: 0 <= i < |ps| && Active(ps[i]) ==>
      ps[i].bet == currentBet && (ActiveCount(ps, |ps|) >= 2 ==> ps[i].hasActed)
  }

  // A toAct of -1 here is the source's panic "no player to act".
  function Settle(s: State, from: nat, inclusive: bool): State
    requires from < |s.players|
  {
    var n := |s.players|;
    if s.phase != Betting then s
    else if LiveCount(s.players, n) == 1 && LastLive(s.players, n) >= 0 then
      FinishUncontested(s, LastLive(s.players, n))
    else if RoundComplete(s.players, s.round.currentBet) then EndStreet(s)
    else
      var start := if inclusive then from else Next(from, n);
      s.(round := s.round.(toAct := NextActor(s.players, s.round.currentBet, start, n)))
  }

  // ---- the actions --------------------------------------------------------------------------

  function NewHand(cfg: Config, seats: seq<Seat>, shuffled: seq<Card>): Outcome {
    if !Acceptable(cfg, seats, shuffled) || ButtonIndex(cfg, Seated(cfg, seats)) < 0 then Rejected(IllegalAction)
    else
      var b := ButtonIndex(cfg, Seated(cfg, seats));
      var s := Opened(cfg, seats, shuffled);
      if |s.deal.deck| < 2 * |s.players| then Rejected(IllegalAction)
      else
        var s1 := DealHoles(s, b);
        Done(Settle(s1, FirstToAct(s1, b), true))
  }

  predicate OnTurn(s: State, seat: int) {
    s.phase == Betting && 0 <= s.round.toAct < |s.players| && s.players[s.round.toAct].seat == seat
  }

  function MaxTo(p: Player): int { p.bet + p.stack }

  function MinRaiseTo(r: Round): int { r.currentBet + r.raiseSize }

  // The action meant: bet and raise are told apart by the price, all-in is whichever of bet,
  // call and raise the whole stack amounts to.
  function Meant(r: Round, p: Player, a: Action): Action {
    match a.kind
    case Bet => if r.currentBet > 0 then a.(kind := Raise) else a
    case Raise => if r.currentBet == 0 then a.(kind := Bet) else a
    case AllIn =>
      if r.currentBet == 0 then Action(Bet, MaxTo(p))
      else if MaxTo(p) <= r.currentBet then a.(kind := Call)
      else Action(Raise, MaxTo(p))
    case _ => a
  }

  // Chips go from the stack to the bet in front.
  function Commit(p: Player, add: int): Player {
    p.(stack := p.stack - add, bet := p.bet + add, allIn := p.stack == add)
  }

  datatype Performed = Moved(player: Player, round: Round, kind: ActionKind) | Refused(error: Error)

  function PerformBet(cfg: Config, r: Round, p: Player, amt: int): Performed {
    if r.currentBet != 0 then Refused(IllegalAction)
    else if amt <= 0 || amt > MaxTo(p) || (amt < cfg.bigBlind && amt != MaxTo(p)) then Refused(AmountOutOfRange)
    else
      Moved(Commit(p, amt),
            if amt >= cfg.bigBlind then r.(currentBet := amt, raiseSize := amt, fullLevel := amt)
              else r.(currentBet := amt),
            Bet)
  }

  function PerformRaise(r: Round, p: Player, amt: int): Performed {
    if !MayRaise(p, r.fullLevel) || MaxTo(p) <= r.currentBet then Refused(IllegalAction)
    else if amt <= r.currentBet || amt > MaxTo(p)
      || (amt < MinRaiseTo(r) && amt != MaxTo(p)) then Refused(AmountOutOfRange)
    else
      Moved(Commit(p, amt - p.bet),
            if amt >= MinRaiseTo(r) then r.(currentBet := amt, raiseSize := amt - r.currentBet, fullLevel := amt)
            else r.(currentBet := amt),
            Raise)
  }

  function Perform(cfg: Config, r: Round, p: Player, a: Action): Performed {
    var m := Meant(r, p, a);
    var toCall := r.currentBet - p.bet;
    match m.kind
    case Fold => Moved(p.(folded := true), r, Fold)
    case Check => if toCall > 0 then Refused(IllegalAction) else Moved(p, r, Check)
    case Call => if toCall <= 0 then Refused(IllegalAction) else Moved(Commit(p, Min(toCall, p.stack)), r, Call)
    case Bet => PerformBet(cfg, r, p, m.amount)
    case Raise => PerformRaise(r, p, m.amount)
    case _ => Refused(IllegalAction)
  }

  function Acted(p: Player, fullLevel: int): Player { p.(hasActed := true, actedAt := fullLevel) }

  // The chips a call adds, or the total of a bet or raise.
  function EventAmount(kind: ActionKind, before: int, after: Player): int {
    match kind
    case Call => after.bet - before
    case Bet => after.bet
    case Raise => after.bet
    case _ => 0
  }

  // An accepted action up to its event.
  function AfterMove(s: State, q: Player, r: Round, kind: ActionKind): State
    requires 0 <= s.round.toAct < |s.players|
  {
    var i := s.round.toAct;
    var p := s.players[i];
    var aggressor := if kind == Bet || kind == Raise then i else r.aggressor;
    Emit(s.(players := s.players[i := Acted(q, r.fullLevel)], round := r.(aggressor := aggressor)),
         ActionTaken(p.seat, EventAmount(kind, p.bet, q), q.allIn, kind))
  }

  function Apply(s: State, seat: int, a: Action): Outcome {
    if Find(s.players, seat) < 0 then Rejected(UnknownSeat)
    else if !OnTurn(s, seat) then Rejected(NotYourTurn)
    else
      match Perform(s.cfg, s.round, s.players[s.round.toAct], a)
      case Refused(e) => Rejected(e)
      case Moved(q, r, kind) => Done(Settle(AfterMove(s, q, r, kind), s.round.toAct, false))
  }

  // A turn that timed out, up to its event: a check when that is free, else a fold.
  function AfterTimeout(s: State): State
    requires 0 <= s.round.toAct < |s.players|
  {
    var i := s.round.toAct;
    var p := s.players[i];
    var free := p.bet == s.round.currentBet;
    Emit(s.(players := s.players[i := Acted(if free then p else p.(folded := true), s.round.fullLevel)]),
         TimedOut(p.seat, if free then Check else Fold))
  }

  function Timeout(s: State, seat: int): Outcome {
    if !OnTurn(s, seat) then Rejected(NotYourTurn)
    else Done(Settle(AfterTimeout(s), s.round.toAct, false))
  }

  function AfterForfeit(s: State, i: nat): State
    requires i < |s.players|
  {
    Emit(s.(players := s.players[i := s.players[i].(folded := true)]), ActionTaken(s.players[i].seat, 0, false, Fold))
  }

  function Forfeit(s: State, seat: int): Outcome {
    var i := Find(s.players, seat);
    if i < 0 || s.players[i].folded || s.phase == Result || s.phase == Showdown then Rejected(UnknownSeat)
    else
      var n := |s.players|;
      var s1 := AfterForfeit(s, i);
      if LiveCount(s1.players, n) == 1 && LastLive(s1.players, n) >= 0 then
        Done(FinishUncontested(s1.(phase := Betting), LastLive(s1.players, n)))
      else if s.phase != Betting then Done(s1)
      else if s.round.toAct == i then Done(Settle(s1, i, false))
      else if RoundComplete(s1.players, s1.round.currentBet) then Done(EndStreet(s1))
      else Done(s1)
  }

  // ---- the board ------------------------------------------------------------------------------

  function StreetCards(street: int): nat { if street == FLOP then 3 else 1 }

  function Drawn(d: Deal, n: nat): seq<Card> {
    if d.deckPos + n <= |d.deck| then d.deck[d.deckPos..d.deckPos + n] else []
  }

  // One board: the street's cards go to the end of it.
  function DealBoard(d: Deal): Deal {
    var n := StreetCards(d.street + 1);
    d.(street := d.street + 1, board := d.board + Drawn(d, n), deckPos := d.deckPos + n)
  }

  // The next street is dealt, on both boards when the hand is run twice.
  function NextDeal(d: Deal): Deal {
    var n := StreetCards(d.street + 1);
    var d1 := DealBoard(d);
    if !d.runTwice then d1 else d1.(board2 := d1.board2 + Drawn(d1, n), deckPos := d1.deckPos + n)
  }

  function StreetEvents(d: Deal): seq<Event> {
    var n := StreetCards(d.street + 1);
    [StreetDealt(d.street + 1, Drawn(d, n), 0)] +
    if d.runTwice then [StreetDealt(d.street + 1, Drawn(DealBoard(d), n), 2)] else []
  }

  function DealStreet(s: State): State {
    EmitAll(s.(deal := NextDeal(s.deal)), StreetEvents(s.deal))
  }

  function Refreshed(ps: seq<Player>): (r: seq<Player>)
    ensures |r| == |ps|
  {
    seq(|ps|, i requires 0 <= i < |ps| => ps[i].(hasActed := false, actedAt := 0))
  }

  function NewRound(s: State): State {
    s.(round := Round(0, 0, s.cfg.bigBlind, s.round.toAct, -1), players := Refreshed(s.players), phase := Betting)
  }

  function Advance(s: State): Outcome {
    var n := |s.players|;
    if s.phase != DealPending || n == 0 then Rejected(WrongPhase)
    else
      var s1 := DealStreet(s);
      if s.runout then (if s1.deal.street == RIVER then Done(ToShowdown(s1)) else Done(s1))
      else
        var b := ButtonIndex(s.cfg, s.players);
        Done(Settle(NewRound(s1), if b < 0 then 0 else Next(b, n), true))
  }

  predicate CanRunItTwice(s: State) {
    var missing := 5 - |s.deal.board|;
    s.phase == DealPending && s.runout && !s.deal.runTwice && missing > 0
      && s.deal.deckPos + 2 * missing <= |s.deal.deck|
  }

  function RunItTwice(s: State): Outcome {
    if CanRunItTwice(s) then Done(s.(deal := s.deal.(runTwice := true, board2 := s.deal.board)))
    else Rejected(WrongPhase)
  }

  // ---- the staged showdown ----------------------------------------------------------------------

  // Somebody eligible has shown a hand that beats p.
  predicate Beaten(s: State, pot: Pot, p: Player) {
    exists k :: 0 <= k < |pot.eligible| && pot.eligible[k] != p.seat && Beats(s, pot.eligible[k], p)
  }

  predicate Beats(s: State, seat: int, p: Player) {
    var i := Find(s.players, seat);
    i >= 0 && !s.players[i].folded && s.players[i].revealed &&
    Strength(s.players[i], s.deal.board) > Strength(p, s.deal.board)
  }

  predicate MustShow(s: State, p: Player) {
    match s.cfg.policy
    case RevealAll => true
    case RevealWinnersOnly => p.seat in s.show.winners
    case RevealInOrder =>
      var pots := PotsOf(s.players);
      exists k :: 0 <= k < |pots| && p.seat in pots[k].eligible && !Beaten(s, pots[k], p)
  }

  // Player i shows, or else mucks.
  function Turned(s: State, i: nat, show: bool): State
    requires i < |s.players|
  {
    var p := s.players[i];
    if p.revealed then s
    else if show then Emit(s.(players := s.players[i := p.(revealed := true)]), HandsRevealed([p.seat]))
    else Emit(s.(players := s.players[i := p.(mucked := true)]), Mucked(p.seat))
  }

  function ShowOrMuck(s: State, i: nat): State
    requires i < |s.players|
  {
    Turned(s, i, MustShow(s, s.players[i]))
  }

  // The next turn of the showdown is used up.
  function Called(s: State): State { s.(show := s.show.(idx := s.show.idx + 1)) }

  // The next player shows or mucks; after the last one the pots are awarded.
  function RevealStep(s: State, show: bool): State
    requires s.show.idx < |s.show.order| && s.show.order[s.show.idx] < |s.players|
  {
    var s1 := Turned(Called(s), s.show.order[s.show.idx], show);
    if s1.show.idx >= |s1.show.order| then AwardPots(s1) else s1
  }

  function RevealNext(s: State): Outcome {
    if s.phase != Showdown || s.show.idx >= |s.show.order|
      || s.show.order[s.show.idx] >= |s.players| then Rejected(WrongPhase)
    else Done(RevealStep(s, MustShow(Called(s), s.players[s.show.order[s.show.idx]])))
  }

  // ---- runs -------------------------------------------------------------------------------------

  datatype Command =
    | DoApply(seat: int, action: Action)
    | DoTimeout(seat: int)
    | DoForfeit(seat: int)
    | DoAdvance
    | DoRunItTwice
    | DoRevealNext

  function Step(s: State, c: Command): Outcome {
    match c
    case DoApply(seat, a) => Apply(s, seat, a)
    case DoTimeout(seat) => Timeout(s, seat)
    case DoForfeit(seat) => Forfeit(s, seat)
    case DoAdvance => Advance(s)
    case DoRunItTwice => RunItTwice(s)
    case DoRevealNext => RevealNext(s)
  }

  // A command that is refused leaves the hand as it was.
  function After(s: State, c: Command): State {
    match Step(s, c)
    case Done(r) => r
    case Rejected(_) => s
  }

  function Run(s: State, cs: seq<Command>): State {
    if cs == [] then s else After(Run(s, cs[..|cs| - 1]), cs[|cs| - 1])
  }
}
