// The hand engine as functions on its state (backend/internal/poker/hand.go). Each function
// follows one method of the source, branch by branch; the class Hand refines them, and the
// other modules prove what they keep.

module HandModel {
  import opened Cards
  import opened Pots
  import opened Payout
  import Sorting

  // ---- data -----------------------------------------------------------------------------

  const PREFLOP := 0
  const FLOP := 1
  const TURN := 2
  const RIVER := 3

  datatype Phase = Betting | DealPending | Showdown | Result

  datatype RevealPolicy = RevealAll | RevealWinnersOnly | RevealInOrder

  // Unknown stands for any other string a client may send.
  datatype ActionKind = Fold | Check | Call | Bet | Raise | AllIn | Unknown

  datatype Action = Action(kind: ActionKind, amount: int)

  datatype Error = NotYourTurn | IllegalAction | AmountOutOfRange | UnknownSeat | WrongPhase

  datatype Config = Config(
    smallBlind: int, bigBlind: int, ante: int, button: int, policy: RevealPolicy,
    deadBlinds: map<int, int>, straddleSeat: int, straddleAmount: int, variant: Variant)

  datatype Seat = Seat(seat: int, stack: int)

  datatype Player = Player(
    seat: int, stack: int, startStack: int, deadBlind: int, hole0: Card, hole1: Card,
    folded: bool, allIn: bool, bet: int, committed: int, hasActed: bool, actedAt: int,
    revealed: bool, mucked: bool, won: int)

  datatype BlindKind = SmallBlind | BigBlind | DeadBlind | StraddleBlind

  // The sequence number of an event is its position in the log.
  datatype Event =
    | HandStarted(button: int, sb: int, bb: int)
    | AntePosted(seat: int, amount: int, allIn: bool)
    | BlindPosted(seat: int, amount: int, allIn: bool, blind: BlindKind)
    | HoleCardsDealt(seat: int, hole0: Card, hole1: Card)
    | ActionTaken(seat: int, amount: int, allIn: bool, kind: ActionKind)
    | TimedOut(seat: int, kind: ActionKind)
    | UncalledReturned(seat: int, amount: int)
    | StreetDealt(street: int, cards: seq<Card>, board: nat)
    | PotsUpdated(pots: seq<Pot>)
    | HandsRevealed(seats: seq<int>)
    | Mucked(seat: int)
    | PotAwarded(index: nat, seat: int, amount: int, board: nat)
    | HandEnded(results: Results)

  datatype SeatResult = SeatResult(
    seat: int, startStack: int, endStack: int, net: int, won: int, folded: bool, allIn: bool, revealed: bool)

  datatype Results = NoResults | Results(pots: seq<PotAward>, seats: seq<SeatResult>)

  // Cards dealt so far.
  datatype Deal = Deal(deck: seq<Card>, deckPos: nat, board: seq<Card>, board2: seq<Card>, runTwice: bool, street: int)

  // The betting round. toAct and aggressor are positions in players, -1 for nobody.
  datatype Round = Round(currentBet: int, fullLevel: int, raiseSize: int, toAct: int, aggressor: int)

  // The staged showdown: positions in the order they show, and the seats that win a pot.
  datatype Show = Show(order: seq<nat>, idx: nat, winners: set<int>)

  datatype State = State(
    cfg: Config, players: seq<Player>, deal: Deal, round: Round, show: Show, phase: Phase, runout: bool,
    sbSeat: int, bbSeat: int, straddleSeat: int, finalPots: seq<Pot>, results: Results, log: seq<Event>)

  datatype Outcome = Done(state: State) | Rejected(error: Error)

  // ---- players and positions -----------------------------------------------------------

  predicate Active(p: Player) { !p.folded && !p.allIn }

  predicate NeedsToAct(p: Player, currentBet: int) {
    Active(p) && (!p.hasActed || p.bet < currentBet)
  }

  predicate MayRaise(p: Player, fullLevel: int) {
    !p.hasActed || p.actedAt < fullLevel
  }

  // (i + 1) % n for a position i.
  function Next(i: nat, n: nat): nat { if i + 1 == n then 0 else i + 1 }

  // The position m places after the one that follows the button at position b.
  function Around(b: nat, m: nat, n: nat): nat { if b + 1 + m < n then b + 1 + m else b + 1 + m - n }

  function IndexOf(ps: seq<Player>, seat: int, n: nat): int
    requires n <= |ps|
  {
    if n == 0 then -1
    else
      var i := IndexOf(ps, seat, n - 1);
      if i >= 0 then i else if ps[n - 1].seat == seat then n - 1 else -1
  }

  function Find(ps: seq<Player>, seat: int): (i: int)
    ensures -1 <= i < |ps|
  {
    IndexOfBound(ps, seat, |ps|);
    IndexOf(ps, seat, |ps|)
  }

  lemma {:induction false} IndexOfBound(ps: seq<Player>, seat: int, n: nat)
    requires n <= |ps|
    ensures -1 <= IndexOf(ps, seat, n) < n
    ensures IndexOf(ps, seat, n) >= 0 ==> ps[IndexOf(ps, seat, n)].seat == seat
    ensures IndexOf(ps, seat, n) < 0 ==> forall i :: 0 <= i < n ==> ps[i].seat != seat
  {
    if n > 0 { IndexOfBound(ps, seat, n - 1); }
  }

  function LiveCount(ps: seq<Player>, n: nat): nat
    requires n <= |ps|
  {
    if n == 0 then 0 else LiveCount(ps, n - 1) + if ps[n - 1].folded then 0 else 1
  }

  function LastLive(ps: seq<Player>, n: nat): (i: int)
    requires n <= |ps|
    ensures -1 <= i < n
  {
    if n == 0 then -1 else if !ps[n - 1].folded then n - 1 else LastLive(ps, n - 1)
  }

  function ActiveCount(ps: seq<Player>, n: nat): nat
    requires n <= |ps|
  {
    if n == 0 then 0 else ActiveCount(ps, n - 1) + if Active(ps[n - 1]) then 1 else 0
  }

  // The first of the n players from position i on who needs to act.
  function NextActor(ps: seq<Player>, currentBet: int, i: nat, n: nat): (j: int)
    requires i < |ps|
    ensures -1 <= j < |ps|
    decreases n
  {
    if n == 0 then -1
    else if NeedsToAct(ps[i], currentBet) then i
    else NextActor(ps, currentBet, Next(i, |ps|), n - 1)
  }

  function Emit(s: State, e: Event): State { s.(log := s.log + [e]) }

  function EmitAll(s: State, es: seq<Event>): State { s.(log := s.log + es) }

  // ---- the start of a hand ---------------------------------------------------------------

  predicate Acceptable(cfg: Config, seats: seq<Seat>, shuffled: seq<Card>) {
    && |seats| >= 2
    && cfg.smallBlind >= 1 && cfg.bigBlind >= cfg.smallBlind && cfg.ante >= 0
    && (forall i :: 0 <= i < |seats| ==> seats[i].seat >= 0 && seats[i].stack > 0)
    && (forall i, j :: 0 <= i < j < |seats| ==> seats[i].seat != seats[j].seat)
    && (exists i :: 0 <= i < |seats| && seats[i].seat == cfg.button)
    && 2 * |seats| + 5 <= DeckSize(cfg.variant)
    && |shuffled| == DeckSize(cfg.variant)
  }

  function SeatNumber(s: Seat): int { s.seat }

  function NewPlayer(cfg: Config, s: Seat): Player {
    Player(s.seat, s.stack, s.stack, if s.seat in cfg.deadBlinds then cfg.deadBlinds[s.seat] else 0,
           0, 0, false, false, 0, 0, false, 0, false, false, 0)
  }

  function Seated(cfg: Config, seats: seq<Seat>): (ps: seq<Player>)
    ensures |ps| == |seats|
  {
    var sorted := Sorting.SortBy(seats, SeatNumber);
    Sorting.SortElements(seats, SeatNumber);
    seq(|sorted|, i requires 0 <= i < |sorted| => NewPlayer(cfg, sorted[i]))
  }

  // The button's position.
  function ButtonIndex(cfg: Config, ps: seq<Player>): (b: int)
    ensures -1 <= b < |ps|
  {
    Find(ps, cfg.button)
  }

  function Started(cfg: Config, ps: seq<Player>, shuffled: seq<Card>): State
    requires |ps| >= 2 && ButtonIndex(cfg, ps) >= 0
  {
    var n := |ps|;
    var b := ButtonIndex(cfg, ps);
    var sb := if n == 2 then b else Next(b, n);
    var bb := Next(sb, n);
    State(cfg, ps, Deal(shuffled, 0, [], [], false, PREFLOP), Round(0, 0, 0, -1, -1), Show([], 0, {}),
          Betting, false, ps[sb].seat, ps[bb].seat, -1, [], NoResults,
          [HandStarted(cfg.button, ps[sb].seat, ps[bb].seat)])
  }

  // The player parts with the chips, into the pot.
  function Post(p: Player, amount: int): Player {
    var amt := Min(amount, p.stack);
    p.(stack := p.stack - amt, committed := p.committed + amt, allIn := p.stack == amt)
  }

  function PostAnte(s: State, i: nat): State
    requires i < |s.players|
  {
    var p := s.players[i];
    var q := Post(p, s.cfg.ante);
    Emit(s.(players := s.players[i := q]), AntePosted(p.seat, p.stack - q.stack, q.allIn))
  }

  function PostDead(s: State, i: nat): State
    requires i < |s.players|
  {
    var p := s.players[i];
    if p.deadBlind <= 0 || p.stack == 0 then s
    else
      var q := Post(p, p.deadBlind);
      Emit(s.(players := s.players[i := q]), BlindPosted(p.seat, p.stack - q.stack, q.allIn, DeadBlind))
  }

  // The round of antes, and below that of dead blinds, with the first m done already.
  function PostAntes(s: State, b: nat, m: nat): (r: State)
    requires b < |s.players| && m <= |s.players|
    ensures |r.players| == |s.players|
    decreases |s.players| - m
  {
    if m == |s.players| then s else PostAntes(PostAnte(s, Around(b, m, |s.players|)), b, m + 1)
  }

  function PostDeads(s: State, b: nat, m: nat): (r: State)
    requires b < |s.players| && m <= |s.players|
    ensures |r.players| == |s.players|
    decreases |s.players| - m
  {
    if m == |s.players| then s else PostDeads(PostDead(s, Around(b, m, |s.players|)), b, m + 1)
  }

  // A live blind: a bet in front of the player.
  function Stake(p: Player, amount: int): Player {
    var amt := Min(amount, p.stack);
    p.(stack := p.stack - amt, bet := p.bet + amt, allIn := p.stack == amt)
  }

  function PostBlind(s: State, i: nat, amount: int, blind: BlindKind): State
    requires i < |s.players|
  {
    var p := s.players[i];
    var q := Stake(p, amount);
    Emit(s.(players := s.players[i := q]), BlindPosted(p.seat, p.stack - q.stack, q.allIn, blind))
  }

  function PostBlinds(s: State): (r: State)
    ensures |r.players| == |s.players|
  {
    var sb := Find(s.players, s.sbSeat);
    if sb < 0 then s else
    var s1 := PostBlind(s, sb, s.cfg.smallBlind, SmallBlind);
    var bb := Find(s1.players, s.bbSeat);
    if bb < 0 then s1 else
    PostBlind(s1, bb, s.cfg.bigBlind, BigBlind)
      .(round := s.round.(currentBet := s.cfg.bigBlind, fullLevel := s.cfg.bigBlind, raiseSize := s.cfg.bigBlind))
  }

  function PostStraddle(s: State): (r: State)
    ensures |r.players| == |s.players|
  {
    var n := |s.players|;
    var bb := Find(s.players, s.bbSeat);
    if s.cfg.straddleAmount <= 0 || n < 3 || bb < 0 then s
    else
      var i := Next(bb, n);
      var utg := s.players[i];
      if utg.seat != s.cfg.straddleSeat || utg.stack <= 0 then s
      else
        var posted := Min(s.cfg.straddleAmount, utg.stack);
        var s1 := PostBlind(s, i, s.cfg.straddleAmount, StraddleBlind).(straddleSeat := utg.seat);
        if posted >= s.cfg.straddleAmount then
          s1.(round := s.round.(currentBet := s.cfg.straddleAmount, fullLevel := s.cfg.straddleAmount,
                                raiseSize := s.cfg.straddleAmount))
        else if posted > s.round.currentBet then s1.(round := s.round.(currentBet := posted))
        else s1
  }

  // The place of position i in the deal, which starts left of the button at position b.
  function DealPlace(b: nat, i: nat, n: nat): int { if i > b then i - b - 1 else i + n - b - 1 }

  function WithHoles(ps: seq<Player>, b: nat, deck: seq<Card>): (r: seq<Player>)
    requires b < |ps| && 2 * |ps| <= |deck|
    ensures |r| == |ps|
  {
    seq(|ps|, i requires 0 <= i < |ps| =>
      ps[i].(hole0 := deck[DealPlace(b, i, |ps|)], hole1 := deck[|ps| + DealPlace(b, i, |ps|)]))
  }

  function HoleEvents(ps: seq<Player>, b: nat): seq<Event>
    requires b < |ps|
  {
    seq(|ps|, m requires 0 <= m < |ps| =>
      var p := ps[Around(b, m, |ps|)]; HoleCardsDealt(p.seat, p.hole0, p.hole1))
  }

  function DealHoles(s: State, b: nat): State
    requires b < |s.players| && 2 * |s.players| <= |s.deal.deck|
  {
    var ps := WithHoles(s.players, b, s.deal.deck);
    EmitAll(s.(players := ps, deal := s.deal.(deckPos := 2 * |ps|)), HoleEvents(ps, b))
  }

  // Who opens: whoever follows the last blind or straddle, but the button when there are two.
  function FirstToAct(s: State, b: nat): (i: nat)
    requires b < |s.players|
    ensures i < |s.players|
  {
    var n := |s.players|;
    var straddler := Find(s.players, s.straddleSeat);
    var bb := Find(s.players, s.bbSeat);
    if s.straddleSeat >= 0 && straddler >= 0 then Next(straddler, n)
    else if n == 2 || bb < 0 then b
    else Next(bb, n)
  }

  // Everybody is seated and the antes and dead blinds are in the pot.
  function Anted(cfg: Config, seats: seq<Seat>, shuffled: seq<Card>): (r: State)
    requires Acceptable(cfg, seats, shuffled) && ButtonIndex(cfg, Seated(cfg, seats)) >= 0
    ensures |r.players| == |seats|
  {
    var ps := Seated(cfg, seats);
    var b := ButtonIndex(cfg, ps);
    var s0 := Started(cfg, ps, shuffled);
    PostDeads(if cfg.ante > 0 then PostAntes(s0, b, 0) else s0, b, 0)
  }

  // Up to the deal of the hole cards.
  function Opened(cfg: Config, seats: seq<Seat>, shuffled: seq<Card>): (r: State)
    requires Acceptable(cfg, seats, shuffled) && ButtonIndex(cfg, Seated(cfg, seats)) >= 0
    ensures |r.players| == |seats|
  {
    PostStraddle(PostBlinds(Anted(cfg, seats, shuffled)))
  }
}
