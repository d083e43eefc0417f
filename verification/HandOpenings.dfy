// The start of a hand in plain numbers: who posts what, what the price is, which card of the
// deck goes to whom, and what follows from the table before anybody has acted.

module HandOpenings {
  import opened Cards
  import opened Pots
  import opened Payout
  import opened HandModel
  import opened HandRules
  import opened HandChips
  import opened HandInvariant
  import opened HandStart
  import opened HandTurns
  import opened HandMoves
  import Sorting

  // ---- what is refused ------------------------------------------------------------------------------------

  // NewHand refuses exactly the calls the source refuses.
  lemma {:induction false} NewHandRefuses(cfg: Config, seats: seq<Seat>, shuffled: seq<Card>)
    ensures NewHand(cfg, seats, shuffled).Rejected? <==>
              || |seats| < 2
              || cfg.smallBlind < 1 || cfg.bigBlind < cfg.smallBlind || cfg.ante < 0
              || (exists i :: 0 <= i < |seats| && (seats[i].seat < 0 || seats[i].stack <= 0))
              || (exists i, j :: 0 <= i < j < |seats| && seats[i].seat == seats[j].seat)
              || (forall i :: 0 <= i < |seats| ==> seats[i].seat != cfg.button)
              || |seats| * 2 + 5 > DeckSize(cfg.variant)
              || |shuffled| != DeckSize(cfg.variant)
  {
    NewHandAccepts(cfg, seats, shuffled);
  }

  // Everybody given a seat is a player with their stack and what they owe, in ascending seats.
  lemma {:induction false} SeatedAre(cfg: Config, seats: seq<Seat>, shuffled: seq<Card>)
    requires Acceptable(cfg, seats, shuffled)
    ensures var ps := Seated(cfg, seats);
            && |ps| == |seats| && Seating(ps)
            && (forall k :: 0 <= k < |ps| ==> FreshFor(cfg, seats, ps[k]))
            && (forall i :: 0 <= i < |seats| ==> exists k :: 0 <= k < |ps| && ps[k].seat == seats[i].seat)
  {
    var ps := Seated(cfg, seats);
    var sorted := Sorting.SortBy(seats, SeatNumber);
    SeatedInOrder(cfg, seats, shuffled);
    Sorting.SortElements(seats, SeatNumber);
    forall k | 0 <= k < |ps| ensures FreshFor(cfg, seats, ps[k]) {
      assert sorted[k] in sorted;
      var i :| 0 <= i < |seats| && seats[i] == sorted[k];
    }
    forall i | 0 <= i < |seats| ensures exists k :: 0 <= k < |ps| && ps[k].seat == seats[i].seat {
      assert seats[i] in sorted;
      var k :| 0 <= k < |sorted| && sorted[k] == seats[i];
      assert ps[k].seat == seats[i].seat;
    }
  }

  // A player as they come to the hand.
  ghost predicate FreshFor(cfg: Config, seats: seq<Seat>, p: Player) {
    && (exists i :: 0 <= i < |seats| && p.seat == seats[i].seat && p.stack == p.startStack == seats[i].stack)
    && p.deadBlind == (if p.seat in cfg.deadBlinds then cfg.deadBlinds[p.seat] else 0)
    && p == p.(folded := false, allIn := false, bet := 0, committed := 0, hasActed := false, actedAt := 0,
               revealed := false, mucked := false, won := 0)
  }

  // ---- positions --------------------------------------------------------------------------------------------

  // The positions of the blinds and of a straddle, for the button at position b.
  function SmallAt(b: nat, n: nat): nat
    requires b < n
  {
    if n == 2 then b else (b + 1) % n
  }

  function BigAt(b: nat, n: nat): nat
    requires b < n
  {
    (SmallAt(b, n) + 1) % n
  }

  function ThirdAt(b: nat, n: nat): nat
    requires b < n
  {
    (BigAt(b, n) + 1) % n
  }

  lemma {:induction false} NextIs(i: nat, n: nat)
    requires i < n
    ensures Next(i, n) == (i + 1) % n
  {
    if i + 1 == n { assert (i + 1) % n == 0; } else { SmallMod(i + 1, n); }
  }

  lemma {:induction false} SmallMod(x: nat, n: nat)
    requires x < n
    ensures x % n == x
  {
  }

  lemma {:induction false} OnceRound(x: nat, n: nat)
    requires n <= x < 2 * n
    ensures x % n == x - n
  {
    assert x == 1 * n + (x - n);
  }

  // Places of the deal go clockwise from the button.
  lemma {:induction false} PlaceMeans(b: nat, i: nat, n: nat)
    requires b < n && i < n
    ensures 0 <= DealPlace(b, i, n) < n && (b + 1 + DealPlace(b, i, n)) % n == i
  {
    if i > b { SmallMod(i, n); } else { OnceRound(i + n, n); }
  }

  // ---- posting -----------------------------------------------------------------------------------------------

  // The player at position i straddles.
  predicate Straddles(cfg: Config, ps: seq<Player>, b: nat, i: nat)
    requires b < |ps| && i < |ps|
  {
    && |ps| >= 3 && i == ThirdAt(b, |ps|) && cfg.straddleAmount > 0
    && ps[i].seat == cfg.straddleSeat && Remaining(cfg, ps[i]) > 0
  }

  // What position i bets before anybody acts.
  function Posted(cfg: Config, ps: seq<Player>, b: nat, i: nat): int
    requires b < |ps| && i < |ps|
  {
    var left := Remaining(cfg, ps[i]);
    if i == SmallAt(b, |ps|) then Min(cfg.smallBlind, left)
    else if i == BigAt(b, |ps|) then Min(cfg.bigBlind, left)
    else if Straddles(cfg, ps, b, i) then Min(cfg.straddleAmount, left)
    else 0
  }

  // Antes and dead blinds are in the pot, the blinds and the straddle in front of their players.
  function PostedPlayer(cfg: Config, ps: seq<Player>, b: nat, i: nat): Player
    requires b < |ps| && i < |ps|
  {
    var left := Remaining(cfg, ps[i]);
    var bet := Posted(cfg, ps, b, i);
    ps[i].(stack := left - bet, bet := bet, committed := ps[i].stack - left, allIn := left == bet)
  }

  // The price is the big blind's, or that of a straddle, which counts as a full bet when it is
  // posted in full.
  function PostedRound(cfg: Config, ps: seq<Player>, b: nat): Round
    requires b < |ps|
  {
    var i := ThirdAt(b, |ps|);
    var left := Remaining(cfg, ps[i]);
    if !Straddles(cfg, ps, b, i) then Round(cfg.bigBlind, cfg.bigBlind, cfg.bigBlind, -1, -1)
    else if left >= cfg.straddleAmount then
      Round(cfg.straddleAmount, cfg.straddleAmount, cfg.straddleAmount, -1, -1)
    else Round(if left > cfg.bigBlind then left else cfg.bigBlind, cfg.bigBlind, cfg.bigBlind, -1, -1)
  }

  // Chips into the pot: as many as are asked for, or all there are.
  lemma {:induction false} PostIs(p: Player, amount: int)
    requires p.stack >= 0 && amount >= 0
    ensures var left := p.stack - Min(amount, p.stack);
            0 <= left <= p.stack &&
            Post(p, amount) == p.(stack := left, committed := p.committed + p.stack - left, allIn := left == 0)
  {
  }

  // The ante is in the pot.
  function AntePaid(cfg: Config, p: Player): Player { if cfg.ante > 0 then Post(p, cfg.ante) else p }

  lemma {:induction false} AnteIs(cfg: Config, p: Player)
    requires p.stack > 0 && p.committed == 0 && !p.allIn && cfg.ante >= 0
    ensures var left := p.stack - Min(cfg.ante, p.stack);
            0 <= left <= p.stack &&
            AntePaid(cfg, p) == p.(stack := left, committed := p.stack - left, allIn := left == 0)
  {
    PostIs(p, cfg.ante);
  }

  lemma {:induction false} DeadIs(p: Player)
    requires p.stack >= 0 && (p.allIn <==> p.stack == 0)
    ensures var left := if p.deadBlind <= 0 then p.stack else p.stack - Min(p.deadBlind, p.stack);
            0 <= left <= p.stack &&
            DeadPosted(p) == p.(stack := left, committed := p.committed + p.stack - left, allIn := left == 0)
  {
    if p.deadBlind > 0 { PostIs(p, p.deadBlind); }
  }

  lemma {:induction false} DuesAre(cfg: Config, p: Player)
    requires p.stack > 0 && p.committed == 0 && !p.allIn && p.bet == 0 && cfg.ante >= 0
    ensures var q := DuesPaid(cfg, p); var left := Remaining(cfg, p);
            q == p.(stack := left, committed := p.stack - left, allIn := left == 0) && 0 <= left <= p.stack
  {
    AnteIs(cfg, p);
    DeadIs(AntePaid(cfg, p));
  }

  lemma {:induction false} FreshPlayer(cfg: Config, seats: seq<Seat>, shuffled: seq<Card>, i: nat)
    requires Acceptable(cfg, seats, shuffled) && i < |seats|
    ensures var p := Seated(cfg, seats)[i]; p.stack > 0 && p.committed == 0 && !p.allIn && p.bet == 0
  {
    SeatedInOrder(cfg, seats, shuffled);
    assert Healthy(Seated(cfg, seats)[i]);
    Sorting.SortElements(seats, SeatNumber);
    assert Sorting.SortBy(seats, SeatNumber)[i] in Sorting.SortBy(seats, SeatNumber);
  }

  // The blinds are next to the button.
  lemma {:induction false} BlindPositions(cfg: Config, seats: seq<Seat>, shuffled: seq<Card>)
    requires Acceptable(cfg, seats, shuffled) && ButtonIndex(cfg, Seated(cfg, seats)) >= 0
    ensures var ps := Seated(cfg, seats); var b := ButtonIndex(cfg, ps); var n := |ps|; var sb := SmallBlindAt(cfg, ps);
            && n >= 2 && sb == SmallAt(b, n) && Next(sb, n) == BigAt(b, n) && Next(Next(sb, n), n) == ThirdAt(b, n)
  {
    var ps := Seated(cfg, seats);
    var n := |ps|;
    NextIs(ButtonIndex(cfg, ps), n);
    NextIs(SmallBlindAt(cfg, ps), n);
    NextIs(Next(SmallBlindAt(cfg, ps), n), n);
  }

  // After the straddle, told from the table after the blinds.
  lemma {:induction false} StraddleExactly(s: State, sb: nat, k: nat)
    requires Posting(s) && BlindsAt(s, sb) && k < |s.players|
    ensures var r := PostStraddle(s); var n := |s.players|; var utg := Next(Next(sb, n), n);
            var straddles := n >= 3 && s.cfg.straddleAmount > 0 && s.players[utg].seat == s.cfg.straddleSeat
              && s.players[utg].stack > 0;
            var amount := s.cfg.straddleAmount; var left := s.players[utg].stack;
            && r.players[k] == (if straddles && k == utg then Stake(s.players[k], amount) else s.players[k])
            && r.straddleSeat == (if straddles then s.players[utg].seat else s.straddleSeat)
            && r.deal == s.deal && r.phase == s.phase && r.sbSeat == s.sbSeat && r.bbSeat == s.bbSeat
            && r.round ==
               if !straddles then s.round
               else if left >= amount then s.round.(currentBet := amount, fullLevel := amount, raiseSize := amount)
               else if left > s.round.currentBet then s.round.(currentBet := left)
               else s.round
  {
    FindSeat(s.players, Next(sb, |s.players|));
  }

  lemma {:induction false} BlindRound(cfg: Config, seats: seq<Seat>, shuffled: seq<Card>)
    requires Acceptable(cfg, seats, shuffled) && ButtonIndex(cfg, Seated(cfg, seats)) >= 0
    ensures var s := PostBlinds(Anted(cfg, seats, shuffled));
            && s.round == Round(cfg.bigBlind, cfg.bigBlind, cfg.bigBlind, -1, -1) && s.straddleSeat == -1
  {
    var s := Anted(cfg, seats, shuffled);
    var sb := SmallBlindAt(cfg, Seated(cfg, seats));
    AntedWell(cfg, seats, shuffled);
    FindSeat(s.players, sb);
    var s1 := PostBlind(s, sb, cfg.smallBlind, SmallBlind);
    PostBlindsKeep(s, sb);
    BlindKeepsFind(s, sb, cfg.smallBlind, SmallBlind, s.bbSeat);
    FindSeat(s.players, Next(sb, |s.players|));
  }

  lemma {:induction false} BlindKeepsFind(s: State, i: nat, amount: int, kind: BlindKind, seat: int)
    requires i < |s.players|
    ensures Find(PostBlind(s, i, amount, kind).players, seat) == Find(s.players, seat)
  {
    SeatsMatchFind(s.players, PostBlind(s, i, amount, kind).players, seat, |s.players|);
  }

  lemma {:induction false} DuesSettled(cfg: Config, seats: seq<Seat>, shuffled: seq<Card>, k: nat)
    requires Acceptable(cfg, seats, shuffled) && ButtonIndex(cfg, Seated(cfg, seats)) >= 0 && k < |seats|
    ensures var p := Seated(cfg, seats)[k]; var left := Remaining(cfg, p);
            && Anted(cfg, seats, shuffled).players[k] ==
               p.(stack := left, committed := p.stack - left, allIn := left == 0)
            && 0 <= left <= p.stack && p.bet == 0
  {
    AntedExactly(cfg, seats, shuffled, k);
    FreshPlayer(cfg, seats, shuffled, k);
    DuesAre(cfg, Seated(cfg, seats)[k]);
  }

  // The dues of the players are paid and nothing else has happened to them.
  ghost predicate DuesTable(cfg: Config, ps: seq<Player>, qs: seq<Player>) {
    |qs| == |ps| && forall i :: 0 <= i < |ps| ==>
      var left := Remaining(cfg, ps[i]);
      && qs[i] == ps[i].(stack := left, committed := ps[i].stack - left, allIn := left == 0)
      && 0 <= left <= ps[i].stack && ps[i].bet == 0
  }

  ghost predicate BlindPlayer(cfg: Config, ps: seq<Player>, b: nat, k: nat, q: Player)
    requires b < |ps| && k < |ps|
  {
    var left := Remaining(cfg, ps[k]);
    var bet := if k == SmallAt(b, |ps|) then Min(cfg.smallBlind, left)
      else if k == BigAt(b, |ps|) then Min(cfg.bigBlind, left) else 0;
    && q == ps[k].(stack := left - bet, bet := bet, committed := ps[k].stack - left, allIn := left == bet)
    && 0 <= left
  }

  // The blinds on top of the dues.
  lemma {:induction false} BlindsPosted(cfg: Config, ps: seq<Player>, s: State, b: nat, k: nat)
    requires b < |ps| && k < |ps|
    requires Posting(s) && NoBets(s.players) && BlindsAt(s, SmallAt(b, |ps|)) && s.cfg == cfg
    requires |ps| >= 2 && DuesTable(cfg, ps, s.players) && Next(SmallAt(b, |ps|), |ps|) == BigAt(b, |ps|)
    ensures BlindPlayer(cfg, ps, b, k, PostBlinds(s).players[k])
  {
    PostBlindsKeep(s, SmallAt(b, |ps|));
  }

  lemma {:induction false} StraddlePosted(cfg: Config, ps: seq<Player>, s: State, b: nat, k: nat)
    requires b < |ps| && k < |ps| && |ps| >= 2 && Posting(s) && BlindsAt(s, SmallAt(b, |ps|)) && s.cfg == cfg
    requires |s.players| == |ps| && Next(SmallAt(b, |ps|), |ps|) == BigAt(b, |ps|)
    requires Next(BigAt(b, |ps|), |ps|) == ThirdAt(b, |ps|)
    requires BlindPlayer(cfg, ps, b, k, s.players[k])
    requires |ps| >= 3 ==> BlindPlayer(cfg, ps, b, ThirdAt(b, |ps|), s.players[ThirdAt(b, |ps|)])
    requires s.round == Round(cfg.bigBlind, cfg.bigBlind, cfg.bigBlind, -1, -1)
    ensures var r := PostStraddle(s);
            r.players[k] == PostedPlayer(cfg, ps, b, k) && r.round == PostedRound(cfg, ps, b)
  {
    StraddleExactly(s, SmallAt(b, |ps|), k);
    if |ps| >= 3 { ThirdIsNoBlind(b, |ps|); }
  }

  lemma {:induction false} ThirdIsNoBlind(b: nat, n: nat)
    requires b < n && n >= 3
    ensures ThirdAt(b, n) != SmallAt(b, n) && ThirdAt(b, n) != BigAt(b, n)
  {
    NextIs(b, n);
    NextIs(SmallAt(b, n), n);
    NextIs(BigAt(b, n), n);
  }

  // Before the cards: who has posted what, and what has to be paid to stay in.
  lemma {:induction false} PostedExactly(cfg: Config, seats: seq<Seat>, shuffled: seq<Card>, k: nat)
    requires Acceptable(cfg, seats, shuffled) && ButtonIndex(cfg, Seated(cfg, seats)) >= 0 && k < |seats|
    ensures var ps := Seated(cfg, seats); var b := ButtonIndex(cfg, ps); var r := Opened(cfg, seats, shuffled);
            && r.players[k] == PostedPlayer(cfg, ps, b, k) && r.round == PostedRound(cfg, ps, b)
  {
    var ps := Seated(cfg, seats);
    BlindPositions(cfg, seats, shuffled);
    AntedWell(cfg, seats, shuffled);
    BlindRound(cfg, seats, shuffled);
    forall i | 0 <= i < |ps|
      ensures var p := ps[i]; var left := Remaining(cfg, p);
              && Anted(cfg, seats, shuffled).players[i] ==
                 p.(stack := left, committed := p.stack - left, allIn := left == 0)
              && 0 <= left <= p.stack && p.bet == 0
    {
      DuesSettled(cfg, seats, shuffled, i);
    }
    var s, b := Anted(cfg, seats, shuffled), ButtonIndex(cfg, ps);
    PostBlindsKeep(s, SmallAt(b, |ps|));
    BlindsStay(s, PostBlinds(s), SmallAt(b, |ps|));
    BlindsPosted(cfg, ps, s, b, k);
    BlindsPosted(cfg, ps, s, b, ThirdAt(b, |ps|));
    StraddlePosted(cfg, ps, PostBlinds(s), b, k);
  }

  // ---- the cards ------------------------------------------------------------------------------------------------

  // The position m places after the one left of the button.
  function PlaceAt(b: nat, m: nat, n: nat): (i: nat)
    requires b < n
    ensures i < n
  {
    (b + 1 + m) % n
  }

  // The m-th player from the button gets the m-th card of each of the two rounds.
  lemma {:induction false} HolesInOrder(s: State, b: nat, m: nat)
    requires b < |s.players| && 2 * |s.players| <= |s.deal.deck| && m < |s.players|
    ensures var n := |s.players|; var i := PlaceAt(b, m, n);
            DealHoles(s, b).players[i] == s.players[i].(hole0 := s.deal.deck[m], hole1 := s.deal.deck[n + m])
  {
    var n := |s.players|;
    var i := PlaceAt(b, m, n);
    if b + 1 + m < n { SmallMod(b + 1 + m, n); } else { OnceRound(b + 1 + m, n); }
    assert DealPlace(b, i, n) == m;
  }

  // ---- the whole start --------------------------------------------------------------------------------------------

  // Who the first turn comes after: the straddler, or else the big blind.
  function OpeningAfter(cfg: Config, ps: seq<Player>, b: nat): (i: nat)
    requires b < |ps|
    ensures i < |ps|
  {
    if Straddles(cfg, ps, b, ThirdAt(b, |ps|)) then ThirdAt(b, |ps|) else BigAt(b, |ps|)
  }

  // The table before the first turn.
  ghost predicate OpeningTable(cfg: Config, ps: seq<Player>, shuffled: seq<Card>, m: State) {
    var b := ButtonIndex(cfg, ps); var n := |ps|;
    && b >= 0 && |m.players| == n && 2 * n <= |shuffled| && m.phase == Betting && !m.runout
    && m.round == PostedRound(cfg, ps, b) && m.deal == Deal(shuffled, 2 * n, [], [], false, PREFLOP)
    && forall k :: 0 <= k < n ==> OpeningPlayer(cfg, ps, shuffled, m, k)
  }

  // The k-th player from the button has posted what they must and got the k-th cards.
  ghost predicate OpeningPlayer(cfg: Config, ps: seq<Player>, shuffled: seq<Card>, m: State, k: nat)
    requires k < |ps| == |m.players| && ButtonIndex(cfg, ps) >= 0 && 2 * |ps| <= |shuffled|
  {
    var b := ButtonIndex(cfg, ps);
    var i := PlaceAt(b, k, |ps|);
    m.players[i] == PostedPlayer(cfg, ps, b, i).(hole0 := shuffled[k], hole1 := shuffled[|ps| + k])
  }

  lemma {:induction false} DealtTable(cfg: Config, ps: seq<Player>, shuffled: seq<Card>, s: State)
    requires var b := ButtonIndex(cfg, ps);
             && b >= 0 && |s.players| == |ps| && 2 * |ps| <= |shuffled|
             && (forall k :: 0 <= k < |ps| ==> s.players[k] == PostedPlayer(cfg, ps, b, k))
             && s.round == PostedRound(cfg, ps, b) && s.deal == Deal(shuffled, 0, [], [], false, PREFLOP)
             && s.phase == Betting && !s.runout
    ensures OpeningTable(cfg, ps, shuffled, DealHoles(s, ButtonIndex(cfg, ps)))
  {
    var b := ButtonIndex(cfg, ps);
    forall k | 0 <= k < |ps| ensures OpeningPlayer(cfg, ps, shuffled, DealHoles(s, b), k) {
      HolesInOrder(s, b, k);
    }
  }

  lemma {:induction false} OpeningDealt(cfg: Config, seats: seq<Seat>, shuffled: seq<Card>)
    requires Acceptable(cfg, seats, shuffled) && ButtonIndex(cfg, Seated(cfg, seats)) >= 0
    ensures var s := Opened(cfg, seats, shuffled); var ps := Seated(cfg, seats);
            && 2 * |s.players| <= |s.deal.deck|
            && OpeningTable(cfg, ps, shuffled, DealHoles(s, ButtonIndex(cfg, ps)))
  {
    var ps := Seated(cfg, seats);
    OpenedPrice(cfg, seats, shuffled);
    forall k | 0 <= k < |ps|
      ensures Opened(cfg, seats, shuffled).players[k] == PostedPlayer(cfg, ps, ButtonIndex(cfg, ps), k)
      ensures Opened(cfg, seats, shuffled).round == PostedRound(cfg, ps, ButtonIndex(cfg, ps))
    {
      PostedExactly(cfg, seats, shuffled, k);
    }
    PostedExactly(cfg, seats, shuffled, 0);
    DealtTable(cfg, ps, shuffled, Opened(cfg, seats, shuffled));
  }

  lemma {:induction false} AnchorIs(cfg: Config, seats: seq<Seat>, shuffled: seq<Card>)
    requires Acceptable(cfg, seats, shuffled) && ButtonIndex(cfg, Seated(cfg, seats)) >= 0
    ensures var ps := Seated(cfg, seats); var b := ButtonIndex(cfg, ps); var s := Opened(cfg, seats, shuffled);
            2 * |s.players| <= |s.deal.deck| && FirstToAct(DealHoles(s, b), b) == Next(OpeningAfter(cfg, ps, b), |ps|)
  {
    var ps := Seated(cfg, seats);
    var n := |ps|;
    var b := ButtonIndex(cfg, ps);
    var s := PostBlinds(Anted(cfg, seats, shuffled));
    var sb := SmallBlindAt(cfg, ps);
    BlindPositions(cfg, seats, shuffled);
    AntedWell(cfg, seats, shuffled);
    PostBlindsKeep(Anted(cfg, seats, shuffled), sb);
    BlindsStay(Anted(cfg, seats, shuffled), s, sb);
    BlindRound(cfg, seats, shuffled);
    StraddleExactly(s, sb, 0);
    DuesSettled(cfg, seats, shuffled, ThirdAt(b, n));
    OpenedPrice(cfg, seats, shuffled);
    var r := DealHoles(Opened(cfg, seats, shuffled), b);
    SameSeating(Opened(cfg, seats, shuffled), b);
    FindSeat(r.players, BigAt(b, n));
    FindSeat(r.players, ThirdAt(b, n));
  }

  lemma {:induction false} SameSeating(s: State, b: nat)
    requires Posting(s) && b < |s.players| && 2 * |s.players| <= |s.deal.deck|
    ensures Seating(DealHoles(s, b).players) && SeatsMatch(s.players, DealHoles(s, b).players)
  {
  }

  // The hand starts from exactly this table: blinds, straddle and dues posted, two rounds of cards
  // from the button on, and the turn of the first player after the straddler or the big blind who
  // can act, or the street closed when nobody needs to.
  lemma {:induction false} HandOpens(cfg: Config, seats: seq<Seat>, shuffled: seq<Card>)
    requires SaneConfig(cfg, seats) && NewHand(cfg, seats, shuffled).Done?
    ensures var ps := Seated(cfg, seats);
            && ButtonIndex(cfg, ps) >= 0
            && exists m :: OpeningTable(cfg, ps, shuffled, m) &&
                 Follows(m, OpeningAfter(cfg, ps, ButtonIndex(cfg, ps)), NewHand(cfg, seats, shuffled).state)
  {
    NewHandAccepts(cfg, seats, shuffled);
    OpeningDealt(cfg, seats, shuffled);
    AnchorIs(cfg, seats, shuffled);
    OpenedWell(cfg, seats, shuffled);
    var b := ButtonIndex(cfg, Seated(cfg, seats));
    DealHolesKeeps(Opened(cfg, seats, shuffled), b);
    var m := DealHoles(Opened(cfg, seats, shuffled), b);
    SettleFollows(m, OpeningAfter(cfg, Seated(cfg, seats), b), FirstToAct(m, b), true);
  }
}
