// Dealing: no draw runs past the deck, no card is dealt twice, and both boards of a hand run
// twice share what was out when it was agreed.

module HandDealing {
  import opened Cards
  import opened Pots
  import opened HandModel
  import opened HandRules
  import opened HandChips
  import opened HandInvariant
  import opened HandStart
  import opened HandRuns

  // Cards on the board on each street.
  function BoardSize(street: int): nat {
    if street <= PREFLOP then 0 else if street == FLOP then 3 else if street == TURN then 4 else 5
  }

  // ---- where the cards come from ---------------------------------------------------------------

  // Where in the deck the j-th card of the first or second board comes from, when n players were
  // dealt in and k cards were out when the hand went to two boards. The flop is dealt three
  // cards to the first board and then three to the second.
  function BoardPlace(n: nat, k: nat, j: nat, second: bool): nat {
    if j < k then 2 * n + j
    else
      var street := if j < 3 then 0 else j;
      var size := if j < 3 then 3 else 1;
      2 * n + (if street >= k then k + 2 * (street - k) else k) + (if second then size else 0) + (j - street)
  }

  // The board's cards come from their places in the deck; of a second board, those from the
  // k-th on from places of its own.
  ghost predicate BoardFrom(deck: seq<Card>, board: seq<Card>, n: nat, k: nat, second: bool) {
    forall j :: 0 <= j < |board| ==> InPlace(deck, board[j], BoardPlace(n, k, j, second && j >= k))
  }

  ghost predicate InPlace(deck: seq<Card>, card: Card, place: nat) {
    place < |deck| && card == deck[place]
  }

  // Where the hole cards were in the deck: two rounds, each beginning behind the button.
  ghost predicate HolesFrom(s: State) {
    var n := |s.players|; var b := ButtonIndex(s.cfg, s.players);
    && b >= 0 && 2 * n + 5 <= |s.deal.deck|
    && forall i :: 0 <= i < n ==>
         && s.players[i].hole0 == s.deal.deck[DealPlace(b, i, n)]
         && s.players[i].hole1 == s.deal.deck[n + DealPlace(b, i, n)]
  }

  // The boards come next, with enough cards left to complete them.
  ghost predicate BoardsFrom(n: nat, d: Deal, k: nat) {
    && 2 * n + 5 <= |d.deck|
    && |d.board| == BoardSize(d.street)
    && k <= |d.board| && (k == 0 || k >= 3)
    && BoardFrom(d.deck, d.board, n, k, false)
    && if d.runTwice then
         && |d.board2| == |d.board|
         && d.deckPos == 2 * n + k + 2 * (|d.board| - k)
         && d.deckPos + 2 * (5 - |d.board|) <= |d.deck|
         && BoardFrom(d.deck, d.board2, n, k, true)
       else k == |d.board| && d.board2 == [] && d.deckPos == 2 * n + |d.board|
  }

  ghost predicate DealtFrom(s: State, k: nat) {
    HolesFrom(s) && BoardsFrom(|s.players|, s.deal, k)
  }

  ghost predicate WellDealt(s: State) {
    s.deal.street >= PREFLOP && exists k: nat :: DealtFrom(s, k)
  }

  // ---- what that means -----------------------------------------------------------------------------

  // Every card dealt, once: the hole cards, the first board and the second board's own cards.
  function DealtCards(s: State, k: nat): seq<Card>
    requires k <= |s.deal.board2| || !s.deal.runTwice
  {
    var n := |s.players|;
    seq(n, i requires 0 <= i < n => s.players[i].hole0) + seq(n, i requires 0 <= i < n => s.players[i].hole1) +
    s.deal.board + if s.deal.runTwice then s.deal.board2[k..] else []
  }

  // Where in the deck each of them comes from, with n players, m cards on the board and the
  // button at position b.
  function Source(n: nat, m: nat, k: nat, b: nat, a: nat): int {
    if a < n then DealPlace(b, a, n)
    else if a < 2 * n then n + DealPlace(b, a - n, n)
    else if a < 2 * n + m then BoardPlace(n, k, a - 2 * n, false)
    else BoardPlace(n, k, k + (a - 2 * n - m), true)
  }

  lemma {:induction false} DealtSources(s: State, k: nat, a: nat)
    requires DealtFrom(s, k) && a < |DealtCards(s, k)|
    ensures var i := Source(|s.players|, |s.deal.board|, k, ButtonIndex(s.cfg, s.players), a);
            0 <= i < |s.deal.deck| && DealtCards(s, k)[a] == s.deal.deck[i]
  {
    var n := |s.players|; var m := |s.deal.board|;
    if a < n {
    } else if a < 2 * n {
    } else if a < 2 * n + m {
      assert DealtCards(s, k)[a] == s.deal.board[a - 2 * n];
    } else {
      assert DealtCards(s, k)[a] == s.deal.board2[k + (a - 2 * n - m)];
    }
  }

  // A card of the first board, or one of the second board's own, has its own place.
  lemma {:induction false} BoardPlacesDiffer(n: nat, k: nat, i: nat, second: bool, j: nat, second': bool)
    requires (k == 0 || k >= 3) && (second ==> i >= k) && (second' ==> j >= k) && (i, second) != (j, second')
    ensures BoardPlace(n, k, i, second) != BoardPlace(n, k, j, second') && BoardPlace(n, k, i, second) >= 2 * n
  {
  }

  lemma {:induction false} SourcesDiffer(n: nat, m: nat, k: nat, b: nat, x: nat, y: nat)
    requires b < n && (k == 0 || k >= 3) && x < y
    ensures Source(n, m, k, b, x) != Source(n, m, k, b, y)
  {
    if y >= 2 * n {
      var sy := y >= 2 * n + m;
      var j := if sy then k + (y - 2 * n - m) else y - 2 * n;
      var sx := x >= 2 * n + m;
      var i := if sx then k + (x - 2 * n - m) else if x >= 2 * n then x - 2 * n else 0;
      BoardPlacesDiffer(n, k, j, sy, if x >= 2 * n then i else j + k + 1, sx);
    }
  }

  // Hole cards, board and the second board's own cards are pairwise different cards.
  lemma {:induction false} DealtDistinct(s: State, k: nat)
    requires DealtFrom(s, k) && NoDuplicates(s.deal.deck)
    ensures NoDuplicates(DealtCards(s, k))
  {
    var b := ButtonIndex(s.cfg, s.players);
    forall x, y | 0 <= x < y < |DealtCards(s, k)| ensures DealtCards(s, k)[x] != DealtCards(s, k)[y] {
      DealtSources(s, k, x);
      DealtSources(s, k, y);
      SourcesDiffer(|s.players|, |s.deal.board|, k, b, x, y);
    }
  }

  // ---- keeping it ------------------------------------------------------------------------------------

  lemma {:induction false} DealtCarries(s: State, r: State, k: nat)
    requires DealtFrom(s, k) && Lineage(s, r) && r.deal == s.deal
    ensures DealtFrom(r, k)
  {
    SameSeatsFind(s.players, r.players, s.cfg.button, |s.players|);
    forall i | 0 <= i < |s.players|
      ensures r.players[i].hole0 == s.players[i].hole0 && r.players[i].hole1 == s.players[i].hole1
    {
      assert Kin(s.players[i], r.players[i]);
    }
  }

  // The places of the cards a street adds to both boards.
  lemma {:induction false} NewPlaces(n: nat, k: nat, m: nat, size: nat, j: nat)
    requires k <= m <= j < m + size && (k == 0 || k >= 3) && ((m == 0 && size == 3) || (m >= 3 && size == 1))
    ensures BoardPlace(n, k, j, false) == 2 * n + k + 2 * (m - k) + (j - m)
    ensures BoardPlace(n, k, j, true) == 2 * n + k + 2 * (m - k) + size + (j - m)
  {
  }

  lemma {:induction false} BoardGrows(deck: seq<Card>, board: seq<Card>, n: nat, k: nat, size: nat, second: bool,
        pos: nat)
    requires BoardFrom(deck, board, n, k, second)
    requires k <= |board| && (k == 0 || k >= 3) && ((|board| == 0 && size == 3) || (|board| >= 3 && size == 1))
    requires pos == 2 * n + k + 2 * (|board| - k) + (if second then size else 0) && pos + size <= |deck|
    ensures BoardFrom(deck, board + deck[pos..pos + size], n, k, second)
  {
    var longer := board + deck[pos..pos + size];
    forall j | 0 <= j < |longer|
      ensures InPlace(deck, longer[j], BoardPlace(n, k, j, second && j >= k))
    {
      if j >= |board| {
        NewPlaces(n, k, |board|, size, j);
        assert longer[j] == deck[pos..pos + size][j - |board|] == deck[pos + (j - |board|)];
      } else {
        assert longer[j] == board[j];
      }
    }
    assert BoardFrom(deck, longer, n, k, second);
  }

  // Dealing a street on one board: all of it is shared so far.
  lemma {:induction false} StreetDealtOnce(n: nat, d: Deal, k: nat)
    requires BoardsFrom(n, d, k) && PREFLOP <= d.street < RIVER && !d.runTwice
    ensures BoardsFrom(n, NextDeal(d), k + StreetCards(d.street + 1)) && NextDeal(d).deckPos <= |d.deck|
  {
    var size := StreetCards(d.street + 1);
    var longer := d.board + d.deck[d.deckPos..d.deckPos + size];
    forall j | 0 <= j < |longer| ensures InPlace(d.deck, longer[j], BoardPlace(n, k + size, j, false)) {
      if j >= |d.board| {
        assert longer[j] == d.deck[d.deckPos..d.deckPos + size][j - |d.board|];
      } else {
        assert InPlace(d.deck, d.board[j], BoardPlace(n, k, j, false));
      }
    }
    assert BoardFrom(d.deck, longer, n, k + size, false);
  }

  lemma {:induction false} TwiceShape(n: nat, d: Deal, k: nat)
    requires BoardsFrom(n, d, k) && PREFLOP <= d.street < RIVER && d.runTwice
    ensures var size := StreetCards(d.street + 1); var pos := d.deckPos;
            && pos + 2 * size <= |d.deck|
            && NextDeal(d) == d.(street := d.street + 1, deckPos := pos + size + size,
                 board := d.board + d.deck[pos..pos + size], board2 := d.board2 + d.deck[pos + size..pos + size + size])
  {
  }

  lemma {:induction false} TwiceBoards(n: nat, d: Deal, k: nat)
    requires BoardsFrom(n, d, k) && PREFLOP <= d.street < RIVER && d.runTwice
    ensures var size := StreetCards(d.street + 1); var pos := d.deckPos;
            && pos + 2 * size <= |d.deck|
            && BoardFrom(d.deck, d.board + d.deck[pos..pos + size], n, k, false)
            && BoardFrom(d.deck, d.board2 + d.deck[pos + size..pos + size + size], n, k, true)
  {
    var size := StreetCards(d.street + 1);
    BoardGrows(d.deck, d.board, n, k, size, false, d.deckPos);
    BoardGrows(d.deck, d.board2, n, k, size, true, d.deckPos + size);
  }

  lemma {:induction false} StreetDealtTwice(n: nat, d: Deal, k: nat)
    requires BoardsFrom(n, d, k) && PREFLOP <= d.street < RIVER && d.runTwice
    ensures BoardsFrom(n, NextDeal(d), k) && NextDeal(d).deckPos <= |d.deck|
  {
    var size := StreetCards(d.street + 1);
    var r := NextDeal(d);
    TwiceShape(n, d, k);
    TwiceBoards(n, d, k);
    assert |r.board| == BoardSize(r.street) == |d.board| + size;
  }

  lemma {:induction false} BoardsPart(s: State, k: nat)
    requires DealtFrom(s, k) && CanRunItTwice(s)
    ensures DealtFrom(RunItTwice(s).state, |s.deal.board|)
  {
  }

  // How many cards both boards share: those that were out when the hand went to two boards, or
  // so far all of them.
  function SharedAfter(s: State, k: nat, r: State): nat { if s.deal.runTwice then k else |r.deal.board| }

  // A draw always finds its cards: dealing the next street stays within the deck.
  lemma {:induction false} StreetIsDealt(s: State, k: nat)
    requires DealtFrom(s, k) && PREFLOP <= s.deal.street < RIVER
    ensures var r := DealStreet(s); DealtFrom(r, SharedAfter(s, k, r)) && r.deal.deckPos <= |r.deal.deck|
  {
    if s.deal.runTwice {
      StreetDealtTwice(|s.players|, s.deal, k);
    } else {
      StreetDealtOnce(|s.players|, s.deal, k);
    }
    assert HolesFrom(DealStreet(s));
  }

  lemma {:induction false} StepDealt(s: State, c: Command, k: nat)
    requires Inv(s) && DealtFrom(s, k)
    ensures DealtFrom(After(s, c), SharedAfter(s, k, After(s, c)))
  {
    if Step(s, c).Done? {
      StepKeeps(s, c);
      match c
      case DoApply(seat, a) =>
        var m := Perform(s.cfg, s.round, s.players[s.round.toAct], a);
        SettleDeal(AfterMove(s, m.player, m.round, m.kind), s.round.toAct, false);
        DealtCarries(s, After(s, c), k);
      case DoTimeout(seat) =>
        SettleDeal(AfterTimeout(s), s.round.toAct, false);
        DealtCarries(s, After(s, c), k);
      case DoForfeit(seat) =>
        ForfeitDeal(s, seat);
        DealtCarries(s, After(s, c), k);
      case DoAdvance => AdvanceDealt(s, k);
      case DoRunItTwice => BoardsPart(s, k);
      case DoRevealNext =>
        RevealNextDeal(s);
        DealtCarries(s, After(s, c), k);
    }
  }

  lemma {:induction false} RevealNextDeal(s: State)
    requires RevealNext(s).Done?
    ensures RevealNext(s).state.deal == s.deal
  {
    RevealStepShrinks(s, true);
    RevealStepShrinks(s, false);
  }

  lemma {:induction false} AdvanceDealt(s: State, k: nat)
    requires Inv(s) && DealtFrom(s, k) && Advance(s).Done?
    ensures DealtFrom(Advance(s).state, SharedAfter(s, k, Advance(s).state))
  {
    var s1 := DealStreet(s);
    var j := SharedAfter(s, k, s1);
    StreetIsDealt(s, k);
    LineageSelf(s, s1);
    SoundCarries(s, s1);
    if s.runout {
      if s1.deal.street == RIVER {
        ToShowdownKeeps(s1);
        ToShowdownDeal(s1);
        DealtCarries(s1, Advance(s).state, j);
      }
    } else {
      var s2 := NewRound(s1);
      NewRoundKeeps(s1);
      var from := Next(ButtonIndex(s.cfg, s.players), |s.players|);
      SettleKeeps(s2, from, true);
      SettleDeal(s2, from, true);
      LineageOn(s1, s2, Advance(s).state);
      DealtCarries(s1, Advance(s).state, j);
    }
  }

  // ---- every run -------------------------------------------------------------------------------------

  lemma {:induction false} HolesDealt(s: State, b: nat)
    requires b < |s.players| && 2 * |s.players| + 5 <= |s.deal.deck|
    requires ButtonIndex(s.cfg, DealHoles(s, b).players) == b
    requires s.deal == Deal(s.deal.deck, 0, [], [], false, PREFLOP)
    ensures HolesFrom(DealHoles(s, b)) && BoardsFrom(|s.players|, DealHoles(s, b).deal, 0)
  {
  }

  // The state of n players dealt in from the deck.
  ghost predicate FreshlyDealt(s: State, n: nat, deck: seq<Card>) {
    DealtFrom(s, |s.deal.board|) && WellDealt(s) && |s.players| == n && s.deal.deck == deck
  }

  lemma {:induction false} NewHandDealt(cfg: Config, seats: seq<Seat>, shuffled: seq<Card>)
    requires SaneConfig(cfg, seats) && NewHand(cfg, seats, shuffled).Done?
    ensures FreshlyDealt(NewHand(cfg, seats, shuffled).state, |seats|, shuffled)
  {
    var ps := Seated(cfg, seats);
    var b := ButtonIndex(cfg, ps);
    OpenedWell(cfg, seats, shuffled);
    var s := Opened(cfg, seats, shuffled);
    SameSeatsFind(ps, s.players, cfg.button, |ps|);
    DealHolesKeeps(s, b);
    var s1 := DealHoles(s, b);
    SeatsMatchFind(s.players, s1.players, cfg.button, |ps|);
    HolesDealt(s, b);
    assert DealtFrom(s1, 0);
    SettleKeeps(s1, FirstToAct(s1, b), true);
    SettleDeal(s1, FirstToAct(s1, b), true);
    DealtCarries(s1, NewHand(cfg, seats, shuffled).state, 0);
  }

  lemma {:induction false} StepDeck(s: State, c: Command)
    requires Inv(s)
    ensures After(s, c).deal.deck == s.deal.deck
  {
    if Step(s, c).Done? {
      match c
      case DoApply(seat, a) =>
        var m := Perform(s.cfg, s.round, s.players[s.round.toAct], a);
        SettleDeal(AfterMove(s, m.player, m.round, m.kind), s.round.toAct, false);
      case DoTimeout(seat) => SettleDeal(AfterTimeout(s), s.round.toAct, false);
      case DoForfeit(seat) => ForfeitDeal(s, seat);
      case DoAdvance =>
        ToShowdownDeal(DealStreet(s));
        SettleDeal(NewRound(DealStreet(s)), Next(ButtonIndex(s.cfg, s.players), |s.players|), true);
      case DoRunItTwice =>
      case DoRevealNext => RevealNextDeal(s);
    }
  }

  // The cards both boards share after a run: the board as it was when a second one was agreed
  // on, and the whole board when none was.
  function Shared(s: State, cs: seq<Command>): nat {
    if cs == [] then |s.deal.board|
    else
      var init := cs[..|cs| - 1];
      SharedAfter(Run(s, init), Shared(s, init), Run(s, cs))
  }

  lemma {:induction false} RunDealt(s: State, cs: seq<Command>)
    requires Inv(s) && DealtFrom(s, |s.deal.board|)
    ensures Inv(Run(s, cs)) && DealtFrom(Run(s, cs), Shared(s, cs))
    ensures Run(s, cs).deal.deck == s.deal.deck && |Run(s, cs).players| == |s.players|
    decreases |cs|
  {
    if cs != [] {
      var r := Run(s, cs[..|cs| - 1]);
      RunDealt(s, cs[..|cs| - 1]);
      StepKeeps(r, cs[|cs| - 1]);
      StepDealt(r, cs[|cs| - 1], Shared(s, cs[..|cs| - 1]));
      StepDeck(r, cs[|cs| - 1]);
    }
  }

  lemma {:induction false} SharedStart(s: State, k: nat)
    requires DealtFrom(s, k) && s.deal.runTwice
    ensures s.deal.board[..k] == s.deal.board2[..k]
  {
    forall j | 0 <= j < k ensures s.deal.board[j] == s.deal.board2[j] {
      assert s.deal.board[j] == s.deal.deck[BoardPlace(|s.players|, k, j, false)];
    }
  }

  lemma {:induction false} DealtOfVariant(s: State, k: nat, variant: Variant, card: Card)
    requires DealtFrom(s, k) && multiset(s.deal.deck) == multiset(Deck(variant)) && card in DealtCards(s, k)
    ensures card in Deck(variant)
  {
    var a :| 0 <= a < |DealtCards(s, k)| && DealtCards(s, k)[a] == card;
    DealtSources(s, k, a);
    assert card in s.deal.deck;
    assert card in multiset(s.deal.deck);
  }

  // What the places of the cards in the deck come to.
  ghost predicate FairlyDealt(r: State, k: nat, variant: Variant) {
    var d := r.deal;
    && (k <= |d.board2| || !d.runTwice) && NoDuplicates(DealtCards(r, k))
    && (forall card :: card in DealtCards(r, k) ==> card in Deck(variant))
    && d.deckPos <= |d.deck| == DeckSize(variant)
    && |d.board| == BoardSize(d.street)
    && (d.runTwice ==> k <= |d.board| == |d.board2| && d.board[..k] == d.board2[..k])
  }

  lemma {:induction false} PlacesAreFair(r: State, k: nat, variant: Variant)
    requires DealtFrom(r, k) && multiset(r.deal.deck) == multiset(Deck(variant))
    ensures FairlyDealt(r, k, variant)
  {
    DeckIsComplete(variant);
    DistinctUnderShuffle(Deck(variant), r.deal.deck);
    DealtDistinct(r, k);
    assert |multiset(r.deal.deck)| == |r.deal.deck| && |multiset(Deck(variant))| == |Deck(variant)|;
    forall card | card in DealtCards(r, k) ensures card in Deck(variant) {
      DealtOfVariant(r, k, variant, card);
    }
    if r.deal.runTwice { SharedStart(r, k); }
  }

  lemma {:induction false} RunIsFair(s: State, n: nat, shuffled: seq<Card>, cs: seq<Command>, variant: Variant)
    requires Inv(s) && FreshlyDealt(s, n, shuffled) && multiset(shuffled) == multiset(Deck(variant))
    ensures FairlyDealt(Run(s, cs), Shared(s, cs), variant)
  {
    RunDealt(s, cs);
    PlacesAreFair(Run(s, cs), Shared(s, cs), variant);
  }

  // In every run of a hand dealt from a shuffled deck of the variant: the cards dealt so far are
  // pairwise different cards of the variant, the deck has not run out, the board is as long as
  // the street says, and in a hand run twice both boards are as long as each other and begin
  // with the cards that were out when it was agreed.
  lemma {:induction false} DealingIsFair(cfg: Config, seats: seq<Seat>, shuffled: seq<Card>, cs: seq<Command>)
    requires SaneConfig(cfg, seats) && NewHand(cfg, seats, shuffled).Done?
    requires multiset(shuffled) == multiset(Deck(cfg.variant))
    ensures var s := NewHand(cfg, seats, shuffled).state; FairlyDealt(Run(s, cs), Shared(s, cs), cfg.variant)
  {
    NewHandStarts(cfg, seats, shuffled);
    NewHandDealt(cfg, seats, shuffled);
    RunIsFair(NewHand(cfg, seats, shuffled).state, |seats|, shuffled, cs, cfg.variant);
  }

  lemma {:induction false} SecondBoardIff(s: State, n: nat, shuffled: seq<Card>, cs: seq<Command>)
    requires Inv(s) && FreshlyDealt(s, n, shuffled)
    ensures var r := Run(s, cs);
            CanRunItTwice(r) <==>
              && r.phase == DealPending && r.runout && !r.deal.runTwice
              && 2 * n + 5 + (5 - |r.deal.board|) <= |shuffled|
  {
    RunDealt(s, cs);
  }

  // In every run a second board is offered in a run-out, once, exactly when the deck holds
  // enough cards for it: two a player, five for the first board, and what is still to come again.
  lemma {:induction false} SecondBoardOffered(cfg: Config, seats: seq<Seat>, shuffled: seq<Card>, cs: seq<Command>)
    requires SaneConfig(cfg, seats) && NewHand(cfg, seats, shuffled).Done?
    ensures var r := Run(NewHand(cfg, seats, shuffled).state, cs);
            CanRunItTwice(r) <==>
              && r.phase == DealPending && r.runout && !r.deal.runTwice
              && 2 * |seats| + 5 + (5 - |r.deal.board|) <= |shuffled|
  {
    NewHandStarts(cfg, seats, shuffled);
    NewHandDealt(cfg, seats, shuffled);
    SecondBoardIff(NewHand(cfg, seats, shuffled).state, |seats|, shuffled, cs);
  }
}
