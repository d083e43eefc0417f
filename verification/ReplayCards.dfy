// The cards the events name (deal in backend/cmd/simulate/hand.go keeps a set of those seen and
// rejects a card dealt twice): in every run they are the deck from the top, each once.

module ReplayCards {
  import opened Cards
  import opened Pots
  import opened Payout
  import opened HandModel
  import opened HandRules
  import opened HandChips
  import opened HandInvariant
  import opened HandStart
  import opened HandRuns
  import opened HandDealing

  function CardsOf(e: Event): seq<Card> {
    match e
    case HoleCardsDealt(_, first, second) => [first, second]
    case StreetDealt(_, cards, _) => cards
    case _ => []
  }

  // How often the card is among the first n.
  function Times(cards: seq<Card>, c: Card, n: nat): nat
    requires n <= |cards|
  {
    if n == 0 then 0 else Times(cards, c, n - 1) + if cards[n - 1] == c then 1 else 0
  }

  // How often the first n events name the card.
  function Named(log: seq<Event>, c: Card, n: nat): nat
    requires n <= |log|
  {
    if n == 0 then 0 else Named(log, c, n - 1) + Times(CardsOf(log[n - 1]), c, |CardsOf(log[n - 1])|)
  }

  lemma {:induction false} NamedFirst(a: seq<Event>, b: seq<Event>, c: Card, n: nat)
    requires n <= |a|
    ensures Named(a + b, c, n) == Named(a, c, n)
  {
    if n > 0 { NamedFirst(a, b, c, n - 1); }
  }

  lemma {:induction false} NamedLast(a: seq<Event>, b: seq<Event>, c: Card, n: nat)
    requires n <= |b|
    ensures Named(a + b, c, |a| + n) == Named(a, c, |a|) + Named(b, c, n)
  {
    if n == 0 {
      NamedFirst(a, b, c, |a|);
    } else {
      NamedLast(a, b, c, n - 1);
      assert (a + b)[|a| + n - 1] == b[n - 1];
    }
  }

  lemma {:induction false} NamedMore(before: seq<Event>, es: seq<Event>, after: seq<Event>, c: Card)
    requires after == before + es
    ensures Named(after, c, |after|) == Named(before, c, |before|) + Named(es, c, |es|)
  {
    NamedLast(before, es, c, |es|);
  }

  lemma {:induction false} NoneNamed(es: seq<Event>, c: Card, n: nat)
    requires n <= |es| && forall i :: 0 <= i < |es| ==> CardsOf(es[i]) == []
    ensures Named(es, c, n) == 0
  {
    if n > 0 { NoneNamed(es, c, n - 1); }
  }

  // The log has been extended by events that name no cards.
  ghost predicate Quiet(s: State, r: State) {
    forall c :: Named(r.log, c, |r.log|) == Named(s.log, c, |s.log|)
  }

  lemma {:induction false} QuietEvents(s: State, r: State, es: seq<Event>)
    requires r.log == s.log + es && forall i :: 0 <= i < |es| ==> CardsOf(es[i]) == []
    ensures Quiet(s, r)
  {
    forall c ensures Named(r.log, c, |r.log|) == Named(s.log, c, |s.log|) {
      NamedLast(s.log, es, c, |es|);
      NoneNamed(es, c, |es|);
    }
  }

  // ---- steps without cards ------------------------------------------------------------------------------

  lemma {:induction false} CloseBetsQuiet(s: State)
    requires |s.players| > 0
    ensures Quiet(s, CloseBets(s))
  {
    var s1 := ReturnUncalled(s);
    if s1 != s { QuietEvents(s, s1, [s1.log[|s.log|]]); }
    QuietEvents(s1, CloseBets(s), [CloseBets(s).log[|s1.log|]]);
  }

  lemma {:induction false} RevealQuiet(s: State)
    ensures Quiet(s, RevealEveryone(s))
  {
    if RevealEveryone(s) != s { QuietEvents(s, RevealEveryone(s), [RevealEveryone(s).log[|s.log|]]); }
  }

  lemma {:induction false} AwardEventsQuiet(awards: seq<PotAward>)
    ensures forall i :: 0 <= i < |AllAwardEvents(awards)| ==> CardsOf(AllAwardEvents(awards)[i]) == []
  {
    if awards != [] { AwardEventsQuiet(awards[1..]); }
  }

  lemma {:induction false} FinishQuiet(s: State, awards: seq<PotAward>, pots: seq<Pot>)
    ensures Quiet(s, Finish(PayOut(s, awards), awards, pots))
  {
    var s1 := PayOut(s, awards);
    var r := Finish(s1, awards, pots);
    AwardEventsQuiet(awards);
    QuietEvents(s, s1, AllAwardEvents(awards));
    QuietEvents(s1, r, [r.log[|s1.log|]]);
  }

  lemma {:induction false} AwardPotsQuiet(s: State)
    ensures Quiet(s, AwardPots(s))
  {
    var s1 := ShowWinners(s, FinalWinners(s));
    if s1 != s { QuietEvents(s, s1, [s1.log[|s.log|]]); }
    FinishQuiet(s1, FinalAwards(s), PotsOf(s.players));
  }

  lemma {:induction false} UncontestedQuiet(s: State, winner: nat)
    requires winner < |s.players|
    ensures Quiet(s, FinishUncontested(s, winner))
  {
    var s1 := CloseBets(s);
    var pots := PotsOf(s1.players);
    CloseBetsQuiet(s);
    FinishQuiet(s1, SoleAwards(pots, 0, s.players[winner].seat), pots);
  }

  lemma {:induction false} ToShowdownQuiet(s: State)
    requires |s.players| > 0
    ensures Quiet(s, ToShowdown(s))
  {
    AwardPotsQuiet(s.(round := s.round.(toAct := -1)));
  }

  lemma {:induction false} EndStreetQuiet(s: State)
    requires |s.players| > 0
    ensures Quiet(s, EndStreet(s))
  {
    var s1 := CloseBets(s).(round := CloseBets(s).round.(toAct := -1));
    CloseBetsQuiet(s);
    if s1.deal.street == RIVER { ToShowdownQuiet(s1); }
    else { RevealQuiet(s1.(phase := DealPending, runout := true)); }
  }

  lemma {:induction false} SettleQuiet(s: State, from: nat, inclusive: bool)
    requires from < |s.players|
    ensures Quiet(s, Settle(s, from, inclusive))
  {
    var n := |s.players|;
    if LastLive(s.players, n) >= 0 { UncontestedQuiet(s, LastLive(s.players, n)); }
    EndStreetQuiet(s);
  }

  lemma {:induction false} LeftOverQuiet(s: State, i: nat)
    requires i < |s.players|
    ensures Quiet(s, LeftOver(s, i))
  {
    var n := |s.players|;
    if LastLive(s.players, n) >= 0 { UncontestedQuiet(s.(phase := Betting), LastLive(s.players, n)); }
    SettleQuiet(s, i, false);
    EndStreetQuiet(s);
  }

  lemma {:induction false} ForfeitQuiet(s: State, seat: int)
    requires Forfeit(s, seat).Done?
    ensures Quiet(s, Forfeit(s, seat).state)
  {
    var i := Find(s.players, seat);
    QuietEvents(s, AfterForfeit(s, i), [ActionTaken(s.players[i].seat, 0, false, Fold)]);
    ForfeitIs(s, seat);
    LeftOverQuiet(AfterForfeit(s, i), i);
  }

  lemma {:induction false} TurnedQuiet(s: State, i: nat, show: bool)
    requires i < |s.players|
    ensures Quiet(s, Turned(s, i, show)) && Quiet(s, AwardPots(Turned(s, i, show)))
  {
    var r := Turned(s, i, show);
    if r != s { QuietEvents(s, r, [r.log[|s.log|]]); }
    AwardPotsQuiet(r);
  }

  lemma {:induction false} RevealNextQuiet(s: State)
    requires RevealNext(s).Done?
    ensures Quiet(s, RevealNext(s).state)
  {
    TurnedQuiet(Called(s), s.show.order[s.show.idx], MustShow(Called(s), s.players[s.show.order[s.show.idx]]));
  }

  // ---- the cards that go out ------------------------------------------------------------------------------

  // The events name what has left the deck.
  ghost predicate NamesDealt(s: State) {
    && s.deal.deckPos <= |s.deal.deck|
    && forall c :: Named(s.log, c, |s.log|) == Times(s.deal.deck, c, s.deal.deckPos)
  }

  lemma {:induction false} QuietNames(s: State, r: State)
    requires NamesDealt(s) && Quiet(s, r) && r.deal.deck == s.deal.deck && r.deal.deckPos == s.deal.deckPos
    ensures NamesDealt(r)
  {
  }

  lemma {:induction false} TimesInSlice(deck: seq<Card>, pos: nat, end: nat, c: Card, n: nat)
    requires pos + n <= end <= |deck|
    ensures Times(deck[pos..end], c, n) == Times(deck, c, pos + n) - Times(deck, c, pos)
  {
    if n > 0 { TimesInSlice(deck, pos, end, c, n - 1); }
  }

  // The events of a street name the next cards of the deck.
  lemma {:induction false} StreetEventsName(d: Deal, c: Card)
    requires NextDeal(d).deckPos <= |d.deck|
    ensures var es := StreetEvents(d);
            Named(es, c, |es|) == Times(d.deck, c, NextDeal(d).deckPos) - Times(d.deck, c, d.deckPos)
  {
    var n := StreetCards(d.street + 1);
    var es := StreetEvents(d);
    OneStreetNames(es, 0, d.deck, d.deckPos, n, c);
    if d.runTwice { OneStreetNames(es, 1, d.deck, d.deckPos + n, n, c); }
  }

  lemma {:induction false} OneStreetNames(es: seq<Event>, i: nat, deck: seq<Card>, pos: nat, n: nat, c: Card)
    requires i < |es| && pos + n <= |deck| && CardsOf(es[i]) == deck[pos..pos + n]
    ensures Named(es, c, i + 1) == Named(es, c, i) + Times(deck, c, pos + n) - Times(deck, c, pos)
  {
    TimesInSlice(deck, pos, pos + n, c, n);
  }

  lemma {:induction false} StreetNames(s: State)
    requires NamesDealt(s) && NextDeal(s.deal).deckPos <= |s.deal.deck|
    ensures NamesDealt(DealStreet(s))
  {
    var es := StreetEvents(s.deal);
    var r := DealStreet(s);
    forall c ensures Named(r.log, c, |r.log|) == Times(r.deal.deck, c, r.deal.deckPos) {
      StreetEventsName(s.deal, c);
      NamedMore(s.log, es, r.log, c);
    }
  }

  // The hole cards of the first m players in the deal.
  lemma {:induction false} HoleNames(ps: seq<Player>, b: nat, deck: seq<Card>, m: nat, c: Card)
    requires b < |ps| && 2 * |ps| <= |deck| && m <= |ps|
    ensures var n := |ps|;
            Named(HoleEvents(WithHoles(ps, b, deck), b), c, m) ==
            Times(deck, c, m) + Times(deck, c, n + m) - Times(deck, c, n)
  {
    if m > 0 {
      var n := |ps|;
      var es := HoleEvents(WithHoles(ps, b, deck), b);
      HoleNames(ps, b, deck, m - 1, c);
      var i := Around(b, m - 1, n);
      assert DealPlace(b, i, n) == m - 1;
      assert CardsOf(es[m - 1]) == [deck[m - 1], deck[n + m - 1]];
      TwoCards(deck[m - 1], deck[n + m - 1], c);
    }
  }

  lemma {:induction false} TwoCards(x: Card, y: Card, c: Card)
    ensures Times([x, y], c, 2) == (if x == c then 1 else 0) + if y == c then 1 else 0
  {
    assert Times([x, y], c, 1) == Times([x, y], c, 0) + if x == c then 1 else 0;
  }

  lemma {:induction false} HoleLog(s: State, b: nat) returns (es: seq<Event>)
    requires b < |s.players| && 2 * |s.players| <= |s.deal.deck|
    ensures es == HoleEvents(WithHoles(s.players, b, s.deal.deck), b) && |es| == |s.players|
    ensures DealHoles(s, b).log == s.log + es
  {
    es := HoleEvents(WithHoles(s.players, b, s.deal.deck), b);
  }

  lemma {:induction false} HolesNameCard(s: State, b: nat, c: Card)
    requires b < |s.players| && 2 * |s.players| <= |s.deal.deck| && Named(s.log, c, |s.log|) == 0
    ensures var r := DealHoles(s, b); Named(r.log, c, |r.log|) == Times(s.deal.deck, c, 2 * |s.players|)
  {
    var es := HoleLog(s, b);
    HoleNames(s.players, b, s.deal.deck, |s.players|, c);
    NamedMore(s.log, es, DealHoles(s, b).log, c);
  }

  lemma {:induction false} HolesName(s: State, b: nat)
    requires b < |s.players| && 2 * |s.players| <= |s.deal.deck| && NothingNamed(s)
    ensures NamesDealt(DealHoles(s, b))
  {
    var r := DealHoles(s, b);
    forall c ensures Named(r.log, c, |r.log|) == Times(r.deal.deck, c, r.deal.deckPos) {
      HolesNameCard(s, b, c);
    }
  }

  ghost predicate NothingNamed(s: State) { forall c :: Named(s.log, c, |s.log|) == 0 }

  // ---- the start ----------------------------------------------------------------------------------------------

  lemma {:induction false} AntesQuiet(s: State, b: nat, m: nat)
    requires b < |s.players| && m <= |s.players|
    ensures Quiet(s, PostAntes(s, b, m))
    decreases |s.players| - m
  {
    if m < |s.players| {
      var s1 := PostAnte(s, Around(b, m, |s.players|));
      QuietEvents(s, s1, [s1.log[|s.log|]]);
      AntesQuiet(s1, b, m + 1);
    }
  }

  lemma {:induction false} DeadsQuiet(s: State, b: nat, m: nat)
    requires b < |s.players| && m <= |s.players|
    ensures Quiet(s, PostDeads(s, b, m))
    decreases |s.players| - m
  {
    if m < |s.players| {
      var s1 := PostDead(s, Around(b, m, |s.players|));
      if s1 != s { QuietEvents(s, s1, [s1.log[|s.log|]]); }
      DeadsQuiet(s1, b, m + 1);
    }
  }

  lemma {:induction false} BlindQuiet(s: State, i: nat, amount: int, blind: BlindKind)
    requires i < |s.players|
    ensures Quiet(s, PostBlind(s, i, amount, blind))
  {
    var r := PostBlind(s, i, amount, blind);
    QuietEvents(s, r, [r.log[|s.log|]]);
  }

  lemma {:induction false} BlindsQuiet(s: State)
    ensures Quiet(s, PostBlinds(s))
  {
    var sb := Find(s.players, s.sbSeat);
    if sb >= 0 {
      BlindQuiet(s, sb, s.cfg.smallBlind, SmallBlind);
      var s1 := PostBlind(s, sb, s.cfg.smallBlind, SmallBlind);
      var bb := Find(s1.players, s.bbSeat);
      if bb >= 0 { BlindQuiet(s1, bb, s.cfg.bigBlind, BigBlind); }
    }
  }

  lemma {:induction false} StraddleQuiet(s: State)
    ensures Quiet(s, PostStraddle(s))
  {
    var bb := Find(s.players, s.bbSeat);
    if bb >= 0 { BlindQuiet(s, Next(bb, |s.players|), s.cfg.straddleAmount, StraddleBlind); }
  }

  lemma {:induction false} OpenedQuiet(cfg: Config, seats: seq<Seat>, shuffled: seq<Card>)
    requires Acceptable(cfg, seats, shuffled) && ButtonIndex(cfg, Seated(cfg, seats)) >= 0
    ensures NothingNamed(Opened(cfg, seats, shuffled))
  {
    var ps := Seated(cfg, seats);
    var b := ButtonIndex(cfg, ps);
    var s := Started(cfg, ps, shuffled);
    forall c ensures Named(s.log, c, |s.log|) == 0 { NoneNamed(s.log, c, |s.log|); }
    AntesQuiet(s, b, 0);
    DeadsQuiet(if cfg.ante > 0 then PostAntes(s, b, 0) else s, b, 0);
    BlindsQuiet(Anted(cfg, seats, shuffled));
    StraddleQuiet(PostBlinds(Anted(cfg, seats, shuffled)));
  }

  lemma {:induction false} NewHandNames(cfg: Config, seats: seq<Seat>, shuffled: seq<Card>)
    requires SaneConfig(cfg, seats) && NewHand(cfg, seats, shuffled).Done?
    ensures NamesDealt(NewHand(cfg, seats, shuffled).state)
  {
    var b := ButtonIndex(cfg, Seated(cfg, seats));
    NewHandAccepts(cfg, seats, shuffled);
    OpenedWell(cfg, seats, shuffled);
    OpenedQuiet(cfg, seats, shuffled);
    HandNames(Opened(cfg, seats, shuffled), b);
  }

  lemma {:induction false} HandNames(s: State, b: nat)
    requires b < |s.players| && 2 * |s.players| <= |s.deal.deck| && NothingNamed(s) && s.phase == Betting
    ensures NamesDealt(Settle(DealHoles(s, b), FirstToAct(DealHoles(s, b), b), true))
  {
    var s1 := DealHoles(s, b);
    HolesName(s, b);
    SettleQuiet(s1, FirstToAct(s1, b), true);
    SettleDeal(s1, FirstToAct(s1, b), true);
    QuietNames(s1, Settle(s1, FirstToAct(s1, b), true));
  }

  // ---- every run ----------------------------------------------------------------------------------------------

  lemma {:induction false} AdvanceNames(s: State, k: nat)
    requires Inv(s) && DealtFrom(s, k) && NamesDealt(s) && Advance(s).Done?
    ensures NamesDealt(Advance(s).state)
  {
    var s1 := DealStreet(s);
    StreetIsDealt(s, k);
    StreetNames(s);
    if s.runout {
      ToShowdownQuiet(s1);
      ToShowdownDeal(s1);
    } else {
      var from := Next(ButtonIndex(s.cfg, s.players), |s.players|);
      SettleQuiet(NewRound(s1), from, true);
      SettleDeal(NewRound(s1), from, true);
    }
  }

  lemma {:induction false} MoveNames(s: State, s1: State, from: nat, e: Event)
    requires NamesDealt(s) && s1.deal == s.deal && s1.phase == Betting && from < |s1.players|
    requires s1.log == s.log + [e] && CardsOf(e) == []
    ensures NamesDealt(Settle(s1, from, false))
  {
    QuietEvents(s, s1, [e]);
    SettleQuiet(s1, from, false);
    SettleDeal(s1, from, false);
  }

  lemma {:induction false} AfterMoveNames(s: State, q: Player, r: Round, kind: ActionKind)
    requires NamesDealt(s) && s.phase == Betting && 0 <= s.round.toAct < |s.players|
    ensures NamesDealt(Settle(AfterMove(s, q, r, kind), s.round.toAct, false))
  {
    var p := s.players[s.round.toAct];
    var e := ActionTaken(p.seat, EventAmount(kind, p.bet, q), q.allIn, kind);
    MoveNames(s, AfterMove(s, q, r, kind), s.round.toAct, e);
  }

  lemma {:induction false} ApplyNames(s: State, seat: int, a: Action)
    requires NamesDealt(s) && Apply(s, seat, a).Done?
    ensures NamesDealt(Apply(s, seat, a).state)
  {
    var m := Perform(s.cfg, s.round, s.players[s.round.toAct], a);
    AfterMoveNames(s, m.player, m.round, m.kind);
  }

  lemma {:induction false} TimeoutNames(s: State, seat: int)
    requires NamesDealt(s) && Timeout(s, seat).Done?
    ensures NamesDealt(Timeout(s, seat).state)
  {
    var p := s.players[s.round.toAct];
    MoveNames(s, AfterTimeout(s), s.round.toAct, TimedOut(p.seat, if p.bet == s.round.currentBet then Check else Fold));
  }

  lemma {:induction false} QuietCommandNames(s: State, seat: int)
    requires Inv(s) && NamesDealt(s)
    ensures Forfeit(s, seat).Done? ==> NamesDealt(Forfeit(s, seat).state)
    ensures RevealNext(s).Done? ==> NamesDealt(RevealNext(s).state)
  {
    if Forfeit(s, seat).Done? {
      ForfeitQuiet(s, seat);
      ForfeitDeal(s, seat);
      QuietNames(s, Forfeit(s, seat).state);
    }
    if RevealNext(s).Done? {
      RevealNextQuiet(s);
      RevealNextDeal(s);
      QuietNames(s, RevealNext(s).state);
    }
  }

  lemma {:induction false} StepNames(s: State, c: Command, k: nat)
    requires Inv(s) && DealtFrom(s, k) && NamesDealt(s)
    ensures NamesDealt(After(s, c))
  {
    if Step(s, c).Done? {
      match c
      case DoApply(seat, a) => ApplyNames(s, seat, a);
      case DoTimeout(seat) => TimeoutNames(s, seat);
      case DoForfeit(seat) => QuietCommandNames(s, seat);
      case DoAdvance => AdvanceNames(s, k);
      case DoRunItTwice => QuietNames(s, RunItTwice(s).state);
      case DoRevealNext => QuietCommandNames(s, 0);
    }
  }

  lemma {:induction false} RunNames(s: State, cs: seq<Command>)
    requires Inv(s) && DealtFrom(s, |s.deal.board|) && NamesDealt(s)
    ensures NamesDealt(Run(s, cs)) && Run(s, cs).deal.deck == s.deal.deck
    decreases |cs|
  {
    if cs != [] {
      var init := cs[..|cs| - 1];
      RunNames(s, init);
      RunDealt(s, init);
      StepNames(Run(s, init), cs[|cs| - 1], Shared(s, init));
      StepDeck(Run(s, init), cs[|cs| - 1]);
    }
  }

  lemma {:induction false} OnceInDeck(deck: seq<Card>, c: Card, n: nat)
    requires NoDuplicates(deck) && n <= |deck|
    ensures Times(deck, c, n) <= 1
    ensures Times(deck, c, n) == 1 <==> exists i :: 0 <= i < n && deck[i] == c
  {
    if n > 0 { OnceInDeck(deck, c, n - 1); }
  }

  // Every card named is one of the variant, and named once.
  ghost predicate NamedOnce(log: seq<Event>, variant: Variant) {
    forall c :: Named(log, c, |log|) <= 1 && (Named(log, c, |log|) == 1 ==> c in Deck(variant))
  }

  lemma {:induction false} DealtIsNamedOnce(r: State, variant: Variant)
    requires NamesDealt(r) && multiset(r.deal.deck) == multiset(Deck(variant))
    ensures NamedOnce(r.log, variant)
  {
    var deck := r.deal.deck;
    DeckIsComplete(variant);
    DistinctUnderShuffle(Deck(variant), deck);
    forall c ensures Named(r.log, c, |r.log|) <= 1 && (Named(r.log, c, |r.log|) == 1 ==> c in Deck(variant)) {
      OnceInDeck(deck, c, r.deal.deckPos);
      if Times(deck, c, r.deal.deckPos) == 1 {
        assert c in deck;
        assert c in multiset(deck);
      }
    }
  }

  // In every run of a hand dealt from a shuffled deck, the events name cards of the variant, and
  // none of them twice.
  lemma {:induction false} EventsNameCardsOnce(cfg: Config, seats: seq<Seat>, shuffled: seq<Card>, cs: seq<Command>)
    requires SaneConfig(cfg, seats) && NewHand(cfg, seats, shuffled).Done?
    requires multiset(shuffled) == multiset(Deck(cfg.variant))
    ensures NamedOnce(Run(NewHand(cfg, seats, shuffled).state, cs).log, cfg.variant)
  {
    NewHandStarts(cfg, seats, shuffled);
    NewHandDealt(cfg, seats, shuffled);
    NewHandNames(cfg, seats, shuffled);
    RunNames(NewHand(cfg, seats, shuffled).state, cs);
    DealtIsNamedOnce(Run(NewHand(cfg, seats, shuffled).state, cs), cfg.variant);
  }
}
