// What the loops of the class Hand rely on: how each list or sum grows by one, and what the
// steps of HandRules need from the invariant.

module HandLoops {
  import opened Cards
  import opened Pots
  import opened Payout
  import opened HandModel
  import opened HandChips
  import opened HandInvariant
  import opened HandStart
  import opened HandDealing
  import opened HandShowdown
  import Rules = HandRules
  import Sorting

  lemma {:induction false} IndexFirst(ps: seq<Player>, seat: int, k: nat, n: nat)
    requires k < n <= |ps| && ps[k].seat == seat && IndexOf(ps, seat, k) < 0
    ensures IndexOf(ps, seat, n) == k
  {
    IndexOfBound(ps, seat, k);
    if n > k + 1 { IndexFirst(ps, seat, k, n - 1); }
  }

  lemma {:induction false} FirstIsLive(ps: seq<Player>, from: nat)
    requires from < |ps| && LiveCount(ps, |ps|) >= 1
    ensures !ps[Rules.FirstLive(ps, from, |ps|)].folded
  {
    var j := LastLive(ps, |ps|);
    LastLiveIsLive(ps, |ps|);
    if ps[Rules.FirstLive(ps, from, |ps|)].folded { FirstLiveIsLive(ps, from, |ps|, j); }
  }

  // ---- about the loops ----------------------------------------------------------------------------

  ghost function MemberSet(lists: seq<seq<int>>): set<int> {
    set k, x | 0 <= k < |lists| && x in lists[k] :: x
  }

  lemma {:induction false} SeatsOn(a: seq<Player>, b: seq<Player>, c: seq<Player>)
    requires SameSeats(a, b) && SameSeats(b, c)
    ensures SameSeats(a, c)
  {
    forall i | 0 <= i < |a| ensures Kin(a[i], c[i]) {
      assert Kin(a[i], b[i]) && Kin(b[i], c[i]);
    }
  }

  lemma {:induction false} PaySeats(ps: seq<Player>, awards: seq<PotAward>)
    requires Seating(ps)
    ensures Seating(Rules.PayAll(ps, awards)) && SameSeats(ps, Rules.PayAll(ps, awards))
  {
    forall i | 0 <= i < |ps| ensures Kin(ps[i], Rules.PayAll(ps, awards)[i]) { PayAllGives(ps, awards, i); }
    SameSeatsSeating(ps, Rules.PayAll(ps, awards));
  }

  lemma {:induction false} PayAllConcat(ps: seq<Player>, a: seq<PotAward>, b: seq<PotAward>)
    ensures Rules.PayAll(ps, a + b) == Rules.PayAll(Rules.PayAll(ps, a), b)
    decreases |a|
  {
    if a == [] {
      assert a + b == b;
    } else {
      assert (a + b)[1..] == a[1..] + b;
      PayAllConcat(Rules.Pay(ps, a[0].winners), a[1..], b);
    }
  }

  lemma {:induction false} PayAppend(ps: seq<Player>, paid: seq<PotWinner>, w: PotWinner)
    ensures Rules.Pay(ps, paid + [w]) == Rules.Credit(Rules.Pay(ps, paid), w.seat, w.amount)
    decreases |paid|
  {
    if paid == [] {
      assert [w][1..] == [];
    } else {
      assert (paid + [w])[1..] == paid[1..] + [w];
      PayAppend(Rules.Credit(ps, paid[0].seat, paid[0].amount), paid[1..], w);
    }
  }

  lemma {:induction false} AwardsAppend(pots: seq<Pot>, pot: Pot, first: nat, r1: Ranks, r2: Ranks, twice: bool,
        button: int)
    ensures Awards(pots + [pot], first, r1, r2, twice, button) ==
              Awards(pots, first, r1, r2, twice, button) + PotAwards(first + |pots|, pot, r1, r2, twice, button)
    decreases |pots|
  {
    if pots == [] {
      assert [pot][1..] == [];
    } else {
      assert (pots + [pot])[1..] == pots[1..] + [pot];
      AwardsAppend(pots[1..], pot, first + 1, r1, r2, twice, button);
    }
  }

  lemma {:induction false} SoleAppend(pots: seq<Pot>, pot: Pot, first: nat, seat: int)
    ensures Rules.SoleAwards(pots + [pot], first, seat) ==
              Rules.SoleAwards(pots, first, seat) +
              [PotAward(first + |pots|, pot.amount, [PotWinner(seat, pot.amount)], 0)]
    decreases |pots|
  {
    if pots == [] {
      assert [pot][1..] == [];
    } else {
      assert (pots + [pot])[1..] == pots[1..] + [pot];
      SoleAppend(pots[1..], pot, first + 1, seat);
    }
  }

  lemma {:induction false} OneAward(ps: seq<Player>, award: PotAward)
    ensures Rules.PayAll(ps, [award]) == Rules.Pay(ps, award.winners)
  {
    assert [award][1..] == [];
  }

  lemma {:induction false} OneReport(award: PotAward)
    ensures Rules.AllAwardEvents([award]) == Rules.AwardEvents(award)
  {
    assert [award][1..] == [];
    assert Rules.AwardEvents(award) + [] == Rules.AwardEvents(award);
  }

  lemma {:induction false} EventsConcat(a: seq<PotAward>, b: seq<PotAward>)
    ensures Rules.AllAwardEvents(a + b) == Rules.AllAwardEvents(a) + Rules.AllAwardEvents(b)
    decreases |a|
  {
    if a == [] {
      assert a + b == b;
    } else {
      assert (a + b)[1..] == a[1..] + b;
      EventsConcat(a[1..], b);
    }
  }

  lemma {:induction false} WinnersEligible(pot: Pot, ranks: Ranks, button: int)
    requires pot.eligible != []
    ensures Winners(pot, ranks, button) != []
    ensures forall w :: w in Winners(pot, ranks, button) ==> w in pot.eligible
  {
    WinnersAreBest(pot, ranks, button);
  }

  lemma {:induction false} SharesStep(ws: seq<int>, amount: int, k: nat)
    requires k < |ws|
    ensures var shares := Shares(ws, amount);
            && shares[..k + 1] == shares[..k] + [shares[k]]
            && shares[k] == PotWinner(ws[k], amount / |ws| + if k < amount - amount / |ws| * |ws| then 1 else 0)
            && ws[k] in ws
  {
  }

  lemma {:induction false} PotStep(pots: seq<Pot>, k: nat, r1: Ranks, r2: Ranks, twice: bool, button: int)
    requires k < |pots|
    ensures Awards(pots[..k + 1], 0, r1, r2, twice, button) ==
              Awards(pots[..k], 0, r1, r2, twice, button) + PotAwards(k, pots[k], r1, r2, twice, button)
  {
    AwardsAppend(pots[..k], pots[k], 0, r1, r2, twice, button);
    assert pots[..k + 1] == pots[..k] + [pots[k]];
  }

  lemma {:induction false} SoleStep(pots: seq<Pot>, k: nat, seat: int, award: PotAward, awards: seq<PotAward>)
    requires k < |pots| && award == PotAward(k, pots[k].amount, [PotWinner(seat, pots[k].amount)], 0)
    requires awards == Rules.SoleAwards(pots[..k], 0, seat)
    ensures awards + [award] == Rules.SoleAwards(pots[..k + 1], 0, seat)
  {
    SoleAppend(pots[..k], pots[k], 0, seat);
    assert pots[..k + 1] == pots[..k] + [pots[k]];
  }

  lemma {:induction false} PaidMore(ps: seq<Player>, qs: seq<Player>, rs: seq<Player>, done: seq<PotAward>,
        more: seq<PotAward>)
    requires qs == Rules.PayAll(ps, done) && rs == Rules.PayAll(qs, more)
    requires SameSeats(ps, qs) && SameSeats(qs, rs)
    ensures rs == Rules.PayAll(ps, done + more) && SameSeats(ps, rs)
  {
    PayAllConcat(ps, done, more);
    SeatsOn(ps, qs, rs);
  }

  lemma {:induction false} PaidOn(ps: seq<Player>, qs: seq<Player>, rs: seq<Player>, done: seq<PotAward>,
        award: PotAward)
    requires qs == Rules.PayAll(ps, done) && rs == Rules.Pay(qs, award.winners)
    requires SameSeats(ps, qs) && SameSeats(qs, rs)
    ensures rs == Rules.PayAll(ps, done + [award]) && SameSeats(ps, rs)
  {
    OneAward(qs, award);
    PaidMore(ps, qs, rs, done, [award]);
  }

  lemma {:induction false} ReportedOn(a: seq<Event>, b: seq<Event>, c: seq<Event>, done: seq<PotAward>, award: PotAward)
    requires b == a + Rules.AllAwardEvents(done) && c == b + Rules.AwardEvents(award)
    ensures c == a + Rules.AllAwardEvents(done + [award])
  {
    OneReport(award);
    EventsConcat(done, [award]);
    var before, more := Rules.AllAwardEvents(done), Rules.AwardEvents(award);
    assert (a + before) + more == a + (before + more);
  }

  lemma {:induction false} LiveStep(ps: seq<Player>, i: nat, m: nat, order: seq<nat>)
    requires i < |ps| && m > 0
    ensures order + Rules.LiveFrom(ps, i, m) ==
              (if ps[i].folded then order else order + [i]) + Rules.LiveFrom(ps, Next(i, |ps|), m - 1)
  {
  }

  // An award to one seat.
  lemma {:induction false} OnePaid(ps: seq<Player>, award: PotAward)
    requires |award.winners| == 1 && Seating(ps)
    ensures Rules.Pay(ps, award.winners) == Rules.Credit(ps, award.winners[0].seat, award.winners[0].amount)
    ensures SameSeats(ps, Rules.Pay(ps, award.winners)) && Seating(Rules.Pay(ps, award.winners))
  {
    assert award.winners[1..] == [];
    CreditSeating(ps, award.winners[0].seat, award.winners[0].amount);
  }

  lemma {:induction false} CloseBetsSeats(s: State)
    requires Seating(s.players) && AllHealthy(s.players)
    ensures var r := Rules.CloseBets(s); Seating(r.players) && SameSeats(s.players, r.players)
  {
    ClosedBets(s);
    SameSeatsSeating(s.players, Rules.CloseBets(s).players);
  }

  // The lists of winners name the seats that win a pot on a board.
  lemma {:induction false} WinnerLists(s: State, winners: seq<seq<int>>, winners2: seq<seq<int>>)
    requires var pots := Rules.PotsOf(s.players);
             && |winners| == |pots|
             && (forall k :: 0 <= k < |pots| ==> winners[k] == Winners(pots[k], Rules.BoardRanks(s), s.cfg.button))
             && if s.deal.runTwice then
                  |winners2| == |pots| &&
                  forall k :: 0 <= k < |pots| ==> winners2[k] == Winners(pots[k], Rules.BoardRanks2(s), s.cfg.button)
                else winners2 == []
    ensures MemberSet(winners + winners2) == Rules.FinalWinners(s)
  {
    var pots, lists := Rules.PotsOf(s.players), winners + winners2;
    forall x ensures x in MemberSet(lists) <==> x in Rules.FinalWinners(s) {
      WinnerSeatsMean(pots, Rules.BoardRanks(s), s.cfg.button, x);
      if s.deal.runTwice { WinnerSeatsMean(pots, Rules.BoardRanks2(s), s.cfg.button, x); }
      if x in MemberSet(lists) {
        var k :| 0 <= k < |lists| && x in lists[k];
        if k < |winners| { assert x in Winners(pots[k], Rules.BoardRanks(s), s.cfg.button); }
        else { assert x in Winners(pots[k - |winners|], Rules.BoardRanks2(s), s.cfg.button); }
      }
      if k :| 0 <= k < |pots| && x in Winners(pots[k], Rules.BoardRanks(s), s.cfg.button) {
        assert lists[k] == winners[k];
      }
      if s.deal.runTwice {
        if k :| 0 <= k < |pots| && x in Winners(pots[k], Rules.BoardRanks2(s), s.cfg.button) {
          assert lists[|winners| + k] == winners2[k];
        }
      }
    }
  }

  lemma {:induction false} HiddenAlike(ps: seq<Player>, qs: seq<Player>, winners: set<int>, n: nat)
    requires |ps| == |qs| && n <= |ps|
    requires forall i :: 0 <= i < |ps| ==>
               ps[i].folded == qs[i].folded && ps[i].revealed == qs[i].revealed && ps[i].seat == qs[i].seat
    ensures Rules.HiddenWinners(ps, winners, n) == Rules.HiddenWinners(qs, winners, n)
  {
    if n > 0 { HiddenAlike(ps, qs, winners, n - 1); }
  }

  // Paying and showing touch different things.
  lemma {:induction false} PayShowCommute(ps: seq<Player>, awards: seq<PotAward>, winners: set<int>)
    requires Seating(ps)
    ensures Rules.ShownWinners(Rules.PayAll(ps, awards), winners) ==
            Rules.PayAll(Rules.ShownWinners(ps, winners), awards)
    ensures Rules.HiddenWinners(Rules.PayAll(ps, awards), winners, |ps|) == Rules.HiddenWinners(ps, winners, |ps|)
  {
    var paid, shown := Rules.PayAll(ps, awards), Rules.ShownWinners(ps, winners);
    forall i | 0 <= i < |ps|
      ensures Rules.ShownWinners(paid, winners)[i] == Rules.PayAll(shown, awards)[i]
      ensures paid[i].folded == ps[i].folded && paid[i].revealed == ps[i].revealed && paid[i].seat == ps[i].seat
    {
      PayAllGives(ps, awards, i);
      PayAllGives(shown, awards, i);
    }
    HiddenAlike(paid, ps, winners, |ps|);
  }

  datatype Verdict = Yes(kind: ActionKind) | No(error: Error)

  // What the caller of a command is told.
  datatype Refusal = Accepted | Because(error: Error)

  // ---- about the commands ---------------------------------------------------------------------------

  lemma {:induction false} CommandKeeps(s: State, c: Rules.Command)
    requires Inv(s) && WellDealt(s)
    ensures Inv(Rules.After(s, c)) && WellDealt(Rules.After(s, c))
  {
    StepKeeps(s, c);
    var k: nat :| DealtFrom(s, k);
    StepDealt(s, c, k);
  }

  lemma {:induction false} RevealKeeps(s: State)
    requires Inv(s) && WellDealt(s) && Rules.RevealNext(s).Done?
    ensures Inv(Rules.RevealNext(s).state) && WellDealt(Rules.RevealNext(s).state)
  {
    var k: nat :| DealtFrom(s, k);
    RevealNextKeeps(s);
    RevealNextDeal(s);
    DealtCarries(s, Rules.RevealNext(s).state, k);
  }

  lemma {:induction false} RiverBoard(s: State)
    requires WellDealt(s)
    ensures s.deal.street == RIVER ==> |s.deal.board| == 5 && (s.deal.runTwice ==> |s.deal.board2| == 5)
  {
    var k: nat :| DealtFrom(s, k);
  }

  lemma {:induction false} PerformedRound(s: State, a: Action)
    requires Inv(s) && s.phase == Betting
    requires Rules.Perform(s.cfg, s.round, s.players[s.round.toAct], a).Moved?
    ensures var m := Rules.Perform(s.cfg, s.round, s.players[s.round.toAct], a);
            m.round.toAct == s.round.toAct && m.round.aggressor == s.round.aggressor
              && m.player.seat == s.players[s.round.toAct].seat
  {
    assert Healthy(s.players[s.round.toAct]);
    PerformedIsFair(s.cfg, s.round, s.players[s.round.toAct], a);
  }

  lemma {:induction false} MemberStep(lists: seq<seq<int>>, k: nat)
    requires k < |lists|
    ensures MemberSet(lists[..k + 1]) == MemberSet(lists[..k]) + (set x | x in lists[k])
  {
    var more, done := lists[..k + 1], lists[..k];
    forall x ensures x in MemberSet(more) <==> x in MemberSet(done) || x in lists[k] {
      if x in MemberSet(done) {
        var j :| 0 <= j < |done| && x in done[j];
        assert x in more[j];
      }
      if x in lists[k] { assert x in more[k]; }
      if x in MemberSet(more) {
        var j :| 0 <= j < |more| && x in more[j];
        if j < k { assert x in done[j]; }
      }
    }
  }

  lemma {:induction false} OneBoardLists(pots: seq<Pot>, winners: seq<seq<int>>, ranks: Ranks, button: int)
    requires |winners| == |pots| && forall k :: 0 <= k < |pots| ==> winners[k] == Winners(pots[k], ranks, button)
    ensures MemberSet(winners) == Rules.WinnerSeats(pots, ranks, button)
  {
    forall x ensures x in MemberSet(winners) <==> x in Rules.WinnerSeats(pots, ranks, button) {
      WinnerSeatsMean(pots, ranks, button, x);
      if k :| 0 <= k < |pots| && x in Winners(pots[k], ranks, button) { assert x in winners[k]; }
      if k :| 0 <= k < |winners| && x in winners[k] { assert x in Winners(pots[k], ranks, button); }
    }
  }

  // What follows when the bets of a street are in the pots.
  ghost function Closed(s: State): State
    requires |s.players| > 0
  {
    var s1 := s.(round := s.round.(toAct := -1));
    if s1.deal.street == RIVER then Rules.ToShowdown(s1)
    else if ActiveCount(s1.players, |s1.players|) < 2 then
      Rules.RevealEveryone(s1.(phase := DealPending, runout := true))
    else s1.(phase := DealPending)
  }

  // What follows when the cards of a street are out.
  ghost function GoneOn(s: State): State
    requires |s.players| > 0
  {
    if s.runout then (if s.deal.street == RIVER then Rules.ToShowdown(s) else s)
    else
      var b := ButtonIndex(s.cfg, s.players);
      Rules.Settle(Rules.NewRound(s), if b < 0 then 0 else Next(b, |s.players|), true)
  }

  lemma {:induction false} AdvanceIs(s: State)
    requires s.phase == DealPending && |s.players| > 0
    ensures Rules.Advance(s) == Done(GoneOn(Rules.DealStreet(s)))
  {
  }

  lemma {:induction false} RefreshedSeats(ps: seq<Player>, button: int)
    ensures Find(Rules.Refreshed(ps), button) == Find(ps, button)
  {
    forall i | 0 <= i < |ps| ensures Kin(ps[i], Rules.Refreshed(ps)[i]) { }
    SameSeatsFind(ps, Rules.Refreshed(ps), button, |ps|);
  }

  // The deck holds the next street's cards.
  ghost predicate CardsLeft(d: Deal) {
    var n := Rules.StreetCards(d.street + 1);
    d.deckPos + (if d.runTwice then 2 * n else n) <= |d.deck|
  }

  lemma {:induction false} AdvanceReady(s: State)
    requires Inv(s) && WellDealt(s) && s.phase == DealPending
    ensures CardsLeft(s.deal)
    ensures var s1 := Rules.DealStreet(s);
            && Sound(s1) && (s1.deal.street == RIVER ==>
                |s1.deal.board| == 5 && (s1.deal.runTwice ==> |s1.deal.board2| == 5))
            && (!s.runout ==> Playing(Rules.NewRound(s1)))
  {
    var k: nat :| DealtFrom(s, k);
    var s1 := Rules.DealStreet(s);
    StreetIsDealt(s, k);
    RiverBoard(s1);
    LineageSelf(s, s1);
    SoundCarries(s, s1);
    if !s.runout { NewRoundKeeps(s1); }
  }

  lemma {:induction false} RevealReady(s: State)
    requires Inv(s) && WellDealt(s) && s.phase == Showdown
    ensures s.show.idx < |s.show.order| && s.show.order[s.show.idx] < |s.players|
    ensures |s.deal.board| == 5 && !s.deal.runTwice && AllHealthy(s.players)
    ensures var r := Rules.ShowOrMuck(Rules.Called(s), s.show.order[s.show.idx]);
            Sound(r) && AllHealthy(r.players) && LiveCount(r.players, |r.players|) >= 1
  {
    RiverBoard(s);
    SoundCarries(s, Rules.Called(s));
    var i := s.show.order[s.show.idx];
    TurnedKeeps(Rules.Called(s), i, true);
    TurnedKeeps(Rules.Called(s), i, false);
  }

  function WithCard(p: Player, c: Card, second: bool): Player {
    if second then p.(hole1 := c) else p.(hole0 := c)
  }

  lemma {:induction false} BlindKeepsSeats(s: State, i: nat, amount: int, kind: BlindKind, seat: int)
    requires i < |s.players|
    ensures Find(PostBlind(s, i, amount, kind).players, seat) == Find(s.players, seat)
  {
    var r := PostBlind(s, i, amount, kind);
    forall j | 0 <= j < |s.players| ensures Kin(s.players[j], r.players[j]) { }
    SameSeatsFind(s.players, r.players, seat, |s.players|);
  }

  predicate SeatsFine(seats: seq<Seat>, n: nat)
    requires n <= |seats|
  {
    && (forall i :: 0 <= i < n ==> seats[i].seat >= 0 && seats[i].stack > 0)
    && (forall i, j :: 0 <= i < j < n ==> seats[i].seat != seats[j].seat)
  }

  // The button is seated exactly when one of the seats has its number.
  lemma {:induction false} ButtonOrNone(cfg: Config, seats: seq<Seat>)
    ensures ButtonIndex(cfg, Seated(cfg, seats)) >= 0 <==> exists i :: 0 <= i < |seats| && seats[i].seat == cfg.button
  {
    var ps, sorted := Seated(cfg, seats), Sorting.SortBy(seats, SeatNumber);
    Sorting.SortElements(seats, SeatNumber);
    IndexOfBound(ps, cfg.button, |ps|);
    var b := ButtonIndex(cfg, ps);
    if b >= 0 {
      assert sorted[b] in sorted;
      assert sorted[b] in seats;
      var i :| 0 <= i < |seats| && seats[i] == sorted[b];
      assert seats[i].seat == cfg.button;
    }
    if i :| 0 <= i < |seats| && seats[i].seat == cfg.button {
      assert seats[i] in sorted;
      var j :| 0 <= j < |sorted| && sorted[j] == seats[i];
      assert ps[j].seat == cfg.button;
    }
  }

  lemma {:induction false} FoundAt(ps: seq<Player>, i: nat)
    requires i < |ps|
    ensures Find(ps, ps[i].seat) >= 0
  {
    IndexOfBound(ps, ps[i].seat, |ps|);
  }

  lemma {:induction false} BlindsAreSeated(cfg: Config, seats: seq<Seat>, shuffled: seq<Card>)
    requires Acceptable(cfg, seats, shuffled) && ButtonIndex(cfg, Seated(cfg, seats)) >= 0
    ensures var s := Anted(cfg, seats, shuffled); Find(s.players, s.sbSeat) >= 0 && Find(s.players, s.bbSeat) >= 0
    ensures var s := PostBlinds(Anted(cfg, seats, shuffled)); Find(s.players, s.bbSeat) >= 0
  {
    var s := Anted(cfg, seats, shuffled);
    AntedWell(cfg, seats, shuffled);
    var sb := SmallBlindAt(cfg, Started(cfg, Seated(cfg, seats), shuffled).players);
    FoundAt(s.players, sb);
    FoundAt(s.players, Next(sb, |s.players|));
    BlindKeepsSeats(s, Find(s.players, s.sbSeat), cfg.smallBlind, SmallBlind, s.bbSeat);
    var s1 := PostBlind(s, Find(s.players, s.sbSeat), cfg.smallBlind, SmallBlind);
    BlindKeepsSeats(s1, Find(s1.players, s.bbSeat), cfg.bigBlind, BigBlind, s.bbSeat);
  }

  lemma {:induction false} HolesKeepSeats(s: State, b: nat, seat: int)
    requires b < |s.players| && 2 * |s.players| <= |s.deal.deck|
    ensures Find(DealHoles(s, b).players, seat) == Find(s.players, seat)
  {
    SeatsMatchFind(s.players, DealHoles(s, b).players, seat, |s.players|);
  }

  lemma {:induction false} OpenedIs(cfg: Config, seats: seq<Seat>, shuffled: seq<Card>)
    requires Acceptable(cfg, seats, shuffled) && ButtonIndex(cfg, Seated(cfg, seats)) >= 0
    ensures var s := Opened(cfg, seats, shuffled);
            && s.phase == Betting && s.deal == Deal(shuffled, 0, [], [], false, PREFLOP)
            && ButtonIndex(cfg, Seated(cfg, seats)) < |s.players| && 2 * |s.players| <= |shuffled|
            && Posting(s) && (PriceLevels(s) || BlindStranded(s))
            && Find(s.players, s.bbSeat) >= 0
            && (s.straddleSeat >= 0 ==> Find(s.players, s.straddleSeat) >= 0)
  {
    var s := Opened(cfg, seats, shuffled);
    AntedWell(cfg, seats, shuffled);
    OpenedPrice(cfg, seats, shuffled);
    StraddlerSits(PostBlinds(Anted(cfg, seats, shuffled)));
    var sb := SmallBlindAt(cfg, Started(cfg, Seated(cfg, seats), shuffled).players);
    FoundAt(s.players, Next(sb, |s.players|));
  }

  lemma {:induction false} OpenedReady(cfg: Config, seats: seq<Seat>, shuffled: seq<Card>)
    requires Acceptable(cfg, seats, shuffled) && ButtonIndex(cfg, Seated(cfg, seats)) >= 0
    ensures var s := Opened(cfg, seats, shuffled); var b := ButtonIndex(cfg, Seated(cfg, seats));
            && s.phase == Betting && s.deal == Deal(shuffled, 0, [], [], false, PREFLOP)
            && b < |s.players| && 2 * |s.players| <= |shuffled|
            && var r := DealHoles(s, b);
               && (Playing(r) || GoesOn(r)) && Find(r.players, r.bbSeat) >= 0
               && (r.straddleSeat >= 0 ==> Find(r.players, r.straddleSeat) >= 0)
  {
    var s := Opened(cfg, seats, shuffled);
    var b := ButtonIndex(cfg, Seated(cfg, seats));
    OpenedIs(cfg, seats, shuffled);
    if PriceLevels(s) { DealHolesKeeps(s, b); } else { StrandedGoesOn(s, b); }
    HolesKeepSeats(s, b, s.bbSeat);
    HolesKeepSeats(s, b, s.straddleSeat);
  }
}
