// The hand as the mutable object of the source (type Hand in backend/internal/poker/hand.go).
// Its methods update the fields and loop over the players as the source does; each is proved to
// take the state to where HandRules takes it.

module HandEngine {
  import opened Cards
  import opened Pots
  import opened Payout
  import opened HandModel
  import opened HandChips
  import opened HandInvariant
  import opened HandStart
  import opened HandDealing
  import opened HandLoops
  import opened HandShowdown
  import Evaluator
  import HandOptions
  import Rules = HandRules
  import Sorting

  datatype Opening = Begun(hand: Hand) | Declined(error: Error)

  class Hand {
    const cfg: Config
    var players: seq<Player>
    var deal: Deal
    var round: Round
    var show: Show
    var phase: Phase
    var runout: bool
    var sbSeat: int
    var bbSeat: int
    var straddleSeat: int
    var finalPots: seq<Pot>
    var results: Results
    var log: seq<Event>

    function View(): State
      reads this
    {
      State(cfg, players, deal, round, show, phase, runout, sbSeat, bbSeat, straddleSeat, finalPots, results, log)
    }

    // ---- queries ---------------------------------------------------------------------------------

    method Index(seat: int) returns (i: int)
      ensures i == Find(players, seat)
    {
      for k := 0 to |players|
        invariant IndexOf(players, seat, k) < 0
      {
        if players[k].seat == seat {
          IndexFirst(players, seat, k, |players|);
          return k;
        }
      }
      IndexOfBound(players, seat, |players|);
      i := -1;
    }

    method CountLive() returns (live: nat, last: int)
      ensures live == LiveCount(players, |players|) && last == LastLive(players, |players|)
    {
      live, last := 0, -1;
      for k := 0 to |players|
        invariant live == LiveCount(players, k) && last == LastLive(players, k)
      {
        if !players[k].folded {
          live, last := live + 1, k;
        }
      }
    }

    method CountActive() returns (active: nat)
      ensures active == ActiveCount(players, |players|)
    {
      active := 0;
      for k := 0 to |players|
        invariant active == ActiveCount(players, k)
      {
        if Active(players[k]) {
          active := active + 1;
        }
      }
    }

    method RoundComplete() returns (complete: bool)
      ensures complete == Rules.RoundComplete(players, round.currentBet)
    {
      var active := CountActive();
      for k := 0 to |players|
        invariant forall j :: 0 <= j < k && Active(players[j]) ==>
                    players[j].bet == round.currentBet && (active >= 2 ==> players[j].hasActed)
      {
        var p := players[k];
        if Active(p) {
          if p.bet != round.currentBet {
            return false;
          }
          if active >= 2 && !p.hasActed {
            return false;
          }
        }
      }
      complete := true;
    }

    // Scans from position `from`, that player included or not; -1 when nobody needs to act.
    method FindActor(from: nat, inclusive: bool) returns (actor: int)
      requires from < |players|
      ensures actor ==
              NextActor(players, round.currentBet, if inclusive then from else Next(from, |players|), |players|)
    {
      var i: nat := if inclusive then from else Next(from, |players|);
      ghost var start := i;
      var n: nat := 0;
      while n < |players|
        invariant n <= |players| && i < |players|
        invariant NextActor(players, round.currentBet, start, |players|) ==
                  NextActor(players, round.currentBet, i, |players| - n)
      {
        if NeedsToAct(players[i], round.currentBet) {
          return i;
        }
        i := Next(i, |players|);
        n := n + 1;
      }
      actor := -1;
    }

    // The pots of the completed streets.
    method BuildPots() returns (pots: seq<Pot>)
      requires forall i :: 0 <= i < |players| ==> players[i].committed >= 0
      ensures pots == Rules.PotsOf(players)
    {
      var c := [];
      for k := 0 to |players|
        invariant c == Rules.Contributions(players)[..k]
      {
        var p := players[k];
        c := c + [Contribution(p.seat, p.committed, p.folded, p.allIn)];
      }
      assert c == Rules.Contributions(players);
      pots := Pots.BuildPots(c);
    }

    // All the chips there are, wherever they lie.
    method TotalChips() returns (sum: int)
      ensures sum == HandChips.TotalChips(players, |players|)
    {
      sum := 0;
      for k := 0 to |players|
        invariant sum == HandChips.TotalChips(players, k)
      {
        sum := sum + players[k].stack + players[k].committed + players[k].bet;
      }
    }

    // The rank of every live hand on a board.
    method Values(b: seq<Card>) returns (ranks: Ranks)
      requires 3 <= |b| <= 5
      ensures ranks == Rules.RanksOf(players, b, |players|)
    {
      ranks := map[];
      for k := 0 to |players|
        invariant ranks == Rules.RanksOf(players, b, k)
      {
        var p := players[k];
        if !p.folded {
          var v := Evaluator.Evaluate([p.hole0, p.hole1] + b);
          ranks := ranks[p.seat := v.rank];
        }
      }
    }

    // Per pot the winning seats, clockwise from the button.
    method PotWinnersOn(pots: seq<Pot>, b: seq<Card>) returns (winners: seq<seq<int>>)
      requires 3 <= |b| <= 5
      ensures |winners| == |pots|
      ensures forall k :: 0 <= k < |pots| ==>
                winners[k] == Winners(pots[k], Rules.RanksOf(players, b, |players|), cfg.button)
    {
      var ranks := Values(b);
      winners := [];
      for k := 0 to |pots|
        invariant |winners| == k
        invariant forall j :: 0 <= j < k ==> winners[j] == Winners(pots[j], ranks, cfg.button)
      {
        var ws := FindWinners(pots[k].eligible, ranks, cfg.button);
        winners := winners + [ws];
      }
    }

    // Who shows after whom: the last aggressor opens, or without one whoever is still in and
    // sits closest after the button.
    method OrderOfShowing() returns (order: seq<nat>)
      requires ButtonIndex(cfg, players) >= 0 && LiveCount(players, |players|) >= 1
      ensures order == Rules.ShowdownOrder(View())
    {
      var start: nat;
      if 0 <= round.aggressor < |players| && !players[round.aggressor].folded {
        start := round.aggressor;
      } else {
        var b := Index(cfg.button);
        start := FirstLiveFrom(Next(b, |players|));
      }
      order := LiveInOrder(start);
    }

    method LiveInOrder(start: nat) returns (order: seq<nat>)
      requires start < |players|
      ensures order == Rules.LiveFrom(players, start, |players|)
    {
      order := [];
      var i: nat, n: nat := start, 0;
      while n < |players|
        invariant n <= |players| && i < |players|
        invariant order + Rules.LiveFrom(players, i, |players| - n) == Rules.LiveFrom(players, start, |players|)
      {
        LiveStep(players, i, |players| - n, order);
        if !players[i].folded {
          order := order + [i];
        }
        i := Next(i, |players|);
        n := n + 1;
      }
    }

    // Walks on until somebody is live; somebody is.
    method FirstLiveFrom(from: nat) returns (i: nat)
      requires from < |players| && LiveCount(players, |players|) >= 1
      ensures i == Rules.FirstLive(players, from, |players|)
    {
      i := from;
      ghost var left: nat := |players|;
      FirstIsLive(players, from);
      while players[i].folded
        invariant i < |players|
        invariant Rules.FirstLive(players, i, left) == Rules.FirstLive(players, from, |players|)
        decreases left
      {
        i := Next(i, |players|);
        left := left - 1;
      }
    }

    // ---- small moves -----------------------------------------------------------------------------

    // The next card off the deck.
    method Draw() returns (c: Card)
      requires deal.deckPos < |deal.deck|
      modifies `deal
      ensures c == old(deal.deck)[old(deal.deckPos)] && deal == old(deal).(deckPos := old(deal.deckPos) + 1)
    {
      c := deal.deck[deal.deckPos];
      deal := deal.(deckPos := deal.deckPos + 1);
    }

    method DrawCards(n: nat) returns (cards: seq<Card>)
      requires deal.deckPos + n <= |deal.deck|
      modifies `deal
      ensures cards == old(deal.deck)[old(deal.deckPos)..old(deal.deckPos) + n]
      ensures deal == old(deal).(deckPos := old(deal.deckPos) + n)
    {
      cards := [];
      for i := 0 to n
        invariant deal == old(deal).(deckPos := old(deal.deckPos) + i)
        invariant cards == old(deal.deck)[old(deal.deckPos)..old(deal.deckPos) + i]
      {
        var c := Draw();
        cards := cards + [c];
      }
    }

    // ---- the end of a street ---------------------------------------------------------------------

    // Whatever the top bettor has in front beyond the second highest bet goes back.
    method ReturnUncalled()
      requires |players| > 0
      modifies `players, `log
      ensures View() == Rules.ReturnUncalled(old(View()))
    {
      var top := -1;
      for k := 0 to |players|
        invariant if k == 0 then top == -1 else top == Rules.TopBettor(players, k)
      {
        if top < 0 || players[k].bet > players[top].bet {
          top := k;
        }
      }
      var second := 0;
      for k := 0 to |players|
        invariant second == Rules.SecondBet(players, top, k)
      {
        if k != top && players[k].bet > second {
          second := players[k].bet;
        }
      }
      var diff := players[top].bet - second;
      if diff > 0 {
        var p := players[top];
        players := players[top := p.(bet := p.bet - diff, stack := p.stack + diff, allIn := false)];
        log := log + [UncalledReturned(p.seat, diff)];
      }
    }

    method Collect()
      modifies `players
      ensures players == Rules.Collected(old(players))
    {
      for k := 0 to |players|
        invariant |players| == |old(players)|
        invariant forall j :: 0 <= j < |players| ==>
                    players[j] == if j < k then Rules.Collected(old(players))[j] else old(players)[j]
      {
        var p := players[k];
        players := players[k := p.(committed := p.committed + p.bet, bet := 0)];
      }
    }

    method CloseBets() returns (pots: seq<Pot>)
      requires |players| > 0 && AllHealthy(players)
      modifies `players, `log
      ensures View() == Rules.CloseBets(old(View()))
      ensures pots == Rules.PotsOf(players)
    {
      ClosedBets(View());
      ReturnUncalled();
      Collect();
      assert players == Rules.CloseBets(old(View())).players;
      forall i | 0 <= i < |players| ensures players[i].committed >= 0 { assert Healthy(players[i]); }
      pots := BuildPots();
      log := log + [PotsUpdated(pots)];
    }

    method RevealAll()
      modifies `players, `log
      ensures View() == Rules.RevealEveryone(old(View()))
    {
      var shown: seq<int> := [];
      for k := 0 to |players|
        invariant |players| == |old(players)|
        invariant log == old(log)
        invariant shown == Rules.HiddenSeats(old(players), k)
        invariant shown == [] ==> players == old(players)
        invariant forall j :: 0 <= j < |players| ==>
                    players[j] == if j < k then Rules.Exposed(old(players))[j] else old(players)[j]
      {
        var p := players[k];
        if !p.folded && !p.revealed {
          players := players[k := p.(revealed := true)];
          shown := shown + [p.seat];
        }
      }
      assert players == Rules.Exposed(old(players));
      if |shown| > 0 {
        log := log + [HandsRevealed(shown)];
      }
    }

    // ---- paying out --------------------------------------------------------------------------------

    method PayOne(seat: int, amount: int)
      requires Seating(players) && Find(players, seat) >= 0
      modifies `players
      ensures players == Rules.Credit(old(players), seat, amount)
      ensures Seating(players) && SameSeats(old(players), players)
    {
      CreditSeating(players, seat, amount);
      var i := Index(seat);
      players := players[i := players[i].(stack := players[i].stack + amount, won := players[i].won + amount)];
    }

    // Pays the winners their shares of the amount, the odd chips to those who come first.
    method Pay(index: nat, amount: int, ws: seq<int>, which: nat) returns (award: PotAward)
      requires ws != [] && amount >= 0
      requires Seating(players) && forall w :: w in ws ==> Find(players, w) >= 0
      modifies `players
      ensures award == PotAward(index, amount, Shares(ws, amount), which)
      ensures players == Rules.Pay(old(players), Shares(ws, amount))
    {
      var share := amount / |ws|;
      var odd := amount - share * |ws|;
      var paid: seq<PotWinner> := [];
      ghost var odds, shares := odd, Shares(ws, amount);
      for k := 0 to |ws|
        invariant paid == shares[..k]
        invariant odd == if k <= odds then odds - k else if odds > 0 then 0 else odds
        invariant Seating(players) && SameSeats(old(players), players)
        invariant players == Rules.Pay(old(players), paid)
      {
        var amt := share;
        if odd > 0 {
          amt := amt + 1;
          odd := odd - 1;
        }
        SharesStep(ws, amount, k);
        SameSeatsFind(old(players), players, ws[k], |players|);
        PayAppend(old(players), paid, PotWinner(ws[k], amt));
        ghost var before := players;
        PayOne(ws[k], amt);
        SeatsOn(old(players), before, players);
        paid := paid + [PotWinner(ws[k], amt)];
      }
      award := PotAward(index, amount, paid, which);
    }

    // One pot, in one piece or in two halves, the odd chip with the first board.
    method PayPot(index: nat, pot: Pot, ws: seq<int>, ws2: seq<int>, ghost r1: Ranks, ghost r2: Ranks)
      returns (awards: seq<PotAward>)
      requires pot.amount > 0 && pot.eligible != []
      requires Seating(players) && forall w :: w in pot.eligible ==> Find(players, w) >= 0
      requires ws == Winners(pot, r1, cfg.button) && (deal.runTwice ==> ws2 == Winners(pot, r2, cfg.button))
      modifies `players
      ensures awards == PotAwards(index, pot, r1, r2, deal.runTwice, cfg.button)
      ensures players == Rules.PayAll(old(players), awards)
      ensures Seating(players) && SameSeats(old(players), players)
    {
      WinnersEligible(pot, r1, cfg.button);
      WinnersEligible(pot, r2, cfg.button);
      if !deal.runTwice {
        var award := Pay(index, pot.amount, ws, 0);
        awards := [award];
        OneAward(old(players), award);
      } else {
        var half := pot.amount / 2;
        awards := PayHalves(index, pot.amount - half, half, ws, ws2);
      }
      PaySeats(old(players), awards);
    }

    method PayHalves(index: nat, first: int, second: int, ws: seq<int>, ws2: seq<int>) returns (awards: seq<PotAward>)
      requires first >= 0 && second >= 0 && ws != [] && ws2 != []
      requires Seating(players) && forall w :: w in ws || w in ws2 ==> Find(players, w) >= 0
      modifies `players
      ensures awards == [PotAward(index, first, Shares(ws, first), 1)] +
                        if second > 0 then [PotAward(index, second, Shares(ws2, second), 2)] else []
      ensures players == Rules.PayAll(old(players), awards)
    {
      var award := Pay(index, first, ws, 1);
      awards := [award];
      OneAward(old(players), award);
      if second > 0 {
        PaySeats(old(players), awards);
        forall w | w in ws2 ensures Find(players, w) >= 0 { SameSeatsFind(old(players), players, w, |players|); }
        ghost var before := players;
        award := Pay(index, second, ws2, 2);
        OneAward(before, award);
        PayAllConcat(old(players), awards, [award]);
        awards := awards + [award];
      }
    }

    method PayPots(pots: seq<Pot>, winners: seq<seq<int>>, winners2: seq<seq<int>>, ghost r1: Ranks, ghost r2: Ranks)
      returns (awards: seq<PotAward>)
      requires Payable(pots) && Seating(players)
      requires forall k, seat :: 0 <= k < |pots| && seat in pots[k].eligible ==> Find(players, seat) >= 0
      requires |winners| == |pots| && forall k :: 0 <= k < |pots| ==> winners[k] == Winners(pots[k], r1, cfg.button)
      requires deal.runTwice ==> |winners2| == |pots| && forall k :: 0 <= k < |pots| ==>
        winners2[k] == Winners(pots[k], r2, cfg.button)
      modifies `players
      ensures awards == Awards(pots, 0, r1, r2, deal.runTwice, cfg.button)
      ensures players == Rules.PayAll(old(players), awards)
    {
      awards := [];
      for k := 0 to |pots|
        invariant awards == Awards(pots[..k], 0, r1, r2, deal.runTwice, cfg.button)
        invariant players == Rules.PayAll(old(players), awards)
        invariant Seating(players) && SameSeats(old(players), players)
      {
        ghost var before := players;
        forall w | w in pots[k].eligible ensures Find(players, w) >= 0 {
          assert Find(old(players), w) >= 0;
          SameSeatsFind(old(players), players, w, |players|);
        }
        var more := PayPot(k, pots[k], winners[k], if deal.runTwice then winners2[k] else [], r1, r2);
        PaidMore(old(players), before, players, awards, more);
        PotStep(pots, k, r1, r2, deal.runTwice, cfg.button);
        awards := awards + more;
      }
      assert pots[..|pots|] == pots;
    }

    // Whether the seat is in one of the lists of winners.
    method WinsSomewhere(seat: int, lists: seq<seq<int>>) returns (wins: bool)
      ensures wins <==> seat in MemberSet(lists)
    {
      wins := false;
      for k := 0 to |lists|
        invariant wins <==> exists j :: 0 <= j < k && seat in lists[j]
      {
        if seat in lists[k] {
          wins := true;
        }
      }
    }

    // Whoever wins something has to have shown.
    method ShowWinners(lists: seq<seq<int>>)
      modifies `players, `log
      ensures View() == Rules.ShowWinners(old(View()), MemberSet(lists))
    {
      ghost var winners := MemberSet(lists);
      var shown: seq<int> := [];
      for k := 0 to |players|
        invariant log == old(log)
        invariant |players| == |old(players)|
        invariant shown == Rules.HiddenWinners(old(players), winners, k)
        invariant shown == [] ==> players == old(players)
        invariant forall j :: 0 <= j < |players| ==>
                    players[j] == if j < k then Rules.ShownWinners(old(players), winners)[j] else old(players)[j]
      {
        var p := players[k];
        if !p.folded && !p.revealed {
          var wins := WinsSomewhere(p.seat, lists);
          if wins {
            players := players[k := p.(revealed := true)];
            shown := shown + [p.seat];
          }
        }
      }
      assert players == Rules.ShownWinners(old(players), winners);
      if |shown| > 0 {
        log := log + [HandsRevealed(shown)];
      }
    }

    method ReportAward(award: PotAward)
      modifies `log
      ensures log == old(log) + Rules.AwardEvents(award)
    {
      for k := 0 to |award.winners|
        invariant log == old(log) + Rules.AwardEvents(award)[..k]
      {
        var w := award.winners[k];
        log := log + [PotAwarded(award.index, w.seat, w.amount, award.board)];
      }
    }

    method ReportAwards(awards: seq<PotAward>)
      modifies `log
      ensures log == old(log) + Rules.AllAwardEvents(awards)
    {
      for k := 0 to |awards|
        invariant log + Rules.AllAwardEvents(awards[k..]) == old(log) + Rules.AllAwardEvents(awards)
      {
        assert awards[k..][1..] == awards[k + 1..];
        ghost var before, rest := log, Rules.AllAwardEvents(awards[k + 1..]);
        ReportAward(awards[k]);
        assert before + (Rules.AwardEvents(awards[k]) + rest) == (before + Rules.AwardEvents(awards[k])) + rest;
      }
    }

    // Empties the pots and draws up what became of everybody.
    method DrawUp() returns (seats: seq<SeatResult>)
      modifies `players
      ensures players == Rules.Cleared(old(players)) && seats == Rules.SeatResults(old(players))
    {
      seats := [];
      for k := 0 to |players|
        invariant |players| == |old(players)|
        invariant seats == Rules.SeatResults(old(players))[..k]
        invariant forall j :: 0 <= j < |players| ==>
                    players[j] == if j < k then Rules.Cleared(old(players))[j] else old(players)[j]
      {
        var p := players[k];
        players := players[k := p.(committed := 0)];
        var net := p.stack - p.startStack;
        seats := seats + [SeatResult(p.seat, p.startStack, p.stack, net, p.won, p.folded, p.allIn, p.revealed)];
      }
    }

    // The hand is over.
    method Finish(awards: seq<PotAward>, pots: seq<Pot>)
      modifies `players, `finalPots, `results, `phase, `round, `log
      ensures View() == Rules.Finish(old(View()), awards, pots)
    {
      var seats := DrawUp();
      finalPots := pots;
      results := Results(awards, seats);
      phase := Result;
      round := round.(toAct := -1);
      log := log + [HandEnded(results)];
    }

    // One pot goes to the last player standing.
    method PaySole(index: nat, amount: int, winner: nat) returns (award: PotAward)
      requires Seating(players) && winner < |players|
      modifies `players, `log
      ensures award == PotAward(index, amount, [PotWinner(old(players)[winner].seat, amount)], 0)
      ensures players == Rules.Pay(old(players), award.winners) && Seating(players) && SameSeats(old(players), players)
      ensures log == old(log) + Rules.AwardEvents(award)
    {
      var p := players[winner];
      award := PotAward(index, amount, [PotWinner(p.seat, amount)], 0);
      FindSeat(players, winner);
      OnePaid(players, award);
      players := players[winner := p.(stack := p.stack + amount, won := p.won + amount)];
      log := log + [PotAwarded(index, p.seat, amount, 0)];
      assert Rules.AwardEvents(award) == [PotAwarded(index, p.seat, amount, 0)];
    }

    method PaySoles(pots: seq<Pot>, winner: nat) returns (awards: seq<PotAward>)
      requires Seating(players) && winner < |players|
      modifies `players, `log
      ensures awards == Rules.SoleAwards(pots, 0, old(players)[winner].seat)
      ensures players == Rules.PayAll(old(players), awards)
      ensures log == old(log) + Rules.AllAwardEvents(awards)
    {
      ghost var seat := players[winner].seat;
      awards := [];
      for k := 0 to |pots|
        invariant SameSeats(old(players), players) && Seating(players) && players[winner].seat == seat
        invariant awards == Rules.SoleAwards(pots[..k], 0, seat)
        invariant players == Rules.PayAll(old(players), awards)
        invariant log == old(log) + Rules.AllAwardEvents(awards)
      {
        ghost var before, events := players, log;
        var award := PaySole(k, pots[k].amount, winner);
        SoleStep(pots, k, seat, award, awards);
        PaidOn(old(players), before, players, awards, award);
        ReportedOn(old(log), events, log, awards, award);
        assert Kin(before[winner], players[winner]);
        awards := awards + [award];
      }
      assert pots[..|pots|] == pots;
    }

    // The last player standing takes every pot.
    method FinishUncontested(winner: nat)
      requires Seating(players) && AllHealthy(players) && winner < |players|
      modifies `players, `finalPots, `results, `phase, `round, `log
      ensures View() == Rules.FinishUncontested(old(View()), winner)
    {
      ghost var s := View();
      CloseBetsSeats(s);
      var pots := CloseBets();
      assert Kin(s.players[winner], players[winner]);
      var awards := PaySoles(pots, winner);
      assert View() == Rules.PayOut(Rules.CloseBets(s), awards);
      Finish(awards, pots);
    }

    // Evaluates the live hands and pays every pot.
    method PayWinners(pots: seq<Pot>) returns (awards: seq<PotAward>)
      requires pots == Rules.PotsOf(players) && Payable(pots) && Seating(players)
      requires forall k, seat :: 0 <= k < |pots| && seat in pots[k].eligible ==> Find(players, seat) >= 0
      requires |deal.board| == 5 && (deal.runTwice ==> |deal.board2| == 5)
      modifies `players, `log
      ensures awards == Rules.FinalAwards(old(View()))
      ensures View() == Rules.PayOut(Rules.ShowWinners(old(View()), Rules.FinalWinners(old(View()))), awards)
    {
      ghost var s := View();
      var winners := PotWinnersOn(pots, deal.board);
      var winners2: seq<seq<int>> := [];
      if deal.runTwice {
        winners2 := PotWinnersOn(pots, deal.board2);
      }
      WinnerLists(s, winners, winners2);
      awards := PayPots(pots, winners, winners2, Rules.BoardRanks(s), Rules.BoardRanks2(s));
      PayShowCommute(s.players, awards, Rules.FinalWinners(s));
      ShowWinners(winners + winners2);
      ReportAwards(awards);
    }

    method AwardPots()
      requires Sound(View()) && AllHealthy(players) && LiveCount(players, |players|) >= 1
      requires |deal.board| == 5 && (deal.runTwice ==> |deal.board2| == 5)
      modifies `players, `finalPots, `results, `phase, `round, `log
      ensures View() == Rules.AwardPots(old(View()))
    {
      PotsPayable(players);
      forall i | 0 <= i < |players| ensures players[i].committed >= 0 { assert Healthy(players[i]); }
      var pots := BuildPots();
      var awards := PayWinners(pots);
      Finish(awards, pots);
    }

    // ---- showdown ----------------------------------------------------------------------------------

    method CollectSeats(lists: seq<seq<int>>) returns (seats: set<int>)
      ensures seats == MemberSet(lists)
    {
      seats := {};
      for k := 0 to |lists|
        invariant seats == MemberSet(lists[..k])
      {
        MemberStep(lists, k);
        seats := seats + (set x | x in lists[k]);
      }
      assert lists[..|lists|] == lists;
    }

    // Pays at once when every live hand is on the table already, else opens the staged showdown.
    method ToShowdown()
      requires Sound(View()) && AllHealthy(players) && LiveCount(players, |players|) >= 1
      requires |deal.board| == 5 && (deal.runTwice ==> |deal.board2| == 5)
      modifies `players, `finalPots, `results, `phase, `round, `show, `log
      ensures View() == Rules.ToShowdown(old(View()))
    {
      round := round.(toAct := -1);
      var order := OrderOfShowing();
      var pending := SomebodyHides(order);
      if pending {
        var winning := WinningSeats();
        show := Show(order, 0, winning);
        phase := Showdown;
      } else {
        AwardPots();
      }
    }

    method SomebodyHides(order: seq<nat>) returns (pending: bool)
      requires forall k :: 0 <= k < |order| ==> order[k] < |players|
      ensures pending <==> exists k :: 0 <= k < |order| && !players[order[k]].revealed
    {
      pending := false;
      for k := 0 to |order|
        invariant pending <==> exists j :: 0 <= j < k && !players[order[j]].revealed
      {
        if !players[order[k]].revealed {
          pending := true;
        }
      }
    }

    // The seats that win a pot on the first board.
    method WinningSeats() returns (winning: set<int>)
      requires AllHealthy(players) && |deal.board| == 5
      ensures winning == Rules.WinnerSeats(Rules.PotsOf(players), Rules.BoardRanks(View()), cfg.button)
    {
      forall i | 0 <= i < |players| ensures players[i].committed >= 0 { assert Healthy(players[i]); }
      var pots := BuildPots();
      var winners := PotWinnersOn(pots, deal.board);
      winning := CollectSeats(winners);
      OneBoardLists(pots, winners, Rules.BoardRanks(View()), cfg.button);
    }

    method EndStreet()
      requires Playing(View()) && LiveCount(players, |players|) >= 2
      requires deal.street == RIVER ==> |deal.board| == 5
      modifies `players, `finalPots, `results, `phase, `runout, `round, `show, `log
      ensures View() == Rules.EndStreet(old(View()))
    {
      CloseBetsKeeps(View());
      var pots := CloseBets();
      AfterClose();
    }

    method AfterClose()
      requires Sound(View()) && AllHealthy(players) && LiveCount(players, |players|) >= 1
      requires deal.street == RIVER ==> |deal.board| == 5 && (deal.runTwice ==> |deal.board2| == 5)
      modifies `players, `finalPots, `results, `phase, `runout, `round, `show, `log
      ensures View() == Closed(old(View()))
    {
      round := round.(toAct := -1);
      if deal.street == RIVER {
        ToShowdown();
      } else {
        AwaitDeal();
      }
    }

    // The next street is to be dealt; with fewer than two able to bet, every hand is shown first.
    method AwaitDeal()
      modifies `players, `phase, `runout, `log
      ensures View() == (
                var s := old(View());
                if ActiveCount(s.players, |s.players|) < 2 then
                  Rules.RevealEveryone(s.(phase := DealPending, runout := true))
                else s.(phase := DealPending))
    {
      var active := CountActive();
      phase := DealPending;
      if active < 2 {
        runout := true;
        RevealAll();
      }
    }

    // Hands the turn on, or ends the street or the hand. Somebody to act is always found.
    method Settle(from: nat, inclusive: bool)
      requires phase == Betting ==> Playing(View()) || GoesOn(View())
      requires from < |players|
      requires deal.street == RIVER ==> |deal.board| == 5
      modifies `players, `finalPots, `results, `phase, `runout, `round, `show, `log
      ensures View() == Rules.Settle(old(View()), from, inclusive)
    {
      if phase != Betting {
        return;
      }
      LastLiveIsLive(players, |players|);
      var live, last := CountLive();
      if live == 1 {
        FinishUncontested(last);
        return;
      }
      var complete := RoundComplete();
      if complete {
        EndStreet();
        return;
      }
      var actor := FindActor(from, inclusive);
      SomebodyActs(View(), if inclusive then from else Next(from, |players|));
      assert actor >= 0;
      round := round.(toAct := actor);
    }

    // ---- actions -----------------------------------------------------------------------------------

    method Commit(i: nat, add: int)
      requires i < |players|
      modifies `players
      ensures players == old(players)[i := Rules.Commit(old(players)[i], add)]
    {
      var p := players[i];
      var stack := p.stack - add;
      players := players[i := p.(stack := stack, bet := p.bet + add, allIn := stack == 0)];
    }

    // Checks the action and moves the chips.
    method Perform(a: Action) returns (verdict: Verdict)
      requires 0 <= round.toAct < |players|
      modifies `players, `round
      ensures match Rules.Perform(cfg, old(round), old(players)[old(round.toAct)], a)
              case Refused(e) => verdict == No(e) && players == old(players) && round == old(round)
              case Moved(q, r, kind) =>
                verdict == Yes(kind) && players == old(players)[old(round.toAct) := q] && round == r
    {
      var i := round.toAct;
      var p := players[i];
      var toCall := round.currentBet - p.bet;
      var maxTo := p.bet + p.stack;
      var kind, amount := a.kind, a.amount;
      if kind == Bet && round.currentBet > 0 {
        kind := Raise;
      }
      if kind == Raise && round.currentBet == 0 {
        kind := Bet;
      }
      if kind == AllIn {
        if round.currentBet == 0 {
          kind, amount := Bet, maxTo;
        } else if maxTo <= round.currentBet {
          kind := Call;
        } else {
          kind, amount := Raise, maxTo;
        }
      }
      match kind {
        case Fold =>
          players := players[i := p.(folded := true)];
          return Yes(Fold);
        case Check =>
          if toCall > 0 {
            return No(IllegalAction);
          }
          return Yes(Check);
        case Call =>
          if toCall <= 0 {
            return No(IllegalAction);
          }
          Commit(i, Min(toCall, p.stack));
          return Yes(Call);
        case Bet =>
          verdict := PerformBet(i, amount);
        case Raise =>
          verdict := PerformRaise(i, amount);
        case _ =>
          return No(IllegalAction);
      }
    }

    method PerformBet(i: nat, amt: int) returns (verdict: Verdict)
      requires i < |players|
      modifies `players, `round
      ensures match Rules.PerformBet(cfg, old(round), old(players)[i], amt)
              case Refused(e) => verdict == No(e) && players == old(players) && round == old(round)
              case Moved(q, r, kind) => verdict == Yes(kind) && players == old(players)[i := q] && round == r
    {
      var maxTo := players[i].bet + players[i].stack;
      if round.currentBet != 0 {
        return No(IllegalAction);
      }
      if amt <= 0 || amt > maxTo || (amt < cfg.bigBlind && amt != maxTo) {
        return No(AmountOutOfRange);
      }
      Commit(i, amt);
      round := round.(currentBet := amt);
      if amt >= cfg.bigBlind {
        round := round.(raiseSize := amt, fullLevel := amt);
      }
      verdict := Yes(Bet);
    }

    method PerformRaise(i: nat, amt: int) returns (verdict: Verdict)
      requires i < |players|
      modifies `players, `round
      ensures match Rules.PerformRaise(old(round), old(players)[i], amt)
              case Refused(e) => verdict == No(e) && players == old(players) && round == old(round)
              case Moved(q, r, kind) => verdict == Yes(kind) && players == old(players)[i := q] && round == r
    {
      var p := players[i];
      var maxTo := p.bet + p.stack;
      if !MayRaise(p, round.fullLevel) || maxTo <= round.currentBet {
        return No(IllegalAction);
      }
      var minTo := round.currentBet + round.raiseSize;
      if amt <= round.currentBet || amt > maxTo || (amt < minTo && amt != maxTo) {
        return No(AmountOutOfRange);
      }
      Commit(i, amt - p.bet);
      if amt >= minTo {
        round := round.(raiseSize := amt - round.currentBet, fullLevel := amt);
      }
      round := round.(currentBet := amt);
      verdict := Yes(Raise);
    }

    ghost predicate Valid()
      reads this
    {
      Inv(View()) && WellDealt(View())
    }

    // The answer to a command: the new state is the specification's, or nothing has changed.
    ghost predicate Answers(before: State, outcome: Outcome, refusal: Refusal)
      reads this
    {
      match outcome
      case Done(s) => refusal == Accepted && View() == s
      case Rejected(e) => refusal == Because(e) && View() == before
    }

    // The accepted action is noted and reported.
    method Note(before: int, kind: ActionKind)
      requires 0 <= round.toAct < |players|
      modifies `players, `round, `log
      ensures var i := old(round.toAct); var q := old(players)[i];
              && players == old(players)[i := Rules.Acted(q, old(round.fullLevel))]
              && round == old(round).(aggressor := if kind == Bet || kind == Raise then i else old(round.aggressor))
              && log == old(log) + [ActionTaken(q.seat, Rules.EventAmount(kind, before, q), q.allIn, kind)]
    {
      var i := round.toAct;
      var q := players[i];
      players := players[i := q.(hasActed := true, actedAt := round.fullLevel)];
      var amount := 0;
      if kind == Call {
        amount := q.bet - before;
      } else if kind == Bet || kind == Raise {
        amount := q.bet;
        round := round.(aggressor := i);
      }
      log := log + [ActionTaken(q.seat, amount, q.allIn, kind)];
    }

    // An action of the player on turn, up to its event.
    method Move(a: Action) returns (verdict: Verdict)
      requires Inv(View()) && phase == Betting
      modifies `players, `round, `log
      ensures match Rules.Perform(cfg, old(round), old(players)[old(round.toAct)], a)
              case Refused(e) => verdict == No(e) && View() == old(View())
              case Moved(q, r, kind) => verdict == Yes(kind) && View() == Rules.AfterMove(old(View()), q, r, kind)
    {
      ghost var s := View();
      var before := players[round.toAct].bet;
      verdict := Perform(a);
      if verdict.Yes? {
        PerformedRound(s, a);
        Note(before, verdict.kind);
      }
    }

    method Apply(seat: int, a: Action) returns (refusal: Refusal)
      requires Valid()
      modifies `players, `finalPots, `results, `phase, `runout, `round, `show, `log
      ensures Answers(old(View()), Rules.Apply(old(View()), seat, a), refusal)
      ensures Valid()
    {
      ghost var s := View();
      CommandKeeps(s, Rules.DoApply(seat, a));
      var known := Index(seat);
      if known < 0 {
        return Because(UnknownSeat);
      }
      if phase != Betting || round.toAct < 0 || players[round.toAct].seat != seat {
        return Because(NotYourTurn);
      }
      var i := round.toAct;
      var verdict := Move(a);
      if verdict.No? {
        return Because(verdict.error);
      }
      AfterMoveKeeps(s, a);
      RiverBoard(s);
      Settle(i, false);
      refusal := Accepted;
    }

    // A turn that ran out: a check when that is free, else a fold.
    method Timeout(seat: int) returns (refusal: Refusal)
      requires Valid()
      modifies `players, `finalPots, `results, `phase, `runout, `round, `show, `log
      ensures Answers(old(View()), Rules.Timeout(old(View()), seat), refusal)
      ensures Valid()
    {
      ghost var s := View();
      CommandKeeps(s, Rules.DoTimeout(seat));
      if phase != Betting || round.toAct < 0 || players[round.toAct].seat != seat {
        return Because(NotYourTurn);
      }
      var i := round.toAct;
      TimedOutPlaying(s);
      RiverBoard(s);
      LapseTurn();
      Settle(i, false);
      refusal := Accepted;
    }

    method LapseTurn()
      requires 0 <= round.toAct < |players|
      modifies `players, `log
      ensures View() == Rules.AfterTimeout(old(View()))
    {
      var i := round.toAct;
      var p := players[i];
      var resolved := Fold;
      if p.bet == round.currentBet {
        resolved := Check;
      } else {
        p := p.(folded := true);
      }
      players := players[i := p.(hasActed := true, actedAt := round.fullLevel)];
      log := log + [TimedOut(p.seat, resolved)];
    }

    // Somebody leaves: their hand is folded whoever's turn it is.
    method Forfeit(seat: int) returns (refusal: Refusal)
      requires Valid()
      modifies `players, `finalPots, `results, `phase, `runout, `round, `show, `log
      ensures Answers(old(View()), Rules.Forfeit(old(View()), seat), refusal)
      ensures Valid()
    {
      ghost var s := View();
      CommandKeeps(s, Rules.DoForfeit(seat));
      var i := Index(seat);
      if i < 0 || players[i].folded || phase == Result || phase == Showdown {
        return Because(UnknownSeat);
      }
      Leave(i, seat);
      refusal := Accepted;
    }

    method Leave(i: nat, ghost seat: int)
      requires Valid() && i < |players| && i == Find(players, seat)
      requires !players[i].folded && (phase == Betting || phase == DealPending)
      modifies `players, `finalPots, `results, `phase, `runout, `round, `show, `log
      ensures Rules.Forfeit(old(View()), seat) == Done(View())
    {
      AfterForfeitFacts(View(), i);
      RiverBoard(View());
      ForfeitIs(View(), seat);
      FoldOut(i);
      AfterLeaving(i);
    }

    method FoldOut(i: nat)
      requires i < |players|
      modifies `players, `log
      ensures View() == Rules.AfterForfeit(old(View()), i)
    {
      players := players[i := players[i].(folded := true)];
      log := log + [ActionTaken(players[i].seat, 0, false, Fold)];
    }

    method AfterLeaving(i: nat)
      requires i < |players| && Sound(View()) && AllHealthy(players)
      requires phase == Betting ==> Playing(View())
      requires deal.street == RIVER ==> |deal.board| == 5
      modifies `players, `finalPots, `results, `phase, `runout, `round, `show, `log
      ensures View() == LeftOver(old(View()), i)
    {
      LastLiveIsLive(players, |players|);
      var live, last := CountLive();
      if live == 1 {
        EndUncontested(last);
      } else if phase == Betting {
        BetOn(i);
      }
    }

    method EndUncontested(winner: nat)
      requires Seating(players) && AllHealthy(players) && winner < |players| && !players[winner].folded
      modifies `players, `finalPots, `results, `phase, `round, `log
      ensures View() == Rules.FinishUncontested(old(View()).(phase := Betting), winner)
    {
      phase := Betting;
      assert View() == old(View()).(phase := Betting);
      FinishUncontested(winner);
    }

    // Several players are left: the turn or the street may end with the fold.
    method BetOn(i: nat)
      requires i < |players| && Playing(View()) && LiveCount(players, |players|) >= 2
      requires deal.street == RIVER ==> |deal.board| == 5
      modifies `players, `finalPots, `results, `phase, `runout, `round, `show, `log
      ensures View() == LeftOver(old(View()), i)
    {
      if round.toAct == i {
        Settle(i, false);
        return;
      }
      var complete := RoundComplete();
      if complete {
        EndStreet();
      }
    }

    // ---- the board ---------------------------------------------------------------------------------

    method CanRunItTwice() returns (can: bool)
      ensures can == Rules.CanRunItTwice(View())
    {
      var missing := 5 - |deal.board|;
      can := phase == DealPending && runout && !deal.runTwice && missing > 0 &&
             deal.deckPos + 2 * missing <= |deal.deck|;
    }

    method RunItTwice() returns (refusal: Refusal)
      requires Valid()
      modifies `deal
      ensures Answers(old(View()), Rules.RunItTwice(old(View())), refusal)
      ensures Valid()
    {
      CommandKeeps(View(), Rules.DoRunItTwice);
      var can := CanRunItTwice();
      if !can {
        return Because(WrongPhase);
      }
      deal := deal.(runTwice := true, board2 := deal.board);
      refusal := Accepted;
    }

    // The next street's cards go to the board, and to the second board when there is one.
    method DealStreet()
      requires CardsLeft(deal)
      modifies `deal, `log
      ensures View() == Rules.DealStreet(old(View()))
    {
      deal := deal.(street := deal.street + 1);
      var n := if deal.street == FLOP then 3 else 1;
      var dealt := DrawCards(n);
      deal := deal.(board := deal.board + dealt);
      log := log + [StreetDealt(deal.street, dealt, 0)];
      if deal.runTwice {
        dealt := DrawCards(n);
        deal := deal.(board2 := deal.board2 + dealt);
        log := log + [StreetDealt(deal.street, dealt, 2)];
      }
    }

    method NewRound()
      modifies `players, `round, `phase
      ensures View() == Rules.NewRound(old(View()))
    {
      ghost var before := players;
      round := round.(currentBet := 0, fullLevel := 0, raiseSize := cfg.bigBlind, aggressor := -1);
      phase := Betting;
      Refresh();
    }

    method Refresh()
      modifies `players
      ensures players == Rules.Refreshed(old(players))
    {
      for k := 0 to |players|
        invariant |players| == |old(players)|
        invariant forall j :: 0 <= j < |players| ==>
                    players[j] == if j < k then Rules.Refreshed(old(players))[j] else old(players)[j]
      {
        players := players[k := players[k].(hasActed := false, actedAt := 0)];
      }
    }

    // Deals the next street and, unless the board is being run out, opens its betting.
    method Advance() returns (refusal: Refusal)
      requires Valid()
      modifies `players, `deal, `finalPots, `results, `phase, `runout, `round, `show, `log
      ensures Answers(old(View()), Rules.Advance(old(View())), refusal)
      ensures Valid()
    {
      ghost var s := View();
      CommandKeeps(s, Rules.DoAdvance);
      if phase != DealPending {
        return Because(WrongPhase);
      }
      DealAndGoOn();
      refusal := Accepted;
    }

    method DealAndGoOn()
      requires Valid() && phase == DealPending
      modifies `players, `deal, `finalPots, `results, `phase, `runout, `round, `show, `log
      ensures Rules.Advance(old(View())) == Done(View())
    {
      AdvanceReady(View());
      AdvanceIs(View());
      DealStreet();
      GoOn();
    }

    // With the street dealt: its betting, or the next stage of the run-out.
    method GoOn()
      requires Sound(View()) && AllHealthy(players) && LiveCount(players, |players|) >= 1
      requires !runout ==> Playing(Rules.NewRound(View()))
      requires deal.street == RIVER ==> |deal.board| == 5 && (deal.runTwice ==> |deal.board2| == 5)
      modifies `players, `finalPots, `results, `phase, `runout, `round, `show, `log
      ensures View() == GoneOn(old(View()))
    {
      if runout {
        if deal.street == RIVER {
          ToShowdown();
        }
        return;
      }
      RefreshedSeats(players, cfg.button);
      NewRound();
      var b := Index(cfg.button);
      Settle(Next(b, |players|), true);
    }

    // ---- the staged showdown -------------------------------------------------------------------------

    // Whether p is in the pot, and whether a hand on the table beats p there.
    method Contest(pot: Pot, p: Player, mine: int) returns (eligible: bool, beaten: bool)
      requires 3 <= |deal.board| <= 5 && mine == Rules.Strength(p, deal.board)
      ensures eligible <==> p.seat in pot.eligible
      ensures beaten <==> Rules.Beaten(View(), pot, p)
    {
      eligible, beaten := false, false;
      for k := 0 to |pot.eligible|
        invariant eligible <==> p.seat in pot.eligible[..k]
        invariant beaten <==>
          exists j :: 0 <= j < k && pot.eligible[j] != p.seat && Rules.Beats(View(), pot.eligible[j], p)
      {
        var seat := pot.eligible[k];
        if seat == p.seat {
          eligible := true;
        } else {
          var i := Index(seat);
          if i >= 0 && !players[i].folded && players[i].revealed {
            var v := Evaluator.Evaluate([players[i].hole0, players[i].hole1] + deal.board);
            if v.rank > mine {
              beaten := true;
            }
          }
        }
      }
      assert pot.eligible[..|pot.eligible|] == pot.eligible;
    }

    method MustShow(p: Player) returns (must: bool)
      requires 3 <= |deal.board| <= 5 && AllHealthy(players)
      ensures must == Rules.MustShow(View(), p)
    {
      match cfg.policy {
        case RevealAll =>
          return true;
        case RevealWinnersOnly =>
          return p.seat in show.winners;
        case RevealInOrder =>
      }
      var mine := Evaluator.Evaluate([p.hole0, p.hole1] + deal.board);
      forall i | 0 <= i < |players| ensures players[i].committed >= 0 { assert Healthy(players[i]); }
      var pots := BuildPots();
      must := SomePotOpen(pots, p, mine.rank);
    }

    method SomePotOpen(pots: seq<Pot>, p: Player, mine: int) returns (open: bool)
      requires 3 <= |deal.board| <= 5 && mine == Rules.Strength(p, deal.board)
      ensures open <==> exists k :: 0 <= k < |pots| && p.seat in pots[k].eligible && !Rules.Beaten(View(), pots[k], p)
    {
      for k := 0 to |pots|
        invariant forall j :: 0 <= j < k ==> !(p.seat in pots[j].eligible && !Rules.Beaten(View(), pots[j], p))
      {
        var eligible, beaten := Contest(pots[k], p, mine);
        if eligible && !beaten {
          return true;
        }
      }
      open := false;
    }

    // The next player shows or mucks; after the last one the pots are awarded.
    method RevealNext() returns (refusal: Refusal)
      requires Valid()
      modifies `players, `finalPots, `results, `phase, `round, `show, `log
      ensures Answers(old(View()), Rules.RevealNext(old(View())), refusal)
      ensures Valid()
    {
      if phase != Showdown {
        return Because(WrongPhase);
      }
      RevealKeeps(View());
      RevealPlayer();
      refusal := Accepted;
    }

    method RevealPlayer()
      requires Valid() && phase == Showdown
      modifies `players, `finalPots, `results, `phase, `round, `show, `log
      ensures Rules.RevealNext(old(View())) == Done(View())
    {
      RevealReady(View());
      var i := show.order[show.idx];
      show := show.(idx := show.idx + 1);
      Turn(i);
      if show.idx >= |show.order| {
        AwardPots();
      }
    }

    method Turn(i: nat)
      requires i < |players| && 3 <= |deal.board| <= 5 && AllHealthy(players)
      modifies `players, `log
      ensures View() == Rules.ShowOrMuck(old(View()), i)
    {
      var p := players[i];
      if !p.revealed {
        var must := MustShow(p);
        if must {
          players := players[i := p.(revealed := true)];
          log := log + [HandsRevealed([p.seat])];
        } else {
          players := players[i := p.(mucked := true)];
          log := log + [Mucked(p.seat)];
        }
      }
    }

    // ---- options ---------------------------------------------------------------------------------------

    method Options(seat: int) returns (o: HandOptions.Options)
      requires Valid()
      ensures o == HandOptions.Offered(View(), seat)
    {
      if phase != Betting || round.toAct < 0 || players[round.toAct].seat != seat {
        return HandOptions.NOTHING;
      }
      var p := players[round.toAct];
      o := HandOptions.NOTHING.(fold := true);
      var toCall := round.currentBet - p.bet;
      if toCall <= 0 {
        o := o.(check := true);
      } else {
        o := o.(call := Min(toCall, p.stack));
      }
      var maxTo := p.bet + p.stack;
      if round.currentBet == 0 {
        var minTo := cfg.bigBlind;
        if maxTo >= minTo {
          o := o.(raise := HandOptions.Range(minTo, maxTo));
        }
        return o.(allIn := maxTo);
      }
      if MayRaise(p, round.fullLevel) && maxTo > round.currentBet {
        var minTo := round.currentBet + round.raiseSize;
        if maxTo >= minTo {
          o := o.(raise := HandOptions.Range(minTo, maxTo));
        }
        o := o.(allIn := maxTo);
      } else if p.stack <= toCall {
        o := o.(allIn := maxTo);
      }
    }

    // ---- the start of a hand -----------------------------------------------------------------------

    constructor (cfg: Config, ps: seq<Player>, shuffled: seq<Card>)
      ensures this.cfg == cfg && players == ps && deal == Deal(shuffled, 0, [], [], false, PREFLOP)
      ensures round == Round(0, 0, 0, -1, -1) && show == Show([], 0, {}) && phase == Betting && !runout
      ensures straddleSeat == -1 && finalPots == [] && results == NoResults && log == []
    {
      this.cfg := cfg;
      players := ps;
      deal := Deal(shuffled, 0, [], [], false, PREFLOP);
      round := Round(0, 0, 0, -1, -1);
      show := Show([], 0, {});
      phase, runout := Betting, false;
      sbSeat, bbSeat, straddleSeat := 0, 0, -1;
      finalPots, results, log := [], NoResults, [];
    }

    // With two players the button is the small blind too.
    method TakePositions(b: nat)
      requires b < |players| && |players| >= 2 && b == ButtonIndex(cfg, players)
      modifies `sbSeat, `bbSeat, `log
      ensures var sb := if |players| == 2 then b else Next(b, |players|);
              && sbSeat == players[sb].seat && bbSeat == players[Next(sb, |players|)].seat
              && log == old(log) + [HandStarted(cfg.button, sbSeat, bbSeat)]
    {
      if |players| == 2 {
        sbSeat := cfg.button;
        bbSeat := players[Next(b, |players|)].seat;
        IndexOfBound(players, cfg.button, |players|);
      } else {
        var sb := Next(b, |players|);
        sbSeat := players[sb].seat;
        bbSeat := players[Next(sb, |players|)].seat;
      }
      log := log + [HandStarted(cfg.button, sbSeat, bbSeat)];
    }

    // The ante round, beginning behind the button, which is at position b.
    method PostAntes(b: nat)
      requires b < |players|
      modifies `players, `log
      ensures View() == HandModel.PostAntes(old(View()), b, 0)
    {
      var i := Next(b, |players|);
      for n := 0 to |players|
        invariant |players| == |old(players)|
        invariant n < |players| ==> i == Around(b, n, |players|)
        invariant HandModel.PostAntes(View(), b, n) == HandModel.PostAntes(old(View()), b, 0)
      {
        PostAnte(i);
        i := Next(i, |players|);
      }
    }

    method PostAnte(i: nat)
      requires i < |players|
      modifies `players, `log
      ensures View() == HandModel.PostAnte(old(View()), i)
    {
      var p := players[i];
      var amt := Min(cfg.ante, p.stack);
      var stack := p.stack - amt;
      players := players[i := p.(stack := stack, committed := p.committed + amt, allIn := stack == 0)];
      log := log + [AntePosted(p.seat, amt, stack == 0)];
    }

    // Dead blinds count as contributions and leave the price alone.
    method PostDeads(b: nat)
      requires b < |players|
      modifies `players, `log
      ensures View() == HandModel.PostDeads(old(View()), b, 0)
    {
      var i := Next(b, |players|);
      for n := 0 to |players|
        invariant |players| == |old(players)|
        invariant n < |players| ==> i == Around(b, n, |players|)
        invariant HandModel.PostDeads(View(), b, n) == HandModel.PostDeads(old(View()), b, 0)
      {
        PostDead(i);
        i := Next(i, |players|);
      }
    }

    method PostDead(i: nat)
      requires i < |players|
      modifies `players, `log
      ensures View() == HandModel.PostDead(old(View()), i)
    {
      var p := players[i];
      if p.deadBlind <= 0 || p.stack == 0 {
        return;
      }
      var amt := Min(p.deadBlind, p.stack);
      var stack := p.stack - amt;
      players := players[i := p.(stack := stack, committed := p.committed + amt, allIn := stack == 0)];
      log := log + [BlindPosted(p.seat, amt, stack == 0, DeadBlind)];
    }

    method PostBlind(i: nat, amount: int, kind: BlindKind) returns (amt: int)
      requires i < |players|
      modifies `players, `log
      ensures View() == HandModel.PostBlind(old(View()), i, amount, kind)
      ensures amt == Min(amount, old(players)[i].stack)
    {
      var p := players[i];
      amt := Min(amount, p.stack);
      var stack := p.stack - amt;
      players := players[i := p.(stack := stack, bet := p.bet + amt, allIn := stack == 0)];
      log := log + [BlindPosted(p.seat, amt, stack == 0, kind)];
    }

    method PostBlinds()
      requires Find(players, sbSeat) >= 0 && Find(players, bbSeat) >= 0
      modifies `players, `round, `log
      ensures View() == HandModel.PostBlinds(old(View()))
    {
      var sb := Index(sbSeat);
      BlindKeepsSeats(View(), sb, cfg.smallBlind, SmallBlind, bbSeat);
      var posted := PostBlind(sb, cfg.smallBlind, SmallBlind);
      var bb := Index(bbSeat);
      posted := PostBlind(bb, cfg.bigBlind, BigBlind);
      round := round.(currentBet := cfg.bigBlind, fullLevel := cfg.bigBlind, raiseSize := cfg.bigBlind);
    }

    // The straddle, if the player after the big blind is the one to post it.
    method PostStraddle()
      requires Find(players, bbSeat) >= 0
      modifies `players, `round, `straddleSeat, `log
      ensures View() == HandModel.PostStraddle(old(View()))
    {
      if cfg.straddleAmount > 0 && |players| >= 3 {
        var bb := Index(bbSeat);
        var i := Next(bb, |players|);
        var utg := players[i];
        if utg.seat == cfg.straddleSeat && utg.stack > 0 {
          var posted := PostBlind(i, cfg.straddleAmount, StraddleBlind);
          straddleSeat := utg.seat;
          if posted >= cfg.straddleAmount {
            round := round.(
              currentBet := cfg.straddleAmount, fullLevel := cfg.straddleAmount, raiseSize := cfg.straddleAmount);
          } else {
            round := round.(currentBet := if posted > round.currentBet then posted else round.currentBet);
          }
        }
      }
    }

    // One round of the deal, beginning behind the button.
    method DealRound(b: nat, second: bool)
      requires b < |players| && deal.deckPos + |players| <= |deal.deck|
      modifies `players, `deal
      ensures |players| == |old(players)| && deal == old(deal).(deckPos := old(deal.deckPos) + |players|)
      ensures forall j :: 0 <= j < |players| ==>
                players[j] == WithCard(old(players)[j],
                    old(deal.deck)[old(deal.deckPos) + DealPlace(b, j, |players|)], second)
    {
      var i := Next(b, |players|);
      for n := 0 to |players|
        invariant |players| == |old(players)|
        invariant deal == old(deal).(deckPos := old(deal.deckPos) + n)
        invariant n < |players| ==> i == Around(b, n, |players|)
        invariant forall j :: 0 <= j < |players| ==>
                    players[j] == if DealPlace(b, j, |players|) < n
                                  then WithCard(old(players)[j],
                                      old(deal.deck)[old(deal.deckPos) + DealPlace(b, j, |players|)], second)
                                  else old(players)[j]
      {
        var c := Draw();
        players := players[i := if second then players[i].(hole1 := c) else players[i].(hole0 := c)];
        i := Next(i, |players|);
      }
    }

    method DealHoles(b: nat)
      requires b < |players| && deal.deckPos == 0 && 2 * |players| <= |deal.deck|
      modifies `players, `deal, `log
      ensures View() == HandModel.DealHoles(old(View()), b)
    {
      DealRound(b, false);
      DealRound(b, true);
      assert players == WithHoles(old(players), b, old(deal.deck));
      ReportHoles(b);
    }

    method ReportHoles(b: nat)
      requires b < |players|
      modifies `log
      ensures log == old(log) + HoleEvents(players, b)
    {
      var i := Next(b, |players|);
      for n := 0 to |players|
        invariant n < |players| ==> i == Around(b, n, |players|)
        invariant log == old(log) + HoleEvents(players, b)[..n]
      {
        var p := players[i];
        log := log + [HoleCardsDealt(p.seat, p.hole0, p.hole1)];
        i := Next(i, |players|);
      }
    }

    method FirstActor(b: nat) returns (first: nat)
      requires b < |players| && Find(players, bbSeat) >= 0
      requires straddleSeat >= 0 ==> Find(players, straddleSeat) >= 0
      ensures first == FirstToAct(View(), b)
    {
      if straddleSeat >= 0 {
        var i := Index(straddleSeat);
        first := Next(i, |players|);
      } else if |players| == 2 {
        first := b;
      } else {
        var i := Index(bbSeat);
        first := Next(i, |players|);
      }
    }

    // Antes, dead blinds, blinds and the straddle.
    method PostAll(b: nat, ghost seats: seq<Seat>)
      requires Acceptable(cfg, seats, deal.deck)
      requires players == Seated(cfg, seats) && b == ButtonIndex(cfg, players)
      requires View() == Started(cfg, players, deal.deck).(sbSeat := sbSeat, bbSeat := bbSeat, log := [])
      modifies `players, `round, `sbSeat, `bbSeat, `straddleSeat, `log
      ensures View() == Opened(cfg, seats, old(deal.deck))
    {
      ghost var deck := deal.deck;
      BlindsAreSeated(cfg, seats, deck);
      TakePositions(b);
      PostFirst(b, seats, deck);
      PostBlinds();
      PostStraddle();
    }

    method PostFirst(b: nat, ghost seats: seq<Seat>, ghost deck: seq<Card>)
      requires Acceptable(cfg, seats, deck) && b == ButtonIndex(cfg, Seated(cfg, seats))
      requires View() == Started(cfg, Seated(cfg, seats), deck)
      modifies `players, `log
      ensures View() == Anted(cfg, seats, deck)
    {
      if cfg.ante > 0 {
        PostAntes(b);
      }
      PostDeads(b);
    }

    // The cards go out and the first player gets the turn.
    method DealAndStart(b: nat, ghost seats: seq<Seat>, ghost shuffled: seq<Card>)
      requires Acceptable(cfg, seats, shuffled)
      requires b == ButtonIndex(cfg, Seated(cfg, seats))
      requires View() == Opened(cfg, seats, shuffled)
      modifies `players, `deal, `finalPots, `results, `phase, `runout, `round, `show, `log
      ensures Rules.NewHand(cfg, seats, shuffled) == Done(View())
    {
      OpenedReady(cfg, seats, shuffled);
      DealHoles(b);
      var first := FirstActor(b);
      Settle(first, true);
    }

    // A hand is begun for acceptable seats and settings, else refused. It is a valid one unless
    // a blind is stranded above the straddle.
    static method NewHand(cfg: Config, seats: seq<Seat>, shuffled: seq<Card>) returns (opening: Opening)
      ensures match Rules.NewHand(cfg, seats, shuffled)
              case Done(s) =>
                && opening.Begun? && fresh(opening.hand) && opening.hand.View() == s
                && (opening.hand.Valid() <==> SaneConfig(cfg, seats))
              case Rejected(e) => opening == Declined(e)
    {
      if |seats| < 2 {
        return Declined(IllegalAction);
      }
      if cfg.smallBlind < 1 || cfg.bigBlind < cfg.smallBlind || cfg.ante < 0 {
        return Declined(IllegalAction);
      }
      var fine := CheckSeats(seats);
      if !fine {
        return Declined(IllegalAction);
      }
      var ps := SeatPlayers(cfg, seats);
      if 2 * |seats| + 5 > DeckSize(cfg.variant) {
        return Declined(IllegalAction);
      }
      if |shuffled| != DeckSize(cfg.variant) {
        return Declined(IllegalAction);
      }
      ButtonOrNone(cfg, seats);
      var h := new Hand(cfg, ps, shuffled);
      var b := h.Index(cfg.button);
      if b < 0 {
        return Declined(IllegalAction);
      }
      h.PostAll(b, seats);
      h.DealAndStart(b, seats, shuffled);
      StartsSanelyIff(cfg, seats, shuffled);
      if SaneConfig(cfg, seats) {
        NewHandDealt(cfg, seats, shuffled);
      }
      opening := Begun(h);
    }

    // Every seat is a number from 0 with chips, listed once.
    static method CheckSeats(seats: seq<Seat>) returns (fine: bool)
      ensures fine <==> SeatsFine(seats, |seats|)
    {
      var taken: set<int> := {};
      for k := 0 to |seats|
        invariant SeatsFine(seats, k)
        invariant forall x :: x in taken <==> exists i :: 0 <= i < k && seats[i].seat == x
      {
        if seats[k].seat < 0 || seats[k].stack <= 0 || seats[k].seat in taken {
          return false;
        }
        taken := taken + {seats[k].seat};
      }
      fine := true;
    }

    // The players in ascending seat order.
    static method SeatPlayers(cfg: Config, seats: seq<Seat>) returns (ps: seq<Player>)
      ensures ps == Seated(cfg, seats)
    {
      var sorted := Sorting.SortBy(seats, SeatNumber);
      Sorting.SortElements(seats, SeatNumber);
      ps := [];
      for k := 0 to |sorted|
        invariant ps == Seated(cfg, seats)[..k]
      {
        var s := sorted[k];
        var dead := if s.seat in cfg.deadBlinds then cfg.deadBlinds[s.seat] else 0;
        ps := ps + [Player(s.seat, s.stack, s.stack, dead, 0, 0, false, false, 0, 0, false, 0, false, false, 0)];
      }
      assert ps == Seated(cfg, seats);
    }

    // One command, whichever it is.
    method Do(c: Rules.Command) returns (refusal: Refusal)
      requires Valid()
      modifies `players, `deal, `finalPots, `results, `phase, `runout, `round, `show, `log
      ensures Answers(old(View()), Rules.Step(old(View()), c), refusal)
      ensures View() == Rules.After(old(View()), c) && Valid()
    {
      match c {
        case DoApply(seat, a) => refusal := Apply(seat, a);
        case DoTimeout(seat) => refusal := Timeout(seat);
        case DoForfeit(seat) => refusal := Forfeit(seat);
        case DoAdvance => refusal := Advance();
        case DoRunItTwice => refusal := RunItTwice();
        case DoRevealNext => refusal := RevealNext();
      }
    }

    // A whole run of commands, refused ones included.
    method Play(cs: seq<Rules.Command>)
      requires Valid()
      modifies `players, `deal, `finalPots, `results, `phase, `runout, `round, `show, `log
      ensures View() == Rules.Run(old(View()), cs) && Valid()
    {
      for k := 0 to |cs|
        invariant View() == Rules.Run(old(View()), cs[..k]) && Valid()
      {
        assert cs[..k + 1][..k] == cs[..k];
        var refusal := Do(cs[k]);
      }
      assert cs[..|cs|] == cs;
    }
  }
}
