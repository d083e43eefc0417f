// The start of a hand: posting and dealing establish the invariant of the betting round, and
// with that every run keeps it.

module HandStart {
  import opened Cards
  import opened Pots
  import opened Payout
  import opened HandModel
  import opened HandRules
  import opened HandChips
  import opened HandInvariant
  import Sorting

  // What the ante and a dead blind leave of a player's stack.
  function Remaining(cfg: Config, p: Player): int {
    var left := if cfg.ante > 0 then p.stack - Min(cfg.ante, p.stack) else p.stack;
    if p.deadBlind <= 0 then left else left - Min(p.deadBlind, left)
  }

  // A straddle posted in full. NewHand does not check that it is at least the big blind.
  ghost predicate FullStraddle(cfg: Config, seats: seq<Seat>) {
    var ps := Seated(cfg, seats);
    var n := |ps|;
    var b := ButtonIndex(cfg, ps);
    && n >= 3 && b >= 0 && cfg.straddleAmount > 0
    && var utg := Next(Next(Next(b, n), n), n);
       ps[utg].seat == cfg.straddleSeat && Remaining(cfg, ps[utg]) >= cfg.straddleAmount
  }

  // A blind posted by somebody with chips left stands above a straddle posted in full.
  ghost predicate StrandedBlind(cfg: Config, seats: seq<Seat>) {
    var ps := Seated(cfg, seats);
    var n := |ps|;
    var b := ButtonIndex(cfg, ps);
    && FullStraddle(cfg, seats)
    && var sb := Next(b, n);
       var bb := Next(sb, n);
       || (cfg.smallBlind > cfg.straddleAmount && Remaining(cfg, ps[sb]) > cfg.smallBlind)
       || (cfg.bigBlind > cfg.straddleAmount && Remaining(cfg, ps[bb]) > cfg.bigBlind)
  }

  // What NewHand leaves to its callers.
  ghost predicate SaneConfig(cfg: Config, seats: seq<Seat>) { !StrandedBlind(cfg, seats) }

  // A straddle of at least the big blind strands nobody.
  lemma {:induction false} FullStraddleIsSane(cfg: Config, seats: seq<Seat>)
    requires cfg.straddleAmount <= 0 || cfg.straddleAmount >= cfg.bigBlind >= cfg.smallBlind
    ensures SaneConfig(cfg, seats)
  {
  }

  function SeatSum(seats: seq<Seat>): int {
    if seats == [] then 0 else seats[0].stack + SeatSum(seats[1..])
  }

  // ---- seating -----------------------------------------------------------------------------------

  lemma {:induction false} InsertSum(x: Seat, seats: seq<Seat>)
    ensures SeatSum(Sorting.Insert(x, seats, SeatNumber)) == x.stack + SeatSum(seats)
    decreases |seats|
  {
    var r := Sorting.Insert(x, seats, SeatNumber);
    if seats != [] && SeatNumber(x) > SeatNumber(seats[0]) {
      InsertSum(x, seats[1..]);
      assert r[1..] == Sorting.Insert(x, seats[1..], SeatNumber);
    } else {
      assert r[1..] == seats;
    }
  }

  lemma {:induction false} SortSum(seats: seq<Seat>)
    ensures SeatSum(Sorting.SortBy(seats, SeatNumber)) == SeatSum(seats)
    decreases |seats|
  {
    if seats != [] {
      SortSum(seats[1..]);
      InsertSum(seats[0], Sorting.SortBy(seats[1..], SeatNumber));
    }
  }

  lemma {:induction false} StartIsSeatSum(ps: seq<Player>, seats: seq<Seat>, n: nat)
    requires |ps| == |seats| && n <= |ps|
    requires forall i :: 0 <= i < |ps| ==> ps[i].startStack == seats[i].stack
    ensures StartChips(ps, |ps|) == StartChips(ps, n) + SeatSum(seats[n..])
    decreases |ps| - n
  {
    if n < |ps| {
      StartIsSeatSum(ps, seats, n + 1);
      assert seats[n..][1..] == seats[n + 1..];
    }
  }

  lemma {:induction false} TwoOfASeat(seats: seq<Seat>, x: Seat)
    requires forall i, j :: 0 <= i < j < |seats| ==> seats[i].seat != seats[j].seat
    ensures multiset(seats)[x] <= 1
    decreases |seats|
  {
    if seats != [] {
      var last := seats[|seats| - 1];
      var init := seats[..|seats| - 1];
      assert seats == init + [last];
      TwoOfASeat(init, x);
    }
  }

  lemma {:induction false} SortedDistinct(seats: seq<Seat>)
    requires forall i, j :: 0 <= i < j < |seats| ==> seats[i].seat != seats[j].seat
    ensures var r := Sorting.SortBy(seats, SeatNumber);
            forall i, j :: 0 <= i < j < |r| ==> r[i].seat < r[j].seat
  {
    var r := Sorting.SortBy(seats, SeatNumber);
    Sorting.SortOrders(seats, SeatNumber);
    Sorting.SortKeeps(seats, SeatNumber);
    Sorting.SortElements(seats, SeatNumber);
    forall i, j | 0 <= i < j < |r| ensures r[i].seat < r[j].seat {
      assert SeatNumber(r[i]) <= SeatNumber(r[j]);
      assert r[i] in r && r[j] in r;
      if r[i].seat == r[j].seat {
        assert r[i] == r[j];
        assert r == r[..i] + [r[i]] + r[i + 1..j] + [r[j]] + r[j + 1..];
        assert multiset(r)[r[i]] >= 2;
        TwoOfASeat(seats, r[i]);
      }
    }
  }

  lemma {:induction false} SeatedInOrder(cfg: Config, seats: seq<Seat>, shuffled: seq<Card>)
    requires Acceptable(cfg, seats, shuffled)
    ensures var ps := Seated(cfg, seats);
            Seating(ps) && AllHealthy(ps) && NoBets(ps) && NobodyFolded(ps) && Untouched(ps)
  {
    var ps := Seated(cfg, seats);
    var sorted := Sorting.SortBy(seats, SeatNumber);
    Sorting.SortElements(seats, SeatNumber);
    SortedDistinct(seats);
    forall i | 0 <= i < |ps| ensures ps[i].seat >= 0 && ps[i].stack > 0 {
      assert sorted[i] in sorted;
      assert sorted[i] in seats;
    }
  }

  lemma {:induction false} ButtonIsSeated(cfg: Config, seats: seq<Seat>, shuffled: seq<Card>)
    requires Acceptable(cfg, seats, shuffled) && Seating(Seated(cfg, seats))
    ensures ButtonIndex(cfg, Seated(cfg, seats)) >= 0
  {
    var sorted := Sorting.SortBy(seats, SeatNumber);
    Sorting.SortElements(seats, SeatNumber);
    var k :| 0 <= k < |seats| && seats[k].seat == cfg.button;
    assert seats[k] in sorted;
    var j :| 0 <= j < |sorted| && sorted[j] == seats[k];
    FindSeat(Seated(cfg, seats), j);
  }

  // The chips on the table are the stacks the players brought.
  lemma {:induction false} SeatedChips(cfg: Config, seats: seq<Seat>)
    ensures var ps := Seated(cfg, seats); StartChips(ps, |ps|) == TotalChips(ps, |ps|) == SeatSum(seats)
  {
    var ps := Seated(cfg, seats);
    var sorted := Sorting.SortBy(seats, SeatNumber);
    Sorting.SortElements(seats, SeatNumber);
    SortSum(seats);
    StartIsSeatSum(ps, sorted, 0);
    assert sorted[0..] == sorted;
    FreshTotal(ps, |ps|);
  }

  lemma {:induction false} FreshTotal(ps: seq<Player>, n: nat)
    requires n <= |ps|
    requires forall i :: 0 <= i < |ps| ==> Worth(ps[i]) == ps[i].startStack
    ensures TotalChips(ps, n) == StartChips(ps, n)
  {
    if n > 0 { FreshTotal(ps, n - 1); }
  }

  // ---- posting -------------------------------------------------------------------------------------

  ghost predicate NobodyFolded(ps: seq<Player>) {
    forall i :: 0 <= i < |ps| ==> !ps[i].folded
  }

  // Nobody has acted, shown, mucked or won anything.
  ghost predicate Untouched(ps: seq<Player>) {
    forall i :: 0 <= i < |ps| ==> !ps[i].hasActed && !ps[i].revealed && !ps[i].mucked && ps[i].won == 0
  }

  // Before anybody has acted.
  ghost predicate Posting(s: State) {
    && Sound(s) && s.phase == Betting && !s.runout && !s.deal.runTwice
    && AllHealthy(s.players) && NobodyFolded(s.players) && Untouched(s.players)
    && s.cfg.smallBlind >= 1 && s.cfg.bigBlind >= s.cfg.smallBlind
  }

  // The seats of the blinds, as positions.
  ghost predicate BlindsAt(s: State, sb: nat) {
    && sb < |s.players| && s.sbSeat == s.players[sb].seat && s.bbSeat == s.players[Next(sb, |s.players|)].seat
  }

  // The same hand with one player's chips moved.
  ghost predicate Shifted(s: State, r: State) {
    && SameSeats(s.players, r.players)
    && r.cfg == s.cfg && r.deal == s.deal && r.round == s.round && r.phase == s.phase && r.runout == s.runout
    && r.sbSeat == s.sbSeat && r.bbSeat == s.bbSeat && r.straddleSeat == s.straddleSeat
  }

  lemma {:induction false} PostingUpdate(s: State, i: nat, q: Player, r: State)
    requires Posting(s) && i < |s.players| && Kin(s.players[i], q) && Worth(q) == Worth(s.players[i]) && Healthy(q)
      && !q.folded
    requires !q.hasActed && !q.revealed && !q.mucked && q.won == 0
    requires r.players == s.players[i := q] && r.cfg == s.cfg && r.deal == s.deal && r.phase == s.phase
      && r.runout == s.runout
    requires r.round.aggressor == s.round.aggressor
    ensures Posting(r) && SameSeats(s.players, r.players)
  {
    SoundUpdate(s, i, q, r);
    assert SameSeats(s.players, r.players);
    forall j | 0 <= j < |r.players| ensures Healthy(r.players[j]) { assert Healthy(s.players[j]); }
  }

  lemma {:induction false} PostAnteKeeps(s: State, i: nat)
    requires Posting(s) && NoBets(s.players) && i < |s.players| && s.cfg.ante >= 0
    ensures var r := PostAnte(s, i); Posting(r) && NoBets(r.players) && Shifted(s, r)
  {
    assert Healthy(s.players[i]);
    PostingUpdate(s, i, Post(s.players[i], s.cfg.ante), PostAnte(s, i));
  }

  lemma {:induction false} PostDeadKeeps(s: State, i: nat)
    requires Posting(s) && NoBets(s.players) && i < |s.players|
    ensures var r := PostDead(s, i); Posting(r) && NoBets(r.players) && Shifted(s, r)
  {
    assert Healthy(s.players[i]);
    var p := s.players[i];
    if p.deadBlind <= 0 || p.stack == 0 {
      assert forall j :: 0 <= j < |s.players| ==> Kin(s.players[j], s.players[j]);
    } else {
      PostingUpdate(s, i, Post(p, p.deadBlind), PostDead(s, i));
    }
  }

  lemma {:induction false} ShiftedTwice(a: State, b: State, c: State)
    requires Shifted(a, b) && Shifted(b, c)
    ensures Shifted(a, c)
  {
    forall i | 0 <= i < |a.players| ensures Kin(a.players[i], c.players[i]) {
      assert Kin(a.players[i], b.players[i]) && Kin(b.players[i], c.players[i]);
    }
  }

  lemma {:induction false} PostAntesKeep(s: State, b: nat, m: nat)
    requires Posting(s) && NoBets(s.players) && b < |s.players| && m <= |s.players| && s.cfg.ante >= 0
    ensures var r := PostAntes(s, b, m); Posting(r) && NoBets(r.players) && Shifted(s, r)
    decreases |s.players| - m
  {
    if m < |s.players| {
      var s1 := PostAnte(s, Around(b, m, |s.players|));
      PostAnteKeeps(s, Around(b, m, |s.players|));
      PostAntesKeep(s1, b, m + 1);
      ShiftedTwice(s, s1, PostAntes(s1, b, m + 1));
    } else {
      assert forall j :: 0 <= j < |s.players| ==> Kin(s.players[j], s.players[j]);
    }
  }

  lemma {:induction false} PostDeadsKeep(s: State, b: nat, m: nat)
    requires Posting(s) && NoBets(s.players) && b < |s.players| && m <= |s.players|
    ensures var r := PostDeads(s, b, m); Posting(r) && NoBets(r.players) && Shifted(s, r)
    decreases |s.players| - m
  {
    if m < |s.players| {
      var s1 := PostDead(s, Around(b, m, |s.players|));
      PostDeadKeeps(s, Around(b, m, |s.players|));
      PostDeadsKeep(s1, b, m + 1);
      ShiftedTwice(s, s1, PostDeads(s1, b, m + 1));
    } else {
      assert forall j :: 0 <= j < |s.players| ==> Kin(s.players[j], s.players[j]);
    }
  }

  // ---- who posts what ------------------------------------------------------------------------------

  function DeadPosted(p: Player): Player {
    if p.deadBlind <= 0 || p.stack == 0 then p else Post(p, p.deadBlind)
  }

  // The antes reach every player once.
  lemma {:induction false} AntesReach(s: State, b: nat, m: nat, i: nat)
    requires b < |s.players| && m <= |s.players| && i < |s.players|
    ensures PostAntes(s, b, m).players[i] ==
            if DealPlace(b, i, |s.players|) >= m then Post(s.players[i], s.cfg.ante) else s.players[i]
    ensures PostAntes(s, b, m).cfg == s.cfg
    decreases |s.players| - m
  {
    if m < |s.players| {
      var k := Around(b, m, |s.players|);
      assert DealPlace(b, k, |s.players|) == m && (i != k ==> DealPlace(b, i, |s.players|) != m);
      AntesReach(PostAnte(s, k), b, m + 1, i);
    }
  }

  lemma {:induction false} DeadsReach(s: State, b: nat, m: nat, i: nat)
    requires b < |s.players| && m <= |s.players| && i < |s.players|
    ensures PostDeads(s, b, m).players[i] ==
            if DealPlace(b, i, |s.players|) >= m then DeadPosted(s.players[i]) else s.players[i]
    decreases |s.players| - m
  {
    if m < |s.players| {
      var k := Around(b, m, |s.players|);
      assert DealPlace(b, k, |s.players|) == m && (i != k ==> DealPlace(b, i, |s.players|) != m);
      DeadsReach(PostDead(s, k), b, m + 1, i);
    }
  }

  // Before the blinds: everybody has paid the ante and what they owe.
  function DuesPaid(cfg: Config, p: Player): Player { DeadPosted(if cfg.ante > 0 then Post(p, cfg.ante) else p) }

  lemma {:induction false} AntedExactly(cfg: Config, seats: seq<Seat>, shuffled: seq<Card>, i: nat)
    requires Acceptable(cfg, seats, shuffled) && ButtonIndex(cfg, Seated(cfg, seats)) >= 0 && i < |seats|
    ensures var ps := Seated(cfg, seats); var r := Anted(cfg, seats, shuffled);
            r.players[i] == DuesPaid(cfg, ps[i]) && r.players[i].stack == Remaining(cfg, ps[i])
  {
    var ps := Seated(cfg, seats);
    var b := ButtonIndex(cfg, ps);
    var s := Started(cfg, ps, shuffled);
    SeatedInOrder(cfg, seats, shuffled);
    AntesReach(s, b, 0, i);
    DeadsReach(if cfg.ante > 0 then PostAntes(s, b, 0) else s, b, 0, i);
  }

  // The blinds set the price; nobody but they has bet.
  lemma {:induction false} PostBlindsKeep(s: State, sb: nat)
    requires Posting(s) && NoBets(s.players) && BlindsAt(s, sb)
    ensures var r := PostBlinds(s); var bb := Next(sb, |s.players|);
            && Posting(r) && PriceLevels(r) && SameSeats(s.players, r.players)
            && r.cfg == s.cfg && r.deal == s.deal
            && r.sbSeat == s.sbSeat && r.bbSeat == s.bbSeat && r.straddleSeat == s.straddleSeat
            && r.round.currentBet == s.cfg.bigBlind
            && r.players[sb] == Stake(s.players[sb], s.cfg.smallBlind)
            && r.players[bb] == Stake(s.players[bb], s.cfg.bigBlind)
            && (forall i :: 0 <= i < |s.players| && i != sb && i != bb ==> r.players[i] == s.players[i])
  {
    var n := |s.players|;
    var bb := Next(sb, n);
    FindSeat(s.players, sb);
    assert Healthy(s.players[sb]);
    var s1 := PostBlind(s, sb, s.cfg.smallBlind, SmallBlind);
    PostingUpdate(s, sb, Stake(s.players[sb], s.cfg.smallBlind), s1);
    SameSeatsFind(s.players, s1.players, s.bbSeat, n);
    FindSeat(s.players, bb);
    assert Healthy(s1.players[bb]);
    PostingUpdate(s1, bb, Stake(s1.players[bb], s.cfg.bigBlind), PostBlinds(s));
    forall i | 0 <= i < n ensures Kin(s.players[i], PostBlinds(s).players[i]) {
      assert Kin(s.players[i], s1.players[i]) && Kin(s1.players[i], PostBlinds(s).players[i]);
    }
  }

  // The straddle will be posted in full.
  ghost predicate StraddleFits(s: State, sb: nat)
    requires sb < |s.players|
  {
    var n := |s.players|;
    var utg := Next(Next(sb, n), n);
    && n >= 3 && s.cfg.straddleAmount > 0
    && s.players[utg].seat == s.cfg.straddleSeat && s.players[utg].stack >= s.cfg.straddleAmount
  }

  // It will be below the bet of a blind who can still act.
  ghost predicate PriceDrops(s: State, sb: nat)
    requires sb < |s.players|
  {
    var bb := Next(sb, |s.players|);
    && StraddleFits(s, sb)
    && (|| (Active(s.players[sb]) && s.players[sb].bet > s.cfg.straddleAmount)
        || (Active(s.players[bb]) && s.players[bb].bet > s.cfg.straddleAmount))
  }

  // Somebody who can still act has bet more than the price.
  ghost predicate BlindStranded(s: State) { !ActiveWithin(s.players, s.round.currentBet) }

  lemma {:induction false} PostStraddleKeeps(s: State, sb: nat)
    requires Posting(s) && BlindsAt(s, sb)
    ensures var r := PostStraddle(s);
            && Posting(r) && SameSeats(s.players, r.players)
            && r.cfg == s.cfg && r.deal == s.deal && r.sbSeat == s.sbSeat && r.bbSeat == s.bbSeat
  {
    var n := |s.players|;
    FindSeat(s.players, Next(sb, n));
    var i := Next(Next(sb, n), n);
    var r := PostStraddle(s);
    if r.players != s.players {
      assert Healthy(s.players[i]);
      PostingUpdate(s, i, Stake(s.players[i], s.cfg.straddleAmount), r);
    } else {
      assert forall j :: 0 <= j < n ==> Kin(s.players[j], s.players[j]);
      SoundCarries(s, r);
    }
  }

  // Posting the straddle keeps the price above whoever can act, unless it drops it below one.
  lemma {:induction false} StraddlePrice(s: State, sb: nat)
    requires Posting(s) && PriceLevels(s) && BlindsAt(s, sb) && s.round.currentBet == s.cfg.bigBlind
    requires forall i :: 0 <= i < |s.players| && i != sb && i != Next(sb, |s.players|) ==> s.players[i].bet == 0
    ensures PriceLevels(PostStraddle(s)) <==> !PriceDrops(s, sb)
    ensures PriceDrops(s, sb) ==> BlindStranded(PostStraddle(s))
  {
    var n := |s.players|;
    var bb := Next(sb, n);
    FindSeat(s.players, bb);
    var r := PostStraddle(s);
    assert Healthy(s.players[Next(bb, n)]);
    if PriceDrops(s, sb) {
      assert r.round.currentBet == s.cfg.straddleAmount;
      assert r.players[sb] == s.players[sb] && r.players[bb] == s.players[bb];
    } else {
      assert forall j :: 0 <= j < n && j != sb && j != bb && j != Next(bb, n) ==> r.players[j] == s.players[j];
    }
  }

  // The straddler, if there is one, is a player.
  lemma {:induction false} StraddlerSits(s: State)
    requires s.straddleSeat < 0
    ensures var r := PostStraddle(s); r.straddleSeat >= 0 ==> Find(r.players, r.straddleSeat) >= 0
  {
    var r := PostStraddle(s);
    if r.straddleSeat >= 0 {
      IndexOfBound(r.players, r.straddleSeat, |r.players|);
      assert r.players[Next(Find(s.players, s.bbSeat), |s.players|)].seat == r.straddleSeat;
    }
  }

  // ---- the whole start --------------------------------------------------------------------------------

  // The position of the small blind.
  function SmallBlindAt(cfg: Config, ps: seq<Player>): (i: nat)
    requires |ps| >= 2 && ButtonIndex(cfg, ps) >= 0
    ensures i < |ps|
  {
    if |ps| == 2 then ButtonIndex(cfg, ps) else Next(ButtonIndex(cfg, ps), |ps|)
  }

  lemma {:induction false} StartedIsPosting(cfg: Config, seats: seq<Seat>, shuffled: seq<Card>)
    requires Acceptable(cfg, seats, shuffled) && ButtonIndex(cfg, Seated(cfg, seats)) >= 0
    ensures var s := Started(cfg, Seated(cfg, seats), shuffled);
            Posting(s) && NoBets(s.players) && BlindsAt(s, SmallBlindAt(cfg, s.players))
  {
    SeatedInOrder(cfg, seats, shuffled);
    SeatedChips(cfg, seats);
  }

  lemma {:induction false} BlindsStay(s: State, r: State, sb: nat)
    requires BlindsAt(s, sb) && SameSeats(s.players, r.players) && r.sbSeat == s.sbSeat && r.bbSeat == s.bbSeat
    ensures BlindsAt(r, sb)
  {
    SameSeatsMatch(s.players, r.players);
  }

  lemma {:induction false} AntedWell(cfg: Config, seats: seq<Seat>, shuffled: seq<Card>)
    requires Acceptable(cfg, seats, shuffled) && ButtonIndex(cfg, Seated(cfg, seats)) >= 0
    ensures var r := Anted(cfg, seats, shuffled); var s := Started(cfg, Seated(cfg, seats), shuffled);
            Posting(r) && NoBets(r.players) && Shifted(s, r) && BlindsAt(r, SmallBlindAt(cfg, s.players))
  {
    var ps := Seated(cfg, seats);
    var b := ButtonIndex(cfg, ps);
    var s0 := Started(cfg, ps, shuffled);
    StartedIsPosting(cfg, seats, shuffled);
    var s1 := if cfg.ante > 0 then PostAntes(s0, b, 0) else s0;
    if cfg.ante > 0 { PostAntesKeep(s0, b, 0); } else { assert forall j :: 0 <= j < |ps| ==> Kin(ps[j], ps[j]); }
    PostDeadsKeep(s1, b, 0);
    ShiftedTwice(s0, s1, PostDeads(s1, b, 0));
    BlindsStay(s0, PostDeads(s1, b, 0), SmallBlindAt(cfg, ps));
  }

  // What the blinds leave the straddle to be judged by.
  lemma {:induction false} StraddleIsFull(cfg: Config, seats: seq<Seat>, shuffled: seq<Card>)
    requires Acceptable(cfg, seats, shuffled) && ButtonIndex(cfg, Seated(cfg, seats)) >= 0
    ensures var s := PostBlinds(Anted(cfg, seats, shuffled)); var sb := SmallBlindAt(cfg, Seated(cfg, seats));
            |s.players| == |seats| && (StraddleFits(s, sb) <==> FullStraddle(cfg, seats))
  {
    var ps := Seated(cfg, seats);
    var n := |ps|;
    var sb := SmallBlindAt(cfg, ps);
    AntedWell(cfg, seats, shuffled);
    PostBlindsKeep(Anted(cfg, seats, shuffled), sb);
    AntedExactly(cfg, seats, shuffled, Next(Next(sb, n), n));
  }

  lemma {:induction false} DropIsShort(cfg: Config, seats: seq<Seat>, shuffled: seq<Card>)
    requires Acceptable(cfg, seats, shuffled) && ButtonIndex(cfg, Seated(cfg, seats)) >= 0
    ensures var s := PostBlinds(Anted(cfg, seats, shuffled)); var sb := SmallBlindAt(cfg, Seated(cfg, seats));
            |s.players| == |seats| && (PriceDrops(s, sb) <==> StrandedBlind(cfg, seats))
  {
    var ps := Seated(cfg, seats);
    var sb := SmallBlindAt(cfg, ps);
    StraddleIsFull(cfg, seats, shuffled);
    AntedWell(cfg, seats, shuffled);
    PostBlindsKeep(Anted(cfg, seats, shuffled), sb);
    AntedExactly(cfg, seats, shuffled, sb);
    AntedExactly(cfg, seats, shuffled, Next(sb, |ps|));
  }

  lemma {:induction false} OpenedPrice(cfg: Config, seats: seq<Seat>, shuffled: seq<Card>)
    requires Acceptable(cfg, seats, shuffled) && ButtonIndex(cfg, Seated(cfg, seats)) >= 0
    ensures var r := Opened(cfg, seats, shuffled); var s := Started(cfg, Seated(cfg, seats), shuffled);
            && Posting(r) && SameSeats(s.players, r.players) && r.cfg == cfg
            && r.deal == s.deal && BlindsAt(r, SmallBlindAt(cfg, s.players))
            && (PriceLevels(r) <==> SaneConfig(cfg, seats))
            && (StrandedBlind(cfg, seats) ==> BlindStranded(r))
  {
    var s := Started(cfg, Seated(cfg, seats), shuffled);
    var sb := SmallBlindAt(cfg, s.players);
    var s2 := Anted(cfg, seats, shuffled);
    AntedWell(cfg, seats, shuffled);
    var s3 := PostBlinds(s2);
    PostBlindsKeep(s2, sb);
    BlindsStay(s2, s3, sb);
    var s4 := PostStraddle(s3);
    PostStraddleKeeps(s3, sb);
    StraddlePrice(s3, sb);
    BlindsStay(s3, s4, sb);
    DropIsShort(cfg, seats, shuffled);
    forall i | 0 <= i < |s.players| ensures Kin(s.players[i], s4.players[i]) {
      assert Kin(s.players[i], s2.players[i]) && Kin(s2.players[i], s3.players[i]) && Kin(s3.players[i], s4.players[i]);
    }
  }

  lemma {:induction false} OpenedWell(cfg: Config, seats: seq<Seat>, shuffled: seq<Card>)
    requires Acceptable(cfg, seats, shuffled) && SaneConfig(cfg, seats) && ButtonIndex(cfg, Seated(cfg, seats)) >= 0
    ensures var r := Opened(cfg, seats, shuffled); var s := Started(cfg, Seated(cfg, seats), shuffled);
            && Posting(r) && PriceLevels(r) && SameSeats(s.players, r.players) && r.cfg == cfg
            && r.deal == s.deal && BlindsAt(r, SmallBlindAt(cfg, s.players))
  {
    OpenedPrice(cfg, seats, shuffled);
  }

  lemma {:induction false} AllLive(ps: seq<Player>, n: nat)
    requires n <= |ps| && NobodyFolded(ps)
    ensures LiveCount(ps, n) == n
  {
    if n > 0 { AllLive(ps, n - 1); }
  }

  lemma {:induction false} DealHolesKeeps(s: State, b: nat)
    requires Posting(s) && PriceLevels(s) && b < |s.players| && 2 * |s.players| <= |s.deal.deck|
    ensures Playing(DealHoles(s, b)) && SeatsMatch(s.players, DealHoles(s, b).players)
      && Untouched(DealHoles(s, b).players)
  {
    var r := DealHoles(s, b);
    TotalPointwise(s.players, r.players, |s.players|);
    SoundFrom(s, r);
    AllLive(r.players, |r.players|);
    forall j | 0 <= j < |r.players| ensures Healthy(r.players[j]) { assert Healthy(s.players[j]); }
  }

  // A hand is refused only for what NewHand checks.
  lemma {:induction false} NewHandAccepts(cfg: Config, seats: seq<Seat>, shuffled: seq<Card>)
    ensures NewHand(cfg, seats, shuffled).Done? <==> Acceptable(cfg, seats, shuffled)
    ensures Acceptable(cfg, seats, shuffled) ==>
              var b := ButtonIndex(cfg, Seated(cfg, seats));
              && b >= 0
              && var s1 := DealHoles(Opened(cfg, seats, shuffled), b);
                 NewHand(cfg, seats, shuffled).state == Settle(s1, FirstToAct(s1, b), true)
  {
    if Acceptable(cfg, seats, shuffled) {
      SeatedInOrder(cfg, seats, shuffled);
      ButtonIsSeated(cfg, seats, shuffled);
      OpenedPrice(cfg, seats, shuffled);
    }
  }

  // It starts with the invariant in place, unless a short straddle has dropped the price below
  // a bet.
  lemma {:induction false} NewHandStarts(cfg: Config, seats: seq<Seat>, shuffled: seq<Card>)
    ensures NewHand(cfg, seats, shuffled).Done? <==> Acceptable(cfg, seats, shuffled)
    ensures NewHand(cfg, seats, shuffled).Done? && SaneConfig(cfg, seats) ==> Inv(NewHand(cfg, seats, shuffled).state)
  {
    NewHandAccepts(cfg, seats, shuffled);
    if Acceptable(cfg, seats, shuffled) && SaneConfig(cfg, seats) {
      var b := ButtonIndex(cfg, Seated(cfg, seats));
      OpenedWell(cfg, seats, shuffled);
      var s := Opened(cfg, seats, shuffled);
      DealHolesKeeps(s, b);
      var s1 := DealHoles(s, b);
      SettleKeeps(s1, FirstToAct(s1, b), true);
    }
  }

  // A stranded blind leaves the first round open, with somebody to act.
  lemma {:induction false} StrandedGoesOn(s: State, b: nat)
    requires Posting(s) && BlindStranded(s) && b < |s.players| && 2 * |s.players| <= |s.deal.deck|
    ensures var r := DealHoles(s, b);
            && GoesOn(r) && Seating(r.players) && AllHealthy(r.players) && r.phase == Betting && BlindStranded(r)
  {
    var r := DealHoles(s, b);
    AllLive(r.players, |r.players|);
    var i :| 0 <= i < |s.players| && Active(s.players[i]) && s.players[i].bet > s.round.currentBet;
    assert Active(r.players[i]) && r.players[i].bet == s.players[i].bet;
    assert NeedsToAct(r.players[i], r.round.currentBet);
    forall j | 0 <= j < |r.players| ensures Healthy(r.players[j]) { assert Healthy(s.players[j]); }
  }

  lemma {:induction false} StrandedOpens(s: State, b: nat)
    requires Posting(s) && BlindStranded(s) && b < |s.players| && 2 * |s.players| <= |s.deal.deck|
    ensures var s1 := DealHoles(s, b); var r := Settle(s1, FirstToAct(s1, b), true);
            && r == s1.(round := s1.round.(toAct := r.round.toAct))
            && Seating(r.players) && AllHealthy(r.players) && r.phase == Betting && BlindStranded(r)
            && LiveCount(r.players, |r.players|) >= 2
            && 0 <= r.round.toAct < |r.players| && NeedsToAct(r.players[r.round.toAct], r.round.currentBet)
  {
    StrandedGoesOn(s, b);
    var s1 := DealHoles(s, b);
    var i :| 0 <= i < |s1.players| && NeedsToAct(s1.players[i], s1.round.currentBet);
    NeedyIsFound(s1.players, s1.round.currentBet, FirstToAct(s1, b), i);
  }

  // A hand starts with the invariant in place exactly when no blind is stranded.
  lemma {:induction false} StartsSanelyIff(cfg: Config, seats: seq<Seat>, shuffled: seq<Card>)
    requires NewHand(cfg, seats, shuffled).Done?
    ensures Inv(NewHand(cfg, seats, shuffled).state) <==> !StrandedBlind(cfg, seats)
  {
    NewHandStarts(cfg, seats, shuffled);
    NewHandAccepts(cfg, seats, shuffled);
    if StrandedBlind(cfg, seats) {
      OpenedPrice(cfg, seats, shuffled);
      StrandedOpens(Opened(cfg, seats, shuffled), ButtonIndex(cfg, Seated(cfg, seats)));
    }
  }

  lemma {:induction false} NewHandChips(cfg: Config, seats: seq<Seat>, shuffled: seq<Card>)
    requires SaneConfig(cfg, seats) && NewHand(cfg, seats, shuffled).Done?
    ensures var s := NewHand(cfg, seats, shuffled).state; StartChips(s.players, |s.players|) == SeatSum(seats)
  {
    SeatedInOrder(cfg, seats, shuffled);
    SeatedChips(cfg, seats);
    var ps := Seated(cfg, seats);
    var b := ButtonIndex(cfg, ps);
    OpenedWell(cfg, seats, shuffled);
    var s := Opened(cfg, seats, shuffled);
    SameSeatsMatch(ps, s.players);
    StartPointwise(ps, s.players, |ps|);
    DealHolesKeeps(s, b);
    var s1 := DealHoles(s, b);
    StartPointwise(s.players, s1.players, |ps|);
    SettleKeeps(s1, FirstToAct(s1, b), true);
    var r := NewHand(cfg, seats, shuffled).state;
    SameSeatsMatch(s1.players, r.players);
    StartPointwise(s1.players, r.players, |ps|);
  }
}
