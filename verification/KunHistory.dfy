/**
 What follows over whole runs of a scope: the escrow, the boss ledger and the mini-game slots.
 */
module KunHistory {
  import opened Common
  import opened KunState
  import opened KunRules
  import opened KunFrames
  import opened KunInvariant

  /* ---- Runs ---- */

  /** h lists the states a scope goes through when the requests rs are accepted one after the other. */
  ghost predicate Run(h: seq<State>, rs: seq<Request>, scope: ScopeType) {
    && |h| == |rs| + 1
    && forall k :: 0 <= k < |rs| ==> Perform(h[k], scope, rs[k]) == Done(h[k + 1])
  }

  lemma Lengths(h: seq<State>, rs: seq<Request>, scope: ScopeType)
    requires Run(h, rs, scope)
    ensures |h| == |rs| + 1
  {}

  lemma RunStep(h: seq<State>, rs: seq<Request>, scope: ScopeType, k: nat)
    requires Run(h, rs, scope) && 0 < k < |h|
    ensures |h| == |rs| + 1 && Perform(h[k - 1], scope, rs[k - 1]) == Done(h[k])
  {}

  lemma InvariantIsSane(s: State)
    requires Invariant(s)
    ensures Sane(s)
  {}

  lemma {:induction false} RunKeeps(h: seq<State>, rs: seq<Request>, scope: ScopeType, k: nat)
    requires Run(h, rs, scope) && Invariant(h[0]) && k < |h|
    ensures Invariant(h[k])
  {
    if k > 0 {
      RunKeeps(h, rs, scope, k - 1);
      PerformKeeps(h[k - 1], scope, rs[k - 1]);
      assert Perform(h[k - 1], scope, rs[k - 1]) == Done(h[k]);
    }
  }

  /* ---- The escrow ---- */

  ghost predicate AuctionStep(a: Option<Auction>, b: Option<Auction>) {
    || b == a
    || b.None?
    || (a.None? && b.value.currentBid == b.value.startPrice && b.value.bidder.None?)
    || (a.Some? && Outbid(a.value, b.value))
  }

  // Only the bid and the bidder change, and the bid strictly rises.
  predicate Outbid(a: Auction, b: Auction) {
    && b == a.(currentBid := b.currentBid, bidder := b.bidder)
    && a.currentBid < b.currentBid
    && b.bidder.Some? && b.bidder.value != a.seller
  }

  lemma AuctionStepHolds(s: State, scope: ScopeType, r: Request)
    requires Perform(s, scope, r).Done?
    ensures AuctionStep(s.auction, Perform(s, scope, r).state.auction)
  {
    hide PlayerRule, AdminRule;
    var today := NewDay(s, r.date);
    match r.action {
      case Play(c) => PlayAuctionStep(Enter(today, r.user, r.date, r.cfg), r, c);
      case Manage(a) => AdminFrame(today, r, a);
    }
  }

  lemma PlayAuctionStep(s: State, r: Request, c: PlayCommand)
    requires r.user in s.players && PlayerRule(s, r, c).Done?
    ensures AuctionStep(s.auction, PlayerRule(s, r, c).state.auction)
  {
    if c.Sell? || c.Bid? || c.Deal? {
    } else {
      hide PlayerRule;
      PlayFrame(s, r, c);
    }
  }

  /** What custody of an auctioned kun means. */
  predicate EscrowSafe(s: State) {
    s.auction.Some? ==>
      var a := s.auction.value;
      && a.seller in s.players && s.players[a.seller].kun.None?
      && a.kun.alive && 0.0 < a.kun.weight && a.kun.attribute != Plain
      && 1 <= a.startPrice <= a.currentBid
      && (a.bidder.Some? ==> a.bidder.value in s.players && a.bidder.value != a.seller)
  }

  /** Over any run, custody is safe at every moment, and while one auction stays open its bids only rise. */
  lemma {:induction false} EscrowOverRun(h: seq<State>, rs: seq<Request>, scope: ScopeType, i: nat, j: nat)
    requires Run(h, rs, scope) && Invariant(h[0]) && i <= j < |h|
    requires forall k :: i <= k <= j ==> h[k].auction.Some?
    ensures EscrowSafe(h[i]) && EscrowSafe(h[j])
    ensures h[j].auction == h[i].auction || Outbid(h[i].auction.value, h[j].auction.value)
    decreases j - i
  {
    hide *;
    Lengths(h, rs, scope);
    RunKeeps(h, rs, scope, i);
    RunKeeps(h, rs, scope, j);
    CustodyIsSafe(h[i]);
    CustodyIsSafe(h[j]);
    if i < j {
      EscrowOverRun(h, rs, scope, i, j - 1);
      RunStep(h, rs, scope, j);
      AuctionStepHolds(h[j - 1], scope, rs[j - 1]);
      OutbidAgain(h[i].auction.value, h[j - 1].auction.value, h[j].auction.value);
    }
  }

  lemma OutbidAgain(a: Auction, b: Auction, c: Auction)
    requires (b == a || Outbid(a, b)) && AuctionStep(Some(b), Some(c))
    ensures c == a || Outbid(a, c)
  {}

  lemma CustodyIsSafe(s: State)
    requires Invariant(s)
    ensures EscrowSafe(s)
  {}

  /* ---- The branches the engine guards against ---- */

  /** A deal is refused exactly for the reasons a user can see; the custody conflict is never one of them. */
  lemma DealRefusedWhen(s: State, u: UserId)
    requires Sane(s) && u in s.players
    ensures DealRule(s, u).Rejected? <==>
      || !IsSeller(s, u)
      || s.auction.value.bidder.None?
      || s.players[s.auction.value.bidder.value].kun.Some?
      || s.players[s.auction.value.bidder.value].jieCao < s.auction.value.currentBid
  {}

  /** Returning an escrowed kun, by delisting or by a round reset, never conflicts. */
  lemma RestoreNeverConflicts(s: State, now: int)
    requires Sane(s)
    ensures RestoreRule(s).Done? && ResetRoundRule(s).Done?
    ensures ForceDelistRule(s, now).Done? <==> s.auction.Some? && now - s.auction.value.startTime >= 300
  {
    RestoreKeeps(s);
  }

  /** An answer is never refused because the slots are full. */
  lemma AnswerRefusedWhen(s: State, u: UserId, text: string, t: Tape)
    requires Invariant(s) && u in s.players
    ensures AnswerRule(s, u, text, t).Rejected? <==>
      s.miniGame.None? || s.miniGame.value.kind == Brawl || u in s.miniGame.value.participants
  {}

  /** A strike is refused only up front, and never costs the attacker its kun: it keeps at least seven tenths. */
  lemma StrikeNeverKillsAttacker(s: State, u: UserId, kind: StrikeKind, t: Tape)
    requires Sane(s) && u in s.players
    ensures StrikeBossRule(s, u, kind, t).Rejected? <==> !MayStrike(s, u, kind)
    ensures MayStrike(s, u, kind) ==>
      var after := StrikeBossRule(s, u, kind, t).state;
      && Living(after.players[u]) && after.deathList == s.deathList
      && after.players[u].kun.value.weight >= s.players[u].kun.value.weight * 0.7
  {
    hide Sane, Ranked, Land, Recoil;
    if MayStrike(s, u, kind) {
      OnePlayer(s, u);
      var damage := StrikeDamage(kind, s.players[u].kun.value, t);
      StrikeDamageNonNegative(kind, s.players[u].kun.value, t);
      StruckBossKeeps(s, u, damage);
      LandLeavesAlive(s, u, kind, damage);
    }
  }

  lemma LandLeavesAlive(s: State, u: UserId, kind: StrikeKind, damage: real)
    requires u in s.players && MayStrike(s, u, kind) && 0.0 < s.players[u].kun.value.weight
    requires RankFits(Ranked(s.boss.value.damageRank, u, damage), s.players)
    ensures
      var o := Land(s, u, kind, damage);
      && o.Done? && u in o.state.players
      && Living(o.state.players[u]) && o.state.deathList == s.deathList
      && o.state.players[u].kun.value.weight >= s.players[u].kun.value.weight * 0.7
  {
    hide TopFive, Ranked, Kill, Touches, RankFits, Slay;
    var b, p := s.boss.value, s.players[u];
    var left, rank := b.weight - damage, Ranked(b.damageRank, u, damage);
    RecoilLeavesAlive(left, p.kun.value.weight);
    if left <= 0.0 {
      SlayLeavesAlive(s, u, Weigh(StrikeCost(kind, p), p.kun.value.weight - Recoil(left, p.kun.value.weight)), rank);
    }
  }

  lemma SlayLeavesAlive(s: State, u: UserId, struck: Player, rank: seq<Damage>)
    requires u in s.players && s.boss.Some? && RankFits(rank, s.players)
    ensures
      var o := Slay(s, u, struck, rank);
      o.Done? && u in o.state.players && o.state.players[u].kun == struck.kun && o.state.deathList == s.deathList
  {
    hide TopFive;
    TopFiveRanked(rank);
    var prize := struck.(eggs := struck.eggs + 20, jieCao := struck.jieCao + 100);
    PayEachKun(Put(s, u, prize).players, TopFive(rank), u);
  }

  lemma {:induction false} PayEachKun(players: map<UserId, Player>, ids: seq<UserId>, u: UserId)
    requires u in players && forall id :: id in ids ==> id in players
    ensures PayEach(players, ids)[u].kun == players[u].kun
    decreases |ids|
  {
    if ids != [] {
      PayEachKun(players, ids[..|ids| - 1], u);
    }
  }

  lemma Prepended(d: Damage, rest: seq<Damage>, all: seq<Damage>)
    requires all == [d] + rest
    ensures multiset(all) == multiset{d} + multiset(rest)
  {}

  lemma {:induction false} InsertIsPermutation(d: Damage, sorted: seq<Damage>)
    ensures multiset(InsertDamage(d, sorted)) == multiset{d} + multiset(sorted)
  {
    if sorted == [] || sorted[0].amount < d.amount {
      Prepended(d, sorted, InsertDamage(d, sorted));
    } else {
      var first, rest := sorted[0], sorted[1..];
      assert InsertDamage(d, sorted) == [first] + InsertDamage(d, rest);
      hide InsertDamage;
      InsertIsPermutation(d, rest);
      Prepended(first, rest, sorted);
      Prepended(first, InsertDamage(d, rest), InsertDamage(d, sorted));
    }
  }

  lemma Appended(d: Damage, front: seq<Damage>, all: seq<Damage>)
    requires all == front + [d]
    ensures multiset(all) == multiset{d} + multiset(front)
  {}

  lemma {:induction false} SortIsPermutation(rank: seq<Damage>)
    ensures multiset(SortDamage(rank)) == multiset(rank)
  {
    if rank != [] {
      var front, last := rank[..|rank| - 1], rank[|rank| - 1];
      assert SortDamage(rank) == InsertDamage(last, SortDamage(front));
      hide SortDamage, InsertDamage;
      SortIsPermutation(front);
      InsertIsPermutation(last, SortDamage(front));
      Appended(last, front, rank);
    }
  }

  predicate Descending(rank: seq<Damage>) {
    forall i, j :: 0 <= i < j < |rank| ==> rank[i].amount >= rank[j].amount
  }

  lemma {:induction false} InsertDescends(d: Damage, sorted: seq<Damage>)
    requires Descending(sorted)
    ensures Descending(InsertDamage(d, sorted))
  {
    if sorted != [] && sorted[0].amount >= d.amount {
      InsertDescends(d, sorted[1..]);
      var rest := InsertDamage(d, sorted[1..]);
      InsertIsPermutation(d, sorted[1..]);
      forall j | 0 <= j < |rest| ensures sorted[0].amount >= rest[j].amount {
        assert rest[j] in multiset(rest);
        assert rest[j] == d || rest[j] in sorted[1..];
      }
    }
  }

  lemma {:induction false} SortDescends(rank: seq<Damage>)
    ensures Descending(SortDamage(rank))
  {
    if rank != [] {
      SortDescends(rank[..|rank| - 1]);
      InsertDescends(rank[|rank| - 1], SortDamage(rank[..|rank| - 1]));
    }
  }

  /** The rewarded players are ranked, and there are five of them or as many as there are. */
  lemma TopFiveRanked(rank: seq<Damage>)
    ensures |TopFive(rank)| == Min(5, |rank|)
    ensures forall id :: id in TopFive(rank) ==> id in RankedIds(rank)
  {
    SortIsPermutation(rank);
    var sorted := SortDamage(rank);
    assert |sorted| == |multiset(sorted)| == |rank|;
    forall id | id in TopFive(rank) ensures id in RankedIds(rank) {
      var i :| 0 <= i < |TopFive(rank)| && TopFive(rank)[i] == id;
      assert sorted[i] in multiset(rank);
      var k :| 0 <= k < |rank| && rank[k] == sorted[i];
      assert RankedIds(rank)[k] == id;
    }
  }

  /** Nobody left out of the reward dealt more damage than somebody in it. */
  lemma TopFiveLeads(rank: seq<Damage>, inside: Damage, outside: Damage)
    requires Distinct(RankedIds(rank)) && inside in rank && outside in rank
    requires inside.who in TopFive(rank) && outside.who !in TopFive(rank)
    ensures inside.amount >= outside.amount
  {
    SortIsPermutation(rank);
    SortDescends(rank);
    var sorted := SortDamage(rank);
    assert outside in multiset(sorted);
    var j :| 0 <= j < |sorted| && sorted[j] == outside;
    var i :| 0 <= i < |TopFive(rank)| && TopFive(rank)[i] == inside.who;
    assert sorted[i] in multiset(rank);
    SameEntry(rank, sorted[i], inside);
    assert forall k :: 0 <= k < |TopFive(rank)| ==>
        sorted[k].who == TopFive(rank)[k] && TopFive(rank)[k] != outside.who;
  }

  lemma SameEntry(rank: seq<Damage>, a: Damage, b: Damage)
    requires Distinct(RankedIds(rank)) && a in rank && b in rank && a.who == b.who
    ensures a == b
  {
    var i :| 0 <= i < |rank| && rank[i] == a;
    var j :| 0 <= j < |rank| && rank[j] == b;
    assert RankedIds(rank)[i] == RankedIds(rank)[j];
  }

  /* ---- The boss ledger ---- */

  function Dealt(rank: seq<Damage>): real {
    if rank == [] then 0.0 else rank[0].amount + Dealt(rank[1..])
  }

  lemma {:induction false} DealtAdds(rank: seq<Damage>, u: UserId, amount: real)
    ensures Dealt(AddDamage(rank, u, amount)) == Dealt(rank) + amount
  {
    if rank == [] {
      assert AddDamage(rank, u, amount)[1..] == [];
    } else if rank[0].who == u {
      assert AddDamage(rank, u, amount)[1..] == rank[1..];
    } else {
      DealtAdds(rank[1..], u, amount);
      assert AddDamage(rank, u, amount)[1..] == AddDamage(rank[1..], u, amount);
    }
  }

  // One strike moves weight from the boss to the ranking; only the killing blow may overshoot.
  ghost predicate Struck(b: Boss, c: Boss) {
    && b.alive && c.name == b.name && c.attributes == b.attributes
    && (c.alive ==> c.weight + Dealt(c.damageRank) == b.weight + Dealt(b.damageRank))
    && (!c.alive ==> c.weight == 0.0 && Dealt(c.damageRank) >= b.weight + Dealt(b.damageRank))
  }

  ghost predicate Newborn(b: Boss) {
    b.alive && 2000.0 <= b.weight <= 5000.0 && b.damageRank == [] && b.killer.None?
  }

  lemma StrikeMovesWeight(s: State, u: UserId, kind: StrikeKind, t: Tape)
    requires Sane(s) && u in s.players && StrikeBossRule(s, u, kind, t).Done?
    ensures StrikeBossRule(s, u, kind, t).state.boss.Some?
    ensures s.boss.Some? && Struck(s.boss.value, StrikeBossRule(s, u, kind, t).state.boss.value)
  {
    hide Sane, TopFive, StrikeDamage, Recoil, Kill;
    OnePlayer(s, u);
    var damage := StrikeDamage(kind, s.players[u].kun.value, t);
    StrikeDamageNonNegative(kind, s.players[u].kun.value, t);
    RecoilLeavesAlive(s.boss.value.weight - damage, s.players[u].kun.value.weight);
    DealtAdds(s.boss.value.damageRank, u, damage);
  }

  lemma BossStep(s: State, scope: ScopeType, r: Request)
    requires Sane(s) && Perform(s, scope, r).Done?
    ensures
      var b := Perform(s, scope, r).state.boss;
      if r.action == Manage(RefreshBoss) then b.Some? && Newborn(b.value)
      else b == s.boss || b.None? || (s.boss.Some? && b.Some? && Struck(s.boss.value, b.value))
  {
    hide Sane, PlayerRule, AdminRule, Struck, Newborn;
    var today := NewDay(s, r.date);
    SaneIsWellFormed(s);
    NewDayKeeps(s, r.date);
    match r.action {
      case Play(c) =>
        EnterKeeps(today, r.user, r.date, r.cfg);
        PlayBossStep(Enter(today, r.user, r.date, r.cfg), r, c);
      case Manage(a) =>
        ManageBossStep(today, r, a);
    }
  }

  lemma EnterKeeps(s: State, u: UserId, date: string, cfg: Config)
    requires Sane(s)
    ensures Sane(Enter(s, u, date, cfg)) && u in Enter(s, u, date, cfg).players
  {
    hide Sane;
    if u !in s.players {
      PutKeeps(s, u, DefaultPlayer(date, cfg));
    }
  }

  lemma ManageBossStep(s: State, r: Request, a: AdminCommand)
    requires AdminRule(s, r, a).Done?
    ensures
      var b := AdminRule(s, r, a).state.boss;
      if a == RefreshBoss then b.Some? && Newborn(b.value) else b == s.boss || b.None?
  {
    AdminFrame(s, r, a);
  }

  lemma PlayBossStep(s: State, r: Request, c: PlayCommand)
    requires Sane(s) && r.user in s.players && PlayerRule(s, r, c).Done?
    ensures
      var b := PlayerRule(s, r, c).state.boss;
      b == s.boss || (s.boss.Some? && b.Some? && Struck(s.boss.value, b.value))
  {
    hide Sane;
    if c.StrikeBoss? {
      hide Struck, StrikeBossRule;
      StrikeMovesWeight(s, r.user, c.strike, r.tape);
    } else {
      hide PlayerRule;
      PlayFrame(s, r, c);
    }
  }

  // The weight the present boss was born with: the boss of the last refresh.
  ghost function BirthWeight(h: seq<State>, rs: seq<Request>, k: nat): real
    requires |h| == |rs| + 1 && k < |h|
  {
    if k == 0 then 0.0
    else if rs[k - 1].action == Manage(RefreshBoss) && h[k].boss.Some? then h[k].boss.value.weight
    else BirthWeight(h, rs, k - 1)
  }

  /**
   At every moment of every run that starts from the default state, a living boss weighs what it
   was born with less all damage dealt to it; a dead one has taken at least its birth weight.
   */
  lemma {:induction false} BossLedger(h: seq<State>, rs: seq<Request>, scope: ScopeType, gid: string, k: nat)
    requires Run(h, rs, scope) && h[0] == DefaultState(gid) && k < |h|
    ensures h[k].boss.Some? ==>
      var b, birth := h[k].boss.value, BirthWeight(h, rs, k);
      && 2000.0 <= birth <= 5000.0
      && (b.alive ==> birth == b.weight + Dealt(b.damageRank))
      && (!b.alive ==> b.weight == 0.0 && birth <= Dealt(b.damageRank))
  {
    if k > 0 {
      hide Perform, Invariant, Run;
      BossLedger(h, rs, scope, gid, k - 1);
      DefaultKeeps(gid);
      RunKeeps(h, rs, scope, k - 1);
      InvariantIsSane(h[k - 1]);
      RunStep(h, rs, scope, k);
      BossStep(h[k - 1], scope, rs[k - 1]);
    }
  }

  /* ---- Mini-games ---- */

  // The same game with one more participant.
  ghost predicate Joined(g: MiniGame, after: MiniGame) {
    exists u :: u !in g.participants && after == Join(g, u)
  }

  ghost predicate GameStep(a: Option<MiniGame>, b: Option<MiniGame>) {
    || b == a
    || b.None?
    || (a.None? && b.value.participants == [] && b.value.slotsUsed == 0 && 2 <= b.value.maxSlots <= 5)
    || (a.Some? && Joined(a.value, b.value))
  }

  lemma GameStepHolds(s: State, scope: ScopeType, r: Request)
    requires Perform(s, scope, r).Done?
    ensures GameStep(s.miniGame, Perform(s, scope, r).state.miniGame)
  {
    hide PlayerRule, AdminRule;
    var today := NewDay(s, r.date);
    match r.action {
      case Play(c) => PlayGameStep(Enter(today, r.user, r.date, r.cfg), r, c);
      case Manage(a) => AdminFrame(today, r, a);
    }
  }

  lemma PlayGameStep(s: State, r: Request, c: PlayCommand)
    requires r.user in s.players && PlayerRule(s, r, c).Done?
    ensures GameStep(s.miniGame, PlayerRule(s, r, c).state.miniGame)
  {
    hide AnswerText;
    if c.StartGame? || c.Slap? || c.AnswerGame? {
      if s.miniGame.Some? && PlayerRule(s, r, c).state.miniGame.Some? {
        assert PlayerRule(s, r, c).state.miniGame == s.miniGame
          || PlayerRule(s, r, c).state.miniGame.value == Join(s.miniGame.value, r.user);
      }
    } else {
      hide PlayerRule;
      PlayFrame(s, r, c);
    }
  }

  /**
   While one game stays open its participants only grow, are all different, and are fewer than its
   slots; so one that stays open accepts fewer than maxSlots participants, and the last one closes it.
   */
  lemma {:induction false} GameOverRun(h: seq<State>, rs: seq<Request>, scope: ScopeType, i: nat, j: nat)
    requires Run(h, rs, scope) && Invariant(h[0]) && i <= j < |h|
    requires forall k :: i <= k <= j ==> h[k].miniGame.Some?
    ensures Continues(h[i].miniGame.value, h[j].miniGame.value)
    decreases j - i
  {
    hide *;
    Lengths(h, rs, scope);
    RunKeeps(h, rs, scope, j);
    if i < j {
      GameOverRun(h, rs, scope, i, j - 1);
      RunStep(h, rs, scope, j);
      GameStepHolds(h[j - 1], scope, rs[j - 1]);
      ContinuesOn(h[i].miniGame.value, h[j - 1].miniGame.value, h[j]);
    } else {
      SameStep(h[i].miniGame);
      ContinuesOn(h[i].miniGame.value, h[i].miniGame.value, h[i]);
    }
  }

  lemma SameStep(g: Option<MiniGame>)
    ensures GameStep(g, g)
  {}

  predicate Continues(g: MiniGame, after: MiniGame) {
    && after.kind == g.kind && after.answer == g.answer && after.maxSlots == g.maxSlots
    && g.participants <= after.participants && Distinct(after.participants)
    && after.slotsUsed == |after.participants| < after.maxSlots
  }

  lemma ContinuesOn(g: MiniGame, before: MiniGame, s: State)
    requires Invariant(s) && s.miniGame.Some? && GameStep(Some(before), s.miniGame)
    requires g == before || Continues(g, before)
    ensures Continues(g, s.miniGame.value)
  {
    OpenGame(s);
    hide Invariant;
    var after := s.miniGame.value;
    assert before.participants <= after.participants;
  }

  /* ---- Why the invariant is stronger than the validator ---- */

  /** The validator accepts this state, and one more slap turns it into one the validator refuses. */
  lemma ValidatorIsNotInductive(t: Tape)
    ensures
      var p := Player(None, 50, 0, 0, 0, 0, 0, 50, 0, false, "");
      var s := DefaultState("g").(players := map["u" := p, "v" := p],
                                  miniGame := Some(MiniGame(Brawl, 1, 1, ["u"], "")));
      && Sane(s) && WithinCaps(s) && !Live(s)
      && SlapRule(s, "v", t).Done? && !WellFormed(SlapRule(s, "v", t).state)
  {}
}
