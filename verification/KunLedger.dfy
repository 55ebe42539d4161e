/**
 Conservation: which commands move 节操 and kuns between players without making or losing any,
 and exactly what the death of a boss mints.
 */
module KunLedger {
  import opened Common
  import opened KunState
  import opened KunRules
  import opened KunInvariant
  import opened KunHistory

  /* ---- Totals over all players ---- */

  ghost function Total(players: map<UserId, Player>, f: Player -> int): int {
    if players == map[] then 0
    else
      var u :| u in players;
      f(players[u]) + Total(players - {u}, f)
  }

  lemma {:induction false} TotalSplits(players: map<UserId, Player>, f: Player -> int, u: UserId)
    requires u in players
    ensures Total(players, f) == f(players[u]) + Total(players - {u}, f)
    decreases |players|
  {
    var x :| x in players && Total(players, f) == f(players[x]) + Total(players - {x}, f);
    if x != u {
      Smaller(players, x);
      Smaller(players, u);
      TotalSplits(players - {x}, f, u);
      TotalSplits(players - {u}, f, x);
      assert players - {x} - {u} == players - {u} - {x};
    }
  }

  lemma Smaller(players: map<UserId, Player>, u: UserId)
    requires u in players
    ensures |players - {u}| < |players|
  {
    assert (players - {u}).Keys == players.Keys - {u};
  }

  lemma TotalPuts(players: map<UserId, Player>, f: Player -> int, u: UserId, p: Player)
    ensures Total(players[u := p], f) == Total(players, f) + f(p) - (if u in players then f(players[u]) else 0)
  {
    TotalSplits(players[u := p], f, u);
    assert players[u := p] - {u} == players - {u};
    if u in players {
      TotalSplits(players, f, u);
    } else {
      assert players - {u} == players;
    }
  }

  lemma {:induction false} TotalAgrees(a: map<UserId, Player>, b: map<UserId, Player>, f: Player -> int)
    requires a.Keys == b.Keys && forall u :: u in a ==> f(a[u]) == f(b[u])
    ensures Total(a, f) == Total(b, f)
    decreases |a|
  {
    if a != map[] {
      var u :| u in a;
      Smaller(a, u);
      TotalSplits(a, f, u);
      TotalSplits(b, f, u);
      TotalAgrees(a - {u}, b - {u}, f);
    }
  }

  function Purse(p: Player): int { p.jieCao }

  function EggsOf(p: Player): int { p.eggs }

  // 1 when the player holds exactly this kun record.
  function Holds(k: Kun): Player -> int {
    (p: Player) => if p.kun == Some(k) then 1 else 0
  }

  ghost function Money(s: State): int {
    Total(s.players, Purse)
  }

  /** How many copies of one kun record the players and the escrow hold together. */
  ghost function Custody(s: State, k: Kun): int {
    Total(s.players, Holds(k)) + (if s.auction.Some? && s.auction.value.kun == k then 1 else 0)
  }

  // Neither kuns nor 节操 have been made or lost.
  ghost predicate Conserved(s: State, o: Outcome) {
    o.Done? ==> Money(o.state) == Money(s) && forall k :: Custody(o.state, k) == Custody(s, k)
  }

  /* ---- The auction and the round reset ---- */

  lemma SellConserves(s: State, u: UserId, c: Count, now: int)
    requires u in s.players
    ensures Conserved(s, SellRule(s, u, c, now))
  {
    var p := s.players[u];
    TotalPuts(s.players, Purse, u, p.(kun := None));
    forall k {
      TotalPuts(s.players, Holds(k), u, p.(kun := None));
    }
  }

  lemma BidConserves(s: State, u: UserId, c: Count)
    requires u in s.players
    ensures Conserved(s, BidRule(s, u, c))
  {}

  // What changes hands in a deal.
  lemma DealMoves(s: State, u: UserId)
    requires Sane(s) && u in s.players && DealRule(s, u).Done?
    ensures
      && s.auction.Some? && s.auction.value.bidder.Some?
      && var a, b := s.auction.value, s.auction.value.bidder.value;
      && b in s.players && b != u && s.players[b].kun.None?
      && var bought := s.players[b].(jieCao := s.players[b].jieCao - a.currentBid, kun := Some(a.kun));
      var sold := s.players[u].(jieCao := s.players[u].jieCao + a.currentBid);
      DealRule(s, u).state == s.(players := s.players[b := bought][u := sold], auction := None)
  {
    EscrowedKun(s);
    hide Sane;
  }

  lemma DealConserves(s: State, u: UserId)
    requires Sane(s) && u in s.players
    ensures Conserved(s, DealRule(s, u))
  {
    if DealRule(s, u).Done? {
      DealMoves(s, u);
      hide Sane, DealRule;
      var a := s.auction.value;
      var b := a.bidder.value;
      var bought := s.players[b].(jieCao := s.players[b].jieCao - a.currentBid, kun := Some(a.kun));
      var sold := s.players[u].(jieCao := s.players[u].jieCao + a.currentBid);
      var after := DealRule(s, u).state;
      TotalPuts(s.players, Purse, b, bought);
      TotalPuts(s.players[b := bought], Purse, u, sold);
      forall k ensures Custody(after, k) == Custody(s, k) {
        TotalPuts(s.players, Holds(k), b, bought);
        TotalPuts(s.players[b := bought], Holds(k), u, sold);
      }
    }
  }

  lemma RestoreConserves(s: State)
    ensures Conserved(s, RestoreRule(s))
  {
    if s.auction.Some? && RestoreRule(s).Done? {
      var a := s.auction.value;
      var p := s.players[a.seller].(kun := Some(a.kun));
      TotalPuts(s.players, Purse, a.seller, p);
      forall k {
        TotalPuts(s.players, Holds(k), a.seller, p);
      }
    }
  }

  lemma ResetConserves(s: State)
    ensures Conserved(s, ResetRoundRule(s))
  {
    RestoreConserves(s);
  }

  lemma NewDayConserves(s: State, date: string)
    ensures Conserved(s, Done(NewDay(s, date)))
  {
    var after := NewDay(s, date);
    TotalAgrees(s.players, after.players, Purse);
    forall k {
      TotalAgrees(s.players, after.players, Holds(k));
    }
  }

  lemma EnterConserves(s: State, u: UserId, date: string, cfg: Config)
    ensures var after := Enter(s, u, date, cfg);
      && Money(after) == Money(s) + (if u in s.players then 0 else cfg.defaultJieCao)
      && forall k :: Custody(after, k) == Custody(s, k)
  {
    TotalPuts(s.players, Purse, u, DefaultPlayer(date, cfg));
    if u !in s.players {
      forall k {
        TotalPuts(s.players, Holds(k), u, DefaultPlayer(date, cfg));
      }
    }
  }

  predicate MovesOnly(a: Action) {
    match a
    case Play(c) => c.Sell? || c.Bid? || c.Deal?
    case Manage(m) => m.ForceDelist? || m.ResetRound?
  }

  /**
   Selling, bidding, dealing, delisting and resetting the round keep every kun record and every 节操;
   only a player seen for the first time brings a default purse.
   */
  lemma AuctionConserves(s: State, scope: ScopeType, r: Request)
    requires Sane(s) && MovesOnly(r.action) && Perform(s, scope, r).Done?
    ensures
      var after := Perform(s, scope, r).state;
      && Money(after) == Money(s) + (if r.action.Play? && r.user !in s.players then r.cfg.defaultJieCao else 0)
      && forall k :: Custody(after, k) == Custody(s, k)
  {
    hide Conserved, Custody, Money, Sane, SellRule, BidRule, DealRule, RestoreRule;
    var today := NewDay(s, r.date);
    SaneIsWellFormed(s);
    NewDayKeeps(s, r.date);
    NewDayConserves(s, r.date);
    ConservedMeans(s, Done(today));
    match r.action {
      case Play(c) =>
        var entered := Enter(today, r.user, r.date, r.cfg);
        EnterConserves(today, r.user, r.date, r.cfg);
        if r.user !in today.players {
          PutKeeps(today, r.user, DefaultPlayer(r.date, r.cfg));
        }
        if c.Sell? {
          SellConserves(entered, r.user, c.count, r.instant);
        } else if c.Bid? {
          BidConserves(entered, r.user, c.count);
        } else {
          DealConserves(entered, r.user);
        }
        ConservedMeans(entered, PlayerRule(entered, r, c));
      case Manage(a) =>
        RestoreConserves(today);
        ResetConserves(today);
        ConservedMeans(today, AdminRule(today, r, a));
    }
  }

  lemma ConservedMeans(s: State, o: Outcome)
    requires Conserved(s, o) && o.Done?
    ensures Money(o.state) == Money(s) && forall k :: Custody(o.state, k) == Custody(s, k)
  {}

  /* ---- What the death of a boss mints ---- */

  lemma {:induction false} PayEachPays(players: map<UserId, Player>, ids: seq<UserId>)
    requires forall id :: id in ids ==> id in players
    ensures Total(PayEach(players, ids), Purse) == Total(players, Purse) + 300 * |ids|
    ensures Total(PayEach(players, ids), EggsOf) == Total(players, EggsOf)
    decreases |ids|
  {
    if ids != [] {
      var rest, last := ids[..|ids| - 1], ids[|ids| - 1];
      PayEachPays(players, rest);
      var paid := PayEach(players, rest);
      TotalPuts(paid, Purse, last, paid[last].(jieCao := paid[last].jieCao + 300));
      TotalPuts(paid, EggsOf, last, paid[last].(jieCao := paid[last].jieCao + 300));
    }
  }

  /**
   A strike that leaves the boss alive mints nothing. One that kills it mints exactly 20 eggs and
   100 + 300 * min(5, ranked players) 节操, beyond what the strike itself costs.
   */
  lemma BossKillMints(s: State, u: UserId, kind: StrikeKind, t: Tape)
    requires Sane(s) && u in s.players && StrikeBossRule(s, u, kind, t).Done?
    ensures
      var after := StrikeBossRule(s, u, kind, t).state;
      var cost := s.players[u].jieCao - StrikeCost(kind, s.players[u]).jieCao;
      && after.boss.Some?
      && var b := after.boss.value;
      && Money(after) == Money(s) - cost + (if b.alive then 0 else 100 + 300 * Min(5, |b.damageRank|))
      && Total(after.players, EggsOf) == Total(s.players, EggsOf) + (if b.alive then 0 else 20)
  {
    hide Sane, Ranked, Recoil, StrikeDamage, Kill, Slay;
    OnePlayer(s, u);
    var b, p := s.boss.value, s.players[u];
    var damage := StrikeDamage(kind, p.kun.value, t);
    RecoilLeavesAlive(b.weight - damage, p.kun.value.weight);
    var struck := Weigh(StrikeCost(kind, p), p.kun.value.weight - Recoil(b.weight - damage, p.kun.value.weight));
    if b.weight - damage <= 0.0 {
      SlayMints(s, u, struck, Ranked(b.damageRank, u, damage));
    } else {
      TotalPuts(s.players, Purse, u, struck);
      TotalPuts(s.players, EggsOf, u, struck);
    }
  }

  lemma SlayMints(s: State, u: UserId, struck: Player, rank: seq<Damage>)
    requires u in s.players && s.boss.Some? && Slay(s, u, struck, rank).Done?
    ensures
      var after := Slay(s, u, struck, rank).state;
      && after.boss.Some? && !after.boss.value.alive && after.boss.value.damageRank == rank
      && Money(after) == Money(s) + struck.jieCao - s.players[u].jieCao + 100 + 300 * Min(5, |rank|)
      && Total(after.players, EggsOf) == Total(s.players, EggsOf) + struck.eggs - s.players[u].eggs + 20
  {
    hide TopFive;
    TopFiveRanked(rank);
    var prize := struck.(eggs := struck.eggs + 20, jieCao := struck.jieCao + 100);
    TotalPuts(s.players, Purse, u, prize);
    TotalPuts(s.players, EggsOf, u, prize);
    PayEachPays(s.players[u := prize], TopFive(rank));
  }
}
