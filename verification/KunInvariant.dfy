/**
 Every command, with every random draw, keeps the checks of the validator, but for one, and every
 command keeps the strengthened invariant.

 Hence the check the engine makes before it commits can only fail on one of the
 10^15 caps, and the branches the engine guards against are never taken.
 */
module KunInvariant {
  import opened Common
  import opened KunState
  import opened KunRules
  import opened KunFrames

  predicate Keeps(o: Outcome) {
    o.Done? ==> Sane(o.state)
  }

  /* ---- Building blocks ---- */

  // What the invariant says of one player, and of the death list.
  lemma OnePlayer(s: State, u: UserId)
    requires Sane(s) && u in s.players
    ensures WellFormedPlayer(s.players[u])
    ensures IsSeller(s, u) ==> s.players[u].kun.None?
    ensures |s.deathList| <= DEATH_LIST_LIMIT
  {}

  lemma PutKeeps(s: State, u: UserId, p: Player)
    requires Sane(s) && WellFormedPlayer(p)
    requires IsSeller(s, u) ==> p.kun.None?
    ensures Sane(Put(s, u, p))
  {
    if s.boss.Some? {
      assert forall i :: 0 <= i < |s.boss.value.damageRank| ==> s.boss.value.damageRank[i].who in s.players;
    }
  }

  /** Changing two players (or one, when u == v) and the death list keeps the invariant. */
  lemma ChangeKeeps(s: State, u: UserId, v: UserId, after: State)
    requires Sane(s) && u in after.players && v in after.players
    requires after == s.(players := s.players[u := after.players[u]][v := after.players[v]],
                         deathList := after.deathList)
    requires |after.deathList| <= DEATH_LIST_LIMIT
    requires WellFormedPlayer(after.players[u]) && (IsSeller(s, u) ==> after.players[u].kun.None?)
    requires WellFormedPlayer(after.players[v]) && (IsSeller(s, v) ==> after.players[v].kun.None?)
    ensures Sane(after)
  {
    hide Sane;
    PutKeeps(s, u, after.players[u]);
    PutKeeps(Put(s, u, after.players[u]), v, after.players[v]);
    DeathListKeeps(Put(Put(s, u, after.players[u]), v, after.players[v]), after.deathList);
  }

  lemma DeathListKeeps(s: State, entries: seq<UserId>)
    requires Sane(s) && |entries| <= DEATH_LIST_LIMIT
    ensures Sane(s.(deathList := entries))
  {}

  lemma KillKeeps(s: State, u: UserId, killer: Option<UserId>)
    requires Sane(s) && u in s.players && s.players[u].kun.Some?
    ensures Sane(Kill(s, u, killer))
  {
    hide Sane;
    OnePlayer(s, u);
    ChangeKeeps(s, u, u, Kill(s, u, killer));
  }

  lemma GrownKeeps(s: State, u: UserId, p: Player)
    requires Sane(s) && u in s.players && WellFormedPlayer(p) && p.kun.Some? && !IsSeller(s, u)
    ensures Sane(Grown(s, u, p))
  {
    PutKeeps(s, u, p);
    if p.kun.value.attribute == Glutton && p.kun.value.weight > 1000.0 {
      KillKeeps(Put(s, u, p), u, None);
    }
  }

  /* ---- One lemma a group of commands ---- */

  lemma TopWeightPositive(s: State)
    requires Sane(s)
    ensures 0.0 < TopWeight(s.players)
  {
    var w := TopWeight(s.players);
    if exists v :: v in s.players && Living(s.players[v]) {
      var v :| v in s.players && Living(s.players[v]) && s.players[v].kun.value.weight == w;
      OnePlayer(s, v);
    }
  }

  lemma HatchKeeps(s: State, u: UserId, cfg: Config, t: Tape)
    requires Sane(s) && u in s.players
    ensures Keeps(HatchRule(s, u, cfg, t))
  {
    hide Sane;
    OnePlayer(s, u);
    TopWeightPositive(s);
    if HatchRule(s, u, cfg, t).Done? {
      PutKeeps(s, u, HatchRule(s, u, cfg, t).state.players[u]);
    }
  }

  // Commands that only move counters.
  lemma CountersKeep(s: State, u: UserId, date: string, c: Count, cfg: Config, t: Tape)
    requires Sane(s) && u in s.players
    ensures Sane(SignInRule(s, u, date, t))
    ensures Keeps(BuyEggsRule(s, u, c, cfg)) && Keeps(DrinkSoupRule(s, u, c))
  {
    hide Sane;
    OnePlayer(s, u);
    PutKeeps(s, u, SignInRule(s, u, date, t).players[u]);
    if BuyEggsRule(s, u, c, cfg).Done? {
      PutKeeps(s, u, BuyEggsRule(s, u, c, cfg).state.players[u]);
    }
    if DrinkSoupRule(s, u, c).Done? {
      PutKeeps(s, u, DrinkSoupRule(s, u, c).state.players[u]);
    }
  }

  lemma SmashKeeps(s: State, u: UserId, c: Count, t: Tape)
    requires Sane(s) && u in s.players
    ensures Keeps(SmashEggsRule(s, u, c, t))
  {
    hide Sane, Touches, Smash;
    OnePlayer(s, u);
    if SmashEggsRule(s, u, c, t).Done? {
      PutKeeps(s, u, SmashEggsRule(s, u, c, t).state.players[u]);
    }
  }

  // Commands that change or give up one's own kun.
  lemma OwnKunKeeps(s: State, u: UserId, t: Tape)
    requires Sane(s) && u in s.players
    ensures Keeps(CheckAttributesRule(s, u)) && Keeps(ReleaseRule(s, u, t))
  {
    hide Sane, Touches, Living, RandInt;
    OnePlayer(s, u);
    if CheckAttributesRule(s, u).Done? {
      PutKeeps(s, u, CheckAttributesRule(s, u).state.players[u]);
    }
    if ReleaseRule(s, u, t).Done? {
      PutKeeps(s, u, ReleaseRule(s, u, t).state.players[u]);
    }
  }

  lemma RenewedKunKeeps(s: State, u: UserId, t: Tape)
    requires Sane(s) && u in s.players
    ensures Keeps(ResurrectRule(s, u, t)) && Keeps(EvolveRule(s, u, t))
  {
    hide Sane, Touches, NewAttribute, Living, Chance;
    OnePlayer(s, u);
    if ResurrectRule(s, u, t).Done? {
      PutKeeps(s, u, ResurrectRule(s, u, t).state.players[u]);
    }
    if EvolveRule(s, u, t).Done? {
      PutKeeps(s, u, EvolveRule(s, u, t).state.players[u]);
    }
  }

  lemma FeedKeeps(s: State, u: UserId, c: Count, t: Tape)
    requires Sane(s) && u in s.players
    ensures Keeps(FeedRule(s, u, c, t))
  {
    hide Sane, Touches;
    OnePlayer(s, u);
    var p, n := s.players[u], PositiveInt(c, 1, INPUT_COUNT_LIMIT);
    if FeedRule(s, u, c, t).Done? {
      var gain := n.value * RandInt(t, 0, 5, 15);
      assert gain >= 0;
      GrownKeeps(s, u, Weigh(p, p.kun.value.weight + gain as real).(eggs := p.eggs - n.value));
    }
  }

  lemma TrainKeeps(s: State, u: UserId, amount: Option<real>, cfg: Config, t: Tape)
    requires Sane(s) && u in s.players
    ensures Keeps(TrainRule(s, u, amount, cfg, t))
  {
    hide Sane, Touches;
    OnePlayer(s, u);
    var p := s.players[u];
    if TrainRule(s, u, amount, cfg, t).Done? {
      var w, v := p.kun.value.weight, amount.value;
      var cost := if p.kun.value.attribute == Greedy && Chance(t, 0) < 0.7 then 0 else 2;
      var paid := p.(jieCao := p.jieCao - cost, todayTrain := p.todayTrain + 1);
      PutKeeps(s, u, Weigh(paid, w - v));
      GrownKeeps(s, u, Weigh(paid, w + (w - v)));
    }
  }

  lemma TribulationKeeps(s: State, u: UserId, cfg: Config, t: Tape)
    requires Sane(s) && u in s.players
    ensures Keeps(TribulationRule(s, u, cfg, t))
  {
    hide Sane, Touches;
    OnePlayer(s, u);
    var p := s.players[u];
    if TribulationRule(s, u, cfg, t).Done? {
      ChangeKeeps(s, u, u, TribulationRule(s, u, cfg, t).state);
    }
  }

  lemma BiteKeeps(s: State, u: UserId, v: UserId, damage: real, critical: bool, t: Tape, next: nat)
    requires Sane(s) && u in s.players && v in s.players && u != v
    requires Living(s.players[u]) && Living(s.players[v]) && !IsSeller(s, u) && !IsSeller(s, v)
    requires 0.0 <= damage
    ensures Sane(Bite(s, u, v, damage, critical, t, next))
  {
    hide Sane, Kill, Swallow, Touches;
    OnePlayer(s, u);
    var p, q := s.players[u], s.players[v];
    var a, left := p.kun.value, q.kun.value.weight - damage;
    if left <= 0.0 || critical {
      var rest := MaxReal(0.0, left);
      SwallowKeeps(s, u, v, rest);
      KillKeeps(Swallow(s, u, v, rest), u, None);
    } else {
      WoundKeeps(s, v, left);
      var bitten := Put(Put(s, v, Weigh(q, left)), u, Weigh(p, a.weight + damage));
      PutKeeps(Put(s, v, Weigh(q, left)), u, Weigh(p, a.weight + damage));
      KillKeeps(bitten, u, None);
      PutKeeps(bitten, u, bitten.players[u].(eggs := p.eggs + 1));
      PutKeeps(bitten, u, bitten.players[u]);
    }
  }

  lemma WoundKeeps(s: State, v: UserId, left: real)
    requires Sane(s) && v in s.players && Living(s.players[v]) && 0.0 < left
    ensures Sane(Put(s, v, Weigh(s.players[v], left)))
  {
    hide Sane;
    OnePlayer(s, v);
    PutKeeps(s, v, Weigh(s.players[v], left));
  }

  lemma SwallowKeeps(s: State, u: UserId, v: UserId, rest: real)
    requires Sane(s) && u in s.players && v in s.players && u != v && 0.0 <= rest
    requires Living(s.players[u]) && Living(s.players[v]) && !IsSeller(s, u) && !IsSeller(s, v)
    ensures Sane(Swallow(s, u, v, rest))
  {
    hide Sane, Touches;
    OnePlayer(s, u);
    OnePlayer(s, v);
    var after := Swallow(s, u, v, rest);
    assert after.players == s.players[u := after.players[u]][v := after.players[v]];
    ChangeKeeps(s, u, v, after);
  }

  lemma DevourKeeps(s: State, u: UserId, v: UserId, t: Tape)
    requires Sane(s) && u in s.players && v in s.players && u != v
    requires Living(s.players[u]) && Living(s.players[v]) && !IsSeller(s, u) && !IsSeller(s, v)
    ensures Keeps(DevourRule(s, u, v, t))
  {
    hide Sane, Bite;
    OnePlayer(s, u);
    var p, a := s.players[u], s.players[u].kun.value;
    if DevourRule(s, u, v, t).Done? {
      var critical := a.attribute == Wrath && Chance(t, 0) < 0.25;
      var at := if a.attribute == Wrath then 1 else 0;
      if Chance(t, at) >= DevourRate(a, s.players[v].kun.value) {
        PutKeeps(s, u, Weigh(p, a.weight - a.weight * 0.2));
      } else {
        BiteKeeps(s, u, v, BiteDamage(a, critical, t, at + 1), critical, t, if critical then at + 1 else at + 2);
      }
    }
  }

  lemma HitKeeps(s: State, u: UserId, v: UserId, damage: real, t: Tape, next: nat)
    requires Sane(s) && u in s.players && v in s.players && u != v
    requires Living(s.players[u]) && Living(s.players[v]) && !IsSeller(s, u) && !IsSeller(s, v)
    ensures Sane(Hit(s, u, v, damage, t, next))
  {
    hide Sane, Touches, Kill;
    OnePlayer(s, u);
    var p, q := s.players[u], s.players[v];
    var left := q.kun.value.weight - damage;
    if left <= 0.0 {
      StruckDownKeeps(s, v, Some(u));
    } else {
      WoundKeeps(s, v, left);
      PutKeeps(Put(s, v, Weigh(q, left)), u, Weigh(p, p.kun.value.weight + p.kun.value.weight * 0.5));
      PutKeeps(Put(s, v, Weigh(q, left)), u, LayEgg(p, t, next));
    }
  }

  lemma StruckDownKeeps(s: State, v: UserId, killer: Option<UserId>)
    requires Sane(s) && v in s.players && Living(s.players[v]) && !IsSeller(s, v)
    ensures Sane(Kill(Put(s, v, Weigh(s.players[v], 0.0)), v, killer))
  {
    hide Sane, Touches;
    OnePlayer(s, v);
    var after := Kill(Put(s, v, Weigh(s.players[v], 0.0)), v, killer);
    assert after.players == s.players[v := after.players[v]];
    ChangeKeeps(s, v, v, after);
  }

  lemma AttackKeeps(s: State, u: UserId, v: UserId, t: Tape)
    requires Sane(s) && u in s.players && v in s.players && u != v
    requires Living(s.players[u]) && Living(s.players[v]) && !IsSeller(s, u) && !IsSeller(s, v)
    ensures Keeps(AttackRule(s, u, v, t))
  {
    hide Sane, Hit;
    var a := s.players[u].kun.value;
    if AttackRule(s, u, v, t).Done? {
      var critical := a.attribute == Wrath && Chance(t, 0) < 0.25;
      var at := if a.attribute == Wrath then 1 else 0;
      HitKeeps(s, u, v, HitDamage(a, critical, t, at), t, at + 1);
    }
  }

  lemma AssaultKeeps(s: State, u: UserId, v: UserId, t: Tape)
    requires Sane(s) && u in s.players && v in s.players && u != v
    requires Living(s.players[u]) && Living(s.players[v]) && !IsSeller(s, u) && !IsSeller(s, v)
    ensures Keeps(AssaultRule(s, u, v, t))
  {
    hide Sane, Touches, Kill;
    OnePlayer(s, u);
    var p, q := s.players[u], s.players[v];
    if AssaultRule(s, u, v, t).Done? {
      var spent := Put(s, u, p.(divineWeapon := p.divineWeapon - 1, jieCao := Max(0, p.jieCao - 2)));
      PutKeeps(s, u, spent.players[u]);
      var left := q.kun.value.weight - RandInt(t, 1, 50, 300) as real;
      if 0.0 < left {
        WoundKeeps(spent, v, left);
      }
      StruckDownKeeps(spent, v, Some(u));
    }
  }

  lemma PvpKeeps(s: State, u: UserId, kind: PvpKind, mentions: seq<UserId>, t: Tape)
    requires Sane(s) && u in s.players
    ensures Keeps(PvpRule(s, u, kind, mentions, t))
  {
    hide Sane;
    OnePlayer(s, u);
    var target := SoleTarget(mentions, u);
    if PvpRule(s, u, kind, mentions, t).Done? {
      var v := target.value;
      match kind {
        case Devour => DevourKeeps(s, u, v, t);
        case Attack => AttackKeeps(s, u, v, t);
        case Assault => AssaultKeeps(s, u, v, t);
        case ThrowEgg =>
          OnePlayer(s, v);
          var after := ThrowEggRule(s, u, v, t).state;
          assert after.players == s.players[u := after.players[u]][v := after.players[v]];
          ChangeKeeps(s, u, v, after);
      }
    }
  }

  /* ---- The boss ---- */

  predicate NonNegative(rank: seq<Damage>) {
    forall i :: 0 <= i < |rank| ==> 0.0 <= rank[i].amount
  }

  lemma {:induction false} AddDamageKeeps(rank: seq<Damage>, u: UserId, amount: real)
    requires Distinct(RankedIds(rank))
    ensures Distinct(RankedIds(AddDamage(rank, u, amount)))
    ensures forall x :: x in RankedIds(AddDamage(rank, u, amount)) <==> x in RankedIds(rank) || x == u
    ensures 0.0 <= amount && NonNegative(rank) ==> NonNegative(AddDamage(rank, u, amount))
  {
    if rank == [] {
      assert RankedIds(AddDamage(rank, u, amount)) == [u];
    } else {
      assert RankedIds(rank) == [rank[0].who] + RankedIds(rank[1..]);
      if rank[0].who == u {
        assert RankedIds(AddDamage(rank, u, amount)) == RankedIds(rank);
      } else {
        DistinctTail(rank[0].who, RankedIds(rank[1..]));
        AddDamageKeeps(rank[1..], u, amount);
        var after := AddDamage(rank[1..], u, amount);
        assert RankedIds(AddDamage(rank, u, amount)) == [rank[0].who] + RankedIds(after);
        DistinctTail(rank[0].who, RankedIds(after));
      }
    }
  }

  lemma DistinctTail(x: UserId, rest: seq<UserId>)
    ensures Distinct([x] + rest) <==> x !in rest && Distinct(rest)
  {
    var all := [x] + rest;
    assert forall i :: 0 < i < |all| ==> all[i] == rest[i - 1];
    if Distinct(all) {
      forall i, j | 0 <= i < j < |rest| ensures rest[i] != rest[j] {
        assert all[i + 1] != all[j + 1];
      }
      forall j | 0 <= j < |rest| ensures rest[j] != x {
        assert all[0] != all[j + 1];
      }
    }
  }

  lemma StrikeDamageNonNegative(kind: StrikeKind, kun: Kun, t: Tape)
    requires 0.0 < kun.weight
    ensures 0.0 <= StrikeDamage(kind, kun, t)
  {}

  // Recoil takes at most three tenths of the attacker's weight.
  lemma RecoilLeavesAlive(bossWeight: real, kunWeight: real)
    requires 0.0 < kunWeight
    ensures 0.0 < kunWeight - Recoil(bossWeight, kunWeight) <= kunWeight
  {}

  lemma {:induction false} PayEachKeeps(s: State, ids: seq<UserId>)
    requires Sane(s)
    requires forall id :: id in ids ==> id in s.players
    ensures Sane(s.(players := PayEach(s.players, ids)))
    decreases |ids|
  {
    hide Sane;
    if ids != [] {
      var rest, last := ids[..|ids| - 1], ids[|ids| - 1];
      PayEachKeeps(s, rest);
      var paid := PayEach(s.players, rest);
      OnePlayer(s.(players := paid), last);
      PutKeeps(s.(players := paid), last, paid[last].(jieCao := paid[last].jieCao + 300));
    }
  }

  lemma BossKeeps(s: State, b: Boss)
    requires Sane(s) && WellFormedBoss(b, s.players) && Distinct(RankedIds(b.damageRank))
    ensures Sane(s.(boss := Some(b)))
  {}

  lemma StrikeKeeps(s: State, u: UserId, kind: StrikeKind, t: Tape)
    requires Sane(s) && u in s.players
    ensures Keeps(StrikeBossRule(s, u, kind, t))
  {
    hide Sane;
    if MayStrike(s, u, kind) {
      var b, p := s.boss.value, s.players[u];
      OnePlayer(s, u);
      var damage := StrikeDamage(kind, p.kun.value, t);
      StrikeDamageNonNegative(kind, p.kun.value, t);
      StruckBossKeeps(s, u, damage);
      LandKeeps(s, u, kind, damage);
    }
  }

  // The boss side of a strike, without the attacker's.
  lemma StruckBossKeeps(s: State, u: UserId, damage: real)
    requires Sane(s) && u in s.players && s.boss.Some? && 0.0 <= damage
    ensures RankFits(Ranked(s.boss.value.damageRank, u, damage), s.players)
  {
    assert NonNegative(s.boss.value.damageRank);
    AddDamageKeeps(s.boss.value.damageRank, u, damage);
    RankKnown(s, Ranked(s.boss.value.damageRank, u, damage), u);
  }

  ghost predicate RankFits(rank: seq<Damage>, players: map<UserId, Player>) {
    && Distinct(RankedIds(rank))
    && (forall i :: 0 <= i < |rank| ==> rank[i].who in players && 0.0 <= rank[i].amount)
  }

  lemma LandKeeps(s: State, u: UserId, kind: StrikeKind, damage: real)
    requires Sane(s) && u in s.players && MayStrike(s, u, kind)
    requires RankFits(Ranked(s.boss.value.damageRank, u, damage), s.players)
    ensures Keeps(Land(s, u, kind, damage))
  {
    hide Sane, Ranked, Recoil, Kill, Slay;
    var b, p := s.boss.value, s.players[u];
    var left, rank := b.weight - damage, Ranked(b.damageRank, u, damage);
    OnePlayer(s, u);
    RecoilLeavesAlive(left, p.kun.value.weight);
    var struck := Weigh(StrikeCost(kind, p), p.kun.value.weight - Recoil(left, p.kun.value.weight));
    if left <= 0.0 {
      SlayKeeps(s, u, struck, rank);
    } else {
      PutKeeps(s, u, struck);
      BossKeeps(Put(s, u, struck), b.(weight := left, damageRank := rank));
    }
  }

  lemma SlayKeeps(s: State, u: UserId, struck: Player, rank: seq<Damage>)
    requires Sane(s) && u in s.players && s.boss.Some? && !IsSeller(s, u)
    requires WellFormedPlayer(struck) && RankFits(rank, s.players)
    ensures Keeps(Slay(s, u, struck, rank))
  {
    hide Sane, TopFive;
    var slain := s.boss.value.(weight := 0.0, alive := false, killer := Some(u), damageRank := rank);
    var prize := struck.(eggs := struck.eggs + 20, jieCao := struck.jieCao + 100);
    PutKeeps(s, u, prize);
    BossKeeps(Put(s, u, prize), slain);
    if Slay(s, u, struck, rank).Done? {
      PayEachKeeps(Put(s, u, prize).(boss := Some(slain)), TopFive(rank));
    }
  }

  lemma RankKnown(s: State, rank: seq<Damage>, u: UserId)
    requires WellFormed(s) && s.boss.Some? && u in s.players
    requires forall x :: x in RankedIds(rank) ==> x in RankedIds(s.boss.value.damageRank) || x == u
    ensures forall i :: 0 <= i < |rank| ==> rank[i].who in s.players
  {
    forall i | 0 <= i < |rank| ensures rank[i].who in s.players {
      assert RankedIds(rank)[i] in RankedIds(rank);
    }
  }

  /* ---- Auction, mini-games and management ---- */

  lemma SellKeeps(s: State, u: UserId, c: Count, now: int)
    requires Sane(s) && u in s.players
    ensures Keeps(SellRule(s, u, c, now))
  {
    var p := s.players[u];
    if SellRule(s, u, c, now).Done? {
      OnePlayer(s, u);
      PutKeeps(s, u, p.(kun := None));
    }
  }

  lemma BidKeeps(s: State, u: UserId, c: Count)
    requires Sane(s) && u in s.players
    ensures Keeps(BidRule(s, u, c))
  {}

  lemma DealKeeps(s: State, u: UserId)
    requires Sane(s) && u in s.players
    ensures Keeps(DealRule(s, u))
  {
    if DealRule(s, u).Done? {
      var a := s.auction.value;
      OnePlayer(s, u);
      OnePlayer(s, a.bidder.value);
      var after := DealRule(s, u).state;
      assert after.players == s.players[u := after.players[u]][a.bidder.value := after.players[a.bidder.value]];
      EscrowedKun(s);
      ChangeKeeps(s.(auction := None), u, a.bidder.value, after);
    }
  }

  lemma EscrowedKun(s: State)
    requires Sane(s) && s.auction.Some?
    ensures WellFormedKun(s.auction.value.kun) && Sane(s.(auction := None))
    ensures s.auction.value.bidder.Some? ==> s.auction.value.bidder.value != s.auction.value.seller
    ensures s.auction.value.bidder.Some? ==> s.auction.value.bidder.value in s.players
  {}

  lemma RestoreKeeps(s: State)
    requires Sane(s)
    ensures RestoreRule(s).Done? && Sane(RestoreRule(s).state)
  {
    if s.auction.Some? {
      var a := s.auction.value;
      PutKeeps(s.(auction := None), a.seller, s.players[a.seller].(kun := Some(a.kun)));
    }
  }

  lemma JoinKeeps(g: MiniGame, u: UserId, players: map<UserId, Player>)
    requires WellFormedMiniGame(g, players) && g.slotsUsed < g.maxSlots
    requires u in players && u !in g.participants
    ensures WellFormedMiniGame(Join(g, u), players)
  {}

  lemma MiniGameKeeps(s: State, g: Option<MiniGame>)
    requires Sane(s)
    requires g.Some? ==> WellFormedMiniGame(g.value, s.players)
    ensures Sane(s.(miniGame := g))
  {}

  lemma StartGameKeeps(s: State, kind: AnswerKind, t: Tape)
    requires Sane(s)
    ensures Keeps(StartGameRule(s, kind, t))
  {
    hide Sane, AnswerText;
    MiniGameKeeps(s, Some(NewGame(kind, if kind == Stars then 2 else 5, AnswerText(kind, t))));
  }

  lemma OpenGame(s: State)
    requires Sane(s) && s.miniGame.Some?
    ensures WellFormedMiniGame(s.miniGame.value, s.players)
  {}

  lemma AnswerKeeps(s: State, u: UserId, text: string, t: Tape)
    requires Sane(s) && u in s.players
    ensures Keeps(AnswerRule(s, u, text, t))
  {
    hide Sane;
    var o := AnswerRule(s, u, text, t);
    if o.Done? {
      OnePlayer(s, u);
      OpenGame(s);
      JoinKeeps(s.miniGame.value, u, s.players);
      var g := if text == s.miniGame.value.answer then None else o.state.miniGame;
      MiniGameKeeps(s, g);
      PutKeeps(s.(miniGame := g), u, o.state.players[u]);
    }
  }

  // A newcomer slaps although every slot of the brawl is taken.
  predicate Overfull(s: State, u: UserId, c: PlayCommand) {
    && c.Slap? && s.miniGame.Some? && s.miniGame.value.kind == Brawl
    && s.miniGame.value.slotsUsed >= s.miniGame.value.maxSlots && u !in s.miniGame.value.participants
  }

  lemma SlapKeeps(s: State, u: UserId, t: Tape)
    requires Sane(s) && u in s.players && SlapRule(s, u, t).Done?
    ensures Sane(SlapRule(s, u, t).state) <==> !Overfull(s, u, Slap)
    ensures WellFormed(SlapRule(s, u, t).state) <==> !Overfull(s, u, Slap)
  {
    var o := SlapRule(s, u, t);
    if s.miniGame.Some? && !Overfull(s, u, Slap) {
      OnePlayer(s, u);
      if u !in s.miniGame.value.participants {
        JoinKeeps(s.miniGame.value, u, s.players);
      }
      MiniGameKeeps(s, o.state.miniGame);
      PutKeeps(s.(miniGame := o.state.miniGame), u, o.state.players[u]);
    }
  }

  lemma DuelKeeps(s: State, u: UserId, t: Tape)
    requires Sane(s) && u in s.players
    ensures Keeps(DuelRule(s, u, t))
  {
    hide Sane;
    var o := DuelRule(s, u, t);
    if o.Done? {
      OnePlayer(s, u);
      ChampionKeeps(s, o.state.champion);
      PutKeeps(s.(champion := o.state.champion), u, o.state.players[u]);
      assert o.state.players == s.players[u := o.state.players[u]];
    }
  }

  lemma ChampionKeeps(s: State, c: Option<Champion>)
    requires Sane(s)
    ensures s.champion.Some? ==> 0 <= s.champion.value.consecutive && s.champion.value.uid in s.players
    ensures (c.Some? ==> 0 <= c.value.consecutive && c.value.uid in s.players) ==> Sane(s.(champion := c))
  {}

  lemma EditKeeps(s: State, target: Option<UserId>, edit: Edit)
    requires Sane(s)
    ensures Keeps(EditRule(s, target, edit))
  {
    hide Sane;
    var o := EditRule(s, target, edit);
    if o.Done? {
      OnePlayer(s, target.value);
      EditedIsWellFormed(s, target.value, edit);
      hide EditRule, WellFormedPlayer;
      PutKeeps(s, target.value, o.state.players[target.value]);
    }
  }

  // An accepted edit writes one player, who is well formed and, if a seller, holds no kun.
  lemma EditedIsWellFormed(s: State, u: UserId, edit: Edit)
    requires EditRule(s, Some(u), edit).Done? && u in s.players && WellFormedPlayer(s.players[u])
    requires IsSeller(s, u) ==> s.players[u].kun.None?
    ensures
      var after := EditRule(s, Some(u), edit).state;
      && u in after.players && after == Put(s, u, after.players[u])
      && WellFormedPlayer(after.players[u])
      && (IsSeller(s, u) ==> after.players[u].kun.None?)
  {
    var after := EditRule(s, Some(u), edit).state;
    assert after == Put(s, u, after.players[u]) && u in after.players;
    match edit {
      case EditKun(_) =>
      case EditAttribute(_) =>
      case EditWeight(_, _) =>
      case EditResource(resource, _, _) =>
      case EditUnknown =>
    }
  }

  // The daily reset also shortens a death list that is too long.
  lemma NewDayKeeps(s: State, date: string)
    requires WellFormed(s) && RankedOnce(s)
    ensures Sane(NewDay(s, date))
  {
    var after := NewDay(s, date);
    forall u | u in after.players ensures WellFormedPlayer(after.players[u]) {
      assert WellFormedPlayer(s.players[u]);
    }
  }

  lemma DefaultKeeps(gid: string)
    ensures Invariant(DefaultState(gid)) && WithinCaps(DefaultState(gid))
  {}

  lemma AdminKeeps(s: State, r: Request, a: AdminCommand)
    requires Sane(s)
    ensures Keeps(AdminRule(s, r, a))
  {
    match a {
      case SwitchKun(_) =>
      case SwitchGames(_) =>
      case RefreshBoss => BossKeeps(s, NewBoss(r.tape));
      case ResetRound => RestoreKeeps(s);
      case ClearAll(_) => NewDayKeeps(DefaultState(s.gid), r.date);
      case ForceDelist => RestoreKeeps(s);
      case EditPlayer(target, edit) => EditKeeps(s, target, edit);
      case OtherAdmin =>
    }
  }

  lemma PlayKeeps(s: State, r: Request, c: PlayCommand)
    requires Sane(s) && r.user in s.players && PlayerRule(s, r, c).Done?
    ensures Sane(PlayerRule(s, r, c).state) <==> !Overfull(s, r.user, c)
    ensures WellFormed(PlayerRule(s, r, c).state) <==> !Overfull(s, r.user, c)
  {
    hide CheckAttributesRule, HatchRule, BuyEggsRule, SmashEggsRule, FeedRule, TrainRule, EvolveRule, DrinkSoupRule,
      TribulationRule, ReleaseRule, ResurrectRule, SignInRule, PvpRule, StrikeBossRule, SellRule, BidRule, DealRule,
      StartGameRule, SlapRule, DuelRule, AnswerRule, Touches, Sane;
    SaneIsWellFormed(PlayerRule(s, r, c).state);
    match c {
      case Feed(n) => FeedKeeps(s, r.user, n, r.tape);
      case Train(amount) => TrainKeeps(s, r.user, amount, r.cfg, r.tape);
      case Tribulation => TribulationKeeps(s, r.user, r.cfg, r.tape);
      case Pvp(kind, mentions) => PvpKeeps(s, r.user, kind, mentions, r.tape);
      case StrikeBoss(kind) => StrikeKeeps(s, r.user, kind, r.tape);
      case Sell(n) => SellKeeps(s, r.user, n, r.instant);
      case Bid(n) => BidKeeps(s, r.user, n);
      case StartGame(kind) => StartGameKeeps(s, kind, r.tape);
      case Deal => DealKeeps(s, r.user);
      case AnswerGame(text) => AnswerKeeps(s, r.user, text, r.tape);
      case Slap => SlapKeeps(s, r.user, r.tape);
      case Duel => DuelKeeps(s, r.user, r.tape);
      case SignIn => CountersKeep(s, r.user, r.date, Missing, r.cfg, r.tape);
      case CheckAttributes => OwnKunKeeps(s, r.user, r.tape);
      case Hatch => HatchKeeps(s, r.user, r.cfg, r.tape);
      case BuyEggs(n) => CountersKeep(s, r.user, r.date, n, r.cfg, r.tape);
      case SmashEggs(n) => SmashKeeps(s, r.user, n, r.tape);
      case DrinkSoup(n) => CountersKeep(s, r.user, r.date, n, r.cfg, r.tape);
      case Release => OwnKunKeeps(s, r.user, r.tape);
      case Resurrect => RenewedKunKeeps(s, r.user, r.tape);
      case Evolve => RenewedKunKeeps(s, r.user, r.tape);
      case _ =>
    }
  }

  lemma SaneIsWellFormed(s: State)
    ensures Sane(s) ==> WellFormed(s) && RankedOnce(s)
  {}

  // The state in which the command itself is carried out.
  function Prepared(s: State, r: Request): State {
    var today := NewDay(s, r.date);
    if r.action.Play? then Enter(today, r.user, r.date, r.cfg) else today
  }

  lemma PreparedKeeps(s: State, r: Request)
    requires WellFormed(s) && RankedOnce(s)
    ensures Sane(Prepared(s, r)) && (Live(s) ==> Live(Prepared(s, r)))
    ensures Prepared(s, r).miniGame == s.miniGame && Prepared(s, r).auction == s.auction
    ensures r.action.Play? ==> r.user in Prepared(s, r).players
  {
    var today := NewDay(s, r.date);
    NewDayKeeps(s, r.date);
    if r.user !in today.players {
      PutKeeps(today, r.user, DefaultPlayer(r.date, r.cfg));
    }
  }

  predicate BreaksValidator(s: State, r: Request) {
    r.action.Play? && Overfull(s, r.user, r.action.command)
  }

  /**
   The validator's checks are kept by every accepted command but one: a newcomer's slap at a brawl
   whose slots are all taken, which always breaks them.
   */
  lemma ValidatorKeptExactly(s: State, scope: ScopeType, r: Request)
    requires WellFormed(s) && RankedOnce(s) && Perform(s, scope, r).Done?
    ensures WellFormed(Perform(s, scope, r).state) <==> !BreaksValidator(s, r)
    ensures Sane(Perform(s, scope, r).state) <==> !BreaksValidator(s, r)
  {
    PreparedKeeps(s, r);
    hide Sane, WellFormed, PlayerRule, AdminRule;
    SaneIsWellFormed(Perform(s, scope, r).state);
    match r.action {
      case Play(c) => PlayKeeps(Prepared(s, r), r, c);
      case Manage(a) => AdminKeeps(Prepared(s, r), r, a);
    }
  }

  // Only trading and mini-games can touch what makes a state live, and they keep it.
  lemma PlayStaysLive(s: State, r: Request, c: PlayCommand)
    requires Sane(s) && Live(s) && r.user in s.players && PlayerRule(s, r, c).Done?
    ensures Live(PlayerRule(s, r, c).state)
  {
    if c.Sell? || c.Bid? || c.Deal? {
      TradeStaysLive(s, r, c);
    } else if c.StartGame? || c.AnswerGame? || c.Slap? {
      GameStaysLive(s, r, c);
    } else {
      hide PlayerRule, Sane;
      PlayFrame(s, r, c);
    }
  }

  lemma TradeStaysLive(s: State, r: Request, c: PlayCommand)
    requires Live(s) && r.user in s.players && PlayerRule(s, r, c).Done? && (c.Sell? || c.Bid? || c.Deal?)
    ensures Live(PlayerRule(s, r, c).state)
  {}

  lemma GameStaysLive(s: State, r: Request, c: PlayCommand)
    requires Sane(s) && Live(s) && r.user in s.players && PlayerRule(s, r, c).Done?
    requires c.StartGame? || c.AnswerGame? || c.Slap?
    ensures Live(PlayerRule(s, r, c).state)
  {
    hide StartGameRule, AnswerRule, SlapRule, Sane, Live;
    match c {
      case StartGame(kind) => StartStaysLive(s, kind, r.tape);
      case AnswerGame(text) => AnswerStaysLive(s, r.user, text, r.tape);
      case Slap => SlapStaysLive(s, r.user, r.tape);
    }
  }

  lemma StartStaysLive(s: State, kind: AnswerKind, t: Tape)
    requires Live(s)
    ensures StartGameRule(s, kind, t).Done? ==> Live(StartGameRule(s, kind, t).state)
  {
    hide AnswerText;
  }

  lemma AnswerStaysLive(s: State, u: UserId, text: string, t: Tape)
    requires Live(s) && u in s.players
    ensures AnswerRule(s, u, text, t).Done? ==> Live(AnswerRule(s, u, text, t).state)
  {
    hide RandInt;
  }

  lemma SlapStaysLive(s: State, u: UserId, t: Tape)
    requires Live(s) && u in s.players
    ensures SlapRule(s, u, t).Done? ==> Live(SlapRule(s, u, t).state)
  {
    hide RandInt;
  }

  lemma AdminStaysLive(s: State, r: Request, a: AdminCommand)
    requires Live(s) && AdminRule(s, r, a).Done?
    ensures Live(AdminRule(s, r, a).state)
  {
    hide NewBoss;
    if !a.ResetRound? && !a.ClearAll? && !a.ForceDelist? {
      hide AdminRule;
      AdminFrame(s, r, a);
    }
  }

  /** One command of any kind keeps the invariant, whatever is drawn. */
  lemma PerformKeeps(s: State, scope: ScopeType, r: Request)
    requires Invariant(s)
    ensures Perform(s, scope, r).Done? ==> Invariant(Perform(s, scope, r).state)
  {
    if Perform(s, scope, r).Done? {
      hide WellFormed, PlayerRule, AdminRule;
      PreparedKeeps(s, r);
      ValidatorKeptExactly(s, scope, r);
      hide Sane;
      match r.action {
        case Play(c) => PlayStaysLive(Prepared(s, r), r, c);
        case Manage(a) => AdminStaysLive(Prepared(s, r), r, a);
      }
    }
  }
}
