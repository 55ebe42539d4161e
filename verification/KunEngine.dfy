/**
 The engine as it runs: one object per invocation, whose methods update the state in place.

 Each method is proved against the rule of the same name. It answers false where the engine
 raises its rejection; the working copy is then thrown away, so nothing is promised about it.
 */
module KunEngine {
  import opened Common
  import opened KunState
  import opened KunRules

  class Engine {
    const cfg: Config
    const tape: Tape
    const date: string
    const now: int
    const scope: ScopeType

    var drawn: nat
    var state: State

    constructor (s: State, scope: ScopeType, r: Request)
      ensures state == s && drawn == 0
      ensures this.scope == scope && cfg == r.cfg && tape == r.tape && date == r.date && now == r.instant
    {
      this.scope, cfg, tape, date, now := scope, r.cfg, r.tape, r.date, r.instant;
      state, drawn := s, 0;
    }

    // ok and the state after agree with what the rule says.
    ghost predicate Agrees(ok: bool, o: Outcome)
      reads this
    {
      ok == o.Done? && (ok ==> state == o.state)
    }

    /* ---- Draws ---- */

    method Random() returns (x: Unit)
      modifies this`drawn
      ensures x == Chance(tape, old(drawn)) && drawn == old(drawn) + 1
    {
      x := Chance(tape, drawn);
      drawn := drawn + 1;
    }

    method DrawInt(lo: int, hi: int) returns (x: int)
      requires lo <= hi
      modifies this`drawn
      ensures x == RandInt(tape, old(drawn), lo, hi) && drawn == old(drawn) + 1
    {
      x := RandInt(tape, drawn, lo, hi);
      drawn := drawn + 1;
    }

    method DrawReal(lo: real, hi: real) returns (x: real)
      requires lo <= hi
      modifies this`drawn
      ensures x == Uniform(tape, old(drawn), lo, hi) && drawn == old(drawn) + 1
    {
      x := Uniform(tape, drawn, lo, hi);
      drawn := drawn + 1;
    }

    method Pick<T>(options: seq<T>) returns (x: T)
      requires options != []
      modifies this`drawn
      ensures x == Choose(tape, old(drawn), options) && drawn == old(drawn) + 1
    {
      x := Choose(tape, drawn, options);
      drawn := drawn + 1;
    }

    /* ---- Bookkeeping ---- */

    method TrimDeathList()
      modifies this`state
      ensures state == old(state).(deathList := Trim(old(state).deathList))
    {
      if |state.deathList| > DEATH_LIST_LIMIT {
        state := state.(deathList := state.deathList[|state.deathList| - DEATH_LIST_LIMIT..]);
      }
    }

    method NewDayReset()
      modifies this
      ensures state == NewDay(old(state), date) && drawn == old(drawn)
    {
      TrimDeathList();
      if state.lastBossDate != date {
        state := state.(boss := None);
        state := state.(lastBossDate := date);
      }
      RenewPlayers();
    }

    method RenewPlayers()
      modifies this`state
      ensures state == old(state).(players := map u | u in old(state).players :: Renewed(old(state).players[u], date))
    {
      var players := state.players;
      var waiting := players.Keys;
      while waiting != {}
        invariant waiting <= players.Keys == old(state).players.Keys
        invariant forall u :: u in players ==>
          players[u] == if u in waiting then old(state).players[u] else Renewed(old(state).players[u], date)
        decreases waiting
      {
        var u :| u in waiting;
        if players[u].lastSignDate != date {
          players := players[u := players[u].(signedToday := false, todayTrain := 0, lastSignDate := date)];
        }
        waiting := waiting - {u};
      }
      assert players == map u | u in old(state).players :: Renewed(old(state).players[u], date);
      state := state.(players := players);
    }

    // The player of this user, created on first contact.
    method PlayerOf(u: UserId)
      modifies this`state
      ensures state == Enter(old(state), u, date, cfg) && u in state.players
    {
      if u !in state.players {
        state := Put(state, u, DefaultPlayer(date, cfg));
      }
    }

    method KillKun(u: UserId, killer: Option<UserId>)
      requires u in state.players && state.players[u].kun.Some?
      modifies this`state
      ensures state == Kill(old(state), u, killer)
    {
      var kun := state.players[u].kun.value;
      kun := kun.(alive := false);
      kun := kun.(weight := MaxReal(0.0, kun.weight));
      kun := kun.(killer := killer);
      state := Put(state, u, state.players[u].(kun := Some(kun)));
      state := state.(deathList := state.deathList + [u]);
      TrimDeathList();
    }

    method SetWeight(u: UserId, weight: real)
      requires u in state.players && state.players[u].kun.Some?
      modifies this`state
      ensures state == Put(old(state), u, Weigh(old(state).players[u], weight))
    {
      state := Put(state, u, state.players[u].(kun := Some(state.players[u].kun.value.(weight := weight))));
    }

    /* ---- Raising a kun ---- */

    method SignIn(u: UserId)
      requires u in state.players && drawn == 0
      modifies this
      ensures state == SignInRule(old(state), u, date, tape)
    {
      var p := state.players[u];
      if p.signedToday {
        p := p.(jieCao := Max(0, p.jieCao - 10));
      } else {
        p := p.(signedToday := true, lastSignDate := date);
        p := p.(jieCao := p.jieCao + 10, todayTrain := 0);
        p := p.(luck := Min(100, p.luck + 5));
        var bonus := DrawInt(1, 3);
        p := p.(eggs := p.eggs + bonus);
      }
      state := Put(state, u, p);
    }

    method CheckAttributes(u: UserId) returns (ok: bool)
      requires u in state.players
      modifies this
      ensures Agrees(ok, CheckAttributesRule(old(state), u))
    {
      if state.players[u].kun.None? {
        return false;
      }
      var kun := state.players[u].kun.value;
      if kun.alive && kun.attribute == Liang && kun.weight < 666.0 {
        SetWeight(u, 1000.0);
      }
      return true;
    }

    method HeaviestLiving() returns (top: real)
      ensures top == TopWeight(state.players)
    {
      var waiting, found := state.players.Keys, false;
      top := 1000.0;
      while waiting != {}
        invariant waiting <= state.players.Keys
        invariant !found ==>
          top == 1000.0 && forall v :: v in state.players && v !in waiting ==> !Living(state.players[v])
        invariant found ==>
          && (exists v :: v in state.players && v !in waiting && Living(state.players[v])
                          && state.players[v].kun.value.weight == top)
          && (forall v :: v in state.players && v !in waiting && Living(state.players[v]) ==>
                state.players[v].kun.value.weight <= top)
        decreases waiting
      {
        var u :| u in waiting;
        waiting := waiting - {u};
        if Living(state.players[u]) {
          if !found || top < state.players[u].kun.value.weight {
            top := state.players[u].kun.value.weight;
          }
          found := true;
        }
      }
      assert IsTopWeight(state.players, top);
    }

    method Hatch(u: UserId) returns (ok: bool)
      requires u in state.players && drawn == 0
      modifies this
      ensures Agrees(ok, HatchRule(old(state), u, cfg, tape))
    {
      hide Touches, Chance, RandInt, Uniform, Choose, TopWeight, IsTopWeight, Living, IsSeller;
      if IsSeller(state, u) || Living(state.players[u]) || state.players[u].eggs <= 0 {
        return false;
      }
      var p := state.players[u];
      p := p.(eggs := p.eggs - 1, todayTrain := 0);
      var attribute, weight := Sorrow, 0.0;
      var misfortune := Random();
      if misfortune <= cfg.hatchMisfortuneRate {
        var top := HeaviestLiving();
        weight := top + 1000.0;
      } else {
        attribute := Pick(HATCHABLE);
        var start := DrawInt(50, 200);
        weight := start as real;
      }
      var name := DrawInt(0, KUN_NAME_COUNT - 1);
      state := Put(state, u, p.(kun := Some(Kun(name, weight, attribute, true, None))));
      return true;
    }

    method BuyEggs(u: UserId, c: Count) returns (ok: bool)
      requires u in state.players
      modifies this
      ensures Agrees(ok, BuyEggsRule(old(state), u, c, cfg))
    {
      var count := PositiveInt(c, 1, INPUT_COUNT_LIMIT);
      if count.None? {
        return false;
      }
      var cost := count.value * cfg.eggPrice;
      var p := state.players[u];
      if p.jieCao < cost {
        return false;
      }
      p := p.(jieCao := p.jieCao - cost);
      p := p.(eggs := p.eggs + count.value);
      state := Put(state, u, p);
      return true;
    }

    method SmashEggs(u: UserId, c: Count) returns (ok: bool)
      requires u in state.players && drawn == 0
      modifies this
      ensures Agrees(ok, SmashEggsRule(old(state), u, c, tape))
    {
      hide Touches, Chance, Smash, LuckAfter, Put, Drops.Total;
      var count := PositiveInt(c, 1, INPUT_COUNT_LIMIT);
      var p := state.players[u];
      if count.None? || p.eggs < count.value {
        return false;
      }
      var drops := SmashAll(count.value, p.luck);
      p := p.(eggs := p.eggs - count.value);
      p := Pocket(p, drops);
      p := p.(luck := LuckAfter(p.luck, drops));
      assert p == Smashed(state.players[u], count.value, tape);
      hide Smashed, Pocket;
      state := Put(state, u, p);
      return true;
    }

    method SmashAll(eggs: nat, luck: int) returns (drops: Drops)
      requires drawn == 0
      modifies this`drawn
      ensures (drops, drawn) == Smash(eggs, luck, tape)
    {
      hide OneDrop, Chance, Drops.Total;
      drops := Drops(0, 0, 0, 0);
      for i := 0 to eggs
        invariant (drops, drawn) == Smash(i, luck, tape)
      {
        var lucky := Random();
        if lucky >= luck as real / 200.0 {
          continue;
        }
        var roll := Random();
        drops := OneDrop(drops, roll);
      }
    }

    // The player's new record, unless its kun is a glutton that bursts.
    method Grow(u: UserId, p: Player)
      requires u in state.players && p.kun.Some?
      modifies this`state
      ensures state == Grown(old(state), u, p)
    {
      state := Put(state, u, p);
      if p.kun.value.attribute == Glutton && p.kun.value.weight > 1000.0 {
        KillKun(u, None);
      }
    }

    method Feed(u: UserId, c: Count) returns (ok: bool)
      requires u in state.players && drawn == 0
      modifies this
      ensures Agrees(ok, FeedRule(old(state), u, c, tape))
    {
      hide Touches, Chance, RandInt, Uniform, Choose, Grown;
      var p := state.players[u];
      if !Living(p) || IsSeller(state, u) {
        return false;
      }
      var count := PositiveInt(c, 1, INPUT_COUNT_LIMIT);
      if count.None? || p.eggs < count.value {
        return false;
      }
      p := p.(eggs := p.eggs - count.value);
      var portion := DrawInt(5, 15);
      var gain := count.value * portion;
      Grow(u, Weigh(p, p.kun.value.weight + gain as real));
      return true;
    }

    method Train(u: UserId, amount: Option<real>) returns (ok: bool)
      requires u in state.players && drawn == 0
      modifies this
      ensures Agrees(ok, TrainRule(old(state), u, amount, cfg, tape))
    {
      hide Touches, Chance, RandInt, Uniform, Choose, Grown;
      var p := state.players[u];
      if !Living(p) || IsSeller(state, u) || amount.None? || !(0.0 < amount.value <= WEIGHT_LIMIT) {
        return false;
      }
      var w := p.kun.value.weight;
      if amount.value >= w || p.todayTrain >= cfg.trainDailyMax || p.jieCao < 2 {
        return false;
      }
      var cost := 2;
      if p.kun.value.attribute == Greedy {
        var free := Random();
        if free < 0.7 {
          cost := 0;
        }
      }
      p := p.(jieCao := p.jieCao - cost);
      p := p.(todayTrain := p.todayTrain + 1);
      var success := Random();
      if success < amount.value / w {
        state := Put(state, u, Weigh(p, w - amount.value));
        return true;
      }
      Grow(u, Weigh(p, w + (w - amount.value)));
      return true;
    }

    method Evolve(u: UserId) returns (ok: bool)
      requires u in state.players && drawn == 0
      modifies this
      ensures Agrees(ok, EvolveRule(old(state), u, tape))
    {
      hide Touches, Chance, RandInt, Uniform, Choose, Available, IsSeller;
      var p := state.players[u];
      if !Living(p) || IsSeller(state, u) || p.kun.value.attribute == Sorrow || p.phantomPills <= 0 {
        return false;
      }
      p := p.(phantomPills := p.phantomPills - 1);
      var attribute := Pick(Available(p.kun.value.attribute));
      var failure := Random();
      if failure < 0.6 {
        var kun := p.kun.value;
        var cost := if kun.attribute == Glutton then 0.0 else 10.0;
        kun := kun.(attribute := attribute);
        kun := kun.(weight := MaxReal(1.0, kun.weight - cost));
        p := p.(kun := Some(kun));
      }
      state := Put(state, u, p);
      return true;
    }

    method DrinkSoup(u: UserId, c: Count) returns (ok: bool)
      requires u in state.players
      modifies this
      ensures Agrees(ok, DrinkSoupRule(old(state), u, c))
    {
      var count := PositiveInt(c, 1, INPUT_COUNT_LIMIT);
      var p := state.players[u];
      if count.None? || p.chickenSoup < count.value {
        return false;
      }
      p := p.(chickenSoup := p.chickenSoup - count.value);
      p := p.(jieCao := p.jieCao + count.value);
      state := Put(state, u, p);
      return true;
    }

    method Tribulation(u: UserId) returns (ok: bool)
      requires u in state.players && drawn == 0
      modifies this
      ensures Agrees(ok, TribulationRule(old(state), u, cfg, tape))
    {
      hide Touches, Chance, RandInt, Uniform, Choose;
      var p := state.players[u];
      if !Living(p) || IsSeller(state, u) || p.kun.value.attribute == Plain || p.jieCao < cfg.tribulationCost {
        return false;
      }
      p := p.(jieCao := p.jieCao - cfg.tribulationCost);
      var fate := Random();
      if fate < 0.5 {
        var factor := DrawReal(1.5, 3.0);
        var weight := p.kun.value.weight * factor;
        assert weight == Ascended(old(state).players[u].kun.value.weight, tape);
        state := Put(state, u, Weigh(p, weight));
        return true;
      }
      state := Put(state, u, p);
      KillKun(u, None);
      return true;
    }

    method Release(u: UserId) returns (ok: bool)
      requires u in state.players && drawn == 0
      modifies this
      ensures Agrees(ok, ReleaseRule(old(state), u, tape))
    {
      var p := state.players[u];
      if !Living(p) || IsSeller(state, u) {
        return false;
      }
      var bonus := 0;
      if p.kun.value.attribute == Greedy {
        bonus := DrawInt(2, 10);
      }
      p := p.(jieCao := p.jieCao + 2);
      p := p.(eggs := p.eggs + bonus);
      p := p.(kun := None);
      state := Put(state, u, p);
      return true;
    }

    method Resurrect(u: UserId) returns (ok: bool)
      requires u in state.players && drawn == 0
      modifies this
      ensures Agrees(ok, ResurrectRule(old(state), u, tape))
    {
      var p := state.players[u];
      if IsSeller(state, u) || p.kun.None? || p.kun.value.alive || p.resurrectionPills <= 0
         || p.kun.value.attribute != Plain {
        return false;
      }
      p := p.(resurrectionPills := p.resurrectionPills - 1);
      var weight := DrawInt(50, 200);
      p := p.(kun := Some(p.kun.value.(alive := true, killer := None, weight := weight as real)));
      state := Put(state, u, p);
      return true;
    }

    /* ---- Player against player ---- */

    method Devour(u: UserId, v: UserId) returns (ok: bool)
      requires u in state.players && v in state.players && u != v && drawn == 0
      requires state.players[u].kun.Some? && state.players[v].kun.Some?
      modifies this
      ensures Agrees(ok, DevourRule(old(state), u, v, tape))
    {
      hide Touches, Chance, RandInt, Uniform, Choose, Bite, DevourRate;
      var attacker, defender := state.players[u].kun.value, state.players[v].kun.value;
      if defender.attribute == Mei || attacker.attribute == Glutton || attacker.weight < defender.weight * 0.3 {
        return false;
      }
      var critical := false;
      if attacker.attribute == Wrath {
        var rage := Random();
        critical := rage < 0.25;
      }
      var luck := Random();
      if luck >= DevourRate(attacker, defender) {
        SetWeight(u, attacker.weight - attacker.weight * 0.2);
        if state.players[u].kun.value.weight <= 0.0 {
          KillKun(u, None);
        }
        return true;
      }
      var damage := attacker.weight * 1.5;
      if !critical {
        var bite := DrawReal(0.3, 0.6);
        damage := attacker.weight * bite;
      }
      assert damage == BiteDamage(attacker, critical, tape, if attacker.attribute == Wrath then 2 else 1);
      BiteInto(u, v, damage, critical);
      return true;
    }

    method BiteInto(u: UserId, v: UserId, damage: real, critical: bool)
      requires u in state.players && v in state.players && u != v
      requires state.players[u].kun.Some? && state.players[v].kun.Some?
      modifies this
      ensures state == Bite(old(state), u, v, damage, critical, tape, old(drawn))
    {
      hide Touches, Chance, RandInt, Uniform, Choose, Kill, Swallow;
      var attacker, defender := state.players[u].kun.value, state.players[v].kun.value;
      var left := defender.weight - damage;
      if left <= 0.0 || critical {
        SwallowWhole(u, v, MaxReal(0.0, left));
      } else {
        SetWeight(v, left);
        SetWeight(u, attacker.weight + damage);
      }
      if defender.attribute == Lust {
        var revenge := Random();
        if revenge < 0.75 {
          KillKun(u, None);
          return;
        }
      }
      if !(left <= 0.0 || critical) {
        MaybeLayEgg(u);
      }
    }

    method SwallowWhole(u: UserId, v: UserId, rest: real)
      requires u in state.players && v in state.players && u != v
      requires state.players[u].kun.Some? && state.players[v].kun.Some?
      modifies this`state
      ensures state == Swallow(old(state), u, v, rest)
    {
      hide Touches, Chance, RandInt, Uniform, Choose;
      SetWeight(v, rest);
      SetWeight(u, state.players[u].kun.value.weight + state.players[v].kun.value.weight);
      KillKun(v, Some(u));
    }

    method MaybeLayEgg(u: UserId)
      requires u in state.players && state.players[u].kun.Some?
      modifies this`state, this`drawn
      ensures state == Put(old(state), u, LayEgg(old(state).players[u], tape, old(drawn)))
    {
      if state.players[u].kun.value.attribute == Greedy {
        var lay := Random();
        if lay < 0.3 {
          state := Put(state, u, state.players[u].(eggs := state.players[u].eggs + 1));
        }
      }
      assert state.players == old(state).players[u := LayEgg(old(state).players[u], tape, old(drawn))];
    }

    method Attack(u: UserId, v: UserId) returns (ok: bool)
      requires u in state.players && v in state.players && u != v && drawn == 0
      requires state.players[u].kun.Some? && state.players[v].kun.Some?
      modifies this
      ensures Agrees(ok, AttackRule(old(state), u, v, tape))
    {
      var attacker, defender := state.players[u].kun.value, state.players[v].kun.value;
      if defender.attribute == Wang || attacker.attribute == Glutton || attacker.weight < defender.weight * 0.3
         || (defender.attribute == Envy && defender.weight > attacker.weight) {
        return false;
      }
      var critical := false;
      if attacker.attribute == Wrath {
        var rage := Random();
        critical := rage < 0.25;
      }
      var force := DrawReal(0.1, 0.3);
      var damage := attacker.weight * force * (if critical then 1.5 else 1.0);
      assert damage == HitDamage(attacker, critical, tape, drawn - 1);
      HitFor(u, v, damage);
      return true;
    }

    method HitFor(u: UserId, v: UserId, damage: real)
      requires u in state.players && v in state.players && u != v
      requires state.players[u].kun.Some? && state.players[v].kun.Some?
      modifies this
      ensures state == Hit(old(state), u, v, damage, tape, old(drawn))
    {
      hide Touches, Chance, Kill;
      var attacker, defender := state.players[u].kun.value, state.players[v].kun.value;
      if defender.weight - damage <= 0.0 {
        SetWeight(v, 0.0);
        KillKun(v, Some(u));
        return;
      }
      SetWeight(v, defender.weight - damage);
      if attacker.attribute == Lust {
        var recover := Random();
        if recover < 0.25 {
          SetWeight(u, attacker.weight + attacker.weight * 0.5);
        } else {
          assert state.players[u := state.players[u]] == state.players;
        }
        return;
      }
      MaybeLayEgg(u);
    }

    method Assault(u: UserId, v: UserId) returns (ok: bool)
      requires u in state.players && v in state.players && u != v && drawn == 0
      requires state.players[u].kun.Some? && state.players[v].kun.Some?
      modifies this
      ensures Agrees(ok, AssaultRule(old(state), u, v, tape))
    {
      hide Touches, Chance, RandInt, Kill;
      var p := state.players[u];
      if p.divineWeapon <= 0 || state.players[v].kun.value.attribute == Chi {
        return false;
      }
      state := Put(state, u, p.(divineWeapon := p.divineWeapon - 1, jieCao := Max(0, p.jieCao - 2)));
      var dodge := Random();
      if dodge >= 0.7 {
        return true;
      }
      var damage := DrawInt(50, 300);
      var left := state.players[v].kun.value.weight - damage as real;
      if left <= 0.0 {
        SetWeight(v, 0.0);
        KillKun(v, Some(u));
      } else {
        SetWeight(v, left);
      }
      return true;
    }

    method ThrowEgg(u: UserId, v: UserId) returns (ok: bool)
      requires u in state.players && v in state.players && u != v && drawn == 0
      modifies this
      ensures Agrees(ok, ThrowEggRule(old(state), u, v, tape))
    {
      if state.players[u].eggs <= 0 {
        return false;
      }
      state := Put(state, u, state.players[u].(eggs := state.players[u].eggs - 1));
      var aim := Random();
      if aim < 0.5 {
        state := Put(state, v, state.players[v].(luck := Max(0, state.players[v].luck - 2)));
      }
      return true;
    }

    method PvpCommand(u: UserId, kind: PvpKind, mentions: seq<UserId>) returns (ok: bool)
      requires u in state.players && drawn == 0
      modifies this
      ensures Agrees(ok, PvpRule(old(state), u, kind, mentions, tape))
    {
      if !Living(state.players[u]) || IsSeller(state, u) {
        return false;
      }
      var target := SoleTarget(mentions, u);
      if target.None? || target.value !in state.players {
        return false;
      }
      var v := target.value;
      if kind == PvpKind.ThrowEgg {
        ok := ThrowEgg(u, v);
        return;
      }
      if !Living(state.players[v]) || IsSeller(state, v) {
        return false;
      }
      if kind == PvpKind.Devour {
        ok := Devour(u, v);
      } else if kind == PvpKind.Attack {
        ok := Attack(u, v);
      } else {
        ok := Assault(u, v);
      }
    }

    /* ---- The boss ---- */

    method StrikeBoss(u: UserId, kind: StrikeKind) returns (ok: bool)
      requires u in state.players && drawn == 0
      modifies this
      ensures Agrees(ok, StrikeBossRule(old(state), u, kind, tape))
    {
      hide Land;
      if state.boss.None? || !state.boss.value.alive || !Living(state.players[u]) || IsSeller(state, u)
         || Immune(kind) in state.boss.value.attributes {
        return false;
      }
      var kun, damage := state.players[u].kun.value, 0.0;
      if kind == StrikeAssault {
        if state.players[u].divineWeapon <= 0 {
          return false;
        }
        var hit := Random();
        if hit < 0.7 {
          var wound := DrawInt(50, 300);
          damage := wound as real;
        }
      } else {
        var critical := false;
        if kun.attribute == Wrath {
          var rage := Random();
          critical := rage < 0.25;
        }
        ghost var at := drawn;
        if kind == StrikeDevour {
          if critical {
            damage := kun.weight * 1.5;
          } else {
            var bite := DrawReal(0.3, 0.6);
            damage := kun.weight * bite;
          }
          assert damage == BiteDamage(kun, critical, tape, at);
        } else {
          var force := DrawReal(0.1, 0.3);
          damage := kun.weight * force;
          if critical {
            damage := damage * 1.5;
          }
          assert damage == HitDamage(kun, critical, tape, at);
        }
      }
      assert damage == RawDamage(kind, kun, tape);
      if kun.attribute == Pride {
        damage := damage * 1.5;
      }
      assert damage == StrikeDamage(kind, kun, tape);
      ok := LandOnBoss(u, kind, damage);
    }

    method LandOnBoss(u: UserId, kind: StrikeKind, damage: real) returns (ok: bool)
      requires u in state.players && state.boss.Some? && Living(state.players[u])
      modifies this
      ensures Agrees(ok, Land(old(state), u, kind, damage))
    {
      hide Touches, Chance, RandInt, Uniform, Choose, Slay, Kill, AddDamage;
      var p, b := StrikeCost(kind, state.players[u]), state.boss.value;
      b := b.(weight := b.weight - damage);
      if damage > 0.0 {
        b := b.(damageRank := AddDamage(b.damageRank, u, damage));
      }
      var reflected := MinReal(MaxReal(0.0, b.weight) * 0.1, p.kun.value.weight * 0.3);
      p := Weigh(p, p.kun.value.weight - reflected);
      if b.weight <= 0.0 {
        ok := SlayBoss(u, p, b.damageRank);
        return;
      }
      state := state.(boss := Some(b));
      if p.kun.value.weight <= 0.0 {
        state := Put(state, u, Weigh(p, 0.0));
        KillKun(u, Some("BOSS"));
      } else {
        state := Put(state, u, p);
      }
      return true;
    }

    method SlayBoss(u: UserId, struck: Player, rank: seq<Damage>) returns (ok: bool)
      requires u in state.players && state.boss.Some?
      modifies this`state
      ensures Agrees(ok, Slay(old(state), u, struck, rank))
    {
      hide Touches, Chance, RandInt, Uniform, Choose, TopFive;
      var b, p := state.boss.value, struck;
      b := b.(weight := 0.0, alive := false, killer := Some(u), damageRank := rank);
      p := p.(eggs := p.eggs + 20);
      p := p.(jieCao := p.jieCao + 100);
      state := Put(state, u, p).(boss := Some(b));
      ok := PayTopFive(rank);
    }

    // 300 节操 to each of the five that dealt most; a ranked stranger is refused.
    method PayTopFive(rank: seq<Damage>) returns (ok: bool)
      modifies this`state
      ensures ok <==> forall id :: id in TopFive(rank) ==> id in old(state).players
      ensures ok ==> state == old(state).(players := PayEach(old(state).players, TopFive(rank)))
    {
      hide TopFive, PayEach;
      var ranking := TopFive(rank);
      PayNobody(state.players);
      var i := 0;
      while i < |ranking|
        invariant 0 <= i <= |ranking|
        invariant forall id :: id in ranking[..i] ==> id in old(state).players
        invariant state == old(state).(players := PayEach(old(state).players, ranking[..i]))
      {
        var id := ranking[i];
        if id !in state.players {
          return false;
        }
        PayOneMore(old(state).players, ranking, i);
        state := Put(state, id, state.players[id].(jieCao := state.players[id].jieCao + 300));
        i := i + 1;
      }
      assert ranking[..i] == ranking;
      return true;
    }

    /* ---- The auction ---- */

    method Sell(u: UserId, c: Count) returns (ok: bool)
      requires u in state.players
      modifies this
      ensures Agrees(ok, SellRule(old(state), u, c, now))
    {
      if state.auction.Some? || !Living(state.players[u]) || state.players[u].kun.value.attribute == Plain
         || c.Missing? {
        return false;
      }
      var price := PositiveInt(c, 1, PRICE_LIMIT);
      if price.None? {
        return false;
      }
      var kun := state.players[u].kun.value;
      state := Put(state, u, state.players[u].(kun := None));
      state := state.(auction := Some(Auction(u, kun, price.value, price.value, None, now)));
      return true;
    }

    method Bid(u: UserId, c: Count) returns (ok: bool)
      requires u in state.players
      modifies this
      ensures Agrees(ok, BidRule(old(state), u, c))
    {
      if state.auction.None? || state.auction.value.seller == u || state.players[u].kun.Some? {
        return false;
      }
      var bid := PositiveInt(c, 1, PRICE_LIMIT);
      if bid.None? || bid.value <= state.auction.value.currentBid || state.players[u].jieCao < bid.value {
        return false;
      }
      state := state.(auction := Some(state.auction.value.(currentBid := bid.value, bidder := Some(u))));
      return true;
    }

    method Deal(u: UserId) returns (ok: bool)
      requires u in state.players
      modifies this
      ensures Agrees(ok, DealRule(old(state), u))
    {
      if state.auction.None? || state.auction.value.seller != u || state.auction.value.bidder.None? {
        return false;
      }
      var bidder, price := state.auction.value.bidder.value, state.auction.value.currentBid;
      if bidder !in state.players || state.players[bidder].kun.Some? || state.players[bidder].jieCao < price
         || state.players[u].kun.Some? {
        return false;
      }
      var s := Put(state, bidder, state.players[bidder].(jieCao := state.players[bidder].jieCao - price));
      s := Put(s, u, s.players[u].(jieCao := s.players[u].jieCao + price));
      s := Put(s, bidder, s.players[bidder].(kun := Some(s.auction.value.kun)));
      state := s.(auction := None);
      return true;
    }

    method RestoreAuction() returns (ok: bool)
      modifies this`state
      ensures Agrees(ok, RestoreRule(old(state)))
    {
      if state.auction.None? {
        return true;
      }
      var seller := state.auction.value.seller;
      if seller !in state.players || state.players[seller].kun.Some? {
        return false;
      }
      state := Put(state, seller, state.players[seller].(kun := Some(state.auction.value.kun)));
      state := state.(auction := None);
      return true;
    }

    method ForceDelist() returns (ok: bool)
      modifies this
      ensures Agrees(ok, ForceDelistRule(old(state), now))
    {
      if state.auction.None? || now - state.auction.value.startTime < 300 {
        return false;
      }
      ok := RestoreAuction();
    }

    method ResetRound() returns (ok: bool)
      modifies this
      ensures Agrees(ok, ResetRoundRule(old(state)))
    {
      ok := RestoreAuction();
      if !ok {
        return;
      }
      state := state.(boss := None, auction := None, deathList := [], miniGame := None, champion := None);
    }

    /* ---- Mini-games ---- */

    method StartGame(kind: AnswerKind) returns (ok: bool)
      requires drawn == 0
      modifies this
      ensures Agrees(ok, StartGameRule(old(state), kind, tape))
    {
      if !state.gameEnabled || state.miniGame.Some? {
        return false;
      }
      var answer := GameAnswer(kind);
      state := state.(miniGame := Some(NewGame(kind, if kind == Stars then 2 else 5, answer)));
      return true;
    }

    method GameAnswer(kind: AnswerKind) returns (answer: string)
      requires drawn == 0
      modifies this`drawn
      ensures answer == AnswerText(kind, tape)
    {
      hide Signed, Decimal, Reversed, HomeworkText;
      match kind {
        case Arithmetic =>
          var x := DrawInt(1, 99);
          var y := DrawInt(1, 99);
          var op := DrawInt(0, 2);
          answer := Signed(if op == 0 then x + y else if op == 1 then x - y else x * y);
        case Stars =>
          var hollow := DrawInt(5, 20);
          var black := DrawInt(1, Min(5, hollow));
          answer := Decimal(black);
        case Homework =>
          var length := DrawInt(4, 8);
          var question := HomeworkQuestion(length);
          answer := Reversed(question);
      }
    }

    method HomeworkQuestion(length: nat) returns (question: string)
      requires drawn == 1
      modifies this`drawn
      ensures question == HomeworkText(length, tape)
    {
      question := "";
      while |question| < length
        invariant |question| <= length && drawn == |question| + 1
        invariant question == HomeworkText(|question|, tape)
      {
        var letter := Pick(HOMEWORK_LETTERS);
        question := question + [letter];
      }
    }

    method Answer(u: UserId, text: string) returns (ok: bool)
      requires u in state.players && drawn == 0
      modifies this
      ensures Agrees(ok, AnswerRule(old(state), u, text, tape))
    {
      if state.miniGame.None? || state.miniGame.value.kind == Brawl {
        return false;
      }
      var g := state.miniGame.value;
      if u in g.participants || g.slotsUsed >= g.maxSlots {
        return false;
      }
      g := g.(slotsUsed := g.slotsUsed + 1);
      g := g.(participants := g.participants + [u]);
      state := state.(miniGame := Some(g));
      if text == g.answer {
        var reward := DrawInt(2, 8);
        state := Put(state, u, state.players[u].(jieCao := state.players[u].jieCao + reward));
        state := state.(miniGame := None);
        return true;
      }
      state := Put(state, u, state.players[u].(jieCao := Max(0, state.players[u].jieCao - 1)));
      if g.slotsUsed >= g.maxSlots {
        state := state.(miniGame := None);
      }
      return true;
    }

    method Slap(u: UserId) returns (ok: bool)
      requires u in state.players && drawn == 0
      modifies this
      ensures Agrees(ok, SlapRule(old(state), u, tape))
    {
      if !state.gameEnabled {
        return false;
      }
      if state.miniGame.None? {
        state := state.(miniGame := Some(NewGame(Brawl, 5, "")));
        return true;
      }
      if state.miniGame.value.kind != Brawl {
        return false;
      }
      var g := state.miniGame.value;
      if u in g.participants {
        state := Put(state, u, state.players[u].(jieCao := Max(0, state.players[u].jieCao - 10)));
        return true;
      }
      g := g.(slotsUsed := g.slotsUsed + 1);
      g := g.(participants := g.participants + [u]);
      var reward := DrawInt(1, 5);
      state := Put(state, u, state.players[u].(jieCao := state.players[u].jieCao + reward));
      state := state.(miniGame := if g.maxSlots - g.slotsUsed == 0 then None else Some(g));
      return true;
    }

    method Duel(u: UserId) returns (ok: bool)
      requires u in state.players && drawn == 0
      modifies this
      ensures Agrees(ok, DuelRule(old(state), u, tape))
    {
      if !state.gameEnabled || state.players[u].jieCao <= 0 {
        return false;
      }
      if state.champion.None? {
        state := state.(champion := Some(Champion(u, 0)));
        return true;
      }
      if state.champion.value.uid == u {
        return false;
      }
      var consecutive := state.champion.value.consecutive;
      var luck := Random();
      if luck < 0.3 + consecutive as real * 0.05 {
        var p := state.players[u];
        p := p.(jieCao := p.jieCao + 5 + consecutive * 2);
        p := p.(luck := Min(100, p.luck + 5));
        state := Put(state, u, p);
        state := state.(champion := None);
        return true;
      }
      state := Put(state, u, state.players[u].(jieCao := Max(0, state.players[u].jieCao - 5)));
      state := state.(champion := Some(state.champion.value.(consecutive := consecutive + 1)));
      return true;
    }

    /* ---- Management ---- */

    method EditPlayer(target: Option<UserId>, edit: Edit) returns (ok: bool)
      modifies this
      ensures Agrees(ok, EditRule(old(state), target, edit))
    {
      if target.None? || target.value !in state.players {
        return false;
      }
      var u := target.value;
      var p := state.players[u];
      if state.auction.Some? && state.auction.value.seller == u
         && (edit.EditKun? || edit.EditAttribute? || edit.EditWeight?) {
        return false;
      }
      match edit {
        case EditKun(remove) =>
          if !remove {
            return false;
          }
          p := p.(kun := None);
        case EditAttribute(attribute) =>
          if p.kun.None? || attribute.None? {
            return false;
          }
          p := p.(kun := Some(p.kun.value.(attribute := attribute.value)));
        case EditWeight(sign, operand) =>
          if p.kun.None? || operand.None? || operand.value < 0.0 {
            return false;
          }
          p := Weigh(p, ApplyReal(p.kun.value.weight, sign, operand.value));
          if !(0.0 < p.kun.value.weight <= WEIGHT_LIMIT) {
            return false;
          }
        case EditResource(resource, sign, operand) =>
          if operand.None? || operand.value < 0 {
            return false;
          }
          var value := ApplyInt(Amount(p, resource), sign, operand.value);
          var maximum := if resource == Luck then 100 else RESOURCE_LIMIT;
          if !(0 <= value <= maximum) {
            return false;
          }
          p := WithAmount(p, resource, value);
        case EditUnknown =>
          return false;
      }
      state := Put(state, u, p);
      return true;
    }

    method ClearAll(confirmation: string) returns (ok: bool)
      modifies this
      ensures Agrees(ok, if confirmation != old(state).gid then Rejected
                         else Done(NewDay(DefaultState(old(state).gid), date)))
    {
      if confirmation != state.gid {
        return false;
      }
      state := DefaultState(confirmation);
      NewDayReset();
      return true;
    }

    /* ---- Dispatch ---- */

    method PlayGated(u: UserId, c: PlayCommand) returns (ok: bool)
      requires drawn == 0
      modifies this
      ensures forall r: Request ::
        r.user == u && r.cfg == cfg && r.tape == tape && r.date == date && r.instant == now ==>
        Agrees(ok, PlayRule(old(state), scope, r, c))
    {
      if c.Unknown? || (scope == Private && !IsPrivate(c)) || (!IsBasic(c) && !state.kunEnabled) {
        return false;
      }
      PlayerOf(u);
      ok := PlayAs(u, c);
    }

    method PlayAs(u: UserId, c: PlayCommand) returns (ok: bool)
      requires u in state.players && drawn == 0
      modifies this
      ensures forall r: Request ::
        r.user == u && r.cfg == cfg && r.tape == tape && r.date == date && r.instant == now ==>
        Agrees(ok, PlayerRule(old(state), r, c))
    {
      hide CheckAttributesRule, HatchRule, BuyEggsRule, SmashEggsRule, FeedRule, TrainRule, EvolveRule, DrinkSoupRule,
        TribulationRule, ReleaseRule, ResurrectRule, SignInRule, PvpRule, StrikeBossRule, SellRule, BidRule, DealRule,
        StartGameRule, SlapRule, DuelRule, AnswerRule, Touches, Put, Chance, RandInt, IsSeller;
      ok := true;
      match c {
        case SignIn => SignIn(u);
        case CurrentGame => ok := state.gameEnabled;
        case Menu =>
        case BindGroup => ok := false;
        case CheckAttributes => ok := CheckAttributes(u);
        case TodayLuck =>
        case ShowDeathList =>
        case ShowAuction =>
        case Hatch => ok := Hatch(u);
        case BuyEggs(n) => ok := BuyEggs(u, n);
        case SmashEggs(n) => ok := SmashEggs(u, n);
        case Feed(n) => ok := Feed(u, n);
        case Train(amount) => ok := Train(u, amount);
        case Evolve => ok := Evolve(u);
        case Pvp(kind, mentions) => ok := PvpCommand(u, kind, mentions);
        case DrinkSoup(n) => ok := DrinkSoup(u, n);
        case Tribulation => ok := Tribulation(u);
        case Release => ok := Release(u);
        case Resurrect => ok := Resurrect(u);
        case QueryBoss => ok := state.boss.Some?;
        case StrikeBoss(kind) => ok := StrikeBoss(u, kind);
        case Sell(n) => ok := Sell(u, n);
        case Bid(n) => ok := Bid(u, n);
        case Deal => ok := Deal(u);
        case Immunity => ok := state.players[u].kun.Some?;
        case RollDice(_) =>
        case StartGame(kind) => ok := StartGame(kind);
        case OwnerCommands =>
        case Slap => ok := Slap(u);
        case Duel => ok := Duel(u);
        case AnswerGame(text) => ok := Answer(u, text);
        case Unknown => ok := false;
      }
    }

    method Admin(a: AdminCommand) returns (ok: bool)
      requires drawn == 0
      modifies this
      ensures forall r: Request :: r.cfg == cfg && r.tape == tape && r.date == date && r.instant == now ==>
        Agrees(ok, AdminRule(old(state), r, a))
    {
      hide ResetRoundRule, ForceDelistRule, EditRule, NewDay;
      ok := true;
      match a {
        case SwitchKun(on) => state := state.(kunEnabled := on);
        case SwitchGames(on) => state := state.(gameEnabled := on);
        case RefreshBoss =>
          var name := DrawInt(0, BOSS_NAME_COUNT - 1);
          var weight := DrawInt(2000, 5000);
          var attributes := Pick(BOSS_ATTRIBUTES);
          state := state.(boss := Some(Boss(name, weight as real, attributes, true, None, [])));
        case ResetRound => ok := ResetRound();
        case ClearAll(confirmation) => ok := ClearAll(confirmation);
        case ForceDelist => ok := ForceDelist();
        case EditPlayer(target, edit) => ok := EditPlayer(target, edit);
        case OtherAdmin => ok := false;
      }
    }
  }

  /** One invocation: work on a copy, then commit it or hand the stored envelope back untouched. */
  method RunCommand(stored: Option<Envelope>, scope: ScopeType, scopeId: string, r: Request) returns (result: Result)
    ensures result == Execute(stored, scope, scopeId, r)
  {
    hide PlayRule, AdminRule, NewDay, ValidEnvelope;
    if r.action.Manage? && scope == Private {
      return Unchanged;
    }
    if stored.Some? && !ValidEnvelope(stored.value, scope, scopeId) {
      return Corrupt;
    }
    var working := if stored.Some? then stored.value else DefaultEnvelope(scope, scopeId, r.instant);
    var engine := new Engine(working.state, scope, r);
    engine.NewDayReset();
    var ok;
    match r.action {
      case Play(c) => ok := engine.PlayGated(r.user, c);
      case Manage(a) => ok := engine.Admin(a);
    }
    if !ok || (stored.Some? && engine.state == stored.value.state) {
      return Unchanged;
    }
    var revision := if stored.Some? then stored.value.revision else 0;
    var next := working.(state := engine.state, revision := revision + 1, updatedAt := r.instant);
    if !ValidEnvelope(next, scope, scopeId) {
      return Corrupt;
    }
    return Changed(next);
  }

  lemma PayNobody(players: map<UserId, Player>)
    ensures PayEach(players, []) == players
  {}

  lemma PayOneMore(players: map<UserId, Player>, ids: seq<UserId>, i: nat)
    requires i < |ids| && (forall id :: id in ids[..i] ==> id in players) && ids[i] in players
    ensures forall id :: id in ids[..i + 1] ==> id in players
    ensures
      var paid := PayEach(players, ids[..i]);
      PayEach(players, ids[..i + 1]) == paid[ids[i] := paid[ids[i]].(jieCao := paid[ids[i]].jieCao + 300)]
  {
    assert ids[..i + 1][..i] == ids[..i] && ids[..i + 1] == ids[..i] + [ids[i]];
  }
}
