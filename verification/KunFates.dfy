/**
 Life, death and weight: what a fight does to the two kuns in it, that every death is recorded,
 and that nobody comes back to life but by hatching or by a revival of one's own.
 */
module KunFates {
  import opened Common
  import opened KunState
  import opened KunRules
  import opened KunInvariant
  import opened KunHistory

  function WeightOf(p: Player): real
    requires p.kun.Some?
  {
    p.kun.value.weight
  }

  function KunOf(s: State, u: UserId): Kun
    requires u in s.players && s.players[u].kun.Some?
  {
    s.players[u].kun.value
  }

  predicate Dead(p: Player) {
    p.kun.Some? && !p.kun.value.alive
  }

  predicate KilledBy(p: Player, u: UserId) {
    Dead(p) && p.kun.value.killer == Some(u)
  }

  // Both have a living kun.
  predicate Opponents(s: State, u: UserId, v: UserId) {
    u in s.players && v in s.players && u != v && Living(s.players[u]) && Living(s.players[v])
  }

  /* ---- Devouring ---- */

  // The defender held out: the attacker loses a fifth, nobody else anything.
  predicate Repelled(p: Player, q: Player, p': Player, q': Player)
    requires p.kun.Some? && p'.kun.Some?
  {
    q' == q && Living(p') && WeightOf(p') == WeightOf(p) * 0.8
  }

  // The bite goes over whole from the defender to the attacker.
  predicate Bitten(p: Player, q: Player, p': Player, q': Player)
    requires p.kun.Some? && q.kun.Some? && p'.kun.Some? && q'.kun.Some?
  {
    && Living(q') && WeightOf(p') + WeightOf(q') == WeightOf(p) + WeightOf(q)
    && 0.3 * WeightOf(p) <= WeightOf(q) - WeightOf(q') <= 0.6 * WeightOf(p)
  }

  // The defender dies, and the attacker takes what was left of it.
  predicate Swallowed(p: Player, q: Player, p': Player, q': Player, u: UserId)
    requires p.kun.Some? && q.kun.Some? && p'.kun.Some? && q'.kun.Some?
  {
    && KilledBy(q', u) && WeightOf(p') == WeightOf(p) + WeightOf(q')
    && (if WeightOf(q') == 0.0 then WeightOf(q) <= (if p.kun.value.attribute == Wrath then 1.5 else 0.6) * WeightOf(p)
        else p.kun.value.attribute == Wrath && WeightOf(q') == WeightOf(q) - 1.5 * WeightOf(p))
  }

  /** A devouring ends in one of three ways; the attacker can die only of a 淫 it got past. */
  lemma DevouringEnds(s: State, u: UserId, v: UserId, t: Tape)
    requires Opponents(s, u, v) && 0.0 < WeightOf(s.players[u]) && 0.0 < WeightOf(s.players[v])
    ensures
      var p, q, o := s.players[u], s.players[v], DevourRule(s, u, v, t);
      o.Done? ==>
      var after := o.state;
      && u in after.players && v in after.players && after.players[u].kun.Some? && after.players[v].kun.Some?
      && var p', q' := after.players[u], after.players[v];
      && (Repelled(p, q, p', q') || Bitten(p, q, p', q') || Swallowed(p, q, p', q', u))
      && (Dead(p') ==> q.kun.value.attribute == Lust && q' != q)
  {
    hide Touches, Bite, BiteDamage, Uniform;
    var a, d := s.players[u].kun.value, s.players[v].kun.value;
    var wrath := a.attribute == Wrath;
    var critical, at := wrath && Chance(t, 0) < 0.25, if wrath then 1 else 0;
    if Chance(t, at) < DevourRate(a, d) {
      BiteIsBounded(a, t, at + 1);
      BiteEnds(s, u, v, BiteDamage(a, critical, t, at + 1), critical, t, if critical then at + 1 else at + 2);
      hide DevourRate;
    }
  }

  // Past the defender, all that is lost there is gained here.
  lemma BiteEnds(s: State, u: UserId, v: UserId, damage: real, critical: bool, t: Tape, next: nat)
    requires Opponents(s, u, v) && 0.0 < damage && 0.0 < WeightOf(s.players[u]) && 0.0 < WeightOf(s.players[v])
    ensures
      var p, q := s.players[u], s.players[v];
      var after := Bite(s, u, v, damage, critical, t, next);
      && u in after.players && v in after.players && after.players[u].kun.Some? && after.players[v].kun.Some?
      && var p', q' := after.players[u], after.players[v];
      && WeightOf(p') >= WeightOf(p) && q' != q
      && (if critical || WeightOf(q) <= damage then
            && KilledBy(q', u) && WeightOf(q') == MaxReal(0.0, WeightOf(q) - damage)
            && WeightOf(p') == WeightOf(p) + WeightOf(q')
          else
            Living(q') && WeightOf(q') == WeightOf(q) - damage && WeightOf(p') == WeightOf(p) + damage)
      && (Dead(p') ==> q.kun.value.attribute == Lust)
  {
    hide Touches, Chance, Trim, LayEgg;
    if critical || WeightOf(s.players[v]) <= damage {
      SwallowEnds(s, u, v, MaxReal(0.0, WeightOf(s.players[v]) - damage));
      hide Swallow;
    } else {
      NibbleEnds(s, u, v, damage, t, next);
      hide Bite;
    }
  }

  // The defender survives; so does the attacker, but for a 淫 that strikes back.
  lemma NibbleEnds(s: State, u: UserId, v: UserId, damage: real, t: Tape, next: nat)
    requires Opponents(s, u, v) && 0.0 < damage < WeightOf(s.players[v]) && 0.0 < WeightOf(s.players[u])
    ensures
      var p, q := s.players[u], s.players[v];
      var after := Bite(s, u, v, damage, false, t, next);
      && u in after.players && v in after.players && after.players[u].kun.Some?
      && after.players[v] == Weigh(q, WeightOf(q) - damage)
      && WeightOf(after.players[u]) == WeightOf(p) + damage
      && (Dead(after.players[u]) ==> q.kun.value.attribute == Lust)
  {
    var p, q := s.players[u], s.players[v];
    var fed := Weigh(p, p.kun.value.weight + damage);
    var bitten := Put(Put(s, v, Weigh(q, WeightOf(q) - damage)), u, fed);
    assert bitten.players[u] == fed && bitten.players[v] == Weigh(q, WeightOf(q) - damage);
    hide Touches, Trim, LayEgg, Swallow;
    EggsKeepTheKun(fed, t, next);
    EggsKeepTheKun(fed, t, next + 1);
  }

  lemma SwallowEnds(s: State, u: UserId, v: UserId, rest: real)
    requires Opponents(s, u, v) && 0.0 <= rest
    ensures
      var after := Swallow(s, u, v, rest);
      && u in after.players && v in after.players && after.players[u].kun.Some? && after.players[v].kun.Some?
      && Living(after.players[u]) && WeightOf(after.players[u]) == WeightOf(s.players[u]) + rest
      && KilledBy(after.players[v], u) && WeightOf(after.players[v]) == rest
  {
    hide Touches, Trim;
  }

  lemma Scaled(w: real, x: real, lo: real, hi: real)
    requires 0.0 < w && lo <= x <= hi
    ensures lo * w <= w * x <= hi * w
  {
    assert w * (x - lo) >= 0.0 && w * (hi - x) >= 0.0;
  }

  lemma BiteIsBounded(a: Kun, t: Tape, at: nat)
    requires 0.0 < a.weight
    ensures 0.3 * a.weight <= BiteDamage(a, false, t, at) <= 0.6 * a.weight
    ensures BiteDamage(a, true, t, at) == a.weight * 1.5
  {
    var w, x := a.weight, Uniform(t, at, 0.3, 0.6);
    hide Uniform;
    Scaled(w, x, 0.3, 0.6);
    assert BiteDamage(a, false, t, at) == w * x;
    assert 0.3 * w <= w * x;
    assert w * x <= 0.6 * w;
  }

  /* ---- Attacking ---- */

  /**
   An attack never harms the attacker and never moves weight: the defender loses between a tenth and
   three tenths of the attacker's weight, half as much again at most from a 怒, or dies; a 淫 may
   recover by half. Nothing else of either kun changes.
   */
  lemma AttackEnds(s: State, u: UserId, v: UserId, t: Tape)
    requires Opponents(s, u, v) && 0.0 < WeightOf(s.players[u]) && 0.0 < WeightOf(s.players[v])
    ensures
      var p, q, o := s.players[u], s.players[v], AttackRule(s, u, v, t);
      o.Done? ==>
      var after := o.state;
      && u in after.players && v in after.players && after.players[u].kun.Some? && after.players[v].kun.Some?
      && var p', q' := after.players[u], after.players[v];
      var most := if p.kun.value.attribute == Wrath then 0.45 else 0.3;
      && Living(p')
      && (WeightOf(p') == WeightOf(p)
          || (p.kun.value.attribute == Lust && Living(q') && WeightOf(p') == 1.5 * WeightOf(p)))
      && (if Living(q') then 0.1 * WeightOf(p) <= WeightOf(q) - WeightOf(q') <= most * WeightOf(p)
          else KilledBy(q', u) && WeightOf(q') == 0.0 && WeightOf(q) <= most * WeightOf(p))
  {
    hide Touches, Uniform, HitDamage, Hit;
    var a := s.players[u].kun.value;
    var critical, at := a.attribute == Wrath && Chance(t, 0) < 0.25, if a.attribute == Wrath then 1 else 0;
    HitIsBounded(a, critical, t, at);
    HitEnds(s, u, v, HitDamage(a, critical, t, at), t, at + 1);
    hide Chance, IsSeller;
  }

  lemma HitEnds(s: State, u: UserId, v: UserId, damage: real, t: Tape, next: nat)
    requires Opponents(s, u, v) && 0.0 < damage && 0.0 < WeightOf(s.players[u]) && 0.0 < WeightOf(s.players[v])
    ensures
      var p, q := s.players[u], s.players[v];
      var after := Hit(s, u, v, damage, t, next);
      && u in after.players && v in after.players && after.players[u].kun.Some? && after.players[v].kun.Some?
      && var p', q' := after.players[u], after.players[v];
      && Living(p')
      && (WeightOf(p') == WeightOf(p)
          || (p.kun.value.attribute == Lust && Living(q') && WeightOf(p') == 1.5 * WeightOf(p)))
      && (if damage < WeightOf(q) then Living(q') && WeightOf(q') == WeightOf(q) - damage
          else KilledBy(q', u) && WeightOf(q') == 0.0)
  {
    hide Touches, Chance, Trim;
  }

  lemma HitIsBounded(a: Kun, critical: bool, t: Tape, at: nat)
    requires 0.0 < a.weight
    ensures 0.1 * a.weight <= HitDamage(a, critical, t, at) <= (if critical then 0.45 else 0.3) * a.weight
  {
    var w, x := a.weight, Uniform(t, at, 0.1, 0.3);
    hide Uniform;
    Scaled(w, x, 0.1, 0.3);
    assert w * x <= 0.3 * w;
    assert 0.1 * w <= w * x;
    OneAndAHalf(w * x, w);
    assert HitDamage(a, critical, t, at) == w * x * (if critical then 1.5 else 1.0);
    hide HitDamage;
  }

  lemma OneAndAHalf(d: real, w: real)
    requires d <= 0.3 * w
    ensures d * 1.5 <= 0.45 * w
  {}

  /** An assault costs one weapon and at most two 节操, and misses, wounds by 50 to 300, or kills. */
  lemma AssaultEnds(s: State, u: UserId, v: UserId, t: Tape)
    requires Opponents(s, u, v) && 0.0 < WeightOf(s.players[v]) && 0 <= s.players[u].jieCao
    ensures
      var p, q, o := s.players[u], s.players[v], AssaultRule(s, u, v, t);
      o.Done? ==>
      var after := o.state;
      && u in after.players && v in after.players && after.players[v].kun.Some?
      && var p', q' := after.players[u], after.players[v];
      && p' == p.(divineWeapon := p.divineWeapon - 1, jieCao := p'.jieCao) && 0 <= p.jieCao - p'.jieCao <= 2
      && (|| q' == q
          || (Living(q') && 50.0 <= WeightOf(q) - WeightOf(q') <= 300.0)
          || (KilledBy(q', u) && WeightOf(q') == 0.0 && WeightOf(q) <= 300.0))
  {
    hide Touches, RandInt, Chance, Kill;
    var p, q, o := s.players[u], s.players[v], AssaultRule(s, u, v, t);
    if o.Done? && Chance(t, 0) < 0.7 {
      var spent := Put(s, u, p.(divineWeapon := p.divineWeapon - 1, jieCao := Max(0, p.jieCao - 2)));
      KillLeaves(Put(spent, v, Weigh(q, 0.0)), v, Some(u));
    }
  }

  // What a death leaves of everybody.
  lemma KillLeaves(s: State, u: UserId, killer: Option<UserId>)
    requires u in s.players && s.players[u].kun.Some? && 0.0 <= WeightOf(s.players[u])
    ensures
      var kun := s.players[u].kun.value.(alive := false, killer := killer);
      Kill(s, u, killer).players == s.players[u := s.players[u].(kun := Some(kun))]
  {
    hide Trim;
  }

  /* ---- Deaths and revivals, over every command ---- */

  // Between two records of one player: a death is listed, and the dead do not rise.
  predicate Mortal(p: Player, q: Player, listed: bool) {
    && (Living(p) && Dead(q) ==> listed)
    && (Dead(p) ==> !Living(q))
  }

  // Every player known before and after, other than the one excepted, has been mortal.
  ghost predicate Fates(s: State, o: Outcome, except: Option<UserId>) {
    o.Done? ==> forall w :: w in s.players && w in o.state.players && Some(w) != except ==>
      Mortal(s.players[w], o.state.players[w], w in o.state.deathList)
  }

  lemma TrimKeepsRecent(entries: seq<UserId>, k: nat)
    requires k < |entries| && |entries| - k <= DEATH_LIST_LIMIT
    ensures entries[k] in Trim(entries)
  {
    var kept := Trim(entries);
    assert kept[k - (|entries| - |kept|)] == entries[k];
  }

  // The latest death is listed, and so is the one before it.
  lemma KillLists(s: State, u: UserId, killer: Option<UserId>)
    requires u in s.players && s.players[u].kun.Some?
    ensures
      var after := Kill(s, u, killer).deathList;
      && after != [] && after[|after| - 1] == u && u in after
      && (s.deathList != [] ==> s.deathList[|s.deathList| - 1] in after)
  {
    var entries := s.deathList + [u];
    TrimKeepsRecent(entries, |entries| - 1);
    if s.deathList != [] {
      TrimKeepsRecent(entries, |entries| - 2);
    }
  }

  lemma KillsAreListed()
    ensures forall s: State, u: UserId, killer: Option<UserId> :: u in s.players && s.players[u].kun.Some? ==>
      var after := Kill(s, u, killer).deathList;
      && after != [] && after[|after| - 1] == u && u in after
      && (s.deathList != [] ==> s.deathList[|s.deathList| - 1] in after)
  {
    forall s: State, u: UserId, killer: Option<UserId> | u in s.players && s.players[u].kun.Some?
      ensures
        var after := Kill(s, u, killer).deathList;
        && after != [] && after[|after| - 1] == u && u in after
        && (s.deathList != [] ==> s.deathList[|s.deathList| - 1] in after)
    {
      KillLists(s, u, killer);
    }
  }

  ghost predicate MortalAt(s: State, after: State, w: UserId) {
    w in s.players && w in after.players && Mortal(s.players[w], after.players[w], w in after.deathList)
  }

  // Only the players a command touches can have met their fate.
  lemma TouchedFates(s: State, o: Outcome, who: set<UserId>)
    requires Touches(s, o, who)
    requires o.Done? ==> forall w :: w in who ==> MortalAt(s, o.state, w)
    ensures Fates(s, o, None)
  {}

  lemma FeedFates(s: State, u: UserId, c: Count, t: Tape)
    requires u in s.players
    ensures Fates(s, FeedRule(s, u, c, t), None)
  {
    KillsAreListed();
    hide Trim, RandInt;
  }

  lemma TrainFates(s: State, u: UserId, amount: Option<real>, cfg: Config, t: Tape)
    requires u in s.players
    ensures Fates(s, TrainRule(s, u, amount, cfg, t), None)
  {
    KillsAreListed();
    hide Trim, Chance;
  }

  lemma TribulationFates(s: State, u: UserId, cfg: Config, t: Tape)
    requires u in s.players
    ensures Fates(s, TribulationRule(s, u, cfg, t), None)
  {
    KillsAreListed();
    hide Trim, Chance, Ascended;
  }

  // Commands that leave every kun alive that was, and none other.
  lemma CalmFates(s: State, u: UserId, date: string, t: Tape)
    requires u in s.players
    ensures Fates(s, Done(SignInRule(s, u, date, t)), None) && Fates(s, CheckAttributesRule(s, u), None)
  {
    hide RandInt;
  }

  lemma PurchaseFates(s: State, u: UserId, c: Count, cfg: Config)
    requires u in s.players
    ensures Fates(s, BuyEggsRule(s, u, c, cfg), None) && Fates(s, DrinkSoupRule(s, u, c), None)
  {
    hide Touches;
  }

  lemma SmashFates(s: State, u: UserId, c: Count, t: Tape)
    requires u in s.players
    ensures Fates(s, SmashEggsRule(s, u, c, t), None)
  {
    var n := PositiveInt(c, 1, INPUT_COUNT_LIMIT);
    if n.Some? {
      PocketsKeepTheKun(s.players[u], n.value, t);
    }
    hide Smashed, Touches;
  }

  lemma PocketsKeepTheKun(p: Player, eggs: nat, t: Tape)
    ensures Smashed(p, eggs, t).kun == p.kun
  {
    hide Smash, LuckAfter;
  }

  lemma RenewalFates(s: State, u: UserId, cfg: Config, t: Tape)
    requires u in s.players
    ensures Fates(s, EvolveRule(s, u, t), None) && Fates(s, ReleaseRule(s, u, t), None)
    ensures Fates(s, HatchRule(s, u, cfg, t), Some(u)) && Fates(s, ResurrectRule(s, u, t), Some(u))
  {
    hide RandInt, Chance, Choose, NewAttribute, TopWeight, IsTopWeight;
  }

  lemma DevourFates(s: State, u: UserId, v: UserId, t: Tape)
    requires Opponents(s, u, v)
    ensures Fates(s, DevourRule(s, u, v, t), None)
  {
    var o := DevourRule(s, u, v, t);
    var a, d := s.players[u].kun.value, s.players[v].kun.value;
    var critical, at := a.attribute == Wrath && Chance(t, 0) < 0.25, if a.attribute == Wrath then 1 else 0;
    hide Trim, Chance, Bite, DevourRate, BiteDamage, Touches, Mortal;
    if o.Done? {
      if Chance(t, at) >= DevourRate(a, d) {
        RepelledFates(s, u, v);
      } else {
        BiteFates(s, u, v, BiteDamage(a, critical, t, at + 1), critical, t, if critical then at + 1 else at + 2);
      }
      assert MortalAt(s, o.state, u) && MortalAt(s, o.state, v);
    }
    hide DevourRule;
    TouchedFates(s, o, {u, v});
  }

  lemma RepelledFates(s: State, u: UserId, v: UserId)
    requires Opponents(s, u, v)
    ensures
      var weight := s.players[u].kun.value.weight - s.players[u].kun.value.weight * 0.2;
      var beaten := Put(s, u, Weigh(s.players[u], weight));
      var after := if weight <= 0.0 then Kill(beaten, u, None) else beaten;
      MortalAt(s, after, u) && MortalAt(s, after, v)
  {
    hide Trim;
    KillsAreListed();
  }

  lemma BiteFates(s: State, u: UserId, v: UserId, damage: real, critical: bool, t: Tape, next: nat)
    requires Opponents(s, u, v)
    ensures
      var after := Bite(s, u, v, damage, critical, t, next);
      MortalAt(s, after, u) && MortalAt(s, after, v)
  {
    hide Trim, Chance, Touches, Swallow, LayEgg;
    KillsAreListed();
    SwallowFates(s, u, v, MaxReal(0.0, s.players[v].kun.value.weight - damage));
    var fed := Weigh(s.players[u], s.players[u].kun.value.weight + damage);
    EggsKeepTheKun(fed, t, next);
    EggsKeepTheKun(fed, t, next + 1);
  }

  lemma EggsKeepTheKun(p: Player, t: Tape, at: nat)
    requires p.kun.Some?
    ensures LayEgg(p, t, at).kun == p.kun
  {}

  lemma SwallowFates(s: State, u: UserId, v: UserId, rest: real)
    requires Opponents(s, u, v)
    ensures
      var after := Swallow(s, u, v, rest);
      && u in after.players && v in after.players && Living(after.players[u]) && Dead(after.players[v])
      && after.deathList != [] && after.deathList[|after.deathList| - 1] == v
  {
    hide Trim, Touches;
    KillsAreListed();
  }

  lemma AttackFates(s: State, u: UserId, v: UserId, t: Tape)
    requires Opponents(s, u, v)
    ensures Fates(s, AttackRule(s, u, v, t), None)
  {
    var o := AttackRule(s, u, v, t);
    if o.Done? {
      var critical := KunOf(s, u).attribute == Wrath && Chance(t, 0) < 0.25;
      var at := if KunOf(s, u).attribute == Wrath then 1 else 0;
      hide HitDamage, Chance, Hit, Touches;
      HitIsMortal(s, u, v, HitDamage(KunOf(s, u), critical, t, at), t, at + 1);
    }
    hide AttackRule;
    TouchedFates(s, o, {u, v});
  }

  lemma HitIsMortal(s: State, u: UserId, v: UserId, damage: real, t: Tape, next: nat)
    requires Opponents(s, u, v)
    ensures MortalAt(s, Hit(s, u, v, damage, t, next), u) && MortalAt(s, Hit(s, u, v, damage, t, next), v)
  {
    hide Trim, Chance, Touches;
    KillsAreListed();
  }

  lemma AssaultFates(s: State, u: UserId, v: UserId, t: Tape)
    requires Opponents(s, u, v)
    ensures Fates(s, AssaultRule(s, u, v, t), None)
  {
    var o := AssaultRule(s, u, v, t);
    hide Trim, Chance, RandInt, Touches;
    KillsAreListed();
    assert o.Done? ==> MortalAt(s, o.state, u) && MortalAt(s, o.state, v);
    hide AssaultRule;
    TouchedFates(s, o, {u, v});
  }

  lemma ThrowFates(s: State, u: UserId, v: UserId, t: Tape)
    requires u in s.players && v in s.players && u != v
    ensures Fates(s, ThrowEggRule(s, u, v, t), None)
  {
    hide Chance;
  }

  lemma PvpFates(s: State, u: UserId, kind: PvpKind, mentions: seq<UserId>, t: Tape)
    requires u in s.players
    ensures Fates(s, PvpRule(s, u, kind, mentions, t), None)
  {
    hide Fates, DevourRule, AttackRule, AssaultRule, ThrowEggRule, Touches, SoleTarget;
    var o, target := PvpRule(s, u, kind, mentions, t), SoleTarget(mentions, u);
    if o.Done? {
      var v := target.value;
      match kind {
        case ThrowEgg => ThrowFates(s, u, v, t);
        case Devour => DevourFates(s, u, v, t);
        case Attack => AttackFates(s, u, v, t);
        case Assault => AssaultFates(s, u, v, t);
      }
    } else {
      RejectedFates(s, o);
    }
  }

  lemma RejectedFates(s: State, o: Outcome)
    ensures o.Rejected? ==> Fates(s, o, None)
    ensures o == Done(s) ==> Fates(s, o, None)
  {}

  // A strike pays players and may wound the striker, but nobody dies of it unrecorded.
  lemma StrikeFates(s: State, u: UserId, kind: StrikeKind, t: Tape)
    requires u in s.players
    ensures Fates(s, StrikeBossRule(s, u, kind, t), None)
  {
    hide StrikeDamage, Land, Fates;
    if MayStrike(s, u, kind) {
      LandFates(s, u, kind, StrikeDamage(kind, s.players[u].kun.value, t));
    } else {
      RejectedFates(s, StrikeBossRule(s, u, kind, t));
    }
  }

  lemma LandFates(s: State, u: UserId, kind: StrikeKind, damage: real)
    requires u in s.players && s.boss.Some? && Living(s.players[u])
    ensures Fates(s, Land(s, u, kind, damage), None)
  {
    hide Trim, Recoil, Ranked, Slay, Touches;
    var b, p := s.boss.value, s.players[u];
    var left, rank := b.weight - damage, Ranked(b.damageRank, u, damage);
    var struck := Weigh(StrikeCost(kind, p), p.kun.value.weight - Recoil(left, p.kun.value.weight));
    if left <= 0.0 {
      SlayFates(s, u, struck, rank);
    } else {
      KillsAreListed();
    }
  }

  lemma SlayFates(s: State, u: UserId, struck: Player, rank: seq<Damage>)
    requires u in s.players && s.boss.Some? && Living(s.players[u]) && Living(struck)
    ensures Fates(s, Slay(s, u, struck, rank), None)
  {
    hide TopFive;
    var o, ids := Slay(s, u, struck, rank), TopFive(rank);
    var rewarded := s.players[u := struck.(eggs := struck.eggs + 20, jieCao := struck.jieCao + 100)];
    if o.Done? {
      assert o.state.players == PayEach(rewarded, ids);
      hide Slay, PayEach;
      forall w | w in s.players ensures w in o.state.players && o.state.players[w].kun == rewarded[w].kun {
        PayEachKun(rewarded, ids, w);
      }
    }
  }

  lemma TradeFates(s: State, u: UserId, c: Count, now: int)
    requires u in s.players
    ensures Fates(s, SellRule(s, u, c, now), None) && Fates(s, BidRule(s, u, c), None) && Fates(s, DealRule(s, u), None)
    ensures Fates(s, RestoreRule(s), None)
  {}

  lemma AnsweringFates(s: State, u: UserId, kind: AnswerKind, text: string, t: Tape)
    requires u in s.players
    ensures Fates(s, StartGameRule(s, kind, t), None) && Fates(s, AnswerRule(s, u, text, t), None)
  {
    hide RandInt, AnswerText;
  }

  lemma BrawlFates(s: State, u: UserId, t: Tape)
    requires u in s.players
    ensures Fates(s, SlapRule(s, u, t), None) && Fates(s, DuelRule(s, u, t), None)
  {
    hide RandInt, Chance;
  }

  lemma EditFates(s: State, target: Option<UserId>, edit: Edit)
    ensures Fates(s, EditRule(s, target, edit), None)
  {}

  // The one command that may raise the player who gives it.
  function Raised(c: PlayCommand, u: UserId): Option<UserId> {
    if c.Hatch? || c.Resurrect? then Some(u) else None
  }

  lemma PlayFates(s: State, r: Request, c: PlayCommand)
    requires r.user in s.players
    ensures Fates(s, PlayerRule(s, r, c), Raised(c, r.user))
  {
    hide CheckAttributesRule, HatchRule, BuyEggsRule, SmashEggsRule, FeedRule, TrainRule, EvolveRule, DrinkSoupRule,
      TribulationRule, ReleaseRule, ResurrectRule, SignInRule, PvpRule, StrikeBossRule, SellRule, BidRule, DealRule,
      StartGameRule, SlapRule, DuelRule, AnswerRule, Touches, Fates;
    var u, t := r.user, r.tape;
    RejectedFates(s, PlayerRule(s, r, c));
    match c {
      case Feed(n) => FeedFates(s, u, n, t);
      case Train(amount) => TrainFates(s, u, amount, r.cfg, t);
      case Tribulation => TribulationFates(s, u, r.cfg, t);
      case Pvp(kind, mentions) => PvpFates(s, u, kind, mentions, t);
      case StrikeBoss(kind) => StrikeFates(s, u, kind, t);
      case Sell(n) => TradeFates(s, u, n, r.instant);
      case Bid(n) => TradeFates(s, u, n, r.instant);
      case Deal => TradeFates(s, u, Missing, r.instant);
      case StartGame(kind) => AnsweringFates(s, u, kind, "", t);
      case AnswerGame(text) => AnsweringFates(s, u, Arithmetic, text, t);
      case Slap => BrawlFates(s, u, t);
      case Duel => BrawlFates(s, u, t);
      case SignIn => CalmFates(s, u, r.date, t);
      case CheckAttributes => CalmFates(s, u, r.date, t);
      case BuyEggs(n) => PurchaseFates(s, u, n, r.cfg);
      case DrinkSoup(n) => PurchaseFates(s, u, n, r.cfg);
      case SmashEggs(n) => SmashFates(s, u, n, t);
      case Hatch => RenewalFates(s, u, r.cfg, t);
      case Resurrect => RenewalFates(s, u, r.cfg, t);
      case Release => RenewalFates(s, u, r.cfg, t);
      case Evolve => RenewalFates(s, u, r.cfg, t);
      case _ =>
    }
  }

  lemma AdminFates(s: State, r: Request, a: AdminCommand)
    ensures Fates(s, AdminRule(s, r, a), None)
  {
    hide EditRule, RestoreRule;
    match a {
      case EditPlayer(target, edit) => EditFates(s, target, edit);
      case ResetRound => RestoredFates(s);
      case ForceDelist => RestoredFates(s);
      case _ =>
    }
  }

  lemma RestoredFates(s: State)
    ensures Fates(s, RestoreRule(s), None) && Fates(s, ResetRoundRule(s), None)
  {}

  /**
   Over every command and every draw: whose kun dies is on the death list afterwards, and the dead do
   not rise, except that a player may hatch or revive a kun of its own.
   */
  lemma DeathsAreRecordedAndFinal(s: State, scope: ScopeType, r: Request)
    ensures Fates(s, Perform(s, scope, r), if r.action.Play? then Raised(r.action.command, r.user) else None)
  {
    hide PlayerRule, AdminRule, Raised;
    var today := NewDay(s, r.date);
    match r.action {
      case Play(c) => PlayFates(Enter(today, r.user, r.date, r.cfg), r, c);
      case Manage(a) => AdminFates(today, r, a);
    }
  }
}
