/**
 What the descriptions of the attributes promise about fights, and when the rules keep it.
 */
module KunPromises {
  import opened Common
  import opened KunState
  import opened KunRules
  import opened KunFates

  /**
   Who is refused a fight. Against an assault 魑 protects, and 惰 does not; 妒 turns attacks of lighter
   kuns away, and never those of heavier ones.
   */
  lemma FightsRefusedExactly(s: State, u: UserId, v: UserId, t: Tape)
    requires Opponents(s, u, v)
    ensures
      var a, d := KunOf(s, u), KunOf(s, v);
      var small := a.weight < d.weight * 0.3;
      && (AssaultRule(s, u, v, t).Rejected? <==> s.players[u].divineWeapon <= 0 || d.attribute == Chi)
      && (DevourRule(s, u, v, t).Rejected? <==> a.attribute == Glutton || small || d.attribute == Mei)
      && (AttackRule(s, u, v, t).Rejected? <==>
            a.attribute == Glutton || small || d.attribute == Wang || (d.attribute == Envy && a.weight < d.weight))
  {}

  /* ---- Ignoring an attribute ---- */

  function PlainPlayer(p: Player): Player
    requires p.kun.Some?
  {
    p.(kun := Some(p.kun.value.(attribute := Plain)))
  }

  // The same state, but for the attribute of one kun.
  function Plainly(s: State, v: UserId): State
    requires v in s.players && s.players[v].kun.Some?
  {
    Put(s, v, PlainPlayer(s.players[v]))
  }

  // The states differ in the attribute of v only, which is 无 in the second.
  predicate Twins(s: State, s': State, v: UserId) {
    && s' == s.(players := s'.players) && s'.players.Keys == s.players.Keys
    && v in s.players && s.players[v].kun.Some? && s'.players[v] == PlainPlayer(s.players[v])
    && forall w :: w in s.players && w != v ==> s'.players[w] == s.players[w]
  }

  // Two fights that end alike, whatever the attribute of v.
  predicate EndAlike(o: Outcome, plain: Outcome, v: UserId) {
    if o.Rejected? || plain.Rejected? then o == plain else Twins(o.state, plain.state, v)
  }

  // Whether fights take the course they would take against a kun without an attribute, under all draws.
  ghost predicate DevourIgnores(s: State, u: UserId, v: UserId)
    requires Opponents(s, u, v)
  {
    forall t :: EndAlike(DevourRule(s, u, v, t), DevourRule(Plainly(s, v), u, v, t), v)
  }

  ghost predicate AttackIgnores(s: State, u: UserId, v: UserId)
    requires Opponents(s, u, v)
  {
    forall t :: EndAlike(AttackRule(s, u, v, t), AttackRule(Plainly(s, v), u, v, t), v)
  }

  predicate TooSmall(a: Kun, d: Kun) {
    a.weight < d.weight * 0.3
  }

  predicate Envied(a: Kun, d: Kun) {
    d.attribute == Envy && a.weight < d.weight
  }

  lemma PlainlyIsTwin(s: State, v: UserId)
    requires v in s.players && s.players[v].kun.Some?
    ensures Twins(s, Plainly(s, v), v)
  {}

  lemma TwinsKill(s: State, s': State, u: UserId, v: UserId, killer: Option<UserId>)
    requires Twins(s, s', v) && u in s.players && s.players[u].kun.Some?
    ensures Twins(Kill(s, u, killer), Kill(s', u, killer), v)
  {
    hide Touches, Trim;
  }

  lemma TwinsKeep(s: State, s': State, u: UserId, v: UserId)
    requires Opponents(s, u, v) && Twins(s, s', v)
    ensures Opponents(s', u, v) && s'.players[u] == s.players[u] && KunOf(s', u) == KunOf(s, u)
    ensures KunOf(s', v).weight == KunOf(s, v).weight && KunOf(s', v).attribute == Plain
  {}

  // The defender gets another weight, and the attacker becomes p.
  function Traded(s: State, u: UserId, v: UserId, weight: real, p: Player): (r: State)
    requires Opponents(s, u, v)
  {
    Put(Put(s, v, Weigh(s.players[v], weight)), u, p)
  }

  lemma TwinsTraded(s: State, s': State, u: UserId, v: UserId, weight: real, p: Player)
    requires Opponents(s, u, v) && Twins(s, s', v)
    ensures Opponents(s', u, v) && s'.players[u] == s.players[u]
    ensures v in Traded(s, u, v, weight, p).players && v in Traded(s', u, v, weight, p).players
    ensures Traded(s, u, v, weight, p).players[v].kun.Some? && Traded(s', u, v, weight, p).players[v].kun.Some?
    ensures Twins(Traded(s, u, v, weight, p), Traded(s', u, v, weight, p), v)
  {}

  // The defender dies in the state that a trade leads to.
  lemma TwinsFall(s: State, s': State, u: UserId, v: UserId, weight: real, p: Player)
    requires Opponents(s, u, v) && Twins(s, s', v) && Opponents(s', u, v)
    ensures v in Traded(s, u, v, weight, p).players && v in Traded(s', u, v, weight, p).players
    ensures Traded(s, u, v, weight, p).players[v].kun.Some? && Traded(s', u, v, weight, p).players[v].kun.Some?
    ensures Twins(Kill(Traded(s, u, v, weight, p), v, Some(u)), Kill(Traded(s', u, v, weight, p), v, Some(u)), v)
  {
    hide Twins, Traded, Kill;
    TwinsTraded(s, s', u, v, weight, p);
    TwinsKill(Traded(s, u, v, weight, p), Traded(s', u, v, weight, p), v, v, Some(u));
  }

  // Without a critical hit, against another attribute than 淫, a 傲 bites, and lays no egg, or swallows.
  lemma PrideNibbles(s: State, u: UserId, v: UserId, damage: real, left: real, fed: Player, t: Tape, next: nat)
    requires Opponents(s, u, v) && KunOf(s, u).attribute == Pride && KunOf(s, v).attribute != Lust
    requires left == KunOf(s, v).weight - damage > 0.0 && fed == Weigh(s.players[u], KunOf(s, u).weight + damage)
    ensures Bite(s, u, v, damage, false, t, next) == Traded(s, u, v, left, fed)
  {
    hide Touches, Swallow;
  }

  lemma PrideSwallows(s: State, u: UserId, v: UserId, damage: real, t: Tape, next: nat)
    requires Opponents(s, u, v) && KunOf(s, u).attribute == Pride && KunOf(s, v).attribute != Lust
    requires KunOf(s, v).weight <= damage
    ensures v in Traded(s, u, v, 0.0, s.players[u]).players && Traded(s, u, v, 0.0, s.players[u]).players[v].kun.Some?
    ensures Bite(s, u, v, damage, false, t, next) == Kill(Traded(s, u, v, 0.0, s.players[u]), v, Some(u))
  {
    assert MaxReal(0.0, KunOf(s, v).weight - damage) == 0.0;
    assert Weigh(s.players[u], KunOf(s, u).weight + 0.0) == s.players[u];
    hide Touches, Kill;
  }

  lemma TwinsMeal(s: State, s': State, u: UserId, v: UserId, damage: real, t: Tape, next: nat)
    requires Opponents(s, u, v) && KunOf(s, u).attribute == Pride && KunOf(s, v).attribute != Lust
    requires Twins(s, s', v) && Opponents(s', u, v) && KunOf(s, v).weight <= damage
    ensures Twins(Bite(s, u, v, damage, false, t, next), Bite(s', u, v, damage, false, t, next), v)
  {
    TwinsKeep(s, s', u, v);
    hide Twins, Bite, Weigh, Touches, Kill, Traded;
    PrideSwallows(s, u, v, damage, t, next);
    PrideSwallows(s', u, v, damage, t, next);
    TwinsFall(s, s', u, v, 0.0, s.players[u]);
  }

  lemma TwinsNibble(s: State, s': State, u: UserId, v: UserId, damage: real, t: Tape, next: nat)
    requires Opponents(s, u, v) && KunOf(s, u).attribute == Pride && KunOf(s, v).attribute != Lust
    requires Twins(s, s', v) && Opponents(s', u, v) && damage < KunOf(s, v).weight
    ensures Twins(Bite(s, u, v, damage, false, t, next), Bite(s', u, v, damage, false, t, next), v)
  {
    TwinsKeep(s, s', u, v);
    var left, fed := KunOf(s, v).weight - damage, Weigh(s.players[u], KunOf(s, u).weight + damage);
    assert fed == Weigh(s'.players[u], KunOf(s', u).weight + damage) && left == KunOf(s', v).weight - damage;
    hide Twins, Bite, Weigh, Touches, Traded, KunOf;
    PrideNibbles(s, u, v, damage, left, fed, t, next);
    PrideNibbles(s', u, v, damage, left, fed, t, next);
    TwinsTraded(s, s', u, v, left, fed);
  }

  lemma TwinsBite(s: State, s': State, u: UserId, v: UserId, damage: real, t: Tape, next: nat)
    requires Opponents(s, u, v) && KunOf(s, u).attribute == Pride && KunOf(s, v).attribute != Lust
    requires Twins(s, s', v) && Opponents(s', u, v)
    ensures Twins(Bite(s, u, v, damage, false, t, next), Bite(s', u, v, damage, false, t, next), v)
  {
    hide Twins, Bite;
    if KunOf(s, v).weight <= damage {
      TwinsMeal(s, s', u, v, damage, t, next);
    } else {
      TwinsNibble(s, s', u, v, damage, t, next);
    }
  }

  // The attacker loses a fifth.
  function Beaten(s: State, u: UserId): State
    requires u in s.players && s.players[u].kun.Some?
  {
    Put(s, u, Weigh(s.players[u], KunOf(s, u).weight - KunOf(s, u).weight * 0.2))
  }

  lemma TwinsBeaten(s: State, s': State, u: UserId, v: UserId)
    requires Opponents(s, u, v) && Twins(s, s', v) && Opponents(s', u, v)
    ensures Twins(Beaten(s, u), Beaten(s', u), v)
    ensures Beaten(s, u).players[u].kun.Some? && Beaten(s', u).players[u].kun.Some?
  {}

  // A devouring by a 傲 that is not refused.
  lemma PrideDevours(s: State, u: UserId, v: UserId, t: Tape)
    requires Opponents(s, u, v) && KunOf(s, u).attribute == Pride && 0.0 < KunOf(s, u).weight
    requires KunOf(s, v).attribute != Mei && !TooSmall(KunOf(s, u), KunOf(s, v))
    ensures
      DevourRule(s, u, v, t) == Done(
        if Chance(t, 0) >= DevourRate(KunOf(s, u), KunOf(s, v)) then Beaten(s, u)
        else Bite(s, u, v, BiteDamage(KunOf(s, u), false, t, 1), false, t, 2))
  {
    hide Touches, Bite, Kill, DevourRate, BiteDamage;
  }

  lemma TwinsDevour(s: State, s': State, u: UserId, v: UserId, t: Tape)
    requires Opponents(s, u, v) && Twins(s, s', v) && Opponents(s', u, v)
    requires KunOf(s, u).attribute == Pride && 0.0 < KunOf(s, u).weight
    requires KunOf(s, v).attribute !in {Mei, Sloth, Lust} && !Envied(KunOf(s, u), KunOf(s, v))
    requires !TooSmall(KunOf(s, u), KunOf(s, v))
    ensures EndAlike(DevourRule(s, u, v, t), DevourRule(s', u, v, t), v)
  {
    var a, d := KunOf(s, u), KunOf(s, v);
    TwinsKeep(s, s', u, v);
    assert DevourRate(a, d) == DevourRate(a, KunOf(s', v));
    hide DevourRate, DevourRule, Bite, Touches, Twins, Beaten, BiteDamage;
    PrideDevours(s, u, v, t);
    PrideDevours(s', u, v, t);
    if Chance(t, 0) >= DevourRate(a, d) {
      TwinsBeaten(s, s', u, v);
    } else {
      TwinsBite(s, s', u, v, BiteDamage(a, false, t, 1), t, 2);
    }
  }

  lemma SameDevouring(s: State, s': State, u: UserId, v: UserId, t: Tape)
    requires Opponents(s, u, v) && Twins(s, s', v) && KunOf(s, u).attribute == Pride && 0.0 < KunOf(s, u).weight
    requires
      var a, d := KunOf(s, u), KunOf(s, v);
      TooSmall(a, d) || (d.attribute !in {Mei, Sloth, Lust} && !Envied(a, d))
    ensures Opponents(s', u, v) && EndAlike(DevourRule(s, u, v, t), DevourRule(s', u, v, t), v)
  {
    TwinsKeep(s, s', u, v);
    if TooSmall(KunOf(s, u), KunOf(s, v)) {
      hide Bite, Kill, Touches, Twins, Put, Weigh, DevourRate;
    } else {
      TwinsDevour(s, s', u, v, t);
      hide DevourRule, Twins, EndAlike;
    }
  }

  lemma PrideKills(s: State, u: UserId, v: UserId, damage: real, t: Tape, next: nat)
    requires Opponents(s, u, v) && KunOf(s, u).attribute == Pride && KunOf(s, v).weight <= damage
    ensures v in Traded(s, u, v, 0.0, s.players[u]).players && Traded(s, u, v, 0.0, s.players[u]).players[v].kun.Some?
    ensures Hit(s, u, v, damage, t, next) == Kill(Traded(s, u, v, 0.0, s.players[u]), v, Some(u))
  {
    var hurt := Put(s, v, Weigh(s.players[v], 0.0));
    assert Put(hurt, u, s.players[u]) == hurt;
    hide Touches, Kill;
  }

  lemma PrideWounds(s: State, u: UserId, v: UserId, damage: real, left: real, t: Tape, next: nat)
    requires Opponents(s, u, v) && KunOf(s, u).attribute == Pride && left == KunOf(s, v).weight - damage > 0.0
    ensures Hit(s, u, v, damage, t, next) == Traded(s, u, v, left, s.players[u])
  {
    hide Touches, Kill;
  }

  lemma TwinsDeath(s: State, s': State, u: UserId, v: UserId, damage: real, t: Tape, next: nat)
    requires Opponents(s, u, v) && KunOf(s, u).attribute == Pride
    requires Twins(s, s', v) && Opponents(s', u, v) && KunOf(s, v).weight <= damage
    ensures Twins(Hit(s, u, v, damage, t, next), Hit(s', u, v, damage, t, next), v)
  {
    TwinsKeep(s, s', u, v);
    hide Twins, Hit, Weigh, Kill, Touches, Traded;
    PrideKills(s, u, v, damage, t, next);
    PrideKills(s', u, v, damage, t, next);
    TwinsFall(s, s', u, v, 0.0, s.players[u]);
  }

  lemma TwinsWound(s: State, s': State, u: UserId, v: UserId, damage: real, t: Tape, next: nat)
    requires Opponents(s, u, v) && KunOf(s, u).attribute == Pride
    requires Twins(s, s', v) && Opponents(s', u, v) && damage < KunOf(s, v).weight
    ensures Twins(Hit(s, u, v, damage, t, next), Hit(s', u, v, damage, t, next), v)
  {
    TwinsKeep(s, s', u, v);
    var left := KunOf(s, v).weight - damage;
    hide Twins, Hit, Touches, Traded, KunOf;
    PrideWounds(s, u, v, damage, left, t, next);
    PrideWounds(s', u, v, damage, left, t, next);
    TwinsTraded(s, s', u, v, left, s.players[u]);
  }

  lemma TwinsHit(s: State, s': State, u: UserId, v: UserId, damage: real, t: Tape, next: nat)
    requires Opponents(s, u, v) && KunOf(s, u).attribute == Pride && Twins(s, s', v)
    ensures Opponents(s', u, v)
    ensures Twins(Hit(s, u, v, damage, t, next), Hit(s', u, v, damage, t, next), v)
  {
    TwinsKeep(s, s', u, v);
    hide Twins, Hit;
    if KunOf(s, v).weight <= damage {
      TwinsDeath(s, s', u, v, damage, t, next);
    } else {
      TwinsWound(s, s', u, v, damage, t, next);
    }
  }

  lemma SameAttack(s: State, s': State, u: UserId, v: UserId, t: Tape)
    requires Opponents(s, u, v) && Twins(s, s', v) && KunOf(s, u).attribute == Pride
    requires
      var a, d := KunOf(s, u), KunOf(s, v);
      TooSmall(a, d) || (d.attribute != Wang && !Envied(a, d))
    ensures v in s'.players && s'.players[v].kun.Some? && u in s'.players && s'.players[u].kun.Some?
    ensures EndAlike(AttackRule(s, u, v, t), AttackRule(s', u, v, t), v)
  {
    TwinsKeep(s, s', u, v);
    TwinsHit(s, s', u, v, HitDamage(KunOf(s, u), false, t, 0), t, 1);
    hide HitDamage, Twins, Hit, Touches;
  }

  // Draws under which a devouring succeeds against a kun without an attribute.
  const LUCKY: Tape := (at: nat) => Draw(0.1, 0)

  lemma OtherDevouring(s: State, u: UserId, v: UserId)
    requires Opponents(s, u, v) && KunOf(s, u).attribute == Pride && 0.0 < KunOf(s, u).weight
    requires
      var a, d := KunOf(s, u), KunOf(s, v);
      !TooSmall(a, d) && (d.attribute in {Mei, Sloth, Lust} || Envied(a, d))
    ensures !EndAlike(DevourRule(s, u, v, LUCKY), DevourRule(Plainly(s, v), u, v, LUCKY), v)
  {
    hide Touches, Bite, BiteDamage;
    var a, d := KunOf(s, u), KunOf(s, v);
    var plain, damage := Plainly(s, v), BiteDamage(a, false, LUCKY, 1);
    assert DevourRate(a, KunOf(plain, v)) >= 0.2;
    assert DevourRule(plain, u, v, LUCKY) == Done(Bite(plain, u, v, damage, false, LUCKY, 2));
    LuckyBite(plain, u, v, damage);
    if d.attribute == Lust {
      assert DevourRule(s, u, v, LUCKY) == Done(Bite(s, u, v, damage, false, LUCKY, 2));
      LuckyBite(s, u, v, damage);
    } else if d.attribute != Mei {
      LuckyFailure(s, u, v);
    }
    hide DevourRate, DevourRule;
  }

  // A lucky bite strengthens the attacker, or kills it when the other is a 淫.
  lemma LuckyBite(s: State, u: UserId, v: UserId, damage: real)
    requires Opponents(s, u, v) && KunOf(s, u).attribute == Pride && 0.0 <= damage
    ensures
      var o := Bite(s, u, v, damage, false, LUCKY, 2);
      && u in o.players && o.players[u].kun.Some?
      && (KunOf(s, v).attribute == Lust ==> !Living(o.players[u]))
      && (KunOf(s, v).attribute != Lust ==> Living(o.players[u]) && KunOf(s, u).weight <= KunOf(o, u).weight)
  {
    hide Touches, Trim;
  }

  lemma LuckyFailure(s: State, u: UserId, v: UserId)
    requires Opponents(s, u, v) && KunOf(s, u).attribute == Pride && 0.0 < KunOf(s, u).weight
    requires
      var a, d := KunOf(s, u), KunOf(s, v);
      !TooSmall(a, d) && (d.attribute == Sloth || Envied(a, d))
    ensures
      var o := DevourRule(s, u, v, LUCKY);
      o.Done? && u in o.state.players && o.state.players[u].kun.Some? && KunOf(o.state, u).weight < KunOf(s, u).weight
  {
    hide Touches;
  }

  /**
   A 傲 fights as if the other kun had no attribute exactly when it is too small to fight at all, or
   when that attribute has nothing to do with this kind of fight. So it does not ignore attributes.
   */
  lemma PrideIgnoresExactly(s: State, u: UserId, v: UserId)
    requires Opponents(s, u, v) && KunOf(s, u).attribute == Pride && 0.0 < KunOf(s, u).weight
    ensures
      var a, d := KunOf(s, u), KunOf(s, v);
      && (DevourIgnores(s, u, v) <==> TooSmall(a, d) || (d.attribute !in {Mei, Sloth, Lust} && !Envied(a, d)))
      && (AttackIgnores(s, u, v) <==> TooSmall(a, d) || (d.attribute != Wang && !Envied(a, d)))
  {
    var a, d := KunOf(s, u), KunOf(s, v);
    PlainlyIsTwin(s, v);
    hide DevourRule, AttackRule, EndAlike, Twins;
    if TooSmall(a, d) || (d.attribute !in {Mei, Sloth, Lust} && !Envied(a, d)) {
      forall t: Tape ensures EndAlike(DevourRule(s, u, v, t), DevourRule(Plainly(s, v), u, v, t), v) {
        SameDevouring(s, Plainly(s, v), u, v, t);
      }
    } else {
      OtherDevouring(s, u, v);
    }
    if TooSmall(a, d) || (d.attribute != Wang && !Envied(a, d)) {
      forall t: Tape ensures EndAlike(AttackRule(s, u, v, t), AttackRule(Plainly(s, v), u, v, t), v) {
        SameAttack(s, Plainly(s, v), u, v, t);
      }
    } else {
      OtherAttack(s, u, v);
    }
  }

  lemma OtherAttack(s: State, u: UserId, v: UserId)
    requires Opponents(s, u, v) && KunOf(s, u).attribute == Pride
    requires
      var a, d := KunOf(s, u), KunOf(s, v);
      !TooSmall(a, d) && (d.attribute == Wang || Envied(a, d))
    ensures !EndAlike(AttackRule(s, u, v, LUCKY), AttackRule(Plainly(s, v), u, v, LUCKY), v)
  {
    hide Touches, Hit;
  }
}
