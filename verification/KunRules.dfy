/**
 What one command does to the state of a scope, as functions on values.

 Every function answers Rejected (the engine raised its rejection) or the state the
 working copy holds afterwards. Reply texts are not part of the model.
 */
module KunRules {
  import opened Common
  import opened KunState

  datatype Outcome = Rejected | Done(state: State)

  /* ---- Randomness: an arbitrary stream, cut down to the range each call asks for ---- */

  type Unit = r: real | 0.0 <= r < 1.0 witness 0.0
  datatype Draw = Draw(unit: Unit, number: nat)
  type Tape = nat -> Draw

  function Chance(t: Tape, at: nat): Unit {
    t(at).unit
  }

  function RandInt(t: Tape, at: nat, lo: int, hi: int): (r: int)
    requires lo <= hi
    ensures lo <= r <= hi
  {
    lo + t(at).number % (hi - lo + 1)
  }

  function Uniform(t: Tape, at: nat, lo: real, hi: real): (r: real)
    requires lo <= hi
    ensures lo <= r <= hi
  {
    var width, unit := hi - lo, t(at).unit;
    assert 0.0 <= width * unit <= width;
    lo + width * unit
  }

  function Choose<T>(t: Tape, at: nat, options: seq<T>): (r: T)
    requires options != []
    ensures r in options
  {
    options[RandInt(t, at, 0, |options| - 1)]
  }

  /* ---- Commands, after the text has been split into a name and its argument ---- */

  datatype Count = Missing | Malformed | Given(value: int)

  datatype PvpKind = Devour | Attack | Assault | ThrowEgg
  datatype StrikeKind = StrikeAttack | StrikeDevour | StrikeAssault

  datatype PlayCommand =
    | SignIn | CurrentGame | Menu | BindGroup | CheckAttributes | TodayLuck | ShowDeathList | ShowAuction
    | Hatch | BuyEggs(count: Count) | SmashEggs(count: Count) | Feed(count: Count)
    | Train(amount: Option<real>) | Evolve
    | Pvp(kind: PvpKind, mentions: seq<UserId>)
    | DrinkSoup(count: Count) | Tribulation | Release | Resurrect
    | QueryBoss | StrikeBoss(strike: StrikeKind)
    | Sell(count: Count) | Bid(count: Count) | Deal
    | Immunity | RollDice(sides: Count)
    | StartGame(game: AnswerKind) | OwnerCommands | Slap | Duel
    | AnswerGame(text: string)
    | Unknown

  type AnswerKind = k: GameKind | k != Brawl witness Arithmetic

  datatype Resource = JieCao | Eggs | DivineWeapon | PhantomPills | ChickenSoup | ResurrectionPills | Luck
  datatype Sign = Exactly | Plus | Minus
  datatype Edit =
    | EditKun(remove: bool)
    | EditAttribute(attribute: Option<Attribute>)
    | EditWeight(sign: Sign, weight: Option<real>)
    | EditResource(resource: Resource, sign: Sign, amount: Option<int>)
    | EditUnknown

  datatype AdminCommand =
    | SwitchKun(on: bool) | SwitchGames(on: bool) | RefreshBoss | ResetRound
    | ClearAll(confirmation: string) | ForceDelist
    | EditPlayer(target: Option<UserId>, edit: Edit)
    | OtherAdmin

  datatype Action = Play(command: PlayCommand) | Manage(admin: AdminCommand)

  // One invocation: who, when, with which parameters and which random draws.
  datatype Request = Request(action: Action, user: UserId, date: string, instant: int, cfg: Config, tape: Tape)

  /* ---- Small helpers ---- */

  function Put(s: State, u: UserId, p: Player): State {
    s.(players := s.players[u := p])
  }

  function PositiveInt(c: Count, default: int, maximum: int): Option<int> {
    match c
    case Malformed => None
    case Missing => if 0 < default <= maximum then Some(default) else None
    case Given(v) => if 0 < v <= maximum then Some(v) else None
  }

  predicate Living(p: Player) {
    p.kun.Some? && p.kun.value.alive
  }

  predicate IsSeller(s: State, u: UserId) {
    s.auction.Some? && s.auction.value.seller == u
  }

  function Trim(entries: seq<UserId>): seq<UserId> {
    if |entries| > DEATH_LIST_LIMIT then entries[|entries| - DEATH_LIST_LIMIT..] else entries
  }

  // The kun of u dies; its weight never stays below zero.
  function Kill(s: State, u: UserId, killer: Option<UserId>): (r: State)
    requires u in s.players && s.players[u].kun.Some?
    ensures Touches(s, Done(r), {u})
  {
    var p := s.players[u];
    var dead := p.kun.value.(alive := false, weight := MaxReal(0.0, p.kun.value.weight), killer := killer);
    Put(s, u, p.(kun := Some(dead))).(deathList := Trim(s.deathList + [u]))
  }

  /** Nothing but the players named in who, and the death list, differs from s. */
  ghost predicate Touches(s: State, o: Outcome, who: set<UserId>) {
    o.Done? ==>
      && o.state == s.(players := o.state.players, deathList := o.state.deathList)
      && o.state.players.Keys == s.players.Keys
      && forall w :: w in s.players && w !in who ==> o.state.players[w] == s.players[w]
  }

  function Weigh(p: Player, weight: real): Player
    requires p.kun.Some?
  {
    p.(kun := Some(p.kun.value.(weight := weight)))
  }

  /* ---- Raising a kun ---- */

  function SignInRule(s: State, u: UserId, date: string, t: Tape): (r: State)
    requires u in s.players
    ensures Touches(s, Done(r), {u})
  {
    var p := s.players[u];
    if p.signedToday then
      Put(s, u, p.(jieCao := Max(0, p.jieCao - 10)))
    else
      Put(s, u, p.(signedToday := true, lastSignDate := date, jieCao := p.jieCao + 10, todayTrain := 0,
                   luck := Min(100, p.luck + 5), eggs := p.eggs + RandInt(t, 0, 1, 3)))
  }

  function CheckAttributesRule(s: State, u: UserId): (o: Outcome)
    requires u in s.players
    ensures Touches(s, o, {u})
  {
    var p := s.players[u];
    if p.kun.None? then Rejected
    else if p.kun.value.alive && p.kun.value.attribute == Liang && p.kun.value.weight < 666.0 then
      Done(Put(s, u, Weigh(p, 1000.0)))
    else Done(s)
  }

  /** The weight of the heaviest living kun, or 1000 when there is none. */
  ghost predicate IsTopWeight(players: map<UserId, Player>, w: real) {
    if forall v :: v in players ==> !Living(players[v]) then w == 1000.0
    else
      && (exists v :: v in players && Living(players[v]) && players[v].kun.value.weight == w)
      && (forall v :: v in players && Living(players[v]) ==> players[v].kun.value.weight <= w)
  }

  lemma {:induction false} TopWeightExists(players: map<UserId, Player>)
    ensures exists w :: IsTopWeight(players, w)
    decreases |players|
  {
    if forall v :: v in players ==> !Living(players[v]) {
      assert IsTopWeight(players, 1000.0);
    } else {
      var v :| v in players && Living(players[v]);
      var rest := players - {v};
      assert players.Keys == rest.Keys + {v} && v !in rest.Keys;
      assert |players.Keys| == |rest.Keys| + 1;
      TopWeightExists(rest);
      var w :| IsTopWeight(rest, w);
      var x := players[v].kun.value.weight;
      if forall r :: r in rest ==> !Living(rest[r]) {
        assert IsTopWeight(players, x);
      } else {
        var r :| r in rest && Living(rest[r]) && rest[r].kun.value.weight == w;
        assert players[r] == rest[r];
        assert IsTopWeight(players, MaxReal(x, w));
      }
    }
  }

  ghost function TopWeight(players: map<UserId, Player>): (w: real)
    ensures IsTopWeight(players, w)
  {
    TopWeightExists(players);
    var w :| IsTopWeight(players, w);
    w
  }

  // Every attribute but Sorrow, in the order the engine draws from.
  const HATCHABLE: seq<Attribute> :=
    [Plain, Chi, Mei, Wang, Liang, Lust, Glutton, Greedy, Sloth, Wrath, Envy, Pride]

  ghost function HatchRule(s: State, u: UserId, cfg: Config, t: Tape): (o: Outcome)
    requires u in s.players
    ensures Touches(s, o, {u})
  {
    var p := s.players[u];
    if IsSeller(s, u) || Living(p) || p.eggs <= 0 then Rejected
    else
      var paid := p.(eggs := p.eggs - 1, todayTrain := 0);
      var kun :=
        if Chance(t, 0) <= cfg.hatchMisfortuneRate then
          Kun(RandInt(t, 1, 0, KUN_NAME_COUNT - 1), TopWeight(s.players) + 1000.0, Sorrow, true, None)
        else
          Kun(RandInt(t, 3, 0, KUN_NAME_COUNT - 1), RandInt(t, 2, 50, 200) as real, Choose(t, 1, HATCHABLE),
              true, None);
      Done(Put(s, u, paid.(kun := Some(kun))))
  }

  function BuyEggsRule(s: State, u: UserId, c: Count, cfg: Config): (o: Outcome)
    requires u in s.players
    ensures Touches(s, o, {u})
  {
    var p, n := s.players[u], PositiveInt(c, 1, INPUT_COUNT_LIMIT);
    if n.None? || p.jieCao < n.value * cfg.eggPrice then Rejected
    else Done(Put(s, u, p.(jieCao := p.jieCao - n.value * cfg.eggPrice, eggs := p.eggs + n.value)))
  }

  datatype Drops = Drops(weapons: nat, pills: nat, soups: nat, revivals: nat) {
    function Total(): nat { weapons + pills + soups + revivals }
  }

  function OneDrop(d: Drops, roll: Unit): Drops {
    if roll < 0.15 then d.(weapons := d.weapons + 1)
    else if roll < 0.35 then d.(pills := d.pills + 1)
    else if roll < 0.65 then d.(soups := d.soups + 1)
    else d.(revivals := d.revivals + 1)
  }

  // An egg that drops nothing uses one draw, an egg that drops something uses two.
  function Smash(eggs: nat, luck: int, t: Tape): (r: (Drops, nat))
    ensures r.0.Total() <= eggs
    ensures r.1 == eggs + r.0.Total()
  {
    if eggs == 0 then (Drops(0, 0, 0, 0), 0)
    else
      var (d, at) := Smash(eggs - 1, luck, t);
      if Chance(t, at) >= luck as real / 200.0 then (d, at + 1)
      else (OneDrop(d, Chance(t, at + 1)), at + 2)
  }

  function SmashEggsRule(s: State, u: UserId, c: Count, t: Tape): (o: Outcome)
    requires u in s.players
    ensures Touches(s, o, {u})
  {
    var p, n := s.players[u], PositiveInt(c, 1, INPUT_COUNT_LIMIT);
    if n.None? || p.eggs < n.value then Rejected
    else Done(Put(s, u, Smashed(p, n.value, t)))
  }

  function Smashed(p: Player, eggs: nat, t: Tape): Player {
    var d := Smash(eggs, p.luck, t).0;
    Pocket(p, d).(eggs := p.eggs - eggs, luck := LuckAfter(p.luck, d))
  }

  function Pocket(p: Player, d: Drops): Player {
    p.(divineWeapon := p.divineWeapon + d.weapons,
       phantomPills := p.phantomPills + d.pills,
       chickenSoup := p.chickenSoup + d.soups,
       resurrectionPills := p.resurrectionPills + d.revivals)
  }

  function LuckAfter(luck: int, d: Drops): int {
    if d.Total() > 0 then Min(100, luck + d.Total()) else Max(0, luck - 2)
  }

  // A glutton that has grown past 1000 bursts.
  function Grown(s: State, u: UserId, p: Player): (r: State)
    requires u in s.players && p.kun.Some?
    ensures Touches(s, Done(r), {u})
  {
    var fed := Put(s, u, p);
    if p.kun.value.attribute == Glutton && p.kun.value.weight > 1000.0 then Kill(fed, u, None) else fed
  }

  function FeedRule(s: State, u: UserId, c: Count, t: Tape): (o: Outcome)
    requires u in s.players
    ensures Touches(s, o, {u})
  {
    var p, n := s.players[u], PositiveInt(c, 1, INPUT_COUNT_LIMIT);
    if !Living(p) || IsSeller(s, u) || n.None? || p.eggs < n.value then Rejected
    else
      var gain := (n.value * RandInt(t, 0, 5, 15)) as real;
      Done(Grown(s, u, Weigh(p, p.kun.value.weight + gain).(eggs := p.eggs - n.value)))
  }

  function TrainRule(s: State, u: UserId, amount: Option<real>, cfg: Config, t: Tape): (o: Outcome)
    requires u in s.players
    ensures Touches(s, o, {u})
  {
    var p := s.players[u];
    if !Living(p) || IsSeller(s, u) then Rejected
    else if amount.None? || !(0.0 < amount.value <= WEIGHT_LIMIT) then Rejected
    else
      var w, v := p.kun.value.weight, amount.value;
      if v >= w || p.todayTrain >= cfg.trainDailyMax || p.jieCao < 2 then Rejected
      else
        var greedy := p.kun.value.attribute == Greedy;
        var cost := if greedy && Chance(t, 0) < 0.7 then 0 else 2;
        var paid := p.(jieCao := p.jieCao - cost, todayTrain := p.todayTrain + 1);
        if Chance(t, if greedy then 1 else 0) < v / w then
          Done(Put(s, u, Weigh(paid, w - v)))
        else
          Done(Grown(s, u, Weigh(paid, w + (w - v))))
  }

  function AllBut(options: seq<Attribute>, a: Attribute): (r: seq<Attribute>)
    ensures forall x :: x in r <==> x in options && x != a
  {
    if options == [] then []
    else if options[0] == a then AllBut(options[1..], a)
    else [options[0]] + AllBut(options[1..], a)
  }

  // What a transformation chooses from.
  function Available(current: Attribute): (r: seq<Attribute>)
    ensures r != [] && forall x :: x in r <==> x in HATCHABLE && x != current
  {
    assert HATCHABLE[1] == Chi && HATCHABLE[2] == Mei;
    var r := AllBut(HATCHABLE, current);
    assert Chi in r || Mei in r;
    r
  }

  function NewAttribute(current: Attribute, t: Tape): (r: Attribute)
    ensures r != current && r in HATCHABLE
  {
    Choose(t, 0, Available(current))
  }

  function EvolveRule(s: State, u: UserId, t: Tape): (o: Outcome)
    requires u in s.players
    ensures Touches(s, o, {u})
  {
    var p := s.players[u];
    if !Living(p) || IsSeller(s, u) || p.kun.value.attribute == Sorrow || p.phantomPills <= 0 then Rejected
    else Done(Put(s, u, Transformed(p, t)))
  }

  function Transformed(p: Player, t: Tape): Player
    requires p.kun.Some?
  {
    var paid := p.(phantomPills := p.phantomPills - 1);
    var attribute := NewAttribute(p.kun.value.attribute, t);
    if Chance(t, 1) >= 0.6 then paid
    else
      var cost := if p.kun.value.attribute == Glutton then 0.0 else 10.0;
      paid.(kun := Some(p.kun.value.(attribute := attribute, weight := MaxReal(1.0, p.kun.value.weight - cost))))
  }

  function DrinkSoupRule(s: State, u: UserId, c: Count): (o: Outcome)
    requires u in s.players
    ensures Touches(s, o, {u})
  {
    var p, n := s.players[u], PositiveInt(c, 1, INPUT_COUNT_LIMIT);
    if n.None? || p.chickenSoup < n.value then Rejected
    else Done(Put(s, u, p.(chickenSoup := p.chickenSoup - n.value, jieCao := p.jieCao + n.value)))
  }

  function Ascended(weight: real, t: Tape): (r: real)
    ensures 0.0 < weight ==> weight < r
  {
    weight * Uniform(t, 1, 1.5, 3.0)
  }

  function TribulationRule(s: State, u: UserId, cfg: Config, t: Tape): (o: Outcome)
    requires u in s.players
    ensures Touches(s, o, {u})
  {
    var p := s.players[u];
    if !Living(p) || IsSeller(s, u) || p.kun.value.attribute == Plain || p.jieCao < cfg.tribulationCost then Rejected
    else
      var paid := p.(jieCao := p.jieCao - cfg.tribulationCost);
      if Chance(t, 0) < 0.5 then
        Done(Put(s, u, Weigh(paid, Ascended(p.kun.value.weight, t))))
      else
        Done(Kill(Put(s, u, paid), u, None))
  }

  function ReleaseRule(s: State, u: UserId, t: Tape): (o: Outcome)
    requires u in s.players
    ensures Touches(s, o, {u})
  {
    var p := s.players[u];
    if !Living(p) || IsSeller(s, u) then Rejected
    else
      var bonus := if p.kun.value.attribute == Greedy then RandInt(t, 0, 2, 10) else 0;
      Done(Put(s, u, p.(jieCao := p.jieCao + 2, eggs := p.eggs + bonus, kun := None)))
  }

  function ResurrectRule(s: State, u: UserId, t: Tape): (o: Outcome)
    requires u in s.players
    ensures Touches(s, o, {u})
  {
    var p := s.players[u];
    if IsSeller(s, u) || p.kun.None? || p.kun.value.alive || p.resurrectionPills <= 0
       || p.kun.value.attribute != Plain then Rejected
    else
      var kun := p.kun.value.(alive := true, killer := None, weight := RandInt(t, 0, 50, 200) as real);
      Done(Put(s, u, p.(resurrectionPills := p.resurrectionPills - 1, kun := Some(kun))))
  }

  /* ---- Player against player ---- */

  function Others(mentions: seq<UserId>, u: UserId): (r: seq<UserId>)
    ensures forall m :: m in r <==> m in mentions && m != u
  {
    if mentions == [] then []
    else if mentions[0] == u then Others(mentions[1..], u)
    else [mentions[0]] + Others(mentions[1..], u)
  }

  // The one other player a message mentions, however often it does so.
  function SoleTarget(mentions: seq<UserId>, u: UserId): (r: Option<UserId>)
    ensures forall x :: r == Some(x) <==> x in mentions && x != u && forall m :: m in mentions ==> m == u || m == x
  {
    var others := Others(mentions, u);
    assert forall m :: m in mentions ==> m == u || m in others;
    assert others != [] ==> others[0] in others;
    if others != [] && forall m :: m in others ==> m == others[0] then Some(others[0]) else None
  }

  function Set<T>(x: Option<T>): set<T> {
    if x.Some? then {x.value} else {}
  }

  function DevourRate(attacker: Kun, defender: Kun): real {
    var a, d := attacker.weight, defender.weight;
    var bySize := 0.5 + (if d > a * 2.0 then -0.3 else if d > a then -0.1
                         else if a > d * 2.0 then 0.3 else if a > d then 0.1 else 0.0);
    var bySloth := if defender.attribute == Sloth then 0.05 else bySize;
    var byWrath := if attacker.attribute == Wrath then bySloth + 0.2 else bySloth;
    if defender.attribute == Envy && d > a then 0.0
    else MaxReal(0.0, MinReal(1.0, byWrath))
  }

  // With probability 3 in 10 the attack of a greedy kun lays an egg.
  function LayEgg(p: Player, t: Tape, at: nat): Player
    requires p.kun.Some?
  {
    if p.kun.value.attribute == Greedy && Chance(t, at) < 0.3 then p.(eggs := p.eggs + 1) else p
  }

  function DevourRule(s: State, u: UserId, v: UserId, t: Tape): (o: Outcome)
    requires u in s.players && v in s.players && u != v
    requires s.players[u].kun.Some? && s.players[v].kun.Some?
    ensures Touches(s, o, {u, v})
  {
    var p, q := s.players[u], s.players[v];
    var a, d := p.kun.value, q.kun.value;
    if d.attribute == Mei || a.attribute == Glutton || a.weight < d.weight * 0.3 then Rejected
    else
      var wrath := a.attribute == Wrath;
      var critical := wrath && Chance(t, 0) < 0.25;
      var at := if wrath then 1 else 0;
      if Chance(t, at) >= DevourRate(a, d) then
        var beaten := Put(s, u, Weigh(p, a.weight - a.weight * 0.2));
        Done(if a.weight - a.weight * 0.2 <= 0.0 then Kill(beaten, u, None) else beaten)
      else
        Done(Bite(s, u, v, BiteDamage(a, critical, t, at + 1), critical, t, if critical then at + 1 else at + 2))
  }

  function BiteDamage(a: Kun, critical: bool, t: Tape, at: nat): (r: real)
    ensures 0.0 <= a.weight ==> 0.0 <= r
  {
    if critical then a.weight * 1.5 else a.weight * Uniform(t, at, 0.3, 0.6)
  }

  // The attacker takes what is left of the defender, which dies.
  function Swallow(s: State, u: UserId, v: UserId, rest: real): (r: State)
    requires u in s.players && v in s.players && u != v
    requires s.players[u].kun.Some? && s.players[v].kun.Some?
    ensures u in r.players && r.players[u] == Weigh(s.players[u], s.players[u].kun.value.weight + rest)
    ensures Touches(s, Done(r), {u, v})
  {
    var p, q := s.players[u], s.players[v];
    Kill(Put(Put(s, v, Weigh(q, rest)), u, Weigh(p, p.kun.value.weight + rest)), v, Some(u))
  }

  // The part of a devouring that has got past the defender.
  function Bite(s: State, u: UserId, v: UserId, damage: real, critical: bool, t: Tape, next: nat): (r: State)
    requires u in s.players && v in s.players && u != v
    requires s.players[u].kun.Some? && s.players[v].kun.Some?
    ensures Touches(s, Done(r), {u, v})
  {
    var p, q := s.players[u], s.players[v];
    var a, d := p.kun.value, q.kun.value;
    var left := d.weight - damage;
    var reversed := d.attribute == Lust && Chance(t, next) < 0.75;
    if left <= 0.0 || critical then
      var eaten := Swallow(s, u, v, MaxReal(0.0, left));
      if reversed then Kill(eaten, u, None) else eaten
    else
      var bitten := Put(Put(s, v, Weigh(q, left)), u, Weigh(p, a.weight + damage));
      if reversed then Kill(bitten, u, None)
      else Put(bitten, u, LayEgg(bitten.players[u], t, if d.attribute == Lust then next + 1 else next))
  }

  function AttackRule(s: State, u: UserId, v: UserId, t: Tape): (o: Outcome)
    requires u in s.players && v in s.players && u != v
    requires s.players[u].kun.Some? && s.players[v].kun.Some?
    ensures Touches(s, o, {u, v})
  {
    var p, q := s.players[u], s.players[v];
    var a, d := p.kun.value, q.kun.value;
    if d.attribute == Wang || a.attribute == Glutton || a.weight < d.weight * 0.3
       || (d.attribute == Envy && d.weight > a.weight) then Rejected
    else
      var wrath := a.attribute == Wrath;
      var critical := wrath && Chance(t, 0) < 0.25;
      var at := if wrath then 1 else 0;
      Done(Hit(s, u, v, HitDamage(a, critical, t, at), t, at + 1))
  }

  function HitDamage(a: Kun, critical: bool, t: Tape, at: nat): (r: real)
    ensures 0.0 <= a.weight ==> 0.0 <= r
  {
    a.weight * Uniform(t, at, 0.1, 0.3) * (if critical then 1.5 else 1.0)
  }

  function Hit(s: State, u: UserId, v: UserId, damage: real, t: Tape, next: nat): (r: State)
    requires u in s.players && v in s.players && u != v
    requires s.players[u].kun.Some? && s.players[v].kun.Some?
    ensures Touches(s, Done(r), {u, v})
  {
    var p, q := s.players[u], s.players[v];
    var a, left := p.kun.value, q.kun.value.weight - damage;
    if left <= 0.0 then
      Kill(Put(s, v, Weigh(q, 0.0)), v, Some(u))
    else
      var hurt := Put(s, v, Weigh(q, left));
      if a.attribute == Lust && Chance(t, next) < 0.25 then Put(hurt, u, Weigh(p, a.weight + a.weight * 0.5))
      else Put(hurt, u, LayEgg(p, t, next))
  }

  function AssaultRule(s: State, u: UserId, v: UserId, t: Tape): (o: Outcome)
    requires u in s.players && v in s.players && u != v
    requires s.players[u].kun.Some? && s.players[v].kun.Some?
    ensures Touches(s, o, {u, v})
  {
    var p, q := s.players[u], s.players[v];
    if p.divineWeapon <= 0 || q.kun.value.attribute == Chi then Rejected
    else
      var spent := Put(s, u, p.(divineWeapon := p.divineWeapon - 1, jieCao := Max(0, p.jieCao - 2)));
      if Chance(t, 0) >= 0.7 then Done(spent)
      else
        var left := q.kun.value.weight - RandInt(t, 1, 50, 300) as real;
        Done(if left <= 0.0 then Kill(Put(spent, v, Weigh(q, 0.0)), v, Some(u)) else Put(spent, v, Weigh(q, left)))
  }

  function ThrowEggRule(s: State, u: UserId, v: UserId, t: Tape): (o: Outcome)
    requires u in s.players && v in s.players && u != v
    ensures Touches(s, o, {u, v})
  {
    var p, q := s.players[u], s.players[v];
    if p.eggs <= 0 then Rejected
    else
      var thrown := Put(s, u, p.(eggs := p.eggs - 1));
      Done(if Chance(t, 0) < 0.5 then Put(thrown, v, q.(luck := Max(0, q.luck - 2))) else thrown)
  }

  function PvpRule(s: State, u: UserId, kind: PvpKind, mentions: seq<UserId>, t: Tape): (o: Outcome)
    requires u in s.players
    ensures Touches(s, o, {u} + Set(SoleTarget(mentions, u)))
  {
    var target := SoleTarget(mentions, u);
    if !Living(s.players[u]) || IsSeller(s, u) || target.None? || target.value !in s.players then Rejected
    else
      var v := target.value;
      if kind == ThrowEgg then ThrowEggRule(s, u, v, t)
      else if !Living(s.players[v]) || IsSeller(s, v) then Rejected
      else match kind
        case Devour => DevourRule(s, u, v, t)
        case Attack => AttackRule(s, u, v, t)
        case Assault => AssaultRule(s, u, v, t)
        case ThrowEgg => Rejected
  }

  /* ---- The shared boss ---- */

  // The six attribute lists a boss can be born with.
  const BOSS_ATTRIBUTES: seq<seq<Attribute>> :=
    [[Mei, Wang], [Chi, Sloth], [Wrath, Pride], [Mei, Liang], [Lust], [Envy]]

  function NewBoss(t: Tape): Boss {
    Boss(RandInt(t, 0, 0, BOSS_NAME_COUNT - 1), RandInt(t, 1, 2000, 5000) as real, Choose(t, 2, BOSS_ATTRIBUTES),
         true, None, [])
  }

  function AddDamage(rank: seq<Damage>, u: UserId, amount: real): seq<Damage> {
    if rank == [] then [Damage(u, amount)]
    else if rank[0].who == u then [rank[0].(amount := rank[0].amount + amount)] + rank[1..]
    else [rank[0]] + AddDamage(rank[1..], u, amount)
  }

  // Library sort, descending and stable.
  function InsertDamage(d: Damage, sorted: seq<Damage>): seq<Damage> {
    if sorted == [] || sorted[0].amount < d.amount then [d] + sorted
    else [sorted[0]] + InsertDamage(d, sorted[1..])
  }

  function SortDamage(rank: seq<Damage>): seq<Damage> {
    if rank == [] then [] else InsertDamage(rank[|rank| - 1], SortDamage(rank[..|rank| - 1]))
  }

  function TopFive(rank: seq<Damage>): seq<UserId> {
    var sorted := SortDamage(rank);
    RankedIds(if |sorted| > 5 then sorted[..5] else sorted)
  }

  function PayEach(players: map<UserId, Player>, ids: seq<UserId>): (r: map<UserId, Player>)
    requires forall id :: id in ids ==> id in players
    ensures r.Keys == players.Keys
    decreases |ids|
  {
    if ids == [] then players
    else
      var paid := PayEach(players, ids[..|ids| - 1]);
      var last := ids[|ids| - 1];
      paid[last := paid[last].(jieCao := paid[last].jieCao + 300)]
  }

  function Immune(kind: StrikeKind): Attribute {
    match kind
    case StrikeAssault => Chi
    case StrikeDevour => Mei
    case StrikeAttack => Wang
  }

  // Damage before the Pride bonus.
  function RawDamage(kind: StrikeKind, kun: Kun, t: Tape): real {
    var wrath := kun.attribute == Wrath;
    var critical := wrath && Chance(t, 0) < 0.25;
    var at := if wrath then 1 else 0;
    match kind
    case StrikeAssault => if Chance(t, 0) < 0.7 then RandInt(t, 1, 50, 300) as real else 0.0
    case StrikeDevour => BiteDamage(kun, critical, t, at)
    case StrikeAttack => HitDamage(kun, critical, t, at)
  }

  function StrikeDamage(kind: StrikeKind, kun: Kun, t: Tape): real {
    if kun.attribute == Pride then RawDamage(kind, kun, t) * 1.5 else RawDamage(kind, kun, t)
  }

  function Recoil(bossWeight: real, kunWeight: real): real {
    MinReal(MaxReal(0.0, bossWeight) * 0.1, kunWeight * 0.3)
  }

  // What the strike itself costs the attacker: a divine weapon and up to two 节操 for an assault.
  function StrikeCost(kind: StrikeKind, p: Player): Player {
    if kind == StrikeAssault then p.(divineWeapon := p.divineWeapon - 1, jieCao := Max(0, p.jieCao - 2)) else p
  }

  predicate MayStrike(s: State, u: UserId, kind: StrikeKind)
    requires u in s.players
  {
    && s.boss.Some? && s.boss.value.alive
    && Living(s.players[u]) && !IsSeller(s, u)
    && Immune(kind) !in s.boss.value.attributes
    && (kind == StrikeAssault ==> s.players[u].divineWeapon > 0)
  }

  function StrikeBossRule(s: State, u: UserId, kind: StrikeKind, t: Tape): Outcome
    requires u in s.players
  {
    if !MayStrike(s, u, kind) then Rejected
    else
      Land(s, u, kind, StrikeDamage(kind, s.players[u].kun.value, t))
  }

  function Ranked(rank: seq<Damage>, u: UserId, damage: real): seq<Damage> {
    if damage > 0.0 then AddDamage(rank, u, damage) else rank
  }

  // A strike of the given damage reaches the boss, which may die or strike back.
  function Land(s: State, u: UserId, kind: StrikeKind, damage: real): Outcome
    requires u in s.players && s.boss.Some? && Living(s.players[u])
  {
    var b, p := s.boss.value, s.players[u];
    var left, rank := b.weight - damage, Ranked(b.damageRank, u, damage);
    var kunLeft := p.kun.value.weight - Recoil(left, p.kun.value.weight);
    var struck := Weigh(StrikeCost(kind, p), kunLeft);
    if left <= 0.0 then Slay(s, u, struck, rank)
    else
      var hurt := s.(boss := Some(b.(weight := left, damageRank := rank)));
      if kunLeft <= 0.0 then Done(Kill(Put(hurt, u, Weigh(struck, 0.0)), u, Some("BOSS")))
      else Done(Put(hurt, u, struck))
  }

  // The boss dies: the killer is rewarded, then each of the five that hit hardest.
  function Slay(s: State, u: UserId, struck: Player, rank: seq<Damage>): Outcome
    requires u in s.players && s.boss.Some?
  {
    var slain := s.boss.value.(weight := 0.0, alive := false, killer := Some(u), damageRank := rank);
    var prize := struck.(eggs := struck.eggs + 20, jieCao := struck.jieCao + 100);
    var rewarded := Put(s, u, prize).(boss := Some(slain));
    if forall id :: id in TopFive(rank) ==> id in rewarded.players then
      Done(rewarded.(players := PayEach(rewarded.players, TopFive(rank))))
    else Rejected
  }

  /* ---- The auction ---- */

  function SellRule(s: State, u: UserId, c: Count, now: int): Outcome
    requires u in s.players
  {
    var p, price := s.players[u], PositiveInt(c, 1, PRICE_LIMIT);
    if s.auction.Some? || !Living(p) || p.kun.value.attribute == Plain || c.Missing? || price.None? then Rejected
    else
      var auction := Auction(u, p.kun.value, price.value, price.value, None, now);
      Done(Put(s, u, p.(kun := None)).(auction := Some(auction)))
  }

  function BidRule(s: State, u: UserId, c: Count): Outcome
    requires u in s.players
  {
    var p, bid := s.players[u], PositiveInt(c, 1, PRICE_LIMIT);
    if s.auction.None? || IsSeller(s, u) || p.kun.Some? || bid.None? then Rejected
    else if bid.value <= s.auction.value.currentBid || p.jieCao < bid.value then Rejected
    else Done(s.(auction := Some(s.auction.value.(currentBid := bid.value, bidder := Some(u)))))
  }

  function DealRule(s: State, u: UserId): Outcome
    requires u in s.players
  {
    if !IsSeller(s, u) || s.auction.value.bidder.None? then Rejected
    else
      var a := s.auction.value;
      var b := a.bidder.value;
      if b !in s.players || s.players[b].kun.Some? || s.players[b].jieCao < a.currentBid
         || s.players[u].kun.Some? then Rejected
      else
        var charged := Put(s, b, s.players[b].(jieCao := s.players[b].jieCao - a.currentBid));
        var credited := Put(charged, u, charged.players[u].(jieCao := charged.players[u].jieCao + a.currentBid));
        Done(Put(credited, b, credited.players[b].(kun := Some(a.kun))).(auction := None))
  }

  // Hand the escrowed kun back to its seller.
  function RestoreRule(s: State): Outcome {
    if s.auction.None? then Done(s)
    else
      var u := s.auction.value.seller;
      if u !in s.players || s.players[u].kun.Some? then Rejected
      else Done(Put(s, u, s.players[u].(kun := Some(s.auction.value.kun))).(auction := None))
  }

  function ForceDelistRule(s: State, now: int): Outcome {
    if s.auction.None? || now - s.auction.value.startTime < 300 then Rejected else RestoreRule(s)
  }

  /* ---- Mini-games ---- */

  function NewGame(kind: GameKind, slots: int, answer: string): MiniGame {
    MiniGame(kind, 0, slots, [], answer)
  }

  function Signed(n: int): string {
    if n < 0 then "-" + Decimal(-n) else Decimal(n)
  }

  const HOMEWORK_LETTERS: string := "ABCDEFGHJKLMN0123456789"

  function HomeworkText(length: nat, t: Tape): (r: string)
    ensures |r| == length
  {
    if length == 0 then "" else HomeworkText(length - 1, t) + [Choose(t, length, HOMEWORK_LETTERS)]
  }

  function StartGameRule(s: State, kind: AnswerKind, t: Tape): Outcome {
    if !s.gameEnabled || s.miniGame.Some? then Rejected
    else
      Done(s.(miniGame := Some(NewGame(kind, if kind == Stars then 2 else 5, AnswerText(kind, t)))))
  }

  // The right answer to the question that was drawn.
  function AnswerText(kind: AnswerKind, t: Tape): string {
    match kind
    case Arithmetic =>
      var x, y, op := RandInt(t, 0, 1, 99), RandInt(t, 1, 1, 99), RandInt(t, 2, 0, 2);
      Signed(if op == 0 then x + y else if op == 1 then x - y else x * y)
    case Stars => Decimal(RandInt(t, 1, 1, Min(5, RandInt(t, 0, 5, 20))))
    case Homework => Reversed(HomeworkText(RandInt(t, 0, 4, 8), t))
  }

  function Join(g: MiniGame, u: UserId): MiniGame {
    g.(slotsUsed := g.slotsUsed + 1, participants := g.participants + [u])
  }

  // text is the answer after stripping and upper-casing, as the stored answers already are.
  function AnswerRule(s: State, u: UserId, text: string, t: Tape): Outcome
    requires u in s.players
  {
    if s.miniGame.None? || s.miniGame.value.kind == Brawl then Rejected
    else
      var g, p := s.miniGame.value, s.players[u];
      if u in g.participants || g.slotsUsed >= g.maxSlots then Rejected
      else if text == g.answer then
        Done(Put(s, u, p.(jieCao := p.jieCao + RandInt(t, 0, 2, 8))).(miniGame := None))
      else
        var joined := Join(g, u);
        var left := if joined.slotsUsed >= joined.maxSlots then None else Some(joined);
        Done(Put(s, u, p.(jieCao := Max(0, p.jieCao - 1))).(miniGame := left))
  }

  function SlapRule(s: State, u: UserId, t: Tape): Outcome
    requires u in s.players
  {
    if !s.gameEnabled then Rejected
    else if s.miniGame.None? then Done(s.(miniGame := Some(NewGame(Brawl, 5, ""))))
    else if s.miniGame.value.kind != Brawl then Rejected
    else
      var g, p := s.miniGame.value, s.players[u];
      if u in g.participants then Done(Put(s, u, p.(jieCao := Max(0, p.jieCao - 10))))
      else
        var joined := Join(g, u);
        var left := if joined.maxSlots - joined.slotsUsed == 0 then None else Some(joined);
        Done(Put(s, u, p.(jieCao := p.jieCao + RandInt(t, 0, 1, 5))).(miniGame := left))
  }

  function DuelRule(s: State, u: UserId, t: Tape): Outcome
    requires u in s.players
  {
    var p := s.players[u];
    if !s.gameEnabled || p.jieCao <= 0 then Rejected
    else if s.champion.None? then Done(s.(champion := Some(Champion(u, 0))))
    else
      var c := s.champion.value;
      if c.uid == u then Rejected
      else if Chance(t, 0) < 0.3 + c.consecutive as real * 0.05 then
        Done(Put(s, u, p.(jieCao := p.jieCao + 5 + c.consecutive * 2, luck := Min(100, p.luck + 5))).(champion := None))
      else
        Done(Put(s, u, p.(jieCao := Max(0, p.jieCao - 5))).(champion := Some(c.(consecutive := c.consecutive + 1))))
  }

  /* ---- Management ---- */

  function Amount(p: Player, r: Resource): int {
    match r
    case JieCao => p.jieCao
    case Eggs => p.eggs
    case DivineWeapon => p.divineWeapon
    case PhantomPills => p.phantomPills
    case ChickenSoup => p.chickenSoup
    case ResurrectionPills => p.resurrectionPills
    case Luck => p.luck
  }

  function WithAmount(p: Player, r: Resource, v: int): Player {
    match r
    case JieCao => p.(jieCao := v)
    case Eggs => p.(eggs := v)
    case DivineWeapon => p.(divineWeapon := v)
    case PhantomPills => p.(phantomPills := v)
    case ChickenSoup => p.(chickenSoup := v)
    case ResurrectionPills => p.(resurrectionPills := v)
    case Luck => p.(luck := v)
  }

  function ApplyInt(current: int, sign: Sign, operand: int): int {
    match sign case Exactly => operand case Plus => current + operand case Minus => current - operand
  }

  function ApplyReal(current: real, sign: Sign, operand: real): real {
    match sign case Exactly => operand case Plus => current + operand case Minus => current - operand
  }

  function EditRule(s: State, target: Option<UserId>, edit: Edit): Outcome {
    if target.None? || target.value !in s.players then Rejected
    else
      var u, p := target.value, s.players[target.value];
      var onKun := edit.EditKun? || edit.EditAttribute? || edit.EditWeight?;
      if onKun && IsSeller(s, u) then Rejected
      else match edit
        case EditKun(remove) => if remove then Done(Put(s, u, p.(kun := None))) else Rejected
        case EditAttribute(attribute) =>
          if p.kun.None? || attribute.None? then Rejected
          else Done(Put(s, u, p.(kun := Some(p.kun.value.(attribute := attribute.value)))))
        case EditWeight(sign, operand) =>
          if p.kun.None? || operand.None? || operand.value < 0.0 then Rejected
          else
            var w := ApplyReal(p.kun.value.weight, sign, operand.value);
            if 0.0 < w <= WEIGHT_LIMIT then Done(Put(s, u, Weigh(p, w))) else Rejected
        case EditResource(resource, sign, operand) =>
          if operand.None? || operand.value < 0 then Rejected
          else
            var v := ApplyInt(Amount(p, resource), sign, operand.value);
            if 0 <= v <= (if resource == Luck then 100 else RESOURCE_LIMIT) then
              Done(Put(s, u, WithAmount(p, resource, v)))
            else Rejected
        case EditUnknown => Rejected
  }

  function ResetRoundRule(s: State): Outcome {
    var restored := RestoreRule(s);
    if restored.Rejected? then Rejected
    else Done(restored.state.(boss := None, auction := None, deathList := [], miniGame := None, champion := None))
  }

  /* ---- Dispatch ---- */

  function Renewed(p: Player, date: string): Player {
    if p.lastSignDate != date then p.(signedToday := false, todayTrain := 0, lastSignDate := date) else p
  }

  function NewDay(s: State, date: string): State {
    s.(deathList := Trim(s.deathList),
       boss := if s.lastBossDate != date then None else s.boss,
       lastBossDate := date,
       players := map u | u in s.players :: Renewed(s.players[u], date))
  }

  // The player of this user, created with the default purse on first contact.
  function Enter(s: State, u: UserId, date: string, cfg: Config): (r: State)
    ensures u in r.players
  {
    if u in s.players then s else Put(s, u, DefaultPlayer(date, cfg))
  }

  predicate IsBasic(c: PlayCommand) {
    c.SignIn? || c.CurrentGame? || c.Menu? || c.BindGroup? || c.CheckAttributes? || c.TodayLuck?
    || c.ShowDeathList? || c.ShowAuction?
  }

  predicate IsPrivate(c: PlayCommand) {
    c.SignIn? || c.Hatch? || c.SmashEggs? || c.Train? || c.Evolve? || c.CheckAttributes? || c.TodayLuck?
    || c.Menu? || c.DrinkSoup? || c.CurrentGame?
  }

  ghost function PlayRule(s: State, scope: ScopeType, r: Request, c: PlayCommand): Outcome {
    if c.Unknown? || (scope == Private && !IsPrivate(c)) || (!IsBasic(c) && !s.kunEnabled) then Rejected
    else PlayerRule(Enter(s, r.user, r.date, r.cfg), r, c)
  }

  ghost function PlayerRule(s: State, r: Request, c: PlayCommand): Outcome
    requires r.user in s.players
  {
    var u, t := r.user, r.tape;
    match c
    case SignIn => Done(SignInRule(s, u, r.date, t))
    case CurrentGame => if s.gameEnabled then Done(s) else Rejected
    case Menu => Done(s)
    case BindGroup => Rejected
    case CheckAttributes => CheckAttributesRule(s, u)
    case TodayLuck => Done(s)
    case ShowDeathList => Done(s)
    case ShowAuction => Done(s)
    case Hatch => HatchRule(s, u, r.cfg, t)
    case BuyEggs(n) => BuyEggsRule(s, u, n, r.cfg)
    case SmashEggs(n) => SmashEggsRule(s, u, n, t)
    case Feed(n) => FeedRule(s, u, n, t)
    case Train(amount) => TrainRule(s, u, amount, r.cfg, t)
    case Evolve => EvolveRule(s, u, t)
    case Pvp(kind, mentions) => PvpRule(s, u, kind, mentions, t)
    case DrinkSoup(n) => DrinkSoupRule(s, u, n)
    case Tribulation => TribulationRule(s, u, r.cfg, t)
    case Release => ReleaseRule(s, u, t)
    case Resurrect => ResurrectRule(s, u, t)
    case QueryBoss => if s.boss.Some? then Done(s) else Rejected
    case StrikeBoss(kind) => StrikeBossRule(s, u, kind, t)
    case Sell(n) => SellRule(s, u, n, r.instant)
    case Bid(n) => BidRule(s, u, n)
    case Deal => DealRule(s, u)
    case Immunity => if s.players[u].kun.Some? then Done(s) else Rejected
    case RollDice(_) => Done(s)
    case StartGame(kind) => StartGameRule(s, kind, t)
    case OwnerCommands => Done(s)
    case Slap => SlapRule(s, u, t)
    case Duel => DuelRule(s, u, t)
    case AnswerGame(text) => AnswerRule(s, u, text, t)
    case Unknown => Rejected
  }

  function AdminRule(s: State, r: Request, a: AdminCommand): Outcome {
    match a
    case SwitchKun(on) => Done(s.(kunEnabled := on))
    case SwitchGames(on) => Done(s.(gameEnabled := on))
    case RefreshBoss => Done(s.(boss := Some(NewBoss(r.tape))))
    case ResetRound => ResetRoundRule(s)
    case ClearAll(confirmation) => if confirmation == s.gid then Done(NewDay(DefaultState(s.gid), r.date)) else Rejected
    case ForceDelist => ForceDelistRule(s, r.instant)
    case EditPlayer(target, edit) => EditRule(s, target, edit)
    case OtherAdmin => Rejected
  }

  ghost function Perform(s: State, scope: ScopeType, r: Request): Outcome {
    var today := NewDay(s, r.date);
    match r.action
    case Play(c) => PlayRule(today, scope, r, c)
    case Manage(a) => AdminRule(today, r, a)
  }

  /* ---- One invocation on a stored envelope ---- */

  datatype Result = Corrupt | Unchanged | Changed(envelope: Envelope)

  ghost function Execute(stored: Option<Envelope>, scope: ScopeType, scopeId: string, r: Request): Result {
    if r.action.Manage? && scope == Private then Unchanged
    else if stored.Some? && !ValidEnvelope(stored.value, scope, scopeId) then Corrupt
    else
      var working := if stored.Some? then stored.value else DefaultEnvelope(scope, scopeId, r.instant);
      var outcome := Perform(working.state, scope, r);
      if outcome.Rejected? || (stored.Some? && outcome.state == stored.value.state) then Unchanged
      else
        var next := working.(state := outcome.state, revision := working.revision + 1, updatedAt := r.instant);
        if ValidEnvelope(next, scope, scopeId) then Changed(next) else Corrupt
  }
}
