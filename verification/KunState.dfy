/**
 The persisted state of one game scope and the checks the engine makes on it.

 Weights are reals and counters are unbounded integers; the bounds the engine
 puts on them are written out in WithinCaps and WellFormed.
 */
module KunState {
  import opened Common

  // Player keys are non-empty strings.
  type UserId = s: string | s != "" witness "0"

  const RESOURCE_LIMIT: int := 1_000_000_000_000_000
  const WEIGHT_LIMIT: real := 1_000_000_000_000_000.0
  const PRICE_LIMIT: int := 1_000_000_000
  const INPUT_COUNT_LIMIT: int := 100
  const DEATH_LIST_LIMIT: int := 20
  const KUN_NAME_COUNT: nat := 49
  const BOSS_NAME_COUNT: nat := 7

  // The thirteen attributes, in the order of the engine's attribute table:
  // 无 魑 魅 魍 魉 淫 馋 贪 惰 怒 妒 傲 悲
  datatype Attribute =
    | Plain | Chi | Mei | Wang | Liang | Lust | Glutton
    | Greedy | Sloth | Wrath | Envy | Pride | Sorrow

  datatype Kun = Kun(name: nat, weight: real, attribute: Attribute, alive: bool, killer: Option<UserId>)

  datatype Player = Player(
    kun: Option<Kun>,
    jieCao: int,
    eggs: int,
    divineWeapon: int,
    phantomPills: int,
    chickenSoup: int,
    resurrectionPills: int,
    luck: int,
    todayTrain: int,
    signedToday: bool,
    lastSignDate: string)

  datatype Auction = Auction(
    seller: UserId,
    kun: Kun,
    startPrice: int,
    currentBid: int,
    bidder: Option<UserId>,
    startTime: int)

  // One entry of the damage ranking; the ranking keeps the order in which players first struck.
  datatype Damage = Damage(who: UserId, amount: real)

  datatype Boss = Boss(
    name: nat,
    weight: real,
    attributes: seq<Attribute>,
    alive: bool,
    killer: Option<UserId>,
    damageRank: seq<Damage>)

  // 奥数比赛, 数星星, 抄作业 and 群殴群主
  datatype GameKind = Arithmetic | Stars | Homework | Brawl

  datatype MiniGame = MiniGame(
    kind: GameKind,
    slotsUsed: int,
    maxSlots: int,
    participants: seq<UserId>,
    answer: string)

  datatype Champion = Champion(uid: UserId, consecutive: int)

  datatype State = State(
    gid: string,
    kunEnabled: bool,
    gameEnabled: bool,
    players: map<UserId, Player>,
    boss: Option<Boss>,
    auction: Option<Auction>,
    deathList: seq<UserId>,
    lastBossDate: string,
    miniGame: Option<MiniGame>,
    champion: Option<Champion>)

  datatype ScopeType = Group | Private

  datatype Envelope = Envelope(
    scope: ScopeType,
    scopeId: string,
    revision: int,
    updatedAt: int,
    state: State)

  datatype ConfigData = ConfigData(
    defaultJieCao: int,
    defaultLuck: int,
    eggPrice: int,
    tribulationCost: int,
    trainDailyMax: int,
    hatchMisfortuneRate: real)

  predicate ValidConfig(c: ConfigData) {
    && 0 <= c.defaultJieCao <= PRICE_LIMIT
    && 0 <= c.defaultLuck <= 100
    && 1 <= c.eggPrice <= PRICE_LIMIT
    && 1 <= c.tribulationCost <= PRICE_LIMIT
    && 1 <= c.trainDailyMax <= 1000
    && 0.0 <= c.hatchMisfortuneRate <= 1.0
  }

  // A configuration object exists only when its checks pass.
  type Config = c: ConfigData | ValidConfig(c) witness ConfigData(50, 50, 5, 10, 30, 0.007)

  function DefaultPlayer(date: string, cfg: Config): Player {
    Player(None, cfg.defaultJieCao, 0, 0, 0, 0, 0, cfg.defaultLuck, 0, false, date)
  }

  function DefaultState(gid: string): State {
    State(gid, true, true, map[], None, None, [], "", None, None)
  }

  function DefaultEnvelope(scope: ScopeType, scopeId: string, now: int): Envelope {
    Envelope(scope, scopeId, 0, now, DefaultState(scopeId))
  }

  /* ---- The validator, with its 10^15 caps kept apart from everything else ---- */

  predicate WellFormedKun(k: Kun) {
    0.0 <= k.weight && (k.alive ==> 0.0 < k.weight)
  }

  predicate WellFormedPlayer(p: Player) {
    && 0 <= p.jieCao && 0 <= p.eggs && 0 <= p.divineWeapon && 0 <= p.phantomPills
    && 0 <= p.chickenSoup && 0 <= p.resurrectionPills && 0 <= p.todayTrain
    && 0 <= p.luck <= 100
    && (p.kun.Some? ==> WellFormedKun(p.kun.value))
  }

  predicate WellFormedAuction(a: Auction, players: map<UserId, Player>) {
    && a.seller in players
    && players[a.seller].kun.None?
    && WellFormedKun(a.kun)
    && 1 <= a.startPrice <= PRICE_LIMIT
    && 1 <= a.currentBid <= PRICE_LIMIT
    && a.startPrice <= a.currentBid
    && (a.bidder.Some? ==> a.bidder.value in players && a.bidder.value != a.seller)
  }

  predicate WellFormedBoss(b: Boss, players: map<UserId, Player>) {
    && 0.0 <= b.weight && (b.alive ==> 0.0 < b.weight)
    && (forall i :: 0 <= i < |b.damageRank| ==> b.damageRank[i].who in players && 0.0 <= b.damageRank[i].amount)
  }

  predicate Distinct<T(==)>(s: seq<T>) {
    forall i, j :: 0 <= i < j < |s| ==> s[i] != s[j]
  }

  predicate WellFormedMiniGame(g: MiniGame, players: map<UserId, Player>) {
    && 0 <= g.slotsUsed <= g.maxSlots
    && 1 <= g.maxSlots <= 100
    && Distinct(g.participants)
    && g.slotsUsed == |g.participants|
    && (forall i :: 0 <= i < |g.participants| ==> g.participants[i] in players)
  }

  predicate WellFormed(s: State) {
    && (forall u :: u in s.players ==> WellFormedPlayer(s.players[u]))
    && (s.auction.Some? ==> WellFormedAuction(s.auction.value, s.players))
    && (s.boss.Some? ==> WellFormedBoss(s.boss.value, s.players))
    && (s.miniGame.Some? ==> WellFormedMiniGame(s.miniGame.value, s.players))
    && (s.champion.Some? ==> s.champion.value.uid in s.players && 0 <= s.champion.value.consecutive)
  }

  predicate PlayerWithinCaps(p: Player) {
    && p.jieCao <= RESOURCE_LIMIT && p.eggs <= RESOURCE_LIMIT && p.divineWeapon <= RESOURCE_LIMIT
    && p.phantomPills <= RESOURCE_LIMIT && p.chickenSoup <= RESOURCE_LIMIT
    && p.resurrectionPills <= RESOURCE_LIMIT && p.todayTrain <= RESOURCE_LIMIT
    && (p.kun.Some? ==> p.kun.value.weight <= WEIGHT_LIMIT)
  }

  predicate WithinCaps(s: State) {
    && (forall u :: u in s.players ==> PlayerWithinCaps(s.players[u]))
    && (s.auction.Some? ==> s.auction.value.kun.weight <= WEIGHT_LIMIT)
    && (s.boss.Some? ==> s.boss.value.weight <= WEIGHT_LIMIT)
    && (s.champion.Some? ==> s.champion.value.consecutive <= RESOURCE_LIMIT)
  }

  predicate ValidEnvelope(e: Envelope, scope: ScopeType, scopeId: string) {
    && e.scope == scope && e.scopeId == scopeId
    && 0 <= e.revision
    && e.state.gid == scopeId
    && WellFormed(e.state)
    && WithinCaps(e.state)
  }

  /* ---- The strengthened invariant ---- */

  // The ranking is a dictionary: nobody is in it twice.
  predicate RankedOnce(s: State) {
    s.boss.Some? ==> Distinct(RankedIds(s.boss.value.damageRank))
  }

  /** The validator's own checks, and a death list of at most twenty. */
  predicate Sane(s: State) {
    WellFormed(s) && RankedOnce(s) && |s.deathList| <= DEATH_LIST_LIMIT
  }

  /** What every reachable state satisfies beyond that: a kun worth selling, and a game that has room. */
  predicate Live(s: State) {
    && (s.auction.Some? ==> s.auction.value.kun.alive && s.auction.value.kun.attribute != Plain)
    && (s.miniGame.Some? ==> s.miniGame.value.slotsUsed < s.miniGame.value.maxSlots)
  }

  predicate Invariant(s: State) {
    Sane(s) && Live(s)
  }

  function RankedIds(rank: seq<Damage>): (ids: seq<UserId>)
    ensures |ids| == |rank|
    ensures forall i :: 0 <= i < |ids| ==> ids[i] == rank[i].who
  {
    seq(|rank|, i requires 0 <= i < |rank| => rank[i].who)
  }
}
