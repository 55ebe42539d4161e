/** What each command may touch. */
module KunFrames {
  import opened Common
  import opened KunState
  import opened KunRules

  // The parts of the state that a player's command leaves alone.
  ghost predicate Frame(s: State, c: PlayCommand, after: State) {
    && after.gid == s.gid && after.kunEnabled == s.kunEnabled && after.gameEnabled == s.gameEnabled
    && after.lastBossDate == s.lastBossDate && after.players.Keys == s.players.Keys
    && (c.Sell? || c.Bid? || c.Deal? || after.auction == s.auction)
    && (c.StrikeBoss? || after.boss == s.boss)
    && (c.StartGame? || c.Slap? || c.AnswerGame? || after.miniGame == s.miniGame)
    && (c.Duel? || after.champion == s.champion)
  }

  lemma PvpFrame(s: State, u: UserId, kind: PvpKind, mentions: seq<UserId>, t: Tape)
    requires u in s.players
    ensures var o := PvpRule(s, u, kind, mentions, t); o.Done? ==> Frame(s, Pvp(kind, mentions), o.state)
  {
    hide PvpRule, SoleTarget;
  }

  lemma StrikeFrame(s: State, u: UserId, kind: StrikeKind, t: Tape)
    requires u in s.players
    ensures var o := StrikeBossRule(s, u, kind, t); o.Done? ==> Frame(s, StrikeBoss(kind), o.state)
  {
    hide StrikeDamage, Land;
    if MayStrike(s, u, kind) {
      LandFrame(s, u, kind, StrikeDamage(kind, s.players[u].kun.value, t));
    }
  }

  lemma LandFrame(s: State, u: UserId, kind: StrikeKind, damage: real)
    requires u in s.players && s.boss.Some? && Living(s.players[u])
    ensures var o := Land(s, u, kind, damage); o.Done? ==> Frame(s, StrikeBoss(kind), o.state)
  {
    hide Ranked, TopFive, Recoil, Kill, PayEach;
  }

  lemma AuctionFrame(s: State, r: Request, c: PlayCommand)
    requires r.user in s.players
    requires c.Sell? || c.Bid? || c.Deal?
    ensures var o := PlayerRule(s, r, c); o.Done? ==> Frame(s, c, o.state)
  {}

  lemma GameFrame(s: State, r: Request, c: PlayCommand)
    requires r.user in s.players
    requires c.StartGame? || c.AnswerGame? || c.Slap? || c.Duel?
    ensures var o := PlayerRule(s, r, c); o.Done? ==> Frame(s, c, o.state)
  {
    hide StartGameRule, AnswerRule, SlapRule, DuelRule, Frame;
    var u, t := r.user, r.tape;
    match c {
      case StartGame(kind) => AnswerFrame(s, u, kind, "", t);
      case AnswerGame(text) => AnswerFrame(s, u, Arithmetic, text, t);
      case Slap => BrawlFrame(s, u, t);
      case Duel => BrawlFrame(s, u, t);
    }
  }

  lemma AnswerFrame(s: State, u: UserId, kind: AnswerKind, text: string, t: Tape)
    requires u in s.players
    ensures var o := StartGameRule(s, kind, t); o.Done? ==> Frame(s, StartGame(kind), o.state)
    ensures var o := AnswerRule(s, u, text, t); o.Done? ==> Frame(s, AnswerGame(text), o.state)
  {
    hide AnswerText, RandInt;
  }

  lemma BrawlFrame(s: State, u: UserId, t: Tape)
    requires u in s.players
    ensures var o := SlapRule(s, u, t); o.Done? ==> Frame(s, Slap, o.state)
    ensures var o := DuelRule(s, u, t); o.Done? ==> Frame(s, Duel, o.state)
  {
    hide RandInt, Chance;
  }

  lemma PlayFrame(s: State, r: Request, c: PlayCommand)
    requires r.user in s.players
    ensures var o := PlayerRule(s, r, c); o.Done? ==> Frame(s, c, o.state)
  {
    hide CheckAttributesRule, HatchRule, BuyEggsRule, SmashEggsRule, FeedRule, TrainRule, EvolveRule, DrinkSoupRule,
      TribulationRule, ReleaseRule, ResurrectRule, SignInRule;
    match c {
      case Pvp(kind, mentions) => PvpFrame(s, r.user, kind, mentions, r.tape);
      case StrikeBoss(kind) => StrikeFrame(s, r.user, kind, r.tape);
      case Sell(_) => AuctionFrame(s, r, c);
      case Bid(_) => AuctionFrame(s, r, c);
      case Deal => AuctionFrame(s, r, c);
      case StartGame(_) => GameFrame(s, r, c);
      case AnswerGame(_) => GameFrame(s, r, c);
      case Slap => GameFrame(s, r, c);
      case Duel => GameFrame(s, r, c);
      case _ =>
    }
  }

  // A management command never touches players other than by an edit or a returned kun, nor the group id.
  lemma AdminFrame(s: State, r: Request, a: AdminCommand)
    ensures var o := AdminRule(s, r, a);
      o.Done? ==>
        && o.state.gid == s.gid
        && (a.ResetRound? || a.ClearAll? || a.ForceDelist? || o.state.auction == s.auction)
        && (a.RefreshBoss? || a.ResetRound? || a.ClearAll? || o.state.boss == s.boss)
        && (a.ResetRound? || a.ClearAll? || o.state.miniGame == s.miniGame)
        && (a.ResetRound? || a.ClearAll? ==> o.state.boss.None? && o.state.auction.None? && o.state.miniGame.None?)
        && (a.ForceDelist? ==> o.state.auction.None?)
  {
    hide NewBoss;
  }

  lemma PerformKeepsGid(s: State, scope: ScopeType, r: Request)
    ensures var o := Perform(s, scope, r); o.Done? ==> o.state.gid == s.gid
  {
    hide PlayerRule, AdminRule, Frame;
    var today := NewDay(s, r.date);
    match r.action {
      case Play(c) =>
        PlayFrame(Enter(today, r.user, r.date, r.cfg), r, c);
        assert PlayRule(today, scope, r, c).Done? ==> PlayRule(today, scope, r, c).state.gid == s.gid by { FrameGid(); }
      case Manage(a) => AdminFrame(today, r, a);
    }
  }

  lemma FrameGid()
    ensures forall s, c, after :: Frame(s, c, after) ==> after.gid == s.gid
  {}
}
