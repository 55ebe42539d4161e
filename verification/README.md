# Verified models of the qq-ai-bot repository

This project models the parts of the repository where most of its state and branching live, and proves what
they promise. Every file is one module.

| files | what they model |
|---|---|
| `KunState`, `KunRules`, `KunEngine` | the Kun game: its state and validator, one rule per command, and the engine object whose methods update the state in place |
| `KunFrames`, `KunInvariant`, `KunHistory`, `KunLedger`, `KunFates`, `KunPromises` | what every command touches and keeps, what follows over whole runs (escrow, boss, mini-games), what is conserved, who may die or come back to life, and which promises about attributes are kept |
| `KunCommit`, `KunPlugin` | committing through compare-and-set: any number of concurrent executors, and the three-attempt loop of the adapter |
| `SchemaText`, `SchemaCanon`, `SchemaLayout`, `IdentityCollapse` | the 0049 bridge: two quote-tracking scanners, the canonical form of schema statements and what it ignores, and the collapse of aliases and memberships |
| `GithubEvents`, `GithubBatch`, `GithubQueue` | the GitHub monitor: de-duplication, batch planning and text, the durable queue with its validators and drain loop |
| `Routes` | the route-consistency triggers and foreign keys of the 3.8 schema |
| `Recovery` | the reconciliation of legacy progress in migration 0059 |
| `Digest` | the bounded digest of external events |
| `Common` | options, decimal numerals, the order of strings |

Code that changes things step by step is a class or a loop, proved against functions on values; the results are
lemmas about those functions. Randomness is an arbitrary stream, cut down to the range each call asks for;
weights are reals. `dafny verify dfyconfig.toml` checks the whole project.

## Where the code does less than one might expect

- The state validator of the game is not inductive: a full mini-game passes it, and one more slap then breaks it
  (`KunHistory.ValidatorIsNotInductive`); nothing else does (`KunInvariant.ValidatorKeptExactly`). What every command
  keeps is the stronger `KunState.Invariant`, which the default state satisfies.
- Normalizing schema text twice is not always normalizing it once; `SchemaCanon.IdempotentExactly` says for every
  text when it is.
- The canonical form of a table statement ignores layout only where the parentheses it looks for are found outside
  quotes, or in a literal that never ends; `SchemaLayout.LayoutIsIgnoredExactly` says for every text when it does, and
  `SchemaLayout.QuotedParenthesisMisleads` shows two layouts that it tells apart.
- The queue checks let two ids stand for one number, and order events strictly exactly when none do
  (`GithubQueue.StrictExactlyWithoutTies`); ids made by the poller never do.
- The helper that bounds the text of a batch would cut its own trailer after a summary that fills the limit
  (`GithubBatch.LongSummaryCutsTrailer`); no batch has such a summary (`GithubBatch.BatchTextKeepsTrailer`).
- Reconciling legacy progress again suspends unfinished ambiguous works again, with one more revision each
  (`Recovery.SecondRun`).
- The digest takes one item even under a limit of 0 (`Digest.LimitIsKeptWhen`); the settings admit only limits above 0
  (`src/qq_ai_bot/settings_domains.py:168`).
- The text that describes the attributes of a kun promises things the code does not do: 惰 is not immune to an assault,
  妒 turns away the lighter attacker and never the heavier one (`KunPromises.FightsRefusedExactly`), and 傲 ignores the
  attribute of the other side only when that has nothing to do with the fight (`KunPromises.PrideIgnoresExactly`). The
  model follows the code.

## Model

| member | source | states |
|---|---|---|
| KunInvariant.PerformKeeps | plugins/io.github.yuanyeyoutao.kun-game/engine.py:489-617 | From a state satisfying the strengthened invariant, every play or management command, for every user, date, configuration and stream of random draws, either rejects or leaves a state satisfying the invariant: counters non-negative, luck in 0..100, a living kun heavier than 0, ranked, bidding and champion ids known, death list at most 20 long |
| KunInvariant.ValidatorKeptExactly | plugins/io.github.yuanyeyoutao.kun-game/engine.py:1557-1778 | From every state that passes the validator, an accepted command leaves one that passes it, caps aside, exactly unless it is the slap of a newcomer at a brawl whose slots are all taken |
| KunInvariant.DefaultKeeps | plugins/io.github.yuanyeyoutao.kun-game/engine.py:260-275 | The default state of a scope satisfies the invariant and the 10^15 caps |
| KunInvariant.HatchKeeps | plugins/io.github.yuanyeyoutao.kun-game/engine.py:708-737 | Hatching keeps the checks of the validator, also for the misfortune kun that outweighs the heaviest living one |
| KunInvariant.DevourKeeps | plugins/io.github.yuanyeyoutao.kun-game/engine.py:905-955 | Devouring keeps the checks of the validator in all its endings: failure, bite, swallowing, and the death of both |
| KunInvariant.AttackKeeps | plugins/io.github.yuanyeyoutao.kun-game/engine.py:977-1017 | Attacking keeps the checks of the validator in all its endings |
| KunInvariant.AssaultKeeps | plugins/io.github.yuanyeyoutao.kun-game/engine.py:1019-1037 | Assaulting keeps the checks of the validator in all its endings |
| KunInvariant.StrikeKeeps | plugins/io.github.yuanyeyoutao.kun-game/engine.py:1084-1150 | A strike at the boss keeps the checks of the validator: the ranking stays without repetition and names known players, a living boss weighs more than 0 |
| KunInvariant.DealKeeps | plugins/io.github.yuanyeyoutao.kun-game/engine.py:1258-1279 | Closing a deal keeps the checks of the validator |
| KunInvariant.RestoreKeeps | plugins/io.github.yuanyeyoutao.kun-game/engine.py:1492-1513 | Returning the escrowed kun keeps the checks of the validator and is never refused |
| KunInvariant.AnswerKeeps | plugins/io.github.yuanyeyoutao.kun-game/engine.py:1359-1380 | Answering a mini-game keeps the checks of the validator, even from a game that is full |
| KunInvariant.SlapKeeps | plugins/io.github.yuanyeyoutao.kun-game/engine.py:1382-1403 | An accepted slap keeps the checks of the validator exactly unless a newcomer slaps at a full brawl |
| KunInvariant.EditKeeps | plugins/io.github.yuanyeyoutao.kun-game/engine.py:1427-1490 | An accepted edit keeps the checks of the validator and never gives a kun to the seller of an open auction |
| KunInvariant.NewDayKeeps | plugins/io.github.yuanyeyoutao.kun-game/engine.py:478-487 | The daily reset keeps the checks of the validator, and shortens a death list that is too long |
| KunHistory.ValidatorIsNotInductive | plugins/io.github.yuanyeyoutao.kun-game/engine.py:1760-1778 | A concrete state that the validator accepts and one slap turns into one it refuses: the validator alone is not an invariant |
| KunFrames.PlayFrame | plugins/io.github.yuanyeyoutao.kun-game/engine.py:509-579 | What each play command may touch: auction, boss, mini-game and champion change only under their own commands |
| KunFrames.AdminFrame | plugins/io.github.yuanyeyoutao.kun-game/engine.py:581-617 | What each management command may touch |
| KunHistory.DealRefusedWhen | plugins/io.github.yuanyeyoutao.kun-game/engine.py:1258-1279 | In every state that passes the validator a deal is refused exactly when there is no auction of this seller, no bidder, the bidder has a kun, or is short of 节操; the custody-conflict and missing-player branches are dead |
| KunHistory.RestoreNeverConflicts | plugins/io.github.yuanyeyoutao.kun-game/engine.py:1281-1289 | In every state that passes the validator returning the escrowed kun is never refused, and delisting is refused exactly without an auction or before 300 seconds |
| KunHistory.AnswerRefusedWhen | plugins/io.github.yuanyeyoutao.kun-game/engine.py:1359-1367 | In every reachable state an answer is refused exactly without an answerable game or from a participant; the slots-full branch is dead |
| KunHistory.StrikeNeverKillsAttacker | plugins/io.github.yuanyeyoutao.kun-game/engine.py:1084-1150 | A strike is refused only by its up-front checks, and an accepted one leaves the attacker alive with at least 7/10 of its weight: the branch where recoil kills is dead |
| KunHistory.EscrowOverRun | plugins/io.github.yuanyeyoutao.kun-game/engine.py:1216-1289 | Over every run of accepted commands, while an auction stays open its seller is a known player without a kun, the escrowed kun is alive and not 无, a bidder is another known player, and the bid only rises |
| KunHistory.BossStep | plugins/io.github.yuanyeyoutao.kun-game/engine.py:1069-1150 | One command gives birth to a boss of 2000..5000 with an empty ranking, removes the boss, leaves it, or moves weight from it to the ranking |
| KunHistory.BossLedger | plugins/io.github.yuanyeyoutao.kun-game/engine.py:1069-1150 | Over every run from the default state, the birth weight of a living boss is its weight plus the sum of its ranking; a dead one weighs 0 and has a ranking sum of at least its birth weight |
| KunHistory.GameOverRun | plugins/io.github.yuanyeyoutao.kun-game/engine.py:1322-1403 | Over every run, a mini-game that stays open keeps its kind, answer and slots, its participants only grow, are all different and fewer than its slots |
| KunHistory.SortIsPermutation | plugins/io.github.yuanyeyoutao.kun-game/engine.py:1135-1137 | Sorting the ranking keeps exactly its entries |
| KunHistory.SortDescends | plugins/io.github.yuanyeyoutao.kun-game/engine.py:1135-1137 | The sorted ranking descends by damage |
| KunHistory.TopFiveRanked | plugins/io.github.yuanyeyoutao.kun-game/engine.py:1135-1137 | min(5, ranked players) different players are rewarded, all of them ranked |
| KunHistory.TopFiveLeads | plugins/io.github.yuanyeyoutao.kun-game/engine.py:1135-1137 | Nobody left out of the reward dealt more damage than somebody in it |
| KunLedger.AuctionConserves | plugins/io.github.yuanyeyoutao.kun-game/engine.py:1216-1289 | Across 出售, 出价, 成交, 强制下架 and 重置局状态 every kun record is held as often by players and escrow together as before, and total 节操 changes only by the default purse of a first-time player |
| KunLedger.DealConserves | plugins/io.github.yuanyeyoutao.kun-game/engine.py:1258-1279 | A deal moves the price from bidder to seller and the kun from escrow to bidder, creating and losing nothing |
| KunLedger.BossKillMints | plugins/io.github.yuanyeyoutao.kun-game/engine.py:1129-1137 | A strike that leaves the boss alive mints nothing; the killing one mints exactly 20 eggs and 100 + 300 * min(5, ranked players) 节操 beyond its own cost |
| KunFates.DevouringEnds | plugins/io.github.yuanyeyoutao.kun-game/engine.py:905-975 | A devouring ends in one of three ways: the attacker loses a fifth and the defender nothing; or a bite of 3/10 to 6/10 of the attacker goes over whole to it; or the defender dies by it and it gains exactly what was left. The attacker can die only of a 淫 it got past |
| KunFates.AttackEnds | plugins/io.github.yuanyeyoutao.kun-game/engine.py:977-1017 | An attack never harms the attacker nor moves weight: the defender loses 1/10 to 3/10 of the weight of the attacker, up to 45/100 from a 怒, or dies by it; only a 淫 gains, by half, and only when the defender lives |
| KunFates.AssaultEnds | plugins/io.github.yuanyeyoutao.kun-game/engine.py:1019-1037 | An assault costs one weapon and at most two 节操 and nothing else, and misses, wounds by 50 to 300, or kills a kun of at most 300 |
| KunFates.DeathsAreRecordedAndFinal | plugins/io.github.yuanyeyoutao.kun-game/engine.py:489-617 | Over every command and draw: whose kun dies is on the death list afterwards, although the list is trimmed, and no dead kun of anybody is replaced by a living one but by its own player hatching or reviving |
| KunPromises.FightsRefusedExactly | plugins/io.github.yuanyeyoutao.kun-game/engine.py:905-1024 | Exactly when an assault, a devouring and an attack are refused, by weapon, attributes and weights, under all draws |
| KunPromises.PrideIgnoresExactly | plugins/io.github.yuanyeyoutao.kun-game/engine.py:905-1017 | A 傲 devours, and attacks, under all draws as if the other kun had no attribute, the whole resulting state included, if and only if it is too small to fight or the attribute plays no part: not 魅, 惰, 淫 (devouring), 魍 (attacking), nor 妒 on a heavier kun |
| KunRules.DevourRule | plugins/io.github.yuanyeyoutao.kun-game/engine.py:905-955 | Devouring changes nothing but the two owners and the death list |
| KunRules.AttackRule | plugins/io.github.yuanyeyoutao.kun-game/engine.py:977-1017 | Attacking changes nothing but the two owners and the death list |
| KunRules.SoleTarget | plugins/io.github.yuanyeyoutao.kun-game/engine.py:887-891 | A command against a player has a target exactly when one other user is mentioned, however often |
| KunRules.Smash | plugins/io.github.yuanyeyoutao.kun-game/engine.py:764-782 | No more drops than eggs, and one draw per egg plus one per drop |
| KunRules.NewAttribute | plugins/io.github.yuanyeyoutao.kun-game/engine.py:850-863 | A transformation always offers a different attribute, never 悲 |
| KunEngine.Engine.NewDayReset | plugins/io.github.yuanyeyoutao.kun-game/engine.py:478-487 | The daily reset: trimmed death list, boss of another day gone, every player renewed |
| KunEngine.Engine.RenewPlayers | plugins/io.github.yuanyeyoutao.kun-game/engine.py:483-487 | The loop over players renews exactly those last renewed on another date |
| KunEngine.Engine.PlayerOf | plugins/io.github.yuanyeyoutao.kun-game/engine.py:466-470 | A first-time user gets the default player; nobody else changes |
| KunEngine.Engine.KillKun | plugins/io.github.yuanyeyoutao.kun-game/engine.py:1543-1554 | The kun dies with weight at least 0 and its killer, and the death list keeps its last 20 entries |
| KunEngine.Engine.HeaviestLiving | plugins/io.github.yuanyeyoutao.kun-game/engine.py:1535-1541 | The loop finds the weight of the heaviest living kun, 1000 without one |
| KunEngine.Engine.SmashAll | plugins/io.github.yuanyeyoutao.kun-game/engine.py:770-783 | The loop over eggs: its drops, and the number of draws it takes |
| KunEngine.Engine.PayTopFive | plugins/io.github.yuanyeyoutao.kun-game/engine.py:1135-1137 | The loop pays each ranked player once, and is refused exactly when one is unknown |
| KunEngine.Engine.HomeworkQuestion | plugins/io.github.yuanyeyoutao.kun-game/engine.py:1342-1346 | The loop draws the text that is to be copied backwards |
| KunEngine.Engine.PlayGated | plugins/io.github.yuanyeyoutao.kun-game/engine.py:489-508 | The gates before a play command: unknown commands, private scopes, a switched-off game, a first-time player |
| KunEngine.Engine.PlayAs | plugins/io.github.yuanyeyoutao.kun-game/engine.py:509-1425 | Dispatch to one method for each play command, which updates the state in place: the state afterwards, or the refusal, is the one the rule of that command gives, draw for draw |
| KunEngine.Engine.Admin | plugins/io.github.yuanyeyoutao.kun-game/engine.py:581-617 | Dispatch to one method for each management command, edits, delisting and resets included, likewise |
| KunEngine.RunCommand | plugins/io.github.yuanyeyoutao.kun-game/engine.py:290-410 | The whole invocation on a stored envelope: corrupt, unchanged, or the next envelope with revision + 1, exactly as specified |
| KunCommit.ExecuteIsSound | plugins/io.github.yuanyeyoutao.kun-game/engine.py:386-410 | On a sound store an invocation changes nothing, or yields a sound envelope with the next revision, or is refused as corrupt exactly when the new state breaks a 10^15 cap |
| KunCommit.SameValueSameMoment | plugins/io.github.yuanyeyoutao.kun-game/plugin.py:173-253 | The store holds the value an executor read exactly when nobody has committed since: comparing values is free of ABA, also through 清除全群数据 |
| KunCommit.StepKeeps | plugins/io.github.yuanyeyoutao.kun-game/plugin.py:173-253 | Every read, swap or storage failure of any executor, also one that strikes after the swap took place, keeps the chain and what is known of every executor |
| KunCommit.EveryInterleavingIsGood | plugins/io.github.yuanyeyoutao.kun-game/plugin.py:173-253 | Every interleaving of any number of executors, from an empty store or any sound one, satisfies the system invariant at every moment and leaves the requests as they were |
| KunCommit.Linearizable | plugins/io.github.yuanyeyoutao.kun-game/plugin.py:173-253 | In every interleaving, from an empty store or any sound one, each commit is the engine applied to its predecessor and the k-th has the revision of the store at the start plus k; a command commits at most once; a reply of success names its commit; any other reply but a storage failure means that it did not commit; a conflict means at least three commits by others since its first read |
| KunCommit.InterleavingIsRun | plugins/io.github.yuanyeyoutao.kun-game/plugin.py:173-253 | The committed states of every interleaving form a run of the engine on the committed requests from the state stored at the start, so the results over runs hold under contention |
| KunPlugin.ScopeStorage.ExecuteCommand | plugins/io.github.yuanyeyoutao.kun-game/plugin.py:173-253 | The three-attempt loop, whatever rivals do between its storage calls, whichever call raises, and whether a swap that raises took place, is a run of the system that ends with a reply |
| KunPlugin.ScopeStorage.LetOthers | plugins/io.github.yuanyeyoutao.kun-game/plugin.py:173-253 | Steps of other executors compose into one run and leave this executor where it was |
| KunPlugin.ScopeStorage.TakeTurn | plugins/io.github.yuanyeyoutao.kun-game/plugin.py:178-252 | One storage call after the steps of others: read leads to a computed envelope or a reply, swap to a reply or one more attempt |
| KunPlugin.AfterJoins | plugins/io.github.yuanyeyoutao.kun-game/plugin.py:173-253 | Runs of the system compose |
| SchemaText.NormalizeSchemaSql | migrations/versions/0049_canonical_only_bridge.py:913-948 | The normalizing loop, which looks one character ahead inside literals, computes the output of a five-mode automaton that never does |
| SchemaText.SplitTableComponents | migrations/versions/0049_canonical_only_bridge.py:951-990 | The splitting loop computes the components cut by the same automaton |
| SchemaText.SplitThenJoin | migrations/versions/0049_canonical_only_bridge.py:951-990 | Joining the components with commas gives back the body, for every string |
| SchemaText.JoinThenSplit | migrations/versions/0049_canonical_only_bridge.py:951-990 | Closed components joined with commas split back into themselves |
| SchemaText.SplitIsFinest | migrations/versions/0049_canonical_only_bridge.py:951-990 | Every split point is outside quotes and parentheses, and no component could be split further |
| SchemaText.ScannersAgree | migrations/versions/0049_canonical_only_bridge.py:913-990 | Normalizing a body equals joining the normalized components: both scanners see the same quotes, for every string |
| SchemaCanon.SpaceIsLayout | migrations/versions/0049_canonical_only_bridge.py:913-948 | Adding or removing white space outside literals is a change of layout |
| SchemaCanon.CaseIsLayout | migrations/versions/0049_canonical_only_bridge.py:913-948 | Changing the case of a letter outside literals is a change of layout |
| SchemaCanon.QuotingIsLayout | migrations/versions/0049_canonical_only_bridge.py:913-948 | Changing the quotes of an identifier is a change of layout for every name neither closing quote occurs in, dropping them for every plain name |
| SchemaCanon.LiteralsAreKept | migrations/versions/0049_canonical_only_bridge.py:913-948 | Inside string literals nothing is layout |
| SchemaCanon.SortedIgnoresOrder | migrations/versions/0049_canonical_only_bridge.py:993-1015 | Sorting depends only on what is sorted |
| SchemaCanon.SameTextSameComponents | migrations/versions/0049_canonical_only_bridge.py:913-990 | Texts equal up to layout have the same normalized components |
| SchemaCanon.CanonicalIgnoresLayoutAndOrder | migrations/versions/0049_canonical_only_bridge.py:993-1015 | Table statements that agree up to layout around the body, in their columns, and in their trailing constraints in any order have one canonical form |
| SchemaLayout.LayoutIsIgnored | migrations/versions/0049_canonical_only_bridge.py:993-1015 | Whole statements of any kind that differ only in layout have one canonical form under every column count, every fall-through branch included, when one of them, if it is a table statement, is steady: its first ( and last ) stand outside quotes, or in a literal without end that no identifier can read like |
| SchemaLayout.LayoutIsIgnoredExactly | migrations/versions/0049_canonical_only_bridge.py:993-1015 | For every table statement: all its layouts have one canonical form, under all column counts, if and only if it creates a virtual table or is steady; the same holds with no column or one |
| SchemaLayout.Misread | migrations/versions/0049_canonical_only_bridge.py:1002-1015 | For every table statement that is neither there is another layout with another canonical form: a pair of quotes around nothing, which a scanner cut off inside quotes takes for text |
| SchemaLayout.BodyShows | migrations/versions/0049_canonical_only_bridge.py:1002-1005 | Layout does not decide whether a statement has a ( before its last ) |
| SchemaLayout.QuotedParenthesisMisleads | migrations/versions/0049_canonical_only_bridge.py:1002-1007 | Two concrete CREATE TABLE statements of one column that differ only in the quotes of the table name, which holds a (, and have different canonical forms |
| SchemaCanon.ConstraintOrderIsIgnored | migrations/versions/0049_canonical_only_bridge.py:993-1015 | Permuting the trailing constraints of a table statement keeps its canonical form |
| SchemaCanon.IdempotentExactly | migrations/versions/0049_canonical_only_bridge.py:913-948 | For every string: normalizing twice is normalizing once exactly when each character the first pass keeps is one the second keeps, that is, opening marks, white space and capitals are kept only after an odd number of kept apostrophes |
| SchemaCanon.IdempotentWhen | migrations/versions/0049_canonical_only_bridge.py:913-948 | In particular, where no quoted identifier holds an apostrophe, exactly when no quoted identifier holds an opening ", ` or [, however literals fuse |
| SchemaCanon.ApostropheBreaksIdempotence | migrations/versions/0049_canonical_only_bridge.py:913-948 | A concrete statement with an apostrophe in a quoted identifier that changes when normalized again |
| IdentityCollapse.MergeBounds | migrations/versions/0049_canonical_only_bridge.py:3042-3050 | The merged alias row has the least id, the least type, the earliest and the latest time of its group, each attained |
| IdentityCollapse.BestOfAll | migrations/versions/0049_canonical_only_bridge.py:3053-3065 | The surviving card is the first in the order named, latest, smallest, earliest; the times are the extremes of the group |
| IdentityCollapse.AliasCollapseIgnoresOrder | migrations/versions/0049_canonical_only_bridge.py:3042-3050 | The alias collapse and its summary depend only on which rows there are |
| IdentityCollapse.AliasCollapseKeepsSummary | migrations/versions/0049_canonical_only_bridge.py:709-717 | A collapsed alias table, listed in any order, has the summary of the original, and the ordered digests read before and after are the same lines, one per key, so the check passes |
| IdentityCollapse.AliasesCollapse | migrations/versions/0049_canonical_only_bridge.py:3042-3050 | Every alias table has a collapsed one, with exactly one row per key |
| IdentityCollapse.MemberCollapseIgnoresOrder | migrations/versions/0049_canonical_only_bridge.py:3053-3065 | The membership collapse and its summary depend only on which rows there are |
| IdentityCollapse.MemberCollapseKeepsSummary | migrations/versions/0049_canonical_only_bridge.py:720-733 | A collapsed membership table, listed in any order, has the summary and the digest of the original |
| IdentityCollapse.MembersCollapse | migrations/versions/0049_canonical_only_bridge.py:3053-3065 | Every membership table has a collapsed one, with exactly one row per key |
| IdentityCollapse.DigestIsUnique | migrations/versions/0049_canonical_only_bridge.py:699-707 | When the ordering columns tell the keys apart a summary has one digest, of one line per key |
| IdentityCollapse.DigestExists | migrations/versions/0049_canonical_only_bridge.py:699-707 | Every summary has such a digest |
| Routes.AcceptedIffConsistent | migrations/versions/0048_canonical_3_8_baseline.py:2155-2293 | From a consistent database an insert, update or delete on any of the six tables, or a change of what the other tables cite, passes triggers, keys and foreign keys exactly when it respects the primary key and the whole resulting database is consistent: no harmful write is let through and no harmless one refused |
| Routes.PresenceGuard | migrations/versions/0048_canonical_3_8_baseline.py:2196-2220 | The trigger on presence platforms, unique accounts and the RESTRICT keys of the routes and of all other tables together are exactly consistency of the result |
| Routes.IdentityGuard | migrations/versions/0048_canonical_3_8_baseline.py:2155-2169 | The trigger on identity bindings is exactly consistency of the result |
| Routes.SpaceGuard | migrations/versions/0048_canonical_3_8_baseline.py:2272-2293 | The trigger on space bindings, over ingest and active routes, is exactly consistency of the result |
| Routes.RouteGuard | migrations/versions/0048_canonical_3_8_baseline.py:2170-2195 | The triggers on person and space routes are exactly consistency of the result |
| Routes.IngestGuard | migrations/versions/0048_canonical_3_8_baseline.py:2248-2271 | The triggers on ingest routes are exactly consistency of the result |
| Routes.RunStaysConsistent | migrations/versions/0048_canonical_3_8_baseline.py:2155-2293 | Any sequence of statements, refused ones leaving everything as it was, ends in a consistent database |
| Routes.RoutesReachTheirOwners | migrations/versions/0048_canonical_3_8_baseline.py:1155-1211 | After any sequence of statements every person and space route points to an existing binding of its own person or space, and every route, ingest routes included, joins a binding and a presence on one platform |
| Routes.Database.ChangePresence | migrations/versions/0048_canonical_3_8_baseline.py:2196-2220 | One statement on presences: accepted as specified, the database then is the result or unchanged, and stays consistent |
| Routes.Database.ChangeIdentityBinding | migrations/versions/0048_canonical_3_8_baseline.py:2155-2169 | One statement on identity bindings: accepted as specified, the database then is the result or unchanged, and stays consistent |
| Routes.Database.ChangeSpaceBinding | migrations/versions/0048_canonical_3_8_baseline.py:2272-2293 | One statement on space bindings: accepted as specified, the database then is the result or unchanged, and stays consistent |
| Routes.Database.ChangePersonRoute | migrations/versions/0048_canonical_3_8_baseline.py:2170-2195 | One statement on person routes: accepted as specified, the database then is the result or unchanged, and stays consistent |
| Routes.Database.ChangeSpaceRoute | migrations/versions/0048_canonical_3_8_baseline.py:2222-2247 | One statement on space routes: accepted as specified, the database then is the result or unchanged, and stays consistent |
| Routes.Database.ChangeIngestRoute | migrations/versions/0048_canonical_3_8_baseline.py:2248-2271 | One statement on ingest routes: accepted as specified, the database then is the result or unchanged, and stays consistent |
| Routes.Database.ChangeOtherTables | migrations/versions/0048_canonical_3_8_baseline.py:1321-1322 | Rows of the other tables may cite exactly presences that exist; a refused change leaves everything as it was |
| Recovery.Store.ReconcileLegacyProgress | migrations/versions/0059_runtime_recovery.py:33-77 | The two loops and the final update leave every work and every budget exactly as specified |
| Recovery.Collect | migrations/versions/0059_runtime_recovery.py:37-55 | The loop over rows fills the two dictionaries with the groups of each work, their largest observations, and the owners of each group |
| Recovery.LargestOf | migrations/versions/0059_runtime_recovery.py:56-57 | The largest of the group maxima is the least usage that covers all snapshots of the work |
| Recovery.AmbiguousBySize | migrations/versions/0059_runtime_recovery.py:64-64 | The size comparisons hold exactly when a work has snapshots of several groups or shares a group |
| Recovery.ReconciliationIgnoresOrder | migrations/versions/0059_runtime_recovery.py:33-71 | The order of the rows, repeated rows and unreadable rows make no difference |
| Recovery.CountersOnlyRise | migrations/versions/0059_runtime_recovery.py:56-63 | A counter ends as the least value that is at least what it was and at least every observation; it never falls |
| Recovery.SuspendsExactly | migrations/versions/0059_runtime_recovery.py:64-70 | Exactly the non-terminal works with several groups or a shared group are suspended, with reason and one more revision; no other state, reason or revision changes |
| Recovery.BudgetsCoverTheirFamilies | migrations/versions/0059_runtime_recovery.py:71-77 | Each root budget is the larger of what it was and the sum over the root and its subagents |
| Recovery.SecondRun | migrations/versions/0059_runtime_recovery.py:33-77 | A second run leaves counters and budgets unchanged, and the whole work table exactly when no non-terminal work is ambiguous, for such a work gains one more revision |
| Digest.RecentDigest | src/qq_ai_bot/event_prompt.py:147-182 | The newest-first loop with its early stops returns the longest tail of eligible items that has room and fits the character cap |
| Digest.LongestTailIsUnique | src/qq_ai_bot/event_prompt.py:147-182 | There is only one longest tail |
| Digest.GrowthCounts | src/qq_ai_bot/event_prompt.py:111-144 | The appended size is the wrapper, the items and one comma per item |
| Digest.LongerTailIsLarger | src/qq_ai_bot/event_prompt.py:111-144 | A longer tail is strictly larger, which is why stopping at the first overflow is the best choice |
| Digest.LimitIsKeptWhen | src/qq_ai_bot/event_prompt.py:163-182 | The result keeps to the item limit exactly when the limit is at least 1, or is 0 and the newest item alone does not fit |
| Digest.ZeroLimitStillTakesOne | src/qq_ai_bot/event_prompt.py:163-182 | Under the limit 0 a single item that just fits is still taken |
| GithubEvents.NumericEventId | plugins/github-monitor/github_monitor/events.py:193-199 | An id is accepted exactly when its stripped, bounded text is a canonical decimal numeral |
| GithubEvents.DeduplicateRawEvents | plugins/github-monitor/github_monitor/events.py:218-230 | The loop over a dictionary computes the specified result, with the error of the first offending item |
| GithubEvents.DeduplicationIsExact | plugins/github-monitor/github_monitor/events.py:218-230 | It fails exactly when an item is unacceptable or one id carries two payloads; otherwise the result is strictly increasing by number and holds exactly the items given |
| GithubEvents.DeduplicationIgnoresOrder | plugins/github-monitor/github_monitor/events.py:218-230 | Page order, overlap and repetition make no difference |
| GithubEvents.DeduplicationIsIdempotent | plugins/github-monitor/github_monitor/events.py:218-230 | Collapsing a collapsed list changes nothing |
| GithubBatch.CoalescingIsEquivalence | plugins/github-monitor/github_monitor/aggregation.py:106-128 | Compatibility is reflexive exactly on coalescible events, symmetric and transitive |
| GithubBatch.PlanAdjacentMembers | plugins/github-monitor/github_monitor/aggregation.py:40-60 | The planning loop computes the longest compatible prefix within the limit |
| GithubBatch.PlanIsGoodRun | plugins/github-monitor/github_monitor/aggregation.py:40-60 | A plan is a prefix of the queue within the limit, its members are mutually compatible, and it cannot take the next event |
| GithubBatch.DrainPartitions | plugins/github-monitor/github_monitor/aggregation.py:40-60 | For every limit of at least 1, repeated planning cuts a queue into consecutive such runs whose concatenation is the queue |
| GithubBatch.PlannedRunProjects | plugins/github-monitor/github_monitor/aggregation.py:63-78 | The projection refuses no planned batch, nor one shortened from its end, unless fewer than two members are left |
| GithubBatch.BoundedText | plugins/github-monitor/github_monitor/aggregation.py:162-175 | The text never exceeds 12000 characters; it is complete when that fits, otherwise it keeps the lines up to the first overflow and a trailer |
| GithubBatch.TrailerSurvivesWhen | plugins/github-monitor/github_monitor/aggregation.py:162-175 | When lines are dropped the final slice cuts nothing, and the trailer states exactly the missing lines, if and only if summary and first trailer fit alone |
| GithubBatch.LongSummaryCutsTrailer | plugins/github-monitor/github_monitor/aggregation.py:162-175 | The helper by itself cuts the trailer of every summary that fills the limit |
| GithubBatch.BatchTextKeepsTrailer | plugins/github-monitor/github_monitor/aggregation.py:63-178 | The text of a batch of normalized events, fewer than ten thousand, is never cut: it is complete or ends in a trailer that states exactly the missing lines |
| Common.DecimalLengthIsMonotone | plugins/github-monitor/github_monitor/aggregation.py:162-175 | A larger number of omitted lines never prints shorter |
| GithubQueue.ValidMeansOrdered | plugins/github-monitor/github_monitor/models.py:264-315 | On events with canonical ids the queue checks hold exactly when committed < inflight < pending, strictly increasing, with accepted the last id and fingerprint |
| GithubQueue.StrictExactlyWithoutTies | plugins/github-monitor/github_monitor/models.py:264-315 | Every queue that passes the checks is strictly increasing exactly when no two of its ids are the same number |
| GithubQueue.CanonicalIdsDoNotTie | plugins/github-monitor/github_monitor/models.py:264-315 | In a queue that passes the checks canonical ids are never the same number |
| GithubQueue.NonCanonicalIdsTie | plugins/github-monitor/github_monitor/models.py:264-315 | A concrete queue with the ids "1" and "01" passes the checks and is not strictly increasing |
| GithubQueue.AcceptKeeps | plugins/github-monitor/github_monitor/polling.py:495-515 | Accepting strictly newer events yields a valid queue by a transition the store accepts |
| GithubQueue.SealKeeps | plugins/github-monitor/github_monitor/polling.py:701-747 | Sealing any non-empty prefix of pending yields a valid queue by a transition the store accepts, with the same work in the same order |
| GithubQueue.DeliverKeeps | plugins/github-monitor/github_monitor/polling.py:1004-1019 | Advancing deliveries keeps the queue valid, by a transition the store accepts |
| GithubQueue.GapKeeps | plugins/github-monitor/github_monitor/polling.py:1151-1160 | Recording a gap keeps the queue valid, by a transition the store accepts, and changes nothing queued |
| GithubQueue.CommitKeeps | plugins/github-monitor/github_monitor/polling.py:764-779 | Committing a fully delivered unit yields a valid queue by a transition the store accepts and removes exactly that unit |
| GithubQueue.Coordinator.Fit | plugins/github-monitor/github_monitor/polling.py:712-722 | Shrinking a batch stops at the longest prefix that is not too large, or at one member |
| GithubQueue.Coordinator.Finish | plugins/github-monitor/github_monitor/polling.py:812-890 | One delivery of the sealed unit reaches an end, or stays attempting when its attempt raises or finds a gap; every step is one the store accepts, and nothing else changes |
| GithubQueue.Coordinator.DrainOne | plugins/github-monitor/github_monitor/polling.py:701-779 | One unit is planned, fitted, sealed, delivered and, if that ended, committed; it is the front of the work, and otherwise the work stays as it was |
| GithubQueue.Coordinator.DrainQueue | plugins/github-monitor/github_monitor/polling.py:688-780 | The units committed are, in order, the front of the queued work; the loop stops with all work done, and then accepted equals committed with equal fingerprints, or with the event limit reached, a stop, a gap or a failed attempt |
| GithubQueue.Coordinator.Poll | plugins/github-monitor/github_monitor/polling.py:385-530 | One poll accepts exactly the fetched events behind the cursor when nothing was queued and the last accepted event is among them unchanged, records a gap when it is not, and commits the front of the work before and after |
| GithubQueue.Coordinator.TakeIn | plugins/github-monitor/github_monitor/polling.py:450-515 | The check of the overlap, the adoption of a missing fingerprint and the acceptance of newer events: a gap or a queue that holds just these |
| GithubQueue.AdoptKeeps | plugins/github-monitor/github_monitor/polling.py:464-476 | Adopting the fingerprint of the last accepted event is a transition the store accepts, to a valid queue |
| GithubQueue.EachEventOnceInOrder | plugins/github-monitor/github_monitor/polling.py:385-530 | Over any series of polls the committed events followed by the queued ones are the events queued at first followed by all accepted since, strictly increasing: each event once and in order |

## Left out

- Reply texts, display, seller and champion names, death-list reasons, menus, the question texts of mini-games (their
  answers are modelled), the `rewards` table and the `anti_*` lists of the game: presentation, or never read.
- The `qq` field of a player, which repeats its key; kun and boss names are numbers into their lists.
- Floating point: weights and damages are exact reals, and the finiteness checks of the validator have no counterpart.
- JSON, type and timestamp checks of the validators, timezones: dates are opaque text, instants are integers.
- Splitting a command line into name and argument: an argument arrives as missing, malformed or a number, the answer
  to a mini-game already stripped and upper-cased. The shuffle of the stars changes no answer.
- The 10^15 caps are not kept by every command; a commit that breaks one is refused, as `KunCommit.ExecuteIsSound` says.
- KunEngine.Engine.PlayAs: players are values in a map that the engine reassigns, not records on a heap, so sharing of records is not captured; the code shares none beyond one command, because a sold kun is copied and a bought one leaves the auction.
- The local lock and the `配置` command of the plugin.
- Storage returning the ranking in another key order: ties among equally ranked players follow insertion order here.
- Permission checks of the game commands.
- Unicode: lower-casing, case folding, white space and digits are those of ASCII.
- Statements other than the ones `_canonical_schema_sql` reads, and how it counts the columns of a live table: the
  column count is a parameter.
- Memberships with a missing id and aliases with an empty space id: the upgrade refuses the first before it starts
  (`migrations/versions/0049_canonical_only_bridge.py:296-300`), and the foreign key to spaces, whose ids have 36
  characters, the second.
- SchemaLayout.LayoutIsIgnoredExactly: its exact condition is over all column counts together, or for none or one; with
  more columns a misread body can have too few components in every layout, and then the normalized text is kept.
- Hashing: fingerprints and digests are taken as injective.
- Activation, re-baselining and what ends a gap, legacy import, prepared requests and media of the GitHub queue; the
  payload size is an arbitrary predicate, and how an attempt to publish ends an arbitrary function.
- GithubQueue.ValidMeansOrdered: in a queue with ids that are not canonical, ties among inflight ids follow member order here and a set order there.
- A queue write that loses against another writer: it ends the drain, and nothing of it is stored.
- GithubEvents.DeduplicateRawEvents: an item is its id, a body and whether it can be encoded.
- Events, formatters, HTTP client and commands of the GitHub monitor: I/O.
- Routes: statements that write several rows, REPLACE and deferred keys, CHECK constraints, the persons and spaces
  tables, and columns no guard reads.
- Recovery: parsing the two JSON columns; a row is unreadable or carries work, group and counters.
- Digest: the rendering of an event time.
- Containers, command line, configuration, health checks, SDK protocols, deployment and the NetEase plugin.
