/**
 Committing through compare-and-set: concurrent executors of one scope, each of which reads the
 stored envelope, runs the engine on it and swaps the result in, at most three times.

 The local lock of the plugin is ignored: the guarantees here come from the swap alone.
 */
module KunCommit {
  import opened Common
  import opened KunState
  import opened KunRules
  import opened KunInvariant
  import opened KunFrames
  import opened KunHistory
  import opened KunEngine

  const CAS_ATTEMPTS: nat := 3

  /* ---- What one invocation can answer ---- */

  // An envelope as the engine leaves it: accepted by the validator and reachable.
  ghost predicate Sound(e: Envelope, scope: ScopeType, scopeId: string) {
    ValidEnvelope(e, scope, scopeId) && Invariant(e.state)
  }

  ghost predicate SoundStore(store: Option<Envelope>, scope: ScopeType, scopeId: string) {
    store.Some? ==> Sound(store.value, scope, scopeId)
  }

  function RevisionOf(store: Option<Envelope>): int {
    if store.None? then 0 else store.value.revision
  }

  function Working(store: Option<Envelope>, scopeId: string): State {
    if store.Some? then store.value.state else DefaultState(scopeId)
  }

  /**
   On a sound store an invocation either changes nothing or yields a sound envelope with the next
   revision; it reports a corrupt state exactly when the new state breaks one of the 10^15 caps.
   */
  lemma ExecuteIsSound(store: Option<Envelope>, scope: ScopeType, scopeId: string, r: Request)
    requires SoundStore(store, scope, scopeId)
    ensures
      var result := Execute(store, scope, scopeId, r);
      var before := Working(store, scopeId);
      var outcome := Perform(before, scope, r);
      var commits := !(r.action.Manage? && scope == Private) && outcome.Done?
                     && (store.None? || outcome.state != before);
      && (result.Changed? ==> commits && Sound(result.envelope, scope, scopeId)
                              && result.envelope.revision == RevisionOf(store) + 1
                              && result.envelope.state == outcome.state)
      && (result.Corrupt? <==> commits && !WithinCaps(outcome.state))
      && (result.Unchanged? <==> !commits)
  {
    hide Perform, Sane, Live, WellFormed, WithinCaps;
    var before := Working(store, scopeId);
    DefaultKeeps(scopeId);
    PerformKeeps(before, scope, r);
    if Perform(before, scope, r).Done? {
      SaneIsWellFormed(Perform(before, scope, r).state);
    }
    PerformKeepsGid(before, scope, r);
  }

  /* ---- The system ---- */

  datatype Reply = Answered | Committed(revision: int) | Conflict | StateCorrupt | StorageFailed

  // Between two steps an executor is ready to read, holds a computed envelope, or has replied.
  // readAt counts the commits that preceded its read, startAt those that preceded its first one;
  // nothing decides on them.
  datatype Phase =
    | Ready
    | Computed(expected: Option<Envelope>, next: Envelope, readAt: nat)
    | Finished(reply: Reply)

  datatype Executor = Executor(request: Request, attempts: nat, startAt: nat, phase: Phase)

  datatype Commit = Commit(who: nat, envelope: Envelope)

  // base is what the store held at first, log what has been committed since.
  datatype System = System(
    base: Option<Envelope>, store: Option<Envelope>, log: seq<Commit>, executors: seq<Executor>)

  // A storage call may raise before it has done anything, and a swap also after it has.
  datatype Move = Read(who: nat) | Swap(who: nat) | Fail(who: nat) | Lose(who: nat)

  function With(sys: System, i: nat, e: Executor): System
    requires i < |sys.executors|
  {
    sys.(executors := sys.executors[i := e])
  }

  // Read the store and run the engine on what was read.
  ghost function ReadStep(sys: System, i: nat, scope: ScopeType, scopeId: string): System
    requires i < |sys.executors|
  {
    var e := Started(sys, i);
    match Execute(sys.store, scope, scopeId, e.request)
    case Corrupt => With(sys, i, e.(phase := Finished(StateCorrupt)))
    case Unchanged => With(sys, i, e.(phase := Finished(Answered)))
    case Changed(next) => With(sys, i, e.(phase := Computed(sys.store, next, |sys.log|)))
  }

  function Started(sys: System, i: nat): Executor
    requires i < |sys.executors|
  {
    var e := sys.executors[i];
    if e.attempts == 0 then e.(startAt := |sys.log|) else e
  }

  // The store takes the envelope that executor i computed.
  function Stored(sys: System, i: nat, reply: Reply): System
    requires i < |sys.executors| && sys.executors[i].phase.Computed?
  {
    var e := sys.executors[i];
    With(sys, i, e.(phase := Finished(reply)))
      .(store := Some(e.phase.next), log := sys.log + [Commit(i, e.phase.next)])
  }

  // Swap the computed envelope in, if the store still holds the value that was read.
  function SwapStep(sys: System, i: nat): System
    requires i < |sys.executors| && sys.executors[i].phase.Computed?
  {
    var e := sys.executors[i];
    if sys.store == e.phase.expected then
      Stored(sys, i, Committed(e.phase.next.revision))
    else if e.attempts + 1 < CAS_ATTEMPTS then
      With(sys, i, e.(attempts := e.attempts + 1, phase := Ready))
    else
      With(sys, i, e.(attempts := e.attempts + 1, phase := Finished(Conflict)))
  }

  // The swap takes place, or not, and then the call raises.
  function LoseStep(sys: System, i: nat): System
    requires i < |sys.executors| && sys.executors[i].phase.Computed?
  {
    var e := sys.executors[i];
    if sys.store == e.phase.expected then Stored(sys, i, StorageFailed)
    else With(sys, i, e.(phase := Finished(StorageFailed)))
  }

  predicate Enabled(sys: System, m: Move) {
    && m.who < |sys.executors|
    && match m
       case Read(i) => sys.executors[i].phase.Ready?
       case Swap(i) => sys.executors[i].phase.Computed?
       case Fail(i) => !sys.executors[i].phase.Finished?
       case Lose(i) => sys.executors[i].phase.Computed?
  }

  // A move that is not enabled does nothing.
  ghost function Step(sys: System, m: Move, scope: ScopeType, scopeId: string): System {
    if !Enabled(sys, m) then sys
    else match m
      case Read(i) => ReadStep(sys, i, scope, scopeId)
      case Swap(i) => SwapStep(sys, i)
      case Fail(i) => With(sys, i, sys.executors[i].(phase := Finished(StorageFailed)))
      case Lose(i) => LoseStep(sys, i)
  }

  ghost function After(sys: System, moves: seq<Move>, scope: ScopeType, scopeId: string): System {
    if moves == [] then sys
    else Step(After(sys, moves[..|moves| - 1], scope, scopeId), moves[|moves| - 1], scope, scopeId)
  }

  // Any number of commands meet a store that is empty or already in use.
  function Initial(store: Option<Envelope>, requests: seq<Request>): System {
    System(store, store, [], seq(|requests|, i requires 0 <= i < |requests| => Executor(requests[i], 0, 0, Ready)))
  }

  /* ---- The chain of commits ---- */

  // What the store held before commit k.
  function Before(base: Option<Envelope>, log: seq<Commit>, k: nat): Option<Envelope>
    requires k <= |log|
  {
    if k == 0 then base else Some(log[k - 1].envelope)
  }

  // Commit k is the engine, under the request of its author, applied to commit k - 1.
  ghost predicate Link(sys: System, k: nat, scope: ScopeType, scopeId: string)
    requires k < |sys.log|
  {
    && sys.log[k].who < |sys.executors|
    && Execute(Before(sys.base, sys.log, k), scope, scopeId, sys.executors[sys.log[k].who].request)
       == Changed(sys.log[k].envelope)
    && sys.log[k].envelope.revision == RevisionOf(sys.base) + k + 1
    && Sound(sys.log[k].envelope, scope, scopeId)
  }

  ghost predicate Chain(sys: System, scope: ScopeType, scopeId: string) {
    && SoundStore(sys.base, scope, scopeId)
    && sys.store == Before(sys.base, sys.log, |sys.log|)
    && (forall k :: 0 <= k < |sys.log| ==> Link(sys, k, scope, scopeId))
  }

  // What the log after revision first holds of executor i: one commit, perhaps one, or none, by its reply.
  predicate Recorded(first: int, log: seq<Commit>, i: nat, phase: Phase) {
    if phase.Finished? && phase.reply.Committed? then
      exists k :: 0 <= k < |log| && log[k].who == i && phase.reply.revision == first + k + 1
                  && forall j :: 0 <= j < |log| && log[j].who == i ==> j == k
    else if phase == Finished(StorageFailed) then
      forall j, k :: 0 <= j < |log| && 0 <= k < |log| && log[j].who == i == log[k].who ==> j == k
    else
      Absent(log, i)
  }

  predicate Absent(log: seq<Commit>, i: nat) {
    forall k :: 0 <= k < |log| ==> log[k].who != i
  }

  // Where executor i stands, against the log.
  ghost predicate Consistent(sys: System, i: nat, scope: ScopeType, scopeId: string)
    requires i < |sys.executors|
  {
    var e := sys.executors[i];
    && e.startAt + e.attempts <= |sys.log|
    && (!e.phase.Finished? ==> e.attempts < CAS_ATTEMPTS)
    && (e.phase == Finished(Conflict) ==> e.attempts == CAS_ATTEMPTS)
    && e.attempts <= CAS_ATTEMPTS
    && (e.phase.Computed? ==>
          && e.startAt + e.attempts <= e.phase.readAt <= |sys.log|
          && e.phase.expected == Before(sys.base, sys.log, e.phase.readAt)
          && Execute(e.phase.expected, scope, scopeId, e.request) == Changed(e.phase.next))
    && Recorded(RevisionOf(sys.base), sys.log, i, e.phase)
  }

  ghost predicate Good(sys: System, scope: ScopeType, scopeId: string) {
    && Chain(sys, scope, scopeId)
    && forall i :: 0 <= i < |sys.executors| ==> Consistent(sys, i, scope, scopeId)
  }

  lemma StoreIsSound(sys: System, scope: ScopeType, scopeId: string)
    requires Good(sys, scope, scopeId)
    ensures SoundStore(sys.store, scope, scopeId) && RevisionOf(sys.store) == RevisionOf(sys.base) + |sys.log|
  {
    if sys.log != [] {
      assert Link(sys, |sys.log| - 1, scope, scopeId);
    }
  }

  // Changing one executor without committing keeps the chain and everybody else.
  lemma QuietStepKeeps(sys: System, i: nat, e: Executor, scope: ScopeType, scopeId: string)
    requires Good(sys, scope, scopeId) && i < |sys.executors|
    requires e.request == sys.executors[i].request && Consistent(With(sys, i, e), i, scope, scopeId)
    ensures Good(With(sys, i, e), scope, scopeId)
  {
    hide Execute, Sound;
    var after := With(sys, i, e);
    forall k | 0 <= k < |after.log| ensures Link(after, k, scope, scopeId) {
      assert Link(sys, k, scope, scopeId);
    }
    forall j | 0 <= j < |after.executors| ensures Consistent(after, j, scope, scopeId) {
      assert Consistent(sys, j, scope, scopeId);
    }
  }

  /** The store holds the value that was read only if nobody has committed since: no ABA. */
  lemma SameValueSameMoment(sys: System, i: nat, scope: ScopeType, scopeId: string)
    requires Good(sys, scope, scopeId) && i < |sys.executors| && sys.executors[i].phase.Computed?
    ensures sys.store == sys.executors[i].phase.expected <==> sys.executors[i].phase.readAt == |sys.log|
  {
    hide Execute, Sound;
    var at := sys.executors[i].phase.readAt;
    assert Consistent(sys, i, scope, scopeId);
    if 0 < at {
      assert Link(sys, at - 1, scope, scopeId);
    }
    if 0 < |sys.log| {
      assert Link(sys, |sys.log| - 1, scope, scopeId);
    }
  }

  // The new commit is one more link.
  lemma CommitLinks(sys: System, i: nat, reply: Reply, scope: ScopeType, scopeId: string)
    requires Good(sys, scope, scopeId) && i < |sys.executors| && sys.executors[i].phase.Computed?
    requires sys.store == sys.executors[i].phase.expected
    ensures Chain(Stored(sys, i, reply), scope, scopeId)
    ensures sys.executors[i].phase.next.revision == RevisionOf(sys.base) + |sys.log| + 1
  {
    hide Execute, Sound, Recorded;
    var after, n := Stored(sys, i, reply), |sys.log|;
    NewLink(sys, i, reply, scope, scopeId);
    hide Consistent;
    forall k | 0 <= k < |after.log| ensures Link(after, k, scope, scopeId) {
      if k < n {
        hide Link;
        OldLink(sys, after, k, scope, scopeId);
      }
    }
  }

  lemma NewLink(sys: System, i: nat, reply: Reply, scope: ScopeType, scopeId: string)
    requires Good(sys, scope, scopeId) && i < |sys.executors| && sys.executors[i].phase.Computed?
    requires sys.store == sys.executors[i].phase.expected
    ensures Link(Stored(sys, i, reply), |sys.log|, scope, scopeId)
    ensures sys.executors[i].phase.next.revision == RevisionOf(sys.base) + |sys.log| + 1
  {
    hide Execute, Sound, Recorded;
    var e, after, n := sys.executors[i], Stored(sys, i, reply), |sys.log|;
    StoreIsSound(sys, scope, scopeId);
    assert Consistent(sys, i, scope, scopeId);
    ExecuteIsSound(sys.store, scope, scopeId, e.request);
    assert Before(after.base, after.log, n) == Before(sys.base, sys.log, n);
  }

  lemma OldLink(sys: System, after: System, k: nat, scope: ScopeType, scopeId: string)
    requires k < |sys.log| <= |after.log| && after.log[..|sys.log|] == sys.log && Link(sys, k, scope, scopeId)
    requires after.base == sys.base
    requires |after.executors| == |sys.executors|
    requires forall j :: 0 <= j < |sys.executors| ==> after.executors[j].request == sys.executors[j].request
    ensures Link(after, k, scope, scopeId)
  {
    hide Execute, Sound;
    assert after.log[k] == sys.log[k] && Before(after.base, after.log, k) == Before(sys.base, sys.log, k);
  }

  // Executor i commits, and its reply says so or says that storage failed.
  lemma StoredKeeps(sys: System, i: nat, reply: Reply, scope: ScopeType, scopeId: string)
    requires Good(sys, scope, scopeId) && i < |sys.executors| && sys.executors[i].phase.Computed?
    requires sys.store == sys.executors[i].phase.expected
    requires reply == Committed(sys.executors[i].phase.next.revision) || reply == StorageFailed
    ensures Good(Stored(sys, i, reply), scope, scopeId)
  {
    hide Execute, Chain, Consistent;
    CommitLinks(sys, i, reply, scope, scopeId);
    forall j | 0 <= j < |sys.executors| ensures Consistent(Stored(sys, i, reply), j, scope, scopeId) {
      StoredIsConsistent(sys, i, reply, j, scope, scopeId);
    }
  }

  lemma StoredIsConsistent(sys: System, i: nat, reply: Reply, j: nat, scope: ScopeType, scopeId: string)
    requires i < |sys.executors| && sys.executors[i].phase.Computed? && j < |sys.executors|
    requires Consistent(sys, j, scope, scopeId)
    requires reply == Committed(RevisionOf(sys.base) + |sys.log| + 1) || reply == StorageFailed
    ensures Consistent(Stored(sys, i, reply), j, scope, scopeId)
  {
    hide Execute, Recorded;
    LogGrows(sys.base, sys.log, Commit(i, sys.executors[i].phase.next), j, sys.executors[j].phase, reply);
  }

  // One more entry in the log: its author is on record now, and everybody else as before.
  lemma LogGrows(base: Option<Envelope>, log: seq<Commit>, c: Commit, j: nat, phase: Phase, reply: Reply)
    requires Recorded(RevisionOf(base), log, j, phase)
    ensures c.who != j ==> Recorded(RevisionOf(base), log + [c], j, phase)
    ensures
      c.who == j && phase.Computed? && (reply == Committed(RevisionOf(base) + |log| + 1) || reply == StorageFailed) ==>
      Recorded(RevisionOf(base), log + [c], j, Finished(reply))
    ensures forall k :: 0 <= k <= |log| ==> Before(base, log + [c], k) == Before(base, log, k)
  {
    var all, first := log + [c], RevisionOf(base);
    assert forall k :: 0 <= k < |log| ==> all[k] == log[k];
    assert all[|log|] == c;
    if phase.Finished? && phase.reply.Committed? {
      var k :| 0 <= k < |log| && log[k].who == j && phase.reply.revision == first + k + 1
               && forall m :: 0 <= m < |log| && log[m].who == j ==> m == k;
      assert all[k].who == j;
    }
  }

  lemma ReadKeeps(sys: System, i: nat, scope: ScopeType, scopeId: string)
    requires Good(sys, scope, scopeId) && Enabled(sys, Read(i))
    ensures Good(ReadStep(sys, i, scope, scopeId), scope, scopeId)
  {
    hide Execute, Sound, Link;
    assert Consistent(sys, i, scope, scopeId);
    QuietStepKeeps(sys, i, ReadStep(sys, i, scope, scopeId).executors[i], scope, scopeId);
  }

  lemma SwapKeeps(sys: System, i: nat, scope: ScopeType, scopeId: string)
    requires Good(sys, scope, scopeId) && Enabled(sys, Swap(i))
    ensures Good(SwapStep(sys, i), scope, scopeId) && Good(LoseStep(sys, i), scope, scopeId)
  {
    hide Execute, Sound, Link, Stored;
    var e := sys.executors[i];
    if sys.store == e.phase.expected {
      StoredKeeps(sys, i, Committed(e.phase.next.revision), scope, scopeId);
      StoredKeeps(sys, i, StorageFailed, scope, scopeId);
    } else {
      assert Consistent(sys, i, scope, scopeId);
      SameValueSameMoment(sys, i, scope, scopeId);
      QuietStepKeeps(sys, i, SwapStep(sys, i).executors[i], scope, scopeId);
      QuietStepKeeps(sys, i, LoseStep(sys, i).executors[i], scope, scopeId);
    }
  }

  lemma StepKeeps(sys: System, m: Move, scope: ScopeType, scopeId: string)
    requires Good(sys, scope, scopeId)
    ensures Good(Step(sys, m, scope, scopeId), scope, scopeId)
  {
    hide Execute, Sound, Link, SwapStep, LoseStep, ReadStep;
    if Enabled(sys, m) {
      match m {
        case Read(i) => ReadKeeps(sys, i, scope, scopeId);
        case Swap(i) => SwapKeeps(sys, i, scope, scopeId);
        case Lose(i) => SwapKeeps(sys, i, scope, scopeId);
        case Fail(i) =>
          assert Consistent(sys, i, scope, scopeId);
          QuietStepKeeps(sys, i, sys.executors[i].(phase := Finished(StorageFailed)), scope, scopeId);
      }
    }
  }

  // The same commands, over what the store held at first.
  ghost predicate SameRequests(sys: System, after: System) {
    && after.base == sys.base && |after.executors| == |sys.executors|
    && forall i :: 0 <= i < |sys.executors| ==> after.executors[i].request == sys.executors[i].request
  }

  lemma StepKeepsRequests(sys: System, m: Move, scope: ScopeType, scopeId: string)
    ensures SameRequests(sys, Step(sys, m, scope, scopeId))
  {
    hide Execute;
  }

  /** Every interleaving of every set of requests, from every sound store, is good at every moment. */
  lemma {:induction false} EveryInterleavingIsGood(
      store: Option<Envelope>, requests: seq<Request>, moves: seq<Move>, scope: ScopeType, scopeId: string)
    requires SoundStore(store, scope, scopeId)
    ensures Good(After(Initial(store, requests), moves, scope, scopeId), scope, scopeId)
    ensures SameRequests(Initial(store, requests), After(Initial(store, requests), moves, scope, scopeId))
  {
    if moves != [] {
      var before := After(Initial(store, requests), moves[..|moves| - 1], scope, scopeId);
      EveryInterleavingIsGood(store, requests, moves[..|moves| - 1], scope, scopeId);
      hide Good, Step;
      StepKeeps(before, moves[|moves| - 1], scope, scopeId);
      StepKeepsRequests(before, moves[|moves| - 1], scope, scopeId);
    }
  }

  /**
   In any interleaving the commits form one chain and every command commits at most once; a reply of
   success means that it did, any other reply but a storage failure that it did not; and a conflict
   means that at least three others committed since this command first read.
   */
  lemma Linearizable(
      store: Option<Envelope>, requests: seq<Request>, moves: seq<Move>, scope: ScopeType, scopeId: string, i: nat)
    requires SoundStore(store, scope, scopeId) && i < |requests|
    ensures
      var sys := After(Initial(store, requests), moves, scope, scopeId);
      && Chain(sys, scope, scopeId) && SameRequests(Initial(store, requests), sys)
      && var e := sys.executors[i];
      && (forall j, k :: 0 <= j < |sys.log| && 0 <= k < |sys.log| && sys.log[j].who == i == sys.log[k].who ==> j == k)
      && (e.phase.Finished? && e.phase.reply.Committed? ==>
            var k := e.phase.reply.revision - RevisionOf(store) - 1;
            0 <= k < |sys.log| && sys.log[k].who == i)
      && (Absent(sys.log, i) || (e.phase.Finished? && (e.phase.reply.Committed? || e.phase.reply.StorageFailed?)))
      && (e.phase == Finished(Conflict) ==> |sys.log| >= e.startAt + CAS_ATTEMPTS && Absent(sys.log, i))
  {
    EveryInterleavingIsGood(store, requests, moves, scope, scopeId);
    hide Execute, After, Chain;
    assert Consistent(After(Initial(store, requests), moves, scope, scopeId), i, scope, scopeId);
  }

  /* ---- The chain is a run ---- */

  // The states of the scope in the order of the commits, from the one it starts with.
  function History(sys: System, scopeId: string): seq<State> {
    seq(|sys.log| + 1, k requires 0 <= k <= |sys.log| => Working(Before(sys.base, sys.log, k), scopeId))
  }

  predicate AuthorsExist(sys: System) {
    forall k :: 0 <= k < |sys.log| ==> sys.log[k].who < |sys.executors|
  }

  // The requests that were committed, in order.
  function Served(sys: System): seq<Request>
    requires AuthorsExist(sys)
  {
    seq(|sys.log|, k requires 0 <= k < |sys.log| => sys.executors[sys.log[k].who].request)
  }

  /**
   However executors interleave, the committed states are a run of the engine on the committed
   requests, so whatever holds over every run holds of what is stored under contention.
   */
  lemma InterleavingIsRun(
      store: Option<Envelope>, requests: seq<Request>, moves: seq<Move>, scope: ScopeType, scopeId: string)
    requires SoundStore(store, scope, scopeId)
    ensures
      var sys := After(Initial(store, requests), moves, scope, scopeId);
      var h := History(sys, scopeId);
      && AuthorsExist(sys)
      && h[0] == Working(store, scopeId) && Invariant(h[0])
      && Run(h, Served(sys), scope)
      && (sys.store.Some? ==> sys.store.value.state == h[|sys.log|])
  {
    EveryInterleavingIsGood(store, requests, moves, scope, scopeId);
    hide Execute, After, Perform, Sound, Invariant, Chain, Run, History, Consistent;
    ChainIsRun(After(Initial(store, requests), moves, scope, scopeId), scope, scopeId);
  }

  lemma ChainIsRun(sys: System, scope: ScopeType, scopeId: string)
    requires Chain(sys, scope, scopeId)
    ensures AuthorsExist(sys) && |History(sys, scopeId)| == |sys.log| + 1
    ensures Run(History(sys, scopeId), Served(sys), scope)
    ensures History(sys, scopeId)[0] == Working(sys.base, scopeId) && Invariant(History(sys, scopeId)[0])
    ensures sys.store.Some? ==> sys.store.value.state == History(sys, scopeId)[|sys.log|]
  {
    AuthorsAreKnown(sys, scope, scopeId);
    StartIsKept(sys, scope, scopeId);
    EndIsStored(sys, scope, scopeId);
    assert |History(sys, scopeId)| == |sys.log| + 1 == |Served(sys)| + 1;
    hide Perform, Invariant, Chain, History, Served, Working, AuthorsExist;
    forall k | 0 <= k < |sys.log|
      ensures Perform(History(sys, scopeId)[k], scope, Served(sys)[k]) == Done(History(sys, scopeId)[k + 1])
    {
      HistoryStep(sys, k, scope, scopeId);
    }
  }

  lemma AuthorsAreKnown(sys: System, scope: ScopeType, scopeId: string)
    requires Chain(sys, scope, scopeId)
    ensures AuthorsExist(sys)
  {
    hide Execute, Sound;
    forall k | 0 <= k < |sys.log| ensures sys.log[k].who < |sys.executors| {
      assert Link(sys, k, scope, scopeId);
    }
  }

  lemma EndIsStored(sys: System, scope: ScopeType, scopeId: string)
    requires Chain(sys, scope, scopeId)
    ensures History(sys, scopeId)[0] == Working(sys.base, scopeId)
    ensures sys.store.Some? ==> sys.store.value.state == History(sys, scopeId)[|sys.log|]
  {
    hide Link, Sound;
  }

  lemma HistoryStep(sys: System, k: nat, scope: ScopeType, scopeId: string)
    requires Chain(sys, scope, scopeId) && AuthorsExist(sys) && k < |sys.log|
    ensures Perform(History(sys, scopeId)[k], scope, Served(sys)[k]) == Done(History(sys, scopeId)[k + 1])
  {
    hide Perform, Link, Sound;
    LinkIsStep(sys, k, scope, scopeId);
  }

  lemma StartIsKept(sys: System, scope: ScopeType, scopeId: string)
    requires Chain(sys, scope, scopeId)
    ensures Invariant(Working(sys.base, scopeId))
  {
    hide Invariant, Link;
    DefaultKeeps(scopeId);
  }

  // A link is one accepted step of the engine.
  lemma LinkIsStep(sys: System, k: nat, scope: ScopeType, scopeId: string)
    requires Chain(sys, scope, scopeId) && k < |sys.log|
    ensures sys.log[k].who < |sys.executors|
    ensures Perform(Working(Before(sys.base, sys.log, k), scopeId), scope, sys.executors[sys.log[k].who].request)
         == Done(sys.log[k].envelope.state)
  {
    hide Execute, Perform, Sound;
    assert Link(sys, k, scope, scopeId);
    BeforeIsSound(sys, k, scope, scopeId);
    ExecuteIsSound(Before(sys.base, sys.log, k), scope, scopeId, sys.executors[sys.log[k].who].request);
  }

  lemma BeforeIsSound(sys: System, k: nat, scope: ScopeType, scopeId: string)
    requires Chain(sys, scope, scopeId) && k < |sys.log|
    ensures SoundStore(Before(sys.base, sys.log, k), scope, scopeId)
  {
    hide Execute, Sound;
    if 0 < k {
      assert Link(sys, k - 1, scope, scopeId);
    }
  }
}
