/**
 The adapter's retry loop over shared storage: read, run the engine, compare and set, three times
 at most, while other executors of the same scope take steps in between.
 */
module KunPlugin {
  import opened Common
  import opened KunState
  import opened KunRules
  import opened KunEngine
  import opened KunCommit

  lemma {:induction false} AfterJoins(sys: System, a: seq<Move>, b: seq<Move>, scope: ScopeType, scopeId: string)
    ensures After(sys, a + b, scope, scopeId) == After(After(sys, a, scope, scopeId), b, scope, scopeId)
    decreases |b|
  {
    if b == [] {
      assert a + b == a;
    } else {
      var front := b[..|b| - 1];
      AfterJoins(sys, a, front, scope, scopeId);
      assert (a + b)[..|a + b| - 1] == a + front;
    }
  }

  lemma StepLeaves(sys: System, m: Move, i: nat, scope: ScopeType, scopeId: string)
    requires i < |sys.executors| && m.who != i
    ensures var after := Step(sys, m, scope, scopeId);
      |after.executors| == |sys.executors| && after.executors[i] == sys.executors[i]
  {
    hide Execute;
  }

  class ScopeStorage {
    const scope: ScopeType
    const scopeId: string
    var system: System

    constructor (scope: ScopeType, scopeId: string, store: Option<Envelope>, requests: seq<Request>)
      ensures this.scope == scope && this.scopeId == scopeId && system == Initial(store, requests)
    {
      this.scope, this.scopeId, system := scope, scopeId, Initial(store, requests);
    }

    method Take(m: Move)
      modifies this
      ensures system == Step(old(system), m, scope, scopeId)
    {
      if !Enabled(system, m) {
        return;
      }
      var e := system.executors[m.who];
      match m {
        case Read(i) =>
          e := Started(system, i);
          var result := RunCommand(system.store, scope, scopeId, e.request);
          match result {
            case Corrupt => system := With(system, i, e.(phase := Finished(StateCorrupt)));
            case Unchanged => system := With(system, i, e.(phase := Finished(Answered)));
            case Changed(next) => system := With(system, i, e.(phase := Computed(system.store, next, |system.log|)));
          }
        case Swap(i) =>
          system := SwapStep(system, i);
        case Fail(i) =>
          system := With(system, i, e.(phase := Finished(StorageFailed)));
        case Lose(i) =>
          system := LoseStep(system, i);
      }
    }

    method LetOthers(moves: seq<Move>, i: nat)
      requires i < |system.executors| && forall m :: m in moves ==> m.who != i
      modifies this
      ensures system == After(old(system), moves, scope, scopeId)
      ensures |system.executors| == |old(system).executors| && system.executors[i] == old(system).executors[i]
    {
      var k := 0;
      while k < |moves|
        invariant 0 <= k <= |moves|
        invariant system == After(old(system), moves[..k], scope, scopeId)
        invariant |system.executors| == |old(system).executors| && system.executors[i] == old(system).executors[i]
      {
        StepLeaves(system, moves[k], i, scope, scopeId);
        Take(moves[k]);
        assert moves[..k + 1][..k] == moves[..k];
        k := k + 1;
      }
      assert moves[..k] == moves;
    }

    /**
     One command of executor i. rivals says what the others do before each of its storage calls, fault
     which of those calls raises, and landed whether a swap that raises has taken place. Whatever they
     are, the loop is a run of the system that ends with i having replied.
     */
    method ExecuteCommand(i: nat, rivals: nat -> seq<Move>, fault: nat -> bool, landed: bool) returns (reply: Reply)
      requires i < |system.executors| && system.executors[i].phase == Ready && system.executors[i].attempts == 0
      requires forall k: nat, m :: m in rivals(k) ==> m.who != i
      modifies this
      ensures exists moves :: system == After(old(system), moves, scope, scopeId)
      ensures |system.executors| == |old(system).executors| && system.executors[i].phase == Finished(reply)
    {
      ghost var moves: seq<Move> := [];
      var attempt := 0;
      while attempt < CAS_ATTEMPTS
        invariant 0 <= attempt <= CAS_ATTEMPTS
        invariant system == After(old(system), moves, scope, scopeId)
        invariant |system.executors| == |old(system).executors|
        invariant system.executors[i].attempts == attempt
        invariant system.executors[i].phase == if attempt < CAS_ATTEMPTS then Ready else Finished(Conflict)
      {
        moves := TakeTurn(i, Read(i), rivals(2 * attempt), fault(2 * attempt), false, old(system), moves);
        if system.executors[i].phase.Finished? {
          return system.executors[i].phase.reply;
        }
        moves := TakeTurn(i, Swap(i), rivals(2 * attempt + 1), fault(2 * attempt + 1), landed, old(system), moves);
        if system.executors[i].phase.Finished? {
          return system.executors[i].phase.reply;
        }
        attempt := attempt + 1;
      }
      return Conflict;
    }

    // One storage call of executor i, after the steps others take before it.
    method TakeTurn(i: nat, m: Move, rivals: seq<Move>, fault: bool, landed: bool,
                    ghost start: System, ghost past: seq<Move>)
      returns (ghost moves: seq<Move>)
      requires i < |system.executors| && m.who == i && Enabled(system, m) && (m.Swap? || (m.Read? && !landed))
      requires forall r :: r in rivals ==> r.who != i
      requires system == After(start, past, scope, scopeId)
      modifies this
      ensures system == After(start, moves, scope, scopeId)
      ensures |system.executors| == |old(system).executors|
      ensures var e, before := system.executors[i], old(system).executors[i];
        || e.phase.Finished?
        || (m.Read? && e.phase.Computed? && e.attempts == before.attempts)
        || (m.Swap? && e.phase.Ready? && e.attempts == before.attempts + 1 < CAS_ATTEMPTS)
    {
      hide Execute;
      LetOthers(rivals, i);
      AfterJoins(start, past, rivals, scope, scopeId);
      var call := if !fault then m else if landed then Lose(i) else Fail(i);
      AfterJoins(start, past + rivals, [call], scope, scopeId);
      assert [call][..0] == [];
      Take(call);
      moves := past + rivals + [call];
    }
  }
}
