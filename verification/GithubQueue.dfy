/**
 The durable per-repository queue: what its validator demands of one state and of one transition,
 and why accepting, sealing, delivering and committing always satisfy both.

 Cursors are numeric ids, "" for none.
 */
module GithubQueue {
  import opened Common
  import opened GithubEvents
  import opened GithubBatch

  datatype Status = Pending | Prepared | Attempting | Completed | Skipped

  datatype Delivery = Delivery(target: Target, status: Status)

  datatype Unit = Unit(members: seq<Queued>, deliveries: seq<Delivery>)

  datatype Queue = Queue(
    accepted: string,
    acceptedPrint: string,
    committed: string,
    committedPrint: string,
    committedAt: Option<int>,
    pending: seq<Queued>,
    inflight: Option<Unit>,
    legacyImported: bool,
    gap: bool)

  function Value(id: string): nat {
    if AllDigits(id) then Number(id) else 0
  }

  // A cursor, or -1 when there is none.
  function CursorValue(cursor: string): int {
    if cursor == "" then -1 else Value(cursor)
  }

  function TargetKey(t: Target): string {
    t.targetType + ":" + t.targetId
  }

  /* ---- The validators ---- */

  predicate UniqueIds(items: seq<Queued>) {
    forall i, j :: 0 <= i < j < |items| ==> items[i].id != items[j].id
  }

  // Sorting by number leaves the list as it is.
  predicate NumericOrder(items: seq<Queued>) {
    forall i, j :: 0 <= i < j < |items| ==> Value(items[i].id) <= Value(items[j].id)
  }

  predicate UniqueKeys(targets: seq<Target>) {
    forall i, j :: 0 <= i < j < |targets| ==> TargetKey(targets[i]) != TargetKey(targets[j])
  }

  predicate ValidQueued(e: Queued) {
    && e.id != "" && |e.id| <= ID_LIMIT && AllDigits(e.id)
    && (e.normalized.Some? ==> e.normalized.value.id == e.id)
    && UniqueKeys(e.targets)
    && (e.normalized.None? ==> e.targets == [])
  }

  function TargetsOf(deliveries: seq<Delivery>): (r: seq<Target>)
    ensures |r| == |deliveries| && forall i :: 0 <= i < |r| ==> r[i] == deliveries[i].target
  {
    seq(|deliveries|, i requires 0 <= i < |deliveries| => deliveries[i].target)
  }

  predicate ValidUnit(u: Unit) {
    && u.members != []
    && UniqueIds(u.members) && NumericOrder(u.members)
    && UniqueKeys(TargetsOf(u.deliveries))
    && (|u.members| > 1 ==> forall i :: 0 <= i < |u.deliveries| ==> u.deliveries[i].status != Pending)
  }

  function Inflight(q: Queue): seq<Queued> {
    if q.inflight.Some? then q.inflight.value.members else []
  }

  // The tail of the known work: the first item with the largest number, pending items first.
  predicate IsTail(items: seq<Queued>, k: nat) {
    && k < |items|
    && (forall i :: 0 <= i < |items| ==> Value(items[i].id) <= Value(items[k].id))
    && (forall i :: 0 <= i < k ==> Value(items[i].id) < Value(items[k].id))
  }

  predicate FifoChecks(q: Queue) {
    && UniqueIds(q.pending) && NumericOrder(q.pending)
    && (forall i, j :: 0 <= i < |Inflight(q)| && 0 <= j < |q.pending| ==> Inflight(q)[i].id != q.pending[j].id)
    && (q.pending != [] ==> forall i :: 0 <= i < |Inflight(q)| ==> Value(Inflight(q)[i].id) < Value(q.pending[0].id))
  }

  predicate CursorChecks(q: Queue) {
    && AllDigits(q.accepted) && AllDigits(q.committed)
    && (q.accepted != "" && q.committed != "" ==> Value(q.committed) <= Value(q.accepted))
    && (q.committed != "" ==> q.accepted != "")
    && (q.acceptedPrint != "" ==> q.accepted != "")
    && (q.accepted != "" && q.acceptedPrint == "" ==> q.legacyImported)
    && (q.committedPrint != "" ==> q.committed != "")
    && (q.committed != "" && q.committedPrint == "" ==> q.legacyImported)
    && (q.committedAt.Some? ==> q.committed != "")
  }

  predicate TailChecks(q: Queue) {
    var known := q.pending + Inflight(q);
    if known != [] then
      && q.accepted != ""
      && (forall i :: 0 <= i < |known| ==> CursorValue(q.committed) < Value(known[i].id))
      && (exists k :: 0 <= k < |known| && IsTail(known, k)
                      && known[k].id == q.accepted && known[k].fingerprint == q.acceptedPrint)
    else q.accepted == q.committed && q.acceptedPrint == q.committedPrint
  }

  predicate ValidQueue(q: Queue) {
    && (forall e :: e in q.pending + Inflight(q) ==> ValidQueued(e))
    && (q.inflight.Some? ==> ValidUnit(q.inflight.value))
    && FifoChecks(q) && CursorChecks(q) && TailChecks(q)
  }

  // Later cursor values are never smaller, and a cursor never disappears.
  predicate CursorMoves(before: string, after: string) {
    before == "" || (after != "" && Value(before) <= Value(after))
  }

  predicate PrintKept(cursor: string, fingerprint: string, cursor2: string, fingerprint2: string) {
    cursor == cursor2 && fingerprint != "" ==> fingerprint2 == fingerprint
  }

  predicate MayBecome(a: Status, b: Status) {
    match a
    case Pending => b == Pending || b == Prepared || b == Skipped
    case Prepared => b == Prepared || b == Attempting || b == Skipped
    case Attempting => b == Attempting || b == Completed
    case Completed => b == Completed
    case Skipped => b == Skipped
  }

  predicate Terminal(d: Delivery) {
    d.status == Completed || d.status == Skipped
  }

  predicate Progress(a: seq<Delivery>, b: seq<Delivery>) {
    TargetsOf(a) == TargetsOf(b) && forall i :: 0 <= i < |a| ==> MayBecome(a[i].status, b[i].status)
  }

  function Last(items: seq<Queued>): Queued
    requires items != []
  {
    items[|items| - 1]
  }

  // What the store demands of one state change outside an explicit re-baseline.
  predicate ValidTransition(p: Queue, c: Queue) {
    && (p.gap ==> c.gap)
    && CursorMoves(p.accepted, c.accepted) && CursorMoves(p.committed, c.committed)
    && PrintKept(p.accepted, p.acceptedPrint, c.accepted, c.acceptedPrint)
    && PrintKept(p.committed, p.committedPrint, c.committed, c.committedPrint)
    && (p.committed == c.committed ==> p.committedAt == c.committedAt)
    && (if p.inflight.Some? && c.inflight.Some? then
          && p.inflight.value.members == c.inflight.value.members
          && Progress(p.inflight.value.deliveries, c.inflight.value.deliveries)
          && p.pending == c.pending
        else if c.inflight.Some? then
          p.pending == c.inflight.value.members + c.pending
        else if p.inflight.Some? then
          && (forall i :: 0 <= i < |p.inflight.value.deliveries| ==> Terminal(p.inflight.value.deliveries[i]))
          && p.inflight.value.members != []
          && var last := Last(p.inflight.value.members);
          && c.committed == last.id && c.committedPrint == last.fingerprint && c.committedAt == last.createdAt
          && p.pending == c.pending
        else if p.pending != c.pending then
          && p.pending <= c.pending && |p.pending| < |c.pending| && c.accepted != p.accepted
          && Last(c.pending).id == c.accepted && Last(c.pending).fingerprint == c.acceptedPrint
        else p.accepted == c.accepted)
    && (p.inflight.None? && c.inflight.None? ==> p.committed == c.committed)
    && Immutable(p.pending, c.pending)
  }

  /* ---- The moves of the poller ---- */

  // Append newer events and move the accepted cursor to the last of them.
  function Accept(q: Queue, candidates: seq<Queued>): Queue
    requires candidates != []
  {
    var last := Last(candidates);
    q.(pending := q.pending + candidates, accepted := last.id, acceptedPrint := last.fingerprint)
  }

  function DeliveriesFor(members: seq<Queued>): (r: seq<Delivery>)
    requires members != []
    ensures TargetsOf(r) == members[0].targets
  {
    var targets := members[0].targets;
    var status := if |members| > 1 then Prepared else Pending;
    seq(|targets|, i requires 0 <= i < |targets| => Delivery(targets[i], status))
  }

  // Seal the first n pending events into the inflight unit.
  function Seal(q: Queue, n: nat): Queue
    requires 0 < n <= |q.pending|
  {
    q.(pending := q.pending[n..], inflight := Some(Unit(q.pending[..n], DeliveriesFor(q.pending[..n]))))
  }

  function Deliver(q: Queue, deliveries: seq<Delivery>): Queue
    requires q.inflight.Some?
  {
    q.(inflight := Some(q.inflight.value.(deliveries := deliveries)))
  }

  // Nothing is polled or delivered any more until an operator re-baselines.
  function RecordGap(q: Queue): Queue {
    q.(gap := true)
  }

  predicate AllTerminal(u: Unit) {
    forall i :: 0 <= i < |u.deliveries| ==> Terminal(u.deliveries[i])
  }

  // Commit the sealed unit.
  function CommitUnit(q: Queue): Queue
    requires q.inflight.Some? && q.inflight.value.members != []
  {
    var last := Last(q.inflight.value.members);
    q.(inflight := None, committed := last.id, committedPrint := last.fingerprint, committedAt := last.createdAt)
  }

  /* ---- Order ---- */

  // The work that is known and not yet committed, oldest first.
  function Work(q: Queue): seq<Queued> {
    Inflight(q) + q.pending
  }

  predicate StrictlyIncreasing(items: seq<Queued>) {
    forall i, j :: 0 <= i < j < |items| ==> Value(items[i].id) < Value(items[j].id)
  }

  // An event as the poller makes it: valid, with a canonical id and a fingerprint.
  predicate SoundEvent(e: Queued) {
    ValidQueued(e) && CanonicalId(e.id) && e.fingerprint != ""
  }

  predicate SoundEvents(items: seq<Queued>) {
    forall i :: 0 <= i < |items| ==> SoundEvent(items[i])
  }

  // committed < first of the work, and accepted is the last of it.
  predicate Bounds(q: Queue, work: seq<Queued>) {
    if work == [] then q.accepted == q.committed && q.acceptedPrint == q.committedPrint
    else
      && CursorValue(q.committed) < Value(work[0].id)
      && q.accepted == Last(work).id && q.acceptedPrint == Last(work).fingerprint
  }

  /** The order a queue keeps: committed < inflight < pending, strictly increasing, ending in accepted. */
  predicate Ordered(q: Queue) {
    && SoundEvents(Work(q)) && StrictlyIncreasing(Work(q)) && Bounds(q, Work(q))
    && CursorChecks(q)
    && (q.inflight.Some? ==> ValidUnit(q.inflight.value))
  }

  lemma SortedSoundIsStrict(items: seq<Queued>)
    requires UniqueIds(items) && NumericOrder(items) && SoundEvents(items)
    ensures StrictlyIncreasing(items)
  {
    forall i, j | 0 <= i < j < |items| ensures Value(items[i].id) < Value(items[j].id) {
      assert SoundEvent(items[i]) && SoundEvent(items[j]);
      assert items[i].id != items[j].id;
    }
  }

  lemma StrictJoins(a: seq<Queued>, b: seq<Queued>)
    requires StrictlyIncreasing(a) && StrictlyIncreasing(b)
    requires a != [] && b != [] ==> Value(Last(a).id) < Value(b[0].id)
    ensures StrictlyIncreasing(a + b)
  {
    var c := a + b;
    forall i, j | 0 <= i < j < |c| ensures Value(c[i].id) < Value(c[j].id) {
      if i < |a| <= j {
        assert Value(a[i].id) <= Value(Last(a).id);
        assert Value(b[0].id) <= Value(b[j - |a|].id);
      }
    }
  }

  lemma TailIsLast(a: seq<Queued>, b: seq<Queued>, k: nat)
    requires StrictlyIncreasing(a + b) && IsTail(b + a, k)
    ensures (b + a)[k] == Last(a + b)
  {
    var c, d := a + b, b + a;
    var last := if b == [] then |a| - 1 else |b| - 1;
    assert d[last] == Last(c);
    var at := if k < |b| then |a| + k else k - |b|;
    assert d[k] == c[at];
    assert forall i :: 0 <= i < |c| - 1 ==> Value(c[i].id) < Value(c[|c| - 1].id);
  }

  /** On sound events the validator says exactly that the queue is ordered. */
  lemma ValidMeansOrdered(q: Queue)
    requires SoundEvents(Work(q))
    ensures ValidQueue(q) <==> Ordered(q)
  {
    if ValidQueue(q) {
      ValidIsOrdered(q);
    }
    if Ordered(q) {
      OrderedIsValid(q);
    }
  }

  lemma SoundParts(a: seq<Queued>, b: seq<Queued>)
    requires SoundEvents(a + b)
    ensures SoundEvents(a) && SoundEvents(b)
  {
    assert forall i :: 0 <= i < |a| ==> (a + b)[i] == a[i];
    assert forall i :: 0 <= i < |b| ==> (a + b)[|a| + i] == b[i];
  }

  lemma ValidIsOrdered(q: Queue)
    requires SoundEvents(Work(q)) && ValidQueue(q)
    ensures Ordered(q)
  {
    hide CursorChecks, SoundEvents, ValidQueued, Value, IsTail;
    var a, b := Inflight(q), q.pending;
    SoundParts(a, b);
    if a != [] {
      SortedSoundIsStrict(a);
    }
    SortedSoundIsStrict(b);
    StrictJoins(a, b);
    var known := b + a;
    if known != [] {
      var k :| 0 <= k < |known| && IsTail(known, k)
               && known[k].id == q.accepted && known[k].fingerprint == q.acceptedPrint;
      TailIsLast(a, b, k);
      assert Work(q)[0] == if a != [] then known[|b|] else known[0];
    }
  }

  lemma OrderedIsValid(q: Queue)
    requires Ordered(q)
    ensures ValidQueue(q)
  {
    var a, b := Inflight(q), q.pending;
    SoundParts(a, b);
    StrictParts(a, b);
    assert FifoChecks(q) by {
      hide CursorChecks, ValidUnit;
      StrictIsSorted(b);
      DisjointIds(a, b);
    }
    assert TailChecks(q) by {
      OrderedTail(q);
    }
    forall e | e in b + a ensures ValidQueued(e) {
      if e in a {
        var i :| 0 <= i < |a| && a[i] == e;
        assert SoundEvent(a[i]);
      } else {
        var i :| 0 <= i < |b| && b[i] == e;
        assert SoundEvent(b[i]);
      }
    }
  }

  lemma DisjointIds(a: seq<Queued>, b: seq<Queued>)
    requires StrictlyIncreasing(a + b)
    ensures forall i, j :: 0 <= i < |a| && 0 <= j < |b| ==> a[i].id != b[j].id
  {
    StrictParts(a, b);
    forall i, j | 0 <= i < |a| && 0 <= j < |b| ensures a[i].id != b[j].id {
      assert Value(a[i].id) < Value(b[j].id);
    }
  }

  lemma StrictParts(a: seq<Queued>, b: seq<Queued>)
    requires StrictlyIncreasing(a + b)
    ensures StrictlyIncreasing(a) && StrictlyIncreasing(b)
    ensures forall i, j :: 0 <= i < |a| && 0 <= j < |b| ==> Value(a[i].id) < Value(b[j].id)
  {
    var c := a + b;
    assert forall i :: 0 <= i < |a| ==> c[i] == a[i];
    assert forall i :: 0 <= i < |b| ==> c[|a| + i] == b[i];
    forall i, j | 0 <= i < |a| && 0 <= j < |b| ensures Value(a[i].id) < Value(b[j].id) {
      assert c[i] == a[i] && c[|a| + j] == b[j];
    }
    forall i, j | 0 <= i < j < |b| ensures Value(b[i].id) < Value(b[j].id) {
      assert c[|a| + i] == b[i] && c[|a| + j] == b[j];
    }
  }

  lemma StrictIsSorted(items: seq<Queued>)
    requires StrictlyIncreasing(items)
    ensures UniqueIds(items) && NumericOrder(items)
  {
    forall i, j | 0 <= i < j < |items| ensures items[i].id != items[j].id {
      assert Value(items[i].id) < Value(items[j].id);
    }
  }

  lemma OrderedTail(q: Queue)
    requires Ordered(q)
    ensures TailChecks(q)
  {
    var a, b := Inflight(q), q.pending;
    var known, work := b + a, a + b;
    if known != [] {
      assert SoundEvent(Last(work));
      hide CursorChecks, ValidUnit, Value, CursorValue, SoundEvents, IsTail;
      assert work != [] && known != [];
      forall i | 0 <= i < |known| ensures CursorValue(q.committed) < Value(known[i].id) {
        AboveFirst(work, known[i]);
      }
      LastIsTail(a, b);
    }
  }

  lemma AboveFirst(work: seq<Queued>, e: Queued)
    requires StrictlyIncreasing(work) && e in work
    ensures Value(work[0].id) <= Value(e.id)
  {
    hide Value;
    var at :| 0 <= at < |work| && work[at] == e;
    assert at > 0 ==> Value(work[0].id) < Value(work[at].id);
  }

  lemma LastIsTail(a: seq<Queued>, b: seq<Queued>)
    requires StrictlyIncreasing(a + b) && a + b != []
    ensures exists k :: 0 <= k < |b + a| && IsTail(b + a, k) && (b + a)[k] == Last(a + b)
  {
    hide Value;
    StrictParts(a, b);
    var known, k := b + a, if b == [] then |a| - 1 else |b| - 1;
    assert known[k] == Last(a + b);
    assert k < |b| ==> known[k] == b[k];
    forall i | 0 <= i < |known| && i != k ensures Value(known[i].id) < Value(known[k].id) {
      assert known[i] == if i < |b| then b[i] else a[i - |b|];
    }
    assert IsTail(known, k);
  }

  // No two events of the work stand for one number.
  predicate NoTies(items: seq<Queued>) {
    forall i, j :: 0 <= i < j < |items| ==> Value(items[i].id) != Value(items[j].id)
  }

  /** The checks alone make the work strictly increasing exactly when no two of its ids are one number. */
  lemma StrictExactlyWithoutTies(q: Queue)
    requires ValidQueue(q)
    ensures StrictlyIncreasing(Work(q)) <==> NoTies(Work(q))
  {
    var a, b := Inflight(q), q.pending;
    hide Value, ValidQueued, CursorChecks, TailChecks;
    if NoTies(Work(q)) {
      PartsWithoutTies(a, b);
      NumericWithoutTies(a);
      NumericWithoutTies(b);
      StrictJoins(a, b);
    }
  }

  lemma PartsWithoutTies(a: seq<Queued>, b: seq<Queued>)
    requires NoTies(a + b)
    ensures NoTies(a) && NoTies(b)
  {
    hide Value;
    forall i, j | 0 <= i < j < |a| ensures Value(a[i].id) != Value(a[j].id) {
      assert (a + b)[i] == a[i] && (a + b)[j] == a[j];
    }
    forall i, j | 0 <= i < j < |b| ensures Value(b[i].id) != Value(b[j].id) {
      assert (a + b)[|a| + i] == b[i] && (a + b)[|a| + j] == b[j];
    }
  }

  lemma NumericWithoutTies(items: seq<Queued>)
    requires items != [] ==> NumericOrder(items)
    requires NoTies(items)
    ensures StrictlyIncreasing(items)
  {
    hide Value;
  }

  /** Canonical ids are never tied, because different ones are different numbers. */
  lemma CanonicalIdsDoNotTie(q: Queue)
    requires ValidQueue(q) && forall i :: 0 <= i < |Work(q)| ==> CanonicalId(Work(q)[i].id)
    ensures NoTies(Work(q))
  {
    var a, b, work := Inflight(q), q.pending, Work(q);
    hide CursorChecks, TailChecks, ValidQueued;
    forall i, j | 0 <= i < j < |work| ensures Value(work[i].id) != Value(work[j].id) {
      assert CanonicalId(work[i].id) && CanonicalId(work[j].id);
      if j < |a| {
        assert work[i] == a[i] && work[j] == a[j] && a[i].id != a[j].id;
      } else if |a| <= i {
        assert work[i] == b[i - |a|] && work[j] == b[j - |a|] && b[i - |a|].id != b[j - |a|].id;
      } else {
        assert work[i] == a[i] && work[j] == b[j - |a|] && a[i].id != b[j - |a|].id;
      }
    }
  }

  /** Ties do pass the checks: "1" and "01" may wait side by side. */
  lemma NonCanonicalIdsTie()
    ensures
      var a, b := Queued("1", "f", None, None, []), Queued("01", "g", None, None, []);
      var q := Queue("1", "f", "", "", None, [a, b], None, false, false);
      ValidQueue(q) && !StrictlyIncreasing(Work(q)) && q.accepted != Last(Work(q)).id
  {
    var a, b := Queued("1", "f", None, None, []), Queued("01", "g", None, None, []);
    var q := Queue("1", "f", "", "", None, [a, b], None, false, false);
    NumeralsTie();
    hide Number, AllDigits;
    assert Work(q) == [a, b] == q.pending + Inflight(q);
    assert ValidQueued(a) && ValidQueued(b);
    TwoTied(q, a, b);
  }

  lemma TwoTied(q: Queue, a: Queued, b: Queued)
    requires q.pending == [a, b] && q.inflight.None? && q.committed == ""
    requires a.id != "" && a.id != b.id && Value(a.id) == Value(b.id) && ValidQueued(a) && ValidQueued(b)
    requires q.accepted == a.id && q.acceptedPrint == a.fingerprint && CursorChecks(q)
    ensures ValidQueue(q) && !StrictlyIncreasing([a, b])
  {
    hide CursorChecks, ValidQueued, Value;
    var known := q.pending + Inflight(q);
    assert known == [a, b] && known[0] == a && known[1] == b;
    assert IsTail(known, 0);
    assert TailChecks(q);
    assert [a, b][0] == a && [a, b][1] == b;
  }

  lemma NumeralsTie()
    ensures AllDigits("") && AllDigits("1") && AllDigits("01") && Value("1") == 1 && Value("01") == 1
  {
    assert "1"[..0] == "" && "01"[..1] == "0" && "0"[..0] == "";
    assert Number("") == 0 && Number("0") == 0;
  }

  /* ---- The moves keep everything ---- */

  // Sound events in order, all behind the cursor.
  predicate Newer(cursor: string, candidates: seq<Queued>) {
    && candidates != [] && SoundEvents(candidates) && StrictlyIncreasing(candidates)
    && CursorValue(cursor) < Value(candidates[0].id)
  }

  lemma AcceptedIsLast(q: Queue)
    requires Ordered(q)
    ensures Work(q) != [] ==> CursorValue(q.accepted) == Value(Last(Work(q)).id)
    ensures CursorValue(q.committed) <= CursorValue(q.accepted)
  {
    if Work(q) != [] {
      assert SoundEvent(Last(Work(q)));
      assert |Work(q)| > 1 ==> Value(Work(q)[0].id) < Value(Work(q)[|Work(q)| - 1].id);
    }
  }

  // The same id is the same event, before and after a step.
  predicate Immutable(a: seq<Queued>, b: seq<Queued>) {
    forall i, j :: 0 <= i < |a| && 0 <= j < |b| && a[i].id == b[j].id ==> a[i] == b[j]
  }

  lemma StrictIsImmutable(a: seq<Queued>, b: seq<Queued>)
    requires StrictlyIncreasing(a + b)
    ensures Immutable(a, a + b) && Immutable(a + b, b)
  {
    var c := a + b;
    StrictIsSorted(c);
    forall i, j | 0 <= i < |a| && 0 <= j < |c| && a[i].id == c[j].id ensures a[i] == c[j] {
      assert c[i] == a[i];
    }
    forall i, j | 0 <= i < |c| && 0 <= j < |b| && c[i].id == b[j].id ensures c[i] == b[j] {
      assert c[|a| + j] == b[j];
    }
  }

  /** Accepting strictly newer events is always a valid transition to a valid state. */
  lemma AcceptKeeps(q: Queue, candidates: seq<Queued>)
    requires Ordered(q) && q.inflight.None? && Newer(q.accepted, candidates)
    ensures Ordered(Accept(q, candidates)) && ValidTransition(q, Accept(q, candidates))
    ensures Work(Accept(q, candidates)) == Work(q) + candidates
  {
    hide CursorChecks, SoundEvents, Value, ValidTransition, Immutable, Bounds;
    AcceptOrders(q, candidates);
    NewCursors(q, candidates);
    assert Work(q) == q.pending && Work(Accept(q, candidates)) == q.pending + candidates;
    StrictFromOrdered(Accept(q, candidates));
    StrictIsImmutable(q.pending, candidates);
    AcceptTransition(q, candidates);
  }

  lemma AcceptTransition(q: Queue, candidates: seq<Queued>)
    requires q.inflight.None? && candidates != [] && Immutable(q.pending, q.pending + candidates)
    requires CursorMoves(q.accepted, Last(candidates).id) && q.accepted != Last(candidates).id
    ensures ValidTransition(q, Accept(q, candidates))
  {
    hide Immutable, Value;
    assert Last(q.pending + candidates) == Last(candidates);
  }

  lemma StrictFromOrdered(q: Queue)
    requires Ordered(q)
    ensures StrictlyIncreasing(Work(q))
  {}

  lemma AcceptOrders(q: Queue, candidates: seq<Queued>)
    requires Ordered(q) && q.inflight.None? && Newer(q.accepted, candidates)
    ensures Ordered(Accept(q, candidates))
  {
    var after := Accept(q, candidates);
    AcceptedIsLast(q);
    NewCursors(q, candidates);
    assert Work(q) == q.pending && Work(after) == q.pending + candidates;
    hide CursorChecks, CursorMoves, SoundEvent, Value, ValidUnit, CursorValue, Accept;
    SoundJoin(q.pending, candidates);
    StrictJoins(q.pending, candidates);
    BoundsExtend(q, after, candidates);
  }

  lemma SoundJoin(a: seq<Queued>, b: seq<Queued>)
    requires SoundEvents(a) && SoundEvents(b)
    ensures SoundEvents(a + b)
  {}

  lemma BoundsExtend(q: Queue, after: Queue, candidates: seq<Queued>)
    requires Bounds(q, q.pending) && candidates != []
    requires after.committed == q.committed && after.accepted == Last(candidates).id
    requires after.acceptedPrint == Last(candidates).fingerprint
    requires CursorValue(q.accepted) < Value(candidates[0].id)
    ensures Bounds(after, q.pending + candidates)
  {
    assert Last(q.pending + candidates) == Last(candidates);
  }

  lemma NewCursors(q: Queue, candidates: seq<Queued>)
    requires Ordered(q) && q.inflight.None? && Newer(q.accepted, candidates)
    ensures CursorChecks(Accept(q, candidates))
    ensures CursorMoves(q.accepted, Accept(q, candidates).accepted) && q.accepted != Accept(q, candidates).accepted
    ensures Value(candidates[0].id) <= Value(Last(candidates).id)
  {
    hide ValidUnit, Bounds, CanonicalId;
    AcceptedIsLast(q);
    assert SoundEvent(Last(candidates));
    assert |candidates| > 1 ==> Value(candidates[0].id) < Value(candidates[|candidates| - 1].id);
  }

  /** Sealing a prefix of the pending events is always a valid transition to a valid state. */
  lemma SealKeeps(q: Queue, n: nat)
    requires Ordered(q) && q.inflight.None? && 0 < n <= |q.pending|
    ensures Ordered(Seal(q, n)) && ValidTransition(q, Seal(q, n))
    ensures Work(Seal(q, n)) == Work(q)
  {
    hide CursorChecks, SoundEvents, StrictlyIncreasing, DeliveriesFor, Value, Bounds, Immutable;
    var after, head, tail := Seal(q, n), q.pending[..n], q.pending[n..];
    assert q.pending == head + tail == Work(q) == Work(after);
    SoundParts(head, tail);
    StrictParts(head, tail);
    StrictIsSorted(head);
    StrictIsImmutable(head, tail);
    SealedUnitIsValid(head);
    SameCursors(q, after);
    SameBounds(q, after, q.pending);
    assert ValidTransition(q, after) by { hide Ordered, UniqueIds, NumericOrder, ValidUnit, Work; }
  }

  lemma SameBounds(q: Queue, after: Queue, work: seq<Queued>)
    requires Bounds(q, work) && after == q.(pending := after.pending, inflight := after.inflight, gap := after.gap)
    ensures Bounds(after, work)
  {}

  lemma SameCursors(q: Queue, after: Queue)
    requires CursorChecks(q) && after == q.(pending := after.pending, inflight := after.inflight, gap := after.gap)
    ensures CursorChecks(after)
  {}

  lemma SealedUnitIsValid(members: seq<Queued>)
    requires members != [] && SoundEvents(members) && UniqueIds(members) && NumericOrder(members)
    ensures ValidUnit(Unit(members, DeliveriesFor(members)))
  {
    assert SoundEvent(members[0]);
  }

  // A step that leaves cursors, pending and members alone is a valid transition.
  lemma StillTransition(q: Queue, after: Queue)
    requires after == q.(inflight := after.inflight, gap := after.gap) && (q.gap ==> after.gap)
    requires q.inflight.Some? <==> after.inflight.Some?
    requires q.inflight.Some? ==>
      && after.inflight.value.members == q.inflight.value.members
      && Progress(q.inflight.value.deliveries, after.inflight.value.deliveries)
    requires Immutable(q.pending, q.pending)
    ensures ValidTransition(q, after)
  {
    hide Immutable, Progress;
  }

  lemma PendingIsImmutable(q: Queue)
    requires Ordered(q)
    ensures Immutable(q.pending, q.pending)
  {
    StrictFromOrdered(q);
    hide Ordered, Value;
    StrictParts(Inflight(q), q.pending);
    assert [] + q.pending == q.pending;
    StrictIsImmutable([], q.pending);
  }

  /** A delivery step keeps the sealed unit and everything queued. */
  lemma DeliverKeeps(q: Queue, deliveries: seq<Delivery>)
    requires Ordered(q) && q.inflight.Some? && Progress(q.inflight.value.deliveries, deliveries)
    ensures Ordered(Deliver(q, deliveries)) && ValidTransition(q, Deliver(q, deliveries))
    ensures Work(Deliver(q, deliveries)) == Work(q)
  {
    var after := Deliver(q, deliveries);
    PendingIsImmutable(q);
    StillTransition(q, after);
    SameCursors(q, after);
    SameBounds(q, after, Work(q));
    DeliveredUnit(q.inflight.value, deliveries);
    hide CursorChecks, SoundEvents, StrictlyIncreasing, ValidTransition, Immutable, Progress, Bounds, ValidUnit;
  }

  lemma DeliveredUnit(u: Unit, deliveries: seq<Delivery>)
    requires ValidUnit(u) && Progress(u.deliveries, deliveries)
    ensures ValidUnit(u.(deliveries := deliveries))
  {
    hide Value, UniqueKeys;
    assert |deliveries| == |TargetsOf(deliveries)| == |u.deliveries|;
  }

  /** Recording a gap changes nothing that is queued. */
  lemma GapKeeps(q: Queue)
    requires Ordered(q)
    ensures Ordered(RecordGap(q)) && ValidTransition(q, RecordGap(q)) && Work(RecordGap(q)) == Work(q)
  {
    var after := RecordGap(q);
    PendingIsImmutable(q);
    if q.inflight.Some? {
      NoProgress(q.inflight.value.deliveries);
    }
    StillTransition(q, after);
    SameCursors(q, after);
    SameBounds(q, after, Work(q));
    hide CursorChecks, SoundEvents, StrictlyIncreasing, ValidTransition, Immutable, Progress, Bounds, ValidUnit;
  }

  lemma NoProgress(deliveries: seq<Delivery>)
    ensures Progress(deliveries, deliveries)
  {}

  /** Committing a fully delivered unit removes exactly it from the work. */
  lemma CommitKeeps(q: Queue)
    requires Ordered(q) && q.inflight.Some? && AllTerminal(q.inflight.value)
    ensures Ordered(CommitUnit(q)) && ValidTransition(q, CommitUnit(q))
    ensures Work(q) == q.inflight.value.members + Work(CommitUnit(q))
  {
    CommitOrders(q);
    CommittedCursors(q);
    AcceptedIsLast(q);
    PendingIsImmutable(q);
    CommitTransition(q);
    hide Ordered, ValidTransition, CursorChecks, CursorMoves;
    assert Work(CommitUnit(q)) == q.pending;
  }

  lemma CommitTransition(q: Queue)
    requires q.inflight.Some? && AllTerminal(q.inflight.value) && q.inflight.value.members != []
    requires var last := Last(q.inflight.value.members); CursorMoves(q.committed, last.id) && q.committed != last.id
    requires Immutable(q.pending, q.pending)
    ensures ValidTransition(q, CommitUnit(q))
  {
    hide Immutable, Value;
  }

  lemma CommitOrders(q: Queue)
    requires Ordered(q) && q.inflight.Some? && AllTerminal(q.inflight.value)
    ensures Ordered(CommitUnit(q))
  {
    var members := q.inflight.value.members;
    PartsOfWork(q);
    hide Ordered, Work, CursorChecks, SoundEvents, StrictlyIncreasing, Bounds, Value, CursorValue;
    CommittedCursors(q);
    SoundParts(members, q.pending);
    StrictParts(members, q.pending);
    BoundsAfterCommit(q, members);
    PendingIsWork(CommitUnit(q));
  }

  lemma PartsOfWork(q: Queue)
    requires Ordered(q) && q.inflight.Some?
    ensures
      var members, all := q.inflight.value.members, q.inflight.value.members + q.pending;
      members != [] && SoundEvents(all) && StrictlyIncreasing(all) && Bounds(q, all)
  {}

  lemma PendingIsWork(q: Queue)
    requires q.inflight.None? && CursorChecks(q)
    requires SoundEvents(q.pending) && StrictlyIncreasing(q.pending) && Bounds(q, q.pending)
    ensures Ordered(q)
  {
    hide CursorChecks, SoundEvents, StrictlyIncreasing, Bounds;
    assert Work(q) == q.pending;
  }

  lemma BoundsAfterCommit(q: Queue, members: seq<Queued>)
    requires q.inflight.Some? && members == q.inflight.value.members && members != []
    requires Bounds(q, members + q.pending) && CursorValue(Last(members).id) == Value(Last(members).id)
    requires q.pending != [] ==> Value(Last(members).id) < Value(q.pending[0].id)
    ensures Bounds(CommitUnit(q), q.pending)
  {
    hide CursorValue, Value;
    if q.pending == [] {
      assert members + q.pending == members;
    } else {
      assert Last(members + q.pending) == Last(q.pending);
    }
  }

  lemma CommittedCursors(q: Queue)
    requires Ordered(q) && q.inflight.Some?
    ensures var last := Last(q.inflight.value.members);
      && CursorChecks(CommitUnit(q))
      && CursorMoves(q.committed, last.id) && q.committed != last.id
      && CursorValue(last.id) == Value(last.id)
  {
    var members := q.inflight.value.members;
    var n := |members|;
    assert Work(q)[n - 1] == Last(members) && Work(q)[0] == members[0];
    assert SoundEvent(Work(q)[n - 1]);
    assert n > 1 ==> Value(Work(q)[0].id) < Value(Work(q)[n - 1].id);
    assert n < |Work(q)| ==> Value(Work(q)[n - 1].id) < Value(Work(q)[|Work(q)| - 1].id);
    AcceptedIsLast(q);
  }

  /* ---- The drain loop ---- */

  lemma {:induction false} FlattenAppends(units: seq<seq<Queued>>, members: seq<Queued>, rest: seq<Queued>)
    ensures Flatten(units + [members]) == Flatten(units) + members
    ensures Flatten(units + [members]) + rest == Flatten(units) + (members + rest)
  {
    if units == [] {
      assert Flatten([members]) == members + Flatten([]);
    } else {
      FlattenAppends(units[1..], members, rest);
      assert (units + [members])[1..] == units[1..] + [members];
    }
  }

  // The units, none empty, are in order the front of all work; rest is what remains.
  ghost predicate Front(units: seq<seq<Queued>>, rest: seq<Queued>, all: seq<Queued>) {
    Flatten(units) + rest == all && [] !in units
  }

  lemma NoUnits(all: seq<Queued>)
    ensures Front([], all, all) && Flatten([]) == []
  {}

  lemma OneMoreUnit(
      units: seq<seq<Queued>>, members: seq<Queued>, before: seq<Queued>, after: seq<Queued>, all: seq<Queued>)
    requires Front(units, before, all) && members + after == before && members != []
    ensures Front(units + [members], after, all)
    ensures |Flatten(units + [members])| == |Flatten(units)| + |members|
  {
    FlattenAppends(units, members, after);
  }

  /* ---- One poll ---- */

  // The events behind the cursor.
  function Behind(items: seq<Queued>, cursor: string): seq<Queued> {
    if items == [] then []
    else (if Value(items[0].id) > CursorValue(cursor) then [items[0]] else []) + Behind(items[1..], cursor)
  }

  // The fetched event with the id of the cursor.
  function Boundary(items: seq<Queued>, cursor: string): (r: Option<Queued>)
    ensures r.Some? ==> r.value in items && r.value.id == cursor
    ensures r.None? ==> forall e :: e in items ==> e.id != cursor
  {
    if items == [] then None else if items[0].id == cursor then Some(items[0]) else Boundary(items[1..], cursor)
  }

  // The last accepted event is among those fetched, with its old payload unless that is not known.
  predicate Overlaps(fetched: seq<Queued>, cursor: string, fingerprint: string) {
    var b := Boundary(fetched, cursor);
    b.Some? && (fingerprint == "" || fingerprint == b.value.fingerprint)
  }

  // A queue that is ready to take in more.
  predicate Idle(q: Queue) {
    !q.gap && Work(q) == [] && q.accepted != ""
  }

  lemma Earlier(first: Queued, rest: seq<Queued>, e: Queued)
    requires e in rest && forall i, j :: 0 <= i < 1 && 0 <= j < |rest| ==> Value([first][i].id) < Value(rest[j].id)
    ensures Value(first.id) < Value(e.id)
  {
    hide Value;
    var k :| 0 <= k < |rest| && rest[k] == e;
    assert [first][0] == first;
  }

  lemma Prepended(first: Queued, rest: seq<Queued>)
    requires StrictlyIncreasing(rest) && forall k :: 0 <= k < |rest| ==> Value(first.id) < Value(rest[k].id)
    ensures StrictlyIncreasing([first] + rest)
  {
    hide Value;
  }

  lemma {:induction false} BehindHolds(items: seq<Queued>, cursor: string)
    ensures forall e :: e in Behind(items, cursor) <==> e in items && Value(e.id) > CursorValue(cursor)
  {
    if items != [] {
      hide Value, CursorValue;
      BehindHolds(items[1..], cursor);
      assert forall e :: e in items <==> e == items[0] || e in items[1..];
    }
  }

  lemma {:induction false} BehindIsNewer(items: seq<Queued>, cursor: string)
    requires SoundEvents(items) && StrictlyIncreasing(items)
    ensures SoundEvents(Behind(items, cursor)) && StrictlyIncreasing(Behind(items, cursor))
  {
    if items != [] {
      var first, tail, rest := items[0], items[1..], Behind(items[1..], cursor);
      assert items == [first] + tail;
      SoundParts([first], tail);
      StrictParts([first], tail);
      BehindHolds(tail, cursor);
      hide SoundEvents, StrictlyIncreasing, SoundEvent, Value, CursorValue;
      BehindIsNewer(tail, cursor);
      forall k | 0 <= k < |rest| ensures Value(first.id) < Value(rest[k].id) {
        Earlier(first, tail, rest[k]);
      }
      SoundJoin([first], rest);
      Prepended(first, rest);
      assert Behind(items, cursor) == [first] + rest || Behind(items, cursor) == rest;
    }
  }

  // A queue from an import has no fingerprint of its last event until that is seen again.
  function Adopt(q: Queue, fingerprint: string): Queue {
    q.(acceptedPrint := fingerprint,
       committedPrint := if q.committed == q.accepted && q.committedPrint == "" then fingerprint else q.committedPrint)
  }

  // Taking over the fingerprint is a valid transition to a valid state, with nothing queued as before.
  lemma AdoptKeeps(q: Queue, fingerprint: string)
    requires Ordered(q) && Work(q) == [] && q.accepted != "" && q.acceptedPrint == "" && fingerprint != ""
    ensures Ordered(Adopt(q, fingerprint)) && ValidTransition(q, Adopt(q, fingerprint))
    ensures Work(Adopt(q, fingerprint)) == []
  {
    CaughtUp(q);
    hide Value, SoundEvents, StrictlyIncreasing;
    assert Work(Adopt(q, fingerprint)) == Work(q);
    assert Immutable(q.pending, q.pending);
  }

  // What one poll took in, and the units it committed.
  datatype Turn = Turn(taken: seq<Queued>, units: seq<seq<Queued>>)

  /** What one poll does to the queue: it accepts newer events and commits the front of the work. */
  ghost predicate Polled(before: Queue, turn: Turn, after: Queue) {
    && Ordered(after) && [] !in turn.units
    && Flatten(turn.units) + Work(after) == Work(before) + turn.taken
    && (turn.taken != [] ==> Newer(before.accepted, turn.taken))
    && after.accepted == (if turn.taken == [] then before.accepted else Last(turn.taken).id)
  }

  lemma NothingPolled(q: Queue)
    requires Ordered(q)
    ensures Polled(q, Turn([], []), q)
  {
    assert [] + Work(q) == Work(q) + [];
  }

  lemma DrainPolls(before: Queue, units: seq<seq<Queued>>, after: Queue)
    requires Ordered(after) && Front(units, Work(after), Work(before)) && after.accepted == before.accepted
    ensures Polled(before, Turn([], units), after)
  {
    assert Work(before) + [] == Work(before);
  }

  // Nothing can be committed when nothing was queued.
  lemma NothingLeft(before: Queue, units: seq<seq<Queued>>, after: Queue)
    requires Front(units, Work(after), Work(before))
    ensures Work(before) == [] ==> Work(after) == [] && units == []
  {
    if units != [] {
      assert units[0] in units && Flatten(units) == units[0] + Flatten(units[1..]);
    }
    assert |Work(before)| == |Flatten(units)| + |Work(after)|;
  }

  lemma BehindKeeps(fetched: seq<Queued>, cursor: string)
    requires SoundEvents(fetched) && StrictlyIncreasing(fetched)
    ensures Behind(fetched, cursor) != [] ==> Newer(cursor, Behind(fetched, cursor))
  {
    BehindIsNewer(fetched, cursor);
    BehindHolds(fetched, cursor);
    var taken := Behind(fetched, cursor);
    if taken != [] {
      assert taken[0] in taken;
    }
  }

  lemma BoundaryHasPrint(fetched: seq<Queued>, cursor: string)
    requires SoundEvents(fetched) && Boundary(fetched, cursor).Some?
    ensures Boundary(fetched, cursor).value.fingerprint != ""
  {
    var k :| 0 <= k < |fetched| && fetched[k] == Boundary(fetched, cursor).value;
    assert SoundEvent(fetched[k]);
  }

  lemma NothingMore(q: Queue)
    ensures Front([], Work(q), Work(q))
  {
    assert [] + Work(q) == Work(q);
  }

  lemma TurnPolls(before: Queue, mid: Queue, turn: Turn, after: Queue)
    requires Work(before) == [] && Work(mid) == turn.taken && Ordered(after)
    requires Front(turn.units, Work(after), Work(mid)) && (turn.taken != [] ==> Newer(before.accepted, turn.taken))
    requires after.accepted == if turn.taken == [] then before.accepted else Last(turn.taken).id
    ensures Polled(before, turn, after)
  {
    assert Work(before) + turn.taken == turn.taken;
  }

  // What a series of polls took in, and what they committed, in order.
  function Taken(turns: seq<Turn>): seq<Queued> {
    if turns == [] then [] else Taken(turns[..|turns| - 1]) + turns[|turns| - 1].taken
  }

  function Committed(turns: seq<Turn>): seq<Queued> {
    if turns == [] then [] else Committed(turns[..|turns| - 1]) + Flatten(turns[|turns| - 1].units)
  }

  // All events ever known, in the order of their numbers up to the accepted cursor.
  ghost predicate Known(q: Queue, all: seq<Queued>) {
    SoundEvents(all) && StrictlyIncreasing(all) && (all != [] ==> Last(all).id == q.accepted)
  }

  lemma KnownGrows(q: Queue, all: seq<Queued>, taken: seq<Queued>, after: Queue)
    requires Known(q, all) && (taken != [] ==> Newer(q.accepted, taken))
    requires after.accepted == if taken == [] then q.accepted else Last(taken).id
    ensures Known(after, all + taken)
  {
    if taken == [] {
      assert all + taken == all;
    } else {
      SoundJoin(all, taken);
      if all != [] {
        assert SoundEvent(Last(all));
        AboveLast(all, taken);
      }
      hide SoundEvents, Value, CursorValue;
      StrictJoins(all, taken);
      assert Last(all + taken) == Last(taken);
    }
  }

  lemma AboveLast(all: seq<Queued>, taken: seq<Queued>)
    requires StrictlyIncreasing(all) && StrictlyIncreasing(taken) && all != [] && taken != []
    requires Value(Last(all).id) < Value(taken[0].id)
    ensures forall i, j :: 0 <= i < |all| && 0 <= j < |taken| ==> Value(all[i].id) < Value(taken[j].id)
  {
    hide Value;
    forall i, j | 0 <= i < |all| && 0 <= j < |taken| ensures Value(all[i].id) < Value(taken[j].id) {
      assert i < |all| - 1 ==> Value(all[i].id) < Value(all[|all| - 1].id);
      assert 0 < j ==> Value(taken[0].id) < Value(taken[j].id);
    }
  }

  /**
   Over any series of polls, what has been committed followed by what is still queued is what was
   queued at first followed by everything accepted since, strictly increasing: each event once, in order.
   */
  lemma {:induction false} EachEventOnceInOrder(h: seq<Queue>, turns: seq<Turn>)
    requires |h| == |turns| + 1 && Ordered(h[0])
    requires forall k :: 0 <= k < |turns| ==> Polled(h[k], turns[k], h[k + 1])
    ensures var all := Work(h[0]) + Taken(turns);
      && Committed(turns) + Work(h[|turns|]) == all
      && Known(h[|turns|], all) && Ordered(h[|turns|])
  {
    hide Ordered, Work, Flatten, Newer, Known;
    if turns == [] {
      StartIsKnown(h[0]);
      assert Work(h[0]) + [] == Work(h[0]);
    } else {
      var n := |turns| - 1;
      EachEventOnceInOrder(h[..n + 1], turns[..n]);
      assert Polled(h[n], turns[n], h[n + 1]);
      KnownGrows(h[n], Work(h[0]) + Taken(turns[..n]), turns[n].taken, h[n + 1]);
      Shift(Committed(turns[..n]), Work(h[n]), Work(h[0]) + Taken(turns[..n]), turns[n].taken,
            Flatten(turns[n].units), Work(h[n + 1]));
      Regroup(Work(h[0]), Taken(turns[..n]), turns[n].taken);
    }
  }

  lemma StartIsKnown(q: Queue)
    requires Ordered(q)
    ensures Known(q, Work(q))
  {}

  lemma Regroup<T>(a: seq<T>, b: seq<T>, c: seq<T>)
    ensures a + (b + c) == (a + b) + c
  {}

  // The work w splits into what is committed now and what remains, after taking in t.
  lemma Shift<T>(done: seq<T>, w: seq<T>, all: seq<T>, t: seq<T>, units: seq<T>, rest: seq<T>)
    requires done + w == all && units + rest == w + t
    ensures (done + units) + rest == all + t
  {
    Regroup(done, units, rest);
    Regroup(done, w, t);
  }

  // What an attempt to publish comes to: a receipt, an exception, or media that have expired.
  datatype Attempt = Published | Raised | Expired

  class Coordinator {
    var state: Queue

    constructor (q: Queue)
      ensures state == q
    {
      state := q;
    }

    // Shrink a planned batch until it may be built; tooLarge is the payload limit of the host.
    method Fit(planned: seq<Queued>, tooLarge: seq<Queued> -> bool) returns (members: seq<Queued>)
      requires planned != []
      ensures members != [] && members <= planned
      ensures |members| > 1 ==> !tooLarge(members)
      ensures forall k :: |members| < k <= |planned| ==> tooLarge(planned[..k])
    {
      members := planned;
      while |members| > 1 && tooLarge(members)
        invariant members != [] && members <= planned
        invariant forall k :: |members| < k <= |planned| ==> tooLarge(planned[..k])
      {
        assert members == planned[..|members|];
        members := members[..|members| - 1];
      }
    }

    /**
     One delivery of the sealed unit advances until it ends; an unwanted one is skipped. The attempt
     itself may raise, or find its media expired, which is recorded as a gap: then it stays attempting.
     */
    method Finish(i: nat, wanted: Target -> bool, attempt: Target -> Attempt) returns (ended: bool)
      requires Ordered(state) && state.inflight.Some? && i < |state.inflight.value.deliveries|
      modifies this
      ensures Ordered(state) && OnlyDelivers(old(state), state, i)
      ensures ended ==> Terminal(state.inflight.value.deliveries[i]) && state.gap == old(state).gap
      ensures !ended ==> attempt(state.inflight.value.deliveries[i].target) != Published
    {
      hide Ordered, Work;
      while !Terminal(state.inflight.value.deliveries[i])
        invariant Ordered(state) && OnlyDelivers(old(state), state, i) && state.gap == old(state).gap
        decreases Remaining(state.inflight.value.deliveries[i].status)
      {
        var deliveries := state.inflight.value.deliveries;
        var d := deliveries[i];
        if d.status == Attempting && attempt(d.target) != Published {
          if attempt(d.target) == Expired {
            GapKeeps(state);
            state := RecordGap(state);
          }
          return false;
        }
        var status := match d.status
          case Pending => if wanted(d.target) then Prepared else Skipped
          case Prepared => if wanted(d.target) then Attempting else Skipped
          case _ => Completed;
        var after := deliveries[i := d.(status := status)];
        assert TargetsOf(after) == TargetsOf(deliveries);
        DeliverKeeps(state, after);
        state := Deliver(state, after);
      }
      return true;
    }

    // Only delivery i of the sealed unit has changed, and perhaps the gap.
    ghost predicate OnlyDelivers(before: Queue, after: Queue, i: nat) {
      && before.inflight.Some? && after.inflight.Some? && Work(after) == Work(before)
      && after == Deliver(before, after.inflight.value.deliveries).(gap := after.gap)
      && |after.inflight.value.deliveries| == |before.inflight.value.deliveries|
      && i < |after.inflight.value.deliveries|
      && forall k :: 0 <= k < |after.inflight.value.deliveries| && k != i ==>
           after.inflight.value.deliveries[k] == before.inflight.value.deliveries[k]
    }

    // Bring every delivery of the sealed unit to an end, or stop at the first that cannot be.
    method DeliverAll(wanted: Target -> bool, attempt: Target -> Attempt) returns (ended: bool)
      requires Ordered(state) && state.inflight.Some?
      modifies this
      ensures Ordered(state) && state.inflight.Some? && Work(state) == Work(old(state))
      ensures state == Deliver(old(state), state.inflight.value.deliveries).(gap := state.gap)
      ensures ended ==> AllTerminal(state.inflight.value) && state.gap == old(state).gap
      ensures !ended ==> exists t :: attempt(t) != Published
    {
      hide Ordered, Work;
      var i := 0;
      while i < |state.inflight.value.deliveries|
        invariant Ordered(state) && state.inflight.Some? && Work(state) == Work(old(state))
        invariant state == Deliver(old(state), state.inflight.value.deliveries)
        invariant 0 <= i <= |state.inflight.value.deliveries|
        invariant forall k :: 0 <= k < i ==> Terminal(state.inflight.value.deliveries[k])
        decreases |state.inflight.value.deliveries| - i
      {
        ended := Finish(i, wanted, attempt);
        if !ended {
          return;
        }
        i := i + 1;
      }
      return true;
    }

    function Remaining(s: Status): nat {
      match s case Pending => 3 case Prepared => 2 case Attempting => 1 case _ => 0
    }

    /**
     Plan, fit, seal, deliver and commit until nothing is left, enough events have been completed, the
     poller is stopped, a gap shows or an attempt fails. Every step is a transition the store accepts;
     the units committed are, in order, the front of the work that was queued, and an emptied queue has
     committed exactly what it had accepted.
     */
    method DrainQueue(coalesce: bool, maxEvents: Option<int>, batchLimit: int, stopped: nat -> bool,
                      tooLarge: seq<Queued> -> bool, wanted: Target -> bool, attempt: Target -> Attempt)
      returns (units: seq<seq<Queued>>)
      requires Ordered(state)
      modifies this
      ensures Ordered(state) && Front(units, Work(state), Work(old(state)))
      ensures state.accepted == old(state).accepted && state.acceptedPrint == old(state).acceptedPrint
      ensures Work(state) == [] ==> state.committed == state.accepted && state.committedPrint == state.acceptedPrint
      ensures Work(state) == [] || (maxEvents.Some? && maxEvents.value <= |Flatten(units)|) || stopped(|units|)
              || state.gap || exists t :: attempt(t) != Published
    {
      hide Ordered, Work, Flatten, Front;
      units := [];
      var completed := 0;
      NoUnits(Work(state));
      while !stopped(|units|) && !state.gap && (state.inflight.Some? || state.pending != [])
        invariant Ordered(state)
        invariant state.accepted == old(state).accepted && state.acceptedPrint == old(state).acceptedPrint
        invariant Front(units, Work(state), Work(old(state))) && completed == |Flatten(units)|
        decreases |Work(state)|
      {
        if maxEvents.Some? && maxEvents.value <= completed {
          CaughtUp(state);
          return;
        }
        var remaining := if maxEvents.None? then |state.pending| else maxEvents.value - completed;
        var most := Max(1, Min(remaining, batchLimit));
        ghost var before := Work(state);
        var members, ended := DrainOne(coalesce, most, tooLarge, wanted, attempt);
        if !ended {
          CaughtUp(state);
          return;
        }
        OneMoreUnit(units, members, before, Work(state), Work(old(state)));
        units := units + [members];
        completed := completed + |members|;
      }
      CaughtUp(state);
    }

    /**
     One poll: drain what is queued; if nothing was, check that the last accepted event is among those
     fetched, unchanged, accept the newer ones, and drain again. fetched is what the de-duplication of
     the pages leaves.
     */
    method Poll(fetched: seq<Queued>, coalesce: bool, limit: int, stopped: nat -> bool,
                tooLarge: seq<Queued> -> bool, wanted: Target -> bool, attempt: Target -> Attempt)
      returns (turn: Turn)
      requires Ordered(state) && SoundEvents(fetched) && StrictlyIncreasing(fetched)
      modifies this
      ensures Polled(old(state), turn, state)
      ensures var q := old(state);
        if Idle(q) && Overlaps(fetched, q.accepted, q.acceptedPrint) then turn.taken == Behind(fetched, q.accepted)
        else turn.taken == [] && (Idle(q) ==> state.gap)
    {
      hide Ordered, Work, Front, Polled, SoundEvents, StrictlyIncreasing, Behind, Boundary, Newer, Value, Overlaps;
      CaughtUp(state);
      turn := Turn([], []);
      NothingPolled(state);
      if state.gap {
        return;
      }
      var hadWork := state.pending != [] || state.inflight.Some?;
      var units := DrainQueue(coalesce, Some(limit), limit, stopped, tooLarge, wanted, attempt);
      turn := Turn([], units);
      DrainPolls(old(state), units, state);
      CaughtUp(state);
      NothingLeft(old(state), units, state);
      if hadWork || state.pending != [] || state.inflight.Some? || state.accepted == "" {
        return;
      }
      var taken := TakeIn(fetched);
      ghost var mid := state;
      if state.gap {
        turn := Turn(taken, units);
        NothingMore(mid);
        TurnPolls(old(state), mid, turn, state);
        return;
      }
      var more := DrainQueue(coalesce, Some(limit), limit, stopped, tooLarge, wanted, attempt);
      assert units + more == more;
      turn := Turn(taken, units + more);
      TurnPolls(old(state), mid, turn, state);
    }

    // Check the overlap with what was accepted before, and accept what is newer.
    method TakeIn(fetched: seq<Queued>) returns (taken: seq<Queued>)
      requires Ordered(state) && Work(state) == [] && state.accepted != ""
      requires SoundEvents(fetched) && StrictlyIncreasing(fetched)
      modifies this
      ensures Ordered(state) && Work(state) == taken && (taken != [] ==> Newer(old(state).accepted, taken))
      ensures state.accepted == if taken == [] then old(state).accepted else Last(taken).id
      ensures var q := old(state);
        if Overlaps(fetched, q.accepted, q.acceptedPrint)
        then taken == Behind(fetched, q.accepted) && state.gap == q.gap
        else taken == [] && state.gap
    {
      hide Ordered, Work, SoundEvents, StrictlyIncreasing, Behind, Boundary, Newer, Value, ValidTransition;
      CaughtUp(state);
      if !Overlaps(fetched, state.accepted, state.acceptedPrint) {
        GapKeeps(state);
        state := RecordGap(state);
        return [];
      }
      if state.acceptedPrint == "" {
        BoundaryHasPrint(fetched, state.accepted);
        AdoptKeeps(state, Boundary(fetched, state.accepted).value.fingerprint);
        state := Adopt(state, Boundary(fetched, state.accepted).value.fingerprint);
      }
      taken := Behind(fetched, state.accepted);
      BehindKeeps(fetched, state.accepted);
      assert [] + taken == taken;
      if taken != [] {
        AcceptKeeps(state, taken);
        state := Accept(state, taken);
      }
    }

    // One unit, sealed now or already inflight, is delivered and, if that ended, committed.
    method DrainOne(coalesce: bool, most: int, tooLarge: seq<Queued> -> bool, wanted: Target -> bool,
                    attempt: Target -> Attempt)
      returns (members: seq<Queued>, ended: bool)
      requires Ordered(state) && most >= 1 && (state.inflight.Some? || state.pending != [])
      modifies this
      ensures Ordered(state)
      ensures state.accepted == old(state).accepted && state.acceptedPrint == old(state).acceptedPrint
      ensures ended ==> members != [] && members + Work(state) == Work(old(state)) && state.gap == old(state).gap
      ensures !ended ==> Work(state) == Work(old(state)) && exists t :: attempt(t) != Published
    {
      hide Ordered, Work, ValidTransition, Plan;
      if state.inflight.None? {
        var planned := PlanAdjacentMembers(state.pending, coalesce, most);
        PlanTakesSome(state.pending, coalesce, most);
        var fitting := Fit(planned, tooLarge);
        SealKeeps(state, |fitting|);
        state := Seal(state, |fitting|);
      }
      ended := DeliverAll(wanted, attempt);
      members := state.inflight.value.members;
      if ended {
        UnitHasMembers(state);
        CommitKeeps(state);
        state := CommitUnit(state);
      }
    }
  }

  // An emptied queue has committed exactly what it had accepted.
  lemma CaughtUp(q: Queue)
    requires Ordered(q)
    ensures Work(q) == [] <==> q.pending == [] && q.inflight.None?
    ensures Work(q) == [] ==> q.committed == q.accepted && q.committedPrint == q.acceptedPrint
  {
    OrderedIsValid(q);
    if q.inflight.Some? {
      UnitHasMembers(q);
    }
  }

  lemma UnitHasMembers(q: Queue)
    requires Ordered(q) && q.inflight.Some?
    ensures q.inflight.value.members != []
  {}
}
