/**
 Reconciling legacy progress with the work table and the root budgets.

 Old snapshots are cumulative observations: they raise counters to a maximum, they are never added.
 Rows are what reading the two JSON columns gives; the work and budget tables are sequences of rows.
 */
module Recovery {
  import opened Common

  datatype Usage = Usage(models: int, tools: int, messages: int)

  const NOTHING := Usage(0, 0, 0)

  datatype Row = Unreadable | Progress(work: string, group: string, used: Usage)

  datatype WorkState = Queued | Running | WaitingExternal | WaitingUser | Suspended | Completed | Failed | Cancelled

  datatype Work = Work(id: string, state: WorkState, reason: Option<string>, revision: int, used: Usage)
  datatype Budget = Budget(root: string, models: int, tools: int)
  datatype Subagent = Subagent(work: string, root: string)

  const AMBIGUOUS := "legacy_budget_ownership_ambiguous"

  predicate Covers(a: Usage, b: Usage) {
    b.models <= a.models && b.tools <= a.tools && b.messages <= a.messages
  }

  function Join(a: Usage, b: Usage): Usage {
    Usage(Max(a.models, b.models), Max(a.tools, b.tools), Max(a.messages, b.messages))
  }

  // Negative observations count as zero.
  function Clamped(u: Usage): Usage {
    Join(u, NOTHING)
  }

  /* ---- What the rows say ---- */

  // A row without a work or a group is skipped.
  predicate Readable(r: Row) {
    r.Progress? && r.work != "" && r.group != ""
  }

  predicate About(r: Row, work: string) {
    Readable(r) && r.work == work
  }

  function Works(rows: seq<Row>): set<string> {
    set r | r in rows && Readable(r) :: r.work
  }

  function Groups(rows: seq<Row>, work: string): set<string> {
    set r | r in rows && About(r, work) :: r.group
  }

  function Owners(rows: seq<Row>, group: string): set<string> {
    set r | r in rows && Readable(r) && r.group == group :: r.work
  }

  /** The largest observation of a work: the least usage that covers all of its snapshots. */
  function Peak(rows: seq<Row>, work: string): Usage {
    if rows == [] then NOTHING
    else
      var rest, r := Peak(rows[..|rows| - 1], work), rows[|rows| - 1];
      if About(r, work) then Join(rest, r.used) else rest
  }

  function PeakIn(rows: seq<Row>, work: string, group: string): Usage {
    if rows == [] then NOTHING
    else
      var rest, r := PeakIn(rows[..|rows| - 1], work, group), rows[|rows| - 1];
      if About(r, work) && r.group == group then Join(rest, r.used) else rest
  }

  lemma {:induction false} PeakCovers(rows: seq<Row>, work: string, r: Row)
    requires r in rows && About(r, work)
    ensures Covers(Peak(rows, work), Clamped(r.used))
  {
    PeakIsNatural(rows[..|rows| - 1], work);
    if r != rows[|rows| - 1] {
      assert r in rows[..|rows| - 1];
      PeakCovers(rows[..|rows| - 1], work, r);
    }
  }

  lemma {:induction false} PeakIsNatural(rows: seq<Row>, work: string)
    ensures Covers(Peak(rows, work), NOTHING)
  {
    if rows != [] {
      PeakIsNatural(rows[..|rows| - 1], work);
    }
  }

  lemma {:induction false} PeakIsLeast(rows: seq<Row>, work: string, bound: Usage)
    requires Covers(bound, NOTHING) && forall r :: r in rows && About(r, work) ==> Covers(bound, Clamped(r.used))
    ensures Covers(bound, Peak(rows, work))
  {
    if rows != [] {
      PeakIsLeast(rows[..|rows| - 1], work, bound);
      assert rows[|rows| - 1] in rows;
    }
  }

  lemma {:induction false} GroupPeakCovers(rows: seq<Row>, work: string, group: string, r: Row)
    requires r in rows && About(r, work) && r.group == group
    ensures Covers(PeakIn(rows, work, group), Clamped(r.used))
  {
    GroupPeakIsBelow(rows[..|rows| - 1], work, group);
    if r != rows[|rows| - 1] {
      assert r in rows[..|rows| - 1];
      GroupPeakCovers(rows[..|rows| - 1], work, group, r);
    }
  }

  lemma {:induction false} GroupPeakIsBelow(rows: seq<Row>, work: string, group: string)
    ensures Covers(PeakIn(rows, work, group), NOTHING) && Covers(Peak(rows, work), PeakIn(rows, work, group))
  {
    if rows != [] {
      GroupPeakIsBelow(rows[..|rows| - 1], work, group);
    }
  }

  /** A work is ambiguous when it has snapshots of several groups, or one of its groups has another owner. */
  predicate Ambiguous(rows: seq<Row>, work: string) {
    exists r, s | r in rows && s in rows ::
      About(r, work) && Readable(s)
      && ((s.work == work && s.group != r.group) || (s.work != work && s.group == r.group))
  }

  lemma Several<T>(s: set<T>, x: T)
    requires x in s
    ensures |s| > 1 <==> exists y :: y in s && y != x
  {
    if |s| > 1 {
      assert |s - {x}| > 0;
      var y :| y in s - {x};
    }
    if y :| y in s && y != x {
      assert {x, y} <= s && |{x, y}| == 2;
      Subsets({x, y}, s);
    }
  }

  lemma Subsets<T>(a: set<T>, b: set<T>)
    requires a <= b
    ensures |a| <= |b|
  {
    assert b == a + (b - a);
  }

  lemma AmbiguousShows(rows: seq<Row>, work: string)
    requires Ambiguous(rows, work)
    ensures |Groups(rows, work)| > 1 || exists g :: g in Groups(rows, work) && |Owners(rows, g)| > 1
  {
    var r, s :| r in rows && s in rows && About(r, work) && Readable(s)
                && ((s.work == work && s.group != r.group) || (s.work != work && s.group == r.group));
    assert r.group in Groups(rows, work) && work in Owners(rows, r.group);
    Several(Groups(rows, work), r.group);
    Several(Owners(rows, r.group), work);
    if s.work == work {
      assert s.group in Groups(rows, work);
    } else {
      assert s.work in Owners(rows, r.group);
    }
  }

  lemma ManyGroupsAreAmbiguous(rows: seq<Row>, work: string)
    requires |Groups(rows, work)| > 1
    ensures Ambiguous(rows, work)
  {
    var g :| g in Groups(rows, work);
    Several(Groups(rows, work), g);
    var h :| h in Groups(rows, work) && h != g;
    var r :| r in rows && About(r, work) && r.group == g;
    var s :| s in rows && About(s, work) && s.group == h;
  }

  lemma ManyOwnersAreAmbiguous(rows: seq<Row>, work: string, g: string)
    requires g in Groups(rows, work) && |Owners(rows, g)| > 1
    ensures Ambiguous(rows, work)
  {
    var r :| r in rows && About(r, work) && r.group == g;
    assert work in Owners(rows, g);
    Several(Owners(rows, g), work);
    var other :| other in Owners(rows, g) && other != work;
    var s :| s in rows && Readable(s) && s.group == g && s.work == other;
  }

  /** The sizes that the migration compares say exactly whether a work is ambiguous. */
  lemma AmbiguousBySize(rows: seq<Row>, work: string)
    ensures Ambiguous(rows, work) <==>
            |Groups(rows, work)| > 1 || exists g :: g in Groups(rows, work) && |Owners(rows, g)| > 1
  {
    hide Ambiguous;
    if Ambiguous(rows, work) {
      AmbiguousShows(rows, work);
    } else if |Groups(rows, work)| > 1 {
      ManyGroupsAreAmbiguous(rows, work);
    } else if g :| g in Groups(rows, work) && |Owners(rows, g)| > 1 {
      ManyOwnersAreAmbiguous(rows, work, g);
    }
  }

  /* ---- What the migration leaves ---- */

  predicate Terminal(s: WorkState) {
    s.Completed? || s.Failed? || s.Cancelled?
  }

  function SettledWork(rows: seq<Row>, w: Work): Work {
    if w.id !in Works(rows) then w
    else
      var raised := w.(used := Join(w.used, Peak(rows, w.id)));
      if Ambiguous(rows, w.id) && !Terminal(w.state) then
        raised.(state := Suspended, reason := Some(AMBIGUOUS), revision := w.revision + 1)
      else raised
  }

  function Settled(rows: seq<Row>, works: seq<Work>): (r: seq<Work>)
    ensures |r| == |works|
  {
    seq(|works|, i requires 0 <= i < |works| => SettledWork(rows, works[i]))
  }

  predicate Family(subagents: set<Subagent>, root: string, work: string) {
    work == root || Subagent(work, root) in subagents
  }

  function ModelSum(works: seq<Work>, subagents: set<Subagent>, root: string): int {
    if works == [] then 0
    else
      ModelSum(works[1..], subagents, root)
      + if Family(subagents, root, works[0].id) then works[0].used.models else 0
  }

  function ToolSum(works: seq<Work>, subagents: set<Subagent>, root: string): int {
    if works == [] then 0
    else
      ToolSum(works[1..], subagents, root)
      + if Family(subagents, root, works[0].id) then works[0].used.tools else 0
  }

  function SettledBudget(works: seq<Work>, subagents: set<Subagent>, b: Budget): Budget {
    Budget(b.root, Max(b.models, ModelSum(works, subagents, b.root)), Max(b.tools, ToolSum(works, subagents, b.root)))
  }

  function SettledBudgets(works: seq<Work>, subagents: set<Subagent>, budgets: seq<Budget>): (r: seq<Budget>)
    ensures |r| == |budgets|
  {
    seq(|budgets|, i requires 0 <= i < |budgets| => SettledBudget(works, subagents, budgets[i]))
  }

  /* ---- The migration ---- */

  class Store {
    var works: seq<Work>
    var budgets: seq<Budget>
    const subagents: set<Subagent>

    constructor (works: seq<Work>, budgets: seq<Budget>, subagents: set<Subagent>)
      ensures this.works == works && this.budgets == budgets && this.subagents == subagents
    {
      this.works, this.budgets, this.subagents := works, budgets, subagents;
    }

    /** Two dictionaries are filled from the rows; each work read is updated; then every budget. */
    method ReconcileLegacyProgress(rows: seq<Row>)
      modifies this
      ensures works == Settled(rows, old(works))
      ensures budgets == SettledBudgets(works, subagents, old(budgets))
    {
      var groups, owners := Collect(rows);
      var left := groups.Keys;
      while left != {}
        invariant left <= groups.Keys
        invariant |works| == |old(works)| && budgets == old(budgets)
        invariant forall i :: 0 <= i < |works| ==>
            works[i] == if old(works)[i].id in groups && old(works)[i].id !in left then SettledWork(rows, old(works)[i])
                        else old(works)[i]
      {
        var id :| id in left;
        left := left - {id};
        OwnersAreKnown(rows, groups, owners, id);
        UpdateWork(rows, id, groups[id], owners);
      }
      assert forall i :: 0 <= i < |works| ==> works[i] == SettledWork(rows, old(works)[i]);
      var i := 0;
      while i < |budgets|
        invariant 0 <= i <= |budgets| == |old(budgets)| && works == Settled(rows, old(works))
        invariant forall j :: 0 <= j < |budgets| ==>
            budgets[j] == if j < i then SettledBudget(works, subagents, old(budgets)[j]) else old(budgets)[j]
      {
        budgets := budgets[i := SettledBudget(works, subagents, budgets[i])];
        i := i + 1;
      }
    }

    // UPDATE runtime_work ... WHERE id = :id, once for the counters and once for the suspension.
    method UpdateWork(rows: seq<Row>, id: string, snapshots: map<string, Usage>, owners: map<string, set<string>>)
      requires id in Works(rows) && SnapshotsCollected(rows, id, snapshots)
      requires forall g :: g in snapshots ==> g in owners && owners[g] == Owners(rows, g)
      modifies this`works
      ensures |works| == |old(works)|
      ensures forall i :: 0 <= i < |works| ==>
          works[i] == if old(works)[i].id == id then SettledWork(rows, old(works)[i]) else old(works)[i]
    {
      var values := LargestOf(rows, id, snapshots);
      var ambiguous := |snapshots| > 1 || exists g | g in snapshots :: |owners[g]| > 1;
      AmbiguousBySize(rows, id);
      assert |snapshots| == |snapshots.Keys|;
      var i := 0;
      while i < |works|
        invariant 0 <= i <= |works| == |old(works)|
        invariant forall j :: 0 <= j < |works| ==>
            works[j] == if j < i && old(works)[j].id == id then SettledWork(rows, old(works)[j]) else old(works)[j]
      {
        if works[i].id == id {
          var w := works[i].(used := Join(works[i].used, values));
          if ambiguous && !Terminal(w.state) {
            w := w.(state := Suspended, reason := Some(AMBIGUOUS), revision := w.revision + 1);
          }
          assert w == SettledWork(rows, works[i]);
          hide *;
          works := works[i := w];
        }
        i := i + 1;
      }
    }
  }

  // What the two dictionaries hold after some rows.
  ghost predicate GroupsCollected(rows: seq<Row>, groups: map<string, map<string, Usage>>) {
    && groups.Keys == Works(rows)
    && forall w :: w in groups ==> SnapshotsCollected(rows, w, groups[w])
  }

  ghost predicate SnapshotsCollected(rows: seq<Row>, work: string, snapshots: map<string, Usage>) {
    && snapshots.Keys == Groups(rows, work)
    && forall g :: g in snapshots ==> snapshots[g] == PeakIn(rows, work, g)
  }

  ghost predicate OwnersCollected(rows: seq<Row>, owners: map<string, set<string>>) {
    && (forall g :: g in owners ==> owners[g] == Owners(rows, g))
    && (forall r :: r in rows && Readable(r) ==> r.group in owners)
  }

  lemma {:induction false} NothingInUnseenGroup(rows: seq<Row>, work: string, group: string)
    requires group !in Groups(rows, work)
    ensures PeakIn(rows, work, group) == NOTHING
  {
    if rows != [] {
      assert rows[|rows| - 1] in rows && forall r :: r in rows[..|rows| - 1] ==> r in rows;
      NothingInUnseenGroup(rows[..|rows| - 1], work, group);
    }
  }

  lemma OtherSnapshots(rows: seq<Row>, r: Row, work: string, snapshots: map<string, Usage>)
    requires SnapshotsCollected(rows, work, snapshots) && !About(r, work)
    ensures SnapshotsCollected(rows + [r], work, snapshots)
  {
    assert (rows + [r])[..|rows|] == rows;
    assert Groups(rows + [r], work) == Groups(rows, work);
  }

  // Before any row of a work there are no snapshots of it.
  lemma FirstSnapshot(rows: seq<Row>, work: string)
    requires work !in Works(rows)
    ensures SnapshotsCollected(rows, work, map[])
  {
    assert Groups(rows, work) == {};
  }

  lemma OneMoreSnapshot(rows: seq<Row>, r: Row, mine: map<string, Usage>, previous: Usage)
    requires Readable(r) && SnapshotsCollected(rows, r.work, mine)
    requires previous == if r.group in mine then mine[r.group] else NOTHING
    ensures SnapshotsCollected(rows + [r], r.work, mine[r.group := Join(Clamped(r.used), previous)])
  {
    var all := rows + [r];
    assert all[..|rows|] == rows;
    assert Groups(all, r.work) == Groups(rows, r.work) + {r.group};
    if r.group !in mine {
      NothingInUnseenGroup(rows, r.work, r.group);
    }
    GroupPeakIsBelow(rows, r.work, r.group);
  }

  lemma GroupsStep(rows: seq<Row>, groups: map<string, map<string, Usage>>, r: Row, mine: map<string, Usage>)
    requires GroupsCollected(rows, groups) && Readable(r) && SnapshotsCollected(rows + [r], r.work, mine)
    ensures GroupsCollected(rows + [r], groups[r.work := mine])
  {
    assert Works(rows + [r]) == Works(rows) + {r.work};
    forall w | w in groups && w != r.work ensures SnapshotsCollected(rows + [r], w, groups[w]) {
      OtherSnapshots(rows, r, w, groups[w]);
    }
    hide SnapshotsCollected, Works;
  }

  lemma OwnersStep(rows: seq<Row>, owners: map<string, set<string>>, r: Row)
    requires OwnersCollected(rows, owners) && Readable(r)
    ensures OwnersCollected(rows + [r], WithOwner(owners, r))
  {
    assert forall x :: x in rows + [r] <==> x in rows || x == r;
    forall g ensures Owners(rows + [r], g) == Owners(rows, g) + (if r.group == g then {r.work} else {}) {}
    if r.group !in owners {
      assert Owners(rows, r.group) == {};
    }
    hide Owners;
  }

  lemma SkippedStep(rows: seq<Row>, groups: map<string, map<string, Usage>>, owners: map<string, set<string>>, r: Row)
    requires GroupsCollected(rows, groups) && OwnersCollected(rows, owners) && !Readable(r)
    ensures GroupsCollected(rows + [r], groups) && OwnersCollected(rows + [r], owners)
  {
    assert Works(rows + [r]) == Works(rows);
    forall w | w in groups ensures SnapshotsCollected(rows + [r], w, groups[w]) {
      OtherSnapshots(rows, r, w, groups[w]);
    }
    forall g ensures Owners(rows + [r], g) == Owners(rows, g) {}
    hide SnapshotsCollected, Works, Owners;
  }

  // owners[group].add(identity)
  function WithOwner(owners: map<string, set<string>>, r: Row): map<string, set<string>>
    requires Readable(r)
  {
    owners[r.group := (if r.group in owners then owners[r.group] else {}) + {r.work}]
  }

  // The snapshot of this group is raised to the observation.
  function WithSnapshot(groups: map<string, map<string, Usage>>, r: Row): map<string, map<string, Usage>>
    requires Readable(r)
  {
    var mine := if r.work in groups then groups[r.work] else map[];
    var previous := if r.group in mine then mine[r.group] else NOTHING;
    groups[r.work := mine[r.group := Join(Clamped(r.used), previous)]]
  }

  lemma SnapshotStep(rows: seq<Row>, groups: map<string, map<string, Usage>>, r: Row)
    requires GroupsCollected(rows, groups) && Readable(r)
    ensures GroupsCollected(rows + [r], WithSnapshot(groups, r))
  {
    var mine := if r.work in groups then groups[r.work] else map[];
    var previous := if r.group in mine then mine[r.group] else NOTHING;
    if r.work !in groups {
      FirstSnapshot(rows, r.work);
    }
    hide SnapshotsCollected, Join, Clamped;
    OneMoreSnapshot(rows, r, mine, previous);
    GroupsStep(rows, groups, r, mine[r.group := Join(Clamped(r.used), previous)]);
  }

  // The dictionaries after the first n rows.
  ghost predicate Collected(
      rows: seq<Row>, n: nat, groups: map<string, map<string, Usage>>, owners: map<string, set<string>>)
    requires n <= |rows|
  {
    GroupsCollected(rows[..n], groups) && OwnersCollected(rows[..n], owners)
  }

  lemma CollectedStep(
      rows: seq<Row>, n: nat, groups: map<string, map<string, Usage>>, owners: map<string, set<string>>)
    requires n < |rows| && Collected(rows, n, groups, owners)
    ensures
      if Readable(rows[n]) then Collected(rows, n + 1, WithSnapshot(groups, rows[n]), WithOwner(owners, rows[n]))
      else Collected(rows, n + 1, groups, owners)
  {
    assert rows[..n + 1] == rows[..n] + [rows[n]];
    hide GroupsCollected, OwnersCollected, WithSnapshot, WithOwner;
    if Readable(rows[n]) {
      SnapshotStep(rows[..n], groups, rows[n]);
      OwnersStep(rows[..n], owners, rows[n]);
    } else {
      SkippedStep(rows[..n], groups, owners, rows[n]);
    }
  }

  lemma NothingCollected(rows: seq<Row>)
    ensures Collected(rows, 0, map[], map[])
  {}

  lemma AllCollected(rows: seq<Row>, groups: map<string, map<string, Usage>>, owners: map<string, set<string>>)
    requires Collected(rows, |rows|, groups, owners)
    ensures GroupsCollected(rows, groups) && OwnersCollected(rows, owners)
  {
    assert rows[..|rows|] == rows;
    hide GroupsCollected, OwnersCollected;
  }

  method Collect(rows: seq<Row>) returns (groups: map<string, map<string, Usage>>, owners: map<string, set<string>>)
    ensures GroupsCollected(rows, groups) && OwnersCollected(rows, owners)
  {
    hide *;
    groups, owners := map[], map[];
    NothingCollected(rows);
    var i := 0;
    while i < |rows|
      invariant 0 <= i <= |rows| && Collected(rows, i, groups, owners)
    {
      CollectedStep(rows, i, groups, owners);
      if Readable(rows[i]) {
        owners := WithOwner(owners, rows[i]);
        groups := WithSnapshot(groups, rows[i]);
      }
      i := i + 1;
    }
    AllCollected(rows, groups, owners);
  }

  lemma OwnersAreKnown(
      rows: seq<Row>, groups: map<string, map<string, Usage>>, owners: map<string, set<string>>, w: string)
    requires GroupsCollected(rows, groups) && OwnersCollected(rows, owners) && w in groups
    ensures forall g :: g in groups[w] ==> g in owners && owners[g] == Owners(rows, g)
  {
    forall g | g in groups[w] ensures g in owners {
      assert g in Groups(rows, w);
    }
  }

  // The largest of the group peaks is the peak of the work.
  method LargestOf(rows: seq<Row>, work: string, snapshots: map<string, Usage>) returns (values: Usage)
    requires SnapshotsCollected(rows, work, snapshots)
    ensures values == Peak(rows, work)
  {
    values := NOTHING;
    PeakIsNatural(rows, work);
    var left := snapshots.Keys;
    while left != {}
      invariant left <= snapshots.Keys
      invariant Covers(values, NOTHING) && Covers(Peak(rows, work), values)
      invariant forall g :: g in snapshots && g !in left ==> Covers(values, snapshots[g])
    {
      var g :| g in left;
      GroupPeakIsBelow(rows, work, g);
      values := Join(values, snapshots[g]);
      left := left - {g};
    }
    forall r | r in rows && About(r, work) ensures Covers(values, Clamped(r.used)) {
      assert r.group in Groups(rows, work);
      GroupPeakCovers(rows, work, r.group, r);
    }
    PeakIsLeast(rows, work, values);
  }

  /* ---- What reconciliation promises ---- */

  ghost predicate SameObservations(a: seq<Row>, b: seq<Row>) {
    forall r :: Readable(r) ==> (r in a <==> r in b)
  }

  lemma PeakIgnoresOrder(a: seq<Row>, b: seq<Row>, work: string)
    requires SameObservations(a, b)
    ensures Covers(Peak(a, work), Peak(b, work))
  {
    PeakIsNatural(a, work);
    forall r | r in b && About(r, work) ensures Covers(Peak(a, work), Clamped(r.used)) {
      PeakCovers(a, work, r);
    }
    PeakIsLeast(b, work, Peak(a, work));
  }

  /** Neither the order of the rows nor repeating one, nor an unreadable one, changes anything. */
  lemma ReconciliationIgnoresOrder(a: seq<Row>, b: seq<Row>, works: seq<Work>)
    requires SameObservations(a, b)
    ensures Settled(a, works) == Settled(b, works)
  {
    assert Works(a) == Works(b);
    forall w ensures Peak(a, w) == Peak(b, w) && Ambiguous(a, w) == Ambiguous(b, w) {
      PeakIgnoresOrder(a, b, w);
      PeakIgnoresOrder(b, a, w);
    }
    hide Works, Peak, Ambiguous;
  }

  /** A counter ends at the larger of what it was and the largest observation; it never falls. */
  lemma CountersOnlyRise(rows: seq<Row>, works: seq<Work>, i: nat, bound: Usage)
    requires i < |works|
    ensures
      var after := Settled(rows, works)[i].used;
      && Covers(after, works[i].used)
      && (forall r :: r in rows && About(r, works[i].id) ==> Covers(after, Clamped(r.used)))
      && (Covers(works[i].used, NOTHING) && Covers(bound, works[i].used)
          && (forall r :: r in rows && About(r, works[i].id) ==> Covers(bound, Clamped(r.used)))
          ==> Covers(bound, after))
  {
    forall r | r in rows && About(r, works[i].id) ensures Covers(Settled(rows, works)[i].used, Clamped(r.used)) {
      assert works[i].id in Works(rows);
      PeakCovers(rows, works[i].id, r);
    }
    if Covers(bound, NOTHING) && forall r :: r in rows && About(r, works[i].id) ==> Covers(bound, Clamped(r.used)) {
      PeakIsLeast(rows, works[i].id, bound);
    }
  }

  /** Exactly the ambiguous works that are not finished are suspended, by one revision; no other state changes. */
  lemma SuspendsExactly(rows: seq<Row>, works: seq<Work>, i: nat)
    requires i < |works|
    ensures
      var before, after := works[i], Settled(rows, works)[i];
      && after.id == before.id
      && (if Ambiguous(rows, before.id) && !Terminal(before.state) then
            after.state == Suspended && after.reason == Some(AMBIGUOUS) && after.revision == before.revision + 1
          else
            after.state == before.state && after.reason == before.reason && after.revision == before.revision)
  {
    if Ambiguous(rows, works[i].id) {
      var r :| r in rows && About(r, works[i].id);
      assert works[i].id in Works(rows);
    }
  }

  /** Every budget covers what its root and the subagents of the root have used, and is no larger than it must be. */
  lemma BudgetsCoverTheirFamilies(works: seq<Work>, subagents: set<Subagent>, budgets: seq<Budget>, i: nat)
    requires i < |budgets|
    ensures
      var b := SettledBudgets(works, subagents, budgets)[i];
      && b.root == budgets[i].root
      && ModelSum(works, subagents, b.root) <= b.models && budgets[i].models <= b.models
      && ToolSum(works, subagents, b.root) <= b.tools && budgets[i].tools <= b.tools
      && (b.models == ModelSum(works, subagents, b.root) || b.models == budgets[i].models)
      && (b.tools == ToolSum(works, subagents, b.root) || b.tools == budgets[i].tools)
  {}

  // Sums read ids and counters only.
  lemma {:induction false} SumsReadCounters(a: seq<Work>, b: seq<Work>, subagents: set<Subagent>, root: string)
    requires |a| == |b| && forall i :: 0 <= i < |a| ==> a[i].id == b[i].id && a[i].used == b[i].used
    ensures ModelSum(a, subagents, root) == ModelSum(b, subagents, root)
    ensures ToolSum(a, subagents, root) == ToolSum(b, subagents, root)
  {
    if a != [] {
      SumsReadCounters(a[1..], b[1..], subagents, root);
    }
  }

  /**
   Running it again leaves every counter and budget alone; the works come out the same altogether
   exactly when no unfinished work is ambiguous, for such a work is suspended by one more revision.
   */
  lemma SecondRun(rows: seq<Row>, works: seq<Work>, subagents: set<Subagent>, budgets: seq<Budget>)
    ensures
      var once := Settled(rows, works);
      var twice := Settled(rows, once);
      && (forall i :: 0 <= i < |works| ==>
            twice[i] == if Ambiguous(rows, works[i].id) && !Terminal(works[i].state)
                        then once[i].(revision := once[i].revision + 1) else once[i])
      && SettledBudgets(twice, subagents, SettledBudgets(once, subagents, budgets))
         == SettledBudgets(once, subagents, budgets)
      && (twice == once <==> forall i :: 0 <= i < |works| ==> Terminal(works[i].state) || !Ambiguous(rows, works[i].id))
  {
    var once := Settled(rows, works);
    var twice := Settled(rows, once);
    forall i | 0 <= i < |works|
      ensures twice[i].id == once[i].id && twice[i].used == once[i].used
      ensures twice[i] == if Ambiguous(rows, works[i].id) && !Terminal(works[i].state)
                          then once[i].(revision := once[i].revision + 1) else once[i]
    {
      SuspendsExactly(rows, works, i);
      SuspendsExactly(rows, once, i);
    }
    forall i | 0 <= i < |budgets|
      ensures SettledBudget(twice, subagents, SettledBudget(once, subagents, budgets[i]))
           == SettledBudget(once, subagents, budgets[i])
    {
      SumsReadCounters(once, twice, subagents, budgets[i].root);
    }
    hide Settled, Ambiguous;
    if twice == once {
      forall i | 0 <= i < |works| ensures Terminal(works[i].state) || !Ambiguous(rows, works[i].id) {
        assert twice[i] == once[i];
      }
    }
  }
}
