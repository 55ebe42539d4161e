/**
 Planning of adjacent event batches, and the length-bounded text of a batch.
 */
module GithubBatch {
  import opened Common

  // The delivery policy frozen with an event.
  datatype Target = Target(targetType: string, targetId: string, sendText: bool, sendCard: bool, askAgent: bool)

  datatype Event = Event(
    id: string, repository: string, eventType: string, actor: string, refType: string, branch: string)

  // One accepted source event; an event that was skipped has no normalized form.
  datatype Queued = Queued(
    id: string,
    fingerprint: string,
    createdAt: Option<int>,
    normalized: Option<Event>,
    targets: seq<Target>)

  const COALESCIBLE: set<string> := {"CreateEvent", "DeleteEvent", "WatchEvent", "ForkEvent"}

  // Case folding, on ASCII letters.
  function Fold(s: string): string {
    seq(|s|, i requires 0 <= i < |s| => Lower(s[i]))
  }

  predicate Coalescible(e: Queued) {
    e.normalized.Some? && e.normalized.value.eventType in COALESCIBLE
  }

  predicate CanCoalesce(first: Queued, candidate: Queued) {
    first.normalized.Some? && candidate.normalized.Some? &&
    var l, r := first.normalized.value, candidate.normalized.value;
    && l.eventType in COALESCIBLE && r.eventType == l.eventType
    && Fold(l.repository) == Fold(r.repository)
    && first.targets == candidate.targets
    && (l.eventType == "CreateEvent" || l.eventType == "DeleteEvent" ==>
          Fold(l.actor) == Fold(r.actor) && l.refType == r.refType)
  }

  /** Compatibility is an equivalence on coalescible events, and relates nothing else. */
  lemma CoalescingIsEquivalence(a: Queued, b: Queued, c: Queued)
    ensures CanCoalesce(a, a) <==> Coalescible(a)
    ensures CanCoalesce(a, b) <==> CanCoalesce(b, a)
    ensures CanCoalesce(a, b) && CanCoalesce(b, c) ==> CanCoalesce(a, c)
    ensures CanCoalesce(a, b) ==> Coalescible(a) && Coalescible(b)
  {
    hide Fold;
  }

  /* ---- The planner ---- */

  // How many events at the head of rest are compatible with first.
  function Extent(first: Queued, rest: seq<Queued>): (n: nat)
    ensures n <= |rest|
  {
    if rest == [] || !CanCoalesce(first, rest[0]) then 0 else 1 + Extent(first, rest[1..])
  }

  function Plan(pending: seq<Queued>, coalesce: bool, limit: int): seq<Queued> {
    if pending == [] || limit < 1 then []
    else if !coalesce || !Coalescible(pending[0]) then pending[..1]
    else pending[..1 + Extent(pending[0], pending[1..Min(limit, |pending|)])]
  }

  method PlanAdjacentMembers(pending: seq<Queued>, coalesce: bool, limit: int) returns (members: seq<Queued>)
    ensures members == Plan(pending, coalesce, limit)
  {
    if |pending| == 0 || limit < 1 {
      return [];
    }
    var first := pending[0];
    if !coalesce || first.normalized.None? || first.normalized.value.eventType !in COALESCIBLE {
      return [first];
    }
    members := [first];
    var window := pending[1..Min(limit, |pending|)];
    var k := 0;
    while k < |window|
      invariant 0 <= k <= |window|
      invariant members == pending[..1 + k]
      invariant Extent(first, window) == k + Extent(first, window[k..])
    {
      assert window[k..][1..] == window[k + 1..];
      if !CanCoalesce(first, window[k]) {
        break;
      }
      members := members + [window[k]];
      k := k + 1;
    }
  }

  predicate MutuallyCompatible(members: seq<Queued>) {
    forall i, j :: 0 <= i < |members| && 0 <= j < |members| ==> CanCoalesce(members[i], members[j])
  }

  // A batch that could take no further event of the queue it was cut from.
  predicate NotExtendable(members: seq<Queued>, rest: seq<Queued>, coalesce: bool, limit: int)
    requires members != []
  {
    || rest == [] || |members| == limit || !coalesce
    || forall i :: 0 <= i < |members| ==> !CanCoalesce(members[i], rest[0])
  }

  lemma {:induction false} ExtentIsExact(first: Queued, rest: seq<Queued>)
    ensures forall i :: 0 <= i < Extent(first, rest) ==> CanCoalesce(first, rest[i])
    ensures Extent(first, rest) < |rest| ==> !CanCoalesce(first, rest[Extent(first, rest)])
  {
    if rest != [] && CanCoalesce(first, rest[0]) {
      ExtentIsExact(first, rest[1..]);
      forall i | 0 <= i < Extent(first, rest) ensures CanCoalesce(first, rest[i]) {
        if i > 0 {
          assert rest[i] == rest[1..][i - 1];
        }
      }
    }
  }

  predicate GoodRun(members: seq<Queued>, rest: seq<Queued>, coalesce: bool, limit: int) {
    && 1 <= |members| <= limit
    && (|members| > 1 ==> coalesce && MutuallyCompatible(members))
    && NotExtendable(members, rest, coalesce, limit)
  }

  /** The plan is a FIFO prefix: compatible, within the limit, and as long as it can be. */
  lemma PlanIsGoodRun(pending: seq<Queued>, coalesce: bool, limit: int)
    requires pending != [] && limit >= 1
    ensures
      var members := Plan(pending, coalesce, limit);
      && members <= pending && GoodRun(members, pending[|members|..], coalesce, limit)
  {
    hide CanCoalesce;
    var first, members := pending[0], Plan(pending, coalesce, limit);
    if coalesce && Coalescible(first) {
      var window := pending[1..Min(limit, |pending|)];
      ExtentIsExact(first, window);
      forall i | 0 <= i < |members| ensures CanCoalesce(first, members[i]) {
        CoalescingIsEquivalence(first, first, first);
        assert i > 0 ==> members[i] == window[i - 1];
      }
      forall i, j | 0 <= i < |members| && 0 <= j < |members| ensures CanCoalesce(members[i], members[j]) {
        CoalescingIsEquivalence(members[i], first, members[j]);
        CoalescingIsEquivalence(first, members[i], first);
      }
      forall i | 0 <= i < |members| && |members| < |pending| && |members| < limit
        ensures !CanCoalesce(members[i], pending[|members|])
      {
        assert pending[|members|] == window[|members| - 1];
        CoalescingIsEquivalence(first, members[i], pending[|members|]);
      }
    } else {
      assert members == [first];
      forall x {
        CoalescingIsEquivalence(first, x, x);
      }
    }
  }

  // Plan, seal, plan again until the queue is empty.
  function Drain(pending: seq<Queued>, coalesce: bool, limit: int): seq<seq<Queued>>
    requires limit >= 1
    decreases |pending|
  {
    if pending == [] then []
    else
      var members := Plan(pending, coalesce, limit);
      [members] + Drain(pending[|members|..], coalesce, limit)
  }

  function Flatten(runs: seq<seq<Queued>>): seq<Queued> {
    if runs == [] then [] else runs[0] + Flatten(runs[1..])
  }

  /** Repeated planning cuts any queue into consecutive good runs that together are the queue. */
  lemma {:induction false} DrainPartitions(pending: seq<Queued>, coalesce: bool, limit: int)
    requires limit >= 1
    ensures var runs := Drain(pending, coalesce, limit);
      && Flatten(runs) == pending
      && forall k :: 0 <= k < |runs| ==> GoodRun(runs[k], Flatten(runs[k + 1..]), coalesce, limit)
    decreases |pending|
  {
    if pending != [] {
      hide GoodRun, Plan;
      var members := Plan(pending, coalesce, limit);
      PlanIsGoodRun(pending, coalesce, limit);
      PlanTakesSome(pending, coalesce, limit);
      var rest := pending[|members|..];
      DrainPartitions(rest, coalesce, limit);
      var tail := Drain(rest, coalesce, limit);
      var runs := [members] + tail;
      assert runs[1..] == tail;
      forall k | 0 <= k < |runs| ensures GoodRun(runs[k], Flatten(runs[k + 1..]), coalesce, limit) {
        if k > 0 {
          assert runs[k + 1..] == tail[k..];
        }
      }
    }
  }

  lemma PlanTakesSome(pending: seq<Queued>, coalesce: bool, limit: int)
    requires pending != [] && limit >= 1
    ensures 1 <= |Plan(pending, coalesce, limit)| <= |pending|
    ensures pending[..|Plan(pending, coalesce, limit)|] == Plan(pending, coalesce, limit)
  {}

  datatype ProjectionError = TooFew | NotNormalized | Incompatible

  // The checks a projection makes before it builds anything.
  function ProjectionCheck(members: seq<Queued>): Option<ProjectionError> {
    if |members| < 2 then Some(TooFew)
    else if exists i :: 0 <= i < |members| && members[i].normalized.None? then Some(NotNormalized)
    else if exists i :: 1 <= i < |members| && !CanCoalesce(members[0], members[i]) then Some(Incompatible)
    else None
  }

  /** A planned batch, also after dropping members from its end, is refused only when fewer than two are left. */
  lemma PlannedRunProjects(pending: seq<Queued>, coalesce: bool, limit: int, keep: nat)
    requires keep <= |Plan(pending, coalesce, limit)|
    ensures ProjectionCheck(Plan(pending, coalesce, limit)[..keep]).None? <==> keep >= 2
  {
    if keep >= 2 {
      PlanIsGoodRun(pending, coalesce, limit);
      var members := Plan(pending, coalesce, limit);
      hide Plan;
      assert forall i :: 0 <= i < keep ==> members[..keep][i] == members[i];
      assert forall i :: 0 <= i < keep ==> CanCoalesce(members[0], members[i]);
    }
  }

  /* ---- The text of a batch ---- */

  const TEXT_LIMIT: nat := 12_000

  function JoinLines(parts: seq<string>): string {
    if parts == [] then "" else if |parts| == 1 then parts[0] else parts[0] + "\n" + JoinLines(parts[1..])
  }

  // The trailer that says how many lines are missing.
  function Trailer(omitted: nat): string {
    "- 其余 " + Decimal(omitted) + " 条已省略；source event IDs 已完整保留"
  }

  function Shown(summary: string, lines: seq<string>, kept: nat): string
    requires kept <= |lines|
  {
    JoinLines([summary] + lines[..kept] + [Trailer(|lines| - kept)])
  }

  // The text the loop considers before it keeps line number kept.
  function Candidate(summary: string, lines: seq<string>, kept: nat): string
    requires kept < |lines|
  {
    JoinLines([summary] + lines[..kept] + [lines[kept], Trailer(|lines| - kept)])
  }

  function Cut(text: string): (r: string)
    ensures |r| <= TEXT_LIMIT
    ensures r == text <==> |text| <= TEXT_LIMIT
  {
    if |text| > TEXT_LIMIT then text[..TEXT_LIMIT] else text
  }

  // kept is the number of lines shown when not all of them fit.
  predicate Stops(summary: string, lines: seq<string>, kept: nat) {
    && kept < |lines|
    && |Candidate(summary, lines, kept)| > TEXT_LIMIT
    && forall i :: 0 <= i < kept ==> |Candidate(summary, lines, i)| <= TEXT_LIMIT
  }

  function Complete(summary: string, lines: seq<string>): string {
    JoinLines([summary] + lines)
  }

  method BoundedText(summary: string, lines: seq<string>) returns (text: string, ghost kept: nat)
    ensures |text| <= TEXT_LIMIT
    ensures |Complete(summary, lines)| <= TEXT_LIMIT ==> text == Complete(summary, lines)
    ensures |Complete(summary, lines)| > TEXT_LIMIT && lines != [] ==>
      Stops(summary, lines, kept) && text == Cut(Shown(summary, lines, kept))
    ensures lines == [] ==> text == Cut(summary)
  {
    kept := 0;
    var complete := JoinLines([summary] + lines);
    if |complete| <= TEXT_LIMIT {
      return complete, 0;
    }
    var shown := [summary];
    var index := 0;
    while index < |lines|
      invariant 0 <= index <= |lines|
      invariant shown == [summary] + lines[..index]
      invariant forall i :: 0 <= i < index ==> |Candidate(summary, lines, i)| <= TEXT_LIMIT
    {
      var omitted := |lines| - index;
      var candidate := JoinLines(shown + [lines[index], Trailer(omitted)]);
      if |candidate| > TEXT_LIMIT {
        kept := index;
        text := Cut(JoinLines(shown + [Trailer(omitted)]));
        return;
      }
      shown := shown + [lines[index]];
      assert lines[..index + 1] == lines[..index] + [lines[index]];
      index := index + 1;
    }
    LastCandidateOverflows(summary, lines);
    text := Cut(JoinLines(shown));
  }

  lemma {:induction false} LengthOfJoin(parts: seq<string>, more: seq<string>)
    requires parts != [] && more != []
    ensures |JoinLines(parts + more)| == |JoinLines(parts)| + 1 + |JoinLines(more)|
  {
    if |parts| == 1 {
      assert (parts + more)[1..] == more;
    } else {
      LengthOfJoin(parts[1..], more);
      assert (parts + more)[1..] == parts[1..] + more;
    }
  }

  lemma CandidateLength(summary: string, lines: seq<string>, kept: nat)
    requires kept < |lines|
    ensures
      var before := |JoinLines([summary] + lines[..kept])|;
      && |Candidate(summary, lines, kept)| == before + 1 + |lines[kept]| + 1 + |Trailer(|lines| - kept)|
      && |Shown(summary, lines, kept)| == before + 1 + |Trailer(|lines| - kept)|
      && |JoinLines([summary] + lines[..kept + 1])| == before + 1 + |lines[kept]|
  {
    var head, line, trailer := [summary] + lines[..kept], lines[kept], Trailer(|lines| - kept);
    LengthOfJoin(head, [line, trailer]);
    LengthOfJoin([line], [trailer]);
    assert [line, trailer] == [line] + [trailer];
    LengthOfJoin(head, [trailer]);
    LengthOfJoin(head, [line]);
    assert [summary] + lines[..kept + 1] == head + [line];
  }

  // When not everything fits, the loop cannot run past its last line.
  lemma LastCandidateOverflows(summary: string, lines: seq<string>)
    requires |Complete(summary, lines)| > TEXT_LIMIT
    ensures lines != [] ==> |Candidate(summary, lines, |lines| - 1)| > TEXT_LIMIT
  {
    if lines != [] {
      var last := |lines| - 1;
      CandidateLength(summary, lines, last);
      assert lines[..last + 1] == lines;
    }
  }

  /**
   When lines had to be dropped, the final cut removes nothing exactly when the summary and the
   first trailer fit by themselves; the trailer then states exactly how many lines are missing.
   */
  lemma TrailerSurvivesWhen(summary: string, lines: seq<string>, kept: nat)
    requires |Complete(summary, lines)| > TEXT_LIMIT && Stops(summary, lines, kept)
    ensures Cut(Shown(summary, lines, kept)) == Shown(summary, lines, kept)
      <==> |summary| + 1 + |Trailer(|lines|)| <= TEXT_LIMIT
  {
    if kept == 0 {
      CandidateLength(summary, lines, 0);
      assert [summary] + lines[..0] == [summary];
    } else {
      hide Stops, Shown, Trailer;
      KeptLinesFit(summary, lines, kept);
    }
  }

  // A line was kept because it fitted together with a trailer that is no shorter.
  lemma KeptLinesFit(summary: string, lines: seq<string>, kept: nat)
    requires Stops(summary, lines, kept) && kept > 0
    ensures |Shown(summary, lines, kept)| <= TEXT_LIMIT && |summary| + 1 + |Trailer(|lines|)| <= TEXT_LIMIT
  {
    assert |Candidate(summary, lines, 0)| <= TEXT_LIMIT && |Candidate(summary, lines, kept - 1)| <= TEXT_LIMIT;
    assert [summary] + lines[..0] == [summary];
    CandidateLength(summary, lines, 0);
    CandidateLength(summary, lines, kept - 1);
    CandidateLength(summary, lines, kept);
    ShorterTrailer(|lines| - kept);
    hide Candidate, Shown, Stops, Trailer;
  }

  lemma ShorterTrailer(omitted: nat)
    ensures |Trailer(omitted)| <= |Trailer(omitted + 1)|
  {
    DecimalLengthIsMonotone(omitted, omitted + 1);
  }

  /** The bare helper gives way: a summary that fills the text by itself costs the trailer its end. */
  lemma LongSummaryCutsTrailer(summary: string, lines: seq<string>)
    requires |summary| >= TEXT_LIMIT && lines != []
    ensures |Complete(summary, lines)| > TEXT_LIMIT && Stops(summary, lines, 0)
    ensures Cut(Shown(summary, lines, 0)) != Shown(summary, lines, 0)
  {
    LengthOfJoin([summary], lines);
    CandidateLength(summary, lines, 0);
    assert [summary] + lines[..0] == [summary];
  }

  /* ---- The text of a planned batch ---- */

  function SingletonKey(e: Event): string {
    "github:" + e.repository + ":event:" + e.id
  }

  // What normalization bounds: the event key, or it fails, and the actor, which it cuts.
  predicate Normal(e: Event) {
    |SingletonKey(e)| <= 255 && |e.actor| <= 128
  }

  function Label(refType: string): string {
    if refType == "branch" then "分支" else if refType == "tag" then "标签" else "引用"
  }

  function AggregateSummary(events: seq<Event>): string
    requires events != []
  {
    var e, count := events[0], Decimal(|events|);
    if e.eventType == "CreateEvent" || e.eventType == "DeleteEvent" then
      e.repository + "：" + e.actor + " 连续" + (if e.eventType == "CreateEvent" then "创建" else "删除")
      + "了 " + count + " 个" + Label(e.refType)
    else if e.eventType == "WatchEvent" then
      e.repository + " 收到 " + count + " 个新的 Star"
    else
      e.repository + " 被 Fork 了 " + count + " 次"
  }

  function MemberLine(e: Event): string {
    var detail :=
      if e.eventType == "CreateEvent" || e.eventType == "DeleteEvent" then
        if e.branch == "" then "未命名引用" else e.branch
      else
        if e.actor == "" then "unknown" else e.actor;
    "- #" + e.id + " " + detail
  }

  function MemberLines(events: seq<Event>): (r: seq<string>)
    ensures |r| == |events|
  {
    seq(|events|, i requires 0 <= i < |events| => MemberLine(events[i]))
  }

  lemma SummaryIsShort(events: seq<Event>)
    requires events != [] && Normal(events[0])
    ensures |AggregateSummary(events)| <= 400 + |Decimal(|events|)|
  {
    hide Decimal;
  }

  /**
   The text of a batch is never cut inside its trailer: of normalized events, fewer than ten thousand,
   it is complete, or ends in a trailer that states exactly how many lines are missing.
   */
  lemma BatchTextKeepsTrailer(events: seq<Event>, kept: nat)
    requires events != [] && Normal(events[0]) && |events| < 10_000
    ensures
      var summary, lines := AggregateSummary(events), MemberLines(events);
      |Complete(summary, lines)| > TEXT_LIMIT && Stops(summary, lines, kept) ==>
        Cut(Shown(summary, lines, kept)) == Shown(summary, lines, kept)
  {
    var summary, lines := AggregateSummary(events), MemberLines(events);
    SummaryIsShort(events);
    DecimalIsShort(|events|, 4);
    assert Power(4) == 10_000;
    assert |Trailer(|lines|)| <= 100;
    hide AggregateSummary, MemberLines, Trailer, Shown, Stops, Complete;
    if |Complete(summary, lines)| > TEXT_LIMIT && Stops(summary, lines, kept) {
      TrailerSurvivesWhen(summary, lines, kept);
    }
  }
}
