/**
 Identity of upstream GitHub events: the numeric id, and the collapse of page overlap that fails
 closed when one id carries two payloads.

 A fingerprint covers the whole item and is taken to be injective, so items are compared instead.
 */
module GithubEvents {
  import opened Common

  datatype IdentityError = NotNumeric | NotCanonical | PayloadInvalid | PayloadConflict
  datatype Checked<+T> = Ok(value: T) | Failed(error: IdentityError)

  // body stands for everything but the id; encodable says whether it can be written as JSON.
  datatype Raw = Raw(id: string, body: string, encodable: bool)

  const ID_LIMIT: nat := 128

  function Strip(s: string): string {
    if s == "" then s
    else if IsSpace(s[0]) then Strip(s[1..])
    else if IsSpace(s[|s| - 1]) then Strip(s[..|s| - 1])
    else s
  }

  function IdText(raw: string): string {
    var text := Strip(raw);
    if |text| > ID_LIMIT then text[..ID_LIMIT] else text
  }

  predicate CanonicalId(id: string) {
    id != "" && AllDigits(id) && Decimal(Number(id)) == id
  }

  function NumericEventId(raw: string): (r: Checked<string>)
    ensures r.Ok? <==> CanonicalId(IdText(raw))
    ensures r.Ok? ==> r.value == IdText(raw)
  {
    var id := IdText(raw);
    if id == "" || !AllDigits(id) then Failed(NotNumeric)
    else if Decimal(Number(id)) != id then Failed(NotCanonical)
    else Ok(id)
  }

  function Id(item: Raw): string {
    IdText(item.id)
  }

  predicate Acceptable(item: Raw) {
    CanonicalId(Id(item)) && item.encodable
  }

  function ItemError(item: Raw): (e: Option<IdentityError>)
    ensures e.None? <==> Acceptable(item)
  {
    var id := NumericEventId(item.id);
    if id.Failed? then Some(id.error) else if !item.encodable then Some(PayloadInvalid) else None
  }

  /* ---- What the collapse computes ---- */

  // The error of the first item that is unacceptable or contradicts an earlier one.
  function FirstError(raws: seq<Raw>): Option<IdentityError> {
    if raws == [] then None
    else
      var front, last := raws[..|raws| - 1], raws[|raws| - 1];
      if FirstError(front).Some? then FirstError(front)
      else if ItemError(last).Some? then ItemError(last)
      else if exists r :: r in front && Id(r) == Id(last) && r != last then Some(PayloadConflict)
      else None
  }

  // Each item once, in order of first appearance.
  function FirstOfEach(raws: seq<Raw>): seq<Raw> {
    if raws == [] then []
    else
      var front, last := raws[..|raws| - 1], raws[|raws| - 1];
      if last in front then FirstOfEach(front) else FirstOfEach(front) + [last]
  }

  function Rank(item: Raw): nat {
    if AllDigits(Id(item)) then Number(Id(item)) else 0
  }

  function InsertByNumber(item: Raw, sorted: seq<Raw>): seq<Raw> {
    if sorted == [] || Rank(item) <= Rank(sorted[0]) then [item] + sorted
    else [sorted[0]] + InsertByNumber(item, sorted[1..])
  }

  // Library sort by number.
  function SortedByNumber(items: seq<Raw>): seq<Raw> {
    if items == [] then [] else InsertByNumber(items[0], SortedByNumber(items[1..]))
  }

  lemma {:induction false} SortedCovers(items: seq<Raw>)
    ensures forall i :: i in SortedByNumber(items) <==> i in items
  {
    if items != [] {
      SortedCovers(items[1..]);
      InsertAdds(items[0], SortedByNumber(items[1..]));
      assert items == [items[0]] + items[1..];
    }
  }

  lemma {:induction false} InsertAdds(item: Raw, sorted: seq<Raw>)
    ensures forall i :: i in InsertByNumber(item, sorted) <==> i == item || i in sorted
  {
    if sorted != [] && Rank(item) > Rank(sorted[0]) {
      InsertAdds(item, sorted[1..]);
      assert sorted == [sorted[0]] + sorted[1..];
    }
  }

  lemma {:induction false} FirstOfEachCovers(raws: seq<Raw>)
    ensures forall r :: r in FirstOfEach(raws) <==> r in raws
  {
    if raws != [] {
      FirstOfEachCovers(raws[..|raws| - 1]);
      assert raws == raws[..|raws| - 1] + [raws[|raws| - 1]];
    }
  }

  lemma {:induction false} NoErrorMeansAcceptable(raws: seq<Raw>)
    requires FirstError(raws).None?
    ensures forall r :: r in raws ==> Acceptable(r)
    ensures forall r, s :: r in raws && s in raws && Id(r) == Id(s) ==> r == s
  {
    hide Acceptable, IdText;
    if raws != [] {
      NoErrorMeansAcceptable(raws[..|raws| - 1]);
      assert raws == raws[..|raws| - 1] + [raws[|raws| - 1]];
    }
  }

  function Deduplicated(raws: seq<Raw>): Checked<seq<Raw>> {
    if FirstError(raws).Some? then Failed(FirstError(raws).value)
    else Ok(SortedByNumber(FirstOfEach(raws)))
  }

  /* ---- The loop over a dictionary ---- */

  // The dictionary holds the items seen so far under their ids.
  predicate Indexed(byId: map<string, Raw>, seen: seq<Raw>) {
    && (forall r :: r in seen ==> Id(r) in byId && byId[Id(r)] == r)
    && (forall id :: id in byId ==> byId[id] in seen && Id(byId[id]) == id)
  }

  lemma IndexedDecides(byId: map<string, Raw>, seen: seq<Raw>, item: Raw)
    requires Indexed(byId, seen)
    ensures (exists r :: r in seen && Id(r) == Id(item) && r != item) <==> Id(item) in byId && byId[Id(item)] != item
    ensures item in seen <==> Id(item) in byId && byId[Id(item)] == item
    ensures Id(item) !in byId || byId[Id(item)] == item ==> Indexed(byId[Id(item) := item], seen + [item])
  {
    hide IdText;
  }

  method DeduplicateRawEvents(raws: seq<Raw>) returns (result: Checked<seq<Raw>>)
    ensures result == Deduplicated(raws)
  {
    var byId: map<string, Raw> := map[];
    var order: seq<Raw> := [];
    var i := 0;
    while i < |raws|
      invariant 0 <= i <= |raws|
      invariant FirstError(raws[..i]).None?
      invariant Indexed(byId, raws[..i])
      invariant order == FirstOfEach(raws[..i])
    {
      hide FirstError, FirstOfEach, SortedByNumber, IdText, CanonicalId, Deduplicated, Indexed, NumericEventId,
        Acceptable;
      Decided(raws);
      var item := raws[i];
      StepOver(raws, i);
      PrefixError(raws, i + 1);
      IndexedDecides(byId, raws[..i], item);
      assert raws[..i + 1] == raws[..i] + [item];
      var id := NumericEventId(item.id);
      if id.Failed? {
        return Failed(id.error);
      }
      if !item.encodable {
        return Failed(PayloadInvalid);
      }
      if id.value in byId && byId[id.value] != item {
        return Failed(PayloadConflict);
      }
      if id.value !in byId {
        order := order + [item];
      }
      byId := byId[id.value := item];
      i := i + 1;
    }
    assert raws[..i] == raws;
    Decided(raws);
    hide *;
    return Ok(SortedByNumber(order));
  }

  lemma Decided(raws: seq<Raw>)
    ensures FirstError(raws).Some? ==> Deduplicated(raws) == Failed(FirstError(raws).value)
    ensures FirstError(raws).None? ==> Deduplicated(raws) == Ok(SortedByNumber(FirstOfEach(raws)))
  {}

  lemma StepOver(raws: seq<Raw>, i: nat)
    requires i < |raws|
    requires FirstError(raws[..i]).None?
    ensures FirstError(raws[..i + 1]) == (
      if ItemError(raws[i]).Some? then ItemError(raws[i])
      else if exists r :: r in raws[..i] && Id(r) == Id(raws[i]) && r != raws[i] then Some(PayloadConflict)
      else None)
    ensures FirstOfEach(raws[..i + 1]) == FirstOfEach(raws[..i]) + (if raws[i] in raws[..i] then [] else [raws[i]])
  {
    assert raws[..i + 1][..i] == raws[..i] && raws[..i + 1][i] == raws[i];
  }

  // An error in a prefix is the error of the whole.
  lemma {:induction false} PrefixError(raws: seq<Raw>, k: nat)
    requires k <= |raws|
    ensures FirstError(raws[..k]).Some? ==> FirstError(raws) == FirstError(raws[..k])
    decreases |raws|
  {
    if k < |raws| {
      PrefixError(raws[..|raws| - 1], k);
      assert raws[..|raws| - 1][..k] == raws[..k];
    } else {
      assert raws[..k] == raws;
    }
  }

  /* ---- What it guarantees ---- */

  predicate Increasing(items: seq<Raw>) {
    && (forall i :: 0 <= i < |items| ==> CanonicalId(Id(items[i])))
    && forall i, j :: 0 <= i < j < |items| ==> Rank(items[i]) < Rank(items[j])
  }

  lemma IncreasingFrom(item: Raw, rest: seq<Raw>)
    requires CanonicalId(Id(item)) && Increasing(rest) && forall r :: r in rest ==> Rank(item) < Rank(r)
    ensures Increasing([item] + rest)
  {
    hide CanonicalId, Id, Rank;
    var all := [item] + rest;
    forall i, j | 0 <= i < j < |all| ensures Rank(all[i]) < Rank(all[j]) {
      assert all[j] == rest[j - 1];
      assert i > 0 ==> all[i] == rest[i - 1];
    }
  }

  lemma {:induction false} InsertIncreases(item: Raw, sorted: seq<Raw>)
    requires Acceptable(item) && (forall r :: r in sorted ==> Acceptable(r)) && Increasing(sorted)
    requires forall r :: r in sorted ==> Id(r) != Id(item)
    ensures Increasing(InsertByNumber(item, sorted))
  {
    if sorted == [] {
      IncreasingFrom(item, []);
    } else {
      var first := sorted[0];
      assert sorted == [first] + sorted[1..];
      assert first in sorted && Acceptable(first) && Acceptable(item) && Rank(item) != Rank(first);
      assert forall r :: r in sorted[1..] ==> Rank(first) < Rank(r);
      hide Rank, Id, CanonicalId, Acceptable;
      if Rank(item) > Rank(first) {
        InsertIncreases(item, sorted[1..]);
        InsertAdds(item, sorted[1..]);
        IncreasingFrom(first, InsertByNumber(item, sorted[1..]));
      } else {
        IncreasingFrom(item, sorted);
      }
    }
  }

  // Items of different ids, each once.
  predicate OneEachId(items: seq<Raw>) {
    forall i, j :: 0 <= i < j < |items| ==> Id(items[i]) != Id(items[j])
  }

  lemma {:induction false} SortedIncreases(items: seq<Raw>)
    requires (forall i :: i in items ==> Acceptable(i)) && OneEachId(items)
    ensures Increasing(SortedByNumber(items))
  {
    if items != [] {
      SortedIncreases(items[1..]);
      SortedCovers(items[1..]);
      InsertIncreases(items[0], SortedByNumber(items[1..]));
    }
  }

  lemma {:induction false} FirstOfEachHasOneEachId(raws: seq<Raw>)
    requires FirstError(raws).None?
    ensures OneEachId(FirstOfEach(raws))
  {
    if raws != [] {
      var front, last := raws[..|raws| - 1], raws[|raws| - 1];
      FirstOfEachHasOneEachId(front);
      FirstOfEachCovers(front);
      forall k | 0 <= k < |FirstOfEach(front)| && last !in front ensures Id(FirstOfEach(front)[k]) != Id(last) {
        assert FirstOfEach(front)[k] in front;
      }
    }
  }

  /**
   The collapse fails exactly when some item is unacceptable or some id carries two payloads;
   otherwise its result is strictly increasing by number and holds exactly the items given.
   */
  lemma DeduplicationIsExact(raws: seq<Raw>)
    ensures Deduplicated(raws).Failed? <==>
      || (exists r :: r in raws && !Acceptable(r))
      || (exists r, s :: r in raws && s in raws && Id(r) == Id(s) && r != s)
    ensures Deduplicated(raws).Ok? ==>
      Increasing(Deduplicated(raws).value) && forall r :: r in Deduplicated(raws).value <==> r in raws
  {
    if FirstError(raws).None? {
      NoErrorMeansAcceptable(raws);
      FirstOfEachCovers(raws);
      FirstOfEachHasOneEachId(raws);
      SortedIncreases(FirstOfEach(raws));
      SortedCovers(FirstOfEach(raws));
    } else {
      ErrorHasCause(raws);
    }
  }

  lemma {:induction false} ErrorHasCause(raws: seq<Raw>)
    requires FirstError(raws).Some?
    ensures (exists r :: r in raws && !Acceptable(r))
         || (exists r, s :: r in raws && s in raws && Id(r) == Id(s) && r != s)
  {
    var front, last := raws[..|raws| - 1], raws[|raws| - 1];
    assert last in raws && forall r :: r in front ==> r in raws;
    if FirstError(front).Some? {
      ErrorHasCause(front);
    }
  }

  lemma NothingInEmpty(a: seq<Raw>, b: seq<Raw>)
    requires forall r :: r in b ==> r in a
    ensures a == [] ==> b == []
  {
    if b != [] {
      assert b[0] in a;
    }
  }

  lemma {:induction false} IncreasingIsUnique(a: seq<Raw>, b: seq<Raw>)
    requires Increasing(a) && Increasing(b) && forall r :: r in a <==> r in b
    ensures a == b
  {
    NothingInEmpty(a, b);
    NothingInEmpty(b, a);
    if a != [] {
      assert a[0] in b && b[0] in a;
      assert a[0] == b[0];
      forall r ensures r in a[1..] <==> r in b[1..] {
        assert r in a[1..] <==> r in a && r != a[0] by { TailOf(a, r); }
        assert r in b[1..] <==> r in b && r != b[0] by { TailOf(b, r); }
      }
      IncreasingIsUnique(a[1..], b[1..]);
    }
  }

  lemma TailOf(a: seq<Raw>, r: Raw)
    requires Increasing(a) && a != []
    ensures r in a[1..] <==> r in a && r != a[0]
  {
    assert a == [a[0]] + a[1..];
    if r in a[1..] {
      var k :| 0 <= k < |a[1..]| && a[1..][k] == r;
      assert a[k + 1] == r;
    }
  }

  /** Page order, overlap and repetition do not matter: only which items arrived does. */
  lemma DeduplicationIgnoresOrder(a: seq<Raw>, b: seq<Raw>)
    requires forall r :: r in a <==> r in b
    ensures Deduplicated(a).Ok? <==> Deduplicated(b).Ok?
    ensures Deduplicated(a).Ok? ==> Deduplicated(a) == Deduplicated(b)
  {
    DeduplicationIsExact(a);
    DeduplicationIsExact(b);
    if Deduplicated(a).Ok? && Deduplicated(b).Ok? {
      IncreasingIsUnique(Deduplicated(a).value, Deduplicated(b).value);
    }
  }

  /** Collapsing a collapsed list changes nothing. */
  lemma DeduplicationIsIdempotent(raws: seq<Raw>)
    requires Deduplicated(raws).Ok?
    ensures Deduplicated(Deduplicated(raws).value) == Deduplicated(raws)
  {
    DeduplicationIsExact(raws);
    DeduplicationIgnoresOrder(raws, Deduplicated(raws).value);
  }
}
