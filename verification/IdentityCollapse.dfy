/**
 The many-to-one collapse of aliases and memberships during the canonical upgrade, and the content
 summary that the upgrade compares before and after it.

 A table is a sequence of rows whose order carries no meaning; timestamps are integers. Rows have the
 ids that the upgrade demands of them before it starts.
 */
module IdentityCollapse {
  import opened Common

  /* ---- Grouping ---- */

  datatype Row<K, V> = Row(key: K, value: V)

  function Keys<K(==), V(==)>(table: seq<Row<K, V>>): set<K> {
    set r | r in table :: r.key
  }

  // The values of one group, in table order.
  function Values<K(==), V(==)>(table: seq<Row<K, V>>, key: K): (r: seq<V>)
    ensures r != [] <==> key in Keys(table)
  {
    if table == [] then []
    else
      assert table == [table[0]] + table[1..];
      if table[0].key == key then [table[0].value] + Values(table[1..], key) else Values(table[1..], key)
  }

  lemma {:induction false} ValuesOf<K, V>(table: seq<Row<K, V>>, key: K, v: V)
    ensures v in Values(table, key) <==> Row(key, v) in table
  {
    if table != [] {
      ValuesOf(table[1..], key, v);
      assert table == [table[0]] + table[1..];
    }
  }

  // GROUP BY: one merged value for every key.
  function Collapse<K(==), V(==)>(table: seq<Row<K, V>>, merge: seq<V> -> V): map<K, V> {
    map key | key in Keys(table) :: merge(Values(table, key))
  }

  // The rows the digest reads, under the keys it orders them by.
  function Summarize<K(==), V(==), W>(table: seq<Row<K, V>>, merge: seq<V> -> V, show: V -> W): map<K, W> {
    map key | key in Keys(table) :: show(merge(Values(table, key)))
  }

  /** The table holds these values, one row per key, in whatever order. */
  predicate Lists<K(==), V(==)>(table: seq<Row<K, V>>, values: map<K, V>) {
    Keys(table) == values.Keys && forall key :: key in values ==> Values(table, key) == [values[key]]
  }

  // Merging depends on which values there are only.
  ghost predicate OrderFree<V(!new)>(merge: seq<V> -> V) {
    forall a: seq<V>, b: seq<V> :: a != [] && b != [] && SameMembers(a, b) ==> merge(a) == merge(b)
  }

  ghost predicate SameMembers<T(!new)>(a: seq<T>, b: seq<T>) {
    forall x :: x in a <==> x in b
  }

  // One value merges into itself.
  ghost predicate Unital<V(!new)>(merge: seq<V> -> V) {
    forall v :: merge([v]) == v
  }

  lemma SameGroups<K(!new), V(!new)>(a: seq<Row<K, V>>, b: seq<Row<K, V>>, key: K)
    requires SameMembers(a, b)
    ensures key in Keys(a) <==> key in Keys(b)
    ensures SameMembers(Values(a, key), Values(b, key))
  {
    forall v ensures v in Values(a, key) <==> v in Values(b, key) {
      ValuesOf(a, key, v);
      ValuesOf(b, key, v);
    }
  }

  lemma CollapseIgnoresOrder<K(!new), V(!new), W>(
      a: seq<Row<K, V>>, b: seq<Row<K, V>>, merge: seq<V> -> V, show: V -> W)
    requires SameMembers(a, b) && OrderFree(merge)
    ensures Collapse(a, merge) == Collapse(b, merge) && Summarize(a, merge, show) == Summarize(b, merge, show)
  {
    forall key ensures key in Keys(a) <==> key in Keys(b)
      ensures key in Keys(a) ==> merge(Values(a, key)) == merge(Values(b, key)) {
      SameGroups(a, b, key);
    }
    hide Keys, Values;
  }

  lemma CollapseKeepsSummary<K, V(!new), W>(
      table: seq<Row<K, V>>, collapsed: seq<Row<K, V>>, merge: seq<V> -> V, show: V -> W)
    requires Unital(merge) && Lists(collapsed, Collapse(table, merge))
    ensures Summarize(collapsed, merge, show) == Summarize(table, merge, show)
  {
    hide Keys, Values;
    assert Keys(collapsed) == Keys(table);
    forall key | key in Keys(table) ensures merge(Values(collapsed, key)) == merge(Values(table, key)) {
      assert Values(collapsed, key) == [Collapse(table, merge)[key]];
    }
  }

  lemma SummaryKeys<K, V, W>(table: seq<Row<K, V>>, merge: seq<V> -> V, show: V -> W)
    ensures Summarize(table, merge, show).Keys == Keys(table) && |Summarize(table, merge, show)| == |Keys(table)|
  {
    hide Values;
    assert |Summarize(table, merge, show)| == |Summarize(table, merge, show).Keys|;
  }

  lemma {:induction false} TableExists<K(!new), V>(values: map<K, V>) returns (table: seq<Row<K, V>>)
    ensures Lists(table, values)
    decreases |values|
  {
    if values == map[] {
      table := [];
    } else {
      var key :| key in values;
      var rest := values - {key};
      assert rest.Keys == values.Keys - {key} && values == rest[key := values[key]];
      var tail := TableExists(rest);
      table := [Row(key, values[key])] + tail;
      OneMoreRow(tail, rest, Row(key, values[key]));
    }
  }

  lemma OneMoreRow<K(!new), V>(tail: seq<Row<K, V>>, rest: map<K, V>, row: Row<K, V>)
    requires Lists(tail, rest) && row.key !in rest
    ensures Lists([row] + tail, rest[row.key := row.value])
  {
    var table := [row] + tail;
    assert table[1..] == tail;
    assert Keys(table) == {row.key} + Keys(tail);
    forall key | key in Keys(table)
      ensures Values(table, key) == (if key == row.key then [row.value] + Values(tail, key) else Values(tail, key)) {}
    assert Values(tail, row.key) == [];
    hide Keys, Values;
  }

  /* ---- The digest ---- */

  // Rows are ordered by several columns of text.
  predicate NotAfter(a: seq<string>, b: seq<string>) {
    a == [] || (b != [] && if a[0] == b[0] then NotAfter(a[1..], b[1..]) else AtMost(a[0], b[0]))
  }

  lemma {:induction false} OrderIsStrict(a: seq<string>, b: seq<string>)
    requires NotAfter(a, b) && NotAfter(b, a)
    ensures a == b
  {
    if a != [] && b != [] {
      AtMostTotal(a[0], b[0]);
      OrderIsStrict(a[1..], b[1..]);
      assert a == [a[0]] + a[1..] && b == [b[0]] + b[1..];
    }
  }

  /** lines lists a summary in the order the digest reads it. */
  ghost predicate InOrder<K, W>(lines: seq<(K, W)>, summary: map<K, W>, columns: K -> seq<string>) {
    && (forall i, j :: 0 <= i < j < |lines| ==>
          lines[i].0 != lines[j].0 && NotAfter(columns(lines[i].0), columns(lines[j].0)))
    && (forall i :: 0 <= i < |lines| ==> lines[i].0 in summary && summary[lines[i].0] == lines[i].1)
    && (forall key :: key in summary ==> exists i :: 0 <= i < |lines| && lines[i].0 == key)
  }

  ghost predicate Distinguishes<K>(columns: K -> seq<string>, keys: set<K>) {
    forall a, b :: a in keys && b in keys && columns(a) == columns(b) ==> a == b
  }

  /** When the columns tell the keys apart there is one digest of a summary, of one line per key. */
  lemma {:induction false} DigestIsUnique<K, W>(
      a: seq<(K, W)>, b: seq<(K, W)>, summary: map<K, W>, columns: K -> seq<string>)
    requires InOrder(a, summary, columns) && InOrder(b, summary, columns) && Distinguishes(columns, summary.Keys)
    ensures a == b && |a| == |summary|
    decreases |a|
  {
    hide *;
    NothingToList(a, summary, columns);
    NothingToList(b, summary, columns);
    if a != [] && b != [] {
      SameHead(a, b, summary, columns);
      TailInOrder(a, summary, columns);
      TailInOrder(b, summary, columns);
      FirstIsListed(a, summary, columns);
      OneKeyLess(summary, a[0].0, columns);
      DigestIsUnique(a[1..], b[1..], summary - {a[0].0}, columns);
      assert a == [a[0]] + a[1..] && b == [b[0]] + b[1..];
    }
  }

  lemma {:induction false} OrderIsTotal(a: seq<string>, b: seq<string>)
    ensures NotAfter(a, b) || NotAfter(b, a)
  {
    if a != [] && b != [] {
      AtMostTotal(a[0], b[0]);
      OrderIsTotal(a[1..], b[1..]);
    }
  }

  lemma {:induction false} OrderIsTransitive(a: seq<string>, b: seq<string>, c: seq<string>)
    requires NotAfter(a, b) && NotAfter(b, c)
    ensures NotAfter(a, c)
  {
    if a != [] {
      if a[0] == b[0] == c[0] {
        OrderIsTransitive(a[1..], b[1..], c[1..]);
      } else {
        hide AtMost;
        AtMostTotal(a[0], b[0]);
        if AtMost(a[0], b[0]) && AtMost(b[0], c[0]) {
          AtMostTransitive(a[0], b[0], c[0]);
        }
        if a[0] == c[0] {
          AtMostTotal(b[0], c[0]);
        }
      }
    }
  }

  lemma {:induction false} FirstKey<K>(keys: set<K>, columns: K -> seq<string>) returns (first: K)
    requires keys != {}
    ensures first in keys && forall key :: key in keys ==> NotAfter(columns(first), columns(key))
    decreases |keys|
  {
    hide NotAfter;
    var any :| any in keys;
    var rest := keys - {any};
    OrderIsTotal(columns(any), columns(any));
    if rest == {} {
      first := any;
      assert keys == {any};
    } else {
      first := FirstKey(rest, columns);
      OrderIsTotal(columns(any), columns(first));
      if NotAfter(columns(any), columns(first)) {
        forall key | key in rest ensures NotAfter(columns(any), columns(key)) {
          OrderIsTransitive(columns(any), columns(first), columns(key));
        }
        first := any;
      }
    }
  }

  /** Every summary has a digest. */
  lemma {:induction false} DigestExists<K(!new), W>(summary: map<K, W>, columns: K -> seq<string>)
    returns (lines: seq<(K, W)>)
    ensures InOrder(lines, summary, columns)
    decreases |summary|
  {
    if summary == map[] {
      lines := [];
    } else {
      assert summary.Keys != {};
      var first := FirstKey(summary.Keys, columns);
      var rest := summary - {first};
      assert rest.Keys == summary.Keys - {first} && |rest.Keys| < |summary.Keys|;
      var tail := DigestExists(rest, columns);
      lines := [(first, summary[first])] + tail;
      FirstLine(first, tail, summary, columns);
    }
  }

  lemma FirstLine<K(!new), W>(first: K, tail: seq<(K, W)>, summary: map<K, W>, columns: K -> seq<string>)
    requires first in summary && InOrder(tail, summary - {first}, columns)
    requires forall key :: key in summary ==> NotAfter(columns(first), columns(key))
    ensures InOrder([(first, summary[first])] + tail, summary, columns)
  {
    hide NotAfter;
    var lines := [(first, summary[first])] + tail;
    assert forall i :: 0 < i < |lines| ==> lines[i] == tail[i - 1];
    forall key | key in summary ensures exists i :: 0 <= i < |lines| && lines[i].0 == key {
      if key == first {
        assert lines[0].0 == key;
      } else {
        assert key in summary - {first};
        var i :| 0 <= i < |tail| && tail[i].0 == key;
        assert lines[i + 1].0 == key;
      }
    }
  }

  lemma OneKeyLess<K, W>(summary: map<K, W>, key: K, columns: K -> seq<string>)
    requires key in summary && Distinguishes(columns, summary.Keys)
    ensures |summary| == |summary - {key}| + 1 && Distinguishes(columns, (summary - {key}).Keys)
  {
    assert (summary - {key}).Keys == summary.Keys - {key};
    assert |summary.Keys| == |(summary - {key}).Keys| + 1;
  }

  lemma NothingToList<K, W>(a: seq<(K, W)>, summary: map<K, W>, columns: K -> seq<string>)
    requires InOrder(a, summary, columns)
    ensures a == [] <==> summary == map[]
  {
    if a != [] {
      FirstIsListed(a, summary, columns);
    }
  }

  lemma FirstIsListed<K, W>(a: seq<(K, W)>, summary: map<K, W>, columns: K -> seq<string>)
    requires InOrder(a, summary, columns) && a != []
    ensures a[0].0 in summary
  {}

  lemma SameHead<K, W>(a: seq<(K, W)>, b: seq<(K, W)>, summary: map<K, W>, columns: K -> seq<string>)
    requires InOrder(a, summary, columns) && InOrder(b, summary, columns) && Distinguishes(columns, summary.Keys)
    requires a != [] && b != []
    ensures a[0] == b[0]
  {
    var i :| 0 <= i < |a| && a[i].0 == b[0].0;
    var j :| 0 <= j < |b| && b[j].0 == a[0].0;
    if i > 0 && j > 0 {
      OrderIsStrict(columns(a[0].0), columns(b[0].0));
    }
  }

  lemma TailInOrder<K, W>(a: seq<(K, W)>, summary: map<K, W>, columns: K -> seq<string>)
    requires InOrder(a, summary, columns) && a != []
    ensures InOrder(a[1..], summary - {a[0].0}, columns)
  {
    var tail, rest := a[1..], summary - {a[0].0};
    assert forall i :: 0 <= i < |tail| ==> tail[i] == a[i + 1];
    forall key | key in rest ensures exists i :: 0 <= i < |tail| && tail[i].0 == key {
      var i :| 0 <= i < |a| && a[i].0 == key;
      assert tail[i - 1].0 == key;
    }
  }

  /* ---- Aliases: one row per person, space and alias ---- */

  datatype AliasKey = AliasKey(person: string, space: Option<string>, alias: string)
  datatype Alias = Alias(id: int, aliasType: string, firstSeen: int, lastSeen: int)

  // The summary keeps everything but the row id.
  datatype AliasSummary = AliasSummary(aliasType: string, firstSeen: int, lastSeen: int)

  function Least(a: string, b: string): string {
    if AtMost(a, b) then a else b
  }

  // MIN(id), MIN(alias_type), MIN(first_seen_at), MAX(last_seen_at) of one group; there is no empty group.
  function MergeAliases(rows: seq<Alias>): Alias {
    if rows == [] then Alias(0, "", 0, 0)
    else if |rows| == 1 then rows[0]
    else
      var a, b := rows[0], MergeAliases(rows[1..]);
      Alias(Min(a.id, b.id), Least(a.aliasType, b.aliasType),
            Min(a.firstSeen, b.firstSeen), Max(a.lastSeen, b.lastSeen))
  }

  function ShowAlias(a: Alias): AliasSummary {
    AliasSummary(a.aliasType, a.firstSeen, a.lastSeen)
  }

  // COALESCE(canonical_space_id, '') in the second column.
  function AliasColumns(key: AliasKey): seq<string> {
    [key.person, if key.space.Some? then key.space.value else "", key.alias]
  }

  // What the merged row is, without an order of evaluation.
  predicate Bounds(rows: seq<Alias>, m: Alias) {
    && (forall r :: r in rows ==> m.id <= r.id && AtMost(m.aliasType, r.aliasType)
                                  && m.firstSeen <= r.firstSeen && r.lastSeen <= m.lastSeen)
    && (exists r :: r in rows && r.id == m.id)
    && (exists r :: r in rows && r.aliasType == m.aliasType)
    && (exists r :: r in rows && r.firstSeen == m.firstSeen)
    && (exists r :: r in rows && r.lastSeen == m.lastSeen)
  }

  lemma {:induction false} MergeBounds(rows: seq<Alias>)
    requires rows != []
    ensures Bounds(rows, MergeAliases(rows))
  {
    if |rows| == 1 {
      AtMostTotal(rows[0].aliasType, rows[0].aliasType);
      assert rows[0] in rows;
    } else {
      MergeBounds(rows[1..]);
      BoundsGrow(rows[0], rows[1..], MergeAliases(rows[1..]), rows, MergeAliases(rows));
    }
  }

  lemma BoundsGrow(a: Alias, rest: seq<Alias>, b: Alias, rows: seq<Alias>, m: Alias)
    requires Bounds(rest, b) && rows == [a] + rest
    requires m.id == Min(a.id, b.id) && m.aliasType == Least(a.aliasType, b.aliasType)
    requires m.firstSeen == Min(a.firstSeen, b.firstSeen) && m.lastSeen == Max(a.lastSeen, b.lastSeen)
    ensures Bounds(rows, m)
  {
    hide AtMost;
    AtMostTotal(a.aliasType, a.aliasType);
    AtMostTotal(a.aliasType, b.aliasType);
    assert a in rows && forall r :: r in rows <==> r == a || r in rest;
    forall r | r in rest ensures AtMost(m.aliasType, r.aliasType) {
      if AtMost(a.aliasType, b.aliasType) {
        AtMostTransitive(a.aliasType, b.aliasType, r.aliasType);
      }
    }
  }

  lemma AliasMergeIsOrderFree()
    ensures OrderFree(MergeAliases) && Unital(MergeAliases)
  {
    forall a: seq<Alias>, b: seq<Alias> | a != [] && b != [] && SameMembers(a, b)
      ensures MergeAliases(a) == MergeAliases(b)
    {
      MergeBounds(a);
      MergeBounds(b);
      AtMostTotal(MergeAliases(a).aliasType, MergeAliases(b).aliasType);
    }
  }

  /** The collapse of aliases depends on which rows there are, not on their order or on repetitions. */
  lemma AliasCollapseIgnoresOrder(a: seq<Row<AliasKey, Alias>>, b: seq<Row<AliasKey, Alias>>)
    requires SameMembers(a, b)
    ensures Collapse(a, MergeAliases) == Collapse(b, MergeAliases)
    ensures Summarize(a, MergeAliases, ShowAlias) == Summarize(b, MergeAliases, ShowAlias)
  {
    AliasMergeIsOrderFree();
    CollapseIgnoresOrder(a, b, MergeAliases, ShowAlias);
  }

  // Every space of an alias is one that exists, and none has an empty id.
  predicate RealSpaces(table: seq<Row<AliasKey, Alias>>) {
    forall r :: r in table ==> r.key.space != Some("")
  }

  /**
   A collapsed alias table exists, and whichever it is, it has the summary of the original; the two
   digests that the upgrade compares are then the same lines, one per key.
   */
  lemma AliasCollapseKeepsSummary(table: seq<Row<AliasKey, Alias>>, collapsed: seq<Row<AliasKey, Alias>>,
                                  before: seq<(AliasKey, AliasSummary)>, after: seq<(AliasKey, AliasSummary)>)
    requires Lists(collapsed, Collapse(table, MergeAliases)) && RealSpaces(table)
    requires InOrder(before, Summarize(table, MergeAliases, ShowAlias), AliasColumns)
    requires InOrder(after, Summarize(collapsed, MergeAliases, ShowAlias), AliasColumns)
    ensures Summarize(collapsed, MergeAliases, ShowAlias) == Summarize(table, MergeAliases, ShowAlias)
    ensures before == after && |after| == |Keys(table)|
  {
    hide *;
    AliasMergeIsOrderFree();
    CollapseKeepsSummary(table, collapsed, MergeAliases, ShowAlias);
    SummaryKeys(table, MergeAliases, ShowAlias);
    AliasColumnsDistinguish(table);
    DigestIsUnique(before, after, Summarize(table, MergeAliases, ShowAlias), AliasColumns);
  }

  lemma AliasColumnsDistinguish(table: seq<Row<AliasKey, Alias>>)
    requires RealSpaces(table)
    ensures Distinguishes(AliasColumns, Keys(table))
  {
    forall a, b | a in Keys(table) && b in Keys(table) && AliasColumns(a) == AliasColumns(b) ensures a == b {
      assert AliasColumns(a)[0] == AliasColumns(b)[0] && AliasColumns(a)[1] == AliasColumns(b)[1]
          && AliasColumns(a)[2] == AliasColumns(b)[2];
    }
  }

  /** Every alias table has a collapsed one. */
  lemma AliasesCollapse(table: seq<Row<AliasKey, Alias>>) returns (collapsed: seq<Row<AliasKey, Alias>>)
    ensures Lists(collapsed, Collapse(table, MergeAliases))
  {
    collapsed := TableExists(Collapse(table, MergeAliases));
  }

  /* ---- Memberships: one row per person and space ---- */

  datatype MemberKey = MemberKey(person: string, space: string)
  datatype Membership = Membership(card: string, firstSeen: int, lastSeen: int)

  function MemberColumns(key: MemberKey): seq<string> {
    [key.person, key.space]
  }

  // A named card first, then the latest, then the smallest card, then the earliest.
  predicate Preferred(a: Membership, b: Membership) {
    if (a.card != "") != (b.card != "") then a.card != ""
    else if a.lastSeen != b.lastSeen then a.lastSeen > b.lastSeen
    else if a.card != b.card then AtMost(a.card, b.card)
    else a.firstSeen <= b.firstSeen
  }

  lemma PreferenceIsTotal(a: Membership, b: Membership)
    ensures Preferred(a, b) || Preferred(b, a)
    ensures Preferred(a, b) && Preferred(b, a) ==> a.card == b.card
  {
    AtMostTotal(a.card, b.card);
  }

  lemma PreferenceIsTransitive(a: Membership, b: Membership, c: Membership)
    requires Preferred(a, b) && Preferred(b, c)
    ensures Preferred(a, c)
  {
    AtMostTotal(a.card, b.card);
    if AtMost(a.card, b.card) && AtMost(b.card, c.card) {
      AtMostTransitive(a.card, b.card, c.card);
      AtMostTotal(a.card, c.card);
    }
  }

  // The row whose card survives.
  function Best(rows: seq<Membership>): Membership
    requires rows != []
  {
    if |rows| == 1 then rows[0]
    else if Preferred(rows[0], Best(rows[1..])) then rows[0] else Best(rows[1..])
  }

  function Earliest(rows: seq<Membership>): int
    requires rows != []
  {
    if |rows| == 1 then rows[0].firstSeen else Min(rows[0].firstSeen, Earliest(rows[1..]))
  }

  function Latest(rows: seq<Membership>): int
    requires rows != []
  {
    if |rows| == 1 then rows[0].lastSeen else Max(rows[0].lastSeen, Latest(rows[1..]))
  }

  function MergeMembers(rows: seq<Membership>): Membership {
    if rows == [] then Membership("", 0, 0) else Membership(Best(rows).card, Earliest(rows), Latest(rows))
  }

  function ShowMember(m: Membership): Membership {
    m
  }

  lemma {:induction false} BestOfAll(rows: seq<Membership>)
    requires rows != []
    ensures Best(rows) in rows && forall r :: r in rows ==> Preferred(Best(rows), r)
    ensures forall r :: r in rows ==> Earliest(rows) <= r.firstSeen && r.lastSeen <= Latest(rows)
    ensures exists r :: r in rows && r.firstSeen == Earliest(rows)
    ensures exists r :: r in rows && r.lastSeen == Latest(rows)
  {
    assert rows[0] in rows;
    PreferenceIsTotal(rows[0], rows[0]);
    if |rows| > 1 {
      var rest := rows[1..];
      BestOfAll(rest);
      assert rows == [rows[0]] + rest;
      PreferenceIsTotal(rows[0], Best(rest));
      forall r | r in rest ensures Preferred(Best(rows), r) {
        if Preferred(rows[0], Best(rest)) {
          PreferenceIsTransitive(rows[0], Best(rest), r);
        }
      }
    }
  }

  lemma MemberMergeIsOrderFree()
    ensures OrderFree(MergeMembers) && Unital(MergeMembers)
  {
    forall a: seq<Membership>, b: seq<Membership> | a != [] && b != [] && SameMembers(a, b)
      ensures MergeMembers(a) == MergeMembers(b)
    {
      BestOfAll(a);
      BestOfAll(b);
      PreferenceIsTotal(Best(a), Best(b));
    }
  }

  /** The collapse of memberships depends on which rows there are only. */
  lemma MemberCollapseIgnoresOrder(a: seq<Row<MemberKey, Membership>>, b: seq<Row<MemberKey, Membership>>)
    requires SameMembers(a, b)
    ensures Collapse(a, MergeMembers) == Collapse(b, MergeMembers)
    ensures Summarize(a, MergeMembers, ShowMember) == Summarize(b, MergeMembers, ShowMember)
  {
    MemberMergeIsOrderFree();
    CollapseIgnoresOrder(a, b, MergeMembers, ShowMember);
  }

  /** Any collapsed membership table has the summary of the original, and so the same digest. */
  lemma MemberCollapseKeepsSummary(table: seq<Row<MemberKey, Membership>>, collapsed: seq<Row<MemberKey, Membership>>,
                                   before: seq<(MemberKey, Membership)>, after: seq<(MemberKey, Membership)>)
    requires Lists(collapsed, Collapse(table, MergeMembers))
    requires InOrder(before, Summarize(table, MergeMembers, ShowMember), MemberColumns)
    requires InOrder(after, Summarize(collapsed, MergeMembers, ShowMember), MemberColumns)
    ensures Summarize(collapsed, MergeMembers, ShowMember) == Summarize(table, MergeMembers, ShowMember)
    ensures before == after && |after| == |Keys(table)|
  {
    hide *;
    MemberMergeIsOrderFree();
    CollapseKeepsSummary(table, collapsed, MergeMembers, ShowMember);
    SummaryKeys(table, MergeMembers, ShowMember);
    MemberColumnsDistinguish(Keys(table));
    DigestIsUnique(before, after, Summarize(table, MergeMembers, ShowMember), MemberColumns);
  }

  lemma MemberColumnsDistinguish(keys: set<MemberKey>)
    ensures Distinguishes(MemberColumns, keys)
  {
    forall a, b | a in keys && b in keys && MemberColumns(a) == MemberColumns(b) ensures a == b {
      assert MemberColumns(a)[0] == MemberColumns(b)[0] && MemberColumns(a)[1] == MemberColumns(b)[1];
    }
  }

  /** Every membership table has a collapsed one. */
  lemma MembersCollapse(table: seq<Row<MemberKey, Membership>>) returns (collapsed: seq<Row<MemberKey, Membership>>)
    ensures Lists(collapsed, Collapse(table, MergeMembers))
  {
    collapsed := TableExists(Collapse(table, MergeMembers));
  }
}
