/**
 The bounded digest of recent external events that is appended to a prompt.

 Sizes are lengths of the compact JSON text; the rendered time of an event is opaque text, and a
 missing source, plugin or type is the empty string.
 */
module Digest {
  import opened Common

  datatype Event = Event(id: int, kind: string, source: string, sourcePlugin: string, eventType: string,
                         occurredAt: string, content: string)

  datatype Item = Item(source: string, sourcePlugin: string, eventType: string, occurredAt: string, summary: string)

  const CONTENT_TRUST := "external_untrusted"

  /* ---- JSON text ---- */

  function HexDigit(n: nat): char
    requires n < 16
  {
    if n < 10 then '0' + n as char else 'a' + (n - 10) as char
  }

  function Escaped(c: char): string {
    if c == '"' then "\\\""
    else if c == '\\' then "\\\\"
    else if c == '\n' then "\\n"
    else if c == '\r' then "\\r"
    else if c == '\t' then "\\t"
    else if c as int == 8 then "\\b"
    else if c as int == 12 then "\\f"
    else if c as int < 32 then "\\u00" + [HexDigit(c as int / 16), HexDigit(c as int % 16)]
    else [c]
  }

  function EscapedText(s: string): string {
    if s == "" then "" else Escaped(s[0]) + EscapedText(s[1..])
  }

  function Quoted(s: string): string {
    "\"" + EscapedText(s) + "\""
  }

  datatype Field = Field(name: string, value: string)

  function Members(fields: seq<Field>): string {
    if fields == [] then ""
    else
      Quoted(fields[0].name) + ":" + Quoted(fields[0].value)
      + (if |fields| == 1 then "" else ",") + Members(fields[1..])
  }

  function Fields(item: Item): seq<Field> {
    [Field("source", item.source), Field("source_plugin_id", item.sourcePlugin), Field("event_type", item.eventType),
     Field("occurred_at", item.occurredAt), Field("summary", item.summary), Field("content_trust", CONTENT_TRUST)]
  }

  function Encoded(item: Item): (r: string)
    ensures r != ""
  {
    "{" + Members(Fields(item)) + "}"
  }

  function Listed(items: seq<Item>): string {
    if items == [] then ""
    else if |items| == 1 then Encoded(items[0])
    else Encoded(items[0]) + "," + Listed(items[1..])
  }

  const WRAPPER_START := "{\"id\":\"recent_external_events\",\"data\":{\"events\":["
  const WRAPPER_END := "],\"content_trust\":\"external_untrusted\"}}"

  function Metadata(items: seq<Item>): string {
    WRAPPER_START + Listed(items) + WRAPPER_END
  }

  /** What appending the digest adds to a list of items that is not empty: its text and a comma. */
  function Growth(items: seq<Item>): nat {
    if items == [] then 0 else |Metadata(items)| + 1
  }

  function Weight(items: seq<Item>): nat {
    if items == [] then 0 else |Encoded(items[0])| + Weight(items[1..])
  }

  lemma {:induction false} ListedLength(items: seq<Item>)
    ensures |Listed(items)| == if items == [] then 0 else Weight(items) + |items| - 1
  {
    if |items| == 1 {
      assert Weight(items[1..]) == 0;
    } else if items != [] {
      ListedLength(items[1..]);
    }
  }

  /** The wrapper, the items, the commas between them and one comma before. */
  lemma GrowthCounts(items: seq<Item>)
    requires items != []
    ensures Growth(items) == |WRAPPER_START| + |WRAPPER_END| + Weight(items) + |items|
  {
    ListedLength(items);
  }

  lemma {:induction false} WeightJoins(a: seq<Item>, b: seq<Item>)
    ensures Weight(a + b) == Weight(a) + Weight(b)
  {
    hide Encoded;
    if a == [] {
      assert a + b == b;
    } else {
      WeightJoins(a[1..], b);
      assert (a + b)[1..] == a[1..] + b;
    }
  }

  function Tail(items: seq<Item>, k: nat): seq<Item>
    requires k <= |items|
  {
    items[|items| - k..]
  }

  /** Every item costs something, so a longer tail is strictly larger. */
  lemma LongerTailIsLarger(items: seq<Item>, j: nat, k: nat)
    requires j < k <= |items|
    ensures Growth(Tail(items, j)) < Growth(Tail(items, k))
  {
    var short, long := Tail(items, j), Tail(items, k);
    hide Growth, Weight;
    assert long == long[..k - j] + short;
    WeightJoins(long[..k - j], short);
    GrowthCounts(long);
    if short != [] {
      GrowthCounts(short);
    } else {
      NoGrowth();
    }
  }

  lemma NoGrowth()
    ensures Growth([]) == 0 && Weight([]) == 0
  {}

  lemma {:induction false} GrowthIgnoresDirection(items: seq<Item>)
    ensures Growth(Reversed(items)) == Growth(items)
  {
    WeightIgnoresDirection(items);
    hide Growth, Weight;
    if items != [] {
      GrowthCounts(items);
      GrowthCounts(Reversed(items));
    }
  }

  lemma {:induction false} WeightIgnoresDirection(items: seq<Item>)
    ensures Weight(Reversed(items)) == Weight(items)
  {
    hide Encoded;
    if items != [] {
      WeightIgnoresDirection(items[1..]);
      WeightJoins(Reversed(items[1..]), [items[0]]);
      assert Weight([items[0]]) == |Encoded(items[0])| + Weight([]);
    }
  }

  /* ---- The digest ---- */

  predicate Eligible(e: Event, exclude: Option<int>) {
    e.kind == "external_event" && exclude != Some(e.id)
  }

  function OrElse(s: string, fallback: string): string {
    if s == "" then fallback else s
  }

  function DigestItem(e: Event, summaryMax: int): Item {
    var n := Max(0, summaryMax);
    Item(OrElse(e.source, "external"), e.sourcePlugin, OrElse(e.eventType, "event"), e.occurredAt,
         if n < |e.content| then e.content[..n] else e.content)
  }

  // The items of all eligible events, oldest first.
  function Candidates(rows: seq<Event>, exclude: Option<int>, summaryMax: int): seq<Item> {
    if rows == [] then []
    else
      (if Eligible(rows[0], exclude) then [DigestItem(rows[0], summaryMax)] else [])
      + Candidates(rows[1..], exclude, summaryMax)
  }

  // How many items the loop can collect: it looks at the limit only after it has taken one.
  function Room(limit: int): nat {
    Max(1, limit)
  }

  /** r is the longest tail of the items that has room and fits. */
  ghost predicate LongestTail(items: seq<Item>, limit: int, characterLimit: int, r: seq<Item>) {
    && |r| <= |items| && r == Tail(items, |r|)
    && |r| <= Room(limit) && (r == [] || Growth(r) <= characterLimit)
    && forall k: nat :: |r| < k <= |items| && k <= Room(limit) ==> characterLimit < Growth(Tail(items, k))
  }

  lemma LongestTailIsUnique(items: seq<Item>, limit: int, characterLimit: int, a: seq<Item>, b: seq<Item>)
    requires LongestTail(items, limit, characterLimit, a) && LongestTail(items, limit, characterLimit, b)
    ensures a == b
  {
    hide Growth;
  }

  // Once the tail of one more item overflows, so does every longer one.
  lemma StoppingIsFinal(items: seq<Item>, limit: int, characterLimit: int, n: nat)
    requires n <= |items| && n <= Room(limit) && (n == 0 || Growth(Tail(items, n)) <= characterLimit)
    requires n == |items| || n == Room(limit) || characterLimit < Growth(Tail(items, n + 1))
    ensures LongestTail(items, limit, characterLimit, Tail(items, n))
  {
    hide Growth;
    forall k: nat | n < k <= |items| && k <= Room(limit) ensures characterLimit < Growth(Tail(items, k)) {
      if n + 1 < k {
        LongerTailIsLarger(items, n + 1, k);
      }
    }
  }

  lemma {:induction false} CandidatesJoin(a: seq<Event>, b: seq<Event>, exclude: Option<int>, summaryMax: int)
    ensures Candidates(a + b, exclude, summaryMax)
         == Candidates(a, exclude, summaryMax) + Candidates(b, exclude, summaryMax)
  {
    hide Eligible, DigestItem;
    if a == [] {
      assert a + b == b;
    } else {
      assert (a + b)[1..] == a[1..] + b;
      assert Candidates(a + b, exclude, summaryMax)
          == (if Eligible(a[0], exclude) then [DigestItem(a[0], summaryMax)] else [])
             + Candidates(a[1..] + b, exclude, summaryMax);
      CandidatesJoin(a[1..], b, exclude, summaryMax);
    }
  }

  // What the loop has when it has read the rows from i on and has not stopped: every item of them.
  ghost predicate Gathered(items: seq<Item>, tail: seq<Item>, selected: seq<Item>, limit: int, characterLimit: int) {
    && |selected| <= |items| && Reversed(selected) == tail == Tail(items, |selected|)
    && |selected| < Room(limit) && (selected == [] || Growth(selected) <= characterLimit)
  }

  // One more item: the loop stops before it, stops with it, or goes on.
  lemma GatherStep(items: seq<Item>, tail: seq<Item>, selected: seq<Item>, item: Item, limit: int, characterLimit: int)
    requires Gathered(items, tail, selected, limit, characterLimit)
    requires |tail| < |items| && Tail(items, |tail| + 1) == [item] + tail
    ensures var more := selected + [item];
      if Growth(more) > characterLimit then LongestTail(items, limit, characterLimit, Reversed(selected))
      else if |more| >= limit then LongestTail(items, limit, characterLimit, Reversed(more))
      else Gathered(items, [item] + tail, more, limit, characterLimit)
  {
    var more := selected + [item];
    ReversedAppend(selected, item);
    GrowthIgnoresDirection(selected);
    GrowthIgnoresDirection(more);
    hide Growth, Reversed, Tail, LongestTail;
    if Growth(more) > characterLimit || |selected| + 1 == Room(limit) || |selected| + 1 >= limit {
      if Growth(more) > characterLimit {
        StoppingIsFinal(items, limit, characterLimit, |selected|);
      } else {
        StoppingIsFinal(items, limit, characterLimit, |more|);
      }
    }
  }

  lemma GatheredAll(items: seq<Item>, selected: seq<Item>, limit: int, characterLimit: int)
    requires Gathered(items, items, selected, limit, characterLimit)
    ensures LongestTail(items, limit, characterLimit, Reversed(selected))
  {
    GrowthIgnoresDirection(selected);
    assert Tail(items, |items|) == items;
    hide Growth, Reversed;
    StoppingIsFinal(items, limit, characterLimit, |selected|);
  }

  lemma NothingGathered(items: seq<Item>, limit: int, characterLimit: int)
    ensures Gathered(items, [], [], limit, characterLimit)
  {}

  /**
   Newest first, stopping at the first item that overflows, is the best choice: the result is the
   longest tail of the eligible items that has room and fits.
   */
  method RecentDigest(rows: seq<Event>, exclude: Option<int>, limit: int, characterLimit: int, summaryMax: int)
    returns (digest: seq<Item>)
    ensures LongestTail(Candidates(rows, exclude, summaryMax), limit, characterLimit, digest)
  {
    hide *;
    ghost var items := Candidates(rows, exclude, summaryMax);
    var selected: seq<Item> := [];
    var i := |rows|;
    NothingGathered(items, limit, characterLimit);
    NoCandidates(rows, exclude, summaryMax);
    while i > 0
      invariant 0 <= i <= |rows|
      invariant Gathered(items, Candidates(rows[i..], exclude, summaryMax), selected, limit, characterLimit)
    {
      i := i - 1;
      CandidatesStep(rows, i, exclude, summaryMax);
      if Eligible(rows[i], exclude) {
        var item := DigestItem(rows[i], summaryMax);
        GatherStep(items, Candidates(rows[i + 1..], exclude, summaryMax), selected, item, limit, characterLimit);
        var candidate := selected + [item];
        if Growth(candidate) > characterLimit {
          return Reversed(selected);
        }
        selected := candidate;
        if |selected| >= limit {
          return Reversed(selected);
        }
      }
    }
    assert rows[0..] == rows;
    GatheredAll(items, selected, limit, characterLimit);
    return Reversed(selected);
  }

  lemma NoCandidates(rows: seq<Event>, exclude: Option<int>, summaryMax: int)
    ensures Candidates(rows[|rows|..], exclude, summaryMax) == []
  {}

  lemma CandidatesStep(rows: seq<Event>, i: nat, exclude: Option<int>, summaryMax: int)
    requires i < |rows|
    ensures
      var items := Candidates(rows, exclude, summaryMax);
      var tail := Candidates(rows[i + 1..], exclude, summaryMax);
      if Eligible(rows[i], exclude) then
        && |tail| < |items| && Tail(items, |tail| + 1) == [DigestItem(rows[i], summaryMax)] + tail
        && Candidates(rows[i..], exclude, summaryMax) == [DigestItem(rows[i], summaryMax)] + tail
      else
        Candidates(rows[i..], exclude, summaryMax) == tail
  {
    assert rows[i..][1..] == rows[i + 1..];
    assert rows == rows[..i] + rows[i..];
    hide Eligible, DigestItem;
    CandidatesJoin(rows[..i], rows[i..], exclude, summaryMax);
    assert Eligible(rows[i], exclude) ==>
      Candidates(rows[i..], exclude, summaryMax)
      == [DigestItem(rows[i], summaryMax)] + Candidates(rows[i + 1..], exclude, summaryMax);
    hide Candidates;
  }

  lemma {:induction false} ReversedAppend(items: seq<Item>, item: Item)
    ensures Reversed(items + [item]) == [item] + Reversed(items)
  {
    if items == [] {
      assert [item][1..] == [];
    } else {
      ReversedAppend(items[1..], item);
      assert (items + [item])[1..] == items[1..] + [item];
    }
  }

  /**
   The digest keeps to its limit exactly when the limit is positive, or is zero and no item at all
   fits: the loop looks at the limit only after taking an item.
   */
  lemma LimitIsKeptWhen(items: seq<Item>, limit: int, characterLimit: int, digest: seq<Item>)
    requires LongestTail(items, limit, characterLimit, digest)
    ensures |digest| <= limit <==>
            limit >= 1 || (limit == 0 && (items == [] || characterLimit < Growth([items[|items| - 1]])))
  {
    hide Growth;
    if items != [] {
      assert Tail(items, 1) == [items[|items| - 1]];
    }
  }

  /** Under the limit 0 a single item that just fits is still taken. */
  lemma ZeroLimitStillTakesOne(item: Item)
    ensures LongestTail([item], 0, Growth([item]), [item]) && |[item]| > 0
  {
    hide Growth;
    assert Tail([item], 1) == [item];
  }
}
