/**
 The canonical form of a schema statement: which edits of the text it ignores, and when the
 normalization below it is idempotent.
 */
module SchemaCanon {
  import opened Common
  import opened SchemaText

  /* ---- The canonical form ---- */

  // Position of the first or last c, or -1.
  function Find(s: string, c: char): (i: int)
    ensures -1 <= i < |s|
    ensures i >= 0 ==> s[i] == c && c !in s[..i]
    ensures i < 0 ==> c !in s
  {
    if s == "" then -1
    else if s[0] == c then 0
    else
      var i := Find(s[1..], c);
      assert i >= 0 ==> s[..i + 1] == [s[0]] + s[1..][..i];
      if i < 0 then -1 else i + 1
  }

  function FindLast(s: string, c: char): (i: int)
    ensures -1 <= i < |s|
    ensures i >= 0 ==> s[i] == c && c !in s[i + 1..]
    ensures i < 0 ==> c !in s
  {
    if s == "" then -1
    else if s[|s| - 1] == c then |s| - 1
    else
      var i := FindLast(s[..|s| - 1], c);
      assert i >= 0 ==> s[i + 1..] == s[..|s| - 1][i + 1..] + [s[|s| - 1]];
      i
  }

  function Insert(x: string, sorted: seq<string>): seq<string> {
    if sorted == [] || AtMost(x, sorted[0]) then [x] + sorted else [sorted[0]] + Insert(x, sorted[1..])
  }

  function Sorted(xs: seq<string>): seq<string> {
    if xs == [] then [] else Insert(xs[0], Sorted(xs[1..]))
  }

  const VIRTUAL: string := "createvirtualtable"

  function Canonical(isTable: bool, columnCount: nat, statement: string): string {
    var normalized := Norm(statement, Bare);
    var opening, closing := Find(statement, '('), FindLast(statement, ')');
    if !isTable || VIRTUAL <= normalized || opening < 0 || closing <= opening then normalized
    else
      var components := NormEach(Split(statement[opening + 1..closing]));
      if |components| < columnCount then normalized
      else Rebuilt(statement[..opening], components, columnCount, statement[closing + 1..])
  }

  // The columns in their order, then the constraints sorted.
  function Rebuilt(prefix: string, components: seq<string>, columnCount: nat, suffix: string): string
    requires columnCount <= |components|
  {
    Norm(prefix, Bare) + "("
    + JoinComma(components[..columnCount] + Sorted(components[columnCount..])) + ")"
    + Norm(suffix, Bare)
  }

  /* ---- Sorting depends only on what is sorted ---- */

  predicate Ordered(xs: seq<string>) {
    forall i, j :: 0 <= i < j < |xs| ==> AtMost(xs[i], xs[j])
  }

  lemma {:induction false} InsertPermutes(x: string, sorted: seq<string>)
    ensures multiset(Insert(x, sorted)) == multiset{x} + multiset(sorted)
  {
    if sorted != [] && !AtMost(x, sorted[0]) {
      hide AtMost;
      InsertPermutes(x, sorted[1..]);
      assert sorted == [sorted[0]] + sorted[1..];
    }
  }

  lemma {:induction false} InsertOrders(x: string, sorted: seq<string>)
    requires Ordered(sorted)
    ensures Ordered(Insert(x, sorted)) && multiset(Insert(x, sorted)) == multiset{x} + multiset(sorted)
  {
    hide AtMost;
    InsertPermutes(x, sorted);
    if sorted != [] && !AtMost(x, sorted[0]) {
      var rest := Insert(x, sorted[1..]);
      InsertOrders(x, sorted[1..]);
      AtMostTotal(x, sorted[0]);
      forall j | 0 <= j < |rest| ensures AtMost(sorted[0], rest[j]) {
        assert rest[j] in multiset(rest);
        assert rest[j] == x || rest[j] in sorted[1..];
      }
    } else if sorted != [] {
      forall j | 0 <= j < |sorted| ensures AtMost(x, sorted[j]) {
        if j > 0 {
          AtMostTransitive(x, sorted[0], sorted[j]);
        }
      }
    }
  }

  lemma {:induction false} SortedOrders(xs: seq<string>)
    ensures Ordered(Sorted(xs)) && multiset(Sorted(xs)) == multiset(xs)
  {
    if xs != [] {
      SortedOrders(xs[1..]);
      InsertOrders(xs[0], Sorted(xs[1..]));
      assert xs == [xs[0]] + xs[1..];
    }
  }

  lemma {:induction false} OrderedIsUnique(a: seq<string>, b: seq<string>)
    requires Ordered(a) && Ordered(b) && multiset(a) == multiset(b)
    ensures a == b
  {
    hide AtMost;
    if a == [] || b == [] {
      assert |a| == |multiset(a)| && |b| == |multiset(b)|;
    } else {
      SameHead(a, b);
      assert a == [a[0]] + a[1..] && b == [b[0]] + b[1..];
      assert multiset(a[1..]) == multiset(a) - multiset{a[0]};
      hide Ordered;
      assert Ordered(a[1..]) && Ordered(b[1..]) by { TailIsOrdered(a); TailIsOrdered(b); }
      OrderedIsUnique(a[1..], b[1..]);
    }
  }

  lemma TailIsOrdered(a: seq<string>)
    requires Ordered(a) && a != []
    ensures Ordered(a[1..])
  {
    hide AtMost;
  }

  lemma SameHead(a: seq<string>, b: seq<string>)
    requires Ordered(a) && Ordered(b) && multiset(a) == multiset(b) && a != [] && b != []
    ensures a[0] == b[0]
  {
    assert a[0] in multiset(b) && b[0] in multiset(a);
    hide Ordered, AtMost;
    HeadIsLeast(a, b[0]);
    HeadIsLeast(b, a[0]);
    AtMostTotal(a[0], b[0]);
  }

  lemma HeadIsLeast(xs: seq<string>, x: string)
    requires Ordered(xs) && x in xs
    ensures AtMost(xs[0], x)
  {
    hide AtMost;
    AtMostTotal(x, x);
  }

  lemma SortedIgnoresOrder(a: seq<string>, b: seq<string>)
    requires multiset(a) == multiset(b)
    ensures Sorted(a) == Sorted(b)
  {
    SortedOrders(a);
    SortedOrders(b);
    OrderedIsUnique(Sorted(a), Sorted(b));
  }

  /* ---- Text that differs only in layout ---- */

  // What a reader of the SQL sees: punctuation outside quotes, and every other character that matters.
  datatype Mark = Structure(c: char) | Text(c: char)

  function Marks(q: Mode, c: char): seq<Mark> {
    if q == Bare && (c == ',' || c == '(' || c == ')') then [Structure(c)]
    else if Emit(q, c) == "" then [] else [Text(Emit(q, c)[0])]
  }

  function Skeleton(s: string, q: Mode): seq<Mark> {
    if s == "" then [] else Marks(q, s[0]) + Skeleton(s[1..], Next(q, s[0]))
  }

  /** Same punctuation, same literals, same text but for case, white space and identifier quotes. */
  predicate SameText(a: string, b: string) {
    Skeleton(a, Bare) == Skeleton(b, Bare)
  }

  lemma {:induction false} SkeletonJoins(a: string, b: string, q: Mode)
    ensures Skeleton(a + b, q) == Skeleton(a, q) + Skeleton(b, EndMode(a, q))
  {
    if a == "" {
      assert a + b == b;
    } else {
      UnfoldSkeleton(a, q);
      UnfoldSkeleton(a + b, q);
      hide Marks, Next, Skeleton, EndMode;
      SkeletonJoins(a[1..], b, Next(q, a[0]));
      assert (a + b)[1..] == a[1..] + b;
      Regroup(Marks(q, a[0]), Skeleton(a[1..], Next(q, a[0])), Skeleton(b, EndMode(a, q)));
    }
  }

  lemma UnfoldSkeleton(s: string, q: Mode)
    requires s != ""
    ensures Skeleton(s, q) == Marks(q, s[0]) + Skeleton(s[1..], Next(q, s[0]))
    ensures EndMode(s, q) == EndMode(s[1..], Next(q, s[0]))
    ensures Norm(s, q) == Emit(q, s[0]) + Norm(s[1..], Next(q, s[0]))
  {
    hide Marks, Next, Emit;
  }

  lemma Regroup<T>(a: seq<T>, b: seq<T>, c: seq<T>)
    ensures a + (b + c) == (a + b) + c
  {}

  // An edit that leaves the skeleton and the mode of the edited piece alone leaves the whole alone.
  lemma EditInContext(a: string, x: string, y: string, b: string)
    requires Skeleton(x, EndMode(a, Bare)) == Skeleton(y, EndMode(a, Bare))
    requires EndMode(x, EndMode(a, Bare)) == EndMode(y, EndMode(a, Bare))
    ensures SameText(a + x + b, a + y + b)
  {
    hide Skeleton, EndMode;
    NormJoins(a, x, Bare);
    NormJoins(a, y, Bare);
    SkeletonJoins(a + x, b, Bare);
    SkeletonJoins(a + y, b, Bare);
    SkeletonJoins(a, x, Bare);
    SkeletonJoins(a, y, Bare);
  }

  /** White space outside string literals can be added or removed. */
  lemma SpaceIsLayout(a: string, c: char, b: string)
    requires EndMode(a, Bare) != Literal && IsSpace(c)
    ensures SameText(a + [c] + b, a + "" + b)
  {
    assert [c][1..] == "";
    EditInContext(a, [c], "", b);
  }

  /** The case of a letter outside string literals does not matter. */
  lemma CaseIsLayout(a: string, c: char, d: char, b: string)
    requires EndMode(a, Bare) != Literal && Lower(c) == Lower(d)
    ensures SameText(a + [c] + b, a + [d] + b)
  {
    assert [c][1..] == "" && [d][1..] == "";
    EditInContext(a, [c], [d], b);
  }

  // A name free of quote characters and of the punctuation the splitter looks at.
  predicate PlainName(name: string) {
    forall i :: 0 <= i < |name| ==>
      !Opens(name[i]) && name[i] != ']' && name[i] != ',' && name[i] != '(' && name[i] != ')'
  }

  function Quoted(name: string, q: Mode): string
    requires q != Literal
  {
    match q
    case Bare => name
    case Double => "\"" + name + "\""
    case Back => "`" + name + "`"
    case Bracket => "[" + name + "]"
  }

  // A name that can be written in either way: the closing quote of neither occurs in it.
  predicate Writable(name: string, q: Mode, r: Mode)
    requires q != Literal && r != Literal
  {
    if q == Bare || r == Bare then PlainName(name) else Closer(q) !in name && Closer(r) !in name
  }

  lemma {:induction false} NameReads(name: string, q: Mode, r: Mode)
    requires q != Literal && r != Literal && Writable(name, q, r)
    ensures EndMode(name, q) == q && Skeleton(name, q) == Skeleton(name, r)
  {
    if name != "" {
      NameReads(name[1..], q, r);
      NameReads(name[1..], r, q);
    }
  }

  lemma Wrapper(q: Mode, open: string, close: string)
    requires q != Bare && q != Literal && close == [Closer(q)]
    requires open == (if q == Double then "\"" else if q == Back then "`" else "[")
    ensures EndMode(open, Bare) == q && Skeleton(open, Bare) == []
    ensures EndMode(close, q) == Bare && Skeleton(close, q) == []
  {
    assert open[1..] == "" && close[1..] == "";
  }

  lemma QuotedReads(name: string, q: Mode, r: Mode)
    requires q != Literal && r != Literal && Writable(name, q, r)
    ensures EndMode(Quoted(name, q), Bare) == Bare && Skeleton(Quoted(name, q), Bare) == Skeleton(name, r)
  {
    NameReads(name, q, r);
    if q != Bare {
      var open := if q == Double then "\"" else if q == Back then "`" else "[";
      var close := [Closer(q)];
      assert open[1..] == "" && close[1..] == "";
      assert Quoted(name, q) == open + name + close;
      Wrapper(q, open, close);
      hide Marks, Next, Emit, Skeleton, EndMode, PlainName, Opened;
      NormJoins(open, name, Bare);
      SkeletonJoins(open, name, Bare);
      NormJoins(open + name, close, Bare);
      SkeletonJoins(open + name, close, Bare);
    }
  }

  /** An identifier can change its quotes, and a plain one can lose them. */
  lemma QuotingIsLayout(a: string, name: string, q: Mode, r: Mode, b: string)
    requires EndMode(a, Bare) == Bare && q != Literal && r != Literal && Writable(name, q, r)
    ensures SameText(a + Quoted(name, q) + b, a + Quoted(name, r) + b)
  {
    QuotedReads(name, q, r);
    QuotedReads(name, r, r);
    EditInContext(a, Quoted(name, q), Quoted(name, r), b);
  }

  /** Inside a string literal nothing is layout: another character gives another normal form. */
  lemma LiteralsAreKept(a: string, c: char, d: char, b: string)
    requires EndMode(a, Bare) == Literal && c != '\'' && d != '\'' && c != d
    ensures Norm(a + [c] + b, Bare) != Norm(a + [d] + b, Bare)
  {
    forall x | x == c || x == d
      ensures Norm(a + [x] + b, Bare) == Norm(a, Bare) + [x] + Norm(b, Literal)
    {
      NormJoins(a, [x], Bare);
      NormJoins(a + [x], b, Bare);
      Single(x, Literal);
    }
    var n := |Norm(a, Bare)|;
    assert Norm(a + [c] + b, Bare)[n] == c && Norm(a + [d] + b, Bare)[n] == d;
  }

  /* ---- The normalized components depend on the skeleton only ---- */

  function Erase(marks: seq<Mark>): string {
    if marks == [] then "" else [marks[0].c] + Erase(marks[1..])
  }

  // Splitting done on the skeleton instead of the text.
  function SplitMarks(marks: seq<Mark>, depth: int, current: string): seq<string> {
    if marks == [] then [current]
    else
      var m := marks[0];
      if m == Structure(',') && depth == 0 then [current] + SplitMarks(marks[1..], 0, "")
      else
        SplitMarks(marks[1..], if m.Structure? then Depth(Bare, m.c, depth) else depth, current + [m.c])
  }

  lemma {:induction false} NormErases(s: string, q: Mode)
    ensures Norm(s, q) == Erase(Skeleton(s, q))
  {
    if s != "" {
      NormErases(s[1..], Next(q, s[0]));
      var head, rest := Marks(q, s[0]), Skeleton(s[1..], Next(q, s[0]));
      if head == [] {
        assert head + rest == rest;
      } else {
        assert (head + rest)[1..] == rest;
      }
    }
  }

  lemma {:induction false} SplitErases(s: string, q: Mode, depth: int, current: string)
    requires EndMode(current, Bare) == q
    ensures NormEach(SplitFrom(s, q, depth, current)) == SplitMarks(Skeleton(s, q), depth, Norm(current, Bare))
    decreases |s|
  {
    if s == "" {
      assert NormEach([current]) == [Norm(current, Bare)];
    } else if Splits(q, s[0], depth) {
      SplitErases(s[1..], Bare, 0, "");
      MarkSplit(s, q, depth, current);
    } else {
      MarkStep(s, q, depth, Norm(current, Bare));
      assert SplitFrom(s, q, depth, current)
          == SplitFrom(s[1..], Next(q, s[0]), Depth(q, s[0], depth), current + [s[0]]);
      hide SplitFrom, SplitMarks, Skeleton, NormEach;
      NormJoins(current, [s[0]], Bare);
      Single(s[0], q);
      SplitErases(s[1..], Next(q, s[0]), Depth(q, s[0], depth), current + [s[0]]);
    }
  }

  lemma MarkSplit(s: string, q: Mode, depth: int, current: string)
    requires s != "" && Splits(q, s[0], depth)
    ensures NormEach(SplitFrom(s, q, depth, current))
         == [Norm(current, Bare)] + NormEach(SplitFrom(s[1..], Bare, 0, ""))
    ensures SplitMarks(Skeleton(s, q), depth, Norm(current, Bare))
         == [Norm(current, Bare)] + SplitMarks(Skeleton(s[1..], Bare), 0, "")
  {
    var rest := SplitFrom(s[1..], Bare, 0, "");
    assert NormEach([current] + rest) == [Norm(current, Bare)] + NormEach(rest);
    assert Skeleton(s, q)[1..] == Skeleton(s[1..], Bare);
  }

  lemma MarkStep(s: string, q: Mode, depth: int, current: string)
    requires s != "" && !Splits(q, s[0], depth)
    ensures SplitMarks(Skeleton(s, q), depth, current)
         == SplitMarks(Skeleton(s[1..], Next(q, s[0])), Depth(q, s[0], depth), current + Emit(q, s[0]))
  {
    var head, rest := Marks(q, s[0]), Skeleton(s[1..], Next(q, s[0]));
    if head == [] {
      assert head + rest == rest && current + "" == current;
    } else {
      assert (head + rest)[0] == head[0] && (head + rest)[1..] == rest;
    }
  }

  lemma SameTextSameComponents(a: string, b: string)
    requires SameText(a, b)
    ensures NormEach(Split(a)) == NormEach(Split(b)) && Norm(a, Bare) == Norm(b, Bare)
  {
    SplitErases(a, Bare, 0, "");
    SplitErases(b, Bare, 0, "");
    NormErases(a, Bare);
    NormErases(b, Bare);
  }

  /* ---- What the canonical form ignores ---- */

  // A table statement whose first ( opens the body and whose last ) closes it.
  function Statement(prefix: string, body: string, suffix: string): string {
    prefix + "(" + body + ")" + suffix
  }

  predicate Framed(prefix: string, suffix: string) {
    '(' !in prefix && ')' !in suffix
  }

  lemma StatementParses(prefix: string, body: string, suffix: string)
    requires Framed(prefix, suffix)
    ensures
      var s := Statement(prefix, body, suffix);
      var opening, closing := Find(s, '('), FindLast(s, ')');
      && opening == |prefix| && closing == |prefix| + 1 + |body|
      && s[..opening] == prefix && s[opening + 1..closing] == body && s[closing + 1..] == suffix
  {
    var s := Statement(prefix, body, suffix);
    var i, j := |prefix|, |prefix| + 1 + |body|;
    Pieces(prefix, body, suffix);
    hide Statement, Find, FindLast;
    FindIs(s, '(', i);
    FindLastIs(s, ')', j);
  }

  lemma Pieces(prefix: string, body: string, suffix: string)
    ensures
      var s, i, j := Statement(prefix, body, suffix), |prefix|, |prefix| + 1 + |body|;
      && j < |s| && s[i] == '(' && s[j] == ')'
      && s[..i] == prefix && s[i + 1..j] == body && s[j + 1..] == suffix
  {}

  lemma FindIs(s: string, c: char, i: nat)
    requires i < |s| && s[i] == c && c !in s[..i]
    ensures Find(s, c) == i
  {
    var r := Find(s, c);
    assert forall k :: 0 <= k < i ==> s[..i][k] == s[k];
    assert forall k :: 0 <= k < r ==> s[..r][k] == s[k];
  }

  lemma FindLastIs(s: string, c: char, i: nat)
    requires i < |s| && s[i] == c && c !in s[i + 1..]
    ensures FindLast(s, c) == i
  {
    var r := FindLast(s, c);
    assert forall k :: i < k < |s| ==> s[i + 1..][k - i - 1] == s[k];
    assert r >= 0 ==> forall k :: r < k < |s| ==> s[r + 1..][k - r - 1] == s[k];
  }

  // A prefix that lacks the character where n ends does not reach past n.
  lemma PrefixStops(v: string, n: string, m: string)
    requires m != "" && m[0] !in v
    ensures v <= n + m <==> v <= n
  {
    assert (n + m)[|n|] == m[0];
    if v <= n + m {
      assert forall k :: 0 <= k < |v| ==> v[k] == (n + m)[k] && v[k] != m[0];
    }
  }

  // Whether a statement is a virtual table shows before its first parenthesis.
  lemma VirtualByPrefix(prefix: string, body: string, suffix: string)
    requires Framed(prefix, suffix)
    ensures VIRTUAL <= Norm(Statement(prefix, body, suffix), Bare) <==> VIRTUAL <= Norm(prefix, Bare)
  {
    var tail := "(" + body + ")" + suffix;
    assert Statement(prefix, body, suffix) == prefix + tail;
    assert tail[0] == '(';
    var m := Norm(tail, EndMode(prefix, Bare));
    assert m[0] == '(';
    hide Norm, EndMode;
    NormJoins(prefix, tail, Bare);
    PrefixStops(VIRTUAL, Norm(prefix, Bare), m);
  }

  /**
   Two table statements have the same canonical form when their texts around the body agree up to
   layout, their columns agree in order, and their trailing constraints agree in any order.
   */
  lemma CanonicalIgnoresLayoutAndOrder(
      prefix: string, body: string, suffix: string, prefix': string, body': string, suffix': string, columnCount: nat)
    requires Framed(prefix, suffix) && Framed(prefix', suffix')
    requires SameText(prefix, prefix') && SameText(suffix, suffix')
    requires !(VIRTUAL <= Norm(prefix, Bare))
    requires
      var a, b := NormEach(Split(body)), NormEach(Split(body'));
      && columnCount <= |a| && columnCount <= |b|
      && a[..columnCount] == b[..columnCount]
      && multiset(a[columnCount..]) == multiset(b[columnCount..])
    ensures Canonical(true, columnCount, Statement(prefix, body, suffix))
         == Canonical(true, columnCount, Statement(prefix', body', suffix'))
  {
    hide Norm, Split, NormEach, SameText, Statement, Framed, Canonical;
    CanonicalOfStatement(prefix, body, suffix, columnCount);
    VirtualByPrefix(prefix, body, suffix);
    SameTextSameComponents(prefix, prefix');
    SameTextSameComponents(suffix, suffix');
    CanonicalOfStatement(prefix', body', suffix', columnCount);
    SortedIgnoresOrder(NormEach(Split(body))[columnCount..], NormEach(Split(body'))[columnCount..]);
  }

  lemma CanonicalOfStatement(prefix: string, body: string, suffix: string, columnCount: nat)
    requires Framed(prefix, suffix) && !(VIRTUAL <= Norm(prefix, Bare))
    ensures
      var s, components := Statement(prefix, body, suffix), NormEach(Split(body));
      Canonical(true, columnCount, s) ==
        if |components| < columnCount then Norm(s, Bare) else Rebuilt(prefix, components, columnCount, suffix)
  {
    hide Norm, Split, NormEach, Find, FindLast, Statement, Framed, Rebuilt;
    StatementParses(prefix, body, suffix);
    VirtualByPrefix(prefix, body, suffix);
  }

  /** Reordering the constraints written after the columns does not change the canonical form. */
  lemma ConstraintOrderIsIgnored(
      prefix: string, columns: seq<string>, constraints: seq<string>, reordered: seq<string>, suffix: string)
    requires Framed(prefix, suffix) && !(VIRTUAL <= Norm(prefix, Bare))
    requires columns != [] && multiset(constraints) == multiset(reordered)
    requires forall part :: part in columns + constraints ==> Closed(part)
    ensures Canonical(true, |columns|, Statement(prefix, JoinComma(columns + constraints), suffix))
         == Canonical(true, |columns|, Statement(prefix, JoinComma(columns + reordered), suffix))
  {
    hide Norm, Whole, Canonical, Statement, EndMode, Split, Closed, SameText, JoinComma, NormEach;
    var a, b := columns + constraints, columns + reordered;
    forall part | part in reordered ensures Closed(part) {
      assert part in multiset(constraints);
      assert part in a;
    }
    ClosedIsWhole(a[|a| - 1]);
    ClosedIsWhole(b[|b| - 1]);
    JoinThenSplit(a);
    JoinThenSplit(b);
    NormEachPermutes(constraints, reordered);
    NormEachCuts(columns, constraints);
    NormEachCuts(columns, reordered);
    SameTextRefl(prefix);
    SameTextRefl(suffix);
    CanonicalIgnoresLayoutAndOrder(prefix, JoinComma(a), suffix, prefix, JoinComma(b), suffix, |columns|);
  }

  lemma NormEachCuts(a: seq<string>, b: seq<string>)
    ensures NormEach(a + b)[..|a|] == NormEach(a) && NormEach(a + b)[|a|..] == NormEach(b)
  {}

  lemma ClosedIsWhole(part: string)
    ensures Closed(part) ==> Whole(part, Bare, 0)
  {}

  lemma SameTextRefl(s: string)
    ensures SameText(s, s)
  {}

  lemma {:induction false} NormEachPermutes(a: seq<string>, b: seq<string>)
    requires multiset(a) == multiset(b)
    ensures multiset(NormEach(a)) == multiset(NormEach(b))
  {
    hide NormEach, Norm;
    if a == [] {
      assert |multiset(b)| == 0;
      assert b == [];
    } else {
      assert a[0] in multiset(b);
      var k :| 0 <= k < |b| && b[k] == a[0];
      TakeOut(a, 0);
      TakeOut(b, k);
      hide Without;
      NormEachPermutes(Without(a, 0), Without(b, k));
    }
  }

  function Without(xs: seq<string>, k: nat): (r: seq<string>)
    requires k < |xs|
    ensures |r| < |xs|
  {
    xs[..k] + xs[k + 1..]
  }

  lemma TakeOut(xs: seq<string>, k: nat)
    requires k < |xs|
    ensures multiset(Without(xs, k)) == multiset(xs) - multiset{xs[k]}
    ensures multiset(NormEach(xs)) == multiset(NormEach(Without(xs, k))) + multiset{Norm(xs[k], Bare)}
  {
    hide Norm;
    var l, r := xs[..k], xs[k + 1..];
    assert xs == l + [xs[k]] + r;
    assert NormEach(l + r) == NormEach(l) + NormEach(r);
    assert NormEach(xs) == NormEach(l) + [Norm(xs[k], Bare)] + NormEach(r);
  }

  /* ---- Idempotence ---- */

  const MARKS: set<char> := {'"', '`', '['}

  // What a second pass that stands in mode r leaves as it is.
  predicate Kept(r: Mode, c: char) {
    r == Literal || (c !in MARKS && !IsSpace(c) && Lower(c) == c)
  }

  // The second pass is inside a literal after an odd number of kept apostrophes.
  function Flip(r: Mode, c: char): Mode {
    if c != '\'' then r else if r == Literal then Bare else Literal
  }

  /**
   Every character that the first pass keeps, from mode q on, stands where the second pass, in mode r,
   keeps it too: an opening mark, white space or a capital only after an odd number of apostrophes.
   */
  predicate Carried(s: string, q: Mode, r: Mode) {
    s == "" ||
    var e, rest := Emit(q, s[0]), s[1..];
    if e == "" then Carried(rest, Next(q, s[0]), r)
    else Kept(r, e[0]) && Carried(rest, Next(q, s[0]), Flip(r, e[0]))
  }

  lemma KeptCharacter(r: Mode, c: char)
    requires r == Bare || r == Literal
    ensures Kept(r, c) ==> Emit(r, c) == [c] && Next(r, c) == Flip(r, c)
    ensures !Kept(r, c) ==> Emit(r, c) == "" || Emit(r, c)[0] != c
  {}

  lemma {:induction false} NormNeverGrows(s: string, q: Mode)
    ensures |Norm(s, q)| <= |s|
  {
    if s != "" {
      NormNeverGrows(s[1..], Next(q, s[0]));
    }
  }

  // A kept character in front: the second pass keeps the whole just when it keeps this and the rest.
  lemma SecondPassStep(c: char, rest: string, r: Mode)
    requires r == Bare || r == Literal
    ensures Norm([c] + rest, r) == [c] + rest <==> Kept(r, c) && Norm(rest, Flip(r, c)) == rest
  {
    var all, tail := [c] + rest, Norm(rest, Next(r, c));
    assert all[0] == c && all[1..] == rest;
    assert Norm(all, r) == Emit(r, c) + tail;
    KeptCharacter(r, c);
    NormNeverGrows(rest, Next(r, c));
    hide Norm, Next, Kept, Flip;
    if Emit(r, c) == [c] {
      assert ([c] + tail)[1..] == tail;
    } else if Emit(r, c) == "" {
      assert Emit(r, c) + tail == tail;
    } else {
      assert (Emit(r, c) + tail)[0] != c;
    }
  }

  lemma {:induction false} CarriedExactly(s: string, q: Mode, r: Mode)
    requires r == Bare || r == Literal
    ensures Norm(Norm(s, q), r) == Norm(s, q) <==> Carried(s, q, r)
  {
    if s != "" {
      var e, rest := Emit(q, s[0]), Norm(s[1..], Next(q, s[0]));
      if e == "" {
        CarriedExactly(s[1..], Next(q, s[0]), r);
        assert Norm(s, q) == rest;
      } else {
        CarriedExactly(s[1..], Next(q, s[0]), Flip(r, e[0]));
        SecondPassStep(e[0], rest, r);
        assert Norm(s, q) == [e[0]] + rest;
      }
    }
  }

  /** For every string: normalizing twice is normalizing once exactly when all that is kept is carried. */
  lemma IdempotentExactly(statement: string)
    ensures Norm(Norm(statement, Bare), Bare) == Norm(statement, Bare) <==> Carried(statement, Bare, Bare)
  {
    CarriedExactly(statement, Bare, Bare);
  }

  // A character inside a quoted identifier.
  predicate NameCharacter(q: Mode, c: char) {
    q != Bare && q != Literal && c != Closer(q)
  }

  // No character kept from a quoted identifier is one of those in bad.
  predicate NamesAvoid(s: string, q: Mode, bad: set<char>) {
    s == "" || (
      && (NameCharacter(q, s[0]) ==> s[0] !in bad)
      && NamesAvoid(s[1..], Next(q, s[0]), bad))
  }

  // Without apostrophes in names the second pass is inside a literal just when the first is.
  function Second(q: Mode): Mode {
    if q == Literal then Literal else Bare
  }

  lemma CarriedCharacter(q: Mode, c: char)
    requires NameCharacter(q, c) ==> c != '\''
    ensures var e := Emit(q, c);
      if e == "" then Second(Next(q, c)) == Second(q)
      else
        && Second(Next(q, c)) == Flip(Second(q), e[0])
        && (Kept(Second(q), e[0]) <==> !NameCharacter(q, c) || c !in MARKS)
    ensures Emit(q, c) == "" ==> !NameCharacter(q, c) || c !in MARKS
  {}

  lemma {:induction false} CarriedByNames(s: string, q: Mode)
    requires NamesAvoid(s, q, {'\''})
    ensures Carried(s, q, Second(q)) <==> NamesAvoid(s, q, MARKS)
  {
    if s != "" {
      CarriedCharacter(q, s[0]);
      CarriedByNames(s[1..], Next(q, s[0]));
      hide Emit, Next, Kept, Flip, Second, NameCharacter;
    }
  }

  /**
   In particular: where no quoted identifier holds an apostrophe, exactly when no quoted identifier
   holds an opening ", ` or [ either. Fused literals do no harm.
   */
  lemma IdempotentWhen(statement: string)
    requires NamesAvoid(statement, Bare, {'\''})
    ensures Norm(Norm(statement, Bare), Bare) == Norm(statement, Bare) <==> NamesAvoid(statement, Bare, MARKS)
  {
    IdempotentExactly(statement);
    CarriedByNames(statement, Bare);
  }

  /** An apostrophe inside a quoted identifier can break idempotence on its own. */
  lemma ApostropheBreaksIdempotence()
    ensures var s := "\"'\"'X'";
      NamesAvoid(s, Bare, MARKS) && Norm(Norm(s, Bare), Bare) != Norm(s, Bare)
  {
    var s := "\"'\"'X'";
    assert s[1..] == "'\"'X'" && s[1..][1..] == "\"'X'" && s[1..][1..][1..] == "'X'";
    assert "'X'"[1..] == "X'" && "X'"[1..] == "'" && "'"[1..] == "";
    assert Norm("'X'", Bare) == "'X'";
    assert Norm(s, Bare) == "''X'";
    assert "''X'"[1..] == "'X'" && "'x'"[1..] == "x'";
    assert Norm("X'", Bare) == "x'";
    assert Norm("''X'", Bare) == "''x'";
    assert "''x'"[2] != "''X'"[2];
  }
}
