/**
 Which table statements keep one canonical form in every layout: exactly those whose first ( and
 last ) are found where a reader of the SQL sees them.
 */
module SchemaLayout {
  import opened Common
  import opened SchemaText
  import opened SchemaCanon

  /* ---- Characters that always show ---- */

  // A character that leaves its mark in the skeleton wherever it stands.
  predicate Shown(c: char) {
    c == '(' || c == ')' || c == '\''
  }

  function ShownMark(q: Mode, c: char): Mark {
    if q == Bare && c != '\'' then Structure(c) else Text(c)
  }

  predicate Shows(marks: seq<Mark>, c: char) {
    exists k :: 0 <= k < |marks| && marks[k].c == c
  }

  lemma {:induction false} MarksShow(s: string, q: Mode, c: char)
    requires Shown(c)
    ensures c in s <==> Shows(Skeleton(s, q), c)
  {
    if s != "" {
      var head, rest := Marks(q, s[0]), Skeleton(s[1..], Next(q, s[0]));
      assert s[0] == c <==> head != [] && head[0].c == c;
      assert |head| <= 1;
      UnfoldSkeleton(s, q);
      hide Marks, Next, Skeleton, Shown;
      MarksShow(s[1..], Next(q, s[0]), c);
      ShowsJoins(head, rest, c);
      assert c in s <==> s[0] == c || c in s[1..];
    }
  }

  lemma ShowsJoins(a: seq<Mark>, b: seq<Mark>, c: char)
    ensures Shows(a + b, c) <==> Shows(a, c) || Shows(b, c)
  {
    if k :| 0 <= k < |a| && a[k].c == c {
      assert (a + b)[k].c == c;
    }
    if k :| 0 <= k < |b| && b[k].c == c {
      assert (a + b)[|a| + k].c == c;
    }
  }

  // The skeleton around such a character.
  lemma SkeletonAround(a: string, c: char, b: string)
    requires Shown(c)
    ensures
      var q := EndMode(a, Bare);
      && Skeleton(a + [c] + b, Bare) == Skeleton(a, Bare) + [ShownMark(q, c)] + Skeleton(b, Next(q, c))
      && EndMode(a + [c] + b, Bare) == EndMode(b, Next(q, c))
  {
    var q := EndMode(a, Bare);
    Single(c, q);
    assert [c][1..] == "" && Skeleton([c], q) == [ShownMark(q, c)];
    hide Skeleton, EndMode, Next, ShownMark;
    NormJoins(a, [c], Bare);
    NormJoins(a + [c], b, Bare);
    SkeletonJoins(a, [c], Bare);
    SkeletonJoins(a + [c], b, Bare);
  }

  lemma FirstIsUnique(a: seq<Mark>, x: Mark, b: seq<Mark>, a': seq<Mark>, x': Mark, b': seq<Mark>, c: char)
    requires a + [x] + b == a' + [x'] + b' && x.c == c == x'.c && !Shows(a, c) && !Shows(a', c)
    ensures a == a' && x == x' && b == b'
  {
    var all := a + [x] + b;
    assert all[|a|] == x && all[|a'|] == x';
    assert forall k :: 0 <= k < |a| ==> all[k] == a[k] && all[k].c != c;
    assert forall k :: 0 <= k < |a'| ==> all[k] == a'[k] && all[k].c != c;
    SameCut(a, x, b, a', x', b');
  }

  lemma LastIsUnique(a: seq<Mark>, x: Mark, b: seq<Mark>, a': seq<Mark>, x': Mark, b': seq<Mark>, c: char)
    requires a + [x] + b == a' + [x'] + b' && x.c == c == x'.c && !Shows(b, c) && !Shows(b', c)
    ensures a == a' && x == x' && b == b'
  {
    var all := a + [x] + b;
    assert all[|a|] == x && all[|a'|] == x';
    assert forall k :: |a| < k < |all| ==> all[k] == b[k - |a| - 1] && all[k].c != c;
    assert forall k :: |a'| < k < |all| ==> all[k] == b'[k - |a'| - 1] && all[k].c != c;
    SameCut(a, x, b, a', x', b');
  }

  lemma SameCut<T>(a: seq<T>, x: T, b: seq<T>, a': seq<T>, x': T, b': seq<T>)
    requires a + [x] + b == a' + [x'] + b'
    ensures |a| == |a'| ==> a == a' && x == x' && b == b'
  {
    var all := a + [x] + b;
    if |a| == |a'| {
      assert a == all[..|a|] == a' && x == all[|a|] == x' && b == all[|a| + 1..] == b';
    }
  }

  // Texts that differ in layout only have such a character first, or last, at the same mark.
  lemma SameAround(a: string, b: string, a': string, b': string, c: char)
    requires Shown(c) && SameText(a + [c] + b, a' + [c] + b')
    requires (c !in a && c !in a') || (c !in b && c !in b')
    ensures
      var q, q' := EndMode(a, Bare), EndMode(a', Bare);
      && SameText(a, a') && Skeleton(b, Next(q, c)) == Skeleton(b', Next(q', c))
      && (c != '\'' ==> (q == Bare <==> q' == Bare))
  {
    var q, q' := EndMode(a, Bare), EndMode(a', Bare);
    SkeletonAround(a, c, b);
    SkeletonAround(a', c, b');
    MarksShow(a, Bare, c);
    MarksShow(a', Bare, c);
    MarksShow(b, Next(q, c), c);
    MarksShow(b', Next(q', c), c);
    var l, x, r := Skeleton(a, Bare), ShownMark(q, c), Skeleton(b, Next(q, c));
    var l', x', r' := Skeleton(a', Bare), ShownMark(q', c), Skeleton(b', Next(q', c));
    hide Skeleton, EndMode, Shows, Next;
    if c !in a && c !in a' {
      FirstIsUnique(l, x, r, l', x', r', c);
    } else {
      LastIsUnique(l, x, r, l', x', r', c);
    }
  }

  /* ---- Statements with a body ---- */

  predicate HasBody(s: string) {
    0 <= Find(s, '(') < FindLast(s, ')')
  }

  lemma Parse(s: string) returns (prefix: string, body: string, suffix: string)
    requires HasBody(s)
    ensures s == Statement(prefix, body, suffix) && Framed(prefix, suffix)
    ensures Find(s, '(') == |prefix| && FindLast(s, ')') == |prefix| + 1 + |body|
  {
    var i, j := Find(s, '('), FindLast(s, ')');
    prefix, body, suffix := s[..i], s[i + 1..j], s[j + 1..];
    hide Find, FindLast;
    Rejoin(s, i, j);
  }

  lemma Rejoin(s: string, i: nat, j: nat)
    requires i < j < |s| && s[i] == '(' && s[j] == ')'
    ensures s == Statement(s[..i], s[i + 1..j], s[j + 1..])
  {
    assert s[..j] == s[..i] + ['('] + s[i + 1..j];
    assert s == s[..j] + [')'] + s[j + 1..];
  }

  lemma StatementHasBody(prefix: string, body: string, suffix: string)
    requires Framed(prefix, suffix)
    ensures HasBody(Statement(prefix, body, suffix))
  {
    StatementParses(prefix, body, suffix);
  }

  // A statement read up to its last ).
  lemma Opening(prefix: string, body: string, suffix: string)
    ensures Statement(prefix, body, suffix) == (prefix + "(" + body) + [')'] + suffix
    ensures prefix + "(" + body == prefix + ['('] + body
  {}

  // A statement read from its first (.
  lemma Closing(prefix: string, body: string, suffix: string)
    ensures Statement(prefix, body, suffix) == prefix + ['('] + (body + ")" + suffix)
    ensures body + ")" + suffix == body + [')'] + suffix
  {}

  // A text read up to the last of its characters c.
  lemma LastCut(s: string, c: char) returns (a: string, b: string)
    requires c in s
    ensures s == a + [c] + b && c !in b && FindLast(s, c) == |a|
  {
    var i := FindLast(s, c);
    a, b := s[..i], s[i + 1..];
  }

  lemma BodyOpens(a: string, b: string)
    requires ')' !in b
    ensures HasBody(a + [')'] + b) <==> '(' in a
  {
    var s := a + [')'] + b;
    assert s[|a|] == ')' && s[|a| + 1..] == b;
    FindLastIs(s, ')', |a|);
    var o := Find(s, '(');
    assert forall k :: 0 <= k < |a| ==> a[k] == s[k];
    assert forall k :: 0 <= k < o ==> s[..o][k] == s[k];
    assert o >= 0 ==> s[o] == '(';
  }

  lemma BodyIsKept(s: string, t: string)
    requires SameText(s, t) && HasBody(s)
    ensures HasBody(t)
  {
    assert ')' in s;
    SameShown(s, t, ')');
    hide Skeleton, HasBody, Shows, EndMode, SameText, Find, FindLast;
    var l, u := LastCut(s, ')');
    var l', u' := LastCut(t, ')');
    SameAround(l, u, l', u', ')');
    BodyOpens(l, u);
    BodyOpens(l', u');
    SameShown(l, l', '(');
  }

  lemma SameShown(s: string, t: string, c: char)
    requires SameText(s, t) && Shown(c)
    ensures c in s <==> c in t
  {
    MarksShow(s, Bare, c);
    MarksShow(t, Bare, c);
  }

  lemma BodyShows(s: string, t: string)
    requires SameText(s, t)
    ensures HasBody(s) <==> HasBody(t)
  {
    hide HasBody;
    if HasBody(s) {
      BodyIsKept(s, t);
    }
    if HasBody(t) {
      BodyIsKept(t, s);
    }
  }

  /* ---- Text inside and outside literals ---- */

  // A character that an identifier can emit; white space and capitals show in literals only.
  predicate Nameable(c: char) {
    !IsSpace(c) && Lower(c) == c
  }

  function Texts(w: string): seq<Mark> {
    seq(|w|, i requires 0 <= i < |w| => Text(w[i]))
  }

  lemma {:induction false} LiteralReads(w: string)
    requires '\'' !in w
    ensures Skeleton(w, Literal) == Texts(w) && EndMode(w, Literal) == Literal
  {
    if w != "" {
      LiteralReads(w[1..]);
    }
  }

  lemma {:induction false} OutsideReads(w: string, q: Mode)
    requires q != Literal && '\'' !in w
    ensures EndMode(w, q) != Literal
    ensures forall k :: 0 <= k < |Skeleton(w, q)| ==> Nameable(Skeleton(w, q)[k].c)
  {
    if w != "" {
      UnfoldSkeleton(w, q);
      assert forall m :: m in Marks(q, w[0]) ==> Nameable(m.c);
      hide Skeleton, Marks, Nameable;
      OutsideReads(w[1..], Next(q, w[0]));
    }
  }

  // The literal that ends the text is not closed, and no identifier could have emitted all of it.
  predicate Stuck(s: string) {
    EndMode(s, Bare) == Literal && exists k :: FindLast(s, '\'') < k < |s| && !Nameable(s[k])
  }

  // Such a literal reads the same, character by character, in every layout.
  lemma StuckIsKept(s: string, t: string)
    requires SameText(s, t) && Stuck(s)
    ensures EndMode(t, Bare) == Literal
  {
    hide Skeleton, EndMode, SameText, Find, FindLast, Nameable;
    var a, w := LiteralTail(s);
    SameShown(s, t, '\'');
    var a', w' := LastCut(t, '\'');
    SameAround(a, w, a', w', '\'');
    SkeletonAround(a, '\'', w);
    SkeletonAround(a', '\'', w');
    var m, m' := Next(EndMode(a, Bare), '\''), Next(EndMode(a', Bare), '\'');
    hide Next;
    if m != Literal {
      OutsideReads(w, m);
    }
    LiteralReads(w);
    var k :| 0 <= k < |w| && !Nameable(w[k]);
    assert Skeleton(w', m')[k] == Text(w[k]);
    if m' == Literal {
      LiteralReads(w');
    } else {
      OutsideReads(w', m');
    }
  }

  lemma LiteralTail(s: string) returns (a: string, w: string)
    requires Stuck(s)
    ensures s == a + ['\''] + w && '\'' !in w
    ensures exists k :: 0 <= k < |w| && !Nameable(w[k])
  {
    hide Nameable, EndMode, FindLast, Skeleton;
    var k :| FindLast(s, '\'') < k < |s| && !Nameable(s[k]);
    if '\'' !in s {
      OutsideReads(s, Bare);
    }
    a, w := LastCut(s, '\'');
    assert w[k - |a| - 1] == s[k];
  }

  // What stands in such a literal up to the end of the text is the same in every layout.
  lemma StuckTail(a: string, x: string, a': string, x': string)
    requires SameText(a + x, a' + x') && Stuck(a + x) && '\'' !in x
    requires Skeleton(x, EndMode(a, Bare)) == Skeleton(x', EndMode(a', Bare))
    ensures x == x'
  {
    var q, q' := EndMode(a, Bare), EndMode(a', Bare);
    StuckIsKept(a + x, a' + x');
    assert EndMode(a + x, Bare) == Literal;
    NormJoins(a, x, Bare);
    NormJoins(a', x', Bare);
    MarksShow(x, q, '\'');
    MarksShow(x', q', '\'');
    hide Skeleton, EndMode, SameText, Stuck;
    if q != Literal {
      OutsideReads(x, q);
    }
    if q' != Literal {
      OutsideReads(x', q');
    }
    LiteralReads(x);
    LiteralReads(x');
    TextsDiffer(x, x');
  }

  lemma TextsDiffer(w: string, w': string)
    requires Texts(w) == Texts(w')
    ensures w == w'
  {
    assert |w| == |Texts(w)| == |w'|;
    forall k | 0 <= k < |w| ensures w[k] == w'[k] {
      assert Texts(w)[k] == Texts(w')[k];
    }
  }

  /* ---- Layout of a whole statement ---- */

  // A parenthesis outside quotes, or in a literal that reaches the end of the text in every layout.
  predicate Settled(s: string, i: nat)
    requires i < |s|
  {
    EndMode(s[..i], Bare) == Bare || ('\'' !in s[i..] && Stuck(s))
  }

  /** The first ( and the last ), if they enclose anything, are found where a reader sees them. */
  predicate Steady(s: string) {
    HasBody(s) ==> Settled(s, Find(s, '(')) && Settled(s, FindLast(s, ')'))
  }

  lemma SettledPieces(p: string, b: string, u: string)
    requires Framed(p, u)
    ensures Steady(Statement(p, b, u)) <==>
      && (EndMode(p, Bare) == Bare || ('\'' !in b + ")" + u && Stuck(Statement(p, b, u))))
      && (EndMode(p + "(" + b, Bare) == Bare || ('\'' !in u && Stuck(Statement(p, b, u))))
  {
    var s := Statement(p, b, u);
    hide Framed, Find, FindLast, EndMode, Stuck, HasBody, Statement, Steady;
    StatementHasBody(p, b, u);
    StatementParses(p, b, u);
    SteadyAt(s, |p|, |p| + 1 + |b|);
    Slices(p, b, u);
    SettledAt(s, |p|, p, "(" + (b + ")" + u));
    SettledAt(s, |p| + 1 + |b|, p + "(" + b, ")" + u);
    hide Settled;
    NotIn("(", b + ")" + u, '\'');
    NotIn(")", u, '\'');
  }

  lemma SettledAt(s: string, i: nat, a: string, b: string)
    requires i < |s| && s[..i] == a && s[i..] == b
    ensures Settled(s, i) <==> EndMode(a, Bare) == Bare || ('\'' !in b && Stuck(s))
  {}

  lemma SteadyAt(s: string, i: nat, j: nat)
    requires HasBody(s) && Find(s, '(') == i && FindLast(s, ')') == j
    ensures j < |s| && i < |s| && (Steady(s) <==> Settled(s, i) && Settled(s, j))
  {}

  lemma Slices(p: string, b: string, u: string)
    ensures
      var s, i, j := Statement(p, b, u), |p|, |p| + 1 + |b|;
      && j < |s| && s[..i] == p && s[..j] == p + "(" + b
      && s[i..] == "(" + (b + ")" + u) && s[j..] == ")" + u
  {}

  lemma NotIn(a: string, b: string, c: char)
    ensures c !in a + b <==> c !in a && c !in b
  {}

  lemma StuckAfter(l: string, u: string, l': string, u': string, c: char)
    requires c != '\'' && Shown(c) && SameText(l + [c] + u, l' + [c] + u') && Stuck(l + [c] + u) && '\'' !in u
    requires (c !in l && c !in l') || (c !in u && c !in u')
    ensures u == u'
  {
    SameAround(l, u, l', u', c);
    SkeletonAround(l, c, "");
    SkeletonAround(l', c, "");
    assert l + [c] + "" == l + [c] && l' + [c] + "" == l' + [c];
    assert EndMode(l + [c], Bare) == Next(EndMode(l, Bare), c);
    assert EndMode(l' + [c], Bare) == Next(EndMode(l', Bare), c);
    hide EndMode, Stuck, Skeleton, SameText;
    StuckTail(l + [c], u, l' + [c], u');
  }

  lemma LastCutIsUnique(a: string, b: string, a': string, b': string, c: char)
    requires a + [c] + b == a' + [c] + b' && c !in b && c !in b'
    ensures a == a' && b == b'
  {
    var all := a + [c] + b;
    assert all[|a|] == c && all[|a'|] == c;
    assert forall k :: |a| < k < |all| ==> all[k] == b[k - |a| - 1] && all[k] != c;
    assert forall k :: |a'| < k < |all| ==> all[k] == b'[k - |a'| - 1] && all[k] != c;
    SameCut(a, c, b, a', c, b');
  }

  lemma SteadyPieces(p: string, b: string, u: string, p': string, b': string, u': string)
    requires Framed(p, u) && Framed(p', u') && Steady(Statement(p, b, u))
    requires SameText(Statement(p, b, u), Statement(p', b', u'))
    ensures SameText(p, p') && SameText(b, b') && SameText(u, u')
  {
    var l, l', r, r' := p + "(" + b, p' + "(" + b', b + ")" + u, b' + ")" + u';
    SettledPieces(p, b, u);
    Opening(p, b, u);
    Opening(p', b', u');
    Closing(p, b, u);
    Closing(p', b', u');
    hide EndMode, Stuck, Steady, Statement, Skeleton, SameText;
    SameAround(l, u, l', u', ')');
    SameBehind(l, u, l', u', ')');
    SameAround(p, b, p', b', '(');
    if EndMode(p, Bare) == Bare {
      SameBehind(p, b, p', b', '(');
    } else {
      StuckAfter(p, r, p', r', '(');
      LastCutIsUnique(b, u, b', u', ')');
      SameTextRefl(b);
    }
  }

  lemma SameBehind(l: string, u: string, l': string, u': string, c: char)
    requires c != '\'' && Shown(c) && SameText(l + [c] + u, l' + [c] + u')
    requires (c !in l && c !in l') || (c !in u && c !in u')
    requires EndMode(l, Bare) == Bare || ('\'' !in u && Stuck(l + [c] + u))
    ensures SameText(u, u')
  {
    hide EndMode, Stuck, Skeleton, SameText;
    SameAround(l, u, l', u', c);
    if EndMode(l, Bare) == Bare {
      SameMode(u, u', c);
    } else {
      StuckAfter(l, u, l', u', c);
      SameTextRefl(u);
    }
  }

  lemma SameMode(a: string, b: string, c: char)
    requires c != '\'' && Shown(c) && Skeleton(a, Next(Bare, c)) == Skeleton(b, Next(Bare, c))
    ensures SameText(a, b)
  {}

  /**
   Statements of any kind that differ only in layout have one canonical form, as long as the
   parentheses of a table statement are steady.
   */
  lemma LayoutIsIgnored(isTable: bool, columnCount: nat, s: string, t: string)
    requires SameText(s, t) && (isTable && !(VIRTUAL <= Norm(s, Bare)) ==> Steady(s))
    ensures Canonical(isTable, columnCount, s) == Canonical(isTable, columnCount, t)
  {
    hide Norm, Steady, Split, NormEach, Skeleton, EndMode, Find, FindLast, Rebuilt;
    SameTextSameComponents(s, t);
    BodyShows(s, t);
    if isTable && !(VIRTUAL <= Norm(s, Bare)) && HasBody(s) {
      BodiedLayoutIsIgnored(columnCount, s, t);
    }
  }

  lemma BodiedLayoutIsIgnored(columnCount: nat, s: string, t: string)
    requires SameText(s, t) && !(VIRTUAL <= Norm(s, Bare)) && Steady(s) && HasBody(s) && HasBody(t)
    ensures Canonical(true, columnCount, s) == Canonical(true, columnCount, t)
  {
    hide Norm, Steady, HasBody, Split, NormEach, Skeleton, EndMode, Canonical, Framed, Statement, SameText;
    SameTextSameComponents(s, t);
    var p, b, u := Parse(s);
    var p', b', u' := Parse(t);
    SteadyPieces(p, b, u, p', b', u');
    SameTextSameComponents(p, p');
    SameTextSameComponents(b, b');
    SameTextSameComponents(u, u');
    VirtualByPrefix(p, b, u);
    VirtualByPrefix(p', b', u');
    CanonicalOfStatement(p, b, u, columnCount);
    CanonicalOfStatement(p', b', u', columnCount);
  }

  /* ---- The length of a canonical form ---- */

  // Length of the parts, each with its comma.
  function Total(parts: seq<string>): nat {
    if parts == [] then 0 else |parts[0]| + 1 + Total(parts[1..])
  }

  lemma {:induction false} TotalJoins(a: seq<string>, b: seq<string>)
    ensures Total(a + b) == Total(a) + Total(b)
  {
    if a == [] {
      assert a + b == b;
    } else {
      TotalJoins(a[1..], b);
      assert (a + b)[1..] == a[1..] + b;
    }
  }

  lemma {:induction false} TotalOfInsert(x: string, sorted: seq<string>)
    ensures Total(Insert(x, sorted)) == |x| + 1 + Total(sorted)
  {
    hide AtMost;
    if sorted != [] && !AtMost(x, sorted[0]) {
      TotalOfInsert(x, sorted[1..]);
    }
  }

  lemma {:induction false} TotalOfSorted(xs: seq<string>)
    ensures Total(Sorted(xs)) == Total(xs)
  {
    if xs != [] {
      TotalOfSorted(xs[1..]);
      TotalOfInsert(xs[0], Sorted(xs[1..]));
    }
  }

  lemma {:induction false} JoinedLength(parts: seq<string>)
    requires parts != []
    ensures |JoinComma(parts)| + 1 == Total(parts)
  {
    if |parts| > 1 {
      JoinedLength(parts[1..]);
    } else {
      assert parts[1..] == [];
    }
  }

  lemma SortedCount(xs: seq<string>)
    ensures |Sorted(xs)| == |xs|
  {
    SortedOrders(xs);
    assert |multiset(Sorted(xs))| == |multiset(xs)|;
  }

  lemma SortingKeepsLength(parts: seq<string>, n: nat)
    requires parts != [] && n <= |parts|
    ensures |JoinComma(parts[..n] + Sorted(parts[n..]))| == |JoinComma(parts)|
  {
    var head, tail := parts[..n], parts[n..];
    assert head + tail == parts;
    SortedCount(tail);
    hide Sorted, Total, JoinComma;
    JoinedLength(head + Sorted(tail));
    JoinedLength(head + tail);
    TotalJoins(head, Sorted(tail));
    TotalJoins(head, tail);
    TotalOfSorted(tail);
  }

  // With at most one column a body is always taken apart.
  lemma FormLength(p: string, b: string, u: string, n: nat)
    requires Framed(p, u) && !(VIRTUAL <= Norm(Statement(p, b, u), Bare)) && n <= 1
    ensures |Canonical(true, n, Statement(p, b, u))| == |Norm(p, Bare)| + |Norm(b, Bare)| + |Norm(u, Bare)| + 2
  {
    var components := NormEach(Split(b));
    assert |components| >= 1;
    hide Norm, Split, NormEach, Sorted, Canonical, Statement, JoinComma, Framed;
    VirtualByPrefix(p, b, u);
    CanonicalOfStatement(p, b, u, n);
    SortingKeepsLength(components, n);
    ScannersAgree(b);
  }

  /* ---- Misread parentheses ---- */

  // A pair of quotes around nothing, of a kind that does not close q.
  function Pair(q: Mode): string {
    if q == Bracket then "\"\"" else "[]"
  }

  lemma TwoCharacters(s: string, q: Mode)
    requires |s| == 2
    ensures
      var r := Next(q, s[0]);
      && Norm(s, q) == Emit(q, s[0]) + Emit(r, s[1]) && EndMode(s, q) == Next(r, s[1])
      && Skeleton(s, q) == Marks(q, s[0]) + Marks(r, s[1])
  {
    hide Emit, Next, Marks;
    var r := Next(q, s[0]);
    assert s[1..] == [s[1]] && [s[1]][1..] == "";
    Unfold([s[1]], r);
    UnfoldSkeleton([s[1]], r);
    UnfoldSkeleton(s, q);
  }

  lemma PairIsEmpty(q: Mode)
    ensures Skeleton(Pair(q), Bare) == [] && EndMode(Pair(q), Bare) == Bare
    ensures ')' !in Pair(q)
  {
    TwoCharacters(Pair(q), Bare);
  }

  lemma PairIsText(q: Mode)
    requires q != Bare
    ensures |Norm(Pair(q), q)| == 2 && EndMode(Pair(q), q) == q
  {
    TwoCharacters(Pair(q), q);
  }

  // Nothing to a reader, the pair is text to a scanner that takes itself to be inside quotes.
  lemma PairLengthens(x: string, y: string)
    requires EndMode(x, Bare) != Bare
    ensures |Norm(x + Pair(EndMode(x, Bare)) + y, Bare)| == |Norm(x + y, Bare)| + 2
  {
    var q := EndMode(x, Bare);
    PairIsText(q);
    hide Norm, EndMode, Pair;
    NormJoins(x, y, Bare);
    NormJoins(x, Pair(q), Bare);
    NormJoins(x + Pair(q), y, Bare);
  }

  lemma PairIsLayout(a: string, b: string, q: Mode)
    requires EndMode(a, Bare) == Bare
    ensures SameText(a + b, a + Pair(q) + b)
  {
    PairIsEmpty(q);
    assert Skeleton("", Bare) == [] && EndMode("", Bare) == Bare;
    assert a + "" + b == a + b;
    hide Skeleton, EndMode, SameText, Pair, Norm, Next, Marks, Emit;
    EditInContext(a, "", Pair(q), b);
  }

  // Two statements of which one is longer by a pair that the scanners take for text.
  lemma LongerForm(p: string, b: string, u: string, b': string, u': string, n: nat)
    requires Framed(p, u) && Framed(p, u') && n <= 1
    requires SameText(Statement(p, b, u), Statement(p, b', u')) && !(VIRTUAL <= Norm(Statement(p, b, u), Bare))
    requires |Norm(b', Bare)| + |Norm(u', Bare)| == |Norm(b, Bare)| + |Norm(u, Bare)| + 2
    ensures Canonical(true, n, Statement(p, b, u)) != Canonical(true, n, Statement(p, b', u'))
  {
    hide *;
    SameTextSameComponents(Statement(p, b, u), Statement(p, b', u'));
    FormLength(p, b, u, n);
    FormLength(p, b', u', n);
  }

  lemma QuoteOpens(x: string)
    requires '\'' !in x
    ensures EndMode(x + ['\''], Bare) != Bare
  {
    OutsideReads(x, Bare);
    SkeletonAround(x, '\'', "");
    assert x + ['\''] + "" == x + ['\''];
  }

  lemma AddedBehind(p: string, b: string, x: string, mid: string, z: string)
    ensures Statement(p, b, x + z) == (p + "(" + b + ")" + x) + z
    ensures Statement(p, b, x + mid + z) == (p + "(" + b + ")" + x) + mid + z
  {}

  lemma AddedInside(p: string, x: string, mid: string, z: string, u: string)
    ensures Statement(p, x + z, u) == (p + "(" + x) + (z + ")" + u)
    ensures Statement(p, x + mid + z, u) == (p + "(" + x) + mid + (z + ")" + u)
  {}

  // The last ) stands in a literal that is closed behind it.
  lemma LiteralCloses(p: string, b: string, w: string, z: string, n: nat) returns (t: string)
    requires
      var u, s := w + "'" + z, Statement(p, b, w + "'" + z);
      && Framed(p, u) && '\'' !in w && !(VIRTUAL <= Norm(s, Bare)) && n <= 1
      && EndMode(p + "(" + b, Bare) == Literal
    ensures var s := Statement(p, b, w + "'" + z);
      SameText(s, t) && Canonical(true, n, s) != Canonical(true, n, t)
  {
    var x := w + ['\''];
    QuoteOpens(w);
    var q := EndMode(x, Bare);
    var a := p + "(" + b + ")" + x;
    t := Statement(p, b, x + Pair(q) + z);
    PairIsEmpty(q);
    assert EndMode(a, Bare) == Bare by { LiteralEnds(p + "(" + b, ')', w, a); }
    assert Framed(p, x + z) && Framed(p, x + Pair(q) + z);
    hide EndMode, Pair, Norm, SameText, Statement, Canonical, Framed, Skeleton;
    AddedBehind(p, b, x, Pair(q), z);
    assert x + z == w + "'" + z;
    PairIsLayout(a, z, q);
    PairLengthens(x, z);
    LongerForm(p, b, x + z, b, x + Pair(q) + z, n);
  }

  // A literal entered before c ends at the first apostrophe behind it.
  lemma LiteralEnds(l: string, c: char, w: string, a: string)
    requires EndMode(l, Bare) == Literal && c != '\'' && '\'' !in w && a == l + [c] + w + ['\'']
    ensures EndMode(a, Bare) == Bare
  {
    Single(c, Literal);
    Single('\'', Literal);
    LiteralReads(w);
    hide EndMode;
    NormJoins(l, [c], Bare);
    NormJoins(l + [c], w, Bare);
    NormJoins(l + [c] + w, ['\''], Bare);
  }

  // The first ( stands in a literal that is closed before the last ).
  lemma LiteralClosesInside(p: string, w: string, z: string, u: string, n: nat) returns (t: string)
    requires
      var s := Statement(p, w + "'" + z, u);
      && Framed(p, u) && '\'' !in w && !(VIRTUAL <= Norm(s, Bare)) && n <= 1
      && EndMode(p, Bare) == Literal
    ensures var s := Statement(p, w + "'" + z, u);
      SameText(s, t) && Canonical(true, n, s) != Canonical(true, n, t)
  {
    var x, r := w + ['\''], z + ")" + u;
    QuoteOpens(w);
    var q := EndMode(x, Bare);
    var a := p + "(" + x;
    t := Statement(p, x + Pair(q) + z, u);
    assert EndMode(a, Bare) == Bare by { LiteralEnds(p, '(', w, a); }
    hide EndMode, Pair, Norm, SameText, Statement, Canonical, Skeleton;
    AddedInside(p, x, Pair(q), z, u);
    assert x + z == w + "'" + z;
    PairIsLayout(a, r, q);
    PairLengthens(x, z);
    LongerForm(p, x + z, u, x + Pair(q) + z, u, n);
  }

  // The opening quote of a name.
  function Opener(q: Mode): char
    requires q != Bare && q != Literal
  {
    match q case Double => '"' case Back => '`' case Bracket => '['
  }

  // The quotes of a name, closed around a character that gets quotes of its own, and mid behind it.
  function Requoted(q: Mode, c: char, mid: string): string
    requires q != Bare && q != Literal
  {
    [Closer(q), '"'] + [c, '"'] + (mid + [Opener(q)])
  }

  lemma ReopenReads(q: Mode, mid: string)
    requires q != Bare && q != Literal && (mid == "" || mid == Pair(Double))
    ensures Skeleton(mid + [Opener(q)], Bare) == [] && EndMode(mid + [Opener(q)], Bare) == q
  {
    PairIsEmpty(Double);
    Single(Opener(q), Bare);
    assert [Opener(q)][1..] == "" && Skeleton("", Bare) == [] && EndMode("", Bare) == Bare;
    assert Skeleton([Opener(q)], Bare) == [] && Next(Bare, Opener(q)) == q;
    hide Skeleton, EndMode, Pair, Opener;
    SkeletonJoins(mid, [Opener(q)], Bare);
    NormJoins(mid, [Opener(q)], Bare);
  }

  lemma OwnQuotes(q: Mode, c: char)
    requires q != Bare && q != Literal && (c == '(' || c == ')')
    ensures Skeleton([c], q) == [Text(c)] && EndMode([c], q) == q
    ensures Skeleton([Closer(q), '"'], q) == [] && EndMode([Closer(q), '"'], q) == Double
    ensures Skeleton([c, '"'], Double) == [Text(c)] && EndMode([c, '"'], Double) == Bare
  {
    TwoCharacters([Closer(q), '"'], q);
    TwoCharacters([c, '"'], Double);
    assert [c][1..] == "";
  }

  lemma RequotedReads(q: Mode, c: char, mid: string)
    requires q != Bare && q != Literal && (c == '(' || c == ')') && (mid == "" || mid == Pair(Double))
    ensures Skeleton(Requoted(q, c, mid), q) == Skeleton([c], q)
    ensures EndMode(Requoted(q, c, mid), q) == q == EndMode([c], q)
  {
    var close, name, reopen := [Closer(q), '"'], [c, '"'], mid + [Opener(q)];
    ReopenReads(q, mid);
    OwnQuotes(q, c);
    hide Skeleton, EndMode, Norm, Pair, Opener, Next, Marks, Emit;
    SkeletonJoins(close, name, q);
    NormJoins(close, name, q);
    SkeletonJoins(close + name, reopen, q);
    NormJoins(close + name, reopen, q);
  }

  lemma Requote(a: string, q: Mode, c: char, mid: string, r: string)
    requires q == EndMode(a, Bare) && q != Bare && q != Literal
    requires (c == '(' || c == ')') && (mid == "" || mid == Pair(Double))
    ensures SameText(a + [c] + r, a + Requoted(q, c, mid) + r)
  {
    RequotedReads(q, c, mid);
    hide Skeleton, EndMode, SameText, Pair, Requoted, Norm, Next, Marks, Emit;
    EditInContext(a, [c], Requoted(q, c, mid), r);
  }

  lemma RequotedOpening(p: string, q: Mode, mid: string, b: string, u: string)
    requires q != Bare && q != Literal
    ensures Statement(p + [Closer(q), '"'], "\"" + mid + ([Opener(q)] + b), u)
         == p + Requoted(q, '(', mid) + (b + ")" + u)
    ensures Statement(p, b, u) == p + ['('] + (b + ")" + u)
  {}

  lemma RequotedClosing(p: string, q: Mode, mid: string, b: string, u: string)
    requires q != Bare && q != Literal
    ensures Statement(p, b + [Closer(q), '"'], "\"" + mid + ([Opener(q)] + u))
         == (p + "(" + b) + Requoted(q, ')', mid) + u
    ensures Statement(p, b, u) == (p + "(" + b) + [')'] + u
  {}

  // Of two layouts with different forms one has another form than s.
  lemma OtherForm(s: string, plain: string, longer: string, n: nat) returns (t: string)
    requires SameText(s, plain) && SameText(s, longer) && Canonical(true, n, plain) != Canonical(true, n, longer)
    ensures SameText(s, t) && Canonical(true, n, s) != Canonical(true, n, t)
  {
    t := if Canonical(true, n, s) == Canonical(true, n, plain) then longer else plain;
  }

  lemma QuoteIsDouble()
    ensures EndMode("\"", Bare) == Double
  {
    Single('"', Bare);
  }

  // The first ( stands in a quoted name.
  lemma NameHoldsOpening(p: string, b: string, u: string, n: nat) returns (t: string)
    requires Framed(p, u) && EndMode(p, Bare) != Bare && EndMode(p, Bare) != Literal && n <= 1
    requires !(VIRTUAL <= Norm(Statement(p, b, u), Bare))
    ensures SameText(Statement(p, b, u), t) && Canonical(true, n, Statement(p, b, u)) != Canonical(true, n, t)
  {
    var q := EndMode(p, Bare);
    var p', y, mid := p + [Closer(q), '"'], [Opener(q)] + b, Pair(Double);
    var plain, longer := Statement(p', "\"" + "" + y, u), Statement(p', "\"" + mid + y, u);
    assert Framed(p', u);
    hide *;
    RequotedOpens(p, q, "", b, u);
    RequotedOpens(p, q, mid, b, u);
    QuoteIsDouble();
    PairLengthens("\"", y);
    assert "\"" + "" + y == "\"" + y;
    SameTextSameComponents(Statement(p, b, u), plain);
    SameTextTrans(plain, Statement(p, b, u), longer);
    LongerForm(p', "\"" + y, u, "\"" + mid + y, u, n);
    t := OtherForm(Statement(p, b, u), plain, longer, n);
  }

  lemma RequotedOpens(p: string, q: Mode, mid: string, b: string, u: string)
    requires q == EndMode(p, Bare) && q != Bare && q != Literal && (mid == "" || mid == Pair(Double))
    ensures SameText(Statement(p, b, u), Statement(p + [Closer(q), '"'], "\"" + mid + ([Opener(q)] + b), u))
  {
    hide *;
    RequotedOpening(p, q, mid, b, u);
    Requote(p, q, '(', mid, b + ")" + u);
  }

  // The last ) stands in a quoted name.
  lemma NameHoldsClosing(p: string, b: string, u: string, n: nat) returns (t: string)
    requires Framed(p, u) && EndMode(p + "(" + b, Bare) != Bare && EndMode(p + "(" + b, Bare) != Literal && n <= 1
    requires !(VIRTUAL <= Norm(Statement(p, b, u), Bare))
    ensures SameText(Statement(p, b, u), t) && Canonical(true, n, Statement(p, b, u)) != Canonical(true, n, t)
  {
    var q := EndMode(p + "(" + b, Bare);
    var b', y, mid := b + [Closer(q), '"'], [Opener(q)] + u, Pair(Double);
    var plain, longer := Statement(p, b', "\"" + "" + y), Statement(p, b', "\"" + mid + y);
    StaysFramed(p, q, u);
    hide *;
    RequotedCloses(p, q, "", b, u);
    RequotedCloses(p, q, mid, b, u);
    QuoteIsDouble();
    PairLengthens("\"", y);
    assert "\"" + "" + y == "\"" + y;
    SameTextSameComponents(Statement(p, b, u), plain);
    SameTextTrans(plain, Statement(p, b, u), longer);
    LongerForm(p, b', "\"" + y, b', "\"" + mid + y, n);
    t := OtherForm(Statement(p, b, u), plain, longer, n);
  }

  lemma StaysFramed(p: string, q: Mode, u: string)
    requires Framed(p, u) && q != Bare && q != Literal
    ensures Framed(p, "\"" + ([Opener(q)] + u)) && Framed(p, "\"" + Pair(Double) + ([Opener(q)] + u))
  {}

  lemma RequotedCloses(p: string, q: Mode, mid: string, b: string, u: string)
    requires q == EndMode(p + "(" + b, Bare) && q != Bare && q != Literal && (mid == "" || mid == Pair(Double))
    ensures SameText(Statement(p, b, u), Statement(p, b + [Closer(q), '"'], "\"" + mid + ([Opener(q)] + u)))
  {
    hide *;
    RequotedClosing(p, q, mid, b, u);
    Requote(p + "(" + b, q, ')', mid, u);
  }

  lemma FirstCut(s: string, c: char) returns (a: string, b: string)
    requires c in s
    ensures s == a + [c] + b && c !in a
  {
    var i := Find(s, c);
    a, b := s[..i], s[i + 1..];
  }

  // The last ) stands in quotes that end.
  lemma ClosingMisread(p: string, b: string, u: string, n: nat) returns (t: string)
    requires Framed(p, u) && EndMode(p + "(" + b, Bare) != Bare && n <= 1
    requires EndMode(p + "(" + b, Bare) == Literal ==> '\'' in u
    requires !(VIRTUAL <= Norm(Statement(p, b, u), Bare))
    ensures SameText(Statement(p, b, u), t) && Canonical(true, n, Statement(p, b, u)) != Canonical(true, n, t)
  {
    hide Norm, EndMode, Statement, Canonical, Skeleton, SameText;
    if EndMode(p + "(" + b, Bare) == Literal {
      var w, z := FirstCut(u, '\'');
      assert u == w + "'" + z;
      t := LiteralCloses(p, b, w, z, n);
    } else {
      t := NameHoldsClosing(p, b, u, n);
    }
  }

  // A character in quotes of its own.
  function Name(c: char): string {
    if c == '"' then ['[', c, ']'] else ['"', c, '"']
  }

  function Named(w: string): string {
    if w == "" then "" else Name(w[0]) + Named(w[1..])
  }

  lemma NameReadsOnce(c: char)
    requires Nameable(c)
    ensures Skeleton(Name(c), Bare) == [Text(c)] && EndMode(Name(c), Bare) == Bare
  {
    var q := Next(Bare, Name(c)[0]);
    assert Name(c)[1..] == [c, Name(c)[2]];
    TwoCharacters(Name(c)[1..], q);
    UnfoldSkeleton(Name(c), Bare);
    hide Skeleton, EndMode, Norm;
  }

  lemma {:induction false} NamedReads(w: string)
    requires forall k :: 0 <= k < |w| ==> Nameable(w[k])
    ensures Skeleton(Named(w), Bare) == Texts(w) && EndMode(Named(w), Bare) == Bare
  {
    if w != "" {
      var first, rest := Name(w[0]), Named(w[1..]);
      NameReadsOnce(w[0]);
      assert w == [w[0]] + w[1..];
      hide Skeleton, EndMode, Texts, Norm, Nameable, Name;
      TextsGrow(w[0], w[1..]);
      NamedReads(w[1..]);
      SkeletonJoins(first, rest, Bare);
      NormJoins(first, rest, Bare);
    }
  }

  lemma NameableTail(s: string) returns (a: string, w: string)
    requires EndMode(s, Bare) == Literal && !Stuck(s)
    ensures s == a + ['\''] + w && '\'' !in w && forall k :: 0 <= k < |w| ==> Nameable(w[k])
  {
    hide EndMode, Nameable, Skeleton, FindLast;
    if '\'' !in s {
      OutsideReads(s, Bare);
    }
    a, w := LastCut(s, '\'');
    forall k | 0 <= k < |w| ensures Nameable(w[k]) {
      assert w[k] == s[|a| + 1 + k];
    }
  }

  // An unclosed literal that is not stuck reads like a name.
  lemma Unstick(s: string) returns (t: string)
    requires EndMode(s, Bare) == Literal && !Stuck(s)
    ensures SameText(s, t) && EndMode(t, Bare) == Bare
  {
    var a, w := NameableTail(s);
    hide *;
    OpenLiteral(a, w);
    t := NamedBehind(a, w);
    SameSkeleton(s, t);
  }

  lemma SameSkeleton(s: string, t: string)
    requires Skeleton(s, Bare) == Skeleton(t, Bare)
    ensures SameText(s, t)
  {}

  lemma NamedBehind(a: string, w: string) returns (t: string)
    requires EndMode(a, Bare) == Bare && forall k :: 0 <= k < |w| ==> Nameable(w[k])
    ensures Skeleton(t, Bare) == Skeleton(a, Bare) + [Text('\'')] + Texts(w) && EndMode(t, Bare) == Bare
  {
    var named := Named("'" + w);
    t := a + named;
    NameableLiteral(w);
    hide *;
    SkeletonJoins(a, named, Bare);
    NormJoins(a, named, Bare);
    Regroup(Skeleton(a, Bare), [Text('\'')], Texts(w));
  }

  // A text that ends in an unclosed literal, cut where that opens.
  lemma OpenLiteral(a: string, w: string)
    requires EndMode(a + ['\''] + w, Bare) == Literal && '\'' !in w
    ensures EndMode(a, Bare) == Bare
    ensures Skeleton(a + ['\''] + w, Bare) == Skeleton(a, Bare) + [Text('\'')] + Texts(w)
  {
    hide EndMode, Skeleton, Texts;
    var m := Next(EndMode(a, Bare), '\'');
    SkeletonAround(a, '\'', w);
    if m != Literal {
      OutsideReads(w, m);
    }
    LiteralReads(w);
  }

  lemma NameableLiteral(w: string)
    requires forall k :: 0 <= k < |w| ==> Nameable(w[k])
    ensures Skeleton(Named("'" + w), Bare) == [Text('\'')] + Texts(w) && EndMode(Named("'" + w), Bare) == Bare
  {
    assert Nameable('\'');
    assert forall k :: 0 < k < |"'" + w| ==> ("'" + w)[k] == w[k - 1];
    hide *;
    NamedReads("'" + w);
    TextsGrow('\'', w);
  }

  lemma TextsGrow(c: char, w: string)
    ensures Texts([c] + w) == [Text(c)] + Texts(w)
  {}

  // The last ) stands in an unclosed literal that reads like a name.
  lemma UnclosedMisread(p: string, b: string, u: string, n: nat) returns (t: string)
    requires Framed(p, u) && EndMode(p + "(" + b, Bare) == Literal && n <= 1 && '\'' !in u
    requires !Stuck(Statement(p, b, u)) && !(VIRTUAL <= Norm(Statement(p, b, u), Bare))
    ensures SameText(Statement(p, b, u), t) && Canonical(true, n, Statement(p, b, u)) != Canonical(true, n, t)
  {
    var s, l := Statement(p, b, u), p + "(" + b;
    LiteralReads(u);
    Opening(p, b, u);
    SkeletonAround(l, ')', u);
    StatementHasBody(p, b, u);
    hide Norm, EndMode, Statement, Canonical, Skeleton, Stuck, HasBody, SameText;
    t := Unstick(s);
    SameTextSameComponents(s, t);
    BodyIsKept(s, t);
    var p', b', u' := Parse(t);
    Opening(p', b', u');
    SameAround(l, u, p' + "(" + b', u', ')');
    if EndMode(p' + "(" + b', Bare) == Literal && '\'' !in u' {
      LiteralReads(u');
      SkeletonAround(p' + "(" + b', ')', u');
    }
    var t' := ClosingMisread(p', b', u', n);
    if Canonical(true, n, s) == Canonical(true, n, t) {
      SameTextTrans(s, t, t');
      t := t';
    }
  }

  lemma SameTextTrans(a: string, b: string, c: string)
    requires (SameText(a, b) || SameText(b, a)) && SameText(b, c)
    ensures SameText(a, c)
  {}

  /** A statement that is not steady has another layout with another canonical form. */
  lemma Misread(s: string, n: nat) returns (t: string)
    requires !(VIRTUAL <= Norm(s, Bare)) && !Steady(s) && n <= 1
    ensures SameText(s, t) && Canonical(true, n, s) != Canonical(true, n, t)
  {
    assert HasBody(s);
    hide Norm, EndMode, Statement, Canonical, Skeleton, Stuck, HasBody, SameText, Steady;
    var p, b, u := Parse(s);
    var opening, closing := EndMode(p, Bare), EndMode(p + "(" + b, Bare);
    SettledPieces(p, b, u);
    if closing != Bare && (closing == Literal ==> '\'' in u) {
      t := ClosingMisread(p, b, u, n);
    } else if opening != Bare && opening != Literal {
      t := NameHoldsOpening(p, b, u, n);
    } else if opening == Literal && '\'' in b {
      var w, z := FirstCut(b, '\'');
      assert b == w + "'" + z;
      t := LiteralClosesInside(p, w, z, u, n);
    } else {
      if opening == Literal {
        LiteralReads(b);
        SkeletonAround(p, '(', b);
      }
      NotIn(b + ")", u, '\'');
      NotIn(b, ")", '\'');
      t := UnclosedMisread(p, b, u, n);
    }
  }

  /**
   For every statement: all its layouts have one canonical form, under every column count, exactly
   when it creates a virtual table or is steady; otherwise one column or none already tells two
   layouts apart.
   */
  lemma LayoutIsIgnoredExactly(s: string)
    ensures VIRTUAL <= Norm(s, Bare) || Steady(s) <==>
      forall t, n :: SameText(s, t) ==> Canonical(true, n, s) == Canonical(true, n, t)
    ensures forall n :: 0 <= n <= 1 ==>
      (VIRTUAL <= Norm(s, Bare) || Steady(s) <==>
        forall t :: SameText(s, t) ==> Canonical(true, n, s) == Canonical(true, n, t))
  {
    hide Norm, Canonical, SameText, Steady;
    if VIRTUAL <= Norm(s, Bare) || Steady(s) {
      forall t, n: nat | SameText(s, t) ensures Canonical(true, n, s) == Canonical(true, n, t) {
        LayoutIsIgnored(true, n, s, t);
      }
    } else {
      var t := Misread(s, 1);
      forall n | 0 <= n <= 1
        ensures !forall t :: SameText(s, t) ==> Canonical(true, n, s) == Canonical(true, n, t)
      {
        var t' := Misread(s, n);
      }
    }
  }

  /* ---- An example ---- */

  // Text in front of a name: no quotes, no (, and too short for a virtual table.
  predicate Heading(head: string) {
    |head| < |VIRTUAL| && forall k :: 0 <= k < |head| ==> !Opens(head[k]) && head[k] != '('
  }

  lemma {:induction false} Unquoted(s: string)
    requires Heading(s)
    ensures EndMode(s, Bare) == Bare
  {
    if s != "" {
      Unquoted(s[1..]);
    }
  }

  lemma OnePart(body: string)
    requires Whole(body, Bare, 0)
    ensures NormEach(Split(body)) == [Norm(body, Bare)]
  {
    hide Norm, Whole;
    WholeIsOnePart(body, Bare, 0, "");
    assert "" + body == body;
  }

  // A heading, an opening quote, and one component that is the body.
  lemma OneColumn(head: string, open: string, body: string)
    requires Heading(head) && '(' !in open && Norm(open, Bare) == "" && Whole(body, Bare, 0)
    ensures
      var s := Statement(head + open, body, "");
      && Canonical(true, 1, s) == Norm(head, Bare) + "(" + Norm(body, Bare) + ")"
      && !(VIRTUAL <= Norm(s, Bare))
  {
    assert Framed(head + open, "");
    HeadingReads(head, open);
    hide Norm, Whole, Canonical, Statement, Framed, Split, NormEach, Heading;
    OnePart(body);
    VirtualByPrefix(head + open, body, "");
    CanonicalOfStatement(head + open, body, "", 1);
    RebuiltOfOne(head + open, Norm(body, Bare));
  }

  lemma HeadingReads(head: string, open: string)
    requires Heading(head) && Norm(open, Bare) == ""
    ensures Norm(head + open, Bare) == Norm(head, Bare) && !(VIRTUAL <= Norm(head, Bare))
  {
    Unquoted(head);
    NormNeverGrows(head, Bare);
    hide Norm, EndMode;
    NormJoins(head, open, Bare);
  }

  lemma RebuiltOfOne(prefix: string, normal: string)
    ensures Rebuilt(prefix, [normal], 1, "") == Norm(prefix, Bare) + "(" + normal + ")"
  {
    assert Norm("", Bare) == "";
    hide Norm;
    assert [normal][1..] == [] && [normal][..1] + Sorted([]) == [normal] && JoinComma([normal]) == normal;
  }

  lemma InsideDouble()
    ensures Norm("\"", Bare) == "" && Whole("\"(b", Bare, 0) && Norm("\"(b", Bare) == "(b"
  {
    assert "\""[1..] == "" && "\"(b"[1..] == "(b" && "(b"[1..] == "b" && "b"[1..] == "";
    assert Norm("b", Double) == "b" && Whole("b", Double, 0);
    assert Norm("(b", Double) == "(b" && Whole("(b", Double, 0);
  }

  lemma InsideBracket()
    ensures Norm("[", Bare) == "" && Whole("](b", Bare, 0) && Norm("](b", Bare) == "](b"
  {
    assert "["[1..] == "" && "](b"[1..] == "(b" && "(b"[1..] == "b" && "b"[1..] == "";
    assert Norm("b", Bare) == "b" && Whole("b", Bare, 1);
    assert Norm("(b", Bare) == "(b" && Whole("(b", Bare, 0);
  }

  lemma DifferInQuotes(head: string)
    requires Heading(head)
    ensures SameText(head + "\"(\"(b)", head + "[(](b)")
  {
    var x, y := Quoted("(", Double), Quoted("(", Bracket);
    assert x + "(b)" == "\"(\"(b)" && y + "(b)" == "[(](b)";
    assert Writable("(", Double, Bracket);
    Unquoted(head);
    hide SameText, Quoted, EndMode, Writable, Heading;
    QuotingIsLayout(head, "(", Double, Bracket, "(b)");
    Associate(head, x, "(b)");
    Associate(head, y, "(b)");
  }

  // A ( inside a quoted table name is taken for the one that opens the body.
  lemma QuotedParenthesis(head: string, s: string, t: string)
    requires Heading(head) && s == head + "\"(\"(b)" && t == head + "[(](b)"
    ensures SameText(s, t) && Canonical(true, 1, s) != Canonical(true, 1, t) && !(VIRTUAL <= Norm(s, Bare))
  {
    assert Statement(head + "\"", "\"(b", "") == s && Statement(head + "[", "](b", "") == t;
    hide *;
    DifferInQuotes(head);
    InsideDouble();
    InsideBracket();
    OneColumn(head, "\"", "\"(b");
    OneColumn(head, "[", "](b");
    SecondDiffers(Norm(head, Bare), "(b", "](b");
  }

  lemma SecondDiffers(n: string, a: string, b: string)
    requires a != "" && b != "" && a[0] != b[0]
    ensures n + "(" + a + ")" != n + "(" + b + ")"
  {
    assert (n + "(" + a + ")")[|n| + 1] == a[0] && (n + "(" + b + ")")[|n| + 1] == b[0];
  }

  /** With a ( inside a quoted table name it does matter which quotes those are. */
  lemma QuotedParenthesisMisleads()
    ensures
      var s, t := "CREATE TABLE " + "\"(\"(b)", "CREATE TABLE " + "[(](b)";
      SameText(s, t) && !Steady(s) && Canonical(true, 1, s) != Canonical(true, 1, t)
  {
    var head := "CREATE TABLE ";
    var s, t := head + "\"(\"(b)", head + "[(](b)";
    assert Heading(head);
    hide *;
    QuotedParenthesis(head, s, t);
    if Steady(s) {
      LayoutIsIgnored(true, 1, s, t);
    }
  }
}
