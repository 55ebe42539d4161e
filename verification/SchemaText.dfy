/**
 The two quote-tracking scanners of the schema bridge: one normalizes SQL text, the other splits
 the body of a table statement into its top-level components.

 Both loops look one character ahead inside string literals. Both are proved equal to the same
 five-mode automaton that never looks ahead. Letters and white space are the ASCII ones.
 */
module SchemaText {
  import opened Common

  /* ---- The automaton ---- */

  // Outside quotes, inside '...', "...", `...` or [...].
  datatype Mode = Bare | Literal | Double | Back | Bracket

  // The characters that open a quote.
  predicate Opens(c: char) {
    c == '\'' || c == '"' || c == '`' || c == '['
  }

  function Opened(c: char): Mode {
    if c == '\'' then Literal else if c == '"' then Double else if c == '`' then Back
    else if c == '[' then Bracket else Bare
  }

  function Closer(q: Mode): char
    requires q != Bare
  {
    match q case Literal => '\'' case Double => '"' case Back => '`' case Bracket => ']'
  }

  function Next(q: Mode, c: char): Mode {
    if q == Bare then Opened(c) else if c == Closer(q) then Bare else q
  }

  // What one character contributes to the normalized text.
  function Emit(q: Mode, c: char): string {
    if q == Literal then [c]
    else if q == Bare && c == '\'' then [c]
    else if (q == Bare && Opens(c)) || (q != Bare && c == Closer(q)) || IsSpace(c) then ""
    else [Lower(c)]
  }

  function EndMode(s: string, q: Mode): Mode {
    if s == "" then q else EndMode(s[1..], Next(q, s[0]))
  }

  function Norm(s: string, q: Mode): string {
    if s == "" then "" else Emit(q, s[0]) + Norm(s[1..], Next(q, s[0]))
  }

  // ( and ) outside quotes move the depth.
  function Depth(q: Mode, c: char, depth: int): int {
    if q != Bare then depth else if c == '(' then depth + 1 else if c == ')' then depth - 1 else depth
  }

  predicate Splits(q: Mode, c: char, depth: int) {
    q == Bare && c == ',' && depth == 0
  }

  // current is the part of the component already read.
  function SplitFrom(s: string, q: Mode, depth: int, current: string): (parts: seq<string>)
    ensures parts != []
    decreases |s|
  {
    if s == "" then [current]
    else if Splits(q, s[0], depth) then [current] + SplitFrom(s[1..], Bare, 0, "")
    else SplitFrom(s[1..], Next(q, s[0]), Depth(q, s[0], depth), current + [s[0]])
  }

  function Split(body: string): seq<string> {
    SplitFrom(body, Bare, 0, "")
  }

  /* ---- The loops ---- */

  method NormalizeSchemaSql(statement: string) returns (output: string)
    ensures output == Norm(statement, Bare)
  {
    output := "";
    var quote, index := Bare, 0;
    while index < |statement|
      invariant 0 <= index <= |statement|
      invariant output == Norm(statement[..index], Bare)
      invariant quote == EndMode(statement[..index], Bare)
    {
      hide Norm, EndMode;
      var c := statement[index];
      Extend(statement, index);
      if quote == Literal {
        output := output + [c];
        if c == '\'' {
          if index + 1 < |statement| && statement[index + 1] == '\'' {
            Extend(statement, index + 1);
            output := output + "'";
            index := index + 1;
          } else {
            quote := Bare;
          }
        }
      } else if quote != Bare {
        if c == Closer(quote) {
          quote := Bare;
        } else if !IsSpace(c) {
          output := output + [Lower(c)];
        }
      } else if c == '\'' {
        quote := Literal;
        output := output + [c];
      } else if c == '"' {
        quote := Double;
      } else if c == '`' {
        quote := Back;
      } else if c == '[' {
        quote := Bracket;
      } else if !IsSpace(c) {
        output := output + [Lower(c)];
      }
      index := index + 1;
    }
    assert statement[..index] == statement;
  }

  // One more character, by the automaton.
  lemma Extend(s: string, i: nat)
    requires i < |s|
    ensures Norm(s[..i + 1], Bare) == Norm(s[..i], Bare) + Emit(EndMode(s[..i], Bare), s[i])
    ensures EndMode(s[..i + 1], Bare) == Next(EndMode(s[..i], Bare), s[i])
  {
    assert s[..i + 1] == s[..i] + [s[i]];
    NormJoins(s[..i], [s[i]], Bare);
    Single(s[i], EndMode(s[..i], Bare));
  }

  method SplitTableComponents(body: string) returns (components: seq<string>)
    ensures components == Split(body)
  {
    components := [];
    var current, depth, quote, index := "", 0, Bare, 0;
    while index < |body|
      invariant 0 <= index <= |body|
      invariant components + SplitFrom(body[index..], quote, depth, current) == Split(body)
    {
      var c := body[index];
      UnrollSplit(body, index, quote, depth, current);
      if quote == Literal {
        if c == '\'' {
          if index + 1 < |body| && body[index + 1] == '\'' {
            UnrollSplit(body, index + 1, Bare, depth, current + [c]);
            current := current + [c];
            index := index + 1;
          } else {
            quote := Bare;
          }
        }
        current := current + [c];
      } else if quote != Bare {
        current := current + [c];
        if c == Closer(quote) {
          quote := Bare;
        }
      } else if c == '\'' || c == '"' || c == '`' {
        quote := if c == '\'' then Literal else if c == '"' then Double else Back;
        current := current + [c];
      } else if c == '[' {
        quote := Bracket;
        current := current + [c];
      } else if c == '(' {
        depth := depth + 1;
        current := current + [c];
      } else if c == ')' {
        depth := depth - 1;
        current := current + [c];
      } else if c == ',' && depth == 0 {
        components := components + [current];
        current := "";
      } else {
        current := current + [c];
      }
      index := index + 1;
    }
    components := components + [current];
  }

  lemma UnrollSplit(s: string, i: nat, q: Mode, depth: int, current: string)
    requires i < |s|
    ensures SplitFrom(s[i..], q, depth, current) ==
      if Splits(q, s[i], depth) then [current] + SplitFrom(s[i + 1..], Bare, 0, "")
      else SplitFrom(s[i + 1..], Next(q, s[i]), Depth(q, s[i], depth), current + [s[i]])
  {
    assert s[i..][1..] == s[i + 1..];
  }

  /* ---- Composition ---- */

  lemma {:induction false} NormJoins(a: string, b: string, q: Mode)
    ensures Norm(a + b, q) == Norm(a, q) + Norm(b, EndMode(a, q))
    ensures EndMode(a + b, q) == EndMode(b, EndMode(a, q))
  {
    if a == "" {
      assert a + b == b;
    } else {
      Unfold(a, q);
      Unfold(a + b, q);
      hide Emit, Next, Norm, EndMode;
      assert (a + b)[0] == a[0] && (a + b)[1..] == a[1..] + b;
      NormJoins(a[1..], b, Next(q, a[0]));
      Associate(Emit(q, a[0]), Norm(a[1..], Next(q, a[0])), Norm(b, EndMode(a, q)));
    }
  }

  lemma Unfold(s: string, q: Mode)
    requires s != ""
    ensures Norm(s, q) == Emit(q, s[0]) + Norm(s[1..], Next(q, s[0]))
    ensures EndMode(s, q) == EndMode(s[1..], Next(q, s[0]))
  {
    hide Emit, Next;
  }

  lemma Associate(a: string, b: string, c: string)
    ensures (a + b) + c == a + (b + c)
  {}

  lemma Comma(s: string)
    requires s != "" && s[0] == ','
    ensures Norm(s, Bare) == "," + Norm(s[1..], Bare)
  {}

  lemma Single(c: char, q: Mode)
    ensures Norm([c], q) == Emit(q, c) && EndMode([c], q) == Next(q, c)
  {
    assert [c][1..] == "";
  }

  function JoinComma(parts: seq<string>): string {
    if parts == [] then "" else if |parts| == 1 then parts[0] else parts[0] + "," + JoinComma(parts[1..])
  }

  function NormEach(parts: seq<string>): (r: seq<string>)
    ensures |r| == |parts| && forall i :: 0 <= i < |r| ==> r[i] == Norm(parts[i], Bare)
  {
    seq(|parts|, i requires 0 <= i < |parts| => Norm(parts[i], Bare))
  }

  lemma JoinHead(head: string, parts: seq<string>)
    requires parts != []
    ensures JoinComma([head] + parts) == head + "," + JoinComma(parts)
  {
    assert ([head] + parts)[1..] == parts;
  }

  lemma {:induction false} SplitFromJoins(s: string, q: Mode, depth: int, current: string)
    ensures JoinComma(SplitFrom(s, q, depth, current)) == current + s
    decreases |s|
  {
    if s != "" {
      if Splits(q, s[0], depth) {
        SplitFromJoins(s[1..], Bare, 0, "");
        JoinHead(current, SplitFrom(s[1..], Bare, 0, ""));
        assert current + s == current + "," + s[1..];
      } else {
        SplitFromJoins(s[1..], Next(q, s[0]), Depth(q, s[0], depth), current + [s[0]]);
        assert current + s == (current + [s[0]]) + s[1..];
      }
    }
  }

  /** Joining the components with commas gives back the body, for every string. */
  lemma SplitThenJoin(body: string)
    ensures JoinComma(Split(body)) == body
  {
    SplitFromJoins(body, Bare, 0, "");
  }

  // What the scanners agree on, from any point of the text.
  predicate Agree(s: string, q: Mode, depth: int, current: string) {
    JoinComma(NormEach(SplitFrom(s, q, depth, current))) == Norm(current, Bare) + Norm(s, q)
  }

  lemma EndAgrees(q: Mode, depth: int, current: string)
    ensures Agree("", q, depth, current)
  {
    assert NormEach([current]) == [Norm(current, Bare)];
  }

  lemma SplitAgrees(s: string, q: Mode, depth: int, current: string)
    requires s != "" && Splits(q, s[0], depth) && Agree(s[1..], Bare, 0, "")
    ensures Agree(s, q, depth, current)
  {
    var rest := SplitFrom(s[1..], Bare, 0, "");
    assert NormEach([current] + rest) == [Norm(current, Bare)] + NormEach(rest);
    JoinHead(Norm(current, Bare), NormEach(rest));
    Comma(s);
    Associate(Norm(current, Bare), ",", Norm(s[1..], Bare));
  }

  lemma CharAgrees(s: string, q: Mode, depth: int, current: string)
    requires s != "" && !Splits(q, s[0], depth) && EndMode(current, Bare) == q
    requires Agree(s[1..], Next(q, s[0]), Depth(q, s[0], depth), current + [s[0]])
    ensures Agree(s, q, depth, current)
  {
    assert SplitFrom(s, q, depth, current)
        == SplitFrom(s[1..], Next(q, s[0]), Depth(q, s[0], depth), current + [s[0]]);
    hide Splits, SplitFrom, NormEach, JoinComma;
    CharMoves(s, q, current);
  }

  // The text of a component and what follows it: one character moves from the one to the other.
  lemma CharMoves(s: string, q: Mode, current: string)
    requires s != "" && EndMode(current, Bare) == q
    ensures EndMode(current + [s[0]], Bare) == Next(q, s[0])
    ensures Norm(current + [s[0]], Bare) + Norm(s[1..], Next(q, s[0])) == Norm(current, Bare) + Norm(s, q)
  {
    hide Emit, Next, Norm, EndMode;
    NormJoins(current, [s[0]], Bare);
    Single(s[0], q);
    Unfold(s, q);
    Associate(Norm(current, Bare), Emit(q, s[0]), Norm(s[1..], Next(q, s[0])));
  }

  lemma {:induction false} ScannersAgreeFrom(s: string, q: Mode, depth: int, current: string)
    requires EndMode(current, Bare) == q
    ensures Agree(s, q, depth, current)
    decreases |s|
  {
    hide Agree, Splits, Next, Depth;
    if s == "" {
      EndAgrees(q, depth, current);
    } else if Splits(q, s[0], depth) {
      ScannersAgreeFrom(s[1..], Bare, 0, "");
      SplitAgrees(s, q, depth, current);
    } else {
      CharMoves(s, q, current);
      ScannersAgreeFrom(s[1..], Next(q, s[0]), Depth(q, s[0], depth), current + [s[0]]);
      CharAgrees(s, q, depth, current);
    }
  }

  /** Normalizing a body is normalizing its components one by one: the scanners see the same quotes. */
  lemma ScannersAgree(body: string)
    ensures Norm(body, Bare) == JoinComma(NormEach(Split(body)))
  {
    ScannersAgreeFrom(body, Bare, 0, "");
  }

  // The depth at which a text ends.
  function EndDepth(s: string, q: Mode, depth: int): int {
    if s == "" then depth else EndDepth(s[1..], Next(q, s[0]), Depth(q, s[0], depth))
  }

  // No comma of s splits.
  predicate Whole(s: string, q: Mode, depth: int) {
    s == "" || (!Splits(q, s[0], depth) && Whole(s[1..], Next(q, s[0]), Depth(q, s[0], depth)))
  }

  // A component that can stand anywhere in a list: whole, balanced and with its quotes closed.
  predicate Closed(part: string) {
    Whole(part, Bare, 0) && EndMode(part, Bare) == Bare && EndDepth(part, Bare, 0) == 0
  }

  lemma {:induction false} WholeJoins(a: string, b: string, q: Mode, depth: int)
    ensures Whole(a + b, q, depth) <==> Whole(a, q, depth) && Whole(b, EndMode(a, q), EndDepth(a, q, depth))
    ensures EndDepth(a + b, q, depth) == EndDepth(b, EndMode(a, q), EndDepth(a, q, depth))
  {
    if a == "" {
      assert a + b == b;
    } else {
      WholeJoins(a[1..], b, Next(q, a[0]), Depth(q, a[0], depth));
      assert (a + b)[1..] == a[1..] + b;
    }
  }

  // A component grows by any character that is not a split point.
  lemma GrowsWhole(c: char, q: Mode, depth: int, current: string)
    requires EndMode(current, Bare) == q && EndDepth(current, Bare, 0) == depth && Whole(current, Bare, 0)
    requires !Splits(q, c, depth)
    ensures EndMode(current + [c], Bare) == Next(q, c) && EndDepth(current + [c], Bare, 0) == Depth(q, c, depth)
    ensures Whole(current + [c], Bare, 0)
  {
    NormJoins(current, [c], Bare);
    WholeJoins(current, [c], Bare, 0);
    assert [c][1..] == "";
  }

  lemma {:induction false} SplitFromIsFinest(s: string, q: Mode, depth: int, current: string)
    requires EndMode(current, Bare) == q && EndDepth(current, Bare, 0) == depth && Whole(current, Bare, 0)
    ensures
      var parts := SplitFrom(s, q, depth, current);
      && (forall k :: 0 <= k < |parts| - 1 ==> Closed(parts[k]))
      && Whole(parts[|parts| - 1], Bare, 0)
    decreases |s|
  {
    if s != "" {
      if Splits(q, s[0], depth) {
        SplitFromIsFinest(s[1..], Bare, 0, "");
        var rest := SplitFrom(s[1..], Bare, 0, "");
        assert forall k :: 0 < k < |rest| ==> ([current] + rest)[k] == rest[k - 1];
      } else {
        GrowsWhole(s[0], q, depth, current);
        hide EndMode, EndDepth, Whole;
        SplitFromIsFinest(s[1..], Next(q, s[0]), Depth(q, s[0], depth), current + [s[0]]);
      }
    }
  }

  /**
   Every split point lies outside quotes and parentheses, and no component could be split further.
   */
  lemma SplitIsFinest(body: string)
    ensures
      var parts := Split(body);
      && (forall k :: 0 <= k < |parts| - 1 ==> Closed(parts[k]))
      && Whole(parts[|parts| - 1], Bare, 0)
  {
    SplitFromIsFinest(body, Bare, 0, "");
  }

  lemma {:induction false} WholeIsOnePart(s: string, q: Mode, depth: int, current: string)
    requires Whole(s, q, depth)
    ensures SplitFrom(s, q, depth, current) == [current + s]
    decreases |s|
  {
    if s == "" {
      assert current + s == current;
    } else {
      WholeIsOnePart(s[1..], Next(q, s[0]), Depth(q, s[0], depth), current + [s[0]]);
      assert (current + [s[0]]) + s[1..] == current + s;
    }
  }

  lemma {:induction false} ClosedPartSplitsOff(s: string, q: Mode, depth: int, current: string, rest: string)
    requires Whole(s, q, depth) && EndMode(s, q) == Bare && EndDepth(s, q, depth) == 0
    ensures SplitFrom(s + "," + rest, q, depth, current) == [current + s] + SplitFrom(rest, Bare, 0, "")
    decreases |s|
  {
    var all := s + "," + rest;
    if s == "" {
      assert all[0] == ',' && all[1..] == rest;
      assert current + s == current;
    } else {
      ClosedPartSplitsOff(s[1..], Next(q, s[0]), Depth(q, s[0], depth), current + [s[0]], rest);
      assert all[0] == s[0] && all[1..] == s[1..] + "," + rest;
      assert (current + [s[0]]) + s[1..] == current + s;
    }
  }

  /** The other round trip: closed components joined with commas split back into themselves. */
  lemma {:induction false} JoinThenSplit(parts: seq<string>)
    requires parts != []
    requires forall k :: 0 <= k < |parts| - 1 ==> Closed(parts[k])
    requires Whole(parts[|parts| - 1], Bare, 0)
    ensures Split(JoinComma(parts)) == parts
    decreases |parts|
  {
    if |parts| == 1 {
      WholeIsOnePart(parts[0], Bare, 0, "");
      assert "" + parts[0] == parts[0] && parts == [parts[0]];
    } else {
      JoinThenSplit(parts[1..]);
      ClosedPartSplitsOff(parts[0], Bare, 0, "", JoinComma(parts[1..]));
      assert "" + parts[0] == parts[0];
      assert JoinComma(parts) == parts[0] + "," + JoinComma(parts[1..]);
      assert Split(JoinComma(parts)) == [parts[0]] + Split(JoinComma(parts[1..]));
      assert parts == [parts[0]] + parts[1..];
    }
  }
}
