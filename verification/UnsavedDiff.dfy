/** The word comparison of src/renderer/unsaved-diff.ts. */
module UnsavedDiff {
  import opened Text

  const MAX_WORD_CELLS: nat := 250_000

  datatype Op = Same | Removed | Added

  datatype Piece = Piece(op: Op, text: string)

  type Uint32 = x: int | 0 <= x < 0x1_0000_0000

  // --- The splitters ---

  predicate IsWordChar(c: char)
  {
    'A' <= c <= 'Z' || 'a' <= c <= 'z' || '0' <= c <= '9' || c == '_' || '\U{c0}' <= c <= '\U{24f}'
  }

  function TokenLength(s: string): (n: nat)
    requires s != ""
    ensures 1 <= n <= |s|
  {
    if IsSpace(s[0]) then Span(IsSpace, s) else if IsWordChar(s[0]) then Span(IsWordChar, s) else 1
  }

  /** The matches of TOKEN: a run of space, a run of word characters, or one character. */
  function Tokens(s: string): (r: seq<string>)
    ensures Concat(r) == s && NoEmpty(r)
  {
    if s == "" then [] else [s[..TokenLength(s)]] + Tokens(s[TokenLength(s)..])
  }

  /** The matches of LINE: each line with its own line break. */
  function Lines(s: string): (r: seq<string>)
    ensures Concat(r) == s && NoEmpty(r)
    ensures s != "" ==> r != []
  {
    if s == "" then []
    else
      var body := Span(c => c != '\n', s);
      var n := if body < |s| then body + 1 else body;
      [s[..n]] + Lines(s[n..])
  }

  predicate NoEmpty(ts: seq<string>) { forall i :: 0 <= i < |ts| ==> ts[i] != "" }

  // --- What the splitters give, and nothing else does ---

  predicate AllSpace(t: string) { t != "" && forall i :: 0 <= i < |t| ==> IsSpace(t[i]) }

  predicate AllWord(t: string) { t != "" && forall i :: 0 <= i < |t| ==> IsWordChar(t[i]) }

  predicate OneOther(t: string) { |t| == 1 && !IsSpace(t[0]) && !IsWordChar(t[0]) }

  /** Each token is space, a word or one other character, and runs are never broken. */
  predicate Tokenised(ts: seq<string>)
  {
    (forall i :: 0 <= i < |ts| ==> AllSpace(ts[i]) || AllWord(ts[i]) || OneOther(ts[i]))
    && (forall i :: 0 < i < |ts| ==> !(AllSpace(ts[i - 1]) && AllSpace(ts[i])) && !(AllWord(ts[i - 1]) && AllWord(ts[i])))
  }

  lemma SpaceIsNoWord(c: char)
    ensures !(IsSpace(c) && IsWordChar(c))
  {
  }

  lemma TokenisedRest(ts: seq<string>)
    requires Tokenised(ts) && ts != []
    ensures Tokenised(ts[1..])
  {
    var rest := ts[1..];
    forall i | 0 < i < |rest| ensures !(AllSpace(rest[i - 1]) && AllSpace(rest[i])) && !(AllWord(rest[i - 1]) && AllWord(rest[i])) {
      var j := i + 1;
      assert rest[i] == ts[j] && rest[i - 1] == ts[j - 1];
    }
  }

  lemma TokenisedCons(t: string, rest: seq<string>)
    requires Tokenised(rest) && (AllSpace(t) || AllWord(t) || OneOther(t))
    requires rest != [] ==> !(AllSpace(t) && AllSpace(rest[0])) && !(AllWord(t) && AllWord(rest[0]))
    ensures Tokenised([t] + rest)
  {
    hide AllSpace, AllWord, OneOther;
    var ts := [t] + rest;
    forall i | 0 < i < |ts| ensures !(AllSpace(ts[i - 1]) && AllSpace(ts[i])) && !(AllWord(ts[i - 1]) && AllWord(ts[i])) {
      if i > 1 { var j := i - 1; assert ts[i] == rest[j] && ts[i - 1] == rest[j - 1]; }
    }
  }

  /** The first token takes all of its run. */
  lemma TokenTakes(s: string)
    requires s != ""
    ensures var n := TokenLength(s); var t := s[..n];
            (AllSpace(t) || AllWord(t) || OneOther(t))
            && (n < |s| ==> !(AllSpace(t) && IsSpace(s[n])) && !(AllWord(t) && IsWordChar(s[n])))
  {
    SpaceIsNoWord(s[0]);
  }

  lemma FirstOfTokens(s: string)
    requires s != ""
    ensures Tokens(s) != [] && Tokens(s)[0] != "" && Tokens(s)[0][0] == s[0]
  {
  }

  lemma {:induction false} TokensTokenised(s: string)
    ensures Tokenised(Tokens(s))
  {
    hide IsSpace, IsWordChar;
    if s != "" {
      var n := TokenLength(s);
      TokenTakes(s);
      TokensTokenised(s[n..]);
      if n < |s| { FirstOfTokens(s[n..]); }
      TokenisedCons(s[..n], Tokens(s[n..]));
    }
  }

  lemma SpanIs(p: char -> bool, s: string, n: nat)
    requires n <= |s| && (forall i :: 0 <= i < n ==> p(s[i])) && (n < |s| ==> !p(s[n]))
    ensures Span(p, s) == n
  {
  }

  lemma TokenLengthIs(t: string, rest: string)
    requires AllSpace(t) || AllWord(t) || OneOther(t)
    requires rest != "" ==> !(AllSpace(t) && IsSpace(rest[0])) && !(AllWord(t) && IsWordChar(rest[0]))
    ensures TokenLength(t + rest) == |t|
  {
    var s := t + rest;
    SpaceIsNoWord(s[0]);
    if AllSpace(t) { SpanIs(IsSpace, s, |t|); } else if AllWord(t) { SpanIs(IsWordChar, s, |t|); }
  }

  lemma {:induction false} TokensOnly(ts: seq<string>)
    requires Tokenised(ts)
    ensures Tokens(Concat(ts)) == ts
  {
    hide IsSpace, IsWordChar;
    if ts != [] {
      var t, rest := ts[0], Concat(ts[1..]);
      TokenisedRest(ts);
      TokensOnly(ts[1..]);
      if |ts| > 1 { StartsWithToken(ts); }
      TokenLengthIs(t, rest);
      assert (t + rest)[..|t|] == t && (t + rest)[|t|..] == rest;
    }
  }

  lemma StartsWithToken(ts: seq<string>)
    requires Tokenised(ts) && |ts| > 1
    ensures var rest := Concat(ts[1..]);
            rest != "" && !(AllSpace(ts[0]) && IsSpace(rest[0])) && !(AllWord(ts[0]) && IsWordChar(rest[0]))
  {
    assert Concat(ts[1..])[0] == ts[1][0];
    SpaceIsNoWord(ts[1][0]);
    assert !(AllSpace(ts[0]) && AllSpace(ts[1])) && !(AllWord(ts[0]) && AllWord(ts[1])) by { var i := 1; assert ts[i - 1] == ts[0]; }
  }

  /** The words and runs of space of a text are the one way to cut it into whole words,
      whole runs of space and single other characters. */
  lemma TokensExactly(s: string, ts: seq<string>)
    ensures ts == Tokens(s) <==> Concat(ts) == s && Tokenised(ts)
  {
    TokensTokenised(s);
    if Concat(ts) == s && Tokenised(ts) { TokensOnly(ts); }
  }

  /** No line holds a line break but at its end, and every line but the last does so. */
  predicate Lined(ls: seq<string>)
  {
    forall i :: 0 <= i < |ls| ==> OneLine(ls[i]) && (i < |ls| - 1 ==> Ended(ls[i]))
  }

  predicate OneLine(l: string) { l != "" && forall k :: 0 <= k < |l| - 1 ==> l[k] != '\n' }

  predicate Ended(l: string) { l != "" && l[|l| - 1] == '\n' }

  lemma {:induction false} LinesLined(s: string)
    ensures Lined(Lines(s))
  {
    if s != "" {
      var body := Span(c => c != '\n', s);
      var n := if body < |s| then body + 1 else body;
      LinesLined(s[n..]);
      assert OneLine(s[..n]) && (n < |s| ==> Ended(s[..n]));
    }
  }

  lemma {:induction false} LinesOnly(ls: seq<string>)
    requires Lined(ls)
    ensures Lines(Concat(ls)) == ls
  {
    if ls != [] {
      var l, rest, s := ls[0], Concat(ls[1..]), Concat(ls);
      forall i | 0 <= i < |ls[1..]| ensures OneLine(ls[1..][i]) && (i < |ls[1..]| - 1 ==> Ended(ls[1..][i])) { var j := i + 1; assert ls[1..][i] == ls[j]; }
      LinesOnly(ls[1..]);
      SpanIs(c => c != '\n', s, if Ended(l) then |l| - 1 else |l|);
      assert s[..|l|] == l && s[|l|..] == rest;
    }
  }

  /** The lines of a text are the one way to cut it behind every line break. */
  lemma LinesExactly(s: string, ls: seq<string>)
    ensures ls == Lines(s) <==> Concat(ls) == s && Lined(ls)
  {
    LinesLined(s);
    if Concat(ls) == s && Lined(ls) { LinesOnly(ls); }
  }

  // --- Longest common subsequences ---

  /** `c` can be got from `a` by leaving tokens out. */
  predicate Subsequence<T(==)>(c: seq<T>, a: seq<T>)
  {
    c == [] || (a != [] && ((c[0] == a[0] && Subsequence(c[1..], a[1..])) || Subsequence(c, a[1..])))
  }

  predicate Common<T(==)>(c: seq<T>, a: seq<T>, b: seq<T>) { Subsequence(c, a) && Subsequence(c, b) }

  ghost predicate Longest<T(!new)>(c: seq<T>, a: seq<T>, b: seq<T>)
  {
    Common(c, a, b) && forall d: seq<T> :: Common(d, a, b) ==> |d| <= |c|
  }

  /** The entry of the table for the suffixes `a` and `b`. */
  function Table(a: seq<string>, b: seq<string>): (n: nat)
    ensures n <= |a| && n <= |b|
    decreases |a| + |b|
  {
    if a == [] || b == [] then 0
    else if a[0] == b[0] then Table(a[1..], b[1..]) + 1
    else Max(Table(a[1..], b), Table(a, b[1..]))
  }

  function Max(x: nat, y: nat): nat { if x >= y then x else y }

  lemma {:induction false} Skip<T>(c: seq<T>, a: seq<T>)
    requires a != [] && Subsequence(c, a) && (c == [] || c[0] != a[0])
    ensures Subsequence(c, a[1..])
  {
  }

  lemma {:induction false} DropHead<T>(c: seq<T>, a: seq<T>)
    requires c != [] && Subsequence(c, a)
    ensures Subsequence(c[1..], a)
    decreases |a|
  {
    if !Subsequence(c[1..], a[1..]) {
      DropHead(c, a[1..]);
    }
  }

  lemma {:induction false} DropHeads<T>(c: seq<T>, a: seq<T>)
    requires c != [] && a != [] && Subsequence(c, a)
    ensures Subsequence(c[1..], a[1..])
    decreases |a|
  {
    if Subsequence(c, a[1..]) {
      DropHead(c, a[1..]);
    }
  }

  /** No common subsequence is longer than the table says. */
  lemma {:induction false} TableBounds(c: seq<string>, a: seq<string>, b: seq<string>)
    requires Common(c, a, b)
    ensures |c| <= Table(a, b)
    decreases |a| + |b|
  {
    if c == [] {
    } else if a[0] == b[0] {
      DropHeads(c, a);
      DropHeads(c, b);
      TableBounds(c[1..], a[1..], b[1..]);
    } else if c[0] != a[0] {
      Skip(c, a);
      TableBounds(c, a[1..], b);
    } else {
      Skip(c, b);
      TableBounds(c, a, b[1..]);
    }
  }

  // --- The walk over the table ---

  /** The edits the walk reads off the table, one token each. */
  function Walk(a: seq<string>, b: seq<string>): seq<Piece>
    decreases |a| + |b|
  {
    if a == [] && b == [] then []
    else if a != [] && b != [] && a[0] == b[0] then [Piece(Same, a[0])] + Walk(a[1..], b[1..])
    else if a != [] && (b == [] || Table(a[1..], b) >= Table(a, b[1..])) then
      [Piece(Removed, a[0])] + Walk(a[1..], b)
    else [Piece(Added, b[0])] + Walk(a, b[1..])
  }

  /** The texts of the edits with one operation. */
  function Texts(script: seq<Piece>, op: Op): seq<string>
  {
    if script == [] then []
    else if script[0].op == op then [script[0].text] + Texts(script[1..], op)
    else Texts(script[1..], op)
  }

  /** The texts of the edits without one operation: without Added the old side,
      without Removed the new one. */
  function Without(script: seq<Piece>, op: Op): seq<string>
  {
    if script == [] then []
    else if script[0].op != op then [script[0].text] + Without(script[1..], op)
    else Without(script[1..], op)
  }

  lemma {:induction false} WalkKeepsTable(a: seq<string>, b: seq<string>)
    ensures Common(Texts(Walk(a, b), Same), a, b)
    ensures |Texts(Walk(a, b), Same)| == Table(a, b)
    decreases |a| + |b|
  {
    if a == [] && b == [] {
    } else {
      var rest := Walk(a, b)[1..];
      if a != [] && b != [] && a[0] == b[0] {
        WalkKeepsTable(a[1..], b[1..]);
        assert rest == Walk(a[1..], b[1..]);
      } else if a != [] && (b == [] || Table(a[1..], b) >= Table(a, b[1..])) {
        WalkKeepsTable(a[1..], b);
        assert rest == Walk(a[1..], b);
        Widen(Texts(rest, Same), a);
      } else {
        WalkKeepsTable(a, b[1..]);
        assert rest == Walk(a, b[1..]);
        Widen(Texts(rest, Same), b);
      }
    }
  }

  lemma Widen<T>(c: seq<T>, a: seq<T>)
    requires a != [] && Subsequence(c, a[1..])
    ensures Subsequence(c, a)
  {
  }

  /** The walk keeps a longest common subsequence. */
  lemma WalkKeepsLongest(a: seq<string>, b: seq<string>)
    ensures Longest(Texts(Walk(a, b), Same), a, b)
  {
    WalkKeepsTable(a, b);
    forall c: seq<string> | Common(c, a, b) ensures |c| <= Table(a, b) {
      TableBounds(c, a, b);
    }
  }

  /** Dropping a token never makes the entry larger. */
  lemma TableMonotone(a: seq<string>, b: seq<string>)
    ensures a != [] ==> Table(a[1..], b) <= Table(a, b)
    ensures b != [] ==> Table(a, b[1..]) <= Table(a, b)
  {
    if a != [] {
      WalkKeepsTable(a[1..], b);
      Widen(Texts(Walk(a[1..], b), Same), a);
      TableBounds(Texts(Walk(a[1..], b), Same), a, b);
    }
    if b != [] {
      WalkKeepsTable(a, b[1..]);
      Widen(Texts(Walk(a, b[1..]), Same), b);
      TableBounds(Texts(Walk(a, b[1..]), Same), a, b);
    }
  }

  lemma WithoutCons(p: Piece, rest: seq<Piece>, op: Op)
    ensures Without([p] + rest, op) == (if p.op != op then [p.text] else []) + Without(rest, op)
  {
    assert ([p] + rest)[1..] == rest;
  }

  /** One edit more, on whichever sides it is. */
  lemma SidesCons(p: Piece, walk: seq<Piece>, a: seq<string>, b: seq<string>)
    requires Without(walk, Added) == a && Without(walk, Removed) == b
    ensures Without([p] + walk, Added) == (if p.op != Added then [p.text] else []) + a
    ensures Without([p] + walk, Removed) == (if p.op != Removed then [p.text] else []) + b
  {
    hide Without;
    WithoutCons(p, walk, Added);
    WithoutCons(p, walk, Removed);
  }

  lemma {:induction false} WalkSides(a: seq<string>, b: seq<string>)
    ensures Without(Walk(a, b), Added) == a && Without(Walk(a, b), Removed) == b
    decreases |a| + |b|
  {
    hide Table, Without;
    if a == [] && b == [] {
      NothingWithout();
    } else if a != [] && b != [] && a[0] == b[0] {
      WalkSides(a[1..], b[1..]);
      SidesCons(Piece(Same, a[0]), Walk(a[1..], b[1..]), a[1..], b[1..]);
    } else if a != [] && (b == [] || Table(a[1..], b) >= Table(a, b[1..])) {
      WalkSides(a[1..], b);
      SidesCons(Piece(Removed, a[0]), Walk(a[1..], b), a[1..], b);
      assert [] + b == b;
    } else {
      WalkSides(a, b[1..]);
      SidesCons(Piece(Added, b[0]), Walk(a, b[1..]), a, b[1..]);
      assert [] + a == a;
    }
  }

  lemma NothingWithout()
    ensures forall op :: Without([], op) == []
  {
  }

  // --- The tie rule ---

  /** No addition stands directly before a removal. */
  predicate RemovalsFirst(script: seq<Piece>)
  {
    forall k :: 0 <= k < |script| - 1 && script[k].op == Added ==> script[k + 1].op != Removed
  }

  /** After the walk adds a token, it does not remove one next. */
  lemma AddedThenNotRemoved(a: seq<string>, b: seq<string>)
    requires b != [] && Walk(a, b)[0].op == Added
    ensures Walk(a, b[1..]) != [] ==> Walk(a, b[1..])[0].op != Removed
  {
    if a != [] && b[1..] != [] && a[0] != b[1] {
      TableMonotone(a[1..], b);
    }
  }

  lemma {:induction false} WalkRemovesFirst(a: seq<string>, b: seq<string>)
    ensures RemovalsFirst(Walk(a, b))
    decreases |a| + |b|
  {
    if a == [] && b == [] {
    } else if a != [] && b != [] && a[0] == b[0] {
      WalkRemovesFirst(a[1..], b[1..]);
    } else if a != [] && (b == [] || Table(a[1..], b) >= Table(a, b[1..])) {
      WalkRemovesFirst(a[1..], b);
    } else {
      WalkRemovesFirst(a, b[1..]);
      AddedThenNotRemoved(a, b);
    }
  }

  // --- Merging neighbours ---

  function MergeOne(pieces: seq<Piece>, op: Op, text: string): seq<Piece>
  {
    if text == "" then pieces
    else if pieces != [] && pieces[|pieces| - 1].op == op then
      pieces[|pieces| - 1 := Piece(op, pieces[|pieces| - 1].text + text)]
    else pieces + [Piece(op, text)]
  }

  function MergeAll(pieces: seq<Piece>, script: seq<Piece>): seq<Piece>
    decreases |script|
  {
    if script == [] then pieces
    else MergeAll(MergeOne(pieces, script[0].op, script[0].text), script[1..])
  }

  /** What merge keeps of a list it has built: no empty piece, no two neighbours alike. */
  predicate Tidy(pieces: seq<Piece>)
  {
    (forall i :: 0 <= i < |pieces| ==> pieces[i].text != "")
    && forall k :: 0 <= k < |pieces| - 1 ==> pieces[k].op != pieces[k + 1].op
  }

  lemma {:induction false} MergeAllAppend(pieces: seq<Piece>, xs: seq<Piece>, ys: seq<Piece>)
    ensures MergeAll(pieces, xs + ys) == MergeAll(MergeAll(pieces, xs), ys)
    decreases |xs|
  {
    if xs == [] {
      assert xs + ys == ys;
    } else {
      assert (xs + ys)[1..] == xs[1..] + ys;
      MergeAllAppend(MergeOne(pieces, xs[0].op, xs[0].text), xs[1..], ys);
    }
  }

  lemma {:induction false} MergeAllTidy(pieces: seq<Piece>, script: seq<Piece>)
    requires Tidy(pieces)
    ensures Tidy(MergeAll(pieces, script))
    decreases |script|
  {
    if script != [] {
      MergeAllTidy(MergeOne(pieces, script[0].op, script[0].text), script[1..]);
    }
  }

  lemma {:induction false} WithoutAppend(xs: seq<Piece>, ys: seq<Piece>, op: Op)
    ensures Without(xs + ys, op) == Without(xs, op) + Without(ys, op)
  {
    if xs == [] {
      assert xs + ys == ys;
    } else {
      assert (xs + ys)[1..] == xs[1..] + ys;
      WithoutAppend(xs[1..], ys, op);
    }
  }

  /** The old text with `op` == Added, the new text with `op` == Removed. */
  function Side(script: seq<Piece>, op: Op): string { Concat(Without(script, op)) }

  lemma SideAppend(xs: seq<Piece>, ys: seq<Piece>, op: Op)
    ensures Side(xs + ys, op) == Side(xs, op) + Side(ys, op)
  {
    WithoutAppend(xs, ys, op);
    ConcatAppend(Without(xs, op), Without(ys, op));
  }

  lemma SideOne(p: Piece, op: Op)
    ensures Side([p], op) == if p.op == op then "" else p.text
  {
    assert [p][1..] == [] && Without([], op) == [];
    assert Concat([p.text]) == p.text + Concat([]);
  }

  lemma MergeOneSide(pieces: seq<Piece>, op: Op, text: string, without: Op)
    ensures Side(MergeOne(pieces, op, text), without) == Side(pieces, without) + Side([Piece(op, text)], without)
  {
    SideOne(Piece(op, text), without);
    if text == "" {
    } else if pieces != [] && pieces[|pieces| - 1].op == op {
      var front, last := pieces[..|pieces| - 1], pieces[|pieces| - 1];
      var joined := Piece(op, last.text + text);
      assert pieces == front + [last];
      assert MergeOne(pieces, op, text) == front + [joined];
      SideAppend(front, [last], without);
      SideAppend(front, [joined], without);
      SideOne(last, without);
      SideOne(joined, without);
    } else {
      SideAppend(pieces, [Piece(op, text)], without);
    }
  }

  lemma NoSide(op: Op)
    ensures Side([], op) == ""
  {
  }

  /** Merging changes neither text. */
  lemma {:induction false} MergeAllSide(pieces: seq<Piece>, script: seq<Piece>, without: Op)
    ensures Side(MergeAll(pieces, script), without) == Side(pieces, without) + Side(script, without)
    decreases |script|
  {
    hide MergeOne, Side;
    if script == [] {
      NoSide(without);
    } else {
      var p := script[0];
      assert script == [p] + script[1..];
      MergeOneSide(pieces, p.op, p.text, without);
      MergeAllSide(MergeOne(pieces, p.op, p.text), script[1..], without);
      SideAppend([p], script[1..], without);
    }
  }

  predicate NoEmptyText(script: seq<Piece>) { forall i :: 0 <= i < |script| ==> script[i].text != "" }

  lemma RestRemovesFirst(script: seq<Piece>)
    requires script != [] && RemovalsFirst(script)
    ensures RemovalsFirst(script[1..])
  {
    forall k | 0 <= k < |script| - 2 && script[1..][k].op == Added ensures script[1..][k + 1].op != Removed {
      assert script[k + 1].op == Added;
    }
  }

  /** Merging keeps removals before additions. */
  lemma {:induction false} MergeAllRemovesFirst(pieces: seq<Piece>, script: seq<Piece>)
    requires NoEmptyText(script) && RemovalsFirst(script) && RemovalsFirst(pieces)
    requires pieces != [] && script != [] && pieces[|pieces| - 1].op == Added ==> script[0].op != Removed
    ensures RemovalsFirst(MergeAll(pieces, script))
    decreases |script|
  {
    if script != [] {
      var p := script[0];
      var next := MergeOne(pieces, p.op, p.text);
      RestRemovesFirst(script);
      MergeAllRemovesFirst(next, script[1..]);
    }
  }

  // --- The whole comparison ---

  /** How many tokens are alike from position i on. */
  function AlikeAfter(a: seq<string>, b: seq<string>, i: nat): (n: nat)
    requires i <= |a| && i <= |b|
    ensures i + n <= |a| && i + n <= |b|
    decreases |a| - i
  {
    if i < |a| && i < |b| && a[i] == b[i] then 1 + AlikeAfter(a, b, i + 1) else 0
  }

  /** How many tokens are alike before the ends i and j, no further back than p. */
  function AlikeBefore(a: seq<string>, b: seq<string>, p: nat, i: nat, j: nat): (n: nat)
    requires p <= i <= |a| && p <= j <= |b|
    ensures p + n <= i && p + n <= j
  {
    if i > p && j > p && a[i - 1] == b[j - 1] then 1 + AlikeBefore(a, b, p, i - 1, j - 1) else 0
  }

  lemma {:induction false} AlikeAfterIsEqual(a: seq<string>, b: seq<string>, i: nat)
    requires i <= |a| && i <= |b|
    ensures a[i..i + AlikeAfter(a, b, i)] == b[i..i + AlikeAfter(a, b, i)]
    decreases |a| - i
  {
    if i < |a| && i < |b| && a[i] == b[i] {
      AlikeAfterIsEqual(a, b, i + 1);
      var e := i + AlikeAfter(a, b, i);
      assert a[i..e] == [a[i]] + a[i + 1..e] && b[i..e] == [b[i]] + b[i + 1..e];
    }
  }

  lemma {:induction false} AlikeBeforeIsEqual(a: seq<string>, b: seq<string>, p: nat, i: nat, j: nat)
    requires p <= i <= |a| && p <= j <= |b|
    ensures a[i - AlikeBefore(a, b, p, i, j)..i] == b[j - AlikeBefore(a, b, p, i, j)..j]
  {
    if i > p && j > p && a[i - 1] == b[j - 1] {
      AlikeBeforeIsEqual(a, b, p, i - 1, j - 1);
      var n := AlikeBefore(a, b, p, i, j);
      assert a[i - n..i] == a[i - n..i - 1] + [a[i - 1]] && b[j - n..j] == b[j - n..j - 1] + [b[j - 1]];
    }
  }

  function Sames(ts: seq<string>): seq<Piece> { seq(|ts|, i requires 0 <= i < |ts| => Piece(Same, ts[i])) }

  datatype Mode = Words | LineByLine | Whole

  predicate Fits(a: seq<string>, b: seq<string>) { |a| * |b| <= MAX_WORD_CELLS }

  /** What is left between the common start and the common end. */
  datatype Cut = Cut(start: seq<string>, midA: seq<string>, midB: seq<string>, end: seq<string>)

  function CutOf(a: seq<string>, b: seq<string>): Cut
  {
    var p := AlikeAfter(a, b, 0);
    var n := AlikeBefore(a, b, p, |a|, |b|);
    Cut(a[..p], a[p..|a| - n], b[p..|b| - n], a[|a| - n..])
  }

  lemma CutIsWhole(a: seq<string>, b: seq<string>)
    ensures var c := CutOf(a, b);
            a == c.start + c.midA + c.end && b == c.start + c.midB + c.end
  {
    hide AlikeAfter, AlikeBefore;
    var p := AlikeAfter(a, b, 0);
    var n := AlikeBefore(a, b, p, |a|, |b|);
    AlikeAfterIsEqual(a, b, 0);
    AlikeBeforeIsEqual(a, b, p, |a|, |b|);
    ThreeParts(a, p, |a| - n);
    ThreeParts(b, p, |b| - n);
  }

  lemma {:induction false} AlikeAfterStops(a: seq<string>, b: seq<string>, i: nat)
    requires i <= |a| && i <= |b|
    ensures var e := i + AlikeAfter(a, b, i); e < |a| && e < |b| ==> a[e] != b[e]
    decreases |a| - i
  {
    if i < |a| && i < |b| && a[i] == b[i] { AlikeAfterStops(a, b, i + 1); }
  }

  lemma {:induction false} AlikeBeforeStops(a: seq<string>, b: seq<string>, p: nat, i: nat, j: nat)
    requires p <= i <= |a| && p <= j <= |b|
    ensures var n := AlikeBefore(a, b, p, i, j); i - n > p && j - n > p ==> a[i - n - 1] != b[j - n - 1]
  {
    if i > p && j > p && a[i - 1] == b[j - 1] { AlikeBeforeStops(a, b, p, i - 1, j - 1); }
  }

  /** Nothing more could be cut off: what is left begins and ends differently, unless
      nothing is left on one side. */
  lemma CutIsMost(a: seq<string>, b: seq<string>)
    ensures var c := CutOf(a, b);
            c.midA != [] && c.midB != [] ==> c.midA[0] != c.midB[0] && c.midA[|c.midA| - 1] != c.midB[|c.midB| - 1]
  {
    hide AlikeAfter, AlikeBefore;
    AlikeAfterStops(a, b, 0);
    AlikeBeforeStops(a, b, AlikeAfter(a, b, 0), |a|, |b|);
  }

  lemma ThreeParts(a: seq<string>, p: nat, q: nat)
    requires p <= q <= |a|
    ensures a == a[0..p] + a[p..q] + a[q..|a|] && a[0..p] == a[..p] && a[q..|a|] == a[q..]
  {
  }

  function ModeOf(c: Cut): Mode
  {
    if Fits(c.midA, c.midB) then Words
    else if Fits(Lines(Concat(c.midA)), Lines(Concat(c.midB))) then LineByLine
    else Whole
  }

  function Middle(c: Cut): seq<Piece>
  {
    match ModeOf(c)
    case Words => Walk(c.midA, c.midB)
    case LineByLine => Walk(Lines(Concat(c.midA)), Lines(Concat(c.midB)))
    case Whole => [Piece(Removed, Concat(c.midA)), Piece(Added, Concat(c.midB))]
  }

  /** The edits of one comparison, token by token. */
  function Script(saved: string, current: string): seq<Piece>
  {
    var c := CutOf(Tokens(saved), Tokens(current));
    Sames(c.start) + Middle(c) + Sames(c.end)
  }

  // --- Optimality across the trimmed ends ---

  lemma {:induction false} NoLonger<T>(c: seq<T>, a: seq<T>)
    requires Subsequence(c, a)
    ensures |c| <= |a|
    decreases |a|
  {
    if c != [] {
      if Subsequence(c, a[1..]) { NoLonger(c, a[1..]); } else { NoLonger(c[1..], a[1..]); }
    }
  }

  lemma {:induction false} DropLast<T>(c: seq<T>, a: seq<T>, t: T)
    requires c != [] && Subsequence(c, a + [t])
    ensures Subsequence(c[..|c| - 1], a)
    decreases |a|
  {
    if a == [] {
      assert a + [t] == [t];
      NoLonger(c, [t]);
    } else {
      assert (a + [t])[1..] == a[1..] + [t];
      if Subsequence(c, a[1..] + [t]) {
        DropLast(c, a[1..], t);
      } else if |c| > 1 {
        assert c[1..][..|c| - 2] == c[..|c| - 1][1..];
        DropLast(c[1..], a[1..], t);
      }
    }
  }

  lemma {:induction false} EndCosts(x: seq<string>, y: seq<string>, end: seq<string>, c: seq<string>)
    requires Common(c, x + end, y + end)
    ensures |c| <= Table(x, y) + |end|
    decreases |end|
  {
    if end == [] {
      assert x + end == x && y + end == y;
      TableBounds(c, x, y);
    } else if c != [] {
      var front, last := end[..|end| - 1], end[|end| - 1];
      assert x + end == (x + front) + [last] && y + end == (y + front) + [last];
      DropLast(c, x + front, last);
      DropLast(c, y + front, last);
      EndCosts(x, y, front, c[..|c| - 1]);
    }
  }

  /** A common start and a common end are worth at most their own tokens. */
  lemma {:induction false} TrimCosts(start: seq<string>, x: seq<string>, y: seq<string>, end: seq<string>, c: seq<string>)
    requires Common(c, start + x + end, start + y + end)
    ensures |c| <= |start| + Table(x, y) + |end|
    decreases |start|
  {
    if start == [] {
      assert start + x + end == x + end && start + y + end == y + end;
      EndCosts(x, y, end, c);
    } else if c != [] {
      assert (start + x + end)[1..] == start[1..] + x + end;
      assert (start + y + end)[1..] == start[1..] + y + end;
      DropHeads(c, start + x + end);
      DropHeads(c, start + y + end);
      TrimCosts(start[1..], x, y, end, c[1..]);
    }
  }

  lemma {:induction false} SubsequenceAppend<T>(c: seq<T>, a: seq<T>, end: seq<T>)
    requires Subsequence(c, a)
    ensures Subsequence(c + end, a + end)
    decreases |a|
  {
    if a == [] {
      assert c + end == end && a + end == end;
      SubsequenceSelf(end);
    } else {
      assert (a + end)[1..] == a[1..] + end;
      if Subsequence(c, a[1..]) {
        SubsequenceAppend(c, a[1..], end);
        Widen(c + end, a + end);
      } else {
        assert (c + end)[1..] == c[1..] + end;
        SubsequenceAppend(c[1..], a[1..], end);
      }
    }
  }

  lemma {:induction false} SubsequenceSelf<T>(a: seq<T>)
    ensures Subsequence(a, a)
  {
    if a != [] { SubsequenceSelf(a[1..]); }
  }

  lemma {:induction false} SubsequencePrepend<T>(start: seq<T>, c: seq<T>, a: seq<T>)
    requires Subsequence(c, a)
    ensures Subsequence(start + c, start + a)
  {
    if start == [] {
      assert start + c == c && start + a == a;
    } else {
      assert (start + c)[1..] == start[1..] + c && (start + a)[1..] == start[1..] + a;
      SubsequencePrepend(start[1..], c, a);
    }
  }

  lemma {:induction false} TextsAppend(xs: seq<Piece>, ys: seq<Piece>, op: Op)
    ensures Texts(xs + ys, op) == Texts(xs, op) + Texts(ys, op)
  {
    if xs == [] {
      assert xs + ys == ys;
    } else {
      assert (xs + ys)[1..] == xs[1..] + ys;
      TextsAppend(xs[1..], ys, op);
    }
  }

  lemma {:induction false} TextsOfSames(ts: seq<string>)
    ensures Texts(Sames(ts), Same) == ts
    ensures Without(Sames(ts), Added) == ts && Without(Sames(ts), Removed) == ts
  {
    if ts != [] {
      assert Sames(ts)[1..] == Sames(ts[1..]);
      TextsOfSames(ts[1..]);
    }
  }

  /** When the table of words fits, the comparison keeps a longest common subsequence
      of all the words of the two texts. */
  lemma KeepsLongest(saved: string, current: string)
    requires var c := CutOf(Tokens(saved), Tokens(current)); Fits(c.midA, c.midB)
    ensures Longest(Texts(Script(saved, current), Same), Tokens(saved), Tokens(current))
  {
    var a, b := Tokens(saved), Tokens(current);
    var c := CutOf(a, b);
    CutIsWhole(a, b);
    var walk := Walk(c.midA, c.midB);
    var kept := Texts(walk, Same);
    WalkKeepsTable(c.midA, c.midB);
    TextsOfSames(c.start);
    TextsOfSames(c.end);
    TextsAppend(Sames(c.start) + walk, Sames(c.end), Same);
    TextsAppend(Sames(c.start), walk, Same);
    SubsequencePrepend(c.start, kept, c.midA);
    SubsequencePrepend(c.start, kept, c.midB);
    SubsequenceAppend(c.start + kept, c.start + c.midA, c.end);
    SubsequenceAppend(c.start + kept, c.start + c.midB, c.end);
    forall d: seq<string> | Common(d, a, b) ensures |d| <= |c.start| + Table(c.midA, c.midB) + |c.end| {
      TrimCosts(c.start, c.midA, c.midB, c.end, d);
    }
  }

  /** When only the table of lines fits, what is kept of the middle is a longest common
      subsequence of its lines; when not even that fits, nothing of it is kept. */
  lemma KeepsLongestLines(saved: string, current: string)
    requires var c := CutOf(Tokens(saved), Tokens(current)); !Fits(c.midA, c.midB)
    ensures var c := CutOf(Tokens(saved), Tokens(current));
            var linesA, linesB := Lines(Concat(c.midA)), Lines(Concat(c.midB));
            Script(saved, current) == Sames(c.start) + Middle(c) + Sames(c.end)
            && (Fits(linesA, linesB) ==>
                  Without(Middle(c), Added) == linesA && Without(Middle(c), Removed) == linesB
                  && Longest(Texts(Middle(c), Same), linesA, linesB))
            && (!Fits(linesA, linesB) ==>
                  Middle(c) == [Piece(Removed, Concat(c.midA)), Piece(Added, Concat(c.midB))])
  {
    hide CutOf, Fits, Longest, Lines, Tokens;
    var c := CutOf(Tokens(saved), Tokens(current));
    WalkSides(Lines(Concat(c.midA)), Lines(Concat(c.midB)));
    WalkKeepsLongest(Lines(Concat(c.midA)), Lines(Concat(c.midB)));
  }

  // --- The pieces, in every mode ---

  lemma {:induction false} WalkTexts(a: seq<string>, b: seq<string>)
    requires NoEmpty(a) && NoEmpty(b)
    ensures NoEmptyText(Walk(a, b))
    decreases |a| + |b|
  {
    hide Table;
    if a == [] && b == [] {
    } else if a != [] && b != [] && a[0] == b[0] {
      WalkTexts(a[1..], b[1..]);
    } else if a != [] && (b == [] || Table(a[1..], b) >= Table(a, b[1..])) {
      WalkTexts(a[1..], b);
    } else {
      WalkTexts(a, b[1..]);
    }
  }

  lemma WalkSpells(a: seq<string>, b: seq<string>)
    ensures Side(Walk(a, b), Added) == Concat(a) && Side(Walk(a, b), Removed) == Concat(b)
  {
    WalkSides(a, b);
  }

  lemma MiddleSpells(c: Cut)
    ensures Side(Middle(c), Added) == Concat(c.midA) && Side(Middle(c), Removed) == Concat(c.midB)
  {
    hide Walk, Side;
    match ModeOf(c)
    case Words =>
      WalkSpells(c.midA, c.midB);
    case LineByLine =>
      WalkSpells(Lines(Concat(c.midA)), Lines(Concat(c.midB)));
    case Whole =>
      var x, y := Piece(Removed, Concat(c.midA)), Piece(Added, Concat(c.midB));
      assert [x, y] == [x] + [y];
      SideAppend([x], [y], Added);
      SideAppend([x], [y], Removed);
      SideOne(x, Added);
      SideOne(y, Added);
      SideOne(x, Removed);
      SideOne(y, Removed);
  }

  lemma ConcatThree(x: seq<string>, y: seq<string>, z: seq<string>)
    ensures Concat(x + y + z) == Concat(x) + Concat(y) + Concat(z)
  {
    ConcatAppend(x + y, z);
    ConcatAppend(x, y);
  }

  /** Kept and removed edits spell the saved text, kept and added ones the current text. */
  lemma ScriptSpells(saved: string, current: string)
    ensures Side(Script(saved, current), Added) == saved && Side(Script(saved, current), Removed) == current
  {
    hide Middle, CutOf, Tokens;
    var c := CutOf(Tokens(saved), Tokens(current));
    CutIsWhole(Tokens(saved), Tokens(current));
    MiddleSpells(c);
    TextsOfSames(c.start);
    TextsOfSames(c.end);
    forall op | op != Same
      ensures Side(Script(saved, current), op) == Side(Sames(c.start), op) + Side(Middle(c), op) + Side(Sames(c.end), op)
    {
      SideAppend(Sames(c.start) + Middle(c), Sames(c.end), op);
      SideAppend(Sames(c.start), Middle(c), op);
    }
    ConcatThree(c.start, c.midA, c.end);
    ConcatThree(c.start, c.midB, c.end);
  }

  lemma RemovesFirstBetween(start: seq<string>, middle: seq<Piece>, end: seq<string>)
    requires RemovalsFirst(middle)
    ensures RemovalsFirst(Sames(start) + middle + Sames(end))
  {
    var all, p := Sames(start) + middle + Sames(end), |start|;
    forall k | 0 <= k < |all| - 1 && all[k].op == Added ensures all[k + 1].op != Removed {
      assert p <= k < p + |middle|;
      if k + 1 < p + |middle| { assert middle[k - p].op == Added; }
    }
  }

  lemma MiddleOrdered(c: Cut)
    requires NoEmpty(c.midA) && NoEmpty(c.midB)
    ensures RemovalsFirst(Middle(c)) && NoEmptyText(Middle(c))
  {
    hide Walk;
    match ModeOf(c)
    case Words =>
      WalkRemovesFirst(c.midA, c.midB);
      WalkTexts(c.midA, c.midB);
    case LineByLine =>
      WalkRemovesFirst(Lines(Concat(c.midA)), Lines(Concat(c.midB)));
      WalkTexts(Lines(Concat(c.midA)), Lines(Concat(c.midB)));
    case Whole =>
  }

  lemma PartsNotEmpty(start: seq<string>, middle: seq<string>, end: seq<string>)
    requires NoEmpty(start + middle + end)
    ensures NoEmpty(start) && NoEmpty(middle) && NoEmpty(end)
  {
    var all := start + middle + end;
    assert all[..|start|] == start && all[|start|..|start| + |middle|] == middle && all[|start| + |middle|..] == end;
  }

  lemma TextsNotEmpty(start: seq<string>, middle: seq<Piece>, end: seq<string>)
    requires NoEmpty(start) && NoEmptyText(middle) && NoEmpty(end)
    ensures NoEmptyText(Sames(start) + middle + Sames(end))
  {
  }

  lemma ScriptOrdered(saved: string, current: string)
    ensures RemovalsFirst(Script(saved, current)) && NoEmptyText(Script(saved, current))
  {
    hide Middle, Tokens, CutOf, NoEmpty, NoEmptyText, RemovalsFirst;
    var a, b := Tokens(saved), Tokens(current);
    var c := CutOf(a, b);
    CutIsWhole(a, b);
    PartsNotEmpty(c.start, c.midA, c.end);
    PartsNotEmpty(c.start, c.midB, c.end);
    MiddleOrdered(c);
    TextsNotEmpty(c.start, Middle(c), c.end);
    RemovesFirstBetween(c.start, Middle(c), c.end);
  }

  /** The merged pieces spell both texts, are tidy, and put removals before additions. */
  lemma PiecesAreRight(saved: string, current: string)
    ensures var pieces := MergeAll([], Script(saved, current));
            Tidy(pieces) && RemovalsFirst(pieces)
            && Side(pieces, Added) == saved && Side(pieces, Removed) == current
  {
    hide Script, Side, MergeAll;
    var script := Script(saved, current);
    ScriptSpells(saved, current);
    ScriptOrdered(saved, current);
    MergeAllTidy([], script);
    MergeAllRemovesFirst([], script);
    MergeAllSide([], script, Added);
    MergeAllSide([], script, Removed);
    NoSide(Added);
    NoSide(Removed);
  }

  // --- The code ---

  /** Where the table keeps the entry for a[i..] and b[j..], in rows of `width`. */
  function Cell(i: nat, j: nat, width: nat): nat { i * width + j }

  lemma CellInRange(i: nat, j: nat, rows: nat, width: nat)
    requires i < rows && j < width
    ensures Cell(i, j, width) < rows * width
  {
    assert i * width + width == (i + 1) * width <= rows * width;
  }

  lemma CellsDiffer(i: nat, j: nat, i': nat, j': nat, width: nat)
    requires j < width && j' < width && (i, j) != (i', j')
    ensures Cell(i, j, width) != Cell(i', j', width)
  {
    if i < i' {
      CellInRange(i, j, i', width);
    } else if i' < i {
      CellInRange(i', j', i, width);
    }
  }

  lemma EntryFitsUint32(a: seq<string>, b: seq<string>)
    requires Fits(a, b)
    ensures Table(a, b) < 0x1_0000_0000
  {
    if a != [] && b != [] {
      assert |a| <= |a| * |b|;
    }
  }

  lemma FitsSuffix(a: seq<string>, b: seq<string>, i: nat, j: nat)
    requires Fits(a, b) && i <= |a| && j <= |b|
    ensures Fits(a[i..], b[j..])
  {
    assert (|a| - i) * (|b| - j) <= |a| * (|b| - j) <= |a| * |b|;
  }

  /** The cells filled when the loops have come down to row i and column j. */
  predicate Filled(k: nat, l: nat, i: nat, j: nat, n: nat, m: nat)
  {
    k <= n && l <= m && (k > i || (k == i && l >= j) || l == m || k == n)
  }

  ghost predicate Holds(lengths: seq<int>, a: seq<string>, b: seq<string>, k: nat, l: nat)
  {
    k <= |a| && l <= |b| && Cell(k, l, |b| + 1) < |lengths|
    && lengths[Cell(k, l, |b| + 1)] == Table(a[k..], b[l..])
  }

  ghost predicate FilledFrom(lengths: seq<int>, a: seq<string>, b: seq<string>, i: nat, j: nat)
  {
    |lengths| == (|a| + 1) * (|b| + 1)
    && forall k: nat, l: nat :: Filled(k, l, i, j, |a|, |b|) ==> Holds(lengths, a, b, k, l)
  }

  method FillTable(a: seq<string>, b: seq<string>) returns (lengths: array<Uint32>)
    requires Fits(a, b)
    ensures fresh(lengths) && FilledFrom(lengths[..], a, b, 0, 0)
  {
    hide Cell, Table, Fits, FilledFrom;
    var n, m := |a|, |b|;
    lengths := new Uint32[(n + 1) * (m + 1)](_ => 0);
    StartTable(a, b, lengths[..]);
    var i := n;
    while i > 0
      invariant 0 <= i <= n && lengths.Length == (n + 1) * (m + 1)
      invariant FilledFrom(lengths[..], a, b, i, 0)
    {
      i := i - 1;
      var j := m;
      NextRow(a, b, lengths[..], i);
      while j > 0
        invariant 0 <= j <= m
        invariant FilledFrom(lengths[..], a, b, i, j)
      {
        j := j - 1;
        NextCell(a, b, lengths[..], i, j);
        lengths[Cell(i, j, m + 1)] :=
          if a[i] == b[j] then lengths[Cell(i + 1, j + 1, m + 1)] + 1
          else Max(lengths[Cell(i + 1, j, m + 1)], lengths[Cell(i, j + 1, m + 1)]);
      }
    }
  }

  lemma StartTable(a: seq<string>, b: seq<string>, lengths: seq<int>)
    requires |lengths| == (|a| + 1) * (|b| + 1) && forall k :: 0 <= k < |lengths| ==> lengths[k] == 0
    ensures FilledFrom(lengths, a, b, |a|, 0)
  {
    hide Cell, Table;
    forall k: nat, l: nat | Filled(k, l, |a|, 0, |a|, |b|) ensures Holds(lengths, a, b, k, l) {
      CellInRange(k, l, |a| + 1, |b| + 1);
      EmptyTable(a[k..], b[l..]);
    }
  }

  lemma NextRow(a: seq<string>, b: seq<string>, lengths: seq<int>, i: nat)
    requires i < |a| && FilledFrom(lengths, a, b, i + 1, 0)
    ensures FilledFrom(lengths, a, b, i, |b|)
  {
    hide Holds;
    forall k: nat, l: nat | Filled(k, l, i, |b|, |a|, |b|) ensures Holds(lengths, a, b, k, l) {
      assert Filled(k, l, i + 1, 0, |a|, |b|);
    }
  }

  /** Writing one cell fills it and spoils no other. */
  lemma NextCell(a: seq<string>, b: seq<string>, lengths: seq<int>, i: nat, j: nat)
    requires i < |a| && j < |b| && Fits(a, b) && FilledFrom(lengths, a, b, i, j + 1)
    ensures Holds(lengths, a, b, i + 1, j + 1) && Holds(lengths, a, b, i + 1, j) && Holds(lengths, a, b, i, j + 1)
    ensures Cell(i, j, |b| + 1) < |lengths| && Table(a[i..], b[j..]) < 0x1_0000_0000
    ensures var entry :=
              if a[i] == b[j] then Table(a[i + 1..], b[j + 1..]) + 1
              else Max(Table(a[i + 1..], b[j..]), Table(a[i..], b[j + 1..]));
            entry == Table(a[i..], b[j..]) && FilledFrom(lengths[Cell(i, j, |b| + 1) := entry], a, b, i, j)
  {
    hide Cell, Table, Fits, Max;
    var n, m := |a|, |b|;
    TableCell(a, b, i, j);
    FitsSuffix(a, b, i, j);
    EntryFitsUint32(a[i..], b[j..]);
    CellInRange(i, j, n + 1, m + 1);
    assert Filled(i + 1, j + 1, i, j + 1, n, m) && Filled(i + 1, j, i, j + 1, n, m) && Filled(i, j + 1, i, j + 1, n, m);
    var entry := Table(a[i..], b[j..]);
    var next := lengths[Cell(i, j, m + 1) := entry];
    forall k: nat, l: nat | Filled(k, l, i, j, n, m) ensures Holds(next, a, b, k, l) {
      if (k, l) != (i, j) {
        assert Filled(k, l, i, j + 1, n, m);
        CellsDiffer(k, l, i, j, m + 1);
      }
    }
  }

  lemma EmptyTable(a: seq<string>, b: seq<string>)
    requires a == [] || b == []
    ensures Table(a, b) == 0
  {
  }

  lemma TableCell(a: seq<string>, b: seq<string>, i: nat, j: nat)
    requires i < |a| && j < |b|
    ensures Table(a[i..], b[j..]) ==
      if a[i] == b[j] then Table(a[i + 1..], b[j + 1..]) + 1
      else Max(Table(a[i + 1..], b[j..]), Table(a[i..], b[j + 1..]))
  {
    assert a[i..][1..] == a[i + 1..] && b[j..][1..] == b[j + 1..];
  }

  /** The list of pieces that merge and aligned append to. */
  class PieceList {
    var list: seq<Piece>

    constructor ()
      ensures list == []
    {
      list := [];
    }

    method Merge(op: Op, text: string)
      modifies this
      ensures list == MergeOne(old(list), op, text)
    {
      if text == "" {
        return;
      }
      if |list| > 0 && list[|list| - 1].op == op {
        list := list[|list| - 1 := Piece(op, list[|list| - 1].text + text)];
      } else {
        list := list + [Piece(op, text)];
      }
    }

    method Aligned(a: seq<string>, b: seq<string>) returns (done: bool)
      modifies this
      ensures done == Fits(a, b)
      ensures list == if done then MergeAll(old(list), Walk(a, b)) else old(list)
    {
      hide Cell, Table, Walk, MergeOne, FilledFrom;
      var n, m := |a|, |b|;
      if n * m > MAX_WORD_CELLS {
        return false;
      }
      var lengths := FillTable(a, b);
      ghost var table := lengths[..];
      var i, j := 0, 0;
      assert a[0..] == a && b[0..] == b;
      while i < n || j < m
        invariant i <= n && j <= m
        invariant lengths[..] == table
        invariant MergeAll(old(list), Walk(a, b)) == MergeAll(list, Walk(a[i..], b[j..]))
        decreases n - i + m - j
      {
        WalkStep(a, b, i, j);
        if i < n && j < m { ReadCells(a, b, table, i, j); }
        if i < n && j < m && a[i] == b[j] {
          Merge(Same, a[i]);
          i := i + 1;
          j := j + 1;
        } else if i < n && (j == m || lengths[Cell(i + 1, j, m + 1)] >= lengths[Cell(i, j + 1, m + 1)]) {
          Merge(Removed, a[i]);
          i := i + 1;
        } else {
          Merge(Added, b[j]);
          j := j + 1;
        }
      }
      WalkDone();
      return true;
    }
  }

  lemma ReadCells(a: seq<string>, b: seq<string>, lengths: seq<int>, i: nat, j: nat)
    requires i < |a| && j < |b| && FilledFrom(lengths, a, b, 0, 0)
    ensures Holds(lengths, a, b, i + 1, j) && Holds(lengths, a, b, i, j + 1)
  {
    hide Holds;
    assert Filled(i + 1, j, 0, 0, |a|, |b|) && Filled(i, j + 1, 0, 0, |a|, |b|);
  }

  lemma WalkDone()
    ensures Walk([], []) == []
  {
  }

  lemma WalkStep(a: seq<string>, b: seq<string>, i: nat, j: nat)
    requires i <= |a| && j <= |b| && (i < |a| || j < |b|)
    ensures var walk := Walk(a[i..], b[j..]);
      walk != [] &&
      if i < |a| && j < |b| && a[i] == b[j] then
        walk[0] == Piece(Same, a[i]) && walk[1..] == Walk(a[i + 1..], b[j + 1..])
      else if i < |a| && (j == |b| || Table(a[i + 1..], b[j..]) >= Table(a[i..], b[j + 1..])) then
        walk[0] == Piece(Removed, a[i]) && walk[1..] == Walk(a[i + 1..], b[j..])
      else j < |b| && walk[0] == Piece(Added, b[j]) && walk[1..] == Walk(a[i..], b[j + 1..])
  {
    hide Table;
    if i < |a| { assert a[i..][1..] == a[i + 1..]; }
    if j < |b| { assert b[j..][1..] == b[j + 1..]; }
  }

  lemma MergeTwice(pieces: seq<Piece>, op: Op, x: string, y: string)
    ensures MergeOne(MergeOne(pieces, op, x), op, y) == MergeOne(pieces, op, x + y)
  {
    if x == "" {
      assert x + y == y;
    } else if y == "" {
      assert x + y == x;
    } else if pieces != [] && pieces[|pieces| - 1].op == op {
      assert pieces[|pieces| - 1].text + x + y == pieces[|pieces| - 1].text + (x + y);
    }
  }

  lemma {:induction false} MergeSames(pieces: seq<Piece>, ts: seq<string>)
    requires NoEmpty(ts)
    ensures MergeAll(pieces, Sames(ts)) == MergeOne(pieces, Same, Concat(ts))
    decreases |ts|
  {
    if ts != [] {
      assert Sames(ts)[1..] == Sames(ts[1..]);
      MergeSames(MergeOne(pieces, Same, ts[0]), ts[1..]);
      MergeTwice(pieces, Same, ts[0], Concat(ts[1..]));
    }
  }

  /** The two loops that take the common start and the common end. */
  method Trim(a: seq<string>, b: seq<string>) returns (start: nat, endA: nat, endB: nat)
    ensures start <= endA <= |a| && start <= endB <= |b|
    ensures CutOf(a, b) == Cut(a[..start], a[start..endA], b[start..endB], a[endA..])
  {
    hide CutOf, AlikeBefore;
    start := 0;
    while start < |a| && start < |b| && a[start] == b[start]
      invariant start <= |a| && start <= |b|
      invariant AlikeAfter(a, b, 0) == start + AlikeAfter(a, b, start)
    {
      start := start + 1;
    }
    endA, endB := TrimEnd(a, b, start);
    CutAt(a, b, start, |a| - endA);
  }

  method TrimEnd(a: seq<string>, b: seq<string>, start: nat) returns (endA: nat, endB: nat)
    requires start <= |a| && start <= |b|
    ensures start <= endA <= |a| && start <= endB <= |b| && |a| - endA == |b| - endB == AlikeBefore(a, b, start, |a|, |b|)
  {
    endA, endB := |a|, |b|;
    while endA > start && endB > start && a[endA - 1] == b[endB - 1]
      invariant start <= endA <= |a| && start <= endB <= |b|
      invariant AlikeBefore(a, b, start, |a|, |b|) == |a| - endA + AlikeBefore(a, b, start, endA, endB)
      invariant |a| - endA == |b| - endB
    {
      endA := endA - 1;
      endB := endB - 1;
    }
  }

  lemma CutAt(a: seq<string>, b: seq<string>, p: nat, n: nat)
    requires p == AlikeAfter(a, b, 0) && n == AlikeBefore(a, b, p, |a|, |b|)
    ensures CutOf(a, b) == Cut(a[..p], a[p..|a| - n], b[p..|b| - n], a[|a| - n..])
  {
    hide AlikeAfter, AlikeBefore;
  }

  /** The words of an edited block, each kept, removed or added, in reading order. */
  method WordDiff(saved: string, current: string) returns (pieces: seq<Piece>)
    ensures pieces == MergeAll([], Script(saved, current))
    ensures Tidy(pieces) && RemovalsFirst(pieces)
    ensures Side(pieces, Added) == saved && Side(pieces, Removed) == current
  {
    hide Walk, MergeAll, MergeOne, Side, Tidy, RemovalsFirst, NoEmpty, CutOf, Fits, Tokens, Lines;
    var a, b := Tokens(saved), Tokens(current);
    var start, endA, endB := Trim(a, b);
    ghost var cut := CutOf(a, b);
    CutIsWhole(a, b);
    PartsNotEmpty(cut.start, cut.midA, cut.end);

    var list := new PieceList();
    list.Merge(Same, Concat(a[..start]));
    var midA, midB := a[start..endA], b[start..endB];
    var done := list.Aligned(midA, midB);
    if !done {
      var linesA, linesB := Lines(Concat(midA)), Lines(Concat(midB));
      done := list.Aligned(linesA, linesB);
      if !done {
        list.Merge(Removed, Concat(midA));
        list.Merge(Added, Concat(midB));
        MergeBoth(MergeOne([], Same, Concat(a[..start])), Concat(midA), Concat(midB));
      }
    }
    list.Merge(Same, Concat(a[endA..]));
    pieces := list.list;
    MergeInOrder(cut);
    PiecesAreRight(saved, current);
  }

  lemma MergeBoth(pieces: seq<Piece>, x: string, y: string)
    ensures MergeAll(pieces, [Piece(Removed, x), Piece(Added, y)]) == MergeOne(MergeOne(pieces, Removed, x), Added, y)
  {
    hide MergeOne;
    assert [Piece(Removed, x), Piece(Added, y)][1..] == [Piece(Added, y)];
    assert [Piece(Added, y)][1..] == [];
    var once := MergeOne(pieces, Removed, x);
    assert MergeAll(once, [Piece(Added, y)]) == MergeAll(MergeOne(once, Added, y), []);
  }

  lemma MergeInOrder(c: Cut)
    requires NoEmpty(c.start) && NoEmpty(c.end)
    ensures MergeAll([], Sames(c.start) + Middle(c) + Sames(c.end))
         == MergeOne(MergeAll(MergeOne([], Same, Concat(c.start)), Middle(c)), Same, Concat(c.end))
  {
    hide Middle, MergeAll, MergeOne, NoEmpty;
    var first := MergeOne([], Same, Concat(c.start));
    MergeAllAppend([], Sames(c.start) + Middle(c), Sames(c.end));
    MergeAllAppend([], Sames(c.start), Middle(c));
    MergeSames([], c.start);
    MergeSames(MergeAll(first, Middle(c)), c.end);
  }
}
