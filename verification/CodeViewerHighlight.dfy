/** The code viewer's tokens, line by line: src/renderer/code-viewer-highlight.ts. */
module CodeViewerHighlight {
  import opened Options
  import opened Text

  /** What the tokeniser gives: a string, or a typed token holding a string, an array or a
      single typed token. */
  datatype Token = Plain(text: string) | Typed(element: Element)

  datatype Element = Element(kind: string, content: Content)

  datatype Content = Words(text: string) | Many(tokens: seq<Token>) | One(element: Element)

  datatype CodeToken = CodeToken(text: string, cls: Option<string>)

  // --- Leaves ---

  /** The strings of the tree in order, each with the type of the nearest token around it.
      Empty strings between tokens are dropped. */
  function Leaves(tokens: seq<Token>, around: Option<string>): seq<CodeToken>
    decreases tokens
  {
    if tokens == [] then [] else TokenLeaves(tokens[0], around) + Leaves(tokens[1..], around)
  }

  function TokenLeaves(token: Token, around: Option<string>): seq<CodeToken>
    decreases token
  {
    match token
    case Plain(text) => if text == "" then [] else [CodeToken(text, around)]
    case Typed(element) => ElementLeaves(element)
  }

  function ElementLeaves(element: Element): seq<CodeToken>
    decreases element
  {
    match element.content
    case Words(text) => [CodeToken(text, Some(element.kind))]
    case Many(tokens) => Leaves(tokens, Some(element.kind))
    case One(inner) => ElementLeaves(inner)
  }

  function Classed(token: CodeToken, kind: string): CodeToken
  {
    if token.cls.None? then token.(cls := Some(kind)) else token
  }

  function AllClassed(tokens: seq<CodeToken>, kind: string): (all: seq<CodeToken>)
    ensures |all| == |tokens| && forall i :: 0 <= i < |tokens| ==> all[i] == Classed(tokens[i], kind)
  {
    seq(|tokens|, i requires 0 <= i < |tokens| => Classed(tokens[i], kind))
  }

  /** No leaf of a typed token is without a class. */
  lemma {:induction false} ElementClassed(element: Element)
    ensures forall i :: 0 <= i < |ElementLeaves(element)| ==> ElementLeaves(element)[i].cls.Some?
    decreases element, 0
  {
    match element.content
    case Words(_) =>
    case Many(tokens) => LeavesClassed(tokens, element.kind);
    case One(inner) => ElementClassed(inner);
  }

  lemma {:induction false} LeavesClassed(tokens: seq<Token>, kind: string)
    ensures forall i :: 0 <= i < |Leaves(tokens, Some(kind))| ==> Leaves(tokens, Some(kind))[i].cls.Some?
    decreases tokens, 1
  {
    if tokens != [] {
      TokenClassed(tokens[0], kind);
      LeavesClassed(tokens[1..], kind);
    }
  }

  lemma {:induction false} TokenClassed(token: Token, kind: string)
    ensures forall i :: 0 <= i < |TokenLeaves(token, Some(kind))| ==> TokenLeaves(token, Some(kind))[i].cls.Some?
    decreases token, 0
  {
    if token.Typed? { ElementClassed(token.element); }
  }

  /** Filling in the class of those that have none is the same as having known it. */
  lemma {:induction false} ClassAfter(tokens: seq<Token>, kind: string)
    ensures AllClassed(Leaves(tokens, None), kind) == Leaves(tokens, Some(kind))
    decreases tokens
  {
    if tokens != [] {
      ClassAfter(tokens[1..], kind);
      TokenClassAfter(tokens[0], kind);
      ClassedAppend(TokenLeaves(tokens[0], None), Leaves(tokens[1..], None), kind);
    }
  }

  lemma TokenClassAfter(token: Token, kind: string)
    ensures AllClassed(TokenLeaves(token, None), kind) == TokenLeaves(token, Some(kind))
  {
    if token.Typed? { ElementClassed(token.element); }
  }

  lemma ClassedAppend(xs: seq<CodeToken>, ys: seq<CodeToken>, kind: string)
    ensures AllClassed(xs + ys, kind) == AllClassed(xs, kind) + AllClassed(ys, kind)
  {
  }

  /** An array that a method pushes to. */
  class List {
    var items: seq<CodeToken>

    constructor ()
      ensures items == []
    {
      items := [];
    }

    method Push(item: CodeToken)
      modifies this
      ensures items == old(items) + [item]
    {
      items := items + [item];
    }
  }

  method FlattenElement(element: Element, into: List)
    modifies into
    ensures into.items == old(into.items) + ElementLeaves(element)
    decreases element, 0
  {
    hide Leaves, AllClassed;
    match element.content
    case Words(text) => into.Push(CodeToken(text, Some(element.kind)));
    case Many(tokens) =>
      var nested := new List();
      Flatten(tokens, nested);
      ClassAfter(tokens, element.kind);
      PushClassed(nested.items, element.kind, into);
      assert [] + Leaves(tokens, None) == Leaves(tokens, None);
    case One(inner) => FlattenElement(inner, into);
  }

  /** The outer type, for those that have none of their own. */
  method PushClassed(nested: seq<CodeToken>, kind: string, into: List)
    modifies into
    ensures into.items == old(into.items) + AllClassed(nested, kind)
  {
    for i := 0 to |nested|
      invariant into.items == old(into.items) + AllClassed(nested, kind)[..i]
    {
      var part := nested[i];
      into.Push(CodeToken(part.text, if part.cls.Some? then part.cls else Some(kind)));
    }
  }

  method FlattenToken(token: Token, into: List)
    modifies into
    ensures into.items == old(into.items) + TokenLeaves(token, None)
    decreases token, 0
  {
    match token
    case Plain(text) => if |text| > 0 { into.Push(CodeToken(text, None)); }
    case Typed(element) => FlattenElement(element, into);
  }

  method Flatten(tokens: seq<Token>, into: List)
    modifies into
    ensures into.items == old(into.items) + Leaves(tokens, None)
    decreases tokens, 1
  {
    for i := 0 to |tokens|
      invariant into.items + Leaves(tokens[i..], None) == old(into.items) + Leaves(tokens, None)
    {
      FlattenToken(tokens[i], into);
      assert tokens[i..][1..] == tokens[i + 1..];
    }
  }

  // --- Lines ---

  /** A character with the class it is shown in. */
  datatype Ink = Ink(c: char, cls: Option<string>)

  function Painted(token: CodeToken): (ink: seq<Ink>)
    ensures |ink| == |token.text| && forall i :: 0 <= i < |ink| ==> ink[i] == Ink(token.text[i], token.cls)
  {
    seq(|token.text|, i requires 0 <= i < |token.text| => Ink(token.text[i], token.cls))
  }

  /** What the tokens show, character by character. */
  function Paint(tokens: seq<CodeToken>): seq<Ink>
  {
    if tokens == [] then [] else Paint(tokens[..|tokens| - 1]) + Painted(tokens[|tokens| - 1])
  }

  function Characters(ink: seq<Ink>): (s: string)
    ensures |s| == |ink| && forall i :: 0 <= i < |ink| ==> s[i] == ink[i].c
  {
    seq(|ink|, i requires 0 <= i < |ink| => ink[i].c)
  }

  /** The ink between the line breaks. */
  function InkLines(ink: seq<Ink>): (lines: seq<seq<Ink>>)
    ensures lines != []
  {
    if ink == [] then [[]]
    else
      var n := |ink| - 1;
      var before := InkLines(ink[..n]);
      if ink[n].c == '\n' then before + [[]]
      else before[..|before| - 1] + [before[|before| - 1] + [ink[n]]]
  }

  /** The lines of the ink are the lines of its characters. */
  lemma {:induction false} InkLinesAreLines(ink: seq<Ink>)
    ensures AllCharacters(InkLines(ink)) == Split(Characters(ink), '\n')
  {
    hide Split, AllCharacters, InkLines;
    if ink == [] {
      NoInk();
    } else {
      var n := |ink| - 1;
      InkLinesAreLines(ink[..n]);
      CharactersLast(ink[..n], ink[n]);
      assert ink == ink[..n] + [ink[n]];
      SplitLast(Characters(ink[..n]), ink[n].c, '\n');
      InkLast(ink[..n], ink[n]);
      LinesLast(InkLines(ink[..n]), ink[n]);
    }
  }

  lemma NoInk()
    ensures AllCharacters(InkLines([])) == Split(Characters([]), '\n')
  {
    assert Characters([]) == "";
  }

  lemma CharactersLast(ink: seq<Ink>, last: Ink)
    ensures Characters(ink + [last]) == Characters(ink) + [last.c]
  {
  }

  /** The last line made longer by one character. */
  function InkGrown(lines: seq<seq<Ink>>, last: Ink): seq<seq<Ink>>
    requires lines != []
  {
    lines[..|lines| - 1] + [lines[|lines| - 1] + [last]]
  }

  lemma InkLast(ink: seq<Ink>, last: Ink)
    ensures InkLines(ink + [last]) == if last.c == '\n' then InkLines(ink) + [[]] else InkGrown(InkLines(ink), last)
  {
    assert (ink + [last])[..|ink|] == ink;
  }

  lemma LinesLast(lines: seq<seq<Ink>>, last: Ink)
    requires lines != []
    ensures AllCharacters(lines + [[]]) == AllCharacters(lines) + [""]
    ensures AllCharacters(InkGrown(lines, last)) == Grown(AllCharacters(lines), last.c)
  {
    CharactersLast(lines[|lines| - 1], last);
    assert Characters([]) == "";
  }

  function AllCharacters(lines: seq<seq<Ink>>): (all: seq<string>)
    ensures |all| == |lines| && forall l :: 0 <= l < |lines| ==> all[l] == Characters(lines[l])
  {
    seq(|lines|, l requires 0 <= l < |lines| => Characters(lines[l]))
  }

  /** The last part made longer by one character. */
  function Grown(parts: seq<string>, x: char): seq<string>
    requires parts != []
  {
    parts[..|parts| - 1] + [parts[|parts| - 1] + [x]]
  }

  /** One character more: a new last part, or a longer one. */
  lemma {:induction false} SplitLast(s: string, x: char, c: char)
    ensures Split(s + [x], c) == if x == c then Split(s, c) + [""] else Grown(Split(s, c), x)
  {
    if s == "" {
      assert s + [x] == [x] && [x][1..] == "" && Split("", c) == [""];
      assert [x] + "" == [x] && [""] + [""][1..] == [""];
      assert [[x]] + [""][1..] == [[x]];
    } else {
      assert (s + [x])[1..] == s[1..] + [x];
      SplitLast(s[1..], x, c);
      if s[0] == c { GrownCons("", Split(s[1..], c), x); } else { GrownHead(s[0], Split(s[1..], c), x); }
    }
  }

  lemma GrownCons(part: string, rest: seq<string>, x: char)
    requires rest != []
    ensures [part] + (rest + [""]) == [part] + rest + [""]
    ensures [part] + Grown(rest, x) == Grown([part] + rest, x)
  {
  }

  lemma GrownHead(y: char, rest: seq<string>, x: char)
    requires rest != []
    ensures [[y] + (rest + [""])[0]] + (rest + [""])[1..] == [[y] + rest[0]] + rest[1..] + [""]
    ensures [[y] + Grown(rest, x)[0]] + Grown(rest, x)[1..] == Grown([[y] + rest[0]] + rest[1..], x)
  {
    if |rest| == 1 { assert [y] + (rest[0] + [x]) == [y] + rest[0] + [x]; }
  }

  // --- Tokens back into lines ---

  /** The lines so far, the last of them at `line`; nothing in those after it. */
  ghost predicate LinesSoFar(result: seq<seq<CodeToken>>, line: nat, ink: seq<Ink>)
  {
    line < |result| && line + 1 == |InkLines(ink)|
    && forall l :: 0 <= l < |result| ==> Paint(result[l]) == if l <= line then InkLines(ink)[l] else []
  }

  lemma NextLine(result: seq<seq<CodeToken>>, line: nat, ink: seq<Ink>, last: Ink)
    requires LinesSoFar(result, line, ink) && last.c == '\n' && line + 1 < |result|
    ensures LinesSoFar(result, line + 1, ink + [last])
  {
    hide InkLines, Paint;
    InkLast(ink, last);
  }

  /** The last line made longer by ink without a break. */
  function Longer(lines: seq<seq<Ink>>, more: seq<Ink>): seq<seq<Ink>>
    requires lines != []
  {
    lines[..|lines| - 1] + [lines[|lines| - 1] + more]
  }

  lemma LongerTwice(lines: seq<seq<Ink>>, more: seq<Ink>, last: Ink)
    requires lines != []
    ensures InkGrown(Longer(lines, more), last) == Longer(lines, more + [last])
    ensures Longer(lines, []) == lines
  {
    assert lines[|lines| - 1] + more + [last] == lines[|lines| - 1] + (more + [last]);
    assert lines[|lines| - 1] + [] == lines[|lines| - 1];
  }

  lemma {:induction false} NoBreak(ink: seq<Ink>, more: seq<Ink>)
    requires forall i :: 0 <= i < |more| ==> more[i].c != '\n'
    ensures InkLines(ink + more) == Longer(InkLines(ink), more)
    decreases |more|
  {
    hide InkLines, Longer;
    if more == [] {
      assert ink + [] == ink;
      LongerTwice(InkLines(ink), [], Ink(' ', None));
    } else {
      var n := |more| - 1;
      NoBreak(ink, more[..n]);
      assert ink + more == (ink + more[..n]) + [more[n]] && more == more[..n] + [more[n]];
      InkLast(ink + more[..n], more[n]);
      LongerTwice(InkLines(ink), more[..n], more[n]);
    }
  }

  lemma PaintLast(tokens: seq<CodeToken>, last: CodeToken)
    ensures Paint(tokens + [last]) == Paint(tokens) + Painted(last)
  {
    assert (tokens + [last])[..|tokens|] == tokens;
  }

  lemma MoreOnLine(result: seq<seq<CodeToken>>, line: nat, ink: seq<Ink>, piece: CodeToken)
    requires LinesSoFar(result, line, ink) && '\n' !in piece.text
    ensures LinesSoFar(result[line := result[line] + [piece]], line, ink + Painted(piece))
    ensures piece.text == "" ==> LinesSoFar(result, line, ink + Painted(piece))
  {
    hide InkLines, Paint;
    NoBreak(ink, Painted(piece));
    PaintLast(result[line], piece);
    if piece.text == "" { assert ink + Painted(piece) == ink; }
  }

  /** More ink has no fewer lines. */
  lemma {:induction false} LinesGrow(ink: seq<Ink>, more: seq<Ink>)
    ensures |InkLines(ink)| <= |InkLines(ink + more)|
    decreases |more|
  {
    if more == [] {
      assert ink + [] == ink;
    } else {
      var n := |more| - 1;
      LinesGrow(ink, more[..n]);
      assert ink + more == (ink + more[..n]) + [more[n]];
      InkLast(ink + more[..n], more[n]);
    }
  }

  /** One piece after a break, or the first piece. */
  lemma JoinNext(parts: seq<string>, i: nat, cls: Option<string>)
    requires 0 < i < |parts|
    ensures Painted(CodeToken(Join(parts[..i + 1], '\n'), cls))
            == Painted(CodeToken(Join(parts[..i], '\n'), cls)) + [Ink('\n', cls)] + Painted(CodeToken(parts[i], cls))
  {
    assert parts[..i + 1] == parts[..i] + [parts[i]];
    JoinAppend(parts[..i], [parts[i]], '\n');
  }

  /** The paint of one more token. */
  lemma PaintAt(flat: seq<CodeToken>, t: nat)
    requires t < |flat|
    ensures Paint(flat[..t + 1]) == Paint(flat[..t]) + Painted(flat[t])
  {
    assert flat[..t + 1] == flat[..t] + [flat[t]];
    PaintLast(flat[..t], flat[t]);
  }

  lemma {:induction false} PaintRest(flat: seq<CodeToken>, t: nat)
    requires t <= |flat|
    ensures Paint(flat[..t]) <= Paint(flat)
    decreases |flat| - t
  {
    if t < |flat| {
      PaintAt(flat, t);
      PaintRest(flat, t + 1);
    } else {
      assert flat[..t] == flat;
    }
  }

  /** No token is empty. */
  predicate NoneEmpty(result: seq<seq<CodeToken>>)
  {
    forall l :: 0 <= l < |result| ==> forall k :: 0 <= k < |result[l]| ==> result[l][k].text != ""
  }

  /** A break beyond the last line means that there are more lines than places for them. */
  lemma TooMany(result: seq<seq<CodeToken>>, line: nat, ink: seq<Ink>, whole: seq<Ink>, cls: Option<string>)
    requires LinesSoFar(result, line, ink) && line + 1 == |result| && ink + [Ink('\n', cls)] <= whole
    ensures |InkLines(whole)| > |result|
  {
    InkLast(ink, Ink('\n', cls));
    var more := whole[|ink| + 1..];
    assert whole == ink + [Ink('\n', cls)] + more;
    LinesGrow(ink + [Ink('\n', cls)], more);
  }

  lemma PaintedAround(a: string, b: string, cls: Option<string>)
    ensures Painted(CodeToken(a + "\n" + b, cls)) == Painted(CodeToken(a, cls)) + [Ink('\n', cls)] + Painted(CodeToken(b, cls))
  {
  }

  lemma PrefixOf<T>(x: seq<T>, rest: seq<T>, whole: seq<T>)
    requires x + rest <= whole
    ensures x <= whole
  {
    assert whole[..|x|] == (x + rest)[..|x|] == x;
  }

  lemma Regroup<T>(ink: seq<T>, a: seq<T>, b: seq<T>, c: seq<T>)
    ensures ink + (a + b + c) == ink + a + b + c
  {
  }

  lemma Prefixed(parts: seq<string>, i: nat, token: CodeToken, ink: seq<Ink>, whole: seq<Ink>)
    requires 0 < i < |parts| && Join(parts, '\n') == token.text && ink + Painted(token) <= whole
    ensures ink + Painted(CodeToken(Join(parts[..i], '\n'), token.cls)) + [Ink('\n', token.cls)] <= whole
  {
    hide Join, Painted;
    assert parts == parts[..i] + parts[i..];
    JoinAppend(parts[..i], parts[i..], '\n');
    var head, tail := Join(parts[..i], '\n'), Join(parts[i..], '\n');
    PaintedAround(head, tail, token.cls);
    assert token == CodeToken(head + "\n" + tail, token.cls);
    var a, b, c := Painted(CodeToken(head, token.cls)), [Ink('\n', token.cls)], Painted(CodeToken(tail, token.cls));
    Regroup(ink, a, b, c);
    PrefixOf(ink + a + b, c, whole);
  }

  lemma FirstPart(parts: seq<string>)
    requires parts != []
    ensures Join(parts[..1], '\n') == parts[0]
  {
    assert parts[..1] == [parts[0]];
  }

  /** A piece goes on its line, unless it is empty. */
  lemma Placed(result: seq<seq<CodeToken>>, line: nat, ink: seq<Ink>, piece: CodeToken)
    requires LinesSoFar(result, line, ink) && NoneEmpty(result) && '\n' !in piece.text
    ensures line < |result|
    ensures var after := if |piece.text| > 0 then result[line := result[line] + [piece]] else result;
            LinesSoFar(after, line, ink + Painted(piece)) && NoneEmpty(after)
  {
    hide InkLines, Paint, Painted;
    MoreOnLine(result, line, ink, piece);
  }

  lemma OnLine(result: seq<seq<CodeToken>>, line: nat, ink: seq<Ink>)
    requires LinesSoFar(result, line, ink)
    ensures line < |result|
  {
  }

  /** The line break between two parts: the next line, or one too many. */
  lemma Broken(result: seq<seq<CodeToken>>, line: nat, parts: seq<string>, i: nat, token: CodeToken, ink: seq<Ink>, whole: seq<Ink>)
    requires 0 < i < |parts| && Join(parts, '\n') == token.text && ink + Painted(token) <= whole
    requires LinesSoFar(result, line, ink + Painted(CodeToken(Join(parts[..i], '\n'), token.cls)))
    ensures line < |result|
    ensures var done := ink + Painted(CodeToken(Join(parts[..i], '\n'), token.cls)) + [Ink('\n', token.cls)];
            if line + 1 < |result| then LinesSoFar(result, line + 1, done) else |InkLines(whole)| > |result|
  {
    hide InkLines, Paint, Painted, Join, LinesSoFar;
    var done := ink + Painted(CodeToken(Join(parts[..i], '\n'), token.cls));
    OnLine(result, line, done);
    if line + 1 < |result| {
      NextLine(result, line, done, Ink('\n', token.cls));
    } else {
      Prefixed(parts, i, token, ink, whole);
      TooMany(result, line, done, whole, token.cls);
    }
  }

  lemma Consumed(parts: seq<string>, i: nat, token: CodeToken, ink: seq<Ink>)
    requires i < |parts|
    ensures var piece := Painted(CodeToken(parts[i], token.cls));
            ink + Painted(CodeToken(Join(parts[..i + 1], '\n'), token.cls))
            == if i == 0 then ink + piece
               else ink + Painted(CodeToken(Join(parts[..i], '\n'), token.cls)) + [Ink('\n', token.cls)] + piece
  {
    hide Painted, Join;
    if i == 0 {
      FirstPart(parts);
    } else {
      JoinNext(parts, i, token.cls);
      var a, b, c := Painted(CodeToken(Join(parts[..i], '\n'), token.cls)), [Ink('\n', token.cls)], Painted(CodeToken(parts[i], token.cls));
      Regroup(ink, a, b, c);
    }
  }

  /** One token's parts, one after another. `broke` tells whether the bounds check stopped it. */
  method PlaceToken(token: CodeToken, before: seq<seq<CodeToken>>, at: nat, ghost ink: seq<Ink>, ghost whole: seq<Ink>)
    returns (result: seq<seq<CodeToken>>, line: nat, broke: bool)
    requires LinesSoFar(before, at, ink) && NoneEmpty(before) && ink + Painted(token) <= whole
    ensures |result| == |before| && NoneEmpty(result)
    ensures !broke ==> LinesSoFar(result, line, ink + Painted(token))
    ensures broke ==> line >= |result| && |InkLines(whole)| > |result|
  {
    hide LinesSoFar, InkLines, Paint, Painted, Join, NoneEmpty;
    var parts := Split(token.text, '\n');
    JoinSplit(token.text, '\n');
    SplitApart(token.text, '\n');
    result, line, broke := before, at, false;
    OnLine(before, at, ink);
    ghost var done := ink;
    for i := 0 to |parts|
      invariant LinesSoFar(result, line, done) && NoneEmpty(result) && |result| == |before| && line < |result|
      invariant done == if i == 0 then ink else ink + Painted(CodeToken(Join(parts[..i], '\n'), token.cls))
    {
      Consumed(parts, i, token, ink);
      if i > 0 {
        Broken(result, line, parts, i, token, ink, whole);
        line := line + 1;
        done := done + [Ink('\n', token.cls)];
      }
      if line >= |result| {
        broke := true;
        return;
      }
      var piece := CodeToken(parts[i], token.cls);
      Placed(result, line, done, piece);
      if |piece.text| > 0 { result := result[line := result[line] + [piece]]; }
      done := done + Painted(piece);
    }
    assert parts[..|parts|] == parts;
    assert CodeToken(token.text, token.cls) == token;
  }

  /** A flat list of tokens back into n lines. */
  method IntoLines(flat: seq<CodeToken>, n: nat) returns (result: seq<seq<CodeToken>>, broke: bool)
    requires n >= 1
    ensures |result| == n && NoneEmpty(result)
    ensures broke <==> |InkLines(Paint(flat))| > n
    ensures !broke ==> forall l :: 0 <= l < n ==>
      Paint(result[l]) == if l < |InkLines(Paint(flat))| then InkLines(Paint(flat))[l] else []
  {
    hide Paint, Painted, InkLines, NoneEmpty, LinesSoFar;
    result := seq(n, i => []);
    var line: nat := 0;
    broke := false;
    EmptyLines(result);
    ghost var whole := Paint(flat);
    for t := 0 to |flat|
      invariant |result| == n && NoneEmpty(result)
      invariant !broke ==> LinesSoFar(result, line, Paint(flat[..t]))
      invariant broke ==> line >= n && |InkLines(whole)| > n
    {
      if !broke {
        PaintAt(flat, t);
        PaintRest(flat, t + 1);
        result, line, broke := PlaceToken(flat[t], result, line, Paint(flat[..t]), whole);
      }
    }
    assert flat[..|flat|] == flat;
    if !broke { LinesMean(result, line, whole); }
  }

  lemma EmptyLines(result: seq<seq<CodeToken>>)
    requires result != [] && forall l :: 0 <= l < |result| ==> result[l] == []
    ensures NoneEmpty(result) && LinesSoFar(result, 0, Paint([]))
  {
    assert InkLines([]) == [[]];
  }

  lemma LinesMean(result: seq<seq<CodeToken>>, line: nat, ink: seq<Ink>)
    requires LinesSoFar(result, line, ink)
    ensures |InkLines(ink)| <= |result|
    ensures forall l :: 0 <= l < |result| ==> Paint(result[l]) == if l < |InkLines(ink)| then InkLines(ink)[l] else []
  {
  }

  // --- The whole of it ---

  /** Line breaks as `\n`. */
  function Normalised(source: string): string
  {
    if source == "" then ""
    else if source[0] == '\r' then
      "\n" + Normalised(if |source| > 1 && source[1] == '\n' then source[2..] else source[1..])
    else [source[0]] + Normalised(source[1..])
  }

  function Texts(tokens: seq<CodeToken>): string
  {
    Characters(Paint(tokens))
  }

  /** The characters of a line are its tokens' texts, end to end. */
  lemma {:induction false} TextsConcat(tokens: seq<CodeToken>)
    ensures Texts(tokens) == Concat(seq(|tokens|, i requires 0 <= i < |tokens| => tokens[i].text))
  {
    var texts := seq(|tokens|, i requires 0 <= i < |tokens| => tokens[i].text);
    if tokens != [] {
      var n := |tokens| - 1;
      TextsConcat(tokens[..n]);
      var front := seq(n, i requires 0 <= i < n => tokens[..n][i].text);
      assert texts == front + [tokens[n].text];
      ConcatAppend(front, [tokens[n].text]);
      assert Concat([tokens[n].text]) == tokens[n].text + Concat([tokens[n].text][1..]) == tokens[n].text;
      CharactersBoth(Paint(tokens[..n]), Painted(tokens[n]));
      assert Characters(Painted(tokens[n])) == tokens[n].text;
    }
  }

  lemma CharactersBoth(x: seq<Ink>, y: seq<Ink>)
    ensures Characters(x + y) == Characters(x) + Characters(y)
  {
  }

  /** The tokens of each line: those of the grammar's tree, or the bare line without one. */
  method HighlightLines(source: string, tree: Option<seq<Token>>) returns (result: seq<seq<CodeToken>>, ghost broke: bool)
    ensures NoneEmpty(result) && |result| == |Split(Normalised(source), '\n')|
    ensures tree.None? ==> !broke && forall l :: 0 <= l < |result| ==>
      result[l] == if Split(Normalised(source), '\n')[l] == "" then [] else [CodeToken(Split(Normalised(source), '\n')[l], None)]
    ensures tree.Some? && Texts(Leaves(tree.value, None)) == Normalised(source) ==>
      !broke && |InkLines(Paint(Leaves(tree.value, None)))| == |result| && forall l :: 0 <= l < |result| ==>
        Texts(result[l]) == Split(Normalised(source), '\n')[l] && Paint(result[l]) == InkLines(Paint(Leaves(tree.value, None)))[l]
  {
    hide Paint, InkLines, Leaves;
    var lines := Split(Normalised(source), '\n');
    if tree.None? {
      result := seq(|lines|, l requires 0 <= l < |lines| => if |lines[l]| == 0 then [] else [CodeToken(lines[l], None)]);
      broke := false;
      return;
    }
    var flat := new List();
    Flatten(tree.value, flat);
    assert [] + Leaves(tree.value, None) == Leaves(tree.value, None);
    var stopped;
    result, stopped := IntoLines(flat.items, |lines|);
    broke := stopped;
    if Texts(flat.items) == Normalised(source) { WholeLines(Paint(flat.items), lines); }
  }

  lemma WholeLines(ink: seq<Ink>, lines: seq<string>)
    requires Split(Characters(ink), '\n') == lines
    ensures |InkLines(ink)| == |lines| && forall l :: 0 <= l < |lines| ==> Characters(InkLines(ink)[l]) == lines[l]
  {
    InkLinesAreLines(ink);
  }

  // --- Which class is a leaf's ---

  /** A string of the tree with the types of all the tokens around it, outermost first. */
  datatype Word = Word(text: string, kinds: seq<string>)

  function WordsIn(tokens: seq<Token>, kinds: seq<string>): seq<Word>
    decreases tokens
  {
    if tokens == [] then [] else TokenWords(tokens[0], kinds) + WordsIn(tokens[1..], kinds)
  }

  function TokenWords(token: Token, kinds: seq<string>): seq<Word>
    decreases token
  {
    match token
    case Plain(text) => if text == "" then [] else [Word(text, kinds)]
    case Typed(element) => ElementWords(element, kinds)
  }

  function ElementWords(element: Element, kinds: seq<string>): seq<Word>
    decreases element
  {
    match element.content
    case Words(text) => [Word(text, kinds + [element.kind])]
    case Many(tokens) => WordsIn(tokens, kinds + [element.kind])
    case One(inner) => ElementWords(inner, kinds + [element.kind])
  }

  /** The innermost of the types around. */
  function Innermost(kinds: seq<string>): Option<string>
  {
    if kinds == [] then None else Some(kinds[|kinds| - 1])
  }

  function Coloured(words: seq<Word>): (tokens: seq<CodeToken>)
  {
    seq(|words|, i requires 0 <= i < |words| => CodeToken(words[i].text, Innermost(words[i].kinds)))
  }

  lemma ColouredBoth(x: seq<Word>, y: seq<Word>)
    ensures Coloured(x + y) == Coloured(x) + Coloured(y)
  {
  }

  /** Each leaf is coloured by the innermost token around it. */
  lemma {:induction false} LeavesInnermost(tokens: seq<Token>, kinds: seq<string>)
    ensures Leaves(tokens, Innermost(kinds)) == Coloured(WordsIn(tokens, kinds))
    decreases tokens, 0
  {
    hide Coloured, Innermost;
    if tokens == [] {
      NothingColoured();
    } else {
      TokenInnermost(tokens[0], kinds);
      LeavesInnermost(tokens[1..], kinds);
      ColouredBoth(TokenWords(tokens[0], kinds), WordsIn(tokens[1..], kinds));
    }
  }

  lemma NothingColoured()
    ensures Coloured([]) == []
  {
  }

  lemma OneColoured(text: string, kinds: seq<string>)
    ensures Coloured([Word(text, kinds)]) == [CodeToken(text, Innermost(kinds))]
  {
  }

  lemma {:induction false} TokenInnermost(token: Token, kinds: seq<string>)
    ensures TokenLeaves(token, Innermost(kinds)) == Coloured(TokenWords(token, kinds))
    decreases token, 1
  {
    hide Coloured, Innermost;
    match token
    case Plain(text) => NothingColoured(); OneColoured(text, kinds);
    case Typed(element) => ElementInnermost(element, kinds);
  }

  lemma {:induction false} ElementInnermost(element: Element, kinds: seq<string>)
    ensures ElementLeaves(element) == Coloured(ElementWords(element, kinds))
    decreases element, 0
  {
    hide Coloured;
    var inner := kinds + [element.kind];
    assert Innermost(inner) == Some(element.kind);
    match element.content
    case Words(text) => OneColoured(text, inner);
    case Many(tokens) => LeavesInnermost(tokens, inner);
    case One(one) => ElementInnermost(one, inner);
  }

  // --- What a line break is ---

  /** Lines with the break that ends each: `\r\n`, `\r` or `\n`. A break of `\r` before an
      empty line that ends in `\n` would be one break of the two. */
  ghost predicate BrokenBy(lines: seq<string>, breaks: seq<string>)
  {
    |lines| == |breaks| + 1
    && (forall i :: 0 <= i < |lines| ==> '\r' !in lines[i] && '\n' !in lines[i])
    && (forall i :: 0 <= i < |breaks| ==> breaks[i] == "\r\n" || breaks[i] == "\r" || breaks[i] == "\n")
    && (forall i :: 0 < i < |breaks| ==> !(breaks[i - 1] == "\r" && lines[i] == "" && breaks[i] == "\n"))
  }

  function Interleaved(lines: seq<string>, breaks: seq<string>): string
    requires |lines| == |breaks| + 1
  {
    if breaks == [] then lines[0] else lines[0] + (breaks[0] + Interleaved(lines[1..], breaks[1..]))
  }

  lemma {:induction false} PlainNormalised(line: string, rest: string)
    requires '\r' !in line
    ensures Normalised(line + rest) == line + Normalised(rest)
  {
    if line == "" {
      assert line + rest == rest;
    } else {
      assert (line + rest)[1..] == line[1..] + rest;
      PlainNormalised(line[1..], rest);
      assert line == [line[0]] + line[1..];
    }
  }

  lemma BreakNormalised(br: string, rest: string)
    requires br == "\r\n" || br == "\r" || br == "\n"
    requires br == "\r" && rest != "" ==> rest[0] != '\n'
    ensures Normalised(br + rest) == "\n" + Normalised(rest)
  {
    assert (br + rest)[|br|..] == rest;
  }

  lemma StartsInterleaved(lines: seq<string>, breaks: seq<string>)
    requires |lines| == |breaks| + 1 && '\n' !in lines[0]
    requires breaks != [] && lines[0] == "" ==> breaks[0] == "\r\n" || breaks[0] == "\r"
    ensures Interleaved(lines, breaks) != "" ==> Interleaved(lines, breaks)[0] != '\n'
  {
    var text := Interleaved(lines, breaks);
    if lines[0] != "" { assert text[0] == lines[0][0]; }
  }

  lemma BrokenRest(lines: seq<string>, breaks: seq<string>)
    requires BrokenBy(lines, breaks) && breaks != []
    ensures BrokenBy(lines[1..], breaks[1..])
  {
    var l, b := lines[1..], breaks[1..];
    forall i | 0 < i < |b| ensures !(b[i - 1] == "\r" && l[i] == "" && b[i] == "\n") {
      var j := i + 1;
      assert b[i] == breaks[j] && b[i - 1] == breaks[j - 1] && l[i] == lines[j];
    }
  }

  lemma NextStarts(lines: seq<string>, breaks: seq<string>)
    requires BrokenBy(lines, breaks) && breaks != [] && breaks[0] == "\r"
    ensures var rest := Interleaved(lines[1..], breaks[1..]); rest != "" ==> rest[0] != '\n'
  {
    if |breaks| > 1 { var i := 1; assert !(breaks[i - 1] == "\r" && lines[i] == "" && breaks[i] == "\n"); }
    StartsInterleaved(lines[1..], breaks[1..]);
  }

  /** Whichever breaks a text has, normalising leaves its lines and puts `\n` between them. */
  lemma {:induction false} NormalisedIs(lines: seq<string>, breaks: seq<string>)
    requires BrokenBy(lines, breaks)
    ensures Normalised(Interleaved(lines, breaks)) == Join(lines, '\n')
    decreases |breaks|
  {
    hide Normalised;
    if breaks == [] {
      assert lines[0] + "" == lines[0];
      PlainLine(lines);
    } else {
      var rest := Interleaved(lines[1..], breaks[1..]);
      BrokenRest(lines, breaks);
      NormalisedIs(lines[1..], breaks[1..]);
      FirstBroken(lines, breaks);
      if breaks[0] == "\r" { NextStarts(lines, breaks); }
      PlainNormalised(lines[0], breaks[0] + rest);
      BreakNormalised(breaks[0], rest);
      assert lines[0] + ("\n" + Join(lines[1..], '\n')) == Join(lines, '\n');
    }
  }

  lemma PlainLine(lines: seq<string>)
    requires BrokenBy(lines, [])
    ensures Normalised(lines[0]) == lines[0] && Join(lines, '\n') == lines[0]
  {
    PlainNormalised(lines[0], "");
    assert lines[0] + "" == lines[0];
  }

  lemma FirstBroken(lines: seq<string>, breaks: seq<string>)
    requires BrokenBy(lines, breaks) && breaks != []
    ensures '\r' !in lines[0] && (breaks[0] == "\r\n" || breaks[0] == "\r" || breaks[0] == "\n") && |lines| > 1
  {
  }
}
