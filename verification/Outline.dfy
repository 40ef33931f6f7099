/** The heading tree of src/renderer/outline.ts. */
module Outline {

  datatype Entry = Entry(blockIndex: nat, depth: int, text: string)

  /** A heading with the headings nested under it. */
  datatype Tree = Tree(entry: Entry, children: seq<Tree>)

  // --- What the tree of a list of headings is ---

  /** How many entries, from the first, are deeper than `depth`. */
  function Deeper(entries: seq<Entry>, depth: int): (n: nat)
    ensures n <= |entries|
  {
    if entries == [] || entries[0].depth <= depth then 0 else 1 + Deeper(entries[1..], depth)
  }

  lemma {:induction false} DeeperStops(entries: seq<Entry>, depth: int)
    ensures var n := Deeper(entries, depth);
            (forall i :: 0 <= i < n ==> entries[i].depth > depth)
            && (n < |entries| ==> entries[n].depth <= depth)
  {
    if entries == [] || entries[0].depth <= depth {
    } else {
      DeeperStops(entries[1..], depth);
    }
  }

  /** A heading owns every following deeper heading, up to the next that is not deeper. */
  function Nest(entries: seq<Entry>): seq<Tree>
    decreases |entries|
  {
    if entries == [] then []
    else
      var n := Deeper(entries[1..], entries[0].depth);
      [Tree(entries[0], Nest(entries[1..n + 1]))] + Nest(entries[n + 1..])
  }

  // --- What that means ---

  function Preorder(forest: seq<Tree>): seq<Entry>
  {
    if forest == [] then []
    else [forest[0].entry] + Preorder(forest[0].children) + Preorder(forest[1..])
  }

  /** The position, in preorder, of each node's parent; `parent` for the roots, which
      start at position `at`. */
  function Parents(forest: seq<Tree>, at: nat, parent: int): seq<int>
  {
    if forest == [] then []
    else
      var below := Parents(forest[0].children, at + 1, at);
      [parent] + below + Parents(forest[1..], at + 1 + |below|, parent)
  }

  /** The nearest position before `k` whose entry is strictly less deep than `depth`,
      or -1. */
  function NearestShallower(entries: seq<Entry>, k: nat, depth: int): (p: int)
    requires k <= |entries|
    ensures -1 <= p < k
    ensures p >= 0 ==> entries[p].depth < depth
    ensures forall i :: p < i < k ==> entries[i].depth >= depth
  {
    if k == 0 then -1
    else if entries[k - 1].depth < depth then k - 1
    else NearestShallower(entries, k - 1, depth)
  }

  lemma {:induction false} ParentsLength(forest: seq<Tree>, at: nat, parent: int)
    ensures |Parents(forest, at, parent)| == |Preorder(forest)|
  {
    if forest != [] {
      var below := Parents(forest[0].children, at + 1, at);
      ParentsLength(forest[0].children, at + 1, at);
      ParentsLength(forest[1..], at + 1 + |below|, parent);
    }
  }

  /** Siblings never get deeper from one to the next, at every level. */
  predicate SiblingsRise(forest: seq<Tree>)
  {
    forest == [] ||
    (SiblingsRise(forest[0].children) && SiblingsRise(forest[1..])
     && (|forest| > 1 ==> forest[0].entry.depth >= forest[1].entry.depth))
  }

  lemma PreorderCons(entry: Entry, children: seq<Tree>, rest: seq<Tree>)
    ensures Preorder([Tree(entry, children)] + rest) == [entry] + Preorder(children) + Preorder(rest)
  {
    assert ([Tree(entry, children)] + rest)[1..] == rest;
  }

  /** The first heading, what it owns, and what follows. */
  lemma FirstHeading(entries: seq<Entry>) returns (inner: seq<Entry>, rest: seq<Entry>)
    requires entries != []
    ensures |entries| == 1 + |inner| + |rest| && entries == [entries[0]] + inner + rest
    ensures Nest(entries) == [Tree(entries[0], Nest(inner))] + Nest(rest)
    ensures forall i :: 0 <= i < |inner| ==> inner[i].depth > entries[0].depth
    ensures rest != [] ==> rest[0].depth <= entries[0].depth
  {
    hide Deeper;
    var n := Deeper(entries[1..], entries[0].depth);
    DeeperStops(entries[1..], entries[0].depth);
    inner, rest := entries[1..n + 1], entries[n + 1..];
    assert inner == entries[1..][..n];
    if rest != [] { assert rest[0] == entries[1..][n]; }
  }

  /** Reading the tree top to bottom gives the headings back in order. */
  lemma {:induction false} NestPreorder(entries: seq<Entry>)
    ensures Preorder(Nest(entries)) == entries
    decreases |entries|
  {
    hide Preorder, Nest;
    if entries == [] {
      NoHeadings();
    } else {
      var inner, rest := FirstHeading(entries);
      NestPreorder(inner);
      NestPreorder(rest);
      PreorderCons(entries[0], Nest(inner), Nest(rest));
    }
  }

  lemma NestHead(entries: seq<Entry>)
    requires entries != []
    ensures Nest(entries) != [] && Nest(entries)[0].entry == entries[0]
  {
  }

  lemma {:induction false} NestSiblings(entries: seq<Entry>)
    ensures SiblingsRise(Nest(entries))
    decreases |entries|
  {
    hide Nest;
    if entries == [] {
      NoHeadings();
    } else {
      var inner, rest := FirstHeading(entries);
      NestSiblings(inner);
      NestSiblings(rest);
      if rest != [] { NestHead(rest); } else { NoHeadings(); }
      assert Nest(entries)[1..] == Nest(rest);
    }
  }

  lemma NoHeadings()
    ensures Nest([]) == [] && Preorder([]) == []
  {
  }

  /** `parents` are the nearest shallower positions from position `at` on. */
  predicate ParentsRight(all: seq<Entry>, parents: seq<int>, at: nat)
    decreases |parents|
  {
    at + |parents| <= |all|
    && (parents != [] ==>
      parents[0] == NearestShallower(all, at, all[at].depth) && ParentsRight(all, parents[1..], at + 1))
  }

  lemma ParentsLong(all: seq<Entry>, xs: seq<int>, at: nat)
    requires ParentsRight(all, xs, at)
    ensures at + |xs| <= |all|
  {
  }

  lemma ParentsCut(all: seq<Entry>, xs: seq<int>, at: nat)
    requires xs != []
    ensures ParentsRight(all, xs, at) <==>
      at + |xs| <= |all| && xs[0] == NearestShallower(all, at, all[at].depth) && ParentsRight(all, xs[1..], at + 1)
  {
    hide NearestShallower;
  }

  lemma {:induction false} ParentsAppend(all: seq<Entry>, xs: seq<int>, ys: seq<int>, at: nat)
    requires ParentsRight(all, xs, at) && ParentsRight(all, ys, at + |xs|)
    ensures ParentsRight(all, xs + ys, at)
    decreases |xs|
  {
    hide NearestShallower, ParentsRight;
    if xs == [] {
      assert xs + ys == ys;
    } else {
      assert (xs + ys)[1..] == xs[1..] + ys;
      assert at + 1 + |xs[1..]| == at + |xs|;
      ParentsCut(all, xs, at);
      ParentsCut(all, xs + ys, at);
      ParentsAppend(all, xs[1..], ys, at + 1);
      ParentsLong(all, xs[1..] + ys, at + 1);
    }
  }

  /** `entries` stand in `all` from position `at` on, below `parent`, and between the
      two nothing is shallower than the first of them. */
  ghost predicate Under(all: seq<Entry>, entries: seq<Entry>, at: nat, parent: int)
  {
    -1 <= parent < at && at + |entries| <= |all|
    && all[at..at + |entries|] == entries
    && (forall i :: 0 <= i < |entries| && parent >= 0 ==> entries[i].depth > all[parent].depth)
    && (forall i :: parent < i < at && entries != [] ==> all[i].depth >= entries[0].depth)
  }

  lemma FirstParent(all: seq<Entry>, entries: seq<Entry>, at: nat, parent: int)
    requires Under(all, entries, at, parent) && entries != []
    ensures NearestShallower(all, at, all[at].depth) == parent
  {
    assert all[at] == entries[0];
  }

  lemma SubList(all: seq<Entry>, entries: seq<Entry>, at: nat, i: nat, j: nat)
    requires i <= j <= |entries| && at + |entries| <= |all| && all[at..at + |entries|] == entries
    ensures all[at + i..at + j] == entries[i..j]
  {
    var x, y := all[at + i..at + j], entries[i..j];
    forall k | 0 <= k < j - i ensures x[k] == y[k] {
      assert x[k] == all[at + (i + k)] && y[k] == entries[i + k];
    }
  }

  lemma CutAll(all: seq<Entry>, first: Entry, inner: seq<Entry>, rest: seq<Entry>, at: nat)
    requires var entries := [first] + inner + rest;
             at + |entries| <= |all| && all[at..at + |entries|] == entries
    ensures all[at] == first
    ensures all[at + 1..at + 1 + |inner|] == inner
    ensures all[at + 1 + |inner|..at + 1 + |inner| + |rest|] == rest
  {
    var entries, n := [first] + inner + rest, |inner|;
    assert all[at] == entries[0] == first;
    SubList(all, entries, at, 1, n + 1);
    SubList(all, entries, at, n + 1, |entries|);
    assert entries[1..n + 1] == inner && entries[n + 1..|entries|] == rest;
  }

  lemma UnderInner(all: seq<Entry>, first: Entry, inner: seq<Entry>, at: nat)
    requires at + 1 + |inner| <= |all| && all[at] == first && all[at + 1..at + 1 + |inner|] == inner
    requires forall i :: 0 <= i < |inner| ==> inner[i].depth > first.depth
    ensures Under(all, inner, at + 1, at)
  {
  }

  lemma UnderRest(all: seq<Entry>, first: Entry, inner: seq<Entry>, rest: seq<Entry>, at: nat, parent: int)
    requires Under(all, [first] + inner + rest, at, parent)
    requires all[at] == first && all[at + 1..at + 1 + |inner|] == inner
    requires all[at + 1 + |inner|..at + 1 + |inner| + |rest|] == rest
    requires forall i :: 0 <= i < |inner| ==> inner[i].depth > first.depth
    requires rest != [] ==> rest[0].depth <= first.depth
    ensures Under(all, rest, at + 1 + |inner|, parent)
  {
    var entries, n := [first] + inner + rest, |inner|;
    forall i | at < i < at + 1 + n ensures all[i].depth > first.depth {
      assert all[at + 1..at + 1 + n][i - at - 1] == inner[i - at - 1];
    }
    forall i | 0 <= i < |rest| && parent >= 0 ensures rest[i].depth > all[parent].depth {
      assert rest[i] == entries[n + 1 + i];
    }
    assert entries[0] == first;
  }

  lemma UnderFirst(all: seq<Entry>, first: Entry, inner: seq<Entry>, rest: seq<Entry>, at: nat, parent: int)
    requires Under(all, [first] + inner + rest, at, parent)
    requires forall i :: 0 <= i < |inner| ==> inner[i].depth > first.depth
    requires rest != [] ==> rest[0].depth <= first.depth
    ensures Under(all, inner, at + 1, at)
    ensures Under(all, rest, at + 1 + |inner|, parent)
  {
    CutAll(all, first, inner, rest, at);
    UnderInner(all, first, inner, at);
    UnderRest(all, first, inner, rest, at, parent);
  }

  lemma NoParents(all: seq<Entry>, at: nat, parent: int)
    requires Under(all, [], at, parent)
    ensures ParentsRight(all, Parents(Nest([]), at, parent), at)
  {
  }

  lemma ParentsStep(all: seq<Entry>, first: Entry, inner: seq<Entry>, rest: seq<Entry>, at: nat, parent: int)
    requires ParentsRight(all, [parent], at)
    requires ParentsRight(all, Parents(Nest(inner), at + 1, at), at + 1)
    requires ParentsRight(all, Parents(Nest(rest), at + 1 + |inner|, parent), at + 1 + |inner|)
    ensures ParentsRight(all, Parents([Tree(first, Nest(inner))] + Nest(rest), at, parent), at)
  {
    hide *;
    NestPreorder(inner);
    ParentsLength(Nest(inner), at + 1, at);
    ParentsCons(first, Nest(inner), Nest(rest), at, parent);
    ParentsJoin(all, at, parent, Parents(Nest(inner), at + 1, at), Parents(Nest(rest), at + 1 + |inner|, parent));
  }

  lemma {:induction false} NestParentsFrom(all: seq<Entry>, entries: seq<Entry>, at: nat, parent: int)
    requires Under(all, entries, at, parent)
    ensures ParentsRight(all, Parents(Nest(entries), at, parent), at)
    decreases |entries|
  {
    hide *;
    if entries == [] {
      NoParents(all, at, parent);
    } else {
      var inner, rest := FirstHeading(entries);
      UnderFirst(all, entries[0], inner, rest, at, parent);
      NestParentsFrom(all, inner, at + 1, at);
      NestParentsFrom(all, rest, at + 1 + |inner|, parent);
      OneParent(all, entries, at, parent);
      ParentsStep(all, entries[0], inner, rest, at, parent);
    }
  }

  lemma ParentsJoin(all: seq<Entry>, at: nat, parent: int, below: seq<int>, after: seq<int>)
    requires ParentsRight(all, [parent], at) && ParentsRight(all, below, at + 1)
    requires ParentsRight(all, after, at + 1 + |below|)
    ensures ParentsRight(all, [parent] + below + after, at)
  {
    hide ParentsRight;
    ParentsAppend(all, [parent], below, at);
    ParentsAppend(all, [parent] + below, after, at);
  }

  lemma OneParent(all: seq<Entry>, entries: seq<Entry>, at: nat, parent: int)
    requires Under(all, entries, at, parent) && entries != []
    ensures ParentsRight(all, [parent], at)
  {
    FirstParent(all, entries, at, parent);
    assert [parent][1..] == [];
  }

  lemma ParentsCons(entry: Entry, children: seq<Tree>, rest: seq<Tree>, at: nat, parent: int)
    ensures var below := Parents(children, at + 1, at);
            Parents([Tree(entry, children)] + rest, at, parent)
              == [parent] + below + Parents(rest, at + 1 + |below|, parent)
  {
    assert ([Tree(entry, children)] + rest)[1..] == rest;
  }

  /** In the tree, each heading's parent is the nearest earlier heading of strictly
      smaller depth, and a heading with none is a root. */
  lemma NestParents(entries: seq<Entry>)
    ensures |Parents(Nest(entries), 0, -1)| == |entries|
    ensures ParentsRight(entries, Parents(Nest(entries), 0, -1), 0)
  {
    NestPreorder(entries);
    ParentsLength(Nest(entries), 0, -1);
    NestParentsFrom(entries, entries, 0, -1);
  }

  // --- Nesting one heading at a time ---

  /** The owner of a stretch of deeper headings is found whatever follows them. */
  lemma NestCons(first: Entry, inner: seq<Entry>, rest: seq<Entry>)
    requires forall i :: 0 <= i < |inner| ==> inner[i].depth > first.depth
    requires rest != [] ==> rest[0].depth <= first.depth
    ensures Nest([first] + inner + rest) == [Tree(first, Nest(inner))] + Nest(rest)
  {
    var entries := [first] + inner + rest;
    assert entries[1..] == inner + rest;
    DeeperExactly(inner, rest, first.depth);
    assert entries[1..|inner| + 1] == inner && entries[|inner| + 1..] == rest;
  }

  lemma {:induction false} DeeperExactly(inner: seq<Entry>, rest: seq<Entry>, depth: int)
    requires forall i :: 0 <= i < |inner| ==> inner[i].depth > depth
    requires rest != [] ==> rest[0].depth <= depth
    ensures Deeper(inner + rest, depth) == |inner|
  {
    if inner == [] {
      assert inner + rest == rest;
    } else {
      assert (inner + rest)[1..] == inner[1..] + rest;
      DeeperExactly(inner[1..], rest, depth);
    }
  }

  /** A heading no deeper than everything before it closes the trees before it. */
  lemma {:induction false} NestSplit(before: seq<Entry>, e: Entry, inner: seq<Entry>)
    requires forall i :: 0 <= i < |before| ==> before[i].depth >= e.depth
    requires forall i :: 0 <= i < |inner| ==> inner[i].depth > e.depth
    ensures Nest(before + [e] + inner) == Nest(before) + [Tree(e, Nest(inner))]
    decreases |before|
  {
    hide Nest;
    NoHeadings();
    if before == [] {
      NestCons(e, inner, []);
      assert before + [e] + inner == [e] + inner + [];
    } else {
      var own, rest := FirstHeading(before);
      LastPart([before[0]] + own, rest, e.depth);
      NestSplit(rest, e, inner);
      var tail := rest + [e] + inner;
      assert tail[0] == if rest == [] then e else rest[0];
      NestCons(before[0], own, tail);
      Regroup([before[0]] + own, rest, [e], inner);
      NestTail(before[0], own, Nest(rest), Tree(e, Nest(inner)));
    }
  }

  lemma LastPart(front: seq<Entry>, rest: seq<Entry>, depth: int)
    requires forall i :: 0 <= i < |front + rest| ==> (front + rest)[i].depth >= depth
    ensures forall i :: 0 <= i < |rest| ==> rest[i].depth >= depth
  {
    assert (front + rest)[|front|..] == rest;
  }

  lemma Regroup<T>(w: seq<T>, x: seq<T>, y: seq<T>, z: seq<T>)
    ensures w + (x + y + z) == w + x + y + z
  {
  }

  lemma NestTail(first: Entry, own: seq<Entry>, rest: seq<Tree>, last: Tree)
    ensures [Tree(first, Nest(own))] + (rest + [last]) == [Tree(first, Nest(own))] + rest + [last]
  {
  }

  // --- The code ---

  /** A node holds a reference to its children, which are filled in later. */
  datatype Node = Node(entry: Entry, children: ChildList)

  /** An array of nodes that a tree node and the stack share. */
  class ChildList {
    var items: seq<Node>

    constructor ()
      ensures items == []
    {
      items := [];
    }

    method Push(node: Node)
      modifies this
      ensures items == old(items) + [node]
    {
      items := items + [node];
    }
  }

  /** The nodes are the trees of `forest`; every array below them is in `lists`. */
  ghost predicate Spells(items: seq<Node>, forest: seq<Tree>, lists: set<ChildList>)
    reads lists
    decreases forest
  {
    |items| == |forest|
    && forall i :: 0 <= i < |items| ==>
      items[i].entry == forest[i].entry && items[i].children in lists
      && Spells(items[i].children.items, forest[i].children, lists)
  }

  lemma {:induction false} SpellsMore(items: seq<Node>, forest: seq<Tree>, lists: set<ChildList>, more: set<ChildList>)
    requires Spells(items, forest, lists) && lists <= more
    ensures Spells(items, forest, more)
    decreases forest
  {
    forall i | 0 <= i < |items| ensures Spells(items[i].children.items, forest[i].children, more) {
      SpellsMore(items[i].children.items, forest[i].children, lists, more);
    }
  }

  datatype Level = Level(depth: int, children: ChildList)

  /** Level k holds the finished trees between entries pos[k] and pos[k + 1], then the
      open node of entry pos[k + 1], whose children are level k + 1. */
  ghost predicate LevelRight(stack: seq<Level>, pos: seq<int>, done: set<ChildList>, entries: seq<Entry>, n: int, k: nat)
    requires |pos| == |stack| && k < |stack|
    reads done, stack[k].children
  {
    var items := stack[k].children.items;
    var next := if k + 1 < |stack| then pos[k + 1] else n;
    -1 <= pos[k] < next <= n <= |entries|
    && (k > 0 ==> pos[k] >= 0 && stack[k].depth == entries[pos[k]].depth)
    && (k > 0 ==> forall i :: pos[k] < i < n ==> entries[i].depth > entries[pos[k]].depth)
    && if k + 1 < |stack| then
      0 <= next < n && items != []
      && items[|items| - 1] == Node(entries[next], stack[k + 1].children)
      && Spells(items[..|items| - 1], Nest(entries[pos[k] + 1..next]), done)
      && forall i :: pos[k] < i < next ==> entries[i].depth >= entries[next].depth
    else
      Spells(items, Nest(entries[pos[k] + 1..n]), done)
  }

  ghost predicate Spine(stack: seq<Level>, pos: seq<int>, done: set<ChildList>, entries: seq<Entry>, n: int)
    reads done, set k | 0 <= k < |stack| :: stack[k].children
  {
    |pos| == |stack| && stack != [] && pos[0] == -1
    && (forall k :: 0 <= k < |stack| ==> stack[k].children !in done)
    && (forall j, k :: 0 <= j < k < |stack| ==> stack[j].children != stack[k].children)
    && forall k: nat :: k < |stack| ==> LevelRight(stack, pos, done, entries, n, k)
  }

  /** A level further down stays as it is. */
  lemma {:induction false} LevelBelow(stack: seq<Level>, pos: seq<int>, done: set<ChildList>, entries: seq<Entry>, n: int, k: nat)
    requires |pos| == |stack| && k + 2 < |stack| && LevelRight(stack, pos, done, entries, n, k)
    ensures var t := |stack| - 1; LevelRight(stack[..t], pos[..t], done + {stack[t].children}, entries, n, k)
  {
    hide Nest, Spells;
    var t := |stack| - 1;
    var items := stack[k].children.items;
    SpellsMore(items[..|items| - 1], Nest(entries[pos[k] + 1..pos[k + 1]]), done, done + {stack[t].children});
  }

  /** The last level but one has one more finished tree, and is the last. */
  lemma {:induction false} LevelTop(stack: seq<Level>, pos: seq<int>, done: set<ChildList>, entries: seq<Entry>, n: int)
    requires |pos| == |stack| > 1
    requires LevelRight(stack, pos, done, entries, n, |stack| - 1) && LevelRight(stack, pos, done, entries, n, |stack| - 2)
    ensures var t := |stack| - 1; LevelRight(stack[..t], pos[..t], done + {stack[t].children}, entries, n, t - 1)
  {
    hide Nest, Spells;
    CloseLast(stack, pos, done, entries, n);
  }

  lemma {:induction false} Pop(stack: seq<Level>, pos: seq<int>, done: set<ChildList>, entries: seq<Entry>, n: int)
    requires Spine(stack, pos, done, entries, n) && |stack| > 1
    ensures var t := |stack| - 1;
            Spine(stack[..t], pos[..t], done + {stack[t].children}, entries, n)
  {
    hide Nest, Spells, LevelRight;
    var t := |stack| - 1;
    var done' := done + {stack[t].children};
    forall k: nat | k < t ensures LevelRight(stack[..t], pos[..t], done', entries, n, k) {
      assert LevelRight(stack, pos, done, entries, n, k);
      if k < t - 1 {
        LevelBelow(stack, pos, done, entries, n, k);
      } else {
        assert LevelRight(stack, pos, done, entries, n, t);
        LevelTop(stack, pos, done, entries, n);
      }
    }
  }

  /** The open node of the last level but one becomes a finished tree. */
  lemma {:induction false} CloseLast(stack: seq<Level>, pos: seq<int>, done: set<ChildList>, entries: seq<Entry>, n: int)
    requires |pos| == |stack| > 1
    requires LevelRight(stack, pos, done, entries, n, |stack| - 1) && LevelRight(stack, pos, done, entries, n, |stack| - 2)
    ensures var t := |stack| - 1;
            Spells(stack[t - 1].children.items, Nest(entries[pos[t - 1] + 1..n]), done + {stack[t].children})
  {
    hide Nest, Spells;
    var t := |stack| - 1;
    CloseNode(stack[t - 1].children.items, stack[t].children, done, entries, pos[t - 1] + 1, pos[t], n);
  }

  lemma {:induction false} CloseNode(items: seq<Node>, list: ChildList, done: set<ChildList>, entries: seq<Entry>, p: int, q: int, n: int)
    requires 0 <= p <= q < n <= |entries| && items != [] && items[|items| - 1] == Node(entries[q], list)
    requires Spells(items[..|items| - 1], Nest(entries[p..q]), done)
    requires Spells(list.items, Nest(entries[q + 1..n]), done)
    requires forall i :: p <= i < q ==> entries[i].depth >= entries[q].depth
    requires forall i :: q < i < n ==> entries[i].depth > entries[q].depth
    ensures Spells(items, Nest(entries[p..n]), done + {list})
  {
    hide *;
    var front, node, done' := items[..|items| - 1], items[|items| - 1], done + {list};
    SpellsMore(front, Nest(entries[p..q]), done, done');
    SpellsMore(list.items, Nest(entries[q + 1..n]), done, done');
    SpellsOneMore(front, Nest(entries[p..q]), node, Nest(entries[q + 1..n]), done');
    assert items == front + [node];
    NestStretch(entries, p, q, n);
  }

  lemma {:induction false} NestStretch(entries: seq<Entry>, p: int, q: int, n: int)
    requires 0 <= p <= q < n <= |entries|
    requires forall i :: p <= i < q ==> entries[i].depth >= entries[q].depth
    requires forall i :: q < i < n ==> entries[i].depth > entries[q].depth
    ensures Nest(entries[p..n]) == Nest(entries[p..q]) + [Tree(entries[q], Nest(entries[q + 1..n]))]
  {
    hide Nest;
    NestSplit(entries[p..q], entries[q], entries[q + 1..n]);
    Stretch(entries, p, q, n);
  }

  lemma {:induction false} Stretch(entries: seq<Entry>, p: int, q: int, n: int)
    requires 0 <= p <= q < n <= |entries|
    ensures entries[p..q] + [entries[q]] + entries[q + 1..n] == entries[p..n]
  {
  }

  lemma {:induction false} SpellsOneMore(items: seq<Node>, forest: seq<Tree>, node: Node, inner: seq<Tree>, lists: set<ChildList>)
    requires Spells(items, forest, lists) && node.children in lists && Spells(node.children.items, inner, lists)
    ensures Spells(items + [node], forest + [Tree(node.entry, inner)], lists)
  {
  }

  /** The parts of the last level that do not depend on its array. */
  ghost predicate TopPlaced(stack: seq<Level>, pos: seq<int>, entries: seq<Entry>, n: int)
    requires |pos| == |stack| > 0
  {
    var t := |stack| - 1;
    -1 <= pos[t] < n <= |entries|
    && (t > 0 ==> pos[t] >= 0 && stack[t].depth == entries[pos[t]].depth)
    && (t > 0 ==> forall i :: pos[t] < i < n ==> entries[i].depth > entries[pos[t]].depth)
  }

  /** After heading n has been appended to the last level, it is a level of its own. */
  lemma {:induction false} PushSpine(stack: seq<Level>, pos: seq<int>, done: set<ChildList>, entries: seq<Entry>, n: int,
                  before: seq<Node>, children: ChildList)
    requires |pos| == |stack| > 0 && pos[0] == -1 && 0 <= n < |entries|
    requires forall k :: 0 <= k < |stack| ==> stack[k].children !in done && stack[k].children != children
    requires forall j, k :: 0 <= j < k < |stack| ==> stack[j].children != stack[k].children
    requires children !in done && children.items == []
    requires forall k: nat :: k < |stack| - 1 ==> LevelRight(stack, pos, done, entries, n, k)
    requires TopPlaced(stack, pos, entries, n)
    requires Spells(before, Nest(entries[pos[|pos| - 1] + 1..n]), done)
    requires stack[|stack| - 1].children.items == before + [Node(entries[n], children)]
    requires |stack| > 1 ==> stack[|stack| - 1].depth < entries[n].depth
    requires forall i :: pos[|pos| - 1] < i < n ==> entries[i].depth >= entries[n].depth
    ensures Spine(stack + [Level(entries[n].depth, children)], pos + [n], done, entries, n + 1)
  {
    hide Nest;
    NoHeadings();
    var t := |stack| - 1;
    var stack', pos' := stack + [Level(entries[n].depth, children)], pos + [n];
    var m := n + 1;
    forall k: nat | 0 < k <= t ensures 0 <= pos[k] < |entries| && entries[pos[k]].depth < entries[n].depth {
      if k < t {
        assert LevelRight(stack, pos, done, entries, n, k);
        DepthsRise(stack, pos, done, entries, n, k);
      }
    }
    forall k: nat | k < |stack'| ensures LevelRight(stack', pos', done, entries, m, k) {
      if k < t {
        assert LevelRight(stack, pos, done, entries, n, k);
      } else if k == t {
        assert stack[t].children.items[..|before|] == before;
      } else {
        assert entries[n + 1..n + 1] == [];
      }
    }
  }

  /** The depths on the stack rise towards its end. */
  lemma {:induction false} DepthsRise(stack: seq<Level>, pos: seq<int>, done: set<ChildList>, entries: seq<Entry>, n: int, k: nat)
    requires |pos| == |stack| && 0 < k < |stack| - 1
    requires forall k: nat :: k < |stack| - 1 ==> LevelRight(stack, pos, done, entries, n, k)
    requires TopPlaced(stack, pos, entries, n)
    ensures 0 <= pos[k] < |entries| && 0 <= pos[|pos| - 1] < |entries|
    ensures entries[pos[k]].depth < entries[pos[|pos| - 1]].depth
    decreases |stack| - k
  {
    hide Nest, Spells;
    assert LevelRight(stack, pos, done, entries, n, k);
    if k + 1 < |stack| - 1 {
      assert LevelRight(stack, pos, done, entries, n, k + 1);
      DepthsRise(stack, pos, done, entries, n, k + 1);
    }
  }

  /** Turn the flat heading list into the tree it describes. */
  method NestOutline(entries: seq<Entry>) returns (roots: ChildList, ghost lists: set<ChildList>)
    ensures Spells(roots.items, Nest(entries), lists)
  {
    hide Nest, Spells, LevelRight, TopPlaced;
    roots := new ChildList();
    var stack := [Level(0, roots)];
    ghost var pos, done := [-1], {};
    StartSpine(stack, entries);
    for n := 0 to |entries|
      invariant stack != [] && stack[0] == Level(0, roots)
      invariant forall k :: 0 <= k < |stack| ==> fresh(stack[k].children)
      invariant fresh(done)
      invariant Spine(stack, pos, done, entries, n)
      invariant pos[|pos| - 1] == n - 1
    {
      var entry := entries[n];
      while |stack| > 1 && stack[|stack| - 1].depth >= entry.depth
        invariant stack != [] && stack[0] == Level(0, roots)
        invariant forall k :: 0 <= k < |stack| ==> fresh(stack[k].children)
        invariant fresh(done)
        invariant Spine(stack, pos, done, entries, n)
        invariant -1 <= pos[|pos| - 1]
        invariant forall i :: pos[|pos| - 1] < i < n ==> entries[i].depth >= entry.depth
        decreases |stack|
      {
        Pop(stack, pos, done, entries, n);
        PopGap(stack, pos, done, entries, n);
        done := done + {stack[|stack| - 1].children};
        stack, pos := stack[..|stack| - 1], pos[..|pos| - 1];
      }
      var children := new ChildList();
      ghost var before := stack[|stack| - 1].children.items;
      TopOfSpine(stack, pos, done, entries, n);
      stack[|stack| - 1].children.Push(Node(entry, children));
      PushSpine(stack, pos, done, entries, n, before, children);
      stack := stack + [Level(entry.depth, children)];
      pos := pos + [n];
    }
    lists := CloseAll(stack, pos, done, entries);
  }

  lemma {:induction false} TopOfSpine(stack: seq<Level>, pos: seq<int>, done: set<ChildList>, entries: seq<Entry>, n: int)
    requires Spine(stack, pos, done, entries, n)
    ensures TopPlaced(stack, pos, entries, n)
    ensures -1 <= pos[|pos| - 1] < n <= |entries|
    ensures Spells(stack[|stack| - 1].children.items, Nest(entries[pos[|pos| - 1] + 1..n]), done)
  {
    assert LevelRight(stack, pos, done, entries, n, |stack| - 1);
  }

  lemma {:induction false} StartSpine(stack: seq<Level>, entries: seq<Entry>)
    requires |stack| == 1 && stack[0].depth == 0 && stack[0].children.items == []
    ensures Spine(stack, [-1], {}, entries, 0)
  {
    assert entries[0..0] == [];
  }

  /** When the last level is dropped, the entries after the new last one stay deep enough. */
  lemma {:induction false} PopGap(stack: seq<Level>, pos: seq<int>, done: set<ChildList>, entries: seq<Entry>, n: int)
    requires Spine(stack, pos, done, entries, n) && |stack| > 1
    ensures var p, q := pos[|pos| - 2], pos[|pos| - 1];
            -1 <= p < q < n <= |entries| && entries[q].depth == stack[|stack| - 1].depth
            && forall i :: p < i < q ==> entries[i].depth >= entries[q].depth
  {
    hide Nest, Spells;
    assert LevelRight(stack, pos, done, entries, n, |stack| - 1);
    assert LevelRight(stack, pos, done, entries, n, |stack| - 2);
  }

  /** Closing every open level shows what the roots have become. */
  lemma {:induction false} CloseAll(stack: seq<Level>, pos: seq<int>, done: set<ChildList>, entries: seq<Entry>)
    returns (lists: set<ChildList>)
    requires Spine(stack, pos, done, entries, |entries|)
    ensures Spells(stack[0].children.items, Nest(entries), lists)
    decreases |stack|
  {
    hide Nest, Spells;
    if |stack| == 1 {
      assert LevelRight(stack, pos, done, entries, |entries|, 0);
      assert entries[0..|entries|] == entries;
      lists := done;
    } else {
      Pop(stack, pos, done, entries, |entries|);
      var t := |stack| - 1;
      lists := CloseAll(stack[..t], pos[..t], done + {stack[t].children}, entries);
    }
  }
}
