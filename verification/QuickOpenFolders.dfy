/** The folders of quick open, src/renderer/quick-open-folders.ts. */
module QuickOpenFolders {
  import opened Text

  datatype Folder = Folder(relativePath: string, name: string, notes: nat)

  predicate InsideScope(path: string, scope: string)
  {
    scope == "" || scope + "/" <= path
  }

  function WithinScope(entries: seq<string>, scope: string): seq<string>
  {
    if entries == [] then []
    else (if InsideScope(entries[0], scope) then [entries[0]] else []) + WithinScope(entries[1..], scope)
  }

  /** Every part of the path but the last. */
  function Directories(path: string): seq<string>
  {
    var parts := Split(path, '/');
    parts[..|parts| - 1]
  }

  /** A path with one more part. */
  function Longer(path: string, part: string): string
  {
    if path == "" then part else path + "/" + part
  }

  /** The paths that the parts, one by one, lead to from `path`. */
  function Paths(parts: seq<string>, path: string): seq<string>
  {
    if parts == [] then [] else [Longer(path, parts[0])] + Paths(parts[1..], Longer(path, parts[0]))
  }

  function AllPaths(entries: seq<string>): seq<string>
  {
    if entries == [] then [] else AllPaths(entries[..|entries| - 1]) + Paths(Directories(entries[|entries| - 1]), "")
  }

  /** No part of the path is empty. */
  predicate NoEmptySegment(path: string)
  {
    forall i :: 0 <= i < |Split(path, '/')| ==> Split(path, '/')[i] != ""
  }

  // --- Where a path's folders end ---

  function Lead(path: string): string
  {
    if path == "" then "" else path + "/"
  }

  /** f ends where a slash of p stands, from position `at` on. */
  ghost predicate EndsAtSlash(f: string, p: string, at: nat)
  {
    at <= |f| < |p| && p[|f|] == '/' && f == p[..|f|]
  }

  lemma StartsWithIs(f: string, p: string)
    ensures f + "/" <= p <==> EndsAtSlash(f, p, 0)
  {
    if f + "/" <= p {
      assert p[..|f| + 1] == f + "/";
      assert f == (f + "/")[..|f|] == p[..|f|];
    }
    if EndsAtSlash(f, p, 0) {
      assert f + "/" == p[..|f| + 1];
    }
  }

  lemma NoSlash(p: string, lead: string, rest: string, f: string)
    requires p == lead + rest && '/' !in rest
    ensures !EndsAtSlash(f, p, |lead|)
  {
    assert forall i :: |lead| <= i < |p| ==> p[i] == rest[i - |lead|];
  }

  /** Beyond `lead` the first slash is the one after d. */
  lemma FirstSlash(p: string, lead: string, d: string, rest: string, f: string)
    requires p == lead + d + "/" + rest && '/' !in d
    ensures EndsAtSlash(f, p, |lead|) <==> f == lead + d || EndsAtSlash(f, p, |lead + d + "/"|)
  {
    if EndsAtSlash(f, p, |lead|) {
      assert forall i :: |lead| <= i < |lead + d| ==> p[i] == d[i - |lead|];
      if |f| == |lead + d| { assert f == p[..|lead + d|] == lead + d; }
    }
    assert p[|lead + d|] == '/' && p[..|lead + d|] == lead + d;
  }

  lemma {:induction false} PathsEnd(dirs: seq<string>, last: string, path: string, f: string)
    requires Apart(dirs + [last], '/') && forall i :: 0 <= i < |dirs| ==> dirs[i] != ""
    ensures f in Paths(dirs, path) <==> EndsAtSlash(f, Lead(path) + Join(dirs + [last], '/'), |Lead(path)|)
    decreases |dirs|
  {
    var p := Lead(path) + Join(dirs + [last], '/');
    assert (dirs + [last])[|dirs|] == last;
    if dirs == [] {
      assert dirs + [last] == [last];
      NoSlash(p, Lead(path), last, f);
    } else {
      var next, rest := Longer(path, dirs[0]), dirs[1..];
      assert dirs + [last] == [dirs[0]] + (rest + [last]);
      JoinCons(dirs[0], rest + [last], '/');
      assert dirs[0] == (dirs + [last])[0];
      assert next == Lead(path) + dirs[0];
      assert p == Lead(next) + Join(rest + [last], '/');
      FirstSlash(p, Lead(path), dirs[0], Join(rest + [last], '/'), f);
      RestApart(dirs, last);
      PathsEnd(rest, last, next, f);
    }
  }

  lemma RestApart(dirs: seq<string>, last: string)
    requires dirs != [] && Apart(dirs + [last], '/')
    ensures Apart(dirs[1..] + [last], '/')
  {
    forall i | 0 <= i < |dirs| ensures '/' !in (dirs[1..] + [last])[i] { var j := i + 1; assert (dirs + [last])[j] == (dirs[1..] + [last])[i]; }
  }

  /** For a path without empty parts, the folders counted are those it is inside of. */
  lemma PathsAreScopes(path: string, f: string)
    requires NoEmptySegment(path)
    ensures f in Paths(Directories(path), "") <==> f + "/" <= path
  {
    var parts := Split(path, '/');
    var n := |parts| - 1;
    assert parts == parts[..n] + [parts[n]];
    SplitApart(path, '/');
    JoinSplit(path, '/');
    PathsEnd(parts[..n], parts[n], "", f);
    assert "" + path == path;
    StartsWithIs(f, path);
  }

  lemma {:induction false} PathsGrow(dirs: seq<string>, path: string, f: string)
    requires forall i :: 0 <= i < |dirs| ==> dirs[i] != ""
    ensures f in Paths(dirs, path) ==> |f| > |path|
    ensures multiset(Paths(dirs, path))[f] <= 1
    decreases |dirs|
  {
    if dirs != [] {
      PathsGrow(dirs[1..], Longer(path, dirs[0]), f);
    }
  }

  lemma OneEach(path: string, f: string)
    requires NoEmptySegment(path)
    ensures multiset(Paths(Directories(path), ""))[f] == (if f + "/" <= path then 1 else 0)
    ensures f in Paths(Directories(path), "") ==> f != ""
  {
    PathsAreScopes(path, f);
    PathsGrow(Directories(path), "", f);
  }

  lemma {:induction false} CountIsScope(entries: seq<string>, f: string)
    requires f != "" && forall i :: 0 <= i < |entries| ==> NoEmptySegment(entries[i])
    ensures multiset(AllPaths(entries))[f] == |WithinScope(entries, f)|
  {
    hide NoEmptySegment, Paths, Directories, WithinScope;
    if entries == [] {
      NothingWithin(f);
    } else {
      var n := |entries| - 1;
      CountIsScope(entries[..n], f);
      OneEach(entries[n], f);
      WithinLast(entries[..n], entries[n], f);
      assert entries == entries[..n] + [entries[n]];
    }
  }

  lemma NothingWithin(f: string)
    ensures WithinScope([], f) == []
  {
  }

  lemma {:induction false} WithinLast(entries: seq<string>, last: string, f: string)
    ensures WithinScope(entries + [last], f) == WithinScope(entries, f) + if InsideScope(last, f) then [last] else []
  {
    hide InsideScope;
    if entries == [] {
      assert entries + [last] == [last] && [last][1..] == [];
    } else {
      assert (entries + [last])[1..] == entries[1..] + [last];
      WithinLast(entries[1..], last, f);
    }
  }

  lemma {:induction false} NoRootCounted(entries: seq<string>)
    requires forall i :: 0 <= i < |entries| ==> NoEmptySegment(entries[i])
    ensures "" !in AllPaths(entries)
  {
    if entries != [] {
      var n := |entries| - 1;
      NoRootCounted(entries[..n]);
      OneEach(entries[n], "");
    }
  }

  // --- Sorting ---

  /** Most notes first; folders with equally many as the locale's comparison has them. */
  predicate Before(tie: (string, string) -> int, left: Folder, right: Folder)
  {
    left.notes > right.notes || (left.notes == right.notes && tie(left.relativePath, right.relativePath) <= 0)
  }

  function Insert(tie: (string, string) -> int, folder: Folder, sorted: seq<Folder>): seq<Folder>
  {
    if sorted == [] then [folder]
    else if Before(tie, sorted[|sorted| - 1], folder) then sorted + [folder]
    else Insert(tie, folder, sorted[..|sorted| - 1]) + [sorted[|sorted| - 1]]
  }

  function Sort(tie: (string, string) -> int, folders: seq<Folder>): seq<Folder>
  {
    if folders == [] then [] else Insert(tie, folders[|folders| - 1], Sort(tie, folders[..|folders| - 1]))
  }

  predicate Descending(folders: seq<Folder>)
  {
    forall i, j :: 0 <= i < j < |folders| ==> folders[i].notes >= folders[j].notes
  }

  lemma {:induction false} InsertPermutes(tie: (string, string) -> int, folder: Folder, sorted: seq<Folder>)
    ensures multiset(Insert(tie, folder, sorted)) == multiset(sorted) + multiset{folder}
  {
    if sorted != [] {
      var n := |sorted| - 1;
      assert sorted == sorted[..n] + [sorted[n]];
      InsertPermutes(tie, folder, sorted[..n]);
    }
  }

  /** No folder of `folders` has fewer notes than n. */
  predicate AtLeast(folders: seq<Folder>, n: nat)
  {
    forall i :: 0 <= i < |folders| ==> folders[i].notes >= n
  }

  lemma PermutedAtLeast(xs: seq<Folder>, ys: seq<Folder>, n: nat)
    requires multiset(xs) == multiset(ys) && AtLeast(ys, n)
    ensures AtLeast(xs, n)
  {
    forall i | 0 <= i < |xs| ensures xs[i].notes >= n {
      assert xs[i] in multiset(xs);
      assert xs[i] in ys;
    }
  }

  lemma DescendingAppend(folders: seq<Folder>, last: Folder)
    requires Descending(folders) && AtLeast(folders, last.notes)
    ensures Descending(folders + [last])
  {
  }

  lemma LastLeast(folders: seq<Folder>, n: nat)
    requires Descending(folders) && (folders != [] ==> folders[|folders| - 1].notes >= n)
    ensures AtLeast(folders, n)
  {
  }

  lemma FrontDescending(folders: seq<Folder>, n: nat)
    requires Descending(folders) && n <= |folders|
    ensures Descending(folders[..n])
    ensures n < |folders| ==> AtLeast(folders[..n], folders[n].notes)
  {
  }

  lemma AtLeastAppend(folders: seq<Folder>, last: Folder, n: nat)
    requires AtLeast(folders, n) && last.notes >= n
    ensures AtLeast(folders + [last], n)
  {
  }

  lemma {:induction false} InsertSorts(tie: (string, string) -> int, folder: Folder, sorted: seq<Folder>)
    requires Descending(sorted)
    ensures Descending(Insert(tie, folder, sorted))
  {
    hide Descending, AtLeast;
    if sorted == [] {
      NoneDescending(folder);
    } else if Before(tie, sorted[|sorted| - 1], folder) {
      LastLeast(sorted, folder.notes);
      DescendingAppend(sorted, folder);
    } else {
      var n := |sorted| - 1;
      FrontDescending(sorted, n);
      InsertSorts(tie, folder, sorted[..n]);
      InsertPermutes(tie, folder, sorted[..n]);
      AtLeastAppend(sorted[..n], folder, sorted[n].notes);
      PermutedAtLeast(Insert(tie, folder, sorted[..n]), sorted[..n] + [folder], sorted[n].notes);
      DescendingAppend(Insert(tie, folder, sorted[..n]), sorted[n]);
    }
  }

  lemma NoneDescending(folder: Folder)
    ensures Descending([folder]) && Descending([])
  {
  }

  lemma {:induction false} SortSorts(tie: (string, string) -> int, folders: seq<Folder>)
    ensures Descending(Sort(tie, folders)) && multiset(Sort(tie, folders)) == multiset(folders)
  {
    if folders != [] {
      var n := |folders| - 1;
      assert folders == folders[..n] + [folders[n]];
      SortSorts(tie, folders[..n]);
      InsertSorts(tie, folders[n], Sort(tie, folders[..n]));
      InsertPermutes(tie, folders[n], Sort(tie, folders[..n]));
    }
  }

  /** What a locale's comparison promises: it orders everything, without going in circles. */
  ghost predicate Comparison(tie: (string, string) -> int)
  {
    (forall x, y :: tie(x, y) <= 0 || tie(y, x) <= 0) && (forall x, y, z :: tie(x, y) <= 0 && tie(y, z) <= 0 ==> tie(x, z) <= 0)
  }

  predicate InOrder(tie: (string, string) -> int, folders: seq<Folder>)
  {
    forall i, j :: 0 <= i < j < |folders| ==> Before(tie, folders[i], folders[j])
  }

  lemma BeforeOrders(tie: (string, string) -> int, x: Folder, y: Folder, z: Folder)
    requires Comparison(tie)
    ensures Before(tie, x, y) || Before(tie, y, x)
    ensures Before(tie, x, y) && Before(tie, y, z) ==> Before(tie, x, z)
  {
  }

  lemma InOrderLast(tie: (string, string) -> int, folders: seq<Folder>, last: Folder)
    requires InOrder(tie, folders) && forall x :: x in folders ==> Before(tie, x, last)
    ensures InOrder(tie, folders + [last])
  {
    hide Before;
  }

  lemma InOrderFront(tie: (string, string) -> int, folders: seq<Folder>, n: nat)
    requires InOrder(tie, folders) && n < |folders|
    ensures InOrder(tie, folders[..n]) && forall x :: x in folders[..n] ==> Before(tie, x, folders[n])
  {
    hide Before;
  }

  lemma InsertedIn(tie: (string, string) -> int, folder: Folder, sorted: seq<Folder>)
    ensures forall x :: x in Insert(tie, folder, sorted) <==> x in sorted || x == folder
  {
    hide Insert;
    InsertPermutes(tie, folder, sorted);
    assert forall x :: x in Insert(tie, folder, sorted) <==> x in multiset(Insert(tie, folder, sorted));
    assert forall x :: x in sorted <==> x in multiset(sorted);
  }

  lemma {:induction false} InsertInOrder(tie: (string, string) -> int, folder: Folder, sorted: seq<Folder>)
    requires Comparison(tie) && InOrder(tie, sorted)
    ensures InOrder(tie, Insert(tie, folder, sorted))
  {
    hide Before, InOrder, Comparison;
    if sorted == [] {
      OneInOrder(tie, folder);
    } else {
      var n := |sorted| - 1;
      InOrderFront(tie, sorted, n);
      BeforeOrders(tie, folder, sorted[n], folder);
      if Before(tie, sorted[n], folder) {
        forall x | x in sorted ensures Before(tie, x, folder) { BeforeOrders(tie, x, sorted[n], folder); assert x == sorted[n] || x in sorted[..n]; }
        InOrderLast(tie, sorted, folder);
      } else {
        InsertInOrder(tie, folder, sorted[..n]);
        InsertedIn(tie, folder, sorted[..n]);
        InOrderLast(tie, Insert(tie, folder, sorted[..n]), sorted[n]);
      }
    }
  }

  lemma OneInOrder(tie: (string, string) -> int, folder: Folder)
    ensures InOrder(tie, [folder]) && InOrder(tie, [])
  {
  }

  /** Most notes first, and equally full folders as the locale orders them. */
  lemma {:induction false} SortInOrder(tie: (string, string) -> int, folders: seq<Folder>)
    requires Comparison(tie)
    ensures InOrder(tie, Sort(tie, folders))
  {
    hide InOrder, Insert, Comparison;
    if folders == [] {
      NothingInOrder(tie);
    } else {
      var n := |folders| - 1;
      SortInOrder(tie, folders[..n]);
      InsertInOrder(tie, folders[n], Sort(tie, folders[..n]));
    }
  }

  lemma NothingInOrder(tie: (string, string) -> int)
    ensures InOrder(tie, [])
  {
  }

  // --- The count ---

  /** The counts are those of the paths seen so far, each path once in order of its first sight. */
  ghost predicate Counted(counts: map<string, nat>, order: seq<string>, seen: seq<string>)
  {
    (forall f :: f in counts <==> f in seen)
    && (forall f :: f in counts ==> counts[f] == multiset(seen)[f])
    && (forall f :: f in order <==> f in counts)
    && (forall i, j :: 0 <= i < j < |order| ==> order[i] != order[j])
  }

  lemma CountOne(counts: map<string, nat>, order: seq<string>, seen: seq<string>, path: string)
    requires Counted(counts, order, seen)
    ensures Counted(counts[path := (if path in counts then counts[path] else 0) + 1],
                    if path in counts then order else order + [path], seen + [path])
  {
  }

  /** Count every folder of every path. */
  method Count(entries: seq<string>) returns (counts: map<string, nat>, order: seq<string>)
    ensures Counted(counts, order, AllPaths(entries))
  {
    hide Counted;
    counts, order := map[], [];
    ghost var seen: seq<string> := [];
    NothingCounted();
    for i := 0 to |entries|
      invariant Counted(counts, order, seen) && seen == AllPaths(entries[..i])
    {
      var parts := Directories(entries[i]);
      var path := "";
      ghost var before := seen;
      for j := 0 to |parts|
        invariant Counted(counts, order, seen)
        invariant before + Paths(parts, "") == seen + Paths(parts[j..], path)
      {
        path := if path == "" then parts[j] else path + "/" + parts[j];
        CountOne(counts, order, seen, path);
        if path !in counts { order := order + [path]; }
        counts := counts[path := (if path in counts then counts[path] else 0) + 1];
        seen := seen + [path];
        assert parts[j..][1..] == parts[j + 1..];
        assert seen + Paths(parts[j + 1..], path) == before + Paths(parts, "");
      }
      assert entries[..i + 1][..i] == entries[..i];
    }
    assert entries[..|entries|] == entries;
  }

  lemma NothingCounted()
    ensures Counted(map[], [], [])
  {
  }

  // --- The folders ---

  function Row(path: string, notes: nat): Folder
  {
    var parts := Split(path, '/');
    Folder(path, parts[|parts| - 1], notes)
  }

  /** A folder is named by what stands behind its last `/`. */
  lemma RowNamed(lead: string, name: string, notes: nat)
    requires '/' !in name
    ensures Row(lead + "/" + name, notes) == Folder(lead + "/" + name, name, notes) && Row(name, notes) == Folder(name, name, notes)
  {
    SplitPlain(name, '/');
    SplitAppend(lead, name, '/');
  }

  function Rows(counts: map<string, nat>, order: seq<string>): (rows: seq<Folder>)
    requires forall i :: 0 <= i < |order| ==> order[i] in counts
    ensures |rows| == |order|
    ensures forall i :: 0 <= i < |order| ==> rows[i] == Row(order[i], counts[order[i]])
  {
    seq(|order|, i requires 0 <= i < |order| => Row(order[i], counts[order[i]]))
  }

  /** Each row is its folder's, with as many notes as the folder's scope leaves. */
  ghost predicate RowsRight(entries: seq<string>, folders: seq<Folder>)
  {
    forall row :: row in folders ==> row.relativePath != "" && row == Row(row.relativePath, |WithinScope(entries, row.relativePath)|)
  }

  /** The folder has a row. */
  ghost predicate HasRow(folders: seq<Folder>, f: string)
  {
    exists row :: row in folders && row.relativePath == f
  }

  /** One row for each folder that holds a note, and no other. */
  ghost predicate ExactlyFolders(entries: seq<string>, folders: seq<Folder>)
  {
    RowsRight(entries, folders)
    && (forall f :: HasRow(folders, f) <==> f != "" && WithinScope(entries, f) != [])
    && (forall row :: multiset(folders)[row] <= 1)
  }

  lemma CountedScopes(entries: seq<string>, counts: map<string, nat>, order: seq<string>, f: string)
    requires Counted(counts, order, AllPaths(entries)) && forall i :: 0 <= i < |entries| ==> NoEmptySegment(entries[i])
    ensures f in order <==> f != "" && WithinScope(entries, f) != []
    ensures f in order ==> f in counts && counts[f] == |WithinScope(entries, f)|
  {
    hide AllPaths, WithinScope, NoEmptySegment;
    NoRootCounted(entries);
    if f != "" { CountIsScope(entries, f); }
  }

  lemma RowsExactly(entries: seq<string>, counts: map<string, nat>, order: seq<string>)
    requires Counted(counts, order, AllPaths(entries)) && forall i :: 0 <= i < |entries| ==> NoEmptySegment(entries[i])
    ensures ExactlyFolders(entries, Rows(counts, order))
  {
    hide AllPaths, WithinScope, NoEmptySegment, Row, HasRow;
    var rows := Rows(counts, order);
    forall f ensures HasRow(rows, f) <==> f != "" && WithinScope(entries, f) != [] {
      CountedScopes(entries, counts, order, f);
      RowPath(counts, order, f);
    }
    RowsDistinct(counts, order);
    RowsAreRight(entries, counts, order);
  }

  lemma RowsAreRight(entries: seq<string>, counts: map<string, nat>, order: seq<string>)
    requires Counted(counts, order, AllPaths(entries)) && forall i :: 0 <= i < |entries| ==> NoEmptySegment(entries[i])
    ensures RowsRight(entries, Rows(counts, order))
  {
    hide AllPaths, WithinScope, NoEmptySegment, Row, Counted;
    CountedOrder(counts, order, AllPaths(entries));
    var rows := Rows(counts, order);
    forall row | row in rows ensures row.relativePath != "" && row == Row(row.relativePath, |WithinScope(entries, row.relativePath)|) {
      var i :| 0 <= i < |rows| && rows[i] == row;
      CountedScopes(entries, counts, order, order[i]);
      RowIs(order[i], counts[order[i]]);
    }
  }

  lemma RowIs(path: string, notes: nat)
    ensures Row(path, notes).relativePath == path && Row(path, notes).notes == notes
  {
  }

  lemma RowPath(counts: map<string, nat>, order: seq<string>, f: string)
    requires forall i :: 0 <= i < |order| ==> order[i] in counts
    ensures HasRow(Rows(counts, order), f) <==> f in order
  {
    if f in order {
      var i :| 0 <= i < |order| && order[i] == f;
      assert Rows(counts, order)[i] in Rows(counts, order);
    }
  }

  lemma {:induction false} RowsDistinct(counts: map<string, nat>, order: seq<string>)
    requires forall i :: 0 <= i < |order| ==> order[i] in counts
    requires forall i, j :: 0 <= i < j < |order| ==> order[i] != order[j]
    ensures forall row :: multiset(Rows(counts, order))[row] <= 1
    decreases |order|
  {
    if order != [] {
      var n := |order| - 1;
      var rows, rest := Rows(counts, order), Rows(counts, order[..n]);
      assert rows == rest + [rows[n]];
      RowsDistinct(counts, order[..n]);
      RowPath(counts, order[..n], order[n]);
      assert rows[n] !in rest;
    }
  }

  lemma SortedExactly(entries: seq<string>, xs: seq<Folder>, ys: seq<Folder>)
    requires ExactlyFolders(entries, xs) && multiset(xs) == multiset(ys)
    ensures ExactlyFolders(entries, ys)
  {
    hide Row, WithinScope;
    assert forall row :: row in xs <==> row in multiset(xs);
    assert forall row :: row in ys <==> row in multiset(ys);
    forall f ensures HasRow(xs, f) <==> HasRow(ys, f) {}
  }

  /** Every folder that holds a note, with how many notes are under it, most first. */
  method FoldersOf(entries: seq<string>, tie: (string, string) -> int) returns (folders: seq<Folder>)
    ensures Descending(folders) && (Comparison(tie) ==> InOrder(tie, folders))
    ensures (forall i :: 0 <= i < |entries| ==> NoEmptySegment(entries[i])) ==> ExactlyFolders(entries, folders)
    ensures forall row :: row in folders ==> row.notes == multiset(AllPaths(entries))[row.relativePath]
  {
    hide AllPaths, WithinScope, NoEmptySegment, Row, Sort, ExactlyFolders, Descending, InOrder, Comparison;
    var counts, order := Count(entries);
    CountedOrder(counts, order, AllPaths(entries));
    var rows := Rows(counts, order);
    folders := Sort(tie, rows);
    SortSorts(tie, rows);
    if Comparison(tie) { SortInOrder(tie, rows); }
    if forall i :: 0 <= i < |entries| ==> NoEmptySegment(entries[i]) {
      RowsExactly(entries, counts, order);
      SortedExactly(entries, rows, folders);
    }
    forall row | row in folders ensures row.notes == multiset(AllPaths(entries))[row.relativePath] {
      assert row in multiset(folders);
      var i :| 0 <= i < |rows| && rows[i] == row;
      RowIs(order[i], counts[order[i]]);
    }
  }

  lemma CountedOrder(counts: map<string, nat>, order: seq<string>, seen: seq<string>)
    requires Counted(counts, order, seen)
    ensures forall i :: 0 <= i < |order| ==> order[i] in counts
  {
  }
}
