/** In what order src/renderer/wiki-target.ts lists the notes that a link could mean. */
module CandidateOrder {
  import opened Options
  import opened Text
  import opened WikiTarget

  type Relation = (Candidate, Candidate) -> bool

  /** Whatever comes before something else is related to it. */
  ghost predicate Pairwise(related: Relation, list: seq<Candidate>)
  {
    forall i, j :: 0 <= i < j < |list| ==> related(list[i], list[j])
  }

  /** The one is listed before the other. */
  ghost predicate Earlier(entries: seq<Candidate>, x: Candidate, y: Candidate)
  {
    exists p, q :: 0 <= p < q < |entries| && entries[p] == x && entries[q] == y
  }

  function Close(lower: string -> string, folder: string, c: Candidate): nat
  {
    Closeness(lower, c.relativePath, folder)
  }

  /** Nearer, or as near and listed before. */
  ghost predicate Nearer(lower: string -> string, folder: string, entries: seq<Candidate>, x: Candidate, y: Candidate)
  {
    Close(lower, folder, x) > Close(lower, folder, y) || (Close(lower, folder, x) == Close(lower, folder, y) && Earlier(entries, x, y))
  }

  /** 0 for a note beside the link, 1 for one from the root, 2 for one found by name alone. */
  function Rank(lower: string -> string, target: string, from: Option<string>, c: Candidate): nat
  {
    if Key(lower, c.relativePath) == Key(lower, FromFolder(from) + "/" + Wanted(target)) then 0
    else if Key(lower, c.relativePath) == Key(lower, Wanted(target)) then 1
    else 2
  }

  ghost predicate Better(lower: string -> string, target: string, from: Option<string>, entries: seq<Candidate>, x: Candidate, y: Candidate)
  {
    var i, j := Rank(lower, target, from, x), Rank(lower, target, from, y);
    i < j || (i == j && if i < 2 then Earlier(entries, x, y) else Nearer(lower, FromFolder(from), entries, x, y))
  }

  ghost function EarlierIn(entries: seq<Candidate>): Relation
  {
    (x, y) => Earlier(entries, x, y)
  }

  ghost function NearerIn(lower: string -> string, folder: string, entries: seq<Candidate>): Relation
  {
    (x, y) => Nearer(lower, folder, entries, x, y)
  }

  ghost function BetterIn(lower: string -> string, target: string, from: Option<string>, entries: seq<Candidate>): Relation
  {
    (x, y) => Better(lower, target, from, entries, x, y)
  }

  // --- Lists in order ---

  lemma PairwiseLast(related: Relation, list: seq<Candidate>, last: Candidate)
    requires Pairwise(related, list) && forall x :: x in list ==> related(x, last)
    ensures Pairwise(related, list + [last])
  {
  }

  lemma PairwiseFront(related: Relation, list: seq<Candidate>, n: nat)
    requires Pairwise(related, list) && n < |list|
    ensures Pairwise(related, list[..n]) && forall x :: x in list[..n] ==> related(x, list[n])
  {
  }

  /** What is taken keeps its order, behind what was taken before. */
  lemma {:induction false} TakeInOrder(related: Relation, found: seq<Candidate>, list: seq<Candidate>)
    requires Pairwise(related, found)
    requires forall i, j :: 0 <= i < j < |list| && !Seen(found, list[i].path) && !Seen(found, list[j].path) ==> related(list[i], list[j])
    requires forall x, y :: x in found && y in list && !Seen(found, y.path) ==> related(x, y)
    ensures Pairwise(related, Take(found, list))
    ensures forall x :: x in Take(found, list) ==> x in found || (x in list && !Seen(found, x.path))
  {
    hide Pairwise;
    if list != [] {
      var n := |list| - 1;
      var front, last := list[..n], list[n];
      TakeInOrder(related, found, front);
      TakeKeeps(found, front);
      if !Seen(Take(found, front), last.path) {
        forall x | x in Take(found, front) ensures related(x, last) {
          if x !in found { var i :| 0 <= i < |front| && front[i] == x; assert list[i] == x; }
        }
        PairwiseLast(related, Take(found, front), last);
      }
    }
  }

  lemma EarlierMore(entries: seq<Candidate>, more: Candidate, x: Candidate, y: Candidate)
    ensures Earlier(entries, x, y) ==> Earlier(entries + [more], x, y)
    ensures x in entries ==> Earlier(entries + [more], x, more)
  {
    var all, n := entries + [more], |entries|;
    assert all[n] == more;
    if Earlier(entries, x, y) {
      var p, q :| 0 <= p < q < |entries| && entries[p] == x && entries[q] == y;
      assert all[p] == x && all[q] == y;
    }
    if x in entries {
      var p :| 0 <= p < |entries| && entries[p] == x;
      assert all[p] == x;
    }
  }

  lemma PairwiseMore(list: seq<Candidate>, entries: seq<Candidate>, more: Candidate)
    requires Pairwise(EarlierIn(entries), list)
    ensures Pairwise(EarlierIn(entries + [more]), list)
  {
    forall i, j | 0 <= i < j < |list| ensures EarlierIn(entries + [more])(list[i], list[j]) {
      assert EarlierIn(entries)(list[i], list[j]);
      EarlierMore(entries, more, list[i], list[j]);
    }
  }

  lemma OneMoreInOrder(list: seq<Candidate>, entries: seq<Candidate>, more: Candidate)
    requires Pairwise(EarlierIn(entries), list) && forall x :: x in list ==> x in entries
    ensures Pairwise(EarlierIn(entries + [more]), list + [more])
  {
    hide Earlier;
    PairwiseMore(list, entries, more);
    forall x | x in list ensures EarlierIn(entries + [more])(x, more) { EarlierMore(entries, more, x, more); }
    PairwiseLast(EarlierIn(entries + [more]), list, more);
  }

  lemma {:induction false} AtKeyInOrder(lower: string -> string, entries: seq<Candidate>, key: string)
    ensures Pairwise(EarlierIn(entries), AtKey(lower, entries, key))
  {
    hide Key, Pairwise, EarlierIn;
    if entries == [] {
      NothingInOrder(EarlierIn([]));
    } else {
      var n := |entries| - 1;
      AtKeyInOrder(lower, entries[..n], key);
      AtKeyHas(lower, entries[..n], key);
      assert entries == entries[..n] + [entries[n]];
      PairwiseMore(AtKey(lower, entries[..n], key), entries[..n], entries[n]);
      OneMoreInOrder(AtKey(lower, entries[..n], key), entries[..n], entries[n]);
      assert AtKey(lower, entries[..n], key) + [] == AtKey(lower, entries[..n], key);
    }
  }

  lemma NothingInOrder(related: Relation)
    ensures Pairwise(related, [])
  {
  }

  lemma {:induction false} NamedKeyInOrder(lower: string -> string, entries: seq<Candidate>, key: string)
    ensures Pairwise(EarlierIn(entries), NamedKey(lower, entries, key))
  {
    hide Key, Pairwise, EarlierIn;
    if entries == [] {
      NothingInOrder(EarlierIn([]));
    } else {
      var n := |entries| - 1;
      NamedKeyInOrder(lower, entries[..n], key);
      NamedKeyHas(lower, entries[..n], key);
      assert entries == entries[..n] + [entries[n]];
      PairwiseMore(NamedKey(lower, entries[..n], key), entries[..n], entries[n]);
      OneMoreInOrder(NamedKey(lower, entries[..n], key), entries[..n], entries[n]);
      assert NamedKey(lower, entries[..n], key) + [] == NamedKey(lower, entries[..n], key);
    }
  }

  // --- By name, nearest first ---

  lemma PlacedIn(lower: string -> string, folder: string, c: Candidate, sorted: seq<Candidate>)
    ensures forall x :: x in PlaceNear(lower, folder, c, sorted) <==> x in sorted || x == c
  {
    hide PlaceNear;
    PlaceHas(lower, folder, c, sorted);
    assert forall x :: x in PlaceNear(lower, folder, c, sorted) <==> x in multiset(PlaceNear(lower, folder, c, sorted));
    assert forall x :: x in sorted <==> x in multiset(sorted);
  }

  lemma {:induction false} PlaceInOrder(lower: string -> string, folder: string, entries: seq<Candidate>, c: Candidate, sorted: seq<Candidate>)
    requires Pairwise(NearerIn(lower, folder, entries), sorted) && forall x :: x in sorted ==> Earlier(entries, x, c)
    ensures Pairwise(NearerIn(lower, folder, entries), PlaceNear(lower, folder, c, sorted))
  {
    hide Closeness, Earlier, Pairwise;
    var near := NearerIn(lower, folder, entries);
    if sorted == [] {
      OneInOrder(near, c);
    } else {
      var n := |sorted| - 1;
      PairwiseFront(near, sorted, n);
      assert sorted == sorted[..n] + [sorted[n]];
      if Close(lower, folder, sorted[n]) >= Close(lower, folder, c) {
        forall x | x in sorted ensures near(x, c) { assert x == sorted[n] || near(x, sorted[n]); }
        PairwiseLast(near, sorted, c);
      } else {
        PlaceInOrder(lower, folder, entries, c, sorted[..n]);
        PlacedIn(lower, folder, c, sorted[..n]);
        PairwiseLast(near, PlaceNear(lower, folder, c, sorted[..n]), sorted[n]);
      }
    }
  }

  lemma OneInOrder(related: Relation, c: Candidate)
    ensures Pairwise(related, [c])
  {
  }

  lemma {:induction false} NearestInOrder(lower: string -> string, folder: string, entries: seq<Candidate>, list: seq<Candidate>)
    requires Pairwise(EarlierIn(entries), list)
    ensures Pairwise(NearerIn(lower, folder, entries), Nearest(lower, folder, list))
  {
    hide Closeness, Pairwise, PlaceNear, Earlier, NearerIn;
    if list == [] {
      NothingInOrder(NearerIn(lower, folder, entries));
    } else {
      var n := |list| - 1;
      PairwiseFront(EarlierIn(entries), list, n);
      NearestInOrder(lower, folder, entries, list[..n]);
      NearestIn(lower, folder, list[..n]);
      PlaceInOrder(lower, folder, entries, list[n], Nearest(lower, folder, list[..n]));
    }
  }

  lemma NearestIn(lower: string -> string, folder: string, list: seq<Candidate>)
    ensures forall x :: x in Nearest(lower, folder, list) <==> x in list
  {
    hide Nearest;
    NearestHas(lower, folder, list);
    assert forall x :: x in Nearest(lower, folder, list) <==> x in multiset(Nearest(lower, folder, list));
    assert forall x :: x in list <==> x in multiset(list);
  }

  // --- The candidates ---

  /** Better first: beside, from the root, by name nearest first, and otherwise as listed. */
  lemma BestFirst(lower: string -> string, target: string, from: Option<string>, entries: seq<Candidate>)
    ensures Pairwise(BetterIn(lower, target, from, entries), Candidates(lower, target, from, entries))
    ensures forall x :: x in Candidates(lower, target, from, entries) ==> x in entries
  {
    hide Take, Nearest, AtKey, NamedKey, Key, Wanted, Pairwise, Closeness, Earlier;
    var wanted, folder := Wanted(target), FromFolder(from);
    var better := BetterIn(lower, target, from, entries);
    if wanted == "" {
      NothingInOrder(better);
    } else {
      var beside, rooted := AtKey(lower, entries, Key(lower, folder + "/" + wanted)), AtKey(lower, entries, Key(lower, wanted));
      var byName := NamedKey(lower, entries, Key(lower, wanted));
      var named := Nearest(lower, folder, byName);
      AtKeyHas(lower, entries, Key(lower, folder + "/" + wanted));
      AtKeyHas(lower, entries, Key(lower, wanted));
      NamedKeyHas(lower, entries, Key(lower, wanted));
      NearestIn(lower, folder, byName);
      BesideInOrder(lower, target, from, entries, beside);
      RootedInOrder(lower, target, from, entries, Take([], beside), beside, rooted);
      NamedInOrder(lower, target, from, entries, Take(Take([], beside), rooted), beside, rooted, byName);
    }
  }

  lemma BesideInOrder(lower: string -> string, target: string, from: Option<string>, entries: seq<Candidate>, beside: seq<Candidate>)
    requires beside == AtKey(lower, entries, Key(lower, FromFolder(from) + "/" + Wanted(target)))
    ensures var found := Take([], beside);
            Pairwise(BetterIn(lower, target, from, entries), found)
            && (forall x :: x in found ==> x in beside && Rank(lower, target, from, x) == 0)
            && (forall path :: Seen(found, path) <==> Seen(beside, path))
  {
    hide Take, AtKey, Key, Wanted, Closeness, Earlier, Seen;
    AtKeyHas(lower, entries, Key(lower, FromFolder(from) + "/" + Wanted(target)));
    AtKeyInOrder(lower, entries, Key(lower, FromFolder(from) + "/" + Wanted(target)));
    var better := BetterIn(lower, target, from, entries);
    forall i, j | 0 <= i < j < |beside| ensures better(beside[i], beside[j]) { assert EarlierIn(entries)(beside[i], beside[j]); }
    TakeInOrder(better, [], beside);
    TakeKeeps([], beside);
    NoneSeen();
  }

  lemma NoneSeen()
    ensures forall path :: !Seen([], path)
  {
  }

  lemma SeenThere(list: seq<Candidate>, x: Candidate)
    requires x in list
    ensures Seen(list, x.path)
  {
    SeenIn(list, x.path);
  }

  lemma RootedInOrder(lower: string -> string, target: string, from: Option<string>, entries: seq<Candidate>,
                      found: seq<Candidate>, beside: seq<Candidate>, rooted: seq<Candidate>)
    requires beside == AtKey(lower, entries, Key(lower, FromFolder(from) + "/" + Wanted(target)))
    requires rooted == AtKey(lower, entries, Key(lower, Wanted(target)))
    requires Pairwise(BetterIn(lower, target, from, entries), found)
    requires forall x :: x in found ==> x in beside && Rank(lower, target, from, x) == 0
    requires forall path :: Seen(found, path) <==> Seen(beside, path)
    ensures var all := Take(found, rooted);
            Pairwise(BetterIn(lower, target, from, entries), all)
            && (forall x :: x in all ==> (x in beside || x in rooted) && Rank(lower, target, from, x) < 2)
            && (forall path :: Seen(all, path) <==> Seen(beside, path) || Seen(rooted, path))
  {
    hide Take, AtKey, Key, Wanted, Closeness, Earlier, Seen;
    AtKeyHas(lower, entries, Key(lower, FromFolder(from) + "/" + Wanted(target)));
    AtKeyHas(lower, entries, Key(lower, Wanted(target)));
    AtKeyInOrder(lower, entries, Key(lower, Wanted(target)));
    var better := BetterIn(lower, target, from, entries);
    forall y | y in rooted && !Seen(found, y.path) ensures Rank(lower, target, from, y) == 1 {
      if y in beside { SeenThere(beside, y); }
    }
    forall i, j | 0 <= i < j < |rooted| && !Seen(found, rooted[i].path) && !Seen(found, rooted[j].path) ensures better(rooted[i], rooted[j]) {
      assert EarlierIn(entries)(rooted[i], rooted[j]) && rooted[i] in rooted && rooted[j] in rooted;
    }
    TakeInOrder(better, found, rooted);
    TakeKeeps(found, rooted);
  }

  lemma NamedInOrder(lower: string -> string, target: string, from: Option<string>, entries: seq<Candidate>,
                     found: seq<Candidate>, beside: seq<Candidate>, rooted: seq<Candidate>, byName: seq<Candidate>)
    requires beside == AtKey(lower, entries, Key(lower, FromFolder(from) + "/" + Wanted(target)))
    requires rooted == AtKey(lower, entries, Key(lower, Wanted(target)))
    requires byName == NamedKey(lower, entries, Key(lower, Wanted(target)))
    requires Pairwise(BetterIn(lower, target, from, entries), found)
    requires forall x :: x in found ==> (x in beside || x in rooted) && Rank(lower, target, from, x) < 2
    requires forall path :: Seen(found, path) <==> Seen(beside, path) || Seen(rooted, path)
    ensures var all := Take(found, Nearest(lower, FromFolder(from), byName));
            Pairwise(BetterIn(lower, target, from, entries), all) && (forall x :: x in all ==> x in found || x in byName)
  {
    hide Take, AtKey, NamedKey, Nearest, Key, Wanted, Closeness, Earlier, Seen;
    AtKeyHas(lower, entries, Key(lower, FromFolder(from) + "/" + Wanted(target)));
    AtKeyHas(lower, entries, Key(lower, Wanted(target)));
    NamedKeyHas(lower, entries, Key(lower, Wanted(target)));
    NamedKeyInOrder(lower, entries, Key(lower, Wanted(target)));
    var named, better := Nearest(lower, FromFolder(from), byName), BetterIn(lower, target, from, entries);
    NearestInOrder(lower, FromFolder(from), entries, byName);
    NearestIn(lower, FromFolder(from), byName);
    forall y | y in named && !Seen(found, y.path) ensures Rank(lower, target, from, y) == 2 {
      if y in beside { SeenThere(beside, y); }
      if y in rooted { SeenThere(rooted, y); }
    }
    forall i, j | 0 <= i < j < |named| && !Seen(found, named[i].path) && !Seen(found, named[j].path) ensures better(named[i], named[j]) {
      assert NearerIn(lower, FromFolder(from), entries)(named[i], named[j]) && named[i] in named && named[j] in named;
    }
    TakeInOrder(better, found, named);
  }

  /** In the result, a note beside the link comes before every other, one from the root
      before every one found by name alone, and those found by name alone never get nearer
      from one to the next; notes alike in all that come as they are listed. */
  lemma CandidatesInOrder(lower: string -> string, target: string, from: Option<string>, entries: seq<Candidate>, i: nat, j: nat)
    requires i < j < |Candidates(lower, target, from, entries)|
    ensures var found, folder := Candidates(lower, target, from, entries), FromFolder(from);
            var a, b := Rank(lower, target, from, found[i]), Rank(lower, target, from, found[j]);
            var near, far := Closeness(lower, found[i].relativePath, folder), Closeness(lower, found[j].relativePath, folder);
            found[i] in entries && found[j] in entries && a <= b && (a == b == 2 ==> near >= far)
            && (a == b && (a < 2 || near == far) ==> Earlier(entries, found[i], found[j]))
  {
    hide Candidates, Closeness, Key, Wanted, Earlier;
    BestFirst(lower, target, from, entries);
    var found := Candidates(lower, target, from, entries);
    assert BetterIn(lower, target, from, entries)(found[i], found[j]);
    assert found[i] in found && found[j] in found;
  }

  /** Closeness counts the folders that the note's path and the link's folder have in common
      from the root down, twice, and one more if the note lies in that very folder. */
  lemma ClosenessMeans(lower: string -> string, path: string, folder: string, n: nat)
    requires var here := if folder == "" then [] else Split(lower(folder), '/');
             var parts := Split(lower(Normalised(path)), '/');
             var there := parts[..|parts| - 1];
             n <= |here| && n <= |there| && here[..n] == there[..n] && (n < |here| && n < |there| ==> here[n] != there[n])
    ensures var here := if folder == "" then [] else Split(lower(folder), '/');
            var parts := Split(lower(Normalised(path)), '/');
            Closeness(lower, path, folder) == 2 * n + if here == parts[..|parts| - 1] then 1 else 0
  {
    hide Normalised;
    var here := if folder == "" then [] else Split(lower(folder), '/');
    var parts := Split(lower(Normalised(path)), '/');
    var there := parts[..|parts| - 1];
    SharedStops(there, here, n);
    assert n == |here| == |there| ==> here == here[..n] && there == there[..n];
  }

  // --- What a target asks for ---

  predicate AllSpace(s: string)
  {
    forall i :: 0 <= i < |s| ==> IsSpace(s[i])
  }

  /** The target wants what stands before its first `#`, without the space at its ends. */
  lemma WantedIs(before: string, wanted: string, after: string, heading: string)
    requires AllSpace(before) && AllSpace(after) && '#' !in before + wanted + after
    requires wanted != "" ==> !IsSpace(wanted[0]) && !IsSpace(wanted[|wanted| - 1])
    ensures Wanted(before + wanted + after) == wanted && Wanted(before + wanted + after + "#" + heading) == wanted
  {
    hide Trim, Split;
    var s := before + wanted + after;
    Trimmed(before, wanted, after);
    SplitPlain(s, '#');
    assert Split(s + "#" + heading, '#')[0] == s by { SplitFirst(s, heading); }
  }

  lemma {:induction false} SplitFirst(s: string, rest: string)
    requires '#' !in s
    ensures Split(s + "#" + rest, '#')[0] == s
  {
    if s == "" {
      assert (s + "#" + rest)[0] == '#';
    } else {
      assert (s + "#" + rest)[1..] == s[1..] + "#" + rest;
      SplitFirst(s[1..], rest);
      assert s == [s[0]] + s[1..];
    }
  }

  lemma {:induction false} TrimmedStart(before: string, rest: string)
    requires AllSpace(before) && (rest != "" ==> !IsSpace(rest[0]))
    ensures TrimStart(before + rest) == rest
  {
    if before == "" {
      assert before + rest == rest;
    } else {
      assert (before + rest)[1..] == before[1..] + rest;
      TrimmedStart(before[1..], rest);
    }
  }

  lemma {:induction false} TrimmedEnd(rest: string, after: string)
    requires AllSpace(after) && (rest != "" ==> !IsSpace(rest[|rest| - 1]))
    ensures TrimEnd(rest + after) == rest
    decreases |after|
  {
    if after == "" {
      assert rest + after == rest;
    } else {
      var s, n := rest + after, |after| - 1;
      assert s[..|s| - 1] == rest + after[..n] && s[|s| - 1] == after[n];
      TrimmedEnd(rest, after[..n]);
    }
  }

  lemma Trimmed(before: string, wanted: string, after: string)
    requires AllSpace(before) && AllSpace(after)
    requires wanted != "" ==> !IsSpace(wanted[0]) && !IsSpace(wanted[|wanted| - 1])
    ensures Trim(before + wanted + after) == wanted
  {
    if wanted == "" {
      TrimmedStart(before + after, "");
      assert before + wanted + after == before + after + "";
    } else {
      TrimmedStart(before, wanted + after);
      assert before + wanted + after == before + (wanted + after);
      TrimmedEnd(wanted, after);
    }
  }
}
