/** Which note a wiki link means, and how a link to a note is written:
    src/renderer/wiki-target.ts. */
module WikiTarget {
  import opened Options
  import opened Text

  datatype Candidate = Candidate(path: string, relativePath: string, name: string)

  // --- Paths ---

  /** Backslashes as slashes. */
  function Slashed(s: string): (t: string)
    ensures |t| == |s| && forall i :: 0 <= i < |s| ==> t[i] == if s[i] == '\\' then '/' else s[i]
  {
    seq(|s|, i requires 0 <= i < |s| => if s[i] == '\\' then '/' else s[i])
  }

  predicate IsName(segment: string)
  {
    segment != "" && segment != "." && segment != ".." && '/' !in segment
  }

  /** Every segment is one that names something. */
  predicate Names(segments: seq<string>)
  {
    forall i :: 0 <= i < |segments| ==> IsName(segments[i])
  }

  /** One segment more: nothing, one step up, or one down. */
  function Walk(parts: seq<string>, segment: string): seq<string>
  {
    if segment == "" || segment == "." then parts
    else if segment == ".." then (if parts == [] then [] else parts[..|parts| - 1])
    else parts + [segment]
  }

  function WalkAll(parts: seq<string>, segments: seq<string>): seq<string>
  {
    if segments == [] then parts else Walk(WalkAll(parts, segments[..|segments| - 1]), segments[|segments| - 1])
  }

  /** The names a path comes to. */
  function Resolved(path: string): seq<string>
  {
    WalkAll([], Split(path, '/'))
  }

  function Normalised(path: string): string
  {
    Join(Resolved(path), '/')
  }

  lemma WalkOne(segments: seq<string>, i: nat)
    requires i < |segments|
    ensures WalkAll([], segments[..i + 1]) == Walk(WalkAll([], segments[..i]), segments[i])
  {
    assert segments[..i + 1][..i] == segments[..i];
  }

  method NormalisePath(value: string) returns (path: string)
    ensures path == Normalised(value)
  {
    hide WalkAll, Join, Split;
    var parts: seq<string> := [];
    var segments := Split(value, '/');
    WalkNone();
    assert segments[..0] == [];
    for i := 0 to |segments|
      invariant parts == WalkAll([], segments[..i])
    {
      var segment := segments[i];
      WalkOne(segments, i);
      if segment == "" || segment == "." {
      } else if segment == ".." {
        parts := if parts == [] then [] else parts[..|parts| - 1];
      } else {
        parts := parts + [segment];
      }
    }
    assert segments[..|segments|] == segments;
    return Join(parts, '/');
  }

  lemma WalkNone()
    ensures WalkAll([], []) == []
  {
  }

  lemma {:induction false} WalkTwice(parts: seq<string>, xs: seq<string>, ys: seq<string>)
    ensures WalkAll(parts, xs + ys) == WalkAll(WalkAll(parts, xs), ys)
    decreases |ys|
  {
    if ys == [] {
      assert xs + ys == xs;
    } else {
      var n := |ys| - 1;
      assert (xs + ys)[..|xs + ys| - 1] == xs + ys[..n];
      WalkTwice(parts, xs, ys[..n]);
    }
  }

  /** Names are walked down one by one. */
  lemma {:induction false} WalkDown(parts: seq<string>, names: seq<string>)
    requires Names(names)
    ensures WalkAll(parts, names) == parts + names
    decreases |names|
  {
    if names == [] {
      assert parts + [] == parts;
    } else {
      var n := |names| - 1;
      WalkDown(parts, names[..n]);
      assert names == names[..n] + [names[n]];
      assert parts + names == parts + names[..n] + [names[n]];
    }
  }

  function Ups(n: nat): (ups: seq<string>)
    ensures |ups| == n && forall i :: 0 <= i < n ==> ups[i] == ".."
  {
    seq(n, i => "..")
  }

  /** Steps up take names away. */
  lemma {:induction false} WalkUp(parts: seq<string>, n: nat)
    requires n <= |parts|
    ensures WalkAll(parts, Ups(n)) == parts[..|parts| - n]
    decreases n
  {
    if n == 0 {
      assert parts[..|parts|] == parts;
    } else {
      assert Ups(n)[..n - 1] == Ups(n - 1);
      WalkUp(parts, n - 1);
      var rest := parts[..|parts| - (n - 1)];
      assert rest[..|rest| - 1] == parts[..|parts| - n];
    }
  }

  lemma {:induction false} WalkNames(parts: seq<string>, segments: seq<string>)
    requires Names(parts) && Apart(segments, '/')
    ensures Names(WalkAll(parts, segments))
    decreases |segments|
  {
    if segments != [] { WalkNames(parts, segments[..|segments| - 1]); }
  }

  lemma ResolvedNames(path: string)
    ensures Names(Resolved(path))
  {
    SplitApart(path, '/');
    WalkNames([], Split(path, '/'));
  }

  /** What has been normalised comes to the same names. */
  lemma ResolvedJoin(names: seq<string>)
    requires Names(names)
    ensures Resolved(Join(names, '/')) == names
  {
    if names == [] {
      assert Split("", '/') == [""] && WalkAll([], [""]) == Walk(WalkAll([], [""][..0]), "");
    } else {
      SplitJoin(names, '/');
      WalkDown([], names);
      assert [] + names == names;
    }
  }

  lemma ResolvedBelow(base: string, rest: string)
    ensures Resolved(base + "/" + rest) == WalkAll(Resolved(base), Split(rest, '/'))
  {
    SplitAppend(base, rest, '/');
    WalkTwice([], Split(base, '/'), Split(rest, '/'));
  }

  // --- From a folder to a note ---

  /** How many leading names two lists share. */
  function Shared(xs: seq<string>, ys: seq<string>): (n: nat)
    ensures n <= |xs| && n <= |ys| && xs[..n] == ys[..n]
  {
    if xs == [] || ys == [] || xs[0] != ys[0] then 0
    else
      var n := Shared(xs[1..], ys[1..]);
      assert xs[..n + 1] == [xs[0]] + xs[1..][..n] && ys[..n + 1] == [ys[0]] + ys[1..][..n];
      1 + n
  }

  lemma {:induction false} SharedStops(xs: seq<string>, ys: seq<string>, n: nat)
    requires n <= |xs| && n <= |ys| && xs[..n] == ys[..n]
    requires n < |xs| && n < |ys| ==> xs[n] != ys[n]
    ensures Shared(xs, ys) == n
  {
    if n > 0 {
      assert xs[0] == xs[..n][0] == ys[..n][0] == ys[0];
      assert xs[1..][..n - 1] == xs[..n][1..] && ys[1..][..n - 1] == ys[..n][1..];
      SharedStops(xs[1..], ys[1..], n - 1);
    }
  }

  /** Up to what they share, then down. */
  function RelativeSegments(target: seq<string>, base: seq<string>): seq<string>
  {
    Ups(|base| - Shared(target, base)) + target[Shared(target, base)..]
  }

  function RelativePath(target: string, baseDir: string): string
  {
    var segments := RelativeSegments(Resolved(Slashed(target)), Resolved(Slashed(baseDir)));
    if Join(segments, '/') == "" then "." else Join(segments, '/')
  }

  /** The parts of a normalised path; none for the empty one. */
  lemma SplitNormalised(path: string)
    ensures Resolved(path) == if Normalised(path) == "" then [] else Split(Normalised(path), '/')
  {
    ResolvedNames(path);
    var names := Resolved(path);
    if names == [] {
    } else {
      NamesApart(names);
      SplitJoin(names, '/');
      JoinNotEmpty(names);
    }
  }

  lemma NamesApart(names: seq<string>)
    requires Names(names)
    ensures Apart(names, '/')
  {
  }

  lemma JoinNotEmpty(names: seq<string>)
    requires names != [] && names[0] != ""
    ensures Join(names, '/') != ""
  {
  }

  function NotEmpty(parts: seq<string>): seq<string>
  {
    if parts == [] then []
    else (if |parts[0]| > 0 then [parts[0]] else []) + NotEmpty(parts[1..])
  }

  lemma {:induction false} NamesNotEmpty(names: seq<string>)
    requires Names(names)
    ensures NotEmpty(names) == names
  {
    if names != [] {
      NamesNotEmpty(names[1..]);
      assert names == [names[0]] + names[1..];
    }
  }

  lemma SplitParts(path: string)
    ensures NotEmpty(Split(Normalised(path), '/')) == Resolved(path)
  {
    SplitNormalised(path);
    ResolvedNames(path);
    NamesNotEmpty(Resolved(path));
    if Normalised(path) == "" { assert Split("", '/') == [""] && NotEmpty([""]) == NotEmpty([""][1..]) == []; }
  }

  method RelPathFromDir(targetRelativePath: string, baseDir: string) returns (path: string)
    ensures path == RelativePath(targetRelativePath, baseDir)
  {
    var target := NormalisePath(Slashed(targetRelativePath));
    var base := NormalisePath(Slashed(baseDir));
    SplitParts(Slashed(targetRelativePath));
    SplitParts(Slashed(baseDir));
    var there, here := NotEmpty(Split(target, '/')), NotEmpty(Split(base, '/'));
    var shared := CountShared(there, here);
    path := Join(Ups(|here| - shared) + there[shared..], '/');
    if path == "" { path := "."; }
  }

  method CountShared(there: seq<string>, here: seq<string>) returns (shared: nat)
    ensures shared == Shared(there, here)
  {
    shared := 0;
    while shared < |there| && shared < |here| && there[shared] == here[shared]
      invariant shared <= |there| && shared <= |here| && there[..shared] == here[..shared]
    {
      assert there[..shared + 1] == there[..shared] + [there[shared]] && here[..shared + 1] == here[..shared] + [here[shared]];
      shared := shared + 1;
    }
    SharedStops(there, here, shared);
  }

  lemma NamesFrom(names: seq<string>, n: nat)
    requires Names(names) && n <= |names|
    ensures Names(names[n..]) && Names(names[..n])
  {
  }

  /** Steps up, until only so many names are left. */
  lemma WalkUpTo(parts: seq<string>, n: nat)
    requires n <= |parts|
    ensures WalkAll(parts, Ups(|parts| - n)) == parts[..n]
  {
    hide WalkAll, Ups;
    WalkUp(parts, |parts| - n);
  }

  lemma Whole(names: seq<string>, n: nat)
    requires n <= |names|
    ensures names[..n] + names[n..] == names
  {
  }

  /** The segments of a relative path, as they are walked from the base, end at the target. */
  lemma WalkRelative(target: seq<string>, base: seq<string>)
    requires Names(target) && Names(base)
    ensures WalkAll(base, RelativeSegments(target, base)) == target
  {
    hide WalkAll, Ups, Names, Shared;
    var n := Shared(target, base);
    WalkTwice(base, Ups(|base| - n), target[n..]);
    WalkUpTo(base, n);
    NamesFrom(target, n);
    WalkDown(base[..n], target[n..]);
    Whole(target, n);
  }

  lemma UpsApart(ups: seq<string>, names: seq<string>)
    requires (forall i :: 0 <= i < |ups| ==> ups[i] == "..") && Names(names)
    ensures Apart(ups + names, '/') && forall i :: 0 <= i < |ups + names| ==> (ups + names)[i] != ""
  {
  }

  /** A relative path, read from its segments. */
  lemma WalkPath(base: seq<string>, segments: seq<string>)
    requires Apart(segments, '/') && forall i :: 0 <= i < |segments| ==> segments[i] != ""
    ensures var path := if Join(segments, '/') == "" then "." else Join(segments, '/');
            WalkAll(base, Split(path, '/')) == WalkAll(base, segments)
  {
    if segments == [] {
      assert Split(".", '/') == ["."] by { SplitPlain(".", '/'); }
      assert WalkAll(base, ["."]) == Walk(WalkAll(base, ["."][..0]), ".") == base;
    } else {
      JoinNotEmpty(segments);
      SplitJoin(segments, '/');
    }
  }

  /** From a folder, the relative path of a note leads to the note. */
  lemma RelativeLeads(target: string, baseDir: string)
    ensures Normalised(Slashed(baseDir) + "/" + RelativePath(target, baseDir)) == Normalised(Slashed(target))
  {
    hide Resolved, WalkAll, RelativeSegments;
    var t, b := Resolved(Slashed(target)), Resolved(Slashed(baseDir));
    ResolvedNames(Slashed(target));
    ResolvedNames(Slashed(baseDir));
    ResolvedBelow(Slashed(baseDir), RelativePath(target, baseDir));
    RelativeApart(t, b);
    WalkPath(b, RelativeSegments(t, b));
    WalkRelative(t, b);
  }

  /** With forward slashes only, as the paths of the vault are. */
  lemma PlainRelativeLeads(target: string, baseDir: string)
    requires '\\' !in target && '\\' !in baseDir
    ensures Normalised(baseDir + "/" + RelativePath(target, baseDir)) == Normalised(target)
  {
    SlashedPlain(target);
    SlashedPlain(baseDir);
    RelativeLeads(target, baseDir);
  }

  lemma RelativeApart(target: seq<string>, base: seq<string>)
    requires Names(target)
    ensures Apart(RelativeSegments(target, base), '/')
    ensures forall i :: 0 <= i < |RelativeSegments(target, base)| ==> RelativeSegments(target, base)[i] != ""
  {
    NamesFrom(target, Shared(target, base));
    UpsApart(Ups(|base| - Shared(target, base)), target[Shared(target, base)..]);
  }

  // --- Extensions ---

  function Lowered(c: char): char
  {
    if 'A' <= c <= 'Z' then c - 'A' + 'a' else c
  }

  function AsciiLower(s: string): (t: string)
    ensures |t| == |s| && forall i :: 0 <= i < |s| ==> t[i] == Lowered(s[i])
  {
    seq(|s|, i requires 0 <= i < |s| => Lowered(s[i]))
  }

  /** Whatever the case of the letters A to Z. */
  predicate EndsIn(s: string, suffix: string)
  {
    |s| >= |suffix| && AsciiLower(s[|s| - |suffix|..]) == suffix
  }

  function WithoutExtension(s: string): string
  {
    if EndsIn(s, ".md") then s[..|s| - 3]
    else if EndsIn(s, ".markdown") then s[..|s| - 9]
    else s
  }

  /** Exactly one `.md` or `.markdown` at the end goes, in whichever case. */
  lemma ExtensionExactly(s: string, stem: string)
    ensures stem == WithoutExtension(s)
            <==> if EndsIn(s, ".md") || EndsIn(s, ".markdown")
                 then stem <= s && (AsciiLower(s[|stem|..]) == ".md" || AsciiLower(s[|stem|..]) == ".markdown")
                 else stem == s
  {
    LowerLength(s, stem);
    if EndsIn(s, ".md") { LastOf(s, ".md"); }
    if EndsIn(s, ".markdown") { LastOf(s, ".markdown"); }
  }

  lemma LowerLength(s: string, stem: string)
    ensures stem <= s ==> |AsciiLower(s[|stem|..])| == |s| - |stem|
    ensures |stem| <= |s| && stem == s[..|stem|] ==> stem <= s
  {
  }

  lemma LastOf(s: string, suffix: string)
    requires suffix != "" && EndsIn(s, suffix)
    ensures Lowered(s[|s| - 1]) == suffix[|suffix| - 1]
  {
    var n := |suffix| - 1;
    assert AsciiLower(s[|s| - |suffix|..])[n] == suffix[n];
  }

  /** An extension is a matter of the last segment. */
  lemma ExtensionBelow(lead: string, name: string)
    requires '/' !in name
    ensures WithoutExtension(lead + "/" + name) == lead + "/" + WithoutExtension(name)
  {
    EndsBelow(lead, name, ".md");
    EndsBelow(lead, name, ".markdown");
  }

  lemma EndsBelow(lead: string, name: string, suffix: string)
    requires '/' !in name && suffix != "" && '/' !in suffix
    ensures EndsIn(lead + "/" + name, suffix) <==> EndsIn(name, suffix)
    ensures EndsIn(name, suffix) ==> (lead + "/" + name)[..|lead + "/" + name| - |suffix|] == lead + "/" + name[..|name| - |suffix|]
  {
    var s := lead + "/" + name;
    if |name| >= |suffix| {
      assert s[|s| - |suffix|..] == name[|name| - |suffix|..];
    } else if |s| >= |suffix| {
      var k := |suffix| - |name| - 1;
      var tail := s[|s| - |suffix|..];
      assert tail[k] == '/' && AsciiLower(tail)[k] == '/';
      assert suffix[k] != '/';
    }
  }

  // --- Characters that do not occur ---

  lemma SlashedPlain(s: string)
    requires '\\' !in s
    ensures Slashed(s) == s
  {
  }

  lemma {:induction false} SplitFree(s: string, d: char)
    requires d !in s
    ensures Apart(Split(s, '/'), d)
  {
    if s != "" {
      assert s[0] in s && forall x :: x in s[1..] ==> x in s;
      SplitFree(s[1..], d);
    }
  }

  lemma {:induction false} WalkFree(parts: seq<string>, segments: seq<string>, d: char)
    requires Apart(parts, d) && Apart(segments, d)
    ensures Apart(WalkAll(parts, segments), d)
    decreases |segments|
  {
    if segments != [] { WalkFree(parts, segments[..|segments| - 1], d); }
  }

  lemma {:induction false} JoinFree(parts: seq<string>, d: char)
    requires Apart(parts, d) && d != '/'
    ensures d !in Join(parts, '/')
  {
    if |parts| > 1 { JoinFree(parts[1..], d); }
  }

  lemma ResolvedFree(s: string, d: char)
    requires d !in s
    ensures Apart(Resolved(s), d)
  {
    SplitFree(s, d);
    WalkFree([], Split(s, '/'), d);
  }

  /** Nothing is in a relative path but dots, slashes and what is in the target. */
  lemma RelativeFree(target: string, baseDir: string, d: char)
    requires d !in Slashed(target) && d != '/' && d != '.'
    ensures d !in RelativePath(target, baseDir) && d !in WithoutExtension(RelativePath(target, baseDir))
  {
    hide Resolved;
    var t, b := Resolved(Slashed(target)), Resolved(Slashed(baseDir));
    ResolvedFree(Slashed(target), d);
    var n := Shared(t, b);
    FreeAppend(Ups(|b| - n), t[n..], d);
    JoinFree(RelativeSegments(t, b), d);
  }

  lemma FreeAppend(ups: seq<string>, names: seq<string>, d: char)
    requires (forall i :: 0 <= i < |ups| ==> ups[i] == "..") && Apart(names, d) && d != '.'
    ensures Apart(ups + names, d)
  {
  }

  // --- What is written for a note ---

  function Front(names: seq<string>): seq<string>
  {
    if names == [] then [] else names[..|names| - 1]
  }

  /** The folder that a note lies in. */
  function FolderOf(path: string): string
  {
    Join(Front(Resolved(Slashed(path))), '/')
  }

  method FolderOfPath(path: string) returns (folder: string)
    ensures folder == FolderOf(path)
  {
    var normal := NormalisePath(Slashed(path));
    SplitNormalised(Slashed(path));
    var parts := Split(normal, '/');
    if normal == "" { assert parts == [""] && parts[..0] == []; }
    return Join(parts[..|parts| - 1], '/');
  }

  function Written(target: string, from: string): string
  {
    WithoutExtension(RelativePath(Slashed(target), FolderOf(from)))
  }

  method WikiTargetFor(targetRelativePath: string, fromRelativePath: string) returns (target: string)
    ensures target == Written(targetRelativePath, fromRelativePath)
  {
    var folder := FolderOfPath(fromRelativePath);
    var relative := RelPathFromDir(Slashed(targetRelativePath), folder);
    return WithoutExtension(relative);
  }

  /** The comparable form of a path, but for its case. */
  function PlainKey(path: string): string
  {
    WithoutExtension(Normalised(Slashed(path)))
  }

  lemma SlashedTwice(s: string)
    ensures Slashed(Slashed(s)) == Slashed(s)
  {
  }

  lemma FolderFree(path: string)
    ensures '\\' !in FolderOf(path) && Slashed(FolderOf(path)) == FolderOf(path)
    ensures Resolved(FolderOf(path)) == Front(Resolved(Slashed(path)))
  {
    hide Resolved;
    assert '\\' !in Slashed(path);
    ResolvedFree(Slashed(path), '\\');
    ResolvedNames(Slashed(path));
    FrontKeeps(Resolved(Slashed(path)), '\\');
    JoinFree(Front(Resolved(Slashed(path))), '\\');
    ResolvedJoin(Front(Resolved(Slashed(path))));
    SlashedPlain(FolderOf(path));
  }

  lemma FrontKeeps(names: seq<string>, d: char)
    requires Names(names) && Apart(names, d)
    ensures Names(Front(names)) && Apart(Front(names), d)
  {
  }

  /** The names that the written target comes to from the folder of the other note. */
  lemma BesideNames(target: string, from: string)
    ensures Slashed(FolderOf(from) + "/" + Written(target, from)) == FolderOf(from) + "/" + Written(target, from)
    ensures Resolved(FolderOf(from) + "/" + Written(target, from))
            == WalkAll(Front(Resolved(Slashed(from))), Split(Written(target, from), '/'))
  {
    hide Resolved;
    FolderFree(from);
    SlashedTwice(target);
    assert '\\' !in Slashed(target);
    RelativeFree(Slashed(target), FolderOf(from), '\\');
    SlashedPlain(FolderOf(from) + "/" + Written(target, from));
    ResolvedBelow(FolderOf(from), Written(target, from));
  }

  /** Segments with the extension of the last one taken off. */
  function Stemmed(segments: seq<string>): seq<string>
    requires segments != []
  {
    segments[..|segments| - 1] + [WithoutExtension(segments[|segments| - 1])]
  }

  lemma StemmedJoin(segments: seq<string>)
    requires segments != [] && Apart(segments, '/')
    ensures WithoutExtension(Join(segments, '/')) == Join(Stemmed(segments), '/') && Apart(Stemmed(segments), '/')
  {
    var n := |segments| - 1;
    assert segments == segments[..n] + [segments[n]];
    if n > 0 {
      JoinAppend(segments[..n], [segments[n]], '/');
      JoinAppend(segments[..n], [WithoutExtension(segments[n])], '/');
      ExtensionBelow(Join(segments[..n], '/'), segments[n]);
    }
  }

  /** The name of the note without its extension still names something, and has no other
      extension to lose. */
  predicate StemNames(name: string)
  {
    var stem := WithoutExtension(name);
    stem != "" && stem != "." && stem != ".." && WithoutExtension(stem) == stem
  }

  /** When the written target leads back to the note: it points up only, its stem names
      something, or the note is nothing but an extension at the root. */
  predicate LeadsBack(target: seq<string>, base: seq<string>)
  {
    Shared(target, base) == |target| || StemNames(target[|target| - 1])
    || (|target| == 1 && WithoutExtension(target[0]) == "")
  }

  lemma WalkLast(parts: seq<string>, segments: seq<string>)
    requires segments != []
    ensures WalkAll(parts, segments) == Walk(WalkAll(parts, segments[..|segments| - 1]), segments[|segments| - 1])
  {
  }

  /** Pointing up only, the written target is the relative path itself. */
  lemma UpOnly(target: seq<string>, base: seq<string>)
    requires Names(target) && Names(base) && Shared(target, base) == |target|
    ensures var segments := RelativeSegments(target, base);
            segments != [] ==> Stemmed(segments) == segments
  {
    var segments := RelativeSegments(target, base);
    if segments != [] {
      assert segments[|segments| - 1] == "..";
      assert segments == segments[..|segments| - 1] + [".."];
    }
  }

  /** Pointing down, it ends in the note's own name, which stands where its folder has been reached. */
  lemma DownLast(target: seq<string>, base: seq<string>)
    requires Names(target) && Names(base) && Shared(target, base) < |target|
    ensures var segments := RelativeSegments(target, base); var m := |segments| - 1;
            segments != [] && segments[m] == target[|target| - 1] && WalkAll(base, segments[..m]) == Front(target)
  {
    var segments := RelativeSegments(target, base);
    var m := |segments| - 1;
    var k := |target| - 1;
    assert segments[m] == target[k];
    WalkRelative(target, base);
    WalkLast(base, segments);
    assert IsName(target[k]);
    assert target == WalkAll(base, segments[..m]) + [target[k]];
  }

  /** The names that the written target leads to. */
  function Reached(target: seq<string>, base: seq<string>): seq<string>
  {
    if Shared(target, base) == |target| then target else Walk(Front(target), WithoutExtension(target[|target| - 1]))
  }

  lemma WrittenSegments(target: string, from: string)
    ensures var t, b := Resolved(Slashed(target)), Front(Resolved(Slashed(from)));
            var segments := RelativeSegments(t, b);
            Written(target, from) == if segments == [] then "." else Join(Stemmed(segments), '/')
    ensures var t, b := Resolved(Slashed(target)), Front(Resolved(Slashed(from)));
            Split(Written(target, from), '/') == if RelativeSegments(t, b) == [] then ["."] else Stemmed(RelativeSegments(t, b))
  {
    hide Resolved, RelativeSegments;
    FolderFree(from);
    SlashedTwice(target);
    var t, b := Resolved(Slashed(target)), Front(Resolved(Slashed(from)));
    ResolvedNames(Slashed(target));
    var segments := RelativeSegments(t, b);
    RelativeApart(t, b);
    if segments == [] {
      SplitPlain(".", '/');
    } else {
      JoinNotEmpty(segments);
      StemmedJoin(segments);
      SplitJoin(Stemmed(segments), '/');
    }
  }

  lemma BesideReaches(target: string, from: string)
    ensures Resolved(FolderOf(from) + "/" + Written(target, from))
            == Reached(Resolved(Slashed(target)), Front(Resolved(Slashed(from))))
  {
    hide Resolved, RelativeSegments, Shared;
    var t, b := Resolved(Slashed(target)), Front(Resolved(Slashed(from)));
    ResolvedNames(Slashed(target));
    ResolvedNames(Slashed(from));
    FrontNames(Resolved(Slashed(from)));
    BesideNames(target, from);
    WrittenSegments(target, from);
    SegmentsReach(t, b);
  }

  lemma FrontNames(names: seq<string>)
    requires Names(names)
    ensures Names(Front(names))
  {
  }

  lemma SegmentsReach(target: seq<string>, base: seq<string>)
    requires Names(target) && Names(base)
    ensures var segments := RelativeSegments(target, base);
            WalkAll(base, if segments == [] then ["."] else Stemmed(segments)) == Reached(target, base)
  {
    hide RelativeSegments, Shared, WalkAll;
    var segments := RelativeSegments(target, base);
    WalkRelative(target, base);
    if segments == [] {
      WalkDot(base);
      NoSegments(target, base);
    } else if Shared(target, base) == |target| {
      UpOnly(target, base);
    } else {
      DownLast(target, base);
      var m := |segments| - 1;
      WalkLast(base, Stemmed(segments));
      assert Stemmed(segments)[..m] == segments[..m];
    }
  }

  lemma WalkDot(base: seq<string>)
    ensures WalkAll(base, ["."]) == base && WalkAll(base, []) == base
  {
    assert ["."][..0] == [];
  }

  lemma NoSegments(target: seq<string>, base: seq<string>)
    requires RelativeSegments(target, base) == []
    ensures Shared(target, base) == |target|
  {
    assert |RelativeSegments(target, base)| == (|base| - Shared(target, base)) + (|target| - Shared(target, base));
  }

  function Lead(names: seq<string>): string
  {
    if names == [] then "" else Join(names, '/') + "/"
  }

  lemma JoinLast(names: seq<string>, name: string)
    ensures Join(names + [name], '/') == Lead(names) + name
  {
    if names == [] {
      assert [] + [name] == [name] && "" + name == name;
    } else {
      JoinAppend(names, [name], '/');
    }
  }

  lemma LeadExtension(names: seq<string>, name: string)
    requires '/' !in name
    ensures WithoutExtension(Lead(names) + name) == Lead(names) + WithoutExtension(name)
  {
    if names == [] {
      assert "" + name == name && "" + WithoutExtension(name) == WithoutExtension(name);
    } else {
      ExtensionBelow(Join(names, '/'), name);
    }
  }

  lemma SameLead(lead: string, x: string, y: string)
    ensures lead + x == lead + y <==> x == y
  {
    assert (lead + x)[|lead|..] == x && (lead + y)[|lead|..] == y;
  }

  lemma JoinShrinks(names: seq<string>)
    ensures |Join(Front(names), '/')| <= |Join(names, '/')|
  {
    if names != [] {
      JoinLast(Front(names), names[|names| - 1]);
      assert names == Front(names) + [names[|names| - 1]];
    }
  }

  /** Where the stem names something, the key survives if the stem has no extension left. */
  lemma KeyOfStem(front: seq<string>, name: string)
    requires '/' !in name
    ensures WithoutExtension(Join(front + [WithoutExtension(name)], '/')) == WithoutExtension(Join(front + [name], '/'))
            <==> WithoutExtension(WithoutExtension(name)) == WithoutExtension(name)
  {
    var stem := WithoutExtension(name);
    JoinLast(front, name);
    JoinLast(front, stem);
    LeadExtension(front, name);
    LeadExtension(front, stem);
    SameLead(Lead(front), WithoutExtension(stem), stem);
  }

  lemma ExtensionShortens(s: string)
    ensures |WithoutExtension(s)| <= |s|
  {
  }

  lemma LeadLonger(front: seq<string>, rest: seq<string>)
    requires front != [] && (rest == front || rest == Front(front))
    ensures |Join(rest, '/')| < |Lead(front)|
  {
    hide Join;
    JoinShrinks(front);
  }

  /** Where it does not, the key is lost, but for a bare extension at the root. */
  lemma KeyWithoutStem(front: seq<string>, name: string, rest: seq<string>)
    requires '/' !in name && (rest == front || rest == Front(front))
    ensures WithoutExtension(Join(rest, '/')) == WithoutExtension(Join(front + [name], '/'))
            <==> front == [] && WithoutExtension(name) == ""
  {
    hide WithoutExtension, Join, Lead;
    JoinLast(front, name);
    LeadExtension(front, name);
    ExtensionShortens(Join(rest, '/'));
    if front == [] { RootKey(name); } else { LeadLonger(front, rest); }
  }

  lemma RootKey(name: string)
    ensures Lead([]) + WithoutExtension(name) == WithoutExtension(name) && WithoutExtension(Join([], '/')) == ""
  {
    assert "" + WithoutExtension(name) == WithoutExtension(name);
  }

  lemma ReachedKey(target: seq<string>, base: seq<string>)
    requires Names(target) && Names(base)
    ensures WithoutExtension(Join(Reached(target, base), '/')) == WithoutExtension(Join(target, '/')) <==> LeadsBack(target, base)
  {
    hide Shared, WithoutExtension, Join;
    if Shared(target, base) < |target| {
      var front, name := Front(target), target[|target| - 1];
      assert IsName(name);
      assert target == front + [name];
      var stem := WithoutExtension(name);
      if stem == "" || stem == "." || stem == ".." {
        KeyWithoutStem(front, name, Walk(front, stem));
      } else {
        KeyOfStem(front, name);
      }
    }
  }

  /** Beside the note in which it is written, the target has the key of the note it was
      written for, but for case, exactly when it leads back. */
  lemma BesideExactly(target: string, from: string)
    ensures PlainKey(FolderOf(from) + "/" + Written(target, from)) == PlainKey(target)
            <==> LeadsBack(Resolved(Slashed(target)), Front(Resolved(Slashed(from))))
  {
    hide Resolved, WithoutExtension, LeadsBack, Reached;
    ResolvedNames(Slashed(target));
    ResolvedNames(Slashed(from));
    FrontNames(Resolved(Slashed(from)));
    BesideNames(target, from);
    BesideReaches(target, from);
    ReachedKey(Resolved(Slashed(target)), Front(Resolved(Slashed(from))));
  }

  // --- Which notes a target could mean ---

  function TrimStart(s: string): string
  {
    if s != "" && IsSpace(s[0]) then TrimStart(s[1..]) else s
  }

  function TrimEnd(s: string): string
  {
    if s != "" && IsSpace(s[|s| - 1]) then TrimEnd(s[..|s| - 1]) else s
  }

  function Trim(s: string): string
  {
    TrimEnd(TrimStart(s))
  }

  /** The target without its heading. */
  function Wanted(target: string): string
  {
    Trim(Split(target, '#')[0])
  }

  function Key(lower: string -> string, path: string): string
  {
    lower(PlainKey(path))
  }

  function AtKey(lower: string -> string, entries: seq<Candidate>, key: string): seq<Candidate>
  {
    if entries == [] then []
    else AtKey(lower, entries[..|entries| - 1], key)
         + if Key(lower, entries[|entries| - 1].relativePath) == key then [entries[|entries| - 1]] else []
  }

  function NamedKey(lower: string -> string, entries: seq<Candidate>, key: string): seq<Candidate>
  {
    if entries == [] then []
    else NamedKey(lower, entries[..|entries| - 1], key)
         + if Key(lower, entries[|entries| - 1].name) == key then [entries[|entries| - 1]] else []
  }

  predicate Seen(found: seq<Candidate>, path: string)
  {
    exists i :: 0 <= i < |found| && found[i].path == path
  }

  /** The candidates of the list whose path has not been found yet, after those found. */
  function Take(found: seq<Candidate>, list: seq<Candidate>): seq<Candidate>
  {
    if list == [] then found
    else
      var before := Take(found, list[..|list| - 1]);
      if Seen(before, list[|list| - 1].path) then before else before + [list[|list| - 1]]
  }

  /** How near a note is to a folder. */
  function Closeness(lower: string -> string, path: string, folder: string): nat
  {
    var here := if folder == "" then [] else Split(lower(folder), '/');
    var parts := Split(lower(Normalised(path)), '/');
    var there := parts[..|parts| - 1];
    var shared := Shared(there, here);
    shared * 2 + if |here| == |there| && shared == |here| then 1 else 0
  }

  /** Nearest first; of two equally near, the one listed first. */
  function Nearest(lower: string -> string, folder: string, list: seq<Candidate>): seq<Candidate>
  {
    if list == [] then []
    else PlaceNear(lower, folder, list[|list| - 1], Nearest(lower, folder, list[..|list| - 1]))
  }

  function PlaceNear(lower: string -> string, folder: string, c: Candidate, sorted: seq<Candidate>): seq<Candidate>
  {
    if sorted == [] then [c]
    else
      var last := sorted[|sorted| - 1];
      if Closeness(lower, last.relativePath, folder) >= Closeness(lower, c.relativePath, folder) then sorted + [c]
      else PlaceNear(lower, folder, c, sorted[..|sorted| - 1]) + [last]
  }

  function FromFolder(from: Option<string>): string
  {
    if from.None? then "" else FolderOf(from.value)
  }

  /** Beside the note, then from the root, then by name alone, nearest first. */
  function Candidates(lower: string -> string, target: string, from: Option<string>, entries: seq<Candidate>): seq<Candidate>
  {
    var wanted, folder := Wanted(target), FromFolder(from);
    if wanted == "" then []
    else
      var beside := AtKey(lower, entries, Key(lower, folder + "/" + wanted));
      var rooted := AtKey(lower, entries, Key(lower, wanted));
      var named := Nearest(lower, folder, NamedKey(lower, entries, Key(lower, wanted)));
      Take(Take(Take([], beside), rooted), named)
  }

  type Index = map<string, seq<Candidate>>

  function Listed(index: Index, key: string): seq<Candidate>
  {
    if key in index then index[key] else []
  }

  method TakeFrom(found: seq<Candidate>, list: seq<Candidate>) returns (more: seq<Candidate>)
    ensures more == Take(found, list)
  {
    more := found;
    var seen := set i | 0 <= i < |found| :: found[i].path;
    for k := 0 to |list|
      invariant more == Take(found, list[..k])
      invariant forall path :: path in seen <==> Seen(more, path)
    {
      assert list[..k + 1][..k] == list[..k];
      if list[k].path !in seen {
        seen := seen + {list[k].path};
        SeenMore(more, list[k]);
        more := more + [list[k]];
      }
    }
    assert list[..|list|] == list;
  }

  lemma SeenMore(found: seq<Candidate>, c: Candidate)
    ensures forall path :: Seen(found + [c], path) <==> Seen(found, path) || path == c.path
  {
    assert (found + [c])[|found|] == c;
    forall path | Seen(found, path) ensures Seen(found + [c], path) {
      var i :| 0 <= i < |found| && found[i].path == path;
      assert (found + [c])[i] == found[i];
    }
  }

  ghost predicate ByKey(lower: string -> string, index: Index, entries: seq<Candidate>)
  {
    forall key :: Listed(index, key) == AtKey(lower, entries, key)
  }

  ghost predicate ByName(lower: string -> string, index: Index, entries: seq<Candidate>)
  {
    forall key :: Listed(index, key) == NamedKey(lower, entries, key)
  }

  lemma OneMoreKey(lower: string -> string, index: Index, entries: seq<Candidate>, entry: Candidate)
    requires ByKey(lower, index, entries)
    ensures var key := Key(lower, entry.relativePath);
            ByKey(lower, index[key := Listed(index, key) + [entry]], entries + [entry])
  {
    hide Key;
    var at := Key(lower, entry.relativePath);
    var after := index[at := Listed(index, at) + [entry]];
    assert (entries + [entry])[..|entries|] == entries;
    forall key ensures Listed(after, key) == AtKey(lower, entries + [entry], key) {
      assert Listed(index, key) == AtKey(lower, entries, key);
    }
  }

  lemma OneMoreName(lower: string -> string, index: Index, entries: seq<Candidate>, entry: Candidate)
    requires ByName(lower, index, entries)
    ensures var key := Key(lower, entry.name);
            ByName(lower, index[key := Listed(index, key) + [entry]], entries + [entry])
  {
    hide Key;
    var at := Key(lower, entry.name);
    var after := index[at := Listed(index, at) + [entry]];
    assert (entries + [entry])[..|entries|] == entries;
    forall key ensures Listed(after, key) == NamedKey(lower, entries + [entry], key) {
      assert Listed(index, key) == NamedKey(lower, entries, key);
    }
  }

  lemma NothingIndexed(lower: string -> string)
    ensures ByKey(lower, map[], []) && ByName(lower, map[], [])
  {
  }

  method BuildIndexes(lower: string -> string, entries: seq<Candidate>) returns (byKey: Index, byName: Index)
    ensures ByKey(lower, byKey, entries) && ByName(lower, byName, entries)
  {
    hide Key, ByKey, ByName, Listed;
    byKey, byName := map[], map[];
    NothingIndexed(lower);
    for i := 0 to |entries|
      invariant ByKey(lower, byKey, entries[..i]) && ByName(lower, byName, entries[..i])
    {
      var entry := entries[i];
      assert entries[..i + 1] == entries[..i] + [entry];
      var path, name := Key(lower, entry.relativePath), Key(lower, entry.name);
      OneMoreKey(lower, byKey, entries[..i], entry);
      OneMoreName(lower, byName, entries[..i], entry);
      byKey := byKey[path := Listed(byKey, path) + [entry]];
      byName := byName[name := Listed(byName, name) + [entry]];
    }
    assert entries[..|entries|] == entries;
  }

  method WikiCandidates(lower: string -> string, target: string, from: Option<string>, entries: seq<Candidate>)
    returns (found: seq<Candidate>)
    ensures found == Candidates(lower, target, from, entries)
  {
    hide Take, Nearest, AtKey, NamedKey, Key, Wanted;
    var wanted := Wanted(target);
    if |wanted| == 0 { return []; }
    var fromDirectory := "";
    if from.Some? { fromDirectory := FolderOfPath(from.value); }
    var byKey, byName := BuildIndexes(lower, entries);
    var beside, fromRoot := Key(lower, fromDirectory + "/" + wanted), Key(lower, wanted);
    found := TakeFrom([], Listed(byKey, beside));
    found := TakeFrom(found, Listed(byKey, fromRoot));
    found := TakeFrom(found, Nearest(lower, fromDirectory, Listed(byName, fromRoot)));
  }

  // --- What is found ---

  lemma {:induction false} TakeKeeps(found: seq<Candidate>, list: seq<Candidate>)
    ensures found <= Take(found, list)
    ensures forall path :: Seen(Take(found, list), path) <==> Seen(found, path) || Seen(list, path)
  {
    if list != [] {
      var n := |list| - 1;
      TakeKeeps(found, list[..n]);
      SeenMore(Take(found, list[..n]), list[n]);
      SeenMore(list[..n], list[n]);
      assert list == list[..n] + [list[n]];
    }
  }

  /** No path is found twice. */
  predicate Once(found: seq<Candidate>)
  {
    forall i, j :: 0 <= i < j < |found| ==> found[i].path != found[j].path
  }

  lemma {:induction false} TakeOnce(found: seq<Candidate>, list: seq<Candidate>)
    requires Once(found)
    ensures Once(Take(found, list))
  {
    if list != [] {
      TakeOnce(found, list[..|list| - 1]);
    }
  }

  lemma {:induction false} TakeFirst(list: seq<Candidate>)
    requires list != []
    ensures Take([], list) != [] && Take([], list)[0] == list[0]
  {
    var n := |list| - 1;
    if n > 0 {
      TakeFirst(list[..n]);
    } else {
      assert list[..0] == [] && Take([], []) == [];
    }
  }

  lemma {:induction false} AtKeyHas(lower: string -> string, entries: seq<Candidate>, key: string)
    ensures forall c :: c in AtKey(lower, entries, key) <==> c in entries && Key(lower, c.relativePath) == key
  {
    hide Key;
    if entries != [] {
      var n := |entries| - 1;
      AtKeyHas(lower, entries[..n], key);
      assert entries == entries[..n] + [entries[n]];
    }
  }

  lemma {:induction false} NamedKeyHas(lower: string -> string, entries: seq<Candidate>, key: string)
    ensures forall c :: c in NamedKey(lower, entries, key) <==> c in entries && Key(lower, c.name) == key
  {
    hide Key;
    if entries != [] {
      var n := |entries| - 1;
      NamedKeyHas(lower, entries[..n], key);
      assert entries == entries[..n] + [entries[n]];
    }
  }

  lemma {:induction false} PlaceHas(lower: string -> string, folder: string, c: Candidate, sorted: seq<Candidate>)
    ensures multiset(PlaceNear(lower, folder, c, sorted)) == multiset(sorted) + multiset{c}
  {
    hide Closeness;
    if sorted != [] {
      var n := |sorted| - 1;
      assert sorted == sorted[..n] + [sorted[n]];
      PlaceHas(lower, folder, c, sorted[..n]);
    }
  }

  lemma {:induction false} NearestHas(lower: string -> string, folder: string, list: seq<Candidate>)
    ensures multiset(Nearest(lower, folder, list)) == multiset(list)
  {
    hide Closeness, PlaceNear;
    if list != [] {
      var n := |list| - 1;
      assert list == list[..n] + [list[n]];
      NearestHas(lower, folder, list[..n]);
      PlaceHas(lower, folder, list[n], Nearest(lower, folder, list[..n]));
    }
  }

  /** The note lies where the target points from the folder, or from the root, or is called that. */
  predicate CouldMean(lower: string -> string, target: string, from: Option<string>, c: Candidate)
  {
    var key := Key(lower, Wanted(target));
    Key(lower, c.relativePath) == Key(lower, FromFolder(from) + "/" + Wanted(target))
    || Key(lower, c.relativePath) == key || Key(lower, c.name) == key
  }

  /** No note comes after one that is further away. */
  predicate NearestFirst(lower: string -> string, folder: string, list: seq<Candidate>)
  {
    forall i, j :: 0 <= i < j < |list| ==>
      Closeness(lower, list[i].relativePath, folder) >= Closeness(lower, list[j].relativePath, folder)
  }

  /** No note of the list is further away. */
  predicate NoFurther(lower: string -> string, folder: string, list: seq<Candidate>, n: nat)
  {
    forall i :: 0 <= i < |list| ==> Closeness(lower, list[i].relativePath, folder) >= n
  }

  lemma NearestAppend(lower: string -> string, folder: string, list: seq<Candidate>, last: Candidate)
    requires NearestFirst(lower, folder, list) && NoFurther(lower, folder, list, Closeness(lower, last.relativePath, folder))
    ensures NearestFirst(lower, folder, list + [last])
  {
    hide Closeness;
  }

  lemma NearestFront(lower: string -> string, folder: string, list: seq<Candidate>, k: nat)
    requires NearestFirst(lower, folder, list) && k < |list|
    ensures NearestFirst(lower, folder, list[..k])
    ensures NoFurther(lower, folder, list[..k], Closeness(lower, list[k].relativePath, folder))
  {
    hide Closeness;
  }

  lemma LastNearest(lower: string -> string, folder: string, list: seq<Candidate>, n: nat)
    requires NearestFirst(lower, folder, list) && (list != [] ==> Closeness(lower, list[|list| - 1].relativePath, folder) >= n)
    ensures NoFurther(lower, folder, list, n)
  {
    hide Closeness;
  }

  lemma PermutedNoFurther(lower: string -> string, folder: string, xs: seq<Candidate>, ys: seq<Candidate>, c: Candidate, n: nat)
    requires multiset(xs) == multiset(ys) + multiset{c}
    requires NoFurther(lower, folder, ys, n) && Closeness(lower, c.relativePath, folder) >= n
    ensures NoFurther(lower, folder, xs, n)
  {
    hide Closeness;
    forall i | 0 <= i < |xs| ensures Closeness(lower, xs[i].relativePath, folder) >= n {
      assert xs[i] in multiset(xs);
      assert xs[i] == c || xs[i] in ys;
    }
  }

  lemma {:induction false} PlaceSorts(lower: string -> string, folder: string, c: Candidate, sorted: seq<Candidate>)
    requires NearestFirst(lower, folder, sorted)
    ensures NearestFirst(lower, folder, PlaceNear(lower, folder, c, sorted))
  {
    hide Closeness, NearestFirst, NoFurther;
    var close := Closeness(lower, c.relativePath, folder);
    if sorted == [] {
      OneNear(lower, folder, c);
    } else if Closeness(lower, sorted[|sorted| - 1].relativePath, folder) >= close {
      LastNearest(lower, folder, sorted, close);
      NearestAppend(lower, folder, sorted, c);
    } else {
      var n := |sorted| - 1;
      NearestFront(lower, folder, sorted, n);
      PlaceSorts(lower, folder, c, sorted[..n]);
      PlaceHas(lower, folder, c, sorted[..n]);
      var front := PlaceNear(lower, folder, c, sorted[..n]);
      PermutedNoFurther(lower, folder, front, sorted[..n], c, Closeness(lower, sorted[n].relativePath, folder));
      NearestAppend(lower, folder, front, sorted[n]);
    }
  }

  lemma OneNear(lower: string -> string, folder: string, c: Candidate)
    ensures NearestFirst(lower, folder, [c])
  {
  }

  /** By name alone, the nearest notes come first, and none is lost or doubled. */
  lemma {:induction false} NearestSorts(lower: string -> string, folder: string, list: seq<Candidate>)
    ensures NearestFirst(lower, folder, Nearest(lower, folder, list))
    ensures multiset(Nearest(lower, folder, list)) == multiset(list)
  {
    hide Closeness, PlaceNear, NearestFirst;
    NearestHas(lower, folder, list);
    if list == [] {
      NoneNear(lower, folder);
    } else {
      var n := |list| - 1;
      NearestSorts(lower, folder, list[..n]);
      PlaceSorts(lower, folder, list[n], Nearest(lower, folder, list[..n]));
    }
  }

  lemma NoneNear(lower: string -> string, folder: string)
    ensures NearestFirst(lower, folder, [])
  {
  }

  /** A path is found exactly when some note with it lies where the target points, beside or
      from the root, or is called what the target says; and it is found once. */
  lemma FoundExactly(lower: string -> string, target: string, from: Option<string>, entries: seq<Candidate>, path: string)
    ensures Once(Candidates(lower, target, from, entries))
    ensures Seen(Candidates(lower, target, from, entries), path)
            <==> Wanted(target) != "" && exists c :: c in entries && c.path == path && CouldMean(lower, target, from, c)
  {
    hide Take, Nearest, AtKey, NamedKey, Key, Wanted;
    var wanted, folder := Wanted(target), FromFolder(from);
    if wanted != "" {
      var b, r, n := Key(lower, folder + "/" + wanted), Key(lower, wanted), Key(lower, wanted);
      var beside, rooted, named := AtKey(lower, entries, b), AtKey(lower, entries, r), NamedKey(lower, entries, n);
      AtKeyHas(lower, entries, b);
      AtKeyHas(lower, entries, r);
      NamedKeyHas(lower, entries, n);
      NearestHas(lower, folder, named);
      TakeAll(beside, rooted, Nearest(lower, folder, named), path);
      SeenIn(beside, path);
      SeenIn(rooted, path);
      SeenIn(Nearest(lower, folder, named), path);
      assert forall c :: c in named <==> c in multiset(named);
      assert forall c :: c in Nearest(lower, folder, named) <==> c in multiset(Nearest(lower, folder, named));
    }
  }

  lemma SeenIn(list: seq<Candidate>, path: string)
    ensures Seen(list, path) <==> exists c :: c in list && c.path == path
  {
    if Seen(list, path) {
      var i :| 0 <= i < |list| && list[i].path == path;
      assert list[i] in list;
    }
  }

  lemma TakeAll(x: seq<Candidate>, y: seq<Candidate>, z: seq<Candidate>, path: string)
    ensures Once(Take(Take(Take([], x), y), z))
    ensures Seen(Take(Take(Take([], x), y), z), path) <==> Seen(x, path) || Seen(y, path) || Seen(z, path)
    ensures x != [] ==> Take(Take(Take([], x), y), z) != [] && Take(Take(Take([], x), y), z)[0] == x[0]
  {
    hide Take;
    TakeKeeps([], x);
    TakeKeeps(Take([], x), y);
    TakeKeeps(Take(Take([], x), y), z);
    TakeOnce([], x);
    TakeOnce(Take([], x), y);
    TakeOnce(Take(Take([], x), y), z);
    if x != [] { TakeFirst(x); }
  }

  // --- A link leads back to the note it was written for ---

  predicate TrimmedAlready(s: string)
  {
    s != "" && !IsSpace(s[0]) && !IsSpace(s[|s| - 1])
  }

  lemma WantedIsWritten(target: string, from: string)
    requires '#' !in target && TrimmedAlready(Written(target, from))
    ensures Wanted(Written(target, from)) == Written(target, from)
  {
    hide RelativePath;
    assert '#' !in Slashed(target);
    SlashedTwice(target);
    RelativeFree(Slashed(target), FolderOf(from), '#');
    SplitPlain(Written(target, from), '#');
  }

  /** For a note in the index whose path has no `#`, whose target has no space at its ends,
      and to which the target leads back, the candidates for the written target are led by
      a note with the same key, and the note's path is among them. */
  lemma RoundTrip(lower: string -> string, note: Candidate, from: string, entries: seq<Candidate>)
    requires note in entries && '#' !in note.relativePath && TrimmedAlready(Written(note.relativePath, from))
    requires LeadsBack(Resolved(Slashed(note.relativePath)), Front(Resolved(Slashed(from))))
    ensures var found := Candidates(lower, Written(note.relativePath, from), Some(from), entries);
            found != [] && Key(lower, found[0].relativePath) == Key(lower, note.relativePath) && Seen(found, note.path)
  {
    hide Take, Nearest, AtKey, NamedKey, Resolved, LeadsBack, PlainKey, Wanted, Written;
    var target := Written(note.relativePath, from);
    WantedIsWritten(note.relativePath, from);
    BesideExactly(note.relativePath, from);
    var beside := AtKey(lower, entries, Key(lower, FolderOf(from) + "/" + target));
    AtKeyHas(lower, entries, Key(lower, FolderOf(from) + "/" + target));
    assert note in beside;
    SeenIn(beside, note.path);
    TakeAll(beside, AtKey(lower, entries, Key(lower, target)),
            Nearest(lower, FolderOf(from), NamedKey(lower, entries, Key(lower, target))), note.path);
    assert beside[0] in beside;
  }
}
