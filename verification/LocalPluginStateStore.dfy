/** The durable write protocol of src/main/plugins/local-plugin-state-store.ts, over a file
    system whose every operation may fail. */
module LocalPluginStateStore {
  import opened Options

  datatype Node = Regular(content: string) | Other

  /** What happened to the files, or was asked of them, and succeeded. */
  datatype Effect =
    | Created(path: string)
    | Wrote(path: string, content: string)
    | Synced(path: string)
    | Closed(path: string)
    | Renamed(from: string, into: string)
    | Removed(path: string)
    | Read(path: string, content: string)

  /** Which operations of a save fail. A failed write leaves some part of the text behind. */
  datatype Faults = Faults(
    mkdir: bool, lstat: bool, readExisting: bool,
    open: bool, write: bool, written: string, sync: bool, close: bool,
    rename: bool,
    openDirectory: bool, syncDirectory: bool, closeDirectory: bool,
    readBack: bool,
    remove: bool)

  type Files = map<string, Node>

  /** Files, and the record of what has been done to them: `past` holds every state of the
      files there has been, and the last of `past` is the present one. */
  class FileSystem {
    var files: Files
    ghost var past: seq<Files>
    ghost var log: seq<Effect>

    constructor (files: Files)
      ensures this.files == files && past == [files] && log == []
    {
      this.files, past, log := files, [files], [];
    }

    /** `open` for exclusive creation. */
    method Create(path: string, fails: bool) returns (ok: bool)
      modifies this
      ensures ok == (!fails && path !in old(files))
      ensures files == if ok then old(files)[path := Regular("")] else old(files)
      ensures past == if ok then old(past) + [files] else old(past)
      ensures log == if ok then old(log) + [Created(path)] else old(log)
    {
      if fails || path in files { return false; }
      files := files[path := Regular("")];
      past, log := past + [files], log + [Created(path)];
      return true;
    }

    method Write(path: string, content: string, fails: bool, written: string) returns (ok: bool)
      modifies this
      ensures ok == !fails
      ensures files == old(files)[path := Regular(if ok then content else written)]
      ensures past == old(past) + [files]
      ensures log == if ok then old(log) + [Wrote(path, content)] else old(log)
    {
      files := files[path := Regular(if fails then written else content)];
      past := past + [files];
      if !fails { log := log + [Wrote(path, content)]; }
      return !fails;
    }

    method Sync(path: string, fails: bool) returns (ok: bool)
      modifies this`log
      ensures ok == !fails && log == if ok then old(log) + [Synced(path)] else old(log)
    {
      if !fails { log := log + [Synced(path)]; }
      return !fails;
    }

    method Close(path: string, fails: bool) returns (ok: bool)
      modifies this`log
      ensures ok == !fails && log == if ok then old(log) + [Closed(path)] else old(log)
    {
      if !fails { log := log + [Closed(path)]; }
      return !fails;
    }

    /** One step: whatever was at `into` is gone, whatever was at `from` is there whole. */
    method Rename(from: string, into: string, fails: bool) returns (ok: bool)
      requires from in files && from != into
      modifies this
      ensures ok == !fails
      ensures files == if ok then old(files)[into := old(files)[from]] - {from} else old(files)
      ensures past == if ok then old(past) + [files] else old(past)
      ensures log == if ok then old(log) + [Renamed(from, into)] else old(log)
    {
      if fails { return false; }
      files := files[into := files[from]] - {from};
      past, log := past + [files], log + [Renamed(from, into)];
      return true;
    }

    method Remove(path: string, fails: bool) returns (ok: bool)
      modifies this
      ensures ok == !fails
      ensures files == if ok then old(files) - {path} else old(files)
      ensures past == if ok then old(past) + [files] else old(past)
      ensures log == if ok then old(log) + [Removed(path)] else old(log)
    {
      if fails { return false; }
      files := files - {path};
      past, log := past + [files], log + [Removed(path)];
      return true;
    }

    method ReadFile(path: string, fails: bool) returns (content: Option<string>)
      modifies this`log
      ensures content.Some? <==> !fails && path in files && files[path].Regular?
      ensures content.Some? ==> content.value == files[path].content
      ensures log == if content.Some? then old(log) + [Read(path, content.value)] else old(log)
    {
      if fails || path !in files || !files[path].Regular? { return None; }
      log := log + [Read(path, files[path].content)];
      return Some(files[path].content);
    }
  }

  datatype Error = DirectoryFailed | ReadFailed | Unsafe | Corrupt | WriteFailed

  datatype Detail = DirectorySyncFailed | ReadbackFailed | ReadbackMismatch

  datatype Outcome<T> =
    | Durable(state: T)
    | PublishedUncertain(state: T, detail: Detail)
    | Rejected(error: Error, residuePaths: seq<string>)

  /** The store's fixed surroundings: the catalog's parser and the JSON printer are given,
      as are the byte length of a text and the platform. */
  datatype Setting<!T> = Setting(
    directory: string,
    statePath: string,
    encode: T -> string,
    parse: string -> Option<T>,
    valid: T -> bool,
    size: string -> nat,
    onWindows: bool,
    defaults: T)

  const MAX_STATE_BYTES := 1000000

  datatype Reading<T> = Accepted(state: T) | Refused(error: Error)

  function ReadAccepted<T>(setting: Setting<T>, files: Files, lstatFails: bool, readFails: bool): Reading<T>
  {
    if lstatFails then Refused(ReadFailed)
    else if setting.statePath !in files then Accepted(setting.defaults)
    else match files[setting.statePath]
      case Other => Refused(Unsafe)
      case Regular(content) =>
        if setting.size(content) > MAX_STATE_BYTES then Refused(Unsafe)
        else if readFails then Refused(ReadFailed)
        else match setting.parse(content)
          case None => Refused(Corrupt)
          case Some(state) => Accepted(state)
  }

  /** A state file that must not be overwritten: not a regular one, too large, or not a
      state that the catalog allows. */
  ghost predicate Spoilt<T>(setting: Setting<T>, node: Node)
  {
    node.Other? || setting.size(node.content) > MAX_STATE_BYTES || setting.parse(node.content).None?
  }

  function Source<T>(setting: Setting<T>, state: T): string
  {
    setting.encode(state) + "\n"
  }

  function At(files: Files, path: string): Option<Node>
  {
    if path in files then Some(files[path]) else None
  }

  /** At each of these moments every file but the temporary one is as before, except that
      at the last of them, if the save was published, the state file holds the new text. */
  ghost predicate OldThenNew(before: Files, statePath: string, temporaryPath: string, source: string, published: bool, past: seq<Files>)
  {
    (published ==> past != [])
    && forall i :: 0 <= i < |past| ==>
      past[i] - {temporaryPath}
      == (if published && i == |past| - 1 then before[statePath := Regular(source)] else before) - {temporaryPath}
  }

  /** Everything a durable save does after it has found the existing state acceptable. */
  function Trail<T>(setting: Setting<T>, temporaryPath: string, source: string): seq<Effect>
  {
    [Created(temporaryPath), Wrote(temporaryPath, source), Synced(temporaryPath), Closed(temporaryPath),
     Renamed(temporaryPath, setting.statePath)]
    + (if setting.onWindows then [] else [Synced(setting.directory), Closed(setting.directory)])
    + [Read(setting.statePath, source)]
  }

  /** The temporary file is created, written, synced and closed; whether all of it went well. */
  method WriteTemporary(fs: FileSystem, temporaryPath: string, source: string, faults: Faults) returns (primary: bool, created: bool)
    modifies fs
    ensures created == (!faults.open && temporaryPath !in old(fs.files))
    ensures !primary <==> created && !faults.write && !faults.sync && !faults.close
    ensures fs.files - {temporaryPath} == old(fs.files) - {temporaryPath}
    ensures if created then temporaryPath in fs.files else fs.files == old(fs.files)
    ensures !primary ==> fs.files[temporaryPath] == Regular(source)
    ensures !primary ==>
      fs.log == old(fs.log) + [Created(temporaryPath), Wrote(temporaryPath, source), Synced(temporaryPath), Closed(temporaryPath)]
    ensures old(fs.past) <= fs.past
    ensures forall i :: |old(fs.past)| <= i < |fs.past| ==> fs.past[i] - {temporaryPath} == old(fs.files) - {temporaryPath}
  {
    primary, created := false, false;
    var ok := fs.Create(temporaryPath, faults.open);
    if ok {
      created := true;
      ok := fs.Write(temporaryPath, source, faults.write, faults.written);
      if ok { ok := fs.Sync(temporaryPath, faults.sync); }
    }
    primary := !ok;
    if created {
      ok := fs.Close(temporaryPath, faults.close);
      if !ok { primary := true; }
    }
  }

  /** Sync the directory, where the platform has that; whether it failed. */
  method SyncDirectory<T>(setting: Setting<T>, fs: FileSystem, faults: Faults) returns (failed: bool)
    modifies fs`log
    ensures failed <==> !setting.onWindows && (faults.openDirectory || faults.syncDirectory || faults.closeDirectory)
    ensures !failed ==>
      fs.log == old(fs.log) + if setting.onWindows then [] else [Synced(setting.directory), Closed(setting.directory)]
  {
    failed := false;
    if !setting.onWindows {
      if faults.openDirectory {
        failed := true;
      } else {
        var ok := fs.Sync(setting.directory, faults.syncDirectory);
        if !ok { failed := true; }
        ok := fs.Close(setting.directory, faults.closeDirectory);
        if !ok { failed := true; }
      }
    }
  }

  /** After the rename: sync, read back, compare. */
  method Confirm<T>(setting: Setting<T>, fs: FileSystem, state: T, faults: Faults) returns (outcome: Outcome<T>)
    requires setting.statePath in fs.files && fs.files[setting.statePath] == Regular(Source(setting, state))
    modifies fs`log
    ensures !outcome.Rejected?
    ensures outcome.Durable? <==>
      (setting.onWindows || !(faults.openDirectory || faults.syncDirectory || faults.closeDirectory))
      && !faults.readBack
      && setting.parse(Source(setting, state)).Some?
      && setting.encode(setting.parse(Source(setting, state)).value) == setting.encode(state)
    ensures outcome.Durable? ==>
      outcome.state == setting.parse(Source(setting, state)).value
      && fs.log == old(fs.log) + (if setting.onWindows then [] else [Synced(setting.directory), Closed(setting.directory)])
                   + [Read(setting.statePath, Source(setting, state))]
    ensures outcome.PublishedUncertain? && outcome.detail == ReadbackFailed ==> outcome.state == state
    ensures outcome.PublishedUncertain? && outcome.detail == DirectorySyncFailed ==>
      setting.encode(outcome.state) == setting.encode(state)
    ensures outcome.PublishedUncertain? && outcome.detail == ReadbackMismatch ==>
      setting.encode(outcome.state) != setting.encode(state)
  {
    var directorySyncFailed := SyncDirectory(setting, fs, faults);
    var confirmed := fs.ReadFile(setting.statePath, faults.readBack);
    if confirmed.None? { return PublishedUncertain(state, ReadbackFailed); }
    var reconciled := setting.parse(confirmed.value);
    if reconciled.None? { return PublishedUncertain(state, ReadbackFailed); }
    if setting.encode(reconciled.value) != setting.encode(state) {
      return PublishedUncertain(reconciled.value, ReadbackMismatch);
    }
    if directorySyncFailed { return PublishedUncertain(reconciled.value, DirectorySyncFailed); }
    return Durable(reconciled.value);
  }

  lemma Renaming(before: Files, written: Files, statePath: string, temporaryPath: string, source: string)
    requires temporaryPath !in before && temporaryPath != statePath
    requires temporaryPath in written && written[temporaryPath] == Regular(source)
    requires written - {temporaryPath} == before - {temporaryPath}
    ensures written[statePath := written[temporaryPath]] - {temporaryPath} == before[statePath := Regular(source)]
  {
    assert before - {temporaryPath} == before;
    var after := written[statePath := written[temporaryPath]] - {temporaryPath};
    assert after == (written - {temporaryPath})[statePath := Regular(source)];
  }

  /** No operation up to and including the rename fails. */
  predicate Publishes<T>(setting: Setting<T>, files: Files, temporaryPath: string, faults: Faults)
  {
    !faults.mkdir && ReadAccepted(setting, files, faults.lstat, faults.readExisting).Accepted?
    && !faults.open && temporaryPath !in files && !faults.write && !faults.sync && !faults.close && !faults.rename
  }

  /** No operation fails up to and including the rename. */
  predicate NoneBefore(faults: Faults)
  {
    !faults.mkdir && !faults.lstat && !faults.readExisting
    && !faults.open && !faults.write && !faults.sync && !faults.close && !faults.rename
  }

  /** The whole save. It publishes exactly when nothing up to the rename fails; if it does
      not, the state file and every other are as before, but for a temporary file that is
      named in the residue; and it is durable only after every step has succeeded. */
  method SaveSerialized<T>(setting: Setting<T>, fs: FileSystem, state: T, temporaryPath: string, faults: Faults)
    returns (outcome: Outcome<T>)
    requires temporaryPath != setting.statePath
    modifies fs
    ensures outcome.Rejected? <==> !Publishes(setting, old(fs.files), temporaryPath, faults)
    ensures outcome.Rejected? ==>
      (outcome.residuePaths == [] && fs.files == old(fs.files))
      || (outcome.residuePaths == [temporaryPath] && temporaryPath !in old(fs.files) && temporaryPath in fs.files
          && fs.files - {temporaryPath} == old(fs.files))
    ensures setting.statePath in old(fs.files) && Spoilt(setting, old(fs.files)[setting.statePath]) ==>
      outcome.Rejected? && outcome.residuePaths == [] && fs.files == old(fs.files)
      && (!faults.mkdir && !faults.lstat && !faults.readExisting ==>
            outcome.error == var node := old(fs.files)[setting.statePath];
                             if node.Other? || setting.size(node.content) > MAX_STATE_BYTES then Unsafe else Corrupt)
    ensures faults.lstat || (setting.statePath in old(fs.files) && faults.readExisting) ==> outcome.Rejected? && fs.files == old(fs.files)
    ensures (setting.statePath in old(fs.files) ==> !Spoilt(setting, old(fs.files)[setting.statePath])) ==>
      temporaryPath !in old(fs.files) && NoneBefore(faults) ==> !outcome.Rejected?
    ensures !outcome.Rejected? ==> fs.files == old(fs.files)[setting.statePath := Regular(Source(setting, state))]
    ensures outcome.Durable? ==> fs.log == old(fs.log) + Trail(setting, temporaryPath, Source(setting, state))
    ensures outcome.Durable? ==> setting.encode(outcome.state) == setting.encode(state)
    ensures old(fs.past) <= fs.past
    ensures OldThenNew(old(fs.files), setting.statePath, temporaryPath, Source(setting, state), !outcome.Rejected?,
                       fs.past[|old(fs.past)|..])
  {
    if faults.mkdir { return Rejected(DirectoryFailed, []); }
    var existing := ReadAccepted(setting, fs.files, faults.lstat, faults.readExisting);
    if existing.Refused? { return Rejected(existing.error, []); }
    var source := Source(setting, state);
    var primary, temporaryCreated := WriteTemporary(fs, temporaryPath, source, faults);
    var published := false;
    ghost var written := fs.files;
    if !primary {
      published := fs.Rename(temporaryPath, setting.statePath, faults.rename);
    }
    if published {
      Renaming(old(fs.files), written, setting.statePath, temporaryPath, source);
      outcome := Confirm(setting, fs, state, faults);
      return;
    }
    var residuePaths: seq<string> := [];
    if temporaryCreated {
      var removed := fs.Remove(temporaryPath, faults.remove);
      if !removed { residuePaths := [temporaryPath]; }
    }
    return Rejected(WriteFailed, residuePaths);
  }

  // --- Saves one after another ---

  /** What the state file holds after the first saves, in the order in which they were accepted. */
  function Held<T>(setting: Setting<T>, initial: Option<Node>, accepted: seq<T>, done: seq<Outcome<T>>): Option<Node>
    requires |done| <= |accepted|
  {
    if done == [] then initial
    else
      var n := |done| - 1;
      if done[n].Rejected? then Held(setting, initial, accepted, done[..n])
      else Some(Regular(Source(setting, accepted[n])))
  }

  /** Only the saves that have been carried out matter. */
  lemma {:induction false} HeldPrefix<T>(setting: Setting<T>, initial: Option<Node>, accepted: seq<T>, more: seq<T>, done: seq<Outcome<T>>)
    requires |done| <= |accepted|
    ensures Held(setting, initial, accepted + more, done) == Held(setting, initial, accepted, done)
  {
    if done != [] {
      var n := |done| - 1;
      HeldPrefix(setting, initial, accepted, more, done[..n]);
    }
  }

  /** How many saves had been carried out when each moment after `base` was there: never
      fewer than before, and the state file holds what those saves make of it. */
  ghost predicate InOrder<T>(setting: Setting<T>, initial: Option<Node>, accepted: seq<T>, done: seq<Outcome<T>>,
                             past: seq<Files>, base: nat, reached: seq<nat>)
    requires |done| <= |accepted|
  {
    |past| == base + |reached|
    && (forall i, j :: 0 <= i <= j < |reached| ==> reached[i] <= reached[j] <= |done|)
    && (forall i :: 0 <= i < |reached| ==> At(past[base + i], setting.statePath) == Held(setting, initial, accepted, done[..reached[i]]))
  }

  lemma InOrderMore<T>(setting: Setting<T>, initial: Option<Node>, accepted: seq<T>, more: seq<T>, done: seq<Outcome<T>>,
                       past: seq<Files>, base: nat, reached: seq<nat>)
    requires |done| <= |accepted| && InOrder(setting, initial, accepted, done, past, base, reached)
    ensures InOrder(setting, initial, accepted + more, done, past, base, reached)
  {
    hide Held;
    forall i | 0 <= i < |reached|
      ensures At(past[base + i], setting.statePath) == Held(setting, initial, accepted + more, done[..reached[i]])
    {
      HeldPrefix(setting, initial, accepted, more, done[..reached[i]]);
    }
  }

  /** The moments of one more save come after all others, the last of them after it if it
      was published. */
  lemma InOrderNext<T>(setting: Setting<T>, initial: Option<Node>, accepted: seq<T>, done: seq<Outcome<T>>, outcome: Outcome<T>,
                       past: seq<Files>, moments: seq<Files>, base: nat, reached: seq<nat>)
    returns (reached': seq<nat>)
    requires |done| < |accepted| && InOrder(setting, initial, accepted, done, past, base, reached)
    requires forall i :: 0 <= i < |moments| ==>
      At(moments[i], setting.statePath)
      == Held(setting, initial, accepted, if !outcome.Rejected? && i == |moments| - 1 then done + [outcome] else done)
    ensures InOrder(setting, initial, accepted, done + [outcome], past + moments, base, reached') && reached <= reached'
  {
    hide Held, At;
    var n := |done|;
    reached' := reached + seq(|moments|, i => if !outcome.Rejected? && i == |moments| - 1 then n + 1 else n);
    var done' := done + [outcome];
    assert done'[..n] == done && done'[..n + 1] == done';
    forall i | 0 <= i < |reached'|
      ensures At((past + moments)[base + i], setting.statePath) == Held(setting, initial, accepted, done'[..reached'[i]])
    {
      if i < |reached| { assert done'[..reached[i]] == done[..reached[i]]; }
    }
  }

  lemma {:induction false} HeldWhole<T>(setting: Setting<T>, initial: Option<Node>, accepted: seq<T>, done: seq<Outcome<T>>)
    requires |done| <= |accepted|
    ensures var held := Held(setting, initial, accepted, done);
            held == initial || exists k :: 0 <= k < |done| && !done[k].Rejected? && held == Some(Regular(Source(setting, accepted[k])))
  {
    hide Source;
    if done != [] {
      var n := |done| - 1;
      HeldWhole(setting, initial, accepted, done[..n]);
      if !done[n].Rejected? { assert Held(setting, initial, accepted, done) == Some(Regular(Source(setting, accepted[n]))); }
    }
  }

  class Store<T> {
    const setting: Setting<T>
    const fs: FileSystem
    /** The saves that `writeTail` still has to get to. */
    var tail: seq<T>
    ghost const initial: Option<Node>
    ghost var accepted: seq<T>
    ghost var done: seq<Outcome<T>>
    /** The moments of the files before the store, and how many saves had been carried out
        at each moment since. */
    ghost const base: nat
    ghost var reached: seq<nat>

    constructor (setting: Setting<T>, fs: FileSystem)
      ensures Valid() && this.setting == setting && this.fs == fs && tail == [] && accepted == [] && done == []
    {
      this.setting, this.fs, tail := setting, fs, [];
      initial := if setting.statePath in fs.files then Some(fs.files[setting.statePath]) else None;
      accepted, done, base, reached := [], [], |fs.past|, [];
    }

    ghost predicate Valid()
      reads this, fs
    {
      |done| <= |accepted| && tail == accepted[|done|..]
      && At(fs.files, setting.statePath) == Held(setting, initial, accepted, done)
      && InOrder(setting, initial, accepted, done, fs.past, base, reached)
    }

    /** Whole contents at every moment: what was there first, or the text of one accepted
        state; and never an older save's after a newer one's. */
    lemma WholeAlways(i: nat)
      requires Valid() && i < |reached|
      ensures var held := At(fs.past[base + i], setting.statePath);
              held == initial || exists k :: 0 <= k < reached[i] && !done[k].Rejected? && held == Some(Regular(Source(setting, accepted[k])))
      ensures forall j :: i <= j < |reached| ==> reached[i] <= reached[j]
    {
      hide Source;
      HeldWhole(setting, initial, accepted, done[..reached[i]]);
    }

    /** A state that the catalog does not allow is refused at once. */
    method Save(state: T) returns (queued: bool)
      requires Valid()
      modifies this`tail, this`accepted
      ensures Valid() && queued == setting.valid(state)
      ensures accepted == (if queued then old(accepted) + [state] else old(accepted)) && tail == accepted[|done|..]
    {
      if !setting.valid(state) { return false; }
      HeldPrefix(setting, initial, accepted, [state], done);
      InOrderMore(setting, initial, accepted, [state], done, fs.past, base, reached);
      tail := tail + [state];
      accepted := accepted + [state];
      return true;
    }

    /** The next save in line is carried out, however the ones before it ended. While it is
        under way the state file is what it was; from the moment it is published, whole, it
        is the new text. */
    method RunNext(temporaryPath: string, faults: Faults) returns (outcome: Outcome<T>)
      requires Valid() && tail != [] && temporaryPath != setting.statePath
      modifies this`tail, this`done, this`reached, fs
      ensures Valid() && done == old(done) + [outcome] && accepted == old(accepted)
      ensures outcome.Durable? ==> setting.encode(outcome.state) == setting.encode(old(tail)[0])
      ensures old(fs.past) <= fs.past && old(reached) <= reached
      ensures Held(setting, initial, accepted, done) ==
        if outcome.Rejected? then Held(setting, initial, accepted, old(done)) else Some(Regular(Source(setting, old(tail)[0])))
      ensures forall i :: |old(fs.past)| <= i < |fs.past| ==>
        At(fs.past[i], setting.statePath)
        == Held(setting, initial, accepted, if !outcome.Rejected? && i == |fs.past| - 1 then done else old(done))
    {
      var state := tail[0];
      outcome := SaveSerialized(setting, fs, state, temporaryPath, faults);
      tail := tail[1..];
      done := done + [outcome];
      assert done[..|done| - 1] == old(done);
      ghost var moments := fs.past[|old(fs.past)|..];
      MomentsHeld(old(fs.files), setting.statePath, temporaryPath, Source(setting, state), !outcome.Rejected?, moments);
      reached := InOrderNext(setting, initial, accepted, old(done), outcome, old(fs.past), moments, base, reached);
      assert old(fs.past) + moments == fs.past;
    }
  }

  lemma MomentsHeld(before: Files, statePath: string, temporaryPath: string, source: string, published: bool, past: seq<Files>)
    requires temporaryPath != statePath && OldThenNew(before, statePath, temporaryPath, source, published, past)
    ensures forall i :: 0 <= i < |past| ==>
      At(past[i], statePath) == if published && i == |past| - 1 then Some(Regular(source)) else At(before, statePath)
  {
    forall i | 0 <= i < |past|
      ensures At(past[i], statePath) == if published && i == |past| - 1 then Some(Regular(source)) else At(before, statePath)
    {
      var now := if published && i == |past| - 1 then before[statePath := Regular(source)] else before;
      assert past[i] - {temporaryPath} == now - {temporaryPath};
      assert At(past[i], statePath) == At(past[i] - {temporaryPath}, statePath);
    }
  }
}
