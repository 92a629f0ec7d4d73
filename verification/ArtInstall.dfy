/** `vtt art install` (cmd/vtt/art.go) and the names art may carry
    (internal/artlib/artlib.go): a batch lands whole, or art/ is as it was. */
module ArtInstall {
  import opened Contract

  // ----- names -----

  const PICTURE: Text := [0x2e, 0x70, 0x6e, 0x67] // .png
  const SIDECAR: Text := [0x2e, 0x6a, 0x73, 0x6f, 0x6e] // .json
  const REPLACED: Text := [0x2e, 0x76, 0x74, 0x74, 0x2d, 0x72, 0x65, 0x70, 0x6c, 0x61, 0x63, 0x65, 0x64] // .vtt-replaced
  const INSTALLING: Text := [0x2e, 0x76, 0x74, 0x74, 0x2d, 0x69, 0x6e, 0x73, 0x74, 0x61, 0x6c, 0x6c, 0x69, 0x6e, 0x67] // .vtt-installing
  const HYPHEN: byte := 0x2d
  const MAX_ART_ID := 250

  predicate Alnum(c: byte) { 0x61 <= c <= 0x7a || 0x30 <= c <= 0x39 }

  /** Kebab case: lowercase letters and digits joined by single interior hyphens. */
  predicate IsArtId(id: Text) {
    && 1 <= |id| <= MAX_ART_ID
    && (forall k :: 0 <= k < |id| ==> Alnum(id[k]) || id[k] == HYPHEN)
    && id[0] != HYPHEN && id[|id| - 1] != HYPHEN
    && forall k :: 0 < k < |id| ==> !(id[k - 1] == HYPHEN && id[k] == HYPHEN)
  }

  method CheckArtId(id: Text) returns (ok: bool)
    ensures ok <==> IsArtId(id)
  {
    if |id| > MAX_ART_ID { return false; }
    var prevHyphen := true;
    for i := 0 to |id|
      invariant forall k :: 0 <= k < i ==> Alnum(id[k]) || id[k] == HYPHEN
      invariant forall k :: 0 < k < i ==> !(id[k - 1] == HYPHEN && id[k] == HYPHEN)
      invariant i > 0 ==> id[0] != HYPHEN
      invariant prevHyphen <==> i == 0 || id[i - 1] == HYPHEN
    {
      var c := id[i];
      if Alnum(c) {
        prevHyphen := false;
      } else if c == HYPHEN {
        if prevHyphen { return false; }
        prevHyphen := true;
      } else {
        return false;
      }
    }
    ok := !prevHyphen;
  }

  predicate HasSuffix(name: Text, suffix: Text) { |suffix| <= |name| && name[|name| - |suffix|..] == suffix }

  predicate IsArtNameWith(name: Text, ext: Text) { HasSuffix(name, ext) && IsArtId(name[..|name| - |ext|]) }

  predicate IsArtFileName(name: Text) { IsArtNameWith(name, PICTURE) || IsArtNameWith(name, SIDECAR) }

  method CheckArtFileName(name: Text) returns (ok: bool)
    ensures ok <==> IsArtFileName(name)
  {
    ok := false;
    if HasSuffix(name, PICTURE) {
      ok := CheckArtId(name[..|name| - |PICTURE|]);
    }
    if !ok && HasSuffix(name, SIDECAR) {
      ok := CheckArtId(name[..|name| - |SIDECAR|]);
    }
  }

  function TrimSuffix(name: Text, suffix: Text): Text {
    if HasSuffix(name, suffix) then name[..|name| - |suffix|] else name
  }

  function Stem(name: Text): Text { TrimSuffix(TrimSuffix(name, PICTURE), SIDECAR) }

  /** The id a map names a piece by is its filename's, extension off. */
  lemma {:induction false} StemIsArtId(name: Text)
    requires IsArtFileName(name)
    ensures IsArtId(Stem(name)) && (name == Stem(name) + PICTURE || name == Stem(name) + SIDECAR)
  {
    if HasSuffix(name, PICTURE) {
      LacksSuffix(name, SIDECAR, 4) by { assert name[|name| - 1] == PICTURE[3]; }
      NoDot(TrimSuffix(name, PICTURE), SIDECAR);
    }
  }

  lemma {:induction false} LacksSuffix(x: Text, ext: Text, k: nat)
    requires k < |ext| <= |x| && x[|x| - |ext| + k] != ext[k]
    ensures !HasSuffix(x, ext)
  {
    assert x[|x| - |ext|..][k] != ext[k];
  }

  lemma {:induction false} NoDot(id: Text, ext: Text)
    requires IsArtId(id) && ext != [] && ext[0] == 0x2e
    ensures !HasSuffix(id, ext)
  {
    if |ext| <= |id| { LacksSuffix(id, ext, 0); }
  }

  function Backup(name: Text): Text { name + REPLACED }
  function Working(name: Text): Text { name + INSTALLING }

  /** The files an install works through, beside the names it installs. */
  function WorkNames(names: set<Text>): set<Text> { (set n | n in names :: Backup(n)) + (set n | n in names :: Working(n)) }

  /** A working name is no art's name, and says whose it is. */
  lemma {:induction false} WorkApart(m: Text, n: Text)
    ensures !IsArtFileName(Backup(m)) && !IsArtFileName(Working(m)) && Backup(m) != Working(n)
    ensures Backup(m) == Backup(n) ==> m == n
    ensures Working(m) == Working(n) ==> m == n
  {
    var b, w := Backup(m), Working(m);
    LacksSuffix(b, PICTURE, 3);
    LacksSuffix(b, SIDECAR, 4);
    LacksSuffix(w, PICTURE, 0);
    LacksSuffix(w, SIDECAR, 4);
    assert b[|b| - 1] == 0x64 && Working(n)[|Working(n)| - 1] == 0x67;
    assert b[..|m|] == m && w[..|m|] == m && Backup(n)[..|n|] == n && Working(n)[..|n|] == n;
  }

  // ----- the directory -----

  /** What a name in art/ may be; an install writes files. */
  datatype Entry = File(bytes: Text) | Other(what: int)

  type Files = map<Text, Entry>

  /** art/, with the operations the command uses. */
  class ArtDir {
    var files: Files

    constructor (files: Files)
      ensures this.files == files
    {
      this.files := files;
    }

    method Rename(from: Text, to: Text)
      requires from in files && from != to
      modifies this
      ensures files == Renamed(old(files), from, to)
    {
      files := files[to := files[from]] - {from};
    }

    method Remove(name: Text)
      modifies this
      ensures files == old(files) - {name}
    {
      files := files - {name};
    }

    method Write(name: Text, bytes: Text)
      modifies this
      ensures files == old(files)[name := File(bytes)]
    {
      files := files[name := File(bytes)];
    }
  }

  function Renamed(f: Files, from: Text, to: Text): Files
    requires from in f
  {
    f[to := f[from]] - {from}
  }

  // ----- one file -----

  /** Where a step of one install may fail: nowhere, the set-aside, the copy before or
      after its file exists, or the rename into place. */
  datatype Fault = NoFault | SetAside | OpenSource | Copy(partial: Text) | IntoPlace

  datatype Kind = Missing | Directory | Irregular | Regular

  datatype Source = Source(name: Text, kind: Kind, bytes: Text)

  /** What one install did: whether an old file was set aside, and whether the name is
      now this run's. */
  datatype Installed = Installed(dest: Text, backup: bool, wrote: bool)

  /** Some of `was`, all of it but for names in `gone`. */
  predicate Most(f: Files, was: Files, gone: set<Text>) {
    && (forall n :: n in f ==> n in was && f[n] == was[n])
    && (forall n :: n in was && n !in gone ==> n in f)
  }

  /** One record undone: what this run wrote removed, and what it set aside put back. */
  function Undone(f: Files, rec: Installed): Files {
    var g := if rec.wrote then f - {rec.dest} else f;
    if rec.backup && Backup(rec.dest) in g then Renamed(g, Backup(rec.dest), rec.dest) else g
  }

  /** art/ after one install that succeeded. */
  function Landed(f: Files, name: Text, bytes: Text): Files {
    var g := if name in f then Renamed(f, name, Backup(name)) else f;
    (g - {Working(name)})[name := File(bytes)]
  }

  lemma {:induction false} WorkDiffers(name: Text)
    ensures Backup(name) != name && Working(name) != name && Backup(name) != Working(name)
  {
    WorkApart(name, name);
    assert |Backup(name)| != |name| && |Working(name)| != |name|;
  }

  /** installOne: the record of what it did, on failure too. */
  method InstallOne(dir: ArtDir, src: Source, fault: Fault) returns (rec: Installed, ok: bool)
    modifies dir
    ensures rec.dest == src.name && (ok <==> fault == NoFault || (fault == SetAside && src.name !in old(dir.files)))
    ensures ok ==> dir.files == Landed(old(dir.files), src.name, src.bytes) && rec.wrote && (rec.backup <==> src.name in old(dir.files))
    ensures !ok ==> Most(Undone(dir.files, rec), old(dir.files), {Backup(src.name), Working(src.name)})
  {
    WorkDiffers(src.name);
    rec := Installed(src.name, false, false);
    if src.name in dir.files {
      if fault == SetAside { return rec, false; }
      dir.Rename(src.name, Backup(src.name));
      rec := rec.(backup := true);
    }
    var tmp := Working(src.name);
    if fault == OpenSource {
      dir.Remove(tmp);
      return rec, false;
    }
    if fault.Copy? {
      dir.Write(tmp, fault.partial);
      dir.Remove(tmp);
      return rec, false;
    }
    dir.Write(tmp, src.bytes);
    if fault == IntoPlace {
      dir.Remove(tmp);
      return rec, false;
    }
    dir.Rename(tmp, src.name);
    rec := rec.(wrote := true);
    ok := true;
    assert dir.files == Landed(old(dir.files), src.name, src.bytes);
  }

  /** An install undone leaves what was there, but for working files of that name. */
  lemma {:induction false} UndoInverts(f: Files, was: Files, name: Text, bytes: Text, gone: set<Text>)
    requires Most(f, Landed(was, name, bytes), gone) && name !in gone && Backup(name) !in gone
    ensures Most(Undone(f, Installed(name, name in was, true)), was, gone + {Backup(name), Working(name)})
  {
    WorkDiffers(name);
  }

  // ----- the batch -----

  function Names(sources: seq<Source>): set<Text> { set s | s in sources :: s.name }

  predicate DistinctNames(sources: seq<Source>) {
    forall i, j :: 0 <= i < j < |sources| ==> sources[i].name != sources[j].name
  }

  /** art/ overridden by every source. */
  function Overridden(f: Files, sources: seq<Source>): Files {
    if sources == [] then f
    else
      var s := sources[|sources| - 1];
      Overridden(f, sources[..|sources| - 1])[s.name := File(s.bytes)]
  }

  /** Everything that can refuse before a byte is written. */
  predicate Admitted(f: Files, sources: seq<Source>, force: bool) {
    DistinctNames(sources) && forall s :: s in sources ==> s.kind == Regular && IsArtFileName(s.name) && (force || s.name !in f)
  }

  method Preflight(dir: ArtDir, sources: seq<Source>, force: bool) returns (ok: bool, stems: set<Text>)
    ensures ok <==> Admitted(dir.files, sources, force)
    ensures ok ==> stems == set s | s in sources :: Stem(s.name)
  {
    var incoming: set<Text> := {};
    stems := {};
    for i := 0 to |sources|
      invariant Admitted(dir.files, sources[..i], force) && incoming == Names(sources[..i])
      invariant stems == set s | s in sources[..i] :: Stem(s.name)
    {
      var s := sources[i];
      assert sources[..i + 1] == sources[..i] + [s];
      if s.name in incoming {
        var t :| t in sources[..i] && t.name == s.name;
        var j :| 0 <= j < i && sources[j] == t;
        return false, {};
      }
      var named := CheckArtFileName(s.name);
      if s.kind != Regular || !named || (s.name in dir.files && !force) {
        assert s in sources;
        return false, {};
      }
      forall j | 0 <= j < i ensures sources[j].name != s.name {
        assert sources[j] in sources[..i] && sources[j].name in Names(sources[..i]);
      }
      incoming, stems := incoming + {s.name}, stems + {Stem(s.name)};
    }
    assert sources[..|sources|] == sources;
    ok := true;
  }

  /** art/ after the first n sources landed. */
  function LandedAll(f: Files, sources: seq<Source>): Files {
    if sources == [] then f
    else
      var s := sources[|sources| - 1];
      Landed(LandedAll(f, sources[..|sources| - 1]), s.name, s.bytes)
  }

  /** The records of those installs. */
  function Records(f: Files, sources: seq<Source>): (r: seq<Installed>)
    ensures |r| == |sources|
  {
    if sources == [] then []
    else
      var init, s := sources[..|sources| - 1], sources[|sources| - 1];
      Records(f, init) + [Installed(s.name, s.name in LandedAll(f, init), true)]
  }

  /** What the sources of a batch are, once admitted. */
  predicate ArtNames(sources: seq<Source>) {
    DistinctNames(sources) && forall s :: s in sources ==> IsArtFileName(s.name)
  }

  /** The last source of a batch beside the ones before it: its names are its own. */
  lemma {:induction false} LastApart(sources: seq<Source>)
    requires sources != [] && ArtNames(sources)
    ensures var init, s := sources[..|sources| - 1], sources[|sources| - 1];
            && ArtNames(init) && s.name !in Names(init) && s.name !in WorkNames(Names(sources))
            && Backup(s.name) !in WorkNames(Names(init)) && Backup(s.name) !in Names(sources)
            && (forall t :: t in init ==> t.name !in {Backup(s.name), Working(s.name)} && Backup(t.name) !in {Backup(s.name), Working(s.name)})
            && Names(sources) == Names(init) + {s.name}
            && WorkNames(Names(sources)) == WorkNames(Names(init)) + {Backup(s.name), Working(s.name)}
  {
    hide IsArtFileName;
    var init, s := sources[..|sources| - 1], sources[|sources| - 1];
    assert sources == init + [s];
    forall t | t in init ensures t.name != s.name && Backup(t.name) != Backup(s.name) && Working(t.name) != Backup(s.name) && Backup(t.name) != Working(s.name) {
      var j :| 0 <= j < |init| && init[j] == t;
      assert sources[j] == t;
      WorkApart(t.name, s.name);
      WorkApart(s.name, t.name);
    }
    forall t | t in sources ensures IsArtFileName(t.name) && !IsArtFileName(Backup(t.name)) && !IsArtFileName(Working(t.name)) {
      WorkApart(t.name, t.name);
    }
  }

  /** A name is there before its own install exactly when it was at first. */
  lemma {:induction false} LandedKeys(was: Files, sources: seq<Source>)
    requires ArtNames(sources)
    ensures forall n :: n !in Names(sources) && n !in WorkNames(Names(sources)) ==>
              (n in LandedAll(was, sources) <==> n in was) && (n in was ==> LandedAll(was, sources)[n] == was[n])
    ensures forall n :: n in Names(sources) ==> n in LandedAll(was, sources)
  {
    if sources != [] {
      LastApart(sources);
      hide WorkNames, ArtNames;
      LandedKeys(was, sources[..|sources| - 1]);
    }
  }

  function UndoneAll(f: Files, done: seq<Installed>): Files
    decreases |done|
  {
    if done == [] then f else UndoneAll(Undone(f, done[|done| - 1]), done[..|done| - 1])
  }

  /** A whole batch undone leaves what was there, but for working files. */
  lemma {:induction false} UndoesAll(f: Files, was: Files, sources: seq<Source>, gone: set<Text>)
    requires ArtNames(sources) && Most(f, LandedAll(was, sources), gone)
    requires forall s :: s in sources ==> s.name !in gone && Backup(s.name) !in gone
    ensures Most(UndoneAll(f, Records(was, sources)), was, gone + WorkNames(Names(sources)))
    decreases |sources|
  {
    hide Most, Landed, Undone, WorkNames, ArtNames;
    if sources == [] {
      assert gone + WorkNames(Names([])) == gone by { NoWork(); }
    } else {
      var init, s := sources[..|sources| - 1], sources[|sources| - 1];
      LastApart(sources);
      assert s in sources;
      UndoInverts(f, LandedAll(was, init), s.name, s.bytes, gone);
      var now := gone + {Backup(s.name), Working(s.name)};
      assert forall t :: t in init ==> t in sources;
      UndoesAll(Undone(f, Installed(s.name, s.name in LandedAll(was, init), true)), was, init, now);
      assert now + WorkNames(Names(init)) == gone + WorkNames(Names(sources));
      assert Records(was, sources)[..|sources| - 1] == Records(was, init);
    }
  }

  lemma {:induction false} NoWork()
    ensures WorkNames(Names([])) == {}
  {
  }

  /** undo: the records in reverse. */
  method Undo(dir: ArtDir, done: seq<Installed>)
    modifies dir
    ensures dir.files == UndoneAll(old(dir.files), done)
  {
    var i := |done|;
    assert done[..i] == done;
    while i > 0
      invariant 0 <= i <= |done| && UndoneAll(dir.files, done[..i]) == UndoneAll(old(dir.files), done)
    {
      i := i - 1;
      assert done[..i + 1][..i] == done[..i];
      UndoOne(dir, done[i]);
    }
  }

  method UndoOne(dir: ArtDir, rec: Installed)
    modifies dir
    ensures dir.files == Undone(old(dir.files), rec)
  {
    WorkDiffers(rec.dest);
    if rec.wrote {
      dir.Remove(rec.dest);
    }
    if rec.backup && Backup(rec.dest) in dir.files {
      dir.Rename(Backup(rec.dest), rec.dest);
    }
  }

  // ----- the set-aside files of a batch that landed -----

  function Backups(done: seq<Installed>): set<Text> { set r | r in done && r.backup :: Backup(r.dest) }

  /** With its set-aside files gone, a batch that landed is art/ overridden. */
  lemma {:induction false} LandedOverrides(was: Files, sources: seq<Source>)
    requires ArtNames(sources)
    ensures Most(LandedAll(was, sources) - Backups(Records(was, sources)), Overridden(was, sources), WorkNames(Names(sources)))
    ensures forall b :: b in Backups(Records(was, sources)) ==> b in WorkNames(Names(sources)) && b !in Names(sources)
  {
    if sources != [] {
      var init, s := sources[..|sources| - 1], sources[|sources| - 1];
      LastApart(sources);
      LandedOverrides(was, init);
      var rec := Installed(s.name, s.name in LandedAll(was, init), true);
      assert Backups(Records(was, init) + [rec]) == Backups(Records(was, init)) + (if rec.backup then {Backup(s.name)} else {});
      OverridesOne(LandedAll(was, init), Overridden(was, init), Backups(Records(was, init)), WorkNames(Names(init)), s.name, s.bytes);
    }
  }

  lemma {:induction false} OverridesOne(f: Files, o: Files, backups: set<Text>, gone: set<Text>, name: Text, bytes: Text)
    requires Most(f - backups, o, gone) && name !in backups && name !in gone && backups <= gone
    ensures var more := if name in f then {Backup(name)} else {};
            Most(Landed(f, name, bytes) - (backups + more), o[name := File(bytes)], gone + {Backup(name), Working(name)})
  {
    WorkDiffers(name);
  }

  /** Nothing of a set of names was there, so nothing of it is gone. */
  lemma {:induction false} MostIsAll(f: Files, was: Files, gone: set<Text>)
    requires Most(f, was, gone) && gone !! was.Keys
    ensures f == was
  {
  }

  lemma {:induction false} OverriddenKeys(was: Files, sources: seq<Source>)
    ensures Overridden(was, sources).Keys == was.Keys + Names(sources)
  {
    if sources != [] {
      var init := sources[..|sources| - 1];
      OverriddenKeys(was, init);
      assert sources == init + [sources[|init|]];
    }
  }

  // ----- the command -----

  /** No step of an install fails; setting aside what is not there is no step. */
  predicate Unharmed(f: Files, sources: seq<Source>, faults: seq<Fault>)
    requires |faults| == |sources|
  {
    forall i :: 0 <= i < |sources| ==> faults[i] == NoFault || (faults[i] == SetAside && sources[i].name !in f)
  }

  lemma {:induction false} PrefixApart(sources: seq<Source>, i: nat)
    requires i < |sources| && ArtNames(sources)
    ensures ArtNames(sources[..i]) && sources[i].name !in Names(sources[..i]) && sources[i].name !in WorkNames(Names(sources[..i]))
    ensures forall t :: t in sources[..i] ==>
              t.name !in {Backup(sources[i].name), Working(sources[i].name)} && Backup(t.name) !in {Backup(sources[i].name), Working(sources[i].name)}
    ensures WorkNames(Names(sources[..i])) + {Backup(sources[i].name), Working(sources[i].name)} <= WorkNames(Names(sources))
  {
    var up := sources[..i + 1];
    assert ArtNames(up);
    LastApart(up);
    assert up[..i] == sources[..i];
    assert forall s :: s in up ==> s in sources;
  }

  /** Undone from the install that failed back to the first. */
  lemma {:induction false} Abandoned(was: Files, sources: seq<Source>, i: nat, f: Files)
    requires i < |sources| && ArtNames(sources)
    requires Most(f, LandedAll(was, sources[..i]), {Backup(sources[i].name), Working(sources[i].name)})
    ensures Most(UndoneAll(f, Records(was, sources[..i])), was, WorkNames(Names(sources)))
  {
    hide WorkNames, Names, Landed, Undone, ArtNames;
    PrefixApart(sources, i);
    UndoesAll(f, was, sources[..i], {Backup(sources[i].name), Working(sources[i].name)});
  }

  /** The sources copied in one by one, or undone at the first that fails. */
  method CopyAll(dir: ArtDir, sources: seq<Source>, faults: seq<Fault>) returns (ok: bool, done: seq<Installed>)
    requires |faults| == |sources| && ArtNames(sources)
    modifies dir
    ensures ok <==> Unharmed(old(dir.files), sources, faults)
    ensures ok ==> dir.files == LandedAll(old(dir.files), sources) && done == Records(old(dir.files), sources)
    ensures !ok ==> Most(dir.files, old(dir.files), WorkNames(Names(sources)))
  {
    hide WorkNames, Names, Most, Landed, Undone, IsArtFileName;
    ghost var was := dir.files;
    done := [];
    for i := 0 to |sources|
      invariant dir.files == LandedAll(was, sources[..i]) && done == Records(was, sources[..i])
      invariant Unharmed(was, sources[..i], faults[..i])
    {
      assert sources[..i + 1][..i] == sources[..i];
      PrefixApart(sources, i);
      LandedKeys(was, sources[..i]);
      var rec, fine := InstallOne(dir, sources[i], faults[i]);
      if !fine {
        Abandoned(was, sources, i, Undone(dir.files, rec));
        assert (done + [rec])[..|done|] == done;
        Undo(dir, done + [rec]);
        return false, done;
      }
      done := done + [rec];
    }
    assert sources[..|sources|] == sources && faults[..|sources|] == faults;
    ok := true;
  }

  /** Everything a map load would ask of the stems, asked of art/ as it now is. */
  method LookupAll(dir: ArtDir, stems: set<Text>, resolves: (Files, Text) -> bool) returns (ok: bool)
    ensures ok <==> forall stem :: stem in stems ==> resolves(dir.files, stem)
  {
    var todo := stems;
    while todo != {}
      invariant todo <= stems && forall stem :: stem in stems - todo ==> resolves(dir.files, stem)
      decreases todo
    {
      var stem :| stem in todo;
      if !resolves(dir.files, stem) { return false; }
      todo := todo - {stem};
    }
    ok := true;
  }

  method RemoveBackups(dir: ArtDir, done: seq<Installed>)
    modifies dir
    ensures dir.files == old(dir.files) - Backups(done)
  {
    for i := 0 to |done|
      invariant dir.files == old(dir.files) - Backups(done[..i])
    {
      assert done[..i + 1] == done[..i] + [done[i]];
      assert Backups(done[..i + 1]) == Backups(done[..i]) + (if done[i].backup then {Backup(done[i].dest)} else {});
      if done[i].backup {
        dir.Remove(Backup(done[i].dest));
      }
    }
    assert done[..|done|] == done;
  }

  /** runArtInstall, with a fault injected at any step of any install and any answer
      from the lookups. It succeeds exactly when the sources are admitted, no step
      fails and every stem resolves in art/ as they leave it; then art/ is overridden by
      every source, and otherwise it is as it began. That is exact when no working file
      was left over from before; a left-over one may be gone, and none is ever added. */
  method Run(dir: ArtDir, sources: seq<Source>, force: bool, faults: seq<Fault>, resolves: (Files, Text) -> bool) returns (ok: bool)
    requires |faults| == |sources|
    modifies dir
    ensures ok <==> Admitted(old(dir.files), sources, force) && Unharmed(old(dir.files), sources, faults)
                    && forall s :: s in sources ==> resolves(LandedAll(old(dir.files), sources), Stem(s.name))
    ensures !ok ==> Most(dir.files, old(dir.files), WorkNames(Names(sources)))
    ensures ok ==> Most(dir.files, Overridden(old(dir.files), sources), WorkNames(Names(sources)))
    ensures WorkNames(Names(sources)) !! old(dir.files).Keys ==>
              dir.files == if ok then Overridden(old(dir.files), sources) else old(dir.files)
  {
    hide WorkNames, Most, LandedAll, Overridden, Stem;
    ghost var was, gone := dir.files, WorkNames(Names(sources));
    MostOfItself(was, gone);
    var admitted, stems := Preflight(dir, sources, force);
    if !admitted { return false; }
    NamesNotWork(was, sources);
    var copied, done := CopyAll(dir, sources, faults);
    if copied {
      LandedOverrides(was, sources);
      ghost var none: set<Text> := {};
      MostOfItself(dir.files, none);
      UndoesAll(dir.files, was, sources, none);
      assert none + gone == gone;
      var found := LookupAll(dir, stems, resolves);
      if found {
        RemoveBackups(dir, done);
        if gone !! was.Keys { MostIsAll(dir.files, Overridden(was, sources), gone); }
        return true;
      }
      Undo(dir, done);
    }
    if gone !! was.Keys { MostIsAll(dir.files, was, gone); }
    ok := false;
  }

  lemma {:induction false} MostOfItself(f: Files, gone: set<Text>)
    ensures Most(f, f, gone)
  {
  }

  /** No name an admitted batch installs is one it works through. */
  lemma {:induction false} NamesNotWork(was: Files, sources: seq<Source>)
    requires ArtNames(sources)
    ensures WorkNames(Names(sources)) !! was.Keys ==> WorkNames(Names(sources)) !! Overridden(was, sources).Keys
  {
    OverriddenKeys(was, sources);
    forall n | n in Names(sources) ensures n !in WorkNames(Names(sources)) {
      var s :| s in sources && s.name == n;
      forall m | m in Names(sources) ensures n != Backup(m) && n != Working(m) { WorkApart(m, m); }
    }
  }
}
