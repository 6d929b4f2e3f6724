/** Taking one binary out of a release archive (src/binswap.rs:257-422, 505-531). */
module Unpack {
  import opened Wrappers
  import opened ByteStrings
  import opened Numbers
  import opened Paths
  import opened BinSwap

  const MAX_UNPACK_BYTES: nat := 512 * 1024 * 1024

  datatype Format = Tgz | Zip

  datatype Kind = Regular | Symlink | HardLink | OtherKind

  /** `declared` is the size its header gives; reading it yields `content`, then an error if `broken`. */
  datatype ArchiveEntry = Corrupt | Entry(path: string, kind: Kind, declared: nat, content: Bytes, broken: bool)

  datatype UnpackError = ArchiveError | PathTraversal | DecompressionBomb | BinaryNotFound | UnpackIo

  // ---- Paths -----------------------------------------------------------------------------

  /** Relative, and without a parent step anywhere. */
  predicate SafePath(path: string) {
    !("/" <= path) && forall i | 0 <= i < |Segments(path)| :: Segments(path)[i] != ".."
  }

  /** An accepted entry path stays inside any directory it is unpacked in, and ends at its file name. */
  lemma {:induction false} SafePathStaysInside(dir: seq<string>, path: string)
    requires SafePath(path)
    ensures dir <= Walk(dir, Segments(path))
    ensures FileName(path) == LastStep(dir, Walk(dir, Segments(path)))
  {
    WalkStaysInside(dir, Segments(path));
  }

  // ---- Which entry is taken --------------------------------------------------------------

  predicate IsLink(e: ArchiveEntry)
    requires e.Entry?
  {
    e.kind == Symlink || e.kind == HardLink
  }

  predicate Admitted(fmt: Format, e: ArchiveEntry) {
    e.Entry? && SafePath(e.path) && (fmt == Tgz ==> !IsLink(e))
  }

  function Declared(entries: seq<ArchiveEntry>): nat {
    if entries == [] then 0
    else
      var e := entries[|entries| - 1];
      Declared(entries[..|entries| - 1]) + if e.Entry? then e.declared else 0
  }

  predicate IsMatch(e: ArchiveEntry, name: string) {
    e.Entry? && FileName(e.path) == Some(name) && e.kind == Regular
  }

  /** The first `k` entries are read and passed over. */
  predicate PassedOver(fmt: Format, entries: seq<ArchiveEntry>, name: string, cap: nat, k: nat)
    requires k <= |entries|
  {
    && (forall j | 0 <= j < k :: Admitted(fmt, entries[j]) && !IsMatch(entries[j], name))
    && Declared(entries[..k]) <= cap
  }

  /** Entry `k` decides, or there is none left: the one place where the search ends. */
  predicate Decides(fmt: Format, entries: seq<ArchiveEntry>, name: string, cap: nat, k: nat) {
    && k <= |entries| && PassedOver(fmt, entries, name, cap, k)
    && (k < |entries| ==> !PassedOver(fmt, entries, name, cap, k + 1))
  }

  /** The first match is entry `k`, and all up to it is admitted and fits the cap. */
  predicate Selects(fmt: Format, entries: seq<ArchiveEntry>, name: string, cap: nat, k: nat) {
    && k < |entries| && PassedOver(fmt, entries, name, cap, k)
    && Admitted(fmt, entries[k]) && IsMatch(entries[k], name) && Declared(entries[..k + 1]) <= cap
  }

  lemma {:induction false} DeclaredGrows(entries: seq<ArchiveEntry>, i: nat, j: nat)
    requires i <= j <= |entries|
    ensures Declared(entries[..i]) <= Declared(entries[..j])
    decreases j
  {
    if i < j {
      assert entries[..j][..j - 1] == entries[..j - 1];
      DeclaredGrows(entries, i, j - 1);
    }
  }

  /** The search has one outcome. */
  lemma {:induction false} DecidesOnce(fmt: Format, entries: seq<ArchiveEntry>, name: string, cap: nat, i: nat, j: nat)
    requires Decides(fmt, entries, name, cap, i) && Decides(fmt, entries, name, cap, j)
    ensures i == j
  {
    if i < j {
      DeclaredGrows(entries, i + 1, j);
      assert false;
    }
    if j < i {
      DeclaredGrows(entries, j + 1, i);
      assert false;
    }
  }

  lemma {:induction false} SelectedDecides(fmt: Format, entries: seq<ArchiveEntry>, name: string, cap: nat, k: nat)
    requires Selects(fmt, entries, name, cap, k)
    ensures Decides(fmt, entries, name, cap, k)
  {}

  /** A readable entry with a relative path free of parent steps, and in a tar archive no link. */
  predicate Clear(fmt: Format, e: ArchiveEntry) {
    && e.Entry? && !("/" <= e.path) && ".." !in Segments(e.path)
    && (fmt == Tgz ==> e.kind != Symlink && e.kind != HardLink)
  }

  lemma {:induction false} ClearIff(fmt: Format, e: ArchiveEntry)
    ensures Admitted(fmt, e) <==> Clear(fmt, e)
  {}

  /** A regular file of this name. */
  predicate Sought(e: ArchiveEntry, name: string) {
    e.Entry? && e.kind == Regular && FileName(e.path) == Some(name)
  }

  /** What is selected: all up to it is clear, it is the first one sought, and the sizes declared up to it fit the cap. */
  lemma {:induction false} SelectsIff(fmt: Format, entries: seq<ArchiveEntry>, name: string, cap: nat, k: nat)
    requires k < |entries|
    ensures Selects(fmt, entries, name, cap, k) <==>
              && (forall j | 0 <= j <= k :: Clear(fmt, entries[j]))
              && (forall j | 0 <= j < k :: !Sought(entries[j], name)) && Sought(entries[k], name)
              && Declared(entries[..k + 1]) <= cap
  {
    forall j | 0 <= j <= k ensures Admitted(fmt, entries[j]) <==> Clear(fmt, entries[j]) { ClearIff(fmt, entries[j]); }
    DeclaredGrows(entries, k, k + 1);
  }

  /** At most one entry is ever selected. */
  lemma {:induction false} SelectsOnce(fmt: Format, entries: seq<ArchiveEntry>, name: string, cap: nat, i: nat, j: nat)
    requires Selects(fmt, entries, name, cap, i) && Selects(fmt, entries, name, cap, j)
    ensures i == j
  {
    SelectedDecides(fmt, entries, name, cap, i);
    SelectedDecides(fmt, entries, name, cap, j);
    DecidesOnce(fmt, entries, name, cap, i, j);
  }

  /** A name that selects an entry is one segment: joined to a directory it leads to an entry of that directory. */
  lemma {:induction false} SelectedNameIsOneLevel(fmt: Format, entries: seq<ArchiveEntry>, name: string, cap: nat, k: nat)
    requires Selects(fmt, entries, name, cap, k)
    ensures forall dir :: Enter(dir, name) == dir + [name]
  {
    var path := entries[k].path;
    SegmentsHaveNoSlash(path);
    LastNormalIsSegment(Segments(path));
    forall dir ensures Enter(dir, name) == dir + [name] {
      OneLevelIff(dir, name);
    }
  }

  lemma {:induction false} LastNormalIsSegment(segs: seq<string>)
    ensures LastNormal(segs).Some? ==> LastNormal(segs).value in segs && IsNormal(LastNormal(segs).value)
  {
    if segs != [] && !IsNormal(segs[|segs| - 1]) && segs[|segs| - 1] != ".." {
      LastNormalIsSegment(segs[..|segs| - 1]);
    }
  }

  /** What follows the selected entry is never looked at, however unsafe or large. */
  lemma {:induction false} LaterEntriesDoNotMatter(fmt: Format, entries: seq<ArchiveEntry>, more: seq<ArchiveEntry>,
                                                   name: string, cap: nat, k: nat)
    requires k < |entries|
    ensures Selects(fmt, entries + more, name, cap, k) <==> Selects(fmt, entries, name, cap, k)
  {
    assert (entries + more)[..k] == entries[..k];
    assert (entries + more)[..k + 1] == entries[..k + 1];
  }

  // ---- The loop ----------------------------------------------------------------------------

  /** Only `dest` may differ, and it never holds more than one byte above the cap. */
  ghost predicate OnlyDest(before: Tree, dest: string, cap: nat, s: Tree) {
    && (dest in s && s != before ==> |s[dest]| <= cap + 1)
    && s - {dest} == before - {dest}
  }

  /** What is read of an entry: at most one byte more than the cap. */
  function Taken(e: ArchiveEntry, cap: nat): Bytes
    requires e.Entry?
  {
    if |e.content| <= cap + 1 then e.content else e.content[..cap + 1]
  }

  lemma {:induction false} PartOnlyDest(before: Tree, dest: string, cap: nat, data: Bytes, n: nat, s: Tree)
    requires n <= |data| <= cap + 1 && s == before[dest := data[..n]]
    ensures OnlyDest(before, dest, cap, s)
  {
    assert s - {dest} == before - {dest};
  }

  /** Creates `dest` and copies into it; `ok` when all that is to be read was read and written. */
  method CopyOut(fs: Filesystem, e: ArchiveEntry, dest: string, cap: nat) returns (ok: bool)
    requires e.Entry? && cap < U64_MAX
    modifies fs`tick, fs`files, fs`seen
    ensures ok ==> fs.files == old(fs.files)[dest := Taken(e, cap)] && (e.broken ==> |e.content| > cap)
    ensures fs.Clean(old(fs.tick), fs.tick) ==> (ok <==> (e.broken ==> |e.content| > cap))
    ensures fs.tick > old(fs.tick)
    ensures |fs.seen| >= |old(fs.seen)| && fs.seen[..|old(fs.seen)|] == old(fs.seen)
    ensures OnlyDest(old(fs.files), dest, cap, fs.files)
    ensures forall k | |old(fs.seen)| <= k < |fs.seen| :: OnlyDest(old(fs.files), dest, cap, fs.seen[k])
  {
    ghost var before, from := fs.files, |fs.seen|;
    var data := Taken(e, cap);
    ok := fs.Change(fs.files[dest := []]);
    if !ok {
      return;
    }
    PartOnlyDest(before, dest, cap, data, 0, fs.files);
    ghost var created, done := fs.files, 0;
    ok, done := fs.WriteAll(dest, data);
    forall k | from < k < |fs.seen| ensures OnlyDest(before, dest, cap, fs.seen[k]) {
      var m: nat :| m <= |data| && fs.seen[k] == created[dest := data[..m]];
      PartOnlyDest(before, dest, cap, data, m, fs.seen[k]);
    }
    PartOnlyDest(before, dest, cap, data, done, fs.files);
    assert ok ==> data[..done] == data;
    ok := ok && !(e.broken && |data| <= cap);
  }

  /** Copies one entry out, at most one byte more than the cap, and takes back what is over the cap. */
  method ExtractTo(fs: Filesystem, e: ArchiveEntry, dest: string, cap: nat) returns (r: Result<(), UnpackError>)
    requires e.Entry? && cap < U64_MAX
    modifies fs`tick, fs`files, fs`seen
    ensures r.Ok? ==> |e.content| <= cap && !e.broken && fs.files == old(fs.files)[dest := e.content]
    ensures r == Err(DecompressionBomb) ==> |e.content| > cap
    ensures r.Err? ==> r.error == DecompressionBomb || r.error == UnpackIo
    ensures fs.Clean(old(fs.tick), fs.tick) ==>
              r == if |e.content| > cap then Err(DecompressionBomb) else if e.broken then Err(UnpackIo) else Ok(())
    ensures fs.Clean(old(fs.tick), fs.tick) && |e.content| > cap ==> fs.files == old(fs.files) - {dest}
    ensures fs.tick > old(fs.tick)
    ensures |fs.seen| >= |old(fs.seen)| && fs.seen[..|old(fs.seen)|] == old(fs.seen)
    ensures OnlyDest(old(fs.files), dest, cap, fs.files)
    ensures forall k | |old(fs.seen)| <= k < |fs.seen| :: OnlyDest(old(fs.files), dest, cap, fs.seen[k])
  {
    var ok := CopyOut(fs, e, dest, cap);
    if !ok {
      return Err(UnpackIo);
    }
    if |Taken(e, cap)| > cap {
      assert fs.files - {dest} == old(fs.files) - {dest};
      var gone := fs.Change(fs.files - {dest});
      return Err(DecompressionBomb);
    }
    ok := fs.Step();
    r := if ok then Ok(()) else Err(UnpackIo);
  }

  /** What a search that ends at entry `k` answers when nothing fails. */
  predicate Answers(fmt: Format, entries: seq<ArchiveEntry>, name: string, cap: nat, k: nat,
                    r: Result<string, UnpackError>, dest: string)
    requires k <= |entries|
  {
    if k == |entries| then r == Err(BinaryNotFound)
    else if entries[k].Corrupt? then r == Err(ArchiveError)
    else if !Admitted(fmt, entries[k]) then r == Err(PathTraversal)
    else if Declared(entries[..k + 1]) > cap || |entries[k].content| > cap then r == Err(DecompressionBomb)
    else if entries[k].broken then r == Err(UnpackIo)
    else r == Ok(dest)
  }

  lemma {:induction false} DeclaredNext(entries: seq<ArchiveEntry>, k: nat)
    requires k < |entries|
    ensures Declared(entries[..k + 1]) == Declared(entries[..k]) + if entries[k].Entry? then entries[k].declared else 0
  {
    assert entries[..k + 1][..k] == entries[..k];
  }

  lemma {:induction false} PassedOne(fmt: Format, entries: seq<ArchiveEntry>, name: string, cap: nat, k: nat)
    requires k < |entries| && PassedOver(fmt, entries, name, cap, k)
    requires Admitted(fmt, entries[k]) && !IsMatch(entries[k], name) && Declared(entries[..k + 1]) <= cap
    ensures PassedOver(fmt, entries, name, cap, k + 1)
  {}

  /** The entry loop: the first match of an archive whose entries up to it are safe and within the cap. */
  method UnpackEntries(fs: Filesystem, fmt: Format, entries: seq<ArchiveEntry>, name: string, dest: string, cap: nat)
    returns (r: Result<string, UnpackError>, ghost k: nat)
    requires cap < U64_MAX
    requires forall e | e in entries && e.Entry? :: e.declared <= U64_MAX
    modifies fs`tick, fs`files, fs`seen
    ensures Decides(fmt, entries, name, cap, k)
    ensures r.Ok? ==> Selects(fmt, entries, name, cap, k) && r == Ok(dest)
    ensures r.Ok? ==> fs.files == old(fs.files)[dest := entries[k].content] && |entries[k].content| <= cap
    ensures !Selects(fmt, entries, name, cap, k) ==> fs.files == old(fs.files) && fs.seen == old(fs.seen)
    ensures fs.tick >= old(fs.tick) && (fs.Clean(old(fs.tick), fs.tick) ==> Answers(fmt, entries, name, cap, k, r, dest))
    ensures |fs.seen| >= |old(fs.seen)| && fs.seen[..|old(fs.seen)|] == old(fs.seen)
    ensures OnlyDest(old(fs.files), dest, cap, fs.files)
    ensures forall i | |old(fs.seen)| <= i < |fs.seen| :: OnlyDest(old(fs.files), dest, cap, fs.seen[i])
  {
    var totalSize: nat := 0;
    k := 0;
    assert entries[..0] == [];
    for i := 0 to |entries|
      invariant k == i && PassedOver(fmt, entries, name, cap, i)
      invariant totalSize == Declared(entries[..i])
      invariant fs.files == old(fs.files) && fs.seen == old(fs.seen) && fs.tick >= old(fs.tick)
      invariant fs.tick == old(fs.tick)
    {
      DeclaredNext(entries, i);
      var e := entries[i];
      if e.Corrupt? {
        return Err(ArchiveError), i;
      }
      if !SafePath(e.path) || (fmt == Tgz && IsLink(e)) {
        return Err(PathTraversal), i;
      }
      assert e in entries;
      if totalSize + e.declared > U64_MAX {
        return Err(DecompressionBomb), i;
      }
      totalSize := totalSize + e.declared;
      if totalSize > cap {
        return Err(DecompressionBomb), i;
      }
      if FileName(e.path) == Some(name) && e.kind == Regular {
        var got := ExtractTo(fs, e, dest, cap);
        return (if got.Ok? then Ok(dest) else Err(got.error)), i;
      }
      PassedOne(fmt, entries, name, cap, i);
      k := i + 1;
    }
    r := Err(BinaryNotFound);
  }

  /** An archive file as each reader sees it; `None` where it does not open. */
  datatype ArchiveFile = ArchiveFile(name: string, asTgz: Option<seq<ArchiveEntry>>, asZip: Option<seq<ArchiveEntry>>)

  predicate EndsWith(s: string, suffix: string) {
    |suffix| <= |s| && s[|s| - |suffix|..] == suffix
  }

  function FormatOf(name: string): Option<Format> {
    if EndsWith(name, ".tgz") || EndsWith(name, ".tar.gz") then Some(Tgz)
    else if EndsWith(name, ".zip") then Some(Zip)
    else None
  }

  /** Three suffixes are supported. */
  lemma {:induction false} FormatIff(name: string)
    ensures FormatOf(name) == Some(Tgz) <==> exists stem :: name == stem + ".tgz" || name == stem + ".tar.gz"
    ensures FormatOf(name) == Some(Zip) <==> exists stem :: name == stem + ".zip"
  {
    EndsWithIff(name, ".tgz");
    EndsWithIff(name, ".tar.gz");
    EndsWithIff(name, ".zip");
    if EndsWith(name, ".zip") && (EndsWith(name, ".tgz") || EndsWith(name, ".tar.gz")) {
      LastOfSuffix(name, ".zip");
      if EndsWith(name, ".tgz") { LastOfSuffix(name, ".tgz"); } else { LastOfSuffix(name, ".tar.gz"); }
      assert false;
    }
  }

  lemma {:induction false} LastOfSuffix(s: string, suffix: string)
    requires EndsWith(s, suffix) && suffix != ""
    ensures s != "" && s[|s| - 1] == suffix[|suffix| - 1]
  {}

  lemma {:induction false} EndsWithIff(s: string, suffix: string)
    ensures EndsWith(s, suffix) <==> exists stem :: s == stem + suffix
  {
    if EndsWith(s, suffix) {
      assert s == s[..|s| - |suffix|] + suffix;
    }
  }

  /** The entries, read in the format that the name announces. */
  function EntriesOf(archive: ArchiveFile): Option<seq<ArchiveEntry>> {
    match FormatOf(archive.name)
    case Some(Tgz) => archive.asTgz
    case Some(Zip) => archive.asZip
    case None => None
  }

  method UnpackReleaseBinary(fs: Filesystem, archive: ArchiveFile, name: string, destDir: string)
    returns (r: Result<string, UnpackError>)
    requires EntriesOf(archive).Some? ==> forall e | e in EntriesOf(archive).value && e.Entry? :: e.declared <= U64_MAX
    modifies fs`tick, fs`files, fs`seen
    ensures fs.tick >= old(fs.tick)
    ensures r.Ok? ==> r.value == Join(destDir, name)
    ensures r.Ok? ==> forall dir :: Enter(dir, name) == dir + [name]
    ensures EntriesOf(archive).None? ==> r.Err? && fs.files == old(fs.files)
    ensures EntriesOf(archive).Some? && r.Ok? ==>
              exists k: nat :: Selects(FormatOf(archive.name).value, EntriesOf(archive).value, name, MAX_UNPACK_BYTES, k)
                          && fs.files == old(fs.files)[r.value := EntriesOf(archive).value[k].content]
    ensures EntriesOf(archive).Some? && fs.Clean(old(fs.tick), fs.tick) ==>
              exists k: nat :: Decides(FormatOf(archive.name).value, EntriesOf(archive).value, name, MAX_UNPACK_BYTES, k)
                          && Answers(FormatOf(archive.name).value, EntriesOf(archive).value, name, MAX_UNPACK_BYTES, k, r,
                                     Join(destDir, name))
    ensures OnlyDest(old(fs.files), Join(destDir, name), MAX_UNPACK_BYTES, fs.files)
  {
    var fmt := FormatOf(archive.name);
    if fmt.None? {
      return Err(ArchiveError);
    }
    var ok := fs.Step();
    if !ok {
      return Err(UnpackIo);
    }
    var entries := if fmt.value == Tgz then archive.asTgz else archive.asZip;
    if entries.None? {
      return Err(ArchiveError);
    }
    ghost var k := 0;
    r, k := UnpackEntries(fs, fmt.value, entries.value, name, Join(destDir, name), MAX_UNPACK_BYTES);
    if r.Ok? { SelectedNameIsOneLevel(fmt.value, entries.value, name, MAX_UNPACK_BYTES, k); }
  }
}
