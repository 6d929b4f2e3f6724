/** Swapping an installed binary with a rollback copy, crash point by crash point (src/binswap.rs:163-234, 480-600). */
module BinSwap {
  import opened Wrappers
  import opened ByteStrings
  import opened Digest

  /** The regular files, by path. */
  type Tree = map<string, Bytes>

  datatype SwapError = Io | DigestMismatch | TargetNotFound

  const PREV_SUFFIX := ".prev"

  function PrevPath(target: string): string {
    target + PREV_SUFFIX
  }

  // ---- The expected digest ---------------------------------------------------------------

  /** The characters of Unicode's White_Space property. */
  predicate IsSpace(c: char) {
    || '\U{9}' <= c <= '\U{D}' || c == ' ' || c == '\U{85}' || c == '\U{A0}' || c == '\U{1680}'
    || '\U{2000}' <= c <= '\U{200A}' || c == '\U{2028}' || c == '\U{2029}' || c == '\U{202F}' || c == '\U{205F}'
    || c == '\U{3000}'
  }

  predicate Blank(s: string) {
    forall i | 0 <= i < |s| :: IsSpace(s[i])
  }

  function TrimStart(s: string): string {
    if s != [] && IsSpace(s[0]) then TrimStart(s[1..]) else s
  }

  function TrimEnd(s: string): string {
    if s != [] && IsSpace(s[|s| - 1]) then TrimEnd(s[..|s| - 1]) else s
  }

  function StripPrefix(s: string, prefix: string): string {
    if prefix <= s then s[|prefix|..] else s
  }

  function ExpectedHex(expected: string): string {
    ToLower(StripPrefix(TrimEnd(TrimStart(expected)), DIGEST_PREFIX))
  }

  /** `expected` is `h` between spaces, with or without the prefix. */
  predicate SpelledWith(expected: string, pre: string, h: string, post: string) {
    expected == pre + h + post || expected == pre + (DIGEST_PREFIX + h) + post
  }

  /** How a digest may be written down: spaces around it, an optional prefix, either letter case. */
  ghost predicate Spells(expected: string, hex: string) {
    exists pre, post, h ::
      Blank(pre) && Blank(post) && ToLower(h) == hex && SpelledWith(expected, pre, h, post)
  }

  lemma {:induction false} TrimStartBlank(pre: string, s: string)
    requires Blank(pre) && (s == [] || !IsSpace(s[0]))
    ensures TrimStart(pre + s) == s
  {
    if pre == [] {
      assert pre + s == s;
    } else {
      assert IsSpace(pre[0]) && (pre + s)[1..] == pre[1..] + s;
      TrimStartBlank(pre[1..], s);
    }
  }

  lemma {:induction false} TrimEndBlank(s: string, post: string)
    requires Blank(post) && (s == [] || !IsSpace(s[|s| - 1]))
    ensures TrimEnd(s + post) == s
  {
    if post == [] {
      assert s + post == s;
    } else {
      var n := |s + post| - 1;
      assert IsSpace((s + post)[n]) && (s + post)[..n] == s + post[..|post| - 1];
      TrimEndBlank(s, post[..|post| - 1]);
    }
  }

  lemma {:induction false} TrimStartSplits(s: string) returns (pre: string)
    ensures Blank(pre) && s == pre + TrimStart(s)
  {
    pre := [];
    if s != [] && IsSpace(s[0]) {
      var rest := TrimStartSplits(s[1..]);
      pre := [s[0]] + rest;
      assert s == [s[0]] + s[1..];
    }
  }

  lemma {:induction false} TrimEndSplits(s: string) returns (post: string)
    ensures Blank(post) && s == TrimEnd(s) + post
  {
    post := [];
    if s != [] && IsSpace(s[|s| - 1]) {
      var n := |s| - 1;
      var rest := TrimEndSplits(s[..n]);
      post := rest + [s[n]];
      assert s == s[..n] + [s[n]];
    }
  }

  lemma {:induction false} LowerHexHasNoSpace(h: string)
    requires IsLowerHex64(ToLower(h))
    ensures |h| == 64 && forall i | 0 <= i < 64 :: !IsSpace(h[i]) && h[i] != 's' && h[i] != ':'
  {
    forall i | 0 <= i < |h| ensures !IsSpace(h[i]) && h[i] != 's' && h[i] != ':' {
      assert IsLowerHexDigit(ToLower(h)[i]);
    }
  }

  lemma {:induction false} TrimBoth(pre: string, s: string, post: string)
    requires Blank(pre) && Blank(post) && s != [] && !IsSpace(s[0]) && !IsSpace(s[|s| - 1])
    ensures TrimEnd(TrimStart((pre + s) + post)) == s
  {
    assert (pre + s) + post == pre + (s + post);
    TrimStartBlank(pre, s + post);
    TrimEndBlank(s, post);
  }

  lemma {:induction false} MatchingIsSpelled(expected: string, hex: string)
    requires ExpectedHex(expected) == hex
    ensures Spells(expected, hex)
  {
    var pre := TrimStartSplits(expected);
    var post := TrimEndSplits(TrimStart(expected));
    var core := TrimEnd(TrimStart(expected));
    var h := StripPrefix(core, DIGEST_PREFIX);
    assert core == h || core == DIGEST_PREFIX + h;
    assert expected == pre + core + post;
    assert SpelledWith(expected, pre, h, post);
  }

  lemma {:induction false} PlainMatches(pre: string, h: string, post: string)
    requires Blank(pre) && Blank(post) && IsLowerHex64(ToLower(h))
    ensures ExpectedHex(pre + h + post) == ToLower(h)
  {
    LowerHexHasNoSpace(h);
    TrimBoth(pre, h, post);
    assert DIGEST_PREFIX[0] == 's';
  }

  lemma {:induction false} PrefixedMatches(pre: string, h: string, post: string)
    requires Blank(pre) && Blank(post) && IsLowerHex64(ToLower(h))
    ensures ExpectedHex(pre + (DIGEST_PREFIX + h) + post) == ToLower(h)
  {
    LowerHexHasNoSpace(h);
    var core := DIGEST_PREFIX + h;
    assert core[0] == 's' && core[|core| - 1] == h[63] && core[|DIGEST_PREFIX|..] == h;
    TrimBoth(pre, core, post);
  }

  /** An expected digest matches exactly the hex it spells. */
  lemma {:induction false} ExpectedHexIff(expected: string, hex: string)
    requires IsLowerHex64(hex)
    ensures ExpectedHex(expected) == hex <==> Spells(expected, hex)
  {
    if ExpectedHex(expected) == hex {
      MatchingIsSpelled(expected, hex);
    }
    if Spells(expected, hex) {
      var pre, post, h :| Blank(pre) && Blank(post) && ToLower(h) == hex && SpelledWith(expected, pre, h, post);
      if expected == pre + h + post {
        PlainMatches(pre, h, post);
      } else {
        PrefixedMatches(pre, h, post);
      }
    }
  }

  // ---- What a swap may leave behind --------------------------------------------------------

  /** How far a swap got; `Copying(n)`: the rollback copy holds the first `n` bytes. */
  datatype Progress = Untouched | Copying(count: nat) | Installed

  predicate Possible(before: Tree, target: string, p: Progress) {
    p == Untouched || (target in before && (p.Copying? ==> p.count <= |before[target]|))
  }

  function Reached(before: Tree, target: string, binary: Bytes, p: Progress): Tree
    requires Possible(before, target, p)
  {
    match p
    case Untouched => before
    case Copying(n) => before[PrevPath(target) := before[target][..n]]
    case Installed => before[PrevPath(target) := before[target]][target := binary]
  }

  /** `s` is `base` but for one temporary file that was not there. */
  ghost predicate UpToTemp(base: Tree, s: Tree) {
    s == base || exists name, bytes :: WithTemp(base, name, bytes, s)
  }

  predicate WithTemp(base: Tree, name: string, bytes: Bytes, s: Tree) {
    name !in base && s == base[name := bytes]
  }

  /** The states a crash in the middle of a swap can leave. */
  ghost predicate CrashState(before: Tree, target: string, binary: Bytes, s: Tree) {
    exists p :: Possible(before, target, p) && UpToTemp(Reached(before, target, binary, p), s)
  }

  /** All or nothing at the target; once it is new the rollback copy is the old one; other files stay. */
  lemma {:induction false} CrashStateIsWhole(before: Tree, target: string, binary: Bytes, s: Tree)
    requires target in before && CrashState(before, target, binary, s)
    ensures target in s && (s[target] == before[target] || s[target] == binary)
    ensures s[target] != before[target] ==> PrevPath(target) in s && s[PrevPath(target)] == before[target]
    ensures forall path | path in before && path != target && path != PrevPath(target) ::
              path in s && s[path] == before[path]
  {
    PrevDiffers(target);
  }

  lemma {:induction false} PrevDiffers(target: string)
    ensures PrevPath(target) != target
  {
    assert |PrevPath(target)| == |target| + |PREV_SUFFIX|;
  }

  // ---- The file system, one fallible step at a time ----------------------------------------

  /** `s` is `base` with a prefix of `bytes` at `path`. */
  ghost predicate PartOf(base: Tree, path: string, bytes: Bytes, s: Tree) {
    exists n: nat :: n <= |bytes| && s == base[path := bytes[..n]]
  }

  class Filesystem {
    /** Whether the n-th step fails. */
    const fails: nat -> bool
    /** At most how many bytes the n-th step may copy, less one. */
    const chunk: nat -> nat
    /** The random name drawn for a temporary file. */
    const tempName: Tree -> string
    const sha256: Bytes -> string
    var files: Tree
    var tick: nat
    /** Every tree there has been, the latest last: where a crash can stop. */
    ghost var seen: seq<Tree>

    constructor (files: Tree, fails: nat -> bool, chunk: nat -> nat, tempName: Tree -> string, sha256: Bytes -> string)
      ensures this.files == files && this.fails == fails && tick == 0 && seen == [files]
      ensures this.chunk == chunk && this.tempName == tempName && this.sha256 == sha256
    {
      this.fails, this.chunk, this.tempName, this.sha256 := fails, chunk, tempName, sha256;
      this.files, tick, seen := files, 0, [files];
    }

    ghost predicate NamesAreNew() {
      forall t: Tree :: tempName(t) !in t
    }

    /** SHA-256 comes out as 64 lowercase hex digits. */
    ghost predicate Hexed() {
      forall b: Bytes :: IsLowerHex64(sha256(b))
    }

    predicate Clean(from: nat, to: nat) {
      forall t | from <= t < to :: !fails(t)
    }

    ghost predicate AllCrash(from: nat, before: Tree, target: string, binary: Bytes)
      reads this`seen
    {
      forall k | from <= k < |seen| :: CrashState(before, target, binary, seen[k])
    }

    /** Step `f` is the first to fail. */
    predicate FirstFault(from: nat, f: nat) {
      from <= f && fails(f) && Clean(from, f)
    }

    /** Every step copies one byte. */
    ghost predicate ByteByByte() {
      forall t :: chunk(t) == 0
    }

    /** A step that changes no file: a read, an fsync, a chmod. */
    method Step() returns (ok: bool)
      modifies this`tick
      ensures tick == old(tick) + 1 && ok == !fails(old(tick))
    {
      ok := !fails(tick);
      tick := tick + 1;
    }

    /** One atomic change of the tree. */
    method Change(next: Tree) returns (ok: bool)
      modifies this`tick, this`files, this`seen
      ensures tick == old(tick) + 1 && ok == !fails(old(tick))
      ensures files == (if ok then next else old(files))
      ensures seen == (if ok then old(seen) + [next] else old(seen))
    {
      ok := !fails(tick);
      tick := tick + 1;
      if ok {
        files := next;
        seen := seen + [next];
      }
    }

    /** Writes `bytes` to the file just created at `path`, in pieces of any size. */
    method WriteAll(path: string, bytes: Bytes) returns (ok: bool, ghost done: nat)
      requires path in files && files[path] == []
      modifies this`tick, this`files, this`seen
      ensures done <= |bytes| && files == old(files)[path := bytes[..done]]
      ensures ok ==> done == |bytes|
      ensures tick >= old(tick) && ok == Clean(old(tick), tick)
      ensures !ok ==> tick > old(tick) && FirstFault(old(tick), tick - 1)
      ensures ByteByByte() ==> tick == old(tick) + done + if ok then 0 else 1
      ensures |seen| >= |old(seen)| && seen[..|old(seen)|] == old(seen)
      ensures forall k | |old(seen)| <= k < |seen| :: PartOf(old(files), path, bytes, seen[k])
    {
      done := 0;
      assert files == files[path := bytes[..0]];
      var at := 0;
      while at < |bytes|
        invariant at == done <= |bytes| && files == old(files)[path := bytes[..at]]
        invariant tick >= old(tick) && Clean(old(tick), tick) && (ByteByByte() ==> tick == old(tick) + at)
        invariant |seen| >= |old(seen)| && seen[..|old(seen)|] == old(seen)
        invariant forall k | |old(seen)| <= k < |seen| :: PartOf(old(files), path, bytes, seen[k])
      {
        var n := if at + 1 + chunk(tick) <= |bytes| then 1 + chunk(tick) else |bytes| - at;
        assert files[path] + bytes[at..at + n] == bytes[..at + n];
        ok := Change(files[path := files[path] + bytes[at..at + n]]);
        if !ok {
          return false, at;
        }
        at, done := at + n, at + n;
        assert PartOf(old(files), path, bytes, files);
      }
      ok := true;
    }

    /** Copies the target beside itself; a failure may leave a torn copy. */
    method CopyToPrev(target: string, ghost binary: Bytes) returns (ok: bool, ghost p: Progress)
      requires target in files
      modifies this`tick, this`files, this`seen
      ensures Possible(old(files), target, p) && p != Installed && files == Reached(old(files), target, binary, p)
      ensures ok ==> p == Copying(|old(files)[target]|)
      ensures tick > old(tick) && ok == Clean(old(tick), tick)
      ensures !ok ==> FirstFault(old(tick), tick - 1)
      ensures ByteByByte() && ok ==> tick == old(tick) + 2 + |old(files)[target]|
      ensures ByteByByte() && !ok && tick > old(tick) + 1 ==> p == Copying(tick - old(tick) - 2)
      ensures |seen| >= |old(seen)| && seen[..|old(seen)|] == old(seen)
      ensures AllCrash(|old(seen)|, old(files), target, binary)
    {
      PrevDiffers(target);
      ghost var before := files;
      var prev := PrevPath(target);
      p := Untouched;
      ok := Change(files[prev := []]);
      if !ok {
        return;
      }
      p := Copying(0);
      ghost var created := files;
      assert before[target][..0] == [];
      assert CrashState(before, target, binary, created) by { CopyStates(before, target, binary, before[target], 0); }
      ghost var n, from := 0, |seen|;
      var bytes := files[target];
      ok, n := WriteAll(prev, bytes);
      p := Copying(n);
      forall k | from <= k < |seen| ensures CrashState(before, target, binary, seen[k]) {
        var m: nat :| m <= |bytes| && seen[k] == created[prev := bytes[..m]];
        CopyStates(before, target, binary, bytes, m);
      }
      if ok {
        ok := Step();
      }
    }

    /** Deletes a temporary file if it can. */
    method DropTemp(name: string, ghost base: Tree)
      requires name !in base && name in files && files == base[name := files[name]]
      modifies this`tick, this`files, this`seen
      ensures tick == old(tick) + 1
      ensures files == base || files == old(files)
      ensures seen == old(seen) || seen == old(seen) + [base]
    {
      assert files - {name} == base;
      var gone := Change(files - {name});
    }

    /** Creates the temporary file `name` and fills it. */
    method FillTemp(name: string, binary: Bytes, target: string, ghost before: Tree) returns (ok: bool)
      requires target in before && files == Reached(before, target, binary, Copying(|before[target]|)) && name !in files
      modifies this`tick, this`files, this`seen
      ensures tick > old(tick) && ok == Clean(old(tick), tick)
      ensures files == old(files) || (name in files && files == old(files)[name := files[name]])
      ensures ok ==> files == old(files)[name := binary]
      ensures |seen| >= |old(seen)| && seen[..|old(seen)|] == old(seen)
      ensures AllCrash(|old(seen)|, before, target, binary)
    {
      ghost var base, from := files, |seen|;
      ok := Change(files[name := []]);
      if !ok {
        return;
      }
      TempStates(before, target, binary, base, name, []);
      ghost var n, created := 0, files;
      ok, n := WriteAll(name, binary);
      forall k | from < k < |seen| ensures CrashState(before, target, binary, seen[k]) {
        var m: nat :| m <= |binary| && seen[k] == created[name := binary[..m]];
        TempStates(before, target, binary, base, name, binary[..m]);
      }
      assert files == base[name := binary[..n]];
      assert ok ==> binary[..n] == binary;
    }

    /** Writes and syncs the temporary file `name`; a failure deletes it again if it can. */
    method WriteTemp(name: string, binary: Bytes, target: string, ghost before: Tree) returns (ok: bool)
      requires target in before && files == Reached(before, target, binary, Copying(|before[target]|)) && name !in files
      modifies this`tick, this`files, this`seen
      ensures tick > old(tick) && ok == Clean(old(tick), tick)
      ensures if ok then files == old(files)[name := binary] else UpToTemp(old(files), files)
      ensures |seen| >= |old(seen)| && seen[..|old(seen)|] == old(seen)
      ensures AllCrash(|old(seen)|, before, target, binary)
    {
      ghost var base := files;
      CopiedInFull(before, target, binary);
      ok := FillTemp(name, binary, target, before);
      if ok {
        ok := Step();
      }
      if ok {
        ok := Step();
      }
      if !ok && name in files {
        assert WithTemp(base, name, files[name], files);
        DropTemp(name, base);
      }
    }

    /** Temporary file, fsync, mode, rename over the target, fsync of the directory. */
    method AtomicInstall(binary: Bytes, target: string, ghost before: Tree) returns (ok: bool, ghost p: Progress)
      requires target in before && files == Reached(before, target, binary, Copying(|before[target]|))
      modifies this`tick, this`files, this`seen
      ensures p == Copying(|before[target]|) || p == Installed
      ensures UpToTemp(Reached(before, target, binary, p), files)
      ensures ok == (Clean(old(tick), tick) && tempName(old(files)) !in old(files))
      ensures ok ==> p == Installed
      ensures p == Installed ==> files == Reached(before, target, binary, p) && tick > old(tick)
      ensures p == Installed ==> Clean(old(tick), tick - 1) && ok == !fails(tick - 1)
      ensures |seen| >= |old(seen)| && seen[..|old(seen)|] == old(seen)
      ensures AllCrash(|old(seen)|, before, target, binary)
    {
      p := Copying(|before[target]|);
      var name := tempName(files);
      if name in files {
        // create_new refuses a name that is taken.
        return false, p;
      }
      ghost var base := files;
      ok := WriteTemp(name, binary, target, before);
      if !ok {
        return;
      }
      RenameInstalls(before, target, binary, name);
      ok := Change((files - {name})[target := files[name]]);
      if !ok {
        DropTemp(name, base);
        TempStates(before, target, binary, base, name, binary);
        return;
      }
      p := Installed;
      ok := Step();
    }

    /**
      Puts the binary at `newPath` over `target`, keeping the old one beside it. Nothing is touched before the
      digest is checked; wherever it stops, every tree there was is a crash state; an error with the new binary
      in place can only be the last step, the fsync of the directory.
    */
    method SwapBinary(newPath: string, target: string, expected: Option<string>)
      returns (r: Result<string, SwapError>, ghost p: Progress, ghost binary: Bytes)
      requires Hexed()
      modifies this`tick, this`files, this`seen
      ensures Follows(target, old(files), Attempt(binary, p), files)
      ensures newPath in old(files) ==> binary == old(files)[newPath]
      ensures r.Ok? ==> r.value == PrevPath(target) && newPath in old(files) && p == Installed
                        && (expected.Some? ==> Spells(expected.value, sha256(binary)))
      ensures p == Installed ==> files == Reached(old(files), target, binary, Installed)
      ensures r.Err? && p == Installed ==> tick > old(tick) && Clean(old(tick), tick - 1) && fails(tick - 1)
      ensures r.Err? && r.error != Io ==> files == old(files) && seen == old(seen)
      ensures r.Ok? ==> Clean(old(tick), tick)
      ensures Clean(old(tick), tick) && NamesAreNew() && newPath in old(files) ==>
                r == if expected.Some? && !Spells(expected.value, sha256(binary)) then Err(DigestMismatch)
                     else if target !in old(files) then Err(TargetNotFound)
                     else Ok(PrevPath(target))
      ensures newPath in old(files) && target in old(files) && expected.None? && ByteByByte() ==>
                forall f: nat | FirstFault(old(tick), f) && InCopy(old(tick), f, |old(files)[target]|) ::
                  r == Err(Io) && p == Copying(f - old(tick) - 2) && tick == f + 1
      ensures |seen| >= |old(seen)| && seen[..|old(seen)|] == old(seen)
      ensures AllCrash(|old(seen)|, old(files), target, binary)
    {
      p, binary := Untouched, [];
      var ok := Step();
      if !ok || newPath !in files {
        if newPath in files { binary := files[newPath]; }
        return Err(Io), p, binary;
      }
      var newBytes := files[newPath];
      binary := newBytes;
      if expected.Some? {
        ExpectedHexIff(expected.value, sha256(newBytes));
      }
      if expected.Some? && ExpectedHex(expected.value) != sha256(newBytes) {
        return Err(DigestMismatch), p, binary;
      }
      if target !in files {
        return Err(TargetNotFound), p, binary;
      }
      ghost var before := files;
      ok, p := CopyToPrev(target, binary);
      if !ok {
        return Err(Io), p, binary;
      }
      ok, p := AtomicInstall(newBytes, target, before);
      r := if ok then Ok(PrevPath(target)) else Err(Io);
    }

    /** One rename puts the rollback copy back. */
    method RestorePrev(target: string) returns (r: Result<(), SwapError>)
      modifies this`tick, this`files, this`seen
      ensures r == Err(TargetNotFound) <==> PrevPath(target) !in old(files)
      ensures r.Ok? ==> files == Restored(old(files), target) && seen == old(seen) + [files]
      ensures r.Ok? ==> files == (old(files) - {PrevPath(target)})[target := old(files)[PrevPath(target)]]
      ensures r.Err? ==> files == old(files) && seen == old(seen)
      ensures PrevPath(target) in old(files) ==> r.Ok? == !fails(old(tick))
    {
      var prev := PrevPath(target);
      if prev !in files {
        return Err(TargetNotFound);
      }
      var ok := Change((files - {prev})[target := files[prev]]);
      r := if ok then Ok(()) else Err(Io);
    }
  }

  /** The tree with the rollback copy moved over the target, when there is one. */
  function Restored(s: Tree, target: string): Tree {
    if PrevPath(target) in s then (s - {PrevPath(target)})[target := s[PrevPath(target)]] else s
  }

  // ---- Runs of swaps --------------------------------------------------------------------------

  /** A swap that was tried, with the binary it had and how far it got. */
  datatype Attempt = Attempt(binary: Bytes, progress: Progress)

  /** `trees[k]` is the tree before the k-th attempt; temporary files left behind may come and go. */
  ghost predicate IsRun(target: string, trees: seq<Tree>, attempts: seq<Attempt>) {
    && |trees| == |attempts| + 1
    && target in trees[0]
    && forall k | 0 <= k < |attempts| :: Follows(target, trees[k], attempts[k], trees[k + 1])
  }

  ghost predicate Follows(target: string, s: Tree, a: Attempt, s': Tree) {
    Possible(s, target, a.progress) && UpToTemp(Reached(s, target, a.binary, a.progress), s')
  }

  /** The versions installed so far, the first one included. */
  function Versions(first: Bytes, attempts: seq<Attempt>): (vs: seq<Bytes>)
    ensures |vs| >= 1
  {
    if attempts == [] then [first]
    else
      var n := |attempts| - 1;
      var vs := Versions(first, attempts[..n]);
      if attempts[n].progress == Installed then vs + [attempts[n].binary] else vs
  }

  /** Whatever failed on the way, the target holds the last version that was installed. */
  lemma {:induction false} RunHoldsLatest(target: string, trees: seq<Tree>, attempts: seq<Attempt>)
    requires IsRun(target, trees, attempts)
    ensures var vs, last := Versions(trees[0][target], attempts), trees[|attempts|];
      target in last && last[target] == vs[|vs| - 1]
  {
    PrevDiffers(target);
    if attempts != [] {
      var n := |attempts| - 1;
      RunHoldsLatest(target, trees[..n + 1], attempts[..n]);
      assert Follows(target, trees[n], attempts[n], trees[n + 1]);
    }
  }

  /** After a run whose last swap succeeded, restoring gives the version before it. */
  lemma {:induction false} RestoreUndoesSwap(target: string, trees: seq<Tree>, attempts: seq<Attempt>)
    requires IsRun(target, trees, attempts) && attempts != []
    requires attempts[|attempts| - 1].progress == Installed
    ensures var vs, last := Versions(trees[0][target], attempts), trees[|attempts|];
      && |vs| >= 2 && PrevPath(target) in last && Restored(last, target)[target] == vs[|vs| - 2]
  {
    PrevDiffers(target);
    var n := |attempts| - 1;
    RunHoldsLatest(target, trees[..n + 1], attempts[..n]);
    assert Follows(target, trees[n], attempts[n], trees[n + 1]);
  }

  /** Step `f` of a swap begun at tick `start` copies a byte, or syncs the copy, of a target of `size` bytes. */
  predicate InCopy(start: nat, f: nat, size: nat) {
    start + 2 <= f <= start + 2 + size
  }

  /**
    A swap that failed while copying has already overwritten the earlier rollback copy. Restoring then gives the
    running version exactly when the two files have the same size, which can be seen beforehand.
  */
  lemma {:induction false} RestoreAfterFailedCopyIff(target: string, before: Tree, binary: Bytes, n: nat, s: Tree)
    requires Possible(before, target, Copying(n)) && UpToTemp(Reached(before, target, binary, Copying(n)), s)
    ensures PrevPath(target) in s && target in s && s[target] == before[target]
    ensures Restored(s, target)[target] == s[target] <==> |s[PrevPath(target)]| == |s[target]|
  {
    PrevDiffers(target);
    assert before[target][..|before[target]|] == before[target];
  }

  /** A swap that fails on the second byte of its copy, then a restore: the target is left with one byte of two. */
  method TornRollback(sha256: Bytes -> string) returns (fs: Filesystem)
    requires forall b: Bytes :: IsLowerHex64(sha256(b))
    ensures "app" in fs.files && fs.files["app"] == [1]
    ensures fresh(fs) && fs.seen != [] && "app" in fs.seen[0] && fs.seen[0]["app"] == [1, 2]
  {
    var start: Tree := map["app" := [1, 2], "new" := [3]];
    fs := new Filesystem(start, (t: nat) => t == 3, (t: nat) => 0, (t: Tree) => "tmp", sha256);
    assert fs.FirstFault(0, 3) && InCopy(0, 3, 2);
    var swapped, p, binary := fs.SwapBinary("new", "app", None);
    assert p == Copying(1);
    TornIsRestored("app", start, binary, 1, fs.files);
    var restored := fs.RestorePrev("app");
  }

  lemma {:induction false} TornIsRestored(target: string, before: Tree, binary: Bytes, n: nat, s: Tree)
    requires Possible(before, target, Copying(n)) && UpToTemp(Reached(before, target, binary, Copying(n)), s)
    ensures PrevPath(target) in s && target in Restored(s, target)
    ensures Restored(s, target)[target] == before[target][..n]
  {
    PrevDiffers(target);
  }

  lemma {:induction false} CopiedInFull(before: Tree, target: string, binary: Bytes)
    requires target in before
    ensures Reached(before, target, binary, Copying(|before[target]|)) == before[PrevPath(target) := before[target]]
    ensures CrashState(before, target, binary, before[PrevPath(target) := before[target]])
  {
    assert before[target][..|before[target]|] == before[target];
    CopyStates(before, target, binary, before[target], |before[target]|);
  }

  lemma {:induction false} TempStates(before: Tree, target: string, binary: Bytes, base: Tree, name: string, bytes: Bytes)
    requires target in before && base == Reached(before, target, binary, Copying(|before[target]|)) && name !in base
    ensures UpToTemp(base, base[name := bytes])
    ensures CrashState(before, target, binary, base[name := bytes])
    ensures base[name := []][name := bytes] == base[name := bytes]
  {
    assert WithTemp(base, name, bytes, base[name := bytes]);
    assert Possible(before, target, Copying(|before[target]|));
  }

  lemma {:induction false} RenameInstalls(before: Tree, target: string, binary: Bytes, name: string)
    requires target in before && name !in Reached(before, target, binary, Copying(|before[target]|))
    ensures var base := Reached(before, target, binary, Copying(|before[target]|));
      (base[name := binary] - {name})[target := binary] == Reached(before, target, binary, Installed)
    ensures CrashState(before, target, binary, Reached(before, target, binary, Installed))
  {
    CopiedInFull(before, target, binary);
    var base := before[PrevPath(target) := before[target]];
    assert base[name := binary] - {name} == base;
    assert Possible(before, target, Installed);
  }

  lemma {:induction false} CopyStates(before: Tree, target: string, binary: Bytes, bytes: Bytes, n: nat)
    requires target in before && bytes == before[target] && n <= |bytes|
    ensures CrashState(before, target, binary, before[PrevPath(target) := bytes[..n]])
    ensures before[PrevPath(target) := []][PrevPath(target) := bytes[..n]] == before[PrevPath(target) := bytes[..n]]
  {
    var p := Copying(n);
    assert Possible(before, target, p) && Reached(before, target, binary, p) == before[PrevPath(target) := bytes[..n]];
  }
}
