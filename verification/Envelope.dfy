/** The envelope format: paths, manifest, limits, and which archives are acceptable (src/envelope.rs:1-150, 612-921). */
module Envelope {
  import opened Wrappers
  import opened ByteStrings
  import opened Numbers
  import opened Paths
  import opened Digest
  import opened Plan

  const MANIFEST_SCHEMA_V1 := "greentic.update-envelope.v1"
  const MANIFEST_PATH := "manifest.json"
  const MANIFEST_SIG_PATH := "manifest.json.sig"
  const PLAN_PATH := "plan.json"
  const PLAN_SIG_PATH := "plan.json.sig"
  const BLOBS_PREFIX := "blobs/"
  const TRUST_ROTATION_PATH := "trust-rotation.json"
  const TRUST_ROTATION_SIG_PATH := "trust-rotation.json.sig"

  datatype ManifestEntry = ManifestEntry(path: string, digest: string, size: nat, mediaType: string, target: Option<string>)

  datatype EnvelopeManifest = EnvelopeManifest(schema: string, planId: string, envId: string, createdAt: nat,
                                               entries: seq<ManifestEntry>)

  datatype ScanLimits = ScanLimits(maxEntryCount: nat, maxEntryBytes: nat, maxTotalBytes: nat,
                                   maxManifestBytes: nat, maxCompressionRatio: real)

  /**
    One archive entry. `size` is what its header says; a size record before the header may make the tar layer
    yield a longer or shorter `body`. `overhead` counts the other decompressed bytes it takes to reach it.
  */
  datatype TarEntry = TarEntry(path: string, regular: bool, size: nat, body: Bytes, overhead: nat)

  /** A decompressed archive: its entries, the bytes after them, and whether it ends properly. */
  datatype Archive = Archive(entries: seq<TarEntry>, trailer: nat, intact: bool)

  /** JSON of manifests beside the plan codec; signing goes through `codec`. */
  datatype Trust = Trust(codec: Codec, parseManifest: Bytes -> Option<EnvelopeManifest>,
                         encodeManifest: EnvelopeManifest -> Bytes)

  // ---- Names ----------------------------------------------------------------------------

  /** The entry path without a leading `./`. */
  function Name(e: TarEntry): string {
    if "./" <= e.path then e.path[2..] else e.path
  }

  /** One leading `./` is dropped, and nothing else. */
  lemma {:induction false} NameIff(e: TarEntry, name: string)
    ensures Name(e) == name <==> e.path == "./" + name || (e.path == name && !("./" <= name))
  {}

  predicate IsBlobName(name: string) {
    DIR_PREFIX <= name && IsLowerHex64(name[|DIR_PREFIX|..])
  }

  predicate IsBlobPath(path: string) {
    BLOBS_PREFIX <= path && IsBlobName(path[|BLOBS_PREFIX|..])
  }

  function BlobPath(hex: string): string {
    BLOBS_PREFIX + DirName(hex)
  }

  function BlobHex(path: string): string
    requires IsBlobPath(path)
  {
    path[|BLOBS_PREFIX|..][|DIR_PREFIX|..]
  }

  predicate IsAllowed(path: string) {
    path == TRUST_ROTATION_PATH || path == TRUST_ROTATION_SIG_PATH || IsBlobPath(path)
  }

  /** The scanner's own order of tests on a path after the first four. */
  predicate ValidatePath(path: string) {
    if path != "" && path[0] == '/' then false
    else if ".." in Segments(path) then false
    else if path == TRUST_ROTATION_PATH || path == TRUST_ROTATION_SIG_PATH then true
    else if BLOBS_PREFIX <= path then IsBlobName(path[|BLOBS_PREFIX|..])
    else false
  }

  lemma {:induction false} DotDotNeedsDots(path: string)
    requires forall i | 0 <= i < |path| - 1 :: !(path[i] == '.' && path[i + 1] == '.')
    ensures Segments(path) != [] && ".." !in Segments(path)
    ensures path != "" && path[0] != '.' ==> Segments(path)[0] == "" || Segments(path)[0][0] != '.'
    ensures path != "" && path[0] == '.' ==> Segments(path)[0] != "" && Segments(path)[0][0] == '.'
  {
    if path != "" {
      DotDotNeedsDots(path[1..]);
      var rest := Segments(path[1..]);
      if path[0] != '/' {
        var head := [path[0]] + rest[0];
        assert Segments(path) == [head] + rest[1..];
        assert head[0] == path[0] && head[1..] == rest[0];
        if path[0] == '.' && path[1..] != "" {
          assert !(path[0] == '.' && path[0 + 1] == '.');
          assert path[1..][0] == path[1];
        }
        assert head != "..";
      }
    }
  }

  lemma {:induction false} FixedPaths()
    ensures |MANIFEST_PATH| == 13 && |MANIFEST_SIG_PATH| == 17 && |PLAN_PATH| == 9 && |PLAN_SIG_PATH| == 13
    ensures |TRUST_ROTATION_PATH| == 19 && |TRUST_ROTATION_SIG_PATH| == 23
    ensures MANIFEST_PATH[0] == 'm' && PLAN_SIG_PATH[0] == 'p' && TRUST_ROTATION_PATH[0] == 't'
  {}

  /** Blob paths are longer than the fixed ones. */
  lemma {:induction false} BlobPathFacts(path: string)
    requires IsBlobPath(path)
    ensures |path| == 77 && path == BlobPath(BlobHex(path)) && IsLowerHex64(BlobHex(path))
  {
    assert path == path[..6] + path[6..] && path[6..] == path[6..][..7] + path[6..][7..];
  }

  lemma {:induction false} BlobPathOfHex(hex: string)
    requires IsLowerHex64(hex)
    ensures IsBlobPath(BlobPath(hex)) && BlobHex(BlobPath(hex)) == hex
  {
    assert BlobPath(hex)[|BLOBS_PREFIX|..] == DirName(hex);
    assert DirName(hex)[|DIR_PREFIX|..] == hex;
  }

  lemma {:induction false} AllowedHasNoDots(path: string)
    requires IsAllowed(path)
    ensures forall i | 0 <= i < |path| - 1 :: !(path[i] == '.' && path[i + 1] == '.')
    ensures path != "" && path[0] != '/'
  {
    if IsBlobPath(path) {
      var hex := BlobHex(path);
      BlobPathFacts(path);
      forall i | 0 <= i < |path| ensures path[i] != '.' {
        if i >= 13 {
          assert path[i] == hex[i - 13];
        } else {
          assert path[..13] == BLOBS_PREFIX + DIR_PREFIX;
          assert path[i] == path[..13][i];
        }
      }
    }
  }

  /** The absolute-path and `..` tests refuse nothing the allowlist would accept. */
  lemma {:induction false} ValidatePathIsAllowlist(path: string)
    ensures ValidatePath(path) <==> IsAllowed(path)
  {
    if IsAllowed(path) {
      AllowedHasNoDots(path);
      DotDotNeedsDots(path);
    }
  }

  // ---- The manifest ----------------------------------------------------------------------

  /** The last manifest entry for a path. */
  function LastEntry(entries: seq<ManifestEntry>, path: string): Option<ManifestEntry> {
    if entries == [] then None
    else if entries[|entries| - 1].path == path then Some(entries[|entries| - 1])
    else LastEntry(entries[..|entries| - 1], path)
  }

  function DeclaredTotal(entries: seq<ManifestEntry>): nat {
    if entries == [] then 0 else DeclaredTotal(entries[..|entries| - 1]) + entries[|entries| - 1].size
  }

  lemma {:induction false} DeclaredTotalAdds(a: seq<ManifestEntry>, b: seq<ManifestEntry>)
    ensures DeclaredTotal(a + b) == DeclaredTotal(a) + DeclaredTotal(b)
    ensures |b| == 1 ==> DeclaredTotal(b) == b[0].size
  {
    if b == [] {
      assert a + b == a;
    } else {
      var n := |b| - 1;
      assert (a + b)[..|a + b| - 1] == a + b[..n];
      DeclaredTotalAdds(a, b[..n]);
    }
  }

  /** The content of an entry has the digest and size its manifest entry declares. */
  predicate MatchesEntry(t: Trust, me: ManifestEntry, body: Bytes) {
    WellFormed(me.digest) && t.codec.sha256(body) == HexOf(me.digest) && |body| == me.size
  }

  /** What the scanner takes of an entry: a blob is copied up to its header's size, any other body is read whole. */
  function Extracted(e: TarEntry): (bytes: Bytes)
    ensures bytes <= e.body
  {
    if IsBlobPath(Name(e)) && e.size < |e.body| then e.body[..e.size] else e.body
  }

  predicate ListedAs(t: Trust, m: EnvelopeManifest, e: TarEntry) {
    var me := LastEntry(m.entries, Name(e));
    me.Some? && MatchesEntry(t, me.value, Extracted(e))
  }

  // ---- Acceptance --------------------------------------------------------------------------

  /** The manifest that the first two entries authenticate. */
  function Manifest(t: Trust, es: seq<TarEntry>): Option<EnvelopeManifest>
    requires |es| >= 2
  {
    var checked := t.codec.dsse(es[1].body, t.codec.sha256(es[0].body));
    if checked.None? || checked.value.statement.predicateType != MANIFEST_SCHEMA_V1 then None
    else
      var m := t.parseManifest(es[0].body);
      if m.Some? && m.value.schema == MANIFEST_SCHEMA_V1 then m else None
  }

  predicate HeadOk(t: Trust, lim: ScanLimits, available: nat, es: seq<TarEntry>) {
    && |es| >= 2
    && Name(es[0]) == MANIFEST_PATH && es[0].regular && es[0].size <= lim.maxManifestBytes
    && Name(es[1]) == MANIFEST_SIG_PATH && es[1].regular && es[1].size <= lim.maxManifestBytes
    && Manifest(t, es).Some?
    && DeclaredTotal(Manifest(t, es).value.entries) % U64 <= available
  }

  /** One of the plan pair: its header's size must be the listed one too. */
  predicate PlanEntryOk(t: Trust, lim: ScanLimits, m: EnvelopeManifest, e: TarEntry, path: string) {
    Name(e) == path && e.regular && e.size <= lim.maxEntryBytes && e.size == |e.body| && ListedAs(t, m, e)
  }

  predicate PlanOk(t: Trust, lim: ScanLimits, m: EnvelopeManifest, es: seq<TarEntry>) {
    && |es| >= 4 && 4 <= lim.maxEntryCount
    && PlanEntryOk(t, lim, m, es[2], PLAN_PATH) && PlanEntryOk(t, lim, m, es[3], PLAN_SIG_PATH)
    && VerifyUpdatePlan(t.codec, es[2].body, es[3].body).Ok?
  }

  function PlanDigests(p: UpdatePlan): set<string> {
    (set a | a in p.artifacts :: a.digest) + (set b | b in p.binaries :: b.digest)
  }

  function Names(es: seq<TarEntry>): set<string> {
    set i | 0 <= i < |es| :: Name(es[i])
  }

  /** Entry `i` may stand after the entries before it. */
  predicate OrderOk(es: seq<TarEntry>, i: nat)
    requires i < |es|
  {
    var name := Name(es[i]);
    && IsAllowed(name)
    && name !in Names(es[..i])
    && (IsBlobPath(name) ==> TRUST_ROTATION_PATH !in Names(es[..i]))
    && (name == TRUST_ROTATION_SIG_PATH ==> TRUST_ROTATION_PATH in Names(es[..i]))
  }

  predicate ContentOk(t: Trust, lim: ScanLimits, m: EnvelopeManifest, digests: set<string>, e: TarEntry) {
    && e.regular && e.size <= lim.maxEntryBytes && ListedAs(t, m, e)
    && (IsBlobPath(Name(e)) ==> DigestOf(BlobHex(Name(e))) in digests)
  }

  predicate EntryOk(t: Trust, lim: ScanLimits, m: EnvelopeManifest, digests: set<string>, es: seq<TarEntry>, i: nat)
    requires i < |es|
  {
    i < lim.maxEntryCount && OrderOk(es, i) && ContentOk(t, lim, m, digests, es[i])
  }

  predicate CompleteFor(m: EnvelopeManifest, es: seq<TarEntry>) {
    forall me | me in m.entries :: me.path in Names(es)
  }

  /** Decompressed bytes of the entries, and of what the scanner takes of their bodies. */
  function Cost(es: seq<TarEntry>): nat {
    if es == [] then 0
    else Cost(es[..|es| - 1]) + es[|es| - 1].overhead + |es[|es| - 1].body|
  }

  function BodyBytes(es: seq<TarEntry>): nat {
    if es == [] then 0 else BodyBytes(es[..|es| - 1]) + |Extracted(es[|es| - 1])|
  }

  ghost predicate TailOk(t: Trust, lim: ScanLimits, m: EnvelopeManifest, digests: set<string>, es: seq<TarEntry>, n: nat)
    requires n <= |es|
  {
    forall i | 4 <= i < n :: EntryOk(t, lim, m, digests, es, i)
  }

  function EnvelopePlan(t: Trust, es: seq<TarEntry>): Result<VerifiedUpdatePlan, PlanError>
    requires |es| >= 4
  {
    VerifyUpdatePlan(t.codec, es[2].body, es[3].body)
  }

  /** Everything but the compression ratio that an acceptable archive satisfies. */
  ghost predicate Acceptable(t: Trust, lim: ScanLimits, available: nat, a: Archive) {
    var es := a.entries;
    && HeadOk(t, lim, available, es)
    && PlanOk(t, lim, Manifest(t, es).value, es)
    && TailOk(t, lim, Manifest(t, es).value, PlanDigests(EnvelopePlan(t, es).value.plan), es, |es|)
    && CompleteFor(Manifest(t, es).value, es)
    && a.intact
    && Cost(es) < lim.maxTotalBytes && Cost(es) + a.trailer <= lim.maxTotalBytes
  }

  // ---- The grammar behind the positional checks -------------------------------------------------

  /** The archive as a sentence: the four heads, then distinct blobs up to `b`, then the rotation pair or part of it. */
  ghost predicate Grammar(es: seq<TarEntry>, b: nat) {
    && 4 <= b <= |es| <= b + 2
    && (forall i | 4 <= i < b :: IsBlobPath(Name(es[i])))
    && (forall i, j | 4 <= i < j < b :: Name(es[i]) != Name(es[j]))
    && (b < |es| ==> Name(es[b]) == TRUST_ROTATION_PATH)
    && (b + 1 < |es| ==> Name(es[b + 1]) == TRUST_ROTATION_SIG_PATH)
  }

  predicate HeadNames(es: seq<TarEntry>) {
    && |es| >= 4
    && Name(es[0]) == MANIFEST_PATH && Name(es[1]) == MANIFEST_SIG_PATH
    && Name(es[2]) == PLAN_PATH && Name(es[3]) == PLAN_SIG_PATH
  }

  lemma {:induction false} InNames(es: seq<TarEntry>, n: nat, name: string)
    requires n <= |es|
    ensures name in Names(es[..n]) <==> exists i | 0 <= i < n :: Name(es[i]) == name
  {
    if name in Names(es[..n]) {
      var i :| 0 <= i < n && Name(es[..n][i]) == name;
      assert Name(es[i]) == name;
    }
    if i :| 0 <= i < n && Name(es[i]) == name {
      assert Name(es[..n][i]) == name;
    }
  }

  lemma {:induction false} HeadsAreNotTail(es: seq<TarEntry>, i: nat)
    requires HeadNames(es) && i < 4
    ensures !IsAllowed(Name(es[i]))
  {
    FixedPaths();
    if IsBlobPath(Name(es[i])) { BlobPathFacts(Name(es[i])); }
  }

  lemma {:induction false} BlobIsNotRotation(path: string)
    requires IsBlobPath(path)
    ensures path != TRUST_ROTATION_PATH && path != TRUST_ROTATION_SIG_PATH
  {
    BlobPathFacts(path);
    FixedPaths();
  }

  ghost predicate Ordered(es: seq<TarEntry>) {
    forall i | 4 <= i < |es| :: OrderOk(es, i)
  }

  /** The first entry after the heads that is no blob. */
  function BlobsEnd(es: seq<TarEntry>, i: nat): (b: nat)
    requires i <= |es|
    ensures i <= b <= |es|
    ensures forall j | i <= j < b :: IsBlobPath(Name(es[j]))
    ensures b < |es| ==> !IsBlobPath(Name(es[b]))
    decreases |es| - i
  {
    if i < |es| && IsBlobPath(Name(es[i])) then BlobsEnd(es, i + 1) else i
  }

  lemma {:induction false} OrderedDistinct(es: seq<TarEntry>, i: nat, j: nat)
    requires Ordered(es) && i < j < |es| && 4 <= j
    ensures Name(es[i]) != Name(es[j])
  {
    assert OrderOk(es, j);
    InNames(es, j, Name(es[i]));
  }

  lemma {:induction false} NoRotationYet(es: seq<TarEntry>, b: nat)
    requires HeadNames(es) && 4 <= b <= |es| && forall i | 4 <= i < b :: IsBlobPath(Name(es[i]))
    ensures TRUST_ROTATION_PATH !in Names(es[..b])
  {
    forall i | 0 <= i < b ensures Name(es[i]) != TRUST_ROTATION_PATH {
      if i < 4 { HeadsAreNotTail(es, i); } else { BlobIsNotRotation(Name(es[i])); }
    }
    InNames(es, b, TRUST_ROTATION_PATH);
  }

  /** After the blobs only the rotation can come, and after it only its signature. */
  lemma {:induction false} AfterBlobs(es: seq<TarEntry>, b: nat)
    requires HeadNames(es) && Ordered(es) && 4 <= b < |es|
    requires (forall i | 4 <= i < b :: IsBlobPath(Name(es[i]))) && !IsBlobPath(Name(es[b]))
    ensures Name(es[b]) == TRUST_ROTATION_PATH && |es| <= b + 2
    ensures b + 1 < |es| ==> Name(es[b + 1]) == TRUST_ROTATION_SIG_PATH
  {
    assert OrderOk(es, b);
    NoRotationYet(es, b);
    if b + 1 < |es| { AfterRotation(es, b, b + 1); }
    if b + 2 < |es| {
      AfterRotation(es, b, b + 2);
      OrderedDistinct(es, b + 1, b + 2);
      assert false;
    }
  }

  lemma {:induction false} OrderedToGrammar(es: seq<TarEntry>)
    requires HeadNames(es) && Ordered(es)
    ensures Grammar(es, BlobsEnd(es, 4))
  {
    var b := BlobsEnd(es, 4);
    forall i, j | 4 <= i < j < b ensures Name(es[i]) != Name(es[j]) {
      OrderedDistinct(es, i, j);
    }
    if b < |es| { AfterBlobs(es, b); }
  }

  lemma {:induction false} AfterRotation(es: seq<TarEntry>, b: nat, i: nat)
    requires Ordered(es) && 4 <= b < i < |es| && Name(es[b]) == TRUST_ROTATION_PATH
    ensures Name(es[i]) == TRUST_ROTATION_SIG_PATH
  {
    assert OrderOk(es, i);
    InNames(es, i, TRUST_ROTATION_PATH);
  }

  lemma {:induction false} GrammarToOrdered(es: seq<TarEntry>, b: nat)
    requires HeadNames(es) && Grammar(es, b)
    ensures Ordered(es)
  {
    forall i | 4 <= i < b ensures OrderOk(es, i) {
      BlobAt(es, b, i);
    }
    if b < |es| { RotationAt(es, b); }
    if b + 1 < |es| { RotationSigAt(es, b); }
  }

  lemma {:induction false} BeforeIsBlobOrHead(es: seq<TarEntry>, b: nat, j: nat)
    requires HeadNames(es) && Grammar(es, b) && j < b
    ensures Name(es[j]) != TRUST_ROTATION_PATH && Name(es[j]) != TRUST_ROTATION_SIG_PATH
  {
    if j < 4 { HeadsAreNotTail(es, j); } else { BlobIsNotRotation(Name(es[j])); }
  }

  lemma {:induction false} NoRotationBefore(es: seq<TarEntry>, b: nat, i: nat)
    requires HeadNames(es) && Grammar(es, b) && i <= b
    ensures TRUST_ROTATION_PATH !in Names(es[..i]) && TRUST_ROTATION_SIG_PATH !in Names(es[..i])
  {
    InNames(es, i, TRUST_ROTATION_PATH);
    InNames(es, i, TRUST_ROTATION_SIG_PATH);
    forall j | 0 <= j < i ensures Name(es[j]) != TRUST_ROTATION_PATH && Name(es[j]) != TRUST_ROTATION_SIG_PATH {
      BeforeIsBlobOrHead(es, b, j);
    }
  }

  lemma {:induction false} RotationNamesDiffer()
    ensures TRUST_ROTATION_PATH != TRUST_ROTATION_SIG_PATH
    ensures !IsBlobPath(TRUST_ROTATION_PATH) && !IsBlobPath(TRUST_ROTATION_SIG_PATH)
  {
    FixedPaths();
  }

  lemma {:induction false} BlobIsNew(es: seq<TarEntry>, b: nat, i: nat)
    requires HeadNames(es) && Grammar(es, b) && 4 <= i < b
    ensures Name(es[i]) !in Names(es[..i])
  {
    InNames(es, i, Name(es[i]));
    forall j | 0 <= j < i ensures Name(es[j]) != Name(es[i]) {
      if j < 4 { HeadsAreNotTail(es, j); }
    }
  }

  lemma {:induction false} RotationSeen(es: seq<TarEntry>, b: nat)
    requires b < |es| && Name(es[b]) == TRUST_ROTATION_PATH
    ensures TRUST_ROTATION_PATH in Names(es[..b + 1])
  {
    InNames(es, b + 1, TRUST_ROTATION_PATH);
  }

  lemma {:induction false} NotSignature(es: seq<TarEntry>, b: nat, j: nat)
    requires HeadNames(es) && Grammar(es, b) && j <= b < |es|
    ensures Name(es[j]) != TRUST_ROTATION_SIG_PATH
  {
    if j < b { BeforeIsBlobOrHead(es, b, j); } else { RotationNamesDiffer(); }
  }

  lemma {:induction false} SignatureNotSeen(es: seq<TarEntry>, b: nat)
    requires HeadNames(es) && Grammar(es, b) && b + 1 < |es|
    ensures TRUST_ROTATION_SIG_PATH !in Names(es[..b + 1])
  {
    forall j | 0 <= j < b + 1 ensures Name(es[j]) != TRUST_ROTATION_SIG_PATH {
      NotSignature(es, b, j);
    }
    InNames(es, b + 1, TRUST_ROTATION_SIG_PATH);
  }

  lemma {:induction false} BlobAt(es: seq<TarEntry>, b: nat, i: nat)
    requires HeadNames(es) && Grammar(es, b) && 4 <= i < b
    ensures OrderOk(es, i)
  {
    NoRotationBefore(es, b, i);
    BlobIsNotRotation(Name(es[i]));
    BlobIsNew(es, b, i);
  }

  lemma {:induction false} RotationAt(es: seq<TarEntry>, b: nat)
    requires HeadNames(es) && Grammar(es, b) && 4 <= b < |es|
    ensures OrderOk(es, b)
  {
    var name := Name(es[b]);
    assert IsAllowed(name);
    assert name !in Names(es[..b]) by { NoRotationBefore(es, b, b); }
    assert !IsBlobPath(name) && name != TRUST_ROTATION_SIG_PATH by { RotationNamesDiffer(); }
  }

  lemma {:induction false} RotationSigAt(es: seq<TarEntry>, b: nat)
    requires HeadNames(es) && Grammar(es, b) && 4 <= b && b + 1 < |es|
    ensures OrderOk(es, b + 1)
  {
    var name := Name(es[b + 1]);
    assert IsAllowed(name);
    assert !IsBlobPath(name) by { RotationNamesDiffer(); }
    RotationSeen(es, b);
    SignatureNotSeen(es, b);
  }

  /** The positional checks, flags and seen-set accept exactly the sentences of the grammar. */
  lemma {:induction false} OrderIsGrammar(es: seq<TarEntry>)
    requires HeadNames(es)
    ensures Ordered(es) <==> exists b :: Grammar(es, b)
  {
    if Ordered(es) {
      OrderedToGrammar(es);
    }
    if b :| Grammar(es, b) {
      GrammarToOrdered(es, b);
    }
  }

  // ---- What acceptance means -------------------------------------------------------------------

  lemma {:induction false} AcceptableOrdered(t: Trust, lim: ScanLimits, available: nat, a: Archive)
    requires Acceptable(t, lim, available, a)
    ensures HeadNames(a.entries) && Ordered(a.entries)
    ensures |a.entries| <= lim.maxEntryCount
  {
    var es := a.entries;
    var m, digests := Manifest(t, es).value, PlanDigests(EnvelopePlan(t, es).value.plan);
    forall i | 4 <= i < |es| ensures OrderOk(es, i) {
      assert EntryOk(t, lim, m, digests, es, i);
    }
    if |es| > 4 { assert EntryOk(t, lim, m, digests, es, |es| - 1); }
  }

  lemma {:induction false} HeadsDistinct(es: seq<TarEntry>, i: nat, j: nat)
    requires HeadNames(es) && i < j < 4
    ensures Name(es[i]) != Name(es[j])
  {
    FixedPaths();
  }

  /** Main result: an acceptable archive is a sentence of the grammar, and no path in it repeats. */
  lemma {:induction false} AcceptableShape(t: Trust, lim: ScanLimits, available: nat, a: Archive)
    requires Acceptable(t, lim, available, a)
    ensures HeadNames(a.entries) && exists b :: Grammar(a.entries, b)
    ensures forall i, j | 0 <= i < j < |a.entries| :: Name(a.entries[i]) != Name(a.entries[j])
  {
    var es := a.entries;
    AcceptableOrdered(t, lim, available, a);
    OrderIsGrammar(es);
    forall i, j | 0 <= i < j < |es| ensures Name(es[i]) != Name(es[j]) {
      if 4 <= j { OrderedDistinct(es, i, j); } else { HeadsDistinct(es, i, j); }
    }
  }

  lemma {:induction false} PlanPairListed(t: Trust, lim: ScanLimits, m: EnvelopeManifest, es: seq<TarEntry>, i: nat)
    requires PlanOk(t, lim, m, es) && 2 <= i < 4
    ensures ListedAs(t, m, es[i])
  {}

  lemma {:induction false} TailListed(t: Trust, lim: ScanLimits, m: EnvelopeManifest, digests: set<string>,
                                      es: seq<TarEntry>, i: nat)
    requires TailOk(t, lim, m, digests, es, |es|) && 4 <= i < |es|
    ensures ListedAs(t, m, es[i])
  {
    assert EntryOk(t, lim, m, digests, es, i);
  }

  lemma {:induction false} AcceptableListed(t: Trust, lim: ScanLimits, available: nat, a: Archive, i: nat)
    requires Acceptable(t, lim, available, a) && 2 <= i < |a.entries|
    ensures ListedAs(t, Manifest(t, a.entries).value, a.entries[i])
  {
    var es := a.entries;
    if i < 4 {
      PlanPairListed(t, lim, Manifest(t, es).value, es, i);
    } else {
      TailListed(t, lim, Manifest(t, es).value, PlanDigests(EnvelopePlan(t, es).value.plan), es, i);
    }
  }

  /**
    Main result: archive and signed manifest agree both ways. Every path but the manifest pair is
    listed, every listed path is in the archive, and each body is what the last entry for its path declares.
  */
  lemma {:induction false} AcceptableAgreesWithManifest(t: Trust, lim: ScanLimits, available: nat, a: Archive)
    requires Acceptable(t, lim, available, a)
    ensures forall me | me in Manifest(t, a.entries).value.entries :: me.path in Names(a.entries)
    ensures forall i | 2 <= i < |a.entries| :: ListedAs(t, Manifest(t, a.entries).value, a.entries[i])
  {
    forall i | 2 <= i < |a.entries| ensures ListedAs(t, Manifest(t, a.entries).value, a.entries[i]) {
      AcceptableListed(t, lim, available, a, i);
    }
  }

  /** Signed manifest and plan, and every entry after the pair listed, complete and asked for by the plan. */
  ghost predicate Authentic(t: Trust, es: seq<TarEntry>)
    requires |es| >= 4
  {
    var m, plan := Manifest(t, es), EnvelopePlan(t, es);
    && m.Some? && plan.Ok? && CompleteFor(m.value, es)
    && (forall i | 2 <= i < |es| :: ListedAs(t, m.value, es[i]))
    && (forall i | 4 <= i < |es| && IsBlobPath(Name(es[i])) :: DigestOf(BlobHex(Name(es[i]))) in PlanDigests(plan.value.plan))
  }

  /** Entry count, header sizes, disk space and bytes. */
  predicate WithinLimits(t: Trust, lim: ScanLimits, available: nat, a: Archive) {
    var es := a.entries;
    && 4 <= |es| <= lim.maxEntryCount
    && es[0].size <= lim.maxManifestBytes && es[1].size <= lim.maxManifestBytes
    && (forall i | 2 <= i < |es| :: es[i].size <= lim.maxEntryBytes)
    && es[2].size == |es[2].body| && es[3].size == |es[3].body|
    && (Manifest(t, es).Some? ==> DeclaredTotal(Manifest(t, es).value.entries) % U64 <= available)
    && Cost(es) < lim.maxTotalBytes && Cost(es) + a.trailer <= lim.maxTotalBytes
  }

  predicate AllRegular(es: seq<TarEntry>) {
    forall i | 0 <= i < |es| :: es[i].regular
  }

  lemma {:induction false} AcceptableInParts(t: Trust, lim: ScanLimits, available: nat, a: Archive)
    ensures Acceptable(t, lim, available, a) <==>
              && WithinLimits(t, lim, available, a) && HeadNames(a.entries) && (exists b :: Grammar(a.entries, b))
              && AllRegular(a.entries) && Authentic(t, a.entries) && a.intact
  {
    var es := a.entries;
    if Acceptable(t, lim, available, a) {
      AcceptableIsAll(t, lim, available, a);
    }
    if && WithinLimits(t, lim, available, a) && HeadNames(es) && (exists b :: Grammar(es, b))
       && AllRegular(es) && Authentic(t, es) && a.intact {
      OrderIsGrammar(es);
      AllIsAcceptable(t, lim, available, a);
    }
  }

  lemma {:induction false} AcceptableIsAll(t: Trust, lim: ScanLimits, available: nat, a: Archive)
    requires Acceptable(t, lim, available, a)
    ensures WithinLimits(t, lim, available, a) && HeadNames(a.entries) && (exists b :: Grammar(a.entries, b))
    ensures AllRegular(a.entries) && Authentic(t, a.entries)
  {
    var es := a.entries;
    AcceptableOrdered(t, lim, available, a);
    AcceptableShape(t, lim, available, a);
    AcceptableAgreesWithManifest(t, lim, available, a);
    var digests := PlanDigests(EnvelopePlan(t, es).value.plan);
    forall i | 4 <= i < |es| ensures ContentOk(t, lim, Manifest(t, es).value, digests, es[i]) {
      assert EntryOk(t, lim, Manifest(t, es).value, digests, es, i);
    }
  }

  lemma {:induction false} AllIsAcceptable(t: Trust, lim: ScanLimits, available: nat, a: Archive)
    requires WithinLimits(t, lim, available, a) && HeadNames(a.entries) && Ordered(a.entries)
    requires AllRegular(a.entries) && Authentic(t, a.entries) && a.intact
    ensures Acceptable(t, lim, available, a)
  {
    var es := a.entries;
    var m, digests := Manifest(t, es).value, PlanDigests(EnvelopePlan(t, es).value.plan);
    assert ListedAs(t, m, es[2]) && ListedAs(t, m, es[3]);
    forall i | 4 <= i < |es| ensures EntryOk(t, lim, m, digests, es, i) {
      assert OrderOk(es, i) && ListedAs(t, m, es[i]) && es[i].regular;
    }
  }

  /** The manifest names each blob by the digest it declares for it. */
  ghost predicate BlobNamesAgree(m: EnvelopeManifest) {
    forall me | me in m.entries && IsBlobPath(me.path) :: WellFormed(me.digest) && HexOf(me.digest) == BlobHex(me.path)
  }

  /**
    Main result: the scanner does not compare a blob's key with its hash; they agree exactly when the last manifest
    entry for its path declares the digest that the path is named after.
  */
  lemma {:induction false} BlobKeyIsHashIff(t: Trust, lim: ScanLimits, available: nat, a: Archive, i: nat)
    requires Acceptable(t, lim, available, a) && 4 <= i < |a.entries| && IsBlobPath(Name(a.entries[i]))
    ensures var me := LastEntry(Manifest(t, a.entries).value.entries, Name(a.entries[i]));
      && me.Some? && WellFormed(me.value.digest)
      && (t.codec.sha256(Extracted(a.entries[i])) == BlobHex(Name(a.entries[i]))
          <==> HexOf(me.value.digest) == BlobHex(Name(a.entries[i])))
  {
    AcceptableAgreesWithManifest(t, lim, available, a);
  }

  /** In particular they agree when the manifest names every blob by the digest it declares for it. */
  lemma {:induction false} BlobKeyIsHash(t: Trust, lim: ScanLimits, available: nat, a: Archive, i: nat)
    requires Acceptable(t, lim, available, a) && 4 <= i < |a.entries| && IsBlobPath(Name(a.entries[i]))
    requires BlobNamesAgree(Manifest(t, a.entries).value)
    ensures t.codec.sha256(Extracted(a.entries[i])) == BlobHex(Name(a.entries[i]))
  {
    BlobKeyIsHashIff(t, lim, available, a, i);
    LastEntryMember(Manifest(t, a.entries).value.entries, Name(a.entries[i]));
  }

  lemma {:induction false} LastEntryMember(entries: seq<ManifestEntry>, path: string)
    ensures LastEntry(entries, path).Some? ==> LastEntry(entries, path).value in entries
    ensures LastEntry(entries, path).Some? ==> LastEntry(entries, path).value.path == path
    ensures LastEntry(entries, path).None? ==> forall me | me in entries :: me.path != path
  {
    if entries != [] {
      var n := |entries| - 1;
      assert entries == entries[..n] + [entries[n]];
      LastEntryMember(entries[..n], path);
    }
  }

  /** The limit on entries holds of what is extracted, except of a rotation entry, whose body only the manifest bounds. */
  lemma {:induction false} ExtractedWithinLimits(t: Trust, lim: ScanLimits, available: nat, a: Archive, i: nat)
    requires Acceptable(t, lim, available, a) && 2 <= i < |a.entries|
    requires i < 4 || IsBlobPath(Name(a.entries[i]))
    ensures |Extracted(a.entries[i])| <= lim.maxEntryBytes
  {
    AcceptableIsAll(t, lim, available, a);
  }

  function Resized(a: Archive, i: nat, size: nat): Archive
    requires i < |a.entries|
  {
    a.(entries := a.entries[i := a.entries[i].(size := size)])
  }

  /**
    The limit on the manifest is tested on its header only: with a header that says zero, an acceptable archive
    stays acceptable however low the limit, and its manifest is read whole.
  */
  lemma {:induction false} ManifestLimitIsOnHeader(t: Trust, lim: ScanLimits, available: nat, a: Archive)
    requires Acceptable(t, lim, available, a)
    ensures Acceptable(t, lim.(maxManifestBytes := 0), available, Resized(Resized(a, 0, 0), 1, 0))
    ensures Resized(Resized(a, 0, 0), 1, 0).entries[0].body == a.entries[0].body
  {
    var b, low := Resized(Resized(a, 0, 0), 1, 0), lim.(maxManifestBytes := 0);
    ResizedIsWithin(t, lim, available, a, b);
    assert SameButHead(a.entries, b.entries);
    ResizedIsAll(t, lim, available, a, b.entries);
    AllIsAcceptable(t, low, available, b);
  }

  lemma {:induction false} ResizedIsWithin(t: Trust, lim: ScanLimits, available: nat, a: Archive, b: Archive)
    requires Acceptable(t, lim, available, a) && SameButHead(a.entries, b.entries) && b.trailer == a.trailer
    requires b.entries[0].size == b.entries[1].size == 0
    ensures WithinLimits(t, lim.(maxManifestBytes := 0), available, b)
  {
    AcceptableIsAll(t, lim, available, a);
    SameCost(a.entries, b.entries);
  }

  lemma {:induction false} ResizedIsAll(t: Trust, lim: ScanLimits, available: nat, a: Archive, fs: seq<TarEntry>)
    requires Acceptable(t, lim, available, a) && SameButHead(a.entries, fs)
    ensures HeadNames(fs) && Ordered(fs) && AllRegular(fs) && Authentic(t, fs) && a.intact
  {
    AcceptableIsAll(t, lim, available, a);
    AcceptableOrdered(t, lim, available, a);
    ResizedFacts(t, a.entries, fs);
  }

  /** Entries that agree but for the header sizes of the first two. */
  predicate SameButHead(es: seq<TarEntry>, fs: seq<TarEntry>) {
    && |es| == |fs| && |es| >= 4
    && (forall i | 0 <= i < |es| :: Name(es[i]) == Name(fs[i]) && es[i].regular == fs[i].regular && es[i].body == fs[i].body)
    && (forall i | 0 <= i < |es| :: es[i].overhead == fs[i].overhead)
    && (forall i | 2 <= i < |es| :: es[i] == fs[i])
  }

  lemma {:induction false} SameNames(es: seq<TarEntry>, fs: seq<TarEntry>, n: nat)
    requires |es| == |fs| && n <= |es| && forall i | 0 <= i < |es| :: Name(es[i]) == Name(fs[i])
    ensures Names(es[..n]) == Names(fs[..n])
  {
    forall name ensures name in Names(es[..n]) <==> name in Names(fs[..n]) {
      InNames(es, n, name);
      InNames(fs, n, name);
    }
  }

  lemma {:induction false} SameCost(es: seq<TarEntry>, fs: seq<TarEntry>)
    requires |es| == |fs| && forall i | 0 <= i < |es| :: |es[i].body| == |fs[i].body| && es[i].overhead == fs[i].overhead
    ensures Cost(es) == Cost(fs)
  {
    if es != [] { SameCost(es[..|es| - 1], fs[..|fs| - 1]); }
  }

  lemma {:induction false} ResizedFacts(t: Trust, es: seq<TarEntry>, fs: seq<TarEntry>)
    requires SameButHead(es, fs) && HeadNames(es) && Ordered(es) && AllRegular(es) && Authentic(t, es)
    ensures HeadNames(fs) && Ordered(fs) && AllRegular(fs) && Authentic(t, fs) && Cost(fs) == Cost(es)
    ensures Manifest(t, fs) == Manifest(t, es)
  {
    SameCost(es, fs);
    forall i | 4 <= i < |fs| ensures OrderOk(fs, i) {
      assert OrderOk(es, i);
      SameNames(es, fs, i);
    }
    SameNames(es, fs, |es|);
    assert es[..|es|] == es && fs[..|fs|] == fs;
  }

  // ---- Budgets -----------------------------------------------------------------------------------

  lemma {:induction false} CostStep(es: seq<TarEntry>, i: nat)
    requires i < |es|
    ensures Cost(es[..i + 1]) == Cost(es[..i]) + es[i].overhead + |es[i].body|
    ensures BodyBytes(es[..i + 1]) == BodyBytes(es[..i]) + |Extracted(es[i])|
  {
    assert es[..i + 1][..i] == es[..i];
  }

  lemma {:induction false} CostGrows(es: seq<TarEntry>, i: nat)
    requires i <= |es|
    ensures Cost(es[..i]) <= Cost(es)
    decreases |es| - i
  {
    if i == |es| {
      assert es[..i] == es;
    } else {
      CostStep(es, i);
      CostGrows(es, i + 1);
    }
  }

  predicate RatioOk(lim: ScanLimits, total: nat, compressed: nat) {
    compressed == 0 || total as real <= lim.maxCompressionRatio * (compressed as real)
  }
}
