/** The builder, and that scanning undoes it (src/envelope.rs:379-568). */
module EnvelopeBuilder {
  import opened Wrappers
  import opened ByteStrings
  import opened Numbers
  import opened Digest
  import opened Plan
  import opened Envelope
  import opened EnvelopeScanner

  /** A blob as it was handed to the builder. */
  datatype Blob = Blob(digest: string, bytes: Bytes, mediaType: string, target: Option<string>)

  datatype BuildError = MalformedBlobDigest | BlobDigestMismatch | DuplicateBlob | NoPlan | PlanJson

  /** What the builder keeps of a blob; its bytes are spooled under `dirName`. */
  datatype BlobRecord = BlobRecord(digest: string, dirName: string, size: nat, mediaType: string, target: Option<string>)

  /** Everything that goes into an envelope besides the blobs. */
  datatype Parts = Parts(planBytes: Bytes, sigBytes: Bytes, planId: string, envId: string)

  // ---- What an envelope is made of ---------------------------------------------------------

  function PlanEntries(t: Trust, p: Parts): seq<ManifestEntry> {
    [ManifestEntry(PLAN_PATH, DigestOf(t.codec.sha256(p.planBytes)), |p.planBytes|, "application/json", None),
     ManifestEntry(PLAN_SIG_PATH, DigestOf(t.codec.sha256(p.sigBytes)), |p.sigBytes|, "application/json", None)]
  }

  function RecordEntries(records: seq<BlobRecord>): seq<ManifestEntry> {
    seq(|records|, i requires 0 <= i < |records| =>
      var b := records[i];
      ManifestEntry(BLOBS_PREFIX + b.dirName, b.digest, b.size, b.mediaType, b.target))
  }

  function ManifestFor(t: Trust, p: Parts, records: seq<BlobRecord>, now: nat): EnvelopeManifest {
    EnvelopeManifest(MANIFEST_SCHEMA_V1, p.planId, p.envId, now, PlanEntries(t, p) + RecordEntries(records))
  }

  function SignatureFor(t: Trust, m: EnvelopeManifest, keyId: string): Bytes {
    t.codec.sign(Statement(t.codec.sha256(t.encodeManifest(m)), MANIFEST_SCHEMA_V1, None), keyId)
  }

  /** The bodies of the archive: manifest, its signature, plan, its signature. */
  function HeadEntries(t: Trust, p: Parts, m: EnvelopeManifest, keyId: string, overhead: nat -> nat): seq<TarEntry> {
    [WholeEntry(MANIFEST_PATH, t.encodeManifest(m), overhead(0)),
     WholeEntry(MANIFEST_SIG_PATH, SignatureFor(t, m, keyId), overhead(1)),
     WholeEntry(PLAN_PATH, p.planBytes, overhead(2)),
     WholeEntry(PLAN_SIG_PATH, p.sigBytes, overhead(3))]
  }

  /** A regular entry whose header gives the length of its body. */
  function WholeEntry(path: string, body: Bytes, overhead: nat): TarEntry {
    TarEntry(path, true, |body|, body, overhead)
  }

  function BlobEntries(records: seq<BlobRecord>, bodies: seq<Bytes>, overhead: nat -> nat): seq<TarEntry>
    requires |bodies| == |records|
  {
    seq(|records|, i requires 0 <= i < |records| =>
      TarEntry(BLOBS_PREFIX + records[i].dirName, true, records[i].size, bodies[i], overhead(i + 4)))
  }

  function ArchiveFor(t: Trust, p: Parts, records: seq<BlobRecord>, bodies: seq<Bytes>, keyId: string, now: nat,
                      overhead: nat -> nat, trailer: nat): Archive
    requires |bodies| == |records|
  {
    Assemble(t, p, records, bodies, keyId, now, overhead, trailer, true)
  }

  function Assemble(t: Trust, p: Parts, records: seq<BlobRecord>, bodies: seq<Bytes>, keyId: string, now: nat,
                    overhead: nat -> nat, trailer: nat, intact: bool): Archive
    requires |bodies| == |records|
  {
    Archive(HeadEntries(t, p, ManifestFor(t, p, records, now), keyId, overhead) + BlobEntries(records, bodies, overhead),
            trailer, intact)
  }

  function RecordOf(b: Blob): BlobRecord
    requires WellFormed(b.digest)
  {
    BlobRecord(b.digest, DirName(HexOf(b.digest)), |b.bytes|, b.mediaType, b.target)
  }

  /** The bytes are what the digest says. */
  predicate BlobFits(t: Trust, b: Blob) {
    WellFormed(b.digest) && t.codec.sha256(b.bytes) == HexOf(b.digest)
  }

  function Records(t: Trust, blobs: seq<Blob>): seq<BlobRecord>
    requires AllFit(t, blobs)
  {
    seq(|blobs|, i requires 0 <= i < |blobs| => assert BlobFits(t, blobs[i]); RecordOf(blobs[i]))
  }

  function Bodies(blobs: seq<Blob>): seq<Bytes> {
    seq(|blobs|, i requires 0 <= i < |blobs| => blobs[i].bytes)
  }

  predicate AllFit(t: Trust, blobs: seq<Blob>) {
    forall i | 0 <= i < |blobs| :: BlobFits(t, blobs[i])
  }

  /** All that a call of the builder works from. */
  datatype Recipe = Recipe(parts: Parts, blobs: seq<Blob>, keyId: string, now: nat, overhead: nat -> nat, trailer: nat)

  function BuiltManifest(t: Trust, c: Recipe): EnvelopeManifest
    requires AllFit(t, c.blobs)
  {
    ManifestFor(t, c.parts, Records(t, c.blobs), c.now)
  }

  function Built(t: Trust, c: Recipe): Archive
    requires AllFit(t, c.blobs)
  {
    ArchiveFor(t, c.parts, Records(t, c.blobs), Bodies(c.blobs), c.keyId, c.now, c.overhead, c.trailer)
  }

  predicate SameHex(a: Blob, b: Blob) {
    WellFormed(a.digest) && WellFormed(b.digest) && HexOf(a.digest) == HexOf(b.digest)
  }

  /** No two blobs have digests that differ in letter case only (equal ones are refused anyway). */
  predicate HexesDistinct(blobs: seq<Blob>) {
    forall i, j | 0 <= i < j < |blobs| :: !SameHex(blobs[i], blobs[j])
  }

  /** After the four head entries, one entry for each blob, at the path of its digest. */
  predicate NamedAfter(a: Archive, blobs: seq<Blob>) {
    && |a.entries| == 4 + |blobs|
    && forall i | 0 <= i < |blobs| ::
         WellFormed(blobs[i].digest) ==> Name(a.entries[i + 4]) == BlobPath(HexOf(blobs[i].digest))
  }

  /** What the builder may return: the archive of the recipe, or, when spool files collided, one with its names. */
  predicate MadeFrom(t: Trust, c: Recipe, a: Archive)
    requires AllFit(t, c.blobs)
  {
    NamedAfter(a, c.blobs) && (HexesDistinct(c.blobs) ==> a == Built(t, c))
  }

  /** Records, digests seen and spool files are those of the blobs added so far. */
  predicate KeepsTrack(t: Trust, added: seq<Blob>, records: seq<BlobRecord>, seen: set<string>, spool: map<string, Bytes>) {
    && AllFit(t, added) && records == Records(t, added)
    && seen == (set b | b in added :: b.digest)
    && (forall i, j | 0 <= i < j < |added| :: added[i].digest != added[j].digest)
    && (forall i | 0 <= i < |added| :: records[i].dirName in spool)
    && (HexesDistinct(added) ==> forall i | 0 <= i < |added| :: spool[records[i].dirName] == added[i].bytes)
  }

  // ---- The builder -----------------------------------------------------------------------------

  class Builder {
    const trust: Trust
    const keyId: string
    var plan: Option<Parts>
    var records: seq<BlobRecord>
    var seenDigests: set<string>
    var spool: map<string, Bytes>
    /** The blobs added so far. */
    ghost var added: seq<Blob>

    ghost predicate Valid()
      reads this
    {
      KeepsTrack(trust, added, records, seenDigests, spool)
    }

    constructor (trust: Trust, keyId: string)
      ensures Valid() && added == [] && plan == None && this.trust == trust && this.keyId == keyId
    {
      this.trust, this.keyId := trust, keyId;
      plan, records, seenDigests, spool, added := None, [], {}, map[], [];
    }

    method AddPlan(planBytes: Bytes, sigBytes: Bytes) returns (r: Result<(), BuildError>)
      requires Valid()
      modifies this`plan
      ensures Valid()
      ensures r.Ok? <==> trust.codec.parsePlan(planBytes).Some?
      ensures r.Ok? ==> var p := trust.codec.parsePlan(planBytes).value;
                plan == Some(Parts(planBytes, sigBytes, p.planId, p.envId))
      ensures r.Err? ==> plan == old(plan)
    {
      var parsed := trust.codec.parsePlan(planBytes);
      if parsed.None? {
        return Err(BuildError.PlanJson);
      }
      plan := Some(Parts(planBytes, sigBytes, parsed.value.planId, parsed.value.envId));
      return Ok(());
    }

    /** Accepts each digest once, and only with bytes that hash to it. */
    method AddBlob(b: Blob) returns (r: Result<(), BuildError>)
      requires Valid()
      modifies this`records, this`seenDigests, this`spool, this`added
      ensures Valid()
      ensures r.Ok? <==> BlobFits(trust, b) && forall o | o in old(added) :: o.digest != b.digest
      ensures added == if r.Ok? then old(added) + [b] else old(added)
    {
      if !WellFormed(b.digest) {
        return Err(MalformedBlobDigest);
      }
      if trust.codec.sha256(b.bytes) != HexOf(b.digest) {
        return Err(BlobDigestMismatch);
      }
      if b.digest in seenDigests {
        return Err(DuplicateBlob);
      }
      AddedKeepsTrack(trust, added, records, seenDigests, spool, b);
      seenDigests := seenDigests + {b.digest};
      spool := spool[DirName(HexOf(b.digest)) := b.bytes];
      records := records + [RecordOf(b)];
      added := added + [b];
      return Ok(());
    }

    /** Reads the spooled bodies back; `intact` when each still has its recorded size. */
    method ReadSpool() returns (bodies: seq<Bytes>, intact: bool)
      requires Valid()
      ensures |bodies| == |records| == |added|
      ensures HexesDistinct(added) ==> intact && bodies == Bodies(added)
    {
      bodies, intact := [], true;
      for i := 0 to |records|
        invariant |bodies| == i
        invariant HexesDistinct(added) ==> intact && forall j | 0 <= j < i :: bodies[j] == added[j].bytes
      {
        var body := spool[records[i].dirName];
        bodies := bodies + [body];
        intact := intact && |body| == records[i].size;
      }
    }

    /** Assembles the archive from the plan and the spooled blobs. */
    method Finish(now: nat, overhead: nat -> nat, trailer: nat)
      returns (r: Result<(EnvelopeManifest, Archive), BuildError>)
      requires Valid()
      ensures r.Ok? <==> plan.Some?
      ensures r.Ok? ==> var c := Recipe(plan.value, added, keyId, now, overhead, trailer);
                r.value.0 == BuiltManifest(trust, c) && MadeFrom(trust, c, r.value.1)
      ensures r.Ok? ==> Lists(trust, r.value.0, plan.value, added, now)
    {
      if plan.None? {
        return Err(NoPlan);
      }
      var p := plan.value;
      var manifest := ManifestFor(trust, p, records, now);
      ManifestLists(trust, p, added, now);
      var bodies, intact := ReadSpool();
      AssembledNames(trust, p, added, bodies, keyId, now, overhead, trailer, intact);
      return Ok((manifest, Assemble(trust, p, records, bodies, keyId, now, overhead, trailer, intact)));
    }
  }

  /** A manifest of this plan, that lists the plan pair and then each blob with all that was said of it. */
  ghost predicate Lists(t: Trust, m: EnvelopeManifest, p: Parts, blobs: seq<Blob>, now: nat) {
    && m.schema == MANIFEST_SCHEMA_V1 && m.planId == p.planId && m.envId == p.envId && m.createdAt == now
    && |m.entries| == 2 + |blobs|
    && m.entries[0] == ManifestEntry(PLAN_PATH, DigestOf(t.codec.sha256(p.planBytes)), |p.planBytes|, "application/json", None)
    && m.entries[1] == ManifestEntry(PLAN_SIG_PATH, DigestOf(t.codec.sha256(p.sigBytes)), |p.sigBytes|, "application/json", None)
    && forall i | 0 <= i < |blobs| :: ListsBlob(m.entries[i + 2], blobs[i])
  }

  predicate ListsBlob(me: ManifestEntry, b: Blob) {
    && WellFormed(b.digest) && me.path == BlobPath(HexOf(b.digest)) && me.digest == b.digest && me.size == |b.bytes|
    && me.mediaType == b.mediaType && me.target == b.target
  }

  lemma {:induction false} ManifestLists(t: Trust, p: Parts, blobs: seq<Blob>, now: nat)
    requires AllFit(t, blobs)
    ensures Lists(t, ManifestFor(t, p, Records(t, blobs), now), p, blobs, now)
  {
    var records := Records(t, blobs);
    var m := ManifestFor(t, p, records, now);
    assert m.entries == PlanEntries(t, p) + RecordEntries(records);
    forall i | 0 <= i < |blobs| ensures ListsBlob(m.entries[i + 2], blobs[i]) {
      assert BlobFits(t, blobs[i]) && records[i] == RecordOf(blobs[i]);
      assert m.entries[i + 2] == RecordEntries(records)[i];
    }
  }

  lemma {:induction false} BlobNames(records: seq<BlobRecord>, bodies: seq<Bytes>, overhead: nat -> nat)
    requires |bodies| == |records|
    ensures forall i | 0 <= i < |records| ::
              Name(BlobEntries(records, bodies, overhead)[i]) == BLOBS_PREFIX + records[i].dirName
  {
    forall i | 0 <= i < |records|
      ensures Name(BlobEntries(records, bodies, overhead)[i]) == BLOBS_PREFIX + records[i].dirName
    {
      var path := BLOBS_PREFIX + records[i].dirName;
      assert path[0] == 'b';
    }
  }

  lemma {:induction false} AssembledNames(t: Trust, p: Parts, blobs: seq<Blob>, bodies: seq<Bytes>, keyId: string, now: nat,
                                          overhead: nat -> nat, trailer: nat, intact: bool)
    requires AllFit(t, blobs)
    requires |bodies| == |blobs|
    ensures NamedAfter(Assemble(t, p, Records(t, blobs), bodies, keyId, now, overhead, trailer, intact), blobs)
  {
    BlobNames(Records(t, blobs), bodies, overhead);
  }

  lemma {:induction false} SpoolStep(t: Trust, added: seq<Blob>, records: seq<BlobRecord>, spool: map<string, Bytes>, b: Blob)
    requires AllFit(t, added)
    requires records == Records(t, added) && BlobFits(t, b)
    requires HexesDistinct(added) ==>
               forall i | 0 <= i < |added| :: records[i].dirName in spool && spool[records[i].dirName] == added[i].bytes
    ensures Records(t, added + [b]) == records + [RecordOf(b)]
    ensures HexesDistinct(added + [b]) ==> HexesDistinct(added)
    ensures HexesDistinct(added + [b]) ==> forall i | 0 <= i < |added| ::
              records[i].dirName in spool && spool[DirName(HexOf(b.digest)) := b.bytes][records[i].dirName] == added[i].bytes
  {
    var all := added + [b];
    if HexesDistinct(all) {
      forall i, j | 0 <= i < j < |added| ensures !SameHex(added[i], added[j]) {
        assert !SameHex(all[i], all[j]);
      }
      forall i | 0 <= i < |added| ensures records[i].dirName != DirName(HexOf(b.digest)) {
        assert !SameHex(all[i], all[|added|]);
        if records[i].dirName == DirName(HexOf(b.digest)) {
          DirNameInjective(HexOf(added[i].digest), HexOf(b.digest));
          assert false;
        }
      }
    }
  }

  lemma {:induction false} AddedKeepsTrack(t: Trust, added: seq<Blob>, records: seq<BlobRecord>, seen: set<string>,
                                           spool: map<string, Bytes>, b: Blob)
    requires KeepsTrack(t, added, records, seen, spool) && BlobFits(t, b) && b.digest !in seen
    ensures KeepsTrack(t, added + [b], records + [RecordOf(b)], seen + {b.digest},
                       spool[DirName(HexOf(b.digest)) := b.bytes])
  {
    SpoolStep(t, added, records, spool, b);
    var all := added + [b];
    assert AllFit(t, all);
    forall i, j | 0 <= i < j < |all| ensures all[i].digest != all[j].digest {
      assert all[i] in added;
    }
  }

  // ---- Scanning what was built -----------------------------------------------------------------

  /** The trust root accepts what this key signs, and JSON and hex encodings are faithful. */
  ghost predicate Faithful(t: Trust, keyId: string) {
    && (forall st: Statement :: t.codec.dsse(t.codec.sign(st, keyId), st.subject).Some?)
    && (forall st: Statement :: t.codec.dsse(t.codec.sign(st, keyId), st.subject).Some? ==>
          t.codec.dsse(t.codec.sign(st, keyId), st.subject).value.statement == st)
    && (forall m: EnvelopeManifest {:trigger t.encodeManifest(m)} :: t.parseManifest(t.encodeManifest(m)) == Some(m))
    && (forall b: Bytes :: IsLowerHex64(t.codec.sha256(b)))
  }

  /** Limits and disk space that this archive stays within. */
  ghost predicate Roomy(t: Trust, lim: ScanLimits, available: nat, m: EnvelopeManifest, a: Archive) {
    && |a.entries| >= 4 && |a.entries| <= lim.maxEntryCount
    && (forall i | 0 <= i < |a.entries| :: a.entries[i].size <= lim.maxEntryBytes)
    && a.entries[0].size <= lim.maxManifestBytes && a.entries[1].size <= lim.maxManifestBytes
    && DeclaredTotal(m.entries) % U64 <= available
    && Cost(a.entries) < lim.maxTotalBytes && Cost(a.entries) + a.trailer <= lim.maxTotalBytes
  }

  /** The verified plan names every blob, in lowercase. */
  predicate AllReferenced(digests: set<string>, blobs: seq<Blob>) {
    forall i | 0 <= i < |blobs| :: WellFormed(blobs[i].digest) ==> DigestOf(HexOf(blobs[i].digest)) in digests
  }

  /** Blobs with distinct hexes, all of them named by a plan that verifies. */
  predicate Clean(t: Trust, c: Recipe) {
    var verified := VerifyUpdatePlan(t.codec, c.parts.planBytes, c.parts.sigBytes);
    HexesDistinct(c.blobs) && verified.Ok? && AllReferenced(PlanDigests(verified.value.plan), c.blobs)
  }

  predicate PathsDistinct(entries: seq<ManifestEntry>) {
    forall i, j | 0 <= i < j < |entries| :: entries[i].path != entries[j].path
  }

  lemma {:induction false} LastEntryUnique(entries: seq<ManifestEntry>, k: nat)
    requires k < |entries|
    requires PathsDistinct(entries)
    ensures LastEntry(entries, entries[k].path) == Some(entries[k])
  {
    var n := |entries| - 1;
    if k < n {
      var init := entries[..n];
      assert init[k] == entries[k] && entries[k].path != entries[n].path;
      LastEntryUnique(init, k);
    }
  }

  lemma {:induction false} BlobEntryAt(t: Trust, c: Recipe, i: nat)
    requires AllFit(t, c.blobs)
    requires i < |c.blobs|
    ensures var a := Built(t, c);
      var m := BuiltManifest(t, c);
      && |a.entries| == 4 + |c.blobs| && |m.entries| == 2 + |c.blobs|
      && Name(a.entries[i + 4]) == BlobPath(HexOf(c.blobs[i].digest)) == m.entries[i + 2].path
      && a.entries[i + 4].body == Extracted(a.entries[i + 4]) == c.blobs[i].bytes && a.entries[i + 4].regular
      && m.entries[i + 2].digest == c.blobs[i].digest && m.entries[i + 2].size == |c.blobs[i].bytes|
      && IsBlobPath(Name(a.entries[i + 4])) && BlobHex(Name(a.entries[i + 4])) == HexOf(c.blobs[i].digest)
  {
    BlobNames(Records(t, c.blobs), Bodies(c.blobs), c.overhead);
    BlobPathOfHex(HexOf(c.blobs[i].digest));
  }

  lemma {:induction false} HeadAt(t: Trust, c: Recipe)
    requires AllFit(t, c.blobs)
    ensures var a := Built(t, c);
      var m := BuiltManifest(t, c);
      && |a.entries| == 4 + |c.blobs| && |m.entries| == 2 + |c.blobs|
      && HeadNames(a.entries)
      && (forall i | 0 <= i < 4 :: a.entries[i].regular)
      && a.entries[0].body == t.encodeManifest(m) && a.entries[1].body == SignatureFor(t, m, c.keyId)
      && a.entries[2].body == Extracted(a.entries[2]) == c.parts.planBytes && a.entries[2].size == |c.parts.planBytes|
      && a.entries[3].body == Extracted(a.entries[3]) == c.parts.sigBytes && a.entries[3].size == |c.parts.sigBytes|
      && m.entries[0] == PlanEntries(t, c.parts)[0] && m.entries[1] == PlanEntries(t, c.parts)[1]
  {
    assert MANIFEST_PATH[0] == 'm' && MANIFEST_SIG_PATH[0] == 'm' && PLAN_PATH[0] == 'p' && PLAN_SIG_PATH[0] == 'p';
  }

  lemma {:induction false} BuiltManifestReads(t: Trust, c: Recipe)
    requires AllFit(t, c.blobs)
    requires Faithful(t, c.keyId)
    ensures var a := Built(t, c);
      Manifest(t, a.entries) == Some(BuiltManifest(t, c))
  {
    HeadAt(t, c);
    var m := BuiltManifest(t, c);
    var st := Statement(t.codec.sha256(t.encodeManifest(m)), MANIFEST_SCHEMA_V1, None);
    assert t.codec.dsse(t.codec.sign(st, c.keyId), st.subject).value.statement == st;
  }

  lemma {:induction false} ListedBlobPath(t: Trust, c: Recipe, k: nat)
    requires AllFit(t, c.blobs) && 2 <= k < 2 + |c.blobs|
    ensures |BuiltManifest(t, c).entries| == 2 + |c.blobs|
    ensures IsBlobPath(BuiltManifest(t, c).entries[k].path)
    ensures BlobHex(BuiltManifest(t, c).entries[k].path) == HexOf(c.blobs[k - 2].digest)
  {
    BlobPathOfHex(HexOf(c.blobs[k - 2].digest));
  }

  lemma {:induction false} ListedPlanPath(t: Trust, c: Recipe, k: nat)
    requires AllFit(t, c.blobs) && k < 2
    ensures |BuiltManifest(t, c).entries| == 2 + |c.blobs|
    ensures BuiltManifest(t, c).entries[k].path == if k == 0 then PLAN_PATH else PLAN_SIG_PATH
    ensures !IsBlobPath(BuiltManifest(t, c).entries[k].path) && PLAN_PATH != PLAN_SIG_PATH
  {
    FixedPaths();
  }

  lemma {:induction false} ManifestPathsDistinct(t: Trust, c: Recipe)
    requires AllFit(t, c.blobs)
    requires HexesDistinct(c.blobs)
    ensures PathsDistinct(BuiltManifest(t, c).entries)
  {
    var es := BuiltManifest(t, c).entries;
    forall i, j | 0 <= i < j < |es| ensures es[i].path != es[j].path {
      if i < 2 { ListedPlanPath(t, c, i); } else { ListedBlobPath(t, c, i); }
      if j < 2 { ListedPlanPath(t, c, j); } else { ListedBlobPath(t, c, j); }
      if i >= 2 { assert !SameHex(c.blobs[i - 2], c.blobs[j - 2]); }
    }
  }

  lemma {:induction false} BlobIsListed(t: Trust, c: Recipe, j: nat)
    requires AllFit(t, c.blobs)
    requires HexesDistinct(c.blobs) && j < |c.blobs|
    ensures |Built(t, c).entries| == 4 + |c.blobs|
    ensures ListedAs(t, BuiltManifest(t, c), Built(t, c).entries[j + 4])
  {
    BlobMatches(t, c, j);
    var m, k: nat, e := BuiltManifest(t, c), j + 2, Built(t, c).entries[j + 4];
    assert PathsDistinct(m.entries) by { ManifestPathsDistinct(t, c); }
    ListedByPath(t, m, k, e);
  }

  lemma {:induction false} ListedByPath(t: Trust, m: EnvelopeManifest, k: nat, e: TarEntry)
    requires k < |m.entries| && m.entries[k].path == Name(e) && MatchesEntry(t, m.entries[k], Extracted(e))
    requires PathsDistinct(m.entries)
    ensures ListedAs(t, m, e)
  {
    LastEntryUnique(m.entries, k);
  }

  lemma {:induction false} BlobMatches(t: Trust, c: Recipe, j: nat)
    requires AllFit(t, c.blobs) && j < |c.blobs|
    ensures |Built(t, c).entries| == 4 + |c.blobs| && |BuiltManifest(t, c).entries| == 2 + |c.blobs|
    ensures var me, e := BuiltManifest(t, c).entries[j + 2], Built(t, c).entries[j + 4];
      me.path == Name(e) && MatchesEntry(t, me, Extracted(e))
  {
    BlobEntryAt(t, c, j);
  }

  lemma {:induction false} PlanIsListed(t: Trust, c: Recipe, k: nat)
    requires AllFit(t, c.blobs)
    requires HexesDistinct(c.blobs) && Faithful(t, c.keyId) && k < 2
    ensures |Built(t, c).entries| == 4 + |c.blobs|
    ensures ListedAs(t, BuiltManifest(t, c), Built(t, c).entries[k + 2])
  {
    HeadAt(t, c);
    CanonicalDigest(t.codec.sha256(c.parts.planBytes));
    CanonicalDigest(t.codec.sha256(c.parts.sigBytes));
    ListedByPath(t, BuiltManifest(t, c), k, Built(t, c).entries[k + 2]) by {
      ManifestPathsDistinct(t, c);
    }
  }

  /** Each entry after the manifest pair is listed as what it is. */
  lemma {:induction false} BuiltIsListed(t: Trust, c: Recipe, i: nat)
    requires AllFit(t, c.blobs)
    requires HexesDistinct(c.blobs) && Faithful(t, c.keyId) && 2 <= i < 4 + |c.blobs|
    ensures |Built(t, c).entries| == 4 + |c.blobs|
    ensures ListedAs(t, BuiltManifest(t, c), Built(t, c).entries[i])
  {
    if i >= 4 {
      var j: nat := i - 4;
      BlobIsListed(t, c, j);
    } else {
      var k: nat := i - 2;
      PlanIsListed(t, c, k);
    }
  }

  /** Main result, one way: what was built from distinct, referenced blobs and a plan that verifies is acceptable. */
  lemma {:induction false} BuiltIsAcceptable(t: Trust, lim: ScanLimits, available: nat, c: Recipe)
    requires AllFit(t, c.blobs)
    requires Clean(t, c) && Faithful(t, c.keyId)
    requires Roomy(t, lim, available, BuiltManifest(t, c), Built(t, c))
    ensures Acceptable(t, lim, available, Built(t, c))
  {
    var a := Built(t, c);
    var es, m := a.entries, BuiltManifest(t, c);
    HeadAt(t, c);
    BuiltManifestReads(t, c);
    BuiltIsListed(t, c, 2);
    BuiltIsListed(t, c, 3);
    BuiltOrdered(t, c);
    var digests := PlanDigests(EnvelopePlan(t, es).value.plan);
    forall i | 4 <= i < |es| ensures EntryOk(t, lim, m, digests, es, i) {
      BuiltIsListed(t, c, i);
      BlobEntryAt(t, c, i - 4);
      assert OrderOk(es, i);
    }
    BuiltComplete(t, c);
  }

  lemma {:induction false} BuiltNameAt(t: Trust, c: Recipe, i: nat)
    requires AllFit(t, c.blobs)
    requires 4 <= i < 4 + |c.blobs|
    ensures var es := Built(t, c).entries;
      |es| == 4 + |c.blobs| && IsBlobPath(Name(es[i])) && BlobHex(Name(es[i])) == HexOf(c.blobs[i - 4].digest)
  {
    BlobEntryAt(t, c, i - 4);
  }

  lemma {:induction false} BuiltHeadNames(t: Trust, c: Recipe)
    requires AllFit(t, c.blobs)
    ensures var es := Built(t, c).entries;
      |es| == 4 + |c.blobs| && HeadNames(es)
  {
    HeadAt(t, c);
  }

  lemma {:induction false} BuiltNamesDiffer(t: Trust, c: Recipe, i: nat, j: nat)
    requires AllFit(t, c.blobs)
    requires HexesDistinct(c.blobs) && 4 <= i < j < 4 + |c.blobs|
    ensures var es := Built(t, c).entries;
      |es| == 4 + |c.blobs| && Name(es[i]) != Name(es[j])
  {
    BuiltNameAt(t, c, i);
    BuiltNameAt(t, c, j);
    assert !SameHex(c.blobs[i - 4], c.blobs[j - 4]);
  }

  lemma {:induction false} BuiltOrdered(t: Trust, c: Recipe)
    requires AllFit(t, c.blobs)
    requires HexesDistinct(c.blobs)
    ensures Ordered(Built(t, c).entries)
  {
    var es := Built(t, c).entries;
    BuiltHeadNames(t, c);
    forall i | 4 <= i < |es| ensures IsBlobPath(Name(es[i])) {
      BuiltNameAt(t, c, i);
    }
    forall i, j | 4 <= i < j < |es| ensures Name(es[i]) != Name(es[j]) {
      BuiltNamesDiffer(t, c, i, j);
    }
    GrammarToOrdered(es, |es|);
  }

  lemma {:induction false} ListedPathAt(t: Trust, c: Recipe, k: nat)
    requires AllFit(t, c.blobs)
    requires k < 2 + |c.blobs|
    ensures var es := Built(t, c).entries;
      var m := BuiltManifest(t, c);
      |es| == 4 + |c.blobs| && |m.entries| == 2 + |c.blobs| && m.entries[k].path == Name(es[k + 2])
  {
    if k >= 2 {
      var i: nat := k - 2;
      BlobEntryAt(t, c, i);
    } else {
      ListedPlanPath(t, c, k);
      BuiltHeadNames(t, c);
    }
  }

  lemma {:induction false} BuiltComplete(t: Trust, c: Recipe)
    requires AllFit(t, c.blobs)
    ensures CompleteFor(BuiltManifest(t, c),
                        Built(t, c).entries)
  {
    var es := Built(t, c).entries;
    var m := BuiltManifest(t, c);
    assert |es| == 4 + |c.blobs| && |m.entries| == 2 + |c.blobs| by {
      HeadAt(t, c);
    }
    forall k | 0 <= k < |m.entries| ensures m.entries[k].path in Names(es) {
      ListedPathAt(t, c, k);
    }
  }

  /** Main result, other way: an acceptable built archive had distinct, referenced blobs and a plan that verifies. */
  lemma {:induction false} AcceptableWasClean(t: Trust, lim: ScanLimits, available: nat, c: Recipe)
    requires AllFit(t, c.blobs)
    requires Acceptable(t, lim, available, Built(t, c))
    ensures Clean(t, c)
  {
    var a := Built(t, c);
    var es := a.entries;
    HeadAt(t, c);
    AcceptableShape(t, lim, available, a);
    forall i, j | 0 <= i < j < |c.blobs| ensures !SameHex(c.blobs[i], c.blobs[j]) {
      BlobEntryAt(t, c, i);
      BlobEntryAt(t, c, j);
      assert Name(es[i + 4]) != Name(es[j + 4]);
    }
    forall i | 0 <= i < |c.blobs|
      ensures DigestOf(HexOf(c.blobs[i].digest)) in PlanDigests(EnvelopePlan(t, es).value.plan)
    {
      BlobEntryAt(t, c, i);
      assert EntryOk(t, lim, Manifest(t, es).value, PlanDigests(EnvelopePlan(t, es).value.plan), es, i + 4);
    }
  }

  /** Digests that differ in letter case only give one path twice, which the scanner refuses. */
  lemma {:induction false} ClashIsRefused(t: Trust, lim: ScanLimits, available: nat, a: Archive, blobs: seq<Blob>)
    requires AllFit(t, blobs)
    requires NamedAfter(a, blobs) && Acceptable(t, lim, available, a)
    ensures HexesDistinct(blobs)
  {
    AcceptableShape(t, lim, available, a);
    forall i, j | 0 <= i < j < |blobs| ensures !SameHex(blobs[i], blobs[j]) {
      assert Name(a.entries[i + 4]) != Name(a.entries[j + 4]);
    }
  }

  /** Main result: of all archives `Builder.Finish` can return, exactly when a scan accepts them. */
  lemma {:induction false} BuildThenScanIff(t: Trust, lim: ScanLimits, available: nat, c: Recipe, a: Archive)
    requires AllFit(t, c.blobs) && MadeFrom(t, c, a)
    requires Faithful(t, c.keyId) && Roomy(t, lim, available, BuiltManifest(t, c), a)
    ensures Acceptable(t, lim, available, a) <==> Clean(t, c)
  {
    if Clean(t, c) {
      BuiltIsAcceptable(t, lim, available, c);
    }
    if Acceptable(t, lim, available, a) {
      ClashIsRefused(t, lim, available, a, c.blobs);
      AcceptableWasClean(t, lim, available, c);
    }
  }

  lemma {:induction false} BuiltNamesDistinct(t: Trust, c: Recipe)
    requires AllFit(t, c.blobs) && HexesDistinct(c.blobs)
    ensures var es := Built(t, c).entries;
      forall j, k | 0 <= j < k < |es| :: Name(es[j]) != Name(es[k])
  {
    var es := Built(t, c).entries;
    BuiltHeadNames(t, c);
    BuiltOrdered(t, c);
    forall j, k | 0 <= j < k < |es| ensures Name(es[j]) != Name(es[k]) {
      if 4 <= k { OrderedDistinct(es, j, k); } else { HeadsDistinct(es, j, k); }
    }
  }

  /** One blob path for each key: the map leads from a blob's digest to its own path. */
  lemma {:induction false} BlobKeyIsOwn(es: seq<TarEntry>, i: nat)
    requires 4 <= i < |es| && IsBlobPath(Name(es[i]))
    ensures var d := DigestOf(BlobHex(Name(es[i])));
      d in BlobsOf(es, |es|) && BlobsOf(es, |es|)[d] == Name(es[i])
  {
    var d := DigestOf(BlobHex(Name(es[i])));
    BlobsOfLookup(es, |es|, d);
    assert BlobUnder(es, i, d);
    var path := BlobsOf(es, |es|)[d];
    BlobPathFacts(path);
    BlobPathFacts(Name(es[i]));
    assert DigestOf(BlobHex(path))[|DIGEST_PREFIX|..] == BlobHex(path);
    assert d[|DIGEST_PREFIX|..] == BlobHex(Name(es[i]));
  }

  predicate FileIs(files: map<string, Bytes>, path: string, bytes: Bytes) {
    path in files && files[path] == bytes
  }

  lemma {:induction false} PlanComesBack(t: Trust, c: Recipe)
    requires AllFit(t, c.blobs) && HexesDistinct(c.blobs)
    ensures var es := Built(t, c).entries;
      FileIs(FilesOf(es, |es|), PLAN_PATH, c.parts.planBytes) && FileIs(FilesOf(es, |es|), PLAN_SIG_PATH, c.parts.sigBytes)
  {
    var es := Built(t, c).entries;
    HeadAt(t, c);
    BuiltNamesDistinct(t, c);
    FilesOfLookup(es, |es|, 2);
    FilesOfLookup(es, |es|, 3);
  }

  lemma {:induction false} BlobComesBack(t: Trust, c: Recipe, i: nat)
    requires AllFit(t, c.blobs) && HexesDistinct(c.blobs) && i < |c.blobs|
    ensures var es := Built(t, c).entries;
      var paths, d := BlobsOf(es, |es|), DigestOf(HexOf(c.blobs[i].digest));
      d in paths && FileIs(FilesOf(es, |es|), paths[d], c.blobs[i].bytes)
  {
    var es := Built(t, c).entries;
    BlobEntryAt(t, c, i);
    BuiltNamesDistinct(t, c);
    FilesOfLookup(es, |es|, i + 4);
    BlobKeyIsOwn(es, i + 4);
  }

  /** What a scan gives back of a built envelope: the plan pair, and at each digest the bytes that were added. */
  lemma {:induction false} BuiltFilesComeBack(t: Trust, c: Recipe, i: nat)
    requires AllFit(t, c.blobs)
    requires HexesDistinct(c.blobs) && i < |c.blobs|
    ensures var es := Built(t, c).entries;
      var paths, files, d := BlobsOf(es, |es|), FilesOf(es, |es|), DigestOf(HexOf(c.blobs[i].digest));
      && d in paths && FileIs(files, paths[d], c.blobs[i].bytes)
      && FileIs(files, PLAN_PATH, c.parts.planBytes) && FileIs(files, PLAN_SIG_PATH, c.parts.sigBytes)
  {
    PlanComesBack(t, c);
    BlobComesBack(t, c, i);
  }

  /** What comes back of a recipe: its manifest, its plan pair, and at each digest exactly the bytes that were added. */
  ghost predicate ComesBack(t: Trust, c: Recipe, got: Scanned)
    requires AllFit(t, c.blobs)
  {
    && got.manifest == BuiltManifest(t, c)
    && FileIs(got.files, PLAN_PATH, c.parts.planBytes) && FileIs(got.files, PLAN_SIG_PATH, c.parts.sigBytes)
    && forall i | 0 <= i < |c.blobs| :: BlobIs(got, DigestOf(HexOf(c.blobs[i].digest)), c.blobs[i].bytes)
  }

  predicate BlobIs(got: Scanned, digest: string, bytes: Bytes) {
    digest in got.blobPaths && FileIs(got.files, got.blobPaths[digest], bytes)
  }

  lemma {:induction false} ScannedComesBack(t: Trust, c: Recipe, got: Scanned)
    requires AllFit(t, c.blobs) && HexesDistinct(c.blobs) && Faithful(t, c.keyId)
    requires |Built(t, c).entries| >= 4 && Manifest(t, Built(t, c).entries) == Some(got.manifest)
    requires got.files == FilesOf(Built(t, c).entries, |Built(t, c).entries|)
    requires got.blobPaths == BlobsOf(Built(t, c).entries, |Built(t, c).entries|)
    ensures ComesBack(t, c, got)
  {
    BuiltManifestReads(t, c);
    PlanComesBack(t, c);
    forall i | 0 <= i < |c.blobs| ensures BlobIs(got, DigestOf(HexOf(c.blobs[i].digest)), c.blobs[i].bytes) {
      BuiltFilesComeBack(t, c, i);
    }
  }

  /**
    Main result: build, then scan, is the identity. Finishing a builder with a plan that verifies and distinct blobs
    it names, and scanning the archive within limits and space, succeeds, whatever way the reads are cut, exactly
    when the ratio holds where it is tested; the scan then has the manifest that was returned and every byte that
    was added.
  */
  method BuildThenScan(b: Builder, lim: ScanLimits, available: nat, now: nat, overhead: nat -> nat, trailer: nat,
                       short: nat -> nat, compressed: nat -> nat)
    returns (built: Result<(EnvelopeManifest, Archive), BuildError>, got: Result<Scanned, ScanError>)
    requires b.Valid() && b.plan.Some? && Faithful(b.trust, b.keyId)
    requires var c := Recipe(b.plan.value, b.added, b.keyId, now, overhead, trailer);
      Clean(b.trust, c) && Roomy(b.trust, lim, available, BuiltManifest(b.trust, c), Built(b.trust, c))
    ensures var c := Recipe(b.plan.value, b.added, b.keyId, now, overhead, trailer);
      && built.Ok? && (got.Ok? <==> RatiosKept(lim, short, compressed, Built(b.trust, c).entries))
      && (got.Ok? ==> got.value.manifest == built.value.0 && ComesBack(b.trust, c, got.value))
    ensures NoBomb(lim, compressed) ==> got.Ok?
  {
    ghost var c := Recipe(b.plan.value, b.added, b.keyId, now, overhead, trailer);
    built := b.Finish(now, overhead, trailer);
    BuiltIsAcceptable(b.trust, lim, available, c);
    got := ScanEnvelope(built.value.1, b.trust, lim, available, short, compressed);
    if got.Ok? {
      ScannedComesBack(b.trust, c, got.value);
    }
    if NoBomb(lim, compressed) {
      NoBombKeepsRatios(lim, short, compressed, Built(b.trust, c).entries);
    }
  }
}
