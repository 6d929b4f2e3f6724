/** The content-addressed store as a map from digests to bytes, and preflight against it (src/staging.rs:943-1164). */
module CasStore {
  import opened Wrappers
  import opened ByteStrings
  import opened Digest
  import opened Plan
  import opened Disk
  import opened Staging
  import opened Operations

  // ---- The store as a map ------------------------------------------------------------------

  function StoreHexes(d: Disk): set<string> {
    set p | p in d && p.top == CAS_DIR && p.place.Named? && DIR_PREFIX <= p.place.name :: p.place.name[|DIR_PREFIX|..]
  }

  /** What the store holds, by the hex of the digest. */
  function Store(d: Disk): map<string, Bytes> {
    map hex | hex in StoreHexes(d) && HasRaw(d, CasPath(hex)) :: d[CasPath(hex)].bytes
  }

  lemma {:induction false} StoreIs(d: Disk, hex: string)
    ensures hex in Store(d) <==> HasRaw(d, CasPath(hex))
  {
    assert DirName(hex)[|DIR_PREFIX|..] == hex;
  }

  lemma {:induction false} SameStore(d: Disk, m: map<string, Bytes>)
    requires forall hex :: hex in m <==> HasRaw(d, CasPath(hex))
    requires forall hex | hex in m :: HasRaw(d, CasPath(hex)) && m[hex] == d[CasPath(hex)].bytes
    ensures Store(d) == m
  {
    forall hex ensures hex in Store(d) <==> hex in m { StoreIs(d, hex); }
  }

  /** The hex that a store path is named after. */
  function StoreKey(p: Path): Option<string> {
    if p.top == CAS_DIR && p.place.Named? && DIR_PREFIX <= p.place.name
    then Some(p.place.name[|DIR_PREFIX|..]) else None
  }

  /** The map after one write: an update, a removal or nothing. */
  function StoreStep(m: map<string, Bytes>, w: Write): map<string, Bytes> {
    match w
    case PutFile(p, Raw(bytes)) => if StoreKey(p).Some? then m[StoreKey(p).value := bytes] else m
    case RemoveFile(p) => if StoreKey(p).Some? then m - {StoreKey(p).value} else m
    case _ => m
  }

  lemma {:induction false} KeyIsPath(p: Path, hex: string)
    ensures StoreKey(p) == Some(hex) <==> p == CasPath(hex)
  {
    assert DirName(hex)[|DIR_PREFIX|..] == hex;
    if StoreKey(p) == Some(hex) { assert p.place.name == DIR_PREFIX + hex; }
  }

  /** Every permitted write does to the store's files what it does to the map; an eviction does nothing to it. */
  lemma {:induction false} WriteRefinesStore(e: Env, d: Disk, w: Write)
    requires MarkersOk(e, d) && WriteOk(e, d, w)
    ensures Store(Exec(d, w)) == StoreStep(Store(d), w)
  {
    var d', m := Exec(d, w), StoreStep(Store(d), w);
    forall hex
      ensures hex in m <==> HasRaw(d', CasPath(hex))
      ensures hex in m ==> m[hex] == d'[CasPath(hex)].bytes
    {
      WriteAtHex(e, d, w, hex);
    }
    SameStore(d', m);
  }

  lemma {:induction false} WriteAtHex(e: Env, d: Disk, w: Write, hex: string)
    requires MarkersOk(e, d) && WriteOk(e, d, w)
    ensures hex in StoreStep(Store(d), w) <==> HasRaw(Exec(d, w), CasPath(hex))
    ensures hex in StoreStep(Store(d), w) ==> StoreStep(Store(d), w)[hex] == Exec(d, w)[CasPath(hex)].bytes
  {
    StoreIs(d, hex);
    InfrastructureNamesDiffer();
    if w.Evict? {
      assert PlanFilesOk(e, d, w.name, MarkerOf(d, w.name));
    }
    if w.PutFile? || w.RemoveFile? { KeyIsPath(w.path, hex); }
  }

  // ---- What each operation makes of the map --------------------------------------------------

  /** Put updates, remove removes, nothing else touches the map. */
  function StoreOp(m: map<string, Bytes>, r: Request): map<string, Bytes> {
    match r
    case CasPut(digest, bytes) => if WellFormed(digest) then m[HexOf(digest) := bytes] else m
    case CasRemove(digest) => if WellFormed(digest) then m - {HexOf(digest)} else m
    case _ => m
  }

  predicate LeavesStore(ws: seq<Write>) {
    forall w | w in ws :: (w.PutFile? ==> StoreKey(w.path).None?) && !w.RemoveFile?
  }

  lemma {:induction false} EvictsLeaveStore(xs: seq<StageState>)
    ensures LeavesStore(EvictWrites(xs))
  {
    if xs != [] { EvictsLeaveStore(xs[1..]); }
  }

  /** Scripts of other operations never touch the store, however far they get. */
  lemma {:induction false} OthersLeaveStore(e: Env, d: Disk, r: Request, target: Probe, out: seq<StageState>, now: nat)
    requires Decide(e, d, r, target, out, now).Some? && !r.CasPut? && !r.CasRemove?
    ensures LeavesStore(Decide(e, d, r, target, out, now).value)
  {
    if r.Retain? { EvictsLeaveStore(Skip(RetentionOrder(out), r.keep)); }
  }

  lemma {:induction false} OneLeftAlone(e: Env, d: Disk, w: Write)
    requires GoodDisk(e, d) && WriteOk(e, d, w) && (w.PutFile? ==> StoreKey(w.path).None?) && !w.RemoveFile?
    ensures Store(Exec(d, w)) == Store(d) && GoodDisk(e, Exec(d, w))
  {
    WriteRefinesStore(e, d, w);
    GoodPreserved(e, d, w);
  }

  lemma {:induction false} ExecPrefix(d: Disk, ws: seq<Write>, k: nat)
    requires 0 < k <= |ws|
    ensures ExecAll(d, ws[..k]) == ExecAll(Exec(d, ws[0]), ws[1..][..k - 1])
  {
    assert ws[..k][0] == ws[0] && ws[..k][1..] == ws[1..][..k - 1];
  }

  lemma {:induction false} LeftAlone(e: Env, d: Disk, ws: seq<Write>, k: nat)
    requires GoodDisk(e, d) && Legal(e, d, ws) && LeavesStore(ws) && k <= |ws|
    ensures Store(ExecAll(d, ws[..k])) == Store(d)
    decreases k
  {
    if k > 0 {
      assert ws[0] in ws && forall w | w in ws[1..] :: w in ws;
      OneLeftAlone(e, d, ws[0]);
      LeftAlone(e, Exec(d, ws[0]), ws[1..], k - 1);
      ExecPrefix(d, ws, k);
    } else {
      assert ws[..0] == [];
    }
  }

  lemma {:induction false} PutRefines(e: Env, d: Disk, digest: string, bytes: Bytes)
    requires MarkersOk(e, d) && CasPutChoice(e, digest, bytes).Some?
    ensures var w := CasPutChoice(e, digest, bytes).value[0];
      Store(Exec(d, w)) == StoreOp(Store(d), Request.CasPut(digest, bytes))
  {
    KeyIsPath(CasPath(HexOf(digest)), HexOf(digest));
    WriteRefinesStore(e, d, CasPutChoice(e, digest, bytes).value[0]);
  }

  lemma {:induction false} RemoveRefines(e: Env, d: Disk, digest: string)
    requires MarkersOk(e, d) && WellFormed(digest)
    ensures Store(Exec(d, RemoveFile(CasPath(HexOf(digest))))) == StoreOp(Store(d), Request.CasRemove(digest))
  {
    KeyIsPath(CasPath(HexOf(digest)), HexOf(digest));
    HashNamesAreSafe(HexOf(digest));
    WriteRefinesStore(e, d, RemoveFile(CasPath(HexOf(digest))));
  }

  /** After `k` writes of what a request decided on, the map is as it was, or as the operation makes it. */
  lemma {:induction false} ScriptRefinesStore(e: Env, d: Disk, r: Request, target: Probe, out: seq<StageState>, now: nat, k: nat)
    requires GoodDisk(e, d) && JsonFaithful(e.codec) && Disciplined(e, d, r) && Informed(e, d, r, target, out)
    requires Decide(e, d, r, target, out, now).Some? && k <= |Decide(e, d, r, target, out, now).value|
    ensures var d' := ExecAll(d, Decide(e, d, r, target, out, now).value[..k]);
      && (Store(d') == Store(d) || Store(d') == StoreOp(Store(d), r))
      && (k == |Decide(e, d, r, target, out, now).value| ==> Store(d') == StoreOp(Store(d), r))
  {
    var ws := Decide(e, d, r, target, out, now).value;
    match r
    case CasPut(digest, bytes) =>
      PutRefines(e, d, digest, bytes);
      OneOrNone(d, ws, k);
    case CasRemove(digest) =>
      RemoveRefines(e, d, digest);
      OneOrNone(d, ws, k);
    case _ =>
      DecideLegal(e, d, r, target, out, now);
      OthersLeaveStore(e, d, r, target, out, now);
      LeftAlone(e, d, ws, k);
  }

  lemma {:induction false} OneOrNone(d: Disk, ws: seq<Write>, k: nat)
    requires |ws| == 1 && k <= 1
    ensures ExecAll(d, ws[..k]) == if k == 0 then d else Exec(d, ws[0])
  {
    if k == 0 {
      assert ws[..0] == [];
    } else {
      ExecPrefix(d, ws, 1);
      assert ws[1..][..0] == [];
    }
  }

  // ---- Presence and listing --------------------------------------------------------------------

  predicate CasHolds(d: Disk, digest: string) {
    WellFormed(digest) && CasPath(HexOf(digest)) in d
  }

  /** File names in the store's directory. */
  function StoreNames(d: Disk): set<string> {
    set p | p in d && p.top == CAS_DIR && p.place.Named? :: p.place.name
  }

  predicate StoreName(name: string) {
    DIR_PREFIX <= name && IsHex64(name[|DIR_PREFIX|..])
  }

  function CanonicalName(name: string): string
    requires StoreName(name)
  {
    DigestOf(ToLower(name[|DIR_PREFIX|..]))
  }

  function Canonical(names: set<string>): set<string> {
    set name | name in names && StoreName(name) :: CanonicalName(name)
  }

  /** A digest is listed exactly if some file is named after 64 hex digits, of either case, that spell it. */
  lemma {:induction false} CanonicalIff(d: Disk, g: string)
    ensures g in Canonical(StoreNames(d)) <==>
              exists hex :: IsHex64(hex) && Path(CAS_DIR, Named(DIR_PREFIX + hex)) in d && g == DIGEST_PREFIX + ToLower(hex)
  {
    if name :| name in StoreNames(d) && StoreName(name) && CanonicalName(name) == g {
      var hex := name[|DIR_PREFIX|..];
      assert name == DIR_PREFIX + hex;
      assert Path(CAS_DIR, Named(DIR_PREFIX + hex)) in d;
    }
    if hex :| IsHex64(hex) && Path(CAS_DIR, Named(DIR_PREFIX + hex)) in d && g == DIGEST_PREFIX + ToLower(hex) {
      var name := DIR_PREFIX + hex;
      assert name[|DIR_PREFIX|..] == hex;
      assert name in StoreNames(d) && StoreName(name) && CanonicalName(name) == g;
    }
  }

  /** SHA-256 comes out as 64 lowercase hex digits. */
  ghost predicate HashesAreHex(e: Env) {
    forall b :: IsLowerHex64(e.codec.sha256(b))
  }

  /** On a good disk the listing is exactly the set of digests the store holds. */
  lemma {:induction false} ListingIsExact(e: Env, d: Disk, hex: string)
    requires BlobsOk(e, d) && HashesAreHex(e)
    ensures DigestOf(hex) in Canonical(StoreNames(d)) <==> hex in Store(d)
  {
    StoreIs(d, hex);
    if CasPath(hex) in d {
      StoredHex(e, d, hex);
      assert DirName(hex)[|DIR_PREFIX|..] == hex;
      LowerIsStable(hex);
      assert DirName(hex) in StoreNames(d) && CanonicalName(DirName(hex)) == DigestOf(hex);
    }
    if DigestOf(hex) in Canonical(StoreNames(d)) {
      var name :| name in StoreNames(d) && StoreName(name) && CanonicalName(name) == DigestOf(hex);
      var file := d[Path(CAS_DIR, Named(name))];
      var sha := e.codec.sha256(file.bytes);
      assert name == DirName(sha) && name[|DIR_PREFIX|..] == sha;
      LowerIsStable(sha);
      assert DigestOf(sha)[|DIGEST_PREFIX|..] == sha && DigestOf(hex)[|DIGEST_PREFIX|..] == hex;
    }
  }

  lemma {:induction false} StoredHex(e: Env, d: Disk, hex: string)
    requires BlobsOk(e, d) && CasPath(hex) in d
    ensures HasRaw(d, CasPath(hex)) && e.codec.sha256(d[CasPath(hex)].bytes) == hex
  {
    DirNameInjective(hex, e.codec.sha256(d[CasPath(hex)].bytes));
  }

  // ---- Wanted and missing digests -------------------------------------------------------------

  function ArtifactDigests(artifacts: seq<PlanArtifact>): seq<string> {
    seq(|artifacts|, i requires 0 <= i < |artifacts| => artifacts[i].digest)
  }

  function BinaryDigests(binaries: seq<BinaryArtifact>): seq<string> {
    seq(|binaries|, i requires 0 <= i < |binaries| => binaries[i].digest)
  }

  function WantedDigests(artifacts: seq<PlanArtifact>, binaries: seq<BinaryArtifact>): seq<string> {
    ArtifactDigests(artifacts) + BinaryDigests(binaries)
  }

  /** What is wanted: the digests of all artifacts and of all binaries. */
  lemma {:induction false} WantedIff(artifacts: seq<PlanArtifact>, binaries: seq<BinaryArtifact>, digest: string)
    ensures digest in WantedDigests(artifacts, binaries) <==>
              (exists a :: a in artifacts && a.digest == digest) || (exists b :: b in binaries && b.digest == digest)
  {
    if a :| a in artifacts && a.digest == digest {
      var i :| 0 <= i < |artifacts| && artifacts[i] == a;
      assert ArtifactDigests(artifacts)[i] == digest;
    }
    if b :| b in binaries && b.digest == digest {
      var i :| 0 <= i < |binaries| && binaries[i] == b;
      assert BinaryDigests(binaries)[i] == digest;
    }
  }

  predicate AllWellFormed(ds: seq<string>) {
    forall g | g in ds :: WellFormed(g)
  }

  predicate Provided(d: Disk, carried: set<string>, digest: string) {
    digest in carried || CasHolds(d, digest)
  }

  function MissingFrom(d: Disk, carried: set<string>, ds: seq<string>): seq<string> {
    if ds == [] then []
    else
      var last := ds[|ds| - 1];
      MissingFrom(d, carried, ds[..|ds| - 1]) + if Provided(d, carried, last) then [] else [last]
  }

  lemma {:induction false} MissingStep(d: Disk, carried: set<string>, ds: seq<string>, i: nat)
    requires i < |ds|
    ensures MissingFrom(d, carried, ds[..i + 1])
            == MissingFrom(d, carried, ds[..i]) + if Provided(d, carried, ds[i]) then [] else [ds[i]]
    ensures AllWellFormed(ds[..i]) && WellFormed(ds[i]) ==> AllWellFormed(ds[..i + 1])
  {
    assert ds[..i + 1] == ds[..i] + [ds[i]];
    assert ds[..i + 1][..i] == ds[..i];
  }

  lemma {:induction false} MissingConcat(d: Disk, carried: set<string>, a: seq<string>, b: seq<string>)
    ensures MissingFrom(d, carried, a + b) == MissingFrom(d, carried, a) + MissingFrom(d, carried, b)
    decreases |b|
  {
    if b == [] {
      assert a + b == a;
    } else {
      var n := |b| - 1;
      assert (a + b)[..|a + b| - 1] == a + b[..n];
      MissingConcat(d, carried, a, b[..n]);
    }
  }

  lemma {:induction false} MissingIsExact(d: Disk, carried: set<string>, ds: seq<string>, digest: string)
    ensures digest in MissingFrom(d, carried, ds) <==> digest in ds && digest !in carried && !CasHolds(d, digest)
  {
    if ds != [] {
      var n := |ds| - 1;
      assert ds == ds[..n] + [ds[n]];
      MissingIsExact(d, carried, ds[..n], digest);
    }
  }

  // ---- Preflight, then puts --------------------------------------------------------------------

  /** What `cas_get` checks: the file is there and its bytes hash to the digest. */
  predicate Fetchable(e: Env, d: Disk, digest: string) {
    && WellFormed(digest) && HexOf(digest) in Store(d)
    && e.codec.sha256(Store(d)[HexOf(digest)]) == HexOf(digest)
  }

  /** On a good disk what is held can be fetched. */
  lemma {:induction false} HeldIsFetchable(e: Env, d: Disk, digest: string)
    requires BlobsOk(e, d)
    ensures Fetchable(e, d, digest) <==> CasHolds(d, digest)
  {
    if WellFormed(digest) {
      StoreIs(d, HexOf(digest));
      if CasHolds(d, digest) { StoredHex(e, d, HexOf(digest)); }
    }
  }

  /** The writes of putting blobs one after the other; a put that fails its hash test writes nothing. */
  function PutWrites(e: Env, blobs: seq<(string, Bytes)>): seq<Write> {
    if blobs == [] then []
    else
      var last := blobs[|blobs| - 1];
      var script := CasPutChoice(e, last.0, last.1);
      PutWrites(e, blobs[..|blobs| - 1]) + if script.Some? then script.value else []
  }

  /** Every blob's bytes hash to its digest. */
  predicate AllAuthentic(e: Env, blobs: seq<(string, Bytes)>) {
    forall b | b in blobs :: ContentHex(e, b.0, b.1).Some?
  }

  /** Putting blobs keeps every blob under its hash, and adds exactly the authentic ones. */
  lemma {:induction false} PutWritesHold(e: Env, d: Disk, blobs: seq<(string, Bytes)>, digest: string)
    requires BlobsOk(e, d)
    ensures BlobsOk(e, ExecAll(d, PutWrites(e, blobs)))
    ensures CasHolds(ExecAll(d, PutWrites(e, blobs)), digest) <==>
              CasHolds(d, digest)
              || (WellFormed(digest) && exists b | b in blobs :: ContentHex(e, b.0, b.1) == Some(HexOf(digest)))
  {
    if blobs != [] {
      var n := |blobs| - 1;
      var init, last := blobs[..n], blobs[n];
      assert blobs == init + [last];
      PutWritesHold(e, d, init, digest);
      var hex := ContentHex(e, last.0, last.1);
      if hex.Some? {
        var w := PutFile(CasPath(hex.value), Raw(last.1));
        ExecAllAppend(d, PutWrites(e, init), w);
        BlobsPreserved(e, ExecAll(d, PutWrites(e, init)), w);
        if WellFormed(digest) && DirName(hex.value) == DirName(HexOf(digest)) {
          DirNameInjective(hex.value, HexOf(digest));
        }
      } else {
        assert PutWrites(e, blobs) == PutWrites(e, init);
      }
    }
  }

  /**
    After a preflight without a missing digest, putting the carried blobs, each of which passes the hash
    test of the put, makes every digest of the plan one that can be fetched.
  */
  lemma {:induction false} PreflightSuffices(e: Env, d: Disk, blobs: seq<(string, Bytes)>, ds: seq<string>, digest: string)
    requires BlobsOk(e, d) && AllAuthentic(e, blobs)
    requires MissingFrom(d, set b | b in blobs :: b.0, ds) == [] && AllWellFormed(ds)
    requires digest in ds
    ensures Fetchable(e, ExecAll(d, PutWrites(e, blobs)), digest)
  {
    MissingIsExact(d, set b | b in blobs :: b.0, ds, digest);
    PutWritesHold(e, d, blobs, digest);
    HeldIsFetchable(e, ExecAll(d, PutWrites(e, blobs)), digest);
  }
}
