/** What vouches for an envelope: two signatures, the manifest's entries, the plan's digests (src/envelope.rs:612-921). */
module Authenticity {
  import opened Wrappers
  import opened ByteStrings
  import opened Digest
  import opened Plan
  import opened Envelope

  /** A trusted signature states the hash of the manifest's bytes, which parse to `m`. */
  ghost predicate SignedManifest(t: Trust, manifest: Bytes, signature: Bytes, m: EnvelopeManifest, keyIds: seq<string>) {
    && t.parseManifest(manifest) == Some(m) && m.schema == MANIFEST_SCHEMA_V1
    && var checked := t.codec.dsse(signature, t.codec.sha256(manifest));
       checked.Some? && checked.value.keyIds == keyIds && checked.value.statement.predicateType == MANIFEST_SCHEMA_V1
  }

  /** The manifest's last entry for the path of `e` declares the hash and the size of what is taken of its body. */
  ghost predicate DeclaredAs(t: Trust, m: EnvelopeManifest, e: TarEntry) {
    exists k :: LastFor(m.entries, Name(e), k)
      && WellFormed(m.entries[k].digest) && t.codec.sha256(Extracted(e)) == HexOf(m.entries[k].digest)
      && |Extracted(e)| == m.entries[k].size
  }

  /** Entry `k` is for this path, and no later one is. */
  predicate LastFor(entries: seq<ManifestEntry>, path: string, k: int) {
    0 <= k < |entries| && entries[k].path == path && forall j | k < j < |entries| :: entries[j].path != path
  }

  predicate InArchive(es: seq<TarEntry>, path: string) {
    exists i | 0 <= i < |es| :: Name(es[i]) == path
  }

  /** The plan names this digest, for an artifact or for a binary. */
  predicate AskedFor(plan: UpdatePlan, digest: string) {
    (exists a :: a in plan.artifacts && a.digest == digest) || (exists b :: b in plan.binaries && b.digest == digest)
  }

  /** Both pairs are signed; archive and manifest agree both ways; every blob is asked for. */
  ghost predicate Vouched(t: Trust, es: seq<TarEntry>, m: EnvelopeManifest, keyIds: seq<string>, v: VerifiedUpdatePlan)
    requires |es| >= 4
  {
    && SignedManifest(t, es[0].body, es[1].body, m, keyIds)
    && SignedPlan(t.codec, es[2].body, es[3].body, v)
    && (forall me | me in m.entries :: InArchive(es, me.path))
    && (forall i | 2 <= i < |es| :: DeclaredAs(t, m, es[i]))
    && (forall i | 4 <= i < |es| && IsBlobPath(Name(es[i])) :: AskedFor(v.plan, DigestOf(BlobHex(Name(es[i])))))
  }

  /** The authenticated manifest is the signed one. */
  lemma {:induction false} ManifestIff(t: Trust, es: seq<TarEntry>, m: EnvelopeManifest)
    requires |es| >= 2
    ensures Manifest(t, es) == Some(m) <==> exists keyIds :: SignedManifest(t, es[0].body, es[1].body, m, keyIds)
  {
    var checked := t.codec.dsse(es[1].body, t.codec.sha256(es[0].body));
    if checked.Some? && Manifest(t, es) == Some(m) {
      assert SignedManifest(t, es[0].body, es[1].body, m, checked.value.keyIds);
    }
  }

  /** A signed manifest's signature is a trusted statement of that manifest's hash. */
  lemma {:induction false} SignatureIsForIt(t: Trust, manifest: Bytes, signature: Bytes, m: EnvelopeManifest, keyIds: seq<string>)
    requires DsseFaithful(t.codec) && SignedManifest(t, manifest, signature, m, keyIds)
    ensures t.codec.dsse(signature, t.codec.sha256(manifest)).value.statement.subject == t.codec.sha256(manifest)
  {}

  lemma {:induction false} LastEntryIff(entries: seq<ManifestEntry>, path: string, me: ManifestEntry)
    ensures LastEntry(entries, path) == Some(me) <==> exists k :: LastFor(entries, path, k) && entries[k] == me
  {
    if LastEntry(entries, path).Some? {
      var k := LastEntryAt(entries, path);
    }
    if k :| LastFor(entries, path, k) && entries[k] == me {
      LastIsFound(entries, path, k);
    }
  }

  lemma {:induction false} LastEntryAt(entries: seq<ManifestEntry>, path: string) returns (k: int)
    requires LastEntry(entries, path).Some?
    ensures LastFor(entries, path, k) && entries[k] == LastEntry(entries, path).value
  {
    var n := |entries| - 1;
    if entries[n].path == path {
      k := n;
    } else {
      k := LastEntryAt(entries[..n], path);
      assert entries[..n][k] == entries[k];
    }
  }

  lemma {:induction false} LastIsFound(entries: seq<ManifestEntry>, path: string, k: int)
    requires LastFor(entries, path, k)
    ensures LastEntry(entries, path) == Some(entries[k])
  {
    var n := |entries| - 1;
    if k < n {
      assert entries[n].path != path;
      assert LastFor(entries[..n], path, k);
      LastIsFound(entries[..n], path, k);
    }
  }

  lemma {:induction false} ListedIff(t: Trust, m: EnvelopeManifest, e: TarEntry)
    ensures ListedAs(t, m, e) <==> DeclaredAs(t, m, e)
  {
    var found := LastEntry(m.entries, Name(e));
    if found.Some? {
      LastEntryIff(m.entries, Name(e), found.value);
    }
    if k :| LastFor(m.entries, Name(e), k) {
      LastEntryIff(m.entries, Name(e), m.entries[k]);
    }
  }

  lemma {:induction false} InNamesIff(es: seq<TarEntry>, path: string)
    ensures path in Names(es) <==> InArchive(es, path)
  {}

  lemma {:induction false} AskedForIff(plan: UpdatePlan, digest: string)
    ensures digest in PlanDigests(plan) <==> AskedFor(plan, digest)
  {}

  lemma {:induction false} AuthenticIff(t: Trust, es: seq<TarEntry>)
    requires |es| >= 4
    ensures Authentic(t, es) <==> exists m, keyIds, v :: Vouched(t, es, m, keyIds, v)
  {
    if Authentic(t, es) {
      var m, v := Manifest(t, es).value, EnvelopePlan(t, es).value;
      ManifestIff(t, es, m);
      var keyIds :| SignedManifest(t, es[0].body, es[1].body, m, keyIds);
      AuthenticIsVouched(t, es, m, keyIds, v);
    }
    if m, keyIds, v :| Vouched(t, es, m, keyIds, v) {
      VouchedIsAuthentic(t, es, m, keyIds, v);
    }
  }

  lemma {:induction false} AuthenticIsVouched(t: Trust, es: seq<TarEntry>, m: EnvelopeManifest, keyIds: seq<string>,
                                              v: VerifiedUpdatePlan)
    requires |es| >= 4 && Authentic(t, es) && Manifest(t, es) == Some(m) && EnvelopePlan(t, es) == Ok(v)
    requires SignedManifest(t, es[0].body, es[1].body, m, keyIds)
    ensures Vouched(t, es, m, keyIds, v)
  {
    VerifyIff(t.codec, es[2].body, es[3].body, v);
    forall me | me in m.entries ensures InArchive(es, me.path) { InNamesIff(es, me.path); }
    forall i | 2 <= i < |es| ensures DeclaredAs(t, m, es[i]) { ListedIff(t, m, es[i]); }
    forall i | 4 <= i < |es| && IsBlobPath(Name(es[i])) ensures AskedFor(v.plan, DigestOf(BlobHex(Name(es[i])))) {
      AskedForIff(v.plan, DigestOf(BlobHex(Name(es[i]))));
    }
  }

  lemma {:induction false} VouchedIsAuthentic(t: Trust, es: seq<TarEntry>, m: EnvelopeManifest, keyIds: seq<string>,
                                              v: VerifiedUpdatePlan)
    requires |es| >= 4 && Vouched(t, es, m, keyIds, v)
    ensures Authentic(t, es)
  {
    ManifestIff(t, es, m);
    VerifyIff(t.codec, es[2].body, es[3].body, v);
    forall me | me in m.entries ensures me.path in Names(es) { InNamesIff(es, me.path); }
    forall i | 2 <= i < |es| ensures ListedAs(t, m, es[i]) { ListedIff(t, m, es[i]); }
    forall i | 4 <= i < |es| && IsBlobPath(Name(es[i])) ensures DigestOf(BlobHex(Name(es[i]))) in PlanDigests(v.plan) {
      AskedForIff(v.plan, DigestOf(BlobHex(Name(es[i]))));
    }
  }

  /** A signed manifest of an acceptable archive vouches for it, with the plan the archive carries. */
  lemma {:induction false} AcceptableIsVouched(t: Trust, lim: ScanLimits, available: nat, a: Archive,
                                               m: EnvelopeManifest, keyIds: seq<string>)
    requires Acceptable(t, lim, available, a) && SignedManifest(t, a.entries[0].body, a.entries[1].body, m, keyIds)
    ensures exists v :: Vouched(t, a.entries, m, keyIds, v)
  {
    AcceptableIsAll(t, lim, available, a);
    ManifestIff(t, a.entries, m);
    AuthenticIsVouched(t, a.entries, m, keyIds, EnvelopePlan(t, a.entries).value);
  }

  /**
    Main result: acceptance is the grammar of names, regular entries, the limits, and content that a signed manifest
    and a signed plan vouch for, and nothing more.
  */
  lemma {:induction false} AcceptableIff(t: Trust, lim: ScanLimits, available: nat, a: Archive)
    ensures Acceptable(t, lim, available, a) <==>
              && WithinLimits(t, lim, available, a) && HeadNames(a.entries) && (exists b :: Grammar(a.entries, b))
              && AllRegular(a.entries) && (exists m, keyIds, v :: Vouched(t, a.entries, m, keyIds, v)) && a.intact
  {
    AcceptableInParts(t, lim, available, a);
    if |a.entries| >= 4 { AuthenticIff(t, a.entries); }
  }
}
