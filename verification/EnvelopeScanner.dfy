/** The streaming scanner under its byte budget (src/envelope.rs:585-932, 1042-1080, 1185-1377). */
module EnvelopeScanner {
  import opened Wrappers
  import opened ByteStrings
  import opened Numbers
  import opened Digest
  import opened Plan
  import opened Envelope
  import opened Authenticity

  datatype ScanError =
    | ArchiveIo | UnexpectedEof | WrongEntryOrder | ForbiddenEntryType | OversizedManifest | Signing
    | WrongPredicateType | Json | WrongSchema | InsufficientSpace | TooManyEntries | OversizedEntry
    | OversizedTotal | DecompressionBomb | SizeMismatch | ExtraEntry | MalformedDigest | TamperedBlob
    | PlanRejected | UnknownPath | DuplicatePath | UnreferencedBlob | MissingEntry

  // ---- The limited source ------------------------------------------------------------------

  /**
    The archive iterator over the limiting reader. `short(k)` bounds the read made after `k`
    bytes were drawn, `compressed(k)` is what the decompressor had consumed by then.
  */
  class Source {
    const budget: nat
    const trailer: nat
    const intact: bool
    const short: nat -> nat
    const compressed: nat -> nat
    var entries: seq<TarEntry>
    /** Bytes of the last body not read yet, which the tar layer passes over before it looks for the next header. */
    var pending: nat
    var drawn: nat
    var remaining: nat

    ghost predicate Valid()
      reads this
    {
      drawn + remaining == budget
    }

    constructor (a: Archive, budget: nat, short: nat -> nat, compressed: nat -> nat)
      ensures Valid() && drawn == 0 && pending == 0 && entries == a.entries && this.budget == budget
      ensures trailer == a.trailer && intact == a.intact && this.compressed == compressed && this.short == short
    {
      this.budget, this.trailer, this.intact := budget, a.trailer, a.intact;
      this.short, this.compressed := short, compressed;
      entries, pending, drawn, remaining := a.entries, 0, 0, budget;
    }

    /** Reads exactly `n` bytes of headers and padding, the end included; a spent budget refuses even to look. */
    method Draw(n: nat) returns (ok: bool)
      requires Valid()
      modifies this`drawn, this`remaining
      ensures Valid() && (ok <==> 0 < old(remaining) && n <= old(remaining)) && drawn >= old(drawn)
      ensures ok ==> drawn == old(drawn) + n
    {
      if remaining == 0 {
        return false;
      }
      var k := Min(n, remaining);
      drawn, remaining := drawn + k, remaining - k;
      ok := k == n;
    }

    /** The next entry, what was left of the last body and its header consumed; None after the end of the archive. */
    method NextEntry() returns (r: Result<Option<TarEntry>, ScanError>)
      requires Valid()
      modifies this
      ensures Valid() && drawn >= old(drawn)
      ensures old(entries) == [] ==> entries == []
      ensures old(entries) == [] ==>
                (r.Ok? <==> intact && old(pending) < old(remaining) && old(pending) + trailer <= old(remaining))
      ensures old(entries) != [] ==>
                (r.Ok? <==> old(pending) < old(remaining) && old(pending) + old(entries)[0].overhead <= old(remaining))
      ensures r.Ok? ==> pending == 0 && if old(entries) == [] then r.value == None && drawn == old(drawn) + old(pending) + trailer
              else r.value == Some(old(entries)[0]) && entries == old(entries)[1..]
                   && drawn == old(drawn) + old(pending) + old(entries)[0].overhead
    {
      if pending > 0 {
        var passed := Draw(pending);
        if !passed {
          return Err(ArchiveIo);
        }
        pending := 0;
      }
      if entries == [] {
        if !intact {
          return Err(ArchiveIo);
        }
        var ended := Draw(trailer);
        return if ended then Ok(None) else Err(ArchiveIo);
      }
      var e := entries[0];
      var ok := Draw(e.overhead);
      if !ok {
        return Err(ArchiveIo);
      }
      entries := entries[1..];
      return Ok(Some(e));
    }

    /** One read of at most `want` of the `left` bytes an entry still has: as short as the source pleases, not empty before the end. */
    method ReadSome(left: nat, want: nat) returns (r: Result<nat, ScanError>)
      requires Valid()
      modifies this`drawn, this`remaining
      ensures Valid()
      ensures r.Err? <==> left > 0 && want > 0 && old(remaining) == 0
      ensures r.Err? ==> drawn == old(drawn)
      ensures r.Ok? ==> r.value <= left && r.value <= want && drawn == old(drawn) + r.value
      ensures r.Ok? ==> r.value == Min(ReadSize(short, old(drawn), left, want), old(remaining))
    {
      if left == 0 || want == 0 {
        return Ok(0);
      }
      if remaining == 0 {
        return Err(ArchiveIo);
      }
      var n := Min(ReadSize(short, drawn, left, want), remaining);
      drawn, remaining := drawn + n, remaining - n;
      return Ok(n);
    }
  }

  /** What a read yields when the budget does not cut it: never nothing while something is left and wanted. */
  function ReadSize(short: nat -> nat, drawn: nat, left: nat, want: nat): nat {
    Min(Min(want, left), Max(1, short(drawn)))
  }

  /** `read_to_end` of an entry body. */
  method ReadBody(src: Source, body: Bytes) returns (r: Result<Bytes, ScanError>)
    requires src.Valid()
    modifies src`drawn, src`remaining
    ensures src.Valid() && src.drawn >= old(src.drawn)
    ensures r.Ok? <==> |body| <= old(src.remaining)
    ensures r.Ok? ==> r.value == body && src.drawn == old(src.drawn) + |body|
  {
    var data: Bytes := [];
    while |data| < |body|
      invariant src.Valid() && |data| <= |body| && data == body[..|data|]
      invariant src.drawn == old(src.drawn) + |data|
    {
      var got := src.ReadSome(|body| - |data|, |body| - |data|);
      if got.Err? {
        return Err(got.error);
      }
      data := body[..|data| + got.value];
    }
    assert body[..|body|] == body;
    return Ok(data);
  }

  const BUFFER: nat := 65536

  // ---- The ratio, where it is tested ---------------------------------------------------------

  /** Whether `total` body bytes are within the ratio once `drawn` bytes were decompressed. */
  type RatioTest = (nat, nat) -> bool

  function Ratio(lim: ScanLimits, compressed: nat -> nat): RatioTest {
    (total: nat, drawn: nat) => RatioOk(lim, total, compressed(drawn))
  }

  /**
    A copy under way: `left` bytes of the body and `toGo` of its header's size remain, `drawn` bytes were decompressed
    and `total` of them taken before.
  */
  datatype Copying = Copying(drawn: nat, left: nat, toGo: nat, total: nat)

  predicate CopyEnds(c: Copying) {
    c.left == 0 || c.toGo == 0
  }

  /** The next read of a copy that the budget does not cut. */
  function NextRead(short: nat -> nat, c: Copying): (n: nat)
    ensures n <= c.left && n <= c.toGo && (n == 0 <==> CopyEnds(c))
  {
    ReadSize(short, c.drawn, c.left, Min(c.toGo, BUFFER))
  }

  function After(c: Copying, n: nat): Copying
    requires n <= c.left && n <= c.toGo
  {
    Copying(c.drawn + n, c.left - n, c.toGo - n, c.total + n)
  }

  /** The ratio holds after every read of a copy. */
  predicate CopyKeeps(ratio: RatioTest, short: nat -> nat, c: Copying)
    decreases c.left
  {
    CopyEnds(c)
    || var next := After(c, NextRead(short, c)); ratio(next.total, next.drawn) && CopyKeeps(ratio, short, next)
  }

  /** The ratio holds wherever it is tested in entry `e`: after each read of a blob, after the whole of another body. */
  predicate EntryKeeps(ratio: RatioTest, short: nat -> nat, e: TarEntry, drawn: nat, total: nat) {
    if IsBlobPath(Name(e)) then CopyKeeps(ratio, short, Copying(drawn, |e.body|, e.size, total))
    else ratio(total + |e.body|, drawn + |e.body|)
  }

  predicate KeepsAt(ratio: RatioTest, short: nat -> nat, es: seq<TarEntry>, i: nat)
    requires i < |es|
  {
    EntryKeeps(ratio, short, es[i], Cost(es[..i]) + es[i].overhead, BodyBytes(es[..i]))
  }

  lemma {:induction false} KeepsHere(ratio: RatioTest, short: nat -> nat, es: seq<TarEntry>, i: nat,
                                     drawn: nat, total: nat)
    requires i < |es| && drawn == Cost(es[..i]) + es[i].overhead && total == BodyBytes(es[..i])
    ensures KeepsAt(ratio, short, es, i) <==> EntryKeeps(ratio, short, es[i], drawn, total)
  {}

  /** The ratio holds after the whole of `e`, when `before` bytes were decompressed before its header. */
  predicate WholeKeeps(ratio: RatioTest, e: TarEntry, before: nat, total: nat) {
    ratio(total + |e.body|, before + e.overhead + |e.body|)
  }

  predicate WholeKeepsAt(ratio: RatioTest, es: seq<TarEntry>, i: nat)
    requires i < |es|
  {
    WholeKeeps(ratio, es[i], Cost(es[..i]), BodyBytes(es[..i]))
  }

  lemma {:induction false} WholeKeepsHere(ratio: RatioTest, short: nat -> nat, es: seq<TarEntry>, i: nat)
    requires i < |es| && !IsBlobPath(Name(es[i]))
    ensures KeepsAt(ratio, short, es, i) <==> WholeKeepsAt(ratio, es, i)
  {}

  predicate PairKeeps(ratio: RatioTest, es: seq<TarEntry>, i: nat)
    requires i + 2 <= |es|
  {
    WholeKeepsAt(ratio, es, i) && WholeKeepsAt(ratio, es, i + 1)
  }

  /** The ratio holds wherever the scan of entries `from` up to `to` tests it. */
  ghost predicate KeepsBetween(ratio: RatioTest, short: nat -> nat, es: seq<TarEntry>, from: nat, to: nat)
    requires to <= |es|
  {
    forall i | from <= i < to :: KeepsAt(ratio, short, es, i)
  }

  /** The ratio holds wherever the scan of these entries tests it. */
  ghost predicate RatiosKept(lim: ScanLimits, short: nat -> nat, compressed: nat -> nat, es: seq<TarEntry>) {
    KeepsBetween(Ratio(lim, compressed), short, es, 0, |es|)
  }

  /** However little is decompressed, and however much of it is taken, the ratio holds. */
  ghost predicate NoBomb(lim: ScanLimits, compressed: nat -> nat) {
    forall k: nat :: RatioOk(lim, k, compressed(k))
  }

  lemma {:induction false} RatioOfLess(lim: ScanLimits, total: nat, drawn: nat, compressed: nat)
    requires total <= drawn && RatioOk(lim, drawn, compressed)
    ensures RatioOk(lim, total, compressed)
  {}

  lemma {:induction false} NoBombKeepsCopy(lim: ScanLimits, short: nat -> nat, compressed: nat -> nat, c: Copying)
    requires NoBomb(lim, compressed) && c.total <= c.drawn
    ensures CopyKeeps(Ratio(lim, compressed), short, c)
    decreases c.left
  {
    if !CopyEnds(c) {
      var next := After(c, NextRead(short, c));
      RatioOfLess(lim, next.total, next.drawn, compressed(next.drawn));
      NoBombKeepsCopy(lim, short, compressed, next);
    }
  }

  /** A stream that never outgrows the ratio keeps it wherever it is tested. */
  lemma {:induction false} NoBombKeepsRatios(lim: ScanLimits, short: nat -> nat, compressed: nat -> nat, es: seq<TarEntry>)
    requires NoBomb(lim, compressed)
    ensures RatiosKept(lim, short, compressed, es)
  {
    forall i | 0 <= i < |es| ensures KeepsAt(Ratio(lim, compressed), short, es, i) {
      var e, drawn, total := es[i], Cost(es[..i]) + es[i].overhead, BodyBytes(es[..i]);
      BodiesWithinCost(es[..i]);
      if IsBlobPath(Name(e)) {
        NoBombKeepsCopy(lim, short, compressed, Copying(drawn, |e.body|, e.size, total));
      } else {
        RatioOfLess(lim, total + |e.body|, drawn + |e.body|, compressed(drawn + |e.body|));
      }
    }
  }

  /** Total and ratio limits after `total` body bytes. */
  method CheckTotalAndRatio(src: Source, lim: ScanLimits, total: nat) returns (r: Result<(), ScanError>)
    requires src.Valid() && total <= src.drawn && src.budget == lim.maxTotalBytes
    ensures r.Ok? <==> Ratio(lim, src.compressed)(total, src.drawn)
    ensures r.Ok? <==> var c := src.compressed(src.drawn); c == 0 || total as real <= lim.maxCompressionRatio * (c as real)
    ensures r.Err? ==> r.error != OversizedTotal
  {
    if total > lim.maxTotalBytes {
      return Err(OversizedTotal);
    }
    var compressed := src.compressed(src.drawn);
    if compressed > 0 && total as real > lim.maxCompressionRatio * (compressed as real) {
      return Err(DecompressionBomb);
    }
    return Ok(());
  }

  /** One read of the copy, checked; nothing is read when the body has ended. */
  method CopyChunk(src: Source, lim: ScanLimits, c: Copying) returns (r: Result<nat, ScanError>)
    requires src.Valid() && c.total <= c.drawn == src.drawn && src.budget == lim.maxTotalBytes && c.toGo > 0
    modifies src`drawn, src`remaining
    ensures src.Valid() && src.drawn >= old(src.drawn)
    ensures r.Ok? ==> r.value <= c.left && r.value <= c.toGo && (r.value == 0 <==> c.left == 0) && src.drawn == c.drawn + r.value
    ensures c.left == 0 ==> r.Ok?
    ensures c.left > 0 && Min(c.left, c.toGo) <= old(src.remaining) ==>
              var next := After(c, NextRead(src.short, c));
              (r.Ok? <==> Ratio(lim, src.compressed)(next.total, next.drawn)) && (r.Ok? ==> r.value == NextRead(src.short, c))
  {
    r := src.ReadSome(c.left, Min(c.toGo, BUFFER));
    if r.Err? || r.value == 0 {
      return;
    }
    var checked := CheckTotalAndRatio(src, lim, c.total + r.value);
    if checked.Err? {
      r := Err(checked.error);
    }
  }

  /**
    The streaming copy of a body up to its header's size: what is hashed and written is exactly what was read, however
    the reads are cut. It succeeds when the budget suffices and the ratio holds after every read, and only then.
  */
  method StreamEntryToFile(src: Source, t: Trust, lim: ScanLimits, body: Bytes, size: nat, total: nat)
    returns (r: Result<(string, nat), ScanError>, file: Bytes, newTotal: nat)
    requires src.Valid() && total <= src.drawn && src.budget == lim.maxTotalBytes
    modifies src`drawn, src`remaining
    ensures src.Valid() && newTotal == total + |file| && newTotal <= src.drawn && file <= body
    ensures r.Ok? <==> Min(|body|, size) <= old(src.remaining)
                       && CopyKeeps(Ratio(lim, src.compressed), src.short, Copying(old(src.drawn), |body|, size, total))
    ensures r.Ok? ==> file == body[..Min(|body|, size)] && r.value == (t.codec.sha256(file), |file|)
                      && src.drawn == old(src.drawn) + |file|
  {
    file, newTotal := [], total;
    var c := Copying(src.drawn, |body|, size, total);
    ghost var ratio, fits := Ratio(lim, src.compressed), Min(|body|, size) <= src.remaining;
    ghost var keeps := CopyKeeps(ratio, src.short, c);
    while true
      invariant src.Valid() && |file| <= Min(|body|, size) && file == body[..|file|]
      invariant newTotal == total + |file| && src.drawn == old(src.drawn) + |file|
      invariant c == Copying(src.drawn, |body| - |file|, size - |file|, newTotal)
      invariant fits ==> (keeps <==> CopyKeeps(ratio, src.short, c))
      decreases c.toGo
    {
      var toRead := Min(c.toGo, BUFFER);
      if toRead == 0 {
        break;
      }
      var got := CopyChunk(src, lim, c);
      if got.Err? {
        return Err(got.error), file, newTotal;
      }
      if got.value == 0 {
        break;
      }
      file := body[..|file| + got.value];
      newTotal := newTotal + got.value;
      c := After(c, got.value);
    }
    return Ok((t.codec.sha256(file), size - c.toGo)), file, newTotal;
  }

  // ---- Checks against the manifest ------------------------------------------------------------

  /** The map that the scanner builds; later entries replace earlier ones. */
  method BuildExpected(entries: seq<ManifestEntry>) returns (expected: map<string, ManifestEntry>)
    ensures forall path :: path in expected <==> LastEntry(entries, path).Some?
    ensures forall path | path in expected :: LastEntry(entries, path) == Some(expected[path])
  {
    expected := map[];
    for i := 0 to |entries|
      invariant forall path :: path in expected <==> LastEntry(entries[..i], path).Some?
      invariant forall path | path in expected :: LastEntry(entries[..i], path) == Some(expected[path])
    {
      assert entries[..i + 1][..i] == entries[..i];
      expected := expected[entries[i].path := entries[i]];
    }
    assert entries[..|entries|] == entries;
  }

  method SumDeclared(entries: seq<ManifestEntry>) returns (sum: nat)
    ensures sum == DeclaredTotal(entries) % U64
  {
    sum := 0;
    for i := 0 to |entries|
      invariant sum == DeclaredTotal(entries[..i]) % U64
    {
      assert entries[..i + 1][..i] == entries[..i];
      ModAdd(DeclaredTotal(entries[..i]), entries[i].size);
      sum := (sum + entries[i].size) % U64;
    }
    assert entries[..|entries|] == entries;
  }

  lemma {:induction false} ModAdd(a: nat, b: nat)
    ensures (a % U64 + b) % U64 == (a + b) % U64
  {
    var q := a / U64;
    assert a + b == a % U64 + b + q * U64;
    ModShift(a % U64 + b, q);
  }

  lemma {:induction false} ModShift(x: nat, q: nat)
    ensures (x + q * U64) % U64 == x % U64
  {
    var y := x + q * U64;
    assert y == (x / U64 + q) * U64 + x % U64;
  }

  method VerifyEntryDigestSize(t: Trust, me: ManifestEntry, data: Bytes) returns (r: Result<(), ScanError>)
    ensures r.Ok? <==> MatchesEntry(t, me, data)
    ensures r.Ok? <==> WellFormed(me.digest) && t.codec.sha256(data) == HexOf(me.digest) && |data| == me.size
  {
    if !WellFormed(me.digest) {
      return Err(MalformedDigest);
    }
    if t.codec.sha256(data) != HexOf(me.digest) {
      return Err(TamperedBlob);
    }
    if |data| != me.size {
      return Err(SizeMismatch);
    }
    return Ok(());
  }

  // ---- The four fixed entries ------------------------------------------------------------------

  /** What a fixed entry must be: the next one, under this name, a regular file whose header is within its limits. */
  predicate FixedFits(es: seq<TarEntry>, name: string, cap: nat, declared: Option<nat>) {
    && es != [] && Name(es[0]) == name && es[0].regular && es[0].size <= cap
    && (declared.Some? ==> es[0].size == declared.value)
  }

  /** Reads the entry that must come next; a declared size is compared with the header before the body is read. */
  method ReadFixed(src: Source, lim: ScanLimits, name: string, cap: nat, declared: Option<nat>, total: nat)
    returns (r: Result<Bytes, ScanError>, newTotal: nat)
    requires src.Valid() && total <= src.drawn && src.budget == lim.maxTotalBytes
    modifies src
    ensures src.Valid() && newTotal <= src.drawn
    ensures var es, before := old(src.entries), old(src.drawn) + old(src.pending);
      r.Ok? <==> (&& FixedFits(es, name, cap, declared) && before < src.budget
                  && before + es[0].overhead + |es[0].body| <= src.budget
                  && WholeKeeps(Ratio(lim, src.compressed), es[0], before, total))
    ensures r.Ok? ==> r.value == old(src.entries)[0].body && src.entries == old(src.entries)[1..] && src.pending == 0
    ensures r.Ok? ==> newTotal == total + |r.value|
    ensures r.Ok? ==> src.drawn == old(src.drawn) + old(src.pending) + old(src.entries)[0].overhead + |r.value|
  {
    newTotal := total;
    var next := src.NextEntry();
    if next.Err? {
      return Err(next.error), total;
    }
    if next.value.None? {
      return Err(UnexpectedEof), total;
    }
    var e := next.value.value;
    if !e.regular {
      return Err(ForbiddenEntryType), total;
    }
    if Name(e) != name {
      return Err(WrongEntryOrder), total;
    }
    if e.size > cap {
      return Err(OversizedEntry), total;
    }
    if declared.Some? && e.size != declared.value {
      return Err(SizeMismatch), total;
    }
    r := ReadBody(src, e.body);
    if r.Err? {
      return;
    }
    newTotal := total + |e.body|;
    var checked := CheckTotalAndRatio(src, lim, newTotal);
    if checked.Err? {
      r := Err(checked.error);
    }
  }

  lemma {:induction false} FixedPathsAreNoBlobs()
    ensures !IsBlobPath(MANIFEST_PATH) && !IsBlobPath(MANIFEST_SIG_PATH) && !IsBlobPath(PLAN_PATH) && !IsBlobPath(PLAN_SIG_PATH)
  {
    FixedPaths();
  }

  /** The source stands after `i` entries of `es`, up to what it still has to pass over. */
  ghost predicate At(src: Source, lim: ScanLimits, es: seq<TarEntry>, i: nat)
    reads src
  {
    && src.Valid() && src.budget == lim.maxTotalBytes
    && i <= |es| && src.entries == es[i..] && src.drawn + src.pending == Cost(es[..i])
  }

  lemma {:induction false} BodiesWithinCost(es: seq<TarEntry>)
    ensures BodyBytes(es) <= Cost(es)
  {
    if es != [] { BodiesWithinCost(es[..|es| - 1]); }
  }

  lemma {:induction false} RoomForNext(es: seq<TarEntry>, i: nat, budget: nat)
    requires i < |es| && Cost(es) < budget
    ensures Cost(es[..i]) + es[i].overhead + |es[i].body| < budget
  {
    CostStep(es, i);
    CostGrows(es, i + 1);
  }

  /** `ReadFixed` at position `i` of the archive. */
  method ReadFixedAt(src: Source, lim: ScanLimits, name: string, cap: nat, declared: Option<nat>, total: nat,
                     ghost es: seq<TarEntry>, ghost i: nat)
    returns (r: Result<Bytes, ScanError>, newTotal: nat)
    requires At(src, lim, es, i) && BodyBytes(es[..i]) == total <= src.drawn && !IsBlobPath(name)
    modifies src
    ensures r.Ok? ==> FixedFits(es[i..], name, cap, declared) && r.value == es[i].body
    ensures r.Ok? ==> WholeKeepsAt(Ratio(lim, src.compressed), es, i)
    ensures r.Ok? ==> At(src, lim, es, i + 1) && BodyBytes(es[..i + 1]) == newTotal <= src.drawn
    ensures Cost(es) < src.budget && FixedFits(es[i..], name, cap, declared) ==>
              WholeKeepsAt(Ratio(lim, src.compressed), es, i) ==> r.Ok?
  {
    if i < |es| {
      CostStep(es, i);
      assert es[i..][0] == es[i] && es[i..][1..] == es[i + 1..];
      if Cost(es) < src.budget { RoomForNext(es, i, src.budget); }
    }
    r, newTotal := ReadFixed(src, lim, name, cap, declared, total);
  }

  datatype Head = Head(manifest: EnvelopeManifest, keyIds: seq<string>)

  /** Entries one and two: the manifest and its signature, verified before anything later is read. */
  method ReadHead(src: Source, t: Trust, lim: ScanLimits, available: nat, ghost es: seq<TarEntry>)
    returns (r: Result<Head, ScanError>, total: nat)
    requires At(src, lim, es, 0)
    modifies src
    ensures r.Ok? ==> HeadOk(t, lim, available, es) && r.value.manifest == Manifest(t, es).value
    ensures r.Ok? ==> SignedManifest(t, es[0].body, es[1].body, r.value.manifest, r.value.keyIds)
    ensures r.Ok? ==> At(src, lim, es, 2) && BodyBytes(es[..2]) == total <= src.drawn
    ensures r.Ok? ==> PairKeeps(Ratio(lim, src.compressed), es, 0)
    ensures HeadOk(t, lim, available, es) && PairKeeps(Ratio(lim, src.compressed), es, 0) && Cost(es) < src.budget ==> r.Ok?
  {
    assert es[..0] == [];
    FixedPathsAreNoBlobs();
    var doc;
    doc, total := ReadFixedAt(src, lim, MANIFEST_PATH, lim.maxManifestBytes, None, 0, es, 0);
    if doc.Err? {
      return Err(doc.error), total;
    }
    var sig;
    sig, total := ReadFixedAt(src, lim, MANIFEST_SIG_PATH, lim.maxManifestBytes, None, total, es, 1);
    if sig.Err? {
      return Err(sig.error), total;
    }
    var checked := t.codec.dsse(sig.value, t.codec.sha256(doc.value));
    if checked.None? {
      return Err(Signing), total;
    }
    if checked.value.statement.predicateType != MANIFEST_SCHEMA_V1 {
      return Err(WrongPredicateType), total;
    }
    var manifest := t.parseManifest(doc.value);
    if manifest.None? {
      return Err(ScanError.Json), total;
    }
    if manifest.value.schema != MANIFEST_SCHEMA_V1 {
      return Err(WrongSchema), total;
    }
    var needed := SumDeclared(manifest.value.entries);
    if available < needed {
      return Err(InsufficientSpace), total;
    }
    r := Ok(Head(manifest.value, checked.value.keyIds));
  }

  /** One of the two plan entries. */
  method ReadPlanEntry(src: Source, t: Trust, lim: ScanLimits, m: EnvelopeManifest, expected: map<string, ManifestEntry>,
                       path: string, total: nat, ghost es: seq<TarEntry>, ghost i: nat)
    returns (r: Result<Bytes, ScanError>, newTotal: nat)
    requires At(src, lim, es, i) && BodyBytes(es[..i]) == total <= src.drawn
    requires ExpectedIs(m, expected) && !IsBlobPath(path)
    modifies src
    ensures r.Ok? ==> i < |es| && PlanEntryOk(t, lim, m, es[i], path) && r.value == es[i].body
    ensures r.Ok? ==> At(src, lim, es, i + 1) && BodyBytes(es[..i + 1]) == newTotal <= src.drawn
    ensures r.Ok? ==> WholeKeepsAt(Ratio(lim, src.compressed), es, i)
    ensures Cost(es) < src.budget && i < |es| && PlanEntryOk(t, lim, m, es[i], path) ==>
              WholeKeepsAt(Ratio(lim, src.compressed), es, i) ==> r.Ok?
  {
    r, newTotal := ReadFixedAt(src, lim, path, lim.maxEntryBytes, if path in expected then Some(expected[path].size) else None,
                               total, es, i);
    if r.Err? {
      return;
    }
    if path !in expected {
      return Err(ExtraEntry), newTotal;
    }
    var verified := VerifyEntryDigestSize(t, expected[path], r.value);
    if verified.Err? {
      r := Err(verified.error);
    }
  }

  ghost predicate ExpectedIs(m: EnvelopeManifest, expected: map<string, ManifestEntry>) {
    && (forall path :: path in expected <==> LastEntry(m.entries, path).Some?)
    && (forall path | path in expected :: LastEntry(m.entries, path) == Some(expected[path]))
  }

  datatype PlanPair = PlanPair(verified: VerifiedUpdatePlan, planBytes: Bytes, sigBytes: Bytes)

  /** Entries three and four: the plan and its signature, verified before any blob is extracted. */
  method ReadPlan(src: Source, t: Trust, lim: ScanLimits, m: EnvelopeManifest, expected: map<string, ManifestEntry>,
                  total: nat, ghost es: seq<TarEntry>)
    returns (r: Result<PlanPair, ScanError>, newTotal: nat)
    requires At(src, lim, es, 2) && BodyBytes(es[..2]) == total <= src.drawn && ExpectedIs(m, expected)
    modifies src
    ensures r.Ok? ==> PlanOk(t, lim, m, es) && Ok(r.value.verified) == EnvelopePlan(t, es)
    ensures r.Ok? ==> r.value.planBytes == es[2].body && r.value.sigBytes == es[3].body
    ensures r.Ok? ==> At(src, lim, es, 4) && BodyBytes(es[..4]) == newTotal <= src.drawn
    ensures r.Ok? ==> PairKeeps(Ratio(lim, src.compressed), es, 2)
    ensures PlanOk(t, lim, m, es) && PairKeeps(Ratio(lim, src.compressed), es, 2) && Cost(es) < src.budget ==> r.Ok?
  {
    newTotal := total;
    FixedPathsAreNoBlobs();
    if lim.maxEntryCount < 4 {
      return Err(TooManyEntries), total;
    }
    var doc;
    doc, newTotal := ReadPlanEntry(src, t, lim, m, expected, PLAN_PATH, total, es, 2);
    if doc.Err? {
      return Err(doc.error), newTotal;
    }
    assert src.Valid();
    var sig;
    sig, newTotal := ReadPlanEntry(src, t, lim, m, expected, PLAN_SIG_PATH, newTotal, es, 3);
    if sig.Err? {
      return Err(sig.error), newTotal;
    }
    assert src.Valid();
    assert src.drawn + src.pending == Cost(es[..4]);
    var plan := VerifyUpdatePlan(t.codec, doc.value, sig.value);
    if plan.Err? {
      return Err(PlanRejected), newTotal;
    }
    r := Ok(PlanPair(plan.value, doc.value, sig.value));
  }

  // ---- Blobs and trust rotation ------------------------------------------------------------------

  /** What is tested of an entry before its body is read, in terms of what the scanner carries along. */
  predicate Admitted(lim: ScanLimits, expected: map<string, ManifestEntry>, digests: set<string>,
                     e: TarEntry, count: nat, seen: set<string>)
  {
    var name := Name(e);
    && count <= lim.maxEntryCount && e.regular && IsAllowed(name) && name !in seen
    && e.size <= lim.maxEntryBytes && name in expected
    && (IsBlobPath(name) ==> TRUST_ROTATION_PATH !in seen && DigestOf(BlobHex(name)) in digests)
    && (name == TRUST_ROTATION_SIG_PATH ==> TRUST_ROTATION_PATH in seen)
  }

  /** What an entry must be. */
  predicate Fits(t: Trust, lim: ScanLimits, expected: map<string, ManifestEntry>, digests: set<string>,
                 e: TarEntry, count: nat, seen: set<string>)
  {
    Admitted(lim, expected, digests, e, count, seen) && MatchesEntry(t, expected[Name(e)], Extracted(e))
  }

  method AdmitEntry(lim: ScanLimits, expected: map<string, ManifestEntry>, digests: set<string>,
                    e: TarEntry, count: nat, seen: set<string>)
    returns (r: Result<(), ScanError>)
    ensures r.Ok? <==> Admitted(lim, expected, digests, e, count, seen)
  {
    if count > lim.maxEntryCount {
      return Err(TooManyEntries);
    }
    var name := Name(e);
    if !e.regular {
      return Err(ForbiddenEntryType);
    }
    ValidatePathIsAllowlist(name);
    if !ValidatePath(name) {
      return Err(UnknownPath);
    }
    if name in seen {
      return Err(DuplicatePath);
    }
    if e.size > lim.maxEntryBytes {
      return Err(OversizedEntry);
    }
    RotationNamesDiffer();
    if IsBlobPath(name) {
      if TRUST_ROTATION_PATH in seen {
        return Err(WrongEntryOrder);
      }
      if name !in expected {
        return Err(ExtraEntry);
      }
      if DigestOf(BlobHex(name)) !in digests {
        return Err(UnreferencedBlob);
      }
    } else {
      if name == TRUST_ROTATION_SIG_PATH && TRUST_ROTATION_PATH !in seen {
        return Err(WrongEntryOrder);
      }
      if name !in expected {
        return Err(ExtraEntry);
      }
    }
    return Ok(());
  }

  /** One entry after the first four, its header already read. */
  method ScanEntry(src: Source, t: Trust, lim: ScanLimits, expected: map<string, ManifestEntry>, digests: set<string>,
                   e: TarEntry, count: nat, seen: set<string>, total: nat)
    returns (r: Result<Bytes, ScanError>, newTotal: nat)
    requires src.Valid() && src.pending == 0 && total <= src.drawn && src.budget == lim.maxTotalBytes
    modifies src`drawn, src`remaining, src`pending
    ensures src.Valid() && newTotal <= src.drawn
    ensures r.Ok? <==> && Fits(t, lim, expected, digests, e, count, seen) && |Extracted(e)| <= old(src.remaining)
                       && EntryKeeps(Ratio(lim, src.compressed), src.short, e, old(src.drawn), total)
    ensures r.Ok? ==> r.value == Extracted(e) && newTotal == total + |Extracted(e)|
    ensures r.Ok? ==> src.drawn + src.pending == old(src.drawn) + |e.body|
  {
    newTotal := total;
    var admitted := AdmitEntry(lim, expected, digests, e, count, seen);
    if admitted.Err? {
      return Err(admitted.error), total;
    }
    if IsBlobPath(Name(e)) {
      r, newTotal := CopyBlob(src, t, lim, expected[Name(e)], e, total);
    } else {
      r, newTotal := ReadRotation(src, t, lim, expected[Name(e)], e.body, total);
    }
  }

  method CopyBlob(src: Source, t: Trust, lim: ScanLimits, me: ManifestEntry, e: TarEntry, total: nat)
    returns (r: Result<Bytes, ScanError>, newTotal: nat)
    requires src.Valid() && src.pending == 0 && total <= src.drawn && src.budget == lim.maxTotalBytes && IsBlobPath(Name(e))
    modifies src`drawn, src`remaining, src`pending
    ensures src.Valid() && newTotal <= src.drawn
    ensures r.Ok? <==> && MatchesEntry(t, me, Extracted(e)) && |Extracted(e)| <= old(src.remaining)
                       && CopyKeeps(Ratio(lim, src.compressed), src.short, Copying(old(src.drawn), |e.body|, e.size, total))
    ensures r.Ok? ==> r.value == Extracted(e) && newTotal == total + |Extracted(e)|
    ensures r.Ok? ==> src.drawn + src.pending == old(src.drawn) + |e.body|
  {
    var copied, file;
    copied, file, newTotal := StreamEntryToFile(src, t, lim, e.body, e.size, total);
    assert Extracted(e) == e.body[..Min(|e.body|, e.size)];
    src.pending := |e.body| - |file|;
    if copied.Err? {
      return Err(copied.error), newTotal;
    }
    var (actual, written) := copied.value;
    if !WellFormed(me.digest) {
      return Err(MalformedDigest), newTotal;
    }
    if actual != HexOf(me.digest) {
      return Err(TamperedBlob), newTotal;
    }
    if written != me.size {
      return Err(SizeMismatch), newTotal;
    }
    r := Ok(file);
  }

  method ReadRotation(src: Source, t: Trust, lim: ScanLimits, me: ManifestEntry, body: Bytes, total: nat)
    returns (r: Result<Bytes, ScanError>, newTotal: nat)
    requires src.Valid() && total <= src.drawn && src.budget == lim.maxTotalBytes
    modifies src`drawn, src`remaining
    ensures src.Valid() && newTotal <= src.drawn
    ensures r.Ok? <==> && MatchesEntry(t, me, body) && |body| <= old(src.remaining)
                       && Ratio(lim, src.compressed)(total + |body|, old(src.drawn) + |body|)
    ensures r.Ok? ==> r.value == body && newTotal == total + |body| && src.drawn == old(src.drawn) + |body|
  {
    newTotal := total;
    r := ReadBody(src, body);
    if r.Err? {
      return;
    }
    newTotal := total + |body|;
    var checked := CheckTotalAndRatio(src, lim, newTotal);
    if checked.Err? {
      return Err(checked.error), newTotal;
    }
    var verified := VerifyEntryDigestSize(t, me, body);
    if verified.Err? {
      r := Err(verified.error);
    }
  }

  lemma {:induction false} FitsIsEntryOk(t: Trust, lim: ScanLimits, m: EnvelopeManifest, expected: map<string, ManifestEntry>,
                                         digests: set<string>, es: seq<TarEntry>, i: nat)
    requires i < |es| && ExpectedIs(m, expected)
    ensures Fits(t, lim, expected, digests, es[i], i + 1, Names(es[..i])) <==> EntryOk(t, lim, m, digests, es, i)
  {}

  // ---- What a scan extracts ---------------------------------------------------------------------

  /** Files in the quarantine directory after `n` entries, by name. */
  function FilesOf(es: seq<TarEntry>, n: nat): map<string, Bytes>
    requires n <= |es|
  {
    if n <= 2 then map[] else FilesOf(es, n - 1)[Name(es[n - 1]) := Extracted(es[n - 1])]
  }

  /** Paths of extracted blobs by digest after `n` entries. */
  function BlobsOf(es: seq<TarEntry>, n: nat): map<string, string>
    requires n <= |es|
  {
    if n <= 4 then map[]
    else
      var name := Name(es[n - 1]);
      if IsBlobPath(name) then BlobsOf(es, n - 1)[DigestOf(BlobHex(name)) := name] else BlobsOf(es, n - 1)
  }

  datatype Scanned = Scanned(manifest: EnvelopeManifest, keyIds: seq<string>, files: map<string, Bytes>,
                             blobPaths: map<string, string>)

  lemma {:induction false} NamesStep(es: seq<TarEntry>, i: nat)
    requires i < |es|
    ensures Names(es[..i + 1]) == Names(es[..i]) + {Name(es[i])}
  {
    forall name ensures name in Names(es[..i + 1]) <==> name in Names(es[..i]) + {Name(es[i])} {
      InNames(es, i + 1, name);
      InNames(es, i, name);
    }
  }

  /** Names seen, files written and blobs recorded after `i` entries. */
  ghost predicate Gathered(es: seq<TarEntry>, i: nat, seen: set<string>, files: map<string, Bytes>,
                           blobPaths: map<string, string>)
    requires i <= |es|
  {
    seen == Names(es[..i]) && files == FilesOf(es, i) && blobPaths == BlobsOf(es, i)
  }

  lemma {:induction false} GatherStep(es: seq<TarEntry>, i: nat, seen: set<string>, files: map<string, Bytes>,
                                      blobPaths: map<string, string>)
    requires 4 <= i < |es| && Gathered(es, i, seen, files, blobPaths)
    ensures var name := Name(es[i]);
      Gathered(es, i + 1, seen + {name}, files[name := Extracted(es[i])],
               if IsBlobPath(name) then blobPaths[DigestOf(BlobHex(name)) := name] else blobPaths)
  {
    NamesStep(es, i);
  }

  /** The next entry after the first four, scanned: its name and what was taken of it, or None at the end. */
  method NextOfTail(src: Source, t: Trust, lim: ScanLimits, m: EnvelopeManifest, expected: map<string, ManifestEntry>,
                    digests: set<string>, count: nat, seen: set<string>, total: nat, ghost es: seq<TarEntry>, ghost i: nat)
    returns (r: Result<Option<(string, Bytes)>, ScanError>, newTotal: nat)
    requires At(src, lim, es, i) && 4 <= i && ExpectedIs(m, expected)
    requires count == i + 1 && seen == Names(es[..i]) && BodyBytes(es[..i]) == total <= src.drawn
    modifies src
    ensures src.Valid() && newTotal <= src.drawn
    ensures i == |es| ==> (r.Ok? <==> src.intact && Cost(es) < src.budget && Cost(es) + src.trailer <= src.budget)
    ensures i == |es| && r.Ok? ==> r.value == None
    ensures i < |es| && r.Ok? ==>
              EntryOk(t, lim, m, digests, es, i) && KeepsAt(Ratio(lim, src.compressed), src.short, es, i)
    ensures i < |es| && r.Ok? ==>
              r.value == Some((Name(es[i]), Extracted(es[i]))) && At(src, lim, es, i + 1) && newTotal == BodyBytes(es[..i + 1])
    ensures i < |es| && r.Err? && Cost(es) < src.budget ==>
              !EntryOk(t, lim, m, digests, es, i) || !KeepsAt(Ratio(lim, src.compressed), src.short, es, i)
  {
    if i == |es| { assert es[..i] == es; }
    var next := src.NextEntry();
    if next.Err? {
      TailStops(es, i, src.budget);
      return Err(next.error), total;
    }
    if next.value.None? {
      return Ok(None), total;
    }
    var e := next.value.value;
    FitsIsEntryOk(t, lim, m, expected, digests, es, i);
    CostStep(es, i);
    CostGrows(es, i + 1);
    KeepsHere(Ratio(lim, src.compressed), src.short, es, i, src.drawn, total);
    var body;
    body, newTotal := ScanEntry(src, t, lim, expected, digests, e, count, seen, total);
    r := if body.Ok? then Ok(Some((Name(e), body.value))) else Err(body.error);
  }

  /** The loop over the remaining entries. */
  method ScanTail(src: Source, t: Trust, lim: ScanLimits, m: EnvelopeManifest, expected: map<string, ManifestEntry>,
                  digests: set<string>, start: nat, files0: map<string, Bytes>, seen0: set<string>, ghost es: seq<TarEntry>)
    returns (r: Result<(map<string, Bytes>, map<string, string>), ScanError>, seen: set<string>, total: nat)
    requires At(src, lim, es, 4) && BodyBytes(es[..4]) == start <= src.drawn && ExpectedIs(m, expected) && |es| >= 4
    requires files0 == FilesOf(es, 4) && seen0 == Names(es[..4])
    modifies src
    ensures src.Valid() && total + src.remaining <= src.budget
    ensures r.Ok? <==> && TailOk(t, lim, m, digests, es, |es|) && KeepsBetween(Ratio(lim, src.compressed), src.short, es, 4, |es|)
                       && src.intact && Cost(es) < src.budget && Cost(es) + src.trailer <= src.budget
    ensures r.Ok? ==> seen == Names(es) && r.value == (FilesOf(es, |es|), BlobsOf(es, |es|))
  {
    var files, blobPaths: map<string, string> := files0, map[];
    seen, total := seen0, start;
    ghost var i: nat := 4;
    var count := 4;
    while true
      invariant 4 <= i <= |es| && count == i && At(src, lim, es, i) && BodyBytes(es[..i]) == total <= src.drawn
      invariant Gathered(es, i, seen, files, blobPaths)
      invariant TailOk(t, lim, m, digests, es, i) && KeepsBetween(Ratio(lim, src.compressed), src.short, es, 4, i)
      decreases |es| - i
    {
      count := count + 1;
      var next;
      next, total := NextOfTail(src, t, lim, m, expected, digests, count, seen, total, es, i);
      if next.Err? {
        return Err(next.error), seen, total;
      }
      if next.value.None? {
        assert es[..i] == es;
        return Ok((files, blobPaths)), seen, total;
      }
      var (name, bytes) := next.value.value;
      TailGrows(t, lim, m, digests, es, i);
      KeepsGrows(Ratio(lim, src.compressed), src.short, es, 4, i);
      GatherStep(es, i, seen, files, blobPaths);
      seen := seen + {name};
      files := files[name := bytes];
      blobPaths := if IsBlobPath(name) then blobPaths[DigestOf(BlobHex(name)) := name] else blobPaths;
      i := i + 1;
    }
  }

  lemma {:induction false} KeepsGrows(ratio: RatioTest, short: nat -> nat, es: seq<TarEntry>, from: nat, i: nat)
    requires i < |es| && KeepsBetween(ratio, short, es, from, i) && KeepsAt(ratio, short, es, i)
    ensures KeepsBetween(ratio, short, es, from, i + 1)
  {}

  lemma {:induction false} TailGrows(t: Trust, lim: ScanLimits, m: EnvelopeManifest, digests: set<string>,
                                     es: seq<TarEntry>, i: nat)
    requires 4 <= i < |es| && TailOk(t, lim, m, digests, es, i) && EntryOk(t, lim, m, digests, es, i)
    ensures TailOk(t, lim, m, digests, es, i + 1)
  {}

  lemma {:induction false} TailStops(es: seq<TarEntry>, i: nat, budget: nat)
    requires i <= |es|
    ensures i < |es| && Cost(es) < budget ==> Cost(es[..i]) + es[i].overhead < budget
    ensures i == |es| ==> es[..i] == es
  {
    if i < |es| && Cost(es) < budget { RoomForNext(es, i, budget); }
  }

  method CheckComplete(m: EnvelopeManifest, seen: set<string>) returns (ok: bool)
    ensures ok <==> forall me | me in m.entries :: me.path in seen
  {
    for i := 0 to |m.entries|
      invariant forall j | 0 <= j < i :: m.entries[j].path in seen
    {
      if m.entries[i].path !in seen {
        return false;
      }
    }
    return true;
  }

  /** What the scan of the first four entries tests. */
  ghost predicate FrontOk(t: Trust, lim: ScanLimits, available: nat, ratio: RatioTest, es: seq<TarEntry>) {
    && HeadOk(t, lim, available, es) && PlanOk(t, lim, Manifest(t, es).value, es)
    && PairKeeps(ratio, es, 0) && PairKeeps(ratio, es, 2)
  }

  /** What the scanner keeps after four entries; `digests` are those that the plan names. */
  datatype Front = Front(manifest: EnvelopeManifest, keyIds: seq<string>, expected: map<string, ManifestEntry>,
                         digests: set<string>, files: map<string, Bytes>, seen: set<string>)

  ghost predicate FrontIs(t: Trust, es: seq<TarEntry>, f: Front)
    requires |es| >= 4
  {
    && Manifest(t, es) == Some(f.manifest) && ExpectedIs(f.manifest, f.expected)
    && EnvelopePlan(t, es).Ok? && f.digests == PlanDigests(EnvelopePlan(t, es).value.plan)
    && SignedManifest(t, es[0].body, es[1].body, f.manifest, f.keyIds)
    && f.files == FilesOf(es, 4) && f.seen == Names(es[..4])
  }

  method ReadFront(src: Source, t: Trust, lim: ScanLimits, available: nat, ghost es: seq<TarEntry>)
    returns (r: Result<Front, ScanError>, total: nat)
    requires At(src, lim, es, 0)
    modifies src
    ensures r.Ok? ==> FrontOk(t, lim, available, Ratio(lim, src.compressed), es) && FrontIs(t, es, r.value)
    ensures r.Ok? ==> At(src, lim, es, 4) && BodyBytes(es[..4]) == total <= src.drawn
    ensures FrontOk(t, lim, available, Ratio(lim, src.compressed), es) && Cost(es) < src.budget ==> r.Ok?
  {
    var head;
    head, total := ReadHead(src, t, lim, available, es);
    if head.Err? {
      return Err(head.error), total;
    }
    var m := head.value.manifest;
    var expected := BuildExpected(m.entries);
    var plan;
    plan, total := ReadPlan(src, t, lim, m, expected, total, es);
    if plan.Err? {
      return Err(plan.error), total;
    }
    var files: map<string, Bytes> := map[];
    files := files[PLAN_PATH := plan.value.planBytes];
    files := files[PLAN_SIG_PATH := plan.value.sigBytes];
    var seen := {} + {MANIFEST_PATH} + {MANIFEST_SIG_PATH} + {PLAN_PATH} + {PLAN_SIG_PATH};
    FirstFourNames(es);
    FirstFourFiles(es);
    r := Ok(Front(m, head.value.keyIds, expected, PlanDigests(plan.value.verified.plan), files, seen));
  }

  /**
    Main result: a scan succeeds exactly on the acceptable archives that keep the compression ratio wherever it is
    tested, and extracts exactly their content. With `NoBombKeepsRatios`, it accepts every acceptable archive whose
    stream never outgrows the ratio.
  */
  method ScanEnvelope(a: Archive, t: Trust, lim: ScanLimits, available: nat, short: nat -> nat, compressed: nat -> nat)
    returns (r: Result<Scanned, ScanError>)
    ensures r.Ok? <==> Acceptable(t, lim, available, a) && RatiosKept(lim, short, compressed, a.entries)
    ensures r.Ok? ==> r.value.manifest == Manifest(t, a.entries).value
    ensures r.Ok? ==> exists v :: Vouched(t, a.entries, r.value.manifest, r.value.keyIds, v)
    ensures |a.entries| >= 2 && (forall m, keyIds :: !SignedManifest(t, a.entries[0].body, a.entries[1].body, m, keyIds)) ==> r.Err?
    ensures r.Ok? ==> r.value.files == FilesOf(a.entries, |a.entries|)
    ensures r.Ok? ==> r.value.blobPaths == BlobsOf(a.entries, |a.entries|)
  {
    ghost var es := a.entries;
    var src := new Source(a, lim.maxTotalBytes, short, compressed);
    assert es[0..] == es && es[..0] == [];
    AcceptedInParts(t, lim, available, short, compressed, a);
    var front, total := ReadFront(src, t, lim, available, es);
    if front.Err? {
      return Err(front.error);
    }
    var Front(m, keyIds, expected, digests, files, seen) := front.value;
    var tail;
    tail, seen, total := ScanTail(src, t, lim, m, expected, digests, total, files, seen, es);
    if tail.Err? {
      return Err(tail.error);
    }
    var complete := CheckComplete(m, seen);
    if !complete {
      return Err(MissingEntry);
    }
    AcceptableIsVouched(t, lim, available, a, m, keyIds);
    return Ok(Scanned(m, keyIds, tail.value.0, tail.value.1));
  }

  /** What the scan of the rest tests. */
  ghost predicate RestOk(t: Trust, lim: ScanLimits, short: nat -> nat, ratio: RatioTest, a: Archive)
    requires |a.entries| >= 4 && Manifest(t, a.entries).Some? && EnvelopePlan(t, a.entries).Ok?
  {
    var es := a.entries;
    && TailOk(t, lim, Manifest(t, es).value, PlanDigests(EnvelopePlan(t, es).value.plan), es, |es|)
    && KeepsBetween(ratio, short, es, 4, |es|)
    && CompleteFor(Manifest(t, es).value, es)
    && a.intact && Cost(es) < lim.maxTotalBytes && Cost(es) + a.trailer <= lim.maxTotalBytes
  }

  lemma {:induction false} AcceptedInParts(t: Trust, lim: ScanLimits, available: nat, short: nat -> nat,
                                           compressed: nat -> nat, a: Archive)
    ensures Acceptable(t, lim, available, a) && RatiosKept(lim, short, compressed, a.entries) <==>
              && FrontOk(t, lim, available, Ratio(lim, compressed), a.entries)
              && RestOk(t, lim, short, Ratio(lim, compressed), a)
  {
    if HeadNames(a.entries) { RatiosKeptInParts(Ratio(lim, compressed), short, a.entries); }
  }

  lemma {:induction false} PairKeepsHere(ratio: RatioTest, short: nat -> nat, es: seq<TarEntry>, i: nat)
    requires i + 2 <= |es| && !IsBlobPath(Name(es[i])) && !IsBlobPath(Name(es[i + 1]))
    ensures PairKeeps(ratio, es, i) <==> KeepsAt(ratio, short, es, i) && KeepsAt(ratio, short, es, i + 1)
  {
    WholeKeepsHere(ratio, short, es, i);
    WholeKeepsHere(ratio, short, es, i + 1);
  }

  lemma {:induction false} HeadsAreNoBlobs(es: seq<TarEntry>, i: nat)
    requires HeadNames(es) && i < 4
    ensures !IsBlobPath(Name(es[i]))
  {
    HeadsAreNotTail(es, i);
  }

  /** The ratio over a whole archive: over its four heads, and over the rest. */
  lemma {:induction false} RatiosInParts(ratio: RatioTest, short: nat -> nat, es: seq<TarEntry>)
    requires |es| >= 4 && forall i | 0 <= i < 4 :: !IsBlobPath(Name(es[i]))
    ensures KeepsBetween(ratio, short, es, 0, |es|) <==>
              PairKeeps(ratio, es, 0) && PairKeeps(ratio, es, 2) && KeepsBetween(ratio, short, es, 4, |es|)
  {
    PairKeepsHere(ratio, short, es, 0);
    PairKeepsHere(ratio, short, es, 2);
  }

  lemma {:induction false} RatiosKeptInParts(ratio: RatioTest, short: nat -> nat, es: seq<TarEntry>)
    requires HeadNames(es)
    ensures KeepsBetween(ratio, short, es, 0, |es|) <==>
              PairKeeps(ratio, es, 0) && PairKeeps(ratio, es, 2) && KeepsBetween(ratio, short, es, 4, |es|)
  {
    forall i | 0 <= i < 4 ensures !IsBlobPath(Name(es[i])) { HeadsAreNoBlobs(es, i); }
    RatiosInParts(ratio, short, es);
  }

  lemma {:induction false} FirstFour(es: seq<TarEntry>)
    requires |es| >= 4
    ensures Names(es[..4]) == {} + {Name(es[0])} + {Name(es[1])} + {Name(es[2])} + {Name(es[3])}
  {
    assert Names(es[..0]) == {};
    assert Names(es[..2]) == {} + {Name(es[0])} + {Name(es[1])} by {
      NamesStep(es, 0);
      NamesStep(es, 1);
    }
    NamesStep(es, 2);
    NamesStep(es, 3);
  }

  lemma {:induction false} FirstFourNames(es: seq<TarEntry>)
    requires HeadNames(es)
    ensures Names(es[..4]) == {} + {MANIFEST_PATH} + {MANIFEST_SIG_PATH} + {PLAN_PATH} + {PLAN_SIG_PATH}
  {
    FirstFour(es);
  }

  lemma {:induction false} FirstFourFiles(es: seq<TarEntry>)
    requires HeadNames(es)
    ensures FilesOf(es, 4) == FilesOf(es, 2)[PLAN_PATH := es[2].body][PLAN_SIG_PATH := es[3].body]
    ensures FilesOf(es, 2) == map[]
  {
    assert FilesOf(es, 3) == FilesOf(es, 2)[PLAN_PATH := es[2].body];
  }

  // ---- Looking things up in the result --------------------------------------------------------------

  /** What is extracted under the name of an entry is what the scanner takes of its body. */
  lemma {:induction false} FilesOfLookup(es: seq<TarEntry>, n: nat, i: nat)
    requires 2 <= i < n <= |es|
    requires forall j, k | 0 <= j < k < |es| :: Name(es[j]) != Name(es[k])
    ensures Name(es[i]) in FilesOf(es, n) && FilesOf(es, n)[Name(es[i])] == Extracted(es[i])
  {
    if i < n - 1 { FilesOfLookup(es, n - 1, i); }
  }

  /** Nothing else is extracted. */
  lemma {:induction false} FilesOfNames(es: seq<TarEntry>, n: nat, name: string)
    requires n <= |es|
    ensures name in FilesOf(es, n) <==> exists i | 2 <= i < n :: Name(es[i]) == name
  {
    if n > 2 { FilesOfNames(es, n - 1, name); }
  }

  predicate BlobUnder(es: seq<TarEntry>, i: int, d: string) {
    0 <= i < |es| && IsBlobPath(Name(es[i])) && DigestOf(BlobHex(Name(es[i]))) == d
  }

  lemma {:induction false} BlobsOfStep(es: seq<TarEntry>, n: nat, d: string)
    requires 4 < n <= |es|
    ensures d in BlobsOf(es, n) <==> BlobUnder(es, n - 1, d) || d in BlobsOf(es, n - 1)
    ensures d in BlobsOf(es, n) ==>
              BlobsOf(es, n)[d] == if BlobUnder(es, n - 1, d) then Name(es[n - 1]) else BlobsOf(es, n - 1)[d]
  {}

  lemma {:induction false} BlobsOfPaths(es: seq<TarEntry>, n: nat, d: string)
    requires n <= |es|
    ensures d in BlobsOf(es, n) ==> IsBlobPath(BlobsOf(es, n)[d]) && d == DigestOf(BlobHex(BlobsOf(es, n)[d]))
  {
    if n > 4 {
      BlobsOfStep(es, n, d);
      BlobsOfPaths(es, n - 1, d);
    }
  }

  /** The blob map has a key exactly for each blob entry, and leads to a blob of that name. */
  lemma {:induction false} BlobsOfLookup(es: seq<TarEntry>, n: nat, d: string)
    requires n <= |es|
    ensures d in BlobsOf(es, n) <==> exists i | 4 <= i < n :: BlobUnder(es, i, d)
    ensures d in BlobsOf(es, n) ==> IsBlobPath(BlobsOf(es, n)[d]) && d == DigestOf(BlobHex(BlobsOf(es, n)[d]))
  {
    BlobsOfPaths(es, n, d);
    BlobsOfKey(es, n, d);
  }

  ghost predicate HasBlob(es: seq<TarEntry>, n: nat, d: string) {
    exists i | 4 <= i < n :: BlobUnder(es, i, d)
  }

  lemma {:induction false} HasBlobStep(es: seq<TarEntry>, n: nat, d: string)
    requires n > 4
    ensures HasBlob(es, n, d) <==> BlobUnder(es, n - 1, d) || HasBlob(es, n - 1, d)
  {}

  lemma {:induction false} BlobsOfKey(es: seq<TarEntry>, n: nat, d: string)
    requires n <= |es|
    ensures d in BlobsOf(es, n) <==> HasBlob(es, n, d)
  {
    if n > 4 {
      BlobsOfStep(es, n, d);
      BlobsOfKey(es, n - 1, d);
      HasBlobStep(es, n, d);
    }
  }
}
