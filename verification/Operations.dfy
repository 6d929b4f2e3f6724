/**
  Each locking operation as the script of writes it decides on from what it read under the
  lock, and the proof that these scripts respect the invariant of the disk.
*/
module Operations {
  import opened Wrappers
  import opened ByteStrings
  import opened Digest
  import opened Plan
  import opened Disk
  import opened Staging

  /** A caller's admission predicate. */
  type Gate = AdmissionFacts -> bool

  datatype Request =
    | Begin(verified: VerifiedUpdatePlan, planBytes: Bytes, sigBytes: Bytes, gate: Option<Gate>)
    | Apply(planId: string, admit: Gate)
    | Move(planId: string, to: Stage)
    | PutBlob(planId: string, kind: BlobKind, digest: string, bytes: Bytes)
    | CasPut(digest: string, bytes: Bytes)
    | CasRemove(digest: string)
    | WriteReceipt(receipt: Bytes, sig: Bytes)
    | Retain(keep: nat)

  // ---- Scripts -----------------------------------------------------------------------

  function BeginState(e: Env, v: VerifiedUpdatePlan, now: nat): StageState {
    StageState(v.plan.planId, e.id, v.plan.sequence, v.planSha256, Downloading, now, now, Some(v.plan.envId))
  }

  function BeginWrites(e: Env, v: VerifiedUpdatePlan, planBytes: Bytes, sigBytes: Bytes, now: nat): seq<Write> {
    var n := v.plan.planId;
    [PutFile(Path(n, PlanJson), Raw(planBytes)), PutFile(Path(n, PlanSig), Raw(sigBytes)),
     PutMarker(n, BeginState(e, v, now), Begun(n)), Append(Begun(n))]
  }

  function BeginChoice(e: Env, d: Disk, v: VerifiedUpdatePlan, planBytes: Bytes, sigBytes: Bytes,
                       gate: Option<Gate>, out: seq<StageState>, now: nat): Option<seq<Write>>
  {
    if !ValidPlanId(v.plan.planId) || !TargetsEnv(v.plan.envId, e.id) then None
    else if ReadState(d, v.plan.planId) != Missing then None
    else if gate.Some? && !gate.value(Facts(out, v.plan.envId)) then None
    else Some(BeginWrites(e, v, planBytes, sigBytes, now))
  }

  /** The committed part of a transition: the new marker, then its audit line. */
  function MoveChoice(d: Disk, n: string, to: Stage, now: nat): Option<seq<Write>> {
    match ReadState(d, n)
    case Found(s) =>
      if !IsValidTransition(s.stage, to) then None
      else Some([PutMarker(n, s.(stage := to, updatedAt := now), Moved(n, s.stage, to)), Append(Moved(n, s.stage, to))])
    case _ => None
  }

  /** `target` is the marker read before the scan, `out` the strict scan. */
  function ApplyChoice(e: Env, d: Disk, n: string, target: Probe, out: seq<StageState>,
                       admit: Gate, now: nat): Option<seq<Write>>
  {
    if !ValidPlanId(n) || !target.Found? || target.state.stage != Staged then None
    else
      var channel := Backfill(e, d, n, target.state).channel.value;
      if AnyApplying(out) || !admit(Facts(out, channel)) then None
      else if PlanOf(e, d, n).None? then None
      else MoveChoice(d, n, Applying, now)
  }

  function EvictWrites(xs: seq<StageState>): seq<Write> {
    if xs == [] then []
    else
      var ev := Evicted(xs[0].planId, xs[0].stage);
      [Evict(xs[0].planId, ev), Append(ev)] + EvictWrites(xs[1..])
  }

  function Skip<T>(xs: seq<T>, n: nat): seq<T> {
    if n <= |xs| then xs[n..] else []
  }

  function RetainWrites(out: seq<StageState>, keep: nat): seq<Write> {
    EvictWrites(Skip(RetentionOrder(out), keep))
  }

  /** The verified hex of `bytes`, when `digest` is well formed and is theirs. */
  function ContentHex(e: Env, digest: string, bytes: Bytes): Option<string> {
    if WellFormed(digest) && e.codec.sha256(bytes) == HexOf(digest) then Some(HexOf(digest)) else None
  }

  function BlobChoice(e: Env, d: Disk, n: string, kind: BlobKind, digest: string, bytes: Bytes): Option<seq<Write>> {
    var hex := ContentHex(e, digest, bytes);
    if hex.None? then None
    else
      match ReadState(d, n)
      case Found(s) =>
        if s.stage != Downloading then None
        else Some([PutFile(Path(n, Blob(kind, DirName(hex.value))), Raw(bytes))])
      case _ => None
  }

  function CasPath(hex: string): Path {
    Path(CAS_DIR, Named(DirName(hex)))
  }

  function CasPutChoice(e: Env, digest: string, bytes: Bytes): Option<seq<Write>> {
    var hex := ContentHex(e, digest, bytes);
    if hex.None? then None else Some([PutFile(CasPath(hex.value), Raw(bytes))])
  }

  function CasRemoveChoice(digest: string): Option<seq<Write>> {
    if WellFormed(digest) then Some([RemoveFile(CasPath(HexOf(digest)))]) else None
  }

  const RECEIPT_PATH := Path(RECEIPT_FILE, Itself)
  const RECEIPT_SIG_PATH := Path(RECEIPT_SIG_FILE, Itself)

  /** The signature first: a receipt never stands without one. */
  function ReceiptWrites(receipt: Bytes, sig: Bytes): seq<Write> {
    [PutFile(RECEIPT_SIG_PATH, Raw(sig)), PutFile(RECEIPT_PATH, Raw(receipt))]
  }

  predicate Scans(r: Request) {
    (r.Begin? && r.gate.Some?) || r.Apply? || r.Retain?
  }

  /** Admission scans are strict, retention's is forgiving. */
  predicate ScansStrictly(r: Request) {
    (r.Begin? && r.gate.Some?) || r.Apply?
  }

  function Decide(e: Env, d: Disk, r: Request, target: Probe, out: seq<StageState>, now: nat): Option<seq<Write>> {
    match r
    case Begin(v, pb, sb, gate) => BeginChoice(e, d, v, pb, sb, gate, out, now)
    case Apply(n, admit) => ApplyChoice(e, d, n, target, out, admit, now)
    case Move(n, to) => MoveChoice(d, n, to, now)
    case PutBlob(n, kind, digest, bytes) => BlobChoice(e, d, n, kind, digest, bytes)
    case CasPut(digest, bytes) => CasPutChoice(e, digest, bytes)
    case CasRemove(digest) => CasRemoveChoice(digest)
    case WriteReceipt(receipt, sig) => Some(ReceiptWrites(receipt, sig))
    case Retain(keep) => Some(RetainWrites(out, keep))
  }

  // ---- What is asked of callers ----------------------------------------------------------

  /** The predicate is at least as strict as `ensure_not_downgrade` for this plan. */
  ghost predicate GuardsDowngrade(admit: Gate, plan: UpdatePlan) {
    forall f | admit(f) :: NotDowngrade(plan.sequence, f.latestAppliedSequence)
  }

  /**
    Callers begin plans they verified, enter `Applying` only through `begin_apply_checked`,
    and refuse downgrades of the staged plan there.
  */
  ghost predicate Disciplined(e: Env, d: Disk, r: Request) {
    match r
    case Begin(v, pb, sb, _) => VerifyUpdatePlan(e.codec, pb, sb) == Ok(v)
    case Apply(n, admit) => PlanOf(e, d, n).Some? ==> GuardsDowngrade(admit, PlanOf(e, d, n).value)
    case Move(_, to) => to != Applying
    case _ => true
  }

  /** What a request knows from its reads is still true of the disk. */
  ghost predicate Informed(e: Env, d: Disk, r: Request, target: Probe, out: seq<StageState>) {
    && (Scans(r) ==> CompleteScan(e, d, ScansStrictly(r), out))
    && (r.Apply? ==> target == ReadState(d, r.planId))
  }

  // ---- Scripts are legal --------------------------------------------------------------------

  lemma {:induction false} LegalOne(e: Env, d: Disk, w: Write)
    requires WriteOk(e, d, w)
    ensures Legal(e, d, [w])
  {
    assert [w][1..] == [];
  }

  lemma {:induction false} LegalCons(e: Env, d: Disk, w: Write, ws: seq<Write>)
    requires WriteOk(e, d, w) && Legal(e, Exec(d, w), ws)
    ensures Legal(e, d, [w] + ws)
  {
    assert ([w] + ws)[1..] == ws;
  }

  lemma {:induction false} LegalWithLine(e: Env, d: Disk, w: Write, ev: AuditEvent)
    requires WriteOk(e, d, w)
    ensures Legal(e, d, [w, Append(ev)])
  {
    LegalOne(e, Exec(d, w), Append(ev));
    LegalCons(e, d, w, [Append(ev)]);
    assert [w] + [Append(ev)] == [w, Append(ev)];
  }

  lemma {:induction false} BeginLegal(e: Env, d: Disk, v: VerifiedUpdatePlan, pb: Bytes, sb: Bytes, gate: Option<Gate>,
                   out: seq<StageState>, now: nat)
    requires GoodDisk(e, d) && VerifyUpdatePlan(e.codec, pb, sb) == Ok(v)
    requires BeginChoice(e, d, v, pb, sb, gate, out, now).Some?
    ensures Legal(e, d, BeginWrites(e, v, pb, sb, now))
  {
    var n := v.plan.planId;
    var ws := BeginWrites(e, v, pb, sb, now);
    var d1 := Exec(d, ws[0]);
    var d2 := Exec(d1, ws[1]);
    assert WriteOk(e, d, ws[0]) && WriteOk(e, d1, ws[1]);
    assert Path(n, StateJson) !in d2;
    assert PlanOf(e, d2, n) == Some(v.plan);
    LegalWithLine(e, d2, ws[2], Begun(n));
    LegalCons(e, d1, ws[1], [ws[2], ws[3]]);
    LegalCons(e, d, ws[0], [ws[1]] + [ws[2], ws[3]]);
    assert ws == [ws[0]] + ([ws[1]] + [ws[2], ws[3]]);
  }

  lemma {:induction false} MoveLegal(e: Env, d: Disk, n: string, to: Stage, now: nat)
    requires GoodDisk(e, d) && MoveChoice(d, n, to, now).Some?
    requires to == Applying ==> HasMarker(d, n) && MayApply(e, d, n)
    ensures Legal(e, d, MoveChoice(d, n, to, now).value)
  {
    var ws := MoveChoice(d, n, to, now).value;
    LegalWithLine(e, d, ws[0], ws[1].event);
  }

  /** The single-flight and downgrade gate: what the scan under the lock allows is allowed by the disk. */
  lemma {:induction false} ApplyLegal(e: Env, d: Disk, n: string, target: Probe, out: seq<StageState>, admit: Gate, now: nat)
    requires GoodDisk(e, d) && JsonFaithful(e.codec)
    requires Disciplined(e, d, Apply(n, admit)) && Informed(e, d, Apply(n, admit), target, out)
    requires ApplyChoice(e, d, n, target, out, admit, now).Some?
    ensures HasMarker(d, n) && MayApply(e, d, n)
    ensures Legal(e, d, ApplyChoice(e, d, n, target, out, admit, now).value)
  {
    GoodProbe(e, d, n);
    assert HasMarker(d, n) && PlanFilesOk(e, d, n, MarkerOf(d, n));
    var channel := Backfill(e, d, n, target.state).channel.value;
    assert channel == ChannelOf(e, d, n);
    ScanWatermark(e, d, true, out, channel);
    ScanApplying(e, d, true, out);
    assert NotDowngrade(MarkerOf(d, n).sequence, Watermark(out, channel));
    MoveLegal(e, d, n, Applying, now);
  }

  /** Removing one plan directory leaves every other marker alone. */
  lemma {:induction false} EvictOther(d: Disk, n: string, ev: AuditEvent, m: string)
    requires m != n && HasMarker(d, m) && ValidPlanId(m)
    ensures var d' := Exec(Exec(d, Evict(n, ev)), Append(ev));
      HasMarker(d', m) && MarkerOf(d', m) == MarkerOf(d, m)
  {
    InfrastructureNamesDiffer();
  }

  ghost predicate Evictable(e: Env, d: Disk, xs: seq<StageState>) {
    && Distinct(xs)
    && forall i | 0 <= i < |xs| ::
         && ValidPlanId(xs[i].planId) && HasMarker(d, xs[i].planId)
         && MarkerOf(d, xs[i].planId).stage == xs[i].stage && IsTerminal(xs[i].stage)
  }

  lemma {:induction false} EvictLegal(e: Env, d: Disk, xs: seq<StageState>)
    requires Evictable(e, d, xs)
    ensures Legal(e, d, EvictWrites(xs))
    decreases |xs|
  {
    if xs != [] {
      var n, rest := xs[0].planId, xs[1..];
      var ev := Evicted(n, xs[0].stage);
      var d1 := Exec(d, Evict(n, ev));
      var d2 := Exec(d1, Append(ev));
      forall i | 0 <= i < |rest|
        ensures HasMarker(d2, rest[i].planId) && MarkerOf(d2, rest[i].planId) == MarkerOf(d, rest[i].planId)
      {
        assert rest[i] == xs[i + 1];
        EvictOther(d, n, ev, rest[i].planId);
      }
      assert Distinct(rest) by {
        forall i, j | 0 <= i < j < |rest| ensures rest[i].planId != rest[j].planId {
          assert xs[i + 1].planId != xs[j + 1].planId;
        }
      }
      EvictLegal(e, d2, rest);
      LegalCons(e, d1, Append(ev), EvictWrites(rest));
      LegalCons(e, d, Evict(n, ev), [Append(ev)] + EvictWrites(rest));
      assert EvictWrites(xs) == [Evict(n, ev)] + ([Append(ev)] + EvictWrites(rest));
    }
  }

  lemma {:induction false} RetentionEvictable(e: Env, d: Disk, out: seq<StageState>, keep: nat)
    requires GoodDisk(e, d) && JsonFaithful(e.codec) && CompleteScan(e, d, false, out)
    ensures Evictable(e, d, Skip(RetentionOrder(out), keep))
  {
    RetentionOrderFacts(out);
    var r := RetentionOrder(out);
    var xs := Skip(r, keep);
    forall i | 0 <= i < |xs|
      ensures ValidPlanId(xs[i].planId) && HasMarker(d, xs[i].planId)
      ensures MarkerOf(d, xs[i].planId).stage == xs[i].stage && IsTerminal(xs[i].stage)
    {
      assert xs[i] == r[keep + i] && r[keep + i] in r;
      var k :| 0 <= k < |out| && out[k] == xs[i];
      assert ProbeEntry(e, d, out[k].planId) == Found(out[k]);
      GoodProbe(e, d, xs[i].planId);
    }
    forall i, j | 0 <= i < j < |xs| ensures xs[i].planId != xs[j].planId {
      assert r[keep + i].planId != r[keep + j].planId;
    }
  }

  /** Whatever a disciplined request decides from true readings keeps the invariant, write by write. */
  lemma {:induction false} DecideLegal(e: Env, d: Disk, r: Request, target: Probe, out: seq<StageState>, now: nat)
    requires GoodDisk(e, d) && JsonFaithful(e.codec)
    requires Disciplined(e, d, r) && Informed(e, d, r, target, out)
    requires Decide(e, d, r, target, out, now).Some?
    ensures Legal(e, d, Decide(e, d, r, target, out, now).value)
  {
    match r
    case Begin(v, pb, sb, gate) => BeginLegal(e, d, v, pb, sb, gate, out, now);
    case Apply(n, admit) => ApplyLegal(e, d, n, target, out, admit, now);
    case Move(n, to) => MoveLegal(e, d, n, to, now);
    case PutBlob(n, kind, digest, bytes) =>
      LegalOne(e, d, BlobChoice(e, d, n, kind, digest, bytes).value[0]);
    case CasPut(digest, bytes) => LegalOne(e, d, CasPutChoice(e, digest, bytes).value[0]);
    case CasRemove(digest) =>
      HashNamesAreSafe(HexOf(digest));
      LegalOne(e, d, CasRemoveChoice(digest).value[0]);
    case WriteReceipt(receipt, sig) => ReceiptLegal(e, d, receipt, sig);
    case Retain(keep) =>
      RetentionEvictable(e, d, out, keep);
      EvictLegal(e, d, Skip(RetentionOrder(out), keep));
  }

  lemma {:induction false} ReceiptLegal(e: Env, d: Disk, receipt: Bytes, sig: Bytes)
    ensures Legal(e, d, ReceiptWrites(receipt, sig))
  {
    var ws := ReceiptWrites(receipt, sig);
    LegalOne(e, Exec(d, ws[0]), ws[1]);
    LegalCons(e, d, ws[0], [ws[1]]);
    assert ws == [ws[0]] + [ws[1]];
  }

  // ---- The ungated transition -----------------------------------------------------------------

  /**
    The public `transition(Applying)` does not look at other plans: from a good disk with one plan
    applying, it takes a second staged plan to `Applying` too. This is why a disciplined caller
    goes through `begin_apply_checked`.
  */
  lemma {:induction false} PlainTransitionBreaksSingleFlightIff(e: Env, d: Disk, n: string, now: nat)
    requires GoodDisk(e, d) && MoveChoice(d, n, Applying, now).Some?
    ensures SingleFlight(ExecAll(d, MoveChoice(d, n, Applying, now).value))
            <==> forall m :: !AtStage(d, m, Applying)
  {
    var ws := MoveChoice(d, n, Applying, now).value;
    var d1 := Exec(d, ws[0]);
    var d2 := Exec(d1, ws[1]);
    ExecTwo(d, ws[0], ws[1]);
    assert ws == [ws[0], ws[1]];
    assert AtStage(d2, n, Applying);
    forall m | m != n ensures AtStage(d2, m, Applying) <==> AtStage(d, m, Applying) {}
  }
}
