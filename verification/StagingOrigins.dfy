/** Where the files beside a marker come from: one begin wrote the pair (src/staging.rs:656-712). */
module StagingOrigins {
  import opened Wrappers
  import opened ByteStrings
  import opened Plan
  import opened Disk
  import opened Staging
  import opened Operations
  import opened StagingRuns

  /** The document and signature that a begin was called with. */
  datatype Pair = Pair(verified: VerifiedUpdatePlan, planBytes: Bytes, sigBytes: Bytes)

  /** Step `j` decides on a begin of plan `n` with this pair. */
  ghost predicate BeginsAt(r: Run, j: nat, n: string, x: Pair) {
    && j < |r.steps| && |r.worlds| == |r.steps| + 1 && r.steps[j].Decided?
    && var pc := PcOf(r.worlds[j], r.steps[j].pid);
       && (pc.Holding? || pc.Scanning?) && pc.req.Begin? && n == x.verified.plan.planId
       && pc.req.verified == x.verified && pc.req.planBytes == x.planBytes && pc.req.sigBytes == x.sigBytes
  }

  predicate HoldsPair(d: Disk, n: string, x: Pair) {
    RawAt(d, Path(n, PlanJson), x.planBytes) && RawAt(d, Path(n, PlanSig), x.sigBytes)
  }

  predicate RawAt(d: Disk, p: Path, bytes: Bytes) {
    p in d && d[p] == Raw(bytes)
  }

  ghost predicate Spared(r: Run, j: nat, i: nat, n: string) {
    forall k: nat | j <= k < i :: !EvictsAt(r, k, n)
  }

  /** The files of `n` at moment `i` are those of the begin decided at step `j`, and `n` was not evicted since. */
  ghost predicate FromBegin(r: Run, j: nat, i: nat, n: string, x: Pair)
    requires i < |r.worlds|
  {
    j < i && BeginsAt(r, j, n, x) && HoldsPair(r.worlds[i].disk, n, x) && Spared(r, j, i, n)
  }

  ghost predicate HasOrigin(r: Run, i: nat, n: string)
    requires i < |r.worlds|
  {
    exists j: nat, x :: FromBegin(r, j, i, n, x)
  }

  // ---- Scripts under way -------------------------------------------------------------------

  predicate NoBegin(ws: seq<Write>) {
    forall w | w in ws :: w.PutMarker? ==> !w.event.Begun?
  }

  /** The rest `ws` of a begin script, `k` writes of which are on disk `d`. */
  predicate BeginTail(e: Env, d: Disk, x: Pair, now: nat, k: nat, ws: seq<Write>) {
    var n := x.verified.plan.planId;
    && k <= 4 && ws == BeginWrites(e, x.verified, x.planBytes, x.sigBytes, now)[k..]
    && (k >= 1 ==> RawAt(d, Path(n, PlanJson), x.planBytes))
    && (k >= 2 ==> RawAt(d, Path(n, PlanSig), x.sigBytes))
  }

  /** A script under way at moment `i` begins no plan, or is that of a begin decided before. */
  ghost predicate ScriptFrom(e: Env, r: Run, i: nat, ws: seq<Write>)
    requires i < |r.worlds|
  {
    NoBegin(ws) || exists j: nat, x, now: nat, k: nat :: BeginUnderWay(e, r, i, ws, j, x, now, k)
  }

  ghost predicate BeginUnderWay(e: Env, r: Run, i: nat, ws: seq<Write>, j: nat, x: Pair, now: nat, k: nat)
    requires i < |r.worlds|
  {
    && j < i && BeginsAt(r, j, x.verified.plan.planId, x) && Spared(r, j, i, x.verified.plan.planId)
    && BeginTail(e, r.worlds[i].disk, x, now, k, ws)
  }

  ghost predicate OriginInv(e: Env, r: Run, i: nat)
    requires i < |r.worlds|
  {
    && (forall n | HasMarker(r.worlds[i].disk, n) :: HasOrigin(r, i, n))
    && forall p: nat | PcOf(r.worlds[i], p).Writing? :: ScriptFrom(e, r, i, PcOf(r.worlds[i], p).script)
  }

  // ---- One step ------------------------------------------------------------------------------

  lemma {:induction false} EvictsBeginNothing(xs: seq<StageState>)
    ensures NoBegin(EvictWrites(xs))
  {
    if xs != [] { EvictsBeginNothing(xs[1..]); }
  }

  lemma {:induction false} OthersBeginNothing(e: Env, d: Disk, r: Request, target: Probe, out: seq<StageState>, now: nat)
    requires Decide(e, d, r, target, out, now).Some? && !r.Begin?
    ensures NoBegin(Decide(e, d, r, target, out, now).value)
  {
    if r.Retain? { EvictsBeginNothing(Skip(RetentionOrder(out), r.keep)); }
  }

  lemma {:induction false} DecidedFrom(e: Env, r: Run, i: nat)
    requires IsRun(e, r) && i < |r.steps| && r.steps[i].Decided?
    ensures PcOf(r.worlds[i + 1], r.steps[i].pid).Writing?
    ensures ScriptFrom(e, r, i + 1, PcOf(r.worlds[i + 1], r.steps[i].pid).script)
  {
    assert StepAt(e, r, i);
    var p, now := r.steps[i].pid, r.steps[i].now;
    var pc := PcOf(r.worlds[i], p);
    var ws := PcOf(r.worlds[i + 1], p).script;
    if pc.req.Begin? {
      var x := Pair(pc.req.verified, pc.req.planBytes, pc.req.sigBytes);
      assert BeginsAt(r, i, x.verified.plan.planId, x);
      assert !EvictsAt(r, i, x.verified.plan.planId);
      assert ws == BeginWrites(e, x.verified, x.planBytes, x.sigBytes, now)[0..];
      assert BeginUnderWay(e, r, i + 1, ws, i, x, now, 0);
    } else if pc.Holding? {
      OthersBeginNothing(e, r.worlds[i].disk, pc.req, Missing, [], now);
    } else {
      OthersBeginNothing(e, r.worlds[i].disk, pc.req, pc.target, pc.out, now);
    }
  }

  lemma {:induction false} TailStep(e: Env, d: Disk, x: Pair, now: nat, k: nat, ws: seq<Write>)
    requires BeginTail(e, d, x, now, k, ws) && ws != []
    ensures BeginTail(e, Exec(d, ws[0]), x, now, k + 1, ws[1..]) && !ws[0].Evict?
  {
    var all := BeginWrites(e, x.verified, x.planBytes, x.sigBytes, now);
    assert |all| == 4 && ws[0] == all[k] && ws[1..] == all[k + 1..];
    assert k == 0 || k == 1 || k == 2 || k == 3;
  }

  lemma {:induction false} UnderWayStep(e: Env, r: Run, i: nat, ws: seq<Write>, j: nat, x: Pair, now: nat, k: nat)
    requires i + 1 < |r.worlds| && BeginUnderWay(e, r, i, ws, j, x, now, k) && ws != []
    requires r.worlds[i + 1].disk == Exec(r.worlds[i].disk, ws[0])
    requires !EvictsAt(r, i, x.verified.plan.planId)
    ensures BeginUnderWay(e, r, i + 1, ws[1..], j, x, now, k + 1)
  {
    TailStep(e, r.worlds[i].disk, x, now, k, ws);
  }

  /** A script goes on: its rest comes from where it came from. */
  lemma {:induction false} ScriptGoesOn(e: Env, r: Run, i: nat, ws: seq<Write>)
    requires i + 1 < |r.worlds| && ScriptFrom(e, r, i, ws) && ws != []
    requires r.worlds[i + 1].disk == Exec(r.worlds[i].disk, ws[0])
    requires Commits(r, i) && WriteAt(r, i) == ws[0]
    ensures ScriptFrom(e, r, i + 1, ws[1..])
  {
    if !NoBegin(ws) {
      var j: nat, x, now: nat, k: nat :| BeginUnderWay(e, r, i, ws, j, x, now, k);
      TailStep(e, r.worlds[i].disk, x, now, k, ws);
      UnderWayStep(e, r, i, ws, j, x, now, k);
    }
  }

  lemma {:induction false} CommittedFrom(e: Env, r: Run, i: nat)
    requires IsRun(e, r) && i < |r.steps| && Commits(r, i)
    requires ScriptFrom(e, r, i, PcOf(r.worlds[i], r.steps[i].pid).script)
    ensures PcOf(r.worlds[i + 1], r.steps[i].pid).Writing?
    ensures ScriptFrom(e, r, i + 1, PcOf(r.worlds[i + 1], r.steps[i].pid).script)
  {
    assert StepAt(e, r, i);
    var ws := PcOf(r.worlds[i], r.steps[i].pid).script;
    ScriptGoesOn(e, r, i, ws);
  }

  /** A marker that was there keeps its origin until it is evicted. */
  lemma {:induction false} OriginStays(e: Env, r: Run, i: nat, n: string)
    requires IsRun(e, r) && i < |r.steps| && HasMarker(r.worlds[i].disk, n) && HasOrigin(r, i, n)
    requires !EvictsAt(r, i, n)
    ensures HasOrigin(r, i + 1, n)
  {
    StepEffect(e, r, i);
    if Commits(r, i) {
      MarkerFrame(e, r.worlds[i].disk, WriteAt(r, i), n);
    }
    SamePairStays(r, i, n);
  }

  lemma {:induction false} SamePairStays(r: Run, i: nat, n: string)
    requires i + 1 < |r.worlds| && HasOrigin(r, i, n) && !EvictsAt(r, i, n)
    requires SamePlan(r.worlds[i].disk, r.worlds[i + 1].disk, n)
    ensures HasOrigin(r, i + 1, n)
  {
    var j: nat, x :| FromBegin(r, j, i, n, x);
    assert FromBegin(r, j, i + 1, n, x);
  }

  /** A new marker is written by a begin whose document and signature are already there. */
  lemma {:induction false} OriginOfNew(e: Env, r: Run, i: nat, n: string)
    requires IsRun(e, r) && i < |r.steps| && !HasMarker(r.worlds[i].disk, n) && HasMarker(r.worlds[i + 1].disk, n)
    requires OriginInv(e, r, i)
    ensures HasOrigin(r, i + 1, n)
  {
    StepEffect(e, r, i);
    NewMarkerBegins(e, r.worlds[i].disk, WriteAt(r, i), n);
    BeganHere(e, r, i, PcOf(r.worlds[i], r.steps[i].pid).script, n);
  }

  lemma {:induction false} NewMarkerBegins(e: Env, d: Disk, w: Write, n: string)
    requires GoodDisk(e, d) && WriteOk(e, d, w) && !HasMarker(d, n) && HasMarker(Exec(d, w), n)
    ensures w.PutMarker? && w.name == n && w.event.Begun?
  {
    MarkerFrame(e, d, w, n);
  }

  lemma {:induction false} MarkerComesThird(e: Env, d: Disk, x: Pair, now: nat, k: nat, ws: seq<Write>)
    requires BeginTail(e, d, x, now, k, ws) && ws != [] && ws[0].PutMarker?
    ensures ws[0].name == x.verified.plan.planId && HoldsPair(Exec(d, ws[0]), x.verified.plan.planId, x)
  {
    assert ws[0] == BeginWrites(e, x.verified, x.planBytes, x.sigBytes, now)[k];
    assert k == 0 || k == 1 || k == 2 || k == 3;
  }

  lemma {:induction false} BeganHere(e: Env, r: Run, i: nat, ws: seq<Write>, n: string)
    requires i + 1 < |r.worlds| && ScriptFrom(e, r, i, ws) && ws != []
    requires ws[0].PutMarker? && ws[0].name == n && ws[0].event.Begun?
    requires r.worlds[i + 1].disk == Exec(r.worlds[i].disk, ws[0])
    requires Commits(r, i) && WriteAt(r, i) == ws[0]
    ensures HasOrigin(r, i + 1, n)
  {
    assert ws[0] in ws;
    var j: nat, x, now: nat, k: nat :| BeginUnderWay(e, r, i, ws, j, x, now, k);
    MarkerComesThird(e, r.worlds[i].disk, x, now, k, ws);
    assert FromBegin(r, j, i + 1, n, x);
  }

  lemma {:induction false} OriginStep(e: Env, r: Run, i: nat)
    requires IsRun(e, r) && i < |r.steps| && OriginInv(e, r, i)
    ensures OriginInv(e, r, i + 1)
  {
    StepEffect(e, r, i);
    InvHolds(e, r, i);
    assert StepAt(e, r, i);
    var i' := i + 1;
    forall n | HasMarker(r.worlds[i'].disk, n) ensures HasOrigin(r, i', n) {
      if HasMarker(r.worlds[i].disk, n) {
        OriginStays(e, r, i, n);
      } else {
        OriginOfNew(e, r, i, n);
      }
    }
    forall p: nat | PcOf(r.worlds[i'], p).Writing? ensures ScriptFrom(e, r, i', PcOf(r.worlds[i'], p).script) {
      if p == r.steps[i].pid {
        OwnScript(e, r, i);
      } else {
        OthersIdle(e, r.worlds[i], r.steps[i], r.worlds[i + 1], p);
        StaysUnderWay(e, r, i, PcOf(r.worlds[i], p).script);
      }
    }
  }

  lemma {:induction false} StaysUnderWay(e: Env, r: Run, i: nat, ws: seq<Write>)
    requires IsRun(e, r) && i < |r.steps| && r.worlds[i + 1].disk == r.worlds[i].disk && !Commits(r, i)
    requires ScriptFrom(e, r, i, ws)
    ensures ScriptFrom(e, r, i + 1, ws)
  {
    if !NoBegin(ws) {
      var j: nat, x, now: nat, k: nat :| BeginUnderWay(e, r, i, ws, j, x, now, k);
      assert BeginUnderWay(e, r, i + 1, ws, j, x, now, k);
    }
  }

  lemma {:induction false} OwnScript(e: Env, r: Run, i: nat)
    requires IsRun(e, r) && i < |r.steps| && OriginInv(e, r, i)
    requires PcOf(r.worlds[i + 1], r.steps[i].pid).Writing?
    ensures ScriptFrom(e, r, i + 1, PcOf(r.worlds[i + 1], r.steps[i].pid).script)
  {
    StepEffect(e, r, i);
    assert StepAt(e, r, i);
    match r.steps[i]
    case Commit(_) => CommittedFrom(e, r, i);
    case Decided(_, _) => DecidedFrom(e, r, i);
    case Reenter(p, _) => StaysUnderWay(e, r, i, PcOf(r.worlds[i], p).script);
    case _ =>
  }

  // ---- Runs ----------------------------------------------------------------------------------

  ghost predicate StartsBare(r: Run) {
    r.worlds != [] && forall n :: Path(n, StateJson) !in r.worlds[0].disk
  }

  lemma {:induction false} OriginHolds(e: Env, r: Run, i: nat)
    requires IsRun(e, r) && StartsBare(r) && i < |r.worlds|
    ensures OriginInv(e, r, i)
  {
    if i > 0 {
      OriginHolds(e, r, i - 1);
      OriginStep(e, r, i - 1);
    }
  }

  /**
    Main result: whenever a marker exists, one earlier begin of that plan, not followed by an eviction,
    was handed exactly the document and the signature that stand beside it; they verify together to
    the plan it was begun with, and the marker records that plan's hash and sequence.
  */
  lemma {:induction false} PairIsOfOneBegin(e: Env, r: Run, i: nat, n: string) returns (j: nat, x: Pair)
    requires IsRun(e, r) && StartsBare(r) && i < |r.worlds| && HasMarker(r.worlds[i].disk, n)
    ensures FromBegin(r, j, i, n, x)
    ensures VerifyUpdatePlan(e.codec, x.planBytes, x.sigBytes) == Ok(x.verified)
    ensures MarkerOf(r.worlds[i].disk, n).planSha256 == x.verified.planSha256
    ensures MarkerOf(r.worlds[i].disk, n).sequence == x.verified.plan.sequence
  {
    OriginHolds(e, r, i);
    j, x :| FromBegin(r, j, i, n, x);
    assert StepAt(e, r, j);
    MarkersMatchPlans(e, r, i, n);
  }

  /** The signature on disk pins the document on disk: a trusted statement of its hash that mirrors the plan. */
  lemma {:induction false} StagedPlanIsSigned(e: Env, r: Run, i: nat, n: string)
    requires IsRun(e, r) && i < |r.worlds| && HasMarker(r.worlds[i].disk, n) && DsseFaithful(e.codec)
    ensures var d := r.worlds[i].disk;
      && HasRaw(d, Path(n, PlanSig)) && PlanOf(e, d, n).Some?
      && e.codec.dsse(d[Path(n, PlanSig)].bytes, MarkerOf(d, n).planSha256).Some?
      && e.codec.dsse(d[Path(n, PlanSig)].bytes, MarkerOf(d, n).planSha256).value.statement
         == Statement(MarkerOf(d, n).planSha256, UPDATE_PLAN_PREDICATE_TYPE_V1, Some(PredicateOf(PlanOf(e, d, n).value)))
  {
    var d := r.worlds[i].disk;
    MarkersMatchPlans(e, r, i, n);
    VerifiedIsPinned(e.codec, d[Path(n, PlanJson)].bytes, d[Path(n, PlanSig)].bytes);
  }

  /** What the plan builder returns may be begun. */
  lemma {:induction false} BuiltPlanMayBegin(e: Env, d: Disk, plan: UpdatePlan, keyId: string, gate: Option<Gate>)
    requires DsseFaithful(e.codec) && JsonFaithful(e.codec) && BuildUpdatePlan(e.codec, plan, keyId).Ok?
    ensures var b := BuildUpdatePlan(e.codec, plan, keyId).value;
      var v := VerifyUpdatePlan(e.codec, b.planBytes, b.envelopeBytes);
      v.Ok? && v.value.plan == plan && Disciplined(e, d, Request.Begin(v.value, b.planBytes, b.envelopeBytes, gate))
  {
    BuiltPlanVerifies(e.codec, plan, keyId);
  }
}
