/**
  Inputs at which promises fail: for each result that says exactly when a property holds, one reachable
  or constructible case in which it does not.
*/
module StagingWitnesses {
  import opened Wrappers
  import opened ByteStrings
  import opened Plan
  import opened Disk
  import opened Staging
  import opened Operations
  import opened StagingRuns
  import opened StagingClock
  import opened CallsAreRuns
  import opened Sample
  import Outcomes

  const ENV_NAME := "prod"

  ghost function Prod(): Env {
    Env(SampleCodec(), ENV_NAME)
  }

  /** A verified plan with its bytes. */
  datatype Doc = Doc(v: VerifiedUpdatePlan, planBytes: Bytes, sigBytes: Bytes)

  predicate Stageable(e: Env, x: Doc) {
    && VerifyUpdatePlan(e.codec, x.planBytes, x.sigBytes) == Ok(x.v)
    && ValidPlanId(x.v.plan.planId) && TargetsEnv(x.v.plan.envId, e.id)
  }

  function PlanNamed(id: string, sequence: nat): UpdatePlan {
    UpdatePlan(UPDATE_PLAN_SCHEMA_V1, id, ENV_NAME, sequence, 0, "", [], [])
  }

  // ---- Calls one after the other --------------------------------------------------------------

  lemma {:induction false} RunCall(e: Env, r: Run, req: Request, target: Probe, out: seq<StageState>, now: nat) returns (r': Run)
    requires Quiet(e, r) && Disciplined(e, Last(r).disk, req) && Informed(e, Last(r).disk, req, target, out)
    requires Decide(e, Last(r).disk, req, target, out, now).Some?
    ensures Extends(e, r, r') && Quiet(e, r')
    ensures Last(r').disk == ExecAll(Last(r).disk, Decide(e, Last(r).disk, req, target, out, now).value)
  {
    var d := Last(r).disk;
    var script := Decide(e, d, req, target, out, now).value;
    assert script[..|script|] == script;
    assert Outcomes.DecidedOn(e, d, req, now, script);
    assert Outcomes.Performed(d, ExecAll(d, script), script, |script|);
    r' := CallExtendsRun(e, r, 0, req, ExecAll(d, script), now, true);
  }

  /** Plan `n` stands at marker `s` with document `plan`, on a disk that differs from `d` in no other plan. */
  ghost predicate MovedOn(e: Env, d: Disk, d': Disk, n: string, s: StageState, plan: UpdatePlan) {
    && HasMarker(d', n) && MarkerOf(d', n) == s && PlanOf(e, d', n) == Some(plan)
    && forall m | m != n :: SameMarker(d, d', m) && PlanOf(e, d', m) == PlanOf(e, d, m)
  }

  ghost predicate Standing(e: Env, d: Disk, n: string, s: StageState, plan: UpdatePlan) {
    HasMarker(d, n) && MarkerOf(d, n) == s && PlanOf(e, d, n) == Some(plan)
  }

  ghost predicate Only(d: Disk, names: set<string>) {
    forall m | Path(m, StateJson) in d :: m in names
  }

  lemma {:induction false} OthersStay(e: Env, d: Disk, d': Disk, n: string, s: StageState, plan: UpdatePlan, names: set<string>)
    requires MovedOn(e, d, d', n, s, plan) && Only(d, names)
    ensures Standing(e, d', n, s, plan) && Only(d', names + {n})
  {
    forall m | Path(m, StateJson) in d' ensures m in names + {n} {
      if m != n { assert SameMarker(d, d', m); }
    }
  }

  lemma {:induction false} OtherStands(e: Env, d: Disk, d': Disk, n: string, s: StageState, plan: UpdatePlan,
                                       m: string, sm: StageState, pm: UpdatePlan)
    requires MovedOn(e, d, d', n, s, plan) && m != n && Standing(e, d, m, sm, pm)
    ensures Standing(e, d', m, sm, pm)
  {
    assert SameMarker(d, d', m);
  }

  lemma {:induction false} RunBegin(e: Env, r: Run, x: Doc, now: nat) returns (r': Run, s: StageState)
    requires Quiet(e, r) && Stageable(e, x) && Path(x.v.plan.planId, StateJson) !in Last(r).disk
    ensures Quiet(e, r') && s == BeginState(e, x.v, now)
    ensures MovedOn(e, Last(r).disk, Last(r').disk, x.v.plan.planId, s, x.v.plan)
  {
    s := BeginState(e, x.v, now);
    BeginEffect(e, Last(r).disk, x.v, x.planBytes, x.sigBytes, now);
    var req := Request.Begin(x.v, x.planBytes, x.sigBytes, None);
    assert BeginChoice(e, Last(r).disk, x.v, x.planBytes, x.sigBytes, None, [], now).Some?;
    r' := RunCall(e, r, req, Missing, [], now);
  }

  lemma {:induction false} BeginEffect(e: Env, d: Disk, v: VerifiedUpdatePlan, pb: Bytes, sb: Bytes, now: nat)
    requires VerifyUpdatePlan(e.codec, pb, sb) == Ok(v) && ValidPlanId(v.plan.planId)
    ensures MovedOn(e, d, ExecAll(d, BeginWrites(e, v, pb, sb, now)), v.plan.planId, BeginState(e, v, now), v.plan)
  {
    var n, ev := v.plan.planId, Begun(v.plan.planId);
    var w0, w1 := PutFile(Path(n, PlanJson), Raw(pb)), PutFile(Path(n, PlanSig), Raw(sb));
    var w2, w3 := PutMarker(n, BeginState(e, v, now), ev), Append(ev);
    ExecFour(d, w0, w1, w2, w3);
    assert BeginWrites(e, v, pb, sb, now) == [w0, w1, w2, w3];
    InfrastructureNamesDiffer();
    assert PlanOf(e, Exec(Exec(Exec(Exec(d, w0), w1), w2), w3), n) == Some(v.plan);
  }

  lemma {:induction false} ExecFour(d: Disk, w0: Write, w1: Write, w2: Write, w3: Write)
    ensures ExecAll(d, [w0, w1, w2, w3]) == Exec(Exec(Exec(Exec(d, w0), w1), w2), w3)
  {
    ExecTwo(d, w0, w1);
    ExecAllAppend(d, [w0, w1], w2);
    ExecAllAppend(d, [w0, w1, w2], w3);
    assert [w0, w1] + [w2] == [w0, w1, w2] && [w0, w1, w2] + [w3] == [w0, w1, w2, w3];
  }

  lemma {:induction false} RunMove(e: Env, r: Run, n: string, s: StageState, to: Stage, plan: UpdatePlan, now: nat)
    returns (r': Run, s': StageState)
    requires Quiet(e, r) && Standing(e, Last(r).disk, n, s, plan) && IsValidTransition(s.stage, to) && to != Applying
    ensures Quiet(e, r') && s' == s.(stage := to, updatedAt := now)
    ensures MovedOn(e, Last(r).disk, Last(r').disk, n, s', plan)
  {
    s' := s.(stage := to, updatedAt := now);
    MoveEffect(e, Last(r).disk, n, s, to, plan, now);
    r' := RunCall(e, r, Request.Move(n, to), Missing, [], now);
  }

  lemma {:induction false} MoveEffect(e: Env, d: Disk, n: string, s: StageState, to: Stage, plan: UpdatePlan, now: nat)
    requires HasMarker(d, n) && MarkerOf(d, n) == s && PlanOf(e, d, n) == Some(plan) && IsValidTransition(s.stage, to)
    ensures MoveChoice(d, n, to, now).Some?
    ensures MovedOn(e, d, ExecAll(d, MoveChoice(d, n, to, now).value), n, s.(stage := to, updatedAt := now), plan)
  {
    var ws := MoveChoice(d, n, to, now).value;
    assert ws == [ws[0], ws[1]];
    ExecTwo(d, ws[0], ws[1]);
  }

  /** The first plan of an environment is let through the gate. */
  lemma {:induction false} RunApply(e: Env, r: Run, n: string, s: StageState, plan: UpdatePlan, now: nat)
    returns (r': Run, s': StageState)
    requires Quiet(e, r) && Standing(e, Last(r).disk, n, s, plan) && s.stage == Staged && Only(Last(r).disk, {n})
    ensures Quiet(e, r') && s' == s.(stage := Applying, updatedAt := now)
    ensures MovedOn(e, Last(r).disk, Last(r').disk, n, s', plan)
  {
    var d := Last(r).disk;
    var admit: Gate := (f: AdmissionFacts) => NotDowngrade(plan.sequence, f.latestAppliedSequence);
    InvHolds(e, r, |r.worlds| - 1);
    assert PlanFilesOk(e, d, n, s);
    var out := OnlyScan(e, d, n);
    s' := s.(stage := Applying, updatedAt := now);
    MoveEffect(e, d, n, s, Applying, plan, now);
    assert ApplyChoice(e, d, n, Found(s), out, admit, now) == MoveChoice(d, n, Applying, now);
    r' := RunCall(e, r, Request.Apply(n, admit), Found(s), out, now);
  }

  lemma {:induction false} OnlyScan(e: Env, d: Disk, n: string) returns (out: seq<StageState>)
    requires GoodDisk(e, d) && JsonFaithful(e.codec) && AtStage(d, n, Staged) && Only(d, {n})
    ensures CompleteScan(e, d, true, out) && !AnyApplying(out)
    ensures forall channel :: Watermark(out, channel) == None
  {
    forall m ensures !ProbeEntry(e, d, m).Untrusted? { GoodProbe(e, d, m); }
    ScanStarts(e, d, true);
    out := Outcomes.ScanGoesOn(e, d, true, DirNames(d), []);
    forall i | 0 <= i < |out| ensures out[i].stage == Staged {
      assert ProbeEntry(e, d, out[i].planId) == Found(out[i]);
      GoodProbe(e, d, out[i].planId);
    }
    forall channel ensures Watermark(out, channel) == None {
      WatermarkIsMaximum(out, channel);
    }
  }

  lemma {:induction false} FreshStart(e: Env) returns (r: Run)
    requires JsonFaithful(e.codec)
    ensures Quiet(e, r) && Last(r).disk == map[]
  {
    EmptyIsGood(e);
    r := Run([World(map[], None, map[], [], 0)], []);
  }

  /** A run that stages a first plan and takes it to `Applying`. */
  lemma {:induction false} FirstApplying(e: Env, x: Doc) returns (r: Run, s: StageState)
    requires JsonFaithful(e.codec) && Stageable(e, x)
    ensures Quiet(e, r) && s == BeginState(e, x.v, 1).(stage := Applying, updatedAt := 4)
    ensures Standing(e, Last(r).disk, x.v.plan.planId, s, x.v.plan) && Only(Last(r).disk, {x.v.plan.planId})
  {
    var n, plan := x.v.plan.planId, x.v.plan;
    var r0 := FreshStart(e);
    var r1, s1 := RunBegin(e, r0, x, 1);
    OthersStay(e, Last(r0).disk, Last(r1).disk, n, s1, plan, {n});
    var r2, s2 := RunMove(e, r1, n, s1, Inbox, plan, 2);
    OthersStay(e, Last(r1).disk, Last(r2).disk, n, s2, plan, {n});
    var r3, s3 := RunMove(e, r2, n, s2, Staged, plan, 3);
    OthersStay(e, Last(r2).disk, Last(r3).disk, n, s3, plan, {n});
    r, s := RunApply(e, r3, n, s3, plan, 4);
    OthersStay(e, Last(r3).disk, Last(r).disk, n, s, plan, {n});
    assert {n} + {n} == {n};
  }

  /** Two plans and nothing else. */
  ghost predicate Both(e: Env, d: Disk, x: Doc, s: StageState, y: Doc, t: StageState) {
    && Standing(e, d, x.v.plan.planId, s, x.v.plan) && Standing(e, d, y.v.plan.planId, t, y.v.plan)
    && Only(d, {x.v.plan.planId, y.v.plan.planId})
  }

  lemma {:induction false} SecondBegins(e: Env, r: Run, x: Doc, s: StageState, y: Doc, now: nat) returns (r': Run, t': StageState)
    requires Quiet(e, r) && Standing(e, Last(r).disk, x.v.plan.planId, s, x.v.plan) && Only(Last(r).disk, {x.v.plan.planId})
    requires Stageable(e, y) && x.v.plan.planId != y.v.plan.planId
    ensures Quiet(e, r') && t' == BeginState(e, y.v, now) && Both(e, Last(r').disk, x, s, y, t')
  {
    var m, n := x.v.plan.planId, y.v.plan.planId;
    r', t' := RunBegin(e, r, y, now);
    OthersStay(e, Last(r).disk, Last(r').disk, n, t', y.v.plan, {m});
    OtherStands(e, Last(r).disk, Last(r').disk, n, t', y.v.plan, m, s, x.v.plan);
    assert {m} + {n} == {m, n};
  }

  lemma {:induction false} SecondMoves(e: Env, r: Run, x: Doc, s: StageState, y: Doc, t: StageState, to: Stage, now: nat)
    returns (r': Run, t': StageState)
    requires Quiet(e, r) && Both(e, Last(r).disk, x, s, y, t) && x.v.plan.planId != y.v.plan.planId
    requires IsValidTransition(t.stage, to) && to != Applying
    ensures Quiet(e, r') && t' == t.(stage := to, updatedAt := now) && Both(e, Last(r').disk, x, s, y, t')
  {
    var m, n := x.v.plan.planId, y.v.plan.planId;
    r', t' := RunMove(e, r, n, t, to, y.v.plan, now);
    OthersStay(e, Last(r).disk, Last(r').disk, n, t', y.v.plan, {m, n});
    OtherStands(e, Last(r).disk, Last(r').disk, n, t', y.v.plan, m, s, x.v.plan);
    assert {m, n} + {n} == {m, n};
  }

  /** The first plan applying, the second staged. */
  lemma {:induction false} OneApplyingOneStaged(e: Env, x: Doc, y: Doc) returns (r: Run, s: StageState, t: StageState)
    requires JsonFaithful(e.codec) && Stageable(e, x) && Stageable(e, y) && x.v.plan.planId != y.v.plan.planId
    ensures Quiet(e, r) && Both(e, Last(r).disk, x, s, y, t) && s.stage == Applying && t.stage == Staged
  {
    var r0;
    r0, s := FirstApplying(e, x);
    var r1, t1 := SecondBegins(e, r0, x, s, y, 5);
    var r2, t2 := SecondMoves(e, r1, x, s, y, t1, Inbox, 6);
    r, t := SecondMoves(e, r2, x, s, y, t2, Staged, 7);
  }

  /** The first plan applied, the second rejected later. */
  lemma {:induction false} OneAppliedOneRejected(e: Env, x: Doc, y: Doc) returns (r: Run, s: StageState, t: StageState)
    requires JsonFaithful(e.codec) && Stageable(e, x) && Stageable(e, y) && x.v.plan.planId != y.v.plan.planId
    ensures Quiet(e, r) && Both(e, Last(r).disk, x, s, y, t)
    ensures s.stage == Applied && s.sequence == x.v.plan.sequence && t.stage == Rejected && s.updatedAt < t.updatedAt
  {
    var m := x.v.plan.planId;
    var r0, s0 := FirstApplying(e, x);
    var r1;
    r1, s := RunMove(e, r0, m, s0, Applied, x.v.plan, 5);
    OthersStay(e, Last(r0).disk, Last(r1).disk, m, s, x.v.plan, {m});
    assert {m} + {m} == {m};
    var r2, t2 := SecondBegins(e, r1, x, s, y, 6);
    r, t := SecondMoves(e, r2, x, s, y, t2, Rejected, 7);
  }

  // ---- The witnesses --------------------------------------------------------------------------------

  lemma {:induction false} IdsAreValid()
    ensures ValidPlanId("a") && ValidPlanId("b")
  {
    InfrastructureNamesDiffer();
    assert |"a"| == 1 && |LOCK_FILE| == 5;
  }

  lemma {:induction false} SignedPlan(id: string, sequence: nat) returns (x: Doc)
    requires ValidPlanId(id)
    ensures Stageable(Prod(), x) && x.v.plan == PlanNamed(id, sequence)
  {
    var c, plan := SampleCodec(), PlanNamed(id, sequence);
    SampleIsFaithful();
    SampleBuilds(plan);
    BuiltPlanVerifies(c, plan, KEY);
    var b := BuildUpdatePlan(c, plan, KEY).value;
    x := Doc(VerifyUpdatePlan(c, b.planBytes, b.envelopeBytes).value, b.planBytes, b.envelopeBytes);
  }

  /**
    Reachable: one plan applying and another staged, and the plain transition takes the second to `Applying`
    beside the first.
  */
  lemma {:induction false} SecondApplying() returns (r: Run)
    ensures Quiet(Prod(), r) && AtStage(Last(r).disk, "a", Applying) && AtStage(Last(r).disk, "b", Staged)
    ensures MoveChoice(Last(r).disk, "b", Applying, 8).Some?
    ensures !SingleFlight(ExecAll(Last(r).disk, MoveChoice(Last(r).disk, "b", Applying, 8).value))
  {
    IdsAreValid();
    SampleIsFaithful();
    var x := SignedPlan("a", 7);
    var y := SignedPlan("b", 8);
    assert "a"[0] != "b"[0];
    var s, t;
    r, s, t := OneApplyingOneStaged(Prod(), x, y);
    InvHolds(Prod(), r, |r.worlds| - 1);
    TwoWouldApply(Prod(), Last(r).disk, x, s, y, t, 8);
  }

  lemma {:induction false} TwoWouldApply(e: Env, d: Disk, x: Doc, s: StageState, y: Doc, t: StageState, now: nat)
    requires GoodDisk(e, d) && Both(e, d, x, s, y, t) && s.stage == Applying && t.stage == Staged
    ensures MoveChoice(d, y.v.plan.planId, Applying, now).Some?
    ensures !SingleFlight(ExecAll(d, MoveChoice(d, y.v.plan.planId, Applying, now).value))
  {
    assert AtStage(d, x.v.plan.planId, Applying);
    PlainTransitionBreaksSingleFlightIff(e, d, y.v.plan.planId, now);
  }

  /**
    Reachable: the newest applied plan is older than a rejected one, so retention with a budget of one evicts it,
    and the channel's watermark is gone, whatever order the scan took.
  */
  lemma {:induction false} WatermarkLost(out: seq<StageState>) returns (r: Run)
    ensures Quiet(Prod(), r) && NewestApplied(Prod(), Last(r).disk, ENV_NAME, "a")
    ensures IsWatermark(Prod(), Last(r).disk, ENV_NAME, Some(7))
    ensures CompleteScan(Prod(), Last(r).disk, false, out) ==>
              !Kept(out, 1, "a") && !IsWatermark(Prod(), ExecAll(Last(r).disk, RetainWrites(out, 1)), ENV_NAME, Some(7))
  {
    IdsAreValid();
    SampleIsFaithful();
    var x := SignedPlan("a", 7);
    var y := SignedPlan("b", 8);
    assert "a"[0] != "b"[0];
    var s, t;
    r, s, t := OneAppliedOneRejected(Prod(), x, y);
    var d := Last(r).disk;
    InvHolds(Prod(), r, |r.worlds| - 1);
    OneApplied(Prod(), d, x, s, y, t);
    if CompleteScan(Prod(), d, false, out) {
      RejectedComesFirst(Prod(), d, out, "a", "b");
      RetentionKeepsWatermarkIff(Prod(), d, out, 1, ENV_NAME, "a", Some(7));
    }
  }

  lemma {:induction false} OneApplied(e: Env, d: Disk, x: Doc, s: StageState, y: Doc, t: StageState)
    requires Both(e, d, x, s, y, t) && s.stage == Applied && t.stage == Rejected && s.sequence == x.v.plan.sequence
    ensures NewestApplied(e, d, x.v.plan.envId, x.v.plan.planId) && AgesAgree(e, d)
    ensures IsWatermark(e, d, x.v.plan.envId, Some(x.v.plan.sequence))
  {
    var n := x.v.plan.planId;
    forall m | AtStage(d, m, Applied) ensures m == n {
      assert Path(m, StateJson) in d;
    }
    assert AtStage(d, n, Applied) && ChannelOf(e, d, n) == x.v.plan.envId;
  }

  lemma {:induction false} RejectedComesFirst(e: Env, d: Disk, out: seq<StageState>, a: string, b: string)
    requires MarkersOk(e, d) && JsonFaithful(e.codec) && CompleteScan(e, d, false, out) && a != b
    requires AtStage(d, a, Applied) && AtStage(d, b, Rejected) && MarkerOf(d, a).updatedAt < MarkerOf(d, b).updatedAt
    ensures !Kept(out, 1, a)
  {
    var r := RetentionOrder(out);
    RetentionOrderFacts(out);
    GoodProbe(e, d, b);
    assert Listed(out, b);
    var i :| 0 <= i < |out| && out[i].planId == b;
    assert ProbeEntry(e, d, out[i].planId) == Found(out[i]);
    assert out[i] in out && out[i] in r;
    var j :| 0 <= j < |r| && r[j] == out[i];
    assert r[0] in r && r[0] in out;
    var k :| 0 <= k < |out| && out[k] == r[0];
    assert ProbeEntry(e, d, out[k].planId) == Found(out[k]);
    GoodProbe(e, d, out[k].planId);
    assert j > 0 ==> Newer(r, 0, j);
    assert r[..1] == [r[0]] && r[0].planId != a;
  }
}

/** Archives and streams at which promises fail (src/envelope.rs:464-468, 823-865; src/stream.rs:267-286). */
module WireWitnesses {
  import opened Wrappers
  import opened ByteStrings
  import opened Numbers
  import opened Digest
  import opened Plan
  import opened Envelope
  import opened EnvelopeBuilder
  import opened Sample
  import opened Sse
  import opened SseEncode

  // ---- One digest, two spellings --------------------------------------------------------------

  /** The hypotheses about an envelope's trust root can be met. */
  lemma {:induction false} TrustIsFaithful()
    ensures Faithful(SampleTrust(), KEY)
  {
    var t := SampleTrust();
    SampleIsFaithful();
    forall st: Statement
      ensures t.codec.dsse(t.codec.sign(st, KEY), st.subject).Some?
      ensures t.codec.dsse(t.codec.sign(st, KEY), st.subject).value.statement == st
    {
      SignatureReadsBack(st, st.subject);
    }
    forall m: EnvelopeManifest ensures t.parseManifest(t.encodeManifest(m)) == Some(m) {
      ManifestReadsBack(m);
    }
  }

  function UpperChar(c: char): char {
    if 'a' <= c <= 'z' then c - 'a' + 'A' else c
  }

  function ToUpper(s: string): string {
    seq(|s|, i requires 0 <= i < |s| => UpperChar(s[i]))
  }

  predicate HasLetter(hex: string) {
    exists i | 0 <= i < |hex| :: 'a' <= hex[i] <= 'f'
  }

  /** The upper-case spelling of a digest is well formed and the same digest; it is another string if there is a letter. */
  lemma {:induction false} UpperSpells(hex: string)
    requires IsLowerHex64(hex)
    ensures WellFormed(DigestOf(ToUpper(hex))) && HexOf(DigestOf(ToUpper(hex))) == hex
    ensures HasLetter(hex) ==> DigestOf(ToUpper(hex)) != DigestOf(hex)
  {
    assert DigestOf(ToUpper(hex))[|DIGEST_PREFIX|..] == ToUpper(hex);
    assert ToLower(ToUpper(hex)) == hex;
    if HasLetter(hex) {
      var i :| 0 <= i < |hex| && 'a' <= hex[i] <= 'f';
      assert ToUpper(hex)[i] != hex[i];
      assert DigestOf(hex)[|DIGEST_PREFIX|..] == hex;
    }
  }

  lemma {:induction false} PairClashes(t: Trust, blobs: seq<Blob>, lim: ScanLimits, available: nat, a: Archive)
    requires |blobs| == 2 && BlobFits(t, blobs[0]) && BlobFits(t, blobs[1]) && SameHex(blobs[0], blobs[1])
    ensures !HexesDistinct(blobs)
    ensures NamedAfter(a, blobs) ==> !Acceptable(t, lim, available, a)
  {
    if NamedAfter(a, blobs) && Acceptable(t, lim, available, a) {
      ClashIsRefused(t, lim, available, a, blobs);
      assert false;
    }
  }

  /**
    A builder takes any bytes twice, under the two spellings of a digest that has a letter in it, and no archive
    that it can then return is acceptable, whatever the limits.
  */
  method TwoSpellings(t: Trust, keyId: string, bytes: Bytes) returns (b: Builder)
    requires IsLowerHex64(t.codec.sha256(bytes)) && HasLetter(t.codec.sha256(bytes))
    ensures fresh(b) && b.Valid() && b.trust == t && |b.added| == 2
    ensures b.added[0].bytes == b.added[1].bytes == bytes && !HexesDistinct(b.added)
    ensures forall lim, available, a | NamedAfter(a, b.added) :: !Acceptable(t, lim, available, a)
  {
    var hex := t.codec.sha256(bytes);
    CanonicalDigest(hex);
    UpperSpells(hex);
    b := new Builder(t, keyId);
    var first := b.AddBlob(Blob(DigestOf(hex), bytes, "", None));
    var second := b.AddBlob(Blob(DigestOf(ToUpper(hex)), bytes, "", None));
    assert first.Ok? && second.Ok?;
    forall lim, available, a ensures NamedAfter(a, b.added) ==> !Acceptable(t, lim, available, a) {
      PairClashes(t, b.added, lim, available, a);
    }
  }

  // ---- A blob under another digest's name --------------------------------------------------------

  /** A manifest that lists a blob under the hex `named` with the digest of its body. */
  function LabelledManifest(t: Trust, p: Parts, named: string, body: Bytes): EnvelopeManifest {
    EnvelopeManifest(MANIFEST_SCHEMA_V1, p.planId, p.envId, 0,
                     PlanEntries(t, p) + [ManifestEntry(BlobPath(named), DigestOf(t.codec.sha256(body)), |body|, "", None)])
  }

  /** A signed archive whose one blob is filed under `named`, whatever its body. */
  function LabelledArchive(t: Trust, p: Parts, named: string, body: Bytes, keyId: string): Archive {
    Archive(HeadEntries(t, p, LabelledManifest(t, p, named, body), keyId, (k: nat) => 512)
            + [WholeEntry(BlobPath(named), body, 512)], 1024, true)
  }

  /** Limits with room for an archive. */
  function Ample(a: Archive): ScanLimits {
    ScanLimits(|a.entries|, BodyBytes(a.entries), Cost(a.entries) + a.trailer + 1, BodyBytes(a.entries), 1.0)
  }

  lemma {:induction false} BodiesAreBounded(es: seq<TarEntry>, i: nat)
    requires i < |es|
    ensures |Extracted(es[i])| <= BodyBytes(es)
  {
    if i < |es| - 1 { BodiesAreBounded(es[..|es| - 1], i); }
  }

  lemma {:induction false} LabelledHead(t: Trust, p: Parts, named: string, body: Bytes, keyId: string)
    requires IsLowerHex64(named)
    ensures var es := LabelledArchive(t, p, named, body, keyId).entries;
      && |es| == 5 && HeadNames(es) && AllRegular(es) && es[4].body == body
      && (forall i | 0 <= i < 5 :: es[i].size == |es[i].body| && Extracted(es[i]) == es[i].body)
      && Name(es[4]) == BlobPath(named) && IsBlobPath(Name(es[4])) && BlobHex(Name(es[4])) == named
      && es[0].body == t.encodeManifest(LabelledManifest(t, p, named, body))
      && es[1].body == SignatureFor(t, LabelledManifest(t, p, named, body), keyId)
      && es[2].body == p.planBytes && es[3].body == p.sigBytes
  {
    BlobPathOfHex(named);
    assert MANIFEST_PATH[0] == 'm' && MANIFEST_SIG_PATH[0] == 'm' && PLAN_PATH[0] == 'p' && PLAN_SIG_PATH[0] == 'p';
    assert BlobPath(named)[0] == 'b';
  }

  lemma {:induction false} LabelledReads(t: Trust, p: Parts, named: string, body: Bytes, keyId: string)
    requires IsLowerHex64(named) && Faithful(t, keyId)
    ensures |LabelledArchive(t, p, named, body, keyId).entries| == 5
    ensures Manifest(t, LabelledArchive(t, p, named, body, keyId).entries) == Some(LabelledManifest(t, p, named, body))
  {
    LabelledHead(t, p, named, body, keyId);
    var m := LabelledManifest(t, p, named, body);
    var st := Statement(t.codec.sha256(t.encodeManifest(m)), MANIFEST_SCHEMA_V1, None);
    assert t.codec.dsse(t.codec.sign(st, keyId), st.subject).value.statement == st;
    assert t.parseManifest(t.encodeManifest(m)) == Some(m);
  }

  lemma {:induction false} LabelledPaths(t: Trust, p: Parts, named: string, body: Bytes)
    requires IsLowerHex64(named)
    ensures var es := LabelledManifest(t, p, named, body).entries;
      |es| == 3 && es[0].path == PLAN_PATH && es[1].path == PLAN_SIG_PATH && es[2].path == BlobPath(named)
      && PathsDistinct(es)
  {
    FixedPaths();
    BlobPathOfHex(named);
    BlobPathFacts(BlobPath(named));
  }

  lemma {:induction false} LabelledListed(t: Trust, p: Parts, named: string, body: Bytes, keyId: string, i: nat)
    requires IsLowerHex64(named) && Faithful(t, keyId) && 2 <= i < 5
    ensures |LabelledArchive(t, p, named, body, keyId).entries| == 5
    ensures ListedAs(t, LabelledManifest(t, p, named, body), LabelledArchive(t, p, named, body, keyId).entries[i])
  {
    LabelledHead(t, p, named, body, keyId);
    LabelledPaths(t, p, named, body);
    CanonicalDigest(t.codec.sha256(p.planBytes));
    CanonicalDigest(t.codec.sha256(p.sigBytes));
    CanonicalDigest(t.codec.sha256(body));
    var k: nat := i - 2;
    ListedByPath(t, LabelledManifest(t, p, named, body), k, LabelledArchive(t, p, named, body, keyId).entries[i]);
  }

  lemma {:induction false} LabelledIsAuthentic(t: Trust, p: Parts, named: string, body: Bytes, keyId: string)
    requires IsLowerHex64(named) && Faithful(t, keyId)
    requires var v := VerifyUpdatePlan(t.codec, p.planBytes, p.sigBytes); v.Ok? && DigestOf(named) in PlanDigests(v.value.plan)
    ensures |LabelledArchive(t, p, named, body, keyId).entries| == 5
    ensures Authentic(t, LabelledArchive(t, p, named, body, keyId).entries)
  {
    var es, m := LabelledArchive(t, p, named, body, keyId).entries, LabelledManifest(t, p, named, body);
    LabelledReads(t, p, named, body, keyId);
    LabelledComplete(t, p, named, body, keyId);
    assert EnvelopePlan(t, es) == VerifyUpdatePlan(t.codec, p.planBytes, p.sigBytes) by {
      LabelledHead(t, p, named, body, keyId);
    }
    forall i | 2 <= i < |es| ensures ListedAs(t, m, es[i]) {
      LabelledListed(t, p, named, body, keyId, i);
    }
    forall i | 4 <= i < |es| && IsBlobPath(Name(es[i])) ensures BlobHex(Name(es[i])) == named {
      LabelledHead(t, p, named, body, keyId);
    }
  }

  lemma {:induction false} LabelledComplete(t: Trust, p: Parts, named: string, body: Bytes, keyId: string)
    requires IsLowerHex64(named)
    ensures CompleteFor(LabelledManifest(t, p, named, body), LabelledArchive(t, p, named, body, keyId).entries)
  {
    var es, m := LabelledArchive(t, p, named, body, keyId).entries, LabelledManifest(t, p, named, body);
    LabelledHead(t, p, named, body, keyId);
    LabelledPaths(t, p, named, body);
    forall me | me in m.entries ensures me.path in Names(es) {
      var k: nat :| k < |m.entries| && m.entries[k] == me;
      NamedAt(es, k + 2, me.path);
    }
  }

  lemma {:induction false} NamedAt(es: seq<TarEntry>, i: nat, path: string)
    requires i < |es| && Name(es[i]) == path
    ensures path in Names(es)
  {}

  /**
    Whatever the body, a signed archive that files it under a digest the plan names is accepted: key and hash
    then differ whenever the body is not what the plan asks for.
  */
  lemma {:induction false} MislabelledIsAccepted(t: Trust, p: Parts, named: string, body: Bytes, keyId: string)
    requires IsLowerHex64(named) && Faithful(t, keyId)
    requires var v := VerifyUpdatePlan(t.codec, p.planBytes, p.sigBytes); v.Ok? && DigestOf(named) in PlanDigests(v.value.plan)
    ensures var a := LabelledArchive(t, p, named, body, keyId);
      && |a.entries| == 5 && Acceptable(t, Ample(a), U64, a)
      && IsBlobPath(Name(a.entries[4])) && BlobHex(Name(a.entries[4])) == named && a.entries[4].body == body
  {
    var a := LabelledArchive(t, p, named, body, keyId);
    LabelledHead(t, p, named, body, keyId);
    LabelledIsAuthentic(t, p, named, body, keyId);
    forall i | 0 <= i < 5 ensures a.entries[i].size <= BodyBytes(a.entries) { BodiesAreBounded(a.entries, i); }
    FiveAreGrammatical(a.entries);
    AcceptableInParts(t, Ample(a), U64, a);
  }

  lemma {:induction false} FiveAreGrammatical(es: seq<TarEntry>)
    requires |es| == 5 && IsBlobPath(Name(es[4]))
    ensures exists b :: Grammar(es, b)
  {
    assert Grammar(es, 5);
  }

  /** One such archive: its blob's key is not its hash. */
  lemma {:induction false} MislabelledBlob() returns (t: Trust, lim: ScanLimits, a: Archive)
    ensures |a.entries| == 5 && Acceptable(t, lim, U64, a)
    ensures IsBlobPath(Name(a.entries[4])) && t.codec.sha256(a.entries[4].body) != BlobHex(Name(a.entries[4]))
  {
    t := SampleTrust();
    var plan := UpdatePlan(UPDATE_PLAN_SCHEMA_V1, "p", "prod", 1, 0, "", [PlanArtifact("x", DigestOf(Hex('b')))], []);
    TrustIsFaithful();
    SampleIsFaithful();
    SampleBuilds(plan);
    BuiltPlanVerifies(SampleCodec(), plan, KEY);
    HexIsLower('b');
    var built := BuildUpdatePlan(SampleCodec(), plan, KEY).value;
    var p := Parts(built.planBytes, built.envelopeBytes, plan.planId, plan.envId);
    assert plan.artifacts[0] in plan.artifacts;
    MislabelledIsAccepted(t, p, Hex('b'), [], KEY);
    a := LabelledArchive(t, p, Hex('b'), [], KEY);
    lim := Ample(a);
    assert Hex('a')[0] != Hex('b')[0];
  }

  // ---- A torn carriage return ------------------------------------------------------------------

  /** An event whose blank line lost its line feed, in a body that then ends cleanly. */
  lemma {:induction false} TornBody() returns (arrived: Bytes)
    ensures arrived == FieldLine(DATA_FIELD, [120]) + [CR] && TornReturn(arrived)
    ensures exists lost :: !(Frames(arrived, false) <= Frames(arrived + lost, false))
  {
    var line := FieldLine(DATA_FIELD, [120]);
    arrived := line + [CR];
    TornHead(line, arrived);
    DataLine();
    CleanCutIsSafeIff(arrived);
  }

  lemma {:induction false} TornHead(line: Bytes, arrived: Bytes)
    requires Terminated(line) && arrived == line + [CR]
    ensures arrived[Complete(arrived)..] == [CR] && arrived[..Complete(arrived)] == line
  {
    var n := |line|;
    assert arrived[..|arrived| - 1] == line && arrived[|arrived| - 1] == CR;
    assert Complete(line) == n;
    assert Complete(arrived) == n;
  }

  lemma {:induction false} DataLine()
    ensures Terminated(FieldLine(DATA_FIELD, [120]))
    ensures Meaning(OpenBlock(Kinds(FieldLine(DATA_FIELD, [120]), false))) != []
  {
    var line := FieldLine(DATA_FIELD, [120]);
    FieldLineRoundTrip(DATA_FIELD, [120]);
    FieldLineChomped(DATA_FIELD, [120]);
    SingleLine(line, false);
    var ks := [Data([120])];
    assert Kinds(line, false) == ks;
    assert ks[..0] == [] && OpenBlock(ks) == [] + ks;
    assert Values(ks) == [[120]];
    assert Payload([[120]]) == [120];
  }
}
