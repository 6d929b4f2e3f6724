/**
  What a call leaves on the disk, told from the disk alone: when each operation goes through, and the
  exact disk it then leaves (src/staging.rs:407-733, 895-932, 1278-1462).
*/
module Outcomes {
  import opened Wrappers
  import opened ByteStrings
  import opened Numbers
  import opened Digest
  import opened Plan
  import opened Disk
  import opened Staging
  import opened Operations

  // ---- What a method did ---------------------------------------------------------------

  /** `script` is what the request decides on from true readings of `d`. */
  ghost predicate DecidedOn(e: Env, d: Disk, r: Request, now: nat, script: seq<Write>) {
    exists target, out :: Informed(e, d, r, target, out) && Decide(e, d, r, target, out, now) == Some(script)
  }

  ghost predicate Performed(d: Disk, d': Disk, script: seq<Write>, k: int) {
    0 <= k <= |script| && d' == ExecAll(d, script[..k])
  }

  /** The disk is unchanged, or a decided script ran: all of it on success, some of it on an error. */
  ghost predicate Effect(e: Env, d: Disk, d': Disk, r: Request, now: nat, ok: bool) {
    || (!ok && d' == d)
    || exists script, k :: DecidedOn(e, d, r, now, script) && Performed(d, d', script, k) && (ok ==> k == |script|)
  }

  /** Every disciplined call, however it ends, leaves a good disk good. */
  lemma {:induction false} EffectKeepsGood(e: Env, d: Disk, d': Disk, r: Request, now: nat, ok: bool)
    requires GoodDisk(e, d) && JsonFaithful(e.codec) && Disciplined(e, d, r) && Effect(e, d, d', r, now, ok)
    ensures GoodDisk(e, d')
  {
    if d' != d {
      var script, k :| DecidedOn(e, d, r, now, script) && Performed(d, d', script, k);
      var target, out :| Informed(e, d, r, target, out) && Decide(e, d, r, target, out, now) == Some(script);
      DecideLegal(e, d, r, target, out, now);
      PrefixKeepsGood(e, d, script, k);
    }
  }

  lemma {:induction false} EffectOf(e: Env, d: Disk, d': Disk, r: Request, target: Probe, out: seq<StageState>,
                                    now: nat, k: nat, ok: bool)
    requires Informed(e, d, r, target, out) && Decide(e, d, r, target, out, now).Some?
    requires Performed(d, d', Decide(e, d, r, target, out, now).value, k)
    requires ok ==> k == |Decide(e, d, r, target, out, now).value|
    ensures Effect(e, d, d', r, now, ok)
  {
    assert DecidedOn(e, d, r, now, Decide(e, d, r, target, out, now).value);
  }

  /** The scan that the request needs can succeed, and whatever it lists the request is granted. */
  ghost predicate Granted(e: Env, d: Disk, r: Request, now: nat) {
    && (ScansStrictly(r) ==> forall n :: !ProbeEntry(e, d, n).Untrusted?)
    && forall target, out | Informed(e, d, r, target, out) :: Decide(e, d, r, target, out, now).Some?
  }

  lemma {:induction false} ScanGoesOn(e: Env, d: Disk, strict: bool, todo: set<string>, out: seq<StageState>)
    returns (all: seq<StageState>)
    requires PartialScan(e, d, strict, todo, out)
    requires strict ==> forall n :: !ProbeEntry(e, d, n).Untrusted?
    ensures CompleteScan(e, d, strict, all)
    decreases |todo|
  {
    all := out;
    if todo != {} {
      var n :| n in todo;
      ScanStep(e, d, strict, todo, out, n);
      all := ScanGoesOn(e, d, strict, todo - {n}, Noted(out, ProbeEntry(e, d, n)));
    }
  }

  /** What a granted request must have found on the disk. */
  lemma {:induction false} GrantedFinds(e: Env, d: Disk, r: Request, now: nat)
    requires Granted(e, d, r, now)
    ensures exists target, out :: Informed(e, d, r, target, out) && Decide(e, d, r, target, out, now).Some?
  {
    ScanStarts(e, d, ScansStrictly(r));
    var out := ScanGoesOn(e, d, ScansStrictly(r), DirNames(d), []);
    var target := if r.Apply? then ReadState(d, r.planId) else Missing;
    assert Informed(e, d, r, target, out);
  }

  lemma {:induction false} ExecOne(d: Disk, w: Write)
    ensures ExecAll(d, [w]) == Exec(d, w)
    ensures [w][..1] == [w]
  {
    ExecAllAppend(d, [], w);
    assert [] + [w] == [w];
  }

  /** A call that succeeded ran all of a script that was decided on from true readings. */
  lemma {:induction false} EffectInFull(e: Env, d: Disk, d': Disk, r: Request, now: nat)
    returns (target: Probe, out: seq<StageState>)
    requires Effect(e, d, d', r, now, true)
    ensures Informed(e, d, r, target, out) && Decide(e, d, r, target, out, now).Some?
    ensures d' == ExecAll(d, Decide(e, d, r, target, out, now).value)
  {
    var script, k :| DecidedOn(e, d, r, now, script) && Performed(d, d', script, k) && k == |script|;
    assert script[..k] == script;
    target, out :| Informed(e, d, r, target, out) && Decide(e, d, r, target, out, now) == Some(script);
  }

  /** Markers agree with their plan files, and a document parses to what was encoded. */
  ghost predicate Trusted(e: Env, d: Disk) {
    MarkersOk(e, d) && JsonFaithful(e.codec)
  }

  // ---- Gates ------------------------------------------------------------------------------

  /** The gate lets every account of the disk's facts through. */
  ghost predicate GateOpen(e: Env, d: Disk, channel: string, gate: Gate) {
    forall f | FactsOf(e, d, channel, f) :: gate(f)
  }

  /** It lets one through. */
  ghost predicate GatePassed(e: Env, d: Disk, channel: string, gate: Gate) {
    exists f :: FactsOf(e, d, channel, f) && gate(f)
  }

  // ---- Beginning ----------------------------------------------------------------------------

  /** The plan's id can name a directory, its environment is this one or the broadcast, and it has no marker yet. */
  predicate BeginAllowed(e: Env, d: Disk, plan: UpdatePlan) {
    && plan.planId !in {"", ".", "..", AUDIT_DIR, LOCK_FILE, CAS_DIR, RECEIPT_FILE, RECEIPT_SIG_FILE}
    && (forall c | c in plan.planId :: c !in {'/', '\\', ':', '\0'})
    && (plan.envId == e.id || plan.envId == BROADCAST_ENV_ID)
    && Path(plan.planId, StateJson) !in d
  }

  /** Document, signature, a fresh marker and its audit line, and nothing else. */
  ghost predicate BegunOn(e: Env, d: Disk, d': Disk, v: VerifiedUpdatePlan, planBytes: Bytes, sigBytes: Bytes, now: nat) {
    var n := v.plan.planId;
    d' == d[Path(n, PlanJson) := Raw(planBytes)][Path(n, PlanSig) := Raw(sigBytes)]
           [Path(n, StateJson) := Marker(StageState(n, e.id, v.plan.sequence, v.planSha256, Downloading, now, now,
                                                    Some(v.plan.envId)))]
           [AUDIT_PATH := Lines(AuditLines(d) + [Begun(n)])]
  }

  lemma {:induction false} BeginAllowedIs(e: Env, d: Disk, plan: UpdatePlan)
    ensures BeginAllowed(e, d, plan) <==>
              ValidPlanId(plan.planId) && TargetsEnv(plan.envId, e.id) && ReadState(d, plan.planId) == Missing
  {}

  /** A plan whose beginning is allowed, and whose gate is open, is granted. */
  lemma {:induction false} BeginIsGranted(e: Env, d: Disk, v: VerifiedUpdatePlan, pb: Bytes, sb: Bytes, gate: Option<Gate>, now: nat)
    requires Trusted(e, d) && BeginAllowed(e, d, v.plan)
    requires gate.Some? ==> GateOpen(e, d, v.plan.envId, gate.value)
    ensures Granted(e, d, Request.Begin(v, pb, sb, gate), now)
  {
    var r := Request.Begin(v, pb, sb, gate);
    BeginAllowedIs(e, d, v.plan);
    forall n ensures !ProbeEntry(e, d, n).Untrusted? { GoodProbe(e, d, n); }
    forall target, out | Informed(e, d, r, target, out) ensures Decide(e, d, r, target, out, now).Some? {
      if gate.Some? { ScanFacts(e, d, true, out, v.plan.envId); }
    }
  }

  /** A begin that succeeds was allowed, passed its gate, and leaves exactly this disk. */
  lemma {:induction false} BeginLeaves(e: Env, d: Disk, d': Disk, v: VerifiedUpdatePlan, pb: Bytes, sb: Bytes,
                                       gate: Option<Gate>, now: nat)
    requires Effect(e, d, d', Request.Begin(v, pb, sb, gate), now, true)
    ensures BeginAllowed(e, d, v.plan) && BegunOn(e, d, d', v, pb, sb, now)
    ensures Trusted(e, d) && gate.Some? ==> GatePassed(e, d, v.plan.envId, gate.value)
  {
    var target, out := EffectInFull(e, d, d', Request.Begin(v, pb, sb, gate), now);
    BeginAllowedIs(e, d, v.plan);
    BeginRuns(e, d, v, pb, sb, now);
    if Trusted(e, d) && gate.Some? {
      ScanFacts(e, d, true, out, v.plan.envId);
    }
  }

  lemma {:induction false} BeginRuns(e: Env, d: Disk, v: VerifiedUpdatePlan, pb: Bytes, sb: Bytes, now: nat)
    ensures BegunOn(e, d, ExecAll(d, BeginWrites(e, v, pb, sb, now)), v, pb, sb, now)
  {
    var ws := BeginWrites(e, v, pb, sb, now);
    var d1 := Exec(d, ws[0]);
    var d2 := Exec(d1, ws[1]);
    assert ws[1..][1..] == [ws[2], ws[3]];
    ExecTwo(d2, ws[2], ws[3]);
    assert AuditLines(Exec(d2, ws[2])) == AuditLines(d);
  }

  // ---- Moving -------------------------------------------------------------------------------

  /** The marker at its new stage and time, and its audit line, and nothing else. */
  ghost predicate MovedOn(d: Disk, d': Disk, n: string, to: Stage, now: nat) {
    && HasMarker(d, n)
    && var s := MarkerOf(d, n);
       d' == d[Path(n, StateJson) := Marker(s.(stage := to, updatedAt := now))]
              [AUDIT_PATH := Lines(AuditLines(d) + [Moved(n, s.stage, to)])]
  }

  lemma {:induction false} MoveRuns(d: Disk, n: string, to: Stage, now: nat)
    requires MoveChoice(d, n, to, now).Some?
    ensures IsValidTransition(MarkerOf(d, n).stage, to) && MovedOn(d, ExecAll(d, MoveChoice(d, n, to, now).value), n, to, now)
  {
    var ws := MoveChoice(d, n, to, now).value;
    ExecTwo(d, ws[0], ws[1]);
    assert ws == [ws[0], ws[1]];
    assert AuditLines(Exec(d, ws[0])) == AuditLines(d);
  }

  /** A transition is granted exactly to a plan with a marker at a stage from which it is legal. */
  lemma {:induction false} MoveIsGrantedIff(e: Env, d: Disk, n: string, to: Stage, now: nat)
    ensures Granted(e, d, Request.Move(n, to), now) <==> HasMarker(d, n) && IsValidTransition(MarkerOf(d, n).stage, to)
  {
    if Granted(e, d, Request.Move(n, to), now) { GrantedFinds(e, d, Request.Move(n, to), now); }
  }

  lemma {:induction false} MoveLeaves(e: Env, d: Disk, d': Disk, n: string, to: Stage, now: nat)
    requires Effect(e, d, d', Request.Move(n, to), now, true)
    ensures MovedOn(d, d', n, to, now) && IsValidTransition(MarkerOf(d, n).stage, to)
  {
    var target, out := EffectInFull(e, d, d', Request.Move(n, to), now);
    MoveRuns(d, n, to, now);
  }

  // ---- Applying -----------------------------------------------------------------------------

  /** The single-flight gate lets through a staged plan that finds nobody applying, and whose gate is open. */
  lemma {:induction false} ApplyIsGranted(e: Env, d: Disk, n: string, admit: Gate, now: nat)
    requires Trusted(e, d)
    requires AtStage(d, n, Staged) && (forall m :: !AtStage(d, m, Applying)) && GateOpen(e, d, ChannelOf(e, d, n), admit)
    ensures Granted(e, d, Request.Apply(n, admit), now)
  {
    var r := Request.Apply(n, admit);
    assert PlanFilesOk(e, d, n, MarkerOf(d, n));
    forall m ensures !ProbeEntry(e, d, m).Untrusted? { GoodProbe(e, d, m); }
    forall target, out | Informed(e, d, r, target, out) ensures Decide(e, d, r, target, out, now).Some? {
      GoodProbe(e, d, n);
      ScanApplying(e, d, true, out);
      ScanFacts(e, d, true, out, ChannelOf(e, d, n));
    }
  }

  /** What it lets through was staged, found nobody applying and passed its gate. */
  lemma {:induction false} ApplyLeaves(e: Env, d: Disk, d': Disk, n: string, admit: Gate, now: nat)
    requires Effect(e, d, d', Request.Apply(n, admit), now, true)
    ensures AtStage(d, n, Staged) && MovedOn(d, d', n, Applying, now)
    ensures Trusted(e, d) ==>
              (forall m :: !AtStage(d, m, Applying)) && GatePassed(e, d, ChannelOf(e, d, n), admit)
  {
    var target, out := EffectInFull(e, d, d', Request.Apply(n, admit), now);
    MoveRuns(d, n, Applying, now);
    if Trusted(e, d) {
      assert PlanFilesOk(e, d, n, MarkerOf(d, n));
      GoodProbe(e, d, n);
      ScanApplying(e, d, true, out);
      ScanFacts(e, d, true, out, ChannelOf(e, d, n));
    }
  }

  lemma {:induction false} FactsExist(e: Env, d: Disk, channel: string) returns (f: AdmissionFacts)
    requires Trusted(e, d)
    ensures FactsOf(e, d, channel, f)
  {
    ScanStarts(e, d, false);
    var out := ScanGoesOn(e, d, false, DirNames(d), []);
    ScanFacts(e, d, false, out, channel);
    f := Facts(out, channel);
  }

  /** The downgrade guard lets a plan through exactly if everything applied from its channel is older. */
  lemma {:induction false} DowngradeGate(e: Env, d: Disk, channel: string, sequence: nat)
    requires Trusted(e, d)
    ensures var guard := (f: AdmissionFacts) => NotDowngrade(sequence, f.latestAppliedSequence);
      var newest := forall m | AtStage(d, m, Applied) && ChannelOf(e, d, m) == channel :: MarkerOf(d, m).sequence < sequence;
      (GateOpen(e, d, channel, guard) <==> newest) && (GatePassed(e, d, channel, guard) <==> newest)
  {
    var f := FactsExist(e, d, channel);
    forall g | FactsOf(e, d, channel, g)
      ensures NotDowngrade(sequence, g.latestAppliedSequence) <==> NotDowngrade(sequence, f.latestAppliedSequence)
    {
      GuardMeaning(e, d, channel, f, sequence);
      GuardMeaning(e, d, channel, g, sequence);
    }
    GuardMeaning(e, d, channel, f, sequence);
  }

  // ---- Blobs ---------------------------------------------------------------------------------

  /** The bytes are what a well-formed digest says. */
  predicate Authentic(e: Env, digest: string, bytes: Bytes) {
    WellFormed(digest) && e.codec.sha256(bytes) == HexOf(digest)
  }

  lemma {:induction false} PutIsGrantedIff(e: Env, d: Disk, n: string, kind: BlobKind, digest: string, bytes: Bytes, now: nat)
    ensures Granted(e, d, Request.PutBlob(n, kind, digest, bytes), now) <==>
              Authentic(e, digest, bytes) && AtStage(d, n, Downloading)
  {
    var r := Request.PutBlob(n, kind, digest, bytes);
    if Granted(e, d, r, now) { GrantedFinds(e, d, r, now); }
  }

  /** The blob stands in its plan's directory, among the blobs of its kind, under its hash; nothing else changed. */
  lemma {:induction false} PutLeaves(e: Env, d: Disk, d': Disk, n: string, kind: BlobKind, digest: string, bytes: Bytes, now: nat)
    requires Effect(e, d, d', Request.PutBlob(n, kind, digest, bytes), now, true)
    ensures Authentic(e, digest, bytes) && AtStage(d, n, Downloading)
    ensures d' == d[Path(n, Blob(kind, DirName(HexOf(digest)))) := Raw(bytes)]
  {
    var target, out := EffectInFull(e, d, d', Request.PutBlob(n, kind, digest, bytes), now);
    ExecOne(d, BlobChoice(e, d, n, kind, digest, bytes).value[0]);
  }

  lemma {:induction false} StoreIsGrantedIff(e: Env, d: Disk, digest: string, bytes: Bytes, now: nat)
    ensures Granted(e, d, Request.CasPut(digest, bytes), now) <==> Authentic(e, digest, bytes)
    ensures Granted(e, d, Request.CasRemove(digest), now) <==> WellFormed(digest)
  {
    var put, remove := Request.CasPut(digest, bytes), Request.CasRemove(digest);
    if Granted(e, d, put, now) { GrantedFinds(e, d, put, now); }
    if Granted(e, d, remove, now) { GrantedFinds(e, d, remove, now); }
  }

  // ---- Retention -----------------------------------------------------------------------------

  function PlanIds(xs: seq<StageState>): seq<string> {
    seq(|xs|, i requires 0 <= i < |xs| => xs[i].planId)
  }

  /** The plans that have come to an end. */
  function TerminalPlans(d: Disk): set<string> {
    set p | p in d && p.place == StateJson && d[p].Marker? && d[p].state.stage in {Applied, Failed, Rejected} :: p.top
  }

  function EvictedLines(xs: seq<StageState>): seq<AuditEvent> {
    seq(|xs|, i requires 0 <= i < |xs| => Evicted(xs[i].planId, xs[i].stage))
  }

  /** Everything below these plans is gone, and nothing else. */
  ghost predicate WithoutPlans(d: Disk, d': Disk, ids: seq<string>) {
    forall p | p != AUDIT_PATH :: (p in d' <==> p in d && p.top !in ids) && (p in d' ==> d'[p] == d[p])
  }

  lemma {:induction false} EvictRuns(d: Disk, xs: seq<StageState>)
    requires forall x | x in xs :: x.planId != AUDIT_DIR
    ensures WithoutPlans(d, ExecAll(d, EvictWrites(xs)), PlanIds(xs))
    ensures AuditLines(ExecAll(d, EvictWrites(xs))) == AuditLines(d) + EvictedLines(xs)
    decreases |xs|
  {
    if xs != [] {
      var n, rest, ev := xs[0].planId, xs[1..], Evicted(xs[0].planId, xs[0].stage);
      var d2 := Exec(Exec(d, Evict(n, ev)), Append(ev));
      EvictsOne(d, n, ev);
      EvictRuns(d2, rest);
      EvictsThenRest(d, xs);
      assert PlanIds(xs) == [n] + PlanIds(rest);
      assert EvictedLines(xs) == [ev] + EvictedLines(rest);
      WithoutBoth(d, d2, ExecAll(d2, EvictWrites(rest)), n, PlanIds(rest));
    }
  }

  lemma {:induction false} EvictsThenRest(d: Disk, xs: seq<StageState>)
    requires xs != []
    ensures var ev := Evicted(xs[0].planId, xs[0].stage);
      ExecAll(d, EvictWrites(xs)) == ExecAll(Exec(Exec(d, Evict(xs[0].planId, ev)), Append(ev)), EvictWrites(xs[1..]))
  {
    assert EvictWrites(xs)[1..][1..] == EvictWrites(xs[1..]);
  }

  lemma {:induction false} EvictsOne(d: Disk, n: string, ev: AuditEvent)
    requires n != AUDIT_DIR
    ensures var d2 := Exec(Exec(d, Evict(n, ev)), Append(ev));
      WithoutPlans(d, d2, [n]) && AuditLines(d2) == AuditLines(d) + [ev]
  {
    assert AuditLines(Exec(d, Evict(n, ev))) == AuditLines(d);
  }

  lemma {:induction false} WithoutBoth(d: Disk, d2: Disk, d': Disk, n: string, ids: seq<string>)
    requires WithoutPlans(d, d2, [n]) && WithoutPlans(d2, d', ids)
    ensures WithoutPlans(d, d', [n] + ids)
  {}

  lemma {:induction false} DistinctCount(xs: seq<StageState>)
    requires Distinct(xs)
    ensures |set x | x in xs :: x.planId| == |xs|
  {
    if xs != [] {
      var rest := xs[1..];
      DistinctTail(xs);
      DistinctCount(rest);
      assert forall x | x in rest :: x.planId != xs[0].planId by {
        forall x | x in rest ensures x.planId != xs[0].planId {
          assert Listed(rest, x.planId);
        }
      }
      assert (set x | x in xs :: x.planId) == {xs[0].planId} + set x | x in rest :: x.planId;
    }
  }

  /** The retention order of a complete scan lists the terminal plans of the disk. */
  lemma {:induction false} OrderIsTerminal(e: Env, d: Disk, out: seq<StageState>)
    requires Trusted(e, d) && CompleteScan(e, d, false, out)
    ensures (set x | x in RetentionOrder(out) :: x.planId) == TerminalPlans(d)
    ensures |RetentionOrder(out)| == |TerminalPlans(d)|
    ensures forall x | x in RetentionOrder(out) ::
              HasMarker(d, x.planId) && MarkerOf(d, x.planId).updatedAt == x.updatedAt && MarkerOf(d, x.planId).stage == x.stage
  {
    RetentionOrderFacts(out);
    var r := RetentionOrder(out);
    forall x | x in r
      ensures HasMarker(d, x.planId) && MarkerOf(d, x.planId).updatedAt == x.updatedAt && MarkerOf(d, x.planId).stage == x.stage
      ensures x.planId in TerminalPlans(d)
    {
      var i :| 0 <= i < |out| && out[i] == x;
      assert ProbeEntry(e, d, out[i].planId) == Found(out[i]);
      GoodProbe(e, d, x.planId);
      StageLaws(x.stage, Applied);
      assert Path(x.planId, StateJson) in d;
    }
    forall n | n in TerminalPlans(d) ensures n in set x | x in r :: x.planId {
      GoodProbe(e, d, n);
      assert Listed(out, n);
      var i :| 0 <= i < |out| && out[i].planId == n;
      assert ProbeEntry(e, d, out[i].planId) == Found(out[i]);
      StageLaws(out[i].stage, Applied);
      assert out[i] in r;
    }
    DistinctCount(r);
  }

  /** As many of the terminal plans as are more than `keep`, and none of them newer than one that stays. */
  ghost predicate OldestBeyond(d: Disk, keep: nat, ids: seq<string>) {
    && NoRepeats(ids) && (forall n | n in ids :: n in TerminalPlans(d))
    && |TerminalPlans(d)| - |ids| == Min(keep, |TerminalPlans(d)|)
    && (forall n, m | n in TerminalPlans(d) && n !in ids && m in ids ::
          MarkerOf(d, m).updatedAt <= MarkerOf(d, n).updatedAt)
  }

  /** One audit line for each plan, with the stage it was at. */
  ghost predicate LinesFor(d: Disk, events: seq<AuditEvent>, ids: seq<string>) {
    && |events| == |ids|
    && forall i | 0 <= i < |ids| :: HasMarker(d, ids[i]) && events[i] == Evicted(ids[i], MarkerOf(d, ids[i]).stage)
  }

  /**
    What retention leaves: of the terminal plans the `keep` newest, or all if there are no more; the others are gone
    with all their files, each with its line in the log; every other file is as it was.
  */
  ghost predicate RetainedOn(d: Disk, d': Disk, keep: nat, ids: seq<string>) {
    && OldestBeyond(d, keep, ids) && WithoutPlans(d, d', ids)
    && exists events :: AuditLines(d') == AuditLines(d) + events && LinesFor(d, events, ids)
  }

  ghost predicate Ranked(d: Disk, x: StageState) {
    && x.planId in TerminalPlans(d) && HasMarker(d, x.planId)
    && MarkerOf(d, x.planId).updatedAt == x.updatedAt && MarkerOf(d, x.planId).stage == x.stage
  }

  /** `r` ranks the terminal plans of the disk by age, the newest first. */
  ghost predicate Ranking(d: Disk, r: seq<StageState>) {
    && Descending(r) && Distinct(r) && |r| == |TerminalPlans(d)|
    && (forall i | 0 <= i < |r| :: Ranked(d, r[i]))
    && (forall n | n in TerminalPlans(d) :: Listed(r, n))
  }

  lemma {:induction false} OrderRanks(e: Env, d: Disk, out: seq<StageState>)
    requires Trusted(e, d) && CompleteScan(e, d, false, out)
    ensures Ranking(d, RetentionOrder(out))
  {
    OrderIsTerminal(e, d, out);
    RetentionOrderFacts(out);
    var r := RetentionOrder(out);
    forall i | 0 <= i < |r| ensures Ranked(d, r[i]) {
      assert r[i] in r;
    }
    forall n | n in TerminalPlans(d) ensures Listed(r, n) {
      assert n in set x | x in r :: x.planId;
      var i :| 0 <= i < |r| && r[i].planId == n;
    }
  }

  lemma {:induction false} BeyondIsSkipped(r: seq<StageState>, keep: nat, i: nat)
    requires keep <= i < |r|
    ensures r[i].planId in PlanIds(Skip(r, keep))
  {
    assert PlanIds(Skip(r, keep))[i - keep] == r[i].planId;
  }

  lemma {:induction false} OlderLater(d: Disk, r: seq<StageState>, keep: nat, n: string, m: string)
    requires Ranking(d, r) && n in TerminalPlans(d)
    requires n !in PlanIds(Skip(r, keep)) && m in PlanIds(Skip(r, keep))
    ensures HasMarker(d, n) && HasMarker(d, m) && MarkerOf(d, m).updatedAt <= MarkerOf(d, n).updatedAt
  {
    var ids := PlanIds(Skip(r, keep));
    var j :| 0 <= j < |ids| && ids[j] == m;
    assert Listed(r, n);
    var i :| 0 <= i < |r| && r[i].planId == n;
    if i >= keep {
      BeyondIsSkipped(r, keep, i);
      assert false;
    }
    assert Newer(r, i, keep + j);
    assert Ranked(d, r[i]) && Ranked(d, r[keep + j]);
  }

  /** The plans beyond the budget are the oldest, and as many as are too many. */
  lemma {:induction false} SkipLeaves(d: Disk, r: seq<StageState>, keep: nat)
    requires Ranking(d, r)
    ensures OldestBeyond(d, keep, PlanIds(Skip(r, keep)))
  {
    var ids := PlanIds(Skip(r, keep));
    forall i, j | 0 <= i < j < |ids| ensures ids[i] != ids[j] {
      assert r[keep + i].planId != r[keep + j].planId;
    }
    forall i | 0 <= i < |ids| ensures ids[i] in TerminalPlans(d) {
      assert Ranked(d, r[keep + i]);
    }
    forall n, m | n in TerminalPlans(d) && n !in ids && m in ids
      ensures MarkerOf(d, m).updatedAt <= MarkerOf(d, n).updatedAt
    {
      OlderLater(d, r, keep, n, m);
    }
  }

  lemma {:induction false} SkipLines(d: Disk, r: seq<StageState>, keep: nat)
    requires Ranking(d, r)
    ensures LinesFor(d, EvictedLines(Skip(r, keep)), PlanIds(Skip(r, keep)))
    ensures forall x | x in Skip(r, keep) :: x.planId in TerminalPlans(d)
  {
    var xs := Skip(r, keep);
    forall i | 0 <= i < |xs| ensures Ranked(d, xs[i]) { assert xs[i] == r[keep + i]; }
  }

  /** Retention evicts the oldest terminal plans beyond its budget, and does nothing else. */
  lemma {:induction false} RetainLeaves(e: Env, d: Disk, out: seq<StageState>, keep: nat)
    requires Trusted(e, d) && CompleteScan(e, d, false, out)
    ensures RetainedOn(d, ExecAll(d, RetainWrites(out, keep)), keep, PlanIds(Skip(RetentionOrder(out), keep)))
  {
    var xs := Skip(RetentionOrder(out), keep);
    OrderRanks(e, d, out);
    SkipLeaves(d, RetentionOrder(out), keep);
    SkipLines(d, RetentionOrder(out), keep);
    forall x | x in xs ensures x.planId != AUDIT_DIR {
      assert PlanFilesOk(e, d, x.planId, MarkerOf(d, x.planId));
    }
    EvictRuns(d, xs);
  }
}
