/**
  Runs of any number of processes over one environment: interleaved step by step, with the
  lock as a resource and an end, error, fault or crash possible at every step.
*/
module StagingRuns {
  import opened Wrappers
  import opened Plan
  import opened Disk
  import opened Staging
  import opened Operations

  /** Where a process stands inside a locking operation. */
  datatype Pc =
    | Idle
    | Holding(req: Request)
    | Scanning(req: Request, target: Probe, todo: set<string>, out: seq<StageState>)
    | Writing(script: seq<Write>)

  datatype World = World(disk: Disk, holder: Option<nat>, pcs: map<nat, Pc>, history: seq<AuditEvent>, clock: nat)

  datatype Step =
    | Acquire(pid: nat, req: Request)
    | Reenter(pid: nat, req: Request)
    | StartScan(pid: nat)
    | Visit(pid: nat, name: string)
    | Decided(pid: nat, now: nat)
    | Commit(pid: nat)
    | Stop(pid: nat)

  ghost function PcOf(w: World, p: nat): Pc {
    if p in w.pcs then w.pcs[p] else Idle
  }

  /** The event that a write commits, if it commits one. */
  function Committed(w: Write): seq<AuditEvent> {
    match w
    case PutMarker(_, _, ev) => [ev]
    case Evict(_, ev) => [ev]
    case _ => []
  }

  ghost function Target(d: Disk, r: Request): Probe {
    if r.Apply? then ReadState(d, r.planId) else Missing
  }

  ghost predicate ReadyToDecide(pc: Pc) {
    || (pc.Holding? && !Scans(pc.req))
    || (pc.Scanning? && pc.todo == {})
  }

  ghost function Decision(e: Env, d: Disk, pc: Pc, now: nat): Option<seq<Write>>
    requires ReadyToDecide(pc)
  {
    match pc
    case Holding(r) => Decide(e, d, r, Missing, [], now)
    case Scanning(r, target, _, out) => Decide(e, d, r, target, out, now)
  }

  ghost predicate Next(e: Env, w: World, s: Step, w': World) {
    var pc := PcOf(w, s.pid);
    match s
    case Acquire(p, r) =>
      && w.holder == None && pc == Idle
      && w' == w.(holder := Some(p), pcs := w.pcs[p := Holding(r)])
    case Reenter(p, r) =>
      w.holder == Some(p) && w' == w
    case StartScan(p) =>
      && pc.Holding? && Scans(pc.req)
      && w' == w.(pcs := w.pcs[p := Scanning(pc.req, Target(w.disk, pc.req), DirNames(w.disk), [])])
    case Visit(p, n) =>
      && pc.Scanning? && n in pc.todo
      && (ScansStrictly(pc.req) ==> !ProbeEntry(e, w.disk, n).Untrusted?)
      && w' == w.(pcs := w.pcs[p := pc.(todo := pc.todo - {n}, out := Noted(pc.out, ProbeEntry(e, w.disk, n)))])
    case Decided(p, now) =>
      && ReadyToDecide(pc) && Decision(e, w.disk, pc, now).Some?
      && w' == w.(pcs := w.pcs[p := Writing(Decision(e, w.disk, pc, now).value)], clock := now)
    case Commit(p) =>
      && pc.Writing? && pc.script != []
      && w' == w.(disk := Exec(w.disk, pc.script[0]), pcs := w.pcs[p := Writing(pc.script[1..])],
                  history := w.history + Committed(pc.script[0]))
    case Stop(p) =>
      pc != Idle && w' == w.(holder := None, pcs := w.pcs[p := Idle])
  }

  /** Decisions are asked for by disciplined callers only. */
  ghost predicate DisciplinedStep(e: Env, w: World, s: Step) {
    s.Decided? ==>
      var pc := PcOf(w, s.pid);
      (pc.Holding? || pc.Scanning?) && Disciplined(e, w.disk, pc.req)
  }

  // ---- The invariant -------------------------------------------------------------------

  ghost predicate LockInv(w: World) {
    forall p: nat | PcOf(w, p) != Idle :: w.holder == Some(p)
  }

  ghost predicate PcOk(e: Env, d: Disk, pc: Pc) {
    match pc
    case Idle => true
    case Holding(_) => true
    case Scanning(r, target, todo, out) =>
      Scans(r) && target == Target(d, r) && PartialScan(e, d, ScansStrictly(r), todo, out)
    case Writing(ws) => Legal(e, d, ws)
  }

  ghost predicate Inv(e: Env, w: World) {
    && JsonFaithful(e.codec)
    && LockInv(w)
    && GoodDisk(e, w.disk)
    && forall p: nat :: PcOk(e, w.disk, PcOf(w, p))
  }

  lemma {:induction false} OthersIdle(e: Env, w: World, s: Step, w': World, q: nat)
    requires LockInv(w) && Next(e, w, s, w') && q != s.pid
    ensures PcOf(w', q) == PcOf(w, q)
    ensures !s.Reenter? ==> PcOf(w, q) == Idle
  {}

  lemma {:induction false} LockPreserved(e: Env, w: World, s: Step, w': World)
    requires LockInv(w) && Next(e, w, s, w')
    ensures LockInv(w')
  {
    forall q: nat | PcOf(w', q) != Idle ensures w'.holder == Some(q) {
      if q != s.pid { OthersIdle(e, w, s, w', q); }
    }
  }

  lemma {:induction false} DecisionLegal(e: Env, w: World, p: nat, now: nat)
    requires Inv(e, w) && ReadyToDecide(PcOf(w, p)) && Decision(e, w.disk, PcOf(w, p), now).Some?
    requires Disciplined(e, w.disk, PcOf(w, p).req)
    ensures Legal(e, w.disk, Decision(e, w.disk, PcOf(w, p), now).value)
  {
    var pc := PcOf(w, p);
    assert PcOk(e, w.disk, pc);
    if pc.Holding? {
      DecideLegal(e, w.disk, pc.req, Missing, [], now);
    } else {
      DecideLegal(e, w.disk, pc.req, pc.target, pc.out, now);
    }
  }

  lemma {:induction false} OwnPcPreserved(e: Env, w: World, s: Step, w': World)
    requires Inv(e, w) && Next(e, w, s, w') && DisciplinedStep(e, w, s)
    ensures PcOk(e, w'.disk, PcOf(w', s.pid))
  {
    var pc := PcOf(w, s.pid);
    assert PcOk(e, w.disk, pc);
    match s
    case StartScan(p) => ScanStarts(e, w.disk, ScansStrictly(pc.req));
    case Visit(p, n) => ScanStep(e, w.disk, ScansStrictly(pc.req), pc.todo, pc.out, n);
    case Decided(p, now) => DecisionLegal(e, w, p, now);
    case _ =>
  }

  /** Every step of every process keeps the invariant. */
  lemma {:induction false} InvPreserved(e: Env, w: World, s: Step, w': World)
    requires Inv(e, w) && Next(e, w, s, w') && DisciplinedStep(e, w, s)
    ensures Inv(e, w')
  {
    LockPreserved(e, w, s, w');
    OwnPcPreserved(e, w, s, w');
    assert PcOk(e, w.disk, PcOf(w, s.pid));
    if s.Commit? {
      GoodPreserved(e, w.disk, PcOf(w, s.pid).script[0]);
    }
    forall q: nat ensures PcOk(e, w'.disk, PcOf(w', q)) {
      assert PcOk(e, w.disk, PcOf(w, q));
      if q != s.pid { OthersIdle(e, w, s, w', q); }
    }
  }

  // ---- Runs ----------------------------------------------------------------------------

  datatype Run = Run(worlds: seq<World>, steps: seq<Step>)

  /** A fresh start: a good disk (an empty one, say), a free lock, nobody inside. */
  ghost predicate Init(e: Env, w: World) {
    && JsonFaithful(e.codec) && GoodDisk(e, w.disk)
    && w.holder == None && w.pcs == map[] && w.history == []
  }

  ghost predicate StepAt(e: Env, r: Run, i: int)
    requires |r.worlds| == |r.steps| + 1 && 0 <= i < |r.steps|
  {
    Next(e, r.worlds[i], r.steps[i], r.worlds[i + 1]) && DisciplinedStep(e, r.worlds[i], r.steps[i])
  }

  ghost predicate IsRun(e: Env, r: Run) {
    && |r.worlds| == |r.steps| + 1
    && Init(e, r.worlds[0])
    && forall i | 0 <= i < |r.steps| :: StepAt(e, r, i)
  }

  /** An empty directory is a good start. */
  lemma {:induction false} EmptyIsGood(e: Env)
    ensures GoodDisk(e, map[])
  {}

  lemma {:induction false} InvHolds(e: Env, r: Run, i: nat)
    requires IsRun(e, r) && i < |r.worlds|
    ensures Inv(e, r.worlds[i])
  {
    if i > 0 {
      InvHolds(e, r, i - 1);
      assert StepAt(e, r, i - 1);
      InvPreserved(e, r.worlds[i - 1], r.steps[i - 1], r.worlds[i]);
    }
  }

  /** Two processes are never inside a locking operation together. */
  lemma {:induction false} MutualExclusion(e: Env, r: Run, i: nat, p: nat, q: nat)
    requires IsRun(e, r) && i < |r.worlds|
    requires PcOf(r.worlds[i], p) != Idle && PcOf(r.worlds[i], q) != Idle
    ensures p == q
  {
    InvHolds(e, r, i);
  }

  /** Main result: at every moment of every run at most one plan is `Applying`. */
  lemma {:induction false} AtMostOneApplying(e: Env, r: Run, i: nat, m: string, n: string)
    requires IsRun(e, r) && i < |r.worlds|
    requires AtStage(r.worlds[i].disk, m, Applying) && AtStage(r.worlds[i].disk, n, Applying)
    ensures m == n
  {
    InvHolds(e, r, i);
  }

  /** The write that a commit step performs. */
  ghost function WriteAt(r: Run, i: nat): Write
    requires |r.worlds| == |r.steps| + 1 && i < |r.steps| && r.steps[i].Commit?
    requires PcOf(r.worlds[i], r.steps[i].pid).Writing? && PcOf(r.worlds[i], r.steps[i].pid).script != []
  {
    PcOf(r.worlds[i], r.steps[i].pid).script[0]
  }

  ghost predicate Commits(r: Run, i: int) {
    && |r.worlds| == |r.steps| + 1 && 0 <= i < |r.steps| && r.steps[i].Commit?
    && PcOf(r.worlds[i], r.steps[i].pid).Writing? && PcOf(r.worlds[i], r.steps[i].pid).script != []
  }

  lemma {:induction false} StepEffect(e: Env, r: Run, i: nat)
    requires IsRun(e, r) && i < |r.steps|
    ensures r.steps[i].Commit? <==> Commits(r, i)
    ensures Commits(r, i) ==>
              && GoodDisk(e, r.worlds[i].disk) && WriteOk(e, r.worlds[i].disk, WriteAt(r, i))
              && r.worlds[i + 1].disk == Exec(r.worlds[i].disk, WriteAt(r, i))
    ensures !Commits(r, i) ==> r.worlds[i + 1].disk == r.worlds[i].disk
  {
    InvHolds(e, r, i);
    assert StepAt(e, r, i);
    assert PcOk(e, r.worlds[i].disk, PcOf(r.worlds[i], r.steps[i].pid));
  }

  /**
    Main result: whenever a plan becomes `Applied`, its sequence is strictly above every plan
    already `Applied` from its channel, although the check was made at admission.
  */
  lemma {:induction false} AppliedAboveAll(e: Env, r: Run, i: nat, n: string, m: string)
    requires IsRun(e, r) && i < |r.steps|
    requires !AtStage(r.worlds[i].disk, n, Applied) && AtStage(r.worlds[i + 1].disk, n, Applied)
    requires AtStage(r.worlds[i].disk, m, Applied) && SameChannel(e, r.worlds[i].disk, m, n)
    ensures MarkerOf(r.worlds[i].disk, m).sequence < MarkerOf(r.worlds[i + 1].disk, n).sequence
  {
    StepEffect(e, r, i);
    var d, w := r.worlds[i].disk, WriteAt(r, i);
    StageAfter(e, d, w, n, Applied);
    assert HasMarker(d, n) && MoveOk(e, d, n, w.state, w.event);
    assert AtStage(d, n, Applying);
  }

  // ---- Frozen plans ----------------------------------------------------------------------

  predicate SameIdentity(s: StageState, t: StageState) {
    t == s.(stage := t.stage, updatedAt := t.updatedAt)
  }

  ghost predicate SameBlobs(d: Disk, d': Disk, n: string) {
    forall k, dir ::
      (Path(n, Blob(k, dir)) in d <==> Path(n, Blob(k, dir)) in d')
      && (Path(n, Blob(k, dir)) in d ==> d[Path(n, Blob(k, dir))] == d'[Path(n, Blob(k, dir))])
  }

  /** The plan's document, signature and identity stay, and once it has left `Downloading` so do its blobs. */
  ghost predicate Frozen(d: Disk, d': Disk, n: string) {
    && HasMarker(d, n) && HasMarker(d', n)
    && SamePlan(d, d', n)
    && SameIdentity(MarkerOf(d, n), MarkerOf(d', n))
    && (MarkerOf(d, n).stage != Downloading ==> MarkerOf(d', n).stage != Downloading && SameBlobs(d, d', n))
  }

  lemma {:induction false} FrozenStep(e: Env, d: Disk, w: Write, n: string)
    requires GoodDisk(e, d) && WriteOk(e, d, w) && HasMarker(d, n) && !(w.Evict? && w.name == n)
    ensures Frozen(d, Exec(d, w), n)
  {
    MarkerFrame(e, d, w, n);
    InfrastructureNamesDiffer();
    assert PlanFilesOk(e, d, n, MarkerOf(d, n));
  }

  lemma {:induction false} FrozenTrans(d: Disk, d1: Disk, d2: Disk, n: string)
    requires Frozen(d, d1, n) && Frozen(d1, d2, n)
    ensures Frozen(d, d2, n)
  {
    if MarkerOf(d, n).stage != Downloading {
      assert SameBlobs(d, d1, n) && SameBlobs(d1, d2, n);
    }
  }

  ghost predicate EvictsAt(r: Run, i: int, n: string) {
    Commits(r, i) && WriteAt(r, i).Evict? && WriteAt(r, i).name == n
  }

  /**
    Main result: between two moments without an eviction of the plan, its `plan.json`, its
    signature and its identity never change, nor do its blobs once it has left `Downloading`.
  */
  lemma {:induction false} PlansAreFrozen(e: Env, r: Run, i: nat, j: nat, n: string)
    requires IsRun(e, r) && i <= j < |r.worlds|
    requires HasMarker(r.worlds[i].disk, n)
    requires forall k | i <= k < j :: !EvictsAt(r, k, n)
    ensures Frozen(r.worlds[i].disk, r.worlds[j].disk, n)
    decreases j - i
  {
    if i < j {
      PlansAreFrozen(e, r, i, j - 1, n);
      StepEffect(e, r, j - 1);
      var d, d' := r.worlds[j - 1].disk, r.worlds[j].disk;
      if Commits(r, j - 1) {
        assert !EvictsAt(r, j - 1, n);
        FrozenStep(e, d, WriteAt(r, j - 1), n);
      }
      FrozenTrans(r.worlds[i].disk, d, d', n);
    }
  }

  /** Whenever a marker exists, document and signature stand beside it, verify together, and are what it records. */
  lemma {:induction false} MarkersMatchPlans(e: Env, r: Run, i: nat, n: string)
    requires IsRun(e, r) && i < |r.worlds| && HasMarker(r.worlds[i].disk, n)
    ensures PlanFilesOk(e, r.worlds[i].disk, n, MarkerOf(r.worlds[i].disk, n))
  {
    InvHolds(e, r, i);
  }
}
