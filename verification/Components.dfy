/**
  The shared directory as independent parts: one directory per plan, the store, the receipt and
  the audit log, each of which only its own operations change (src/staging.rs:943-957, 1524-1558).
*/
module Components {
  import opened Wrappers
  import opened ByteStrings
  import opened Plan
  import opened Disk
  import opened Staging
  import opened Operations
  import opened StagingRuns
  import opened StagingClock
  import opened CasStore
  import opened Layout
  import Outcomes

  // ---- The parts of a disk, slot by slot ---------------------------------------------------

  function FileAt(d: Disk, p: Path): Option<File> {
    if p in d then Some(d[p]) else None
  }

  function PlanFile(d: Disk, n: string, place: Place): Option<File> {
    FileAt(d, Path(n, place))
  }

  function StoreFile(d: Disk, name: string): Option<File> {
    FileAt(d, Path(CAS_DIR, Named(name)))
  }

  datatype Receipt = Receipt(body: Option<File>, sig: Option<File>)

  function ReceiptOf(d: Disk): Receipt {
    Receipt(FileAt(d, RECEIPT_PATH), FileAt(d, RECEIPT_SIG_PATH))
  }

  // ---- What each part makes of a write ---------------------------------------------------

  /** Plan `n` listens to its own marker, its own files and its own eviction. */
  function PlanStep(f: Option<File>, n: string, place: Place, w: Write): Option<File> {
    match w
    case PutMarker(k, s, _) => if k == n && place.StateJson? then Some(Marker(s)) else f
    case PutFile(p, g) => if p == Path(n, place) then Some(g) else f
    case Evict(k, _) => if k == n then None else f
    case _ => f
  }

  /** The store listens to its own puts and removals. */
  function StoreFileStep(f: Option<File>, name: string, w: Write): Option<File> {
    match w
    case PutFile(p, g) => if p.place == Named(name) then Some(g) else f
    case RemoveFile(p) => if p.place == Named(name) then None else f
    case _ => f
  }

  function ReceiptStep(r: Receipt, w: Write): Receipt {
    if w.PutFile? && w.path == RECEIPT_PATH then r.(body := Some(w.file))
    else if w.PutFile? && w.path == RECEIPT_SIG_PATH then r.(sig := Some(w.file))
    else r
  }

  function AuditStep(a: seq<AuditEvent>, w: Write): seq<AuditEvent> {
    if w.Append? then a + [w.event] else a
  }

  // ---- Each write refines one step of each part ------------------------------------------------

  lemma {:induction false} PlanRefines(e: Env, d: Disk, w: Write, n: string, place: Place)
    requires GoodDisk(e, d) && WriteOk(e, d, w) && ValidPlanId(n)
    ensures PlanFile(Exec(d, w), n, place) == PlanStep(PlanFile(d, n, place), n, place, w)
  {
    InfrastructureNamesDiffer();
  }

  lemma {:induction false} EvictsPlansOnly(e: Env, d: Disk, w: Write)
    requires GoodDisk(e, d) && WriteOk(e, d, w) && w.Evict?
    ensures ValidPlanId(w.name)
  {
    assert PlanFilesOk(e, d, w.name, MarkerOf(d, w.name));
  }

  lemma {:induction false} StoreRefines(e: Env, d: Disk, w: Write, name: string)
    requires GoodDisk(e, d) && WriteOk(e, d, w)
    ensures StoreFile(Exec(d, w), name) == StoreFileStep(StoreFile(d, name), name, w)
  {
    InfrastructureNamesDiffer();
    if w.Evict? { EvictsPlansOnly(e, d, w); }
  }

  lemma {:induction false} ReceiptRefines(e: Env, d: Disk, w: Write)
    requires GoodDisk(e, d) && WriteOk(e, d, w)
    ensures ReceiptOf(Exec(d, w)) == ReceiptStep(ReceiptOf(d), w)
  {
    InfrastructureNamesDiffer();
    if w.Evict? { EvictsPlansOnly(e, d, w); }
  }

  lemma {:induction false} AuditRefines(e: Env, d: Disk, w: Write)
    requires GoodDisk(e, d) && WriteOk(e, d, w)
    ensures AuditLines(Exec(d, w)) == AuditStep(AuditLines(d), w)
  {
    InfrastructureNamesDiffer();
    if w.Evict? { EvictsPlansOnly(e, d, w); }
  }

  // ---- What the reserved names are for ----------------------------------------------------------

  lemma {:induction false} EvictsByTop(d: Disk, ws: seq<Write>, p: Path)
    requires OnlyEvicts(ws) && p != AUDIT_PATH
    ensures p in ExecAll(d, ws) <==> p in d && !Evicts(ws, p.top)
    ensures p in ExecAll(d, ws) ==> ExecAll(d, ws)[p] == d[p]
    decreases |ws|
  {
    if ws != [] {
      assert ws[0] in ws;
      EvictsByTop(Exec(d, ws[0]), ws[1..], p);
      EvictsSplit(ws, p.top);
    }
  }

  /** Whatever list retention works on, the store survives it exactly when the list does not name its directory. */
  lemma {:induction false} StoreLostIff(d: Disk, out: seq<StageState>, keep: nat)
    ensures Store(ExecAll(d, RetainWrites(out, keep)))
            == if Listed(Skip(RetentionOrder(out), keep), CAS_DIR) then map[] else Store(d)
  {
    InfrastructureNamesDiffer();
    var xs, ws := Skip(RetentionOrder(out), keep), RetainWrites(out, keep);
    EvictWritesFacts(xs, CAS_DIR);
    var d' := ExecAll(d, ws);
    var m := if Listed(xs, CAS_DIR) then map[] else Store(d);
    forall hex
      ensures hex in m <==> HasRaw(d', CasPath(hex))
      ensures hex in m ==> m[hex] == d'[CasPath(hex)].bytes
    {
      StoreIs(d, hex);
      EvictsByTop(d, ws, CasPath(hex));
    }
    SameStore(d', m);
  }

  /** A scan never lists a reserved name, so retention never takes the store, on any disk. */
  lemma {:induction false} RetentionSparesStore(e: Env, d: Disk, out: seq<StageState>, keep: nat)
    requires CompleteScan(e, d, false, out)
    ensures Store(ExecAll(d, RetainWrites(out, keep))) == Store(d)
  {
    StoreLostIff(d, out, keep);
    RetentionOrderFacts(out);
    InfrastructureNamesDiffer();
    var r := RetentionOrder(out);
    var xs := Skip(r, keep);
    forall i | 0 <= i < |xs| ensures ValidPlanId(xs[i].planId) {
      assert xs[i] in r;
      var k :| 0 <= k < |out| && out[k] == xs[i];
      assert ProbeEntry(e, d, out[k].planId) == Found(out[k]);
    }
  }

  // ---- Whole runs --------------------------------------------------------------------------------

  /** The writes committed in the first `i` steps of a run. */
  ghost function WritesUpTo(r: Run, i: nat): seq<Write>
    requires i <= |r.steps|
  {
    if i == 0 then []
    else WritesUpTo(r, i - 1) + if Commits(r, i - 1) then [WriteAt(r, i - 1)] else []
  }

  function PlanAfter(f: Option<File>, n: string, place: Place, ws: seq<Write>): Option<File> {
    if ws == [] then f else PlanStep(PlanAfter(f, n, place, ws[..|ws| - 1]), n, place, ws[|ws| - 1])
  }

  function StoreFileAfter(f: Option<File>, name: string, ws: seq<Write>): Option<File> {
    if ws == [] then f else StoreFileStep(StoreFileAfter(f, name, ws[..|ws| - 1]), name, ws[|ws| - 1])
  }

  function ReceiptAfter(r: Receipt, ws: seq<Write>): Receipt {
    if ws == [] then r else ReceiptStep(ReceiptAfter(r, ws[..|ws| - 1]), ws[|ws| - 1])
  }

  function AuditAfter(a: seq<AuditEvent>, ws: seq<Write>): seq<AuditEvent> {
    if ws == [] then a else AuditStep(AuditAfter(a, ws[..|ws| - 1]), ws[|ws| - 1])
  }

  /** Disk `d` is, part by part, what `ws` make of each part of `d0` on its own. */
  ghost predicate PartwiseAfter(d0: Disk, ws: seq<Write>, d: Disk) {
    && (forall name :: StoreFile(d, name) == StoreFileAfter(StoreFile(d0, name), name, ws))
    && ReceiptOf(d) == ReceiptAfter(ReceiptOf(d0), ws)
    && AuditLines(d) == AuditAfter(AuditLines(d0), ws)
    && forall n, place | ValidPlanId(n) :: PlanFile(d, n, place) == PlanAfter(PlanFile(d0, n, place), n, place, ws)
  }

  lemma {:induction false} PartwiseStep(e: Env, d0: Disk, ws: seq<Write>, d: Disk, w: Write)
    requires PartwiseAfter(d0, ws, d) && GoodDisk(e, d) && WriteOk(e, d, w)
    ensures PartwiseAfter(d0, ws + [w], Exec(d, w))
  {
    assert (ws + [w])[..|ws|] == ws;
    ReceiptRefines(e, d, w);
    AuditRefines(e, d, w);
    forall name ensures StoreFile(Exec(d, w), name) == StoreFileAfter(StoreFile(d0, name), name, ws + [w]) {
      StoreRefines(e, d, w, name);
    }
    forall n, place | ValidPlanId(n)
      ensures PlanFile(Exec(d, w), n, place) == PlanAfter(PlanFile(d0, n, place), n, place, ws + [w])
    {
      PlanRefines(e, d, w, n, place);
    }
  }

  /** Main result: along every run the shared directory refines its independent parts. */
  lemma {:induction false} RunsRefineParts(e: Env, r: Run, i: nat)
    requires IsRun(e, r) && i < |r.worlds|
    ensures PartwiseAfter(r.worlds[0].disk, WritesUpTo(r, i), r.worlds[i].disk)
  {
    if i > 0 {
      RunsRefineParts(e, r, i - 1);
      RunStepRefines(e, r, i - 1);
    }
  }

  lemma {:induction false} RunStepRefines(e: Env, r: Run, i: nat)
    requires IsRun(e, r) && i < |r.steps|
    requires PartwiseAfter(r.worlds[0].disk, WritesUpTo(r, i), r.worlds[i].disk)
    ensures PartwiseAfter(r.worlds[0].disk, WritesUpTo(r, i + 1), r.worlds[i + 1].disk)
  {
    StepEffect(e, r, i);
    if Commits(r, i) {
      PartwiseStep(e, r.worlds[0].disk, WritesUpTo(r, i), r.worlds[i].disk, WriteAt(r, i));
    } else {
      assert WritesUpTo(r, i + 1) == WritesUpTo(r, i);
    }
  }

  /** Between two moments of a run one permitted write was committed, or none. */
  predicate Advances(d: Disk, ws: seq<Write>, w: Option<Write>, d': Disk, ws': seq<Write>) {
    if w.Some? then d' == Exec(d, w.value) && ws' == ws + [w.value] else d' == d && ws' == ws
  }

  lemma {:induction false} StepAdvances(e: Env, r: Run, i: nat) returns (w: Option<Write>)
    requires IsRun(e, r) && 0 < i < |r.worlds|
    ensures Advances(r.worlds[i - 1].disk, WritesUpTo(r, i - 1), w, r.worlds[i].disk, WritesUpTo(r, i))
    ensures MarkersOk(e, r.worlds[i - 1].disk) && (w.Some? ==> WriteOk(e, r.worlds[i - 1].disk, w.value))
  {
    StepEffect(e, r, i - 1);
    InvHolds(e, r, i - 1);
    w := if Commits(r, i - 1) then Some(WriteAt(r, i - 1)) else None;
  }

  function Fold<S>(s: S, step: (S, Write) -> S, ws: seq<Write>): S {
    if ws == [] then s else step(Fold(s, step, ws[..|ws| - 1]), ws[|ws| - 1])
  }

  /** Every permitted write does to the abstraction of a disk what `step` does. */
  ghost predicate Simulates<S(!new)>(e: Env, abs: Disk -> S, step: (S, Write) -> S) {
    forall d, w | MarkersOk(e, d) && WriteOk(e, d, w) :: abs(Exec(d, w)) == step(abs(d), w)
  }

  lemma {:induction false} FoldAdvances<S(!new)>(e: Env, abs: Disk -> S, step: (S, Write) -> S, s: S, d: Disk, ws: seq<Write>,
                                                 w: Option<Write>, d': Disk, ws': seq<Write>)
    requires Simulates(e, abs, step) && Advances(d, ws, w, d', ws')
    requires MarkersOk(e, d) && (w.Some? ==> WriteOk(e, d, w.value)) && abs(d) == Fold(s, step, ws)
    ensures abs(d') == Fold(s, step, ws')
  {
    if w.Some? { assert (ws + [w.value])[..|ws|] == ws; }
  }

  /** What every write simulates, every run does. */
  lemma {:induction false} RunsSimulate<S(!new)>(e: Env, abs: Disk -> S, step: (S, Write) -> S, r: Run, i: nat)
    requires IsRun(e, r) && i < |r.worlds| && Simulates(e, abs, step)
    ensures abs(r.worlds[i].disk) == Fold(abs(r.worlds[0].disk), step, WritesUpTo(r, i))
  {
    if i > 0 {
      RunsSimulate(e, abs, step, r, i - 1);
      var w := StepAdvances(e, r, i);
      FoldAdvances(e, abs, step, abs(r.worlds[0].disk), r.worlds[i - 1].disk, WritesUpTo(r, i - 1), w,
                   r.worlds[i].disk, WritesUpTo(r, i));
    }
  }

  /** The store's map after a run is what its committed puts and removals make of it. */
  lemma {:induction false} RunsRefineStore(e: Env, r: Run, i: nat)
    requires IsRun(e, r) && i < |r.worlds|
    ensures Store(r.worlds[i].disk) == Fold(Store(r.worlds[0].disk), StoreStep, WritesUpTo(r, i))
  {
    forall d, w | MarkersOk(e, d) && WriteOk(e, d, w) ensures Store(Exec(d, w)) == StoreStep(Store(d), w) {
      WriteRefinesStore(e, d, w);
    }
    RunsSimulate(e, Store, StoreStep, r, i);
  }

  function TreeAfter(env: seq<string>, t: Tree, ws: seq<Write>): Tree {
    if ws == [] then t else TreeStep(env, TreeAfter(env, t, ws[..|ws| - 1]), ws[|ws| - 1])
  }

  /**
    Main result: along every run the map of paths is what the file system holds, file by file, each at the place
    that joining its names to the environment directory leads to.
  */
  lemma {:induction false} RunsRealize(e: Env, env: seq<string>, r: Run, i: nat, t: Tree)
    requires IsRun(e, r) && i < |r.worlds| && HashesAreHex(e)
    requires Placed(r.worlds[0].disk) && Realizes(env, r.worlds[0].disk, t)
    ensures Placed(r.worlds[i].disk) && Realizes(env, r.worlds[i].disk, TreeAfter(env, t, WritesUpTo(r, i)))
  {
    if i > 0 {
      RunsRealize(e, env, r, i - 1, t);
      var w := StepAdvances(e, r, i);
      TreeExtends(e, env, t, r.worlds[i - 1].disk, WritesUpTo(r, i - 1), w, r.worlds[i].disk, WritesUpTo(r, i));
    }
  }

  lemma {:induction false} TreeExtends(e: Env, env: seq<string>, t: Tree, d: Disk, ws: seq<Write>, w: Option<Write>,
                                       d': Disk, ws': seq<Write>)
    requires Advances(d, ws, w, d', ws') && MarkersOk(e, d) && (w.Some? ==> WriteOk(e, d, w.value)) && HashesAreHex(e)
    requires Placed(d) && Realizes(env, d, TreeAfter(env, t, ws))
    ensures Placed(d') && Realizes(env, d', TreeAfter(env, t, ws'))
  {
    if w.Some? {
      WriteRealizes(e, env, d, TreeAfter(env, t, ws), w.value);
      assert (ws + [w.value])[..|ws|] == ws;
    }
  }

  // ---- Histories of calls --------------------------------------------------------------------------

  /** A call, when it was made and whether it succeeded. */
  datatype Made = Made(req: Request, now: nat, ok: bool)

  ghost predicate CallAt(e: Env, disks: seq<Disk>, calls: seq<Made>, i: int)
    requires |disks| == |calls| + 1 && 0 <= i < |calls|
  {
    Disciplined(e, disks[i], calls[i].req)
    && Outcomes.Effect(e, disks[i], disks[i + 1], calls[i].req, calls[i].now, calls[i].ok)
  }

  /** One call after the other, each with the effect that the methods promise. */
  ghost predicate CallHistory(e: Env, disks: seq<Disk>, calls: seq<Made>) {
    |disks| == |calls| + 1 && forall i | 0 <= i < |calls| :: CallAt(e, disks, calls, i)
  }

  /** The map after the calls that took effect. */
  function MapAfter(m: map<string, Bytes>, calls: seq<Made>, took: seq<bool>): map<string, Bytes>
    requires |took| == |calls|
  {
    if calls == [] then m
    else
      var n := |calls| - 1;
      var before := MapAfter(m, calls[..n], took[..n]);
      if took[n] then StoreOp(before, calls[n].req) else before
  }

  lemma {:induction false} CallRefinesStore(e: Env, d: Disk, d': Disk, r: Request, now: nat, ok: bool) returns (took: bool)
    requires GoodDisk(e, d) && JsonFaithful(e.codec) && Disciplined(e, d, r) && Outcomes.Effect(e, d, d', r, now, ok)
    ensures GoodDisk(e, d') && Took(d, d', r, took) && (ok ==> took)
  {
    Outcomes.EffectKeepsGood(e, d, d', r, now, ok);
    took := false;
    if ok || d' != d {
      var script, k :| Outcomes.DecidedOn(e, d, r, now, script) && Outcomes.Performed(d, d', script, k) && (ok ==> k == |script|);
      var target, out :| Informed(e, d, r, target, out) && Decide(e, d, r, target, out, now) == Some(script);
      ScriptRefinesStore(e, d, r, target, out, now, k);
      took := Store(d') == StoreOp(Store(d), r);
    }
  }

  /** The store of `d` is what the calls that took effect make of the map `m`. */
  predicate Keeps(d: Disk, m: map<string, Bytes>, calls: seq<Made>, took: seq<bool>) {
    |took| == |calls| && Store(d) == MapAfter(m, calls, took)
  }

  /** Call `r` made the map of `d'` from that of `d`, or, if it did not take effect, left it. */
  predicate Took(d: Disk, d': Disk, r: Request, took: bool) {
    Store(d') == if took then StoreOp(Store(d), r) else Store(d)
  }

  /**
    Main result: over any history of calls, faulty ones among them, the store is a map from digests to bytes: a
    successful put is an update, a successful removal a removal, a failed one that or nothing, and every
    other call nothing.
  */
  lemma {:induction false} CallsRefineMap(e: Env, disks: seq<Disk>, calls: seq<Made>) returns (took: seq<bool>)
    requires CallHistory(e, disks, calls) && GoodDisk(e, disks[0]) && JsonFaithful(e.codec)
    ensures |took| == |calls| && forall i | 0 <= i < |calls| :: calls[i].ok ==> took[i]
    ensures GoodDisk(e, disks[|calls|])
    ensures Keeps(disks[|calls|], Store(disks[0]), calls, took)
  {
    took := [];
    if calls != [] {
      var n := |calls| - 1;
      EarlierCalls(e, disks, calls, n);
      var earlier := CallsRefineMap(e, disks[..n + 1], calls[..n]);
      assert CallAt(e, disks, calls, n);
      var last := CallRefinesStore(e, disks[n], disks[n + 1], calls[n].req, calls[n].now, calls[n].ok);
      took := earlier + [last];
      OneMoreCall(disks[n], Store(disks[0]), calls, earlier, last, disks[n + 1]);
    }
  }

  lemma {:induction false} EarlierCalls(e: Env, disks: seq<Disk>, calls: seq<Made>, n: nat)
    requires CallHistory(e, disks, calls) && n <= |calls|
    ensures CallHistory(e, disks[..n + 1], calls[..n])
  {
    var before, first := disks[..n + 1], calls[..n];
    forall i | 0 <= i < n ensures CallAt(e, before, first, i) {
      assert CallAt(e, disks, calls, i);
    }
  }

  lemma {:induction false} OneMoreCall(d: Disk, m: map<string, Bytes>, calls: seq<Made>, took: seq<bool>, last: bool, d': Disk)
    requires |calls| == |took| + 1 && Keeps(d, m, calls[..|took|], took) && Took(d, d', calls[|took|].req, last)
    ensures Keeps(d', m, calls, took + [last])
  {
    assert (took + [last])[..|took|] == took;
  }
}
