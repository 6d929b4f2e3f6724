/**
  One environment's staging directory as a map from paths to files, and the single writes
  that operations are made of (src/staging.rs:14-27, 1641-1691, 1786-1816).
*/
module Disk {
  import opened Wrappers
  import opened ByteStrings
  import opened Digest
  import opened Plan

  const AUDIT_DIR := "audit"
  const LOCK_FILE := ".lock"
  const CAS_DIR := "cas"
  const RECEIPT_FILE := "import-receipt.json"
  const RECEIPT_SIG_FILE := "import-receipt.json.sig"
  const AUDIT_FILE := "events.jsonl"

  // ---- Stages ------------------------------------------------------------------

  datatype Stage = Downloading | Inbox | Staged | Applying | Applied | Failed | Rejected

  predicate IsTerminal(s: Stage) {
    s.Applied? || s.Failed? || s.Rejected?
  }

  predicate IsValidTransition(from: Stage, to: Stage) {
    match from
    case Downloading => to.Inbox? || to.Failed? || to.Rejected?
    case Inbox => to.Staged? || to.Failed? || to.Rejected?
    case Staged => to.Applying? || to.Rejected?
    case Applying => to.Applied? || to.Failed?
    case _ => false
  }

  /** How far along a stage is. */
  function Rank(s: Stage): nat {
    match s
    case Downloading => 0
    case Inbox => 1
    case Staged => 2
    case Applying => 3
    case _ => 4
  }

  /**
    The stages form one path with off-ramps: the way to `Applied` leads through every stage in turn, a plan is
    rejected only before it is applied, and fails while it is fetched or applied. Terminal stages are the dead ends.
  */
  lemma {:induction false} StageLaws(from: Stage, to: Stage)
    ensures IsValidTransition(from, to) ==> Rank(from) < Rank(to)
    ensures to !in {Failed, Rejected} ==> (IsValidTransition(from, to) <==> Rank(to) == Rank(from) + 1)
    ensures to == Rejected ==> (IsValidTransition(from, to) <==> Rank(from) < Rank(Applying))
    ensures to == Failed ==> (IsValidTransition(from, to) <==> from in {Downloading, Inbox, Applying})
    ensures IsTerminal(from) <==> forall t :: !IsValidTransition(from, t)
    ensures IsTerminal(from) <==> from in {Applied, Failed, Rejected}
  {
    if !IsTerminal(from) {
      assert IsValidTransition(from, Rejected) || IsValidTransition(from, Applied);
    }
  }

  datatype StageState = StageState(planId: string, envId: string, sequence: nat, planSha256: string,
                                   stage: Stage, createdAt: nat, updatedAt: nat, channel: Option<string>)

  /** What an audit line records. */
  datatype AuditEvent =
    | Begun(planId: string)
    | Moved(planId: string, from: Stage, to: Stage)
    | Evicted(planId: string, from: Stage)

  // ---- Files -------------------------------------------------------------------

  datatype BlobKind = Artifact | Binary

  /** A place below a first path segment; `Itself` is a file directly in the environment directory. */
  datatype Place =
    | Itself
    | StateJson
    | PlanJson
    | PlanSig
    | Blob(kind: BlobKind, dir: string)
    | Named(name: string)

  datatype Path = Path(top: string, place: Place)

  /** Contents: bytes that parse as a stage marker, audit lines, any other bytes, or no readable bytes. */
  datatype File = Marker(state: StageState) | Lines(events: seq<AuditEvent>) | Raw(bytes: Bytes) | Unreadable

  type Disk = map<Path, File>

  const AUDIT_PATH := Path(AUDIT_DIR, Named(AUDIT_FILE))

  function AuditLines(d: Disk): seq<AuditEvent> {
    if AUDIT_PATH in d && d[AUDIT_PATH].Lines? then d[AUDIT_PATH].events else []
  }

  // ---- Names -------------------------------------------------------------------

  predicate SafeSegment(s: string) {
    s != "" && s != "." && s != ".." && '/' !in s && '\\' !in s && ':' !in s && '\0' !in s
  }

  predicate ValidPlanId(s: string) {
    && SafeSegment(s)
    && s != AUDIT_DIR && s != LOCK_FILE && s != CAS_DIR && s != RECEIPT_FILE && s != RECEIPT_SIG_FILE
  }

  lemma {:induction false} InfrastructureNamesDiffer()
    ensures AUDIT_DIR != CAS_DIR && AUDIT_DIR != RECEIPT_FILE && AUDIT_DIR != RECEIPT_SIG_FILE
    ensures CAS_DIR != RECEIPT_FILE && CAS_DIR != RECEIPT_SIG_FILE && RECEIPT_FILE != RECEIPT_SIG_FILE
    ensures !ValidPlanId(AUDIT_DIR) && !ValidPlanId(CAS_DIR)
    ensures !ValidPlanId(RECEIPT_FILE) && !ValidPlanId(RECEIPT_SIG_FILE)
  {
    assert |AUDIT_DIR| == 5 && |CAS_DIR| == 3 && |RECEIPT_FILE| == 19 && |RECEIPT_SIG_FILE| == 23;
  }

  /** Names made from hashes are safe segments. */
  lemma {:induction false} HashNamesAreSafe(hex: string)
    requires IsLowerHex64(hex)
    ensures SafeSegment(DirName(hex))
  {
    var s := DirName(hex);
    forall i | 0 <= i < |s| ensures s[i] != '/' && s[i] != '\\' && s[i] != ':' && s[i] != '\0' {
      if i >= |DIR_PREFIX| { assert s[i] == hex[i - |DIR_PREFIX|]; }
    }
  }

  // ---- Single writes -------------------------------------------------------------

  /** One durable change: a rename over a path, a removal, or an appended audit line. */
  datatype Write =
    | PutMarker(name: string, state: StageState, event: AuditEvent)
    | PutFile(path: Path, file: File)
    | Evict(name: string, event: AuditEvent)
    | RemoveFile(path: Path)
    | Append(event: AuditEvent)

  function Exec(d: Disk, w: Write): Disk {
    match w
    case PutMarker(n, s, _) => d[Path(n, StateJson) := Marker(s)]
    case PutFile(p, f) => d[p := f]
    case Evict(n, _) => map p | p in d && p.top != n :: d[p]
    case RemoveFile(p) => d - {p}
    case Append(e) => d[AUDIT_PATH := Lines(AuditLines(d) + [e])]
  }

  function ExecAll(d: Disk, ws: seq<Write>): Disk
    decreases |ws|
  {
    if ws == [] then d else ExecAll(Exec(d, ws[0]), ws[1..])
  }

  lemma {:induction false} ExecAllAppend(d: Disk, ws: seq<Write>, w: Write)
    ensures ExecAll(d, ws + [w]) == Exec(ExecAll(d, ws), w)
    decreases |ws|
  {
    if ws == [] {
      assert [w][1..] == [];
      assert ws + [w] == [w];
    } else {
      assert (ws + [w])[1..] == ws[1..] + [w];
      ExecAllAppend(Exec(d, ws[0]), ws[1..], w);
    }
  }

  lemma {:induction false} ExecTwo(d: Disk, w: Write, x: Write)
    ensures ExecAll(d, [w, x]) == Exec(Exec(d, w), x)
  {
    assert [w] + [x] == [w, x];
    ExecAllAppend(d, [w], x);
    ExecAllAppend(d, [], w);
    assert [] + [w] == [w];
  }

  // ---- Markers -------------------------------------------------------------------

  /** The environment a root serves, with its codec. */
  datatype Env = Env(codec: Codec, id: string)

  predicate HasMarker(d: Disk, n: string) {
    Path(n, StateJson) in d && d[Path(n, StateJson)].Marker?
  }

  function MarkerOf(d: Disk, n: string): StageState
    requires HasMarker(d, n)
  {
    d[Path(n, StateJson)].state
  }

  predicate AtStage(d: Disk, n: string, s: Stage) {
    HasMarker(d, n) && MarkerOf(d, n).stage == s
  }

  predicate HasRaw(d: Disk, p: Path) {
    p in d && d[p].Raw?
  }

  /** The plan document staged under `n`. */
  function PlanOf(e: Env, d: Disk, n: string): Option<UpdatePlan> {
    if HasRaw(d, Path(n, PlanJson)) then e.codec.parsePlan(d[Path(n, PlanJson)].bytes) else None
  }

  /** The channel of the plan staged under `n`. */
  function ChannelOf(e: Env, d: Disk, n: string): string {
    var p := PlanOf(e, d, n);
    if p.Some? then p.value.envId else e.id
  }

  /** A marker that mirrors the plan document beside it, with a signature that verifies it. */
  predicate PlanFilesOk(e: Env, d: Disk, n: string, s: StageState) {
    && ValidPlanId(n) && s.planId == n
    && HasRaw(d, Path(n, PlanJson)) && HasRaw(d, Path(n, PlanSig))
    && VerifyUpdatePlan(e.codec, d[Path(n, PlanJson)].bytes, d[Path(n, PlanSig)].bytes).Ok?
    && PlanOf(e, d, n).Some?
    && s.planSha256 == e.codec.sha256(d[Path(n, PlanJson)].bytes)
    && s.sequence == PlanOf(e, d, n).value.sequence
    && (s.channel == None || s.channel == Some(ChannelOf(e, d, n)))
  }

  predicate BlobOk(e: Env, f: File, dir: string) {
    f.Raw? && dir == DirName(e.codec.sha256(f.bytes))
  }

  predicate SameChannel(e: Env, d: Disk, m: string, n: string) {
    ChannelOf(e, d, m) == ChannelOf(e, d, n)
  }

  // ---- The invariant of the disk ---------------------------------------------------

  ghost predicate MarkersOk(e: Env, d: Disk) {
    forall n | Path(n, StateJson) in d :: HasMarker(d, n) && PlanFilesOk(e, d, n, MarkerOf(d, n))
  }

  ghost predicate SingleFlight(d: Disk) {
    forall m, n | AtStage(d, m, Applying) && AtStage(d, n, Applying) :: m == n
  }

  /** A plan being applied is newer than everything applied from its channel. */
  ghost predicate ApplyingIsNewest(e: Env, d: Disk) {
    forall m, n | AtStage(d, n, Applying) && AtStage(d, m, Applied) && SameChannel(e, d, m, n) ::
      MarkerOf(d, m).sequence < MarkerOf(d, n).sequence
  }

  ghost predicate BlobsOk(e: Env, d: Disk) {
    && (forall n, k, dir | Path(n, Blob(k, dir)) in d :: BlobOk(e, d[Path(n, Blob(k, dir))], dir))
    && (forall dir | Path(CAS_DIR, Named(dir)) in d :: BlobOk(e, d[Path(CAS_DIR, Named(dir))], dir))
  }

  ghost predicate GoodDisk(e: Env, d: Disk) {
    MarkersOk(e, d) && SingleFlight(d) && ApplyingIsNewest(e, d) && BlobsOk(e, d)
  }

  // ---- Writes that respect it --------------------------------------------------------

  /** The gate to `Applying`: nobody else is applying, nothing applied in the channel is as new. */
  ghost predicate MayApply(e: Env, d: Disk, n: string)
    requires HasMarker(d, n)
  {
    && (forall m :: !AtStage(d, m, Applying))
    && (forall m | AtStage(d, m, Applied) && SameChannel(e, d, m, n) ::
          MarkerOf(d, m).sequence < MarkerOf(d, n).sequence)
  }

  ghost predicate MoveOk(e: Env, d: Disk, n: string, s: StageState, event: AuditEvent)
    requires HasMarker(d, n)
  {
    var was := MarkerOf(d, n);
    && IsValidTransition(was.stage, s.stage)
    && s == was.(stage := s.stage, updatedAt := s.updatedAt)
    && event == Moved(n, was.stage, s.stage)
    && (s.stage == Applying ==> MayApply(e, d, n))
  }

  predicate BeginOk(e: Env, d: Disk, n: string, s: StageState, event: AuditEvent) {
    && Path(n, StateJson) !in d
    && PlanFilesOk(e, d, n, s)
    && s.stage == Downloading
    && event == Begun(n)
  }

  predicate PutFileOk(e: Env, d: Disk, p: Path, f: File) {
    match p.place
    case PlanJson => ValidPlanId(p.top) && Path(p.top, StateJson) !in d && f.Raw?
    case PlanSig => ValidPlanId(p.top) && Path(p.top, StateJson) !in d && f.Raw?
    case Blob(_, dir) => AtStage(d, p.top, Downloading) && BlobOk(e, f, dir)
    case Named(dir) => p.top == CAS_DIR && BlobOk(e, f, dir)
    case Itself => (p.top == RECEIPT_FILE || p.top == RECEIPT_SIG_FILE) && f.Raw?
    case StateJson => false
  }

  /** The writes that operations may make on a disk. */
  ghost predicate WriteOk(e: Env, d: Disk, w: Write) {
    match w
    case PutMarker(n, s, event) => if HasMarker(d, n) then MoveOk(e, d, n, s, event) else BeginOk(e, d, n, s, event)
    case PutFile(p, f) => PutFileOk(e, d, p, f)
    case Evict(n, event) =>
      HasMarker(d, n) && IsTerminal(MarkerOf(d, n).stage) && event == Evicted(n, MarkerOf(d, n).stage)
    case RemoveFile(p) => p.top == CAS_DIR && p.place.Named? && SafeSegment(p.place.name)
    case Append(_) => true
  }

  // ---- Frames --------------------------------------------------------------------------

  /** The files of `n`'s directory that its marker depends on are the same on both disks. */
  predicate SamePlan(d: Disk, d': Disk, n: string) {
    && (Path(n, PlanJson) in d <==> Path(n, PlanJson) in d')
    && (Path(n, PlanSig) in d <==> Path(n, PlanSig) in d')
    && (Path(n, PlanJson) in d ==> d[Path(n, PlanJson)] == d'[Path(n, PlanJson)])
    && (Path(n, PlanSig) in d ==> d[Path(n, PlanSig)] == d'[Path(n, PlanSig)])
  }

  predicate SameMarker(d: Disk, d': Disk, n: string) {
    && (Path(n, StateJson) in d <==> Path(n, StateJson) in d')
    && (Path(n, StateJson) in d ==> d[Path(n, StateJson)] == d'[Path(n, StateJson)])
  }

  /** A write changes the marker of no plan but its own, and a plan document only with it or before it. */
  lemma {:induction false} MarkerFrame(e: Env, d: Disk, w: Write, n: string)
    requires WriteOk(e, d, w)
    ensures !(w.PutMarker? && w.name == n) && !(w.Evict? && w.name == n) ==> SameMarker(d, Exec(d, w), n)
    ensures HasMarker(d, n) && !(w.Evict? && w.name == n) ==> SamePlan(d, Exec(d, w), n)
  {}

  lemma {:induction false} SamePlanFacts(e: Env, d: Disk, d': Disk, n: string)
    requires SamePlan(d, d', n)
    ensures PlanOf(e, d', n) == PlanOf(e, d, n)
    ensures ChannelOf(e, d', n) == ChannelOf(e, d, n)
    ensures forall s :: PlanFilesOk(e, d', n, s) <==> PlanFilesOk(e, d, n, s)
  {}

  lemma {:induction false} MarkersPreserved(e: Env, d: Disk, w: Write)
    requires MarkersOk(e, d) && WriteOk(e, d, w)
    ensures MarkersOk(e, Exec(d, w))
  {
    var d' := Exec(d, w);
    forall n | Path(n, StateJson) in d' ensures HasMarker(d', n) && PlanFilesOk(e, d', n, MarkerOf(d', n)) {
      MarkerFrame(e, d, w, n);
      if HasMarker(d, n) {
        SamePlanFacts(e, d, d', n);
      } else {
        assert SamePlan(d, d', n);
        SamePlanFacts(e, d, d', n);
      }
    }
  }

  lemma {:induction false} BlobsPreserved(e: Env, d: Disk, w: Write)
    requires BlobsOk(e, d) && WriteOk(e, d, w)
    ensures BlobsOk(e, Exec(d, w))
  {
    InfrastructureNamesDiffer();
  }

  /** What a write does to the stage of one plan. */
  lemma {:induction false} StageAfter(e: Env, d: Disk, w: Write, n: string, s: Stage)
    requires MarkersOk(e, d) && WriteOk(e, d, w) && AtStage(Exec(d, w), n, s)
    ensures w.PutMarker? && w.name == n ==> w.state.stage == s && MarkerOf(Exec(d, w), n) == w.state
    ensures !(w.PutMarker? && w.name == n) ==>
              AtStage(d, n, s) && MarkerOf(Exec(d, w), n) == MarkerOf(d, n)
              && ChannelOf(e, Exec(d, w), n) == ChannelOf(e, d, n)
    ensures w.PutMarker? ==> ChannelOf(e, Exec(d, w), n) == ChannelOf(e, d, n)
  {
    MarkerFrame(e, d, w, n);
    if !(w.PutMarker? && w.name == n) {
      SamePlanFacts(e, d, Exec(d, w), n);
    } else {
      assert SamePlan(d, Exec(d, w), n);
      SamePlanFacts(e, d, Exec(d, w), n);
    }
  }

  lemma {:induction false} SingleFlightPreserved(e: Env, d: Disk, w: Write)
    requires MarkersOk(e, d) && SingleFlight(d) && WriteOk(e, d, w)
    ensures SingleFlight(Exec(d, w))
  {
    var d' := Exec(d, w);
    forall m, n | AtStage(d', m, Applying) && AtStage(d', n, Applying) ensures m == n {
      StageAfter(e, d, w, m, Applying);
      StageAfter(e, d, w, n, Applying);
    }
  }

  lemma {:induction false} ApplyingPreserved(e: Env, d: Disk, w: Write)
    requires MarkersOk(e, d) && SingleFlight(d) && ApplyingIsNewest(e, d) && WriteOk(e, d, w)
    ensures ApplyingIsNewest(e, Exec(d, w))
  {
    var d' := Exec(d, w);
    forall m, n | AtStage(d', n, Applying) && AtStage(d', m, Applied) && SameChannel(e, d', m, n)
      ensures MarkerOf(d', m).sequence < MarkerOf(d', n).sequence
    {
      StageAfter(e, d, w, m, Applied);
      StageAfter(e, d, w, n, Applying);
      assert SameChannel(e, d, m, n);
      if w.PutMarker? && w.name == n {
        assert HasMarker(d, n) && MayApply(e, d, n);
      } else if w.PutMarker? && w.name == m {
        assert AtStage(d, m, Applying) && AtStage(d, n, Applying);
      }
    }
  }

  /** Every permitted write keeps the invariant of the disk. */
  lemma {:induction false} GoodPreserved(e: Env, d: Disk, w: Write)
    requires GoodDisk(e, d) && WriteOk(e, d, w)
    ensures GoodDisk(e, Exec(d, w))
  {
    MarkersPreserved(e, d, w);
    SingleFlightPreserved(e, d, w);
    ApplyingPreserved(e, d, w);
    BlobsPreserved(e, d, w);
  }

  /** A script whose writes are permitted one after the other. */
  ghost predicate Legal(e: Env, d: Disk, ws: seq<Write>)
    decreases |ws|
  {
    ws != [] ==> WriteOk(e, d, ws[0]) && Legal(e, Exec(d, ws[0]), ws[1..])
  }

  /** Stopping a permitted script after any number of writes leaves a good disk. */
  lemma {:induction false} PrefixKeepsGood(e: Env, d: Disk, ws: seq<Write>, k: nat)
    requires GoodDisk(e, d) && Legal(e, d, ws) && k <= |ws|
    ensures GoodDisk(e, ExecAll(d, ws[..k]))
    decreases k
  {
    if k > 0 {
      GoodPreserved(e, d, ws[0]);
      PrefixKeepsGood(e, Exec(d, ws[0]), ws[1..], k - 1);
      assert ws[..k][1..] == ws[1..][..k - 1];
    }
  }
}
