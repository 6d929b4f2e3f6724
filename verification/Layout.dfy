/**
  Where the files of an environment stand in the file system, and why no two of them meet: the rule for
  segments and the reserved names (src/staging.rs:67-78, 1524-1561).
*/
module Layout {
  import opened Digest
  import opened Paths
  import opened Disk
  import opened Operations
  import opened CasStore

  /** The steps below a first segment, as the code joins them. */
  function PlaceSteps(p: Place): seq<string> {
    match p
    case Itself => []
    case StateJson => ["state.json"]
    case PlanJson => ["plan.json"]
    case PlanSig => ["plan.json.sig"]
    case Blob(Artifact, dir) => ["artifacts", dir, "blob"]
    case Blob(Binary, dir) => ["binaries", dir, "blob"]
    case Named(name) => [name]
  }

  /** Where a file is, by joining its steps to the environment directory one by one. */
  function Location(env: seq<string>, p: Path): seq<string> {
    Descend(env, [p.top] + PlaceSteps(p.place))
  }

  /** A path that the staging code may write to. */
  predicate PlacedPath(p: Path) {
    match p.place
    case Itself => p.top == RECEIPT_FILE || p.top == RECEIPT_SIG_FILE
    case Named(name) => (p.top == CAS_DIR || p.top == AUDIT_DIR) && SafeSegment(name)
    case Blob(_, dir) => ValidPlanId(p.top) && SafeSegment(dir)
    case _ => ValidPlanId(p.top)
  }

  ghost predicate Placed(d: Disk) {
    forall p | p in d :: PlacedPath(p)
  }

  // ---- Segments that go one level down ----------------------------------------------------------

  /** A safe segment names one entry of the directory it is joined to. */
  lemma {:induction false} SafeIsOneLevel(dir: seq<string>, s: string)
    requires SafeSegment(s)
    ensures Enter(dir, s) == dir + [s]
  {
    OneLevelIff(dir, s);
  }

  lemma {:induction false} DirectoriesAreSafe()
    ensures SafeSegment(AUDIT_DIR) && SafeSegment(CAS_DIR) && SafeSegment("artifacts") && SafeSegment("binaries")
  {}

  lemma {:induction false} ReceiptsAreSafe()
    ensures SafeSegment(RECEIPT_FILE)
  {}

  lemma {:induction false} ReceiptSigsAreSafe()
    ensures SafeSegment(RECEIPT_SIG_FILE)
  {}

  lemma {:induction false} PlanFilesAreSafe()
    ensures SafeSegment("state.json") && SafeSegment("plan.json") && SafeSegment("plan.json.sig") && SafeSegment("blob")
  {}

  lemma {:induction false} AuditFileIsSafe()
    ensures SafeSegment(AUDIT_FILE)
  {}

  lemma {:induction false} DescendsStepByStep(dir: seq<string>, steps: seq<string>)
    requires forall s | s in steps :: SafeSegment(s)
    ensures Descend(dir, steps) == dir + steps
    decreases |steps|
  {
    if steps == [] {
      assert dir + steps == dir;
    } else {
      SafeIsOneLevel(dir, steps[0]);
      DescendsStepByStep(dir + [steps[0]], steps[1..]);
      assert dir + steps == (dir + [steps[0]]) + steps[1..];
    }
  }

  lemma {:induction false} PlacedStepsAreSafe(p: Path)
    requires PlacedPath(p)
    ensures forall s | s in [p.top] + PlaceSteps(p.place) :: SafeSegment(s)
  {
    DirectoriesAreSafe();
    PlanFilesAreSafe();
    if p.place.Itself? {
      ReceiptsAreSafe();
      ReceiptSigsAreSafe();
    }
  }

  lemma {:induction false} PlacedLocation(env: seq<string>, p: Path)
    requires PlacedPath(p)
    ensures Location(env, p) == env + [p.top] + PlaceSteps(p.place)
  {
    PlacedStepsAreSafe(p);
    DescendsStepByStep(env, [p.top] + PlaceSteps(p.place));
    assert env + ([p.top] + PlaceSteps(p.place)) == env + [p.top] + PlaceSteps(p.place);
  }

  /** Where a plan's own files stand. */
  lemma {:induction false} PlanFilesStand(env: seq<string>, n: string)
    requires ValidPlanId(n)
    ensures Location(env, Path(n, StateJson)) == env + [n] + ["state.json"]
    ensures Location(env, Path(n, PlanJson)) == env + [n] + ["plan.json"]
    ensures Location(env, Path(n, PlanSig)) == env + [n] + ["plan.json.sig"]
  {
    PlacedLocation(env, Path(n, StateJson));
    PlacedLocation(env, Path(n, PlanJson));
    PlacedLocation(env, Path(n, PlanSig));
  }

  /** Where its blobs stand: artifacts and binaries apart, each in a directory named after its hash. */
  lemma {:induction false} BlobsStand(env: seq<string>, n: string, hex: string)
    requires ValidPlanId(n) && IsLowerHex64(hex)
    ensures Location(env, Path(n, Blob(Artifact, DirName(hex)))) == env + [n] + ["artifacts", DIR_PREFIX + hex, "blob"]
    ensures Location(env, Path(n, Blob(Binary, DirName(hex)))) == env + [n] + ["binaries", DIR_PREFIX + hex, "blob"]
    ensures Location(env, CasPath(hex)) == env + [CAS_DIR] + [DIR_PREFIX + hex]
  {
    PlacedLocation(env, CasPath(hex));
    HashNamesAreSafe(hex);
    PlacedLocation(env, Path(n, Blob(Artifact, DirName(hex))));
    PlacedLocation(env, Path(n, Blob(Binary, DirName(hex))));
  }

  lemma {:induction false} StepsTellPlace(p: Path, q: Path)
    requires PlacedPath(p) && PlacedPath(q) && p.top == q.top && PlaceSteps(p.place) == PlaceSteps(q.place)
    ensures p == q
  {
    InfrastructureNamesDiffer();
    var a, b := PlaceSteps(p.place), PlaceSteps(q.place);
    assert |"state.json"| == 10 && |"plan.json"| == 9 && |"plan.json.sig"| == 13 && |"artifacts"| == 9 && |"binaries"| == 8;
    if a != [] { assert a[0] == b[0]; }
    if |a| > 1 { assert a[1] == b[1]; }
  }

  /** Main result: different paths of the staging area are different places in the file system. */
  lemma {:induction false} LocationsDiffer(env: seq<string>, p: Path, q: Path)
    requires PlacedPath(p) && PlacedPath(q) && Location(env, p) == Location(env, q)
    ensures p == q
  {
    PlacedLocation(env, p);
    PlacedLocation(env, q);
    var n := |env|;
    assert (env + [p.top] + PlaceSteps(p.place))[n] == p.top;
    assert (env + [q.top] + PlaceSteps(q.place))[n] == q.top;
    assert (env + [p.top] + PlaceSteps(p.place))[n + 1..] == PlaceSteps(p.place);
    assert (env + [q.top] + PlaceSteps(q.place))[n + 1..] == PlaceSteps(q.place);
    StepsTellPlace(p, q);
  }

  /** What lies below a plan's directory is that plan's and nothing else's. */
  lemma {:induction false} BelowPlan(env: seq<string>, n: string, p: Path)
    requires SafeSegment(n) && PlacedPath(p)
    ensures Enter(env, n) <= Location(env, p) <==> p.top == n
  {
    SafeIsOneLevel(env, n);
    PlacedLocation(env, p);
    var at := env + [p.top] + PlaceSteps(p.place);
    assert at[|env|] == p.top && at[..|env|] == env;
    if env + [n] <= at { assert at[|env|] == (env + [n])[|env|]; }
    if p.top == n { assert at[..|env| + 1] == env + [n]; }
  }

  // ---- The tree -------------------------------------------------------------------------------

  /** Files by their location; what a removal of a directory takes is whatever lies below it. */
  type Tree = map<seq<string>, File>

  function AuditAt(env: seq<string>, t: Tree): seq<AuditEvent> {
    var l := Location(env, AUDIT_PATH);
    if l in t && t[l].Lines? then t[l].events else []
  }

  function TreeStep(env: seq<string>, t: Tree, w: Write): Tree {
    match w
    case PutMarker(n, s, _) => t[Location(env, Path(n, StateJson)) := Marker(s)]
    case PutFile(p, f) => t[Location(env, p) := f]
    case Evict(n, _) => map l | l in t && !(Enter(env, n) <= l) :: t[l]
    case RemoveFile(p) => t - {Location(env, p)}
    case Append(ev) => t[Location(env, AUDIT_PATH) := Lines(AuditAt(env, t) + [ev])]
  }

  /** The tree holds exactly the files of the disk, each at its location. */
  ghost predicate Realizes(env: seq<string>, d: Disk, t: Tree) {
    && (forall p | p in d :: Stored(env, d, t, p))
    && (forall l | l in t :: exists p :: p in d && l == Location(env, p))
  }

  predicate Stored(env: seq<string>, d: Disk, t: Tree, p: Path)
    requires p in d
  {
    Location(env, p) in t && t[Location(env, p)] == d[p]
  }

  lemma {:induction false} PutRealizes(env: seq<string>, d: Disk, t: Tree, p: Path, f: File)
    requires Placed(d) && PlacedPath(p) && Realizes(env, d, t)
    ensures Placed(d[p := f]) && Realizes(env, d[p := f], t[Location(env, p) := f])
  {
    var d', t' := d[p := f], t[Location(env, p) := f];
    forall q | q in d' ensures Stored(env, d', t', q) {
      if q != p {
        assert Stored(env, d, t, q);
        Elsewhere(env, p, q);
      }
    }
    forall l | l in t' ensures exists q :: q in d' && l == Location(env, q) {
      if l == Location(env, p) {
        assert p in d';
      } else {
        var q :| q in d && l == Location(env, q);
        assert q in d';
      }
    }
  }

  lemma {:induction false} RemoveRealizes(env: seq<string>, d: Disk, t: Tree, p: Path)
    requires Placed(d) && PlacedPath(p) && Realizes(env, d, t)
    ensures Placed(d - {p}) && Realizes(env, d - {p}, t - {Location(env, p)})
  {
    var d', t' := d - {p}, t - {Location(env, p)};
    forall q | q in d' ensures Stored(env, d', t', q) {
      KeptStored(env, d, t, p, q);
    }
    forall l | l in t' ensures exists q :: q in d' && l == Location(env, q) {
      var q :| q in d && l == Location(env, q);
      assert q in d';
    }
  }

  lemma {:induction false} KeptStored(env: seq<string>, d: Disk, t: Tree, p: Path, q: Path)
    requires q in d && q != p && PlacedPath(p) && PlacedPath(q) && Stored(env, d, t, q)
    ensures Stored(env, d - {p}, t - {Location(env, p)}, q)
  {
    Elsewhere(env, p, q);
  }

  lemma {:induction false} Elsewhere(env: seq<string>, p: Path, q: Path)
    requires PlacedPath(p) && PlacedPath(q) && p != q
    ensures Location(env, p) != Location(env, q)
  {
    if Location(env, p) == Location(env, q) { LocationsDiffer(env, p, q); }
  }

  lemma {:induction false} EvictRealizes(env: seq<string>, d: Disk, t: Tree, n: string, ev: AuditEvent)
    requires Placed(d) && ValidPlanId(n) && Realizes(env, d, t)
    ensures Placed(Exec(d, Evict(n, ev))) && Realizes(env, Exec(d, Evict(n, ev)), TreeStep(env, t, Evict(n, ev)))
  {
    var d', t' := Exec(d, Evict(n, ev)), TreeStep(env, t, Evict(n, ev));
    forall q | q in d' ensures Stored(env, d', t', q) {
      assert Stored(env, d, t, q);
      BelowPlan(env, n, q);
    }
    forall l | l in t' ensures exists q :: q in d' && l == Location(env, q) {
      var q :| q in d && l == Location(env, q);
      BelowPlan(env, n, q);
      assert q in d';
    }
  }

  lemma {:induction false} WritesArePlaced(e: Env, d: Disk, w: Write)
    requires MarkersOk(e, d) && WriteOk(e, d, w) && HashesAreHex(e)
    ensures w.PutMarker? ==> PlacedPath(Path(w.name, StateJson))
    ensures w.PutFile? || w.RemoveFile? ==> PlacedPath(w.path)
    ensures w.Evict? ==> ValidPlanId(w.name)
  {
    if w.PutMarker? && HasMarker(d, w.name) { assert PlanFilesOk(e, d, w.name, MarkerOf(d, w.name)); }
    if w.Evict? { assert PlanFilesOk(e, d, w.name, MarkerOf(d, w.name)); }
    if w.PutFile? {
      match w.path.place
      case Blob(_, dir) =>
        assert PlanFilesOk(e, d, w.path.top, MarkerOf(d, w.path.top));
        HashNamesAreSafe(e.codec.sha256(w.file.bytes));
      case Named(_) => HashNamesAreSafe(e.codec.sha256(w.file.bytes));
      case _ =>
    }
  }

  /** Every permitted write does to the file system what it does to the map of paths. */
  lemma {:induction false} WriteRealizes(e: Env, env: seq<string>, d: Disk, t: Tree, w: Write)
    requires MarkersOk(e, d) && WriteOk(e, d, w) && HashesAreHex(e) && Placed(d) && Realizes(env, d, t)
    ensures Placed(Exec(d, w)) && Realizes(env, Exec(d, w), TreeStep(env, t, w))
  {
    WritesArePlaced(e, d, w);
    AuditFileIsSafe();
    match w
    case PutMarker(n, s, _) => PutRealizes(env, d, t, Path(n, StateJson), Marker(s));
    case PutFile(p, f) => PutRealizes(env, d, t, p, f);
    case Evict(n, ev) => EvictRealizes(env, d, t, n, ev);
    case RemoveFile(p) => RemoveRealizes(env, d, t, p);
    case Append(ev) =>
      SameAudit(env, d, t);
      PutRealizes(env, d, t, AUDIT_PATH, Lines(AuditLines(d) + [ev]));
  }

  lemma {:induction false} SameAudit(env: seq<string>, d: Disk, t: Tree)
    requires Placed(d) && Realizes(env, d, t)
    ensures AuditAt(env, t) == AuditLines(d)
  {
    AuditFileIsSafe();
    var l := Location(env, AUDIT_PATH);
    if AUDIT_PATH in d {
      assert Stored(env, d, t, AUDIT_PATH);
    } else if l in t {
      var p :| p in d && l == Location(env, p);
      LocationsDiffer(env, p, AUDIT_PATH);
      assert false;
    }
  }

  // ---- What unsafe names would do ----------------------------------------------------------------

  /** Evicting a plan called `..` would take the whole environment directory and all its siblings. */
  lemma {:induction false} ParentIdWouldEscape(env: seq<string>, t: Tree, ev: AuditEvent, l: seq<string>)
    requires env != [] && env[..|env| - 1] <= l
    ensures !SafeSegment("..") && l !in TreeStep(env, t, Evict("..", ev))
  {
    SegmentsHaveNoSlash("..");
    assert [".."][1..] == [];
    assert Enter(env, "..") == Walk(env, [".."]) == Walk(env[..|env| - 1], []);
  }

  lemma {:induction false} SegmentsOfJoined(a: string, b: string)
    requires '/' !in a
    ensures Segments(a + "/" + b) == [a] + Segments(b)
  {
    var s := a + "/" + b;
    if a == [] {
      assert s[1..] == b;
    } else {
      assert s[1..] == a[1..] + "/" + b;
      SegmentsOfJoined(a[1..], b);
      assert [a[0]] + a[1..] == a;
    }
  }

  /** A plan id with a slash in it would meet the files of another directory. */
  lemma {:induction false} SlashWouldMeetStore(env: seq<string>, name: string)
    requires SafeSegment(name)
    ensures !SafeSegment(CAS_DIR + "/" + name)
    ensures Enter(env, CAS_DIR + "/" + name) == Location(env, Path(CAS_DIR, Named(name)))
  {
    var s := CAS_DIR + "/" + name;
    assert s[3] == '/' && s[0] == 'c' && CAS_DIR[0] == 'c';
    assert '/' !in CAS_DIR by { DirectoriesAreSafe(); }
    SegmentsOfJoined(CAS_DIR, name);
    SegmentsHaveNoSlash(name);
    assert [CAS_DIR] + [name] == [CAS_DIR, name];
    assert [CAS_DIR, name][1..] == [name] && [name][1..] == [];
    assert Walk(env, [CAS_DIR, name]) == Walk(env + [CAS_DIR], [name]) == Walk(env + [CAS_DIR] + [name], []);
    PlacedLocation(env, Path(CAS_DIR, Named(name)));
  }
}
