/** The audit log against the history of committed events (src/staging.rs:1443-1460, 1786-1816). */
module StagingAudit {
  import opened Wrappers
  import opened Disk
  import opened Staging
  import opened Operations
  import opened StagingRuns

  type History = seq<AuditEvent>

  /** `a` is obtained from `h` by leaving events out. */
  predicate Subsequence(a: History, h: History) {
    a == [] || (h != [] &&
      ((a[|a| - 1] == h[|h| - 1] && Subsequence(a[..|a| - 1], h[..|h| - 1])) || Subsequence(a, h[..|h| - 1])))
  }

  lemma {:induction false} SubsequenceGrows(a: History, h: History, ev: AuditEvent)
    requires Subsequence(a, h)
    ensures Subsequence(a, h + [ev])
    ensures Subsequence(a + [ev], h + [ev])
  {
    assert (h + [ev])[..|h|] == h;
    assert (a + [ev])[..|a|] == a;
  }

  lemma {:induction false} SubsequenceMember(a: History, h: History, ev: AuditEvent)
    requires Subsequence(a, h) && ev in a
    ensures ev in h
  {
    var a', h' := a[..|a| - 1], h[..|h| - 1];
    assert a == a' + [a[|a| - 1]] && h == h' + [h[|h| - 1]];
    if a[|a| - 1] == h[|h| - 1] && Subsequence(a', h') {
      if ev in a' { SubsequenceMember(a', h', ev); }
    } else {
      SubsequenceMember(a, h', ev);
    }
  }

  // ---- Scripts pair each commit with its line ---------------------------------------------

  /** Each committing write is followed at once by the audit line that records it. */
  predicate Paired(ws: seq<Write>)
    decreases |ws|
  {
    ws == [] ||
    match ws[0]
    case PutMarker(_, _, ev) => |ws| >= 2 && ws[1] == Append(ev) && Paired(ws[2..])
    case Evict(_, ev) => |ws| >= 2 && ws[1] == Append(ev) && Paired(ws[2..])
    case Append(_) => false
    case _ => Paired(ws[1..])
  }

  lemma {:induction false} PairedOne(w: Write)
    requires w.PutFile? || w.RemoveFile?
    ensures Paired([w])
  {
    assert [w][1..] == [];
  }

  lemma {:induction false} EvictsPaired(xs: seq<StageState>)
    ensures Paired(EvictWrites(xs))
  {
    if xs != [] {
      EvictsPaired(xs[1..]);
      assert EvictWrites(xs)[2..] == EvictWrites(xs[1..]);
    }
  }

  lemma {:induction false} MovePaired(d: Disk, n: string, to: Stage, now: nat)
    requires MoveChoice(d, n, to, now).Some?
    ensures Paired(MoveChoice(d, n, to, now).value)
  {
    assert MoveChoice(d, n, to, now).value[2..] == [];
  }

  lemma {:induction false} DecidePaired(e: Env, d: Disk, r: Request, target: Probe, out: seq<StageState>, now: nat)
    requires Decide(e, d, r, target, out, now).Some?
    ensures Paired(Decide(e, d, r, target, out, now).value)
  {
    match r
    case Begin(v, pb, sb, gate) => BeginPaired(e, v, pb, sb, now);
    case Apply(n, _) => MovePaired(d, n, Applying, now);
    case Move(n, to) => MovePaired(d, n, to, now);
    case PutBlob(n, kind, digest, bytes) => PairedOne(BlobChoice(e, d, n, kind, digest, bytes).value[0]);
    case CasPut(digest, bytes) => PairedOne(CasPutChoice(e, digest, bytes).value[0]);
    case CasRemove(digest) => PairedOne(CasRemoveChoice(digest).value[0]);
    case WriteReceipt(receipt, sig) =>
      PairedOne(ReceiptWrites(receipt, sig)[1]);
      assert ReceiptWrites(receipt, sig)[1..] == [ReceiptWrites(receipt, sig)[1]];
    case Retain(keep) => EvictsPaired(Skip(RetentionOrder(out), keep));
  }

  lemma {:induction false} BeginPaired(e: Env, v: Plan.VerifiedUpdatePlan, pb: ByteStrings.Bytes, sb: ByteStrings.Bytes, now: nat)
    ensures Paired(BeginWrites(e, v, pb, sb, now))
  {
    var ws := BeginWrites(e, v, pb, sb, now);
    var line := [ws[2], ws[3]];
    assert line[2..] == [];
    assert Paired(line);
    assert ws[1..] == [ws[1]] + line;
    assert ([ws[1]] + line)[1..] == line;
    assert Paired(ws[1..]);
  }

  // ---- The log against the history -------------------------------------------------------

  /** The script of the process that holds the lock. */
  ghost function Script(w: World): seq<Write> {
    if w.holder.Some? && PcOf(w, w.holder.value).Writing? then PcOf(w, w.holder.value).script else []
  }

  /** A committed event whose audit line is not written yet. */
  ghost predicate Pending(w: World) {
    Script(w) != [] && Script(w)[0].Append?
  }

  /**
    The log `a` misses at most lines whose append never happened; when the rest `ws` of the
    running script begins with a line, that line records the last committed event.
  */
  predicate LogInv(ws: seq<Write>, a: History, h: History) {
    if ws != [] && ws[0].Append? then
      && Paired(ws[1..])
      && h != [] && h[|h| - 1] == ws[0].event && Subsequence(a, h[..|h| - 1])
    else Paired(ws) && Subsequence(a, h)
  }

  function LogAfter(a: History, w: Write): History {
    if w.Append? then a + [w.event] else a
  }

  lemma {:induction false} LastEvent(h: History)
    requires h != []
    ensures h == h[..|h| - 1] + [h[|h| - 1]]
  {}

  lemma {:induction false} LogForgets(ws: seq<Write>, a: History, h: History)
    requires LogInv(ws, a, h)
    ensures Subsequence(a, h)
  {
    if ws != [] && ws[0].Append? {
      SubsequenceGrows(a, h[..|h| - 1], h[|h| - 1]);
      LastEvent(h);
    }
  }

  lemma {:induction false} LogStep(ws: seq<Write>, a: History, h: History)
    requires LogInv(ws, a, h) && ws != []
    ensures LogInv(ws[1..], LogAfter(a, ws[0]), h + Committed(ws[0]))
  {
    if ws[0].Append? {
      SubsequenceGrows(a, h[..|h| - 1], ws[0].event);
      LastEvent(h);
      assert h + Committed(ws[0]) == h;
      PairedHead(ws[1..]);
    } else if Committed(ws[0]) != [] {
      var h' := h + Committed(ws[0]);
      assert ws[1..][1..] == ws[2..];
      assert h'[..|h|] == h;
    } else {
      assert h + Committed(ws[0]) == h;
      PairedHead(ws[1..]);
    }
  }

  lemma {:induction false} PairedHead(ws: seq<Write>)
    requires Paired(ws)
    ensures ws != [] ==> !ws[0].Append?
  {}

  ghost predicate AuditInv(w: World) {
    LockInv(w) && LogInv(Script(w), AuditLines(w.disk), w.history)
  }

  lemma {:induction false} AuditLinesAfter(e: Env, d: Disk, w: Write)
    requires GoodDisk(e, d) && WriteOk(e, d, w)
    ensures AuditLines(Exec(d, w)) == LogAfter(AuditLines(d), w)
  {
    InfrastructureNamesDiffer();
    if w.Evict? {
      assert PlanFilesOk(e, d, w.name, MarkerOf(d, w.name));
    }
  }

  lemma {:induction false} ScriptAfter(e: Env, w: World, s: Step, w': World)
    requires LockInv(w) && Next(e, w, s, w')
    ensures s.Commit? ==> Script(w) != [] && Script(w)[0] == PcOf(w, s.pid).script[0] && Script(w') == Script(w)[1..]
    ensures s.Decided? ==> Script(w) == [] && Script(w') == Decision(e, w.disk, PcOf(w, s.pid), s.now).value
    ensures s.Stop? ==> Script(w') == []
    ensures !s.Commit? && !s.Decided? && !s.Stop? ==> Script(w') == Script(w)
  {}

  lemma {:induction false} DecisionPaired(e: Env, w: World, p: nat, now: nat)
    requires ReadyToDecide(PcOf(w, p)) && Decision(e, w.disk, PcOf(w, p), now).Some?
    ensures Paired(Decision(e, w.disk, PcOf(w, p), now).value)
  {
    var pc := PcOf(w, p);
    if pc.Holding? {
      DecidePaired(e, w.disk, pc.req, Missing, [], now);
    } else {
      DecidePaired(e, w.disk, pc.req, pc.target, pc.out, now);
    }
  }

  lemma {:induction false} AuditPreserved(e: Env, w: World, s: Step, w': World)
    requires AuditInv(w) && Inv(e, w) && Next(e, w, s, w')
    ensures AuditInv(w')
  {
    LockPreserved(e, w, s, w');
    ScriptAfter(e, w, s, w');
    var ws, a, h := Script(w), AuditLines(w.disk), w.history;
    match s
    case Commit(p) =>
      assert PcOk(e, w.disk, PcOf(w, p));
      AuditLinesAfter(e, w.disk, ws[0]);
      LogStep(ws, a, h);
    case Decided(p, now) =>
      DecisionPaired(e, w, p, now);
      PairedHead(Script(w'));
    case Stop(_) => LogForgets(ws, a, h);
    case _ =>
  }

  /** A start with no plans and no audit log. */
  ghost predicate StartsEmpty(r: Run) {
    && r.worlds != [] && r.worlds[0].history == []
    && AuditLines(r.worlds[0].disk) == []
    && forall n :: Path(n, StateJson) !in r.worlds[0].disk
  }

  lemma {:induction false} AuditHolds(e: Env, r: Run, i: nat)
    requires IsRun(e, r) && StartsEmpty(r) && i < |r.worlds|
    ensures AuditInv(r.worlds[i])
  {
    if i > 0 {
      AuditHolds(e, r, i - 1);
      InvHolds(e, r, i - 1);
      assert StepAt(e, r, i - 1);
      AuditPreserved(e, r.worlds[i - 1], r.steps[i - 1], r.worlds[i]);
    }
  }

  /** Main result: at every moment of every run the log is a subsequence of what was committed. */
  lemma {:induction false} AuditIsSubsequence(e: Env, r: Run, i: nat)
    requires IsRun(e, r) && StartsEmpty(r) && i < |r.worlds|
    ensures Subsequence(AuditLines(r.worlds[i].disk), r.worlds[i].history)
  {
    AuditHolds(e, r, i);
    LogForgets(Script(r.worlds[i]), AuditLines(r.worlds[i].disk), r.worlds[i].history);
  }

  // ---- Replay ---------------------------------------------------------------------------

  function Effect(ev: AuditEvent): Option<Stage> {
    match ev
    case Begun(_) => Some(Downloading)
    case Moved(_, _, to) => Some(to)
    case Evicted(_, _) => None
  }

  /** The stage that replaying a log gives a plan; None when it is not staged. */
  function Replay(h: History, n: string): Option<Stage> {
    if h == [] then None
    else if h[|h| - 1].planId == n then Effect(h[|h| - 1])
    else Replay(h[..|h| - 1], n)
  }

  function StageOn(d: Disk, n: string): Option<Stage> {
    if HasMarker(d, n) then Some(MarkerOf(d, n).stage) else None
  }

  /** An event that could have happened after `h`. */
  predicate PossibleNext(h: History, ev: AuditEvent) {
    match ev
    case Begun(n) => Replay(h, n) == None
    case Moved(n, from, to) => Replay(h, n) == Some(from) && IsValidTransition(from, to)
    case Evicted(n, from) => Replay(h, n) == Some(from) && IsTerminal(from)
  }

  predicate LegalHistory(h: History) {
    h == [] || (LegalHistory(h[..|h| - 1]) && PossibleNext(h[..|h| - 1], h[|h| - 1]))
  }

  ghost predicate ReplayInv(d: Disk, h: History) {
    LegalHistory(h) && forall n :: Replay(h, n) == StageOn(d, n)
  }

  lemma {:induction false} ReplayAppend(h: History, ev: AuditEvent, n: string)
    ensures Replay(h + [ev], n) == if ev.planId == n then Effect(ev) else Replay(h, n)
    ensures LegalHistory(h + [ev]) <==> LegalHistory(h) && PossibleNext(h, ev)
  {
    assert (h + [ev])[..|h|] == h;
  }

  lemma {:induction false} StageStep(e: Env, d: Disk, w: Write, n: string)
    requires GoodDisk(e, d) && WriteOk(e, d, w)
    ensures StageOn(Exec(d, w), n)
            == if Committed(w) != [] && Committed(w)[0].planId == n then Effect(Committed(w)[0]) else StageOn(d, n)
  {
    MarkerFrame(e, d, w, n);
  }

  lemma {:induction false} EventPossible(e: Env, d: Disk, w: Write, h: History)
    requires GoodDisk(e, d) && WriteOk(e, d, w) && ReplayInv(d, h) && Committed(w) != []
    ensures PossibleNext(h, Committed(w)[0])
  {
    assert Replay(h, Committed(w)[0].planId) == StageOn(d, Committed(w)[0].planId);
  }

  lemma {:induction false} ReplayStep(e: Env, d: Disk, w: Write, h: History)
    requires GoodDisk(e, d) && WriteOk(e, d, w) && ReplayInv(d, h)
    ensures ReplayInv(Exec(d, w), h + Committed(w))
  {
    if Committed(w) == [] {
      assert h + Committed(w) == h;
    } else {
      EventPossible(e, d, w, h);
      ReplayAppend(h, Committed(w)[0], "");
    }
    forall n ensures Replay(h + Committed(w), n) == StageOn(Exec(d, w), n) {
      StageStep(e, d, w, n);
      if Committed(w) != [] { ReplayAppend(h, Committed(w)[0], n); }
    }
  }

  lemma {:induction false} ReplayHolds(e: Env, r: Run, i: nat)
    requires IsRun(e, r) && StartsEmpty(r) && i < |r.worlds|
    ensures ReplayInv(r.worlds[i].disk, r.worlds[i].history)
  {
    if i > 0 {
      ReplayHolds(e, r, i - 1);
      StepEffect(e, r, i - 1);
      assert StepAt(e, r, i - 1);
      if Commits(r, i - 1) {
        ReplayStep(e, r.worlds[i - 1].disk, WriteAt(r, i - 1), r.worlds[i - 1].history);
      }
    }
  }

  lemma {:induction false} LegalMember(h: History, n: string, from: Stage, to: Stage)
    requires LegalHistory(h) && Moved(n, from, to) in h
    ensures IsValidTransition(from, to)
  {
    var h' := h[..|h| - 1];
    assert h == h' + [h[|h| - 1]];
    if Moved(n, from, to) in h' { LegalMember(h', n, from, to); }
  }

  /** Main result: every transition line of the log is a legal transition, in every run. */
  lemma {:induction false} LoggedTransitionsAreLegal(e: Env, r: Run, i: nat, n: string, from: Stage, to: Stage)
    requires IsRun(e, r) && StartsEmpty(r) && i < |r.worlds|
    requires Moved(n, from, to) in AuditLines(r.worlds[i].disk)
    ensures IsValidTransition(from, to)
  {
    AuditIsSubsequence(e, r, i);
    ReplayHolds(e, r, i);
    SubsequenceMember(AuditLines(r.worlds[i].disk), r.worlds[i].history, Moved(n, from, to));
    LegalMember(r.worlds[i].history, n, from, to);
  }

  // ---- Runs without a gap between commit and append -------------------------------------------

  /** Nobody stops between a commit and the line that records it. */
  ghost predicate GapFree(r: Run) {
    && |r.worlds| == |r.steps| + 1
    && forall i | 0 <= i < |r.steps| && r.steps[i].Stop? :: !Pending(r.worlds[i])
  }

  predicate ExactLog(ws: seq<Write>, a: History, h: History) {
    h == a + if ws != [] && ws[0].Append? then [ws[0].event] else []
  }

  ghost predicate ExactAudit(w: World) {
    ExactLog(Script(w), AuditLines(w.disk), w.history)
  }

  lemma {:induction false} ExactLogStep(ws: seq<Write>, a: History, h: History)
    requires LogInv(ws, a, h) && ExactLog(ws, a, h) && ws != []
    ensures ExactLog(ws[1..], LogAfter(a, ws[0]), h + Committed(ws[0]))
  {
    if ws[0].Append? { PairedHead(ws[1..]); }
    else if Committed(ws[0]) == [] { PairedHead(ws[1..]); }
  }

  lemma {:induction false} ExactPreserved(e: Env, w: World, s: Step, w': World)
    requires ExactAudit(w) && AuditInv(w) && Inv(e, w) && Next(e, w, s, w')
    requires s.Stop? ==> !Pending(w)
    ensures ExactAudit(w')
  {
    ScriptAfter(e, w, s, w');
    var ws, a, h := Script(w), AuditLines(w.disk), w.history;
    match s
    case Commit(p) =>
      assert PcOk(e, w.disk, PcOf(w, p));
      AuditLinesAfter(e, w.disk, ws[0]);
      ExactLogStep(ws, a, h);
    case Decided(p, now) =>
      DecisionPaired(e, w, p, now);
      PairedHead(Script(w'));
    case _ =>
  }

  lemma {:induction false} ExactHolds(e: Env, r: Run, i: nat)
    requires IsRun(e, r) && StartsEmpty(r) && GapFree(r) && i < |r.worlds|
    ensures ExactAudit(r.worlds[i])
  {
    if i > 0 {
      ExactHolds(e, r, i - 1);
      InvHolds(e, r, i - 1);
      AuditHolds(e, r, i - 1);
      assert StepAt(e, r, i - 1);
      ExactPreserved(e, r.worlds[i - 1], r.steps[i - 1], r.worlds[i]);
    }
  }

  /** Main result: without such a gap, replaying the log gives the exact stage of every plan on disk. */
  lemma {:induction false} AuditReplaysDisk(e: Env, r: Run, i: nat, n: string)
    requires IsRun(e, r) && StartsEmpty(r) && GapFree(r) && i < |r.worlds| && !Pending(r.worlds[i])
    ensures Replay(AuditLines(r.worlds[i].disk), n) == StageOn(r.worlds[i].disk, n)
  {
    ExactHolds(e, r, i);
    ReplayHolds(e, r, i);
    assert AuditLines(r.worlds[i].disk) + [] == AuditLines(r.worlds[i].disk);
  }
}
