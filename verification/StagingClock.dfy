/** Time stamps, sequences and what retention may evict (src/staging.rs:582-601, 895-932). */
module StagingClock {
  import opened Wrappers
  import opened Plan
  import opened Disk
  import opened Staging
  import opened Operations
  import opened StagingRuns

  // ---- Age and sequence agree ---------------------------------------------------------------

  /** Of two plans applied from one channel the later applied one has the higher sequence. */
  predicate AgeAgrees(d: Disk, m: string, n: string)
    requires HasMarker(d, m) && HasMarker(d, n)
  {
    var a, b := MarkerOf(d, m), MarkerOf(d, n);
    || (a.updatedAt < b.updatedAt && a.sequence < b.sequence)
    || (b.updatedAt < a.updatedAt && b.sequence < a.sequence)
  }

  predicate BothApplied(e: Env, d: Disk, m: string, n: string) {
    AtStage(d, m, Applied) && AtStage(d, n, Applied) && SameChannel(e, d, m, n)
  }

  ghost predicate AgesAgree(e: Env, d: Disk) {
    forall m, n | BothApplied(e, d, m, n) && m != n :: AgeAgrees(d, m, n)
  }

  ghost predicate StampedBy(d: Disk, clock: nat) {
    forall n | HasMarker(d, n) :: MarkerOf(d, n).updatedAt <= clock
  }

  /** A marker about to be written carries a stamp later than every marker on disk. */
  ghost predicate StampIsNew(d: Disk, w: Write) {
    w.PutMarker? ==> forall n | HasMarker(d, n) :: MarkerOf(d, n).updatedAt < w.state.updatedAt
  }

  lemma {:induction false} AppliedAfter(e: Env, d: Disk, w: Write, m: string, n: string)
    requires GoodDisk(e, d) && WriteOk(e, d, w)
    requires BothApplied(e, Exec(d, w), m, n) && m != n
    ensures !(w.PutMarker? && w.name in {m, n}) ==>
              BothApplied(e, d, m, n)
              && MarkerOf(Exec(d, w), m) == MarkerOf(d, m) && MarkerOf(Exec(d, w), n) == MarkerOf(d, n)
    ensures w.PutMarker? && w.name == n ==>
              && AtStage(d, n, Applying) && AtStage(d, m, Applied) && SameChannel(e, d, m, n)
              && MarkerOf(Exec(d, w), m) == MarkerOf(d, m) && MarkerOf(Exec(d, w), n) == w.state
              && w.state.sequence == MarkerOf(d, n).sequence
  {
    StageAfter(e, d, w, m, Applied);
    StageAfter(e, d, w, n, Applied);
  }

  lemma {:induction false} AgesPreserved(e: Env, d: Disk, w: Write)
    requires GoodDisk(e, d) && AgesAgree(e, d) && WriteOk(e, d, w) && StampIsNew(d, w)
    ensures AgesAgree(e, Exec(d, w))
  {
    var d' := Exec(d, w);
    forall m, n | BothApplied(e, d', m, n) && m != n ensures AgeAgrees(d', m, n) {
      AppliedAfter(e, d, w, m, n);
      AppliedAfter(e, d, w, n, m);
    }
  }

  // ---- Runs under a strictly increasing clock -------------------------------------------------

  predicate OneMarker(ws: seq<Write>)
    decreases |ws|
  {
    ws == [] || if ws[0].PutMarker? then NoMarker(ws[1..]) else OneMarker(ws[1..])
  }

  predicate NoMarker(ws: seq<Write>) {
    forall w | w in ws :: !w.PutMarker?
  }

  /** Every marker of a script is stamped `now`. */
  predicate StampedNow(ws: seq<Write>, now: nat) {
    forall w | w in ws :: w.PutMarker? ==> w.state.updatedAt == now
  }

  lemma {:induction false} NoMarkerIsOne(ws: seq<Write>)
    requires NoMarker(ws)
    ensures OneMarker(ws)
    decreases |ws|
  {
    if ws != [] {
      assert ws[0] in ws;
      NoMarkerIsOne(ws[1..]);
    }
  }

  lemma {:induction false} EvictsNoMarker(xs: seq<StageState>)
    ensures NoMarker(EvictWrites(xs))
  {
    if xs != [] { EvictsNoMarker(xs[1..]); }
  }

  lemma {:induction false} DecideStamps(e: Env, d: Disk, r: Request, target: Probe, out: seq<StageState>, now: nat)
    requires Decide(e, d, r, target, out, now).Some?
    ensures OneMarker(Decide(e, d, r, target, out, now).value)
    ensures StampedNow(Decide(e, d, r, target, out, now).value, now)
  {
    var ws := Decide(e, d, r, target, out, now).value;
    match r
    case Begin(_, _, _, _) =>
      var line := [ws[3]];
      assert ws[1..][1..] == [ws[2]] + line && ([ws[2]] + line)[1..] == line;
      assert NoMarker(line);
      assert OneMarker([ws[2]] + line);
      assert OneMarker(ws[1..]);
    case Apply(_, _) => assert ws[1..] == [ws[1]];
    case Move(_, _) => assert ws[1..] == [ws[1]];
    case Retain(keep) =>
      EvictsNoMarker(Skip(RetentionOrder(out), keep));
      NoMarkerIsOne(ws);
    case _ => NoMarkerIsOne(ws);
  }

  ghost function ScriptOf(pc: Pc): seq<Write> {
    if pc.Writing? then pc.script else []
  }

  /** The rest of a script still stamps newer than the disk, or stamps nothing more. */
  ghost predicate ScriptStamps(d: Disk, clock: nat, ws: seq<Write>) {
    && OneMarker(ws) && StampedNow(ws, clock)
    && (NoMarker(ws) || forall n | HasMarker(d, n) :: MarkerOf(d, n).updatedAt < clock)
  }

  ghost predicate ClockInv(e: Env, w: World) {
    && AgesAgree(e, w.disk) && StampedBy(w.disk, w.clock)
    && forall p: nat :: ScriptStamps(w.disk, w.clock, ScriptOf(PcOf(w, p)))
  }

  ghost predicate Ticks(w: World, s: Step) {
    s.Decided? ==> s.now > w.clock
  }

  lemma {:induction false} CommitStamps(e: Env, d: Disk, clock: nat, ws: seq<Write>)
    requires GoodDisk(e, d) && AgesAgree(e, d) && StampedBy(d, clock)
    requires ws != [] && WriteOk(e, d, ws[0]) && ScriptStamps(d, clock, ws)
    ensures AgesAgree(e, Exec(d, ws[0])) && StampedBy(Exec(d, ws[0]), clock)
    ensures ScriptStamps(Exec(d, ws[0]), clock, ws[1..])
  {
    var w, d' := ws[0], Exec(d, ws[0]);
    assert w in ws;
    AgesPreserved(e, d, w);
    forall n | HasMarker(d', n)
      ensures MarkerOf(d', n).updatedAt <= clock
      ensures !w.PutMarker? ==> HasMarker(d, n) && MarkerOf(d', n) == MarkerOf(d, n)
    {
      MarkerFrame(e, d, w, n);
    }
    if w.PutMarker? {
      NoMarkerIsOne(ws[1..]);
    }
    assert forall x | x in ws[1..] :: x in ws;
  }

  lemma {:induction false} IdleStamps(d: Disk, clock: nat)
    ensures ScriptStamps(d, clock, [])
  {}

  lemma {:induction false} ClockPreserved(e: Env, w: World, s: Step, w': World)
    requires Inv(e, w) && ClockInv(e, w) && Next(e, w, s, w') && Ticks(w, s)
    ensures ClockInv(e, w')
  {
    var p := s.pid;
    var ws := ScriptOf(PcOf(w, p));
    assert ScriptStamps(w.disk, w.clock, ws);
    assert PcOk(e, w.disk, PcOf(w, p));
    IdleStamps(w'.disk, w'.clock);
    if s.Commit? {
      CommitStamps(e, w.disk, w.clock, ws);
    } else if s.Decided? {
      var pc := PcOf(w, p);
      if pc.Holding? {
        DecideStamps(e, w.disk, pc.req, Missing, [], s.now);
      } else {
        DecideStamps(e, w.disk, pc.req, pc.target, pc.out, s.now);
      }
    }
    forall q: nat ensures ScriptStamps(w'.disk, w'.clock, ScriptOf(PcOf(w', q))) {
      if q != p {
        OthersIdle(e, w, s, w', q);
        assert ScriptStamps(w.disk, w.clock, ScriptOf(PcOf(w, q)));
      }
    }
  }

  /** The clock ticks at every decision, and the start has no markers. */
  ghost predicate StrictClock(r: Run) {
    && |r.worlds| == |r.steps| + 1
    && (forall n :: Path(n, StateJson) !in r.worlds[0].disk)
    && forall i | 0 <= i < |r.steps| :: Ticks(r.worlds[i], r.steps[i])
  }

  lemma {:induction false} ClockHolds(e: Env, r: Run, i: nat)
    requires IsRun(e, r) && StrictClock(r) && i < |r.worlds|
    ensures ClockInv(e, r.worlds[i])
  {
    if i == 0 {
      IdleStamps(r.worlds[0].disk, r.worlds[0].clock);
      assert forall p: nat :: PcOf(r.worlds[0], p) == Idle;
    } else {
      ClockHolds(e, r, i - 1);
      InvHolds(e, r, i - 1);
      assert StepAt(e, r, i - 1);
      assert Ticks(r.worlds[i - 1], r.steps[i - 1]);
      ClockPreserved(e, r.worlds[i - 1], r.steps[i - 1], r.worlds[i]);
    }
  }

  // ---- Retention ---------------------------------------------------------------------------------

  /** `n` is the most recently applied plan of the channel. */
  ghost predicate NewestApplied(e: Env, d: Disk, channel: string, n: string) {
    && AtStage(d, n, Applied) && ChannelOf(e, d, n) == channel
    && forall m | AtStage(d, m, Applied) && ChannelOf(e, d, m) == channel ::
         MarkerOf(d, m).updatedAt <= MarkerOf(d, n).updatedAt
  }

  /** The newest applied plan of a channel is its highest-sequence one. */
  lemma {:induction false} NewestIsHighest(e: Env, d: Disk, channel: string, n: string, w: Option<nat>)
    requires AgesAgree(e, d) && NewestApplied(e, d, channel, n) && IsWatermark(e, d, channel, w)
    ensures w == Some(MarkerOf(d, n).sequence)
  {
    var m :| AtStage(d, m, Applied) && ChannelOf(e, d, m) == channel && MarkerOf(d, m).sequence == w.value;
    assert BothApplied(e, d, m, n);
  }

  /** Main result, over runs: under a strictly increasing clock the newest applied plan is the watermark. */
  lemma {:induction false} NewestIsWatermarkInRuns(e: Env, r: Run, i: nat, channel: string, n: string, w: Option<nat>)
    requires IsRun(e, r) && StrictClock(r) && i < |r.worlds|
    requires NewestApplied(e, r.worlds[i].disk, channel, n) && IsWatermark(e, r.worlds[i].disk, channel, w)
    ensures w == Some(MarkerOf(r.worlds[i].disk, n).sequence)
  {
    ClockHolds(e, r, i);
    NewestIsHighest(e, r.worlds[i].disk, channel, n, w);
  }

  predicate Evicts(ws: seq<Write>, n: string) {
    exists i | 0 <= i < |ws| :: ws[i].Evict? && ws[i].name == n
  }

  predicate OnlyEvicts(ws: seq<Write>) {
    forall w | w in ws :: w.Evict? || w.Append?
  }

  /** A plan kept by a script of evictions is exactly as it was; one evicted is gone. */
  lemma {:induction false} EvictEffect(e: Env, d: Disk, ws: seq<Write>, n: string)
    requires OnlyEvicts(ws)
    ensures HasMarker(ExecAll(d, ws), n) <==> HasMarker(d, n) && !Evicts(ws, n)
    ensures HasMarker(ExecAll(d, ws), n) && n != AUDIT_DIR ==>
              MarkerOf(ExecAll(d, ws), n) == MarkerOf(d, n)
              && ChannelOf(e, ExecAll(d, ws), n) == ChannelOf(e, d, n)
    decreases |ws|
  {
    if ws != [] {
      assert ws[0] in ws;
      var rest := ws[1..];
      var d1 := Exec(d, ws[0]);
      EvictEffect(e, d1, rest, n);
      EvictsSplit(ws, n);
      if !(ws[0].Evict? && ws[0].name == n) {
        assert HasMarker(d1, n) <==> HasMarker(d, n);
        assert SamePlan(d, d1, n);
        SamePlanFacts(e, d, d1, n);
      }
    }
  }

  lemma {:induction false} EvictsSplit(ws: seq<Write>, n: string)
    requires ws != []
    ensures Evicts(ws, n) <==> (ws[0].Evict? && ws[0].name == n) || Evicts(ws[1..], n)
  {
    if Evicts(ws, n) {
      var i :| 0 <= i < |ws| && ws[i].Evict? && ws[i].name == n;
      if i > 0 { assert ws[1..][i - 1] == ws[i]; }
    }
    if Evicts(ws[1..], n) {
      var i :| 0 <= i < |ws[1..]| && ws[1..][i].Evict? && ws[1..][i].name == n;
      assert ws[i + 1] == ws[1..][i];
    }
  }

  lemma {:induction false} EvictWritesFacts(xs: seq<StageState>, n: string)
    ensures OnlyEvicts(EvictWrites(xs))
    ensures Evicts(EvictWrites(xs), n) <==> Listed(xs, n)
  {
    if xs != [] {
      var rest := xs[1..];
      EvictWritesFacts(rest, n);
      var ws := EvictWrites(xs);
      var head := ws[..2];
      assert ws == [ws[0], ws[1]] + EvictWrites(rest);
      assert ws[1..][1..] == EvictWrites(rest);
      EvictsSplit(ws, n);
      EvictsSplit(ws[1..], n);
      if Listed(xs, n) && xs[0].planId != n {
        var i :| 0 <= i < |xs| && xs[i].planId == n;
        assert rest[i - 1].planId == n;
      }
      if Listed(rest, n) {
        var i :| 0 <= i < |rest| && rest[i].planId == n;
        assert xs[i + 1].planId == n;
      }
    }
  }

  /** Evicting some plans but not the watermark's own leaves the watermark. */
  lemma {:induction false} WatermarkSurvives(e: Env, d: Disk, ws: seq<Write>, channel: string, n: string, w: Option<nat>)
    requires OnlyEvicts(ws) && MarkersOk(e, d) && IsWatermark(e, d, channel, w)
    requires AtStage(d, n, Applied) && ChannelOf(e, d, n) == channel && w == Some(MarkerOf(d, n).sequence)
    requires !Evicts(ws, n)
    ensures IsWatermark(e, ExecAll(d, ws), channel, w)
  {
    var d' := ExecAll(d, ws);
    forall m | AtStage(d', m, Applied) && ChannelOf(e, d', m) == channel
      ensures MarkerOf(d', m).sequence <= w.value
    {
      EvictEffect(e, d, ws, m);
      assert PlanFilesOk(e, d, m, MarkerOf(d, m));
    }
    EvictEffect(e, d, ws, n);
    assert PlanFilesOk(e, d, n, MarkerOf(d, n));
    assert AtStage(d', n, Applied);
  }

  /** Evicting the highest applied plan lowers the watermark. */
  lemma {:induction false} WatermarkDrops(e: Env, d: Disk, ws: seq<Write>, channel: string, n: string, w: Option<nat>)
    requires OnlyEvicts(ws) && MarkersOk(e, d) && AgesAgree(e, d)
    requires AtStage(d, n, Applied) && ChannelOf(e, d, n) == channel && w == Some(MarkerOf(d, n).sequence)
    requires Evicts(ws, n)
    ensures !IsWatermark(e, ExecAll(d, ws), channel, w)
  {
    var d' := ExecAll(d, ws);
    forall m | AtStage(d', m, Applied) && ChannelOf(e, d', m) == channel
      ensures MarkerOf(d', m).sequence != w.value
    {
      EvictEffect(e, d, ws, m);
      assert PlanFilesOk(e, d, m, MarkerOf(d, m));
      assert BothApplied(e, d, m, n) && m != n;
      assert AgeAgrees(d, m, n);
    }
  }

  /** The plan is among the `keep` newest terminal plans of the scan. */
  predicate Kept(out: seq<StageState>, keep: nat, n: string) {
    var r := RetentionOrder(out);
    Listed(if keep <= |r| then r[..keep] else r, n)
  }

  lemma {:induction false} KeptOrSkipped(out: seq<StageState>, keep: nat, n: string)
    requires Distinct(out) && Listed(RetentionOrder(out), n)
    ensures Kept(out, keep, n) <==> !Listed(Skip(RetentionOrder(out), keep), n)
  {
    RetentionOrderFacts(out);
    var r := RetentionOrder(out);
    var i :| 0 <= i < |r| && r[i].planId == n;
    if keep <= |r| {
      if i < keep {
        assert r[..keep][i].planId == n;
        forall j | 0 <= j < |r| - keep ensures r[keep..][j].planId != n {
          assert r[i].planId != r[keep + j].planId;
        }
      } else {
        assert r[keep..][i - keep].planId == n;
        forall j | 0 <= j < keep ensures r[..keep][j].planId != n {
          assert r[j].planId != r[i].planId;
        }
      }
    }
  }

  lemma {:induction false} TerminalListed(e: Env, d: Disk, out: seq<StageState>, n: string)
    requires MarkersOk(e, d) && JsonFaithful(e.codec) && CompleteScan(e, d, false, out) && AtStage(d, n, Applied)
    ensures Listed(RetentionOrder(out), n)
  {
    GoodProbe(e, d, n);
    RetentionOrderFacts(out);
    assert Listed(out, n);
    var i :| 0 <= i < |out| && out[i].planId == n;
    assert ProbeEntry(e, d, out[i].planId) == Found(out[i]);
    assert out[i] in out && out[i] in RetentionOrder(out);
  }

  /**
    Main result: retention leaves a channel's watermark as it is exactly when the newest applied
    plan of the channel is among the kept ones; and then it does so at every crash point too.
  */
  lemma {:induction false} RetentionKeepsWatermarkIff(e: Env, d: Disk, out: seq<StageState>, keep: nat, channel: string,
                                   n: string, w: Option<nat>)
    requires GoodDisk(e, d) && AgesAgree(e, d) && JsonFaithful(e.codec) && CompleteScan(e, d, false, out)
    requires NewestApplied(e, d, channel, n) && IsWatermark(e, d, channel, w)
    ensures IsWatermark(e, ExecAll(d, RetainWrites(out, keep)), channel, w) <==> Kept(out, keep, n)
    ensures Kept(out, keep, n) ==> forall k | 0 <= k <= |RetainWrites(out, keep)| ::
              IsWatermark(e, ExecAll(d, RetainWrites(out, keep)[..k]), channel, w)
  {
    var xs, ws := Skip(RetentionOrder(out), keep), RetainWrites(out, keep);
    NewestIsHighest(e, d, channel, n, w);
    TerminalListed(e, d, out, n);
    KeptOrSkipped(out, keep, n);
    EvictWritesFacts(xs, n);
    if Kept(out, keep, n) {
      forall k | 0 <= k <= |ws| ensures IsWatermark(e, ExecAll(d, ws[..k]), channel, w) {
        assert !Evicts(ws[..k], n);
        assert OnlyEvicts(ws[..k]);
        WatermarkSurvives(e, d, ws[..k], channel, n, w);
      }
      assert ws[..|ws|] == ws;
    } else {
      WatermarkDrops(e, d, ws, channel, n, w);
    }
  }

  // ---- Retention inside a run ------------------------------------------------------------------------

  /** Process `p`, `k` writes into its script `ws`, with no other change to the disk `d` since it decided. */
  predicate Into(w: World, p: nat, d: Disk, ws: seq<Write>, k: nat) {
    k <= |ws| && p in w.pcs && w.pcs[p] == Writing(ws[k..]) && w.disk == ExecAll(d, ws[..k])
  }

  lemma {:induction false} IntoStep(e: Env, w: World, s: Step, w': World, p: nat, d: Disk, ws: seq<Write>, k: nat)
    returns (k': nat)
    requires LockInv(w) && Next(e, w, s, w') && Into(w, p, d, ws, k) && !(s.Stop? && s.pid == p)
    ensures Into(w', p, d, ws, k')
  {
    assert PcOf(w, p) != Idle && w.holder == Some(p);
    if s.pid != p { OthersIdle(e, w, s, w', p); }
    k' := if s.Commit? then k + 1 else k;
    if s.Commit? {
      assert ws[k..][0] == ws[k] && ws[k..][1..] == ws[k + 1..];
      assert ws[..k + 1] == ws[..k] + [ws[k]];
      ExecAllAppend(d, ws[..k], ws[k]);
    }
  }

  /** Step `i` decides, for process `p`, on retention with budget `keep` after scanning `out`. */
  ghost predicate RetainsAt(r: Run, i: nat, p: nat, keep: nat, out: seq<StageState>) {
    && i < |r.steps| && |r.worlds| == |r.steps| + 1 && r.steps[i].Decided? && r.steps[i].pid == p
    && var pc := PcOf(r.worlds[i], p);
       pc.Scanning? && pc.req == Request.Retain(keep) && pc.out == out
  }

  ghost predicate NoStop(r: Run, p: nat, i: nat, j: nat) {
    forall k: nat | i < k < j && k < |r.steps| :: !(r.steps[k].Stop? && r.steps[k].pid == p)
  }

  lemma {:induction false} RetentionUnderWay(e: Env, r: Run, i: nat, j: nat, p: nat, keep: nat, out: seq<StageState>)
    returns (k: nat)
    requires IsRun(e, r) && RetainsAt(r, i, p, keep, out) && i < j < |r.worlds| && NoStop(r, p, i, j)
    ensures Into(r.worlds[j], p, r.worlds[i].disk, RetainWrites(out, keep), k)
    decreases j
  {
    assert StepAt(e, r, j - 1);
    InvHolds(e, r, j - 1);
    var ws := RetainWrites(out, keep);
    if j == i + 1 {
      k := 0;
      assert ws[0..] == ws && ws[..0] == [];
    } else {
      k := RetentionUnderWay(e, r, i, j - 1, p, keep, out);
      k := IntoStep(e, r.worlds[j - 1], r.steps[j - 1], r.worlds[j], p, r.worlds[i].disk, ws, k);
    }
  }

  lemma {:induction false} RetentionKnows(e: Env, r: Run, i: nat, p: nat, keep: nat, out: seq<StageState>)
    requires IsRun(e, r) && StrictClock(r) && RetainsAt(r, i, p, keep, out)
    ensures GoodDisk(e, r.worlds[i].disk) && AgesAgree(e, r.worlds[i].disk) && JsonFaithful(e.codec)
    ensures CompleteScan(e, r.worlds[i].disk, false, out)
  {
    InvHolds(e, r, i);
    ClockHolds(e, r, i);
    assert StepAt(e, r, i);
    assert PcOk(e, r.worlds[i].disk, PcOf(r.worlds[i], p));
  }

  /**
    Main result, over runs: while retention runs its evictions the channel's watermark stays if the newest applied
    plan is kept; when it has run them all, it is the same exactly in that case.
  */
  lemma {:induction false} RetentionInRuns(e: Env, r: Run, i: nat, j: nat, p: nat, keep: nat, out: seq<StageState>,
                                           channel: string, n: string, w: Option<nat>)
    requires IsRun(e, r) && StrictClock(r) && RetainsAt(r, i, p, keep, out) && i < j < |r.worlds| && NoStop(r, p, i, j)
    requires NewestApplied(e, r.worlds[i].disk, channel, n) && IsWatermark(e, r.worlds[i].disk, channel, w)
    ensures Kept(out, keep, n) ==> IsWatermark(e, r.worlds[j].disk, channel, w)
    ensures PcOf(r.worlds[j], p) == Writing([]) ==> (IsWatermark(e, r.worlds[j].disk, channel, w) <==> Kept(out, keep, n))
  {
    var k := RetentionUnderWay(e, r, i, j, p, keep, out);
    RetentionKnows(e, r, i, p, keep, out);
    RetentionKeepsWatermarkIff(e, r.worlds[i].disk, out, keep, channel, n, w);
    if PcOf(r.worlds[j], p) == Writing([]) {
      InFull(r.worlds[j], p, r.worlds[i].disk, RetainWrites(out, keep), k);
    }
  }

  lemma {:induction false} InFull(w: World, p: nat, d: Disk, ws: seq<Write>, k: nat)
    requires Into(w, p, d, ws, k) && PcOf(w, p) == Writing([])
    ensures w.disk == ExecAll(d, ws)
  {
    assert |ws[k..]| == 0;
    assert ws[..k] == ws;
  }
}
