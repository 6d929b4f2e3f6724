/** What staging operations read and decide under the lock (src/staging.rs:418-869, 895-932, 1420-1462). */
module Staging {
  import opened Wrappers
  import opened Plan
  import opened Disk

  // ---- Reading markers -----------------------------------------------------------

  datatype Probe = Missing | Untrusted | Found(state: StageState)

  function ReadState(d: Disk, n: string): Probe {
    if Path(n, StateJson) !in d then Missing
    else if HasMarker(d, n) then Found(MarkerOf(d, n))
    else Untrusted
  }

  /** The `env_id` of the plan document beside a marker, or the local environment. */
  function LegacyChannel(e: Env, d: Disk, n: string): string {
    if HasRaw(d, Path(n, PlanJson)) && e.codec.channelOf(d[Path(n, PlanJson)].bytes).Some?
    then e.codec.channelOf(d[Path(n, PlanJson)].bytes).value
    else e.id
  }

  function Backfill(e: Env, d: Disk, n: string, s: StageState): StageState {
    if s.channel.Some? then s else s.(channel := Some(LegacyChannel(e, d, n)))
  }

  /** What a scan makes of one directory entry. */
  function ProbeEntry(e: Env, d: Disk, n: string): Probe {
    if !ValidPlanId(n) then Missing
    else
      match ReadState(d, n)
      case Found(s) => if s.planId == n then Found(Backfill(e, d, n, s)) else Untrusted
      case other => other
  }

  /** The directories directly under the environment directory. */
  function DirNames(d: Disk): set<string> {
    set p | p in d && p.place != Itself :: p.top
  }

  predicate Listed(out: seq<StageState>, n: string) {
    exists i | 0 <= i < |out| :: out[i].planId == n
  }

  predicate Distinct(out: seq<StageState>) {
    forall i, j | 0 <= i < j < |out| :: out[i].planId != out[j].planId
  }

  /** A scan that still has the entries `todo` to visit. A strict one has met no untrusted marker. */
  ghost predicate PartialScan(e: Env, d: Disk, strict: bool, todo: set<string>, out: seq<StageState>) {
    && Distinct(out)
    && (forall i | 0 <= i < |out| :: out[i].planId !in todo && ProbeEntry(e, d, out[i].planId) == Found(out[i]))
    && (forall n | ProbeEntry(e, d, n).Found? :: n in todo || Listed(out, n))
    && (strict ==> forall n | ProbeEntry(e, d, n).Untrusted? :: n in todo)
  }

  /** What a finished scan returned: every trustworthy marker, each once. */
  ghost predicate CompleteScan(e: Env, d: Disk, strict: bool, out: seq<StageState>) {
    PartialScan(e, d, strict, {}, out)
  }

  lemma {:induction false} ScanStarts(e: Env, d: Disk, strict: bool)
    ensures PartialScan(e, d, strict, DirNames(d), [])
  {
    forall n | ProbeEntry(e, d, n) != Missing ensures n in DirNames(d) {
      assert Path(n, StateJson) in d;
    }
  }

  lemma {:induction false} ScanStep(e: Env, d: Disk, strict: bool, todo: set<string>, out: seq<StageState>, n: string)
    requires PartialScan(e, d, strict, todo, out) && n in todo
    requires strict ==> !ProbeEntry(e, d, n).Untrusted?
    ensures PartialScan(e, d, strict, todo - {n}, Noted(out, ProbeEntry(e, d, n)))
  {
    var p := ProbeEntry(e, d, n);
    var out' := Noted(out, p);
    if p.Found? {
      assert out'[|out|].planId == n;
      forall m | Listed(out, m) ensures Listed(out', m) {
        var i :| 0 <= i < |out| && out[i].planId == m;
        assert out'[i].planId == m;
      }
      assert Listed(out', n);
    }
  }

  function Noted(out: seq<StageState>, p: Probe): seq<StageState> {
    if p.Found? then out + [p.state] else out
  }

  lemma {:induction false} ScanWithin(e: Env, d: Disk, sa: bool, a: seq<StageState>, sb: bool, b: seq<StageState>)
    requires CompleteScan(e, d, sa, a) && CompleteScan(e, d, sb, b)
    ensures forall s | s in a :: s in b
    ensures forall n | Listed(a, n) :: Listed(b, n)
  {
    forall s | s in a ensures s in b {
      var i :| 0 <= i < |a| && a[i] == s;
      assert ProbeEntry(e, d, s.planId) == Found(s);
      assert Listed(b, s.planId);
      var j :| 0 <= j < |b| && b[j].planId == s.planId;
      assert ProbeEntry(e, d, b[j].planId) == Found(b[j]);
    }
    forall n | Listed(a, n) ensures Listed(b, n) {
      var i :| 0 <= i < |a| && a[i].planId == n;
      assert ProbeEntry(e, d, n).Found?;
    }
  }

  /** A strict scan that succeeds lists what the forgiving one lists, and skipped no present marker. */
  lemma {:induction false} StrictScanOmitsNothing(e: Env, d: Disk, strict: seq<StageState>, lax: seq<StageState>, n: string)
    requires CompleteScan(e, d, true, strict) && CompleteScan(e, d, false, lax)
    ensures forall s :: s in strict <==> s in lax
    ensures Listed(strict, n) <==> Listed(lax, n)
    ensures ValidPlanId(n) && Path(n, StateJson) in d ==> Listed(strict, n)
  {
    ScanWithin(e, d, true, strict, false, lax);
    ScanWithin(e, d, false, lax, true, strict);
    if ValidPlanId(n) && Path(n, StateJson) in d {
      assert ProbeEntry(e, d, n) != Missing;
    }
  }

  /** On a good disk the backfilled channel is the channel of the plan document. */
  lemma {:induction false} GoodProbe(e: Env, d: Disk, n: string)
    requires MarkersOk(e, d) && JsonFaithful(e.codec)
    ensures ProbeEntry(e, d, n).Found? <==> HasMarker(d, n)
    ensures !ProbeEntry(e, d, n).Untrusted?
    ensures HasMarker(d, n) ==>
              ProbeEntry(e, d, n).state == MarkerOf(d, n).(channel := Some(ChannelOf(e, d, n)))
  {
    if Path(n, StateJson) in d {
      assert PlanFilesOk(e, d, n, MarkerOf(d, n));
      var bytes := d[Path(n, PlanJson)].bytes;
      assert e.codec.parsePlan(bytes).Some?;
    }
  }

  /** The disk as it would be had every legacy marker recorded its plan's channel. */
  function Recorded(e: Env, d: Disk): Disk {
    map p | p in d ::
      if p.place.StateJson? && d[p].Marker? && d[p].state.channel.None?
      then Marker(d[p].state.(channel := Some(ChannelOf(e, d, p.top)))) else d[p]
  }

  /** Scans of legacy markers see what they would see had the channels been recorded. */
  lemma {:induction false} BackfillEqualsRecorded(e: Env, d: Disk, strict: bool, out: seq<StageState>)
    requires MarkersOk(e, d) && JsonFaithful(e.codec)
    ensures MarkersOk(e, Recorded(e, d))
    ensures CompleteScan(e, d, strict, out) <==> CompleteScan(e, Recorded(e, d), strict, out)
  {
    var r := Recorded(e, d);
    forall n | Path(n, StateJson) in r ensures HasMarker(r, n) && PlanFilesOk(e, r, n, MarkerOf(r, n)) {
      assert HasMarker(d, n) && PlanFilesOk(e, d, n, MarkerOf(d, n));
    }
    forall n ensures ProbeEntry(e, d, n) == ProbeEntry(e, r, n) {
      GoodProbe(e, d, n);
      GoodProbe(e, r, n);
      assert Path(n, StateJson) in r <==> Path(n, StateJson) in d;
    }
  }

  // ---- Admission facts ---------------------------------------------------------------

  datatype AdmissionFacts = AdmissionFacts(latestAppliedSequence: Option<nat>, appliedPlanIds: seq<string>)

  predicate AppliedIn(s: StageState, channel: string) {
    s.stage == Applied && s.channel == Some(channel)
  }

  function Raise(w: Option<nat>, k: nat): Option<nat> {
    if w.Some? && w.value >= k then w else Some(k)
  }

  function Watermark(out: seq<StageState>, channel: string): Option<nat> {
    if out == [] then None
    else
      var w := Watermark(out[1..], channel);
      if AppliedIn(out[0], channel) then Raise(w, out[0].sequence) else w
  }

  function AppliedIds(out: seq<StageState>): seq<string> {
    if out == [] then []
    else (if out[0].stage == Applied then [out[0].planId] else []) + AppliedIds(out[1..])
  }

  function Facts(out: seq<StageState>, channel: string): AdmissionFacts {
    AdmissionFacts(Watermark(out, channel), AppliedIds(out))
  }

  /** `w` is the highest sequence applied from `channel`, None when nothing was. */
  ghost predicate IsWatermark(e: Env, d: Disk, channel: string, w: Option<nat>) {
    && (forall n | AtStage(d, n, Applied) && ChannelOf(e, d, n) == channel ::
          w.Some? && MarkerOf(d, n).sequence <= w.value)
    && (w.Some? ==> exists n ::
          AtStage(d, n, Applied) && ChannelOf(e, d, n) == channel && MarkerOf(d, n).sequence == w.value)
  }

  lemma {:induction false} WatermarkIsMaximum(out: seq<StageState>, channel: string)
    ensures forall i | 0 <= i < |out| && AppliedIn(out[i], channel) ::
              Watermark(out, channel).Some? && out[i].sequence <= Watermark(out, channel).value
    ensures Watermark(out, channel).Some? ==> exists i | 0 <= i < |out| ::
              AppliedIn(out[i], channel) && out[i].sequence == Watermark(out, channel).value
  {
    if out != [] {
      var rest := out[1..];
      WatermarkIsMaximum(rest, channel);
      forall i | 0 <= i < |out| && AppliedIn(out[i], channel)
        ensures Watermark(out, channel).Some? && out[i].sequence <= Watermark(out, channel).value
      {
        if i > 0 { assert out[i] == rest[i - 1]; }
      }
      var w := Watermark(rest, channel);
      if w.Some? && Watermark(out, channel) == w {
        var i :| 0 <= i < |rest| && AppliedIn(rest[i], channel) && rest[i].sequence == w.value;
        assert out[i + 1] == rest[i];
      }
    }
  }

  /** The watermark of a scan is the watermark of the disk. */
  lemma {:induction false} ScanWatermark(e: Env, d: Disk, strict: bool, out: seq<StageState>, channel: string)
    requires MarkersOk(e, d) && JsonFaithful(e.codec) && CompleteScan(e, d, strict, out)
    ensures IsWatermark(e, d, channel, Watermark(out, channel))
  {
    WatermarkIsMaximum(out, channel);
    var w := Watermark(out, channel);
    forall n | AtStage(d, n, Applied) && ChannelOf(e, d, n) == channel
      ensures w.Some? && MarkerOf(d, n).sequence <= w.value
    {
      GoodProbe(e, d, n);
      assert Listed(out, n);
      var i :| 0 <= i < |out| && out[i].planId == n;
      assert ProbeEntry(e, d, out[i].planId) == Found(out[i]);
      assert AppliedIn(out[i], channel);
    }
    if w.Some? {
      var i :| 0 <= i < |out| && AppliedIn(out[i], channel) && out[i].sequence == w.value;
      GoodProbe(e, d, out[i].planId);
      assert AtStage(d, out[i].planId, Applied);
    }
  }

  predicate AnyApplying(out: seq<StageState>) {
    exists i | 0 <= i < |out| :: out[i].stage == Applying
  }

  predicate ListedAt(out: seq<StageState>, n: string, s: Stage) {
    exists i | 0 <= i < |out| :: out[i].planId == n && out[i].stage == s
  }

  /** A complete scan lists a plan at a stage exactly if it is at that stage on the disk. */
  lemma {:induction false} ScanStages(e: Env, d: Disk, strict: bool, out: seq<StageState>, n: string, s: Stage)
    requires MarkersOk(e, d) && JsonFaithful(e.codec) && CompleteScan(e, d, strict, out)
    ensures ListedAt(out, n, s) <==> AtStage(d, n, s)
  {
    GoodProbe(e, d, n);
    if AtStage(d, n, s) {
      assert Listed(out, n);
      var i :| 0 <= i < |out| && out[i].planId == n;
      assert ProbeEntry(e, d, out[i].planId) == Found(out[i]);
    }
    if i :| 0 <= i < |out| && out[i].planId == n && out[i].stage == s {
      assert ProbeEntry(e, d, out[i].planId) == Found(out[i]);
    }
  }

  /** The single-flight test of a complete scan fires exactly when some plan is applying, whatever its channel. */
  lemma {:induction false} ScanApplying(e: Env, d: Disk, strict: bool, out: seq<StageState>)
    requires MarkersOk(e, d) && JsonFaithful(e.codec) && CompleteScan(e, d, strict, out)
    ensures AnyApplying(out) <==> exists n :: AtStage(d, n, Applying)
  {
    if n :| AtStage(d, n, Applying) {
      ScanStages(e, d, strict, out, n, Applying);
    }
    if i :| 0 <= i < |out| && out[i].stage == Applying {
      ScanStages(e, d, strict, out, out[i].planId, Applying);
    }
  }

  // ---- What a gate is shown -----------------------------------------------------------

  ghost predicate NoRepeats(ids: seq<string>) {
    forall i, j | 0 <= i < j < |ids| :: ids[i] != ids[j]
  }

  /** The facts of the disk: the channel's watermark, and the applied plans of all channels, each once. */
  ghost predicate FactsOf(e: Env, d: Disk, channel: string, f: AdmissionFacts) {
    && IsWatermark(e, d, channel, f.latestAppliedSequence)
    && (forall n :: n in f.appliedPlanIds <==> AtStage(d, n, Applied))
    && NoRepeats(f.appliedPlanIds)
  }

  lemma {:induction false} AppliedIdsListed(out: seq<StageState>, n: string)
    ensures n in AppliedIds(out) <==> ListedAt(out, n, Applied)
  {
    if out != [] {
      var rest := out[1..];
      AppliedIdsListed(rest, n);
      if i :| 0 <= i < |rest| && rest[i].planId == n && rest[i].stage == Applied {
        assert out[i + 1] == rest[i];
      }
      if i :| 0 <= i < |out| && out[i].planId == n && out[i].stage == Applied {
        if i > 0 { assert rest[i - 1] == out[i]; }
      }
    }
  }

  lemma {:induction false} DistinctTail(out: seq<StageState>)
    requires Distinct(out) && out != []
    ensures Distinct(out[1..]) && !Listed(out[1..], out[0].planId)
  {
    var rest := out[1..];
    forall i, j | 0 <= i < j < |rest| ensures rest[i].planId != rest[j].planId {
      assert out[i + 1].planId != out[j + 1].planId;
    }
  }

  lemma {:induction false} Prepended(n: string, ids: seq<string>)
    requires NoRepeats(ids) && n !in ids
    ensures NoRepeats([n] + ids)
  {}

  lemma {:induction false} AppliedIdsOnce(out: seq<StageState>)
    requires Distinct(out)
    ensures NoRepeats(AppliedIds(out))
  {
    if out != [] {
      var ids := AppliedIds(out[1..]);
      DistinctTail(out);
      AppliedIdsOnce(out[1..]);
      forall n | n in ids ensures n != out[0].planId {
        AppliedIdsListed(out[1..], n);
        assert Listed(out[1..], n);
      }
      if out[0].stage == Applied { Prepended(out[0].planId, ids); }
    }
  }

  /** What a gate is shown from a complete scan are the facts of the disk. */
  lemma {:induction false} ScanFacts(e: Env, d: Disk, strict: bool, out: seq<StageState>, channel: string)
    requires MarkersOk(e, d) && JsonFaithful(e.codec) && CompleteScan(e, d, strict, out)
    ensures FactsOf(e, d, channel, Facts(out, channel))
  {
    ScanWatermark(e, d, strict, out, channel);
    AppliedIdsOnce(out);
    forall n ensures n in AppliedIds(out) <==> AtStage(d, n, Applied) {
      AppliedIdsListed(out, n);
      ScanStages(e, d, strict, out, n, Applied);
    }
  }

  /** The downgrade guard on the facts is a statement about the disk: everything applied from the channel is older. */
  lemma {:induction false} GuardMeaning(e: Env, d: Disk, channel: string, f: AdmissionFacts, sequence: nat)
    requires FactsOf(e, d, channel, f)
    ensures NotDowngrade(sequence, f.latestAppliedSequence) <==>
              forall n | AtStage(d, n, Applied) && ChannelOf(e, d, n) == channel :: MarkerOf(d, n).sequence < sequence
  {}

  // ---- Sorting for retention ------------------------------------------------------------

  function Insert(x: StageState, xs: seq<StageState>): seq<StageState> {
    if xs == [] || xs[0].updatedAt <= x.updatedAt then [x] + xs else [xs[0]] + Insert(x, xs[1..])
  }

  /** A stable sort, newest first. */
  function NewestFirst(xs: seq<StageState>): seq<StageState> {
    if xs == [] then [] else Insert(xs[0], NewestFirst(xs[1..]))
  }

  function Terminal(xs: seq<StageState>): seq<StageState> {
    if xs == [] then []
    else (if IsTerminal(xs[0].stage) then [xs[0]] else []) + Terminal(xs[1..])
  }

  predicate Newer(xs: seq<StageState>, i: int, j: int)
    requires 0 <= i < |xs| && 0 <= j < |xs|
  {
    xs[i].updatedAt >= xs[j].updatedAt
  }

  predicate Descending(xs: seq<StageState>) {
    forall i, j | 0 <= i < j < |xs| :: Newer(xs, i, j)
  }

  lemma {:induction false} InsertSorts(x: StageState, xs: seq<StageState>)
    requires Descending(xs)
    ensures Descending(Insert(x, xs))
    ensures multiset(Insert(x, xs)) == multiset{x} + multiset(xs)
  {
    if xs == [] || xs[0].updatedAt <= x.updatedAt {
      var ys := [x] + xs;
      forall i, j | 0 <= i < j < |ys| ensures Newer(ys, i, j) {
        if i > 0 {
          assert Newer(xs, i - 1, j - 1);
        } else if j > 1 {
          assert Newer(xs, 0, j - 1);
        }
      }
    } else {
      var rest := xs[1..];
      assert xs == [xs[0]] + rest;
      forall i, j | 0 <= i < j < |rest| ensures Newer(rest, i, j) {
        assert Newer(xs, i + 1, j + 1);
      }
      InsertSorts(x, rest);
      var zs := Insert(x, rest);
      forall y | y in zs ensures y.updatedAt <= xs[0].updatedAt {
        assert y in multiset(zs);
        if y != x {
          assert y in multiset(rest);
          var k :| 0 <= k < |rest| && rest[k] == y;
          assert Newer(xs, 0, k + 1);
        }
      }
      HeadOnTop(xs[0], zs);
    }
  }

  lemma {:induction false} HeadOnTop(y: StageState, zs: seq<StageState>)
    requires Descending(zs) && forall z | z in zs :: z.updatedAt <= y.updatedAt
    ensures Descending([y] + zs)
  {
    forall i, j | 0 <= i < j < |[y] + zs| ensures Newer([y] + zs, i, j) {
      if i > 0 {
        assert Newer(zs, i - 1, j - 1);
      } else {
        assert zs[j - 1] in zs;
      }
    }
  }

  /** Sorting orders by age, newest first, and neither loses nor invents a plan. */
  lemma {:induction false} NewestFirstSorts(xs: seq<StageState>)
    ensures Descending(NewestFirst(xs))
    ensures multiset(NewestFirst(xs)) == multiset(xs)
  {
    if xs != [] {
      assert xs == [xs[0]] + xs[1..];
      NewestFirstSorts(xs[1..]);
      InsertSorts(xs[0], NewestFirst(xs[1..]));
    }
  }

  lemma {:induction false} TerminalKeeps(xs: seq<StageState>)
    ensures forall s :: s in Terminal(xs) <==> s in xs && IsTerminal(s.stage)
    ensures Distinct(xs) ==> Distinct(Terminal(xs))
  {
    if xs != [] {
      var rest := xs[1..];
      TerminalKeeps(rest);
      assert xs == [xs[0]] + rest;
      if Distinct(xs) {
        assert Distinct(rest) by {
          forall i, j | 0 <= i < j < |rest| ensures rest[i].planId != rest[j].planId {
            assert xs[i + 1].planId != xs[j + 1].planId;
          }
        }
        forall s | s in Terminal(rest) ensures s.planId != xs[0].planId {
          var k :| 0 <= k < |rest| && rest[k] == s;
          assert xs[0].planId != xs[k + 1].planId;
        }
      }
    }
  }

  /** Plans in retention order: terminal ones, newest first. */
  function RetentionOrder(out: seq<StageState>): seq<StageState> {
    NewestFirst(Terminal(out))
  }

  lemma {:induction false} DuplicateCounts(xs: seq<StageState>, i: nat, j: nat)
    requires i < j < |xs| && xs[i] == xs[j]
    ensures multiset(xs)[xs[i]] >= 2
  {
    assert xs == xs[..j] + xs[j..];
    assert xs[i] in xs[..j] && xs[j] in xs[j..];
  }

  lemma {:induction false} DistinctCounts(xs: seq<StageState>)
    requires Distinct(xs)
    ensures forall s: StageState :: multiset(xs)[s] <= 1
  {
    if xs != [] {
      var rest := xs[1..];
      assert xs == [xs[0]] + rest;
      forall i, j | 0 <= i < j < |rest| ensures rest[i].planId != rest[j].planId {
        assert xs[i + 1].planId != xs[j + 1].planId;
      }
      DistinctCounts(rest);
      forall k | 0 <= k < |rest| ensures rest[k] != xs[0] {
        assert xs[0].planId != xs[k + 1].planId;
      }
    }
  }

  lemma {:induction false} SingleCounts(xs: seq<StageState>, i: nat, j: nat)
    requires i < j < |xs| && multiset(xs)[xs[i]] <= 1
    ensures xs[i] != xs[j]
  {
    if xs[i] == xs[j] {
      DuplicateCounts(xs, i, j);
      assert false;
    }
  }

  /** The retention order lists each terminal plan of the scan once. */
  lemma {:induction false} RetentionOrderFacts(out: seq<StageState>)
    requires Distinct(out)
    ensures Descending(RetentionOrder(out)) && Distinct(RetentionOrder(out))
    ensures forall s :: s in RetentionOrder(out) <==> s in out && IsTerminal(s.stage)
  {
    var t, r := Terminal(out), RetentionOrder(out);
    TerminalKeeps(out);
    NewestFirstSorts(t);
    DistinctCounts(t);
    forall s ensures s in r <==> s in t {
      assert s in r <==> s in multiset(r);
      assert s in t <==> s in multiset(t);
    }
    forall i, j | 0 <= i < j < |r| ensures r[i].planId != r[j].planId {
      SingleCounts(r, i, j);
      var a :| 0 <= a < |t| && t[a] == r[i];
      var b :| 0 <= b < |t| && t[b] == r[j];
      assert a != b;
    }
  }
}
