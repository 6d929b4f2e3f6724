/**
  Every call of the staging methods, faults included, is a stretch of a run of the machine by one
  process. What holds of all runs therefore holds of all sequences of calls.
*/
module CallsAreRuns {
  import opened Wrappers
  import opened Disk
  import opened Staging
  import opened Operations
  import opened StagingRuns
  import Outcomes

  function Last(r: Run): World
    requires r.worlds != []
  {
    r.worlds[|r.worlds| - 1]
  }

  /** `r'` goes on from the end of `r`. */
  ghost predicate Extends(e: Env, r: Run, r': Run) {
    IsRun(e, r) && IsRun(e, r') && r.worlds <= r'.worlds && r.steps <= r'.steps
  }

  lemma {:induction false} ExtendsTrans(e: Env, a: Run, b: Run, c: Run)
    requires Extends(e, a, b) && Extends(e, b, c)
    ensures Extends(e, a, c)
  {}

  function OneMore(r: Run, s: Step, w: World): Run {
    Run(r.worlds + [w], r.steps + [s])
  }

  lemma {:induction false} Extend(e: Env, r: Run, s: Step, w: World)
    requires IsRun(e, r) && Next(e, Last(r), s, w) && DisciplinedStep(e, Last(r), s)
    ensures Extends(e, r, OneMore(r, s, w)) && Last(OneMore(r, s, w)) == w
  {
    var r' := OneMore(r, s, w);
    forall i | 0 <= i < |r'.steps| ensures StepAt(e, r', i) {
      if i < |r.steps| { assert StepAt(e, r, i); }
    }
  }

  /** At the end of `r`, process `p` stands at `pc` on disk `d`. */
  ghost predicate Stands(e: Env, r: Run, p: nat, d: Disk, pc: Pc) {
    IsRun(e, r) && Last(r).disk == d && PcOf(Last(r), p) == pc
  }

  // ---- The scan ----------------------------------------------------------------------------

  function IdsOf(out: seq<StageState>): set<string> {
    set i | 0 <= i < |out| :: out[i].planId
  }

  ghost function ScanPc(d: Disk, req: Request, out: seq<StageState>, i: nat): Pc
    requires i <= |out|
  {
    Scanning(req, Target(d, req), DirNames(d) - IdsOf(out[..i]), out[..i])
  }

  lemma {:induction false} VisitOne(e: Env, r: Run, p: nat, d: Disk, pc: Pc, n: string) returns (r': Run)
    requires Stands(e, r, p, d, pc) && pc.Scanning? && n in pc.todo
    requires ScansStrictly(pc.req) ==> !ProbeEntry(e, d, n).Untrusted?
    ensures Extends(e, r, r')
    ensures Stands(e, r', p, d, pc.(todo := pc.todo - {n}, out := Noted(pc.out, ProbeEntry(e, d, n))))
  {
    var w := Last(r);
    var next := pc.(todo := pc.todo - {n}, out := Noted(pc.out, ProbeEntry(e, d, n)));
    var w' := w.(pcs := w.pcs[p := next]);
    Extend(e, r, Visit(p, n), w');
    r' := OneMore(r, Visit(p, n), w');
  }

  /** Visits the directories of the listed plans, in the order of the list. */
  lemma {:induction false} VisitListed(e: Env, r: Run, p: nat, d: Disk, req: Request, out: seq<StageState>, i: nat)
    returns (r': Run)
    requires CompleteScan(e, d, ScansStrictly(req), out) && i <= |out|
    requires Stands(e, r, p, d, ScanPc(d, req, out, i))
    ensures Extends(e, r, r') && Stands(e, r', p, d, ScanPc(d, req, out, |out|))
    decreases |out| - i
  {
    r' := r;
    if i < |out| {
      var n, pc := out[i].planId, ScanPc(d, req, out, i);
      assert ProbeEntry(e, d, n) == Found(out[i]) && Path(n, StateJson) in d;
      assert n in pc.todo by {
        assert n in DirNames(d);
      }
      var next := VisitOne(e, r, p, d, pc, n);
      assert out[..i + 1] == out[..i] + [out[i]];
      assert pc.todo - {n} == DirNames(d) - IdsOf(out[..i + 1]);
      r' := VisitListed(e, next, p, d, req, out, i + 1);
      ExtendsTrans(e, r, next, r');
    }
  }

  /** Visits the directories that hold no plan. */
  lemma {:induction false} VisitRest(e: Env, r: Run, p: nat, d: Disk, pc: Pc) returns (r': Run)
    requires Stands(e, r, p, d, pc) && pc.Scanning?
    requires forall n | n in pc.todo ::
               !ProbeEntry(e, d, n).Found? && (ScansStrictly(pc.req) ==> !ProbeEntry(e, d, n).Untrusted?)
    ensures Extends(e, r, r') && Stands(e, r', p, d, pc.(todo := {}))
    decreases if pc.Scanning? then |pc.todo| else 0
  {
    r' := r;
    if pc.todo != {} {
      var n :| n in pc.todo;
      var next := VisitOne(e, r, p, d, pc, n);
      r' := VisitRest(e, next, p, d, pc.(todo := pc.todo - {n}));
      ExtendsTrans(e, r, next, r');
    }
  }

  lemma {:induction false} WholeScan(e: Env, r: Run, p: nat, d: Disk, req: Request, out: seq<StageState>) returns (r': Run)
    requires Scans(req) && CompleteScan(e, d, ScansStrictly(req), out)
    requires Stands(e, r, p, d, Holding(req))
    ensures Extends(e, r, r') && Stands(e, r', p, d, Scanning(req, Target(d, req), {}, out))
  {
    var w := Last(r);
    var w' := w.(pcs := w.pcs[p := Scanning(req, Target(d, req), DirNames(d), [])]);
    Extend(e, r, StartScan(p), w');
    var r1 := OneMore(r, StartScan(p), w');
    assert out[..0] == [] && DirNames(d) - IdsOf([]) == DirNames(d);
    var r2 := VisitListed(e, r1, p, d, req, out, 0);
    assert out[..|out|] == out;
    var pc := ScanPc(d, req, out, |out|);
    forall n | n in pc.todo
      ensures !ProbeEntry(e, d, n).Found? && (ScansStrictly(req) ==> !ProbeEntry(e, d, n).Untrusted?)
    {
      assert Listed(out, n) ==> n in IdsOf(out);
    }
    r' := VisitRest(e, r2, p, d, pc);
    ExtendsTrans(e, r1, r2, r');
    ExtendsTrans(e, r, r1, r');
  }

  // ---- The writes --------------------------------------------------------------------------

  lemma {:induction false} CommitOnce(e: Env, r: Run, p: nat, d: Disk, script: seq<Write>) returns (r': Run)
    requires Stands(e, r, p, d, Writing(script)) && script != []
    ensures Extends(e, r, r') && Stands(e, r', p, Exec(d, script[0]), Writing(script[1..]))
  {
    var w := Last(r);
    var w' := w.(disk := Exec(w.disk, script[0]), pcs := w.pcs[p := Writing(script[1..])],
                 history := w.history + Committed(script[0]));
    Extend(e, r, Commit(p), w');
    r' := OneMore(r, Commit(p), w');
  }

  lemma {:induction false} CommitMany(e: Env, r: Run, p: nat, d: Disk, script: seq<Write>, k: nat) returns (r': Run)
    requires Stands(e, r, p, d, Writing(script)) && k <= |script|
    ensures Extends(e, r, r') && Stands(e, r', p, ExecAll(d, script[..k]), Writing(script[k..]))
    decreases k
  {
    r' := r;
    if k > 0 {
      var next := CommitOnce(e, r, p, d, script);
      r' := CommitMany(e, next, p, Exec(d, script[0]), script[1..], k - 1);
      assert script[..k][1..] == script[1..][..k - 1];
      assert script[1..][k - 1..] == script[k..];
      ExtendsTrans(e, r, next, r');
    }
  }

  // ---- A call ------------------------------------------------------------------------------

  /** A request that does not scan decides the same whatever list it is handed. */
  lemma {:induction false} DecideReadsWhatItScans(e: Env, d: Disk, r: Request, target: Probe, out: seq<StageState>, now: nat)
    requires Informed(e, d, r, target, out)
    ensures Scans(r) ==> Decide(e, d, r, target, out, now) == Decide(e, d, r, Target(d, r), out, now)
    ensures !Scans(r) ==> Decide(e, d, r, target, out, now) == Decide(e, d, r, Missing, [], now)
  {}

  lemma {:induction false} ReachDecision(e: Env, r: Run, p: nat, d: Disk, req: Request, target: Probe, out: seq<StageState>,
                                         now: nat) returns (r': Run)
    requires Stands(e, r, p, d, Holding(req)) && Informed(e, d, req, target, out) && Disciplined(e, d, req)
    requires Decide(e, d, req, target, out, now).Some?
    ensures Extends(e, r, r') && Stands(e, r', p, d, Writing(Decide(e, d, req, target, out, now).value))
  {
    DecideReadsWhatItScans(e, d, req, target, out, now);
    var r1 := r;
    if Scans(req) {
      r1 := WholeScan(e, r, p, d, req, out);
    }
    var w := Last(r1);
    var script := Decide(e, d, req, target, out, now).value;
    var w' := w.(pcs := w.pcs[p := Writing(script)], clock := now);
    Extend(e, r1, Decided(p, now), w');
    r' := OneMore(r1, Decided(p, now), w');
    ExtendsTrans(e, r, r1, r');
  }

  /** Nobody is inside, and the lock is free. */
  ghost predicate Quiet(e: Env, r: Run) {
    IsRun(e, r) && Last(r).holder == None
  }

  lemma {:induction false} Enter(e: Env, r: Run, p: nat, req: Request) returns (r': Run)
    requires Quiet(e, r)
    ensures Extends(e, r, r') && Stands(e, r', p, Last(r).disk, Holding(req))
  {
    InvHolds(e, r, |r.worlds| - 1);
    var w := Last(r);
    assert PcOf(w, p) == Idle;
    var w' := w.(holder := Some(p), pcs := w.pcs[p := Holding(req)]);
    Extend(e, r, Acquire(p, req), w');
    r' := OneMore(r, Acquire(p, req), w');
  }

  lemma {:induction false} Leave(e: Env, r: Run, p: nat, d: Disk, pc: Pc) returns (r': Run)
    requires Stands(e, r, p, d, pc) && pc != Idle
    ensures Extends(e, r, r') && Quiet(e, r') && Last(r').disk == d
  {
    var w := Last(r);
    var w' := w.(holder := None, pcs := w.pcs[p := Idle]);
    Extend(e, r, Stop(p), w');
    r' := OneMore(r, Stop(p), w');
  }

  /**
    Main result: a disciplined call with this effect continues any quiet run to a quiet run, whatever
    fault cut it short; its end state is the disk that the method leaves.
  */
  lemma {:induction false} CallExtendsRun(e: Env, r: Run, p: nat, req: Request, d': Disk, now: nat, ok: bool)
    returns (r': Run)
    requires Quiet(e, r) && Disciplined(e, Last(r).disk, req)
    requires Outcomes.Effect(e, Last(r).disk, d', req, now, ok)
    ensures Extends(e, r, r') && Quiet(e, r') && Last(r').disk == d'
  {
    var d := Last(r).disk;
    if !ok && d' == d {
      return r;
    }
    var script, k :| Outcomes.DecidedOn(e, d, req, now, script) && Outcomes.Performed(d, d', script, k);
    var target, out :| Informed(e, d, req, target, out) && Decide(e, d, req, target, out, now) == Some(script);
    var r1 := Enter(e, r, p, req);
    var r2 := ReachDecision(e, r1, p, d, req, target, out, now);
    var r3 := CommitMany(e, r2, p, d, script, k);
    r' := Leave(e, r3, p, d', Writing(script[k..]));
    ExtendsTrans(e, r, r1, r2);
    ExtendsTrans(e, r, r2, r3);
    ExtendsTrans(e, r, r3, r');
  }
}
