/**
  The staging area of one environment with its methods, step by step and with a possible fault
  at every primitive (src/staging.rs:369-1165, 1278-1412).
*/
module UpdatesRoot {
  import opened Wrappers
  import opened ByteStrings
  import opened Digest
  import opened Plan
  import opened Disk
  import opened Staging
  import opened Operations
  import opened Outcomes
  import opened CasStore

  datatype StagingError =
    | UnsafeSegment
    | EnvMismatch
    | MalformedDigest(digest: string)
    | DigestMismatch
    | PlanExists(stage: Stage)
    | PlanNotFound
    | InvalidTransition(from: Stage, to: Stage)
    | ArtifactNotDownloading(stage: Stage)
    | Io
    | State
    | CorruptAdmissionState(planId: string)
    | PreflightMissing(missing: seq<string>)
    | LockReentered
    | AlreadyApplying
    | AdmissionRejected

  /** How a primitive ends: a failing one may have taken effect (a rename whose directory fsync fails). */
  datatype Outcome = Fine | FailsBefore | FailsAfter

  class UpdatesRoot {
    const env: Env
    const faults: nat -> Outcome
    var disk: Disk
    /** This thread holds the environment lock. */
    var held: bool
    /** Primitives executed so far. */
    var tick: nat

    constructor (env: Env, disk: Disk, faults: nat -> Outcome)
      ensures this.env == env && this.disk == disk && this.faults == faults && !held && tick == 0
    {
      this.env, this.disk, this.faults, held, tick := env, disk, faults, false, 0;
    }

    /** No primitive from number `from` to before `to` faulted. */
    predicate AllFine(from: nat, to: nat) {
      forall t | from <= t < to :: faults(t) == Fine
    }

    /** One primitive write under the fault schedule. */
    method Perform(w: Write) returns (ok: bool)
      modifies this`disk, this`tick
      ensures tick == old(tick) + 1
      ensures ok <==> faults(old(tick)) == Fine
      ensures disk == if faults(old(tick)) == FailsBefore then old(disk) else Exec(old(disk), w)
    {
      var outcome := faults(tick);
      tick := tick + 1;
      if outcome != FailsBefore {
        disk := Exec(disk, w);
      }
      ok := outcome == Fine;
    }

    /** Refused at once when this thread already holds the lock. */
    method AcquireLock() returns (r: Result<(), StagingError>)
      modifies this`held, this`tick
      ensures old(held) ==> r == Err(LockReentered) && tick == old(tick)
      ensures held <==> old(held) || r.Ok?
      ensures !old(held) ==> tick == old(tick) + 1 && (r.Ok? <==> faults(old(tick)) == Fine)
    {
      if held {
        return Err(LockReentered);
      }
      var outcome := faults(tick);
      tick := tick + 1;
      if outcome != Fine {
        return Err(Io);
      }
      held := true;
      return Ok(());
    }

    /** Runs a script until its end or the first fault; `done` writes took effect. */
    method Execute(script: seq<Write>) returns (ok: bool, ghost done: nat)
      modifies this`disk, this`tick
      ensures Performed(old(disk), disk, script, done)
      ensures ok ==> done == |script|
      ensures old(tick) <= tick <= old(tick) + |script| && (ok <==> AllFine(old(tick), tick))
      ensures !ok ==> tick > old(tick) && faults(tick - 1) != Fine
      ensures !ok ==> done == if faults(tick - 1) == FailsAfter then tick - old(tick) else tick - old(tick) - 1
    {
      done := 0;
      assert script[..0] == [];
      for i := 0 to |script|
        invariant done == i && disk == ExecAll(old(disk), script[..i])
        invariant tick == old(tick) + i
        invariant AllFine(old(tick), tick)
      {
        ExecNext(old(disk), script, i);
        var fine := Perform(script[i]);
        if !fine {
          done := if faults(tick - 1) == FailsAfter then i + 1 else i;
          return false, done;
        }
        done := i + 1;
      }
      return true, done;
    }

    // ---- Scanning -----------------------------------------------------------------------

    /** Visits the directories in no particular order. */
    method ScanPlans(strict: bool) returns (r: Result<seq<StageState>, StagingError>)
      ensures r.Ok? ==> CompleteScan(env, disk, strict, r.value)
      ensures r.Err? <==> strict && exists n :: ProbeEntry(env, disk, n).Untrusted?
    {
      var todo := DirNames(disk);
      var out := [];
      ScanStarts(env, disk, strict);
      while todo != {}
        invariant PartialScan(env, disk, strict, todo, out)
        decreases |todo|
      {
        var n :| n in todo;
        var probe := ProbeEntry(env, disk, n);
        if strict && probe.Untrusted? {
          return Err(CorruptAdmissionState(n));
        }
        ScanStep(env, disk, strict, todo, out, n);
        out := Noted(out, probe);
        todo := todo - {n};
      }
      return Ok(out);
    }

    // ---- Plans --------------------------------------------------------------------------

    method Begin(v: VerifiedUpdatePlan, planBytes: Bytes, sigBytes: Bytes, gate: Option<Gate>, now: nat,
                 tries: seq<Request> := [])
      returns (r: Result<(), StagingError>)
      modifies this
      ensures held == old(held)
      ensures old(held) ==> r.Err? && disk == old(disk) && tick == old(tick)
      ensures Effect(env, old(disk), disk, Request.Begin(v, planBytes, sigBytes, gate), now, r.Ok?)
      ensures tick >= old(tick)
      ensures !old(held) && Granted(env, old(disk), Request.Begin(v, planBytes, sigBytes, gate), now) && AllFine(old(tick), tick) ==>
                r.Ok?
      ensures ReadState(old(disk), v.plan.planId) != Missing ==> r.Err? && disk == old(disk)
      ensures r.Ok? ==> BeginAllowed(env, old(disk), v.plan) && BegunOn(env, old(disk), disk, v, planBytes, sigBytes, now)
      ensures Trusted(env, old(disk)) && r.Ok? && gate.Some? ==> GatePassed(env, old(disk), v.plan.envId, gate.value)
      ensures Trusted(env, old(disk)) && BeginAllowed(env, old(disk), v.plan)
              && (gate.Some? ==> GateOpen(env, old(disk), v.plan.envId, gate.value)) ==>
                !old(held) && AllFine(old(tick), tick) ==> r.Ok?
      decreases |tries|, 4
    {
      var n := v.plan.planId;
      ghost var req := Request.Begin(v, planBytes, sigBytes, gate);
      if Trusted(env, disk) && BeginAllowed(env, disk, v.plan) && (gate.Some? ==> GateOpen(env, disk, v.plan.envId, gate.value)) {
        BeginIsGranted(env, disk, v, planBytes, sigBytes, gate, now);
      }
      if Granted(env, disk, req, now) { GrantedFinds(env, disk, req, now); }
      if !ValidPlanId(n) {
        return Err(UnsafeSegment);
      }
      if !TargetsEnv(v.plan.envId, env.id) {
        return Err(EnvMismatch);
      }
      var lock := AcquireLock();
      if lock.Err? {
        return Err(lock.error);
      }
      r := BeginLocked(v, planBytes, sigBytes, gate, now, tries);
      held := false;
      if r.Ok? { BeginLeaves(env, old(disk), disk, v, planBytes, sigBytes, gate, now); }
    }

    method BeginLocked(v: VerifiedUpdatePlan, planBytes: Bytes, sigBytes: Bytes, gate: Option<Gate>, now: nat,
                       tries: seq<Request>)
      returns (r: Result<(), StagingError>)
      requires held && ValidPlanId(v.plan.planId) && TargetsEnv(v.plan.envId, env.id)
      modifies this
      ensures held
      ensures Effect(env, old(disk), disk, Request.Begin(v, planBytes, sigBytes, gate), now, r.Ok?)
      ensures tick >= old(tick)
      ensures Granted(env, old(disk), Request.Begin(v, planBytes, sigBytes, gate), now) && AllFine(old(tick), tick) ==>
                r.Ok?
      ensures ReadState(old(disk), v.plan.planId) != Missing ==> r.Err? && disk == old(disk)
      decreases |tries|, 3
    {
      ghost var req := Request.Begin(v, planBytes, sigBytes, gate);
      if Granted(env, disk, req, now) { GrantedFinds(env, disk, req, now); }
      match ReadState(disk, v.plan.planId) {
        case Found(s) => return Err(PlanExists(s.stage));
        case Untrusted => return Err(State);
        case Missing =>
      }
      var out := [];
      if gate.Some? {
        var scan := ScanPlans(true);
        if scan.Err? {
          return Err(scan.error);
        }
        out := scan.value;
        assert Informed(env, disk, req, Missing, out);
        var granted, answers := Admit(gate.value, Facts(out, v.plan.envId), tries, now);
        if !granted {
          return Err(AdmissionRejected);
        }
      }
      var ok, done := Execute(BeginWrites(env, v, planBytes, sigBytes, now));
      EffectOf(env, old(disk), disk, req, Missing, out, now, done, ok);
      r := if ok then Ok(()) else Err(Io);
    }

    /** Moves a plan along the stages; the marker first, its audit line second. */
    method Transition(n: string, to: Stage, now: nat) returns (r: Result<StageState, StagingError>)
      modifies this
      ensures held == old(held)
      ensures old(held) ==> r.Err? && disk == old(disk) && tick == old(tick)
      ensures Effect(env, old(disk), disk, Request.Move(n, to), now, r.Ok?)
      ensures tick >= old(tick)
      ensures !old(held) && Granted(env, old(disk), Request.Move(n, to), now) && AllFine(old(tick), tick) ==>
                r.Ok?
      ensures r.Ok? ==> AtStage(disk, n, to) && r.value == MarkerOf(disk, n)
      ensures r.Ok? ==> MovedOn(old(disk), disk, n, to, now) && IsValidTransition(MarkerOf(old(disk), n).stage, to)
      ensures HasMarker(old(disk), n) && IsValidTransition(MarkerOf(old(disk), n).stage, to) ==>
                !old(held) && AllFine(old(tick), tick) ==> r.Ok?
    {
      MoveIsGrantedIff(env, disk, n, to, now);
      var lock := AcquireLock();
      if lock.Err? {
        return Err(lock.error);
      }
      ghost var done;
      ghost var req := Request.Move(n, to);
      if Granted(env, disk, req, now) { GrantedFinds(env, disk, req, now); }
      r, done := TransitionLocked(n, to, now);
      if MoveChoice(old(disk), n, to, now).Some? {
        EffectOf(env, old(disk), disk, Request.Move(n, to), Missing, [], now, done, r.Ok?);
      }
      held := false;
      if r.Ok? { MoveLeaves(env, old(disk), disk, n, to, now); }
    }

    method TransitionLocked(n: string, to: Stage, now: nat) returns (r: Result<StageState, StagingError>, ghost done: nat)
      requires held
      modifies this`disk, this`tick
      ensures old(tick) <= tick <= old(tick) + 2
      ensures MoveChoice(old(disk), n, to, now).None? ==> r.Err? && disk == old(disk) && done == 0
      ensures MoveChoice(old(disk), n, to, now).Some? ==>
                && Performed(old(disk), disk, MoveChoice(old(disk), n, to, now).value, done)
                && (r.Ok? ==> done == 2) && (AllFine(old(tick), tick) ==> r.Ok?) && |MoveChoice(old(disk), n, to, now).value| == 2
                && (r.Err? ==> tick > old(tick) && faults(tick - 1) != Fine)
                && (r.Err? ==> done == if faults(tick - 1) == FailsAfter then tick - old(tick) else tick - old(tick) - 1)
      ensures r.Ok? ==> AtStage(disk, n, to) && r.value == MarkerOf(disk, n)
    {
      done := 0;
      var read := ReadState(disk, n);
      if read.Missing? {
        return Err(PlanNotFound), 0;
      }
      if read.Untrusted? {
        return Err(State), 0;
      }
      var from := read.state.stage;
      if !IsValidTransition(from, to) {
        return Err(InvalidTransition(from, to)), 0;
      }
      var state := read.state.(stage := to, updatedAt := now);
      var event := Moved(n, from, to);
      var script := [PutMarker(n, state, event), Append(event)];
      var ok;
      ok, done := Execute(script);
      if !ok {
        return Err(Io), done;
      }
      assert script[..2] == script;
      ExecTwo(old(disk), script[0], script[1]);
      return Ok(state), done;
    }

    /**
      The single-flight gate. An error leaves the disk as it was, unless a fault struck after
      the marker had been renamed: then the plan is at `Applying` all the same.
    */
    method BeginApplyChecked(n: string, admit: Gate, now: nat, tries: seq<Request> := [])
      returns (r: Result<StageState, StagingError>)
      modifies this
      ensures held == old(held)
      ensures old(held) ==> r.Err? && disk == old(disk) && tick == old(tick)
      ensures Effect(env, old(disk), disk, Request.Apply(n, admit), now, r.Ok?)
      ensures tick >= old(tick)
      ensures !old(held) && Granted(env, old(disk), Request.Apply(n, admit), now) && AllFine(old(tick), tick) ==>
                r.Ok?
      ensures r.Ok? ==> AtStage(disk, n, Applying) && r.value == MarkerOf(disk, n)
      ensures r.Err? && disk != old(disk) ==>
                AtStage(disk, n, Applying) && AfterRename(old(tick) + 2, old(tick) + 3, tick)
      ensures !AtStage(old(disk), n, Staged) ==> r.Err? && disk == old(disk)
      ensures r.Ok? ==> AtStage(old(disk), n, Staged) && MovedOn(old(disk), disk, n, Applying, now)
      ensures Trusted(env, old(disk)) && r.Ok? ==>
                (forall m :: !AtStage(old(disk), m, Applying)) && GatePassed(env, old(disk), ChannelOf(env, old(disk), n), admit)
      ensures Trusted(env, old(disk)) && AtStage(old(disk), n, Staged) && (forall m :: !AtStage(old(disk), m, Applying)) ==>
                GateOpen(env, old(disk), ChannelOf(env, old(disk), n), admit) && !old(held) && AllFine(old(tick), tick) ==>
                  r.Ok?
      decreases |tries|, 4
    {
      ghost var req := Request.Apply(n, admit);
      if && Trusted(env, disk) && AtStage(disk, n, Staged) && (forall m :: !AtStage(disk, m, Applying))
         && GateOpen(env, disk, ChannelOf(env, disk, n), admit) {
        ApplyIsGranted(env, disk, n, admit, now);
      }
      if Granted(env, disk, req, now) { GrantedFinds(env, disk, req, now); }
      if !ValidPlanId(n) {
        return Err(UnsafeSegment);
      }
      var lock := AcquireLock();
      if lock.Err? {
        return Err(lock.error);
      }
      r := BeginApplyLocked(n, admit, now, tries);
      held := false;
      if r.Ok? { ApplyLeaves(env, old(disk), disk, n, admit, now); }
    }

    method BeginApplyLocked(n: string, admit: Gate, now: nat, tries: seq<Request>)
      returns (r: Result<StageState, StagingError>)
      requires held && ValidPlanId(n)
      modifies this
      ensures held && tick >= old(tick)
      ensures Effect(env, old(disk), disk, Request.Apply(n, admit), now, r.Ok?)
      ensures Granted(env, old(disk), Request.Apply(n, admit), now) && AllFine(old(tick), tick) ==> r.Ok?
      ensures r.Ok? ==> AtStage(disk, n, Applying) && r.value == MarkerOf(disk, n)
      ensures r.Err? && disk != old(disk) ==>
                AtStage(disk, n, Applying) && AfterRename(old(tick) + 1, old(tick) + 2, tick)
      ensures !AtStage(old(disk), n, Staged) ==> r.Err? && disk == old(disk)
      decreases |tries|, 3
    {
      ghost var req := Request.Apply(n, admit);
      if Granted(env, disk, req, now) { GrantedFinds(env, disk, req, now); }
      var target := ReadState(disk, n);
      if target.Missing? {
        return Err(PlanNotFound);
      }
      if target.Untrusted? {
        return Err(State);
      }
      if target.state.stage != Staged {
        return Err(InvalidTransition(target.state.stage, Applying));
      }
      var channel := Backfill(env, disk, n, target.state).channel.value;
      var scan := ScanPlans(true);
      if scan.Err? {
        return Err(scan.error);
      }
      assert Informed(env, disk, req, target, scan.value);
      var applying := FindApplying(scan.value);
      if applying {
        return Err(AlreadyApplying);
      }
      var granted, answers := Admit(admit, Facts(scan.value, channel), tries, now);
      if !granted {
        return Err(AdmissionRejected);
      }
      if PlanOf(env, disk, n).None? {
        return Err(State);
      }
      ghost var done;
      r, done := TransitionLocked(n, Applying, now);
      EffectOf(env, old(disk), disk, Request.Apply(n, admit), target, scan.value, now, done, r.Ok?);
      MovePrefix(old(disk), n, Applying, now, done);
    }

    /**
      The last primitive before tick `t` faulted, and it was the marker's write (`rename` is the tick just
      after it), whose rename took effect, or the audit line's (`line`).
    */
    predicate AfterRename(rename: nat, line: nat, t: nat) {
      || (t == rename && t > 0 && faults(t - 1) == FailsAfter)
      || (t == line && t > 0 && faults(t - 1) != Fine)
    }

    // ---- Admission predicates that call back ----------------------------------------------

    /**
      Runs a caller's predicate under the lock. It may try locking calls of its own, `tries`; each is
      answered with an error and changes nothing, so what it decides rests on the facts alone.
    */
    method Admit(admit: Gate, facts: AdmissionFacts, tries: seq<Request>, now: nat)
      returns (granted: bool, answers: seq<bool>)
      requires held
      modifies this
      ensures held && disk == old(disk) && tick == old(tick)
      ensures |answers| == |tries| && forall i | 0 <= i < |answers| :: !answers[i]
      ensures granted <==> admit(facts)
      decreases |tries|, 2
    {
      answers := [];
      for i := 0 to |tries|
        invariant held && disk == old(disk) && tick == old(tick)
        invariant |answers| == i && forall j | 0 <= j < i :: !answers[j]
      {
        var answer := Call(tries[i], now);
        answers := answers + [answer];
      }
      granted := admit(facts);
    }

    /** Any locking call: refused under the lock; otherwise a decided script, or a prefix of it, runs. */
    method Call(r: Request, now: nat) returns (ok: bool)
      modifies this
      ensures held == old(held)
      ensures old(held) ==> !ok && disk == old(disk) && tick == old(tick)
      ensures tick >= old(tick) && Effect(env, old(disk), disk, r, now, ok)
      ensures !old(held) && Granted(env, old(disk), r, now) && AllFine(old(tick), tick) ==> ok
      decreases 0, 5
    {
      match r {
        case Begin(v, planBytes, sigBytes, gate) =>
          var res := Begin(v, planBytes, sigBytes, gate, now);
          return res.Ok?;
        case Apply(n, admit) =>
          var res := BeginApplyChecked(n, admit, now);
          return res.Ok?;
        case Move(n, to) =>
          var res := Transition(n, to, now);
          return res.Ok?;
        case PutBlob(n, kind, digest, bytes) =>
          var res := PutBlobFile(n, kind, digest, bytes, now);
          return res.Ok?;
        case CasPut(digest, bytes) =>
          var res := CasPutBytes(digest, bytes, now);
          return res.Ok?;
        case CasRemove(digest) =>
          var res := CasRemoveBlob(digest, now);
          return res.Ok?;
        case WriteReceipt(receipt, sig) =>
          var res := WriteImportReceipt(receipt, sig, now);
          return res.Ok?;
        case Retain(keep) =>
          var res := ApplyRetention(keep, now);
          return res.Ok?;
      }
    }

    method FindApplying(out: seq<StageState>) returns (found: bool)
      ensures found <==> exists i | 0 <= i < |out| :: out[i].stage == Applying
    {
      for i := 0 to |out|
        invariant forall j | 0 <= j < i :: out[j].stage != Applying
      {
        if out[i].stage == Applying {
          return true;
        }
      }
      return false;
    }

    /** Artifacts and binaries land only in a plan that is still `Downloading`. */
    method PutBlobFile(n: string, kind: BlobKind, digest: string, bytes: Bytes, now: nat)
      returns (r: Result<(), StagingError>)
      modifies this
      ensures held == old(held)
      ensures old(held) ==> r.Err? && disk == old(disk) && tick == old(tick)
      ensures Effect(env, old(disk), disk, Request.PutBlob(n, kind, digest, bytes), now, r.Ok?)
      ensures tick >= old(tick)
      ensures !old(held) && Granted(env, old(disk), Request.PutBlob(n, kind, digest, bytes), now) && AllFine(old(tick), tick) ==>
                r.Ok?
      ensures !AtStage(old(disk), n, Downloading) || !Authentic(env, digest, bytes) ==> r.Err? && disk == old(disk)
      ensures r.Ok? ==> WellFormed(digest) && disk == old(disk)[Path(n, Blob(kind, DirName(HexOf(digest)))) := Raw(bytes)]
      ensures Authentic(env, digest, bytes) && AtStage(old(disk), n, Downloading) ==>
                !old(held) && AllFine(old(tick), tick) ==> r.Ok?
    {
      ghost var req := Request.PutBlob(n, kind, digest, bytes);
      PutIsGrantedIff(env, disk, n, kind, digest, bytes, now);
      if Granted(env, disk, req, now) { GrantedFinds(env, disk, req, now); }
      if !WellFormed(digest) {
        return Err(MalformedDigest(digest));
      }
      if env.codec.sha256(bytes) != HexOf(digest) {
        return Err(DigestMismatch);
      }
      var lock := AcquireLock();
      if lock.Err? {
        return Err(lock.error);
      }
      var read := ReadState(disk, n);
      if read.Found? && read.state.stage == Downloading {
        var ok, done := Execute([PutFile(Path(n, Blob(kind, DirName(HexOf(digest)))), Raw(bytes))]);
        EffectOf(env, old(disk), disk, Request.PutBlob(n, kind, digest, bytes), Missing, [], now, done, ok);
        r := if ok then Ok(()) else Err(Io);
      } else {
        r := Err(if read.Missing? then PlanNotFound else if read.Untrusted? then State
                 else ArtifactNotDownloading(read.state.stage));
      }
      held := false;
      if r.Ok? { PutLeaves(env, old(disk), disk, n, kind, digest, bytes, now); }
    }

    /** Evicts the oldest terminal plans beyond `keep`, each with its audit line. */
    method ApplyRetention(keep: nat, now: nat) returns (r: Result<seq<string>, StagingError>)
      modifies this
      ensures held == old(held)
      ensures old(held) ==> r.Err? && disk == old(disk) && tick == old(tick)
      ensures Effect(env, old(disk), disk, Request.Retain(keep), now, r.Ok?)
      ensures tick >= old(tick) && (!old(held) && AllFine(old(tick), tick) ==> r.Ok?)
      ensures r.Ok? ==> exists out ::
                && CompleteScan(env, old(disk), false, out) && r.value == PlanIds(Skip(RetentionOrder(out), keep))
                && disk == ExecAll(old(disk), RetainWrites(out, keep))
      ensures Trusted(env, old(disk)) && r.Ok? ==> RetainedOn(old(disk), disk, keep, r.value)
    {
      var lock := AcquireLock();
      if lock.Err? {
        return Err(lock.error);
      }
      var all := ScanPlans(false);
      ghost var done;
      r, done := EvictAll(Skip(RetentionOrder(all.value), keep));
      EffectOf(env, old(disk), disk, Request.Retain(keep), Missing, all.value, now, done, r.Ok?);
      assert r.Ok? ==> RetainWrites(all.value, keep)[..done] == RetainWrites(all.value, keep);
      held := false;
      if Trusted(env, old(disk)) { RetainLeaves(env, old(disk), all.value, keep); }
    }

    method EvictAll(evict: seq<StageState>) returns (r: Result<seq<string>, StagingError>, ghost done: nat)
      modifies this`disk, this`tick
      ensures Performed(old(disk), disk, EvictWrites(evict), done)
      ensures r.Ok? ==> done == |EvictWrites(evict)|
      ensures r.Ok? ==> r.value == PlanIds(evict)
      ensures tick >= old(tick) && (AllFine(old(tick), tick) ==> r.Ok?)
    {
      var evicted: seq<string> := [];
      EvictWritesLength(evict);
      assert EvictWrites(evict)[..0] == [];
      for i := 0 to |evict|
        invariant Performed(old(disk), disk, EvictWrites(evict), 2 * i)
        invariant evicted == PlanIds(evict[..i])
        invariant tick >= old(tick)
      {
        ghost var here := disk;
        var ok, k := EvictOne(evict[i]);
        RetainStep(old(disk), here, disk, evict, i, k);
        if !ok {
          return Err(Io), 2 * i + k;
        }
        evicted := evicted + [evict[i].planId];
      }
      assert evict[..|evict|] == evict;
      return Ok(evicted), 2 * |evict|;
    }

    /** Removes one plan directory, then logs it. */
    method EvictOne(s: StageState) returns (ok: bool, ghost done: nat)
      modifies this`disk, this`tick
      ensures Performed(old(disk), disk, EvictPair(s), done)
      ensures ok ==> done == 2
      ensures tick > old(tick) && (AllFine(old(tick), tick) ==> ok)
    {
      var event := Evicted(s.planId, s.stage);
      PairPrefixes(old(disk), s);
      var t := tick;
      var removed := Perform(Evict(s.planId, event));
      if !removed {
        return false, if faults(t) == FailsAfter then 1 else 0;
      }
      t := tick;
      var logged := Perform(Append(event));
      if !logged {
        return false, if faults(t) == FailsAfter then 2 else 1;
      }
      return true, 2;
    }

    // ---- The content-addressed store -------------------------------------------------------

    method CasPutBytes(digest: string, bytes: Bytes, now: nat) returns (r: Result<(), StagingError>)
      modifies this
      ensures held == old(held)
      ensures old(held) ==> r.Err? && disk == old(disk) && tick == old(tick)
      ensures Effect(env, old(disk), disk, Request.CasPut(digest, bytes), now, r.Ok?)
      ensures tick >= old(tick)
      ensures !old(held) && Granted(env, old(disk), Request.CasPut(digest, bytes), now) && AllFine(old(tick), tick) ==>
                r.Ok?
      ensures r.Ok? ==> WellFormed(digest) && disk == old(disk)[CasPath(HexOf(digest)) := Raw(bytes)]
      ensures r.Ok? && MarkersOk(env, old(disk)) ==> Store(disk) == Store(old(disk))[HexOf(digest) := bytes]
      ensures !Authentic(env, digest, bytes) ==> r.Err? && disk == old(disk)
      ensures Authentic(env, digest, bytes) && !old(held) && AllFine(old(tick), tick) ==> r.Ok?
    {
      StoreIsGrantedIff(env, disk, digest, bytes, now);
      ghost var req := Request.CasPut(digest, bytes);
      if Granted(env, disk, req, now) { GrantedFinds(env, disk, req, now); }
      if !WellFormed(digest) {
        return Err(MalformedDigest(digest));
      }
      if env.codec.sha256(bytes) != HexOf(digest) {
        return Err(DigestMismatch);
      }
      var lock := AcquireLock();
      if lock.Err? {
        return Err(lock.error);
      }
      if MarkersOk(env, disk) { PutRefines(env, disk, digest, bytes); }
      var w := PutFile(CasPath(HexOf(digest)), Raw(bytes));
      var ok, done := Execute([w]);
      ExecOne(old(disk), w);
      EffectOf(env, old(disk), disk, Request.CasPut(digest, bytes), Missing, [], now, done, ok);
      held := false;
      r := if ok then Ok(()) else Err(Io);
    }

    /** Looks the digest up, and hashes the bytes again. */
    method CasGet(digest: string) returns (r: Result<Bytes, StagingError>)
      ensures r.Ok? <==> Fetchable(env, disk, digest)
      ensures r.Ok? ==> r.value == Store(disk)[HexOf(digest)]
      ensures r.Ok? <==> && WellFormed(digest) && HasRaw(disk, CasPath(HexOf(digest)))
                         && env.codec.sha256(disk[CasPath(HexOf(digest))].bytes) == HexOf(digest)
      ensures r.Ok? ==> r.value == disk[CasPath(HexOf(digest))].bytes
      ensures BlobsOk(env, disk) ==> (r.Ok? <==> WellFormed(digest) && HexOf(digest) in Store(disk))
    {
      if !WellFormed(digest) {
        return Err(MalformedDigest(digest));
      }
      var path := CasPath(HexOf(digest));
      if !HasRaw(disk, path) {
        StoreIs(disk, HexOf(digest));
        return Err(Io);
      }
      var bytes := disk[path].bytes;
      StoreIs(disk, HexOf(digest));
      if BlobsOk(env, disk) { StoredHex(env, disk, HexOf(digest)); }
      if env.codec.sha256(bytes) != HexOf(digest) {
        return Err(DigestMismatch);
      }
      return Ok(bytes);
    }

    /** What is said to be there can be fetched. */
    method CasContains(digest: string) returns (r: bool)
      ensures r <==> CasHolds(disk, digest)
      ensures r <==> WellFormed(digest) && CasPath(HexOf(digest)) in disk
      ensures BlobsOk(env, disk) ==> (r <==> Fetchable(env, disk, digest))
    {
      if BlobsOk(env, disk) { HeldIsFetchable(env, disk, digest); }
      r := WellFormed(digest) && CasPath(HexOf(digest)) in disk;
    }

    /** The well-formed entries of the store's directory, canonically spelled, in some order. */
    method CasList() returns (digests: seq<string>)
      ensures forall g :: g in digests <==> g in Canonical(StoreNames(disk))
      ensures BlobsOk(env, disk) && HashesAreHex(env) ==> forall hex :: DigestOf(hex) in digests <==> hex in Store(disk)
    {
      var todo := StoreNames(disk);
      digests := [];
      while todo != {}
        invariant todo <= StoreNames(disk)
        invariant forall g :: g in digests <==> g in Canonical(StoreNames(disk) - todo)
        decreases |todo|
      {
        var name :| name in todo;
        ghost var before := StoreNames(disk) - todo;
        todo := todo - {name};
        assert StoreNames(disk) - todo == before + {name};
        if StoreName(name) {
          digests := digests + [CanonicalName(name)];
        }
      }
      assert StoreNames(disk) - {} == StoreNames(disk);
      if BlobsOk(env, disk) && HashesAreHex(env) {
        forall hex ensures DigestOf(hex) in Canonical(StoreNames(disk)) <==> hex in Store(disk) {
          ListingIsExact(env, disk, hex);
        }
      }
    }

    method CasRemoveBlob(digest: string, now: nat) returns (r: Result<(), StagingError>)
      modifies this
      ensures held == old(held)
      ensures old(held) ==> r.Err? && disk == old(disk) && tick == old(tick)
      ensures Effect(env, old(disk), disk, Request.CasRemove(digest), now, r.Ok?)
      ensures tick >= old(tick)
      ensures !old(held) && Granted(env, old(disk), Request.CasRemove(digest), now) && AllFine(old(tick), tick) ==>
                r.Ok?
      ensures r.Ok? ==> WellFormed(digest) && disk == old(disk) - {CasPath(HexOf(digest))}
      ensures r.Ok? && MarkersOk(env, old(disk)) ==> Store(disk) == Store(old(disk)) - {HexOf(digest)}
      ensures WellFormed(digest) && !old(held) && AllFine(old(tick), tick) ==> r.Ok?
    {
      StoreIsGrantedIff(env, disk, digest, [], now);
      ghost var req := Request.CasRemove(digest);
      if Granted(env, disk, req, now) { GrantedFinds(env, disk, req, now); }
      if !WellFormed(digest) {
        return Err(MalformedDigest(digest));
      }
      var lock := AcquireLock();
      if lock.Err? {
        return Err(lock.error);
      }
      if MarkersOk(env, disk) { RemoveRefines(env, disk, digest); }
      var w := RemoveFile(CasPath(HexOf(digest)));
      var ok, done := Execute([w]);
      ExecOne(old(disk), w);
      EffectOf(env, old(disk), disk, Request.CasRemove(digest), Missing, [], now, done, ok);
      held := false;
      r := if ok then Ok(()) else Err(Io);
    }

    // ---- Receipts ---------------------------------------------------------------------------

    method WriteImportReceipt(receipt: Bytes, sig: Bytes, now: nat) returns (r: Result<(), StagingError>)
      modifies this
      ensures held == old(held)
      ensures old(held) ==> r.Err? && disk == old(disk) && tick == old(tick)
      ensures Effect(env, old(disk), disk, Request.WriteReceipt(receipt, sig), now, r.Ok?)
      ensures tick >= old(tick)
      ensures !old(held) && Granted(env, old(disk), Request.WriteReceipt(receipt, sig), now) && AllFine(old(tick), tick) ==>
                r.Ok?
      ensures ReceiptHasSig(old(disk)) ==> ReceiptHasSig(disk)
      ensures r.Ok? ==> ReceiptPairIs(disk, receipt, sig)
      ensures !old(held) && AllFine(old(tick), tick) ==> r.Ok?
    {
      var lock := AcquireLock();
      if lock.Err? {
        return Err(lock.error);
      }
      var script := ReceiptWrites(receipt, sig);
      var ok, done := Execute(script);
      InfrastructureNamesDiffer();
      ReceiptPrefix(old(disk), receipt, sig, done);
      EffectOf(env, old(disk), disk, Request.WriteReceipt(receipt, sig), Missing, [], now, done, ok);
      held := false;
      r := if ok then Ok(()) else Err(Io);
    }

    /** None without a receipt; with one, both files of the pair or an error. */
    method ReadImportReceipt() returns (r: Result<Option<(Bytes, Bytes)>, StagingError>)
      ensures r.Ok? && r.value.None? <==> RECEIPT_PATH !in disk
      ensures r.Ok? && r.value.Some? <==> HasRaw(disk, RECEIPT_PATH) && HasRaw(disk, RECEIPT_SIG_PATH)
      ensures r.Ok? && r.value.Some? ==>
                r.value.value == (disk[RECEIPT_PATH].bytes, disk[RECEIPT_SIG_PATH].bytes)
    {
      if RECEIPT_PATH !in disk {
        return Ok(None);
      }
      if !HasRaw(disk, RECEIPT_PATH) || !HasRaw(disk, RECEIPT_SIG_PATH) {
        return Err(Io);
      }
      return Ok(Some((disk[RECEIPT_PATH].bytes, disk[RECEIPT_SIG_PATH].bytes)));
    }

    // ---- Preflight -----------------------------------------------------------------------------

    /** Lists every digest that neither the envelope nor the store provides, in the order asked for. */
    method PreflightDigests(artifacts: seq<PlanArtifact>, binaries: seq<BinaryArtifact>, carried: set<string>)
      returns (r: Result<(), StagingError>)
      ensures PreflightAnswers(disk, carried, WantedDigests(artifacts, binaries), r)
      ensures r.Ok? <==> && (forall a | a in artifacts :: WellFormed(a.digest) && (a.digest in carried || CasHolds(disk, a.digest)))
                         && (forall b | b in binaries :: WellFormed(b.digest) && (b.digest in carried || CasHolds(disk, b.digest)))
    {
      PreflightMeans(disk, carried, artifacts, binaries);
      ghost var wanted := WantedDigests(artifacts, binaries);
      var first := CheckDigests(ArtifactDigests(artifacts), carried);
      if first.Err? {
        assert first.error.digest in wanted;
        return Err(first.error);
      }
      var second := CheckDigests(BinaryDigests(binaries), carried);
      if second.Err? {
        assert second.error.digest in wanted;
        return Err(second.error);
      }
      MissingConcat(disk, carried, ArtifactDigests(artifacts), BinaryDigests(binaries));
      var missing := first.value + second.value;
      return if missing == [] then Ok(()) else Err(PreflightMissing(missing));
    }

    /** One pass over a list of digests. */
    method CheckDigests(ds: seq<string>, carried: set<string>) returns (r: Result<seq<string>, StagingError>)
      ensures r.Ok? ==> AllWellFormed(ds) && r.value == MissingFrom(disk, carried, ds)
      ensures r.Err? ==> r.error.MalformedDigest? && r.error.digest in ds && !WellFormed(r.error.digest)
    {
      var missing := [];
      for i := 0 to |ds|
        invariant AllWellFormed(ds[..i]) && missing == MissingFrom(disk, carried, ds[..i])
      {
        if !WellFormed(ds[i]) {
          return Err(MalformedDigest(ds[i]));
        }
        var here := CasContains(ds[i]);
        MissingStep(disk, carried, ds, i);
        if ds[i] !in carried && !here {
          missing := missing + [ds[i]];
        }
      }
      assert ds[..|ds|] == ds;
      return Ok(missing);
    }
  }

  // ---- Helpers ---------------------------------------------------------------------------------

  lemma {:induction false} MovePrefix(d: Disk, n: string, to: Stage, now: nat, k: nat)
    requires MoveChoice(d, n, to, now).Some? && k <= 2
    ensures |MoveChoice(d, n, to, now).value| == 2
    ensures k == 0 ==> ExecAll(d, MoveChoice(d, n, to, now).value[..k]) == d
    ensures k > 0 ==> AtStage(ExecAll(d, MoveChoice(d, n, to, now).value[..k]), n, to)
  {
    var ws := MoveChoice(d, n, to, now).value;
    if k == 1 {
      assert ws[..1] == [ws[0]];
      ExecOne(d, ws[0]);
    } else if k == 2 {
      assert ws[..2] == [ws[0], ws[1]];
      ExecTwo(d, ws[0], ws[1]);
    } else {
      assert ws[..0] == [];
    }
  }

  function EvictPair(s: StageState): seq<Write> {
    var event := Evicted(s.planId, s.stage);
    [Evict(s.planId, event), Append(event)]
  }

  lemma {:induction false} PairPrefixes(d: Disk, s: StageState)
    ensures var p := EvictPair(s);
      && ExecAll(d, p[..0]) == d && ExecAll(d, p[..1]) == Exec(d, p[0])
      && ExecAll(d, p[..2]) == Exec(Exec(d, p[0]), p[1])
  {
    var p := EvictPair(s);
    assert p[..0] == [] && p[..1] == [p[0]] && p[..2] == [p[0], p[1]];
    ExecOne(d, p[0]);
    ExecTwo(d, p[0], p[1]);
  }

  lemma {:induction false} EvictWritesAt(xs: seq<StageState>, i: nat)
    requires i < |xs|
    ensures |EvictWrites(xs)| == 2 * |xs|
    ensures EvictWrites(xs)[2 * i] == EvictPair(xs[i])[0]
    ensures EvictWrites(xs)[2 * i + 1] == EvictPair(xs[i])[1]
  {
    var rest := EvictWrites(xs[1..]);
    EvictWritesLength(xs[1..]);
    assert EvictWrites(xs) == EvictPair(xs[0]) + rest;
    if i > 0 {
      EvictWritesAt(xs[1..], i - 1);
      var k := 2 * (i - 1);
      assert EvictWrites(xs)[k + 2] == rest[k] && EvictWrites(xs)[k + 3] == rest[k + 1];
    }
  }

  lemma {:induction false} ExecNext(d: Disk, ws: seq<Write>, k: nat)
    requires k < |ws|
    ensures ExecAll(d, ws[..k + 1]) == Exec(ExecAll(d, ws[..k]), ws[k])
  {
    ExecAllAppend(d, ws[..k], ws[k]);
    assert ws[..k + 1] == ws[..k] + [ws[k]];
  }

  lemma {:induction false} RetainStep(before: Disk, here: Disk, there: Disk, xs: seq<StageState>, i: nat, done: nat)
    requires i < |xs| && Performed(before, here, EvictWrites(xs), 2 * i)
    requires Performed(here, there, EvictPair(xs[i]), done)
    ensures Performed(before, there, EvictWrites(xs), 2 * i + done)
  {
    EvictWritesAt(xs, i);
    PairPrefixes(here, xs[i]);
    ExecNext(before, EvictWrites(xs), 2 * i);
    ExecNext(before, EvictWrites(xs), 2 * i + 1);
  }

  lemma {:induction false} EvictWritesLength(xs: seq<StageState>)
    ensures |EvictWrites(xs)| == 2 * |xs|
  {
    if xs != [] { EvictWritesLength(xs[1..]); }
  }

  /** A receipt is never on disk without a signature beside it. */
  predicate ReceiptHasSig(d: Disk) {
    HasRaw(d, RECEIPT_PATH) ==> HasRaw(d, RECEIPT_SIG_PATH)
  }

  predicate ReceiptPairIs(d: Disk, receipt: Bytes, sig: Bytes) {
    && RECEIPT_PATH in d && d[RECEIPT_PATH] == Raw(receipt)
    && RECEIPT_SIG_PATH in d && d[RECEIPT_SIG_PATH] == Raw(sig)
  }

  lemma {:induction false} ReceiptPrefix(d: Disk, receipt: Bytes, sig: Bytes, k: nat)
    requires k <= 2
    ensures var d' := ExecAll(d, ReceiptWrites(receipt, sig)[..k]);
      && (ReceiptHasSig(d) ==> ReceiptHasSig(d'))
      && (k == 2 ==> ReceiptPairIs(d', receipt, sig))
  {
    InfrastructureNamesDiffer();
    var ws := ReceiptWrites(receipt, sig);
    if k == 1 {
      assert ws[..1] == [ws[0]];
      ExecOne(d, ws[0]);
    } else if k == 2 {
      assert ws[..2] == [ws[0], ws[1]];
      ExecTwo(d, ws[0], ws[1]);
    } else {
      assert ws[..0] == [];
    }
  }

  // ---- Preflight --------------------------------------------------------------------------------

  /** Nothing is malformed or missing exactly if every digest of the plan is well formed and carried or held. */
  lemma {:induction false} PreflightMeans(d: Disk, carried: set<string>, artifacts: seq<PlanArtifact>,
                                          binaries: seq<BinaryArtifact>)
    ensures var wanted := WantedDigests(artifacts, binaries);
      AllWellFormed(wanted) && MissingFrom(d, carried, wanted) == [] <==>
        && (forall a | a in artifacts :: WellFormed(a.digest) && (a.digest in carried || CasHolds(d, a.digest)))
        && (forall b | b in binaries :: WellFormed(b.digest) && (b.digest in carried || CasHolds(d, b.digest)))
  {
    var wanted := WantedDigests(artifacts, binaries);
    forall a | a in artifacts ensures a.digest in wanted { WantedIff(artifacts, binaries, a.digest); }
    forall b | b in binaries ensures b.digest in wanted { WantedIff(artifacts, binaries, b.digest); }
    forall g ensures g in MissingFrom(d, carried, wanted) <==> g in wanted && g !in carried && !CasHolds(d, g) {
      MissingIsExact(d, carried, wanted, g);
    }
    forall g | g in wanted
      ensures (exists a :: a in artifacts && a.digest == g) || (exists b :: b in binaries && b.digest == g)
    {
      WantedIff(artifacts, binaries, g);
    }
    if MissingFrom(d, carried, wanted) != [] {
      assert MissingFrom(d, carried, wanted)[0] in wanted;
    }
  }

  /** Malformed digests are refused; otherwise the answer is the exact list of missing ones. */
  predicate PreflightAnswers(d: Disk, carried: set<string>, wanted: seq<string>, r: Result<(), StagingError>) {
    if AllWellFormed(wanted) then
      var missing := MissingFrom(d, carried, wanted);
      r == if missing == [] then Ok(()) else Err(PreflightMissing(missing))
    else
      r.Err? && r.error.MalformedDigest? && r.error.digest in wanted && !WellFormed(r.error.digest)
  }
}
