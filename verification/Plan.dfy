/** Update plans: addressing, the downgrade guard, binary selection, signing (src/plan.rs). */
module Plan {
  import opened Wrappers
  import opened ByteStrings

  const BROADCAST_ENV_ID := "_"
  const UPDATE_PLAN_SCHEMA_V1 := "greentic.update-plan.v1"
  const UPDATE_PLAN_PREDICATE_TYPE_V1 := "greentic.update-plan-predicate.v1"

  datatype PlanArtifact = PlanArtifact(name: string, digest: string)

  datatype BinaryArtifact = BinaryArtifact(name: string, target: string, digest: string)

  datatype UpdatePlan = UpdatePlan(schema: string, planId: string, envId: string, sequence: nat,
                                   createdAt: nat, nonce: string,
                                   artifacts: seq<PlanArtifact>, binaries: seq<BinaryArtifact>)

  predicate TargetsEnv(planEnv: string, localEnv: string) {
    planEnv == localEnv || planEnv == BROADCAST_ENV_ID
  }

  /** The downgrade guard accepts only sequences strictly above the last applied one. */
  predicate NotDowngrade(sequence: nat, lastApplied: Option<nat>) {
    lastApplied.Some? ==> sequence > lastApplied.value
  }

  // ---- Binary selection ---------------------------------------------------

  predicate Wanted(b: BinaryArtifact, name: string, target: string) {
    b.name == name && b.target == target
  }

  /** Indices of the binaries with this name and target. */
  function Matches(bs: seq<BinaryArtifact>, name: string, target: string): set<int> {
    set i | 0 <= i < |bs| && bs[i].name == name && bs[i].target == target
  }

  datatype PlanError = AmbiguousBinary(count: nat) | KeyNotTrusted | SchemaMismatch | Sign | Json | PredicateMismatch

  lemma {:induction false} MatchesExtend(bs: seq<BinaryArtifact>, name: string, target: string, i: nat)
    requires i < |bs|
    ensures Matches(bs[..i + 1], name, target) ==
            Matches(bs[..i], name, target) + if Wanted(bs[i], name, target) then {i as int} else {}
  {}

  /** Fails closed: one match is returned, several are an error, none is not an update. */
  method SelectBinary(binaries: seq<BinaryArtifact>, name: string, target: string)
    returns (r: Result<Option<BinaryArtifact>, PlanError>)
    ensures r.Ok? && r.value.Some? <==> |Matches(binaries, name, target)| == 1
    ensures r.Ok? && r.value.Some? ==>
              r.value.value in binaries && r.value.value.name == name && r.value.value.target == target
    ensures r.Ok? && r.value.None? <==> forall b | b in binaries :: b.name != name || b.target != target
    ensures r.Err? ==> r.error == AmbiguousBinary(|Matches(binaries, name, target)|)
  {
    var matched: Option<BinaryArtifact> := None;
    var count := 0;
    for i := 0 to |binaries|
      invariant count == |Matches(binaries[..i], name, target)|
      invariant matched.None? <==> count == 0
      invariant matched.Some? ==> matched.value in binaries && Wanted(matched.value, name, target)
      invariant count == 0 ==> forall j | 0 <= j < i :: !Wanted(binaries[j], name, target)
    {
      MatchesExtend(binaries, name, target, i);
      if Wanted(binaries[i], name, target) {
        if matched.None? {
          matched := Some(binaries[i]);
        }
        count := count + 1;
      }
    }
    assert binaries[..|binaries|] == binaries;
    if count > 1 {
      return Err(AmbiguousBinary(count));
    }
    return Ok(matched);
  }

  // ---- Signing and verification --------------------------------------------

  datatype PlanPredicate = PlanPredicate(schema: string, planId: string, envId: string, sequence: nat,
                                         createdAt: nat, nonce: string)

  /** An in-toto statement: the digest it pins, its type, and its predicate when it is a plan's. */
  datatype Statement = Statement(subject: string, predicateType: string, identity: Option<PlanPredicate>)

  datatype Checked = Checked(statement: Statement, keyIds: seq<string>)

  /** Hashing, JSON and DSSE, left abstract. `dsse(sig, sha)` is the trusted check of one digest. */
  datatype Codec = Codec(
    sha256: Bytes -> string,
    encodePlan: UpdatePlan -> Bytes,
    parsePlan: Bytes -> Option<UpdatePlan>,
    channelOf: Bytes -> Option<string>,
    trustsKey: string -> bool,
    sign: (Statement, string) -> Bytes,
    dsse: (Bytes, string) -> Option<Checked>)

  datatype VerifiedUpdatePlan = VerifiedUpdatePlan(plan: UpdatePlan, planSha256: string, keyIds: seq<string>)

  datatype BuiltUpdatePlan = BuiltUpdatePlan(planBytes: Bytes, envelopeBytes: Bytes, planSha256: string, keyId: string)

  function PredicateOf(plan: UpdatePlan): PlanPredicate {
    PlanPredicate(UPDATE_PLAN_PREDICATE_TYPE_V1, plan.planId, plan.envId, plan.sequence, plan.createdAt, plan.nonce)
  }

  function BuildUpdatePlan(c: Codec, plan: UpdatePlan, keyId: string): Result<BuiltUpdatePlan, PlanError> {
    if keyId == "" || !c.trustsKey(keyId) then Err(KeyNotTrusted)
    else if plan.schema != UPDATE_PLAN_SCHEMA_V1 then Err(SchemaMismatch)
    else
      var planBytes := c.encodePlan(plan);
      var sha := c.sha256(planBytes);
      var statement := Statement(sha, UPDATE_PLAN_PREDICATE_TYPE_V1, Some(PredicateOf(plan)));
      var envelope := c.sign(statement, keyId);
      if c.dsse(envelope, sha).None? then Err(Sign)
      else Ok(BuiltUpdatePlan(planBytes, envelope, sha, keyId))
  }

  function VerifyUpdatePlan(c: Codec, planBytes: Bytes, envelopeBytes: Bytes): Result<VerifiedUpdatePlan, PlanError> {
    var sha := c.sha256(planBytes);
    var checked := c.dsse(envelopeBytes, sha);
    if checked.None? then Err(Sign)
    else if checked.value.statement.predicateType != UPDATE_PLAN_PREDICATE_TYPE_V1 then Err(PredicateMismatch)
    else if checked.value.statement.identity.None? then Err(Json)
    else if c.parsePlan(planBytes).None? then Err(Json)
    else
      var plan := c.parsePlan(planBytes).value;
      if plan.schema != UPDATE_PLAN_SCHEMA_V1 then Err(SchemaMismatch)
      else if checked.value.statement.identity.value != PredicateOf(plan) then Err(PredicateMismatch)
      else Ok(VerifiedUpdatePlan(plan, sha, checked.value.keyIds))
  }

  /** The document parses to a plan of this schema, and a trusted signature states its hash and repeats its identity. */
  ghost predicate SignedPlan(c: Codec, planBytes: Bytes, envelopeBytes: Bytes, v: VerifiedUpdatePlan) {
    && c.parsePlan(planBytes) == Some(v.plan) && v.plan.schema == UPDATE_PLAN_SCHEMA_V1
    && v.planSha256 == c.sha256(planBytes)
    && var checked := c.dsse(envelopeBytes, c.sha256(planBytes));
       && checked.Some? && checked.value.keyIds == v.keyIds
       && checked.value.statement.predicateType == UPDATE_PLAN_PREDICATE_TYPE_V1
       && checked.value.statement.identity
          == Some(PlanPredicate(UPDATE_PLAN_PREDICATE_TYPE_V1, v.plan.planId, v.plan.envId, v.plan.sequence,
                                v.plan.createdAt, v.plan.nonce))
  }

  /** Verification succeeds on exactly the signed plans. */
  lemma {:induction false} VerifyIff(c: Codec, planBytes: Bytes, envelopeBytes: Bytes, v: VerifiedUpdatePlan)
    ensures VerifyUpdatePlan(c, planBytes, envelopeBytes) == Ok(v) <==> SignedPlan(c, planBytes, envelopeBytes, v)
  {}

  /** A check that passes returns the statement that was signed, and it pins the digest asked for. */
  ghost predicate DsseFaithful(c: Codec) {
    && (forall st, k, sha | c.dsse(c.sign(st, k), sha).Some? :: c.dsse(c.sign(st, k), sha).value.statement == st)
    && (forall env, sha | c.dsse(env, sha).Some? :: c.dsse(env, sha).value.statement.subject == sha)
  }

  ghost predicate JsonFaithful(c: Codec) {
    && (forall p {:trigger c.encodePlan(p)} :: c.parsePlan(c.encodePlan(p)) == Some(p))
    && (forall b | c.parsePlan(b).Some? :: c.channelOf(b) == Some(c.parsePlan(b).value.envId))
  }

  /** What verification hands on: the parsed document, the hash of its bytes, a signed predicate that mirrors it. */
  lemma {:induction false} VerifiedIsPinned(c: Codec, planBytes: Bytes, envelopeBytes: Bytes)
    requires VerifyUpdatePlan(c, planBytes, envelopeBytes).Ok? && DsseFaithful(c)
    ensures var v := VerifyUpdatePlan(c, planBytes, envelopeBytes).value;
      && IsVerified(c, v, planBytes) && v.plan.schema == UPDATE_PLAN_SCHEMA_V1
      && c.dsse(envelopeBytes, v.planSha256).Some?
      && c.dsse(envelopeBytes, v.planSha256).value.statement
         == Statement(c.sha256(planBytes), UPDATE_PLAN_PREDICATE_TYPE_V1, Some(PredicateOf(v.plan)))
  {
    assert c.dsse(envelopeBytes, c.sha256(planBytes)).Some?;
  }

  /** The input `begin` demands: a plan together with the bytes it was verified from. */
  predicate IsVerified(c: Codec, v: VerifiedUpdatePlan, planBytes: Bytes) {
    c.parsePlan(planBytes) == Some(v.plan) && v.planSha256 == c.sha256(planBytes)
  }

  /** The builder succeeds for a trusted key, a plan of this schema and a signature that passes its own check. */
  lemma {:induction false} BuildIff(c: Codec, plan: UpdatePlan, keyId: string)
    ensures BuildUpdatePlan(c, plan, keyId).Ok? <==>
              && keyId != "" && c.trustsKey(keyId) && plan.schema == UPDATE_PLAN_SCHEMA_V1
              && var sha := c.sha256(c.encodePlan(plan));
                 c.dsse(c.sign(Statement(sha, UPDATE_PLAN_PREDICATE_TYPE_V1,
                                         Some(PlanPredicate(UPDATE_PLAN_PREDICATE_TYPE_V1, plan.planId, plan.envId, plan.sequence,
                                                            plan.createdAt, plan.nonce))), keyId), sha).Some?
  {}

  /** Whatever the builder returns verifies, to the plan that was built. */
  lemma {:induction false} BuiltPlanVerifies(c: Codec, plan: UpdatePlan, keyId: string)
    requires DsseFaithful(c) && JsonFaithful(c) && BuildUpdatePlan(c, plan, keyId).Ok?
    ensures var b := BuildUpdatePlan(c, plan, keyId).value;
      var v := VerifyUpdatePlan(c, b.planBytes, b.envelopeBytes);
      v.Ok? && v.value.plan == plan && v.value.planSha256 == b.planSha256
  {
    var b := BuildUpdatePlan(c, plan, keyId).value;
    assert c.parsePlan(c.encodePlan(plan)) == Some(plan);
    var st := Statement(b.planSha256, UPDATE_PLAN_PREDICATE_TYPE_V1, Some(PredicateOf(plan)));
    assert c.dsse(c.sign(st, keyId), b.planSha256).value.statement == st;
  }
}
