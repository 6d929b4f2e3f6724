/**
  One codec and trust root that meet every hypothesis the results make about hashing, JSON and signatures:
  values are written as trees, prefix-free, and read back as what was written.
*/
module Sample {
  import opened Wrappers
  import opened ByteStrings
  import opened Digest
  import opened Plan
  import Envelope

  // ---- Trees and their bytes -------------------------------------------------------------------

  datatype Tree = Nil | Leaf(n: nat) | Pair(left: Tree, right: Tree)

  function Unary(n: nat): Bytes {
    if n == 0 then [0] else [1] + Unary(n - 1)
  }

  function Write(t: Tree): Bytes {
    match t
    case Nil => [0]
    case Leaf(n) => [1] + Unary(n)
    case Pair(a, b) => [2] + (Write(a) + Write(b))
  }

  lemma {:induction false} UnaryReadsBack(m: nat, n: nat, r: Bytes, s: Bytes)
    requires Unary(m) + r == Unary(n) + s
    ensures m == n && r == s
  {
    var x, y := Unary(m) + r, Unary(n) + s;
    assert x[0] == Unary(m)[0] && y[0] == Unary(n)[0];
    if m == 0 {
      assert x[1..] == r && y[1..] == s;
    } else {
      assert x[1..] == Unary(m - 1) + r && y[1..] == Unary(n - 1) + s;
      UnaryReadsBack(m - 1, n - 1, r, s);
    }
  }

  lemma {:induction false} AfterTag(tag: Bytes, a: Bytes, b: Bytes, r: Bytes)
    requires |tag| == 1
    ensures (tag + (a + b) + r)[1..] == a + (b + r)
  {}

  /** What follows a tree does not change how it is read. */
  lemma {:induction false} WriteReadsBack(t: Tree, u: Tree, r: Bytes, s: Bytes)
    requires Write(t) + r == Write(u) + s
    ensures t == u && r == s
  {
    var x, y := Write(t) + r, Write(u) + s;
    assert x[0] == Write(t)[0] && y[0] == Write(u)[0];
    match t
    case Nil => assert x[1..] == r && y[1..] == s;
    case Leaf(n) =>
      assert x[1..] == Unary(n) + r && y[1..] == Unary(u.n) + s;
      UnaryReadsBack(n, u.n, r, s);
    case Pair(a, b) =>
      AfterTag([2], Write(a), Write(b), r);
      AfterTag([2], Write(u.left), Write(u.right), s);
      WriteReadsBack(a, u.left, Write(b) + r, Write(u.right) + s);
      WriteReadsBack(b, u.right, r, s);
  }

  lemma {:induction false} WriteInjective(t: Tree, u: Tree)
    requires Write(t) == Write(u)
    ensures t == u
  {
    assert Write(t) + [] == Write(u) + [];
    WriteReadsBack(t, u, [], []);
  }

  // ---- Values as trees -------------------------------------------------------------------------

  function OfList<T>(f: T -> Tree, s: seq<T>): Tree {
    if s == [] then Nil else Pair(f(s[0]), OfList(f, s[1..]))
  }

  ghost predicate Injective<T(!new)>(f: T -> Tree) {
    forall x, y | f(x) == f(y) :: x == y
  }

  lemma {:induction false} ListInjective<T(!new)>(f: T -> Tree, a: seq<T>, b: seq<T>)
    requires Injective(f) && OfList(f, a) == OfList(f, b)
    ensures a == b
  {
    if a != [] {
      ListInjective(f, a[1..], b[1..]);
      assert a == [a[0]] + a[1..] && b == [b[0]] + b[1..];
    }
  }

  function OfChar(c: char): Tree {
    Leaf(c as int)
  }

  function OfString(s: string): Tree {
    OfList(OfChar, s)
  }

  lemma {:induction false} StringInjective(a: string, b: string)
    requires OfString(a) == OfString(b)
    ensures a == b
  {
    ListInjective(OfChar, a, b);
  }

  function OfArtifact(a: PlanArtifact): Tree {
    Pair(OfString(a.name), OfString(a.digest))
  }

  function OfBinary(b: BinaryArtifact): Tree {
    Pair(OfString(b.name), Pair(OfString(b.target), OfString(b.digest)))
  }

  function OfPlan(p: UpdatePlan): Tree {
    Pair(OfPredicate(PlanPredicate(p.schema, p.planId, p.envId, p.sequence, p.createdAt, p.nonce)),
         Pair(OfList(OfArtifact, p.artifacts), OfList(OfBinary, p.binaries)))
  }

  function OfPredicate(p: PlanPredicate): Tree {
    Pair(Pair(OfString(p.schema), Pair(OfString(p.planId), OfString(p.envId))),
         Pair(Leaf(p.sequence), Pair(Leaf(p.createdAt), OfString(p.nonce))))
  }

  function OfStatement(s: Statement): Tree {
    Pair(OfString(s.subject), Pair(OfString(s.predicateType), if s.identity.None? then Nil else OfPredicate(s.identity.value)))
  }

  function OfEntry(e: Envelope.ManifestEntry): Tree {
    Pair(Pair(OfString(e.path), Pair(OfString(e.digest), Leaf(e.size))),
         Pair(OfString(e.mediaType), if e.target.None? then Nil else Pair(Nil, OfString(e.target.value))))
  }

  function OfManifest(m: Envelope.EnvelopeManifest): Tree {
    Pair(Pair(OfString(m.schema), Pair(OfString(m.planId), OfString(m.envId))),
         Pair(Leaf(m.createdAt), OfList(OfEntry, m.entries)))
  }

  lemma {:induction false} ArtifactsInjective()
    ensures Injective(OfArtifact)
  {
    forall x, y | OfArtifact(x) == OfArtifact(y) ensures x == y {
      StringInjective(x.name, y.name);
      StringInjective(x.digest, y.digest);
    }
  }

  lemma {:induction false} BinariesInjective()
    ensures Injective(OfBinary)
  {
    forall x, y | OfBinary(x) == OfBinary(y) ensures x == y {
      StringInjective(x.name, y.name);
      StringInjective(x.target, y.target);
      StringInjective(x.digest, y.digest);
    }
  }

  lemma {:induction false} PredicateInjective(p: PlanPredicate, q: PlanPredicate)
    requires OfPredicate(p) == OfPredicate(q)
    ensures p == q
  {
    StringInjective(p.schema, q.schema);
    StringInjective(p.planId, q.planId);
    StringInjective(p.envId, q.envId);
    StringInjective(p.nonce, q.nonce);
  }

  lemma {:induction false} PlanInjective(p: UpdatePlan, q: UpdatePlan)
    requires OfPlan(p) == OfPlan(q)
    ensures p == q
  {
    PredicateInjective(PlanPredicate(p.schema, p.planId, p.envId, p.sequence, p.createdAt, p.nonce),
                       PlanPredicate(q.schema, q.planId, q.envId, q.sequence, q.createdAt, q.nonce));
    ArtifactsInjective();
    BinariesInjective();
    ListInjective(OfArtifact, p.artifacts, q.artifacts);
    ListInjective(OfBinary, p.binaries, q.binaries);
  }

  lemma {:induction false} StatementInjective(s: Statement, u: Statement)
    requires OfStatement(s) == OfStatement(u)
    ensures s == u
  {
    StringInjective(s.subject, u.subject);
    StringInjective(s.predicateType, u.predicateType);
    if s.identity.Some? { PredicateInjective(s.identity.value, u.identity.value); }
  }

  lemma {:induction false} EntriesInjective()
    ensures Injective(OfEntry)
  {
    forall x, y | OfEntry(x) == OfEntry(y) ensures x == y {
      StringInjective(x.path, y.path);
      StringInjective(x.digest, y.digest);
      StringInjective(x.mediaType, y.mediaType);
      if x.target.Some? { StringInjective(x.target.value, y.target.value); }
    }
  }

  lemma {:induction false} ManifestInjective(m: Envelope.EnvelopeManifest, n: Envelope.EnvelopeManifest)
    requires OfManifest(m) == OfManifest(n)
    ensures m == n
  {
    StringInjective(m.schema, n.schema);
    StringInjective(m.planId, n.planId);
    StringInjective(m.envId, n.envId);
    EntriesInjective();
    ListInjective(OfEntry, m.entries, n.entries);
  }

  // ---- The codec --------------------------------------------------------------------------------

  function Hex(c: char): string {
    seq(64, _ => c)
  }

  const KEY := "key"

  function EncodePlan(p: UpdatePlan): Bytes {
    Write(OfPlan(p))
  }

  function EncodeManifest(m: Envelope.EnvelopeManifest): Bytes {
    Write(OfManifest(m))
  }

  function Sign(s: Statement): Bytes {
    Write(OfStatement(s))
  }

  ghost function ParsePlan(b: Bytes): Option<UpdatePlan> {
    if exists p :: EncodePlan(p) == b then var p :| EncodePlan(p) == b; Some(p) else None
  }

  ghost function ParseManifest(b: Bytes): Option<Envelope.EnvelopeManifest> {
    if exists m :: EncodeManifest(m) == b then var m :| EncodeManifest(m) == b; Some(m) else None
  }

  /** The signed statement, if it pins this digest. */
  ghost function CheckSignature(sig: Bytes, sha: string): Option<Checked> {
    if exists s :: Sign(s) == sig && s.subject == sha
    then var s :| Sign(s) == sig && s.subject == sha; Some(Checked(s, [KEY])) else None
  }

  ghost function SampleCodec(): Codec {
    Codec((b: Bytes) => Hex('a'), EncodePlan, (b: Bytes) => ParsePlan(b),
          (b: Bytes) => if ParsePlan(b).Some? then Some(ParsePlan(b).value.envId) else None,
          (k: string) => k == KEY, (s: Statement, k: string) => Sign(s), (sig: Bytes, sha: string) => CheckSignature(sig, sha))
  }

  ghost function SampleTrust(): Envelope.Trust {
    Envelope.Trust(SampleCodec(), (b: Bytes) => ParseManifest(b), EncodeManifest)
  }

  lemma {:induction false} HexIsLower(c: char)
    requires IsLowerHexDigit(c)
    ensures IsLowerHex64(Hex(c))
  {}

  lemma {:induction false} PlanReadsBack(p: UpdatePlan)
    ensures ParsePlan(EncodePlan(p)) == Some(p)
  {
    forall q | EncodePlan(q) == EncodePlan(p) ensures q == p {
      WriteInjective(OfPlan(q), OfPlan(p));
      PlanInjective(q, p);
    }
  }

  lemma {:induction false} ManifestReadsBack(m: Envelope.EnvelopeManifest)
    ensures ParseManifest(EncodeManifest(m)) == Some(m)
  {
    forall n | EncodeManifest(n) == EncodeManifest(m) ensures n == m {
      WriteInjective(OfManifest(n), OfManifest(m));
      ManifestInjective(n, m);
    }
  }

  lemma {:induction false} SignatureReadsBack(s: Statement, sha: string)
    ensures CheckSignature(Sign(s), sha) == if s.subject == sha then Some(Checked(s, [KEY])) else None
  {
    forall u | Sign(u) == Sign(s) ensures u == s {
      WriteInjective(OfStatement(u), OfStatement(s));
      StatementInjective(u, s);
    }
  }

  /** The hypotheses about plans and signatures can be met. */
  lemma {:induction false} SampleIsFaithful()
    ensures DsseFaithful(SampleCodec()) && JsonFaithful(SampleCodec())
    ensures forall b: Bytes :: IsLowerHex64(SampleCodec().sha256(b))
  {
    var c := SampleCodec();
    forall st, k, sha | c.dsse(c.sign(st, k), sha).Some? ensures c.dsse(c.sign(st, k), sha).value.statement == st {
      SignatureReadsBack(st, sha);
    }
    forall p ensures c.parsePlan(c.encodePlan(p)) == Some(p) {
      PlanReadsBack(p);
    }
    HexIsLower('a');
  }

  /** The sample key signs any plan of the right schema. */
  lemma {:induction false} SampleBuilds(plan: UpdatePlan)
    requires plan.schema == UPDATE_PLAN_SCHEMA_V1
    ensures BuildUpdatePlan(SampleCodec(), plan, KEY).Ok?
  {
    var c := SampleCodec();
    var st := Statement(Hex('a'), UPDATE_PLAN_PREDICATE_TYPE_V1, Some(PredicateOf(plan)));
    SignatureReadsBack(st, Hex('a'));
    assert c.trustsKey(KEY) && KEY != "" && c.sha256(c.encodePlan(plan)) == Hex('a');
    assert c.sign(st, KEY) == Sign(st) && c.dsse(Sign(st), Hex('a')).Some?;
  }
}
