/** One connection and the reconnect loop with its resume cursor (src/stream.rs:333-456). */
module Reconnect {
  import opened Wrappers
  import opened ByteStrings
  import opened Numbers
  import opened Sse
  import opened SseReader
  import opened SseEncode
  import opened ReconnectDelay

  const UPDATE_EVENT_SCHEMA_V1 := "greentic.update-event.v1"
  const PLAN_EVENT: Bytes := [112, 108, 97, 110]

  datatype PlanEvent = PlanEvent(schema: string, envId: string, sequence: nat, planSha256: string)

  datatype StreamError = Status(code: nat) | Unsupported(code: nat) | Http

  /** JSON decoding of a payload, left abstract. */
  type Parse = Bytes -> Option<PlanEvent>

  // ---- The event filter -----------------------------------------------------

  function PlanOf(parse: Parse, f: SseFrame): seq<PlanEvent> {
    if f.event != Some(PLAN_EVENT) then []
    else
      match parse(f.data)
      case None => []
      case Some(e) => if e.schema == UPDATE_EVENT_SCHEMA_V1 then [e] else []
  }

  function Events(parse: Parse, fs: seq<SseFrame>): seq<PlanEvent> {
    if fs == [] then []
    else Events(parse, fs[..|fs| - 1]) + PlanOf(parse, fs[|fs| - 1])
  }

  lemma {:induction false} EventsAppend(parse: Parse, fs: seq<SseFrame>, gs: seq<SseFrame>)
    ensures Events(parse, fs + gs) == Events(parse, fs) + Events(parse, gs)
    decreases |gs|
  {
    if gs == [] {
      assert fs + gs == fs;
    } else {
      var n := |gs| - 1;
      assert (fs + gs)[..|fs + gs| - 1] == fs + gs[..n];
      EventsAppend(parse, fs, gs[..n]);
    }
  }

  /** A frame carries the event it parses to, if it is called `plan` and the event has this schema; else none. */
  lemma {:induction false} FrameCarries(parse: Parse, f: SseFrame, e: PlanEvent)
    ensures Events(parse, [f]) == [e] <==>
              f.event == Some(PLAN_EVENT) && parse(f.data) == Some(e) && e.schema == UPDATE_EVENT_SCHEMA_V1
    ensures |Events(parse, [f])| <= 1
  {
    assert [f][..0] == [];
    assert Events(parse, [f]) == PlanOf(parse, f);
    if PlanOf(parse, f) == [e] { assert PlanOf(parse, f)[0] == e; }
  }

  lemma {:induction false} EventsPrefix(parse: Parse, fs: seq<SseFrame>, gs: seq<SseFrame>)
    requires fs <= gs
    ensures Events(parse, fs) <= Events(parse, gs)
  {
    assert gs == fs + gs[|fs|..];
    EventsAppend(parse, fs, gs[|fs|..]);
  }

  // ---- One connection ---------------------------------------------------------

  /** What a server answers: no answer, a refusal, or a body that ends cleanly or in an error. */
  datatype Response =
    | Unreachable
    | Reply(status: nat, body: seq<Bytes>, fails: bool)

  ghost predicate WellFormed(r: Response) {
    r.Reply? ==> forall c | c in r.body :: c != []
  }

  predicate Success(status: nat) {
    200 <= status < 300
  }

  ghost predicate AnswersWellFormed(serve: (nat, Option<nat>) -> Response) {
    forall i, c :: WellFormed(serve(i, c))
  }

  /** The plan events a response carries. */
  ghost function Carried(parse: Parse, r: Response): seq<PlanEvent> {
    if r.Reply? && Success(r.status) then Events(parse, Frames(Flatten(r.body), r.fails)) else []
  }

  /** What the consumer answers to event number `k` of a history. */
  ghost predicate Consents(consume: seq<PlanEvent> -> bool, history: seq<PlanEvent>, k: nat)
    requires k <= |history|
  {
    consume(history[..k])
  }

  /**
    What reaches a consumer that has seen `earlier` events before and goes on after a history
    `h` exactly when `consume(h)`.
  */
  ghost predicate ConsumedUntil(consume: seq<PlanEvent> -> bool, earlier: seq<PlanEvent>,
                                carried: seq<PlanEvent>, events: seq<PlanEvent>, broke: bool)
  {
    && events <= carried
    && (forall k | |earlier| < k < |earlier + events| :: Consents(consume, earlier + events, k))
    && (broke ==> events != [] && !Consents(consume, earlier + events, |earlier + events|))
    && (!broke ==> events == carried)
    && (!broke && events != [] ==> Consents(consume, earlier + events, |earlier + events|))
  }

  function Verdict(parse: Parse, consume: seq<PlanEvent> -> bool, earlier: seq<PlanEvent>): seq<SseFrame> -> bool {
    (fs: seq<SseFrame>) =>
      fs == [] || PlanOf(parse, fs[|fs| - 1]) == [] || consume(earlier + Events(parse, fs))
  }

  /** Each event history that a frame prefix stands for was put to the consumer. */
  lemma {:induction false} VerdictsAsked(parse: Parse, consume: seq<PlanEvent> -> bool, earlier: seq<PlanEvent>,
                                         fs: seq<SseFrame>, k: nat)
    requires AllAccepted(Verdict(parse, consume, earlier), fs)
    requires 0 < k <= |Events(parse, fs)|
    ensures consume(earlier + Events(parse, fs)[..k])
  {
    var n := |fs| - 1;
    var init := fs[..n];
    var accept := Verdict(parse, consume, earlier);
    if k <= |Events(parse, init)| {
      forall j | 0 < j <= n ensures Accepts(accept, init, j) {
        assert Accepts(accept, fs, j);
        assert init[..j] == fs[..j];
      }
      VerdictsAsked(parse, consume, earlier, init, k);
      assert Events(parse, fs)[..k] == Events(parse, init)[..k];
    } else {
      assert Accepts(accept, fs, |fs|);
      assert fs[..|fs|] == fs;
      assert Events(parse, fs)[..k] == Events(parse, fs);
    }
  }

  lemma {:induction false} AskedBefore(parse: Parse, consume: seq<PlanEvent> -> bool, earlier: seq<PlanEvent>,
                    asked: seq<SseFrame>, events: seq<PlanEvent>, k: nat)
    requires AllAccepted(Verdict(parse, consume, earlier), asked)
    requires Events(parse, asked) <= events
    requires |earlier| < k <= |earlier| + |Events(parse, asked)|
    ensures Consents(consume, earlier + events, k)
  {
    var j := k - |earlier|;
    VerdictsAsked(parse, consume, earlier, asked, j);
    assert (earlier + events)[..k] == earlier + Events(parse, asked)[..j];
  }

  lemma {:induction false} AcceptedInit(accept: seq<SseFrame> -> bool, frames: seq<SseFrame>, delivered: seq<SseFrame>)
    requires DeliveredUntil(accept, frames, delivered, true)
    ensures AllAccepted(accept, delivered[..|delivered| - 1])
  {
    var asked := delivered[..|delivered| - 1];
    forall j | 0 < j <= |asked| ensures Accepts(accept, asked, j) {
      assert Accepts(accept, delivered, j);
      assert asked[..j] == delivered[..j];
    }
  }

  lemma {:induction false} FramesToEvents(parse: Parse, consume: seq<PlanEvent> -> bool, earlier: seq<PlanEvent>,
                       frames: seq<SseFrame>, delivered: seq<SseFrame>, broke: bool)
    requires DeliveredUntil(Verdict(parse, consume, earlier), frames, delivered, broke)
    ensures ConsumedUntil(consume, earlier, Events(parse, frames), Events(parse, delivered), broke)
  {
    EventsPrefix(parse, delivered, frames);
    var accept := Verdict(parse, consume, earlier);
    var events := Events(parse, delivered);
    if broke {
      AcceptedInit(accept, frames, delivered);
      assert delivered[..|delivered|] == delivered;
      assert (earlier + events)[..|earlier + events|] == earlier + events;
      assert |PlanOf(parse, delivered[|delivered| - 1])| == 1;
      forall k | |earlier| < k < |earlier + events| ensures Consents(consume, earlier + events, k) {
        AskedBefore(parse, consume, earlier, delivered[..|delivered| - 1], events, k);
      }
    } else {
      forall k | |earlier| < k <= |earlier + events| ensures Consents(consume, earlier + events, k) {
        AskedBefore(parse, consume, earlier, delivered, events, k);
      }
    }
  }

  method ConnectAndRead(response: Response, parse: Parse, earlier: seq<PlanEvent>, consume: seq<PlanEvent> -> bool)
    returns (events: seq<PlanEvent>, broke: bool, result: Result<(), StreamError>)
    requires WellFormed(response)
    ensures ConsumedUntil(consume, earlier, Carried(parse, response), events, broke)
    ensures broke ==> result.Ok?
    ensures response.Unreachable? || response.status < 200 || response.status >= 300 ==> events == [] && result.Err?
    ensures response.Reply? && 200 <= response.status < 300 ==>
              && ConsumedUntil(consume, earlier, Events(parse, Frames(Flatten(response.body), response.fails)), events, broke)
              && (result.Ok? <==> broke || !response.fails)
    ensures (result.Err? && result.error.Unsupported?) <==>
            response.Reply? && response.status in {404, 501}
    ensures result.Ok? && !broke ==> response.Reply? && Success(response.status) && !response.fails
  {
    if response.Unreachable? {
      return [], false, Err(Http);
    }
    if !Success(response.status) {
      return [], false, Err(if response.status == 404 || response.status == 501
                            then Unsupported(response.status) else Status(response.status));
    }
    var reader := new BufReader(response.body, response.fails);
    var delivered, ending, peak := ReadFrames(reader, Verdict(parse, consume, earlier));
    FramesToEvents(parse, consume, earlier, Frames(Flatten(response.body), response.fails), delivered, ending.Broke?);
    events, broke := Events(parse, delivered), ending.Broke?;
    result := if ending.Failed? then Err(Http) else Ok(());
  }

  // ---- The resume cursor ------------------------------------------------------

  function Highest(from: Option<nat>, events: seq<PlanEvent>): Option<nat> {
    if events == [] then from
    else
      var e := events[|events| - 1];
      match Highest(from, events[..|events| - 1])
      case None => Some(e.sequence)
      case Some(c) => Some(if c < e.sequence then e.sequence else c)
  }

  predicate Beyond(e: PlanEvent, cursor: Option<nat>) {
    cursor.Some? ==> e.sequence > cursor.value
  }

  /** The part of the server's log that a client with this cursor still lacks. */
  function Above(log: seq<PlanEvent>, cursor: Option<nat>): seq<PlanEvent> {
    if log == [] then []
    else (if Beyond(log[0], cursor) then [log[0]] else []) + Above(log[1..], cursor)
  }

  ghost predicate Before(log: seq<PlanEvent>, i: int, j: int)
    requires 0 <= i < |log| && 0 <= j < |log|
  {
    log[i].sequence < log[j].sequence
  }

  ghost predicate Increasing(log: seq<PlanEvent>) {
    forall i, j | 0 <= i < j < |log| :: Before(log, i, j)
  }

  lemma {:induction false} SliceIncreases(log: seq<PlanEvent>, lo: nat, hi: nat)
    requires Increasing(log) && lo <= hi <= |log|
    ensures Increasing(log[lo..hi])
  {
    forall i, j | 0 <= i < j < hi - lo ensures Before(log[lo..hi], i, j) {
      assert Before(log, lo + i, lo + j);
    }
  }

  lemma {:induction false} HighestAppend(from: Option<nat>, a: seq<PlanEvent>, b: seq<PlanEvent>)
    ensures Highest(from, a + b) == Highest(Highest(from, a), b)
    decreases |b|
  {
    if b == [] {
      assert a + b == a;
    } else {
      assert (a + b)[..|a + b| - 1] == a + b[..|b| - 1];
      HighestAppend(from, a, b[..|b| - 1]);
    }
  }

  predicate AtMost(events: seq<PlanEvent>, bound: nat) {
    forall i | 0 <= i < |events| :: events[i].sequence <= bound
  }

  predicate Reaches(events: seq<PlanEvent>, bound: nat) {
    exists i | 0 <= i < |events| :: events[i].sequence == bound
  }

  /** The cursor is the maximum of its start and of all delivered sequences. */
  lemma {:induction false} HighestIsMaximum(from: Option<nat>, events: seq<PlanEvent>)
    ensures Highest(from, events).None? <==> from.None? && events == []
    ensures from.Some? ==> from.value <= Highest(from, events).value
    ensures Highest(from, events).Some? ==> AtMost(events, Highest(from, events).value)
    ensures Highest(from, events).Some? && Highest(from, events) != from ==> Reaches(events, Highest(from, events).value)
  {
    if events != [] {
      var n := |events| - 1;
      HighestIsMaximum(from, events[..n]);
      if Highest(from, events) != Highest(from, events[..n]) {
        assert events[n].sequence == Highest(from, events).value;
      } else if Highest(from, events) != from {
        StillReached(events, n, Highest(from, events).value);
      }
    }
  }

  lemma {:induction false} StillReached(events: seq<PlanEvent>, n: nat, bound: nat)
    requires n <= |events| && Reaches(events[..n], bound)
    ensures Reaches(events, bound)
  {
    var i :| 0 <= i < n && events[..n][i].sequence == bound;
    assert events[i].sequence == bound;
  }

  lemma {:induction false} AboveAll(log: seq<PlanEvent>, cursor: Option<nat>)
    requires forall i | 0 <= i < |log| :: Beyond(log[i], cursor)
    ensures Above(log, cursor) == log
  {
    if log != [] {
      AboveAll(log[1..], cursor);
    }
  }

  lemma {:induction false} AboveNone(log: seq<PlanEvent>, cursor: Option<nat>)
    requires forall i | 0 <= i < |log| :: !Beyond(log[i], cursor)
    ensures Above(log, cursor) == []
  {
    if log != [] {
      AboveNone(log[1..], cursor);
    }
  }

  lemma {:induction false} AboveAppend(a: seq<PlanEvent>, b: seq<PlanEvent>, cursor: Option<nat>)
    ensures Above(a + b, cursor) == Above(a, cursor) + Above(b, cursor)
  {
    if a == [] {
      assert a + b == b;
    } else {
      var head := if Beyond(a[0], cursor) then [a[0]] else [];
      assert (a + b)[0] == a[0] && (a + b)[1..] == a[1..] + b;
      AboveAppend(a[1..], b, cursor);
      Sse.ConcatAssoc(head, Above(a[1..], cursor), Above(b, cursor));
    }
  }

  /** In an increasing log the missing part is a suffix. */
  lemma {:induction false} AboveIsSuffix(log: seq<PlanEvent>, cursor: Option<nat>) returns (start: nat)
    requires Increasing(log)
    ensures start <= |log| && Above(log, cursor) == log[start..]
    ensures forall i | start <= i < |log| :: Beyond(log[i], cursor)
  {
    if log == [] || Beyond(log[0], cursor) {
      forall i | 0 <= i < |log| ensures Beyond(log[i], cursor) {
        assert i > 0 ==> Before(log, 0, i);
      }
      AboveAll(log, cursor);
      assert log[0..] == log;
      start := 0;
    } else {
      SliceIncreases(log, 1, |log|);
      assert log[1..|log|] == log[1..];
      var s := AboveIsSuffix(log[1..], cursor);
      start := s + 1;
      assert log[1..][s..] == log[start..];
      forall i | start <= i < |log| ensures Beyond(log[i], cursor) {
        assert log[i] == log[1..][i - 1];
      }
    }
  }

  lemma {:induction false} HighestOfIncreasing(from: Option<nat>, d: seq<PlanEvent>)
    requires Increasing(d) && d != [] && Beyond(d[0], from)
    ensures Highest(from, d) == Some(d[|d| - 1].sequence)
  {
    var n := |d| - 1;
    if n > 0 {
      SliceIncreases(d, 0, n);
      assert d[0..n] == d[..n];
      HighestOfIncreasing(from, d[..n]);
      assert Before(d, n - 1, n);
    } else {
      assert d[..n] == [];
    }
  }

  /**
    Reconnecting is lossless: after any prefix of the missing events was delivered, the events
    above the new cursor are exactly the ones not yet delivered, none twice and none skipped.
  */
  lemma {:induction false} Resume(log: seq<PlanEvent>, from: Option<nat>, d: seq<PlanEvent>)
    requires Increasing(log) && d <= Above(log, from)
    ensures d + Above(log, Highest(from, d)) == Above(log, from)
  {
    var start := AboveIsSuffix(log, from);
    if d != [] {
      var mid := start + |d|;
      SlicePrefix(log, start, d);
      DeliveredTo(log, from, start, mid);
      AboveSplit(log, mid);
    }
  }

  lemma {:induction false} SlicePrefix(log: seq<PlanEvent>, start: nat, d: seq<PlanEvent>)
    requires start <= |log| && d <= log[start..]
    ensures start + |d| <= |log| && d == log[start..start + |d|]
    ensures d + log[start + |d|..] == log[start..]
  {
    assert log[start..][..|d|] == log[start..start + |d|];
    assert log[start..][|d|..] == log[start + |d|..];
    TakeDrop(log[start..], |d|);
  }

  lemma {:induction false} DeliveredTo(log: seq<PlanEvent>, from: Option<nat>, start: nat, mid: nat)
    requires Increasing(log) && start < mid <= |log| && Beyond(log[start], from)
    ensures Highest(from, log[start..mid]) == Some(log[mid - 1].sequence)
  {
    SliceIncreases(log, start, mid);
    HighestOfIncreasing(from, log[start..mid]);
  }

  lemma {:induction false} AboveSplit(log: seq<PlanEvent>, mid: nat)
    requires Increasing(log) && 0 < mid <= |log|
    ensures Above(log, Some(log[mid - 1].sequence)) == log[mid..]
  {
    var cursor := Some(log[mid - 1].sequence);
    forall i | 0 <= i < mid ensures !Beyond(log[..mid][i], cursor) {
      assert i < mid - 1 ==> Before(log, i, mid - 1);
    }
    forall i | 0 <= i < |log| - mid ensures Beyond(log[mid..][i], cursor) {
      assert Before(log, mid - 1, mid + i);
    }
    AboveNone(log[..mid], cursor);
    AboveAll(log[mid..], cursor);
    AboveAppend(log[..mid], log[mid..], cursor);
    TakeDrop(log, mid);
  }

  lemma {:induction false} TakeDrop<T>(s: seq<T>, n: nat)
    requires n <= |s|
    ensures s[..n] + s[n..] == s
  {}

  /** What was missing and delivered so far is strictly increasing and above the start. */
  lemma {:induction false} DeliveredIncreasing(log: seq<PlanEvent>, from: Option<nat>, d: seq<PlanEvent>)
    requires Increasing(log) && d <= Above(log, from)
    ensures Increasing(d) && forall i | 0 <= i < |d| :: Beyond(d[i], from)
  {
    var start := AboveIsSuffix(log, from);
    assert d == log[start..][..|d|] == log[start..start + |d|];
    SliceIncreases(log, start, start + |d|);
    assert forall i | 0 <= i < |d| :: d[i] == log[start + i];
  }

  /** A server whose every answer carries the missing events in order, cut anywhere. */
  ghost predicate Honest(parse: Parse, serve: (nat, Option<nat>) -> Response, log: seq<PlanEvent>) {
    forall i: nat, c :: HonestAt(parse, serve, log, i, c)
  }

  ghost predicate HonestAt(parse: Parse, serve: (nat, Option<nat>) -> Response, log: seq<PlanEvent>, i: nat, c: Option<nat>) {
    Carried(parse, serve(i, c)) <= Above(log, c)
  }

  /** Against an honest server nothing above `from` was skipped, repeated or reordered. */
  ghost predicate GapFree(parse: Parse, serve: (nat, Option<nat>) -> Response, log: seq<PlanEvent>,
                          from: Option<nat>, delivered: seq<PlanEvent>)
  {
    Increasing(log) && Honest(parse, serve, log) ==> delivered <= Above(log, from)
  }

  lemma {:induction false} StaysGapFree(parse: Parse, serve: (nat, Option<nat>) -> Response, log: seq<PlanEvent>,
                     from: Option<nat>, delivered: seq<PlanEvent>, attempt: nat, events: seq<PlanEvent>)
    requires GapFree(parse, serve, log, from, delivered)
    requires events <= Carried(parse, serve(attempt, Highest(from, delivered)))
    ensures GapFree(parse, serve, log, from, delivered + events)
  {
    if Increasing(log) && Honest(parse, serve, log) {
      assert HonestAt(parse, serve, log, attempt, Highest(from, delivered));
      Resume(log, from, delivered);
      PrefixGrows(delivered, events, Above(log, Highest(from, delivered)));
    }
  }

  lemma {:induction false} PrefixGrows<T>(d: seq<T>, e: seq<T>, more: seq<T>)
    requires e <= more
    ensures d + e <= d + more
  {}

  lemma {:induction false} NotTorn(arrived: Bytes)
    requires CR !in arrived
    ensures !TornReturn(arrived)
  {
    var tail := arrived[Complete(arrived)..];
    assert forall b | b in tail :: b in arrived;
    assert CR in [CR];
  }

  /** A body cut at any byte still carries a prefix of the events written into it. */
  lemma {:induction false} CutBodyIsHonest(parse: Parse, frames: seq<SseFrame>, cut: nat, fails: bool)
    requires forall f | f in frames :: Encodable(f)
    requires cut <= |EncodeAll(frames)| && CR !in EncodeAll(frames)
    ensures Events(parse, Frames(EncodeAll(frames)[..cut], fails)) <= Events(parse, frames)
  {
    var whole := EncodeAll(frames);
    var arrived := whole[..cut];
    assert CR !in arrived;
    NotTorn(arrived);
    assert arrived + whole[cut..] == whole;
    CutDeliversPrefix(arrived, whole[cut..], fails);
    StreamRoundTrip(frames, false);
    EventsPrefix(parse, Frames(arrived, fails), frames);
  }

  // ---- A server that encodes its log ----------------------------------------------------------

  function Encoded(enc: PlanEvent -> SseFrame, es: seq<PlanEvent>): seq<SseFrame> {
    if es == [] then [] else [enc(es[0])] + Encoded(enc, es[1..])
  }

  /** The frame of an event can be encoded without a carriage return, and is read back as that event. */
  ghost predicate Writes(parse: Parse, enc: PlanEvent -> SseFrame, e: PlanEvent) {
    Encodable(enc(e)) && CR !in Encode(enc(e)) && PlanOf(parse, enc(e)) == [e]
  }

  /** No answer, a refusal, or a body that holds the encoded events up to any byte, ended in any way. */
  ghost predicate CutAnswer(enc: PlanEvent -> SseFrame, r: Response, missing: seq<PlanEvent>) {
    r.Reply? && Success(r.status) ==> Flatten(r.body) <= EncodeAll(Encoded(enc, missing))
  }

  /** Every attempt is answered with what its cursor misses, encoded and cut at any byte. */
  ghost predicate EncodingServer(enc: PlanEvent -> SseFrame, serve: (nat, Option<nat>) -> Response, log: seq<PlanEvent>) {
    forall i: nat, c :: CutAnswer(enc, serve(i, c), Above(log, c))
  }

  lemma {:induction false} EncodedFacts(parse: Parse, enc: PlanEvent -> SseFrame, es: seq<PlanEvent>)
    requires forall e | e in es :: Writes(parse, enc, e)
    ensures forall f | f in Encoded(enc, es) :: Encodable(f)
    ensures CR !in EncodeAll(Encoded(enc, es))
    ensures Events(parse, Encoded(enc, es)) == es
  {
    if es != [] {
      var f, rest := enc(es[0]), Encoded(enc, es[1..]);
      assert Writes(parse, enc, es[0]);
      EncodedFacts(parse, enc, es[1..]);
      EventsAppend(parse, [f], rest);
      OneFrame(parse, f);
      assert ([f] + rest)[1..] == rest;
      assert es == [es[0]] + es[1..];
    }
  }

  lemma {:induction false} OneFrame(parse: Parse, f: SseFrame)
    ensures Events(parse, [f]) == PlanOf(parse, f)
  {
    assert [f][..0] == [];
  }

  lemma {:induction false} AboveWithin(log: seq<PlanEvent>, cursor: Option<nat>)
    ensures forall e | e in Above(log, cursor) :: e in log
  {
    if log != [] { AboveWithin(log[1..], cursor); }
  }

  /** A server that encodes what is missing is honest, wherever its bodies are cut. */
  lemma {:induction false} EncodingServerIsHonest(parse: Parse, enc: PlanEvent -> SseFrame,
                                                  serve: (nat, Option<nat>) -> Response, log: seq<PlanEvent>)
    requires (forall e | e in log :: Writes(parse, enc, e)) && EncodingServer(enc, serve, log)
    ensures Honest(parse, serve, log)
  {
    forall i: nat, c ensures HonestAt(parse, serve, log, i, c) {
      assert CutAnswer(enc, serve(i, c), Above(log, c));
      AboveWithin(log, c);
      CutAnswerCarries(parse, enc, serve(i, c), Above(log, c));
    }
  }

  lemma {:induction false} CutAnswerCarries(parse: Parse, enc: PlanEvent -> SseFrame, r: Response, missing: seq<PlanEvent>)
    requires (forall e | e in missing :: Writes(parse, enc, e)) && CutAnswer(enc, r, missing)
    ensures Carried(parse, r) <= missing
  {
    if r.Reply? && Success(r.status) {
      var frames, body := Encoded(enc, missing), Flatten(r.body);
      EncodedFacts(parse, enc, missing);
      assert EncodeAll(frames)[..|body|] == body;
      CutBodyIsHonest(parse, frames, |body|, r.fails);
      assert Carried(parse, r) == Events(parse, Frames(body, r.fails));
    }
  }

  /** Delays since the backoff was last reset, when attempt `j` has just ended. */
  function Streak(healthy: seq<bool>, j: nat): nat
    requires j < |healthy|
  {
    if healthy[j] || j == 0 then 0 else Streak(healthy, j - 1) + 1
  }

  ghost predicate DelaysFit(healthy: seq<bool>, delays: seq<nat>, max: nat) {
    && |healthy| == |delays|
    && forall j | 0 <= j < |delays| ::
         && Base(Streak(healthy, j), max) <= delays[j]
         && delays[j] * 1000 <= Base(Streak(healthy, j), max) * 1249
  }

  lemma {:induction false} StreakPrefix(healthy: seq<bool>, more: seq<bool>, j: nat)
    requires j < |healthy|
    ensures Streak(healthy + more, j) == Streak(healthy, j)
  {
    if j > 0 { StreakPrefix(healthy, more, j - 1); }
  }

  /** Delays since the last reset once the delay after the last of `healthy` was taken. */
  function Taken(healthy: seq<bool>): nat {
    if healthy == [] then 0 else Streak(healthy, |healthy| - 1) + 1
  }

  lemma {:induction false} StreakNext(healthy: seq<bool>, h: bool)
    ensures Streak(healthy + [h], |healthy|) == if h then 0 else Taken(healthy)
    ensures Taken(healthy + [h]) == if h then 1 else Taken(healthy) + 1
  {
    if healthy != [] { StreakPrefix(healthy, [h], |healthy| - 1); }
  }

  lemma {:induction false} DelaysExtend(healthy: seq<bool>, delays: seq<nat>, max: nat, h: bool, k: nat, d: nat)
    requires DelaysFit(healthy, delays, max)
    requires k == Streak(healthy + [h], |healthy|)
    requires Base(k, max) <= d && d * 1000 <= Base(k, max) * 1249
    ensures DelaysFit(healthy + [h], delays + [d], max)
  {
    forall j | 0 <= j < |delays| ensures Streak(healthy + [h], j) == Streak(healthy, j) {
      StreakPrefix(healthy, [h], j);
    }
  }

  /** The consumer went on after every part of the history `h`. */
  ghost predicate Willing(consume: seq<PlanEvent> -> bool, h: seq<PlanEvent>) {
    forall k | 0 < k <= |h| :: Consents(consume, h, k)
  }

  // ---- The reconnect loop -------------------------------------------------------

  /** A whole run of the client: its environment and what it may be told. */
  datatype Session = Session(
    parse: Parse,
    serve: (nat, Option<nat>) -> Response,
    uptime: nat -> nat,
    stop: nat -> bool,
    consume: seq<PlanEvent> -> bool,
    from: Option<nat>)

  /** The cursor is the highest sequence so far and delivery is gap-free. */
  ghost predicate InStep(s: Session, log: seq<PlanEvent>, delivered: seq<PlanEvent>, cursor: Option<nat>) {
    cursor == Highest(s.from, delivered) && GapFree(s.parse, s.serve, log, s.from, delivered)
  }

  /** Every event but possibly the last was followed by a wish for more. */
  ghost predicate StoppedInTime(s: Session, delivered: seq<PlanEvent>) {
    delivered == [] || Willing(s.consume, delivered[..|delivered| - 1])
  }

  /**
    Main result: when the server encodes its increasing log above each cursor and its bodies are cut at any byte,
    what a run delivers is the first of what was missing, strictly increasing, and what lies above
    the final cursor is exactly the rest.
  */
  lemma {:induction false} EncodedLogIsDelivered(s: Session, enc: PlanEvent -> SseFrame, log: seq<PlanEvent>,
                                                 delivered: seq<PlanEvent>, cursor: Option<nat>)
    requires Increasing(log) && (forall e | e in log :: Writes(s.parse, enc, e)) && EncodingServer(enc, s.serve, log)
    requires InStep(s, log, delivered, cursor)
    ensures delivered + Above(log, cursor) == Above(log, s.from)
    ensures Increasing(delivered) && forall i | 0 <= i < |delivered| :: Beyond(delivered[i], s.from)
  {
    EncodingServerIsHonest(s.parse, enc, s.serve, log);
    Resume(log, s.from, delivered);
    DeliveredIncreasing(log, s.from, delivered);
  }

  lemma {:induction false} AttemptStep(s: Session, log: seq<PlanEvent>, delivered: seq<PlanEvent>, cursor: Option<nat>,
                    attempt: nat, events: seq<PlanEvent>, broke: bool)
    requires InStep(s, log, delivered, cursor) && Willing(s.consume, delivered)
    requires ConsumedUntil(s.consume, delivered, Carried(s.parse, s.serve(attempt, cursor)), events, broke)
    ensures InStep(s, log, delivered + events, Highest(cursor, events))
    ensures StoppedInTime(s, delivered + events)
    ensures !broke ==> Willing(s.consume, delivered + events)
  {
    CursorStep(s, log, delivered, cursor, attempt, events);
    StopsInTime(s, delivered, Carried(s.parse, s.serve(attempt, cursor)), events, broke);
  }

  lemma {:induction false} StopsInTime(s: Session, delivered: seq<PlanEvent>, carried: seq<PlanEvent>,
                                       events: seq<PlanEvent>, broke: bool)
    requires Willing(s.consume, delivered) && ConsumedUntil(s.consume, delivered, carried, events, broke)
    ensures StoppedInTime(s, delivered + events)
    ensures !broke ==> Willing(s.consume, delivered + events)
  {
    HistoryGrows(s.consume, delivered, events, carried, broke);
    if !broke {
      WillingPrefix(s.consume, delivered + events);
    }
  }

  lemma {:induction false} CursorStep(s: Session, log: seq<PlanEvent>, delivered: seq<PlanEvent>, cursor: Option<nat>,
                   attempt: nat, events: seq<PlanEvent>)
    requires InStep(s, log, delivered, cursor)
    requires events <= Carried(s.parse, s.serve(attempt, cursor))
    ensures InStep(s, log, delivered + events, Highest(cursor, events))
  {
    StaysGapFree(s.parse, s.serve, log, s.from, delivered, attempt, events);
    HighestAppend(s.from, delivered, events);
  }

  /** The wait after attempt number `|healthy|`: reset when it was healthy, then the next delay. */
  method Pause(backoff: Backoff, resets: bool, ghost healthy: seq<bool>, delays: seq<nat>) returns (r: seq<nat>)
    requires backoff.Valid() && backoff.max == 60 * SECOND && backoff.calls == Taken(healthy)
    requires DelaysFit(healthy, delays, 60 * SECOND)
    modifies backoff
    ensures backoff.Valid() && backoff.calls == Taken(healthy + [resets])
    ensures DelaysFit(healthy + [resets], r, 60 * SECOND)
  {
    if resets {
      backoff.Reset();
    }
    StreakNext(healthy, resets);
    ghost var k := backoff.calls;
    var delay := backoff.NextDelay();
    DelaysExtend(healthy, delays, 60 * SECOND, resets, k, delay);
    r := delays + [delay];
  }

  // ---- What a whole run did ---------------------------------------------------------

  function Concat(parts: seq<seq<PlanEvent>>): seq<PlanEvent> {
    if parts == [] then [] else Concat(parts[..|parts| - 1]) + parts[|parts| - 1]
  }

  /** The answer to attempt `i`, made with the cursor that the earlier attempts left. */
  ghost function AnswerTo(s: Session, parts: seq<seq<PlanEvent>>, i: nat): Response
    requires i <= |parts|
  {
    s.serve(i, Highest(s.from, Concat(parts[..i])))
  }

  ghost predicate AttemptIs(s: Session, parts: seq<seq<PlanEvent>>, i: nat, broke: bool)
    requires i < |parts|
  {
    ConsumedUntil(s.consume, Concat(parts[..i]), Carried(s.parse, AnswerTo(s, parts, i)), parts[i], broke)
  }

  predicate Refuses(r: Response) {
    r.Reply? && r.status in {404, 501}
  }

  /** Attempt `i` was made, and went well enough to try again. */
  ghost predicate GoesOn(s: Session, parts: seq<seq<PlanEvent>>, i: nat)
    requires i < |parts|
  {
    !s.stop(2 * i) && AttemptIs(s, parts, i, false) && !Refuses(AnswerTo(s, parts, i)) && !s.stop(2 * i + 1)
  }

  /** The first `n` attempts were made, each followed by a wait. */
  ghost predicate WentOn(s: Session, parts: seq<seq<PlanEvent>>, n: nat)
    requires n <= |parts|
  {
    forall i | 0 <= i < n :: GoesOn(s, parts, i)
  }

  /** Why the loop ended: a stop, a break by the consumer or a server without a stream, and nothing else. */
  ghost predicate Ended(s: Session, parts: seq<seq<PlanEvent>>, result: Result<(), StreamError>) {
    var n := |parts| - 1;
    || (WentOn(s, parts, n + 1) && s.stop(2 * n + 2) && result.Ok?)
    || (n >= 0 && WentOn(s, parts, n) && !s.stop(2 * n) && EndedIn(s, parts, n, result))
  }

  /** Attempt `n` ended the loop. */
  ghost predicate EndedIn(s: Session, parts: seq<seq<PlanEvent>>, n: nat, result: Result<(), StreamError>)
    requires n < |parts|
  {
    || (AttemptIs(s, parts, n, true) && result.Ok?)
    || (AttemptIs(s, parts, n, false) && Refuses(AnswerTo(s, parts, n)) && result.Err?)
    || (AttemptIs(s, parts, n, false) && !Refuses(AnswerTo(s, parts, n)) && s.stop(2 * n + 1) && result.Ok?)
  }

  /** Which attempts reset the backoff. */
  ghost function Health(s: Session, parts: seq<seq<PlanEvent>>): seq<bool> {
    seq(|parts|, i requires 0 <= i < |parts| => parts[i] != [] || s.uptime(i) >= 30 * SECOND)
  }

  /** Attempt `i` began the count, or was healthy; the attempts after it up to `j` delivered nothing and were short. */
  ghost predicate ShortSince(s: Session, parts: seq<seq<PlanEvent>>, i: nat, j: nat)
    requires i <= j < |parts|
  {
    && (i == 0 || parts[i] != [] || s.uptime(i) >= 30 * SECOND)
    && forall m | i < m <= j :: parts[m] == [] && s.uptime(m) < 30 * SECOND
  }

  /** Between `k` doublings of one second, capped, and that plus 249/1000 of it. */
  predicate DelayAfter(delay: nat, k: nat) {
    Min(Pow2(k) * SECOND, 60 * SECOND) <= delay && delay * 1000 <= Min(Pow2(k) * SECOND, 60 * SECOND) * 1249
  }

  lemma {:induction false} StreakIs(s: Session, parts: seq<seq<PlanEvent>>, i: nat, j: nat)
    requires i <= j < |parts| && ShortSince(s, parts, i, j)
    ensures Streak(Health(s, parts), j) == j - i
    decreases j
  {
    if i < j { StreakIs(s, parts, i, j - 1); }
  }

  /** The delays of a run, told from what its attempts delivered and how long they lasted. */
  lemma {:induction false} DelaysFromAttempts(s: Session, parts: seq<seq<PlanEvent>>, delays: seq<nat>, i: nat, j: nat)
    requires |delays| <= |parts| && DelaysFit(Health(s, parts)[..|delays|], delays, 60 * SECOND)
    requires i <= j < |delays| && ShortSince(s, parts, i, j)
    ensures DelayAfter(delays[j], j - i)
  {
    var healthy := Health(s, parts);
    StreakIs(s, parts, i, j);
    StreakPrefix(healthy[..|delays|], healthy[|delays|..], j);
    assert healthy[..|delays|] + healthy[|delays|..] == healthy;
  }

  /** Attempt `i` is judged by what came before it only. */
  lemma {:induction false} AttemptPrefix(s: Session, parts: seq<seq<PlanEvent>>, more: seq<PlanEvent>, i: nat)
    requires i <= |parts|
    ensures AnswerTo(s, parts + [more], i) == AnswerTo(s, parts, i)
    ensures i < |parts| ==> forall broke :: AttemptIs(s, parts + [more], i, broke) <==> AttemptIs(s, parts, i, broke)
  {
    assert (parts + [more])[..i] == parts[..i];
  }

  lemma {:induction false} WentOnPrefix(s: Session, parts: seq<seq<PlanEvent>>, more: seq<PlanEvent>)
    requires WentOn(s, parts, |parts|)
    ensures WentOn(s, parts + [more], |parts|)
  {
    forall i | 0 <= i < |parts| ensures GoesOn(s, parts + [more], i) {
      assert GoesOn(s, parts, i);
      AttemptPrefix(s, parts, more, i);
    }
  }

  /** One more attempt, told by `ConnectAndRead`, is an attempt of the run. */
  lemma {:induction false} OneMoreAttempt(s: Session, parts: seq<seq<PlanEvent>>, events: seq<PlanEvent>, broke: bool)
    requires WentOn(s, parts, |parts|)
    requires ConsumedUntil(s.consume, Concat(parts), Carried(s.parse, s.serve(|parts|, Highest(s.from, Concat(parts)))),
                           events, broke)
    ensures WentOn(s, parts + [events], |parts|) && AttemptIs(s, parts + [events], |parts|, broke)
    ensures AnswerTo(s, parts + [events], |parts|) == s.serve(|parts|, Highest(s.from, Concat(parts)))
    ensures Concat(parts + [events]) == Concat(parts) + events
  {
    var all := parts + [events];
    assert all[..|parts|] == parts && all[|parts|] == events;
    WentOnPrefix(s, parts, events);
  }

  lemma {:induction false} HealthNext(s: Session, parts: seq<seq<PlanEvent>>, events: seq<PlanEvent>)
    ensures Health(s, parts + [events]) == Health(s, parts) + [ResetsBackoff(events != [], s.uptime(|parts|))]
    ensures Health(s, parts + [events])[..|parts|] == Health(s, parts)
  {}

  /** What the loop knows between two attempts. */
  ghost predicate LoopInv(s: Session, log: seq<PlanEvent>, parts: seq<seq<PlanEvent>>, delivered: seq<PlanEvent>,
                          cursor: Option<nat>)
  {
    && delivered == Concat(parts) && WentOn(s, parts, |parts|)
    && InStep(s, log, delivered, cursor)
    && Willing(s.consume, delivered)
  }

  /** One pass of the loop up to its result; `any` when it delivered something. */
  method Attempt(s: Session, attempt: nat, before: seq<PlanEvent>, from: Option<nat>,
                 ghost parts: seq<seq<PlanEvent>>, ghost log: seq<PlanEvent>)
    returns (delivered: seq<PlanEvent>, cursor: Option<nat>, any: bool, broke: bool, outcome: Result<(), StreamError>,
             ghost all: seq<seq<PlanEvent>>)
    requires AnswersWellFormed(s.serve) && attempt == |parts|
    requires LoopInv(s, log, parts, before, from)
    ensures |all| == attempt + 1 && WentOn(s, all, attempt) && AttemptIs(s, all, attempt, broke)
    ensures Health(s, all) == Health(s, parts) + [ResetsBackoff(any, s.uptime(attempt))]
    ensures Health(s, all)[..attempt] == Health(s, parts)
    ensures delivered == Concat(all) && InStep(s, log, delivered, cursor)
    ensures StoppedInTime(s, delivered)
    ensures if broke then outcome.Ok? else Willing(s.consume, delivered)
    ensures (outcome.Err? && outcome.error.Unsupported?) <==> Refuses(AnswerTo(s, all, attempt))
  {
    var events;
    events, broke, outcome := ConnectAndRead(s.serve(attempt, from), s.parse, before, s.consume);
    AttemptStep(s, log, before, from, attempt, events, broke);
    OneMoreAttempt(s, parts, events, broke);
    HealthNext(s, parts, events);
    delivered, cursor, any, all := before + events, Highest(from, events), events != [], parts + [events];
  }

  /** An attempt after which the loop goes on. */
  lemma {:induction false} Continued(s: Session, log: seq<PlanEvent>, parts: seq<seq<PlanEvent>>, delivered: seq<PlanEvent>,
                                     cursor: Option<nat>, n: nat)
    requires |parts| == n + 1 && delivered == Concat(parts)
    requires InStep(s, log, delivered, cursor) && Willing(s.consume, delivered)
    requires WentOn(s, parts, n) && !s.stop(2 * n) && !s.stop(2 * n + 1)
    requires AttemptIs(s, parts, n, false) && !Refuses(AnswerTo(s, parts, n))
    ensures LoopInv(s, log, parts, delivered, cursor)
  {
    assert GoesOn(s, parts, n);
  }

  /** An attempt that ends it. */
  lemma {:induction false} EndsHere(s: Session, parts: seq<seq<PlanEvent>>, n: nat, broke: bool,
                                    result: Result<(), StreamError>)
    requires |parts| == n + 1 && WentOn(s, parts, n) && !s.stop(2 * n) && AttemptIs(s, parts, n, broke)
    requires if broke then result.Ok? else (Refuses(AnswerTo(s, parts, n)) <==> result.Err?)
    requires !broke && result.Ok? ==> s.stop(2 * n + 1)
    ensures Ended(s, parts, result)
  {
    assert EndedIn(s, parts, n, result);
  }

  /** The loop ended, or it went on through all of its first `limit` passes. */
  ghost predicate Followed(s: Session, parts: seq<seq<PlanEvent>>, limit: nat, result: Result<(), StreamError>) {
    |parts| <= limit && (Ended(s, parts, result) || (|parts| == limit && WentOn(s, parts, limit) && result.Ok?))
  }

  lemma {:induction false} StopsHere(s: Session, parts: seq<seq<PlanEvent>>, limit: nat, result: Result<(), StreamError>)
    requires WentOn(s, parts, |parts|) && result.Ok? && |parts| <= limit && (|parts| == limit || s.stop(2 * |parts|))
    ensures Followed(s, parts, limit, result)
  {}

  /** While the loop goes on, no stop was asked for: once it is, the run has ended. */
  lemma {:induction false} GoingOnMeansNoStop(s: Session, parts: seq<seq<PlanEvent>>, j: nat)
    requires WentOn(s, parts, |parts|) && j < 2 * |parts|
    ensures !s.stop(j)
  {
    assert GoesOn(s, parts, j / 2);
    assert j == 2 * (j / 2) || j == 2 * (j / 2) + 1;
  }

  /** One pass of the loop up to the wait; `more` when there is to be a wait and another pass. */
  method Pass(s: Session, attempt: nat, before: seq<PlanEvent>, from: Option<nat>,
              ghost parts: seq<seq<PlanEvent>>, ghost log: seq<PlanEvent>)
    returns (delivered: seq<PlanEvent>, cursor: Option<nat>, resets: bool, more: bool, result: Result<(), StreamError>,
             ghost all: seq<seq<PlanEvent>>)
    requires AnswersWellFormed(s.serve) && attempt == |parts| && !s.stop(2 * attempt)
    requires LoopInv(s, log, parts, before, from)
    ensures |all| == attempt + 1
    ensures if more then LoopInv(s, log, all, delivered, cursor) && result.Ok? else Ended(s, all, result)
    ensures delivered == Concat(all) && InStep(s, log, delivered, cursor) && StoppedInTime(s, delivered)
    ensures result.Err? ==> result.error.Unsupported?
    ensures Health(s, all)[..attempt] == Health(s, parts)
    ensures more ==> Health(s, all) == Health(s, parts) + [resets]
  {
    var any, broke, outcome;
    delivered, cursor, any, broke, outcome, all := Attempt(s, attempt, before, from, parts, log);
    resets, more, result := false, false, Ok(());
    if broke {
      EndsHere(s, all, attempt, broke, result);
      return;
    }
    if outcome.Err? && outcome.error.Unsupported? {
      result := outcome;
      EndsHere(s, all, attempt, broke, result);
      return;
    }
    resets := ResetsBackoff(any, s.uptime(attempt));
    if s.stop(2 * attempt + 1) {
      EndsHere(s, all, attempt, broke, result);
      return;
    }
    Continued(s, log, all, delivered, cursor, attempt);
    more := true;
  }

  /**
    The first `limit` passes of the event loop, which itself has no bound. `serve(i, c)` answers attempt `i`
    made with cursor `c`, `uptime(i)` is how long it lasted, `stop(j)` is the j-th answer of `should_stop`;
    `parts[i]` is what attempt `i` delivered.
  */
  method RunStream(s: Session, limit: nat, seed: nat, ghost log: seq<PlanEvent>)
    returns (delivered: seq<PlanEvent>, cursor: Option<nat>, delays: seq<nat>, result: Result<(), StreamError>,
             ghost parts: seq<seq<PlanEvent>>)
    requires AnswersWellFormed(s.serve)
    requires seed < U64
    ensures delivered == Concat(parts) && Followed(s, parts, limit, result)
    ensures InStep(s, log, delivered, cursor)
    ensures StoppedInTime(s, delivered)
    ensures result.Err? ==> result.error.Unsupported?
    ensures |delays| <= |parts| <= |delays| + 1
    ensures DelaysFit(Health(s, parts)[..|delays|], delays, 60 * SECOND)
    ensures forall i, j | 0 <= i <= j < |delays| && ShortSince(s, parts, i, j) :: DelayAfter(delays[j], j - i)
  {
    delivered, cursor, delays, result, parts := [], s.from, [], Ok(()), [];
    var backoff := new Backoff(60 * SECOND, seed);
    var attempts := 0;
    ghost var healthy := [];
    while attempts < limit && !s.stop(2 * attempts)
      invariant fresh(backoff) && backoff.Valid() && backoff.max == 60 * SECOND
      invariant backoff.calls == Taken(healthy) && healthy == Health(s, parts)
      invariant attempts == |parts| == |delays| && result.Ok? && attempts <= limit
      invariant LoopInv(s, log, parts, delivered, cursor) && StoppedInTime(s, delivered)
      invariant DelaysFit(healthy, delays, 60 * SECOND)
      decreases limit - attempts
    {
      var resets, more;
      delivered, cursor, resets, more, result, parts := Pass(s, attempts, delivered, cursor, parts, log);
      if !more {
        DelaysTold(s, parts, delays);
        return;
      }
      delays := Pause(backoff, resets, healthy, delays);
      healthy := healthy + [resets];
      attempts := attempts + 1;
    }
    StopsHere(s, parts, limit, result);
    assert healthy[..|delays|] == healthy;
    DelaysTold(s, parts, delays);
  }

  lemma {:induction false} DelaysTold(s: Session, parts: seq<seq<PlanEvent>>, delays: seq<nat>)
    requires |delays| <= |parts| && DelaysFit(Health(s, parts)[..|delays|], delays, 60 * SECOND)
    ensures forall i, j | 0 <= i <= j < |delays| && ShortSince(s, parts, i, j) :: DelayAfter(delays[j], j - i)
  {
    forall i, j | 0 <= i <= j < |delays| && ShortSince(s, parts, i, j) ensures DelayAfter(delays[j], j - i) {
      DelaysFromAttempts(s, parts, delays, i, j);
    }
  }

  lemma {:induction false} HistoryGrows(consume: seq<PlanEvent> -> bool, earlier: seq<PlanEvent>, events: seq<PlanEvent>,
                     carried: seq<PlanEvent>, broke: bool)
    requires Willing(consume, earlier)
    requires ConsumedUntil(consume, earlier, carried, events, broke)
    ensures broke ==> earlier + events != [] && Willing(consume, (earlier + events)[..|earlier + events| - 1])
    ensures !broke ==> Willing(consume, earlier + events)
  {
    var all := earlier + events;
    forall k | 0 < k <= |earlier| ensures Consents(consume, all, k) {
      assert Consents(consume, earlier, k);
      assert all[..k] == earlier[..k];
    }
    if broke {
      ConsentsInit(consume, all);
    }
  }

  lemma {:induction false} ConsentsInit(consume: seq<PlanEvent> -> bool, h: seq<PlanEvent>)
    requires h != [] && forall k | 0 < k < |h| :: Consents(consume, h, k)
    ensures Willing(consume, h[..|h| - 1])
  {
    var shorter := h[..|h| - 1];
    forall k | 0 < k <= |shorter| ensures Consents(consume, shorter, k) {
      assert Consents(consume, h, k);
      assert shorter[..k] == h[..k];
    }
  }

  lemma {:induction false} WillingPrefix(consume: seq<PlanEvent> -> bool, h: seq<PlanEvent>)
    requires Willing(consume, h)
    ensures h == [] || Willing(consume, h[..|h| - 1])
  {
    if h != [] { ConsentsInit(consume, h); }
  }
}
