/** Events as the server writes them, and their way back through the parser (tests/stream.rs:29-40). */
module SseEncode {
  import opened Wrappers
  import opened ByteStrings
  import opened Sse

  function FieldLine(field: Bytes, value: Bytes): Bytes {
    field + [COLON, SPACE] + value + [LF]
  }

  function OptionalLine(field: Bytes, value: Option<Bytes>): Bytes {
    match value
    case None => []
    case Some(v) => FieldLine(field, v)
  }

  function Encode(f: SseFrame): Bytes {
    OptionalLine(ID_FIELD, f.id) + OptionalLine(EVENT_FIELD, f.event) + FieldLine(DATA_FIELD, f.data) + [LF]
  }

  /** A value that one field line can carry: text within the line cap, on one line. */
  predicate Carriable(v: Bytes) {
    && IsUtf8(v) && LF !in v
    && (v != [] ==> v[|v| - 1] != CR)
    && |v| <= MAX_LINE_BYTES - 7
  }

  predicate Encodable(f: SseFrame) {
    && (f.id.Some? ==> Carriable(f.id.value))
    && (f.event.Some? ==> Carriable(f.event.value))
    && Carriable(f.data) && f.data != []
  }

  lemma {:induction false} AsciiPrefix(a: Bytes, v: Bytes)
    requires forall b | b in a :: b < 0x80
    ensures IsUtf8(a + v) <==> IsUtf8(v)
  {
    if a == [] {
      assert a + v == v;
    } else {
      assert a[0] in a && (a + v)[0] == a[0];
      assert (a + v)[1..] == a[1..] + v;
      assert forall b | b in a[1..] :: b in a;
      AsciiPrefix(a[1..], v);
    }
  }

  lemma {:induction false} IndexOfIs(s: Bytes, b: byte, i: nat)
    requires i < |s| && b !in s[..i] && s[i] == b
    ensures IndexOf(s, b) == i
  {}

  predicate KnownField(field: Bytes) {
    field == DATA_FIELD || field == ID_FIELD || field == EVENT_FIELD
  }

  lemma {:induction false} FieldFacts(field: Bytes)
    requires KnownField(field)
    ensures 2 <= |field| <= 5 && field[0] != COLON
    ensures LF !in field && COLON !in field && forall b | b in field :: b < 0x80
  {}

  lemma {:induction false} FieldLineChomped(field: Bytes, v: Bytes)
    requires KnownField(field) && Carriable(v)
    ensures Chomp(FieldLine(field, v)) == field + [COLON, SPACE] + v
    ensures !TooLong(FieldLine(field, v))
    ensures FirstLine(FieldLine(field, v)) == |FieldLine(field, v)|
  {
    FieldFacts(field);
    ChompedText(field + [COLON, SPACE] + v);
  }

  lemma {:induction false} ChompedText(text: Bytes)
    requires text != [] && text[|text| - 1] != CR && LF !in text && |text| <= MAX_LINE_BYTES
    ensures Chomp(text + [LF]) == text && !TooLong(text + [LF])
    ensures FirstLine(text + [LF]) == |text + [LF]|
  {
    var line := text + [LF];
    assert line[..|line| - 1] == text;
    FirstLineIs(line, |line|);
  }

  /** A field line is read back as the field and value it was written from. */
  lemma {:induction false} FieldLineRoundTrip(field: Bytes, v: Bytes)
    requires KnownField(field) && Carriable(v)
    ensures Classify(FieldLine(field, v)) == FieldKind(field, v)
  {
    FieldFacts(field);
    FieldLineChomped(field, v);
    AsciiPrefix(field + [COLON, SPACE], v);
    SplitAtColon(field, v);
  }

  lemma {:induction false} SplitAtColon(field: Bytes, v: Bytes)
    requires COLON !in field
    ensures var text := field + [COLON, SPACE] + v;
      && IndexOf(text, COLON) == |field| < |text|
      && text[..|field|] == field && StripSpace(text[|field| + 1..]) == v
  {
    var text := field + [COLON, SPACE] + v;
    assert text[..|field|] == field;
    IndexOfIs(text, COLON, |field|);
    assert text[|field| + 1..] == [SPACE] + v;
    assert ([SPACE] + v)[1..] == v;
  }

  lemma {:induction false} FieldLineKinds(field: Bytes, v: Bytes, tail: Bytes, fails: bool)
    requires KnownField(field) && Carriable(v)
    ensures Kinds(FieldLine(field, v) + tail, fails) == [FieldKind(field, v)] + Kinds(tail, fails)
  {
    var line := FieldLine(field, v);
    FieldLineChomped(field, v);
    FieldLineRoundTrip(field, v);
    SingleLine(line, fails);
    KindsAppend(line, tail, fails);
  }

  function OptionalKind(field: Bytes, value: Option<Bytes>): seq<LineKind> {
    match value
    case None => []
    case Some(v) => [FieldKind(field, v)]
  }

  lemma {:induction false} OptionalLineKinds(field: Bytes, value: Option<Bytes>, tail: Bytes, fails: bool)
    requires KnownField(field) && (value.Some? ==> Carriable(value.value))
    ensures Kinds(OptionalLine(field, value) + tail, fails) == OptionalKind(field, value) + Kinds(tail, fails)
  {
    match value
    case None => assert [] + tail == tail;
    case Some(v) => FieldLineKinds(field, v, tail, fails);
  }

  lemma {:induction false} EncodedKinds(f: SseFrame, tail: Bytes, fails: bool)
    requires Encodable(f)
    ensures Kinds(Encode(f) + tail, fails) ==
            OptionalKind(ID_FIELD, f.id) + (OptionalKind(EVENT_FIELD, f.event) + ([Data(f.data), Blank] + Kinds(tail, fails)))
  {
    var t3 := [LF] + tail;
    var t2 := FieldLine(DATA_FIELD, f.data) + t3;
    var t1 := OptionalLine(EVENT_FIELD, f.event) + t2;
    Regroup(OptionalLine(ID_FIELD, f.id), OptionalLine(EVENT_FIELD, f.event), FieldLine(DATA_FIELD, f.data), [LF], tail);
    OptionalLineKinds(ID_FIELD, f.id, t1, fails);
    OptionalLineKinds(EVENT_FIELD, f.event, t2, fails);
    FieldLineKinds(DATA_FIELD, f.data, t3, fails);
    BlankLineKind([LF], fails);
    KindsAppend([LF], tail, fails);
    Sse.ConcatAssoc([Data(f.data)], [Blank], Kinds(tail, fails));
    assert [Data(f.data)] + [Blank] == [Data(f.data), Blank];
  }

  lemma {:induction false} Regroup<T>(a: seq<T>, b: seq<T>, c: seq<T>, d: seq<T>, e: seq<T>)
    ensures a + b + c + d + e == a + (b + (c + (d + e)))
  {}

  lemma {:induction false} ParsedBlock(id: Option<Bytes>, event: Option<Bytes>, data: Bytes)
    requires 0 < |data| <= MAX_FRAME_DATA_BYTES
    ensures var block := OptionalKind(ID_FIELD, id) + (OptionalKind(EVENT_FIELD, event) + [Data(data), Blank]);
      Emit(START, block) == [SseFrame(id, event, data)] && Final(START, block) == START
  {
    var p1 := START.(frame := EMPTY_FRAME.(id := id));
    var p2 := p1.(frame := p1.frame.(event := event));
    var p3 := p2.(frame := p2.frame.(data := data));
    var ending := [Data(data), Blank];
    assert Step(p2, Data(data)) == p3;
    EmitTwo(p2, Data(data), Blank);
    var events := OptionalKind(EVENT_FIELD, event);
    EmitAppend(p1, events, ending);
    if event.Some? { EmitAtOne(p1, events[0]); }
    var ids := OptionalKind(ID_FIELD, id);
    EmitAppend(START, ids, events + ending);
    if id.Some? { EmitAtOne(START, ids[0]); }
  }

  lemma {:induction false} EmitAtOne(p: Parser, k: LineKind)
    ensures Emit(p, [k]) == Dispatched(p, k) && Final(p, [k]) == Step(p, k)
  {
    assert [k][1..] == [];
  }

  lemma {:induction false} EmitTwo(p: Parser, k: LineKind, l: LineKind)
    ensures Emit(p, [k, l]) == Dispatched(p, k) + Dispatched(Step(p, k), l)
    ensures Final(p, [k, l]) == Step(Step(p, k), l)
  {
    assert [k, l] == [k] + [l];
    EmitAppend(p, [k], [l]);
    EmitAtOne(p, k);
    EmitAtOne(Step(p, k), l);
  }

  /** An encoded event followed by any input parses to that event, then to the rest. */
  lemma {:induction false} FrameRoundTrip(f: SseFrame, tail: Bytes, fails: bool)
    requires Encodable(f)
    ensures Frames(Encode(f) + tail, fails) == [f] + Frames(tail, fails)
  {
    EncodedKinds(f, tail, fails);
    ParsedBlock(f.id, f.event, f.data);
    var ids, events, ks := OptionalKind(ID_FIELD, f.id), OptionalKind(EVENT_FIELD, f.event), Kinds(tail, fails);
    Sse.ConcatAssoc(events, [Data(f.data), Blank], ks);
    Sse.ConcatAssoc(ids, events + [Data(f.data), Blank], ks);
    EmitAppend(START, ids + (events + [Data(f.data), Blank]), ks);
  }

  function EncodeAll(fs: seq<SseFrame>): Bytes {
    if fs == [] then [] else Encode(fs[0]) + EncodeAll(fs[1..])
  }

  /** A whole stream of encoded events parses back to exactly those events. */
  lemma {:induction false} StreamRoundTrip(fs: seq<SseFrame>, fails: bool)
    requires forall f | f in fs :: Encodable(f)
    ensures Frames(EncodeAll(fs), fails) == fs
  {
    if fs != [] {
      assert fs[0] in fs;
      FrameRoundTrip(fs[0], EncodeAll(fs[1..]), fails);
      StreamRoundTrip(fs[1..], fails);
    }
  }

  // ---- A stream cut at an arbitrary byte ------------------------------------

  /** The complete lines at the head of `s`: everything up to its last line feed. */
  function Complete(s: Bytes): (n: nat)
    ensures n <= |s|
    ensures s[..n] == [] || Terminated(s[..n])
    ensures LF !in s[n..]
  {
    if s == [] then 0
    else if s[|s| - 1] == LF then
      assert s[..|s|] == s;
      |s|
    else
      var m := |s| - 1;
      var n := Complete(s[..m]);
      assert s[..m][..n] == s[..n];
      assert s[n..] == s[..m][n..] + [s[m]];
      n
  }

  lemma {:induction false} UnterminatedKinds(t: Bytes)
    requires t != [] && LF !in t
    ensures Kinds(t, true) == []
    ensures Kinds(t, false) == [Classify(t)]
  {
    assert LF !in t[..|t| - 1];
    FirstLineIs(t, |t|);
    assert t[|t| - 1] in t;
    assert Lines(t, true) == [];
    SingleLine(t, false);
  }

  lemma {:induction false} LoneReturnOnly(t: Bytes)
    requires t != [] && LF !in t && t != [CR]
    ensures Classify(t) != Blank
  {
    assert t[|t| - 1] in t;
  }

  /** The input stops in a lone carriage return, and the block it left open has a meaning. */
  predicate TornReturn(arrived: Bytes) {
    && arrived[Complete(arrived)..] == [CR]
    && Meaning(OpenBlock(Kinds(arrived[..Complete(arrived)], false))) != []
  }

  /** The frames of the part of a stream that arrived before a cut are the first of its frames. */
  lemma {:induction false} CutDeliversPrefix(arrived: Bytes, lost: Bytes, fails: bool)
    requires fails || !TornReturn(arrived)
    ensures Frames(arrived, fails) <= Frames(arrived + lost, false)
  {
    var n := Complete(arrived);
    var a, t := arrived[..n], arrived[n..];
    var p := Final(START, Kinds(a, false));
    assert arrived == a + t;
    OpenBlockPending(Kinds(a, false));
    Sse.ConcatAssoc(a, t, lost);
    CompleteLines(a, fails);
    FramesAfter(a, t, fails);
    FramesAfter(a, t + lost, false);
    TailIsSilent(p, t, fails);
  }

  lemma {:induction false} FramesAfter(a: Bytes, rest: Bytes, fails: bool)
    requires (a == [] || Terminated(a)) && Kinds(a, fails) == Kinds(a, false)
    ensures Frames(a + rest, fails)
            == Emit(START, Kinds(a, false)) + Emit(Final(START, Kinds(a, false)), Kinds(rest, fails))
  {
    KindsAppend(a, rest, fails);
    EmitAppend(START, Kinds(a, false), Kinds(rest, fails));
  }

  /** An unterminated last line dispatches nothing unless it is a torn carriage return. */
  lemma {:induction false} TailIsSilent(p: Parser, t: Bytes, fails: bool)
    requires LF !in t
    requires fails || t != [CR] || Dispatched(p, Blank) == []
    ensures Emit(p, Kinds(t, fails)) == []
  {
    if t == [] {
      assert Lines(t, fails) == [];
    } else {
      UnterminatedKinds(t);
      if !fails {
        if t != [CR] { LoneReturnOnly(t); }
        EmitAtOne(p, Classify(t));
        TornReturnKinds();
      }
    }
  }

  lemma {:induction false} CompleteLinesSame(a: Bytes, fails: bool)
    requires a == [] || Terminated(a)
    ensures Lines(a, fails) == Lines(a, false)
    decreases |a|
  {
    if a != [] {
      assert a + [] == a;
      FirstLineOfAppend(a, []);
      CompleteLinesSame(a[FirstLine(a)..], fails);
    }
  }

  lemma {:induction false} CompleteLines(a: Bytes, fails: bool)
    requires a == [] || Terminated(a)
    ensures Kinds(a, fails) == Kinds(a, false)
  {
    CompleteLinesSame(a, fails);
  }

  lemma {:induction false} TornReturnKinds()
    ensures Classify([CR]) == Blank
    ensures Classify([CR, 120, LF]) != Blank
    ensures Kinds([CR, 120, LF], false) == [Classify([CR, 120, LF])]
  {
    assert [CR][..0] == [];
    assert Chomp([CR]) == [];
    var line: Bytes := [CR, 120, LF];
    assert line[..2] == [CR, 120];
    assert Chomp(line) == [CR, 120];
    FirstLineIs(line, 3);
    SingleLine(line, false);
  }

  /** A torn carriage return counts as a blank line here, but may begin a longer one. */
  lemma {:induction false} TornReturnDispatchesEarly(arrived: Bytes)
    requires TornReturn(arrived)
    ensures !(Frames(arrived, false) <= Frames(arrived + [120, LF], false))
  {
    var n := Complete(arrived);
    var a := arrived[..n];
    var p := Final(START, Kinds(a, false));
    assert arrived == a + [CR] && arrived + [120, LF] == a + [CR, 120, LF];
    OpenBlockPending(Kinds(a, false));
    KindsAppend(a, [CR], false);
    KindsAppend(a, [CR, 120, LF], false);
    TornReturnKinds();
    UnterminatedKinds([CR]);
    EmitAppend(START, Kinds(a, false), [Blank]);
    EmitAppend(START, Kinds(a, false), [Classify([CR, 120, LF])]);
    EmitAtOne(p, Blank);
    EmitAtOne(p, Classify([CR, 120, LF]));
  }

  /**
    A stream that ends cleanly at an arbitrary byte delivers a prefix of its frames, whatever
    was lost, exactly when it was not torn after a carriage return with a frame pending.
  */
  lemma {:induction false} CleanCutIsSafeIff(arrived: Bytes)
    ensures (forall lost :: Frames(arrived, false) <= Frames(arrived + lost, false)) <==> !TornReturn(arrived)
  {
    if TornReturn(arrived) {
      TornReturnDispatchesEarly(arrived);
    } else {
      forall lost ensures Frames(arrived, false) <= Frames(arrived + lost, false) {
        CutDeliversPrefix(arrived, lost, false);
      }
    }
  }
}
