/**
  The meaning of an event stream: lines, line kinds, the incremental parser state
  and the block semantics the parser implements (src/stream.rs).
*/
module Sse {
  import opened Wrappers
  import opened ByteStrings

  const MAX_FRAME_DATA_BYTES: nat := 64 * 1024
  const MAX_LINE_BYTES: nat := 64 * 1024

  datatype SseFrame = SseFrame(id: Option<Bytes>, event: Option<Bytes>, data: Bytes)

  const EMPTY_FRAME := SseFrame(None, None, [])

  // ---- Lines -------------------------------------------------------------

  /** Length of the first line of `s`, its line feed included when there is one. */
  function FirstLine(s: Bytes): (n: nat)
    requires s != []
    ensures 0 < n <= |s|
    ensures LF !in s[..n - 1]
    ensures s[n - 1] == LF || n == |s|
  {
    if s[0] == LF || |s| == 1 then 1
    else
      var m := FirstLine(s[1..]);
      assert s[..m] == [s[0]] + s[1..][..m - 1];
      m + 1
  }

  predicate Terminated(line: Bytes) {
    line != [] && line[|line| - 1] == LF
  }

  /** A raw line whose first MAX_LINE_BYTES + 1 bytes hold no line feed. */
  predicate TooLong(raw: Bytes) {
    |raw| > MAX_LINE_BYTES && !(|raw| == MAX_LINE_BYTES + 1 && Terminated(raw))
  }

  function DropLast(s: Bytes, b: byte): (r: Bytes) {
    if s != [] && s[|s| - 1] == b then s[..|s| - 1] else s
  }

  /** The text of a line: one line feed, then one carriage return, taken off its end. */
  function Chomp(raw: Bytes): Bytes {
    DropLast(DropLast(raw, LF), CR)
  }

  /** Well-formed UTF-8, byte range by byte range (The Unicode Standard, table 3-7). */
  predicate IsUtf8(s: Bytes)
    decreases |s|
  {
    if s == [] then true
    else if s[0] < 0x80 then IsUtf8(s[1..])
    else if 0xC2 <= s[0] <= 0xDF then
      |s| >= 2 && IsTail(s[1], 0x80, 0xBF) && IsUtf8(s[2..])
    else if 0xE0 <= s[0] <= 0xEF then
      |s| >= 3
      && IsTail(s[1], if s[0] == 0xE0 then 0xA0 else 0x80, if s[0] == 0xED then 0x9F else 0xBF)
      && IsTail(s[2], 0x80, 0xBF) && IsUtf8(s[3..])
    else if 0xF0 <= s[0] <= 0xF4 then
      |s| >= 4
      && IsTail(s[1], if s[0] == 0xF0 then 0x90 else 0x80, if s[0] == 0xF4 then 0x8F else 0xBF)
      && IsTail(s[2], 0x80, 0xBF) && IsTail(s[3], 0x80, 0xBF) && IsUtf8(s[4..])
    else false
  }

  predicate IsTail(b: byte, lo: byte, hi: byte) {
    lo <= b <= hi
  }

  const DATA_FIELD: Bytes := [100, 97, 116, 97]
  const ID_FIELD: Bytes := [105, 100]
  const EVENT_FIELD: Bytes := [101, 118, 101, 110, 116]

  /** What one line says to the parser. */
  datatype LineKind =
    | Blank
    | Skipped
    | Overlong
    | Data(value: Bytes)
    | Id(value: Bytes)
    | EventName(value: Bytes)

  function IndexOf(s: Bytes, b: byte): (i: nat)
    ensures i <= |s|
    ensures b !in s[..i]
    ensures i < |s| ==> s[i] == b
  {
    if s == [] || s[0] == b then 0
    else
      var j := IndexOf(s[1..], b);
      assert s[..j + 1] == [s[0]] + s[1..][..j];
      j + 1
  }

  function StripSpace(s: Bytes): Bytes {
    if s != [] && s[0] == SPACE then s[1..] else s
  }

  function FieldKind(field: Bytes, value: Bytes): LineKind {
    if field == DATA_FIELD then Data(value)
    else if field == ID_FIELD then Id(value)
    else if field == EVENT_FIELD then EventName(value)
    else Skipped
  }

  function TextKind(text: Bytes): LineKind {
    if !IsUtf8(text) then Skipped
    else if text == [] then Blank
    else if text[0] == COLON then Skipped
    else
      var colon := IndexOf(text, COLON);
      if colon == |text| then Skipped
      else FieldKind(text[..colon], StripSpace(text[colon + 1..]))
  }

  function Classify(raw: Bytes): LineKind {
    if TooLong(raw) then Overlong else TextKind(Chomp(raw))
  }

  /**
    The raw lines of `s`. When the connection `fails` (a read error rather than the end of
    the stream) the last line is lost unless its line feed arrived.
  */
  function Lines(s: Bytes, fails: bool): seq<Bytes>
    decreases |s|
  {
    if s == [] then []
    else
      var n := FirstLine(s);
      if fails && s[n - 1] != LF then [] else [s[..n]] + Lines(s[n..], fails)
  }

  function KindsOf(lines: seq<Bytes>): seq<LineKind> {
    seq(|lines|, i requires 0 <= i < |lines| => Classify(lines[i]))
  }

  function Kinds(s: Bytes, fails: bool): seq<LineKind> {
    KindsOf(Lines(s, fails))
  }

  lemma {:induction false} KindsOfAppend(a: seq<Bytes>, b: seq<Bytes>)
    ensures KindsOf(a + b) == KindsOf(a) + KindsOf(b)
  {}

  // ---- The incremental parser ---------------------------------------------

  datatype Parser = Parser(frame: SseFrame, oversize: bool)

  const START := Parser(EMPTY_FRAME, false)
  const DRAINING := Parser(EMPTY_FRAME, true)

  function AddData(data: Bytes, value: Bytes): Bytes {
    if data != [] then data + [LF] + value else value
  }

  function Step(p: Parser, k: LineKind): Parser {
    match k
    case Blank => START
    case Skipped => p
    case Overlong => DRAINING
    case Data(v) =>
      if p.oversize then p
      else if |AddData(p.frame.data, v)| > MAX_FRAME_DATA_BYTES then DRAINING
      else p.(frame := p.frame.(data := AddData(p.frame.data, v)))
    case Id(v) => if p.oversize then p else p.(frame := p.frame.(id := Some(v)))
    case EventName(v) => if p.oversize then p else p.(frame := p.frame.(event := Some(v)))
  }

  function Dispatched(p: Parser, k: LineKind): seq<SseFrame> {
    if k.Blank? && !p.oversize && p.frame.data != [] then [p.frame] else []
  }

  // ---- Memory --------------------------------------------------------------------

  function Size(b: Option<Bytes>): nat {
    if b.Some? then |b.value| else 0
  }

  /** Bytes of the pending frame. */
  function FrameBytes(f: SseFrame): nat {
    |f.data| + Size(f.id) + Size(f.event)
  }

  function ValueBytes(k: LineKind): nat {
    match k
    case Data(v) => |v|
    case Id(v) => |v|
    case EventName(v) => |v|
    case _ => 0
  }

  /**
    Bytes that a line adds to the frame before anything is released: data is appended before the cap is
    tested, and a new id or event name is made while the old one is still held.
  */
  function Growth(p: Parser, k: LineKind): nat {
    if p.oversize then 0
    else match k
      case Data(v) => |AddData(p.frame.data, v)| - |p.frame.data|
      case Id(v) => |v|
      case EventName(v) => |v|
      case _ => 0
  }

  /** Payload within its cap, id and event name within a line. */
  predicate FrameFits(f: SseFrame) {
    |f.data| <= MAX_FRAME_DATA_BYTES && Size(f.id) < MAX_LINE_BYTES && Size(f.event) < MAX_LINE_BYTES
  }

  lemma {:induction false} StepFits(p: Parser, k: LineKind)
    requires FrameFits(p.frame) && ValueBytes(k) < MAX_LINE_BYTES
    ensures FrameFits(Step(p, k).frame) && Growth(p, k) <= MAX_LINE_BYTES
  {}

  /** A value is shorter than the line it stands in. */
  lemma {:induction false} ValueIsShorter(text: Bytes)
    ensures ValueBytes(TextKind(text)) == 0 || ValueBytes(TextKind(text)) < |text|
  {}

  // ---- What is delivered -----------------------------------------------------------

  /** Frames the parser hands over while it reads lines of the kinds `ks` from state `p`. */
  function Emit(p: Parser, ks: seq<LineKind>): seq<SseFrame>
    decreases |ks|
  {
    if ks == [] then [] else Dispatched(p, ks[0]) + Emit(Step(p, ks[0]), ks[1..])
  }

  function Final(p: Parser, ks: seq<LineKind>): Parser
    decreases |ks|
  {
    if ks == [] then p else Final(Step(p, ks[0]), ks[1..])
  }

  /** All frames of a byte stream. */
  function Frames(s: Bytes, fails: bool): seq<SseFrame> {
    Emit(START, Kinds(s, fails))
  }

  lemma {:induction false} EmitAppend(p: Parser, ks: seq<LineKind>, ls: seq<LineKind>)
    ensures Emit(p, ks + ls) == Emit(p, ks) + Emit(Final(p, ks), ls)
    ensures Final(p, ks + ls) == Final(Final(p, ks), ls)
    decreases |ks|
  {
    if ks == [] {
      assert ks + ls == ls;
    } else {
      assert (ks + ls)[1..] == ks[1..] + ls;
      EmitAppend(Step(p, ks[0]), ks[1..], ls);
    }
  }

  // ---- Block semantics: what a run of lines between blank lines means -------

  /** The values of the data lines of a block, in order. */
  function Values(block: seq<LineKind>): seq<Bytes> {
    if block == [] then []
    else
      var k := block[|block| - 1];
      Values(block[..|block| - 1]) + if k.Data? then [k.value] else []
  }

  function LastId(block: seq<LineKind>): Option<Bytes> {
    if block == [] then None
    else
      var k := block[|block| - 1];
      if k.Id? then Some(k.value) else LastId(block[..|block| - 1])
  }

  function LastEvent(block: seq<LineKind>): Option<Bytes> {
    if block == [] then None
    else
      var k := block[|block| - 1];
      if k.EventName? then Some(k.value) else LastEvent(block[..|block| - 1])
  }

  /** The last line that names an id, or an event, decides. */
  lemma {:induction false} LastWins(block: seq<LineKind>, k: nat)
    requires k < |block|
    ensures block[k].Id? && (forall j | k < j < |block| :: !block[j].Id?) ==> LastId(block) == Some(block[k].value)
    ensures block[k].EventName? && (forall j | k < j < |block| :: !block[j].EventName?) ==>
              LastEvent(block) == Some(block[k].value)
  {
    if k < |block| - 1 { LastWins(block[..|block| - 1], k); }
  }

  /** Values joined by line feeds: section 9.2.6 of the WHATWG HTML Standard. */
  function Join(vs: seq<Bytes>): Bytes {
    if vs == [] then []
    else if |vs| == 1 then vs[0]
    else Join(vs[..|vs| - 1]) + [LF] + vs[|vs| - 1]
  }

  function DropLeadingEmpty(vs: seq<Bytes>): seq<Bytes> {
    if vs != [] && vs[0] == [] then DropLeadingEmpty(vs[1..]) else vs
  }

  /** The payload of a block: empty data lines before the first non-empty one vanish. */
  function Payload(vs: seq<Bytes>): Bytes {
    Join(DropLeadingEmpty(vs))
  }

  predicate Discarded(block: seq<LineKind>) {
    Overlong in block || |Payload(Values(block))| > MAX_FRAME_DATA_BYTES
  }

  /** The frame that a block of lines stands for, if it stands for one. */
  function Meaning(block: seq<LineKind>): seq<SseFrame> {
    if Discarded(block) || Payload(Values(block)) == [] then []
    else [SseFrame(LastId(block), LastEvent(block), Payload(Values(block)))]
  }

  function NextBlank(ks: seq<LineKind>): (i: nat)
    ensures i <= |ks|
    ensures Blank !in ks[..i]
    ensures i < |ks| ==> ks[i] == Blank
  {
    if ks == [] || ks[0] == Blank then 0
    else
      var j := NextBlank(ks[1..]);
      assert ks[..j + 1] == [ks[0]] + ks[1..][..j];
      j + 1
  }

  /** The frames of the blocks of `ks`: each block ends at a blank line; the rest is dropped. */
  function BlockFrames(ks: seq<LineKind>): seq<SseFrame>
    decreases |ks|
  {
    var i := NextBlank(ks);
    if i == |ks| then [] else Meaning(ks[..i]) + BlockFrames(ks[i + 1..])
  }

  lemma {:induction false} JoinAppend(vs: seq<Bytes>, v: Bytes)
    requires vs != []
    ensures Join(vs + [v]) == Join(vs) + [LF] + v
  {
    assert (vs + [v])[..|vs|] == vs;
  }

  lemma {:induction false} DropAppend(vs: seq<Bytes>, v: Bytes)
    ensures DropLeadingEmpty(vs + [v]) ==
            if DropLeadingEmpty(vs) == [] then (if v == [] then [] else [v])
            else DropLeadingEmpty(vs) + [v]
  {
    if vs == [] {
      assert vs + [v] == [v];
      assert [v][1..] == [];
    } else if vs[0] == [] {
      assert (vs + [v])[1..] == vs[1..] + [v];
      DropAppend(vs[1..], v);
    }
  }

  lemma {:induction false} JoinNonEmpty(vs: seq<Bytes>)
    requires vs != [] && vs[0] != []
    ensures Join(vs) != []
  {
    if |vs| > 1 {
      JoinNonEmpty(vs[..|vs| - 1]);
    }
  }

  lemma {:induction false} DropHead(vs: seq<Bytes>)
    ensures DropLeadingEmpty(vs) != [] ==> DropLeadingEmpty(vs)[0] != []
  {
    if vs != [] && vs[0] == [] {
      DropHead(vs[1..]);
    }
  }

  /** Adding a data line to a block is the parser's `AddData` on its payload. */
  lemma {:induction false} PayloadAppend(vs: seq<Bytes>, v: Bytes)
    ensures Payload(vs + [v]) == AddData(Payload(vs), v)
  {
    DropAppend(vs, v);
    DropHead(vs);
    var ws := DropLeadingEmpty(vs);
    if ws != [] {
      JoinNonEmpty(ws);
      JoinAppend(ws, v);
    }
  }

  /** The parser state that a block without blank lines leads to. */
  function BlockState(block: seq<LineKind>): Parser {
    if Discarded(block) then DRAINING
    else Parser(SseFrame(LastId(block), LastEvent(block), Payload(Values(block))), false)
  }

  lemma {:induction false} BlockStateStep(block: seq<LineKind>, k: LineKind)
    requires k != Blank
    ensures Step(BlockState(block), k) == BlockState(block + [k])
  {
    var b := block + [k];
    assert b[..|block|] == block && b[|block|] == k;
    assert Overlong in b <==> Overlong in block || k == Overlong;
    if k.Data? {
      PayloadAppend(Values(block), k.value);
    } else {
      assert Values(b) == Values(block);
    }
  }

  lemma {:induction false} BlockRun(block: seq<LineKind>)
    requires Blank !in block
    ensures Final(START, block) == BlockState(block)
    ensures Emit(START, block) == []
  {
    if block != [] {
      var init, k := block[..|block| - 1], block[|block| - 1];
      assert block == init + [k];
      BlockRun(init);
      BlockStateStep(init, k);
      EmitAppend(START, init, [k]);
      assert [k][1..] == [];
      assert Emit(BlockState(init), [k]) == Dispatched(BlockState(init), k) + [];
    }
  }

  lemma {:induction false} Around<T>(s: seq<T>, i: nat)
    requires i < |s|
    ensures s == s[..i] + ([s[i]] + s[i + 1..])
  {}

  /** At the end of a block its meaning is dispatched and the parser starts afresh. */
  lemma {:induction false} AtBlank(block: seq<LineKind>, rest: seq<LineKind>)
    ensures Emit(BlockState(block), [Blank] + rest) == Meaning(block) + Emit(START, rest)
  {
    assert ([Blank] + rest)[1..] == rest;
    assert Dispatched(BlockState(block), Blank) == Meaning(block);
  }

  /** Up to the first blank line the parser delivers the meaning of the first block. */
  lemma {:induction false} FirstBlock(ks: seq<LineKind>, i: nat)
    requires i < |ks| && Blank !in ks[..i] && ks[i] == Blank
    ensures Emit(START, ks) == Meaning(ks[..i]) + Emit(START, ks[i + 1..])
  {
    var block, rest := ks[..i], ks[i + 1..];
    BlockRun(block);
    Around(ks, i);
    EmitAppend(START, block, [Blank] + rest);
    AtBlank(block, rest);
  }

  lemma {:induction false} NoBlock(ks: seq<LineKind>)
    requires NextBlank(ks) == |ks|
    ensures Emit(START, ks) == [] && BlockFrames(ks) == []
  {
    assert ks[..|ks|] == ks;
    BlockRun(ks);
  }

  lemma {:induction false} BlocksUnfold(ks: seq<LineKind>, i: nat)
    requires i == NextBlank(ks) < |ks|
    ensures BlockFrames(ks) == Meaning(ks[..i]) + BlockFrames(ks[i + 1..])
  {}

  /** The line-by-line parser delivers exactly the frames of the block semantics. */
  lemma {:induction false} ParserMeetsBlocks(ks: seq<LineKind>)
    ensures Emit(START, ks) == BlockFrames(ks)
    decreases |ks|
  {
    var i := NextBlank(ks);
    if i == |ks| {
      NoBlock(ks);
    } else {
      ParserMeetsBlocks(ks[i + 1..]);
      BlocksUnfold(ks, i);
      FirstBlock(ks, i);
    }
  }

  /** The block that is still open after `ks`: the lines since the last blank one. */
  function OpenBlock(ks: seq<LineKind>): seq<LineKind> {
    if ks == [] || ks[|ks| - 1] == Blank then [] else OpenBlock(ks[..|ks| - 1]) + [ks[|ks| - 1]]
  }

  /** A blank line after `ks` would dispatch the meaning of the open block. */
  lemma {:induction false} OpenBlockPending(ks: seq<LineKind>)
    ensures Blank !in OpenBlock(ks)
    ensures Final(START, ks) == BlockState(OpenBlock(ks))
    ensures Dispatched(Final(START, ks), Blank) == Meaning(OpenBlock(ks))
  {
    if ks != [] {
      var init, k := ks[..|ks| - 1], ks[|ks| - 1];
      assert ks == init + [k] && [k][1..] == [];
      OpenBlockPending(init);
      EmitAppend(START, init, [k]);
      if k != Blank { BlockStateStep(OpenBlock(init), k); }
    }
  }

  /** Every delivered frame has a non-empty payload within the cap. */
  lemma {:induction false} FramesWithinCap(p: Parser, ks: seq<LineKind>)
    requires |p.frame.data| <= MAX_FRAME_DATA_BYTES
    ensures forall f | f in Emit(p, ks) :: 0 < |f.data| <= MAX_FRAME_DATA_BYTES
    decreases |ks|
  {
    if ks != [] {
      FramesWithinCap(Step(p, ks[0]), ks[1..]);
    }
  }

  lemma {:induction false} JoinOneMore(vs: seq<Bytes>)
    requires |vs| >= 2 && vs[0] == []
    ensures Join(vs) == [LF] + Join(vs[1..])
  {
    if |vs| == 2 {
      assert vs[..1] == [vs[0]];
      assert vs[1..] == [vs[1]];
      assert Join(vs) == Join(vs[..1]) + [LF] + vs[1];
    } else {
      var n := |vs| - 1;
      JoinOneMore(vs[..n]);
      assert vs[..n][1..] == vs[1..][..n - 1];
      assert vs[1..][n - 1] == vs[n];
    }
  }

  lemma {:induction false} PayloadNoLonger(vs: seq<Bytes>)
    ensures |Payload(vs)| <= |Join(vs)|
  {
    if vs != [] && vs[0] == [] {
      PayloadNoLonger(vs[1..]);
      if |vs| >= 2 {
        JoinOneMore(vs);
      }
    }
  }

  /**
    The payload is the standard's joined data exactly when the block does not start with
    an empty data line that another data line follows.
  */
  lemma {:induction false} PayloadMeetsStandardIff(vs: seq<Bytes>)
    ensures Payload(vs) == Join(vs) <==> |vs| <= 1 || vs[0] != []
  {
    if vs != [] && vs[0] == [] {
      var rest := vs[1..];
      assert DropLeadingEmpty(vs) == DropLeadingEmpty(rest);
      if |vs| == 1 {
        assert rest == [];
      } else {
        JoinOneMore(vs);
        PayloadNoLonger(rest);
      }
    }
  }

  // ---- Splitting the input --------------------------------------------------

  lemma {:induction false} FirstLineIs(s: Bytes, n: nat)
    requires 0 < n <= |s|
    requires LF !in s[..n - 1]
    requires s[n - 1] == LF || n == |s|
    ensures FirstLine(s) == n
  {
  }

  lemma {:induction false} FirstLineOfAppend(a: Bytes, b: Bytes)
    requires Terminated(a)
    ensures FirstLine(a + b) == FirstLine(a)
    ensures (a + b)[FirstLine(a)..] == a[FirstLine(a)..] + b
    ensures (a + b)[..FirstLine(a)] == a[..FirstLine(a)]
    ensures a[FirstLine(a)..] == [] || Terminated(a[FirstLine(a)..])
    ensures a[FirstLine(a) - 1] == LF && (a + b)[FirstLine(a) - 1] == LF
  {
    var n := FirstLine(a);
    assert (a + b)[..n - 1] == a[..n - 1];
    FirstLineIs(a + b, n);
  }

  lemma {:induction false} ConcatAssoc<T>(x: seq<T>, y: seq<T>, z: seq<T>)
    ensures x + (y + z) == x + y + z
  {}

  lemma {:induction false} LinesUnfold(s: Bytes, fails: bool)
    requires s != [] && (fails ==> s[FirstLine(s) - 1] == LF)
    ensures Lines(s, fails) == [s[..FirstLine(s)]] + Lines(s[FirstLine(s)..], fails)
  {}

  /** Input cut after a line feed has the lines of both sides of the cut. */
  lemma {:induction false} LinesAppend(a: Bytes, b: Bytes, fails: bool)
    requires a == [] || Terminated(a)
    ensures Lines(a + b, fails) == Lines(a, fails) + Lines(b, fails)
    decreases |a|
  {
    if a == [] {
      assert a + b == b;
    } else {
      FirstLineOfAppend(a, b);
      LinesUnfold(a, fails);
      LinesUnfold(a + b, fails);
      LinesAppend(a[FirstLine(a)..], b, fails);
      ConcatAssoc([a[..FirstLine(a)]], Lines(a[FirstLine(a)..], fails), Lines(b, fails));
    }
  }

  lemma {:induction false} KindsAppend(a: Bytes, b: Bytes, fails: bool)
    requires a == [] || Terminated(a)
    ensures Kinds(a + b, fails) == Kinds(a, fails) + Kinds(b, fails)
  {
    LinesAppend(a, b, fails);
    KindsOfAppend(Lines(a, fails), Lines(b, fails));
  }

  /** An input that is one line has the kind of that line. */
  lemma {:induction false} SingleLine(line: Bytes, fails: bool)
    requires line != [] && FirstLine(line) == |line|
    requires fails ==> Terminated(line)
    ensures Kinds(line, fails) == [Classify(line)]
  {
    LinesUnfold(line, fails);
    assert line[..|line|] == line && line[|line|..] == [];
    KindsOfOne(line);
  }

  lemma {:induction false} KindsOfOne(line: Bytes)
    ensures KindsOf([line] + []) == [Classify(line)]
  {}

  lemma {:induction false} BlankLineKind(t: Bytes, fails: bool)
    requires t == [LF] || t == [CR, LF]
    ensures Kinds(t, fails) == [Blank]
  {
    FirstLineIs(t, |t|);
    SingleLine(t, fails);
    assert DropLast(t, LF) == if t == [LF] then [] else [CR];
    assert Chomp(t) == [];
  }

  /**
    The parse is compositional at blank lines: after `head` and a blank line, whatever came
    before (an overlong line or frame included) leaves no trace.
  */
  lemma {:induction false} SplitAtBlankLine(head: Bytes, blank: Bytes, tail: Bytes, fails: bool)
    requires head == [] || Terminated(head)
    requires blank == [LF] || blank == [CR, LF]
    ensures Frames(head + blank + tail, fails) == Frames(head + blank, fails) + Frames(tail, fails)
  {
    var a := head + blank;
    KindsAppend(head, blank, fails);
    BlankLineKind(blank, fails);
    KindsAppend(a, tail, fails);
    EmitAppend(START, Kinds(a, fails), Kinds(tail, fails));
    EmitAppend(START, Kinds(head, fails), [Blank]);
    assert [Blank][1..] == [];
    assert Final(Final(START, Kinds(head, fails)), [Blank]) == START;
  }
}
