/**
  How the lines of an event stream may be written, and what each then says (src/stream.rs:239-305): the one
  optional space after the colon, both line ends, and the cap on a line.
*/
module SseLines {
  import opened ByteStrings
  import opened Sse
  import opened SseEncode

  // ---- Line ends -----------------------------------------------------------------------

  /** A line without its line feed, whatever follows it. */
  predicate OneLine(text: Bytes) {
    LF !in text && (text != [] ==> text[|text| - 1] != CR)
  }

  /** The text of a line is what is left of it without its line end, which may be either of two or missing. */
  lemma {:induction false} ChompIff(raw: Bytes, text: Bytes)
    ensures Chomp(raw) == text <==>
              || raw == text + [CR, LF] || raw == text + [CR]
              || ((text != [] ==> text[|text| - 1] != CR) && (raw == text + [LF] || (raw == text && !Terminated(raw))))
  {
    var bare := DropLast(raw, LF);
    if Terminated(raw) { assert raw == bare + [LF]; }
    if bare != [] && bare[|bare| - 1] == CR { assert bare == bare[..|bare| - 1] + [CR]; }
    assert text + [CR, LF] == (text + [CR]) + [LF];
    assert DropLast(text + [LF], LF) == text && DropLast(text + [CR], CR) == text;
    assert DropLast((text + [CR]) + [LF], LF) == text + [CR];
  }

  /** A line is over its cap exactly if it is longer than that without its line feed. */
  lemma {:induction false} OverlongIff(content: Bytes)
    requires LF !in content
    ensures Classify(content + [LF]) == Overlong <==> |content| > MAX_LINE_BYTES
    ensures Classify(content) == Overlong <==> |content| > MAX_LINE_BYTES
  {
    TextIsNotOverlong(Chomp(content + [LF]));
    TextIsNotOverlong(Chomp(content));
    assert content != [] ==> content[|content| - 1] in content;
  }

  /** A blank line is nothing but a line end. */
  lemma {:induction false} BlankIff(raw: Bytes)
    ensures Classify(raw) == Blank <==> raw in {[], [LF], [CR], [CR, LF]}
  {
    ChompIff(raw, []);
    assert [] + [CR, LF] == [CR, LF] && [] + [CR] == [CR] && [] + [LF] == [LF];
  }

  lemma {:induction false} TextIsNotOverlong(text: Bytes)
    ensures TextKind(text) != Overlong
  {}

  // ---- Fields --------------------------------------------------------------------------

  /** One space after the colon belongs to the colon; more are part of the value. */
  predicate Spelled(text: Bytes, field: Bytes, v: Bytes) {
    text == field + [COLON, SPACE] + v || (text == field + [COLON] + v && (v != [] ==> v[0] != SPACE))
  }

  lemma {:induction false} SpelledIff(text: Bytes, field: Bytes, v: Bytes)
    requires COLON !in field
    ensures Spelled(text, field, v) <==>
              IndexOf(text, COLON) == |field| < |text| && text[..|field|] == field && StripSpace(text[|field| + 1..]) == v
  {
    var n := |field|;
    if Spelled(text, field, v) {
      assert text[..n] == field && text[n] == COLON;
      IndexOfIs(text, COLON, n);
      if text == field + [COLON, SPACE] + v {
        assert text[n + 1..] == [SPACE] + v;
        assert ([SPACE] + v)[1..] == v;
      } else {
        assert text[n + 1..] == v;
      }
    }
    if IndexOf(text, COLON) == n < |text| && text[..n] == field && StripSpace(text[n + 1..]) == v {
      var rest := text[n + 1..];
      assert text == text[..n] + [text[n]] + rest;
      if rest != [] && rest[0] == SPACE {
        assert rest == [SPACE] + v;
        assert text == field + [COLON, SPACE] + v;
      }
    }
  }

  lemma {:induction false} FieldTextIff(text: Bytes, field: Bytes, v: Bytes)
    requires KnownField(field)
    ensures TextKind(text) == FieldKind(field, v) <==> IsUtf8(text) && Spelled(text, field, v)
  {
    FieldFacts(field);
    SpelledIff(text, field, v);
    if TextKind(text) == FieldKind(field, v) {
      var colon := IndexOf(text, COLON);
      assert text[..colon] == field;
    }
    if Spelled(text, field, v) { assert text[0] == field[0]; }
  }

  /** Main result: what each text says, exactly. Any other text says nothing. */
  lemma {:induction false} TextMeaning(text: Bytes, v: Bytes)
    ensures TextKind(text) == Blank <==> text == []
    ensures TextKind(text) == Data(v) <==> IsUtf8(text) && Spelled(text, DATA_FIELD, v)
    ensures TextKind(text) == Id(v) <==> IsUtf8(text) && Spelled(text, ID_FIELD, v)
    ensures TextKind(text) == EventName(v) <==> IsUtf8(text) && Spelled(text, EVENT_FIELD, v)
    ensures TextKind(text) != Overlong
  {
    FieldTextIff(text, DATA_FIELD, v);
    FieldTextIff(text, ID_FIELD, v);
    FieldTextIff(text, EVENT_FIELD, v);
    TextIsNotOverlong(text);
  }

  // ---- Streams written differently ------------------------------------------------------

  /** A line that gives `field` the value `v`, however it is spelled and ended. */
  ghost predicate Gives(raw: Bytes, field: Bytes, v: Bytes) {
    && KnownField(field) && IsUtf8(v) && OneLine(v) && |raw| <= MAX_LINE_BYTES + 1
    && exists text :: Spelled(text, field, v) && (raw == text + [LF] || raw == text + [CR, LF])
  }

  lemma {:induction false} SpelledFacts(text: Bytes, field: Bytes, v: Bytes)
    requires KnownField(field) && IsUtf8(v) && OneLine(v) && Spelled(text, field, v)
    ensures IsUtf8(text) && OneLine(text) && text != []
  {
    FieldFacts(field);
    if text == field + [COLON, SPACE] + v {
      AsciiPrefix(field + [COLON, SPACE], v);
    } else {
      AsciiPrefix(field + [COLON], v);
    }
  }

  /** Whatever the spelling and the line end, the line says that the field has this value. */
  lemma {:induction false} GivesIsRead(raw: Bytes, field: Bytes, v: Bytes)
    requires Gives(raw, field, v)
    ensures Classify(raw) == FieldKind(field, v) && FirstLine(raw) == |raw| && Terminated(raw)
  {
    var text :| Spelled(text, field, v) && (raw == text + [LF] || raw == text + [CR, LF]);
    SpelledFacts(text, field, v);
    LineOfText(raw, text);
    FieldTextIff(text, field, v);
  }

  lemma {:induction false} LineOfText(raw: Bytes, text: Bytes)
    requires OneLine(text) && |raw| <= MAX_LINE_BYTES + 1 && (raw == text + [LF] || raw == text + [CR, LF])
    ensures Classify(raw) == TextKind(text) && FirstLine(raw) == |raw| && Terminated(raw)
  {
    ChompIff(raw, text);
    FirstLineIs(raw, |raw|);
  }

  lemma {:induction false} LineEndIsOneLine(raw: Bytes)
    requires raw in {[LF], [CR, LF]}
    ensures FirstLine(raw) == |raw| && Terminated(raw) && Classify(raw) == Blank
  {
    BlankIff(raw);
    FirstLineIs(raw, |raw|);
  }

  /** Both stand for themselves and say one thing. */
  lemma {:induction false} SameIsRead(a: Bytes, b: Bytes)
    requires SaysTheSame(a, b)
    ensures a != [] && FirstLine(a) == |a| && Terminated(a)
    ensures b != [] && FirstLine(b) == |b| && Terminated(b)
    ensures Classify(a) == Classify(b)
  {
    if field, v :| Gives(a, field, v) && Gives(b, field, v) {
      GivesIsRead(a, field, v);
      GivesIsRead(b, field, v);
    } else if a in {[LF], [CR, LF]} && b in {[LF], [CR, LF]} {
      LineEndIsOneLine(a);
      LineEndIsOneLine(b);
    }
  }

  /** The same line, two line ends, or two ways to give a field the same value. */
  ghost predicate SaysTheSame(a: Bytes, b: Bytes) {
    || (a == b && a != [] && FirstLine(a) == |a| && Terminated(a))
    || (a in {[LF], [CR, LF]} && b in {[LF], [CR, LF]})
    || exists field, v :: Gives(a, field, v) && Gives(b, field, v)
  }

  function Written(lines: seq<Bytes>): Bytes {
    if lines == [] then [] else lines[0] + Written(lines[1..])
  }

  lemma {:induction false} WrittenKinds(line: Bytes, lines: seq<Bytes>, tail: Bytes, fails: bool)
    requires line != [] && FirstLine(line) == |line| && Terminated(line)
    ensures Kinds(Written([line] + lines) + tail, fails) == [Classify(line)] + Kinds(Written(lines) + tail, fails)
  {
    assert ([line] + lines)[1..] == lines;
    assert Written([line] + lines) + tail == line + (Written(lines) + tail);
    SingleLine(line, fails);
    KindsAppend(line, Written(lines) + tail, fails);
  }

  ghost predicate SayTheSame(a: seq<Bytes>, b: seq<Bytes>) {
    |a| == |b| && forall i | 0 <= i < |a| :: SaysTheSame(a[i], b[i])
  }

  lemma {:induction false} SameTail(a: seq<Bytes>, b: seq<Bytes>)
    requires SayTheSame(a, b) && a != []
    ensures SaysTheSame(a[0], b[0]) && SayTheSame(a[1..], b[1..])
    ensures a == [a[0]] + a[1..] && b == [b[0]] + b[1..]
  {}

  lemma {:induction false} RespelledKinds(a: seq<Bytes>, b: seq<Bytes>, tail: Bytes, fails: bool)
    requires SayTheSame(a, b)
    ensures Kinds(Written(a) + tail, fails) == Kinds(Written(b) + tail, fails)
  {
    if a != [] {
      SameTail(a, b);
      SameIsRead(a[0], b[0]);
      RespelledKinds(a[1..], b[1..], tail, fails);
      WrittenKinds(a[0], a[1..], tail, fails);
      WrittenKinds(b[0], b[1..], tail, fails);
    }
  }

  /** Main result: writing fields with or without the space, and lines with either line end, delivers the same frames. */
  lemma {:induction false} RespelledStream(a: seq<Bytes>, b: seq<Bytes>, tail: Bytes, fails: bool)
    requires SayTheSame(a, b)
    ensures Frames(Written(a) + tail, fails) == Frames(Written(b) + tail, fails)
  {
    RespelledKinds(a, b, tail, fails);
  }
}
