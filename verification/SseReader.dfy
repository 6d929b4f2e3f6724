/** `read_frames` over a buffered reader with arbitrary chunks (src/stream.rs:231-331). */
module SseReader {
  import opened Wrappers
  import opened ByteStrings
  import opened Numbers
  import opened Sse

  function Flatten(chunks: seq<Bytes>): Bytes {
    if chunks == [] then [] else chunks[0] + Flatten(chunks[1..])
  }

  datatype IoError = IoError

  /** A buffered reader: what its fills will return, then the end of the stream or an error. */
  class BufReader {
    var chunks: seq<Bytes>
    const fails: bool

    ghost predicate Valid()
      reads this
    {
      forall c | c in chunks :: c != []
    }

    ghost function Rest(): Bytes
      reads this
    {
      Flatten(chunks)
    }

    constructor (chunks: seq<Bytes>, fails: bool)
      requires forall c | c in chunks :: c != []
      ensures Valid() && this.chunks == chunks && this.fails == fails
    {
      this.chunks, this.fails := chunks, fails;
    }

    /** The buffered bytes; none of them exactly at the end of the stream. */
    method FillBuf() returns (r: Result<Bytes, IoError>)
      requires Valid()
      ensures r.Err? <==> fails && Rest() == []
      ensures r.Ok? ==> r.value <= Rest() && (r.value == [] <==> Rest() == [])
      ensures r.Ok? && r.value != [] ==> chunks != [] && r.value == chunks[0]
    {
      if chunks == [] {
        return if fails then Err(IoError) else Ok([]);
      }
      assert chunks[0] in chunks;
      return Ok(chunks[0]);
    }

    method Consume(n: nat)
      requires Valid()
      requires n > 0 ==> chunks != [] && n <= |chunks[0]|
      modifies this
      ensures Valid()
      ensures n <= |old(Rest())| && Rest() == old(Rest())[n..]
    {
      if n > 0 {
        var c, more := chunks[0], chunks[1..];
        assert forall d | d in more :: d in chunks;
        if n == |c| {
          chunks := more;
        } else {
          chunks := [c[n..]] + more;
          assert chunks[1..] == more;
        }
        assert Rest() == c[n..] + Flatten(more);
      }
    }
  }

  /**
    `take(limit).read_until('\n')`: the first line of the rest, cut at `limit` bytes. A read
    error surfaces only when neither the line feed nor the limit was reached before it.
  */
  method ReadUntil(reader: BufReader, limit: nat) returns (r: Result<Bytes, IoError>)
    requires reader.Valid()
    modifies reader
    ensures reader.Valid()
    ensures r.Ok? ==> r.value + reader.Rest() == old(reader.Rest()) && |r.value| <= limit
    ensures r.Ok? && r.value != [] ==> LF !in r.value[..|r.value| - 1]
    ensures r.Ok? && !Terminated(r.value) && |r.value| < limit ==>
              reader.Rest() == [] && !reader.fails
    ensures r.Err? ==> reader.fails && |old(reader.Rest())| < limit && LF !in old(reader.Rest())
  {
    var line: Bytes := [];
    ghost var all := reader.Rest();
    while true
      invariant reader.Valid()
      invariant line + reader.Rest() == all
      invariant |line| <= limit && LF !in line
      decreases limit - |line|
    {
      if |line| == limit {
        return Ok(line);
      }
      var fill := reader.FillBuf();
      if fill.Err? {
        assert line == all;
        return Err(IoError);
      }
      var buf := fill.value[..Min(|fill.value|, limit - |line|)];
      var pos := IndexOf(buf, LF);
      if pos < |buf| {
        line := Take(reader, line, buf, pos + 1);
        return Ok(line);
      }
      if buf == [] {
        return Ok(line);
      }
      line := Take(reader, line, buf, |buf|);
    }
  }

  /** Moves the first `n` buffered bytes from the reader to `line`. */
  method Take(reader: BufReader, line: Bytes, buf: Bytes, n: nat) returns (r: Bytes)
    requires reader.Valid() && reader.chunks != [] && buf <= reader.chunks[0]
    requires 0 < n <= |buf|
    modifies reader
    ensures reader.Valid()
    ensures r == line + buf[..n]
    ensures r + reader.Rest() == line + old(reader.Rest())
  {
    ghost var rest := reader.Rest();
    assert buf <= rest;
    reader.Consume(n);
    r := line + buf[..n];
    assert buf[..n] + rest[n..] == rest;
    Sse.ConcatAssoc(line, buf[..n], rest[n..]);
  }

  /** The rest of the first line of `s`, or all of it. */
  function AfterLine(s: Bytes): Bytes {
    if s == [] then [] else s[FirstLine(s)..]
  }

  /** Drops input up to and including the next line feed, chunk by chunk. */
  method Drain(reader: BufReader) returns (r: Result<(), IoError>)
    requires reader.Valid()
    modifies reader
    ensures reader.Valid()
    ensures r.Ok? ==> reader.Rest() == AfterLine(old(reader.Rest()))
    ensures r.Ok? && reader.fails ==> LF in old(reader.Rest())
    ensures r.Err? ==> reader.fails && LF !in old(reader.Rest())
  {
    ghost var all := reader.Rest();
    ghost var gone: Bytes := [];
    while true
      invariant reader.Valid()
      invariant all == gone + reader.Rest()
      invariant LF !in gone
      decreases |reader.Rest()|
    {
      var fill := reader.FillBuf();
      if fill.Err? {
        return Err(IoError);
      }
      var buf := fill.value;
      if buf == [] {
        assert all == gone;
        DrainedAll(all);
        return Ok(());
      }
      ghost var rest := reader.Rest();
      var pos := IndexOf(buf, LF);
      if pos < |buf| {
        reader.Consume(pos + 1);
        DrainedLine(all, gone, rest, pos);
        return Ok(());
      }
      reader.Consume(|buf|);
      DrainedChunk(gone, buf, rest);
      gone := gone + buf;
    }
  }

  lemma {:induction false} DrainedAll(all: Bytes)
    requires LF !in all
    ensures AfterLine(all) == []
  {
    if all != [] {
      FirstLineIs(all, |all|);
    }
  }

  lemma {:induction false} DrainedChunk(gone: Bytes, buf: Bytes, rest: Bytes)
    requires buf <= rest && LF !in gone && LF !in buf[..|buf|]
    ensures gone + rest == gone + buf + rest[|buf|..]
    ensures LF !in gone + buf
  {
    assert buf[..|buf|] == buf;
  }

  lemma {:induction false} DrainedLine(all: Bytes, gone: Bytes, rest: Bytes, pos: nat)
    requires all == gone + rest && LF !in gone
    requires pos < |rest| && rest[pos] == LF && LF !in rest[..pos]
    ensures AfterLine(all) == rest[pos + 1..]
    ensures LF in all
  {
    var n := |gone| + pos + 1;
    assert all[n - 1] == LF;
    assert all[..n - 1] == gone + rest[..pos];
    FirstLineIs(all, n);
  }

  /** One payload cap, and four lines: the one being read, the id, the event name, and what the line adds. */
  const MAX_HELD_BYTES: nat := MAX_FRAME_DATA_BYTES + 4 * MAX_LINE_BYTES + 1

  datatype Ending = Finished | Broke | Failed

  /** What the callback answers to frame number `k` of a history. */
  ghost predicate Accepts(accept: seq<SseFrame> -> bool, history: seq<SseFrame>, k: nat)
    requires k <= |history|
  {
    accept(history[..k])
  }

  /**
    What `read_frames` delivers to a callback that keeps going after `f[..k]` exactly when
    `accept(f[..k])`: a prefix of the frames of the input, cut at the first refusal.
  */
  ghost predicate DeliveredUntil(accept: seq<SseFrame> -> bool, frames: seq<SseFrame>,
                                 delivered: seq<SseFrame>, broke: bool)
  {
    && delivered <= frames
    && (forall k | 0 < k < |delivered| :: Accepts(accept, delivered, k))
    && (broke ==> delivered != [] && !Accepts(accept, delivered, |delivered|))
    && (!broke ==> delivered == frames && (delivered != [] ==> Accepts(accept, delivered, |delivered|)))
  }

  /** The kinds of a non-empty input: the head line's, then the rest's. */
  lemma {:induction false} KindsUnfold(s: Bytes, fails: bool)
    requires s != []
    ensures fails && s[FirstLine(s) - 1] != LF ==> Kinds(s, fails) == []
    ensures !(fails && s[FirstLine(s) - 1] != LF) ==>
              Kinds(s, fails) == [Classify(s[..FirstLine(s)])] + Kinds(s[FirstLine(s)..], fails)
  {
    var n := FirstLine(s);
    if fails && s[n - 1] != LF {
      assert Lines(s, fails) == [];
    } else {
      LinesUnfold(s, fails);
      KindsOfAppend([s[..n]], Lines(s[n..], fails));
      assert KindsOf([s[..n]]) == [Classify(s[..n])];
    }
  }

  lemma {:induction false} EmitUnfold(p: Parser, k: LineKind, ks: seq<LineKind>)
    ensures Emit(p, [k] + ks) == Dispatched(p, k) + Emit(Step(p, k), ks)
  {
    assert ([k] + ks)[1..] == ks;
  }

  /** What a bounded read says about the first line of the input `all`. */
  lemma {:induction false} LineRead(all: Bytes, line: Bytes, rest: Bytes)
    requires all == line + rest && line != []
    requires LF !in line[..|line| - 1]
    requires |line| <= MAX_LINE_BYTES + 1
    requires !Terminated(line) && |line| < MAX_LINE_BYTES + 1 ==> rest == []
    ensures |line| > MAX_LINE_BYTES && !Terminated(line) ==>
              TooLong(all[..FirstLine(all)]) && all[FirstLine(all)..] == AfterLine(rest)
              && (all[FirstLine(all) - 1] == LF <==> LF in rest)
    ensures !(|line| > MAX_LINE_BYTES && !Terminated(line)) ==>
              line == all[..FirstLine(all)] && rest == all[FirstLine(all)..] && !TooLong(line)
  {
    if |line| > MAX_LINE_BYTES && !Terminated(line) {
      LongLineRead(all, line, rest);
    } else {
      assert all[..|line| - 1] == line[..|line| - 1];
      FirstLineIs(all, |line|);
    }
  }

  lemma {:induction false} LongLineRead(all: Bytes, line: Bytes, rest: Bytes)
    requires all == line + rest && line != []
    requires LF !in line[..|line| - 1]
    requires |line| == MAX_LINE_BYTES + 1 && !Terminated(line)
    ensures TooLong(all[..FirstLine(all)])
    ensures all[FirstLine(all)..] == AfterLine(rest)
    ensures all[FirstLine(all) - 1] == LF <==> LF in rest
  {
    assert LF !in line by {
      assert line == line[..|line| - 1] + [line[|line| - 1]];
    }
    if rest == [] {
      assert all == line;
      FirstLineIs(all, |all|);
    } else {
      var m := FirstLine(rest);
      var n := |line| + m;
      assert all[..n - 1] == line + rest[..m - 1];
      assert all[n - 1] == rest[m - 1];
      FirstLineIs(all, n);
      assert all[n..] == rest[m..];
      assert m == |rest| && rest[m - 1] != LF ==> rest == rest[..m - 1] + [rest[m - 1]];
    }
  }

  /** Reads one line of at most the line cap and says what it means; None at the end. The line buffer held `buffered` bytes. */
  method NextLine(reader: BufReader) returns (r: Result<Option<LineKind>, IoError>, ghost buffered: nat)
    requires reader.Valid()
    modifies reader
    ensures reader.Valid() && buffered <= MAX_LINE_BYTES + 1
    ensures r.Err? ==> reader.fails && Kinds(old(reader.Rest()), reader.fails) == []
    ensures r.Ok? && r.value.None? ==> !reader.fails && Kinds(old(reader.Rest()), reader.fails) == []
    ensures r.Ok? && r.value.Some? ==>
              && |reader.Rest()| < |old(reader.Rest())|
              && Kinds(old(reader.Rest()), reader.fails)
                 == [r.value.value] + Kinds(reader.Rest(), reader.fails)
    ensures r.Ok? && r.value.Some? ==> ValueBytes(r.value.value) < MAX_LINE_BYTES
  {
    ghost var rest := reader.Rest();
    buffered := |rest|;
    var read := ReadUntil(reader, MAX_LINE_BYTES + 1);
    if read.Err? {
      LostTail(rest);
      return Err(IoError), buffered;
    }
    var line := read.value;
    buffered := |line|;
    if line == [] {
      assert rest == [];
      return Ok(None), buffered;
    }
    LineRead(rest, line, reader.Rest());
    KindsUnfold(rest, reader.fails);
    if |line| > MAX_LINE_BYTES && !Terminated(line) {
      ghost var tail := reader.Rest();
      var drained := Drain(reader);
      if drained.Err? {
        return Err(IoError), buffered;
      }
      return Ok(Some(Overlong)), buffered;
    }
    assert rest[FirstLine(rest) - 1] == line[|line| - 1];
    ValueIsShorter(Chomp(line));
    return Ok(Some(TextKind(Chomp(line)))), buffered;
  }

  ghost predicate AllAccepted(accept: seq<SseFrame> -> bool, delivered: seq<SseFrame>) {
    forall k | 0 < k <= |delivered| :: Accepts(accept, delivered, k)
  }

  lemma {:induction false} DeliverOne(accept: seq<SseFrame> -> bool, before: seq<SseFrame>, f: SseFrame, more: seq<SseFrame>)
    requires AllAccepted(accept, before)
    ensures accept(before + [f]) ==> AllAccepted(accept, before + [f])
    ensures !accept(before + [f]) ==> DeliveredUntil(accept, before + ([f] + more), before + [f], true)
  {
    var now := before + [f];
    assert now[..|now|] == now;
    forall k | 0 < k <= |before| ensures Accepts(accept, now, k) {
      assert Accepts(accept, before, k);
      assert now[..k] == before[..k];
    }
    ConcatAssoc(before, [f], more);
  }

  lemma {:induction false} DeliverEnd(accept: seq<SseFrame> -> bool, delivered: seq<SseFrame>)
    requires AllAccepted(accept, delivered)
    ensures DeliveredUntil(accept, delivered + [], delivered, false)
  {
    assert delivered + [] == delivered == delivered[..|delivered|];
  }

  /**
    Reads frames until the stream ends, a read fails or the callback refuses one. `peak` is the most bytes that
    the line buffer and the pending frame ever held together, its id, event name and payload counted,
    and counted while a line is being added to it, before its cap is tested.
  */
  method ReadFrames(reader: BufReader, accept: seq<SseFrame> -> bool)
    returns (delivered: seq<SseFrame>, ending: Ending, ghost peak: nat)
    requires reader.Valid()
    modifies reader
    ensures reader.Valid()
    ensures DeliveredUntil(accept, Frames(old(reader.Rest()), reader.fails), delivered, ending.Broke?)
    ensures ending.Failed? ==> reader.fails
    ensures ending.Finished? ==> !reader.fails
    ensures peak <= MAX_HELD_BYTES
  {
    var parser := START;
    delivered, peak := [], 0;
    ghost var all := Frames(reader.Rest(), reader.fails);
    while true
      invariant reader.Valid()
      invariant delivered + Emit(parser, Kinds(reader.Rest(), reader.fails)) == all
      invariant AllAccepted(accept, delivered)
      invariant FrameFits(parser.frame) && peak <= MAX_HELD_BYTES
      decreases |reader.Rest()|
    {
      ghost var buffered;
      var next;
      next, buffered := NextLine(reader);
      peak := Max(peak, buffered + FrameBytes(parser.frame));
      if next.Err? || next.value.None? {
        DeliverEnd(accept, delivered);
        return delivered, if next.Err? then Failed else Finished, peak;
      }
      var kind := next.value.value;
      StepFits(parser, kind);
      peak := Max(peak, buffered + FrameBytes(parser.frame) + Growth(parser, kind));
      ghost var more := Emit(Step(parser, kind), Kinds(reader.Rest(), reader.fails));
      EmitUnfold(parser, kind, Kinds(reader.Rest(), reader.fails));
      Sse.ConcatAssoc(delivered, Dispatched(parser, kind), more);
      assert delivered + Dispatched(parser, kind) + more == all;
      if kind.Blank? && !parser.oversize && parser.frame.data != [] {
        DeliverOne(accept, delivered, parser.frame, more);
        delivered := delivered + [parser.frame];
        if !accept(delivered) {
          return delivered, Broke, peak;
        }
      } else {
        assert delivered + Dispatched(parser, kind) == delivered;
      }
      assert delivered + more == all;
      parser := Step(parser, kind);
    }
  }

  lemma {:induction false} LostTail(s: Bytes)
    requires LF !in s
    ensures Kinds(s, true) == []
  {
    if s != [] {
      assert s[FirstLine(s) - 1] in s;
      KindsUnfold(s, true);
    }
  }
}
