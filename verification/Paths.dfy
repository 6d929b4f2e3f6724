/** Slash-separated paths and where they lead. */
module Paths {
  import opened Wrappers

  /** The pieces between slashes. */
  function Segments(path: string): (segs: seq<string>)
    ensures |segs| >= 1
  {
    if path == [] then [""]
    else
      var rest := Segments(path[1..]);
      if path[0] == '/' then [""] + rest else [[path[0]] + rest[0]] + rest[1..]
  }

  function Slashed(segs: seq<string>): string {
    if segs == [] then "" else if |segs| == 1 then segs[0] else segs[0] + "/" + Slashed(segs[1..])
  }

  lemma {:induction false} SlashedHead(c: char, seg: string, rest: seq<string>)
    ensures Slashed([[c] + seg] + rest) == [c] + Slashed([seg] + rest)
    ensures rest != [] ==> Slashed([""] + rest) == "/" + Slashed(rest)
  {
    assert ([[c] + seg] + rest)[1..] == rest && ([seg] + rest)[1..] == rest && ([""] + rest)[1..] == rest;
    if rest != [] {
      assert ([c] + seg) + "/" + Slashed(rest) == [c] + (seg + "/" + Slashed(rest));
    }
  }

  /** With `SegmentsHaveNoSlash`: the pieces are what stands between the slashes of a path, and nothing is lost. */
  lemma {:induction false} SegmentsJoin(path: string)
    ensures Slashed(Segments(path)) == path
  {
    if path != [] {
      var rest := Segments(path[1..]);
      SegmentsJoin(path[1..]);
      assert path == [path[0]] + path[1..];
      if path[0] == '/' {
        SlashedHead('/', "", rest);
      } else {
        SlashedHead(path[0], rest[0], rest[1..]);
        assert [rest[0]] + rest[1..] == rest;
      }
    }
  }

  predicate IsNormal(seg: string) {
    seg != "" && seg != "." && seg != ".."
  }

  function LastNormal(segs: seq<string>): Option<string> {
    if segs == [] then None
    else
      var last := segs[|segs| - 1];
      if IsNormal(last) then Some(last) else if last == ".." then None else LastNormal(segs[..|segs| - 1])
  }

  /** The file-name component. */
  function FileName(path: string): Option<string> {
    LastNormal(Segments(path))
  }

  /** Where a path leads from a directory. */
  function Walk(dir: seq<string>, segs: seq<string>): seq<string>
    decreases |segs|
  {
    if segs == [] then dir
    else if segs[0] == ".." then Walk(if dir == [] then dir else dir[..|dir| - 1], segs[1..])
    else if IsNormal(segs[0]) then Walk(dir + [segs[0]], segs[1..])
    else Walk(dir, segs[1..])
  }

  /** The last step taken to get from `dir` to `end`. */
  function LastStep(dir: seq<string>, end: seq<string>): Option<string> {
    if |end| <= |dir| then None else Some(end[|end| - 1])
  }

  /** A path without parent steps ends inside the directory, at its file name. */
  lemma {:induction false} WalkStaysInside(dir: seq<string>, segs: seq<string>)
    requires forall i | 0 <= i < |segs| :: segs[i] != ".."
    ensures dir <= Walk(dir, segs)
    ensures LastNormal(segs) == LastStep(dir, Walk(dir, segs))
    decreases |segs|
  {
    if segs != [] {
      var next := if IsNormal(segs[0]) then dir + [segs[0]] else dir;
      WalkStaysInside(next, segs[1..]);
      LastNormalTail(segs);
    }
  }

  lemma {:induction false} LastNormalTail(segs: seq<string>)
    requires segs != [] && forall i | 0 <= i < |segs| :: segs[i] != ".."
    ensures LastNormal(segs) ==
            if LastNormal(segs[1..]).Some? then LastNormal(segs[1..])
            else if IsNormal(segs[0]) then Some(segs[0]) else None
  {
    var n := |segs| - 1;
    if n > 0 && !IsNormal(segs[n]) {
      LastNormalTail(segs[..n]);
      assert segs[..n][1..] == segs[1..][..n - 1];
    }
  }

  // ---- Joining -----------------------------------------------------------------------------

  /** The text of a joined path: an absolute `s` replaces the directory. */
  function Join(dir: string, s: string): string {
    if "/" <= s || dir == "" then s
    else if dir[|dir| - 1] == '/' then dir + s
    else dir + "/" + s
  }

  /** Where joining `s` to a directory leads: an absolute path starts over at the root. */
  function Enter(dir: seq<string>, s: string): seq<string> {
    if "/" <= s then Walk([], Segments(s)) else Walk(dir, Segments(s))
  }

  function Descend(dir: seq<string>, steps: seq<string>): seq<string>
    decreases |steps|
  {
    if steps == [] then dir else Descend(Enter(dir, steps[0]), steps[1..])
  }

  lemma {:induction false} SegmentsHaveNoSlash(path: string)
    ensures forall seg | seg in Segments(path) :: '/' !in seg
    ensures '/' !in path ==> Segments(path) == [path]
  {
    if path != [] {
      SegmentsHaveNoSlash(path[1..]);
      if '/' !in path {
        assert path == [path[0]] + path[1..];
      }
    }
  }

  /** A walk goes back and then on: what it adds to the directory comes from its steps. */
  lemma {:induction false} WalkElements(dir: seq<string>, segs: seq<string>)
    ensures forall i | 0 <= i < |Walk(dir, segs)| ::
              (i < |dir| && Walk(dir, segs)[i] == dir[i]) || (Walk(dir, segs)[i] in segs && IsNormal(Walk(dir, segs)[i]))
    decreases |segs|
  {
    if segs != [] {
      var next :=
        if segs[0] == ".." then (if dir == [] then dir else dir[..|dir| - 1])
        else if IsNormal(segs[0]) then dir + [segs[0]] else dir;
      WalkElements(next, segs[1..]);
      forall i | 0 <= i < |Walk(dir, segs)|
        ensures (i < |dir| && Walk(dir, segs)[i] == dir[i])
                || (Walk(dir, segs)[i] in segs && IsNormal(Walk(dir, segs)[i]))
      {
        if i < |next| && Walk(dir, segs)[i] == next[i] {
          assert i < |dir| || next[i] == segs[0];
        }
      }
    }
  }

  /** Joining a segment goes exactly one level down, to an entry of that name, for exactly these segments. */
  lemma {:induction false} OneLevelIff(dir: seq<string>, s: string)
    ensures Enter(dir, s) == dir + [s] <==> IsNormal(s) && '/' !in s
  {
    SegmentsHaveNoSlash(s);
    if IsNormal(s) && '/' !in s {
      assert !("/" <= s);
      assert [s][1..] == [] && Walk(dir, [s]) == Walk(dir + [s], []);
    }
    if Enter(dir, s) == dir + [s] {
      var start := if "/" <= s then [] else dir;
      var end := Walk(start, Segments(s));
      assert end == dir + [s] && end[|dir|] == s;
      WalkElements(start, Segments(s));
      assert |dir| < |end| && (end[|dir|] in Segments(s) && IsNormal(end[|dir|]));
      assert '/' !in end[|dir|];
    }
  }
}
