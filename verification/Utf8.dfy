/** UTF-8 as an encoding, and that the recognizer accepts exactly what can be written in it. */
module Utf8 {
  import opened ByteStrings
  import opened Sse

  /** A Unicode scalar value: any code point but the surrogates. */
  predicate IsScalar(c: nat) {
    c < 0x11_0000 && !(0xD800 <= c < 0xE000)
  }

  /** The six low bits of `c`, in a continuation byte. */
  function Tail(c: nat): byte {
    (0x80 + c % 64) as byte
  }

  function EncodeScalar(c: nat): Bytes
    requires IsScalar(c)
  {
    if c < 0x80 then [c as byte]
    else if c < 0x800 then [(0xC0 + c / 64) as byte, Tail(c)]
    else if c < 0x1_0000 then [(0xE0 + c / 4096) as byte, Tail(c / 64), Tail(c)]
    else [(0xF0 + c / 262144) as byte, Tail(c / 4096), Tail(c / 64), Tail(c)]
  }

  predicate AllScalars(cs: seq<nat>) {
    forall c | c in cs :: IsScalar(c)
  }

  function EncodeText(cs: seq<nat>): Bytes
    requires AllScalars(cs)
  {
    if cs == [] then [] else EncodeScalar(cs[0]) + EncodeText(cs[1..])
  }

  lemma {:induction false} ScalarIsUtf8(c: nat, rest: Bytes)
    requires IsScalar(c)
    ensures IsUtf8(EncodeScalar(c) + rest) <==> IsUtf8(rest)
  {
    var bs := EncodeScalar(c);
    var s := bs + rest;
    assert s[|bs|..] == rest;
    if c < 0x80 {
      assert s[0] == bs[0];
    } else if c < 0x800 {
      assert s[0] == bs[0] && s[1] == bs[1];
    } else if c < 0x1_0000 {
      assert s[0] == bs[0] && s[1] == bs[1] && s[2] == bs[2];
    } else {
      assert s[0] == bs[0] && s[1] == bs[1] && s[2] == bs[2] && s[3] == bs[3];
    }
  }

  lemma {:induction false} TwoBytes(s: Bytes) returns (c: nat)
    requires |s| >= 2 && 0xC2 <= s[0] <= 0xDF && IsTail(s[1], 0x80, 0xBF)
    ensures 0x80 <= c < 0x800 && EncodeScalar(c) == s[..2]
  {
    c := 64 * (s[0] as nat - 0xC0) + (s[1] as nat - 0x80);
    assert c / 64 == s[0] as nat - 0xC0 && c % 64 == s[1] as nat - 0x80;
  }

  lemma {:induction false} ThreeBytes(s: Bytes) returns (c: nat)
    requires |s| >= 3 && 0xE0 <= s[0] <= 0xEF && IsTail(s[2], 0x80, 0xBF)
    requires IsTail(s[1], if s[0] == 0xE0 then 0xA0 else 0x80, if s[0] == 0xED then 0x9F else 0xBF)
    ensures 0x800 <= c < 0x1_0000 && IsScalar(c) && EncodeScalar(c) == s[..3]
  {
    var x, y, z := s[0] as nat - 0xE0, s[1] as nat - 0x80, s[2] as nat - 0x80;
    c := 64 * (64 * x + y) + z;
    assert c / 64 == 64 * x + y && c % 64 == z;
    assert c / 4096 == x && (c / 64) % 64 == y;
  }

  lemma {:induction false} FourBytes(s: Bytes) returns (c: nat)
    requires |s| >= 4 && 0xF0 <= s[0] <= 0xF4 && IsTail(s[2], 0x80, 0xBF) && IsTail(s[3], 0x80, 0xBF)
    requires IsTail(s[1], if s[0] == 0xF0 then 0x90 else 0x80, if s[0] == 0xF4 then 0x8F else 0xBF)
    ensures 0x1_0000 <= c < 0x11_0000 && EncodeScalar(c) == s[..4]
  {
    var w, x, y, z := s[0] as nat - 0xF0, s[1] as nat - 0x80, s[2] as nat - 0x80, s[3] as nat - 0x80;
    var u := 64 * w + x;
    var v := 64 * u + y;
    c := 64 * v + z;
    assert c / 64 == v && c % 64 == z;
    assert c / 4096 == u && v % 64 == y;
    assert c / 262144 == w && u % 64 == x;
  }

  /** Valid text begins with the encoding of a scalar value, and goes on validly. */
  lemma {:induction false} FirstScalar(s: Bytes) returns (c: nat)
    requires s != [] && IsUtf8(s)
    ensures IsScalar(c) && EncodeScalar(c) <= s && IsUtf8(s[|EncodeScalar(c)|..])
  {
    if s[0] < 0x80 {
      c := s[0] as nat;
    } else if s[0] < 0xE0 {
      c := TwoBytes(s);
    } else if s[0] < 0xF0 {
      c := ThreeBytes(s);
    } else {
      c := FourBytes(s);
    }
  }

  lemma {:induction false} TextIsUtf8(cs: seq<nat>)
    requires AllScalars(cs)
    ensures IsUtf8(EncodeText(cs))
  {
    if cs != [] {
      TextIsUtf8(cs[1..]);
      ScalarIsUtf8(cs[0], EncodeText(cs[1..]));
    }
  }

  lemma {:induction false} OneMore(c: nat, cs: seq<nat>)
    requires IsScalar(c) && AllScalars(cs)
    ensures AllScalars([c] + cs) && EncodeText([c] + cs) == EncodeScalar(c) + EncodeText(cs)
  {
    assert ([c] + cs)[1..] == cs;
  }

  lemma {:induction false} Decoded(s: Bytes) returns (cs: seq<nat>)
    requires IsUtf8(s)
    ensures AllScalars(cs) && EncodeText(cs) == s
    decreases |s|
  {
    cs := [];
    if s != [] {
      var c := FirstScalar(s);
      var n := |EncodeScalar(c)|;
      var rest := Decoded(s[n..]);
      OneMore(c, rest);
      cs := [c] + rest;
      assert s == s[..n] + s[n..];
    }
  }

  /** Main result: a byte string is accepted exactly if it is the encoding of a sequence of scalar values. */
  lemma {:induction false} Utf8Iff(s: Bytes)
    ensures IsUtf8(s) <==> exists cs :: AllScalars(cs) && EncodeText(cs) == s
  {
    if IsUtf8(s) {
      var cs := Decoded(s);
    }
    if cs :| AllScalars(cs) && EncodeText(cs) == s {
      TextIsUtf8(cs);
    }
  }
}
