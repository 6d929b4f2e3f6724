/** Content digests: `sha256:<64 hex>` and the directory names made from them (src/staging.rs:1607-1620). */
module Digest {
  const DIGEST_PREFIX := "sha256:"
  const DIR_PREFIX := "sha256-"

  predicate IsHexDigit(c: char) {
    '0' <= c <= '9' || 'a' <= c <= 'f' || 'A' <= c <= 'F'
  }

  predicate IsLowerHexDigit(c: char) {
    '0' <= c <= '9' || 'a' <= c <= 'f'
  }

  predicate IsHex64(s: string) {
    |s| == 64 && forall i | 0 <= i < 64 :: IsHexDigit(s[i])
  }

  predicate IsLowerHex64(s: string) {
    |s| == 64 && forall i | 0 <= i < 64 :: IsLowerHexDigit(s[i])
  }

  function LowerChar(c: char): char {
    if 'A' <= c <= 'Z' then c - 'A' + 'a' else c
  }

  function ToLower(s: string): string {
    seq(|s|, i requires 0 <= i < |s| => LowerChar(s[i]))
  }

  predicate WellFormed(digest: string) {
    DIGEST_PREFIX <= digest && IsHex64(digest[|DIGEST_PREFIX|..])
  }

  /** The lowercase hex of a well-formed digest. */
  function HexOf(digest: string): (hex: string)
    requires WellFormed(digest)
    ensures IsLowerHex64(hex)
  {
    ToLower(digest[|DIGEST_PREFIX|..])
  }

  function DirName(hex: string): string {
    DIR_PREFIX + hex
  }

  function DigestOf(hex: string): string {
    DIGEST_PREFIX + hex
  }

  lemma {:induction false} LowerIsStable(s: string)
    requires IsLowerHex64(s)
    ensures ToLower(s) == s
  {}

  /** A canonical digest names its own hex. */
  lemma {:induction false} CanonicalDigest(hex: string)
    requires IsLowerHex64(hex)
    ensures WellFormed(DigestOf(hex)) && HexOf(DigestOf(hex)) == hex
  {
    assert DigestOf(hex)[|DIGEST_PREFIX|..] == hex;
    LowerIsStable(hex);
  }

  lemma {:induction false} DirNameInjective(a: string, b: string)
    requires DirName(a) == DirName(b)
    ensures a == b
  {
    assert DirName(a)[|DIR_PREFIX|..] == a;
    assert DirName(b)[|DIR_PREFIX|..] == b;
  }
}
