/** Checksum labels: unpadded base32 (section 6 of RFC 4648), lower-cased and trimmed to the
    longest label Kubernetes accepts. */
module Base32 {

  newtype Byte = b: int | 0 <= b < 256

  const MAX_CHECKSUM_LENGTH := 63

  type Quintet = q: nat | q < 32

  /** The eight 5-bit groups of a five-byte block. */
  function Split(b0: Byte, b1: Byte, b2: Byte, b3: Byte, b4: Byte): (q: seq<Quintet>)
    ensures |q| == 8
  {
    var (a, b, c, d, e) := (b0 as int, b1 as int, b2 as int, b3 as int, b4 as int);
    [a / 8, a % 8 * 4 + b / 64, b / 2 % 32, b % 2 * 16 + c / 16,
     c % 16 * 2 + d / 128, d / 4 % 32, d % 4 * 8 + e / 32, e % 32]
  }

  /** Number of characters for a final block of `n` bytes. */
  function GroupsFor(n: nat): (k: nat)
    requires n <= 5
    ensures k == (8 * n + 4) / 5
  {
    if n == 0 then 0 else if n == 1 then 2 else if n == 2 then 4 else if n == 3 then 5 else if n == 4 then 7 else 8
  }

  function At(d: seq<Byte>, i: nat): Byte {
    if i < |d| then d[i] else 0
  }

  /** The 5-bit groups of a byte string: whole blocks first, then the partial block. */
  function Groups(d: seq<Byte>): seq<Quintet> {
    var block := Split(At(d, 0), At(d, 1), At(d, 2), At(d, 3), At(d, 4));
    if |d| <= 5 then block[..GroupsFor(|d|)] else block + Groups(d[5..])
  }

  function Letter(q: Quintet): char {
    "ABCDEFGHIJKLMNOPQRSTUVWXYZ234567"[q]
  }

  function Encode(d: seq<Byte>): string {
    var groups := Groups(d);
    seq(|groups|, i requires 0 <= i < |groups| => Letter(groups[i]))
  }

  function LowerChar(c: char): char {
    if 'A' <= c <= 'Z' then (c as int + 32) as char else c
  }

  function ToLower(s: string): string {
    seq(|s|, i requires 0 <= i < |s| => LowerChar(s[i]))
  }

  /** The label written for a digest. */
  function ChecksumToString(digest: seq<Byte>): string {
    var encoded := ToLower(Encode(digest));
    if |encoded| > MAX_CHECKSUM_LENGTH then encoded[..MAX_CHECKSUM_LENGTH] else encoded
  }

  // Decoding, the inverse used to show that nothing is lost.

  function Value(c: char): Quintet {
    if 'a' <= c <= 'z' then c as int - 'a' as int
    else if '2' <= c <= '7' then c as int - '2' as int + 26
    else 0
  }

  function GroupAt(q: seq<Quintet>, i: nat): Quintet {
    if i < |q| then q[i] else 0
  }

  function Join(q: seq<Quintet>): (d: seq<Byte>)
    ensures |d| == 5
  {
    var g := (i: nat) => GroupAt(q, i) as int;
    [(g(0) * 8 + g(1) / 4) as Byte,
     (g(1) % 4 * 64 + g(2) * 2 + g(3) / 16) as Byte,
     (g(3) % 16 * 16 + g(4) / 2) as Byte,
     (g(4) % 2 * 128 + g(5) * 4 + g(6) / 8) as Byte,
     (g(6) % 8 * 32 + g(7)) as Byte]
  }

  function Ungroup(q: seq<Quintet>): seq<Byte> {
    if |q| <= 8 then Join(q)[..|q| * 5 / 8] else Join(q[..8]) + Ungroup(q[8..])
  }

  function Decode(s: string): seq<Byte> {
    Ungroup(seq(|s|, i requires 0 <= i < |s| => Value(s[i])))
  }

  lemma FirstTwoBytes(a: nat, b: nat, carry: nat)
    requires a < 256 && b < 256 && carry < 16
    ensures a / 8 * 8 + (a % 8 * 4 + b / 64) / 4 == a
    ensures (a % 8 * 4 + b / 64) % 4 * 64 + b / 2 % 32 * 2 + (b % 2 * 16 + carry) / 16 == b
  {
  }

  lemma StartOfBlock(b0: Byte, b1: Byte, b2: Byte, b3: Byte, b4: Byte)
    ensures var d := Join(Split(b0, b1, b2, b3, b4)); d[0] == b0 && d[1] == b1
  {
    FirstTwoBytes(b0 as int, b1 as int, b2 as int / 16);
  }

  lemma MiddleByte(parity: nat, c: nat, carry: nat)
    requires parity < 2 && c < 256 && carry < 2
    ensures (parity * 16 + c / 16) % 16 * 16 + (c % 16 * 2 + carry) / 2 == c
  {
  }

  lemma LastTwoBytes(carry: nat, d: nat, e: nat)
    requires carry < 16 && d < 256 && e < 256
    ensures (carry * 2 + d / 128) % 2 * 128 + d / 4 % 32 * 4 + (d % 4 * 8 + e / 32) / 8 == d
    ensures (d % 4 * 8 + e / 32) % 8 * 32 + e % 32 == e
  {
    assert (carry * 2 + d / 128) % 2 == d / 128;
    assert (d % 4 * 8 + e / 32) / 8 == d % 4 && (d % 4 * 8 + e / 32) % 8 == e / 32;
    assert d / 4 == d / 128 * 32 + d / 4 % 32;
  }

  lemma EndOfBlock(b0: Byte, b1: Byte, b2: Byte, b3: Byte, b4: Byte)
    ensures var d := Join(Split(b0, b1, b2, b3, b4)); d[2] == b2 && d[3] == b3 && d[4] == b4
  {
    MiddleByte(b1 as int % 2, b2 as int, b3 as int / 128);
    LastTwoBytes(b2 as int % 16, b3 as int, b4 as int);
  }

  lemma BlockRoundTrip(b0: Byte, b1: Byte, b2: Byte, b3: Byte, b4: Byte)
    ensures Join(Split(b0, b1, b2, b3, b4)) == [b0, b1, b2, b3, b4]
  {
    hide Join, Split;
    StartOfBlock(b0, b1, b2, b3, b4);
    EndOfBlock(b0, b1, b2, b3, b4);
  }

  lemma KeptGroupsDecode(block: seq<Quintet>, bytes: seq<Byte>, n: nat)
    requires |block| == 8 && Join(block) == bytes && n <= 5
    ensures Ungroup(block[..GroupsFor(n)]) == bytes[..n]
  {
  }

  lemma PaddedPrefix(d: seq<Byte>)
    requires |d| <= 5
    ensures [At(d, 0), At(d, 1), At(d, 2), At(d, 3), At(d, 4)][..|d|] == d
  {
  }

  lemma PartialBlockRoundTrip(d: seq<Byte>)
    requires |d| <= 5
    ensures Ungroup(Groups(d)) == d
  {
    hide Split, Join, Ungroup, GroupsFor, At;
    var bytes := [At(d, 0), At(d, 1), At(d, 2), At(d, 3), At(d, 4)];
    BlockRoundTrip(bytes[0], bytes[1], bytes[2], bytes[3], bytes[4]);
    KeptGroupsDecode(Split(bytes[0], bytes[1], bytes[2], bytes[3], bytes[4]), bytes, |d|);
    PaddedPrefix(d);
  }

  lemma {:induction false} GroupsRoundTrip(d: seq<Byte>)
    ensures |Groups(d)| == (8 * |d| + 4) / 5
    ensures Ungroup(Groups(d)) == d
  {
    if |d| <= 5 {
      PartialBlockRoundTrip(d);
    } else {
      GroupsRoundTrip(d[5..]);
      var block := Split(d[0], d[1], d[2], d[3], d[4]);
      BlockRoundTrip(d[0], d[1], d[2], d[3], d[4]);
      assert Groups(d)[..8] == block && Groups(d)[8..] == Groups(d[5..]);
      assert [d[0], d[1], d[2], d[3], d[4]] + d[5..] == d;
    }
  }

  /** The characters a checksum is written in. */
  predicate InAlphabet(c: char) {
    'a' <= c <= 'z' || '2' <= c <= '7'
  }

  lemma LetterRoundTrip(q: Quintet)
    ensures Value(LowerChar(Letter(q))) == q && InAlphabet(LowerChar(Letter(q)))
  {
    assert q < 26 ==> Letter(q) == ('A' as int + q) as char;
    assert q >= 26 ==> Letter(q) == ('2' as int + q - 26) as char;
  }

  /** Lower-casing loses nothing, and decoding inverts the encoding. */
  lemma DecodeInvertsEncode(d: seq<Byte>)
    ensures |Encode(d)| == (8 * |d| + 4) / 5
    ensures Decode(ToLower(Encode(d))) == d
    ensures forall c | c in ToLower(Encode(d)) :: InAlphabet(c)
  {
    GroupsRoundTrip(d);
    var s := ToLower(Encode(d));
    forall i | 0 <= i < |s|
      ensures Value(s[i]) == Groups(d)[i] && InAlphabet(s[i])
    {
      LetterRoundTrip(Groups(d)[i]);
    }
    assert seq(|s|, i requires 0 <= i < |s| => Value(s[i])) == Groups(d);
  }

  /** For a SHA-256 digest the trim never happens, so the label determines the digest. */
  lemma ChecksumIsInjective(d: seq<Byte>, e: seq<Byte>)
    requires |d| == |e| == 32
    ensures |ChecksumToString(d)| == 52 && forall c | c in ChecksumToString(d) :: InAlphabet(c)
    ensures Decode(ChecksumToString(d)) == d
    ensures ChecksumToString(d) == ChecksumToString(e) <==> d == e
  {
    DecodeInvertsEncode(d);
    DecodeInvertsEncode(e);
  }
}
