/** Base64 with the URL and filename safe alphabet (sections 3.2, 4 and 5 of RFC 4648), printed without padding. */
module Base64Url {
  import opened Wrappers

  type Byte = x: int | 0 <= x < 256

  /** A six-bit group. */
  type Sextet = x: int | 0 <= x < 64

  const MAX_ENCODED := 65536

  datatype Malformed = Malformed

  function Letter(v: Sextet): char {
    if v < 26 then 'A' + v as char
    else if v < 52 then 'a' + (v - 26) as char
    else if v < 62 then '0' + (v - 52) as char
    else if v == 62 then '-' else '_'
  }

  /** The decoder maps `-` and `_` to `+` and `/`, and takes the latter as they are. */
  function Value(c: char): Option<Sextet> {
    if 'A' <= c <= 'Z' then Some((c - 'A') as int)
    else if 'a' <= c <= 'z' then Some((c - 'a') as int + 26)
    else if '0' <= c <= '9' then Some((c - '0') as int + 52)
    else if c == '-' || c == '+' then Some(62)
    else if c == '_' || c == '/' then Some(63)
    else None
  }

  lemma LetterRoundTrip(v: Sextet)
    ensures Value(Letter(v)) == Some(v) && Letter(v) != '='
  {
  }

  // ---------- encoding ----------

  /** Three bytes become four letters. */
  function Quad(x: Byte, y: Byte, z: Byte): string {
    [Letter(x / 4), Letter(x % 4 * 16 + y / 16), Letter(y % 16 * 4 + z / 64), Letter(z % 64)]
  }

  /** The last group is padded with `=`. */
  function Padded(bytes: seq<Byte>): string {
    if bytes == [] then []
    else if |bytes| == 1 then
      [Letter(bytes[0] / 4), Letter(bytes[0] % 4 * 16), '=', '=']
    else if |bytes| == 2 then
      [Letter(bytes[0] / 4), Letter(bytes[0] % 4 * 16 + bytes[1] / 16), Letter(bytes[1] % 16 * 4), '=']
    else
      Quad(bytes[0], bytes[1], bytes[2]) + Padded(bytes[3..])
  }

  function StripPadding(s: string): string {
    if s != [] && s[|s| - 1] == '=' then StripPadding(s[..|s| - 1]) else s
  }

  function Encode(bytes: seq<Byte>): string {
    StripPadding(Padded(bytes))
  }

  // ---------- decoding ----------

  function Padding(n: nat): string {
    if n == 0 then [] else Padding(n - 1) + "="
  }

  /** Whole groups of four, of which only the last may end with one or two `=`. */
  function DecodeGroups(s: string): Result<seq<Byte>, Malformed>
    decreases |s|
  {
    if s == [] then Ok([])
    else if |s| < 4 then Err(Malformed)
    else
      var a, b, c, d := Value(s[0]), Value(s[1]), Value(s[2]), Value(s[3]);
      if a.None? || b.None? then Err(Malformed)
      else
        var first := a.value * 4 + b.value / 16;
        if |s| == 4 && s[2] == '=' && s[3] == '=' then Ok([first])
        else if c.None? then Err(Malformed)
        else
          var second := b.value % 16 * 16 + c.value / 4;
          if |s| == 4 && s[3] == '=' then Ok([first, second])
          else if d.None? then Err(Malformed)
          else
            var rest := DecodeGroups(s[4..]);
            if rest.Err? then rest
            else Ok([first, second, c.value % 4 * 64 + d.value] + rest.value)
  }

  /** Missing padding is filled in before the groups are read. */
  function Decode(s: string): Result<seq<Byte>, Malformed> {
    if |s| > MAX_ENCODED then Err(Malformed) else DecodeGroups(s + Padding((4 - |s| % 4) % 4))
  }

  // ---------- round trip ----------

  /** How many `=` the encoding of `n` bytes ends with. */
  function PadLength(n: nat): nat {
    (3 - n % 3) % 3
  }

  /** Before its padding, an encoding consists of letters. */
  ghost predicate Shaped(s: string, pads: nat) {
    && pads <= |s|
    && (forall i :: 0 <= i < |s| - pads ==> Value(s[i]).Some?)
    && (forall i :: |s| - pads <= i < |s| ==> s[i] == '=')
  }

  lemma QuadRoundTrip(x: Byte, y: Byte, z: Byte)
    ensures var q := Quad(x, y, z);
      && (forall i :: 0 <= i < 4 ==> Value(q[i]).Some?)
      && Value(q[0]).value * 4 + Value(q[1]).value / 16 == x
      && Value(q[1]).value % 16 * 16 + Value(q[2]).value / 4 == y
      && Value(q[2]).value % 4 * 64 + Value(q[3]).value == z
  {
    LetterRoundTrip(x / 4);
    LetterRoundTrip(x % 4 * 16 + y / 16);
    LetterRoundTrip(y % 16 * 4 + z / 64);
    LetterRoundTrip(z % 64);
  }

  /** Two bytes fill three letters; the third carries four bits of the second byte and two zero bits. */
  lemma PairBits(x: Byte, y: Byte)
    ensures var a, b, c := x / 4, x % 4 * 16 + y / 16, y % 16 * 4;
      && 0 <= a < 64 && 0 <= b < 64 && 0 <= c < 64
      && a * 4 + b / 16 == x && b % 16 * 16 + c / 4 == y
  {
  }

  lemma PairRoundTrip(x: Byte, y: Byte)
    ensures Shaped(Padded([x, y]), 1) && |Padded([x, y])| == 4 && DecodeGroups(Padded([x, y])) == Ok([x, y])
  {
    PairBits(x, y);
    var a, b, c: Sextet := x / 4, x % 4 * 16 + y / 16, y % 16 * 4;
    LetterRoundTrip(a);
    LetterRoundTrip(b);
    LetterRoundTrip(c);
    assert Padded([x, y]) == [Letter(a), Letter(b), Letter(c), '='];
    hide Letter, Value;
    PairDecodes(a, b, c, [Letter(a), Letter(b), Letter(c), '=']);
  }

  lemma PairDecodes(a: Sextet, b: Sextet, c: Sextet, s: string)
    requires |s| == 4 && Value(s[0]) == Some(a) && Value(s[1]) == Some(b) && Value(s[2]) == Some(c) && s[3] == '='
    requires s[2] != '='
    ensures DecodeGroups(s) == Ok([a * 4 + b / 16, b % 16 * 16 + c / 4])
  {
  }

  lemma SingleRoundTrip(x: Byte)
    ensures Shaped(Padded([x]), 2) && |Padded([x])| == 4 && DecodeGroups(Padded([x])) == Ok([x])
  {
    LetterRoundTrip(x / 4);
    LetterRoundTrip(x % 4 * 16);
  }

  lemma EqualsSignIsNoLetter()
    ensures Value('=').None?
  {
  }

  lemma FourLettersDecode(s: string, q: string, tail: string, rest: seq<Byte>)
    requires |q| == 4 && s == q + tail && DecodeGroups(tail) == Ok(rest)
    requires forall i :: 0 <= i < 4 ==> Value(q[i]).Some?
    ensures var a, b, c, d := Value(q[0]).value, Value(q[1]).value, Value(q[2]).value, Value(q[3]).value;
      DecodeGroups(s) == Ok([a * 4 + b / 16, b % 16 * 16 + c / 4, c % 4 * 64 + d] + rest)
  {
    EqualsSignIsNoLetter();
    hide Letter, Value, DecodeGroups;
    assert s[4..] == tail;
    assert s[0] == q[0] && s[1] == q[1] && s[2] == q[2] && s[3] == q[3];
    FourValuesDecode(s, Value(q[0]).value, Value(q[1]).value, Value(q[2]).value, Value(q[3]).value, rest);
  }

  /** Four letters, none of them padding, are read as three bytes. */
  lemma FourValuesDecode(s: string, a: Sextet, b: Sextet, c: Sextet, d: Sextet, rest: seq<Byte>)
    requires |s| >= 4 && s[2] != '=' && s[3] != '=' && DecodeGroups(s[4..]) == Ok(rest)
    requires Value(s[0]) == Some(a) && Value(s[1]) == Some(b) && Value(s[2]) == Some(c) && Value(s[3]) == Some(d)
    ensures DecodeGroups(s) == Ok([a * 4 + b / 16, b % 16 * 16 + c / 4, c % 4 * 64 + d] + rest)
  {
    hide Letter, Value;
  }

  lemma QuadDecodes(x: Byte, y: Byte, z: Byte, tail: string, rest: seq<Byte>)
    requires DecodeGroups(tail) == Ok(rest)
    ensures DecodeGroups(Quad(x, y, z) + tail) == Ok([x, y, z] + rest)
  {
    hide Letter, Value, DecodeGroups;
    QuadRoundTrip(x, y, z);
    FourLettersDecode(Quad(x, y, z) + tail, Quad(x, y, z), tail, rest);
  }

  lemma {:induction false} GroupsRoundTrip(bytes: seq<Byte>)
    ensures DecodeGroups(Padded(bytes)) == Ok(bytes)
  {
    hide DecodeGroups, Quad, Letter, Value;
    if |bytes| >= 3 {
      GroupsRoundTrip(bytes[3..]);
      QuadDecodes(bytes[0], bytes[1], bytes[2], Padded(bytes[3..]), bytes[3..]);
      assert bytes == [bytes[0], bytes[1], bytes[2]] + bytes[3..];
    } else if |bytes| == 2 {
      assert bytes == [bytes[0], bytes[1]];
      PairRoundTrip(bytes[0], bytes[1]);
    } else if |bytes| == 1 {
      assert bytes == [bytes[0]];
      SingleRoundTrip(bytes[0]);
    } else {
      assert bytes == [];
      NothingDecodes();
    }
  }

  lemma NothingDecodes()
    ensures DecodeGroups([]) == Ok([])
  {
  }

  lemma ShapedConcat(a: string, b: string, pads: nat)
    requires Shaped(a, 0) && Shaped(b, pads)
    ensures Shaped(a + b, pads)
  {
  }

  lemma QuadShape(x: Byte, y: Byte, z: Byte)
    ensures Shaped(Quad(x, y, z), 0) && |Quad(x, y, z)| == 4
  {
    QuadRoundTrip(x, y, z);
  }

  lemma ThreeMore(n: nat)
    ensures PadLength(n + 3) == PadLength(n) && 4 * ((n + 3 + 2) / 3) == 4 * ((n + 2) / 3) + 4
  {
  }

  lemma {:induction false} PaddedShape(bytes: seq<Byte>)
    ensures Shaped(Padded(bytes), PadLength(|bytes|)) && |Padded(bytes)| == 4 * ((|bytes| + 2) / 3)
  {
    hide Quad, Letter, Value, DecodeGroups;
    if |bytes| >= 3 {
      PaddedShape(bytes[3..]);
      QuadShape(bytes[0], bytes[1], bytes[2]);
      ThreeMore(|bytes[3..]|);
      ShapedConcat(Quad(bytes[0], bytes[1], bytes[2]), Padded(bytes[3..]), PadLength(|bytes|));
    } else if |bytes| == 2 {
      assert bytes == [bytes[0], bytes[1]];
      PairRoundTrip(bytes[0], bytes[1]);
    } else if |bytes| == 1 {
      assert bytes == [bytes[0]];
      SingleRoundTrip(bytes[0]);
    }
  }

  lemma TakeOfTake(s: string, m: nat, n: nat)
    requires n <= m <= |s|
    ensures s[..m][..n] == s[..n]
  {
  }

  lemma {:induction false} StripsExactly(s: string, pads: nat)
    requires Shaped(s, pads)
    ensures StripPadding(s) == s[..|s| - pads] && s == StripPadding(s) + Padding(pads)
  {
    EqualsSignIsNoLetter();
    hide Letter, Value;
    if pads > 0 {
      var front := s[..|s| - 1];
      StripsExactly(front, pads - 1);
      TakeOfTake(s, |s| - 1, |s| - pads);
      assert s == front + "=";
    } else if s != [] {
      assert Value(s[|s| - 1]).Some?;
    }
  }

  lemma PadArithmetic(n: nat)
    ensures var length := 4 * ((n + 2) / 3) - PadLength(n);
      length >= 0 && (4 - length % 4) % 4 == PadLength(n)
  {
    var q, r := n / 3, n % 3;
    assert n == 3 * q + r;
    if r == 0 { assert (n + 2) / 3 == q; } else { assert (n + 2) / 3 == q + 1; }
  }

  /** An encoding is `PadLength` letters shorter than its padded form and has no padding left. */
  lemma EncodeShape(bytes: seq<Byte>)
    ensures Shaped(Encode(bytes), 0)
    ensures |Encode(bytes)| == 4 * ((|bytes| + 2) / 3) - PadLength(|bytes|)
    ensures Padded(bytes) == Encode(bytes) + Padding(PadLength(|bytes|))
  {
    PaddedShape(bytes);
    StripsExactly(Padded(bytes), PadLength(|bytes|));
  }

  lemma FillsPadding(s: string, pads: nat)
    requires (4 - |s| % 4) % 4 == pads
    ensures Decode(s) == if |s| <= MAX_ENCODED then DecodeGroups(s + Padding(pads)) else Err(Malformed)
  {
  }

  /**
   Whatever the number of bytes, the encoding decodes to exactly those bytes as long as it is within the size
   limit of the decoder; longer encodings are refused.
   */
  lemma RoundTrip(bytes: seq<Byte>)
    ensures Decode(Encode(bytes)) == if |Encode(bytes)| <= MAX_ENCODED then Ok(bytes) else Err(Malformed)
  {
    EncodeShape(bytes);
    PadArithmetic(|bytes|);
    FillsPadding(Encode(bytes), PadLength(|bytes|));
    GroupsRoundTrip(bytes);
  }

  /** Hence different byte strings within the limit have different encodings. */
  lemma EncodeIsInjective(a: seq<Byte>, b: seq<Byte>)
    requires |Encode(a)| <= MAX_ENCODED && Encode(a) == Encode(b)
    ensures a == b
  {
    RoundTrip(a);
    RoundTrip(b);
  }

  // ---------- the standard ----------

  lemma DigitsAreSplit(x: Byte, y: Byte, z: Byte)
    ensures ((x / 4 * 64 + (x % 4 * 16 + y / 16)) * 64 + (y % 16 * 4 + z / 64)) * 64 + z % 64 == (x * 256 + y) * 256 + z
  {
    assert x == x / 4 * 4 + x % 4 && y == y / 16 * 16 + y % 16 && z == z / 64 * 64 + z % 64;
  }

  /** Every group of three bytes is one number, of four digits to the base 64 and of three to the base 256. */
  lemma GroupsAreNumbers(x: Byte, y: Byte, z: Byte, rest: seq<Byte>) returns (a: Sextet, b: Sextet, c: Sextet, d: Sextet)
    ensures ((a * 64 + b) * 64 + c) * 64 + d == (x * 256 + y) * 256 + z
    ensures Padded([x, y, z] + rest) == [Letter(a), Letter(b), Letter(c), Letter(d)] + Padded(rest)
  {
    a, b, c, d := x / 4, x % 4 * 16 + y / 16, y % 16 * 4 + z / 64, z % 64;
    DigitsAreSplit(x, y, z);
    assert ([x, y, z] + rest)[3..] == rest;
    hide Letter;
  }

  /** Three of the test vectors in section 10 of RFC 4648, without their padding, and the last two letters. */
  lemma TestVectors()
    ensures Encode([0x66]) == "Zg" && Encode([0x66, 0x6F]) == "Zm8" && Encode([0x66, 0x6F, 0x6F]) == "Zm9v"
    ensures Encode([0xFB, 0xEF, 0xFF]) == "--__"
  {
    assert Padded([0x66]) == "Zg==" && Padded([0x66, 0x6F]) == "Zm8=" && Padded([0x66, 0x6F, 0x6F]) == "Zm9v" + Padded([]);
    assert "Zg=="[..3] == "Zg=" && "Zg="[..2] == "Zg" && "Zm8="[..3] == "Zm8" && "Zm9v" + [] == "Zm9v";
    assert Padded([0xFB, 0xEF, 0xFF]) == "--__" + Padded([]) && "--__" + [] == "--__";
  }
}
