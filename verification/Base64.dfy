/** Base64 without padding (section 4 of RFC 4648, with section 3.2), as read and written by
    Go's base64.RawStdEncoding. */
module Base64 {
  import opened Wrappers

  type Byte = n: int | 0 <= n < 256

  type Bits6 = n: int | 0 <= n < 64

  // ---- bits ----

  function First(a: Bits6, b: Bits6): Byte {
    (a as int) * 4 + (b as int) / 16
  }

  function Second(b: Bits6, c: Bits6): Byte {
    (b as int) % 16 * 16 + (c as int) / 4
  }

  function Third(c: Bits6, d: Bits6): Byte {
    (c as int) % 4 * 64 + (d as int)
  }

  /** Three bytes are four groups of six bits; a last one or two bytes are two or three. */
  function Pack(bs: seq<Byte>): seq<Bits6> {
    if |bs| == 0 then []
    else if |bs| == 1 then [bs[0] / 4, bs[0] % 4 * 16]
    else if |bs| == 2 then [bs[0] / 4, bs[0] % 4 * 16 + bs[1] / 16, bs[1] % 16 * 4]
    else Quad(bs[0], bs[1], bs[2]) + Pack(bs[3..])
  }

  function Quad(a: Byte, b: Byte, c: Byte): seq<Bits6> {
    [a / 4, a % 4 * 16 + b / 16, b % 16 * 4 + c / 64, c % 64]
  }

  /** The decoder's side; bits left over after the last byte are ignored. */
  function Unpack(x: seq<Bits6>): seq<Byte>
    requires |x| % 4 != 1
  {
    if |x| >= 4 then [First(x[0], x[1]), Second(x[1], x[2]), Third(x[2], x[3])] + Unpack(x[4..])
    else if |x| == 3 then [First(x[0], x[1]), Second(x[1], x[2])]
    else if |x| == 2 then [First(x[0], x[1])]
    else []
  }

  /** The number that groups of six bits stand for, most significant first. */
  function Weighed(x: seq<Bits6>): nat {
    if x == [] then 0 else Weighed(x[..|x| - 1]) * 64 + (x[|x| - 1] as int)
  }

  lemma WeighedMore(x: seq<Bits6>, n: Bits6)
    ensures Weighed(x + [n]) == Weighed(x) * 64 + (n as int)
  {
    assert (x + [n])[..|x|] == x;
  }

  lemma WeighedTwo(a: Bits6, b: Bits6)
    ensures Weighed([a, b]) == (a as int) * 64 + (b as int)
  {
    WeighedMore([], a);
    WeighedMore([a], b);
    assert [] + [a] == [a] && [a] + [b] == [a, b];
  }

  lemma WeighedThree(a: Bits6, b: Bits6, c: Bits6)
    ensures Weighed([a, b, c]) == (a as int) * 4096 + (b as int) * 64 + (c as int)
  {
    WeighedTwo(a, b);
    WeighedMore([a, b], c);
    assert [a, b] + [c] == [a, b, c];
  }

  lemma WeighedFour(a: Bits6, b: Bits6, c: Bits6, d: Bits6)
    ensures Weighed([a, b, c, d]) == (a as int) * 262144 + (b as int) * 4096 + (c as int) * 64 + (d as int)
  {
    WeighedThree(a, b, c);
    WeighedMore([a, b, c], d);
    assert [a, b, c] + [d] == [a, b, c, d];
  }

  lemma Parts(n: int, d: int)
    requires d > 0
    ensures n == n / d * d + n % d
  {
  }

  /** Three bytes and their four groups are the same number. */
  lemma QuadIsNumber(a: Byte, b: Byte, c: Byte)
    ensures |Quad(a, b, c)| == 4 && Weighed(Quad(a, b, c)) == (a as int) * 65536 + (b as int) * 256 + (c as int)
  {
    WeighedFour(a / 4, a % 4 * 16 + b / 16, b % 16 * 4 + c / 64, c % 64);
    Parts(a, 4);
    Parts(b, 16);
    Parts(c, 64);
  }

  /** Two bytes and two zero bits are three groups. */
  lemma TwoAreNumber(a: Byte, b: Byte)
    ensures |Pack([a, b])| == 3 && Weighed(Pack([a, b])) == ((a as int) * 256 + (b as int)) * 4
  {
    WeighedThree(a / 4, a % 4 * 16 + b / 16, b % 16 * 4);
    Parts(a, 4);
    Parts(b, 16);
  }

  /** One byte and four zero bits are two. */
  lemma OneIsNumber(a: Byte)
    ensures |Pack([a])| == 2 && Weighed(Pack([a])) == (a as int) * 16
  {
    WeighedTwo(a / 4, a % 4 * 16);
    Parts(a, 4);
  }

  lemma QuadUnpacks(a: Byte, b: Byte, c: Byte)
    ensures var q := Quad(a, b, c);
            First(q[0], q[1]) == a && Second(q[1], q[2]) == b && Third(q[2], q[3]) == c
  {
  }

  lemma LengthShifts(n: nat)
    ensures (n + 4) % 4 == n % 4
  {
  }

  /** Four groups come back first. */
  lemma UnpackFirst(a: Bits6, b: Bits6, c: Bits6, d: Bits6, rest: seq<Bits6>)
    requires |rest| % 4 != 1
    ensures |[a, b, c, d] + rest| % 4 != 1
    ensures Unpack([a, b, c, d] + rest) == [First(a, b), Second(b, c), Third(c, d)] + Unpack(rest)
  {
    LengthShifts(|rest|);
    assert ([a, b, c, d] + rest)[4..] == rest;
  }

  lemma FirstUnpacks(a: Byte, b: Byte)
    ensures First(a / 4, a % 4 * 16 + b / 16) == a && First(a / 4, a % 4 * 16) == a
  {
  }

  lemma LowPart(high: nat, low: nat)
    requires low < 16
    ensures (high * 16 + low) % 16 == low && low * 4 / 4 == low
  {
  }

  lemma SecondUnpacks(a: Byte, b: Byte)
    ensures Second(a % 4 * 16 + b / 16, b % 16 * 4) == b
  {
    LowPart(a % 4, b / 16);
    LowPart(0, b % 16);
    Parts(b, 16);
  }

  lemma UnpackOne(a: Byte)
    ensures |Pack([a])| == 2 && Unpack(Pack([a])) == [a]
  {
    FirstUnpacks(a, 0);
  }

  lemma UnpackTwo(a: Byte, b: Byte)
    ensures |Pack([a, b])| == 3 && Unpack(Pack([a, b])) == [a, b]
  {
    FirstUnpacks(a, b);
    SecondUnpacks(a, b);
  }

  lemma PackFirst(a: Byte, b: Byte, c: Byte, rest: seq<Byte>)
    ensures Pack([a, b, c] + rest) == Quad(a, b, c) + Pack(rest)
  {
    assert ([a, b, c] + rest)[3..] == rest;
  }

  lemma {:induction false} UnpackPack(bs: seq<Byte>)
    ensures |Pack(bs)| % 4 != 1 && Unpack(Pack(bs)) == bs
  {
    if |bs| >= 3 {
      var a, b, c, rest := bs[0], bs[1], bs[2], bs[3..];
      var q := Quad(a, b, c);
      assert bs == [a, b, c] + rest;
      UnpackPack(rest);
      PackFirst(a, b, c, rest);
      QuadUnpacks(a, b, c);
      UnpackFirst(q[0], q[1], q[2], q[3], Pack(rest));
    } else if |bs| == 2 {
      assert bs == [bs[0], bs[1]];
      UnpackTwo(bs[0], bs[1]);
    } else if |bs| == 1 {
      assert bs == [bs[0]];
      UnpackOne(bs[0]);
    }
  }

  lemma FirstBack(a: Bits6, b: Bits6)
    ensures First(a, b) / 4 == a && First(a, b) % 4 == (b as int) / 16
  {
  }

  lemma SecondBack(b: Bits6, c: Bits6)
    ensures Second(b, c) / 16 == (b as int) % 16 && Second(b, c) % 16 == (c as int) / 4
  {
  }

  lemma ThirdBack(c: Bits6, d: Bits6)
    ensures Third(c, d) / 64 == (c as int) % 4 && Third(c, d) % 64 == d
  {
  }

  lemma MiddleBack(a: Bits6, b: Bits6, c: Bits6)
    ensures First(a, b) % 4 * 16 + Second(b, c) / 16 == b
  {
    FirstBack(a, b);
    SecondBack(b, c);
    Parts(b, 16);
  }

  lemma NextBack(b: Bits6, c: Bits6, d: Bits6)
    ensures Second(b, c) % 16 * 4 + Third(c, d) / 64 == c
  {
    SecondBack(b, c);
    ThirdBack(c, d);
    Parts(c, 4);
  }

  lemma QuadBack(a: Bits6, b: Bits6, c: Bits6, d: Bits6)
    ensures Quad(First(a, b), Second(b, c), Third(c, d)) == [a, b, c, d]
  {
    FirstBack(a, b);
    MiddleBack(a, b, c);
    NextBack(b, c, d);
    ThirdBack(c, d);
  }

  /** The bits that belong to no byte are zero. */
  predicate SpareBitsZero(x: seq<Bits6>) {
    && (|x| % 4 == 2 ==> x[|x| - 1] % 16 == 0)
    && (|x| % 4 == 3 ==> x[|x| - 1] % 4 == 0)
  }

  lemma PackOne(a: Bits6, b: Bits6)
    ensures Pack([First(a, b)]) == [a, (b as int) / 16 * 16]
  {
    FirstBack(a, b);
  }

  lemma PackTwo(a: Bits6, b: Bits6, c: Bits6)
    ensures Pack([First(a, b), Second(b, c)]) == [a, b, (c as int) / 4 * 4]
  {
    FirstBack(a, b);
    MiddleBack(a, b, c);
    SecondBack(b, c);
  }

  lemma SpareParts(b: Bits6)
    ensures (b as int) / 16 * 16 == b <==> b % 16 == 0
    ensures (b as int) / 4 * 4 == b <==> b % 4 == 0
  {
  }

  lemma {:induction false} PackUnpack(x: seq<Bits6>)
    requires |x| % 4 != 1
    ensures Pack(Unpack(x)) == x <==> SpareBitsZero(x)
  {
    if |x| >= 4 {
      var a, b, c, d, rest := x[0], x[1], x[2], x[3], x[4..];
      assert x == [a, b, c, d] + rest;
      PackUnpack(rest);
      UnpackFirst(a, b, c, d, rest);
      PackFirst(First(a, b), Second(b, c), Third(c, d), Unpack(rest));
      QuadBack(a, b, c, d);
      SamePrefix([a, b, c, d], Pack(Unpack(rest)), rest);
      SpareShift(x);
    } else if |x| == 2 {
      PackOne(x[0], x[1]);
      SpareParts(x[1]);
    } else if |x| == 3 {
      PackTwo(x[0], x[1], x[2]);
      SpareParts(x[2]);
    }
  }

  lemma SamePrefix<T>(a: seq<T>, b: seq<T>, c: seq<T>)
    ensures a + b == a + c <==> b == c
  {
    assert (a + b)[|a|..] == b && (a + c)[|a|..] == c;
  }

  lemma SpareShift(x: seq<Bits6>)
    requires |x| >= 4
    ensures SpareBitsZero(x) <==> SpareBitsZero(x[4..])
  {
    assert |x| > 4 ==> x[4..][|x[4..]| - 1] == x[|x| - 1];
  }

  // ---- characters ----

  function Symbol(n: Bits6): char {
    if n < 26 then ('A' as int + n) as char
    else if n < 52 then ('a' as int + (n - 26)) as char
    else if n < 62 then ('0' as int + (n - 52)) as char
    else if n == 62 then '+'
    else '/'
  }

  function BitsOf(c: char): Option<Bits6> {
    if 'A' <= c <= 'Z' then Some(c as int - 'A' as int)
    else if 'a' <= c <= 'z' then Some(c as int - 'a' as int + 26)
    else if '0' <= c <= '9' then Some(c as int - '0' as int + 52)
    else if c == '+' then Some(62)
    else if c == '/' then Some(63)
    else None
  }

  predicate InAlphabet(s: string) {
    forall i :: 0 <= i < |s| ==> BitsOf(s[i]).Some?
  }

  function AllBits(s: string): seq<Bits6>
    requires InAlphabet(s)
  {
    seq(|s|, i requires 0 <= i < |s| => BitsOf(s[i]).value)
  }

  function Symbols(x: seq<Bits6>): string {
    seq(|x|, i requires 0 <= i < |x| => Symbol(x[i]))
  }

  lemma BitsOfSymbols(x: seq<Bits6>)
    ensures InAlphabet(Symbols(x)) && AllBits(Symbols(x)) == x
  {
  }

  /** The decoder skips line breaks wherever they are. */
  function NoBreaks(s: string): string {
    if s == "" then ""
    else (if s[0] == '\r' || s[0] == '\n' then "" else [s[0]]) + NoBreaks(s[1..])
  }

  predicate HasBreak(s: string) {
    '\r' in s || '\n' in s
  }

  lemma {:induction false} NoBreaksSame(s: string)
    ensures !HasBreak(s) ==> NoBreaks(s) == s
    ensures HasBreak(s) ==> |NoBreaks(s)| < |s|
    ensures |NoBreaks(s)| <= |s| && !HasBreak(NoBreaks(s))
  {
    if s != "" {
      NoBreaksSame(s[1..]);
      assert s == [s[0]] + s[1..];
    }
  }

  /** The alphabet: A to Z, a to z, 0 to 9, plus and slash. */
  lemma AlphabetInOrder(n: Bits6)
    ensures Symbol(0) == 'A' && Symbol(25) == 'Z' && Symbol(26) == 'a' && Symbol(51) == 'z'
    ensures Symbol(52) == '0' && Symbol(61) == '9' && Symbol(62) == '+' && Symbol(63) == '/'
    ensures n < 61 && n != 25 && n != 51 ==> Symbol(n + 1) as int == Symbol(n) as int + 1
  {
  }

  // ---- the codec ----

  function Encode(bs: seq<Byte>): string {
    Symbols(Pack(bs))
  }

  function Decode(s: string): Option<seq<Byte>> {
    var t := NoBreaks(s);
    if InAlphabet(t) && |t| % 4 != 1 then Some(Unpack(AllBits(t))) else None
  }

  lemma EncodedIsPlain(bs: seq<Byte>)
    ensures InAlphabet(Encode(bs)) && !HasBreak(Encode(bs)) && '$' !in Encode(bs)
  {
    BitsOfSymbols(Pack(bs));
    forall c | c in Encode(bs) ensures c != '\r' && c != '\n' && c != '$' {
      assert BitsOf(c).Some?;
    }
  }

  lemma DecodeEncode(bs: seq<Byte>)
    ensures Decode(Encode(bs)) == Some(bs)
  {
    EncodedIsPlain(bs);
    NoBreaksSame(Encode(bs));
    BitsOfSymbols(Pack(bs));
    UnpackPack(bs);
  }

  lemma SymbolsOfBits(s: string)
    requires InAlphabet(s)
    ensures Symbols(AllBits(s)) == s
  {
    forall i | 0 <= i < |s| ensures Symbol(BitsOf(s[i]).value) == s[i] {
      BitsSymbol(s[i]);
    }
  }

  lemma BitsSymbol(c: char)
    requires BitsOf(c).Some?
    ensures Symbol(BitsOf(c).value) == c
  {
  }

  lemma SymbolsInjective(x: seq<Bits6>, y: seq<Bits6>)
    ensures Symbols(x) == Symbols(y) <==> x == y
  {
    BitsOfSymbols(x);
    BitsOfSymbols(y);
  }

  /** A text that decodes is the encoding of its bytes exactly when it has no line break and
      its spare bits are zero; the decoder takes the others too. */
  lemma EncodeDecode(s: string)
    requires Decode(s).Some?
    ensures Encode(Decode(s).value) == s <==> !HasBreak(s) && SpareBitsZero(AllBits(NoBreaks(s)))
  {
    NoBreaksSame(s);
    EncodedIsPlain(Decode(s).value);
    if !HasBreak(s) {
      SymbolsOfBits(s);
      SymbolsInjective(Pack(Decode(s).value), AllBits(s));
      PackUnpack(AllBits(s));
    }
  }
}
