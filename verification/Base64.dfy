/** b64_encode and the PEM wrapping of src/container.cpp, against a decoder written from
  * section 4 of RFC 4648.
  */
module Base64 {
  import opened TextLines
  import opened Wrappers

  type Byte = b: nat | b < 256

  const UPPER := "ABCDEFGHIJKLMNOPQRSTUVWXYZ"
  const LOWER := "abcdefghijklmnopqrstuvwxyz"
  const DIGITS := "0123456789"
  const T := UPPER + LOWER + DIGITS + "+/"

  // ---- the reference decoder --------------------------------------------------------------

  /** Table 1 of RFC 4648, read backwards. */
  function Value(c: char): Option<nat> {
    if 'A' <= c <= 'Z' then Some(c as int - 'A' as int)
    else if 'a' <= c <= 'z' then Some(c as int - 'a' as int + 26)
    else if '0' <= c <= '9' then Some(c as int - '0' as int + 52)
    else if c == '+' then Some(62)
    else if c == '/' then Some(63)
    else None
  }

  lemma ValueSmall(c: char)
    ensures Value(c) != None ==> Value(c).value < 64
  {
  }

  /** Four digits are three bytes; with padding they are two bytes or one, and the bits
    * left over must be zero.
    */
  function Quantum(a: char, b: char, c: char, d: char): Option<seq<Byte>> {
    ValueSmall(a);
    ValueSmall(b);
    ValueSmall(c);
    ValueSmall(d);
    if Value(a) == None || Value(b) == None then None
    else
      var ab := 64 * Value(a).value + Value(b).value;
      if c == '=' then if d == '=' && ab % 16 == 0 then Some([ab / 16]) else None
      else if Value(c) == None then None
      else
        var abc := 64 * ab + Value(c).value;
        if d == '=' then if abc % 4 == 0 then Some([abc / 1024, abc / 4 % 256]) else None
        else if Value(d) == None then None
        else
          var n := 64 * abc + Value(d).value;
          Some([n / 65536, n / 256 % 256, n % 256])
  }

  /** Only the last quantum may be padded. */
  function Decode(s: string): Option<seq<Byte>> {
    if s == "" then Some([])
    else if |s| < 4 then None
    else match Quantum(s[0], s[1], s[2], s[3])
      case None => None
      case Some(first) =>
        if |first| < 3 then if |s| == 4 then Some(first) else None
        else match Decode(s[4..])
          case None => None
          case Some(rest) => Some(first + rest)
  }

  // ---- the encoding ----------------------------------------------------------------------------

  lemma UpperAt(k: nat)
    requires k < 26
    ensures UPPER[k] as int == 'A' as int + k
  {
  }

  lemma LowerAt(k: nat)
    requires k < 26
    ensures LOWER[k] as int == 'a' as int + k
  {
  }

  lemma Alphabet(k: nat)
    requires k < 64
    ensures |T| == 64 && Value(T[k]) == Some(k) && T[k] != '=' && T[k] != '\n'
  {
    if k < 26 {
      UpperAt(k);
      assert T[k] == UPPER[k];
    } else if k < 52 {
      LowerAt(k - 26);
      assert T[k] == LOWER[k - 26];
    } else if k < 62 {
      assert T[k] == DIGITS[k - 52];
    }
  }

  lemma AlphabetSize()
    ensures |T| == 64
  {
    Alphabet(0);
  }

  function Letter(k: nat): (c: char)
    requires k < 64
    ensures Value(c) == Some(k) && c != '=' && c != '\n'
  {
    Alphabet(k);
    T[k]
  }

  /** n >> 18 & 63, n >> 12 & 63, n >> 6 & 63 and n & 63 for the 24 bits of n. */
  function Digits(n: nat): (nat, nat, nat, nat) {
    (n / 262144 % 64, n / 4096 % 64, n / 64 % 64, n % 64)
  }

  function Bits(a: Byte, b: Byte, c: Byte): nat {
    (a as nat) * 65536 + (b as nat) * 256 + (c as nat)
  }

  function Full(a: Byte, b: Byte, c: Byte): string {
    var d := Digits(Bits(a, b, c));
    [Letter(d.0), Letter(d.1), Letter(d.2), Letter(d.3)]
  }

  function Two(a: Byte, b: Byte): string {
    var d := Digits(Bits(a, b, 0));
    [Letter(d.0), Letter(d.1), Letter(d.2), '=']
  }

  function One(a: Byte): string {
    var d := Digits(Bits(a, 0, 0));
    [Letter(d.0), Letter(d.1), '=', '=']
  }

  function Encode(bs: seq<Byte>): string {
    if |bs| >= 3 then Full(bs[0], bs[1], bs[2]) + Encode(bs[3..])
    else if |bs| == 2 then Two(bs[0], bs[1])
    else if |bs| == 1 then One(bs[0])
    else ""
  }

  /** Cutting 24 bits into sixes loses nothing. */
  lemma SixesJoin(n: nat)
    requires n < 16777216
    ensures var d := Digits(n); ((d.0 * 64 + d.1) * 64 + d.2) * 64 + d.3 == n
  {
    assert n / 64 / 64 == n / 4096 && n / 4096 / 64 == n / 262144;
    assert n == 64 * (n / 64) + n % 64;
    assert n / 64 == 64 * (n / 4096) + n / 64 % 64;
    assert n / 4096 == 64 * (n / 262144) + n / 4096 % 64;
  }

  /** Neither does cutting them into bytes. */
  lemma BytesSplit(a: Byte, b: Byte, c: Byte)
    ensures var n := Bits(a, b, c); n < 16777216 && n / 65536 == a && n / 256 % 256 == b && n % 256 == c
  {
    var n := Bits(a, b, c);
    assert n / 256 == (a as nat) * 256 + (b as nat);
  }

  lemma FullDecodes(a: Byte, b: Byte, c: Byte)
    ensures var s := Full(a, b, c); Quantum(s[0], s[1], s[2], s[3]) == Some([a, b, c])
  {
    SixesJoin(Bits(a, b, c));
    BytesSplit(a, b, c);
    LettersDecode(Digits(Bits(a, b, c)), Bits(a, b, c));
  }

  lemma LettersDecode(d: (nat, nat, nat, nat), n: nat)
    requires d.0 < 64 && d.1 < 64 && d.2 < 64 && d.3 < 64
    requires ((d.0 * 64 + d.1) * 64 + d.2) * 64 + d.3 == n
    ensures Quantum(Letter(d.0), Letter(d.1), Letter(d.2), Letter(d.3)) == Some([n / 65536, n / 256 % 256, n % 256])
  {
    FullQuantum(Letter(d.0), Letter(d.1), Letter(d.2), Letter(d.3), n);
  }

  lemma FullQuantum(a: char, b: char, c: char, d: char, n: nat)
    requires Value(a) != None && Value(b) != None && Value(c) != None && Value(d) != None && c != '=' && d != '='
    requires n == 64 * (64 * (64 * Value(a).value + Value(b).value) + Value(c).value) + Value(d).value
    requires n < 16777216
    ensures Quantum(a, b, c, d) == Some([n / 65536, n / 256 % 256, n % 256])
  {
  }

  lemma TwoBits(a: Byte, b: Byte)
    ensures var d := Digits(Bits(a, b, 0)); var abc := (d.0 * 64 + d.1) * 64 + d.2;
      abc % 4 == 0 && abc / 1024 == a && abc / 4 % 256 == b
  {
    var n := Bits(a, b, 0);
    var d := Digits(n);
    SixesJoin(n);
    BytesSplit(a, b, 0);
    var abc := (d.0 * 64 + d.1) * 64 + d.2;
    assert abc == ((a as nat) * 256 + b as nat) * 4;
  }

  lemma OneBits(a: Byte)
    ensures var d := Digits(Bits(a, 0, 0)); var ab := d.0 * 64 + d.1; ab % 16 == 0 && ab / 16 == a
  {
    var d := Digits(Bits(a, 0, 0));
    SixesJoin(Bits(a, 0, 0));
    assert d.0 * 64 + d.1 == 16 * (a as nat);
  }

  lemma TwoLettersDecode(x: nat, y: nat, z: nat, abc: nat)
    requires x < 64 && y < 64 && z < 64 && abc == 64 * (64 * x + y) + z && abc % 4 == 0
    ensures Quantum(Letter(x), Letter(y), Letter(z), '=') == Some([abc / 1024, abc / 4 % 256])
  {
    PaddedQuantum(Letter(x), Letter(y), Letter(z), abc);
  }

  lemma PaddedQuantum(a: char, b: char, c: char, abc: nat)
    requires Value(a) != None && Value(b) != None && Value(c) != None && c != '='
    requires abc == 64 * (64 * Value(a).value + Value(b).value) + Value(c).value && abc % 4 == 0
    requires abc / 1024 < 256
    ensures Quantum(a, b, c, '=') == Some([abc / 1024, abc / 4 % 256])
  {
  }

  lemma OneLetterDecodes(x: nat, y: nat, ab: nat)
    requires x < 64 && y < 64 && ab == x * 64 + y && ab % 16 == 0
    ensures Quantum(Letter(x), Letter(y), '=', '=') == Some([ab / 16])
  {
  }

  lemma TwoDecodes(a: Byte, b: Byte)
    ensures var s := Two(a, b); Quantum(s[0], s[1], s[2], s[3]) == Some([a, b])
  {
    var d := Digits(Bits(a, b, 0));
    TwoBits(a, b);
    var abc := (d.0 * 64 + d.1) * 64 + d.2;
    assert abc == 64 * (64 * d.0 + d.1) + d.2;
    TwoLettersDecode(d.0, d.1, d.2, abc);
  }

  lemma OneDecodes(a: Byte)
    ensures var s := One(a); Quantum(s[0], s[1], s[2], s[3]) == Some([a])
  {
    var d := Digits(Bits(a, 0, 0));
    OneBits(a);
    OneLetterDecodes(d.0, d.1, d.0 * 64 + d.1);
  }

  lemma DecodeStep(four: string, rest: string, three: seq<Byte>, bs: seq<Byte>)
    requires |four| == 4 && |three| == 3 && Quantum(four[0], four[1], four[2], four[3]) == Some(three)
    requires Decode(rest) == Some(bs)
    ensures Decode(four + rest) == Some(three + bs)
  {
    assert (four + rest)[4..] == rest;
  }

  lemma DecodeLast(four: string, few: seq<Byte>)
    requires |four| == 4 && |few| < 3 && Quantum(four[0], four[1], four[2], four[3]) == Some(few)
    ensures Decode(four) == Some(few)
  {
  }

  lemma TwoDecode(a: Byte, b: Byte)
    ensures Decode(Two(a, b)) == Some([a, b])
  {
    TwoDecodes(a, b);
    DecodeLast(Two(a, b), [a, b]);
  }

  lemma OneDecode(a: Byte)
    ensures Decode(One(a)) == Some([a])
  {
    OneDecodes(a);
    DecodeLast(One(a), [a]);
  }

  /** The decoder recovers every byte string. */
  lemma {:induction false} DecodeInvertsEncode(bs: seq<Byte>)
    ensures Decode(Encode(bs)) == Some(bs)
    decreases |bs|
  {
    if |bs| >= 3 {
      FullDecodes(bs[0], bs[1], bs[2]);
      DecodeInvertsEncode(bs[3..]);
      DecodeStep(Full(bs[0], bs[1], bs[2]), Encode(bs[3..]), [bs[0], bs[1], bs[2]], bs[3..]);
      assert [bs[0], bs[1], bs[2]] + bs[3..] == bs;
    } else if |bs| == 2 {
      TwoDecode(bs[0], bs[1]);
      assert bs == [bs[0], bs[1]];
    } else if |bs| == 1 {
      OneDecode(bs[0]);
      assert bs == [bs[0]];
    }
  }

  function Padding(n: nat): nat {
    if n % 3 == 0 then 0 else 3 - n % 3
  }

  /** The last p characters are padding, no other one is, and nothing is a line end. */
  predicate Padded(s: string, p: nat) {
    p <= |s| && forall i | 0 <= i < |s| :: s[i] != '\n' && (s[i] == '=' <==> i >= |s| - p)
  }

  lemma PaddedBehind(a: string, b: string, p: nat)
    requires Padded(a, 0) && Padded(b, p)
    ensures Padded(a + b, p)
  {
  }

  lemma ShapeStep(four: string, rest: string, n: nat)
    requires n >= 3 && |four| == 4 && Padded(four, 0)
    requires |rest| == 4 * ((n - 3 + 2) / 3) && Padded(rest, Padding(n - 3))
    ensures |four + rest| == 4 * ((n + 2) / 3) && Padded(four + rest, Padding(n))
  {
    PaddedBehind(four, rest, Padding(n - 3));
  }

  lemma FullIsPadded(a: Byte, b: Byte, c: Byte)
    ensures Padded(Full(a, b, c), 0) && Padded(Two(a, b), 1) && Padded(One(a), 2)
  {
  }

  /** Four characters for every three bytes or part of them; padding fills up the last
    * four and stands nowhere else.
    */
  lemma {:induction false} EncodeShape(bs: seq<Byte>)
    ensures |Encode(bs)| == 4 * ((|bs| + 2) / 3) && Padded(Encode(bs), Padding(|bs|))
    decreases |bs|
  {
    if |bs| >= 3 {
      FullIsPadded(bs[0], bs[1], bs[2]);
      EncodeShape(bs[3..]);
      ShapeStep(Full(bs[0], bs[1], bs[2]), Encode(bs[3..]), |bs|);
    } else if |bs| > 0 {
      FullIsPadded(bs[0], if |bs| == 2 then bs[1] else 0, 0);
    }
  }

  lemma EncodeGoesOn(bs: seq<Byte>, i: nat)
    requires i + 2 < |bs|
    ensures Encode(bs[i..]) == Full(bs[i], bs[i + 1], bs[i + 2]) + Encode(bs[i + 3..])
  {
    assert bs[i..][3..] == bs[i + 3..];
  }

  /** One round of the loop of b64_encode. */
  method Triple(a: Byte, b: Byte, c: Byte) returns (s: string)
    ensures s == Full(a, b, c)
  {
    var n: nat := a as nat * 65536 + b as nat * 256 + c as nat;
    AlphabetSize();
    s := [T[n / 262144 % 64], T[n / 4096 % 64], T[n / 64 % 64], T[n % 64]];
  }

  /** What b64_encode does with the one or two bytes left over. */
  method Tail(a: Byte, more: bool, b: Byte) returns (s: string)
    ensures s == if more then Two(a, b) else One(a)
  {
    var n: nat := a as nat * 65536;
    if more { n := n + b as nat * 256; }
    AlphabetSize();
    s := [T[n / 262144 % 64], T[n / 4096 % 64], if more then T[n / 64 % 64] else '=', '='];
  }

  /** b64_encode */
  method B64Encode(input: seq<Byte>) returns (out: string)
    ensures out == Encode(input)
  {
    out := "";
    var i := 0;
    assert input[0..] == input;
    while i + 2 < |input|
      invariant 0 <= i <= |input|
      invariant out + Encode(input[i..]) == Encode(input)
    {
      EncodeGoesOn(input, i);
      var four := Triple(input[i], input[i + 1], input[i + 2]);
      assert out + (four + Encode(input[i + 3..])) == (out + four) + Encode(input[i + 3..]);
      out := out + four;
      i := i + 3;
    }
    if i < |input| {
      var last := Tail(input[i], i + 1 < |input|, if i + 1 < |input| then input[i + 1] else 0);
      out := out + last;
    } else {
      assert input[i..] == [];
    }
  }

  // ---- PEM -------------------------------------------------------------------------------------

  /** The lines of 64 characters, the last one possibly shorter. */
  function Chunks(s: string): seq<string> {
    if s == "" then [] else if |s| <= 64 then [s] else [s[..64]] + Chunks(s[64..])
  }

  predicate FullButLast(lines: seq<string>) {
    forall i | 0 <= i < |lines| :: 1 <= |lines[i]| <= 64 && (i < |lines| - 1 ==> |lines[i]| == 64)
  }

  lemma {:induction false} ChunksFit(s: string)
    ensures Concat(Chunks(s)) == s && FullButLast(Chunks(s))
    decreases |s|
  {
    if |s| > 64 {
      ChunksFit(s[64..]);
      var rest := Chunks(s[64..]);
      assert Chunks(s)[1..] == rest;
      assert s[..64] + s[64..] == s;
    }
  }

  /** The wrapping loop of ensure_pem_cert. */
  method Wrap(b64: string) returns (body: string)
    ensures body == Join(Chunks(b64))
  {
    body := "";
    var i := 0;
    assert b64[0..] == b64;
    while i < |b64|
      invariant 0 <= i
      invariant body + Join(Chunks(if i <= |b64| then b64[i..] else "")) == Join(Chunks(b64))
    {
      var line := if i + 64 <= |b64| then b64[i..i + 64] else b64[i..];
      ChunkOff(body, b64[i..]);
      ghost var left := b64[i..];
      assert |left| > 64 ==> left[..64] == line && left[64..] == b64[i + 64..];
      assert |left| <= 64 ==> left == line;
      body := body + line + "\n";
      i := i + 64;
    }
  }

  lemma ChunkOff(body: string, left: string)
    requires left != ""
    ensures body + Join(Chunks(left)) ==
      if |left| <= 64 then body + left + "\n" + Join(Chunks("")) else body + left[..64] + "\n" + Join(Chunks(left[64..]))
  {
    if |left| <= 64 {
      assert [left][1..] == [];
      Regroup(body, left, Join(Chunks("")));
    } else {
      var rest := Chunks(left[64..]);
      assert ([left[..64]] + rest)[1..] == rest;
      Regroup(body, left[..64], Join(rest));
    }
  }

  lemma Regroup(body: string, line: string, rest: string)
    ensures body + (line + "\n" + rest) == body + line + "\n" + rest
  {
  }

  function Unwrap(body: string): string {
    if body == "" then "" else (if body[0] == '\n' then "" else [body[0]]) + Unwrap(body[1..])
  }

  lemma {:induction false} UnwrapConcat(a: string, b: string)
    ensures Unwrap(a + b) == Unwrap(a) + Unwrap(b)
    decreases a
  {
    if a == "" {
      assert a + b == b;
    } else {
      assert (a + b)[1..] == a[1..] + b;
      UnwrapConcat(a[1..], b);
    }
  }

  lemma {:induction false} UnwrapPlain(a: string)
    requires forall i | 0 <= i < |a| :: a[i] != '\n'
    ensures Unwrap(a) == a
    decreases a
  {
    if a != "" { UnwrapPlain(a[1..]); }
  }

  lemma {:induction false} UnwrapInverts(s: string)
    requires forall i | 0 <= i < |s| :: s[i] != '\n'
    ensures Unwrap(Join(Chunks(s))) == s
    decreases |s|
  {
    if s != "" {
      var line := if |s| <= 64 then s else s[..64];
      var rest := if |s| <= 64 then "" else s[64..];
      UnwrapInverts(rest);
      UnwrapLine(line);
      UnwrapConcat(line + "\n", Join(Chunks(rest)));
      FirstChunk(s);
      assert line + rest == s;
    }
  }

  lemma UnwrapLine(line: string)
    requires forall i | 0 <= i < |line| :: line[i] != '\n'
    ensures Unwrap(line + "\n") == line
  {
    UnwrapPlain(line);
    UnwrapConcat(line, "\n");
    assert "\n"[1..] == "";
  }

  lemma FirstChunk(s: string)
    requires s != ""
    ensures var line := if |s| <= 64 then s else s[..64];
      var rest := if |s| <= 64 then "" else s[64..];
      Join(Chunks(s)) == (line + "\n") + Join(Chunks(rest))
  {
    if |s| <= 64 {
      assert [s][1..] == [];
    } else {
      assert ([s[..64]] + Chunks(s[64..]))[1..] == Chunks(s[64..]);
    }
  }

  /** Reading the body of the PEM file back gives the certificate. */
  lemma PemDecodes(der: seq<Byte>)
    ensures Decode(Unwrap(Join(Chunks(Encode(der))))) == Some(der)
  {
    EncodeShape(der);
    UnwrapInverts(Encode(der));
    DecodeInvertsEncode(der);
  }
}
