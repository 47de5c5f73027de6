/**
 Base64url without padding (RFC 4648, sections 5 and 3.2), as both token services spell it
 (birr-track-backend/src/transactions/export-link.service.ts).
 */
module Base64Url {
  import opened Common
  import opened Strings

  /** Two bits. */
  type Pair = n: nat | n < 4

  /** A byte and a sextet as their bits, two by two, the high ones first. */
  datatype Byte = Byte(a: Pair, b: Pair, c: Pair, d: Pair)

  datatype Sextet = Sextet(a: Pair, b: Pair, c: Pair)

  /** How sextets are written, and what a character stands for. */
  datatype Alphabet = Alphabet(letter: Sextet -> char, sextet: char -> Option<Sextet>) {
    /** Letters can be read back, and are none of the characters with another use in tokens. */
    ghost predicate Fits() {
      forall s ::
        && sextet(letter(s)) == Some(s)
        && letter(s) != '=' && letter(s) != '-' && letter(s) != '_' && letter(s) != '.'
    }
  }

  // ------------------------------------------------------------- bytes as sextets

  const ZERO := Byte(0, 0, 0, 0)

  /** The four sextets of three bytes. */
  function Group(x: Byte, y: Byte, z: Byte): (ss: seq<Sextet>)
    ensures |ss| == 4
  {
    [Sextet(x.a, x.b, x.c), Sextet(x.d, y.a, y.b), Sextet(y.c, y.d, z.a), Sextet(z.b, z.c, z.d)]
  }

  /** Three bytes are four sextets; one byte left over is two sextets, two bytes are three. */
  function Sextets(bytes: seq<Byte>): seq<Sextet> {
    if |bytes| == 0 then []
    else if |bytes| == 1 then Group(bytes[0], ZERO, ZERO)[..2]
    else if |bytes| == 2 then Group(bytes[0], bytes[1], ZERO)[..3]
    else Group(bytes[0], bytes[1], bytes[2]) + Sextets(bytes[3..])
  }

  function FirstByte(s: Sextet, t: Sextet): Byte { Byte(s.a, s.b, s.c, t.a) }

  function SecondByte(t: Sextet, u: Sextet): Byte { Byte(t.b, t.c, u.a, u.b) }

  function ThirdByte(u: Sextet, v: Sextet): Byte { Byte(u.c, v.a, v.b, v.c) }

  /** The bytes that sextets carry; bits left over are dropped. */
  function Bytes(ss: seq<Sextet>): seq<Byte> {
    if |ss| < 2 then []
    else if |ss| == 2 then [FirstByte(ss[0], ss[1])]
    else if |ss| == 3 then [FirstByte(ss[0], ss[1]), SecondByte(ss[1], ss[2])]
    else [FirstByte(ss[0], ss[1]), SecondByte(ss[1], ss[2]), ThirdByte(ss[2], ss[3])] + Bytes(ss[4..])
  }

  /** Splitting bytes into sextets and putting them together again. */
  lemma {:induction false} BytesOfSextets(bytes: seq<Byte>)
    ensures Bytes(Sextets(bytes)) == bytes
    decreases |bytes|
  {
    if |bytes| >= 3 {
      BytesOfSextets(bytes[3..]);
      assert Sextets(bytes)[4..] == Sextets(bytes[3..]);
      assert [bytes[0], bytes[1], bytes[2]] + bytes[3..] == bytes;
    }
  }

  /** How many bytes the last group is short. */
  function Short(bytes: seq<Byte>): nat {
    if |bytes| == 0 then 0 else if |bytes| < 3 then 3 - |bytes| else Short(bytes[3..])
  }

  // --------------------------------------------------------------- sextets as text

  function Print(alphabet: Alphabet, ss: seq<Sextet>): (s: string)
    ensures |s| == |ss|
  {
    if ss == [] then "" else [alphabet.letter(ss[0])] + Print(alphabet, ss[1..])
  }

  function Parse(alphabet: Alphabet, s: string): Option<seq<Sextet>> {
    if s == "" then Some([])
    else
      match (alphabet.sextet(s[0]), Parse(alphabet, s[1..]))
      case (Some(first), Some(rest)) => Some([first] + rest)
      case _ => None
  }

  lemma {:induction false} ParsePrint(alphabet: Alphabet, ss: seq<Sextet>)
    requires alphabet.Fits()
    ensures Parse(alphabet, Print(alphabet, ss)) == Some(ss)
    ensures forall c :: c in Print(alphabet, ss) ==> c != '=' && c != '-' && c != '_' && c != '.'
  {
    if ss != [] {
      ParsePrint(alphabet, ss[1..]);
      var text := Print(alphabet, ss);
      assert text[0] == alphabet.letter(ss[0]) && text[1..] == Print(alphabet, ss[1..]);
      assert [ss[0]] + ss[1..] == ss;
    }
  }

  // ------------------------------------------------------------- base64 with padding

  function Repeat(c: char, n: nat): (s: string)
    ensures |s| == n && forall i :: 0 <= i < n ==> s[i] == c
  {
    seq(n, _ => c)
  }

  /** The characters that carry data: base64 before padding. */
  function Body(alphabet: Alphabet, bytes: seq<Byte>): string { Print(alphabet, Sextets(bytes)) }

  /** `Buffer.toString('base64')`: a byte short costs one `=`, two bytes short two. */
  function Encode(alphabet: Alphabet, bytes: seq<Byte>): string { Body(alphabet, bytes) + Repeat('=', Short(bytes)) }

  /** Where the padding starts. */
  function DataLength(s: string): (n: nat)
    ensures n <= |s|
  {
    if s == "" || s[0] == '=' then 0 else 1 + DataLength(s[1..])
  }

  /** `Buffer.from(s, 'base64')` on well-formed padded text. */
  function Decode(alphabet: Alphabet, s: string): Option<seq<Byte>> {
    var n := DataLength(s);
    if |s| % 4 != 0 || |s| - n > 2 || s[n..] != Repeat('=', |s| - n) then None
    else
      match Parse(alphabet, s[..n])
      case None => None
      case Some(ss) => Some(Bytes(ss))
  }

  lemma {:induction false} DataLengthStops(body: string, n: nat)
    requires '=' !in body
    ensures DataLength(body + Repeat('=', n)) == |body|
  {
    var s := body + Repeat('=', n);
    if body == "" {
      assert s == Repeat('=', n);
    } else {
      assert s[1..] == body[1..] + Repeat('=', n);
      DataLengthStops(body[1..], n);
    }
  }

  lemma DecodeBody(alphabet: Alphabet, body: string, ss: seq<Sextet>, n: nat)
    requires '=' !in body && Parse(alphabet, body) == Some(ss) && n <= 2 && (|body| + n) % 4 == 0
    ensures Decode(alphabet, body + Repeat('=', n)) == Some(Bytes(ss))
  {
    DataLengthStops(body, n);
    var s := body + Repeat('=', n);
    assert s[..|body|] == body;
    assert s[|body|..] == Repeat('=', n);
  }

  /** How many `=` the decoder puts back behind text of length `n`. */
  function PadCount(n: nat): nat { (4 - n % 4) % 4 }

  /** The length of the data alone tells how many bytes the last group is short. */
  lemma {:induction false} PaddingFits(bytes: seq<Byte>) returns (groups: nat)
    ensures |Sextets(bytes)| == 4 * groups - Short(bytes) && Short(bytes) <= 2
    ensures PadCount(|Sextets(bytes)|) == Short(bytes) && (|Sextets(bytes)| + Short(bytes)) % 4 == 0
    decreases |bytes|
  {
    if |bytes| < 3 {
      groups := if bytes == [] then 0 else 1;
    } else {
      groups := PaddingFits(bytes[3..]);
      groups := groups + 1;
    }
  }

  /** Decoding undoes encoding on every byte string. */
  lemma DecodeEncode(alphabet: Alphabet, bytes: seq<Byte>)
    requires alphabet.Fits()
    ensures Decode(alphabet, Encode(alphabet, bytes)) == Some(bytes)
  {
    BytesOfSextets(bytes);
    var groups := PaddingFits(bytes);
    ParsePrint(alphabet, Sextets(bytes));
    DecodeBody(alphabet, Body(alphabet, bytes), Sextets(bytes), Short(bytes));
  }

  /** The re-padding formula restores exactly the `=` signs that encoding would have written. */
  lemma PaddingIsRestored(alphabet: Alphabet, bytes: seq<Byte>)
    ensures Encode(alphabet, bytes) == Body(alphabet, bytes) + Repeat('=', PadCount(|Body(alphabet, bytes)|))
  {
    var groups := PaddingFits(bytes);
  }

  function UrlEncode(alphabet: Alphabet, bytes: seq<Byte>): string {
    ReplaceAll(ReplaceAll(ReplaceAll(Encode(alphabet, bytes), '+', "-"), '/', "_"), '=', "")
  }

  function UrlDecode(alphabet: Alphabet, input: string): Option<seq<Byte>> {
    var base64 := ReplaceAll(ReplaceAll(input, '-', "+"), '_', "/");
    Decode(alphabet, base64 + Repeat('=', PadCount(|base64|)))
  }

  // ------------------------------------------------------------ the url alphabet

  /** Swapping one character for another that does not occur, and back, changes nothing. */
  lemma {:induction false} SwapAndBack(s: string, c: char, d: char)
    requires d !in s
    ensures ReplaceAll(ReplaceAll(s, c, [d]), d, [c]) == s
    ensures |ReplaceAll(s, c, [d])| == |s|
    ensures forall x :: x in ReplaceAll(s, c, [d]) ==> x == d || (x in s && x != c)
  {
    if s != "" {
      SwapAndBack(s[1..], c, d);
      var head, tail := if s[0] == c then [d] else [s[0]], ReplaceAll(s[1..], c, [d]);
      assert ReplaceAll(s, c, [d]) == head + tail;
      assert (head + tail)[0] == head[0] && (head + tail)[1..] == tail;
    }
  }

  /** The text between encoder and decoder: the body in the url alphabet. */
  function UrlBody(alphabet: Alphabet, bytes: seq<Byte>): string {
    ReplaceAll(ReplaceAll(Body(alphabet, bytes), '+', "-"), '/', "_")
  }

  lemma BodySwaps(alphabet: Alphabet, bytes: seq<Byte>)
    requires alphabet.Fits()
    ensures ReplaceAll(ReplaceAll(UrlBody(alphabet, bytes), '_', "/"), '-', "+") == Body(alphabet, bytes)
    ensures |UrlBody(alphabet, bytes)| == |Body(alphabet, bytes)|
    ensures forall x :: x in UrlBody(alphabet, bytes) ==> x != '=' && x != '.' && x != '+' && x != '/'
  {
    ParsePrint(alphabet, Sextets(bytes));
    var body := Body(alphabet, bytes);
    SwapAndBack(body, '+', '-');
    SwapAndBack(ReplaceAll(body, '+', "-"), '/', '_');
  }

  lemma {:induction false} SwapsCommute(s: string)
    ensures ReplaceAll(ReplaceAll(s, '-', "+"), '_', "/") == ReplaceAll(ReplaceAll(s, '_', "/"), '-', "+")
  {
    if s != "" {
      SwapsCommute(s[1..]);
    }
  }

  lemma {:induction false} StripPadding(n: nat)
    ensures ReplaceAll(Repeat('=', n), '=', "") == ""
    decreases n
  {
    if n > 0 {
      assert Repeat('=', n)[1..] == Repeat('=', n - 1);
      StripPadding(n - 1);
    }
  }

  /** Encoding writes the body in the url alphabet and nothing else. */
  lemma UrlEncodeIsBody(alphabet: Alphabet, bytes: seq<Byte>)
    requires alphabet.Fits()
    ensures UrlEncode(alphabet, bytes) == UrlBody(alphabet, bytes)
  {
    var body, pad := Body(alphabet, bytes), Repeat('=', PadCount(|Body(alphabet, bytes)|));
    PaddingIsRestored(alphabet, bytes);
    BodySwaps(alphabet, bytes);
    ReplaceAllConcat(body, pad, '+', "-");
    ReplaceAllAbsent(pad, '+', "-");
    ReplaceAllConcat(ReplaceAll(body, '+', "-"), pad, '/', "_");
    ReplaceAllAbsent(pad, '/', "_");
    ReplaceAllConcat(UrlBody(alphabet, bytes), pad, '=', "");
    ReplaceAllAbsent(UrlBody(alphabet, bytes), '=', "");
    StripPadding(PadCount(|body|));
    assert UrlBody(alphabet, bytes) + "" == UrlBody(alphabet, bytes);
  }

  /** Decoding undoes encoding on every byte string. */
  lemma UrlRoundTrip(alphabet: Alphabet, bytes: seq<Byte>)
    requires alphabet.Fits()
    ensures UrlDecode(alphabet, UrlEncode(alphabet, bytes)) == Some(bytes)
  {
    UrlEncodeIsBody(alphabet, bytes);
    BodySwaps(alphabet, bytes);
    SwapsCommute(UrlBody(alphabet, bytes));
    PaddingIsRestored(alphabet, bytes);
    DecodeEncode(alphabet, bytes);
  }

  lemma UrlEncodeInjective(alphabet: Alphabet, a: seq<Byte>, b: seq<Byte>)
    requires alphabet.Fits() && UrlEncode(alphabet, a) == UrlEncode(alphabet, b)
    ensures a == b
  {
    UrlRoundTrip(alphabet, a);
    UrlRoundTrip(alphabet, b);
  }

  /** Encoded text never contains the frame separator, a sign of padding, or `+` and `/`. */
  lemma UrlEncodeAlphabet(alphabet: Alphabet, bytes: seq<Byte>)
    requires alphabet.Fits()
    ensures forall c :: c in UrlEncode(alphabet, bytes) ==> c != '.' && c != '=' && c != '+' && c != '/'
    ensures UrlEncode(alphabet, bytes) == "" <==> bytes == []
  {
    UrlEncodeIsBody(alphabet, bytes);
    BodySwaps(alphabet, bytes);
  }

  // ------------------------------------------------------------- the standard alphabet

  /** The letters of RFC 4648, section 4, by number. */
  function CharOf(n: nat): char
    requires n < 64
  {
    if n < 26 then (n + 65) as char
    else if n < 52 then (n + 71) as char
    else if n < 62 then (n - 4) as char
    else if n == 62 then '+'
    else '/'
  }

  function NumberOf(c: char): (n: Option<nat>)
    ensures n.Some? ==> n.value < 64
  {
    var n := c as int;
    if 65 <= n < 91 then Some(n - 65)
    else if 97 <= n < 123 then Some(n - 71)
    else if 48 <= n < 58 then Some(n + 4)
    else if c == '+' then Some(62)
    else if c == '/' then Some(63)
    else None
  }

  function Number(s: Sextet): (n: nat)
    ensures n < 64
  {
    16 * s.a + 4 * s.b + s.c
  }

  /** The highest pair of `n`, given the weight of its lowest bit. */
  function Leading(n: nat, weight: nat): Pair {
    if n < weight then 0 else if n < 2 * weight then 1 else if n < 3 * weight then 2 else 3
  }

  function SextetOf(n: nat): (s: Sextet)
    requires n < 64
    ensures Number(s) == n
  {
    var a := Leading(n, 16);
    var b := Leading(n - 16 * a, 4);
    Sextet(a, b, n - 16 * a - 4 * b)
  }

  function ReadLetter(c: char): Option<Sextet> {
    match NumberOf(c)
    case None => None
    case Some(n) => Some(SextetOf(n))
  }

  const STANDARD := Alphabet(s => CharOf(Number(s)), ReadLetter)

  /** Table 1 of RFC 4648. */
  lemma StandardIsTheTable(s: Sextet)
    ensures var n, letter := 16 * s.a + 4 * s.b + s.c, STANDARD.letter(s);
            && (n < 26 ==> letter == ('A' as int + n) as char)
            && (26 <= n < 52 ==> letter == ('a' as int + (n - 26)) as char)
            && (52 <= n < 62 ==> letter == ('0' as int + (n - 52)) as char)
            && (n == 62 ==> letter == '+') && (n == 63 ==> letter == '/') && n < 64
  {
  }

  function Octet(x: Byte): nat { 64 * x.a + 16 * x.b + 4 * x.c + x.d }

  /** Three bytes and their four sextets are one number, to base 256 and to base 64. */
  lemma GroupIsOneNumber(x: Byte, y: Byte, z: Byte)
    ensures var ss := Group(x, y, z);
            262144 * Number(ss[0]) + 4096 * Number(ss[1]) + 64 * Number(ss[2]) + Number(ss[3])
            == 65536 * Octet(x) + 256 * Octet(y) + Octet(z)
  {
  }

  lemma SextetRoundTrip(s: Sextet)
    ensures SextetOf(Number(s)) == s
  {
    assert 4 * s.b + s.c < 16;
    assert Leading(Number(s), 16) == s.a;
    assert Leading(4 * s.b + s.c, 4) == s.b;
  }

  lemma CharRoundTrip(n: nat)
    requires n < 64
    ensures NumberOf(CharOf(n)) == Some(n)
    ensures CharOf(n) != '=' && CharOf(n) != '-' && CharOf(n) != '_' && CharOf(n) != '.'
  {
  }

  lemma StandardFits()
    ensures STANDARD.Fits()
  {
    forall s: Sextet
      ensures STANDARD.sextet(STANDARD.letter(s)) == Some(s)
      ensures var c := STANDARD.letter(s); c != '=' && c != '-' && c != '_' && c != '.'
    {
      SextetRoundTrip(s);
      CharRoundTrip(Number(s));
    }
  }
}
