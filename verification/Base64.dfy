/** URL-safe base64 as both cursor codecs use it: the encoder's padding is
    stripped, and the decoder re-pads by length before the lenient decoder of
    the standard library runs (RFC 4648, sections 3.2 and 5). */
module Base64 {
  import opened Wrappers

  type Byte = x: nat | x < 256

  function CharOf(v: nat): (c: char)
    requires v < 64
    ensures c != '=' && c < 128 as char
    ensures ValueOf(c) == Some(v)
  {
    if v < 26 then ('A' as int + v) as char
    else if v < 52 then ('a' as int + v - 26) as char
    else if v < 62 then ('0' as int + v - 52) as char
    else if v == 62 then '-'
    else '_'
  }

  /** The value of one character, or None for a character the lenient decoder
      skips. The translation step maps '-' and '_' onto '+' and '/', which are
      themselves left alone, so both spellings decode. */
  function ValueOf(c: char): (v: Option<nat>)
    ensures v.Some? ==> v.value < 64
  {
    if 'A' <= c <= 'Z' then Some(c as int - 'A' as int)
    else if 'a' <= c <= 'z' then Some(c as int - 'a' as int + 26)
    else if '0' <= c <= '9' then Some(c as int - '0' as int + 52)
    else if c == '+' || c == '-' then Some(62)
    else if c == '/' || c == '_' then Some(63)
    else None
  }

  /** The four characters of one full group. */
  function Group(x: Byte, y: Byte, z: Byte): string {
    [CharOf(x / 4), CharOf(x % 4 * 16 + y / 16), CharOf(y % 16 * 4 + z / 64), CharOf(z % 64)]
  }

  /** The characters of the encoding, without padding. */
  function EncodeUnpadded(b: seq<Byte>): string {
    if |b| == 0 then ""
    else if |b| == 1 then Group(b[0], 0, 0)[..2]
    else if |b| == 2 then Group(b[0], b[1], 0)[..3]
    else Group(b[0], b[1], b[2]) + EncodeUnpadded(b[3..])
  }

  /** The data characters never contain padding and are all ASCII. */
  lemma {:induction false} EncodedShape(b: seq<Byte>)
    ensures forall c :: c in EncodeUnpadded(b) ==> c != '=' && c < 128 as char
  {
    if |b| >= 3 {
      EncodedShape(b[3..]);
      var g, rest := Group(b[0], b[1], b[2]), EncodeUnpadded(b[3..]);
      forall c | c in g + rest ensures c in g || c in rest {}
    }
  }

  /** The characters of the URL-safe alphabet. */
  predicate UrlSafe(c: char) {
    'A' <= c <= 'Z' || 'a' <= c <= 'z' || '0' <= c <= '9' || c == '-' || c == '_'
  }

  lemma {:induction false} UrlSafeChars(b: seq<Byte>, i: nat)
    requires i < |EncodeUnpadded(b)|
    ensures UrlSafe(EncodeUnpadded(b)[i])
  {
    if |b| >= 3 && i >= 4 { UrlSafeChars(b[3..], i - 4); }
  }

  /** How many pads the encoder adds after `b`. */
  function PadsOf(b: seq<Byte>): nat {
    if |b| == 1 then 2 else if |b| == 2 then 1 else if |b| == 0 then 0 else PadsOf(b[3..])
  }

  /** The stripped length modulo four is enough to restore the padding. */
  lemma {:induction false} PadsFromLength(b: seq<Byte>)
    ensures (4 - |EncodeUnpadded(b)| % 4) % 4 == PadsOf(b)
  {
    if |b| >= 3 {
      PadsFromLength(b[3..]);
      var m := |EncodeUnpadded(b[3..])|;
      assert |EncodeUnpadded(b)| == 4 + m && (4 + m) % 4 == m % 4;
    }
  }

  /** Every three bytes give four characters, and a rest of one or two gives one more. */
  lemma {:induction false} EncodedSize(b: seq<Byte>)
    ensures |EncodeUnpadded(b)| == (4 * |b| + 2) / 3
  {
    if |b| >= 3 { EncodedSize(b[3..]); }
  }

  function Equals(n: nat): (s: string)
    ensures |s| == n && forall i :: 0 <= i < n ==> s[i] == '='
  {
    if n == 0 then "" else "=" + Equals(n - 1)
  }

  /** The standard encoder: padded to a multiple of four characters. */
  function Encode(b: seq<Byte>): string {
    EncodeUnpadded(b) + Equals(PadsOf(b))
  }

  /** `rstrip("=")` */
  function Strip(s: string): string {
    if |s| > 0 && s[|s| - 1] == '=' then Strip(s[..|s| - 1]) else s
  }

  /** Python's `cursor + "=" * (-len(cursor) % 4)`. */
  function Pad(s: string): string {
    s + Equals((4 - |s| % 4) % 4)
  }

  /** The lenient decoder, character by character: `quad` is the position in the
      current group of four, `left` the bits carried over, `pads` the run of
      padding seen. Unknown characters are skipped, a complete padding ends the
      input, and a dangling group is an error. */
  function DecodeFrom(s: string, quad: nat, left: nat, pads: nat): (r: Option<seq<Byte>>)
    requires quad < 4 && left < 64 && (quad == 2 ==> left < 16) && (quad == 3 ==> left < 4)
  {
    if |s| == 0 then if quad == 0 then Some([]) else None
    else if s[0] == '=' then
      if quad >= 2 && quad + pads + 1 >= 4 then Some([])
      else DecodeFrom(s[1..], quad, left, if quad >= 2 then pads + 1 else pads)
    else
      match ValueOf(s[0])
      case None => DecodeFrom(s[1..], quad, left, pads)
      case Some(v) =>
        if quad == 0 then DecodeFrom(s[1..], 1, v, 0)
        else if quad == 1 then Prepend(left * 4 + v / 16, DecodeFrom(s[1..], 2, v % 16, 0))
        else if quad == 2 then Prepend(left * 16 + v / 4, DecodeFrom(s[1..], 3, v % 4, 0))
        else Prepend(left * 64 + v, DecodeFrom(s[1..], 0, 0, 0))
  }

  function Prepend(x: nat, r: Option<seq<Byte>>): Option<seq<Byte>>
    requires x < 256
  {
    match r
    case None => None
    case Some(b) => Some([x] + b)
  }

  /** `urlsafe_b64encode(b).rstrip("=")` */
  function EncodeCursorBytes(b: seq<Byte>): string {
    Strip(Encode(b))
  }

  /** `urlsafe_b64decode` of the re-padded text. */
  function DecodeCursorBytes(s: string): Option<seq<Byte>> {
    DecodeFrom(Pad(s), 0, 0, 0)
  }

  lemma {:induction false} StripPadding(s: string, n: nat)
    requires |s| == 0 || s[|s| - 1] != '='
    ensures Strip(s + Equals(n)) == s
  {
    var t := s + Equals(n);
    if n == 0 {
      assert t == s;
    } else {
      assert t[|t| - 1] == '=';
      EqualsSnoc(n);
      assert t[..|t| - 1] == s + Equals(n - 1);
      StripPadding(s, n - 1);
    }
  }

  lemma {:induction false} EqualsSnoc(n: nat)
    requires n > 0
    ensures Equals(n) == Equals(n - 1) + "="
  {
    if n > 1 { EqualsSnoc(n - 1); }
  }

  /** Stripping the padding leaves exactly the data characters. */
  lemma StripEncode(b: seq<Byte>)
    ensures EncodeCursorBytes(b) == EncodeUnpadded(b)
  {
    EncodedShape(b);
    var s := EncodeUnpadded(b);
    assert |s| > 0 ==> s[|s| - 1] in s;
    StripPadding(s, PadsOf(b));
  }

  /** What one data character does to the decoder. */
  lemma DecodeStep(v: nat, rest: string, quad: nat, left: nat)
    requires v < 64 && quad < 4 && left < 64 && (quad == 2 ==> left < 16) && (quad == 3 ==> left < 4)
    ensures DecodeFrom([CharOf(v)] + rest, quad, left, 0) ==
            if quad == 0 then DecodeFrom(rest, 1, v, 0)
            else if quad == 1 then Prepend(left * 4 + v / 16, DecodeFrom(rest, 2, v % 16, 0))
            else if quad == 2 then Prepend(left * 16 + v / 4, DecodeFrom(rest, 3, v % 4, 0))
            else Prepend(left * 64 + v, DecodeFrom(rest, 0, 0, 0))
  {
    var s := [CharOf(v)] + rest;
    assert s[0] == CharOf(v) && s[1..] == rest;
  }

  /** The six-bit values of a group reassemble into its bytes. */
  lemma GroupArithmetic(a: Byte, b: Byte, c: Byte)
    ensures a / 4 < 64 && a % 4 * 16 + b / 16 < 64 && b % 16 * 4 + c / 64 < 64 && c % 64 < 64
    ensures (a / 4) * 4 + (a % 4 * 16 + b / 16) / 16 == a
    ensures (a % 4 * 16 + b / 16) % 16 * 16 + (b % 16 * 4 + c / 64) / 4 == b
    ensures (b % 16 * 4 + c / 64) % 4 * 64 + c % 64 == c
  {
    assert (a % 4 * 16 + b / 16) / 16 == a % 4;
    assert (a % 4 * 16 + b / 16) % 16 == b / 16;
    assert (b % 16 * 4 + c / 64) / 4 == b % 16;
    assert (b % 16 * 4 + c / 64) % 4 == c / 64;
  }

  /** One full group of four characters decodes to three bytes. */
  lemma DecodeGroup(v0: nat, v1: nat, v2: nat, v3: nat, rest: string)
    requires v0 < 64 && v1 < 64 && v2 < 64 && v3 < 64
    ensures DecodeFrom([CharOf(v0), CharOf(v1), CharOf(v2), CharOf(v3)] + rest, 0, 0, 0)
            == Prepend(v0 * 4 + v1 / 16, Prepend(v1 % 16 * 16 + v2 / 4, Prepend(v2 % 4 * 64 + v3, DecodeFrom(rest, 0, 0, 0))))
  {
    var s3 := [CharOf(v3)] + rest;
    var s2 := [CharOf(v2)] + s3;
    var s1 := [CharOf(v1)] + s2;
    DecodeStep(v3, rest, 3, v2 % 4);
    DecodeStep(v2, s3, 2, v1 % 16);
    DecodeStep(v1, s2, 1, v0);
    DecodeStep(v0, s1, 0, 0);
    assert [CharOf(v0), CharOf(v1), CharOf(v2), CharOf(v3)] + rest == [CharOf(v0)] + s1;
  }

  /** A final group of two characters and two pads decodes to one byte. */
  lemma DecodePair(v0: nat, v1: nat)
    requires v0 < 64 && v1 < 64
    ensures DecodeFrom([CharOf(v0), CharOf(v1)] + "==", 0, 0, 0) == Some([v0 * 4 + v1 / 16])
  {
    var s2 := "==";
    assert s2[1..] == "=" && DecodeFrom("=", 2, v1 % 16, 1) == Some([]);
    DecodeStep(v1, s2, 1, v0);
    DecodeStep(v0, [CharOf(v1)] + s2, 0, 0);
    assert [CharOf(v0), CharOf(v1)] + s2 == [CharOf(v0)] + ([CharOf(v1)] + s2);
    assert [v0 * 4 + v1 / 16] + [] == [v0 * 4 + v1 / 16];
  }

  /** A final group of three characters and one pad decodes to two bytes. */
  lemma DecodeTriple(v0: nat, v1: nat, v2: nat)
    requires v0 < 64 && v1 < 64 && v2 < 64
    ensures DecodeFrom([CharOf(v0), CharOf(v1), CharOf(v2)] + "=", 0, 0, 0)
            == Some([v0 * 4 + v1 / 16] + [v1 % 16 * 16 + v2 / 4])
  {
    var s3 := "=";
    assert DecodeFrom(s3, 3, v2 % 4, 0) == Some([]);
    var s2 := [CharOf(v2)] + s3;
    DecodeStep(v2, s3, 2, v1 % 16);
    DecodeStep(v1, s2, 1, v0);
    DecodeStep(v0, [CharOf(v1)] + s2, 0, 0);
    assert [CharOf(v0), CharOf(v1), CharOf(v2)] + s3 == [CharOf(v0)] + ([CharOf(v1)] + s2);
    assert [v1 % 16 * 16 + v2 / 4] + [] == [v1 % 16 * 16 + v2 / 4];
  }

  lemma DecodeOneByte(x: Byte)
    ensures DecodeFrom(Group(x, 0, 0)[..2] + "==", 0, 0, 0) == Some([x])
  {
    GroupArithmetic(x, 0, 0);
    var v0, v1 := x / 4, x % 4 * 16;
    DecodePair(v0, v1);
    assert Group(x, 0, 0)[..2] == [CharOf(v0), CharOf(v1)];
  }

  lemma DecodeTwoBytes(x: Byte, y: Byte)
    ensures DecodeFrom(Group(x, y, 0)[..3] + "=", 0, 0, 0) == Some([x] + [y])
  {
    GroupArithmetic(x, y, 0);
    var v0, v1, v2 := x / 4, x % 4 * 16 + y / 16, y % 16 * 4;
    DecodeTriple(v0, v1, v2);
    assert Group(x, y, 0)[..3] == [CharOf(v0), CharOf(v1), CharOf(v2)];
  }

  lemma DecodeThreeBytes(x: Byte, y: Byte, z: Byte, rest: string)
    ensures DecodeFrom(Group(x, y, z) + rest, 0, 0, 0) == Prepend(x, Prepend(y, Prepend(z, DecodeFrom(rest, 0, 0, 0))))
  {
    GroupArithmetic(x, y, z);
    DecodeGroup(x / 4, x % 4 * 16 + y / 16, y % 16 * 4 + z / 64, z % 64, rest);
  }

  lemma EncodeGroup(b: seq<Byte>)
    requires |b| >= 3
    ensures Encode(b) == Group(b[0], b[1], b[2]) + Encode(b[3..])
    ensures b == [b[0]] + ([b[1]] + ([b[2]] + b[3..]))
  {
  }

  /** The decoder inverts the padded encoding. */
  lemma {:induction false} DecodeEncode(b: seq<Byte>)
    ensures DecodeFrom(Encode(b), 0, 0, 0) == Some(b)
  {
    if |b| == 1 {
      DecodeOneByte(b[0]);
      assert Equals(2) == "==" && b == [b[0]];
    } else if |b| == 2 {
      DecodeTwoBytes(b[0], b[1]);
      assert Equals(1) == "=" && b == [b[0]] + [b[1]];
    } else if |b| >= 3 {
      DecodeEncode(b[3..]);
      EncodeGroup(b);
      DecodeThreeBytes(b[0], b[1], b[2], Encode(b[3..]));
    }
  }

  /** A cursor is made of the characters of the URL-safe alphabet alone. */
  lemma CursorIsUrlSafe(b: seq<Byte>)
    ensures forall i :: 0 <= i < |EncodeCursorBytes(b)| ==> UrlSafe(EncodeCursorBytes(b)[i])
  {
    StripEncode(b);
    forall i | 0 <= i < |EncodeUnpadded(b)| ensures UrlSafe(EncodeUnpadded(b)[i]) { UrlSafeChars(b, i); }
  }

  /** Whatever bytes a cursor carries, stripping the padding and restoring it from
      the length gives them back. */
  lemma RoundTrip(b: seq<Byte>)
    ensures DecodeCursorBytes(EncodeCursorBytes(b)) == Some(b)
  {
    StripEncode(b);
    PadsFromLength(b);
    DecodeEncode(b);
  }
}
