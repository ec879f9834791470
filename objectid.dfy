/**
 * The document store driver's object identifier, as far as the telemetry
 * handler uses it: a 12-byte value whose text form (`ObjectID.String()`)
 * seeds an installation id the first time a client reports.
 *
 * The driver prints an identifier as `ObjectID("` followed by the 24
 * lower-case hexadecimal digits of its bytes and `")`.
 */
module ObjectIds {

  /** One byte of an identifier. */
  newtype byte = x: int | 0 <= x < 256

  /** A 12-byte object identifier. */
  type ObjectId = b: seq<byte> | |b| == 12 witness [0, 0, 0, 0, 0, 0, 0, 0, 0, 0, 0, 0]

  /** The all-zero identifier: the value of an `ObjectID` field nobody has set. */
  const NilObjectId: ObjectId := [0, 0, 0, 0, 0, 0, 0, 0, 0, 0, 0, 0]

  const IdPrefix := "ObjectID(\""
  const IdSuffix := "\")"

  predicate IsLowerHexDigit(c: char) {
    ('0' <= c <= '9') || ('a' <= c <= 'f')
  }

  /** The lower-case hexadecimal digit of a value below 16. */
  function HexDigit(n: int): (c: char)
    requires 0 <= n < 16
    ensures IsLowerHexDigit(c)
    ensures c as int == if n < 10 then '0' as int + n else 'a' as int + n - 10
  {
    if n < 10 then (48 + n) as char else (87 + n) as char
  }

  /** Hexadecimal encoding: two digits per byte, high nibble first. */
  function Hex(bytes: seq<byte>): (s: string)
    ensures |s| == 2 * |bytes|
    ensures forall k :: 0 <= k < |s| ==> IsLowerHexDigit(s[k])
  {
    if bytes == [] then []
    else [HexDigit(bytes[0] as int / 16), HexDigit(bytes[0] as int % 16)] + Hex(bytes[1..])
  }

  /** Two different bytes never encode to the same pair of digits. */
  lemma DigitPairDistinct(x: byte, y: byte)
    requires x != y
    ensures HexDigit(x as int / 16) != HexDigit(y as int / 16) || HexDigit(x as int % 16) != HexDigit(y as int % 16)
  {
  }

  /** The encoding is injective on sequences of one length: different bytes give different text. */
  lemma {:induction false} HexDistinct(a: seq<byte>, b: seq<byte>)
    requires |a| == |b| && a != b
    ensures Hex(a) != Hex(b)
  {
    if a[0] != b[0] {
      DigitPairDistinct(a[0], b[0]);
      assert Hex(a)[0] != Hex(b)[0] || Hex(a)[1] != Hex(b)[1];
    } else {
      assert a == [a[0]] + a[1..] && b == [b[0]] + b[1..];
      HexDistinct(a[1..], b[1..]);
      assert Hex(a)[2..] == Hex(a[1..]);
      assert Hex(b)[2..] == Hex(b[1..]);
    }
  }

  /** `ObjectID.String()`: the quoted hexadecimal form wrapped in `ObjectID(...)`. */
  function IdString(id: ObjectId): (s: string)
    ensures |s| == |IdPrefix| + 24 + |IdSuffix|
    ensures s[..|IdPrefix|] == IdPrefix && s[|IdPrefix|..|IdPrefix| + 24] == Hex(id)
    ensures s[|IdPrefix| + 24..] == IdSuffix
    ensures s != ""
  {
    IdPrefix + Hex(id) + IdSuffix
  }

  /** Different identifiers have different text forms. */
  lemma IdStringDistinct(a: ObjectId, b: ObjectId)
    requires a != b
    ensures IdString(a) != IdString(b)
  {
    HexDistinct(a, b);
  }
}
