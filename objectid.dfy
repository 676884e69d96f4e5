/**
 * Mongo object identifiers: twelve bytes, written as 24 lower-case hexadecimal digits by
 * `ObjectID.Hex` and read back by `ObjectIDFromHex`, which accepts exactly 24 hexadecimal
 * digits of either case.
 */
module ObjectIds {
  import opened Common
  import GoStrings

  type ObjectId = b: seq<Byte> | |b| == 12 witness seq(12, _ => 0)

  /** `primitive.NilObjectID`, returned beside `false` or an error. */
  const NilObjectId: ObjectId := [0, 0, 0, 0, 0, 0, 0, 0, 0, 0, 0, 0]

  function HexDigit(n: int): (c: char)
    requires 0 <= n < 16
  {
    if n < 10 then ('0' as int + n) as char else ('a' as int + n - 10) as char
  }

  /** The value of one hexadecimal digit, either case. */
  function DigitValue(c: char): (r: Option<int>)
    ensures r.Some? ==> 0 <= r.value < 16
  {
    if '0' <= c <= '9' then Some(c as int - '0' as int)
    else if 'a' <= c <= 'f' then Some(c as int - 'a' as int + 10)
    else if 'A' <= c <= 'F' then Some(c as int - 'A' as int + 10)
    else None
  }

  function EncodeHex(b: seq<Byte>): (s: string)
    ensures |s| == 2 * |b|
  {
    if b == [] then "" else [HexDigit(b[0] / 16), HexDigit(b[0] % 16)] + EncodeHex(b[1..])
  }

  /** `hex.DecodeString`: `None` for an odd length or a non-hexadecimal digit. */
  function DecodeHex(s: string): (r: Option<seq<Byte>>)
    ensures r.Some? ==> 2 * |r.value| == |s|
    decreases |s|
  {
    if s == [] then Some([])
    else if |s| == 1 then None
    else match (DigitValue(s[0]), DigitValue(s[1]), DecodeHex(s[2..]))
      case (Some(hi), Some(lo), Some(rest)) => Some([hi * 16 + lo] + rest)
      case _ => None
  }

  /** `ObjectID.Hex`. */
  function Hex(id: ObjectId): (s: string)
    ensures |s| == 24
  {
    EncodeHex(id)
  }

  /** `primitive.ObjectIDFromHex`: `None` where Go returns `ErrInvalidHex`. */
  function FromHex(s: string): (r: Option<ObjectId>)
    ensures r.Some? ==> |s| == 24
  {
    if |s| != 24 then None
    else match DecodeHex(s)
      case Some(b) => Some(b)
      case None => None
  }

  lemma DigitRoundTrip(n: int)
    requires 0 <= n < 16
    ensures DigitValue(HexDigit(n)) == Some(n)
    ensures GoStrings.LowerChar(HexDigit(n)) == HexDigit(n)
  {
  }

  lemma {:induction false} DecodeEncode(b: seq<Byte>)
    ensures DecodeHex(EncodeHex(b)) == Some(b)
  {
    if b != [] {
      var s := EncodeHex(b);
      DigitRoundTrip(b[0] / 16);
      DigitRoundTrip(b[0] % 16);
      assert s[2..] == EncodeHex(b[1..]);
      DecodeEncode(b[1..]);
      assert [b[0]] + b[1..] == b;
    }
  }

  /** An identifier written by `Hex` is read back unchanged. */
  lemma HexRoundTrip(id: ObjectId)
    ensures FromHex(Hex(id)) == Some(id)
  {
    DecodeEncode(id);
  }

  /** The digit that `HexDigit` writes for a digit value is the lower-case form of any
      character that has that value. */
  lemma DigitCanonical(c: char)
    requires DigitValue(c).Some?
    ensures HexDigit(DigitValue(c).value) == GoStrings.LowerChar(c)
  {
  }

  lemma {:induction false} EncodeDecode(s: string, b: seq<Byte>)
    requires DecodeHex(s) == Some(b)
    ensures EncodeHex(b) == GoStrings.ToLower(s)
    decreases |s|
  {
    if s != [] {
      var hi, lo := DigitValue(s[0]).value, DigitValue(s[1]).value;
      var rest := DecodeHex(s[2..]).value;
      assert b == [hi * 16 + lo] + rest;
      assert (hi * 16 + lo) / 16 == hi && (hi * 16 + lo) % 16 == lo;
      DigitCanonical(s[0]);
      DigitCanonical(s[1]);
      EncodeDecode(s[2..], rest);
      assert b[1..] == rest;
      assert GoStrings.ToLower(s) == [GoStrings.LowerChar(s[0]), GoStrings.LowerChar(s[1])] + GoStrings.ToLower(s[2..]);
    }
  }

  /** Accepted text is the identifier's hexadecimal form up to letter case. */
  lemma FromHexCanonical(s: string, id: ObjectId)
    requires FromHex(s) == Some(id)
    ensures Hex(id) == GoStrings.ToLower(s)
  {
    EncodeDecode(s, id);
  }
}
