/** Foundation's `UUID` as sixteen bytes, with its canonical `uuidString`
    rendering (upper-case hexadecimal, grouped 8-4-4-4-12 and separated by
    dashes) and the inverse parse that recovers the bytes from that text. */
module Uuids {
  import opened Wrappers

  newtype byte = x: int | 0 <= x < 256

  type Uuid = b: seq<byte> | |b| == 16 witness seq(16, _ => 0)

  /** The upper-case hexadecimal digit for a value below 16. */
  function HexDigit(d: nat): (c: char)
    requires d < 16
    ensures '0' <= c <= '9' || 'A' <= c <= 'F'
  {
    if d < 10 then ('0' as int + d) as char else ('A' as int + d - 10) as char
  }

  /** The value of an upper-case hexadecimal digit, or None for any other character. */
  function DigitValue(c: char): (r: Option<nat>)
    ensures r.Some? ==> r.value < 16
    ensures r.Some? <==> ('0' <= c <= '9' || 'A' <= c <= 'F')
  {
    if '0' <= c <= '9' then Some(c as int - '0' as int)
    else if 'A' <= c <= 'F' then Some(c as int - 'A' as int + 10)
    else None
  }

  lemma DigitRoundTrip(d: nat)
    requires d < 16
    ensures DigitValue(HexDigit(d)) == Some(d)
  {
  }

  /** Two hexadecimal digits per byte, high nibble first. */
  function HexOf(bs: seq<byte>): (s: string)
    ensures |s| == 2 * |bs|
  {
    if |bs| == 0 then []
    else [HexDigit(bs[0] as nat / 16), HexDigit(bs[0] as nat % 16)] + HexOf(bs[1..])
  }

  /** Reads pairs of hexadecimal digits back into bytes. */
  function ParseHex(s: string): (r: Option<seq<byte>>)
    ensures r.Some? ==> 2 * |r.value| == |s|
  {
    if |s| == 0 then Some([])
    else if |s| == 1 then None
    else
      match (DigitValue(s[0]), DigitValue(s[1]), ParseHex(s[2..]))
      case (Some(hi), Some(lo), Some(rest)) => Some([(hi * 16 + lo) as byte] + rest)
      case _ => None
  }

  lemma {:induction false} ParseHexOf(bs: seq<byte>)
    ensures ParseHex(HexOf(bs)) == Some(bs)
  {
    if |bs| > 0 {
      var b := bs[0] as nat;
      var s := HexOf(bs);
      DigitRoundTrip(b / 16);
      DigitRoundTrip(b % 16);
      assert s[2..] == HexOf(bs[1..]);
      ParseHexOf(bs[1..]);
      assert [bs[0]] + bs[1..] == bs;
    }
  }

  /** `UUID.uuidString`: 36 characters, dashes at 8, 13, 18 and 23. */
  function UuidString(u: Uuid): (s: string)
    ensures |s| == 36
    ensures s[8] == '-' && s[13] == '-' && s[18] == '-' && s[23] == '-'
  {
    HexOf(u[..4]) + "-" + HexOf(u[4..6]) + "-" + HexOf(u[6..8]) + "-"
      + HexOf(u[8..10]) + "-" + HexOf(u[10..])
  }

  /** `UUID(uuidString:)` restricted to the upper-case form `uuidString` produces. */
  function ParseUuidString(s: string): (r: Option<Uuid>)
    ensures r.Some? ==> |s| == 36
  {
    if |s| != 36 || s[8] != '-' || s[13] != '-' || s[18] != '-' || s[23] != '-' then None
    else
      match (ParseHex(s[..8]), ParseHex(s[9..13]), ParseHex(s[14..18]),
             ParseHex(s[19..23]), ParseHex(s[24..]))
      case (Some(a), Some(b), Some(c), Some(d), Some(e)) => Some(a + b + c + d + e)
      case _ => None
  }

  /** Parsing the rendered string gives back the same UUID. */
  lemma UuidStringRoundTrip(u: Uuid)
    ensures ParseUuidString(UuidString(u)) == Some(u)
  {
    var s := UuidString(u);
    assert s[..8] == HexOf(u[..4]);
    assert s[9..13] == HexOf(u[4..6]);
    assert s[14..18] == HexOf(u[6..8]);
    assert s[19..23] == HexOf(u[8..10]);
    assert s[24..] == HexOf(u[10..]);
    ParseHexOf(u[..4]);
    ParseHexOf(u[4..6]);
    ParseHexOf(u[6..8]);
    ParseHexOf(u[8..10]);
    ParseHexOf(u[10..]);
    assert u[..4] + u[4..6] + u[6..8] + u[8..10] + u[10..] == u;
  }

  /** Distinct UUIDs render to distinct strings. */
  lemma UuidStringInjective(a: Uuid, b: Uuid)
    ensures UuidString(a) == UuidString(b) <==> a == b
  {
    if UuidString(a) == UuidString(b) {
      UuidStringRoundTrip(a);
      UuidStringRoundTrip(b);
    }
  }
}
