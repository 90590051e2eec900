/** The unpadded URL-safe base64 encoding (`base64.RawURLEncoding`) that
    `randomString` and `pkce` apply to random bytes and to a SHA-256 digest: the
    alphabet of section 5 of RFC 4648, with the trailing `=` padding omitted. */
module Base64 {

  type byte = x: int | 0 <= x < 256

  /** The 64 characters of the URL and filename safe alphabet. */
  predicate UrlSafe(c: char)
  {
    ('A' <= c <= 'Z') || ('a' <= c <= 'z') || ('0' <= c <= '9') || c == '-' || c == '_'
  }

  /** The character that stands for the 6-bit value x (table 2 of RFC 4648). */
  function Sextet(x: int): (c: char)
    requires 0 <= x < 64
    ensures UrlSafe(c)
  {
    if x < 26 then ('A' as int + x) as char
    else if x < 52 then ('a' as int + (x - 26)) as char
    else if x < 62 then ('0' as int + (x - 52)) as char
    else if x == 62 then '-'
    else '_'
  }

  /** Every 3 bytes become 4 characters; a final group of 1 or 2 bytes becomes
      2 or 3 characters, without padding. */
  function Encode(b: seq<byte>): (s: string)
    ensures |s| == (4 * |b| + 2) / 3
    ensures forall i :: 0 <= i < |s| ==> UrlSafe(s[i])
    decreases |b|
  {
    if |b| == 0 then ""
    else if |b| == 1 then
      [Sextet(b[0] / 4), Sextet(b[0] % 4 * 16)]
    else if |b| == 2 then
      [Sextet(b[0] / 4), Sextet(b[0] % 4 * 16 + b[1] / 16), Sextet(b[1] % 16 * 4)]
    else
      [Sextet(b[0] / 4), Sextet(b[0] % 4 * 16 + b[1] / 16), Sextet(b[1] % 16 * 4 + b[2] / 64), Sextet(b[2] % 64)]
      + Encode(b[3..])
  }
}
