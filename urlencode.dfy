/** `urllib.parse.urlencode` of a one-entry query, which the bot uses to put the login state into
    its LoginUrl: each side is quoted with `quote_plus`, which keeps the always-safe characters,
    turns a space into '+' and writes every other character as the percent-escaped bytes of its
    UTF-8 encoding, with upper-case hex digits. */
module UrlEncode {

  /** The characters quote_plus never escapes: ASCII letters, digits and `_.-~`. */
  predicate IsAlwaysSafe(c: char)
  {
    'A' <= c <= 'Z' || 'a' <= c <= 'z' || '0' <= c <= '9' || c == '_' || c == '.' || c == '-' || c == '~'
  }

  predicate IsUpperHex(c: char)
  {
    '0' <= c <= '9' || 'A' <= c <= 'F'
  }

  /** The characters a quoted value can consist of; none of them is a query delimiter
      (`&`, `=`, `#`, `?`) or whitespace. */
  predicate IsQuotedChar(c: char)
  {
    IsAlwaysSafe(c) || c == '%' || c == '+'
  }

  /** The UTF-8 encoding of one Unicode scalar value. */
  function Utf8(c: char): (bytes: seq<nat>)
    ensures 1 <= |bytes| <= 4
    ensures forall i | 0 <= i < |bytes| :: bytes[i] < 256
    ensures (c as int < 0x80) <==> |bytes| == 1
  {
    var n := c as int;
    if n < 0x80 then [n]
    else if n < 0x800 then [0xC0 + n / 0x40, 0x80 + n % 0x40]
    else if n < 0x1_0000 then [0xE0 + n / 0x1000, 0x80 + (n / 0x40) % 0x40, 0x80 + n % 0x40]
    else [0xF0 + n / 0x4_0000, 0x80 + (n / 0x1000) % 0x40, 0x80 + (n / 0x40) % 0x40, 0x80 + n % 0x40]
  }

  function HexDigit(d: nat): (c: char)
    requires d < 16
    ensures IsUpperHex(c)
  {
    if d < 10 then ('0' as int + d) as char else ('A' as int + d - 10) as char
  }

  /** `%XX` for each byte. */
  function PercentEscape(bytes: seq<nat>): (r: string)
    requires forall i | 0 <= i < |bytes| :: bytes[i] < 256
    ensures |r| == 3 * |bytes|
    ensures forall i | 0 <= i < |r| :: if i % 3 == 0 then r[i] == '%' else IsUpperHex(r[i])
  {
    if bytes == [] then ""
    else ['%', HexDigit(bytes[0] / 16), HexDigit(bytes[0] % 16)] + PercentEscape(bytes[1..])
  }

  function QuoteChar(c: char): string
  {
    if IsAlwaysSafe(c) then [c]
    else if c == ' ' then "+"
    else PercentEscape(Utf8(c))
  }

  /** `quote_plus(s)`: the result consists only of quoted-value characters, so a value can never
      introduce a further query parameter or end the URL. */
  function QuotePlus(s: string): (r: string)
    ensures forall i | 0 <= i < |r| :: IsQuotedChar(r[i])
  {
    if s == [] then ""
    else
      var q := QuoteChar(s[0]);
      assert forall i | 0 <= i < |q| :: IsQuotedChar(q[i]);
      q + QuotePlus(s[1..])
  }

  /** A value made of always-safe characters is sent as it is. */
  lemma {:induction false} QuotePlusSafe(s: string)
    requires forall i | 0 <= i < |s| :: IsAlwaysSafe(s[i])
    ensures QuotePlus(s) == s
  {
    if s != [] {
      QuotePlusSafe(s[1..]);
    }
  }

  /** An unsafe character is never passed through: a space becomes '+', anything else a
      percent escape, one per UTF-8 byte. */
  lemma QuoteCharEscapes(c: char)
    requires !IsAlwaysSafe(c)
    ensures c == ' ' ==> QuoteChar(c) == "+"
    ensures c != ' ' ==> QuoteChar(c)[0] == '%' && |QuoteChar(c)| == 3 * |Utf8(c)|
  {
  }

  /** `urlencode({key: value})`. */
  function UrlencodePair(key: string, value: string): string
  {
    QuotePlus(key) + "=" + QuotePlus(value)
  }
}
