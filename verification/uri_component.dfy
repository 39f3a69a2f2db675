/** ECMA-262 `encodeURIComponent` and `decodeURIComponent`, restricted to
    ASCII text. The encoder keeps ASCII letters, digits and the "mark"
    characters `- _ . ! ~ * ' ( )` of section 2.3 of RFC 2396, and writes
    every other character as `%` followed by two upper-case hexadecimal
    digits of its byte, as in section 2.1 of RFC 3986. */
module UriComponent {
  import opened Results
  import opened JsString

  /** The characters `encodeURIComponent` leaves unescaped. */
  predicate IsUnreserved(c: char) {
    || 'A' <= c <= 'Z'
    || 'a' <= c <= 'z'
    || '0' <= c <= '9'
    || c in "-_.!~*'()"
  }

  predicate IsHexDigit(c: char) {
    '0' <= c <= '9' || 'A' <= c <= 'F' || 'a' <= c <= 'f'
  }

  /** The upper-case hexadecimal digit for `d`. */
  function HexDigit(d: nat): (c: char)
    requires d < 16
    ensures IsHexDigit(c) && IsUnreserved(c)
  {
    "0123456789ABCDEF"[d]
  }

  /** The value of a hexadecimal digit of either case. */
  function HexValue(c: char): (v: nat)
    requires IsHexDigit(c)
    ensures v < 16
  {
    if '0' <= c <= '9' then c as int - '0' as int
    else if 'A' <= c <= 'F' then c as int - 'A' as int + 10
    else c as int - 'a' as int + 10
  }

  lemma HexValueOfDigit(d: nat)
    requires d < 16
    ensures HexValue(HexDigit(d)) == d
  {
    var digits := "0123456789ABCDEF";
    assert digits[d] == HexDigit(d);
    if d < 10 {
      assert digits[d] as int == '0' as int + d;
    } else {
      assert digits[d] as int == 'A' as int + d - 10;
    }
  }

  /** The escape of one ASCII character. */
  function EncodeChar(c: char): (r: string)
    requires c as int < 128
  {
    if IsUnreserved(c) then [c]
    else ['%', HexDigit(c as int / 16), HexDigit(c as int % 16)]
  }

  /** `encodeURIComponent(s)` for an ASCII string `s`. */
  function Encode(s: string): (r: string)
    requires IsAscii(s)
  {
    if s == [] then ""
    else EncodeChar(s[0]) + Encode(s[1..])
  }

  /** The shape of `encodeURIComponent`'s output: unreserved characters and
      `%HH` triples, nothing else. */
  predicate WellFormed(t: string)
    decreases |t|
  {
    || t == []
    || (IsUnreserved(t[0]) && WellFormed(t[1..]))
    || (|t| >= 3 && t[0] == '%' && IsHexDigit(t[1]) && IsHexDigit(t[2]) && WellFormed(t[3..]))
  }

  /** `decodeURIComponent(t)`, with `None` where it throws `URIError`: a `%`
      not followed by two hexadecimal digits. An escaped byte of 0x80 or
      more starts a multi-byte UTF-8 sequence, which this ASCII model does
      not decode and rejects. */
  function Decode(t: string): (r: Option<string>)
    decreases |t|
  {
    if t == [] then Some("")
    else if t[0] != '%' then
      match Decode(t[1..])
      case None => None
      case Some(rest) => Some([t[0]] + rest)
    else if |t| >= 3 && IsHexDigit(t[1]) && IsHexDigit(t[2]) && HexValue(t[1]) < 8 then
      match Decode(t[3..])
      case None => None
      case Some(rest) => Some([(HexValue(t[1]) * 16 + HexValue(t[2])) as char] + rest)
    else None
  }

  /** Every encoding has the `%HH`-or-unreserved shape. */
  lemma {:induction false} EncodeWellFormed(s: string)
    requires IsAscii(s)
    ensures WellFormed(Encode(s))
  {
    if s != [] {
      var c := s[0];
      EncodeWellFormed(s[1..]);
      var t := Encode(s);
      var rest := Encode(s[1..]);
      if IsUnreserved(c) {
        assert t == [c] + rest && t[1..] == rest;
      } else {
        assert t == ['%', HexDigit(c as int / 16), HexDigit(c as int % 16)] + rest;
        assert t[3..] == rest;
      }
    }
  }

  /** A well-formed encoding holds only unreserved characters and `%`. */
  lemma {:induction false} WellFormedAlphabet(t: string)
    requires WellFormed(t)
    ensures forall i :: 0 <= i < |t| ==> IsUnreserved(t[i]) || t[i] == '%'
  {
    if t != [] {
      if IsUnreserved(t[0]) && WellFormed(t[1..]) {
        WellFormedAlphabet(t[1..]);
        assert forall i :: 1 <= i < |t| ==> t[i] == t[1..][i - 1];
      } else {
        WellFormedAlphabet(t[3..]);
        assert forall i :: 3 <= i < |t| ==> t[i] == t[3..][i - 3];
      }
    }
  }

  /** An encoded component never holds a character that delimits a path
      segment, a query parameter or a fragment. */
  lemma EncodedHasNoDelimiters(s: string)
    requires IsAscii(s)
    ensures var r := Encode(s);
      '/' !in r && '?' !in r && '#' !in r && '&' !in r && '=' !in r && ' ' !in r
  {
    EncodeWellFormed(s);
    WellFormedAlphabet(Encode(s));
  }

  /** Decoding an encoding gives back the original text. */
  lemma {:induction false} DecodeEncode(s: string)
    requires IsAscii(s)
    ensures Decode(Encode(s)) == Some(s)
  {
    if s != [] {
      var c := s[0];
      var rest := Encode(s[1..]);
      DecodeEncode(s[1..]);
      var t := Encode(s);
      if IsUnreserved(c) {
        assert t == [c] + rest && t[1..] == rest;
        assert c != '%';
      } else {
        var hi, lo := c as int / 16, c as int % 16;
        assert t == ['%', HexDigit(hi), HexDigit(lo)] + rest;
        assert t[3..] == rest;
        HexValueOfDigit(hi);
        HexValueOfDigit(lo);
        assert (HexValue(t[1]) * 16 + HexValue(t[2])) as char == c;
      }
      assert s == [c] + s[1..];
    }
  }

  /** Different components encode differently. */
  lemma EncodeInjective(s: string, u: string)
    requires IsAscii(s) && IsAscii(u)
    requires Encode(s) == Encode(u)
    ensures s == u
  {
    DecodeEncode(s);
    DecodeEncode(u);
  }

  /** Text made only of unreserved characters is left as it is. */
  lemma {:induction false} EncodeUnreservedIdentity(s: string)
    requires forall i :: 0 <= i < |s| ==> IsUnreserved(s[i])
    ensures IsAscii(s) && Encode(s) == s
  {
    if s != [] {
      EncodeUnreservedIdentity(s[1..]);
      assert s == [s[0]] + s[1..];
    }
  }
}
