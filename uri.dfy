/**
 * The two percent-encodings the SDK relies on: `encodeURIComponent`, used for
 * the job id in the job-status path, and the application/x-www-form-urlencoded
 * serialisation `URLSearchParams.toString()` applies to query names and values.
 * Both encode a character outside their unreserved set as the UTF-8 bytes of
 * its code point, each written `%XX` in upper-case hexadecimal.
 */
module Uri {
  import opened Js

  /** The UTF-8 encoding of one Unicode scalar value. */
  function Utf8(c: char): (bytes: seq<nat>)
    ensures 1 <= |bytes| <= 4
    ensures forall i :: 0 <= i < |bytes| ==> bytes[i] < 256
    ensures (c as int < 0x80) <==> |bytes| == 1
    ensures |bytes| == 1 ==> bytes[0] == c as int
  {
    var n := c as int;
    if n < 0x80 then [n]
    else if n < 0x800 then [0xC0 + n / 0x40, 0x80 + n % 0x40]
    else if n < 0x1_0000 then [0xE0 + n / 0x1000, 0x80 + (n / 0x40) % 0x40, 0x80 + n % 0x40]
    else [0xF0 + n / 0x4_0000, 0x80 + (n / 0x1000) % 0x40, 0x80 + (n / 0x40) % 0x40, 0x80 + n % 0x40]
  }

  function HexDigit(d: nat): (c: char)
    requires d < 16
    ensures IsAlphanumeric(c)
  {
    if d < 10 then ('0' as int + d) as char else ('A' as int + d - 10) as char
  }

  /** `%XX` for each byte. */
  function PercentBytes(bytes: seq<nat>): (s: string)
    requires forall i :: 0 <= i < |bytes| ==> bytes[i] < 256
    ensures |s| == 3 * |bytes|
    ensures |bytes| > 0 ==> s[0] == '%'
    ensures forall i :: 0 <= i < |s| ==> s[i] == '%' || IsAlphanumeric(s[i])
  {
    if bytes == [] then ""
    else ['%', HexDigit(bytes[0] / 16), HexDigit(bytes[0] % 16)] + PercentBytes(bytes[1..])
  }

  predicate IsAlphanumeric(c: char) {
    ('a' <= c <= 'z') || ('A' <= c <= 'Z') || ('0' <= c <= '9')
  }

  /** The characters `encodeURIComponent` leaves as they are. */
  predicate ComponentUnreserved(c: char) {
    IsAlphanumeric(c) || c in "-_.!~*'()"
  }

  /** The characters the form-urlencoded serialiser leaves as they are. */
  predicate FormUnreserved(c: char) {
    IsAlphanumeric(c) || c in "*-._"
  }

  /** `encodeURIComponent(s)`. */
  function EncodeUriComponent(s: string): (r: string)
    ensures |r| >= |s|
    ensures forall i :: 0 <= i < |r| ==> ComponentUnreserved(r[i]) || r[i] == '%'
  {
    if s == [] then ""
    else
      (if ComponentUnreserved(s[0]) then [s[0]] else PercentBytes(Utf8(s[0])))
      + EncodeUriComponent(s[1..])
  }

  /** The form-urlencoded serialisation of one name or value: a space becomes `+`. */
  function FormEncode(s: string): (r: string)
    ensures |r| >= |s|
    ensures forall i :: 0 <= i < |r| ==> FormUnreserved(r[i]) || r[i] == '+' || r[i] == '%'
  {
    if s == [] then ""
    else
      (if FormUnreserved(s[0]) then [s[0]] else if s[0] == ' ' then "+" else PercentBytes(Utf8(s[0])))
      + FormEncode(s[1..])
  }

  /** `encodeURIComponent` changes a string exactly when it holds a reserved character. */
  lemma {:induction false} EncodeUriComponentIdentity(s: string)
    ensures EncodeUriComponent(s) == s <==> forall i :: 0 <= i < |s| ==> ComponentUnreserved(s[i])
  {
    if s != [] {
      EncodeUriComponentIdentity(s[1..]);
      if !ComponentUnreserved(s[0]) {
        assert |EncodeUriComponent(s)| > |s|;
      } else if EncodeUriComponent(s) == s {
        assert EncodeUriComponent(s[1..]) == s[1..];
      } else {
        assert EncodeUriComponent(s[1..]) != s[1..];
      }
    }
  }

  /** The form serialiser leaves a string of unreserved characters as it is. */
  lemma {:induction false} FormEncodeUnreserved(s: string)
    requires forall i :: 0 <= i < |s| ==> FormUnreserved(s[i])
    ensures FormEncode(s) == s
  {
    if s != [] {
      FormEncodeUnreserved(s[1..]);
    }
  }

  /** So the printed form of an integer travels in a query string unchanged. */
  lemma FormEncodeDecimal(n: int)
    ensures FormEncode(Decimal(n)) == Decimal(n)
  {
    var s := Decimal(n);
    if n >= 0 {
      FormEncodeUnreserved(s);
    } else {
      assert s == "-" + Digits(-n);
      FormEncodeUnreserved(s);
    }
  }
}
