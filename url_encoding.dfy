/** Percent-encoding as done by `encodeURIComponent` and by `URLSearchParams.prototype.toString`. */
module UrlEncoding {

  function HexDigit(d: nat): char
    requires d < 16
  {
    "0123456789ABCDEF"[d]
  }

  predicate IsAsciiAlnum(c: char) {
    ('0' <= c <= '9') || ('A' <= c <= 'Z') || ('a' <= c <= 'z')
  }

  /** The UTF-8 encoding of one Unicode scalar value. */
  function Utf8(c: char): (r: seq<nat>)
    ensures 1 <= |r| <= 4
    ensures forall i :: 0 <= i < |r| ==> r[i] < 256
  {
    var cp := c as int;
    if cp < 0x80 then [cp]
    else if cp < 0x800 then [0xC0 + cp / 0x40, 0x80 + cp % 0x40]
    else if cp < 0x10000 then [0xE0 + cp / 0x1000, 0x80 + (cp / 0x40) % 0x40, 0x80 + cp % 0x40]
    else [0xF0 + cp / 0x40000, 0x80 + (cp / 0x1000) % 0x40, 0x80 + (cp / 0x40) % 0x40, 0x80 + cp % 0x40]
  }

  /** `%HH` for every byte, with upper-case hexadecimal digits. */
  function PercentBytes(bytes: seq<nat>): (r: string)
    requires forall i :: 0 <= i < |bytes| ==> bytes[i] < 256
    ensures |r| == 3 * |bytes|
    ensures forall i :: 0 <= i < |r| ==> r[i] == '%' || IsAsciiAlnum(r[i])
  {
    if bytes == [] then ""
    else ['%', HexDigit(bytes[0] / 16), HexDigit(bytes[0] % 16)] + PercentBytes(bytes[1..])
  }

  /** Characters `encodeURIComponent` leaves unescaped. */
  predicate IsUriUnreserved(c: char) {
    IsAsciiAlnum(c) || c == '-' || c == '_' || c == '.' || c == '!' || c == '~' || c == '*'
    || c == '\'' || c == '(' || c == ')'
  }

  /** `encodeURIComponent(s)`. The result holds only unreserved characters and `%`. */
  function EncodeUriComponent(s: string): (r: string)
    ensures forall i :: 0 <= i < |r| ==> IsUriUnreserved(r[i]) || r[i] == '%'
  {
    if s == [] then ""
    else (if IsUriUnreserved(s[0]) then [s[0]] else PercentBytes(Utf8(s[0]))) + EncodeUriComponent(s[1..])
  }

  /** `encodeURIComponent` changes nothing in a string of unreserved characters. */
  lemma {:induction false} EncodeUriComponentUnreserved(s: string)
    requires forall i :: 0 <= i < |s| ==> IsUriUnreserved(s[i])
    ensures EncodeUriComponent(s) == s
  {
    if s != [] {
      EncodeUriComponentUnreserved(s[1..]);
    }
  }

  /** Characters the `application/x-www-form-urlencoded` serializer leaves unescaped. */
  predicate IsFormSafe(c: char) {
    IsAsciiAlnum(c) || c == '*' || c == '-' || c == '.' || c == '_'
  }

  /** The form-urlencoded serialization of one name or value: space becomes `+`. The result
      never holds `&`, `=` or `#`, so it cannot end or split a query parameter. */
  function FormEncode(s: string): (r: string)
    ensures forall i :: 0 <= i < |r| ==> IsFormSafe(r[i]) || r[i] == '%' || r[i] == '+'
  {
    if s == [] then ""
    else
      (if IsFormSafe(s[0]) then [s[0]] else if s[0] == ' ' then "+" else PercentBytes(Utf8(s[0])))
      + FormEncode(s[1..])
  }

  /** The serializer changes nothing in a string of form-safe characters. */
  lemma {:induction false} FormEncodeSafe(s: string)
    requires forall i :: 0 <= i < |s| ==> IsFormSafe(s[i])
    ensures FormEncode(s) == s
  {
    if s != [] {
      FormEncodeSafe(s[1..]);
    }
  }

  /** `new URLSearchParams(pairs).toString()`: `name=value` pairs joined by `&`. */
  function QueryString(pairs: seq<(string, string)>): string {
    if pairs == [] then ""
    else
      var head := FormEncode(pairs[0].0) + "=" + FormEncode(pairs[0].1);
      if |pairs| == 1 then head else head + "&" + QueryString(pairs[1..])
  }

  /** The query string is empty exactly when there are no parameters. */
  lemma QueryStringEmpty(pairs: seq<(string, string)>)
    ensures QueryString(pairs) == "" <==> pairs == []
  {
  }
}
