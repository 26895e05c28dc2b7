// UrlEncode, and percent-decoding (sections 2.1 and 2.3 of RFC 3986).
module UrlEncoding {
  import opened Options
  import opened Base64

  predicate Unreserved(c: char) {
    'a' <= c <= 'z' || 'A' <= c <= 'Z' || '0' <= c <= '9' || c == '-' || c == '_' || c == '.' || c == '~'
  }

  // isalnum in the "C" locale.
  predicate IsAlnum(c: char) {
    'a' <= c <= 'z' || 'A' <= c <= 'Z' || '0' <= c <= '9'
  }

  // The characters UrlEncode leaves intact.
  predicate Kept(c: char) {
    IsAlnum(c) || c == '-' || c == '_' || c == '.' || c == '~'
  }

  function HexDigit(d: nat, upper: bool): (c: char)
    requires d < 16
  {
    if d < 10 then '0' + d as char else if upper then 'A' + (d - 10) as char else 'a' + (d - 10) as char
  }

  // operator<< of an int below 256 with the flags hex and uppercase or nouppercase.
  function HexText(n: nat, upper: bool): string
    requires n < 256
  {
    if n < 16 then [HexDigit(n, upper)] else [HexDigit(n / 16, upper), HexDigit(n % 16, upper)]
  }

  // setw(2) and fill('0').
  function Padded(s: string): string {
    if |s| < 2 then seq(2 - |s|, _ => '0') + s else s
  }

  function Escape(c: char): (r: string)
    requires c as int < 256
    ensures |r| == 3
  {
    ['%', HexDigit(c as int / 16, true), HexDigit(c as int % 16, true)]
  }

  function EncodeChar(c: char): string
    requires c as int < 256
  {
    if Kept(c) then [c] else Escape(c)
  }

  function UrlEncode(s: Bytes): string {
    if s == "" then "" else EncodeChar(s[0]) + UrlEncode(s[1..])
  }

  lemma {:induction false} UrlEncodeAppend(s: Bytes, c: char)
    requires c as int < 256
    ensures UrlEncode(s + [c]) == UrlEncode(s) + EncodeChar(c)
  {
    if s == "" {
      assert ([] + [c])[1..] == "";
    } else {
      UrlEncodeAppend(s[1..], c);
      assert (s + [c])[1..] == s[1..] + [c];
    }
  }

  lemma PaddedHex(c: char)
    requires c as int < 256
    ensures "%" + Padded(HexText(c as int, true)) == Escape(c)
  {
  }

  // The stream and its uppercase flag, as the source toggles it.
  method UrlEncodeStream(value: Bytes) returns (escaped: string)
    ensures escaped == UrlEncode(value)
  {
    escaped := "";
    var upper := false;
    for k := 0 to |value|
      invariant escaped == UrlEncode(value[..k])
    {
      var c := value[k];
      UrlEncodeAppend(value[..k], c);
      assert value[..k] + [c] == value[..k + 1];
      if Kept(c) {
        escaped := escaped + [c];
      } else {
        upper := true;
        PaddedHex(c);
        escaped := escaped + ("%" + Padded(HexText(c as int, upper)));
        upper := false;
      }
    }
    assert value[..|value|] == value;
  }

  // ---- decoding ----

  function HexValue(c: char): Option<nat> {
    if '0' <= c <= '9' then Some(c as int - '0' as int)
    else if 'A' <= c <= 'F' then Some(c as int - 'A' as int + 10)
    else if 'a' <= c <= 'f' then Some(c as int - 'a' as int + 10)
    else None
  }

  function PercentDecode(t: string): Option<string> {
    if t == "" then Some("")
    else if t[0] != '%' then
      var rest := PercentDecode(t[1..]);
      if rest.Some? then Some([t[0]] + rest.value) else None
    else if |t| < 3 || HexValue(t[1]).None? || HexValue(t[2]).None? then None
    else
      var h, l := HexValue(t[1]).value, HexValue(t[2]).value;
      var rest := PercentDecode(t[3..]);
      if h < 16 && l < 16 && rest.Some? then Some([(h * 16 + l) as char] + rest.value) else None
  }

  lemma HexDigitValue(d: nat)
    requires d < 16
    ensures HexValue(HexDigit(d, true)) == Some(d)
    ensures '0' <= HexDigit(d, true) <= '9' || 'A' <= HexDigit(d, true) <= 'F'
  {
  }

  lemma {:induction false} DecodeUrlEncode(s: Bytes)
    ensures PercentDecode(UrlEncode(s)) == Some(s)
  {
    if s != "" {
      DecodeUrlEncode(s[1..]);
      var t, rest := UrlEncode(s), UrlEncode(s[1..]);
      assert [s[0]] + s[1..] == s;
      if Unreserved(s[0]) {
        assert t[1..] == rest;
      } else {
        assert t[3..] == rest && t[0] == '%';
        HexDigitValue(s[0] as int / 16);
        HexDigitValue(s[0] as int % 16);
      }
    }
  }

  // Unreserved characters, and percent signs followed by two uppercase hexadecimal digits.
  predicate Canonical(t: string) {
    t == ""
    || (Unreserved(t[0]) && Canonical(t[1..]))
    || (t[0] == '%' && |t| >= 3 && UpperHex(t[1]) && UpperHex(t[2]) && Canonical(t[3..]))
  }

  predicate UpperHex(c: char) {
    '0' <= c <= '9' || 'A' <= c <= 'F'
  }

  lemma {:induction false} UrlEncodeCanonical(s: Bytes)
    ensures Canonical(UrlEncode(s))
  {
    if s != "" {
      UrlEncodeCanonical(s[1..]);
      var t, rest := UrlEncode(s), UrlEncode(s[1..]);
      if Unreserved(s[0]) {
        assert t[1..] == rest;
      } else {
        assert t[3..] == rest;
        HexDigitValue(s[0] as int / 16);
        HexDigitValue(s[0] as int % 16);
      }
    }
  }

  function Reserved(s: Bytes): nat {
    if s == "" then 0 else (if Unreserved(s[0]) then 0 else 1) + Reserved(s[1..])
  }

  // Nothing is encoded that need not be: unreserved text is left as it is, and every other byte costs two
  // characters more.
  lemma {:induction false} UrlEncodeLength(s: Bytes)
    ensures |UrlEncode(s)| == |s| + 2 * Reserved(s)
    ensures Reserved(s) == 0 ==> UrlEncode(s) == s
  {
    if s != "" {
      UrlEncodeLength(s[1..]);
      assert [s[0]] + s[1..] == s;
    }
  }

  // Canonical text has none of the characters that structure a URL.
  lemma {:induction false} CanonicalCharacters(t: string)
    requires Canonical(t)
    ensures forall i :: 0 <= i < |t| ==> Unreserved(t[i]) || t[i] == '%'
    decreases |t|
  {
    if t != "" {
      if Unreserved(t[0]) {
        CanonicalCharacters(t[1..]);
        assert forall i :: 1 <= i < |t| ==> t[i] == t[1..][i - 1];
      } else {
        CanonicalCharacters(t[3..]);
        assert forall i :: 3 <= i < |t| ==> t[i] == t[3..][i - 3];
      }
    }
  }

  // Unreserved text decodes to itself.
  lemma {:induction false} DecodePlain(t: string)
    requires forall i :: 0 <= i < |t| ==> Unreserved(t[i])
    ensures PercentDecode(t) == Some(t)
  {
    if t != "" {
      DecodePlain(t[1..]);
      assert [t[0]] + t[1..] == t;
    }
  }
}
