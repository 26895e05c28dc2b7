// Base64Encode and GetBasicAuth, with the decoder of section 4 of RFC 4648 and the credentials of
// section 2 of RFC 7617.
module Base64 {
  import opened Options
  import opened Strings

  // The contents of a std::string.
  type Bytes = s: string | forall i :: 0 <= i < |s| ==> s[i] as int < 256

  const UPPER := "ABCDEFGHIJKLMNOPQRSTUVWXYZ"
  const LOWER := "abcdefghijklmnopqrstuvwxyz"
  const REST := "0123456789+/"
  const ALPHABET := UPPER + LOWER + REST

  // ---- the encoding as arithmetic on bytes ----

  function Sextets(a: int, b: int, c: int): (r: seq<int>)
    requires 0 <= a < 256 && 0 <= b < 256 && 0 <= c < 256
    ensures |r| == 4 && forall i :: 0 <= i < 4 ==> 0 <= r[i] < 64
  {
    [a / 4, a % 4 * 16 + b / 16, b % 16 * 4 + c / 64, c % 64]
  }

  function Letters(sextets: seq<int>): (r: string)
    requires forall i :: 0 <= i < |sextets| ==> 0 <= sextets[i] < 64
    ensures |r| == |sextets|
    ensures forall i :: 0 <= i < |r| ==> r[i] == ALPHABET[sextets[i]]
  {
    seq(|sextets|, i requires 0 <= i < |sextets| => ALPHABET[sextets[i]])
  }

  function ByteAt(s: Bytes, i: nat): int {
    if i < |s| then s[i] as int else 0
  }

  // One to three bytes as four characters.
  function Group(s: Bytes): (r: string)
    requires 1 <= |s| <= 3
    ensures |r| == 4
  {
    Letters(Sextets(ByteAt(s, 0), ByteAt(s, 1), ByteAt(s, 2))[..|s| + 1]) + seq(3 - |s|, _ => '=')
  }

  function Encode(s: Bytes): string {
    if s == "" then "" else if |s| <= 3 then Group(s) else Group(s[..3]) + Encode(s[3..])
  }

  // ---- the decoder ----

  function Value(c: char): (r: Option<int>)
    ensures r.Some? ==> 0 <= r.value < 64
  {
    if 'A' <= c <= 'Z' then Some(c as int - 'A' as int)
    else if 'a' <= c <= 'z' then Some(c as int - 'a' as int + 26)
    else if '0' <= c <= '9' then Some(c as int - '0' as int + 52)
    else if c == '+' then Some(62)
    else if c == '/' then Some(63)
    else None
  }

  // Four characters, padded or not; unused bits must be zero.
  function Ungroup(q: string): Option<Bytes>
    requires |q| == 4
  {
    var v0, v1, v2, v3 := Value(q[0]), Value(q[1]), Value(q[2]), Value(q[3]);
    if v0.None? || v1.None? then None
    else
      var a := v0.value * 4 + v1.value / 16;
      if q[2] == '=' && q[3] == '=' then
        if v1.value % 16 == 0 then Some([a as char]) else None
      else if v2.None? then None
      else
        var b := v1.value % 16 * 16 + v2.value / 4;
        if q[3] == '=' then
          if v2.value % 4 == 0 then Some([a as char, b as char]) else None
        else if v3.None? then None
        else Some([a as char, b as char, (v2.value % 4 * 64 + v3.value) as char])
  }

  function Decode(s: string): Option<Bytes> {
    if s == "" then Some("")
    else if |s| < 4 then None
    else
      var first := Ungroup(s[..4]);
      if first.None? then None
      else if |s| == 4 then first
      else if |first.value| < 3 then None
      else
        var rest := Decode(s[4..]);
        if rest.None? then None else Some(first.value + rest.value)
  }

  // ---- the tables are inverse to each other ----

  lemma LetterValue(i: nat)
    requires i < 64
    ensures Value(ALPHABET[i]) == Some(i) && ALPHABET[i] != '='
  {
    Tables();
    if i < 26 { assert ALPHABET[i] == UPPER[i]; }
    else if i < 52 { assert ALPHABET[i] == LOWER[i - 26]; }
    else { assert ALPHABET[i] == REST[i - 52]; }
  }

  lemma Tables()
    ensures forall i :: 0 <= i < 26 ==> UPPER[i] as int == 'A' as int + i
    ensures forall i :: 0 <= i < 26 ==> LOWER[i] as int == 'a' as int + i
    ensures forall i :: 0 <= i < 10 ==> REST[i] as int == '0' as int + i
    ensures REST[10] == '+' && REST[11] == '/'
  {
  }

  // The alphabet is that of table 1 of RFC 4648.
  lemma AlphabetIsStandard()
    ensures |ALPHABET| == 64 && ALPHABET[62] == '+' && ALPHABET[63] == '/'
    ensures forall i :: 0 <= i < 26 ==> ALPHABET[i] as int == 'A' as int + i
    ensures forall i :: 26 <= i < 52 ==> ALPHABET[i] as int == 'a' as int + (i - 26)
    ensures forall i :: 52 <= i < 62 ==> ALPHABET[i] as int == '0' as int + (i - 52)
  {
    Tables();
    assert forall i :: 0 <= i < 26 ==> ALPHABET[i] == UPPER[i];
    assert forall i :: 26 <= i < 52 ==> ALPHABET[i] == LOWER[i - 26];
    assert forall i :: 52 <= i < 64 ==> ALPHABET[i] == REST[i - 52];
  }

  lemma ValueLetter(c: char)
    requires Value(c).Some?
    ensures ALPHABET[Value(c).value] == c
  {
    SameValue(c, ALPHABET[Value(c).value]);
  }

  lemma SameValue(c: char, d: char)
    requires Value(c).Some? && d == ALPHABET[Value(c).value]
    ensures c == d
  {
    LetterValue(Value(c).value);
    Injective(c, d);
  }

  lemma Injective(c: char, d: char)
    requires Value(c).Some? && Value(c) == Value(d)
    ensures c == d
  {
  }

  // ---- round trips ----

  lemma SextetsRecombine(a: int, b: int, c: int)
    requires 0 <= a < 256 && 0 <= b < 256 && 0 <= c < 256
    ensures var r := Sextets(a, b, c);
      && r[0] * 4 + r[1] / 16 == a
      && r[1] % 16 * 16 + r[2] / 4 == b
      && r[2] % 4 * 64 + r[3] == c
  {
  }

  lemma GroupValues(s: Bytes)
    requires 1 <= |s| <= 3
    ensures var r := Sextets(ByteAt(s, 0), ByteAt(s, 1), ByteAt(s, 2));
      && (forall i :: 0 <= i <= |s| ==> Value(Group(s)[i]) == Some(r[i]) && Group(s)[i] != '=')
      && (forall i :: |s| < i < 4 ==> Group(s)[i] == '=')
  {
    var r := Sextets(ByteAt(s, 0), ByteAt(s, 1), ByteAt(s, 2));
    forall i | 0 <= i <= |s|
      ensures Value(Group(s)[i]) == Some(r[i]) && Group(s)[i] != '='
    {
      LetterValue(r[i]);
    }
  }

  lemma UngroupOne(q: string, a: char, v0: int, v1: int)
    requires |q| == 4 && Value(q[0]) == Some(v0) && Value(q[1]) == Some(v1) && q[2] == '=' && q[3] == '='
    requires v0 * 4 + v1 / 16 == a as int && v1 % 16 == 0
    ensures Ungroup(q) == Some([a])
  {
  }

  lemma UngroupTwo(q: string, a: char, b: char, v0: int, v1: int, v2: int)
    requires |q| == 4 && Value(q[0]) == Some(v0) && Value(q[1]) == Some(v1) && Value(q[2]) == Some(v2)
    requires q[2] != '=' && q[3] == '='
    requires v0 * 4 + v1 / 16 == a as int && v1 % 16 * 16 + v2 / 4 == b as int && v2 % 4 == 0
    ensures Ungroup(q) == Some([a, b])
  {
  }

  lemma UngroupThree(q: string, a: char, b: char, c: char, v0: int, v1: int, v2: int, v3: int)
    requires |q| == 4
    requires Value(q[0]) == Some(v0) && Value(q[1]) == Some(v1) && Value(q[2]) == Some(v2) && Value(q[3]) == Some(v3)
    requires q[2] != '=' && q[3] != '='
    requires v0 * 4 + v1 / 16 == a as int && v1 % 16 * 16 + v2 / 4 == b as int && v2 % 4 * 64 + v3 == c as int
    ensures Ungroup(q) == Some([a, b, c])
  {
  }

  lemma UngroupGroup(s: Bytes)
    requires 1 <= |s| <= 3
    ensures Ungroup(Group(s)) == Some(s)
  {
    var r := Sextets(ByteAt(s, 0), ByteAt(s, 1), ByteAt(s, 2));
    GroupValues(s);
    SextetsRecombine(ByteAt(s, 0), ByteAt(s, 1), ByteAt(s, 2));
    UngroupValues(s, Group(s), r[0], r[1], r[2], r[3]);
  }

  lemma UngroupValues(s: Bytes, q: string, v0: int, v1: int, v2: int, v3: int)
    requires 1 <= |s| <= 3 && |q| == 4
    requires Value(q[0]) == Some(v0) && Value(q[1]) == Some(v1)
    requires if |s| == 1 then q[2] == '=' else Value(q[2]) == Some(v2) && q[2] != '='
    requires if |s| <= 2 then q[3] == '=' else Value(q[3]) == Some(v3) && q[3] != '='
    requires v0 * 4 + v1 / 16 == ByteAt(s, 0)
    requires v1 % 16 * 16 + (if |s| == 1 then 0 else v2 / 4) == ByteAt(s, 1)
    requires (if |s| == 1 then 0 else v2 % 4 * 64) + (if |s| <= 2 then 0 else v3) == ByteAt(s, 2)
    ensures Ungroup(q) == Some(s)
  {
    if |s| == 1 {
      UngroupOne(q, s[0], v0, v1);
      assert s == [s[0]];
    } else if |s| == 2 {
      UngroupTwo(q, s[0], s[1], v0, v1, v2);
      assert s == [s[0], s[1]];
    } else {
      UngroupThree(q, s[0], s[1], s[2], v0, v1, v2, v3);
      assert s == [s[0], s[1], s[2]];
    }
  }

  lemma {:induction false} DecodeEncode(s: Bytes)
    ensures Decode(Encode(s)) == Some(s)
  {
    if s != "" {
      if |s| <= 3 {
        UngroupGroup(s);
        assert Group(s)[..4] == Group(s);
      } else {
        UngroupGroup(s[..3]);
        DecodeEncode(s[3..]);
        EncodeLength(s[3..]);
        var g, rest := Group(s[..3]), Encode(s[3..]);
        assert (g + rest)[..4] == g && (g + rest)[4..] == rest;
        assert s[..3] + s[3..] == s;
      }
    }
  }

  // Four characters for every three bytes begun.
  lemma {:induction false} EncodeLength(s: Bytes)
    ensures |Encode(s)| == 4 * ((|s| + 2) / 3)
  {
    if |s| > 3 {
      EncodeLength(s[3..]);
      assert |Group(s[..3])| == 4;
    }
  }

  lemma UngroupIsGroup(q: string)
    requires |q| == 4 && Ungroup(q).Some?
    ensures 1 <= |Ungroup(q).value| <= 3 && Group(Ungroup(q).value) == q
  {
    var s := Ungroup(q).value;
    UngroupSextets(q);
    SameGroup(q, s);
  }

  // A group is determined by the values of its letters and by its padding.
  lemma SameGroup(q: string, s: Bytes)
    requires |q| == 4 && 1 <= |s| <= 3
    requires var r := Sextets(ByteAt(s, 0), ByteAt(s, 1), ByteAt(s, 2));
      forall i :: 0 <= i <= |s| ==> Value(q[i]) == Some(r[i])
    requires forall i :: |s| < i < 4 ==> q[i] == '='
    ensures Group(s) == q
  {
    GroupValues(s);
    forall i | 0 <= i <= |s|
      ensures Group(s)[i] == q[i]
    {
      ValueLetter(q[i]);
      ValueLetter(Group(s)[i]);
    }
  }

  lemma UngroupSextets(q: string)
    requires |q| == 4 && Ungroup(q).Some?
    ensures var s := Ungroup(q).value;
      var r := Sextets(ByteAt(s, 0), ByteAt(s, 1), ByteAt(s, 2));
      && 1 <= |s| <= 3
      && (forall i :: 0 <= i <= |s| ==> Value(q[i]) == Some(r[i]))
      && (forall i :: |s| < i < 4 ==> q[i] == '=')
  {
    var s := Ungroup(q).value;
    var v0, v1 := Value(q[0]).value, Value(q[1]).value;
    var v2 := if |s| >= 2 then Value(q[2]).value else 0;
    var v3 := if |s| == 3 then Value(q[3]).value else 0;
    Unpacked(v0, v1, v2, v3);
  }

  lemma Unpacked(v0: int, v1: int, v2: int, v3: int)
    requires 0 <= v0 < 64 && 0 <= v1 < 64 && 0 <= v2 < 64 && 0 <= v3 < 64
    ensures Sextets(v0 * 4 + v1 / 16, v1 % 16 * 16 + v2 / 4, v2 % 4 * 64 + v3) == [v0, v1, v2, v3]
  {
    DivMod16(v1);
    DivMod4(v2);
    Packed(v0, v1 / 16, v1 % 16, v2 / 4, v2 % 4, v3);
  }

  lemma DivMod16(v: int)
    requires 0 <= v < 64
    ensures v == 16 * (v / 16) + v % 16 && 0 <= v / 16 < 4 && 0 <= v % 16 < 16
  {
  }

  lemma DivMod4(v: int)
    requires 0 <= v < 64
    ensures v == 4 * (v / 4) + v % 4 && 0 <= v / 4 < 16 && 0 <= v % 4 < 4
  {
  }

  // Three bytes, written as the parts their sextets take from them.
  lemma Packed(v0: int, h1: int, l1: int, h2: int, l2: int, v3: int)
    requires 0 <= v0 < 64 && 0 <= h1 < 4 && 0 <= l1 < 16 && 0 <= h2 < 16 && 0 <= l2 < 4 && 0 <= v3 < 64
    ensures Sextets(v0 * 4 + h1, l1 * 16 + h2, l2 * 64 + v3) == [v0, 16 * h1 + l1, 4 * h2 + l2, v3]
  {
  }

  // The decoder accepts nothing but encodings.
  lemma {:induction false} EncodeDecode(t: string)
    requires Decode(t).Some?
    ensures Encode(Decode(t).value) == t
    decreases |t|
  {
    if t != "" {
      var first := Ungroup(t[..4]).value;
      UngroupIsGroup(t[..4]);
      if |t| == 4 {
        assert t[..4] == t;
      } else {
        var rest := Decode(t[4..]).value;
        EncodeDecode(t[4..]);
        assert t[4..] != "";
        assert (first + rest)[..3] == first && (first + rest)[3..] == rest;
        assert t[..4] + t[4..] == t;
      }
    }
  }

  // ---- the loop of the source ----

  // The bits of a byte, the lowest one last.
  function Bits(n: int): (b: bv8)
    requires 0 <= n < 256
    ensures b as int == n
  {
    if n == 0 then 0
    else
      Doubled(Bits(n / 2), n / 2);
      (Bits(n / 2) << 1) + (if n % 2 == 1 then 1 else 0)
  }

  lemma Doubled(b: bv8, n: int)
    requires b as int == n < 128
    ensures (b << 1) as int == 2 * n && ((b << 1) + 1) as int == 2 * n + 1
  {
  }

  // A char promoted to int, with sign extension where char is signed.
  function Promote(n: int, signedChar: bool): bv32
    requires 0 <= n < 256
  {
    var b := Bits(n);
    if signedChar && b >= 0x80 then 0xffff_ff00 | b as bv32 else b as bv32
  }

  // What the source computes from the promoted characters.
  function Mask0(x: bv32): bv32 { (x & 0xfc) >> 2 }
  function Mask1(x: bv32, y: bv32): bv32 { ((x & 0x03) << 4) + ((y & 0xf0) >> 4) }
  function Mask2(y: bv32, z: bv32): bv32 { ((y & 0x0f) << 2) + ((z & 0xc0) >> 6) }
  function Mask3(z: bv32): bv32 { z & 0x3f }

  // Sign extension included, these are the sextets: every index into the table is below 64, also for
  // negative char.
  lemma MaskedSextets(a: int, b: int, c: int, signedChar: bool)
    requires 0 <= a < 256 && 0 <= b < 256 && 0 <= c < 256
    ensures var x, y, z := Promote(a, signedChar), Promote(b, signedChar), Promote(c, signedChar);
      && [Mask0(x) as int, Mask1(x, y) as int, Mask2(y, z) as int, Mask3(z) as int] == Sextets(a, b, c)
      && Mask0(x) < 64 && Mask1(x, y) < 64 && Mask2(y, z) < 64 && Mask3(z) < 64
  {
    hide Promote, Mask0, Mask1, Mask2, Mask3;
    var x, y, z := Promote(a, signedChar), Promote(b, signedChar), Promote(c, signedChar);
    Masked0(a, x, signedChar);
    Masked1(a, b, x, y, signedChar);
    Masked2(b, c, y, z, signedChar);
    Masked3(c, z, signedChar);
  }

  lemma Masked0(a: int, x: bv32, signedChar: bool)
    requires 0 <= a < 256 && x == Promote(a, signedChar)
    ensures Mask0(x) as int == a / 4 && Mask0(x) < 64
  {
    var p := Bits(a);
    Quotients(p, a);
    assert Mask0(x) == (p >> 2) as bv32;
    Widened(p >> 2);
  }

  lemma Masked1(a: int, b: int, x: bv32, y: bv32, signedChar: bool)
    requires 0 <= a < 256 && 0 <= b < 256 && x == Promote(a, signedChar) && y == Promote(b, signedChar)
    ensures Mask1(x, y) as int == a % 4 * 16 + b / 16 && Mask1(x, y) < 64
  {
    var p, q := Bits(a), Bits(b);
    Remainders(p, a);
    Quotients(q, b);
    assert Mask1(x, y) == (((p & 0x03) << 4) + (q >> 4)) as bv32;
    Widened(((p & 0x03) << 4) + (q >> 4));
    Joined(p & 0x03, q >> 4);
  }

  lemma Masked2(b: int, c: int, y: bv32, z: bv32, signedChar: bool)
    requires 0 <= b < 256 && 0 <= c < 256 && y == Promote(b, signedChar) && z == Promote(c, signedChar)
    ensures Mask2(y, z) as int == b % 16 * 4 + c / 64 && Mask2(y, z) < 64
  {
    var p, q := Bits(b), Bits(c);
    Remainders(p, b);
    Quotients(q, c);
    assert Mask2(y, z) == (((p & 0x0f) << 2) + (q >> 6)) as bv32;
    Widened(((p & 0x0f) << 2) + (q >> 6));
    Joined4(p & 0x0f, q >> 6);
  }

  lemma Masked3(c: int, z: bv32, signedChar: bool)
    requires 0 <= c < 256 && z == Promote(c, signedChar)
    ensures Mask3(z) as int == c % 64 && Mask3(z) < 64
  {
    var p := Bits(c);
    Remainders(p, c);
    assert Mask3(z) == (p & 0x3f) as bv32;
    Widened(p & 0x3f);
  }

  lemma Widened(b: bv8)
    ensures (b as bv32) as int == b as int
  {
  }

  // Shifts and masks of a byte are its quotients and remainders.
  lemma Quotients(b: bv8, n: int)
    requires b as int == n
    ensures (b >> 2) as int == n / 4 && (b >> 4) as int == n / 16 && (b >> 6) as int == n / 64
  {
  }

  lemma Remainders(b: bv8, n: int)
    requires b as int == n
    ensures (b & 0x03) as int == n % 4 && (b & 0x0f) as int == n % 16 && (b & 0x3f) as int == n % 64
  {
  }

  lemma Joined(h: bv8, l: bv8)
    requires h < 4 && l < 16
    ensures ((h << 4) + l) as int == h as int * 16 + l as int
  {
  }

  lemma Joined4(h: bv8, l: bv8)
    requires h < 16 && l < 4
    ensures ((h << 2) + l) as int == h as int * 4 + l as int
  {
  }

  lemma {:induction false} EncodeAppend(s: Bytes, g: Bytes)
    requires |s| % 3 == 0 && 1 <= |g| <= 3
    ensures Encode(s + g) == Encode(s) + Group(g)
    decreases |s|
  {
    hide Group;
    if s == "" {
      assert s + g == g;
    } else {
      EncodeAppend(s[3..], g);
      assert (s + g)[..3] == s[..3] && (s + g)[3..] == s[3..] + g;
      if |s| == 3 {
        assert s[..3] == s && s[3..] == "";
        assert Encode(s) == Group(s);
      }
    }
  }

  method FillSextets(three: array<char>, four: array<int>, signedChar: bool)
    requires IsBytes(three) && four.Length == 4
    modifies four
    ensures four[..] == Sextets(three[0] as int, three[1] as int, three[2] as int)
  {
    hide Promote, Mask0, Mask1, Mask2, Mask3;
    var a, b, c := three[0] as int, three[1] as int, three[2] as int;
    var x, y, z := Promote(a, signedChar), Promote(b, signedChar), Promote(c, signedChar);
    four[0] := Mask0(x) as int;
    four[1] := Mask1(x, y) as int;
    four[2] := Mask2(y, z) as int;
    four[3] := Mask3(z) as int;
    MaskedSextets(a, b, c, signedChar);
  }

  method AppendLetters(four: array<int>, n: nat, ret: string) returns (r: string)
    requires four.Length == 4 && n <= 4
    requires forall i :: 0 <= i < 4 ==> 0 <= four[i] < 64
    ensures r == ret + Letters(four[..n])
  {
    r := ret;
    for j := 0 to n
      invariant r == ret + Letters(four[..j])
    {
      r := r + [ALPHABET[four[j]]];
    }
  }

  // Encodes the first n characters of char_array_3, the others being zero.
  method EmitGroup(three: array<char>, four: array<int>, n: nat, ret: string, signedChar: bool) returns (r: string)
    requires IsBytes(three) && four.Length == 4 && 1 <= n <= 3
    requires forall i :: n <= i < 3 ==> three[i] == '\0'
    modifies four
    ensures r == ret + Group(three[..n])
  {
    FillSextets(three, four, signedChar);
    ghost var g: Bytes := three[..n];
    assert forall i :: 0 <= i < 3 ==> ByteAt(g, i) == three[i] as int;
    r := AppendLetters(four, n + 1, ret);
    assert four[..n + 1] == four[..][..n + 1];
    r := Pad(r, 3 - n);
  }

  method Base64Encode(toEncode: Bytes, signedChar: bool) returns (ret: string)
    ensures ret == Encode(toEncode)
  {
    ret := "";
    var three := new char[3](_ => '\0');
    var four := new int[4](_ => 0);
    var i: nat := 0;
    ghost var encoded: Bytes := "";
    for k := 0 to |toEncode|
      invariant i < 3 && |encoded| % 3 == 0 && IsBytes(three)
      invariant encoded + three[..i] == toEncode[..k]
      invariant ret == Encode(encoded)
    {
      i, ret, encoded := Take(three, four, i, toEncode[k], ret, signedChar, encoded);
      assert toEncode[..k + 1] == toEncode[..k] + [toEncode[k]];
    }
    assert toEncode[..|toEncode|] == toEncode;
    ret := Finish(encoded, i, three, four, ret, signedChar);
  }

  predicate IsBytes(three: array<char>)
    reads three
  {
    three.Length == 3 && forall j :: 0 <= j < 3 ==> three[j] as int < 256
  }

  // Stores a character, and encodes the group if it is the third one.
  method Take(three: array<char>, four: array<int>, i: nat, c: char, ret: string, signedChar: bool,
              ghost encoded: Bytes)
    returns (next: nat, r: string, ghost e: Bytes)
    requires IsBytes(three) && four.Length == 4 && i < 3 && c as int < 256
    requires |encoded| % 3 == 0 && ret == Encode(encoded)
    modifies three, four
    ensures IsBytes(three) && next < 3 && |e| % 3 == 0 && r == Encode(e)
    ensures e + three[..next] == encoded + old(three[..i]) + [c]
  {
    three[i] := c;
    assert three[..i + 1] == old(three[..i]) + [c];
    next, r, e := i + 1, ret, encoded;
    if next == 3 {
      r := EmitGroup(three, four, 3, ret, signedChar);
      EncodeAppend(encoded, three[..3]);
      next, e := 0, encoded + three[..3];
    }
  }

  // The characters left over, if any.
  method Finish(ghost encoded: Bytes, i: nat, three: array<char>, four: array<int>, ret: string, signedChar: bool)
    returns (r: string)
    requires IsBytes(three) && four.Length == 4
    requires i < 3 && |encoded| % 3 == 0 && ret == Encode(encoded)
    modifies three, four
    ensures r == Encode(encoded + old(three[..i]))
  {
    assert i == 0 ==> encoded + three[..i] == encoded;
    if i == 0 { return ret; }
    ghost var left: Bytes := three[..i];
    for j := i to 3
      invariant three[..i] == left
      invariant forall m :: i <= m < j ==> three[m] == '\0'
      invariant IsBytes(three)
    {
      three[j] := '\0';
    }
    r := EmitGroup(three, four, i, ret, signedChar);
    EncodeAppend(encoded, left);
  }

  method Pad(ret: string, n: nat) returns (r: string)
    ensures r == ret + seq(n, _ => '=')
  {
    r := ret;
    var j := 0;
    while j < n
      invariant j <= n
      invariant r == ret + seq(j, _ => '=')
    {
      r := r + "=";
      j := j + 1;
    }
  }

  // ---- the Authorization header ----

  function GetBasicAuth(user: Bytes, psw: Bytes): string {
    "Basic " + Encode(user + ":" + psw)
  }

  // What a server makes of the header: user and password are separated by the first colon.
  function Credentials(header: string): Option<(string, string)> {
    if |header| < 6 || header[..6] != "Basic " || Decode(header[6..]).None? then None
    else
      var s := Decode(header[6..]).value;
      var k := IndexOf(s, ':');
      if k == |s| then None else Some((s[..k], s[k + 1..]))
  }

  // The server recovers user and password exactly when the user has no colon.
  lemma CredentialsRecoveredIff(user: Bytes, psw: Bytes)
    ensures Credentials(GetBasicAuth(user, psw)) == Some((user, psw)) <==> ':' !in user
  {
    var s := user + ":" + psw;
    DecodeEncode(s);
    var header := GetBasicAuth(user, psw);
    assert header[..6] == "Basic " && header[6..] == Encode(s);
    var k := IndexOf(s, ':');
    assert s[|user|] == ':';
    if ':' !in user {
      assert k == |user|;
      assert s[..k] == user && s[k + 1..] == psw;
    } else {
      var i :| 0 <= i < |user| && user[i] == ':';
      assert s[i] == ':';
      assert k <= i;
      assert |s[..k]| < |user|;
    }
  }
}
