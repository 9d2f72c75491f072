/** The JavaScript string operations the application relies on, over `seq<char>`. */
module Strings {
  import opened Common

  /** `pat` occurs in `s` starting at index `i`. */
  predicate OccursAt(s: string, pat: string, i: int) {
    0 <= i && i + |pat| <= |s| && s[i..i + |pat|] == pat
  }

  /** The first occurrence of `pat` at or after `from` (`s.indexOf(pat, from)`). */
  function IndexFrom(s: string, pat: string, from: nat): (r: Option<nat>)
    ensures r.Some? ==> from <= r.value && OccursAt(s, pat, r.value)
    ensures r.Some? ==> forall j :: from <= j < r.value ==> !OccursAt(s, pat, j)
    ensures r.None? ==> forall j :: from <= j ==> !OccursAt(s, pat, j)
    decreases |s| - from
  {
    if from + |pat| > |s| then None
    else if s[from..from + |pat|] == pat then Some(from)
    else IndexFrom(s, pat, from + 1)
  }

  /** `s.indexOf(pat)`, with `None` for -1. */
  function IndexOf(s: string, pat: string): Option<nat> {
    IndexFrom(s, pat, 0)
  }

  /** `s.includes(pat)`. */
  predicate Contains(s: string, pat: string)
  {
    IndexOf(s, pat).Some?
  }

  lemma ContainsIff(s: string, pat: string)
    ensures Contains(s, pat) <==> exists j :: OccursAt(s, pat, j)
  {
    if !Contains(s, pat) {
      assert IndexFrom(s, pat, 0).None?;
    }
  }

  /** `s.replace(pat, rep)` with a plain-string pattern: only the FIRST occurrence is replaced. */
  function ReplaceFirst(s: string, pat: string, rep: string): (r: string)
    ensures !Contains(s, pat) ==> r == s
    ensures Contains(s, pat) ==>
      var i := IndexOf(s, pat).value;
      OccursAt(s, pat, i) && (forall j :: 0 <= j < i ==> !OccursAt(s, pat, j)) &&
      r == s[..i] + rep + s[i + |pat|..]
  {
    match IndexOf(s, pat)
    case None => s
    case Some(i) => s[..i] + rep + s[i + |pat|..]
  }

  /** `xs.join(sep)`. */
  function Join(xs: seq<string>, sep: string): string {
    if |xs| == 0 then ""
    else if |xs| == 1 then xs[0]
    else xs[0] + sep + Join(xs[1..], sep)
  }

  /** `s.split(c)` for a one-character separator: the pieces between separators, empty ones included. */
  function Split(s: string, c: char): (r: seq<string>)
    ensures |r| >= 1
    ensures forall k :: 0 <= k < |r| ==> c !in r[k]
    ensures Join(r, [c]) == s
  {
    if |s| == 0 then [""]
    else
      var rest := Split(s[1..], c);
      if s[0] == c then
        assert [""] + rest == [""] + [rest[0]] + rest[1..];
        [""] + rest
      else
        var r := [[s[0]] + rest[0]] + rest[1..];
        assert r[1..] == rest[1..];
        assert s == [s[0]] + s[1..];
        r
  }

  /** ASCII part of `toLowerCase()`. */
  function LowerChar(c: char): char {
    if 'A' <= c <= 'Z' then (c as int + 32) as char else c
  }

  function Lower(s: string): (r: string)
    ensures |r| == |s|
    ensures forall i :: 0 <= i < |s| ==> r[i] == LowerChar(s[i])
  {
    seq(|s|, i requires 0 <= i < |s| => LowerChar(s[i]))
  }

  // ---- decimal numbers --------------------------------------------------------------

  predicate IsDigit(c: char) { '0' <= c <= '9' }

  function DigitChar(d: nat): char
    requires d < 10
  {
    ('0' as int + d) as char
  }

  function DigitValue(c: char): nat
    requires IsDigit(c)
  {
    c as int - '0' as int
  }

  /** `n.toString()` for a natural number. */
  function NatToString(n: nat): (r: string)
    ensures |r| >= 1
    ensures forall i :: 0 <= i < |r| ==> IsDigit(r[i])
    ensures n < 10 <==> |r| == 1
    decreases n
  {
    if n < 10 then [DigitChar(n)] else NatToString(n / 10) + [DigitChar(n % 10)]
  }

  /** The value of a string of decimal digits (leading zeros allowed), as `parseInt(s, 10)`. */
  function ParseNat(s: string): nat
    requires forall i :: 0 <= i < |s| ==> IsDigit(s[i])
  {
    if |s| == 0 then 0 else ParseNat(s[..|s| - 1]) * 10 + DigitValue(s[|s| - 1])
  }

  lemma {:induction false} ParseNatToString(n: nat)
    ensures ParseNat(NatToString(n)) == n
    decreases n
  {
    if n >= 10 {
      var a := NatToString(n / 10);
      var s := a + [DigitChar(n % 10)];
      assert s[..|s| - 1] == a;
      ParseNatToString(n / 10);
    }
  }

  /** A run of '0' characters. */
  function Zeros(k: nat): (r: string)
    ensures |r| == k && forall i :: 0 <= i < k ==> r[i] == '0'
  {
    seq(k, _ => '0')
  }

  lemma {:induction false} ParseNatLeadingZeros(k: nat, s: string)
    requires forall i :: 0 <= i < |s| ==> IsDigit(s[i])
    ensures ParseNat(Zeros(k) + s) == ParseNat(s)
    decreases |s|
  {
    var t := Zeros(k) + s;
    if |s| == 0 {
      assert t == Zeros(k);
      ParseNatZeros(k);
    } else {
      assert t[..|t| - 1] == Zeros(k) + s[..|s| - 1];
      ParseNatLeadingZeros(k, s[..|s| - 1]);
    }
  }

  lemma {:induction false} ParseNatZeros(k: nat)
    ensures ParseNat(Zeros(k)) == 0
  {
    if k > 0 {
      assert Zeros(k)[..k - 1] == Zeros(k - 1);
      ParseNatZeros(k - 1);
    }
  }

  /** `s.padStart(width, c)`. */
  function PadStart(s: string, width: nat, c: char): (r: string)
    ensures |r| == Max(|s|, width)
    ensures |s| >= width ==> r == s
    ensures |s| < width ==> r == seq(width - |s|, _ => c) + s
  {
    if |s| >= width then s else seq(width - |s|, _ => c) + s
  }

  /** `n.toString()` for any integer. */
  function IntToString(n: int): string {
    if n < 0 then "-" + NatToString(-n) else NatToString(n)
  }

  // ---- whitespace and trimming ------------------------------------------------------

  /** The characters `String.prototype.trim` removes: WhiteSpace and LineTerminator
      of section 12.2 and 12.3 of ECMA-262. */
  predicate IsJsWhitespace(c: char) {
    var n := c as int;
    n == 0x09 || n == 0x0A || n == 0x0B || n == 0x0C || n == 0x0D || n == 0x20 ||
    n == 0xA0 || n == 0x1680 || (0x2000 <= n <= 0x200A) || n == 0x2028 || n == 0x2029 ||
    n == 0x202F || n == 0x205F || n == 0x3000 || n == 0xFEFF
  }

  function TrimStart(s: string): (r: string)
    ensures |r| <= |s| && r == s[|s| - |r|..]
    ensures forall i :: 0 <= i < |s| - |r| ==> IsJsWhitespace(s[i])
    ensures r != [] ==> !IsJsWhitespace(r[0])
  {
    if |s| > 0 && IsJsWhitespace(s[0]) then TrimStart(s[1..]) else s
  }

  function TrimEnd(s: string): (r: string)
    ensures |r| <= |s| && r == s[..|r|]
    ensures forall i :: |r| <= i < |s| ==> IsJsWhitespace(s[i])
    ensures r != [] ==> !IsJsWhitespace(r[|r| - 1])
  {
    if |s| > 0 && IsJsWhitespace(s[|s| - 1]) then TrimEnd(s[..|s| - 1]) else s
  }

  /** `s.trim()`. */
  function Trim(s: string): string {
    TrimEnd(TrimStart(s))
  }

  /** `s.trim()` is empty exactly when every character of `s` is whitespace. */
  lemma TrimEmptyIff(s: string)
    ensures Trim(s) == [] <==> forall i :: 0 <= i < |s| ==> IsJsWhitespace(s[i])
  {
    var a := TrimStart(s);
    if Trim(s) == [] {
      assert a == [];
    }
  }

  // ---- encodeURIComponent -----------------------------------------------------------

  /** The characters `encodeURIComponent` leaves as they are. */
  predicate IsUriUnreserved(c: char) {
    ('A' <= c <= 'Z') || ('a' <= c <= 'z') || ('0' <= c <= '9') ||
    c == '-' || c == '_' || c == '.' || c == '!' || c == '~' || c == '*' || c == '\'' || c == '(' || c == ')'
  }

  predicate IsUpperHex(c: char) { ('0' <= c <= '9') || ('A' <= c <= 'F') }

  function HexDigit(d: nat): (c: char)
    requires d < 16
    ensures IsUpperHex(c)
  {
    if d < 10 then ('0' as int + d) as char else ('A' as int + d - 10) as char
  }

  /** `%XX` for one byte. */
  function PercentByte(b: nat): (r: string)
    requires b < 256
    ensures |r| == 3 && r[0] == '%' && IsUpperHex(r[1]) && IsUpperHex(r[2])
  {
    ['%', HexDigit(b / 16), HexDigit(b % 16)]
  }

  /** The UTF-8 bytes of one Unicode scalar value. */
  function Utf8(cp: nat): (bytes: seq<nat>)
    requires cp < 0x110000
    ensures 1 <= |bytes| <= 4 && forall i :: 0 <= i < |bytes| ==> bytes[i] < 256
  {
    if cp < 0x80 then [cp]
    else if cp < 0x800 then [0xC0 + cp / 64, 0x80 + cp % 64]
    else if cp < 0x10000 then [0xE0 + cp / 4096, 0x80 + (cp / 64) % 64, 0x80 + cp % 64]
    else [0xF0 + cp / 262144, 0x80 + (cp / 4096) % 64, 0x80 + (cp / 64) % 64, 0x80 + cp % 64]
  }

  function PercentBytes(bytes: seq<nat>): (r: string)
    requires forall i :: 0 <= i < |bytes| ==> bytes[i] < 256
    ensures |r| == 3 * |bytes|
    ensures forall i :: 0 <= i < |r| ==> r[i] == '%' || IsUpperHex(r[i])
  {
    if |bytes| == 0 then "" else PercentByte(bytes[0]) + PercentBytes(bytes[1..])
  }

  /** `encodeURIComponent(s)` (strings here never hold lone surrogates). */
  function EncodeUriComponent(s: string): (r: string)
    ensures forall i :: 0 <= i < |r| ==> IsUriUnreserved(r[i]) || r[i] == '%' || IsUpperHex(r[i])
    ensures (forall i :: 0 <= i < |s| ==> IsUriUnreserved(s[i])) ==> r == s
  {
    if |s| == 0 then ""
    else
      var head := if IsUriUnreserved(s[0]) then [s[0]] else PercentBytes(Utf8(s[0] as int));
      assert IsUriUnreserved(s[0]) ==> [s[0]] + s[1..] == s;
      head + EncodeUriComponent(s[1..])
  }

  // ---- decoding, the inverse of the two encoders ----------------------------------------

  /** The value of an upper-case hex digit. */
  function HexValue(c: char): (d: nat)
    requires IsUpperHex(c)
    ensures d < 16 && HexDigit(d) == c
  {
    if c <= '9' then c as int - '0' as int else c as int - 'A' as int + 10
  }

  lemma HexValueOfDigit(d: nat)
    requires d < 16
    ensures HexValue(HexDigit(d)) == d
  {
  }

  /** The byte that the `%XX` starting the text stands for, if it starts with one. */
  function PercentByteAtStart(r: string): (b: Option<nat>)
    ensures b.Some? ==> |r| >= 3 && b.value < 256 && r[..3] == PercentByte(b.value)
  {
    if |r| >= 3 && r[0] == '%' && IsUpperHex(r[1]) && IsUpperHex(r[2]) then
      Some(HexValue(r[1]) * 16 + HexValue(r[2]))
    else None
  }

  /** The bytes of `n` consecutive `%XX` triples at the start of the text, if it has them. */
  function PercentRun(r: string, n: nat): (bytes: Option<seq<nat>>)
    ensures bytes.Some? ==> |bytes.value| == n && 3 * n <= |r| && forall i :: 0 <= i < n ==> bytes.value[i] < 256
    decreases n
  {
    if n == 0 then Some([])
    else match PercentByteAtStart(r)
      case None => None
      case Some(b) =>
        match PercentRun(r[3..], n - 1)
        case None => None
        case Some(rest) => Some([b] + rest)
  }

  /** Reading back `n` triples written by `PercentBytes` gives the bytes. */
  lemma {:induction false} PercentRunOf(bytes: seq<nat>, rest: string)
    requires forall i :: 0 <= i < |bytes| ==> bytes[i] < 256
    ensures PercentRun(PercentBytes(bytes) + rest, |bytes|) == Some(bytes)
  {
    if |bytes| > 0 {
      var b := bytes[0];
      var r := PercentBytes(bytes) + rest;
      assert r == PercentByte(b) + (PercentBytes(bytes[1..]) + rest);
      HexValueOfDigit(b / 16);
      HexValueOfDigit(b % 16);
      assert PercentByteAtStart(r) == Some(b);
      assert r[3..] == PercentBytes(bytes[1..]) + rest;
      PercentRunOf(bytes[1..], rest);
      assert [b] + bytes[1..] == bytes;
    }
  }

  /** The length of a UTF-8 sequence its first byte announces; 0 for a byte that cannot
      start one. */
  function Utf8Length(lead: nat): (n: nat)
    ensures n <= 4
  {
    if lead < 0x80 then 1
    else if 0xC0 <= lead < 0xE0 then 2
    else if 0xE0 <= lead < 0xF0 then 3
    else if 0xF0 <= lead < 0xF8 then 4
    else 0
  }

  predicate IsContinuation(b: nat) { 0x80 <= b < 0xC0 }

  /** The code point of one UTF-8 sequence: the first byte announces the length, the others
      are continuation bytes, and overlong forms and values past U+10FFFF are refused. */
  function DecodeUtf8(bytes: seq<nat>): (r: Option<nat>)
    ensures r.Some? ==> r.value < 0x110000 && |bytes| > 0 && |bytes| == Utf8Length(bytes[0])
  {
    if |bytes| == 0 || Utf8Length(bytes[0]) != |bytes| then None
    else if exists i :: 1 <= i < |bytes| && !IsContinuation(bytes[i]) then None
    else
      var cp :=
        if |bytes| == 1 then bytes[0]
        else if |bytes| == 2 then (bytes[0] - 0xC0) * 64 + (bytes[1] - 0x80)
        else if |bytes| == 3 then (bytes[0] - 0xE0) * 4096 + (bytes[1] - 0x80) * 64 + (bytes[2] - 0x80)
        else (bytes[0] - 0xF0) * 262144 + (bytes[1] - 0x80) * 4096 + (bytes[2] - 0x80) * 64 + (bytes[3] - 0x80);
      var least := if |bytes| == 1 then 0 else if |bytes| == 2 then 0x80 else if |bytes| == 3 then 0x800 else 0x10000;
      if least <= cp < 0x110000 then Some(cp) else None
  }

  /** Decoding the UTF-8 bytes of a code point gives it back. */
  lemma Utf8RoundTrip(cp: nat)
    requires cp < 0x110000
    ensures DecodeUtf8(Utf8(cp)) == Some(cp)
  {
    var q1, r0 := cp / 64, cp % 64;
    var q2, r1 := q1 / 64, q1 % 64;
    var q3, r2 := q2 / 64, q2 % 64;
    assert cp == q1 * 64 + r0 && q1 == q2 * 64 + r1 && q2 == q3 * 64 + r2;
    assert cp / 4096 == q2 by {
      assert cp == q2 * 4096 + (r1 * 64 + r0) && 0 <= r1 * 64 + r0 < 4096;
    }
    assert cp / 262144 == q3 by {
      assert cp == q3 * 262144 + (r2 * 4096 + r1 * 64 + r0) && 0 <= r2 * 4096 + r1 * 64 + r0 < 262144;
    }
  }

  /** A decodable sequence is the UTF-8 encoding of what it decodes to: each code point has
      exactly one encoding. */
  lemma Utf8OfDecoded(bytes: seq<nat>)
    requires DecodeUtf8(bytes).Some?
    ensures Utf8(DecodeUtf8(bytes).value) == bytes
  {
    var cp := DecodeUtf8(bytes).value;
    assert forall i :: 1 <= i < |bytes| ==> IsContinuation(bytes[i]);
    if |bytes| == 2 {
      Split64(bytes[0] - 0xC0, bytes[1] - 0x80);
    } else if |bytes| == 3 {
      var hi, mid, lo := bytes[0] - 0xE0, bytes[1] - 0x80, bytes[2] - 0x80;
      Split64(hi * 64 + mid, lo);
      Split64(hi, mid);
      Split4096(hi, mid * 64 + lo);
    } else if |bytes| == 4 {
      var top, hi, mid, lo := bytes[0] - 0xF0, bytes[1] - 0x80, bytes[2] - 0x80, bytes[3] - 0x80;
      Split64((top * 64 + hi) * 64 + mid, lo);
      Split64(top * 64 + hi, mid);
      Split64(top, hi);
      Split4096(top * 64 + hi, mid * 64 + lo);
      Split262144(top, hi * 4096 + mid * 64 + lo);
    }
  }

  lemma Split64(q: nat, r: nat)
    requires r < 64
    ensures (q * 64 + r) / 64 == q && (q * 64 + r) % 64 == r
  {
  }

  lemma Split4096(q: nat, r: nat)
    requires r < 4096
    ensures (q * 4096 + r) / 4096 == q
  {
  }

  lemma Split262144(q: nat, r: nat)
    requires r < 262144
    ensures (q * 262144 + r) / 262144 == q
  {
  }

  /** A Unicode scalar value: a code point that is not a surrogate. */
  predicate IsScalar(cp: nat) {
    cp < 0xD800 || 0xE000 <= cp < 0x110000
  }

  /** `decodeURIComponent`, for upper-case escapes as the encoder writes them: a character
      other than `%` stands for itself, and a `%XX` run encoding one scalar value in UTF-8
      stands for that character; anything else is a `URIError` (none). */
  function DecodeUriComponent(r: string): (s: Option<string>)
    decreases |r|
  {
    if |r| == 0 then Some("")
    else if r[0] != '%' then
      match DecodeUriComponent(r[1..])
      case None => None
      case Some(rest) => Some([r[0]] + rest)
    else
      match PercentByteAtStart(r)
      case None => None
      case Some(lead) =>
        var n := Utf8Length(lead);
        if n == 0 then None
        else
          match PercentRun(r, n)
          case None => None
          case Some(bytes) =>
            match DecodeUtf8(bytes)
            case None => None
            case Some(cp) =>
              if !IsScalar(cp) then None
              else
                match DecodeUriComponent(r[3 * n..])
                case None => None
                case Some(rest) => Some([cp as char] + rest)
  }

  /** Decoding what `encodeURIComponent` wrote gives the string back. */
  lemma {:induction false} UriRoundTrip(s: string)
    ensures DecodeUriComponent(EncodeUriComponent(s)) == Some(s)
    decreases |s|
  {
    if |s| > 0 {
      var c := s[0];
      var rest := EncodeUriComponent(s[1..]);
      UriRoundTrip(s[1..]);
      assert [c] + s[1..] == s;
      if IsUriUnreserved(c) {
        var r := [c] + rest;
        assert EncodeUriComponent(s) == r;
        assert r[1..] == rest;
      } else {
        var bytes := Utf8(c as int);
        var r := PercentBytes(bytes) + rest;
        assert EncodeUriComponent(s) == r;
        var n := |bytes|;
        Utf8RoundTrip(c as int);
        PercentRunOf(bytes, rest);
        assert PercentRun(r, n) == Some(bytes);
        assert PercentByteAtStart(r) == Some(bytes[0]);
        assert r[3 * n..] == rest;
        assert (c as int) as char == c;
      }
    }
  }
}
