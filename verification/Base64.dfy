/** Base64 in its standard and URL-safe alphabets, padded and raw (sections 4 and 5 of RFC 4648), as
    Go's encoding/base64 reads and writes it, and the try loop of core/server/links.go. */
module Base64 {
  import opened Options
  import opened Text

  datatype Encoding = Encoding(urlSafe: bool, padded: bool)

  const RAW_STD: Encoding := Encoding(false, false)
  const STD: Encoding := Encoding(false, true)
  const RAW_URL: Encoding := Encoding(true, false)
  const URL: Encoding := Encoding(true, true)

  /** The order in which `decodeBase64` tries them. */
  const TRIED: seq<Encoding> := [RAW_STD, STD, RAW_URL, URL]

  type Sextet = n: int | 0 <= n < 64

  function Symbol(e: Encoding, n: Sextet): char {
    if n < 26 then ('A' as int + n) as char
    else if n < 52 then ('a' as int + n - 26) as char
    else if n < 62 then ('0' as int + n - 52) as char
    else if n == 62 then if e.urlSafe then '-' else '+'
    else if e.urlSafe then '_' else '/'
  }

  function SymbolValue(e: Encoding, c: char): Option<Sextet> {
    if 'A' <= c <= 'Z' then Some(c as int - 'A' as int)
    else if 'a' <= c <= 'z' then Some(c as int - 'a' as int + 26)
    else if '0' <= c <= '9' then Some(c as int - '0' as int + 52)
    else if c == (if e.urlSafe then '-' else '+') then Some(62)
    else if c == (if e.urlSafe then '_' else '/') then Some(63)
    else None
  }

  lemma SymbolTrip(e: Encoding, n: Sextet)
    ensures SymbolValue(e, Symbol(e, n)) == Some(n)
    ensures Visible(Symbol(e, n)) && Symbol(e, n) != '='
  {
  }

  // ---- encoding ----

  function Byte(c: char): int { c as int % 256 }

  /** The four sextets of three bytes. */
  function S0(a: char): Sextet { Byte(a) / 4 }
  function S1(a: char, b: char): Sextet { Byte(a) % 4 * 16 + Byte(b) / 16 }
  function S2(b: char, c: char): Sextet { Byte(b) % 16 * 4 + Byte(c) / 64 }
  function S3(c: char): Sextet { Byte(c) % 64 }

  const NUL: char := '\0'

  function Encode(e: Encoding, s: string): string {
    if s == [] then ""
    else if |s| == 1 then
      [Symbol(e, S0(s[0])), Symbol(e, S1(s[0], NUL))] + (if e.padded then "==" else "")
    else if |s| == 2 then
      [Symbol(e, S0(s[0])), Symbol(e, S1(s[0], s[1])), Symbol(e, S2(s[1], NUL))] + (if e.padded then "=" else "")
    else
      [Symbol(e, S0(s[0])), Symbol(e, S1(s[0], s[1])), Symbol(e, S2(s[1], s[2])), Symbol(e, S3(s[2]))]
      + Encode(e, s[3..])
  }

  // ---- decoding ----

  function ByteChar(n: int): char
    requires 0 <= n < 256
  {
    n as char
  }

  function First(x: Sextet, y: Sextet): char { ByteChar(x * 4 + y / 16) }
  function Second(y: Sextet, z: Sextet): char { ByteChar(y % 16 * 16 + z / 4) }
  function Third(z: Sextet, w: Sextet): char { ByteChar(z % 4 * 64 + w) }

  predicate Valid(e: Encoding, s: string) {
    forall i :: 0 <= i < |s| ==> SymbolValue(e, s[i]).Some?
  }

  /** Without padding the input may end in two or three symbols; with padding it may end in a
      quantum filled up with '='. Surplus bits of the last symbol are ignored. */
  function Decode(e: Encoding, s: string): Option<string> {
    if s == [] then Some("")
    else if |s| >= 4 && Valid(e, s[..4]) then
      var v := Symbols(e, s, 4);
      (match Decode(e, s[4..])
       case None => None
       case Some(rest) => Some([First(v[0], v[1]), Second(v[1], v[2]), Third(v[2], v[3])] + rest))
    else if e.padded then
      if |s| == 4 && Valid(e, s[..2]) && s[2] == s[3] == '=' then
        var v := Symbols(e, s, 2); Some([First(v[0], v[1])])
      else if |s| == 4 && Valid(e, s[..3]) && s[3] == '=' then
        var v := Symbols(e, s, 3); Some([First(v[0], v[1]), Second(v[1], v[2])])
      else None
    else if |s| == 2 && Valid(e, s) then
      var v := Symbols(e, s, 2); Some([First(v[0], v[1])])
    else if |s| == 3 && Valid(e, s) then
      var v := Symbols(e, s, 3); Some([First(v[0], v[1]), Second(v[1], v[2])])
    else None
  }

  function Symbols(e: Encoding, s: string, n: nat): (v: seq<Sextet>)
    requires n <= |s| && Valid(e, s[..n])
    ensures |v| == n
  {
    seq(n, i requires 0 <= i < n => (assert s[i] == s[..n][i]; SymbolValue(e, s[i]).value))
  }

  /** The decoder skips line breaks anywhere. */
  function WithoutBreaks(s: string): string {
    if s == [] then ""
    else (if s[0] == '\n' || s[0] == '\r' then "" else [s[0]]) + WithoutBreaks(s[1..])
  }

  function DecodeString(e: Encoding, s: string): Option<string> { Decode(e, WithoutBreaks(s)) }

  // ---- one encoding reads back itself ----

  lemma FirstTrip(a: char, b: char)
    requires a as int < 256
    ensures First(S0(a), S1(a, b)) == a
  {
  }

  lemma SecondTrip(a: char, b: char, c: char)
    requires b as int < 256
    ensures Second(S1(a, b), S2(b, c)) == b
  {
    LowBits(Byte(a) % 4, Byte(b) / 16);
    HighBits(Byte(b) % 16, Byte(c) / 64);
    assert Byte(b) / 16 * 16 + Byte(b) % 16 == b as int;
  }

  lemma LowBits(p: nat, q: nat)
    requires q < 16
    ensures (p * 16 + q) % 16 == q
  {
  }

  lemma HighBits(p: nat, q: nat)
    requires q < 4
    ensures (p * 4 + q) / 4 == p
  {
  }

  lemma ThirdTrip(b: char, c: char)
    requires c as int < 256
    ensures Third(S2(b, c), S3(c)) == c
  {
  }

  lemma DecodeFour(e: Encoding, x: Sextet, y: Sextet, z: Sextet, w: Sextet, u: string)
    requires Decode(e, u).Some?
    ensures Decode(e, [Symbol(e, x), Symbol(e, y), Symbol(e, z), Symbol(e, w)] + u)
         == Some([First(x, y), Second(y, z), Third(z, w)] + Decode(e, u).value)
  {
    var t := [Symbol(e, x), Symbol(e, y), Symbol(e, z), Symbol(e, w)] + u;
    SymbolTrip(e, x);
    SymbolTrip(e, y);
    SymbolTrip(e, z);
    SymbolTrip(e, w);
    assert t[4..] == u;
    assert Valid(e, t[..4]);
  }

  lemma DecodeThree(e: Encoding, x: Sextet, y: Sextet, z: Sextet)
    ensures Decode(e, [Symbol(e, x), Symbol(e, y), Symbol(e, z)] + (if e.padded then "=" else ""))
         == Some([First(x, y), Second(y, z)])
  {
    var t := [Symbol(e, x), Symbol(e, y), Symbol(e, z)] + (if e.padded then "=" else "");
    SymbolTrip(e, x);
    SymbolTrip(e, y);
    SymbolTrip(e, z);
    assert Valid(e, t[..3]);
    if e.padded {
      assert |t| == 4 && t[..4][3] == '=' && !Valid(e, t[..4]);
    } else {
      assert t[..3] == t;
    }
  }

  lemma DecodeTwo(e: Encoding, x: Sextet, y: Sextet)
    ensures Decode(e, [Symbol(e, x), Symbol(e, y)] + (if e.padded then "==" else "")) == Some([First(x, y)])
  {
    var t := [Symbol(e, x), Symbol(e, y)] + (if e.padded then "==" else "");
    SymbolTrip(e, x);
    SymbolTrip(e, y);
    assert Valid(e, t[..2]);
    if e.padded {
      assert |t| == 4 && t[..4][3] == '=' && !Valid(e, t[..4]);
    } else {
      assert t[..2] == t;
    }
  }

  lemma OneByte(e: Encoding, s: string)
    requires IsBytes(s) && |s| == 1
    ensures Decode(e, Encode(e, s)) == Some(s)
  {
    FirstTrip(s[0], NUL);
    DecodeTwo(e, S0(s[0]), S1(s[0], NUL));
    assert s == [s[0]];
  }

  lemma TwoBytes(e: Encoding, s: string)
    requires IsBytes(s) && |s| == 2
    ensures Decode(e, Encode(e, s)) == Some(s)
  {
    FirstTrip(s[0], s[1]);
    SecondTrip(s[0], s[1], NUL);
    DecodeThree(e, S0(s[0]), S1(s[0], s[1]), S2(s[1], NUL));
    assert s == [s[0], s[1]];
  }

  lemma ThreeBytes(e: Encoding, s: string, rest: string)
    requires IsBytes(s) && |s| >= 3 && rest == Encode(e, s[3..]) && Decode(e, rest) == Some(s[3..])
    ensures Decode(e, Encode(e, s)) == Some(s)
  {
    FirstTrip(s[0], s[1]);
    SecondTrip(s[0], s[1], s[2]);
    ThirdTrip(s[1], s[2]);
    DecodeFour(e, S0(s[0]), S1(s[0], s[1]), S2(s[1], s[2]), S3(s[2]), rest);
    assert s == [s[0], s[1], s[2]] + s[3..];
  }

  lemma {:induction false} DecodeEncode(e: Encoding, s: string)
    requires IsBytes(s)
    ensures Decode(e, Encode(e, s)) == Some(s)
  {
    if |s| == 1 {
      OneByte(e, s);
    } else if |s| == 2 {
      TwoBytes(e, s);
    } else if s != [] {
      DecodeEncode(e, s[3..]);
      ThreeBytes(e, s, Encode(e, s[3..]));
    }
  }

  // ---- two encodings that both accept agree ----

  lemma ValuesAgree(e: Encoding, f: Encoding, c: char)
    ensures SymbolValue(e, c).Some? && SymbolValue(f, c).Some? ==> SymbolValue(e, c) == SymbolValue(f, c)
    ensures SymbolValue(e, '=').None?
  {
  }

  lemma SymbolsAgree(e: Encoding, f: Encoding, s: string, n: nat)
    requires n <= |s| && Valid(e, s[..n]) && Valid(f, s[..n])
    ensures Symbols(e, s, n) == Symbols(f, s, n)
  {
    forall i | 0 <= i < n ensures Symbols(e, s, n)[i] == Symbols(f, s, n)[i] {
      assert s[..n][i] == s[i];
      ValuesAgree(e, f, s[i]);
    }
  }

  /** Whatever two of the four decoders both accept they decode alike. */
  lemma {:induction false} AcceptedAlike(e: Encoding, f: Encoding, s: string)
    requires Decode(e, s).Some? && Decode(f, s).Some?
    ensures Decode(e, s) == Decode(f, s)
    decreases |s|
  {
    if s == [] {
    } else if |s| >= 4 && Valid(e, s[..4]) && Valid(f, s[..4]) {
      SymbolsAgree(e, f, s, 4);
      AcceptedAlike(e, f, s[4..]);
    } else if |s| == 4 {
      PaddedAlike(e, f, s);
    } else if |s| < 4 {
      RawAlike(e, f, s);
    }
  }

  lemma PaddedAlike(e: Encoding, f: Encoding, s: string)
    requires |s| == 4 && !(Valid(e, s[..4]) && Valid(f, s[..4]))
    requires Decode(e, s).Some? && Decode(f, s).Some?
    ensures Decode(e, s) == Decode(f, s)
  {
    LastOfFour(e, s);
    LastOfFour(f, s);
    if s[2] == '=' {
      SymbolsAgree(e, f, s, 2);
    } else {
      SymbolsAgree(e, f, s, 3);
    }
  }

  /** Four characters are four symbols or end in '='. */
  lemma LastOfFour(e: Encoding, s: string)
    requires |s| == 4 && Decode(e, s).Some?
    ensures s[3] == '=' <==> !Valid(e, s[..4])
    ensures s[3] == '=' ==> Valid(e, s[..2]) && (s[2] == '=' <==> !Valid(e, s[..3]))
    ensures s[3] == '=' && s[2] == '=' ==>
      Decode(e, s) == Some([First(Symbols(e, s, 2)[0], Symbols(e, s, 2)[1])])
    ensures s[3] == '=' && s[2] != '=' ==>
      Decode(e, s) == Some([First(Symbols(e, s, 3)[0], Symbols(e, s, 3)[1]),
                            Second(Symbols(e, s, 3)[1], Symbols(e, s, 3)[2])])
  {
    ValuesAgree(e, e, s[3]);
    assert s[..4][3] == s[3];
    if Valid(e, s[..4]) {
      assert SymbolValue(e, s[3]).Some?;
    }
    if Valid(e, s[..3]) {
      assert s[..3][2] == s[2] && SymbolValue(e, s[2]).Some?;
      assert s[..2] == s[..3][..2];
    }
  }

  lemma RawAlike(e: Encoding, f: Encoding, s: string)
    requires 0 < |s| < 4 && Decode(e, s).Some? && Decode(f, s).Some?
    ensures Decode(e, s) == Decode(f, s)
  {
    assert s[..|s|] == s;
    SymbolsAgree(e, f, s, |s|);
  }

  // ---- the try loop ----

  lemma {:induction false} EncodedText(e: Encoding, s: string)
    ensures forall i :: 0 <= i < |Encode(e, s)| ==> Visible(Encode(e, s)[i])
    ensures s != [] ==> Encode(e, s) != []
    decreases |s|
  {
    if |s| < 3 {
    } else {
      EncodedText(e, s[3..]);
    }
  }

  lemma {:induction false} VisibleHasNoBreaks(s: string)
    requires forall i :: 0 <= i < |s| ==> Visible(s[i])
    ensures WithoutBreaks(s) == s
  {
    if s == [] {
    } else {
      VisibleHasNoBreaks(s[1..]);
      assert s == [s[0]] + s[1..];
    }
  }

  /** The first accepted reading, in the order of `es`. */
  function FirstAccepted(es: seq<Encoding>, s: string): Option<string> {
    if es == [] then None
    else if DecodeString(es[0], s).Some? then DecodeString(es[0], s)
    else FirstAccepted(es[1..], s)
  }

  /** `decodeBase64`. */
  function TryDecode(s: string): Option<string> { FirstAccepted(TRIED, Trim(s)) }

  /** The loop over the four encodings. */
  method DecodeBase64(text: string) returns (r: Option<string>)
    ensures r == TryDecode(text)
  {
    var s := Trim(text);
    var i := 0;
    assert TRIED[0..] == TRIED;
    while i < |TRIED|
      invariant 0 <= i <= |TRIED|
      invariant FirstAccepted(TRIED[i..], s) == FirstAccepted(TRIED, s)
    {
      assert TRIED[i..][0] == TRIED[i] && TRIED[i..][1..] == TRIED[i + 1..];
      r := DecodeString(TRIED[i], s);
      if r.Some? {
        return;
      }
      i := i + 1;
    }
    assert TRIED[i..] == [];
    r := None;
  }

  lemma {:induction false} FirstAcceptedAgrees(es: seq<Encoding>, s: string, e: Encoding)
    requires e in es && DecodeString(e, s).Some?
    ensures FirstAccepted(es, s) == DecodeString(e, s)
  {
    if DecodeString(es[0], s).Some? {
      AcceptedAlike(es[0], e, WithoutBreaks(s));
    } else {
      FirstAcceptedAgrees(es[1..], s, e);
    }
  }

  /** Whatever bytes were encoded, in whichever of the four encodings, the try loop gives them back,
      even when an earlier alphabet is the one that accepts. */
  lemma TryDecodesAll(e: Encoding, s: string)
    requires IsBytes(s)
    ensures TryDecode(Encode(e, s)) == Some(s)
  {
    var t := Encode(e, s);
    EncodedText(e, s);
    if t != [] {
      VisibleEndsAreTrimmed(t);
    } else {
      TrimmedIsFixed(t);
    }
    VisibleHasNoBreaks(t);
    DecodeEncode(e, s);
    assert e in TRIED by {
      assert TRIED[0] == RAW_STD && TRIED[1] == STD && TRIED[2] == RAW_URL && TRIED[3] == URL;
    }
    FirstAcceptedAgrees(TRIED, t, e);
  }

  // ---- on the wire ----

  /** The test vectors of section 10 of RFC 4648, and the two characters in which the alphabets differ. */
  lemma Vectors()
    ensures Encode(STD, "") == "" && Encode(STD, "f") == "Zg==" && Encode(STD, "fo") == "Zm8="
    ensures Encode(STD, "foo") == "Zm9v" && Encode(RAW_STD, "f") == "Zg" && Encode(RAW_STD, "fo") == "Zm8"
    ensures Symbol(STD, 62) == '+' && Symbol(STD, 63) == '/' && Symbol(URL, 62) == '-' && Symbol(URL, 63) == '_'
  {
    assert "f"[0] as int == 102 && "fo"[1] as int == 111;
    assert "foo"[3..] == "";
    assert Encode(STD, "foo") == [Symbol(STD, 25), Symbol(STD, 38), Symbol(STD, 61), Symbol(STD, 47)] + "";
    assert Encode(STD, "f") == [Symbol(STD, 25), Symbol(STD, 32)] + "==";
    assert Encode(STD, "fo") == [Symbol(STD, 25), Symbol(STD, 38), Symbol(STD, 60)] + "=";
    assert Encode(RAW_STD, "f") == [Symbol(STD, 25), Symbol(STD, 32)] + "";
    assert Encode(RAW_STD, "fo") == [Symbol(STD, 25), Symbol(STD, 38), Symbol(STD, 60)] + "";
  }
}
