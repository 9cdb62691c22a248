/** Percent-encoding of URL components as Go's net/url does it (section 2.1 of RFC 3986). */
module Percent {
  import opened Options
  import opened Text

  /** The component being written or read; a path is read like user information. The zone of an
      IPv6 literal is written as part of the host and read by rules of its own. */
  datatype Component = Query | UserInfo | Fragment | Host | Zone

  predicate Alnum(c: char) { 'a' <= c <= 'z' || 'A' <= c <= 'Z' || '0' <= c <= '9' }

  predicate Unreserved(c: char) { Alnum(c) || c == '-' || c == '_' || c == '.' || c == '~' }

  /** Reserved characters a component may carry as they are. */
  predicate Carried(c: char, m: Component) {
    match m
    case Query => false
    case UserInfo => c in "$&+,;="
    case Fragment => c in "$&+,/:;=?@!()*"
    case Host => c in "!$&'()*+,;=:[]<>\""
    case Zone => c in "!$&'()*+,;=:[]<>\""
  }

  predicate Kept(c: char, m: Component) { Unreserved(c) || Carried(c, m) }

  function HexDigit(n: nat): char
    requires n < 16
  {
    if n < 10 then ('0' as int + n) as char else ('A' as int + n - 10) as char
  }

  function HexValue(c: char): Option<nat> {
    if '0' <= c <= '9' then Some(c as int - '0' as int)
    else if 'A' <= c <= 'F' then Some(c as int - 'A' as int + 10)
    else if 'a' <= c <= 'f' then Some(c as int - 'a' as int + 10)
    else None
  }

  function EscapeChar(c: char, m: Component): string {
    if Kept(c, m) then [c]
    else if c == ' ' && m.Query? then "+"
    else ['%', HexDigit(c as int / 16 % 16), HexDigit(c as int % 16)]
  }

  function Escape(s: string, m: Component): string {
    if s == [] then "" else EscapeChar(s[0], m) + Escape(s[1..], m)
  }

  /** The byte written as %XY at the start of `s`. */
  function HexByte(s: string): Option<char> {
    if |s| < 3 || s[0] != '%' || HexValue(s[1]).None? || HexValue(s[2]).None? then None
    else Some((HexValue(s[1]).value * 16 + HexValue(s[2]).value) as char)
  }

  /** What may be percent-encoded: in a host only non-ASCII bytes and the percent sign, in a zone
      the percent sign, the space and what need not be encoded. */
  predicate MayDecode(c: char, m: Component) {
    match m
    case Host => c as int >= 0x80 || c == '%'
    case Zone => c == '%' || c == ' ' || Kept(c, Host)
    case _ => true
  }

  /** `url.unescape`; None stands for its errors. */
  function Unescape(s: string, m: Component): Option<string> {
    if s == [] then Some("")
    else if s[0] == '%' then
      (match HexByte(s)
       case None => None
       case Some(c) => if MayDecode(c, m) then Prepend(c, Unescape(s[3..], m)) else None)
    else if s[0] == '+' && m.Query? then Prepend(' ', Unescape(s[1..], m))
    else if (m.Host? || m.Zone?) && s[0] as int < 0x80 && !Kept(s[0], m) then None
    else Prepend(s[0], Unescape(s[1..], m))
  }

  function Prepend(c: char, s: Option<string>): Option<string> {
    if s.None? then None else Some([c] + s.value)
  }

  // ---- round trips ----

  lemma HexTrip(c: char, rest: string)
    requires c as int < 256
    ensures HexByte(['%', HexDigit(c as int / 16 % 16), HexDigit(c as int % 16)] + rest) == Some(c)
  {
    var n := c as int;
    assert n / 16 % 16 == n / 16;
    HexDigitTrip(n / 16);
    HexDigitTrip(n % 16);
  }

  lemma HexDigitTrip(n: nat)
    requires n < 16
    ensures HexValue(HexDigit(n)) == Some(n)
  {
  }

  /** What reading with `r` makes of a character written with `m`. */
  function Reread(c: char, m: Component, r: Component): char {
    if c == '+' && Kept(c, m) && r.Query? then ' ' else c
  }

  /** Text written for `m` may be read by `r`. */
  predicate Reads(m: Component, r: Component) {
    !m.Zone? && (r == m || (m.Fragment? && r.Query?) || (m.Host? && r.Zone?))
  }

  /** A character written for a host is accepted by `r`. */
  predicate Readable(c: char, r: Component) { Kept(c, Host) || MayDecode(c, r) }

  predicate AllReadable(s: string, r: Component) { forall i :: 0 <= i < |s| ==> Readable(s[i], r) }

  /** One written character is read back as one character. */
  lemma CharTrip(c: char, rest: string, m: Component, r: Component)
    requires c as int < 256 && Reads(m, r)
    requires m.Host? ==> Readable(c, r)
    ensures Unescape(EscapeChar(c, m) + rest, r) == Prepend(Reread(c, m, r), Unescape(rest, r))
  {
    var w := EscapeChar(c, m) + rest;
    if Kept(c, m) || (c == ' ' && m.Query?) {
      assert w[1..] == rest;
    } else {
      HexTrip(c, rest);
      assert w == ['%', HexDigit(c as int / 16 % 16), HexDigit(c as int % 16)] + rest;
      assert w[3..] == rest;
    }
  }

  /** And one that is not accepted makes the whole unreadable. */
  lemma CharRefused(c: char, rest: string, r: Component)
    requires c as int < 256 && !Readable(c, r)
    ensures Unescape(EscapeChar(c, Host) + rest, r) == None
  {
    HexTrip(c, rest);
    assert EscapeChar(c, Host) + rest == ['%', HexDigit(c as int / 16 % 16), HexDigit(c as int % 16)] + rest;
  }

  lemma {:induction false} StringRefused(s: string, bad: nat, rest: string, r: Component)
    requires IsBytes(s) && bad < |s| && !Readable(s[bad], r) && Reads(Host, r)
    ensures Unescape(Escape(s, Host) + rest, r) == None
  {
    var tail := Escape(s[1..], Host) + rest;
    assert Escape(s, Host) + rest == EscapeChar(s[0], Host) + tail;
    if Readable(s[0], r) {
      StringRefused(s[1..], bad - 1, rest, r);
      CharTrip(s[0], tail, Host, r);
    } else {
      CharRefused(s[0], tail, r);
    }
  }

  function RereadAll(s: string, m: Component, r: Component): string {
    if s == [] then "" else [Reread(s[0], m, r)] + RereadAll(s[1..], m, r)
  }

  lemma {:induction false} StringTrip(s: string, m: Component, r: Component)
    requires IsBytes(s) && Reads(m, r)
    requires m.Host? ==> AllReadable(s, r)
    ensures Unescape(Escape(s, m), r) == Some(RereadAll(s, m, r))
  {
    if s == [] {
    } else {
      StringTrip(s[1..], m, r);
      CharTrip(s[0], Escape(s[1..], m), m, r);
    }
  }

  /** A plus sign in a fragment comes back as a space. */
  function PlusToSpace(s: string): string {
    seq(|s|, i requires 0 <= i < |s| => if s[i] == '+' then ' ' else s[i])
  }

  lemma {:induction false} RereadSame(s: string, m: Component, r: Component)
    requires r == m || m.Host?
    requires Reads(m, r)
    ensures RereadAll(s, m, r) == s
  {
    if s == [] {
    } else {
      RereadSame(s[1..], m, r);
      assert s == [s[0]] + s[1..];
    }
  }

  lemma {:induction false} RereadFragment(s: string)
    ensures RereadAll(s, Fragment, Query) == PlusToSpace(s)
  {
    if s == [] {
    } else {
      RereadFragment(s[1..]);
      assert PlusToSpace(s) == [PlusToSpace(s)[0]] + PlusToSpace(s)[1..];
      assert PlusToSpace(s)[1..] == PlusToSpace(s[1..]);
    }
  }

  /** Queries and user information read back what was written, whatever bytes it holds. */
  lemma UnescapeEscape(s: string, m: Component)
    requires IsBytes(s) && (m.Query? || m.UserInfo?)
    ensures Unescape(Escape(s, m), m) == Some(s)
  {
    StringTrip(s, m, m);
    RereadSame(s, m, m);
  }

  /** Text written for a host is read back, as a host or a zone, exactly when each of its characters
      is accepted there; otherwise it is refused. */
  lemma HostText(s: string, r: Component)
    requires IsBytes(s) && (r.Host? || r.Zone?)
    ensures Unescape(Escape(s, Host), r) == if AllReadable(s, r) then Some(s) else None
  {
    if bad :| 0 <= bad < |s| && !Readable(s[bad], r) {
      StringRefused(s, bad, "", r);
      assert Escape(s, Host) + "" == Escape(s, Host);
    } else {
      StringTrip(s, Host, r);
      RereadSame(s, Host, r);
    }
  }

  /** A fragment is read with the query's rules. */
  lemma UnescapeFragment(s: string)
    requires IsBytes(s)
    ensures Unescape(Escape(s, Fragment), Query) == Some(PlusToSpace(s))
  {
    StringTrip(s, Fragment, Query);
    RereadFragment(s);
  }

  // ---- what escaped text looks like ----

  /** Characters that occur in escaped text. */
  predicate Written(c: char, m: Component) { Kept(c, m) || c == '%' || (c == '+' && m.Query?) }

  lemma {:induction false} EscapedText(s: string, m: Component)
    ensures forall c :: c in Escape(s, m) ==> Written(c, m)
    ensures s != [] ==> Escape(s, m) != []
  {
    if s == [] {
    } else {
      EscapedText(s[1..], m);
      HexDigitsWritten(s[0], m);
    }
  }

  lemma HexDigitsWritten(c: char, m: Component)
    ensures forall d :: d in EscapeChar(c, m) ==> Written(d, m)
  {
  }

  lemma WrittenIsVisible(c: char, m: Component)
    requires Written(c, m)
    ensures Visible(c) && c != '#'
    ensures m.UserInfo? || m.Query? ==> c != '@' && c != '/' && c != '?' && c != ':'
    ensures m.Query? ==> c != '&' && c != '=' && c != ';'
    ensures m.Host? ==> c != '@' && c != '/' && c != '?'
  {
  }

  lemma {:induction false} EscapeKept(s: string, m: Component)
    requires forall i :: 0 <= i < |s| ==> Kept(s[i], m)
    ensures Escape(s, m) == s
  {
    if s == [] {
    } else {
      EscapeKept(s[1..], m);
      assert s == [s[0]] + s[1..];
    }
  }

  lemma {:induction false} EscapeConcat(a: string, b: string, m: Component)
    ensures Escape(a + b, m) == Escape(a, m) + Escape(b, m)
  {
    if a == [] {
      assert a + b == b;
    } else {
      assert (a + b)[1..] == a[1..] + b;
      EscapeConcat(a[1..], b, m);
    }
  }

  // ---- on the wire ----

  lemma EscapeOne(c: char, m: Component)
    ensures Escape([c], m) == EscapeChar(c, m)
  {
    assert [c][1..] == "";
    assert EscapeChar(c, m) + "" == EscapeChar(c, m);
  }

  /** How some characters are written: what a component keeps, what it encodes, and as what. */
  lemma QuerySpellings()
    ensures Escape(" ", Query) == "+" && Escape("/", Query) == "%2F" && Escape("+", Query) == "%2B"
    ensures Escape("-", Query) == "-" && Escape([255 as char], Query) == "%FF"
  {
    EscapeOne(' ', Query);
    EscapeOne('/', Query);
    EscapeOne('+', Query);
    EscapeOne('-', Query);
    EscapeOne(255 as char, Query);
  }

  lemma UserSpellings()
    ensures Escape(" ", UserInfo) == "%20" && Escape("/", UserInfo) == "%2F"
    ensures Escape("@", UserInfo) == "%40" && Escape(":", UserInfo) == "%3A"
  {
    EscapeOne(' ', UserInfo);
    EscapeOne('/', UserInfo);
    EscapeOne('@', UserInfo);
    EscapeOne(':', UserInfo);
  }

  lemma FragmentSpellings()
    ensures Escape(" ", Fragment) == "%20" && Escape("/", Fragment) == "/"
    ensures Escape("#", Fragment) == "%23" && Escape("+", Fragment) == "+"
  {
    assert EscapeChar(' ', Fragment) == "%20" && EscapeChar('#', Fragment) == "%23";
    EscapeOne(' ', Fragment);
    EscapeOne('/', Fragment);
    EscapeOne('#', Fragment);
    EscapeOne('+', Fragment);
  }

  lemma HostSpellings()
    ensures Escape("%", Host) == "%25" && Escape("[", Host) == "["
  {
    EscapeOne('%', Host);
    EscapeOne('[', Host);
  }

  /** How some of it is read: either case of hexadecimal digits, a plus sign as a space in queries only,
      and only what may be encoded in a host. */
  lemma Readings()
    ensures Unescape("%2F", Query) == Some("/") && Unescape("%2f", Query) == Some("/")
    ensures Unescape("%25", Host) == Some("%") && Unescape("%41", Zone) == Some("A")
  {
    assert HexByte("%2F") == Some('/') && HexByte("%2f") == Some('/') && HexByte("%25") == Some('%');
    assert HexByte("%41") == Some('A');
    ReadOne("%2F", '/', Query);
    ReadOne("%2f", '/', Query);
    ReadOne("%25", '%', Host);
    ReadOne("%41", 'A', Zone);
  }

  lemma PlusReadings()
    ensures Unescape("+", Query) == Some(" ") && Unescape("+", UserInfo) == Some("+")
  {
    assert "+"[1..] == "";
    assert [' '] + "" == " " && ['+'] + "" == "+";
  }

  lemma Refusals()
    ensures Unescape("%41", Host) == None && Unescape("%", Query) == None && Unescape("%4", Query) == None
    ensures Unescape("%zz", Query) == None
  {
    assert HexByte("%41") == Some('A');
    assert HexByte("%zz") == None;
  }

  lemma ReadOne(s: string, c: char, m: Component)
    requires |s| == 3 && HexByte(s) == Some(c) && MayDecode(c, m)
    ensures Unescape(s, m) == Some([c])
  {
    assert s[0] == '%' && s[3..] == "";
    assert [c] + "" == [c];
  }
}
