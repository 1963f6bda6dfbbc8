/** pkg/service/operator/PGClient.go: escaping credentials for the connection string. */
module Escaping {
  import opened Strings

  function ReplaceAll(s: string, c: char, with: string): string {
    if s == "" then "" else (if s[0] == c then with else [s[0]]) + ReplaceAll(s[1..], c, with)
  }

  /** The five passes of urlQueryEscape, in order. */
  function Passes(s: string): string {
    var r := ReplaceAll(s, '@', "%40");
    var r := ReplaceAll(r, ':', "%3A");
    var r := ReplaceAll(r, '/', "%2F");
    var r := ReplaceAll(r, '?', "%3F");
    ReplaceAll(r, '#', "%23")
  }

  function EscapeChar(c: char): string {
    match c
    case '@' => "%40"
    case ':' => "%3A"
    case '/' => "%2F"
    case '?' => "%3F"
    case '#' => "%23"
    case _ => [c]
  }

  /** One simultaneous pass. */
  function Escape(s: string): string {
    if s == "" then "" else EscapeChar(s[0]) + Escape(s[1..])
  }

  lemma {:induction false} ReplaceAllAppend(s: string, t: string, c: char, with: string)
    ensures ReplaceAll(s + t, c, with) == ReplaceAll(s, c, with) + ReplaceAll(t, c, with)
  {
    if s == "" {
      assert s + t == t;
    } else {
      ReplaceAllAppend(s[1..], t, c, with);
      var head := if s[0] == c then with else [s[0]];
      assert (s + t)[0] == s[0] && (s + t)[1..] == s[1..] + t;
      Regroup(head, ReplaceAll(s[1..], c, with), ReplaceAll(t, c, with));
    }
  }

  lemma Regroup(a: string, b: string, c: string)
    ensures a + (b + c) == (a + b) + c
  {
  }

  lemma PassesAppend(s: string, t: string)
    ensures Passes(s + t) == Passes(s) + Passes(t)
  {
    ReplaceAllAppend(s, t, '@', "%40");
    var s1, t1 := ReplaceAll(s, '@', "%40"), ReplaceAll(t, '@', "%40");
    ReplaceAllAppend(s1, t1, ':', "%3A");
    var s2, t2 := ReplaceAll(s1, ':', "%3A"), ReplaceAll(t1, ':', "%3A");
    ReplaceAllAppend(s2, t2, '/', "%2F");
    var s3, t3 := ReplaceAll(s2, '/', "%2F"), ReplaceAll(t2, '/', "%2F");
    ReplaceAllAppend(s3, t3, '?', "%3F");
    var s4, t4 := ReplaceAll(s3, '?', "%3F"), ReplaceAll(t3, '?', "%3F");
    ReplaceAllAppend(s4, t4, '#', "%23");
  }

  lemma {:induction false} ReplaceAllAbsent(s: string, c: char, with: string)
    requires c !in s
    ensures ReplaceAll(s, c, with) == s
  {
    if s != "" {
      assert s == [s[0]] + s[1..];
      ReplaceAllAbsent(s[1..], c, with);
    }
  }

  lemma PassesOne(c: char)
    ensures Passes([c]) == EscapeChar(c)
  {
    var e := EscapeChar(c);
    assert forall d :: d in "%40" || d in "%3A" || d in "%2F" || d in "%3F" || d in "%23" ==>
      d != '@' && d != ':' && d != '/' && d != '?' && d != '#';
    var r := [c];
    ReplaceOne(c, '@', "%40");
    r := ReplaceAll(r, '@', "%40");
    if c == '@' { ReplaceAllAbsent(r, ':', "%3A"); } else { ReplaceOne(c, ':', "%3A"); }
    r := ReplaceAll(r, ':', "%3A");
    if c == '@' || c == ':' { ReplaceAllAbsent(r, '/', "%2F"); } else { ReplaceOne(c, '/', "%2F"); }
    r := ReplaceAll(r, '/', "%2F");
    if c == '@' || c == ':' || c == '/' { ReplaceAllAbsent(r, '?', "%3F"); } else { ReplaceOne(c, '?', "%3F"); }
    r := ReplaceAll(r, '?', "%3F");
    if c == '@' || c == ':' || c == '/' || c == '?' {
      ReplaceAllAbsent(r, '#', "%23");
    } else {
      ReplaceOne(c, '#', "%23");
    }
  }

  lemma ReplaceOne(d: char, c: char, with: string)
    ensures ReplaceAll([d], c, with) == if d == c then with else [d]
  {
    assert [d][1..] == "";
  }

  /** No pass touches what an earlier one wrote: sequential replacement is simultaneous replacement. */
  lemma {:induction false} PassesAreSimultaneous(s: string)
    ensures Passes(s) == Escape(s)
  {
    if s != "" {
      assert s == [s[0]] + s[1..];
      PassesAppend([s[0]], s[1..]);
      PassesOne(s[0]);
      PassesAreSimultaneous(s[1..]);
    }
  }

  method UrlQueryEscape(s: string) returns (r: string)
    ensures r == Escape(s)
  {
    r := s;
    r := ReplaceAll(r, '@', "%40");
    r := ReplaceAll(r, ':', "%3A");
    r := ReplaceAll(r, '/', "%2F");
    r := ReplaceAll(r, '?', "%3F");
    r := ReplaceAll(r, '#', "%23");
    PassesAreSimultaneous(s);
  }

  predicate IsDelimiter(c: char) {
    c == '@' || c == ':' || c == '/' || c == '?' || c == '#'
  }

  /** The output cannot be cut at a delimiter of the connection string. */
  lemma {:induction false} EscapeHasNoDelimiter(s: string, i: nat)
    requires i < |Escape(s)|
    ensures !IsDelimiter(Escape(s)[i])
  {
    var e := EscapeChar(s[0]);
    if i >= |e| {
      EscapeHasNoDelimiter(s[1..], i - |e|);
    }
  }

  /** Nothing else is touched. */
  lemma {:induction false} EscapeKeepsOthers(s: string)
    requires forall i :: 0 <= i < |s| ==> !IsDelimiter(s[i])
    ensures Escape(s) == s
  {
    if s != "" {
      EscapeKeepsOthers(s[1..]);
      assert s == [s[0]] + s[1..];
    }
  }

  // ----- Percent-decoding, section 2.1 of RFC 3986 -----

  predicate IsHex(c: char) {
    '0' <= c <= '9' || 'A' <= c <= 'F' || 'a' <= c <= 'f'
  }

  function HexValue(c: char): (n: nat)
    requires IsHex(c)
    ensures n < 16
  {
    if c <= '9' then c as int - '0' as int
    else if c <= 'F' then 10 + (c as int - 'A' as int)
    else 10 + (c as int - 'a' as int)
  }

  /** None when a percent sign is not followed by two hexadecimal digits. */
  function Decode(s: string): Option<string> {
    if s == "" then Some("")
    else if s[0] != '%' then
      match Decode(s[1..])
      case None => None
      case Some(t) => Some([s[0]] + t)
    else if |s| >= 3 && IsHex(s[1]) && IsHex(s[2]) then
      match Decode(s[3..])
      case None => None
      case Some(t) => Some([(16 * HexValue(s[1]) + HexValue(s[2])) as char] + t)
    else None
  }

  lemma DecodeEscaped(c: char, rest: string)
    requires c != '%'
    ensures Decode(EscapeChar(c) + rest) == match Decode(rest) case None => None case Some(t) => Some([c] + t)
  {
    var e := EscapeChar(c);
    assert (e + rest)[|e|..] == rest;
  }

  /** Decoding what holds a bare percent sign fails or comes out shorter. */
  lemma {:induction false} DecodeShrinks(s: string)
    ensures Decode(Escape(s)).Some? ==> |Decode(Escape(s)).value| <= |s|
    ensures Decode(Escape(s)).Some? && '%' in s ==> |Decode(Escape(s)).value| < |s|
    decreases |s|
  {
    if s != "" {
      assert s == [s[0]] + s[1..];
      if s[0] != '%' {
        DecodeEscaped(s[0], Escape(s[1..]));
        DecodeShrinks(s[1..]);
      } else {
        var e := Escape(s);
        assert e[1..] == Escape(s[1..]);
        if |e| >= 3 && IsHex(e[1]) && IsHex(e[2]) {
          TwoPlainDigits(s[1..]);
          DecodeShrinks(s[3..]);
          assert e[3..] == Escape(s[3..]);
        }
      }
    }
  }

  lemma PlainDigitFirst(t: string)
    requires Escape(t) != "" && IsHex(Escape(t)[0])
    ensures t != "" && Escape(t) == [t[0]] + Escape(t[1..])
  {
    EscapedOrPlain(t[0]);
  }

  lemma EscapedOrPlain(c: char)
    ensures EscapeChar(c) == [c] || (|EscapeChar(c)| == 3 && EscapeChar(c)[0] == '%')
  {
  }

  lemma TwoPlainDigits(t: string)
    requires |Escape(t)| >= 2 && IsHex(Escape(t)[0]) && IsHex(Escape(t)[1])
    ensures |t| >= 2 && Escape(t) == t[..2] + Escape(t[2..])
  {
    PlainDigitFirst(t);
    var u := t[1..];
    assert Escape(t)[1..] == Escape(u);
    PlainDigitFirst(u);
    var rest := Escape(u[1..]);
    assert u[1..] == t[2..];
    assert Escape(t) == [t[0]] + ([u[0]] + rest) == [t[0], u[0]] + rest;
    assert t[..2] == [t[0], u[0]];
  }

  lemma {:induction false} DecodeRecovers(s: string)
    requires '%' !in s
    ensures Decode(Escape(s)) == Some(s)
  {
    if s != "" {
      assert s == [s[0]] + s[1..];
      DecodeEscaped(s[0], Escape(s[1..]));
      DecodeRecovers(s[1..]);
    }
  }

  /** The database is given the credentials that were meant exactly when they hold no percent sign. */
  lemma {:induction false} EscapeRoundTrip(s: string)
    ensures Decode(Escape(s)) == Some(s) <==> '%' !in s
  {
    if '%' in s {
      DecodeShrinks(s);
    } else {
      DecodeRecovers(s);
    }
  }
}
