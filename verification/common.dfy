/** Value domains shared by both services: optional values, UUIDs and the
    abstract clock, with the strings Python's `str()` renders them as and the
    parsers that read those strings back. */
module Common {

  datatype Option<+T> = None | Some(value: T)

  /** One hexadecimal digit. */
  type Nibble = n: int | 0 <= n < 16

  /** A 128-bit UUID held as its 32 hexadecimal digits, most significant first. */
  type Uuid = s: seq<Nibble> | |s| == 32 witness seq(32, _ => 0)

  predicate IsHexChar(c: char) {
    '0' <= c <= '9' || 'a' <= c <= 'f' || 'A' <= c <= 'F'
  }

  /** The value of a hex digit; upper and lower case are both accepted. */
  function HexVal(c: char): Nibble
    requires IsHexChar(c)
  {
    if '0' <= c <= '9' then c as int - '0' as int
    else if 'a' <= c <= 'f' then c as int - 'a' as int + 10
    else c as int - 'A' as int + 10
  }

  /** The lowercase digit Python prints for a nibble. */
  function HexChar(n: Nibble): (c: char)
    ensures IsHexChar(c) && c != '-'
    ensures HexVal(c) == n
  {
    "0123456789abcdef"[n]
  }

  function Hex(ns: seq<Nibble>): string {
    seq(|ns|, i requires 0 <= i < |ns| => HexChar(ns[i]))
  }

  lemma HexDigits(ns: seq<Nibble>)
    ensures |Hex(ns)| == |ns|
    ensures forall i :: 0 <= i < |ns| ==> IsHexChar(Hex(ns)[i]) && Hex(ns)[i] != '-' && HexVal(Hex(ns)[i]) == ns[i]
  {
  }

  /** `s` with every hyphen removed: `s.replace('-', '')`. */
  function RemoveDashes(s: string): (r: string)
    ensures |r| <= |s|
    ensures forall i :: 0 <= i < |r| ==> r[i] != '-'
  {
    if |s| == 0 then []
    else if s[0] == '-' then RemoveDashes(s[1..])
    else [s[0]] + RemoveDashes(s[1..])
  }

  /** `s.replace(pat, '')`: occurrences of `pat` are removed left to right,
      without overlap. */
  function RemoveAll(s: string, pat: string): (r: string)
    requires |pat| > 0
    ensures |r| <= |s|
    decreases |s|
  {
    if |s| < |pat| then s
    else if s[..|pat|] == pat then RemoveAll(s[|pat|..], pat)
    else [s[0]] + RemoveAll(s[1..], pat)
  }

  predicate IsBrace(c: char) {
    c == '{' || c == '}'
  }

  /** `s.strip('{}')`: braces are removed from both ends. */
  function StripBraces(s: string): (r: string)
    ensures |r| > 0 ==> !IsBrace(r[0]) && !IsBrace(r[|r| - 1])
    decreases |s|
  {
    if |s| > 0 && IsBrace(s[0]) then StripBraces(s[1..])
    else if |s| > 0 && IsBrace(s[|s| - 1]) then StripBraces(s[..|s| - 1])
    else s
  }

  predicate AllHex(s: string) {
    forall i :: 0 <= i < |s| ==> IsHexChar(s[i])
  }

  /** Exactly 32 hex digits, read most significant first. */
  function ParseHex(h: string): Option<Uuid>
  {
    if |h| == 32 && AllHex(h) then
      Some(seq(32, i requires 0 <= i < 32 => HexVal(h[i])))
    else
      None
  }

  /** Python's `UUID(s)`: every `urn:` and then every `uuid:` is removed,
      braces are stripped from both ends, hyphens are dropped wherever they
      are, and exactly 32 hex digits must remain; anything else is the
      `ValueError` case. */
  function ParseUuid(s: string): Option<Uuid>
  {
    ParseHex(RemoveDashes(StripBraces(RemoveAll(RemoveAll(s, "urn:"), "uuid:"))))
  }

  /** The canonical 36-character layout: hyphens at positions 8, 13, 18 and 23. */
  predicate Hyphenated(s: string) {
    |s| == 36 && s[8] == '-' && s[13] == '-' && s[18] == '-' && s[23] == '-'
  }

  /** The 32 digits of a hyphenated string, its four hyphens left out. */
  function Ungroup(s: string): string
    requires |s| == 36
  {
    s[..8] + s[9..13] + s[14..18] + s[19..23] + s[24..]
  }

  function ParseHyphenated(s: string): Option<Uuid> {
    if Hyphenated(s) then ParseHex(Ungroup(s)) else None
  }

  /** Pydantic's validation of a `UUID` field given a string: 32 hex digits,
      the hyphenated 8-4-4-4-12 form, that form in braces, or that form
      behind `urn:uuid:`; a string of any other shape is a validation error. */
  function ParseUuidField(s: string): Option<Uuid>
  {
    if |s| == 32 then ParseHex(s)
    else if |s| == 36 then ParseHyphenated(s)
    else if |s| == 38 && s[0] == '{' && s[37] == '}' then ParseHyphenated(s[1..37])
    else if |s| == 45 && s[..9] == "urn:uuid:" then ParseHyphenated(s[9..])
    else None
  }

  /** Python's `str(UUID)`: lowercase hex grouped 8-4-4-4-12 by hyphens. */
  function UuidStr(u: Uuid): string {
    Hex(u[..8]) + "-" + Hex(u[8..12]) + "-" + Hex(u[12..16]) + "-" + Hex(u[16..20]) + "-" + Hex(u[20..])
  }

  /** Python's `UUID.version == 4`: the version nibble (the thirteenth
      hex digit) is 4, and the variant is RFC 4122's, the seventeenth hex
      digit being 8 to b; for any other variant `version` is `None`. */
  predicate IsVersion4(u: Uuid) {
    u[12] == 4 && 8 <= u[16] <= 11
  }

  lemma {:induction false} RemoveDashesAppend(a: string, b: string)
    ensures RemoveDashes(a + b) == RemoveDashes(a) + RemoveDashes(b)
    decreases |a|
  {
    if |a| == 0 {
      assert a + b == b;
    } else {
      assert (a + b)[1..] == a[1..] + b;
      RemoveDashesAppend(a[1..], b);
    }
  }

  lemma {:induction false} RemoveDashesNoDash(a: string)
    requires '-' !in a
    ensures RemoveDashes(a) == a
    decreases |a|
  {
    if |a| > 0 {
      assert a == [a[0]] + a[1..];
      RemoveDashesNoDash(a[1..]);
    }
  }

  lemma JoinDash(x: string, y: string)
    ensures RemoveDashes(x + "-" + y) == RemoveDashes(x) + RemoveDashes(y)
  {
    assert RemoveDashes("-") == [];
    RemoveDashesAppend(x, "-");
    RemoveDashesAppend(x + "-", y);
  }

  /** Removing a pattern that ends in a character the string lacks changes nothing. */
  lemma {:induction false} RemoveAllAbsent(s: string, pat: string)
    requires |pat| > 0 && pat[|pat| - 1] !in s
    ensures RemoveAll(s, pat) == s
    decreases |s|
  {
    if |s| >= |pat| {
      assert s[|pat| - 1] in s;
      assert s == [s[0]] + s[1..];
      RemoveAllAbsent(s[1..], pat);
    }
  }

  lemma RemoveAllHead(p: string, h: string, pat: string)
    requires |pat| > 0 && p == pat
    ensures RemoveAll(p + h, pat) == RemoveAll(h, pat)
  {
    assert (p + h)[..|pat|] == p && (p + h)[|pat|..] == h;
  }

  /** No occurrence of `pat` starts at a character other than its first. */
  lemma RemoveAllCons(c: char, h: string, pat: string)
    requires |pat| > 0 && c != pat[0]
    ensures RemoveAll([c] + h, pat) == [c] + RemoveAll(h, pat)
  {
    assert ([c] + h)[1..] == h;
    if |h| + 1 >= |pat| {
      assert ([c] + h)[..|pat|][0] == c;
    }
  }

  /** Nor one whose second character does not match. */
  lemma RemoveAllCons2(c: char, h: string, pat: string)
    requires |pat| > 1 && |h| > 0 && h[0] != pat[1]
    ensures RemoveAll([c] + h, pat) == [c] + RemoveAll(h, pat)
  {
    assert ([c] + h)[1..] == h;
    if |h| + 1 >= |pat| {
      assert ([c] + h)[..|pat|][1] == h[0];
    }
  }

  lemma {:induction false} StripBracesAbsent(s: string)
    requires '{' !in s && '}' !in s
    ensures StripBraces(s) == s
  {
    if |s| > 0 {
      assert s[0] in s && s[|s| - 1] in s;
    }
  }

  lemma AllHexSplit(a: string, b: string)
    requires AllHex(a + b)
    ensures AllHex(a) && AllHex(b)
  {
    forall i | 0 <= i < |a|
      ensures IsHexChar(a[i])
    {
      assert (a + b)[i] == a[i];
    }
    forall i | 0 <= i < |b|
      ensures IsHexChar(b[i])
    {
      assert (a + b)[|a| + i] == b[i];
    }
  }

  lemma AllHexChars(s: string)
    requires AllHex(s)
    ensures '-' !in s && ':' !in s && '{' !in s && '}' !in s
  {
  }

  /** A hyphenated string whose other 32 characters are hex digits has no
      colon or brace, and dropping its hyphens is ungrouping it. */
  lemma HyphenatedDigits(s: string)
    requires Hyphenated(s) && AllHex(Ungroup(s))
    ensures ':' !in s && '{' !in s && '}' !in s
    ensures RemoveDashes(s) == Ungroup(s)
  {
    var g1, g2, g3, g4, g5 := s[..8], s[9..13], s[14..18], s[19..23], s[24..];
    assert s == g1 + "-" + g2 + "-" + g3 + "-" + g4 + "-" + g5;
    AllHexSplit(g1 + g2 + g3 + g4, g5);
    AllHexSplit(g1 + g2 + g3, g4);
    AllHexSplit(g1 + g2, g3);
    AllHexSplit(g1, g2);
    AllHexChars(g1);
    AllHexChars(g2);
    AllHexChars(g3);
    AllHexChars(g4);
    AllHexChars(g5);
    RemoveDashesNoDash(g1);
    RemoveDashesNoDash(g2);
    RemoveDashesNoDash(g3);
    RemoveDashesNoDash(g4);
    RemoveDashesNoDash(g5);
    JoinDash(g1, g2);
    JoinDash(g1 + "-" + g2, g3);
    JoinDash(g1 + "-" + g2 + "-" + g3, g4);
    JoinDash(g1 + "-" + g2 + "-" + g3 + "-" + g4, g5);
  }

  /** `UUID(s)` on a hyphenated string reads the ungrouped digits. */
  lemma HyphenatedAgrees(s: string)
    requires ParseHyphenated(s).Some?
    ensures ParseUuid(s) == ParseHyphenated(s)
  {
    HyphenatedDigits(s);
    RemoveAllAbsent(s, "urn:");
    RemoveAllAbsent(s, "uuid:");
    StripBracesAbsent(s);
  }

  lemma SimpleAgrees(s: string)
    requires ParseHex(s).Some?
    ensures ParseUuid(s) == ParseHex(s)
  {
    AllHexChars(s);
    RemoveAllAbsent(s, "urn:");
    RemoveAllAbsent(s, "uuid:");
    StripBracesAbsent(s);
    RemoveDashesNoDash(s);
  }

  lemma BracedAgrees(h: string)
    requires ParseHyphenated(h).Some?
    ensures ParseUuid(['{'] + h + ['}']) == ParseHyphenated(h)
  {
    var s := ['{'] + h + ['}'];
    HyphenatedDigits(h);
    assert s[|s| - 1] == '}';
    assert ':' !in s;
    RemoveAllAbsent(s, "urn:");
    RemoveAllAbsent(s, "uuid:");
    var t := s[1..];
    assert t == h + ['}'] && t[0] == h[0] && h[0] in h;
    assert StripBraces(s) == StripBraces(t);
    assert t[..|t| - 1] == h;
    assert StripBraces(t) == StripBraces(h);
    StripBracesAbsent(h);
    HyphenatedAgrees(h);
  }

  /** `replace('urn:', '')` takes just the leading `urn:` off `urn:uuid:…`. */
  lemma UrnRemoved(h: string)
    requires ':' !in h
    ensures RemoveAll("urn:uuid:" + h, "urn:") == "uuid:" + h
  {
    assert "urn:uuid:" + h == "urn:" + ("uuid:" + h);
    RemoveAllHead("urn:", "uuid:" + h, "urn:");
    UuidKept(h);
  }

  lemma UuidKept(h: string)
    requires ':' !in h
    ensures RemoveAll("uuid:" + h, "urn:") == "uuid:" + h
  {
    var t4 := [':'] + h;
    var t3 := ['d'] + t4;
    var t2 := ['i'] + t3;
    var t1 := ['u'] + t2;
    var t0 := ['u'] + t1;
    RemoveAllAbsent(h, "urn:");
    RemoveAllCons(':', h, "urn:");
    RemoveAllCons('d', t4, "urn:");
    RemoveAllCons('i', t3, "urn:");
    RemoveAllCons2('u', t2, "urn:");
    RemoveAllCons2('u', t1, "urn:");
    assert t0 == "uuid:" + h;
  }

  /** The `urn:uuid:` prefix is what the two `replace` calls of `UUID()`
      take away. */
  lemma UrnPrefix(h: string)
    requires ':' !in h
    ensures RemoveAll(RemoveAll("urn:uuid:" + h, "urn:"), "uuid:") == h
  {
    UrnRemoved(h);
    RemoveAllHead("uuid:", h, "uuid:");
    RemoveAllAbsent(h, "uuid:");
  }

  lemma UrnAgrees(h: string)
    requires ParseHyphenated(h).Some?
    ensures ParseUuid("urn:uuid:" + h) == ParseHyphenated(h)
  {
    HyphenatedDigits(h);
    UrnPrefix(h);
    HyphenatedAgrees(h);
  }

  /** Every string pydantic accepts as a `UUID` field, Python's `UUID()`
      accepts too and reads as the same UUID; the converse fails (see
      `MisplacedHyphen`). */
  lemma ParseUuidFieldAgrees(s: string)
    requires ParseUuidField(s).Some?
    ensures ParseUuid(s) == ParseUuidField(s)
  {
    if |s| == 32 {
      SimpleAgrees(s);
    } else if |s| == 36 {
      HyphenatedAgrees(s);
    } else if |s| == 38 {
      assert s == ['{'] + s[1..37] + ['}'];
      BracedAgrees(s[1..37]);
    } else {
      assert s == "urn:uuid:" + s[9..];
      UrnAgrees(s[9..]);
    }
  }

  lemma ParseHexHex(u: Uuid)
    ensures ParseHex(Hex(u)) == Some(u)
  {
    HexDigits(u);
    assert seq(32, i requires 0 <= i < 32 => HexVal(Hex(u)[i])) == u;
  }

  /** Python's `UUID()` takes a hyphen anywhere, here after the first
      digit; pydantic's `UUID` field rejects that layout. */
  lemma MisplacedHyphen(u: Uuid)
    ensures var s := Hex(u[..1]) + "-" + Hex(u[1..]);
      ParseUuid(s) == Some(u) && ParseUuidField(s) == None
  {
    var a, b := Hex(u[..1]), Hex(u[1..]);
    HexDigits(u[..1]);
    HexDigits(u[1..]);
    DashJoinParses(a, b);
    HexAppend(u[..1], u[1..]);
    assert u[..1] + u[1..] == u;
    ParseHexHex(u);
  }

  /** Hex digits joined by one hyphen parse as the digits alone. */
  lemma DashJoinParses(a: string, b: string)
    requires AllHex(a) && AllHex(b)
    ensures ParseUuid(a + "-" + b) == ParseHex(a + b)
  {
    var s := a + "-" + b;
    AllHexChars(a);
    AllHexChars(b);
    assert ':' !in s && '{' !in s && '}' !in s;
    RemoveAllAbsent(s, "urn:");
    RemoveAllAbsent(s, "uuid:");
    StripBracesAbsent(s);
    JoinDash(a, b);
    RemoveDashesNoDash(a);
    RemoveDashesNoDash(b);
  }

  /** `UUID()` also takes the braced and URN forms of a UUID. */
  lemma UrnAndBracesAccepted(u: Uuid)
    ensures ParseUuid("urn:uuid:" + UuidStr(u)) == Some(u)
    ensures ParseUuid("{" + UuidStr(u) + "}") == Some(u)
  {
    ParseUuidStr(u);
    UrnAgrees(UuidStr(u));
    BracedAgrees(UuidStr(u));
  }

  lemma HexAppend(a: seq<Nibble>, b: seq<Nibble>)
    ensures Hex(a + b) == Hex(a) + Hex(b)
  {
  }

  lemma HexGroups(u: Uuid)
    ensures Hex(u[..8]) + Hex(u[8..12]) + Hex(u[12..16]) + Hex(u[16..20]) + Hex(u[20..]) == Hex(u)
  {
    HexAppend(u[..8], u[8..12]);
    HexAppend(u[..8] + u[8..12], u[12..16]);
    HexAppend(u[..8] + u[8..12] + u[12..16], u[16..20]);
    HexAppend(u[..8] + u[8..12] + u[12..16] + u[16..20], u[20..]);
    assert u == u[..8] + u[8..12] + u[12..16] + u[16..20] + u[20..];
  }

  /** `str(UUID)` is in the hyphenated layout, and its digits are the UUID's. */
  lemma UuidStrLayout(u: Uuid)
    ensures Hyphenated(UuidStr(u)) && Ungroup(UuidStr(u)) == Hex(u)
  {
    var a, b, c, d, e := Hex(u[..8]), Hex(u[8..12]), Hex(u[12..16]), Hex(u[16..20]), Hex(u[20..]);
    var s := UuidStr(u);
    assert s == a + "-" + b + "-" + c + "-" + d + "-" + e;
    assert s[..8] == a && s[9..13] == b && s[14..18] == c && s[19..23] == d && s[24..] == e;
    HexGroups(u);
  }

  /** Reading back what `str(UUID)` printed gives the same UUID, both through
      a pydantic `UUID` field and through Python's `UUID()`. */
  lemma ParseUuidStr(u: Uuid)
    ensures ParseUuidField(UuidStr(u)) == Some(u)
    ensures ParseUuid(UuidStr(u)) == Some(u)
  {
    UuidStrLayout(u);
    ParseHexHex(u);
    HyphenatedAgrees(UuidStr(u));
  }

  /** Two different UUIDs never print the same; document keys derived by `str(id)` never collide. */
  lemma UuidStrInjective(u: Uuid, v: Uuid)
    requires UuidStr(u) == UuidStr(v)
    ensures u == v
  {
    ParseUuidStr(u);
    ParseUuidStr(v);
  }

  /** The abstract clock, in whole seconds. */
  type Time = nat

  predicate IsDigit(c: char) {
    '0' <= c <= '9'
  }

  predicate AllDigits(s: string) {
    forall i :: 0 <= i < |s| ==> IsDigit(s[i])
  }

  function DigitChar(d: nat): (c: char)
    requires d < 10
    ensures IsDigit(c) && c as int - '0' as int == d
  {
    "0123456789"[d]
  }

  function DigitsValue(s: string): nat
    requires AllDigits(s)
  {
    if |s| == 0 then 0 else DigitsValue(s[..|s| - 1]) * 10 + (s[|s| - 1] as int - '0' as int)
  }

  /** The decimal rendering the model uses for `str(datetime)`; it reads back to the same instant. */
  function TimeStr(t: Time): (s: string)
    ensures |s| >= 1 && AllDigits(s)
    ensures DigitsValue(s) == t
  {
    if t < 10 then [DigitChar(t)]
    else
      var prefix := TimeStr(t / 10);
      var s := prefix + [DigitChar(t % 10)];
      assert s[..|s| - 1] == prefix;
      s
  }

  /** The parse pydantic applies to a timestamp string; non-numeric text is a validation error. */
  function ParseTime(s: string): Option<Time>
  {
    if |s| >= 1 && AllDigits(s) then Some(DigitsValue(s)) else None
  }

  lemma ParseTimeStr(t: Time)
    ensures ParseTime(TimeStr(t)) == Some(t)
  {
  }
}
