/** String helpers the views rely on: `trim()`, decimal rendering of counts, `join`. */
module Text {

  /** The whitespace `String.prototype.trim` strips, restricted to ASCII. */
  predicate IsSpace(c: char) {
    c == ' ' || c == '\t' || c == '\n' || c == '\r' || c == '\U{B}' || c == '\U{C}'
  }

  predicate IsBlank(s: string) {
    forall i :: 0 <= i < |s| ==> IsSpace(s[i])
  }

  function TrimStart(s: string): (r: string)
    ensures |r| <= |s| && r == s[|s| - |r|..]
    ensures IsBlank(s[..|s| - |r|])
    ensures r != [] ==> !IsSpace(r[0])
  {
    if s == [] || !IsSpace(s[0]) then s
    else
      var r := TrimStart(s[1..]);
      assert s[1..][..|s| - 1 - |r|] == s[1..|s| - |r|];
      r
  }

  function TrimEnd(s: string): (r: string)
    ensures |r| <= |s| && r == s[..|r|]
    ensures IsBlank(s[|r|..])
    ensures r != [] ==> !IsSpace(r[|r| - 1])
  {
    if s == [] || !IsSpace(s[|s| - 1]) then s
    else TrimEnd(s[..|s| - 1])
  }

  /** `s.trim()`: `s` without leading and trailing whitespace. */
  function Trim(s: string): (r: string)
    ensures r == [] <==> IsBlank(s)
    ensures r != [] ==> !IsSpace(r[0]) && !IsSpace(r[|r| - 1])
    ensures |r| <= |s|
  {
    var t := TrimStart(s);
    var r := TrimEnd(t);
    TrimmedSlice(s, t, r);
    r
  }

  /**
   * What `trim()` keeps: the slice of the text between its leading and its
   * trailing whitespace. With the ends of the result not being whitespace,
   * this determines the result.
   */
  lemma TrimIsSlice(s: string)
    ensures exists k :: (0 <= k <= |s| - |Trim(s)| && Trim(s) == s[k..k + |Trim(s)|] &&
      IsBlank(s[..k]) && IsBlank(s[k + |Trim(s)|..]))
  {
    var t := TrimStart(s);
    var r := TrimEnd(t);
    var k := |s| - |t|;
    assert Trim(s) == r;
    TrimmedSlice(s, t, r);
    assert k + |r| <= |s|;
    assert r == s[k..k + |r|];
    assert IsBlank(s[..k]);
    assert IsBlank(s[k + |r|..]);
  }

  /** Trimming the start and then the end leaves a slice with blank text on either side. */
  lemma TrimmedSlice(s: string, t: string, r: string)
    requires |t| <= |s| && t == s[|s| - |t|..] && IsBlank(s[..|s| - |t|])
    requires |r| <= |t| && r == t[..|r|] && IsBlank(t[|r|..])
    requires t != [] ==> !IsSpace(t[0])
    ensures var k := |s| - |t|;
      k + |r| <= |s| && r == s[k..k + |r|] && IsBlank(s[..k]) && IsBlank(s[k + |r|..])
    ensures r == [] <==> IsBlank(s)
  {
    var k := |s| - |t|;
    assert s[k + |r|..] == t[|r|..];
    if r != [] {
      assert s[k] == r[0];
    } else {
      assert s[..k] == s;
    }
  }

  function DigitChar(d: nat): (c: char)
    requires d < 10
    ensures '0' <= c <= '9' && c as int - '0' as int == d
  {
    ['0', '1', '2', '3', '4', '5', '6', '7', '8', '9'][d]
  }

  predicate IsDigits(s: string) {
    forall i :: 0 <= i < |s| ==> '0' <= s[i] <= '9'
  }

  /** The number a string of decimal digits denotes, most significant digit first. */
  function DecimalValue(s: string): nat
    requires IsDigits(s)
  {
    if s == [] then 0 else DecimalValue(s[..|s| - 1]) * 10 + (s[|s| - 1] as int - '0' as int)
  }

  /** The decimal text JavaScript writes for a non-negative integer in a template string. */
  function NatToString(n: nat): (s: string)
    ensures |s| >= 1 && IsDigits(s)
    ensures DecimalValue(s) == n
    ensures s[0] == '0' ==> s == "0"
  {
    if n < 10 then [DigitChar(n)]
    else
      var prefix := NatToString(n / 10);
      var s := prefix + [DigitChar(n % 10)];
      assert s[..|s| - 1] == prefix;
      s
  }

  /** `parts.join(sep)`. */
  function Join(parts: seq<string>, sep: string): (s: string)
    ensures parts == [] ==> s == []
    ensures |parts| == 1 ==> s == parts[0]
    ensures parts != [] ==> |s| >= |parts[0]| && s[..|parts[0]|] == parts[0]
  {
    if parts == [] then ""
    else if |parts| == 1 then parts[0]
    else parts[0] + sep + Join(parts[1..], sep)
  }

  /** Where part `i` starts in the joined text: the earlier parts, each followed by the separator. */
  function JoinOffset(parts: seq<string>, sep: string, i: nat): nat
    requires i < |parts|
  {
    if i == 0 then 0 else |parts[0]| + |sep| + JoinOffset(parts[1..], sep, i - 1)
  }

  predicate InfixAt(t: string, s: string, k: nat) {
    k + |t| <= |s| && s[k..k + |t|] == t
  }

  /** Part `i` of a joined text stands at its offset. */
  lemma {:induction false} JoinPartAt(parts: seq<string>, sep: string, i: nat)
    requires i < |parts|
    ensures InfixAt(parts[i], Join(parts, sep), JoinOffset(parts, sep, i))
  {
    if i > 0 {
      var rest := parts[1..];
      JoinPartAt(rest, sep, i - 1);
      var h := |parts[0]| + |sep|;
      var s := Join(parts, sep);
      assert s == parts[0] + sep + Join(rest, sep);
      assert s[h..] == Join(rest, sep);
      assert parts[i] == rest[i - 1];
    }
  }

  /** Each part but the last is followed by the separator, and the next part starts right after it. */
  lemma {:induction false} JoinSepAt(parts: seq<string>, sep: string, i: nat)
    requires i + 1 < |parts|
    ensures JoinOffset(parts, sep, i + 1) == JoinOffset(parts, sep, i) + |parts[i]| + |sep|
    ensures InfixAt(sep, Join(parts, sep), JoinOffset(parts, sep, i) + |parts[i]|)
  {
    var rest := parts[1..];
    var h := |parts[0]| + |sep|;
    var s := Join(parts, sep);
    assert s == parts[0] + sep + Join(rest, sep);
    if i > 0 {
      JoinSepAt(rest, sep, i - 1);
      assert s[h..] == Join(rest, sep);
      assert parts[i] == rest[i - 1];
    }
  }

  /** The joined text ends with its last part. */
  lemma {:induction false} JoinLength(parts: seq<string>, sep: string)
    requires parts != []
    ensures |Join(parts, sep)| == JoinOffset(parts, sep, |parts| - 1) + |parts[|parts| - 1]|
  {
    if |parts| > 1 {
      JoinLength(parts[1..], sep);
      assert parts[|parts| - 1] == parts[1..][|parts| - 2];
    }
  }

  /** Part `i` of a joined text at its offset, the separator and the next part after it, the last part at the end. */
  lemma JoinAround(parts: seq<string>, sep: string, i: nat, t: string)
    requires i < |parts| && t == Join(parts, sep)
    ensures InfixAt(parts[i], t, JoinOffset(parts, sep, i))
    ensures i + 1 < |parts| ==>
      JoinOffset(parts, sep, i + 1) == JoinOffset(parts, sep, i) + |parts[i]| + |sep| &&
      InfixAt(sep, t, JoinOffset(parts, sep, i) + |parts[i]|)
    ensures |t| == JoinOffset(parts, sep, |parts| - 1) + |parts[|parts| - 1]|
  {
    JoinPartAt(parts, sep, i);
    if i + 1 < |parts| {
      JoinSepAt(parts, sep, i);
    }
    JoinLength(parts, sep);
  }
}
