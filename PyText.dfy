/** The Python string operations the pipeline relies on: `str.isspace`,
    `str.strip`, `str.splitlines`, `str.split("\n")`, `sep.join`, `str.lower`
    (ASCII letters) and the decimal rendering of an index inside an f-string. */
module PyText {

  /** Python's `str.isspace` for one character, by code point. */
  predicate IsSpace(c: char)
  {
    var n := c as int;
    n == 32 || (9 <= n <= 13) || (28 <= n <= 31) || n == 0x85 || n == 0xA0 || n == 0x1680
    || (0x2000 <= n <= 0x200A) || n == 0x2028 || n == 0x2029 || n == 0x202F || n == 0x205F || n == 0x3000
  }

  /** The characters at which `str.splitlines` ends a line (each is also whitespace). */
  predicate IsLineBoundary(c: char)
  {
    var n := c as int;
    (10 <= n <= 13) || (28 <= n <= 30) || n == 0x85 || n == 0x2028 || n == 0x2029
  }

  predicate AllSpace(s: string)
  {
    forall i :: 0 <= i < |s| ==> IsSpace(s[i])
  }

  predicate NoOuterSpace(s: string)
  {
    s == [] || (!IsSpace(s[0]) && !IsSpace(s[|s| - 1]))
  }

  predicate NoLineBoundary(s: string)
  {
    forall i :: 0 <= i < |s| ==> !IsLineBoundary(s[i])
  }

  predicate NoNewline(s: string)
  {
    forall i :: 0 <= i < |s| ==> s[i] != '\n'
  }

  predicate StartsWith(s: string, prefix: string)
  {
    |prefix| <= |s| && s[..|prefix|] == prefix
  }

  /** Number of leading whitespace characters. */
  function LeadCount(s: string): (n: nat)
    ensures n <= |s|
    ensures forall i :: 0 <= i < n ==> IsSpace(s[i])
    ensures n < |s| ==> !IsSpace(s[n])
  {
    if s == [] || !IsSpace(s[0]) then 0 else LeadCount(s[1..]) + 1
  }

  /** Number of trailing whitespace characters. */
  function TrailCount(s: string): (n: nat)
    ensures n <= |s|
    ensures forall i :: |s| - n <= i < |s| ==> IsSpace(s[i])
    ensures n < |s| ==> !IsSpace(s[|s| - n - 1])
  {
    if s == [] || !IsSpace(s[|s| - 1]) then 0 else TrailCount(s[..|s| - 1]) + 1
  }

  /** Python's `s.strip()`: the run of `s` left after dropping whitespace at both ends. */
  function Strip(s: string): (r: string)
    ensures NoOuterSpace(r)
    ensures LeadCount(s) + |r| <= |s| && r == s[LeadCount(s)..LeadCount(s) + |r|]
    ensures AllSpace(s[..LeadCount(s)]) && AllSpace(s[LeadCount(s) + |r|..])
  {
    var i := LeadCount(s);
    var t := s[i..];
    var r := t[..|t| - TrailCount(t)];
    assert r == s[i..i + |r|];
    assert r != [] ==> r[0] == s[i];
    r
  }

  /** Strip is the only way to cut `s` into whitespace, a core without outer
      whitespace, and whitespace. */
  lemma StripUnique(s: string, i: nat, r: string)
    requires i + |r| <= |s| && s[i..i + |r|] == r
    requires AllSpace(s[..i]) && AllSpace(s[i + |r|..])
    requires NoOuterSpace(r)
    ensures Strip(s) == r
  {
    var j := LeadCount(s);
    var q := Strip(s);
    var e := i + |r|;
    assert forall k :: 0 <= k < i ==> IsSpace(s[k]) by {
      forall k | 0 <= k < i ensures IsSpace(s[k]) { assert s[k] == s[..i][k]; }
    }
    assert forall k :: e <= k < |s| ==> IsSpace(s[k]) by {
      forall k | e <= k < |s| ensures IsSpace(s[k]) { assert s[k] == s[e..][k - e]; }
    }
    assert forall k :: j + |q| <= k < |s| ==> IsSpace(s[k]) by {
      forall k | j + |q| <= k < |s| ensures IsSpace(s[k]) { assert s[k] == s[j + |q|..][k - j - |q|]; }
    }
    if r == [] {
      assert q == [];
    } else {
      assert s[i] == r[0] && s[e - 1] == r[|r| - 1];
      assert j == i;
      assert q != [] ==> q[|q| - 1] == s[j + |q| - 1];
      assert j + |q| == e;
    }
  }

  lemma StripIdentity(s: string)
    requires NoOuterSpace(s)
    ensures Strip(s) == s
  {
    StripUnique(s, 0, s);
  }

  /** Stripping text that starts with a non-space character only trims its end. */
  lemma StripKeepsStart(s: string)
    requires s != [] && !IsSpace(s[0])
    ensures |Strip(s)| <= |s| && Strip(s) == s[..|Strip(s)|]
    ensures AllSpace(s[|Strip(s)|..])
  {
  }

  /** Without leading whitespace, Strip only drops the trailing run. */
  lemma StripNoLead(s: string)
    requires s == [] || !IsSpace(s[0])
    ensures Strip(s) == s[..|s| - TrailCount(s)]
  {
    assert LeadCount(s) == 0;
    assert s[0..] == s;
  }

  /** Python's `"sep".join(parts)`. */
  function Join(parts: seq<string>, sep: string): (r: string)
  {
    if parts == [] then ""
    else if |parts| == 1 then parts[0]
    else parts[0] + sep + Join(parts[1..], sep)
  }

  /** Text made of `lines`, each followed by "\n". */
  function Unlines(lines: seq<string>): (r: string)
  {
    if lines == [] then "" else lines[0] + "\n" + Unlines(lines[1..])
  }

  lemma {:induction false} UnlinesAppend(a: seq<string>, b: seq<string>)
    ensures Unlines(a + b) == Unlines(a) + Unlines(b)
    decreases |a|
  {
    if a != [] {
      assert (a + b)[1..] == a[1..] + b;
      UnlinesAppend(a[1..], b);
    } else {
      assert a + b == b;
    }
  }

  /** Concatenation of a list of strings (Python's `"".join`). */
  function Concat(parts: seq<string>): (r: string)
  {
    if parts == [] then "" else parts[0] + Concat(parts[1..])
  }

  lemma {:induction false} ConcatAppend(a: seq<string>, b: seq<string>)
    ensures Concat(a + b) == Concat(a) + Concat(b)
    decreases |a|
  {
    if a != [] {
      assert (a + b)[1..] == a[1..] + b;
      ConcatAppend(a[1..], b);
    } else {
      assert a + b == b;
    }
  }

  /** Index of the first '\n' in `s`, or |s|. */
  function NewlineIndex(s: string): (i: nat)
    ensures i <= |s|
    ensures i < |s| ==> s[i] == '\n'
    ensures NoNewline(s[..i])
  {
    if s == [] then 0
    else if s[0] == '\n' then 0
    else
      var k := NewlineIndex(s[1..]);
      assert s[..k + 1] == [s[0]] + s[1..][..k];
      k + 1
  }

  /** Python's `s.split("\n")`: always at least one piece. */
  function SplitNewline(s: string): (r: seq<string>)
    ensures |r| >= 1
    ensures forall k :: 0 <= k < |r| ==> NoNewline(r[k])
    decreases |s|
  {
    var i := NewlineIndex(s);
    if i == |s| then [s] else [s[..i]] + SplitNewline(s[i + 1..])
  }

  lemma NewlineIndexOf(a: string, b: string)
    requires NoNewline(a)
    ensures NewlineIndex(a + "\n" + b) == |a|
  {
    var s := a + "\n" + b;
    var i := NewlineIndex(s);
    assert s[|a|] == '\n';
  }

  /** Splitting at "\n" undoes Unlines when no line holds a "\n"; the final
      newline leaves one empty piece, as in Python. */
  lemma {:induction false} SplitNewlineUnlines(lines: seq<string>)
    requires forall k :: 0 <= k < |lines| ==> NoNewline(lines[k])
    ensures SplitNewline(Unlines(lines)) == lines + [""]
    decreases |lines|
  {
    if lines == [] {
      assert NewlineIndex("") == 0;
    } else {
      var rest := Unlines(lines[1..]);
      assert Unlines(lines) == lines[0] + "\n" + rest;
      NewlineIndexOf(lines[0], rest);
      var s := lines[0] + "\n" + rest;
      assert s[..|lines[0]|] == lines[0];
      assert s[|lines[0]| + 1..] == rest;
      assert SplitNewline(s) == [lines[0]] + SplitNewline(rest);
      SplitNewlineUnlines(lines[1..]);
      assert lines == [lines[0]] + lines[1..];
    }
  }

  /** Splitting at "\n" undoes joining with "\n" when no piece holds a "\n". */
  lemma {:induction false} SplitNewlineJoin(parts: seq<string>)
    requires |parts| >= 1
    requires forall k :: 0 <= k < |parts| ==> NoNewline(parts[k])
    ensures SplitNewline(Join(parts, "\n")) == parts
    decreases |parts|
  {
    if |parts| == 1 {
      assert NewlineIndex(parts[0]) == |parts[0]|;
    } else {
      var rest := Join(parts[1..], "\n");
      NewlineIndexOf(parts[0], rest);
      var s := parts[0] + "\n" + rest;
      assert s[..|parts[0]|] == parts[0];
      assert s[|parts[0]| + 1..] == rest;
      SplitNewlineJoin(parts[1..]);
      assert parts == [parts[0]] + parts[1..];
    }
  }

  /** Index of the first line boundary in `s`, or |s|. */
  function BoundaryIndex(s: string): (i: nat)
    ensures i <= |s|
    ensures i < |s| ==> IsLineBoundary(s[i])
    ensures NoLineBoundary(s[..i])
  {
    if s == [] then 0
    else if IsLineBoundary(s[0]) then 0
    else
      var k := BoundaryIndex(s[1..]);
      assert s[..k + 1] == [s[0]] + s[1..][..k];
      k + 1
  }

  /** Python's `s.splitlines()`: "\r\n" ends one line, a final line break adds no
      empty line, and the empty string has no lines. */
  function SplitLines(s: string): (r: seq<string>)
    ensures forall k :: 0 <= k < |r| ==> NoLineBoundary(r[k])
    decreases |s|
  {
    if s == [] then []
    else
      var i := BoundaryIndex(s);
      if i == |s| then [s]
      else
        var next := if s[i] == '\r' && i + 1 < |s| && s[i + 1] == '\n' then i + 2 else i + 1;
        [s[..i]] + SplitLines(s[next..])
  }

  lemma BoundaryIndexOf(a: string, b: string)
    requires NoLineBoundary(a)
    ensures BoundaryIndex(a + "\n" + b) == |a|
  {
    var s := a + "\n" + b;
    var i := BoundaryIndex(s);
    assert s[|a|] == '\n';
  }

  /** `splitlines` undoes joining with "\n" when every piece is non-empty and
      holds no line boundary. */
  lemma {:induction false} SplitLinesJoin(parts: seq<string>)
    requires forall k :: 0 <= k < |parts| ==> parts[k] != [] && NoLineBoundary(parts[k])
    ensures SplitLines(Join(parts, "\n")) == parts
    decreases |parts|
  {
    if |parts| == 0 {
    } else if |parts| == 1 {
      assert BoundaryIndex(parts[0]) == |parts[0]|;
    } else {
      var rest := Join(parts[1..], "\n");
      BoundaryIndexOf(parts[0], rest);
      var s := parts[0] + "\n" + rest;
      assert s[|parts[0]|] == '\n';
      assert s[..|parts[0]|] == parts[0];
      assert s[|parts[0]| + 1..] == rest;
      assert rest != [] by { assert rest[..|parts[1]|] == parts[1] by { JoinStartsWith(parts[1..], "\n"); } }
      SplitLinesJoin(parts[1..]);
      assert parts == [parts[0]] + parts[1..];
    }
  }

  lemma {:induction false} JoinStartsWith(parts: seq<string>, sep: string)
    requires |parts| >= 1
    ensures |parts[0]| <= |Join(parts, sep)| && Join(parts, sep)[..|parts[0]|] == parts[0]
  {
  }

  /** The stripped, non-blank lines, in order: the list comprehension
      `[l.strip() for l in lines if l.strip()]`. */
  function CleanLines(lines: seq<string>): (r: seq<string>)
    ensures |r| <= |lines|
    ensures forall k :: 0 <= k < |r| ==> r[k] != [] && NoOuterSpace(r[k])
  {
    if lines == [] then []
    else (if Strip(lines[0]) != [] then [Strip(lines[0])] else []) + CleanLines(lines[1..])
  }

  /** Python's `str.lower` on ASCII letters (other characters unchanged). */
  function LowerChar(c: char): (r: char)
  {
    if 'A' <= c <= 'Z' then (c as int + 32) as char else c
  }

  function Lower(s: string): (r: string)
    ensures |r| == |s|
    ensures forall i :: 0 <= i < |s| ==> r[i] == LowerChar(s[i])
    ensures forall i :: 0 <= i < |r| ==> !('A' <= r[i] <= 'Z')
  {
    seq(|s|, i requires 0 <= i < |s| => LowerChar(s[i]))
  }

  function DigitChar(d: nat): (c: char)
    requires d < 10
    ensures '0' <= c <= '9' && c as int - '0' as int == d
  {
    ('0' as int + d) as char
  }

  predicate AllDigits(s: string)
  {
    forall i :: 0 <= i < |s| ==> '0' <= s[i] <= '9'
  }

  /** The decimal text of `n`, as an f-string renders an int. */
  function NatToString(n: nat): (r: string)
    ensures |r| >= 1 && AllDigits(r)
    decreases n
  {
    if n < 10 then [DigitChar(n)] else NatToString(n / 10) + [DigitChar(n % 10)]
  }

  /** The value of a string of decimal digits. */
  function DigitsValue(s: string): (v: nat)
    requires AllDigits(s)
  {
    if s == [] then 0 else DigitsValue(s[..|s| - 1]) * 10 + (s[|s| - 1] as int - '0' as int)
  }

  lemma {:induction false} NatToStringRoundTrip(n: nat)
    ensures DigitsValue(NatToString(n)) == n
    decreases n
  {
    if n >= 10 {
      var s := NatToString(n);
      assert s[..|s| - 1] == NatToString(n / 10);
      NatToStringRoundTrip(n / 10);
    } else {
      assert NatToString(n)[..0] == [];
    }
  }

  /** Different numbers render differently, so numbered headers never collide. */
  lemma NatToStringInjective(a: nat, b: nat)
    requires NatToString(a) == NatToString(b)
    ensures a == b
  {
    NatToStringRoundTrip(a);
    NatToStringRoundTrip(b);
  }
}
