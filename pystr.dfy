/** Models of the Python text built-ins the generators rely on: `str.strip()`,
    `str.lower()`, `str.title()`, `str.join`, `str.split(sep)`, slicing with
    an integer bound `xs[:n]`, and `str(n)` of a non-negative integer.
    `lower` and `title` are modelled on ASCII letters only. */
module PyStr {

  function Min(a: int, b: int): int { if a <= b then a else b }
  function Max(a: int, b: int): int { if a >= b then a else b }

  // ---------------------------------------------------------------------
  // Substrings

  /** `t` occurs in `s` starting at index `i`. */
  predicate OccursAt(t: string, s: string, i: int) {
    0 <= i && i + |t| <= |s| && s[i..i + |t|] == t
  }

  /** Python's `t in s` for strings. */
  ghost predicate Contains(s: string, t: string) {
    exists i :: OccursAt(t, s, i)
  }

  /** Python's `s.startswith(p)`. */
  predicate StartsWith(s: string, p: string) {
    |p| <= |s| && s[..|p|] == p
  }

  /** Python's `s.endswith(p)`. */
  predicate EndsWith(s: string, p: string) {
    |p| <= |s| && s[|s| - |p|..] == p
  }

  /** An occurrence inside `b` is still an occurrence once text is put around `b`. */
  lemma OccursShift(t: string, a: string, b: string, c: string, i: int)
    requires OccursAt(t, b, i)
    ensures OccursAt(t, a + b + c, |a| + i)
  {
  }

  lemma ContainsMiddle(a: string, t: string, c: string)
    ensures Contains(a + t + c, t)
  {
    assert OccursAt(t, t, 0);
    OccursShift(t, a, t, c, 0);
  }

  /** Python's `in` is transitive: a substring of a substring is a substring. */
  lemma ContainsTrans(s: string, t: string, u: string)
    requires Contains(s, t) && Contains(t, u)
    ensures Contains(s, u)
  {
    var i :| OccursAt(t, s, i);
    var j :| OccursAt(u, t, j);
    forall k | 0 <= k < |u|
      ensures s[i + j + k] == u[k]
    {
      assert s[i..i + |t|][j + k] == s[i + j + k];
      assert t[j..j + |u|][k] == t[j + k];
    }
    assert s[i + j..i + j + |u|] == u;
    assert OccursAt(u, s, i + j);
  }

  /** The substring facts about a text laid out as `a + b + c + (d + e + f)`. */
  lemma Layout(a: string, b: string, c: string, d: string, e: string, f: string)
    ensures StartsWith(a + b + c + (d + e + f), a + b + c)
    ensures Contains(a + b + c + (d + e + f), b)
    ensures Contains(a + b + c + (d + e + f), e)
  {
    var s := a + b + c + (d + e + f);
    assert s[..|a + b + c|] == a + b + c;
    ContainsMiddle(a, b, c + (d + e + f));
    assert a + b + (c + (d + e + f)) == s;
    ContainsMiddle(a + b + c + d, e, f);
    assert a + b + c + d + e + f == s;
  }

  /** The substring facts about a text laid out as `a + b + c + d + e`. */
  lemma Pieces(a: string, b: string, c: string, d: string, e: string)
    ensures StartsWith(a + b + c + d + e, a)
    ensures Contains(a + b + c + d + e, b)
    ensures Contains(a + b + c + d + e, c)
    ensures Contains(a + b + c + d + e, d)
  {
    var s := a + b + c + d + e;
    assert s[..|a|] == a;
    ContainsMiddle(a, b, c + d + e);
    assert a + b + (c + d + e) == s;
    ContainsMiddle(a + b, c, d + e);
    assert a + b + c + (d + e) == s;
    ContainsMiddle(a + b + c, d, e);
  }

  /** A positive multiple of a positive number is at least that number. */
  lemma MulAtLeast(m: int, k: int)
    requires m > 0 && k >= 1
    ensures m * k >= m
  {
  }

  /** Indices `i` and `i + m` fall in the same residue class modulo `m`. */
  lemma ModPeriod(i: int, m: int)
    requires m > 0
    ensures (i + m) % m == i % m
  {
    var x := i + m;
    var d := x / m - (i / m + 1);
    assert x == m * (x / m) + x % m;
    assert i == m * (i / m) + i % m;
    assert m * d == m * (x / m) - m * (i / m + 1);
    assert m * d == i % m - x % m;
    if d >= 1 {
      MulAtLeast(m, d);
    } else if d <= -1 {
      assert m * (-d) == -(m * d);
      MulAtLeast(m, -d);
    }
  }

  // ---------------------------------------------------------------------
  // str.strip()

  /** Python's `str.isspace()` for one character: the ASCII whitespace and
      information separators plus the Unicode space characters. */
  predicate IsSpace(c: char) {
    c == ' ' || ('\t' <= c <= '\r') || ('\U{1C}' <= c <= '\U{1F}')
    || c == '\U{85}' || c == '\U{A0}' || c == '\U{1680}'
    || ('\U{2000}' <= c <= '\U{200A}') || c == '\U{2028}' || c == '\U{2029}'
    || c == '\U{202F}' || c == '\U{205F}' || c == '\U{3000}'
  }

  predicate AllSpace(s: string) {
    forall i :: 0 <= i < |s| ==> IsSpace(s[i])
  }

  /** No whitespace at either end: what `strip()` returns. */
  predicate IsStripped(s: string) {
    |s| == 0 || (!IsSpace(s[0]) && !IsSpace(s[|s| - 1]))
  }

  /** `str.lstrip()`. */
  function StripStart(s: string): (r: string)
    ensures |r| <= |s|
    decreases |s|
  {
    if |s| > 0 && IsSpace(s[0]) then StripStart(s[1..]) else s
  }

  /** `lstrip()` drops a whitespace prefix and nothing else. */
  lemma {:induction false} StripStartFacts(s: string)
    ensures var r := StripStart(s);
      r == s[|s| - |r|..] && AllSpace(s[..|s| - |r|]) && (|r| > 0 ==> !IsSpace(r[0]))
    decreases |s|
  {
    if |s| > 0 && IsSpace(s[0]) {
      var r := StripStart(s[1..]);
      StripStartFacts(s[1..]);
      assert s[1..][..|s| - 1 - |r|] == s[1..|s| - |r|];
    }
  }

  /** `str.rstrip()`. */
  function StripEnd(s: string): (r: string)
    ensures |r| <= |s|
    decreases |s|
  {
    if |s| > 0 && IsSpace(s[|s| - 1]) then StripEnd(s[..|s| - 1]) else s
  }

  /** `rstrip()` drops a whitespace suffix and nothing else. */
  lemma {:induction false} StripEndFacts(s: string)
    ensures var r := StripEnd(s);
      r == s[..|r|] && AllSpace(s[|r|..]) && (|r| > 0 ==> !IsSpace(r[|r| - 1]))
    decreases |s|
  {
    if |s| > 0 && IsSpace(s[|s| - 1]) {
      var r := StripEnd(s[..|s| - 1]);
      StripEndFacts(s[..|s| - 1]);
      assert s[..|s| - 1][|r|..] == s[|r|..|s| - 1];
    }
  }

  /** `str.strip()`. */
  function Strip(s: string): (r: string)
    ensures IsStripped(r)
    ensures |r| <= |s|
  {
    StripStartFacts(s);
    StripEndFacts(StripStart(s));
    var t := StripStart(s);
    var r := StripEnd(t);
    if r == "" then r
    else
      assert r[0] == t[0];
      r
  }

  /** `strip()` gives "" exactly for blank text, and leaves stripped text as it is. */
  lemma StripFacts(s: string)
    ensures Strip(s) == "" <==> AllSpace(s)
    ensures IsStripped(s) ==> Strip(s) == s
  {
    StripStartFacts(s);
    var t := StripStart(s);
    StripEndFacts(t);
    var r := StripEnd(t);
    if r == "" {
      assert t[|r|..] == t;
      assert |t| == 0;
      assert s[..|s| - |t|] == s;
    }
    if |t| > 0 {
      assert t[0] == s[|s| - |t|];
    }
    if IsStripped(s) && |s| > 0 {
      assert s[0] == s[..1][0];
    }
  }

  /** A whitespace prefix is all `lstrip()` removes before a non-space character. */
  lemma {:induction false} StripStartSpaces(a: string, y: string)
    requires AllSpace(a) && (|y| > 0 ==> !IsSpace(y[0]))
    ensures StripStart(a + y) == y
    decreases |a|
  {
    if |a| == 0 {
      assert a + y == y;
    } else {
      assert (a + y)[0] == a[0];
      assert (a + y)[1..] == a[1..] + y;
      StripStartSpaces(a[1..], y);
    }
  }

  /** A whitespace suffix is all `rstrip()` removes after a non-space character. */
  lemma {:induction false} StripEndSpaces(y: string, b: string)
    requires AllSpace(b) && (|y| > 0 ==> !IsSpace(y[|y| - 1]))
    ensures StripEnd(y + b) == y
    decreases |b|
  {
    if |b| == 0 {
      assert y + b == y;
    } else {
      assert (y + b)[|y + b| - 1] == b[|b| - 1];
      assert (y + b)[..|y + b| - 1] == y + b[..|b| - 1];
      StripEndSpaces(y, b[..|b| - 1]);
    }
  }

  /** Whitespace around stripped, non-empty text is exactly what `strip()` removes. */
  lemma StripPadded(a: string, x: string, b: string)
    requires AllSpace(a) && AllSpace(b) && x != "" && IsStripped(x)
    ensures Strip(a + x + b) == x
  {
    assert (x + b)[0] == x[0];
    StripStartSpaces(a, x + b);
    assert a + x + b == a + (x + b);
    StripEndSpaces(x, b);
  }

  /** `strip()` removes whitespace from the two ends and keeps the middle verbatim. */
  lemma StripIsInfix(s: string)
    ensures exists i :: OccursAt(Strip(s), s, i) && AllSpace(s[..i]) && AllSpace(s[i + |Strip(s)|..])
  {
    StripStartFacts(s);
    StripEndFacts(StripStart(s));
    var t := StripStart(s);
    var r := StripEnd(t);
    var i := |s| - |t|;
    assert r == Strip(s);
    assert s[i..i + |r|] == t[..|r|];
    assert s[i + |r|..] == t[|r|..];
    assert OccursAt(r, s, i);
  }

  // ---------------------------------------------------------------------
  // str.lower(), str.title() on ASCII letters

  predicate IsUpperAscii(c: char) { 'A' <= c <= 'Z' }
  predicate IsLowerAscii(c: char) { 'a' <= c <= 'z' }
  predicate IsLetterAscii(c: char) { IsUpperAscii(c) || IsLowerAscii(c) }

  function LowerChar(c: char): char {
    if IsUpperAscii(c) then (c as int + 32) as char else c
  }

  function UpperChar(c: char): char {
    if IsLowerAscii(c) then (c as int - 32) as char else c
  }

  /** `str.lower()`: same length, each letter lowered, nothing else touched. */
  function Lower(s: string): (r: string)
    ensures |r| == |s|
    ensures forall i :: 0 <= i < |s| ==> r[i] == LowerChar(s[i])
  {
    seq(|s|, i requires 0 <= i < |s| => LowerChar(s[i]))
  }

  /** `str.title()` continued after a character that was (or was not) cased:
      a letter is upper-cased at the start of a word and lower-cased inside one. */
  function TitleFrom(s: string, afterCased: bool): (r: string)
    ensures |r| == |s|
    decreases |s|
  {
    if |s| == 0 then ""
    else
      var c := s[0];
      var d := if !IsLetterAscii(c) then c else if afterCased then LowerChar(c) else UpperChar(c);
      [d] + TitleFrom(s[1..], IsLetterAscii(c))
  }

  /** `str.title()`. */
  function Title(s: string): (r: string)
    ensures |r| == |s|
  {
    TitleFrom(s, false)
  }

  // ---------------------------------------------------------------------
  // str.join

  /** `sep.join(parts)`: "" for no parts, otherwise a text that opens with
      the first part. */
  function Join(parts: seq<string>, sep: string): (r: string)
    ensures |parts| == 0 ==> r == ""
    ensures |parts| > 0 ==> StartsWith(r, parts[0])
    decreases |parts|
  {
    if |parts| == 0 then ""
    else if |parts| == 1 then parts[0]
    else
      var r := parts[0] + sep + Join(parts[1..], sep);
      assert r[..|parts[0]|] == parts[0];
      r
  }

  /** Where part `k` sits in the joined text. */
  lemma {:induction false} JoinOccurs(parts: seq<string>, sep: string, k: int) returns (i: int)
    requires 0 <= k < |parts|
    ensures OccursAt(parts[k], Join(parts, sep), i)
    decreases |parts|
  {
    if k == 0 {
      i := 0;
    } else {
      var rest := Join(parts[1..], sep);
      var j := JoinOccurs(parts[1..], sep, k - 1);
      assert parts[1..][k - 1] == parts[k];
      OccursShift(parts[k], parts[0] + sep, rest, "", j);
      assert parts[0] + sep + rest + "" == Join(parts, sep);
      i := |parts[0] + sep| + j;
    }
  }

  /** Every joined part appears verbatim in the joined text. */
  lemma JoinContains(parts: seq<string>, sep: string, k: int)
    requires 0 <= k < |parts|
    ensures Contains(Join(parts, sep), parts[k])
  {
    var i := JoinOccurs(parts, sep, k);
  }

  lemma JoinContainsAll(parts: seq<string>, sep: string)
    ensures forall k :: 0 <= k < |parts| ==> Contains(Join(parts, sep), parts[k])
  {
    forall k | 0 <= k < |parts|
      ensures Contains(Join(parts, sep), parts[k])
    {
      JoinContains(parts, sep, k);
    }
  }

  // ---------------------------------------------------------------------
  // str.split(sep)

  /** Python's `s.split(sep)` for a non-empty `sep`, with `cur` the part of
      the current segment already scanned: the leftmost occurrence of `sep`
      ends a segment and scanning resumes after it. */
  function SplitAcc(s: string, sep: string, cur: string): (parts: seq<string>)
    requires |sep| > 0
    ensures |parts| >= 1
    decreases |s|
  {
    if |s| < |sep| then [cur + s]
    else if s[..|sep|] == sep then [cur] + SplitAcc(s[|sep|..], sep, "")
    else SplitAcc(s[1..], sep, cur + [s[0]])
  }

  /** `s.split(sep)`. */
  function Split(s: string, sep: string): (parts: seq<string>)
    requires |sep| > 0
    ensures |parts| >= 1
  {
    SplitAcc(s, sep, "")
  }

  /** No occurrence of `sep` starts inside `seg` when `seg` is followed by `next`. */
  predicate NoSepWithin(seg: string, next: string, sep: string) {
    forall i :: 0 <= i < |seg| ==> !OccursAt(sep, seg + next, i)
  }

  lemma {:induction false} SplitAccJoin(s: string, sep: string, cur: string)
    requires |sep| > 0
    ensures Join(SplitAcc(s, sep, cur), sep) == cur + s
    decreases |s|
  {
    if |s| < |sep| {
    } else if s[..|sep|] == sep {
      var rest := SplitAcc(s[|sep|..], sep, "");
      SplitAccJoin(s[|sep|..], sep, "");
      assert ([cur] + rest)[1..] == rest;
      assert s == sep + s[|sep|..];
    } else {
      SplitAccJoin(s[1..], sep, cur + [s[0]]);
      assert s == [s[0]] + s[1..];
    }
  }

  lemma {:induction false} SplitAccLeftmost(s: string, sep: string, cur: string)
    requires |sep| > 0
    requires NoSepWithin(cur, s, sep)
    ensures var parts := SplitAcc(s, sep, cur);
      (forall k :: 0 <= k < |parts| - 1 ==> NoSepWithin(parts[k], sep, sep))
      && NoSepWithin(parts[|parts| - 1], "", sep)
    decreases |s|
  {
    var parts := SplitAcc(s, sep, cur);
    if |s| < |sep| {
      assert cur + s + "" == cur + s;
    } else if s[..|sep|] == sep {
      var rest := SplitAcc(s[|sep|..], sep, "");
      SplitAccLeftmost(s[|sep|..], sep, "");
      assert parts == [cur] + rest;
      forall i | 0 <= i < |cur|
        ensures !OccursAt(sep, cur + sep, i)
      {
        assert !OccursAt(sep, cur + s, i);
        assert (cur + s)[i..i + |sep|] == (cur + sep)[i..i + |sep|] by {
          forall j | i <= j < i + |sep| ensures (cur + s)[j] == (cur + sep)[j] {
            if j >= |cur| {
              assert s[..|sep|][j - |cur|] == s[j - |cur|];
            }
          }
        }
      }
      forall k | 1 <= k < |parts| - 1
        ensures NoSepWithin(parts[k], sep, sep)
      {
        assert parts[k] == rest[k - 1];
      }
      assert parts[|parts| - 1] == rest[|rest| - 1];
    } else {
      var cur' := cur + [s[0]];
      assert cur' + s[1..] == cur + s;
      forall i | 0 <= i < |cur'|
        ensures !OccursAt(sep, cur' + s[1..], i)
      {
        if i == |cur| {
          assert (cur + s)[|cur|..|cur| + |sep|] == s[..|sep|];
        }
      }
      SplitAccLeftmost(s[1..], sep, cur');
    }
  }

  /** `split` is the inverse of `join` on the same separator, and it cuts at
      the leftmost occurrence every time: no occurrence of `sep` begins inside
      a segment, so in particular no segment contains `sep`. */
  lemma SplitCharacterization(s: string, sep: string)
    requires |sep| > 0
    ensures Join(Split(s, sep), sep) == s
    ensures forall k :: 0 <= k < |Split(s, sep)| - 1 ==> NoSepWithin(Split(s, sep)[k], sep, sep)
    ensures NoSepWithin(Split(s, sep)[|Split(s, sep)| - 1], "", sep)
  {
    SplitAccJoin(s, sep, "");
    SplitAccLeftmost(s, sep, "");
  }

  /** An occurrence starting inside `x` ends before `x + sep` does, so what
      follows `x + sep` cannot create one. */
  lemma NoSepExtend(x: string, sep: string, y: string)
    requires NoSepWithin(x, sep, sep)
    ensures NoSepWithin(x, sep + y, sep)
  {
    forall i | 0 <= i < |x|
      ensures !OccursAt(sep, x + (sep + y), i)
    {
      assert !OccursAt(sep, x + sep, i);
      assert (x + (sep + y))[i..i + |sep|] == (x + sep)[i..i + |sep|] by {
        forall j | i <= j < i + |sep| ensures (x + (sep + y))[j] == (x + sep)[j] {
          if j >= |x| {
            assert (sep + y)[j - |x|] == sep[j - |x|];
          }
        }
      }
    }
  }

  lemma {:induction false} SplitAccSkip(x: string, sep: string, y: string, cur: string)
    requires |sep| > 0
    requires NoSepWithin(x, sep + y, sep)
    ensures SplitAcc(x + (sep + y), sep, cur) == [cur + x] + SplitAcc(y, sep, "")
    decreases |x|
  {
    var s := x + (sep + y);
    if |x| == 0 {
      assert cur + x == cur;
      assert s == sep + y;
      assert s[..|sep|] == sep;
      assert s[|sep|..] == y;
    } else {
      assert !OccursAt(sep, s, 0);
      assert s[..|sep|] != sep;
      assert s[1..] == x[1..] + (sep + y);
      forall i | 0 <= i < |x[1..]|
        ensures !OccursAt(sep, x[1..] + (sep + y), i)
      {
        assert !OccursAt(sep, s, i + 1);
        assert s[i + 1..i + 1 + |sep|] == (x[1..] + (sep + y))[i..i + |sep|];
      }
      SplitAccSkip(x[1..], sep, y, cur + [x[0]]);
      assert cur + [x[0]] + x[1..] == cur + x;
    }
  }

  lemma {:induction false} SplitAccLast(x: string, sep: string, cur: string)
    requires |sep| > 0
    requires NoSepWithin(x, "", sep)
    ensures SplitAcc(x, sep, cur) == [cur + x]
    decreases |x|
  {
    assert x + "" == x;
    if |x| >= |sep| {
      assert !OccursAt(sep, x, 0);
      assert x[..|sep|] != sep;
      forall i | 0 <= i < |x[1..]|
        ensures !OccursAt(sep, x[1..] + "", i)
      {
        assert x[1..] + "" == x[1..];
        assert !OccursAt(sep, x, i + 1);
        if i + |sep| <= |x[1..]| {
          assert x[i + 1..i + 1 + |sep|] == x[1..][i..i + |sep|];
        }
      }
      SplitAccLast(x[1..], sep, cur + [x[0]]);
      assert cur + [x[0]] + x[1..] == cur + x;
    }
  }

  /** Decoding what was encoded: joining segments on `sep` and splitting the
      result again gives the segments back, provided no occurrence of `sep`
      begins inside a segment (the same condition `split`'s own output meets). */
  lemma {:induction false} SplitJoinInverse(items: seq<string>, sep: string)
    requires |sep| > 0 && |items| >= 1
    requires forall k :: 0 <= k < |items| - 1 ==> NoSepWithin(items[k], sep, sep)
    requires NoSepWithin(items[|items| - 1], "", sep)
    ensures Split(Join(items, sep), sep) == items
    decreases |items|
  {
    if |items| == 1 {
      SplitAccLast(items[0], sep, "");
      assert "" + items[0] == items[0];
    } else {
      var rest := Join(items[1..], sep);
      assert Join(items, sep) == items[0] + (sep + rest);
      NoSepExtend(items[0], sep, rest);
      SplitAccSkip(items[0], sep, rest, "");
      assert forall k :: 0 <= k < |items[1..]| - 1 ==> items[1..][k] == items[k + 1];
      SplitJoinInverse(items[1..], sep);
      assert "" + items[0] == items[0];
      assert items == [items[0]] + items[1..];
    }
  }

  // ---------------------------------------------------------------------
  // xs[:n]

  /** Python's `xs[:n]` for any integer `n`: a negative bound counts from the end. */
  function SliceTo<T>(xs: seq<T>, n: int): (r: seq<T>)
    ensures |r| <= |xs| && r == xs[..|r|]
    ensures 0 <= n ==> |r| == Min(n, |xs|)
    ensures n < 0 ==> |r| == Max(0, |xs| + n)
  {
    if 0 <= n then (if n <= |xs| then xs[..n] else xs)
    else if -n <= |xs| then xs[..|xs| + n]
    else []
  }

  // ---------------------------------------------------------------------
  // str(n)

  function DigitChar(d: int): char
    requires 0 <= d < 10
  {
    ('0' as int + d) as char
  }

  predicate IsDigit(c: char) { '0' <= c <= '9' }

  /** `str(n)` for `n >= 0`: decimal digits, no leading zero. */
  function NatToString(n: nat): (r: string)
    ensures |r| > 0
    ensures forall i :: 0 <= i < |r| ==> IsDigit(r[i])
    ensures n > 0 ==> r[0] != '0'
    decreases n
  {
    if n < 10 then [DigitChar(n)] else NatToString(n / 10) + [DigitChar(n % 10)]
  }

  /** `int(s)` for a string of decimal digits. */
  function ParseDigits(s: string): nat
    requires forall i :: 0 <= i < |s| ==> IsDigit(s[i])
    decreases |s|
  {
    if |s| == 0 then 0
    else
      var c := s[|s| - 1];
      assert IsDigit(c);
      ParseDigits(s[..|s| - 1]) * 10 + (c as int - '0' as int)
  }

  /** `int(str(n)) == n`. */
  lemma {:induction false} ParseNatToString(n: nat)
    ensures ParseDigits(NatToString(n)) == n
    decreases n
  {
    var r := NatToString(n);
    if n >= 10 {
      ParseNatToString(n / 10);
      assert r[..|r| - 1] == NatToString(n / 10);
    }
  }
}
