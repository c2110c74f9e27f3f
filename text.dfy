/** String operations of Python's `str` that the scraper relies on:
    substring search (`in`, `find`, `startswith`), `split`, `join`,
    `strip`, `replace`, and ASCII `lower()`. */
module Text {
  import opened Wrappers

  predicate IsUpper(c: char) { 'A' <= c <= 'Z' }

  /** ASCII lowering; every other character is left alone. */
  function LowerChar(c: char): char {
    if IsUpper(c) then (c as int + 32) as char else c
  }

  function Lower(s: string): (r: string)
    ensures |r| == |s|
    ensures forall i :: 0 <= i < |s| ==> r[i] == LowerChar(s[i])
  {
    seq(|s|, i requires 0 <= i < |s| => LowerChar(s[i]))
  }

  predicate StartsWith(s: string, p: string) {
    |p| <= |s| && s[..|p|] == p
  }

  /** Index of the first occurrence of `p` in `s` (Python's `s.find(p)`). */
  function IndexOf(s: string, p: string): (r: Option<nat>)
    ensures r.Some? ==> r.value + |p| <= |s| && s[r.value..r.value + |p|] == p
    ensures r.Some? ==> StartsWith(s[r.value..], p)
    ensures r.Some? ==> forall j :: 0 <= j < r.value ==> !StartsWith(s[j..], p)
    ensures r.None? ==> forall j :: 0 <= j <= |s| ==> !StartsWith(s[j..], p)
    decreases |s|
  {
    if StartsWith(s, p) then Some(0)
    else if s == [] then None
    else
      match IndexOf(s[1..], p)
      case None =>
        NoneShifted(s, p);
        None
      case Some(i) =>
        SomeShifted(s, p, i);
        Some(i + 1)
  }

  lemma NoneShifted(s: string, p: string)
    requires s != [] && !StartsWith(s, p)
    requires forall j :: 0 <= j <= |s[1..]| ==> !StartsWith(s[1..][j..], p)
    ensures forall j :: 0 <= j <= |s| ==> !StartsWith(s[j..], p)
  {
    assert forall j :: 1 <= j <= |s| ==> s[j..] == s[1..][j - 1..];
  }

  lemma SomeShifted(s: string, p: string, i: nat)
    requires s != [] && !StartsWith(s, p)
    requires i + |p| <= |s[1..]| && s[1..][i..i + |p|] == p && StartsWith(s[1..][i..], p)
    requires forall j :: 0 <= j < i ==> !StartsWith(s[1..][j..], p)
    ensures i + 1 + |p| <= |s| && s[i + 1..i + 1 + |p|] == p && StartsWith(s[i + 1..], p)
    ensures forall j :: 0 <= j < i + 1 ==> !StartsWith(s[j..], p)
  {
    assert forall j :: 1 <= j <= i ==> s[j..] == s[1..][j - 1..];
    assert s[i + 1..] == s[1..][i..];
    assert s[i + 1..i + 1 + |p|] == s[1..][i..i + |p|];
  }

  /** A prefix of `a` is a prefix of anything `a` starts. */
  lemma StartsWithConcat(a: string, b: string, p: string)
    requires StartsWith(a, p)
    ensures StartsWith(a + b, p)
  {
    assert (a + b)[..|p|] == a[..|p|];
  }

  /** Python's `p in s` on strings. */
  predicate Contains(s: string, p: string) {
    IndexOf(s, p).Some?
  }

  lemma ContainsAt(s: string, p: string, i: nat)
    requires i + |p| <= |s| && s[i..i + |p|] == p
    ensures Contains(s, p)
  {
    assert s[i..][..|p|] == s[i..i + |p|];
  }

  /** Text that holds `p` holds every part of `p`. */
  lemma ContainsPart(s: string, p: string, q: string, i: nat)
    requires i + |q| <= |p| && p[i..i + |q|] == q
    requires Contains(s, p)
    ensures Contains(s, q)
  {
    var j := IndexOf(s, p).value;
    assert forall t :: 0 <= t < |q| ==> s[j + i + t] == s[j..j + |p|][i + t] == p[i + t] == q[t];
    assert s[j + i..j + i + |q|] == q;
    ContainsAt(s, q, j + i);
  }

  /** A pattern that starts at `i` is contained. */
  lemma StartsWithAt(s: string, p: string, i: nat)
    requires i <= |s| && StartsWith(s[i..], p)
    ensures Contains(s, p)
  {
    assert s[i..i + |p|] == s[i..][..|p|];
    ContainsAt(s, p, i);
  }

  /** A pattern holding an upper-case letter never occurs in lowered text. */
  lemma LoweredLacksUpper(s: string, p: string, k: nat)
    requires k < |p| && IsUpper(p[k])
    ensures !Contains(Lower(s), p)
  {
  }

  lemma LowerTwice(s: string)
    ensures Lower(Lower(s)) == Lower(s)
  {
  }

  /** Python's `any(x in s for x in ps)`. */
  predicate AnyIn(ps: seq<string>, s: string) {
    exists k :: 0 <= k < |ps| && Contains(s, ps[k])
  }

  /** Python's `s.split(sep)` for a non-empty separator. */
  function Split(s: string, sep: string): (r: seq<string>)
    requires |sep| > 0
    ensures |r| >= 1
    decreases |s|
  {
    match IndexOf(s, sep)
    case None => [s]
    case Some(i) => [s[..i]] + Split(s[i + |sep|..], sep)
  }

  /** The split has more than one part exactly when the separator occurs. */
  lemma SplitParts(s: string, sep: string)
    requires |sep| > 0
    ensures |Split(s, sep)| > 1 <==> Contains(s, sep)
  {
  }

  /** Text that holds `p` still holds it with more appended. */
  lemma ContainsExtended(s: string, p: string, x: string)
    requires Contains(s, p)
    ensures Contains(s + x, p)
  {
    var j := IndexOf(s, p).value;
    assert (s + x)[j..j + |p|] == s[j..j + |p|];
    ContainsAt(s + x, p, j);
  }

  /** Text that lacks one of the characters of `p` does not hold `p`. */
  lemma MissingChar(s: string, p: string, k: nat)
    requires k < |p| && forall i :: 0 <= i < |s| ==> s[i] != p[k]
    ensures !Contains(s, p)
  {
    forall j | 0 <= j <= |s| ensures !StartsWith(s[j..], p) {
      if j + |p| <= |s| {
        assert s[j..][..|p|][k] == s[j + k];
      }
    }
  }

  /** When the separator's first character does not recur in it, its
      first occurrence after a part that lacks it is right after that
      part. */
  lemma FirstAfter(a: string, sep: string, x: string)
    requires |sep| > 0 && !Contains(a, sep)
    requires forall t :: 1 <= t < |sep| ==> sep[t] != sep[0]
    ensures IndexOf(a + sep + x, sep) == Some(|a|)
  {
    var s := a + sep + x;
    assert s[|a|..][..|sep|] == sep;
    forall j | 0 <= j < |a| ensures !StartsWith(s[j..], sep) {
      if j + |sep| <= |a| {
        assert s[j..][..|sep|] == a[j..][..|sep|];
      } else {
        assert s[j..][|a| - j] == sep[0] != sep[|a| - j];
      }
    }
  }

  /** Splitting at a first occurrence right after `a` yields `a` and then
      the parts of the rest. */
  lemma SplitAfter(a: string, sep: string, x: string)
    requires |sep| > 0 && IndexOf(a + sep + x, sep) == Some(|a|)
    ensures Split(a + sep + x, sep) == [a] + Split(x, sep)
  {
    var s := a + sep + x;
    assert s[..|a|] == a && s[|a| + |sep|..] == x;
  }

  /** When `b` lacks the separator's first character, the first part of
      splitting `b + c` begins with all of `b`. */
  lemma SplitHeadKeeps(b: string, c: string, sep: string)
    requires |sep| > 0 && forall i :: 0 <= i < |b| ==> b[i] != sep[0]
    ensures var t := Split(b + c, sep)[0];
      |b| <= |t| <= |b + c| && t == (b + c)[..|t|]
  {
    match IndexOf(b + c, sep)
    case None =>
    case Some(i) =>
      assert (b + c)[i] == sep[0];
  }

  /** Python's `sep.join(parts)`. */
  function Join(parts: seq<string>, sep: string): string {
    if parts == [] then ""
    else if |parts| == 1 then parts[0]
    else parts[0] + sep + Join(parts[1..], sep)
  }

  /** Splitting a join gives the parts back when none of them holds the
      separator and the separator's first character does not recur in it. */
  lemma {:induction false} SplitJoin(parts: seq<string>, sep: string)
    requires parts != [] && |sep| > 0
    requires forall t :: 1 <= t < |sep| ==> sep[t] != sep[0]
    requires forall k :: 0 <= k < |parts| ==> !Contains(parts[k], sep)
    ensures Split(Join(parts, sep), sep) == parts
    decreases |parts|
  {
    if |parts| == 1 {
      assert Join(parts, sep) == parts[0];
    } else {
      SplitJoin(parts[1..], sep);
      FirstAfter(parts[0], sep, Join(parts[1..], sep));
      SplitAfter(parts[0], sep, Join(parts[1..], sep));
      assert parts == [parts[0]] + parts[1..];
    }
  }

  /** Python's `s.replace(a, b)` for one-character strings. */
  function ReplaceChar(s: string, a: char, b: char): (r: string)
    ensures |r| == |s|
    ensures forall i :: 0 <= i < |s| ==> r[i] == if s[i] == a then b else s[i]
  {
    seq(|s|, i requires 0 <= i < |s| => if s[i] == a then b else s[i])
  }

  /** Python's `s.replace(c, "")`, pinned by RemoveCharKeeps and
      RemoveCharAppend. */
  function RemoveChar(s: string, c: char): (r: string)
    ensures forall i :: 0 <= i < |r| ==> r[i] != c
  {
    if s == [] then []
    else if s[0] == c then RemoveChar(s[1..], c)
    else [s[0]] + RemoveChar(s[1..], c)
  }

  /** Every character other than `c` is kept, as often as it occurs. */
  lemma {:induction false} RemoveCharKeeps(s: string, c: char)
    ensures multiset(RemoveChar(s, c)) == multiset(s)[c := 0]
    decreases |s|
  {
    if s != [] {
      assert s == [s[0]] + s[1..];
      RemoveCharKeeps(s[1..], c);
    }
  }

  /** Removing a character from a concatenation removes it from each
      part, so the characters kept stay in their order. */
  lemma {:induction false} RemoveCharAppend(a: string, b: string, c: char)
    ensures RemoveChar(a + b, c) == RemoveChar(a, c) + RemoveChar(b, c)
    decreases |a|
  {
    if a != [] {
      assert (a + b)[0] == a[0] && (a + b)[1..] == a[1..] + b;
      RemoveCharAppend(a[1..], b, c);
    } else {
      assert a + b == b;
    }
  }

  /** The characters Python's `str.isspace` accepts. */
  predicate IsSpace(c: char) {
    || '\t' <= c <= '\r'
    || '\U{1c}' <= c <= ' '
    || c == '\U{85}' || c == '\U{a0}' || c == '\U{1680}'
    || '\U{2000}' <= c <= '\U{200a}'
    || c == '\U{2028}' || c == '\U{2029}' || c == '\U{202f}' || c == '\U{205f}' || c == '\U{3000}'
  }

  function StripLeft(s: string): (r: string)
    ensures |r| <= |s|
    ensures r == s[|s| - |r|..]
    ensures r != [] ==> !IsSpace(r[0])
  {
    if s != [] && IsSpace(s[0]) then StripLeft(s[1..]) else s
  }

  function StripRight(s: string): (r: string)
    ensures |r| <= |s|
    ensures r == s[..|r|]
    ensures r != [] ==> !IsSpace(r[|r| - 1])
  {
    if s != [] && IsSpace(s[|s| - 1]) then StripRight(s[..|s| - 1]) else s
  }

  /** `r` is the part of `s` from position `k` on, with only white space
      before and after it. */
  predicate StrippedAt(s: string, r: string, k: nat) {
    k + |r| <= |s| && r == s[k..k + |r|] &&
    (forall i :: 0 <= i < k ==> IsSpace(s[i])) &&
    (forall i :: k + |r| <= i < |s| ==> IsSpace(s[i]))
  }

  /** Python's `s.strip()`, pinned by StripPart. */
  function Strip(s: string): (r: string)
    ensures |r| <= |s|
    ensures r != [] ==> !IsSpace(r[0]) && !IsSpace(r[|r| - 1])
  {
    var t := StripRight(StripLeft(s));
    assert t != [] ==> t[0] == StripLeft(s)[0];
    t
  }

  /** StripLeft removes white space only. */
  lemma {:induction false} StripLeftRemoves(s: string)
    ensures forall i :: 0 <= i < |s| - |StripLeft(s)| ==> IsSpace(s[i])
    decreases |s|
  {
    if s != [] && IsSpace(s[0]) {
      StripLeftRemoves(s[1..]);
    }
  }

  /** StripRight removes white space only. */
  lemma {:induction false} StripRightRemoves(s: string)
    ensures forall i :: |StripRight(s)| <= i < |s| ==> IsSpace(s[i])
    decreases |s|
  {
    if s != [] && IsSpace(s[|s| - 1]) {
      StripRightRemoves(s[..|s| - 1]);
    }
  }

  /** The stripped text is the part of `s` left once the white space at
      both ends is removed: a part of `s` with only white space before and
      after it, and with none at its own ends. */
  lemma StripPart(s: string)
    ensures exists k: nat :: StrippedAt(s, Strip(s), k)
  {
    var l := StripLeft(s);
    var t := StripRight(l);
    var k := |s| - |l|;
    StripLeftRemoves(s);
    StripRightRemoves(l);
    assert t == s[k..k + |t|];
    forall i | k + |t| <= i < |s|
      ensures IsSpace(s[i])
    {
      assert s[i] == l[i - k];
    }
    assert k + |t| <= |s|;
    assert forall i :: 0 <= i < k ==> IsSpace(s[i]);
    assert t == Strip(s);
    assert StrippedAt(s, t, k);
  }


  lemma SpaceLowered(c: char)
    ensures IsSpace(LowerChar(c)) == IsSpace(c)
  {
  }

  lemma {:induction false} StripLeftLower(s: string)
    ensures StripLeft(Lower(s)) == Lower(StripLeft(s))
    decreases |s|
  {
    if s != [] {
      SpaceLowered(s[0]);
      if IsSpace(s[0]) {
        assert Lower(s)[1..] == Lower(s[1..]);
        StripLeftLower(s[1..]);
      }
    }
  }

  lemma {:induction false} StripRightLower(s: string)
    ensures StripRight(Lower(s)) == Lower(StripRight(s))
    decreases |s|
  {
    if s != [] {
      SpaceLowered(s[|s| - 1]);
      if IsSpace(s[|s| - 1]) {
        assert Lower(s)[..|s| - 1] == Lower(s[..|s| - 1]);
        StripRightLower(s[..|s| - 1]);
      }
    }
  }

  /** Lowering and stripping can be done in either order. */
  lemma StripLower(s: string)
    ensures Strip(Lower(s)) == Lower(Strip(s))
  {
    StripLeftLower(s);
    StripRightLower(StripLeft(s));
  }

  /** Python's `s[:n]`. */
  function Prefix(s: string, n: nat): (r: string)
    ensures |r| <= n && |r| <= |s| && r == s[..|r|]
    ensures |s| <= n ==> r == s
  {
    if |s| <= n then s else s[..n]
  }

  /** The decimal digit for `d`. */
  function DigitChar(d: nat): (c: char)
    requires d < 10
    ensures '0' <= c <= '9' && c as int - '0' as int == d
  {
    ('0' as int + d) as char
  }

  /** Python's `str(n)` for a non-negative int: its decimal digits,
      most significant first. */
  function NatToString(n: nat): (r: string)
    ensures r != [] && forall i :: 0 <= i < |r| ==> '0' <= r[i] <= '9'
    decreases n
  {
    if n < 10 then [DigitChar(n)] else NatToString(n / 10) + [DigitChar(n % 10)]
  }

  /** `int(s)` read back from a run of decimal digits. */
  function DigitsValue(s: string): int
    decreases |s|
  {
    if s == [] then 0 else DigitsValue(s[..|s| - 1]) * 10 + (s[|s| - 1] as int - '0' as int)
  }

  /** Reading the digits back gives the number. */
  lemma {:induction false} DigitsRoundTrip(n: nat)
    ensures DigitsValue(NatToString(n)) == n
    decreases n
  {
    var r := NatToString(n);
    if n >= 10 {
      DigitsRoundTrip(n / 10);
      assert r[..|r| - 1] == NatToString(n / 10);
    }
  }
}
