/** The JavaScript string and array operations the core relies on, written out
    with the semantics the ECMAScript library gives them: `trim`, ASCII case
    mapping, `indexOf`/`lastIndexOf`, `split`/`join` on one character,
    `substring` (which swaps reversed bounds), a global regex replacement by
    the empty string, and `filter`/`slice` on arrays. */
module Text {

  // ---------------------------------------------------------------------
  // Characters
  // ---------------------------------------------------------------------

  /** The WhiteSpace and LineTerminator code points that String.prototype.trim
      removes (ECMAScript, section 22.1.3.32 with sections 12.2 and 12.3). */
  predicate IsSpace(c: char) {
    c == '\t' || c == '\n' || c == '\U{B}' || c == '\U{C}' || c == '\r' || c == ' '
    || c == '\U{A0}' || c == '\U{1680}' || ('\U{2000}' <= c <= '\U{200A}')
    || c == '\U{2028}' || c == '\U{2029}' || c == '\U{202F}' || c == '\U{205F}'
    || c == '\U{3000}' || c == '\U{FEFF}'
  }

  predicate IsLowerAscii(c: char) { 'a' <= c <= 'z' }

  predicate IsUpperAscii(c: char) { 'A' <= c <= 'Z' }

  predicate IsAsciiLetter(c: char) { IsLowerAscii(c) || IsUpperAscii(c) }

  function UpperChar(c: char): (u: char)
    ensures !IsLowerAscii(u)
    ensures !IsLowerAscii(c) ==> u == c
    ensures IsSpace(u) <==> IsSpace(c)
  {
    if IsLowerAscii(c) then (c as int - 32) as char else c
  }

  function LowerChar(c: char): (l: char)
    ensures !IsUpperAscii(l)
    ensures !IsUpperAscii(c) ==> l == c
  {
    if IsUpperAscii(c) then (c as int + 32) as char else c
  }

  // ---------------------------------------------------------------------
  // Length in UTF-16 code units
  // ---------------------------------------------------------------------

  /** A character of the Basic Multilingual Plane: one UTF-16 code unit.
      Every other character is stored as a surrogate pair, a high surrogate
      followed by a low one. */
  predicate IsBmp(c: char) { c as int < 0x1_0000 }

  /** `s.length`: JavaScript strings count UTF-16 code units, so a character
      outside the Basic Multilingual Plane counts twice. */
  function Utf16Length(s: string): (n: nat)
    ensures |s| <= n <= 2 * |s|
    ensures (forall i :: 0 <= i < |s| ==> IsBmp(s[i])) ==> n == |s|
    decreases |s|
  {
    if s == [] then 0 else Utf16Length(s[..|s| - 1]) + (if IsBmp(s[|s| - 1]) then 1 else 2)
  }

  lemma {:induction false} Utf16LengthAppend(a: string, b: string)
    ensures Utf16Length(a + b) == Utf16Length(a) + Utf16Length(b)
    decreases |b|
  {
    if b != [] {
      assert (a + b)[..|a + b| - 1] == a + b[..|b| - 1];
      Utf16LengthAppend(a, b[..|b| - 1]);
    } else {
      assert a + b == a;
    }
  }

  // ---------------------------------------------------------------------
  // Case mapping and trimming
  // ---------------------------------------------------------------------

  /** No lower-case ASCII letter occurs in `s`. */
  predicate IsUpper(s: string) {
    forall c :: c in s ==> !IsLowerAscii(c)
  }

  /** `s.toUpperCase()` on the ASCII range. */
  function Upper(s: string): (r: string)
    ensures |r| == |s| && forall i :: 0 <= i < |s| ==> r[i] == UpperChar(s[i])
    ensures IsUpper(r)
  {
    seq(|s|, i requires 0 <= i < |s| => UpperChar(s[i]))
  }

  /** `s.toLowerCase()` on the ASCII range. */
  function Lower(s: string): (r: string)
    ensures |r| == |s| && forall i :: 0 <= i < |s| ==> r[i] == LowerChar(s[i])
  {
    seq(|s|, i requires 0 <= i < |s| => LowerChar(s[i]))
  }

  lemma UpperOfUpper(s: string)
    requires IsUpper(s)
    ensures Upper(s) == s
  {
    var u := Upper(s);
    forall i | 0 <= i < |s| ensures u[i] == s[i] {
      assert s[i] in s;
    }
  }

  /** Neither end of `s` is a space. */
  predicate IsTrimmed(s: string) {
    s == [] || (!IsSpace(s[0]) && !IsSpace(s[|s| - 1]))
  }

  function TrimStart(s: string): (r: string)
    ensures |r| <= |s| && r == s[|s| - |r|..]
    ensures r == [] || !IsSpace(r[0])
    ensures forall i :: 0 <= i < |s| - |r| ==> IsSpace(s[i])
  {
    if s != [] && IsSpace(s[0]) then TrimStart(s[1..]) else s
  }

  function TrimEnd(s: string): (r: string)
    ensures |r| <= |s| && r == s[..|r|]
    ensures r == [] || !IsSpace(r[|r| - 1])
    ensures forall i :: |r| <= i < |s| ==> IsSpace(s[i])
  {
    if s != [] && IsSpace(s[|s| - 1]) then TrimEnd(s[..|s| - 1]) else s
  }

  /** `r` is the part of `s` from position k on, with nothing but spaces
      before it and after it. */
  predicate SpacesAround(s: string, r: string, k: int) {
    && 0 <= k <= |s| - |r| && r == s[k..k + |r|]
    && (forall i :: 0 <= i < k ==> IsSpace(s[i]))
    && (forall i :: k + |r| <= i < |s| ==> IsSpace(s[i]))
  }

  /** Spaces at the tail of a suffix are spaces at the tail of the whole. */
  lemma {:induction false} SuffixTail(s: string, k: nat, r: string)
    requires k <= |s| && |r| <= |s| - k && r == s[k..][..|r|]
    requires forall j :: |r| <= j < |s| - k ==> IsSpace(s[k..][j])
    ensures r == s[k..k + |r|]
    ensures forall i :: k + |r| <= i < |s| ==> IsSpace(s[i])
  {
    forall i | k + |r| <= i < |s| ensures IsSpace(s[i]) {
      assert s[i] == s[k..][i - k];
    }
  }

  /** Trimming the start and then the end leaves a slice of `s` with only
      spaces around it. */
  lemma {:induction false} TrimSpans(s: string)
    ensures var t := TrimStart(s); SpacesAround(s, TrimEnd(t), |s| - |t|)
  {
    var t := TrimStart(s);
    SuffixTail(s, |s| - |t|, TrimEnd(t));
  }

  /** `s.trim()`: the longest infix of `s` with no space at either end, obtained
      by removing spaces only. */
  function Trim(s: string): (r: string)
    ensures IsTrimmed(r)
    ensures |r| <= |s|
    ensures exists k :: SpacesAround(s, r, k)
    ensures forall c :: c in r ==> c in s
    ensures (forall i :: 0 <= i < |s| ==> !IsSpace(s[i])) ==> r == s
  {
    TrimSpans(s);
    TrimEnd(TrimStart(s))
  }

  lemma TrimOfTrimmed(s: string)
    requires IsTrimmed(s)
    ensures Trim(s) == s
  {
  }

  // ---------------------------------------------------------------------
  // Searching
  // ---------------------------------------------------------------------

  /** `s.startsWith(p)`. */
  predicate StartsWith(s: string, p: string) {
    |p| <= |s| && s[..|p|] == p
  }

  /** `s.indexOf(c)`: the first position of `c`, or -1. */
  function IndexOf(s: string, c: char): (r: int)
    ensures -1 <= r < |s|
    ensures r == -1 <==> c !in s
    ensures r >= 0 ==> s[r] == c && c !in s[..r]
  {
    if s == [] then -1
    else if s[0] == c then 0
    else
      var k := IndexOf(s[1..], c);
      if k == -1 then -1
      else
        assert s[..k + 1] == [s[0]] + s[1..][..k];
        k + 1
  }

  /** The last position of `c` before `n`, or -1. */
  function LastIndexBefore(s: string, c: char, n: nat): (r: int)
    requires n <= |s|
    ensures -1 <= r < n
    ensures r == -1 <==> c !in s[..n]
    ensures r >= 0 ==> s[r] == c && c !in s[r + 1..n]
    decreases n
  {
    if n == 0 then -1
    else if s[n - 1] == c then n - 1
    else
      var k := LastIndexBefore(s, c, n - 1);
      assert s[..n] == s[..n - 1] + [s[n - 1]];
      if k == -1 then -1
      else
        assert s[k + 1..n] == s[k + 1..n - 1] + [s[n - 1]];
        k
  }

  /** `s.lastIndexOf(c)`: the last position of `c`, or -1. */
  function LastIndexOf(s: string, c: char): (r: int)
    ensures -1 <= r < |s|
    ensures r == -1 <==> c !in s
    ensures r >= 0 ==> s[r] == c && c !in s[r + 1..]
  {
    assert s[..|s|] == s;
    LastIndexBefore(s, c, |s|)
  }

  /** Bounds passed to `substring` are clamped into [0, length]. */
  function Clamp(i: int, n: nat): (r: nat)
    ensures r <= n
  {
    if i < 0 then 0 else if i > n then n else i
  }

  /** `s.substring(start, end)`: clamps both bounds and, when the first exceeds
      the second, swaps them. */
  function Substring(s: string, start: int, end: int): string {
    var a, b := Clamp(start, |s|), Clamp(end, |s|);
    if a <= b then s[a..b] else s[b..a]
  }

  // ---------------------------------------------------------------------
  // Splitting and joining on one character
  // ---------------------------------------------------------------------

  function Count(s: string, c: char): nat {
    if s == [] then 0 else (if s[0] == c then 1 else 0) + Count(s[1..], c)
  }

  lemma {:induction false} CountAppend(a: string, b: string, c: char)
    ensures Count(a + b, c) == Count(a, c) + Count(b, c)
  {
    if a != [] {
      assert (a + b)[0] == a[0];
      assert (a + b)[1..] == a[1..] + b;
      CountAppend(a[1..], b, c);
    } else {
      assert a + b == b;
    }
  }

  lemma {:induction false} CountAbsent(s: string, c: char)
    requires c !in s
    ensures Count(s, c) == 0
  {
    if s != [] {
      assert c !in s[1..];
      CountAbsent(s[1..], c);
    }
  }

  /** `parts.join(sep)`. */
  function Join(parts: seq<string>, sep: char): string {
    if |parts| == 0 then ""
    else if |parts| == 1 then parts[0]
    else parts[0] + [sep] + Join(parts[1..], sep)
  }

  /** `s.split(sep)`: one more piece than there are separators, none of them
      holding a separator, and joining them back gives `s`. */
  function Split(s: string, sep: char): (parts: seq<string>)
    ensures |parts| == Count(s, sep) + 1
    ensures forall i :: 0 <= i < |parts| ==> sep !in parts[i]
    ensures Join(parts, sep) == s
    decreases |s|
  {
    var k := IndexOf(s, sep);
    if k < 0 then
      CountAbsent(s, sep);
      [s]
    else
      var rest := Split(s[k + 1..], sep);
      assert s == s[..k] + [sep] + s[k + 1..];
      CountAppend(s[..k] + [sep], s[k + 1..], sep);
      CountAppend(s[..k], [sep], sep);
      CountAbsent(s[..k], sep);
      assert ([s[..k]] + rest)[1..] == rest;
      [s[..k]] + rest
  }

  /** The other direction of the split/join round trip: pieces free of the
      separator are recovered exactly by splitting their join. */
  lemma {:induction false} SplitOfJoin(parts: seq<string>, sep: char)
    requires |parts| >= 1
    requires forall i :: 0 <= i < |parts| ==> sep !in parts[i]
    ensures Split(Join(parts, sep), sep) == parts
  {
    if |parts| == 1 {
      assert IndexOf(parts[0], sep) == -1;
    } else {
      var p0, rest := parts[0], parts[1..];
      var s := Join(parts, sep);
      assert s == p0 + [sep] + Join(rest, sep);
      var k := IndexOf(s, sep);
      assert s[|p0|] == sep;
      assert s[..k] == p0;
      assert s[k + 1..] == Join(rest, sep);
      SplitOfJoin(rest, sep);
    }
  }

  // ---------------------------------------------------------------------
  // Global replacement of a literal pattern by ""
  // ---------------------------------------------------------------------

  predicate MatchAt(s: string, p: string, i: int) {
    0 <= i && i + |p| <= |s| && s[i..i + |p|] == p
  }

  /** `p` occurs nowhere in `s`. */
  predicate NoOccurrence(s: string, p: string) {
    forall i :: 0 <= i <= |s| - |p| ==> !MatchAt(s, p, i)
  }

  /** `s.replace(/p/g, "")` for a literal, non-empty pattern: matches are found
      left to right, and scanning resumes after each removed match. */
  function RemoveAll(s: string, p: string): (r: string)
    requires p != []
    ensures |r| <= |s|
    decreases |s|
  {
    if |s| < |p| then s
    else if s[..|p|] == p then RemoveAll(s[|p|..], p)
    else [s[0]] + RemoveAll(s[1..], p)
  }

  /** Removing a pattern that does not occur changes nothing. */
  lemma {:induction false} RemoveAllAbsent(s: string, p: string)
    requires p != [] && NoOccurrence(s, p)
    ensures RemoveAll(s, p) == s
    decreases |s|
  {
    if |s| >= |p| {
      assert !MatchAt(s, p, 0);
      assert s[0..|p|] == s[..|p|];
      forall i | 0 <= i <= |s[1..]| - |p| ensures !MatchAt(s[1..], p, i) {
        assert !MatchAt(s, p, i + 1);
        assert s[1..][i..i + |p|] == s[i + 1..i + 1 + |p|];
      }
      RemoveAllAbsent(s[1..], p);
      assert [s[0]] + s[1..] == s;
    }
  }

  /** A match in the tail is a match one place later in the whole. */
  lemma MatchInTail(s: string, p: string, i: nat)
    requires s != []
    ensures MatchAt(s[1..], p, i) <==> MatchAt(s, p, i + 1)
  {
    if i + |p| <= |s[1..]| {
      assert s[1..][i..i + |p|] == s[i + 1..i + 1 + |p|];
    }
  }

  /** A match at the start is dropped and the scan resumes after it. */
  lemma RemoveAllLeading(p: string, y: string)
    requires p != []
    ensures RemoveAll(p + y, p) == RemoveAll(y, p)
  {
    var s := p + y;
    assert s[..|p|] == p && s[|p|..] == y;
  }

  /** A position that starts no match is copied. */
  lemma RemoveAllCopies(s: string, p: string)
    requires p != [] && |p| <= |s| && !MatchAt(s, p, 0)
    ensures RemoveAll(s, p) == [s[0]] + RemoveAll(s[1..], p)
  {
    assert s[0..|p|] == s[..|p|];
  }

  /** The scan copies text that holds no match start, then drops the first
      match and carries on after it. */
  lemma {:induction false} RemoveAllFirstMatch(x: string, p: string, y: string)
    requires p != []
    requires forall i :: 0 <= i < |x| ==> !MatchAt(x + p + y, p, i)
    ensures RemoveAll(x + p + y, p) == x + RemoveAll(y, p)
    decreases |x|
  {
    if x == [] {
      assert x + p + y == p + y;
      RemoveAllLeading(p, y);
    } else {
      var s := x + p + y;
      var s' := x[1..] + p + y;
      RemoveAllCopies(s, p);
      assert s[1..] == s';
      forall i | 0 <= i < |x[1..]| ensures !MatchAt(s', p, i) {
        MatchInTail(s, p, i);
      }
      RemoveAllFirstMatch(x[1..], p, y);
      assert [x[0]] + x[1..] == x;
    }
  }

  /** A pattern absent from a string is absent from each of its slices. */
  lemma NoOccurrenceSlice(s: string, p: string, a: nat, b: nat)
    requires a <= b <= |s| && NoOccurrence(s, p)
    ensures NoOccurrence(s[a..b], p)
  {
    forall i | 0 <= i <= |s[a..b]| - |p| ensures !MatchAt(s[a..b], p, i) {
      assert !MatchAt(s, p, a + i);
      if MatchAt(s[a..b], p, i) {
        forall k | 0 <= k < |p| ensures s[a + i + k] == p[k] {
          assert s[a..b][i + k] == p[k];
        }
        assert false;
      }
    }
  }

  // ---------------------------------------------------------------------
  // Array helpers
  // ---------------------------------------------------------------------

  /** `xs.filter(keep)`: the kept elements, in their original order. */
  function Filter<T(!new)>(keep: T -> bool, xs: seq<T>): (r: seq<T>)
    ensures |r| <= |xs|
    ensures forall x :: x in r <==> x in xs && keep(x)
  {
    if xs == [] then []
    else if keep(xs[0]) then [xs[0]] + Filter(keep, xs[1..])
    else Filter(keep, xs[1..])
  }

  lemma {:induction false} FilterAppend<T(!new)>(keep: T -> bool, a: seq<T>, b: seq<T>)
    ensures Filter(keep, a + b) == Filter(keep, a) + Filter(keep, b)
  {
    if a != [] {
      assert (a + b)[0] == a[0];
      assert (a + b)[1..] == a[1..] + b;
      FilterAppend(keep, a[1..], b);
      if keep(a[0]) {
        assert Filter(keep, a + b) == [a[0]] + (Filter(keep, a[1..]) + Filter(keep, b));
      }
    } else {
      assert a + b == b;
    }
  }

  /** `xs.slice(0, n)`. */
  function Take<T>(xs: seq<T>, n: nat): (r: seq<T>)
    ensures |r| == if |xs| <= n then |xs| else n
    ensures r == xs[..|r|]
  {
    if |xs| <= n then xs else xs[..n]
  }
}
