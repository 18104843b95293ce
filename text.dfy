/**
 * The parts of Python's `str` that the scripts rely on, on ASCII text:
 * `strip`, `lower`, `in`, `startswith`/`endswith`, `split(sep)[0]` and
 * `split(sep)[1]`, `join`, `splitlines` (on '\n'), `s[:n]` and `str(n)`.
 */
module Text {

  datatype Option<T> = None | Some(value: T)

  function Min(a: int, b: int): int { if a <= b then a else b }

  // ---------------------------------------------------------------------
  // Character classes (the ASCII members of Python's isspace/isdigit/...)
  // ---------------------------------------------------------------------

  /** Python's whitespace restricted to ASCII: \t \n \v \f \r, \x1c-\x1f and space. */
  predicate IsSpace(c: char) {
    c == ' ' || c == '\t' || c == '\n' || c == '\r' || c == '\U{0B}' || c == '\U{0C}'
    || ('\U{1C}' <= c <= '\U{1F}')
  }

  predicate IsDigit(c: char) { '0' <= c <= '9' }

  predicate IsUpper(c: char) { 'A' <= c <= 'Z' }

  predicate IsLetter(c: char) { 'A' <= c <= 'Z' || 'a' <= c <= 'z' }

  predicate AllSpace(s: string) { forall i :: 0 <= i < |s| ==> IsSpace(s[i]) }

  predicate AllDigits(s: string) { forall i :: 0 <= i < |s| ==> IsDigit(s[i]) }

  function LowerChar(c: char): char { if 'A' <= c <= 'Z' then (c as int + 32) as char else c }

  /** `s.lower()` */
  function Lower(s: string): string
  {
    seq(|s|, i requires 0 <= i < |s| => LowerChar(s[i]))
  }

  /**
   * Lowering lowers each character in its place: it leaves no upper-case
   * letter, keeps every other character where it was, and changes nothing
   * when applied again.
   */
  lemma LowerShape(s: string)
    ensures |Lower(s)| == |s|
    ensures forall i :: 0 <= i < |s| ==> Lower(s)[i] == LowerChar(s[i])
    ensures forall i :: 0 <= i < |s| ==> !IsUpper(Lower(s)[i])
    ensures forall i :: 0 <= i < |s| && !IsUpper(s[i]) ==> Lower(s)[i] == s[i]
    ensures Lower(Lower(s)) == Lower(s)
  {
    var once := Lower(s);
    forall i | 0 <= i < |s| ensures !IsUpper(once[i]) {
      assert once[i] == LowerChar(s[i]);
    }
    assert Lower(once) == once;
  }

  // ---------------------------------------------------------------------
  // strip
  // ---------------------------------------------------------------------

  /** `s.lstrip()`: the longest suffix of s that does not start with whitespace. */
  function TrimLeft(s: string): (r: string)
    ensures |r| <= |s| && r == s[|s| - |r|..]
    ensures AllSpace(s[..|s| - |r|])
    ensures r == [] || !IsSpace(r[0])
  {
    if s != [] && IsSpace(s[0]) then
      var r := TrimLeft(s[1..]);
      assert s[1..][..|s| - 1 - |r|] == s[1..|s| - |r|];
      r
    else s
  }

  /** `s.rstrip()`: the longest prefix of s that does not end with whitespace. */
  function TrimRight(s: string): (r: string)
    ensures |r| <= |s| && r == s[..|r|]
    ensures AllSpace(s[|r|..])
    ensures r == [] || !IsSpace(r[|r| - 1])
  {
    if s != [] && IsSpace(s[|s| - 1]) then
      var r := TrimRight(s[..|s| - 1]);
      assert s[..|s| - 1][|r|..] == s[|r|..|s| - 1];
      assert s[|r|..] == s[|r|..|s| - 1] + [s[|s| - 1]];
      r
    else s
  }

  /** `s.strip()` */
  function Strip(s: string): string
  {
    TrimRight(TrimLeft(s))
  }

  predicate IsStripped(s: string) { s == [] || (!IsSpace(s[0]) && !IsSpace(s[|s| - 1])) }

  /** A stripped string keeps no outer whitespace, and the whitespace removed was all there was around it. */
  lemma StripShape(s: string)
    ensures IsStripped(Strip(s))
    ensures |Strip(s)| <= |s|
    ensures Strip(s) == [] <==> AllSpace(s)
  {
    var l := TrimLeft(s);
    var r := TrimRight(l);
    if r != [] {
      assert r[0] == l[0];
    }
    if l == [] {
      assert s[..|s|] == s;
    }
    if l != [] {
      assert l[0] == s[|s| - |l|];
    }
  }

  /** Stripping twice is stripping once. */
  lemma StripIdempotent(s: string)
    ensures Strip(Strip(s)) == Strip(s)
  {
    StripShape(s);
    StraightStripped(Strip(s));
  }

  /** A string with no outer whitespace is its own strip. */
  lemma StraightStripped(s: string)
    requires IsStripped(s)
    ensures Strip(s) == s
  {
  }

  // ---------------------------------------------------------------------
  // Prefixes, suffixes, occurrences
  // ---------------------------------------------------------------------

  /** `s.startswith(p)` */
  predicate StartsWith(s: string, p: string) { |p| <= |s| && s[..|p|] == p }

  /** `s.endswith(p)` */
  predicate EndsWith(s: string, p: string) { |p| <= |s| && s[|s| - |p|..] == p }

  predicate OccursAt(s: string, sep: string, i: nat) { i + |sep| <= |s| && s[i..i + |sep|] == sep }

  /** The first occurrence of sep in s at or after i. */
  function IndexFrom(s: string, sep: string, i: nat): (r: Option<nat>)
    requires i <= |s|
    decreases |s| - i
    ensures r.Some? ==> i <= r.value && OccursAt(s, sep, r.value)
    ensures forall j :: i <= j && (r.None? || j < r.value) ==> !OccursAt(s, sep, j)
  {
    if OccursAt(s, sep, i) then Some(i)
    else if i == |s| then None
    else IndexFrom(s, sep, i + 1)
  }

  /** `s.find(sep)`, as an Option. */
  function IndexOf(s: string, sep: string): Option<nat>
  {
    IndexFrom(s, sep, 0)
  }

  /** `sep in s` */
  predicate Contains(s: string, sep: string)
  {
    IndexOf(s, sep).Some?
  }

  lemma ContainsIff(s: string, sep: string)
    ensures Contains(s, sep) <==> exists i: nat :: OccursAt(s, sep, i)
  {
  }

  /** `s.split(sep)[0]`: s up to the first occurrence of sep. */
  function SplitHead(s: string, sep: string): (r: string)
    requires sep != []
    ensures r <= s
  {
    match IndexOf(s, sep)
    case Some(i) => s[..i]
    case None => s
  }

  /** `s.split(sep)[1]`: the piece between the first and second occurrences of sep;
      None where Python raises IndexError because sep does not occur. */
  function SplitSecond(s: string, sep: string): (r: Option<string>)
    requires sep != []
    ensures r.Some? <==> Contains(s, sep)
  {
    match IndexOf(s, sep)
    case Some(i) => Some(SplitHead(s[i + |sep|..], sep))
    case None => None
  }

  /** Where sep first occurs at i, splitting there gives the text before it. */
  lemma SplitHeadAt(s: string, sep: string, i: nat)
    requires sep != [] && OccursAt(s, sep, i)
    requires forall j :: 0 <= j < i ==> !OccursAt(s, sep, j)
    ensures IndexOf(s, sep) == Some(i) && SplitHead(s, sep) == s[..i]
  {
  }

  // ---------------------------------------------------------------------
  // join
  // ---------------------------------------------------------------------

  /** `sep.join(parts)` */
  function Join(parts: seq<string>, sep: string): string
  {
    if |parts| == 0 then ""
    else if |parts| == 1 then parts[0]
    else Join(parts[..|parts| - 1], sep) + sep + parts[|parts| - 1]
  }

  /** Joining two non-empty lists is joining each and putting one separator between. */
  lemma {:induction false} JoinAppend(a: seq<string>, b: seq<string>, sep: string)
    requires a != [] && b != []
    ensures Join(a + b, sep) == Join(a, sep) + sep + Join(b, sep)
    decreases |b|
  {
    if |b| == 1 {
      assert (a + b)[..|a + b| - 1] == a;
    } else {
      var b' := b[..|b| - 1];
      assert (a + b)[..|a + b| - 1] == a + b';
      JoinAppend(a, b', sep);
    }
  }

  lemma JoinCons(x: string, rest: seq<string>, sep: string)
    requires rest != []
    ensures Join([x] + rest, sep) == x + sep + Join(rest, sep)
  {
    JoinAppend([x], rest, sep);
  }

  // ---------------------------------------------------------------------
  // s[:n] and str(n)
  // ---------------------------------------------------------------------

  /** `s[:n]`: Python clamps n at the length. */
  function Take(s: string, n: nat): (r: string)
    ensures |r| == Min(n, |s|) && r <= s
  {
    if n <= |s| then s[..n] else s
  }

  function DigitChar(d: nat): (c: char)
    requires d < 10
    ensures IsDigit(c)
  {
    ('0' as int + d) as char
  }

  function DigitValue(c: char): nat
    requires IsDigit(c)
  {
    c as int - '0' as int
  }

  /** `str(n)` for a non-negative int: decimal digits, no leading zero. */
  function NatToString(n: nat): (r: string)
    ensures r != [] && AllDigits(r)
    ensures r[0] == '0' ==> r == "0"
    decreases n
  {
    if n < 10 then [DigitChar(n)] else NatToString(n / 10) + [DigitChar(n % 10)]
  }

  /** `int(s)` on a string of decimal digits. */
  function ParseNat(s: string): nat
    requires AllDigits(s)
  {
    if s == [] then 0 else ParseNat(s[..|s| - 1]) * 10 + DigitValue(s[|s| - 1])
  }

  /** Decimal rendering loses nothing: reading the digits back gives the number. */
  lemma {:induction false} ParseNatToString(n: nat)
    ensures ParseNat(NatToString(n)) == n
    decreases n
  {
    if n >= 10 {
      var s := NatToString(n);
      assert s[..|s| - 1] == NatToString(n / 10);
      ParseNatToString(n / 10);
    }
  }

  /** Different numbers are rendered differently, so `start` offsets stay distinguishable in citations. */
  lemma NatToStringInjective(m: nat, n: nat)
    requires NatToString(m) == NatToString(n)
    ensures m == n
  {
    ParseNatToString(m);
    ParseNatToString(n);
  }

  // ---------------------------------------------------------------------
  // splitlines (on '\n')
  // ---------------------------------------------------------------------

  /** `s.split("\n")` */
  function SplitNewlines(s: string): (r: seq<string>)
    ensures |r| >= 1
    ensures forall k :: 0 <= k < |r| ==> '\n' !in r[k]
    decreases |s|
  {
    match IndexOf(s, "\n")
    case None =>
      assert '\n' !in s by {
        forall i | 0 <= i < |s| ensures s[i] != '\n' {
          assert !OccursAt(s, "\n", i);
        }
      }
      [s]
    case Some(i) =>
      assert '\n' !in s[..i] by {
        forall j | 0 <= j < i ensures s[j] != '\n' {
          assert !OccursAt(s, "\n", j);
        }
      }
      [s[..i]] + SplitNewlines(s[i + 1..])
  }

  /** `s.splitlines()` with '\n' as the only line break: no trailing empty line, [] for "". */
  function Lines(s: string): seq<string>
  {
    if s == "" then []
    else
      var p := SplitNewlines(s);
      if s[|s| - 1] == '\n' then p[..|p| - 1] else p
  }

  lemma {:induction false} SplitNewlinesJoin(s: string)
    ensures Join(SplitNewlines(s), "\n") == s
    decreases |s|
  {
    match IndexOf(s, "\n")
    case None =>
    case Some(i) =>
      SplitNewlinesJoin(s[i + 1..]);
      JoinCons(s[..i], SplitNewlines(s[i + 1..]), "\n");
      assert s == s[..i] + "\n" + s[i + 1..];
  }

  lemma {:induction false} SplitNewlinesTrailing(s: string)
    requires s != [] && s[|s| - 1] == '\n'
    ensures var p := SplitNewlines(s); |p| >= 2 && p[|p| - 1] == ""
    decreases |s|
  {
    assert OccursAt(s, "\n", |s| - 1);
    match IndexOf(s, "\n")
    case Some(i) =>
      if i + 1 < |s| {
        SplitNewlinesTrailing(s[i + 1..]);
      } else {
        assert s[i + 1..] == "";
      }
  }

  /** Lines are free of '\n', and joining them with '\n' (plus the final '\n', if any) gives the text back. */
  lemma LinesRoundTrip(s: string)
    ensures forall k :: 0 <= k < |Lines(s)| ==> '\n' !in Lines(s)[k]
    ensures s != [] ==> Lines(s) != []
    ensures Join(Lines(s), "\n") + (if s != [] && s[|s| - 1] == '\n' then "\n" else "") == s
  {
    if s != [] {
      SplitNewlinesJoin(s);
      var p := SplitNewlines(s);
      if s[|s| - 1] == '\n' {
        SplitNewlinesTrailing(s);
        assert Join(p, "\n") == Join(p[..|p| - 1], "\n") + "\n" + "";
      }
    }
  }

  /** The first line is the text up to the first '\n'. */
  lemma FirstLine(s: string)
    requires s != []
    ensures Lines(s) != [] && Lines(s)[0] == SplitHead(s, "\n")
  {
    LinesRoundTrip(s);
    var p := SplitNewlines(s);
    if s[|s| - 1] == '\n' {
      SplitNewlinesTrailing(s);
    }
  }

  /** A text free of '\n' is one piece. */
  lemma SplitNewlinesSingle(s: string)
    requires '\n' !in s
    ensures SplitNewlines(s) == [s]
  {
    forall i: nat ensures !OccursAt(s, "\n", i) {
      if i + 1 <= |s| {
        assert s[i..i + 1] == [s[i]];
      }
    }
  }

  /** Two newline-free lines joined by one '\n' read back as those two lines. */
  lemma LinesOfTwo(a: string, b: string)
    requires '\n' !in a && '\n' !in b && b != []
    ensures Lines(a + "\n" + b) == [a, b]
  {
    var s := a + "\n" + b;
    assert s[|a|..|a| + 1] == "\n";
    forall j | 0 <= j < |a| ensures !OccursAt(s, "\n", j) {
      assert s[j..j + 1] == [a[j]];
    }
    SplitHeadAt(s, "\n", |a|);
    assert s[..|a|] == a;
    assert s[|a| + 1..] == b;
    SplitNewlinesSingle(b);
    assert s[|s| - 1] == b[|b| - 1];
  }

  /** A text without sep comes out of SplitHead whole. */
  lemma SplitHeadAbsent(s: string, sep: string)
    requires !Contains(s, sep)
    ensures SplitHead(s, sep) == s
  {
  }

  /** Behind a leading marker that occurs nowhere in the rest, `split(marker)[1]` is the rest. */
  lemma SplitSecondAfterMarker(marker: string, x: string)
    requires marker != [] && !Contains(x, marker)
    ensures SplitSecond(marker + x, marker) == Some(x)
  {
    var s := marker + x;
    assert s[..|marker|] == marker;
    SplitHeadAt(s, marker, 0);
    assert s[|marker|..] == x;
  }

  /** A stripped non-empty text behind a marker that starts with a non-space is stripped as a whole. */
  lemma MarkedStripped(marker: string, x: string)
    requires marker != [] && !IsSpace(marker[0]) && x != [] && IsStripped(x)
    ensures Strip(marker + x) == marker + x
  {
    var s := marker + x;
    assert s[0] == marker[0] && s[|s| - 1] == x[|x| - 1];
    StraightStripped(s);
  }

  /** A marked line `marker + x` strips to itself and splits back into x. */
  lemma MarkedLine(marker: string, x: string)
    requires marker != [] && !IsSpace(marker[0]) && x != [] && IsStripped(x) && !Contains(x, marker)
    ensures SplitSecond(Strip(marker + x), marker) == Some(x) && Strip(x) == x
  {
    MarkedStripped(marker, x);
    SplitSecondAfterMarker(marker, x);
    StraightStripped(x);
  }

  /** Splitting a '\n'-join of newline-free parts gives the parts back. */
  lemma {:induction false} SplitNewlinesOfJoin(parts: seq<string>)
    requires parts != [] && forall k :: 0 <= k < |parts| ==> '\n' !in parts[k]
    ensures SplitNewlines(Join(parts, "\n")) == parts
    decreases |parts|
  {
    if |parts| == 1 {
      SplitNewlinesSingle(parts[0]);
    } else {
      var head := parts[0];
      var rest := parts[1..];
      assert parts == [head] + rest;
      JoinCons(head, rest, "\n");
      var s := Join(parts, "\n");
      assert s == head + "\n" + Join(rest, "\n");
      forall j | 0 <= j < |head| ensures !OccursAt(s, "\n", j) {
        assert s[j..j + 1] == [head[j]];
      }
      assert s[|head|..|head| + 1] == "\n";
      SplitHeadAt(s, "\n", |head|);
      assert s[..|head|] == head;
      assert s[|head| + 1..] == Join(rest, "\n");
      SplitNewlinesOfJoin(rest);
    }
  }

  /** The last character of a join is the last character of its last part, when that part is non-empty. */
  lemma JoinEnds(parts: seq<string>, sep: string)
    requires parts != [] && parts[|parts| - 1] != ""
    ensures var s := Join(parts, sep); s != [] && s[|s| - 1] == parts[|parts| - 1][|parts[|parts| - 1]| - 1]
  {
  }

  /** `"\n".join(parts).splitlines()` gives the parts back when none holds '\n' and the last is non-empty. */
  lemma LinesOfJoin(parts: seq<string>)
    requires parts != [] && parts[|parts| - 1] != ""
    requires forall k :: 0 <= k < |parts| ==> '\n' !in parts[k]
    ensures Lines(Join(parts, "\n")) == parts
  {
    SplitNewlinesOfJoin(parts);
    JoinEnds(parts, "\n");
    var last := parts[|parts| - 1];
    assert last[|last| - 1] in last;
  }

  // ---------------------------------------------------------------------
  // runs: where a greedy `\d+` or `\s*` stops
  // ---------------------------------------------------------------------

  /** Every character of s[i..j] is in the class. */
  predicate AllIn(s: string, i: nat, j: nat, inClass: char -> bool)
    requires i <= j <= |s|
  {
    forall k :: i <= k < j ==> inClass(s[k])
  }

  /** The end of the longest run of class characters starting at i. */
  function RunEnd(s: string, i: nat, inClass: char -> bool): (r: nat)
    requires i <= |s|
    ensures i <= r <= |s| && AllIn(s, i, r, inClass) && (r == |s| || !inClass(s[r]))
    decreases |s| - i
  {
    if i < |s| && inClass(s[i]) then RunEnd(s, i + 1, inClass) else i
  }

  /** A run from i to j makes the longest run end no earlier; exactly at j when s[j] is outside the class. */
  lemma {:induction false} RunEndAt(s: string, i: nat, j: nat, inClass: char -> bool)
    requires i <= j <= |s| && AllIn(s, i, j, inClass)
    ensures RunEnd(s, i, inClass) >= j
    ensures (j == |s| || !inClass(s[j])) ==> RunEnd(s, i, inClass) == j
    decreases j - i
  {
    if i < j {
      RunEndAt(s, i + 1, j, inClass);
    }
  }
}
