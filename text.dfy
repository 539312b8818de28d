/**
  String operations the source takes from JavaScript: `toLowerCase`/`toUpperCase`
  (ASCII only), `trim`, the regex character classes `\d`, `\s` and `[a-z0-9]`,
  `split` on a string and on a `\s+`-style run, `join`, `includes`, and a
  lexicographic order on code points that stands for both the code-unit order
  of `sort()` (the two agree unless a character above U+FFFF meets one in
  U+E000..U+FFFF) and, as an approximation, `localeCompare`.
 */
module Text {
  import opened Wrappers
  import opened Seqs

  predicate IsDigit(c: char) { '0' <= c <= '9' }
  predicate IsAsciiUpper(c: char) { 'A' <= c <= 'Z' }
  predicate IsAsciiLower(c: char) { 'a' <= c <= 'z' }

  /** `[a-z0-9]`. */
  predicate IsLowerAlnum(c: char) { IsAsciiLower(c) || IsDigit(c) }

  /** `[^a-z0-9]`. */
  predicate NotLowerAlnum(c: char) { !IsLowerAlnum(c) }

  /**
    The regex class `\s`, which is also what `trim` removes: the white space and
    line terminator code points of the ECMAScript standard (section 12.2 and 12.3
    of ECMA-262).
   */
  predicate IsJsSpace(c: char) {
    || c == '\t' || c == '\n' || c == '\U{000B}' || c == '\U{000C}' || c == '\r' || c == ' '
    || c == '\U{00A0}' || c == '\U{1680}' || ('\U{2000}' <= c <= '\U{200A}')
    || c == '\U{2028}' || c == '\U{2029}' || c == '\U{202F}' || c == '\U{205F}'
    || c == '\U{3000}' || c == '\U{FEFF}'
  }

  predicate NotSpace(c: char) { !IsJsSpace(c) }

  function LowerChar(c: char): (r: char)
    ensures !IsAsciiUpper(r)
    ensures IsJsSpace(r) == IsJsSpace(c) && IsDigit(r) == IsDigit(c)
    ensures IsAsciiLower(r) <==> IsAsciiLower(c) || IsAsciiUpper(c)
    ensures !IsAsciiUpper(c) ==> r == c
  {
    if IsAsciiUpper(c) then (c as int + 32) as char else c
  }

  function UpperChar(c: char): (r: char)
    ensures !IsAsciiLower(r)
    ensures IsJsSpace(r) == IsJsSpace(c) && IsDigit(r) == IsDigit(c)
    ensures IsAsciiUpper(r) <==> IsAsciiLower(c) || IsAsciiUpper(c)
    ensures !IsAsciiLower(c) ==> r == c
  {
    if IsAsciiLower(c) then (c as int - 32) as char else c
  }

  /** `s.toLowerCase()` restricted to ASCII letters. */
  function Lower(s: string): (r: string)
    ensures |r| == |s|
    ensures forall i :: 0 <= i < |s| ==> r[i] == LowerChar(s[i])
  {
    seq(|s|, i requires 0 <= i < |s| => LowerChar(s[i]))
  }

  lemma LowerIdempotent(s: string)
    ensures Lower(Lower(s)) == Lower(s)
  {
  }

  lemma LowerAppend(a: string, b: string)
    ensures Lower(a + b) == Lower(a) + Lower(b)
  {
  }

  predicate IsAsciiAlnum(c: char) { IsAsciiLower(c) || IsAsciiUpper(c) || IsDigit(c) }

  /** `s.toLowerCase().replace(/[^a-z0-9]/g, "")`: the letters and digits, lower-cased. */
  function Norm(s: string): (r: string)
    ensures forall k :: 0 <= k < |r| ==> IsLowerAlnum(r[k])
  {
    FilterMembers(Lower(s), IsLowerAlnum);
    Filter(Lower(s), IsLowerAlnum)
  }

  /** Only letters and digits count: a string without any normalises to the empty string. */
  lemma NormEmptyIff(s: string)
    ensures Norm(s) == [] <==> forall k :: 0 <= k < |s| ==> !IsAsciiAlnum(s[k])
  {
    FilterEmptyIff(Lower(s), IsLowerAlnum);
  }

  /** White space never survives normalisation. */
  lemma {:induction false} NormSkipsSpaces(x: string)
    ensures Norm(Filter(x, NotSpace)) == Norm(x)
  {
    if x != [] {
      NormSkipsSpaces(x[1..]);
      var head := if NotSpace(x[0]) then [x[0]] else [];
      var tail := Filter(x[1..], NotSpace);
      assert Filter(x, NotSpace) == head + tail;
      LowerAppend(head, tail);
      FilterAppend(Lower(head), Lower(tail), IsLowerAlnum);
      assert x == [x[0]] + x[1..];
      LowerAppend([x[0]], x[1..]);
      FilterAppend(Lower([x[0]]), Lower(x[1..]), IsLowerAlnum);
      if !NotSpace(x[0]) {
        assert !IsLowerAlnum(Lower([x[0]])[0]);
        assert Filter(Lower([x[0]]), IsLowerAlnum) == [];
        assert Filter(Lower(head), IsLowerAlnum) == [];
      }
    }
  }

  /** Trimming the query first changes nothing. */
  lemma NormTrim(s: string)
    ensures Norm(Trim(s)) == Norm(s)
  {
    NormSkipsSpaces(Trim(s));
    NormSkipsSpaces(s);
    TrimKeepsNonSpace(s);
  }

  // ---------------------------------------------------------------- trim

  /** Number of leading `\s` characters. */
  function LeadingSpaces(s: string): (n: nat)
    ensures n <= |s|
    ensures forall k :: 0 <= k < n ==> IsJsSpace(s[k])
    ensures n < |s| ==> !IsJsSpace(s[n])
  {
    FindIndex(s, NotSpace)
  }

  /** Number of trailing `\s` characters. */
  function TrailingSpaces(s: string): (n: nat)
    ensures n <= |s|
    ensures forall k :: |s| - n <= k < |s| ==> IsJsSpace(s[k])
    ensures n < |s| ==> !IsJsSpace(s[|s| - n - 1])
  {
    if s == [] then 0
    else if IsJsSpace(s[|s| - 1]) then TrailingSpaces(s[..|s| - 1]) + 1
    else 0
  }

  /** `s.trim()`. */
  function Trim(s: string): (r: string)
    ensures |r| <= |s|
    ensures r == [] || (!IsJsSpace(r[0]) && !IsJsSpace(r[|r| - 1]))
  {
    var a := LeadingSpaces(s);
    var t := s[a..];
    t[..|t| - TrailingSpaces(t)]
  }

  /** `trim` removes only white space: every other character survives, in order. */
  lemma TrimKeepsNonSpace(s: string)
    ensures Filter(Trim(s), NotSpace) == Filter(s, NotSpace)
  {
    var a := LeadingSpaces(s);
    var t := s[a..];
    var b := |t| - TrailingSpaces(t);
    assert s == s[..a] + t;
    assert t == t[..b] + t[b..];
    FilterAppend(s[..a], t, NotSpace);
    FilterAppend(t[..b], t[b..], NotSpace);
    FilterNone(s[..a], NotSpace);
    FilterNone(t[b..], NotSpace);
  }

  /** `trim` leaves a string with no white space at its ends unchanged. */
  lemma TrimNoEdgeSpace(s: string)
    requires s == [] || (!IsJsSpace(s[0]) && !IsJsSpace(s[|s| - 1]))
    ensures Trim(s) == s
  {
  }

  // ---------------------------------------------------------------- substrings

  /** `sub` occurs in `s` at position `i`. */
  predicate OccursAt(s: string, sub: string, i: nat) {
    i + |sub| <= |s| && s[i..i + |sub|] == sub
  }

  /** `s.includes(sub)`. */
  predicate Contains(s: string, sub: string) {
    exists i: nat :: i <= |s| && OccursAt(s, sub, i)
  }

  /** `s.indexOf(sub, from)`, with `None` for -1. */
  function IndexFrom(s: string, sub: string, from: nat): (r: Option<nat>)
    ensures r.Some? ==> from <= r.value && OccursAt(s, sub, r.value)
    ensures r.Some? ==> forall k: nat :: from <= k < r.value ==> !OccursAt(s, sub, k)
    ensures r.None? ==> forall k: nat :: from <= k ==> !OccursAt(s, sub, k)
    decreases |s| - from
  {
    if from + |sub| > |s| then None
    else if s[from..from + |sub|] == sub then Some(from)
    else IndexFrom(s, sub, from + 1)
  }

  /** `s.indexOf(sub)`, with `None` for -1. */
  function IndexOf(s: string, sub: string): (r: Option<nat>)
    ensures r.Some? ==> OccursAt(s, sub, r.value)
    ensures r.Some? ==> forall k: nat :: k < r.value ==> !OccursAt(s, sub, k)
    ensures r.None? <==> !Contains(s, sub)
  {
    IndexFrom(s, sub, 0)
  }

  // ---------------------------------------------------------------- split and join

  /** `ss.join(sep)`. */
  function Join(ss: seq<string>, sep: string): (r: string)
  {
    if ss == [] then []
    else if |ss| == 1 then ss[0]
    else ss[0] + sep + Join(ss[1..], sep)
  }

  /** `s.split(sep)` for a non-empty string separator, scanning left to right. */
  function Split(s: string, sep: string): (r: seq<string>)
    requires |sep| > 0
    ensures |r| >= 1
    decreases |s|
  {
    match IndexOf(s, sep)
    case None => [s]
    case Some(i) => [s[..i]] + Split(s[i + |sep|..], sep)
  }

  /** `split` and `join` with the same separator are inverse. */
  lemma {:induction false} JoinSplit(s: string, sep: string)
    requires |sep| > 0
    ensures Join(Split(s, sep), sep) == s
    decreases |s|
  {
    match IndexOf(s, sep)
    case None =>
    case Some(i) =>
      var rest := s[i + |sep|..];
      assert Split(s, sep) == [s[..i]] + Split(rest, sep);
      JoinCons(s[..i], Split(rest, sep), sep);
      JoinSplit(rest, sep);
      assert s[i..i + |sep|] == sep;
      assert s == s[..i] + s[i..i + |sep|] + rest;
  }

  /** The first piece of `split` is what precedes the first occurrence of `sep`. */
  lemma SplitHead(s: string, sep: string)
    requires |sep| > 0
    ensures Split(s, sep)[0] == (match IndexOf(s, sep) case None => s case Some(i) => s[..i])
  {
  }

  /** `indexOf` finds the first occurrence. */
  lemma IndexOfFirst(s: string, sub: string, i: nat)
    requires OccursAt(s, sub, i)
    requires forall k: nat :: k < i ==> !OccursAt(s, sub, k)
    ensures IndexOf(s, sub) == Some(i)
  {
    assert i <= |s|;
    assert Contains(s, sub);
  }

  /** `split` cuts where `indexOf` finds the separator. */
  lemma SplitAtIndex(s: string, sep: string, i: nat)
    requires |sep| > 0
    requires IndexOf(s, sep) == Some(i)
    ensures Split(s, sep) == [s[..i]] + Split(s[i + |sep|..], sep)
  {
  }

  /** A string without the separator splits into itself. */
  lemma SplitWithout(s: string, sep: string)
    requires |sep| > 0
    requires !Contains(s, sep)
    ensures Split(s, sep) == [s]
  {
  }

  /** Splitting on a one-character separator cuts at its first occurrence. */
  lemma SplitAtFirst(a: string, c: char, b: string)
    requires c !in a
    ensures Split(a + [c] + b, [c]) == [a] + Split(b, [c])
  {
    var s := a + [c] + b;
    forall k: nat | k < |a| ensures !OccursAt(s, [c], k) {
      assert s[k..k + 1] == [a[k]];
    }
    IndexOfFirst(s, [c], |a|);
    SplitAtIndex(s, [c], |a|);
    assert s[..|a|] == a && s[|a| + 1..] == b;
  }

  /** A doubled character does not occur in a string without that character. */
  lemma NoPairWithout(s: string, c: char)
    requires c !in s
    ensures !Contains(s, [c, c])
  {
    forall k: nat | k <= |s| ensures !OccursAt(s, [c, c], k) {
      if k + 2 <= |s| {
        assert s[k] == s[k..k + 2][0];
      }
    }
  }

  /** In `a + cc + b`, the first `cc` is the one after `a` when `a` has none and does not end in `c`. */
  lemma IndexOfDoubled(a: string, c: char, b: string)
    requires !Contains(a, [c, c])
    requires a == [] || a[|a| - 1] != c
    ensures IndexOf(a + [c, c] + b, [c, c]) == Some(|a|)
  {
    var s := a + [c, c] + b;
    var n := |a|;
    assert s[n..n + 2] == [c, c];
    forall k: nat | k < n ensures !OccursAt(s, [c, c], k) {
      if k + 1 < n {
        assert s[k..k + 2] == a[k..k + 2];
        assert !OccursAt(a, [c, c], k);
      } else {
        assert s[k..k + 2][0] == a[k];
      }
    }
    IndexOfFirst(s, [c, c], n);
  }

  /** A string without the one-character separator splits into itself. */
  lemma SplitNoSeparator(s: string, c: char)
    requires c !in s
    ensures Split(s, [c]) == [s]
  {
    forall k: nat | k + 1 <= |s| ensures !OccursAt(s, [c], k) {
      assert s[k..k + 1] == [s[k]];
    }
    SplitWithout(s, [c]);
  }

  /** Joining pieces without the one-character separator and splitting again gives the pieces back. */
  lemma {:induction false} SplitJoinChar(ss: seq<string>, c: char)
    requires |ss| > 0
    requires forall i :: 0 <= i < |ss| ==> c !in ss[i]
    ensures Split(Join(ss, [c]), [c]) == ss
  {
    if |ss| == 1 {
      SplitNoSeparator(ss[0], c);
    } else {
      SplitJoinChar(ss[1..], c);
      SplitAtFirst(ss[0], c, Join(ss[1..], [c]));
      assert ss == [ss[0]] + ss[1..];
    }
  }

  /** End of the maximal run of `cls` characters starting at the front of `s`. */
  function RunEnd(s: string, cls: char -> bool): (n: nat)
    ensures n <= |s|
    ensures forall k :: 0 <= k < n ==> cls(s[k])
    ensures n < |s| ==> !cls(s[n])
  {
    if s == [] || !cls(s[0]) then 0 else RunEnd(s[1..], cls) + 1
  }

  /** Index of the first `cls` character, or `|s|`. */
  function FirstIn(s: string, cls: char -> bool): (n: nat)
    ensures n <= |s|
    ensures forall k :: 0 <= k < n ==> !cls(s[k])
    ensures n < |s| ==> cls(s[n])
  {
    if s == [] || cls(s[0]) then 0 else FirstIn(s[1..], cls) + 1
  }

  predicate NoneIn(s: string, cls: char -> bool) {
    forall k :: 0 <= k < |s| ==> !cls(s[k])
  }

  /**
    `s.split(/c+/)` for a character class `c`: the pieces between maximal runs of
    class characters, including an empty first or last piece when `s` starts or
    ends with a run.
   */
  function SplitRuns(s: string, cls: char -> bool): (r: seq<string>)
    ensures |r| >= 1
    decreases |s|
  {
    var i := FirstIn(s, cls);
    if i == |s| then [s]
    else [s[..i]] + SplitRuns(AfterRun(s, cls), cls)
  }

  /** What follows the first run of `cls` characters. */
  function AfterRun(s: string, cls: char -> bool): (t: string)
    requires FirstIn(s, cls) < |s|
    ensures |t| < |s|
  {
    var i := FirstIn(s, cls);
    s[i + RunEnd(s[i..], cls)..]
  }

  /**
    The pieces contain no class character and only the first and the last can be
    empty; the first is empty exactly when `s` starts with a class character.
   */
  lemma {:induction false} SplitRunsPieces(s: string, cls: char -> bool)
    ensures RunPieces(SplitRuns(s, cls), cls)
    ensures SplitRuns(s, cls)[0] == [] <==> (s != [] && cls(s[0])) || s == []
    decreases |s|
  {
    var i := FirstIn(s, cls);
    if i < |s| {
      var j := i + RunEnd(s[i..], cls);
      assert AfterRun(s, cls) == s[j..];
      SplitRunsPieces(s[j..], cls);
      var r := SplitRuns(s, cls);
      assert r[1..] == SplitRuns(s[j..], cls);
      assert NoneIn(r[0], cls);
      if |r| > 2 {
        assert j < |s| && !cls(s[j]);
        assert r[1] != [];
      }
    }
  }

  lemma JoinCons(x: string, rest: seq<string>, sep: string)
    requires |rest| >= 1
    ensures Join([x] + rest, sep) == x + sep + Join(rest, sep)
  {
    assert ([x] + rest)[1..] == rest;
  }

  /** Pieces that `SplitRuns` can produce: free of the class, empty only at the ends. */
  predicate RunPieces(ws: seq<string>, cls: char -> bool) {
    && |ws| >= 1
    && (forall k :: 0 <= k < |ws| ==> NoneIn(ws[k], cls))
    && (forall k :: 0 < k < |ws| - 1 ==> ws[k] != [])
  }

  /** Joining pieces with a class character and splitting at class runs gives them back. */
  lemma {:induction false} SplitRunsJoin(ws: seq<string>, cls: char -> bool, rep: char)
    requires RunPieces(ws, cls) && cls(rep)
    ensures SplitRuns(Join(ws, [rep]), cls) == ws
  {
    if |ws| == 1 {
      SplitRunsNoClass(ws[0], cls);
    } else {
      var rest := Join(ws[1..], [rep]);
      assert Join(ws, [rep]) == ws[0] + [rep] + rest;
      RunPiecesTail(ws, cls, rep);
      SplitRunsJoin(ws[1..], cls, rep);
      SplitRunsOneSeparator(ws[0], rest, cls, rep);
      assert [ws[0]] + ws[1..] == ws;
    }
  }

  /** The pieces after the first are pieces too, and their join does not start with a class character. */
  lemma RunPiecesTail(ws: seq<string>, cls: char -> bool, rep: char)
    requires RunPieces(ws, cls) && |ws| > 1
    ensures RunPieces(ws[1..], cls) && NoneIn(ws[0], cls)
    ensures var rest := Join(ws[1..], [rep]); rest == [] || !cls(rest[0])
  {
    assert NoneIn(ws[1], cls);
    if |ws| > 2 {
      JoinHead(ws[1..], [rep]);
    }
  }

  lemma SplitRunsNoClass(a: string, cls: char -> bool)
    requires NoneIn(a, cls)
    ensures SplitRuns(a, cls) == [a]
  {
    assert FirstIn(a, cls) == |a|;
  }

  lemma SplitRunsOneSeparator(a: string, b: string, cls: char -> bool, rep: char)
    requires NoneIn(a, cls) && cls(rep)
    requires b == [] || !cls(b[0])
    ensures SplitRuns(a + [rep] + b, cls) == [a] + SplitRuns(b, cls)
  {
    var s := a + [rep] + b;
    FirstInNoClass(a, [rep] + b, cls);
    assert s == a + ([rep] + b);
    var i := |a|;
    assert s[i..] == [rep] + b;
    assert RunEnd([rep] + b, cls) == 1 by {
      assert ([rep] + b)[1..] == b;
    }
    assert AfterRun(s, cls) == b;
    assert s[..i] == a;
  }

  lemma {:induction false} FirstInNoClass(a: string, b: string, cls: char -> bool)
    requires NoneIn(a, cls)
    ensures FirstIn(a + b, cls) == |a| + FirstIn(b, cls)
  {
    if a != [] {
      assert (a + b)[1..] == a[1..] + b;
      FirstInNoClass(a[1..], b, cls);
    } else {
      assert a + b == b;
    }
  }

  /** A join whose first piece is non-empty starts with that piece's first character. */
  lemma JoinHead(ws: seq<string>, sep: string)
    requires |ws| >= 1 && ws[0] != []
    ensures Join(ws, sep) != [] && Join(ws, sep)[0] == ws[0][0]
  {
  }

  /** Replace every maximal run of `cls` characters by the single character `rep`. */
  function ReplaceRuns(s: string, cls: char -> bool, rep: char): (r: string)
  {
    Join(SplitRuns(s, cls), [rep])
  }

  /** `c` never occurs twice in a row in `s`. */
  predicate NoDoubled(s: string, c: char) {
    forall i :: 0 <= i < |s| - 1 ==> !(s[i] == c && s[i + 1] == c)
  }

  /** Every character of a join of class-free pieces is the separator or outside the class. */
  lemma {:induction false} JoinChars(ws: seq<string>, cls: char -> bool, rep: char)
    requires forall k :: 0 <= k < |ws| ==> NoneIn(ws[k], cls)
    ensures forall i :: 0 <= i < |Join(ws, [rep])| ==> Join(ws, [rep])[i] == rep || !cls(Join(ws, [rep])[i])
  {
    if |ws| > 1 {
      JoinChars(ws[1..], cls, rep);
      assert NoneIn(ws[0], cls);
      var t := Join(ws[1..], [rep]);
      assert Join(ws, [rep]) == ws[0] + [rep] + t;
      forall i | 0 <= i < |Join(ws, [rep])| ensures Join(ws, [rep])[i] == rep || !cls(Join(ws, [rep])[i]) {
        if i > |ws[0]| {
          assert Join(ws, [rep])[i] == t[i - |ws[0]| - 1];
        }
      }
    } else if |ws| == 1 {
      assert NoneIn(ws[0], cls);
    }
  }

  /** A join of `SplitRuns`-like pieces with a class character never doubles it. */
  lemma {:induction false} JoinNoDoubled(ws: seq<string>, cls: char -> bool, rep: char)
    requires RunPieces(ws, cls) && cls(rep)
    ensures NoDoubled(Join(ws, [rep]), rep)
  {
    if |ws| > 1 {
      assert RunPieces(ws[1..], cls);
      JoinNoDoubled(ws[1..], cls, rep);
      var a, t := ws[0], Join(ws[1..], [rep]);
      assert NoneIn(a, cls);
      assert t == [] || t[0] != rep by {
        if |ws| > 2 {
          assert ws[1] != [] && NoneIn(ws[1], cls);
          JoinHead(ws[1..], [rep]);
        } else {
          assert t == ws[1];
          assert NoneIn(ws[1], cls);
        }
      }
      NoDoubledConcat(a, t, rep, cls);
    }
  }

  lemma NoDoubledConcat(a: string, t: string, rep: char, cls: char -> bool)
    requires NoneIn(a, cls) && cls(rep) && NoDoubled(t, rep) && (t == [] || t[0] != rep)
    ensures NoDoubled(a + [rep] + t, rep)
  {
    var s := a + [rep] + t;
    forall i | 0 <= i < |s| - 1 ensures !(s[i] == rep && s[i + 1] == rep) {
      if i < |a| {
        assert s[i] == a[i];
      } else if i > |a| {
        assert s[i] == t[i - |a| - 1] && s[i + 1] == t[i - |a|];
      }
    }
  }

  /** A string whose class characters are single copies of `rep` is its own replacement. */
  lemma {:induction false} ReplaceRunsFixed(s: string, cls: char -> bool, rep: char)
    requires forall k :: 0 <= k < |s| ==> cls(s[k]) ==> s[k] == rep
    requires NoDoubled(s, rep)
    ensures ReplaceRuns(s, cls, rep) == s
    decreases |s|
  {
    var i := FirstIn(s, cls);
    if i == |s| {
      SplitRunsNoClass(s, cls);
    } else {
      var t := s[i + 1..];
      assert RunEnd(s[i..], cls) == 1 by {
        assert s[i..][0] == rep;
        if i + 1 < |s| {
          assert s[i..][1] == s[i + 1];
          assert s[i + 1] != rep;
        }
      }
      assert AfterRun(s, cls) == t;
      ReplaceRunsFixed(t, cls, rep);
      JoinCons(s[..i], SplitRuns(t, cls), [rep]);
      assert s == s[..i] + [rep] + t;
    }
  }

  /** `s.toLowerCase().replace(/\s+/g, "-")`: lower-case, each white-space run becomes one hyphen. */
  function HyphenateSpaces(s: string): (r: string)
    ensures forall k :: 0 <= k < |r| ==> !IsJsSpace(r[k])
  {
    SplitRunsPieces(Lower(s), IsJsSpace);
    JoinChars(SplitRuns(Lower(s), IsJsSpace), IsJsSpace, '-');
    ReplaceRuns(Lower(s), IsJsSpace, '-')
  }

  /** The pieces of `SplitRuns` are pieces of `s`: a character `s` lacks, they lack too. */
  lemma {:induction false} SplitRunsLacks(s: string, cls: char -> bool, c: char)
    requires forall k :: 0 <= k < |s| ==> s[k] != c
    ensures forall p :: 0 <= p < |SplitRuns(s, cls)| ==> NoneIn(SplitRuns(s, cls)[p], Is(c))
    decreases |s|
  {
    var i := FirstIn(s, cls);
    if i < |s| {
      SplitRunsLacks(AfterRun(s, cls), cls, c);
    }
  }

  function Is(c: char): char -> bool {
    (d: char) => d == c
  }

  /** Hyphenating white space brings in no character other than `-`. */
  lemma HyphenateSpacesLacks(s: string, c: char)
    requires c != '-' && !IsAsciiUpper(c) && !IsAsciiLower(c)
    requires forall k :: 0 <= k < |s| ==> s[k] != c
    ensures forall k :: 0 <= k < |HyphenateSpaces(s)| ==> HyphenateSpaces(s)[k] != c
  {
    SplitRunsLacks(Lower(s), IsJsSpace, c);
    JoinChars(SplitRuns(Lower(s), IsJsSpace), Is(c), '-');
  }

  /** A string with no `_` contains no `"__"`. */
  lemma NoUnderscorePair(s: string)
    requires forall k :: 0 <= k < |s| ==> s[k] != '_'
    ensures !Contains(s, "__")
  {
    forall i: nat | i <= |s| ensures !OccursAt(s, "__", i) {
      if i + 2 <= |s| {
        assert s[i..i + 2][0] == s[i];
      }
    }
  }

  /** `a || b` on strings: `a` unless it is empty. */
  function OrElse(a: string, b: string): (r: string)
    ensures r == [] ==> a == [] && b == []
  {
    if a != [] then a else b
  }

  // ---------------------------------------------------------------- order

  /**
    Strict lexicographic order on code points: the order of `sort()` on strings
    of characters below U+D800, and the stand-in for `localeCompare`, which
    orders strings by locale collation instead (it puts "a" before "B").
   */
  predicate LexLess(a: string, b: string) {
    if a == [] then b != []
    else if b == [] then false
    else if a[0] != b[0] then a[0] < b[0]
    else LexLess(a[1..], b[1..])
  }

  /** `a.localeCompare(b)` as -1, 0 or 1, approximated by `LexLess`. */
  function LexCmp(a: string, b: string): (r: real)
    ensures r == 0.0 <==> a == b
    ensures r < 0.0 <==> LexLess(a, b)
    ensures r > 0.0 <==> LexLess(b, a)
  {
    LexTrichotomy(a, b);
    if LexLess(a, b) then -1.0 else if a == b then 0.0 else 1.0
  }

  lemma {:induction false} LexIrreflexive(a: string)
    ensures !LexLess(a, a)
  {
    if a != [] { LexIrreflexive(a[1..]); }
  }

  lemma {:induction false} LexTrichotomy(a: string, b: string)
    ensures a == b || LexLess(a, b) || LexLess(b, a)
    ensures !(LexLess(a, b) && LexLess(b, a))
    ensures a == b ==> !LexLess(a, b)
  {
    if a == b {
      LexIrreflexive(a);
    } else if a != [] && b != [] && a[0] == b[0] {
      LexTrichotomy(a[1..], b[1..]);
      assert a == [a[0]] + a[1..] && b == [b[0]] + b[1..];
    }
  }

  lemma {:induction false} LexTransitive(a: string, b: string, c: string)
    requires LexLess(a, b) && LexLess(b, c)
    ensures LexLess(a, c)
  {
    if a != [] && a[0] == b[0] && b[0] == c[0] {
      LexTransitive(a[1..], b[1..], c[1..]);
    }
  }
}
