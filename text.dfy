/**
  Python `str` operations the library relies on, with Python's exact semantics:
  `in`, `str.replace` (left-to-right, non-overlapping, single pass), `str.split`
  on a one-character separator, `sep.join`, `str.rfind`, slicing with negative
  indices, `str(int)` and `int(str)` for decimal text, and ASCII `str.lower`.
 */
module Text {
  import opened Wrappers

  /** `p` occurs in `s` starting at index `i`. */
  predicate OccursAt(s: string, p: string, i: int) {
    0 <= i && i + |p| <= |s| && s[i..i + |p|] == p
  }

  /** Python's `p in s` for strings. */
  predicate Contains(s: string, p: string) {
    exists i | 0 <= i <= |s| - |p| :: OccursAt(s, p, i)
  }

  // ---------------------------------------------------------------------------
  // str.replace

  /** Python's `s.replace(pat, rep)`: every match found scanning left to right is
      replaced, matches do not overlap, and replaced text is not scanned again. */
  function Replace(s: string, pat: string, rep: string): (r: string)
    requires |pat| > 0
    ensures !Contains(s, pat) ==> r == s
    decreases |s|
  {
    if |s| < |pat| then s
    else if s[..|pat|] == pat then
      assert OccursAt(s, pat, 0);
      rep + Replace(s[|pat|..], pat, rep)
    else
      ContainsTail(s, pat);
      [s[0]] + Replace(s[1..], pat, rep)
  }

  /** An occurrence in the tail of a text is an occurrence in the text. */
  lemma ContainsTail(s: string, p: string)
    requires |s| > 0
    ensures Contains(s[1..], p) ==> Contains(s, p)
  {
    if Contains(s[1..], p) {
      var i :| 0 <= i <= |s[1..]| - |p| && OccursAt(s[1..], p, i);
      assert s[i + 1..i + 1 + |p|] == s[1..][i..i + |p|];
      assert OccursAt(s, p, i + 1);
    }
  }

  /** Before the first character that comes from `rep`, the output of `Replace`
      is a copy of its input. */
  lemma {:induction false} ReplaceKeepsPrefix(t: string, pat: string, rep: string, j: nat)
    requires |pat| > 0 && |rep| > 0
    requires j <= |Replace(t, pat, rep)|
    requires forall q :: 0 <= q < j ==> Replace(t, pat, rep)[q] !in rep
    ensures j <= |t| && Replace(t, pat, rep)[..j] == t[..j]
    decreases |t|
  {
    var r := Replace(t, pat, rep);
    if |t| < |pat| {
    } else if t[..|pat|] == pat {
      assert r[0] == rep[0];
    } else if j > 0 {
      var rest := Replace(t[1..], pat, rep);
      assert r == [t[0]] + rest;
      forall q | 0 <= q < j - 1 ensures rest[q] !in rep {
        assert rest[q] == r[q + 1];
      }
      ReplaceKeepsPrefix(t[1..], pat, rep, j - 1);
      assert r[..j] == [t[0]] + rest[..j - 1];
    }
  }

  /** An occurrence of `pat` cannot start inside a prefix made of characters
      that `pat` does not begin with. */
  lemma {:induction false} PrefixBlocksOccurrence(rep: string, rest: string, pat: string)
    requires |pat| > 0 && pat[0] !in rep
    requires !Contains(rest, pat)
    ensures !Contains(rep + rest, pat)
  {
    var r := rep + rest;
    var k := |pat|;
    forall i | 0 <= i <= |r| - k ensures !OccursAt(r, pat, i) {
      if i < |rep| {
        assert r[i] == rep[i] != pat[0];
      } else {
        assert rest[i - |rep|..i - |rep| + k] == r[i..i + k];
        assert !OccursAt(rest, pat, i - |rep|);
      }
    }
  }

  /** When no character of `pat` can be produced by `rep`, a replacement leaves
      no occurrence of `pat` behind (so, for instance, no `<br/>` survives its
      replacement by a newline). */
  lemma {:induction false} ReplaceRemovesAll(s: string, pat: string, rep: string)
    requires |pat| > 0 && |rep| > 0
    requires forall c :: c in pat ==> c !in rep
    ensures !Contains(Replace(s, pat, rep), pat)
    decreases |s|
  {
    var k := |pat|;
    if |s| < k {
    } else if s[..k] == pat {
      ReplaceRemovesAll(s[k..], pat, rep);
      assert pat[0] in pat;
      PrefixBlocksOccurrence(rep, Replace(s[k..], pat, rep), pat);
    } else {
      ReplaceRemovesAll(s[1..], pat, rep);
      FirstCharBlocksOccurrence(s, pat, rep);
    }
  }

  /** The step of `ReplaceRemovesAll` where the text does not start with `pat`. */
  lemma {:induction false} FirstCharBlocksOccurrence(s: string, pat: string, rep: string)
    requires |pat| > 0 && |rep| > 0
    requires forall c :: c in pat ==> c !in rep
    requires |s| >= |pat| && s[..|pat|] != pat
    requires !Contains(Replace(s[1..], pat, rep), pat)
    ensures !Contains(Replace(s, pat, rep), pat)
  {
    var k := |pat|;
    var rest := Replace(s[1..], pat, rep);
    var r := Replace(s, pat, rep);
    assert r == [s[0]] + rest;
    HeadNoOccurrence(s, pat, rep);
    ConsBlocksOccurrence(s[0], rest, pat);
  }

  /** An occurrence in `[c] + rest` that does not start at index 0 is an occurrence in `rest`. */
  lemma {:induction false} ConsBlocksOccurrence(c: char, rest: string, pat: string)
    requires |pat| > 0
    requires !Contains(rest, pat)
    requires !OccursAt([c] + rest, pat, 0)
    ensures !Contains([c] + rest, pat)
  {
    var r := [c] + rest;
    var k := |pat|;
    forall i | 1 <= i <= |r| - k ensures !OccursAt(r, pat, i) {
      assert rest[i - 1..i - 1 + k] == r[i..i + k];
      assert !OccursAt(rest, pat, i - 1);
    }
  }

  /** A replacement applied to a text that does not begin with `pat` produces an
      output that does not begin with `pat` either. */
  lemma {:induction false} HeadNoOccurrence(s: string, pat: string, rep: string)
    requires |pat| > 0 && |rep| > 0
    requires forall c :: c in pat ==> c !in rep
    requires |s| >= |pat| && s[..|pat|] != pat
    ensures !OccursAt(Replace(s, pat, rep), pat, 0)
  {
    var k := |pat|;
    var rest := Replace(s[1..], pat, rep);
    var r := Replace(s, pat, rep);
    ReplaceCopiesHead(s, pat, rep);
    if k <= |r| {
      if q :| 0 <= q < k - 1 && q < |rest| && rest[q] in rep {
        assert r[q + 1] == rest[q];
        RepCharBlocksHead(r, pat, rep, q + 1);
      } else {
        ReplaceKeepsPrefix(s[1..], pat, rep, k - 1);
        CopiedHeadBlocks(s, rest, r, pat);
      }
    }
  }

  /** A text that does not begin with `pat` keeps its first character. */
  lemma ReplaceCopiesHead(s: string, pat: string, rep: string)
    requires |pat| > 0 && |s| >= |pat| && s[..|pat|] != pat
    ensures Replace(s, pat, rep) == [s[0]] + Replace(s[1..], pat, rep)
  {
  }

  /** A character of `rep` within the first |pat| characters rules out `pat` at 0. */
  lemma RepCharBlocksHead(r: string, pat: string, rep: string, i: nat)
    requires i < |pat| <= |r| && r[i] in rep
    requires forall c :: c in pat ==> c !in rep
    ensures !OccursAt(r, pat, 0)
  {
    assert pat[i] in pat;
    assert r[..|pat|][i] == r[i];
  }

  /** A head copied from a text that does not begin with `pat` does not begin with it. */
  lemma CopiedHeadBlocks(s: string, rest: string, r: string, pat: string)
    requires 0 < |pat| <= |s| && s[..|pat|] != pat
    requires r == [s[0]] + rest
    requires |pat| - 1 <= |rest| && rest[..|pat| - 1] == s[1..][..|pat| - 1]
    ensures !OccursAt(r, pat, 0)
  {
    var k := |pat|;
    assert s[..k] == [s[0]] + s[1..][..k - 1];
    assert r[..k] == [s[0]] + rest[..k - 1];
  }

  // ---------------------------------------------------------------------------
  // str.split / str.join

  /** Python's `s.split(sep)` for a one-character separator. */
  function Split(s: string, sep: char): (parts: seq<string>)
    ensures |parts| >= 1
    ensures forall k :: 0 <= k < |parts| ==> sep !in parts[k]
    decreases |s|
  {
    if |s| == 0 then [""]
    else
      var rest := Split(s[1..], sep);
      if s[0] == sep then [""] + rest
      else [[s[0]] + rest[0]] + rest[1..]
  }

  /** Python's `sep.join(parts)`. */
  function Join(parts: seq<string>, sep: string): string
  {
    if |parts| == 0 then ""
    else if |parts| == 1 then parts[0]
    else parts[0] + sep + Join(parts[1..], sep)
  }

  /** Joining the pieces of a split with the same separator gives back the text. */
  lemma {:induction false} JoinSplit(s: string, sep: char)
    ensures Join(Split(s, sep), [sep]) == s
    decreases |s|
  {
    if |s| > 0 {
      var rest := Split(s[1..], sep);
      JoinSplit(s[1..], sep);
      if s[0] == sep {
        assert Split(s, sep) == [""] + rest;
        assert s == [sep] + s[1..];
      } else {
        var parts := Split(s, sep);
        assert parts == [[s[0]] + rest[0]] + rest[1..];
        if |rest| == 1 {
          assert s == [s[0]] + rest[0];
        } else {
          assert rest == [rest[0]] + rest[1..];
          assert Join(rest, [sep]) == rest[0] + [sep] + Join(rest[1..], [sep]);
          assert parts[1..] == rest[1..];
        }
      }
    }
  }

  /** Splitting a join of separator-free pieces gives back the pieces. */
  lemma {:induction false} SplitJoin(parts: seq<string>, sep: char)
    requires |parts| >= 1
    requires forall k :: 0 <= k < |parts| ==> sep !in parts[k]
    ensures Split(Join(parts, [sep]), sep) == parts
    decreases |parts|, |parts[0]|
  {
    var p := parts[0];
    if |p| > 0 {
      SplitJoin([p[1..]] + parts[1..], sep);
      SplitJoinHeadChar(parts, sep);
    } else if |parts| > 1 {
      SplitJoin(parts[1..], sep);
      SplitJoinEmptyHead(parts, sep);
    }
  }

  /** The step of `SplitJoin` that moves the first character of a non-empty
      first part. */
  lemma SplitJoinHeadChar(parts: seq<string>, sep: char)
    requires |parts| >= 1 && |parts[0]| > 0 && sep !in parts[0]
    requires Split(Join([parts[0][1..]] + parts[1..], [sep]), sep) == [parts[0][1..]] + parts[1..]
    ensures Split(Join(parts, [sep]), sep) == parts
  {
    var j := Join(parts, [sep]);
    JoinHeadChar(parts, sep);
    assert parts[0][0] in parts[0];
    SplitPlainHead(j, sep);
    ConsRebuild(parts, Split(j[1..], sep));
  }

  /** A text that does not start with the separator: its first character
      joins the first piece of the rest. */
  lemma SplitPlainHead(s: string, sep: char)
    requires |s| > 0 && s[0] != sep
    ensures Split(s, sep) == [[s[0]] + Split(s[1..], sep)[0]] + Split(s[1..], sep)[1..]
  {
  }

  /** Putting the first character back on the first part rebuilds the parts. */
  lemma ConsRebuild(parts: seq<string>, rest: seq<string>)
    requires |parts| >= 1 && |parts[0]| > 0 && rest == [parts[0][1..]] + parts[1..]
    ensures [[parts[0][0]] + rest[0]] + rest[1..] == parts
  {
    assert [parts[0][0]] + rest[0] == parts[0];
    assert rest[1..] == parts[1..];
  }

  /** The step of `SplitJoin` that drops an empty first part. */
  lemma SplitJoinEmptyHead(parts: seq<string>, sep: char)
    requires |parts| > 1 && parts[0] == ""
    requires Split(Join(parts[1..], [sep]), sep) == parts[1..]
    ensures Split(Join(parts, [sep]), sep) == parts
  {
    var j := Join(parts, [sep]);
    assert j == [sep] + Join(parts[1..], [sep]);
    assert j[1..] == Join(parts[1..], [sep]);
    assert parts == [""] + parts[1..];
  }

  /** Joining parts whose first part is not empty starts with that part's
      first character, followed by the join with it removed. */
  lemma JoinHeadChar(parts: seq<string>, sep: char)
    requires |parts| >= 1 && |parts[0]| > 0
    ensures var j := Join(parts, [sep]);
            |j| > 0 && j[0] == parts[0][0] && j[1..] == Join([parts[0][1..]] + parts[1..], [sep])
  {
    var p := parts[0];
    var parts' := [p[1..]] + parts[1..];
    if |parts| > 1 {
      assert parts'[1..] == parts[1..];
      assert (p + [sep] + Join(parts[1..], [sep]))[1..] == p[1..] + [sep] + Join(parts[1..], [sep]);
    }
  }

  /** A separator-free head is split off as one piece. */
  lemma {:induction false} SplitAfterHead(x: string, y: string, sep: char)
    requires sep !in x
    ensures Split(x + [sep] + y, sep) == [x] + Split(y, sep)
    decreases |x|
  {
    var s := x + [sep] + y;
    if |x| == 0 {
      assert s[0] == sep && s[1..] == y;
    } else {
      assert s[0] == x[0] && s[1..] == x[1..] + [sep] + y;
      SplitAfterHead(x[1..], y, sep);
      assert [x[0]] + x[1..] == x;
    }
  }

  /** A separator-free string splits into itself. */
  lemma SplitWhole(x: string, sep: char)
    requires sep !in x
    ensures Split(x, sep) == [x]
  {
    SplitJoin([x], sep);
  }

  /** Number of occurrences of a character (Python's `s.count(c)`). */
  function CountChar(s: string, c: char): nat
  {
    if |s| == 0 then 0 else (if s[0] == c then 1 else 0) + CountChar(s[1..], c)
  }

  /** A one-character split yields one more piece than there are separators. */
  lemma {:induction false} SplitCount(s: string, sep: char)
    ensures |Split(s, sep)| == CountChar(s, sep) + 1
    decreases |s|
  {
    if |s| > 0 {
      SplitCount(s[1..], sep);
    }
  }

  lemma {:induction false} CountCharAbsent(s: string, c: char)
    requires c !in s
    ensures CountChar(s, c) == 0
    decreases |s|
  {
    if |s| > 0 {
      CountCharAbsent(s[1..], c);
    }
  }

  lemma {:induction false} CountCharAppend(a: string, b: string, c: char)
    ensures CountChar(a + b, c) == CountChar(a, c) + CountChar(b, c)
    decreases |a|
  {
    if |a| > 0 {
      assert (a + b)[0] == a[0];
      assert (a + b)[1..] == a[1..] + b;
      CountCharAppend(a[1..], b, c);
    } else {
      assert a + b == b;
    }
  }

  // ---------------------------------------------------------------------------
  // str.rfind and slicing

  /** Python's `s.rfind(p)` for a non-empty `p`: the last index where `p` starts, or -1. */
  function RFind(s: string, p: string): (r: int)
    requires |p| > 0
    ensures -1 <= r <= |s| - |p| || r == -1
    ensures r >= 0 ==> OccursAt(s, p, r)
    ensures forall j :: r < j <= |s| - |p| ==> !OccursAt(s, p, j)
  {
    RFindFrom(s, p, |s| - |p|)
  }

  function RFindFrom(s: string, p: string, i: int): (r: int)
    requires |p| > 0 && i <= |s| - |p|
    ensures r == -1 || 0 <= r <= i
    ensures r >= 0 ==> OccursAt(s, p, r)
    ensures forall j :: r < j <= i ==> !OccursAt(s, p, j)
    decreases i + 1
  {
    if i < 0 then -1
    else if s[i..i + |p|] == p then i
    else RFindFrom(s, p, i - 1)
  }

  /** Python's normalisation of one slice bound against a length. */
  function SliceBound(x: int, n: nat): (b: nat)
    ensures b <= n
  {
    if x < 0 then (if x + n < 0 then 0 else x + n)
    else if x > n then n else x
  }

  /** Python's `s[start:stop]`. */
  function PySlice(s: string, start: int, stop: int): (r: string)
    ensures |r| <= |s|
  {
    var a := SliceBound(start, |s|);
    var b := SliceBound(stop, |s|);
    if a < b then s[a..b] else ""
  }

  /** A slice whose bounds are inside the text is the plain subsequence. */
  lemma PySliceWithin(s: string, i: int, j: int)
    requires 0 <= i < j <= |s|
    ensures PySlice(s, i, j) == s[i..j]
  {
  }

  // ---------------------------------------------------------------------------
  // str(int) and int(str)

  predicate IsDigit(c: char) {
    '0' <= c <= '9'
  }

  function DigitChar(d: nat): (c: char)
    requires d < 10
    ensures IsDigit(c)
  {
    (d + 48) as char
  }

  function DigitValue(c: char): nat
    requires IsDigit(c)
  {
    (c as int) - 48
  }

  /** Decimal digits of a natural number, most significant first. */
  function Digits(n: nat): (ds: string)
    ensures |ds| >= 1 && forall k :: 0 <= k < |ds| ==> IsDigit(ds[k])
  {
    if n < 10 then [DigitChar(n)] else Digits(n / 10) + [DigitChar(n % 10)]
  }

  /** Python's `str(n)` for an int. */
  function IntToString(n: int): string
  {
    if n < 0 then "-" + Digits(-n) else Digits(n)
  }

  /** Value of a non-empty run of decimal digits. */
  function DigitsValue(s: string): nat
    requires forall k :: 0 <= k < |s| ==> IsDigit(s[k])
  {
    if |s| == 0 then 0 else DigitsValue(s[..|s| - 1]) * 10 + DigitValue(s[|s| - 1])
  }

  predicate AllDigits(s: string) {
    |s| >= 1 && forall k :: 0 <= k < |s| ==> IsDigit(s[k])
  }

  /** Python's `int(s)` for decimal text with an optional sign (None stands for
      the ValueError Python raises). */
  function ParseInt(s: string): Option<int>
  {
    if |s| >= 1 && (s[0] == '-' || s[0] == '+') then
      (if AllDigits(s[1..]) then
         var v: int := DigitsValue(s[1..]);
         Some(if s[0] == '-' then -v else v)
       else None)
    else if AllDigits(s) then Some(DigitsValue(s))
    else None
  }

  lemma {:induction false} DigitsRoundTrip(n: nat)
    ensures DigitsValue(Digits(n)) == n
  {
    if n >= 10 {
      DigitsRoundTrip(n / 10);
      var ds := Digits(n / 10) + [DigitChar(n % 10)];
      assert ds[..|ds| - 1] == Digits(n / 10);
    }
  }

  /** `int(str(n)) == n` for every int, negative ones included. */
  lemma IntRoundTrip(n: int)
    ensures ParseInt(IntToString(n)) == Some(n)
  {
    if n < 0 {
      DigitsRoundTrip(-n);
      assert IntToString(n)[1..] == Digits(-n);
    } else {
      DigitsRoundTrip(n);
    }
  }

  /** The decimal text of an int contains neither `_` nor `,`. */
  lemma IntTextHasNoSeparator(n: int, c: char)
    requires c == '_' || c == ','
    ensures c !in IntToString(n)
  {
    var ds := if n < 0 then Digits(-n) else Digits(n);
    var t := IntToString(n);
    assert t == if n < 0 then "-" + ds else ds;
    forall k | 0 <= k < |t| ensures t[k] != c {
      if n < 0 && k > 0 {
        assert t[k] == ds[k - 1];
      }
    }
  }

  // ---------------------------------------------------------------------------
  // str.lower and str.endswith

  /** Lower-casing of one character: ASCII capitals only. */
  function LowerChar(c: char): char {
    if 'A' <= c <= 'Z' then (c as int + 32) as char else c
  }

  /** A string lacking one of the characters of `p` does not contain `p`. */
  lemma MissingCharNotContained(s: string, p: string, c: char)
    requires c in p && c !in s
    ensures !Contains(s, p)
  {
    forall i | 0 <= i <= |s| - |p| ensures !OccursAt(s, p, i) {
      var j :| 0 <= j < |p| && p[j] == c;
      assert s[i + j] != c;
    }
  }

  /** `str.lower()` on ASCII letters; other characters are unchanged. */
  function Lower(s: string): (r: string)
    ensures |r| == |s|
    ensures forall i :: 0 <= i < |s| ==> r[i] == LowerChar(s[i])
  {
    if |s| == 0 then ""
    else [LowerChar(s[0])] + Lower(s[1..])
  }

  /** Lower-casing leaves a string without capitals unchanged. */
  lemma LowerNoCapitals(s: string)
    requires forall i :: 0 <= i < |s| ==> !('A' <= s[i] <= 'Z')
    ensures Lower(s) == s
  {
  }

  predicate EndsWith(s: string, suffix: string) {
    |suffix| <= |s| && s[|s| - |suffix|..] == suffix
  }

  predicate StartsWith(s: string, prefix: string) {
    |prefix| <= |s| && s[..|prefix|] == prefix
  }

  /** A prefix holding no first character of the pattern passes through a
      replacement untouched. */
  lemma {:induction false} ReplaceSkips(x: string, y: string, pat: string, rep: string)
    requires |pat| > 0
    requires forall k :: 0 <= k < |x| ==> x[k] != pat[0]
    ensures Replace(x + y, pat, rep) == x + Replace(y, pat, rep)
    decreases |x|
  {
    if |x| == 0 {
      assert x + y == y;
    } else {
      var s := x + y;
      var t := x[1..] + y;
      ConsAppend(x, y);
      if |s| < |pat| {
        assert Replace(y, pat, rep) == y;
      } else {
        assert s[..|pat|][0] == x[0];
        ReplaceCopiesHead(s, pat, rep);
        assert s[1..] == t;
        ReplaceSkips(x[1..], y, pat, rep);
        ConsAppend(x, Replace(y, pat, rep));
      }
    }
  }

  /** A text that begins with `pat` has that match replaced first. */
  lemma ReplaceAtHead(pat: string, rest: string, rep: string)
    requires |pat| > 0
    ensures Replace(pat + rest, pat, rep) == rep + Replace(rest, pat, rep)
  {
    var s := pat + rest;
    assert s[..|pat|] == pat;
    assert s[|pat|..] == rest;
  }

  /** Replacing `pat` in a join with `pat` of parts that hold no first
      character of `pat` swaps the separator: the parts stay, and each `pat`
      between them becomes `rep`. */
  lemma {:induction false} ReplaceJoin(parts: seq<string>, pat: string, rep: string)
    requires |pat| > 0
    requires forall k :: 0 <= k < |parts| ==> pat[0] !in parts[k]
    ensures Replace(Join(parts, pat), pat, rep) == Join(parts, rep)
    decreases |parts|
  {
    if |parts| == 1 {
      ReplaceSkips(parts[0], [], pat, rep);
      assert parts[0] + [] == parts[0];
    } else if |parts| > 1 {
      var tail := Join(parts[1..], pat);
      ReplaceJoin(parts[1..], pat, rep);
      assert Join(parts, pat) == parts[0] + (pat + tail);
      ReplaceSkips(parts[0], pat + tail, pat, rep);
      ReplaceAtHead(pat, tail, rep);
      assert Join(parts, rep) == parts[0] + (rep + Join(parts[1..], rep));
    }
  }

  /** A non-empty string followed by another is its head followed by the rest. */
  lemma ConsAppend(x: string, y: string)
    requires |x| > 0
    ensures x + y == [x[0]] + (x[1..] + y)
  {
  }

  /** A character found in neither the parts nor the separator is not in the join. */
  lemma {:induction false} JoinAvoids(parts: seq<string>, sep: string, c: char)
    requires c !in sep
    requires forall k :: 0 <= k < |parts| ==> c !in parts[k]
    ensures c !in Join(parts, sep)
  {
    if |parts| > 1 {
      JoinAvoids(parts[1..], sep, c);
    }
  }

  /** Joining with a separator holding one `c` adds one `c` per gap. */
  lemma {:induction false} JoinCount(parts: seq<string>, sep: string, c: char)
    requires |parts| >= 1
    requires CountChar(sep, c) == 1
    requires forall k :: 0 <= k < |parts| ==> c !in parts[k]
    ensures CountChar(Join(parts, sep), c) == |parts| - 1
  {
    CountCharAbsent(parts[0], c);
    if |parts| > 1 {
      JoinCount(parts[1..], sep, c);
      CountCharAppend(parts[0] + sep, Join(parts[1..], sep), c);
      CountCharAppend(parts[0], sep, c);
    }
  }
}
