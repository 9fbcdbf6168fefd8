/**
  The few methods of Python's `str` that the script relies on, on `seq<char>`:
  `s.split(sep)` with an explicit separator, `s.replace(pat, "")`, `sep.join(parts)`,
  and `rstrip()` / `lstrip()` / `strip()` without arguments.
 */
module PyStr {

  /** `pat` occurs in `s` starting at index `i`. */
  predicate At(s: string, pat: string, i: int) {
    0 <= i && i + |pat| <= |s| && s[i..i + |pat|] == pat
  }

  /** Python's `pat in s`. */
  predicate Contains(s: string, pat: string) {
    exists i :: 0 <= i <= |s| && At(s, pat, i)
  }

  /** Number of occurrences of the character `c` in `s` (Python's `s.count(c)`). */
  function Count(s: string, c: char): nat {
    if s == [] then 0 else (if s[0] == c then 1 else 0) + Count(s[1..], c)
  }

  /**
    Python's `s.split(sep)` for a non-empty `sep`: scanning left to right, every
    non-overlapping occurrence of `sep` ends a segment.
   */
  function Split(s: string, sep: string): (parts: seq<string>)
    requires sep != []
    ensures |parts| >= 1
    decreases |s|
  {
    if |s| < |sep| then [s]
    else if s[..|sep|] == sep then [""] + Split(s[|sep|..], sep)
    else
      var rest := Split(s[1..], sep);
      [[s[0]] + rest[0]] + rest[1..]
  }

  /** Python's `sep.join(parts)`. */
  function Join(parts: seq<string>, sep: string): string {
    if |parts| == 0 then ""
    else if |parts| == 1 then parts[0]
    else parts[0] + sep + Join(parts[1..], sep)
  }

  /**
    Python's `s.replace(pat, "")` for a non-empty `pat`: every non-overlapping
    occurrence, found left to right in one pass, is deleted.
   */
  function DeleteAll(s: string, pat: string): (r: string)
    requires pat != []
    ensures |r| <= |s|
    decreases |s|
  {
    if |s| < |pat| then s
    else if s[..|pat|] == pat then DeleteAll(s[|pat|..], pat)
    else [s[0]] + DeleteAll(s[1..], pat)
  }

  /** Python's `str.isspace` for one character (the set `str.strip()` removes). */
  predicate IsSpace(c: char) {
    c == ' ' || ('\t' <= c <= '\r') || ('\U{1C}' <= c <= '\U{1F}')
    || c == '\U{85}' || c == '\U{A0}' || c == '\U{1680}'
    || ('\U{2000}' <= c <= '\U{200A}') || c == '\U{2028}' || c == '\U{2029}'
    || c == '\U{202F}' || c == '\U{205F}' || c == '\U{3000}'
  }

  /** Python's `s.rstrip()`: the longest prefix of `s` that does not end in whitespace. */
  function RStrip(s: string): (r: string)
    ensures r <= s
    ensures forall i :: |r| <= i < |s| ==> IsSpace(s[i])
    ensures r == [] || !IsSpace(r[|r| - 1])
    decreases |s|
  {
    if s != [] && IsSpace(s[|s| - 1]) then RStrip(s[..|s| - 1]) else s
  }

  /** Python's `s.lstrip()`: the longest suffix of `s` that does not start with whitespace. */
  function LStrip(s: string): (r: string)
    ensures |r| <= |s| && r == s[|s| - |r|..]
    ensures forall i :: 0 <= i < |s| - |r| ==> IsSpace(s[i])
    ensures r == [] || !IsSpace(r[0])
    decreases |s|
  {
    if s != [] && IsSpace(s[0]) then LStrip(s[1..]) else s
  }

  /** `r` is `s` with exactly its first `i` and its last `|s| - i - |r|` characters cut off, all whitespace. */
  predicate Trim(s: string, r: string, i: int) {
    0 <= i <= |s| - |r| && r == s[i..i + |r|]
    && (forall k :: 0 <= k < i ==> IsSpace(s[k]))
    && (forall k :: i + |r| <= k < |s| ==> IsSpace(s[k]))
  }

  /** Python's `s.strip()`. */
  function Strip(s: string): (r: string)
    ensures |r| <= |s|
    ensures r == [] || (!IsSpace(r[0]) && !IsSpace(r[|r| - 1]))
  {
    var t := RStrip(s);
    var r := LStrip(t);
    assert r != [] ==> r[|r| - 1] == t[|t| - 1];
    r
  }

  /** `s.strip()` is a slice of `s`: only whitespace is cut off, and only at the two ends. */
  lemma StripTrims(s: string)
    ensures exists i :: Trim(s, Strip(s), i)
  {
    assert Strip(s) == LStrip(RStrip(s));
    TrimmedSlice(s, RStrip(s), LStrip(RStrip(s)));
  }

  /** Cutting whitespace off the right and then off the left leaves a trimmed slice. */
  lemma TrimmedSlice(s: string, t: string, r: string)
    requires t <= s && forall k :: |t| <= k < |s| ==> IsSpace(s[k])
    requires |r| <= |t| && r == t[|t| - |r|..] && forall k :: 0 <= k < |t| - |r| ==> IsSpace(t[k])
    ensures exists i :: Trim(s, r, i)
  {
    var i := |t| - |r|;
    forall k | 0 <= k < |r| ensures r[k] == s[i + k] {
      assert r[k] == t[i + k];
    }
    forall k | 0 <= k < i ensures IsSpace(s[k]) {
      assert s[k] == t[k];
    }
    assert Trim(s, r, i);
  }

  // ---------------------------------------------------------------------------
  // Occurrences

  /** An occurrence in the tail of `s` is an occurrence in `s`, one place further. */
  lemma AtTail(s: string, pat: string, i: int)
    requires s != [] && At(s[1..], pat, i)
    ensures At(s, pat, i + 1)
  {
    assert s[1..][i..i + |pat|] == s[i + 1..i + 1 + |pat|];
  }

  /** An occurrence past the first character is an occurrence in the tail, one place earlier. */
  lemma AtFromTail(s: string, pat: string, i: int)
    requires 1 <= i && At(s, pat, i)
    ensures At(s[1..], pat, i - 1)
  {
    assert s[1..][i - 1..i - 1 + |pat|] == s[i..i + |pat|];
  }

  /** A one-character pattern occurs exactly where that character does. */
  lemma {:induction false} ContainsChar(s: string, c: char)
    ensures Contains(s, [c]) <==> c in s
  {
    if c in s {
      var i :| 0 <= i < |s| && s[i] == c;
      assert s[i..i + 1] == [c];
      assert At(s, [c], i);
    }
    if Contains(s, [c]) {
      var i :| 0 <= i <= |s| && At(s, [c], i);
      assert s[i] == s[i..i + 1][0];
    }
  }

  /** The characters of an occurrence are characters of the string. */
  lemma AtChar(s: string, pat: string, i: int, k: int)
    requires At(s, pat, i) && 0 <= k < |pat|
    ensures s[i + k] == pat[k]
  {
    assert s[i..i + |pat|][k] == s[i + k];
  }

  /**
    An occurrence of `pat` in `a + [c] + b` lies inside `a` or inside `b` when `c`
    is not a character of `pat`.
   */
  lemma ContainsAroundChar(a: string, c: char, b: string, pat: string)
    requires c !in pat
    requires Contains(a + [c] + b, pat)
    ensures Contains(a, pat) || Contains(b, pat)
  {
    var s := a + [c] + b;
    var i :| 0 <= i <= |s| && At(s, pat, i);
    assert s[..|a|] == a;
    assert s[|a| + 1..] == b;
    if i + |pat| <= |a| {
      assert s[i..i + |pat|] == s[..|a|][i..i + |pat|];
      assert At(a, pat, i);
    } else if i > |a| {
      var j := i - |a| - 1;
      assert s[i..i + |pat|] == s[|a| + 1..][j..j + |pat|];
      assert At(b, pat, j);
    } else {
      AtChar(s, pat, i, |a| - i);
      assert false;
    }
  }

  /** Appending characters foreign to `pat` creates no occurrence of it. */
  lemma ContainsAppendForeign(a: string, e: string, pat: string)
    requires pat != [] && forall k :: 0 <= k < |e| ==> e[k] !in pat
    requires Contains(a + e, pat)
    ensures Contains(a, pat)
  {
    var s := a + e;
    var i :| 0 <= i <= |s| && At(s, pat, i);
    if i + |pat| <= |a| {
      assert s[i..i + |pat|] == a[i..i + |pat|];
      assert At(a, pat, i);
    } else {
      AtChar(s, pat, i, |pat| - 1);
      assert false;
    }
  }

  // ---------------------------------------------------------------------------
  // split and join

  /** Joining with the separator puts it between the first part and the rest. */
  lemma JoinCons(x: string, p: seq<string>, sep: string)
    requires |p| >= 1
    ensures Join([x] + p, sep) == x + sep + Join(p, sep)
  {
    assert ([x] + p)[1..] == p;
  }

  /** Extending the first part extends the joined string by the same prefix. */
  lemma JoinExtendHead(x: string, p: seq<string>, sep: string)
    requires |p| >= 1
    ensures Join([x + p[0]] + p[1..], sep) == x + Join(p, sep)
  {
    if |p| >= 2 {
      JoinCons(x + p[0], p[1..], sep);
      JoinCons(p[0], p[1..], sep);
      assert p == [p[0]] + p[1..];
    }
  }

  /** Joining the segments of a split with the separator gives back the string. */
  lemma {:induction false} JoinSplit(s: string, sep: string)
    requires sep != []
    ensures Join(Split(s, sep), sep) == s
    decreases |s|
  {
    if |s| < |sep| {
    } else if s[..|sep|] == sep {
      var rest := Split(s[|sep|..], sep);
      assert Split(s, sep) == [""] + rest;
      JoinSplit(s[|sep|..], sep);
      JoinCons("", rest, sep);
      assert s == sep + s[|sep|..];
    } else {
      var rest := Split(s[1..], sep);
      assert Split(s, sep) == [[s[0]] + rest[0]] + rest[1..];
      JoinSplit(s[1..], sep);
      JoinExtendHead([s[0]], rest, sep);
      assert s == [s[0]] + s[1..];
    }
  }

  /** `s.replace(pat, "")` is `"".join(s.split(pat))`. */
  lemma {:induction false} DeleteAllIsJoinOfSplit(s: string, pat: string)
    requires pat != []
    ensures DeleteAll(s, pat) == Join(Split(s, pat), "")
    decreases |s|
  {
    if |s| < |pat| {
    } else if s[..|pat|] == pat {
      DeleteAllIsJoinOfSplit(s[|pat|..], pat);
      JoinCons("", Split(s[|pat|..], pat), "");
    } else {
      DeleteAllIsJoinOfSplit(s[1..], pat);
      JoinExtendHead([s[0]], Split(s[1..], pat), "");
    }
  }

  /** A split yields a second segment exactly when the separator occurs. */
  lemma {:induction false} SplitLength(s: string, sep: string)
    requires sep != []
    ensures |Split(s, sep)| >= 2 <==> Contains(s, sep)
    decreases |s|
  {
    if |s| < |sep| {
      assert forall i :: !At(s, sep, i);
    } else if s[..|sep|] == sep {
      assert At(s, sep, 0);
    } else {
      SplitLength(s[1..], sep);
      if Contains(s, sep) {
        var i :| 0 <= i <= |s| && At(s, sep, i);
        assert s[0..|sep|] == s[..|sep|];
        AtFromTail(s, sep, i);
      }
      if Contains(s[1..], sep) {
        var i :| 0 <= i <= |s[1..]| && At(s[1..], sep, i);
        AtTail(s, sep, i);
      }
    }
  }

  /** Without an occurrence there is a single segment: the whole string. */
  lemma SplitAbsent(s: string, sep: string)
    requires sep != [] && !Contains(s, sep)
    ensures Split(s, sep) == [s]
  {
    SplitLength(s, sep);
    JoinSplit(s, sep);
  }

  /** A string that starts with the separator splits into an empty segment first. */
  lemma SplitPrefixed(sep: string, s: string)
    requires sep != []
    ensures Split(sep + s, sep) == [""] + Split(s, sep)
  {
    assert (sep + s)[..|sep|] == sep;
    assert (sep + s)[|sep|..] == s;
  }

  /** Without an occurrence of `pat`, deleting it changes nothing. */
  lemma {:induction false} DeleteAllAbsent(s: string, pat: string)
    requires pat != [] && !Contains(s, pat)
    ensures DeleteAll(s, pat) == s
    decreases |s|
  {
    if |s| < |pat| {
    } else {
      assert s[..|pat|] == s[0..0 + |pat|];
      assert !At(s, pat, 0);
      if Contains(s[1..], pat) {
        var i :| 0 <= i <= |s[1..]| && At(s[1..], pat, i);
        AtTail(s, pat, i);
      }
      DeleteAllAbsent(s[1..], pat);
      assert s == [s[0]] + s[1..];
    }
  }

  /**
    Deletion scans `a` unchanged when no occurrence of `pat` in `a + b` starts inside `a`.
   */
  lemma {:induction false} DeleteAllAfter(a: string, b: string, pat: string)
    requires pat != []
    requires forall i :: 0 <= i < |a| ==> !At(a + b, pat, i)
    ensures DeleteAll(a + b, pat) == a + DeleteAll(b, pat)
    decreases |a|
  {
    var s := a + b;
    if a == [] {
      assert s == b;
    } else if |s| < |pat| {
      assert DeleteAll(b, pat) == b;
    } else {
      assert s[1..] == a[1..] + b;
      DeleteAllSkip(s, pat);
      NoneAtTail(a, b, pat);
      DeleteAllAfter(a[1..], b, pat);
      assert [a[0]] + (a[1..] + DeleteAll(b, pat)) == a + DeleteAll(b, pat);
    }
  }

  /** Where no occurrence starts, deletion keeps the first character. */
  lemma DeleteAllSkip(s: string, pat: string)
    requires pat != [] && |s| >= |pat| && !At(s, pat, 0)
    ensures DeleteAll(s, pat) == [s[0]] + DeleteAll(s[1..], pat)
  {
    assert s[..|pat|] == s[0..0 + |pat|];
  }

  lemma NoneAtTail(a: string, b: string, pat: string)
    requires a != [] && forall i :: 0 <= i < |a| ==> !At(a + b, pat, i)
    ensures forall i :: 0 <= i < |a[1..]| ==> !At(a[1..] + b, pat, i)
  {
    var s := a + b;
    assert s[1..] == a[1..] + b;
    forall i | 0 <= i < |a[1..]|
      ensures !At(a[1..] + b, pat, i)
    {
      if At(a[1..] + b, pat, i) {
        AtTail(s, pat, i);
      }
    }
  }

  // ---------------------------------------------------------------------------
  // Splitting on one character

  /** Splitting on one character gives one segment more than it occurs. */
  lemma {:induction false} SplitCharCount(s: string, c: char)
    ensures |Split(s, [c])| == Count(s, c) + 1
    decreases |s|
  {
    if |s| >= 1 {
      SplitCharCount(s[1..], c);
      assert s[..1] == [c] <==> s[0] == c;
      assert s[1..] == s[|[c]|..];
    }
  }

  /** No segment of a split on one character contains that character. */
  lemma {:induction false} SplitCharParts(s: string, c: char)
    ensures forall k :: 0 <= k < |Split(s, [c])| ==> c !in Split(s, [c])[k]
    decreases |s|
  {
    if |s| >= 1 {
      SplitCharParts(s[1..], c);
      assert s[..1] == [c] <==> s[0] == c;
      assert s[1..] == s[|[c]|..];
      var rest := Split(s[1..], [c]);
      if s[0] != c {
        var parts := [[s[0]] + rest[0]] + rest[1..];
        assert forall k :: 1 <= k < |parts| ==> parts[k] == rest[k];
      }
    }
  }

  /** Splitting `a + [c] + b` on `c`, when `c` is not in `a`, gives `a` and then the split of `b`. */
  lemma {:induction false} SplitAroundChar(a: string, c: char, b: string)
    requires c !in a
    ensures Split(a + [c] + b, [c]) == [a] + Split(b, [c])
    decreases |a|
  {
    var s := a + [c] + b;
    if a == [] {
      assert s[..1] == [c];
      assert s[1..] == b;
    } else {
      assert s[..1] == [a[0]];
      assert s[1..] == a[1..] + [c] + b;
      SplitAroundChar(a[1..], c, b);
      assert a == [a[0]] + a[1..];
    }
  }

  /** Splitting on `c` at an occurrence of `c` concatenates the splits of both sides. */
  lemma SplitJoinChar(a: string, c: char, b: string)
    ensures Split(a + [c] + b, [c]) == Split(a, [c]) + Split(b, [c])
  {
    var p, q := Split(a, [c]), Split(b, [c]);
    SplitCharParts(a, c);
    SplitCharParts(b, c);
    JoinSplit(a, [c]);
    JoinSplit(b, [c]);
    JoinAppend(p, q, [c]);
    SplitOfJoin(p + q, c);
  }

  /** Joining two non-empty lists of parts puts `sep` between their joins. */
  lemma {:induction false} JoinAppend(p: seq<string>, q: seq<string>, sep: string)
    requires |p| >= 1 && |q| >= 1
    ensures Join(p + q, sep) == Join(p, sep) + sep + Join(q, sep)
    decreases |p|
  {
    if |p| == 1 {
      assert p + q == [p[0]] + q;
      JoinCons(p[0], q, sep);
    } else {
      assert p + q == [p[0]] + (p[1..] + q);
      JoinCons(p[0], p[1..] + q, sep);
      JoinAppend(p[1..], q, sep);
      assert p == [p[0]] + p[1..];
      JoinCons(p[0], p[1..], sep);
    }
  }

  /** A non-empty list of parts free of `c` is recovered by splitting its join on `c`. */
  lemma {:induction false} SplitOfJoin(parts: seq<string>, c: char)
    requires |parts| >= 1 && forall k :: 0 <= k < |parts| ==> c !in parts[k]
    ensures Split(Join(parts, [c]), [c]) == parts
    decreases |parts|
  {
    if |parts| == 1 {
      ContainsChar(parts[0], c);
      SplitAbsent(parts[0], [c]);
    } else {
      var rest := parts[1..];
      assert parts == [parts[0]] + rest;
      JoinCons(parts[0], rest, [c]);
      SplitAroundChar(parts[0], c, Join(rest, [c]));
      SplitOfJoin(rest, c);
    }
  }

  /** `a + [c] + b` splits on `c` into exactly `a` and `b` when neither contains `c`. */
  lemma SplitPair(a: string, c: char, b: string)
    requires c !in a && c !in b
    ensures Split(a + [c] + b, [c]) == [a, b]
  {
    SplitAroundChar(a, c, b);
    ContainsChar(b, c);
    SplitAbsent(b, [c]);
  }

  // ---------------------------------------------------------------------------
  // Stripping

  /** Stripping a string without surrounding whitespace leaves it as it is. */
  lemma StripUnpadded(s: string)
    requires s == [] || (!IsSpace(s[0]) && !IsSpace(s[|s| - 1]))
    ensures Strip(s) == s
  {
  }
}
