/** String helpers that the exporter and the test oracle rely on: the
    first-occurrence search of std::string::find, the erase and replace
    calls built on it, the relative-order (subsequence) relation, and the
    lexicographic order in which a std::set<std::string> is iterated. */
module Text {

  /** std::string::npos, as the model's Find reports it. */
  const NPOS: int := -1

  /** True when t occurs in s starting at index q. */
  predicate OccursAt(s: string, t: string, q: int) {
    0 <= q && q + |t| <= |s| && s[q..q + |t|] == t
  }

  /** True when t occurs somewhere in s. */
  predicate Contains(s: string, t: string) {
    exists q :: 0 <= q <= |s| && OccursAt(s, t, q)
  }

  /** The search from index i on: the first occurrence of t in s at or
      after i, or NPOS when there is none. */
  function FindFrom(s: string, t: string, i: nat): (r: int)
    requires i <= |s|
    ensures r == NPOS || i <= r <= |s|
    ensures r != NPOS ==> OccursAt(s, t, r)
    ensures forall q :: i <= q <= |s| && (r == NPOS || q < r) ==> !OccursAt(s, t, q)
    decreases |s| - i
  {
    if OccursAt(s, t, i) then i
    else if i == |s| then NPOS
    else FindFrom(s, t, i + 1)
  }

  /** std::string::find: the index of the first occurrence of t in s, or
      NPOS when t does not occur. */
  function Find(s: string, t: string): (r: int)
    ensures r == NPOS || 0 <= r
    ensures r == NPOS <==> !Contains(s, t)
    ensures r != NPOS ==> OccursAt(s, t, r)
    ensures forall q :: 0 <= q < r ==> !OccursAt(s, t, q)
  {
    FindFrom(s, t, 0)
  }

  /** `s.erase(s.find(t), t.size())` guarded by `find != npos`, as the
      surgery loop does it: the first occurrence of t goes, nothing else. */
  function EraseFirst(s: string, t: string): string {
    var p := Find(s, t);
    if p == NPOS then s else s[..p] + s[p + |t|..]
  }

  /** `s.replace(s.find(t), t.size(), v)` where t is known to occur. */
  function ReplaceFirst(s: string, t: string, v: string): string
    requires Contains(s, t)
  {
    var p := Find(s, t);
    s[..p] + v + s[p + |t|..]
  }

  /** An absent token leaves the string as it is; a present non-empty
      token is removed at its first occurrence, which shortens the string. */
  lemma EraseFirstUnchangedIffAbsent(s: string, t: string)
    requires |t| > 0
    ensures EraseFirst(s, t) == s <==> !Contains(s, t)
    ensures Contains(s, t) ==> |EraseFirst(s, t)| == |s| - |t|
  {
  }

  lemma SliceOfRightPart<T>(a: seq<T>, b: seq<T>, i: int, j: int)
    requires |a| <= i <= j <= |a| + |b|
    ensures (a + b)[i..j] == b[i - |a|..j - |a|]
  {
  }

  /** Only the first occurrence is erased: every later occurrence that does
      not overlap it survives, shifted left by the token's length. */
  lemma EraseFirstKeepsLaterOccurrences(s: string, t: string, q: int)
    requires Contains(s, t)
    requires Find(s, t) + |t| <= q && OccursAt(s, t, q)
    ensures OccursAt(EraseFirst(s, t), t, q - |t|)
  {
    var p := Find(s, t);
    assert p != NPOS;
    assert EraseFirst(s, t) == s[..p] + s[p + |t|..];
    DeleteKeepsLaterOccurrence(s, t, p, q);
  }

  lemma DeleteKeepsLaterOccurrence(s: string, t: string, p: int, q: int)
    requires 0 <= p && p + |t| <= q && OccursAt(s, t, q)
    ensures OccursAt(s[..p] + s[p + |t|..], t, q - |t|)
  {
    var a, b := s[..p], s[p + |t|..];
    SliceOfRightPart(a, b, q - |t|, q);
    assert b[q - |t| - p..q - p] == s[q..q + |t|];
  }


  /** Everything before the first occurrence is untouched by a replacement,
      holds no occurrence of the token, and the value follows it. */
  lemma ReplaceFirstShape(s: string, t: string, v: string)
    requires Contains(s, t)
    ensures var p := Find(s, t); var r := ReplaceFirst(s, t, v);
      && r[..p] == s[..p]
      && r[p..p + |v|] == v
      && r[p + |v|..] == s[p + |t|..]
      && |r| == |s| - |t| + |v|
      && forall q :: 0 <= q < p ==> !OccursAt(s, t, q)
  {
  }

  /** a can be obtained from b by deleting elements: the relative order of
      what is kept does not change. */
  ghost predicate IsSubsequence<T>(a: seq<T>, b: seq<T>)
    decreases |b|
  {
    if a == [] then true
    else if b == [] then false
    else (a[0] == b[0] && IsSubsequence(a[1..], b[1..])) || IsSubsequence(a, b[1..])
  }

  lemma {:induction false} SubsequenceReflexive<T>(a: seq<T>)
    ensures IsSubsequence(a, a)
    decreases |a|
  {
    if a != [] {
      SubsequenceReflexive(a[1..]);
    }
  }

  lemma {:induction false} SubsequenceOfLonger<T>(y: seq<T>, z: seq<T>)
    ensures IsSubsequence(z, y + z)
    decreases |y|
  {
    if y == [] {
      assert y + z == z;
      SubsequenceReflexive(z);
    } else {
      SubsequenceOfLonger(y[1..], z);
      assert (y + z)[1..] == y[1..] + z;
    }
  }

  /** Deleting one contiguous slice keeps the order of the rest. */
  lemma {:induction false} DeleteSliceIsSubsequence<T>(x: seq<T>, y: seq<T>, z: seq<T>)
    ensures IsSubsequence(x + z, x + y + z)
    decreases |x|
  {
    if x == [] {
      assert x + z == z && x + y + z == y + z;
      SubsequenceOfLonger(y, z);
    } else {
      DeleteSliceIsSubsequence(x[1..], y, z);
      assert (x + z)[1..] == x[1..] + z;
      assert (x + y + z)[1..] == x[1..] + y + z;
    }
  }

  lemma {:induction false} SubsequenceTransitive<T>(a: seq<T>, b: seq<T>, c: seq<T>)
    requires IsSubsequence(a, b) && IsSubsequence(b, c)
    ensures IsSubsequence(a, c)
    decreases |c|
  {
    if a == [] {
    } else if b == [] {
    } else if c == [] {
    } else if IsSubsequence(b, c[1..]) {
      SubsequenceTransitive(a, b, c[1..]);
    } else {
      assert b[0] == c[0] && IsSubsequence(b[1..], c[1..]);
      if a[0] == b[0] && IsSubsequence(a[1..], b[1..]) {
        SubsequenceTransitive(a[1..], b[1..], c[1..]);
      } else {
        SubsequenceTransitive(a, b[1..], c[1..]);
      }
    }
  }

  /** A longer host sequence keeps every subsequence. */
  lemma {:induction false} SubsequenceAppendRight<T>(a: seq<T>, b: seq<T>, x: T)
    requires IsSubsequence(a, b)
    ensures IsSubsequence(a, b + [x])
    decreases |b|
  {
    if a != [] {
      assert (b + [x])[1..] == b[1..] + [x];
      if a[0] == b[0] && IsSubsequence(a[1..], b[1..]) {
        SubsequenceAppendRight(a[1..], b[1..], x);
      } else {
        SubsequenceAppendRight(a, b[1..], x);
      }
    }
  }

  /** Extending both sequences by the same element keeps the relation. */
  lemma {:induction false} SubsequenceAppendBoth<T>(a: seq<T>, b: seq<T>, x: T)
    requires IsSubsequence(a, b)
    ensures IsSubsequence(a + [x], b + [x])
    decreases |b|
  {
    if a == [] {
      SubsequenceOfLonger(b, [x]);
      assert a + [x] == [x];
    } else {
      assert (a + [x])[0] == a[0];
      assert (a + [x])[1..] == a[1..] + [x];
      assert (b + [x])[1..] == b[1..] + [x];
      if a[0] == b[0] && IsSubsequence(a[1..], b[1..]) {
        SubsequenceAppendBoth(a[1..], b[1..], x);
      } else {
        SubsequenceAppendBoth(a, b[1..], x);
      }
    }
  }

  /** Erasing the first occurrence keeps the relative order of all other
      characters. */
  lemma EraseFirstIsSubsequence(s: string, t: string)
    ensures IsSubsequence(EraseFirst(s, t), s)
  {
    var p := Find(s, t);
    if p == NPOS {
      SubsequenceReflexive(s);
    } else {
      DeleteSliceIsSubsequence(s[..p], s[p..p + |t|], s[p + |t|..]);
      assert s[..p] + s[p..p + |t|] + s[p + |t|..] == s;
    }
  }

  /** std::string's operator<: lexicographic order on characters. */
  predicate Less(a: string, b: string)
    decreases |a|
  {
    if |a| == 0 then |b| > 0
    else if |b| == 0 then false
    else a[0] < b[0] || (a[0] == b[0] && Less(a[1..], b[1..]))
  }

  lemma {:induction false} LessIrreflexive(a: string)
    ensures !Less(a, a)
    decreases |a|
  {
    if |a| > 0 {
      LessIrreflexive(a[1..]);
    }
  }

  lemma {:induction false} LessTransitive(a: string, b: string, c: string)
    requires Less(a, b) && Less(b, c)
    ensures Less(a, c)
    decreases |a|
  {
    if |a| > 0 && |b| > 0 && |c| > 0 && a[0] == b[0] == c[0] {
      LessTransitive(a[1..], b[1..], c[1..]);
    }
  }

  lemma {:induction false} LessTotal(a: string, b: string)
    requires a != b
    ensures Less(a, b) || Less(b, a)
    decreases |a|
  {
    if |a| > 0 && |b| > 0 && a[0] == b[0] {
      assert a == [a[0]] + a[1..];
      assert b == [b[0]] + b[1..];
      LessTotal(a[1..], b[1..]);
    }
  }

  /** m is the smallest element of s. */
  predicate IsLeast(m: string, s: set<string>) {
    m in s && forall x :: x in s && x != m ==> Less(m, x)
  }

  lemma {:induction false} LeastExists(s: set<string>)
    requires s != {}
    ensures exists m :: IsLeast(m, s)
    decreases |s|
  {
    var y :| y in s;
    var rest := s - {y};
    if rest == {} {
      assert s == {y};
      assert IsLeast(y, s);
    } else {
      LeastExists(rest);
      var m :| IsLeast(m, rest);
      if Less(m, y) {
        forall x | x in s && x != m ensures Less(m, x) {
          if x == y {
          } else {
            assert x in rest;
          }
        }
        assert IsLeast(m, s);
      } else {
        assert m != y;
        LessTotal(m, y);
        forall x | x in s && x != y ensures Less(y, x) {
          if x != m {
            assert x in rest;
            LessTransitive(y, m, x);
          }
        }
        assert IsLeast(y, s);
      }
    }
  }

  lemma LeastUnique(m: string, n: string, s: set<string>)
    requires IsLeast(m, s) && IsLeast(n, s)
    ensures m == n
  {
    if m != n {
      assert Less(m, n) && Less(n, m);
      LessTransitive(m, n, m);
      LessIrreflexive(m);
    }
  }

  /** Strictly increasing, hence also free of duplicates. */
  ghost predicate StrictlySorted(r: seq<string>) {
    forall i, j :: 0 <= i < j < |r| ==> Less(r[i], r[j])
  }

  /** The elements of a std::set<std::string> in its iteration order. */
  ghost function SortedSeq(s: set<string>): (r: seq<string>)
    ensures StrictlySorted(r)
    ensures forall x :: x in r <==> x in s
    ensures |r| == |s|
    decreases |s|
  {
    if s == {} then []
    else
      LeastExists(s);
      var m :| IsLeast(m, s);
      var rest := SortedSeq(s - {m});
      assert forall j :: 0 <= j < |rest| ==> Less(m, rest[j]) by {
        forall j | 0 <= j < |rest| ensures Less(m, rest[j]) {
          assert rest[j] in s - {m};
        }
      }
      [m] + rest
  }

  /** The enumeration starts with the least element. */
  lemma SortedSeqStartsWithLeast(s: set<string>, m: string)
    requires IsLeast(m, s)
    ensures SortedSeq(s) == [m] + SortedSeq(s - {m})
  {
    var r := SortedSeq(s);
    assert r[0] in s;
    forall x | x in s && x != r[0] ensures Less(r[0], x) {
      var j :| 0 <= j < |r| && r[j] == x;
      assert j != 0;
    }
    LeastUnique(m, r[0], s);
  }

  lemma SortedSeqStep(r: seq<string>, rest: set<string>, m: string, s: set<string>)
    requires r + SortedSeq(rest) == SortedSeq(s) && IsLeast(m, rest)
    ensures (r + [m]) + SortedSeq(rest - {m}) == SortedSeq(s)
  {
    SortedSeqStartsWithLeast(rest, m);
    assert (r + [m]) + SortedSeq(rest - {m}) == r + ([m] + SortedSeq(rest - {m}));
  }

  lemma SortedSeqNoDuplicates(s: set<string>)
    ensures forall i, j :: 0 <= i < j < |SortedSeq(s)| ==> SortedSeq(s)[i] != SortedSeq(s)[j]
  {
    var r := SortedSeq(s);
    forall i, j | 0 <= i < j < |r| ensures r[i] != r[j] {
      if r[i] == r[j] {
        LessIrreflexive(r[i]);
      }
    }
  }

  /** Iterating a std::set<std::string>: repeatedly take the least element
      that is left. */
  method SortedElements(s: set<string>) returns (r: seq<string>)
    ensures r == SortedSeq(s)
  {
    r := [];
    var rest := s;
    while rest != {}
      invariant r + SortedSeq(rest) == SortedSeq(s)
      decreases |rest|
    {
      LeastExists(rest);
      var m :| IsLeast(m, rest);
      SortedSeqStep(r, rest, m, s);
      r := r + [m];
      rest := rest - {m};
    }
  }
}
