/**
 * Generic list and string helpers that mirror the JavaScript array and
 * string operations the dashboard is built from: `filter`, `find`,
 * `slice`, `join`, `split` and the decimal rendering of numbers in
 * template strings.
 */
module Seqs {

  datatype Option<T> = None | Some(value: T)

  function Min(a: int, b: int): int { if a <= b then a else b }

  function Max(a: int, b: int): int { if a >= b then a else b }

  // ---------------------------------------------------------------------
  // Array.prototype.filter

  /** The elements of `s` that satisfy `p`, in their original order. */
  function Filter<T(==)>(s: seq<T>, p: T -> bool): (r: seq<T>)
    ensures |r| <= |s|
    ensures multiset(r) <= multiset(s)
    ensures forall i :: 0 <= i < |r| ==> p(r[i])
    ensures forall i :: 0 <= i < |s| && p(s[i]) ==> s[i] in r
  {
    if s == [] then []
    else
      var rest := Filter(s[1..], p);
      assert s == [s[0]] + s[1..];
      assert forall i :: 1 <= i < |s| && p(s[i]) ==> s[i] in rest by {
        forall i | 1 <= i < |s| && p(s[i]) ensures s[i] in rest {
          assert s[i] == s[1..][i - 1];
        }
      }
      if p(s[0]) then [s[0]] + rest else rest
  }

  /** The length of a filter counts the head, then the filter of the tail. */
  lemma FilterLengthCons<T>(s: seq<T>, p: T -> bool)
    requires s != []
    ensures |Filter(s, p)| == (if p(s[0]) then 1 else 0) + |Filter(s[1..], p)|
  {
  }

  /** Two lists whose elements pass two predicates at the same positions
      keep equally many. */
  lemma {:induction false} FilterLengthPointwise<T, U>(a: seq<T>, b: seq<U>, p: T -> bool, q: U -> bool)
    requires |a| == |b|
    requires forall i :: 0 <= i < |a| ==> p(a[i]) == q(b[i])
    ensures |Filter(a, p)| == |Filter(b, q)|
  {
    if a != [] {
      FilterLengthPointwise(a[1..], b[1..], p, q);
      FilterLengthCons(a, p);
      FilterLengthCons(b, q);
    }
  }

  /** The filter of a list counts the part before `j`, the element at `j`
      and the part after it. */
  lemma FilterLengthSplit<T>(a: seq<T>, p: T -> bool, j: nat)
    requires j < |a|
    ensures |Filter(a, p)| == |Filter(a[..j], p)| + (if p(a[j]) then 1 else 0) + |Filter(a[j + 1..], p)|
  {
    assert a == a[..j] + ([a[j]] + a[j + 1..]);
    FilterConcat(a[..j], [a[j]] + a[j + 1..], p);
    FilterLengthCons([a[j]] + a[j + 1..], p);
    assert ([a[j]] + a[j + 1..])[1..] == a[j + 1..];
  }

  /** Two sequences whose elements agree on `p` everywhere but at `j` differ
      in their filtered length only by what happens at `j`. */
  lemma FilterLengthChangeAt<T>(a: seq<T>, b: seq<T>, p: T -> bool, j: nat)
    requires |a| == |b| && j < |a|
    requires forall i :: 0 <= i < |a| && i != j ==> p(a[i]) == p(b[i])
    ensures |Filter(b, p)| + (if p(a[j]) then 1 else 0) == |Filter(a, p)| + (if p(b[j]) then 1 else 0)
  {
    FilterLengthSplit(a, p, j);
    FilterLengthSplit(b, p, j);
    var a0, b0, a1, b1 := a[..j], b[..j], a[j + 1..], b[j + 1..];
    forall i | 0 <= i < |a0| ensures p(a0[i]) == p(b0[i]) {
      assert a0[i] == a[i] && b0[i] == b[i];
    }
    FilterLengthPointwise(a0, b0, p, p);
    forall i | 0 <= i < |a1| ensures p(a1[i]) == p(b1[i]) {
      assert a1[i] == a[j + 1 + i] && b1[i] == b[j + 1 + i];
    }
    FilterLengthPointwise(a1, b1, p, p);
  }

  /** Filtering by `p` and then by `q` keeps as many elements as filtering
      once by their conjunction `pq`. */
  lemma {:induction false} FilterTwiceLength<T>(s: seq<T>, p: T -> bool, q: T -> bool, pq: T -> bool)
    requires forall i :: 0 <= i < |s| ==> pq(s[i]) == (p(s[i]) && q(s[i]))
    ensures |Filter(Filter(s, p), q)| == |Filter(s, pq)|
  {
    if s != [] {
      FilterTwiceLength(s[1..], p, q, pq);
      FilterLengthCons(s, pq);
      var rest := Filter(s[1..], p);
      if p(s[0]) {
        assert Filter(s, p) == [s[0]] + rest;
        FilterLengthCons([s[0]] + rest, q);
        assert ([s[0]] + rest)[1..] == rest;
      } else {
        assert Filter(s, p) == rest;
      }
    }
  }

  /** A stronger predicate keeps no more elements. */
  lemma {:induction false} FilterStronger<T>(s: seq<T>, p: T -> bool, q: T -> bool)
    requires forall i :: 0 <= i < |s| && p(s[i]) ==> q(s[i])
    ensures |Filter(s, p)| <= |Filter(s, q)|
  {
    if s != [] {
      FilterStronger(s[1..], p, q);
      FilterLengthCons(s, p);
      FilterLengthCons(s, q);
    }
  }

  /** Filtering distributes over concatenation: it keeps the relative order. */
  lemma {:induction false} FilterConcat<T>(a: seq<T>, b: seq<T>, p: T -> bool)
    ensures Filter(a + b, p) == Filter(a, p) + Filter(b, p)
  {
    if a == [] {
      assert a + b == b;
    } else {
      assert (a + b)[1..] == a[1..] + b;
      FilterConcat(a[1..], b, p);
    }
  }

  /** Filtering keeps the whole list exactly when every element passes. */
  lemma {:induction false} FilterKeepsAll<T>(s: seq<T>, p: T -> bool)
    ensures Filter(s, p) == s <==> forall i :: 0 <= i < |s| ==> p(s[i])
  {
    if s != [] {
      FilterKeepsAll(s[1..], p);
      if !p(s[0]) {
        assert |Filter(s, p)| < |s| by {
          assert Filter(s, p) == Filter(s[1..], p);
        }
      } else if forall i :: 0 <= i < |s| ==> p(s[i]) {
        assert forall i :: 0 <= i < |s[1..]| ==> p(s[1..][i]) by {
          forall i | 0 <= i < |s[1..]| ensures p(s[1..][i]) { assert s[1..][i] == s[i + 1]; }
        }
      } else {
        var k :| 0 <= k < |s| && !p(s[k]);
        assert s[k] in s;
        assert s[k] !in Filter(s, p);
      }
    }
  }

  /** Filtering by a predicate and by its negation splits the list: the
      two results together are as long as the list. */
  lemma {:induction false} FilterPartition<T>(s: seq<T>, p: T -> bool, q: T -> bool)
    requires forall i :: 0 <= i < |s| ==> q(s[i]) == !p(s[i])
    ensures |Filter(s, p)| + |Filter(s, q)| == |s|
  {
    if s != [] {
      FilterPartition(s[1..], p, q);
    }
  }

  // ---------------------------------------------------------------------
  // Array.prototype.find

  /** The first element of `s` that satisfies `p`, if any. */
  function Find<T>(s: seq<T>, p: T -> bool): (r: Option<T>)
    ensures r.None? <==> forall i :: 0 <= i < |s| ==> !p(s[i])
    ensures r.Some? ==> exists k :: 0 <= k < |s| && s[k] == r.value && p(s[k])
                                 && forall i :: 0 <= i < k ==> !p(s[i])
  {
    if s == [] then None
    else if p(s[0]) then Some(s[0])
    else
      var r := Find(s[1..], p);
      if r.Some? then
        ghost var k :| 0 <= k < |s[1..]| && s[1..][k] == r.value && p(s[1..][k])
                      && forall i :: 0 <= i < k ==> !p(s[1..][i]);
        assert s[k + 1] == r.value;
        assert forall i :: 1 <= i < k + 1 ==> !p(s[i]) by {
          forall i | 1 <= i < k + 1 ensures !p(s[i]) { assert s[i] == s[1..][i - 1]; }
        }
        r
      else r
  }

  // ---------------------------------------------------------------------
  // Array.prototype.slice

  /** Resolves one `slice` argument against the length: a negative index
      counts from the end; the result lies in [0, len]. */
  function SliceIndex(i: int, len: nat): (r: nat)
    ensures r <= len
    ensures 0 <= i <= len ==> r == i
  {
    if i < 0 then Max(len + i, 0) else Min(i, len)
  }

  /** `s.slice(start, end)` with JavaScript's rules for negative and
      out-of-range arguments. */
  function JsSlice<T>(s: seq<T>, start: int, end: int): (r: seq<T>)
    ensures |r| <= |s|
    ensures 0 <= start <= end ==>
              r == s[Min(start, |s|)..Min(end, |s|)]
    ensures -|s| <= start < 0 && end == |s| ==> r == s[|s| + start..]
  {
    var from := SliceIndex(start, |s|);
    var to := SliceIndex(end, |s|);
    if from < to then s[from..to] else []
  }

  // ---------------------------------------------------------------------
  // Array.prototype.join and String.prototype.split on one character

  /** `xs.join(sep)`: the strings with one separator between neighbours. */
  function Join(xs: seq<string>, sep: char): string
  {
    if |xs| == 0 then ""
    else if |xs| == 1 then xs[0]
    else xs[0] + [sep] + Join(xs[1..], sep)
  }

  /** A joined text starts with its first piece. */
  lemma JoinStartsWithFirst(xs: seq<string>, sep: char)
    requires |xs| >= 1
    ensures |xs[0]| <= |Join(xs, sep)|
    ensures Join(xs, sep)[..|xs[0]|] == xs[0]
  {
    if |xs| > 1 {
      var rest := [sep] + Join(xs[1..], sep);
      assert Join(xs, sep) == xs[0] + rest;
      assert (xs[0] + rest)[..|xs[0]|] == xs[0];
    }
  }

  /** `s.split(sep)`: the pieces between separators; always at least one. */
  function Split(s: string, sep: char): (r: seq<string>)
    ensures |r| >= 1
  {
    if s == [] then [""]
    else
      var rest := Split(s[1..], sep);
      if s[0] == sep then [""] + rest
      else [[s[0]] + rest[0]] + rest[1..]
  }

  lemma {:induction false} SplitNoSep(a: string, sep: char)
    requires sep !in a
    ensures Split(a, sep) == [a]
  {
    if a != [] {
      SplitNoSep(a[1..], sep);
      assert [a[0]] + a[1..] == a;
    }
  }

  lemma {:induction false} SplitAtFirstSep(a: string, sep: char, b: string)
    requires sep !in a
    ensures Split(a + [sep] + b, sep) == [a] + Split(b, sep)
  {
    if a == [] {
      assert a + [sep] + b == [sep] + b;
      assert ([sep] + b)[1..] == b;
    } else {
      assert (a + [sep] + b)[1..] == a[1..] + [sep] + b;
      SplitAtFirstSep(a[1..], sep, b);
      assert [a[0]] + a[1..] == a;
    }
  }

  /** Splitting a joined list gives the list back, as long as no piece
      contains the separator. */
  lemma {:induction false} SplitJoin(xs: seq<string>, sep: char)
    requires |xs| >= 1
    requires forall i :: 0 <= i < |xs| ==> sep !in xs[i]
    ensures Split(Join(xs, sep), sep) == xs
  {
    if |xs| == 1 {
      SplitNoSep(xs[0], sep);
    } else {
      SplitJoin(xs[1..], sep);
      SplitAtFirstSep(xs[0], sep, Join(xs[1..], sep));
      assert [xs[0]] + xs[1..] == xs;
    }
  }

  /** A separator inside one piece makes the split longer than the list:
      joining does not quote or escape. */
  lemma {:induction false} SplitJoinLonger(xs: seq<string>, sep: char, k: nat)
    requires k < |xs| && sep in xs[k]
    ensures |Split(Join(xs, sep), sep)| > |xs|
  {
    if |xs| == 1 {
      SplitCountsSeparators(xs[0], sep);
    } else if k == 0 {
      SplitLongerWithSep(xs[0], sep, Join(xs[1..], sep));
      SplitAtLeastPieces(xs[1..], sep);
    } else {
      SplitJoinLonger(xs[1..], sep, k - 1);
      SplitLongerPrefix(xs[0], sep, Join(xs[1..], sep));
    }
  }

  lemma {:induction false} SplitCountsSeparators(a: string, sep: char)
    requires sep in a
    ensures |Split(a, sep)| >= 2
  {
    if a[0] == sep {
      assert Split(a, sep) == [""] + Split(a[1..], sep);
    } else {
      assert sep in a[1..] by {
        var k :| 0 <= k < |a| && a[k] == sep;
        assert a[1..][k - 1] == sep;
      }
      SplitCountsSeparators(a[1..], sep);
    }
  }

  lemma {:induction false} SplitAtLeastPieces(xs: seq<string>, sep: char)
    requires |xs| >= 1
    ensures |Split(Join(xs, sep), sep)| >= |xs|
  {
    if |xs| > 1 {
      SplitAtLeastPieces(xs[1..], sep);
      SplitLongerPrefix(xs[0], sep, Join(xs[1..], sep));
    }
  }

  /** Prefixing `a` and a separator adds at least one piece. */
  lemma {:induction false} SplitLongerPrefix(a: string, sep: char, b: string)
    ensures |Split(a + [sep] + b, sep)| >= |Split(b, sep)| + 1
  {
    if a == [] {
      assert a + [sep] + b == [sep] + b;
      assert ([sep] + b)[1..] == b;
    } else {
      assert (a + [sep] + b)[1..] == a[1..] + [sep] + b;
      SplitLongerPrefix(a[1..], sep, b);
    }
  }

  /** When `a` itself holds a separator, prefixing it adds at least two pieces. */
  lemma {:induction false} SplitLongerWithSep(a: string, sep: char, b: string)
    requires sep in a
    ensures |Split(a + [sep] + b, sep)| >= |Split(b, sep)| + 2
  {
    assert (a + [sep] + b)[1..] == a[1..] + [sep] + b;
    if a[0] == sep {
      SplitLongerPrefix(a[1..], sep, b);
    } else {
      assert sep in a[1..] by {
        var k :| 0 <= k < |a| && a[k] == sep;
        assert a[1..][k - 1] == sep;
      }
      SplitLongerWithSep(a[1..], sep, b);
    }
  }

  // ---------------------------------------------------------------------
  // Decimal rendering of numbers in template strings and `join`

  predicate IsDigit(c: char) { '0' <= c <= '9' }

  function DigitChar(d: nat): (c: char)
    requires d < 10
    ensures IsDigit(c)
  {
    ('0' as int + d) as char
  }

  /** The decimal digits of `n`, most significant first, no leading zero. */
  function NatToString(n: nat): (r: string)
    ensures |r| >= 1
    ensures forall i :: 0 <= i < |r| ==> IsDigit(r[i])
    decreases n
  {
    if n < 10 then [DigitChar(n)] else NatToString(n / 10) + [DigitChar(n % 10)]
  }

  /** `String(i)` for an integer: a minus sign, then the digits of |i|. */
  function IntToString(i: int): (r: string)
    ensures ',' !in r && '\n' !in r
  {
    if i < 0 then "-" + NatToString(-i) else NatToString(i)
  }

  /** Different numbers render differently. */
  lemma {:induction false} NatToStringInjective(m: nat, n: nat)
    requires NatToString(m) == NatToString(n)
    ensures m == n
    decreases m
  {
    var sm, sn := NatToString(m), NatToString(n);
    if m < 10 && n < 10 {
      assert sm[0] == sn[0];
    } else if m < 10 || n < 10 {
      assert false;
    } else {
      assert sm[|sm| - 1] == sn[|sn| - 1];
      assert DigitChar(m % 10) == DigitChar(n % 10);
      assert sm[..|sm| - 1] == NatToString(m / 10);
      assert sn[..|sn| - 1] == NatToString(n / 10);
      NatToStringInjective(m / 10, n / 10);
    }
  }

  /** The position of the first `sep` in `s`, or `|s|` when there is none. */
  function IndexOf(s: string, sep: char): (r: nat)
    ensures r <= |s|
  {
    if s == [] then 0 else if s[0] == sep then 0 else 1 + IndexOf(s[1..], sep)
  }

  lemma {:induction false} IndexOfSeparated(a: string, sep: char, b: string)
    requires sep !in a
    ensures IndexOf(a + [sep] + b, sep) == |a|
  {
    if a != [] {
      assert (a + [sep] + b)[1..] == a[1..] + [sep] + b;
      IndexOfSeparated(a[1..], sep, b);
    }
  }

  /** Two strings joined by a separator they do not contain can be told
      apart piece by piece. */
  lemma SeparatedPrefix(a: string, b: string, c: string, d: string, sep: char)
    requires sep !in a && sep !in c
    requires a + [sep] + b == c + [sep] + d
    ensures a == c && b == d
  {
    var x := a + [sep] + b;
    IndexOfSeparated(a, sep, b);
    IndexOfSeparated(c, sep, d);
    assert a == x[..|a|] == c;
    assert b == x[|a| + 1..] == d;
  }
}
