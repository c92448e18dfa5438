/** Small string and option helpers shared by the backend and frontend models.
    Characters are Unicode scalar values; the case mappings and the set of
    white-space characters are the ASCII ones only. */
module Text {

  datatype Option<T> = None | Some(value: T)

  datatype Result<T, E> = Ok(value: T) | Err(error: E)

  /** The ASCII white space JavaScript's trim() removes: space, tab, line
      feed, vertical tab, form feed and carriage return. Python's
      str.strip() removes these and also U+001C..U+001F. */
  predicate IsSpace(c: char) {
    c == ' ' || c == '\t' || c == '\n' || c == '\r' || c == '\U{0B}' || c == '\U{0C}'
  }

  predicate AllSpace(s: string) {
    forall i :: 0 <= i < |s| ==> IsSpace(s[i])
  }

  /** Drops leading white space: the result is a suffix of `s` that does not
      start with white space, and everything dropped was white space. */
  function TrimStart(s: string): (r: string)
    ensures |r| <= |s| && r == s[|s| - |r|..]
    ensures r == [] || !IsSpace(r[0])
    ensures forall i :: 0 <= i < |s| - |r| ==> IsSpace(s[i])
  {
    if s != [] && IsSpace(s[0]) then TrimStart(s[1..]) else s
  }

  /** Drops trailing white space: the result is a prefix of `s` that does not
      end with white space, and everything dropped was white space. */
  function TrimEnd(s: string): (r: string)
    ensures |r| <= |s| && r == s[..|r|]
    ensures r == [] || !IsSpace(r[|r| - 1])
    ensures forall i :: |r| <= i < |s| ==> IsSpace(s[i])
  {
    if s != [] && IsSpace(s[|s| - 1]) then TrimEnd(s[..|s| - 1]) else s
  }

  /** Python's str.strip() / JavaScript's String.prototype.trim(). */
  function Strip(s: string): (r: string)
    ensures |r| <= |s|
    ensures r == [] || (!IsSpace(r[0]) && !IsSpace(r[|r| - 1]))
  {
    TrimEnd(TrimStart(s))
  }

  /** Stripping keeps one contiguous middle of `s` and drops only white
      space before and after it. */
  lemma StripKeepsMiddle(s: string)
    ensures var i := |s| - |TrimStart(s)|;
            && i + |Strip(s)| <= |s| && Strip(s) == s[i..i + |Strip(s)|]
            && (forall k :: 0 <= k < i ==> IsSpace(s[k]))
            && (forall k :: i + |Strip(s)| <= k < |s| ==> IsSpace(s[k]))
  {
    var t := TrimStart(s);
    var r := TrimEnd(t);
    var i := |s| - |t|;
    assert t == s[i..];
    assert r == t[..|r|];
    assert r == s[i..i + |r|];
    forall k | i + |r| <= k < |s|
      ensures IsSpace(s[k])
    {
      assert s[k] == t[k - i];
    }
  }

  /** A string strips to nothing exactly when it is all white space. */
  lemma StripEmptyIff(s: string)
    ensures Strip(s) == [] <==> AllSpace(s)
  {
    var t := TrimStart(s);
    if Strip(s) == [] {
      assert t == [];
    } else {
      var r := Strip(s);
      assert !IsSpace(r[0]);
      assert r[0] == t[0] == s[|s| - |t|];
    }
  }

  function LowerChar(c: char): char {
    if 'A' <= c <= 'Z' then (c as int + 32) as char else c
  }

  function UpperChar(c: char): char {
    if 'a' <= c <= 'z' then (c as int - 32) as char else c
  }

  /** ASCII lower-casing (Python's str.lower(), JavaScript's toLowerCase()). */
  function Lower(s: string): string {
    seq(|s|, i requires 0 <= i < |s| => LowerChar(s[i]))
  }

  predicate OccursAt(s: string, p: string, i: int) {
    0 <= i <= |s| - |p| && s[i..i + |p|] == p
  }

  predicate StartsWith(s: string, p: string) {
    |p| <= |s| && s[..|p|] == p
  }

  predicate EndsWith(s: string, p: string) {
    |p| <= |s| && s[|s| - |p|..] == p
  }

  /** Substring test (Python's `p in s`, JavaScript's s.includes(p)),
      computed by scanning start positions. */
  predicate Contains(s: string, p: string) {
    StartsWith(s, p) || (s != [] && Contains(s[1..], p))
  }

  /** The scanning definition agrees with "p occurs at some position". */
  lemma {:induction false} ContainsIff(s: string, p: string)
    ensures Contains(s, p) <==> exists i :: OccursAt(s, p, i)
  {
    if StartsWith(s, p) {
      assert OccursAt(s, p, 0);
    } else if s != [] {
      ContainsIff(s[1..], p);
      if Contains(s[1..], p) {
        var i :| OccursAt(s[1..], p, i);
        assert s[1..][i..i + |p|] == s[i + 1..i + 1 + |p|];
        assert OccursAt(s, p, i + 1);
      }
      if exists i :: OccursAt(s, p, i) {
        var i :| OccursAt(s, p, i);
        assert i != 0;
        assert s[1..][i - 1..i - 1 + |p|] == s[i..i + |p|];
        assert OccursAt(s[1..], p, i - 1);
      }
    }
  }

  /** The empty string occurs in every string. */
  lemma ContainsEmpty(s: string)
    ensures Contains(s, "")
  {
    assert StartsWith(s, "");
  }

  /** Python's s[:n] and JavaScript's s.substring(0, n) for n >= 0. */
  function Take<T>(s: seq<T>, n: nat): (r: seq<T>)
    ensures |r| == if n < |s| then n else |s|
    ensures r == s[..|r|]
  {
    if n < |s| then s[..n] else s
  }

  /** A prefix holds only elements of the whole. */
  lemma TakeKeeps<T>(s: seq<T>, n: nat)
    ensures forall x :: x in Take(s, n) ==> x in s
  {
    var r := Take(s, n);
    forall x | x in r ensures x in s {
      var i :| 0 <= i < |r| && r[i] == x;
      assert s[i] == x;
    }
  }

  /** Python's sep.join(xs) / JavaScript's xs.join(sep). */
  function Join(xs: seq<string>, sep: string): string {
    if |xs| == 0 then ""
    else if |xs| == 1 then xs[0]
    else xs[0] + sep + Join(xs[1..], sep)
  }

  lemma JoinEmptyIff(xs: seq<string>, sep: string)
    requires sep != []
    ensures Join(xs, sep) == "" <==> xs == [] || xs == [""]
  {
    if |xs| > 1 {
      assert |Join(xs, sep)| >= |sep|;
    }
  }

  /** JavaScript's Math.round: the nearest integer, halves rounded up. */
  function RoundHalfUp(x: real): (n: int)
    ensures n as real <= x + 0.5 < n as real + 1.0
  {
    (x + 0.5).Floor
  }

  /** `n` copies of `x` (Python's [x] * n). */
  function Repeat<T>(x: T, n: nat): (r: seq<T>)
    ensures |r| == n && forall i :: 0 <= i < n ==> r[i] == x
  {
    if n == 0 then [] else [x] + Repeat(x, n - 1)
  }

  /** Python's s.split(d) for a one-character separator: the pieces hold no
      separator, there is always at least one, and joining them back with the
      separator gives `s` (SplitJoin). */
  function Split(s: string, d: char): (r: seq<string>)
    ensures |r| >= 1
    ensures forall k :: 0 <= k < |r| ==> d !in r[k]
  {
    if s == [] then [""]
    else
      var rest := Split(s[1..], d);
      if s[0] == d then [""] + rest else [[s[0]] + rest[0]] + rest[1..]
  }

  lemma {:induction false} SplitJoin(s: string, d: char)
    ensures Join(Split(s, d), [d]) == s
  {
    if s != [] {
      var rest := Split(s[1..], d);
      SplitJoin(s[1..], d);
      if s[0] == d {
        assert Split(s, d) == [""] + rest;
        assert (([""] + rest)[1..]) == rest;
      } else {
        var r := Split(s, d);
        assert r == [[s[0]] + rest[0]] + rest[1..];
        if |rest| == 1 {
          assert r == [[s[0]] + rest[0]];
        } else {
          assert r[1..] == rest[1..];
          assert Join(rest, [d]) == rest[0] + [d] + Join(rest[1..], [d]);
          assert Join(r, [d]) == [s[0]] + rest[0] + [d] + Join(rest[1..], [d]);
        }
      }
    }
  }

  /** The positions of `xs` whose element satisfies `p`. */
  ghost function Positions<T>(xs: seq<T>, p: T -> bool): set<int> {
    set k | 0 <= k < |xs| && p(xs[k])
  }

  /** The filtered list has one element per satisfying position. */
  lemma {:induction false} FilterCount<T>(xs: seq<T>, p: T -> bool)
    ensures |Filter(xs, p)| == |Positions(xs, p)|
  {
    if xs == [] {
      assert Positions(xs, p) == {};
    } else {
      var n := |xs| - 1;
      var init := xs[..n];
      FilterCount(init, p);
      assert forall k :: 0 <= k < n ==> init[k] == xs[k];
      if p(xs[n]) {
        assert Positions(xs, p) == Positions(init, p) + {n};
      } else {
        assert Positions(xs, p) == Positions(init, p);
      }
    }
  }

  /** JavaScript's xs.filter(p), built from the back. */
  function Filter<T>(xs: seq<T>, p: T -> bool): (r: seq<T>)
    ensures |r| <= |xs|
  {
    if xs == [] then []
    else Filter(xs[..|xs| - 1], p) + (if p(xs[|xs| - 1]) then [xs[|xs| - 1]] else [])
  }

  /** The filtered list keeps exactly the elements that satisfy `p`. */
  lemma {:induction false} FilterMembers<T>(xs: seq<T>, p: T -> bool)
    ensures forall i :: 0 <= i < |Filter(xs, p)| ==> Filter(xs, p)[i] in xs && p(Filter(xs, p)[i])
    ensures forall i :: 0 <= i < |xs| && p(xs[i]) ==> xs[i] in Filter(xs, p)
  {
    if xs != [] {
      var init, x := xs[..|xs| - 1], xs[|xs| - 1];
      FilterMembers(init, p);
      var f := Filter(init, p);
      var r := Filter(xs, p);
      assert r == f + (if p(x) then [x] else []);
      forall i | 0 <= i < |r|
        ensures r[i] in xs && p(r[i])
      {
        if i < |f| {
          assert r[i] == f[i];
          assert f[i] in init;
        }
      }
      forall i | 0 <= i < |xs| && p(xs[i])
        ensures xs[i] in r
      {
        if i < |init| {
          assert xs[i] == init[i];
        }
      }
    }
  }

  lemma FilterSnoc<T>(xs: seq<T>, x: T, p: T -> bool)
    ensures Filter(xs + [x], p) == Filter(xs, p) + (if p(x) then [x] else [])
  {
    assert (xs + [x])[..|xs|] == xs;
  }

  /** Filtering by `p` and by its negation splits a list in two. */
  lemma {:induction false} FilterPartition<T>(xs: seq<T>, p: T -> bool, q: T -> bool)
    requires forall x :: q(x) == !p(x)
    ensures |Filter(xs, p)| + |Filter(xs, q)| == |xs|
  {
    if xs != [] {
      FilterPartition(xs[..|xs| - 1], p, q);
    }
  }

  /** Two filters can be applied in either order. */
  lemma {:induction false} FilterCommute<T>(xs: seq<T>, p: T -> bool, q: T -> bool)
    ensures Filter(Filter(xs, p), q) == Filter(Filter(xs, q), p)
  {
    if xs != [] {
      var init, x := xs[..|xs| - 1], xs[|xs| - 1];
      assert xs == init + [x];
      FilterCommute(init, p, q);
      FilterSnocOrKeep(init, x, p, q);
      FilterSnocOrKeep(init, x, q, p);
    }
  }

  /** Filtering by `p` then `q` after appending `x`. */
  lemma FilterSnocOrKeep<T>(xs: seq<T>, x: T, p: T -> bool, q: T -> bool)
    ensures Filter(Filter(xs + [x], p), q) == Filter(Filter(xs, p), q) + (if p(x) && q(x) then [x] else [])
  {
    FilterSnoc(xs, x, p);
    if p(x) {
      FilterSnoc(Filter(xs, p), x, q);
    } else {
      assert Filter(xs, p) + [] == Filter(xs, p);
    }
  }

  /** Filtering a prefix gives a prefix of the filtered list. */
  lemma {:induction false} FilterPrefix<T>(xs: seq<T>, p: T -> bool, k: nat)
    requires k <= |xs|
    ensures |Filter(xs[..k], p)| <= |Filter(xs, p)|
    ensures Filter(xs[..k], p) == Filter(xs, p)[..|Filter(xs[..k], p)|]
  {
    if k < |xs| {
      var init := xs[..|xs| - 1];
      assert init[..k] == xs[..k];
      FilterPrefix(init, p, k);
      assert xs == init + [xs[|xs| - 1]];
      FilterSnoc(init, xs[|xs| - 1], p);
    } else {
      assert xs[..k] == xs;
    }
  }

  /** The filtered list is `xs` with some elements left out, order kept. */
  lemma {:induction false} FilterSubsequence<T>(xs: seq<T>, p: T -> bool)
    ensures Subsequence(Filter(xs, p), xs)
  {
    var f := FilterPositions(xs, p);
  }

  /** The positions Filter keeps, witnessing FilterSubsequence. */
  lemma {:induction false} FilterPositions<T>(xs: seq<T>, p: T -> bool) returns (f: seq<int>)
    ensures EmbedsBy(f, Filter(xs, p), xs)
    ensures forall k :: 0 <= k < |f| ==> f[k] < |xs|
  {
    if xs == [] {
      f := [];
    } else {
      var init, x := xs[..|xs| - 1], xs[|xs| - 1];
      var g := FilterPositions(init, p);
      var r0 := Filter(init, p);
      if p(x) {
        f := g + [|xs| - 1];
        var r := Filter(xs, p);
        assert r == r0 + [x];
        forall k | 0 <= k < |f|
          ensures 0 <= f[k] < |xs| && r[k] == xs[f[k]]
        {
          if k < |g| {
            assert r[k] == r0[k] == init[g[k]] == xs[g[k]];
          }
        }
      } else {
        f := g;
        assert Filter(xs, p) == r0;
        forall k | 0 <= k < |f|
          ensures 0 <= f[k] < |xs| && r0[k] == xs[f[k]]
        {
          assert r0[k] == init[g[k]] == xs[g[k]];
        }
      }
    }
  }

  /** `a` is `b` with some elements left out, order kept: `f` gives, for each
      element of `a`, its strictly increasing position in `b`. */
  ghost predicate Subsequence<T>(a: seq<T>, b: seq<T>) {
    exists f: seq<int> :: EmbedsBy(f, a, b)
  }

  ghost predicate EmbedsBy<T>(f: seq<int>, a: seq<T>, b: seq<T>) {
    && |f| == |a|
    && (forall k :: 0 <= k < |f| ==> 0 <= f[k] < |b| && a[k] == b[f[k]])
    && (forall k, l :: 0 <= k < l < |f| ==> f[k] < f[l])
  }
}
