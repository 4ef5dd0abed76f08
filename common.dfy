/** Small building blocks shared by every module of the model. */
module Common {

  /** A value that may be absent: a missing JSON key, `null`, `undefined`. */
  datatype Option<T> = None | Some(value: T)

  /** An endpoint's outcome: the JSON body of a success, or the error it
      answers with. */
  datatype Result<T, E> = Ok(value: T) | Err(error: E)

  /** `round(subtotal * 0.08, 2)` on an amount in cents: 8% rounded to the
      nearest cent, halves upwards (the float rounding of the original is
      not reproduced). */
  function Tax(subtotal: int): (r: int)
    ensures 100 * r - 50 <= 8 * subtotal < 100 * r + 50
  {
    (subtotal * 8 + 50) / 100
  }

  /** Sum of `f` over `s`, accumulated left to right as Python's `sum` and
      JavaScript's `reduce` do; defined from the end so that a loop adding
      `f(s[i])` keeps `total == Sum(s[..i], f)`. */
  function Sum<T>(s: seq<T>, f: T -> int): int
  {
    if s == [] then 0 else Sum(s[..|s| - 1], f) + f(s[|s| - 1])
  }

  /** Adding one element at the end adds its value. */
  lemma SumSnoc<T>(s: seq<T>, x: T, f: T -> int)
    ensures Sum(s + [x], f) == Sum(s, f) + f(x)
  {
    assert (s + [x])[..|s|] == s;
  }

  lemma {:induction false} SumAppend<T>(a: seq<T>, b: seq<T>, f: T -> int)
    ensures Sum(a + b, f) == Sum(a, f) + Sum(b, f)
  {
    if b == [] {
      assert a + b == a;
    } else {
      var b' := b[..|b| - 1];
      assert (a + b)[..|a + b| - 1] == a + b';
      SumAppend(a, b', f);
    }
  }

  lemma {:induction false} SumNonNegative<T>(s: seq<T>, f: T -> int)
    requires forall i :: 0 <= i < |s| ==> f(s[i]) >= 0
    ensures Sum(s, f) >= 0
  {
    if s != [] {
      SumNonNegative(s[..|s| - 1], f);
    }
  }

  /** The elements of `s` satisfying `p`, in their original order
      (a list comprehension with an `if`, or `Array.prototype.filter`). */
  function Filter<T(!new)>(s: seq<T>, p: T -> bool): (r: seq<T>)
    ensures |r| <= |s|
    ensures forall x :: x in r <==> x in s && p(x)
  {
    if s == [] then []
    else Filter(s[..|s| - 1], p) + (if p(s[|s| - 1]) then [s[|s| - 1]] else [])
  }

  lemma {:induction false} FilterAppend<T(!new)>(a: seq<T>, b: seq<T>, p: T -> bool)
    ensures Filter(a + b, p) == Filter(a, p) + Filter(b, p)
  {
    if b == [] {
      assert a + b == a;
    } else {
      var b' := b[..|b| - 1];
      assert (a + b)[..|a + b| - 1] == a + b';
      FilterAppend(a, b', p);
    }
  }

  /** Filtering a non-empty sequence: the filtered prefix, then the last
      element when it passes. */
  lemma FilterLast<T(!new)>(s: seq<T>, p: T -> bool)
    requires s != []
    ensures Filter(s, p) == Filter(s[..|s| - 1], p) + (if p(s[|s| - 1]) then [s[|s| - 1]] else [])
  {
  }

  /** A filter whose test holds everywhere keeps the whole sequence. */
  lemma {:induction false} FilterAll<T(!new)>(s: seq<T>, t: T -> bool)
    requires forall i :: 0 <= i < |s| ==> t(s[i])
    ensures Filter(s, t) == s
  {
    if s != [] {
      var init, last := s[..|s| - 1], s[|s| - 1];
      assert forall i :: 0 <= i < |init| ==> t(init[i]) by {
        assert forall i :: 0 <= i < |init| ==> init[i] == s[i];
      }
      calc {
        Filter(s, t);
        { FilterLast(s, t); }
        Filter(init, t) + (if t(last) then [last] else []);
        { FilterAll(init, t); }
        init + [last];
        s;
      }
    }
  }

  /** Filtering a sequence with a known first element. */
  lemma {:induction false} FilterFront<T(!new)>(a: T, s: seq<T>, p: T -> bool)
    ensures Filter([a] + s, p) == (if p(a) then [a] else []) + Filter(s, p)
  {
    FilterAppend([a], s, p);
    assert [a][..0] == [];
    assert Filter([a], p) == Filter([], p) + (if p(a) then [a] else []);
  }

  /** `r` can be obtained from `s` by deleting elements: an order-preserving
      subsequence. */
  ghost predicate Embeds<T>(r: seq<T>, s: seq<T>)
    decreases |s|
  {
    if r == [] then true
    else if s == [] then false
    else (r[|r| - 1] == s[|s| - 1] && Embeds(r[..|r| - 1], s[..|s| - 1]))
         || Embeds(r, s[..|s| - 1])
  }

  lemma {:induction false} FilterEmbeds<T(!new)>(s: seq<T>, p: T -> bool)
    ensures Embeds(Filter(s, p), s)
  {
    if s != [] {
      var s' := s[..|s| - 1];
      FilterEmbeds(s', p);
      var r := Filter(s, p);
      if p(s[|s| - 1]) {
        assert r[..|r| - 1] == Filter(s', p);
      } else {
        assert r == Filter(s', p);
      }
    }
  }

  /** Every two elements of `s`, taken in order, are related by `ok`. */
  ghost predicate Pairwise<T>(s: seq<T>, ok: (T, T) -> bool)
  {
    forall i, j :: 0 <= i < j < |s| ==> ok(s[i], s[j])
  }

  /** Deleting elements keeps a pairwise property. */
  lemma {:induction false} EmbedsPairwise<T>(r: seq<T>, s: seq<T>, ok: (T, T) -> bool)
    requires Embeds(r, s) && Pairwise(s, ok)
    ensures Pairwise(r, ok)
    decreases |s|
  {
    if r != [] {
      var s' := s[..|s| - 1];
      assert Pairwise(s', ok);
      if r[|r| - 1] == s[|s| - 1] && Embeds(r[..|r| - 1], s') {
        var r' := r[..|r| - 1];
        EmbedsPairwise(r', s', ok);
        EmbedsMembers(r', s');
        forall i, j | 0 <= i < j < |r| ensures ok(r[i], r[j]) {
          if j == |r| - 1 {
            assert r[i] == r'[i];
            var k :| 0 <= k < |s'| && s'[k] == r'[i];
            assert s[k] == r[i] && s[|s| - 1] == r[j];
          } else {
            assert r[i] == r'[i] && r[j] == r'[j];
          }
        }
      } else {
        EmbedsPairwise(r, s', ok);
      }
    }
  }

  /** Every element of an embedded sequence occurs in the larger one. */
  lemma {:induction false} EmbedsMembers<T>(r: seq<T>, s: seq<T>)
    requires Embeds(r, s)
    ensures forall i :: 0 <= i < |r| ==> exists k :: 0 <= k < |s| && s[k] == r[i]
    decreases |s|
  {
    if r != [] {
      var s' := s[..|s| - 1];
      if r[|r| - 1] == s[|s| - 1] && Embeds(r[..|r| - 1], s') {
        EmbedsMembers(r[..|r| - 1], s');
        forall i | 0 <= i < |r| ensures exists k :: 0 <= k < |s| && s[k] == r[i] {
          if i == |r| - 1 {
            assert s[|s| - 1] == r[i];
          } else {
            assert r[i] == r[..|r| - 1][i];
            var k :| 0 <= k < |s'| && s'[k] == r[i];
            assert s[k] == r[i];
          }
        }
      } else {
        EmbedsMembers(r, s');
        forall i | 0 <= i < |r| ensures exists k :: 0 <= k < |s| && s[k] == r[i] {
          var k :| 0 <= k < |s'| && s'[k] == r[i];
          assert s[k] == r[i];
        }
      }
    }
  }

  /** Number of elements of `s` satisfying `p`. */
  function Count<T(!new)>(s: seq<T>, p: T -> bool): nat
  {
    |Filter(s, p)|
  }

  /** Whether `needle` occurs as a contiguous block of `hay`
      (Python's `needle in hay` on strings). */
  predicate ContainsAt(hay: string, needle: string, i: nat)
  {
    i + |needle| <= |hay| && hay[i..i + |needle|] == needle
  }

  predicate Contains(hay: string, needle: string)
  {
    exists i: nat :: i <= |hay| && ContainsAt(hay, needle, i)
  }
}
