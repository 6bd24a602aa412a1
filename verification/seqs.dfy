/**
 Generic sequence helpers shared by the scheduler model: flattening a
 sequence of sequences, filtering by a predicate, and the lemmas that let
 the two traversal formulations be compared element by element.
 */
module Seqs {

  /** The answer of one `next` call of an iterator: an element, or the end. */
  datatype Option<T> = None | Some(value: T)

  /** The concatenation of all the sequences in `a`, in order. */
  function Concat<T>(a: seq<seq<T>>): seq<T>
  {
    if |a| == 0 then [] else a[0] + Concat(a[1..])
  }

  /** The subsequence of `s` whose elements satisfy `keep`, in their original order. */
  function Filter<T>(s: seq<T>, keep: T -> bool): seq<T>
  {
    if |s| == 0 then []
    else if keep(s[0]) then [s[0]] + Filter(s[1..], keep)
    else Filter(s[1..], keep)
  }

  /** Putting the head of `s` back in front of the rest of `s + t` restores `s + t`. */
  lemma HeadThenTail<T>(s: seq<T>, t: seq<T>)
    requires s != []
    ensures [s[0]] + (s[1..] + t) == s + t
  {
    assert s == [s[0]] + s[1..];
  }

  lemma {:induction false} ConcatAppend<T>(a: seq<seq<T>>, b: seq<seq<T>>)
    ensures Concat(a + b) == Concat(a) + Concat(b)
  {
    if |a| == 0 {
      assert a + b == b;
    } else {
      assert (a + b)[1..] == a[1..] + b;
      ConcatAppend(a[1..], b);
    }
  }

  /** A flattening is empty exactly when every part is empty. */
  lemma {:induction false} ConcatEmpty<T>(a: seq<seq<T>>)
    ensures Concat(a) == [] <==> forall i :: 0 <= i < |a| ==> a[i] == []
  {
    if |a| > 0 {
      ConcatEmpty(a[1..]);
      assert forall i :: 1 <= i < |a| ==> a[i] == a[1..][i - 1];
    }
  }

  /**
   When every part of `a` is the part of `b` followed by the part of `c`,
   flattening `a` holds exactly the elements of both flattenings.
   */
  lemma {:induction false} ConcatPointwise<T>(a: seq<seq<T>>, b: seq<seq<T>>, c: seq<seq<T>>)
    requires |a| == |b| == |c|
    requires forall i :: 0 <= i < |a| ==> a[i] == b[i] + c[i]
    ensures multiset(Concat(a)) == multiset(Concat(b)) + multiset(Concat(c))
  {
    if |a| > 0 {
      ConcatPointwise(a[1..], b[1..], c[1..]);
      assert a[0] == b[0] + c[0];
    }
  }

  /** The length half of `ConcatPointwise`. */
  lemma {:induction false} ConcatPointwiseLength<T>(a: seq<seq<T>>, b: seq<seq<T>>, c: seq<seq<T>>)
    requires |a| == |b| == |c|
    requires forall i :: 0 <= i < |a| ==> a[i] == b[i] + c[i]
    ensures |Concat(a)| == |Concat(b)| + |Concat(c)|
  {
    if |a| > 0 {
      ConcatPointwiseLength(a[1..], b[1..], c[1..]);
      assert a[0] == b[0] + c[0];
    }
  }

  /** Element `k` of part `c` sits in the flattening right after all earlier parts. */
  lemma {:induction false} ConcatIndex<T>(a: seq<seq<T>>, c: nat, k: nat)
    requires c < |a| && k < |a[c]|
    ensures |Concat(a[..c])| + k < |Concat(a)|
    ensures Concat(a)[|Concat(a[..c])| + k] == a[c][k]
  {
    assert a == a[..c] + ([a[c]] + a[c + 1..]);
    ConcatAppend(a[..c], [a[c]] + a[c + 1..]);
    ConcatAppend([a[c]], a[c + 1..]);
    assert Concat([a[c]]) == a[c] + Concat([a[c]][1..]);
    assert [a[c]][1..] == [];
  }

  /** A filter keeps only elements of its input that pass the test. */
  lemma {:induction false} FilterMembers<T>(s: seq<T>, keep: T -> bool)
    ensures |Filter(s, keep)| <= |s|
    ensures forall x :: x in Filter(s, keep) ==> x in s && keep(x)
  {
    if |s| > 0 {
      FilterMembers(s[1..], keep);
    }
  }

  lemma {:induction false} FilterAppend<T>(s: seq<T>, t: seq<T>, keep: T -> bool)
    ensures Filter(s + t, keep) == Filter(s, keep) + Filter(t, keep)
  {
    if |s| == 0 {
      assert s + t == t;
    } else {
      assert (s + t)[1..] == s[1..] + t;
      FilterAppend(s[1..], t, keep);
    }
  }

  /** Filtering a flattening is flattening the filtered parts. */
  lemma {:induction false} FilterConcat<T>(a: seq<seq<T>>, keep: T -> bool)
    ensures Filter(Concat(a), keep) == Concat(seq(|a|, i requires 0 <= i < |a| => Filter(a[i], keep)))
  {
    var fa := seq(|a|, i requires 0 <= i < |a| => Filter(a[i], keep));
    if |a| > 0 {
      FilterAppend(a[0], Concat(a[1..]), keep);
      FilterConcat(a[1..], keep);
      assert fa[1..] == seq(|a[1..]|, i requires 0 <= i < |a[1..]| => Filter(a[1..][i], keep));
    }
  }

  /** Filtering keeps everything exactly when every element is kept. */
  lemma {:induction false} FilterKeepsAll<T>(s: seq<T>, keep: T -> bool)
    requires forall x :: x in s ==> keep(x)
    ensures Filter(s, keep) == s
  {
    if |s| > 0 {
      assert s[0] in s;
      assert forall x :: x in s[1..] ==> x in s;
      FilterKeepsAll(s[1..], keep);
    }
  }

  /** Filtering yields nothing exactly when no element is kept. */
  lemma {:induction false} FilterEmpty<T>(s: seq<T>, keep: T -> bool)
    ensures Filter(s, keep) == [] <==> forall x :: x in s ==> !keep(x)
  {
    if |s| > 0 {
      assert forall x :: x in s <==> x == s[0] || x in s[1..];
      FilterEmpty(s[1..], keep);
    }
  }

  /** When exactly one element passes the test, filtering yields just that element. */
  lemma {:induction false} FilterUnique<T>(s: seq<T>, keep: T -> bool, i: nat)
    requires i < |s| && keep(s[i])
    requires forall j :: 0 <= j < |s| && j != i ==> !keep(s[j])
    ensures Filter(s, keep) == [s[i]]
  {
    if i == 0 {
      FilterEmpty(s[1..], keep);
    } else {
      FilterUnique(s[1..], keep, i - 1);
    }
  }

  /**
   When everything `narrow` keeps is also kept by `wide`, filtering by
   `narrow` can be done after a first pass with `wide`.
   */
  lemma {:induction false} FilterRefine<T>(s: seq<T>, wide: T -> bool, narrow: T -> bool)
    requires forall x :: x in s && narrow(x) ==> wide(x)
    ensures Filter(Filter(s, wide), narrow) == Filter(s, narrow)
  {
    if |s| > 0 {
      assert forall x :: x in s[1..] ==> x in s;
      FilterRefine(s[1..], wide, narrow);
      assert s[0] in s;
    }
  }

  /** Whatever lies in a flattening lies in one of its parts. */
  lemma {:induction false} ConcatMember<T>(a: seq<seq<T>>, x: T)
    requires x in Concat(a)
    ensures exists i :: 0 <= i < |a| && x in a[i]
  {
    if x !in a[0] {
      ConcatMember(a[1..], x);
      var i :| 0 <= i < |a[1..]| && x in a[1..][i];
      assert x in a[i + 1];
    }
  }

  /** A flattening in which every part but `c` is empty is part `c`. */
  lemma {:induction false} ConcatSingle<T>(a: seq<seq<T>>, c: nat)
    requires c < |a|
    requires forall i :: 0 <= i < |a| && i != c ==> a[i] == []
    ensures Concat(a) == a[c]
  {
    assert a == a[..c] + ([a[c]] + a[c + 1..]);
    ConcatAppend(a[..c], [a[c]] + a[c + 1..]);
    ConcatAppend([a[c]], a[c + 1..]);
    ConcatEmpty(a[..c]);
    ConcatEmpty(a[c + 1..]);
    assert Concat([a[c]]) == a[c] + Concat([a[c]][1..]);
    assert [a[c]][1..] == [];
  }

  /** Removing the same elements from both sides of a multiset equation keeps it. */
  lemma {:induction false} MultisetCancel<T>(a: multiset<T>, b: multiset<T>, c: multiset<T>)
    requires a + c == b + c
    ensures a == b
  {
    forall x
      ensures a[x] == b[x]
    {
      assert (a + c)[x] == (b + c)[x];
    }
  }

  /** Flattening parts of one element each lists those elements in order. */
  lemma {:induction false} ConcatSingletons<T>(a: seq<seq<T>>)
    requires forall i :: 0 <= i < |a| ==> |a[i]| == 1
    ensures Concat(a) == seq(|a|, i requires 0 <= i < |a| => a[i][0])
  {
    if |a| > 0 {
      var heads := seq(|a|, i requires 0 <= i < |a| => a[i][0]);
      ConcatSingletons(a[1..]);
      assert a[0] == [a[0][0]];
      assert heads == [a[0][0]] + seq(|a[1..]|, i requires 0 <= i < |a[1..]| => a[1..][i][0]);
    }
  }

  /** `Iterator::skip(n)`: drop up to `n` elements from the front, leaving the suffix after position `n`. */
  function Skip<T>(s: seq<T>, n: nat): (r: seq<T>)
    ensures r == s[if n <= |s| then n else |s|..]
  {
    if n == 0 || s == [] then s else Skip(s[1..], n - 1)
  }

  /** `Iterator::take(n)`: keep up to `n` elements from the front, the prefix up to position `n`. */
  function Take<T>(s: seq<T>, n: nat): (r: seq<T>)
    ensures r == s[..if n <= |s| then n else |s|]
  {
    if n == 0 || s == [] then [] else [s[0]] + Take(s[1..], n - 1)
  }

  /** The total of a sequence of naturals. */
  function Sum(s: seq<nat>): nat
  {
    if |s| == 0 then 0 else Sum(s[..|s| - 1]) + s[|s| - 1]
  }

  /**
   When `keep` accepts everything in part `i` and nothing in any other part,
   filtering the flattening gives back part `i`.
   */
  lemma {:induction false} FilterPicksOne<T>(a: seq<seq<T>>, keep: T -> bool, i: nat)
    requires i < |a|
    requires forall x :: x in a[i] ==> keep(x)
    requires forall j, x :: 0 <= j < |a| && j != i && x in a[j] ==> !keep(x)
    ensures Filter(Concat(a), keep) == a[i]
  {
    var filtered := seq(|a|, j requires 0 <= j < |a| => Filter(a[j], keep));
    FilterConcat(a, keep);
    forall j | 0 <= j < |a|
      ensures filtered[j] == if j == i then a[i] else []
    {
      if j == i {
        FilterKeepsAll(a[i], keep);
      } else {
        FilterEmpty(a[j], keep);
      }
    }
    ConcatSingle(filtered, i);
  }
}
