/** Sequence windows and optional values shared by every bounded memory of the agent. */
module Seqs {

  datatype Option<+T> = None | Some(value: T)

  /** The longest suffix of `s` holding at most `n` elements. */
  function Last<T>(n: nat, s: seq<T>): (r: seq<T>)
    ensures |r| == if |s| <= n then |s| else n
  {
    if |s| <= n then s else s[|s| - n..]
  }

  predicate IsSuffix<T(==)>(a: seq<T>, b: seq<T>) {
    |a| <= |b| && a == b[|b| - |a|..]
  }

  predicate NoDups<T(==)>(s: seq<T>) {
    forall i, j :: 0 <= i < j < |s| ==> s[i] != s[j]
  }

  lemma LastIsSuffix<T>(n: nat, s: seq<T>)
    ensures IsSuffix(Last(n, s), s)
  {
  }

  /** Trimming to a window before every append loses nothing the final window needs. */
  lemma LastAppend<T>(n: nat, s: seq<T>, t: seq<T>)
    ensures Last(n, Last(n, s) + t) == Last(n, s + t)
  {
    var w := Last(n, s);
    assert IsSuffix(w + t, s + t);
    if |s + t| > n && |s| > n {
      assert (s + t)[|s + t| - n..] == (w + t)[|w + t| - n..];
    }
  }

  lemma SuffixTrans<T>(a: seq<T>, b: seq<T>, c: seq<T>)
    requires IsSuffix(a, b) && IsSuffix(b, c)
    ensures IsSuffix(a, c)
  {
    assert c[|c| - |a|..] == b[|b| - |a|..];
  }

  /** The elements of `s` that satisfy `p`, in order. */
  function Keep<T(!new)>(p: T -> bool, s: seq<T>): (r: seq<T>)
    ensures |r| <= |s|
    ensures forall x :: x in r <==> x in s && p(x)
  {
    if s == [] then []
    else
      var rest := Keep(p, s[..|s| - 1]);
      assert s == s[..|s| - 1] + [s[|s| - 1]];
      if p(s[|s| - 1]) then rest + [s[|s| - 1]] else rest
  }

  lemma {:induction false} KeepConcat<T(!new)>(p: T -> bool, a: seq<T>, b: seq<T>)
    ensures Keep(p, a + b) == Keep(p, a) + Keep(p, b)
    decreases |b|
  {
    if b == [] {
      assert a + b == a;
    } else {
      assert (a + b)[..|a + b| - 1] == a + b[..|b| - 1];
      KeepConcat(p, a, b[..|b| - 1]);
    }
  }

  lemma {:induction false} KeepAll<T(!new)>(p: T -> bool, s: seq<T>)
    requires forall x :: x in s ==> p(x)
    ensures Keep(p, s) == s
  {
    if s != [] {
      KeepAll(p, s[..|s| - 1]);
    }
  }

  lemma {:induction false} KeepSuffix<T(!new)>(p: T -> bool, a: seq<T>, b: seq<T>)
    requires IsSuffix(a, b)
    ensures IsSuffix(Keep(p, a), Keep(p, b))
  {
    var front := b[..|b| - |a|];
    assert b == front + a;
    KeepConcat(p, front, a);
  }

  /** Filtering with the stronger predicate absorbs an earlier weaker filter. */
  lemma {:induction false} KeepKeep<T(!new)>(weak: T -> bool, strong: T -> bool, s: seq<T>)
    requires forall x :: x in s && strong(x) ==> weak(x)
    ensures Keep(strong, Keep(weak, s)) == Keep(strong, s)
  {
    if s != [] {
      var x := s[|s| - 1];
      KeepKeep(weak, strong, s[..|s| - 1]);
      if weak(x) {
        KeepConcat(strong, Keep(weak, s[..|s| - 1]), [x]);
        KeepConcat(strong, s[..|s| - 1], [x]);
      }
    }
  }
}
