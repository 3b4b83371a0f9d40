/** Shared vocabulary: optional values and a few facts about finite sequences. */
module Prelude {

  /** Identifiers are only compared for equality, so a number stands for each string;
      `NoName` is the empty string. Texts are opaque in the same way. */
  type Name = nat
  type Text = nat

  const NoName: Name := 0

  datatype Option<+T> = None | Some(value: T)

  predicate Distinct<T(==)>(s: seq<T>) {
    forall i, j :: 0 <= i < j < |s| ==> s[i] != s[j]
  }

  function Max(a: int, b: int): int {
    if a < b then b else a
  }

  /** `a` can be read off `b` from left to right, skipping elements of `b`. */
  predicate Subsequence<T(==)>(a: seq<T>, b: seq<T>)
    decreases |b|
  {
    if a == [] then true
    else if b == [] then false
    else if a[|a| - 1] == b[|b| - 1] then Subsequence(a[..|a| - 1], b[..|b| - 1])
    else Subsequence(a, b[..|b| - 1])
  }

  lemma {:induction false} SubsequenceElements<T>(a: seq<T>, b: seq<T>)
    requires Subsequence(a, b)
    ensures forall x :: x in a ==> x in b
    decreases |b|
  {
    if a != [] {
      if a[|a| - 1] == b[|b| - 1] {
        SubsequenceElements(a[..|a| - 1], b[..|b| - 1]);
        assert a == a[..|a| - 1] + [a[|a| - 1]];
      } else {
        SubsequenceElements(a, b[..|b| - 1]);
      }
    }
  }

  /** A subsequence of a duplicate-free sequence is duplicate-free. */
  lemma {:induction false} SubsequenceDistinct<T>(a: seq<T>, b: seq<T>)
    requires Subsequence(a, b) && Distinct(b)
    ensures Distinct(a)
    decreases |b|
  {
    if a != [] {
      var b' := b[..|b| - 1];
      if a[|a| - 1] == b[|b| - 1] {
        SubsequenceDistinct(a[..|a| - 1], b');
        SubsequenceElements(a[..|a| - 1], b');
        forall i | 0 <= i < |a| - 1 ensures a[i] != a[|a| - 1] {
          assert a[..|a| - 1][i] in b';
        }
      } else {
        SubsequenceDistinct(a, b');
      }
    }
  }

  lemma {:induction false} SubsequenceRefl<T>(a: seq<T>)
    ensures Subsequence(a, a)
  {
    if a != [] {
      SubsequenceRefl(a[..|a| - 1]);
    }
  }

  /** Appending the same new element to both sides, or only to the longer side. */
  lemma SubsequenceGrow<T>(a: seq<T>, b: seq<T>, x: T)
    requires Subsequence(a, b)
    ensures Subsequence(a + [x], b + [x])
    ensures x !in b ==> Subsequence(a, b + [x])
  {
    assert (a + [x])[..|a|] == a && (b + [x])[..|b|] == b;
    if x !in b && a != [] {
      SubsequenceElements(a, b);
      assert a[|a| - 1] in a;
    }
  }

  /** `f` places the elements of `a` in `b`, in order. */
  predicate Places<T(==)>(a: seq<T>, b: seq<T>, f: seq<nat>) {
    && |f| == |a| && (forall i :: 0 <= i < |f| ==> f[i] < |b| && b[f[i]] == a[i])
    && (forall i, j :: 0 <= i < j < |f| ==> f[i] < f[j])
  }

  /** `b` is `a` with elements inserted. */
  ghost predicate InOrder<T>(a: seq<T>, b: seq<T>) {
    exists f: seq<nat> :: Places(a, b, f)
  }

  lemma InOrderItself<T>(a: seq<T>)
    ensures InOrder(a, a)
  {
    assert Places(a, a, seq(|a|, i => i));
  }

  lemma InOrderInsert<T>(a: seq<T>, p: seq<T>, x: seq<T>, s: seq<T>)
    requires InOrder(a, p + s)
    ensures InOrder(a, p + x + s)
  {
    var f :| Places(a, p + s, f);
    var g := seq(|f|, i requires 0 <= i < |f| => if f[i] < |p| then f[i] else f[i] + |x|);
    forall i | 0 <= i < |g| ensures g[i] < |p + x + s| && (p + x + s)[g[i]] == a[i] {
      assert (p + s)[f[i]] == a[i];
    }
    assert Places(a, p + x + s, g);
  }

  lemma InOrderCons<T>(a: seq<T>, b: seq<T>, x: T)
    requires InOrder(a, b)
    ensures InOrder([x] + a, [x] + b)
  {
    var f :| Places(a, b, f);
    var g: seq<nat> := [0] + seq(|f|, i requires 0 <= i < |f| => f[i] + 1);
    assert Places([x] + a, [x] + b, g);
  }

  lemma InOrderMore<T>(a: seq<T>, b: seq<T>, x: T)
    requires InOrder(a, b)
    ensures InOrder(a, [x] + b)
  {
    assert [] + b == b && [] + [x] + b == [x] + b;
    InOrderInsert(a, [], [x], b);
  }

  lemma InOrderTrans<T>(a: seq<T>, b: seq<T>, c: seq<T>)
    requires InOrder(a, b) && InOrder(b, c)
    ensures InOrder(a, c)
  {
    var f :| Places(a, b, f);
    var g :| Places(b, c, g);
    var h: seq<nat> := seq(|f|, i requires 0 <= i < |f| => g[f[i]]);
    assert Places(a, c, h);
  }

  lemma Assoc<T>(a: seq<T>, b: seq<T>, c: seq<T>)
    ensures a + (b + c) == (a + b) + c
  {
  }

  /** There is always a name that is not taken yet. */
  lemma FreshName(taken: set<Name>) returns (n: Name)
    ensures n !in taken && n != NoName
  {
    n := Above(taken);
  }

  lemma {:induction false} Above(names: set<Name>) returns (n: Name)
    ensures n > NoName && forall a :: a in names ==> a < n
  {
    if names == {} {
      n := NoName + 1;
    } else {
      var a :| a in names;
      var rest := Above(names - {a});
      n := if rest > a then rest else a + 1;
      forall b | b in names ensures b < n {
        assert b == a || b in names - {a};
      }
    }
  }
}
