/** Vocabulary shared by every module of the model. */
module Prelude {

  datatype Option<+T> = None | Some(value: T)

  datatype Result<+T, +E> = Ok(value: T) | Err(error: E)

  function Elements<T>(s: seq<T>): set<T> {
    set x | x in s
  }

  ghost predicate Distinct<T>(s: seq<T>) {
    forall i, j :: 0 <= i < j < |s| ==> s[i] != s[j]
  }

  /** A sequence has at most as many different elements as positions. */
  lemma {:induction false} ElementsBound<T>(s: seq<T>)
    ensures |Elements(s)| <= |s|
  {
    if s != [] {
      var last := s[|s| - 1];
      ElementsBound(s[..|s| - 1]);
      assert Elements(s) == Elements(s[..|s| - 1]) + {last};
    }
  }

  /** `picked` is what `make` makes of the elements that `keep` keeps, in order; `at` says where each stood. */
  ghost predicate Filtered<T(!new), U>(all: seq<T>, picked: seq<U>, at: seq<nat>, keep: T -> bool, make: T -> U) {
    && |at| == |picked| && (forall k :: 0 <= k < |at| ==> at[k] < |all| && picked[k] == make(all[at[k]]))
    && (forall k, m :: 0 <= k < m < |at| ==> at[k] < at[m])
    && (forall i: nat :: i < |all| && keep(all[i]) <==> i in at)
  }

  lemma FilteredSnoc<T(!new), U>(all: seq<T>, x: T, picked: seq<U>, at: seq<nat>, keep: T -> bool, make: T -> U)
    requires Filtered(all, picked, at, keep, make)
    ensures keep(x) ==> Filtered(all + [x], picked + [make(x)], at + [|all|], keep, make)
    ensures !keep(x) ==> Filtered(all + [x], picked, at, keep, make)
  {
    assert forall i :: 0 <= i < |all| ==> (all + [x])[i] == all[i];
    assert forall i: nat :: i in at ==> i < |all|;
    assert forall i: nat :: i in at + [|all|] <==> i in at || i == |all|;
  }

  lemma Append<T>(s: seq<T>, x: T, y: T)
    ensures multiset(s + [x])[y] == multiset(s)[y] + if x == y then 1 else 0
  {
  }

  lemma DistinctConcat<T>(a: seq<T>, b: seq<T>)
    requires Distinct(a) && Distinct(b)
    requires forall x :: x in a ==> x !in b
    ensures Distinct(a + b)
  {
    forall i, j | 0 <= i < j < |a + b| ensures (a + b)[i] != (a + b)[j] {
      if i < |a| <= j {
        assert (a + b)[i] in a && (a + b)[j] in b;
      }
    }
  }
}
