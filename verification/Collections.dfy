/** Facts about sequences and sets that several components need. */
module Collections {
  predicate Distinct<T(==)>(s: seq<T>) {
    forall i, j | 0 <= i < j < |s| :: s[i] != s[j]
  }

  lemma Associates<T>(a: seq<T>, b: seq<T>, c: seq<T>)
    ensures a + b + c == a + (b + c)
  {
  }

  lemma {:induction false} SubsetSize<T>(a: set<T>, b: set<T>)
    requires a <= b
    ensures |a| <= |b|
    decreases a
  {
    if a != {} {
      var x :| x in a;
      SubsetSize(a - {x}, b - {x});
    }
  }

  /** Induction over the natural numbers up to `n`. */
  lemma {:induction false} Induct(p: nat -> bool, n: nat)
    requires p(0) && forall k: nat | k < n :: p(k) ==> p(k + 1)
    ensures p(n)
  {
    if n > 0 {
      Induct(p, n - 1);
      assert p(n - 1 + 1);
    }
  }

  /** `kept` is what stands at the places `at` of `s`, which ascend. */
  predicate PickedAt<T(==)>(s: seq<T>, at: seq<nat>, kept: seq<T>) {
    && |at| == |kept|
    && (forall i | 0 <= i < |at| :: at[i] < |s| && s[at[i]] == kept[i])
    && (forall i, j | 0 <= i < j < |at| :: at[i] < at[j])
  }

  /** `kept` is some of `s`, in its order. */
  ghost predicate InOrder<T>(s: seq<T>, kept: seq<T>) {
    exists at: seq<nat> :: PickedAt(s, at, kept)
  }

  lemma InOrderOfFront<T>(s: seq<T>, kept: seq<T>)
    requires s != [] && InOrder(s[..|s| - 1], kept)
    ensures InOrder(s, kept) && InOrder(s, kept + [s[|s| - 1]])
  {
    var at: seq<nat> :| PickedAt(s[..|s| - 1], at, kept);
    assert PickedAt(s, at, kept);
    assert PickedAt(s, at + [|s| - 1], kept + [s[|s| - 1]]);
  }

  lemma InOrderOfRest<T>(s: seq<T>, kept: seq<T>)
    requires s != [] && InOrder(s[1..], kept)
    ensures InOrder(s, kept) && InOrder(s, [s[0]] + kept)
  {
    var at: seq<nat> :| PickedAt(s[1..], at, kept);
    var on := seq(|at|, i requires 0 <= i < |at| => at[i] + 1);
    forall i | 0 <= i < |on| ensures s[on[i]] == kept[i] {
      assert s[1..][at[i]] == kept[i];
    }
    assert PickedAt(s, on, kept);
    assert PickedAt(s, [0] + on, [s[0]] + kept);
  }

  lemma NothingInOrder<T>(s: seq<T>)
    ensures InOrder(s, [])
  {
    assert PickedAt(s, [], []);
  }
}
