/** Keeping the elements of a list that pass a test, in their original order: what a
    `foreach` that appends the matching elements to a fresh array computes. */
module Selection {

  /** The elements of `es` for which `keep` holds, in order. */
  function Select<E>(es: seq<E>, keep: E -> bool): seq<E> {
    if es == [] then [] else Select(es[..|es| - 1], keep) + (if keep(es[|es| - 1]) then [es[|es| - 1]] else [])
  }

  /** `a` can be obtained from `b` by deleting elements: the order of `b` is kept. */
  predicate Subsequence<E(==)>(a: seq<E>, b: seq<E>)
    decreases |b|
  {
    if a == [] then true
    else if b == [] then false
    else (a[|a| - 1] == b[|b| - 1] && Subsequence(a[..|a| - 1], b[..|b| - 1])) || Subsequence(a, b[..|b| - 1])
  }

  /** One more element is kept exactly when it passes the test. */
  lemma SelectSnoc<E>(es: seq<E>, e: E, keep: E -> bool)
    ensures Select(es + [e], keep) == Select(es, keep) + (if keep(e) then [e] else [])
  {
    assert (es + [e])[..|es|] == es;
  }

  /** Everything kept passes the test. */
  lemma {:induction false} SelectSound<E>(es: seq<E>, keep: E -> bool)
    ensures forall e | e in Select(es, keep) :: e in es && keep(e)
  {
    if es != [] {
      SelectSound(es[..|es| - 1], keep);
      forall e | e in Select(es[..|es| - 1], keep) ensures e in es {
        assert e in es[..|es| - 1];
      }
    }
  }

  /** Everything that passes the test is kept. */
  lemma {:induction false} SelectComplete<E>(es: seq<E>, keep: E -> bool)
    ensures forall i | 0 <= i < |es| && keep(es[i]) :: es[i] in Select(es, keep)
  {
    if es != [] {
      var init := es[..|es| - 1];
      SelectComplete(init, keep);
      forall i | 0 <= i < |es| - 1 && keep(es[i]) ensures es[i] in Select(es, keep) {
        assert es[i] == init[i];
      }
    }
  }

  /** The selection keeps the order of the input. */
  lemma {:induction false} SelectSubsequence<E>(es: seq<E>, keep: E -> bool)
    ensures Subsequence(Select(es, keep), es)
  {
    if es != [] {
      var init := es[..|es| - 1];
      var last := es[|es| - 1];
      SelectSubsequence(init, keep);
      if keep(last) {
        var s := Select(init, keep) + [last];
        assert s[..|s| - 1] == Select(init, keep);
      } else {
        assert Select(es, keep) == Select(init, keep);
        SubsequenceDropLast(Select(init, keep), es);
      }
    }
  }

  /** A subsequence of the input without its last element is a subsequence of the input. */
  lemma SubsequenceDropLast<E>(a: seq<E>, b: seq<E>)
    requires b != [] && Subsequence(a, b[..|b| - 1])
    ensures Subsequence(a, b)
  {
  }

  /** When every element passes, the whole list is kept. */
  lemma {:induction false} SelectAll<E>(es: seq<E>, keep: E -> bool)
    requires forall e | e in es :: keep(e)
    ensures Select(es, keep) == es
  {
    if es != [] {
      var init := es[..|es| - 1];
      forall e | e in init ensures keep(e) {
        assert e in es;
      }
      SelectAll(init, keep);
      assert keep(es[|es| - 1]);
      assert init + [es[|es| - 1]] == es;
    }
  }

  /** Selecting twice with the same test selects nothing more. */
  lemma SelectIdempotent<E>(es: seq<E>, keep: E -> bool)
    ensures Select(Select(es, keep), keep) == Select(es, keep)
  {
    SelectSound(es, keep);
    SelectAll(Select(es, keep), keep);
  }
}
