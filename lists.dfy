// Order-preserving filtering and left folds over sequences, shared by the
// Go registry scan, the Go replacement chain and the Rust replacer and
// test selection.
module Lists {

  /** The elements of `s` that `keep` accepts (with the extra argument `key`), in their order. */
  function Filter<T, K>(s: seq<T>, key: K, keep: (T, K) -> bool): seq<T> {
    if s == [] then []
    else (if keep(s[0], key) then [s[0]] else []) + Filter(s[1..], key, keep)
  }

  /** The positions of `s` that `keep` accepts, in increasing order. */
  function KeptFrom<T, K>(s: seq<T>, key: K, keep: (T, K) -> bool, from: nat): (idx: seq<nat>)
    requires from <= |s|
    ensures forall j :: 0 <= j < |idx| ==> from <= idx[j] < |s|
    decreases |s| - from
  {
    if from == |s| then []
    else (if keep(s[from], key) then [from] else []) + KeptFrom(s, key, keep, from + 1)
  }

  predicate Increasing(idx: seq<nat>) {
    forall i, j :: 0 <= i < j < |idx| ==> idx[i] < idx[j]
  }

  lemma KeptFromExactly<T, K>(s: seq<T>, key: K, keep: (T, K) -> bool, from: nat)
    requires from <= |s|
    ensures var idx := KeptFrom(s, key, keep, from);
      Increasing(idx)
      && (forall i :: i in idx <==> from <= i < |s| && keep(s[i], key))
      && Filter(s[from..], key, keep) == seq(|idx|, j requires 0 <= j < |idx| => s[idx[j]])
  {
    KeptIncreasing(s, key, keep, from);
    KeptMembers(s, key, keep, from);
    FilterAsKept(s, key, keep, from);
  }

  lemma {:induction false} KeptIncreasing<T, K>(s: seq<T>, key: K, keep: (T, K) -> bool, from: nat)
    requires from <= |s|
    ensures Increasing(KeptFrom(s, key, keep, from))
    decreases |s| - from
  {
    if from < |s| {
      KeptIncreasing(s, key, keep, from + 1);
      var rest := KeptFrom(s, key, keep, from + 1);
      if keep(s[from], key) {
        var idx := [from] + rest;
        forall i, j | 0 <= i < j < |idx| ensures idx[i] < idx[j] {
          if i > 0 {
            assert idx[i] == rest[i - 1] && idx[j] == rest[j - 1];
          } else {
            assert idx[j] == rest[j - 1];
          }
        }
      }
    }
  }

  lemma {:induction false} KeptMembers<T, K>(s: seq<T>, key: K, keep: (T, K) -> bool, from: nat)
    requires from <= |s|
    ensures forall i :: i in KeptFrom(s, key, keep, from) <==> from <= i < |s| && keep(s[i], key)
    decreases |s| - from
  {
    if from < |s| {
      KeptMembers(s, key, keep, from + 1);
    }
  }

  lemma {:induction false} FilterAsKept<T, K>(s: seq<T>, key: K, keep: (T, K) -> bool, from: nat)
    requires from <= |s|
    ensures var idx := KeptFrom(s, key, keep, from);
      Filter(s[from..], key, keep) == seq(|idx|, j requires 0 <= j < |idx| => s[idx[j]])
    decreases |s| - from
  {
    if from < |s| {
      FilterAsKept(s, key, keep, from + 1);
      assert s[from..][1..] == s[from + 1..];
      assert s[from..][0] == s[from];
    }
  }

  /**
   * `Filter` keeps exactly the accepted elements, each once, in their
   * original order: it is `s` read at the increasing positions `idx`,
   * and `idx` holds precisely the positions whose element is accepted.
   */
  lemma FilterExactly<T, K>(s: seq<T>, key: K, keep: (T, K) -> bool)
    ensures var idx := KeptFrom(s, key, keep, 0);
      Increasing(idx)
      && (forall i :: i in idx <==> 0 <= i < |s| && keep(s[i], key))
      && Filter(s, key, keep) == seq(|idx|, j requires 0 <= j < |idx| => s[idx[j]])
  {
    KeptFromExactly(s, key, keep, 0);
    assert s[0..] == s;
  }

  /** Filtering a sequence with a given head. */
  lemma FilterCons<T, K>(y: T, rest: seq<T>, key: K, keep: (T, K) -> bool)
    ensures Filter([y] + rest, key, keep) == (if keep(y, key) then [y] else []) + Filter(rest, key, keep)
  {
    assert ([y] + rest)[0] == y;
    assert ([y] + rest)[1..] == rest;
  }

  /** `Filter` gives nothing exactly when no element is accepted. */
  lemma {:induction false} FilterNone<T, K>(s: seq<T>, key: K, keep: (T, K) -> bool)
    ensures Filter(s, key, keep) == [] <==> forall k :: 0 <= k < |s| ==> !keep(s[k], key)
    decreases |s|
  {
    if s != [] {
      FilterNone(s[1..], key, keep);
      assert forall k :: 1 <= k < |s| ==> s[k] == s[1..][k - 1];
    }
  }

  /** Every element `Filter` gives is accepted. */
  lemma {:induction false} FilterKept<T, K>(s: seq<T>, key: K, keep: (T, K) -> bool)
    ensures forall x :: x in multiset(Filter(s, key, keep)) ==> keep(x, key)
    decreases |s|
  {
    if s != [] {
      FilterKept(s[1..], key, keep);
    }
  }

  /** Filtering a concatenation filters each part. */
  lemma {:induction false} FilterAppend<T, K>(a: seq<T>, b: seq<T>, key: K, keep: (T, K) -> bool)
    ensures Filter(a + b, key, keep) == Filter(a, key, keep) + Filter(b, key, keep)
    decreases |a|
  {
    if a == [] {
      assert a + b == b;
    } else {
      var h := if keep(a[0], key) then [a[0]] else [];
      assert (a + b)[0] == a[0];
      assert (a + b)[1..] == a[1..] + b;
      FilterAppend(a[1..], b, key, keep);
      assert Filter(a + b, key, keep) == h + Filter(a[1..] + b, key, keep);
      assert h + (Filter(a[1..], key, keep) + Filter(b, key, keep)) == (h + Filter(a[1..], key, keep)) + Filter(b, key, keep);
    }
  }

  /** A non-empty sequence holds its head and its tail. */
  lemma MultisetOfCons<T>(s: seq<T>)
    requires s != []
    ensures multiset(s) == multiset(s[1..]) + multiset{s[0]}
  {
    assert s == [s[0]] + s[1..];
  }

  /**
   * Feeds `content` through `rs` from left to right, each step's output
   * being the next step's input.
   */
  function Thread<R, E>(content: string, rs: seq<R>, env: E, step: (R, E, string) -> string): string
    decreases |rs|
  {
    if rs == [] then content else Thread(step(rs[0], env, content), rs[1..], env, step)
  }

  /** Threading through `a + b` is threading through `a`, then through `b`. */
  lemma {:induction false} ThreadAppend<R, E>(content: string, a: seq<R>, b: seq<R>, env: E, step: (R, E, string) -> string)
    ensures Thread(content, a + b, env, step) == Thread(Thread(content, a, env, step), b, env, step)
    decreases |a|
  {
    if a == [] {
      assert a + b == b;
    } else {
      assert (a + b)[0] == a[0];
      assert (a + b)[1..] == a[1..] + b;
      ThreadAppend(step(a[0], env, content), a[1..], b, env, step);
    }
  }
}
