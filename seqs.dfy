/** Sequence folds that the extractors' loops compute: an order-preserving
    filter-map, the last element passing a test (repeated dictionary
    assignment), and appending only values whose key is not yet present. */
module Seqs {
  import opened Wrappers

  /** Concatenation is associative; stated once so that a proof can name it. */
  lemma Assoc<T>(x: seq<T>, y: seq<T>, z: seq<T>)
    ensures x + (y + z) == (x + y) + z
  {
  }

  /** The images under `f` of the elements `f` keeps, in order. */
  function FilterMap<A, B>(s: seq<A>, f: A -> Option<B>): (r: seq<B>)
    ensures |r| <= |s|
  {
    if s == [] then [] else Pick(f(s[0])) + FilterMap(s[1..], f)
  }

  function Pick<B>(o: Option<B>): (r: seq<B>) {
    if o.Some? then [o.value] else []
  }

  lemma {:induction false} FilterMapSnoc<A, B>(s: seq<A>, x: A, f: A -> Option<B>)
    ensures FilterMap(s + [x], f) == FilterMap(s, f) + Pick(f(x))
  {
    if s == [] {
      assert [x][1..] == [];
    } else {
      assert (s + [x])[0] == s[0];
      assert (s + [x])[1..] == s[1..] + [x];
      FilterMapSnoc(s[1..], x, f);
    }
  }

  /** `r` is the image under `f` of the first `|r|` elements of `s`. */
  predicate MapsPrefix<A, B(==)>(r: seq<B>, s: seq<A>, f: A -> B) {
    |r| <= |s| && forall k | 0 <= k < |r| :: r[k] == f(s[k])
  }

  lemma MapsPrefixSnoc<A, B>(r: seq<B>, s: seq<A>, f: A -> B)
    requires |r| < |s| && MapsPrefix(r, s, f)
    ensures MapsPrefix(r + [f(s[|r|])], s, f)
  {
    var next := r + [f(s[|r|])];
    forall k | 0 <= k < |next| ensures next[k] == f(s[k]) {
      if k < |r| {
        assert next[k] == r[k];
      }
    }
  }

  /** Every element passes `p` when the head and every element of the tail do. */
  lemma EveryCons<T>(s: seq<T>, p: T -> bool)
    requires s != []
    ensures (forall j | 0 <= j < |s| :: p(s[j])) <==> p(s[0]) && forall j | 0 <= j < |s[1..]| :: p(s[1..][j])
  {
    assert forall j | 1 <= j < |s| :: s[j] == s[1..][j - 1];
  }

  /** FilterMapSnoc on a prefix of `s`, one element longer. */
  lemma FilterMapPrefix<A, B>(s: seq<A>, k: nat, f: A -> Option<B>)
    requires k < |s|
    ensures FilterMap(s[..k + 1], f) == FilterMap(s[..k], f) + Pick(f(s[k]))
  {
    assert s[..k + 1] == s[..k] + [s[k]];
    FilterMapSnoc(s[..k], s[k], f);
  }

  /** Every kept element is the image of some element, and every element that
      `f` keeps appears: `FilterMap` neither invents nor drops. */
  lemma {:induction false} FilterMapMembers<A, B>(s: seq<A>, f: A -> Option<B>, y: B)
    ensures y in FilterMap(s, f) <==> exists i | 0 <= i < |s| :: f(s[i]) == Some(y)
  {
    if s != [] {
      FilterMapMembers(s[1..], f, y);
      if y !in Pick(f(s[0])) {
        forall i | 1 <= i < |s| ensures s[i] == s[1..][i - 1] {}
      } else {
        assert f(s[0]) == Some(y);
      }
      if exists i | 0 <= i < |s| :: f(s[i]) == Some(y) {
        var i :| 0 <= i < |s| && f(s[i]) == Some(y);
        if i > 0 { assert s[1..][i - 1] == s[i]; }
      }
    }
  }

  /** When `f` keeps everything, `FilterMap` keeps the length. */
  lemma {:induction false} FilterMapAll<A, B>(s: seq<A>, f: A -> Option<B>)
    requires forall i | 0 <= i < |s| :: f(s[i]).Some?
    ensures |FilterMap(s, f)| == |s|
  {
    if s != [] {
      assert forall i | 0 <= i < |s[1..]| :: s[1..][i] == s[i + 1];
      FilterMapAll(s[1..], f);
    }
  }

  /** Conversely, `FilterMap` keeps the length only when `f` keeps everything. */
  lemma {:induction false} FilterMapKeepsAll<A, B>(s: seq<A>, f: A -> Option<B>)
    requires |FilterMap(s, f)| == |s|
    ensures forall i | 0 <= i < |s| :: f(s[i]).Some?
  {
    if s != [] {
      FilterMapKeepsAll(s[1..], f);
      forall i | 0 <= i < |s| ensures f(s[i]).Some? {
        if i > 0 { assert s[i] == s[1..][i - 1]; }
      }
    }
  }

  /** The last element passing `p`: what a dictionary key holds after a loop
      that assigns it every time `p` holds. */
  function LastMatch<A>(s: seq<A>, p: A -> bool): Option<A> {
    if s == [] then None
    else if p(s[|s| - 1]) then Some(s[|s| - 1])
    else LastMatch(s[..|s| - 1], p)
  }

  lemma LastMatchSnoc<A>(s: seq<A>, x: A, p: A -> bool)
    ensures LastMatch(s + [x], p) == if p(x) then Some(x) else LastMatch(s, p)
  {
    assert (s + [x])[..|s|] == s;
  }

  /** `LastMatch` finds an element passing `p` after which no element passes,
      and finds nothing exactly when no element passes. */
  lemma {:induction false} LastMatchSpec<A>(s: seq<A>, p: A -> bool)
    ensures LastMatch(s, p).None? <==> forall i | 0 <= i < |s| :: !p(s[i])
    ensures LastMatch(s, p).Some? ==>
      exists i | 0 <= i < |s| :: s[i] == LastMatch(s, p).value && p(s[i]) &&
        forall j | i < j < |s| :: !p(s[j])
  {
    if s != [] {
      var n := |s| - 1;
      if !p(s[n]) {
        var t := s[..n];
        LastMatchSpec(t, p);
        assert forall i | 0 <= i < n :: t[i] == s[i];
        if LastMatch(t, p).Some? {
          var i :| 0 <= i < |t| && t[i] == LastMatch(t, p).value && p(t[i]) &&
            forall j | i < j < |t| :: !p(t[j]);
          assert forall j | i < j < |s| :: !p(s[j]) by {
            forall j | i < j < |s| ensures !p(s[j]) {
              if j < n { assert t[j] == s[j]; }
            }
          }
        }
      }
    }
  }

  // ------------------------------------------------ first-occurrence dedup

  predicate HasKey<T, K(==)>(s: seq<T>, key: T -> K, k: K) {
    exists i | 0 <= i < |s| :: key(s[i]) == k
  }

  predicate UniqueKeys<T, K(==)>(s: seq<T>, key: T -> K) {
    forall i, j | 0 <= i < j < |s| :: key(s[i]) != key(s[j])
  }

  /** Appends `x` unless an element with its key is already there. */
  function AddIfNew<T, K(==)>(acc: seq<T>, x: T, key: T -> K): seq<T> {
    if HasKey(acc, key, key(x)) then acc else acc + [x]
  }

  /** The loop `for x in xs: if key(x) not in keys(acc): acc.append(x)`. */
  function AddUnique<T, K(==)>(acc: seq<T>, xs: seq<T>, key: T -> K): (r: seq<T>)
    ensures |acc| <= |r| && r[..|acc|] == acc
    decreases |xs|
  {
    if xs == [] then acc else AddIfNew(AddUnique(acc, xs[..|xs| - 1], key), xs[|xs| - 1], key)
  }

  /** The loop of AddUnique after one more element. */
  lemma AddUniqueSnoc<T, K>(acc: seq<T>, xs: seq<T>, x: T, key: T -> K)
    ensures AddUnique(acc, xs + [x], key) == AddIfNew(AddUnique(acc, xs, key), x, key)
  {
    assert (xs + [x])[..|xs|] == xs;
  }

  /** Index of the first element of `s` with key `k` (|s| when there is none). */
  function FirstWithKey<T, K(==)>(s: seq<T>, key: T -> K, k: K): (n: nat)
    ensures n <= |s| && (n < |s| ==> key(s[n]) == k)
    ensures forall i | 0 <= i < n :: key(s[i]) != k
  {
    if s == [] then 0
    else if key(s[0]) == k then 0
    else
      var n := FirstWithKey(s[1..], key, k);
      assert forall i | 1 <= i < n + 1 :: s[i] == s[1..][i - 1];
      n + 1
  }

  lemma FirstWithKeyPrefix<T, K>(s: seq<T>, t: seq<T>, key: T -> K, k: K)
    requires HasKey(s, key, k)
    ensures FirstWithKey(s + t, key, k) == FirstWithKey(s, key, k)
  {
    var n := FirstWithKey(s, key, k);
    var m := FirstWithKey(s + t, key, k);
    var i :| 0 <= i < |s| && key(s[i]) == k;
    assert n <= i;
    assert (s + t)[n] == s[n];
  }

  lemma FirstWithKeyAbsent<T, K>(s: seq<T>, key: T -> K, k: K)
    requires !HasKey(s, key, k)
    ensures FirstWithKey(s, key, k) == |s|
  {
  }

  /** `r` holds, for every key occurring in `s`, the first element of `s` with
      that key, and holds them in the order of those first occurrences. */
  ghost predicate FirstOccurrences<T, K>(r: seq<T>, s: seq<T>, key: T -> K) {
    && UniqueKeys(r, key)
    && (forall i | 0 <= i < |s| :: HasKey(r, key, key(s[i])))
    && (forall i | 0 <= i < |r| ::
          FirstWithKey(s, key, key(r[i])) < |s| && r[i] == s[FirstWithKey(s, key, key(r[i]))])
    && (forall i, j | 0 <= i < j < |r| ::
          FirstWithKey(s, key, key(r[i])) < FirstWithKey(s, key, key(r[j])))
  }

  lemma FirstOccurrencesOfUnique<T, K>(s: seq<T>, key: T -> K)
    requires UniqueKeys(s, key)
    ensures FirstOccurrences(s, s, key)
  {
    forall i | 0 <= i < |s| ensures FirstWithKey(s, key, key(s[i])) == i {
      var n := FirstWithKey(s, key, key(s[i]));
      assert n <= i;
    }
  }

  lemma FirstOccurrencesStep<T, K>(q: seq<T>, s: seq<T>, x: T, key: T -> K)
    requires FirstOccurrences(q, s, key)
    ensures FirstOccurrences(AddIfNew(q, x, key), s + [x], key)
  {
    FirstsKept(q, s, x, key);
    if HasKey(q, key, key(x)) {
      StepKnown(q, s, x, key);
    } else {
      StepNew(q, s, x, key);
    }
  }

  /** The first occurrence of every key of `q` is unchanged by appending `x`. */
  ghost predicate SameFirsts<T, K>(q: seq<T>, s: seq<T>, x: T, key: T -> K) {
    forall i | 0 <= i < |q| :: FirstWithKey(s + [x], key, key(q[i])) == FirstWithKey(s, key, key(q[i]))
  }

  lemma FirstsKept<T, K>(q: seq<T>, s: seq<T>, x: T, key: T -> K)
    requires FirstOccurrences(q, s, key)
    ensures SameFirsts(q, s, x, key)
  {
    forall i | 0 <= i < |q| ensures FirstWithKey(s + [x], key, key(q[i])) == FirstWithKey(s, key, key(q[i])) {
      var n := FirstWithKey(s, key, key(q[i]));
      assert HasKey(s, key, key(q[i])) by { assert key(s[n]) == key(q[i]); }
      FirstWithKeyPrefix(s, [x], key, key(q[i]));
    }
  }

  /** A key already present: the list stays as it is. */
  lemma StepKnown<T, K>(q: seq<T>, s: seq<T>, x: T, key: T -> K)
    requires FirstOccurrences(q, s, key) && SameFirsts(q, s, x, key) && HasKey(q, key, key(x))
    ensures FirstOccurrences(q, s + [x], key)
  {
    var s' := s + [x];
    forall i | 0 <= i < |s'| ensures HasKey(q, key, key(s'[i])) {
      if i < |s| { assert s'[i] == s[i]; } else { assert s'[i] == x; }
    }
    forall i | 0 <= i < |q|
      ensures FirstWithKey(s', key, key(q[i])) < |s'| && q[i] == s'[FirstWithKey(s', key, key(q[i]))]
    {
      assert s'[FirstWithKey(s, key, key(q[i]))] == s[FirstWithKey(s, key, key(q[i]))];
    }
  }

  /** A new key: `x` is appended, and its first occurrence is the new last
      position. */
  lemma StepNew<T, K>(q: seq<T>, s: seq<T>, x: T, key: T -> K)
    requires FirstOccurrences(q, s, key) && SameFirsts(q, s, x, key) && !HasKey(q, key, key(x))
    ensures FirstOccurrences(q + [x], s + [x], key)
  {
    var s', r := s + [x], q + [x];
    assert !HasKey(s, key, key(x));
    NewKeyFirst(s, x, key);
    forall i | 0 <= i < |s'| ensures HasKey(r, key, key(s'[i])) {
      if i < |s| {
        assert s'[i] == s[i];
        var j :| 0 <= j < |q| && key(q[j]) == key(s[i]);
        assert r[j] == q[j];
      } else {
        assert s'[i] == x && r[|q|] == x;
      }
    }
    forall i, j | 0 <= i < j < |r| ensures key(r[i]) != key(r[j]) {
      if j < |q| { assert r[i] == q[i] && r[j] == q[j]; }
      else { assert r[i] == q[i]; assert HasKey(q, key, key(q[i])); }
    }
    StepNewOrder(q, s, x, key);
  }

  lemma StepNewOrder<T, K>(q: seq<T>, s: seq<T>, x: T, key: T -> K)
    requires FirstOccurrences(q, s, key) && SameFirsts(q, s, x, key)
    requires FirstWithKey(s + [x], key, key(x)) == |s|
    ensures var s', r := s + [x], q + [x];
      && (forall i | 0 <= i < |r| ::
            FirstWithKey(s', key, key(r[i])) < |s'| && r[i] == s'[FirstWithKey(s', key, key(r[i]))])
      && (forall i, j | 0 <= i < j < |r| ::
            FirstWithKey(s', key, key(r[i])) < FirstWithKey(s', key, key(r[j])))
  {
    var s', r := s + [x], q + [x];
    forall i | 0 <= i < |r|
      ensures FirstWithKey(s', key, key(r[i])) < |s'| && r[i] == s'[FirstWithKey(s', key, key(r[i]))]
    {
      if i < |q| {
        assert r[i] == q[i];
        assert s'[FirstWithKey(s, key, key(q[i]))] == s[FirstWithKey(s, key, key(q[i]))];
      } else {
        assert r[i] == x && s'[|s|] == x;
      }
    }
    forall i, j | 0 <= i < j < |r|
      ensures FirstWithKey(s', key, key(r[i])) < FirstWithKey(s', key, key(r[j]))
    {
      if j < |q| { assert r[i] == q[i] && r[j] == q[j]; }
      else { assert r[i] == q[i] && r[j] == x; }
    }
  }

  /** A key absent from `s` first occurs in `s + [x]` at the end. */
  lemma NewKeyFirst<T, K>(s: seq<T>, x: T, key: T -> K)
    requires !HasKey(s, key, key(x))
    ensures FirstWithKey(s + [x], key, key(x)) == |s|
  {
    var s' := s + [x];
    assert s'[|s|] == x;
    assert forall i | 0 <= i < |s| :: s'[i] == s[i];
  }

  /** `AddUnique` keeps, for every key occurring in `acc + xs`, exactly the first
      element with that key, in the order those first occurrences appear, as
      long as `acc` itself has no repeated key. */
  lemma {:induction false} AddUniqueSpec<T, K>(acc: seq<T>, xs: seq<T>, key: T -> K)
    requires UniqueKeys(acc, key)
    ensures FirstOccurrences(AddUnique(acc, xs, key), acc + xs, key)
    decreases |xs|
  {
    if xs == [] {
      assert acc + xs == acc;
      FirstOccurrencesOfUnique(acc, key);
    } else {
      var ys, x := xs[..|xs| - 1], xs[|xs| - 1];
      assert acc + xs == (acc + ys) + [x];
      AddUniqueSpec(acc, ys, key);
      FirstOccurrencesStep(AddUnique(acc, ys, key), acc + ys, x, key);
    }
  }
}
