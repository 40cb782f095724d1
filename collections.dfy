/** Generic sequence operations shared by the store, the reports and the list pages:
    the `filter`, `map`, `reduce`, `find` and `includes` calls of the TypeScript code,
    each stated once here together with the facts the rest of the model relies on. */
module Collections {

  datatype Option<T> = None | Some(value: T) {
    /** The value, or `default` when absent (the `x || default` idiom of the source). */
    function GetOr(default: T): T {
      match this
      case Some(v) => v
      case None => default
    }
  }

  function Min(a: int, b: int): int { if a <= b then a else b }

  /** `a` is obtained from `b` by deleting elements: same elements, same relative order. */
  ghost predicate IsSubsequence<T>(a: seq<T>, b: seq<T>)
    decreases |b|
  {
    if a == [] then true
    else if b == [] then false
    else if a[0] == b[0] then IsSubsequence(a[1..], b[1..])
    else IsSubsequence(a, b[1..])
  }

  /** `Array.prototype.filter`: the order-preserving sub-list of the elements `keep` accepts,
      each with its original multiplicity. */
  function Filter<T(!new)>(s: seq<T>, keep: T -> bool): (r: seq<T>)
    ensures |r| <= |s|
    ensures IsSubsequence(r, s)
    ensures forall x :: x in r ==> keep(x)
    ensures forall x :: keep(x) ==> multiset(r)[x] == multiset(s)[x]
    ensures forall x :: x in r <==> x in s && keep(x)
  {
    if s == [] then []
    else
      var rest := Filter(s[1..], keep);
      assert s == [s[0]] + s[1..];
      if keep(s[0]) then
        assert ([s[0]] + rest)[1..] == rest;
        [s[0]] + rest
      else
        assert rest != [] ==> rest[0] in rest;
        rest
  }

  /** When every element is accepted, filtering changes nothing. */
  lemma {:induction false} FilterAll<T(!new)>(s: seq<T>, keep: T -> bool)
    requires forall x :: x in s ==> keep(x)
    ensures Filter(s, keep) == s
  {
    if s != [] {
      assert s[0] in s;
      assert forall x :: x in s[1..] ==> x in s;
      FilterAll(s[1..], keep);
    }
  }

  /** Two predicates that agree on every element select the same sub-list. */
  lemma {:induction false} FilterSame<T(!new)>(s: seq<T>, p: T -> bool, q: T -> bool)
    requires forall x :: x in s ==> p(x) == q(x)
    ensures Filter(s, p) == Filter(s, q)
  {
    if s != [] {
      assert s[0] in s;
      assert forall x :: x in s[1..] ==> x in s;
      FilterSame(s[1..], p, q);
    }
  }

  /** Filtering by a predicate and by its negation splits the list: the two lengths add up. */
  lemma {:induction false} FilterPartition<T(!new)>(s: seq<T>, p: T -> bool, q: T -> bool)
    requires forall x :: q(x) == !p(x)
    ensures |Filter(s, p)| + |Filter(s, q)| == |s|
  {
    if s != [] {
      FilterPartition(s[1..], p, q);
    }
  }

  /** The accepting function `key(x) != k`, shared by `Without` and its lemmas. */
  function KeyIsNot<T, K(==)>(key: T -> K, k: K): T -> bool
  {
    x => key(x) != k
  }

  /** `list.filter(x => key(x) !== k)`: drops exactly the elements whose key is `k`. */
  function Without<T(!new), K(==)>(s: seq<T>, key: T -> K, k: K): (r: seq<T>)
    ensures IsSubsequence(r, s)
    ensures forall x :: x in r ==> key(x) != k
    ensures forall x :: key(x) != k ==> multiset(r)[x] == multiset(s)[x]
    ensures forall x :: x in r <==> x in s && key(x) != k
  {
    Filter(s, KeyIsNot(key, k))
  }

  /** Dropping a key no element carries returns the list unchanged. */
  lemma WithoutNoMatch<T(!new), K>(s: seq<T>, key: T -> K, k: K)
    requires forall x :: x in s ==> key(x) != k
    ensures Without(s, key, k) == s
  {
    FilterAll(s, KeyIsNot(key, k));
  }

  /** `list.map(x => key(x) === k ? f(x) : x)`: same length and order, `f` applied to the
      elements whose key is `k`, every other element left as it was. */
  function Updated<T, K(==)>(s: seq<T>, key: T -> K, k: K, f: T -> T): (r: seq<T>)
    ensures |r| == |s|
    ensures forall i :: 0 <= i < |s| ==> r[i] == if key(s[i]) == k then f(s[i]) else s[i]
  {
    if s == [] then []
    else [if key(s[0]) == k then f(s[0]) else s[0]] + Updated(s[1..], key, k, f)
  }

  /** Updating a key no element carries returns the list unchanged. */
  lemma UpdatedNoMatch<T, K>(s: seq<T>, key: T -> K, k: K, f: T -> T)
    requires forall x :: x in s ==> key(x) != k
    ensures Updated(s, key, k, f) == s
  {
    var r := Updated(s, key, k, f);
    forall i | 0 <= i < |s| ensures r[i] == s[i] {
      assert s[i] in s;
    }
  }

  /** An update that keeps keys and is its own inverse, applied twice, is the identity. */
  lemma UpdatedInvolution<T, K>(s: seq<T>, key: T -> K, k: K, f: T -> T)
    requires forall x :: key(f(x)) == key(x) && f(f(x)) == x
    ensures Updated(Updated(s, key, k, f), key, k, f) == s
  {
  }

  /** `reduce((acc, x) => acc + f(x), 0)`; integer addition is associative, so the fold
      direction does not matter. */
  function Sum<T>(s: seq<T>, f: T -> int): int
  {
    if s == [] then 0 else f(s[0]) + Sum(s[1..], f)
  }

  /** With non-negative terms, summing a filtered sub-list gives no more than the whole list. */
  lemma {:induction false} SumFilterAtMost<T(!new)>(s: seq<T>, keep: T -> bool, f: T -> int)
    requires forall x :: x in s ==> f(x) >= 0
    ensures Sum(Filter(s, keep), f) <= Sum(s, f)
  {
    if s != [] {
      assert s[0] in s;
      assert forall x :: x in s[1..] ==> x in s;
      SumFilterAtMost(s[1..], keep, f);
    }
  }

  /** `find`: the first element whose key is `k`, or nothing when none has it. */
  function Find<T, K(==)>(s: seq<T>, key: T -> K, k: K): (r: Option<T>)
    ensures r.None? <==> forall x :: x in s ==> key(x) != k
    ensures r.Some? ==> exists i :: 0 <= i < |s| && s[i] == r.value && key(s[i]) == k &&
                                  forall j :: 0 <= j < i ==> key(s[j]) != k
  {
    if s == [] then None
    else if key(s[0]) == k then Some(s[0])
    else
      var r := Find(s[1..], key, k);
      assert s == [s[0]] + s[1..];
      assert r.Some? ==> exists i :: 0 <= i < |s| && s[i] == r.value && key(s[i]) == k &&
                                    forall j :: 0 <= j < i ==> key(s[j]) != k by {
        if r.Some? {
          var i :| 0 <= i < |s[1..]| && s[1..][i] == r.value && key(s[1..][i]) == k &&
                   forall j :: 0 <= j < i ==> key(s[1..][j]) != k;
          forall j | 0 <= j < i + 1 ensures key(s[j]) != k {
            if j > 0 { assert s[j] == s[1..][j - 1]; }
          }
          assert s[i + 1] == r.value;
        }
      }
      r
  }

  /** `t` occurs in `s` starting at position `i`. */
  ghost predicate OccursAt<T>(s: seq<T>, t: seq<T>, i: nat)
  {
    i + |t| <= |s| && s[i..i + |t|] == t
  }

  /** `String.prototype.includes`: `t` occurs in `s` as a contiguous block. */
  function Contains<T(==)>(s: seq<T>, t: seq<T>): (b: bool)
    ensures b <==> exists i: nat :: OccursAt(s, t, i)
    decreases |s|
  {
    if t <= s then
      assert OccursAt(s, t, 0);
      true
    else if s == [] then
      assert forall i: nat :: !OccursAt(s, t, i);
      false
    else
      var b := Contains(s[1..], t);
      assert forall i: nat :: OccursAt(s, t, i + 1) <==> OccursAt(s[1..], t, i) by {
        forall i: nat ensures OccursAt(s, t, i + 1) <==> OccursAt(s[1..], t, i) {
          if i + 1 + |t| <= |s| {
            var u, v := s[i + 1..i + 1 + |t|], s[1..][i..i + |t|];
            assert |u| == |v| && forall k :: 0 <= k < |u| ==> u[k] == v[k];
          }
        }
      }
      assert !OccursAt(s, t, 0);
      assert forall i: nat :: OccursAt(s, t, i) ==> i > 0 && OccursAt(s[1..], t, i - 1);
      b
  }

  /** The empty block occurs in every sequence, so `includes('')` always holds. */
  lemma ContainsEmpty<T>(s: seq<T>)
    ensures Contains(s, [])
  {
    assert OccursAt(s, [], 0);
  }

  /** Lower-cases ASCII letters and leaves every other character as it is. */
  function LowerChar(c: char): char
  {
    if 'A' <= c <= 'Z' then (c as int + 32) as char else c
  }

  /** `String.prototype.toLowerCase`, restricted to the ASCII letters. */
  function ToLower(s: string): (r: string)
    ensures |r| == |s|
    ensures forall i :: 0 <= i < |s| ==> r[i] == LowerChar(s[i])
  {
    if s == [] then [] else [LowerChar(s[0])] + ToLower(s[1..])
  }

  /** Lower-casing twice is lower-casing once. */
  lemma ToLowerIdempotent(s: string)
    ensures ToLower(ToLower(s)) == ToLower(s)
  {
    assert forall i :: 0 <= i < |s| ==> LowerChar(LowerChar(s[i])) == LowerChar(s[i]);
  }
}
