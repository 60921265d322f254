/** Optional values and error returns shared by every module. */
module Options {

  /** Stands for the source's `X | None`. */
  datatype Option<+T> = None | Some(value: T)

  /** Stands for a call that either returns or raises. */
  datatype Result<+T, +E> = Ok(value: T) | Err(error: E)

  /** `mapping.get(key)`. */
  function Get<K, V>(m: map<K, V>, k: K): Option<V> {
    if k in m then Some(m[k]) else None
  }

  /** The part of `m` whose keys are listed: what a loop over `keys` has built so far. */
  function Restrict<K, V>(m: map<K, V>, keys: seq<K>): map<K, V> {
    map k | k in keys && k in m :: m[k]
  }

  lemma RestrictNext<K, V>(m: map<K, V>, keys: seq<K>, i: nat)
    requires i < |keys|
    ensures Restrict(m, keys[..i + 1])
      == if keys[i] in m then Restrict(m, keys[..i])[keys[i] := m[keys[i]]] else Restrict(m, keys[..i])
  {
    assert keys[..i + 1] == keys[..i] + [keys[i]];
  }

  lemma RestrictAll<K, V>(m: map<K, V>, keys: seq<K>)
    requires forall k | k in m :: k in keys
    ensures Restrict(m, keys[..|keys|]) == m
  {
    assert keys[..|keys|] == keys;
  }

  /** A map that agrees with `m` outside `k` is `m` with `k` set. */
  lemma UpdatedOutside<K, V>(m: map<K, V>, n: map<K, V>, k: K, v: V)
    requires k in n && n[k] == v
    requires forall x | x != k :: Get(m, x) == Get(n, x)
    ensures n == m[k := v]
  {
    forall x ensures x in n <==> x in m[k := v] {
      assert x != k ==> Get(m, x) == Get(n, x);
    }
    forall x | x in n ensures n[x] == m[k := v][x] {
      assert x != k ==> Get(m, x) == Get(n, x);
    }
  }

  /** What a loop that extends one list by `f(x)` for each `x` in turn builds. */
  function FlatMap<A, B>(f: A -> seq<B>, xs: seq<A>): seq<B> {
    if xs == [] then [] else FlatMap(f, xs[..|xs| - 1]) + f(xs[|xs| - 1])
  }

  lemma FlatMapNext<A, B>(f: A -> seq<B>, xs: seq<A>, i: nat)
    requires i < |xs|
    ensures FlatMap(f, xs[..i + 1]) == FlatMap(f, xs[..i]) + f(xs[i])
  {
    assert xs[..i + 1][..i] == xs[..i];
  }

  lemma FlatMapAll<A, B>(f: A -> seq<B>, xs: seq<A>)
    ensures FlatMap(f, xs[..|xs|]) == FlatMap(f, xs)
  {
    assert xs[..|xs|] == xs;
  }

  lemma {:induction false} FlatMapNone<A, B>(f: A -> seq<B>, xs: seq<A>)
    requires forall i | 0 <= i < |xs| :: f(xs[i]) == []
    ensures FlatMap(f, xs) == []
  {
    if xs != [] {
      FlatMapNone(f, xs[..|xs| - 1]);
    }
  }

  lemma {:induction false} InFlatMap<A, B>(f: A -> seq<B>, xs: seq<A>, y: B)
    ensures y in FlatMap(f, xs) <==> exists i | 0 <= i < |xs| :: y in f(xs[i])
  {
    if xs != [] {
      var n := |xs| - 1;
      InFlatMap(f, xs[..n], y);
      assert forall i | 0 <= i < n :: xs[..n][i] == xs[i];
    }
  }

  lemma Regroup<T>(a: seq<T>, b: seq<T>, c: seq<T>)
    ensures (a + b) + c == a + (b + c)
  {
  }
}
