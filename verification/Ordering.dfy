/** Code-point order on strings and the sorted enumeration of a finite set of identifiers. */
module Ordering {

  /** Lexicographic order by code point, as Python compares strings. */
  predicate Le(a: string, b: string) {
    a == "" || (b != "" && (a[0] < b[0] || (a[0] == b[0] && Le(a[1..], b[1..]))))
  }

  lemma LeReflexive(a: string)
    ensures Le(a, a)
  {
  }

  lemma LeTotal(a: string, b: string)
    ensures Le(a, b) || Le(b, a)
  {
  }

  lemma LeAntisymmetric(a: string, b: string)
    requires Le(a, b) && Le(b, a)
    ensures a == b
  {
    if a != "" {
      LeAntisymmetric(a[1..], b[1..]);
      assert a == [a[0]] + a[1..] && b == [b[0]] + b[1..];
    }
  }

  lemma LeTransitive(a: string, b: string, c: string)
    requires Le(a, b) && Le(b, c)
    ensures Le(a, c)
  {
    if a != "" && a[0] == b[0] == c[0] {
      LeTransitive(a[1..], b[1..], c[1..]);
    }
  }

  /** `m` is the first identifier of `s` in sorted order. */
  predicate IsLeast(m: string, s: set<string>) {
    m in s && forall x | x in s :: Le(m, x)
  }

  lemma LeastExists(s: set<string>)
    requires s != {}
    ensures exists m :: IsLeast(m, s)
  {
    var x :| x in s;
    LeReflexive(x);
    if s == {x} {
      assert IsLeast(x, s);
    } else {
      var rest := s - {x};
      LeastExists(rest);
      var m :| IsLeast(m, rest);
      LeTotal(m, x);
      if Le(m, x) {
        assert IsLeast(m, s);
      } else {
        forall y | y in s ensures Le(x, y) {
          if y != x { LeTransitive(x, m, y); }
        }
        assert IsLeast(x, s);
      }
    }
  }

  function Least(s: set<string>): (m: string)
    requires s != {}
    ensures IsLeast(m, s)
  {
    LeastExists(s);
    assert forall p, q | IsLeast(p, s) && IsLeast(q, s) :: p == q by {
      forall p, q | IsLeast(p, s) && IsLeast(q, s) ensures p == q { LeAntisymmetric(p, q); }
    }
    var m :| m in s && IsLeast(m, s);
    m
  }

  /** Strictly increasing: sorted and free of duplicates. */
  predicate StrictlySorted(ids: seq<string>) {
    forall i, j | 0 <= i < j < |ids| :: Le(ids[i], ids[j]) && ids[i] != ids[j]
  }

  /** `sorted(s)`. */
  function SortedIds(s: set<string>): (ids: seq<string>)
    ensures forall x :: x in ids <==> x in s
  {
    if s == {} then [] else
      var m := Least(s);
      [m] + SortedIds(s - {m})
  }

  lemma {:induction false} SortedIdsSorted(s: set<string>)
    ensures StrictlySorted(SortedIds(s)) && |SortedIds(s)| == |s|
  {
    if s != {} {
      var m := Least(s);
      SortedIdsSorted(s - {m});
      var rest := SortedIds(s - {m});
      var ids := [m] + rest;
      assert SortedIds(s) == ids;
      forall i, j | 0 <= i < j < |ids| ensures Le(ids[i], ids[j]) && ids[i] != ids[j] {
        assert rest[j - 1] in s - {m};
        assert i > 0 ==> ids[i] == rest[i - 1];
      }
    }
  }

  /** A set of identifiers has exactly one sorted enumeration. */
  lemma {:induction false} SortedUnique(a: seq<string>, b: seq<string>)
    requires StrictlySorted(a) && StrictlySorted(b)
    requires forall x :: x in a <==> x in b
    ensures a == b
  {
    assert a != [] ==> a[0] in a;
    assert b != [] ==> b[0] in b;
    if a != [] {
      assert a[0] in b && b[0] in a;
      LeReflexive(a[0]);
      LeAntisymmetric(a[0], b[0]);
      forall x ensures x in a[1..] <==> x in b[1..] {
        if x in a[1..] { assert x in a; }
        if x in b[1..] { assert x in b; }
      }
      SortedUnique(a[1..], b[1..]);
    }
  }

  /** Picking identifiers in sorted order keeps what is picked sorted. */
  lemma SortedExtend(picked: seq<string>, ids: seq<string>, i: nat)
    requires StrictlySorted(ids) && StrictlySorted(picked) && i < |ids|
    requires forall x | x in picked :: x in ids[..i]
    ensures StrictlySorted(picked + [ids[i]])
  {
    forall k | 0 <= k < |picked| ensures Le(picked[k], ids[i]) && picked[k] != ids[i] {
      assert picked[k] in ids[..i];
    }
  }
}
