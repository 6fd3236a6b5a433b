/** The two list transforms every collection of the store is edited with:
    `xs.map(x => x.id === id ? f(x) : x)` and `xs.filter(x => x.id !== id)`.
    Both are generic in the element type and in the key the entries are
    compared by. */
module Lists {

  /** `b` contains the elements of `a` in the same relative order (possibly
      with others between them). */
  ghost predicate Subseq<T>(a: seq<T>, b: seq<T>)
    decreases |b|
  {
    if a == [] then true
    else if b == [] then false
    else if a[0] == b[0] then Subseq(a[1..], b[1..])
    else Subseq(a, b[1..])
  }

  /** Number of entries of `xs` whose key is `key`. */
  function Count<T, K(==)>(xs: seq<T>, key: K, keyOf: T -> K): nat
  {
    if xs == [] then 0
    else (if keyOf(xs[0]) == key then 1 else 0) + Count(xs[1..], key, keyOf)
  }

  /** No two entries share a key. */
  ghost predicate DistinctKeys<T, K>(xs: seq<T>, keyOf: T -> K)
  {
    forall i, j :: 0 <= i < j < |xs| ==> keyOf(xs[i]) != keyOf(xs[j])
  }

  /** `xs.map(x => keyOf(x) === key ? f(x) : x)`. */
  function UpdateWhere<T, K(==)>(xs: seq<T>, key: K, keyOf: T -> K, f: T -> T): (r: seq<T>)
    ensures |r| == |xs|
  {
    if xs == [] then []
    else [if keyOf(xs[0]) == key then f(xs[0]) else xs[0]] + UpdateWhere(xs[1..], key, keyOf, f)
  }

  /** `xs.filter(x => keyOf(x) !== key)`. */
  function RemoveWhere<T, K(==)>(xs: seq<T>, key: K, keyOf: T -> K): (r: seq<T>)
    ensures |r| + Count(xs, key, keyOf) == |xs|
    ensures forall i :: 0 <= i < |r| ==> keyOf(r[i]) != key
  {
    if xs == [] then []
    else if keyOf(xs[0]) == key then RemoveWhere(xs[1..], key, keyOf)
    else [xs[0]] + RemoveWhere(xs[1..], key, keyOf)
  }

  /** Position by position, an update changes exactly the entries whose key
      matches, and changes each of them by `f`. */
  lemma {:induction false} UpdateWhereAt<T, K>(xs: seq<T>, key: K, keyOf: T -> K, f: T -> T, i: nat)
    requires i < |xs|
    ensures UpdateWhere(xs, key, keyOf, f)[i] == if keyOf(xs[i]) == key then f(xs[i]) else xs[i]
  {
    if i > 0 {
      UpdateWhereAt(xs[1..], key, keyOf, f, i - 1);
    }
  }

  /** The position-by-position statement for every position at once. */
  lemma UpdateWhereAll<T, K>(xs: seq<T>, key: K, keyOf: T -> K, f: T -> T)
    ensures forall i :: 0 <= i < |xs| ==>
      UpdateWhere(xs, key, keyOf, f)[i] == if keyOf(xs[i]) == key then f(xs[i]) else xs[i]
  {
    forall i | 0 <= i < |xs|
      ensures UpdateWhere(xs, key, keyOf, f)[i] == if keyOf(xs[i]) == key then f(xs[i]) else xs[i]
    {
      UpdateWhereAt(xs, key, keyOf, f, i);
    }
  }

  /** An update whose key matches no entry returns the list unchanged. */
  lemma {:induction false} UpdateWhereMiss<T, K>(xs: seq<T>, key: K, keyOf: T -> K, f: T -> T)
    requires forall i :: 0 <= i < |xs| ==> keyOf(xs[i]) != key
    ensures UpdateWhere(xs, key, keyOf, f) == xs
  {
    if xs != [] {
      UpdateWhereMiss(xs[1..], key, keyOf, f);
    }
  }

  /** When `f` keeps the key, the updated list has the same keys, position by
      position, so distinct keys stay distinct. */
  lemma UpdateWhereKeepsKeys<T, K>(xs: seq<T>, key: K, keyOf: T -> K, f: T -> T)
    requires forall x :: keyOf(f(x)) == keyOf(x)
    ensures forall i :: 0 <= i < |xs| ==> keyOf(UpdateWhere(xs, key, keyOf, f)[i]) == keyOf(xs[i])
    ensures DistinctKeys(xs, keyOf) ==> DistinctKeys(UpdateWhere(xs, key, keyOf, f), keyOf)
  {
    UpdateWhereAll(xs, key, keyOf, f);
  }

  /** Removal keeps the surviving entries in their original relative order. */
  lemma {:induction false} RemoveWhereSubseq<T, K>(xs: seq<T>, key: K, keyOf: T -> K)
    ensures Subseq(RemoveWhere(xs, key, keyOf), xs)
  {
    if xs != [] {
      RemoveWhereSubseq(xs[1..], key, keyOf);
      var rest := RemoveWhere(xs[1..], key, keyOf);
      if keyOf(xs[0]) == key {
        SubseqSkip(rest, xs);
      } else {
        assert RemoveWhere(xs, key, keyOf) == [xs[0]] + rest;
        assert ([xs[0]] + rest)[1..] == rest;
      }
    }
  }

  /** Dropping the head of the longer list keeps a subsequence relation. */
  lemma {:induction false} SubseqSkip<T>(a: seq<T>, b: seq<T>)
    requires b != [] && Subseq(a, b[1..])
    ensures Subseq(a, b)
    decreases |b|, 0
  {
    if a != [] && a[0] == b[0] {
      // Subseq(a, b) needs Subseq(a[1..], b[1..]), which follows from Subseq(a, b[1..]).
      SubseqTail(a, b[1..]);
    }
  }

  /** A subsequence stays a subsequence after dropping its own head. */
  lemma {:induction false} SubseqTail<T>(a: seq<T>, b: seq<T>)
    requires a != [] && Subseq(a, b)
    ensures Subseq(a[1..], b)
    decreases |b|, 1
  {
    if b != [] {
      if a[0] == b[0] {
        if a[1..] != [] {
          SubseqSkip(a[1..], b);
        }
      } else {
        SubseqTail(a, b[1..]);
        if a[1..] != [] {
          SubseqSkip(a[1..], b);
        }
      }
    }
  }

  /** Every entry whose key differs survives the removal. */
  lemma {:induction false} RemoveWhereKeeps<T, K>(xs: seq<T>, key: K, keyOf: T -> K, i: nat)
    requires i < |xs| && keyOf(xs[i]) != key
    ensures xs[i] in RemoveWhere(xs, key, keyOf)
  {
    if i > 0 {
      RemoveWhereKeeps(xs[1..], key, keyOf, i - 1);
    }
  }

  /** A removal whose key matches no entry returns the list unchanged. */
  lemma {:induction false} RemoveWhereMiss<T, K>(xs: seq<T>, key: K, keyOf: T -> K)
    requires forall i :: 0 <= i < |xs| ==> keyOf(xs[i]) != key
    ensures RemoveWhere(xs, key, keyOf) == xs
  {
    if xs != [] {
      RemoveWhereMiss(xs[1..], key, keyOf);
    }
  }

  /** Removal only drops entries: everything left was in the list before. */
  lemma {:induction false} RemoveWhereFrom<T, K>(xs: seq<T>, key: K, keyOf: T -> K)
    ensures forall x :: x in RemoveWhere(xs, key, keyOf) ==> x in xs
  {
    if xs != [] {
      RemoveWhereFrom(xs[1..], key, keyOf);
    }
  }
}
