/** What the entries of a queue name or add up to, and picking from a set. */
module Bags {

  function Bag<T, U>(xs: seq<T>, f: T -> multiset<U>): multiset<U> {
    if xs == [] then multiset{} else f(xs[0]) + Bag(xs[1..], f)
  }

  lemma Regroup<U>(a: multiset<U>, b: multiset<U>, c: multiset<U>)
    ensures a + (b + c) == (a + b) + c
  {
  }

  lemma Exchange<U>(a: multiset<U>, b: multiset<U>, c: multiset<U>)
    ensures a + (b + c) == b + (a + c)
  {
  }

  /** Moving `t` from one side to the other loses nothing. */
  lemma StaysIn<U>(u: U, a: multiset<U>, b: multiset<U>, t: multiset<U>, a': multiset<U>)
    requires u in a + b && a' + t == a
    ensures u in a' + (b + t)
  {
  }

  lemma {:induction false} BagAppend<T, U>(xs: seq<T>, x: T, f: T -> multiset<U>)
    ensures Bag(xs + [x], f) == Bag(xs, f) + f(x)
  {
    if xs == [] {
      assert [x][1..] == [];
    } else {
      assert (xs + [x])[1..] == xs[1..] + [x];
      BagAppend(xs[1..], x, f);
      Regroup(f(xs[0]), Bag(xs[1..], f), f(x));
    }
  }

  /** Whatever an entry names is in the bag. */
  lemma {:induction false} InBag<T, U>(xs: seq<T>, i: nat, u: U, f: T -> multiset<U>)
    requires i < |xs| && u in f(xs[i])
    ensures u in Bag(xs, f)
  {
    if i > 0 {
      assert xs[i] == xs[1..][i - 1];
      InBag(xs[1..], i - 1, u, f);
    }
  }

  lemma {:induction false} InSuffix<T, U>(xs: seq<T>, j: nat, u: U, f: T -> multiset<U>)
    requires j <= |xs| && u in Bag(xs[j..], f)
    ensures u in Bag(xs, f)
  {
    if j == 0 {
      assert xs[0..] == xs;
    } else {
      assert xs[1..][j - 1..] == xs[j..];
      InSuffix(xs[1..], j - 1, u, f);
    }
  }

  /** A set that is not empty has a member to pick. */
  lemma SomeMember(keys: set<int>)
    ensures keys == {} || exists fd :: fd in keys
  {
    if forall fd :: fd !in keys { assert keys == {}; }
  }

  lemma KeysInsert(keys: set<int>, fd: int)
    requires fd !in keys
    ensures multiset(keys + {fd}) == multiset(keys) + multiset{fd}
  {
  }

  // ------------------------------------------------------------------ totals

  /** What the entries of a queue add up to. */
  function Total<T>(xs: seq<T>, f: T -> nat): nat {
    if xs == [] then 0 else f(xs[0]) + Total(xs[1..], f)
  }

  lemma {:induction false} TotalAppend<T>(xs: seq<T>, x: T, f: T -> nat)
    ensures Total(xs + [x], f) == Total(xs, f) + f(x)
  {
    if xs == [] {
      assert [x][1..] == [];
    } else {
      assert (xs + [x])[1..] == xs[1..] + [x];
      TotalAppend(xs[1..], x, f);
    }
  }

  // --------------------------------------------------------------- gathering

  /** What the entries of a queue carry, in order. */
  function Gather<T, U>(xs: seq<T>, f: T -> seq<U>): seq<U> {
    if xs == [] then [] else f(xs[0]) + Gather(xs[1..], f)
  }

  lemma {:induction false} GatherAppend<T, U>(xs: seq<T>, x: T, f: T -> seq<U>)
    ensures Gather(xs + [x], f) == Gather(xs, f) + f(x)
  {
    if xs == [] {
      assert [x][1..] == [];
    } else {
      assert (xs + [x])[1..] == xs[1..] + [x];
      GatherAppend(xs[1..], x, f);
      assert f(xs[0]) + (Gather(xs[1..], f) + f(x)) == (f(xs[0]) + Gather(xs[1..], f)) + f(x);
    }
  }
}
