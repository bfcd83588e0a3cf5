/** Kernel circular lists, written head first: `list_add` puts an entry at index 0 and
    `list_last_entry` is the entry at the highest index, so a FIFO consumer meets the
    entries in the order `ReadOrder`. */
module Lists {

  /** The entries of a list from its tail to its head, i.e. oldest first. */
  function ReadOrder<T>(l: seq<T>): (r: seq<T>)
    ensures |r| == |l|
  {
    if l == [] then [] else ReadOrder(l[1..]) + [l[0]]
  }

  /** `list_add(x, l)` makes `x` the entry that is read last. */
  lemma ReadOrderAdd<T>(x: T, l: seq<T>)
    ensures ReadOrder([x] + l) == ReadOrder(l) + [x]
  {
    assert ([x] + l)[1..] == l;
  }

  /** Joining two lists reverses their order for a reader. */
  lemma {:induction false} ReadOrderJoin<T>(a: seq<T>, b: seq<T>)
    ensures ReadOrder(a + b) == ReadOrder(b) + ReadOrder(a)
  {
    if a == [] {
      assert a + b == b;
      assert ReadOrder(b) + [] == ReadOrder(b);
    } else {
      ReadOrderJoin(a[1..], b);
      assert a + b == [a[0]] + (a[1..] + b);
      ReadOrderAdd(a[0], a[1..] + b);
      assert ReadOrder(b) + ReadOrder(a[1..]) + [a[0]] == ReadOrder(b) + (ReadOrder(a[1..]) + [a[0]]);
    }
  }

  /** The tail entry is the one that is read first. */
  lemma ReadOrderLast<T>(l: seq<T>)
    requires l != []
    ensures ReadOrder(l) == [l[|l| - 1]] + ReadOrder(l[..|l| - 1])
  {
    var last := l[|l| - 1..];
    assert l == l[..|l| - 1] + last && last == [l[|l| - 1]];
    ReadOrderJoin(l[..|l| - 1], last);
    assert last[1..] == [];
  }

  lemma {:induction false} ReadOrderElements<T>(l: seq<T>)
    ensures multiset(ReadOrder(l)) == multiset(l)
  {
    if l != [] {
      ReadOrderElements(l[1..]);
      assert l == [l[0]] + l[1..];
    }
  }

  /** The position of an entry that is in the list. */
  function IndexOf<T(==)>(l: seq<T>, x: T): (i: nat)
    requires x in l
    ensures i < |l| && l[i] == x
  {
    if l[0] == x then 0 else 1 + IndexOf(l[1..], x)
  }

  /** `list_del`: the list without the entry `x`. */
  function Without<T(==)>(l: seq<T>, x: T): (r: seq<T>)
    requires x in l
    ensures |r| == |l| - 1
  {
    var i := IndexOf(l, x);
    l[..i] + l[i + 1..]
  }

  ghost predicate Distinct<T(!new)>(l: seq<T>) {
    forall i, j :: 0 <= i < j < |l| ==> l[i] != l[j]
  }

  /** A list whose multiset has no repeated entry has distinct positions. */
  lemma DistinctFromMultiset<T(!new)>(l: seq<T>)
    requires forall x :: multiset(l)[x] <= 1
    ensures Distinct(l)
  {
    forall i, j | 0 <= i < j < |l| ensures l[i] != l[j] {
      assert l == l[..j] + l[j..] && l[j] == l[j..][0];
      assert multiset(l)[l[j]] == multiset(l[..j])[l[j]] + multiset(l[j..])[l[j]];
      assert l[j] in multiset(l[j..]);
      assert l[j] !in l[..j];
      assert l[i] == l[..j][i];
    }
  }

  // ---- Totals over a sequence of threads -----------------------------------------------

  function Sum<T>(ts: seq<T>, f: T -> nat): nat {
    if ts == [] then 0 else f(ts[0]) + Sum(ts[1..], f)
  }

  /** Replacing one element changes the total by its share. */
  lemma {:induction false} SumUpdate<T>(ts: seq<T>, f: T -> nat, t: nat, x: T)
    requires t < |ts|
    ensures f(ts[t]) <= Sum(ts, f)
    ensures Sum(ts[t := x], f) == Sum(ts, f) - f(ts[t]) + f(x)
  {
    if t == 0 {
      assert ts[0 := x][1..] == ts[1..];
    } else {
      SumUpdate(ts[1..], f, t - 1, x);
      assert ts[t := x][1..] == ts[1..][t - 1 := x];
    }
  }

  lemma {:induction false} SumOfNothing<T>(ts: seq<T>, f: T -> nat)
    requires forall t :: 0 <= t < |ts| ==> f(ts[t]) == 0
    ensures Sum(ts, f) == 0
  {
    if ts != [] {
      SumOfNothing(ts[1..], f);
    }
  }
}
