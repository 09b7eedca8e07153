/** The fixed-capacity, oldest-first-evicting set behind the record of finished
    jobs and behind webhook de-duplication. */
module Bounded {
  import opened Seqs

  /** The remembered keys, oldest first, together with the history the set has
      seen: every key that was not remembered at the moment it was added. */
  datatype Ledger<K(==)> = Ledger(order: seq<K>, history: seq<K>)

  function Empty<K>(): Ledger<K> {
    Ledger([], [])
  }

  function AddKey<K>(size: nat, l: Ledger<K>, k: K): Ledger<K>
    requires size >= 1
  {
    if k in l.order then l
    else
      var kept := if |l.order| >= size then l.order[1..] else l.order;
      Ledger(kept + [k], l.history + [k])
  }

  /** The window really is the tail of the history, without repeats. */
  ghost predicate Refines<K>(size: nat, l: Ledger<K>) {
    NoDup(l.order) && l.order == Last(l.history, size)
  }

  /** One Add keeps the refinement, and reports membership of the window. */
  lemma AddKeyRefines<K>(size: nat, l: Ledger<K>, k: K)
    requires size >= 1 && Refines(size, l)
    ensures Refines(size, AddKey(size, l, k))
    ensures k in AddKey(size, l, k).order
    ensures l.history <= AddKey(size, l, k).history
  {
    var r := AddKey(size, l, k);
    if k !in l.order {
      assert r.history == l.history + [k];
      assert r.order == Last(r.history, size);
    }
  }

  function AddAll<K>(size: nat, l: Ledger<K>, keys: seq<K>): Ledger<K>
    requires size >= 1
  {
    if keys == [] then l
    else AddKey(size, AddAll(size, l, keys[..|keys| - 1]), keys[|keys| - 1])
  }

  lemma AddAllSnoc<K>(size: nat, l: Ledger<K>, keys: seq<K>, k: K)
    requires size >= 1
    ensures AddAll(size, l, keys + [k]) == AddKey(size, AddAll(size, l, keys), k)
  {
    assert (keys + [k])[..|keys + [k]| - 1] == keys;
  }

  /** Over any run of insertions the set remembers exactly the last `size` fresh
      keys, and the history only grows. */
  lemma {:induction false} WindowIsTailOfHistory<K>(size: nat, l: Ledger<K>, keys: seq<K>)
    requires size >= 1 && Refines(size, l)
    ensures var r := AddAll(size, l, keys);
            Refines(size, r) && l.history <= r.history && |r.order| == if |r.history| < size then |r.history| else size
  {
    if keys != [] {
      var n := |keys| - 1;
      WindowIsTailOfHistory(size, l, keys[..n]);
      AddKeyRefines(size, AddAll(size, l, keys[..n]), keys[n]);
    }
  }

  /** p is where k last entered the history. */
  ghost predicate LastEntry<K>(history: seq<K>, k: K, p: nat) {
    p < |history| && history[p] == k && forall i :: p < i < |history| ==> history[i] != k
  }

  /** A key is remembered exactly as long as fewer than `size` fresh keys have
      entered after it. */
  lemma SurvivesExactly<K>(size: nat, l: Ledger<K>, k: K, p: nat)
    requires size >= 1 && Refines(size, l) && LastEntry(l.history, k, p)
    ensures k in l.order <==> |l.history| - p - 1 < size
  {
    var start := if |l.history| <= size then 0 else |l.history| - size;
    assert l.order == l.history[start..];
    if start <= p {
      assert l.order[p - start] == k;
    }
  }

  /** The same, from an earlier state on: nothing but `size` fresh insertions
      after p can make the set forget the key it took in at p. */
  lemma NotForgottenBefore<K>(size: nat, l: Ledger<K>, k: K, p: nat)
    requires size >= 1 && Refines(size, l)
    requires p < |l.history| && l.history[p] == k
    ensures k !in l.order ==> |l.history| - p - 1 >= size
  {
    var start := if |l.history| <= size then 0 else |l.history| - size;
    assert l.order == l.history[start..];
    if start <= p {
      assert l.order[p - start] == k;
    }
  }

  /** A remembered key sits in the history within the last `size` entries. */
  lemma RememberedEntry<K>(size: nat, l: Ledger<K>, k: K) returns (p: nat)
    requires size >= 1 && Refines(size, l) && k in l.order
    ensures LastEntry(l.history, k, p) && |l.history| - p - 1 < size
  {
    var i :| 0 <= i < |l.order| && l.order[i] == k;
    var start := if |l.history| <= size then 0 else |l.history| - size;
    assert l.order == l.history[start..];
    p := start + i;
    forall j | p < j < |l.history| ensures l.history[j] != k {
      assert l.history[j] == l.order[j - start];
    }
  }

  /** While there is room, adding a key adds just that key. */
  lemma AddKeyUnion<K>(size: nat, l: Ledger<K>, k: K)
    requires size >= 1 && Refines(size, l)
    requires |Elems(l.order) + {k}| <= size
    ensures Elems(AddKey(size, l, k).order) == Elems(l.order) + {k}
    ensures Refines(size, AddKey(size, l, k))
  {
    AddKeyRefines(size, l, k);
    assert k in l.order <==> k in Elems(l.order);
    if k !in l.order {
      NoDupCard(l.order);
      assert |Elems(l.order) + {k}| == |l.order| + 1;
      ElemsAppend(l.order, k);
    }
  }

  /** And so for many keys. */
  lemma {:induction false} AddAllUnion<K>(size: nat, l: Ledger<K>, keys: seq<K>)
    requires size >= 1 && Refines(size, l)
    requires |Elems(l.order) + Elems(keys)| <= size
    ensures Elems(AddAll(size, l, keys).order) == Elems(l.order) + Elems(keys)
    ensures Refines(size, AddAll(size, l, keys))
  {
    if keys == [] {
      assert Elems(keys) == {};
    } else {
      var n := |keys| - 1;
      assert keys == keys[..n] + [keys[n]];
      ElemsAppend(keys[..n], keys[n]);
      var before := Elems(l.order) + Elems(keys[..n]);
      assert Elems(l.order) + Elems(keys) == before + {keys[n]};
      SubsetCard(before, before + {keys[n]});
      AddAllUnion(size, l, keys[..n]);
      AddKeyUnion(size, AddAll(size, l, keys[..n]), keys[n]);
    }
  }

  lemma AddKeyRemembersOnly<K>(size: nat, l: Ledger<K>, k: K)
    requires size >= 1
    ensures Elems(AddKey(size, l, k).order) <= Elems(l.order) + {k}
  {
    var r := AddKey(size, l, k);
    forall x | x in Elems(r.order) ensures x in Elems(l.order) + {k} {
      var i :| 0 <= i < |r.order| && r.order[i] == x;
      assert x == k || x in l.order;
    }
  }

  /** Adding keys never makes the set remember anything else. */
  lemma {:induction false} AddAllRemembersOnly<K>(size: nat, l: Ledger<K>, keys: seq<K>)
    requires size >= 1
    ensures Elems(AddAll(size, l, keys).order) <= Elems(l.order) + Elems(keys)
  {
    if keys != [] {
      var n := |keys| - 1;
      AddAllRemembersOnly(size, l, keys[..n]);
      AddKeyRemembersOnly(size, AddAll(size, l, keys[..n]), keys[n]);
      assert keys == keys[..n] + [keys[n]];
      ElemsAppend(keys[..n], keys[n]);
    }
  }

  lemma {:induction false} SubsetCard<T>(a: set<T>, b: set<T>)
    requires a <= b
    ensures |a| <= |b|
  {
    assert b == a + (b - a);
  }

  /** Go's Set: a membership map and the insertion order. */
  class Set<K(==)> {
    const size: nat
    var items: set<K>
    var order: seq<K>
    ghost var history: seq<K>

    ghost predicate Valid()
      reads this
    {
      size >= 1 && items == Elems(order) && Refines(size, View())
    }

    ghost function View(): Ledger<K>
      reads this
    {
      Ledger(order, history)
    }

    constructor (capacity: int)
      ensures Valid() && View() == Empty()
      ensures size == if capacity < 1 then 1 else capacity
    {
      size := if capacity < 1 then 1 else capacity;
      items := {};
      order := [];
      history := [];
    }

    method Add(k: K) returns (seen: bool)
      requires Valid()
      modifies this
      ensures Valid()
      ensures seen <==> k in old(order)
      ensures View() == AddKey(size, old(View()), k)
    {
      AddKeyRefines(size, View(), k);
      if k in items {
        return true;
      }
      if |order| >= size {
        var oldest := order[0];
        assert Elems(order[1..]) == items - {oldest} by {
          assert order == [oldest] + order[1..];
        }
        order := order[1..];
        items := items - {oldest};
      }
      ElemsAppend(order, k);
      items := items + {k};
      order := order + [k];
      history := history + [k];
      return false;
    }

    method Has(k: K) returns (seen: bool)
      requires Valid()
      ensures seen <==> k in order
    {
      return k in items;
    }

    method Len() returns (n: nat)
      requires Valid()
      ensures n == |Last(history, size)| <= size
    {
      NoDupCard(order);
      return |items|;
    }
  }
}
