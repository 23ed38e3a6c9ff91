/** The ordered container behind the tables, as its in-order sequence (assoc_rb_tree.c). */
module Trees {

  /** before orders any two different keys, one way. */
  ghost predicate TotalOrder<K(!new)>(before: (K, K) -> bool) {
    && (forall a, b :: before(a, b) ==> !before(b, a))
    && (forall a, b :: a != b ==> before(a, b) || before(b, a))
    && (forall a, b, c :: before(a, b) && before(b, c) ==> before(a, c))
  }

  ghost predicate Keyed<K, V>(t: seq<(K, V)>, k: K) {
    exists i :: 0 <= i < |t| && t[i].0 == k
  }

  ghost predicate Ascending<K, V>(before: (K, K) -> bool, t: seq<(K, V)>) {
    forall i, j :: 0 <= i < j < |t| ==> before(t[i].0, t[j].0)
  }

  /** t lists the map, each key once, in order. */
  ghost predicate Lists<K, V>(before: (K, K) -> bool, t: seq<(K, V)>, m: map<K, V>) {
    && Ascending(before, t)
    && (forall i :: 0 <= i < |t| ==> t[i].0 in m && m[t[i].0] == t[i].1)
    && (forall k <- m :: Keyed(t, k))
  }

  /** t' is t with e put in at position i. */
  ghost predicate Inserted<K, V>(t: seq<(K, V)>, i: nat, e: (K, V), t': seq<(K, V)>) {
    && i <= |t| && |t'| == |t| + 1
    && (forall j {:trigger t'[j]} :: 0 <= j < |t'| ==> t'[j] == (if j < i then t[j] else if j == i then e else t[j - 1]))
  }

  /** k goes at position i. */
  ghost predicate Fits<K, V>(before: (K, K) -> bool, t: seq<(K, V)>, i: nat, k: K) {
    i <= |t| && (forall j :: 0 <= j < i ==> before(t[j].0, k)) && (forall j :: i <= j < |t| ==> before(k, t[j].0))
  }

  lemma InsertAscends<K, V>(before: (K, K) -> bool, t: seq<(K, V)>, i: nat, e: (K, V), t': seq<(K, V)>)
    requires Inserted(t, i, e, t') && Ascending(before, t) && Fits(before, t, i, e.0)
    ensures Ascending(before, t')
  {
  }

  lemma InsertKeys<K, V>(t: seq<(K, V)>, i: nat, e: (K, V), t': seq<(K, V)>, k: K)
    requires Inserted(t, i, e, t')
    ensures Keyed(t', k) <==> Keyed(t, k) || k == e.0
  {
    assert t'[i] == e;
    if j :| 0 <= j < |t| && t[j].0 == k {
      assert t'[if j < i then j else j + 1] == t[j];
    }
  }

  lemma Apart<K(!new), V>(before: (K, K) -> bool, t: seq<(K, V)>, i: nat, k: K)
    requires TotalOrder(before) && Fits(before, t, i, k)
    ensures forall j :: 0 <= j < |t| ==> t[j].0 != k
  {
  }

  lemma InsertLists<K(!new), V>(before: (K, K) -> bool, t: seq<(K, V)>, m: map<K, V>, i: nat, k: K, v: V)
    requires TotalOrder(before) && Lists(before, t, m) && Fits(before, t, i, k)
    ensures Lists(before, t[..i] + [(k, v)] + t[i..], m[k := v])
  {
    var t' := t[..i] + [(k, v)] + t[i..];
    assert Inserted(t, i, (k, v), t');
    InsertAscends(before, t, i, (k, v), t');
    Apart(before, t, i, k);
    hide Keyed, Ascending, Inserted, Fits, TotalOrder;
    forall key { InsertKeys(t, i, (k, v), t', key); }
    forall j | 0 <= j < |t'| ensures t'[j].0 in m[k := v] && m[k := v][t'[j].0] == t'[j].1 {
      assert t'[j] == if j < i then t[j] else if j == i then (k, v) else t[j - 1];
    }
  }

  lemma RemoveLists<K(!new), V>(before: (K, K) -> bool, t: seq<(K, V)>, m: map<K, V>, i: nat)
    requires TotalOrder(before) && Lists(before, t, m) && i < |t|
    ensures Lists(before, t[..i] + t[i + 1..], m - {t[i].0})
  {
    var t' := t[..i] + t[i + 1..];
    CutOut(t, i);
    hide Ascending, Keyed, Inserted, TotalOrder;
    RemoveAscends(before, t, i, t');
    RemoveMembers(before, t, m, i, t');
    RemoveKeys(t, m, i, t');
  }

  lemma CutOut<K, V>(t: seq<(K, V)>, i: nat)
    requires i < |t|
    ensures Inserted(t[..i] + t[i + 1..], i, t[i], t)
  {
  }

  lemma RemoveKeys<K, V>(t: seq<(K, V)>, m: map<K, V>, i: nat, t': seq<(K, V)>)
    requires (forall k <- m :: Keyed(t, k)) && i < |t| && Inserted(t', i, t[i], t)
    ensures forall k <- m - {t[i].0} :: Keyed(t', k)
  {
    hide Keyed, Inserted;
    forall k <- m - {t[i].0} ensures Keyed(t', k) {
      InsertKeys(t', i, t[i], t, k);
    }
  }

  lemma RemoveMembers<K(!new), V>(before: (K, K) -> bool, t: seq<(K, V)>, m: map<K, V>, i: nat, t': seq<(K, V)>)
    requires TotalOrder(before) && Lists(before, t, m) && i < |t| && Inserted(t', i, t[i], t)
    ensures forall j :: 0 <= j < |t'| ==> t'[j].0 in m - {t[i].0} && m[t'[j].0] == t'[j].1
  {
    hide Keyed;
    forall j | 0 <= j < |t'| ensures t'[j].0 in m - {t[i].0} && m[t'[j].0] == t'[j].1 {
      var k := if j < i then j else j + 1;
      assert t[k] == t'[j];
      assert before(t[k].0, t[i].0) || before(t[i].0, t[k].0);
    }
  }

  lemma RemoveAscends<K, V>(before: (K, K) -> bool, t: seq<(K, V)>, i: nat, t': seq<(K, V)>)
    requires i < |t| && Inserted(t', i, t[i], t) && Ascending(before, t)
    ensures Ascending(before, t')
  {
    forall a, b | 0 <= a < b < |t'| ensures before(t'[a].0, t'[b].0) {
      assert t[if a < i then a else a + 1] == t'[a] && t[if b < i then b else b + 1] == t'[b];
    }
  }

  lemma SetLists<K(!new), V>(before: (K, K) -> bool, t: seq<(K, V)>, m: map<K, V>, i: nat, v: V)
    requires TotalOrder(before) && Lists(before, t, m) && i < |t|
    ensures Lists(before, t[i := (t[i].0, v)], m[t[i].0 := v])
  {
    var t' := t[i := (t[i].0, v)];
    forall key <- m[t[i].0 := v] ensures Keyed(t', key) {
      assert Keyed(t, key);
      var j :| 0 <= j < |t| && t[j].0 == key;
      assert t'[j].0 == key;
    }
    hide Keyed;
    forall j | 0 <= j < |t| && j != i ensures t[j].0 != t[i].0 {
      assert before(t[j].0, t[i].0) || before(t[i].0, t[j].0);
    }
  }

  lemma {:induction false} SameSize<K(!new), V>(before: (K, K) -> bool, t: seq<(K, V)>, m: map<K, V>)
    requires TotalOrder(before) && Lists(before, t, m)
    ensures |t| == |m|
    decreases |t|
  {
    if t == [] {
      assert forall k <- m :: Keyed(t, k);
      assert m == map[];
    } else {
      RemoveLists(before, t, m, 0);
      hide TotalOrder;
      SameSize(before, t[..0] + t[1..], m - {t[0].0});
      assert (m - {t[0].0}).Keys == m.Keys - {t[0].0};
    }
  }

  class Tree<K(!new, ==), V> {
    const before: (K, K) -> bool
    var items: seq<(K, V)>
    ghost var model: map<K, V>

    ghost predicate Valid()
      reads this
    {
      TotalOrder(before) && Lists(before, items, model)
    }

    constructor (order: (K, K) -> bool)
      requires TotalOrder(order)
      ensures Valid() && model == map[] && before == order
    {
      before, items, model := order, [], map[];
    }

    /** The position of k, or where it would go. */
    method Find(k: K) returns (i: nat)
      requires Valid()
      ensures i <= |items| && (k in model <==> i < |items| && items[i].0 == k)
      ensures k !in model ==> Fits(before, items, i, k)
    {
      i := 0;
      while i < |items| && before(items[i].0, k)
        invariant i <= |items| && forall j :: 0 <= j < i ==> before(items[j].0, k)
      {
        i := i + 1;
      }
      Located(before, items, model, i, k);
    }

    /** assoc_insert; a second item under the same key would make the key ambiguous. */
    method Insert(k: K, v: V)
      requires Valid() && k !in model
      modifies this
      ensures Valid() && model == old(model)[k := v]
    {
      var i := Find(k);
      InsertLists(before, items, model, i, k, v);
      hide Lists, Fits, TotalOrder;
      items := items[..i] + [(k, v)] + items[i..];
      model := model[k := v];
    }

    /** Changes the value under a key. */
    method Set(k: K, v: V)
      requires Valid() && k in model
      modifies this
      ensures Valid() && model == old(model)[k := v]
    {
      var i := Find(k);
      SetLists(before, items, model, i, v);
      hide Lists, TotalOrder;
      items := items[i := (k, v)];
      model := model[k := v];
    }

    /** assoc_extract. */
    method Extract(k: K) returns (v: V)
      requires Valid() && k in model
      modifies this
      ensures v == old(model)[k]
      ensures Valid() && model == old(model) - {k}
    {
      var i := Find(k);
      v := items[i].1;
      assert v == model[k];
      RemoveLists(before, items, model, i);
      hide Lists, TotalOrder;
      items := items[..i] + items[i + 1..];
      model := model - {k};
    }
  }

  /** Where the search for k stops. */
  lemma Located<K(!new), V>(before: (K, K) -> bool, t: seq<(K, V)>, m: map<K, V>, i: nat, k: K)
    requires TotalOrder(before) && Lists(before, t, m)
    requires i <= |t| && (forall j :: 0 <= j < i ==> before(t[j].0, k)) && (i < |t| ==> !before(t[i].0, k))
    ensures k in m <==> i < |t| && t[i].0 == k
    ensures k !in m ==> Fits(before, t, i, k)
  {
    if k in m {
      assert Keyed(t, k);
      var j :| 0 <= j < |t| && t[j].0 == k;
      assert !before(k, k);
      assert i <= j;
    } else if i < |t| {
      assert t[i].0 in m;
      assert before(k, t[i].0);
      forall j | i <= j < |t| ensures before(k, t[j].0) {
        assert i < j ==> before(t[i].0, t[j].0);
      }
    }
  }

  predicate NatBefore(a: nat, b: nat) {
    a < b
  }

  lemma NatOrder()
    ensures TotalOrder(NatBefore)
  {
  }
}
