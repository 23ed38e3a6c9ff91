/** The table of the iApp between RIC request ids and the xApp requests behind them
    (map_ric_id.c), as a value and as the mutable object the iApp holds. */
module IdMaps {
  import opened RicIds
  import opened Trees

  type NodeId = nat

  datatype Kind = Subscription | Control

  /** What the table stores about a forwarded request: its id on the RIC side, the E2 node it went
      to and its kind. */
  datatype Entry = Entry(id: RicId, node: NodeId, kind: Kind)

  datatype Option<+T> = None | Some(value: T)

  /** The two directions of the table. The left one is keyed by the RIC request id alone. */
  datatype IdMap = IdMap(left: map<nat, XKey>, right: map<XKey, Entry>)

  const EMPTY := IdMap(map[], map[])

  /** The two directions are inverse to each other. */
  ghost predicate Bijective(m: IdMap) {
    && (forall k <- m.left :: m.left[k] in m.right && m.right[m.left[k]].id.req == k)
    && (forall x <- m.right :: m.right[x].id.req in m.left && m.left[m.right[x].id.req] == x)
  }

  function Add(m: IdMap, e: Entry, x: XKey): IdMap {
    IdMap(m.left[e.id.req := x], m.right[x := e])
  }

  function Remove(m: IdMap, x: XKey): IdMap
    requires x in m.right
  {
    IdMap(m.left - {m.right[x].id.req}, m.right - {x})
  }

  /** Adding a pair keeps the two directions inverse exactly when both keys are new, or the xApp key has
      the id already. */
  lemma AddKeepsBijectiveIff(m: IdMap, e: Entry, x: XKey)
    requires Bijective(m)
    ensures Bijective(Add(m, e, x)) <==>
              (e.id.req !in m.left && x !in m.right) || (x in m.right && m.right[x].id.req == e.id.req)
  {
    var n := Add(m, e, x);
    if e.id.req in m.left && m.left[e.id.req] != x {
      assert n.right[m.left[e.id.req]].id.req == e.id.req;
      assert !Bijective(n);
    } else if x in m.right && m.right[x].id.req != e.id.req {
      assert m.right[x].id.req in n.left && n.left[m.right[x].id.req] == x;
      assert !Bijective(n);
    } else {
      forall k <- n.left ensures k != e.id.req ==> n.left[k] == m.left[k] && m.left[k] in m.right {}
    }
  }

  lemma RemoveKeepsBijective(m: IdMap, x: XKey)
    requires Bijective(m) && x in m.right
    ensures Bijective(Remove(m, x))
  {
  }

  /** The first key, in tree order, that the lookup of a delete request takes for (_, id): since
      the lookup ignores the xApp, the one of the least xApp that has id in the table. */
  ghost predicate FirstMatch(right: map<XKey, Entry>, id: RicId, y: XKey) {
    && y in right && y.id == id
    && (forall z: nat :: XKey(z, id) in right ==> y.xapp <= z)
  }

  /** What looking up a delete request finds. */
  ghost predicate Found(right: map<XKey, Entry>, id: RicId, found: Option<Entry>) {
    match found
    case None => forall z: nat :: XKey(z, id) !in right
    case Some(e) => exists y :: FirstMatch(right, id, y) && right[y] == e
  }

  /** A delete request resolves to the requester's own entry exactly when no xApp with a smaller id
      has an entry under the same RIC id. */
  lemma DeleteResolvesToOwnIff(m: IdMap, x: XKey, found: Option<Entry>)
    requires Bijective(m) && x in m.right && Found(m.right, x.id, found)
    ensures found == Some(m.right[x]) <==> forall z: nat :: z < x.xapp ==> XKey(z, x.id) !in m.right
  {
    assert found.Some? by { assert XKey(x.xapp, x.id) == x; }
    var y :| FirstMatch(m.right, x.id, y) && m.right[y] == found.value;
    assert XKey(y.xapp, x.id) == y && XKey(x.xapp, x.id) == x;
    if found == Some(m.right[x]) {
      assert y == x;
    }
  }

  /** Two xApps whose first requests carry the same RIC id: the delete of the second one resolves
      to the subscription of the first one. */
  lemma TwoXappsCollide(id: RicId, e1: Entry, e2: Entry, a: nat, b: nat)
    requires a < b && e1.id.req != e2.id.req
    ensures var m := Add(Add(EMPTY, e1, XKey(a, id)), e2, XKey(b, id));
            Bijective(m) && m.right[XKey(b, id)] == e2 && Found(m.right, id, Some(e1)) && !Found(m.right, id, Some(e2))
  {
    var m := Add(Add(EMPTY, e1, XKey(a, id)), e2, XKey(b, id));
    AddKeepsBijectiveIff(EMPTY, e1, XKey(a, id));
    AddKeepsBijectiveIff(Add(EMPTY, e1, XKey(a, id)), e2, XKey(b, id));
    assert FirstMatch(m.right, id, XKey(a, id)) && m.right[XKey(a, id)] == e1;
    forall y | FirstMatch(m.right, id, y) ensures m.right[y] != e2 {
      assert XKey(a, id) in m.right;
    }
  }

  /** The order that the right tree is kept in. */
  predicate XKeyBefore(a: XKey, b: XKey) {
    CmpXKey(a, b) == 1
  }

  lemma XKeyOrder()
    ensures TotalOrder(XKeyBefore)
  {
    forall a, b, c {
      CmpXKeyIsOrder(a, b, c);
    }
  }

  /** subs is the subscription-type part of the entries of one xApp, each once and in tree order. */
  ghost predicate AllSubs(right: map<XKey, Entry>, xapp: nat, subs: seq<Entry>) {
    exists ks: seq<XKey> :: SubKeys(right, xapp, ks) && subs == seq(|ks|, i requires 0 <= i < |ks| => right[ks[i]])
  }

  ghost predicate SubKeys(right: map<XKey, Entry>, xapp: nat, ks: seq<XKey>)
    ensures SubKeys(right, xapp, ks) ==> forall i :: 0 <= i < |ks| ==> ks[i] in right
  {
    && (forall i, j :: 0 <= i < j < |ks| ==> Precedes(ks[i], ks[j]))
    && (forall x :: x in ks <==> x in right && x.xapp == xapp && right[x].kind == Subscription)
  }

  /** The table as the iApp holds it. The order of the right tree shows through lookups and listings. */
  class MapRicId {
    var left: map<nat, XKey>
    const right: Tree<XKey, Entry>
    ghost var model: IdMap

    ghost predicate Valid()
      reads this, right
    {
      && right.Valid() && right.before == XKeyBefore
      && left == model.left && right.model == model.right && Bijective(model)
    }

    constructor ()
      ensures Valid() && model == EMPTY && fresh(right)
    {
      XKeyOrder();
      left, model := map[], EMPTY;
      right := new Tree(XKeyBefore);
    }

    /** add_map_ric_id; the first requirement on the keys is the assertion of the source, the second what
        the tree needs to stay free of duplicates. */
    method AddMapRicId(e: Entry, x: XKey)
      requires Valid()
      requires e.id.req !in model.left
      requires x !in model.right
      modifies this, right
      ensures Valid() && model == Add(old(model), e, x)
      ensures model.left == old(model).left[e.id.req := x] && model.right == old(model).right[x := e]
    {
      AddKeepsBijectiveIff(model, e, x);
      hide Bijective;
      right.Insert(x, e);
      left := left[e.id.req := x];
      model := Add(model, e, x);
    }

    /** rm_map_ric_id: extracts the entry of a key that must be present. */
    method RmMapRicId(x: XKey)
      requires Valid()
      requires x in model.right
      modifies this, right
      ensures Valid() && model == Remove(old(model), x)
      ensures model.left == old(model).left - {old(model).right[x].id.req} && model.right == old(model).right - {x}
    {
      RemoveKeepsBijective(model, x);
      hide Bijective, TotalOrder, Lists;
      var e := right.Extract(x);
      assert e == model.right[x];
      left := left - {e.id.req};
      model := Remove(model, x);
    }

    /** find_xapp_map_ric_id. */
    method FindXapp(k: nat) returns (x: Option<XKey>)
      requires Valid()
      requires k > 0
      ensures k in model.left ==> x == Some(model.left[k])
      ensures k !in model.left ==> x == None
    {
      x := if k in left then Some(left[k]) else None;
    }

    /** find_ric_req_map_ric_id: walks the right tree from its front and stops at the first key the
        equality of the program accepts. */
    method FindRicReq(x: XKey) returns (found: Option<Entry>)
      requires Valid()
      ensures Found(model.right, x.id, found)
    {
      hide TotalOrder, Bijective, Lists, FirstMatch;
      for i := 0 to |right.items|
        invariant forall j :: 0 <= j < i ==> right.items[j].0.id != x.id
      {
        if EqXKey(x, right.items[i].0) {
          FirstInOrder(right.items, model.right, i, x.id);
          return Some(right.items[i].1);
        }
      }
      NoneUnder(right.items, model.right, x.id);
      return None;
    }

    /** The position of the first key of an xApp at or after a position; the end if there is none. */
    method FindFrom(start: nat, xapp: nat) returns (it: nat)
      requires start <= |right.items|
      ensures start <= it <= |right.items|
      ensures forall j :: start <= j < it ==> right.items[j].0.xapp != xapp
      ensures it < |right.items| ==> right.items[it].0.xapp == xapp
    {
      it := start;
      while it < |right.items| && right.items[it].0.xapp != xapp
        invariant start <= it <= |right.items|
        invariant forall j :: start <= j < it ==> right.items[j].0.xapp != xapp
      {
        it := it + 1;
      }
    }

    /** find_all_subs_map_ric_id: repeated find from the position after the last hit. */
    method FindAllSubs(xapp: nat) returns (subs: seq<Entry>)
      requires Valid()
      ensures AllSubs(model.right, xapp, subs)
    {
      hide TotalOrder, Bijective;
      subs := [];
      ghost var ks: seq<XKey> := [];
      var it := FindFrom(0, xapp);
      assert Collected(right.items, it, xapp, ks, subs);
      assert Ascending(XKeyBefore, right.items);
      hide Collected, Ascending, AllSubs, SubKeys;
      while it < |right.items|
        invariant 0 <= it <= |right.items|
        invariant it < |right.items| ==> right.items[it].0.xapp == xapp
        invariant Collected(right.items, it, xapp, ks, subs)
        decreases |right.items| - it
      {
        CollectedHit(right.items, it, xapp, ks, subs);
        var next := it + 1;
        if right.items[it].1.kind == Subscription {
          subs := subs + [right.items[it].1];
          ks := ks + [right.items[it].0];
        }
        it := FindFrom(next, xapp);
        CollectedSkip(right.items, next, it, xapp, ks, subs);
      }
      CollectedAll(right.items, model.right, xapp, ks, subs);
    }
  }

  /** ks and subs are the keys and values of the subscriptions of one xApp among the first it
      entries of a tree. */
  ghost predicate Collected(t: seq<(XKey, Entry)>, it: nat, xapp: nat, ks: seq<XKey>, subs: seq<Entry>)
    requires it <= |t|
  {
    && |ks| == |subs|
    && (forall i :: 0 <= i < |ks| ==> (ks[i], subs[i]) in t[..it] && ks[i].xapp == xapp && subs[i].kind == Subscription)
    && (forall i, j :: 0 <= i < j < |ks| ==> Precedes(ks[i], ks[j]))
    && (forall j :: 0 <= j < it && t[j].0.xapp == xapp && t[j].1.kind == Subscription ==> t[j].0 in ks)
  }

  lemma CollectedHit(t: seq<(XKey, Entry)>, it: nat, xapp: nat, ks: seq<XKey>, subs: seq<Entry>)
    requires Ascending(XKeyBefore, t) && it < |t| && t[it].0.xapp == xapp && Collected(t, it, xapp, ks, subs)
    ensures t[it].1.kind == Subscription ==> Collected(t, it + 1, xapp, ks + [t[it].0], subs + [t[it].1])
    ensures t[it].1.kind != Subscription ==> Collected(t, it + 1, xapp, ks, subs)
  {
    assert t[..it + 1] == t[..it] + [t[it]];
  }

  lemma CollectedSkip(t: seq<(XKey, Entry)>, it: nat, to: nat, xapp: nat, ks: seq<XKey>, subs: seq<Entry>)
    requires it <= to <= |t| && Collected(t, it, xapp, ks, subs)
    requires forall j :: it <= j < to ==> t[j].0.xapp != xapp
    ensures Collected(t, to, xapp, ks, subs)
  {
    assert t[..it] <= t[..to];
  }

  lemma CollectedAll(t: seq<(XKey, Entry)>, right: map<XKey, Entry>, xapp: nat, ks: seq<XKey>, subs: seq<Entry>)
    requires Lists(XKeyBefore, t, right) && Collected(t, |t|, xapp, ks, subs)
    ensures AllSubs(right, xapp, subs)
  {
    assert t[..|t|] == t;
    forall x | x in right && x.xapp == xapp && right[x].kind == Subscription ensures x in ks {
      assert Keyed(t, x);
    }
    assert SubKeys(right, xapp, ks);
    assert subs == seq(|ks|, i requires 0 <= i < |ks| => right[ks[i]]);
  }

  lemma NoneUnder(t: seq<(XKey, Entry)>, right: map<XKey, Entry>, id: RicId)
    requires Lists(XKeyBefore, t, right) && forall j :: 0 <= j < |t| ==> t[j].0.id != id
    ensures forall z: nat :: XKey(z, id) !in right
  {
    forall z: nat ensures XKey(z, id) !in right {
      if XKey(z, id) in right {
        ListedAt(t, right, XKey(z, id));
      }
    }
  }

  lemma ListedAt(t: seq<(XKey, Entry)>, right: map<XKey, Entry>, x: XKey)
    requires Lists(XKeyBefore, t, right) && x in right
    ensures exists j :: 0 <= j < |t| && t[j].0 == x
  {
    assert Keyed(t, x);
  }

  /** Among keys with one RIC id, tree order is the order of the xApp ids. */
  lemma FirstInOrder(t: seq<(XKey, Entry)>, right: map<XKey, Entry>, i: nat, id: RicId)
    requires Lists(XKeyBefore, t, right) && i < |t| && t[i].0.id == id
    requires forall j :: 0 <= j < i ==> t[j].0.id != id
    ensures FirstMatch(right, id, t[i].0) && right[t[i].0] == t[i].1
  {
    forall z: nat | XKey(z, id) in right ensures t[i].0.xapp <= z {
      assert Keyed(t, XKey(z, id));
      var j :| 0 <= j < |t| && t[j].0 == XKey(z, id);
      if j != i {
        assert XKeyBefore(t[i].0, t[j].0);
      }
    }
  }
}
