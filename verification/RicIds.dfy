/** Identifiers of the E2AP procedures and the orders the containers are keyed with.

    A comparator returns 0 for equal arguments and otherwise 1 or -1, and a tree descends to the left on
    1. All comparators modelled here return 1 when the first argument is the smaller one. (The one on the
    bare request id, in map_ric_id.c, has the opposite sign; nothing depends on the direction of that tree.) */
module RicIds {

  /** RIC request id, RIC instance id and RAN function id of one request. */
  datatype RicId = RicId(req: nat, inst: nat, func: nat)

  /** A request as the xApp that made it names it. */
  datatype XKey = XKey(xapp: nat, id: RicId)

  /** Kind of a pending event of the near-RT RIC. */
  datatype Ev = SubEv | DelEv | CtrlEv

  /** A pending event of the near-RT RIC; also what an answer is matched with. */
  datatype Key = Key(ev: Ev, id: RicId)

  function CmpNat(a: nat, b: nat): int {
    if a < b then 1 else if a > b then -1 else 0
  }

  function CmpRicId(a: RicId, b: RicId): int {
    if a.func != b.func then CmpNat(a.func, b.func)
    else if a.inst != b.inst then CmpNat(a.inst, b.inst)
    else CmpNat(a.req, b.req)
  }

  function CmpXKey(a: XKey, b: XKey): int {
    if a.xapp != b.xapp then CmpNat(a.xapp, b.xapp) else CmpRicId(a.id, b.id)
  }

  /** Rank of an event kind in the enumeration of pending events. */
  function Rank(ev: Ev): nat {
    match ev case SubEv => 1 case DelEv => 2 case CtrlEv => 3
  }

  function CmpKey(a: Key, b: Key): int {
    if a.ev != b.ev then CmpNat(Rank(a.ev), Rank(b.ev)) else CmpRicId(a.id, b.id)
  }

  predicate EqXappId(a: nat, b: nat) {
    a == b
  }

  /** Equality on xApp keys as the program decides it: the first test compares the xApp id of the
      first key with itself. */
  predicate EqXKey(a: XKey, b: XKey) {
    EqXappId(a.xapp, a.xapp) && a.id == b.id
  }

  /** The tree order on xApp keys is a strict total order. */
  lemma CmpXKeyIsOrder(a: XKey, b: XKey, c: XKey)
    ensures CmpXKey(a, b) == 0 <==> a == b
    ensures CmpXKey(a, b) == -CmpXKey(b, a)
    ensures CmpXKey(a, b) == 1 && CmpXKey(b, c) == 1 ==> CmpXKey(a, c) == 1
  {
  }

  /** a comes before b: by xApp, then RAN function, instance and request, each ascending. */
  predicate Precedes(a: XKey, b: XKey) {
    || a.xapp < b.xapp
    || (a.xapp == b.xapp && a.id.func < b.id.func)
    || (a.xapp == b.xapp && a.id.func == b.id.func && a.id.inst < b.id.inst)
    || (a.xapp == b.xapp && a.id.func == b.id.func && a.id.inst == b.id.inst && a.id.req < b.id.req)
  }

  /** The comparator reports 1 exactly on keys in ascending order. */
  lemma CmpXKeyAscendsIff(a: XKey, b: XKey)
    ensures CmpXKey(a, b) == 1 <==> Precedes(a, b)
    ensures CmpXKey(a, b) == -1 <==> Precedes(b, a)
  {
  }

  /** The order on pending events of the near-RT RIC tells any two of them apart. */
  lemma CmpKeyIsOrder(a: Key, b: Key, c: Key)
    ensures CmpKey(a, b) == 0 <==> a == b
    ensures CmpKey(a, b) == -CmpKey(b, a)
    ensures CmpKey(a, b) == 1 && CmpKey(b, c) == 1 ==> CmpKey(a, c) == 1
  {
  }

  /** The equality used for lookup and the order used for insertion agree exactly on the pairs that
      belong to one xApp or carry different RIC ids. */
  lemma EqXKeyAgreesWithOrderIff(a: XKey, b: XKey)
    ensures (EqXKey(a, b) <==> CmpXKey(a, b) == 0) <==> (a.xapp == b.xapp || a.id != b.id)
  {
    CmpXKeyIsOrder(a, b, b);
  }
}
