/** File descriptors of the agent: who owns what epoll watches, and how an event is classified
    (e2_agent.c, msg_handler_agent.c, not_handler_agent.c). */
module AgentLoop {
  import opened RicIds
  import opened Bimaps

  type Fd = nat

  /** Kinds of pending events; the agent arms only the first. */
  datatype PendingEvent =
    | SetupRequestPending | SubscriptionRequestPending | SubscriptionDeleteRequestPending | ControlRequestPending
    | E42SetupRequestPending

  datatype Event = Network | Aperiodic | Indication(id: RicId) | Pending(ev: PendingEvent)

  // ----- registered indications -----

  /** The two trees of the indication map. Aperiodic indications have no descriptor and are all filed
      under 0, so the tree of descriptors can hold that key many times. */
  datatype IndMap = IndMap(left: set<(Fd, RicId)>, right: map<RicId, Fd>)

  ghost predicate Matching(m: IndMap) {
    && (forall p <- m.left :: p.1 in m.right && m.right[p.1] == p.0)
    && (forall id <- m.right :: (m.right[id], id) in m.left)
    && (forall i, j :: i in m.right && j in m.right && m.right[i] == m.right[j] && m.right[i] != 0 ==> i == j)
  }

  function Fds(m: IndMap): set<Fd> {
    set id | id in m.right && m.right[id] != 0 :: m.right[id]
  }

  /** The two trees file the indication id under the descriptor fd. */
  predicate Filed(m: IndMap, id: RicId, fd: Fd) {
    id in m.right && m.right[id] == fd && (fd, id) in m.left
  }

  function Insert(m: IndMap, fd: Fd, id: RicId): IndMap {
    IndMap(m.left + {(fd, id)}, m.right[id := fd])
  }

  function Extract(m: IndMap, id: RicId): IndMap
    requires id in m.right
  {
    IndMap(m.left - {(m.right[id], id)}, m.right - {id})
  }

  /** The nodes of the left tree that extracting id may come upon: those filed under its descriptor. */
  function Picks(m: IndMap, id: RicId): set<(Fd, RicId)>
    requires id in m.right
  {
    set p | p in m.left && p.0 == m.right[id]
  }

  /** The indication is periodic, or the only aperiodic one. */
  predicate Unshared(m: IndMap, id: RicId)
    requires id in m.right
  {
    m.right[id] != 0 || forall j <- m.right :: m.right[j] == 0 ==> j == id
  }

  /** Extraction is sure to take out the right node exactly when the indication is periodic or the only
      aperiodic one. */
  lemma ExtractSafeIff(m: IndMap, id: RicId)
    requires Matching(m) && id in m.right
    ensures (forall p <- Picks(m, id) :: p.1 == id) <==> Unshared(m, id)
  {
    if j :| j in m.right && m.right[id] == 0 && m.right[j] == 0 && j != id {
      assert (0, j) in Picks(m, id);
    }
  }

  lemma InsertMatches(m: IndMap, fd: Fd, id: RicId)
    requires Matching(m) && id !in m.right && (fd == 0 || fd !in Fds(m))
    ensures Matching(Insert(m, fd, id)) && Fds(Insert(m, fd, id)) == Fds(m) + if fd == 0 then {} else {fd}
  {
    var n := Insert(m, fd, id);
    forall i, j | i in n.right && j in n.right && n.right[i] == n.right[j] && n.right[i] != 0 ensures i == j {
      assert i in m.right && i != id ==> n.right[i] in Fds(m);
      assert j in m.right && j != id ==> n.right[j] in Fds(m);
    }
    assert n.right[id] == fd;
    assert forall i :: i in m.right ==> n.right[i] == m.right[i];
    forall f | f in Fds(m) + (if fd == 0 then {} else {fd}) ensures f in Fds(n) {
      if f in Fds(m) {
        var i :| i in m.right && m.right[i] != 0 && m.right[i] == f;
        assert n.right[i] == f;
      }
    }
  }

  /** Registering an indication keeps the two trees matching exactly when its id is new, or filed under 0
      both times. */
  lemma InsertMatchesIff(m: IndMap, fd: Fd, id: RicId)
    requires Matching(m) && (fd == 0 || fd !in Fds(m))
    ensures Matching(Insert(m, fd, id)) <==> id !in m.right || (fd == 0 && m.right[id] == 0)
  {
    if id !in m.right {
      InsertMatches(m, fd, id);
    } else {
      assert m.right[id] != 0 ==> m.right[id] in Fds(m);
      assert (m.right[id], id) in Insert(m, fd, id).left;
      if fd == 0 && m.right[id] == 0 {
        assert Insert(m, fd, id) == m;
      }
    }
  }

  lemma ExtractMatches(m: IndMap, id: RicId)
    requires Matching(m) && id in m.right
    ensures Matching(Extract(m, id)) && Fds(Extract(m, id)) == Fds(m) - if m.right[id] == 0 then {} else {m.right[id]}
  {
    var n := Extract(m, id);
    assert forall i :: i in m.right && i != id ==> i in n.right && n.right[i] == m.right[i];
    forall f | f in Fds(m) && f != m.right[id] ensures f in Fds(n) {
      var i :| i in m.right && m.right[i] != 0 && m.right[i] == f;
      assert n.right[i] == f;
    }
  }

  // ----- ownership -----

  /** What epoll watches is the endpoint, the pipe, the pending timers and the indication timers, and no
      descriptor has two owners. */
  ghost predicate Owned(epoll: set<Fd>, ep: Fd, pipe: Fd, pending: set<Fd>, ind: set<Fd>) {
    && epoll == {ep, pipe} + pending + ind && 0 !in epoll
    && ep != pipe && ep !in pending && ep !in ind && pipe !in pending && pipe !in ind && pending !! ind
  }

  /** The owner that an event on fd belongs to. */
  ghost predicate Belongs(e: Event, fd: Fd, ep: Fd, pipe: Fd, pending: map<Fd, PendingEvent>, m: IndMap) {
    match e
    case Network => fd == ep
    case Aperiodic => fd == pipe
    case Indication(id) => fd != 0 && id in m.right && m.right[id] == fd
    case Pending(ev) => fd in pending && pending[fd] == ev
  }

  /** Classification is total and unambiguous. */
  lemma OneOwner(epoll: set<Fd>, ep: Fd, pipe: Fd, pending: map<Fd, PendingEvent>, m: IndMap, fd: Fd)
    requires Matching(m) && Owned(epoll, ep, pipe, pending.Keys, Fds(m))
    ensures fd in epoll <==> exists e :: Belongs(e, fd, ep, pipe, pending, m)
    ensures forall e, e' :: Belongs(e, fd, ep, pipe, pending, m) && Belongs(e', fd, ep, pipe, pending, m) ==> e == e'
  {
    if fd == ep {
      assert Belongs(Network, fd, ep, pipe, pending, m);
    } else if fd == pipe {
      assert Belongs(Aperiodic, fd, ep, pipe, pending, m);
    } else if fd in pending {
      assert Belongs(Pending(pending[fd]), fd, ep, pipe, pending, m);
    } else if fd in Fds(m) {
      var id :| id in m.right && m.right[id] != 0 && m.right[id] == fd;
      assert Belongs(Indication(id), fd, ep, pipe, pending, m);
    }
    assert forall id :: id in m.right && m.right[id] != 0 ==> m.right[id] in Fds(m);
  }

  /** Everything the agent holds on to; at most one setup request is pending, and nothing else. */
  ghost predicate Held(epoll: set<Fd>, ep: Fd, pipe: Fd, pending: map<Fd, PendingEvent>, m: IndMap) {
    && Matching(m) && Owned(epoll, ep, pipe, pending.Keys, Fds(m))
    && (pending == map[] || exists fd :: pending == map[fd := SetupRequestPending])
  }

  lemma ArmHeld(epoll: set<Fd>, ep: Fd, pipe: Fd, m: IndMap, fd: Fd)
    requires Held(epoll, ep, pipe, map[], m) && fd > 0 && fd !in epoll
    ensures Held(epoll + {fd}, ep, pipe, map[fd := SetupRequestPending], m)
  {
    assert forall f <- Fds(m) :: f in epoll;
  }

  lemma StopHeld(epoll: set<Fd>, ep: Fd, pipe: Fd, fd: Fd, m: IndMap)
    requires Held(epoll, ep, pipe, map[fd := SetupRequestPending], m)
    ensures fd in epoll && fd > 0 && Held(epoll - {fd}, ep, pipe, map[], m)
  {
    var none: map<Fd, PendingEvent> := map[];
    assert map[fd := SetupRequestPending].Keys == {fd};
    assert epoll - {fd} == {ep, pipe} + none.Keys + Fds(m);
  }

  /** fd is 0 for an aperiodic indication, and the new timer of a periodic one. */
  lemma SubscribeHeld(epoll: set<Fd>, ep: Fd, pipe: Fd, pending: map<Fd, PendingEvent>, m: IndMap, id: RicId, fd: Fd)
    requires Held(epoll, ep, pipe, pending, m) && id !in m.right && fd !in epoll
    ensures Held(if fd == 0 then epoll else epoll + {fd}, ep, pipe, pending, Insert(m, fd, id))
  {
    assert forall f <- Fds(m) :: f in epoll;
    InsertMatches(m, fd, id);
    hide Matching, Fds, Insert;
    assert ep in epoll;
    assert forall f <- pending.Keys :: f in epoll;
    if fd == 0 {
      assert Fds(m) + {} == Fds(m);
    }
  }

  lemma DeleteHeld(epoll: set<Fd>, ep: Fd, pipe: Fd, pending: map<Fd, PendingEvent>, m: IndMap, id: RicId)
    requires Held(epoll, ep, pipe, pending, m) && id in m.right
    ensures Held(if m.right[id] == 0 then epoll else epoll - {m.right[id]}, ep, pipe, pending, Extract(m, id))
  {
    assert m.right[id] != 0 ==> m.right[id] in Fds(m);
    ExtractMatches(m, id);
    hide Matching, Fds, Extract;
    if m.right[id] == 0 {
      assert Fds(m) - {} == Fds(m);
    } else {
      assert epoll - {m.right[id]} == {ep, pipe} + pending.Keys + (Fds(m) - {m.right[id]});
    }
  }

  class Agent {
    const ep: Fd
    const pipe: Fd
    var epoll: set<Fd>
    const pending: Bimap<Fd, PendingEvent>
    var ind: IndMap
    /** Setup requests sent since the last response. */
    var transId: nat

    ghost predicate Valid()
      reads this, pending
    {
      pending.Valid() && Held(epoll, ep, pipe, pending.left, ind)
    }

    constructor (endpoint: Fd, pipeReadEnd: Fd)
      requires 0 < endpoint && 0 < pipeReadEnd && endpoint != pipeReadEnd
      ensures Valid() && fresh(pending) && pending.left == map[] && ind.right == map[]
      ensures ep == endpoint && pipe == pipeReadEnd && transId == 0
    {
      ep, pipe, transId := endpoint, pipeReadEnd, 0;
      epoll := {endpoint, pipeReadEnd};
      pending := new Bimap();
      ind := IndMap({}, map[]);
    }

    /** create_timer_ms_asio_agent: any descriptor that is not watched, so a closed one may come again. */
    method CreateTimer() returns (fd: Fd)
      modifies this`epoll
      ensures fd > 0 && fd !in old(epoll) && epoll == old(epoll) + {fd}
    {
      SomeFree({0} + epoll);
      fd :| fd !in {0} + epoll;
      epoll := epoll + {fd};
    }

    /** e2_start_agent: arms the timer and sends the first setup request. */
    method Start() returns (fd: Fd)
      requires Valid() && pending.left == map[]
      modifies this, pending
      ensures Valid() && ind == old(ind) && pending.left == map[fd := SetupRequestPending]
      ensures fd !in old(epoll) && epoll == old(epoll) + {fd} && transId == old(transId) + 1
    {
      transId := transId + 1;
      fd := ArmSetup();
    }

    /** The timer of the setup request fired: the request is sent again and stays pending. */
    method Resend(e: Event, fd: Fd)
      requires Valid() && fd in epoll && e.Pending? && Belongs(e, fd, ep, pipe, pending.left, ind)
      modifies this`transId
      ensures Valid() && transId == old(transId) + 1
      ensures e.ev == SetupRequestPending
    {
      assert e.ev == SetupRequestPending;
      transId := transId + 1;
    }

    /** notification_handle_ag: the connection is lost; the timer will send a new setup request. */
    method OnConnectionLost() returns (fd: Fd)
      requires Valid() && pending.left == map[]
      modifies this, pending
      ensures Valid() && ind == old(ind) && pending.left == map[fd := SetupRequestPending]
      ensures fd !in old(epoll) && epoll == old(epoll) + {fd} && transId == old(transId)
    {
      fd := ArmSetup();
    }

    /** Arms the timer of a setup request: at the start, and again when the connection is lost. */
    method ArmSetup() returns (fd: Fd)
      requires Valid() && pending.left == map[]
      modifies this, pending
      ensures Valid() && ind == old(ind) && pending.left == map[fd := SetupRequestPending]
      ensures fd !in old(epoll) && epoll == old(epoll) + {fd} && transId == old(transId)
    {
      assert forall ev <- pending.right :: pending.right[ev] in pending.left;
      ghost var before := epoll;
      hide Held, Inverse;
      fd := CreateTimer();
      ArmHeld(before, ep, pipe, ind, fd);
      pending.Insert(fd, SetupRequestPending);
    }

    /** A setup response: the timer goes. */
    method OnSetupResponse()
      requires Valid() && SetupRequestPending in pending.right && transId > 0
      modifies this, pending
      ensures Valid() && pending.left == map[] && ind == old(ind) && transId == 0
      ensures epoll == old(epoll) - {old(pending.right)[SetupRequestPending]}
    {
      ghost var f := pending.right[SetupRequestPending];
      assert pending.left == map[f := SetupRequestPending];
      StopHeld(epoll, ep, pipe, f, ind);
      hide Held, Inverse;
      var fd := pending.ExtractRight(SetupRequestPending);
      assert fd > 0;
      epoll := epoll - {fd};
      transId := 0;
      assert map[f := SetupRequestPending] - {f} == map[];
    }

    /** A subscription request: periodic ones get a timer, aperiodic ones are filed under 0. */
    method OnSubscription(id: RicId, periodic: bool) returns (fd: Fd)
      requires Valid() && id !in ind.right
      modifies this
      ensures Valid() && (fd == 0 <==> !periodic) && fd !in old(epoll)
      ensures ind.right == old(ind).right[id := fd] && ind.left == old(ind).left + {(fd, id)}
      ensures Filed(ind, id, fd) && forall i <- old(ind).right :: i != id ==> Filed(ind, i, old(ind).right[i])
      ensures epoll == if periodic then old(epoll) + {fd} else old(epoll)
    {
      assert 0 !in epoll;
      ghost var before := epoll;
      hide Held, Inverse;
      fd := 0;
      if periodic {
        fd := CreateTimer();
      }
      SubscribeHeld(before, ep, pipe, pending.left, ind, id, fd);
      ind := Insert(ind, fd, id);
    }

    /** A delete request: an unknown indication is left alone; the answer is sent either way. The left
        tree comes upon some node under the descriptor, which is the right one if the indication is
        periodic or the only aperiodic one. */
    method OnDelete(id: RicId, pick: (Fd, RicId)) returns (answered: bool)
      requires Valid() && (id in ind.right ==> pick in Picks(ind, id) && Unshared(ind, id))
      modifies this
      ensures Valid() && answered && id !in ind.right
      ensures ind.right == old(ind).right - {id} && (id !in old(ind).right ==> ind == old(ind))
      ensures id in old(ind).right ==> ind.left == old(ind).left - {(old(ind).right[id], id)}
      ensures forall i <- old(ind).right :: i != id ==> Filed(ind, i, old(ind).right[i])
      ensures epoll == if id in old(ind).right && old(ind).right[id] != 0 then old(epoll) - {old(ind).right[id]} else old(epoll)
    {
      if id in ind.right {
        ExtractSafeIff(ind, id);
        assert pick.1 == id;
        DeleteHeld(epoll, ep, pipe, pending.left, ind, id);
        var fd := ind.right[id];
        assert IndMap(ind.left - {pick}, ind.right - {id}) == Extract(ind, id);
        hide Held, Inverse;
        ind := IndMap(ind.left - {pick}, ind.right - {id});
        if fd != 0 {
          epoll := epoll - {fd};
        }
      }
      answered := true;
    }

    /** next_async_event_agent: endpoint, pipe, indications, pending events, in this order. */
    method NextEvent(fd: Fd) returns (e: Event)
      requires Valid() && fd in epoll
      ensures Belongs(e, fd, ep, pipe, pending.left, ind)
    {
      if fd == ep {
        return Network;
      }
      if fd == pipe {
        return Aperiodic;
      }
      if p :| p in ind.left && p.0 == fd {
        return Indication(p.1);
      }
      assert forall id <- ind.right :: (ind.right[id], id) in ind.left;
      assert fd in pending.left && |pending.left| == 1;
      return Pending(pending.left[fd]);
    }
  }

  /** Losing the connection may arm the timer exactly while no setup request is pending; a second entry
      would leave the two trees of pending events inconsistent. */
  lemma ArmSafeIff(left: map<Fd, PendingEvent>, right: map<PendingEvent, Fd>, fd: Fd)
    requires Inverse(left, right) && fd !in left
    ensures Inverse(left[fd := SetupRequestPending], right[SetupRequestPending := fd]) <==> SetupRequestPending !in right
  {
    InsertKeepsInverseIff(left, right, fd, SetupRequestPending);
  }
}
