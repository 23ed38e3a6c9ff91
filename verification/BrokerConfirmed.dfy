/** What an xApp may delete: the subscriptions whose response it received, until it asks for their delete. */
module BrokerConfirmed {
  import opened RicIds
  import opened IdMaps
  import opened Broker
  import opened BrokerInv
  import opened BrokerSafety
  import opened BrokerTheorems
  import opened BrokerHistory

  /** The response to the subscription that xApp x made under id was sent to it. */
  ghost predicate Responded(s: Sys, x: nat, id: RicId) {
    x in s.addr && exists d :: d in s.log && d.to == s.addr[x] && d.m == Answer(Key(SubEv, id))
  }

  ghost predicate ConfirmedInv(s: Sys, deletes: set<XKey>) {
    && (forall x, id :: x in s.xapps ==> (id in s.xapps[x].confirmed <==> Responded(s, x, id) && XKey(x, id) !in deletes))
    && (forall a <- deletes :: a.xapp in s.xapps && Responded(s, a.xapp, a.id))
  }

  /** No xApp comes, no message goes to one, and none may delete more or less. */
  ghost predicate SameGrants(s: Sys, s': Sys) {
    && s'.addr == s.addr && s'.log == s.log && s'.xapps.Keys == s.xapps.Keys
    && (forall x <- s.xapps :: s'.xapps[x].confirmed == s.xapps[x].confirmed)
  }

  lemma SameConfirmed(s: Sys, s': Sys, deletes: set<XKey>)
    requires ConfirmedInv(s, deletes) && SameGrants(s, s')
    ensures ConfirmedInv(s', deletes)
  {
    forall x, id ensures Responded(s', x, id) <==> Responded(s, x, id) {}
  }

  lemma LogIsAddressed(s: Sys)
    requires LogInv(s)
    ensures forall d <- s.log :: d.to in s.addr.Values
  {
    forall d <- s.log ensures d.to in s.addr.Values {
      assert Correct(s.origin, s.addr, d);
    }
  }

  lemma ConnectConfirmed(s: Sys, a: Addr, s': Sys, deletes: set<XKey>)
    requires ConfirmedInv(s, deletes) && AddrInv(s) && LogInv(s) && DoConnect(s, a) == Next(s') && InBudget(s')
    ensures ConfirmedInv(s', deletes)
  {
    LogIsAddressed(s);
    hide LogInv;
    assert s.nextXapp !in s.xapps;
    forall x, id | x in s.xapps ensures Responded(s', x, id) <==> Responded(s, x, id) {}
    forall id ensures !Responded(s', s.nextXapp, id) {}
  }

  lemma AskDeleteConfirmed(s: Sys, x: nat, id: RicId, s': Sys, deletes: set<XKey>)
    requires ConfirmedInv(s, deletes) && DoAskDelete(s, x, id) == Next(s')
    ensures ConfirmedInv(s', deletes + {XKey(x, id)})
  {
    forall y, i ensures Responded(s', y, i) <==> Responded(s, y, i) {}
    hide Responded;
  }

  /** A message goes to xApp x, which may delete more only if it is the response to a subscription. */
  lemma ReplyConfirmed(s: Sys, x: nat, d: Delivery, s': Sys, deletes: set<XKey>)
    requires ConfirmedInv(s, deletes) && AddrInv(s) && x in s.xapps && NoRepeats(s') && d.to == s.addr[x]
    requires s'.addr == s.addr && s'.log == s.log + [d] && s'.xapps.Keys == s.xapps.Keys
    requires forall y <- s.xapps :: s'.xapps[y].confirmed ==
               if y == x && d.m.Answer? && d.m.key.ev.SubEv? then s.xapps[y].confirmed + {d.m.key.id} else s.xapps[y].confirmed
    ensures ConfirmedInv(s', deletes)
  {
    forall y, id | y in s.xapps
      ensures Responded(s', y, id) <==> Responded(s, y, id) || (y == x && d.m == Answer(Key(SubEv, id)))
    {
      if y == x && d.m == Answer(Key(SubEv, id)) {
        assert d in s'.log;
      }
    }
    if d.m.Answer? {
      forall i | 0 <= i < |s.log| ensures s.log[i].to != s.addr[x] || s.log[i].m != d.m {
        assert s'.log[i] == s.log[i] && s'.log[|s.log|] == d;
      }
    }
  }

  lemma RegisterGrants(s: Sys, s': Sys)
    requires DoWork(s) == Next(s') && LockHeld(s.job)
    ensures SameGrants(s, s')
  {
    hide Draw, Overwrite16, Add, EvOf;
  }

  lemma DeleteGrants(s: Sys, s': Sys)
    requires DoWork(s) == Next(s') && !LockHeld(s.job)
    ensures SameGrants(s, s')
  {
  }

  /** Neither the iApp nor a worker sends anything to an xApp. */
  predicate Silent(s: Sys, a: Action) {
    match a
    case Connect(_) => false
    case AskDelete(_, _) => false
    case WorkerStep(n) => !(n in s.lines && s.lines[n].worker.Busy? && s.lines[n].worker.stage.Resolved?)
    case _ => true
  }

  lemma WorkerGrants(s: Sys, n: NodeId, s': Sys)
    requires Silent(s, WorkerStep(n)) && DoWorkerStep(s, n) == Next(s')
    ensures SameGrants(s, s')
  {
    hide Release, Resolve, Reply;
    var m := s.lines[n].worker.m;
    match s.lines[n].worker.stage
    case Received => ReleaseGrants(s, n, m);
    case Released => ResolveGrants(s, n, m);
    case Replied(_) =>
  }

  lemma ReleaseGrants(s: Sys, n: NodeId, m: Up)
    requires n in s.lines && Release(s, n, m).Next?
    ensures SameGrants(s, Release(s, n, m).s)
  {
  }

  lemma ResolveGrants(s: Sys, n: NodeId, m: Up)
    requires n in s.lines && Resolve(s, n, m).Next?
    ensures SameGrants(s, Resolve(s, n, m).s)
  {
  }

  lemma SilentGrants(s: Sys, a: Action, s': Sys)
    requires Silent(s, a) && Step(s, a) == Next(s')
    ensures SameGrants(s, s')
  {
    hide DoWork, DoWorkerStep;
    match a
    case Work =>
      if LockHeld(s.job) {
        RegisterGrants(s, s');
      } else {
        DeleteGrants(s, s');
      }
    case WorkerStep(n) => WorkerGrants(s, n, s');
    case _ =>
  }

  lemma ForwardConfirmed(s: Sys, n: NodeId, s': Sys, deletes: set<XKey>)
    requires ConfirmedInv(s, deletes) && AddrInv(s) && NoRepeats(s') && DoWorkerStep(s, n) == Next(s')
    requires s.lines[n].worker.Busy? && s.lines[n].worker.stage.Resolved?
    ensures ConfirmedInv(s', deletes)
  {
    var x := s.lines[n].worker.stage.x;
    assert s'.log == s.log + [s'.log[|s.log|]];
    hide ConfirmedInv, AddrInv, NoRepeats;
    ReplyConfirmed(s, x.xapp, s'.log[|s.log|], s', deletes);
  }

  lemma StepConfirmed(s: Sys, a: Action, s': Sys, deletes: set<XKey>)
    requires Inv(s) && ConfirmedInv(s, deletes) && NoRepeats(s') && Step(s, a) == Next(s') && InBudget(s')
    ensures ConfirmedInv(s', if a.AskDelete? then deletes + {XKey(a.xapp, a.id)} else deletes)
  {
    hide OriginInv, IdsInv, LinesInv, PendInv, KindInv, JobInv, AddrInv, QueueInv, AskInv, LogInv, ConfirmedInv, NoRepeats, DoWorkerStep, DoWork;
    match a
    case Connect(addr) => ConnectConfirmed(s, addr, s', deletes);
    case AskDelete(x, id) => AskDeleteConfirmed(s, x, id, s', deletes);
    case WorkerStep(n) =>
      if Silent(s, a) {
        SilentGrants(s, a, s');
        SameConfirmed(s, s', deletes);
      } else {
        ForwardConfirmed(s, n, s', deletes);
      }
    case _ =>
      SilentGrants(s, a, s');
      SameConfirmed(s, s', deletes);
  }

  lemma InitConfirmed(nodes: set<NodeId>)
    ensures ConfirmedInv(InitState(nodes), {})
  {
  }

  lemma {:induction false} AllConfirmed(nodes: set<NodeId>, acts: seq<Action>, s: Sys)
    requires Run(nodes, acts) == Next(s) && InBudget(s)
    ensures ConfirmedInv(s, DeleteAsks(acts))
  {
    hide Step, Inv, ConfirmedInv, InBudget, NoRepeats;
    if acts == [] {
      InitConfirmed(nodes);
      assert DeleteAsks([]) == {};
    } else {
      var front, a := acts[..|acts| - 1], acts[|acts| - 1];
      var before := Run(nodes, front).s;
      CountersGrow(before, a, s);
      AllConfirmed(nodes, front, before);
      Reached(nodes, front, before);
      AnswersNeverRepeat(nodes, acts, s);
      LastAsks(acts);
      StepConfirmed(before, a, s, DeleteAsks(front));
    }
  }

  /** In every schedule, a connected xApp can ask for the delete of exactly the subscriptions whose response
      was sent to it and whose delete it has not asked for; asking queues that very delete. */
  lemma MayDeleteIff(nodes: set<NodeId>, acts: seq<Action>, s: Sys, x: nat, id: RicId)
    requires Run(nodes, acts) == Next(s) && InBudget(s) && x in s.xapps && x !in Leaves(acts)
    ensures Step(s, AskDelete(x, id)).Next? <==> Responded(s, x, id) && XKey(x, id) !in DeleteAsks(acts)
    ensures Step(s, AskDelete(x, id)).Next? ==> Step(s, AskDelete(x, id)).s.xapps[x].out == s.xapps[x].out + [Delete(id)]
  {
    AllConfirmed(nodes, acts, s);
    LeftIff(nodes, acts, s);
    hide Run, InBudget, Leaves, DeleteAsks, Responded;
  }
}
