/** What holds of every schedule of the broker. */
module BrokerSafety {
  import opened RicIds
  import opened IdMaps
  import opened Broker
  import opened BrokerInv
  import opened BrokerSteps
  import opened BrokerWork
  import opened BrokerWorkers
  import opened BrokerClean
  import opened BrokerGone

  // ----- one step -----

  lemma InitLines(nodes: set<NodeId>)
    ensures LinesInv(InitState(nodes))
  {
    var s := InitState(nodes);
    forall n <- s.lines ensures LineInv(s.origin, s.ids.left, s.deleted, Registering(s.job), n, s.lines[n]) {
      assert Flow(s.lines[n]) == [];
    }
  }

  lemma InitPending(nodes: set<NodeId>)
    ensures PendInv(InitState(nodes))
  {
  }

  lemma InitTable(nodes: set<NodeId>)
    ensures OriginInv(InitState(nodes)) && IdsInv(InitState(nodes)) && KindInv(InitState(nodes)) && JobInv(InitState(nodes))
  {
  }

  lemma InitXapps(nodes: set<NodeId>)
    ensures AddrInv(InitState(nodes)) && QueueInv(InitState(nodes)) && AskInv(InitState(nodes)) && LogInv(InitState(nodes))
  {
  }

  lemma InitClean(nodes: set<NodeId>)
    ensures CleanInv(InitState(nodes)) && GoneInv(InitState(nodes))
  {
  }

  lemma InitHolds(nodes: set<NodeId>)
    ensures Inv(InitState(nodes)) && CleanInv(InitState(nodes)) && GoneInv(InitState(nodes))
  {
    InitLines(nodes);
    InitPending(nodes);
    InitTable(nodes);
    InitXapps(nodes);
    InitClean(nodes);
    hide InitState, OriginInv, IdsInv, LinesInv, PendInv, KindInv, JobInv, AddrInv, QueueInv, AskInv, LogInv, CleanInv, GoneInv;
  }

  lemma WorkerKeeps(s: Sys, n: NodeId, s': Sys)
    requires Inv(s) && DoWorkerStep(s, n) == Next(s')
    ensures Inv(s') && (CleanInv(s) ==> CleanInv(s'))
  {
    hide OriginInv, IdsInv, LinesInv, PendInv, KindInv, JobInv, AddrInv, QueueInv, AskInv, LogInv, CleanInv;
    LineIsOk(s, n);
    var l := s.lines[n];
    match l.worker.stage
    case Received =>
      ReleaseKeeps(s, n, s');
      if CleanInv(s) { WorkerStays(s, n, s'); }
    case Released => ResolveStep(s, n, s');
    case Resolved(x) => ReplyStep(s, n, s');
    case Replied(x) =>
      RemoveKeeps(s, n, s');
      if CleanInv(s) { RemoveClean(s, n, s'); }
  }

  lemma WorkerStays(s: Sys, n: NodeId, s': Sys)
    requires IdsInv(s) && CleanInv(s) && n in s.lines && s.lines[n].worker.Busy? && !s.lines[n].worker.stage.Replied?
    requires n in s'.lines && (s'.lines[n].worker.Busy? ==> s'.lines[n].worker.m == s.lines[n].worker.m)
    requires s' == SetWorker(s, n, s'.lines[n].worker).(pending := s'.pending)
    ensures CleanInv(s')
  {
    WorkerFlows(s.lines[n], s'.lines[n].worker);
    LineClean(s, n, s');
  }

  lemma ResolveStep(s: Sys, n: NodeId, s': Sys)
    requires Inv(s) && LineOk(s, n) && s.lines[n].worker.Busy? && s.lines[n].worker.stage.Released? && DoWorkerStep(s, n) == Next(s')
    ensures Inv(s') && (CleanInv(s) ==> CleanInv(s'))
  {
    hide OriginInv, IdsInv, LinesInv, PendInv, KindInv, JobInv, AddrInv, QueueInv, AskInv, LogInv, CleanInv;
    if IdOf(s.lines[n].worker.m).req in s.ids.left {
      ResolveKeeps(s, n, s');
    } else {
      DropKeeps(s, n, s');
    }
    if CleanInv(s) { WorkerStays(s, n, s'); }
  }

  lemma ReplyStep(s: Sys, n: NodeId, s': Sys)
    requires Inv(s) && LineOk(s, n) && s.lines[n].worker.Busy? && s.lines[n].worker.stage.Resolved? && DoWorkerStep(s, n) == Next(s')
    ensures Inv(s') && (CleanInv(s) ==> CleanInv(s'))
  {
    hide OriginInv, IdsInv, LinesInv, PendInv, KindInv, JobInv, AddrInv, QueueInv, AskInv, LogInv, CleanInv;
    var m, x := s.lines[n].worker.m, s.lines[n].worker.stage.x;
    var w := if m.Answer? && m.key.ev != SubEv then Busy(m, Replied(x)) else Free;
    var s1 := SetWorker(s, n, w).(log := s.log + [Delivery(s.addr[x.xapp], WithId(m, x.id), m)]);
    assert Replies(s, n, s1);
    ReplyKeeps(s, n, s1);
    assert s1.xapps == s.xapps;
    assert s' == SetXapp(s1, x.xapp, s'.xapps[x.xapp]);
    QueueKeeps(s1, x.xapp, s'.xapps[x.xapp], []);
    if CleanInv(s) {
      ConfirmClean(s, n, s1, if m == Answer(Key(SubEv, IdOf(m))) then s' else s1);
      assert s.xapps[x.xapp := s.xapps[x.xapp]] == s.xapps;
    }
  }

  lemma TakeStep(s: Sys, a: Action, s': Sys)
    requires Inv(s) && (a.TakeRequest? || a.TakeDelete? || a.TakeBye?) && Step(s, a) == Next(s')
    ensures Inv(s') && (CleanInv(s) && CleanStep(s, a) ==> CleanInv(s'))
  {
    hide OriginInv, IdsInv, LinesInv, PendInv, KindInv, JobInv, AddrInv, QueueInv, AskInv, LogInv, CleanInv;
    match a
    case TakeRequest(x) =>
      TakeKeeps(s, x, s');
      if CleanInv(s) { TakeRequestClean(s, x, s'); }
    case TakeDelete(x, found) =>
      FoundIsDoable(s, s.xapps[x].out[0].id, found.value);
      TakeKeeps(s, x, s');
      if CleanInv(s) && CleanStep(s, a) { TakeDeleteClean(s, x, found, s'); }
    case TakeBye(x, subs) =>
      AllSubsAreDoable(s, x, subs);
      TakeKeeps(s, x, s');
      if CleanInv(s) { TakeByeClean(s, x, subs, s'); }
  }

  lemma XappStep(s: Sys, a: Action, s': Sys)
    requires Inv(s) && (a.Connect? || a.Ask? || a.AskDelete? || a.Leave?) && Step(s, a) == Next(s') && InBudget(s')
    ensures Inv(s') && (CleanInv(s) ==> CleanInv(s'))
  {
    hide OriginInv, IdsInv, LinesInv, PendInv, KindInv, JobInv, AddrInv, QueueInv, AskInv, LogInv, CleanInv;
    match a
    case Connect(addr) =>
      ConnectKeeps(s, addr, s');
      if CleanInv(s) { ConnectClean(s, addr, s'); }
    case Ask(x, node, func, kind) =>
      AskKeeps(s, x, node, func, kind, s');
      if CleanInv(s) { AskClean(s, x, node, func, kind, s'); }
    case AskDelete(x, id) =>
      QueueKeeps(s, x, s'.xapps[x], [Delete(id)]);
      if CleanInv(s) { AskDeleteClean(s, x, id, s'); }
    case Leave(x) =>
      QueueKeeps(s, x, s'.xapps[x], [Bye]);
      if CleanInv(s) { LeaveClean(s, x, s'); }
  }

  /** Every step within the budget keeps the invariant; a clean one keeps deletes resolvable. */
  lemma StepKeeps(s: Sys, a: Action, s': Sys)
    requires Inv(s) && Step(s, a) == Next(s') && InBudget(s')
    ensures Inv(s') && (CleanInv(s) && CleanStep(s, a) ==> CleanInv(s'))
  {
    hide OriginInv, IdsInv, LinesInv, PendInv, KindInv, JobInv, AddrInv, QueueInv, AskInv, LogInv, CleanInv;
    match a
    case Connect(_) => XappStep(s, a, s');
    case Ask(_, _, _, _) => XappStep(s, a, s');
    case AskDelete(_, _) => XappStep(s, a, s');
    case Leave(_) => XappStep(s, a, s');
    case TakeRequest(_) => TakeStep(s, a, s');
    case TakeDelete(_, _) => TakeStep(s, a, s');
    case TakeBye(_, _) => TakeStep(s, a, s');
    case Work =>
      WorkKeeps(s, s');
      if CleanInv(s) { WorkClean(s, s'); }
    case AgentTake(n) =>
      AgentTakeKeeps(s, n, s');
      if CleanInv(s) { AgentClean(s, n, s'); }
    case Indicate(n, id, report) =>
      IndicateKeeps(s, n, id, report, s');
      if CleanInv(s) { IndicateClean(s, n, id, report, s'); }
    case WorkerTake(n) =>
      WorkerTakeKeeps(s, n, s');
      if CleanInv(s) { AgentClean(s, n, s'); }
    case WorkerStep(n) => WorkerKeeps(s, n, s');
  }

  // ----- one step does not fail -----

  lemma ConnectSucceeds(s: Sys, a: Addr)
    requires AddrInv(s)
    ensures !DoConnect(s, a).Fails?
  {
  }

  lemma TakeRequestSucceeds(s: Sys, x: nat)
    requires AddrInv(s) && QueueInv(s)
    ensures !DoTakeRequest(s, x).Fails?
  {
    if CanTake(s, x, (m: XMsg) => m.Request?) {
      assert OutInv(s, x, s.xapps[x]);
      assert Queued(s, x, s.xapps[x].next, s.xapps[x].out[0]);
    }
  }

  lemma TakeDeleteSucceeds(s: Sys, x: nat, found: Option<Entry>)
    requires IdsInv(s) && CleanInv(s) && CleanStep(s, TakeDelete(x, found))
    ensures !DoTakeDelete(s, x, found).Fails?
  {
    if !DoTakeDelete(s, x, found).Blocked? {
      CleanDeleteFinds(s, x, found);
    }
  }

  lemma WorkerSucceeds(s: Sys, n: NodeId)
    requires Inv(s)
    ensures !DoWorkerStep(s, n).Fails?
  {
    hide OriginInv, IdsInv, LinesInv, PendInv, KindInv, JobInv, AddrInv, QueueInv, AskInv, LogInv;
    if n in s.lines && s.lines[n].worker.Busy? {
      LineIsOk(s, n);
      match s.lines[n].worker.stage
      case Received => ReleaseSucceeds(s, n);
      case Released => if !LockHeld(s.job) { ResolveSucceeds(s, n); }
      case Resolved(_) => ReplySucceeds(s, n);
      case Replied(_) => RemovedId(s, n);
    }
  }

  /** Nothing fails but a delete that meets a foreign entry. */
  lemma OnlyForeignDeletesFail(s: Sys, a: Action)
    requires Inv(s) && Step(s, a).Fails?
    ensures a.TakeDelete? && (CleanInv(s) ==> !CleanStep(s, a))
  {
    hide OriginInv, IdsInv, LinesInv, PendInv, KindInv, JobInv, AddrInv, QueueInv, AskInv, LogInv, CleanInv, CleanStep;
    match a
    case Connect(addr) => ConnectSucceeds(s, addr); assert false;
    case TakeRequest(x) => TakeRequestSucceeds(s, x); assert false;
    case TakeDelete(x, found) =>
      if CleanInv(s) && CleanStep(s, a) {
        TakeDeleteSucceeds(s, x, found);
        assert false;
      }
    case Work => WorkSucceeds(s); assert false;
    case WorkerStep(n) => WorkerSucceeds(s, n); assert false;
    case _ => assert false;
  }

  // ----- schedules -----

  lemma CountersGrow(s: Sys, a: Action, s': Sys)
    requires Step(s, a) == Next(s')
    ensures InBudget(s') ==> InBudget(s)
  {
    hide DoWorkerStep, DoWork;
    match a
    case WorkerStep(n) => WorkerSpares(s, n, s');
    case Work => WorkCounts(s, s');
    case _ =>
  }

  lemma WorkCounts(s: Sys, s': Sys)
    requires DoWork(s) == Next(s')
    ensures s.reqId <= s'.reqId && s.nextXapp == s'.nextXapp
  {
  }

  /** Whenever the iApp looks up a delete, no xApp with a smaller id has an entry under its RIC id. */
  ghost predicate Clean(nodes: set<NodeId>, acts: seq<Action>) {
    acts != [] ==>
      var front := acts[..|acts| - 1];
      Clean(nodes, front) && (Run(nodes, front).Next? ==> CleanStep(Run(nodes, front).s, acts[|acts| - 1]))
  }

  /** The invariant holds in every state a schedule reaches within the budget. */
  lemma {:induction false} Reached(nodes: set<NodeId>, acts: seq<Action>, s: Sys)
    requires Run(nodes, acts) == Next(s) && InBudget(s)
    ensures Inv(s) && GoneInv(s) && (Clean(nodes, acts) ==> CleanInv(s))
  {
    hide Inv, CleanInv, GoneInv, CleanStep, Step, InBudget;
    if acts == [] {
      InitHolds(nodes);
    } else {
      var front, a := acts[..|acts| - 1], acts[|acts| - 1];
      var before := Run(nodes, front).s;
      CountersGrow(before, a, s);
      Reached(nodes, front, before);
      StepKeeps(before, a, s);
      StepGone(before, a, s);
    }
  }
}
