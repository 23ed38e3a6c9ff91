/** The state of the broker against what the xApps did: who connected from where, asked for what, asked
    for which deletes, and left. All of it is read off the schedule. */
module BrokerHistory {
  import opened RicIds
  import opened IdMaps
  import opened Broker
  import opened BrokerInv
  import opened BrokerWork
  import opened BrokerClean
  import opened BrokerGone
  import opened BrokerSafety
  import opened BrokerTheorems

  // ----- the schedule -----

  /** The addresses that xApps connected from, in order. */
  function Connections(acts: seq<Action>): seq<Addr> {
    if acts == [] then []
    else
      var before, a := Connections(acts[..|acts| - 1]), acts[|acts| - 1];
      if a.Connect? then before + [a.a] else before
  }

  /** How many requests xApp x made. */
  function AskCount(acts: seq<Action>, x: nat): nat {
    if acts == [] then 0
    else
      var a := acts[|acts| - 1];
      AskCount(acts[..|acts| - 1], x) + if a.Ask? && a.xapp == x then 1 else 0
  }

  /** The requests made: an xApp numbers its own from 1. */
  function Asks(acts: seq<Action>): map<XKey, (NodeId, Kind)> {
    if acts == [] then map[]
    else
      var front, a := acts[..|acts| - 1], acts[|acts| - 1];
      if a.Ask? then Asks(front)[XKey(a.xapp, RicId(AskCount(front, a.xapp) + 1, 0, a.func)) := (a.node, a.kind)] else Asks(front)
  }

  /** The requests whose delete was asked for. */
  function DeleteAsks(acts: seq<Action>): set<XKey> {
    set a | a in acts && a.AskDelete? :: XKey(a.xapp, a.id)
  }

  function Leaves(acts: seq<Action>): set<nat> {
    set a | a in acts && a.Leave? :: a.xapp
  }

  // ----- connections and requests -----

  /** xApps are numbered in the order in which they connected, from FIRST_XAPP, and reached at the address
      they connected from; the requests known are those made. */
  ghost predicate AsScheduled(acts: seq<Action>, s: Sys) {
    && s.nextXapp == FIRST_XAPP + |Connections(acts)|
    && s.addr.Keys == s.xapps.Keys && (forall x :: x in s.xapps <==> FIRST_XAPP <= x < s.nextXapp)
    && (forall x <- s.addr :: s.addr[x] == Connections(acts)[x - FIRST_XAPP])
    && (forall x <- s.xapps :: s.xapps[x].next == AskCount(acts, x) + 1)
    && (forall x :: AskCount(acts, x) > 0 ==> x in s.xapps)
    && s.asked == Asks(acts)
  }

  lemma ConnectScheduled(acts: seq<Action>, s: Sys, s': Sys)
    requires acts != [] && acts[|acts| - 1].Connect? && AsScheduled(acts[..|acts| - 1], s)
    requires Step(s, acts[|acts| - 1]) == Next(s') && InBudget(s')
    ensures AsScheduled(acts, s')
  {
    assert Draw(s.nextXapp) == s.nextXapp;
    var front := acts[..|acts| - 1];
    assert forall x :: AskCount(acts, x) == AskCount(front, x);
    hide AskCount, Asks;
  }

  lemma AskScheduled(acts: seq<Action>, s: Sys, s': Sys)
    requires acts != [] && acts[|acts| - 1].Ask? && AsScheduled(acts[..|acts| - 1], s) && Step(s, acts[|acts| - 1]) == Next(s')
    ensures AsScheduled(acts, s')
  {
    var front, a := acts[..|acts| - 1], acts[|acts| - 1];
    assert forall x :: AskCount(acts, x) == AskCount(front, x) + if a.xapp == x then 1 else 0;
    assert Asks(acts) == Asks(front)[XKey(a.xapp, RicId(s.xapps[a.xapp].next, 0, a.func)) := (a.node, a.kind)];
    hide AskCount, Asks;
  }

  /** What steps other than connecting and asking leave alone. */
  ghost predicate SameXapps(s: Sys, s': Sys) {
    && s'.nextXapp == s.nextXapp && s'.addr == s.addr && s'.asked == s.asked && s'.xapps.Keys == s.xapps.Keys
    && (forall x <- s.xapps :: s'.xapps[x].next == s.xapps[x].next) && s'.lines.Keys == s.lines.Keys
  }

  lemma OtherScheduled(acts: seq<Action>, s: Sys, s': Sys)
    requires acts != [] && !acts[|acts| - 1].Connect? && !acts[|acts| - 1].Ask? && AsScheduled(acts[..|acts| - 1], s)
    requires SameXapps(s, s')
    ensures AsScheduled(acts, s')
  {
    assert forall x :: AskCount(acts, x) == AskCount(acts[..|acts| - 1], x);
    hide AskCount;
  }

  lemma RegisterXapps(s: Sys, s': Sys)
    requires DoWork(s) == Next(s') && LockHeld(s.job)
    ensures SameXapps(s, s')
  {
    hide Draw, Overwrite16, Add, EvOf;
  }

  lemma DeleteXapps(s: Sys, s': Sys)
    requires DoWork(s) == Next(s') && !LockHeld(s.job)
    ensures SameXapps(s, s')
  {
  }

  lemma WorkerXapps(s: Sys, n: NodeId, s': Sys)
    requires DoWorkerStep(s, n) == Next(s')
    ensures SameXapps(s, s')
  {
    hide Release, Resolve, Reply;
    var m := s.lines[n].worker.m;
    match s.lines[n].worker.stage
    case Received => ReleaseXapps(s, n, m);
    case Released => ResolveXapps(s, n, m);
    case Resolved(x) => ReplyXapps(s, n, m, x);
    case Replied(_) =>
  }

  lemma ReleaseXapps(s: Sys, n: NodeId, m: Up)
    requires n in s.lines && Release(s, n, m).Next?
    ensures SameXapps(s, Release(s, n, m).s)
  {
  }

  lemma ResolveXapps(s: Sys, n: NodeId, m: Up)
    requires n in s.lines && Resolve(s, n, m).Next?
    ensures SameXapps(s, Resolve(s, n, m).s)
  {
  }

  lemma ReplyXapps(s: Sys, n: NodeId, m: Up, x: XKey)
    requires n in s.lines && Reply(s, n, m, x).Next?
    ensures SameXapps(s, Reply(s, n, m, x).s)
  {
  }

  lemma OtherXapps(s: Sys, a: Action, s': Sys)
    requires !a.Connect? && !a.Ask? && Step(s, a) == Next(s')
    ensures SameXapps(s, s')
  {
    hide DoWork, DoWorkerStep;
    match a
    case Work =>
      if LockHeld(s.job) {
        RegisterXapps(s, s');
      } else {
        DeleteXapps(s, s');
      }
    case WorkerStep(n) => WorkerXapps(s, n, s');
    case _ =>
  }

  /** In every schedule the broker knows exactly the xApps that connected and the requests that they made,
      as they made them. */
  lemma {:induction false} HistoryIsTheSchedule(nodes: set<NodeId>, acts: seq<Action>, s: Sys)
    requires Run(nodes, acts) == Next(s) && InBudget(s)
    ensures AsScheduled(acts, s)
  {
    hide Step, AsScheduled, SameXapps, InBudget;
    if acts == [] {
      InitScheduled(nodes);
    } else {
      var front, a := acts[..|acts| - 1], acts[|acts| - 1];
      var before := Run(nodes, front).s;
      CountersGrow(before, a, s);
      HistoryIsTheSchedule(nodes, front, before);
      if a.Connect? {
        ConnectScheduled(acts, before, s);
      } else if a.Ask? {
        AskScheduled(acts, before, s);
      } else {
        OtherXapps(before, a, s);
        OtherScheduled(acts, before, s);
      }
    }
  }

  /** The nodes are those the schedule started with. */
  lemma {:induction false} NodesStay(nodes: set<NodeId>, acts: seq<Action>, s: Sys)
    requires Run(nodes, acts) == Next(s)
    ensures s.lines.Keys == nodes
  {
    hide Step, SameXapps;
    if acts == [] {
      assert s.lines.Keys == nodes;
    } else {
      var before := Run(nodes, acts[..|acts| - 1]).s;
      NodesStay(nodes, acts[..|acts| - 1], before);
      StepLines(before, acts[|acts| - 1], s);
    }
  }

  lemma StepLines(s: Sys, a: Action, s': Sys)
    requires Step(s, a) == Next(s')
    ensures s'.lines.Keys == s.lines.Keys
  {
    if !a.Connect? && !a.Ask? {
      OtherXapps(s, a, s');
      hide Step;
    }
  }

  lemma InitScheduled(nodes: set<NodeId>)
    ensures AsScheduled([], InitState(nodes))
  {
  }

  // ----- deletes and departures -----

  /** Subscription k is the request a. */
  ghost predicate IsFor(s: Sys, k: nat, a: XKey) {
    k in s.origin && s.origin[k].x == a
  }

  /** Its delete is queued at the xApp, in the job of the iApp, or sent. */
  ghost predicate Passed(s: Sys, a: XKey) {
    a.xapp in s.xapps && (Delete(a.id) in s.xapps[a.xapp].out || exists k :: IsFor(s, k, a) && Doomed(s, k))
  }

  /** Deletes go out for exactly the subscriptions whose delete was asked for or whose xApp left. */
  ghost predicate DeletesInv(s: Sys, deletes: set<XKey>, left: set<nat>) {
    && (forall a <- deletes :: Passed(s, a))
    && (forall x <- s.xapps, m <- s.xapps[x].out :: (m.Delete? ==> XKey(x, m.id) in deletes) && (m.Bye? ==> x in left))
    && (forall x :: x in left <==> x in s.xapps && !s.xapps[x].open)
    && (forall k :: Doomed(s, k) ==> k in s.origin && (s.origin[k].x in deletes || s.origin[k].x.xapp in left))
  }

  lemma PassedKept(s: Sys, s': Sys, a: XKey)
    requires a.xapp in s'.xapps && Passed(s, a)
    requires Delete(a.id) in s.xapps[a.xapp].out ==> Delete(a.id) in s'.xapps[a.xapp].out
    requires forall k <- s.origin :: k in s'.origin && s'.origin[k] == s.origin[k]
    requires forall k :: Doomed(s, k) ==> Doomed(s', k)
    ensures Passed(s', a)
  {
    if Delete(a.id) !in s.xapps[a.xapp].out {
      var k :| IsFor(s, k, a) && Doomed(s, k);
      assert IsFor(s', k, a);
    }
  }

  /** One xApp queues one more message, or a new xApp comes. */
  lemma XappDeletes(s: Sys, a: Action, s': Sys, deletes: set<XKey>, left: set<nat>)
    requires DeletesInv(s, deletes, left) && AddrInv(s) && Step(s, a) == Next(s') && InBudget(s')
    requires a.Connect? || a.Ask? || a.AskDelete? || a.Leave?
    ensures DeletesInv(s', if a.AskDelete? then deletes + {XKey(a.xapp, a.id)} else deletes, if a.Leave? then left + {a.xapp} else left)
  {
    match a
    case Connect(_) => ConnectDeletes(s, a, s', deletes, left);
    case Ask(x, node, func, kind) => QueueDeletes(s, x, Request(RicId(s.xapps[x].next, 0, func), node, kind), s', deletes, left);
    case AskDelete(x, id) => QueueDeletes(s, x, Delete(id), s', deletes, left);
    case Leave(x) => QueueDeletes(s, x, Bye, s', deletes, left);
  }

  lemma ConnectDeletes(s: Sys, a: Action, s': Sys, deletes: set<XKey>, left: set<nat>)
    requires DeletesInv(s, deletes, left) && AddrInv(s) && a.Connect? && Step(s, a) == Next(s') && InBudget(s')
    ensures DeletesInv(s', deletes, left)
  {
    assert s.nextXapp !in s.xapps;
    forall k ensures Doomed(s', k) <==> Doomed(s, k) {}
    hide Doomed;
    forall b | b in deletes ensures Passed(s', b) {
      PassedKept(s, s', b);
    }
  }

  lemma QueueDeletes(s: Sys, x: nat, m: XMsg, s': Sys, deletes: set<XKey>, left: set<nat>)
    requires DeletesInv(s, deletes, left) && x in s.xapps && s.xapps[x].open
    requires s'.xapps.Keys == s.xapps.Keys && s'.origin == s.origin && s'.job == s.job && s'.deleted == s.deleted
    requires s'.xapps == s.xapps[x := s'.xapps[x]] && s'.xapps[x].out == s.xapps[x].out + [m] && s'.xapps[x].open == !m.Bye?
    ensures DeletesInv(s', if m.Delete? then deletes + {XKey(x, m.id)} else deletes, if m.Bye? then left + {x} else left)
  {
    forall k ensures Doomed(s', k) <==> Doomed(s, k) {}
    hide Doomed;
    forall b | b in deletes ensures Passed(s', b) {
      PassedKept(s, s', b);
    }
    if m.Delete? {
      assert m in s'.xapps[x].out;
    }
  }

  /** Nothing changes but the lines, the tables and what an xApp may delete. */
  lemma QuietDeletes(s: Sys, s': Sys, deletes: set<XKey>, left: set<nat>)
    requires DeletesInv(s, deletes, left) && s'.xapps.Keys == s.xapps.Keys
    requires forall x <- s.xapps :: s'.xapps[x].out == s.xapps[x].out && s'.xapps[x].open == s.xapps[x].open
    requires forall k <- s.origin :: k in s'.origin && s'.origin[k] == s.origin[k]
    requires forall k :: Doomed(s', k) <==> Doomed(s, k)
    ensures DeletesInv(s', deletes, left)
  {
    forall b | b in deletes ensures Passed(s', b) {
      PassedKept(s, s', b);
    }
  }

  lemma WorkDoomed(s: Sys, s': Sys, k: nat)
    requires DoWork(s) == Next(s') && Doomed(s', k) && !LockHeld(s.job)
    ensures Doomed(s, k)
  {
    if s.job.Deleting? && s.job.todo != [] {
      assert s.job.todo[0] in s.job.todo && forall e <- s.job.todo[1..] :: e in s.job.todo;
    }
  }

  lemma RegisterDoomed(s: Sys, s': Sys, k: nat)
    requires DoWork(s) == Next(s') && LockHeld(s.job)
    ensures Doomed(s', k) <==> Doomed(s, k)
  {
  }

  lemma OriginGrows(s: Sys, s': Sys)
    requires Inv(s) && DoWork(s) == Next(s') && InBudget(s')
    ensures s'.xapps == s.xapps && forall k <- s.origin :: k in s'.origin && s'.origin[k] == s.origin[k]
  {
    hide OriginInv, IdsInv, LinesInv, PendInv, KindInv, JobInv, AddrInv, QueueInv, AskInv, LogInv, DoWork;
    if s.job.Locked? {
      Draws(s, s');
    } else {
      WorkShape(s, s');
    }
  }

  lemma DoomedStays(s: Sys, s': Sys, k: nat)
    requires OriginInv(s) && LinesInv(s) && PendInv(s) && DoWork(s) == Next(s')
    ensures Doomed(s', k) <==> Doomed(s, k)
  {
    hide OriginInv, LinesInv, PendInv, DoWork, Doomed;
    if LockHeld(s.job) {
      RegisterDoomed(s, s', k);
    } else {
      if Doomed(s, k) { JobDooms(s, s', k); }
      if Doomed(s', k) { WorkDoomed(s, s', k); }
    }
  }

  lemma WorkDeletes(s: Sys, s': Sys, deletes: set<XKey>, left: set<nat>)
    requires Inv(s) && DeletesInv(s, deletes, left) && DoWork(s) == Next(s') && InBudget(s')
    ensures DeletesInv(s', deletes, left)
  {
    hide *;
    OriginGrows(s, s');
    InvParts(s);
    forall k ensures Doomed(s', k) <==> Doomed(s, k) {
      DoomedStays(s, s', k);
    }
    QuietDeletes(s, s', deletes, left);
  }

  lemma LineDeletes(s: Sys, a: Action, s': Sys, deletes: set<XKey>, left: set<nat>)
    requires DeletesInv(s, deletes, left) && (a.AgentTake? || a.Indicate? || a.WorkerTake? || a.WorkerStep?) && Step(s, a) == Next(s')
    ensures DeletesInv(s', deletes, left)
  {
    LineFrame(s, a, s');
    hide Step, DeletesInv;
    QuietDeletes(s, s', deletes, left);
  }

  lemma LineFrame(s: Sys, a: Action, s': Sys)
    requires (a.AgentTake? || a.Indicate? || a.WorkerTake? || a.WorkerStep?) && Step(s, a) == Next(s')
    ensures s'.xapps.Keys == s.xapps.Keys && s'.origin == s.origin && s'.job == s.job && s'.deleted == s.deleted
    ensures forall x <- s.xapps :: s'.xapps[x].out == s.xapps[x].out && s'.xapps[x].open == s.xapps[x].open
    ensures forall k :: Doomed(s', k) <==> Doomed(s, k)
  {
    if a.WorkerStep? {
      hide DoWorkerStep;
      WorkerSpares(s, a.n, s');
    }
  }

  lemma TakeRequestDeletes(s: Sys, x: nat, s': Sys, deletes: set<XKey>, left: set<nat>)
    requires DeletesInv(s, deletes, left) && DoTakeRequest(s, x) == Next(s')
    ensures DeletesInv(s', deletes, left)
  {
    forall k ensures Doomed(s', k) <==> Doomed(s, k) {}
    hide Doomed;
    PoppedDeletes(s, x, s', deletes, left);
  }

  /** The oldest message of an xApp is taken; if it is a delete, it becomes part of the job. */
  lemma PoppedDeletes(s: Sys, x: nat, s': Sys, deletes: set<XKey>, left: set<nat>)
    requires DeletesInv(s, deletes, left) && x in s.xapps && s.xapps[x].out != []
    requires s' == Pop(s, x).(job := s'.job) && (forall k :: Doomed(s, k) ==> Doomed(s', k))
    requires forall k :: Doomed(s', k) ==> Doomed(s, k) || (k in s.origin && (s.origin[k].x in deletes || s.origin[k].x.xapp in left))
    requires s.xapps[x].out[0].Delete? ==> Passed(s', XKey(x, s.xapps[x].out[0].id))
    ensures DeletesInv(s', deletes, left)
  {
    hide Doomed;
    forall a | a in deletes ensures Passed(s', a) {
      if a.xapp != x || Delete(a.id) != s.xapps[x].out[0] {
        PassedKept(s, s', a);
      }
    }
    assert forall m <- s.xapps[x].out[1..] :: m in s.xapps[x].out;
  }

  lemma TakeDeleteDeletes(s: Sys, x: nat, found: Option<Entry>, s': Sys, deletes: set<XKey>, left: set<nat>)
    requires IdsInv(s) && CleanInv(s) && CleanStep(s, TakeDelete(x, found)) && DeletesInv(s, deletes, left)
    requires DoTakeDelete(s, x, found) == Next(s')
    ensures DeletesInv(s', deletes, left)
  {
    var a := XKey(x, s.xapps[x].out[0].id);
    CleanDeleteFinds(s, x, found);
    var k := found.value.id.req;
    assert s.xapps[x].out[0] in s.xapps[x].out && IsFor(s, k, a);
    assert s'.job == Deleting([found.value]);
    forall j ensures Doomed(s', j) <==> Doomed(s, j) || j == k {}
    hide CleanInv, IdsInv, CleanStep, Doomed;
    assert IsFor(s', k, a) && Doomed(s', k);
    PoppedDeletes(s, x, s', deletes, left);
  }

  lemma TakeByeDeletes(s: Sys, x: nat, subs: seq<Entry>, s': Sys, deletes: set<XKey>, left: set<nat>)
    requires IdsInv(s) && DeletesInv(s, deletes, left) && DoTakeBye(s, x, subs) == Next(s')
    ensures DeletesInv(s', deletes, left)
  {
    SubsOfXapp(s, x, subs);
    assert s.xapps[x].out[0] in s.xapps[x].out;
    forall k ensures Doomed(s, k) ==> Doomed(s', k) {}
    forall k ensures Doomed(s', k) ==> Doomed(s, k) || (k in s.origin && s.origin[k].x.xapp in left) {}
    hide IdsInv, Doomed, AllSubs;
    PoppedDeletes(s, x, s', deletes, left);
  }

  lemma StepDeletes(s: Sys, a: Action, s': Sys, deletes: set<XKey>, left: set<nat>)
    requires Inv(s) && CleanInv(s) && CleanStep(s, a) && Step(s, a) == Next(s') && InBudget(s') && DeletesInv(s, deletes, left)
    ensures DeletesInv(s', if a.AskDelete? then deletes + {XKey(a.xapp, a.id)} else deletes, if a.Leave? then left + {a.xapp} else left)
  {
    hide DeletesInv, OriginInv, IdsInv, LinesInv, PendInv, KindInv, JobInv, AddrInv, QueueInv, AskInv, LogInv, CleanInv, CleanStep;
    match a
    case TakeRequest(x) => TakeRequestDeletes(s, x, s', deletes, left);
    case TakeDelete(x, found) => TakeDeleteDeletes(s, x, found, s', deletes, left);
    case TakeBye(x, subs) => TakeByeDeletes(s, x, subs, s', deletes, left);
    case Work => WorkDeletes(s, s', deletes, left);
    case AgentTake(_) => LineDeletes(s, a, s', deletes, left);
    case Indicate(_, _, _) => LineDeletes(s, a, s', deletes, left);
    case WorkerTake(_) => LineDeletes(s, a, s', deletes, left);
    case WorkerStep(_) => LineDeletes(s, a, s', deletes, left);
    case _ => XappDeletes(s, a, s', deletes, left);
  }

  lemma InitDeletes(nodes: set<NodeId>)
    ensures DeletesInv(InitState(nodes), {}, {})
  {
  }

  lemma LastAsks(acts: seq<Action>)
    requires acts != []
    ensures var a, front := acts[|acts| - 1], acts[..|acts| - 1];
            && DeleteAsks(acts) == (if a.AskDelete? then DeleteAsks(front) + {XKey(a.xapp, a.id)} else DeleteAsks(front))
            && Leaves(acts) == (if a.Leave? then Leaves(front) + {a.xapp} else Leaves(front))
  {
    assert acts == acts[..|acts| - 1] + [acts[|acts| - 1]];
  }

  lemma {:induction false} DeletesFollow(nodes: set<NodeId>, acts: seq<Action>, s: Sys)
    requires Run(nodes, acts) == Next(s) && InBudget(s) && Clean(nodes, acts)
    ensures DeletesInv(s, DeleteAsks(acts), Leaves(acts))
  {
    hide Step, DeletesInv, Inv, CleanInv, GoneInv, CleanStep, InBudget;
    if acts == [] {
      InitDeletes(nodes);
      assert DeleteAsks([]) == {} && Leaves([]) == {};
    } else {
      var front, a := acts[..|acts| - 1], acts[|acts| - 1];
      var before := Run(nodes, front).s;
      CountersGrow(before, a, s);
      DeletesFollow(nodes, front, before);
      Reached(nodes, front, before);
      LastAsks(acts);
      StepDeletes(before, a, s, DeleteAsks(front), Leaves(front));
    }
  }

  /** An xApp is connected as long as it did not leave. */
  lemma {:induction false} LeftIff(nodes: set<NodeId>, acts: seq<Action>, s: Sys)
    requires Run(nodes, acts) == Next(s) && InBudget(s)
    ensures forall x :: x in Leaves(acts) <==> x in s.xapps && !s.xapps[x].open
  {
    hide Step, Leaves, InBudget, Inv, CleanInv, GoneInv;
    if acts == [] {
      assert Leaves([]) == {} by { NobodyLeft(); }
    } else {
      var front, a := acts[..|acts| - 1], acts[|acts| - 1];
      var before := Run(nodes, front).s;
      CountersGrow(before, a, s);
      LeftIff(nodes, front, before);
      Reached(nodes, front, before);
      LastAsks(acts);
      StepLeaves(before, a, s, Leaves(front));
    }
  }

  lemma NobodyLeft()
    ensures Leaves([]) == {}
  {
  }

  lemma OpenStays(s: Sys, a: Action, s': Sys)
    requires (a.Ask? || a.AskDelete? || a.TakeRequest? || a.TakeDelete? || a.TakeBye?) && Step(s, a) == Next(s')
    ensures s'.xapps.Keys == s.xapps.Keys && forall x <- s.xapps :: s'.xapps[x].open == s.xapps[x].open
  {
  }

  lemma OpenChanges(s: Sys, a: Action, s': Sys, left: set<nat>)
    requires AddrInv(s) && (a.Connect? || a.Leave?) && Step(s, a) == Next(s') && InBudget(s')
    requires forall x :: x in left <==> x in s.xapps && !s.xapps[x].open
    ensures forall x :: x in (if a.Leave? then left + {a.xapp} else left) <==> x in s'.xapps && !s'.xapps[x].open
  {
    assert s.nextXapp !in s.xapps;
  }

  lemma StepLeaves(s: Sys, a: Action, s': Sys, left: set<nat>)
    requires Inv(s) && Step(s, a) == Next(s') && InBudget(s') && forall x :: x in left <==> x in s.xapps && !s.xapps[x].open
    ensures forall x :: x in (if a.Leave? then left + {a.xapp} else left) <==> x in s'.xapps && !s'.xapps[x].open
  {
    hide *;
    InvParts(s);
    match a
    case Connect(_) => OpenChanges(s, a, s', left);
    case Leave(_) => OpenChanges(s, a, s', left);
    case Work => StepIsWork(s); OriginGrows(s, s');
    case AgentTake(_) => LineFrame(s, a, s');
    case Indicate(_, _, _) => LineFrame(s, a, s');
    case WorkerTake(_) => LineFrame(s, a, s');
    case WorkerStep(_) => LineFrame(s, a, s');
    case _ => OpenStays(s, a, s');
  }

  lemma StepIsWork(s: Sys)
    ensures Step(s, Work) == DoWork(s)
  {
  }

  // ----- what is left once the channels are drained -----

  /** The table has an entry for request a, the agent asked has an indication for it under the RIC id of
      the entry, and both are for the node that was asked. */
  ghost predicate Holds(s: Sys, a: XKey) {
    && a in s.ids.right && a in s.asked && s.ids.right[a].node == s.asked[a].0 && s.ids.right[a].node in s.lines
    && s.ids.right[a].id in s.lines[s.ids.right[a].node].ind
    && s.ids.right[a].id == a.id.(req := s.ids.right[a].id.req)
  }

  /** Once the channels are drained after a clean schedule, table and agents hold exactly the subscriptions
      that were asked for, whose delete was not asked for, and whose xApp did not leave. */
  lemma HeldIffAskedAndKept(nodes: set<NodeId>, acts: seq<Action>, s: Sys, a: XKey)
    requires Run(nodes, acts) == Next(s) && InBudget(s) && Clean(nodes, acts) && Drained(s)
    ensures Holds(s, a) <==> a in Asks(acts) && Asks(acts)[a].1 == Subscription && a !in DeleteAsks(acts) && a.xapp !in Leaves(acts)
    ensures a in s.ids.right ==> Holds(s, a)
  {
    hide *;
    Reached(nodes, acts, s);
    InvParts(s);
    HistoryIsTheSchedule(nodes, acts, s);
    AskedMatches(acts, s);
    DeletesFollow(nodes, acts, s);
    DrainedMeansSettled(nodes, acts, s);
    HeldIff(s, a, DeleteAsks(acts), Leaves(acts));
  }

  lemma AskedMatches(acts: seq<Action>, s: Sys)
    requires AsScheduled(acts, s)
    ensures s.asked == Asks(acts)
  {
  }

  lemma DeletedIff(s: Sys, k: nat, deletes: set<XKey>, left: set<nat>)
    requires DeletesInv(s, deletes, left) && GoneInv(s) && OriginInv(s) && AskInv(s) && Drained(s)
    requires k in s.origin && s.origin[k].kind == Subscription
    ensures k in s.deleted <==> s.origin[k].x in deletes || s.origin[k].x.xapp in left
  {
    var a := s.origin[k].x;
    if k in s.deleted {
      assert Doomed(s, k);
    }
    if a in deletes {
      assert Passed(s, a);
      var j :| IsFor(s, j, a) && Doomed(s, j);
      assert j == k;
    }
    if a.xapp in left {
      GoneIsDeleted(s, a.xapp, k);
    }
  }

  lemma HeldHere(s: Sys, a: XKey)
    requires IdsInv(s) && AskInv(s) && OriginInv(s) && Settled(s) && a in s.ids.right
    ensures Holds(s, a) && s.asked[a].1 == Subscription
    ensures var k := s.ids.right[a].id.req;
            k in s.origin && s.origin[k].x == a && k !in s.deleted && s.ids.right[a] == EntryOf(s.origin, k)
  {
    var k := s.ids.right[a].id.req;
    assert k in s.ids.left && s.ids.left[k] == a;
    assert s.ids.right[a].id in s.lines[s.ids.right[a].node].ind;
  }

  lemma HeldIff(s: Sys, a: XKey, deletes: set<XKey>, left: set<nat>)
    requires DeletesInv(s, deletes, left) && GoneInv(s) && OriginInv(s) && IdsInv(s) && AskInv(s) && Drained(s) && Settled(s)
    ensures Holds(s, a) <==> a in s.asked && s.asked[a].1 == Subscription && a !in deletes && a.xapp !in left
    ensures a in s.ids.right ==> Holds(s, a)
  {
    if a in s.ids.right {
      HeldHere(s, a);
      DeletedIff(s, s.ids.right[a].id.req, deletes, left);
    } else if a in s.asked && s.asked[a].1 == Subscription {
      AskedHasOrigin(s, a);
      var k :| IsFor(s, k, a) && s.origin[k].kind == Subscription;
      assert k !in s.ids.left;
      DeletedIff(s, k, deletes, left);
    }
  }

  lemma AskedHasOrigin(s: Sys, a: XKey)
    requires AskInv(s) && Drained(s) && a in s.asked
    ensures exists k :: IsFor(s, k, a) && s.origin[k].kind == s.asked[a].1
  {
    assert Carried(s, a);
    var k :| k in s.origin && s.origin[k] == Origin(a, s.asked[a].0, s.asked[a].1);
    assert IsFor(s, k, a);
  }
}
