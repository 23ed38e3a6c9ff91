/** Indications, from the agent that raises them to the xApp that subscribed: none is lost while the
    subscription is held, and none is repeated, reordered, changed, or sent to another xApp. */
module BrokerReports {
  import opened RicIds
  import opened IdMaps
  import opened Broker
  import opened BrokerInv
  import opened BrokerWork
  import opened BrokerWorkers
  import opened BrokerSafety
  import opened BrokerTheorems
  import opened BrokerHistory

  // ----- reports -----

  /** The report that a step raises at node n under id, if it does. */
  function Raises(a: Action, n: NodeId, id: RicId): seq<nat> {
    if a.Indicate? && a.n == n && a.id == id then [a.report] else []
  }

  /** The reports that a schedule raises at node n under id, in order. */
  function Raised(acts: seq<Action>, n: NodeId, id: RicId): seq<nat> {
    if acts == [] then [] else Raised(acts[..|acts| - 1], n, id) + Raises(acts[|acts| - 1], n, id)
  }

  function Of(u: Up, id: RicId): seq<nat> {
    if u.Indication? && u.id == id then [u.report] else []
  }

  function InChannel(up: seq<Up>, id: RicId): seq<nat> {
    if up == [] then [] else Of(up[0], id) + InChannel(up[1..], id)
  }

  /** The reports under id that are on their way: at the worker, which is the older one, and in the channel. */
  function OnWay(l: Line, id: RicId): seq<nat> {
    (if l.worker.Busy? then Of(l.worker.m, id) else []) + InChannel(l.up, id)
  }

  /** The reports that reached the address under id, in order: what an xApp sees. */
  function Received(log: seq<Delivery>, to: Addr, id: RicId): seq<nat> {
    if log == [] then []
    else
      var d := log[|log| - 1];
      Received(log[..|log| - 1], to, id) + if d.to == to then Of(d.m, id) else []
  }

  /** The reports forwarded whose source is an indication under id. */
  function Forwarded(log: seq<Delivery>, id: RicId): seq<nat> {
    if log == [] then [] else Forwarded(log[..|log| - 1], id) + Of(log[|log| - 1].src, id)
  }

  lemma {:induction false} InChannelPush(up: seq<Up>, u: Up, id: RicId)
    ensures InChannel(up + [u], id) == InChannel(up, id) + Of(u, id)
  {
    if up == [] {
      assert InChannel([u][1..], id) == [];
    } else {
      InChannelPush(up[1..], u, id);
      assert (up + [u])[1..] == up[1..] + [u];
      assert Of(up[0], id) + (InChannel(up[1..], id) + Of(u, id)) == Of(up[0], id) + InChannel(up[1..], id) + Of(u, id);
    }
  }

  // ----- one subscription -----

  /** The id k has left the table and will not come back. */
  predicate Over(s: Sys, k: nat) {
    k in s.origin && k !in s.ids.left && Registering(s.job) != Some(k)
  }

  /** The reports raised are those that came through, then some that were dropped, then those on their way;
      none was dropped before the end was reached. */
  ghost predicate Accounts(raised: seq<nat>, through: seq<nat>, onWay: seq<nat>, over: bool) {
    exists dropped: seq<nat> :: raised == through + dropped + onWay && (dropped != [] ==> over)
  }

  ghost predicate Accounted(s: Sys, n: NodeId, id: RicId, raised: seq<nat>)
    requires n in s.lines
  {
    Accounts(raised, Forwarded(s.log, id), OnWay(s.lines[n], id), Over(s, id.req))
  }

  predicate Subscribed(s: Sys, n: NodeId, id: RicId) {
    Known(s.origin, Key(SubEv, id), n)
  }

  ghost predicate Reported(s: Sys, n: NodeId, id: RicId, raised: seq<nat>)
    requires n in s.lines
  {
    if Subscribed(s, n, id) then Accounted(s, n, id, raised) else raised == []
  }

  /** Nothing is forwarded, raised or dropped. */
  lemma Frame(s: Sys, s': Sys, n: NodeId, id: RicId, raised: seq<nat>)
    requires n in s.lines && n in s'.lines && Reported(s, n, id, raised)
    requires s'.origin == s.origin && OnWay(s'.lines[n], id) == OnWay(s.lines[n], id)
    requires Subscribed(s, n, id) ==> Forwarded(s'.log, id) == Forwarded(s.log, id)
    requires Over(s, id.req) ==> Over(s', id.req)
    ensures Reported(s', n, id, raised)
  {
    hide OnWay, Forwarded, Over;
    if Subscribed(s, n, id) {
      var dropped :| raised == Forwarded(s.log, id) + dropped + OnWay(s.lines[n], id) && (dropped != [] ==> Over(s, id.req));
      assert raised == Forwarded(s'.log, id) + dropped + OnWay(s'.lines[n], id);
    }
  }

  /** Reports come in at the end of the channel. */
  lemma Grows(s: Sys, s': Sys, n: NodeId, id: RicId, raised: seq<nat>, more: seq<nat>)
    requires n in s.lines && n in s'.lines && Subscribed(s, n, id) && Reported(s, n, id, raised)
    requires s'.origin == s.origin && s'.log == s.log && OnWay(s'.lines[n], id) == OnWay(s.lines[n], id) + more
    requires Over(s, id.req) ==> Over(s', id.req)
    ensures Reported(s', n, id, raised + more)
  {
    hide OnWay, Forwarded, Over;
    var dropped :| raised == Forwarded(s.log, id) + dropped + OnWay(s.lines[n], id) && (dropped != [] ==> Over(s, id.req));
    assert raised + more == Forwarded(s'.log, id) + dropped + OnWay(s'.lines[n], id);
  }

  /** The oldest report on its way is dropped. */
  lemma Drops(s: Sys, s': Sys, n: NodeId, id: RicId, raised: seq<nat>, report: nat)
    requires n in s.lines && n in s'.lines && Subscribed(s, n, id) && Reported(s, n, id, raised)
    requires s'.origin == s.origin && s'.log == s.log && OnWay(s.lines[n], id) == [report] + OnWay(s'.lines[n], id) && Over(s', id.req)
    ensures Reported(s', n, id, raised)
  {
    hide OnWay, Forwarded, Over;
    var dropped :| raised == Forwarded(s.log, id) + dropped + OnWay(s.lines[n], id) && (dropped != [] ==> Over(s, id.req));
    assert raised == Forwarded(s'.log, id) + (dropped + [report]) + OnWay(s'.lines[n], id);
  }

  /** The oldest report on its way is forwarded; none has been dropped before. */
  lemma Forwards(s: Sys, s': Sys, n: NodeId, id: RicId, raised: seq<nat>, report: nat)
    requires n in s.lines && n in s'.lines && Subscribed(s, n, id) && Reported(s, n, id, raised) && !Over(s, id.req)
    requires s'.origin == s.origin && Forwarded(s'.log, id) == Forwarded(s.log, id) + [report]
    requires OnWay(s.lines[n], id) == [report] + OnWay(s'.lines[n], id)
    ensures Reported(s', n, id, raised)
  {
    hide OnWay, Forwarded, Over;
    var dropped :| raised == Forwarded(s.log, id) + dropped + OnWay(s.lines[n], id) && (dropped != [] ==> Over(s, id.req));
    assert dropped == [];
    assert raised == Forwarded(s'.log, id) + [] + OnWay(s'.lines[n], id);
  }

  // ----- the steps that leave reports alone -----

  lemma QuietFrame(s: Sys, a: Action, s': Sys)
    requires a.Connect? || a.Ask? || a.AskDelete? || a.Leave? || a.TakeRequest? || a.TakeDelete? || a.TakeBye?
    requires Step(s, a) == Next(s')
    ensures s'.origin == s.origin && s'.log == s.log && s'.lines == s.lines && s'.ids == s.ids && Registering(s'.job) == Registering(s.job)
  {
  }

  lemma WorkFrame(s: Sys, s': Sys, n: NodeId)
    requires DoWork(s) == Next(s') && !s.job.Locked? && n in s.lines
    ensures s'.origin == s.origin && s'.log == s.log && n in s'.lines
    ensures s'.lines[n].worker == s.lines[n].worker && s'.lines[n].up == s.lines[n].up
    ensures forall k :: Over(s, k) ==> Over(s', k)
  {
    hide DoWork;
    if LockHeld(s.job) {
      RegisterFrame(s, s', n);
    } else {
      DeleteFrame(s, s', n);
    }
  }

  lemma RegisterFrame(s: Sys, s': Sys, n: NodeId)
    requires DoWork(s) == Next(s') && !s.job.Locked? && LockHeld(s.job) && n in s.lines
    ensures s'.origin == s.origin && s'.log == s.log && n in s'.lines
    ensures s'.lines[n].worker == s.lines[n].worker && s'.lines[n].up == s.lines[n].up
    ensures forall k :: Over(s, k) ==> Over(s', k)
  {
  }

  lemma DeleteFrame(s: Sys, s': Sys, n: NodeId)
    requires DoWork(s) == Next(s') && !LockHeld(s.job) && n in s.lines
    ensures s'.origin == s.origin && s'.log == s.log && n in s'.lines
    ensures s'.lines[n].worker == s.lines[n].worker && s'.lines[n].up == s.lines[n].up
    ensures forall k :: Over(s, k) ==> Over(s', k)
  {
  }

  /** Nothing under an id that no request was drawn for was forwarded or is on its way. */
  lemma NothingYet(s: Sys, n: NodeId, id: RicId)
    requires LinesInv(s) && LogInv(s) && n in s.lines && id.req !in s.origin
    ensures Forwarded(s.log, id) == [] && OnWay(s.lines[n], id) == []
  {
    LineIsOk(s, n);
    ForwardedNone(s.log, id);
    ChannelNone(s.lines[n].up, id);
  }

  lemma {:induction false} ForwardedNone(log: seq<Delivery>, id: RicId)
    requires forall d <- log :: IdOf(d.src) != id
    ensures Forwarded(log, id) == []
  {
    if log == [] {
    } else {
      assert log[|log| - 1] in log;
      ForwardedNone(log[..|log| - 1], id);
    }
  }

  lemma {:induction false} ChannelNone(up: seq<Up>, id: RicId)
    requires forall u <- up :: u.Indication? ==> u.id != id
    ensures InChannel(up, id) == []
  {
    if up == [] {
    } else {
      assert up[0] in up;
      ChannelNone(up[1..], id);
    }
  }

  lemma ArmReported(s: Sys, s': Sys, n: NodeId, id: RicId, raised: seq<nat>)
    requires LinesInv(s) && LogInv(s) && Arms(s, s') && n in s.lines && Reported(s, n, id, raised)
    ensures Reported(s', n, id, raised)
  {
    if Subscribed(s, n, id) {
      ArmOver(s, s', id.req);
      hide OnWay, Forwarded, Over, LinesInv, LogInv;
      var dropped :| raised == Forwarded(s.log, id) + dropped + OnWay(s.lines[n], id) && (dropped != [] ==> Over(s, id.req));
      assert raised == Forwarded(s'.log, id) + dropped + OnWay(s'.lines[n], id);
    } else if Subscribed(s', n, id) {
      NothingYet(s, n, id);
      assert raised == Forwarded(s'.log, id) + [] + OnWay(s'.lines[n], id);
    }
  }

  lemma ArmOver(s: Sys, s': Sys, k: nat)
    requires Arms(s, s')
    ensures Over(s, k) ==> Over(s', k)
  {
  }

  lemma WorkReported(s: Sys, s': Sys, n: NodeId, id: RicId, raised: seq<nat>)
    requires OriginInv(s) && QueueInv(s) && LinesInv(s) && LogInv(s) && DoWork(s) == Next(s') && InBudget(s')
    requires n in s.lines && Reported(s, n, id, raised)
    ensures n in s'.lines && Reported(s', n, id, raised)
  {
    hide OriginInv, QueueInv, LinesInv, LogInv, DoWork, Reported, Over;
    if s.job.Locked? {
      Draws(s, s');
      ArmReported(s, s', n, id, raised);
    } else {
      WorkFrame(s, s', n);
      Frame(s, s', n, id, raised);
    }
  }

  // ----- the steps of a line -----

  lemma RaiseReported(s: Sys, a: Action, s': Sys, n: NodeId, id: RicId, raised: seq<nat>)
    requires LinesInv(s) && a.Indicate? && Step(s, a) == Next(s') && n in s.lines && Reported(s, n, id, raised)
    ensures n in s'.lines && Reported(s', n, id, raised + Raises(a, n, id))
  {
    RaisedOnWay(s, a, s', n, id);
    hide LinesInv, Reported, Subscribed, OnWay;
    if Raises(a, n, id) == [] {
      assert raised + [] == raised;
      Frame(s, s', n, id, raised);
    } else {
      Grows(s, s', n, id, raised, Raises(a, n, id));
    }
  }

  lemma LineGrows(l: Line, u: Up, id: RicId)
    ensures OnWay(l.(up := l.up + [u]), id) == OnWay(l, id) + Of(u, id)
  {
    InChannelPush(l.up, u, id);
    hide InChannel, Of;
    var w := if l.worker.Busy? then Of(l.worker.m, id) else [];
    assert w + (InChannel(l.up, id) + Of(u, id)) == w + InChannel(l.up, id) + Of(u, id);
  }

  lemma RaisedOnWay(s: Sys, a: Action, s': Sys, n: NodeId, id: RicId)
    requires LinesInv(s) && a.Indicate? && Step(s, a) == Next(s') && n in s.lines
    ensures n in s'.lines && OnWay(s'.lines[n], id) == OnWay(s.lines[n], id) + Raises(a, n, id)
    ensures Raises(a, n, id) != [] ==> Subscribed(s, n, id)
  {
    IndicatedIsKnown(s, a.n, a.id);
    var l, u := s.lines[a.n], Indication(a.id, a.report);
    LineGrows(l, u, id);
    assert s'.lines == s.lines[a.n := l.(up := l.up + [u])];
    hide LinesInv, Subscribed, OnWay, Step;
  }

  lemma IndicatedIsKnown(s: Sys, n: NodeId, id: RicId)
    requires LinesInv(s) && n in s.lines && id in s.lines[n].ind
    ensures Subscribed(s, n, id)
  {
    LineIsOk(s, n);
    assert Known(s.origin, Key(SubEv, id), n);
  }

  lemma TakeReported(s: Sys, a: Action, s': Sys, n: NodeId, id: RicId, raised: seq<nat>)
    requires (a.AgentTake? || a.WorkerTake?) && Step(s, a) == Next(s') && n in s.lines && Reported(s, n, id, raised)
    ensures n in s'.lines && Reported(s', n, id, raised)
  {
    var l := s.lines[a.n];
    if a.AgentTake? {
      InChannelPush(l.up, Answer(l.down[0]), id);
    }
    Frame(s, s', n, id, raised);
  }

  /** Stopping an event, finding the xApp, and removing an entry. */
  lemma StageReported(s: Sys, n0: NodeId, w: Worker, s': Sys, n: NodeId, id: RicId, raised: seq<nat>)
    requires n0 in s.lines && s.lines[n0].worker.Busy? && n in s.lines && Reported(s, n, id, raised)
    requires s' == SetWorker(s, n0, w).(pending := s'.pending, ids := s'.ids) && s'.ids.left.Keys <= s.ids.left.Keys
    requires if w.Busy? then w.m == s.lines[n0].worker.m else s.lines[n0].worker.m.Answer?
    ensures n in s'.lines && Reported(s', n, id, raised)
  {
    Frame(s, s', n, id, raised);
  }

  /** A report is dropped, and its id has left the table. */
  lemma DropReported(s: Sys, n0: NodeId, s': Sys, n: NodeId, id: RicId, raised: seq<nat>)
    requires LineOk(s, n0) && s.lines[n0].worker.Busy? && n in s.lines && Reported(s, n, id, raised)
    requires s' == SetWorker(s, n0, Free) && IdOf(s.lines[n0].worker.m).req !in s.ids.left && !LockHeld(s.job)
    ensures n in s'.lines && Reported(s', n, id, raised)
  {
    var m := s.lines[n0].worker.m;
    if n == n0 && m.Indication? && m.id == id {
      assert Subscribed(s, n, id);
      hide LineOk, Reported;
      Drops(s, s', n, id, raised, m.report);
    } else {
      hide LineOk, Reported;
      Frame(s, s', n, id, raised);
    }
  }

  lemma ForwardedPush(log: seq<Delivery>, d: Delivery, id: RicId)
    ensures Forwarded(log + [d], id) == Forwarded(log, id) + Of(d.src, id)
  {
    assert (log + [d])[..|log|] == log;
  }

  /** A message is forwarded while its id is in the table. */
  lemma ReplyReported(s: Sys, n0: NodeId, w: Worker, d: Delivery, s': Sys, n: NodeId, id: RicId, raised: seq<nat>)
    requires LineOk(s, n0) && s.lines[n0].worker.Busy? && n in s.lines && Reported(s, n, id, raised)
    requires d.src == s.lines[n0].worker.m && IdOf(d.src).req in s.ids.left && (if d.src.Answer? then w.Busy? ==> w.m == d.src else w == Free)
    requires s' == SetWorker(s, n0, w).(xapps := s'.xapps, log := s.log + [d])
    ensures n in s'.lines && Reported(s', n, id, raised)
  {
    ForwardedPush(s.log, d, id);
    assert d.src.Indication? ==> Subscribed(s, n0, d.src.id);
    if n == n0 && d.src.Indication? && d.src.id == id {
      hide LineOk, Reported, Forwarded;
      Forwards(s, s', n, id, raised, d.src.report);
    } else {
      hide LineOk, Reported, Forwarded;
      Frame(s, s', n, id, raised);
    }
  }

  lemma ResolveReported(s: Sys, n0: NodeId, s': Sys, n: NodeId, id: RicId, raised: seq<nat>)
    requires LineOk(s, n0) && s.lines[n0].worker.Busy? && !LockHeld(s.job) && Resolve(s, n0, s.lines[n0].worker.m) == Next(s')
    requires n in s.lines && Reported(s, n, id, raised)
    ensures n in s'.lines && Reported(s', n, id, raised)
  {
    assert n0 in s'.lines;
    hide LineOk, Reported;
    if IdOf(s.lines[n0].worker.m).req in s.ids.left {
      StageReported(s, n0, s'.lines[n0].worker, s', n, id, raised);
    } else {
      DropReported(s, n0, s', n, id, raised);
    }
  }

  lemma ForwardReported(s: Sys, n0: NodeId, s': Sys, n: NodeId, id: RicId, raised: seq<nat>)
    requires LineOk(s, n0) && DoWorkerStep(s, n0) == Next(s') && s.lines[n0].worker.Busy? && s.lines[n0].worker.stage.Resolved?
    requires n in s.lines && Reported(s, n, id, raised)
    ensures n in s'.lines && Reported(s', n, id, raised)
  {
    assert IdOf(s.lines[n0].worker.m).req in s.ids.left;
    hide LineOk, Reported;
    ReplyReported(s, n0, s'.lines[n0].worker, s'.log[|s.log|], s', n, id, raised);
  }

  lemma RemoveReported(s: Sys, n0: NodeId, s': Sys, n: NodeId, id: RicId, raised: seq<nat>)
    requires LineOk(s, n0) && DoWorkerStep(s, n0) == Next(s') && s.lines[n0].worker.Busy? && s.lines[n0].worker.stage.Replied?
    requires n in s.lines && Reported(s, n, id, raised)
    ensures n in s'.lines && Reported(s', n, id, raised)
  {
    assert s.lines[n0].worker.m.Answer?;
    hide LineOk, Reported;
    StageReported(s, n0, Free, s', n, id, raised);
  }

  lemma ReleaseReported(s: Sys, n0: NodeId, s': Sys, n: NodeId, id: RicId, raised: seq<nat>)
    requires n0 in s.lines && s.lines[n0].worker.Busy? && Release(s, n0, s.lines[n0].worker.m) == Next(s')
    requires n in s.lines && Reported(s, n, id, raised)
    ensures n in s'.lines && Reported(s', n, id, raised)
  {
    hide Reported;
    StageReported(s, n0, s'.lines[n0].worker, s', n, id, raised);
  }

  lemma WorkerReported(s: Sys, n0: NodeId, s': Sys, n: NodeId, id: RicId, raised: seq<nat>)
    requires LinesInv(s) && DoWorkerStep(s, n0) == Next(s') && n in s.lines && Reported(s, n, id, raised)
    ensures n in s'.lines && Reported(s', n, id, raised)
  {
    LineIsOk(s, n0);
    hide Reported, LinesInv, LineOk, Release, Resolve, Reply;
    match s.lines[n0].worker.stage
    case Received => ReleaseReported(s, n0, s', n, id, raised);
    case Released => ResolveReported(s, n0, s', n, id, raised);
    case Resolved(_) => ForwardReported(s, n0, s', n, id, raised);
    case Replied(_) => RemoveReported(s, n0, s', n, id, raised);
  }

  lemma StepReported(s: Sys, a: Action, s': Sys, n: NodeId, id: RicId, raised: seq<nat>)
    requires Inv(s) && Step(s, a) == Next(s') && InBudget(s') && n in s.lines && Reported(s, n, id, raised)
    ensures n in s'.lines && Reported(s', n, id, raised + Raises(a, n, id))
  {
    hide OriginInv, IdsInv, LinesInv, PendInv, KindInv, JobInv, AddrInv, QueueInv, AskInv, LogInv, Reported, DoWork, DoWorkerStep;
    assert raised + [] == raised;
    match a
    case Work => WorkReported(s, s', n, id, raised);
    case AgentTake(_) => TakeReported(s, a, s', n, id, raised);
    case Indicate(_, _, _) => RaiseReported(s, a, s', n, id, raised);
    case WorkerTake(_) => TakeReported(s, a, s', n, id, raised);
    case WorkerStep(n0) => WorkerReported(s, n0, s', n, id, raised);
    case _ =>
      QuietFrame(s, a, s');
      Frame(s, s', n, id, raised);
  }

  lemma {:induction false} AllReported(nodes: set<NodeId>, acts: seq<Action>, s: Sys, n: NodeId, id: RicId)
    requires Run(nodes, acts) == Next(s) && InBudget(s) && n in nodes
    ensures n in s.lines && Reported(s, n, id, Raised(acts, n, id))
  {
    hide Step, Inv, Reported, InBudget;
    if acts == [] {
      InitReported(nodes, n, id);
    } else {
      var front, a := acts[..|acts| - 1], acts[|acts| - 1];
      var before := Run(nodes, front).s;
      CountersGrow(before, a, s);
      AllReported(nodes, front, before, n, id);
      Reached(nodes, front, before);
      StepReported(before, a, s, n, id, Raised(front, n, id));
    }
  }

  lemma InitReported(nodes: set<NodeId>, n: NodeId, id: RicId)
    requires n in nodes
    ensures n in InitState(nodes).lines && Reported(InitState(nodes), n, id, [])
  {
  }

  // ----- to the xApp -----

  /** What an xApp sees under the id it chose is what was forwarded for the id drawn for it. */
  lemma {:induction false} SeenIsForwarded(s: Sys, log: seq<Delivery>, k: nat)
    requires OriginInv(s) && AddrInv(s) && k in s.origin && s.origin[k].x.xapp in s.addr && forall d <- log :: Correct(s.origin, s.addr, d)
    ensures Received(log, s.addr[s.origin[k].x.xapp], s.origin[k].x.id) == Forwarded(log, FullId(s.origin, k))
  {
    if log == [] {
    } else {
      assert log[|log| - 1] in log;
      SeenIsForwarded(s, log[..|log| - 1], k);
      OneSeen(s, log[|log| - 1], k);
    }
  }

  lemma OneSeen(s: Sys, d: Delivery, k: nat)
    requires OriginInv(s) && AddrInv(s) && k in s.origin && s.origin[k].x.xapp in s.addr && Correct(s.origin, s.addr, d)
    ensures (if d.to == s.addr[s.origin[k].x.xapp] then Of(d.m, s.origin[k].x.id) else []) == Of(d.src, FullId(s.origin, k))
  {
  }

  /** Of the reports raised for subscription k, at the node asked and under the id drawn for it, the xApp
      that asked received the first ones, in order and under the id it chose, and the last ones are on
      their way; those between, if any, came too late: the delete of k was answered. */
  ghost predicate ReachesAsker(acts: seq<Action>, s: Sys, k: nat)
    requires k in s.origin
  {
    var o, id := s.origin[k], FullId(s.origin, k);
    && o.x in Asks(acts) && Asks(acts)[o.x] == (o.node, Subscription) && o.node in s.lines
    && FIRST_XAPP <= o.x.xapp < FIRST_XAPP + |Connections(acts)|
    && Accounts(Raised(acts, o.node, id), Received(s.log, Connections(acts)[o.x.xapp - FIRST_XAPP], o.x.id),
                OnWay(s.lines[o.node], id), k in s.deleted && k !in s.ids.left)
  }

  lemma OverIsDeleted(s: Sys, k: nat)
    requires OriginInv(s) && KindInv(s) && Over(s, k) && s.origin[k].kind == Subscription
    ensures k in s.deleted
  {
    assert s.origin[k].node in s.lines;
    assert SubInv(s, k);
  }

  lemma AskedByOrigin(acts: seq<Action>, s: Sys, k: nat)
    requires AskInv(s) && AsScheduled(acts, s) && k in s.origin
    ensures var o := s.origin[k];
            && o.x in Asks(acts) && Asks(acts)[o.x] == (o.node, o.kind) && o.x.xapp in s.addr
            && FIRST_XAPP <= o.x.xapp < FIRST_XAPP + |Connections(acts)| && s.addr[o.x.xapp] == Connections(acts)[o.x.xapp - FIRST_XAPP]
  {
    hide Asks, Connections, AskCount;
  }

  lemma SeenInLog(s: Sys, k: nat)
    requires OriginInv(s) && AddrInv(s) && LogInv(s) && k in s.origin && s.origin[k].x.xapp in s.addr
    ensures Received(s.log, s.addr[s.origin[k].x.xapp], s.origin[k].x.id) == Forwarded(s.log, FullId(s.origin, k))
  {
    assert forall d <- s.log :: Correct(s.origin, s.addr, d);
    hide LogInv;
    SeenIsForwarded(s, s.log, k);
  }

  lemma DroppedIsDeleted(s: Sys, k: nat, raised: seq<nat>)
    requires OriginInv(s) && KindInv(s) && k in s.origin && s.origin[k].kind == Subscription && s.origin[k].node in s.lines
    requires Reported(s, s.origin[k].node, FullId(s.origin, k), raised)
    ensures Accounts(raised, Forwarded(s.log, FullId(s.origin, k)), OnWay(s.lines[s.origin[k].node], FullId(s.origin, k)),
                     k in s.deleted && k !in s.ids.left)
  {
    assert Subscribed(s, s.origin[k].node, FullId(s.origin, k));
    assert Over(s, k) ==> k in s.deleted by {
      if Over(s, k) { OverIsDeleted(s, k); }
    }
    hide OriginInv, KindInv, Forwarded, OnWay;
  }

  lemma Assembled(acts: seq<Action>, s: Sys, k: nat)
    requires k in s.origin && s.origin[k].node in s.lines && s.origin[k].x in Asks(acts)
    requires Asks(acts)[s.origin[k].x] == (s.origin[k].node, Subscription)
    requires FIRST_XAPP <= s.origin[k].x.xapp < FIRST_XAPP + |Connections(acts)|
    requires var o, id := s.origin[k], FullId(s.origin, k);
             Accounts(Raised(acts, o.node, id), Received(s.log, Connections(acts)[o.x.xapp - FIRST_XAPP], o.x.id),
                      OnWay(s.lines[o.node], id), k in s.deleted && k !in s.ids.left)
    ensures ReachesAsker(acts, s, k)
  {
    hide Raised, Received, OnWay, Accounts, Asks, Connections;
  }

  lemma ReportedReaches(acts: seq<Action>, s: Sys, k: nat)
    requires OriginInv(s) && KindInv(s) && AddrInv(s) && AskInv(s) && LogInv(s) && AsScheduled(acts, s)
    requires k in s.origin && s.origin[k].kind == Subscription && s.origin[k].node in s.lines
    requires Reported(s, s.origin[k].node, FullId(s.origin, k), Raised(acts, s.origin[k].node, FullId(s.origin, k)))
    ensures ReachesAsker(acts, s, k)
  {
    AskedByOrigin(acts, s, k);
    hide *;
    SeenInLog(s, k);
    DroppedIsDeleted(s, k, Raised(acts, s.origin[k].node, FullId(s.origin, k)));
    Assembled(acts, s, k);
  }

  lemma OriginNode(s: Sys, k: nat)
    requires OriginInv(s) && k in s.origin
    ensures s.origin[k].node in s.lines
  {
  }

  /** In every schedule, what an agent raises for a subscription reaches the xApp that asked for it. */
  lemma IndicationsReachTheirAsker(nodes: set<NodeId>, acts: seq<Action>, s: Sys, k: nat)
    requires Run(nodes, acts) == Next(s) && InBudget(s) && k in s.origin && s.origin[k].kind == Subscription
    ensures ReachesAsker(acts, s, k)
  {
    hide *;
    Reached(nodes, acts, s);
    InvParts(s);
    HistoryIsTheSchedule(nodes, acts, s);
    NodesStay(nodes, acts, s);
    OriginNode(s, k);
    AllReported(nodes, acts, s, s.origin[k].node, FullId(s.origin, k));
    ReportedReaches(acts, s, k);
  }

  /** Nothing is raised under an id but that of a subscription sent to the node. */
  lemma OnlySubscriptionsReport(nodes: set<NodeId>, acts: seq<Action>, s: Sys, n: NodeId, id: RicId)
    requires Run(nodes, acts) == Next(s) && InBudget(s) && n in nodes && Raised(acts, n, id) != []
    ensures id.req in s.origin && id == FullId(s.origin, id.req) && s.origin[id.req].node == n && s.origin[id.req].kind == Subscription
  {
    hide Run, Raised, InBudget;
    AllReported(nodes, acts, s, n, id);
  }

  lemma {:induction false} SomeDelivery(log: seq<Delivery>, to: Addr, id: RicId)
    requires Received(log, to, id) != []
    ensures exists d :: d in log && d.to == to && d.m.Indication? && d.m.id == id
  {
    if log == [] {
    } else if log[|log| - 1].to == to && Of(log[|log| - 1].m, id) != [] {
      assert log[|log| - 1] in log;
    } else {
      SomeDelivery(log[..|log| - 1], to, id);
    }
  }

  /** Nobody receives a report but an xApp that subscribed, under the id of its request. */
  lemma OnlyAskersReceive(nodes: set<NodeId>, acts: seq<Action>, s: Sys, to: Addr, id: RicId)
    requires Run(nodes, acts) == Next(s) && InBudget(s) && Received(s.log, to, id) != []
    ensures exists x :: FIRST_XAPP <= x < FIRST_XAPP + |Connections(acts)| && Connections(acts)[x - FIRST_XAPP] == to
              && XKey(x, id) in Asks(acts) && Asks(acts)[XKey(x, id)].1 == Subscription
  {
    SomeDelivery(s.log, to, id);
    hide Run, InBudget, Received;
    HistoryIsTheSchedule(nodes, acts, s);
    DeliveriesAreCorrect(nodes, acts, s);
    var d :| d in s.log && d.to == to && d.m.Indication? && d.m.id == id;
    var a :| Delivers(s, d, a);
    assert XKey(a.xapp, id) == a;
  }

  /** Once the channels are drained, a subscription that is still held has received every report that was
      raised for it. */
  lemma HeldReceivesAll(nodes: set<NodeId>, acts: seq<Action>, s: Sys, a: XKey)
    requires Run(nodes, acts) == Next(s) && InBudget(s) && Drained(s) && a in s.ids.right
    ensures var e := s.ids.right[a];
            && FIRST_XAPP <= a.xapp < FIRST_XAPP + |Connections(acts)|
            && Raised(acts, e.node, e.id) == Received(s.log, Connections(acts)[a.xapp - FIRST_XAPP], a.id)
  {
    hide *;
    Reached(nodes, acts, s);
    InvParts(s);
    DrainedMeansSettled(nodes, acts, s);
    HeldHere(s, a);
    IndicationsReachTheirAsker(nodes, acts, s, s.ids.right[a].id.req);
    AllCame(acts, s, a);
  }

  lemma AllCame(acts: seq<Action>, s: Sys, a: XKey)
    requires Drained(s) && a in s.ids.right && s.ids.right[a].id.req in s.origin && s.origin[s.ids.right[a].id.req].x == a
    requires s.ids.right[a].id.req !in s.deleted && ReachesAsker(acts, s, s.ids.right[a].id.req)
    requires s.ids.right[a] == EntryOf(s.origin, s.ids.right[a].id.req)
    ensures var e := s.ids.right[a];
            && FIRST_XAPP <= a.xapp < FIRST_XAPP + |Connections(acts)|
            && Raised(acts, e.node, e.id) == Received(s.log, Connections(acts)[a.xapp - FIRST_XAPP], a.id)
  {
    hide Raised, Received, Connections, Asks;
    var k := s.ids.right[a].id.req;
    assert s.origin[k].node in s.lines;
    assert OnWay(s.lines[s.origin[k].node], FullId(s.origin, k)) == [];
  }
}
