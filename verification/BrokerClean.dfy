/** Deletes of live subscriptions: what the lookup of a delete needs to find the requester's own
    entry, kept by every step of a schedule in which no delete meets a foreign entry. */
module BrokerClean {
  import opened RicIds
  import opened IdMaps
  import opened Broker
  import opened BrokerInv
  import opened BrokerSteps
  import opened BrokerWork
  import opened BrokerWorkers

  /** The iApp is about to send a delete for k. */
  ghost predicate InJob(j: Job, k: nat) {
    match j
    case Deleting(todo) => exists e <- todo :: e.id.req == k
    case DelArmed(e, todo) => e.id.req == k || exists f <- todo :: f.id.req == k
    case _ => false
  }

  ghost predicate Doomed(s: Sys, k: nat) {
    k in s.deleted || InJob(s.job, k)
  }

  /** The xApp may ask, or has asked, to delete this subscription. */
  ghost predicate Wants(v: Xapp, id: RicId) {
    (v.open && id in v.confirmed) || Delete(id) in v.out
  }

  /** The subscription k has been answered. */
  ghost predicate SubDone(s: Sys, k: nat) {
    k in s.origin && s.origin[k].node in s.lines && KeyOf(s.origin, k) !in Unanswered(s.lines[s.origin[k].node])
  }

  /** The table has an answered subscription under this key, and nobody is deleting it. */
  ghost predicate Deletable(s: Sys, x: XKey) {
    && x in s.ids.right && s.ids.right[x].kind == Subscription
    && !Doomed(s, s.ids.right[x].id.req) && SubDone(s, s.ids.right[x].id.req)
  }

  /** The last message of an xApp that left, and only that, is its bye. */
  ghost predicate ByeLast(v: Xapp) {
    && (forall i :: 0 <= i < |v.out| && v.out[i].Bye? ==> i == |v.out| - 1 && !v.open)
    && (!v.open ==> v.out == [] || v.out[|v.out| - 1].Bye?)
  }

  /** Bye comes last; no delete is queued twice, or for a subscription still held. */
  ghost predicate Shape(v: Xapp) {
    && ByeLast(v)
    && (forall i, j :: 0 <= i < j < |v.out| && v.out[i].Delete? ==> v.out[i] != v.out[j])
    && (forall m <- v.out :: m.Delete? ==> m.id !in v.confirmed)
  }

  ghost predicate CleanInv(s: Sys) {
    && (forall x <- s.xapps :: Shape(s.xapps[x]))
    && (forall x, id :: x in s.xapps && Wants(s.xapps[x], id) ==> Deletable(s, XKey(x, id)))
    && (forall k :: Doomed(s, k) ==> k in s.origin && s.origin[k].x.xapp in s.xapps && (!s.xapps[s.origin[k].x.xapp].open || SubDone(s, k)))
  }

  /** No other xApp with a smaller id has an entry under the RIC id that is to be deleted. */
  ghost predicate CleanStep(s: Sys, a: Action) {
    a.TakeDelete? && CanTake(s, a.xapp, (m: XMsg) => m.Delete?) ==>
      forall z: nat :: z < a.xapp ==> XKey(z, s.xapps[a.xapp].out[0].id) !in s.ids.right
  }

  // ----- frames -----

  /** Nothing that a wanted subscription relies on was lost. */
  ghost predicate Spares(s: Sys, s': Sys) {
    && (forall k <- s.origin :: k in s'.origin && s'.origin[k] == s.origin[k])
    && (forall k :: Doomed(s', k) ==> Doomed(s, k))
    && (forall x <- s.ids.right :: s.ids.right[x].kind == Subscription && !Doomed(s, s.ids.right[x].id.req) ==>
          x in s'.ids.right && s'.ids.right[x] == s.ids.right[x])
    && (forall k :: SubDone(s, k) && (k in s.ids.left || Doomed(s, k)) ==> SubDone(s', k))
  }

  lemma SparesKeeps(s: Sys, s': Sys)
    requires CleanInv(s) && Bijective(s.ids) && Spares(s, s') && s'.xapps == s.xapps
    ensures CleanInv(s')
  {
    forall x, id | x in s'.xapps && Wants(s'.xapps[x], id) ensures Deletable(s', XKey(x, id)) {
      assert Deletable(s, XKey(x, id));
    }
  }

  /** One xApp changed and everything else stays; it wants no more than before. */
  lemma XappKeeps(s: Sys, x: nat, v: Xapp, s': Sys)
    requires CleanInv(s) && x in s.xapps && s'.xapps == s.xapps[x := v]
    requires s' == s.(xapps := s'.xapps, asked := s'.asked)
    requires Shape(v) && (v.open ==> s.xapps[x].open) && forall id :: Wants(v, id) ==> Wants(s.xapps[x], id)
    ensures CleanInv(s')
  {
    forall y, id | y in s'.xapps && Wants(s'.xapps[y], id) ensures Deletable(s', XKey(y, id)) {
      assert Deletable(s, XKey(y, id));
    }
    forall k | Doomed(s', k) ensures k in s'.origin && s'.origin[k].x.xapp in s'.xapps && (!s'.xapps[s'.origin[k].x.xapp].open || SubDone(s', k)) {
      assert Doomed(s, k);
    }
  }

  // ----- xApps -----

  lemma ConnectClean(s: Sys, a: Addr, s': Sys)
    requires CleanInv(s) && DoConnect(s, a) == Next(s') && AddrInv(s)
    ensures CleanInv(s')
  {
    forall y, id | y in s'.xapps && Wants(s'.xapps[y], id) ensures Deletable(s', XKey(y, id)) {
      assert Deletable(s, XKey(y, id));
    }
    forall k | Doomed(s', k) ensures k in s'.origin && s'.origin[k].x.xapp in s'.xapps && (!s'.xapps[s'.origin[k].x.xapp].open || SubDone(s', k)) {
      assert Doomed(s, k);
    }
  }

  lemma AskClean(s: Sys, x: nat, node: NodeId, func: nat, kind: Kind, s': Sys)
    requires CleanInv(s) && DoAsk(s, x, node, func, kind) == Next(s')
    ensures CleanInv(s')
  {
    XappKeeps(s, x, s'.xapps[x], s');
  }

  lemma AskDeleteClean(s: Sys, x: nat, id: RicId, s': Sys)
    requires CleanInv(s) && DoAskDelete(s, x, id) == Next(s')
    ensures CleanInv(s')
  {
    var v := s.xapps[x];
    assert Delete(id) !in v.out;
    XappKeeps(s, x, s'.xapps[x], s');
  }

  lemma LeaveClean(s: Sys, x: nat, s': Sys)
    requires CleanInv(s) && DoLeave(s, x) == Next(s')
    ensures CleanInv(s')
  {
    XappKeeps(s, x, s'.xapps[x], s');
  }

  // ----- the iApp takes a message -----

  lemma PopShape(v: Xapp)
    requires Shape(v) && v.out != []
    ensures Shape(v.(out := v.out[1..]))
    ensures forall id :: Wants(v.(out := v.out[1..]), id) ==> Wants(v, id) && v.out[0] != Delete(id)
  {
    assert forall m <- v.out[1..] :: m in v.out;
  }

  lemma TakeRequestClean(s: Sys, x: nat, s': Sys)
    requires IdsInv(s) && CleanInv(s) && DoTakeRequest(s, x) == Next(s')
    ensures CleanInv(s')
  {
    PopShape(s.xapps[x]);
    var s1 := Pop(s, x);
    XappKeeps(s, x, s1.xapps[x], s1);
    assert s' == s1.(job := s'.job);
    SparesKeeps(s1, s');
  }

  /** The delete resolves to the requester's own entry. */
  lemma CleanDeleteFinds(s: Sys, x: nat, found: Option<Entry>)
    requires IdsInv(s) && CleanInv(s) && CleanStep(s, TakeDelete(x, found))
    requires CanTake(s, x, (m: XMsg) => m.Delete?) && Found(s.ids.right, s.xapps[x].out[0].id, found)
    ensures var key := XKey(x, s.xapps[x].out[0].id);
            Deletable(s, key) && found == Some(s.ids.right[key])
  {
    var id := s.xapps[x].out[0].id;
    assert Wants(s.xapps[x], id);
    DeleteResolvesToOwnIff(s.ids, XKey(x, id), found);
  }

  lemma TakeDeleteClean(s: Sys, x: nat, found: Option<Entry>, s': Sys)
    requires IdsInv(s) && CleanInv(s) && CleanStep(s, TakeDelete(x, found)) && DoTakeDelete(s, x, found) == Next(s')
    ensures CleanInv(s')
  {
    CleanDeleteFinds(s, x, found);
    TakenDelete(s, XKey(x, s.xapps[x].out[0].id), s');
  }

  lemma TakenDelete(s: Sys, key: XKey, s': Sys)
    requires Bijective(s.ids) && CleanInv(s) && Deletable(s, key) && s.job.Idle?
    requires key.xapp in s.xapps && s.xapps[key.xapp].out != [] && s.xapps[key.xapp].out[0] == Delete(key.id)
    requires s.ids.right[key].id.req in s.origin && s.origin[s.ids.right[key].id.req].x == key
    requires s' == Pop(s, key.xapp).(job := Deleting([s.ids.right[key]]))
    ensures CleanInv(s')
  {
    PopShape(s.xapps[key.xapp]);
    var k := s.ids.right[key].id.req;
    forall j ensures Doomed(s', j) <==> Doomed(s, j) || j == k {
    }
    forall j | SubDone(s, j) ensures SubDone(s', j) {}
    forall y, id | y in s'.xapps && Wants(s'.xapps[y], id) ensures Deletable(s', XKey(y, id)) {
      assert Deletable(s, XKey(y, id));
      assert XKey(y, id) != key;
      assert s.ids.left[s.ids.right[XKey(y, id)].id.req] == XKey(y, id);
    }
  }

  lemma TakeByeClean(s: Sys, x: nat, subs: seq<Entry>, s': Sys)
    requires IdsInv(s) && CleanInv(s) && DoTakeBye(s, x, subs) == Next(s')
    ensures CleanInv(s')
  {
    PopShape(s.xapps[x]);
    assert s'.xapps[x].out == [] && !s'.xapps[x].open;
    SubsOfXapp(s, x, subs);
    forall y, id | y in s'.xapps && Wants(s'.xapps[y], id) ensures Deletable(s', XKey(y, id)) {
      assert Deletable(s, XKey(y, id)) && y != x;
    }
    forall k | Doomed(s', k) ensures k in s'.origin && s'.origin[k].x.xapp in s'.xapps && (!s'.xapps[s'.origin[k].x.xapp].open || SubDone(s', k)) {
      assert k in s.deleted ==> Doomed(s, k);
    }
  }

  lemma SubsOfXapp(s: Sys, x: nat, subs: seq<Entry>)
    requires IdsInv(s) && AllSubs(s.ids.right, x, subs)
    ensures forall e <- subs :: e.id.req in s.origin && s.origin[e.id.req].x.xapp == x
  {
    var ks :| SubKeys(s.ids.right, x, ks) && subs == seq(|ks|, i requires 0 <= i < |ks| => s.ids.right[ks[i]]);
    forall e <- subs ensures e.id.req in s.origin && s.origin[e.id.req].x.xapp == x {
      var i :| 0 <= i < |subs| && subs[i] == e;
      assert ks[i] in ks;
      assert s.ids.left[e.id.req] == ks[i];
    }
  }

  // ----- the job of the iApp -----

  lemma SentClean(s: Sys, s': Sys)
    requires Bijective(s.ids) && KindInv(s) && JobInv(s) && CleanInv(s) && s.job.Armed? && DoWork(s) == Next(s')
    ensures CleanInv(s')
  {
    var n, key := s.job.e.node, s.job.key;
    PushFlow(s.lines[n], key);
    forall k | SubDone(s, k) && (k in s.ids.left || Doomed(s, k)) ensures SubDone(s', k) {
      assert k != key.id.req;
    }
    SparesKeeps(s, s');
  }

  lemma ArmClean(s: Sys, s': Sys)
    requires Bijective(s.ids) && CleanInv(s) && Arms(s, s')
    ensures CleanInv(s')
  {
    forall k ensures Doomed(s', k) <==> Doomed(s, k) {}
    forall k | SubDone(s, k) ensures SubDone(s', k) {
      assert k != s.reqId;
    }
    SparesKeeps(s, s');
  }

  /** Steps that add to the table or release its lock. */
  lemma AddClean(s: Sys, s': Sys)
    requires Bijective(s.ids) && CleanInv(s) && (s.job.Sent? || s.job.Added?) && DoWork(s) == Next(s')
    ensures CleanInv(s')
  {
    forall k ensures Doomed(s', k) <==> Doomed(s, k) {}
    forall k | SubDone(s, k) ensures SubDone(s', k) {}
    SparesKeeps(s, s');
  }

  lemma WorkClean(s: Sys, s': Sys)
    requires Inv(s) && CleanInv(s) && DoWork(s) == Next(s') && InBudget(s')
    ensures CleanInv(s')
  {
    assert !s.job.Idle?;
    hide OriginInv, LinesInv, PendInv, KindInv, JobInv, AddrInv, QueueInv, AskInv, LogInv, DoWork, CleanInv, Arms;
    match s.job
    case Idle =>
    case Locked(_, _, _) => Draws(s, s'); ArmClean(s, s');
    case Armed(_, e, _) => SentClean(s, s');
    case Sent(_, _) => AddClean(s, s');
    case Added => AddClean(s, s');
    case DelArmed(e, _) => DelSentClean(s, s');
    case Deleting(todo) => DeletingClean(s, s');
  }

  lemma DeletingDoomed(s: Sys, s': Sys, k: nat)
    requires s.job.Deleting? && DoWork(s) == Next(s') && Doomed(s', k)
    ensures Doomed(s, k)
  {
    var todo := s.job.todo;
    if todo != [] {
      assert todo[0] in todo;
      assert forall e <- todo[1..] :: e in todo;
    }
  }

  lemma DeletingShape(s: Sys, s': Sys)
    requires s.job.Deleting? && DoWork(s) == Next(s')
    ensures s' == s.(pending := s'.pending, job := s'.job)
  {
  }

  lemma DeletingClean(s: Sys, s': Sys)
    requires Bijective(s.ids) && CleanInv(s) && s.job.Deleting? && DoWork(s) == Next(s')
    ensures CleanInv(s')
  {
    hide DoWork, CleanInv, Bijective, Doomed;
    DeletingShape(s, s');
    forall k | Doomed(s', k) ensures Doomed(s, k) {
      DeletingDoomed(s, s', k);
    }
    JobClean(s, s');
  }

  lemma JobClean(s: Sys, s': Sys)
    requires Bijective(s.ids) && CleanInv(s) && s' == s.(pending := s'.pending, job := s'.job)
    requires forall k :: Doomed(s', k) ==> Doomed(s, k)
    ensures CleanInv(s')
  {
    forall k | SubDone(s, k) ensures SubDone(s', k) {}
    SparesKeeps(s, s');
  }

  lemma DelSentClean(s: Sys, s': Sys)
    requires Bijective(s.ids) && CleanInv(s) && s.job.DelArmed? && DoWork(s) == Next(s')
    ensures CleanInv(s')
  {
    var e := s.job.e;
    PushFlow(s.lines[e.node], Key(DelEv, e.id));
    forall k | Doomed(s', k) ensures Doomed(s, k) {}
    forall k | SubDone(s, k) ensures SubDone(s', k) {}
    SparesKeeps(s, s');
  }

  // ----- lines -----

  /** Steps at one line that complete no delete: the table keeps what is not doomed. */
  lemma LineClean(s: Sys, n: NodeId, s': Sys)
    requires Bijective(s.ids) && CleanInv(s) && n in s.lines && n in s'.lines
    requires s' == s.(lines := s.lines[n := s'.lines[n]], pending := s'.pending, log := s'.log)
    requires forall key <- Unanswered(s'.lines[n]) :: key in Unanswered(s.lines[n])
    ensures CleanInv(s')
  {
    forall k ensures Doomed(s', k) <==> Doomed(s, k) {}
    SparesKeeps(s, s');
  }

  lemma AgentClean(s: Sys, n: NodeId, s': Sys)
    requires Inv(s) && CleanInv(s) && (DoAgentTake(s, n) == Next(s') || DoWorkerTake(s, n) == Next(s'))
    ensures CleanInv(s')
  {
    if DoAgentTake(s, n) == Next(s') {
      ServeFlow(s.lines[n]);
    } else {
      WorkerTakeFlow(s.lines[n]);
    }
    LineClean(s, n, s');
  }

  lemma IndicateClean(s: Sys, n: NodeId, id: RicId, report: nat, s': Sys)
    requires Inv(s) && CleanInv(s) && DoIndicate(s, n, id, report) == Next(s')
    ensures CleanInv(s')
  {
    IndicateFlow(s.lines[n], id, report);
    LineClean(s, n, s');
  }

  lemma WorkerFlows(l: Line, w: Worker)
    requires l.worker.Busy? && (w.Busy? ==> w.m == l.worker.m)
    ensures forall key <- Unanswered(l.(worker := w)) :: key in Flow(l)
    ensures l.worker.stage.Replied? && w.Free? ==> forall key <- Unanswered(l.(worker := w)) :: key in Unanswered(l)
  {
    SplitFlow(l);
    SplitFlow(l.(worker := w));
  }

  /** A forwarded subscription response lets its xApp delete the subscription, unless that is gone
      or its xApp is. */
  lemma ConfirmClean(s: Sys, n: NodeId, s1: Sys, s2: Sys)
    requires OriginInv(s) && IdsInv(s) && CleanInv(s) && Replies(s, n, s1)
    requires var m, x := s.lines[n].worker.m, s.lines[n].worker.stage.x;
             && x.xapp in s.xapps
             && s2 == (if m == Answer(Key(SubEv, IdOf(m)))
                       then SetXapp(s1, x.xapp, s.xapps[x.xapp].(confirmed := s.xapps[x.xapp].confirmed + {x.id})) else s1)
    ensures CleanInv(s2)
  {
    var l := s.lines[n];
    WorkerFlows(l, s1.lines[n].worker);
    LineClean(s, n, s1);
    if l.worker.m == Answer(Key(SubEv, IdOf(l.worker.m))) {
      ConfirmedSub(s, n, s1);
      ConfirmOne(s1, IdOf(l.worker.m).req, l.worker.stage.x, s2);
    }
  }

  /** Up to its answer, a subscription can only be doomed by the leave of its xApp. */
  lemma ConfirmedSub(s: Sys, n: NodeId, s1: Sys)
    requires OriginInv(s) && IdsInv(s) && CleanInv(s) && Replies(s, n, s1) && s.lines[n].worker.stage.x.xapp in s.xapps
    requires s.lines[n].worker.m.Answer? && s.lines[n].worker.m.key.ev.SubEv?
    ensures var k, x := IdOf(s.lines[n].worker.m).req, s.lines[n].worker.stage.x;
            && IdsInv(s1) && k in s1.ids.left && s1.ids.left[k] == x && s1.ids.right[x].kind == Subscription
            && SubDone(s1, k) && (Doomed(s1, k) ==> !s1.xapps[x.xapp].open) && Delete(x.id) !in s1.xapps[x.xapp].out
  {
    var l := s.lines[n];
    var k := IdOf(l.worker.m).req;
    WorkerKnown(s, n);
    FlowKnown(s, n, l, l.worker.m.key);
    assert s.ids.left[k] == l.worker.stage.x && !SubDone(s, k);
    BehindWorker(s, n);
    FreeFlow(l);
    assert Doomed(s1, k) ==> Doomed(s, k);
    assert Wants(s.xapps[l.worker.stage.x.xapp], l.worker.stage.x.id) ==> Deletable(s, l.worker.stage.x);
  }

  lemma ConfirmOne(s: Sys, k: nat, x: XKey, s': Sys)
    requires CleanInv(s) && IdsInv(s) && k in s.ids.left && s.ids.left[k] == x && x.xapp in s.xapps && s.ids.right[x].kind == Subscription
    requires SubDone(s, k) && (Doomed(s, k) ==> !s.xapps[x.xapp].open) && Delete(x.id) !in s.xapps[x.xapp].out
    requires s' == SetXapp(s, x.xapp, s.xapps[x.xapp].(confirmed := s.xapps[x.xapp].confirmed + {x.id}))
    ensures CleanInv(s')
  {
    forall y, id | y in s'.xapps && Wants(s'.xapps[y], id) ensures Deletable(s', XKey(y, id)) {
      ConfirmedWants(s, k, x, s', y, id);
    }
    hide IdsInv, Deletable, Wants;
    forall j | Doomed(s', j) ensures j in s'.origin && s'.origin[j].x.xapp in s'.xapps && (!s'.xapps[s'.origin[j].x.xapp].open || SubDone(s', j)) {
      assert Doomed(s, j);
    }
  }

  lemma ConfirmedWants(s: Sys, k: nat, x: XKey, s': Sys, y: nat, id: RicId)
    requires CleanInv(s) && IdsInv(s) && k in s.ids.left && s.ids.left[k] == x && x.xapp in s.xapps && s.ids.right[x].kind == Subscription
    requires SubDone(s, k) && (Doomed(s, k) ==> !s.xapps[x.xapp].open)
    requires s' == SetXapp(s, x.xapp, s.xapps[x.xapp].(confirmed := s.xapps[x.xapp].confirmed + {x.id}))
    requires y in s'.xapps && Wants(s'.xapps[y], id) && (XKey(y, id) == x ==> Delete(x.id) !in s.xapps[x.xapp].out)
    ensures Deletable(s', XKey(y, id))
  {
    if XKey(y, id) != x {
      assert Wants(s.xapps[y], id);
    }
    assert Deletable(s, XKey(y, id));
  }

  lemma RemoveClean(s: Sys, n: NodeId, s': Sys)
    requires IdsInv(s) && CleanInv(s) && Removes(s, n, s')
    ensures CleanInv(s')
  {
    var l := s.lines[n];
    WorkerFlows(l, Free);
    RemoveSpares(s, n);
    forall k ensures Doomed(s', k) <==> Doomed(s, k) {}
    forall k | SubDone(s, k) ensures SubDone(s', k) {}
    SparesKeeps(s, s');
  }

  /** Only a control request or a subscription whose delete was sent leaves the table. */
  lemma RemoveSpares(s: Sys, n: NodeId)
    requires IdsInv(s) && LineOk(s, n) && s.lines[n].worker.Busy? && s.lines[n].worker.stage.Replied?
    ensures var x := s.lines[n].worker.stage.x;
            x in s.ids.right && (s.ids.right[x].kind == Control || Doomed(s, s.ids.right[x].id.req))
  {
    RemovedId(s, n);
    WorkerKnown(s, n);
    FlowKnown(s, n, s.lines[n], s.lines[n].worker.m.key);
  }
}
