/** The message handlers of the near-RT RIC and of the iApp as they update their tables in place. Each
    handler, run without interruption, does what the matching steps of the broker do. */
module Handlers {
  import opened RicIds
  import opened IdMaps
  import opened Bimaps
  import opened Trees
  import opened Broker

  // ----- several steps of the broker at once -----

  /** The iApp registers the request it holds: arm, send, add, unlock. */
  ghost function RequestDone(s: Sys): Outcome {
    Then(Then(Then(Then(Next(s), Work), Work), Work), Work)
  }

  /** The iApp works off its list of deletes. */
  ghost function DeletesDone(s: Sys): Outcome
    requires s.job.Deleting?
    decreases |s.job.todo|
  {
    if s.job.todo == [] then DoWork(s)
    else
      var o := DoWork(s);
      if !o.Next? then o
      else if o.s.job.Deleting? then DeletesDone(o.s)
      else
        var p := DoWork(o.s);
        if p.Next? then DeletesDone(p.s) else p
  }

  /** The iApp takes a delete from an xApp and carries it out. */
  ghost function DeleteDone(s: Sys, x: nat, found: Option<Entry>): Outcome {
    var o := Step(s, TakeDelete(x, found));
    if o.Next? && o.s.job.Deleting? then DeletesDone(o.s) else o
  }

  /** A worker handles its message up to the end. */
  ghost function MessageDone(s: Sys, n: NodeId): Outcome {
    var w := WorkerStep(n);
    var o := Then(Then(Next(s), w), w);
    if o.Next? && n in o.s.lines && o.s.lines[n].worker.Busy? then
      var p := Then(o, w);
      if p.Next? && n in p.s.lines && p.s.lines[n].worker.Busy? then Then(p, w) else p
    else o
  }

  lemma RequestSteps(s: Sys, s': Sys)
    requires s.job.Locked? && RequestDone(s) == Next(s')
    ensures var j := s.job;
            var k := Draw(s.reqId);
            var key := Key(EvOf(j.kind), j.x.id.(req := Overwrite16(j.x.id.req, k)));
            var e := Entry(j.x.id.(req := k), j.node, j.kind);
            && key !in s.pending && j.node in s.lines && k !in s.ids.left && j.x !in s.ids.right
            && s'.reqId == s.reqId + 1 && s'.pending == s.pending + {key} && s'.ids == Add(s.ids, e, j.x)
            && s'.lines == s.lines[j.node := s.lines[j.node].(down := s.lines[j.node].down + [key])]
            && s'.addr == s.addr && s'.nextXapp == s.nextXapp && s'.log == s.log
  {
  }

  /** The first delete of the list: skipped if it is pending already, sent otherwise. */
  function FirstDelete(s: Sys): Sys
    requires s.job.Deleting? && s.job.todo != []
    requires Key(DelEv, s.job.todo[0].id) !in s.pending ==> s.job.todo[0].node in s.lines
  {
    var e := s.job.todo[0];
    var key := Key(DelEv, e.id);
    if key in s.pending then s.(job := Deleting(s.job.todo[1..]))
    else Send(s, e.node, key).(pending := s.pending + {key}, deleted := s.deleted + {e.id.req}, job := Deleting(s.job.todo[1..]))
  }

  lemma DeleteSteps(s: Sys, s': Sys)
    requires s.job.Deleting? && s.job.todo != [] && DeletesDone(s) == Next(s')
    ensures Key(DelEv, s.job.todo[0].id) !in s.pending ==> s.job.todo[0].node in s.lines
    ensures FirstDelete(s).job == Deleting(s.job.todo[1..]) && DeletesDone(FirstDelete(s)) == Next(s')
  {
    var e, rest := s.job.todo[0], s.job.todo[1..];
    var key := Key(DelEv, e.id);
    if key in s.pending {
      assert DoWork(s) == Next(s.(job := Deleting(rest)));
    } else {
      assert DoWork(s) == Next(s.(pending := s.pending + {key}, job := DelArmed(e, rest)));
    }
  }

  lemma NoDeletesLeft(s: Sys, s': Sys)
    requires s.job == Deleting([]) && DeletesDone(s) == Next(s')
    ensures s' == s.(job := Idle)
  {
  }

  /** Stopping the pending event and looking up the id. */
  lemma LookupSteps(s: Sys, n: NodeId, o: Outcome)
    requires n in s.lines && s.lines[n].worker.Busy? && s.lines[n].worker.stage.Received? && !LockHeld(s.job)
    requires o == Then(Then(Next(s), WorkerStep(n)), WorkerStep(n)) && o.Next?
    ensures var m := s.lines[n].worker.m;
            && (m.Answer? ==> m.key in s.pending) && IdOf(m).req > 0
            && o.s == s.(lines := o.s.lines, pending := s.pending - (if m.Answer? then {m.key} else {}))
            && (IdOf(m).req !in s.ids.left ==> (m.Answer? ==> m.key.ev.DelEv?))
            && (IdOf(m).req in s.ids.left ==> IdOf(m).func == s.ids.left[IdOf(m).req].id.func && IdOf(m).inst == s.ids.left[IdOf(m).req].id.inst)
            && o.s.lines == s.lines[n := s.lines[n].(worker :=
                 if IdOf(m).req in s.ids.left then Busy(m, Resolved(s.ids.left[IdOf(m).req])) else Free)]
  {
  }

  /** Forwarding the message, and removing the entry of an answered delete or control request. */
  lemma ForwardSteps(s: Sys, n: NodeId, m: Up, x: XKey, s': Sys)
    requires n in s.lines && s.lines[n].worker == Busy(m, Resolved(x)) && !LockHeld(s.job)
    requires var p := Then(Next(s), WorkerStep(n));
             p.Next? && Next(s') == if n in p.s.lines && p.s.lines[n].worker.Busy? then Then(p, WorkerStep(n)) else p
    ensures x.xapp in s.addr && (m.Answer? && m.key.ev != SubEv ==> x in s.ids.right)
    ensures s' == s.(lines := s'.lines, xapps := s'.xapps,
                     log := s.log + [Delivery(s.addr[x.xapp], WithId(m, x.id), m)],
                     ids := if m.Answer? && m.key.ev != SubEv then Remove(s.ids, x) else s.ids)
    ensures s'.lines == s.lines[n := s.lines[n].(worker := Free)]
  {
  }

  /** What the handling of a message changes in the tables. */
  lemma MessageSteps(s: Sys, n: NodeId, s': Sys)
    requires n in s.lines && s.lines[n].worker.Busy? && s.lines[n].worker.stage.Received? && !LockHeld(s.job)
    requires MessageDone(s, n) == Next(s')
    ensures var m := s.lines[n].worker.m;
            && (m.Answer? ==> m.key in s.pending) && s'.pending == s.pending - (if m.Answer? then {m.key} else {})
            && IdOf(m).req > 0 && s'.reqId == s.reqId && s'.addr == s.addr && s'.nextXapp == s.nextXapp
            && s'.lines == s.lines[n := s.lines[n].(worker := Free)]
            && if IdOf(m).req !in s.ids.left then (m.Answer? ==> m.key.ev.DelEv?) && s'.log == s.log && s'.ids == s.ids
               else
                 var x := s.ids.left[IdOf(m).req];
                 && IdOf(m).func == x.id.func && IdOf(m).inst == x.id.inst && x.xapp in s.addr
                 && s'.log == s.log + [Delivery(s.addr[x.xapp], WithId(m, x.id), m)]
                 && if m.Answer? && m.key.ev != SubEv then x in s.ids.right && s'.ids == Remove(s.ids, x) else s'.ids == s.ids
  {
    hide Step, Then;
    var o := Then(Then(Next(s), WorkerStep(n)), WorkerStep(n));
    var m := s.lines[n].worker.m;
    LookupSteps(s, n, o);
    if IdOf(m).req in s.ids.left {
      StepOf(o);
      ForwardSteps(o.s, n, m, s.ids.left[IdOf(m).req], s');
      assert s'.lines == s.lines[n := s.lines[n].(worker := Free)];
    }
  }

  lemma StepOf(o: Outcome)
    requires o.Next?
    ensures forall a :: Then(o, a) == Then(Next(o.s), a)
  {
  }

  // ----- the near-RT RIC -----

  class NearRic {
    var reqId: nat
    const pending: Bimap<nat, Key>
    /** What has been sent to each connected E2 node and not been taken by it. */
    var sent: map<NodeId, seq<Key>>

    ghost predicate Valid()
      reads this, pending
    {
      pending.Valid() && 0 !in pending.left
    }

    ghost predicate Mirrors(s: Sys)
      reads this, pending
    {
      && reqId == s.reqId && pending.right.Keys == s.pending
      && sent.Keys == s.lines.Keys && (forall n <- sent :: sent[n] == s.lines[n].down)
    }

    constructor (nodes: set<NodeId>)
      ensures Valid() && Mirrors(InitState(nodes)) && fresh(pending)
    {
      pending := new Bimap();
      reqId := FIRST_REQ;
      sent := map n | n in nodes :: [];
    }

    /** The timer gets any descriptor that no other timer holds; a closed one may come again. */
    method ArmPendingEvent(key: Key)
      requires Valid() && key !in pending.right
      modifies pending
      ensures Valid() && pending.right.Keys == old(pending.right.Keys) + {key}
    {
      SomeFree({0} + pending.left.Keys);
      var fd: nat :| fd !in {0} + pending.left.Keys;
      pending.Insert(fd, key);
    }

    /** fwd_ric_subscription_request and fwd_ric_control_request: the id is overwritten in place, so
        the caller's request changes too. */
    method FwdRequest(node: NodeId, id: RicId, kind: Kind) returns (k: nat, id': RicId)
      requires Valid() && node in sent
      requires Key(EvOf(kind), id.(req := Overwrite16(id.req, Draw(reqId)))) !in pending.right
      modifies this, pending
      ensures Valid() && reqId == old(reqId) + 1
      ensures k == Draw(old(reqId)) && id' == id.(req := Overwrite16(id.req, k))
      ensures pending.right.Keys == old(pending.right.Keys) + {Key(EvOf(kind), id')}
      ensures sent == old(sent)[node := old(sent)[node] + [Key(EvOf(kind), id')]]
    {
      k := Draw(reqId);
      reqId := reqId + 1;
      id' := id.(req := Overwrite16(id.req, k));
      ArmPendingEvent(Key(EvOf(kind), id'));
      sent := sent[node := sent[node] + [Key(EvOf(kind), id')]];
    }

    /** fwd_ric_subscription_request_delete: at most one delete is pending per id. */
    method FwdDelete(node: NodeId, id: RicId)
      requires Valid() && (Key(DelEv, id) !in pending.right ==> node in sent)
      modifies this, pending
      ensures Valid() && reqId == old(reqId) && Key(DelEv, id) in pending.right
      ensures pending.right.Keys == old(pending.right.Keys) + {Key(DelEv, id)}
      ensures sent == if Key(DelEv, id) in old(pending.right) then old(sent) else old(sent)[node := old(sent)[node] + [Key(DelEv, id)]]
    {
      if Key(DelEv, id) in pending.right {
        return;
      }
      ArmPendingEvent(Key(DelEv, id));
      sent := sent[node := sent[node] + [Key(DelEv, id)]];
    }

    /** stop_pending_event: the entry must be there. */
    method StopPendingEvent(key: Key)
      requires Valid() && key in pending.right
      modifies pending
      ensures Valid() && pending.right.Keys == old(pending.right.Keys) - {key}
    {
      var fd := pending.ExtractRight(key);
      assert fd > 0;
    }
  }

  // ----- the iApp -----

  class Iapp {
    const ids: MapRicId
    const ric: NearRic
    var addr: map<nat, Addr>
    var xappId: nat
    /** What has been sent to the xApps. */
    var outbox: seq<(Addr, Up)>

    ghost predicate Valid()
      reads this, ids, ids.right, ric, ric.pending
    {
      ids.Valid() && ric.Valid()
    }

    /** The tables hold what the state of the broker holds. */
    ghost predicate Mirrors(s: Sys)
      reads this, ids, ids.right, ric, ric.pending
    {
      && ric.Mirrors(s) && ids.model == s.ids && addr == s.addr && xappId == s.nextXapp
      && |outbox| == |s.log| && (forall i :: 0 <= i < |outbox| ==> outbox[i] == (s.log[i].to, s.log[i].m))
    }

    constructor (nodes: set<NodeId>)
      ensures Valid() && Mirrors(InitState(nodes))
      ensures fresh(ids) && fresh(ids.right) && fresh(ric) && fresh(ric.pending)
    {
      ids := new MapRicId();
      ric := new NearRic(nodes);
      addr, xappId, outbox := map[], FIRST_XAPP, [];
    }

    /** E42 setup: numbers the xApp and registers its address under the number narrowed to 16 bits. */
    method OnSetup(a: Addr, ghost s: Sys)
      requires Valid() && Mirrors(s) && Step(s, Connect(a)).Next?
      modifies this
      ensures Valid() && Mirrors(Step(s, Connect(a)).s)
    {
      var x := Draw(xappId);
      xappId := xappId + 1;
      assert x !in addr;
      addr := addr[x := a];
    }

    /** Subscription and control requests; m is the oldest message of xApp x. */
    method OnRequest(x: nat, m: XMsg, ghost s: Sys)
      requires Valid() && Mirrors(s) && m.Request? && x in s.xapps && s.xapps[x].out != [] && m == s.xapps[x].out[0]
      requires Then(Next(s), TakeRequest(x)).Next? && RequestDone(Then(Next(s), TakeRequest(x)).s).Next?
      modifies this, ids, ids.right, ric, ric.pending
      ensures Valid() && Mirrors(RequestDone(Then(Next(s), TakeRequest(x)).s).s)
    {
      hide Lists, TotalOrder, Bijective, Inverse, DoWork;
      ghost var t := Then(Next(s), TakeRequest(x)).s;
      RequestSteps(t, RequestDone(t).s);
      hide RequestDone, Then;
      assert x < ID_SPACE && x <= xappId && m.node in ric.sent;
      var key := XKey(x, m.id);
      var k, id' := ric.FwdRequest(m.node, m.id, m.kind);
      ids.AddMapRicId(Entry(id'.(req := k), m.node, m.kind), key);
    }

    /** Subscription delete requests: looks the request up and forwards the delete under the xApp's
        RAN function and instance and the id drawn for what was found. */
    method OnDelete(x: nat, id: RicId, ghost s: Sys)
      requires Valid() && Mirrors(s) && CanTake(s, x, (m: XMsg) => m.Delete?) && s.xapps[x].out[0].id == id
      requires forall y <- s.ids.right :: s.ids.right[y].id == y.id.(req := s.ids.right[y].id.req)
      requires forall found :: Found(s.ids.right, id, found) ==> DeleteDone(s, x, found).Next?
      modifies this, ids, ids.right, ric, ric.pending
      ensures Valid() && exists found :: Found(s.ids.right, id, found) && Mirrors(DeleteDone(s, x, found).s)
    {
      hide TotalOrder, Lists, Bijective, Inverse, Found, DeleteDone, Step;
      var found := ids.FindRicReq(XKey(x, id));
      TakenDelete(s, x, found);
      FoundAgrees(s.ids.right, id, found);
      assert found.Some? && found.value.kind == Subscription;
      ric.FwdDelete(found.value.node, id.(req := found.value.id.req));
      assert Mirrors(DeleteDone(s, x, found).s);
    }

    lemma JobUnseen(s: Sys, j: Job)
      requires Mirrors(s)
      ensures Mirrors(s.(job := j))
    {
    }

    /** gen_e2ap_subs_delete. */
    method GenSubsDelete(e: Entry, ghost s: Sys)
      requires Valid() && Mirrors(s) && s.job.Deleting? && s.job.todo != [] && s.job.todo[0] == e
      requires Key(DelEv, e.id) !in s.pending ==> e.node in s.lines
      modifies this, ids, ids.right, ric, ric.pending
      ensures Valid() && Mirrors(FirstDelete(s))
    {
      hide Lists, TotalOrder, Bijective, Inverse;
      ric.FwdDelete(e.node, e.id);
    }

    lemma ByeTaken(s: Sys, x: nat, subs: seq<Entry>)
      requires Mirrors(s) && CanTake(s, x, (m: XMsg) => m.Bye?) && AllSubs(s.ids.right, x, subs)
      ensures Step(s, TakeBye(x, subs)) == Next(Pop(s, x).(job := Deleting(subs)))
      ensures Mirrors(Pop(s, x).(job := Deleting(subs)))
    {
    }

    /** rm_if_pending_subs: deletes all subscriptions of an xApp that disconnected. */
    method OnDisconnect(x: nat, ghost s: Sys)
      requires Valid() && Mirrors(s) && CanTake(s, x, (m: XMsg) => m.Bye?)
      requires forall subs :: AllSubs(s.ids.right, x, subs) ==> DeletesDone(Pop(s, x).(job := Deleting(subs))).Next?
      modifies this, ids, ids.right, ric, ric.pending
      ensures Valid()
      ensures exists subs :: Step(s, TakeBye(x, subs)).Next? && Mirrors(DeletesDone(Step(s, TakeBye(x, subs)).s).s)
    {
      hide TotalOrder, Lists;
      var subs := ids.FindAllSubs(x);
      ghost var t := Step(s, TakeBye(x, subs)).s;
      ghost var t' := DeletesDone(t).s;
      ByeTaken(s, x, subs);
      hide Step, AllSubs, Lists, TotalOrder, Bijective, FirstDelete, Mirrors, Valid;
      for i := 0 to |subs|
        invariant Valid() && Mirrors(t) && t.job == Deleting(subs[i..]) && DeletesDone(t) == Next(t')
      {
        DeleteSteps(t, t');
        assert t.job.todo[0] == subs[i] && t.job.todo[1..] == subs[i + 1..];
        hide DeletesDone;
        GenSubsDelete(subs[i], t);
        t := FirstDelete(t);
      }
      NoDeletesLeft(t, t');
      JobUnseen(t, Idle);
    }

    /** The part of the iApp: looks the id up, forwards under the xApp's own id, and removes the entry
        of an answered delete or control request; late delete responses and indications are dropped. */
    method Forward(m: Up)
      requires ids.Valid() && IdOf(m).req > 0
      requires IdOf(m).req !in ids.model.left ==> m.Answer? ==> m.key.ev.DelEv?
      requires IdOf(m).req in ids.model.left ==>
                 var x := ids.model.left[IdOf(m).req];
                 IdOf(m).func == x.id.func && IdOf(m).inst == x.id.inst && x.xapp in addr && x in ids.model.right
      modifies this`outbox, ids, ids.right
      ensures ids.Valid()
      ensures IdOf(m).req !in old(ids.model.left) ==> outbox == old(outbox) && ids.model == old(ids.model)
      ensures IdOf(m).req in old(ids.model.left) ==>
                var x := old(ids.model.left)[IdOf(m).req];
                && outbox == old(outbox) + [(addr[x.xapp], WithId(m, x.id))]
                && ids.model == if m.Answer? && m.key.ev != SubEv then Remove(old(ids.model), x) else old(ids.model)
    {
      hide Lists, TotalOrder, Bijective;
      var found := ids.FindXapp(IdOf(m).req);
      if found == None {
        assert m.Answer? ==> m.key.ev.DelEv?;
        return;
      }
      var x := found.value;
      assert IdOf(m).func == x.id.func && IdOf(m).inst == x.id.inst;
      outbox := outbox + [(addr[x.xapp], WithId(m, x.id))];
      if m.Answer? && m.key.ev != SubEv {
        ids.RmMapRicId(x);
      }
    }

    /** Subscription and delete responses, control acknowledges and indications, first at the near-RT
        RIC and then at the iApp. */
    method OnMessage(n: NodeId, m: Up, ghost s: Sys)
      requires Valid() && Mirrors(s) && n in s.lines && s.lines[n].worker == Busy(m, Received) && !LockHeld(s.job)
      requires MessageDone(s, n).Next?
      modifies this, ids, ids.right, ric, ric.pending
      ensures Valid() && Mirrors(MessageDone(s, n).s)
    {
      hide MessageDone, Lists, TotalOrder, Inverse, Remove, WithId, DoWorkerStep;
      MessageSteps(s, n, MessageDone(s, n).s);
      assert Bijective(s.ids);
      if m.Answer? {
        ric.StopPendingEvent(m.key);
      }
      Forward(m);
    }
  }

  /** What taking a delete and carrying it out changes in the tables. */
  lemma TakenDelete(s: Sys, x: nat, found: Option<Entry>)
    requires DeleteDone(s, x, found).Next?
    ensures found.Some? && found.value.kind == Subscription
    ensures var e := found.value;
            var key := Key(DelEv, e.id);
            var t := DeleteDone(s, x, found).s;
            && (key !in s.pending ==> e.node in s.lines)
            && t.ids == s.ids && t.reqId == s.reqId && t.addr == s.addr && t.nextXapp == s.nextXapp && t.log == s.log
            && t.pending == s.pending + {key}
            && t.lines == if key in s.pending then s.lines else Send(s, e.node, key).lines
  {
    var t := Step(s, TakeDelete(x, found)).s;
    assert t.job == Deleting([found.value]);
    hide DeletesDone, Step;
    OneDelete(t, DeletesDone(t).s);
  }

  lemma FoundAgrees(right: map<XKey, Entry>, id: RicId, found: Option<Entry>)
    requires Found(right, id, found) && found.Some?
    requires forall y <- right :: right[y].id == y.id.(req := right[y].id.req)
    ensures id.(req := found.value.id.req) == found.value.id
  {
  }

  /** A list of one delete. */
  lemma OneDelete(s: Sys, s': Sys)
    requires s.job.Deleting? && |s.job.todo| == 1 && DeletesDone(s) == Next(s')
    ensures var e := s.job.todo[0];
            var key := Key(DelEv, e.id);
            && (key !in s.pending ==> e.node in s.lines)
            && s' == (if key in s.pending then s else Send(s, e.node, key).(pending := s.pending + {key}, deleted := s.deleted + {e.id.req})).(job := Idle)
  {
    DeleteSteps(s, s');
  }
}
