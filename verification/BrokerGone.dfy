/** xApps that disconnected: once the iApp has seen the bye of an xApp, all the subscriptions it ever
    made are deleted or about to be. */
module BrokerGone {
  import opened RicIds
  import opened IdMaps
  import opened Broker
  import opened BrokerInv
  import opened BrokerSteps
  import opened BrokerWork
  import opened BrokerWorkers
  import opened BrokerClean

  /** The xApp left and the iApp has taken its bye. */
  ghost predicate Gone(v: Xapp) {
    !v.open && v.out == []
  }

  ghost predicate Leaving(s: Sys, x: nat) {
    && !(s.job.Locked? && s.job.x.xapp == x)
    && (forall k <- s.origin :: s.origin[k].x.xapp == x && s.origin[k].kind == Subscription ==> Doomed(s, k))
  }

  ghost predicate GoneInv(s: Sys) {
    forall x <- s.xapps :: ByeLast(s.xapps[x]) && (Gone(s.xapps[x]) ==> Leaving(s, x))
  }

  /** Only xApps that were gone are gone, what was doomed stays so, and no request of theirs is new. */
  lemma GoneFrame(s: Sys, s': Sys)
    requires GoneInv(s) && s'.origin == s.origin && forall k :: Doomed(s, k) ==> Doomed(s', k)
    requires forall x <- s'.xapps :: ByeLast(s'.xapps[x]) && (Gone(s'.xapps[x]) ==> x in s.xapps && Gone(s.xapps[x]))
    requires s'.job.Locked? ==> s'.job == s.job || (s'.job.x.xapp in s'.xapps && !Gone(s'.xapps[s'.job.x.xapp]))
    ensures GoneInv(s')
  {
    forall x | x in s'.xapps && Gone(s'.xapps[x]) ensures Leaving(s', x) {
      assert Leaving(s, x);
    }
  }

  /** The steps of an xApp change neither the job nor what was deleted. */
  lemma XappGone(s: Sys, a: Action, s': Sys)
    requires GoneInv(s) && (a.Connect? || a.Ask? || a.AskDelete? || a.Leave?) && Step(s, a) == Next(s')
    ensures GoneInv(s')
  {
    forall k ensures Doomed(s, k) ==> Doomed(s', k) {}
    GoneFrame(s, s');
  }

  lemma PopByeLast(v: Xapp)
    requires ByeLast(v) && v.out != []
    ensures ByeLast(v.(out := v.out[1..])) && (!v.out[0].Bye? ==> !Gone(v.(out := v.out[1..])))
  {
  }

  lemma TakeGone(s: Sys, x: nat, s': Sys)
    requires GoneInv(s) && s.job.Idle? && x in s.xapps && s.xapps[x].out != [] && !s.xapps[x].out[0].Bye?
    requires s' == Pop(s, x).(job := s'.job) && (s'.job.Locked? ==> s'.job.x.xapp == x)
    ensures GoneInv(s')
  {
    PopByeLast(s.xapps[x]);
    forall k ensures Doomed(s, k) ==> Doomed(s', k) {}
    GoneFrame(s, s');
  }

  /** All subscriptions of the leaving xApp are in the table or deleted, so the listing dooms them. */
  lemma ByeDooms(s: Sys, x: nat, subs: seq<Entry>, k: nat)
    requires OriginInv(s) && IdsInv(s) && KindInv(s) && s.job.Idle? && AllSubs(s.ids.right, x, subs)
    requires k in s.origin && s.origin[k].x.xapp == x && s.origin[k].kind == Subscription
    ensures k in s.deleted || exists e <- subs :: e.id.req == k
  {
    if k !in s.deleted {
      assert SubInv(s, k);
      var ks :| SubKeys(s.ids.right, x, ks) && subs == seq(|ks|, i requires 0 <= i < |ks| => s.ids.right[ks[i]]);
      var i :| 0 <= i < |ks| && ks[i] == s.origin[k].x;
      assert subs[i] in subs && subs[i].id.req == k;
    }
  }

  lemma ByeGone(s: Sys, x: nat, subs: seq<Entry>, s': Sys)
    requires OriginInv(s) && IdsInv(s) && KindInv(s) && GoneInv(s) && DoTakeBye(s, x, subs) == Next(s')
    ensures GoneInv(s')
  {
    PopByeLast(s.xapps[x]);
    forall k | Doomed(s, k) ensures Doomed(s', k) {}
    forall y | y in s'.xapps ensures ByeLast(s'.xapps[y]) && (Gone(s'.xapps[y]) ==> Leaving(s', y)) {
      if y == x {
        forall k | k in s.origin && s.origin[k].x.xapp == x && s.origin[k].kind == Subscription ensures Doomed(s', k) {
          ByeDooms(s, x, subs, k);
        }
      } else {
        assert Gone(s.xapps[y]) ==> Leaving(s, y);
      }
    }
  }

  /** A delete is skipped only where one has been sent before. */
  lemma SkippedIsDeleted(s: Sys, e: Entry)
    requires OriginInv(s) && LinesInv(s) && PendInv(s) && Unsent(s.job) == None && Key(DelEv, e.id) in s.pending
    ensures e.id.req in s.deleted
  {
    var key := Key(DelEv, e.id);
    var n := s.origin[e.id.req].node;
    assert InWaiting(s.origin, s.lines, key);
    LineIsOk(s, n);
    SplitFlow(s.lines[n]);
    FlowKnown(s, n, s.lines[n], key);
  }

  lemma TodoDooms(s: Sys, s': Sys, k: nat)
    requires s.job.Deleting? && DoWork(s) == Next(s') && InJob(s.job, k)
    requires s.job.todo != [] && Key(DelEv, s.job.todo[0].id) in s.pending ==> s.job.todo[0].id.req in s.deleted
    ensures Doomed(s', k)
  {
    var e :| e in s.job.todo && e.id.req == k;
    if e != s.job.todo[0] {
      assert e in s.job.todo[1..];
    }
  }

  /** The job forgets a subscription only once its delete was sent. */
  lemma JobDooms(s: Sys, s': Sys, k: nat)
    requires OriginInv(s) && LinesInv(s) && PendInv(s) && DoWork(s) == Next(s') && Doomed(s, k)
    ensures Doomed(s', k)
  {
    hide OriginInv, LinesInv, PendInv;
    if s.job.Deleting? && k !in s.deleted {
      if s.job.todo != [] && Key(DelEv, s.job.todo[0].id) in s.pending {
        SkippedIsDeleted(s, s.job.todo[0]);
      }
      TodoDooms(s, s', k);
    } else {
      OtherDooms(s, s', k);
    }
  }

  lemma OtherDooms(s: Sys, s': Sys, k: nat)
    requires DoWork(s) == Next(s') && Doomed(s, k) && (k in s.deleted || !s.job.Deleting?)
    ensures Doomed(s', k)
  {
  }

  lemma ArmGone(s: Sys, s': Sys)
    requires GoneInv(s) && QueueInv(s) && Arms(s, s')
    ensures GoneInv(s')
  {
    forall k ensures Doomed(s, k) ==> Doomed(s', k) {}
    forall x | x in s'.xapps && Gone(s'.xapps[x]) ensures Leaving(s', x) {
      assert Leaving(s, x);
    }
  }

  lemma WorkShape(s: Sys, s': Sys)
    requires DoWork(s) == Next(s') && !s.job.Locked?
    ensures s'.origin == s.origin && s'.xapps == s.xapps && !s'.job.Locked?
  {
    hide DoWork;
    if LockHeld(s.job) {
      RegisterShape(s, s');
    } else {
      DeleteShape(s, s');
    }
  }

  lemma RegisterShape(s: Sys, s': Sys)
    requires DoWork(s) == Next(s') && !s.job.Locked? && LockHeld(s.job)
    ensures s'.origin == s.origin && s'.xapps == s.xapps && !s'.job.Locked?
  {
  }

  lemma DeleteShape(s: Sys, s': Sys)
    requires DoWork(s) == Next(s') && !LockHeld(s.job)
    ensures s'.origin == s.origin && s'.xapps == s.xapps && !s'.job.Locked?
  {
  }

  lemma WorkGone(s: Sys, s': Sys)
    requires Inv(s) && GoneInv(s) && DoWork(s) == Next(s') && InBudget(s')
    ensures GoneInv(s')
  {
    hide OriginInv, IdsInv, LinesInv, PendInv, KindInv, JobInv, AddrInv, QueueInv, AskInv, LogInv, GoneInv, Doomed, DoWork, Arms;
    if s.job.Locked? {
      Draws(s, s');
      ArmGone(s, s');
    } else {
      WorkShape(s, s');
      forall k | Doomed(s, k) ensures Doomed(s', k) {
        JobDooms(s, s', k);
      }
      SameGone(s, s');
    }
  }

  lemma SameGone(s: Sys, s': Sys)
    requires GoneInv(s) && s'.origin == s.origin && !s'.job.Locked? && forall k :: Doomed(s, k) ==> Doomed(s', k)
    requires s'.xapps == s.xapps
    ensures GoneInv(s')
  {
    GoneFrame(s, s');
  }

  /** A worker touches its line, the pending events, the table, the log, and what an xApp may delete. */
  ghost predicate WorkerFrame(s: Sys, o: Outcome) {
    o.Next? ==>
      && o.s == s.(lines := o.s.lines, pending := o.s.pending, ids := o.s.ids, log := o.s.log, xapps := o.s.xapps)
      && o.s.xapps.Keys == s.xapps.Keys
      && (forall x <- s.xapps :: o.s.xapps[x].open == s.xapps[x].open && o.s.xapps[x].out == s.xapps[x].out)
  }

  lemma ReleaseFrame(s: Sys, n: NodeId, m: Up)
    requires n in s.lines
    ensures WorkerFrame(s, Release(s, n, m))
  {
  }

  lemma ResolveFrame(s: Sys, n: NodeId, m: Up)
    requires n in s.lines
    ensures WorkerFrame(s, Resolve(s, n, m))
  {
  }

  lemma ReplyFrame(s: Sys, n: NodeId, m: Up, x: XKey)
    requires n in s.lines
    ensures WorkerFrame(s, Reply(s, n, m, x))
  {
  }

  lemma RemoveFrame(s: Sys, n: NodeId)
    requires n in s.lines && s.lines[n].worker.Busy? && s.lines[n].worker.stage.Replied?
    ensures WorkerFrame(s, DoWorkerStep(s, n))
  {
  }

  lemma WorkerSpares(s: Sys, n: NodeId, s': Sys)
    requires DoWorkerStep(s, n) == Next(s')
    ensures WorkerFrame(s, Next(s'))
  {
    hide Release, Resolve, Reply, WorkerFrame;
    var m := s.lines[n].worker.m;
    match s.lines[n].worker.stage
    case Received => ReleaseFrame(s, n, m);
    case Released => ResolveFrame(s, n, m);
    case Resolved(x) => ReplyFrame(s, n, m, x);
    case Replied(_) => RemoveFrame(s, n);
  }

  lemma WorkerGone(s: Sys, n: NodeId, s': Sys)
    requires GoneInv(s) && DoWorkerStep(s, n) == Next(s')
    ensures GoneInv(s')
  {
    hide DoWorkerStep;
    WorkerSpares(s, n, s');
    forall k ensures Doomed(s, k) ==> Doomed(s', k) {}
    GoneFrame(s, s');
  }

  lemma AgentGone(s: Sys, a: Action, s': Sys)
    requires GoneInv(s) && (a.AgentTake? || a.Indicate? || a.WorkerTake?) && Step(s, a) == Next(s')
    ensures GoneInv(s')
  {
    forall k ensures Doomed(s, k) ==> Doomed(s', k) {}
    GoneFrame(s, s');
  }

  lemma StepGone(s: Sys, a: Action, s': Sys)
    requires Inv(s) && GoneInv(s) && Step(s, a) == Next(s') && InBudget(s')
    ensures GoneInv(s')
  {
    hide OriginInv, IdsInv, LinesInv, PendInv, KindInv, JobInv, AddrInv, QueueInv, AskInv, LogInv, GoneInv;
    match a
    case TakeRequest(x) => TakeGone(s, x, s');
    case TakeDelete(x, _) => TakeGone(s, x, s');
    case TakeBye(x, subs) => ByeGone(s, x, subs, s');
    case Work => WorkGone(s, s');
    case WorkerStep(n) => WorkerGone(s, n, s');
    case AgentTake(_) => AgentGone(s, a, s');
    case Indicate(_, _, _) => AgentGone(s, a, s');
    case WorkerTake(_) => AgentGone(s, a, s');
    case _ => XappGone(s, a, s');
  }
}
