/** What the broker promises, over every schedule of its threads. */
module BrokerTheorems {
  import opened RicIds
  import opened IdMaps
  import opened Broker
  import opened BrokerInv
  import opened BrokerSteps
  import opened BrokerWork
  import opened BrokerWorkers
  import opened BrokerClean
  import opened BrokerGone
  import opened BrokerSafety

  lemma InvParts(s: Sys)
    requires Inv(s)
    ensures OriginInv(s) && IdsInv(s) && LinesInv(s) && PendInv(s) && KindInv(s) && JobInv(s)
    ensures AddrInv(s) && QueueInv(s) && AskInv(s) && LogInv(s)
  {
  }

  // ----- deliveries -----

  /** d went to the xApp that made request a, under exactly the id a carries and with a content that
      fits; its source is the request the RIC id was drawn for. */
  ghost predicate Delivers(s: Sys, d: Delivery, a: XKey) {
    && a in s.asked && a.xapp in s.addr
    && d.to == s.addr[a.xapp] && IdOf(d.m) == a.id
    && (match d.m
        case Answer(key) => key.ev == EvOf(s.asked[a].1) || (key.ev == DelEv && s.asked[a].1 == Subscription)
        case Indication(_, _) => s.asked[a].1 == Subscription)
    && IdOf(d.src).req in s.origin && s.origin[IdOf(d.src).req] == Origin(a, s.asked[a].0, s.asked[a].1)
    && d.src == WithId(d.m, IdOf(d.src))
  }

  /** Every message sent has one request it belongs to, and its address is no other xApp's. */
  ghost predicate RightDeliveries(s: Sys) {
    && (forall d <- s.log :: exists a :: Delivers(s, d, a) && (forall b :: Delivers(s, d, b) ==> b == a))
    && (forall d <- s.log, a, x :: Delivers(s, d, a) && x in s.addr && s.addr[x] == d.to ==> x == a.xapp)
  }

  lemma CorrectDelivers(s: Sys, d: Delivery)
    requires AskInv(s) && LogInv(s) && d in s.log
    ensures Delivers(s, d, s.origin[IdOf(d.src).req].x)
  {
    assert Correct(s.origin, s.addr, d);
  }

  lemma AllDelivered(s: Sys)
    requires AddrInv(s) && AskInv(s) && LogInv(s)
    ensures RightDeliveries(s)
  {
    hide AskInv, LogInv;
    forall d <- s.log ensures exists a :: Delivers(s, d, a) && (forall b :: Delivers(s, d, b) ==> b == a) {
      CorrectDelivers(s, d);
      assert Delivers(s, d, s.origin[IdOf(d.src).req].x);
    }
  }

  /** Every message the iApp sends goes to the address of the xApp that made the request behind it,
      and to no other, and carries the id that xApp chose. */
  lemma DeliveriesAreCorrect(nodes: set<NodeId>, acts: seq<Action>, s: Sys)
    requires Run(nodes, acts) == Next(s) && InBudget(s)
    ensures RightDeliveries(s)
  {
    hide *;
    Reached(nodes, acts, s);
    InvParts(s);
    AllDelivered(s);
  }

  /** No xApp gets the same answer twice. */
  ghost predicate NoRepeats(s: Sys) {
    forall i, j :: 0 <= i < j < |s.log| && s.log[i].m.Answer? ==> s.log[i].to != s.log[j].to || s.log[i].m != s.log[j].m
  }

  lemma SameMessageSameSource(s: Sys, c: Delivery, d: Delivery)
    requires OriginInv(s) && AddrInv(s) && LogInv(s)
    requires c in s.log && d in s.log && c.to == d.to && c.m == d.m
    ensures c.src == d.src && (c.m.Answer? ==> c.src.Answer?)
  {
    assert Correct(s.origin, s.addr, c) && Correct(s.origin, s.addr, d);
    assert s.origin[IdOf(c.src).req].x == s.origin[IdOf(d.src).req].x;
  }

  lemma NeverRepeated(s: Sys)
    requires OriginInv(s) && AddrInv(s) && LogInv(s)
    ensures NoRepeats(s)
  {
    forall i, j | 0 <= i < j < |s.log| && s.log[i].m.Answer? ensures s.log[i].to != s.log[j].to || s.log[i].m != s.log[j].m {
      assert s.log[i] in s.log && s.log[j] in s.log;
      if s.log[i].to == s.log[j].to && s.log[i].m == s.log[j].m {
        SameMessageSameSource(s, s.log[i], s.log[j]);
      }
    }
  }

  lemma AnswersNeverRepeat(nodes: set<NodeId>, acts: seq<Action>, s: Sys)
    requires Run(nodes, acts) == Next(s) && InBudget(s)
    ensures NoRepeats(s)
  {
    hide *;
    Reached(nodes, acts, s);
    InvParts(s);
    NeverRepeated(s);
  }

  // ----- registration -----

  /** The worker of n, about to look up its message, finds the id unless the message is a delete
      response or an indication that comes late; what it finds agrees on RAN function and instance. */
  ghost predicate Registered(s: Sys, n: NodeId)
    requires n in s.lines && s.lines[n].worker.Busy?
  {
    var m := s.lines[n].worker.m;
    && (m.Answer? && m.key.ev != DelEv ==> IdOf(m).req in s.ids.left)
    && (IdOf(m).req in s.ids.left ==>
          var x := s.ids.left[IdOf(m).req];
          && IdOf(m) == x.id.(req := IdOf(m).req) && x in s.asked && s.asked[x].0 == n
          && Resolve(s, n, m) == Next(SetWorker(s, n, Busy(m, Resolved(x)))))
    && (IdOf(m).req !in s.ids.left ==> Resolve(s, n, m) == Next(SetWorker(s, n, Free)))
  }

  lemma WorkerRegistered(s: Sys, n: NodeId)
    requires OriginInv(s) && IdsInv(s) && AskInv(s) && LineOk(s, n) && s.lines[n].worker.Busy? && !LockHeld(s.job)
    ensures Registered(s, n)
  {
    ResolveSucceeds(s, n);
    WorkerKnown(s, n);
  }

  /** No answer overtakes its registration: a worker that gets the lock finds the id. */
  lemma NoAnswerOvertakes(nodes: set<NodeId>, acts: seq<Action>, s: Sys, n: NodeId)
    requires Run(nodes, acts) == Next(s) && InBudget(s)
    requires n in s.lines && s.lines[n].worker.Busy? && !LockHeld(s.job)
    ensures Registered(s, n)
  {
    hide *;
    Reached(nodes, acts, s);
    InvParts(s);
    LineIsOk(s, n);
    WorkerRegistered(s, n);
  }

  lemma LookupNeedsLock(s: Sys, n: NodeId)
    requires OriginInv(s) && KindInv(s) && JobInv(s) && LineOk(s, n) && s.job.Sent?
    requires s.lines[n].worker.Busy? && s.lines[n].worker.m.Answer? && s.lines[n].worker.m.key.id == s.job.e.id
    ensures Resolve(s, n, s.lines[n].worker.m) == Fails(Unregistered)
  {
    WorkerKnown(s, n);
    FlowKnown(s, n, s.lines[n], s.lines[n].worker.m.key);
    assert FlowKey(s.origin, s.ids.left, s.deleted, Registering(s.job), n, s.lines[n].worker.m.key);
  }

  /** The lock is what it takes: between sending and registering the lookup is blocked, and would
      fail if it were not. */
  lemma OvertakenAnswerFails(nodes: set<NodeId>, acts: seq<Action>, s: Sys, n: NodeId)
    requires Run(nodes, acts) == Next(s) && InBudget(s) && s.job.Sent?
    requires n in s.lines && s.lines[n].worker.Busy? && s.lines[n].worker.stage.Released?
    requires s.lines[n].worker.m.Answer? && s.lines[n].worker.m.key.id == s.job.e.id
    ensures Step(s, WorkerStep(n)) == Blocked && Resolve(s, n, s.lines[n].worker.m) == Fails(Unregistered)
  {
    hide *;
    LookupWaits(s, n);
    Reached(nodes, acts, s);
    InvParts(s);
    LineIsOk(s, n);
    LookupNeedsLock(s, n);
  }

  lemma LookupWaits(s: Sys, n: NodeId)
    requires s.job.Sent? && n in s.lines && s.lines[n].worker.Busy? && s.lines[n].worker.stage.Released?
    ensures Step(s, WorkerStep(n)) == Blocked
  {
  }

  // ----- the id table -----

  /** The table is a bijection between ids and requests that were made, and each pair agrees on RAN
      function and instance. */
  ghost predicate TableSound(s: Sys) {
    && Bijective(s.ids)
    && (forall x <- s.ids.right ::
          && x in s.asked && (s.ids.right[x].node, s.ids.right[x].kind) == s.asked[x]
          && s.ids.right[x].id == x.id.(req := s.ids.right[x].id.req))
  }

  lemma SoundTable(s: Sys)
    requires IdsInv(s) && AskInv(s)
    ensures TableSound(s)
  {
    forall x <- s.ids.right
      ensures x in s.asked && (s.ids.right[x].node, s.ids.right[x].kind) == s.asked[x]
      ensures s.ids.right[x].id == x.id.(req := s.ids.right[x].id.req)
    {
      TableFromOrigin(s, x);
    }
  }

  lemma TableIsSound(nodes: set<NodeId>, acts: seq<Action>, s: Sys)
    requires Run(nodes, acts) == Next(s) && InBudget(s)
    ensures TableSound(s)
  {
    hide *;
    Reached(nodes, acts, s);
    InvParts(s);
    SoundTable(s);
  }

  // ----- pending events -----

  /** The pending events are exactly the requests whose answer no worker has handled yet, and no line
      holds such a request twice. */
  ghost predicate PendingExact(s: Sys) {
    && (forall key :: key in s.pending <==> Unsent(s.job) == Some(key) || exists n :: n in s.lines && key in Waiting(s.lines[n]))
    && (forall n <- s.lines :: Distinct(Waiting(s.lines[n])))
    && (forall n <- s.lines :: Unsent(s.job).Some? ==> Unsent(s.job).value !in Waiting(s.lines[n]))
  }

  ghost predicate Distinct<T>(q: seq<T>) {
    forall i, j :: 0 <= i < j < |q| ==> q[i] != q[j]
  }

  lemma WaitingIsPending(s: Sys, key: Key)
    requires OriginInv(s) && LinesInv(s) && PendInv(s)
    ensures key in s.pending <==> Unsent(s.job) == Some(key) || exists n :: n in s.lines && key in Waiting(s.lines[n])
  {
    if n :| n in s.lines && key in Waiting(s.lines[n]) {
      LineIsOk(s, n);
      SplitFlow(s.lines[n]);
      FlowKnown(s, n, s.lines[n], key);
    }
  }

  lemma WaitingDistinct(l: Line)
    requires Single(l)
    ensures Distinct(Waiting(l))
  {
    SplitFlow(l);
    forall i, j | 0 <= i < j < |Waiting(l)| ensures Waiting(l)[i] != Waiting(l)[j] {
      if Waiting(l)[i] == Waiting(l)[j] && Handled(l.worker) {
        FreeSingle(l, i, j);
      }
    }
  }

  lemma UnsentIsApart(s: Sys, n: NodeId)
    requires LineOk(s, n) && JobInv(s) && Unsent(s.job).Some?
    ensures Unsent(s.job).value !in Waiting(s.lines[n])
  {
    var key := Unsent(s.job).value;
    SplitFlow(s.lines[n]);
    if key in Waiting(s.lines[n]) {
      FlowKnown(s, n, s.lines[n], key);
    }
  }

  lemma ExactlyPending(s: Sys)
    requires OriginInv(s) && LinesInv(s) && PendInv(s) && JobInv(s)
    ensures PendingExact(s)
  {
    hide OriginInv, LinesInv, PendInv, JobInv, Waiting;
    forall key ensures key in s.pending <==> Unsent(s.job) == Some(key) || exists n :: n in s.lines && key in Waiting(s.lines[n]) {
      WaitingIsPending(s, key);
    }
    forall n <- s.lines ensures Distinct(Waiting(s.lines[n])) && (Unsent(s.job).Some? ==> Unsent(s.job).value !in Waiting(s.lines[n])) {
      LineIsOk(s, n);
      WaitingDistinct(s.lines[n]);
      if Unsent(s.job).Some? { UnsentIsApart(s, n); }
    }
  }

  lemma PendingIsConserved(nodes: set<NodeId>, acts: seq<Action>, s: Sys)
    requires Run(nodes, acts) == Next(s) && InBudget(s)
    ensures PendingExact(s)
  {
    hide *;
    Reached(nodes, acts, s);
    InvParts(s);
    ExactlyPending(s);
  }

  // ----- assertions -----

  /** Looking up a delete for id yields no subscription: there is no entry under id, or the first one, that
      of the least xApp, belongs to a control request. */
  ghost predicate NoSubscription(right: map<XKey, Entry>, id: RicId) {
    || (forall z: nat :: XKey(z, id) !in right)
    || (exists y :: FirstMatch(right, id, y) && right[y].kind == Control)
  }

  /** The oldest message of xApp x is a delete that can be taken, and found is what its lookup yields. */
  ghost predicate LooksUp(s: Sys, x: nat, found: Option<Entry>) {
    CanTake(s, x, (m: XMsg) => m.Delete?) && Found(s.ids.right, s.xapps[x].out[0].id, found)
  }

  /** The step looks up a delete whose lookup yields no subscription. */
  ghost predicate MissesSubscription(s: Sys, a: Action) {
    a.TakeDelete? && LooksUp(s, a.xapp, a.found) && NoSubscription(s.ids.right, s.xapps[a.xapp].out[0].id)
  }

  lemma LookupFailsIff(s: Sys, x: nat, found: Option<Entry>)
    requires LooksUp(s, x, found)
    ensures DoTakeDelete(s, x, found).Fails? <==> NoSubscription(s.ids.right, s.xapps[x].out[0].id)
  {
    var id := s.xapps[x].out[0].id;
    if found.Some? {
      var y :| FirstMatch(s.ids.right, id, y) && s.ids.right[y] == found.value;
      assert XKey(y.xapp, id) == y;
      forall z | FirstMatch(s.ids.right, id, z) ensures z == y {
        assert XKey(z.xapp, id) == z;
      }
    }
  }

  /** An assertion of the broker fires, in any state of any schedule and with any step, exactly when a
      delete is looked up and the lookup yields no subscription. */
  lemma AssertionFiresIff(nodes: set<NodeId>, acts: seq<Action>, s: Sys, a: Action)
    requires Run(nodes, acts) == Next(s) && InBudget(s)
    ensures Step(s, a).Fails? <==> MissesSubscription(s, a)
  {
    if a.TakeDelete? {
      assert Step(s, a) == DoTakeDelete(s, a.xapp, a.found);
      assert !LooksUp(s, a.xapp, a.found) ==> Step(s, a) == Blocked;
      if LooksUp(s, a.xapp, a.found) {
        LookupFailsIff(s, a.xapp, a.found);
      }
    } else if Step(s, a).Fails? {
      hide *;
      Reached(nodes, acts, s);
      OnlyForeignDeletesFail(s, a);
    }
  }

  /** Every state on the way was within the budget. */
  ghost predicate Budgeted(nodes: set<NodeId>, acts: seq<Action>) {
    forall i :: 0 <= i < |acts| && Run(nodes, acts[..i]).Next? ==> InBudget(Run(nodes, acts[..i]).s)
  }

  /** Step i of the schedule is reached and misses. */
  ghost predicate MissesAt(nodes: set<NodeId>, acts: seq<Action>, i: int) {
    0 <= i < |acts| && Run(nodes, acts[..i]).Next? && MissesSubscription(Run(nodes, acts[..i]).s, acts[i])
  }

  lemma BudgetedFront(nodes: set<NodeId>, acts: seq<Action>)
    requires Budgeted(nodes, acts) && acts != []
    ensures Budgeted(nodes, acts[..|acts| - 1])
  {
    var front := acts[..|acts| - 1];
    forall i | 0 <= i < |front| && Run(nodes, front[..i]).Next? ensures InBudget(Run(nodes, front[..i]).s) {
      assert front[..i] == acts[..i];
    }
  }

  /** A schedule ends in a failed assertion exactly when one of its steps misses. */
  lemma {:induction false} RunFailsIff(nodes: set<NodeId>, acts: seq<Action>)
    requires Budgeted(nodes, acts)
    ensures Run(nodes, acts).Fails? <==> exists i :: MissesAt(nodes, acts, i)
  {
    hide Step, MissesSubscription, InBudget;
    if acts == [] {
    } else {
      var front, last := acts[..|acts| - 1], |acts| - 1;
      BudgetedFront(nodes, acts);
      RunFailsIff(nodes, front);
      if Run(nodes, front).Next? {
        AssertionFiresIff(nodes, front, Run(nodes, front).s, acts[last]);
      }
      assert MissesAt(nodes, acts, last) <==> Run(nodes, front).Next? && MissesSubscription(Run(nodes, front).s, acts[last]);
      forall i | i != last ensures MissesAt(nodes, acts, i) <==> MissesAt(nodes, front, i) {
        if 0 <= i < last {
          assert front[..i] == acts[..i] && front[i] == acts[i];
        }
      }
    }
  }

  /** In a schedule whose deletes meet no foreign entry, no assertion of the program fires. */
  lemma {:induction false} CleanRunsNeverFail(nodes: set<NodeId>, acts: seq<Action>)
    requires Clean(nodes, acts) && Budgeted(nodes, acts)
    ensures !Run(nodes, acts).Fails?
  {
    hide Step, CleanStep, CleanInv, Inv, GoneInv, Budgeted;
    if acts == [] {
    } else {
      var front := acts[..|acts| - 1];
      BudgetedFront(nodes, acts);
      CleanRunsNeverFail(nodes, front);
      if Run(nodes, front).Next? && Run(nodes, acts).Fails? {
        LastBudgeted(nodes, acts);
        Reached(nodes, front, Run(nodes, front).s);
        OnlyForeignDeletesFail(Run(nodes, front).s, acts[|acts| - 1]);
      }
    }
  }

  lemma LastBudgeted(nodes: set<NodeId>, acts: seq<Action>)
    requires Budgeted(nodes, acts) && acts != [] && Run(nodes, acts[..|acts| - 1]).Next?
    ensures InBudget(Run(nodes, acts[..|acts| - 1]).s)
  {
  }

  /** Nothing but a delete that meets a foreign entry can ever fail. */
  lemma OnlyDeletesFail(nodes: set<NodeId>, acts: seq<Action>, s: Sys, a: Action)
    requires Run(nodes, acts) == Next(s) && InBudget(s) && Step(s, a).Fails?
    ensures a.TakeDelete? && Step(s, a).fault in {DeleteUnknown, DeleteNotSubscription}
  {
    hide Inv, CleanInv, GoneInv, CleanStep;
    Reached(nodes, acts, s);
    OnlyForeignDeletesFail(s, a);
  }

  /** The delete at the head of an xApp's queue is carried out on its own entry. */
  predicate OwnDeleted(s: Sys, x: nat, o: Outcome) {
    && o.Next? && x in s.xapps && s.xapps[x].out != [] && s.xapps[x].out[0].Delete?
    && XKey(x, s.xapps[x].out[0].id) in s.ids.right
    && o.s.job == Deleting([s.ids.right[XKey(x, s.xapps[x].out[0].id)]])
  }

  lemma CleanLookup(s: Sys, x: nat, found: Option<Entry>)
    requires Bijective(s.ids) && CleanInv(s) && LooksUp(s, x, found)
    ensures var key := XKey(x, s.xapps[x].out[0].id);
            && key in s.ids.right && s.ids.right[key].kind == Subscription && found.Some?
            && (found == Some(s.ids.right[key]) <==> forall z: nat :: z < x ==> XKey(z, key.id) !in s.ids.right)
  {
    var id := s.xapps[x].out[0].id;
    assert Wants(s.xapps[x], id);
    assert Deletable(s, XKey(x, id));
    hide CleanInv, Bijective;
    DeleteResolvesToOwnIff(s.ids, XKey(x, id), found);
  }

  lemma TakenIsFound(s: Sys, x: nat, found: Option<Entry>)
    requires LooksUp(s, x, found) && found.Some?
    ensures DoTakeDelete(s, x, found).Next? ==> DoTakeDelete(s, x, found).s.job == Deleting([found.value])
    ensures DoTakeDelete(s, x, found).Next? <==> found.value.kind == Subscription
  {
  }

  lemma OwnDeletedIff(s: Sys, x: nat, found: Option<Entry>)
    requires Bijective(s.ids) && CleanInv(s) && LooksUp(s, x, found)
    ensures OwnDeleted(s, x, DoTakeDelete(s, x, found)) <==> forall z: nat :: z < x ==> XKey(z, s.xapps[x].out[0].id) !in s.ids.right
    ensures DoTakeDelete(s, x, found).Fails? <==>
              exists y :: FirstMatch(s.ids.right, s.xapps[x].out[0].id, y) && s.ids.right[y].kind == Control
  {
    CleanLookup(s, x, found);
    TakenIsFound(s, x, found);
    LookupFailsIff(s, x, found);
    hide CleanInv, Bijective, DoTakeDelete, FirstMatch, Found;
    if OwnDeleted(s, x, DoTakeDelete(s, x, found)) {
      assert [found.value][0] == [s.ids.right[XKey(x, s.xapps[x].out[0].id)]][0];
    }
  }

  /** The delete an xApp sends for a subscription it holds is carried out on its own entry exactly when
      no xApp with a smaller id has an entry under the same RIC id, and fails exactly when the least of
      those entries belongs to a control request. */
  lemma DeleteTakesOwnIff(nodes: set<NodeId>, acts: seq<Action>, s: Sys, x: nat, found: Option<Entry>)
    requires Run(nodes, acts) == Next(s) && InBudget(s) && Clean(nodes, acts) && LooksUp(s, x, found)
    ensures x in s.xapps && s.xapps[x].out != [] && s.xapps[x].out[0].Delete?
    ensures OwnDeleted(s, x, Step(s, TakeDelete(x, found))) <==>
              forall z: nat :: z < x ==> XKey(z, s.xapps[x].out[0].id) !in s.ids.right
    ensures Step(s, TakeDelete(x, found)).Fails? <==>
              exists y :: FirstMatch(s.ids.right, s.xapps[x].out[0].id, y) && s.ids.right[y].kind == Control
  {
    assert x in s.xapps && s.xapps[x].out != [] && s.xapps[x].out[0].Delete?;
    assert Step(s, TakeDelete(x, found)) == DoTakeDelete(s, x, found);
    hide *;
    Reached(nodes, acts, s);
    TableIsSound(nodes, acts, s);
    SoundIsBijective(s);
    OwnDeletedIff(s, x, found);
  }

  lemma SoundIsBijective(s: Sys)
    requires TableSound(s)
    ensures Bijective(s.ids)
  {
  }

  // ----- quiescence -----

  /** Nothing is under way. */
  predicate Drained(s: Sys) {
    && s.job.Idle? && (forall x <- s.xapps :: s.xapps[x].out == [])
    && (forall n <- s.lines :: s.lines[n].worker.Free? && s.lines[n].up == [] && s.lines[n].down == [])
  }

  lemma DrainedFlow(s: Sys, n: NodeId)
    requires Drained(s) && n in s.lines
    ensures Flow(s.lines[n]) == [] && Waiting(s.lines[n]) == [] && Unanswered(s.lines[n]) == []
  {
  }

  /** Delivery i is the answer to request a. */
  ghost predicate Answers(s: Sys, i: nat, a: XKey)
    requires a in s.asked
  {
    && i < |s.log| && a.xapp in s.addr
    && s.log[i].to == s.addr[a.xapp] && s.log[i].m == Answer(Key(EvOf(s.asked[a].1), a.id))
  }

  lemma SomeAnswer(s: Sys, a: XKey) returns (i: nat)
    requires AskInv(s) && LogInv(s) && OriginInv(s) && Drained(s) && a in s.asked
    ensures Answers(s, i, a)
  {
    hide LogInv;
    assert Carried(s, a);
    var k :| k in s.origin && s.origin[k] == Origin(a, s.asked[a].0, s.asked[a].1);
    DrainedFlow(s, s.origin[k].node);
    i := AnswerTo(s, k);
  }

  lemma AnswerTo(s: Sys, k: nat) returns (i: nat)
    requires LogInv(s) && s.job.Idle? && k in s.origin && s.origin[k].node in s.lines && Unanswered(s.lines[s.origin[k].node]) == []
    ensures i < |s.log| && s.log[i].src == Answer(KeyOf(s.origin, k)) && Correct(s.origin, s.addr, s.log[i])
  {
    assert Answered(s, KeyOf(s.origin, k));
    i :| 0 <= i < |s.log| && s.log[i].src == Answer(KeyOf(s.origin, k));
    assert s.log[i] in s.log;
  }

  /** Once the channels are drained, every request that was made has been answered, exactly once. */
  lemma DrainedMeansAnswered(nodes: set<NodeId>, acts: seq<Action>, s: Sys, a: XKey)
    requires Run(nodes, acts) == Next(s) && InBudget(s) && Drained(s) && a in s.asked
    ensures exists i :: Answers(s, i, a) && (forall j :: Answers(s, j, a) ==> j == i)
  {
    hide Run, Inv, OriginInv, AskInv, LogInv, GoneInv, CleanInv, Drained;
    Reached(nodes, acts, s);
    InvParts(s);
    AnswersNeverRepeat(nodes, acts, s);
    var i := SomeAnswer(s, a);
    forall j | Answers(s, j, a) ensures j == i {
    }
  }

  /** No event is pending, and the id table and the indications of the agents hold exactly the
      subscriptions that were not deleted. */
  ghost predicate Settled(s: Sys) {
    && s.pending == {}
    && (forall k :: k in s.ids.left <==> k in s.origin && s.origin[k].kind == Subscription && k !in s.deleted)
    && (forall n, id :: n in s.lines ==>
          (id in s.lines[n].ind <==> id.req in s.ids.left && id.req in s.origin && id == FullId(s.origin, id.req) && s.origin[id.req].node == n))
  }

  lemma DrainedPending(s: Sys)
    requires PendInv(s) && Drained(s)
    ensures s.pending == {}
  {
    forall key ensures key !in s.pending {
      if InWaiting(s.origin, s.lines, key) {
        DrainedFlow(s, s.origin[key.id.req].node);
      }
    }
  }

  lemma DrainedTable(s: Sys, k: nat)
    requires OriginInv(s) && IdsInv(s) && KindInv(s) && Drained(s)
    ensures k in s.ids.left <==> k in s.origin && s.origin[k].kind == Subscription && k !in s.deleted
    ensures k in s.ids.left ==> KeyOf(s.origin, k).id in s.lines[s.origin[k].node].ind
    ensures k in s.origin && s.origin[k].kind == Subscription && k !in s.ids.left ==> FullId(s.origin, k) !in s.lines[s.origin[k].node].ind
  {
    if k in s.origin {
      DrainedFlow(s, s.origin[k].node);
      assert s.origin[k].kind == Subscription ==> SubInv(s, k);
    }
  }

  lemma IndKnown(s: Sys, n: NodeId, id: RicId)
    requires LineOk(s, n) && id in s.lines[n].ind
    ensures id.req in s.origin && id == FullId(s.origin, id.req) && s.origin[id.req].node == n && s.origin[id.req].kind == Subscription
  {
    assert Known(s.origin, Key(SubEv, id), n);
  }

  lemma DrainedAgent(s: Sys, n: NodeId, id: RicId)
    requires OriginInv(s) && IdsInv(s) && KindInv(s) && Drained(s) && LineOk(s, n)
    ensures id in s.lines[n].ind <==> id.req in s.ids.left && id.req in s.origin && id == FullId(s.origin, id.req) && s.origin[id.req].node == n
  {
    DrainedTable(s, id.req);
    hide OriginInv, IdsInv, KindInv, Drained, LineOk;
    if id in s.lines[n].ind {
      IndKnown(s, n, id);
    }
  }

  lemma DrainedSettles(s: Sys)
    requires OriginInv(s) && IdsInv(s) && LinesInv(s) && KindInv(s) && PendInv(s) && Drained(s)
    ensures Settled(s)
  {
    hide OriginInv, IdsInv, LinesInv, KindInv, PendInv, Drained;
    DrainedPending(s);
    forall k ensures k in s.ids.left <==> k in s.origin && s.origin[k].kind == Subscription && k !in s.deleted {
      DrainedTable(s, k);
    }
    forall n, id | n in s.lines
      ensures id in s.lines[n].ind <==> id.req in s.ids.left && id.req in s.origin && id == FullId(s.origin, id.req) && s.origin[id.req].node == n
    {
      LineIsOk(s, n);
      DrainedAgent(s, n, id);
    }
  }

  lemma DrainedMeansSettled(nodes: set<NodeId>, acts: seq<Action>, s: Sys)
    requires Run(nodes, acts) == Next(s) && InBudget(s) && Drained(s)
    ensures Settled(s)
  {
    hide *;
    Reached(nodes, acts, s);
    InvParts(s);
    DrainedSettles(s);
  }

  /** The subscription k has left nothing behind: no indication at an agent, no table entry, no pending
      event but a delete being sent again; a late indication or delete response is dropped. */
  ghost predicate NothingLeft(s: Sys, k: nat)
    requires k in s.origin
  {
    && k !in s.ids.left && (forall n <- s.lines :: FullId(s.origin, k) !in s.lines[n].ind)
    && (forall key <- s.pending :: key.id.req == k ==> Unsent(s.job) == Some(key))
    && (forall n <- s.lines, report: nat :: Resolve(s, n, Indication(FullId(s.origin, k), report)) == Next(SetWorker(s, n, Free)))
    && (forall n <- s.lines :: Resolve(s, n, Answer(DelOf(s.origin, k))) == Next(SetWorker(s, n, Free)))
  }

  lemma DeletedIsOut(s: Sys, k: nat)
    requires OriginInv(s) && KindInv(s) && k in s.deleted
    ensures k in s.origin && s.origin[k].node in s.lines && s.origin[k].kind == Subscription && k > 0
    ensures var l := s.lines[s.origin[k].node];
            DelOf(s.origin, k) !in Flow(l) ==> k !in s.ids.left && FullId(s.origin, k) !in l.ind && KeyOf(s.origin, k) !in l.down
  {
    assert SubInv(s, k);
  }

  lemma LiveInFlow(s: Sys, n: NodeId, key: Key)
    requires LineOk(s, n) && key in Waiting(s.lines[n])
    requires key.id.req !in s.ids.left && Registering(s.job) != Some(key.id.req)
    ensures key.id.req in s.origin && s.origin[key.id.req].node == n && DelOf(s.origin, key.id.req) in Flow(s.lines[n])
  {
    SplitFlow(s.lines[n]);
    FlowKnown(s, n, s.lines[n], key);
    assert FlowKey(s.origin, s.ids.left, s.deleted, Registering(s.job), n, key);
  }

  lemma NoneWaits(s: Sys, k: nat, key: Key)
    requires OriginInv(s) && LinesInv(s) && PendInv(s) && k in s.origin && s.origin[k].node in s.lines
    requires k !in s.ids.left && Registering(s.job) != Some(k) && DelOf(s.origin, k) !in Flow(s.lines[s.origin[k].node])
    requires key in s.pending && key.id.req == k
    ensures Unsent(s.job) == Some(key)
  {
    WaitingIsPending(s, key);
    if n :| n in s.lines && key in Waiting(s.lines[n]) {
      LineIsOk(s, n);
      LiveInFlow(s, n, key);
    }
  }

  lemma IndNowhereElse(s: Sys, k: nat)
    requires LinesInv(s) && k in s.origin && s.origin[k].node in s.lines && FullId(s.origin, k) !in s.lines[s.origin[k].node].ind
    ensures forall n <- s.lines :: FullId(s.origin, k) !in s.lines[n].ind
  {
    forall n <- s.lines ensures FullId(s.origin, k) !in s.lines[n].ind {
      LineIsOk(s, n);
      if FullId(s.origin, k) in s.lines[n].ind {
        IndKnown(s, n, FullId(s.origin, k));
      }
    }
  }

  lemma LateIsDropped(s: Sys, k: nat)
    requires k in s.origin && k > 0 && k !in s.ids.left
    ensures forall n <- s.lines, report: nat :: Resolve(s, n, Indication(FullId(s.origin, k), report)) == Next(SetWorker(s, n, Free))
    ensures forall n <- s.lines :: Resolve(s, n, Answer(DelOf(s.origin, k))) == Next(SetWorker(s, n, Free))
  {
  }

  lemma DeletedLeavesNothing(s: Sys, k: nat)
    requires OriginInv(s) && LinesInv(s) && PendInv(s) && KindInv(s) && k in s.deleted
    ensures k in s.origin && s.origin[k].node in s.lines
    ensures DelOf(s.origin, k) !in Flow(s.lines[s.origin[k].node]) ==> NothingLeft(s, k)
  {
    DeletedIsOut(s, k);
    assert Registering(s.job) != Some(k);
    hide OriginInv, LinesInv, PendInv, KindInv, Flow, Registering, Resolve;
    if DelOf(s.origin, k) !in Flow(s.lines[s.origin[k].node]) {
      IndNowhereElse(s, k);
      LateIsDropped(s, k);
      forall key | key in s.pending && key.id.req == k ensures Unsent(s.job) == Some(key) {
        NoneWaits(s, k, key);
      }
    }
  }

  /** Once the response to its delete was handled, a subscription has left nothing behind, however
      deletes and disconnects interleaved. */
  lemma DeletedMeansGone(nodes: set<NodeId>, acts: seq<Action>, s: Sys, k: nat)
    requires Run(nodes, acts) == Next(s) && InBudget(s) && k in s.deleted
    ensures k in s.origin && s.origin[k].node in s.lines
    ensures DelOf(s.origin, k) !in Flow(s.lines[s.origin[k].node]) ==> NothingLeft(s, k)
  {
    hide *;
    Reached(nodes, acts, s);
    InvParts(s);
    DeletedLeavesNothing(s, k);
  }

  lemma GoneIsDeleted(s: Sys, x: nat, k: nat)
    requires GoneInv(s) && Drained(s) && x in s.xapps && !s.xapps[x].open
    requires k in s.origin && s.origin[k].x.xapp == x && s.origin[k].kind == Subscription
    ensures k in s.deleted
  {
    assert Leaving(s, x);
    assert Doomed(s, k);
  }

  /** Once the channels are drained, an xApp that disconnected holds nothing: all it subscribed to was
      deleted at the agents and in the table. */
  lemma DisconnectCleansUp(nodes: set<NodeId>, acts: seq<Action>, s: Sys, x: nat)
    requires Run(nodes, acts) == Next(s) && InBudget(s) && Drained(s) && x in s.xapps && !s.xapps[x].open
    ensures forall id :: XKey(x, id) !in s.ids.right
    ensures forall k <- s.origin :: s.origin[k].x.xapp == x && s.origin[k].kind == Subscription ==>
              k in s.deleted && (forall n <- s.lines :: FullId(s.origin, k) !in s.lines[n].ind)
  {
    hide Run, Inv, OriginInv, IdsInv, LinesInv, KindInv, PendInv, JobInv, AskInv, AddrInv, QueueInv, LogInv, CleanInv, GoneInv, Drained;
    Reached(nodes, acts, s);
    InvParts(s);
    DrainedMeansSettled(nodes, acts, s);
    TableIsSound(nodes, acts, s);
    forall k | k in s.origin && s.origin[k].x.xapp == x && s.origin[k].kind == Subscription
      ensures k in s.deleted && (forall n <- s.lines :: FullId(s.origin, k) !in s.lines[n].ind)
    {
      GoneIsDeleted(s, x, k);
    }
    forall id ensures XKey(x, id) !in s.ids.right {
      if XKey(x, id) in s.ids.right {
        TableFromOrigin(s, XKey(x, id));
      }
    }
  }
}
