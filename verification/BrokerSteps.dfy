/** Every step of the broker keeps its invariant. */
module BrokerSteps {
  import opened RicIds
  import opened IdMaps
  import opened Broker
  import opened BrokerInv

  lemma {:induction false} UpKeysAppend(a: seq<Up>, b: seq<Up>)
    ensures UpKeys(a + b) == UpKeys(a) + UpKeys(b)
  {
    if a == [] {
      assert a + b == b;
    } else {
      assert (a + b)[1..] == a[1..] + b;
      UpKeysAppend(a[1..], b);
    }
  }

  // ----- steps that leave the RIC side alone -----

  /** The step touches only xApps, their addresses, what they asked for, and a job that stays out of
      the registration. */
  ghost predicate SameCore(s: Sys, s': Sys) {
    && s' == s.(xapps := s'.xapps, addr := s'.addr, nextXapp := s'.nextXapp, asked := s'.asked, job := s'.job)
    && Registering(s'.job) == Registering(s.job) && Unsent(s'.job) == Unsent(s.job)
    && (forall x <- s.addr :: x in s'.addr && s'.addr[x] == s.addr[x])
  }

  lemma CoreKeeps(s: Sys, s': Sys)
    requires OriginInv(s) && IdsInv(s) && LinesInv(s) && PendInv(s) && KindInv(s) && LogInv(s) && SameCore(s, s')
    ensures OriginInv(s') && IdsInv(s') && LinesInv(s') && PendInv(s') && KindInv(s') && LogInv(s')
  {
    forall k | k in s'.origin && s'.origin[k].node in s'.lines && s'.origin[k].kind == Subscription ensures SubInv(s', k) {
      assert SubInv(s, k);
    }
    forall d <- s'.log ensures Correct(s'.origin, s'.addr, d) && (d.src.Answer? ==> Closed(s', d.src.key)) {
      assert d.src.Answer? ==> Closed(s, d.src.key);
    }
    forall k <- s'.origin ensures Answered(s', KeyOf(s'.origin, k)) <==> Answered(s, KeyOf(s.origin, k)) {
    }
  }

  lemma ConnectKeeps(s: Sys, a: Addr, s': Sys)
    requires Inv(s) && DoConnect(s, a) == Next(s') && InBudget(s')
    ensures Inv(s')
  {
    hide OriginInv, IdsInv, LinesInv, PendInv, KindInv, QueueInv, AskInv, LogInv;
    assert Draw(s.nextXapp) == s.nextXapp;
    CoreKeeps(s, s');
    ConnectAddrs(s, a, s');
    SameQueues(s, s');
    SameAsked(s, s');
    assert JobInv(s');
  }

  lemma ConnectAddrs(s: Sys, a: Addr, s': Sys)
    requires AddrInv(s) && DoConnect(s, a) == Next(s') && InBudget(s')
    ensures AddrInv(s')
  {
    assert Draw(s.nextXapp) == s.nextXapp;
    forall x, y | x in s'.addr && y in s'.addr && s'.addr[x] == s'.addr[y] ensures x == y {
      assert x in s.addr ==> s.addr[x] in s.addr.Values;
      assert y in s.addr ==> s.addr[y] in s.addr.Values;
    }
  }

  /** Old queues kept, new ones empty. */
  lemma SameQueues(s: Sys, s': Sys)
    requires QueueInv(s) && s'.origin == s.origin && s'.job == s.job && s'.lines.Keys == s.lines.Keys && s'.asked == s.asked
    requires forall x <- s.xapps :: x in s'.xapps && s'.xapps[x] == s.xapps[x]
    requires forall x <- s'.xapps :: x !in s.xapps ==> s'.xapps[x].out == [] && s'.xapps[x].next == 1
    ensures QueueInv(s')
  {
    forall x <- s'.xapps ensures OutInv(s', x, s'.xapps[x]) {
      if x in s.xapps {
        assert OutInv(s, x, s.xapps[x]);
        forall m <- s.xapps[x].out ensures Queued(s', x, s.xapps[x].next, m) {
          assert Queued(s, x, s.xapps[x].next, m);
        }
      }
    }
  }

  lemma SameAsked(s: Sys, s': Sys)
    requires AskInv(s) && s'.origin == s.origin && s'.job == s.job && s'.asked == s.asked
    requires forall x <- s.xapps :: x in s'.xapps && s'.xapps[x].next == s.xapps[x].next && s.xapps[x].out <= s'.xapps[x].out
    ensures AskInv(s')
  {
    forall b <- s'.asked ensures Carried(s', b) {
      assert Carried(s, b);
    }
  }

  lemma AskKeeps(s: Sys, x: nat, node: NodeId, func: nat, kind: Kind, s': Sys)
    requires Inv(s) && DoAsk(s, x, node, func, kind) == Next(s')
    ensures Inv(s')
  {
    CoreKeeps(s, s');
    AskQueues(s, x, node, func, kind, s');
    AskCarried(s, x, node, func, kind, s');
    AskJob(s, x, node, func, kind, s');
  }

  lemma AskJob(s: Sys, x: nat, node: NodeId, func: nat, kind: Kind, s': Sys)
    requires JobInv(s) && QueueInv(s) && DoAsk(s, x, node, func, kind) == Next(s')
    ensures JobInv(s')
  {
  }

  lemma IncreasingSnoc(out: seq<XMsg>, m: XMsg)
    requires Increasing(out) && forall i <- out :: i.Request? && m.Request? ==> i.id.req < m.id.req
    ensures Increasing(out + [m])
  {
  }

  lemma AskQueue(s: Sys, x: nat, node: NodeId, func: nat, kind: Kind, s': Sys, y: nat)
    requires DoAsk(s, x, node, func, kind) == Next(s') && y in s.xapps && OutInv(s, y, s.xapps[y])
    requires QueueInv(s)
    ensures OutInv(s', y, s'.xapps[y])
  {
    var id := RicId(s.xapps[x].next, 0, func);
    forall m <- s'.xapps[y].out ensures Queued(s', y, s'.xapps[y].next, m) && (m in s.xapps[y].out && m.Request? ==> m.id.req < s.xapps[y].next) {
      if m in s.xapps[y].out {
        assert Queued(s, y, s.xapps[y].next, m);
      }
    }
    if y == x {
      IncreasingSnoc(s.xapps[x].out, Request(id, node, kind));
    }
  }

  lemma AskQueues(s: Sys, x: nat, node: NodeId, func: nat, kind: Kind, s': Sys)
    requires AddrInv(s) && QueueInv(s) && DoAsk(s, x, node, func, kind) == Next(s')
    ensures AddrInv(s') && QueueInv(s')
  {
    hide OutInv;
    forall y <- s'.xapps ensures OutInv(s', y, s'.xapps[y]) {
      AskQueue(s, x, node, func, kind, s', y);
    }
  }

  lemma AskCarried(s: Sys, x: nat, node: NodeId, func: nat, kind: Kind, s': Sys)
    requires AskInv(s) && QueueInv(s) && DoAsk(s, x, node, func, kind) == Next(s')
    ensures AskInv(s')
  {
    var id := RicId(s.xapps[x].next, 0, func);
    forall b <- s'.asked ensures b.xapp in s'.xapps && b.id.req < s'.xapps[b.xapp].next && Carried(s', b) {
      if b == XKey(x, id) {
        assert s'.xapps[x].out[|s.xapps[x].out|] == Request(id, node, kind);
      } else {
        assert b in s.asked && Carried(s, b);
      }
    }
  }

  /** Any other change at an xApp: it queues a message that is no request, or becomes able to delete
      one more subscription. */
  lemma QueueKeeps(s: Sys, x: nat, v: Xapp, ms: seq<XMsg>)
    requires Inv(s) && x in s.xapps && forall m <- ms :: !m.Request?
    requires v.next == s.xapps[x].next && v.out == s.xapps[x].out + ms
    ensures Inv(SetXapp(s, x, v))
  {
    hide OriginInv, IdsInv, LinesInv, PendInv, KindInv, AddrInv, QueueInv, LogInv;
    var s' := SetXapp(s, x, v);
    CoreKeeps(s, s');
    QueueQueues(s, x, v, ms);
    SameAsked(s, s');
    assert JobInv(s');
  }

  lemma QueueQueues(s: Sys, x: nat, v: Xapp, ms: seq<XMsg>)
    requires AddrInv(s) && QueueInv(s) && x in s.xapps && forall m <- ms :: !m.Request?
    requires v.next == s.xapps[x].next && v.out == s.xapps[x].out + ms
    ensures AddrInv(SetXapp(s, x, v)) && QueueInv(SetXapp(s, x, v))
  {
    var s' := SetXapp(s, x, v);
    forall y <- s'.xapps ensures OutInv(s', y, s'.xapps[y]) {
      assert OutInv(s, y, s.xapps[y]);
      forall m <- s'.xapps[y].out ensures Queued(s', y, s'.xapps[y].next, m) {
        if m in s.xapps[y].out {
          assert Queued(s, y, s.xapps[y].next, m);
        }
      }
      assert Increasing(s'.xapps[y].out) by {
        assert Increasing(s.xapps[y].out);
      }
    }
  }

  // ----- the iApp takes a message -----

  /** The iApp takes the oldest message of an xApp. */
  ghost predicate Takes(s: Sys, x: nat, s': Sys) {
    && s.job.Idle? && x in s.xapps && s.xapps[x].out != []
    && s' == Pop(s, x).(job := s'.job)
    && var m := s.xapps[x].out[0];
       if m.Request? then s'.job == Locked(XKey(x, m.id), m.node, m.kind) else s'.job.Deleting?
  }

  lemma TakeKeeps(s: Sys, x: nat, s': Sys)
    requires Inv(s) && Takes(s, x, s')
    requires s'.job.Deleting? ==> forall e <- s'.job.todo :: Doable(s.origin, e)
    ensures Inv(s')
  {
    hide OriginInv, IdsInv, LinesInv, PendInv, KindInv, JobInv, AddrInv, QueueInv, AskInv, LogInv, Takes;
    TakeCore(s, x, s');
    TakeQueues(s, x, s');
    TakeJob(s, x, s');
    TakeCarried(s, x, s');
  }

  lemma TakeCore(s: Sys, x: nat, s': Sys)
    requires OriginInv(s) && IdsInv(s) && LinesInv(s) && PendInv(s) && KindInv(s) && LogInv(s) && Takes(s, x, s')
    ensures OriginInv(s') && IdsInv(s') && LinesInv(s') && PendInv(s') && KindInv(s') && LogInv(s')
  {
    CoreKeeps(s, s');
  }

  lemma TakeJob(s: Sys, x: nat, s': Sys)
    requires QueueInv(s) && Takes(s, x, s')
    requires s'.job.Deleting? ==> forall e <- s'.job.todo :: Doable(s.origin, e)
    ensures JobInv(s')
  {
    assert OutInv(s, x, s.xapps[x]);
    assert Queued(s, x, s.xapps[x].next, s.xapps[x].out[0]);
  }

  lemma TakeCarried(s: Sys, x: nat, s': Sys)
    requires AskInv(s) && Takes(s, x, s')
    ensures AskInv(s')
  {
    forall b <- s'.asked ensures b.xapp in s'.xapps && Carried(s', b) {
      assert Carried(s, b);
    }
  }

  lemma PopIncreasing(out: seq<XMsg>)
    requires Increasing(out) && out != []
    ensures Increasing(out[1..])
    ensures out[0].Request? ==> forall m <- out[1..] :: m.Request? ==> out[0].id.req < m.id.req
  {
  }

  lemma TakenQueue(s: Sys, x: nat, s': Sys, y: nat, m: XMsg)
    requires Takes(s, x, s') && y in s.xapps && m in s'.xapps[y].out
    requires OutInv(s, x, s.xapps[x]) && OutInv(s, y, s.xapps[y])
    ensures Queued(s', y, s'.xapps[y].next, m)
  {
    PopIncreasing(s.xapps[x].out);
    hide Increasing;
    assert Queued(s, y, s.xapps[y].next, m);
  }

  lemma TakeQueues(s: Sys, x: nat, s': Sys)
    requires AddrInv(s) && QueueInv(s) && Takes(s, x, s')
    ensures AddrInv(s') && QueueInv(s')
  {
    assert OutInv(s, x, s.xapps[x]);
    assert Queued(s, x, s.xapps[x].next, s.xapps[x].out[0]);
    PopIncreasing(s.xapps[x].out);
    hide Increasing, Queued;
    forall y <- s'.xapps ensures OutInv(s', y, s'.xapps[y]) {
      assert OutInv(s, y, s.xapps[y]);
      forall m <- s'.xapps[y].out ensures Queued(s', y, s'.xapps[y].next, m) {
        TakenQueue(s, x, s', y, m);
      }
    }
  }

  lemma FoundIsDoable(s: Sys, id: RicId, e: Entry)
    requires IdsInv(s) && Found(s.ids.right, id, Some(e)) && e.kind == Subscription
    ensures Doable(s.origin, e)
  {
    var y :| FirstMatch(s.ids.right, id, y) && s.ids.right[y] == e;
    assert s.ids.left[e.id.req] == y;
  }

  lemma AllSubsAreDoable(s: Sys, xapp: nat, subs: seq<Entry>)
    requires IdsInv(s) && AllSubs(s.ids.right, xapp, subs)
    ensures forall e <- subs :: Doable(s.origin, e)
  {
    var ks :| SubKeys(s.ids.right, xapp, ks) && subs == seq(|ks|, i requires 0 <= i < |ks| => s.ids.right[ks[i]]);
    forall e <- subs ensures Doable(s.origin, e) {
      var i :| 0 <= i < |subs| && subs[i] == e;
      assert ks[i] in ks;
      assert s.ids.left[e.id.req] == ks[i];
    }
  }

  // ----- flows -----

  lemma ServeFlow(l: Line)
    requires l.down != []
    ensures SameFlow(l, Serve(l))
  {
    UpKeysAppend(l.up, [Answer(l.down[0])]);
    var u := UpKeys(l.up);
    assert u + l.down == u + [l.down[0]] + l.down[1..];
    assert WorkerKeys(l.worker) + (u + l.down) == Flow(l);
    assert WorkerKeys(l.worker) + (u + [l.down[0]] + l.down[1..]) == Flow(Serve(l));
  }

  lemma IndicateFlow(l: Line, id: RicId, report: nat)
    ensures SameFlow(l, l.(up := l.up + [Indication(id, report)]))
  {
    UpKeysAppend(l.up, [Indication(id, report)]);
    assert UpKeys(l.up) + [] == UpKeys(l.up);
  }

  lemma WorkerTakeFlow(l: Line)
    requires l.worker.Free? && l.up != []
    ensures SameFlow(l, l.(worker := Busy(l.up[0], Received), up := l.up[1..]))
  {
    var l' := l.(worker := Busy(l.up[0], Received), up := l.up[1..]);
    assert [] + UpKeys(l.up) == UpKeys(l.up);
    assert WorkerKeys(l'.worker) + UpKeys(l'.up) == UpKeys(l.up);
  }

  lemma PushFlow(l: Line, key: Key)
    ensures var l' := l.(down := l.down + [key]);
            Flow(l') == Flow(l) + [key] && Waiting(l') == Waiting(l) + [key] && Unanswered(l') == Unanswered(l) + [key]
  {
    var l' := l.(down := l.down + [key]);
    assert Flow(l') == Flow(l) + [key];
    assert UpKeys(l.up) + (l.down + [key]) == UpKeys(l.up) + l.down + [key];
  }

  /** The flow of a line is that of its worker and then the rest. */
  lemma SplitFlow(l: Line)
    ensures Flow(l) == WorkerKeys(l.worker) + (UpKeys(l.up) + l.down)
    ensures Handled(l.worker) ==> Waiting(l) == UpKeys(l.up) + l.down
  {
    assert Flow(l) == WorkerKeys(l.worker) + (UpKeys(l.up) + l.down);
  }

  /** The line changes without a request moving past the worker. */
  ghost predicate SameFlow(l: Line, l': Line) {
    && Flow(l') == Flow(l) && Waiting(l') == Waiting(l) && Unanswered(l') == Unanswered(l)
    && Handled(l'.worker) == Handled(l.worker)
    && (l.worker.Busy? ==> l'.worker == l.worker)
  }

  // ----- frames -----

  /** What a line was promised still holds after the rest of the state grew. */
  ghost predicate Grows(s: Sys, s': Sys) {
    && (forall k <- s.origin :: k in s'.origin && s'.origin[k] == s.origin[k])
    && s.deleted <= s'.deleted
    && (forall k <- s.ids.left :: k in s'.ids.left && s'.ids.left[k] == s.ids.left[k])
    && (Registering(s.job).Some? ==> Registering(s'.job) == Registering(s.job) || Registering(s.job).value in s'.ids.left)
  }

  lemma LineGrows(s: Sys, s': Sys, n: NodeId, l: Line)
    requires Grows(s, s') && LineInv(s.origin, s.ids.left, s.deleted, Registering(s.job), n, l)
    ensures LineInv(s'.origin, s'.ids.left, s'.deleted, Registering(s'.job), n, l)
  {
    forall key <- Flow(l) ensures FlowKey(s'.origin, s'.ids.left, s'.deleted, Registering(s'.job), n, key) {
      assert FlowKey(s.origin, s.ids.left, s.deleted, Registering(s.job), n, key);
    }
  }

  lemma LinesGrow(s: Sys, s': Sys)
    requires LinesInv(s) && Grows(s, s') && s'.lines == s.lines
    ensures LinesInv(s')
  {
    forall n <- s'.lines ensures LineInv(s'.origin, s'.ids.left, s'.deleted, Registering(s'.job), n, s'.lines[n]) {
      LineGrows(s, s', n, s.lines[n]);
    }
  }

  /** One line is replaced by a line that fits, the others keep fitting. */
  lemma LinesSet(s: Sys, s': Sys, n: NodeId)
    requires LinesInv(s) && Grows(s, s') && n in s.lines && n in s'.lines && s'.lines == s.lines[n := s'.lines[n]]
    requires LineInv(s'.origin, s'.ids.left, s'.deleted, Registering(s'.job), n, s'.lines[n])
    ensures LinesInv(s')
  {
    forall m <- s'.lines ensures LineInv(s'.origin, s'.ids.left, s'.deleted, Registering(s'.job), m, s'.lines[m]) {
      if m != n {
        LineGrows(s, s', m, s.lines[m]);
      }
    }
  }

  // ----- steps of the agents, and a worker taking a message -----

  /** Only line n changed, and no request moved past its worker. */
  ghost predicate Quiet(s: Sys, n: NodeId, l: Line) {
    && n in s.lines && SameFlow(s.lines[n], l)
    && LineInv(s.origin, s.ids.left, s.deleted, Registering(s.job), n, l)
    && (forall k <- s.origin :: s.origin[k].node == n && s.origin[k].kind == Subscription ==>
          (var sub, del := KeyOf(s.origin, k), DelOf(s.origin, k);
           if k in s.deleted then del !in l.down ==> sub.id !in l.ind && sub !in l.down
           else Unsent(s.job) != Some(sub) && sub !in l.down ==> sub.id in l.ind))
    && (s.job.Armed? && s.job.e.node == n ==> s.job.e.id !in l.ind)
  }

  lemma QuietKeeps(s: Sys, n: NodeId, l: Line)
    requires Inv(s) && Quiet(s, n, l)
    ensures Inv(SetLine(s, n, l))
  {
    hide OriginInv, LinesInv, PendInv, KindInv, JobInv, AddrInv, QueueInv, AskInv, LogInv;
    var s' := SetLine(s, n, l);
    LinesSet(s, s', n);
    QuietPend(s, n, l);
    QuietKind(s, n, l);
    QuietLog(s, n, l);
    RestKeeps(s, s');
    QuietJob(s, n, l);
  }

  /** The parts of the invariant that do not look into lines, pending events or the log. */
  /** The parts of the state that queues, requests and addresses do not look at may change. */
  ghost predicate SameRest(s: Sys, s': Sys) {
    && s' == s.(lines := s'.lines, pending := s'.pending, ids := s'.ids, log := s'.log, deleted := s'.deleted, job := s'.job)
    && s'.lines.Keys == s.lines.Keys && (s'.job == s.job || (!s'.job.Locked? && !s.job.Locked?))
  }

  lemma RestQueues(s: Sys, s': Sys)
    requires QueueInv(s) && SameRest(s, s')
    ensures QueueInv(s')
  {
    forall x <- s'.xapps ensures OutInv(s', x, s'.xapps[x]) {
      assert OutInv(s, x, s.xapps[x]);
      forall m <- s.xapps[x].out ensures Queued(s', x, s.xapps[x].next, m) {
        assert Queued(s, x, s.xapps[x].next, m);
      }
    }
  }

  lemma RestAsked(s: Sys, s': Sys)
    requires AskInv(s) && SameRest(s, s')
    ensures AskInv(s')
  {
    forall b <- s'.asked ensures Carried(s', b) {
      assert Carried(s, b);
    }
  }

  lemma RestKeeps(s: Sys, s': Sys)
    requires OriginInv(s) && AddrInv(s) && QueueInv(s) && AskInv(s) && SameRest(s, s')
    ensures OriginInv(s') && AddrInv(s') && QueueInv(s') && AskInv(s')
  {
    hide QueueInv, AskInv;
    RestQueues(s, s');
    RestAsked(s, s');
  }

  lemma QuietJob(s: Sys, n: NodeId, l: Line)
    requires JobInv(s) && Quiet(s, n, l)
    ensures JobInv(SetLine(s, n, l))
  {
  }

  lemma QuietPend(s: Sys, n: NodeId, l: Line)
    requires PendInv(s) && Quiet(s, n, l)
    ensures PendInv(SetLine(s, n, l))
  {
    var s' := SetLine(s, n, l);
    forall key ensures InWaiting(s'.origin, s'.lines, key) <==> InWaiting(s.origin, s.lines, key) {
    }
  }

  lemma QuietKind(s: Sys, n: NodeId, l: Line)
    requires KindInv(s) && Quiet(s, n, l)
    ensures KindInv(SetLine(s, n, l))
  {
    var s' := SetLine(s, n, l);
    forall k | k in s'.origin && s'.origin[k].node in s'.lines && s'.origin[k].kind == Subscription ensures SubInv(s', k) {
      assert SubInv(s, k);
    }
  }

  lemma QuietLog(s: Sys, n: NodeId, l: Line)
    requires LogInv(s) && Quiet(s, n, l)
    ensures LogInv(SetLine(s, n, l))
  {
    var s' := SetLine(s, n, l);
    forall d <- s'.log ensures Correct(s'.origin, s'.addr, d) && (d.src.Answer? ==> Closed(s', d.src.key)) {
      assert d.src.Answer? ==> Closed(s, d.src.key);
    }
    forall k <- s'.origin ensures Answered(s', KeyOf(s'.origin, k)) <==> Answered(s, KeyOf(s.origin, k)) {
    }
  }

  lemma LinesRest(s: Sys, s': Sys)
    requires OriginInv(s) && IdsInv(s) && AddrInv(s) && QueueInv(s) && AskInv(s)
    requires s' == s.(lines := s'.lines, pending := s'.pending, log := s'.log, deleted := s'.deleted, job := s'.job)
    requires s'.lines.Keys == s.lines.Keys && (s'.job == s.job || (!s'.job.Locked? && !s.job.Locked?))
    ensures OriginInv(s') && IdsInv(s') && AddrInv(s') && QueueInv(s') && AskInv(s')
  {
    RestKeeps(s, s');
  }

  lemma SameFlowInv(s: Sys, n: NodeId, l: Line, l': Line)
    requires FlowInv(s.origin, s.ids.left, s.deleted, Registering(s.job), n, l) && SameFlow(l, l')
    ensures FlowInv(s.origin, s.ids.left, s.deleted, Registering(s.job), n, l')
  {
  }

  /** A key that is in the flow is known; in particular no other key shares its id and event. */
  lemma FlowKnown(s: Sys, n: NodeId, l: Line, key: Key)
    requires FlowInv(s.origin, s.ids.left, s.deleted, Registering(s.job), n, l) && key in Flow(l)
    ensures Known(s.origin, key, n)
    ensures key.ev.DelEv? ==> key == DelOf(s.origin, key.id.req) && key.id.req in s.deleted
    ensures !key.ev.DelEv? ==> key == KeyOf(s.origin, key.id.req)
  {
    assert FlowKey(s.origin, s.ids.left, s.deleted, Registering(s.job), n, key);
  }

  lemma HeadOfDown(s: Sys, n: NodeId, l: Line)
    requires FlowInv(s.origin, s.ids.left, s.deleted, Registering(s.job), n, l) && l.down != []
    ensures l.down[0] in Flow(l)
    ensures l.down[0].ev.SubEv? ==> l.down[0] !in l.down[1..]
    ensures l.down[0].ev.DelEv? ==> Key(SubEv, l.down[0].id) !in l.down[1..]
  {
    var front := WorkerKeys(l.worker) + UpKeys(l.up);
    var f, m := Flow(l), |front|;
    assert f == front + l.down && Ordered(f) && Single(l);
    hide FlowInv, Flow, FlowKey;
    forall i | 0 < i < |l.down|
      ensures l.down[0].ev.SubEv? ==> l.down[i] != l.down[0]
      ensures l.down[0].ev.DelEv? ==> l.down[i] != Key(SubEv, l.down[0].id)
    {
      assert f[m] == l.down[0] && f[m + i] == l.down[i];
    }
  }

  lemma AgentTakeKeeps(s: Sys, n: NodeId, s': Sys)
    requires Inv(s) && DoAgentTake(s, n) == Next(s')
    ensures Inv(s')
  {
    ServeQuiet(s, n);
    QuietKeeps(s, n, Serve(s.lines[n]));
  }

  lemma ServeKeepsSub(s: Sys, n: NodeId, k: nat)
    requires n in s.lines && s.lines[n].down != []
    requires KindInv(s) && LineInv(s.origin, s.ids.left, s.deleted, Registering(s.job), n, s.lines[n])
    requires k in s.origin && s.origin[k].node == n && s.origin[k].kind == Subscription
    ensures var l := Serve(s.lines[n]); var sub, del := KeyOf(s.origin, k), DelOf(s.origin, k);
            if k in s.deleted then del !in l.down ==> sub.id !in l.ind && sub !in l.down
            else Unsent(s.job) != Some(sub) && sub !in l.down ==> sub.id in l.ind
  {
    var l := s.lines[n];
    var l' := Serve(l);
    var head := l.down[0];
    HeadOfDown(s, n, l);
    FlowKnown(s, n, l, head);
    assert forall key :: key in l.down <==> key == head || key in l'.down;
    assert SubInv(s, k);
  }

  lemma ServeLine(s: Sys, n: NodeId, l: Line)
    requires LineInv(s.origin, s.ids.left, s.deleted, Registering(s.job), n, l) && l.down != []
    ensures SameFlow(l, Serve(l)) && LineInv(s.origin, s.ids.left, s.deleted, Registering(s.job), n, Serve(l))
  {
    ServeFlow(l);
    SameFlowInv(s, n, l, Serve(l));
    HeadOfDown(s, n, l);
    FlowKnown(s, n, l, l.down[0]);
  }

  lemma ServeJob(s: Sys, n: NodeId)
    requires JobInv(s) && n in s.lines && s.lines[n].down != [] && s.job.Armed? && s.job.e.node == n
    requires LineInv(s.origin, s.ids.left, s.deleted, Registering(s.job), n, s.lines[n])
    ensures s.job.e.id !in Serve(s.lines[n]).ind
  {
    HeadOfDown(s, n, s.lines[n]);
    FlowKnown(s, n, s.lines[n], s.lines[n].down[0]);
  }

  lemma ServeQuiet(s: Sys, n: NodeId)
    requires LinesInv(s) && KindInv(s) && JobInv(s) && OriginInv(s)
    requires n in s.lines && s.lines[n].down != []
    ensures Quiet(s, n, Serve(s.lines[n]))
  {
    assert LineInv(s.origin, s.ids.left, s.deleted, Registering(s.job), n, s.lines[n]);
    hide LinesInv, KindInv, JobInv, LineInv, Serve, SameFlow;
    ServeLine(s, n, s.lines[n]);
    if s.job.Armed? && s.job.e.node == n {
      ServeJob(s, n);
    }
    forall k | k in s.origin && s.origin[k].node == n && s.origin[k].kind == Subscription
      ensures var l := Serve(s.lines[n]); var sub, del := KeyOf(s.origin, k), DelOf(s.origin, k);
              if k in s.deleted then del !in l.down ==> sub.id !in l.ind && sub !in l.down
              else Unsent(s.job) != Some(sub) && sub !in l.down ==> sub.id in l.ind
    {
      ServeKeepsSub(s, n, k);
    }
  }

  lemma IndicateKeeps(s: Sys, n: NodeId, id: RicId, report: nat, s': Sys)
    requires Inv(s) && DoIndicate(s, n, id, report) == Next(s')
    ensures Inv(s')
  {
    hide OriginInv, IdsInv, PendInv, KindInv, JobInv, AddrInv, QueueInv, AskInv, LogInv;
    var l := s.lines[n];
    var l' := s'.lines[n];
    assert LineInv(s.origin, s.ids.left, s.deleted, Registering(s.job), n, l);
    IndicateFlow(l, id, report);
    SameFlowInv(s, n, l, l');
    SameDownQuiet(s, n, l');
    QuietKeeps(s, n, l');
  }

  lemma WorkerTakeKeeps(s: Sys, n: NodeId, s': Sys)
    requires Inv(s) && DoWorkerTake(s, n) == Next(s')
    ensures Inv(s')
  {
    var l := s.lines[n];
    var l' := s'.lines[n];
    assert LineInv(s.origin, s.ids.left, s.deleted, Registering(s.job), n, l);
    WorkerTakeFlow(l);
    SameFlowInv(s, n, l, l');
    SameDownQuiet(s, n, l');
    QuietKeeps(s, n, l');
  }

  lemma SameDownQuiet(s: Sys, n: NodeId, l: Line)
    requires KindInv(s) && JobInv(s) && OriginInv(s) && n in s.lines && SameFlow(s.lines[n], l)
    requires LineInv(s.origin, s.ids.left, s.deleted, Registering(s.job), n, l)
    requires l.down == s.lines[n].down && l.ind == s.lines[n].ind
    ensures Quiet(s, n, l)
  {
    forall k | k in s.origin && s.origin[k].node == n && s.origin[k].kind == Subscription
      ensures var sub, del := KeyOf(s.origin, k), DelOf(s.origin, k);
              if k in s.deleted then del !in l.down ==> sub.id !in l.ind && sub !in l.down
              else Unsent(s.job) != Some(sub) && sub !in l.down ==> sub.id in l.ind
    {
      assert SubInv(s, k);
    }
  }
}
