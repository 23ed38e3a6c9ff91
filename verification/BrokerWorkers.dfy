/** The steps of the workers of the near-RT RIC keep the invariant of the broker, and do not fail. */
module BrokerWorkers {
  import opened RicIds
  import opened IdMaps
  import opened Broker
  import opened BrokerInv
  import opened BrokerSteps
  import opened BrokerWork

  ghost predicate LineOk(s: Sys, n: NodeId) {
    n in s.lines && LineInv(s.origin, s.ids.left, s.deleted, Registering(s.job), n, s.lines[n])
  }

  lemma LineIsOk(s: Sys, n: NodeId)
    requires LinesInv(s) && n in s.lines
    ensures LineOk(s, n)
  {
  }

  /** The message of a busy worker belongs to a request that was sent to this node. */
  lemma WorkerKnown(s: Sys, n: NodeId)
    requires LineOk(s, n) && s.lines[n].worker.Busy?
    ensures var m := s.lines[n].worker.m;
            Known(s.origin, Key(if m.Answer? then m.key.ev else SubEv, IdOf(m)), n) && (m.Answer? ==> m.key in Flow(s.lines[n]))
  {
    var l := s.lines[n];
    if l.worker.m.Answer? {
      assert WorkerKeys(l.worker)[0] == l.worker.m.key;
      assert Flow(l)[0] == l.worker.m.key;
      FlowKnown(s, n, l, l.worker.m.key);
    }
  }

  /** Behind the worker, the flow of a line has no second copy of its answer, and, if that answers a
      delete, not the subscription. */
  lemma BehindWorker(s: Sys, n: NodeId)
    requires LineOk(s, n) && s.lines[n].worker.Busy? && s.lines[n].worker.m.Answer?
    ensures var l := s.lines[n]; var key := l.worker.m.key;
            && (!(key.ev.DelEv? && Handled(l.worker)) ==> key !in Rest(l))
            && (key.ev.DelEv? ==> Key(SubEv, key.id) !in Rest(l))
  {
    var l := s.lines[n];
    var key := l.worker.m.key;
    SplitFlow(l);
    assert Flow(l)[0] == key;
    forall i | 0 <= i < |Rest(l)| ensures Rest(l)[i] == Flow(l)[i + 1] {}
  }

  lemma FreeFlow(l: Line)
    requires l.worker.Busy?
    ensures var l' := l.(worker := Free);
            Flow(l') == Rest(l) && Waiting(l') == Rest(l) && Unanswered(l') == Rest(l) && Flow(l) == WorkerKeys(l.worker) + Rest(l)
  {
    SplitFlow(l);
    assert [] + UpKeys(l.up) == UpKeys(l.up);
  }

  /** A line keeps its promises when its worker lets go of a handled message. */
  lemma FreeLine(s: Sys, n: NodeId)
    requires LineOk(s, n) && Handled(s.lines[n].worker)
    ensures LineInv(s.origin, s.ids.left, s.deleted, Registering(s.job), n, s.lines[n].(worker := Free))
  {
    var l := s.lines[n];
    var l' := l.(worker := Free);
    FreeFlow(l);
    var d := |WorkerKeys(l.worker)|;
    forall i | 0 <= i < |Flow(l')| ensures Flow(l')[i] == Flow(l)[i + d] {}
    forall key <- Flow(l') ensures FlowKey(s.origin, s.ids.left, s.deleted, Registering(s.job), n, key) {
      assert key in Flow(l);
    }
    assert Ordered(Flow(l')) by {
      assert Ordered(Flow(l));
    }
    assert Single(l') by {
      forall i, j | 0 <= i < j < |Flow(l')| ensures Flow(l')[i] != Flow(l')[j] {
        if Flow(l')[i] == Flow(l')[j] {
          FreeSingle(l, i, j);
        }
      }
    }
  }

  lemma FreeSingle(l: Line, i: nat, j: nat)
    requires Single(l) && i < j < |Rest(l)| && Rest(l)[i] == Rest(l)[j]
    ensures !Handled(l.worker)
  {
    SplitFlow(l);
    var d := |WorkerKeys(l.worker)|;
    assert Flow(l) == WorkerKeys(l.worker) + Rest(l);
    assert Flow(l)[i + d] == Rest(l)[i] && Flow(l)[j + d] == Rest(l)[j];
  }

  // ----- an answer stops its pending event -----

  lemma ReleaseSucceeds(s: Sys, n: NodeId)
    requires Inv(s) && n in s.lines && s.lines[n].worker.Busy? && s.lines[n].worker.stage.Received?
    ensures DoWorkerStep(s, n).Next?
  {
    var l := s.lines[n];
    assert LineOk(s, n);
    WorkerKnown(s, n);
    assert l.worker.m.Answer? ==> InWaiting(s.origin, s.lines, l.worker.m.key);
  }

  lemma ReleaseKeeps(s: Sys, n: NodeId, s': Sys)
    requires Inv(s) && Releases(s, n, s')
    ensures Inv(s')
  {
    hide OriginInv, LinesInv, PendInv, KindInv, JobInv, AddrInv, QueueInv, AskInv, LogInv;
    RestKeeps(s, s');
    ReleaseLines(s, n, s');
    ReleasePend(s, n, s');
    ReleaseKind(s, n, s');
    ReleaseJob(s, n, s');
    ReleaseLog(s, n, s');
    assert IdsInv(s');
  }

  lemma ReleaseFlow(l: Line)
    requires l.worker.Busy?
    ensures var l' := l.(worker := Busy(l.worker.m, Released));
            && Flow(l') == Flow(l) && Waiting(l') == Rest(l) && Unanswered(l') == Flow(l)
            && Flow(l) == WorkerKeys(l.worker) + Rest(l)
  {
    SplitFlow(l);
  }

  ghost predicate Releases(s: Sys, n: NodeId, s': Sys) {
    && LineOk(s, n) && s.lines[n].worker.Busy? && s.lines[n].worker.stage.Received?
    && var m := s.lines[n].worker.m;
       s' == SetWorker(s, n, Busy(m, Released)).(pending := s.pending - (if m.Answer? then {m.key} else {}))
  }

  lemma ReleaseLines(s: Sys, n: NodeId, s': Sys)
    requires LinesInv(s) && Releases(s, n, s')
    ensures LinesInv(s')
  {
    ReleaseFlow(s.lines[n]);
    LinesSet(s, s', n);
  }

  lemma ReleasePend(s: Sys, n: NodeId, s': Sys)
    requires PendInv(s) && JobInv(s) && OriginInv(s) && Releases(s, n, s')
    ensures PendInv(s')
  {
    var l := s.lines[n];
    ReleaseFlow(l);
    WorkerKnown(s, n);
    if l.worker.m.Answer? {
      var key := l.worker.m.key;
      BehindWorker(s, n);
      assert key in Waiting(l);
      assert Unsent(s.job) != Some(key);
      forall f ensures InWaiting(s'.origin, s'.lines, f) <==> InWaiting(s.origin, s.lines, f) && f != key {
      }
    } else {
      forall f ensures InWaiting(s'.origin, s'.lines, f) <==> InWaiting(s.origin, s.lines, f) {
      }
    }
  }

  lemma ReleaseKind(s: Sys, n: NodeId, s': Sys)
    requires KindInv(s) && Releases(s, n, s')
    ensures KindInv(s')
  {
    ReleaseFlow(s.lines[n]);
    forall k | k in s'.origin && s'.origin[k].node in s'.lines && s'.origin[k].kind == Subscription ensures SubInv(s', k) {
      assert SubInv(s, k);
    }
  }

  lemma ReleaseJob(s: Sys, n: NodeId, s': Sys)
    requires JobInv(s) && Releases(s, n, s')
    ensures JobInv(s')
  {
    ReleaseFlow(s.lines[n]);
  }

  lemma ReleaseLog(s: Sys, n: NodeId, s': Sys)
    requires LogInv(s) && Releases(s, n, s')
    ensures LogInv(s')
  {
    ReleaseFlow(s.lines[n]);
    forall d <- s'.log ensures Correct(s'.origin, s'.addr, d) && (d.src.Answer? ==> Closed(s', d.src.key)) {
      assert d.src.Answer? ==> Closed(s, d.src.key);
    }
    forall k <- s'.origin ensures Answered(s', KeyOf(s'.origin, k)) <==> Answered(s, KeyOf(s.origin, k)) {
    }
  }

  // ----- the worker lets go of a message -----

  /** The worker lets go of a message whose entry is gone, or stays as with a subscription. */
  ghost predicate Frees(s: Sys, n: NodeId, s': Sys) {
    && LineOk(s, n) && Handled(s.lines[n].worker) && s' == SetWorker(s, n, Free).(log := s'.log)
    && var m := s.lines[n].worker.m;
       m.Answer? ==> (if m.key.ev.SubEv? then m.key.id.req in s.ids.left else m.key.ev.DelEv? && m.key.id.req !in s.ids.left)
  }

  lemma FreeKeeps(s: Sys, n: NodeId, s': Sys)
    requires Inv(s) && Frees(s, n, s') && LogInv(s')
    ensures Inv(s')
  {
    hide OriginInv, LinesInv, PendInv, KindInv, JobInv, AddrInv, QueueInv, AskInv, LogInv;
    RestKeeps(s, s');
    FreeLines(s, n, s');
    FreePend(s, n, s');
    FreeKind(s, n, s');
    FreeJob(s, n, s');
    assert IdsInv(s');
  }

  lemma FreeLines(s: Sys, n: NodeId, s': Sys)
    requires LinesInv(s) && Frees(s, n, s')
    ensures LinesInv(s')
  {
    FreeLine(s, n);
    LinesSet(s, s', n);
  }

  lemma FreePend(s: Sys, n: NodeId, s': Sys)
    requires PendInv(s) && Frees(s, n, s')
    ensures PendInv(s')
  {
    FreeFlow(s.lines[n]);
    forall f ensures InWaiting(s'.origin, s'.lines, f) <==> InWaiting(s.origin, s.lines, f) {
    }
  }

  lemma FreeKind(s: Sys, n: NodeId, s': Sys)
    requires KindInv(s) && Frees(s, n, s')
    ensures KindInv(s')
  {
    FreeFlow(s.lines[n]);
    forall k | k in s'.origin && s'.origin[k].node in s'.lines && s'.origin[k].kind == Subscription ensures SubInv(s', k) {
      assert SubInv(s, k);
    }
  }

  lemma FreeJob(s: Sys, n: NodeId, s': Sys)
    requires JobInv(s) && Frees(s, n, s')
    ensures JobInv(s')
  {
    FreeFlow(s.lines[n]);
  }

  lemma DropLog(s: Sys, n: NodeId, s': Sys)
    requires LogInv(s) && Frees(s, n, s') && s'.log == s.log
    requires s.lines[n].worker.stage.Released? && (s.lines[n].worker.m.Answer? ==> s.lines[n].worker.m.key.ev.DelEv?)
    ensures LogInv(s')
  {
    FreeFlow(s.lines[n]);
    forall d <- s'.log ensures Correct(s'.origin, s'.addr, d) && (d.src.Answer? ==> Closed(s', d.src.key)) {
      assert d.src.Answer? ==> Closed(s, d.src.key);
    }
    forall k <- s'.origin ensures Answered(s', KeyOf(s'.origin, k)) <==> Answered(s, KeyOf(s.origin, k)) {
    }
  }

  // ----- the lookup -----

  /** With the table unlocked, the lookup fails for nothing but late deletes and indications, and
      the id it finds agrees with the message. */
  lemma ResolveSucceeds(s: Sys, n: NodeId)
    requires OriginInv(s) && IdsInv(s) && LineOk(s, n) && s.lines[n].worker.Busy? && !LockHeld(s.job)
    ensures Resolve(s, n, s.lines[n].worker.m).Next?
  {
    WorkerKnown(s, n);
    var l := s.lines[n];
    var m := l.worker.m;
    if m.Answer? {
      assert FlowKey(s.origin, s.ids.left, s.deleted, Registering(s.job), n, m.key);
    }
  }

  lemma DropKeeps(s: Sys, n: NodeId, s': Sys)
    requires Inv(s) && LineOk(s, n) && s.lines[n].worker.Busy? && s.lines[n].worker.stage.Released?
    requires s' == SetWorker(s, n, Free)
    requires var m := s.lines[n].worker.m; IdOf(m).req !in s.ids.left && (m.Answer? ==> m.key.ev.DelEv?)
    ensures Inv(s')
  {
    DropLog(s, n, s');
    FreeKeeps(s, n, s');
  }

  /** The worker keeps its message; the flow of its line stays as it is. */
  ghost predicate Resolves(s: Sys, n: NodeId, s': Sys) {
    && LineOk(s, n) && s.lines[n].worker.Busy? && s.lines[n].worker.stage.Released?
    && var k := IdOf(s.lines[n].worker.m).req;
       k in s.ids.left && s' == SetWorker(s, n, Busy(s.lines[n].worker.m, Resolved(s.ids.left[k])))
  }

  lemma ResolveKeeps(s: Sys, n: NodeId, s': Sys)
    requires Inv(s) && Resolves(s, n, s')
    ensures Inv(s')
  {
    LinesRest(s, s');
    ResolveCore(s, n, s');
    ResolveLog(s, n, s');
  }

  lemma ResolveCore(s: Sys, n: NodeId, s': Sys)
    requires LinesInv(s) && PendInv(s) && KindInv(s) && JobInv(s) && Resolves(s, n, s')
    ensures LinesInv(s') && PendInv(s') && KindInv(s') && JobInv(s')
  {
    ResolveLines(s, n, s');
    ResolvePend(s, n, s');
    ResolveKind(s, n, s');
    ResolveJob(s, n, s');
  }

  lemma ResolveLines(s: Sys, n: NodeId, s': Sys)
    requires LinesInv(s) && Resolves(s, n, s')
    ensures LinesInv(s')
  {
    LinesSet(s, s', n);
  }

  lemma ResolvePend(s: Sys, n: NodeId, s': Sys)
    requires PendInv(s) && Resolves(s, n, s')
    ensures PendInv(s')
  {
    forall f ensures InWaiting(s'.origin, s'.lines, f) <==> InWaiting(s.origin, s.lines, f) {
    }
  }

  lemma ResolveKind(s: Sys, n: NodeId, s': Sys)
    requires KindInv(s) && Resolves(s, n, s')
    ensures KindInv(s')
  {
    forall k | k in s'.origin && s'.origin[k].node in s'.lines && s'.origin[k].kind == Subscription ensures SubInv(s', k) {
      assert SubInv(s, k);
    }
  }

  lemma ResolveJob(s: Sys, n: NodeId, s': Sys)
    requires JobInv(s) && Resolves(s, n, s')
    ensures JobInv(s')
  {
  }

  lemma ResolveLog(s: Sys, n: NodeId, s': Sys)
    requires LogInv(s) && Resolves(s, n, s')
    ensures LogInv(s')
  {
    forall d <- s'.log ensures Correct(s'.origin, s'.addr, d) && (d.src.Answer? ==> Closed(s', d.src.key)) {
      assert d.src.Answer? ==> Closed(s, d.src.key);
    }
    forall k <- s'.origin ensures Answered(s', KeyOf(s'.origin, k)) <==> Answered(s, KeyOf(s.origin, k)) {
    }
  }

  // ----- the answer is forwarded -----

  /** The message is forwarded to the xApp that its id was drawn for; the worker is done with it
      unless its entry goes next. */
  ghost predicate Replies(s: Sys, n: NodeId, s': Sys) {
    && LineOk(s, n) && s.lines[n].worker.Busy? && s.lines[n].worker.stage.Resolved?
    && var m, x := s.lines[n].worker.m, s.lines[n].worker.stage.x;
       && x.xapp in s.addr
       && s' == SetWorker(s, n, if m.Answer? && m.key.ev != SubEv then Busy(m, Replied(x)) else Free).(
                  log := s.log + [Delivery(s.addr[x.xapp], WithId(m, x.id), m)])
  }

  lemma ReplySucceeds(s: Sys, n: NodeId)
    requires LineOk(s, n) && IdsInv(s) && AddrInv(s) && QueueInv(s)
    requires s.lines[n].worker.Busy? && s.lines[n].worker.stage.Resolved?
    ensures DoWorkerStep(s, n).Next?
  {
    hide FlowInv, IndInv, OutInv, Fresh, Bijective;
    var k := IdOf(s.lines[n].worker.m).req;
    assert k in s.ids.left;
  }

  lemma ReplyLogCorrect(s: Sys, n: NodeId, s': Sys)
    requires LogInv(s) && LineOk(s, n) && IdsInv(s) && Replies(s, n, s')
    ensures forall d <- s'.log :: Correct(s'.origin, s'.addr, d)
  {
    WorkerKnown(s, n);
    var k := IdOf(s.lines[n].worker.m).req;
    assert k in s.ids.left;
  }

  lemma ReplyLogOld(s: Sys, n: NodeId, s': Sys)
    requires LogInv(s) && Replies(s, n, s')
    ensures forall d <- s.log :: d.src.Answer? ==> Closed(s', d.src.key) && d.src != s.lines[n].worker.m
  {
    WorkerKnown(s, n);
    FreeFlow(s.lines[n]);
    forall d <- s.log | d.src.Answer? ensures Closed(s', d.src.key) && d.src != s.lines[n].worker.m {
      assert Closed(s, d.src.key);
    }
  }

  lemma ReplyLogNew(s: Sys, n: NodeId, s': Sys)
    requires OriginInv(s) && JobInv(s) && Replies(s, n, s')
    ensures s.lines[n].worker.m.Answer? ==> Closed(s', s.lines[n].worker.m.key)
  {
    WorkerKnown(s, n);
    FreeFlow(s.lines[n]);
    if s.lines[n].worker.m.Answer? {
      BehindWorker(s, n);
      FlowKnown(s, n, s.lines[n], s.lines[n].worker.m.key);
    }
  }

  lemma ReplyLog(s: Sys, n: NodeId, s': Sys)
    requires LogInv(s) && OriginInv(s) && JobInv(s) && IdsInv(s) && Replies(s, n, s')
    ensures LogInv(s')
  {
    hide OriginInv, JobInv, IdsInv;
    ReplyLogCorrect(s, n, s');
    ReplyLogOld(s, n, s');
    ReplyLogNew(s, n, s');
    ReplyLogAll(s, n, s');
    var last := s'.log[|s.log|];
    forall d <- s'.log ensures Correct(s'.origin, s'.addr, d) && (d.src.Answer? ==> Closed(s', d.src.key)) {
      assert d in s.log || d == last;
    }
    ReplyLogOnce(s, n, s');
  }

  lemma ReplyLogOnce(s: Sys, n: NodeId, s': Sys)
    requires Replies(s, n, s')
    requires forall d <- s.log :: d.src.Answer? ==> d.src != s.lines[n].worker.m
    requires forall i, j :: 0 <= i < j < |s.log| && s.log[i].src.Answer? ==> s.log[i].src != s.log[j].src
    ensures forall i, j :: 0 <= i < j < |s'.log| && s'.log[i].src.Answer? ==> s'.log[i].src != s'.log[j].src
  {
  }

  /** No request drops out of sight: what leaves the flow is in the log. */
  lemma ReplyLogAll(s: Sys, n: NodeId, s': Sys)
    requires LogInv(s) && Replies(s, n, s')
    ensures forall k <- s'.origin :: s'.origin[k].node in s'.lines ==>
              || Unsent(s'.job) == Some(KeyOf(s'.origin, k))
              || KeyOf(s'.origin, k) in Unanswered(s'.lines[s'.origin[k].node])
              || Answered(s', KeyOf(s'.origin, k))
  {
    FreeFlow(s.lines[n]);
    var m := s.lines[n].worker.m;
    assert s'.log[|s.log|].src == m;
    forall k | k in s'.origin && s'.origin[k].node in s'.lines
      ensures || Unsent(s'.job) == Some(KeyOf(s'.origin, k))
              || KeyOf(s'.origin, k) in Unanswered(s'.lines[s'.origin[k].node])
              || Answered(s', KeyOf(s'.origin, k))
    {
      var key := KeyOf(s.origin, k);
      if Answered(s, key) {
        var i :| 0 <= i < |s.log| && s.log[i].src == Answer(key);
        assert s'.log[i].src == Answer(key);
      } else if m == Answer(key) {
        assert Answered(s', key);
      }
    }
  }

  lemma ReplyKeeps(s: Sys, n: NodeId, s': Sys)
    requires Inv(s) && Replies(s, n, s')
    ensures Inv(s')
  {
    ReplyLog(s, n, s');
    if s'.lines[n].worker.Free? {
      ReplyFrees(s, n, s');
      FreeKeeps(s, n, s');
    } else {
      ReplyHolds(s, n, s');
    }
  }

  lemma ReplyFrees(s: Sys, n: NodeId, s': Sys)
    requires Replies(s, n, s') && s'.lines[n].worker.Free?
    ensures Frees(s, n, s')
  {
  }

  lemma ReplyHolds(s: Sys, n: NodeId, s': Sys)
    requires Inv(s) && Replies(s, n, s') && s'.lines[n].worker.Busy? && LogInv(s')
    ensures Inv(s')
  {
    ReplyStays(s, n, s');
    ReplyShape(s, n, s');
    LinesRest(s, s');
  }

  lemma ReplyShape(s: Sys, n: NodeId, s': Sys)
    requires Replies(s, n, s')
    ensures s' == s.(lines := s'.lines, log := s'.log) && s'.lines.Keys == s.lines.Keys
  {
  }

  lemma ReplyStays(s: Sys, n: NodeId, s': Sys)
    requires LinesInv(s) && PendInv(s) && KindInv(s) && JobInv(s) && Replies(s, n, s') && s'.lines[n].worker.Busy?
    ensures LinesInv(s') && PendInv(s') && KindInv(s') && JobInv(s')
  {
    hide LinesInv, PendInv, KindInv, JobInv, Replies;
    ReplyLine(s, n, s');
    ReplyPend(s, n, s');
    ReplyKind(s, n, s');
    ReplyJob(s, n, s');
  }

  lemma ReplyLine(s: Sys, n: NodeId, s': Sys)
    requires LinesInv(s) && Replies(s, n, s') && s'.lines[n].worker.Busy?
    ensures LinesInv(s')
  {
    LinesSet(s, s', n);
  }

  lemma ReplyJob(s: Sys, n: NodeId, s': Sys)
    requires JobInv(s) && Replies(s, n, s') && s'.lines[n].worker.Busy?
    ensures JobInv(s')
  {
  }

  lemma ReplyPend(s: Sys, n: NodeId, s': Sys)
    requires PendInv(s) && Replies(s, n, s') && s'.lines[n].worker.Busy?
    ensures PendInv(s')
  {
    forall f ensures InWaiting(s'.origin, s'.lines, f) <==> InWaiting(s.origin, s.lines, f) {
    }
  }

  lemma ReplyKind(s: Sys, n: NodeId, s': Sys)
    requires KindInv(s) && Replies(s, n, s') && s'.lines[n].worker.Busy?
    ensures KindInv(s')
  {
    forall k | k in s'.origin && s'.origin[k].node in s'.lines && s'.origin[k].kind == Subscription ensures SubInv(s', k) {
      assert SubInv(s, k);
    }
  }

  // ----- the entry of an answered delete or control request goes -----

  ghost predicate Removes(s: Sys, n: NodeId, s': Sys) {
    && LineOk(s, n) && s.lines[n].worker.Busy? && s.lines[n].worker.stage.Replied? && !LockHeld(s.job)
    && s.lines[n].worker.stage.x in s.ids.right
    && s' == SetWorker(s, n, Free).(ids := Remove(s.ids, s.lines[n].worker.stage.x))
  }

  /** Exactly the id of the answer leaves the table. */
  lemma RemovedId(s: Sys, n: NodeId)
    requires LineOk(s, n) && IdsInv(s) && s.lines[n].worker.Busy? && s.lines[n].worker.stage.Replied?
    ensures var l := s.lines[n];
            && l.worker.m.Answer? && l.worker.stage.x in s.ids.right
            && Remove(s.ids, l.worker.stage.x).left == s.ids.left - {l.worker.m.key.id.req}
  {
  }

  lemma RemoveKeeps(s: Sys, n: NodeId, s': Sys)
    requires Inv(s) && Removes(s, n, s')
    ensures Inv(s')
  {
    RestKeeps(s, s');
    RemoveIds(s, n, s');
    RemoveLines(s, n, s');
    RemovePend(s, n, s');
    RemoveKind(s, n, s');
    RemoveJob(s, n, s');
    RemoveLog(s, n, s');
  }

  lemma RemoveIds(s: Sys, n: NodeId, s': Sys)
    requires IdsInv(s) && Removes(s, n, s')
    ensures IdsInv(s')
  {
    RemoveKeepsBijective(s.ids, s.lines[n].worker.stage.x);
  }

  /** No line holds another request under the id that leaves. */
  lemma RemoveLine(s: Sys, n: NodeId, s': Sys, m: NodeId)
    requires LineOk(s, n) && LineOk(s, m) && IdsInv(s) && Removes(s, n, s')
    ensures LineInv(s'.origin, s'.ids.left, s'.deleted, Registering(s'.job), m, s'.lines[m])
  {
    RemovedId(s, n);
    WorkerKnown(s, n);
    var gone := s.lines[n].worker.m.key;
    if m == n {
      FreeLine(s, n);
      FreeFlow(s.lines[n]);
      BehindWorker(s, n);
    } else if s.lines[m].worker.Busy? {
      WorkerKnown(s, m);
    }
    var l := s'.lines[m];
    forall key <- Flow(l) ensures FlowKey(s'.origin, s'.ids.left, s'.deleted, Registering(s'.job), m, key) {
      assert FlowKey(s.origin, s.ids.left, s.deleted, Registering(s.job), m, key);
    }
  }

  lemma RemoveLines(s: Sys, n: NodeId, s': Sys)
    requires LinesInv(s) && IdsInv(s) && Removes(s, n, s')
    ensures LinesInv(s')
  {
    forall m <- s'.lines ensures LineInv(s'.origin, s'.ids.left, s'.deleted, Registering(s'.job), m, s'.lines[m]) {
      assert LineOk(s, m);
      RemoveLine(s, n, s', m);
    }
  }

  lemma RemovePend(s: Sys, n: NodeId, s': Sys)
    requires PendInv(s) && Removes(s, n, s')
    ensures PendInv(s')
  {
    FreeFlow(s.lines[n]);
    forall f ensures InWaiting(s'.origin, s'.lines, f) <==> InWaiting(s.origin, s.lines, f) {
    }
  }

  lemma RemoveKind(s: Sys, n: NodeId, s': Sys)
    requires KindInv(s) && IdsInv(s) && Removes(s, n, s')
    ensures KindInv(s')
  {
    FreeFlow(s.lines[n]);
    RemovedId(s, n);
    WorkerKnown(s, n);
    FlowKnown(s, n, s.lines[n], s.lines[n].worker.m.key);
    forall k | k in s'.origin && s'.origin[k].node in s'.lines && s'.origin[k].kind == Subscription ensures SubInv(s', k) {
      assert SubInv(s, k);
    }
  }

  lemma RemoveJob(s: Sys, n: NodeId, s': Sys)
    requires JobInv(s) && Removes(s, n, s')
    ensures JobInv(s')
  {
    FreeFlow(s.lines[n]);
  }

  lemma RemoveLog(s: Sys, n: NodeId, s': Sys)
    requires LogInv(s) && IdsInv(s) && Removes(s, n, s')
    ensures LogInv(s')
  {
    FreeFlow(s.lines[n]);
    RemovedId(s, n);
    forall d <- s'.log ensures Correct(s'.origin, s'.addr, d) && (d.src.Answer? ==> Closed(s', d.src.key)) {
      assert d.src.Answer? ==> Closed(s, d.src.key);
    }
    forall k <- s'.origin ensures Answered(s', KeyOf(s'.origin, k)) <==> Answered(s, KeyOf(s.origin, k)) {
    }
  }
}
