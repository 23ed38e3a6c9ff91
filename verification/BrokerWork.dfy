/** The steps of the job of the iApp keep the invariant of the broker, and do not fail. */
module BrokerWork {
  import opened RicIds
  import opened IdMaps
  import opened Broker
  import opened BrokerInv
  import opened BrokerSteps

  // ----- Locked: the RIC draws an id and arms the pending event -----

  /** What drawing an id within the budget yields: the next number, in the low half of an id whose
      high half is empty. */
  lemma DrawnKey(s: Sys)
    requires OriginInv(s) && QueueInv(s) && s.job.Locked? && s.reqId < ID_SPACE
    ensures var j := s.job;
            && Draw(s.reqId) == s.reqId > 0 && s.reqId !in s.origin
            && j.x.id.req < ID_SPACE && Overwrite16(j.x.id.req, s.reqId) == s.reqId
            && (forall k <- s.origin :: s.origin[k].x != j.x)
  {
    var j := s.job;
    assert OutInv(s, j.x.xapp, s.xapps[j.x.xapp]);
    assert j.x.id.req / ID_SPACE == 0;
  }

  lemma ArmKeeps(s: Sys, s': Sys)
    requires Inv(s) && s.job.Locked? && DoWork(s) == Next(s') && InBudget(s')
    ensures Inv(s')
  {
    Draws(s, s');
    hide OriginInv, IdsInv, LinesInv, PendInv, KindInv, JobInv, AddrInv, QueueInv, AskInv, LogInv, DoWork, Arms;
    ArmIds(s, s');
    ArmJob(s, s');
    ArmLines(s, s');
    ArmPend(s, s');
    ArmKind(s, s');
    ArmQueues(s, s');
    ArmAsked(s, s');
    ArmLog(s, s');
  }

  ghost predicate Arms(s: Sys, s': Sys) {
    && s.job.Locked? && s.reqId !in s.origin && FIRST_REQ <= s.reqId < ID_SPACE
    && (forall k <- s.origin :: s.origin[k].x != s.job.x)
    && var o := Origin(s.job.x, s.job.node, s.job.kind);
       var o' := s.origin[s.reqId := o];
       s' == s.(reqId := s.reqId + 1, pending := s.pending + {KeyOf(o', s.reqId)}, origin := o',
                job := Armed(KeyOf(o', s.reqId), EntryOf(o', s.reqId), s.job.x))
  }

  lemma Draws(s: Sys, s': Sys)
    requires OriginInv(s) && QueueInv(s) && s.job.Locked? && DoWork(s) == Next(s') && InBudget(s')
    ensures Arms(s, s')
  {
    DrawnKey(s);
    hide QueueInv, OriginInv;
  }

  lemma ArmIds(s: Sys, s': Sys)
    requires OriginInv(s) && IdsInv(s) && JobInv(s) && Arms(s, s')
    ensures OriginInv(s') && IdsInv(s')
  {
  }

  lemma TableFromOrigin(s: Sys, x: XKey)
    requires IdsInv(s) && x in s.ids.right
    ensures s.ids.right[x].id.req in s.origin && s.origin[s.ids.right[x].id.req].x == x
  {
  }

  lemma ArmJob(s: Sys, s': Sys)
    requires OriginInv(s) && IdsInv(s) && LinesInv(s) && JobInv(s) && Arms(s, s')
    ensures JobInv(s')
  {
    var e, key := s'.job.e, s'.job.key;
    var l := s'.lines[e.node];
    assert LineInv(s.origin, s.ids.left, s.deleted, Registering(s.job), e.node, l);
    assert key !in Flow(l) by {
      if key in Flow(l) {
        FlowKnown(s, e.node, l, key);
        assert false;
      }
    }
    if s.job.x in s.ids.right {
      TableFromOrigin(s, s.job.x);
      assert false;
    }
  }

  lemma ArmLines(s: Sys, s': Sys)
    requires LinesInv(s) && Arms(s, s')
    ensures LinesInv(s')
  {
    LinesGrow(s, s');
  }

  lemma ArmPend(s: Sys, s': Sys)
    requires LinesInv(s) && PendInv(s) && Arms(s, s')
    ensures PendInv(s')
  {
    forall key ensures InWaiting(s'.origin, s'.lines, key) <==> InWaiting(s.origin, s.lines, key) {
      if key.id.req == s.reqId && s'.origin[s.reqId].node in s'.lines {
        var n := s'.origin[s.reqId].node;
        SplitFlow(s.lines[n]);
        if key in Flow(s.lines[n]) {
          FlowKnown(s, n, s.lines[n], key);
        }
      }
    }
  }

  lemma ArmKind(s: Sys, s': Sys)
    requires KindInv(s) && Arms(s, s') && IdsInv(s)
    ensures KindInv(s')
  {
    forall k | k in s'.origin && s'.origin[k].node in s'.lines && s'.origin[k].kind == Subscription ensures SubInv(s', k) {
      if k != s.reqId {
        assert SubInv(s, k);
      }
    }
  }

  lemma ArmQueues(s: Sys, s': Sys)
    requires AddrInv(s) && QueueInv(s) && Arms(s, s')
    ensures AddrInv(s') && QueueInv(s')
  {
    forall x <- s'.xapps ensures OutInv(s', x, s'.xapps[x]) {
      assert OutInv(s, x, s.xapps[x]);
      forall m <- s.xapps[x].out ensures Queued(s', x, s.xapps[x].next, m) {
        assert Queued(s, x, s.xapps[x].next, m);
      }
    }
  }

  lemma ArmAsked(s: Sys, s': Sys)
    requires AskInv(s) && JobInv(s) && Arms(s, s')
    ensures AskInv(s')
  {
    forall b <- s'.asked ensures Carried(s', b) {
      assert Carried(s, b);
      if s.job == Locked(b, s.asked[b].0, s.asked[b].1) {
        assert s'.origin[s.reqId] == Origin(b, s.asked[b].0, s.asked[b].1);
      } else if k :| k in s.origin && s.origin[k] == Origin(b, s.asked[b].0, s.asked[b].1) {
        assert k in s'.origin && s'.origin[k] == s.origin[k];
      }
    }
  }

  lemma ArmLog(s: Sys, s': Sys)
    requires LogInv(s) && Arms(s, s')
    ensures LogInv(s')
  {
    forall d <- s'.log ensures Correct(s'.origin, s'.addr, d) && (d.src.Answer? ==> Closed(s', d.src.key)) {
      assert d.src.Answer? ==> Closed(s, d.src.key);
    }
    forall k <- s.origin ensures Answered(s', KeyOf(s'.origin, k)) <==> Answered(s, KeyOf(s.origin, k)) {
    }
  }

  // ----- Armed, DelArmed: the request is sent -----

  /** The armed request goes into the channel of its node. */
  ghost predicate Sends(s: Sys, n: NodeId, key: Key, s': Sys) {
    && n in s.lines && Unsent(s.job) == Some(key)
    && s' == Send(s, n, key).(job := s'.job, deleted := s'.deleted)
    && Known(s.origin, key, n)
    && Registering(s'.job) == Registering(s.job) && Unsent(s'.job) == None && !s'.job.Locked? && !s.job.Locked?
    && key !in Waiting(s.lines[n])
    && (if key.ev.DelEv? then s'.deleted == s.deleted + {key.id.req} && Registering(s'.job) == None
        else s'.deleted == s.deleted && Registering(s'.job) == Some(key.id.req) && key !in Flow(s.lines[n])
             && key.id.req !in s.ids.left && key.id !in s.lines[n].ind && key.id.req !in s.deleted)
  }

  lemma SendKeeps(s: Sys, n: NodeId, key: Key, s': Sys)
    requires Inv(s) && Sends(s, n, key, s') && JobInv(s')
    ensures Inv(s')
  {
    SendShape(s, n, key, s');
    hide OriginInv, IdsInv, LinesInv, PendInv, KindInv, JobInv, AddrInv, QueueInv, AskInv, LogInv, Sends;
    LinesRest(s, s');
    SendCore(s, n, key, s');
  }

  lemma SendShape(s: Sys, n: NodeId, key: Key, s': Sys)
    requires Sends(s, n, key, s')
    ensures SameRest(s, s') && s'.ids == s.ids
  {
  }

  lemma SendCore(s: Sys, n: NodeId, key: Key, s': Sys)
    requires OriginInv(s) && IdsInv(s) && LinesInv(s) && PendInv(s) && KindInv(s) && LogInv(s) && Sends(s, n, key, s')
    ensures LinesInv(s') && PendInv(s') && KindInv(s') && LogInv(s')
  {
    SendLines(s, n, key, s');
    SendPend(s, n, key, s');
    SendKind(s, n, key, s');
    SendLog(s, n, key, s');
  }

  function Rest(l: Line): seq<Key> {
    UpKeys(l.up) + l.down
  }

  lemma RepeatedOnlyAtWorker(l: Line, i: nat)
    requires i < |Flow(l)|
    ensures Flow(l)[i] in Waiting(l) || (i == 0 && Held(l.worker))
  {
    SplitFlow(l);
    if i >= |WorkerKeys(l.worker)| {
      assert Flow(l)[i] == Rest(l)[i - |WorkerKeys(l.worker)|];
    }
  }

  lemma SendLines(s: Sys, n: NodeId, key: Key, s': Sys)
    requires LinesInv(s) && Sends(s, n, key, s')
    ensures LinesInv(s')
  {
    LineGrows(s, s', n, s.lines[n]);
    SendFlow(s, n, key, s');
    LinesSet(s, s', n);
  }

  lemma SendFlow(s: Sys, n: NodeId, key: Key, s': Sys)
    requires Sends(s, n, key, s') && LineInv(s.origin, s.ids.left, s.deleted, Registering(s.job), n, s.lines[n])
    requires LineInv(s'.origin, s'.ids.left, s'.deleted, Registering(s'.job), n, s.lines[n])
    ensures LineInv(s'.origin, s'.ids.left, s'.deleted, Registering(s'.job), n, s'.lines[n])
  {
    var l, l' := s.lines[n], s'.lines[n];
    PushFlow(l, key);
    assert FlowKey(s'.origin, s'.ids.left, s'.deleted, Registering(s'.job), n, key);
    SendOrder(s, n, key);
    SendSingle(l, key);
  }

  lemma SendOrder(s: Sys, n: NodeId, key: Key)
    requires n in s.lines && FlowInv(s.origin, s.ids.left, s.deleted, Registering(s.job), n, s.lines[n])
    requires !key.ev.DelEv? ==> key.id.req !in s.deleted
    ensures Ordered(Flow(s.lines[n]) + [key])
  {
    forall f <- Flow(s.lines[n]) ensures f.ev.DelEv? && !key.ev.DelEv? ==> f.id != key.id {
      FlowKnown(s, n, s.lines[n], f);
    }
  }

  lemma SendSingle(l: Line, key: Key)
    requires Single(l) && key !in Waiting(l) && (!key.ev.DelEv? ==> key !in Flow(l))
    ensures Single(l.(down := l.down + [key]))
  {
    PushFlow(l, key);
    var f := Flow(l);
    forall i | 0 <= i < |f| && f[i] == key ensures i == 0 && Held(l.worker) {
      RepeatedOnlyAtWorker(l, i);
    }
    hide Flow, Waiting, Unanswered, Held;
    var l' := l.(down := l.down + [key]);
    assert Held(l'.worker) == Held(l.worker) && Flow(l') == f + [key];
    forall i, j | 0 <= i < j < |Flow(l')| && Flow(l')[i] == Flow(l')[j]
      ensures i == 0 && Flow(l')[0].ev.DelEv? && Held(l'.worker)
    {
      assert Flow(l')[i] == f[i];
      if j < |f| {
        assert Flow(l')[j] == f[j];
      } else {
        assert f[i] == key;
      }
    }
  }

  lemma SendPend(s: Sys, n: NodeId, key: Key, s': Sys)
    requires PendInv(s) && Sends(s, n, key, s')
    ensures PendInv(s')
  {
    PushFlow(s.lines[n], key);
    forall f ensures InWaiting(s'.origin, s'.lines, f) <==> InWaiting(s.origin, s.lines, f) || f == key {
    }
  }

  lemma SendSub(s: Sys, n: NodeId, key: Key, s': Sys, k: nat)
    requires Sends(s, n, key, s') && k in s.origin && s.origin[k].node in s.lines && s.origin[k].kind == Subscription && SubInv(s, k)
    ensures SubInv(s', k)
  {
    PushFlow(s.lines[n], key);
    hide Flow, Waiting, Unanswered;
  }

  lemma SendKind(s: Sys, n: NodeId, key: Key, s': Sys)
    requires KindInv(s) && IdsInv(s) && OriginInv(s) && Sends(s, n, key, s')
    ensures KindInv(s')
  {
    PushFlow(s.lines[n], key);
    forall k | k in s'.origin && s'.origin[k].node in s'.lines && s'.origin[k].kind == Subscription ensures SubInv(s', k) {
      SendSub(s, n, key, s', k);
    }
    hide SubInv, Flow, Waiting, Unanswered;
  }

  lemma SendLog(s: Sys, n: NodeId, key: Key, s': Sys)
    requires LogInv(s) && Sends(s, n, key, s')
    ensures LogInv(s')
  {
    PushFlow(s.lines[n], key);
    forall d <- s'.log ensures Correct(s'.origin, s'.addr, d) && (d.src.Answer? ==> Closed(s', d.src.key)) {
      assert d.src.Answer? ==> Closed(s, d.src.key);
    }
    forall k <- s'.origin ensures Answered(s', KeyOf(s'.origin, k)) <==> Answered(s, KeyOf(s.origin, k)) {
    }
  }

  lemma ArmedWaits(s: Sys)
    requires JobInv(s) && s.job.Armed?
    ensures s.job.e.node in s.lines && s.job.key !in Waiting(s.lines[s.job.e.node])
  {
    SplitFlow(s.lines[s.job.e.node]);
  }

  lemma ArmedSends(s: Sys, s': Sys)
    requires KindInv(s) && JobInv(s) && s.job.Armed? && DoWork(s) == Next(s')
    ensures Sends(s, s.job.e.node, s.job.key, s')
  {
    ArmedWaits(s);
    hide Flow, Waiting, Bijective;
    assert forall k <- s.deleted :: Registering(s.job) != Some(k);
  }

  lemma ArmedJob(s: Sys, s': Sys)
    requires JobInv(s) && s.job.Armed? && DoWork(s) == Next(s')
    ensures JobInv(s')
  {
    PushFlow(s.lines[s.job.e.node], s.job.key);
    hide Flow;
  }

  lemma ArmedSendKeeps(s: Sys, s': Sys)
    requires Inv(s) && s.job.Armed? && DoWork(s) == Next(s')
    ensures Inv(s')
  {
    hide OriginInv, IdsInv, LinesInv, PendInv, KindInv, JobInv, AddrInv, QueueInv, AskInv, LogInv, DoWork, Sends;
    ArmedSends(s, s');
    ArmedJob(s, s');
    SendKeeps(s, s.job.e.node, s.job.key, s');
  }

  lemma DelSends(s: Sys, s': Sys)
    requires JobInv(s) && s.job.DelArmed? && DoWork(s) == Next(s')
    ensures Sends(s, s.job.e.node, Key(DelEv, s.job.e.id), s') && JobInv(s')
  {
  }

  lemma DelSendKeeps(s: Sys, s': Sys)
    requires Inv(s) && s.job.DelArmed? && DoWork(s) == Next(s')
    ensures Inv(s')
  {
    DelSends(s, s');
    SendKeeps(s, s.job.e.node, Key(DelEv, s.job.e.id), s');
  }

  // ----- Sent: the table gets the entry -----

  lemma AddShape(s: Sys, s': Sys)
    requires s.job.Sent? && DoWork(s) == Next(s')
    ensures SameRest(s, s') && JobInv(s') && OriginInv(s) == OriginInv(s')
  {
  }

  lemma AddKeeps(s: Sys, s': Sys)
    requires Inv(s) && s.job.Sent? && DoWork(s) == Next(s')
    ensures Inv(s')
  {
    hide OriginInv, IdsInv, LinesInv, PendInv, KindInv, JobInv, AddrInv, QueueInv, AskInv, LogInv, DoWork, SameRest;
    AddShape(s, s');
    AddIds(s, s');
    AddLines(s, s');
    AddPend(s, s');
    AddKind(s, s');
    AddLog(s, s');
    RestKeeps(s, s');
  }

  lemma AddLines(s: Sys, s': Sys)
    requires LinesInv(s) && s.job.Sent? && DoWork(s) == Next(s')
    ensures LinesInv(s')
  {
    LinesGrow(s, s');
  }

  lemma AddIds(s: Sys, s': Sys)
    requires IdsInv(s) && JobInv(s) && s.job.Sent? && DoWork(s) == Next(s')
    ensures IdsInv(s')
  {
    AddKeepsBijectiveIff(s.ids, s.job.e, s.job.x);
  }

  lemma AddPend(s: Sys, s': Sys)
    requires PendInv(s) && s.job.Sent? && DoWork(s) == Next(s')
    ensures PendInv(s')
  {
  }

  lemma AddKind(s: Sys, s': Sys)
    requires KindInv(s) && JobInv(s) && s.job.Sent? && DoWork(s) == Next(s')
    ensures KindInv(s')
  {
    forall k | k in s'.origin && s'.origin[k].node in s'.lines && s'.origin[k].kind == Subscription ensures SubInv(s', k) {
      assert SubInv(s, k);
    }
  }

  lemma AddLog(s: Sys, s': Sys)
    requires LogInv(s) && KindInv(s) && s.job.Sent? && DoWork(s) == Next(s')
    ensures LogInv(s')
  {
    forall d <- s'.log ensures Correct(s'.origin, s'.addr, d) && (d.src.Answer? ==> Closed(s', d.src.key)) {
      assert d.src.Answer? ==> Closed(s, d.src.key);
    }
    forall k <- s'.origin ensures Answered(s', KeyOf(s'.origin, k)) <==> Answered(s, KeyOf(s.origin, k)) {
    }
  }

  // ----- the remaining steps of the job -----

  /** Unlocking, skipping a delete that is pending already, and finishing. */
  lemma JobKeeps(s: Sys, s': Sys)
    requires Inv(s) && s' == s.(job := s'.job) && JobInv(s') && !s.job.Locked? && !s'.job.Locked?
    requires Registering(s'.job) == Registering(s.job) && Unsent(s'.job) == Unsent(s.job)
    ensures Inv(s')
  {
    CoreKeeps(s, s');
    RestKeeps(s, s');
  }

  /** The pending event of the next delete is armed. */
  ghost predicate DelArms(s: Sys, s': Sys) {
    && s.job.Deleting? && s.job.todo != []
    && var key := Key(DelEv, s.job.todo[0].id);
       key !in s.pending && s' == s.(pending := s.pending + {key}, job := DelArmed(s.job.todo[0], s.job.todo[1..]))
  }

  lemma DelArmShape(s: Sys, s': Sys)
    requires DelArms(s, s')
    ensures SameRest(s, s') && (IdsInv(s) ==> IdsInv(s'))
  {
  }

  lemma DelArmKeeps(s: Sys, s': Sys)
    requires Inv(s) && DelArms(s, s')
    ensures Inv(s')
  {
    hide OriginInv, IdsInv, LinesInv, PendInv, KindInv, JobInv, AddrInv, QueueInv, AskInv, LogInv, DelArms, SameRest;
    DelArmShape(s, s');
    RestKeeps(s, s');
    DelArmJob(s, s');
    DelArmPend(s, s');
    DelArmLines(s, s');
    DelArmKind(s, s');
    DelArmLog(s, s');
  }

  lemma DelArmLines(s: Sys, s': Sys)
    requires LinesInv(s) && DelArms(s, s')
    ensures LinesInv(s')
  {
  }

  lemma DelArmJob(s: Sys, s': Sys)
    requires OriginInv(s) && PendInv(s) && JobInv(s) && DelArms(s, s')
    ensures JobInv(s')
  {
    var e := s.job.todo[0];
    assert Doable(s.origin, e);
    assert forall f <- s'.job.todo :: f in s.job.todo;
    assert !InWaiting(s.origin, s.lines, Key(DelEv, e.id));
  }

  lemma DelArmPend(s: Sys, s': Sys)
    requires PendInv(s) && DelArms(s, s')
    ensures PendInv(s')
  {
  }

  lemma DelArmKind(s: Sys, s': Sys)
    requires KindInv(s) && DelArms(s, s')
    ensures KindInv(s')
  {
    forall k | k in s'.origin && s'.origin[k].node in s'.lines && s'.origin[k].kind == Subscription ensures SubInv(s', k) {
      assert SubInv(s, k);
    }
  }

  lemma DelArmLog(s: Sys, s': Sys)
    requires LogInv(s) && DelArms(s, s')
    ensures LogInv(s')
  {
    forall d <- s'.log ensures Correct(s'.origin, s'.addr, d) && (d.src.Answer? ==> Closed(s', d.src.key)) {
      assert d.src.Answer? ==> Closed(s, d.src.key);
    }
    forall k <- s'.origin ensures Answered(s', KeyOf(s'.origin, k)) <==> Answered(s, KeyOf(s.origin, k)) {
    }
  }

  lemma DeletingKeeps(s: Sys, s': Sys)
    requires Inv(s) && s.job.Deleting? && DoWork(s) == Next(s')
    ensures Inv(s')
  {
    hide OriginInv, IdsInv, LinesInv, PendInv, KindInv, AddrInv, QueueInv, AskInv, LogInv;
    if DelArms(s, s') {
      DelArmKeeps(s, s');
    } else {
      assert s.job.todo != [] ==> forall f <- s.job.todo[1..] :: f in s.job.todo;
      JobKeeps(s, s');
    }
  }

  lemma AddedKeeps(s: Sys, s': Sys)
    requires Inv(s) && s.job.Added? && DoWork(s) == Next(s')
    ensures Inv(s')
  {
    JobKeeps(s, s');
  }

  lemma WorkKeeps(s: Sys, s': Sys)
    requires Inv(s) && DoWork(s) == Next(s') && InBudget(s')
    ensures Inv(s')
  {
    match s.job
    case Idle =>
    case Locked(_, _, _) => ArmKeeps(s, s');
    case Armed(_, _, _) => ArmedSendKeeps(s, s');
    case Sent(_, _) => AddKeeps(s, s');
    case Added => AddedKeeps(s, s');
    case DelArmed(_, _) => DelSendKeeps(s, s');
    case Deleting(_) => DeletingKeeps(s, s');
  }

  /** Not even the first id after the budget collides with a pending event. */
  lemma DrawnIsFree(s: Sys)
    requires OriginInv(s) && QueueInv(s) && s.job.Locked?
    ensures Draw(s.reqId) !in s.origin && Overwrite16(s.job.x.id.req, Draw(s.reqId)) == Draw(s.reqId)
  {
    assert OutInv(s, s.job.x.xapp, s.xapps[s.job.x.xapp]);
    assert s.job.x.id.req / ID_SPACE == 0;
  }

  /** No assertion fires in the thread of the iApp once it has taken a message. */
  lemma DrawSucceeds(s: Sys)
    requires OriginInv(s) && QueueInv(s) && PendInv(s) && s.job.Locked?
    ensures !DoWork(s).Fails?
  {
    DrawnIsFree(s);
    hide QueueInv, OriginInv;
    assert !InWaiting(s.origin, s.lines, Key(EvOf(s.job.kind), s.job.x.id.(req := Draw(s.reqId))));
  }

  lemma WorkSucceeds(s: Sys)
    requires Inv(s)
    ensures !DoWork(s).Fails?
  {
    hide OriginInv, IdsInv, LinesInv, PendInv, KindInv, JobInv, AddrInv, QueueInv, AskInv, LogInv, DoWork;
    if s.job.Locked? {
      DrawSucceeds(s);
    } else {
      WorkGoesOn(s);
    }
  }

  lemma WorkGoesOn(s: Sys)
    requires JobInv(s) && OriginInv(s) && !s.job.Locked?
    ensures !DoWork(s).Fails?
  {
  }
}
