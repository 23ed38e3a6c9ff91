/** The broker does not get stuck: whatever is under way can be finished, and every step that takes
    no new demand brings it closer to that. */
module BrokerDrain {
  import opened RicIds
  import opened IdMaps
  import opened Broker
  import opened BrokerInv
  import opened BrokerClean
  import opened BrokerGone
  import opened BrokerSafety
  import opened BrokerTheorems
  import opened Sums

  /** Steps of the iApp, of the workers, and of the agents serving requests. */
  predicate Internal(a: Action) {
    a.TakeRequest? || a.TakeDelete? || a.TakeBye? || a.Work? || a.AgentTake? || a.WorkerTake? || a.WorkerStep?
  }

  // ----- the distance to a drained state -----

  function OutSizes(xapps: map<nat, Xapp>): map<nat, nat> {
    map x | x in xapps :: |xapps[x].out|
  }

  function JobRank(j: Job): nat {
    match j
    case Idle => 0
    case Added => 1
    case Sent(_, _) => 2
    case Armed(_, _, _) => 3
    case Locked(_, _, _) => 4
    case Deleting(todo) => 2 * |todo| + 1
    case DelArmed(_, todo) => 2 * |todo| + 2
  }

  function WorkerRank(w: Worker): nat {
    if w.Free? then 0
    else match w.stage case Received => 4 case Released => 3 case Resolved(_) => 2 case Replied(_) => 1
  }

  function LineSize(l: Line): nat {
    6 * |l.down| + 5 * |l.up| + WorkerRank(l.worker)
  }

  function LineSizes(lines: map<NodeId, Line>): map<nat, nat> {
    map n | n in lines :: LineSize(lines[n])
  }

  /** Messages of xApps, then work of the iApp, then messages on the lines. */
  ghost predicate Closer(s: Sys, s': Sys) {
    || Sum(OutSizes(s'.xapps)) < Sum(OutSizes(s.xapps))
    || (Sum(OutSizes(s'.xapps)) == Sum(OutSizes(s.xapps)) && JobRank(s'.job) < JobRank(s.job))
    || (Sum(OutSizes(s'.xapps)) == Sum(OutSizes(s.xapps)) && JobRank(s'.job) == JobRank(s.job)
        && Sum(LineSizes(s'.lines)) < Sum(LineSizes(s.lines)))
  }

  lemma TakeCloser(s: Sys, x: nat, s': Sys)
    requires x in s.xapps && s.xapps[x].out != [] && s'.xapps == Pop(s, x).xapps
    ensures Sum(OutSizes(s'.xapps)) == Sum(OutSizes(s.xapps)) - 1
  {
    SumUpdate(OutSizes(s.xapps), x, |s.xapps[x].out| - 1);
    assert OutSizes(s'.xapps) == OutSizes(s.xapps)[x := |s.xapps[x].out| - 1];
  }

  lemma LineCloser(s: Sys, n: NodeId, s': Sys)
    requires n in s.lines && n in s'.lines && s'.lines == s.lines[n := s'.lines[n]] && LineSize(s'.lines[n]) < LineSize(s.lines[n])
    requires s'.job == s.job && OutSizes(s'.xapps) == OutSizes(s.xapps)
    ensures Closer(s, s')
  {
    SumUpdate(LineSizes(s.lines), n, LineSize(s'.lines[n]));
    assert LineSizes(s'.lines) == LineSizes(s.lines)[n := LineSize(s'.lines[n])];
  }

  /** The line of a worker after its step. */
  ghost predicate MovesOn(s: Sys, n: NodeId, o: Outcome) {
    o.Next? ==>
      && n in s.lines && n in o.s.lines && o.s.lines == s.lines[n := o.s.lines[n]] && o.s.job == s.job
      && LineSize(o.s.lines[n]) < LineSize(s.lines[n])
  }

  lemma ReleaseCloser(s: Sys, n: NodeId, m: Up)
    requires n in s.lines && s.lines[n].worker == Busy(m, Received)
    ensures MovesOn(s, n, Release(s, n, m))
  {
  }

  lemma ResolveCloser(s: Sys, n: NodeId, m: Up)
    requires n in s.lines && s.lines[n].worker == Busy(m, Released)
    ensures MovesOn(s, n, Resolve(s, n, m))
  {
  }

  lemma ReplyCloser(s: Sys, n: NodeId, m: Up, x: XKey)
    requires n in s.lines && s.lines[n].worker == Busy(m, Resolved(x))
    ensures MovesOn(s, n, Reply(s, n, m, x))
  {
  }

  lemma WorkerCloser(s: Sys, n: NodeId)
    ensures MovesOn(s, n, DoWorkerStep(s, n))
  {
    hide Release, Resolve, Reply, LineSizes, LineSize;
    if n in s.lines && s.lines[n].worker.Busy? {
      var m := s.lines[n].worker.m;
      match s.lines[n].worker.stage
      case Received => ReleaseCloser(s, n, m);
      case Released => ResolveCloser(s, n, m);
      case Resolved(x) => ReplyCloser(s, n, m, x);
      case Replied(_) => RemoveCloser(s, n);
    }
  }

  lemma RemoveCloser(s: Sys, n: NodeId)
    requires n in s.lines && s.lines[n].worker.Busy? && s.lines[n].worker.stage.Replied?
    ensures MovesOn(s, n, DoWorkerStep(s, n))
  {
  }

  /** Every internal step brings the broker closer to a drained state. */
  lemma InternalStepCloser(s: Sys, a: Action, s': Sys)
    requires Internal(a) && Step(s, a) == Next(s')
    ensures Closer(s, s')
  {
    hide DoWork, DoWorkerStep;
    match a
    case TakeRequest(x) => TakeCloser(s, x, s');
    case TakeDelete(x, _) => TakeCloser(s, x, s');
    case TakeBye(x, _) => TakeCloser(s, x, s');
    case Work => WorkMoves(s, s');
    case AgentTake(n) => LineCloser(s, n, s');
    case WorkerTake(n) => LineCloser(s, n, s');
    case WorkerStep(n) =>
      WorkerCloser(s, n);
      WorkerSpares(s, n, s');
      assert OutSizes(s'.xapps) == OutSizes(s.xapps);
      LineCloser(s, n, s');
  }

  function LockedCount(j: Job): nat {
    if j.Locked? then 1 else 0
  }

  /** A step of the job uses up an id for each request it finishes and takes nothing from an xApp. */
  ghost predicate JobMoves(s: Sys, s': Sys) {
    && s'.xapps == s.xapps && s'.nextXapp == s.nextXapp && s'.asked == s.asked && JobRank(s'.job) < JobRank(s.job)
    && s'.reqId + LockedCount(s'.job) == s.reqId + LockedCount(s.job)
  }

  lemma RegisterMoves(s: Sys, s': Sys)
    requires DoWork(s) == Next(s') && LockHeld(s.job)
    ensures JobMoves(s, s')
  {
    hide Draw, Overwrite16, Add, EvOf;
  }

  lemma DeleteMoves(s: Sys, s': Sys)
    requires DoWork(s) == Next(s') && !LockHeld(s.job)
    ensures JobMoves(s, s')
  {
    if s.job.Deleting? {
      assert s'.job.Idle? || s'.job.Deleting? || s'.job.DelArmed?;
    }
  }

  lemma WorkMoves(s: Sys, s': Sys)
    requires DoWork(s) == Next(s')
    ensures JobMoves(s, s')
  {
    hide *;
    if LockHeld(s.job) {
      RegisterMoves(s, s');
    } else {
      DeleteMoves(s, s');
    }
  }

  // ----- a step is always possible -----

  /** Requests among the messages of an xApp. */
  function Requests(out: seq<XMsg>): nat {
    if out == [] then 0 else (if out[0].Request? then 1 else 0) + Requests(out[1..])
  }

  function RequestCounts(xapps: map<nat, Xapp>): map<nat, nat> {
    map x | x in xapps :: Requests(xapps[x].out)
  }

  /** There is an id left for every request that waits to be forwarded. */
  ghost predicate Room(s: Sys) {
    s.reqId + Sum(RequestCounts(s.xapps)) + LockedCount(s.job) <= ID_SPACE && s.nextXapp <= ID_SPACE
  }

  lemma TakeCounts(s: Sys, x: nat, s': Sys)
    requires x in s.xapps && s.xapps[x].out != [] && s'.xapps == Pop(s, x).xapps
    ensures Sum(RequestCounts(s'.xapps)) == Sum(RequestCounts(s.xapps)) - (if s.xapps[x].out[0].Request? then 1 else 0)
  {
    SumUpdate(RequestCounts(s.xapps), x, Requests(s.xapps[x].out[1..]));
    assert RequestCounts(s'.xapps) == RequestCounts(s.xapps)[x := Requests(s.xapps[x].out[1..])];
  }

  lemma RoomKept(s: Sys, a: Action, s': Sys)
    requires Room(s) && Internal(a) && Step(s, a) == Next(s')
    ensures Room(s')
  {
    hide DoWorkerStep, DoWork, Requests;
    match a
    case TakeRequest(x) => TakeCounts(s, x, s');
    case TakeDelete(x, _) => TakeCounts(s, x, s');
    case TakeBye(x, _) => TakeCounts(s, x, s');
    case WorkerStep(n) =>
      WorkerSpares(s, n, s');
      assert RequestCounts(s'.xapps) == RequestCounts(s.xapps);
    case Work => WorkMoves(s, s');
    case _ =>
  }

  /** No two entries of the table are under one RIC id. */
  ghost predicate LiveApart(s: Sys) {
    forall x, y :: x in s.ids.right && y in s.ids.right && x.id == y.id ==> x == y
  }

  /** In every state that a step of the schedule is taken from, live entries have different RIC ids. */
  ghost predicate LiveRun(nodes: set<NodeId>, acts: seq<Action>) {
    acts != [] ==>
      var front := acts[..|acts| - 1];
      LiveRun(nodes, front) && (Run(nodes, front).Next? ==> LiveApart(Run(nodes, front).s))
  }

  lemma LiveIsClean(s: Sys, a: Action)
    requires LiveApart(s) && CleanInv(s)
    ensures CleanStep(s, a)
  {
    if a.TakeDelete? && CanTake(s, a.xapp, (m: XMsg) => m.Delete?) {
      var id := s.xapps[a.xapp].out[0].id;
      assert Wants(s.xapps[a.xapp], id);
      assert Deletable(s, XKey(a.xapp, id));
    }
  }

  /** As long as live entries have different RIC ids, every delete meets its own entry. */
  lemma {:induction false} LiveRunsAreClean(nodes: set<NodeId>, acts: seq<Action>, s: Sys)
    requires Run(nodes, acts) == Next(s) && InBudget(s) && LiveRun(nodes, acts)
    ensures Clean(nodes, acts)
  {
    hide Step, CleanStep, LiveApart, CleanInv, Inv, GoneInv, InBudget;
    if acts == [] {
    } else {
      var front, a := acts[..|acts| - 1], acts[|acts| - 1];
      var before := Run(nodes, front).s;
      CountersGrow(before, a, s);
      LiveRunsAreClean(nodes, front, before);
      Reached(nodes, front, before);
      LiveIsClean(before, a);
    }
  }

  /** So then no assertion of the program can fire. */
  lemma LiveIdsNeverFail(nodes: set<NodeId>, acts: seq<Action>, s: Sys, a: Action)
    requires Run(nodes, acts) == Next(s) && InBudget(s) && LiveRun(nodes, acts) && LiveApart(s)
    ensures !Step(s, a).Fails?
  {
    hide *;
    LiveRunsAreClean(nodes, acts, s);
    Reached(nodes, acts, s);
    LiveIsClean(s, a);
    if Step(s, a).Fails? {
      OnlyForeignDeletesFail(s, a);
    }
  }

  /** No two xApps ever chose the same RIC id. */
  ghost predicate Separate(s: Sys) {
    forall a, b :: a in s.asked && b in s.asked && a.id == b.id ==> a == b
  }

  lemma SeparateIsLive(s: Sys)
    requires Separate(s) && TableSound(s)
    ensures LiveApart(s)
  {
  }

  lemma AskedGrows(s: Sys, a: Action, s': Sys)
    requires Step(s, a) == Next(s')
    ensures s.asked.Keys <= s'.asked.Keys
  {
    if Internal(a) {
      hide Step;
      InternalAsksNothing(s, a, s');
    } else {
      OutsideAsks(s, a, s');
    }
  }

  lemma OutsideAsks(s: Sys, a: Action, s': Sys)
    requires !Internal(a) && Step(s, a) == Next(s')
    ensures s.asked.Keys <= s'.asked.Keys
  {
  }

  /** In particular this holds when the xApps never choose the same RIC id. */
  lemma {:induction false} SeparateRunsAreLive(nodes: set<NodeId>, acts: seq<Action>, s: Sys)
    requires Run(nodes, acts) == Next(s) && InBudget(s) && Separate(s)
    ensures LiveRun(nodes, acts) && LiveApart(s)
  {
    hide Step, LiveApart, TableSound, Inv, GoneInv, CleanInv, InBudget;
    TableIsSound(nodes, acts, s);
    SeparateIsLive(s);
    if acts == [] {
    } else {
      var front, a := acts[..|acts| - 1], acts[|acts| - 1];
      var before := Run(nodes, front).s;
      AskedGrows(before, a, s);
      CountersGrow(before, a, s);
      SeparateRunsAreLive(nodes, front, before);
    }
  }

  lemma DistinctIdsNeverFail(nodes: set<NodeId>, acts: seq<Action>, s: Sys, a: Action)
    requires Run(nodes, acts) == Next(s) && InBudget(s) && Separate(s)
    ensures !Step(s, a).Fails?
  {
    hide *;
    SeparateRunsAreLive(nodes, acts, s);
    LiveIdsNeverFail(nodes, acts, s, a);
  }

  /** No delete that waits at an xApp has a rival: no xApp with a smaller number ever asked under its RIC
      id. */
  ghost predicate Unrivalled(s: Sys) {
    forall x, m :: x in s.xapps && m in s.xapps[x].out && m.Delete? ==> forall z: nat :: z < x ==> XKey(z, m.id) !in s.asked
  }

  lemma UnrivalledIsClean(s: Sys, a: Action)
    requires Unrivalled(s) && TableSound(s)
    ensures CleanStep(s, a)
  {
    if a.TakeDelete? && CanTake(s, a.xapp, (m: XMsg) => m.Delete?) {
      assert s.xapps[a.xapp].out[0] in s.xapps[a.xapp].out;
    }
  }

  /** An internal step adds nothing to the queues of the xApps. */
  lemma QueuesShrink(s: Sys, a: Action, s': Sys)
    requires Internal(a) && Step(s, a) == Next(s')
    ensures s'.xapps.Keys == s.xapps.Keys && forall x, m :: x in s'.xapps && m in s'.xapps[x].out ==> m in s.xapps[x].out
  {
    hide DoWorkerStep, DoWork;
    match a
    case WorkerStep(n) => WorkerSpares(s, n, s');
    case Work => WorkMoves(s, s');
    case _ =>
  }

  lemma UnrivalledKept(s: Sys, a: Action, s': Sys)
    requires Unrivalled(s) && Internal(a) && Step(s, a) == Next(s')
    ensures Unrivalled(s')
  {
    hide Step, Internal;
    QueuesShrink(s, a, s');
    InternalAsksNothing(s, a, s');
  }

  /** The lookup of a delete always has a result. */
  lemma {:induction false} LeastMatch(right: map<XKey, Entry>, id: RicId, bound: nat) returns (found: Option<Entry>)
    requires forall z: nat :: z < bound ==> XKey(z, id) !in right
    requires exists z: nat :: XKey(z, id) in right
    ensures Found(right, id, found)
  {
    var top: nat :| XKey(top, id) in right;
    var z := bound;
    while XKey(z, id) !in right
      invariant bound <= z <= top
      invariant forall y: nat :: y < z ==> XKey(y, id) !in right
      decreases top - z
    {
      z := z + 1;
    }
    assert FirstMatch(right, id, XKey(z, id));
    found := Some(right[XKey(z, id)]);
  }

  lemma SomeFound(right: map<XKey, Entry>, id: RicId) returns (found: Option<Entry>)
    ensures Found(right, id, found)
  {
    if exists z: nat :: XKey(z, id) in right {
      found := LeastMatch(right, id, 0);
    } else {
      found := None;
    }
  }

  /** A strictly ordered listing of any finite set of keys. */
  lemma {:induction false} Sorted(keys: set<XKey>) returns (ks: seq<XKey>)
    ensures forall x :: x in ks <==> x in keys
    ensures forall i, j :: 0 <= i < j < |ks| ==> CmpXKey(ks[i], ks[j]) == 1
  {
    if keys == {} {
      ks := [];
    } else {
      var x :| x in keys;
      var rest := Sorted(keys - {x});
      var i := 0;
      while i < |rest| && CmpXKey(rest[i], x) == 1
        invariant 0 <= i <= |rest|
        invariant forall j :: 0 <= j < i ==> CmpXKey(rest[j], x) == 1
      {
        i := i + 1;
      }
      ks := rest[..i] + [x] + rest[i..];
      InsertSorted(rest, i, x, ks);
      assert forall y :: y in ks <==> y in rest || y == x by {
        assert rest == rest[..i] + rest[i..];
      }
    }
  }

  lemma InsertSorted(rest: seq<XKey>, i: nat, x: XKey, ks: seq<XKey>)
    requires i <= |rest| && x !in rest && ks == rest[..i] + [x] + rest[i..]
    requires forall a, b :: 0 <= a < b < |rest| ==> CmpXKey(rest[a], rest[b]) == 1
    requires forall j :: 0 <= j < i ==> CmpXKey(rest[j], x) == 1
    requires i < |rest| ==> CmpXKey(rest[i], x) != 1
    ensures forall a, b :: 0 <= a < b < |ks| ==> CmpXKey(ks[a], ks[b]) == 1
  {
    forall j | i <= j < |rest| ensures CmpXKey(x, rest[j]) == 1 {
      CmpXKeyIsOrder(rest[i], x, x);
      CmpXKeyIsOrder(x, rest[i], rest[j]);
    }
    forall a, b | 0 <= a < b < |ks| ensures CmpXKey(ks[a], ks[b]) == 1 {
      assert ks[a] == (if a < i then rest[a] else if a == i then x else rest[a - 1]);
      assert ks[b] == (if b < i then rest[b] else if b == i then x else rest[b - 1]);
    }
  }

  lemma SomeSubs(right: map<XKey, Entry>, xapp: nat) returns (subs: seq<Entry>)
    ensures AllSubs(right, xapp, subs)
  {
    var ks := Sorted(set x | x in right && x.xapp == xapp && right[x].kind == Subscription);
    assert SubKeys(right, xapp, ks);
    subs := seq(|ks|, i requires 0 <= i < |ks| => right[ks[i]]);
  }

  lemma HeadCanBeTaken(s: Sys, x: nat) returns (a: Action)
    requires s.job.Idle? && x in s.xapps && s.xapps[x].out != []
    ensures Internal(a) && !Step(s, a).Blocked?
  {
    match s.xapps[x].out[0]
    case Request(_, _, _) => a := TakeRequest(x);
    case Delete(id) =>
      var found := SomeFound(s.ids.right, id);
      a := TakeDelete(x, found);
    case Bye =>
      var subs := SomeSubs(s.ids.right, x);
      a := TakeBye(x, subs);
  }

  lemma LineCanMove(s: Sys, n: NodeId) returns (a: Action)
    requires s.job.Idle? && n in s.lines && !(s.lines[n].worker.Free? && s.lines[n].up == [] && s.lines[n].down == [])
    ensures Internal(a) && !Step(s, a).Blocked?
  {
    hide Resolve, Release, Reply;
    if s.lines[n].down != [] {
      a := AgentTake(n);
    } else if s.lines[n].worker.Free? {
      a := WorkerTake(n);
    } else {
      a := WorkerStep(n);
      WorkerNotBlocked(s, n);
    }
  }

  lemma WorkerNotBlocked(s: Sys, n: NodeId)
    requires s.job.Idle? && n in s.lines && s.lines[n].worker.Busy?
    ensures !DoWorkerStep(s, n).Blocked?
  {
  }

  /** As long as something is under way, some thread can go on. */
  lemma SomeoneCanMove(s: Sys) returns (a: Action)
    requires !Drained(s)
    ensures Internal(a) && !Step(s, a).Blocked?
  {
    hide Step;
    if !s.job.Idle? {
      a := Work;
      WorkNotBlocked(s);
    } else if x :| x in s.xapps && s.xapps[x].out != [] {
      a := HeadCanBeTaken(s, x);
    } else {
      var n :| n in s.lines && !(s.lines[n].worker.Free? && s.lines[n].up == [] && s.lines[n].down == []);
      a := LineCanMove(s, n);
    }
  }

  lemma WorkNotBlocked(s: Sys)
    requires !s.job.Idle?
    ensures !Step(s, Work).Blocked?
  {
  }

  // ----- draining -----

  lemma InternalAsksNothing(s: Sys, a: Action, s': Sys)
    requires Internal(a) && Step(s, a) == Next(s')
    ensures s'.asked == s.asked
  {
    hide DoWorkerStep, DoWork;
    match a
    case WorkerStep(n) => WorkerSpares(s, n, s');
    case Work => WorkMoves(s, s');
    case _ =>
  }

  lemma RunOneMore(nodes: set<NodeId>, acts: seq<Action>, s: Sys, a: Action)
    requires Run(nodes, acts) == Next(s)
    ensures Run(nodes, acts + [a]) == Step(s, a)
    ensures Clean(nodes, acts) && CleanStep(s, a) ==> Clean(nodes, acts + [a])
  {
    hide Step, CleanStep;
    assert (acts + [a])[..|acts|] == acts;
  }

  /** After a clean schedule with ids left and no rivals, no internal step fails, and whichever is taken,
      all of this still holds and the broker is closer to a drained state. */
  lemma InternalStepsGoOn(nodes: set<NodeId>, acts: seq<Action>, s: Sys, a: Action)
    requires Run(nodes, acts) == Next(s) && Clean(nodes, acts) && Room(s) && Unrivalled(s)
    requires Internal(a) && !Step(s, a).Blocked?
    ensures Step(s, a).Next? && Run(nodes, acts + [a]) == Step(s, a) && Clean(nodes, acts + [a])
    ensures Room(Step(s, a).s) && Unrivalled(Step(s, a).s) && Step(s, a).s.asked == s.asked && Closer(s, Step(s, a).s)
  {
    assert InBudget(s);
    hide *;
    Reached(nodes, acts, s);
    TableIsSound(nodes, acts, s);
    UnrivalledIsClean(s, a);
    if Step(s, a).Fails? {
      OnlyForeignDeletesFail(s, a);
    }
    var s' := Step(s, a).s;
    RunOneMore(nodes, acts, s, a);
    InternalAsksNothing(s, a, s');
    RoomKept(s, a, s');
    UnrivalledKept(s, a, s');
    InternalStepCloser(s, a, s');
  }

  /** Internal steps alone lead from the end of acts to a drained state. */
  ghost predicate DrainsBy(nodes: set<NodeId>, acts: seq<Action>, s: Sys, more: seq<Action>) {
    && (forall a <- more :: Internal(a)) && Run(nodes, acts + more).Next?
    && var d := Run(nodes, acts + more).s;
       InBudget(d) && Drained(d) && d.asked == s.asked
  }

  /** After every clean schedule, as long as ids are left and the deletes that wait have no rival, the
      broker can finish everything that is under way. */
  lemma {:induction false} CanDrain(nodes: set<NodeId>, acts: seq<Action>, s: Sys)
    requires Run(nodes, acts) == Next(s) && Clean(nodes, acts) && Room(s) && Unrivalled(s)
    ensures exists more :: DrainsBy(nodes, acts, s, more)
    decreases Sum(OutSizes(s.xapps)), JobRank(s.job), Sum(LineSizes(s.lines))
  {
    if Drained(s) {
      assert acts + [] == acts;
      assert DrainsBy(nodes, acts, s, []);
    } else {
      hide Run, Step, Drained, DrainsBy, Clean, Unrivalled, Room;
      var a := SomeoneCanMove(s);
      InternalStepsGoOn(nodes, acts, s, a);
      var s' := Step(s, a).s;
      CanDrain(nodes, acts + [a], s');
      var rest :| DrainsBy(nodes, acts + [a], s', rest);
      DrainsOneMore(nodes, acts, s, a, s', rest);
    }
  }

  lemma DrainsOneMore(nodes: set<NodeId>, acts: seq<Action>, s: Sys, a: Action, s': Sys, rest: seq<Action>)
    requires Internal(a) && s'.asked == s.asked && DrainsBy(nodes, acts + [a], s', rest)
    ensures DrainsBy(nodes, acts, s, [a] + rest)
  {
    hide Run, Drained;
    assert acts + ([a] + rest) == acts + [a] + rest;
  }

  /** Every request asked for by s is answered exactly once after more, and the tables have settled. */
  ghost predicate AllAnsweredBy(nodes: set<NodeId>, acts: seq<Action>, s: Sys, more: seq<Action>) {
    && (forall a <- more :: Internal(a)) && Run(nodes, acts + more).Next?
    && var d := Run(nodes, acts + more).s;
       && Settled(d)
       && (forall a <- s.asked :: a in d.asked && exists i :: Answers(d, i, a) && (forall j :: Answers(d, j, a) ==> j == i))
  }

  /** So every request made so far gets its answer, exactly once, without any further demand. */
  lemma EveryRequestGetsAnswered(nodes: set<NodeId>, acts: seq<Action>, s: Sys)
    requires Run(nodes, acts) == Next(s) && Clean(nodes, acts) && Room(s) && Unrivalled(s)
    ensures exists more :: AllAnsweredBy(nodes, acts, s, more)
  {
    CanDrain(nodes, acts, s);
    var more :| DrainsBy(nodes, acts, s, more);
    var d := Run(nodes, acts + more).s;
    DrainedMeansSettled(nodes, acts + more, d);
    hide Run, Drained, Settled, Answers, InBudget, Room, Unrivalled, Clean;
    forall a | a in s.asked ensures a in d.asked && exists i :: Answers(d, i, a) && (forall j :: Answers(d, j, a) ==> j == i) {
      DrainedMeansAnswered(nodes, acts + more, d, a);
    }
    assert AllAnsweredBy(nodes, acts, s, more);
  }
}
