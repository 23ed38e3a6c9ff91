/** What the hypotheses of the broker's theorems are for: the 16-bit ids, and workers that handle the
    messages of one node in the order in which they came. */
module BrokerLimits {
  import opened RicIds
  import opened IdMaps
  import opened Broker
  import opened BrokerInv
  import opened BrokerSteps
  import opened BrokerWorkers
  import opened BrokerClean
  import opened BrokerGone
  import opened BrokerSafety
  import opened BrokerTheorems
  import opened BrokerDrain

  // ----- 16-bit ids -----

  /** The id drawn for the request with number i, counted from zero. */
  function NthId(i: nat): nat {
    Draw(FIRST_REQ + i)
  }

  /** The first n ids drawn are non-zero and all different. */
  ghost predicate FreshIds(n: nat) {
    && (forall i: nat :: i < n ==> NthId(i) != 0)
    && (forall i: nat, j: nat :: i < j < n ==> NthId(i) != NthId(j))
  }

  /** The counter is good for 64515 requests and not for one more. */
  lemma FreshIdsIff(n: nat)
    ensures FreshIds(n) <==> n <= 64515
  {
    assert NthId(64515) == 0;
    assert forall i: nat :: i < 64515 ==> NthId(i) == FIRST_REQ + i;
  }

  /** The 16-bit store in place yields the drawn id for every draw exactly when the high half of the
      xApp's id is empty, and then for whatever the low half held. */
  lemma OverwriteSetsIff(was: nat)
    ensures (forall k: nat :: k < ID_SPACE ==> Overwrite16(was, k) == k) <==> was < ID_SPACE
    ensures forall k: nat :: k < ID_SPACE ==> Overwrite16(was, k) % ID_SPACE == k
  {
    assert Overwrite16(was, 0) == ID_SPACE * (was / ID_SPACE);
  }

  // ----- order of handling -----

  /** What a second worker of the same node would do: take the message behind the oldest. */
  function TakeSecond(s: Sys, n: NodeId): Sys
    requires n in s.lines && |s.lines[n].up| >= 2
  {
    var l := s.lines[n];
    SetLine(s, n, l.(worker := Busy(l.up[1], Received), up := [l.up[0]] + l.up[2..]))
  }

  /** A subscription response and, right behind it, the response to its delete wait for a worker. */
  predicate BothAnswered(s: Sys, n: NodeId, id: RicId) {
    && s.job.Idle? && n in s.lines && s.lines[n].worker.Free? && |s.lines[n].up| >= 2
    && s.lines[n].up[0] == Answer(Key(SubEv, id)) && s.lines[n].up[1] == Answer(Key(DelEv, id))
  }

  lemma BothInTable(s: Sys, n: NodeId, id: RicId)
    requires Inv(s) && BothAnswered(s, n, id)
    ensures Key(SubEv, id) in s.pending && Key(DelEv, id) in s.pending && id.req > 0 && id.req in s.ids.left
    ensures var x := s.ids.left[id.req];
            && x.xapp in s.addr && x.xapp in s.xapps && id.func == x.id.func && id.inst == x.id.inst
            && x in s.ids.right && s.ids.right[x].id.req == id.req
  {
    hide KindInv, JobInv, AskInv, LogInv, AddrInv, QueueInv;
    var l := s.lines[n];
    LineIsOk(s, n);
    assert UpKeys(l.up) == [Key(SubEv, id), Key(DelEv, id)] + UpKeys(l.up[2..]) by {
      assert l.up[1..][1..] == l.up[2..];
    }
    assert Flow(l)[0] == Key(SubEv, id) && Flow(l)[1] == Key(DelEv, id);
    FlowKnown(s, n, l, Key(SubEv, id));
    FlowKnown(s, n, l, Key(DelEv, id));
    assert FlowKey(s.origin, s.ids.left, s.deleted, Registering(s.job), n, Key(SubEv, id));
    assert InWaiting(s.origin, s.lines, Key(SubEv, id)) && InWaiting(s.origin, s.lines, Key(DelEv, id));
    OwnerIsConnected(s, id.req);
  }

  lemma OwnerIsConnected(s: Sys, k: nat)
    requires IdsInv(s) && AddrInv(s) && QueueInv(s) && k in s.ids.left
    ensures s.ids.left[k].xapp in s.addr && s.ids.left[k].xapp in s.xapps
  {
  }

  /** A worker takes the delete response first and gets through with it. */
  lemma DeleteFirst(s: Sys, n: NodeId, id: RicId) returns (s': Sys)
    requires BothAnswered(s, n, id) && Key(DelEv, id) in s.pending && Key(SubEv, id) in s.pending && id.req > 0 && id.req in s.ids.left
    requires var x := s.ids.left[id.req];
             && x.xapp in s.addr && x.xapp in s.xapps && id.func == x.id.func && id.inst == x.id.inst
             && x in s.ids.right && s.ids.right[x].id.req == id.req
    ensures var w := WorkerStep(n);
            Then(Then(Then(Then(Next(TakeSecond(s, n)), w), w), w), w) == Next(s')
    ensures s'.job.Idle? && n in s'.lines && s'.lines[n].worker.Free? && s'.lines[n].up != [] && s'.lines[n].up[0] == s.lines[n].up[0]
    ensures Key(SubEv, id) in s'.pending && id.req !in s'.ids.left
  {
    var x := s.ids.left[id.req];
    var m := Answer(Key(DelEv, id));
    var s0 := TakeSecond(s, n);
    var s1 := StopsEvent(s0, n, m);
    var s2 := LooksUpId(s1, n, m, x);
    var s3 := Forwards(s2, n, m, x);
    s' := DropsEntry(s3, n, m, x);
  }

  lemma StopsEvent(s: Sys, n: NodeId, m: Up) returns (s': Sys)
    requires n in s.lines && s.lines[n].worker == Busy(m, Received) && m.Answer? && m.key in s.pending
    ensures Step(s, WorkerStep(n)) == Next(s') && s' == SetWorker(s, n, Busy(m, Released)).(pending := s.pending - {m.key})
  {
    s' := Step(s, WorkerStep(n)).s;
  }

  lemma LooksUpId(s: Sys, n: NodeId, m: Up, x: XKey) returns (s': Sys)
    requires s.job.Idle? && n in s.lines && s.lines[n].worker == Busy(m, Released) && IdOf(m).req > 0 && IdOf(m).req in s.ids.left
    requires x == s.ids.left[IdOf(m).req] && IdOf(m).func == x.id.func && IdOf(m).inst == x.id.inst
    ensures Step(s, WorkerStep(n)) == Next(s') && s' == SetWorker(s, n, Busy(m, Resolved(x)))
  {
    s' := Step(s, WorkerStep(n)).s;
  }

  lemma Forwards(s: Sys, n: NodeId, m: Up, x: XKey) returns (s': Sys)
    requires n in s.lines && s.lines[n].worker == Busy(m, Resolved(x)) && m.Answer? && m.key.ev.DelEv?
    requires x.xapp in s.addr && x.xapp in s.xapps
    ensures Step(s, WorkerStep(n)) == Next(s')
    ensures s'.lines == s.lines[n := s.lines[n].(worker := Busy(m, Replied(x)))] && s'.ids == s.ids && s'.job == s.job && s'.pending == s.pending
  {
    s' := Step(s, WorkerStep(n)).s;
  }

  lemma DropsEntry(s: Sys, n: NodeId, m: Up, x: XKey) returns (s': Sys)
    requires s.job.Idle? && n in s.lines && s.lines[n].worker == Busy(m, Replied(x)) && x in s.ids.right
    ensures Step(s, WorkerStep(n)) == Next(s') && s' == SetWorker(s, n, Free).(ids := Remove(s.ids, x))
  {
    s' := Step(s, WorkerStep(n)).s;
  }

  /** Handled in the order in which they came, neither response fails; handled the other way round, the
      entry is gone when the subscription response is looked up, and an assertion fires. */
  lemma OrderIsNeeded(nodes: set<NodeId>, acts: seq<Action>, s: Sys, n: NodeId, id: RicId)
    requires Run(nodes, acts) == Next(s) && InBudget(s) && BothAnswered(s, n, id)
    ensures var w := WorkerStep(n);
            Then(Then(Then(Then(Then(Then(Then(Next(TakeSecond(s, n)), w), w), w), w), WorkerTake(n)), w), w) == Fails(Unregistered)
  {
    hide Run, Inv, Step, Resolve, Release, Reply, InBudget, GoneInv, CleanInv;
    Reached(nodes, acts, s);
    BothInTable(s, n, id);
    var s4 := DeleteFirst(s, n, id);
    LateAnswerFails(s4, n, id);
  }

  lemma LateAnswerFails(s: Sys, n: NodeId, id: RicId)
    requires s.job.Idle? && n in s.lines && s.lines[n].worker.Free? && s.lines[n].up != []
    requires s.lines[n].up[0] == Answer(Key(SubEv, id)) && Key(SubEv, id) in s.pending && id.req > 0 && id.req !in s.ids.left
    ensures Then(Then(Then(Next(s), WorkerTake(n)), WorkerStep(n)), WorkerStep(n)) == Fails(Unregistered)
  {
    var m := Answer(Key(SubEv, id));
    var s1 := SetLine(s, n, s.lines[n].(worker := Busy(m, Received), up := s.lines[n].up[1..]));
    assert Step(s, WorkerTake(n)) == Next(s1);
    var s2 := SetWorker(s1, n, Busy(m, Released)).(pending := s.pending - {m.key});
    assert Step(s1, WorkerStep(n)) == Next(s2);
  }

  // ----- a schedule in which that order matters -----

  const ASKED_ID := RicId(1, 0, 2)
  const DRAWN_ID := RicId(FIRST_REQ, 0, 2)
  const ASKER := XKey(FIRST_XAPP, ASKED_ID)
  const ENTRY := Entry(DRAWN_ID, 0, Subscription)
  const SUB := Key(SubEv, DRAWN_ID)
  const DEL := Key(DelEv, DRAWN_ID)
  const ORIGIN := map[FIRST_REQ := Origin(ASKER, 0, Subscription)]
  const TABLE := Add(EMPTY, ENTRY, ASKER)

  /** One node, and one xApp that asked for one subscription and left. */
  function Departing(out: seq<XMsg>, job: Job, ids: IdMap, req: nat, pending: set<Key>, l: Line, origin: map<nat, Origin>, deleted: set<nat>): Sys {
    Sys(map[FIRST_XAPP := Xapp(2, out, {}, false)], FIRST_XAPP + 1, map[FIRST_XAPP := 0], job, ids, req, pending, map[0 := l],
        map[ASKER := (0, Subscription)], origin, deleted, [])
  }

  function Left(): Sys {
    Departing([Request(ASKED_ID, 0, Subscription), Bye], Idle, EMPTY, FIRST_REQ, {}, Line(Free, [], [], {}), map[], {})
  }

  function Subscribed(): Sys {
    Departing([Bye], Idle, TABLE, FIRST_REQ + 1, {SUB}, Line(Free, [], [SUB], {}), ORIGIN, {})
  }

  function Deleted(): Sys {
    Departing([], Idle, TABLE, FIRST_REQ + 1, {SUB, DEL}, Line(Free, [], [SUB, DEL], {}), ORIGIN, {FIRST_REQ})
  }

  function Both(): Sys {
    Departing([], Idle, TABLE, FIRST_REQ + 1, {SUB, DEL}, Line(Free, [Answer(SUB), Answer(DEL)], [], {}), ORIGIN, {FIRST_REQ})
  }

  lemma AskAndLeave()
    ensures Then(Then(Then(Next(InitState({0})), Connect(0)), Ask(FIRST_XAPP, 0, 2, Subscription)), Leave(FIRST_XAPP)) == Next(Left())
  {
    var s0 := InitState({0});
    assert s0.lines == Left().lines;
    var s1 := s0.(nextXapp := FIRST_XAPP + 1, addr := map[FIRST_XAPP := 0], xapps := map[FIRST_XAPP := Xapp(1, [], {}, true)]);
    assert s1.xapps == s0.xapps[FIRST_XAPP := s1.xapps[FIRST_XAPP]] && s1.addr == s0.addr[FIRST_XAPP := 0];
    assert Step(s0, Connect(0)) == Next(s1);
    var s2 := s1.(xapps := map[FIRST_XAPP := Xapp(2, [Request(ASKED_ID, 0, Subscription)], {}, true)], asked := map[ASKER := (0, Subscription)]);
    assert s2.xapps == s1.xapps[FIRST_XAPP := s2.xapps[FIRST_XAPP]] && [] + [Request(ASKED_ID, 0, Subscription)] == s2.xapps[FIRST_XAPP].out;
    assert s2.asked == s1.asked[ASKER := (0, Subscription)];
    assert Step(s1, Ask(FIRST_XAPP, 0, 2, Subscription)) == Next(s2);
    assert Left().xapps == s2.xapps[FIRST_XAPP := Left().xapps[FIRST_XAPP]];
    assert [Request(ASKED_ID, 0, Subscription)] + [Bye] == Left().xapps[FIRST_XAPP].out;
    assert Step(s2, Leave(FIRST_XAPP)) == Next(Left());
  }

  lemma Register()
    ensures Then(Then(Then(Then(Then(Next(Left()), TakeRequest(FIRST_XAPP)), Work), Work), Work), Work) == Next(Subscribed())
  {
    var l := Line(Free, [], [], {});
    var d := Departing([Bye], Locked(ASKER, 0, Subscription), EMPTY, FIRST_REQ, {}, l, map[], {});
    assert Left().xapps[FIRST_XAPP].out[1..] == [Bye];
    assert d.xapps == Left().xapps[FIRST_XAPP := d.xapps[FIRST_XAPP]];
    assert Step(Left(), TakeRequest(FIRST_XAPP)) == Next(d);
    var d1 := Departing([Bye], Armed(SUB, ENTRY, ASKER), EMPTY, FIRST_REQ + 1, {SUB}, l, ORIGIN, {});
    assert d.pending + {SUB} == d1.pending;
    assert Step(d, Work) == Next(d1);
    var d2 := Departing([Bye], Sent(ENTRY, ASKER), EMPTY, FIRST_REQ + 1, {SUB}, l.(down := [SUB]), ORIGIN, {});
    assert d2.lines == d1.lines[0 := d2.lines[0]] && [] + [SUB] == [SUB];
    assert Step(d1, Work) == Next(d2);
  }

  lemma TakeLeave()
    ensures AllSubs(TABLE.right, FIRST_XAPP, [ENTRY])
    ensures Step(Subscribed(), TakeBye(FIRST_XAPP, [ENTRY])) == Next(Subscribed().(xapps := Deleted().xapps, job := Deleting([ENTRY])))
  {
    assert AllSubs(TABLE.right, FIRST_XAPP, [ENTRY]) by {
      var ks := [ASKER];
      assert SubKeys(TABLE.right, FIRST_XAPP, ks);
      assert [ENTRY] == seq(|ks|, i requires 0 <= i < |ks| => TABLE.right[ks[i]]);
    }
    hide AllSubs;
    assert Subscribed().xapps[FIRST_XAPP].out[1..] == [];
    assert Deleted().xapps == Subscribed().xapps[FIRST_XAPP := Deleted().xapps[FIRST_XAPP]];
  }

  lemma CleanUp()
    ensures Then(Then(Then(Next(Subscribed().(xapps := Deleted().xapps, job := Deleting([ENTRY]))), Work), Work), Work) == Next(Deleted())
  {
    var d1 := Subscribed().(xapps := Deleted().xapps, job := Deleting([ENTRY]));
    var d2 := d1.(pending := {SUB, DEL}, job := DelArmed(ENTRY, []));
    assert d1.pending + {DEL} == d2.pending && d1.job.todo[1..] == [];
    assert Step(d1, Work) == Next(d2);
    var d3 := Deleted().(job := Deleting([]));
    assert d3.lines == d2.lines[0 := d3.lines[0]] && [SUB] + [DEL] == [SUB, DEL] && d2.deleted + {FIRST_REQ} == d3.deleted;
    assert Step(d2, Work) == Next(d3);
  }

  lemma ServeBoth()
    ensures Then(Then(Next(Deleted()), AgentTake(0)), AgentTake(0)) == Next(Both())
  {
    var d := Deleted();
    var d1 := d.(lines := map[0 := Line(Free, [Answer(SUB)], [DEL], {DRAWN_ID})]);
    assert d.lines[0].down[1..] == [DEL] && [] + [Answer(SUB)] == [Answer(SUB)] && {} + {DRAWN_ID} == {DRAWN_ID};
    assert d1.lines == d.lines[0 := d1.lines[0]];
    assert Step(d, AgentTake(0)) == Next(d1);
    assert d1.lines[0].down[1..] == [] && [Answer(SUB)] + [Answer(DEL)] == Both().lines[0].up && {DRAWN_ID} - {DRAWN_ID} == {};
    assert Both().lines == d1.lines[0 := Both().lines[0]];
    assert Step(d1, AgentTake(0)) == Next(Both());
  }

  lemma BothIsOne()
    ensures InBudget(Both()) && BothAnswered(Both(), 0, DRAWN_ID)
  {
  }

  lemma RunThen(nodes: set<NodeId>, acts: seq<Action>, a: Action)
    ensures Run(nodes, acts + [a]) == Then(Run(nodes, acts), a)
  {
    assert (acts + [a])[..|acts|] == acts;
  }

  lemma RunThree(nodes: set<NodeId>, acts: seq<Action>, a: Action, b: Action, c: Action)
    ensures Run(nodes, acts + [a] + [b] + [c]) == Then(Then(Then(Run(nodes, acts), a), b), c)
  {
    hide *;
    RunThen(nodes, acts, a);
    RunThen(nodes, acts + [a], b);
    RunThen(nodes, acts + [a] + [b], c);
  }

  lemma LeftReached() returns (acts: seq<Action>)
    ensures Run({0}, acts) == Next(Left())
  {
    assert Run({0}, []) == Next(InitState({0}));
    hide *;
    AskAndLeave();
    RunThree({0}, [], Connect(0), Ask(FIRST_XAPP, 0, 2, Subscription), Leave(FIRST_XAPP));
    acts := [] + [Connect(0)] + [Ask(FIRST_XAPP, 0, 2, Subscription)] + [Leave(FIRST_XAPP)];
  }

  lemma SubscribedReached() returns (acts: seq<Action>)
    ensures Run({0}, acts) == Next(Subscribed())
  {
    var take := TakeRequest(FIRST_XAPP);
    hide *;
    var before := LeftReached();
    Register();
    RunThree({0}, before, take, Work, Work);
    acts := before + [take] + [Work] + [Work];
    RunThen({0}, acts, Work);
    RunThen({0}, acts + [Work], Work);
    acts := acts + [Work] + [Work];
  }

  lemma DeletedReached() returns (acts: seq<Action>)
    ensures Run({0}, acts) == Next(Deleted())
  {
    var bye := TakeBye(FIRST_XAPP, [ENTRY]);
    hide *;
    var before := SubscribedReached();
    TakeLeave();
    CleanUp();
    RunOneMore({0}, before, Subscribed(), bye);
    RunThree({0}, before + [bye], Work, Work, Work);
    acts := before + [bye] + [Work] + [Work] + [Work];
  }

  /** An xApp that subscribes and leaves at once brings both responses under way together. */
  lemma BothCanBeAnswered()
    ensures exists acts :: Run({0}, acts).Next? && InBudget(Run({0}, acts).s) && BothAnswered(Run({0}, acts).s, 0, DRAWN_ID)
  {
    hide *;
    var before := DeletedReached();
    ServeBoth();
    BothIsOne();
    RunThen({0}, before, AgentTake(0));
    RunThen({0}, before + [AgentTake(0)], AgentTake(0));
    assert Run({0}, before + [AgentTake(0)] + [AgentTake(0)]) == Next(Both());
  }
}
