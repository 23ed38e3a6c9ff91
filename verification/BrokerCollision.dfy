/** Two xApps under one RIC id: the schedules in which a delete meets the entry of another xApp. */
module BrokerCollision {
  import opened RicIds
  import opened IdMaps
  import opened Broker
  import opened BrokerLimits
  import opened BrokerSafety
  import opened BrokerTheorems

  // ----- phases of a schedule -----

  /** The outcome of a request being taken, armed, sent and added. */
  function Registered(s: Sys, x: nat): Sys
    requires x in s.xapps && s.xapps[x].out != [] && s.xapps[x].out[0].Request? && s.xapps[x].out[0].node in s.lines
  {
    var m := s.xapps[x].out[0];
    var k := Draw(s.reqId);
    var key := Key(EvOf(m.kind), m.id.(req := k));
    Send(Pop(s, x), m.node, key).(reqId := s.reqId + 1, pending := s.pending + {key},
                                  origin := s.origin[k := Origin(XKey(x, m.id), m.node, m.kind)],
                                  ids := Add(s.ids, Entry(m.id.(req := k), m.node, m.kind), XKey(x, m.id)))
  }

  lemma Registers(s: Sys, x: nat)
    requires s.job.Idle? && x in s.xapps && s.xapps[x].out != [] && s.xapps[x].out[0].Request?
    requires var m := s.xapps[x].out[0];
             && x < ID_SPACE && x <= s.nextXapp && m.node in s.lines && m.id.req < ID_SPACE
             && Key(EvOf(m.kind), m.id.(req := Draw(s.reqId))) !in s.pending
             && Draw(s.reqId) !in s.ids.left && XKey(x, m.id) !in s.ids.right
    ensures Then(Then(Then(Then(Then(Next(s), TakeRequest(x)), Work), Work), Work), Work) == Next(Registered(s, x))
  {
    var m := s.xapps[x].out[0];
    var k := Draw(s.reqId);
    assert Overwrite16(m.id.req, k) == k;
    var key := Key(EvOf(m.kind), m.id.(req := k));
    var e := Entry(m.id.(req := k), m.node, m.kind);
    var s1 := Pop(s, x).(job := Locked(XKey(x, m.id), m.node, m.kind));
    assert Step(s, TakeRequest(x)) == Next(s1);
    var s2 := s1.(reqId := s.reqId + 1, pending := s.pending + {key},
                  origin := s.origin[k := Origin(XKey(x, m.id), m.node, m.kind)], job := Armed(key, e, XKey(x, m.id)));
    assert Step(s1, Work) == Next(s2);
    var s3 := Send(s2, m.node, key).(job := Sent(e, XKey(x, m.id)));
    assert Step(s2, Work) == Next(s3);
    var s4 := s3.(ids := Add(s.ids, e, XKey(x, m.id)), job := Added);
    assert Step(s3, Work) == Next(s4);
    assert Step(s4, Work) == Next(s4.(job := Idle));
  }

  /** A subscription request waits at the agent of node n for xApp x, and nothing else is on the line. */
  predicate Waits(s: Sys, n: NodeId, id: RicId, x: XKey) {
    && s.job.Idle? && n in s.lines && s.lines[n] == Line(Free, [], [Key(SubEv, id)], {})
    && Key(SubEv, id) in s.pending && id.req > 0 && id.req in s.ids.left && s.ids.left[id.req] == x
    && id.func == x.id.func && id.inst == x.id.inst && x.xapp in s.addr && x.xapp in s.xapps
  }

  lemma Arrives(s: Sys, n: NodeId, id: RicId, x: XKey)
    requires Waits(s, n, id, x)
    ensures Then(Then(Next(s), AgentTake(n)), WorkerTake(n)) == Next(SetLine(s, n, Line(Busy(Answer(Key(SubEv, id)), Received), [], [], {id})))
  {
    var key := Key(SubEv, id);
    var m := Answer(key);
    var s1 := SetLine(s, n, Line(Free, [m], [], {id}));
    assert [key][1..] == [] && [] + [m] == [m] && {} + {id} == {id};
    assert Step(s, AgentTake(n)) == Next(s1);
    var s2 := SetLine(s, n, Line(Busy(m, Received), [], [], {id}));
    assert [m][1..] == [];
    assert s1.lines[n := s2.lines[n]] == s2.lines;
  }

  lemma Replies(s: Sys, n: NodeId, m: Up, x: XKey) returns (s': Sys)
    requires n in s.lines && s.lines[n].worker == Busy(m, Resolved(x)) && m.Answer? && m.key.ev.SubEv?
    requires x.xapp in s.addr && x.xapp in s.xapps
    ensures Step(s, WorkerStep(n)) == Next(s')
    ensures s'.ids == s.ids && s'.job == s.job && s'.reqId == s.reqId && s'.nextXapp == s.nextXapp
    ensures s'.xapps == s.xapps[x.xapp := s.xapps[x.xapp].(confirmed := s.xapps[x.xapp].confirmed + {x.id})]
  {
    s' := Step(s, WorkerStep(n)).s;
  }

  /** The agent answers and the answer is delivered. */
  lemma Delivered(s: Sys, n: NodeId, id: RicId, x: XKey) returns (s': Sys)
    requires Waits(s, n, id, x)
    ensures var w := WorkerStep(n);
            Then(Then(Then(Then(Then(Next(s), AgentTake(n)), WorkerTake(n)), w), w), w) == Next(s')
    ensures s'.ids == s.ids && s'.job == s.job && s'.reqId == s.reqId && s'.nextXapp == s.nextXapp
    ensures s'.xapps == s.xapps[x.xapp := s.xapps[x.xapp].(confirmed := s.xapps[x.xapp].confirmed + {x.id})]
  {
    hide Step;
    var m := Answer(Key(SubEv, id));
    Arrives(s, n, id, x);
    var s2 := SetLine(s, n, Line(Busy(m, Received), [], [], {id}));
    var s3 := StopsEvent(s2, n, m);
    var s4 := LooksUpId(s3, n, m, x);
    s' := Replies(s4, n, m, x);
  }

  // ----- the collision -----

  const SAME_ID := RicId(1, 0, 2)
  const SECOND_XAPP := FIRST_XAPP + 1

  function FirstEntry(kind: Kind): Entry {
    Entry(SAME_ID.(req := FIRST_REQ), 0, kind)
  }

  const SECOND_ENTRY := Entry(SAME_ID.(req := FIRST_REQ + 1), 1, Subscription)

  function Fresh(id: RicId, node: NodeId, kind: Kind): Xapp {
    Xapp(2, [Request(id, node, kind)], {}, true)
  }

  /** Two xApps, whose first requests carry the same RIC id. */
  function Asked(kind: Kind): Sys {
    InitState({0, 1}).(nextXapp := FIRST_XAPP + 2, addr := map[FIRST_XAPP := 0, SECOND_XAPP := 1],
                       xapps := map[FIRST_XAPP := Fresh(SAME_ID, 0, kind), SECOND_XAPP := Fresh(SAME_ID, 1, Subscription)],
                       asked := map[XKey(FIRST_XAPP, SAME_ID) := (0, kind), XKey(SECOND_XAPP, SAME_ID) := (1, Subscription)])
  }

  /** Two xApps that have not asked for anything. */
  function Connected(): Sys {
    InitState({0, 1}).(nextXapp := FIRST_XAPP + 2, addr := map[FIRST_XAPP := 0, SECOND_XAPP := 1],
                       xapps := map[FIRST_XAPP := Xapp(1, [], {}, true), SECOND_XAPP := Xapp(1, [], {}, true)])
  }

  lemma BothConnect()
    ensures Then(Then(Next(InitState({0, 1})), Connect(0)), Connect(1)) == Next(Connected())
  {
    var none := Xapp(1, [], {}, true);
    var s0 := InitState({0, 1});
    var s1 := s0.(nextXapp := FIRST_XAPP + 1, addr := map[FIRST_XAPP := 0], xapps := map[FIRST_XAPP := none]);
    assert s1.xapps == s0.xapps[FIRST_XAPP := none] && s1.addr == s0.addr[FIRST_XAPP := 0];
    assert Step(s0, Connect(0)) == Next(s1);
    assert Connected().xapps == s1.xapps[SECOND_XAPP := none] && Connected().addr == s1.addr[SECOND_XAPP := 1];
    assert s1.addr.Values == {0};
    assert Step(s1, Connect(1)) == Next(Connected());
  }

  lemma BothAsk(kind: Kind)
    ensures Then(Then(Next(Connected()), Ask(FIRST_XAPP, 0, 2, kind)), Ask(SECOND_XAPP, 1, 2, Subscription)) == Next(Asked(kind))
  {
    var first, second := Fresh(SAME_ID, 0, kind), Fresh(SAME_ID, 1, Subscription);
    var s2 := Connected();
    var s3 := s2.(xapps := s2.xapps[FIRST_XAPP := first], asked := map[XKey(FIRST_XAPP, SAME_ID) := (0, kind)]);
    assert s3.asked == s2.asked[XKey(FIRST_XAPP, SAME_ID) := (0, kind)];
    assert [] + first.out == first.out && [] + second.out == second.out;
    assert Step(s2, Ask(FIRST_XAPP, 0, 2, kind)) == Next(s3);
    assert Asked(kind).xapps == s3.xapps[SECOND_XAPP := second];
    assert Asked(kind).asked == s3.asked[XKey(SECOND_XAPP, SAME_ID) := (1, Subscription)];
    assert Step(s3, Ask(SECOND_XAPP, 1, 2, Subscription)) == Next(Asked(kind));
  }

  function Both(kind: Kind): Sys {
    Registered(Registered(Asked(kind), FIRST_XAPP), SECOND_XAPP)
  }

  lemma FirstRegistered(kind: Kind)
    ensures var t := Registered(Asked(kind), FIRST_XAPP);
            && t.xapps == Asked(kind).xapps[FIRST_XAPP := Xapp(2, [], {}, true)] && t.addr == Asked(kind).addr
            && t.reqId == FIRST_REQ + 1 && t.nextXapp == FIRST_XAPP + 2 && t.job == Idle
            && t.pending == {Key(EvOf(kind), SAME_ID.(req := FIRST_REQ))} && t.lines.Keys == {0, 1} && t.lines[1] == Line(Free, [], [], {})
            && t.ids == Add(EMPTY, FirstEntry(kind), XKey(FIRST_XAPP, SAME_ID))
  {
    assert [Request(SAME_ID, 0, kind)][1..] == [];
  }

  lemma BothRegister(kind: Kind)
    ensures Then(Then(Then(Then(Then(Next(Asked(kind)), TakeRequest(FIRST_XAPP)), Work), Work), Work), Work) == Next(Registered(Asked(kind), FIRST_XAPP))
    ensures Then(Then(Then(Then(Then(Next(Registered(Asked(kind), FIRST_XAPP)), TakeRequest(SECOND_XAPP)), Work), Work), Work), Work) == Next(Both(kind))
  {
    Registers(Asked(kind), FIRST_XAPP);
    FirstRegistered(kind);
    hide Registered;
    Registers(Registered(Asked(kind), FIRST_XAPP), SECOND_XAPP);
  }

  lemma BothWait(kind: Kind)
    ensures Waits(Both(kind), 1, SECOND_ENTRY.id, XKey(SECOND_XAPP, SAME_ID))
    ensures Both(kind).ids == Add(Add(EMPTY, FirstEntry(kind), XKey(FIRST_XAPP, SAME_ID)), SECOND_ENTRY, XKey(SECOND_XAPP, SAME_ID))
    ensures SECOND_XAPP in Both(kind).xapps && Both(kind).xapps[SECOND_XAPP] == Xapp(2, [], {}, true) && InBudget(Both(kind))
  {
    FirstRegistered(kind);
    var t := Registered(Asked(kind), FIRST_XAPP);
    assert t.xapps[SECOND_XAPP] == Fresh(SAME_ID, 1, Subscription);
    hide Registered, Asked, Waits, Add;
    SecondRegistered(t);
  }

  lemma SecondRegistered(t: Sys)
    requires SECOND_XAPP in t.xapps && t.xapps[SECOND_XAPP] == Fresh(SAME_ID, 1, Subscription) && t.job.Idle? && t.reqId == FIRST_REQ + 1
    requires 1 in t.lines && t.lines[1] == Line(Free, [], [], {}) && SECOND_XAPP in t.addr && t.nextXapp == FIRST_XAPP + 2
    ensures var s := Registered(t, SECOND_XAPP);
            && Waits(s, 1, SECOND_ENTRY.id, XKey(SECOND_XAPP, SAME_ID)) && s.ids == Add(t.ids, SECOND_ENTRY, XKey(SECOND_XAPP, SAME_ID))
            && SECOND_XAPP in s.xapps && s.xapps[SECOND_XAPP] == Xapp(2, [], {}, true) && InBudget(s)
  {
    assert [Request(SAME_ID, 1, Subscription)][1..] == [] && [] + [Key(SubEv, SECOND_ENTRY.id)] == [Key(SubEv, SECOND_ENTRY.id)];
  }

  /** The second xApp's delete is due, and its lookup yields the entry of the first one. */
  ghost predicate Collides(s: Sys, kind: Kind) {
    && XKey(SECOND_XAPP, SAME_ID) in s.ids.right && s.ids.right[XKey(SECOND_XAPP, SAME_ID)] == SECOND_ENTRY
    && LooksUp(s, SECOND_XAPP, Some(FirstEntry(kind))) && s.xapps[SECOND_XAPP].out[0] == Delete(SAME_ID)
  }

  lemma TableCollides(kind: Kind)
    ensures var right := Both(kind).ids.right; var x := XKey(SECOND_XAPP, SAME_ID);
            x in right && right[x] == SECOND_ENTRY && Found(right, SAME_ID, Some(FirstEntry(kind)))
  {
    BothWait(kind);
    hide Both, Waits, Found;
    TwoXappsCollide(SAME_ID, FirstEntry(kind), SECOND_ENTRY, FIRST_XAPP, SECOND_XAPP);
  }

  lemma AsksDelete(s: Sys) returns (s': Sys)
    requires s.job.Idle? && SECOND_XAPP in s.xapps && s.xapps[SECOND_XAPP] == Xapp(2, [], {SAME_ID}, true)
    ensures Step(s, AskDelete(SECOND_XAPP, SAME_ID)) == Next(s') && s'.ids == s.ids && s'.job == s.job
    ensures s'.reqId == s.reqId && s'.nextXapp == s.nextXapp
    ensures SECOND_XAPP in s'.xapps && s'.xapps[SECOND_XAPP].out == [Delete(SAME_ID)]
  {
    assert [] + [Delete(SAME_ID)] == [Delete(SAME_ID)];
    s' := Step(s, AskDelete(SECOND_XAPP, SAME_ID)).s;
  }

  lemma DeleteIsDue(s: Sys, kind: Kind) returns (s': Sys)
    requires s.job.Idle? && s.ids == Both(kind).ids && InBudget(s)
    requires SECOND_XAPP in s.xapps && s.xapps[SECOND_XAPP] == Xapp(2, [], {SAME_ID}, true)
    ensures Step(s, AskDelete(SECOND_XAPP, SAME_ID)) == Next(s') && InBudget(s') && Collides(s', kind)
  {
    hide Both, Step, Found;
    s' := AsksDelete(s);
    TableCollides(kind);
  }

  // ----- the schedule as a whole -----

  predicate NoDelete(acts: seq<Action>) {
    forall a <- acts :: !a.TakeDelete?
  }

  lemma NoDeleteMore(acts: seq<Action>, a: Action)
    requires NoDelete(acts) && !a.TakeDelete?
    ensures NoDelete(acts + [a])
  {
  }

  lemma {:induction false} NoDeleteIsClean(nodes: set<NodeId>, acts: seq<Action>)
    requires NoDelete(acts)
    ensures Clean(nodes, acts)
  {
    if acts == [] {
    } else {
      assert acts[|acts| - 1] in acts;
      NoDeleteIsClean(nodes, acts[..|acts| - 1]);
    }
  }

  lemma RunFive(nodes: set<NodeId>, acts: seq<Action>, a: Action, b: Action, c: Action, d: Action, e: Action)
    requires NoDelete(acts) && !a.TakeDelete? && !b.TakeDelete? && !c.TakeDelete? && !d.TakeDelete? && !e.TakeDelete?
    ensures Run(nodes, acts + [a] + [b] + [c] + [d] + [e]) == Then(Then(Then(Then(Then(Run(nodes, acts), a), b), c), d), e)
    ensures NoDelete(acts + [a] + [b] + [c] + [d] + [e])
  {
    hide *;
    RunThree(nodes, acts, a, b, c);
    RunThen(nodes, acts + [a] + [b] + [c], d);
    RunThen(nodes, acts + [a] + [b] + [c] + [d], e);
    NoDeleteMore(acts, a);
    NoDeleteMore(acts + [a], b);
    NoDeleteMore(acts + [a] + [b], c);
    NoDeleteMore(acts + [a] + [b] + [c], d);
    NoDeleteMore(acts + [a] + [b] + [c] + [d], e);
  }

  lemma AskedReached(kind: Kind) returns (acts: seq<Action>)
    ensures Run({0, 1}, acts) == Next(Asked(kind)) && NoDelete(acts)
  {
    assert Run({0, 1}, []) == Next(InitState({0, 1}));
    var a, b := Ask(FIRST_XAPP, 0, 2, kind), Ask(SECOND_XAPP, 1, 2, Subscription);
    hide *;
    BothConnect();
    BothAsk(kind);
    RunThree({0, 1}, [], Connect(0), Connect(1), a);
    acts := [] + [Connect(0)] + [Connect(1)] + [a];
    RunThen({0, 1}, acts, b);
    acts := acts + [b];
  }

  lemma BothReached(kind: Kind) returns (acts: seq<Action>)
    ensures Run({0, 1}, acts) == Next(Both(kind)) && NoDelete(acts)
  {
    var a, b := TakeRequest(FIRST_XAPP), TakeRequest(SECOND_XAPP);
    hide *;
    var before := AskedReached(kind);
    BothRegister(kind);
    RunFive({0, 1}, before, a, Work, Work, Work, Work);
    acts := before + [a] + [Work] + [Work] + [Work] + [Work];
    RunFive({0, 1}, acts, b, Work, Work, Work, Work);
    acts := acts + [b] + [Work] + [Work] + [Work] + [Work];
  }

  lemma AnswerReached(kind: Kind) returns (acts: seq<Action>, s: Sys)
    ensures Run({0, 1}, acts) == Next(s) && NoDelete(acts)
    ensures s.job.Idle? && s.ids == Both(kind).ids && InBudget(s)
    ensures SECOND_XAPP in s.xapps && s.xapps[SECOND_XAPP] == Xapp(2, [], {SAME_ID}, true)
  {
    var x := XKey(SECOND_XAPP, SAME_ID);
    assert x.xapp == SECOND_XAPP && x.id == SAME_ID;
    BothWait(kind);
    assert {} + {SAME_ID} == {SAME_ID};
    hide Run, Then, Step, Both, Asked, Registered, Add;
    var before := BothReached(kind);
    s := Delivered(Both(kind), 1, SECOND_ENTRY.id, x);
    var w := WorkerStep(1);
    RunFive({0, 1}, before, AgentTake(1), WorkerTake(1), w, w, w);
    acts := before + [AgentTake(1)] + [WorkerTake(1)] + [w] + [w] + [w];
  }

  /** Such a state is reached by a clean schedule, whatever the first xApp asked for. */
  lemma CollisionReached(kind: Kind)
    ensures exists acts :: Clean({0, 1}, acts) && Run({0, 1}, acts).Next? && InBudget(Run({0, 1}, acts).s) && Collides(Run({0, 1}, acts).s, kind)
  {
    var del := AskDelete(SECOND_XAPP, SAME_ID);
    hide *;
    var before, s := AnswerReached(kind);
    var s' := DeleteIsDue(s, kind);
    DeleteAdded(before, s);
    assert Run({0, 1}, before + [del]) == Next(s');
  }

  lemma DeleteAdded(acts: seq<Action>, s: Sys)
    requires Run({0, 1}, acts) == Next(s) && NoDelete(acts)
    ensures var more := acts + [AskDelete(SECOND_XAPP, SAME_ID)];
            Clean({0, 1}, more) && Run({0, 1}, more) == Step(s, AskDelete(SECOND_XAPP, SAME_ID))
  {
    var del := AskDelete(SECOND_XAPP, SAME_ID);
    hide *;
    RunThen({0, 1}, acts, del);
    ThenIsStep(s, del);
    NoDeleteMore(acts, del);
    NoDeleteIsClean({0, 1}, acts + [del]);
  }

  lemma ThenIsStep(s: Sys, a: Action)
    ensures Then(Next(s), a) == Step(s, a)
  {
  }

  /** If the first xApp sent a control request, the delete of the second one ends in a failed assertion. */
  lemma CollisionFails(s: Sys)
    requires Collides(s, Control)
    ensures Step(s, TakeDelete(SECOND_XAPP, Some(FirstEntry(Control)))) == Fails(DeleteNotSubscription)
  {
  }

  /** If the first xApp subscribed, it is its subscription that gets deleted. */
  lemma CollisionDeletesForeign(s: Sys)
    requires Collides(s, Subscription)
    ensures var o := Step(s, TakeDelete(SECOND_XAPP, Some(FirstEntry(Subscription))));
            o.Next? && o.s.job == Deleting([FirstEntry(Subscription)]) && !OwnDeleted(s, SECOND_XAPP, o)
  {
    var o := Step(s, TakeDelete(SECOND_XAPP, Some(FirstEntry(Subscription))));
    assert [FirstEntry(Subscription)][0] != [SECOND_ENTRY][0];
  }
}
