/** The blocking calls of an xApp: the user thread registers a procedure, arms a pending event, sends a
    request and waits on a condition variable; the event loop stops the pending event and signals when
    the answer comes (e42_xapp.c, msg_handler_xapp.c, pending_event_xapp.c, act_proc.c, sync_ui.c). */
module XappSync {
  import IdMaps
  import opened RicIds

  datatype Proc = SubscriptionProc | ControlProc

  /** An active procedure; its id gets the request number when it is looked up for the first time. */
  datatype Val = Val(proc: Proc, id: RicId)

  /** Where the user thread stands; Waiting is inside the loop of the wait. */
  datatype User =
    | Ready
    | Asking(key: Key)
    | Armed(key: Key)
    | SentOnly(key: Key)
    | Requested(key: Key)
    | Waiting(key: Key)
    | Left(key: Key)

  /** The event loop between stopping a pending event and signalling. */
  datatype Loop = Idle | Stopped

  datatype State = State(user: User, loop: Loop, reg: map<nat, Val>, nextReq: nat, pend: set<Key>, wire: seq<Key>,
                         flag: bool, ack: bool)

  datatype Fault = NotRegistered | Overflow | PendingMissing | NoAck | TimedOut

  datatype Outcome = Next(s: State) | Fails(fault: Fault) | Blocked

  datatype Action =
    | Report(func: nat) | RmReport(req: nat) | Control(func: nat)
    | Arm | Send | Lock | Wake | Timeout | Finish
    | Answer(pick: Key) | Signal | Indicate(req: nat)

  const START := State(Ready, Idle, map[], 1, {}, [], false, false)

  /** The order that the tree of pending events is kept in: by kind alone. */
  function CmpEvent(a: Key, b: Key): int {
    CmpNat(Rank(a.ev), Rank(b.ev))
  }

  /** find_act_proc: the value under a key, its id completed. */
  function Find(reg: map<nat, Val>, req: nat): RicId
    requires req in reg
  {
    reg[req].id.(req := req)
  }

  function Complete(reg: map<nat, Val>, req: nat): map<nat, Val>
    requires req in reg
  {
    reg[req := reg[req].(id := Find(reg, req))]
  }

  /** generate_ric_gen_id: registers the procedure under the next key. */
  function Generate(s: State, proc: Proc, ev: Ev, func: nat): Outcome {
    if s.user != Ready then Blocked
    else if s.nextReq >= 65536 then Fails(Overflow)
    else Next(s.(reg := s.reg[s.nextReq := Val(proc, RicId(0, 0, func))], nextReq := s.nextReq + 1,
                 user := Asking(Key(ev, RicId(s.nextReq, 0, func)))))
  }

  ghost function Step(s: State, a: Action): Outcome {
    match a
    case Report(func) => Generate(s, SubscriptionProc, SubEv, func)
    case Control(func) => Generate(s, ControlProc, CtrlEv, func)
    case RmReport(req) =>
      if s.user != Ready then Blocked
      else if req !in s.reg then Fails(NotRegistered)
      else Next(s.(reg := Complete(s.reg, req), user := Asking(Key(DelEv, Find(s.reg, req)))))
    case Arm =>
      if s.user.Asking? && s.user.key.ev.SubEv? then Next(s.(pend := s.pend + {s.user.key}, user := Armed(s.user.key)))
      else if s.user.SentOnly? then Next(s.(pend := s.pend + {s.user.key}, user := Requested(s.user.key)))
      else Blocked
    case Send =>
      if s.user.Armed? then Next(s.(wire := s.wire + [s.user.key], user := Requested(s.user.key)))
      else if s.user.Asking? && !s.user.key.ev.SubEv? then Next(s.(wire := s.wire + [s.user.key], user := SentOnly(s.user.key)))
      else Blocked
    case Lock =>
      if s.user.Requested? then Next(s.(flag := false, ack := false, user := Waiting(s.user.key))) else Blocked
    case Wake =>
      if !s.user.Waiting? then Blocked
      else if !s.flag then Next(s)
      else if !s.ack then Fails(NoAck)
      else Next(s.(user := Left(s.user.key)))
    case Timeout => if s.user.Waiting? then Fails(TimedOut) else Blocked
    case Finish =>
      if !s.user.Left? then Blocked
      else if s.user.key.ev.SubEv? then Next(s.(user := Ready))
      else if s.user.key.id.req !in s.reg then Fails(NotRegistered)
      else Next(s.(reg := s.reg - {s.user.key.id.req}, user := Ready))
    case Answer(pick) =>
      // The tree hands out some event of the kind of the key that was rebuilt.
      if s.loop != Idle || s.wire == [] then Blocked
      else if s.wire[0].id.req !in s.reg then Fails(NotRegistered)
      else
        var key := Key(s.wire[0].ev, Find(s.reg, s.wire[0].id.req));
        if forall p <- s.pend :: CmpEvent(key, p) != 0 then Fails(PendingMissing)
        else if pick !in s.pend || CmpEvent(key, pick) != 0 then Blocked
        else Next(s.(reg := Complete(s.reg, s.wire[0].id.req), pend := s.pend - {pick}, wire := s.wire[1..], loop := Stopped))
    case Signal => if s.loop.Stopped? then Next(s.(flag := true, ack := true, loop := Idle)) else Blocked
    case Indicate(req) => if req in s.reg then Next(s.(reg := Complete(s.reg, req))) else Next(s)
  }

  ghost function Run(acts: seq<Action>): Outcome {
    if acts == [] then Next(START)
    else
      var before := Run(acts[..|acts| - 1]);
      if before.Next? then Step(before.s, acts[|acts| - 1]) else before
  }

  /** Hypothesis: deletes and control requests are sent and armed without the answer in between; handles
      are those the xApp was given; no more than 16 bits of request numbers; nothing times out. */
  ghost predicate Prompt(s: State, a: Action) {
    && (a.Answer? ==> !s.user.SentOnly?)
    && (a.RmReport? ==> a.req in s.reg)
    && (a.Report? || a.Control? ==> s.nextReq < 65536)
    && !a.Timeout?
  }

  ghost predicate PromptRun(acts: seq<Action>) {
    acts != [] ==>
      var front := acts[..|acts| - 1];
      PromptRun(front) && (Run(front).Next? ==> Prompt(Run(front).s, acts[|acts| - 1]))
  }

  /** Whether a signal came since the wait last took its lock, after one more step. */
  function SignalledBy(before: bool, a: Action): bool {
    if a.Signal? then true else if a.Lock? then false else before
  }

  function Signalled(acts: seq<Action>): bool {
    if acts == [] then false else SignalledBy(Signalled(acts[..|acts| - 1]), acts[|acts| - 1])
  }

  // ----- invariant -----

  ghost predicate RegInv(reg: map<nat, Val>, next: nat) {
    next >= 1 && forall k <- reg :: 1 <= k < next && reg[k].id.inst == 0 && (reg[k].id.req == 0 || reg[k].id.req == k)
  }

  /** The request of the user thread was answered and the event loop has signalled. */
  predicate Quiet(s: State) {
    s.pend == {} && s.wire == [] && s.loop == Idle
  }

  /** The request is pending; its answer is being handled; or it has been handled. */
  predicate Progress(s: State, key: Key) {
    || (s.pend == {key} && s.wire == [key] && s.loop == Idle)
    || (s.pend == {} && s.wire == [] && s.loop == Stopped)
    || Quiet(s)
  }

  ghost predicate Inv(s: State, signalled: bool) {
    && RegInv(s.reg, s.nextReq)
    && (s.user != Ready ==> s.user.key.id.req in s.reg && s.user.key.id == Find(s.reg, s.user.key.id.req))
    && match s.user
       case Ready => Quiet(s)
       case Asking(_) => Quiet(s)
       case Armed(key) => s.pend == {key} && s.wire == [] && s.loop == Idle
       case SentOnly(key) => s.pend == {} && s.wire == [key] && s.loop == Idle
       case Requested(key) => Progress(s, key)
       case Waiting(key) => Progress(s, key) && s.flag == s.ack == signalled && (s.flag ==> Quiet(s))
       case Left(key) => Quiet(s) && signalled && s.flag && s.ack
  }

  lemma GenerateKeeps(s: State, signalled: bool, a: Action)
    requires Inv(s, signalled) && Prompt(s, a) && (a.Report? || a.Control?)
    ensures !Step(s, a).Fails? && (Step(s, a).Next? ==> Inv(Step(s, a).s, SignalledBy(signalled, a)))
  {
  }

  lemma LookupKeeps(s: State, signalled: bool, a: Action)
    requires Inv(s, signalled) && Prompt(s, a) && (a.RmReport? || a.Indicate?)
    ensures !Step(s, a).Fails? && (Step(s, a).Next? ==> Inv(Step(s, a).s, SignalledBy(signalled, a)))
  {
  }

  lemma AnswerKeeps(s: State, signalled: bool, a: Action)
    requires Inv(s, signalled) && Prompt(s, a) && a.Answer?
    ensures !Step(s, a).Fails? && (Step(s, a).Next? ==> Inv(Step(s, a).s, SignalledBy(signalled, a)))
  {
    if s.wire != [] {
      var key := Key(s.wire[0].ev, Find(s.reg, s.wire[0].id.req));
      assert key == s.user.key && key in s.pend;
    }
  }

  lemma UserKeeps(s: State, signalled: bool, a: Action)
    requires Inv(s, signalled) && Prompt(s, a) && (a.Arm? || a.Send? || a.Lock? || a.Wake? || a.Timeout?)
    ensures !Step(s, a).Fails? && (Step(s, a).Next? ==> Inv(Step(s, a).s, SignalledBy(signalled, a)))
  {
    hide RegInv;
  }

  lemma EndKeeps(s: State, signalled: bool, a: Action)
    requires Inv(s, signalled) && Prompt(s, a) && (a.Signal? || a.Finish?)
    ensures !Step(s, a).Fails? && (Step(s, a).Next? ==> Inv(Step(s, a).s, SignalledBy(signalled, a)))
  {
  }

  lemma StepKeeps(s: State, signalled: bool, a: Action)
    requires Inv(s, signalled) && Prompt(s, a)
    ensures !Step(s, a).Fails? && (Step(s, a).Next? ==> Inv(Step(s, a).s, SignalledBy(signalled, a)))
  {
    hide Inv, Prompt, Step;
    match a
    case Report(_) => GenerateKeeps(s, signalled, a);
    case Control(_) => GenerateKeeps(s, signalled, a);
    case RmReport(_) => LookupKeeps(s, signalled, a);
    case Indicate(_) => LookupKeeps(s, signalled, a);
    case Answer(_) => AnswerKeeps(s, signalled, a);
    case Signal => EndKeeps(s, signalled, a);
    case Finish => EndKeeps(s, signalled, a);
    case _ => UserKeeps(s, signalled, a);
  }

  /** Under the hypothesis no interleaving of the two threads fails. */
  lemma {:induction false} PromptRunsAreSafe(acts: seq<Action>)
    requires PromptRun(acts)
    ensures !Run(acts).Fails? && (Run(acts).Next? ==> Inv(Run(acts).s, Signalled(acts)))
  {
    hide Step, Inv, Prompt;
    if acts == [] {
      StartHolds();
    } else {
      var front := acts[..|acts| - 1];
      PromptRunsAreSafe(front);
      if Run(front).Next? {
        StepKeeps(Run(front).s, Signalled(front), acts[|acts| - 1]);
      }
    }
  }

  /** A step that goes through met the hypothesis. */
  lemma NextIsPrompt(s: State, signalled: bool, a: Action)
    requires Inv(s, signalled) && Step(s, a).Next?
    ensures Prompt(s, a)
  {
  }

  /** So the invariant holds in whatever state a schedule reaches. */
  lemma {:induction false} NextHolds(acts: seq<Action>, s: State)
    requires Run(acts) == Next(s)
    ensures Inv(s, Signalled(acts))
  {
    hide Step, Inv, Prompt;
    if acts == [] {
      StartHolds();
    } else {
      var before := Run(acts[..|acts| - 1]).s;
      NextHolds(acts[..|acts| - 1], before);
      NextIsPrompt(before, Signalled(acts[..|acts| - 1]), acts[|acts| - 1]);
      StepKeeps(before, Signalled(acts[..|acts| - 1]), acts[|acts| - 1]);
    }
  }

  lemma StartHolds()
    ensures Inv(START, false)
  {
  }

  // ----- calls -----

  /** The procedures that a schedule registers, with their RAN functions. The r-th one gets number r. */
  function Made(acts: seq<Action>): seq<(Proc, nat)> {
    if acts == [] then []
    else
      var before := Made(acts[..|acts| - 1]);
      match acts[|acts| - 1]
      case Report(func) => before + [(SubscriptionProc, func)]
      case Control(func) => before + [(ControlProc, func)]
      case _ => before
  }

  /** The requests that the calls of a schedule are to put on the wire: reports and controls under the
      next number, deletes under the handle given and the RAN function it was made with. */
  function Calls(acts: seq<Action>): seq<Key> {
    if acts == [] then []
    else
      var before, made := Calls(acts[..|acts| - 1]), Made(acts[..|acts| - 1]);
      match acts[|acts| - 1]
      case Report(func) => before + [Key(SubEv, RicId(|made| + 1, 0, func))]
      case Control(func) => before + [Key(CtrlEv, RicId(|made| + 1, 0, func))]
      case RmReport(req) => before + [Key(DelEv, RicId(req, 0, if 1 <= req <= |made| then made[req - 1].1 else 0))]
      case _ => before
  }

  /** The number of calls that returned. */
  function Returned(acts: seq<Action>): nat {
    if acts == [] then 0 else Returned(acts[..|acts| - 1]) + if acts[|acts| - 1].Finish? then 1 else 0
  }

  /** The requests that were on the wire first when an answer came. */
  ghost function Answered(acts: seq<Action>): seq<Key> {
    if acts == [] then []
    else
      var before, o := Answered(acts[..|acts| - 1]), Run(acts[..|acts| - 1]);
      if acts[|acts| - 1].Answer? && o.Next? && o.s.wire != [] then before + [o.s.wire[0]] else before
  }

  /** A delete or control call for number r is among the first calls. */
  ghost predicate Removed(calls: seq<Key>, returned: nat, r: nat) {
    exists i :: 0 <= i < returned && i < |calls| && calls[i].id.req == r && !calls[i].ev.SubEv?
  }

  ghost predicate Reachable(s: State) {
    exists signalled :: Inv(s, signalled)
  }

  /** Each call puts its request on the wire once, in the order of the calls, and the one being made may be
      yet to come; no call returns before its answer. Registered are exactly the procedures that no delete
      or control call which has returned was for, each as it was made. */
  ghost predicate Served(made: seq<(Proc, nat)>, calls: seq<Key>, returned: nat, answered: seq<Key>, s: State) {
    && s.nextReq == |made| + 1
    && calls == answered + s.wire + (if s.user.Asking? || s.user.Armed? then [s.user.key] else [])
    && returned + (if s.user.Ready? then 0 else 1) == |calls| && returned <= |answered|
    && (!s.user.Ready? ==> s.user.key == calls[|calls| - 1])
    && (forall c <- calls :: 1 <= c.id.req <= |made|)
    && (forall r :: r in s.reg <==> 1 <= r <= |made| && !Removed(calls, returned, r))
    && (forall r <- s.reg :: made[r - 1] == (s.reg[r].proc, s.reg[r].id.func))
  }

  /** This holds in whatever state a schedule reaches. */
  lemma {:induction false} EachCallIsServed(acts: seq<Action>, s: State)
    requires Run(acts) == Next(s)
    ensures Served(Made(acts), Calls(acts), Returned(acts), Answered(acts), s)
  {
    hide Step, Served, Inv;
    if acts == [] {
      StartServed();
    } else {
      var front, a := acts[..|acts| - 1], acts[|acts| - 1];
      var before := Run(front).s;
      EachCallIsServed(front, before);
      NextHolds(front, before);
      var made, calls, returned, answered := Made(front), Calls(front), Returned(front), Answered(front);
      if a.Report? || a.Control? {
        MakeServed(made, calls, returned, answered, before, a, s);
      } else if a.RmReport? {
        DeleteServed(made, calls, returned, answered, before, a, s);
      } else if a.Finish? {
        FinishServed(made, calls, returned, answered, before, s);
      } else if a.Answer? {
        AnswerServed(made, calls, returned, answered, before, a, s);
      } else {
        NoTimeoutSucceeds(before);
        if a.Signal? || a.Indicate? {
          LoopServed(made, calls, returned, answered, before, a, s);
        } else {
          UserServed(made, calls, returned, answered, before, a, s);
        }
      }
    }
  }

  lemma NoTimeoutSucceeds(s: State)
    ensures !Step(s, Timeout).Next?
  {
  }

  lemma StartServed()
    ensures Served([], [], 0, [], START)
  {
  }

  lemma CallAdded(calls: seq<Key>, returned: nat, key: Key)
    requires returned <= |calls|
    ensures forall r :: Removed(calls + [key], returned, r) <==> Removed(calls, returned, r)
  {
    forall r | Removed(calls, returned, r) ensures Removed(calls + [key], returned, r) {
      var i :| 0 <= i < returned && calls[i].id.req == r && !calls[i].ev.SubEv?;
      assert (calls + [key])[i] == calls[i];
    }
  }

  lemma MakeServed(made: seq<(Proc, nat)>, calls: seq<Key>, returned: nat, answered: seq<Key>, s: State, a: Action, s': State)
    requires Reachable(s) && Served(made, calls, returned, answered, s) && (a.Report? || a.Control?) && Step(s, a) == Next(s')
    ensures var key := Key(if a.Report? then SubEv else CtrlEv, RicId(|made| + 1, 0, a.func));
            Served(made + [(if a.Report? then SubscriptionProc else ControlProc, a.func)], calls + [key], returned, answered, s')
  {
    var key := Key(if a.Report? then SubEv else CtrlEv, RicId(|made| + 1, 0, a.func));
    CallAdded(calls, returned, key);
    assert !Removed(calls, returned, |made| + 1);
  }

  lemma DeleteServed(made: seq<(Proc, nat)>, calls: seq<Key>, returned: nat, answered: seq<Key>, s: State, a: Action, s': State)
    requires Reachable(s) && Served(made, calls, returned, answered, s) && a.RmReport? && Step(s, a) == Next(s')
    ensures 1 <= a.req <= |made| && Served(made, calls + [Key(DelEv, RicId(a.req, 0, made[a.req - 1].1))], returned, answered, s')
  {
    CallAdded(calls, returned, Key(DelEv, RicId(a.req, 0, made[a.req - 1].1)));
  }

  lemma FinishServed(made: seq<(Proc, nat)>, calls: seq<Key>, returned: nat, answered: seq<Key>, s: State, s': State)
    requires Reachable(s) && Served(made, calls, returned, answered, s) && Step(s, Finish) == Next(s')
    ensures Served(made, calls, returned + 1, answered, s')
  {
    var key := calls[returned];
    forall r ensures Removed(calls, returned + 1, r) <==> Removed(calls, returned, r) || (key.id.req == r && !key.ev.SubEv?) {
      if key.id.req == r && !key.ev.SubEv? {
        assert calls[returned].id.req == r;
      }
    }
  }

  lemma AnswerServed(made: seq<(Proc, nat)>, calls: seq<Key>, returned: nat, answered: seq<Key>, s: State, a: Action, s': State)
    requires Reachable(s) && Served(made, calls, returned, answered, s) && a.Answer? && Step(s, a) == Next(s')
    ensures s.wire != [] && Served(made, calls, returned, answered + [s.wire[0]], s')
  {
    hide Removed;
    assert answered + s.wire == answered + [s.wire[0]] + s.wire[1..];
  }

  lemma UserServed(made: seq<(Proc, nat)>, calls: seq<Key>, returned: nat, answered: seq<Key>, s: State, a: Action, s': State)
    requires Reachable(s) && Served(made, calls, returned, answered, s) && Step(s, a) == Next(s') && (a.Arm? || a.Send? || a.Lock? || a.Wake?)
    ensures Served(made, calls, returned, answered, s')
  {
    hide Removed, RegInv;
  }

  lemma LoopServed(made: seq<(Proc, nat)>, calls: seq<Key>, returned: nat, answered: seq<Key>, s: State, a: Action, s': State)
    requires Reachable(s) && Served(made, calls, returned, answered, s) && Step(s, a) == Next(s') && (a.Signal? || a.Indicate?)
    ensures Served(made, calls, returned, answered, s')
  {
    hide Removed, RegInv;
  }

  // ----- pending events -----

  /** At most one event is ever pending, so the order by kind agrees with full equality; and the key that
      an answer is rebuilt to is the one stored with the request. */
  lemma OnePending(acts: seq<Action>, s: State)
    requires Run(acts) == Next(s)
    ensures |s.pend| <= 1
    ensures forall p, q :: p in s.pend && q in s.pend ==> (CmpEvent(p, q) == 0 <==> p == q)
    ensures s.wire != [] && !s.user.SentOnly? ==>
              && s.wire[0].id.req in s.reg
              && s.pend == {Key(s.wire[0].ev, Find(s.reg, s.wire[0].id.req))} == {s.wire[0]}
  {
    NextHolds(acts, s);
  }

  /** An answer is handled safely exactly when its event is armed: it fails when it overtakes the arming
      of a request that was sent first. */
  lemma AnswerSafeIff(acts: seq<Action>, s: State)
    requires Run(acts) == Next(s) && s.wire != []
    ensures (exists pick :: Step(s, Answer(pick)).Next?) <==> !s.user.SentOnly?
    ensures s.user.SentOnly? ==> forall pick :: Step(s, Answer(pick)) == Fails(PendingMissing)
  {
    NextHolds(acts, s);
    if !s.user.SentOnly? {
      assert CmpEvent(s.wire[0], s.wire[0]) == 0;
      assert Step(s, Answer(s.wire[0])).Next?;
    }
  }

  // ----- the handshake -----

  /** Whatever spurious wake-ups there are, the waiter leaves only after a signal that followed its lock,
      and then both flags are set. */
  lemma LeavesOnlyAfterSignal(acts: seq<Action>, s: State)
    requires Run(acts) == Next(s)
    ensures s.user.Left? ==> Signalled(acts) && s.flag && s.ack
    ensures s.user.Waiting? && !Signalled(acts) ==> Step(s, Wake) == Next(s)
    ensures s.user.Waiting? && Signalled(acts) ==> Step(s, Wake) == Next(s.(user := Left(s.user.key)))
  {
    NextHolds(acts, s);
  }

  /** The outcome of further steps. */
  ghost function Follow(o: Outcome, more: seq<Action>): Outcome
    decreases |more|
  {
    if more == [] || !o.Next? then o else Follow(Step(o.s, more[0]), more[1..])
  }

  predicate NoTimeout(more: seq<Action>) {
    forall a <- more :: !a.Timeout?
  }

  /** Nobody will signal the waiter any more. */
  predicate Stranded(s: State) {
    s.user.Waiting? && !s.flag && Quiet(s)
  }

  lemma {:induction false} StrandedForever(s: State, more: seq<Action>)
    requires Stranded(s) && NoTimeout(more) && Follow(Next(s), more).Next?
    ensures Stranded(Follow(Next(s), more).s)
    decreases |more|
  {
    if more == [] {
    } else {
      var a, rest := more[0], more[1..];
      var o := Step(s, a);
      assert Follow(Next(s), more) == Follow(o, rest) && o.Next?;
      assert a in more && Stranded(o.s);
      assert forall b <- rest :: b in more;
      StrandedForever(o.s, rest);
    }
  }

  /** The waiter can get out without a timeout. */
  ghost predicate CanLeave(s: State) {
    exists more :: NoTimeout(more) && Follow(Next(s), more).Next? && Follow(Next(s), more).s.user.Left?
  }

  lemma FollowOne(s: State, a: Action, more: seq<Action>)
    ensures Follow(Next(s), [a] + more) == Follow(Step(s, a), more)
  {
    assert ([a] + more)[1..] == more;
  }

  /** A call that is about to wait can complete exactly when the signal has not come yet: a signal that
      precedes the lock of the wait is erased there, and the waiter is stranded. */
  lemma CompletesIff(acts: seq<Action>, s: State)
    requires Run(acts) == Next(s) && s.user.Requested?
    ensures Step(s, Lock).Next?
    ensures CanLeave(Step(s, Lock).s) <==> !Quiet(s)
  {
    NextHolds(acts, s);
    hide Run;
    var w := Step(s, Lock).s;
    if Quiet(s) {
      LostForGood(w);
    } else if s.loop == Stopped {
      SignalLetsGo(w);
    } else {
      AnswerLetsGo(w, s.user.key);
    }
  }

  lemma LostForGood(w: State)
    requires Stranded(w)
    ensures !CanLeave(w)
  {
    forall more | NoTimeout(more) && Follow(Next(w), more).Next? ensures !Follow(Next(w), more).s.user.Left? {
      StrandedForever(w, more);
    }
  }

  lemma AnswerLetsGo(w: State, key: Key)
    requires w.user == Waiting(key) && w.pend == {key} && w.wire == [key] && w.loop == Idle
    requires key.id.req in w.reg && key.id == Find(w.reg, key.id.req)
    ensures CanLeave(w)
  {
    assert CmpEvent(key, key) == 0;
    var a := Step(w, Answer(key)).s;
    assert Step(w, Answer(key)) == Next(a) && a.user.Waiting? && a.loop == Stopped;
    hide Step;
    SignalLetsGo(a);
    var more :| NoTimeout(more) && Follow(Next(a), more).Next? && Follow(Next(a), more).s.user.Left?;
    FollowOne(w, Answer(key), more);
    assert NoTimeout([Answer(key)] + more);
  }

  lemma SignalLetsGo(s: State)
    requires s.user.Waiting? && s.loop == Stopped
    ensures CanLeave(s)
  {
    var s1 := Step(s, Signal).s;
    var s2 := Step(s1, Wake).s;
    FollowOne(s, Signal, [Wake]);
    FollowOne(s1, Wake, []);
    assert [Wake] + [] == [Wake];
    var more := [Signal] + [Wake];
    assert NoTimeout(more);
    assert Follow(Next(s), more) == Next(s2);
  }

  // ----- the runs that the hypotheses exclude -----

  lemma RunMore(acts: seq<Action>, a: Action)
    ensures Run(acts + [a]) == if Run(acts).Next? then Step(Run(acts).s, a) else Run(acts)
  {
    assert (acts + [a])[..|acts|] == acts;
  }

  /** A control request whose acknowledge is handled before its event is armed. */
  lemma EarlyAckFails(func: nat, pick: Key)
    ensures Run([] + [Control(func)] + [Send] + [Answer(pick)]) == Fails(PendingMissing)
  {
    var key := Key(CtrlEv, RicId(1, 0, func));
    var s1 := START.(reg := map[1 := Val(ControlProc, RicId(0, 0, func))], nextReq := 2, user := Asking(key));
    assert Step(START, Control(func)) == Next(s1);
    var s2 := s1.(wire := [key], user := SentOnly(key));
    assert Step(s1, Send) == Next(s2);
    assert Step(s2, Answer(pick)) == Fails(PendingMissing);
    assert Run([]) == Next(START);
    hide Run, Step;
    RunMore([], Control(func));
    RunMore([] + [Control(func)], Send);
    RunMore([] + [Control(func)] + [Send], Answer(pick));
  }

  /** A subscription whose response is handled and signalled before the user thread waits. */
  lemma EarlySignalIsLost(func: nat)
    ensures var key := Key(SubEv, RicId(1, 0, func));
            var o := Run([] + [Report(func)] + [Arm] + [Send] + [Answer(key)] + [Signal] + [Lock]);
            o.Next? && Stranded(o.s)
  {
    var key := Key(SubEv, RicId(1, 0, func));
    var s1 := START.(reg := map[1 := Val(SubscriptionProc, RicId(0, 0, func))], nextReq := 2, user := Asking(key));
    assert Step(START, Report(func)) == Next(s1);
    var s2 := s1.(pend := {key}, user := Armed(key));
    assert Step(s1, Arm) == Next(s2);
    var s3 := s2.(wire := [key], user := Requested(key));
    assert Step(s2, Send) == Next(s3);
    var s4 := s3.(reg := Complete(s3.reg, 1), pend := {}, wire := [], loop := Stopped);
    assert CmpEvent(key, key) == 0 && [key][1..] == [];
    assert Step(s3, Answer(key)) == Next(s4);
    var s5 := s4.(flag := true, ack := true, loop := Idle);
    assert Step(s4, Signal) == Next(s5);
    var s6 := s5.(flag := false, ack := false, user := Waiting(key));
    assert Step(s5, Lock) == Next(s6) && Stranded(s6);
    assert Run([]) == Next(START);
    hide Run, Step, Stranded;
    var acts := [] + [Report(func)];
    RunMore([], Report(func));
    RunMore(acts, Arm);
    RunMore(acts + [Arm], Send);
    RunMore(acts + [Arm] + [Send], Answer(key));
    RunMore(acts + [Arm] + [Send] + [Answer(key)], Signal);
    RunMore(acts + [Arm] + [Send] + [Answer(key)] + [Signal], Lock);
  }

  // ----- the registry in place -----

  /** The registry of active procedures (act_proc.c). */
  class ActProc {
    var reg: map<nat, Val>
    var next: nat

    ghost predicate Valid()
      reads this
    {
      RegInv(reg, next)
    }

    constructor ()
      ensures Valid() && reg == map[] && next == 1
    {
      reg, next := map[], 1;
    }

    /** add_act_proc: the key is new, and not yet part of the stored id. */
    method AddActProc(proc: Proc, func: nat) returns (req: nat)
      requires Valid()
      modifies this
      ensures Valid() && req == old(next) && req !in old(reg) && next == req + 1
      ensures reg == old(reg)[req := Val(proc, RicId(0, 0, func))]
    {
      req := next;
      reg := reg[req := Val(proc, RicId(0, 0, func))];
      next := next + 1;
    }

    /** find_act_proc: what it returns carries the request number, and from then on so does the entry. */
    method FindActProc(req: nat) returns (found: IdMaps.Option<Val>)
      requires Valid()
      modifies this`reg
      ensures Valid() && found.Some? == (req in old(reg))
      ensures req in old(reg) ==>
                var was := old(reg)[req];
                found.value == Val(was.proc, RicId(req, was.id.inst, was.id.func)) && reg == old(reg)[req := found.value]
      ensures req !in old(reg) ==> reg == old(reg)
    {
      if req !in reg {
        return IdMaps.None;
      }
      reg := reg[req := reg[req].(id := reg[req].id.(req := req))];
      return IdMaps.Some(reg[req]);
    }

    /** rm_act_proc: the key must be registered. */
    method RmActProc(req: nat)
      requires Valid() && req in reg
      modifies this`reg
      ensures Valid() && reg == old(reg) - {req}
    {
      reg := reg - {req};
    }
  }
}
