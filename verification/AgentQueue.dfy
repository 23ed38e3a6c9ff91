/** Aperiodic indications of the agent: RAN threads push an event into a queue and then write the
    digits of its RIC request id into a pipe; the event loop wakes on the pipe, pops what the queue
    holds, and takes four bytes off the pipe for each event it handled (e2_agent.c). */
module AgentQueue {

  /** The event loop: waiting; popping the events it counted; handling what it popped. */
  datatype Loop = Waiting | Popping(left: nat, batch: seq<nat>) | Handling(batch: seq<nat>)

  /** due: ids that were pushed but not written. edge: bytes came in since epoll last reported the pipe.
      handled is history: the events whose indication was sent. */
  datatype State = State(queue: seq<nat>, due: multiset<nat>, pipe: nat, edge: bool, loop: Loop, handled: seq<nat>)

  datatype Fault = EmptyQueue | PopFromEmpty | OneByte

  datatype Outcome = Next(s: State) | Fails(fault: Fault) | Blocked

  datatype Action = Push(id: nat) | Write(id: nat) | Wake | Pop | Handle

  const START := State([], multiset{}, 0, false, Waiting, [])

  /** Decimal digits, as the program prints an id. */
  function Digits(id: nat): (d: nat)
    ensures d >= 1
    ensures id < 10 <==> d == 1
  {
    if id < 10 then 1 else 1 + Digits(id / 10)
  }

  function Min(a: nat, b: nat): nat {
    if a < b then a else b
  }

  function Step(s: State, a: Action): Outcome {
    match a
    case Push(id) => Next(s.(queue := s.queue + [id], due := s.due + multiset{id}))
    case Write(id) =>
      if id !in s.due then Blocked
      else Next(s.(due := s.due - multiset{id}, pipe := s.pipe + Digits(id), edge := true))
    case Wake =>
      if !s.loop.Waiting? || !s.edge || s.pipe == 0 then Blocked
      else if s.queue == [] then Fails(EmptyQueue)
      else Next(s.(edge := false, loop := Popping(|s.queue|, [])))
    case Pop =>
      if !s.loop.Popping? then Blocked
      else if s.loop.left == 0 then Next(s.(loop := Handling(s.loop.batch)))
      else if s.queue == [] then Fails(PopFromEmpty)
      else Next(s.(queue := s.queue[1..], loop := Popping(s.loop.left - 1, s.loop.batch + [s.queue[0]])))
    case Handle =>
      if !s.loop.Handling? then Blocked
      else if s.loop.batch == [] then Next(s.(loop := Waiting))
      else if s.pipe == 0 then Blocked
      else
        var bytes := Min(4, s.pipe);
        if bytes == 1 then Fails(OneByte)
        else Next(s.(pipe := s.pipe - bytes, loop := Handling(s.loop.batch[1..]), handled := s.handled + [s.loop.batch[0]]))
  }

  function Run(acts: seq<Action>): Outcome {
    if acts == [] then Next(START)
    else
      var before := Run(acts[..|acts| - 1]);
      if before.Next? then Step(before.s, acts[|acts| - 1]) else before
  }

  /** The events pushed in a schedule, in order. */
  function Pushed(acts: seq<Action>): seq<nat> {
    if acts == [] then []
    else
      var before, a := Pushed(acts[..|acts| - 1]), acts[|acts| - 1];
      if a.Push? then before + [a.id] else before
  }

  /** The events written in a schedule. */
  function Written(acts: seq<Action>): multiset<nat> {
    if acts == [] then multiset{}
    else
      var before, a := Written(acts[..|acts| - 1]), acts[|acts| - 1];
      if a.Write? then before + multiset{a.id} else before
  }

  /** Only these ids are pushed. */
  predicate Uses(acts: seq<Action>, ids: set<nat>) {
    forall a <- acts :: a.Push? ==> a.id in ids
  }

  function Batch(l: Loop): seq<nat> {
    if l.Waiting? then [] else l.batch
  }

  /** Events counted by the loop and not handled. */
  function InFlight(l: Loop): nat {
    match l case Waiting => 0 case Popping(left, batch) => left + |batch| case Handling(batch) => |batch|
  }

  /** Four bytes wait in the pipe for every event that was written and not handled. */
  ghost predicate Conserved(s: State, pushed: seq<nat>, written: multiset<nat>) {
    && s.pipe + 4 * |s.due| == 4 * (|Batch(s.loop)| + |s.queue|)
    && (s.loop.Popping? ==> s.loop.left <= |s.queue|)
    && (!s.edge ==> s.pipe <= 4 * InFlight(s.loop))
    && s.handled + Batch(s.loop) + s.queue == pushed
    && s.due + written == multiset(pushed)
    && (forall id <- s.due :: 1000 <= id < 10000)
  }

  lemma TenTimes(id: nat)
    requires id >= 10
    ensures Digits(id) == 1 + Digits(id / 10)
  {
  }

  lemma FourDigits(id: nat)
    requires id >= 1000
    ensures Digits(id) == 4 <==> id < 10000
    ensures 10000 <= id < 100000 ==> Digits(id) == 5
  {
    TenTimes(id);
    TenTimes(id / 10);
    TenTimes(id / 10 / 10);
    var top := id / 10 / 10 / 10;
    assert top == id / 1000;
    if top >= 10 {
      TenTimes(top);
    }
  }

  lemma PushConserves(s: State, pushed: seq<nat>, written: multiset<nat>, id: nat)
    requires Conserved(s, pushed, written) && 1000 <= id < 10000
    ensures Conserved(Step(s, Push(id)).s, pushed + [id], written)
  {
    assert s.handled + Batch(s.loop) + (s.queue + [id]) == s.handled + Batch(s.loop) + s.queue + [id];
  }

  lemma WriteConserves(s: State, pushed: seq<nat>, written: multiset<nat>, id: nat)
    requires Conserved(s, pushed, written) && id in s.due
    ensures Conserved(Step(s, Write(id)).s, pushed, written + multiset{id})
  {
    FourDigits(id);
  }

  lemma PopConserves(s: State, pushed: seq<nat>, written: multiset<nat>)
    requires Conserved(s, pushed, written) && s.loop.Popping? && s.loop.left > 0
    ensures s.queue != [] && Conserved(Step(s, Pop).s, pushed, written)
  {
    assert s.queue == [s.queue[0]] + s.queue[1..];
    assert s.handled + (s.loop.batch + [s.queue[0]]) + s.queue[1..] == s.handled + s.loop.batch + s.queue;
  }

  lemma HandleConserves(s: State, pushed: seq<nat>, written: multiset<nat>)
    requires Conserved(s, pushed, written) && s.loop.Handling? && s.loop.batch != [] && s.pipe > 0
    ensures s.pipe >= 4 && Conserved(Step(s, Handle).s, pushed, written)
  {
    assert s.loop.batch == [s.loop.batch[0]] + s.loop.batch[1..];
    assert (s.handled + [s.loop.batch[0]]) + s.loop.batch[1..] + s.queue == s.handled + s.loop.batch + s.queue;
  }

  lemma StepConserves(s: State, pushed: seq<nat>, written: multiset<nat>, a: Action)
    requires Conserved(s, pushed, written) && (a.Push? ==> 1000 <= a.id < 10000)
    ensures !Step(s, a).Fails?
    ensures Step(s, a).Next? ==>
              Conserved(Step(s, a).s, if a.Push? then pushed + [a.id] else pushed, if a.Write? then written + multiset{a.id} else written)
  {
    match a
    case Push(id) => hide Conserved; PushConserves(s, pushed, written, id);
    case Write(id) => hide Conserved; if id in s.due { WriteConserves(s, pushed, written, id); }
    case Pop => PopStep(s, pushed, written);
    case Handle => HandleStep(s, pushed, written);
    case Wake => WakeStep(s, pushed, written);
  }

  lemma PopStep(s: State, pushed: seq<nat>, written: multiset<nat>)
    requires Conserved(s, pushed, written)
    ensures !Step(s, Pop).Fails? && (Step(s, Pop).Next? ==> Conserved(Step(s, Pop).s, pushed, written))
  {
    if s.loop.Popping? && s.loop.left > 0 { PopConserves(s, pushed, written); }
  }

  lemma HandleStep(s: State, pushed: seq<nat>, written: multiset<nat>)
    requires Conserved(s, pushed, written)
    ensures !Step(s, Handle).Fails? && (Step(s, Handle).Next? ==> Conserved(Step(s, Handle).s, pushed, written))
  {
    if s.loop.Handling? && s.loop.batch != [] && s.pipe > 0 { HandleConserves(s, pushed, written); }
  }

  lemma WakeStep(s: State, pushed: seq<nat>, written: multiset<nat>)
    requires Conserved(s, pushed, written)
    ensures !Step(s, Wake).Fails? && (Step(s, Wake).Next? ==> Conserved(Step(s, Wake).s, pushed, written))
  {
  }

  /** While ids have four digits, no interleaving fails: the queue is never empty when the loop wakes,
      no event lacks its bytes, and events are handled in the order in which they were pushed. */
  lemma {:induction false} FourDigitRunsAreSafe(acts: seq<Action>, ids: set<nat>)
    requires Uses(acts, ids) && forall id <- ids :: 1000 <= id < 10000
    ensures !Run(acts).Fails? && (Run(acts).Next? ==> Conserved(Run(acts).s, Pushed(acts), Written(acts)))
  {
    if acts == [] {
    } else {
      var front, a := acts[..|acts| - 1], acts[|acts| - 1];
      assert a in acts;
      FourDigitRunsAreSafe(front, ids);
      if Run(front).Next? {
        StepConserves(Run(front).s, Pushed(front), Written(front), a);
      }
      hide Step, Conserved;
    }
  }

  lemma AllWritten(due: multiset<nat>, written: multiset<nat>)
    requires due + written == written
    ensures due == multiset{}
  {
    forall id ensures due[id] == 0 {
      assert (due + written)[id] == due[id] + written[id];
    }
  }

  /** No wake-up is lost: once all pushed events are written, the loop can go on until it has handled
      every one of them. */
  lemma NoWakeupIsLost(acts: seq<Action>, ids: set<nat>, s: State)
    requires Uses(acts, ids) && (forall id <- ids :: 1000 <= id < 10000) && Run(acts) == Next(s)
    requires Written(acts) == multiset(Pushed(acts))
    ensures s.handled == Pushed(acts) || Step(s, Wake).Next? || Step(s, Pop).Next? || Step(s, Handle).Next?
    ensures s.loop.Waiting? && s.pipe == 0 ==> s.handled == Pushed(acts)
  {
    var pushed, written := Pushed(acts), Written(acts);
    FourDigitRunsAreSafe(acts, ids);
    hide Run, Pushed, Written;
    AllWritten(s.due, written);
    StepConserves(s, pushed, written, Wake);
    StepConserves(s, pushed, written, Pop);
    StepConserves(s, pushed, written, Handle);
    if s.loop.Waiting? && s.queue == [] {
      assert s.handled + [] + [] == pushed;
    }
  }

  /** A schedule that fails with one five-digit id: two events are pushed, one is written, and the loop
      reads the fifth byte on its own. */
  function FiveDigitSchedule(id: nat): seq<Action> {
    [Push(id), Push(id), Write(id), Wake, Pop, Pop, Pop, Handle, Handle]
  }

  /** The outcome of further steps. */
  function Follow(o: Outcome, more: seq<Action>): Outcome
    decreases |more|
  {
    if more == [] || !o.Next? then o else Follow(Step(o.s, more[0]), more[1..])
  }

  lemma {:induction false} RunFollow(acts: seq<Action>, more: seq<Action>)
    ensures Run(acts + more) == Follow(Run(acts), more)
    decreases |more|
  {
    if more == [] {
      assert acts + more == acts;
    } else {
      assert (acts + [more[0]])[..|acts|] == acts;
      RunFollow(acts + [more[0]], more[1..]);
      assert acts + more == acts + [more[0]] + more[1..];
      if !Run(acts).Next? { Stuck(Run(acts), more[1..]); }
    }
  }

  lemma Stuck(o: Outcome, more: seq<Action>)
    requires !o.Next?
    ensures Follow(o, more) == o
  {
  }

  lemma FollowHead(o: Outcome, more: seq<Action>)
    requires o.Next? && more != []
    ensures Follow(o, more) == Follow(Step(o.s, more[0]), more[1..])
  {
  }

  lemma FirstFour(id: nat)
    requires 10000 <= id < 65536
    ensures Follow(Next(START), [Push(id), Push(id), Write(id), Wake])
            == Next(State([id, id], multiset{id}, 5, false, Popping(2, []), []))
  {
    FourDigits(id);
    var s1 := State([id], multiset{id}, 0, false, Waiting, []);
    assert [] + [id] == [id] && multiset{} + multiset{id} == multiset{id};
    assert Step(START, Push(id)) == Next(s1);
    var s2 := State([id, id], multiset{id, id}, 0, false, Waiting, []);
    assert [id] + [id] == [id, id] && multiset{id} + multiset{id} == multiset{id, id};
    assert Step(s1, Push(id)) == Next(s2);
    var s3 := State([id, id], multiset{id}, 5, true, Waiting, []);
    assert multiset{id, id} - multiset{id} == multiset{id};
    assert Step(s2, Write(id)) == Next(s3);
    var s4 := State([id, id], multiset{id}, 5, false, Popping(2, []), []);
    assert Step(s3, Wake) == Next(s4);
    hide Step, Digits;
    var t := [Push(id), Push(id), Write(id), Wake];
    FollowHead(Next(START), t);
    FollowHead(Next(s1), t[1..]);
    FollowHead(Next(s2), t[1..][1..]);
    FollowHead(Next(s3), t[1..][1..][1..]);
  }

  lemma LastFive(id: nat)
    ensures Follow(Next(State([id, id], multiset{id}, 5, false, Popping(2, []), [])), [Pop, Pop, Pop, Handle, Handle]) == Fails(OneByte)
  {
    var due := multiset{id};
    var s4 := State([id, id], due, 5, false, Popping(2, []), []);
    var s5 := State([id], due, 5, false, Popping(1, [id]), []);
    assert [id, id][1..] == [id] && [] + [id] == [id];
    assert Step(s4, Pop) == Next(s5);
    var s6 := State([], due, 5, false, Popping(0, [id, id]), []);
    assert [id][1..] == [] && [id] + [id] == [id, id];
    assert Step(s5, Pop) == Next(s6);
    var s7 := State([], due, 5, false, Handling([id, id]), []);
    assert Step(s6, Pop) == Next(s7);
    var s8 := State([], due, 1, false, Handling([id]), [id]);
    assert Step(s7, Handle) == Next(s8);
    assert Step(s8, Handle) == Fails(OneByte);
    hide Step;
    var t := [Pop, Pop, Pop, Handle, Handle];
    FollowHead(Next(s4), t);
    FollowHead(Next(s5), t[1..]);
    FollowHead(Next(s6), t[1..][1..]);
    FollowHead(Next(s7), t[1..][1..][1..]);
    FollowHead(Next(s8), t[1..][1..][1..][1..]);
  }

  lemma FiveDigitsFail(id: nat)
    requires 10000 <= id < 65536
    ensures Run(FiveDigitSchedule(id)) == Fails(OneByte)
  {
    var first, last := [Push(id), Push(id), Write(id), Wake], [Pop, Pop, Pop, Handle, Handle];
    assert [] + first == first && first + last == FiveDigitSchedule(id);
    RunFollow([], first);
    RunFollow(first, last);
    FirstFour(id);
    LastFive(id);
  }

  /** The other assertion: both events are handled with the ten bytes they brought, and the two bytes left
      over wake the loop with nothing in the queue. */
  function LeftoverSchedule(id: nat): seq<Action> {
    [Push(id), Push(id), Write(id), Wake] + [Pop, Pop, Pop, Write(id), Handle, Handle, Handle, Wake]
  }

  lemma LeftoverFails(id: nat)
    requires 10000 <= id < 65536
    ensures Run(LeftoverSchedule(id)) == Fails(EmptyQueue)
  {
    var first, last := [Push(id), Push(id), Write(id), Wake], [Pop, Pop, Pop, Write(id), Handle, Handle, Handle, Wake];
    assert [] + first == first;
    RunFollow([], first);
    RunFollow(first, last);
    FirstFour(id);
    LastEight(id);
  }

  lemma LastEight(id: nat)
    requires 10000 <= id < 65536
    ensures Follow(Next(State([id, id], multiset{id}, 5, false, Popping(2, []), [])),
                   [Pop, Pop, Pop, Write(id), Handle, Handle, Handle, Wake]) == Fails(EmptyQueue)
  {
    FourDigits(id);
    var due := multiset{id};
    var s4 := State([id, id], due, 5, false, Popping(2, []), []);
    var s5 := State([id], due, 5, false, Popping(1, [id]), []);
    assert [id, id][1..] == [id] && [] + [id] == [id];
    assert Step(s4, Pop) == Next(s5);
    var s6 := State([], due, 5, false, Popping(0, [id, id]), []);
    assert [id][1..] == [] && [id] + [id] == [id, id];
    assert Step(s5, Pop) == Next(s6);
    var s7 := s6.(loop := Handling([id, id]));
    assert Step(s6, Pop) == Next(s7);
    var s8 := State([], multiset{}, 10, true, Handling([id, id]), []);
    assert due - multiset{id} == multiset{};
    assert Step(s7, Write(id)) == Next(s8);
    hide Step, Digits;
    var t := [Pop, Pop, Pop, Write(id), Handle, Handle, Handle, Wake];
    FollowHead(Next(s4), t);
    FollowHead(Next(s5), t[1..]);
    FollowHead(Next(s6), t[1..][1..]);
    FollowHead(Next(s7), t[1..][1..][1..]);
    assert t[1..][1..][1..][1..] == [Handle, Handle, Handle, Wake];
    LastFour(id);
  }

  lemma LastFour(id: nat)
    ensures Follow(Next(State([], multiset{}, 10, true, Handling([id, id]), [])), [Handle, Handle, Handle, Wake]) == Fails(EmptyQueue)
  {
    var s8 := State([], multiset{}, 10, true, Handling([id, id]), []);
    var s9 := State([], multiset{}, 6, true, Handling([id]), [id]);
    assert [id, id][1..] == [id] && [] + [id] == [id];
    assert Step(s8, Handle) == Next(s9);
    var s10 := State([], multiset{}, 2, true, Handling([]), [id, id]);
    assert [id][1..] == [] && [id] + [id] == [id, id];
    assert Step(s9, Handle) == Next(s10);
    var s11 := s10.(loop := Waiting);
    assert Step(s10, Handle) == Next(s11);
    assert Step(s11, Wake) == Fails(EmptyQueue);
    hide Step;
    var t := [Handle, Handle, Handle, Wake];
    FollowHead(Next(s8), t);
    FollowHead(Next(s9), t[1..]);
    FollowHead(Next(s10), t[1..][1..]);
    FollowHead(Next(s11), t[1..][1..][1..]);
  }

  /** For 16-bit ids from 1000 on, every schedule is safe exactly when all ids have four digits. */
  lemma SafeIffFourDigits(ids: set<nat>)
    requires forall id <- ids :: 1000 <= id < 65536
    ensures (forall acts :: Uses(acts, ids) ==> !Run(acts).Fails?) <==> (forall id <- ids :: id < 10000)
  {
    if forall id <- ids :: id < 10000 {
      forall acts | Uses(acts, ids) ensures !Run(acts).Fails? {
        FourDigitRunsAreSafe(acts, ids);
      }
    } else {
      var id :| id in ids && id >= 10000;
      FiveDigitsFail(id);
      assert Uses(FiveDigitSchedule(id), ids);
    }
  }
}
