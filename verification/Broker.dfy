/** The request broker as a transition system: xApps, the event loop of the iApp, the near-RT RIC
    with one worker per E2 node, and the E2 agents, joined by FIFO channels.

    A step is one critical section, one send or one receive, so the thread of the iApp and the
    workers interleave at lock granularity. A step either yields the next state, is blocked (its
    lock is taken or its input is missing), or fails where an assertion of the program fires. */
module Broker {
  import opened RicIds
  import opened IdMaps

  type Addr = nat

  /** What an agent sends: the answer to a request, or an indication with its report. */
  datatype Up = Answer(key: Key) | Indication(id: RicId, report: nat)

  function IdOf(u: Up): RicId {
    if u.Answer? then u.key.id else u.id
  }

  function WithId(u: Up, id: RicId): Up {
    if u.Answer? then Answer(Key(u.key.ev, id)) else Indication(id, u.report)
  }

  /** How far a worker got with a message: taken from the socket; pending event stopped; xApp looked
      up; forwarded to the xApp. */
  datatype Stage = Received | Released | Resolved(x: XKey) | Replied(x: XKey)

  datatype Worker = Free | Busy(m: Up, stage: Stage)

  /** The connection to one E2 node: its worker, both channels, and the indications its agent has
      registered. */
  datatype Line = Line(worker: Worker, up: seq<Up>, down: seq<Key>, ind: set<RicId>)

  datatype XMsg = Request(id: RicId, node: NodeId, kind: Kind) | Delete(id: RicId) | Bye

  /** An xApp: next request id, messages to the iApp, subscriptions it may delete, and whether it
      is still connected. */
  datatype Xapp = Xapp(next: nat, out: seq<XMsg>, confirmed: set<RicId>, open: bool)

  /** Where the thread of the iApp stands. From Locked to Added it holds the write lock of the id
      table. */
  datatype Job =
    | Idle
    | Locked(x: XKey, node: NodeId, kind: Kind)
    | Armed(key: Key, e: Entry, x: XKey)
    | Sent(e: Entry, x: XKey)
    | Added
    | Deleting(todo: seq<Entry>)
    | DelArmed(e: Entry, todo: seq<Entry>)

  /** History: the xApp request a RIC request id was drawn for. */
  datatype Origin = Origin(x: XKey, node: NodeId, kind: Kind)

  /** History: a message the iApp sent to an xApp, and the agent's message it came from. */
  datatype Delivery = Delivery(to: Addr, m: Up, src: Up)

  datatype Sys = Sys(
    xapps: map<nat, Xapp>, nextXapp: nat, addr: map<nat, Addr>, job: Job, ids: IdMap,
    reqId: nat, pending: set<Key>, lines: map<NodeId, Line>,
    asked: map<XKey, (NodeId, Kind)>, origin: map<nat, Origin>, deleted: set<nat>, log: seq<Delivery>)

  datatype Fault =
    | DuplicateXapp | BadRequest | DuplicateId | DuplicatePending | DeleteUnknown | DeleteNotSubscription
    | PendingMissing | ZeroId | Unregistered | Inconsistent | NoAddress | RemoveUnknown

  datatype Outcome = Next(s: Sys) | Fails(fault: Fault) | Blocked

  datatype Action =
    | Connect(a: Addr)
    | Ask(xapp: nat, node: NodeId, func: nat, kind: Kind)
    | AskDelete(xapp: nat, id: RicId)
    | Leave(xapp: nat)
    | TakeRequest(xapp: nat)
    | TakeDelete(xapp: nat, found: Option<Entry>)
    | TakeBye(xapp: nat, subs: seq<Entry>)
    | Work
    | AgentTake(n: NodeId)
    | Indicate(n: NodeId, id: RicId, report: nat)
    | WorkerTake(n: NodeId)
    | WorkerStep(n: NodeId)

  const FIRST_XAPP := 7
  const FIRST_REQ := 1021
  const ID_SPACE := 65536

  /** The counter narrowed to the 16 bits of a RIC request id. */
  function Draw(counter: nat): nat {
    counter % ID_SPACE
  }

  /** A 16-bit store into the low half of a 32-bit id field. */
  function Overwrite16(was: nat, k: nat): nat {
    was - was % ID_SPACE + k
  }

  function EvOf(kind: Kind): Ev {
    if kind == Subscription then SubEv else CtrlEv
  }

  predicate LockHeld(j: Job) {
    j.Locked? || j.Armed? || j.Sent? || j.Added?
  }

  function InitState(nodes: set<NodeId>): Sys {
    Sys(map[], FIRST_XAPP, map[], Idle, EMPTY, FIRST_REQ, {}, map n | n in nodes :: Line(Free, [], [], {}),
        map[], map[], {}, [])
  }

  function SetXapp(s: Sys, x: nat, v: Xapp): Sys {
    s.(xapps := s.xapps[x := v])
  }

  function SetLine(s: Sys, n: NodeId, l: Line): Sys {
    s.(lines := s.lines[n := l])
  }

  // ----- xApps -----

  /** E42 setup: the iApp numbers the xApp and registers its address. */
  function DoConnect(s: Sys, a: Addr): Outcome {
    if !s.job.Idle? || a in s.addr.Values then Blocked
    else
      var x := s.nextXapp;
      if Draw(x) in s.addr then Fails(DuplicateXapp)
      else Next(s.(nextXapp := x + 1, addr := s.addr[Draw(x) := a], xapps := s.xapps[Draw(x) := Xapp(1, [], {}, true)]))
  }

  function DoAsk(s: Sys, x: nat, node: NodeId, func: nat, kind: Kind): Outcome {
    if x !in s.xapps || !s.xapps[x].open || s.xapps[x].next >= ID_SPACE || node !in s.lines then Blocked
    else
      var v, id := s.xapps[x], RicId(s.xapps[x].next, 0, func);
      Next(SetXapp(s, x, v.(next := v.next + 1, out := v.out + [Request(id, node, kind)])).(
           asked := s.asked[XKey(x, id) := (node, kind)]))
  }

  function DoAskDelete(s: Sys, x: nat, id: RicId): Outcome {
    if x !in s.xapps || !s.xapps[x].open || id !in s.xapps[x].confirmed then Blocked
    else
      var v := s.xapps[x];
      Next(SetXapp(s, x, v.(confirmed := v.confirmed - {id}, out := v.out + [Delete(id)])))
  }

  function DoLeave(s: Sys, x: nat): Outcome {
    if x !in s.xapps || !s.xapps[x].open then Blocked
    else
      var v := s.xapps[x];
      Next(SetXapp(s, x, v.(open := false, out := v.out + [Bye])))
  }

  // ----- the thread of the iApp -----

  /** The iApp is idle and the oldest message of an xApp satisfies p. */
  predicate CanTake(s: Sys, x: nat, p: XMsg -> bool) {
    s.job.Idle? && x in s.xapps && s.xapps[x].out != [] && p(s.xapps[x].out[0])
  }

  function Pop(s: Sys, x: nat): Sys
    requires x in s.xapps && s.xapps[x].out != []
  {
    SetXapp(s, x, s.xapps[x].(out := s.xapps[x].out[1..]))
  }

  function DoTakeRequest(s: Sys, x: nat): Outcome {
    if !CanTake(s, x, (m: XMsg) => m.Request?) then Blocked
    else
      var m := s.xapps[x].out[0];
      if !(x < ID_SPACE && x <= s.nextXapp && m.node in s.lines) then Fails(BadRequest)
      else Next(Pop(s, x).(job := Locked(XKey(x, m.id), m.node, m.kind)))
  }

  ghost function DoTakeDelete(s: Sys, x: nat, found: Option<Entry>): Outcome {
    if !CanTake(s, x, (m: XMsg) => m.Delete?) || !Found(s.ids.right, s.xapps[x].out[0].id, found) then Blocked
    else if found.None? then Fails(DeleteUnknown)
    else if found.value.kind != Subscription then Fails(DeleteNotSubscription)
    else Next(Pop(s, x).(job := Deleting([found.value])))
  }

  ghost function DoTakeBye(s: Sys, x: nat, subs: seq<Entry>): Outcome {
    if !CanTake(s, x, (m: XMsg) => m.Bye?) || !AllSubs(s.ids.right, x, subs) then Blocked
    else Next(Pop(s, x).(job := Deleting(subs)))
  }

  /** Sends a request to the agent of node n. */
  function Send(s: Sys, n: NodeId, key: Key): Sys
    requires n in s.lines
  {
    SetLine(s, n, s.lines[n].(down := s.lines[n].down + [key]))
  }

  /** The next step of the job of the iApp. */
  function DoWork(s: Sys): Outcome {
    match s.job
    case Idle => Blocked
    case Locked(x, node, kind) =>
      // The 16-bit id is stored into the request in place; the table entry gets it whole.
      var k := Draw(s.reqId);
      var key := Key(EvOf(kind), x.id.(req := Overwrite16(x.id.req, k)));
      if key in s.pending then Fails(DuplicatePending)
      else Next(s.(reqId := s.reqId + 1, pending := s.pending + {key}, origin := s.origin[k := Origin(x, node, kind)],
                   job := Armed(key, Entry(x.id.(req := k), node, kind), x)))
    case Armed(key, e, x) =>
      if e.node !in s.lines then Fails(NoAddress) else Next(Send(s, e.node, key).(job := Sent(e, x)))
    case Sent(e, x) =>
      if e.id.req in s.ids.left || x in s.ids.right then Fails(DuplicateId)
      else Next(s.(ids := Add(s.ids, e, x), job := Added))
    case Added => Next(s.(job := Idle))
    case Deleting(todo) =>
      if todo == [] then Next(s.(job := Idle))
      else
        var key := Key(DelEv, todo[0].id);
        if key in s.pending then Next(s.(job := Deleting(todo[1..])))
        else Next(s.(pending := s.pending + {key}, job := DelArmed(todo[0], todo[1..])))
    case DelArmed(e, todo) =>
      if e.node !in s.lines then Fails(NoAddress)
      else Next(Send(s, e.node, Key(DelEv, e.id)).(deleted := s.deleted + {e.id.req}, job := Deleting(todo)))
  }

  // ----- agents -----

  /** The agent serves its oldest request; a delete of an unknown indication is answered as well. */
  function Serve(l: Line): Line
    requires l.down != []
  {
    var key := l.down[0];
    l.(down := l.down[1..], up := l.up + [Answer(key)],
       ind := match key.ev case SubEv => l.ind + {key.id} case DelEv => l.ind - {key.id} case CtrlEv => l.ind)
  }

  function DoAgentTake(s: Sys, n: NodeId): Outcome {
    if n !in s.lines || s.lines[n].down == [] then Blocked else Next(SetLine(s, n, Serve(s.lines[n])))
  }

  function DoIndicate(s: Sys, n: NodeId, id: RicId, report: nat): Outcome {
    if n !in s.lines || id !in s.lines[n].ind then Blocked
    else Next(SetLine(s, n, s.lines[n].(up := s.lines[n].up + [Indication(id, report)])))
  }

  // ----- workers of the near-RT RIC -----

  function DoWorkerTake(s: Sys, n: NodeId): Outcome {
    if n !in s.lines || !s.lines[n].worker.Free? || s.lines[n].up == [] then Blocked
    else Next(SetLine(s, n, s.lines[n].(worker := Busy(s.lines[n].up[0], Received), up := s.lines[n].up[1..])))
  }

  function DoWorkerStep(s: Sys, n: NodeId): Outcome {
    if n !in s.lines || !s.lines[n].worker.Busy? then Blocked
    else
      var m := s.lines[n].worker.m;
      match s.lines[n].worker.stage
      case Received => Release(s, n, m)
      case Released => if LockHeld(s.job) then Blocked else Resolve(s, n, m)
      case Resolved(x) => Reply(s, n, m, x)
      case Replied(x) =>
        if LockHeld(s.job) then Blocked
        else if x !in s.ids.right then Fails(RemoveUnknown)
        else Next(SetWorker(s, n, Free).(ids := Remove(s.ids, x)))
  }

  function SetWorker(s: Sys, n: NodeId, w: Worker): Sys
    requires n in s.lines
  {
    SetLine(s, n, s.lines[n].(worker := w))
  }

  /** An answer stops its pending event; an indication has none. */
  function Release(s: Sys, n: NodeId, m: Up): Outcome
    requires n in s.lines
  {
    if m.Answer? then
      if m.key !in s.pending then Fails(PendingMissing)
      else Next(SetWorker(s, n, Busy(m, Released)).(pending := s.pending - {m.key}))
    else Next(SetWorker(s, n, Busy(m, Released)))
  }

  /** The lookup of the iApp: late indications and delete responses are dropped, the absence of any
      other id is an error. */
  function Resolve(s: Sys, n: NodeId, m: Up): Outcome
    requires n in s.lines
  {
    var id := IdOf(m);
    if id.req == 0 then Fails(ZeroId)
    else if id.req !in s.ids.left then
      if m.Answer? && m.key.ev != DelEv then Fails(Unregistered) else Next(SetWorker(s, n, Free))
    else
      var x := s.ids.left[id.req];
      if id.func != x.id.func || id.inst != x.id.inst then Fails(Inconsistent)
      else Next(SetWorker(s, n, Busy(m, Resolved(x))))
  }

  /** Forwards under the id the xApp chose. The entry of a delete or control request goes next. */
  function Reply(s: Sys, n: NodeId, m: Up, x: XKey): Outcome
    requires n in s.lines
  {
    if x.xapp !in s.addr || x.xapp !in s.xapps then Fails(NoAddress)
    else
      var v := s.xapps[x.xapp];
      var v' := if m == Answer(Key(SubEv, IdOf(m))) then v.(confirmed := v.confirmed + {x.id}) else v;
      var w := if m.Answer? && m.key.ev != SubEv then Busy(m, Replied(x)) else Free;
      Next(SetXapp(SetWorker(s, n, w), x.xapp, v').(log := s.log + [Delivery(s.addr[x.xapp], WithId(m, x.id), m)]))
  }

  ghost function Step(s: Sys, a: Action): Outcome {
    match a
    case Connect(addr) => DoConnect(s, addr)
    case Ask(x, node, func, kind) => DoAsk(s, x, node, func, kind)
    case AskDelete(x, id) => DoAskDelete(s, x, id)
    case Leave(x) => DoLeave(s, x)
    case TakeRequest(x) => DoTakeRequest(s, x)
    case TakeDelete(x, found) => DoTakeDelete(s, x, found)
    case TakeBye(x, subs) => DoTakeBye(s, x, subs)
    case Work => DoWork(s)
    case AgentTake(n) => DoAgentTake(s, n)
    case Indicate(n, id, report) => DoIndicate(s, n, id, report)
    case WorkerTake(n) => DoWorkerTake(s, n)
    case WorkerStep(n) => DoWorkerStep(s, n)
  }

  /** The outcome of one more step. */
  ghost function Then(o: Outcome, a: Action): Outcome {
    if o.Next? then Step(o.s, a) else o
  }

  /** The outcome of a schedule; a step that cannot be taken ends it. */
  ghost function Run(nodes: set<NodeId>, acts: seq<Action>): Outcome {
    if acts == [] then Next(InitState(nodes)) else Then(Run(nodes, acts[..|acts| - 1]), acts[|acts| - 1])
  }

  /** Neither counter has left its 16-bit range. */
  predicate InBudget(s: Sys) {
    s.reqId <= ID_SPACE && s.nextXapp <= ID_SPACE
  }
}
