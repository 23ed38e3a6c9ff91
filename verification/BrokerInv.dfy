/** The invariant of the broker, in parts that speak about as little of the state as they need. */
module BrokerInv {
  import opened RicIds
  import opened IdMaps
  import opened Broker

  // ----- the flow of one line -----

  /** Answers among the messages of a channel. */
  function UpKeys(up: seq<Up>): seq<Key> {
    if up == [] then []
    else if up[0].Answer? then [up[0].key] + UpKeys(up[1..])
    else UpKeys(up[1..])
  }

  function WorkerKeys(w: Worker): seq<Key> {
    if w.Busy? && w.m.Answer? then [w.m.key] else []
  }

  /** The requests of a line from the oldest to the newest: the one whose answer is being handled,
      then the answered ones, then those the agent has not seen. */
  function Flow(l: Line): seq<Key> {
    WorkerKeys(l.worker) + UpKeys(l.up) + l.down
  }

  /** The worker has stopped the pending event of its message. */
  predicate Handled(w: Worker) {
    w.Busy? && !w.stage.Received?
  }

  /** The first key of the flow is an answer whose pending event has been stopped. */
  predicate Held(w: Worker) {
    Handled(w) && w.m.Answer?
  }

  /** The part of the flow whose pending event is still armed. */
  function Waiting(l: Line): seq<Key> {
    if Handled(l.worker) then UpKeys(l.up) + l.down else Flow(l)
  }

  /** The part of the flow that has not been forwarded to its xApp. */
  function Unanswered(l: Line): seq<Key> {
    if l.worker.Busy? && l.worker.stage.Replied? then UpKeys(l.up) + l.down else Flow(l)
  }

  // ----- history -----

  function FullId(o: map<nat, Origin>, k: nat): RicId
    requires k in o
  {
    o[k].x.id.(req := k)
  }

  function EntryOf(o: map<nat, Origin>, k: nat): Entry
    requires k in o
  {
    Entry(FullId(o, k), o[k].node, o[k].kind)
  }

  /** The key of the request that k was drawn for. */
  function KeyOf(o: map<nat, Origin>, k: nat): Key
    requires k in o
  {
    Key(EvOf(o[k].kind), FullId(o, k))
  }

  function DelOf(o: map<nat, Origin>, k: nat): Key
    requires k in o
  {
    Key(DelEv, FullId(o, k))
  }

  /** key belongs to a request that was sent to node n, and its kind fits. */
  predicate Known(o: map<nat, Origin>, key: Key, n: NodeId) {
    && key.id.req in o
    && key.id == FullId(o, key.id.req)
    && o[key.id.req].node == n
    && (key.ev == CtrlEv <==> o[key.id.req].kind == Control)
  }

  /** The id that is armed or sent but not in the table yet. */
  function Registering(j: Job): Option<nat> {
    if j.Armed? || j.Sent? then Some(j.e.id.req) else None
  }

  // ----- lines -----

  predicate FlowKey(o: map<nat, Origin>, left: map<nat, XKey>, del: set<nat>, reg: Option<nat>, n: NodeId, key: Key) {
    && Known(o, key, n)
    && (if key.ev.DelEv? then key.id.req in del else key.id.req in left || reg == Some(key.id.req))
  }

  /** No delete is ahead of the subscription it ends. */
  ghost predicate Ordered(f: seq<Key>) {
    forall i, j :: 0 <= i < j < |f| && f[i].ev.DelEv? && f[j].ev.SubEv? ==> f[i].id != f[j].id
  }

  /** No key repeats, except that a delete may be sent again while the answer to the previous one is
      still being handled. */
  ghost predicate Single(l: Line) {
    forall i, j :: 0 <= i < j < |Flow(l)| && Flow(l)[i] == Flow(l)[j] ==> i == 0 && Flow(l)[0].ev.DelEv? && Held(l.worker)
  }

  ghost predicate FlowInv(o: map<nat, Origin>, left: map<nat, XKey>, del: set<nat>, reg: Option<nat>, n: NodeId, l: Line) {
    && (forall key <- Flow(l) :: FlowKey(o, left, del, reg, n, key))
    && Ordered(Flow(l))
    && Single(l)
  }

  ghost predicate IndInv(o: map<nat, Origin>, n: NodeId, l: Line) {
    && (forall id <- l.ind :: Known(o, Key(SubEv, id), n) && Key(SubEv, id) !in l.down)
    && (forall u <- l.up :: u.Indication? ==> Known(o, Key(SubEv, u.id), n))
    && (l.worker.Busy? && l.worker.m.Indication? ==> Known(o, Key(SubEv, l.worker.m.id), n))
  }

  predicate WorkerInv(left: map<nat, XKey>, w: Worker) {
    w.Busy? && (w.stage.Resolved? || w.stage.Replied?) ==>
      && IdOf(w.m).req in left && left[IdOf(w.m).req] == w.stage.x
      && (w.stage.Replied? ==> w.m.Answer? && w.m.key.ev != SubEv)
  }

  ghost predicate LineInv(o: map<nat, Origin>, left: map<nat, XKey>, del: set<nat>, reg: Option<nat>, n: NodeId, l: Line) {
    FlowInv(o, left, del, reg, n, l) && IndInv(o, n, l) && WorkerInv(left, l.worker)
  }

  ghost predicate LinesInv(s: Sys) {
    forall n <- s.lines :: LineInv(s.origin, s.ids.left, s.deleted, Registering(s.job), n, s.lines[n])
  }

  // ----- pending events -----

  predicate InWaiting(o: map<nat, Origin>, lines: map<NodeId, Line>, key: Key) {
    key.id.req in o && o[key.id.req].node in lines && key in Waiting(lines[o[key.id.req].node])
  }

  /** The request whose pending event is armed but which is not sent yet. */
  function Unsent(j: Job): Option<Key> {
    if j.Armed? then Some(j.key) else if j.DelArmed? then Some(Key(DelEv, j.e.id)) else None
  }

  /** Pending events are exactly the requests whose answer has not been handled. */
  ghost predicate PendInv(s: Sys) {
    forall key :: key in s.pending <==> InWaiting(s.origin, s.lines, key) || Unsent(s.job) == Some(key)
  }

  // ----- the id table -----

  ghost predicate OriginInv(s: Sys) {
    && FIRST_REQ <= s.reqId <= ID_SPACE
    && (forall k :: k in s.origin <==> FIRST_REQ <= k < s.reqId)
    && (forall k <- s.origin :: s.origin[k].node in s.lines)
    && (forall k, j :: k in s.origin && j in s.origin && s.origin[k].x == s.origin[j].x ==> k == j)
  }

  ghost predicate IdsInv(s: Sys) {
    && Bijective(s.ids)
    && (forall k <- s.ids.left :: k in s.origin && s.ids.left[k] == s.origin[k].x && s.ids.right[s.ids.left[k]] == EntryOf(s.origin, k))
  }

  /** Subscriptions: until a delete is sent, table and agent both have them; once a delete was served
      neither the agent has them nor, after its answer, the table. */
  ghost predicate SubInv(s: Sys, k: nat)
    requires k in s.origin && s.origin[k].node in s.lines
  {
    var l := s.lines[s.origin[k].node];
    var sub, del := KeyOf(s.origin, k), DelOf(s.origin, k);
    if k in s.deleted then
      && (del !in l.down ==> sub.id !in l.ind && sub !in l.down)
      && (del !in Flow(l) ==> k !in s.ids.left)
    else
      && (Registering(s.job) != Some(k) ==> k in s.ids.left)
      && (Unsent(s.job) != Some(sub) && sub !in l.down ==> sub.id in l.ind)
  }

  ghost predicate KindInv(s: Sys) {
    && (forall k <- s.deleted :: k in s.origin && s.origin[k].kind == Subscription && Registering(s.job) != Some(k))
    && (forall k <- s.origin :: s.origin[k].node in s.lines && s.origin[k].kind == Subscription ==> SubInv(s, k))
    && (forall k <- s.ids.left :: k in s.origin && s.origin[k].node in s.lines && s.origin[k].kind == Control ==>
          KeyOf(s.origin, k) in Flow(s.lines[s.origin[k].node]))
  }

  // ----- the job of the iApp -----

  ghost predicate Doable(o: map<nat, Origin>, e: Entry) {
    e.id.req in o && e == EntryOf(o, e.id.req) && e.kind == Subscription
  }

  ghost predicate JobInv(s: Sys) {
    match s.job
    case Locked(x, node, kind) => node in s.lines && x.xapp in s.xapps && x in s.asked && s.asked[x] == (node, kind)
    case Armed(key, e, x) =>
      && e.id.req == s.reqId - 1 && e.id.req in s.origin
      && e == EntryOf(s.origin, e.id.req) && x == s.origin[e.id.req].x && key == KeyOf(s.origin, e.id.req)
      && e.id.req !in s.ids.left && x !in s.ids.right && e.node in s.lines
      && key !in Flow(s.lines[e.node]) && e.id !in s.lines[e.node].ind
    case Sent(e, x) =>
      && e.id.req in s.origin
      && e == EntryOf(s.origin, e.id.req) && x == s.origin[e.id.req].x
      && e.id.req !in s.ids.left && x !in s.ids.right && e.node in s.lines
      && KeyOf(s.origin, e.id.req) in Flow(s.lines[e.node])
    case Deleting(todo) => forall e <- todo :: Doable(s.origin, e)
    case DelArmed(e, todo) =>
      && Doable(s.origin, e) && e.node in s.lines && (forall e <- todo :: Doable(s.origin, e))
      && Key(DelEv, e.id) !in Waiting(s.lines[e.node])
    case _ => true
  }

  // ----- xApps -----

  /** The iApp has taken no request of this xApp with an id as large as r. */
  ghost predicate Fresh(o: map<nat, Origin>, x: nat, r: nat) {
    forall k <- o :: o[k].x.xapp == x ==> o[k].x.id.req < r
  }

  predicate AboveJob(j: Job, x: nat, r: nat) {
    j.Locked? && j.x.xapp == x ==> j.x.id.req < r
  }

  ghost predicate Queued(s: Sys, x: nat, next: nat, m: XMsg) {
    m.Request? ==>
      && 1 <= m.id.req < next && m.node in s.lines
      && XKey(x, m.id) in s.asked && s.asked[XKey(x, m.id)] == (m.node, m.kind)
      && Fresh(s.origin, x, m.id.req) && AboveJob(s.job, x, m.id.req)
  }

  ghost predicate Increasing(out: seq<XMsg>) {
    forall i, j :: 0 <= i < j < |out| && out[i].Request? && out[j].Request? ==> out[i].id.req < out[j].id.req
  }

  /** Requests queued at an xApp carry increasing ids, all above those the iApp has taken. */
  ghost predicate OutInv(s: Sys, x: nat, v: Xapp) {
    && 1 <= v.next <= ID_SPACE
    && (forall m <- v.out :: Queued(s, x, v.next, m))
    && Increasing(v.out)
  }

  /** xApps are numbered consecutively and reachable, at different addresses. */
  ghost predicate AddrInv(s: Sys) {
    && FIRST_XAPP <= s.nextXapp <= ID_SPACE
    && s.addr.Keys == s.xapps.Keys
    && (forall x <- s.xapps :: FIRST_XAPP <= x < s.nextXapp)
    && (forall x, y :: x in s.addr && y in s.addr && s.addr[x] == s.addr[y] ==> x == y)
  }

  ghost predicate QueueInv(s: Sys) {
    && (forall x <- s.xapps :: OutInv(s, x, s.xapps[x]))
    && (forall k <- s.origin :: s.origin[k].x.xapp in s.xapps && s.origin[k].x.id.req < s.xapps[s.origin[k].x.xapp].next)
    && (s.job.Locked? ==>
          && s.job.x.xapp in s.xapps && 1 <= s.job.x.id.req < s.xapps[s.job.x.xapp].next
          && Fresh(s.origin, s.job.x.xapp, s.job.x.id.req))
  }

  /** Nothing an xApp asked for is lost before it is forwarded. */
  ghost predicate Carried(s: Sys, a: XKey)
    requires a in s.asked
  {
    || (exists k :: k in s.origin && s.origin[k] == Origin(a, s.asked[a].0, s.asked[a].1))
    || s.job == Locked(a, s.asked[a].0, s.asked[a].1)
    || (a.xapp in s.xapps && Request(a.id, s.asked[a].0, s.asked[a].1) in s.xapps[a.xapp].out)
  }

  ghost predicate AskInv(s: Sys) {
    && (forall a <- s.asked :: a.xapp in s.xapps && a.id.req < s.xapps[a.xapp].next && Carried(s, a))
    && (forall k <- s.origin :: s.origin[k].x in s.asked && s.asked[s.origin[k].x] == (s.origin[k].node, s.origin[k].kind))
  }

  // ----- deliveries -----

  /** A delivery went to the xApp that made the request, under exactly the id it chose. */
  predicate Correct(o: map<nat, Origin>, addr: map<nat, Addr>, d: Delivery) {
    && IdOf(d.src).req in o
    && Known(o, Key(if d.src.Answer? then d.src.key.ev else SubEv, IdOf(d.src)), o[IdOf(d.src).req].node)
    && o[IdOf(d.src).req].x.xapp in addr
    && d.to == addr[o[IdOf(d.src).req].x.xapp]
    && d.m == WithId(d.src, o[IdOf(d.src).req].x.id)
  }

  /** The answer key has been forwarded and cannot come again. */
  ghost predicate Closed(s: Sys, key: Key) {
    && key.id.req in s.origin
    && Known(s.origin, key, s.origin[key.id.req].node)
    && s.origin[key.id.req].node in s.lines
    && var l := s.lines[s.origin[key.id.req].node];
       if key.ev.DelEv? then key.id.req in s.deleted && (key.id.req !in s.ids.left || (l.worker.Busy? && l.worker.m == Answer(key) && l.worker.stage.Replied?))
       else key !in Unanswered(l) && Unsent(s.job) != Some(key)
  }

  ghost predicate Answered(s: Sys, key: Key) {
    exists i :: 0 <= i < |s.log| && s.log[i].src == Answer(key)
  }

  ghost predicate LogInv(s: Sys) {
    && (forall d <- s.log :: Correct(s.origin, s.addr, d) && (d.src.Answer? ==> Closed(s, d.src.key)))
    && (forall i, j :: 0 <= i < j < |s.log| && s.log[i].src.Answer? ==> s.log[i].src != s.log[j].src)
    && (forall k <- s.origin :: s.origin[k].node in s.lines ==>
          || Unsent(s.job) == Some(KeyOf(s.origin, k))
          || KeyOf(s.origin, k) in Unanswered(s.lines[s.origin[k].node])
          || Answered(s, KeyOf(s.origin, k)))
  }

  ghost predicate Inv(s: Sys) {
    && OriginInv(s) && IdsInv(s) && LinesInv(s) && PendInv(s) && KindInv(s) && JobInv(s)
    && AddrInv(s) && QueueInv(s) && AskInv(s) && LogInv(s)
  }
}
