/** The three tables of connected E2 nodes: the address bimap of the near-RT RIC, the registry of the
    iApp, and the list of connected nodes. A setup request runs as a task of its own and touches them
    one by one; so does a shutdown notification, in the event loop. */
module NodeRegistry {
  import opened Bimaps
  import opened Trees

  type NodeId = nat
  type Addr = nat
  type RanFunc = nat

  // ----- the steps -----

  /** How far a setup task got: the address is registered; the iApp has the node. */
  datatype Setup = HasAddr(rf: seq<RanFunc>) | InIapp

  /** How far the event loop got with a shutdown: the address is gone; the node is off the list. */
  datatype Shutdown = NoShutdown | AddrGone(n: NodeId) | OffList(n: NodeId)

  datatype Nodes = Nodes(addr: map<NodeId, Addr>, iapp: map<NodeId, seq<RanFunc>>, conn: seq<NodeId>, tasks: map<NodeId, Setup>, down: Shutdown)

  datatype Fault = UnknownAddress | AlreadyInIapp | NotConnected | NotInIapp

  datatype Outcome = Next(s: Nodes) | Fails(fault: Fault) | Blocked

  datatype Action =
    | SetupArrives(n: NodeId, a: Addr, rf: seq<RanFunc>)
    | AddToIapp(n: NodeId)
    | AddToList(n: NodeId)
    | ShutdownArrives(a: Addr)
    | RemoveFromList
    | RemoveFromIapp

  const NOBODY := Nodes(map[], map[], [], map[], NoShutdown)

  function IndexOf(q: seq<NodeId>, n: NodeId): (i: nat)
    requires n in q
    ensures i < |q| && q[i] == n && n !in q[..i]
  {
    if q[0] == n then 0 else 1 + IndexOf(q[1..], n)
  }

  /** Erases the first occurrence. */
  function Erase(q: seq<NodeId>, n: NodeId): seq<NodeId>
    requires n in q
  {
    q[..IndexOf(q, n)] + q[IndexOf(q, n) + 1..]
  }

  /** The node whose association has this address. */
  predicate At(addr: map<NodeId, Addr>, a: Addr, n: NodeId) {
    n in addr && addr[n] == a
  }

  ghost function Step(s: Nodes, act: Action): Outcome {
    match act
    case SetupArrives(n, a, rf) =>
      if n in s.tasks then Blocked
      else Next(s.(addr := s.addr[n := a], tasks := s.tasks[n := HasAddr(rf)]))
    case AddToIapp(n) =>
      if n !in s.tasks || !s.tasks[n].HasAddr? then Blocked
      else if n in s.iapp then Fails(AlreadyInIapp)
      else Next(s.(iapp := s.iapp[n := s.tasks[n].rf], tasks := s.tasks[n := InIapp]))
    case AddToList(n) =>
      if n !in s.tasks || !s.tasks[n].InIapp? then Blocked
      else Next(s.(conn := s.conn + [n], tasks := s.tasks - {n}))
    case ShutdownArrives(a) =>
      if s.down != NoShutdown then Blocked
      else if forall n :: !At(s.addr, a, n) then Fails(UnknownAddress)
      else
        var n :| At(s.addr, a, n);
        Next(s.(addr := s.addr - {n}, down := AddrGone(n)))
    case RemoveFromList =>
      if !s.down.AddrGone? then Blocked
      else if s.down.n !in s.conn then Fails(NotConnected)
      else Next(s.(conn := Erase(s.conn, s.down.n), down := OffList(s.down.n)))
    case RemoveFromIapp =>
      if !s.down.OffList? then Blocked
      else if s.down.n !in s.iapp then Fails(NotInIapp)
      else Next(s.(iapp := s.iapp - {s.down.n}, down := NoShutdown))
  }

  ghost function Run(acts: seq<Action>): Outcome {
    if acts == [] then Next(NOBODY)
    else
      var before := Run(acts[..|acts| - 1]);
      if before.Next? then Step(before.s, acts[|acts| - 1]) else before
  }

  // ----- memberships -----

  datatype Member = Member(addr: bool, iapp: bool, conn: bool)

  function MemberOf(s: Nodes, n: NodeId): Member {
    Member(n in s.addr, n in s.iapp, n in s.conn)
  }

  /** The cycle of memberships: in by address, registry, list; out by address, list, registry. */
  function After(m: Member): Member {
    match m
    case Member(false, false, false) => Member(true, false, false)
    case Member(true, false, false) => Member(true, true, false)
    case Member(true, true, false) => Member(true, true, true)
    case Member(true, true, true) => Member(false, true, true)
    case Member(false, true, true) => Member(false, true, false)
    case _ => Member(false, false, false)
  }

  /** A node asks for setup only while no table has it, from an address nobody uses; its shutdown is
      handled after its setup task ended. */
  ghost predicate Orderly(s: Nodes, act: Action) {
    match act
    case SetupArrives(n, a, rf) => MemberOf(s, n) == Member(false, false, false) && forall m <- s.addr :: s.addr[m] != a
    case ShutdownArrives(a) => exists n :: At(s.addr, a, n) && n !in s.tasks
    case _ => true
  }

  ghost predicate OrderlyRun(acts: seq<Action>) {
    acts != [] ==>
      var front := acts[..|acts| - 1];
      OrderlyRun(front) && (Run(front).Next? ==> Orderly(Run(front).s, acts[|acts| - 1]))
  }

  /** What the tables say about a node, by where its setup or shutdown stands. */
  function Expected(s: Nodes, n: NodeId): Member {
    if n in s.tasks then Member(true, s.tasks[n].InIapp?, false)
    else if s.down == AddrGone(n) then Member(false, true, true)
    else if s.down == OffList(n) then Member(false, true, false)
    else Member(n in s.addr, n in s.addr, n in s.addr)
  }

  ghost predicate Consistent(s: Nodes) {
    && (forall n :: MemberOf(s, n) == Expected(s, n))
    && (forall i, j :: 0 <= i < j < |s.conn| ==> s.conn[i] != s.conn[j])
    && (forall m, n :: m in s.addr && n in s.addr && s.addr[m] == s.addr[n] ==> m == n)
    && (!s.down.NoShutdown? ==> s.down.n !in s.tasks)
  }

  lemma EraseOne(q: seq<NodeId>, n: NodeId)
    requires n in q
    ensures multiset(Erase(q, n)) == multiset(q) - multiset{n}
  {
    var i := IndexOf(q, n);
    assert q == q[..i] + [n] + q[i + 1..];
  }

  lemma EraseAll(q: seq<NodeId>, n: NodeId)
    requires n in q && forall i, j :: 0 <= i < j < |q| ==> q[i] != q[j]
    ensures forall m :: m in Erase(q, n) <==> m in q && m != n
    ensures forall i, j :: 0 <= i < j < |Erase(q, n)| ==> Erase(q, n)[i] != Erase(q, n)[j]
  {
    var k := IndexOf(q, n);
    forall m | m in q && m != n ensures m in Erase(q, n) {
      var i :| 0 <= i < |q| && q[i] == m;
      assert Erase(q, n)[if i < k then i else i - 1] == m;
    }
  }

  /** Node n moved one place on the cycle, the others stayed. */
  ghost predicate Moves(s: Nodes, n: NodeId, s': Nodes) {
    MemberOf(s', n) == After(MemberOf(s, n)) && forall m :: m != n ==> MemberOf(s', m) == MemberOf(s, m)
  }

  /** The node a step is about: the one that sets up, the one at the address that went away, or the one
      whose shutdown is under way. */
  predicate About(s: Nodes, act: Action, n: NodeId) {
    match act
    case SetupArrives(m, _, _) => n == m
    case AddToIapp(m) => n == m
    case AddToList(m) => n == m
    case ShutdownArrives(a) => At(s.addr, a, n)
    case _ => !s.down.NoShutdown? && n == s.down.n
  }

  lemma SetupMoves(s: Nodes, act: Action, s': Nodes, n: NodeId)
    requires Consistent(s) && Orderly(s, act) && Step(s, act) == Next(s')
    requires (act.SetupArrives? || act.AddToIapp? || act.AddToList?) && n == act.n
    ensures Consistent(s') && Moves(s, n, s')
  {
    assert MemberOf(s, n) == Expected(s, n);
    forall m ensures MemberOf(s', m) == Expected(s', m) && (m != n ==> MemberOf(s', m) == MemberOf(s, m)) {
      assert MemberOf(s, m) == Expected(s, m);
    }
  }

  lemma ShutdownMoves(s: Nodes, act: Action, s': Nodes, n: NodeId)
    requires Consistent(s) && Orderly(s, act) && Step(s, act) == Next(s')
    requires (act.ShutdownArrives? && n == s'.down.n) || ((act.RemoveFromList? || act.RemoveFromIapp?) && n == s.down.n)
    ensures Consistent(s') && Moves(s, n, s')
  {
    assert MemberOf(s, n) == Expected(s, n);
    if act.RemoveFromList? {
      EraseAll(s.conn, n);
    }
    forall m ensures MemberOf(s', m) == Expected(s', m) && (m != n ==> MemberOf(s', m) == MemberOf(s, m)) {
      assert MemberOf(s, m) == Expected(s, m);
    }
  }

  /** An orderly step keeps the tables consistent and moves exactly one node, one place on the cycle. */
  lemma StepMoves(s: Nodes, act: Action, s': Nodes)
    requires Consistent(s) && Orderly(s, act) && Step(s, act) == Next(s')
    ensures Consistent(s') && exists n :: About(s, act, n) && Moves(s, n, s')
  {
    assert act.RemoveFromList? || act.RemoveFromIapp? ==> !s.down.NoShutdown?;
    assert act.ShutdownArrives? ==> !s'.down.NoShutdown? && At(s.addr, act.a, s'.down.n);
    hide Consistent, Orderly, Step, Moves, At;
    match act
    case SetupArrives(n, _, _) => SetupMoves(s, act, s', n);
    case AddToIapp(n) => SetupMoves(s, act, s', n);
    case AddToList(n) => SetupMoves(s, act, s', n);
    case ShutdownArrives(_) => ShutdownMoves(s, act, s', s'.down.n);
    case _ => ShutdownMoves(s, act, s', s.down.n);
  }

  lemma {:induction false} RunConsistent(acts: seq<Action>, s: Nodes)
    requires Run(acts) == Next(s) && OrderlyRun(acts)
    ensures Consistent(s)
  {
    hide Step, Orderly;
    if acts == [] {
    } else {
      var before := Run(acts[..|acts| - 1]).s;
      RunConsistent(acts[..|acts| - 1], before);
      hide Consistent;
      StepMoves(before, acts[|acts| - 1], s);
    }
  }

  /** No assertion fires in an orderly run. */
  lemma {:induction false} OrderlyNeverFails(acts: seq<Action>)
    requires OrderlyRun(acts)
    ensures !Run(acts).Fails?
  {
    if acts == [] {
    } else {
      var front, act := acts[..|acts| - 1], acts[|acts| - 1];
      OrderlyNeverFails(front);
      if Run(front).Next? {
        RunConsistent(front, Run(front).s);
        StepSucceeds(Run(front).s, act);
      }
    }
  }

  lemma StepSucceeds(s: Nodes, act: Action)
    requires Consistent(s) && Orderly(s, act)
    ensures !Step(s, act).Fails?
  {
    match act
    case AddToIapp(n) => assert MemberOf(s, n) == Expected(s, n);
    case RemoveFromList => if s.down.AddrGone? { assert MemberOf(s, s.down.n) == Expected(s, s.down.n); }
    case RemoveFromIapp => if s.down.OffList? { assert MemberOf(s, s.down.n) == Expected(s, s.down.n); }
    case _ =>
  }

  /** Whenever no setup or shutdown is under way, the three tables hold the same nodes. */
  lemma TablesAgree(acts: seq<Action>, s: Nodes)
    requires Run(acts) == Next(s) && OrderlyRun(acts) && s.tasks == map[] && s.down == NoShutdown
    ensures s.addr.Keys == s.iapp.Keys == SetOf(s.conn)
    ensures |s.conn| == |s.addr|
  {
    RunConsistent(acts, s);
    forall n ensures n in s.addr <==> n in s.iapp ensures n in s.addr <==> n in s.conn {
      assert MemberOf(s, n) == Expected(s, n);
    }
    DistinctSize(s.conn);
    assert s.addr.Keys == SetOf(s.conn);
  }

  function SetOf(q: seq<NodeId>): set<NodeId> {
    set n | n in q
  }

  lemma {:induction false} DistinctSize(q: seq<NodeId>)
    requires forall i, j :: 0 <= i < j < |q| ==> q[i] != q[j]
    ensures |SetOf(q)| == |q|
  {
    if q == [] {
      assert SetOf(q) == {};
    } else {
      DistinctSize(q[1..]);
      assert SetOf(q) == {q[0]} + SetOf(q[1..]) && q[0] !in SetOf(q[1..]);
    }
  }

  ghost function Then(o: Outcome, act: Action): Outcome {
    if o.Next? then Step(o.s, act) else o
  }

  /** A shutdown handled as soon as it comes goes through exactly when the node's setup task ended. */
  lemma ShutdownSafeIff(acts: seq<Action>, s: Nodes, n: NodeId)
    requires Run(acts) == Next(s) && OrderlyRun(acts) && s.down == NoShutdown && n in s.addr
    ensures Then(Then(Step(s, ShutdownArrives(s.addr[n])), RemoveFromList), RemoveFromIapp).Next? <==> n !in s.tasks
  {
    RunConsistent(acts, s);
    assert At(s.addr, s.addr[n], n);
    var s1 := Step(s, ShutdownArrives(s.addr[n])).s;
    assert s1 == s.(addr := s.addr - {n}, down := AddrGone(n));
    assert MemberOf(s, n) == Expected(s, n);
  }

  /** A setup request handled at once goes through exactly when the registry does not have its node: a
      request that is sent again after the node was registered fails. */
  lemma SetupSafeIff(s: Nodes, n: NodeId, a: Addr, rf: seq<RanFunc>)
    requires n !in s.tasks
    ensures Then(Then(Step(s, SetupArrives(n, a, rf)), AddToIapp(n)), AddToList(n)).Next? <==> n !in s.iapp
    ensures n in s.iapp ==> Then(Step(s, SetupArrives(n, a, rf)), AddToIapp(n)) == Fails(AlreadyInIapp)
  {
  }

  // ----- what the tables hold -----

  /** The address and the RAN functions of the last setup request of each node in a schedule. */
  function Announced(acts: seq<Action>): map<NodeId, (Addr, seq<RanFunc>)> {
    if acts == [] then map[]
    else
      var before := Announced(acts[..|acts| - 1]);
      match acts[|acts| - 1]
      case SetupArrives(n, a, rf) => before[n := (a, rf)]
      case _ => before
  }

  /** The tables hold, for every node, what it announced. */
  ghost predicate AsAnnounced(said: map<NodeId, (Addr, seq<RanFunc>)>, s: Nodes) {
    && (forall n <- s.addr :: n in said && s.addr[n] == said[n].0)
    && (forall n <- s.iapp :: n in said && s.iapp[n] == said[n].1)
    && (forall n <- s.tasks :: s.tasks[n].HasAddr? ==> n in said && s.tasks[n].rf == said[n].1)
  }

  /** Whenever the iApp has a node, it has exactly the RAN functions of the node's last setup request, and
      the node's address is the one that request came from. */
  lemma {:induction false} HoldsAnnounced(acts: seq<Action>, s: Nodes)
    requires Run(acts) == Next(s) && OrderlyRun(acts)
    ensures AsAnnounced(Announced(acts), s)
  {
    if acts == [] {
    } else {
      var front := acts[..|acts| - 1];
      HoldsAnnounced(front, Run(front).s);
      StepAnnounced(Announced(front), Run(front).s, acts[|acts| - 1], s);
      hide Step, Orderly, AsAnnounced;
    }
  }

  lemma StepAnnounced(said: map<NodeId, (Addr, seq<RanFunc>)>, s: Nodes, act: Action, s': Nodes)
    requires AsAnnounced(said, s) && Orderly(s, act) && Step(s, act) == Next(s')
    ensures AsAnnounced(if act.SetupArrives? then said[act.n := (act.a, act.rf)] else said, s')
  {
    assert act.SetupArrives? ==> !MemberOf(s, act.n).iapp;
  }

  lemma SetupDone(s: Nodes, n: NodeId, a: Addr, rf: seq<RanFunc>)
    requires Orderly(s, SetupArrives(n, a, rf)) && n !in s.tasks
    ensures n !in s.addr && n !in s.iapp && n !in s.conn
    ensures Then(Then(Step(s, SetupArrives(n, a, rf)), AddToIapp(n)), AddToList(n))
            == Next(s.(addr := s.addr[n := a], iapp := s.iapp[n := rf], conn := s.conn + [n]))
  {
    assert MemberOf(s, n) == Member(false, false, false);
    assert s.tasks[n := HasAddr(rf)][n := InIapp] - {n} == s.tasks;
  }

  // ----- the tables in place -----

  /** Copies of the ids and RAN functions of all nodes, each node once. */
  ghost predicate Copies(arr: seq<(NodeId, seq<RanFunc>)>, nodes: map<NodeId, seq<RanFunc>>) {
    |arr| == |nodes| && Lists(NatBefore, arr, nodes)
  }

  /** A copy loop over an array. */
  method CopyRanFunctions(rf: seq<RanFunc>) returns (copy: seq<RanFunc>)
    ensures copy == rf
  {
    copy := [];
    for j := 0 to |rf|
      invariant copy == rf[..j]
    {
      copy := copy + [rf[j]];
    }
  }

  /** The registry of the iApp (reg_e2_nodes.c). */
  class RegE2Nodes {
    const tree: Tree<nat, seq<RanFunc>>

    ghost predicate Valid()
      reads this, tree
    {
      tree.Valid() && tree.before == NatBefore
    }

    ghost function Nodes(): map<NodeId, seq<RanFunc>>
      reads this, tree
    {
      tree.model
    }

    constructor ()
      ensures Valid() && Nodes() == map[] && fresh(tree)
    {
      NatOrder();
      tree := new Tree(NatBefore);
    }

    /** add_reg_e2_node: the node must be new. */
    method AddRegE2Node(n: NodeId, rf: seq<RanFunc>)
      requires Valid() && |rf| > 0 && n !in Nodes()
      modifies tree
      ensures Valid() && Nodes() == old(Nodes())[n := rf]
    {
      var copy := CopyRanFunctions(rf);
      tree.Insert(n, copy);
    }

    /** rm_reg_e2_node: the node must be there. */
    method RmRegE2Node(n: NodeId)
      requires Valid() && n in Nodes()
      modifies tree
      ensures Valid() && Nodes() == old(Nodes()) - {n}
    {
      var rf := tree.Extract(n);
    }

    /** generate_e2_node_arr: one deep copy of every node. */
    method GenerateE2NodeArr() returns (arr: seq<(NodeId, seq<RanFunc>)>)
      requires Valid()
      ensures Copies(arr, Nodes())
    {
      hide TotalOrder, Lists;
      SameSize(NatBefore, tree.items, tree.model);
      arr := [];
      for i := 0 to |tree.items|
        invariant arr == tree.items[..i]
      {
        var copy := CopyRanFunctions(tree.items[i].1);
        arr := arr + [(tree.items[i].0, copy)];
      }
      assert arr == tree.items;
    }

    /** valid_global_e2_node of the iApp: looks for the node in a copy of the registry. */
    method ValidGlobalE2Node(n: NodeId) returns (valid: bool)
      requires Valid()
      ensures valid <==> n in Nodes()
    {
      hide TotalOrder, Lists, Copies;
      var arr := GenerateE2NodeArr();
      CopiesAll(arr, Nodes(), n);
      for i := 0 to |arr|
        invariant forall j :: 0 <= j < i ==> arr[j].0 != n
      {
        if arr[i].0 == n {
          return true;
        }
      }
      return false;
    }
  }

  lemma CopiesAll(arr: seq<(NodeId, seq<RanFunc>)>, nodes: map<NodeId, seq<RanFunc>>, n: NodeId)
    requires Copies(arr, nodes)
    ensures n in nodes <==> exists i :: 0 <= i < |arr| && arr[i].0 == n
  {
    assert n in nodes ==> Keyed(arr, n);
  }

  /** The three tables together. */
  class NodeTables {
    const sockets: Bimap<NodeId, Addr>
    const registry: RegE2Nodes
    var conn: seq<NodeId>

    ghost predicate Valid()
      reads this, sockets, registry, registry.tree
    {
      sockets.Valid() && registry.Valid()
    }

    ghost predicate Mirrors(s: Nodes)
      reads this, sockets, registry, registry.tree
    {
      sockets.left == s.addr && registry.Nodes() == s.iapp && conn == s.conn
    }

    constructor ()
      ensures Valid() && Mirrors(NOBODY) && fresh(sockets) && fresh(registry) && fresh(registry.tree)
    {
      sockets := new Bimap();
      registry := new RegE2Nodes();
      conn := [];
    }

    /** A setup request, run without interruption. */
    method OnSetupRequest(n: NodeId, a: Addr, rf: seq<RanFunc>, ghost s: Nodes)
      requires Valid() && Mirrors(s) && |rf| > 0 && Orderly(s, SetupArrives(n, a, rf)) && n !in s.tasks
      modifies this, sockets, registry.tree
      ensures Valid() && registry.Nodes() == old(registry.Nodes())[n := rf] && sockets.left == old(sockets.left)[n := a]
      ensures conn == old(conn) + [n]
      ensures var o := Then(Then(Step(s, SetupArrives(n, a, rf)), AddToIapp(n)), AddToList(n)); o.Next? && Mirrors(o.s)
    {
      SetupDone(s, n, a, rf);
      assert a !in sockets.right;
      hide Step, Then, Orderly, Inverse, TotalOrder, Lists;
      sockets.Insert(n, a);
      registry.AddRegE2Node(n, rf);
      conn := conn + [n];
    }

    /** notification_handle_ric: a shutdown notification, run without interruption. */
    method OnShutdown(a: Addr, ghost s: Nodes)
      requires Valid() && Mirrors(s)
      requires Then(Then(Step(s, ShutdownArrives(a)), RemoveFromList), RemoveFromIapp).Next?
      requires forall m, n :: m in s.addr && n in s.addr && s.addr[m] == s.addr[n] ==> m == n
      modifies this, sockets, registry.tree
      ensures Valid() && a in old(sockets.right)
      ensures var n := old(sockets.right)[a];
              && registry.Nodes() == old(registry.Nodes()) - {n} && sockets.left == old(sockets.left) - {n}
              && (forall m :: multiset(conn)[m] == if m == n then multiset(old(conn))[m] - 1 else multiset(old(conn))[m])
      ensures Mirrors(Then(Then(Step(s, ShutdownArrives(a)), RemoveFromList), RemoveFromIapp).s)
    {
      ghost var s1 := Step(s, ShutdownArrives(a)).s;
      assert At(s.addr, a, s1.down.n);
      var n := sockets.ExtractRight(a);
      assert n == s1.down.n && n in conn;
      EraseOne(conn, n);
      conn := Erase(conn, n);
      registry.RmRegE2Node(n);
    }
  }
}
