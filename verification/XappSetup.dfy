/** The E42 setup of an xApp: the timer resends the request, so more than one response may come
    (msg_handler_xapp.c). */
module XappSetup {
  import opened Trees
  import opened NodeRegistry

  class Xapp {
    var connected: bool
    var id: nat
    var pending: bool
    const nodes: RegE2Nodes

    ghost predicate Valid()
      reads this, nodes, nodes.tree
    {
      nodes.Valid() && (!connected ==> nodes.Nodes() == map[])
    }

    constructor ()
      ensures Valid() && !connected && !pending && fresh(nodes) && fresh(nodes.tree)
    {
      connected, id, pending := false, 0, false;
      nodes := new RegE2Nodes();
    }

    /** e2ap_handle_e42_setup_request_xapp. */
    method SendSetupRequest()
      requires Valid() && !connected && !pending
      modifies this`pending
      ensures Valid() && pending
    {
      pending := true;
    }

    /** e2ap_handle_e42_setup_response_xapp: the first response fills the registry, sets the id, and stops
        the timer; every later one is ignored. sent is the iApp's registry when it answered. */
    method OnSetupResponse(xappId: nat, arr: seq<(NodeId, seq<RanFunc>)>, ghost sent: map<NodeId, seq<RanFunc>>)
      requires Valid() && Copies(arr, sent) && (forall n <- sent :: |sent[n]| > 0) && (!connected ==> pending)
      modifies this, nodes.tree
      ensures Valid() && connected
      ensures !old(connected) ==> nodes.Nodes() == sent && id == xappId % 65536 && !pending
      ensures old(connected) ==> nodes.Nodes() == old(nodes.Nodes()) && id == old(id) && pending == old(pending)
    {
      if connected {
        return;
      }
      hide TotalOrder, Lists, Copies;
      id := xappId % 65536;
      for i := 0 to |arr|
        invariant nodes.Valid() && !connected && id == xappId % 65536
        invariant nodes.Nodes() == FirstNodes(arr, i)
      {
        NextNode(arr, sent, i);
        nodes.AddRegE2Node(arr[i].0, arr[i].1);
      }
      AllNodes(arr, sent);
      pending := false;
      connected := true;
    }
  }

  /** The first nodes of a list. */
  ghost function FirstNodes(arr: seq<(NodeId, seq<RanFunc>)>, i: nat): map<NodeId, seq<RanFunc>>
    requires i <= |arr|
  {
    if i == 0 then map[] else FirstNodes(arr, i - 1)[arr[i - 1].0 := arr[i - 1].1]
  }

  lemma {:induction false} FirstNodesKeys(arr: seq<(NodeId, seq<RanFunc>)>, i: nat, n: NodeId)
    requires Ascending(NatBefore, arr) && i <= |arr|
    ensures n in FirstNodes(arr, i) <==> Keyed(arr[..i], n)
    ensures forall j :: 0 <= j < i && arr[j].0 == n ==> n in FirstNodes(arr, i) && FirstNodes(arr, i)[n] == arr[j].1
  {
    if i == 0 {
    } else {
      FirstNodesKeys(arr, i - 1, n);
      assert arr[..i] == arr[..i - 1] + [arr[i - 1]];
      assert arr[..i][i - 1] == arr[i - 1];
      if Keyed(arr[..i - 1], n) {
        var j :| 0 <= j < i - 1 && arr[..i - 1][j].0 == n;
        assert arr[..i][j].0 == n;
      }
    }
  }

  lemma NextNode(arr: seq<(NodeId, seq<RanFunc>)>, sent: map<NodeId, seq<RanFunc>>, i: nat)
    requires Copies(arr, sent) && i < |arr| && forall n <- sent :: |sent[n]| > 0
    ensures arr[i].0 !in FirstNodes(arr, i) && |arr[i].1| > 0
    ensures FirstNodes(arr, i + 1) == FirstNodes(arr, i)[arr[i].0 := arr[i].1]
  {
    FirstNodesKeys(arr, i, arr[i].0);
  }

  lemma AllNodes(arr: seq<(NodeId, seq<RanFunc>)>, sent: map<NodeId, seq<RanFunc>>)
    requires Copies(arr, sent)
    ensures FirstNodes(arr, |arr|) == sent
  {
    assert arr[..|arr|] == arr;
    forall n ensures n in FirstNodes(arr, |arr|) <==> n in sent
             ensures n in sent && n in FirstNodes(arr, |arr|) ==> FirstNodes(arr, |arr|)[n] == sent[n] {
      FirstNodesKeys(arr, |arr|, n);
      if n in sent {
        assert Keyed(arr, n);
      }
    }
  }
}
