// ClientNodes: the one connection registered under each client node.

module ClientNodes {
  import opened Util
  import opened Nodes
  import opened Context

  class ClientNodes {
    var nodes: map<Node, ChannelContext>

    constructor ()
      ensures nodes == map[]
    {
      nodes := map[];
    }

    /** `getKey`: the connection's client node; None where requireNonNull throws. */
    static function GetKey(cc: ChannelContext): (r: Option<Node>)
      reads cc
      ensures r.Some? <==> cc.clientNode.Some?
      ensures r.Some? ==> r.value == cc.clientNode.value
    {
      cc.clientNode
    }

    /** `find(Node)`: the connection registered under the node, if any. */
    function Find(node: Node): (r: Option<ChannelContext>)
      reads this
      ensures r.Some? <==> node in nodes
      ensures r.Some? ==> r.value == nodes[node]
    {
      if node in nodes then Some(nodes[node]) else None
    }

    /**
     * `find(ip, port)`: the lookup of the node built from them, so a blank
     * ip looks up 0.0.0.0.
     */
    function FindAddress(ip: Option<string>, port: int): (r: Option<ChannelContext>)
      reads this
      ensures r == Find(NewNode(ip, port))
      ensures !IsBlank(ip) ==> (r.Some? <==> Node(ip.value, port) in nodes)
      ensures IsBlank(ip) ==> (r.Some? <==> Node(AnyAddress, port) in nodes)
    {
      Find(NewNode(ip, port))
    }

    /**
     * `put`: a no-op for short connections and for a missing client node
     * (the failure is swallowed); otherwise the node maps to the
     * connection, replacing any earlier one.
     */
    method Put(cc: ChannelContext)
      modifies this
      ensures cc.isShortConnection || cc.clientNode.None? ==> nodes == old(nodes)
      ensures !cc.isShortConnection && cc.clientNode.Some? ==>
        nodes == old(nodes)[cc.clientNode.value := cc] && Find(cc.clientNode.value) == Some(cc)
    {
      if cc.isShortConnection {
        return;
      }
      var key := GetKey(cc);
      if key.Some? {
        nodes := nodes[key.value := cc];
      }
    }

    /**
     * `remove`: a no-op for short connections and a missing client node;
     * otherwise the entry under the connection's node goes, whichever
     * connection it maps to.
     */
    method Remove(cc: ChannelContext)
      modifies this
      ensures cc.isShortConnection || cc.clientNode.None? ==> nodes == old(nodes)
      ensures !cc.isShortConnection && cc.clientNode.Some? ==>
        nodes == old(nodes) - {cc.clientNode.value} && Find(cc.clientNode.value).None?
    {
      if cc.isShortConnection {
        return;
      }
      var key := GetKey(cc);
      if key.Some? {
        nodes := nodes - {key.value};
      }
    }
  }

  /** Removing a node put into a map that did not hold it gives the map back. */
  lemma RemoveUndoesPut(m: map<Node, ChannelContext>, n: Node, cc: ChannelContext)
    requires n !in m
    ensures m[n := cc] - {n} == m
  {
  }
}
