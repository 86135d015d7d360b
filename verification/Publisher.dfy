/** The Publisher object: fan-out to the accepted connections, with failed ones erased in place. */
module Publishers {

  /** The publisher's end of one connection. */
  class Connection {
    var alive: bool                // sends on the connection succeed
    var sent: seq<string>
    ghost var acceptedAt: nat      // how much had been published when the connection was accepted

    constructor ()
      ensures alive && sent == []
    {
      alive, sent, acceptedAt := true, [], 0;
    }

    method Close()
      modifies this`alive
      ensures !alive
    {
      alive := false;
    }

    method SendMessage(v: string) returns (ok: bool)
      modifies this`sent
      ensures ok == alive && sent == old(sent) + if alive then [v] else []
    {
      ok := alive;
      if ok { sent := sent + [v]; }
    }
  }

  /** The connections outside a set, in their order. */
  function Without(cs: seq<Connection>, gone: set<Connection>): seq<Connection> {
    if cs == [] then []
    else (if cs[0] in gone then [] else [cs[0]]) + Without(cs[1..], gone)
  }

  lemma {:induction false} WithoutAppend(cs: seq<Connection>, c: Connection, gone: set<Connection>)
    ensures Without(cs + [c], gone) == Without(cs, gone) + if c in gone then [] else [c]
  {
    var last := if c in gone then [] else [c];
    if cs == [] {
      assert cs + [c] == [c] && [c][1..] == [];
      assert Without([c], gone) == last + Without([], gone);
    } else {
      var first, rest := if cs[0] in gone then [] else [cs[0]], Without(cs[1..], gone);
      assert (cs + [c])[0] == cs[0] && (cs + [c])[1..] == cs[1..] + [c];
      WithoutAppend(cs[1..], c, gone);
      assert first + (rest + last) == first + rest + last;
    }
  }

  lemma {:induction false} WithoutMembers(cs: seq<Connection>, gone: set<Connection>)
    ensures forall c :: c in Without(cs, gone) <==> c in cs && c !in gone
    ensures gone !! (set c | c in cs) ==> Without(cs, gone) == cs
  {
    if cs != [] {
      WithoutMembers(cs[1..], gone);
      assert cs == [cs[0]] + cs[1..];
    }
  }

  lemma {:induction false} WithoutDistinct(cs: seq<Connection>, gone: set<Connection>)
    requires Distinct(cs)
    ensures Distinct(Without(cs, gone))
  {
    if cs != [] {
      var rest := Without(cs[1..], gone);
      WithoutDistinct(cs[1..], gone);
      WithoutMembers(cs[1..], gone);
      assert cs[0] !in rest;
      assert Without(cs, gone) == (if cs[0] in gone then [] else [cs[0]]) + rest;
    }
  }

  predicate Distinct(cs: seq<Connection>) { forall i, j :: 0 <= i < j < |cs| ==> cs[i] != cs[j] }

  /** The loop of erase_if: the connections whose send succeeds, in order. */
  method SendEach(all: seq<Connection>, v: string) returns (kept: seq<Connection>)
    requires Distinct(all)
    modifies all
    ensures kept == Without(all, set c | c in all && !old(c.alive))
    ensures forall c :: c in all ==> c.alive == old(c.alive) && c.acceptedAt == old(c.acceptedAt)
    ensures forall c :: c in all ==> c.sent == old(c.sent) + if old(c.alive) then [v] else []
  {
    ghost var dead := set c | c in all && !c.alive;
    kept := [];
    var i := 0;
    while i < |all|
      invariant 0 <= i <= |all| && kept == Without(all[..i], dead)
      invariant forall c :: c in all ==> c.alive == old(c.alive) && c.acceptedAt == old(c.acceptedAt)
      invariant forall j :: 0 <= j < i ==> all[j].sent == old(all[j].sent) + if old(all[j].alive) then [v] else []
      invariant forall j :: i <= j < |all| ==> all[j].sent == old(all[j].sent)
    {
      var c := all[i];
      assert all[..i + 1] == all[..i] + [c];
      WithoutAppend(all[..i], c, dead);
      var ok := c.SendMessage(v);
      if ok { kept := kept + [c]; }
      i := i + 1;
    }
    assert all[..i] == all;
  }

  class Publisher {
    var connected: bool
    var accepting: bool                // the acceptor is open
    var connections: seq<Connection>   // subscriber_connections_
    ghost var published: seq<string>

    /** Every held connection has been sent exactly what was published since it was accepted. */
    ghost predicate Valid()
      reads this, connections
    {
      && Distinct(connections)
      && forall c :: c in connections ==> c.acceptedAt <= |published| && c.sent == published[c.acceptedAt..]
    }

    constructor ()
      ensures Valid() && connected && accepting && connections == [] && published == []
    {
      connected, accepting, connections, published := true, true, [], [];
    }

    /** One accepted connection in the accepting loop. */
    method Accept(c: Connection)
      requires Valid() && accepting && c !in connections && c.sent == []
      modifies this`connections, c`acceptedAt
      ensures Valid() && connections == old(connections) + [c] && c.acceptedAt == |published|
    {
      c.acceptedAt := |published|;
      connections := connections + [c];
    }

    /** Send on every connection in turn and erase those whose send fails; the others keep their order. */
    method Publish(v: string)
      requires Valid()
      modifies this`connections, this`published, connections
      ensures Valid() && published == old(published) + [v]
      ensures connections == Without(old(connections), set c | c in old(connections) && !old(c.alive))
      ensures forall c :: c in old(connections) ==>
        c.alive == old(c.alive) && c.acceptedAt == old(c.acceptedAt) && c.sent == old(c.sent) + if c.alive then [v] else []
    {
      ghost var dead := set c | c in connections && !c.alive;
      var all := connections;
      connections := SendEach(all, v);
      published := published + [v];
      WithoutMembers(all, dead);
      WithoutDistinct(all, dead);
      forall c | c in connections ensures c.acceptedAt <= |published| && c.sent == published[c.acceptedAt..] {
        assert c in all && c !in dead;
        assert published[c.acceptedAt..] == old(published)[c.acceptedAt..] + [v];
      }
    }

    method Disconnect()
      modifies this`connected
      ensures !connected
    {
      connected := false;
    }

    /** The end of the accepting loop: no connection can be added, none is left to send on, and each is closed. */
    method Shutdown()
      requires Valid() && !connected
      modifies this`accepting, this`connections, connections
      ensures Valid() && !accepting && connections == []
      ensures forall c :: c in old(connections) ==> !c.alive && c.sent == old(c.sent)
    {
      accepting := false;
      ghost var all := connections;
      while connections != []
        invariant !accepting && connections <= all && Distinct(connections)
        invariant forall c :: c in all && c !in connections ==> !c.alive
        invariant forall c :: c in all ==> c.sent == old(c.sent) && c.acceptedAt == old(c.acceptedAt)
        decreases |connections|
      {
        var last := |connections| - 1;
        assert connections == connections[..last] + [connections[last]];
        connections[last].Close();
        connections := connections[..last];
      }
    }
  }
}
