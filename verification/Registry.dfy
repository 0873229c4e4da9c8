/** The registry of node controllers, as one call at a time sees it. */
module Registry {
  import opened Wrappers
  import opened Devices

  datatype NodeInfo = NodeInfo(nodeID: string, endpoint: string)

  /** A RegistryListener: the master controller, or any other. */
  datatype Listener = MasterListener | OtherListener(n: nat)

  /** One callback made to a listener, with what OnNodeAdded returned. */
  datatype Event = NodeAdded(l: Listener, node: NodeInfo, ok: bool) | NodeDeleted(l: Listener, node: NodeInfo)

  /** The node is known under this endpoint: registering it again calls no listener. */
  predicate Known(clients: map<string, NodeInfo>, id: string, endpoint: string) {
    id in clients && clients[id].endpoint == endpoint
  }

  /** No listener is called twice, and nobody but the listeners. */
  ghost predicate CalledOnce(events: seq<Event>, ls: set<Listener>) {
    && (forall j, k | 0 <= j < k < |events| :: events[j].l != events[k].l)
    && (forall k | 0 <= k < |events| :: events[k].l in ls)
  }

  ghost predicate EachCalled(events: seq<Event>, ls: set<Listener>) {
    forall l | l in ls :: exists k :: 0 <= k < |events| && events[k].l == l
  }

  /** What the listeners answered to the addition of the node. */
  ghost predicate AnsweredBy(events: seq<Event>, node: NodeInfo, accepts: (Listener, NodeInfo) -> bool) {
    forall k | 0 <= k < |events| :: events[k] == NodeAdded(events[k].l, node, accepts(events[k].l, node))
  }

  ghost predicate AllDeleted(events: seq<Event>, node: NodeInfo) {
    forall k | 0 <= k < |events| :: events[k] == NodeDeleted(events[k].l, node)
  }

  lemma CalledNext(events: seq<Event>, called: set<Listener>, e: Event)
    requires CalledOnce(events, called) && EachCalled(events, called) && e.l !in called
    ensures CalledOnce(events + [e], called + {e.l}) && EachCalled(events + [e], called + {e.l})
  {
    assert (events + [e])[|events|] == e;
    forall l | l in called ensures exists k :: 0 <= k < |events + [e]| && (events + [e])[k].l == l {
      var k :| 0 <= k < |events| && events[k].l == l;
      assert (events + [e])[k].l == l;
    }
  }

  lemma AnsweredNext(events: seq<Event>, node: NodeInfo, accepts: (Listener, NodeInfo) -> bool, e: Event)
    requires AnsweredBy(events, node, accepts) && e == NodeAdded(e.l, node, accepts(e.l, node))
    ensures AnsweredBy(events + [e], node, accepts)
  {
  }

  lemma AllDeletedNext(events: seq<Event>, node: NodeInfo, e: Event)
    requires AllDeleted(events, node) && e == NodeDeleted(e.l, node)
    ensures AllDeleted(events + [e], node)
  {
  }

  lemma AppendOne<T>(s: seq<T>, t: seq<T>, e: T)
    ensures s + t + [e] == s + (t + [e])
  {
  }

  class RegistryServer {
    var nodeClients: map<string, NodeInfo>
    var listeners: set<Listener>
    ghost var events: seq<Event>

    constructor ()
      ensures nodeClients == map[] && listeners == {} && events == []
    {
      nodeClients, listeners, events := map[], {}, [];
    }

    method AddListener(l: Listener)
      modifies this`listeners
      ensures listeners == old(listeners) + {l}
    {
      listeners := listeners + {l};
    }

    method GetNodeController(id: string) returns (node: Option<NodeInfo>)
      ensures node == if id in nodeClients then Some(nodeClients[id]) else None
    {
      node := if id in nodeClients then Some(nodeClients[id]) else None;
    }

    /** The node is registered, and its endpoint can be dialled. */
    predicate Connects(id: string, dials: string -> bool)
      reads this
    {
      id in nodeClients && dials(nodeClients[id].endpoint)
    }

    method ConnectToNodeController(id: string, dials: string -> bool) returns (ok: bool)
      ensures ok <==> Connects(id, dials)
      ensures ok <==> id in nodeClients && dials(nodeClients[id].endpoint)
    {
      var node := GetNodeController(id);
      if node.None? {
        return false;
      }
      ok := dials(node.value.endpoint);
    }

    /** accepts says what each listener's OnNodeAdded answers. A node that is known under this endpoint is
        not announced. Any other is, to one listener after the other in an arbitrary order; the first
        refusal ends the registration and undoes it, and is returned as a plain error. made lists the
        callbacks of this call. */
    method RegisterController(id: string, endpoint: string, accepts: (Listener, NodeInfo) -> bool)
      returns (code: Code, ghost made: seq<Event>)
      modifies this`nodeClients, this`events
      ensures events == old(events) + made
      ensures code == InvalidArgument <==> id == "" || endpoint == ""
      ensures code == InvalidArgument ==> nodeClients == old(nodeClients) && made == []
      ensures code != InvalidArgument && id in old(nodeClients) && old(nodeClients)[id].endpoint == endpoint ==>
                code == OK && made == []
      ensures code != InvalidArgument && !(id in old(nodeClients) && old(nodeClients)[id].endpoint == endpoint) ==>
                && (code == OK <==> forall l | l in listeners :: accepts(l, NodeInfo(id, endpoint)))
                && (forall j, k | 0 <= j < k < |made| :: made[j].l != made[k].l)
                && (forall k | 0 <= k < |made| :: made[k].l in listeners
                      && made[k] == NodeAdded(made[k].l, NodeInfo(id, endpoint),
                                              accepts(made[k].l, NodeInfo(id, endpoint))))
                && (code == OK ==> forall l | l in listeners :: exists k :: 0 <= k < |made| && made[k].l == l)
                && (code != OK ==> code == Unknown && |made| > 0)
                && (code != OK ==> forall k | 0 <= k < |made| :: made[k].ok <==> k < |made| - 1)
      ensures code == OK ==> nodeClients == old(nodeClients)[id := NodeInfo(id, endpoint)]
      ensures code == Unknown ==> nodeClients == old(nodeClients) - {id}
    {
      made := [];
      if id == "" {
        code := InvalidArgument;
        return;
      }
      if endpoint == "" {
        code := InvalidArgument;
        return;
      }
      var node := NodeInfo(id, endpoint);
      var found := id in nodeClients;
      if found {
        if nodeClients[id].endpoint != endpoint {
          found := false;
        }
      }
      nodeClients := nodeClients[id := node];
      if !found {
        var ok;
        ok, made := NotifyAdded(node, accepts);
        if !ok {
          nodeClients := nodeClients - {id};
          code := Unknown;
          return;
        }
      }
      code := OK;
    }

    /** The loop over the listeners of RegisterController. */
    method NotifyAdded(node: NodeInfo, accepts: (Listener, NodeInfo) -> bool) returns (ok: bool, ghost made: seq<Event>)
      modifies this`events
      ensures events == old(events) + made
      ensures ok <==> forall l | l in listeners :: accepts(l, node)
      ensures CalledOnce(made, listeners) && AnsweredBy(made, node, accepts)
      ensures ok ==> EachCalled(made, listeners)
      ensures !ok ==> |made| > 0 && forall k | 0 <= k < |made| :: made[k].ok <==> k < |made| - 1
    {
      var todo := listeners;
      made := [];
      ghost var called: set<Listener> := {};
      while todo != {}
        invariant todo !! called && todo + called == listeners
        invariant events == old(events) + made && CalledOnce(made, called) && EachCalled(made, called)
        invariant forall l | l in called :: accepts(l, node)
        invariant AnsweredBy(made, node, accepts) && forall k | 0 <= k < |made| :: made[k].ok
      {
        var l :| l in todo;
        ghost var e := NodeAdded(l, node, accepts(l, node));
        AppendOne(old(events), made, e);
        CalledNext(made, called, e);
        AnsweredNext(made, node, accepts, e);
        events := events + [e];
        made := made + [e];
        if !accepts(l, node) {
          ok := false;
          return;
        }
        todo, called := todo - {l}, called + {l};
      }
      ok := true;
    }

    method UnregisterController(id: string) returns (code: Code, ghost made: seq<Event>)
      modifies this`nodeClients, this`events
      ensures events == old(events) + made
      ensures code == if id == "" then InvalidArgument else OK
      ensures nodeClients == if id == "" then old(nodeClients) else old(nodeClients) - {id}
      ensures id == "" || id !in old(nodeClients) ==> made == []
      ensures id != "" && id in old(nodeClients) ==>
                && (forall j, k | 0 <= j < k < |made| :: made[j].l != made[k].l)
                && (forall l | l in listeners :: exists k :: 0 <= k < |made| && made[k].l == l)
                && (forall k | 0 <= k < |made| :: made[k].l in listeners
                      && made[k] == NodeDeleted(made[k].l, old(nodeClients)[id]))
    {
      made := [];
      if id == "" {
        code := InvalidArgument;
        return;
      }
      var node := GetNodeController(id);
      nodeClients := nodeClients - {id};
      if node.Some? {
        made := NotifyDeleted(node.value);
      }
      code := OK;
    }

    method NotifyDeleted(node: NodeInfo) returns (ghost made: seq<Event>)
      modifies this`events
      ensures events == old(events) + made
      ensures CalledOnce(made, listeners) && EachCalled(made, listeners) && AllDeleted(made, node)
    {
      var todo := listeners;
      made := [];
      ghost var called: set<Listener> := {};
      while todo != {}
        invariant todo !! called && todo + called == listeners
        invariant events == old(events) + made && CalledOnce(made, called) && EachCalled(made, called)
        invariant AllDeleted(made, node)
      {
        var l :| l in todo;
        ghost var e := NodeDeleted(l, node);
        AppendOne(old(events), made, e);
        CalledNext(made, called, e);
        AllDeletedNext(made, node, e);
        events := events + [e];
        made := made + [e];
        todo, called := todo - {l}, called + {l};
      }
    }

    /** A copy of the map, entry by entry in an arbitrary order. */
    method NodeClients() returns (copy: map<string, NodeInfo>)
      ensures copy == nodeClients
    {
      copy := map[];
      var rest := nodeClients.Keys;
      while rest != {}
        invariant rest <= nodeClients.Keys
        invariant copy.Keys == nodeClients.Keys - rest
        invariant forall id | id in copy :: copy[id] == nodeClients[id]
      {
        var id :| id in rest;
        copy := copy[id := nodeClients[id]];
        rest := rest - {id};
      }
    }
  }
}
