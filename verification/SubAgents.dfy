/** The consumer check of an agent's sub-agents (src/agents/consumerSafety.ts): a recursive walk over
    the declared sub-agents that shares one growing set of seen ids, on a graph that may be cyclic.
    A definition that does not load is absent from the map. */
module SubAgents {
  import opened Options

  type Id = string

  datatype Agent = Agent(id: Id, safe: bool, subAgents: seq<Id>)

  /** What the walk looks at: the root's own definition, and what the other ids load to. */
  datatype Graph = Graph(root: Agent, load: map<Id, Agent>)

  /** The i-th sub-agent entry of an agent. */
  datatype Edge = Edge(from: Id, index: nat)

  function SubsOf(g: Graph, id: Id): seq<Id> {
    if id == g.root.id then g.root.subAgents else if id in g.load then g.load[id].subAgents else []
  }

  predicate IsEdge(g: Graph, e: Edge) {
    e.index < |SubsOf(g, e.from)|
  }

  function Target(g: Graph, e: Edge): Id
    requires IsEdge(g, e)
  {
    SubsOf(g, e.from)[e.index]
  }

  // ---------- the specification ----------

  /** A path of entries from the root. */
  ghost predicate IsPath(g: Graph, p: seq<Edge>, to: Id) {
    if p == [] then to == g.root.id
    else
      var e := p[|p| - 1];
      IsEdge(g, e) && Target(g, e) == to && IsPath(g, p[..|p| - 1], e.from)
  }

  ghost predicate Reachable(g: Graph, id: Id) {
    exists p :: IsPath(g, p, id)
  }

  /** The root, or a defined agent, that may serve consumers. */
  predicate SafeAgent(g: Graph, id: Id) {
    if id == g.root.id then g.root.safe else id in g.load && g.load[id].safe
  }

  /** No two entries of reachable agents name the same agent, and none names the root: what is
      reachable is a tree. */
  ghost predicate IsTree(g: Graph) {
    && (forall e: Edge :: IsEdge(g, e) && Reachable(g, e.from) ==> Target(g, e) != g.root.id)
    && (forall e: Edge, f: Edge :: IsEdge(g, e) && IsEdge(g, f) && Reachable(g, e.from) &&
                                   Reachable(g, f.from) && e != f ==>
          Target(g, e) != Target(g, f))
  }

  ghost predicate AllSafe(g: Graph) {
    forall id :: Reachable(g, id) ==> SafeAgent(g, id)
  }

  ghost predicate Good(g: Graph) {
    AllSafe(g) && IsTree(g)
  }

  // ---------- what the walk keeps ----------

  /** Every seen agent but the root was reached by exactly one followed entry, and all are reachable. */
  ghost predicate WalkOk(g: Graph, seen: set<Id>, followed: set<Edge>) {
    && g.root.id in seen
    && EdgesOk(g, seen, followed)
    && (forall id <- seen :: id != g.root.id ==> exists e :: e in followed && Target(g, e) == id)
    && (forall id <- seen :: Reachable(g, id))
  }

  /** An agent is finished: it is safe and all its entries have been followed. */
  ghost predicate Finished(g: Graph, id: Id, followed: set<Edge>) {
    SafeAgent(g, id) && forall e: Edge :: e.from == id && IsEdge(g, e) ==> e in followed
  }

  /** An entry to an agent seen already is a second entry to it, or names the root. */
  lemma SeenTwice(g: Graph, seen: set<Id>, followed: set<Edge>, via: Edge)
    requires WalkOk(g, seen, followed) && IsEdge(g, via) && via.from in seen && Target(g, via) in seen &&
             via !in followed
    ensures !IsTree(g)
  {
    var id := Target(g, via);
    if id != g.root.id {
      var e :| e in followed && Target(g, e) == id;
    }
  }

  lemma Extend(g: Graph, via: Edge)
    requires IsEdge(g, via) && Reachable(g, via.from)
    ensures Reachable(g, Target(g, via))
  {
    var p :| IsPath(g, p, via.from);
    assert (p + [via])[..|p|] == p;
    assert IsPath(g, p + [via], Target(g, via));
  }

  /** The entries followed so far have their own targets, all seen. */
  ghost predicate EdgesOk(g: Graph, seen: set<Id>, followed: set<Edge>) {
    && (forall e <- followed :: IsEdge(g, e) && e.from in seen && Target(g, e) in seen && Target(g, e) != g.root.id)
    && (forall e <- followed, f <- followed :: e != f ==> Target(g, e) != Target(g, f))
  }

  lemma EnterEdges(g: Graph, seen: set<Id>, followed: set<Edge>, via: Edge)
    requires EdgesOk(g, seen, followed) && g.root.id in seen
    requires IsEdge(g, via) && via.from in seen && Target(g, via) !in seen
    ensures EdgesOk(g, seen + {Target(g, via)}, followed + {via})
  {
  }

  /** Entering a new agent. */
  lemma Enter(g: Graph, seen: set<Id>, followed: set<Edge>, via: Edge)
    requires WalkOk(g, seen, followed) && IsEdge(g, via) && via.from in seen && Target(g, via) !in seen
    ensures WalkOk(g, seen + {Target(g, via)}, followed + {via})
    ensures forall e <- followed + {via} :: e.from != Target(g, via)
  {
    EnterEdges(g, seen, followed, via);
    Extend(g, via);
    forall id <- seen + {Target(g, via)} | id != g.root.id
      ensures exists e :: e in followed + {via} && Target(g, e) == id
    {
      if id == Target(g, via) {
        assert via in followed + {via};
      } else {
        var e :| e in followed && Target(g, e) == id;
        assert e in followed + {via};
      }
    }
  }

  lemma {:induction false} ReachedAreSeen(g: Graph, seen: set<Id>, followed: set<Edge>, p: seq<Edge>, to: Id)
    requires WalkOk(g, seen, followed) && (forall x <- seen :: Finished(g, x, followed)) && IsPath(g, p, to)
    ensures to in seen
    decreases |p|
  {
    if p != [] {
      ReachedAreSeen(g, seen, followed, p[..|p| - 1], p[|p| - 1].from);
    }
  }

  /** When every seen agent is finished, the graph is good. */
  lemma AllFinishedIsGood(g: Graph, seen: set<Id>, followed: set<Edge>)
    requires WalkOk(g, seen, followed) && forall x <- seen :: Finished(g, x, followed)
    ensures Good(g)
  {
    forall id | Reachable(g, id) ensures id in seen {
      var p :| IsPath(g, p, id);
      ReachedAreSeen(g, seen, followed, p, id);
    }
    forall e: Edge | IsEdge(g, e) && Reachable(g, e.from) ensures e in followed {
      assert Finished(g, e.from, followed);
    }
  }

  /** Between two entries of agent id, k of them followed: everything seen since `before` but id itself is finished. */
  ghost predicate Midway(g: Graph, before: set<Id>, edges: set<Edge>, id: Id, k: nat, seen: set<Id>,
                         followed: set<Edge>) {
    && WalkOk(g, seen, followed) && before + {id} <= seen && edges <= followed
    && (forall e: Edge :: e.from == id && IsEdge(g, e) ==> (e in followed <==> e.index < k))
    && (forall x <- seen :: x in before || x == id || Finished(g, x, followed))
    && (forall e <- followed :: e in edges || e.from !in before)
  }

  /** One entry was followed to the end, and everything new below it is finished. */
  ghost predicate Explored(g: Graph, via: Edge, seen: set<Id>, followed: set<Edge>, seen': set<Id>,
                           followed': set<Edge>) {
    && WalkOk(g, seen', followed') && seen <= seen' && followed + {via} <= followed'
    && (forall x <- seen' :: x in seen || Finished(g, x, followed'))
    && (forall e <- followed' :: e in followed || e == via || e.from !in seen)
  }

  lemma NextEntry(g: Graph, before: set<Id>, edges: set<Edge>, id: Id, k: nat,
                  seen: set<Id>, followed: set<Edge>, seen': set<Id>, followed': set<Edge>)
    requires Midway(g, before, edges, id, k, seen, followed) && id !in before && k < |SubsOf(g, id)|
    requires Explored(g, Edge(id, k), seen, followed, seen', followed')
    ensures Midway(g, before, edges, id, k + 1, seen', followed')
  {
    forall x <- seen' ensures x in before || x == id || Finished(g, x, followed') {
      if x in seen && x !in before && x != id {
        assert Finished(g, x, followed);
      }
    }
    forall e: Edge | e.from == id && IsEdge(g, e) ensures e in followed' <==> e.index < k + 1 {
      assert e == Edge(id, e.index);
    }
  }

  /** All entries of an agent followed: it is finished too. */
  lemma LastEntry(g: Graph, before: set<Id>, edges: set<Edge>, id: Id, seen: set<Id>, followed: set<Edge>)
    requires Midway(g, before, edges, id, |SubsOf(g, id)|, seen, followed) && SafeAgent(g, id)
    ensures forall x <- seen :: x in before || Finished(g, x, followed)
  {
  }

  /** Then its own entry, followed last, is explored. */
  lemma AllFollowed(g: Graph, via: Edge, before: set<Id>, edges: set<Edge>, id: Id, seen: set<Id>, followed: set<Edge>)
    requires Midway(g, before, edges + {via}, id, |SubsOf(g, id)|, seen, followed) && SafeAgent(g, id)
    ensures Explored(g, via, before, edges, seen, followed)
  {
    LastEntry(g, before, edges + {via}, id, seen, followed);
  }

  /** The next entry of an agent is ready to be followed. */
  lemma EntryReady(g: Graph, before: set<Id>, edges: set<Edge>, id: Id, k: nat, seen: set<Id>, followed: set<Edge>)
    requires Midway(g, before, edges, id, k, seen, followed) && k < |SubsOf(g, id)|
    ensures WalkOk(g, seen, followed) && IsEdge(g, Edge(id, k)) && id in seen
    ensures Target(g, Edge(id, k)) == SubsOf(g, id)[k] && Edge(id, k) !in followed
  {
  }

  /** A new agent that was just entered has no entry followed yet. */
  lemma JustEntered(g: Graph, seen: set<Id>, followed: set<Edge>, via: Edge)
    requires WalkOk(g, seen, followed) && IsEdge(g, via) && via.from in seen && Target(g, via) !in seen
    ensures Midway(g, seen, followed + {via}, Target(g, via), 0, seen + {Target(g, via)}, followed + {via})
  {
    Enter(g, seen, followed, via);
  }

  // ---------- the code ----------

  /** The walk's shared set, with the entries followed so far as history. */
  class Walk {
    const graph: Graph
    var seen: set<Id>
    ghost var followed: set<Edge>

    constructor (graph: Graph)
      ensures this.graph == graph && seen == {graph.root.id} && followed == {} && WalkOk(graph, seen, followed)
    {
      this.graph := graph;
      seen, followed := {graph.root.id}, {};
      new;
      assert IsPath(graph, [], graph.root.id);
    }

    /** Follow one entry: false when its agent was seen, does not load, is unsafe, or has a bad sub-agent. */
    method ChildIsSafe(id: Id, ghost via: Edge) returns (ok: bool)
      requires WalkOk(graph, seen, followed)
      requires IsEdge(graph, via) && via.from in seen && Target(graph, via) == id && via !in followed
      modifies this
      ensures ok ==> Explored(graph, via, old(seen), old(followed), seen, followed)
      ensures !ok ==> !Good(graph)
      decreases graph.load.Keys - seen, 0
    {
      if id in seen {
        SeenTwice(graph, seen, followed, via);
        return false;
      }
      JustEntered(graph, seen, followed, via);
      seen := seen + {id};
      followed := followed + {via};
      if id !in graph.load || !graph.load[id].safe {
        assert Reachable(graph, id) && !SafeAgent(graph, id);
        return false;
      }
      ok := FollowAll(id, graph.load[id].subAgents, via, old(seen), old(followed));
    }

    /** The entries of one agent that was just entered, in order. */
    method FollowAll(id: Id, subs: seq<Id>, ghost via: Edge, ghost before: set<Id>, ghost edges: set<Edge>)
      returns (ok: bool)
      requires Midway(graph, before, edges + {via}, id, 0, seen, followed) && followed == edges + {via} && id !in before
      requires SafeAgent(graph, id) && subs == SubsOf(graph, id)
      modifies this
      ensures ok ==> Explored(graph, via, before, edges, seen, followed)
      ensures !ok ==> !Good(graph)
      decreases graph.load.Keys - seen, 1
    {
      for k := 0 to |subs|
        invariant Midway(graph, before, edges + {via}, id, k, seen, followed) && old(seen) <= seen
      {
        ghost var mid, midEdges := seen, followed;
        EntryReady(graph, before, edges + {via}, id, k, seen, followed);
        var safe := ChildIsSafe(subs[k], Edge(id, k));
        if !safe { return false; }
        NextEntry(graph, before, edges + {via}, id, k, mid, midEdges, seen, followed);
      }
      AllFollowed(graph, via, before, edges, id, seen, followed);
      return true;
    }
  }

  /** The direct sub-agents when every reachable agent is safe and the reachable graph is a tree, and
      nothing otherwise. */
  method LoadConsumerSubAgents(graph: Graph) returns (safe: Option<seq<Id>>)
    ensures safe == if Good(graph) then Some(graph.root.subAgents) else None
  {
    ghost var root := graph.root.id;
    if !graph.root.safe {
      assert IsPath(graph, [], root);
      assert Reachable(graph, root) && !SafeAgent(graph, root);
      return None;
    }
    var walk := new Walk(graph);
    var listed := [];
    for k := 0 to |graph.root.subAgents|
      invariant walk.graph == graph && listed == graph.root.subAgents[..k]
      invariant Midway(graph, {}, {}, root, k, walk.seen, walk.followed)
    {
      ghost var mid, midEdges := walk.seen, walk.followed;
      var ok := walk.ChildIsSafe(graph.root.subAgents[k], Edge(root, k));
      if !ok { return None; }
      NextEntry(graph, {}, {}, root, k, mid, midEdges, walk.seen, walk.followed);
      listed := listed + [graph.root.subAgents[k]];
    }
    LastEntry(graph, {}, {}, root, walk.seen, walk.followed);
    AllFinishedIsGood(graph, walk.seen, walk.followed);
    assert graph.root.subAgents[..|graph.root.subAgents|] == graph.root.subAgents;
    return Some(listed);
  }
}
