/** The debugger's search for calls that wait for each other. */
module DeadlockSearch {

  datatype Actor = Actor(kind: string, id: string)

  const NOBODY := Actor("", "")

  /** A pending request; flow is the id of the flow it belongs to. */
  datatype Request = Request(id: string, flow: string, value: string)

  datatype Edge = Edge(src: Actor, dst: Actor, req: Request, parentValue: string)

  type Graph = map<Actor, set<Edge>>

  // ----- building the graph -----

  datatype Sent = Sent(parent: string, flow: string, actor: Actor, value: string)

  datatype Handling = Handling(actor: Actor, value: string)

  /** What the sidecars report: requests sent and not answered, and requests being handled. */
  datatype BusyInfo = BusyInfo(sent: map<string, Sent>, handling: map<string, Handling>)
  {
    /** A request nobody is known to handle has no actor. */
    function HandlerOf(id: string): Handling { if id in handling then handling[id] else Handling(NOBODY, "") }

    /** The edge for a request that is not the child of a pending one. */
    function RootEdge(s: Sent): Edge {
      var h := HandlerOf(s.parent);
      Edge(NOBODY, h.actor, Request(s.parent, s.flow, h.value), "")
    }

    function CallEdge(id: string): Edge
      requires id in sent
    {
      var h := HandlerOf(sent[id].parent);
      Edge(h.actor, sent[id].actor, Request(id, sent[id].flow, sent[id].value), h.value)
    }

    function AllEdges(): set<Edge> {
      (set id | id in sent :: CallEdge(id)) + (set id | id in sent && sent[id].parent !in sent :: RootEdge(sent[id]))
    }
  }

  // ----- what a deadlock is, in terms of the pending calls -----

  /** Request id, of a flow, has reached an actor. */
  datatype Hop = Hop(id: string, flow: string, actor: Actor)

  /** Request id is handled by actor a; one that nobody reports to handle, by nobody. */
  predicate HandledBy(info: BusyInfo, id: string, a: Actor) {
    if id in info.handling then info.handling[id].actor == a else a == NOBODY
  }

  /** The hop is a request that is not pending itself; its flow is that of the pending calls it has made. */
  predicate IsRoot(info: BusyInfo, h: Hop) {
    && h.id !in info.sent && HandledBy(info, h.id, h.actor)
    && exists c :: c in info.sent && info.sent[c].parent == h.id && info.sent[c].flow == h.flow
  }

  /** The hop is a pending call whose parent is handled by caller. */
  predicate IsCall(info: BusyInfo, h: Hop, caller: Actor) {
    && h.id in info.sent && info.sent[h.id].flow == h.flow && info.sent[h.id].actor == h.actor
    && HandledBy(info, info.sent[h.id].parent, caller)
  }

  /** The hop is a call that caller made, or a root request, which nobody made. */
  predicate MadeBy(info: BusyInfo, h: Hop, caller: Actor) {
    IsCall(info, h, caller) || (caller == NOBODY && IsRoot(info, h))
  }

  /** A root request, or a call nobody is known to have made, and then calls, each made by the actor reached last. */
  predicate Chain(info: BusyInfo, hs: seq<Hop>) {
    && hs != [] && MadeBy(info, hs[0], NOBODY)
    && forall k :: 0 < k < |hs| ==> IsCall(info, hs[k], hs[k - 1].actor)
  }

  /** Before the last hop no actor is reached twice. */
  predicate NoRepetition(hs: seq<Hop>) {
    && (forall i, j :: 0 <= i < j < |hs| - 1 ==> hs[i].actor != hs[j].actor)
    && (forall i :: 0 <= i < |hs| - 1 ==> hs[i].actor != NOBODY)
  }

  /** The last hop goes back to the actor hop i reached, in another flow. */
  predicate BlockedBy(hs: seq<Hop>, i: nat) {
    i + 1 < |hs| && hs[i].actor == hs[|hs| - 1].actor && hs[i].flow != hs[|hs| - 1].flow
  }

  /** The calls of the chain wait for each other: the last one waits for a lock that another flow holds. */
  ghost predicate WaitsForItself(info: BusyInfo, hs: seq<Hop>) {
    Chain(info, hs) && NoRepetition(hs) && exists i: nat :: BlockedBy(hs, i)
  }

  /** What is shown of a hop: who made the request, where it went, and the values of the request and of its parent. */
  predicate Shows(info: BusyInfo, e: Edge, h: Hop, caller: Actor) {
    && e.src == caller && e.dst == h.actor && e.req.id == h.id && e.req.flow == h.flow
    && if h.id in info.sent then
         && e.req.value == info.sent[h.id].value
         && e.parentValue == var parent := info.sent[h.id].parent;
                             if parent in info.handling then info.handling[parent].value else ""
       else
         e.req.value == (if h.id in info.handling then info.handling[h.id].value else "") && e.parentValue == ""
  }

  /** The report shows the hops from i on. */
  predicate ShowsFrom(info: BusyInfo, cycle: seq<Edge>, hs: seq<Hop>, i: nat) {
    && |cycle| + i == |hs|
    && forall k :: 0 <= k < |cycle| ==>
         Shows(info, cycle[k], hs[i + k], if i + k == 0 then NOBODY else hs[i + k - 1].actor)
  }

  lemma HopFlow(info: BusyInfo, hs: seq<Hop>, k: nat)
    requires Chain(info, hs) && k < |hs|
    ensures exists c :: c in info.sent && info.sent[c].flow == hs[k].flow
  {
    if k > 0 { assert IsCall(info, hs[k], hs[k - 1].actor); }
  }

  /** When all pending calls are of one flow, none waits for another. */
  lemma OneFlowIsFree(info: BusyInfo, hs: seq<Hop>)
    requires forall c, d :: c in info.sent && d in info.sent ==> info.sent[c].flow == info.sent[d].flow
    ensures !WaitsForItself(info, hs)
  {
    if WaitsForItself(info, hs) {
      hide Chain, NoRepetition;
      var i: nat :| BlockedBy(hs, i);
      HopFlow(info, hs, i);
      HopFlow(info, hs, |hs| - 1);
    }
  }

  /** When every pending call has a parent that some actor handles, the chain starts at a root request. */
  lemma StartsAtRoot(info: BusyInfo, hs: seq<Hop>)
    requires WaitsForItself(info, hs)
    requires forall c :: c in info.sent ==>
               info.sent[c].parent in info.handling && info.handling[info.sent[c].parent].actor != NOBODY
    ensures IsRoot(info, hs[0]) && hs[0].id in info.handling
  {
    assert IsRoot(info, hs[0]);
    var c :| c in info.sent && info.sent[c].parent == hs[0].id && info.sent[c].flow == hs[0].flow;
  }

  function Edges(g: Graph, a: Actor): set<Edge> { if a in g then g[a] else {} }

  predicate FromSource(g: Graph) { forall a, e :: a in g && e in g[a] ==> e.src == a }

  ghost predicate Holds(g: Graph, edges: set<Edge>) {
    FromSource(g) && forall e: Edge :: e in Edges(g, e.src) <==> e in edges
  }

  function Add(g: Graph, e: Edge): Graph { g[e.src := Edges(g, e.src) + {e}] }

  lemma AddHolds(g: Graph, edges: set<Edge>, e: Edge)
    requires Holds(g, edges)
    ensures Holds(Add(g, e), edges + {e})
  {
  }

  predicate Drawn(g: Graph, h: Hop, caller: Actor) {
    exists e :: e in Edges(g, caller) && e.src == caller && HopOf(e) == h
  }

  /** The edges show the pending calls and the root requests, and there is one for each. */
  ghost predicate Depicts(info: BusyInfo, g: Graph) {
    && (forall e: Edge :: e in Edges(g, e.src) ==>
          MadeBy(info, HopOf(e), e.src) && Shows(info, e, HopOf(e), e.src))
    && (forall h, caller :: MadeBy(info, h, caller) ==> Drawn(g, h, caller))
  }

  lemma HoldsDepicts(info: BusyInfo, g: Graph)
    requires Holds(g, info.AllEdges())
    ensures Depicts(info, g)
  {
    hide MadeBy, Shows;
    forall e: Edge | e in Edges(g, e.src) ensures MadeBy(info, HopOf(e), e.src) && Shows(info, e, HopOf(e), e.src) {
      EdgeMeaning(info, e);
    }
    forall h, caller | MadeBy(info, h, caller) ensures Drawn(g, h, caller) {
      var e := StepFor(info, g, h, caller);
    }
  }

  method MakeGraph(info: BusyInfo) returns (g: Graph)
    ensures Holds(g, info.AllEdges()) && Depicts(info, g)
  {
    g := map[NOBODY := {}];
    ghost var edges: set<Edge> := {};
    var todo := info.sent.Keys;
    while todo != {}
      invariant todo <= info.sent.Keys && Holds(g, edges)
      invariant edges == set id | id in info.sent && id !in todo
                && info.sent[id].parent !in info.sent :: info.RootEdge(info.sent[id])
      decreases todo
    {
      var id :| id in todo;
      todo := todo - {id};
      var s := info.sent[id];
      if s.parent !in info.sent {
        AddHolds(g, edges, info.RootEdge(s));
        g := Add(g, info.RootEdge(s));
        edges := edges + {info.RootEdge(s)};
      }
    }
    ghost var roots := edges;
    todo := info.sent.Keys;
    while todo != {}
      invariant todo <= info.sent.Keys && Holds(g, edges)
      invariant edges == roots + set id | id in info.sent && id !in todo :: info.CallEdge(id)
      decreases todo
    {
      var id :| id in todo;
      todo := todo - {id};
      AddHolds(g, edges, info.CallEdge(id));
      g := Add(g, info.CallEdge(id));
      edges := edges + {info.CallEdge(id)};
    }
    assert edges == info.AllEdges();
    HoldsDepicts(info, g);
  }

  // ----- deadlocks of a graph -----

  /** A path of edges of g that starts at root. */
  predicate Walk(g: Graph, root: Actor, p: seq<Edge>) {
    && (forall k :: 0 <= k < |p| ==> p[k] in Edges(g, p[k].src))
    && (|p| > 0 ==> p[0].src == root)
    && (forall k :: 0 < k < |p| ==> p[k].src == p[k - 1].dst)
  }

  predicate Simple(p: seq<Edge>) { forall i, j :: 0 <= i < j < |p| ==> p[i].src != p[j].src }

  /** The last edge of p leads back to where edge i led, in another flow. */
  predicate ClosesAt(p: seq<Edge>, i: nat) {
    i + 1 < |p| && p[i].dst == p[|p| - 1].dst && p[i].req.flow != p[|p| - 1].req.flow
  }

  /** A simple path from root that closes on an earlier actor other than root, in another flow. */
  ghost predicate Deadlocked(g: Graph, root: Actor, p: seq<Edge>) {
    Walk(g, root, p) && Simple(p) && exists i: nat :: ClosesAt(p, i)
  }

  function Sources(p: seq<Edge>): set<Actor> { set e | e in p :: e.src }

  /** What the search reports: the edge into an actor, and then the edges of a cycle back to it, in another flow. */
  ghost predicate Reported(g: Graph, root: Actor, path: seq<Edge>, cycle: seq<Edge>) {
    exists p: seq<Edge>, i: nat :: path <= p && Walk(g, root, p) && Simple(p) && ClosesAt(p, i) && cycle == p[i..]
  }

  class Search {
    const g: Graph
    const root: Actor
    ghost const actors: set<Actor>
    var visited: set<Actor>

    ghost predicate Valid()
      reads this
    {
      && root in actors
      && forall a, e :: a in g && e in g[a] ==> e.src == a && e.dst in actors
    }

    constructor (g: Graph, root: Actor)
      requires FromSource(g)
      ensures this.g == g && this.root == root && visited == {} && Valid()
    {
      this.g, this.root, visited := g, root, {};
      this.actors := {root} + set a, e | a in g && e in g[a] :: e.dst;
    }

    /** The answer at an actor the path has been to. */
    method Close(a: Actor, path: seq<Edge>) returns (found: bool, cycle: seq<Edge>)
      requires |path| > 0 && path[|path| - 1].dst == a
      ensures found <==> exists i: nat :: ClosesAt(path, i) && forall j :: 0 <= j < i ==> path[j].dst != a
      ensures found ==> exists i: nat :: ClosesAt(path, i) && cycle == path[i..]
      ensures !found ==> cycle == []
    {
      for i := 0 to |path|
        invariant forall j :: 0 <= j < i ==> path[j].dst != a
      {
        if path[i].dst == a {
          if path[i].req.flow == path[|path| - 1].req.flow {
            return false, [];
          } else {
            assert ClosesAt(path, i);
            return true, path[i..];
          }
        }
      }
      assert false;
    }

    /** checkDeadlockCycles; the edges of an actor are tried in any order. */
    method Check(a: Actor, path: seq<Edge>) returns (found: bool, cycle: seq<Edge>)
      requires Valid() && Walk(g, root, path) && Simple(path) && visited == Sources(path) <= actors
      requires a in actors && a == if path == [] then root else path[|path| - 1].dst
      modifies this
      ensures visited == old(visited)
      ensures found <==> exists p: seq<Edge> :: path <= p && Deadlocked(g, root, p)
      ensures found ==> Reported(g, root, path, cycle)
      ensures !found ==> cycle == []
      decreases actors - visited
    {
      if a in visited {
        found, cycle := Close(a, path);
        AtVisited(g, root, path);
        return;
      }
      visited := visited + {a};
      var todo := Edges(g, a);
      while todo != {}
        invariant todo <= Edges(g, a)
        invariant visited == old(visited) + {a}
        invariant forall e :: e in Edges(g, a) && e !in todo ==> forall p: seq<Edge> :: path + [e] <= p ==>
                  !Deadlocked(g, root, p)
        decreases todo
      {
        var e :| e in todo;
        todo := todo - {e};
        Extend(g, root, path, a, e);
        found, cycle := Check(e.dst, path + [e]);
        if found {
          visited := visited - {a};
          Longer(g, root, path, e, cycle);
          return;
        }
      }
      visited := visited - {a};
      AtNew(g, root, path, a);
      return false, [];
    }
  }

  /** At an actor the path has been to, only the path itself can be a deadlock. */
  lemma AtVisited(g: Graph, root: Actor, path: seq<Edge>)
    requires Walk(g, root, path) && Simple(path) && path != [] && path[|path| - 1].dst in Sources(path)
    ensures (exists p: seq<Edge> :: path <= p && Deadlocked(g, root, p)) <==> exists i: nat :: ClosesAt(path, i)
    ensures forall i: nat :: ClosesAt(path, i) ==> (forall j :: 0 <= j < i ==> path[j].dst != path[|path| - 1].dst)
                                                   && Reported(g, root, path, path[i..])
  {
    forall p: seq<Edge> | path <= p && Deadlocked(g, root, p) ensures p == path {
      if |p| > |path| { NoFurther(g, root, path, p); }
    }
    if i: nat :| ClosesAt(path, i) { assert path <= path && Deadlocked(g, root, path); }
    forall i: nat | ClosesAt(path, i) ensures (forall j :: 0 <= j < i ==> path[j].dst != path[|path| - 1].dst)
    && Reported(g, root, path, path[i..]) {
      assert path <= path;
      forall j | 0 <= j < i ensures path[j].dst != path[|path| - 1].dst {
        assert path[j + 1].src == path[j].dst && path[i + 1].src == path[i].dst;
      }
    }
  }

  lemma NoFurther(g: Graph, root: Actor, path: seq<Edge>, p: seq<Edge>)
    requires path != [] && path[|path| - 1].dst in Sources(path) && path <= p && |p| > |path| && Walk(g, root, p)
    ensures !Simple(p)
  {
    var e :| e in path && e.src == path[|path| - 1].dst;
    var i :| 0 <= i < |path| && path[i] == e;
    assert p[|path|].src == p[|path| - 1].dst == p[i].src;
  }

  lemma Extend(g: Graph, root: Actor, path: seq<Edge>, a: Actor, e: Edge)
    requires Walk(g, root, path) && Simple(path) && a !in Sources(path) && e in Edges(g, a) && e.src == a
    requires a == if path == [] then root else path[|path| - 1].dst
    ensures Walk(g, root, path + [e]) && Simple(path + [e]) && Sources(path + [e]) == Sources(path) + {a}
  {
    forall i | 0 <= i < |path| ensures path[i].src != a { assert path[i] in path; }
  }

  lemma Longer(g: Graph, root: Actor, path: seq<Edge>, e: Edge, cycle: seq<Edge>)
    requires Reported(g, root, path + [e], cycle)
    ensures Reported(g, root, path, cycle) && exists p: seq<Edge> :: path <= p && Deadlocked(g, root, p)
  {
    var p: seq<Edge>, i: nat :| path + [e] <= p && Walk(g, root, p) && Simple(p) && ClosesAt(p, i) && cycle == p[i..];
    assert path <= p && Deadlocked(g, root, p);
  }

  lemma NotClosed(g: Graph, root: Actor, path: seq<Edge>)
    requires Walk(g, root, path) && path != [] && path[|path| - 1].dst !in Sources(path)
    ensures forall i: nat :: !ClosesAt(path, i)
  {
    forall i: nat ensures !ClosesAt(path, i) {
      if i + 1 < |path| { assert path[i + 1] in path && path[i + 1].src == path[i].dst; }
    }
  }

  /** At a new actor, a deadlock goes on along one of its edges. */
  lemma AtNew(g: Graph, root: Actor, path: seq<Edge>, a: Actor)
    requires Walk(g, root, path) && a !in Sources(path) && a == if path == [] then root else path[|path| - 1].dst
    requires forall e :: e in Edges(g, a) ==> forall p: seq<Edge> :: path + [e] <= p ==> !Deadlocked(g, root, p)
    ensures forall p: seq<Edge> :: path <= p ==> !Deadlocked(g, root, p)
  {
    forall p: seq<Edge> | path <= p ensures !Deadlocked(g, root, p) {
      if |p| == |path| {
        assert p == path;
        if path != [] { NotClosed(g, root, path); }
      } else if Walk(g, root, p) {
        var e := p[|path|];
        assert e in Edges(g, a) && path + [e] <= p;
      }
    }
  }

  // ----- walks of the graph are chains of calls -----

  function HopOf(e: Edge): Hop { Hop(e.req.id, e.req.flow, e.dst) }

  function Hops(p: seq<Edge>): seq<Hop> { seq(|p|, k requires 0 <= k < |p| => HopOf(p[k])) }

  /** An edge is a root request or a pending call. */
  lemma EdgeMeaning(info: BusyInfo, e: Edge)
    requires e in info.AllEdges()
    ensures MadeBy(info, HopOf(e), e.src) && Shows(info, e, HopOf(e), e.src)
  {
  }

  /** A pending call has an edge, and so has a root request. */
  lemma EdgeFor(info: BusyInfo, h: Hop, caller: Actor) returns (e: Edge)
    requires MadeBy(info, h, caller)
    ensures e in info.AllEdges() && e.src == caller && HopOf(e) == h
  {
    if IsCall(info, h, caller) {
      e := info.CallEdge(h.id);
    } else {
      var c :| c in info.sent && info.sent[c].parent == h.id && info.sent[c].flow == h.flow;
      e := info.RootEdge(info.sent[c]);
    }
  }

  /** Edge k of a walk shows hop k of its chain. */
  lemma StepIsHop(info: BusyInfo, g: Graph, p: seq<Edge>, k: nat)
    requires Holds(g, info.AllEdges()) && Walk(g, NOBODY, p) && Simple(p) && k < |p|
    ensures var caller := if k == 0 then NOBODY else p[k - 1].dst;
            && p[k].src == caller && Shows(info, p[k], HopOf(p[k]), caller)
            && (IsCall(info, HopOf(p[k]), caller) || (k == 0 && IsRoot(info, HopOf(p[k]))))
  {
    assert p[k] in Edges(g, p[k].src);
    EdgeMeaning(info, p[k]);
    assert k > 0 ==> p[k].src != p[0].src;
  }

  lemma WalkIsShown(info: BusyInfo, g: Graph, p: seq<Edge>, i: nat)
    requires Holds(g, info.AllEdges()) && Walk(g, NOBODY, p) && Simple(p) && i <= |p|
    ensures ShowsFrom(info, p[i..], Hops(p), i)
  {
    hide Holds, Walk, Simple, Shows, IsCall, IsRoot;
    var hs := Hops(p);
    forall k | 0 <= k < |p[i..]|
      ensures Shows(info, p[i..][k], hs[i + k], if i + k == 0 then NOBODY else hs[i + k - 1].actor)
    {
      StepIsHop(info, g, p, i + k);
    }
  }

  lemma WalkIsChain(info: BusyInfo, g: Graph, p: seq<Edge>, i: nat)
    requires Holds(g, info.AllEdges()) && Walk(g, NOBODY, p) && Simple(p) && ClosesAt(p, i)
    ensures Chain(info, Hops(p)) && NoRepetition(Hops(p)) && BlockedBy(Hops(p), i)
  {
    hide Holds, Walk, Simple, Shows, IsCall, IsRoot;
    var hs := Hops(p);
    StepIsHop(info, g, p, 0);
    forall k | 0 < k < |hs| ensures IsCall(info, hs[k], hs[k - 1].actor) {
      StepIsHop(info, g, p, k);
    }
    assert Chain(info, hs);
    forall k | 0 <= k < |p| ensures p[k].src == if k == 0 then NOBODY else hs[k - 1].actor {
      StepIsHop(info, g, p, k);
    }
    WalkRepeatsNothing(p, hs);
  }

  lemma WalkRepeatsNothing(p: seq<Edge>, hs: seq<Hop>)
    requires Simple(p) && p != [] && |hs| == |p|
    requires forall k :: 0 <= k < |p| ==> p[k].src == if k == 0 then NOBODY else hs[k - 1].actor
    ensures NoRepetition(hs)
  {
    forall i | 0 <= i < |hs| - 1 ensures hs[i].actor == p[i + 1].src != NOBODY { assert p[i + 1].src != p[0].src; }
  }

  lemma ChainGrows(info: BusyInfo, hs: seq<Hop>)
    requires Chain(info, hs) && |hs| > 1
    ensures Chain(info, hs[..|hs| - 1]) && IsCall(info, hs[|hs| - 1], hs[|hs| - 2].actor)
  {
    hide IsCall, IsRoot;
  }

  lemma StepFor(info: BusyInfo, g: Graph, h: Hop, caller: Actor) returns (e: Edge)
    requires Holds(g, info.AllEdges()) && MadeBy(info, h, caller)
    ensures e in Edges(g, e.src) && e.src == caller && HopOf(e) == h
  {
    e := EdgeFor(info, h, caller);
  }

  lemma {:induction false} ChainIsWalk(info: BusyInfo, g: Graph, hs: seq<Hop>) returns (p: seq<Edge>)
    requires Holds(g, info.AllEdges()) && Chain(info, hs)
    ensures Walk(g, NOBODY, p) && Hops(p) == hs
  {
    hide Holds, IsCall, IsRoot, Edges;
    var n := |hs| - 1;
    if n == 0 {
      var e := StepFor(info, g, hs[0], NOBODY);
      p := [e];
    } else {
      ChainGrows(info, hs);
      hide Chain, Walk;
      var q := ChainIsWalk(info, g, hs[..n]);
      assert HopOf(q[n - 1]) == Hops(q)[n - 1] == hs[n - 1];
      var e := StepFor(info, g, hs[n], hs[n - 1].actor);
      hide Hops;
      p := q + [e];
      WalkOn(g, q, e);
      assert hs == hs[..n] + [hs[n]];
    }
  }

  lemma WalkOn(g: Graph, p: seq<Edge>, e: Edge)
    requires Walk(g, NOBODY, p) && p != [] && e in Edges(g, e.src) && e.src == p[|p| - 1].dst
    ensures Walk(g, NOBODY, p + [e]) && Hops(p + [e]) == Hops(p) + [HopOf(e)]
  {
  }

  lemma ChainIsDeadlock(info: BusyInfo, g: Graph, hs: seq<Hop>)
    requires Holds(g, info.AllEdges()) && WaitsForItself(info, hs)
    ensures exists p: seq<Edge> :: Deadlocked(g, NOBODY, p)
  {
    hide Holds, Chain, NoRepetition, Walk, Simple;
    var i: nat :| BlockedBy(hs, i);
    var p := ChainIsWalk(info, g, hs);
    WalkIsSimple(g, p, hs);
    assert HopOf(p[i]) == Hops(p)[i] && HopOf(p[|p| - 1]) == Hops(p)[|p| - 1];
    assert ClosesAt(p, i);
    assert Deadlocked(g, NOBODY, p);
  }

  lemma WalkIsSimple(g: Graph, p: seq<Edge>, hs: seq<Hop>)
    requires Walk(g, NOBODY, p) && Hops(p) == hs && NoRepetition(hs)
    ensures Simple(p)
  {
    forall k | 0 <= k < |p| ensures p[k].src == if k == 0 then NOBODY else hs[k - 1].actor {
      if k > 0 { assert HopOf(p[k - 1]) == Hops(p)[k - 1]; }
    }
    hide Walk, Hops;
  }

  /**
   * checkDeadlock: a report if and only if some chain of pending calls waits for itself, and then the report shows the
   * end of such a chain, from the request that reached the blocked actor first.
   */
  method CheckDeadlock(info: BusyInfo) returns (cycle: seq<Edge>)
    ensures cycle != [] <==> exists hs :: WaitsForItself(info, hs)
    ensures cycle != [] ==>
              exists hs, i: nat :: WaitsForItself(info, hs) && BlockedBy(hs, i) && ShowsFrom(info, cycle, hs, i)
  {
    var graph := MakeGraph(info);
    var search := new Search(graph, NOBODY);
    var found;
    found, cycle := search.Check(NOBODY, []);
    if found {
      ghost var p: seq<Edge>, i: nat :| [] <= p && Walk(graph, NOBODY, p) && Simple(p) && ClosesAt(p, i)
        && cycle == p[i..];
      WalkIsChain(info, graph, p, i);
      WalkIsShown(info, graph, p, i);
      assert WaitsForItself(info, Hops(p));
    } else {
      forall hs ensures !WaitsForItself(info, hs) {
        if WaitsForItself(info, hs) { ChainIsDeadlock(info, graph, hs); }
      }
    }
  }
}
