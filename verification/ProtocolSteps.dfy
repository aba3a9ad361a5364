/** Every step other than recovery keeps the invariant of the retry protocol. */
module ProtocolSteps {
  import opened Messages
  import opened RecoverySpec
  import opened Routing
  import opened Protocol

  // ----- appending one record -----

  /** w' holds the records of w and one more, m at spot added. */
  ghost predicate Extends(w: World, w': World, added: Spot, m: Message) {
    && !Holds(w, added) && Holds(w', added) && Msg(w', added) == m
    && (forall sp :: Holds(w, sp) ==> Holds(w', sp) && Msg(w', sp) == Msg(w, sp))
    && (forall sp :: Holds(w', sp) ==> Holds(w, sp) || sp == added)
  }

  lemma AppendExtends(w: World, w': World, p: nat, m: Message) returns (added: Spot)
    requires forall q :: Log(w', q) == if q == p then Log(w, q) + [m] else Log(w, q)
    ensures added == Spot(p, |Log(w, p)|) && Extends(w, w', added, m)
  {
    added := Spot(p, |Log(w, p)|);
  }

  /** Routing ends in partition 0 or in the partition of a node of this generation. */
  lemma RouteIsLive(r: Routes, placements: map<string, string>, t: Target, pick: string)
    requires r.Valid() && !t.Node? && MayPick(r, t, pick)
    ensures var to := RouteTo(r, placements, t, pick);
            && (to.partition == 0 <==> r.Offering(t.name) == [])
            && (to.partition != 0 ==> to.partition in r.Live() && r.PartitionOf(to.node) == to.partition)
  {
    if r.Offering(t.name) != [] {
      var i :| 0 <= i < |r.services[t.name]| && r.services[t.name][i] == pick;
      assert r.PartitionOf(pick) != 0;
    }
  }

  /** A new record in a routed partition or in partition 0 disturbs no offset already in use. */
  lemma ShapeExtend(w: World, w': World, p: nat, m: Message, at: set<Spot>)
    requires Shape(w)
    requires forall q :: Log(w', q) == if q == p then Log(w, q) + [m] else Log(w, q)
    requires p == 0 || p in w.routes.Live()
    requires w'.routes == w.routes && w'.alive == w.alive && w.known <= w'.known && w'.phase == w.phase - at
    requires w'.head == w.head
    ensures Shape(w')
  {
    LogGrows(w, w', p, m);
    hide Holds, Msg, Log;
  }

  lemma LogGrows(w: World, w': World, p: nat, m: Message)
    requires forall q :: Log(w', q) == if q == p then Log(w, q) + [m] else Log(w, q)
    ensures forall sp :: Holds(w, sp) ==> Holds(w', sp) && Msg(w', sp) == Msg(w, sp)
    ensures forall q :: |Log(w, q)| <= |Log(w', q)|
    ensures forall q :: q != p ==> |Log(w, q)| == |Log(w', q)|
  {
    hide Log;
  }

  lemma ChainsExtend(w: World, w': World, added: Spot, m: Message)
    requires Chains(w) && Extends(w, w', added, m)
    requires m.IsRequest() ==> forall sp :: Req(w, sp, m.id) ==> Num(w, sp) != m.sequence
    requires m.IsLocked() ==>
               && added.partition != 0 && m.sequence > 0
               && exists sp2 :: Req(w, sp2, m.id) && sp2.partition == added.partition && Num(w, sp2) == m.sequence - 1
    ensures Chains(w')
  {
    ExtendFacts(w, w', added, m);
    hide Holds, Msg;
    forall sp, id | Req(w', sp, id) && Locked(w', sp)
      ensures sp.partition != 0 && Num(w', sp) > 0
      ensures exists sp2 :: Req(w', sp2, id) && sp2.partition == sp.partition && Num(w', sp2) == Num(w', sp) - 1
    {
      if sp == added {
        var sp2 :| Req(w, sp2, m.id) && sp2.partition == added.partition && Num(w, sp2) == m.sequence - 1;
        assert Req(w', sp2, id);
      } else {
        var sp2 :| Req(w, sp2, id) && sp2.partition == sp.partition && Num(w, sp2) == Num(w, sp) - 1;
        assert Req(w', sp2, id);
      }
    }
  }

  lemma TargetsExtend(w: World, w': World, added: Spot, m: Message)
    requires Targets(w) && Extends(w, w', added, m)
    requires m.IsRequest() ==> forall sp :: Req(w, sp, m.id) ==> Num(w, sp) < m.sequence
    requires m.IsLocked() ==>
               forall sp :: Req(w, sp, m.id) && Num(w, sp) == m.sequence - 1 ==> AddressOf(Msg(w, sp)) == AddressOf(m)
    ensures Targets(w')
  {
    ExtendFacts(w, w', added, m);
    hide Holds, Msg, Extends, AddressOf;
  }

  lemma TargetsKept(w: World, w': World)
    requires Targets(w)
    requires forall sp, id :: Req(w', sp, id) ==> Req(w, sp, id) && Msg(w', sp) == Msg(w, sp)
    ensures Targets(w')
  {
    hide Holds, Msg, AddressOf;
    assert forall sp, id :: Req(w', sp, id) ==> Num(w', sp) == Num(w, sp) && Locked(w', sp) == Locked(w, sp);
    hide Req;
  }

  /** What the records of a grown topic are, in the vocabulary of the invariant. */
  lemma ExtendFacts(w: World, w': World, added: Spot, m: Message)
    requires Extends(w, w', added, m)
    ensures forall sp, id :: Req(w', sp, id) ==> Req(w, sp, id) || sp == added
    ensures forall sp, id :: Req(w, sp, id) ==> Req(w', sp, id) && sp != added
    ensures forall sp, id :: Reply(w', sp, id) ==> Reply(w, sp, id) || sp == added
    ensures forall sp, id :: Reply(w, sp, id) ==> Reply(w', sp, id) && sp != added
    ensures Msg(w', added) == m && Holds(w', added) && !Holds(w, added)
    ensures forall sp :: Holds(w, sp) ==> Msg(w', sp) == Msg(w, sp)
  {
    hide Msg, Holds;
  }

  lemma IdsExtend(w: World, w': World, added: Spot, m: Message)
    requires Ids(w) && Extends(w, w', added, m)
    requires w.issued <= w'.issued && w.finished <= w'.finished <= w'.issued && w'.abandoned <= w'.issued
    requires m.IsRequest() ==> m.id != "" && 0 <= m.sequence < COMPLETED && m.id in w'.issued && !m.target.Node?
    requires !m.IsRequest() ==> m.id in w'.finished
    ensures Ids(w')
  {
    ExtendFacts(w, w', added, m);
    hide Holds, Msg;
  }

  /** Finished requests keep their reply, and a request is not appended once it is finished. */
  lemma EvidenceExtend(w: World, w': World, added: Spot, m: Message)
    requires Evidence(w) && Extends(w, w', added, m)
    requires if m.IsRequest() then w'.finished == w.finished
                                   && m.id !in w.finished else w'.finished == w.finished + {m.id}
    ensures Evidence(w')
  {
    hide Holds, Msg;
    forall sp, id | Req(w', sp, id) && id in w'.finished
      ensures exists sp2 :: Reply(w', sp2, id)
    {
      if !m.IsRequest() && id == m.id {
        assert Reply(w', added, id);
      } else {
        assert Req(w, sp, id);
        var sp2 :| Reply(w, sp2, id);
        assert Reply(w', sp2, id);
      }
    }
  }

  /** Session requests go where their session is placed; a live placement is never overwritten. */
  lemma PlacedExtend(w: World, w': World, added: Spot, m: Message, pick: string)
    requires Placed(w) && w.routes.Valid() && Extends(w, w', added, m) && w'.routes == w.routes
    requires m.IsRequest() && !m.target.Node? && MayPick(w.routes, m.target, pick)
    requires var to := RouteTo(w.routes, w.shared.placements, m.target, pick);
             w'.shared.placements == to.placements && added.partition == to.partition
    ensures Placed(w')
  {
    hide Holds, Msg;
    RouteIsLive(w.routes, w.shared.placements, m.target, pick);
    forall sp, id | Req(w', sp, id) && sp.partition in w.routes.Live() && Msg(w', sp).target.Session?
      ensures var k := Place(Msg(w', sp).target.name, Msg(w', sp).target.key);
              k in w'.shared.placements && w.routes.PartitionOf(w'.shared.placements[k]) == sp.partition
    {
      hide Place;
      if sp != added {
        assert Req(w, sp, id);
      }
    }
  }

  lemma PlacedKept(w: World, w': World)
    requires Placed(w) && w'.routes == w.routes && w'.shared.placements == w.shared.placements
    requires forall sp, id :: Req(w', sp, id) ==> Req(w, sp, id) && Msg(w', sp) == Msg(w, sp)
    ensures Placed(w')
  {
    hide Holds, Msg, Place;
  }

  // ----- ending an attempt -----

  /** The attempt at spot at ends; no other attempt starts or ends. */
  ghost predicate Ends(w: World, w': World, at: Spot) {
    && w'.alive == w.alive && w'.routes == w.routes && w'.known == w.known
    && (forall sp :: sp in w'.phase <==> sp in w.phase && sp != at)
    && (forall sp :: sp in w'.phase ==> w'.phase[sp] == w.phase[sp])
    && (forall p :: Head(w', p) == Head(w, p) + if at == Spot(p, Head(w, p)) then 1 else 0)
  }

  lemma EndsOpen(w: World, w': World, at: Spot)
    requires Shape(w) && Ends(w, w', at)
    requires at.offset <= Head(w, at.partition)
    requires forall sp, id :: Req(w, sp, id) ==> Req(w', sp, id)
    ensures forall sp, id :: Open(w', sp, id) && Req(w, sp, id) ==> Open(w, sp, id) && sp != at
    ensures forall sp, id :: Open(w, sp, id) ==> Open(w', sp, id) || sp == at
    ensures forall sp :: IsRunning(w', sp) <==> IsRunning(w, sp) && sp != at
  {
    hide Holds, Msg, Req;
  }

  /** A later step takes over from the attempt that ends. */
  lemma AttemptsHandOver(w: World, w': World, at: Spot, added: Spot, m: Message)
    requires Shape(w) && Attempts(w) && Open(w, at, m.id) && Ends(w, w', at) && at.offset <= Head(w, at.partition)
    requires Extends(w, w', added, m) && m.IsRequest() && m.sequence == Num(w, at) + 1
    requires w'.finished == w.finished
    ensures Attempts(w')
  {
    ExtendFacts(w, w', added, m);
    EndsOpen(w, w', at);
    HandedOver(w, w', at, added, m);
    hide Holds, Msg, Shape, Extends, Ends, Open, Req, Num;
  }

  /** What is open after the hand-over, and under which numbers. */
  lemma HandedOver(w: World, w': World, at: Spot, added: Spot, m: Message)
    requires Shape(w) && Ends(w, w', at) && at.offset <= Head(w, at.partition) && Open(w, at, m.id)
    requires Extends(w, w', added, m) && m.IsRequest() && m.sequence == Num(w, at) + 1
    ensures forall sp, id :: Open(w', sp, id) ==> (Open(w, sp, id) && sp != at && sp != added)
                                                  || (sp == added && id == m.id)
    ensures forall sp, id :: Req(w', sp, id) ==> (Req(w, sp, id) && Num(w', sp) == Num(w, sp))
                                                 || (sp == added && id == m.id)
    ensures forall sp, id :: Open(w, sp, id) ==> Num(w', sp) == Num(w, sp)
    ensures Num(w', added) == Num(w, at) + 1
  {
    ExtendFacts(w, w', added, m);
    EndsOpen(w, w', at);
    hide Holds, Msg, Shape;
  }

  /** A reply ends the last attempt. */
  lemma AttemptsAnswered(w: World, w': World, at: Spot, id: string)
    requires Shape(w) && Attempts(w) && Open(w, at, id) && Ends(w, w', at) && at.offset <= Head(w, at.partition)
    requires forall sp, k :: Req(w', sp, k) <==> Req(w, sp, k)
    requires forall sp :: Holds(w, sp) ==> Msg(w', sp) == Msg(w, sp)
    requires w.finished <= w'.finished <= w.finished + {id}
    ensures Attempts(w')
  {
    EndsOpen(w, w', at);
    hide Holds, Msg, Shape;
    assert forall sp, k :: Open(w', sp, k) ==> Open(w, sp, k) && sp != at;
  }

  // ----- progress -----

  lemma SupersededKept(w: World, w': World, sp: Spot, id: string)
    requires Superseded(w, sp, id) && Holds(w, sp)
    requires forall sp2, k :: Req(w, sp2, k) ==> Req(w', sp2, k)
    requires forall sp2 :: Holds(w, sp2) ==> Msg(w', sp2) == Msg(w, sp2)
    ensures Superseded(w', sp, id)
  {
    var sp2 :| Req(w, sp2, id) && Num(w, sp) < Num(w, sp2) && (Locked(w, sp2) ==> sp2.partition == sp.partition);
    assert Req(w', sp2, id);
  }

  lemma ProgressHandOver(w: World, w': World, at: Spot, added: Spot, m: Message)
    requires Shape(w) && Progress(w) && Open(w, at, m.id) && Ends(w, w', at) && at.offset <= Head(w, at.partition)
    requires Extends(w, w', added, m) && m.IsRequest() && m.sequence == Num(w, at) + 1
    requires m.IsLocked() ==> added.partition == at.partition
    requires added.partition in w.alive ==> added.offset >= Head(w, added.partition) && added != at
    requires w'.finished == w.finished && w'.issued == w.issued && w'.abandoned == w.abandoned
    ensures Progress(w')
  {
    ExtendFacts(w, w', added, m);
    EndsOpen(w, w', at);
    hide Holds, Msg, Shape;
    forall id | id in w'.issued && !Settled(w', id)
      ensures exists sp :: Req(w', sp, id)
    {
      var sp :| Req(w, sp, id);
      assert Req(w', sp, id);
    }
    forall sp, id | Req(w', sp, id) && sp.partition in w'.alive && !Open(w', sp, id) && !Settled(w', id)
      ensures Superseded(w', sp, id)
    {
      if sp == at {
        assert Req(w', added, id);
      } else if sp != added {
        assert Req(w, sp, id);
        SupersededKept(w, w', sp, id);
      }
    }
  }

  lemma ProgressAnswered(w: World, w': World, at: Spot, id: string)
    requires Shape(w) && Progress(w) && Open(w, at, id) && Ends(w, w', at) && at.offset <= Head(w, at.partition)
    requires forall sp, k :: Req(w', sp, k) <==> Req(w, sp, k)
    requires forall sp :: Holds(w, sp) ==> Msg(w', sp) == Msg(w, sp)
    requires w.finished <= w'.finished && w.abandoned <= w'.abandoned && w'.issued == w.issued && Settled(w', id)
    ensures Progress(w')
  {
    EndsOpen(w, w', at);
    hide Holds, Msg, Shape;
    forall k | k in w'.issued && !Settled(w', k)
      ensures exists sp :: Req(w', sp, k)
    {
      var sp :| Req(w, sp, k);
      assert Req(w', sp, k);
    }
    forall sp, k | Req(w', sp, k) && sp.partition in w'.alive && !Open(w', sp, k) && !Settled(w', k)
      ensures Superseded(w', sp, k)
    {
      assert Req(w, sp, k) && sp != at;
      SupersededKept(w, w', sp, k);
    }
  }

  // ----- blocking calls -----

  /** A running caller of an unfinished call cannot be the attempt that ends. */
  lemma CallersKept(w: World, w': World, at: Spot, id: string)
    requires Lineage(w) && Req(w, at, id) && Ends(w, w', at)
    requires IsRunning(w, at) ==> Unblocked(w, id, at.partition)
    requires forall sp, k :: Req(w, sp, k) ==> Req(w', sp, k)
    requires w'.origin == w.origin && w.finished <= w'.finished
    ensures forall c :: c in w'.origin && c !in w'.finished && w'.routes.PartitionOf(w'.origin[c].node) in w'.alive ==>
              CallerRuns(w', c)
  {
    hide Holds, Msg;
    forall c | c in w'.origin && c !in w'.finished && w'.routes.PartitionOf(w'.origin[c].node) in w'.alive
      ensures CallerRuns(w', c)
    {
      assert CallerRuns(w, c);
      var sp :| IsRunning(w, sp) && Req(w, sp, w.origin[c].parent)
      && sp.partition == w.routes.PartitionOf(w.origin[c].node);
      assert sp != at;
      assert IsRunning(w', sp);
    }
  }

  lemma LineageHandOver(w: World, w': World, at: Spot, added: Spot, m: Message)
    requires Lineage(w) && Req(w, at, m.id) && Ends(w, w', at) && Unblocked(w, m.id, at.partition)
    requires Extends(w, w', added, m) && m.IsRequest()
    requires m.parent == "" && (m.Call? <==> Msg(w, at).Call?) && (m.Call? ==> m.caller == Msg(w, at).caller)
    requires w'.origin == w.origin && w'.finished == w.finished && w'.issued == w.issued
    ensures Lineage(w')
  {
    ExtendFacts(w, w', added, m);
    CallersKept(w, w', at, m.id);
    hide Holds, Msg, CallerRuns;
  }

  lemma LineageAnswered(w: World, w': World, at: Spot, id: string)
    requires Lineage(w) && Req(w, at, id) && Ends(w, w', at)
    requires IsRunning(w, at) ==> Unblocked(w, id, at.partition)
    requires forall sp, k :: Req(w', sp, k) <==> Req(w, sp, k)
    requires forall sp :: Holds(w, sp) ==> Msg(w', sp) == Msg(w, sp)
    requires w'.origin == w.origin && w.finished <= w'.finished && w'.issued == w.issued
    ensures Lineage(w')
  {
    CallersKept(w, w', at, id);
    hide Holds, Msg, CallerRuns;
    assert forall sp, k :: Req(w', sp, k) ==> Holds(w, sp) by {
      forall sp, k | Req(w', sp, k)
        ensures Holds(w, sp)
      {
        assert Req(w, sp, k);
      }
    }
  }

  // ----- waiting for a callee -----

  lemma AheadKept(w: World, w': World, at: Spot, sp: Spot, c: string)
    requires ReplyAhead(w, sp, c) && Ends(w, w', at) && (Holds(w, at) ==> Msg(w, at).IsRequest())
    requires forall x, k :: Reply(w, x, k) ==> Reply(w', x, k)
    requires forall x :: Holds(w, x) ==> Msg(w', x) == Msg(w, x)
    ensures ReplyAhead(w', sp, c)
  {
    var j: nat :| j > sp.offset && j >= Head(w, sp.partition)
      && Reply(w, Spot(sp.partition, j), c) && Msg(w, Spot(sp.partition, j)).Response?;
    assert Reply(w', Spot(sp.partition, j), c);
  }

  /** The retries that wait in w' are retries that waited in w. */
  ghost predicate Fewer(w: World, w': World) {
    && w'.routes == w.routes && w.finished <= w'.finished
    && (forall c :: c in w.origin ==> c in w'.origin && w'.origin[c] == w.origin[c])
    && (forall sp, id :: Req(w', sp, id) && Child(w', sp) != "" ==> Req(w, sp, id) && Child(w', sp) == Child(w, sp))
    && (forall sp, id :: Open(w', sp, id) && Child(w', sp) != "" ==> Open(w, sp, id))
    && (forall sp :: IsRunning(w', sp) && Child(w', sp) != "" ==> IsRunning(w, sp) && Child(w', sp) == Child(w, sp))
  }

  lemma NamedKept(w: World, w': World)
    requires Named(w) && Fewer(w, w')
    ensures Named(w')
  {
    hide Req, Open, Child, IsRunning;
  }

  lemma RedirectingKept(w: World, w': World)
    requires Redirecting(w) && Fewer(w, w')
    requires forall c :: c in w.shared.redirects && c !in w'.finished ==>
               c in w'.shared.redirects && w'.shared.redirects[c] == w.shared.redirects[c]
    ensures Redirecting(w')
  {
    hide Child, IsRunning;
    assert forall sp, id :: Open(w', sp, id) ==> Req(w', sp, id);
    hide Req, Open;
  }

  lemma OrderedKept(w: World, w': World)
    requires Ordered(w) && Fewer(w, w')
    ensures Ordered(w')
  {
    hide Req, Open, Child, IsRunning;
  }

  /** Ending an attempt, with or without a new record, leaves fewer retries waiting. */
  lemma EndsFewer(w: World, w': World, at: Spot)
    requires Shape(w) && Ends(w, w', at) && at.offset <= Head(w, at.partition)
    requires w'.origin == w.origin && w.finished <= w'.finished
    requires forall sp, id :: Req(w, sp, id) ==> Req(w', sp, id)
    requires forall sp :: Holds(w, sp) ==> Msg(w', sp) == Msg(w, sp)
    requires forall sp, id :: Req(w', sp, id) && Child(w', sp) != "" ==> Req(w, sp, id)
    ensures Fewer(w, w')
  {
    EndsOpen(w, w', at);
    PhaseHolds(w);
    assert w'.routes == w.routes;
    assert forall sp :: Holds(w, sp) ==> Child(w', sp) == Child(w, sp);
    assert forall sp, id :: Req(w, sp, id) ==> Holds(w, sp);
    assert forall sp, id :: Open(w', sp, id) ==> Req(w', sp, id);
    hide Holds, Msg, Shape, Open, IsRunning, Ends, Req, Child;
  }

  lemma WaitsHandOver(w: World, w': World, at: Spot, added: Spot, m: Message)
    requires Shape(w) && Waits(w) && Req(w, at, m.id) && Ends(w, w', at) && at.offset <= Head(w, at.partition)
    requires Extends(w, w', added, m) && m.IsRequest() && m.child == ""
    requires w'.origin == w.origin && w'.finished == w.finished && w'.shared.redirects == w.shared.redirects
    ensures Waits(w')
  {
    ExtendFacts(w, w', added, m);
    assert Child(w', added) == "";
    EndsFewer(w, w', at);
    NamedKept(w, w');
    RedirectingKept(w, w');
    OrderedKept(w, w');
    EndsOpen(w, w', at);
    hide Holds, Msg, Shape, Named, Redirecting, Ordered;
    forall sp, id | Open(w', sp, id) && Child(w', sp) != "" && !IsRunning(w', sp) && Child(w', sp) in w'.finished
      ensures ReplyAhead(w', sp, Child(w', sp))
    {
      assert Open(w, sp, id) && sp != at;
      AheadKept(w, w', at, sp, Child(w, sp));
    }
  }

  lemma PhaseHolds(w: World)
    requires Shape(w)
    ensures forall sp :: sp in w.phase ==> Holds(w, sp)
  {}

  /** The reply of a callee reaches the node where the retry of its caller waits. */
  lemma RedirectReaches(w: World, sp: Spot, k: string, at: Spot, m: Message)
    requires Attempts(w) && Lineage(w) && Waits(w)
    requires Open(w, at, m.id) && m == Msg(w, at) && Open(w, sp, k) && Child(w, sp) == m.id != ""
    ensures m.Call? && ReplyTo(w, m) == Redirected(sp.partition)
  {
    hide Holds, Msg;
    assert Req(w, sp, k) && Req(w, at, m.id);
  }

  lemma HeadBelowEnd(w: World, w': World, at: Spot, p: nat)
    requires Shape(w) && Ends(w, w', at) && Holds(w, at) && p in w.alive
    ensures Head(w', p) <= |Log(w, p)|
  {}

  lemma AnnouncedReplied(w: World, w': World, at: Spot, m: Message, reply: Message, q: nat)
    requires Shape(w) && Attempts(w) && Lineage(w) && Waits(w)
    requires Open(w, at, m.id) && m == Msg(w, at) && Ends(w, w', at) && at.offset <= Head(w, at.partition)
    requires IsReplyFor(m, reply) && ReplyTo(w, m) in {Direct(q), Redirected(q)}
    requires Extends(w, w', Spot(q, |Log(w, q)|), reply) && Fewer(w, w')
    requires w'.finished == w.finished + {m.id}
    ensures Announced(w')
  {
    var added := Spot(q, |Log(w, q)|);
    ExtendFacts(w, w', added, reply);
    EndsOpen(w, w', at);
    forall sp, id | Open(w', sp, id) && Child(w', sp) != "" && !IsRunning(w', sp) && Child(w', sp) in w'.finished
      ensures ReplyAhead(w', sp, Child(w', sp))
    {
      hide Shape, Lineage, Attempts, Named, Redirecting, Ordered;
      assert Open(w, sp, id) && sp != at;
      if Child(w, sp) == m.id {
        RedirectReaches(w, sp, id, at, m);
        HeadBelowEnd(w, w', at, sp.partition);
        assert Reply(w', added, m.id);
      } else {
        AheadKept(w, w', at, sp, Child(w, sp));
      }
    }
  }

  lemma WaitsReplied(w: World, w': World, at: Spot, m: Message, reply: Message, q: nat)
    requires Shape(w) && Attempts(w) && Lineage(w) && Waits(w)
    requires Open(w, at, m.id) && m == Msg(w, at) && Ends(w, w', at) && at.offset <= Head(w, at.partition)
    requires IsReplyFor(m, reply) && ReplyTo(w, m) in {Direct(q), Redirected(q)}
    requires Extends(w, w', Spot(q, |Log(w, q)|), reply)
    requires w'.origin == w.origin && w'.finished == w.finished + {m.id}
    requires w'.shared.redirects == if ReplyTo(w, m).Redirected? then w.shared.redirects - {m.id}
             else w.shared.redirects
    ensures Waits(w')
  {
    ExtendFacts(w, w', Spot(q, |Log(w, q)|), reply);
    assert forall sp, id :: Req(w', sp, id) ==> Req(w, sp, id);
    EndsFewer(w, w', at);
    hide Holds, Msg, Shape, Extends, Lineage, Attempts, Log;
    AnnouncedReplied(w, w', at, m, reply, q);
    NamedKept(w, w');
    RedirectingKept(w, w');
    OrderedKept(w, w');
  }

  lemma WaitsAbandoned(w: World, w': World, at: Spot)
    requires Shape(w) && Waits(w) && Holds(w, at) && Msg(w, at).IsRequest() && Ends(w, w', at)
             && at.offset <= Head(w, at.partition)
    requires w'.shared == w.shared && w'.origin == w.origin && w'.finished == w.finished
    ensures Waits(w')
  {
    assert forall sp :: Holds(w', sp) <==> Holds(w, sp);
    assert forall sp :: Msg(w', sp) == Msg(w, sp);
    assert forall sp, id :: Req(w', sp, id) <==> Req(w, sp, id);
    EndsFewer(w, w', at);
    NamedKept(w, w');
    RedirectingKept(w, w');
    OrderedKept(w, w');
    EndsOpen(w, w', at);
    hide Holds, Msg, Shape, Named, Redirecting, Ordered;
    forall sp, id | Open(w', sp, id) && Child(w', sp) != "" && !IsRunning(w', sp) && Child(w', sp) in w'.finished
      ensures ReplyAhead(w', sp, Child(w', sp))
    {
      assert Open(w, sp, id) && sp != at;
      AheadKept(w, w', at, sp, Child(w, sp));
    }
  }

  // ----- tail call -----

  /** A tail call that retains the lock stays on the partition of its caller. */
  lemma LockStays(w: World, at: Spot, m: Message, pick: string, w': World)
    requires Inv(w) && TailCall(w, at, m, pick, w') && m.IsLocked()
    ensures RouteTo(w.routes, w.shared.placements, m.target, pick).partition == at.partition != 0
  {
    assert Req(w, at, m.id);
    assert at.partition in w.routes.Live();
  }

  lemma TailCallEnds(w: World, at: Spot, m: Message, pick: string, w': World)
    requires Shape(w) && TailCall(w, at, m, pick, w')
    ensures Open(w, at, m.id) && at.offset < Head(w, at.partition) && Ends(w, w', at)
    ensures m.sequence == Num(w, at) + 1
  {
  }

  lemma TailCallFacts(w: World, at: Spot, m: Message, pick: string, w': World) returns (added: Spot)
    requires Shape(w) && TailCall(w, at, m, pick, w')
    ensures Open(w, at, m.id) && at.offset < Head(w, at.partition) && Ends(w, w', at)
    ensures m.sequence == Num(w, at) + 1
    ensures added == Spot(RouteTo(w.routes, w.shared.placements, m.target, pick).partition, |Log(w, added.partition)|)
    ensures forall q :: Log(w', q) == if q == added.partition then Log(w, q) + [m] else Log(w, q)
    ensures Extends(w, w', added, m)
    ensures added.partition in w.alive ==> added.offset >= Head(w, added.partition) && added != at
    ensures added.partition == 0 || added.partition in w.routes.Live()
  {
    TailCallEnds(w, at, m, pick, w');
    hide Open, Ends, RouteTo;
    var to := RouteTo(w.routes, w.shared.placements, m.target, pick);
    RouteIsLive(w.routes, w.shared.placements, m.target, pick);
    added := AppendExtends(w, w', to.partition, m);
  }

  lemma TailCallKeeps(w: World, at: Spot, m: Message, pick: string, w': World)
    requires Inv(w) && TailCall(w, at, m, pick, w')
    ensures Inv(w')
  {
    var added := TailCallFacts(w, at, m, pick, w');
    if m.IsLocked() {
      LockStays(w, at, m, pick, w');
    }
    TailCallChains(w, at, m, pick, w', added);
    hide Extends, Ends, Open, RouteTo, Log, Chains, Targets;
    ShapeExtend(w, w', added.partition, m, {at});
    assert w.routes.Valid();
    hide Shape;
    IdsExtend(w, w', added, m);
    hide Ids;
    AttemptsHandOver(w, w', at, added, m);
    ProgressHandOver(w, w', at, added, m);
    EvidenceExtend(w, w', added, m);
    PlacedExtend(w, w', added, m, pick);
    LineageHandOver(w, w', at, added, m);
    WaitsHandOver(w, w', at, added, m);
  }

  lemma TailCallChains(w: World, at: Spot, m: Message, pick: string, w': World, added: Spot)
    requires Inv(w) && TailCall(w, at, m, pick, w') && Open(w, at, m.id) && m.sequence == Num(w, at) + 1
    requires Extends(w, w', added, m) && (m.IsLocked() ==> added.partition == at.partition != 0)
    ensures Chains(w') && Targets(w') && m.id in w.issued && m.id !in w.finished && m.id != ""
            && 0 <= m.sequence < COMPLETED
  {
    hide Holds, Msg, Shape, Progress, Evidence, Placed, Lineage, Waits;
    assert Req(w, at, m.id);
    assert m.IsLocked() ==> AddressOf(Msg(w, at)) == AddressOf(m);
    ChainsExtend(w, w', added, m);
    TargetsExtend(w, w', added, m);
  }

  // ----- replies -----

  /** An attempt ends and its reply is delivered to partition q. */
  lemma DeliveredKeeps(w: World, w': World, at: Spot, m: Message, reply: Message, q: nat)
    requires Inv(w) && Shape(w') && Open(w, at, m.id) && m == Msg(w, at) && Ends(w, w', at)
    requires at.offset <= Head(w, at.partition) && (IsRunning(w, at) ==> Unblocked(w, m.id, at.partition))
    requires IsReplyFor(m, reply) && ReplyTo(w, m) in {Direct(q), Redirected(q)}
    requires Extends(w, w', Spot(q, |Log(w, q)|), reply)
    requires w'.origin == w.origin && w'.issued == w.issued && w'.abandoned == w.abandoned
    requires w'.finished == w.finished + {m.id} && w'.shared.placements == w.shared.placements
    requires w'.shared.redirects == if ReplyTo(w, m).Redirected? then w.shared.redirects - {m.id}
             else w.shared.redirects
    ensures Inv(w')
  {
    var added := Spot(q, |Log(w, q)|);
    assert Req(w, at, m.id);
    ExtendFacts(w, w', added, reply);
    assert forall sp, id :: Req(w', sp, id) <==> Req(w, sp, id);
    assert forall sp, id :: Req(w', sp, id) ==> Msg(w', sp) == Msg(w, sp);
    hide Extends, Ends, Open, ReplyTo, Log, Holds, Msg, Req, Chains, Attempts, Progress, Evidence, Placed, Lineage,
         Waits;
    TargetsKept(w, w');
    hide Targets;
    IdsExtend(w, w', added, reply);
    hide Ids;
    hide Shape;
    ChainsExtend(w, w', added, reply);
    AttemptsAnswered(w, w', at, m.id);
    ProgressAnswered(w, w', at, m.id);
    EvidenceExtend(w, w', added, reply);
    PlacedKept(w, w');
    LineageAnswered(w, w', at, m.id);
    WaitsReplied(w, w', at, m, reply, q);
  }

  /** An attempt ends and its reply has nowhere to go. */
  lemma AbandonedKeeps(w: World, w': World, at: Spot, m: Message)
    requires Inv(w) && Shape(w') && Open(w, at, m.id) && m == Msg(w, at) && Ends(w, w', at)
    requires at.offset <= Head(w, at.partition) && (IsRunning(w, at) ==> Unblocked(w, m.id, at.partition))
    requires w'.shared == w.shared && w'.origin == w.origin && w'.issued == w.issued
    requires w'.finished == w.finished && w'.abandoned == w.abandoned + {m.id}
    ensures Inv(w')
  {
    SameSharedFacts(w, w');
    assert Req(w, at, m.id);
    hide Ends, Open, Log, Holds, Msg, Req, Attempts, Progress, Placed, Lineage, Waits, Reply;
    AbandonedIds(w, w', at, m.id);
    TargetsKept(w, w');
    hide Shape, Ids, Chains, Evidence, Targets;
    AttemptsAnswered(w, w', at, m.id);
    ProgressAnswered(w, w', at, m.id);
    PlacedKept(w, w');
    LineageAnswered(w, w', at, m.id);
    WaitsAbandoned(w, w', at);
  }

  lemma SameSharedFacts(w: World, w': World)
    requires w'.shared == w.shared
    ensures forall sp :: Holds(w', sp) <==> Holds(w, sp)
    ensures forall sp :: Msg(w', sp) == Msg(w, sp)
    ensures forall sp, id :: Req(w', sp, id) <==> Req(w, sp, id)
    ensures forall sp, id :: Reply(w', sp, id) <==> Reply(w, sp, id)
  {}

  lemma AbandonedIds(w: World, w': World, at: Spot, id: string)
    requires Ids(w) && Chains(w) && Evidence(w) && Req(w, at, id)
    requires w'.shared == w.shared && w'.issued == w.issued
    requires w'.finished == w.finished && w'.abandoned == w.abandoned + {id}
    ensures Ids(w') && Chains(w') && Evidence(w')
  {
    SameSharedFacts(w, w');
    hide Holds, Msg, Req, Reply;
  }

  lemma RepliedLog(w: World, m: Message, reply: Message, w': World)
    requires m.IsRequest() && w'.shared == Replied(w, m, reply).shared
    ensures ReplyTo(w, m).Direct? || ReplyTo(w, m).Redirected? ==>
              var q := ReplyTo(w, m).partition;
              && (forall p :: Log(w', p) == if p == q then Log(w, p) + [reply] else Log(w, p))
              && Extends(w, w', Spot(q, |Log(w, q)|), reply)
  {
    if !ReplyTo(w, m).Nowhere? {
      var added := AppendExtends(w, w', ReplyTo(w, m).partition, reply);
    }
  }

  lemma ReplyToLive(w: World, m: Message)
    requires Shape(w) && m.IsRequest() && !ReplyTo(w, m).Nowhere?
    ensures var q := ReplyTo(w, m).partition; q == 0 || q in w.routes.Live()
  {}

  /** Offsets stay in order when the attempt at spot at ends. */
  lemma ShapeEnds(w: World, w': World, at: Spot, q: nat, reply: Message)
    requires Shape(w) && Ends(w, w', at) && Holds(w, at) && (q == 0 || q in w.routes.Live())
    requires forall p :: Log(w', p) == if p == q then Log(w, p) + [reply] else Log(w, p)
    ensures Shape(w')
  {
    ShapeEndsPhase(w, w', at, q, reply);
    hide Ends;
  }

  lemma ShapeEndsPhase(w: World, w': World, at: Spot, q: nat, reply: Message)
    requires Shape(w) && Ends(w, w', at) && Holds(w, at)
    requires forall p :: Log(w', p) == if p == q then Log(w, p) + [reply] else Log(w, p)
    ensures forall sp :: sp in w'.phase ==> Holds(w', sp) && sp.partition in w'.alive
                                            && sp.offset < Head(w', sp.partition)
    ensures forall sp :: sp in w'.phase ==> Msg(w', sp).IsRequest()
    ensures forall p :: p in w'.alive ==> Head(w', p) <= |Log(w', p)|
    ensures w'.routes == w.routes && w'.alive == w.alive && w'.known == w.known
  {
    LogGrows(w, w', q, reply);
    hide Holds, Msg, Log;
  }

  lemma AnswerKeeps(w: World, w': World, at: Spot, m: Message, reply: Message)
    requires Inv(w) && Open(w, at, m.id) && m == Msg(w, at) && Ends(w, w', at)
    requires at.offset <= Head(w, at.partition) && (IsRunning(w, at) ==> Unblocked(w, m.id, at.partition))
    requires IsReplyFor(m, reply)
    requires var r := Replied(w, m, reply);
             && w'.shared == r.shared && w'.finished == r.finished && w'.abandoned == r.abandoned
             && w'.origin == r.origin && w'.issued == r.issued
    ensures Inv(w')
  {
    RepliedLog(w, m, reply, w');
    assert Holds(w, at) && Shape(w);
    hide Inv, Shape, IsReplyFor, Unblocked;
    if ReplyTo(w, m).Nowhere? {
      hide Ends;
      ShapeAbandoned(w, w', at);
      hide Open;
      AbandonedKeeps(w, w', at, m);
    } else {
      var q := ReplyTo(w, m).partition;
      ReplyToLive(w, m);
      ShapeEnds(w, w', at, q, reply);
      hide Ends, Open, Extends, Log, Msg, Holds;
      DeliveredKeeps(w, w', at, m, reply, q);
    }
  }

  lemma ShapeAbandoned(w: World, w': World, at: Spot)
    requires Shape(w) && Ends(w, w', at) && Holds(w, at) && w'.shared == w.shared
    ensures Shape(w')
  {
    AbandonedPhase(w, w', at);
    assert forall p :: Log(w', p) == Log(w, p);
    hide Msg, Log, Holds, Head, Ends;
  }

  lemma AbandonedPhase(w: World, w': World, at: Spot)
    requires Shape(w) && Ends(w, w', at) && Holds(w, at) && w'.shared == w.shared
    ensures forall sp :: sp in w'.phase ==> Holds(w', sp) && sp.partition in w'.alive
                                            && sp.offset < Head(w', sp.partition)
    ensures forall sp :: sp in w'.phase ==> Msg(w', sp).IsRequest()
    ensures forall p :: p in w'.alive ==> Head(w', p) <= |Log(w', p)|
    ensures w'.routes == w.routes && w'.alive == w.alive && w'.known == w.known
  {
    SameSharedFacts(w, w');
    assert forall p :: Log(w', p) == Log(w, p);
    hide Msg, Log;
  }

  lemma RepliedFrame(w: World, m: Message, reply: Message)
    requires m.IsRequest()
    ensures var r := Replied(w, m, reply);
            && r.phase == w.phase && r.head == w.head && r.alive == w.alive && r.routes == w.routes
            && r.known == w.known && r.origin == w.origin && r.issued == w.issued
  {}

  lemma FinishFacts(w: World, at: Spot, reply: Message, w': World)
    requires Shape(w) && Finish(w, at, reply, w')
    ensures Open(w, at, Msg(w, at).id) && at.offset < Head(w, at.partition) && Ends(w, w', at)
  {
    RepliedFrame(w, Msg(w, at), reply);
    hide Replied, Msg, Holds;
  }

  lemma FinishKeeps(w: World, at: Spot, reply: Message, w': World)
    requires Inv(w) && Finish(w, at, reply, w')
    ensures Inv(w')
  {
    var m := Msg(w, at);
    FinishFacts(w, at, reply, w');
    hide Inv, Ends, Open, Msg, Unblocked, Replied;
    RepliedFrame(w, m, reply);
    AnswerKeeps(w, w', at, m, reply);
  }

  lemma ExpireFacts(w: World, p: nat, reply: Message, w': World)
    requires Shape(w) && Expire(w, p, reply, w')
    ensures var at := Spot(p, Head(w, p));
            Open(w, at, Msg(w, at).id) && at !in w.phase && Ends(w, w', at)
  {
    RepliedFrame(w, Msg(w, Spot(p, Head(w, p))), reply);
    hide Replied, Msg, Holds;
  }

  lemma ExpireKeeps(w: World, p: nat, reply: Message, w': World)
    requires Inv(w) && Expire(w, p, reply, w')
    ensures Inv(w')
  {
    var at := Spot(p, Head(w, p));
    var m := Msg(w, at);
    ExpireFacts(w, p, reply, w');
    hide Inv, Ends, Open, Msg, Unblocked, Replied;
    RepliedFrame(w, m, reply);
    AnswerKeeps(w, w', at, m, reply);
  }

  lemma TimeoutFacts(w: World, at: Spot, reply: Message, w': World)
    requires Shape(w) && Timeout(w, at, reply, w')
    ensures Open(w, at, Msg(w, at).id) && at.offset < Head(w, at.partition) && !IsRunning(w, at) && Ends(w, w', at)
  {
    RepliedFrame(w, Msg(w, at), reply);
    hide Replied, Msg, Holds;
  }

  lemma TimeoutKeeps(w: World, at: Spot, reply: Message, w': World)
    requires Inv(w) && Timeout(w, at, reply, w')
    ensures Inv(w')
  {
    var m := Msg(w, at);
    TimeoutFacts(w, at, reply, w');
    hide Inv, Ends, Open, Msg, Unblocked, Replied;
    RepliedFrame(w, m, reply);
    AnswerKeeps(w, w', at, m, reply);
  }

  /** What an answer does, whichever way it comes about. */
  lemma AnswerFacts(w: World, s: Step, w': World)
    requires Inv(w) && Next(w, s, w') && Answering(s)
    ensures var at := AnsweredAt(w, s);
            && Msg(w, at).IsRequest() && Open(w, at, Msg(w, at).id) && IsReplyFor(Msg(w, at), s.reply)
            && w'.shared == Replied(w, Msg(w, at), s.reply).shared
               && w'.finished == Replied(w, Msg(w, at), s.reply).finished
            && w'.abandoned == Replied(w, Msg(w, at), s.reply).abandoned
  {
    assert Shape(w);
    hide Inv, Replied, Msg, Holds, Unblocked;
    match s
    case FinishStep(at, reply) => FinishFacts(w, at, reply, w');
    case ExpireStep(p, reply) => ExpireFacts(w, p, reply, w');
    case TimeoutStep(at, reply) => TimeoutFacts(w, at, reply, w');
  }

  // ----- issue -----

  lemma IssueFacts(w: World, m: Message, pick: string, w': World) returns (added: Spot)
    requires Shape(w) && Ids(w) && Issue(w, m, pick, w')
    ensures added == Spot(RouteTo(w.routes, w.shared.placements, m.target, pick).partition, |Log(w, added.partition)|)
    ensures forall q :: Log(w', q) == if q == added.partition then Log(w, q) + [m] else Log(w, q)
    ensures Extends(w, w', added, m)
    ensures added.partition == 0 || added.partition in w.routes.Live()
    ensures forall sp :: !Req(w, sp, m.id)
    ensures added.partition in w.alive ==> added.offset >= Head(w, added.partition)
    ensures added !in w.phase
  {
    var to := RouteTo(w.routes, w.shared.placements, m.target, pick);
    RouteIsLive(w.routes, w.shared.placements, m.target, pick);
    added := AppendExtends(w, w', to.partition, m);
    hide Issue, RouteTo, Holds, Msg;
  }

  /** A new request adds an open attempt at most; every other attempt stays as it was. */
  lemma IssueOpen(w: World, w': World, added: Spot, m: Message)
    requires Extends(w, w', added, m) && m.IsRequest()
    requires w'.alive == w.alive && w'.head == w.head && w'.phase == w.phase && added !in w.phase
    requires added.partition in w.alive ==> added.offset >= Head(w, added.partition)
    ensures forall sp, id :: Open(w, sp, id) ==> Open(w', sp, id)
    ensures forall sp, id :: Open(w', sp, id) ==> Open(w, sp, id) || (sp == added && id == m.id)
    ensures added.partition in w.alive ==> Open(w', added, m.id)
    ensures forall sp :: IsRunning(w', sp) <==> IsRunning(w, sp)
  {
    ExtendFacts(w, w', added, m);
    hide Holds, Msg, Extends;
  }

  lemma IssueAttempts(w: World, w': World, added: Spot, m: Message)
    requires Attempts(w) && Ids(w) && Extends(w, w', added, m) && m.IsRequest() && m.id !in w.issued
    requires forall sp :: !Req(w, sp, m.id)
    requires forall sp, id :: Open(w', sp, id) ==> Open(w, sp, id) || (sp == added && id == m.id)
    requires w'.finished == w.finished
    ensures Attempts(w')
  {
    ExtendFacts(w, w', added, m);
    assert forall sp, id :: Open(w, sp, id) ==> Req(w, sp, id);
    assert m.id !in w.finished;
    hide Holds, Msg, Extends, Open, Req, Ids;
  }

  lemma IssueProgress(w: World, w': World, added: Spot, m: Message)
    requires Progress(w) && Extends(w, w', added, m) && m.IsRequest()
    requires forall sp, id :: Open(w, sp, id) ==> Open(w', sp, id)
    requires added.partition in w.alive ==> Open(w', added, m.id)
    requires w'.alive == w.alive && w'.issued == w.issued + {m.id} && w'.finished == w.finished
             && w'.abandoned == w.abandoned
    ensures Progress(w')
  {
    ExtendFacts(w, w', added, m);
    assert Req(w', added, m.id);
    hide Holds, Msg, Extends, Open;
    forall id | id in w'.issued && !Settled(w', id)
      ensures exists sp :: Req(w', sp, id)
    {
      if id != m.id {
        var sp :| Req(w, sp, id);
        assert Req(w', sp, id);
      }
    }
    forall sp, id | Req(w', sp, id) && sp.partition in w'.alive && !Open(w', sp, id) && !Settled(w', id)
      ensures Superseded(w', sp, id)
    {
      assert Req(w, sp, id);
      SupersededKept(w, w', sp, id);
    }
  }

  lemma CallerIsKnown(w: World, node: string)
    requires Lineage(w) && Shape(w) && w.routes.PartitionOf(node) in w.alive
    ensures node in w.known
  {
    assert w.alive <= w.routes.Live();
    assert 0 !in w.routes.Live();
  }

  lemma CallerStillRuns(w: World, w': World, added: Spot, m: Message, c: string)
    requires Extends(w, w', added, m) && w'.routes == w.routes && forall sp :: IsRunning(w, sp) ==> IsRunning(w', sp)
    requires c in w.origin && c in w'.origin && w'.origin[c] == w.origin[c] && CallerRuns(w, c)
    ensures CallerRuns(w', c)
  {
    ExtendFacts(w, w', added, m);
    hide Holds, Msg, Extends, IsRunning, Req;
    var sp :| IsRunning(w, sp) && Req(w, sp, w.origin[c].parent)
    && sp.partition == w.routes.PartitionOf(w.origin[c].node);
    assert IsRunning(w', sp) && Req(w', sp, w'.origin[c].parent);
  }

  lemma NewCallerRuns(w: World, w': World, added: Spot, m: Message, sp: Spot)
    requires m.Call? && Extends(w, w', added, m) && w'.routes == w.routes && IsRunning(w', sp) && Req(w, sp, m.parent)
    requires sp.partition == w.routes.PartitionOf(m.caller) && m.id in w'.origin
             && w'.origin[m.id] == Origin(m.parent, m.caller)
    ensures CallerRuns(w', m.id)
  {
    ExtendFacts(w, w', added, m);
    hide Holds, Msg, Extends, IsRunning, Req;
    assert Req(w', sp, w'.origin[m.id].parent);
  }

  lemma IssueOrigins(w: World, w': World, added: Spot, m: Message)
    requires Lineage(w) && Extends(w, w', added, m) && m.IsRequest() && m.id !in w.issued
    requires forall sp :: !Req(w, sp, m.id)
    requires w'.origin == if m.Call? && m.parent != "" then w.origin[m.id := Origin(m.parent, m.caller)] else w.origin
    ensures forall sp, c :: Req(w', sp, c) && Msg(w', sp).Call? && Msg(w', sp).parent != "" ==>
              c in w'.origin && w'.origin[c].parent == Msg(w', sp).parent
    ensures forall sp, c :: Req(w', sp, c) && c in w'.origin ==> Msg(w', sp).Call?
                                                                 && Msg(w', sp).caller == w'.origin[c].node
  {
    ExtendFacts(w, w', added, m);
    assert m.id !in w.origin;
    hide Holds, Msg, Extends, IsRunning, CallerRuns;
  }

  lemma IssueLineage(w: World, w': World, added: Spot, m: Message)
    requires Lineage(w) && Shape(w) && Extends(w, w', added, m) && m.IsRequest() && m.id !in w.issued && m.id != ""
    requires forall sp :: !Req(w, sp, m.id)
    requires w'.routes == w.routes && w'.alive == w.alive && w'.known == w.known && w'.phase == w.phase
    requires w'.finished == w.finished && w'.issued == w.issued + {m.id}
    requires w'.origin == if m.Call? && m.parent != "" then w.origin[m.id := Origin(m.parent, m.caller)] else w.origin
    requires m.Call? ==> w.routes.PartitionOf(m.caller) in w.alive
    requires m.Call? && m.parent != "" ==>
               exists sp :: IsRunning(w, sp) && Req(w, sp, m.parent) && sp.partition == w.routes.PartitionOf(m.caller)
    ensures Lineage(w')
  {
    if m.Call? { CallerIsKnown(w, m.caller); }
    IssueOrigins(w, w', added, m);
    assert forall sp :: IsRunning(w', sp) <==> IsRunning(w, sp);
    hide Holds, Msg, Extends, Shape, IsRunning, CallerRuns, Req;
    forall c | c in w'.origin && c !in w'.finished && w'.routes.PartitionOf(w'.origin[c].node) in w'.alive
      ensures CallerRuns(w', c)
    {
      if c == m.id {
        var sp :| IsRunning(w, sp) && Req(w, sp, m.parent) && sp.partition == w.routes.PartitionOf(m.caller);
        NewCallerRuns(w, w', added, m, sp);
      } else {
        CallerStillRuns(w, w', added, m, c);
      }
    }
  }

  /** The new request waits for no callee, and the others are as they were. */
  lemma IssueChildren(w: World, w': World, added: Spot, m: Message)
    requires Extends(w, w', added, m) && m.IsRequest() && m.child == ""
    ensures Child(w', added) == ""
    ensures forall sp, id :: Req(w', sp, id) && Child(w', sp) != "" ==> Req(w, sp, id) && Child(w', sp) == Child(w, sp)
    ensures forall sp :: Holds(w, sp) ==> Child(w', sp) == Child(w, sp)
  {
    ExtendFacts(w, w', added, m);
    hide Holds, Msg, Extends;
  }

  lemma IssueFewer(w: World, w': World, added: Spot, m: Message)
    requires Lineage(w) && Shape(w) && Extends(w, w', added, m) && m.IsRequest() && m.child == "" && m.id !in w.issued
    requires IssueFrame(w, w', m)
    requires forall sp, id :: Open(w', sp, id) ==> Open(w, sp, id) || (sp == added && id == m.id)
    requires forall sp :: IsRunning(w', sp) <==> IsRunning(w, sp)
    ensures Fewer(w, w') && Child(w', added) == ""
  {
    IssueChildren(w, w', added, m);
    PhaseHolds(w);
    assert m.id !in w.origin;
    assert forall sp :: IsRunning(w, sp) ==> Holds(w, sp);
    hide Shape, Lineage, IsRunning, Holds, Msg, Extends, Open, Child, Req;
  }

  lemma IssueAnnounced(w: World, w': World, added: Spot, m: Message)
    requires Announced(w) && Extends(w, w', added, m) && Fewer(w, w')
    requires w'.head == w.head && w'.finished == w.finished
    requires forall sp :: IsRunning(w', sp) <==> IsRunning(w, sp)
    ensures Announced(w')
  {
    ExtendFacts(w, w', added, m);
    assert forall sp, id :: Open(w', sp, id) ==> Req(w', sp, id);
    hide Extends, Msg, Holds, Open, IsRunning;
    forall sp, id | Open(w', sp, id) && Child(w', sp) != "" && !IsRunning(w', sp) && Child(w', sp) in w'.finished
      ensures ReplyAhead(w', sp, Child(w', sp))
    {
      assert Open(w, sp, id);
      var c := Child(w, sp);
      var j: nat :| j > sp.offset && j >= Head(w, sp.partition)
        && Reply(w, Spot(sp.partition, j), c) && Msg(w, Spot(sp.partition, j)).Response?;
      assert Reply(w', Spot(sp.partition, j), c);
    }
  }

  lemma IssueWaits(w: World, w': World, added: Spot, m: Message)
    requires Waits(w) && Lineage(w) && Shape(w) && Extends(w, w', added, m) && m.IsRequest() && m.child == ""
             && m.id !in w.issued
    requires IssueFrame(w, w', m)
    requires forall sp, id :: Open(w', sp, id) ==> Open(w, sp, id) || (sp == added && id == m.id)
    requires forall sp :: IsRunning(w', sp) <==> IsRunning(w, sp)
    ensures Waits(w')
  {
    IssueFewer(w, w', added, m);
    hide Shape, Lineage, IsRunning, Holds, Msg, Extends, Open, Fewer, Named, Redirecting, Ordered, Announced;
    NamedKept(w, w');
    RedirectingKept(w, w');
    OrderedKept(w, w');
    IssueAnnounced(w, w', added, m);
  }

  /** What issuing a request leaves alone. */
  ghost predicate IssueFrame(w: World, w': World, m: Message) {
    && w'.routes == w.routes && w'.alive == w.alive && w'.known == w.known && w'.head == w.head && w'.phase == w.phase
    && w'.finished == w.finished && w'.abandoned == w.abandoned && w'.issued == w.issued + {m.id}
    && w'.shared.redirects == w.shared.redirects
    && w'.origin == if m.Call? && m.parent != "" then w.origin[m.id := Origin(m.parent, m.caller)] else w.origin
  }

  lemma IssueKeeps(w: World, m: Message, pick: string, w': World)
    requires Inv(w) && Issue(w, m, pick, w')
    ensures Inv(w')
  {
    var added := IssueFacts(w, m, pick, w');
    assert IssueFrame(w, w', m) && w.routes.Valid();
    assert m.id !in w.finished by {
      assert Ids(w);
    }
    hide Extends, Open, RouteTo, Log, Chains, Targets, Shape, Ids, Attempts, Progress, Evidence, Placed, Lineage,
         Waits, Req, IsRunning;
    ShapeExtend(w, w', added.partition, m, {});
    IssueIds(w, w', added, m);
    ChainsExtend(w, w', added, m);
    TargetsExtend(w, w', added, m);
    EvidenceExtend(w, w', added, m);
    PlacedExtend(w, w', added, m, pick);
    IssueRest(w, m, pick, w', added);
  }

  lemma IssueRest(w: World, m: Message, pick: string, w': World, added: Spot)
    requires Inv(w) && Issue(w, m, pick, w') && IssueFrame(w, w', m) && Extends(w, w', added, m)
    requires forall sp :: !Req(w, sp, m.id)
    requires added !in w.phase && (added.partition in w.alive ==> added.offset >= Head(w, added.partition))
    ensures Attempts(w') && Progress(w') && Lineage(w') && Waits(w')
  {
    hide Extends, RouteTo, Log, Chains, Targets, Shape, Ids, Attempts, Progress, Evidence, Placed, Lineage, Waits, Req;
    IssueOpen(w, w', added, m);
    hide Open, Head;
    IssueAttempts(w, w', added, m);
    IssueProgress(w, w', added, m);
    IssueLineage(w, w', added, m);
    IssueWaits(w, w', added, m);
  }

  lemma IssueIds(w: World, w': World, added: Spot, m: Message)
    requires Ids(w) && Extends(w, w', added, m)
    requires m.IsRequest() && m.id != "" && m.sequence == 0 && !m.target.Node?
    requires w'.issued == w.issued + {m.id} && w'.finished == w.finished && w'.abandoned == w.abandoned
    ensures Ids(w')
  {
    IdsExtend(w, w', added, m);
  }

  // ----- read -----

  /** Reading a record opens and ends no attempt. */
  lemma ReadOpen(w: World, p: nat, w': World)
    requires Shape(w) && Read(w, p, w')
    ensures forall sp, id :: Open(w', sp, id) <==> Open(w, sp, id)
    ensures forall sp :: IsRunning(w, sp) ==> IsRunning(w', sp)
    ensures forall sp :: IsRunning(w', sp) && !IsRunning(w, sp) ==>
              var m := Msg(w, Spot(p, Head(w, p)));
              if m.IsRequest() then sp == Spot(p, Head(w, p)) && m.child == "" else m.Response? && Child(w, sp) == m.id
    ensures forall q :: Head(w', q) == Head(w, q) + if q == p then 1 else 0
  {
    ReadHeads(w, p, w');
    ReadStarts(w, p, w');
    SameSharedFacts(w, w');
    hide Req, Holds, Msg, IsRunning, Head;
  }

  lemma ReadHeads(w: World, p: nat, w': World)
    requires Read(w, p, w')
    ensures forall q :: Head(w', q) == Head(w, q) + if q == p then 1 else 0
  {
  }

  lemma ReadStarts(w: World, p: nat, w': World)
    requires Shape(w) && Read(w, p, w')
    ensures forall sp :: IsRunning(w, sp) ==> IsRunning(w', sp)
    ensures forall sp :: IsRunning(w', sp) && !IsRunning(w, sp) ==>
              var m := Msg(w, Spot(p, Head(w, p)));
              if m.IsRequest() then sp == Spot(p, Head(w, p)) && m.child == "" else m.Response? && Child(w, sp) == m.id
  {
    hide Req, Holds, Msg;
  }

  lemma ReadPhase(w: World, p: nat, w': World)
    requires Shape(w) && Read(w, p, w')
    ensures forall sp :: sp in w'.phase ==> Holds(w, sp) && sp.partition in w'.alive
                                            && sp.offset < Head(w', sp.partition)
    ensures forall sp :: sp in w'.phase ==> Msg(w, sp).IsRequest()
  {
    ReadHeads(w, p, w');
    hide Msg, Holds, Log, Head;
  }

  lemma ReadShape(w: World, p: nat, w': World)
    requires Shape(w) && Read(w, p, w')
    ensures Shape(w')
  {
    ReadPhase(w, p, w');
    ReadHeads(w, p, w');
    SameSharedFacts(w, w');
    assert forall q :: Log(w', q) == Log(w, q);
    hide Msg, Log, Head;
  }

  lemma ReadAnnounced(w: World, p: nat, w': World)
    requires Shape(w) && Announced(w) && Read(w, p, w')
    ensures Announced(w')
  {
    SameSharedFacts(w, w');
    ReadOpen(w, p, w');
    var at := Spot(p, Head(w, p));
    forall sp, id | Open(w', sp, id) && Child(w', sp) != "" && !IsRunning(w', sp) && Child(w', sp) in w'.finished
      ensures ReplyAhead(w', sp, Child(w', sp))
    {
      assert Open(w, sp, id) && !IsRunning(w, sp);
      var c := Child(w, sp);
      var j: nat :| j > sp.offset && j >= Head(w, sp.partition)
        && Reply(w, Spot(sp.partition, j), c) && Msg(w, Spot(sp.partition, j)).Response?;
      assert Reply(w', Spot(sp.partition, j), c);
    }
  }

  lemma ReadOrdered(w: World, p: nat, w': World)
    requires Shape(w) && Ids(w) && Ordered(w) && Read(w, p, w')
    ensures Ordered(w')
  {
    SameSharedFacts(w, w');
    ReadOpen(w, p, w');
    var at := Spot(p, Head(w, p));
    assert !Msg(w, at).IsRequest() ==> Reply(w, at, Msg(w, at).id);
    hide Shape, Holds, Msg, Req, Read;
  }

  lemma ReadKeeps(w: World, p: nat, w': World)
    requires Inv(w) && Read(w, p, w')
    ensures Inv(w')
  {
    SameSharedFacts(w, w');
    ReadShape(w, p, w');
    ReadOpen(w, p, w');
    ReadAnnounced(w, p, w');
    ReadOrdered(w, p, w');
    hide Shape, Holds, Msg, Req, Reply, Open, IsRunning, Announced, Ordered, Head;
    TargetsKept(w, w');
    hide Targets;
    ReadRest(w, w');
  }

  lemma ReadRest(w: World, w': World)
    requires Ids(w) && Chains(w) && Attempts(w) && Progress(w) && Evidence(w) && Placed(w) && Lineage(w) && Named(w)
             && Redirecting(w)
    requires w'.shared == w.shared && w'.routes == w.routes && w'.alive == w.alive && w'.issued == w.issued
    requires w'.finished == w.finished && w'.abandoned == w.abandoned && w'.origin == w.origin && w'.known == w.known
    requires forall sp, id :: Open(w', sp, id) <==> Open(w, sp, id)
    requires forall sp :: IsRunning(w, sp) ==> IsRunning(w', sp)
    ensures Ids(w') && Chains(w') && Attempts(w') && Progress(w') && Evidence(w') && Placed(w') && Lineage(w')
    ensures Named(w') && Redirecting(w')
  {
    SameSharedFacts(w, w');
    hide Holds, Msg, Req, Reply, Open, IsRunning;
    ReadLineage(w, w');
    hide Lineage;
    ReadProgress(w, w');
    hide Progress;
    AbandonedIdsSame(w, w');
    hide Ids, Chains, Evidence;
  }

  lemma AbandonedIdsSame(w: World, w': World)
    requires Ids(w) && Chains(w) && Evidence(w)
    requires w'.shared == w.shared && w'.issued == w.issued && w'.finished == w.finished && w'.abandoned == w.abandoned
    ensures Ids(w') && Chains(w') && Evidence(w')
  {
    SameSharedFacts(w, w');
    hide Holds, Msg, Req, Reply;
  }

  lemma ReadLineage(w: World, w': World)
    requires Lineage(w)
    requires w'.shared == w.shared && w'.routes == w.routes && w'.alive <= w.alive && w'.issued == w.issued
    requires w'.finished == w.finished && w'.origin == w.origin && w'.known == w.known
    requires forall sp :: IsRunning(w, sp) && sp.partition in w'.alive ==> IsRunning(w', sp)
    ensures Lineage(w')
  {
    SameSharedFacts(w, w');
    hide Holds, Msg, Req, Reply, Open, IsRunning;
    forall c | c in w'.origin && c !in w'.finished && w'.routes.PartitionOf(w'.origin[c].node) in w'.alive
      ensures CallerRuns(w', c)
    {
      var sp :| IsRunning(w, sp) && Req(w, sp, w.origin[c].parent)
      && sp.partition == w.routes.PartitionOf(w.origin[c].node);
      assert IsRunning(w', sp) && Req(w', sp, w'.origin[c].parent);
    }
  }

  lemma ReadProgress(w: World, w': World)
    requires Progress(w) && w'.shared == w.shared && w'.alive <= w.alive && w'.issued == w.issued
    requires w'.finished == w.finished && w'.abandoned == w.abandoned
    requires forall sp, id :: Open(w, sp, id) && sp.partition in w'.alive ==> Open(w', sp, id)
    ensures Progress(w')
  {
    SameSharedFacts(w, w');
    hide Holds, Msg, Req, Reply, Open, IsRunning;
    forall id | id in w'.issued && !Settled(w', id)
      ensures exists sp :: Req(w', sp, id)
    {
      var sp :| Req(w, sp, id);
      assert Req(w', sp, id);
    }
    forall sp, id | Req(w', sp, id) && sp.partition in w'.alive && !Open(w', sp, id) && !Settled(w', id)
      ensures Superseded(w', sp, id)
    {
      assert Req(w, sp, id);
      var sp2 :| Req(w, sp2, id) && Num(w, sp) < Num(w, sp2) && (Locked(w, sp2) ==> sp2.partition == sp.partition);
      assert Req(w', sp2, id);
    }
  }

  // ----- crash -----

  lemma CrashOpen(w: World, p: nat, w': World)
    requires Crash(w, p, w')
    ensures forall sp, id :: Open(w', sp, id) <==> Open(w, sp, id) && sp.partition != p
    ensures forall sp :: IsRunning(w', sp) <==> IsRunning(w, sp) && sp.partition != p
  {
    SameSharedFacts(w, w');
    hide Req, Holds, Msg;
  }

  lemma CrashKeeps(w: World, p: nat, w': World)
    requires Inv(w) && Crash(w, p, w')
    ensures Inv(w')
  {
    SameSharedFacts(w, w');
    CrashOpen(w, p, w');
    CrashShape(w, p, w');
    hide Holds, Msg, Req, Reply, Open, IsRunning, Shape;
    TargetsKept(w, w');
    hide Targets;
    ReadLineage(w, w');
    hide Lineage;
    ReadProgress(w, w');
    hide Progress;
    AbandonedIdsSame(w, w');
    hide Ids, Chains, Evidence;
    CrashWaits(w, p, w');
    hide Waits;
  }

  lemma CrashShape(w: World, p: nat, w': World)
    requires Shape(w) && Crash(w, p, w')
    ensures Shape(w')
  {
    SameSharedFacts(w, w');
    assert forall q :: Log(w', q) == Log(w, q);
    assert forall q :: Head(w', q) == Head(w, q);
    hide Msg, Log, Head;
  }

  lemma CrashWaits(w: World, p: nat, w': World)
    requires Waits(w) && Crash(w, p, w')
    ensures Waits(w')
  {
    SameSharedFacts(w, w');
    CrashOpen(w, p, w');
    hide Holds, Msg, Req, Open, IsRunning;
    assert Fewer(w, w');
    NamedKept(w, w');
    RedirectingKept(w, w');
    OrderedKept(w, w');
    hide Named, Redirecting, Ordered, Fewer;
    forall sp, id | Open(w', sp, id) && Child(w', sp) != "" && !IsRunning(w', sp) && Child(w', sp) in w'.finished
      ensures ReplyAhead(w', sp, Child(w', sp))
    {
      assert Open(w, sp, id);
      var c := Child(w, sp);
      var j: nat :| j > sp.offset && j >= Head(w, sp.partition)
        && Reply(w, Spot(sp.partition, j), c) && Msg(w, Spot(sp.partition, j)).Response?;
      assert Reply(w', Spot(sp.partition, j), c);
    }
  }
}
