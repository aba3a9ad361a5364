/** Recovery keeps the invariant, hence every run does. */
module ProtocolInvariant {
  import opened Messages
  import opened RecoverySpec
  import opened RecoveryTables
  import opened Routing
  import opened Protocol
  import opened ProtocolSteps
  import opened ProtocolRecovery

  /** Partitions whose records outlive the recovery. */
  predicate Survives(p: nat, live: set<nat>) { p == 0 || p in live }

  /** Recovery as the invariant sees it: which records stay, which are added, and why. */
  ghost predicate Recovered(w: World, w': World, claims: seq<nat>, live: set<nat>) {
    && (forall sp :: Holds(w', sp) ==> Survives(sp.partition, live))
    && (forall sp :: Holds(w, sp) && Survives(sp.partition, live) ==> Holds(w', sp) && Msg(w', sp) == Msg(w, sp))
    && (forall sp, id :: Added(w, w', sp) && Req(w', sp, id) ==>
          MustRetry(Entries(w, claims), live, id) && IsRetry(Entries(w, claims), id, Msg(w', sp)))
    && (forall sp, id :: Added(w, w', sp) && Reply(w', sp, id) ==>
          MustConfirm(Entries(w, claims), live, id) && Confirms(Entries(w, claims), live, Msg(w', sp), sp.partition))
    && Single(w, w')
  }

  /** A record in partition p that stands in for a reply of the same request and deadline in a dead partition. */
  ghost predicate Confirms(es: seq<Entry>, live: set<nat>, m: Message, p: nat) {
    m.Done? && p == 0 && Echoes(es, live, Confirm(m.id, m.deadline))
  }

  /** The retry of id was written where a node will read it, or its service has no node and partition 0 keeps it. */
  ghost predicate Dispatched(w: World, w': World, claims: seq<nat>, id: string) {
    exists m ::
      && IsRetry(Entries(w, claims), id, m)
      && if w'.routes.Offering(ServiceOf(m)) != [] then
           exists sp :: Added(w, w', sp) && Req(w', sp, id) && Msg(w', sp) == m && sp.partition != 0
         else
           || Parked(Entries(w, claims), id)
           || exists sp :: Added(w, w', sp) && Req(w', sp, id) && Msg(w', sp) == m && sp.partition == 0
  }

  ghost predicate Delivered(w: World, w': World, claims: seq<nat>, live: set<nat>) {
    && (forall id :: MustRetry(Entries(w, claims), live, id) ==> Dispatched(w, w', claims, id))
    && (forall id :: MustConfirm(Entries(w, claims), live, id) ==> exists sp :: Reply(w', sp, id))
    && (forall sp, id :: Added(w, w', sp) && Req(w', sp, id) ==>
          && (sp.partition == 0 <==> w'.routes.Offering(ServiceOf(Msg(w', sp))) == [])
          && (sp.partition == 0 ==> !Parked(Entries(w, claims), id)))
  }

  /** Deleting dead partitions removes exactly the records that do not survive. */
  lemma EmptiedFacts(w: World, v: World, w': World, claims: seq<nat>, actions: seq<Action>, n: nat, live: set<nat>)
    requires n <= |actions| && Claims(w, claims) && Sourced(w, v, actions, n, live)
    requires w'.shared == Emptied(v.shared, DeadClaims(claims, live))
    ensures forall sp :: Holds(w', sp) <==> Holds(v, sp) && Survives(sp.partition, live)
    ensures forall sp :: Holds(w', sp) ==> Msg(w', sp) == Msg(v, sp)
  {
    forall sp
      ensures Holds(w', sp) <==> Holds(v, sp) && Survives(sp.partition, live)
      ensures Holds(w', sp) ==> Msg(w', sp) == Msg(v, sp)
    {
      var p := sp.partition;
      if Survives(p, live) {
        assert Log(w', p) == Log(v, p);
      } else if p in claims {
        assert Log(w', p) == [];
      } else {
        assert Log(w, p) == [];
        assert !Added(w, v, sp);
      }
    }
  }

  lemma RecoveredFrom(w: World, v: World, w': World, claims: seq<nat>, actions: seq<Action>, live: set<nat>)
    requires Claims(w, claims) && Sane(actions) && Decides(Entries(w, claims), live, actions)
    requires Sourced(w, v, actions, |actions|, live) && Single(w, v)
    requires forall sp :: Holds(w', sp) <==> Holds(v, sp) && Survives(sp.partition, live)
    requires forall sp :: Holds(w', sp) ==> Msg(w', sp) == Msg(v, sp)
    ensures Recovered(w, w', claims, live)
  {
    hide Holds, Msg, Claims, MustRetry, IsRetry, MustConfirm, Parked, Echoes;
    forall sp | Added(w, w', sp)
      ensures Added(w, v, sp)
      ensures forall id :: Req(w', sp, id) ==> MustRetry(Entries(w, claims), live, id)
                                               && IsRetry(Entries(w, claims), id, Msg(w', sp))
      ensures forall id :: Reply(w', sp, id) ==>
                && MustConfirm(Entries(w, claims), live, id)
                && Confirms(Entries(w, claims), live, Msg(w', sp), sp.partition)
    {
      var a :| 0 <= a < |actions| && Produced(actions[a], Msg(v, sp), sp.partition, live);
    }
    forall sp, sp2, id | Added(w, w', sp) && Added(w, w', sp2) && Req(w', sp, id) && Req(w', sp2, id)
      ensures sp == sp2
    {
      assert Req(v, sp, id) && Req(v, sp2, id);
    }
  }

  lemma DeliveredFrom(w: World, v: World, w': World, claims: seq<nat>, actions: seq<Action>, live: set<nat>)
    requires Sane(actions) && Decides(Entries(w, claims), live, actions)
    requires Sourced(w, v, actions, |actions|, live) && Offered(w, v)
    requires forall a :: 0 <= a < |actions| ==> Landed(w, v, actions[a])
    requires v.routes == w'.routes
    requires forall sp :: Holds(w', sp) <==> Holds(v, sp) && Survives(sp.partition, live)
    requires forall sp :: Holds(w', sp) ==> Msg(w', sp) == Msg(v, sp)
    ensures Delivered(w, w', claims, live)
  {
    hide Holds, Msg, MustRetry, IsRetry, MustConfirm, Parked;
    forall id | MustRetry(Entries(w, claims), live, id)
      ensures Dispatched(w, w', claims, id)
    {
      var i :| 0 <= i < |actions| && Resends(actions[i], id);
      var m := actions[i].retry;
      assert Landed(w, v, actions[i]);
      if !(actions[i].drop && w'.routes.Offering(ServiceOf(m)) == []) {
        var sp :| Added(w, v, sp) && Msg(v, sp) == m && (sp.partition == 0 <==> v.routes.Offering(ServiceOf(m)) == []);
        AddedSurvives(w, v, actions, live, sp);
        assert Added(w, w', sp) && Req(w', sp, id);
      }
    }
    forall id | MustConfirm(Entries(w, claims), live, id)
      ensures exists sp :: Reply(w', sp, id)
    {
      var i :| 0 <= i < |actions| && actions[i].Confirm? && actions[i].id == id;
      assert Landed(w, v, actions[i]);
      var sp :| Added(w, v, sp) && Reply(v, sp, id);
      AddedSurvives(w, v, actions, live, sp);
      assert Reply(w', sp, id);
    }
    forall sp, id | Added(w, w', sp) && Req(w', sp, id)
      ensures sp.partition == 0 <==> w'.routes.Offering(ServiceOf(Msg(w', sp))) == []
      ensures sp.partition == 0 ==> !Parked(Entries(w, claims), id)
    {
      WrittenWhere(w, v, w', claims, actions, live, sp, id);
    }
  }

  /** Where a retry that was written went. */
  lemma WrittenWhere(w: World, v: World, w': World, claims: seq<nat>, actions: seq<Action>, live: set<nat>, sp: Spot,
                     id: string)
    requires Sane(actions) && Decides(Entries(w, claims), live, actions) && Sourced(w, v, actions, |actions|, live)
             && Offered(w, v)
    requires v.routes == w'.routes && Added(w, w', sp) && Req(w', sp, id) && Holds(v, sp) && Msg(w', sp) == Msg(v, sp)
    ensures sp.partition == 0 <==> w'.routes.Offering(ServiceOf(Msg(w', sp))) == []
    ensures sp.partition == 0 ==> !Parked(Entries(w, claims), id)
  {
    assert Added(w, v, sp);
    hide Holds, Msg, MustRetry, IsRetry, MustConfirm, Parked;
    var a :| 0 <= a < |actions| && Produced(actions[a], Msg(v, sp), sp.partition, live);
  }

  lemma AddedSurvives(w: World, v: World, actions: seq<Action>, live: set<nat>, sp: Spot)
    requires Sourced(w, v, actions, |actions|, live) && Added(w, v, sp)
    ensures Survives(sp.partition, live)
  {
    var a :| 0 <= a < |actions| && Produced(actions[a], Msg(v, sp), sp.partition, live);
  }

  /** Redirects after recovery: retries that reached a node are pointed at, callees of other requests are untouched. */
  ghost predicate Repointed(w: World, w': World, claims: seq<nat>, live: set<nat>) {
    && (forall sp, id :: Added(w, w', sp) && Req(w', sp, id) && Child(w', sp) != "" && sp.partition != 0 ==>
          Child(w', sp) in w'.shared.redirects
          && w'.routes.PartitionOf(w'.shared.redirects[Child(w', sp)]) == sp.partition)
    && (forall c :: c in w.origin && !MustRetry(Entries(w, claims), live, w.origin[c].parent) ==>
          (c in w'.shared.redirects <==> c in w.shared.redirects)
          && (c in w.shared.redirects ==> w'.shared.redirects[c] == w.shared.redirects[c]))
  }

  lemma RepointedFrom(w: World, v: World, w': World, claims: seq<nat>, actions: seq<Action>, live: set<nat>)
    requires Claims(w, claims) && Ids(w) && Evidence(w) && Lineage(w)
    requires Sane(actions) && Decides(Entries(w, claims), live, actions)
    requires Sourced(w, v, actions, |actions|, live) && Pointed(w, v, actions, |actions|)
             && Untouched(w, v, actions, |actions|)
    requires v.routes == w'.routes && w'.shared.redirects == v.shared.redirects
    requires forall sp :: Holds(w', sp) <==> Holds(v, sp) && Survives(sp.partition, live)
    requires forall sp :: Holds(w', sp) ==> Msg(w', sp) == Msg(v, sp)
    ensures Repointed(w, w', claims, live)
  {
    forall sp, id | Added(w, w', sp) && Req(w', sp, id) && Child(w', sp) != "" && sp.partition != 0
      ensures Child(w', sp) in w'.shared.redirects
      ensures w'.routes.PartitionOf(w'.shared.redirects[Child(w', sp)]) == sp.partition
    {
      hide Holds, Msg, Claims, Ids, Evidence, Lineage;
      var a :| 0 <= a < |actions| && Produced(actions[a], Msg(v, sp), sp.partition, live);
      assert PointsTo(w, v, actions[a], Child(w', sp), sp);
    }
    forall c | c in w.origin && !MustRetry(Entries(w, claims), live, w.origin[c].parent)
      ensures forall a :: 0 <= a < |actions| ==> !NamesChild(actions[a], c)
    {
      forall a | 0 <= a < |actions|
        ensures !NamesChild(actions[a], c)
      {
        if NamesChild(actions[a], c) {
          assert c != "";
          RetryHasId(w, claims, actions[a].retry);
          ChildOrigin(w, claims, actions[a].retry.id, actions[a].retry);
        }
      }
    }
  }

  lemma RecoverFacts(w: World, r: Routes, claims: seq<nat>, actions: seq<Action>, picks: seq<string>, w': World)
    requires Inv(w) && Recover(w, r, claims, actions, picks, w')
    ensures Recovered(w, w', claims, r.Live()) && Delivered(w, w', claims, r.Live())
            && Repointed(w, w', claims, r.Live())
    ensures Placed(w')
  {
    var live := r.Live();
    DecidesSane(w, claims, live, actions);
    DecidesOwnChildren(w, claims, live, actions);
    PlacedNext(w, r);
    HalfwayAll(w, r, actions, picks, |actions|);
    var v := Midway(w, r, actions, picks, |actions|);
    assert actions[..|actions|] == actions && picks[..|picks|] == picks;
    assert w'.shared == Emptied(v.shared, DeadClaims(claims, live));
    hide Inv, Midway, Decides, Claims, Sourced, Single, Landed, Pointed, Untouched, Sane, OwnChildren, MayPickAll,
         NextGeneration;
    EmptiedFacts(w, v, w', claims, actions, |actions|, live);
    RecoveredFrom(w, v, w', claims, actions, live);
    DeliveredFrom(w, v, w', claims, actions, live);
    FactsRest(w, v, w', claims, actions, live);
  }

  lemma FactsRest(w: World, v: World, w': World, claims: seq<nat>, actions: seq<Action>, live: set<nat>)
    requires Inv(w) && Claims(w, claims) && Sane(actions) && Decides(Entries(w, claims), live, actions)
    requires Halfway(w, v, actions, |actions|) && v.routes == w'.routes && v.routes.Live() == live
    requires w'.shared.redirects == v.shared.redirects && w'.shared.placements == v.shared.placements
    requires forall sp :: Holds(w', sp) <==> Holds(v, sp) && Survives(sp.partition, live)
    requires forall sp :: Holds(w', sp) ==> Msg(w', sp) == Msg(v, sp)
    ensures Repointed(w, w', claims, live) && Placed(w')
  {
    RepointedFrom(w, v, w', claims, actions, live);
    hide Holds, Msg, Inv, Sourced, Repointed, Decides, Place, Survives;
    forall sp, id | Req(w', sp, id)
      ensures Req(v, sp, id) && Msg(w', sp) == Msg(v, sp)
    {
    }
    PlacedKept(v, w');
  }

  // ----- the invariant after recovery -----

  /** What recovery changes besides the shared state. */
  ghost predicate Restarted(w: World, r: Routes, w': World) {
    && w'.routes == r && w'.alive == r.Live() && w'.phase == w.phase
    && w'.head == (map p | p in r.Live() :: if p in w.alive then Head(w, p) else 0)
    && w'.issued == w.issued && w'.finished == w.finished && w'.abandoned == w.abandoned && w'.origin == w.origin
    && w'.known == w.known + r.partitions.Keys
  }

  /** Where the old attempts are after recovery, and that every new request on a node is open. */
  lemma RecoverOpen(w: World, r: Routes, claims: seq<nat>, w': World)
    requires Shape(w) && NextGeneration(w, r) && Restarted(w, r, w') && Recovered(w, w', claims, r.Live())
    ensures w.alive <= r.Live()
    ensures forall sp, id :: Open(w', sp, id) && Holds(w, sp) ==> Open(w, sp, id)
    ensures forall sp, id :: Open(w, sp, id) ==> Open(w', sp, id)
    ensures forall sp, id :: Added(w, w', sp) && Req(w', sp, id) && sp.partition in r.Live() ==> Open(w', sp, id)
  {
    AliveStays(w, r);
    forall sp, id | Req(w, sp, id) && Survives(sp.partition, r.Live())
      ensures Req(w', sp, id)
      ensures Open(w', sp, id) <==> Open(w, sp, id)
    {
      hide Msg, Recovered;
      assert Holds(w', sp) && Msg(w', sp) == Msg(w, sp) by {
        RecoveredOld(w, w', claims, r.Live(), sp);
      }
      if sp.partition in r.Live() {
        LiveIsAlive(w, r, sp);
      }
    }
    forall sp, id | Open(w', sp, id) && Holds(w, sp)
      ensures Open(w, sp, id)
    {
      hide Shape, NextGeneration;
      assert Req(w, sp, id);
    }
    forall sp, id | Added(w, w', sp) && Req(w', sp, id) && sp.partition in r.Live()
      ensures Open(w', sp, id)
    {
      hide Recovered, NextGeneration;
    }
  }

  lemma RecoveredOld(w: World, w': World, claims: seq<nat>, live: set<nat>, sp: Spot)
    requires Recovered(w, w', claims, live) && Holds(w, sp) && Survives(sp.partition, live)
    ensures Holds(w', sp) && Msg(w', sp) == Msg(w, sp)
  {}

  lemma AliveStays(w: World, r: Routes)
    requires Shape(w) && NextGeneration(w, r)
    ensures w.alive <= r.Live()
  {
    forall p | p in w.alive
      ensures p in r.Live()
    {
      var n :| n in w.routes.partitions && w.routes.partitions[n] != 0 && w.routes.partitions[n] == p;
      assert r.partitions[n] == p;
    }
  }

  lemma HeadStays(w: World, r: Routes, claims: seq<nat>, w': World, p: nat)
    requires Shape(w) && Restarted(w, r, w') && Recovered(w, w', claims, r.Live()) && p in w'.alive
    ensures Head(w', p) <= |Log(w', p)|
  {
    if p in w.alive && Head(w, p) > 0 {
      assert Holds(w, Spot(p, Head(w, p) - 1)) && Survives(p, r.Live());
      hide Shape;
      RecoveredOld(w, w', claims, r.Live(), Spot(p, Head(w, p) - 1));
    }
  }

  lemma RecoverShape(w: World, r: Routes, claims: seq<nat>, w': World)
    requires Shape(w) && NextGeneration(w, r) && Restarted(w, r, w') && Recovered(w, w', claims, r.Live())
    ensures Shape(w')
  {
    AliveStays(w, r);
    forall p | p in w'.alive ensures Head(w', p) <= |Log(w', p)| { HeadStays(w, r, claims, w', p); }
    forall sp | sp in w'.phase
      ensures Holds(w', sp) && sp.partition in w'.alive && sp.offset < Head(w', sp.partition) && Msg(w', sp).IsRequest()
    {
      RecoveredOld(w, w', claims, r.Live(), sp);
    }
    forall p | p != 0 && p !in r.Live()
      ensures Log(w', p) == []
    {
      assert !Holds(w', Spot(p, 0));
    }
    hide Recovered, Shape, Holds, Msg, Log, Head;
  }

  /** The restart of a retried request, and where it comes from. */
  lemma RetriedRestart(w: World, claims: seq<nat>, live: set<nat>, id: string, m: Message)
      returns (top: Spot, start: Spot)
    requires Claims(w, claims) && Ids(w) && Chains(w)
    requires MustRetry(Entries(w, claims), live, id) && IsRetry(Entries(w, claims), id, m)
    ensures Restart(w, id, top, start) && top.partition !in live && m.sequence == Num(w, start)
    ensures m.id == id && m == Retry(Msg(w, top), m.sequence, m.child) && IsLatest(Entries(w, claims), id, Msg(w, top))
  {
    var es := Entries(w, claims);
    top := RetrySource(w, claims, id, m);
    start := FindRestart(w, claims, id, top);
    EntriesWellFormed(w, claims);
    ChainStartUnique(es, id, m.sequence, Num(w, start));
    HeldTop(w, claims, live, id);
  }

  lemma RetriedUnfinished(w: World, claims: seq<nat>, live: set<nat>, id: string, sp: Spot)
    requires Claims(w, claims) && Ids(w) && Evidence(w) && MustRetry(Entries(w, claims), live, id) && Req(w, sp, id)
    ensures id !in w.finished && id in w.issued && id != ""
  {
    FinishedCompleted(w, claims, sp, id);
  }

  lemma RecoverIds(w: World, claims: seq<nat>, live: set<nat>, w': World)
    requires Claims(w, claims) && Ids(w) && Chains(w) && Recovered(w, w', claims, live)
    requires w'.issued == w.issued && w'.finished == w.finished && w'.abandoned == w.abandoned
    ensures Ids(w')
  {
    forall sp, id | Req(w', sp, id)
      ensures id != "" && 0 <= Num(w', sp) < COMPLETED && id in w'.issued && !Msg(w', sp).target.Node?
    {
      if Holds(w, sp) {
        RecoveredOld(w, w', claims, live, sp);
        assert Req(w, sp, id);
      } else {
        var top, start := RetriedRestart(w, claims, live, id, Msg(w', sp));
        hide Recovered;
        assert Req(w, top, id) && Req(w, start, id);
      }
    }
    forall sp, id | Reply(w', sp, id)
      ensures id in w'.finished
    {
      if Holds(w, sp) {
        RecoveredOld(w, w', claims, live, sp);
        assert Reply(w, sp, id);
      } else {
        assert Added(w, w', sp);
        var e :| e in Entries(w, claims) && e.partition !in live && e.partition != 0 && Answers(e, id);
        var sp2 := EntrySpot(w, claims, e);
        assert Reply(w, sp2, id);
      }
    }
  }

  /** What the new request for id says about the old records of id. */
  ghost predicate Fresh(w: World, w': World, live: set<nat>, sp: Spot, id: string, top: Spot, start: Spot) {
    && Restart(w, id, top, start) && top.partition !in live
    && !Locked(w', sp) && Num(w', sp) == Num(w, start)
    && id !in w.finished && (forall x :: TopAt(w, x, id) ==> x.partition !in live)
  }

  lemma FreshRequest(w: World, claims: seq<nat>, live: set<nat>, w': World, sp: Spot, id: string)
      returns (top: Spot, start: Spot)
    requires Claims(w, claims) && Ids(w) && Chains(w) && Evidence(w) && Recovered(w, w', claims, live)
    requires Added(w, w', sp) && Req(w', sp, id)
    ensures Fresh(w, w', live, sp, id, top, start)
    ensures Msg(w', sp) == Retry(Msg(w, top), Num(w', sp), Child(w', sp))
    ensures IsRetry(Entries(w, claims), id, Msg(w', sp)) && IsLatest(Entries(w, claims), id, Msg(w, top))
  {
    top, start := RetriedRestart(w, claims, live, id, Msg(w', sp));
    RetriedUnfinished(w, claims, live, id, top);
    HeldTop(w, claims, live, id);
  }

  lemma RecoverChains(w: World, claims: seq<nat>, live: set<nat>, w': World)
    requires Claims(w, claims) && Ids(w) && Chains(w) && Evidence(w) && Recovered(w, w', claims, live)
    ensures Chains(w')
  {
    forall sp, id | Req(w', sp, id) && Locked(w', sp)
      ensures Req(w, sp, id) && Locked(w, sp) && Num(w', sp) == Num(w, sp)
      ensures exists sp2 :: Req(w', sp2, id) && sp2.partition == sp.partition && Num(w', sp2) == Num(w', sp) - 1
    {
      LockedIsOld(w, claims, live, w', sp, id);
      var sp2 :| Req(w, sp2, id) && sp2.partition == sp.partition && Num(w, sp2) == Num(w, sp) - 1;
      RecoveredOld(w, w', claims, live, sp2);
      assert Req(w', sp2, id);
    }
    forall sp, sp2, id | Req(w', sp, id) && Locked(w', sp) && Req(w', sp2, id) && Num(w', sp2) == Num(w', sp)
      ensures sp == sp2
    {
      LockedIsOld(w, claims, live, w', sp, id);
      if Holds(w, sp2) {
        RecoveredOld(w, w', claims, live, sp2);
        assert Req(w, sp2, id);
      } else {
        var top, start := FreshRequest(w, claims, live, w', sp2, id);
      }
    }
  }

  lemma LockedIsOld(w: World, claims: seq<nat>, live: set<nat>, w': World, sp: Spot, id: string)
    requires Claims(w, claims) && Ids(w) && Chains(w) && Evidence(w) && Recovered(w, w', claims, live)
    requires Req(w', sp, id) && Locked(w', sp)
    ensures Req(w, sp, id) && Locked(w, sp) && Num(w', sp) == Num(w, sp) && Survives(sp.partition, live)
  {
    if Holds(w, sp) {
      RecoveredOld(w, w', claims, live, sp);
    } else {
      var top, start := FreshRequest(w, claims, live, w', sp, id);
    }
  }

  lemma FreshAddress(w: World, claims: seq<nat>, live: set<nat>, w': World, sp: Spot, id: string, y: Spot)
    requires Claims(w, claims) && Ids(w) && Chains(w) && Targets(w) && Evidence(w) && Recovered(w, w', claims, live)
    requires Added(w, w', sp) && Req(w', sp, id) && Req(w, y, id) && Num(w, y) == Num(w', sp)
    ensures AddressOf(Msg(w', sp)) == AddressOf(Msg(w, y))
  {
    var top, start := FreshRequest(w, claims, live, w', sp, id);
    assert AddressOf(Msg(w', sp)) == AddressOf(Msg(w, top));
    hide Recovered, Evidence;
    RestartAddress(w, claims, id, top, start);
    assert Req(w, start, id);
    hide Holds, Msg, AddressOf, Chains;
  }

  lemma RecoverTargets(w: World, claims: seq<nat>, live: set<nat>, w': World)
    requires Claims(w, claims) && Ids(w) && Chains(w) && Targets(w) && Evidence(w) && Recovered(w, w', claims, live)
    ensures Targets(w')
  {
    forall sp, id | Req(w', sp, id) && Holds(w, sp)
      ensures Req(w, sp, id) && Msg(w', sp) == Msg(w, sp)
    {
      hide Chains, Ids, Evidence, Targets;
      RecoveredOld(w, w', claims, live, sp);
    }
    forall sp, sp2, id | Req(w', sp, id) && Req(w', sp2, id) && Num(w', sp) == Num(w', sp2)
      ensures AddressOf(Msg(w', sp)) == AddressOf(Msg(w', sp2))
    {
      hide Claims, Chains, Ids, Evidence, Msg;
      if !Holds(w, sp) && Holds(w, sp2) {
        FreshAddress(w, claims, live, w', sp, id, sp2);
      } else if Holds(w, sp) && !Holds(w, sp2) {
        FreshAddress(w, claims, live, w', sp2, id, sp);
      } else if !Holds(w, sp) {
        assert Added(w, w', sp) && Added(w, w', sp2);
      }
    }
    forall sp, sp2, id | Req(w', sp, id) && Req(w', sp2, id) && Locked(w', sp) && Num(w', sp2) == Num(w', sp) - 1
      ensures AddressOf(Msg(w', sp)) == AddressOf(Msg(w', sp2))
    {
      LockedIsOld(w, claims, live, w', sp, id);
      if !Holds(w, sp2) {
        var top, start := FreshRequest(w, claims, live, w', sp2, id);
      }
    }
  }

  lemma RecoverAttempts(w: World, r: Routes, claims: seq<nat>, w': World)
    requires Shape(w) && Ids(w) && Chains(w) && Evidence(w) && Attempts(w) && Claims(w, claims)
    requires NextGeneration(w, r) && Restarted(w, r, w') && Recovered(w, w', claims, r.Live())
    ensures Attempts(w')
  {
    RecoverOpen(w, r, claims, w');
    var live := r.Live();
    hide Shape, NextGeneration, Restarted;
    forall sp, id | Open(w', sp, id)
      ensures id !in w.finished
    {
      if !Holds(w, sp) {
        var top, start := FreshRequest(w, claims, live, w', sp, id);
      }
    }
    forall sp, sp2, id | Open(w', sp, id) && Req(w', sp2, id)
      ensures Num(w', sp2) <= Num(w', sp)
    {
      OpenIsTop(w, w', claims, live, sp, sp2, id);
    }
    forall sp, sp2, id | Open(w', sp, id) && Open(w', sp2, id)
      ensures sp == sp2
    {
      OpenIsAlone(w, w', claims, live, sp, sp2, id);
    }
    assert w'.finished == w.finished by {
      assert Restarted(w, r, w');
      RestartedFinished(w, r, w');
    }
  }

  lemma RestartedFinished(w: World, r: Routes, w': World)
    requires Restarted(w, r, w')
    ensures w'.finished == w.finished
  {}

  /** An attempt that was open in w holds the highest number, so its request is not retried. */
  lemma OpenNotRetried(w: World, w': World, claims: seq<nat>, live: set<nat>, sp: Spot, sp2: Spot, id: string)
    requires Claims(w, claims) && Ids(w) && Chains(w) && Evidence(w) && Attempts(w) && Recovered(w, w', claims, live)
    requires Open(w, sp, id) && sp.partition in live && Req(w', sp2, id)
    ensures Req(w, sp2, id) && Msg(w', sp2) == Msg(w, sp2)
  {
    if Holds(w, sp2) {
      assert Survives(sp2.partition, live);
      RecoveredOld(w, w', claims, live, sp2);
    } else {
      var top, start := FreshRequest(w, claims, live, w', sp2, id);
      assert TopAt(w, sp, id);
      assert false;
    }
  }

  lemma OpenIsTop(w: World, w': World, claims: seq<nat>, live: set<nat>, sp: Spot, sp2: Spot, id: string)
    requires Claims(w, claims) && Ids(w) && Chains(w) && Evidence(w) && Attempts(w) && Recovered(w, w', claims, live)
    requires Open(w', sp, id) && Req(w', sp2, id) && w'.alive == live
    requires Holds(w, sp) ==> Open(w, sp, id)
    ensures Num(w', sp2) <= Num(w', sp)
  {
    if Holds(w, sp) {
      OpenNotRetried(w, w', claims, live, sp, sp2, id);
      OpenNotRetried(w, w', claims, live, sp, sp, id);
    } else {
      hide Attempts;
      FreshIsTop(w, w', claims, live, sp, sp2, id);
    }
  }

  /** A retry carries the highest number of its request. */
  lemma FreshIsTop(w: World, w': World, claims: seq<nat>, live: set<nat>, sp: Spot, sp2: Spot, id: string)
    requires Claims(w, claims) && Ids(w) && Chains(w) && Evidence(w) && Recovered(w, w', claims, live)
    requires Added(w, w', sp) && Req(w', sp, id) && Req(w', sp2, id)
    ensures Num(w', sp2) <= Num(w', sp)
  {
    hide Claims, Ids, Chains, Evidence, IsRetry, IsLatest, Retry;
    if Holds(w, sp2) {
      var top, start := FreshRequest(w, claims, live, w', sp, id);
      OldSurvives(w, w', claims, live, sp2);
      assert Req(w, sp2, id);
    } else {
      assert Added(w, w', sp2);
    }
  }

  lemma OldSurvives(w: World, w': World, claims: seq<nat>, live: set<nat>, sp: Spot)
    requires Recovered(w, w', claims, live) && Holds(w', sp) && Holds(w, sp)
    ensures Msg(w', sp) == Msg(w, sp)
  {
    assert Survives(sp.partition, live);
    RecoveredOld(w, w', claims, live, sp);
  }

  lemma OpenIsAlone(w: World, w': World, claims: seq<nat>, live: set<nat>, sp: Spot, sp2: Spot, id: string)
    requires Claims(w, claims) && Ids(w) && Chains(w) && Evidence(w) && Attempts(w) && Recovered(w, w', claims, live)
    requires Open(w', sp, id) && Open(w', sp2, id) && w'.alive == live
    requires Holds(w, sp) ==> Open(w, sp, id)
    requires Holds(w, sp2) ==> Open(w, sp2, id)
    ensures sp == sp2
  {
    if Holds(w, sp) {
      OpenNotRetried(w, w', claims, live, sp, sp2, id);
    } else if Holds(w, sp2) {
      OpenNotRetried(w, w', claims, live, sp2, sp, id);
    } else {
      assert Added(w, w', sp) && Added(w, w', sp2);
    }
  }

  /**
   * After recovery an unfinished request is somewhere a node or a later recovery will find it, with a number at least
   * s.
   */
  lemma StillThere(w: World, claims: seq<nat>, live: set<nat>, w': World, low: Spot, id: string) returns (x: Spot)
    requires Claims(w, claims) && Ids(w) && Chains(w) && Evidence(w)
    requires Recovered(w, w', claims, live) && Delivered(w, w', claims, live)
    requires Req(w, low, id) && !Locked(w, low) && id !in w.finished
    ensures Req(w', x, id) && Num(w', x) >= Num(w, low) && !Locked(w', x)
  {
    var top := FindTop(w, claims, low, id);
    if held :| TopAt(w, held, id) && held.partition in live {
      var start := FindRestart(w, claims, id, held);
      x := start;
      RecoveredOld(w, w', claims, live, x);
    } else {
      var start := FindRestart(w, claims, id, top);
      UnheldIsRetried(w, claims, live, id, top, start);
      if added :| Added(w, w', added) && Req(w', added, id) {
        x := added;
        var t, st := FreshRequest(w, claims, live, w', added, id);
        assert Num(w, low) <= Num(w, st);
      } else {
        assert Parked(Entries(w, claims), id);
        x := ParkedSpot(w, claims, id);
        RecoveredOld(w, w', claims, live, x);
      }
    }
  }

  lemma ParkedSpot(w: World, claims: seq<nat>, id: string) returns (x: Spot)
    requires Claims(w, claims) && Chains(w) && Parked(Entries(w, claims), id)
    ensures TopAt(w, x, id) && x.partition == 0 && !Locked(w, x)
  {
    var e :| e in Entries(w, claims) && e.partition == 0 && Requests(e, id)
    && Highest(Entries(w, claims), id, e.msg.sequence);
    x := EntrySpot(w, claims, e);
    var top := HighestTop(w, claims, id, e.msg.sequence);
    assert Req(w, x, id);
  }

  lemma SomeUnlocked(w: World, claims: seq<nat>, sp: Spot, id: string) returns (low: Spot)
    requires Claims(w, claims) && Ids(w) && Chains(w) && Req(w, sp, id)
    ensures Req(w, low, id) && !Locked(w, low)
  {
    var top := FindTop(w, claims, sp, id);
    low := FindRestart(w, claims, id, top);
  }

  lemma RecoverProgress(w: World, r: Routes, claims: seq<nat>, w': World)
    requires Shape(w) && Ids(w) && Chains(w) && Evidence(w) && Progress(w) && Claims(w, claims)
    requires NextGeneration(w, r) && Restarted(w, r, w')
    requires Recovered(w, w', claims, r.Live()) && Delivered(w, w', claims, r.Live())
    ensures Progress(w')
  {
    var live := r.Live();
    RecoverOpen(w, r, claims, w');
    forall id | id in w'.issued && !Settled(w', id)
      ensures exists sp :: Req(w', sp, id)
    {
      hide Shape, NextGeneration, Chains, Ids, Evidence, Recovered, Delivered, Claims;
      var sp :| Req(w, sp, id);
      var low := SomeUnlocked(w, claims, sp, id);
      var x := StillThere(w, claims, live, w', low, id);
    }
    forall sp, id | Req(w', sp, id) && sp.partition in w'.alive && !Open(w', sp, id) && !Settled(w', id)
      ensures Superseded(w', sp, id)
    {
      hide Shape, Chains, Ids, Evidence, Delivered, Claims;
      assert Holds(w, sp);
      RecoveredOld(w, w', claims, live, sp);
      LiveIsAlive(w, r, sp);
      hide Recovered, NextGeneration;
      SupersededAfter(w, w', claims, live, sp, id);
    }
  }

  lemma SupersededAfter(w: World, w': World, claims: seq<nat>, live: set<nat>, sp: Spot, id: string)
    requires Claims(w, claims) && Ids(w) && Chains(w) && Evidence(w)
    requires Recovered(w, w', claims, live) && Delivered(w, w', claims, live)
    requires Superseded(w, sp, id) && Holds(w, sp) && Msg(w', sp) == Msg(w, sp) && sp.partition in live
             && id !in w.finished
    ensures Superseded(w', sp, id)
  {
    var sp2 :| Req(w, sp2, id) && Num(w, sp) < Num(w, sp2) && (Locked(w, sp2) ==> sp2.partition == sp.partition);
    if Locked(w, sp2) {
      RecoveredOld(w, w', claims, live, sp2);
      assert Req(w', sp2, id);
    } else {
      var x := StillThere(w, claims, live, w', sp2, id);
    }
  }

  lemma RecoverEvidence(w: World, claims: seq<nat>, live: set<nat>, w': World)
    requires Claims(w, claims) && Ids(w) && Chains(w) && Evidence(w) && w'.finished == w.finished && 0 !in live
    requires Recovered(w, w', claims, live) && Delivered(w, w', claims, live)
    ensures Evidence(w')
  {
    forall sp, id | Req(w', sp, id) && id in w'.finished
      ensures exists sp2 :: Reply(w', sp2, id)
    {
      if !Holds(w, sp) {
        var top, start := FreshRequest(w, claims, live, w', sp, id);
      } else {
        RecoveredOld(w, w', claims, live, sp);
        assert Req(w, sp, id);
        var y :| Reply(w, y, id);
        if z :| Reply(w, z, id) && Survives(z.partition, live) {
          RecoveredOld(w, w', claims, live, z);
          assert Reply(w', z, id);
        } else {
          ConfirmNeeded(w, claims, live, sp, y, id);
        }
      }
    }
  }

  /** A finished request whose replies all sit in dead partitions gets a Done. */
  lemma ConfirmNeeded(w: World, claims: seq<nat>, live: set<nat>, sp: Spot, y: Spot, id: string)
    requires Claims(w, claims) && Req(w, sp, id) && Survives(sp.partition, live) && Reply(w, y, id)
    requires forall z :: Reply(w, z, id) ==> !Survives(z.partition, live)
    ensures MustConfirm(Entries(w, claims), live, id)
  {
    var es := Entries(w, claims);
    SpotEntry(w, claims, sp);
    SpotEntry(w, claims, y);
    forall e | e in es && e.partition == 0
      ensures !Answers(e, id)
    {
      var z := EntrySpot(w, claims, e);
      assert Answers(e, id) ==> Reply(w, z, id);
    }
    assert Answers(Entry(y.partition, Msg(w, y)), id) && Requests(Entry(sp.partition, Msg(w, sp)), id);
  }

  /** m and v are calls by the same parent from the same node, or no calls. */
  predicate SameCall(m: Message, v: Message) {
    m.Call? == v.Call? && (v.Call? ==> m.parent == v.parent && m.caller == v.caller)
  }

  lemma RetryCall(w: World, claims: seq<nat>, live: set<nat>, w': World, sp: Spot, c: string) returns (src: Spot)
    requires Claims(w, claims) && Ids(w) && Chains(w) && Evidence(w) && Recovered(w, w', claims, live) && Req(w', sp, c)
    ensures Req(w, src, c) && SameCall(Msg(w', sp), Msg(w, src))
  {
    if Holds(w, sp) {
      assert Survives(sp.partition, live);
      RecoveredOld(w, w', claims, live, sp);
      src := sp;
    } else {
      var start;
      src, start := FreshRequest(w, claims, live, w', sp, c);
    }
  }

  lemma RecoverLineage(w: World, r: Routes, claims: seq<nat>, w': World)
    requires Shape(w) && Ids(w) && Chains(w) && Evidence(w) && Lineage(w) && Claims(w, claims)
    requires NextGeneration(w, r) && Restarted(w, r, w') && Recovered(w, w', claims, r.Live())
    ensures Lineage(w')
  {
    var live := r.Live();
    forall sp, c | Req(w', sp, c) ensures exists src :: Req(w, src, c) && SameCall(Msg(w', sp), Msg(w, src)) {
      hide Shape, NextGeneration, Lineage;
      var src := RetryCall(w, claims, live, w', sp, c);
    }
    forall c | c in w'.origin && c !in w'.finished && r.PartitionOf(w'.origin[c].node) in w'.alive
      ensures CallerRuns(w', c)
    {
      hide Recovered, Claims, Chains, Evidence;
      OriginStays(w, r, c);
      assert CallerRuns(w, c);
      var sp :| IsRunning(w, sp) && Req(w, sp, w.origin[c].parent)
      && sp.partition == w.routes.PartitionOf(w.origin[c].node);
      RecoveredOld(w, w', claims, live, sp);
      assert IsRunning(w', sp) && Req(w', sp, w'.origin[c].parent);
    }
    hide Shape, NextGeneration, Recovered, Chains, Evidence, Claims, Req, Msg, CallerRuns;
  }

  /** A node of the next generation that issued a call was running before. */
  lemma OriginStays(w: World, r: Routes, c: string)
    requires Shape(w) && Lineage(w) && NextGeneration(w, r) && c in w.origin && r.PartitionOf(w.origin[c].node) != 0
    ensures w.routes.PartitionOf(w.origin[c].node) == r.PartitionOf(w.origin[c].node)
    ensures w.routes.PartitionOf(w.origin[c].node) in w.alive
  {}

  /** The callee a new retry names was issued by the retried request, is unfinished, and its caller's node is gone. */
  lemma FreshChild(w: World, r: Routes, claims: seq<nat>, w': World, sp: Spot, id: string)
    requires Shape(w) && Ids(w) && Chains(w) && Evidence(w) && Attempts(w) && Lineage(w) && Claims(w, claims)
    requires NextGeneration(w, r) && Recovered(w, w', claims, r.Live())
    requires Added(w, w', sp) && Req(w', sp, id) && Child(w', sp) != ""
    ensures var c := Child(w', sp);
            c in w.origin && w.origin[c].parent == id && c !in w.finished && r.PartitionOf(w.origin[c].node) == 0
  {
    var c := Child(w', sp);
    var top, start := FreshRequest(w, claims, r.Live(), w', sp, id);
    assert Req(w, top, id);
    ChildOrigin(w, claims, id, Msg(w', sp));
    if r.PartitionOf(w.origin[c].node) != 0 {
      OriginStays(w, r, c);
      AliveStays(w, r);
      CallerIsTop(w, c);
    }
  }

  lemma CallerIsTop(w: World, c: string)
    requires Shape(w) && Attempts(w) && Lineage(w) && c in w.origin && c !in w.finished
    requires w.routes.PartitionOf(w.origin[c].node) in w.alive
    ensures exists x :: TopAt(w, x, w.origin[c].parent) && x.partition in w.alive
  {
    assert CallerRuns(w, c);
    var x :| IsRunning(w, x) && Req(w, x, w.origin[c].parent) && x.partition == w.routes.PartitionOf(w.origin[c].node);
    assert Open(w, x, w.origin[c].parent);
    assert TopAt(w, x, w.origin[c].parent);
  }

  lemma RecoverNamed(w: World, r: Routes, claims: seq<nat>, w': World)
    requires Shape(w) && Ids(w) && Chains(w) && Evidence(w) && Attempts(w) && Lineage(w) && Named(w)
             && Claims(w, claims)
    requires NextGeneration(w, r) && Restarted(w, r, w') && Recovered(w, w', claims, r.Live())
    ensures Named(w')
  {
    forall sp, id | Req(w', sp, id) && Child(w', sp) != ""
      ensures var c := Child(w', sp);
              c in w'.origin && w'.origin[c].parent == id && r.PartitionOf(w'.origin[c].node) == 0
    {
      if Holds(w, sp) {
        RecoveredOld(w, w', claims, r.Live(), sp);
        hide Shape, Recovered, Claims, Chains, Evidence, Attempts;
        assert Req(w, sp, id);
        if r.PartitionOf(w.origin[Child(w, sp)].node) != 0 {
          OriginStays(w, r, Child(w, sp));
        }
      } else {
        hide Shape, Recovered, Claims, Chains, Evidence, Attempts, Ids, NextGeneration, Lineage, Named;
        FreshChild(w, r, claims, w', sp, id);
      }
    }
  }

  lemma RecoverRedirecting(w: World, r: Routes, claims: seq<nat>, w': World)
    requires Shape(w) && Ids(w) && Chains(w) && Evidence(w) && Attempts(w) && Lineage(w) && Named(w) && Redirecting(w)
    requires Claims(w, claims) && NextGeneration(w, r) && Restarted(w, r, w')
    requires Recovered(w, w', claims, r.Live()) && Repointed(w, w', claims, r.Live())
    ensures Redirecting(w')
  {
    RecoverOpen(w, r, claims, w');
    forall sp, id | Open(w', sp, id) && Child(w', sp) != "" && Child(w', sp) !in w'.finished
      ensures var c := Child(w', sp);
              c in w'.shared.redirects && r.PartitionOf(w'.shared.redirects[c]) == sp.partition
    {
      if Holds(w, sp) {
        RecoveredOld(w, w', claims, r.Live(), sp);
        assert Open(w, sp, id);
        hide Recovered, Chains, Evidence, Lineage, Ids;
        OldRedirect(w, r, claims, w', sp, id);
      } else {
        assert sp.partition != 0;
      }
    }
  }

  lemma OldRedirect(w: World, r: Routes, claims: seq<nat>, w': World, sp: Spot, id: string)
    requires Shape(w) && Attempts(w) && Named(w) && Redirecting(w) && Claims(w, claims)
    requires NextGeneration(w, r) && Repointed(w, w', claims, r.Live()) && w'.finished == w.finished && w'.routes == r
    requires Open(w, sp, id) && Child(w, sp) != "" && Child(w, sp) !in w.finished
    ensures var c := Child(w, sp);
            c in w'.shared.redirects && r.PartitionOf(w'.shared.redirects[c]) == sp.partition
  {
    AliveStays(w, r);
    assert Req(w, sp, id);
    assert TopAt(w, sp, id);
    HeldTop(w, claims, r.Live(), id);
    assert !MustRetry(Entries(w, claims), r.Live(), id);
    hide Claims, Named, Msg, Holds;
  }

  lemma RecoverAnnounced(w: World, r: Routes, claims: seq<nat>, w': World)
    requires Shape(w) && Ids(w) && Chains(w) && Evidence(w) && Attempts(w) && Lineage(w) && Announced(w)
             && Claims(w, claims)
    requires NextGeneration(w, r) && Restarted(w, r, w') && Recovered(w, w', claims, r.Live())
    ensures Announced(w')
  {
    RecoverOpen(w, r, claims, w');
    forall sp, id | Open(w', sp, id) && Child(w', sp) != "" && !IsRunning(w', sp) && Child(w', sp) in w'.finished
      ensures ReplyAhead(w', sp, Child(w', sp))
    {
      if Holds(w, sp) {
        RecoveredOld(w, w', claims, r.Live(), sp);
        assert Open(w, sp, id);
        var c := Child(w, sp);
        var j: nat :| j > sp.offset && j >= Head(w, sp.partition)
          && Reply(w, Spot(sp.partition, j), c) && Msg(w, Spot(sp.partition, j)).Response?;
        RecoveredOld(w, w', claims, r.Live(), Spot(sp.partition, j));
        hide Recovered, Chains, Evidence, Lineage, Ids, Claims, NextGeneration, Shape, Attempts;
        assert Reply(w', Spot(sp.partition, j), c);
        assert Head(w', sp.partition) == Head(w, sp.partition);
      } else {
        hide Recovered, Chains, Evidence, Lineage, Ids, Claims, NextGeneration, Shape, Attempts, Announced;
        FreshChild(w, r, claims, w', sp, id);
      }
    }
  }

  lemma RecoverOrdered(w: World, r: Routes, claims: seq<nat>, w': World)
    requires Shape(w) && Ordered(w) && NextGeneration(w, r) && Restarted(w, r, w') && Recovered(w, w', claims, r.Live())
    ensures Ordered(w')
  {
    AliveStays(w, r);
    forall sp | IsRunning(w', sp) && Child(w', sp) != ""
      ensures Child(w', sp) in w'.finished
    {
      RecoveredOld(w, w', claims, r.Live(), sp);
      assert IsRunning(w, sp);
    }
  }

  lemma RecoverKeeps(w: World, r: Routes, claims: seq<nat>, actions: seq<Action>, picks: seq<string>, w': World)
    requires Inv(w) && Recover(w, r, claims, actions, picks, w')
    ensures Inv(w')
  {
    RecoverFacts(w, r, claims, actions, picks, w');
    assert Restarted(w, r, w');
    assert 0 !in r.Live();
    hide Shape, Ids, Chains, Targets, Attempts, Progress, Evidence, Placed, Lineage, Named, Redirecting, Announced,
         Ordered;
    hide Recovered, Delivered, Repointed, NextGeneration, Claims;
    RecoverShape(w, r, claims, w');
    RecoverIds(w, claims, r.Live(), w');
    RecoverChains(w, claims, r.Live(), w');
    RecoverTargets(w, claims, r.Live(), w');
    RecoverAttempts(w, r, claims, w');
    RecoverProgress(w, r, claims, w');
    RecoverEvidence(w, claims, r.Live(), w');
    RecoverLineage(w, r, claims, w');
    RecoverNamed(w, r, claims, w');
    RecoverRedirecting(w, r, claims, w');
    RecoverAnnounced(w, r, claims, w');
    RecoverOrdered(w, r, claims, w');
  }

  // ----- every run -----

  lemma InitInv(w: World)
    requires Protocol.Init(w)
    ensures Inv(w)
  {
    assert forall p :: Log(w, p) == [];
    assert forall sp :: !Holds(w, sp);
  }

  lemma StepKeeps(w: World, s: Step, w': World)
    requires Inv(w) && Next(w, s, w')
    ensures Inv(w')
  {
    hide Inv;
    match s
    case IssueStep(m, pick) => IssueKeeps(w, m, pick, w');
    case ReadStep(p) => ReadKeeps(w, p, w');
    case TailCallStep(at, m, pick) => TailCallKeeps(w, at, m, pick, w');
    case FinishStep(at, reply) => FinishKeeps(w, at, reply, w');
    case ExpireStep(p, reply) => ExpireKeeps(w, p, reply, w');
    case TimeoutStep(at, reply) => TimeoutKeeps(w, at, reply, w');
    case CrashStep(p) => CrashKeeps(w, p, w');
    case RecoverStep(r, claims, actions, picks) => RecoverKeeps(w, r, claims, actions, picks, w');
  }

  /** Every world of every run satisfies the invariant. */
  lemma {:induction false} RunInv(ws: seq<World>, steps: seq<Step>, k: nat)
    requires Run(ws, steps) && k < |ws|
    ensures Inv(ws[k])
  {
    hide Inv, Protocol.Init, Next;
    if k == 0 {
      InitInv(ws[0]);
    } else {
      RunInv(ws, steps, k - 1);
      StepKeeps(ws[k - 1], steps[k - 1], ws[k]);
    }
  }
}
