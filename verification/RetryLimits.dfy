/** Promises that hold only under a condition: a failing case and the exact condition for each. */
module RetryLimits {
  import opened Messages
  import opened RecoverySpec
  import opened RecoveryTables
  import opened Routing
  import opened Protocol
  import opened ProtocolSteps
  import opened ProtocolRecovery
  import opened ProtocolInvariant
  import opened ProtocolCopies
  import opened Guarantees

  // ----- the payload of a retry -----

  /** The latest step of id in w carries the payload of m. */
  ghost predicate PayloadKept(w: World, id: string, m: Message) {
    exists sp :: TopAt(w, sp, id) && SamePayload(Msg(w, sp), m)
  }

  /** Partition 0 holds the latest step of id with the payload of m. */
  ghost predicate CopiedAside(w: World, id: string, m: Message) {
    exists sp :: TopAt(w, sp, id) && sp.partition == 0 && SamePayload(Msg(w, sp), m)
  }

  lemma LatestSpot(w: World, claims: seq<nat>, id: string, latest: Message) returns (sp: Spot)
    requires Claims(w, claims) && IsLatest(Entries(w, claims), id, latest)
    ensures TopAt(w, sp, id) && Msg(w, sp) == latest
  {
    var es := Entries(w, claims);
    LatestIsHighest(es, id, latest);
    var e :| e in es && e.msg == latest;
    sp := EntrySpot(w, claims, e);
    var top := HighestTop(w, claims, id, latest.sequence);
  }

  /** A surviving record that was the latest step still is. */
  lemma SurvivorIsTop(w: World, claims: seq<nat>, live: set<nat>, w': World, sp: Spot, id: string)
    requires Claims(w, claims) && Ids(w) && Chains(w) && Evidence(w) && Recovered(w, w', claims, live)
    requires TopAt(w, sp, id) && Survives(sp.partition, live)
    ensures TopAt(w', sp, id) && Msg(w', sp) == Msg(w, sp)
  {
    RecoveredOld(w, w', claims, live, sp);
    forall x | Req(w', x, id) ensures Num(w', x) <= Num(w', sp) {
      if Holds(w, x) {
        assert Survives(x.partition, live);
        RecoveredOld(w, w', claims, live, x);
        assert Req(w, x, id);
      } else {
        var top, start := FreshRequest(w, claims, live, w', x, id);
        assert Req(w, start, id);
      }
    }
  }

  /** A request that a live node holds keeps its latest payload. */
  lemma HeldKeepsPayload(w: World, claims: seq<nat>, live: set<nat>, w': World, id: string, latest: Message)
    requires Claims(w, claims) && Ids(w) && Chains(w) && Evidence(w) && Recovered(w, w', claims, live) && OneCopy(w)
             && 0 !in live
    requires IsLatest(Entries(w, claims), id, latest) && HeldLive(Entries(w, claims), live, id)
    ensures PayloadKept(w', id, latest)
  {
    HeldTop(w, claims, live, id);
    var sp := LatestSpot(w, claims, id, latest);
    var held :| TopAt(w, held, id) && held.partition in live;
    hide Claims, Ids, Chains, Evidence, Recovered, HeldLive, IsLatest;
    assert sp.partition != 0 ==> sp == held;
    SurvivorIsTop(w, claims, live, w', sp, id);
  }

  /** A retry carries the latest payload. */
  lemma RetryPayload(es: seq<Entry>, id: string, m: Message, latest: Message)
    requires IsRetry(es, id, m) && IsLatest(es, id, latest)
    ensures SamePayload(m, latest) && ServiceOf(m) == ServiceOf(latest)
  {
    var l :| IsLatest(es, id, l) && l.IsRequest() && m == Retry(l, m.sequence, m.child);
    LatestUnique(es, id, l, latest);
  }

  /** A retry that is written keeps the latest payload. */
  lemma WrittenKeepsPayload(w: World, claims: seq<nat>, live: set<nat>, w': World, id: string, latest: Message)
    requires Inv(w) && Claims(w, claims) && Recovered(w, w', claims, live) && Dispatched(w, w', claims, id)
             && w'.alive == live
    requires IsLatest(Entries(w, claims), id, latest)
    requires w'.routes.Offering(ServiceOf(latest)) != [] || !Parked(Entries(w, claims), id)
    ensures PayloadKept(w', id, latest)
  {
    hide Shape, Ids, Chains, Targets, Attempts, Progress, Evidence, Placed, Lineage, Waits, Claims, Recovered,
         IsLatest, IsRetry, Parked, SamePayload;
    var m :| IsRetry(Entries(w, claims), id, m)
      && if w'.routes.Offering(ServiceOf(m)) != [] then
           exists sp :: Added(w, w', sp) && Req(w', sp, id) && Msg(w', sp) == m && sp.partition != 0
         else
           || Parked(Entries(w, claims), id)
           || exists sp :: Added(w, w', sp) && Req(w', sp, id) && Msg(w', sp) == m && sp.partition == 0;
    RetryPayload(Entries(w, claims), id, m, latest);
    var sp :| Added(w, w', sp) && Req(w', sp, id) && Msg(w', sp) == m;
    forall x | Req(w', x, id) ensures Num(w', x) <= Num(w', sp) { FreshIsTop(w, w', claims, live, sp, x, id); }
    assert TopAt(w', sp, id);
  }

  /** When the retry is not written, what is left of the request is in partition 0. */
  lemma OnlyAside(w: World, claims: seq<nat>, live: set<nat>, w': World, id: string, latest: Message)
    requires Claims(w, claims) && Ids(w) && Chains(w) && Evidence(w) && Recovered(w, w', claims, live)
             && Delivered(w, w', claims, live)
    requires IsLatest(Entries(w, claims), id, latest) && PayloadKept(w', id, latest)
             && !HeldLive(Entries(w, claims), live, id)
    requires w'.routes.Offering(ServiceOf(latest)) == [] && Parked(Entries(w, claims), id)
    ensures CopiedAside(w, id, latest)
  {
    HeldTop(w, claims, live, id);
    var sp :| TopAt(w', sp, id) && SamePayload(Msg(w', sp), latest);
    assert ServiceOf(Msg(w', sp)) == ServiceOf(latest);
    assert Holds(w, sp) by {
      hide Claims, Ids, Chains, Evidence, Recovered, HeldLive, IsLatest, Dispatched, MustRetry, MustConfirm, Parked;
    }
    assert Survives(sp.partition, live);
    RecoveredOld(w, w', claims, live, sp);
    var parked := ParkedTop(w, claims, id);
    SurvivorIsTop(w, claims, live, w', parked, id);
    assert TopAt(w, sp, id);
  }

  lemma ParkedTop(w: World, claims: seq<nat>, id: string) returns (sp: Spot)
    requires Claims(w, claims) && Parked(Entries(w, claims), id)
    ensures TopAt(w, sp, id) && sp.partition == 0
  {
    var e :| e in Entries(w, claims) && e.partition == 0 && Requests(e, id)
    && Highest(Entries(w, claims), id, e.msg.sequence);
    sp := EntrySpot(w, claims, e);
    var top := HighestTop(w, claims, id, e.msg.sequence);
  }

  /**
   * The latest payload of an unfinished request survives a recovery if and only if a live node holds the request,
   * some node offers its service, partition 0 does not hold its latest step, or partition 0 holds it with that
   * payload.
   */
  lemma PayloadSurvivesIff(w: World, r: Routes, claims: seq<nat>, actions: seq<Action>, picks: seq<string>, w': World,
                           id: string, latest: Message)
    requires Inv(w) && OneCopy(w) && Recover(w, r, claims, actions, picks, w') && id !in w.finished
             && IsLatest(Entries(w, claims), id, latest)
    ensures PayloadKept(w', id, latest) <==>
              || HeldLive(Entries(w, claims), r.Live(), id)
              || r.Offering(ServiceOf(latest)) != []
              || !Parked(Entries(w, claims), id)
              || CopiedAside(w, id, latest)
  {
    var live := r.Live();
    hide Shape, Ids, Chains, Targets, Attempts, Progress, Evidence, Placed, Lineage, Waits, Decides, AfterActions,
         Emptied, NextGeneration, OneCopy, Claims;
    RecoverFacts(w, r, claims, actions, picks, w');
    hide Recovered, Delivered, Repointed, HeldLive, Parked, IsLatest, PayloadKept;
    if HeldLive(Entries(w, claims), live, id) {
      HeldKeepsPayload(w, claims, live, w', id, latest);
    } else {
      UnheldDispatched(w, claims, live, w', id, latest);
      if r.Offering(ServiceOf(latest)) != [] || !Parked(Entries(w, claims), id) {
        WrittenKeepsPayload(w, claims, live, w', id, latest);
      } else if PayloadKept(w', id, latest) {
        OnlyAside(w, claims, live, w', id, latest);
      } else {
        NothingAside(w, claims, live, w', id, latest);
      }
    }
  }

  lemma UnheldDispatched(w: World, claims: seq<nat>, live: set<nat>, w': World, id: string, latest: Message)
    requires Claims(w, claims) && Ids(w) && Chains(w) && Evidence(w) && Delivered(w, w', claims, live)
             && id !in w.finished
    requires IsLatest(Entries(w, claims), id, latest) && !HeldLive(Entries(w, claims), live, id)
    ensures Dispatched(w, w', claims, id)
  {
    HeldTop(w, claims, live, id);
    var top := LatestSpot(w, claims, id, latest);
    hide Ids, Chains, Evidence, HeldLive, IsLatest, Claims;
    var start := FindRestart(w, claims, id, top);
    UnheldIsRetried(w, claims, live, id, top, start);
  }

  lemma NothingAside(w: World, claims: seq<nat>, live: set<nat>, w': World, id: string, latest: Message)
    requires Claims(w, claims) && Ids(w) && Chains(w) && Evidence(w) && Recovered(w, w', claims, live)
             && !PayloadKept(w', id, latest)
    ensures !CopiedAside(w, id, latest)
  {
    hide Claims, Ids, Chains, Evidence, Recovered, SamePayload;
    forall sp | TopAt(w, sp, id) && sp.partition == 0 ensures !SamePayload(Msg(w, sp), latest) {
      SurvivorIsTop(w, claims, live, w', sp, id);
    }
  }

  // ----- the callees a retry waits for -----

  /** Request id made the blocking call c, and c has not been answered. */
  predicate CalledPending(w: World, id: string, c: string) {
    c in w.origin && w.origin[c].parent == id && c !in w.finished
  }

  /** A record of callee c names id as its parent. */
  ghost predicate Traced(w: World, id: string, c: string) {
    exists sp :: Req(w, sp, c) && Msg(w, sp).Call? && Msg(w, sp).parent == id
  }

  lemma TracedIsPending(w: World, claims: seq<nat>, id: string, c: string)
    requires Claims(w, claims) && Ids(w) && Evidence(w) && CalledPending(w, id, c) && Traced(w, id, c)
    ensures PendingCallee(Entries(w, claims), id, c)
  {
    var sp :| Req(w, sp, c) && Msg(w, sp).Call? && Msg(w, sp).parent == id;
    SpotEntry(w, claims, sp);
    FinishedCompleted(w, claims, sp, c);
    assert CallsFrom(Entry(sp.partition, Msg(w, sp)), id);
  }

  lemma ChildIsTraced(w: World, claims: seq<nat>, id: string, m: Message)
    requires Claims(w, claims) && IsRetry(Entries(w, claims), id, m) && m.child != ""
    ensures Traced(w, id, m.child)
  {
    var es := Entries(w, claims);
    assert LastPendingCallee(es, id, m.child);
    var i :| 0 <= i < |es| && CallsFrom(es[i], id) && es[i].msg.id == m.child;
    assert es[i] in es;
    var sp := EntrySpot(w, claims, es[i]);
    assert Req(w, sp, m.child);
  }

  /**
   * A retry waits for every unanswered blocking call of its request if and only if there is at most one and a record of
   * that call still names the request as its parent.
   */
  lemma WaitsForAllIff(w: World, claims: seq<nat>, id: string, m: Message)
    requires Inv(w) && Claims(w, claims) && m.IsRequest() && IsRetry(Entries(w, claims), id, m) && m.id == id
    ensures (forall c :: CalledPending(w, id, c) ==> c == m.child)
       <==> && (forall c, d :: CalledPending(w, id, c) && CalledPending(w, id, d) ==> c == d)
            && (forall c :: CalledPending(w, id, c) ==> Traced(w, id, c))
  {
    hide Shape, Ids, Chains, Targets, Attempts, Progress, Evidence, Placed, Lineage, Waits, Claims, IsRetry, Traced,
         CalledPending;
    RetryHasId(w, claims, m);
    if m.child != "" {
      ChildIsPending(w, claims, id, m);
      ChildIsTraced(w, claims, id, m);
    }
    forall c | CalledPending(w, id, c) ensures c != "" && (Traced(w, id, c) ==> m.child != "") {
      CallsHaveIds(w, id, c);
      if Traced(w, id, c) {
        TracedIsPending(w, claims, id, c);
        PendingIsNamed(Entries(w, claims), id, m, c);
      }
    }
  }

  lemma ChildIsPending(w: World, claims: seq<nat>, id: string, m: Message)
    requires Inv(w) && Claims(w, claims) && m.IsRequest() && IsRetry(Entries(w, claims), id, m) && m.child != ""
             && id != ""
    ensures CalledPending(w, id, m.child)
  {
    hide Claims, IsRetry;
    ChildOrigin(w, claims, id, m);
  }

  lemma CallsHaveIds(w: World, id: string, c: string)
    requires Lineage(w) && CalledPending(w, id, c)
    ensures c != ""
  {
  }

  lemma PendingIsNamed(es: seq<Entry>, id: string, m: Message, c: string)
    requires IsRetry(es, id, m) && PendingCallee(es, id, c)
    ensures m.child != ""
  {
  }
}
