/** A completed recovery keeps the invariant of the retry protocol. */
module ProtocolRecovery {
  import opened Messages
  import opened RecoverySpec
  import opened RecoveryTables
  import opened Routing
  import opened Protocol
  import opened ProtocolSteps

  // ----- records and entries -----

  lemma SpotEntry(w: World, claims: seq<nat>, sp: Spot)
    requires Claims(w, claims) && Holds(w, sp)
    ensures Entry(sp.partition, Msg(w, sp)) in Entries(w, claims)
  {
    ReadingHolds(w.shared, claims, Entry(sp.partition, Msg(w, sp)));
  }

  lemma EntrySpot(w: World, claims: seq<nat>, e: Entry) returns (sp: Spot)
    requires e in Entries(w, claims)
    ensures Holds(w, sp) && sp.partition == e.partition && Msg(w, sp) == e.msg
  {
    ReadingHolds(w.shared, claims, e);
    var i :| 0 <= i < |Log(w, e.partition)| && Log(w, e.partition)[i] == e.msg;
    sp := Spot(e.partition, i);
  }

  lemma EntriesWellFormed(w: World, claims: seq<nat>)
    requires Ids(w)
    ensures WellFormed(Entries(w, claims))
  {
    forall e | e in Entries(w, claims) && e.msg.IsRequest()
      ensures e.msg.id != "" && 0 <= e.msg.sequence < COMPLETED
    {
      var sp := EntrySpot(w, claims, e);
      assert Req(w, sp, e.msg.id);
    }
  }

  /** sp holds the request id under its highest sequence number. */
  ghost predicate TopAt(w: World, sp: Spot, id: string) {
    Req(w, sp, id) && forall sp2 :: Req(w, sp2, id) ==> Num(w, sp2) <= Num(w, sp)
  }

  lemma TopHighest(w: World, claims: seq<nat>, sp: Spot, id: string)
    requires Claims(w, claims) && TopAt(w, sp, id)
    ensures Highest(Entries(w, claims), id, Num(w, sp))
  {
    SpotEntry(w, claims, sp);
    forall e | e in Entries(w, claims) && Requests(e, id)
      ensures e.msg.sequence <= Num(w, sp)
    {
      var sp2 := EntrySpot(w, claims, e);
      assert Req(w, sp2, id);
    }
  }

  lemma HighestTop(w: World, claims: seq<nat>, id: string, s: int) returns (sp: Spot)
    requires Claims(w, claims) && Highest(Entries(w, claims), id, s)
    ensures TopAt(w, sp, id) && Num(w, sp) == s
  {
    var e :| e in Entries(w, claims) && Requests(e, id) && e.msg.sequence == s;
    sp := EntrySpot(w, claims, e);
    forall sp2 | Req(w, sp2, id)
      ensures Num(w, sp2) <= s
    {
      SpotEntry(w, claims, sp2);
    }
  }

  lemma FindTop(w: World, claims: seq<nat>, sp: Spot, id: string) returns (top: Spot)
    requires Claims(w, claims) && Ids(w) && Req(w, sp, id)
    ensures TopAt(w, top, id)
  {
    SpotEntry(w, claims, sp);
    EntriesWellFormed(w, claims);
    MaxMeaning(Entries(w, claims), id);
    assert Requested(Entries(w, claims), id);
    top := HighestTop(w, claims, id, MaxTable(Entries(w, claims))[id]);
  }

  ghost predicate LockedNum(w: World, id: string, s: int) {
    exists sp :: Req(w, sp, id) && Locked(w, sp) && Num(w, sp) == s
  }

  lemma LockedSpot(w: World, claims: seq<nat>, id: string, s: int)
    requires Claims(w, claims)
    ensures LockedAt(Entries(w, claims), id, s) <==> LockedNum(w, id, s)
  {
    var es := Entries(w, claims);
    if LockedAt(es, id, s) {
      var e :| e in es && Requests(e, id) && e.msg.sequence == s && e.msg.IsLocked();
      var sp := EntrySpot(w, claims, e);
      assert Req(w, sp, id) && Locked(w, sp);
    }
    if LockedNum(w, id, s) {
      var sp :| Req(w, sp, id) && Locked(w, sp) && Num(w, sp) == s;
      SpotEntry(w, claims, sp);
    }
  }

  lemma CompletedSpot(w: World, claims: seq<nat>, id: string)
    requires Claims(w, claims)
    ensures Completed(Entries(w, claims), id) <==> exists sp :: Reply(w, sp, id)
  {
    var es := Entries(w, claims);
    if Completed(es, id) {
      var e :| e in es && Answers(e, id);
      var sp := EntrySpot(w, claims, e);
      assert Reply(w, sp, id);
    }
    if sp :| Reply(w, sp, id) {
      SpotEntry(w, claims, sp);
    }
  }

  /** In a reachable world the log shows that a request is finished whenever it still shows the request. */
  lemma FinishedCompleted(w: World, claims: seq<nat>, sp: Spot, id: string)
    requires Claims(w, claims) && Ids(w) && Evidence(w) && Req(w, sp, id)
    ensures Completed(Entries(w, claims), id) <==> id in w.finished
  {
    CompletedSpot(w, claims, id);
  }

  lemma HeldTop(w: World, claims: seq<nat>, live: set<nat>, id: string)
    requires Claims(w, claims)
    ensures HeldLive(Entries(w, claims), live, id) <==> exists sp :: TopAt(w, sp, id) && sp.partition in live
  {
    var es := Entries(w, claims);
    if HeldLive(es, live, id) {
      var e :| e in es && e.partition in live && Requests(e, id) && Highest(es, id, e.msg.sequence);
      var sp := EntrySpot(w, claims, e);
      var top := HighestTop(w, claims, id, e.msg.sequence);
      assert TopAt(w, sp, id);
    }
    if sp :| TopAt(w, sp, id) && sp.partition in live {
      SpotEntry(w, claims, sp);
      TopHighest(w, claims, sp, id);
    }
  }

  // ----- chains -----

  /** Below a request, a run of locked numbers leads down its own partition. */
  lemma {:induction false} ChainDown(w: World, id: string, sp: Spot, s: int) returns (start: Spot)
    requires Chains(w) && Req(w, sp, id) && s <= Num(w, sp)
    requires forall t :: s < t <= Num(w, sp) ==> LockedNum(w, id, t)
    ensures Req(w, start, id) && start.partition == sp.partition && Num(w, start) == s
    ensures forall x :: Req(w, x, id) && s < Num(w, x) <= Num(w, sp) ==> x.partition == sp.partition
    ensures s < Num(w, sp) ==> sp.partition != 0
    decreases Num(w, sp) - s
  {
    if s == Num(w, sp) {
      start := sp;
    } else {
      assert LockedNum(w, id, Num(w, sp));
      var x :| Req(w, x, id) && Locked(w, x) && Num(w, x) == Num(w, sp);
      assert x == sp;
      var below :| Req(w, below, id) && below.partition == sp.partition && Num(w, below) == Num(w, sp) - 1;
      start := ChainDown(w, id, below, s);
    }
  }

  /** Where an unfinished request restarts: its chain start, and everything later, share one partition. */
  ghost predicate Restart(w: World, id: string, top: Spot, start: Spot) {
    && TopAt(w, top, id)
    && Req(w, start, id) && start.partition == top.partition
    && (forall x :: Req(w, x, id) && Num(w, x) == Num(w, start) ==> !Locked(w, x))
    && (forall x :: Req(w, x, id) && Num(w, x) > Num(w, start) ==> x.partition == top.partition && Locked(w, x))
    && (Num(w, start) < Num(w, top) ==> top.partition != 0)
  }

  lemma RestartAddress(w: World, claims: seq<nat>, id: string, top: Spot, start: Spot)
    requires Claims(w, claims) && Ids(w) && Chains(w) && Targets(w) && Restart(w, id, top, start)
    requires ChainStart(Entries(w, claims), id, Num(w, start))
    ensures AddressOf(Msg(w, top)) == AddressOf(Msg(w, start))
  {
    StartOfTop(w, claims, id, top, Num(w, start));
    hide Msg, Holds, Claims;
    ChainAddress(w, id, top, start);
  }

  lemma FindRestart(w: World, claims: seq<nat>, id: string, top: Spot) returns (start: Spot)
    requires Claims(w, claims) && Ids(w) && Chains(w) && TopAt(w, top, id)
    ensures Restart(w, id, top, start) && ChainStart(Entries(w, claims), id, Num(w, start))
  {
    var es := Entries(w, claims);
    EntriesWellFormed(w, claims);
    TopHighest(w, claims, top, id);
    MinMeaning(es, id);
    var s := MinTable(es)[id];
    StartOfTop(w, claims, id, top, s);
    start := ChainDown(w, id, top, s);
    LockedAbove(w, id, top, s);
  }

  lemma StartOfTop(w: World, claims: seq<nat>, id: string, top: Spot, s: int)
    requires Claims(w, claims) && Ids(w) && Chains(w) && TopAt(w, top, id) && ChainStart(Entries(w, claims), id, s)
    ensures 0 <= s <= Num(w, top)
    ensures forall x :: Req(w, x, id) && Num(w, x) == s ==> !Locked(w, x)
    ensures forall t :: s < t <= Num(w, top) ==> LockedNum(w, id, t)
  {
    var es := Entries(w, claims);
    var h :| Highest(es, id, h) && RunStart(es, id, s, h);
    TopHighest(w, claims, top, id);
    HighestUnique(es, id, h, Num(w, top));
    assert 0 <= h by {
      assert Req(w, top, id);
    }
    LockedSpot(w, claims, id, 0);
    LockedSpot(w, claims, id, s);
    forall t | s < t <= h
      ensures LockedNum(w, id, t)
    {
      LockedSpot(w, claims, id, t);
    }
  }

  /** A run of retained-lock tail calls stays with one actor. */
  lemma {:induction false} ChainAddress(w: World, id: string, sp: Spot, start: Spot)
    requires Chains(w) && Targets(w) && Req(w, sp, id) && Req(w, start, id) && Num(w, start) <= Num(w, sp)
    requires forall t :: Num(w, start) < t <= Num(w, sp) ==> LockedNum(w, id, t)
    ensures AddressOf(Msg(w, sp)) == AddressOf(Msg(w, start))
    decreases Num(w, sp) - Num(w, start)
  {
    if Num(w, start) < Num(w, sp) {
      assert LockedNum(w, id, Num(w, sp));
      var x :| Req(w, x, id) && Locked(w, x) && Num(w, x) == Num(w, sp);
      var below :| Req(w, below, id) && below.partition == x.partition && Num(w, below) == Num(w, x) - 1;
      ChainAddress(w, id, below, start);
    }
  }

  lemma LockedAbove(w: World, id: string, top: Spot, s: int)
    requires Chains(w) && TopAt(w, top, id)
    requires forall t :: s < t <= Num(w, top) ==> LockedNum(w, id, t)
    ensures forall x :: Req(w, x, id) && Num(w, x) > s ==> Locked(w, x)
  {
    forall x | Req(w, x, id) && Num(w, x) > s
      ensures Locked(w, x)
    {
      assert LockedNum(w, id, Num(w, x));
      var y :| Req(w, y, id) && Locked(w, y) && Num(w, y) == Num(w, x);
    }
  }

  /** An unfinished request that no live partition holds is retried: nothing is lost. */
  lemma UnheldIsRetried(w: World, claims: seq<nat>, live: set<nat>, id: string, top: Spot, start: Spot)
    requires Claims(w, claims) && Ids(w) && Evidence(w) && id !in w.finished
    requires Restart(w, id, top, start) && ChainStart(Entries(w, claims), id, Num(w, start))
    requires forall sp :: TopAt(w, sp, id) ==> sp.partition !in live
    ensures MustRetry(Entries(w, claims), live, id)
  {
    FinishedCompleted(w, claims, top, id);
    HeldTop(w, claims, live, id);
    SpotEntry(w, claims, start);
    var e := Entry(start.partition, Msg(w, start));
    assert Requests(e, id) && e.partition !in live;
  }

  // ----- the effect of the actions -----

  /** Retries are requests for services and sessions, one per request id. */
  ghost predicate Sane(actions: seq<Action>) {
    && (forall i :: 0 <= i < |actions| && actions[i].Resend? ==> actions[i].retry.IsRequest()
                                                                 && !actions[i].retry.target.Node?)
    && (forall i, j :: 0 <= i < j < |actions| && actions[i].Resend? && actions[j].Resend? ==>
          actions[i].retry.id != actions[j].retry.id)
  }

  /** The world halfway through recovery: n actions done, nothing deleted yet. */
  function Midway(w: World, r: Routes, actions: seq<Action>, picks: seq<string>, n: nat): World
    requires n <= |actions| == |picks|
  {
    w.(shared := AfterActions(r, w.shared, actions[..n], picks[..n]), routes := r)
  }

  lemma MidwayStep(w: World, r: Routes, actions: seq<Action>, picks: seq<string>, n: nat)
    requires n < |actions| == |picks|
    ensures Midway(w, r, actions, picks, n + 1).shared
         == AfterAction(r, Midway(w, r, actions, picks, n).shared, actions[n], picks[n])
  {
    assert actions[..n + 1][..n] == actions[..n] && picks[..n + 1][..n] == picks[..n];
  }

  predicate Added(w: World, w': World, sp: Spot) { Holds(w', sp) && !Holds(w, sp) }

  predicate Produced(a: Action, m: Message, p: nat, live: set<nat>) {
    match a
    case Resend(retry, drop) => m == retry && (p == 0 || p in live) && (p == 0 ==> !drop)
    case Confirm(id, deadline) => m == Done(id, deadline) && p == 0
  }

  /** Where the records added by the first n actions come from. */
  ghost predicate Sourced(w: World, w': World, actions: seq<Action>, n: nat, live: set<nat>)
    requires n <= |actions|
  {
    && (forall sp :: Holds(w, sp) ==> Holds(w', sp) && Msg(w', sp) == Msg(w, sp))
    && (forall sp :: Added(w, w', sp) ==> exists a :: 0 <= a < n
                                                      && Produced(actions[a], Msg(w', sp), sp.partition, live))
  }

  ghost predicate Single(w: World, w': World) {
    forall sp, sp2, id :: Added(w, w', sp) && Added(w, w', sp2) && Req(w', sp, id) && Req(w', sp2, id) ==> sp == sp2
  }

  /** The record of an action is in the topic, or it is a retry that partition 0 holds already and no node can take. */
  ghost predicate Landed(w: World, w': World, a: Action) {
    match a
    case Resend(retry, drop) =>
      || (drop && w'.routes.Offering(ServiceOf(retry)) == [])
      || exists sp ::
           && Added(w, w', sp) && Msg(w', sp) == retry
           && (sp.partition == 0 <==> w'.routes.Offering(ServiceOf(retry)) == [])
    case Confirm(id, _) => exists sp :: Added(w, w', sp) && Reply(w', sp, id)
  }

  /** One action writes one record, or none when it drops a retry bound for partition 0. */
  lemma ActionWrites(w: World, r: Routes, a: Action, pick: string, w': World) returns (added: Spot, wrote: bool)
    requires r.Valid() && (a.Resend? ==> a.retry.IsRequest() && !a.retry.target.Node?
                                         && MayPick(r, a.retry.target, pick))
    requires w'.shared == AfterAction(r, w.shared, a, pick)
    ensures wrote ==> exists m :: Extends(w, w', added, m) && Produced(a, m, added.partition, r.Live())
    ensures !wrote ==> w'.shared.topic == w.shared.topic && a.Resend? && a.drop && r.Offering(ServiceOf(a.retry)) == []
    ensures a.Resend? && wrote ==> (added.partition == 0 <==> r.Offering(ServiceOf(a.retry)) == [])
    ensures a.Resend? && wrote ==> added.partition == RouteTo(r, w.shared.placements, a.retry.target, pick).partition
  {
    match a
    case Confirm(id, deadline) =>
      wrote := true;
      added := AppendExtends(w, w', 0, Done(id, deadline));
    case Resend(m, drop) =>
      var to := RouteTo(r, w.shared.placements, m.target, pick);
      RouteIsLive(r, w.shared.placements, m.target, pick);
      wrote := !(to.partition == 0 && drop);
      if wrote {
        added := AppendExtends(w, w', to.partition, m);
      } else {
        added := Spot(0, 0);
      }
  }

  lemma SourcedStep(w: World, v: World, v': World, actions: seq<Action>, n: nat, live: set<nat>, added: Spot,
                    m: Message)
    requires n < |actions| && Sourced(w, v, actions, n, live)
    requires Extends(v, v', added, m) && Produced(actions[n], m, added.partition, live)
    ensures Sourced(w, v', actions, n + 1, live)
  {
    hide Holds, Msg, Produced;
    forall sp | Added(w, v', sp)
      ensures exists a :: 0 <= a < n + 1 && Produced(actions[a], Msg(v', sp), sp.partition, live)
    {
      if sp == added {
        assert Produced(actions[n], Msg(v', sp), sp.partition, live);
      } else {
        assert Added(w, v, sp);
        var a :| 0 <= a < n && Produced(actions[a], Msg(v, sp), sp.partition, live);
        assert Produced(actions[a], Msg(v', sp), sp.partition, live);
      }
    }
  }

  lemma SingleStep(w: World, v: World, v': World, actions: seq<Action>, n: nat, live: set<nat>, added: Spot, m: Message)
    requires n < |actions| && Sane(actions) && Sourced(w, v, actions, n, live) && Single(w, v)
    requires Extends(v, v', added, m) && Produced(actions[n], m, added.partition, live)
    ensures Single(w, v')
  {
    ExtendFacts(v, v', added, m);
    hide Holds, Msg;
    forall sp, id | Added(w, v', sp) && Req(v', sp, id) && sp != added
      ensures Added(w, v, sp) && Req(v, sp, id) && !(m.IsRequest() && m.id == id)
    {
      assert Req(v, sp, id) && Added(w, v, sp);
      var a :| 0 <= a < n && Produced(actions[a], Msg(v, sp), sp.partition, live);
    }
  }

  lemma LandedStep(w: World, v: World, v': World, a: Action, added: Spot, m: Message)
    requires Landed(w, v, a) && Extends(v, v', added, m) && v'.routes == v.routes
    requires forall sp :: Holds(w, sp) ==> Holds(v, sp)
    ensures Landed(w, v', a)
  {
    ExtendFacts(v, v', added, m);
    hide Msg, Extends;
    match a
    case Resend(retry, drop) =>
      if !(drop && v.routes.Offering(ServiceOf(retry)) == []) {
        var sp :| Added(w, v, sp) && Msg(v, sp) == retry
        && (sp.partition == 0 <==> v.routes.Offering(ServiceOf(retry)) == []);
        assert Added(w, v', sp) && Msg(v', sp) == retry;
      }
    case Confirm(id, _) =>
      var sp :| Added(w, v, sp) && Reply(v, sp, id);
      assert Added(w, v', sp) && Reply(v', sp, id);
  }

  predicate NamesChild(a: Action, c: string) { a.Resend? && a.retry.IsRequest() && a.retry.child == c }

  /** No two retries wait for the same callee. */
  ghost predicate OwnChildren(actions: seq<Action>) {
    forall i, j, c :: 0 <= i < j < |actions| && c != "" && NamesChild(actions[i], c) ==> !NamesChild(actions[j], c)
  }

  /** The retry of action a, if it reached the node of spot sp, has its callee's reply redirected there. */
  ghost predicate PointsTo(w: World, v: World, a: Action, c: string, sp: Spot) {
    c != "" && NamesChild(a, c) && Added(w, v, sp) && Msg(v, sp) == a.retry && sp.partition != 0 ==>
      c in v.shared.redirects && v.routes.PartitionOf(v.shared.redirects[c]) == sp.partition
  }

  ghost predicate Pointed(w: World, v: World, actions: seq<Action>, n: nat)
    requires n <= |actions|
  {
    forall a, c, sp :: 0 <= a < n ==> PointsTo(w, v, actions[a], c, sp)
  }

  /** Redirects of callees that no retry names are as before. */
  ghost predicate Untouched(w: World, v: World, actions: seq<Action>, n: nat)
    requires n <= |actions|
  {
    forall c :: (forall a :: 0 <= a < n ==> !NamesChild(actions[a], c)) ==>
      (c in v.shared.redirects <==> c in w.shared.redirects)
      && (c in w.shared.redirects ==> v.shared.redirects[c] == w.shared.redirects[c])
  }

  lemma RedirectWritten(v: World, a: Action, pick: string, v': World)
    requires v.routes.Valid() && v'.shared == AfterAction(v.routes, v.shared, a, pick)
    requires a.Resend? ==> a.retry.IsRequest() && !a.retry.target.Node? && MayPick(v.routes, a.retry.target, pick)
    ensures forall c :: c != "" && NamesChild(a, c) ==>
              var to := RouteTo(v.routes, v.shared.placements, a.retry.target, pick);
              to.partition != 0 ==> c in v'.shared.redirects
                                    && v.routes.PartitionOf(v'.shared.redirects[c]) == to.partition
    ensures forall c :: c == "" || !NamesChild(a, c) ==>
              && (c in v'.shared.redirects <==> c in v.shared.redirects)
              && (c in v.shared.redirects ==> v'.shared.redirects[c] == v.shared.redirects[c])
  {
    if a.Resend? {
      RouteIsLive(v.routes, v.shared.placements, a.retry.target, pick);
    }
  }

  /** A record that carries the retry of action n was written by action n. */
  lemma AddedIsLast(w: World, v: World, v': World, sp: Spot, added: Spot, m: Message, actions: seq<Action>, n: nat,
                    live: set<nat>)
    requires n < |actions| && Sane(actions) && actions[n].Resend? && Sourced(w, v, actions, n, live)
    requires Extends(v, v', added, m) && Added(w, v', sp) && Msg(v', sp) == actions[n].retry
    ensures sp == added
  {
    hide Holds, Msg;
    if sp != added {
      assert Added(w, v, sp);
      var a :| 0 <= a < n && Produced(actions[a], Msg(v, sp), sp.partition, live);
      assert false;
    }
  }

  lemma PointedStep(w: World, v: World, v': World, actions: seq<Action>, n: nat, pick: string, added: Spot, m: Message)
    requires n < |actions| && Sane(actions) && OwnChildren(actions) && Pointed(w, v, actions, n)
    requires Sourced(w, v, actions, n, v.routes.Live())
    requires v.routes == v'.routes && v.routes.Valid()
    requires actions[n].Resend? ==> MayPick(v.routes, actions[n].retry.target, pick)
    requires v'.shared == AfterAction(v.routes, v.shared, actions[n], pick)
    requires Extends(v, v', added, m) && Produced(actions[n], m, added.partition, v.routes.Live())
    requires actions[n].Resend? ==>
               added.partition == RouteTo(v.routes, v.shared.placements, actions[n].retry.target, pick).partition
    ensures Pointed(w, v', actions, n + 1)
  {
    RedirectWritten(v, actions[n], pick, v');
    hide AfterAction, RouteTo, Msg, Holds, Extends;
    forall a, c, sp | 0 <= a < n + 1
      ensures PointsTo(w, v', actions[a], c, sp)
    {
      if c != "" && NamesChild(actions[a], c) && Added(w, v', sp) && Msg(v', sp) == actions[a].retry
      && sp.partition != 0 {
        if a == n {
          AddedIsLast(w, v, v', sp, added, m, actions, n, v.routes.Live());
        } else {
          OlderRecord(w, v, v', sp, added, m, actions, a, n);
          assert PointsTo(w, v, actions[a], c, sp);
          assert !NamesChild(actions[n], c);
        }
      }
    }
  }

  lemma OlderRecord(w: World, v: World, v': World, sp: Spot, added: Spot, m: Message, actions: seq<Action>, a: nat,
                    n: nat)
    requires a < n < |actions| && Sane(actions) && actions[a].Resend?
    requires Extends(v, v', added, m) && Produced(actions[n], m, added.partition, v.routes.Live())
    requires Added(w, v', sp) && Msg(v', sp) == actions[a].retry
    ensures Added(w, v, sp) && Msg(v, sp) == actions[a].retry
  {
    hide Holds, Msg;
    assert sp != added;
  }

  lemma UntouchedStep(w: World, v: World, v': World, actions: seq<Action>, n: nat, pick: string)
    requires n < |actions| && Sane(actions) && Untouched(w, v, actions, n)
    requires v.routes == v'.routes && v.routes.Valid()
    requires actions[n].Resend? ==> MayPick(v.routes, actions[n].retry.target, pick)
    requires v'.shared == AfterAction(v.routes, v.shared, actions[n], pick)
    ensures Untouched(w, v', actions, n + 1)
  {
    RedirectWritten(v, actions[n], pick, v');
    hide AfterAction, RouteTo;
    forall c | forall a :: 0 <= a < n + 1 ==> !NamesChild(actions[a], c)
      ensures c in v'.shared.redirects <==> c in w.shared.redirects
      ensures c in w.shared.redirects ==> v'.shared.redirects[c] == w.shared.redirects[c]
    {
      assert !NamesChild(actions[n], c);
      assert forall a :: 0 <= a < n ==> !NamesChild(actions[a], c);
    }
  }

  /** Dropping a retry that partition 0 already holds writes nothing and points nothing elsewhere. */
  lemma DropStep(w: World, v: World, v': World, a: Action, pick: string)
    requires a.Resend? && a.retry.IsRequest() && !a.retry.target.Node? && v.routes == v'.routes && v.routes.Valid()
    requires MayPick(v.routes, a.retry.target, pick)
    requires v'.shared == AfterAction(v.routes, v.shared, a, pick) && v'.shared.topic == v.shared.topic
    ensures v'.shared == v.shared
  {
    var to := RouteTo(v.routes, v.shared.placements, a.retry.target, pick);
    RouteIsLive(v.routes, v.shared.placements, a.retry.target, pick);
  }

  /** Everything recovery has achieved after n actions. */
  ghost predicate Halfway(w: World, v: World, actions: seq<Action>, n: nat)
    requires n <= |actions|
  {
    && Sourced(w, v, actions, n, v.routes.Live()) && Single(w, v)
    && (forall a :: 0 <= a < n ==> Landed(w, v, actions[a]))
    && Pointed(w, v, actions, n) && Untouched(w, v, actions, n) && Placed(v) && Offered(w, v)
  }

  /** A retry goes to partition 0 exactly when no node offers its service. */
  ghost predicate Offered(w: World, v: World) {
    forall sp :: Added(w, v, sp) && Msg(v, sp).IsRequest() ==>
        (sp.partition == 0 <==> v.routes.Offering(ServiceOf(Msg(v, sp))) == [])
  }

  lemma OfferedStep(w: World, v: World, v': World, a: Action, added: Spot, m: Message)
    requires Offered(w, v) && v'.routes == v.routes && Extends(v, v', added, m)
             && Produced(a, m, added.partition, v.routes.Live())
    requires a.Resend? ==> (added.partition == 0 <==> v.routes.Offering(ServiceOf(a.retry)) == [])
    ensures Offered(w, v')
  {
    ExtendFacts(v, v', added, m);
    hide Holds, Msg;
    forall sp | Added(w, v', sp) && Msg(v', sp).IsRequest()
      ensures sp.partition == 0 <==> v'.routes.Offering(ServiceOf(Msg(v', sp))) == []
    {
      if sp != added { assert Added(w, v, sp); }
    }
  }

  lemma HalfwayStep(w: World, v: World, v': World, actions: seq<Action>, n: nat, pick: string)
    requires n < |actions| && Sane(actions) && OwnChildren(actions) && Halfway(w, v, actions, n)
    requires v.routes == v'.routes && v.routes.Valid()
    requires actions[n].Resend? ==> MayPick(v.routes, actions[n].retry.target, pick)
    requires v'.shared == AfterAction(v.routes, v.shared, actions[n], pick)
    ensures Halfway(w, v', actions, n + 1)
  {
    var added, wrote := ActionWrites(v, v.routes, actions[n], pick, v');
    UntouchedStep(w, v, v', actions, n, pick);
    if wrote {
      var m :| Extends(v, v', added, m) && Produced(actions[n], m, added.partition, v.routes.Live());
      hide AfterAction, RouteTo, Untouched;
      SourcedStep(w, v, v', actions, n, v.routes.Live(), added, m);
      SingleStep(w, v, v', actions, n, v.routes.Live(), added, m);
      PointedStep(w, v, v', actions, n, pick, added, m);
      WrittenPlaced(v, v', actions[n], pick, added, m);
      LandedAll(w, v, v', actions, n, added, m);
      OfferedStep(w, v, v', actions[n], added, m);
      hide Offered;
      hide Extends, Produced, Sourced, Single, Landed, Pointed, Placed, Sane, OwnChildren;
    } else {
      DropStep(w, v, v', actions[n], pick);
      HalfwaySame(w, v, v', actions, n);
    }
  }

  lemma LandedAll(w: World, v: World, v': World, actions: seq<Action>, n: nat, added: Spot, m: Message)
    requires n < |actions| && Sourced(w, v, actions, n, v.routes.Live())
    requires forall a :: 0 <= a < n ==> Landed(w, v, actions[a])
    requires Extends(v, v', added, m) && Produced(actions[n], m, added.partition, v.routes.Live())
             && v'.routes == v.routes
    requires actions[n].Resend? ==> (added.partition == 0 <==> v.routes.Offering(ServiceOf(actions[n].retry)) == [])
    ensures forall a :: 0 <= a < n + 1 ==> Landed(w, v', actions[a])
  {
    assert forall sp :: Holds(w, sp) ==> Holds(v, sp);
    hide Landed, Extends, Produced, Sourced, Holds;
    forall a | 0 <= a < n + 1
      ensures Landed(w, v', actions[a])
    {
      if a < n {
        LandedStep(w, v, v', actions[a], added, m);
      } else {
        NewlyLanded(w, v, v', actions[n], added, m);
      }
    }
  }

  lemma NewlyLanded(w: World, v: World, v': World, a: Action, added: Spot, m: Message)
    requires Extends(v, v', added, m) && Produced(a, m, added.partition, v.routes.Live()) && v'.routes == v.routes
    requires a.Resend? ==> (added.partition == 0 <==> v.routes.Offering(ServiceOf(a.retry)) == [])
    requires forall sp :: Holds(w, sp) ==> Holds(v, sp)
    ensures Landed(w, v', a)
  {
    hide Holds, Msg;
    assert Added(w, v', added);
    if a.Confirm? {
      assert Reply(v', added, a.id);
    }
  }

  lemma WrittenPlaced(v: World, v': World, a: Action, pick: string, added: Spot, m: Message)
    requires Placed(v) && v.routes == v'.routes && v.routes.Valid() && Extends(v, v', added, m)
    requires a.Resend? ==> a.retry.IsRequest() && !a.retry.target.Node? && MayPick(v.routes, a.retry.target, pick)
    requires v'.shared == AfterAction(v.routes, v.shared, a, pick) && Produced(a, m, added.partition, v.routes.Live())
    requires a.Resend? ==> added.partition == RouteTo(v.routes, v.shared.placements, a.retry.target, pick).partition
    ensures Placed(v')
  {
    match a
    case Resend(retry, _) =>
      PlacedExtend(v, v', added, m, pick);
    case Confirm(_, _) =>
      ExtendFacts(v, v', added, m);
      hide Holds, Msg, Place;
      PlacedKept(v, v');
  }

  lemma HalfwaySame(w: World, v: World, v': World, actions: seq<Action>, n: nat)
    requires n < |actions| && Halfway(w, v, actions, n) && v'.shared == v.shared && v'.routes == v.routes
    requires actions[n].Resend? && actions[n].drop && v.routes.Offering(ServiceOf(actions[n].retry)) == []
    requires Untouched(w, v', actions, n + 1)
    requires v'.shared.topic == v.shared.topic && Sane(actions)
    ensures Halfway(w, v', actions, n + 1)
  {
    SameSharedFacts(v, v');
    assert forall sp :: Added(w, v', sp) <==> Added(w, v, sp);
    hide Holds, Msg, Produced, Untouched;
    assert Placed(v') by {
      PlacedKept(v, v');
    }
    hide Placed;
    forall a | 0 <= a < n + 1
      ensures Landed(w, v', actions[a])
    {
      if a < n {
        assert Landed(w, v, actions[a]);
      }
    }
    assert Sourced(w, v', actions, n + 1, v'.routes.Live()) by {
      forall sp | Added(w, v', sp)
        ensures exists a :: 0 <= a < n + 1 && Produced(actions[a], Msg(v', sp), sp.partition, v'.routes.Live())
      {
        var a :| 0 <= a < n && Produced(actions[a], Msg(v, sp), sp.partition, v.routes.Live());
        assert Produced(actions[a], Msg(v', sp), sp.partition, v'.routes.Live());
      }
    }
    DropPointed(w, v, v', actions, n);
    assert Offered(w, v') by {
      forall sp | Added(w, v', sp) ensures Added(w, v, sp) && Msg(v', sp) == Msg(v, sp) {}
    }
  }

  lemma DropPointed(w: World, v: World, v': World, actions: seq<Action>, n: nat)
    requires n < |actions| && Pointed(w, v, actions, n) && v'.shared == v.shared && v'.routes == v.routes
    requires Sourced(w, v, actions, n, v.routes.Live()) && Sane(actions) && actions[n].Resend?
    ensures Pointed(w, v', actions, n + 1)
  {
    SameSharedFacts(v, v');
    assert forall sp :: Added(w, v', sp) <==> Added(w, v, sp);
    hide Holds, Msg;
    forall a, c, sp | 0 <= a < n + 1
      ensures PointsTo(w, v', actions[a], c, sp)
    {
      if a < n {
        assert PointsTo(w, v, actions[a], c, sp);
      }
    }
  }

  // ----- the decisions are sane -----

  lemma RetrySource(w: World, claims: seq<nat>, id: string, m: Message) returns (sp: Spot)
    requires Claims(w, claims) && IsRetry(Entries(w, claims), id, m)
    ensures TopAt(w, sp, id) && Msg(w, sp).IsRequest() && m == Retry(Msg(w, sp), m.sequence, m.child)
    ensures IsLatest(Entries(w, claims), id, Msg(w, sp))
  {
    var es := Entries(w, claims);
    var latest :| IsLatest(es, id, latest) && latest.IsRequest() && m == Retry(latest, m.sequence, m.child);
    LatestIsHighest(es, id, latest);
    var e :| e in es && e.msg == latest;
    sp := EntrySpot(w, claims, e);
    var top := HighestTop(w, claims, id, latest.sequence);
  }

  lemma DecidesSane(w: World, claims: seq<nat>, live: set<nat>, actions: seq<Action>)
    requires Claims(w, claims) && Ids(w) && Decides(Entries(w, claims), live, actions)
    ensures Sane(actions)
  {
    forall i | 0 <= i < |actions| && actions[i].Resend?
      ensures actions[i].retry.IsRequest() && !actions[i].retry.target.Node?
    {
      var m := actions[i].retry;
      var sp := RetrySource(w, claims, m.id, m);
    }
  }

  /** The callee a retry names was issued by that very request, and is unfinished. */
  lemma ChildOrigin(w: World, claims: seq<nat>, id: string, m: Message)
    requires Claims(w, claims) && Ids(w) && Evidence(w) && Lineage(w) && id != ""
    requires m.IsRequest() && IsRetry(Entries(w, claims), id, m) && m.child != ""
    ensures m.child in w.origin && w.origin[m.child].parent == id && m.child !in w.finished
  {
    var es := Entries(w, claims);
    assert LastPendingCallee(es, id, m.child);
    var i :| 0 <= i < |es| && CallsFrom(es[i], id) && es[i].msg.id == m.child && !Completed(es, m.child);
    assert es[i] in es;
    var sp := EntrySpot(w, claims, es[i]);
    assert Req(w, sp, m.child);
    FinishedCompleted(w, claims, sp, m.child);
  }

  lemma DecidesOwnChildren(w: World, claims: seq<nat>, live: set<nat>, actions: seq<Action>)
    requires Claims(w, claims) && Ids(w) && Evidence(w) && Lineage(w) && Decides(Entries(w, claims), live, actions)
    requires Sane(actions)
    ensures OwnChildren(actions)
  {
    forall i, j, c | 0 <= i < j < |actions| && c != "" && NamesChild(actions[i], c)
      ensures !NamesChild(actions[j], c)
    {
      if NamesChild(actions[j], c) {
        RetryHasId(w, claims, actions[i].retry);
        RetryHasId(w, claims, actions[j].retry);
        ChildOrigin(w, claims, actions[i].retry.id, actions[i].retry);
        ChildOrigin(w, claims, actions[j].retry.id, actions[j].retry);
      }
    }
  }

  lemma RetryHasId(w: World, claims: seq<nat>, m: Message)
    requires Claims(w, claims) && Ids(w) && IsRetry(Entries(w, claims), m.id, m)
    ensures m.id != ""
  {
    var sp := RetrySource(w, claims, m.id, m);
    assert Req(w, sp, m.id);
  }

  /** Survivors keep their sessions. */
  lemma PlacedNext(w: World, r: Routes)
    requires Shape(w) && Placed(w) && NextGeneration(w, r)
    ensures Placed(w.(routes := r))
  {
    var v := w.(routes := r);
    SameSharedFacts(w, v);
    forall sp, id | Req(v, sp, id) && sp.partition in r.Live() && Msg(v, sp).target.Session?
      ensures var k := Place(Msg(v, sp).target.name, Msg(v, sp).target.key);
              k in v.shared.placements && r.PartitionOf(v.shared.placements[k]) == sp.partition
    {
      hide Place;
      assert Req(w, sp, id);
      LiveIsAlive(w, r, sp);
      hide Holds, Msg;
      var k := Place(Msg(w, sp).target.name, Msg(w, sp).target.key);
      assert w.routes.PartitionOf(w.shared.placements[k]) == sp.partition;
    }
  }

  /** A partition of the next generation that holds records belongs to a survivor. */
  lemma LiveIsAlive(w: World, r: Routes, sp: Spot)
    requires Shape(w) && NextGeneration(w, r) && Holds(w, sp) && sp.partition in r.Live()
    ensures sp.partition in w.alive && sp.partition in w.routes.Live()
  {
    var n :| n in r.partitions && r.partitions[n] != 0 && r.partitions[n] == sp.partition;
  }

  lemma HalfwayStart(w: World, r: Routes, actions: seq<Action>, picks: seq<string>)
    requires MayPickAll(r, actions, picks) && r.Valid() && Placed(w.(routes := r))
    ensures Halfway(w, Midway(w, r, actions, picks, 0), actions, 0)
  {
    var v := Midway(w, r, actions, picks, 0);
    assert v == w.(routes := r);
    SameSharedFacts(w, v);
  }

  lemma {:induction false} HalfwayAll(w: World, r: Routes, actions: seq<Action>, picks: seq<string>, n: nat)
    requires n <= |actions| && MayPickAll(r, actions, picks) && Sane(actions) && OwnChildren(actions)
    requires r.Valid() && Placed(w.(routes := r))
    ensures Halfway(w, Midway(w, r, actions, picks, n), actions, n)
  {
    if n == 0 {
      HalfwayStart(w, r, actions, picks);
    } else {
      hide Halfway, Placed, Sane, OwnChildren, Midway;
      HalfwayAll(w, r, actions, picks, n - 1);
      MidwayStep(w, r, actions, picks, n - 1);
      HalfwayStep(w, Midway(w, r, actions, picks, n - 1), Midway(w, r, actions, picks, n), actions, n - 1,
                  picks[n - 1]);
    }
  }
}
