/** What the retry protocol promises, for every run. */
module Guarantees {
  import opened Messages
  import opened RecoverySpec
  import opened RecoveryTables
  import opened Routing
  import opened Protocol
  import opened ProtocolSteps
  import opened ProtocolRecovery
  import opened ProtocolInvariant
  import Strategy

  /** A retry never overlaps the attempt it replaces: no request has two unfinished invocations on running nodes. */
  lemma OneAttempt(ws: seq<World>, steps: seq<Step>, k: nat, sp: Spot, sp2: Spot, id: string)
    requires Run(ws, steps) && k < |ws| && Open(ws[k], sp, id) && Open(ws[k], sp2, id)
    ensures sp == sp2
  {
    RunInv(ws, steps, k);
  }

  lemma FinishedGrows(w: World, s: Step, w': World)
    requires Next(w, s, w')
    ensures w.finished <= w'.finished && w.issued <= w'.issued
  {
    hide RouteTo, AfterActions, Decides, Entries, ReplyTo, MayPick, Unblocked, NextGeneration, Claims, Emptied,
         MayPickAll, Woken;
  }

  lemma {:induction false} FinishedStays(ws: seq<World>, steps: seq<Step>, j: nat, k: nat)
    requires Run(ws, steps) && j <= k < |ws|
    ensures ws[j].finished <= ws[k].finished
  {
    hide Next, Protocol.Init;
    if j < k {
      FinishedStays(ws, steps, j, k - 1);
      FinishedGrows(ws[k - 1], steps[k - 1], ws[k]);
    }
  }

  /**
   * A request for which a Response or a Done was written is never attempted again, and its reply outlives its requests.
   */
  lemma NeverRetriedOnceFinished(ws: seq<World>, steps: seq<Step>, j: nat, k: nat, id: string)
    requires Run(ws, steps) && j <= k < |ws| && id in ws[j].finished
    ensures forall sp :: !Open(ws[k], sp, id)
    ensures (exists sp :: Req(ws[k], sp, id)) ==> exists sp :: Reply(ws[k], sp, id)
  {
    FinishedStays(ws, steps, j, k);
    RunInv(ws, steps, k);
    hide Run, Open, Req, Reply;
  }

  /** Where an unfinished request can be: open on a running node, in the partition of a crashed one, or set aside. */
  ghost predicate Pending(w: World, sp: Spot, id: string) {
    TopAt(w, sp, id) && (Open(w, sp, id) || sp.partition == 0 || sp.partition !in w.alive)
  }

  /** A request is retried until it succeeds: at all times its latest step is pending. */
  lemma NothingLost(ws: seq<World>, steps: seq<Step>, k: nat, id: string)
    requires Run(ws, steps) && k < |ws| && id in ws[k].issued && !Settled(ws[k], id)
    ensures exists sp :: Pending(ws[k], sp, id)
  {
    var w := ws[k];
    RunInv(ws, steps, k);
    var sp :| Req(w, sp, id);
    var claims := SomeClaims(w);
    var top := FindTop(w, claims, sp, id);
    assert !Superseded(w, top, id);
    assert Pending(w, top, id);
  }

  /** The partitions with records can be listed, partition 0 first. */
  lemma SomeClaims(w: World) returns (claims: seq<nat>)
    ensures Claims(w, claims)
  {
    var rest := set p | p in w.shared.topic && p != 0;
    claims := [0];
    while rest != {}
      invariant |claims| > 0 && claims[0] == 0
      invariant forall i, j :: 0 <= i < j < |claims| ==> claims[i] != claims[j]
      invariant forall p :: p in w.shared.topic ==> p in claims || p in rest
      invariant forall p :: p in claims ==> p !in rest
      decreases rest
    {
      var p :| p in rest;
      claims := claims + [p];
      rest := rest - {p};
    }
  }

  /**
   * After a recovery an unfinished request is open on a node, or no node offers its service and partition 0 keeps it.
   */
  lemma RetriedWherePossible(ws: seq<World>, steps: seq<Step>, k: nat, id: string)
    requires Run(ws, steps) && k < |steps| && steps[k].RecoverStep?
    requires id in ws[k + 1].issued && !Settled(ws[k + 1], id)
    ensures exists sp ::
              && TopAt(ws[k + 1], sp, id)
              && (Open(ws[k + 1], sp, id)
                  || (sp.partition == 0 && ws[k + 1].routes.Offering(ServiceOf(Msg(ws[k + 1], sp))) == []))
  {
    var w, w' := ws[k], ws[k + 1];
    var s := steps[k];
    RunInv(ws, steps, k);
    RunInv(ws, steps, k + 1);
    assert Recover(w, s.routes, s.claims, s.actions, s.picks, w');
    NothingLost(ws, steps, k + 1, id);
    var sp :| Pending(w', sp, id);
    if !Open(w', sp, id) {
      hide Run, Next;
      RecoverFacts(w, s.routes, s.claims, s.actions, s.picks, w');
      assert Survives(sp.partition, s.routes.Live());
      if live :| TopAt(w', live, id) && live.partition in w'.alive {
        HeldIsOpen(w', live, id);
      } else {
        AsideIsUnavailable(w, s.routes, s.claims, s.actions, s.picks, w', sp, id);
      }
    }
  }

  lemma HeldIsOpen(w: World, sp: Spot, id: string)
    requires Inv(w) && TopAt(w, sp, id) && sp.partition in w.alive && !Settled(w, id)
    ensures Open(w, sp, id)
  {
    assert !Superseded(w, sp, id);
  }

  /** A request held live before recovery is held live after it. */
  lemma HeldStays(w: World, claims: seq<nat>, live: set<nat>, w': World, h: Spot, id: string)
    requires Claims(w, claims) && Ids(w) && Chains(w) && Evidence(w) && Recovered(w, w', claims, live)
    requires TopAt(w, h, id) && h.partition in live
    ensures TopAt(w', h, id)
  {
    RecoveredOld(w, w', claims, live, h);
    forall x | Req(w', x, id)
      ensures Num(w', x) <= Num(w', h)
    {
      if Holds(w, x) {
        assert Survives(x.partition, live);
        RecoveredOld(w, w', claims, live, x);
        assert Req(w, x, id);
      } else {
        var top, start := FreshRequest(w, claims, live, w', x, id);
      }
    }
  }

  lemma RequestedBefore(w: World, claims: seq<nat>, live: set<nat>, w': World, sp: Spot, id: string) returns (y: Spot)
    requires Claims(w, claims) && Ids(w) && Chains(w) && Evidence(w) && Recovered(w, w', claims, live)
             && Req(w', sp, id)
    ensures Req(w, y, id)
  {
    if Holds(w, sp) {
      assert Survives(sp.partition, live);
      RecoveredOld(w, w', claims, live, sp);
      y := sp;
    } else {
      var top, start := FreshRequest(w, claims, live, w', sp, id);
      y := top;
    }
  }

  /** A dispatched retry that reached a node is the latest step of its request. */
  lemma DispatchedIsTop(w: World, r: Routes, claims: seq<nat>, w': World, id: string, z: Spot)
    requires Shape(w) && NextGeneration(w, r) && Restarted(w, r, w') && Recovered(w, w', claims, r.Live())
             && Attempts(w')
    requires Added(w, w', z) && Req(w', z, id) && z.partition != 0
    ensures TopAt(w', z, id) && z.partition in r.Live()
  {
    RecoverOpen(w, r, claims, w');
    assert Survives(z.partition, r.Live());
    assert Open(w', z, id);
    hide Shape, NextGeneration, Restarted, Recovered, Open;
    forall x | Req(w', x, id)
      ensures Num(w', x) <= Num(w', z)
    {
    }
  }

  lemma SameService(m: Message, v: Message)
    requires AddressOf(m) == AddressOf(v)
    ensures ServiceOf(m) == ServiceOf(v)
  {
  }

  /** After recovery the latest step of a retried request has the number its chain restarts at, and its actor. */
  lemma AsideAddress(w: World, claims: seq<nat>, live: set<nat>, w': World, sp: Spot, id: string, m: Message)
    requires Claims(w, claims) && Ids(w) && Chains(w) && Targets(w) && Evidence(w) && id !in w.finished
    requires Recovered(w, w', claims, live) && Delivered(w, w', claims, live)
    requires TopAt(w', sp, id) && MustRetry(Entries(w, claims), live, id) && IsRetry(Entries(w, claims), id, m)
    ensures AddressOf(Msg(w', sp)) == AddressOf(m)
  {
    var top, start := RetriedRestart(w, claims, live, id, m);
    assert AddressOf(m) == AddressOf(Msg(w, top));
    RestartAddress(w, claims, id, top, start);
    var x := StillThere(w, claims, live, w', start, id);
    hide AddressOf, MustRetry, IsRetry, Claims, Ids, Chains, Evidence;
    if Holds(w, sp) {
      assert Survives(sp.partition, live);
      RecoveredOld(w, w', claims, live, sp);
      assert Req(w, sp, id);
      assert Num(w, sp) == Num(w, start);
    } else {
      FreshNumber(w, claims, live, w', sp, id, start);
      FreshAddress(w, claims, live, w', sp, id, start);
    }
  }

  lemma FreshNumber(w: World, claims: seq<nat>, live: set<nat>, w': World, sp: Spot, id: string, start: Spot)
    requires Claims(w, claims) && Ids(w) && Chains(w) && Evidence(w) && Recovered(w, w', claims, live)
    requires Added(w, w', sp) && Req(w', sp, id) && ChainStart(Entries(w, claims), id, Num(w, start))
    ensures Num(w', sp) == Num(w, start)
  {
    var t, s := FreshRequest(w, claims, live, w', sp, id);
    EntriesWellFormed(w, claims);
    ChainStartUnique(Entries(w, claims), id, Num(w', sp), Num(w, start));
  }

  /** A request that no live node holds after recovery was not held before, so it was retried. */
  lemma AsideRetried(w: World, claims: seq<nat>, live: set<nat>, w': World, sp: Spot, id: string)
    requires Claims(w, claims) && Ids(w) && Chains(w) && Evidence(w) && Recovered(w, w', claims, live)
             && id !in w.finished
    requires TopAt(w', sp, id) && forall x :: TopAt(w', x, id) ==> x.partition !in live
    ensures MustRetry(Entries(w, claims), live, id)
  {
    hide Ids, Chains, Evidence, Recovered, Claims;
    var y := RequestedBefore(w, claims, live, w', sp, id);
    forall h | TopAt(w, h, id)
      ensures h.partition !in live
    {
      if h.partition in live {
        HeldStays(w, claims, live, w', h, id);
      }
    }
    var top := FindTop(w, claims, y, id);
    var start := FindRestart(w, claims, id, top);
    UnheldIsRetried(w, claims, live, id, top, start);
  }

  /** The retry of such a request could not be sent to any node. */
  lemma AsideUnoffered(w: World, r: Routes, claims: seq<nat>, w': World, id: string) returns (m: Message)
    requires Shape(w) && NextGeneration(w, r) && Restarted(w, r, w') && Recovered(w, w', claims, r.Live())
             && Attempts(w')
    requires Dispatched(w, w', claims, id) && forall x :: TopAt(w', x, id) ==> x.partition !in r.Live()
    ensures IsRetry(Entries(w, claims), id, m) && r.Offering(ServiceOf(m)) == []
  {
    assert w'.routes == r;
    hide Shape, NextGeneration, Restarted, Recovered, Attempts;
    m :| IsRetry(Entries(w, claims), id, m)
      && if r.Offering(ServiceOf(m)) != [] then
           exists z :: Added(w, w', z) && Req(w', z, id) && Msg(w', z) == m && z.partition != 0
         else
           || Parked(Entries(w, claims), id)
           || exists z :: Added(w, w', z) && Req(w', z, id) && Msg(w', z) == m && z.partition == 0;
    if r.Offering(ServiceOf(m)) != [] {
      var z :| Added(w, w', z) && Req(w', z, id) && Msg(w', z) == m && z.partition != 0;
      DispatchedIsTop(w, r, claims, w', id, z);
    }
  }

  /** After recovery, a request that no live node holds is in partition 0 and for a service without nodes. */
  lemma AsideIsUnavailable(w: World, r: Routes, claims: seq<nat>, actions: seq<Action>, picks: seq<string>, w': World,
                           sp: Spot, id: string)
    requires Inv(w) && Recover(w, r, claims, actions, picks, w') && Inv(w')
    requires TopAt(w', sp, id) && id !in w.finished && forall x :: TopAt(w', x, id) ==> x.partition !in r.Live()
    ensures sp.partition == 0 && r.Offering(ServiceOf(Msg(w', sp))) == []
  {
    var live := r.Live();
    RecoverFacts(w, r, claims, actions, picks, w');
    assert Restarted(w, r, w');
    assert Survives(sp.partition, live);
    hide Shape, Ids, Chains, Targets, Attempts, Progress, Evidence, Placed, Lineage, Waits, Recovered, Restarted,
         NextGeneration, ServiceOf, AddressOf;
    hide Claims, Holds, Msg, TopAt, Dispatched, MustRetry, IsRetry, Decides, MayPickAll, AfterActions, Emptied;
    AsideRetried(w, claims, live, w', sp, id);
    var m := AsideUnoffered(w, r, claims, w', id);
    AsideAddress(w, claims, live, w', sp, id, m);
    SameService(Msg(w', sp), m);
  }

  // ----- recovery converges -----

  /** An action that leaves everything as it is: a retry nobody can take and partition 0 holds already. */
  ghost predicate Idle(r: Routes, a: Action) {
    a.Resend? && a.drop && a.retry.IsRequest() && !a.retry.target.Node? && r.Offering(ServiceOf(a.retry)) == []
  }

  lemma {:induction false} IdleActions(r: Routes, s: Shared, actions: seq<Action>, picks: seq<string>)
    requires |picks| == |actions| && forall i :: 0 <= i < |actions| ==> Idle(r, actions[i])
    ensures AfterActions(r, s, actions, picks) == s
  {
    if |actions| > 0 {
      var n := |actions| - 1;
      IdleActions(r, s, actions[..n], picks[..n]);
      assert Idle(r, actions[n]);
    }
  }

  /** What a second recovery would retry is idle. */
  lemma RetryIsIdle(w: World, r: Routes, c1: seq<nat>, a1: seq<Action>, p1: seq<string>, w1: World, c2: seq<nat>,
                    id: string, m: Message)
    requires Inv(w) && Recover(w, r, c1, a1, p1, w1) && Inv(w1) && Claims(w1, c2)
    requires MustRetry(Entries(w1, c2), r.Live(), id) && IsRetry(Entries(w1, c2), id, m)
    ensures Parked(Entries(w1, c2), id) && r.Offering(ServiceOf(m)) == []
  {
    var top := RetrySource(w1, c2, id, m);
    RetriedUnfinished(w1, c2, r.Live(), id, top);
    HeldTop(w1, c2, r.Live(), id);
    assert w1.finished == w.finished;
    hide Inv, Recover, Claims, Req;
    AsideIsUnavailable(w, r, c1, a1, p1, w1, top, id);
    SpotEntry(w1, c2, top);
    TopHighest(w1, c2, top, id);
    assert Requests(Entry(0, Msg(w1, top)), id);
  }

  /** After a completed recovery nothing is left for a second one to confirm. */
  lemma NothingToConfirm(w: World, r: Routes, c1: seq<nat>, a1: seq<Action>, p1: seq<string>, w1: World, c2: seq<nat>,
                         id: string)
    requires Inv(w) && Recover(w, r, c1, a1, p1, w1)
    ensures !MustConfirm(Entries(w1, c2), r.Live(), id)
  {
    RecoverFacts(w, r, c1, a1, p1, w1);
    hide Inv, Recover;
    if MustConfirm(Entries(w1, c2), r.Live(), id) {
      var e :| e in Entries(w1, c2) && e.partition !in r.Live() && e.partition != 0 && Answers(e, id);
      var sp := EntrySpot(w1, c2, e);
    }
  }

  lemma AllIdle(w: World, r: Routes, c1: seq<nat>, a1: seq<Action>, p1: seq<string>, w1: World, c2: seq<nat>,
                a2: seq<Action>)
    requires Inv(w) && Recover(w, r, c1, a1, p1, w1) && Inv(w1) && Claims(w1, c2)
    requires Decides(Entries(w1, c2), r.Live(), a2) && Sane(a2)
    ensures forall i :: 0 <= i < |a2| ==> Idle(r, a2[i])
  {
    hide Inv, Recover, Claims;
    forall i | 0 <= i < |a2|
      ensures Idle(r, a2[i])
    {
      if a2[i].Confirm? {
        NothingToConfirm(w, r, c1, a1, p1, w1, c2, a2[i].id);
      } else {
        RetryIsIdle(w, r, c1, a1, p1, w1, c2, a2[i].retry.id, a2[i].retry);
      }
    }
  }

  lemma EmptiedAgain(w: World, claims: seq<nat>)
    requires Shape(w)
    ensures Emptied(w.shared, DeadClaims(claims, w.routes.Live())) == w.shared
  {
    forall p | p in w.shared.topic && p in DeadClaims(claims, w.routes.Live())
      ensures w.shared.topic[p] == []
    {
      assert Log(w, p) == [];
    }
  }

  /** With the same nodes and services, a second recovery changes nothing. */
  lemma SecondRecoveryIdle(w: World, r: Routes, c1: seq<nat>, a1: seq<Action>, p1: seq<string>, w1: World,
                           c2: seq<nat>, a2: seq<Action>, p2: seq<string>, w2: World)
    requires Inv(w) && Recover(w, r, c1, a1, p1, w1) && Recover(w1, r, c2, a2, p2, w2)
    ensures w2.shared == w1.shared
  {
    RecoverKeeps(w, r, c1, a1, p1, w1);
    hide Shape, Ids, Chains, Targets, Attempts, Progress, Evidence, Placed, Lineage, Waits;
    hide AfterActions, Emptied, Decides, Claims, Entries, NextGeneration;
    DecidesSane(w1, c2, r.Live(), a2);
    AllIdle(w, r, c1, a1, p1, w1, c2, a2);
    IdleActions(r, w1.shared, a2, p2);
    EmptiedAgain(w1, c2);
  }

  // ----- when rebalancing stops recovering -----

  /** The leader's marks on partition 0: how far it has been processed, and its end when last seen to have grown. */
  datatype Marks = Marks(offset0: int, max0: int)

  /** Plan finds unprocessed records in partition 0. */
  predicate Grown(w: World, k: Marks) { Log(w, 0) != [] && k.offset0 < |Log(w, 0)| }

  /** Plan sees no reason to recover. */
  ghost predicate Clean(w: World, k: Marks) {
    (forall p :: p != 0 && p !in w.routes.Live() ==> Log(w, p) == []) && !Grown(w, k)
  }

  /** The marks after a recovery started by a Plan on w: offset0 becomes max0. */
  function Marked(w: World, k: Marks): Marks {
    var max0 := if Grown(w, k) then |Log(w, 0)| else k.max0;
    Marks(max0, max0)
  }

  /** At most two recoveries in a row: if the Plan after the first is not clean, the Plan after the second is. */
  lemma CleanAfterTwo(w: World, r: Routes, c1: seq<nat>, a1: seq<Action>, p1: seq<string>, w1: World,
                      c2: seq<nat>, a2: seq<Action>, p2: seq<string>, w2: World, k: Marks)
    requires Inv(w) && Recover(w, r, c1, a1, p1, w1) && Recover(w1, r, c2, a2, p2, w2)
    ensures Clean(w1, Marked(w, k)) || Clean(w2, Marked(w1, Marked(w, k)))
  {
    SecondRecoveryIdle(w, r, c1, a1, p1, w1, c2, a2, p2, w2);
    RecoverKeeps(w, r, c1, a1, p1, w1);
    assert Shape(w1) && w2.routes == w1.routes;
    hide Inv, Recover;
    assert forall p :: Log(w2, p) == Log(w1, p);
  }

  /** The offsets of the topic as Plan reads them. */
  ghost predicate Offsets(w: World, log: seq<Strategy.Range>) {
    && |log| > 0 && log[0].max == |Log(w, 0)|
    && (forall p: nat :: p < |log| ==> (log[p].Empty() <==> Log(w, p) == []))
    && (forall p: nat :: p >= |log| ==> Log(w, p) == [])
  }

  /** Clean is the test Plan makes, and Marked the mark it sets. */
  lemma CleanForPlan(w: World, k: Marks, log: seq<Strategy.Range>)
    requires Offsets(w, log) && k.offset0 >= 0
    ensures Clean(w, k) <==> Strategy.Clean(log, w.routes.Live(), k.offset0)
    ensures Marked(w, k).max0 == if !log[0].Empty() && k.offset0 < log[0].max then log[0].max else k.max0
  {
    hide Log;
    if Strategy.Clean(log, w.routes.Live(), k.offset0) {
      forall p: nat | p != 0 && p !in w.routes.Live() ensures Log(w, p) == [] {
        assert p < |log| ==> log[p].Empty();
      }
    }
    if Clean(w, k) {
      forall p: nat | 0 < p < |log| && p !in w.routes.Live() ensures log[p].Empty() { assert Log(w, p) == []; }
    }
  }

  // ----- callers and callees -----

  /** While a retry that names a callee executes, the callee is finished and not running anywhere. */
  lemma RetryAfterCallee(ws: seq<World>, steps: seq<Step>, k: nat, sp: Spot, c: string)
    requires Run(ws, steps) && k < |ws| && IsRunning(ws[k], sp) && Child(ws[k], sp) == c != ""
    ensures c in ws[k].finished && forall x :: !Open(ws[k], x, c)
  {
    RunInv(ws, steps, k);
    hide Run, Open;
  }

  lemma AnswerReaches(w: World, s: Step, w': World, sp: Spot, id: string)
    requires Inv(w) && Next(w, s, w') && Answering(s) && Open(w, sp, id)
             && Child(w, sp) == Msg(w, AnsweredAt(w, s)).id != ""
    ensures var m := Msg(w, AnsweredAt(w, s)); m.Call? && w.routes.PartitionOf(m.caller) == 0
    ensures sp.offset < |Log(w, sp.partition)| && Log(w', sp.partition) == Log(w, sp.partition) + [s.reply]
  {
    AnswerFacts(w, s, w');
    hide Next;
    RedirectReaches(w, sp, id, AnsweredAt(w, s), Msg(w, AnsweredAt(w, s)));
  }

  /**
   * The reply of the callee lands after the retry, in the retry's own partition, though the caller it was sent to is
   * gone.
   */
  lemma CalleeReplyReachesRetry(ws: seq<World>, steps: seq<Step>, k: nat, sp: Spot, id: string)
    requires Run(ws, steps) && k < |steps| && Answering(steps[k])
    requires Open(ws[k], sp, id) && Child(ws[k], sp) == Msg(ws[k], AnsweredAt(ws[k], steps[k])).id != ""
    ensures var m := Msg(ws[k], AnsweredAt(ws[k], steps[k])); m.Call? && ws[k].routes.PartitionOf(m.caller) == 0
    ensures var n := |Log(ws[k], sp.partition)|;
            sp.offset < n && Log(ws[k + 1], sp.partition) == Log(ws[k], sp.partition) + [steps[k].reply]
  {
    RunInv(ws, steps, k);
    assert Next(ws[k], steps[k], ws[k + 1]);
    hide Run, Inv, Next, Open, Log;
    AnswerReaches(ws[k], steps[k], ws[k + 1], sp, id);
  }

  /**
   * A request that is answered while the node it was called from runs: the reply lands in the partition of that node,
   * where the caller is executing, and nowhere else.
   */
  lemma CallerGetsReply(ws: seq<World>, steps: seq<Step>, k: nat)
    requires Run(ws, steps) && k < |steps| && Answering(steps[k])
    requires var m := Msg(ws[k], AnsweredAt(ws[k], steps[k]));
             m.Call? && m.id in ws[k].origin && ws[k].routes.PartitionOf(ws[k].origin[m.id].node) in ws[k].alive
    ensures var m := Msg(ws[k], AnsweredAt(ws[k], steps[k]));
            exists sp ::
              && IsRunning(ws[k], sp) && Req(ws[k], sp, ws[k].origin[m.id].parent)
              && (forall p :: Log(ws[k + 1], p) == Log(ws[k], p) + if p == sp.partition then [steps[k].reply] else [])
              && steps[k].reply.Response? && steps[k].reply.id == m.id && m.id in ws[k + 1].finished
  {
    var w, s, w' := ws[k], steps[k], ws[k + 1];
    RunInv(ws, steps, k);
    assert Next(w, s, w');
    hide Run;
    var m := Msg(w, AnsweredAt(w, s));
    RepliesTo(w, s, w');
    assert Req(w, AnsweredAt(w, s), m.id);
    AttemptOf(w, s, w');
    assert m.caller == w.origin[m.id].node && m.id !in w.finished;
    assert CallerRuns(w, m.id) && w.routes.PartitionOf(m.caller) != 0;
    hide Inv, Next, Holds, Msg;
    var sp :| IsRunning(w, sp) && Req(w, sp, w.origin[m.id].parent)
      && sp.partition == w.routes.PartitionOf(w.origin[m.id].node);
  }

  /** The request a step answers is open. */
  lemma AttemptOf(w: World, s: Step, w': World)
    requires Inv(w) && Answering(s) && Next(w, s, w')
    ensures var m := Msg(w, AnsweredAt(w, s)); m.IsRequest() && Open(w, AnsweredAt(w, s), m.id) && m.id !in w.finished
  {
    hide Chains, Targets, Progress, Evidence, Placed, Lineage, Waits, Replied;
    assert Req(w, AnsweredAt(w, s), Msg(w, AnsweredAt(w, s)).id);
  }

  /**
   * Where a reply goes: the Done of a tell to partition 0, the Response of a call to its caller if that node has a
   * partition, else to the node a redirect names, and then the redirect is gone; without one it is dropped.
   */
  ghost predicate SentTo(w: World, m: Message, reply: Message, w': World)
    requires m.IsRequest()
  {
    var home := m.Tell? || w.routes.PartitionOf(m.caller) != 0;
    var q := if m.Tell? then 0 else if home then w.routes.PartitionOf(m.caller)
             else if m.id in w.shared.redirects then w.routes.PartitionOf(w.shared.redirects[m.id]) else 0;
    var sent := home || m.id in w.shared.redirects;
    && (forall p :: Log(w', p) == Log(w, p) + if sent && p == q then [reply] else [])
    && w'.shared.redirects == (if home then w.shared.redirects else w.shared.redirects - {m.id})
    && (sent ==> w'.finished == w.finished + {m.id} && w'.abandoned == w.abandoned)
    && (!sent ==> w'.finished == w.finished && w'.abandoned == w.abandoned + {m.id})
  }

  lemma RepliedTo(w: World, m: Message, reply: Message)
    requires m.IsRequest()
    ensures SentTo(w, m, reply, Replied(w, m, reply))
  {
  }

  lemma SentToSame(w: World, m: Message, reply: Message, v: World, w': World)
    requires m.IsRequest() && SentTo(w, m, reply, v)
    requires w'.shared == v.shared && w'.finished == v.finished && w'.abandoned == v.abandoned
    ensures SentTo(w, m, reply, w')
  {
  }

  lemma RepliesTo(w: World, s: Step, w': World)
    requires Answering(s) && Next(w, s, w')
    ensures var m := Msg(w, AnsweredAt(w, s));
            && m.IsRequest() && s.reply.id == m.id && (m.Tell? <==> s.reply.Done?) && (m.Call? <==> s.reply.Response?)
            && SentTo(w, m, s.reply, w')
  {
    hide Unblocked, Holds, Msg, Replied, SentTo;
    var m := Msg(w, AnsweredAt(w, s));
    assert m.IsRequest();
    RepliedTo(w, m, s.reply);
    SentToSame(w, m, s.reply, Replied(w, m, s.reply), w');
  }

  /**
   * A waiting retry will be woken unless the reply of its callee was dropped: the callee is pending, or its reply is
   * ahead.
   */
  lemma NoLostWakeup(ws: seq<World>, steps: seq<Step>, k: nat, sp: Spot, id: string, c: string)
    requires Run(ws, steps) && k < |ws| && Open(ws[k], sp, id) && Child(ws[k], sp) == c != "" && !IsRunning(ws[k], sp)
    requires c in ws[k].abandoned ==> c in ws[k].finished
    ensures (exists x :: Pending(ws[k], x, c)) || ReplyAhead(ws[k], sp, c)
  {
    RunInv(ws, steps, k);
    if c !in ws[k].finished {
      assert c in ws[k].issued by {
        hide Run, ReplyAhead;
        assert Req(ws[k], sp, id);
      }
      NothingLost(ws, steps, k, c);
    } else {
      hide Run, ReplyAhead;
    }
  }

  /** m and v are the same request, apart from the number, the callee to wait for, and the lock. */
  predicate SamePayload(m: Message, v: Message) {
    && m.IsRequest() && v.IsRequest() && (m.Call? <==> v.Call?) && m.id == v.id
    && m.value == v.value && m.methodName == v.methodName && m.deadline == v.deadline && m.parent == v.parent
    && m.edited == v.edited
    && (m.Call? ==> m.caller == v.caller)
    && match m.target
       case Session(name, key, flow, _) =>
         v.target.Session? && v.target.name == name && v.target.key == key && v.target.flow == flow
       case other => v.target == other
  }

  /**
   * Only the last step of a chain is retried: the record recovery writes for id carries the payload of the latest step,
   * it restarts a run of retained-lock tail calls at its first number, and no later number of id is left in the topic.
   */
  lemma OnlyLastStepRetried(ws: seq<World>, steps: seq<Step>, k: nat, sp: Spot, id: string)
    requires Run(ws, steps) && k < |steps| && steps[k].RecoverStep?
    requires Added(ws[k], ws[k + 1], sp) && Req(ws[k + 1], sp, id)
    ensures exists top, start ::
              && Restart(ws[k], id, top, start) && top.partition !in ws[k + 1].alive
              && IsLatest(Entries(ws[k], steps[k].claims), id, Msg(ws[k], top))
              && SamePayload(Msg(ws[k + 1], sp), Msg(ws[k], top)) && Num(ws[k + 1], sp) == Num(ws[k], start)
    ensures TopAt(ws[k + 1], sp, id) && !Locked(ws[k + 1], sp)
  {
    var w, w', s := ws[k], ws[k + 1], steps[k];
    RunInv(ws, steps, k);
    assert Recover(w, s.routes, s.claims, s.actions, s.picks, w');
    hide Run;
    RecoverFacts(w, s.routes, s.claims, s.actions, s.picks, w');
    var live := s.routes.Live();
    hide Inv, Recover;
    LastStep(w, s.claims, live, w', sp, id);
  }

  /**
   * A run of retained-lock tail calls and the record that restarts it name one actor and one flow: the record recovery
   * writes for id is for the actor of every step of the run it restarts.
   */
  lemma RetryKeepsActor(ws: seq<World>, steps: seq<Step>, k: nat, sp: Spot, id: string, x: Spot)
    requires Run(ws, steps) && k < |steps| && steps[k].RecoverStep?
    requires Added(ws[k], ws[k + 1], sp) && Req(ws[k + 1], sp, id)
    requires Req(ws[k], x, id) && Num(ws[k], x) >= Num(ws[k + 1], sp)
    ensures SameActor(Msg(ws[k + 1], sp).target, Msg(ws[k], x).target)
  {
    RunInv(ws, steps, k);
    assert Next(ws[k], steps[k], ws[k + 1]);
    hide *;
    RecoveryKeepsActor(ws[k], steps[k], ws[k + 1], sp, id, x);
  }

  /**
   * A reply that recovery writes is a Done in partition 0. It has the id and the deadline of a reply that recovery
   * deletes, though the request survives, and no reply of it was in partition 0.
   */
  lemma ConfirmationsEcho(ws: seq<World>, steps: seq<Step>, k: nat, sp: Spot, id: string)
    requires Run(ws, steps) && k < |steps| && steps[k].RecoverStep? && Added(ws[k], ws[k + 1], sp)
             && Reply(ws[k + 1], sp, id)
    ensures sp.partition == 0 && Msg(ws[k + 1], sp).Done? && forall x :: Reply(ws[k], x, id) ==> x.partition != 0
    ensures exists x, y :: && Reply(ws[k], x, id) && Msg(ws[k], x).deadline == Msg(ws[k + 1], sp).deadline
                           && x.partition != 0 && x.partition !in ws[k + 1].alive && Log(ws[k + 1], x.partition) == []
                           && Req(ws[k], y, id) && (y.partition == 0 || y.partition in ws[k + 1].alive)
  {
    RunInv(ws, steps, k);
    RunInv(ws, steps, k + 1);
    assert Next(ws[k], steps[k], ws[k + 1]);
    hide *;
    var x, y := ConfirmationEchoes(ws[k], steps[k], ws[k + 1], sp, id);
  }

  lemma ConfirmationEchoes(w: World, s: Step, w': World, sp: Spot, id: string) returns (x: Spot, y: Spot)
    requires Inv(w) && Inv(w') && s.RecoverStep? && Next(w, s, w') && Added(w, w', sp) && Reply(w', sp, id)
    ensures sp.partition == 0 && Msg(w', sp).Done? && forall z :: Reply(w, z, id) ==> z.partition != 0
    ensures Reply(w, x, id) && Msg(w, x).deadline == Msg(w', sp).deadline
            && x.partition != 0 && x.partition !in w'.alive && Log(w', x.partition) == []
            && Req(w, y, id) && (y.partition == 0 || y.partition in w'.alive)
  {
    hide NextGeneration, Decides, MayPickAll, AfterActions, Emptied;
    assert Recover(w, s.routes, s.claims, s.actions, s.picks, w');
    assert w'.alive == s.routes.Live() && w'.routes == s.routes && Claims(w, s.claims);
    assert forall p :: p != 0 && p !in w'.routes.Live() ==> Log(w', p) == [];
    hide Inv;
    RecoverFacts(w, s.routes, s.claims, s.actions, s.picks, w');
    hide Recover, Delivered, Repointed, Placed, MustConfirm, Echoes, Claims;
    assert MustConfirm(Entries(w, s.claims), w'.alive, id)
           && Confirms(Entries(w, s.claims), w'.alive, Msg(w', sp), sp.partition);
    hide Recovered, Log;
    x, y := DeadReply(w, s.claims, w'.alive, id, Msg(w', sp).deadline);
    NoReplyAside(w, s.claims, w'.alive, id);
  }

  lemma DeadReply(w: World, claims: seq<nat>, live: set<nat>, id: string, deadline: Time) returns (x: Spot, y: Spot)
    requires MustConfirm(Entries(w, claims), live, id) && Echoes(Entries(w, claims), live, Confirm(id, deadline))
    ensures Reply(w, x, id) && Msg(w, x).deadline == deadline && x.partition != 0 && x.partition !in live
    ensures Req(w, y, id) && (y.partition == 0 || y.partition in live)
  {
    var es := Entries(w, claims);
    var e :| e in es && e.partition !in live && e.partition != 0 && Answers(e, id) && e.msg.deadline == deadline;
    var f :| f in es && (f.partition in live || f.partition == 0) && Requests(f, id);
    hide Entries, Holds;
    x := EntrySpot(w, claims, e);
    y := EntrySpot(w, claims, f);
  }

  lemma NoReplyAside(w: World, claims: seq<nat>, live: set<nat>, id: string)
    requires Claims(w, claims) && MustConfirm(Entries(w, claims), live, id)
    ensures forall x :: Reply(w, x, id) ==> x.partition != 0
  {
    forall x | Reply(w, x, id) && x.partition == 0 ensures false {
      SpotEntry(w, claims, x);
      assert Answers(Entry(0, Msg(w, x)), id);
    }
  }

  lemma RecoveryKeepsActor(w: World, s: Step, w': World, sp: Spot, id: string, x: Spot)
    requires Inv(w) && s.RecoverStep? && Next(w, s, w')
    requires Added(w, w', sp) && Req(w', sp, id) && Req(w, x, id) && Num(w, x) >= Num(w', sp)
    ensures SameActor(Msg(w', sp).target, Msg(w, x).target)
  {
    hide Inv, NextGeneration, Decides, MayPickAll, AfterActions, Emptied, Holds, Msg, Req, Added, SameActor;
    assert Recover(w, s.routes, s.claims, s.actions, s.picks, w');
    RecoverFacts(w, s.routes, s.claims, s.actions, s.picks, w');
    hide *;
    StepKeepsActor(w, s.claims, s.routes.Live(), w', sp, id, x);
  }

  lemma StepKeepsActor(w: World, claims: seq<nat>, live: set<nat>, w': World, sp: Spot, id: string, x: Spot)
    requires Inv(w) && Claims(w, claims) && Recovered(w, w', claims, live)
    requires Added(w, w', sp) && Req(w', sp, id) && Req(w, x, id) && Num(w, x) >= Num(w', sp)
    ensures AddressOf(Msg(w', sp)) == AddressOf(Msg(w, x)) && SameActor(Msg(w', sp).target, Msg(w, x).target)
  {
    hide Shape, Attempts, Progress, Placed, Lineage, Waits;
    var top, start := FreshRequest(w, claims, live, w', sp, id);
    FreshAddress(w, claims, live, w', sp, id, start);
    hide Recovered, IsRetry, IsLatest, Evidence;
    StartOfTop(w, claims, id, top, Num(w, start));
    hide Claims, Ids, Holds;
    ChainAddress(w, id, x, start);
  }

  lemma LastStep(w: World, claims: seq<nat>, live: set<nat>, w': World, sp: Spot, id: string)
    requires Inv(w) && Claims(w, claims) && Recovered(w, w', claims, live) && w'.alive == live
    requires Added(w, w', sp) && Req(w', sp, id)
    ensures exists top, start ::
              && Restart(w, id, top, start) && top.partition !in live && IsLatest(Entries(w, claims), id, Msg(w, top))
              && SamePayload(Msg(w', sp), Msg(w, top)) && Num(w', sp) == Num(w, start)
    ensures !Locked(w', sp) && forall x :: Req(w', x, id) ==> Num(w', x) <= Num(w', sp)
  {
    hide Shape, Ids, Chains, Targets, Attempts, Progress, Evidence, Placed, Lineage, Waits, Claims, Recovered;
    var top, start := FreshRequest(w, claims, live, w', sp, id);
    assert SamePayload(Msg(w', sp), Msg(w, top));
    forall x | Req(w', x, id) ensures Num(w', x) <= Num(w', sp) {
      FreshIsTop(w, w', claims, live, sp, x, id);
    }
  }
}
