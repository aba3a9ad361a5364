/** An invocation can be attempted again until its reply is in the topic. */
module Reattempts {
  import opened Messages
  import opened RecoverySpec
  import opened RecoveryTables
  import opened Routing
  import opened Protocol
  import opened ProtocolSteps
  import opened ProtocolRecovery
  import opened ProtocolInvariant
  import opened ProtocolCopies
  import opened Guarantees
  import opened Rebalance
  import opened RunBuilding

  // ----- unfinished requests stay in the topic -----

  ghost predicate Kept(w: World) { forall id :: id in w.issued && id !in w.finished ==> exists sp :: Req(w, sp, id) }

  lemma RecoverKept(w: World, r: Routes, claims: seq<nat>, actions: seq<Action>, picks: seq<string>, w': World)
    requires Inv(w) && Recover(w, r, claims, actions, picks, w') && Kept(w)
    ensures Kept(w')
  {
    RecoverFacts(w, r, claims, actions, picks, w');
    assert Claims(w, claims) && w'.issued == w.issued && w'.finished == w.finished;
    hide Recover, Shape, Chains, Ids, Evidence, Recovered, Delivered, Claims;
    forall id | id in w'.issued && id !in w'.finished ensures exists sp :: Req(w', sp, id) {
      var sp :| Req(w, sp, id);
      var low := SomeUnlocked(w, claims, sp, id);
      var x := StillThere(w, claims, r.Live(), w', low, id);
    }
  }

  lemma SameKept(w: World, w': World)
    requires Kept(w) && Grows(w, w') && w'.issued == w.issued
    ensures Kept(w')
  {
    hide Grows, Req;
    forall id | id in w'.issued && id !in w'.finished ensures exists sp :: Req(w', sp, id) {
      FinishedLater(w, w');
      var sp :| Req(w, sp, id);
      HeldLater(w, w', sp, id);
    }
  }

  lemma FinishedLater(w: World, w': World)
    requires Grows(w, w')
    ensures w.finished <= w'.finished
  {
  }

  lemma IssueKept(w: World, m: Message, pick: string, w': World)
    requires Shape(w) && Ids(w) && Issue(w, m, pick, w') && Grows(w, w') && Kept(w)
    ensures Kept(w')
  {
    var added := IssueFacts(w, m, pick, w');
    assert Req(w', added, m.id) && w'.issued == w.issued + {m.id} && w'.finished == w.finished;
    hide Shape, Ids, Issue, Grows, Req;
    forall id | id in w'.issued && id !in w'.finished ensures exists sp :: Req(w', sp, id) {
      if id != m.id {
        var sp :| Req(w, sp, id);
        HeldLater(w, w', sp, id);
      }
    }
  }

  lemma SameIssued(w: World, s: Step, w': World)
    requires Next(w, s, w') && !s.IssueStep?
    ensures w'.issued == w.issued
  {
    hide RouteTo, MayPick, ReplyTo, Unblocked, Decides, AfterActions, Emptied, Claims, NextGeneration;
  }

  lemma StepKept(w: World, s: Step, w': World)
    requires Inv(w) && Next(w, s, w') && Kept(w)
    ensures Kept(w')
  {
    if s.RecoverStep? {
      hide Inv, Recover, Kept;
      RecoverKept(w, s.routes, s.claims, s.actions, s.picks, w');
    } else {
      hide Issue, TailCall, Finish, Expire, Timeout, Read, Crash, Grows, Kept, Shape, Ids;
      GrowsStep(w, s, w');
      if s.IssueStep? {
        IssueKept(w, s.m, s.pick, w');
      } else {
        SameIssued(w, s, w');
        SameKept(w, w');
      }
    }
  }

  /** A request that has no reply in the topic has a record in it, returned or not. */
  lemma {:induction false} RunKept(ws: seq<World>, steps: seq<Step>, k: nat)
    requires Run(ws, steps) && k < |ws|
    ensures Kept(ws[k])
  {
    hide Inv, Next;
    if k > 0 {
      RunKept(ws, steps, k - 1);
      RunInv(ws, steps, k - 1);
      hide Kept;
      assert Next(ws[k - 1], steps[k - 1], ws[k - 1 + 1]);
      StepKept(ws[k - 1], steps[k - 1], ws[k]);
    }
  }

  // ----- a new node -----

  /** A name longer than every name in the set. */
  lemma {:induction false} FreshName(used: set<string>) returns (n: string)
    ensures n !in used && n != "" && forall m :: m in used ==> |m| < |n|
    decreases used
  {
    if used == {} {
      n := "n";
    } else {
      var m :| m in used;
      var shorter := FreshName(used - {m});
      n := shorter + m + "n";
      assert forall x :: x in used ==> x == m || x in used - {m};
    }
  }

  lemma {:induction false} FreshPartition(used: set<nat>) returns (p: nat)
    ensures p != 0 && p !in used && forall q :: q in used ==> q < p
    decreases used
  {
    if used == {} {
      p := 1;
    } else {
      var q :| q in used;
      var above := FreshPartition(used - {q});
      p := above + q;
      assert forall x :: x in used ==> x == q || x in used - {q};
    }
  }

  /** The nodes among ns that still run. */
  function Running(w: World, ns: seq<string>): (rs: seq<string>)
    ensures forall n :: n in rs <==> n in ns && w.routes.PartitionOf(n) in w.alive
  {
    if ns == [] then []
    else if w.routes.PartitionOf(ns[0]) in w.alive then [ns[0]] + Running(w, ns[1..])
    else Running(w, ns[1..])
  }

  /** The tables once node n, which offers service svc, has joined the nodes that still run. */
  ghost function JoinedBy(w: World, svc: string, n: string, p: nat): Routes {
    Routes((map s | s in w.routes.services.Keys + {svc} ::
        Running(w, w.routes.Offering(s)) + if s == svc then [n] else []),
           (map m | m in w.routes.partitions && w.routes.partitions[m] in w.alive :: w.routes.partitions[m])[n := p])
  }

  lemma JoinedByNext(w: World, svc: string, n: string, p: nat)
    requires Shape(w) && n !in w.known && n != "" && p != 0 && p !in w.alive && Log(w, p) == []
    ensures NextGeneration(w, JoinedBy(w, svc, n, p)) && n in JoinedBy(w, svc, n, p).Offering(svc)
    ensures forall q :: q in JoinedBy(w, svc, n, p).Live() ==> q == p || q in w.alive
  {
    var r := JoinedBy(w, svc, n, p);
    assert forall m :: m in r.partitions && m != n ==> m in w.routes.partitions
                                                       && r.partitions[m] == w.routes.partitions[m]
                                                          && r.partitions[m] in w.alive;
    forall s, i | s in r.services && 0 <= i < |r.services[s]| ensures r.PartitionOf(r.services[s][i]) != 0 {
      var m := r.services[s][i];
      assert m in r.services[s];
      if m != n {
        assert m in Running(w, w.routes.Offering(s));
        assert w.routes.PartitionOf(m) in w.alive;
        assert w.routes.PartitionOf(m) in w.routes.Live();
      }
    }
  }

  // ----- one more recovery -----

  function PickFor(r: Routes, a: Action): string {
    if a.Resend? && a.retry.IsRequest() && !a.retry.target.Node? && r.Offering(a.retry.target.name) != []
    then r.Offering(a.retry.target.name)[0] else ""
  }

  /** Recovery can always run. */
  lemma CanRecover(w: World, r: Routes) returns (s: Step, w': World)
    requires Ids(w) && NextGeneration(w, r)
    ensures s.RecoverStep? && s.routes == r && Recover(w, r, s.claims, s.actions, s.picks, w')
  {
    NoNodeOnZero(w, r);
    hide NextGeneration, Ids;
    var claims := SomeClaims(w);
    EntriesWellFormed(w, claims);
    var es := Entries(w, claims);
    ActionsDecide(es, r.Live());
    hide WellFormed, Claims, Decides, Entries, ActionsFor;
    var actions := ActionsFor(es, r.Live(), Orphans(es, r.Live()));
    var picks := seq(|actions|, i requires 0 <= i < |actions| => PickFor(r, actions[i]));
    assert MayPickAll(r, actions, picks);
    s := RecoverStep(r, claims, actions, picks);
    hide MayPickAll, AfterActions, Emptied;
    w' := Rebalanced(w, r, Emptied(AfterActions(r, w.shared, actions, picks), DeadClaims(claims, r.Live())));
  }

  /** A request that no live node holds is open after a recovery with a node that offers its service. */
  lemma RetriedOpen(w: World, s: Step, w': World, top: Spot, id: string) returns (sp: Spot)
    requires Inv(w) && s.RecoverStep? && Recover(w, s.routes, s.claims, s.actions, s.picks, w')
    requires TopAt(w, top, id) && id !in w.finished && s.routes.Offering(ServiceOf(Msg(w, top))) != []
    requires forall x :: TopAt(w, x, id) ==> x.partition !in s.routes.Live()
    ensures Open(w', sp, id)
  {
    var r, claims := s.routes, s.claims;
    assert Claims(w, claims) && NextGeneration(w, r) && Restarted(w, r, w');
    RecoverFacts(w, r, claims, s.actions, s.picks, w');
    hide Shape, Ids, Chains, Targets, Attempts, Progress, Evidence, Placed, Lineage, Waits, Recover, Claims,
         NextGeneration, Recovered;
    hide Restarted, TopAt, Open, MustRetry, Dispatched;
    var start := FindRestart(w, claims, id, top);
    UnheldIsRetried(w, claims, r.Live(), id, top, start);
    assert Dispatched(w, w', claims, id);
    hide Delivered;
    var m := DispatchedTo(w, w', claims, id, top);
    RecoverOpen(w, r, claims, w');
    sp := DispatchedSpot(w, r, w', claims, id, m);
  }

  ghost predicate SentAs(w: World, w': World, id: string, m: Message) {
    exists sp :: Added(w, w', sp) && Req(w', sp, id) && Msg(w', sp) == m && sp.partition != 0
  }

  lemma DispatchedAs(w: World, w': World, claims: seq<nat>, id: string) returns (m: Message)
    requires Dispatched(w, w', claims, id)
    ensures IsRetry(Entries(w, claims), id, m) && (w'.routes.Offering(ServiceOf(m)) != [] ==> SentAs(w, w', id, m))
  {
    hide IsRetry, Parked, Entries, Added, Req;
    m :| IsRetry(Entries(w, claims), id, m)
      && if w'.routes.Offering(ServiceOf(m)) != [] then
           exists sp :: Added(w, w', sp) && Req(w', sp, id) && Msg(w', sp) == m && sp.partition != 0
         else
           || Parked(Entries(w, claims), id)
           || exists sp :: Added(w, w', sp) && Req(w', sp, id) && Msg(w', sp) == m && sp.partition == 0;
  }

  lemma DispatchedTo(w: World, w': World, claims: seq<nat>, id: string, top: Spot) returns (m: Message)
    requires Claims(w, claims) && Targets(w) && Dispatched(w, w', claims, id) && TopAt(w, top, id)
    requires w'.routes.Offering(ServiceOf(Msg(w, top))) != []
    ensures SentAs(w, w', id, m)
  {
    hide Claims, IsRetry, SentAs, Dispatched, Entries;
    m := DispatchedAs(w, w', claims, id);
    var src := RetrySource(w, claims, id, m);
    assert ServiceOf(m) == ServiceOf(Msg(w, src)) && Num(w, src) == Num(w, top);
  }

  lemma DispatchedSpot(w: World, r: Routes, w': World, claims: seq<nat>, id: string, m: Message) returns (sp: Spot)
    requires SentAs(w, w', id, m)
    requires Recovered(w, w', claims, r.Live())
    requires forall x :: Added(w, w', x) && Req(w', x, id) && x.partition in r.Live() ==> Open(w', x, id)
    ensures Open(w', sp, id)
  {
    sp :| Added(w, w', sp) && Req(w', sp, id) && Msg(w', sp) == m && sp.partition != 0;
    hide Open;
    assert Survives(sp.partition, r.Live());
  }

  // ----- the theorem -----

  ghost predicate Continues(ws: seq<World>, steps: seq<Step>, ws': seq<World>, steps': seq<Step>) {
    Run(ws, steps) && Run(ws', steps') && ws <= ws' && steps <= steps'
  }

  lemma Continued(ws: seq<World>, steps: seq<Step>, s: Step, w: World)
    requires Run(ws, steps) && Next(ws[|steps|], s, w)
    ensures Continues(ws, steps, ws + [w], steps + [s]) && (ws + [w])[|steps| + 1] == w
  {
    hide Next;
    var _, _ := Extended(ws, steps, s, w);
  }

  /** A request that no running node holds can be attempted after one recovery. */
  lemma AttemptOrphan(w: World, top: Spot, id: string) returns (s: Step, w': World, sp: Spot)
    requires Inv(w) && TopAt(w, top, id) && id !in w.finished && forall x :: TopAt(w, x, id) ==> x.partition !in w.alive
    ensures Next(w, s, w') && Open(w', sp, id)
  {
    hide Inv, TopAt, Open, NextGeneration, Recover, Shape, Ids, JoinedBy;
    ShapeIds(w);
    var r := SomebodyJoins(w, ServiceOf(Msg(w, top)));
    forall x | TopAt(w, x, id) ensures x.partition !in r.Live() {
      TopHolds(w, x, id);
    }
    s, w' := CanRecover(w, r);
    sp := RetriedOpen(w, s, w', top, id);
  }

  /** A node that offers a service can join. */
  lemma SomebodyJoins(w: World, svc: string) returns (r: Routes)
    requires Shape(w)
    ensures NextGeneration(w, r) && r.Offering(svc) != [] && forall q :: q in r.Live() ==>
            q in w.alive || Log(w, q) == []
  {
    hide Shape, NextGeneration, JoinedBy;
    var n := FreshName(w.known);
    var p := FreshPartition(w.shared.topic.Keys + w.alive);
    r := JoinedBy(w, svc, n, p);
    JoinedByNext(w, svc, n, p);
  }

  lemma ShapeIds(w: World)
    requires Inv(w)
    ensures Shape(w) && Ids(w)
  {
  }

  lemma TopHolds(w: World, x: Spot, id: string)
    requires TopAt(w, x, id)
    ensures Log(w, x.partition) != [] && x.partition in w.shared.topic
  {
  }

  /** When its node crashes, no running node holds the request. */
  lemma CrashOrphans(w: World, top: Spot, id: string) returns (w': World)
    requires OneCopy(w) && Shape(w) && TopAt(w, top, id) && top.partition in w.alive
    ensures Next(w, CrashStep(top.partition), w') && TopAt(w', top, id) && forall x :: TopAt(w', x, id) ==>
            x.partition !in w'.alive
    ensures w'.finished == w.finished
  {
    var p := top.partition;
    w' := w.(alive := w.alive - {p}, phase := map sp | sp in w.phase && sp.partition != p :: w.phase[sp]);
    SameTops(w, w', id);
    NoneOnZero(w);
    hide Shape;
    forall x | TopAt(w', x, id) ensures x.partition !in w'.alive {
      assert TopAt(w, x, id) && Num(w, x) == Num(w, top);
    }
  }

  lemma SameTops(w: World, w': World, id: string)
    requires w'.shared == w.shared
    ensures forall x :: TopAt(w', x, id) <==> TopAt(w, x, id)
  {
    assert forall x :: Req(w', x, id) <==> Req(w, x, id);
    assert forall x :: Num(w', x) == Num(w, x);
    hide Req, Num;
  }

  lemma NoneOnZero(w: World)
    requires Shape(w)
    ensures 0 !in w.alive
  {
  }

  lemma FindTopIn(ws: seq<World>, steps: seq<Step>, id: string) returns (top: Spot)
    requires Run(ws, steps) && id in ws[|steps|].issued && id !in ws[|steps|].finished
    ensures TopAt(ws[|steps|], top, id)
  {
    RunKept(ws, steps, |steps|);
    RunInv(ws, steps, |steps|);
    hide Run, TopAt;
    var w := ws[|steps|];
    var sp :| Req(w, sp, id);
    var claims := SomeClaims(w);
    top := FindTop(w, claims, sp, id);
  }

  /** Until its reply is in the topic, a request can be attempted: now, or after a crash and a recovery. */
  lemma CanBeAttempted(ws: seq<World>, steps: seq<Step>, id: string)
      returns (ws': seq<World>, steps': seq<Step>, sp: Spot)
    requires Run(ws, steps) && id in ws[|steps|].issued && id !in ws[|steps|].finished
    ensures Continues(ws, steps, ws', steps') && |steps'| <= |steps| + 2 && Open(ws'[|steps'|], sp, id)
  {
    hide TopAt, Open, Next, Inv;
    ws', steps' := ws, steps;
    var top := FindTopIn(ws, steps, id);
    if x :| TopAt(ws[|steps|], x, id) && x.partition in ws[|steps|].alive {
      RunInv(ws, steps, |steps|);
      RunCopies(ws, steps, |steps|);
      ShapeIds(ws[|steps|]);
      hide OneCopy, Shape, Ids;
      top := x;
      var w := CrashOrphans(ws[|steps|], x, id);
      Continued(ws, steps, CrashStep(x.partition), w);
      ws', steps' := ws + [w], steps + [CrashStep(x.partition)];
    }
    RunInv(ws', steps', |steps'|);
    var s, w;
    s, w, sp := AttemptOrphan(ws'[|steps'|], top, id);
    Continued(ws', steps', s, w);
    ws', steps' := ws' + [w], steps' + [s];
  }

  /** Some continuation of the run attempts id. */
  ghost predicate Attemptable(ws: seq<World>, steps: seq<Step>, id: string) {
    exists ws', steps', sp :: Continues(ws, steps, ws', steps') && Open(ws'[|steps'|], sp, id)
  }

  /** A request that has been sent can still be attempted if and only if its reply is not in the topic. */
  lemma AttemptableIff(ws: seq<World>, steps: seq<Step>, id: string)
    requires Run(ws, steps) && id in ws[|steps|].issued
    ensures Attemptable(ws, steps, id) <==> id !in ws[|steps|].finished
  {
    hide Open;
    if Attemptable(ws, steps, id) {
      var ws', steps', sp :| Continues(ws, steps, ws', steps') && Open(ws'[|steps'|], sp, id);
      hide Run;
      assert ws'[|steps|] == ws[|steps|];
      if id in ws[|steps|].finished { NeverRetriedOnceFinished(ws', steps', |steps|, |steps'|, id); }
    }
    if id !in ws[|steps|].finished {
      var ws', steps', sp := CanBeAttempted(ws, steps, id);
    }
  }

  /**
   * An invocation that has just returned, failed or expired can be attempted again if and only if its reply had nowhere
   * to go.
   */
  lemma ReturnedAgainIff(ws: seq<World>, steps: seq<Step>, k: nat, id: string)
    requires Run(ws, steps) && k + 1 == |steps| && Answering(steps[k]) && Req(ws[k], AnsweredAt(ws[k], steps[k]), id)
    ensures Attemptable(ws, steps, id) <==> ReplyTo(ws[k], Msg(ws[k], AnsweredAt(ws[k], steps[k]))).Nowhere?
  {
    RunInv(ws, steps, k);
    RunInv(ws, steps, k + 1);
    assert Next(ws[k], steps[k], ws[k + 1]);
    AnswerFacts(ws[k], steps[k], ws[k + 1]);
    OpenUnfinished(ws[k], AnsweredAt(ws[k], steps[k]), id);
    SameIssued(ws[k], steps[k], ws[k + 1]);
    hide Inv, Next, Run, Attemptable, ReplyTo;
    AttemptableIff(ws, steps, id);
  }

  lemma OpenUnfinished(w: World, at: Spot, id: string)
    requires Inv(w) && Open(w, at, id)
    ensures id !in w.finished && id in w.issued
  {
  }
}
