/** A rebalance that the group leader plans and recovers from is one recovery step of the protocol. */
module Rebalance {
  import opened Messages
  import opened RecoverySpec
  import opened Routing
  import opened Protocol
  import opened ProtocolRecovery
  import opened ProtocolInvariant
  import opened Guarantees
  import opened Strategy

  /**
   * The group at world w: the running nodes, each with the partition it has, and nodes never seen before, which have
   * none unless an earlier attempt gave them an empty one.
   */
  ghost predicate Fits(w: World, m: Member, remembered: map<string, nat>) {
    if m.node in w.known then
      && w.routes.PartitionOf(m.node) in w.alive
      && w.routes.PartitionOf(m.node) == if m.partition > 0 then m.partition else Get(remembered, m.node)
    else
      m.partition <= 0 && (Get(remembered, m.node) > 0 ==> Get(remembered, m.node) !in w.alive
                                                           && Log(w, Get(remembered, m.node)) == [])
  }

  ghost predicate Group(w: World, members: seq<Member>, remembered: map<string, nat>) {
    && DistinctNodes(members) && Injective(Known(members, remembered))
    && (forall k :: 0 <= k < |members| ==> members[k].node != "" && Fits(w, members[k], remembered))
    && (forall n :: n in w.routes.partitions && w.routes.partitions[n] in w.alive ==> n in Nodes(members))
  }

  /** Who offers a service is who said so. */
  lemma {:induction false} OfferMeaning(table: map<string, seq<string>>, node: string, services: seq<string>,
                                        s: string, n: string)
    ensures (s in Offer(table, node, services) && n in Offer(table, node, services)[s])
       <==> (s in table && n in table[s]) || (n == node && s in services)
  {
    if services != [] {
      OfferMeaning(table, node, services[..|services| - 1], s, n);
      assert services == services[..|services| - 1] + [services[|services| - 1]];
    }
  }

  lemma {:induction false} OffersMeaning(members: seq<Member>, s: string, n: string)
    ensures (s in Offers(members) && n in Offers(members)[s]) <==>
            exists m :: m in members && m.node == n && s in m.services
  {
    if members != [] {
      var front, last := members[..|members| - 1], members[|members| - 1];
      OffersMeaning(front, s, n);
      OfferMeaning(Offers(front), last.node, last.services, s, n);
      assert members == front + [last];
    }
  }

  function Partitions(claims: seq<Claim>): seq<nat> {
    seq(|claims|, i requires 0 <= i < |claims| => claims[i].partition)
  }

  // ----- the plan -----

  /** What the leader knows of a member. */
  lemma KnownOf(w: World, members: seq<Member>, remembered: map<string, nat>, n: string) returns (k: nat)
    requires Group(w, members, remembered) && n in Nodes(members)
    ensures k < |members| && members[k].node == n && Fits(w, members[k], remembered)
    ensures Get(Known(members, remembered), n) == if members[k].partition > 0 then members[k].partition
            else Get(remembered, n)
  {
    var m :| m in members && m.node == n;
    k :| 0 <= k < |members| && members[k] == m;
    KnownAt(members, remembered, k);
    MergeAt(members, remembered, k);
  }

  /** The partitions the leader takes for live are those of the running nodes, and empty ones. */
  lemma OwnedByRunning(w: World, members: seq<Member>, remembered: map<string, nat>)
    requires Shape(w) && Group(w, members, remembered)
    ensures w.alive <= Owned(Known(members, remembered))
    ensures forall p :: p in Owned(Known(members, remembered)) ==> p != 0 && (p in w.alive || Log(w, p) == [])
  {
    hide Group, Known, Shape, Fits, Log;
    var known := Known(members, remembered);
    forall p | p in w.alive ensures p in Owned(known) {
      var n := RunningMember(w, members, remembered, p);
      var k := KnownOf(w, members, remembered, n);
      FitsPartition(w, members[k], remembered);
      assert n in known && known[n] == p;
    }
    forall p | p in Owned(known) ensures p != 0 && (p in w.alive || Log(w, p) == []) {
      var n :| n in known && known[n] > 0 && known[n] == p;
      KnownAreNodes(members, remembered, n);
      var k := KnownOf(w, members, remembered, n);
      FitsPartition(w, members[k], remembered);
    }
  }

  lemma KnownAreNodes(members: seq<Member>, remembered: map<string, nat>, n: string)
    requires n in Known(members, remembered)
    ensures n in Nodes(members)
  {
  }

  lemma RunningMember(w: World, members: seq<Member>, remembered: map<string, nat>, p: nat) returns (n: string)
    requires Shape(w) && Group(w, members, remembered) && p in w.alive
    ensures p > 0 && n in w.routes.partitions && w.routes.partitions[n] == p && n in Nodes(members) && n in w.known
  {
    assert p in w.routes.Live();
    n :| n in w.routes.partitions && w.routes.partitions[n] != 0 && w.routes.partitions[n] == p;
  }

  lemma FitsPartition(w: World, m: Member, remembered: map<string, nat>)
    requires Shape(w) && Fits(w, m, remembered)
    ensures var p := if m.partition > 0 then m.partition else Get(remembered, m.node);
            && (m.node in w.known ==> p != 0 && m.node in w.routes.partitions && w.routes.partitions[m.node] == p
                                      && p in w.alive)
            && (m.node !in w.known ==> m.node !in w.routes.partitions && p !in w.alive && (p > 0 ==> Log(w, p) == []))
  {
  }

  /** The new tables give a member its own partition. */
  lemma PlannedMember(w: World, members: seq<Member>, log: seq<Range>, remembered: map<string, nat>, offset0: nat,
                      leader: string,
                      now: map<string, nat>, r: Outcome, n: string)
    requires Shape(w) && Group(w, members, remembered) && Offsets(w, log) && n in Nodes(members)
    requires Planned(members, log, remembered, offset0, leader, now, r) && r.Assigned?
    ensures n in now && now[n] > 0 && n != ""
    ensures if n in w.known then n in w.routes.partitions && now[n] == w.routes.partitions[n] && now[n] in w.alive
            else n !in w.routes.partitions && now[n] !in w.alive && Log(w, now[n]) == []
  {
    OwnedByRunning(w, members, remembered);
    var k := KnownOf(w, members, remembered, n);
    assert n !in Unassigned(now, Nodes(members)) && Get(now, n) > 0;
    FitsPartition(w, members[k], remembered);
    hide Fits, Group, Shape, Merge, Known, Owned, Unassigned, Injective, Strategy.Clean, ByNode, Log;
  }

  lemma NowAreNodes(members: seq<Member>, log: seq<Range>, remembered: map<string, nat>, offset0: nat, leader: string,
                    now: map<string, nat>, r: Outcome)
    requires Planned(members, log, remembered, offset0, leader, now, r) && Injective(Known(members, remembered))
    ensures now.Keys <= Nodes(members) && Injective(now)
  {
  }

  /** The tables of the plan are tables for the next generation. */
  lemma PlanIsGeneration(w: World, members: seq<Member>, log: seq<Range>, remembered: map<string, nat>, offset0: nat,
                         leader: string,
                         now: map<string, nat>, r: Outcome)
    requires Shape(w) && Group(w, members, remembered) && Offsets(w, log)
    requires Planned(members, log, remembered, offset0, leader, now, r) && r.Assigned?
    ensures NextGeneration(w, Routes(Offers(members), now))
            && w.alive <= Owned(Known(members, remembered)) <= Routes(Offers(members), now).Live()
  {
    NowAreNodes(members, log, remembered, offset0, leader, now, r);
    OwnedByRunning(w, members, remembered);
    forall n | n in Nodes(members)
      ensures n in now && now[n] > 0 && n != ""
      ensures if n in w.known then n in w.routes.partitions && now[n] == w.routes.partitions[n] && now[n] in w.alive
              else n !in w.routes.partitions && now[n] !in w.alive && Log(w, now[n]) == []
    {
      PlannedMember(w, members, log, remembered, offset0, leader, now, r, n);
    }
    TablesValid(members, now);
    KnownStays(members, log, remembered, offset0, leader, now, r);
    hide Routes.Valid, Planned, Known, Owned, Offsets, Log, Nodes, Offers, Fits;
  }

  lemma TablesValid(members: seq<Member>, now: map<string, nat>)
    requires now.Keys <= Nodes(members) && Injective(now) && forall n :: n in Nodes(members) ==>
             n in now && now[n] > 0 && n != ""
    ensures Routes(Offers(members), now).Valid()
  {
    var routes := Routes(Offers(members), now);
    forall s, i | s in routes.services
    && 0 <= i < |routes.services[s]| ensures routes.PartitionOf(routes.services[s][i]) != 0 {
      OffersMeaning(members, s, routes.services[s][i]);
    }
  }

  lemma KnownStays(members: seq<Member>, log: seq<Range>, remembered: map<string, nat>, offset0: nat, leader: string,
                   now: map<string, nat>, r: Outcome)
    requires Planned(members, log, remembered, offset0, leader, now, r)
    ensures Owned(Known(members, remembered)) <= Routes(Offers(members), now).Live()
  {
    hide Known, Offers;
    forall p | p in Owned(Known(members, remembered)) ensures p in Routes(Offers(members), now).Live() {
      var n :| n in Known(members, remembered) && Known(members, remembered)[n] > 0
      && Known(members, remembered)[n] == p;
      assert Get(now, n) == p;
    }
  }

  /** When recovery is needed, the leader claims what recovery must read, and nothing that is empty but partition 0. */
  lemma PlanClaims(w: World, members: seq<Member>, log: seq<Range>, remembered: map<string, nat>, offset0: nat,
                   leader: string,
                   now: map<string, nat>, r: Outcome)
    requires Offsets(w, log) && Planned(members, log, remembered, offset0, leader, now, r) && r.Assigned?
    requires !Strategy.Clean(log, Owned(Known(members, remembered)), offset0)
    ensures Claims(w, Partitions(r.claims)) && forall p :: p in Partitions(r.claims) ==> p == 0 || Log(w, p) != []
  {
    RecoveryClaimsMeaning(Lookup(ByNode(members), leader), log);
    var claims, ps := r.claims, Partitions(r.claims);
    hide Planned, RecoveryClaims;
    assert forall i :: 0 <= i < |ps| ==> claims[i] in claims;
    forall p | p == 0 || Log(w, p) != [] ensures p in ps {
      var c := Claim(Lookup(ByNode(members), leader), p);
      assert c in claims;
      var i :| 0 <= i < |claims| && claims[i] == c;
      assert ps[i] == p;
    }
    assert ps[0] == 0;
  }

  // ----- the recovery -----

  /** Recovery decides the same whether or not it takes partitions it does not read for live. */
  lemma SameDecisions(es: seq<Entry>, live: set<nat>, live': set<nat>, actions: seq<Action>)
    requires forall e :: e in es ==> (e.partition in live <==> e.partition in live')
    ensures Decides(es, live, actions) <==> Decides(es, live', actions)
  {
    forall id ensures MustRetry(es, live, id) <==> MustRetry(es, live', id) {
      hide ChainStart, Highest, Completed;
    }
    assert forall id :: MustConfirm(es, live, id) <==> MustConfirm(es, live', id);
    assert forall a :: Echoes(es, live, a) <==> Echoes(es, live', a);
    hide Echoes, MustRetry, MustConfirm, IsRetry, Parked;
  }

  /** What Leader.Recover ensures is a recovery step, though the leader takes only known partitions for live. */
  lemma LeaderRecovers(w: World, routes: Routes, claims: seq<nat>, live: set<nat>, actions: seq<Action>,
                       picks: seq<string>, s: Shared)
    requires NextGeneration(w, routes) && Claims(w, claims) && (forall p :: p in claims ==> p == 0 || Log(w, p) != [])
    requires w.alive <= live <= routes.Live()
    requires Decides(Reading(w.shared, claims), live, actions) && MayPickAll(routes, actions, picks)
    requires s == Emptied(AfterActions(routes, w.shared, actions, picks), DeadClaims(claims, live))
    ensures Recover(w, routes, claims, actions, picks, Rebalanced(w, routes, s))
  {
    hide Decides, MayPickAll, AfterActions, Emptied, Reading, Claims;
    forall p | p in claims ensures p in live <==> p in routes.Live() {
      if p in routes.Live() { NewPartitionsEmpty(w, routes, p); }
    }
    forall e | e in Reading(w.shared, claims) ensures e.partition in live <==> e.partition in routes.Live() {
      ReadingHolds(w.shared, claims, e);
    }
    SameDecisions(Reading(w.shared, claims), live, routes.Live(), actions);
    assert DeadClaims(claims, live) == DeadClaims(claims, routes.Live());
  }

  lemma NewPartitionsEmpty(w: World, routes: Routes, p: nat)
    requires NextGeneration(w, routes) && p in routes.Live()
    ensures p != 0 && (p in w.alive || Log(w, p) == [])
  {
  }

  /** The world after a rebalance that leaves the topic and the store as s. */
  ghost function Rebalanced(w: World, routes: Routes, s: Shared): World {
    w.(shared := s, routes := routes, alive := routes.Live(), known := w.known + routes.partitions.Keys,
       head := map p | p in routes.Live() :: if p in w.alive then Head(w, p) else 0)
  }

  /**
   * After a plan that needs recovery, the leader meets what Leader.Recover requires of the topic and the partitions.
   */
  lemma LeaderMayRecover(w: World, members: seq<Member>, log: seq<Range>, remembered: map<string, nat>, offset0: nat,
                         leader: string,
                         now: map<string, nat>, r: Outcome)
    requires Inv(w) && Group(w, members, remembered) && Offsets(w, log)
    requires Planned(members, log, remembered, offset0, leader, now, r) && r.Assigned?
    ensures WellFormed(Reading(w.shared, Partitions(r.claims))) && Routes(Offers(members), now).Valid()
    ensures 0 !in Owned(Known(members, remembered))
  {
    hide Planned, Group, Offsets, Offers, Known, Owned, Partitions, Chains, Targets, Attempts, Progress, Evidence,
         Placed, Lineage, Waits;
    PlanIsGeneration(w, members, log, remembered, offset0, leader, now, r);
    OwnedByRunning(w, members, remembered);
    EntriesWellFormed(w, Partitions(r.claims));
  }

  /** A plan that needs recovery, followed by what Leader.Recover ensures, is a recovery step. */
  lemma RebalanceIsStep(w: World, members: seq<Member>, log: seq<Range>, remembered: map<string, nat>, offset0: nat,
                        leader: string,
                        now: map<string, nat>, r: Outcome, routes: Routes, claims: seq<nat>, live: set<nat>,
                        actions: seq<Action>, picks: seq<string>, s: Shared)
    requires Shape(w) && Group(w, members, remembered) && Offsets(w, log)
    requires Planned(members, log, remembered, offset0, leader, now, r) && r.Assigned?
    requires !Strategy.Clean(log, Owned(Known(members, remembered)), offset0)
    requires routes == Routes(Offers(members), now) && claims == Partitions(r.claims)
             && live == Owned(Known(members, remembered))
    requires Decides(Reading(w.shared, claims), live, actions) && MayPickAll(routes, actions, picks)
    requires s == Emptied(AfterActions(routes, w.shared, actions, picks), DeadClaims(claims, live))
    ensures Next(w, RecoverStep(routes, claims, actions, picks), Rebalanced(w, routes, s))
  {
    hide Planned, Group, Offsets, Offers, Known, Owned, Partitions, Decides, MayPickAll, AfterActions, Emptied,
         DeadClaims, Claims, Reading,
         NextGeneration, Shape, Strategy.Clean, Rebalanced, Recover;
    PlanIsGeneration(w, members, log, remembered, offset0, leader, now, r);
    PlanClaims(w, members, log, remembered, offset0, leader, now, r);
    LeaderRecovers(w, routes, claims, live, actions, picks, s);
  }

  // ----- skipping recovery -----

  /** Between recoveries the topic only grows, and nobody joins. */
  ghost predicate Grows(w: World, w': World) {
    && (forall p :: Log(w, p) <= Log(w', p))
    && w.finished <= w'.finished && w'.routes == w.routes && w'.alive <= w.alive
  }

  lemma AppendGrows(w: World, s: Shared, p: nat, m: Message, w': World)
    requires s.topic == w.shared.topic && w'.shared.topic == s.Append(p, m).topic
    ensures forall q :: Log(w, q) <= Log(w', q)
  {
  }

  lemma ReplyGrows(w: World, m: Message, reply: Message)
    requires m.IsRequest()
    ensures Grows(w, Replied(w, m, reply))
  {
    hide ReplyTo;
    if ReplyTo(w, m) != Nowhere { AppendGrows(w, w.shared, ReplyTo(w, m).partition, reply, Replied(w, m, reply)); }
  }

  lemma GrowsStep(w: World, s: Step, w': World)
    requires Next(w, s, w') && !s.RecoverStep?
    ensures Grows(w, w')
  {
    hide RouteTo, MayPick, Replied, Unblocked, Msg, Holds, Woken;
    match s
    case IssueStep(m, pick) =>
      var to := RouteTo(w.routes, w.shared.placements, m.target, pick);
      AppendGrows(w, w.shared.(placements := to.placements), to.partition, m, w');
    case TailCallStep(at, m, pick) =>
      var to := RouteTo(w.routes, w.shared.placements, m.target, pick);
      AppendGrows(w, w.shared.(placements := to.placements), to.partition, m, w');
    case FinishStep(at, reply) => ReplyGrows(w, Msg(w, at), reply);
    case ExpireStep(p, reply) => ReplyGrows(w, Msg(w, Spot(p, Head(w, p))), reply);
    case TimeoutStep(at, reply) => ReplyGrows(w, Msg(w, at), reply);
    case ReadStep(p) =>
    case CrashStep(p) =>
  }

  lemma {:induction false} GrowsRun(ws: seq<World>, steps: seq<Step>, i: nat, j: nat)
    requires Run(ws, steps) && i <= j <= |steps| && forall k :: i <= k < j ==> !steps[k].RecoverStep?
    ensures Grows(ws[i], ws[j])
    decreases j
  {
    hide Next, Protocol.Init, Log;
    if i < j {
      GrowsRun(ws, steps, i, j - 1);
      assert Next(ws[j - 1], steps[j - 1], ws[j - 1 + 1]);
      GrowsStep(ws[j - 1], steps[j - 1], ws[j]);
    }
  }

  lemma HeldLater(w: World, w': World, sp: Spot, id: string)
    requires Grows(w, w') && Req(w, sp, id)
    ensures Req(w', sp, id) && Num(w', sp) == Num(w, sp)
  {
    assert Log(w, sp.partition) <= Log(w', sp.partition);
  }

  /** Every partition that holds records, but for partition 0, belongs to a live node. */
  ghost predicate NothingDead(w: World, live: set<nat>) { forall p :: p != 0 && p !in live ==> Log(w, p) == [] }

  /**
   * A request whose highest number no live node holds, and whose record nobody has added since the recovery that led to
   * w1.
   */
  lemma AsideSince(w1: World, w: World, live: set<nat>, top: Spot, id: string)
    requires Grows(w1, w) && Log(w, 0) == Log(w1, 0) && NothingDead(w, live)
    requires TopAt(w, top, id) && forall x :: TopAt(w, x, id) ==> x.partition !in live
    ensures top.partition == 0 && TopAt(w1, top, id) && forall x :: TopAt(w1, x, id) ==> x.partition == 0
  {
    assert Holds(w, top) && Log(w, top.partition) != [];
    assert Req(w1, top, id) && Num(w1, top) == Num(w, top);
    hide Grows, NothingDead;
    forall x | Req(w1, x, id) ensures Num(w1, x) <= Num(w1, top) {
      HeldLater(w1, w, x, id);
    }
    forall x | TopAt(w1, x, id) ensures x.partition == 0 {
      HeldLater(w1, w, x, id);
      assert TopAt(w, x, id) && Holds(w, x);
      NobodyDead(w, live, x);
    }
  }

  lemma NobodyDead(w: World, live: set<nat>, x: Spot)
    requires NothingDead(w, live) && Holds(w, x) && x.partition !in live
    ensures x.partition == 0
  {
  }

  /** What a recovery would retry is in partition 0 only. */
  lemma SkippedSource(w: World, claims: seq<nat>, live: set<nat>, id: string, m: Message) returns (top: Spot)
    requires Inv(w) && Claims(w, claims) && MustRetry(Entries(w, claims), live, id)
             && IsRetry(Entries(w, claims), id, m)
    ensures TopAt(w, top, id) && Msg(w, top).IsRequest() && m == Retry(Msg(w, top), m.sequence, m.child)
            && id !in w.finished
    ensures forall x :: TopAt(w, x, id) ==> x.partition !in live
  {
    hide IsRetry, TopAt, Entries, Shape, Chains, Targets, Attempts, Progress, Placed, Lineage, Waits;
    top := RetrySource(w, claims, id, m);
    TopIsRequest(w, top, id);
    RetriedUnfinished(w, claims, live, id, top);
    HeldTop(w, claims, live, id);
  }

  lemma TopIsRequest(w: World, sp: Spot, id: string)
    requires TopAt(w, sp, id)
    ensures Req(w, sp, id)
  {
  }

  lemma AsideIsParked(w: World, claims: seq<nat>, top: Spot, id: string)
    requires Claims(w, claims) && TopAt(w, top, id) && top.partition == 0
    ensures Parked(Entries(w, claims), id)
  {
    SpotEntry(w, claims, top);
    TopHighest(w, claims, top, id);
    hide Claims, Highest;
    assert Requests(Entry(0, Msg(w, top)), id);
  }

  /** What a recovery would retry, nobody could take when the last one ran. */
  lemma SkippedRetry(w0: World, r0: Routes, c0: seq<nat>, a0: seq<Action>, p0: seq<string>, w1: World, w: World,
                     claims: seq<nat>, live: set<nat>, id: string, m: Message)
    requires Inv(w0) && Recover(w0, r0, c0, a0, p0, w1) && Inv(w1) && Grows(w1, w) && Log(w, 0) == Log(w1, 0)
    requires Inv(w) && Claims(w, claims) && NothingDead(w, live) && MustRetry(Entries(w, claims), live, id)
             && IsRetry(Entries(w, claims), id, m)
    ensures Log(w, 0) != [] && Parked(Entries(w, claims), id) && r0.Offering(ServiceOf(m)) == []
  {
    assert w1.finished == w0.finished && w1.finished <= w.finished;
    NoNodeOnZero(w0, r0);
    hide Inv, Recover, Claims, Grows, NothingDead, MustRetry, IsRetry, Parked, Entries;
    var top := SkippedSource(w, claims, live, id, m);
    AsideSince(w1, w, live, top, id);
    AsideIsParked(w, claims, top, id);
    AsideIsUnavailable(w0, r0, c0, a0, p0, w1, top, id);
    assert Msg(w1, top) == Msg(w, top);
  }

  lemma NoNodeOnZero(w: World, r: Routes)
    requires NextGeneration(w, r)
    ensures 0 !in r.Live()
  {
  }

  /** Nobody offers in r what nobody offered in r0. */
  ghost predicate OffersNothingNew(r0: Routes, r: Routes) { forall s :: r0.Offering(s) == [] ==> r.Offering(s) == [] }

  lemma SkippedActions(w0: World, r0: Routes, c0: seq<nat>, a0: seq<Action>, p0: seq<string>, w1: World, w: World,
                       r: Routes, claims: seq<nat>, actions: seq<Action>)
    requires Inv(w0) && Recover(w0, r0, c0, a0, p0, w1) && Inv(w1) && Grows(w1, w) && Log(w, 0) == Log(w1, 0)
    requires Inv(w) && Claims(w, claims) && NothingDead(w, r.Live()) && (Log(w, 0) != [] ==> OffersNothingNew(r0, r))
    requires Decides(Entries(w, claims), r.Live(), actions) && Sane(actions)
    ensures forall i :: 0 <= i < |actions| ==> Idle(r, actions[i])
  {
    hide Inv, Recover, Claims, Grows, MustRetry, IsRetry, Parked, Log;
    forall i | 0 <= i < |actions| ensures Idle(r, actions[i]) {
      if actions[i].Confirm? {
        NothingSkipped(w, claims, r.Live(), actions[i].id);
      } else {
        SkippedRetry(w0, r0, c0, a0, p0, w1, w, claims, r.Live(), actions[i].retry.id, actions[i].retry);
      }
    }
  }

  lemma NothingSkipped(w: World, claims: seq<nat>, live: set<nat>, id: string)
    requires NothingDead(w, live)
    ensures !MustConfirm(Entries(w, claims), live, id)
  {
    if MustConfirm(Entries(w, claims), live, id) {
      var e :| e in Entries(w, claims) && e.partition !in live && e.partition != 0 && Answers(e, id);
      var sp := EntrySpot(w, claims, e);
      NobodyDead(w, live, sp);
    }
  }

  lemma NothingEmptied(w: World, claims: seq<nat>, live: set<nat>)
    requires NothingDead(w, live)
    ensures Emptied(w.shared, DeadClaims(claims, live)) == w.shared
  {
    forall p | p in w.shared.topic && p in DeadClaims(claims, live) ensures w.shared.topic[p] == [] {
      assert Log(w, p) == [];
    }
  }

  /** A recovery that a clean plan skips would have changed nothing. */
  lemma SkippedRecovery(w0: World, r0: Routes, c0: seq<nat>, a0: seq<Action>, p0: seq<string>, w1: World,
                        w: World, r: Routes, claims: seq<nat>, actions: seq<Action>, picks: seq<string>, w': World)
    requires Inv(w0) && Recover(w0, r0, c0, a0, p0, w1) && Inv(w1) && Grows(w1, w) && Log(w, 0) == Log(w1, 0)
    requires Inv(w) && NothingDead(w, r.Live()) && (Log(w, 0) != [] ==> OffersNothingNew(r0, r))
    requires Recover(w, r, claims, actions, picks, w')
    ensures w'.shared == w.shared
  {
    assert Ids(w);
    hide Inv, Grows, NothingDead, Log, AfterActions, Emptied, Decides, Claims, Entries, NextGeneration, Idle, Ids;
    DecidesSane(w, claims, r.Live(), actions);
    SkippedActions(w0, r0, c0, a0, p0, w1, w, r, claims, actions);
    IdleActions(r, w.shared, actions, picks);
    NothingEmptied(w, claims, r.Live());
  }

  lemma ZeroStays(w: World, claims: seq<nat>, live: set<nat>, w': World, i: nat)
    requires Recovered(w, w', claims, live) && i < |Log(w, 0)|
    ensures i < |Log(w', 0)| && Log(w', 0)[i] == Log(w, 0)[i]
  {
    hide Recovered;
    assert Holds(w, Spot(0, i)) && Survives(0, live);
    RecoveredOld(w, w', claims, live, Spot(0, i));
  }

  lemma RecoveredGrowsZero(w: World, claims: seq<nat>, live: set<nat>, w': World)
    requires Recovered(w, w', claims, live)
    ensures Log(w, 0) <= Log(w', 0)
  {
    hide Recovered;
    if Log(w, 0) != [] { ZeroStays(w, claims, live, w', |Log(w, 0)| - 1); }
    forall i | 0 <= i < |Log(w, 0)| ensures Log(w', 0)[i] == Log(w, 0)[i] {
      ZeroStays(w, claims, live, w', i);
    }
  }

  lemma RecoverGrowsZero(w: World, r: Routes, claims: seq<nat>, actions: seq<Action>, picks: seq<string>, w': World)
    requires Inv(w) && Recover(w, r, claims, actions, picks, w')
    ensures Log(w, 0) <= Log(w', 0)
  {
    hide Inv, Recover, Recovered, Log;
    RecoverFacts(w, r, claims, actions, picks, w');
    RecoveredGrowsZero(w, claims, r.Live(), w');
  }

  /** Plan's clean test, on the world. */
  lemma CleanPlan(w: World, log: seq<Range>, live: set<nat>, k: Marks)
    requires Offsets(w, log) && k.offset0 >= 0 && Strategy.Clean(log, live, k.offset0)
    ensures NothingDead(w, live) && !Grown(w, k)
  {
    forall p: nat | p != 0 && p !in live ensures Log(w, p) == [] {
      assert p < |log| ==> log[p].Empty();
    }
  }

  lemma RunLength(ws: seq<World>, steps: seq<Step>)
    requires Run(ws, steps)
    ensures |ws| == |steps| + 1
  {
    hide Next;
  }

  lemma RecoveryAt(ws: seq<World>, steps: seq<Step>, i: nat)
    requires Run(ws, steps) && i < |steps| && steps[i].RecoverStep?
    ensures Recover(ws[i], steps[i].routes, steps[i].claims, steps[i].actions, steps[i].picks, ws[i + 1])
  {
    hide Recover;
    assert Next(ws[i], steps[i], ws[i + 1]);
  }

  /** Its length tells that partition 0 is as the last recovery read it. */
  lemma ReadThen(w0: World, w1: World, w: World)
    requires Log(w0, 0) <= Log(w1, 0) && Grows(w1, w) && |Log(w, 0)| <= |Log(w0, 0)|
    ensures Log(w, 0) == Log(w1, 0)
  {
    assert Log(w1, 0) <= Log(w, 0);
    hide Grows, Log;
  }

  /**
   * A recovery that finds nothing dead and partition 0 as it was read by the last one, for nodes that offer nothing
   * new.
   */
  lemma SkippedStep(ws: seq<World>, steps: seq<Step>, i: nat, j: nat)
    requires Run(ws, steps) && i < j < |steps| && steps[i].RecoverStep? && steps[j].RecoverStep?
    requires forall l :: i < l < j ==> !steps[l].RecoverStep?
    requires NothingDead(ws[j], steps[j].routes.Live()) && |Log(ws[j], 0)| <= |Log(ws[i], 0)|
    requires Log(ws[j], 0) != [] ==> OffersNothingNew(steps[i].routes, steps[j].routes)
    ensures ws[j + 1].shared == ws[j].shared
  {
    hide Inv, Run, Next, NothingDead, Recover, OffersNothingNew, Log, Grows;
    RunLength(ws, steps);
    RunInv(ws, steps, i);
    RunInv(ws, steps, i + 1);
    RunInv(ws, steps, j);
    GrowsRun(ws, steps, i + 1, j);
    var s, t := steps[i], steps[j];
    RecoveryAt(ws, steps, i);
    RecoveryAt(ws, steps, j);
    RecoverGrowsZero(ws[i], s.routes, s.claims, s.actions, s.picks, ws[i + 1]);
    ReadThen(ws[i], ws[i + 1], ws[j]);
    SkippedRecovery(ws[i], s.routes, s.claims, s.actions, s.picks, ws[i + 1],
                    ws[j], t.routes, t.claims, t.actions, t.picks, ws[j + 1]);
  }

  /** Running nodes announce no service they did not offer. */
  ghost predicate KeepServices(w: World, members: seq<Member>) {
    forall m, svc :: m in members && svc in m.services && m.node in w.known ==> m.node in w.routes.Offering(svc)
  }

  lemma NothingNew(w: World, members: seq<Member>, now: map<string, nat>)
    requires KeepServices(w, members) && forall m :: m in members ==> m.node in w.known
    ensures OffersNothingNew(w.routes, Routes(Offers(members), now))
  {
    var r := Routes(Offers(members), now);
    forall svc | w.routes.Offering(svc) == [] ensures r.Offering(svc) == [] {
      if r.Offering(svc) != [] {
        OffersMeaning(members, svc, r.Offering(svc)[0]);
      }
    }
  }

  lemma MoreLive(w: World, live: set<nat>, live': set<nat>)
    requires NothingDead(w, live) && live <= live'
    ensures NothingDead(w, live')
  {
  }

  // ----- the leader's attempts to plan -----

  /** One execution of Plan: what it read, the assignment and the outcome it left. */
  datatype Attempt = Attempt(members: seq<Member>, log: seq<Range>, now: map<string, nat>, r: Outcome)

  /** What the leader remembers after its first n attempts; at first, remembered. */
  function RememberedAfter(remembered: map<string, nat>, attempts: seq<Attempt>, n: nat): map<string, nat>
    requires n <= |attempts|
  {
    if n == 0 then remembered else attempts[n - 1].now
  }

  /** offset0 after the first n attempts, as Plan leaves it. */
  function Offset0After(remembered: map<string, nat>, offset0: nat, attempts: seq<Attempt>, n: nat): nat
    requires n <= |attempts|
  {
    if n == 0 then offset0
    else if Newcomer(attempts[n - 1].members, RememberedAfter(remembered, attempts, n - 1)) then 0
    else Offset0After(remembered, offset0, attempts, n - 1)
  }

  /**
   * The leader plans again and again, starting from what it remembers of the current generation; a node that has never
   * been part of a generation reports no partition.
   */
  ghost predicate Attempted(known: set<string>, remembered: map<string, nat>, offset0: nat, attempts: seq<Attempt>,
                            leader: string) {
    && (forall n :: Get(remembered, n) > 0 ==> n in known)
    && (forall n :: 0 <= n < |attempts| ==> PlansAt(known, remembered, offset0, attempts, leader, n))
  }

  ghost predicate PlansAt(known: set<string>, remembered: map<string, nat>, offset0: nat, attempts: seq<Attempt>,
                           leader: string, n: nat)
    requires n < |attempts|
  {
    var a := attempts[n];
    && DistinctNodes(a.members)
    && (forall k :: 0 <= k < |a.members| && a.members[k].node !in known ==> a.members[k].partition <= 0)
    && Planned(a.members, a.log, RememberedAfter(remembered, attempts, n),
               Offset0After(remembered, offset0, attempts, n + 1), leader, a.now, a.r)
  }

  /** Only members have a partition after a plan. */
  lemma DealtTo(members: seq<Member>, log: seq<Range>, remembered: map<string, nat>, offset0: nat, leader: string,
                now: map<string, nat>, r: Outcome, x: string) returns (k: nat)
    requires DistinctNodes(members) && Planned(members, log, remembered, offset0, leader, now, r) && Get(now, x) > 0
    ensures k < |members| && members[k].node == x
  {
    assert x in Nodes(members);
    var m :| m in members && m.node == x;
    k :| 0 <= k < |members| && members[k] == m;
  }

  /** A node new to the protocol for which an attempt left a partition has reset offset0 for good. */
  lemma {:induction false} DealtResets(known: set<string>, remembered: map<string, nat>, offset0: nat,
                                       attempts: seq<Attempt>, leader: string, n: nat, x: string)
    requires Attempted(known, remembered, offset0, attempts, leader) && n <= |attempts| && x !in known
    requires Get(RememberedAfter(remembered, attempts, n), x) > 0
    ensures Offset0After(remembered, offset0, attempts, n) == 0
  {
    if n > 0 {
      var a, before := attempts[n - 1], RememberedAfter(remembered, attempts, n - 1);
      assert PlansAt(known, remembered, offset0, attempts, leader, n - 1);
      var k := DealtTo(a.members, a.log, before, Offset0After(remembered, offset0, attempts, n), leader, a.now, a.r, x);
      hide Planned, DistinctNodes;
      if Get(before, x) > 0 {
        DealtResets(known, remembered, offset0, attempts, leader, n - 1, x);
      } else {
        assert NewNode(a.members, before, k);
      }
    }
  }

  /** Whenever a node new to the protocol is a member, Plan leaves offset0 at 0. */
  lemma JoiningResets(known: set<string>, remembered: map<string, nat>, offset0: nat, attempts: seq<Attempt>,
                      leader: string, n: nat, k: nat)
    requires Attempted(known, remembered, offset0, attempts, leader) && n < |attempts|
    requires k < |attempts[n].members| && attempts[n].members[k].node !in known
    ensures Offset0After(remembered, offset0, attempts, n + 1) == 0
  {
    var a, before := attempts[n], RememberedAfter(remembered, attempts, n);
    assert PlansAt(known, remembered, offset0, attempts, leader, n);
    if Get(before, a.members[k].node) > 0 {
      DealtResets(known, remembered, offset0, attempts, leader, n, a.members[k].node);
    } else {
      assert NewNode(a.members, before, k);
    }
  }

  lemma SomebodyNewResets(known: set<string>, remembered: map<string, nat>, offset0: nat, attempts: seq<Attempt>,
                          leader: string)
    requires attempts != [] && Attempted(known, remembered, offset0, attempts, leader)
    ensures (exists m :: m in attempts[|attempts| - 1].members && m.node !in known) ==>
              Offset0After(remembered, offset0, attempts, |attempts|) == 0
  {
    var a, n := attempts[|attempts| - 1], |attempts| - 1;
    if exists m :: m in a.members && m.node !in known {
      var m :| m in a.members && m.node !in known;
      var l :| 0 <= l < |a.members| && a.members[l] == m;
      JoiningResets(known, remembered, offset0, attempts, leader, n, l);
    }
  }

  /** offset0 is 0, or what it was before the attempts. */
  lemma {:induction false} OnlyReset(remembered: map<string, nat>, offset0: nat, attempts: seq<Attempt>, n: nat)
    requires n <= |attempts|
    ensures Offset0After(remembered, offset0, attempts, n) == 0
            || Offset0After(remembered, offset0, attempts, n) == offset0
  {
    if n > 0 { OnlyReset(remembered, offset0, attempts, n - 1); }
  }

  /** What the last attempt planned, and where it left offset0. */
  lemma LastAttempt(known: set<string>, remembered: map<string, nat>, offset0: nat, attempts: seq<Attempt>,
                    leader: string)
    requires attempts != [] && Attempted(known, remembered, offset0, attempts, leader)
    ensures var a, n := attempts[|attempts| - 1], |attempts| - 1;
            var mark := Offset0After(remembered, offset0, attempts, n + 1);
            && Planned(a.members, a.log, RememberedAfter(remembered, attempts, n), mark, leader, a.now, a.r)
            && ((exists m :: m in a.members && m.node !in known) ==> mark == 0) && (mark == 0 || mark == offset0)
  {
    assert PlansAt(known, remembered, offset0, attempts, leader, |attempts| - 1);
    OnlyReset(remembered, offset0, attempts, |attempts|);
    SomebodyNewResets(known, remembered, offset0, attempts, leader);
    hide *;
  }

  /** Partition 0 only grows. */
  lemma {:induction false} ZeroGrows(ws: seq<World>, steps: seq<Step>, h: nat, i: nat)
    requires Run(ws, steps) && h <= i < |ws|
    ensures Log(ws[h], 0) <= Log(ws[i], 0)
    decreases i
  {
    hide Inv, Log, Next, Protocol.Init;
    RunLength(ws, steps);
    if h < i {
      ZeroGrows(ws, steps, h, i - 1);
      RunInv(ws, steps, i - 1);
      assert Next(ws[i - 1], steps[i - 1], ws[i - 1 + 1]);
      ZeroGrowsStep(ws[i - 1], steps[i - 1], ws[i]);
    }
  }

  lemma ZeroGrowsStep(w: World, s: Step, w': World)
    requires Inv(w) && Next(w, s, w')
    ensures Log(w, 0) <= Log(w', 0)
  {
    if s.RecoverStep? {
      assert Recover(w, s.routes, s.claims, s.actions, s.picks, w');
      hide *;
      RecoverGrowsZero(w, s.routes, s.claims, s.actions, s.picks, w');
    } else {
      GrowsStep(w, s, w');
      hide Next, Inv;
    }
  }

  /**
   * The test by which Plan skips recovery is sound. The last recovery of the run is at step i. The leader has led the
   * recovery at step h, which set its offset0, or none; since step i it has made some attempts to plan. When the last
   * one finds the topic clean and running nodes announce no new service, a recovery at that point, step j, would leave
   * the topic and the store as they are.
   */
  lemma SkippingIsSafe(ws: seq<World>, steps: seq<Step>, h: nat, i: nat, j: nat, k: Marks,
                       remembered: map<string, nat>, offset0: nat, attempts: seq<Attempt>, leader: string)
    requires Run(ws, steps) && i < j < |steps| && steps[i].RecoverStep? && steps[j].RecoverStep?
    requires forall l :: i < l < j ==> !steps[l].RecoverStep?
    requires h <= i && k.max0 <= |Log(ws[h], 0)| && (offset0 == 0 || offset0 == Marked(ws[h], k).offset0)
    requires attempts != [] && Attempted(ws[j].known, remembered, offset0, attempts, leader)
    requires var a, n := attempts[|attempts| - 1], |attempts| - 1;
             var before := RememberedAfter(remembered, attempts, n);
             && Group(ws[j], a.members, before) && Offsets(ws[j], a.log) && KeepServices(ws[j], a.members)
             && a.r.Assigned? && steps[j].routes == Routes(Offers(a.members), a.now)
             && Strategy.Clean(a.log, Owned(Known(a.members, before)),
                               Offset0After(remembered, offset0, attempts, n + 1))
    ensures ws[j + 1].shared == ws[j].shared
  {
    hide *;
    RunLength(ws, steps);
    var a, n := attempts[|attempts| - 1], |attempts| - 1;
    var before, mark := RememberedAfter(remembered, attempts, n), Offset0After(remembered, offset0, attempts, n + 1);
    LastAttempt(ws[j].known, remembered, offset0, attempts, leader);
    ZeroGrows(ws, steps, h, i);
    assert mark <= |Log(ws[i], 0)| by { MarkAtMost(ws[h], ws[i], k, offset0); }
    SkippedPlan(ws, steps, i, j, mark, a.members, a.log, before, leader, a.now, a.r);
  }

  lemma MarkAtMost(w: World, w': World, k: Marks, offset0: nat)
    requires Log(w, 0) <= Log(w', 0) && k.max0 <= |Log(w, 0)| && (offset0 == 0 || offset0 == Marked(w, k).offset0)
    ensures offset0 <= |Log(w', 0)|
  {
  }

  /** The same for one plan whose offset0 is at most where partition 0 ended when the last recovery began. */
  lemma SkippedPlan(ws: seq<World>, steps: seq<Step>, i: nat, j: nat, offset0: nat, members: seq<Member>,
                    log: seq<Range>, remembered: map<string, nat>, leader: string, now: map<string, nat>, r: Outcome)
    requires Run(ws, steps) && i < j < |steps| && steps[i].RecoverStep? && steps[j].RecoverStep?
    requires forall l :: i < l < j ==> !steps[l].RecoverStep?
    requires offset0 <= |Log(ws[i], 0)|
    requires (exists m :: m in members && m.node !in ws[j].known) ==> offset0 == 0
    requires Group(ws[j], members, remembered) && Offsets(ws[j], log) && KeepServices(ws[j], members)
    requires Planned(members, log, remembered, offset0, leader, now, r) && r.Assigned?
    requires Strategy.Clean(log, Owned(Known(members, remembered)), offset0)
             && steps[j].routes == Routes(Offers(members), now)
    ensures ws[j + 1].shared == ws[j].shared
  {
    hide Inv, Run, Next, Planned, Group, Offsets, Offers, Known, Owned, Strategy.Clean, KeepServices, NothingDead,
         OffersNothingNew, Log;
    RunLength(ws, steps);
    RunInv(ws, steps, j);
    SameRoutes(ws, steps, i, j);
    assert Shape(ws[j]) by { ShapeOf(ws[j]); }
    PlanIsGeneration(ws[j], members, log, remembered, offset0, leader, now, r);
    CleanPlan(ws[j], log, Owned(Known(members, remembered)), Marks(offset0, 0));
    MoreLive(ws[j], Owned(Known(members, remembered)), steps[j].routes.Live());
    if Log(ws[j], 0) != [] { NothingNew(ws[j], members, now); }
    SkippedStep(ws, steps, i, j);
  }

  lemma ShapeOf(w: World)
    requires Inv(w)
    ensures Shape(w)
  {
  }

  /** The routes of a generation stay until the next recovery. */
  lemma SameRoutes(ws: seq<World>, steps: seq<Step>, i: nat, j: nat)
    requires Run(ws, steps) && i < j < |steps| && steps[i].RecoverStep? && forall l :: i < l < j ==>
             !steps[l].RecoverStep?
    ensures ws[j].routes == steps[i].routes
  {
    hide Run, NextGeneration, Claims, Decides, MayPickAll, AfterActions, Emptied, Log;
    RunLength(ws, steps);
    RecoveryAt(ws, steps, i);
    GrowsRun(ws, steps, i + 1, j);
  }
}
