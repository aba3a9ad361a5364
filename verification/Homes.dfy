/** Whether requests reach nodes that offer their service. */
module Homes {
  import opened Messages
  import opened RecoverySpec
  import opened Routing
  import opened Protocol
  import opened ProtocolRecovery
  import opened ProtocolInvariant
  import opened Guarantees
  import opened RunBuilding

  predicate Meet(s: string, t: string) { s + "_" <= t || t + "_" <= s }

  /** A node that offers one of two services whose placements can meet offers the other one, if anybody does. */
  ghost predicate Compatible(r: Routes) {
    forall s, t, n :: Meet(s, t) && n in r.Offering(t) && r.Offering(s) != [] ==> n in r.Offering(s)
  }

  /** Every placement on a live node is for a service it offers. */
  ghost predicate PlacedHome(r: Routes, placements: map<string, string>) {
    forall k :: k in placements && r.PartitionOf(placements[k]) != 0 ==> KeyOf(r, k, placements[k])
  }

  ghost predicate KeyOf(r: Routes, key: string, node: string) {
    exists s, x :: key == Place(s, x) && node in r.Offering(s)
  }

  /** The node of partition p offers the service of m. */
  ghost predicate AtHome(r: Routes, p: nat, m: Message) {
    p != 0 && m.IsRequest() && !m.target.Node? ==> forall n :: n in r.partitions && r.partitions[n] == p ==>
        n in r.Offering(m.target.name)
  }

  ghost predicate AllHome(r: Routes, s: Shared) {
    forall p: nat, i :: 0 <= i < |s.Log(p)| ==> AtHome(r, p, s.Log(p)[i])
  }

  ghost predicate Home(r: Routes, s: Shared) { PlacedHome(r, s.placements) && AllHome(r, s) }

  // ----- routing -----

  /** A live placement under the key of a service that somebody offers is on a node that offers it. */
  lemma PlacementOffers(r: Routes, placements: map<string, string>, s: string, x: string)
    requires Compatible(r) && PlacedHome(r, placements) && r.Offering(s) != []
    requires Place(s, x) in placements && r.PartitionOf(placements[Place(s, x)]) != 0
    ensures placements[Place(s, x)] in r.Offering(s)
  {
    var n := placements[Place(s, x)];
    assert KeyOf(r, Place(s, x), n);
    var t, y :| Place(s, x) == Place(t, y) && n in r.Offering(t);
    PlacesMeetIff(s, x, t, y);
    hide PlacedHome;
    assert s != t ==> Meet(s, t);
  }

  lemma RouteHome(r: Routes, placements: map<string, string>, m: Message, pick: string)
    requires r.Valid() && Compatible(r) && PlacedHome(r, placements) && m.IsRequest() && !m.target.Node?
             && MayPick(r, m.target, pick)
    ensures AtHome(r, RouteTo(r, placements, m.target, pick).partition, m)
    ensures PlacedHome(r, RouteTo(r, placements, m.target, pick).placements)
  {
    var t := m.target;
    if r.Offering(t.name) != [] && t.Session? {
      var k := Place(t.name, t.key);
      if k in placements && r.PartitionOf(placements[k]) != 0 {
        PlacementOffers(r, placements, t.name, t.key);
      } else {
        assert KeyOf(r, k, pick);
      }
    }
    hide Compatible;
  }

  lemma AppendHome(r: Routes, s: Shared, p: nat, m: Message)
    requires Home(r, s) && AtHome(r, p, m)
    ensures Home(r, s.Append(p, m))
  {
    hide AtHome, PlacedHome;
    var s' := s.Append(p, m);
    forall q: nat, i | 0 <= i < |s'.Log(q)| ensures AtHome(r, q, s'.Log(q)[i]) {
      assert i < |s.Log(q)| ==> AtHome(r, q, s.Log(q)[i]);
    }
  }

  lemma SendHome(r: Routes, s: Shared, m: Message, pick: string)
    requires r.Valid() && Compatible(r) && Home(r, s) && m.IsRequest() && !m.target.Node? && MayPick(r, m.target, pick)
    ensures var to := RouteTo(r, s.placements, m.target, pick);
            Home(r, s.(placements := to.placements)) && Home(r, s.(placements := to.placements).Append(to.partition, m))
  {
    var to := RouteTo(r, s.placements, m.target, pick);
    RouteHome(r, s.placements, m, pick);
    SameTopicHome(r, s, s.(placements := to.placements));
    AppendHome(r, s.(placements := to.placements), to.partition, m);
  }

  lemma SameTopicHome(r: Routes, s: Shared, s': Shared)
    requires AllHome(r, s) && s'.topic == s.topic
    ensures AllHome(r, s')
  {
    hide AtHome;
    forall q: nat, i | 0 <= i < |s'.Log(q)| ensures AtHome(r, q, s'.Log(q)[i]) {
      assert s'.Log(q) == s.Log(q);
    }
  }

  // ----- recovery -----

  lemma ActionHome(r: Routes, s: Shared, a: Action, pick: string)
    requires r.Valid() && Compatible(r) && Home(r, s)
    requires a.Resend? ==> a.retry.IsRequest() && !a.retry.target.Node? && MayPick(r, a.retry.target, pick)
    ensures Home(r, AfterAction(r, s, a, pick))
  {
    if a.Resend? {
      var m := a.retry;
      var to := RouteTo(r, s.placements, m.target, pick);
      SendHome(r, s, m, pick);
      RouteHome(r, s.placements, m, pick);
      var s1 := s.(placements := to.placements);
      var s2 := if m.child != "" && to.node != "" then s1.(redirects := s1.redirects[m.child := to.node]) else s1;
      SameTopicHome(r, s1, s2);
      hide RouteTo, AtHome, PlacedHome, AllHome, Compatible;
      AppendHome(r, s2, to.partition, m);
    } else {
      AppendHome(r, s, 0, Done(a.id, a.deadline));
    }
  }

  lemma {:induction false} ActionsHome(r: Routes, s: Shared, actions: seq<Action>, picks: seq<string>)
    requires r.Valid() && Compatible(r) && Home(r, s) && Sane(actions) && MayPickAll(r, actions, picks)
    ensures Home(r, AfterActions(r, s, actions, picks))
  {
    if |actions| > 0 {
      hide Home, Compatible;
      var n := |actions| - 1;
      ActionsHome(r, s, actions[..n], picks[..n]);
      ActionHome(r, AfterActions(r, s, actions[..n], picks[..n]), actions[n], picks[n]);
    }
  }

  lemma EmptiedHome(r: Routes, s: Shared, dead: set<nat>)
    requires Home(r, s)
    ensures Home(r, Emptied(s, dead))
  {
    hide AtHome, PlacedHome;
    var s' := Emptied(s, dead);
    forall q: nat, i | 0 <= i < |s'.Log(q)| ensures AtHome(r, q, s'.Log(q)[i]) {
      assert s'.Log(q) == s.Log(q);
    }
  }

  /** Survivors keep their services. */
  ghost predicate Stable(w: World, r: Routes) {
    forall s, n :: n in w.routes.Offering(s) && w.routes.PartitionOf(n) in w.alive ==> n in r.Offering(s)
  }

  /** Placements name nodes that have joined. */
  ghost predicate Named(placements: map<string, string>, known: set<string>) {
    forall k :: k in placements ==> placements[k] in known
  }

  /** The new tables, before recovery acts. */
  lemma NextHome(w: World, r: Routes)
    requires Shape(w) && NextGeneration(w, r) && Stable(w, r) && Named(w.shared.placements, w.known)
             && Home(w.routes, w.shared)
    ensures Home(r, w.shared)
  {
    var P := w.shared.placements;
    forall k | k in P && r.PartitionOf(P[k]) != 0 ensures KeyOf(r, k, P[k]) {
      assert KeyOf(w.routes, k, P[k]);
      var s, x :| k == Place(s, x) && P[k] in w.routes.Offering(s);
      assert P[k] in r.Offering(s);
    }
    forall p: nat, i | 0 <= i < |w.shared.Log(p)| ensures AtHome(r, p, w.shared.Log(p)[i]) {
      NextHomeAt(w, r, p, i);
    }
  }

  lemma NextHomeAt(w: World, r: Routes, p: nat, i: nat)
    requires Shape(w) && NextGeneration(w, r) && Stable(w, r) && AllHome(w.routes, w.shared) && i < |w.shared.Log(p)|
    ensures AtHome(r, p, w.shared.Log(p)[i])
  {
    var m := w.shared.Log(p)[i];
    assert AtHome(w.routes, p, m) && Log(w, p) != [];
    hide AllHome, Shape;
    if p != 0 && m.IsRequest() && !m.target.Node? {
      forall n | n in r.partitions && r.partitions[n] == p ensures n in r.Offering(m.target.name) {
        assert n in w.routes.partitions && w.routes.partitions[n] == p && p in w.alive;
        assert n in w.routes.Offering(m.target.name);
      }
    }
  }

  lemma RecoverHome(w: World, r: Routes, claims: seq<nat>, actions: seq<Action>, picks: seq<string>, w': World)
    requires Shape(w) && Ids(w) && Recover(w, r, claims, actions, picks, w') && Stable(w, r)
             && Named(w.shared.placements, w.known) && Compatible(r)
    requires Home(w.routes, w.shared)
    ensures Home(w'.routes, w'.shared)
  {
    assert r.Valid();
    hide Decides, MayPickAll, AfterActions, Emptied, DeadClaims, Claims, Entries, NextGeneration, Shape, Ids, Home,
         Stable, Named, Compatible;
    DecidesSane(w, claims, r.Live(), actions);
    NextHome(w, r);
    ActionsHome(r, w.shared, actions, picks);
    EmptiedHome(r, AfterActions(r, w.shared, actions, picks), DeadClaims(claims, r.Live()));
  }

  // ----- runs -----

  lemma ReplyHome(w: World, m: Message, reply: Message)
    requires Home(w.routes, w.shared) && Named(w.shared.placements, w.known) && IsReplyFor(m, reply)
    ensures Replied(w, m, reply).routes == w.routes && Replied(w, m, reply).known == w.known
    ensures Home(w.routes, Replied(w, m, reply).shared) && Named(Replied(w, m, reply).shared.placements, w.known)
  {
    hide ReplyTo, AllHome, PlacedHome;
    match ReplyTo(w, m)
    case Direct(q) => AppendHome(w.routes, w.shared, q, reply);
    case Redirected(q) =>
      AppendHome(w.routes, w.shared, q, reply);
      var s := w.shared.Append(q, reply);
      SameTopicHome(w.routes, s, s.(redirects := w.shared.redirects - {m.id}));
    case Nowhere =>
  }

  lemma RouteNamed(r: Routes, placements: map<string, string>, t: Target, pick: string, known: set<string>)
    requires r.Valid() && r.partitions.Keys <= known && Named(placements, known) && MayPick(r, t, pick)
    ensures Named(RouteTo(r, placements, t, pick).placements, known)
  {
  }

  lemma {:induction false} ActionsNamed(r: Routes, s: Shared, actions: seq<Action>, picks: seq<string>,
                                        known: set<string>)
    requires r.Valid() && r.partitions.Keys <= known && Named(s.placements, known) && MayPickAll(r, actions, picks)
    ensures Named(AfterActions(r, s, actions, picks).placements, known)
  {
    if |actions| > 0 {
      hide Routes.Valid, Named, RouteTo, MayPick;
      var n := |actions| - 1;
      ActionsNamed(r, s, actions[..n], picks[..n], known);
      if actions[n].Resend? && actions[n].retry.IsRequest() {
        RouteNamed(r, AfterActions(r, s, actions[..n], picks[..n]).placements, actions[n].retry.target, picks[n],
                   known);
      }
    }
  }

  ghost predicate HomeInv(w: World) { Home(w.routes, w.shared) && Named(w.shared.placements, w.known) }

  lemma SendKeeps(w: World, m: Message, pick: string, w': World)
    requires Shape(w) && Compatible(w.routes) && HomeInv(w) && m.IsRequest() && !m.target.Node?
             && MayPick(w.routes, m.target, pick)
    requires var to := RouteTo(w.routes, w.shared.placements, m.target, pick);
             w'.shared == w.shared.(placements := to.placements).Append(to.partition, m)
    requires w'.routes == w.routes && w'.known == w.known
    ensures HomeInv(w')
  {
    SendHome(w.routes, w.shared, m, pick);
    RouteNamed(w.routes, w.shared.placements, m.target, pick, w.known);
    hide Shape, Compatible, Home, Named, RouteTo;
  }

  lemma RecoverKeepsHome(w: World, r: Routes, claims: seq<nat>, actions: seq<Action>, picks: seq<string>, w': World)
    requires Shape(w) && Ids(w) && Recover(w, r, claims, actions, picks, w') && Stable(w, r) && Compatible(r)
             && HomeInv(w)
    ensures HomeInv(w')
  {
    RecoverHome(w, r, claims, actions, picks, w');
    assert r.Valid();
    hide Decides, MayPickAll, AfterActions, DeadClaims, Claims, Entries, NextGeneration, Shape, Ids, Home, Stable,
         Compatible;
    ActionsNamed(r, w.shared, actions, picks, w'.known);
  }

  lemma StepKeepsHome(w: World, s: Step, w': World)
    requires Shape(w) && Ids(w) && Next(w, s, w') && HomeInv(w) && Compatible(w'.routes)
             && (s.RecoverStep? ==> Stable(w, s.routes))
    ensures HomeInv(w')
  {
    hide Shape, Ids, Home, Named, Compatible, Stable, RouteTo, MayPick, Replied, Unblocked, Msg, Holds, Woken,
         NextGeneration, Claims, Decides,
         MayPickAll, AfterActions, Emptied, DeadClaims, Entries;
    match s
    case IssueStep(m, pick) => SendKeeps(w, m, pick, w');
    case TailCallStep(at, m, pick) => SendKeeps(w, m, pick, w');
    case FinishStep(at, reply) => ReplyHome(w, Msg(w, at), reply);
    case ExpireStep(p, reply) => ReplyHome(w, Msg(w, Spot(p, Head(w, p))), reply);
    case TimeoutStep(at, reply) => ReplyHome(w, Msg(w, at), reply);
    case ReadStep(p) =>
    case CrashStep(p) =>
    case RecoverStep(r, claims, actions, picks) => RecoverKeepsHome(w, r, claims, actions, picks, w');
  }

  /** Runs from an empty store in which survivors keep their services and every generation is compatible. */
  ghost predicate Homely(ws: seq<World>, steps: seq<Step>) {
    && Run(ws, steps) && ws[0].shared.placements == map[]
    && (forall i :: 0 <= i < |ws| ==> Compatible(ws[i].routes))
    && (forall i :: 0 <= i < |steps| && steps[i].RecoverStep? ==> Stable(ws[i], steps[i].routes))
  }

  lemma HomelyRun(ws: seq<World>, steps: seq<Step>)
    requires Homely(ws, steps)
    ensures Run(ws, steps) && |ws| == |steps| + 1
  {
    hide Next, Compatible, Stable;
  }

  lemma HomelyStep(ws: seq<World>, steps: seq<Step>, k: nat)
    requires Homely(ws, steps) && k < |steps|
    ensures Next(ws[k], steps[k], ws[k + 1]) && Compatible(ws[k + 1].routes)
            && (steps[k].RecoverStep? ==> Stable(ws[k], steps[k].routes))
  {
    hide Next, Compatible, Stable;
  }

  lemma StartsHome(w: World)
    requires Protocol.Init(w) && w.shared.placements == map[]
    ensures HomeInv(w)
  {
  }

  lemma {:induction false} RunHome(ws: seq<World>, steps: seq<Step>, k: nat)
    requires Homely(ws, steps) && k < |ws|
    ensures HomeInv(ws[k])
  {
    HomelyRun(ws, steps);
    if k == 0 {
      StartsHome(ws[0]);
    } else {
      HomelyStep(ws, steps, k - 1);
      hide Homely, Run, Next, HomeInv, Compatible, Stable, Shape, Ids, Chains, Targets, Attempts, Progress, Evidence,
           Placed, Lineage, Waits;
      RunHome(ws, steps, k - 1);
      RunInv(ws, steps, k - 1);
      StepKeepsHome(ws[k - 1], steps[k - 1], ws[k]);
    }
  }

  /** Every request outside partition 0 is on a node that offers its service. */
  lemma RequestsAtHome(ws: seq<World>, steps: seq<Step>, k: nat, sp: Spot, id: string)
    requires Homely(ws, steps) && k < |ws| && Req(ws[k], sp, id)
    ensures AtHome(ws[k].routes, sp.partition, Msg(ws[k], sp))
  {
    hide Homely, AtHome;
    RunHome(ws, steps, k);
    assert AtHome(ws[k].routes, sp.partition, ws[k].shared.Log(sp.partition)[sp.offset]);
  }

  /**
   * After a recovery an unfinished request is open on a node that offers its service, or nobody does and partition 0
   * keeps it.
   */
  lemma RetriedWhereOffered(ws: seq<World>, steps: seq<Step>, k: nat, id: string) returns (sp: Spot)
    requires Homely(ws, steps) && k < |steps| && steps[k].RecoverStep? && id in ws[k + 1].issued
             && !Settled(ws[k + 1], id)
    ensures TopAt(ws[k + 1], sp, id) && Req(ws[k + 1], sp, id) && !Msg(ws[k + 1], sp).target.Node?
    ensures if Open(ws[k + 1], sp, id) then sp.partition != 0
                                            && AtHome(ws[k + 1].routes, sp.partition, Msg(ws[k + 1], sp))
            else sp.partition == 0 && ws[k + 1].routes.Offering(ServiceOf(Msg(ws[k + 1], sp))) == []
  {
    HomelyRun(ws, steps);
    hide Homely, Run, TopAt, Open, AtHome, Settled, Chains, Targets, Attempts, Progress, Evidence, Placed, Lineage,
         Waits, Ids, Shape;
    RetriedWherePossible(ws, steps, k, id);
    var w := ws[k + 1];
    sp :| TopAt(w, sp, id) && (Open(w, sp, id) || (sp.partition == 0
                                                   && w.routes.Offering(ServiceOf(Msg(w, sp))) == []));
    RunInv(ws, steps, k + 1);
    RequestTarget(w, sp, id);
    if Open(w, sp, id) {
      OpenSomewhere(w, sp, id);
      RequestsAtHome(ws, steps, k + 1, sp, id);
    }
  }

  lemma RequestTarget(w: World, sp: Spot, id: string)
    requires Ids(w) && TopAt(w, sp, id)
    ensures Req(w, sp, id) && !Msg(w, sp).target.Node?
  {
  }

  lemma OpenSomewhere(w: World, sp: Spot, id: string)
    requires Shape(w) && Open(w, sp, id)
    ensures sp.partition != 0
  {
  }

  // ----- the condition is exact -----

  function Empty(): World {
    World(Shared(map[], map[], map[]), Routes(map[], map[]), {}, map[], map[], {}, {}, {}, map[], {})
  }

  ghost function Joined(r: Routes): World {
    Empty().(routes := r, alive := r.Live(), head := map p | p in r.Live() :: 0, known := r.partitions.Keys)
  }

  lemma JoinGeneration(r: Routes)
    requires r.Valid() && forall n :: n in r.partitions ==> r.partitions[n] != 0
    ensures NextGeneration(Empty(), r) && Claims(Empty(), [0])
  {
  }

  lemma JoinStep(r: Routes)
    requires r.Valid() && forall n :: n in r.partitions ==> r.partitions[n] != 0
    ensures Next(Empty(), RecoverStep(r, [0], [], []), Joined(r))
  {
    hide Routes.Valid, NextGeneration, Claims, Decides;
    JoinGeneration(r);
    var w := Empty();
    assert [0][..0] == [] && Reading(w.shared, []) == [] && Entries(w, [0]) == [];
    assert Emptied(w.shared, DeadClaims([0], r.Live())) == w.shared;
    assert w.known + r.partitions.Keys == r.partitions.Keys;
    DecidesNone([], r.Live());
    hide Emptied, Reading;
    RecoverFrom(w, r, [0], [], [], [], r.Live(), w.shared, Joined(r));
  }

  function Ask(id: string, service: string, session: string): Message {
    Tell(id, [], 0, Session(service, session, "flow", ""), "m", 0, "", "", false)
  }

  ghost function First(r: Routes, t: string, y: string, n: string): World {
    var w := Joined(r);
    w.(shared := w.shared.(placements := map[Place(t, y) := n]).Append(r.PartitionOf(n), Ask("first", t, y)),
       issued := {"first"})
  }

  lemma FirstStep(r: Routes, t: string, y: string, n: string)
    requires n in r.Offering(t)
    ensures Next(Joined(r), IssueStep(Ask("first", t, y), n), First(r, t, y, n))
  {
    var w := Joined(r);
    assert RouteTo(r, map[], Ask("first", t, y).target, n) == Route(n, r.PartitionOf(n), map[Place(t, y) := n]);
    assert w.issued + {"first"} == {"first"};
  }

  ghost function Second(r: Routes, t: string, y: string, n: string, s: string, x: string): World {
    var w := First(r, t, y, n);
    w.(shared := w.shared.Append(r.PartitionOf(n), Ask("second", s, x)), issued := {"first", "second"})
  }

  lemma SecondStep(r: Routes, t: string, y: string, n: string, s: string, x: string, pick: string)
    requires r.PartitionOf(n) != 0 && pick in r.Offering(s) && Place(s, x) == Place(t, y)
    ensures Next(First(r, t, y, n), IssueStep(Ask("second", s, x), pick), Second(r, t, y, n, s, x))
  {
    var w := First(r, t, y, n);
    assert RouteTo(r, w.shared.placements, Ask("second", s, x).target, pick) ==
           Route(n, r.PartitionOf(n), w.shared.placements);
    assert w.shared.(placements := w.shared.placements) == w.shared;
    assert w.issued + {"second"} == {"first", "second"};
  }

  lemma SecondAway(r: Routes, t: string, y: string, n: string, s: string, x: string) returns (sp: Spot)
    requires r.PartitionOf(n) != 0 && n !in r.Offering(s)
    ensures Req(Second(r, t, y, n, s, x), sp, "second") && !AtHome(r, sp.partition, Msg(Second(r, t, y, n, s, x), sp))
  {
    sp := Spot(r.PartitionOf(n), 1);
  }

  /** Runs from an empty store that know only one generation. */
  ghost predicate Within(ws: seq<World>, steps: seq<Step>, r: Routes) {
    Run(ws, steps) && ws[0].shared.placements == map[] && forall i :: 0 <= i < |ws| ==>
        ws[i].routes == Empty().routes || ws[i].routes == r
  }

  lemma Journey(r: Routes, t: string, y: string, n: string, s: string, x: string, pick: string)
      returns (ws: seq<World>, steps: seq<Step>)
    requires r.Valid() && (forall m :: m in r.partitions ==> r.partitions[m] != 0)
    requires n in r.Offering(t) && r.PartitionOf(n) != 0 && pick in r.Offering(s) && Place(s, x) == Place(t, y)
    ensures Within(ws, steps, r) && |ws| == 4 && ws[3] == Second(r, t, y, n, s, x)
  {
    hide Next, Routes.Valid, Place;
    JoinStep(r);
    FirstStep(r, t, y, n);
    SecondStep(r, t, y, n, s, x, pick);
    ws := [Empty(), Joined(r), First(r, t, y, n), Second(r, t, y, n, s, x)];
    steps := [RecoverStep(r, [0], [], []), IssueStep(Ask("first", t, y), n), IssueStep(Ask("second", s, x), pick)];
  }

  /**
   * Where two services can meet and a node offers only one of them, a request can reach a node that does not offer its
   * service.
   */
  lemma Misrouted(r: Routes) returns (ws: seq<World>, steps: seq<Step>, sp: Spot)
    requires r.Valid() && (forall n :: n in r.partitions ==> r.partitions[n] != 0) && !Compatible(r)
    ensures Within(ws, steps, r) && |ws| == 4 && Req(ws[3], sp, "second")
            && !AtHome(ws[3].routes, sp.partition, Msg(ws[3], sp))
  {
    hide Within, AtHome, Req, Msg, Place;
    var s, t, n :| Meet(s, t) && n in r.Offering(t) && r.Offering(s) != [] && n !in r.Offering(s);
    var x := if s + "_" <= t then t[|s| + 1..] + "_" else "";
    var y := if s + "_" <= t then "" else s[|t| + 1..] + "_";
    MeetingKeys(s, x, t, y);
    assert r.PartitionOf(n) != 0;
    ws, steps := Journey(r, t, y, n, s, x, r.Offering(s)[0]);
    sp := SecondAway(r, t, y, n, s, x);
  }

  lemma MeetingKeys(s: string, x: string, t: string, y: string)
    requires || (s + "_" <= t && x == t[|s| + 1..] + "_" && y == "")
             || (t + "_" <= s && y == s[|t| + 1..] + "_" && x == "")
    ensures Place(s, x) == Place(t, y)
  {
    PlacesMeetIff(s, x, t, y);
  }

  lemma StableWithin(w: World, r: Routes, r': Routes)
    requires Shape(w) && NextGeneration(w, r') && w.routes in {Empty().routes, r} && r' in {Empty().routes, r}
    ensures Stable(w, r')
  {
    forall s, n | n in w.routes.Offering(s) && w.routes.PartitionOf(n) in w.alive ensures n in r'.Offering(s) {
      assert w.routes.PartitionOf(n) in w.routes.Live();
      assert n in w.routes.partitions && n in r'.partitions;
    }
  }

  lemma WithinHomely(ws: seq<World>, steps: seq<Step>, r: Routes)
    requires Within(ws, steps, r) && Compatible(r)
    ensures Homely(ws, steps)
  {
    assert Compatible(Empty().routes);
    forall i | 0 <= i < |steps| && steps[i].RecoverStep? ensures Stable(ws[i], steps[i].routes) {
      hide Compatible, Stable, Decides, MayPickAll, AfterActions, Emptied, Claims, Entries, NextGeneration;
      hide Shape, Ids, Chains, Targets, Attempts, Progress, Evidence, Placed, Lineage, Waits;
      RunInv(ws, steps, i);
      assert Next(ws[i], steps[i], ws[i + 1]) && ws[i + 1].routes == steps[i].routes;
      StableWithin(ws[i], r, steps[i].routes);
    }
  }

  /**
   * Every request reaches a node that offers its service, in every run of one generation, if and only if it is
   * compatible.
   */
  lemma HomeIff(r: Routes)
    requires r.Valid() && forall n :: n in r.partitions ==> r.partitions[n] != 0
    ensures Compatible(r) <==>
            forall ws: seq<World>, steps: seq<Step>, k: nat, sp: Spot, id: string ::
                Within(ws, steps, r) && k < |ws| && Req(ws[k], sp, id) ==>
              AtHome(ws[k].routes, sp.partition, Msg(ws[k], sp))
  {
    hide Within, AtHome, Homely, Routes.Valid;
    if Compatible(r) {
      forall ws: seq<World>, steps: seq<Step>, k: nat, sp: Spot, id: string | Within(ws, steps, r) && k < |ws|
      && Req(ws[k], sp, id)
        ensures AtHome(ws[k].routes, sp.partition, Msg(ws[k], sp))
      {
        WithinHomely(ws, steps, r);
        RequestsAtHome(ws, steps, k, sp, id);
      }
    } else {
      var ws, steps, sp := Misrouted(r);
      assert Req(ws[3], sp, "second");
    }
  }
}
