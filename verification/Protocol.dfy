/**
 * The retry protocol as a transition system: nodes send, read, tail-call and finish requests, nodes crash, and a
 * completed recovery starts the next generation. Every send uses the routing tables of the current generation, which
 * may still name nodes that have crashed.
 */
module Protocol {
  import opened Messages
  import opened RecoverySpec
  import opened Routing

  /** A record of the topic: a partition and an offset relative to its first preserved record. */
  datatype Spot = Spot(partition: nat, offset: nat)

  /** A request read by its node either waits for the callee of an earlier attempt or runs its handler. */
  datatype Phase = Waiting | Running

  /** Who issued a blocking call: the calling request and the node it ran on. */
  datatype Origin = Origin(parent: string, node: string)

  datatype World = World(
    shared: Shared,
    routes: Routes,
    alive: set<nat>,          // partitions whose node is running
    head: map<nat, nat>,      // next offset each node reads
    phase: map<Spot, Phase>,  // invocations started and not ended
    issued: set<string>,      // history: request ids ever sent
    finished: set<string>,    // history: ids for which a Response or a Done was written
    abandoned: set<string>,   // history: ids whose Response had nowhere to go
    origin: map<string, Origin>,  // history: blocking calls
    known: set<string>)       // history: nodes that ever joined

  // ----- reading a world -----

  function Log(w: World, p: nat): seq<Message> { w.shared.Log(p) }

  predicate Holds(w: World, sp: Spot) { sp.offset < |Log(w, sp.partition)| }

  function Msg(w: World, sp: Spot): Message {
    if Holds(w, sp) then Log(w, sp.partition)[sp.offset] else Done("", 0)
  }

  predicate Req(w: World, sp: Spot, id: string) {
    Holds(w, sp) && Msg(w, sp).IsRequest() && Msg(w, sp).id == id
  }

  predicate Reply(w: World, sp: Spot, id: string) {
    Holds(w, sp) && !Msg(w, sp).IsRequest() && Msg(w, sp).id == id
  }

  function Num(w: World, sp: Spot): int {
    if Msg(w, sp).IsRequest() then Msg(w, sp).sequence else 0
  }

  predicate Locked(w: World, sp: Spot) { Msg(w, sp).IsLocked() }

  function Child(w: World, sp: Spot): string {
    if Msg(w, sp).IsRequest() then Msg(w, sp).child else ""
  }

  function Head(w: World, p: nat): nat { if p in w.head then w.head[p] else 0 }

  predicate IsRunning(w: World, sp: Spot) { sp in w.phase && w.phase[sp].Running? }

  /** An unfinished invocation on a running node: not read yet, waiting, or executing. */
  predicate Open(w: World, sp: Spot, id: string) {
    Req(w, sp, id) && sp.partition in w.alive && (sp.offset >= Head(w, sp.partition) || sp in w.phase)
  }

  // ----- steps -----

  /** Blocking calls made by request id from the node of partition p have all been answered. */
  ghost predicate Unblocked(w: World, id: string, p: nat) {
    forall c :: c in w.origin && w.origin[c].parent == id && w.routes.PartitionOf(w.origin[c].node) == p ==>
        c in w.finished
  }

  ghost predicate Issue(w: World, m: Message, pick: string, w': World) {
    && m.IsRequest() && m.id != "" && m.id !in w.issued
    && m.sequence == 0 && m.child == "" && !m.IsLocked() && !m.target.Node?
    && (m.Call? ==> w.routes.PartitionOf(m.caller) in w.alive)
    && (m.Call? && m.parent != "" ==>
          exists sp :: IsRunning(w, sp) && Req(w, sp, m.parent) && sp.partition == w.routes.PartitionOf(m.caller))
    && MayPick(w.routes, m.target, pick)
    && var to := RouteTo(w.routes, w.shared.placements, m.target, pick);
       w' == w.(shared := w.shared.(placements := to.placements).Append(to.partition, m),
                issued := w.issued + {m.id},
                origin := if m.Call? && m.parent != "" then w.origin[m.id := Origin(m.parent, m.caller)] else w.origin)
  }

  /** The node of partition p processes the next record of its partition. */
  ghost predicate Read(w: World, p: nat, w': World) {
    && p in w.alive
    && Holds(w, Spot(p, Head(w, p)))
    && var m := Msg(w, Spot(p, Head(w, p)));
       w' == w.(head := w.head[p := Head(w, p) + 1],
                phase := if m.IsRequest() then w.phase[Spot(p, Head(w, p)) := if m.child == "" then Running
                    else Waiting]
                         else if m.Response? then Woken(w, p, m.id)
                         else w.phase)
  }

  /** A Response releases the retries that wait for that callee on this node. */
  function Woken(w: World, p: nat, callee: string): map<Spot, Phase> {
    map sp | sp in w.phase :: if sp.partition == p && Child(w, sp) == callee then Running else w.phase[sp]
  }

  /** The handler at spot at transfers control to m. */
  ghost predicate TailCall(w: World, at: Spot, m: Message, pick: string, w': World) {
    && IsRunning(w, at)
    && var v := Msg(w, at);
       && m.IsRequest() && v.IsRequest() && (m.Call? <==> v.Call?) && m.id == v.id
       && m.sequence == v.sequence + 1 < COMPLETED && m.child == "" && m.parent == "" && !m.target.Node?
       && (m.Call? ==> m.caller == v.caller)
       && (m.IsLocked() ==>
             && SameActor(v.target, m.target)
             && w.routes.Offering(m.target.name) != [])
       && Unblocked(w, m.id, at.partition)
       && MayPick(w.routes, m.target, pick)
       && var to := RouteTo(w.routes, w.shared.placements, m.target, pick);
          w' == w.(shared := w.shared.(placements := to.placements).Append(to.partition, m), phase := w.phase - {at})
  }

  /** Where the reply of request m goes: a partition, or nowhere. */
  datatype Delivery = Direct(partition: nat) | Redirected(partition: nat) | Nowhere

  function ReplyTo(w: World, m: Message): Delivery
    requires m.IsRequest()
  {
    if m.Tell? then Direct(0)
    else if w.routes.PartitionOf(m.caller) != 0 then Direct(w.routes.PartitionOf(m.caller))
    else if m.id in w.shared.redirects then Redirected(w.routes.PartitionOf(w.shared.redirects[m.id]))
    else Nowhere
  }

  /** The world after the reply of request m has been sent, whatever else happens. */
  function Replied(w: World, m: Message, reply: Message): World
    requires m.IsRequest()
  {
    match ReplyTo(w, m)
    case Direct(q) => w.(shared := w.shared.Append(q, reply), finished := w.finished + {m.id})
    case Redirected(q) =>
      w.(shared := w.shared.Append(q, reply).(redirects := w.shared.redirects - {m.id}),
         finished := w.finished + {m.id})
    case Nowhere => w.(abandoned := w.abandoned + {m.id})
  }

  predicate IsReplyFor(m: Message, reply: Message) {
    m.IsRequest() && reply.id == m.id && (m.Tell? ==> reply.Done?) && (m.Call? ==> reply.Response?)
  }

  /** The handler at spot at returns, fails, or was never found; either way the request is answered. */
  ghost predicate Finish(w: World, at: Spot, reply: Message, w': World) {
    && IsRunning(w, at)
    && IsReplyFor(Msg(w, at), reply)
    && Unblocked(w, Msg(w, at).id, at.partition)
    && w' == Replied(w, Msg(w, at), reply).(phase := w.phase - {at})
  }

  /** A request whose deadline has passed is answered without running. */
  ghost predicate Expire(w: World, p: nat, reply: Message, w': World) {
    && p in w.alive
    && Holds(w, Spot(p, Head(w, p)))
    && var m := Msg(w, Spot(p, Head(w, p)));
       && IsReplyFor(m, reply) && m.deadline != 0
       && w' == Replied(w, m, reply).(head := w.head[p := Head(w, p) + 1])
  }

  /** A retry for an actor that waits too long in the queue of its actor is answered without running. */
  ghost predicate Timeout(w: World, at: Spot, reply: Message, w': World) {
    && at in w.phase && w.phase[at].Waiting?
    && var m := Msg(w, at);
       && IsReplyFor(m, reply) && m.target.Session?
       && w' == Replied(w, m, reply).(phase := w.phase - {at})
  }

  ghost predicate Crash(w: World, p: nat, w': World) {
    && p in w.alive
    && w' == w.(alive := w.alive - {p}, phase := map sp | sp in w.phase && sp.partition != p :: w.phase[sp])
  }

  /**
   * routes' are routing tables for the next generation: survivors keep their partition, newcomers take an empty one.
   */
  ghost predicate NextGeneration(w: World, routes': Routes) {
    && routes'.Valid()
    && (forall n :: n in w.routes.partitions && w.routes.partitions[n] in w.alive ==>
          n in routes'.partitions && routes'.partitions[n] == w.routes.partitions[n])
    && (forall n :: n in routes'.partitions ==>
          && routes'.partitions[n] != 0
          && if n in w.known then n in w.routes.partitions && routes'.partitions[n] == w.routes.partitions[n]
                                  && routes'.partitions[n] in w.alive
             else routes'.partitions[n] !in w.alive && Log(w, routes'.partitions[n]) == [])
  }

  /** The claims of the recovery leader: partition 0 first, then every other partition that holds records. */
  ghost predicate Claims(w: World, claims: seq<nat>) {
    && |claims| > 0 && claims[0] == 0
    && (forall p :: Log(w, p) != [] ==> p in claims)
    && (forall i, j :: 0 <= i < j < |claims| ==> claims[i] != claims[j])
  }

  function Entries(w: World, claims: seq<nat>): seq<Entry> { Reading(w.shared, claims) }

  /** A rebalance with a completed recovery. */
  ghost predicate Recover(w: World, routes': Routes, claims: seq<nat>, actions: seq<Action>, picks: seq<string>,
                          w': World) {
    && NextGeneration(w, routes')
    && Claims(w, claims)
    && Decides(Entries(w, claims), routes'.Live(), actions)
    && MayPickAll(routes', actions, picks)
    && w' == w.(shared := Emptied(AfterActions(routes', w.shared, actions, picks), DeadClaims(claims, routes'.Live())),
                routes := routes',
                alive := routes'.Live(),
                head := map p | p in routes'.Live() :: if p in w.alive then Head(w, p) else 0,
                known := w.known + routes'.partitions.Keys)
  }

  datatype Step =
    | IssueStep(m: Message, pick: string)
    | ReadStep(p: nat)
    | TailCallStep(at: Spot, m: Message, pick: string)
    | FinishStep(at: Spot, reply: Message)
    | ExpireStep(p: nat, reply: Message)
    | TimeoutStep(at: Spot, reply: Message)
    | CrashStep(p: nat)
    | RecoverStep(routes: Routes, claims: seq<nat>, actions: seq<Action>, picks: seq<string>)

  ghost predicate Next(w: World, s: Step, w': World) {
    match s
    case IssueStep(m, pick) => Issue(w, m, pick, w')
    case ReadStep(p) => Read(w, p, w')
    case TailCallStep(at, m, pick) => TailCall(w, at, m, pick, w')
    case FinishStep(at, reply) => Finish(w, at, reply, w')
    case ExpireStep(p, reply) => Expire(w, p, reply, w')
    case TimeoutStep(at, reply) => Timeout(w, at, reply, w')
    case CrashStep(p) => Crash(w, p, w')
    case RecoverStep(routes, claims, actions, picks) => Recover(w, routes, claims, actions, picks, w')
  }

  /** The step answers a request. */
  predicate Answering(s: Step) { s.FinishStep? || s.ExpireStep? || s.TimeoutStep? }

  /** The request a step answers. */
  function AnsweredAt(w: World, s: Step): Spot
    requires Answering(s)
  {
    if s.ExpireStep? then Spot(s.p, Head(w, s.p)) else s.at
  }

  /** Before the first node joins. */
  ghost predicate Init(w: World) {
    && w.shared.topic == map[] && w.routes == Routes(map[], map[])
    && w.alive == {} && w.phase == map[] && w.head == map[]
    && w.issued == {} && w.finished == {} && w.abandoned == {} && w.origin == map[] && w.known == {}
  }

  /** ws is a run of the protocol and steps are the steps it takes. */
  ghost predicate Run(ws: seq<World>, steps: seq<Step>) {
    && |ws| == |steps| + 1
    && Init(ws[0])
    && forall i :: 0 <= i < |steps| ==> Next(ws[i], steps[i], ws[i + 1])
  }

  // ----- the invariant -----

  ghost predicate Shape(w: World) {
    && w.routes.Valid()
    && (forall n :: n in w.routes.partitions ==> w.routes.partitions[n] != 0 && n in w.known)
    && w.alive <= w.routes.Live()
    && (forall p :: p != 0 && p !in w.routes.Live() ==> Log(w, p) == [])
    && (forall p :: p in w.alive ==> Head(w, p) <= |Log(w, p)|)
    && (forall sp :: sp in w.phase ==> Holds(w, sp) && sp.partition in w.alive && sp.offset < Head(w, sp.partition))
    && (forall sp :: sp in w.phase ==> Msg(w, sp).IsRequest())
  }

  ghost predicate Ids(w: World) {
    && (forall sp, id :: Req(w, sp, id) ==>
          id != "" && 0 <= Num(w, sp) < COMPLETED && id in w.issued && !Msg(w, sp).target.Node?)
    && (forall sp, id :: Reply(w, sp, id) ==> id in w.finished)
    && w.finished <= w.issued
    && w.abandoned <= w.issued
  }

  /** Retained-lock tail calls: each sits on the partition of its predecessor, and its number is used once. */
  ghost predicate Chains(w: World) {
    && (forall sp, id :: Req(w, sp, id) && Locked(w, sp) ==>
          && sp.partition != 0 && Num(w, sp) > 0
          && exists sp2 :: Req(w, sp2, id) && sp2.partition == sp.partition && Num(w, sp2) == Num(w, sp) - 1)
    && (forall sp, sp2, id :: Req(w, sp, id) && Locked(w, sp) && Req(w, sp2, id) && Num(w, sp2) == Num(w, sp) ==>
        sp == sp2)
  }

  /** An open attempt is the latest step of an unfinished request, and the only open one. */
  ghost predicate Attempts(w: World) {
    && (forall sp, id :: Open(w, sp, id) ==> id !in w.finished)
    && (forall sp, sp2, id :: Open(w, sp, id) && Req(w, sp2, id) ==> Num(w, sp2) <= Num(w, sp))
    && (forall sp, sp2, id :: Open(w, sp, id) && Open(w, sp2, id) ==> sp == sp2)
  }

  /** An attempt that ended on a running node without a reply was superseded by a later step. */
  ghost predicate Superseded(w: World, sp: Spot, id: string) {
    exists sp2 :: Req(w, sp2, id) && Num(w, sp) < Num(w, sp2) && (Locked(w, sp2) ==> sp2.partition == sp.partition)
  }

  ghost predicate Settled(w: World, id: string) { id in w.finished || id in w.abandoned }

  ghost predicate Progress(w: World) {
    && (forall id :: id in w.issued && !Settled(w, id) ==> exists sp :: Req(w, sp, id))
    && (forall sp, id :: Req(w, sp, id) && sp.partition in w.alive && !Open(w, sp, id) && !Settled(w, id) ==>
          Superseded(w, sp, id))
  }

  /** A finished request that is still in the topic is accompanied by its reply. */
  ghost predicate Evidence(w: World) {
    forall sp, id :: Req(w, sp, id) && id in w.finished ==> exists sp2 :: Reply(w, sp2, id)
  }

  /** A session request in a routed partition sits on the node its session is placed on. */
  ghost predicate Placed(w: World) {
    forall sp, id :: Req(w, sp, id) && sp.partition in w.routes.Live() && Msg(w, sp).target.Session? ==>
      var k := Place(Msg(w, sp).target.name, Msg(w, sp).target.key);
      k in w.shared.placements && w.routes.PartitionOf(w.shared.placements[k]) == sp.partition
  }

  /** What the history says of blocking calls, and how it shows in the topic. */
  ghost predicate Lineage(w: World) {
    && (forall c :: c in w.origin ==> c in w.issued && c != "" && w.origin[c].node in w.known)
    && (forall sp, c :: Req(w, sp, c) && Msg(w, sp).Call? && Msg(w, sp).parent != "" ==>
          c in w.origin && w.origin[c].parent == Msg(w, sp).parent)
    && (forall sp, c :: Req(w, sp, c) && c in w.origin ==> Msg(w, sp).Call? && Msg(w, sp).caller == w.origin[c].node)
    && (forall c :: c in w.origin && c !in w.finished && w.routes.PartitionOf(w.origin[c].node) in w.alive ==>
          CallerRuns(w, c))
  }

  /** The request that issued c is still executing on the node it issued c from. */
  ghost predicate CallerRuns(w: World, c: string)
    requires c in w.origin
  {
    exists sp :: IsRunning(w, sp) && Req(w, sp, w.origin[c].parent)
                 && sp.partition == w.routes.PartitionOf(w.origin[c].node)
  }

  /** The reply a waiting retry needs is still ahead of it in its own partition. */
  ghost predicate ReplyAhead(w: World, sp: Spot, c: string) {
    exists j: nat ::
      && j > sp.offset && j >= Head(w, sp.partition)
      && Reply(w, Spot(sp.partition, j), c) && Msg(w, Spot(sp.partition, j)).Response?
  }

  /** A retry names a callee of its own request, issued from a node that is gone. */
  ghost predicate Named(w: World) {
    forall sp, id :: Req(w, sp, id) && Child(w, sp) != "" ==>
      var c := Child(w, sp);
      c in w.origin && w.origin[c].parent == id && w.routes.PartitionOf(w.origin[c].node) == 0
  }

  /** While the callee is unfinished, its reply is redirected to the node that holds the retry. */
  ghost predicate Redirecting(w: World) {
    forall sp, id :: Open(w, sp, id) && Child(w, sp) != "" && Child(w, sp) !in w.finished ==>
      var c := Child(w, sp);
      c in w.shared.redirects && w.routes.PartitionOf(w.shared.redirects[c]) == sp.partition
  }

  /** Once the callee is finished, the retry runs or its wake-up call is on the way. */
  ghost predicate Announced(w: World) {
    forall sp, id :: Open(w, sp, id) && Child(w, sp) != "" && !IsRunning(w, sp) && Child(w, sp) in w.finished ==>
      ReplyAhead(w, sp, Child(w, sp))
  }

  /** A retry runs only after the callee it names has finished. */
  ghost predicate Ordered(w: World) {
    forall sp :: IsRunning(w, sp) && Child(w, sp) != "" ==> Child(w, sp) in w.finished
  }

  ghost predicate Waits(w: World) { Named(w) && Redirecting(w) && Announced(w) && Ordered(w) }

  /** The service, or the actor type, a request is for. */
  function ServiceOf(m: Message): string {
    if m.IsRequest() && !m.target.Node? then m.target.name else ""
  }

  /** The service, or the actor and the flow, a request is for. */
  function AddressOf(m: Message): Target {
    if !m.IsRequest() then Node("")
    else match m.target
         case Session(name, key, flow, _) => Session(name, key, flow, "")
         case _ => m.target
  }

  /**
   * Records of one request under one number are for one service or actor, and a retained-lock tail call does not change
   * it.
   */
  ghost predicate Targets(w: World) {
    && (forall sp, sp2, id :: Req(w, sp, id) && Req(w, sp2, id) && Num(w, sp) == Num(w, sp2) ==>
          AddressOf(Msg(w, sp)) == AddressOf(Msg(w, sp2)))
    && (forall sp, sp2, id :: Req(w, sp, id) && Req(w, sp2, id) && Locked(w, sp) && Num(w, sp2) == Num(w, sp) - 1 ==>
          AddressOf(Msg(w, sp)) == AddressOf(Msg(w, sp2)))
  }

  ghost predicate Inv(w: World) {
    && Shape(w) && Ids(w) && Chains(w) && Targets(w) && Attempts(w) && Progress(w) && Evidence(w) && Placed(w)
       && Lineage(w) && Waits(w)
  }
}
