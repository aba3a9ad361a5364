/** Building runs of the retry protocol step by step. */
module RunBuilding {
  import opened Messages
  import opened RecoverySpec
  import opened Routing
  import opened Protocol
  import opened ProtocolRecovery

  lemma ReadingNext(s: Shared, claims: seq<nat>, p: nat)
    ensures Reading(s, claims + [p]) == Reading(s, claims) + Tagged(p, s.Log(p))
  {
    assert (claims + [p])[..|claims|] == claims;
  }

  lemma ReadingOf3(s: Shared, a: nat, b: nat, c: nat)
    ensures Reading(s, [a, b, c]) == Tagged(a, s.Log(a)) + Tagged(b, s.Log(b)) + Tagged(c, s.Log(c))
  {
    assert [a, b, c][..2] == [a, b] && [a, b][..1] == [a] && [a][..0] == [];
    assert Reading(s, []) == [];
    assert Reading(s, [a]) == Tagged(a, s.Log(a));
    assert Reading(s, [a, b]) == Tagged(a, s.Log(a)) + Tagged(b, s.Log(b));
  }

  lemma ReadingOf4(s: Shared, a: nat, b: nat, c: nat, d: nat)
    ensures Reading(s, [a, b, c, d]) == Tagged(a, s.Log(a)) + Tagged(b, s.Log(b)) + Tagged(c, s.Log(c))
            + Tagged(d, s.Log(d))
  {
    hide Tagged;
    ReadingOf3(s, a, b, c);
    ReadingNext(s, [a, b, c], d);
    assert [a, b, c] + [d] == [a, b, c, d];
  }

  /** Recovery retries one request and confirms nothing. */
  lemma DecidesOne(es: seq<Entry>, live: set<nat>, m: Message, drop: bool)
    requires m.IsRequest() && MustRetry(es, live, m.id) && IsRetry(es, m.id, m) && (drop <==> Parked(es, m.id))
    requires forall id :: MustRetry(es, live, id) ==> id == m.id
    requires forall e :: e in es ==> e.msg.IsRequest()
    ensures Decides(es, live, [Resend(m, drop)])
  {
    hide MustRetry, IsRetry, Parked;
    assert Resends([Resend(m, drop)][0], m.id);
  }

  lemma OrphanRequested(es: seq<Entry>, live: set<nat>, id: string)
    requires StartOrphaned(es, live, id)
    ensures exists e :: e in es && Requests(e, id)
  {
  }

  /** Recovery does nothing. */
  lemma DecidesNone(es: seq<Entry>, live: set<nat>)
    requires forall id :: !MustRetry(es, live, id)
    requires forall e :: e in es ==> e.msg.IsRequest()
    ensures Decides(es, live, [])
  {
    hide MustRetry;
  }

  /** A recovery, from its parts. */
  lemma RecoverFrom(w: World, r: Routes, claims: seq<nat>, actions: seq<Action>, picks: seq<string>, es: seq<Entry>,
                    live: set<nat>, s: Shared, w': World)
    requires r.Live() == live && Entries(w, claims) == es && NextGeneration(w, r) && Claims(w, claims)
    requires Decides(es, live, actions) && MayPickAll(r, actions, picks)
             && AfterActions(r, w.shared, actions, picks) == s
    requires w'.shared == Emptied(s, DeadClaims(claims, live))
    requires w' == w.(shared := w'.shared, routes := r, alive := live, head := w'.head,
                      known := w.known + r.partitions.Keys)
    requires w'.head == map p | p in live :: if p in w.alive then Head(w, p) else 0
    ensures Next(w, RecoverStep(r, claims, actions, picks), w')
  {
    hide NextGeneration, Claims, Decides, MayPickAll, AfterActions, Emptied, Reading;
  }

  /** Emptying one dead partition. */
  lemma EmptiedOne(s: Shared, p: nat, claims: seq<nat>, live: set<nat>)
    requires DeadClaims(claims, live) == {p} && p in s.topic
    ensures Emptied(s, DeadClaims(claims, live)) == s.(topic := s.topic[p := []])
  {
    hide DeadClaims;
  }

  /** Sending a new request, from its parts. */
  lemma IssueTo(w: World, m: Message, pick: string, p: nat, w': World)
    requires m.IsRequest() && m.id != "" && m.id !in w.issued && m.sequence == 0 && m.child == "" && !m.IsLocked()
             && !m.target.Node?
    requires m.Call? ==> w.routes.PartitionOf(m.caller) in w.alive
    requires m.Call? && m.parent != "" ==>
               exists sp :: IsRunning(w, sp) && Req(w, sp, m.parent) && sp.partition == w.routes.PartitionOf(m.caller)
    requires MayPick(w.routes, m.target, pick) && RouteTo(w.routes, w.shared.placements, m.target, pick).partition == p
    requires RouteTo(w.routes, w.shared.placements, m.target, pick).placements == w.shared.placements
    requires w' == w.(shared := w.shared.Append(p, m), issued := w.issued + {m.id},
                      origin := if m.Call? && m.parent != "" then w.origin[m.id := Origin(m.parent, m.caller)]
                          else w.origin)
    ensures Next(w, IssueStep(m, pick), w')
  {
    hide RouteTo, MayPick;
  }

  /** One action is the only one. */
  lemma AfterOne(r: Routes, s: Shared, a: Action, pick: string)
    ensures AfterActions(r, s, [a], [pick]) == AfterAction(r, s, a, pick)
  {
    assert [a][..0] == [] && [pick][..0] == [];
    assert AfterActions(r, s, [], []) == s;
  }

  /** A run that goes one step further. */
  lemma Extended(ws: seq<World>, steps: seq<Step>, s: Step, w: World) returns (ws': seq<World>, steps': seq<Step>)
    requires Run(ws, steps) && Next(ws[|steps|], s, w)
    ensures Run(ws', steps') && ws' == ws + [w] && steps' == steps + [s]
  {
    hide Next, Protocol.Init;
    ws', steps' := ws + [w], steps + [s];
    forall i | 0 <= i < |steps'| ensures Next(ws'[i], steps'[i], ws'[i + 1]) {
      if i < |steps| { assert Next(ws[i], steps[i], ws[i + 1]); }
    }
  }

  // ----- logs in which every request has one record -----

  /** All records are requests without retained locks, one of each request. */
  ghost predicate Simple(es: seq<Entry>) {
    && (forall i :: 0 <= i < |es| ==> es[i].msg.IsRequest() && !es[i].msg.IsLocked() && es[i].msg.sequence >= 0)
    && (forall i, j :: 0 <= i < j < |es| ==> es[i].msg.id != es[j].msg.id)
  }

  lemma SimpleChain(es: seq<Entry>, i: nat)
    requires Simple(es) && i < |es|
    ensures var m := es[i].msg;
            && Highest(es, m.id, m.sequence) && ChainStart(es, m.id, m.sequence) && LatestAt(es, m.id, i)
            && forall e :: e in es && Requests(e, m.id) ==> e == es[i]
    ensures !Completed(es, es[i].msg.id)
  {
    var m := es[i].msg;
    assert es[i] in es && Requests(es[i], m.id);
    assert RunStart(es, m.id, m.sequence, m.sequence);
  }

  /** A request must be retried if and only if its record is in a dead partition. */
  lemma SimpleRetries(es: seq<Entry>, live: set<nat>, i: nat)
    requires Simple(es) && i < |es|
    ensures MustRetry(es, live, es[i].msg.id) <==> es[i].partition !in live
    ensures Parked(es, es[i].msg.id) <==> es[i].partition == 0
  {
    SimpleChain(es, i);
    hide Simple, Highest, ChainStart, LatestAt, Completed;
    assert es[i] in es;
  }

  lemma SimpleIsRetry(es: seq<Entry>, i: nat, child: string)
    requires Simple(es) && i < |es| && WaitsFor(es, es[i].msg.id, child)
    ensures IsRetry(es, es[i].msg.id, Retry(es[i].msg, es[i].msg.sequence, child))
  {
    SimpleChain(es, i);
    hide Simple, Highest, ChainStart, LatestAt, WaitsFor;
    assert IsLatest(es, es[i].msg.id, es[i].msg);
  }

  lemma SimpleKnown(es: seq<Entry>, live: set<nat>, id: string)
    requires Simple(es) && MustRetry(es, live, id)
    ensures exists i :: 0 <= i < |es| && es[i].msg.id == id
  {
    OrphanRequested(es, live, id);
    var e :| e in es && Requests(e, id);
    hide Simple, MustRetry;
  }

  /** Recovery retries the one request whose record is in a dead partition. */
  lemma SimpleDecides(es: seq<Entry>, live: set<nat>, i: nat, child: string)
    requires Simple(es) && i < |es| && WaitsFor(es, es[i].msg.id, child)
    requires forall j :: 0 <= j < |es| ==> (es[j].partition in live <==> j != i)
    ensures Decides(es, live, [Resend(Retry(es[i].msg, es[i].msg.sequence, child), es[i].partition == 0)])
  {
    assert forall e :: e in es ==> e.msg.IsRequest();
    forall id | MustRetry(es, live, id) ensures id == es[i].msg.id {
      SimpleKnown(es, live, id);
      var j :| 0 <= j < |es| && es[j].msg.id == id;
      SimpleRetries(es, live, j);
    }
    SimpleRetries(es, live, i);
    SimpleIsRetry(es, i, child);
    hide Simple, MustRetry, IsRetry, Parked, WaitsFor;
    DecidesOne(es, live, Retry(es[i].msg, es[i].msg.sequence, child), es[i].partition == 0);
  }

  /** Nobody was called. */
  lemma WaitsForNone(es: seq<Entry>, id: string)
    requires forall i :: 0 <= i < |es| ==> !CallsFrom(es[i], id)
    ensures WaitsFor(es, id, "")
  {
  }

  /** The last callee. */
  lemma WaitsForLast(es: seq<Entry>, id: string, i: nat)
    requires Simple(es) && i < |es| && CallsFrom(es[i], id) && es[i].msg.id != "" && forall j :: i < j < |es| ==>
             !CallsFrom(es[j], id)
    ensures WaitsFor(es, id, es[i].msg.id)
  {
    SimpleChain(es, i);
    hide Simple, Completed;
    assert LastPendingCallee(es, id, es[i].msg.id);
  }
}
