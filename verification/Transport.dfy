/** The recovery leader, which rewrites the topic. */
module Transport {
  import opened Messages
  import opened RecoverySpec
  import opened RecoveryTables
  import opened Routing

  class Leader {
    var topic: map<nat, seq<Message>>
    var placements: map<string, string>
    var redirects: map<string, string>
    var cache: map<string, string>
    var services: map<string, seq<string>>
    var partitions: map<string, nat>
    var offset0: int

    function State(): Shared
      reads this
    {
      Shared(topic, placements, redirects)
    }

    function Generation(): Routes
      reads this
    {
      Routes(services, partitions)
    }

    /** Routing tables are sound and every cached placement is the stored one, on a live node. */
    ghost predicate Valid()
      reads this
    {
      && Generation().Valid()
      && "" !in placements.Values
      && forall k :: k in cache ==>
           k in placements && placements[k] == cache[k] && Generation().PartitionOf(cache[k]) != 0
    }

    /** store.CAS: one atomic step; expected "" stands for an absent key. */
    method CompareAndSwap(key: string, expected: string, desired: string) returns (final: string)
      modifies this`placements
      ensures var was := if key in old(placements) then old(placements)[key] else "";
              if was == expected then placements == old(placements)[key := desired] && final == desired
              else placements == old(placements) && final == was
    {
      var v := if key in placements then placements[key] else "";
      if v == expected {
        placements := placements[key := desired];
        return desired;
      }
      return v;
    }

    method RouteToService(service: string) returns (node: string, partition: nat, ghost pick: string)
      requires Valid()
      ensures MayPick(Generation(), Service(service), pick)
      ensures var to := RouteTo(Generation(), placements, Service(service), pick);
              node == to.node && partition == to.partition
      ensures if Generation().Offering(service) == [] then node == "" && partition == 0
              else node in Generation().Offering(service) && partition == Generation().PartitionOf(node) != 0
    {
      var nodes := Generation().Offering(service);
      if |nodes| == 0 {
        return "", 0, "";
      }
      var i: nat :| i < |nodes|;
      node := nodes[i];
      partition := Generation().PartitionOf(node);
      pick := node;
    }

    /** Nobody else writes placements while the leader recovers; the loop then runs at most twice. */
    method RouteToSession(t: Target) returns (node: string, partition: nat, ghost pick: string)
      requires Valid() && t.Session?
      modifies this`placements, this`cache
      ensures Valid()
      ensures MayPick(old(Generation()), t, pick)
      ensures var to := RouteTo(old(Generation()), old(placements), t, pick);
              node == to.node && partition == to.partition && placements == to.placements
    {
      var nodes := Generation().Offering(t.name);
      if |nodes| == 0 {
        return "", 0, "";
      }
      var i: nat :| i < |nodes|;
      var next := nodes[i];
      pick := next;
      assert Generation().PartitionOf(next) != 0 by {
        assert services[t.name][i] == next;
      }
      var key := Place(t.name, t.key);
      if key in cache {
        return cache[key], Generation().PartitionOf(cache[key]), pick;
      }
      node := "";
      ghost var rounds := 0;
      while true
        invariant rounds <= 1
        invariant unchanged(this`placements) && unchanged(this`cache)
        invariant rounds == 0 ==> node == ""
        invariant rounds == 1 ==> key in placements && node == placements[key] && Generation().PartitionOf(node) == 0
        decreases 2 - rounds
      {
        node := CompareAndSwap(key, node, next);
        partition := Generation().PartitionOf(node);
        if partition != 0 {
          cache := cache[key := node];
          return;
        }
        rounds := rounds + 1;
      }
    }
  
    method Send(p: nat, m: Message)
      modifies this`topic
      ensures State() == old(State()).Append(p, m)
    {
      topic := topic[p := (if p in topic then topic[p] else []) + [m]];
    }

    method ResendRequest(m: Message, drop: bool) returns (ghost pick: string)
      requires Valid() && m.IsRequest()
      modifies this`topic, this`placements, this`redirects, this`cache
      ensures Valid()
      ensures MayPick(old(Generation()), m.target, pick)
      ensures State() == AfterResend(old(Generation()), old(State()), m, drop, pick)
    {
      var node, partition := "", 0;
      pick := "";
      match m.target {
        case Node(_) =>
          if m.Call? {
            Send(Generation().PartitionOf(m.caller), NodeDied(m.id));
          }
          return;
        case Service(name) =>
          node, partition, pick := RouteToService(name);
        case Session(_, _, _, _) =>
          node, partition, pick := RouteToSession(m.target);
      }
      if partition == 0 && drop {
        return;
      }
      if m.child != "" && node != "" {
        redirects := redirects[m.child := node];
      }
      Send(partition, m);
    }

    method RespondDone(id: string, deadline: Time)
      requires Valid()
      modifies this`topic
      ensures Valid()
      ensures State() == old(State()).Append(0, Done(id, deadline))
    {
      Send(0, Done(id, deadline));
    }

    /** The loop over nested blocking calls. */
    static method PickChild(callees: seq<string>, responses: set<string>) returns (child: string)
      ensures child == LastPending(callees, responses)
    {
      child := "";
      for i := 0 to |callees|
        invariant child == LastPending(callees[..i], responses)
      {
        assert callees[..i + 1][..i] == callees[..i];
        if callees[i] !in responses {
          child := callees[i];
        }
      }
      assert callees[..|callees|] == callees;
    }

    /** The loop that walks down from the highest sequence number of each chain. */
    static method ChainStarts(max: map<string, int>, chains: map<string, set<int>>) returns (min: map<string, int>)
      requires chains.Keys <= max.Keys
      ensures min == map id | id in max :: if id in chains then RunDown(chains[id], max[id], max[id]) else max[id]
    {
      min := max;
      var keys := chains.Keys;
      while keys != {}
        invariant keys <= chains.Keys
        invariant min == map id | id in max :: if id in chains
                                               && id !in keys then RunDown(chains[id], max[id], max[id]) else max[id]
        decreases keys
      {
        var k :| k in keys;
        var i := max[k];
        while i >= 0 && i in chains[k]
          invariant RunDown(chains[k], max[k], max[k]) == RunDown(chains[k], i, max[k])
          decreases i
        {
          i := i - 1;
        }
        if i >= 0 {
          min := min[k := i];
        }
        keys := keys - {k};
      }
    }
  
    /** The body of the reading loop, for a request. */
    static method ReadRequest(t: Tables, live: set<nat>, p: nat, v: Message, ghost es: seq<Entry>) returns (t': Tables)
      requires t == TablesOf(es, live) && v.IsRequest() && 0 !in live
      ensures t' == TablesOf(es + [Entry(p, v)], live)
    {
      assert Init(es + [Entry(p, v)]) == es && Last(es + [Entry(p, v)]) == Entry(p, v);
      t' := ReadChain(t, p, v, es);
      t' := ReadPlace(t', live, p, v, es);
    }

    /** The first half of that body: sequence numbers, chains and nested calls. */
    static method ReadChain(t: Tables, p: nat, v: Message, ghost es: seq<Entry>) returns (t': Tables)
      requires v.IsRequest()
      requires t.max == MaxTable(es) && t.latest == LatestTable(es)
      requires t.chains == ChainTable(es) && t.calls == CallTable(es)
      ensures var es' := es + [Entry(p, v)];
              t' == t.(max := MaxTable(es'), latest := LatestTable(es'), chains := ChainTable(es'),
                       calls := CallTable(es'))
    {
      ghost var es' := es + [Entry(p, v)];
      assert Init(es') == es && Last(es') == Entry(p, v);
      var max, latest, chains, calls := t.max, t.latest, t.chains, t.calls;
      if At(max, v.id) <= v.sequence {
        max := max[v.id := v.sequence];
        latest := latest[v.id := v];
      }
      if v.IsLocked() {
        chains := chains[v.id := (if v.id in chains then chains[v.id] else {}) + {v.sequence}];
      }
      if v.Call? {
        calls := calls[v.parent := (if v.parent in calls then calls[v.parent] else []) + [v.id]];
      }
      t' := t.(max := max, latest := latest, chains := chains, calls := calls);
    }

    /** The second half: what depends on the partition the request was read from. */
    static method ReadPlace(t: Tables, live: set<nat>, p: nat, v: Message, ghost es: seq<Entry>) returns (t': Tables)
      requires v.IsRequest() && 0 !in live
      requires t.orphans == OrphanList(es, live) && t.orphans0 == Orphan0List(es, live)
      requires t.requests == RequestIds(es, live) && t.requests0 == Request0Table(es, live)
      requires t.handled == HandledTable(es, live)
      ensures var es' := es + [Entry(p, v)];
              t' == t.(orphans := OrphanList(es', live), orphans0 := Orphan0List(es', live),
                       requests := RequestIds(es', live), requests0 := Request0Table(es', live),
                       handled := HandledTable(es', live))
    {
      ghost var es' := es + [Entry(p, v)];
      assert Init(es') == es && Last(es') == Entry(p, v);
      var orphans, orphans0, requests, requests0, handled := t.orphans, t.orphans0, t.requests, t.requests0, t.handled;
      if p !in live {
        if p == 0 {
          orphans0 := orphans0 + [v];
          requests := requests + {v.id};
          if v.sequence >= At(requests0, v.id) {
            requests0 := requests0[v.id := v.sequence];
          }
        } else {
          orphans := orphans + [v];
        }
      } else {
        if v.sequence >= At(handled, v.id) {
          handled := handled[v.id := v.sequence];
        }
        requests := requests + {v.id};
      }
      t' := t.(orphans := orphans, orphans0 := orphans0, requests := requests, requests0 := requests0,
               handled := handled);
    }

    /** The body of the reading loop, for a Response or a Done. */
    static method ReadReply(t: Tables, live: set<nat>, p: nat, v: Message, ghost es: seq<Entry>) returns (t': Tables)
      requires t == TablesOf(es, live) && !v.IsRequest() && 0 !in live
      ensures t' == TablesOf(es + [Entry(p, v)], live)
    {
      assert Init(es + [Entry(p, v)]) == es && Last(es + [Entry(p, v)]) == Entry(p, v);
      t' := t.(responses := t.responses + {v.id}, handled := t.handled[v.id := COMPLETED]);
      if p !in live && p != 0 {
        t' := t'.(orphans := t.orphans + [v]);
      }
      if p == 0 {
        t' := t'.(responses0 := t.responses0 + {v.id});
      }
    }

    /** Read all claimed partitions. */
    method ReadAll(claims: seq<nat>, live: set<nat>) returns (t: Tables, forDeletion: set<nat>)
      requires 0 !in live
      ensures t == TablesOf(Reading(State(), claims), live)
      ensures forDeletion == DeadClaims(claims, live)
    {
      t := Tables(map[], map[], map[], map[], [], [], {}, {}, {}, map[], map[]);
      forDeletion := {};
      ghost var es: seq<Entry> := [];
      TablesEmpty(live);
      hide TablesOf, Reading, DeadClaims;
      NothingRead(State(), live);
      for c := 0 to |claims|
        invariant es == Reading(State(), claims[..c]) && t == TablesOf(es, live)
        invariant forDeletion == DeadClaims(claims[..c], live)
      {
        var p := claims[c];
        var log := State().Log(p);
        ghost var before := es;
        var next := 0;
        while next < |log|
          invariant 0 <= next <= |log|
          invariant es == before + Tagged(p, log)[..next] && t == TablesOf(es, live)
        {
          if log[next].IsRequest() {
            t := ReadRequest(t, live, p, log[next], es);
          } else {
            t := ReadReply(t, live, p, log[next], es);
          }
          es := es + [Entry(p, log[next])];
          next := next + 1;
        }
        if p !in live && p != 0 {
          forDeletion := forDeletion + {p};
        }
        ReadOneMore(State(), claims, live, c);
        assert Tagged(p, log)[..|log|] == Tagged(p, log);
      }
      assert claims[..|claims|] == claims;
    }

    /** What recover does with one orphaned request that is its first of that id. */
    method Retransmit(t: Tables, min: map<string, int>, live: set<nat>, m: Message, ghost es: seq<Entry>)
      returns (ghost pick: string)
      requires Valid() && WellFormed(es) && m.IsRequest() && Requested(es, m.id)
      requires t == TablesOf(es, live) && min == MinTable(es)
      modifies this`topic, this`placements, this`redirects, this`cache
      ensures Valid()
      ensures RetryOf(es, m).IsRequest()
      ensures MayPick(old(Generation()), RetryOf(es, m).target, pick)
      ensures State() == AfterResend(old(Generation()), old(State()), RetryOf(es, m), DropAt0(es, live, m.id), pick)
    {
      var k := m.id;
      MaxMeaning(es, k);
      LatestIsHighest(es, k, t.latest[k]);
      var child := PickChild(if k in t.calls then t.calls[k] else [], t.responses);
      var retry := Retry(t.latest[k], At(min, k), child);
      assert retry == RetryOf(es, m);
      var drop := k in t.requests0 && t.requests0[k] >= At(t.max, k);
      assert drop == DropAt0(es, live, k);
      pick := ResendRequest(retry, drop);
    }

    /** The body of the second loop: m is the orphan that follows os. */
    method Visit(t: Tables, min: map<string, int>, live: set<nat>, seen: set<string>, m: Message,
                 ghost es: seq<Entry>, ghost os: seq<Message>)
      returns (seen': set<string>, ghost action: seq<Action>, ghost pick: string)
      requires Valid() && WellFormed(es) && (m.IsRequest() ==> Requested(es, m.id))
      requires t == TablesOf(es, live) && min == MinTable(es) && seen == Seen(es, live, os)
      modifies this`topic, this`placements, this`redirects, this`cache
      ensures Valid() && Generation() == old(Generation())
      ensures seen' == Seen(es, live, os + [m])
      ensures |action| <= 1 && ActionsFor(es, live, os + [m]) == ActionsFor(es, live, os) + action
      ensures |action| == 0 ==> State() == old(State())
      ensures |action| == 1 ==> State() == AfterAction(old(Generation()), old(State()), action[0], pick)
      ensures |action| == 1 && action[0].Resend? && action[0].retry.IsRequest() ==>
                MayPick(old(Generation()), action[0].retry.target, pick)
    {
      var k := m.id;
      assert (os + [m])[..|os|] == os;
      SeenStep(es, live, os + [m]);
      seen', action, pick := seen, [], "";
      if m.IsRequest() {
        if (k !in t.handled || t.handled[k] < At(t.max, k)) && m.sequence == At(min, k) {
          if k !in seen {
            seen' := seen + {k};
            pick := Retransmit(t, min, live, m, es);
            action := [Resend(RetryOf(es, m), DropAt0(es, live, k))];
          }
        }
      } else if k in t.requests && k !in t.responses0 {
        RespondDone(k, m.deadline);
        action := [Confirm(k, m.deadline)];
      }
    }

    /** Resend and confirm, one orphan after the other. */
    method Act(t: Tables, min: map<string, int>, live: set<nat>, ghost es: seq<Entry>)
      returns (ghost actions: seq<Action>, ghost picks: seq<string>)
      requires Valid() && WellFormed(es) && 0 !in live
      requires t == TablesOf(es, live) && min == MinTable(es)
      modifies this`topic, this`placements, this`redirects, this`cache
      ensures Valid()
      ensures actions == ActionsFor(es, live, Orphans(es, live))
      ensures MayPickAll(old(Generation()), actions, picks)
      ensures State() == AfterActions(old(Generation()), old(State()), actions, picks)
    {
      hide AfterActions, ActionsFor, Seen, MayPickAll, AfterAction, Requested, WellFormed, MinTable, Valid, Acted;
      var orphans := t.orphans + t.orphans0;
      OrphansRequested(es, live);
      hide TablesOf;
      var seen: set<string> := {};
      actions, picks := [], [];
      ActedStarts(Generation(), State(), es, live);
      for i := 0 to |orphans|
        invariant Valid()
        invariant Acted(old(Generation()), old(State()), State(), es, live, orphans[..i], seen, actions, picks)
      {
        ActedMeans(old(Generation()), old(State()), State(), es, live, orphans[..i], seen, actions, picks);
        ghost var was, action, pick := State(), [], "";
        seen, action, pick := Visit(t, min, live, seen, orphans[i], es, orphans[..i]);
        assert orphans[..i + 1] == orphans[..i] + [orphans[i]];
        ActedStep(old(Generation()), old(State()), was, State(), es, live, orphans[..i], orphans[i], seen, actions,
                  picks, action, pick);
        actions, picks := actions + action, picks + (if |action| == 1 then [pick] else []);
      }
      assert orphans[..|orphans|] == orphans;
      ActedMeans(old(Generation()), old(State()), State(), es, live, orphans, seen, actions, picks);
    }

    /** admin.DeleteRecords with the newest offset of each partition in dead. */
    method DeleteRecords(dead: set<nat>)
      requires Valid()
      modifies this`topic
      ensures Valid() && State() == Emptied(old(State()), dead)
    {
      topic := map p | p in topic :: if p in dead then [] else topic[p];
    }

    /** The restart point of every request. */
    method Restart(t: Tables, live: set<nat>, ghost es: seq<Entry>) returns (min: map<string, int>)
      requires WellFormed(es) && t == TablesOf(es, live)
      ensures min == MinTable(es)
    {
      ChainKeys(es);
      min := ChainStarts(t.max, t.chains);
    }

    /** recover: read every claimed partition, decide, resend, confirm, and empty the dead partitions. */
    method Recover(claims: seq<nat>, live: set<nat>, max0: int)
        returns (ghost actions: seq<Action>, ghost picks: seq<string>)
      requires Valid() && 0 !in live
      requires WellFormed(Reading(State(), claims))
      modifies this`topic, this`placements, this`redirects, this`cache, this`offset0
      ensures Valid() && offset0 == max0
      ensures Decides(Reading(old(State()), claims), live, actions)
      ensures MayPickAll(old(Generation()), actions, picks)
      ensures State() == Emptied(AfterActions(old(Generation()), old(State()), actions, picks),
                                 DeadClaims(claims, live))
    {
      hide TablesOf, MinTable, ActionsFor, AfterActions, Decides, WellFormed, MayPickAll, Reading, Emptied, DeadClaims;
      ghost var es := Reading(State(), claims);
      var t, forDeletion := ReadAll(claims, live);
      var min := Restart(t, live, es);
      actions, picks := Act(t, min, live, es);
      ActionsDecide(es, live);
      DeleteRecords(forDeletion);
      offset0 := max0;
    }
  }

  lemma AppendAction(r: Routes, s: Shared, actions: seq<Action>, picks: seq<string>, a: Action, pick: string)
    requires |picks| == |actions|
    ensures AfterActions(r, s, actions + [a], picks + [pick]) ==
            AfterAction(r, AfterActions(r, s, actions, picks), a, pick)
  {
    var n := |actions|;
    assert (actions + [a])[..n] == actions && (picks + [pick])[..n] == picks;
  }

  /** The state s after the orphans os have been visited from state s0. */
  ghost predicate Acted(r: Routes, s0: Shared, s: Shared, es: seq<Entry>, live: set<nat>, os: seq<Message>,
                        seen: set<string>, actions: seq<Action>, picks: seq<string>)
  {
    && seen == Seen(es, live, os)
    && actions == ActionsFor(es, live, os)
    && MayPickAll(r, actions, picks)
    && s == AfterActions(r, s0, actions, picks)
  }

  lemma ActedStarts(r: Routes, s: Shared, es: seq<Entry>, live: set<nat>)
    ensures Acted(r, s, s, es, live, [], {}, [], [])
  {
  }

  lemma ActedMeans(r: Routes, s0: Shared, s: Shared, es: seq<Entry>, live: set<nat>, os: seq<Message>,
                   seen: set<string>, actions: seq<Action>, picks: seq<string>)
    requires Acted(r, s0, s, es, live, os, seen, actions, picks)
    ensures seen == Seen(es, live, os) && actions == ActionsFor(es, live, os)
    ensures MayPickAll(r, actions, picks) && s == AfterActions(r, s0, actions, picks)
  {
  }

  lemma NothingRead(s: Shared, live: set<nat>)
    ensures Reading(s, []) == [] && DeadClaims([], live) == {}
  {
  }

  lemma ReadOneMore(s: Shared, claims: seq<nat>, live: set<nat>, c: nat)
    requires c < |claims|
    ensures Reading(s, claims[..c + 1]) == Reading(s, claims[..c]) + Tagged(claims[c], s.Log(claims[c]))
    ensures DeadClaims(claims[..c + 1], live) == DeadClaims(claims[..c], live) + if claims[c] !in live
            && claims[c] != 0 then {claims[c]} else {}
  {
    assert claims[..c + 1][..c] == claims[..c] && claims[..c + 1] == claims[..c] + [claims[c]];
  }

  lemma ActedStep(r: Routes, s0: Shared, s: Shared, s': Shared, es: seq<Entry>, live: set<nat>, os: seq<Message>,
                  m: Message,
                  seen: set<string>, actions: seq<Action>, picks: seq<string>, action: seq<Action>, pick: string)
    requires actions == ActionsFor(es, live, os) && MayPickAll(r, actions, picks)
             && s == AfterActions(r, s0, actions, picks)
    requires seen == Seen(es, live, os + [m])
    requires |action| <= 1 && ActionsFor(es, live, os + [m]) == actions + action
    requires |action| == 0 ==> s' == s
    requires |action| == 1 ==> s' == AfterAction(r, s, action[0], pick)
    requires |action| == 1 && action[0].Resend? && action[0].retry.IsRequest() ==>
             MayPick(r, action[0].retry.target, pick)
    ensures Acted(r, s0, s', es, live, os + [m], seen, actions + action, picks + (if |action| == 1 then [pick] else []))
  {
    if |action| == 1 {
      AppendAction(r, s0, actions, picks, action[0], pick);
      AppendPick(r, actions, picks, action[0], pick);
      assert action == [action[0]];
    } else {
      assert action == [];
      assert actions + action == actions && picks + [] == picks;
    }
  }

  lemma AppendPick(r: Routes, actions: seq<Action>, picks: seq<string>, a: Action, pick: string)
    requires MayPickAll(r, actions, picks)
    requires a.Resend? && a.retry.IsRequest() ==> MayPick(r, a.retry.target, pick)
    ensures MayPickAll(r, actions + [a], picks + [pick])
  {}

  lemma OrphansRequested(es: seq<Entry>, live: set<nat>)
    requires 0 !in live
    ensures forall m :: m in Orphans(es, live) && m.IsRequest() ==> Requested(es, m.id)
  {
    forall m | m in Orphans(es, live) && m.IsRequest()
      ensures Requested(es, m.id)
    {
      OrphansMeaning(es, live, m);
      var e :| e in es && e.msg == m;
      assert Requests(e, m.id);
    }
  }

  lemma {:induction false} ChainKeys(es: seq<Entry>)
    requires WellFormed(es)
    ensures ChainTable(es).Keys <= MaxTable(es).Keys
  {
    forall id | id in ChainTable(es)
      ensures id in MaxTable(es)
    {
      ChainHasRequest(es, id);
      MaxMeaning(es, id);
    }
  }

  lemma {:induction false} ChainHasRequest(es: seq<Entry>, id: string)
    requires id in ChainTable(es)
    ensures Requested(es, id)
  {
    Splits(es);
    if Requests(Last(es), id) {
      assert Last(es) in es;
    } else {
      ChainHasRequest(Init(es), id);
    }
  }
}
