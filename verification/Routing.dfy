/** Where messages go: routing tables, placements, redirects, and the effect of resending. */
module Routing {
  import opened Messages
  import opened Options
  import opened RecoverySpec

  /** The routing tables of one generation. Partition 0 belongs to no node. */
  datatype Routes = Routes(services: map<string, seq<string>>, partitions: map<string, nat>)
  {
    /** Reading a node missing from node2partition yields 0. */
    function PartitionOf(node: string): nat {
      if node in partitions then partitions[node] else 0
    }

    function Offering(service: string): seq<string> {
      if service in services then services[service] else []
    }

    /** Every node that offers a service has a partition of its own. */
    ghost predicate Valid() {
      && (forall s, i :: s in services && 0 <= i < |services[s]| ==> PartitionOf(services[s][i]) != 0)
      && (forall m, n :: m in partitions && n in partitions && partitions[m] == partitions[n] && partitions[m] != 0 ==>
            m == n)
      && "" !in partitions
    }

    ghost function Live(): set<nat> {
      set n | n in partitions && partitions[n] != 0 :: partitions[n]
    }
  }

  /** The topic and the two families of keys of the store: placements and redirects. */
  datatype Shared = Shared(topic: map<nat, seq<Message>>, placements: map<string, string>,
                           redirects: map<string, string>)
  {
    function Log(p: nat): seq<Message> {
      if p in topic then topic[p] else []
    }

    function Append(p: nat, m: Message): Shared {
      this.(topic := topic[p := Log(p) + [m]])
    }
  }

  /** The store key of a placement. */
  function Place(service: string, session: string): string {
    "rpc" + "_" + service + "_" + session
  }

  /** The store key of a redirect. */
  function Alt(id: string): string { "alt_" + id }

  /** The two families never meet, and redirects of different requests are different keys. */
  lemma KeysApart(service: string, session: string, id: string, other: string)
    ensures Place(service, session) != Alt(id)
    ensures Alt(id) == Alt(other) <==> id == other
  {
    assert Place(service, session)[0] == 'r' && Alt(id)[0] == 'a';
    assert Alt(id)[4..] == id && Alt(other)[4..] == other;
  }

  /**
   * Two placements have one key when they are the same, or when one service name is the other one and a piece of the
   * session.
   */
  lemma PlacesMeetIff(s: string, k: string, t: string, l: string)
    ensures Place(s, k) == Place(t, l)
       <==> || (s == t && k == l)
            || (s + "_" <= t && k == t[|s| + 1..] + "_" + l)
            || (t + "_" <= s && l == s[|t| + 1..] + "_" + k)
  {
    var a, b := s + "_" + k, t + "_" + l;
    assert Place(s, k) == "rpc_" + a && Place(t, l) == "rpc_" + b;
    assert Place(s, k)[4..] == a && Place(t, l)[4..] == b;
    if |s| <= |t| {
      KeysMeetIff(s, k, t, l);
    } else {
      KeysMeetIff(t, l, s, k);
    }
  }

  lemma KeysMeetIff(s: string, k: string, t: string, l: string)
    requires |s| <= |t|
    ensures s + "_" + k == t + "_" + l <==> (s == t && k == l) || (s + "_" <= t && k == t[|s| + 1..] + "_" + l)
  {
    var a, b := s + "_" + k, t + "_" + l;
    assert a[..|s| + 1] == s + "_" && a[|s| + 1..] == k;
    assert b[..|t| + 1] == t + "_" && b[|t| + 1..] == l;
    assert a == b ==> a[..|s| + 1] == b[..|s| + 1] && a[|s| + 1..] == b[|s| + 1..];
    assert (s + "_")[..|s|] == s && (t + "_")[..|t|] == t;
    if |s| < |t| {
      assert t == t[..|s| + 1] + t[|s| + 1..];
      assert b[..|s| + 1] == t[..|s| + 1];
      assert b[|s| + 1..] == t[|s| + 1..] + "_" + l;
      assert b == b[..|s| + 1] + b[|s| + 1..];
    }
  }

  /** Two services can share a placement if and only if one name is the other followed by an underscore. */
  lemma ServicesMeetIff(s: string, t: string)
    requires s != t
    ensures (exists k, l :: Place(s, k) == Place(t, l)) <==> s + "_" <= t || t + "_" <= s
  {
    if k, l :| Place(s, k) == Place(t, l) { PlacesMeetIff(s, k, t, l); }
    if s + "_" <= t { PlacesMeetIff(s, t[|s| + 1..] + "_", t, ""); }
    if t + "_" <= s { PlacesMeetIff(s, "", t, s[|t| + 1..] + "_"); }
  }

  /** strings.Split at underscores. */
  function Split(s: string): (parts: seq<string>)
    ensures |parts| > 0
    ensures '_' !in s ==> parts == [s]
  {
    if s == "" then [""]
    else if s[0] == '_' then [""] + Split(s[1..])
    else
      var rest := Split(s[1..]);
      assert s == [s[0]] + s[1..];
      [[s[0]] + rest[0]] + rest[1..]
  }

  /** instance: the service and session of a placement key, as the code reads them back. */
  function Instance(key: string): Option<(string, string)> {
    var parts := Split(key);
    if |parts| < 3 then None else Some((parts[1], parts[2]))
  }

  /** Splitting stops at the first underscore. */
  lemma {:induction false} SplitAt(a: string, b: string)
    ensures |Split(a + "_" + b)| > 1
    ensures Split(a + "_" + b)[0] == Split(a)[0]
    ensures '_' !in a ==> Split(a + "_" + b) == [a] + Split(b)
    ensures Split(a)[0] == a <==> '_' !in a
  {
    var s := a + "_" + b;
    if a == "" {
      assert s[1..] == b;
    } else {
      assert s[1..] == a[1..] + "_" + b && s[0] == a[0];
      SplitAt(a[1..], b);
      assert a == [a[0]] + a[1..];
    }
  }

  /** A placement key gives its service and session back if and only if neither contains an underscore. */
  lemma InstanceIff(s: string, k: string)
    ensures Instance(Place(s, k)) == Some((s, k)) <==> '_' !in s && '_' !in k
  {
    assert Place(s, k) == "rpc" + "_" + (s + "_" + k);
    SplitAt("rpc", s + "_" + k);
    SplitAt(s, k);
    SplitAt(k, "");
  }

  datatype Route = Route(node: string, partition: nat, placements: map<string, string>)

  /** Where a request goes when the random choice among the nodes offering the service is pick. */
  function RouteTo(r: Routes, placements: map<string, string>, t: Target, pick: string): Route {
    if t.Node? then Route(t.node, r.PartitionOf(t.node), placements)
    else if r.Offering(t.name) == [] then Route("", 0, placements)
    else if t.Service? then Route(pick, r.PartitionOf(pick), placements)
    else
      var k := Place(t.name, t.key);
      if k in placements && r.PartitionOf(placements[k]) != 0
      then Route(placements[k], r.PartitionOf(placements[k]), placements)
      else Route(pick, r.PartitionOf(pick), placements[k := pick])
  }

  /** pick is a choice routing may make for t. */
  predicate MayPick(r: Routes, t: Target, pick: string) {
    !t.Node? && r.Offering(t.name) != [] ==> pick in r.Offering(t.name)
  }

  /** The reply a node-targeted call receives when its node is gone. */
  function NodeDied(id: string): Message {
    Response(id, [], 0, "node died before processing call request", "")
  }

  /** The effect of resend. */
  function AfterResend(r: Routes, s: Shared, m: Message, drop: bool, pick: string): Shared
    requires m.IsRequest()
  {
    if m.target.Node? then
      if m.Call? then s.Append(r.PartitionOf(m.caller), NodeDied(m.id)) else s
    else
      var to := RouteTo(r, s.placements, m.target, pick);
      var s1 := s.(placements := to.placements);
      if to.partition == 0 && drop then s1
      else
        var s2 := if m.child != "" && to.node != "" then s1.(redirects := s1.redirects[m.child := to.node]) else s1;
        s2.Append(to.partition, m)
  }

  /**
   * A call to a node that is gone is not sent again: its caller, where it is now, gets a response that carries an
   * error, and nothing else happens. A tell to such a node is forgotten.
   */
  lemma DeadNodeAnswered(r: Routes, s: Shared, m: Message, drop: bool, pick: string)
    requires m.IsRequest() && m.target.Node?
    ensures var s' := AfterResend(r, s, m, drop, pick);
            && s'.placements == s.placements && s'.redirects == s.redirects
            && (forall q :: m.Tell? || q != r.PartitionOf(m.caller) ==> s'.Log(q) == s.Log(q))
            && (m.Call? ==>
                  exists reply: Message ::
                    && s'.Log(r.PartitionOf(m.caller)) == s.Log(r.PartitionOf(m.caller)) + [reply]
                    && reply.Response? && reply.id == m.id && reply.errMsg != "" && reply.value == [])
  {
  }

  function AfterAction(r: Routes, s: Shared, a: Action, pick: string): Shared {
    match a
    case Resend(m, drop) => if m.IsRequest() then AfterResend(r, s, m, drop, pick) else s
    case Confirm(id, deadline) => s.Append(0, Done(id, deadline))
  }

  function AfterActions(r: Routes, s: Shared, actions: seq<Action>, picks: seq<string>): Shared
    requires |picks| == |actions|
  {
    if |actions| == 0 then s
    else
      var n := |actions| - 1;
      AfterAction(r, AfterActions(r, s, actions[..n], picks[..n]), actions[n], picks[n])
  }

  ghost predicate MayPickAll(r: Routes, actions: seq<Action>, picks: seq<string>) {
    && |picks| == |actions|
    && forall i :: 0 <= i < |actions| && actions[i].Resend? && actions[i].retry.IsRequest() ==>
         MayPick(r, actions[i].retry.target, picks[i])
  }

  /** Deleting the records of the partitions in dead. */
  function Emptied(s: Shared, dead: set<nat>): Shared {
    s.(topic := map p | p in s.topic :: if p in dead then [] else s.topic[p])
  }

  function Tagged(p: nat, log: seq<Message>): (es: seq<Entry>)
    ensures |es| == |log|
    ensures forall i :: 0 <= i < |log| ==> es[i] == Entry(p, log[i])
  {
    seq(|log|, i requires 0 <= i < |log| => Entry(p, log[i]))
  }

  /** Everything recovery reads, in reading order. */
  function Reading(s: Shared, claims: seq<nat>): seq<Entry> {
    if |claims| == 0 then []
    else
      var p := claims[|claims| - 1];
      Reading(s, claims[..|claims| - 1]) + Tagged(p, s.Log(p))
  }

  /** The claimed partitions that recovery empties. */
  function DeadClaims(claims: seq<nat>, live: set<nat>): set<nat> {
    set p | p in claims && p !in live && p != 0
  }

  /** A message is in the reading exactly when a claimed partition holds it. */
  lemma {:induction false} ReadingHolds(s: Shared, claims: seq<nat>, e: Entry)
    ensures e in Reading(s, claims) <==> e.partition in claims && e.msg in s.Log(e.partition)
  {
    if |claims| > 0 {
      var n := |claims| - 1;
      ReadingHolds(s, claims[..n], e);
      assert claims == claims[..n] + [claims[n]];
      var t := Tagged(claims[n], s.Log(claims[n]));
      if e.partition == claims[n] && e.msg in s.Log(e.partition) {
        var i :| 0 <= i < |s.Log(e.partition)| && s.Log(e.partition)[i] == e.msg;
        assert t[i] == e;
      }
      if e in t {
        var i :| 0 <= i < |t| && t[i] == e;
        assert s.Log(claims[n])[i] == e.msg;
      }
    }
  }
}
