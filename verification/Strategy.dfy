/** The group leader's assignment of topic partitions to nodes. */
module Strategy {

  /** A consumer group member and the metadata it sends: its node, the partition it has (0 if none), what it offers. */
  datatype Member = Member(id: string, node: string, partition: int, services: seq<string>)

  /** Oldest and newest offsets of a partition. */
  datatype Range = Range(min: nat, max: nat)
  {
    predicate Empty() { max <= min }
  }

  /** A claim gives a partition to a group member. */
  datatype Claim = Claim(member: string, partition: nat)

  datatype Outcome = Assigned(claims: seq<Claim>) | TooFewPartitions(grownTo: nat)

  // ----- what the loops compute -----

  function Get(m: map<string, nat>, n: string): nat { if n in m then m[n] else 0 }

  function Nodes(members: seq<Member>): set<string> { set m | m in members :: m.node }

  ghost predicate DistinctNodes(members: seq<Member>) {
    forall i, j :: 0 <= i < j < |members| ==> members[i].node != members[j].node
  }

  /** The known assignment after the metadata of members; outdated metadata does not overwrite it. */
  function Merge(members: seq<Member>, known: map<string, nat>): map<string, nat> {
    if members == [] then known else
      var m := members[|members| - 1];
      var before := Merge(members[..|members| - 1], known);
      if m.partition > 0 then before[m.node := m.partition] else before
  }

  function ByNode(members: seq<Member>): map<string, string> {
    if members == [] then map[] else
      ByNode(members[..|members| - 1])[members[|members| - 1].node := members[|members| - 1].id]
  }

  function Restrict(m: map<string, nat>, live: set<string>): map<string, nat> {
    map n | n in m && n in live :: m[n]
  }

  lemma RestrictKeys(m: map<string, nat>, live: set<string>)
    ensures Restrict(m, live).Keys <= live
  {
  }

  /** Partitions attached to live nodes. */
  function Owned(m: map<string, nat>): set<nat> { set n | n in m && m[n] > 0 :: m[n] }

  function Unassigned(m: map<string, nat>, live: set<string>): set<string> { set n | n in live && Get(m, n) == 0 }

  /** Partitions below bound that a new node may get. */
  function Free(log: seq<Range>, owned: set<nat>, bound: nat): set<nat> {
    set p: nat | 1 <= p < bound && p < |log| && p !in owned && log[p].Empty()
  }

  predicate Injective(m: map<string, nat>) {
    forall a, b :: a in m && b in m && a != b && m[a] > 0 ==> m[a] != m[b]
  }

  lemma {:induction false} ByNodeKeys(members: seq<Member>)
    ensures ByNode(members).Keys == Nodes(members)
  {
    if members != [] {
      ByNodeKeys(members[..|members| - 1]);
      assert members == members[..|members| - 1] + [members[|members| - 1]];
    }
  }

  /** A node stands for the member that sent it. */
  lemma {:induction false} ByNodeAt(members: seq<Member>, k: nat)
    requires DistinctNodes(members) && k < |members|
    ensures Lookup(ByNode(members), members[k].node) == members[k].id
  {
    if k < |members| - 1 { ByNodeAt(members[..|members| - 1], k); }
  }

  /** The merged assignment node by node. */
  lemma {:induction false} MergeAt(members: seq<Member>, known: map<string, nat>, k: nat)
    requires DistinctNodes(members) && k < |members|
    ensures Get(Merge(members, known), members[k].node) == if members[k].partition > 0 then members[k].partition
            else Get(known, members[k].node)
  {
    var front, last := members[..|members| - 1], members[|members| - 1];
    if k < |members| - 1 {
      MergeAt(front, known, k);
    } else {
      MergeElsewhere(front, known, last.node);
    }
  }

  lemma {:induction false} MergeElsewhere(members: seq<Member>, known: map<string, nat>, n: string)
    requires n !in Nodes(members)
    ensures Get(Merge(members, known), n) == Get(known, n)
  {
    if members != [] {
      assert members[|members| - 1] in members;
      MergeElsewhere(members[..|members| - 1], known, n);
    }
  }

  /** Who offers what, in the order of the members. */
  function Offer(table: map<string, seq<string>>, node: string, services: seq<string>): map<string, seq<string>> {
    if services == [] then table else
      var before := Offer(table, node, services[..|services| - 1]);
      var s := services[|services| - 1];
      before[s := (if s in before then before[s] else []) + [node]]
  }

  function Offers(members: seq<Member>): map<string, seq<string>> {
    if members == [] then map[] else
      var m := members[|members| - 1];
      Offer(Offers(members[..|members| - 1]), m.node, m.services)
  }

  /** A node none of whose metadata or history names a partition. */
  predicate NewNode(members: seq<Member>, known: map<string, nat>, k: nat)
    requires k < |members|
  {
    members[k].partition <= 0 && Get(known, members[k].node) == 0
  }

  predicate Newcomer(members: seq<Member>, known: map<string, nat>) {
    exists k :: 0 <= k < |members| && NewNode(members, known, k)
  }

  function Newest(log: seq<Range>): map<nat, nat> { map p: nat | p < |log| && !log[p].Empty() :: log[p].max }

  /** Recovery is not needed: dead partitions are empty and partition 0 has nothing new. */
  predicate Clean(log: seq<Range>, owned: set<nat>, offset0: nat) {
    && (forall p: nat :: 0 < p < |log| && p !in owned ==> log[p].Empty())
    && (|log| > 0 && !log[0].Empty() ==> log[0].max <= offset0)
  }

  predicate Distinct(order: seq<string>) { forall i, j :: 0 <= i < j < |order| ==> order[i] != order[j] }

  function Elements(order: seq<string>): set<string> { set n | n in order }

  lemma UnassignedStep(m: map<string, nat>, order: seq<string>, i: nat)
    requires Distinct(order) && i < |order|
    ensures var rest := Unassigned(m, Elements(order[..i]));
            && order[i] !in rest
            && Unassigned(m, Elements(order[..i + 1])) == if Get(m, order[i]) == 0 then rest + {order[i]} else rest
  {
    assert order[..i + 1] == order[..i] + [order[i]];
  }

  /**
   * The assignment now, after the cursor has reached next: settled nodes keep their partition, new ones have a free
   * one, and no two nodes share one.
   */
  ghost predicate Dealt(before: map<string, nat>, now: map<string, nat>, live: set<string>, log: seq<Range>,
                        owned: set<nat>, next: nat) {
    && now.Keys <= live
    && (forall n :: Get(before, n) > 0 ==> Get(now, n) == Get(before, n))
    && (forall n :: Get(before, n) == 0 && Get(now, n) > 0 ==> Get(now, n) in Free(log, owned, next))
    && (Injective(before) ==> Injective(now))
  }

  /** Every free partition below the cursor has been given away. */
  ghost predicate Balanced(before: map<string, nat>, now: map<string, nat>, live: set<string>, log: seq<Range>,
                           owned: set<nat>, next: nat) {
    |Free(log, owned, next)| + |Unassigned(now, live)| == |Unassigned(before, live)|
  }

  /** The state of the deal when the cursor has reached next. */
  ghost predicate Dealing(before: map<string, nat>, now: map<string, nat>, live: set<string>, log: seq<Range>,
                          owned: set<nat>, next: nat) {
    next >= 1 && Dealt(before, now, live, log, owned, next) && Balanced(before, now, live, log, owned, next)
  }

  lemma DealStarts(before: map<string, nat>, live: set<string>, log: seq<Range>, owned: set<nat>)
    requires before.Keys <= live
    ensures Dealing(before, before, live, log, owned, 1)
  {
    assert Free(log, owned, 1) == {};
  }

  lemma DealSkips(before: map<string, nat>, now: map<string, nat>, live: set<string>, log: seq<Range>,
                  owned: set<nat>, next: nat)
    requires Dealing(before, now, live, log, owned, next) && next < |log| && (next in owned || next in Newest(log))
    ensures Dealing(before, now, live, log, owned, next + 1)
  {
    assert Free(log, owned, next + 1) == Free(log, owned, next);
  }

  lemma GiveInjective(before: map<string, nat>, now: map<string, nat>, live: set<string>, log: seq<Range>,
                      owned: set<nat>, next: nat, n: string)
    requires Dealt(before, now, live, log, owned, next) && next !in owned && owned == Owned(before)
    requires Injective(before) && next >= 1
    ensures Injective(now[n := next])
  {
    forall a | a in now && a != n ensures now[a] != next {
      if Get(before, a) > 0 {
        assert before[a] in Owned(before);
      } else if now[a] > 0 {
        assert Get(now, a) in Free(log, owned, next);
      }
    }
  }

  lemma GiveBalanced(before: map<string, nat>, now: map<string, nat>, live: set<string>, log: seq<Range>,
                     owned: set<nat>, next: nat, n: string)
    requires Balanced(before, now, live, log, owned, next) && 1 <= next < |log| && next !in owned
             && next !in Newest(log)
    requires n in live && Get(now, n) == 0
    ensures Balanced(before, now[n := next], live, log, owned, next + 1)
  {
    assert Free(log, owned, next + 1) == Free(log, owned, next) + {next};
    assert Unassigned(now[n := next], live) == Unassigned(now, live) - {n};
  }

  lemma DealGives(before: map<string, nat>, now: map<string, nat>, live: set<string>, log: seq<Range>,
                  owned: set<nat>, next: nat, n: string)
    requires Dealing(before, now, live, log, owned, next) && next < |log| && next !in owned && next !in Newest(log)
    requires n in live && Get(now, n) == 0 && owned == Owned(before)
    ensures Dealing(before, now[n := next], live, log, owned, next + 1)
  {
    GiveBalanced(before, now, live, log, owned, next, n);
    if Injective(before) { GiveInjective(before, now, live, log, owned, next, n); }
    hide Balanced, Injective;
  }

  /** At the end the cursor has passed the last partition, or every node has one. */
  lemma DealEnds(before: map<string, nat>, now: map<string, nat>, live: set<string>, log: seq<Range>, owned: set<nat>,
                 next: nat)
    requires Dealing(before, now, live, log, owned, next) && (next >= |log| || Unassigned(now, live) == {})
    ensures Dealt(before, now, live, log, owned, |log|)
    ensures |Unassigned(now, live)| > 0 <==> |Free(log, owned, |log|)| < |Unassigned(before, live)|
  {
    assert Free(log, owned, next) <= Free(log, owned, |log|);
    assert next >= |log| ==> Free(log, owned, next) == Free(log, owned, |log|);
    SubsetSize(Free(log, owned, next), Free(log, owned, |log|));
  }

  lemma {:induction false} SubsetSize(a: set<nat>, b: set<nat>)
    requires a <= b
    ensures |a| <= |b|
  {
    if a != {} {
      var x :| x in a;
      SubsetSize(a - {x}, b - {x});
    }
  }

  // ----- the plan -----

  function Lookup(byNode: map<string, string>, n: string): string { if n in byNode then byNode[n] else "" }

  /** Every node gets its partition. */
  function NodeClaims(byNode: map<string, string>, now: map<string, nat>, order: seq<string>): seq<Claim> {
    seq(|order|, i requires 0 <= i < |order| => Claim(Lookup(byNode, order[i]), Get(now, order[i])))
  }

  /** The leader gets partition 0 and every non-empty partition. */
  function RecoveryClaims(leader: string, log: seq<Range>): seq<Claim> {
    if log == [] then [] else
      var p := |log| - 1;
      RecoveryClaims(leader, log[..p]) + if p == 0 || !log[p].Empty() then [Claim(leader, p)] else []
  }

  lemma {:induction false} RecoveryClaimsMeaning(leader: string, log: seq<Range>)
    ensures forall c :: c in RecoveryClaims(leader, log) <==>
                        c.member == leader && c.partition < |log| && (c.partition == 0 || !log[c.partition].Empty())
    ensures forall i, j :: 0 <= i < j < |RecoveryClaims(leader, log)| ==>
                             RecoveryClaims(leader, log)[i].partition < RecoveryClaims(leader, log)[j].partition
  {
    if log != [] {
      RecoveryClaimsMeaning(leader, log[..|log| - 1]);
      var front := RecoveryClaims(leader, log[..|log| - 1]);
      forall i | 0 <= i < |front| ensures front[i].partition < |log| - 1 {
        assert front[i] in front;
      }
    }
  }

  /** The assignment known to the leader once it has read the metadata and forgotten the dead nodes. */
  function Known(members: seq<Member>, remembered: map<string, nat>): map<string, nat> {
    Restrict(Merge(members, remembered), Nodes(members))
  }

  /**
   * What Plan does: the new assignment now and the outcome r, from the metadata, the log and what the leader
   * remembered.
   */
  ghost predicate Planned(members: seq<Member>, log: seq<Range>, remembered: map<string, nat>, offset0: nat,
                          leader: string, now: map<string, nat>, r: Outcome) {
    var live, known := Nodes(members), Known(members, remembered);
    && Dealt(known, now, live, log, Owned(known), |log|)
    && (r.TooFewPartitions? <==> |Free(log, Owned(known), |log|)| < |Unassigned(known, live)|)
    && (r.TooFewPartitions? ==> r.grownTo == |log| + |Unassigned(now, live)|)
    && (r.Assigned? ==> Unassigned(now, live) == {})
    && (r.Assigned? && !Clean(log, Owned(known), offset0) ==>
          r.claims == RecoveryClaims(Lookup(ByNode(members), leader), log))
    && (r.Assigned? && Clean(log, Owned(known), offset0) ==>
          exists order :: Distinct(order) && Elements(order) == live
                          && r.claims == NodeClaims(ByNode(members), now, order))
  }

  class Planner {
    const node: string
    var node2partition: map<string, nat>
    var service2nodes: map<string, seq<string>>
    var recovery: set<nat>
    var recovering: bool // whether the recovery map is set
    var newest: map<nat, nat>
    var offset0: nat
    var max0: nat

    constructor (node: string)
      ensures this.node == node && node2partition == map[] && offset0 == 0 && max0 == 0
    {
      this.node := node;
      node2partition, service2nodes, recovery, recovering, newest, offset0, max0 := map[], map[], {}, false, map[], 0,
          0;
    }

    method AddServices(node: string, services: seq<string>)
      modifies `service2nodes
      ensures service2nodes == Offer(old(service2nodes), node, services)
    {
      ghost var table := service2nodes;
      for i := 0 to |services|
        invariant service2nodes == Offer(table, node, services[..i])
      {
        var s := services[i];
        service2nodes := service2nodes[s := (if s in service2nodes then service2nodes[s] else []) + [node]];
        assert services[..i + 1][..i] == services[..i];
      }
      assert services[..|services|] == services;
    }

    /** Reads the metadata of every member. */
    method Register(members: seq<Member>) returns (node2member: map<string, string>)
      requires DistinctNodes(members)
      modifies `node2partition, `service2nodes, `offset0
      ensures node2member == ByNode(members)
      ensures service2nodes == Offers(members)
      ensures node2partition == Merge(members, old(node2partition))
      ensures forall k ::
                0 <= k < |members| && members[k].partition <= 0 && Get(old(node2partition), members[k].node) == 0 ==>
                  offset0 == 0
      ensures offset0 == if Newcomer(members, old(node2partition)) then 0 else old(offset0)
    {
      service2nodes, node2member := map[], map[];
      ghost var known := node2partition;
      ghost var isNew := false;
      for i := 0 to |members|
        invariant node2member == ByNode(members[..i])
        invariant service2nodes == Offers(members[..i])
        invariant node2partition == Merge(members[..i], known)
        invariant isNew <==> exists k :: 0 <= k < i && NewNode(members, known, k)
        invariant offset0 == if isNew then 0 else old(offset0)
      {
        assert members[..i + 1][..i] == members[..i];
        var m := members[i];
        node2member := node2member[m.node := m.id];
        AddServices(m.node, m.services);
        MergeElsewhere(members[..i], known, m.node);
        if m.partition > 0 {
          node2partition := node2partition[m.node := m.partition];
        }
        if Get(node2partition, m.node) == 0 {
          offset0 := 0;
          isNew := true;
          assert NewNode(members, known, i);
        }
      }
      assert members[..|members|] == members;
      assert forall k :: 0 <= k < |members| && members[k].partition <= 0 && Get(known, members[k].node) == 0 ==>
                           NewNode(members, known, k);
    }

    /** Discards dead nodes and collects the partitions of live ones, visiting the entries in any order. */
    method Prune(live: set<string>)
      modifies `node2partition, `recovery
      ensures node2partition == Restrict(old(node2partition), live)
      ensures recovery == Owned(node2partition)
    {
      var entries := node2partition;
      var todo := entries.Keys;
      recovery := {};
      while todo != {}
        invariant todo <= entries.Keys
        invariant node2partition == map n | n in entries && (n in todo || n in live) :: entries[n]
        invariant recovery == set n | n in entries && n !in todo && n in live && entries[n] > 0 :: entries[n]
        decreases todo
      {
        var n :| n in todo;
        todo := todo - {n};
        if n !in live {
          node2partition := node2partition - {n};
        } else if entries[n] > 0 {
          recovery := recovery + {entries[n]};
        }
      }
    }

    /** Looks for records nobody consumes. */
    method Inspect(log: seq<Range>) returns (clean: bool)
      modifies `newest, `max0
      ensures newest == Newest(log)
      ensures clean <==> Clean(log, recovery, offset0)
      ensures max0 == if |log| > 0 && !log[0].Empty() && offset0 < log[0].max then log[0].max else old(max0)
    {
      newest, clean := map[], true;
      for p := 0 to |log|
        invariant newest == map q: nat | q < p && !log[q].Empty() :: log[q].max
        invariant clean <==> && (forall q: nat :: 0 < q < p && q !in recovery ==> log[q].Empty())
                             && (p > 0 && !log[0].Empty() ==> log[0].max <= offset0)
        invariant max0 == if p > 0 && !log[0].Empty() && offset0 < log[0].max then log[0].max else old(max0)
      {
        if log[p].min < log[p].max {
          newest := newest[p := log[p].max];
          if p != 0 && p !in recovery {
            clean := false;
          } else if p == 0 && offset0 < log[p].max {
            max0 := log[p].max;
            clean := false;
          }
        }
      }
    }

    /** How many nodes have no partition. */
    method Missing(order: seq<string>) returns (missing: nat)
      requires Distinct(order)
      ensures missing == |Unassigned(node2partition, Elements(order))|
    {
      missing := 0;
      for i := 0 to |order|
        invariant missing == |Unassigned(node2partition, Elements(order[..i]))|
      {
        UnassignedStep(node2partition, order, i);
        if Get(node2partition, order[i]) == 0 {
          missing := missing + 1;
        }
      }
      assert order[..|order|] == order;
    }

    /**
     * Gives free partitions to the nodes without one, in any order of the nodes, with one cursor over the partitions.
     */
    method Deal(order: seq<string>, log: seq<Range>) returns (missing: nat)
      requires Distinct(order) && newest == Newest(log) && recovery == Owned(node2partition)
      requires node2partition.Keys <= Elements(order)
      modifies `node2partition
      ensures Dealt(old(node2partition), node2partition, Elements(order), log, recovery, |log|)
      ensures missing == |Unassigned(node2partition, Elements(order))|
      ensures missing > 0 <==> |Free(log, recovery, |log|)| < |Unassigned(old(node2partition), Elements(order))|
    {
      ghost var before, live := node2partition, Elements(order);
      hide Dealing, Dealt, Free, Owned;
      var next := 1;
      DealStarts(before, live, log, recovery);
      for j := 0 to |order|
        invariant Dealing(before, node2partition, live, log, recovery, next)
        invariant forall k :: 0 <= k < j ==> Get(node2partition, order[k]) > 0
      {
        while Get(node2partition, order[j]) == 0 && next < |log|
          invariant Dealing(before, node2partition, live, log, recovery, next)
          invariant forall k :: 0 <= k < j ==> Get(node2partition, order[k]) > 0
        {
          if next !in recovery && next !in newest {
            DealGives(before, node2partition, live, log, recovery, next, order[j]);
            node2partition := node2partition[order[j] := next];
          } else {
            DealSkips(before, node2partition, live, log, recovery, next);
          }
          next := next + 1;
        }
        if Get(node2partition, order[j]) == 0 {
          missing := Missing(order);
          DealEnds(before, node2partition, live, log, recovery, next);
          assert order[j] in Unassigned(node2partition, live);
          return;
        }
      }
      assert Unassigned(node2partition, live) == {};
      DealEnds(before, node2partition, live, log, recovery, next);
      missing := 0;
    }

    method ClaimForLeader(leader: string, log: seq<Range>) returns (claims: seq<Claim>)
      requires newest == Newest(log)
      ensures claims == RecoveryClaims(leader, log)
    {
      claims := [];
      for p := 0 to |log|
        invariant claims == RecoveryClaims(leader, log[..p])
      {
        assert log[..p + 1][..p] == log[..p];
        if p == 0 || p in newest {
          claims := claims + [Claim(leader, p)];
        }
      }
      assert log[..|log|] == log;
    }

    method ClaimForNodes(node2member: map<string, string>, order: seq<string>) returns (claims: seq<Claim>)
      ensures claims == NodeClaims(node2member, node2partition, order)
    {
      claims := [];
      for i := 0 to |order|
        invariant claims == NodeClaims(node2member, node2partition, order[..i])
      {
        claims := claims + [Claim(Lookup(node2member, order[i]), Get(node2partition, order[i]))];
      }
      assert order[..|order|] == order;
    }

    /** order and order' are the orders in which the two loops over node2member visit its keys. */
    method Plan(members: seq<Member>, log: seq<Range>, order: seq<string>, order': seq<string>) returns (r: Outcome)
      requires DistinctNodes(members)
      requires Distinct(order) && Elements(order) == Nodes(members)
      requires Distinct(order') && Elements(order') == Nodes(members)
      modifies this
      ensures Planned(members, log, old(node2partition), offset0, node, node2partition, r)
      ensures service2nodes == Offers(members)
      ensures forall k ::
                0 <= k < |members| && members[k].partition <= 0 && Get(old(node2partition), members[k].node) == 0 ==>
                  offset0 == 0
      ensures offset0 == if Newcomer(members, old(node2partition)) then 0 else old(offset0)
      ensures max0 == if |log| > 0 && !log[0].Empty() && offset0 < log[0].max then log[0].max else old(max0)
      ensures r.Assigned? ==> (recovering <==> !Clean(log, Owned(Known(members, old(node2partition))), offset0))
    {
      hide Dealt, Owned, Free, Merge, Offers, Clean, RecoveryClaims, NodeClaims, ByNode, Restrict, Nodes, Newcomer,
           Distinct;
      ByNodeKeys(members);
      recovering := true;
      var node2member := Register(members);
      Prune(node2member.Keys);
      assert node2partition == Known(members, old(node2partition));
      RestrictKeys(Merge(members, old(node2partition)), Nodes(members));
      var clean := Inspect(log);
      var missing := Deal(order, log);
      if missing > 0 {
        return TooFewPartitions(|log| + missing);
      }
      assert Unassigned(node2partition, Nodes(members)) == {};
      if !clean {
        var claims := ClaimForLeader(Lookup(node2member, node), log);
        return Assigned(claims);
      }
      var claims := ClaimForNodes(node2member, order');
      recovering := false;
      return Assigned(claims);
    }
  }

  // ----- what the plan guarantees -----

  lemma KnownAt(members: seq<Member>, remembered: map<string, nat>, k: nat)
    requires DistinctNodes(members) && k < |members|
    ensures Get(Known(members, remembered), members[k].node) == Get(Merge(members, remembered), members[k].node)
  {
    assert members[k] in members;
    assert members[k].node in Nodes(members);
  }

  /**
   * Live nodes have pairwise distinct partitions other than 0; a node that had one keeps it; a new one gets an empty
   * partition no live node had.
   */
  lemma PlanAssigns(members: seq<Member>, log: seq<Range>, remembered: map<string, nat>, offset0: nat, leader: string,
                    now: map<string, nat>, r: Outcome, j: nat, k: nat)
    requires DistinctNodes(members) && Injective(Known(members, remembered)) && j < |members| && k < |members|
    requires Planned(members, log, remembered, offset0, leader, now, r) && r.Assigned?
    ensures Get(now, members[k].node) > 0
    ensures j != k ==> Get(now, members[j].node) != Get(now, members[k].node)
    ensures members[k].partition > 0 ==> Get(now, members[k].node) == members[k].partition
    ensures members[k].partition <= 0 && Get(remembered, members[k].node) > 0 ==>
            Get(now, members[k].node) == Get(remembered, members[k].node)
    ensures NewNode(members, remembered, k) ==>
              && Get(now, members[k].node) < |log| && log[Get(now, members[k].node)].Empty()
              && (!NewNode(members, remembered, j) ==>
                  Get(now, members[k].node) != Get(Merge(members, remembered), members[j].node))
  {
    var live := Nodes(members);
    assert members[j] in members && members[k] in members;
    assert members[j].node !in Unassigned(now, live) && members[k].node !in Unassigned(now, live);
    KnownAt(members, remembered, j);
    KnownAt(members, remembered, k);
    MergeAt(members, remembered, j);
    MergeAt(members, remembered, k);
    assert j != k ==> members[j].node != members[k].node;
  }

  /** Without recovery the claims give every member the partition of its node, and nothing else. */
  lemma PlanServes(members: seq<Member>, log: seq<Range>, remembered: map<string, nat>, offset0: nat, leader: string,
                   now: map<string, nat>, r: Outcome)
    requires DistinctNodes(members) && Planned(members, log, remembered, offset0, leader, now, r) && r.Assigned?
    requires Clean(log, Owned(Known(members, remembered)), offset0)
    ensures forall k :: 0 <= k < |members| ==> Claim(members[k].id, Get(now, members[k].node)) in r.claims
    ensures forall c :: c in r.claims ==>
              exists k :: 0 <= k < |members| && c == Claim(members[k].id, Get(now, members[k].node))
  {
    var order :| Distinct(order) && Elements(order) == Nodes(members)
      && r.claims == NodeClaims(ByNode(members), now, order);
    hide Planned, Known, Owned, Clean, ByNode;
    forall k | 0 <= k < |members| ensures Claim(members[k].id, Get(now, members[k].node)) in r.claims {
      ByNodeAt(members, k);
      assert members[k] in members && members[k].node in Elements(order);
      var i :| 0 <= i < |order| && order[i] == members[k].node;
      assert r.claims[i] == Claim(members[k].id, Get(now, members[k].node));
    }
    forall c | c in r.claims
      ensures exists k :: 0 <= k < |members| && c == Claim(members[k].id, Get(now, members[k].node))
    {
      var i :| 0 <= i < |order| && r.claims[i] == c;
      assert order[i] in Elements(order);
      var m :| m in members && m.node == order[i];
      var k :| 0 <= k < |members| && members[k] == m;
      ByNodeAt(members, k);
    }
  }

  /** With recovery the claims give the leader's member partition 0 and every non-empty partition, and nothing else. */
  lemma PlanRecovers(members: seq<Member>, log: seq<Range>, remembered: map<string, nat>, offset0: nat,
                     leader: string, now: map<string, nat>, r: Outcome, k: nat)
    requires DistinctNodes(members) && Planned(members, log, remembered, offset0, leader, now, r) && r.Assigned?
    requires !Clean(log, Owned(Known(members, remembered)), offset0) && k < |members| && members[k].node == leader
    ensures forall c :: c in r.claims <==>
                        && c.member == members[k].id && c.partition < |log|
                        && (c.partition == 0 || !log[c.partition].Empty())
  {
    ByNodeAt(members, k);
    RecoveryClaimsMeaning(members[k].id, log);
  }

  /**
   * When a node shows up for which neither its metadata nor the leader knows a partition, and partition 0 is not empty,
   * the plan recovers. offset0 is what Plan leaves.
   */
  lemma JoiningRecovers(members: seq<Member>, log: seq<Range>, remembered: map<string, nat>, before: nat, offset0: nat,
                        leader: string, now: map<string, nat>, r: Outcome, j: nat, k: nat)
    requires DistinctNodes(members) && offset0 == (if Newcomer(members, remembered) then 0 else before)
    requires Planned(members, log, remembered, offset0, leader, now, r) && r.Assigned?
    requires j < |members| && members[j].partition <= 0 && Get(remembered, members[j].node) == 0
    requires k < |members| && members[k].node == leader && |log| > 0 && !log[0].Empty()
    ensures forall c :: c in r.claims <==>
                        && c.member == members[k].id && c.partition < |log|
                        && (c.partition == 0 || !log[c.partition].Empty())
  {
    assert NewNode(members, remembered, j);
    hide Known, Owned;
    PlanRecovers(members, log, remembered, offset0, leader, now, r, k);
  }

  /**
   * Every non-empty partition is claimed: by the leader when recovery is needed, else by the member whose node owns it.
   */
  lemma PlanCovers(members: seq<Member>, log: seq<Range>, remembered: map<string, nat>, offset0: nat, leader: string,
                   now: map<string, nat>, r: Outcome, p: nat, l: nat)
    requires DistinctNodes(members) && Planned(members, log, remembered, offset0, leader, now, r) && r.Assigned?
    requires p < |log| && !log[p].Empty() && l < |members| && members[l].node == leader
    ensures !Clean(log, Owned(Known(members, remembered)), offset0) ==> Claim(members[l].id, p) in r.claims
    ensures Clean(log, Owned(Known(members, remembered)), offset0) && p != 0 ==>
              exists k :: 0 <= k < |members| && Get(now, members[k].node) == p && Claim(members[k].id, p) in r.claims
    ensures Clean(log, Owned(Known(members, remembered)), offset0) && p == 0 ==> log[0].max <= offset0
  {
    var known := Known(members, remembered);
    if !Clean(log, Owned(known), offset0) {
      PlanRecovers(members, log, remembered, offset0, leader, now, r, l);
    } else if p != 0 {
      assert p in Owned(known);
      var n :| n in known && known[n] == p;
      var m :| m in members && m.node == n;
      var k :| 0 <= k < |members| && members[k] == m;
      PlanServes(members, log, remembered, offset0, leader, now, r);
      assert Get(now, members[k].node) == p;
    }
  }

  /** No partition is claimed twice. */
  lemma PlanExclusive(members: seq<Member>, log: seq<Range>, remembered: map<string, nat>, offset0: nat,
                      leader: string, now: map<string, nat>, r: Outcome, i: nat, j: nat)
    requires Planned(members, log, remembered, offset0, leader, now, r) && r.Assigned?
             && Injective(Known(members, remembered))
    requires i < j < |r.claims|
    ensures r.claims[i].partition != r.claims[j].partition
  {
    if Clean(log, Owned(Known(members, remembered)), offset0) {
      var order :| Distinct(order) && Elements(order) == Nodes(members)
      && r.claims == NodeClaims(ByNode(members), now, order);
      assert order[i] in Elements(order) && order[j] in Elements(order);
      assert order[i] !in Unassigned(now, Nodes(members)) && order[j] !in Unassigned(now, Nodes(members));
    } else {
      RecoveryClaimsMeaning(Lookup(ByNode(members), leader), log);
    }
  }

  /** What the leader remembers of a failed attempt is what it knows in the next one. */
  lemma RememberedIsKnown(members: seq<Member>, log: seq<Range>, remembered: map<string, nat>, now: map<string, nat>,
                          n: string)
    requires DistinctNodes(members) && n in Nodes(members)
    requires Dealt(Known(members, remembered), now, Nodes(members), log, Owned(Known(members, remembered)), |log|)
    ensures Get(Known(members, now), n) == Get(now, n)
  {
    var m :| m in members && m.node == n;
    var k :| 0 <= k < |members| && members[k] == m;
    MergeAt(members, now, k);
    MergeAt(members, remembered, k);
    KnownAt(members, now, k);
    KnownAt(members, remembered, k);
  }

  function Interval(lo: nat, hi: nat): set<nat> { if lo < hi then Interval(lo, hi - 1) + {hi - 1} else {} }

  lemma {:induction false} IntervalSize(lo: nat, hi: nat)
    requires lo <= hi
    ensures |Interval(lo, hi)| == hi - lo
    ensures forall p :: p in Interval(lo, hi) <==> lo <= p < hi
  {
    if lo < hi { IntervalSize(lo, hi - 1); }
  }

  lemma SecondAttempt(members: seq<Member>, log: seq<Range>, remembered: map<string, nat>, now: map<string, nat>)
    requires DistinctNodes(members) && |log| > 0
    requires Dealt(Known(members, remembered), now, Nodes(members), log, Owned(Known(members, remembered)), |log|)
    requires forall n :: n in Nodes(members) ==> Get(Known(members, remembered), n) < |log|
    ensures Unassigned(Known(members, now), Nodes(members)) == Unassigned(now, Nodes(members))
    ensures forall p :: p in Owned(Known(members, now)) ==> p < |log|
  {
    var live, known := Nodes(members), Known(members, now);
    forall n | n in live ensures Get(known, n) == Get(now, n) < |log| {
      RememberedIsKnown(members, log, remembered, now, n);
    }
    forall p | p in Owned(known) ensures p < |log| {
      var n :| n in known && known[n] == p;
      assert n in live && Get(known, n) == p;
    }
  }

  /**
   * Once the topic has the partitions asked for, and the new ones are empty, the next attempt with the same members
   * succeeds.
   */
  lemma GrowthSuffices(members: seq<Member>, log: seq<Range>, remembered: map<string, nat>, offset0: nat,
                       leader: string, now: map<string, nat>, r: Outcome,
                       log': seq<Range>, offset0': nat, now': map<string, nat>, r': Outcome)
    requires DistinctNodes(members) && |log| > 0
    requires Planned(members, log, remembered, offset0, leader, now, r) && r.TooFewPartitions?
    requires forall n :: n in Nodes(members) ==> Get(Known(members, remembered), n) < |log|
    requires |log'| == r.grownTo && forall p :: |log| <= p < |log'| ==> log'[p].Empty()
    requires Planned(members, log', now, offset0', leader, now', r')
    ensures r'.Assigned?
  {
    hide Known, Dealt, Owned, Unassigned, Clean, NodeClaims, RecoveryClaims, ByNode, Nodes;
    SecondAttempt(members, log, remembered, now);
    var known, added := Known(members, now), Interval(|log|, |log'|);
    IntervalSize(|log|, |log'|);
    assert added <= Free(log', Owned(known), |log'|);
    SubsetSize(added, Free(log', Owned(known), |log'|));
  }
}
