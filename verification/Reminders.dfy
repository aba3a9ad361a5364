/** The queue of reminders of a node: a binary heap with lazy cancellation, and the round that fires the due ones. */
module Reminders {
  import opened Options

  type Time = int

  datatype Actor = Actor(kind: string, id: string)

  /** key is where the reminder is stored; period 0 means that it fires once. */
  datatype Reminder = Reminder(actor: Actor, id: string, key: string, target: Time, period: nat, data: string)

  datatype Entry = Entry(r: Reminder, cancelled: bool, index: int)

  // ----- contents -----

  function One(e: Entry, cancelled: bool): multiset<Reminder> {
    if e.cancelled == cancelled then multiset{e.r} else multiset{}
  }

  /** The reminders of the entries that are cancelled, or that are not. */
  function Pile(s: seq<Entry>, cancelled: bool): multiset<Reminder> {
    if s == [] then multiset{} else Pile(s[..|s| - 1], cancelled) + One(s[|s| - 1], cancelled)
  }

  lemma {:induction false} PileUpdate(s: seq<Entry>, i: nat, e: Entry, cancelled: bool)
    requires i < |s|
    ensures One(s[i], cancelled) <= Pile(s, cancelled)
    ensures Pile(s[i := e], cancelled) == Pile(s, cancelled) - One(s[i], cancelled) + One(e, cancelled)
  {
    var m := |s| - 1;
    if i == m {
      assert s[i := e][..m] == s[..m];
      hide One;
      Replace(Pile(s[..m], cancelled), One(s[m], cancelled), One(e, cancelled));
    } else {
      assert s[i := e][..m] == s[..m][i := e];
      PileUpdate(s[..m], i, e, cancelled);
      hide One;
      Reorder(Pile(s[..m], cancelled), One(s[i], cancelled), One(e, cancelled), One(s[m], cancelled));
    }
  }

  lemma Replace(p: multiset<Reminder>, a: multiset<Reminder>, b: multiset<Reminder>)
    ensures a <= p + a && p + b == p + a - a + b
  {
  }

  lemma Reorder(p: multiset<Reminder>, a: multiset<Reminder>, b: multiset<Reminder>, z: multiset<Reminder>)
    requires a <= p
    ensures a <= p + z && p - a + b + z == p + z - a + b
  {
  }

  predicate IsAt(s: seq<Entry>, i: nat, r: Reminder, cancelled: bool) {
    i < |s| && s[i].r == r && s[i].cancelled == cancelled
  }

  lemma {:induction false} InPile(s: seq<Entry>, i: nat)
    requires i < |s|
    ensures s[i].r in Pile(s, s[i].cancelled)
  {
    if i < |s| - 1 { InPile(s[..|s| - 1], i); }
  }

  lemma {:induction false} FromPile(s: seq<Entry>, r: Reminder, cancelled: bool) returns (i: nat)
    requires r in Pile(s, cancelled)
    ensures IsAt(s, i, r, cancelled)
  {
    i := |s| - 1;
    if r !in One(s[i], cancelled) { i := FromPile(s[..i], r, cancelled); }
  }

  function Swapped(s: seq<Entry>, i: nat, j: nat): seq<Entry>
    requires i < |s| && j < |s|
  {
    s[i := s[j].(index := i)][j := s[i].(index := j)]
  }

  lemma SwapPile(s: seq<Entry>, i: nat, j: nat, cancelled: bool)
    requires i < |s| && j < |s| && i != j
    ensures Pile(Swapped(s, i, j), cancelled) == Pile(s, cancelled)
  {
    var a, b := s[i].(index := j), s[j].(index := i);
    PileUpdate(s, i, b, cancelled);
    PileUpdate(s[i := b], j, a, cancelled);
    assert One(a, cancelled) == One(s[i], cancelled) && One(b, cancelled) == One(s[j], cancelled)
           && s[i := b][j] == s[j];
    hide Pile, One;
    Exchange(Pile(s, cancelled), One(s[i], cancelled), One(s[j], cancelled));
  }

  lemma Exchange(p: multiset<Reminder>, a: multiset<Reminder>, b: multiset<Reminder>)
    requires a <= p
    ensures p - a + b - b + a == p
  {
  }

  // ----- heap order -----

  function Parent(j: nat): nat { if j == 0 then 0 else (j - 1) / 2 }

  predicate Below(s: seq<Entry>, k: nat)
    requires k < |s|
  {
    s[Parent(k)].r.target <= s[k].r.target
  }

  predicate Ordered(s: seq<Entry>, n: nat) { n <= |s| && forall k :: 0 <= k < n ==> Below(s, k) }

  predicate Indexed(s: seq<Entry>) { forall i :: 0 <= i < |s| ==> s[i].index == i }

  /** Only entry j may be smaller than its parent. */
  predicate OrderedButUp(s: seq<Entry>, j: nat) {
    && j < |s|
    && (forall k :: 0 <= k < |s| && k != j ==> Below(s, k))
    && (forall k :: 0 <= k < |s| && k > 0 && Parent(k) == j ==> s[Parent(j)].r.target <= s[k].r.target)
  }

  /** Only entry i of the first n may be larger than its children. */
  predicate OrderedButDown(s: seq<Entry>, i: nat, n: nat) {
    && n <= |s|
    && (forall k :: 0 <= k < n && (k == 0 || Parent(k) != i) ==> Below(s, k))
    && (0 < i < n ==> forall k :: 0 < k < n && Parent(k) == i ==> s[Parent(i)].r.target <= s[k].r.target)
  }

  lemma SwapUp(s: seq<Entry>, j: nat)
    requires OrderedButUp(s, j) && j > 0 && s[j].r.target < s[Parent(j)].r.target
    ensures OrderedButUp(Swapped(s, Parent(j), j), Parent(j))
  {
    var i := Parent(j);
    var s' := Swapped(s, i, j);
    forall k | 0 <= k < |s'| && k != i ensures Below(s', k) {
      assert Below(s, i) && (k != j ==> Below(s, k));
    }
    forall k | 0 <= k < |s'| && k > 0 && Parent(k) == i ensures s'[Parent(i)].r.target <= s'[k].r.target {
      assert Below(s, i) && (k != j ==> Below(s, k));
    }
  }

  lemma SwapDown(s: seq<Entry>, i: nat, j: nat, n: nat)
    requires OrderedButDown(s, i, n) && 0 < j < n && Parent(j) == i && s[j].r.target < s[i].r.target
    requires forall k :: 0 < k < n && Parent(k) == i ==> s[j].r.target <= s[k].r.target
    ensures OrderedButDown(Swapped(s, i, j), j, n)
  {
    var s' := Swapped(s, i, j);
    forall k | 0 <= k < n && (k == 0 || Parent(k) != j) ensures Below(s', k) {
      if k > 0 && Parent(k) != i { assert Below(s, k); }
    }
    forall k | 0 < k < n && Parent(k) == j ensures s'[Parent(j)].r.target <= s'[k].r.target {
      assert Below(s, k);
    }
  }

  lemma DownEnds(s: seq<Entry>, i: nat, n: nat)
    requires OrderedButDown(s, i, n) && (2 * i + 1 < n ==>
             exists j: nat :: LeastChild(s, i, j, n) && s[i].r.target <= s[j].r.target)
    ensures Ordered(s, n)
  {
    forall k | 0 <= k < n ensures Below(s, k) {
      if k > 0 && Parent(k) == i { assert 2 * i + 1 < n; }
    }
  }

  predicate LeastChild(s: seq<Entry>, i: nat, j: nat, n: nat) {
    n <= |s| && 0 < j < n && Parent(j) == i && forall k :: 0 < k < n && Parent(k) == i ==>
        s[j].r.target <= s[k].r.target
  }

  lemma {:induction false} RootIsLeast(s: seq<Entry>, k: nat)
    requires Ordered(s, |s|) && k < |s|
    ensures s[0].r.target <= s[k].r.target
  {
    if k > 0 {
      assert Below(s, k);
      RootIsLeast(s, Parent(k));
    }
  }

  // ----- the queue -----

  predicate Concerns(r: Reminder, actor: Actor, id: string) { r.actor == actor && (id == "" || r.id == id) }

  predicate Matches(e: Entry, actor: Actor, id: string) {
    !e.cancelled && e.r.actor == actor && (id == "" || e.r.id == id)
  }

  /** The active reminders among s that match, in the order of s. */
  function Matching(s: seq<Entry>, actor: Actor, id: string): seq<Reminder> {
    if s == [] then [] else
      Matching(s[..|s| - 1], actor, id) + if Matches(s[|s| - 1], actor, id) then [s[|s| - 1].r] else []
  }

  function CancelOne(e: Entry, actor: Actor, id: string): Entry {
    if Matches(e, actor, id) then e.(cancelled := true) else e
  }

  function Cancelled(s: seq<Entry>, actor: Actor, id: string): seq<Entry> {
    if s == [] then [] else Cancelled(s[..|s| - 1], actor, id) + [CancelOne(s[|s| - 1], actor, id)]
  }

  /** Matching reminders are exactly the active ones with that actor and id. */
  lemma {:induction false} MatchingMeaning(s: seq<Entry>, actor: Actor, id: string)
    ensures forall r :: multiset(Matching(s, actor, id))[r] == if Concerns(r, actor, id) then Pile(s, false)[r] else 0
  {
    if s != [] { MatchingMeaning(s[..|s| - 1], actor, id); }
  }

  lemma {:induction false} CancelPile(s: seq<Entry>, actor: Actor, id: string)
    ensures forall r :: Pile(Cancelled(s, actor, id), false)[r] == if Concerns(r, actor, id) then 0
            else Pile(s, false)[r]
    ensures |Pile(Cancelled(s, actor, id), false)| == |Pile(s, false)| - |Matching(s, actor, id)|
    ensures |Pile(Cancelled(s, actor, id), true)| == |Pile(s, true)| + |Matching(s, actor, id)|
  {
    if s != [] {
      var m := |s| - 1;
      CancelPile(s[..m], actor, id);
      assert Cancelled(s, actor, id)[..|Cancelled(s, actor, id)| - 1] == Cancelled(s[..m], actor, id);
    }
  }

  lemma {:induction false} CancelAt(s: seq<Entry>, actor: Actor, id: string)
    ensures |Cancelled(s, actor, id)| == |s|
    ensures forall i :: 0 <= i < |s| ==> Cancelled(s, actor, id)[i] == CancelOne(s[i], actor, id)
  {
    if s != [] { CancelAt(s[..|s| - 1], actor, id); }
  }

  lemma CancelOrdered(s: seq<Entry>, actor: Actor, id: string)
    requires Ordered(s, |s|) && Indexed(s)
    ensures |Cancelled(s, actor, id)| == |s| && Ordered(Cancelled(s, actor, id), |s|)
            && Indexed(Cancelled(s, actor, id))
  {
    CancelAt(s, actor, id);
    forall k | 0 <= k < |s| ensures Below(Cancelled(s, actor, id), k) { assert Below(s, k); }
  }

  class Queue {
    var entries: seq<Entry>
    var activeGauge: int
    var cancelledGauge: int
    var store: map<string, Reminder> // persisted reminders by key

    /** The active reminders. */
    function Live(): multiset<Reminder>
      reads `entries
    {
      Pile(entries, false)
    }

    ghost predicate Valid()
      reads `entries, `activeGauge, `cancelledGauge
    {
      && Ordered(entries, |entries|) && Indexed(entries)
      && activeGauge == |Pile(entries, false)| && cancelledGauge == |Pile(entries, true)|
    }

    constructor ()
      ensures Valid() && entries == []
    {
      entries, activeGauge, cancelledGauge, store := [], 0, 0, map[];
    }

    method Swap(i: nat, j: nat)
      requires i < |entries| && j < |entries| && Indexed(entries)
      modifies `entries
      ensures entries == Swapped(old(entries), i, j) && Indexed(entries)
      ensures Pile(entries, false) == old(Pile(entries, false)) && Pile(entries, true) == old(Pile(entries, true))
    {
      if i == j {
        assert Swapped(entries, i, j) == entries;
      } else {
        SwapPile(entries, i, j, false);
        SwapPile(entries, i, j, true);
      }
      entries := Swapped(entries, i, j);
    }

    method Up(last: nat)
      requires last < |entries| && OrderedButUp(entries, last) && Indexed(entries)
      modifies `entries
      ensures |entries| == old(|entries|) && Ordered(entries, |entries|) && Indexed(entries)
      ensures Pile(entries, false) == old(Pile(entries, false)) && Pile(entries, true) == old(Pile(entries, true))
    {
      hide Pile, Indexed;
      var j := last;
      while true
        invariant |entries| == old(|entries|) && OrderedButUp(entries, j) && Indexed(entries)
        invariant Pile(entries, false) == old(Pile(entries, false)) && Pile(entries, true) == old(Pile(entries, true))
        decreases j
      {
        var i := Parent(j);
        if i == j || !(entries[j].r.target < entries[i].r.target) {
          break;
        }
        SwapUp(entries, j);
        Swap(i, j);
        j := i;
      }
    }

    method SmallerChild(i: nat, n: nat) returns (j: nat)
      requires 2 * i + 1 < n <= |entries|
      ensures LeastChild(entries, i, j, n) && i < j
    {
      j := 2 * i + 1;
      if j + 1 < n && entries[j + 1].r.target < entries[j].r.target {
        j := j + 1;
      }
    }

    /** Sifts the root down among the first n entries. */
    method Down(n: nat)
      requires 0 <= n <= |entries| && OrderedButDown(entries, 0, n) && Indexed(entries)
      modifies `entries
      ensures |entries| == old(|entries|) && Ordered(entries, n) && Indexed(entries)
      ensures entries[n..] == old(entries[n..])
      ensures Pile(entries, false) == old(Pile(entries, false)) && Pile(entries, true) == old(Pile(entries, true))
    {
      hide Pile, Indexed, Ordered, OrderedButDown;
      var i := 0;
      while 2 * i + 1 < n
        invariant |entries| == old(|entries|) && OrderedButDown(entries, i, n) && Indexed(entries)
        invariant entries[n..] == old(entries[n..])
        invariant Pile(entries, false) == old(Pile(entries, false)) && Pile(entries, true) == old(Pile(entries, true))
        decreases n - i
      {
        var j := SmallerChild(i, n);
        if !(entries[j].r.target < entries[i].r.target) {
          break;
        }
        SwapDown(entries, i, j, n);
        Swap(i, j);
        i := j;
      }
      DownEnds(entries, i, n);
    }

    method Add(r: Reminder)
      requires Valid()
      modifies `entries, `activeGauge, `cancelledGauge
      ensures Valid() && Live() == old(Live()) + multiset{r} && |entries| == old(|entries|) + 1
      ensures Pile(entries, true) == old(Pile(entries, true))
    {
      hide Pile, One, Ordered, OrderedButUp, Indexed;
      var e := Entry(r, false, |entries|);
      AppendOrdered(entries, e);
      AppendPile(entries, e);
      entries := entries + [e];
      Up(|entries| - 1);
      activeGauge := activeGauge + 1;
    }

    /** Removes the root. */
    method Pop() returns (e: Entry)
      requires Ordered(entries, |entries|) && Indexed(entries) && entries != []
      modifies `entries
      ensures Ordered(entries, |entries|) && Indexed(entries) && |entries| == old(|entries|) - 1
      ensures e == old(entries[0]).(index := -1)
      ensures forall c :: One(e, c) <= old(Pile(entries, c)) && Pile(entries, c) == old(Pile(entries, c)) - One(e, c)
    {
      hide Pile, One, OrderedButDown;
      var n := |entries| - 1;
      ghost var before := entries;
      SwapRoot(entries, n);
      Swap(0, n);
      Down(n);
      assert entries[n] == Swapped(before, 0, n)[n..][0];
      LastPile(entries);
      PrefixOrdered(entries, n);
      e := entries[n].(index := -1);
      entries := entries[..n];
    }

    /** The loop of cancel. */
    method MarkCancelled(actor: Actor, id: string) returns (found: seq<Reminder>)
      modifies `entries, `activeGauge, `cancelledGauge
      ensures entries == Cancelled(old(entries), actor, id) && found == Matching(old(entries), actor, id)
      ensures activeGauge == old(activeGauge) - |found| && cancelledGauge == old(cancelledGauge) + |found|
    {
      ghost var before := entries;
      found := [];
      for i := 0 to |entries|
        invariant |entries| == |before| && entries[i..] == before[i..]
        invariant found == Matching(before[..i], actor, id) && entries[..i] == Cancelled(before[..i], actor, id)
        invariant activeGauge == old(activeGauge) - |found| && cancelledGauge == old(cancelledGauge) + |found|
      {
        assert before[..i + 1][..i] == before[..i] && entries[i..][0] == before[i..][0];
        var e := entries[i];
        if Matches(e, actor, id) {
          entries := entries[i := e.(cancelled := true)];
          activeGauge := activeGauge - 1;
          cancelledGauge := cancelledGauge + 1;
          found := found + [e.r];
        }
        assert entries[..i + 1] == entries[..i] + [CancelOne(e, actor, id)];
      }
      assert before[..|before|] == before && entries[..|entries|] == entries;
    }

    method Cancel(actor: Actor, id: string) returns (found: seq<Reminder>)
      requires Valid()
      modifies `entries, `activeGauge, `cancelledGauge
      ensures Valid() && |entries| == old(|entries|) && found == Matching(old(entries), actor, id)
      ensures forall r :: multiset(found)[r] == if Concerns(r, actor, id) then old(Live())[r] else 0
      ensures forall r :: Live()[r] == if Concerns(r, actor, id) then 0 else old(Live())[r]
    {
      hide Pile, Ordered, Indexed, Concerns, Cancelled, Matching;
      CancelOrdered(entries, actor, id);
      CancelPile(entries, actor, id);
      MatchingMeaning(entries, actor, id);
      found := MarkCancelled(actor, id);
    }

    method Find(actor: Actor, id: string) returns (found: seq<Reminder>)
      ensures found == Matching(entries, actor, id)
      ensures forall r :: multiset(found)[r] == if Concerns(r, actor, id) then Live()[r] else 0
    {
      MatchingMeaning(entries, actor, id);
      found := [];
      for i := 0 to |entries|
        invariant found == Matching(entries[..i], actor, id)
      {
        assert entries[..i + 1][..i] == entries[..i];
        if Matches(entries[i], actor, id) {
          found := found + [entries[i].r];
        }
      }
      assert entries[..|entries|] == entries;
    }

    /** Takes out the earliest active reminder due before t; cancelled entries on the way are dropped. */
    method NextReminderBefore(t: Time) returns (next: Option<Reminder>)
      requires Valid()
      modifies `entries, `activeGauge, `cancelledGauge
      ensures Valid()
      ensures next.Some? ==> next.value in old(Live()) && next.value.target < t
                             && Live() == old(Live()) - multiset{next.value}
      ensures next.Some? ==> forall r :: r in old(Live()) ==> next.value.target <= r.target
      ensures next.None? ==> Live() == old(Live()) && forall e :: e in entries ==> e.r.target >= t
      ensures next.None? ==> forall r :: r in Live() ==> r.target >= t
    {
      hide Pile, Ordered, Indexed;
      while |entries| > 0 && entries[0].r.target < t
        invariant Valid() && Live() == old(Live())
        decreases |entries|
      {
        LiveAfterRoot(entries);
        ghost var before := entries;
        var e := Pop();
        assert One(e, false) == One(before[0], false);
        if e.cancelled {
          cancelledGauge := cancelledGauge - 1;
        } else {
          activeGauge := activeGauge - 1;
          return Some(e.r);
        }
      }
      if |entries| > 0 { LiveAfterRoot(entries); } else { NoEntries(entries); }
      return None;
    }

    /** putBinding: r is what the payload says for actor and id; it replaces what was there. */
    method PutBinding(actor: Actor, id: string, r: Reminder)
      requires Valid() && r.actor == actor && r.id == id
      modifies this
      ensures Valid() && (Unique(old(Live())) ==> Unique(Live()))
      ensures Durable(old(Live()), old(store)) && KeyFree(old(Live()), r) ==> Durable(Live(), store)
      ensures forall x ::
                Live()[x] == (if Concerns(x, actor, id) then 0 else old(Live())[x]) + (if x == r then 1 else 0)
      ensures store == old(store)[r.key := r]
    {
      hide Pile, Valid, Matching, Durable, KeyFree, Unique;
      var cancelled := Cancel(actor, id);
      ghost var kept := Live();
      Add(r);
      store := store[r.key := r];
      DurablePut(old(Live()), old(store), kept, r);
      UniquePut(old(Live()), kept, r);
    }

    /** loadBinding: what is stored under key is added unless a matching reminder is active. */
    method LoadBinding(actor: Actor, id: string, key: string)
      requires Valid() && (key in store ==> store[key].actor == actor && store[key].id == id)
      modifies this
      ensures Valid() && store == old(store) && (Unique(old(Live())) ==> Unique(Live()))
      ensures Durable(old(Live()), store) && (key in store ==> store[key].key == key) ==> Durable(Live(), store)
      ensures Live() == if key in store && (forall x :: x in old(Live()) ==> !Concerns(x, actor, id))
              then old(Live()) + multiset{store[key]} else old(Live())
    {
      hide Pile, Valid, Matching;
      var found := Find(actor, id);
      if |found| > 0 {
        assert found[0] in multiset(found) && found[0] in Live();
        return;
      }
      assert forall x :: x in Live() ==> !Concerns(x, actor, id) by {
        forall x | x in Live() ensures !Concerns(x, actor, id) { assert multiset(found)[x] == 0; }
      }
      if key in store {
        Add(store[key]);
      }
    }

    method Forget(found: seq<Reminder>)
      modifies `store
      ensures store == old(store) - set r | r in found :: r.key
    {
      for i := 0 to |found|
        invariant store == old(store) - set r | r in found[..i] :: r.key
      {
        store := store - {found[i].key};
        assert found[..i + 1] == found[..i] + [found[i]];
      }
      assert found[..|found|] == found;
    }

    method DeleteBindings(actor: Actor, id: string) returns (count: nat)
      requires Valid()
      modifies this
      ensures Valid() && (Unique(old(Live())) ==> Unique(Live()))
      ensures Durable(old(Live()), old(store)) ==> Durable(Live(), store)
      ensures forall x :: Live()[x] == if Concerns(x, actor, id) then 0 else old(Live())[x]
      ensures store == old(store) - set x | x in old(Live()) && Concerns(x, actor, id) :: x.key
    {
      hide Pile, Valid, Matching, Durable, Unique;
      var found := Cancel(actor, id);
      UniqueLess(old(Live()), Live());
      forall x ensures x in found <==> x in old(Live()) && Concerns(x, actor, id) {
        assert x in found <==> multiset(found)[x] > 0;
      }
      Forget(found);
      DurableDeleted(old(Live()), old(store), Live(), store, actor, id);
      return |found|;
    }

    /** After r has fired: a periodic reminder is due again one period later, another is deleted. */
    method Renew(r: Reminder, t: Time)
      requires Valid()
      modifies this
      ensures Valid() && Live() == old(Live()) + Renewal(r, t) && store == Fired(old(store), r, t)
    {
      hide Pile, Valid;
      if r.period > 0 {
        var r' := r.(target := t + r.period);
        Add(r');
        store := store[r'.key := r'];
      } else {
        RenewalCases(Live(), r, t);
        store := store - {r.key};
      }
    }

    /** One turn of the loop of processReminders; sent says whether the message to the actor goes out. */
    method FireNext(t: Time, sent: bool) returns (next: Option<Reminder>)
      requires Valid()
      modifies this
      ensures Valid()
      ensures next.None? ==> Live() == old(Live()) && store == old(store) && forall r :: r in Live() ==> r.target >= t
      ensures next.Some? ==> next.value in old(Live()) && next.value.target < t && forall r :: r in old(Live()) ==>
              next.value.target <= r.target
      ensures next.Some? && sent ==> Live() == old(Live()) - multiset{next.value} + Renewal(next.value, t)
                                     && store == Fired(old(store), next.value, t)
      ensures next.Some? && !sent ==> Live() == old(Live()) && store == old(store)
    {
      hide Pile, Valid, Renewal, Fired;
      next := NextReminderBefore(t);
      if next.None? {
        return;
      }
      var r := next.value;
      PutBack(old(Live()), r);
      if !sent {
        Add(r);
        return;
      }
      Renew(r, t);
    }

    /**
     * One round: fires what is due, in order, until nothing is due or the send fails; sends(k) says whether send
     * number k succeeds. A periodic reminder is due again one period later.
     */
    method ProcessReminders(t: Time, sends: nat -> bool) returns (fired: seq<Reminder>, failed: bool)
      requires Valid()
      modifies this
      ensures Valid() && multiset(fired) <= old(Live())
      ensures Live() == old(Live()) - multiset(fired) + Renewed(fired, t)
      ensures Sorted(fired) && (forall r :: r in fired ==> r.target < t) && (forall k :: 0 <= k < |fired| ==> sends(k))
      ensures failed ==> !sends(|fired|)
      ensures !failed ==> forall r :: r in Live() ==> r.target >= t
      ensures !failed ==> forall r :: multiset(fired)[r] == if r.target < t then old(Live())[r] else 0
      ensures store == Persisted(old(store), fired, t)
      ensures Unique(old(Live())) ==> Unique(Live())
      ensures Unique(old(Live())) && Durable(old(Live()), old(store)) ==> Durable(Live(), store)
    {
      hide *;
      fired, failed := [], false;
      ghost var all, left := Live(), Live();
      UnderwayStarts(all, t);
      NothingPersisted(store, t);
      while true
        invariant Valid() && Underway(all, fired, left, Live(), t)
        invariant forall k :: 0 <= k < |fired| ==> sends(k)
        invariant store == Persisted(old(store), fired, t)
        invariant Unique(all) && Durable(all, old(store)) ==> Durable(Live(), store)
        decreases |left|
      {
        ghost var live := Live();
        var sent := sends(|fired|);
        var next := FireNext(t, sent);
        if next.None? {
          UnderwayEnds(all, fired, left, live, t);
          break;
        }
        if !sent {
          failed := true;
          break;
        }
        DurableFired(all, fired, left, live, Persisted(old(store), fired, t), next.value, t);
        UnderwayStep(all, fired, left, live, t, next.value);
        PersistedStep(old(store), fired, next.value, t);
        left := left - multiset{next.value};
        fired := fired + [next.value];
      }
      UnderwayMeans(all, fired, left, Live(), t);
    }
  }

  // ----- a round -----

  predicate Sorted(s: seq<Reminder>) { forall i, j :: 0 <= i < j < |s| ==> s[i].target <= s[j].target }

  /** The periodic reminders of fired, with their next target. */
  function Renewed(fired: seq<Reminder>, t: Time): multiset<Reminder> {
    if fired == [] then multiset{} else
      var r := fired[|fired| - 1];
      Renewed(fired[..|fired| - 1], t) + Renewal(r, t)
  }

  /** What is stored after fired have fired. */
  function Persisted(store: map<string, Reminder>, fired: seq<Reminder>, t: Time): map<string, Reminder> {
    if fired == [] then store else
      Fired(Persisted(store, fired[..|fired| - 1], t), fired[|fired| - 1], t)
  }

  function Fired(store: map<string, Reminder>, r: Reminder, t: Time): map<string, Reminder> {
    if r.period > 0 then store[r.key := r.(target := t + r.period)] else store - {r.key}
  }

  /** At most one active reminder per actor and id. */
  ghost predicate Unique(live: multiset<Reminder>) {
    && (forall x, y :: x in live && y in live && x.actor == y.actor && x.id == y.id ==> x == y)
    && (forall x :: live[x] <= 1)
  }

  /** Every active reminder is stored as it is, so that it survives a crash. */
  ghost predicate Durable(live: multiset<Reminder>, store: map<string, Reminder>) {
    forall x :: x in live ==> x.key in store && store[x.key] == x
  }

  /** No active reminder of another actor or id is stored where r is. */
  ghost predicate KeyFree(live: multiset<Reminder>, r: Reminder) {
    forall x :: x in live && x.key == r.key ==> x.actor == r.actor && x.id == r.id
  }

  lemma DurablePut(live: multiset<Reminder>, store: map<string, Reminder>, kept: multiset<Reminder>, r: Reminder)
    requires forall x :: kept[x] == if Concerns(x, r.actor, r.id) then 0 else live[x]
    ensures Durable(live, store) && KeyFree(live, r) ==> Durable(kept + multiset{r}, store[r.key := r])
  {
    if Durable(live, store) && KeyFree(live, r) {
      forall x | x in kept + multiset{r} ensures x.key in store[r.key := r] && store[r.key := r][x.key] == x {
        if x != r { assert x in kept && x in live; }
      }
    }
  }

  lemma DurableDeleted(live: multiset<Reminder>, store: map<string, Reminder>, live': multiset<Reminder>,
                       store': map<string, Reminder>, actor: Actor, id: string)
    requires forall x :: live'[x] == if Concerns(x, actor, id) then 0 else live[x]
    requires store' == store - set x | x in live && Concerns(x, actor, id) :: x.key
    ensures Durable(live, store) ==> Durable(live', store')
  {
    if Durable(live, store) {
      forall x | x in live' ensures x.key in store' && store'[x.key] == x {
        assert x in live && !Concerns(x, actor, id);
      }
    }
  }

  lemma UniqueLess(live: multiset<Reminder>, less: multiset<Reminder>)
    requires forall x :: less[x] <= live[x]
    ensures Unique(live) ==> Unique(less)
  {
  }

  lemma UniquePut(live: multiset<Reminder>, kept: multiset<Reminder>, r: Reminder)
    requires forall x :: kept[x] == if Concerns(x, r.actor, r.id) then 0 else live[x]
    ensures Unique(live) ==> Unique(kept + multiset{r})
  {
  }

  lemma DurableFired(all: multiset<Reminder>, fired: seq<Reminder>, left: multiset<Reminder>,
                     live: multiset<Reminder>, store: map<string, Reminder>, r: Reminder, t: Time)
    requires Underway(all, fired, left, live, t) && r in live
    ensures Unique(all) && Durable(live, store) ==> Durable(live - multiset{r} + Renewal(r, t), Fired(store, r, t))
  {
    var live', store' := live - multiset{r} + Renewal(r, t), Fired(store, r, t);
    if Unique(all) && Durable(live, store) {
      assert Unique(live);
      hide Underway;
      forall x | x in live' ensures x.key in store' && store'[x.key] == x {
        if x in live - multiset{r} { assert x in live && x != r; }
      }
    }
  }

  lemma {:induction false} RenewedLater(fired: seq<Reminder>, t: Time)
    ensures forall r :: r in Renewed(fired, t) ==> r.target > t
  {
    if fired != [] { RenewedLater(fired[..|fired| - 1], t); }
  }

  lemma RenewedStep(fired: seq<Reminder>, r: Reminder, t: Time)
    ensures Renewed(fired + [r], t) == Renewed(fired, t) + Renewal(r, t)
  {
    assert (fired + [r])[..|fired|] == fired;
  }

  lemma NoneDue(all: multiset<Reminder>, fired: multiset<Reminder>, left: multiset<Reminder>,
                renewed: multiset<Reminder>, t: Time)
    requires all == fired + left
    requires forall r :: r in left + renewed ==> r.target >= t
    requires forall r :: r in fired ==> r.target < t
    ensures forall r :: fired[r] == if r.target < t then all[r] else 0
  {
    forall r ensures fired[r] == if r.target < t then all[r] else 0 {
      assert r in left ==> r in left + renewed;
    }
  }

  /** What has fired, what is left of the reminders at the start, and what is active now. */
  ghost predicate Balanced(all: multiset<Reminder>, fired: seq<Reminder>, left: multiset<Reminder>,
                           live: multiset<Reminder>, t: Time) {
    multiset(fired) + left == all && live == left + Renewed(fired, t)
  }

  ghost predicate InTime(fired: seq<Reminder>, left: multiset<Reminder>, t: Time) {
    && Sorted(fired) && (forall r :: r in fired ==> r.target < t)
    && (forall r, x :: r in fired && x in left ==> r.target <= x.target)
  }

  ghost predicate Underway(all: multiset<Reminder>, fired: seq<Reminder>, left: multiset<Reminder>,
                           live: multiset<Reminder>, t: Time) {
    Balanced(all, fired, left, live, t) && InTime(fired, left, t) && (Unique(all) ==> Unique(live))
  }

  lemma UnderwayStarts(all: multiset<Reminder>, t: Time)
    ensures Underway(all, [], all, all, t)
  {
  }

  function Renewal(r: Reminder, t: Time): multiset<Reminder> {
    if r.period > 0 then multiset{r.(target := t + r.period)} else multiset{}
  }

  /** A due reminder is one of the start. */
  lemma DueIsLeft(all: multiset<Reminder>, fired: seq<Reminder>, left: multiset<Reminder>, live: multiset<Reminder>,
                  t: Time, r: Reminder)
    requires Balanced(all, fired, left, live, t) && r in live && r.target < t
    ensures r in left && forall x :: x in left ==> x in live
  {
    RenewedLater(fired, t);
  }

  lemma Regroup(left: multiset<Reminder>, renewed: multiset<Reminder>, one: multiset<Reminder>,
                more: multiset<Reminder>)
    requires one <= left
    ensures (left - one) + (renewed + more) == (left + renewed) - one + more
  {
  }

  lemma BalancedStep(all: multiset<Reminder>, fired: seq<Reminder>, left: multiset<Reminder>,
                     live: multiset<Reminder>, t: Time, r: Reminder)
    requires Balanced(all, fired, left, live, t) && r in left
    ensures Balanced(all, fired + [r], left - multiset{r}, live - multiset{r} + Renewal(r, t), t)
  {
    RenewedStep(fired, r, t);
    Regroup(left, Renewed(fired, t), multiset{r}, Renewal(r, t));
    assert multiset(fired + [r]) == multiset(fired) + multiset{r};
    hide Renewed, Renewal;
  }

  lemma InTimeStep(fired: seq<Reminder>, left: multiset<Reminder>, t: Time, r: Reminder)
    requires InTime(fired, left, t) && r in left && r.target < t && forall x :: x in left ==> r.target <= x.target
    ensures InTime(fired + [r], left - multiset{r}, t)
  {
    forall x | x in left - multiset{r} ensures x in left {}
  }

  lemma UnderwayStep(all: multiset<Reminder>, fired: seq<Reminder>, left: multiset<Reminder>,
                     live: multiset<Reminder>, t: Time, r: Reminder)
    requires Underway(all, fired, left, live, t) && r in live && r.target < t && forall x :: x in live ==>
             r.target <= x.target
    ensures r in left && Underway(all, fired + [r], left - multiset{r}, live - multiset{r} + Renewal(r, t), t)
  {
    hide Unique, Balanced, InTime, Renewal;
    DueIsLeft(all, fired, left, live, t, r);
    BalancedStep(all, fired, left, live, t, r);
    InTimeStep(fired, left, t, r);
    UniqueRenewed(live, r, t);
  }

  lemma UnderwayEnds(all: multiset<Reminder>, fired: seq<Reminder>, left: multiset<Reminder>,
                     live: multiset<Reminder>, t: Time)
    requires Underway(all, fired, left, live, t) && forall r :: r in live ==> r.target >= t
    ensures forall r :: multiset(fired)[r] == if r.target < t then all[r] else 0
  {
    NoneDue(all, multiset(fired), left, Renewed(fired, t), t);
  }

  lemma UnderwayMeans(all: multiset<Reminder>, fired: seq<Reminder>, left: multiset<Reminder>,
                      live: multiset<Reminder>, t: Time)
    requires Underway(all, fired, left, live, t)
    ensures multiset(fired) <= all && live == all - multiset(fired) + Renewed(fired, t)
    ensures Sorted(fired) && (forall r :: r in fired ==> r.target < t) && (Unique(all) ==> Unique(live))
  {
    assert all - multiset(fired) == left;
  }

  // ----- what a round leaves behind -----

  predicate Again(r: Reminder, t: Time, x: Reminder) { r.period > 0 && x == r.(target := t + r.period) }

  /** The fired reminders that are due again as x. */
  function DueAgainAs(fired: seq<Reminder>, t: Time, x: Reminder): set<int> {
    set k | 0 <= k < |fired| && Again(fired[k], t, x)
  }

  /** Each periodic reminder that fired is due again once, one period after the round, and no other one is. */
  lemma {:induction false} RenewedMeaning(fired: seq<Reminder>, t: Time, x: Reminder)
    ensures Renewed(fired, t)[x] == |DueAgainAs(fired, t, x)|
  {
    if fired != [] {
      var m := |fired| - 1;
      RenewedMeaning(fired[..m], t, x);
      assert Renewal(fired[m], t)[x] == if Again(fired[m], t, x) then 1 else 0;
      hide Renewal, Again;
      DueAgainStep(fired, t, x);
      hide DueAgainAs;
    }
  }

  lemma DueAgainStep(fired: seq<Reminder>, t: Time, x: Reminder)
    requires fired != []
    ensures var m := |fired| - 1;
            |DueAgainAs(fired, t, x)| == |DueAgainAs(fired[..m], t, x)| + if Again(fired[m], t, x) then 1 else 0
  {
    hide Again;
    var m := |fired| - 1;
    var before := DueAgainAs(fired[..m], t, x);
    assert DueAgainAs(fired, t, x) == if Again(fired[m], t, x) then before + {m} else before;
  }

  /** Reminder k is the last one of fired that is stored under key. */
  predicate LastUnder(fired: seq<Reminder>, key: string, k: nat) {
    k < |fired| && fired[k].key == key && forall j :: k < j < |fired| ==> fired[j].key != key
  }

  function Get(store: map<string, Reminder>, key: string): Option<Reminder> {
    if key in store then Some(store[key]) else None
  }

  lemma FiredAt(store: map<string, Reminder>, r: Reminder, t: Time, key: string)
    ensures Get(Fired(store, r, t), key) == if r.key != key then Get(store, key)
            else if r.period > 0 then Some(r.(target := t + r.period)) else None
  {
  }

  /** After a round the store holds under a key what it held before, if no reminder of that key fired. */
  lemma {:induction false} PersistedElsewhere(store: map<string, Reminder>, fired: seq<Reminder>, t: Time, key: string)
    requires forall k :: 0 <= k < |fired| ==> fired[k].key != key
    ensures Get(Persisted(store, fired, t), key) == Get(store, key)
  {
    if fired != [] {
      var m := |fired| - 1;
      PersistedElsewhere(store, fired[..m], t, key);
      FiredAt(Persisted(store, fired[..m], t), fired[m], t, key);
      hide Fired, Get;
    }
  }

  /** Otherwise it holds the reminder that fired, with its next target, or nothing if that one is not periodic. */
  lemma {:induction false} PersistedMeaning(store: map<string, Reminder>, fired: seq<Reminder>, t: Time, k: nat)
    requires k < |fired| && LastUnder(fired, fired[k].key, k)
    ensures Get(Persisted(store, fired, t), fired[k].key) ==
            if fired[k].period > 0 then Some(fired[k].(target := t + fired[k].period)) else None
  {
    var m := |fired| - 1;
    FiredAt(Persisted(store, fired[..m], t), fired[m], t, fired[k].key);
    hide Fired, Get;
    if k < m { PersistedMeaning(store, fired[..m], t, k); }
  }

  lemma NothingPersisted(store: map<string, Reminder>, t: Time)
    ensures Persisted(store, [], t) == store
  {
  }

  lemma PersistedStep(store: map<string, Reminder>, fired: seq<Reminder>, r: Reminder, t: Time)
    ensures Persisted(store, fired + [r], t) == Fired(Persisted(store, fired, t), r, t)
  {
    assert (fired + [r])[..|fired|] == fired;
  }

  lemma UniqueRenewed(live: multiset<Reminder>, r: Reminder, t: Time)
    requires r in live
    ensures Unique(live) ==> Unique(live - multiset{r} + Renewal(r, t))
  {
  }

  lemma RenewalCases(live: multiset<Reminder>, r: Reminder, t: Time)
    ensures live + Renewal(r, t) == if r.period > 0 then live + multiset{r.(target := t + r.period)} else live
  {
  }

  lemma PutBack(live: multiset<Reminder>, r: Reminder)
    requires r in live
    ensures live - multiset{r} + multiset{r} == live
  {
  }

  lemma NoEntries(s: seq<Entry>)
    requires s == []
    ensures Pile(s, false) == multiset{}
  {
  }

  lemma LiveAfterRoot(s: seq<Entry>)
    requires Ordered(s, |s|) && s != []
    ensures forall e :: e in s ==> s[0].r.target <= e.r.target
    ensures forall r :: r in Pile(s, false) ==> s[0].r.target <= r.target
  {
    forall e | e in s ensures s[0].r.target <= e.r.target {
      var k :| 0 <= k < |s| && s[k] == e;
      RootIsLeast(s, k);
    }
    forall r | r in Pile(s, false) ensures s[0].r.target <= r.target {
      var i := FromPile(s, r, false);
      RootIsLeast(s, i);
    }
  }

  lemma AppendOrdered(s: seq<Entry>, e: Entry)
    requires Ordered(s, |s|) && Indexed(s) && e.index == |s|
    ensures OrderedButUp(s + [e], |s|) && Indexed(s + [e])
  {
    var s' := s + [e];
    forall k | 0 <= k < |s'| && k != |s| ensures Below(s', k) { assert Below(s, k); }
  }

  lemma AppendPile(s: seq<Entry>, e: Entry)
    ensures Pile(s + [e], e.cancelled) == Pile(s, e.cancelled) + multiset{e.r}
    ensures Pile(s + [e], !e.cancelled) == Pile(s, !e.cancelled)
  {
    assert (s + [e])[..|s|] == s;
  }

  lemma LastPile(s: seq<Entry>)
    requires s != []
    ensures var n := |s| - 1;
            forall c, k :: One(s[n].(index := k), c) <= Pile(s, c)
                           && Pile(s[..n], c) == Pile(s, c) - One(s[n].(index := k), c)
  {
  }

  lemma PrefixOrdered(s: seq<Entry>, n: nat)
    requires n <= |s| && Ordered(s, n) && Indexed(s)
    ensures Ordered(s[..n], n) && Indexed(s[..n])
  {
    forall k | 0 <= k < n ensures Below(s[..n], k) { assert Below(s, k); }
  }

  lemma SwapRoot(s: seq<Entry>, n: nat)
    requires Ordered(s, |s|) && n == |s| - 1
    ensures OrderedButDown(Swapped(s, 0, n), 0, n)
  {
    var s' := Swapped(s, 0, n);
    forall k | 0 <= k < n && (k == 0 || Parent(k) != 0) ensures Below(s', k) { assert Below(s, k); }
  }
}
