/**
 * Placement of actors by compare-and-swap. The nodes of a generation share a store of placements, cache what they
 * learn, and race to place actors that are not placed or were placed on a node that is gone. No actor is deleted.
 */
module Placement {
  import opened Options

  /** One execution of the placement loop: expected is "" in the first round, rounds counts compare-and-swaps. */
  datatype Search = Search(node: string, key: string, expected: string, next: string, rounds: nat,
                           result: Option<string>)

  datatype State = State(
    store: map<string, string>,
    live: set<string>,                       // nodes with a partition in this generation
    offers: map<string, set<string>>,        // nodes that can host the actor of a key
    caches: map<string, map<string, string>>,
    searches: seq<Search>)

  /** The script the store runs: the value after the attempt, which is the desired one if it was set. */
  function Swap(store: map<string, string>, key: string, expected: string,
                desired: string): (r: (map<string, string>, string)) {
    if key in store && store[key] != expected then (store, store[key])
    else if key !in store && expected != "" then (store, "")
    else (store[key := desired], desired)
  }

  function Cache(s: State, n: string): map<string, string> { if n in s.caches then s.caches[n] else map[] }

  /** A lookup that misses the cache picks some node that can host the actor. */
  ghost predicate Begin(s: State, n: string, key: string, next: string, s': State) {
    && n in s.live && key !in Cache(s, n)
    && key in s.offers && next in s.offers[key]
    && s' == s.(searches := s.searches + [Search(n, key, "", next, 0, None)])
  }

  /** One round of the loop; the search ends when the value is a live node. */
  ghost predicate Round(s: State, i: nat, s': State) {
    && i < |s.searches| && s.searches[i].result.None?
    && var c := s.searches[i];
       var (store, value) := Swap(s.store, c.key, c.expected, c.next);
       if value in s.live then
         s' == s.(store := store, caches := s.caches[c.node := Cache(s, c.node)[c.key := value]],
                  searches := s.searches[i := c.(rounds := c.rounds + 1, result := Some(value))])
       else
         s' == s.(store := store, searches := s.searches[i := c.(rounds := c.rounds + 1, expected := value)])
  }

  /** The cache drops entries that were not used. */
  ghost predicate Evict(s: State, n: string, key: string, s': State) {
    n in s.caches && s' == s.(caches := s.caches[n := s.caches[n] - {key}])
  }

  /** Nodes come and go; routing tables and caches are rebuilt, and no search survives. */
  ghost predicate NewGeneration(s: State, s': State) {
    && s'.store == s.store && s'.caches == map[] && s'.searches == []
    && "" !in s'.live && forall k :: k in s'.offers ==> s'.offers[k] <= s'.live
  }

  datatype Step = BeginStep(node: string, key: string, next: string) | RoundStep(i: nat) | EvictStep(node: string,
      key: string) | GenerationStep

  ghost predicate Takes(s: State, step: Step, s': State) {
    match step
    case BeginStep(n, key, next) => Begin(s, n, key, next, s')
    case RoundStep(i) => Round(s, i, s')
    case EvictStep(n, key) => Evict(s, n, key, s')
    case GenerationStep => NewGeneration(s, s')
  }

  ghost predicate Run(ss: seq<State>, steps: seq<Step>) {
    && |ss| == |steps| + 1
    && ss[0] == State(map[], {}, map[], map[], [])
    && forall k :: 0 <= k < |steps| ==> Takes(ss[k], steps[k], ss[k + 1])
  }

  /** No generation starts between states j and k. */
  ghost predicate SameGeneration(steps: seq<Step>, j: nat, k: nat) {
    j <= k <= |steps| && forall m :: j <= m < k ==> !steps[m].GenerationStep?
  }

  // ----- invariant -----

  ghost predicate Progresses(s: State, c: Search) {
    && c.next in s.live && c.key in s.offers && c.next in s.offers[c.key]
    && c.rounds <= 2
    && (c.rounds == 0 ==> c.expected == "" && c.result.None?)
    && (c.rounds == 2 ==> c.result.Some?)
    && (c.result.Some? ==> c.key in s.store && s.store[c.key] == c.result.value && c.result.value in s.live)
    && (c.rounds == 1 && c.result.None? ==>
          c.expected != "" && c.expected !in s.live && c.key in s.store
          && (s.store[c.key] == c.expected || s.store[c.key] in s.live))
  }

  ghost predicate Inv(s: State) {
    && "" !in s.live
    && "" !in s.store.Values
    && (forall k :: k in s.offers ==> s.offers[k] <= s.live)
    && (forall n, k :: n in s.caches && k in s.caches[n] ==> k in s.store && s.store[k] == s.caches[n][k]
                                                             && s.caches[n][k] in s.live)
    && (forall i :: 0 <= i < |s.searches| ==> Progresses(s, s.searches[i]))
  }

  lemma RoundStore(s: State, i: nat, s': State)
    requires Inv(s) && Round(s, i, s')
    ensures "" !in s'.store.Values
    ensures forall k :: k in s.store && s.store[k] in s.live ==> k in s'.store && s'.store[k] == s.store[k]
    ensures forall k :: k in s.store && (k !in s'.store || s'.store[k] != s.store[k]) ==>
            k in s'.store && s'.store[k] in s.live
    ensures Progresses(s', s'.searches[i])
  {
    var c := s.searches[i];
    assert Progresses(s, c);
    assert c.key in s.store ==> s.store[c.key] in s.store.Values;
    forall v | v in s'.store.Values ensures v != "" {
      var k :| k in s'.store && s'.store[k] == v;
      assert k in s.store ==> s.store[k] in s.store.Values;
    }
  }

  lemma RoundKeeps(s: State, i: nat, s': State)
    requires Inv(s) && Round(s, i, s')
    ensures Inv(s')
  {
    RoundStore(s, i, s');
    forall j | 0 <= j < |s'.searches| ensures Progresses(s', s'.searches[j]) {
      if j != i { assert Progresses(s, s.searches[j]); }
    }
  }

  lemma StepKeeps(s: State, step: Step, s': State)
    requires Inv(s) && Takes(s, step, s')
    ensures Inv(s')
  {
    match step
    case BeginStep(n, key, next) =>
      forall j | 0 <= j < |s'.searches| ensures Progresses(s', s'.searches[j]) {
        if j < |s.searches| { assert Progresses(s, s.searches[j]); }
      }
    case RoundStep(i) => RoundKeeps(s, i, s');
    case EvictStep(n, key) =>
      forall j | 0 <= j < |s'.searches| ensures Progresses(s', s'.searches[j]) { assert Progresses(s, s.searches[j]); }
    case GenerationStep =>
  }

  lemma {:induction false} RunInv(ss: seq<State>, steps: seq<Step>, k: nat)
    requires Run(ss, steps) && k < |ss|
    ensures Inv(ss[k])
  {
    if k > 0 {
      RunInv(ss, steps, k - 1);
      assert Takes(ss[k - 1], steps[k - 1], ss[k - 1 + 1]);
      StepKeeps(ss[k - 1], steps[k - 1], ss[k]);
    }
  }

  // ----- guarantees -----

  /** Within a generation the placement of an actor on a live node is never overwritten. */
  lemma {:induction false} LivePlacementStays(ss: seq<State>, steps: seq<Step>, j: nat, k: nat, key: string)
    requires Run(ss, steps) && SameGeneration(steps, j, k) && key in ss[j].store && ss[j].store[key] in ss[j].live
    ensures ss[k].live == ss[j].live && key in ss[k].store && ss[k].store[key] == ss[j].store[key]
  {
    if j < k {
      LivePlacementStays(ss, steps, j, k - 1, key);
      RunInv(ss, steps, k - 1);
      assert Takes(ss[k - 1], steps[k - 1], ss[k - 1 + 1]);
      if steps[k - 1].RoundStep? { RoundStore(ss[k - 1], steps[k - 1].i, ss[k]); }
    }
  }

  /**
   * A placement changes only by a round of a search for that actor, from none or a node that is gone, to a node that
   * can host the actor.
   */
  lemma PlacedWhereOffered(ss: seq<State>, steps: seq<Step>, k: nat, key: string)
    requires Run(ss, steps) && k < |steps|
    requires key in ss[k].store ==> key !in ss[k + 1].store || ss[k + 1].store[key] != ss[k].store[key]
    requires key in ss[k].store || key in ss[k + 1].store
    ensures steps[k].RoundStep? && steps[k].i < |ss[k].searches| && ss[k].searches[steps[k].i].key == key
    ensures key in ss[k].store ==> ss[k].store[key] !in ss[k].live
    ensures key in ss[k + 1].store && key in ss[k].offers && ss[k + 1].store[key] in ss[k].offers[key]
  {
    RunInv(ss, steps, k);
    assert Takes(ss[k], steps[k], ss[k + 1]);
    if steps[k].RoundStep? {
      assert Progresses(ss[k], ss[k].searches[steps[k].i]);
      RoundStore(ss[k], steps[k].i, ss[k + 1]);
    }
  }

  /** What a node learns about an actor, from its cache or from a search, is the stored placement and a live node. */
  ghost predicate Learnt(s: State, key: string, node: string) {
    || (exists n :: n in s.caches && key in s.caches[n] && s.caches[n][key] == node)
    || (exists i :: 0 <= i < |s.searches| && s.searches[i].key == key && s.searches[i].result == Some(node))
  }

  lemma LearntIsStored(ss: seq<State>, steps: seq<Step>, k: nat, key: string, node: string)
    requires Run(ss, steps) && k < |ss| && Learnt(ss[k], key, node)
    ensures key in ss[k].store && ss[k].store[key] == node && node in ss[k].live
  {
    RunInv(ss, steps, k);
    var s := ss[k];
    if i :| 0 <= i < |s.searches| && s.searches[i].key == key && s.searches[i].result == Some(node) {
      assert Progresses(s, s.searches[i]);
    }
  }

  /** All nodes of a generation agree on where an actor lives, whenever they learn it. */
  lemma GenerationAgrees(ss: seq<State>, steps: seq<Step>, j: nat, k: nat, key: string, a: string, b: string)
    requires Run(ss, steps) && SameGeneration(steps, j, k) && Learnt(ss[j], key, a) && Learnt(ss[k], key, b)
    ensures a == b
  {
    LearntIsStored(ss, steps, j, key, a);
    LearntIsStored(ss, steps, k, key, b);
    LivePlacementStays(ss, steps, j, k, key);
  }

  /** The loop ends within two rounds, whatever the other nodes do. */
  lemma TwoRounds(ss: seq<State>, steps: seq<Step>, k: nat, i: nat)
    requires Run(ss, steps) && k < |ss| && i < |ss[k].searches|
    ensures ss[k].searches[i].rounds <= 2
    ensures ss[k].searches[i].rounds == 2 ==> ss[k].searches[i].result.Some?
  {
    RunInv(ss, steps, k);
    assert Progresses(ss[k], ss[k].searches[i]);
  }
}
