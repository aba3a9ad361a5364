/**
 * Dining philosophers as actors. Every method may be executed again after a crash, from its start and with its
 * arguments; a philosopher keeps its actor lock across its tail calls to itself, so another request to join waits
 * until it has eaten.
 */
module Philosophers {
  import opened Options

  // ----- forks and seats -----

  function PickUp(inUseBy: Option<nat>, who: nat): (Option<nat>, bool) {
    if inUseBy.None? || inUseBy.value == who then (Some(who), true) else (inUseBy, false)
  }

  function PutDown(inUseBy: Option<nat>, who: nat): Option<nat> { if inUseBy == Some(who) then None else inUseBy }

  class Fork {
    var inUseBy: Option<nat>

    constructor ()
      ensures inUseBy == None
    {
      inUseBy := None;
    }

    method TryPickUp(who: nat) returns (got: bool)
      modifies this
      ensures (inUseBy, got) == PickUp(old(inUseBy), who)
      ensures got <==> inUseBy == Some(who)
    {
      if inUseBy.None? {
        inUseBy := Some(who);
        return true;
      }
      return inUseBy.value == who;
    }

    method Release(who: nat)
      modifies this
      ensures inUseBy == PutDown(old(inUseBy), who) && inUseBy != Some(who)
    {
      if inUseBy == Some(who) {
        inUseBy := None;
      }
    }
  }

  /** An invitation to join the table, sent by serve. */
  datatype Seat = Seat(who: nat, first: nat, second: nat)

  function FirstFork(n: nat, i: nat): nat { if i + 1 < n then i else 0 }

  function SecondFork(n: nat, i: nat): nat { if i + 1 < n then i + 1 else i }

  /** Everybody is invited once, between the two forks beside them, and reaches for the lower one first. */
  method Serve(n: nat) returns (seats: seq<Seat>)
    requires n >= 1
    ensures |seats| == n
    ensures forall i :: 0 <= i < n ==> seats[i] == Seat(i, FirstFork(n, i), SecondFork(n, i))
    ensures forall i :: 0 <= i < n && n >= 2 ==> seats[i].first < seats[i].second < n
                                                 && {seats[i].first, seats[i].second} == {i, (i + 1) % n}
  {
    seats := [];
    for i := 0 to n - 1
      invariant |seats| == i && forall j :: 0 <= j < i ==> seats[j] == Seat(j, j, j + 1)
    {
      seats := seats + [Seat(i, i, i + 1)];
    }
    seats := seats + [Seat(n - 1, 0, n - 1)];
    forall i | 0 <= i < n && n >= 2 ensures {seats[i].first, seats[i].second} == {i, (i + 1) % n} {
      if i < n - 1 { assert (i + 1) % n == i + 1; } else { assert (i + 1) % n == 0; }
    }
  }

  // ----- the table -----

  /** The method a philosopher executes; got is the answer of the fork, pc how far eat has come. */
  datatype Phase = Away | Joining | First(got: Option<bool>) | Second(got: Option<bool>) | Eat(serving: nat, pc: nat)

  /**
   * joins counts the invitations not yet taken up, leaving the messages to the table that it is done eating; visits
   * and meals are history: invitations taken up, and servings eaten, not counting a serving eaten again after a
   * crash.
   */
  datatype Philosopher = Philosopher(phase: Phase, eaten: nat, joins: nat, leaving: nat, visits: nat, meals: nat)

  datatype Params = Params(n: nat, target: nat)

  /** serving is the philosopher serve invites next; n when it is done. */
  datatype State = State(forks: seq<Option<nat>>, diners: seq<Philosopher>, serving: nat)

  predicate Shaped(c: Params, s: State) {
    |s.forks| == |s.diners| == c.n && s.serving <= c.n && c.n >= 1 && c.target >= 1
  }

  predicate Seated(c: Params, s: State, i: nat) { Shaped(c, s) && i < c.n }

  function Put(s: State, i: nat, p: Philosopher): State
    requires i < |s.diners|
  {
    s.(diners := s.diners[i := p])
  }

  function Go(s: State, i: nat, phase: Phase): State
    requires i < |s.diners|
  {
    Put(s, i, s.diners[i].(phase := phase))
  }

  function Reach(s: State, i: nat, fork: nat, first: bool): State
    requires i < |s.diners| && fork < |s.forks|
  {
    var (inUseBy, got) := PickUp(s.forks[fork], i);
    Go(s, i, if first then First(Some(got)) else Second(Some(got))).(forks := s.forks[fork := inUseBy])
  }

  /** The serving is recorded; a serving eaten again after a crash is the same serving. */
  function Counted(p: Philosopher): Philosopher
    requires p.phase.Eat?
  {
    p.(phase := p.phase.(pc := 3), eaten := p.phase.serving + 1, meals := if p.eaten == p.phase.serving
        then p.meals + 1 else p.meals)
  }

  datatype Step =
    | Invite | ServeAgain
    | Join(i: nat) | Sit(i: nat) | PickFirst(i: nat) | FirstReturns(i: nat) | PickSecond(i: nat) | SecondReturns(i: nat)
    | DropSecond(i: nat) | DropFirst(i: nat) | Count(i: nat) | Eaten(i: nat) | Leave(i: nat) | Again(i: nat)

  /** The philosopher a step belongs to can take it. */
  ghost predicate Takes(c: Params, s: State, step: Step, s': State) {
    Shaped(c, s) &&
    match step
    case Invite => s.serving < c.n
      && s' == Put(s, s.serving, s.diners[s.serving].(joins := s.diners[s.serving].joins + 1)).(serving := s.serving
          + 1)
    case ServeAgain => s' == s.(serving := 0)
    case Join(i) => i < c.n && s.diners[i].phase.Away? && s.diners[i].joins > 0
      && s' == Put(s, i, s.diners[i].(phase := Joining, joins := s.diners[i].joins - 1,
                                      visits := s.diners[i].visits + 1))
    case Sit(i) => i < c.n && s.diners[i].phase.Joining?
      && s' == Put(s, i, s.diners[i].(phase := First(None), eaten := 0))
    case PickFirst(i) => i < c.n && s.diners[i].phase == First(None) && s' == Reach(s, i, FirstFork(c.n, i), true)
    case FirstReturns(i) => i < c.n && s.diners[i].phase.First? && s.diners[i].phase.got.Some?
      && s' == Go(s, i, if s.diners[i].phase.got.value then Second(None) else First(None))
    case PickSecond(i) => i < c.n && s.diners[i].phase == Second(None) && s' == Reach(s, i, SecondFork(c.n, i), false)
    case SecondReturns(i) => i < c.n && s.diners[i].phase.Second? && s.diners[i].phase.got.Some?
      && s' == Go(s, i, if s.diners[i].phase.got.value then Eat(s.diners[i].eaten, 0) else Second(None))
    case DropSecond(i) => i < c.n && s.diners[i].phase.Eat? && s.diners[i].phase.pc == 0
      && s' == Go(s, i, s.diners[i].phase.(pc := 1)).(forks :=
          s.forks[SecondFork(c.n, i) := PutDown(s.forks[SecondFork(c.n, i)], i)])
    case DropFirst(i) => i < c.n && s.diners[i].phase.Eat? && s.diners[i].phase.pc == 1
      && s' == Go(s, i, s.diners[i].phase.(pc := 2)).(forks :=
          s.forks[FirstFork(c.n, i) := PutDown(s.forks[FirstFork(c.n, i)], i)])
    case Count(i) => i < c.n && s.diners[i].phase.Eat? && s.diners[i].phase.pc == 2
      && s' == Put(s, i, Counted(s.diners[i]))
    case Eaten(i) => i < c.n && s.diners[i].phase.Eat? && s.diners[i].phase.pc == 3
      && s' == if s.diners[i].eaten < c.target then Go(s, i, First(None))
          else Put(s, i, s.diners[i].(phase := Away, leaving := s.diners[i].leaving + 1))
    case Leave(i) => i < c.n && s.diners[i].leaving > 0
    && s' == Put(s, i, s.diners[i].(leaving := s.diners[i].leaving - 1))
    case Again(i) => i < c.n && s' == Go(s, i, Restarted(s.diners[i].phase))
  }

  /** A crash: the method starts over. */
  function Restarted(p: Phase): Phase {
    match p
    case First(_) => First(None)
    case Second(_) => Second(None)
    case Eat(serving, _) => Eat(serving, 0)
    case _ => p
  }

  ghost predicate Starts(c: Params, s: State) {
    && Shaped(c, s) && s.serving == 0
    && (forall f :: 0 <= f < c.n ==> s.forks[f] == None)
    && (forall i :: 0 <= i < c.n ==> s.diners[i] == Philosopher(Away, 0, 0, 0, 0, 0))
  }

  ghost predicate Run(c: Params, ss: seq<State>, steps: seq<Step>) {
    && |ss| == |steps| + 1
    && Starts(c, ss[0])
    && forall k :: 0 <= k < |steps| ==> Takes(c, ss[k], steps[k], ss[k + 1])
  }

  // ----- invariant -----

  /** A philosopher in this phase may hold its first fork, its second fork. */
  predicate MayHoldFirst(p: Phase) {
    p == First(None) || p == First(Some(true)) || p.Second? || (p.Eat? && p.pc <= 1)
  }

  predicate MayHoldSecond(p: Phase) { p == Second(None) || p == Second(Some(true)) || (p.Eat? && p.pc == 0) }

  ghost predicate Held(c: Params, s: State, f: nat)
    requires Shaped(c, s) && f < c.n
  {
    s.forks[f].Some? ==>
      var i := s.forks[f].value;
      && i < c.n
      && ((f == FirstFork(c.n, i) && MayHoldFirst(s.diners[i].phase))
          || (f == SecondFork(c.n, i) && MayHoldSecond(s.diners[i].phase)))
  }

  /** What a philosopher has eaten over all its visits. */
  function Servings(c: Params, p: Philosopher): int {
    if p.phase.Away? then p.visits * c.target
    else (p.visits - 1) * c.target + if p.phase.Joining? then 0 else p.eaten
  }

  ghost predicate Seating(c: Params, s: State, i: nat)
    requires Seated(c, s, i)
  {
    var p := s.diners[i];
    && (p.phase == First(Some(true)) || p.phase.Second? ==> s.forks[FirstFork(c.n, i)] == Some(i))
    && (p.phase == Second(Some(true)) ==> s.forks[SecondFork(c.n, i)] == Some(i))
    && (p.phase.First? || p.phase.Second? ==> p.eaten < c.target)
    && (p.phase.Eat? ==> p.phase.serving < c.target && p.phase.pc <= 3
                         && (p.eaten == p.phase.serving || p.eaten == p.phase.serving + 1))
    && (p.phase.Eat? && p.phase.pc == 3 ==> p.eaten == p.phase.serving + 1)
    && (p.phase.Away? && p.visits > 0 ==> p.eaten == c.target)
    && (!p.phase.Away? ==> p.visits > 0)
    && p.meals == Servings(c, p)
    && (i < s.serving ==> p.visits > 0 || p.joins > 0)
  }

  ghost predicate Inv(c: Params, s: State) {
    && Shaped(c, s)
    && (forall f :: 0 <= f < c.n ==> Held(c, s, f))
    && (forall i :: 0 <= i < c.n ==> Seating(c, s, i))
  }
}
