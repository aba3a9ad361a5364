/** The philosophers never deadlock and each eats exactly its servings, over every run. */
module PhilosopherGuarantees {
  import opened Options
  import opened Philosophers

  predicate MovesForks(step: Step) { step.PickFirst? || step.PickSecond? || step.DropFirst? || step.DropSecond? }

  lemma HeldAfterMove(c: Params, s: State, step: Step, s': State, f: nat)
    requires Inv(c, s) && Takes(c, s, step, s') && MovesForks(step) && f < c.n
    ensures Shaped(c, s') && Held(c, s', f)
  {
    assert Held(c, s, f);
  }

  lemma HeldAfter(c: Params, s: State, step: Step, s': State, f: nat)
    requires Inv(c, s) && Takes(c, s, step, s') && !MovesForks(step) && f < c.n
    ensures Shaped(c, s') && Held(c, s', f)
  {
    assert Held(c, s, f);
  }

  /** The philosopher a step belongs to, if any. */
  predicate Belongs(step: Step, i: nat) { !step.Invite? && !step.ServeAgain? && step.i == i }

  lemma SeatingOfOthers(c: Params, s: State, step: Step, s': State, i: nat)
    requires Inv(c, s) && Takes(c, s, step, s') && !MovesForks(step) && i < c.n && !Belongs(step, i)
    ensures Shaped(c, s') && Seating(c, s', i)
  {
    assert Seating(c, s, i);
    hide Inv, Held;
  }

  lemma SeatingAtTable(c: Params, s: State, step: Step, s': State, i: nat)
    requires Inv(c, s) && Takes(c, s, step, s') && !MovesForks(step) && i < c.n && Belongs(step, i)
    requires step.FirstReturns? || step.SecondReturns? || step.Again? || step.Leave?
    ensures Shaped(c, s') && Seating(c, s', i)
  {
    assert Seating(c, s, i);
    hide Inv, Held;
  }

  lemma SeatingCounts(c: Params, s: State, step: Step, s': State, i: nat)
    requires Inv(c, s) && Takes(c, s, step, s') && i < c.n && Belongs(step, i)
    requires step.Join? || step.Sit? || step.Count? || step.Eaten?
    ensures Shaped(c, s') && Seating(c, s', i)
  {
    assert Seating(c, s, i);
    hide Inv, Held;
  }

  lemma SeatingAfterMove(c: Params, s: State, step: Step, s': State, i: nat)
    requires Inv(c, s) && Takes(c, s, step, s') && MovesForks(step) && i < c.n
    ensures Shaped(c, s') && Seating(c, s', i)
  {
    if Belongs(step, i) { OwnMove(c, s, step, s', i); } else { OtherMove(c, s, step, s', i); }
  }

  lemma OwnMove(c: Params, s: State, step: Step, s': State, i: nat)
    requires Inv(c, s) && Takes(c, s, step, s') && MovesForks(step) && i < c.n && Belongs(step, i)
    ensures Shaped(c, s') && Seating(c, s', i)
  {
    assert Seating(c, s, i);
    hide Inv, Held;
  }

  lemma OtherMove(c: Params, s: State, step: Step, s': State, i: nat)
    requires Inv(c, s) && Takes(c, s, step, s') && MovesForks(step) && i < c.n && !Belongs(step, i)
    ensures Shaped(c, s') && Seating(c, s', i)
  {
    assert Seating(c, s, i);
    hide Inv, Held;
  }

  lemma SeatingAfter(c: Params, s: State, step: Step, s': State, i: nat)
    requires Inv(c, s) && Takes(c, s, step, s') && !MovesForks(step) && i < c.n
    ensures Shaped(c, s') && Seating(c, s', i)
  {
    hide Inv, Takes, Seating;
    if !Belongs(step, i) {
      SeatingOfOthers(c, s, step, s', i);
    } else if step.Join? || step.Sit? || step.Count? || step.Eaten? {
      SeatingCounts(c, s, step, s', i);
    } else {
      SeatingAtTable(c, s, step, s', i);
    }
  }

  lemma StepKeeps(c: Params, s: State, step: Step, s': State)
    requires Inv(c, s) && Takes(c, s, step, s')
    ensures Inv(c, s')
  {
    assert Shaped(c, s') by { if MovesForks(step) { HeldAfterMove(c, s, step, s', 0); }
           else { HeldAfter(c, s, step, s', 0); } }
    hide Takes;
    forall f | 0 <= f < c.n ensures Held(c, s', f) {
      if MovesForks(step) { HeldAfterMove(c, s, step, s', f); } else { HeldAfter(c, s, step, s', f); }
    }
    forall i | 0 <= i < c.n ensures Seating(c, s', i) {
      if MovesForks(step) { SeatingAfterMove(c, s, step, s', i); } else { SeatingAfter(c, s, step, s', i); }
    }
  }

  lemma {:induction false} RunInv(c: Params, ss: seq<State>, steps: seq<Step>, k: nat)
    requires Run(c, ss, steps) && k < |ss|
    ensures Inv(c, ss[k])
  {
    if k > 0 {
      RunInv(c, ss, steps, k - 1);
      assert Takes(c, ss[k - 1], steps[k - 1], ss[k - 1 + 1]);
      StepKeeps(c, ss[k - 1], steps[k - 1], ss[k]);
    }
  }

  // ----- no deadlock -----

  predicate Available(s: State, f: nat, i: nat)
    requires f < |s.forks|
  {
    s.forks[f].None? || s.forks[f].value == i
  }

  /** Philosopher i has something to do other than fail to pick up a fork. */
  ghost predicate CanProgress(c: Params, s: State, i: nat)
    requires Seated(c, s, i)
  {
    s.diners[i].leaving > 0 ||
    match s.diners[i].phase
    case Away => s.diners[i].joins > 0
    case First(got) => got == Some(true) || Available(s, FirstFork(c.n, i), i)
    case Second(got) => got == Some(true) || Available(s, SecondFork(c.n, i), i)
    case _ => true
  }

  /** The fork a philosopher fails to pick up. */
  ghost function Wanted(c: Params, s: State, i: nat): nat
    requires Seated(c, s, i)
  {
    if s.diners[i].phase.First? then FirstFork(c.n, i) else SecondFork(c.n, i)
  }

  /** Whoever is stuck waits for a fork held by someone who can go on, or who is stuck on a fork of higher index. */
  lemma {:induction false} SomeoneCan(c: Params, s: State, i: nat) returns (j: nat)
    requires Inv(c, s) && i < c.n && !s.diners[i].phase.Away?
    ensures j < c.n && CanProgress(c, s, j)
    decreases c.n - Wanted(c, s, i)
  {
    if CanProgress(c, s, i) {
      j := i;
    } else {
      var f := Wanted(c, s, i);
      assert Held(c, s, f);
      var k := s.forks[f].value;
      assert Seating(c, s, i);
      if CanProgress(c, s, k) {
        j := k;
      } else {
        j := SomeoneCan(c, s, k);
      }
    }
  }

  /** Someone has not been served, has an invitation, or is at the table. */
  ghost predicate Unfinished(c: Params, s: State)
    requires Shaped(c, s)
  {
    s.serving < c.n || exists i :: 0 <= i < c.n && (!s.diners[i].phase.Away? || s.diners[i].joins > 0
                                                    || s.diners[i].leaving > 0)
  }

  lemma NoDeadlock(c: Params, ss: seq<State>, steps: seq<Step>, k: nat)
    requires Run(c, ss, steps) && k < |ss| && Shaped(c, ss[k]) && Unfinished(c, ss[k])
    ensures ss[k].serving < c.n || exists i: nat :: Seated(c, ss[k], i) && CanProgress(c, ss[k], i)
  {
    var s := ss[k];
    RunInv(c, ss, steps, k);
    if s.serving >= c.n {
      var i :| 0 <= i < c.n && (!s.diners[i].phase.Away? || s.diners[i].joins > 0 || s.diners[i].leaving > 0);
      if s.diners[i].phase.Away? || s.diners[i].leaving > 0 {
        assert Seated(c, s, i) && CanProgress(c, s, i);
      } else {
        var j := SomeoneCan(c, s, i);
        assert Seated(c, s, j);
      }
    }
  }

  // ----- servings -----

  /** At the end everybody has eaten exactly the servings ordered, once for each visit. */
  lemma ExactServings(c: Params, ss: seq<State>, steps: seq<Step>, k: nat, i: nat)
    requires Run(c, ss, steps) && k < |ss| && Shaped(c, ss[k]) && i < c.n
    ensures ss[k].diners[i].phase.Away? && ss[k].diners[i].visits > 0 ==> ss[k].diners[i].eaten == c.target
    ensures !Unfinished(c, ss[k]) ==> ss[k].diners[i].visits > 0
                                      && ss[k].diners[i].meals == ss[k].diners[i].visits * c.target
  {
    RunInv(c, ss, steps, k);
    assert Seating(c, ss[k], i);
  }

  /** Two philosophers about to eat do not share a fork. */
  lemma NeighboursExclude(c: Params, ss: seq<State>, steps: seq<Step>, k: nat, i: nat, j: nat)
    requires Run(c, ss, steps) && k < |ss| && Shaped(c, ss[k]) && i < c.n && j < c.n && i != j
    requires ss[k].diners[i].phase == Second(Some(true)) && ss[k].diners[j].phase == Second(Some(true))
    ensures {FirstFork(c.n, i), SecondFork(c.n, i)} !! {FirstFork(c.n, j), SecondFork(c.n, j)}
  {
    RunInv(c, ss, steps, k);
    assert Seating(c, ss[k], i) && Seating(c, ss[k], j);
  }

  // ----- progress is bounded -----

  /** A step that is neither a crash nor part of a failed attempt to pick up a fork. */
  predicate Productive(c: Params, s: State, step: Step) {
    match step
    case ServeAgain => false
    case Again(_) => false
    case PickFirst(i) => Seated(c, s, i) && Available(s, FirstFork(c.n, i), i)
    case PickSecond(i) => Seated(c, s, i) && Available(s, SecondFork(c.n, i), i)
    case FirstReturns(i) => Seated(c, s, i) && s.diners[i].phase == First(Some(true))
    case SecondReturns(i) => Seated(c, s, i) && s.diners[i].phase == Second(Some(true))
    case _ => true
  }

  /** CanProgress is about real steps: one productive step, or a return and then one. */
  lemma ProgressIsReal(c: Params, s: State, i: nat) returns (steps: seq<Step>, ss: seq<State>)
    requires Inv(c, s) && i < c.n && CanProgress(c, s, i)
    ensures 1 <= |steps| <= 2 && |ss| == |steps| + 1 && ss[0] == s
    ensures forall k :: 0 <= k < |steps| ==> Takes(c, ss[k], steps[k], ss[k + 1]) && !Crash(steps[k])
    ensures Productive(c, ss[|steps| - 1], steps[|steps| - 1])
  {
    var p := s.diners[i];
    assert Seating(c, s, i);
    if p.leaving > 0 {
      steps, ss := [Leave(i)], [s, Put(s, i, p.(leaving := p.leaving - 1))];
      return;
    }
    match p.phase
    case Away =>
      steps, ss := [Join(i)], [s, Put(s, i, p.(phase := Joining, joins := p.joins - 1, visits := p.visits + 1))];
    case Joining =>
      steps, ss := [Sit(i)], [s, Put(s, i, p.(phase := First(None), eaten := 0))];
    case First(got) =>
      if got == Some(true) {
        steps, ss := [FirstReturns(i)], [s, Go(s, i, Second(None))];
      } else if got == None {
        steps, ss := [PickFirst(i)], [s, Reach(s, i, FirstFork(c.n, i), true)];
      } else {
        var m := Go(s, i, First(None));
        steps, ss := [FirstReturns(i), PickFirst(i)], [s, m, Reach(m, i, FirstFork(c.n, i), true)];
      }
    case Second(got) =>
      if got == Some(true) {
        steps, ss := [SecondReturns(i)], [s, Go(s, i, Eat(p.eaten, 0))];
      } else if got == None {
        steps, ss := [PickSecond(i)], [s, Reach(s, i, SecondFork(c.n, i), false)];
      } else {
        var m := Go(s, i, Second(None));
        steps, ss := [SecondReturns(i), PickSecond(i)], [s, m, Reach(m, i, SecondFork(c.n, i), false)];
      }
    case Eat(serving, pc) =>
      steps, ss := EatStep(c, s, i);
  }

  lemma EatStep(c: Params, s: State, i: nat) returns (steps: seq<Step>, ss: seq<State>)
    requires Inv(c, s) && i < c.n && s.diners[i].phase.Eat?
    ensures |steps| == 1 && |ss| == 2 && ss[0] == s && Takes(c, s, steps[0], ss[1]) && Productive(c, s, steps[0])
  {
    var p := s.diners[i];
    assert Seating(c, s, i);
    if p.phase.pc == 0 {
      steps := [DropSecond(i)];
      ss := [s, Go(s, i, p.phase.(pc := 1)).(forks :=
          s.forks[SecondFork(c.n, i) := PutDown(s.forks[SecondFork(c.n, i)], i)])];
    } else if p.phase.pc == 1 {
      steps := [DropFirst(i)];
      ss := [s, Go(s, i, p.phase.(pc := 2)).(forks :=
          s.forks[FirstFork(c.n, i) := PutDown(s.forks[FirstFork(c.n, i)], i)])];
    } else if p.phase.pc == 2 {
      steps, ss := [Count(i)], [s, Put(s, i, Counted(p))];
    } else {
      steps := [Eaten(i)];
      ss := [s, if p.eaten < c.target then Go(s, i, First(None))
          else Put(s, i, p.(phase := Away, leaving := p.leaving + 1))];
    }
  }

  /** How many productive steps one invitation is worth, plus one. */
  function Visit(c: Params): nat { 8 * c.target + 3 }

  function VisitRank(c: Params, p: Philosopher): int {
    match p.phase
    case Away => 0
    case Joining => 8 * c.target + 2
    case First(got) => 8 * (c.target - p.eaten) + if got == Some(true) then 0 else 1
    case Second(got) => 8 * (c.target - p.eaten) - if got == Some(true) then 2 else 1
    case Eat(serving, pc) => 8 * (c.target - serving) - 3 - pc
  }

  function Rank(c: Params, p: Philosopher): int { p.joins * Visit(c) + VisitRank(c, p) + p.leaving }

  function RankSum(c: Params, diners: seq<Philosopher>): int {
    if diners == [] then 0 else RankSum(c, diners[..|diners| - 1]) + Rank(c, diners[|diners| - 1])
  }

  /** An upper bound on the productive steps left. */
  function StepsLeft(c: Params, s: State): int { (c.n - s.serving) * (Visit(c) + 1) + RankSum(c, s.diners) }

  lemma {:induction false} RankSumChange(c: Params, diners: seq<Philosopher>, i: nat, p: Philosopher)
    requires i < |diners|
    ensures RankSum(c, diners[i := p]) == RankSum(c, diners) - Rank(c, diners[i]) + Rank(c, p)
  {
    var m := |diners| - 1;
    if i == m {
      assert diners[i := p][..m] == diners[..m];
    } else {
      assert diners[i := p][..m] == diners[..m][i := p];
      RankSumChange(c, diners[..m], i, p);
    }
  }

  lemma {:induction false} RankSumPositive(c: Params, diners: seq<Philosopher>)
    requires forall i :: 0 <= i < |diners| ==> Rank(c, diners[i]) >= 0
    ensures RankSum(c, diners) >= 0
  {
    if diners != [] { RankSumPositive(c, diners[..|diners| - 1]); }
  }

  predicate Crash(step: Step) { step.Again? || step.ServeAgain? }

  lemma OneMore(joins: nat, c: Params)
    ensures (joins + 1) * Visit(c) == joins * Visit(c) + Visit(c)
  {
  }

  /** The rank of the philosopher who takes a step. */
  lemma DinerRank(c: Params, s: State, step: Step, s': State, i: nat)
    requires Inv(c, s) && Takes(c, s, step, s') && !Crash(step) && !step.Invite? && i == step.i
    ensures s'.serving == s.serving && |s'.diners| == |s.diners| && i < c.n && s'.diners == s.diners[i := s'.diners[i]]
    ensures Rank(c, s'.diners[i]) == Rank(c, s.diners[i]) - if Productive(c, s, step) then 1 else 0
  {
    assert Seating(c, s, i);
    if step.Join? { OneMore(s'.diners[i].joins, c); }
  }

  lemma StepsLeftAfter(c: Params, s: State, step: Step, s': State)
    requires Inv(c, s) && Takes(c, s, step, s') && !Crash(step)
    ensures StepsLeft(c, s') == StepsLeft(c, s) - if Productive(c, s, step) then 1 else 0
  {
    if step.Invite? {
      var i := s.serving;
      OneMore(s.diners[i].joins, c);
      RankSumChange(c, s.diners, i, s'.diners[i]);
      assert (c.n - i) * (Visit(c) + 1) == (c.n - (i + 1)) * (Visit(c) + 1) + Visit(c) + 1;
    } else {
      DinerRank(c, s, step, s', step.i);
      RankSumChange(c, s.diners, step.i, s'.diners[step.i]);
    }
  }

  function Productives(c: Params, ss: seq<State>, steps: seq<Step>, k: nat): nat
    requires k <= |steps| <= |ss|
  {
    if k == 0 then 0 else Productives(c, ss, steps, k - 1) + if Productive(c, ss[k - 1], steps[k - 1]) then 1 else 0
  }

  lemma LeftIsNatural(c: Params, s: State)
    requires Inv(c, s)
    ensures StepsLeft(c, s) >= 0
  {
    forall i | 0 <= i < |s.diners| ensures Rank(c, s.diners[i]) >= 0 { assert Seating(c, s, i); }
    RankSumPositive(c, s.diners);
  }

  lemma {:induction false} NobodyYet(c: Params, diners: seq<Philosopher>)
    requires forall i :: 0 <= i < |diners| ==> diners[i] == Philosopher(Away, 0, 0, 0, 0, 0)
    ensures RankSum(c, diners) == 0
  {
    if diners != [] { NobodyYet(c, diners[..|diners| - 1]); }
  }

  lemma {:induction false} CountedSteps(c: Params, ss: seq<State>, steps: seq<Step>, k: nat)
    requires Run(c, ss, steps) && k <= |steps| && forall m :: 0 <= m < k ==> !Crash(steps[m])
    ensures Productives(c, ss, steps, k) + StepsLeft(c, ss[k]) == c.n * (Visit(c) + 1)
  {
    if k == 0 {
      NobodyYet(c, ss[0].diners);
    } else {
      CountedSteps(c, ss, steps, k - 1);
      RunInv(c, ss, steps, k - 1);
      assert Takes(c, ss[k - 1], steps[k - 1], ss[k - 1 + 1]);
      StepsLeftAfter(c, ss[k - 1], steps[k - 1], ss[k]);
    }
  }

  /**
   * Without crashes there are at most n (8 targetServings + 4) productive steps, so the table empties unless pick-ups
   * fail forever.
   */
  lemma BoundedWork(c: Params, ss: seq<State>, steps: seq<Step>, k: nat)
    requires Run(c, ss, steps) && k <= |steps| && forall m :: 0 <= m < k ==> !Crash(steps[m])
    ensures Productives(c, ss, steps, k) <= c.n * (8 * c.target + 4)
  {
    CountedSteps(c, ss, steps, k);
    RunInv(c, ss, steps, k);
    LeftIsNatural(c, ss[k]);
  }
}
