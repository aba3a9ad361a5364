/** Dinner can always end, and who was invited again has eaten too much. */
module PhilosopherLimits {
  import opened Options
  import opened Philosophers
  import opened PhilosopherGuarantees

  // ----- dinner can end -----

  function End(ss: seq<State>): State
    requires ss != []
  {
    ss[|ss| - 1]
  }

  lemma Further(c: Params, ss: seq<State>, steps: seq<Step>, step: Step, s: State)
      returns (ss': seq<State>, steps': seq<Step>)
    requires Run(c, ss, steps) && Takes(c, End(ss), step, s)
    ensures Run(c, ss', steps') && ss' == ss + [s] && steps' == steps + [step]
  {
    hide Takes, Starts;
    ss', steps' := ss + [s], steps + [step];
    forall k | 0 <= k < |steps'| ensures Takes(c, ss'[k], steps'[k], ss'[k + 1]) {
      if k < |steps| { assert Takes(c, ss[k], steps[k], ss[k + 1]); }
    }
  }

  /** While dinner is not over, there is a productive step, at most one return away. */
  lemma SomethingHappens(c: Params, ss: seq<State>, steps: seq<Step>) returns (ss': seq<State>, steps': seq<Step>)
    requires Run(c, ss, steps) && Shaped(c, End(ss)) && Unfinished(c, End(ss))
    ensures Run(c, ss', steps') && ss <= ss' && steps <= steps' && Inv(c, End(ss)) && Inv(c, End(ss'))
    ensures 0 <= StepsLeft(c, End(ss')) < StepsLeft(c, End(ss))
  {
    var s := End(ss);
    RunInv(c, ss, steps, |steps|);
    NoDeadlock(c, ss, steps, |steps|);
    if s.serving < c.n {
      var s' := Put(s, s.serving, s.diners[s.serving].(joins := s.diners[s.serving].joins + 1)).(serving := s.serving
          + 1);
      ss', steps' := OneStep(c, ss, steps, Invite, s');
    } else {
      var i: nat :| Seated(c, s, i) && CanProgress(c, s, i);
      var more, states := ProgressIsReal(c, s, i);
      hide Takes, Inv, Productive, StepsLeft, CanProgress;
      assert Takes(c, states[0], more[0], states[0 + 1]);
      ss', steps' := OneStep(c, ss, steps, more[0], states[1]);
      if |more| == 2 {
        assert Takes(c, states[1], more[1], states[1 + 1]);
        ss', steps' := OneStep(c, ss', steps', more[1], states[2]);
      }
    }
  }

  lemma OneStep(c: Params, ss: seq<State>, steps: seq<Step>, step: Step, s: State)
      returns (ss': seq<State>, steps': seq<Step>)
    requires Run(c, ss, steps) && Inv(c, End(ss)) && Takes(c, End(ss), step, s) && !Crash(step)
    ensures Run(c, ss', steps') && ss' == ss + [s] && steps' == steps + [step] && Inv(c, s)
    ensures 0 <= StepsLeft(c, s) == StepsLeft(c, End(ss)) - if Productive(c, End(ss), step) then 1 else 0
  {
    StepKeeps(c, End(ss), step, s);
    StepsLeftAfter(c, End(ss), step, s);
    LeftIsNatural(c, s);
    hide Takes, Inv;
    ss', steps' := Further(c, ss, steps, step, s);
  }

  /** From every reachable state dinner can end. */
  lemma {:induction false} CanFinish(c: Params, ss: seq<State>, steps: seq<Step>)
      returns (ss': seq<State>, steps': seq<Step>)
    requires Run(c, ss, steps)
    ensures Run(c, ss', steps') && ss <= ss' && steps <= steps' && Shaped(c, End(ss')) && !Unfinished(c, End(ss'))
    decreases StepsLeft(c, End(ss))
  {
    RunInv(c, ss, steps, |steps|);
    ss', steps' := ss, steps;
    if Unfinished(c, End(ss)) {
      ss', steps' := SomethingHappens(c, ss, steps);
      hide Inv, Unfinished;
      ss', steps' := CanFinish(c, ss', steps');
    }
  }

  // ----- invitations -----

  /** How often the first k steps invited philosopher i. */
  function Invitations(ss: seq<State>, steps: seq<Step>, k: nat, i: nat): nat
    requires k <= |steps| < |ss|
  {
    if k == 0 then 0
    else Invitations(ss, steps, k - 1, i) + if steps[k - 1].Invite? && ss[k - 1].serving == i then 1 else 0
  }

  /** Every invitation is taken up once, or still waits. */
  lemma {:induction false} Invited(c: Params, ss: seq<State>, steps: seq<Step>, k: nat, i: nat)
    requires Run(c, ss, steps) && k < |ss| && i < c.n
    ensures Shaped(c, ss[k]) && ss[k].diners[i].joins + ss[k].diners[i].visits == Invitations(ss, steps, k, i)
  {
    if k > 0 {
      Invited(c, ss, steps, k - 1, i);
      assert Takes(c, ss[k - 1], steps[k - 1], ss[k - 1 + 1]);
    }
  }

  /** At the end everybody has eaten the servings ordered once for each invitation. */
  lemma MealsPerInvitation(c: Params, ss: seq<State>, steps: seq<Step>, k: nat, i: nat)
    requires Run(c, ss, steps) && k < |ss| && i < c.n && Shaped(c, ss[k]) && !Unfinished(c, ss[k])
    ensures ss[k].diners[i].meals == Invitations(ss, steps, k, i) * c.target && Invitations(ss, steps, k, i) > 0
  {
    ExactServings(c, ss, steps, k, i);
    Invited(c, ss, steps, k, i);
    hide Run, Unfinished;
  }

  /** Among the first k steps serve was executed again after it had invited philosopher i. */
  ghost predicate InvitedBefore(ss: seq<State>, steps: seq<Step>, k: nat, i: nat)
    requires k <= |steps| < |ss|
  {
    exists m, j :: InvitesAt(ss, steps, m, i) && m < j < k && steps[j].ServeAgain?
  }

  predicate InvitesAt(ss: seq<State>, steps: seq<Step>, m: int, i: nat)
    requires |steps| < |ss|
  {
    0 <= m < |steps| && steps[m].Invite? && ss[m].serving == i
  }

  lemma {:induction false} SomeInvitation(ss: seq<State>, steps: seq<Step>, k: nat, i: nat)
    requires k <= |steps| < |ss|
    ensures Invitations(ss, steps, k, i) > 0 <==> exists m :: m < k && InvitesAt(ss, steps, m, i)
  {
    if k > 0 {
      SomeInvitation(ss, steps, k - 1, i);
      assert InvitesAt(ss, steps, k - 1, i) <==> steps[k - 1].Invite? && ss[k - 1].serving == i;
    }
  }

  /** Without such a repetition one invitation reaches everybody served so far; with one, there is one more. */
  lemma {:induction false} InvitationsSoFar(c: Params, ss: seq<State>, steps: seq<Step>, k: nat, i: nat)
    requires Run(c, ss, steps) && k < |ss| && i < c.n
    ensures var n, reached := Invitations(ss, steps, k, i), if i < ss[k].serving then 1 else 0;
            if InvitedBefore(ss, steps, k, i) then n > reached else n == reached
  {
    if k > 0 {
      hide InvitedBefore, Invitations, Takes, Starts;
      InvitationsSoFar(c, ss, steps, k - 1, i);
      assert Takes(c, ss[k - 1], steps[k - 1], ss[k - 1 + 1]);
      ServingMoves(c, ss[k - 1], steps[k - 1], ss[k]);
      hide Run;
      InvitedNow(ss, steps, k - 1, i);
      InvitationsNow(ss, steps, k - 1, i);
    } else {
      assert Invitations(ss, steps, 0, i) == 0;
    }
  }

  lemma InvitationsNow(ss: seq<State>, steps: seq<Step>, k: nat, i: nat)
    requires k < |steps| < |ss|
    ensures Invitations(ss, steps, k + 1, i) ==
            Invitations(ss, steps, k, i) + if steps[k].Invite? && ss[k].serving == i then 1 else 0
  {
  }

  lemma InvitedNow(ss: seq<State>, steps: seq<Step>, k: nat, i: nat)
    requires k < |steps| < |ss|
    ensures InvitedBefore(ss, steps, k + 1, i) <==>
            InvitedBefore(ss, steps, k, i) || (steps[k].ServeAgain? && Invitations(ss, steps, k, i) > 0)
  {
    hide InvitedBefore, Invitations, InvitesAt;
    SomeInvitation(ss, steps, k, i);
    RepeatedNow(ss, steps, k, i);
  }

  lemma ServingMoves(c: Params, s: State, step: Step, s': State)
    requires Takes(c, s, step, s')
    ensures s'.serving == match step
                          case Invite => s.serving + 1
                          case ServeAgain => 0
                          case _ => s.serving
  {
  }

  lemma RepeatedNow(ss: seq<State>, steps: seq<Step>, k: nat, i: nat)
    requires k < |steps| < |ss|
    ensures InvitedBefore(ss, steps, k + 1, i) <==>
            InvitedBefore(ss, steps, k, i) || (steps[k].ServeAgain? && exists m :: m < k && InvitesAt(ss, steps, m, i))
  {
    if InvitedBefore(ss, steps, k + 1, i) {
      var m, j :| InvitesAt(ss, steps, m, i) && m < j < k + 1 && steps[j].ServeAgain?;
      assert j == k || j < k;
    }
  }

  /**
   * At the end philosopher i has eaten exactly the servings ordered if and only if it was invited once, that is, if
   * and only if serve was not executed again after it had invited i.
   */
  lemma ServedOnceIff(c: Params, ss: seq<State>, steps: seq<Step>, k: nat, i: nat)
    requires Run(c, ss, steps) && k < |ss| && i < c.n && Shaped(c, ss[k]) && !Unfinished(c, ss[k])
    ensures ss[k].diners[i].meals == c.target <==> Invitations(ss, steps, k, i) == 1
    ensures ss[k].diners[i].meals == c.target <==> !InvitedBefore(ss, steps, k, i)
    ensures ss[k].diners[i].meals >= c.target
  {
    MealsPerInvitation(c, ss, steps, k, i);
    InvitationsSoFar(c, ss, steps, k, i);
    hide Run, InvitedBefore;
    Times(Invitations(ss, steps, k, i), c.target);
  }

  lemma Times(n: nat, m: nat)
    requires n >= 1 && m >= 1
    ensures n * m >= m && (n * m == m <==> n == 1)
  {
    if n > 1 { assert n * m == (n - 1) * m + m; }
  }

  /** For any table, serve executed again leads to a dinner in which somebody ate too much. */
  lemma EatsTooMuch(c: Params) returns (ss: seq<State>, steps: seq<Step>)
    requires c.n >= 1 && c.target >= 1
    ensures Run(c, ss, steps) && Shaped(c, End(ss)) && !Unfinished(c, End(ss)) && End(ss).diners[0].meals > c.target
  {
    var away := Philosopher(Away, 0, 0, 0, 0, 0);
    var s0 := State(seq(c.n, _ => None), seq(c.n, _ => away), 0);
    var s1 := Put(s0, 0, away.(joins := 1)).(serving := 1);
    var s2 := s1.(serving := 0);
    assert Takes(c, s0, Invite, s1) && Takes(c, s1, ServeAgain, s2);
    assert Run(c, [s0, s1, s2], [Invite, ServeAgain]);
    hide Takes, Starts, Unfinished;
    ss, steps := CanFinish(c, [s0, s1, s2], [Invite, ServeAgain]);
    assert steps[0] == Invite && steps[1] == ServeAgain && ss[0] == s0;
    assert InvitesAt(ss, steps, 0, 0);
    assert InvitedBefore(ss, steps, |steps|, 0);
    ServedOnceIff(c, ss, steps, |steps|, 0);
  }
}
