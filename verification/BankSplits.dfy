/** When the participants of a transfer can be told both decisions. */
module BankSplits {
  import opened Options
  import opened Bank
  import opened BankProtocol
  import opened BankSteps
  import opened BankGuarantees
  import opened BankLimits

  // ----- one decision -----

  function Refusing(): State { Pair(FRESH, FRESH, Transfer(Idle, None, {} + {false}, false, {}, true), [map[], map[]]) }

  function Asked(): State {
    Pair(RESERVED, RESERVED, Transfer(Asking(map[0 := Vote(true)][1 := Vote(true)]), None, {} + {false}, false, {},
                                      true), [map[], map[]])
  }

  function Agreed(): State {
    Pair(RESERVED, RESERVED, Transfer(Idle, Some(true), {} + {false} + {true}, false, {}, true), [map[], map[]])
  }

  lemma ThrowAndRefuse() returns (s: State, s1: State, s2: State)
    ensures Starts(PAIR, s) && Takes(PAIR, s, StartStep(0), s1) && Takes(PAIR, s1, FailStep(0), s2)
            && Takes(PAIR, s2, TellStep(0), Refusing())
  {
    s := Pair(FRESH, FRESH, Transfer(Idle, None, {}, false, {}, false), [map[], map[]]);
    s1 := s.(transfers := [Transfer(Asking(map[]), None, {}, false, {}, false)]);
    s2 := s.(transfers := [Transfer(Decided(false), None, {}, false, {}, true)]);
  }

  lemma AskAgain() returns (s: State, s1: State)
    ensures Takes(PAIR, Refusing(), StartStep(0), s) && Takes(PAIR, s, AskStep(0, 0, false), s1)
            && Takes(PAIR, s1, AskStep(0, 1, false), Asked())
  {
    s := Refusing().(transfers := [Transfer(Asking(map[]), None, {} + {false}, false, {}, true)]);
    s1 := Pair(RESERVED, FRESH, Transfer(Asking(map[0 := Vote(true)]), None, {} + {false}, false, {}, true),
               [map[], map[]]);
  }

  lemma Agree() returns (s: State)
    ensures Takes(PAIR, Asked(), DecideStep(0), s) && Takes(PAIR, s, TellStep(0), Agreed())
  {
    s := Asked().(transfers := [Transfer(Decided(true), Some(true), {} + {false}, false, {}, true)]);
    assert MaySave(PAIR, 0, Asked().transfers[0].attempt.replies, Some(true));
  }

  lemma ApplyBoth() returns (s: State, s1: State)
    ensures Takes(PAIR, Agreed(), CommitStep(0, 0, false), s) && Takes(PAIR, s, CommitStep(0, 1, true), s1)
    ensures s1.applied == [map[0 := false], map[0 := true]]
  {
    s := Agreed().(accounts := [RESERVED.Commit(0, false, 1), RESERVED], applied := [map[0 := false], map[]]);
    s1 := s.(accounts := [RESERVED.Commit(0, false, 1), RESERVED.Commit(0, true, 1)],
             applied := [map[0 := false], map[0 := true]]);
  }

  /**
   * startTxn that throws tells the participants to refuse but saves no decision. If it is executed again before they
   * hear of it, they vote, and the transfer tells them to commit as well.
   */
  lemma FailureCanSplit() returns (ss: seq<State>, steps: seq<Step>)
    ensures Run(PAIR, ss, steps) && Safe(ss, steps) && Disagree(PAIR, ss[|steps|], 0, 0, 1)
  {
    hide Takes;
    var s0, s1, s2 := ThrowAndRefuse();
    var s4, s5 := AskAgain();
    var s7 := Agree();
    var s9, s10 := ApplyBoth();
    ss := [s0, s1, s2, Refusing(), s4, s5, Asked(), s7, Agreed(), s9, s10];
    steps := [StartStep(0), FailStep(0), TellStep(0), StartStep(0), AskStep(0, 0, false), AskStep(0, 1, false),
              DecideStep(0), TellStep(0), CommitStep(0, 0, false), CommitStep(0, 1, true)];
    hide Starts, Refusing, Asked, Agreed;
    forall k | 0 <= k < |steps| ensures Takes(PAIR, ss[k], steps[k], ss[k + 1]) {
      assert k == 0 || k == 1 || k == 2 || k == 3 || k == 4 || k == 5 || k == 6 || k == 7 || k == 8 || k == 9;
    }
  }

  /** Participants a and b can come to disagree by executing one commit each. */
  ghost predicate Diverges(ops: Operations, s: State, t: nat, a: nat, b: nat) {
    exists d, e, s1, s2 :: Commit(ops, s, t, a, d, s1) && Commit(ops, s1, t, b, e, s2) && Disagree(ops, s2, t, a, b)
  }

  /** Two participants that have not applied t can come to disagree if and only if both decisions were told. */
  lemma DivergesIff(ops: Operations, s: State, t: nat, a: nat, b: nat)
    requires Inv(ops, s) && t < |ops| && a in ops[t] && b in ops[t] && a != b && t !in s.applied[a]
             && t !in s.applied[b]
    ensures Diverges(ops, s, t, a, b) <==> s.transfers[t].told == {true, false}
  {
    assert Records(ops, s, t, a) && Records(ops, s, t, b);
    hide Inv, Records;
    if s.transfers[t].told == {true, false} {
      var s1 := AfterCommit(ops, s, t, a, true);
      var s2 := AfterCommit(ops, s1, t, b, false);
      assert Disagree(ops, s2, t, a, b);
    }
    if Diverges(ops, s, t, a, b) {
      var d, e, s1, s2 :| Commit(ops, s, t, a, d, s1) && Commit(ops, s1, t, b, e, s2) && Disagree(ops, s2, t, a, b);
      assert d in s.transfers[t].told && e in s.transfers[t].told && d != e;
      assert forall x: bool :: x in s.transfers[t].told <==> x in {true, false};
    }
  }

  lemma AfterCommit(ops: Operations, s: State, t: nat, a: nat, d: bool) returns (s': State)
    requires Part(ops, s, t, a) && d in s.transfers[t].told && a !in s.transfers[t].purged
             && t !in s.accounts[a].account.committed
    ensures Commit(ops, s, t, a, d, s') && s'.transfers == s.transfers && |s'.accounts| == |s.accounts| == |s'.applied|
    ensures s'.applied == s.applied[a := Noted(s.applied[a], t, d)] && forall b :: 0 <= b < |s.accounts| && b != a ==>
            s'.accounts[b] == s.accounts[b]
  {
    s' := s.(accounts := s.accounts[a := s.accounts[a].Commit(t, d, ops[t][a])],
             applied := s.applied[a := Noted(s.applied[a], t, d)]);
  }

  // ----- after a failure -----

  /** A step of transfer t, or one that no transfer takes. */
  predicate Alone(step: Step, t: nat) { step.LandStep? || step.ReloadStep? || step.t == t }

  /** The steps of transfer t alone can still tell the participants both decisions. */
  ghost predicate CanTellBoth(ops: Operations, s: State, t: nat) {
    exists ss, steps :: Leads(ops, s, t, ss, steps) && t < |End(ss).transfers|
                        && End(ss).transfers[t].told == {true, false}
  }

  ghost predicate Leads(ops: Operations, s: State, t: nat, ss: seq<State>, steps: seq<Step>) {
    && Path(ops, ss, steps) && ss[0] == s
    && forall k :: 0 <= k < |steps| ==> Alone(steps[k], t) && Harmless(ss[k], steps[k])
  }

  /** Account a has a record of t, or cannot afford its part. */
  predicate Barred(ops: Operations, s: State, t: nat, a: nat) {
    && Part(ops, s, t, a)
    && (HasRecord(s, t, a) || s.accounts[a].account.balance - s.accounts[a].account.debits + ops[t][a] <= 0)
  }

  predicate VotedYes(x: Transfer, a: nat) {
    x.attempt.Asking? && a in x.attempt.replies && x.attempt.replies[a] == Vote(true)
  }

  /** Nobody has decided yes, and account a keeps it so: it has not voted yes in this execution, and will not. */
  ghost predicate Hopeless(ops: Operations, s: State, t: nat, a: nat) {
    Barred(ops, s, t, a) && !Yes(s.transfers[t]) && !VotedYes(s.transfers[t], a)
  }

  lemma BarredKept(ops: Operations, s: State, step: Step, s': State, t: nat, a: nat)
    requires Takes(ops, s, step, s') && Harmless(s, step) && Barred(ops, s, t, a) && RecordsSaved(s.accounts[a])
    requires Alone(step, t) || HasRecord(s, t, a)
    ensures Barred(ops, s', t, a)
  {
    SameSize(ops, s, step, s');
    if HasRecord(s, t, a) {
      RecordKept(ops, s, step, s', t, a);
    } else if !Of(step, a) {
      NotOf(ops, s, step, s', a);
    } else {
      assert s.accounts[a].Recalled() == s.accounts[a].account;
    }
  }

  lemma NoYesKept(ops: Operations, s: State, step: Step, s': State, t: nat, a: nat)
    requires Takes(ops, s, step, s') && Barred(ops, s, t, a) && RecordsSaved(s.accounts[a])
    requires !Yes(s.transfers[t]) && !VotedYes(s.transfers[t], a)
    ensures t < |s'.transfers| && !Yes(s'.transfers[t]) && !VotedYes(s'.transfers[t], a)
  {
    if step.AskStep? && step.t == t && step.a == a {
      assert s.accounts[a].Recalled() == s.accounts[a].account;
    }
  }

  lemma HopelessStep(ops: Operations, s: State, step: Step, s': State, t: nat, a: nat)
    requires Inv(ops, s) && Takes(ops, s, step, s') && Harmless(s, step) && Hopeless(ops, s, t, a)
    requires Alone(step, t) || HasRecord(s, t, a)
    ensures Hopeless(ops, s', t, a)
  {
    assert Books(ops, s, a);
    hide Inv, Takes, Harmless;
    BarredKept(ops, s, step, s', t, a);
    NoYesKept(ops, s, step, s', t, a);
  }

  // ----- when it can no longer happen -----

  /** The transfer is complete and nobody asks or says yes. */
  predicate Over(x: Transfer) { x.complete && !x.attempt.Asking? && x.attempt != Decided(true) && true !in x.told }

  lemma OverStep(ops: Operations, s: State, step: Step, s': State, t: nat)
    requires Takes(ops, s, step, s') && t < |s.transfers| && Over(s.transfers[t])
    ensures t < |s'.transfers| && Over(s'.transfers[t])
  {
  }

  /** A saved decision stays. */
  lemma SavedStays(ops: Operations, s: State, step: Step, s': State, t: nat)
    requires Inv(ops, s) && Takes(ops, s, step, s') && t < |s.transfers| && s.transfers[t].decision.Some?
    ensures t < |s'.transfers| && s'.transfers[t].decision == s.transfers[t].decision
  {
    assert Decisions(ops, s, t);
    hide Inv, Decisions;
  }

  /** What rules out that both decisions are told. */
  ghost predicate Ruled(ops: Operations, s: State, t: nat) {
    t < |s.transfers| && (Over(s.transfers[t]) || s.transfers[t].decision == Some(false)
                          || exists a :: Hopeless(ops, s, t, a))
  }

  lemma RuledStep(ops: Operations, s: State, step: Step, s': State, t: nat)
    requires Inv(ops, s) && Takes(ops, s, step, s') && Harmless(s, step) && Alone(step, t) && Ruled(ops, s, t)
    ensures Ruled(ops, s', t)
  {
    hide Inv, Takes, Harmless, Over, Hopeless;
    SameSize(ops, s, step, s');
    if Over(s.transfers[t]) {
      OverStep(ops, s, step, s', t);
    } else if s.transfers[t].decision == Some(false) {
      SavedStays(ops, s, step, s', t);
    } else {
      var a :| Hopeless(ops, s, t, a);
      HopelessStep(ops, s, step, s', t, a);
    }
  }

  lemma RuledTold(ops: Operations, s: State, t: nat)
    requires Inv(ops, s) && Ruled(ops, s, t)
    ensures s.transfers[t].told != {true, false}
  {
    assert Decisions(ops, s, t);
    hide Inv;
    var x := s.transfers[t];
    assert true in x.told ==> Yes(x);
  }

  lemma {:induction false} RuledForGood(ops: Operations, s: State, t: nat, ss: seq<State>, steps: seq<Step>, k: nat)
    requires Inv(ops, s) && Ruled(ops, s, t) && Leads(ops, s, t, ss, steps) && k < |ss|
    ensures Inv(ops, ss[k]) && Ruled(ops, ss[k], t)
  {
    if k > 0 {
      RuledForGood(ops, s, t, ss, steps, k - 1);
      assert Takes(ops, ss[k - 1], steps[k - 1], ss[k - 1 + 1]) && Harmless(ss[k - 1], steps[k - 1])
             && Alone(steps[k - 1], t);
      hide Inv, Takes, Harmless, Ruled, Leads;
      StepKeeps(ops, ss[k - 1], steps[k - 1], ss[k]);
      RuledStep(ops, ss[k - 1], steps[k - 1], ss[k], t);
    }
  }

  // ----- how it happens -----

  lemma Goes(ops: Operations, s: State, t: nat, ss: seq<State>, steps: seq<Step>, step: Step, s': State)
    returns (ss': seq<State>, steps': seq<Step>)
    requires Leads(ops, s, t, ss, steps) && Takes(ops, End(ss), step, s') && Alone(step, t) && Harmless(End(ss), step)
    ensures Leads(ops, s, t, ss', steps') && ss' == ss + [s'] && steps' == steps + [step]
  {
    hide Takes, Harmless;
    ss', steps' := Further(ops, ss, steps, step, s');
  }

  function Told(s: State, t: nat): State
    requires t < |s.transfers| && s.transfers[t].attempt.Decided?
  {
    var x := s.transfers[t];
    s.(transfers := s.transfers[t := x.(attempt := Idle, told := x.told + {x.attempt.decision})])
  }

  lemma Tells(ops: Operations, s: State, t: nat, ss: seq<State>, steps: seq<Step>)
      returns (ss': seq<State>, steps': seq<Step>)
    requires Leads(ops, s, t, ss, steps) && Shaped(ops, End(ss)) && t < |ops| && End(ss).transfers[t].attempt.Decided?
    ensures Leads(ops, s, t, ss', steps') && End(ss') == Told(End(ss), t)
  {
    ss', steps' := Goes(ops, s, t, ss, steps, TellStep(t), Told(End(ss), t));
  }

  function Started(s: State, t: nat): State
    requires t < |s.transfers|
  {
    var x := s.transfers[t];
    s.(transfers := s.transfers[t := x.(attempt := if x.decision.Some? then Decided(x.decision.value)
        else Asking(map[]))])
  }

  lemma StartsAgain(ops: Operations, s: State, t: nat, ss: seq<State>, steps: seq<Step>)
      returns (ss': seq<State>, steps': seq<Step>)
    requires Leads(ops, s, t, ss, steps) && Shaped(ops, End(ss)) && t < |ops| && !End(ss).transfers[t].complete
    ensures Leads(ops, s, t, ss', steps') && End(ss') == Started(End(ss), t)
  {
    ss', steps' := Goes(ops, s, t, ss, steps, StartStep(t), Started(End(ss), t));
  }

  /** An execution in which everybody but those in todo has voted yes, and those in todo will. */
  ghost predicate Halfway(ops: Operations, s: State, t: nat, x: Transfer, todo: set<nat>) {
    && Shaped(ops, s) && t < |ops| && todo <= ops[t].Keys
    && s.transfers[t].attempt.Asking? && s.transfers[t] == x.(attempt := s.transfers[t].attempt)
       && ops[t].Keys !! x.purged
    && (forall a :: a in ops[t] && a !in todo ==> a in s.transfers[t].attempt.replies
                                                  && s.transfers[t].attempt.replies[a] == Vote(true))
    && (forall a :: a in todo ==> VotesYes(ops, s, t, a))
  }

  lemma AsksOne(ops: Operations, s: State, t: nat, x: Transfer, todo: set<nat>, a: nat) returns (s': State)
    requires Halfway(ops, s, t, x, todo) && a in todo
    ensures Ask(ops, s, t, a, false, s') && Halfway(ops, s', t, x, todo - {a})
  {
    var c, y := s.accounts[a], s.transfers[t];
    s' := s.(accounts := s.accounts[a := c.Prepare(t, ops[t][a])],
             transfers := s.transfers[t := y.(attempt :=
                 Asking(y.attempt.replies[a := ReplyTo(c.Recalled(), t, ops[t][a])]))]);
  }

  lemma {:induction false} AsksAll(ops: Operations, s: State, t: nat, ss: seq<State>, steps: seq<Step>, x: Transfer,
                                   todo: set<nat>)
    returns (ss': seq<State>, steps': seq<Step>)
    requires Leads(ops, s, t, ss, steps) && Halfway(ops, End(ss), t, x, todo)
    ensures Leads(ops, s, t, ss', steps') && Halfway(ops, End(ss'), t, x, {})
    decreases todo
  {
    ss', steps' := ss, steps;
    if todo != {} {
      var a :| a in todo;
      var s' := AsksOne(ops, End(ss), t, x, todo, a);
      hide Halfway, Ask;
      ss', steps' := Goes(ops, s, t, ss, steps, AskStep(t, a, false), s');
      ss', steps' := AsksAll(ops, s, t, ss', steps', x, todo - {a});
    }
  }

  lemma DecidesYes(ops: Operations, s: State, t: nat, ss: seq<State>, steps: seq<Step>, x: Transfer)
      returns (ss': seq<State>, steps': seq<Step>)
    requires Leads(ops, s, t, ss, steps) && Halfway(ops, End(ss), t, x, {})
    ensures Leads(ops, s, t, ss', steps') && Shaped(ops, End(ss'))
    ensures End(ss').transfers[t] == x.(attempt := Decided(true), decision := Some(true))
  {
    var e := End(ss);
    var s' := e.(transfers := e.transfers[t := e.transfers[t].(attempt := Decided(true), decision := Some(true))]);
    assert MaySave(ops, t, e.transfers[t].attempt.replies, Some(true));
    ss', steps' := Goes(ops, s, t, ss, steps, DecideStep(t), s');
  }

  /** The execution that threw tells its refusal; the next one finds the saved yes. */
  lemma SavedYesSplits(ops: Operations, s: State, t: nat)
    requires Shaped(ops, s) && t < |ops| && s.transfers[t].attempt == Decided(false)
    requires s.transfers[t].decision == Some(true) && !s.transfers[t].complete
    ensures CanTellBoth(ops, s, t)
  {
    var ss, steps: seq<Step> := [s], [];
    ss, steps := Tells(ops, s, t, ss, steps);
    ss, steps := StartsAgain(ops, s, t, ss, steps);
    ss, steps := Tells(ops, s, t, ss, steps);
    hide Leads;
    assert End(ss).transfers[t].told == s.transfers[t].told + {false} + {true};
    assert forall d: bool :: d in End(ss).transfers[t].told <==> d in {true, false};
  }

  /** The execution that threw tells its refusal; everybody votes yes in the next one. */
  lemma AllVoteYesSplits(ops: Operations, s: State, t: nat)
    requires Shaped(ops, s) && t < |ops| && s.transfers[t].attempt == Decided(false)
    requires s.transfers[t].decision.None? && !s.transfers[t].complete && ops[t].Keys !! s.transfers[t].purged
    requires forall a :: a in ops[t] ==> VotesYes(ops, s, t, a)
    ensures CanTellBoth(ops, s, t)
  {
    var ss, steps: seq<Step> := [s], [];
    ss, steps := Tells(ops, s, t, ss, steps);
    ss, steps := StartsAgain(ops, s, t, ss, steps);
    hide Leads;
    var x := End(ss).transfers[t];
    assert Halfway(ops, End(ss), t, x, ops[t].Keys);
    ss, steps := AsksAll(ops, s, t, ss, steps, x, ops[t].Keys);
    ss, steps := DecidesYes(ops, s, t, ss, steps, x);
    ss, steps := Tells(ops, s, t, ss, steps);
    assert End(ss).transfers[t].told == s.transfers[t].told + {false} + {true};
    assert forall d: bool :: d in End(ss).transfers[t].told <==> d in {true, false};
  }

  lemma FailShape(ops: Operations, s: State, t: nat, s': State)
    requires Inv(ops, s) && Fail(ops, s, t, s')
    ensures Inv(ops, s') && s'.transfers[t].attempt == Decided(false) && true !in s'.transfers[t].told
    ensures !s'.transfers[t].complete ==> ops[t].Keys !! s'.transfers[t].purged
    ensures s'.transfers[t].decision != Some(true) ==> !Yes(s'.transfers[t])
  {
    StepKeeps(ops, s, FailStep(t), s');
    assert Decisions(ops, s, t) && Decisions(ops, s', t);
    forall a | a in ops[t] ensures a in s'.transfers[t].purged ==> s'.transfers[t].complete {
      assert Records(ops, s', t, a);
    }
  }

  /**
   * After an execution of startTxn threw, the transfer alone can still tell both decisions if and only if it is not
   * complete and either its yes was saved, or nothing was and every participant has no record of it and can afford
   * its part.
   */
  lemma BothToldIff(ops: Operations, s: State, t: nat, s': State)
    requires Inv(ops, s) && Fail(ops, s, t, s')
    ensures var x := s'.transfers[t];
            CanTellBoth(ops, s', t) <==>
              !x.complete && (x.decision == Some(true)
                              || (x.decision.None? && forall a :: a in ops[t] ==> VotesYes(ops, s', t, a)))
  {
    FailShape(ops, s, t, s');
    var x := s'.transfers[t];
    assert Shaped(ops, s') && t < |ops|;
    hide Fail;
    if !x.complete && x.decision == Some(true) {
      SavedYesSplits(ops, s', t);
    } else if !x.complete && x.decision.None? && forall a :: a in ops[t] ==> VotesYes(ops, s', t, a) {
      AllVoteYesSplits(ops, s', t);
    } else {
      if !x.complete && x.decision != Some(false) {
        ThreeWays(x.decision);
        var a :| a in ops[t] && !VotesYes(ops, s', t, a);
      }
      RuledAfterFail(ops, s', t);
      hide Inv, Ruled;
      if CanTellBoth(ops, s', t) {
        var ss, steps :| Leads(ops, s', t, ss, steps) && t < |End(ss).transfers|
        && End(ss).transfers[t].told == {true, false};
        RuledForGood(ops, s', t, ss, steps, |steps|);
        RuledTold(ops, End(ss), t);
      }
    }
  }

  lemma ThreeWays(d: Option<bool>)
    ensures d == None || d == Some(true) || d == Some(false)
  {
    if d.Some? {
      if d.value { assert d == Some(true); } else { assert d == Some(false); }
    }
  }

  lemma RuledAfterFail(ops: Operations, s: State, t: nat)
    requires Inv(ops, s) && t < |ops| && s.transfers[t].attempt == Decided(false) && true !in s.transfers[t].told
    requires s.transfers[t].decision != Some(true) ==> !Yes(s.transfers[t])
    requires s.transfers[t].complete || s.transfers[t].decision == Some(false)
             || (s.transfers[t].decision.None? && exists a :: a in ops[t] && !VotesYes(ops, s, t, a))
    ensures Ruled(ops, s, t)
  {
    if !s.transfers[t].complete && s.transfers[t].decision.None? {
      var a :| a in ops[t] && !VotesYes(ops, s, t, a);
      assert Books(ops, s, a);
      hide Inv, Books;
      assert Hopeless(ops, s, t, a);
    }
  }

  // ----- over every run -----

  /**
   * Once a participant has a record that the current execution did not read as a yes, and no yes was decided, none ever
   * is.
   */
  lemma {:induction false} RecordRulesOutYes(ops: Operations, ss: seq<State>, steps: seq<Step>, j: nat, k: nat,
                                             t: nat, a: nat)
    requires Run(ops, ss, steps) && Safe(ss, steps) && j <= k < |ss|
    requires Hopeless(ops, ss[j], t, a) && HasRecord(ss[j], t, a)
    ensures Hopeless(ops, ss[k], t, a) && HasRecord(ss[k], t, a) && ss[k].transfers[t].told != {true, false}
  {
    if j < k {
      RecordRulesOutYes(ops, ss, steps, j, k - 1, t, a);
      RunInv(ops, ss, steps, k - 1);
      assert Books(ops, ss[k - 1], a);
      assert Takes(ops, ss[k - 1], steps[k - 1], ss[k - 1 + 1]) && Harmless(ss[k - 1], steps[k - 1]);
      hide Inv, Takes, Harmless, Starts;
      HopelessStep(ops, ss[k - 1], steps[k - 1], ss[k], t, a);
      RecordKept(ops, ss[k - 1], steps[k - 1], ss[k], t, a);
    }
    hide Path, Starts, Barred;
    assert true !in ss[k].transfers[t].told;
  }
}
