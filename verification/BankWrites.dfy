/** What an account loses when it is reloaded: the writes of commits, which nobody waits for. */
module BankWrites {
  import opened Options
  import opened Bank
  import opened BankProtocol
  import opened BankSteps
  import opened BankGuarantees

  function CommittedOf(w: Saved): map<nat, bool> { if w.committed.Some? then w.committed.value else map[] }

  /** Every pending write knows more commits than the one before it. */
  predicate Growing(ws: seq<Saved>) {
    forall i, j :: 0 <= i < j < |ws| ==> CommittedOf(ws[i]).Keys < CommittedOf(ws[j]).Keys
  }

  predicate Tidy(x: Actor) { AllCommits(x.pending) && Growing(x.pending) && CatchesUp(x) }

  /** As long as a write is pending, a commit is missing from the saved state. */
  predicate Behind(x: Actor) { x.pending != [] ==> CommittedOf(x.saved).Keys < x.account.committed.Keys }

  /** The last pending write knows all commits. */
  lemma LastKnows(x: Actor)
    requires Tidy(x)
    ensures x.pending != [] ==> CommittedOf(x.pending[|x.pending| - 1]) == x.account.committed
    ensures x.pending == [] ==> x.InSync()
  {
    LastCounts(x.saved, x.pending);
  }

  // ----- one step -----

  lemma PrepareTidy(x: Actor, txn: nat, amount: int)
    requires Tidy(x)
    ensures var y := x.Prepare(txn, amount); CatchesUp(y) ==> Tidy(y) && (Behind(x) ==> Behind(y))
    ensures x.Prepare(txn, amount).pending == x.pending
  {
    LastCounts(x.saved, x.pending);
  }

  lemma CommitTidy(x: Actor, txn: nat, decision: bool, amount: int)
    requires Tidy(x) && (txn in x.account.committed ==> txn in x.account.prepared)
    requires x.Commit(txn, decision, amount).account.balance != 0
    ensures var y := x.Commit(txn, decision, amount);
            && AllCommits(y.pending)
            && (CatchesUp(y) <==> x.pending == [] || txn in x.account.prepared)
            && (CatchesUp(y) ==> Tidy(y) && (Behind(x) ==> Behind(y)))
  {
    CommitCatchesUpIff(x, txn, decision, amount);
    LastKnows(x);
    if x.Uncommitted(txn) {
      assert x.account.committed.Keys < x.account.committed[txn := decision].Keys;
    }
  }

  lemma LandTidy(x: Actor, i: nat)
    requires Tidy(x) && i < |x.pending|
    ensures AllCommits(x.Landed(i).pending)
    ensures CatchesUp(x.Landed(i)) <==> i == 0 || i + 1 < |x.pending|
    ensures CatchesUp(x.Landed(i)) ==> Tidy(x.Landed(i)) && Behind(x.Landed(i))
  {
    LandCatchesUpIff(x, i);
    LastKnows(x);
    if 0 < i == |x.pending| - 1 {
      assert CommittedOf(x.Landed(i - 1).saved).Keys < x.account.committed.Keys;
    }
  }

  /** An account after a step that keeps or breaks the order of its writes. */
  predicate Settles(x: Actor, y: Actor, ordered: bool) {
    AllCommits(y.pending) && (CatchesUp(y) <==> ordered) && (ordered ==> Tidy(y))
  }

  /** No purge finds a write of account a pending. */
  predicate Waits(s: State, step: Step, a: nat) {
    step.PurgeStep? && step.a == a && a < |s.accounts| ==> s.accounts[a].pending == []
  }

  lemma CommitOrder(ops: Operations, s: State, t: nat, a: nat, decision: bool, s': State)
    requires Inv(ops, s) && Commit(ops, s, t, a, decision, s') && Tidy(s.accounts[a])
    ensures Settles(s.accounts[a], s'.accounts[a], InOrder(ops, s, CommitStep(t, a, decision)))
    ensures InOrder(ops, s, CommitStep(t, a, decision)) && Behind(s.accounts[a]) ==> Behind(s'.accounts[a])
  {
    CommitKeeps(ops, s, t, a, decision, s');
    assert Books(ops, s', a) && Records(ops, s, t, a);
    hide Inv, Tidy, Behind;
    CommitTidy(s.accounts[a], t, decision, ops[t][a]);
  }

  lemma AskOrder(ops: Operations, s: State, t: nat, a: nat, late: bool, s': State)
    requires Ask(ops, s, t, a, late, s') && Tidy(s.accounts[a])
    ensures Settles(s.accounts[a], s'.accounts[a], InOrder(ops, s, AskStep(t, a, late)))
    ensures InOrder(ops, s, AskStep(t, a, late)) && Behind(s.accounts[a]) ==> Behind(s'.accounts[a])
  {
    PrepareCatchesUpIff(s.accounts[a], t, ops[t][a]);
    PrepareTidy(s.accounts[a], t, ops[t][a]);
    hide Behind, CatchesUp;
  }

  lemma PurgeOrder(ops: Operations, s: State, t: nat, a: nat, s': State)
    requires Purge(ops, s, t, a, s') && Tidy(s.accounts[a])
    ensures Settles(s.accounts[a], s'.accounts[a], InOrder(ops, s, PurgeStep(t, a)))
  {
    PurgeCatchesUpIff(s.accounts[a], t);
  }

  /** Only an orderly step leaves an account that catches up. */
  lemma OrderIff(ops: Operations, s: State, step: Step, s': State, a: nat)
    requires Inv(ops, s) && Takes(ops, s, step, s') && a < |s.accounts| && Of(step, a) && Tidy(s.accounts[a])
    ensures a < |s'.accounts| && Settles(s.accounts[a], s'.accounts[a], InOrder(ops, s, step))
    ensures InOrder(ops, s, step) && Waits(s, step, a) && Behind(s.accounts[a]) ==> Behind(s'.accounts[a])
  {
    hide Inv, Tidy, Behind, Settles, InOrder;
    match step
    case AskStep(t, _, late) => AskOrder(ops, s, t, a, late, s');
    case CommitStep(t, _, decision) => CommitOrder(ops, s, t, a, decision, s');
    case PurgeStep(t, _) => PurgeOrder(ops, s, t, a, s'); NothingBehind(s'.accounts[a]);
    case ReloadStep(_) => ReloadOrder(ops, s, a, s');
    case LandStep(_, i) => LandOrder(ops, s, a, i, s');
  }

  lemma NothingBehind(x: Actor)
    ensures x.pending == [] ==> Behind(x)
  {
  }

  lemma ReloadOrder(ops: Operations, s: State, a: nat, s': State)
    requires Reload(ops, s, a, s') && Tidy(s.accounts[a])
    ensures Settles(s.accounts[a], s'.accounts[a], InOrder(ops, s, ReloadStep(a)))
    ensures InOrder(ops, s, ReloadStep(a)) ==> s'.accounts[a] == s.accounts[a]
  {
    ReloadCatchesUpIff(s.accounts[a]);
  }

  lemma LandOrder(ops: Operations, s: State, a: nat, i: nat, s': State)
    requires Land(ops, s, a, i, s') && Tidy(s.accounts[a])
    ensures Settles(s.accounts[a], s'.accounts[a], InOrder(ops, s, LandStep(a, i)))
    ensures InOrder(ops, s, LandStep(a, i)) ==> Behind(s'.accounts[a])
  {
    LandTidy(s.accounts[a], i);
    hide Behind, CatchesUp;
  }

  // ----- runs -----

  lemma {:induction false} OrderlyInv(ops: Operations, ss: seq<State>, steps: seq<Step>, k: nat, a: nat)
    requires Run(ops, ss, steps) && Orderly(ops, ss, steps) && k < |ss| && a < |ss[0].accounts|
    ensures Safe(ss, steps) && |ss[k].accounts| == |ss[0].accounts| && Tidy(ss[k].accounts[a])
    ensures (forall j :: 0 <= j < k ==> Waits(ss[j], steps[j], a)) ==> Behind(ss[k].accounts[a])
  {
    OrderlyIsSafe(ops, ss, steps);
    if k > 0 {
      OrderlyInv(ops, ss, steps, k - 1, a);
      RunInv(ops, ss, steps, k - 1);
      var s, step, s' := ss[k - 1], steps[k - 1], ss[k];
      assert Takes(ops, s, step, ss[k - 1 + 1]) && InOrder(ops, s, step);
      hide Inv, Takes, InOrder, Tidy, Behind, Starts;
      if Of(step, a) {
        OrderIff(ops, s, step, s', a);
        SameSize(ops, s, step, s');
      } else {
        NotOf(ops, s, step, s', a);
      }
    }
  }

  lemma OrderlyIsSafe(ops: Operations, ss: seq<State>, steps: seq<Step>)
    requires Orderly(ops, ss, steps)
    ensures Safe(ss, steps)
  {
  }

  /**
   * As long as writes are in order, reloading an account without pending writes gives the state it has; and one with
   * pending writes does not, unless a purge saved its records before they landed.
   */
  lemma ReloadIsHarmlessIff(ops: Operations, ss: seq<State>, steps: seq<Step>, k: nat, a: nat)
    requires Run(ops, ss, steps) && Orderly(ops, ss, steps) && k < |ss| && a < |ss[k].accounts|
    ensures ss[k].accounts[a].pending == [] ==> ss[k].accounts[a].Reloaded() == ss[k].accounts[a]
    ensures (forall j :: 0 <= j < k ==> Waits(ss[j], steps[j], a)) ==>
              (ss[k].accounts[a].Reloaded() == ss[k].accounts[a] <==> ss[k].accounts[a].pending == [])
  {
    FewAccounts(ops, ss, steps, k);
    OrderlyInv(ops, ss, steps, k, a);
    LastKnows(ss[k].accounts[a]);
  }

  lemma {:induction false} FewAccounts(ops: Operations, ss: seq<State>, steps: seq<Step>, k: nat)
    requires Run(ops, ss, steps) && k < |ss|
    ensures |ss[k].accounts| == |ss[0].accounts|
  {
    if k > 0 {
      FewAccounts(ops, ss, steps, k - 1);
      assert Takes(ops, ss[k - 1], steps[k - 1], ss[k - 1 + 1]);
      hide Takes, Starts;
      SameSize(ops, ss[k - 1], steps[k - 1], ss[k]);
    }
  }

  lemma Shorter(ops: Operations, ss: seq<State>, steps: seq<Step>)
    requires Run(ops, ss, steps) && steps != []
    ensures Run(ops, ss[..|steps|], steps[..|steps| - 1]) && Takes(ops, ss[|steps| - 1], steps[|steps| - 1], End(ss))
  {
    hide Takes, Starts;
    var n := |steps| - 1;
    forall k | 0 <= k < n ensures Takes(ops, ss[..n + 1][k], steps[..n][k], ss[..n + 1][k + 1]) {
      assert Takes(ops, ss[k], steps[k], ss[k + 1]);
    }
    assert Takes(ops, ss[n], steps[n], ss[n + 1]);
  }

  /** When the write of a commit lands before the account does anything else, writes are in order. */
  lemma {:induction false} PromptIsOrderly(ops: Operations, ss: seq<State>, steps: seq<Step>)
    requires Run(ops, ss, steps) && Prompt(ss, steps)
    ensures Orderly(ops, ss, steps) && forall a :: 0 <= a < |End(ss).accounts| ==> |End(ss).accounts[a].pending| <= 1
    decreases |steps|
  {
    if steps != [] {
      var n := |steps| - 1;
      var s, step, s' := ss[n], steps[n], ss[n + 1];
      Shorter(ops, ss, steps);
      var ss0, steps0 := ss[..n + 1], steps[..n];
      assert Prompt(ss0, steps0);
      PromptIsOrderly(ops, ss0, steps0);
      assert End(ss0) == s;
      assert InOrder(ops, s, step) by { PromptInOrder(ops, ss0, steps0, step, s'); }
      forall k | 0 <= k < |steps| ensures InOrder(ops, ss[k], steps[k]) {
        if k < n { assert InOrder(ops, ss0[k], steps0[k]); }
      }
      hide InOrder, Takes, Orderly, Prompt;
      SameSize(ops, s, step, s');
      forall a | 0 <= a < |s'.accounts| ensures |s'.accounts[a].pending| <= 1 {
        OnePending(ops, s, step, s', a);
      }
    }
  }

  lemma OnePending(ops: Operations, s: State, step: Step, s': State, a: nat)
    requires Takes(ops, s, step, s') && a < |s.accounts| && |s.accounts[a].pending| <= 1
    requires Touches(step, a) ==> s.accounts[a].pending == []
    ensures a < |s'.accounts| && |s'.accounts[a].pending| <= 1
  {
    if !Of(step, a) { NotOf(ops, s, step, s', a); }
  }

  lemma PromptInOrder(ops: Operations, ss: seq<State>, steps: seq<Step>, step: Step, s': State)
    requires Run(ops, ss, steps) && Orderly(ops, ss, steps) && Takes(ops, End(ss), step, s')
    requires forall a: nat :: a < |End(ss).accounts| && Touches(step, a) ==> End(ss).accounts[a].pending == []
    requires forall a :: 0 <= a < |End(ss).accounts| ==> |End(ss).accounts[a].pending| <= 1
    ensures InOrder(ops, End(ss), step)
  {
    if step.ReloadStep? && step.a < |End(ss).accounts| {
      assert Touches(step, step.a);
      ReloadIsHarmlessIff(ops, ss, steps, |steps|, step.a);
    }
  }

  /** Then no reload finds the saved state behind. */
  lemma PromptIsSafe(ops: Operations, ss: seq<State>, steps: seq<Step>)
    requires Run(ops, ss, steps) && Prompt(ss, steps)
    ensures Safe(ss, steps)
  {
    PromptIsOrderly(ops, ss, steps);
    OrderlyIsSafe(ops, ss, steps);
  }

  // ----- the order is needed -----

  lemma LandFirst(x: Actor)
    requires AllCommits(x.pending) && x.pending != []
    ensures AllCommits(x.Landed(0).pending) && |x.Landed(0).pending| == |x.pending| - 1
    ensures CatchesUp(x.Landed(0)) <==> CatchesUp(x)
  {
    LastCounts(x.saved, x.pending);
    LastCounts(x.Landed(0).saved, x.Landed(0).pending);
    assert x.Landed(0).pending == x.pending[1..];
  }

  /** The pending writes of account a land, in order. */
  lemma {:induction false} LandAll(ops: Operations, ss: seq<State>, steps: seq<Step>, a: nat)
      returns (ss': seq<State>, steps': seq<Step>)
    requires Path(ops, ss, steps) && Shaped(ops, End(ss)) && a < |End(ss).accounts|
             && AllCommits(End(ss).accounts[a].pending)
    ensures Path(ops, ss', steps') && ss <= ss' && steps <= steps' && forall k :: |steps| <= k < |steps'| ==>
            steps'[k].LandStep?
    ensures a < |End(ss').accounts| && End(ss').accounts[a].pending == []
    ensures End(ss').accounts[a].InSync() <==> CatchesUp(End(ss).accounts[a])
    decreases |End(ss).accounts[a].pending|
  {
    var s := End(ss);
    var x := s.accounts[a];
    if x.pending == [] {
      ss', steps' := ss, steps;
    } else {
      LandFirst(x);
      var s' := s.(accounts := s.accounts[a := x.Landed(0)]);
      ss', steps' := Further(ops, ss, steps, LandStep(a, 0), s');
      hide Takes, CatchesUp;
      ss', steps' := LandAll(ops, ss', steps', a);
    }
  }

  /**
   * A step out of order is not made up for: once the pending writes have landed, in order, nothing is pending and yet a
   * reload changes the account.
   */
  lemma OrderIsNeeded(ops: Operations, ss: seq<State>, steps: seq<Step>)
      returns (ss': seq<State>, steps': seq<Step>, a: nat)
    requires Run(ops, ss, steps) && steps != [] && Orderly(ops, ss, steps[..|steps| - 1])
    requires !InOrder(ops, ss[|steps| - 1], steps[|steps| - 1])
    ensures Run(ops, ss', steps') && ss <= ss' && steps <= steps' && forall k :: |steps| <= k < |steps'| ==>
            steps'[k].LandStep?
    ensures a < |End(ss').accounts| && End(ss').accounts[a].pending == []
            && End(ss').accounts[a].Reloaded() != End(ss').accounts[a]
  {
    var n := |steps| - 1;
    var s, step := ss[n], steps[n];
    Shorter(ops, ss, steps);
    a := step.a;
    var ss0, steps0 := ss[..n + 1], steps[..n];
    assert Orderly(ops, ss0, steps0) by {
      forall k | 0 <= k < n ensures InOrder(ops, ss0[k], steps0[k]) { assert InOrder(ops, ss[k], steps[..n][k]); }
    }
    assert a < |s.accounts| && Of(step, a);
    hide InOrder;
    FewAccounts(ops, ss0, steps0, n);
    OrderlyInv(ops, ss0, steps0, n, a);
    RunInv(ops, ss0, steps0, n);
    OrderIff(ops, s, step, End(ss), a);
    SameSize(ops, s, step, End(ss));
    hide Inv, Takes, Starts, CatchesUp;
    ss', steps' := LandAll(ops, ss, steps, a);
  }
}
