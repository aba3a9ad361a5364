/** What the transfers guarantee over every run. */
module BankGuarantees {
  import opened Options
  import opened Bank
  import opened BankProtocol
  import opened BankSteps

  lemma InitialSums(ops: Operations, a: nat, n: nat)
    ensures PendingDebits(ops, Activated(EMPTY), a, n) == 0 && PendingCredits(ops, Activated(EMPTY), a, n) == 0
    ensures Moved(ops, map[], a, n) == 0
  {
  }

  lemma {:induction false} RunInv(ops: Operations, ss: seq<State>, steps: seq<Step>, k: nat)
    requires Run(ops, ss, steps) && Safe(ss, steps) && k < |ss|
    ensures Inv(ops, ss[k])
  {
    if k == 0 {
      forall a: nat { InitialSums(ops, a, |ops|); }
    } else {
      RunInv(ops, ss, steps, k - 1);
      assert Takes(ops, ss[k - 1], steps[k - 1], ss[k - 1 + 1]);
      assert Harmless(ss[k - 1], steps[k - 1]);
      StepKeeps(ops, ss[k - 1], steps[k - 1], ss[k]);
    }
  }

  /** Debits and credits are what prepared, uncommitted transactions reserve, and the available balance is positive. */
  lemma ReservationsAreExact(ops: Operations, ss: seq<State>, steps: seq<Step>, k: nat, a: nat)
    requires Run(ops, ss, steps) && Safe(ss, steps) && k < |ss| && a < |ss[k].accounts|
    ensures var c := ss[k].accounts[a].account;
            && c.debits == PendingDebits(ops, c, a, |ops|) && c.credits == PendingCredits(ops, c, a, |ops|)
            && c.balance - c.debits > 0
  {
    RunInv(ops, ss, steps, k);
    assert Books(ops, ss[k], a);
  }

  /**
   * A commit that an account applied already, even if it dropped its records since, moves no money and no reservation.
   */
  lemma DuplicateCommitIsHarmless(ops: Operations, ss: seq<State>, steps: seq<Step>, k: nat, b: nat)
    requires Run(ops, ss, steps) && Safe(ss, steps) && k < |steps| && steps[k].CommitStep? && b < |ss[k].accounts|
    requires steps[k].a < |ss[k].applied| && steps[k].t in ss[k].applied[steps[k].a]
    ensures b < |ss[k + 1].accounts| && ss[k + 1].applied == ss[k].applied
    ensures var c, c' := ss[k].accounts[b].account, ss[k + 1].accounts[b].account;
            c'.balance == c.balance && c'.debits == c.debits && c'.credits == c.credits
  {
    RunInv(ops, ss, steps, k);
    assert Takes(ops, ss[k], steps[k], ss[k + 1]);
    assert Records(ops, ss[k], steps[k].t, steps[k].a);
  }

  /** Participants a and b of transfer t have applied different decisions. */
  predicate Disagree(ops: Operations, s: State, t: nat, a: nat, b: nat) {
    && t < |ops| && a in ops[t] && b in ops[t] && a < |s.applied| && b < |s.applied|
    && t in s.applied[a] && t in s.applied[b] && s.applied[a][t] != s.applied[b][t]
  }

  /**
   * Participants disagree only if both decisions were told, and both are told only if an execution threw after all had
   * voted yes.
   */
  lemma OneDecision(ops: Operations, ss: seq<State>, steps: seq<Step>, k: nat, t: nat, a: nat, b: nat)
    requires Run(ops, ss, steps) && Safe(ss, steps) && k < |ss| && t < |ops| && t < |ss[k].transfers|
    ensures Disagree(ops, ss[k], t, a, b) ==> ss[k].transfers[t].told == {true, false}
    ensures ss[k].transfers[t].told == {true, false} ==> ss[k].transfers[t].failed
                                                         && ss[k].transfers[t].decision == Some(true)
  {
    RunInv(ops, ss, steps, k);
    assert Decisions(ops, ss[k], t);
    if Disagree(ops, ss[k], t, a, b) {
      assert Records(ops, ss[k], t, a) && Records(ops, ss[k], t, b);
      assert forall d: bool :: d in ss[k].transfers[t].told <==> d in {true, false};
    }
  }

  /** A complete transfer has been applied, with one decision, by every participant. */
  lemma CompleteMeansApplied(ops: Operations, ss: seq<State>, steps: seq<Step>, k: nat, t: nat, a: nat)
    requires Run(ops, ss, steps) && Safe(ss, steps) && k < |ss| && t < |ops| && t < |ss[k].transfers|
             && ss[k].transfers[t].complete && a in ops[t]
    ensures a < |ss[k].applied| && t in ss[k].applied[a]
  {
    RunInv(ops, ss, steps, k);
    assert Records(ops, ss[k], t, a);
  }

  // ----- conservation -----

  function Total(accounts: seq<Actor>): int {
    if accounts == [] then 0 else Total(accounts[..|accounts| - 1]) + accounts[|accounts| - 1].account.balance
  }

  /** The sum of what transaction t moves into the first n accounts. */
  function Net(ops: Operations, t: nat, n: nat): int {
    if n == 0 then 0 else Net(ops, t, n - 1) + Amount(ops, t, n - 1)
  }

  function AllMoved(ops: Operations, applied: seq<map<nat, bool>>, n: nat): int {
    if applied == [] then 0 else
      AllMoved(ops, applied[..|applied| - 1], n) + Moved(ops, applied[|applied| - 1], |applied| - 1, n)
  }

  function MovedBy(ops: Operations, applied: seq<map<nat, bool>>, t: nat): int {
    if applied == [] then 0 else
      var a := |applied| - 1;
      MovedBy(ops, applied[..a], t) + if t in applied[a] && applied[a][t] then Amount(ops, t, a) else 0
  }

  lemma {:induction false} SplitLast(ops: Operations, applied: seq<map<nat, bool>>, n: nat)
    ensures AllMoved(ops, applied, n + 1) == AllMoved(ops, applied, n) + MovedBy(ops, applied, n)
  {
    if applied != [] { SplitLast(ops, applied[..|applied| - 1], n); }
  }

  /** Every account named by t applied it, or none did. */
  ghost predicate AllOrNone(ops: Operations, applied: seq<map<nat, bool>>, t: nat) {
    || (forall a :: 0 <= a < |applied| && Amount(ops, t, a) != 0 ==> t in applied[a] && applied[a][t])
    || (forall a :: 0 <= a < |applied| && Amount(ops, t, a) != 0 ==> !(t in applied[a] && applied[a][t]))
  }

  lemma {:induction false} NetEffect(ops: Operations, applied: seq<map<nat, bool>>, t: nat)
    ensures (forall a :: 0 <= a < |applied| && Amount(ops, t, a) != 0 ==> t in applied[a] && applied[a][t]) ==>
              MovedBy(ops, applied, t) == Net(ops, t, |applied|)
    ensures (forall a :: 0 <= a < |applied| && Amount(ops, t, a) != 0 ==> !(t in applied[a] && applied[a][t])) ==>
              MovedBy(ops, applied, t) == 0
  {
    if applied != [] { NetEffect(ops, applied[..|applied| - 1], t); }
  }

  lemma {:induction false} NothingMoved(ops: Operations, applied: seq<map<nat, bool>>, n: nat)
    requires forall t :: 0 <= t < n ==> AllOrNone(ops, applied, t) && Net(ops, t, |applied|) == 0
    ensures AllMoved(ops, applied, n) == 0
  {
    if n == 0 {
      NoTransactions(ops, applied);
    } else {
      NothingMoved(ops, applied, n - 1);
      SplitLast(ops, applied, n - 1);
      NetEffect(ops, applied, n - 1);
      assert AllOrNone(ops, applied, n - 1);
    }
  }

  lemma {:induction false} NoTransactions(ops: Operations, applied: seq<map<nat, bool>>)
    ensures AllMoved(ops, applied, 0) == 0
  {
    if applied != [] { NoTransactions(ops, applied[..|applied| - 1]); }
  }

  lemma {:induction false} TotalIsMoved(ops: Operations, accounts: seq<Actor>, applied: seq<map<nat, bool>>, n: nat)
    requires |accounts| == |applied|
    requires forall a :: 0 <= a < |accounts| ==> accounts[a].account.balance == 5000 + Moved(ops, applied[a], a, n)
    ensures Total(accounts) == 5000 * |accounts| + AllMoved(ops, applied, n)
  {
    if accounts != [] {
      TotalIsMoved(ops, accounts[..|accounts| - 1], applied[..|applied| - 1], n);
    }
  }

  /** Transfer t is over and told one decision, or no participant has heard its decision. */
  ghost predicate Settled(ops: Operations, s: State, t: nat)
    requires Shaped(ops, s) && t < |ops|
  {
    (s.transfers[t].complete && s.transfers[t].told != {true, false}) || forall a :: a in ops[t] ==> t !in s.applied[a]
  }

  lemma SettledIsAllOrNone(ops: Operations, ss: seq<State>, steps: seq<Step>, k: nat, t: nat)
    requires Run(ops, ss, steps) && Safe(ss, steps) && k < |ss| && t < |ops| && Shaped(ops, ss[k])
             && Settled(ops, ss[k], t)
    ensures AllOrNone(ops, ss[k].applied, t)
  {
    var s := ss[k];
    RunInv(ops, ss, steps, k);
    if a :| 0 <= a < |s.applied| && Amount(ops, t, a) != 0 && t in s.applied[a] && s.applied[a][t] {
      assert s.transfers[t].complete && s.transfers[t].told != {true, false};
      forall b | 0 <= b < |s.applied| && Amount(ops, t, b) != 0 ensures t in s.applied[b] && s.applied[b][t] {
        CompleteMeansApplied(ops, ss, steps, k, t, b);
        OneDecision(ops, ss, steps, k, t, a, b);
        assert !Disagree(ops, s, t, a, b);
      }
    }
  }

  /** Transfers that each sum to zero conserve the total balance, whenever they are all settled. */
  lemma TotalIsConserved(ops: Operations, ss: seq<State>, steps: seq<Step>, k: nat)
    requires Run(ops, ss, steps) && Safe(ss, steps) && k < |ss| && Shaped(ops, ss[k])
    requires forall t :: 0 <= t < |ops| ==> Settled(ops, ss[k], t) && Net(ops, t, |ss[k].accounts|) == 0
    ensures Total(ss[k].accounts) == 5000 * |ss[k].accounts|
  {
    RunInv(ops, ss, steps, k);
    forall t | 0 <= t < |ops| ensures AllOrNone(ops, ss[k].applied, t) {
      SettledIsAllOrNone(ops, ss, steps, k, t);
    }
    NothingMoved(ops, ss[k].applied, |ops|);
    forall a | 0 <= a < |ss[k].accounts| ensures ss[k].accounts[a].account.balance == 5000
        + Moved(ops, ss[k].applied[a], a, |ops|) {
      assert Books(ops, ss[k], a);
    }
    TotalIsMoved(ops, ss[k].accounts, ss[k].applied, |ops|);
  }
}
