/**
 * Money transfers over accounts: any number of transactions, each over any accounts, with every method re-executed
 * after a crash. Transaction t moves ops[t][a] into account a.
 */
module BankProtocol {
  import opened Options
  import opened Bank

  /** Where an execution of startTxn is: it has collected some replies, or it knows what to tell the participants. */
  datatype Attempt = Idle | Asking(replies: map<nat, Reply>) | Decided(decision: bool)

  /**
   * A MoneyTransfer: the decision it saved, the decisions it told participants to apply, and who dropped its records.
   */
  datatype Transfer = Transfer(attempt: Attempt, decision: Option<bool>, told: set<bool>, complete: bool,
                               purged: set<nat>, failed: bool)

  type Operations = seq<map<nat, int>>

  datatype State = State(
    accounts: seq<Actor>,
    transfers: seq<Transfer>,
    applied: seq<map<nat, bool>>)  // history: the decision each account applied for a transaction

  predicate Shaped(ops: Operations, s: State) {
    && |s.transfers| == |ops| && |s.applied| == |s.accounts|
    && forall t, a :: 0 <= t < |ops| && a in ops[t] ==> a < |s.accounts|
  }

  predicate Part(ops: Operations, s: State, t: nat, a: nat) {
    Shaped(ops, s) && t < |ops| && a in ops[t]
  }

  // ----- steps -----

  /** startTxn runs, or runs again: a saved decision is told again, otherwise the participants are asked. */
  ghost predicate Start(ops: Operations, s: State, t: nat, s': State) {
    && Shaped(ops, s) && t < |ops| && !s.transfers[t].complete
    && var x := s.transfers[t];
       s' == s.(transfers := s.transfers[t := x.(attempt := if x.decision.Some? then Decided(x.decision.value)
           else Asking(map[]))])
  }

  /** Account a executes prepare. A request of an execution that crashed may be late: its reply is lost. */
  ghost predicate Ask(ops: Operations, s: State, t: nat, a: nat, late: bool, s': State) {
    && Part(ops, s, t, a) && a !in s.transfers[t].purged
    && (late || s.transfers[t].attempt.Asking?)
    && var x, c := s.transfers[t], s.accounts[a];
       s' == s.(accounts := s.accounts[a := c.Prepare(t, ops[t][a])],
                transfers := if late then s.transfers else
                  s.transfers[t := x.(attempt := Asking(x.attempt.replies[a := ReplyTo(c.Recalled(), t, ops[t][a])]))])
  }

  predicate AllVoteYes(ops: Operations, t: nat, replies: map<nat, Reply>)
    requires t < |ops|
  {
    forall a :: a in ops[t] ==> a in replies && replies[a] == Vote(true)
  }

  /**
   * All participants have replied and d is what is saved. A reply to a repeated prepare has no vote: read first among
   * the replies that are not a yes it makes the decision undefined, and then nothing is saved.
   */
  ghost predicate MaySave(ops: Operations, t: nat, replies: map<nat, Reply>, d: Option<bool>)
    requires t < |ops|
  {
    && ops[t].Keys <= replies.Keys
    && (d == Some(true) <==> AllVoteYes(ops, t, replies))
    && (d == Some(false) ==> exists a :: a in ops[t] && replies[a] == Vote(false))
    && (d == None ==> exists a :: a in ops[t] && replies[a].Recorded?)
  }

  ghost predicate Decide(ops: Operations, s: State, t: nat, s': State) {
    && Shaped(ops, s) && t < |ops| && s.transfers[t].attempt.Asking?
    && var x := s.transfers[t];
       exists d :: && MaySave(ops, t, x.attempt.replies, d)
                   && s' == s.(transfers := s.transfers[t := x.(attempt := Decided(d == Some(true)), decision := d)])
  }

  /** Something throws while the participants are asked or the decision is saved, possibly after it took effect. */
  ghost predicate Fail(ops: Operations, s: State, t: nat, s': State) {
    && Shaped(ops, s) && t < |ops| && s.transfers[t].attempt.Asking?
    && var x := s.transfers[t];
       exists d :: && (d == x.decision || MaySave(ops, t, x.attempt.replies, d))
                   && s' == s.(transfers := s.transfers[t :=
                       x.(attempt := Decided(false), decision := d, failed := true)])
  }

  ghost predicate Tell(ops: Operations, s: State, t: nat, s': State) {
    && Shaped(ops, s) && t < |ops| && s.transfers[t].attempt.Decided?
    && var x := s.transfers[t];
       s' == s.(transfers := s.transfers[t := x.(attempt := Idle, told := x.told + {x.attempt.decision})])
  }

  function Noted(applied: map<nat, bool>, t: nat, decision: bool): map<nat, bool> { applied[t := decision] }

  /** Account a executes commit, for the first time or again, even after it dropped its records. */
  ghost predicate Commit(ops: Operations, s: State, t: nat, a: nat, decision: bool, s': State) {
    && Part(ops, s, t, a) && decision in s.transfers[t].told
    && var c := s.accounts[a];
       s' == s.(accounts := s.accounts[a := c.Commit(t, decision, ops[t][a])],
                applied := if t in c.account.committed || a in s.transfers[t].purged then s.applied else
                  s.applied[a := Noted(s.applied[a], t, decision)])
  }

  /** Every participant has returned from commit. */
  ghost predicate Complete(ops: Operations, s: State, t: nat, s': State) {
    && Shaped(ops, s) && t < |ops|
    && (forall a :: a in ops[t] ==> t in s.applied[a])
    && s' == s.(transfers := s.transfers[t := s.transfers[t].(complete := true)])
  }

  ghost predicate Purge(ops: Operations, s: State, t: nat, a: nat, s': State) {
    && Part(ops, s, t, a) && s.transfers[t].complete
    && s' == s.(accounts := s.accounts[a := s.accounts[a].Purge(t)],
                transfers := s.transfers[t := s.transfers[t].(purged := s.transfers[t].purged + {a})])
  }

  /** An account is deactivated, or its process crashes, and is activated again. */
  ghost predicate Reload(ops: Operations, s: State, a: nat, s': State) {
    && Shaped(ops, s) && a < |s.accounts|
    && s' == s.(accounts := s.accounts[a := s.accounts[a].Reloaded()])
  }

  /** A write that a commit did not wait for reaches the store. */
  ghost predicate Land(ops: Operations, s: State, a: nat, i: nat, s': State) {
    && Shaped(ops, s) && a < |s.accounts| && i < |s.accounts[a].pending|
    && s' == s.(accounts := s.accounts[a := s.accounts[a].Landed(i)])
  }

  datatype Step =
    | StartStep(t: nat) | AskStep(t: nat, a: nat, late: bool) | DecideStep(t: nat) | FailStep(t: nat) | TellStep(t: nat)
    | CommitStep(t: nat, a: nat, decision: bool) | CompleteStep(t: nat) | PurgeStep(t: nat, a: nat) | ReloadStep(a: nat)
    | LandStep(a: nat, i: nat)

  ghost predicate Takes(ops: Operations, s: State, step: Step, s': State) {
    match step
    case StartStep(t) => Start(ops, s, t, s')
    case AskStep(t, a, late) => Ask(ops, s, t, a, late, s')
    case DecideStep(t) => Decide(ops, s, t, s')
    case FailStep(t) => Fail(ops, s, t, s')
    case TellStep(t) => Tell(ops, s, t, s')
    case CommitStep(t, a, decision) => Commit(ops, s, t, a, decision, s')
    case CompleteStep(t) => Complete(ops, s, t, s')
    case PurgeStep(t, a) => Purge(ops, s, t, a, s')
    case ReloadStep(a) => Reload(ops, s, a, s')
    case LandStep(a, i) => Land(ops, s, a, i, s')
  }

  ghost predicate Starts(ops: Operations, s: State) {
    && Shaped(ops, s)
    && (forall a :: 0 <= a < |s.accounts| ==> s.accounts[a] == New() && s.applied[a] == map[])
    && (forall t :: 0 <= t < |s.transfers| ==> s.transfers[t] == Transfer(Idle, None, {}, false, {}, false))
  }

  ghost predicate Path(ops: Operations, ss: seq<State>, steps: seq<Step>) {
    |ss| == |steps| + 1 && forall k :: 0 <= k < |steps| ==> Takes(ops, ss[k], steps[k], ss[k + 1])
  }

  ghost predicate Run(ops: Operations, ss: seq<State>, steps: seq<Step>) { Path(ops, ss, steps) && Starts(ops, ss[0]) }

  /** The last state of a path. */
  function End(ss: seq<State>): State
    requires ss != []
  {
    ss[|ss| - 1]
  }

  /** A path that goes one step further. */
  lemma Further(ops: Operations, ss: seq<State>, steps: seq<Step>, step: Step, s: State)
      returns (ss': seq<State>, steps': seq<Step>)
    requires Path(ops, ss, steps) && Takes(ops, End(ss), step, s)
    ensures Path(ops, ss', steps') && ss' == ss + [s] && steps' == steps + [step]
  {
    hide Takes;
    ss', steps' := ss + [s], steps + [step];
    forall k | 0 <= k < |steps'| ensures Takes(ops, ss'[k], steps'[k], ss'[k + 1]) {
      if k < |steps| { assert Takes(ops, ss[k], steps[k], ss[k + 1]); }
    }
  }

  /** No account is reloaded while its saved state lags behind its memory. */
  ghost predicate Safe(ss: seq<State>, steps: seq<Step>) {
    |ss| > |steps| && forall k :: 0 <= k < |steps| ==> Harmless(ss[k], steps[k])
  }

  predicate Harmless(s: State, step: Step) {
    step.ReloadStep? && step.a < |s.accounts| ==> s.accounts[step.a].InSync()
  }

  /**
   * A step keeps the writes in order: while a write of the account is pending, a prepare reserves nothing, a commit
   * is not of an unprepared transaction, and a purge drops no record of a commit; no reload finds the saved state
   * behind; and the last write does not overtake another one.
   */
  predicate InOrder(ops: Operations, s: State, step: Step) {
    match step
    case AskStep(t, a, _) => Part(ops, s, t, a) ==>
      var c := s.accounts[a].account;
      s.accounts[a].pending == [] || ops[t][a] == 0 || t in c.prepared || c.balance - c.debits + ops[t][a] <= 0
    case CommitStep(t, a, _) => a < |s.accounts| ==> s.accounts[a].pending == [] || t in s.accounts[a].account.prepared
    case PurgeStep(t, a) => a < |s.accounts| ==> s.accounts[a].pending == [] || t !in s.accounts[a].account.committed
    case ReloadStep(a) => a < |s.accounts| ==> s.accounts[a].InSync()
    case LandStep(a, i) => a < |s.accounts| ==> i == 0 || i + 1 < |s.accounts[a].pending|
    case _ => true
  }

  ghost predicate Orderly(ops: Operations, ss: seq<State>, steps: seq<Step>) {
    |ss| > |steps| && forall k :: 0 <= k < |steps| ==> InOrder(ops, ss[k], steps[k])
  }

  /** A step of account a other than the arrival of a write. */
  predicate Touches(step: Step, a: nat) {
    (step.AskStep? || step.CommitStep? || step.PurgeStep? || step.ReloadStep?) && step.a == a
  }

  /** A step of account a itself. */
  predicate Of(step: Step, a: nat) { Touches(step, a) || (step.LandStep? && step.a == a) }

  /** The write of a commit lands before the account does anything else. */
  ghost predicate Prompt(ss: seq<State>, steps: seq<Step>) {
    |ss| > |steps| && forall k, a: nat :: 0 <= k < |steps| && Touches(steps[k], a) && a < |ss[k].accounts| ==>
        ss[k].accounts[a].pending == []
  }

  // ----- sums -----

  predicate Pending(c: Account, t: nat) { t in c.prepared && c.prepared[t] && t !in c.committed }

  function Amount(ops: Operations, t: nat, a: nat): int {
    if t < |ops| && a in ops[t] then ops[t][a] else 0
  }

  /** What the first n transactions have reserved in account a. */
  function PendingDebits(ops: Operations, c: Account, a: nat, n: nat): nat {
    if n == 0 then 0 else
      PendingDebits(ops, c, a, n - 1) + if Pending(c, n - 1) then Debit(Amount(ops, n - 1, a)) else 0
  }

  function PendingCredits(ops: Operations, c: Account, a: nat, n: nat): nat {
    if n == 0 then 0 else
      PendingCredits(ops, c, a, n - 1) + if Pending(c, n - 1) then Credit(Amount(ops, n - 1, a)) else 0
  }

  /** What the first n transactions have moved into account a. */
  function Moved(ops: Operations, applied: map<nat, bool>, a: nat, n: nat): int {
    if n == 0 then 0 else
      Moved(ops, applied, a, n - 1) + if n - 1 in applied && applied[n - 1] then Amount(ops, n - 1, a) else 0
  }

  function Change(before: bool, after: bool, x: int): int {
    if before == after then 0 else if after then x else -x
  }

  lemma {:induction false} PendingChange(ops: Operations, c: Account, c': Account, a: nat, n: nat, t: nat)
    requires forall u :: u != t ==> (Pending(c', u) <==> Pending(c, u))
    ensures PendingDebits(ops, c', a, n) == PendingDebits(ops, c, a, n) + if t < n
            then Change(Pending(c, t), Pending(c', t), Debit(Amount(ops, t, a))) else 0
    ensures PendingCredits(ops, c', a, n) == PendingCredits(ops, c, a, n) + if t < n
            then Change(Pending(c, t), Pending(c', t), Credit(Amount(ops, t, a))) else 0
  {
    if n > 0 { PendingChange(ops, c, c', a, n - 1, t); }
  }

  lemma {:induction false} MovedChange(ops: Operations, applied: map<nat, bool>, a: nat, n: nat, t: nat, decision: bool)
    requires t !in applied
    ensures Moved(ops, applied[t := decision], a, n) == Moved(ops, applied, a, n) + if t < n
            && decision then Amount(ops, t, a) else 0
  {
    if n > 0 { MovedChange(ops, applied, a, n - 1, t, decision); }
  }

  // ----- invariant -----

  /** The records of prepared transactions are always saved. */
  predicate RecordsSaved(x: Actor) {
    SavedPrepared(x.saved) == x.account.prepared && forall i :: 0 <= i < |x.pending| ==> x.pending[i].prepared == None
  }

  /** The books of account a. */
  ghost predicate Books(ops: Operations, s: State, a: nat)
    requires Shaped(ops, s) && a < |s.accounts|
  {
    var c := s.accounts[a].account;
    && RecordsSaved(s.accounts[a])
    && c.debits == PendingDebits(ops, c, a, |ops|)
    && c.credits == PendingCredits(ops, c, a, |ops|)
    && c.balance - c.debits > 0
    && c.balance == 5000 + Moved(ops, s.applied[a], a, |ops|)
  }

  /** What account a records about transaction t. */
  ghost predicate Records(ops: Operations, s: State, t: nat, a: nat)
    requires Part(ops, s, t, a)
  {
    var c, x := s.accounts[a].account, s.transfers[t];
    && (t in c.committed ==> t in c.prepared)
    && (a in x.purged ==> x.complete && t in s.applied[a] && (t in c.prepared ==> !c.prepared[t] && t in c.committed))
    && (a !in x.purged ==> (t in c.committed <==> t in s.applied[a]))
    && (t in s.applied[a] ==> s.applied[a][t] in x.told)
    && (x.complete ==> t in s.applied[a])
  }

  ghost predicate Untouched(ops: Operations, s: State, t: nat, a: nat)
    requires Shaped(ops, s) && t < |ops| && a < |s.accounts|
  {
    t !in s.accounts[a].account.prepared && t !in s.accounts[a].account.committed && t !in s.applied[a]
  }

  /** Account a has reserved its part of transaction t, or is past it. */
  ghost predicate Ready(ops: Operations, s: State, t: nat, a: nat)
    requires Part(ops, s, t, a)
  {
    a in s.transfers[t].purged || (t in s.accounts[a].account.prepared && s.accounts[a].account.prepared[t])
  }

  /** Account a answers a further prepare of t without a vote. */
  ghost predicate Spoils(ops: Operations, s: State, t: nat, a: nat) {
    && Part(ops, s, t, a)
    && (a in s.transfers[t].purged || t in s.accounts[a].account.prepared)
    && (s.transfers[t].attempt.Asking? && a in s.transfers[t].attempt.replies ==>
        s.transfers[t].attempt.replies[a].Recorded?)
  }

  predicate Yes(x: Transfer) { x.attempt == Decided(true) || x.decision == Some(true) || true in x.told }

  predicate No(x: Transfer) { x.attempt == Decided(false) || x.decision == Some(false) || false in x.told }

  /** What the replies of an execution say about the accounts. */
  ghost predicate RepliesTrue(ops: Operations, s: State, t: nat)
    requires Shaped(ops, s) && t < |ops|
  {
    var x := s.transfers[t];
    x.attempt.Asking? ==> x.decision.None? && forall a :: a in x.attempt.replies ==>
      a in ops[t] && (x.attempt.replies[a] == Vote(true) ==> Ready(ops, s, t, a))
      && (x.attempt.replies[a].Recorded? ==> a in x.purged || t in s.accounts[a].account.prepared)
  }

  ghost predicate Decisions(ops: Operations, s: State, t: nat)
    requires Shaped(ops, s) && t < |ops|
  {
    var x := s.transfers[t];
    && RepliesTrue(ops, s, t)
    && (Yes(x) ==> forall a :: a in ops[t] ==> Ready(ops, s, t, a))
    && (!x.failed ==> !(Yes(x) && No(x)))
    && (Yes(x) ==> x.decision == Some(true))
    && (!x.failed && No(x) && x.decision.None? ==> exists a :: Spoils(ops, s, t, a))
  }

  ghost predicate Inv(ops: Operations, s: State) {
    && Shaped(ops, s)
    && (forall a :: 0 <= a < |s.accounts| ==> Books(ops, s, a))
    && (forall t, a :: 0 <= t < |ops| && a in ops[t] ==> Records(ops, s, t, a))
    && (forall t, a :: 0 <= t < |ops| && 0 <= a < |s.accounts| && a !in ops[t] ==> Untouched(ops, s, t, a))
    && (forall t :: 0 <= t < |ops| ==> Decisions(ops, s, t))
  }
}
