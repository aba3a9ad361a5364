/** Field locks isolate transactions, over every sequence of prepares, commits, duplicates and purges. */
module FieldIsolation {
  import opened Options
  import opened FieldLocks

  datatype Step =
    | PrepareStep(txn: nat, keys: seq<string>, access: Access)
    | CommitStep(txn: nat, decision: bool, update: map<string, int>)
    | PurgeStep(txn: nat)

  /** A transaction commits only what it prepared, and updates only read-write fields it locked for writing. */
  predicate Confined(p: Participant, txn: nat, update: map<string, int>) {
    && (txn in p.prepared ==> p.prepared[txn])
    && forall k :: k in update && k in p.fields && p.fields[k].RW? ==> p.fields[k].rw == Some(txn)
  }

  ghost predicate Takes(p: Participant, step: Step, p': Participant) {
    match step
    case PrepareStep(txn, keys, access) => p' == Prepared(p, txn, keys, access).0
    case CommitStep(txn, decision, update) =>
      (decision && txn in p.prepared && txn !in p.committed ==> Confined(p, txn, update))
      && p' == Committed(p, txn, decision, update)
    case PurgeStep(txn) =>
      // records are dropped after every participant has committed
      (txn in p.prepared ==> txn in p.committed) && p' ==
          p.(prepared := p.prepared - {txn}, committed := p.committed - {txn})
  }

  ghost predicate Starts(p: Participant) {
    && p.prepared == map[] && p.committed == map[]
    && forall k :: k in p.fields && p.fields[k].RW? ==> p.fields[k].rw == None && p.fields[k].ro == []
  }

  ghost predicate Run(ps: seq<Participant>, steps: seq<Step>) {
    && |ps| == |steps| + 1
    && Starts(ps[0])
    && forall i :: 0 <= i < |steps| ==> Takes(ps[i], steps[i], ps[i + 1])
  }

  // ----- invariant -----

  predicate Writes(p: Participant, k: string, txn: nat) {
    k in p.fields && p.fields[k].RW? && p.fields[k].rw == Some(txn)
  }

  predicate Reads(p: Participant, k: string, txn: nat) { k in p.fields && p.fields[k].RW? && txn in p.fields[k].ro }

  predicate Active(p: Participant, txn: nat) { txn in p.prepared && p.prepared[txn] && txn !in p.committed }

  ghost predicate Inv(p: Participant) {
    && (forall k, t, u :: Writes(p, k, t) ==> !Reads(p, k, u))
    && (forall k, t :: Writes(p, k, t) || Reads(p, k, t) ==> Active(p, t))
    && (forall t :: t in p.committed ==> t in p.prepared)
  }

  // ----- what locking and unlocking do to one field -----

  lemma {:induction false} LockedAt(fields: map<string, Field>, keys: seq<string>, txn: nat, access: Access, k: string)
    requires k in fields
    ensures Locked(fields, keys, txn, access).Keys == fields.Keys
    ensures var f, f' := fields[k], Locked(fields, keys, txn, access)[k];
            && f'.val == f.val && (f'.RW? <==> f.RW?)
            && (f.RW? ==> f'.rw == if access.Write? && k in keys then Some(txn) else f.rw)
            && (f.RW? && access.Write? ==> f'.ro == f.ro)
            && (f.RW? ==> forall t :: t in f'.ro <==> t in f.ro || (t == txn && access.Read? && k in keys))
  {
    if keys != [] { LockedAt(fields, keys[..|keys| - 1], txn, access, k); }
  }

  lemma {:induction false} WithoutMeaning(ro: seq<nat>, txn: nat)
    ensures forall t :: t in Without(ro, txn) <==> t in ro && t != txn
  {
    if ro != [] {
      WithoutMeaning(ro[..|ro| - 1], txn);
      assert ro == ro[..|ro| - 1] + [ro[|ro| - 1]];
    }
  }

  /** Who holds what after prepare. */
  lemma PreparedHolds(p: Participant, txn: nat, keys: seq<string>, access: Access, k: string, t: nat)
    ensures var p' := Prepared(p, txn, keys, access).0;
            var takes := txn !in p.prepared && AllThere(p.fields, keys) && !Conflict(p.fields, keys, access)
                         && k in keys && p.fields[k].RW?;
            && (Writes(p', k, t) <==> if takes && access.Write? then t == txn else Writes(p, k, t))
            && (Reads(p', k, t) <==> Reads(p, k, t) || (takes && access.Read? && t == txn))
  {
    if k in p.fields { LockedAt(p.fields, keys, txn, access, k); } else { LockedKeys(p.fields, keys, txn, access); }
  }

  lemma PreparedValue(p: Participant, txn: nat, keys: seq<string>, access: Access, k: string)
    ensures var p' := Prepared(p, txn, keys, access).0;
            && p'.fields.Keys == p.fields.Keys
            && (k in p.fields ==> p'.fields[k].val == p.fields[k].val && (p'.fields[k].RW? <==> p.fields[k].RW?))
  {
    LockedKeys(p.fields, keys, txn, access);
    if k in p.fields { LockedAt(p.fields, keys, txn, access, k); }
  }

  /** Who holds what after commit: the transaction has let go of everything. */
  lemma CommittedHolds(p: Participant, txn: nat, decision: bool, update: map<string, int>, k: string, t: nat)
    requires Inv(p)
    ensures var p' := Committed(p, txn, decision, update);
            && (Writes(p', k, t) <==> Writes(p, k, t) && t != txn)
            && (Reads(p', k, t) <==> Reads(p, k, t) && t != txn)
  {
    assert Writes(p, k, txn) || Reads(p, k, txn) ==> Active(p, txn);
    if k in p.fields && p.fields[k].RW? { WithoutMeaning(p.fields[k].ro, txn); }
  }

  lemma StepKeeps(p: Participant, step: Step, p': Participant)
    requires Inv(p) && Takes(p, step, p')
    ensures Inv(p')
  {
    match step
    case PrepareStep(txn, keys, access) =>
      forall k, t ensures (Writes(p', k, t) || Reads(p', k, t) ==> Active(p', t)) {
        PreparedHolds(p, txn, keys, access, k, t);
      }
      forall k, t, u ensures Writes(p', k, t) ==> !Reads(p', k, u) {
        PreparedHolds(p, txn, keys, access, k, t);
        PreparedHolds(p, txn, keys, access, k, u);
      }
    case CommitStep(txn, decision, update) =>
      forall k, t ensures (Writes(p', k, t) || Reads(p', k, t) ==> Active(p', t)) {
        CommittedHolds(p, txn, decision, update, k, t);
      }
      forall k, t, u ensures Writes(p', k, t) ==> !Reads(p', k, u) {
        CommittedHolds(p, txn, decision, update, k, t);
        CommittedHolds(p, txn, decision, update, k, u);
      }
    case PurgeStep(txn) =>
      forall k, t ensures (Writes(p', k, t) <==> Writes(p, k, t)) && (Reads(p', k, t) <==> Reads(p, k, t)) {}
  }

  lemma {:induction false} RunInv(ps: seq<Participant>, steps: seq<Step>, i: nat)
    requires Run(ps, steps) && i < |ps|
    ensures Inv(ps[i])
  {
    if i > 0 {
      RunInv(ps, steps, i - 1);
      assert Takes(ps[i - 1], steps[i - 1], ps[i - 1 + 1]);
      StepKeeps(ps[i - 1], steps[i - 1], ps[i]);
    }
  }

  // ----- guarantees -----

  predicate Commits(step: Step, txn: nat) { step.CommitStep? && step.txn == txn }

  lemma StepHolds(p: Participant, step: Step, p': Participant, k: string, txn: nat)
    requires Inv(p) && Takes(p, step, p') && !Commits(step, txn) && (Writes(p, k, txn) || Reads(p, k, txn))
    ensures Writes(p, k, txn) ==> Writes(p', k, txn)
    ensures Reads(p, k, txn) ==> Reads(p', k, txn)
    ensures k in p'.fields && p'.fields[k].val == p.fields[k].val
  {
    match step
    case PrepareStep(t, keys, access) =>
      PreparedHolds(p, t, keys, access, k, txn);
      PreparedValue(p, t, keys, access, k);
      if Writes(p, k, txn) && k in keys && AllThere(p.fields, keys) { assert Blocks(p.fields[k], access); }
    case CommitStep(t, decision, update) =>
      CommittedHolds(p, t, decision, update, k, txn);
      assert p.fields[k].RW?;
      assert Writes(p, k, t) ==> t == txn || (Reads(p, k, txn) && !Writes(p, k, txn));
    case PurgeStep(_) =>
  }

  /** From the prepare that locks a field until its holder commits, the lock stays and the value does not change. */
  lemma {:induction false} LockedFieldIsStable(ps: seq<Participant>, steps: seq<Step>, i: nat, j: nat, k: string,
                                               txn: nat)
    requires Run(ps, steps) && i <= j < |ps| && (Writes(ps[i], k, txn) || Reads(ps[i], k, txn))
    requires forall m :: i <= m < j ==> !Commits(steps[m], txn)
    ensures Writes(ps[i], k, txn) ==> Writes(ps[j], k, txn)
    ensures Reads(ps[i], k, txn) ==> Reads(ps[j], k, txn)
    ensures k in ps[j].fields && ps[j].fields[k].val == ps[i].fields[k].val
  {
    if i < j {
      LockedFieldIsStable(ps, steps, i, j - 1, k, txn);
      RunInv(ps, steps, j - 1);
      assert Takes(ps[j - 1], steps[j - 1], ps[j - 1 + 1]);
      StepHolds(ps[j - 1], steps[j - 1], ps[j], k, txn);
    }
  }

  /**
   * A prepare reads values and takes locks if and only if it is the first of its transaction, names only fields, and
   * nobody holds one of them against it; it refuses if and only if somebody does.
   */
  lemma VotesYesIff(ps: seq<Participant>, steps: seq<Step>, i: nat)
    requires Run(ps, steps) && i < |steps| && steps[i].PrepareStep?
    ensures var p, txn, keys := ps[i], steps[i].txn, steps[i].keys;
            var reply := Prepared(p, txn, keys, steps[i].access).1;
            var held := exists k, t :: k in keys && (Writes(p, k, t) || (steps[i].access.Write? && Reads(p, k, t)));
            && (reply.Recorded? <==> txn in p.prepared)
            && (reply.Threw? <==> txn !in p.prepared && exists k :: k in keys && k !in p.fields)
            && (reply.Refused? <==> txn !in p.prepared && (forall k :: k in keys ==> k in p.fields) && held)
            && (reply.Recorded? ==> reply.decision == p.prepared[txn])
            && ps[i + 1].committed == p.committed
            && ps[i + 1].prepared == (if reply.Recorded? || reply.Threw? then p.prepared
                                      else p.prepared[txn := reply.Values?])
  {
    var p, keys := ps[i], steps[i].keys;
    assert Takes(ps[i], steps[i], ps[i + 1]);
    if AllThere(p.fields, keys) && Conflict(p.fields, keys, steps[i].access) {
      var k :| k in keys && Blocks(p.fields[k], steps[i].access);
      assert p.fields[k].rw.Some? ==> Writes(p, k, p.fields[k].rw.value);
      assert p.fields[k].rw.None? ==> Reads(p, k, p.fields[k].ro[0]);
    }
  }

  /** The commit takes effect: the transaction voted and has not committed before. */
  predicate TakesEffect(p: Participant, step: Step) {
    step.CommitStep? && step.txn in p.prepared && step.txn !in p.committed
  }

  /**
   * A commit with decision yes that takes effect gives every updated field the value of the update; all other values,
   * and after a refusal or a repetition all values, stay as they were. A new name becomes a plain field.
   */
  lemma CommitInstalls(ps: seq<Participant>, steps: seq<Step>, i: nat, k: string)
    requires Run(ps, steps) && i < |steps| && steps[i].CommitStep?
    ensures var p, p', install := ps[i], ps[i + 1], TakesEffect(ps[i], steps[i]) && steps[i].decision;
            && p'.fields.Keys == p.fields.Keys + (if install then steps[i].update.Keys else {})
            && (k in p'.fields ==>
                  p'.fields[k].val == if install && k in steps[i].update then steps[i].update[k] else p.fields[k].val)
            && (k in p.fields && p.fields[k].RW? ==> p'.fields[k].RW?)
            && (k in p'.fields && p'.fields[k].RW? ==> k in p.fields && p.fields[k].RW?)
    ensures var p, p', txn := ps[i], ps[i + 1], steps[i].txn;
            && p'.prepared == p.prepared[txn := txn in p.prepared && p.prepared[txn]]
            && p'.committed == p.committed[txn := if txn in p.committed && txn in p.prepared then p.committed[txn]
                                                  else txn in p.prepared && steps[i].decision]
  {
    assert Takes(ps[i], steps[i], ps[i + 1]);
  }

  /**
   * A field that a transaction locked for writing goes from the value the transaction read to the value it commits, and
   * has the value it read at every moment in between.
   */
  lemma ReadThenWritten(ps: seq<Participant>, steps: seq<Step>, i: nat, m: nat, j: nat, txn: nat, keys: seq<string>,
                        k: string)
    requires Run(ps, steps) && i < m <= j < |steps| && steps[i] == PrepareStep(txn, keys, Write)
    requires Commits(steps[j], txn) && forall n :: i < n < j ==> !Commits(steps[n], txn)
    requires Prepared(ps[i], txn, keys, Write).1.Values? && k in keys && k in ps[i].fields && ps[i].fields[k].RW?
    ensures var read := Prepared(ps[i], txn, keys, Write).1.values;
            && k in read && k in ps[m].fields && ps[m].fields[k].val == read[k] && Writes(ps[m], k, txn)
            && k in ps[j + 1].fields
            && ps[j + 1].fields[k].val == if steps[j].decision && k in steps[j].update then steps[j].update[k]
                                          else read[k]
  {
    assert Takes(ps[i], steps[i], ps[i + 1]);
    PreparedHolds(ps[i], txn, keys, Write, k, txn);
    PreparedValue(ps[i], txn, keys, Write, k);
    LockedFieldIsStable(ps, steps, i + 1, m, k, txn);
    LockedFieldIsStable(ps, steps, i + 1, j, k, txn);
    HoldersAreExclusive(ps, steps, j, k, txn, txn);
    CommitInstalls(ps, steps, j, k);
  }

  /** A field has one writer or any number of readers, and every holder has voted yes and not committed. */
  lemma HoldersAreExclusive(ps: seq<Participant>, steps: seq<Step>, i: nat, k: string, t: nat, u: nat)
    requires Run(ps, steps) && i < |ps| && Writes(ps[i], k, t)
    ensures !Reads(ps[i], k, u) && (Writes(ps[i], k, u) ==> u == t)
    ensures Active(ps[i], t)
  {
    RunInv(ps, steps, i);
  }

  lemma ReadersAreActive(ps: seq<Participant>, steps: seq<Step>, i: nat, k: string, t: nat)
    requires Run(ps, steps) && i < |ps| && Reads(ps[i], k, t)
    ensures Active(ps[i], t)
  {
    RunInv(ps, steps, i);
  }

  /** After a commit, of either decision, the transaction holds no lock. */
  lemma CommitReleasesAll(ps: seq<Participant>, steps: seq<Step>, i: nat, k: string)
    requires Run(ps, steps) && i < |steps| && steps[i].CommitStep?
    ensures !Writes(ps[i + 1], k, steps[i].txn) && !Reads(ps[i + 1], k, steps[i].txn)
  {
    RunInv(ps, steps, i);
    assert Takes(ps[i], steps[i], ps[i + 1]);
    CommittedHolds(ps[i], steps[i].txn, steps[i].decision, steps[i].update, k, steps[i].txn);
  }
}
