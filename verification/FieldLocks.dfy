/** Field locks of a transaction participant. Transactions are numbered; field values are integers. */
module FieldLocks {
  import opened Options

  /** A read-write field with its writer and its readers, or a plain field. */
  datatype Field = RW(val: int, rw: Option<nat>, ro: seq<nat>) | Plain(val: int)

  datatype Access = Write | Read

  datatype Participant = Participant(fields: map<string, Field>, prepared: map<nat, bool>, committed: map<nat, bool>)

  /**
   * The answer to prepare: the values read, nothing when the vote is no, the recorded decision the next times, an
   * exception for a missing field.
   */
  datatype Reply = Values(values: map<string, int>) | Refused | Recorded(decision: bool) | Threw

  predicate Blocks(f: Field, access: Access) { f.RW? && (f.rw.Some? || (access.Write? && f.ro != [])) }

  predicate AllThere(fields: map<string, Field>, keys: seq<string>) { forall k :: k in keys ==> k in fields }

  predicate Conflict(fields: map<string, Field>, keys: seq<string>, access: Access)
    requires AllThere(fields, keys)
  {
    exists k :: k in keys && Blocks(fields[k], access)
  }

  function LockOne(f: Field, txn: nat, access: Access): Field {
    match f
    case RW(val, rw, ro) => if access.Write? then RW(val, Some(txn), ro) else RW(val, rw, ro + [txn])
    case Plain(_) => f
  }

  /** The fields after the locks on keys have been taken one by one. */
  function Locked(fields: map<string, Field>, keys: seq<string>, txn: nat, access: Access): map<string, Field> {
    if keys == [] then fields else
      var before, k := Locked(fields, keys[..|keys| - 1], txn, access), keys[|keys| - 1];
      if k in before then before[k := LockOne(before[k], txn, access)] else before
  }

  function ValuesOf(fields: map<string, Field>, keys: seq<string>): map<string, int>
    requires AllThere(fields, keys)
  {
    map k | k in keys :: fields[k].val
  }

  function SetOne(fields: map<string, Field>, k: string, v: int): Field {
    if k in fields && fields[k].RW? then fields[k].(val := v) else Plain(v)
  }

  /** The fields after an update is applied; a name that is not a field becomes a plain field. */
  function Updated(fields: map<string, Field>, update: map<string, int>): map<string, Field> {
    map k | k in fields.Keys + update.Keys :: if k in update then SetOne(fields, k, update[k]) else fields[k]
  }

  function Without(ro: seq<nat>, txn: nat): seq<nat> {
    if ro == [] then [] else Without(ro[..|ro| - 1], txn) + if ro[|ro| - 1] == txn then [] else [ro[|ro| - 1]]
  }

  function UnlockOne(f: Field, txn: nat): Field {
    if f.RW? then RW(f.val, if f.rw == Some(txn) then None else f.rw, Without(f.ro, txn)) else f
  }

  function Unlocked(fields: map<string, Field>, txn: nat): map<string, Field> {
    map k | k in fields :: UnlockOne(fields[k], txn)
  }

  function Prepared(p: Participant, txn: nat, keys: seq<string>, access: Access): (Participant, Reply) {
    if txn in p.prepared then (p, Recorded(p.prepared[txn]))
    else if !AllThere(p.fields, keys) then (p, Threw)
    else if Conflict(p.fields, keys, access) then (p.(prepared := p.prepared[txn := false]), Refused)
    else (p.(fields := Locked(p.fields, keys, txn, access), prepared := p.prepared[txn := true]),
          Values(ValuesOf(p.fields, keys)))
  }

  function Committed(p: Participant, txn: nat, decision: bool, update: map<string, int>): Participant {
    if txn !in p.prepared then p.(prepared := p.prepared[txn := false], committed := p.committed[txn := false])
    else if txn in p.committed then p
    else
      var fields := if decision then Updated(p.fields, update) else p.fields;
      p.(fields := if p.prepared[txn] then Unlocked(fields, txn) else fields, committed := p.committed[txn := decision])
  }

  class TransactionParticipant {
    var fields: map<string, Field>
    var preparedTxns: map<nat, bool>
    var committedTxns: map<nat, bool>

    function State(): Participant
      reads this
    {
      Participant(fields, preparedTxns, committedTxns)
    }

    constructor (fields: map<string, Field>)
      ensures State() == Participant(fields, map[], map[])
    {
      this.fields, preparedTxns, committedTxns := fields, map[], map[];
    }

    /** None when a field is missing: then nothing has changed. */
    method CheckForConflict(txn: nat, keys: seq<string>, access: Access) returns (decision: Option<bool>)
      modifies `fields
      ensures decision.None? <==> !AllThere(old(fields), keys)
      ensures decision.Some? ==> (decision.value <==> !Conflict(old(fields), keys, access))
      ensures fields == if decision == Some(true) then Locked(old(fields), keys, txn, access) else old(fields)
    {
      var free := true;
      for i := 0 to |keys|
        invariant forall k :: k in keys[..i] ==> k in fields
        invariant free <==> forall k :: k in keys[..i] ==> !Blocks(fields[k], access)
      {
        if keys[i] !in fields {
          return None;
        }
        assert keys[..i + 1] == keys[..i] + [keys[i]];
        if Blocks(fields[keys[i]], access) {
          free := false;
        }
      }
      assert keys[..|keys|] == keys;
      if free {
        for i := 0 to |keys|
          invariant fields == Locked(old(fields), keys[..i], txn, access)
        {
          assert keys[..i + 1][..i] == keys[..i];
          LockedKeys(old(fields), keys[..i], txn, access);
          fields := fields[keys[i] := LockOne(fields[keys[i]], txn, access)];
        }
      }
      return Some(free);
    }

    method CreatePrepareValues(keys: seq<string>) returns (values: map<string, int>)
      requires AllThere(fields, keys)
      ensures values == ValuesOf(fields, keys)
    {
      values := map[];
      for i := 0 to |keys|
        invariant values == map k | k in keys[..i] :: fields[k].val
      {
        assert keys[..i + 1] == keys[..i] + [keys[i]];
        values := values[keys[i] := fields[keys[i]].val];
      }
      assert keys[..|keys|] == keys;
    }

    method Prepare(txn: nat, keys: seq<string>, access: Access) returns (reply: Reply)
      modifies this
      ensures (State(), reply) == Prepared(old(State()), txn, keys, access)
    {
      if txn in preparedTxns {
        return Recorded(preparedTxns[txn]);
      }
      var decision := CheckForConflict(txn, keys, access);
      if decision.None? {
        return Threw;
      }
      if decision.value {
        LockedKeys(old(fields), keys, txn, access);
        var values := CreatePrepareValues(keys);
        assert values == ValuesOf(old(fields), keys);
        reply := Values(values);
      } else {
        reply := Refused;
      }
      preparedTxns := preparedTxns[txn := decision.value];
    }

    method ApplyUpdate(update: map<string, int>)
      modifies `fields
      ensures fields == Updated(old(fields), update)
      ensures fields.Keys == old(fields).Keys + update.Keys
      ensures forall k :: k in fields ==> fields[k].val == if k in update then update[k] else old(fields)[k].val
      ensures forall k :: k in old(fields) && old(fields)[k].RW? ==>
                fields[k].RW? && fields[k].rw == old(fields)[k].rw && fields[k].ro == old(fields)[k].ro
    {
      var todo := update.Keys;
      while todo != {}
        invariant todo <= update.Keys
        invariant fields == Updated(old(fields), map k | k in update && k !in todo :: update[k])
        decreases todo
      {
        var k :| k in todo;
        todo := todo - {k};
        fields := fields[k := SetOne(fields, k, update[k])];
      }
      assert update == map k | k in update && k !in todo :: update[k];
    }

    method Release(txn: nat)
      modifies `fields
      ensures fields == Unlocked(old(fields), txn)
    {
      var before := fields;
      var todo := before.Keys;
      while todo != {}
        invariant todo <= before.Keys
        invariant fields == map k | k in before :: if k in todo then before[k] else UnlockOne(before[k], txn)
        decreases todo
      {
        var k :| k in todo;
        todo := todo - {k};
        fields := fields[k := UnlockOne(fields[k], txn)];
      }
    }

    method Commit(txn: nat, decision: bool, update: map<string, int>)
      modifies this
      ensures State() == Committed(old(State()), txn, decision, update)
      ensures forall k :: k in fields ==>
                fields[k].val == if decision && k in update && txn in old(preparedTxns) && txn !in old(committedTxns)
                                 then update[k] else old(fields)[k].val
    {
      if txn !in preparedTxns {
        preparedTxns := preparedTxns[txn := false];
        committedTxns := committedTxns[txn := false];
        return;
      }
      if txn in committedTxns {
        return;
      }
      if decision {
        ApplyUpdate(update);
      }
      if preparedTxns[txn] {
        Release(txn);
      }
      committedTxns := committedTxns[txn := decision];
    }
  }

  /** Locking changes no value and no set of fields. */
  lemma {:induction false} LockedKeys(fields: map<string, Field>, keys: seq<string>, txn: nat, access: Access)
    ensures Locked(fields, keys, txn, access).Keys == fields.Keys
    ensures forall k :: k in fields ==> Locked(fields, keys, txn, access)[k].val == fields[k].val
    ensures forall k :: k in fields && k !in keys ==> Locked(fields, keys, txn, access)[k] == fields[k]
  {
    if keys != [] { LockedKeys(fields, keys[..|keys| - 1], txn, access); }
  }
}
