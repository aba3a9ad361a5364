/** A bank account that takes part in two-phase commit. Transactions are numbered. */
module Bank {
  import opened Options

  /** The fields of an Account actor. */
  datatype Account = Account(balance: int, credits: int, debits: int, prepared: map<nat, bool>,
                             committed: map<nat, bool>)

  /** The fields the actor has saved. */
  datatype Saved = Saved(balance: Option<int>, credits: Option<int>, debits: Option<int>,
                         prepared: Option<map<nat, bool>>, committed: Option<map<nat, bool>>)

  /** The answer to prepare: a vote the first time, only the recorded decision after that. */
  datatype Reply = Vote(vote: bool) | Recorded(prepared: bool)

  const EMPTY := Saved(None, None, None, None, None)

  /** A saved zero counts as missing. */
  function OrElse(saved: Option<int>, default: int): int {
    if saved.Some? && saved.value != 0 then saved.value else default
  }

  function Activated(s: Saved): Account {
    Account(OrElse(s.balance, 5000), OrElse(s.credits, 0), OrElse(s.debits, 0),
            if s.prepared.Some? then s.prepared.value else map[], if s.committed.Some? then s.committed.value
                else map[])
  }

  function Debit(amount: int): nat { if amount < 0 then -amount else 0 }

  function Credit(amount: int): nat { if amount < 0 then 0 else amount }

  /** The account after prepare. */
  function Prepared(c: Account, txn: nat, amount: int): Account {
    if txn in c.prepared then c
    else if c.balance - c.debits + amount > 0 then
      c.(debits := c.debits + Debit(amount), credits := c.credits + Credit(amount), prepared := c.prepared[txn := true])
    else c.(prepared := c.prepared[txn := false])
  }

  function ReplyTo(c: Account, txn: nat, amount: int): Reply {
    if txn in c.prepared then Recorded(c.prepared[txn]) else Vote(c.balance - c.debits + amount > 0)
  }

  /** The account after commit; a transaction that was never prepared is recorded as refused. */
  function Committed(c: Account, txn: nat, decision: bool, amount: int): Account {
    if txn !in c.prepared then c.(prepared := c.prepared[txn := false], committed := c.committed[txn := false])
    else if txn in c.committed then c
    else
      var reserved := c.prepared[txn];
      Account(if decision then c.balance + amount else c.balance,
              if reserved then c.credits - Credit(amount) else c.credits,
              if reserved then c.debits - Debit(amount) else c.debits,
              c.prepared, c.committed[txn := decision])
  }

  function Purged(c: Account, txn: nat): Account {
    c.(prepared := c.prepared - {txn}, committed := c.committed - {txn})
  }

  /** The saved fields after a write; a write leaves the fields it does not name. */
  function Written(s: Saved, w: Saved): Saved {
    Saved(if w.balance.Some? then w.balance else s.balance, if w.credits.Some? then w.credits else s.credits,
          if w.debits.Some? then w.debits else s.debits, if w.prepared.Some? then w.prepared else s.prepared,
          if w.committed.Some? then w.committed else s.committed)
  }

  function SavedPrepared(s: Saved): map<nat, bool> { if s.prepared.Some? then s.prepared.value else map[] }

  /** The actor in memory, what it has saved, and the writes it issued without waiting for them. */
  datatype Actor = Actor(account: Account, saved: Saved, pending: seq<Saved>)
  {
    /** Reloading the actor now would give it the state it has. */
    predicate InSync() { Activated(saved) == account }

    function Reloaded(): Actor { this.(account := Activated(saved)) }

    /** Pending write i reaches the store. */
    function Landed(i: nat): Actor
      requires i < |pending|
    {
      this.(saved := Written(saved, pending[i]), pending := pending[..i] + pending[i + 1..])
    }

    /** A write that the method waits for. */
    function Saving(c: Account, w: Saved): Actor { Actor(c, Written(saved, w), pending) }

    /** The records of prepared transactions are read back from the store. */
    function Recalled(): Account { account.(prepared := SavedPrepared(saved)) }

    function Prepare(txn: nat, amount: int): Actor {
      if txn in Recalled().prepared then this.(account := Recalled()) else
        var c := Prepared(Recalled(), txn, amount);
        Saving(c, EMPTY.(prepared := Some(c.prepared), debits := Some(c.debits), credits := Some(c.credits)))
    }

    /** There is something to commit. */
    predicate Uncommitted(txn: nat) { txn in account.prepared && txn !in account.committed }

    function Commit(txn: nat, decision: bool, amount: int): Actor {
      var c := Committed(account, txn, decision, amount);
      if txn !in account.prepared then Saving(c, EMPTY.(prepared := Some(c.prepared), committed := Some(c.committed)))
      else if Uncommitted(txn) then
        var w := EMPTY.(committed := Some(c.committed), balance := Some(c.balance), debits := Some(c.debits),
                        credits := Some(c.credits));
        Actor(c, saved, pending + [w])
      else this
    }

    function Purge(txn: nat): Actor {
      var c := Purged(account, txn);
      Saving(c, EMPTY.(prepared := Some(c.prepared), committed := Some(c.committed)))
    }
  }

  /** A fresh actor. */
  function New(): Actor { Actor(Activated(EMPTY), EMPTY, []) }

  /** Methods that wait for their writes leave an actor without pending writes in sync. */
  lemma AwaitedInSync(x: Actor, txn: nat, amount: int)
    requires x.InSync()
    ensures x.Prepare(txn, amount).InSync() && x.Purge(txn).InSync() && x.Reloaded() == x
    ensures x.Prepare(txn, amount).pending == x.pending == x.Purge(txn).pending
  {
  }

  /**
   * A commit does not wait for its write: a reload before the write lands loses the commit, and a reload after it
   * keeps it unless the balance is zero.
   */
  lemma CommitInSyncIff(x: Actor, txn: nat, decision: bool, amount: int)
    requires x.InSync() && x.pending == []
    ensures var y := x.Commit(txn, decision, amount);
            && (y.InSync() <==> !x.Uncommitted(txn))
            && (y.pending == [] <==> !x.Uncommitted(txn))
            && (x.Uncommitted(txn) ==> y.pending != [] && (y.Landed(0).InSync() <==> y.account.balance != 0)
                                       && y.Landed(0).pending == [])
            && (x.Uncommitted(txn) ==> y.Reloaded().account == x.account)
  {
    var y := x.Commit(txn, decision, amount);
    if x.Uncommitted(txn) {
      assert txn !in Activated(y.saved).committed;
      assert y.pending[..0] + y.pending[1..] == [];
    }
  }

  // ----- writes that nobody waits for -----

  /** The saved state once the writes ws have landed, in order. */
  function AllWritten(s: Saved, ws: seq<Saved>): Saved {
    if ws == [] then s else Written(AllWritten(s, ws[..|ws| - 1]), ws[|ws| - 1])
  }

  /** The write of a commit: everything but the records of prepared transactions. */
  predicate IsCommit(w: Saved) {
    w.prepared.None? && w.balance.Some? && w.credits.Some? && w.debits.Some? && w.committed.Some?
  }

  predicate AllCommits(ws: seq<Saved>) { forall i :: 0 <= i < |ws| ==> IsCommit(ws[i]) }

  /** Once all pending writes have landed, in order, a reload gives the actor the state it has. */
  predicate CatchesUp(x: Actor) { Activated(AllWritten(x.saved, x.pending)) == x.account }

  /** The last write counts. */
  lemma {:induction false} LastCounts(s: Saved, ws: seq<Saved>)
    requires AllCommits(ws)
    ensures AllWritten(s, ws) == if ws == [] then s else Written(s, ws[|ws| - 1])
  {
    if ws != [] { LastCounts(s, ws[..|ws| - 1]); }
  }

  /** While a write is pending, a prepare must not reserve anything. */
  lemma PrepareCatchesUpIff(x: Actor, txn: nat, amount: int)
    requires CatchesUp(x) && AllCommits(x.pending)
    ensures CatchesUp(x.Prepare(txn, amount)) <==>
            || x.pending == [] || amount == 0
            || txn in x.account.prepared || x.account.balance - x.account.debits + amount <= 0
  {
    LastCounts(x.saved, x.pending);
    var y := x.Prepare(txn, amount);
    LastCounts(y.saved, y.pending);
  }

  /** A commit must not record an unprepared transaction while a write is pending, nor leave a balance of zero. */
  lemma CommitCatchesUpIff(x: Actor, txn: nat, decision: bool, amount: int)
    requires CatchesUp(x) && AllCommits(x.pending)
    ensures CatchesUp(x.Commit(txn, decision, amount)) <==>
            if x.Uncommitted(txn) then x.Commit(txn, decision, amount).account.balance != 0
            else txn in x.account.prepared || x.pending == []
                 || (txn in x.account.committed && !x.account.committed[txn])
    ensures AllCommits(x.Commit(txn, decision, amount).pending)
  {
    if txn !in x.account.prepared {
      RecordsRefused(x, txn, decision, amount);
    } else if x.Uncommitted(txn) {
      IssuesWrite(x, txn, decision, amount);
    }
  }

  lemma RecordsRefused(x: Actor, txn: nat, decision: bool, amount: int)
    requires CatchesUp(x) && AllCommits(x.pending) && txn !in x.account.prepared
    ensures CatchesUp(x.Commit(txn, decision, amount)) <==> x.pending == []
                                                            || (txn in x.account.committed && !x.account.committed[txn])
  {
    var y := x.Commit(txn, decision, amount);
    LastCounts(x.saved, x.pending);
    LastCounts(y.saved, y.pending);
    assert x.pending != [] ==> (CatchesUp(y) <==> x.account.committed == x.account.committed[txn := false]);
  }

  lemma IssuesWrite(x: Actor, txn: nat, decision: bool, amount: int)
    requires CatchesUp(x) && AllCommits(x.pending) && x.Uncommitted(txn)
    ensures var y := x.Commit(txn, decision, amount); AllCommits(y.pending)
                                                      && (CatchesUp(y) <==> y.account.balance != 0)
  {
    var y := x.Commit(txn, decision, amount);
    LastCounts(x.saved, x.pending);
    LastCounts(y.saved, y.pending);
  }

  /** While a write is pending, a purge must not drop the record of a commit. */
  lemma PurgeCatchesUpIff(x: Actor, txn: nat)
    requires CatchesUp(x) && AllCommits(x.pending)
    ensures CatchesUp(x.Purge(txn)) <==> x.pending == [] || txn !in x.account.committed
  {
    LastCounts(x.saved, x.pending);
    var y := x.Purge(txn);
    LastCounts(y.saved, y.pending);
    if txn !in x.account.committed { assert y.account.committed == x.account.committed; }
  }

  lemma ReloadCatchesUpIff(x: Actor)
    requires CatchesUp(x) && AllCommits(x.pending)
    ensures CatchesUp(x.Reloaded()) <==> x.InSync()
  {
  }

  /** The last of several writes must not overtake the one before it, unless they say the same. */
  lemma LandCatchesUpIff(x: Actor, i: nat)
    requires CatchesUp(x) && AllCommits(x.pending) && i < |x.pending|
    ensures CatchesUp(x.Landed(i)) <==> i < |x.pending| - 1 || i == 0 || x.Landed(i - 1).InSync()
    ensures AllCommits(x.Landed(i).pending)
  {
    LastCounts(x.saved, x.pending);
    var y := x.Landed(i);
    LastCounts(y.saved, y.pending);
    if i < |x.pending| - 1 { assert y.pending[|y.pending| - 1] == x.pending[|x.pending| - 1]; }
  }

  class AccountActor {
    var exactBalance: int
    var credits: int
    var debits: int
    var preparedTxns: map<nat, bool>
    var committedTxns: map<nat, bool>
    var saved: Saved
    var pending: seq<Saved>

    function State(): Actor
      reads this
    {
      Actor(Account(exactBalance, credits, debits, preparedTxns, committedTxns), saved, pending)
    }

    constructor ()
      ensures State() == New()
    {
      exactBalance, credits, debits, preparedTxns, committedTxns := 5000, 0, 0, map[], map[];
      saved, pending := EMPTY, [];
    }

    method Activate()
      modifies this
      ensures State() == old(State()).Reloaded()
    {
      exactBalance := OrElse(saved.balance, 5000);
      credits := OrElse(saved.credits, 0);
      debits := OrElse(saved.debits, 0);
      preparedTxns := if saved.prepared.Some? then saved.prepared.value else map[];
      committedTxns := if saved.committed.Some? then saved.committed.value else map[];
    }

    method IsTxnAlreadyPrepared(txn: nat) returns (decision: Option<bool>)
      modifies `preparedTxns
      ensures State() == old(State()).(account := old(State()).Recalled())
      ensures decision == if txn in preparedTxns then Some(preparedTxns[txn]) else None
    {
      preparedTxns := if saved.prepared.Some? then saved.prepared.value else map[];
      decision := if txn in preparedTxns then Some(preparedTxns[txn]) else None;
    }

    method Prepare(txn: nat, amount: int) returns (reply: Reply)
      modifies this
      ensures State() == old(State()).Prepare(txn, amount) && reply == ReplyTo(old(State()).Recalled(), txn, amount)
    {
      var before := IsTxnAlreadyPrepared(txn);
      if before.Some? {
        return Recorded(before.value);
      }
      var decision := exactBalance - debits + amount > 0;
      if decision {
        if amount < 0 {
          debits := debits - amount;
        } else {
          credits := credits + amount;
        }
      }
      preparedTxns := preparedTxns[txn := decision];
      saved := saved.(prepared := Some(preparedTxns), debits := Some(debits), credits := Some(credits));
      return Vote(decision);
    }

    /** Records an unprepared transaction as refused; says whether there is something to commit. */
    method IsTxnUncommitted(txn: nat) returns (goOn: bool)
      modifies this
      ensures goOn <==> old(State()).Uncommitted(txn)
      ensures State() == if txn in old(preparedTxns) then old(State()) else old(State()).Commit(txn, false, 0)
    {
      if txn !in preparedTxns {
        preparedTxns := preparedTxns[txn := false];
        committedTxns := committedTxns[txn := false];
        saved := saved.(prepared := Some(preparedTxns), committed := Some(committedTxns));
        return false;
      }
      return txn !in committedTxns;
    }

    method Commit(txn: nat, decision: bool, amount: int)
      modifies this
      ensures State() == old(State()).Commit(txn, decision, amount)
    {
      var goOn := IsTxnUncommitted(txn);
      if !goOn {
        return;
      }
      if decision {
        exactBalance := exactBalance + amount;
      }
      if preparedTxns[txn] {
        if amount < 0 {
          debits := debits + amount;
        } else {
          credits := credits - amount;
        }
      }
      committedTxns := committedTxns[txn := decision];
      pending := pending + [EMPTY.(committed := Some(committedTxns), balance := Some(exactBalance),
                                   debits := Some(debits), credits := Some(credits))];
    }

    /** A write issued earlier reaches the store; writes may overtake each other. */
    method Land(i: nat)
      requires i < |pending|
      modifies `saved, `pending
      ensures State() == old(State()).Landed(i)
    {
      saved := Written(saved, pending[i]);
      pending := pending[..i] + pending[i + 1..];
    }

    method PurgeTxnRecord(txn: nat)
      modifies this
      ensures State() == old(State()).Purge(txn)
    {
      preparedTxns := preparedTxns - {txn};
      committedTxns := committedTxns - {txn};
      saved := saved.(prepared := Some(preparedTxns), committed := Some(committedTxns));
    }
  }
}
