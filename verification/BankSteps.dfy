/** Every step of the transfers keeps their invariant. */
module BankSteps {
  import opened Options
  import opened Bank
  import opened BankProtocol

  // ----- the books -----

  lemma AskBooks(ops: Operations, s: State, t: nat, a: nat, late: bool, s': State)
    requires Inv(ops, s) && Ask(ops, s, t, a, late, s')
    ensures Shaped(ops, s') && Books(ops, s', a)
  {
    var c, c' := s.accounts[a].account, s'.accounts[a].account;
    assert Books(ops, s, a) && Records(ops, s, t, a);
    PendingChange(ops, c, c', a, |ops|, t);
  }

  lemma CommitBooks(ops: Operations, s: State, t: nat, a: nat, decision: bool, s': State)
    requires Inv(ops, s) && Commit(ops, s, t, a, decision, s')
    ensures Shaped(ops, s') && Books(ops, s', a)
  {
    var c, c' := s.accounts[a].account, s'.accounts[a].account;
    assert Books(ops, s, a) && Records(ops, s, t, a) && Decisions(ops, s, t);
    assert decision ==> Ready(ops, s, t, a);
    PendingChange(ops, c, c', a, |ops|, t);
    if s.accounts[a].Uncommitted(t) || t !in c.prepared {
      if t !in s.applied[a] { MovedChange(ops, s.applied[a], a, |ops|, t, decision); }
    }
  }

  lemma PurgeBooks(ops: Operations, s: State, t: nat, a: nat, s': State)
    requires Inv(ops, s) && Purge(ops, s, t, a, s')
    ensures Shaped(ops, s') && Books(ops, s', a)
  {
    var c, c' := s.accounts[a].account, s'.accounts[a].account;
    assert Books(ops, s, a) && Records(ops, s, t, a);
    PendingChange(ops, c, c', a, |ops|, t);
  }

  // ----- steps that change one account -----

  /** Only account a, what it applied, and transfer t change. */
  ghost predicate Local(ops: Operations, s: State, t: nat, a: nat, s': State) {
    && Shaped(ops, s) && Shaped(ops, s') && |s'.accounts| == |s.accounts| && t < |ops| && a < |s.accounts|
    && (forall b :: 0 <= b < |s.accounts| && b != a ==> s'.accounts[b] == s.accounts[b]
                                                        && s'.applied[b] == s.applied[b])
    && (forall u :: 0 <= u < |ops| && u != t ==> s'.transfers[u] == s.transfers[u])
    && var c, c' := s.accounts[a].account, s'.accounts[a].account;
       forall u :: u != t ==>
         && (u in c'.prepared <==> u in c.prepared) && (u in c.prepared ==> c'.prepared[u] == c.prepared[u])
         && (u in c'.committed <==> u in c.committed)
         && (u in s'.applied[a] <==> u in s.applied[a]) && (u in s.applied[a] ==> s'.applied[a][u] == s.applied[a][u])
  }

  lemma LocalDecisions(ops: Operations, s: State, t: nat, a: nat, s': State, u: nat)
    requires Local(ops, s, t, a, s') && u < |ops| && u != t && Decisions(ops, s, u)
    ensures Decisions(ops, s', u)
  {
    var x := s.transfers[u];
    if !x.failed && No(x) && x.decision.None? {
      var b :| Spoils(ops, s, u, b);
      assert Spoils(ops, s', u, b);
    }
  }

  lemma LocalKeeps(ops: Operations, s: State, t: nat, a: nat, s': State)
    requires Inv(ops, s) && Local(ops, s, t, a, s') && Books(ops, s', a) && Decisions(ops, s', t) && a in ops[t]
    requires forall b :: b in ops[t] ==> Records(ops, s', t, b)
    ensures Inv(ops, s')
  {
    forall u | 0 <= u < |ops| ensures Decisions(ops, s', u) {
      if u != t { LocalDecisions(ops, s, t, a, s', u); }
    }
    forall b | 0 <= b < |s'.accounts| ensures Books(ops, s', b) {
      if b != a { assert Books(ops, s, b); }
    }
    forall u, b | 0 <= u < |ops| && b in ops[u] ensures Records(ops, s', u, b) {
      if u != t { assert Records(ops, s, u, b); }
    }
    forall u, b | 0 <= u < |ops| && 0 <= b < |s'.accounts| && b !in ops[u] ensures Untouched(ops, s', u, b) {
      assert Untouched(ops, s, u, b);
    }
  }

  lemma AskLocal(ops: Operations, s: State, t: nat, a: nat, late: bool, s': State)
    requires Ask(ops, s, t, a, late, s') && RecordsSaved(s.accounts[a])
    ensures Local(ops, s, t, a, s')
  {
    assert s.accounts[a].Recalled() == s.accounts[a].account;
  }

  lemma AskRecord(ops: Operations, s: State, t: nat, a: nat, late: bool, s': State, b: nat)
    requires Ask(ops, s, t, a, late, s') && RecordsSaved(s.accounts[a]) && b in ops[t] && Records(ops, s, t, b)
    ensures Part(ops, s', t, b) && Records(ops, s', t, b)
  {
    assert s.accounts[a].Recalled() == s.accounts[a].account;
  }

  lemma AskRecords(ops: Operations, s: State, t: nat, a: nat, late: bool, s': State)
    requires Inv(ops, s) && Ask(ops, s, t, a, late, s')
    ensures Local(ops, s, t, a, s')
    ensures forall b :: b in ops[t] ==> Records(ops, s', t, b)
  {
    assert Books(ops, s, a);
    forall b | b in ops[t] ensures Records(ops, s, t, b) {}
    hide Inv, Books;
    AskLocal(ops, s, t, a, late, s');
    forall b | b in ops[t] ensures Records(ops, s', t, b) { AskRecord(ops, s, t, a, late, s', b); }
  }

  lemma AskSpoils(ops: Operations, s: State, t: nat, a: nat, late: bool, s': State, b: nat)
    requires Ask(ops, s, t, a, late, s') && RecordsSaved(s.accounts[a]) && Spoils(ops, s, t, b)
    ensures Spoils(ops, s', t, b)
  {
  }

  lemma AskReady(ops: Operations, s: State, t: nat, a: nat, late: bool, s': State)
    requires Ask(ops, s, t, a, late, s') && RecordsSaved(s.accounts[a])
    ensures forall b :: b in ops[t] && Ready(ops, s, t, b) ==> Ready(ops, s', t, b)
    ensures forall b :: b in ops[t] && t in s.accounts[b].account.prepared ==> t in s'.accounts[b].account.prepared
    ensures t in s'.accounts[a].account.prepared
  {
  }

  lemma AskReplies(ops: Operations, s: State, t: nat, a: nat, late: bool, s': State)
    requires Ask(ops, s, t, a, late, s') && RecordsSaved(s.accounts[a]) && RepliesTrue(ops, s, t)
    ensures Shaped(ops, s') && RepliesTrue(ops, s', t)
  {
    AskReady(ops, s, t, a, late, s');
  }

  lemma AskDecisions(ops: Operations, s: State, t: nat, a: nat, late: bool, s': State)
    requires Inv(ops, s) && Ask(ops, s, t, a, late, s')
    ensures Shaped(ops, s') && Decisions(ops, s', t)
  {
    var x := s.transfers[t];
    assert Books(ops, s, a) && RecordsSaved(s.accounts[a]);
    assert Decisions(ops, s, t) && RepliesTrue(ops, s, t);
    AskReplies(ops, s, t, a, late, s');
    AskReady(ops, s, t, a, late, s');
    hide Inv, Ready;
    if !x.failed && No(x) && x.decision.None? {
      var b :| Spoils(ops, s, t, b);
      AskSpoils(ops, s, t, a, late, s', b);
    }
    hide Spoils;
  }

  lemma AskKeeps(ops: Operations, s: State, t: nat, a: nat, late: bool, s': State)
    requires Inv(ops, s) && Ask(ops, s, t, a, late, s')
    ensures Inv(ops, s')
  {
    AskBooks(ops, s, t, a, late, s');
    AskRecords(ops, s, t, a, late, s');
    AskDecisions(ops, s, t, a, late, s');
    hide Inv;
    LocalKeeps(ops, s, t, a, s');
  }

  lemma CommitRecords(ops: Operations, s: State, t: nat, a: nat, decision: bool, s': State)
    requires Inv(ops, s) && Commit(ops, s, t, a, decision, s')
    ensures Local(ops, s, t, a, s')
    ensures forall b :: b in ops[t] ==> Records(ops, s', t, b)
  {
    forall b | b in ops[t] ensures Records(ops, s', t, b) { assert Records(ops, s, t, b); }
  }

  lemma CommitDecisions(ops: Operations, s: State, t: nat, a: nat, decision: bool, s': State)
    requires Inv(ops, s) && Commit(ops, s, t, a, decision, s')
    ensures Shaped(ops, s') && Decisions(ops, s', t)
  {
    var x := s.transfers[t];
    assert Decisions(ops, s, t) && Records(ops, s, t, a);
    if !x.failed && No(x) && x.decision.None? {
      var b :| Spoils(ops, s, t, b);
      assert Spoils(ops, s', t, b);
    }
  }

  lemma CommitKeeps(ops: Operations, s: State, t: nat, a: nat, decision: bool, s': State)
    requires Inv(ops, s) && Commit(ops, s, t, a, decision, s')
    ensures Inv(ops, s')
  {
    CommitBooks(ops, s, t, a, decision, s');
    CommitRecords(ops, s, t, a, decision, s');
    CommitDecisions(ops, s, t, a, decision, s');
    hide Inv;
    LocalKeeps(ops, s, t, a, s');
  }

  lemma PurgeRecords(ops: Operations, s: State, t: nat, a: nat, s': State)
    requires Inv(ops, s) && Purge(ops, s, t, a, s')
    ensures Local(ops, s, t, a, s')
    ensures forall b :: b in ops[t] ==> Records(ops, s', t, b)
  {
    forall b | b in ops[t] ensures Records(ops, s', t, b) { assert Records(ops, s, t, b); }
  }

  lemma PurgeDecisions(ops: Operations, s: State, t: nat, a: nat, s': State)
    requires Inv(ops, s) && Purge(ops, s, t, a, s')
    ensures Shaped(ops, s') && Decisions(ops, s', t)
  {
    var x := s.transfers[t];
    assert Decisions(ops, s, t);
    if !x.failed && No(x) && x.decision.None? {
      var b :| Spoils(ops, s, t, b);
      assert Spoils(ops, s', t, b);
    }
  }

  lemma PurgeKeeps(ops: Operations, s: State, t: nat, a: nat, s': State)
    requires Inv(ops, s) && Purge(ops, s, t, a, s')
    ensures Inv(ops, s')
  {
    PurgeBooks(ops, s, t, a, s');
    PurgeRecords(ops, s, t, a, s');
    PurgeDecisions(ops, s, t, a, s');
    hide Inv;
    LocalKeeps(ops, s, t, a, s');
  }

  lemma ReloadKeeps(ops: Operations, s: State, a: nat, s': State)
    requires Inv(ops, s) && Reload(ops, s, a, s') && s.accounts[a].InSync()
    ensures s' == s
  {
  }

  /** A write that lands changes nothing in memory. */
  lemma LandKeeps(ops: Operations, s: State, a: nat, i: nat, s': State)
    requires Inv(ops, s) && Land(ops, s, a, i, s')
    ensures Inv(ops, s')
  {
    forall b | 0 <= b < |s'.accounts| ensures s'.accounts[b].account == s.accounts[b].account && Books(ops, s', b) {
      assert Books(ops, s, b);
    }
    hide Books;
    forall u | 0 <= u < |ops| ensures Decisions(ops, s', u) {
      assert Decisions(ops, s, u);
      if !s.transfers[u].failed && No(s.transfers[u]) && s.transfers[u].decision.None? {
        var b :| Spoils(ops, s, u, b);
        assert Spoils(ops, s', u, b);
      }
    }
    forall u, b | 0 <= u < |ops| && b in ops[u] ensures Records(ops, s', u, b) { assert Records(ops, s, u, b); }
    forall u, b | 0 <= u < |ops| && 0 <= b < |s'.accounts| && b !in ops[u] ensures Untouched(ops, s', u, b) {
      assert Untouched(ops, s, u, b);
    }
  }

  // ----- steps that change one transfer -----

  /** Only transfer t changes; what it told grows, and the other records of it stay. */
  ghost predicate Remote(ops: Operations, s: State, t: nat, s': State) {
    && Shaped(ops, s) && Shaped(ops, s') && t < |ops| && s'.accounts == s.accounts && s'.applied == s.applied
    && (forall u :: 0 <= u < |ops| && u != t ==> s'.transfers[u] == s.transfers[u])
    && s'.transfers[t].purged == s.transfers[t].purged && s.transfers[t].told <= s'.transfers[t].told
    && (s'.transfers[t].complete ==> s.transfers[t].complete || forall a :: a in ops[t] ==> t in s.applied[a])
    && (s.transfers[t].complete ==> s'.transfers[t].complete)
  }

  lemma RemoteKeeps(ops: Operations, s: State, t: nat, s': State)
    requires Inv(ops, s) && Remote(ops, s, t, s') && Decisions(ops, s', t)
    ensures Inv(ops, s')
  {
    forall u | 0 <= u < |ops| ensures Decisions(ops, s', u) {
      if u != t {
        assert Decisions(ops, s, u);
        if !s.transfers[u].failed && No(s.transfers[u]) && s.transfers[u].decision.None? {
          var b :| Spoils(ops, s, u, b);
          assert Spoils(ops, s', u, b);
        }
      }
    }
    forall b | 0 <= b < |s'.accounts| ensures Books(ops, s', b) { assert Books(ops, s, b); }
    forall u, b | 0 <= u < |ops| && b in ops[u] ensures Records(ops, s', u, b) { assert Records(ops, s, u, b); }
    forall u, b | 0 <= u < |ops| && 0 <= b < |s'.accounts| && b !in ops[u] ensures Untouched(ops, s', u, b) {
      assert Untouched(ops, s, u, b);
    }
  }

  lemma StartDecisions(ops: Operations, s: State, t: nat, s': State)
    requires Inv(ops, s) && Start(ops, s, t, s')
    ensures Shaped(ops, s') && Decisions(ops, s', t)
  {
    var x := s.transfers[t];
    assert Decisions(ops, s, t);
    if !x.failed && No(x) && x.decision.None? {
      var b :| Spoils(ops, s, t, b);
      assert Spoils(ops, s', t, b);
    }
  }

  lemma SpoilsVote(ops: Operations, s: State, t: nat, b: nat)
    requires Spoils(ops, s, t, b) && s.transfers[t].attempt.Asking? && b in s.transfers[t].attempt.replies
    ensures !AllVoteYes(ops, t, s.transfers[t].attempt.replies)
  {
    assert s.transfers[t].attempt.replies[b].Recorded?;
  }

  /** A saved yes means that everybody has reserved its part. */
  lemma SavedIsReady(ops: Operations, s: State, t: nat, d: Option<bool>)
    requires Shaped(ops, s) && t < |ops| && RepliesTrue(ops, s, t) && s.transfers[t].attempt.Asking?
    requires MaySave(ops, t, s.transfers[t].attempt.replies, d) && d == Some(true)
    ensures forall a :: a in ops[t] ==> Ready(ops, s, t, a)
  {
    hide Ready;
  }

  lemma DecideDecisions(ops: Operations, s: State, t: nat, s': State)
    requires Inv(ops, s) && Decide(ops, s, t, s')
    ensures Shaped(ops, s') && Decisions(ops, s', t)
  {
    var x, x' := s.transfers[t], s'.transfers[t];
    assert Decisions(ops, s, t);
    hide Inv;
    var d :| && MaySave(ops, t, x.attempt.replies, d)
             && s' == s.(transfers := s.transfers[t := x.(attempt := Decided(d == Some(true)), decision := d)]);
    if d == Some(true) { SavedIsReady(ops, s, t, d); }
    if !x.failed && No(x) {
      var b :| Spoils(ops, s, t, b);
      SpoilsVote(ops, s, t, b);
    }
    if d.None? {
      var b :| b in ops[t] && x.attempt.replies[b].Recorded?;
      assert Spoils(ops, s', t, b);
    }
    hide Spoils;
  }

  lemma TellDecisions(ops: Operations, s: State, t: nat, s': State)
    requires Inv(ops, s) && Tell(ops, s, t, s')
    ensures Shaped(ops, s') && Decisions(ops, s', t)
  {
    var x := s.transfers[t];
    assert Decisions(ops, s, t);
    if !x.failed && No(x) && x.decision.None? {
      var b :| Spoils(ops, s, t, b);
      assert Spoils(ops, s', t, b);
    }
  }

  lemma CompleteDecisions(ops: Operations, s: State, t: nat, s': State)
    requires Inv(ops, s) && Complete(ops, s, t, s')
    ensures Shaped(ops, s') && Decisions(ops, s', t)
  {
    var x := s.transfers[t];
    assert Decisions(ops, s, t);
    if !x.failed && No(x) && x.decision.None? {
      var b :| Spoils(ops, s, t, b);
      assert Spoils(ops, s', t, b);
    }
  }

  lemma FailDecisions(ops: Operations, s: State, t: nat, s': State)
    requires Inv(ops, s) && Fail(ops, s, t, s')
    ensures Shaped(ops, s') && Decisions(ops, s', t)
  {
    var x := s.transfers[t];
    assert Decisions(ops, s, t);
    hide Inv;
    var d :| && (d == x.decision || MaySave(ops, t, x.attempt.replies, d))
             && s' == s.(transfers := s.transfers[t := x.(attempt := Decided(false), decision := d, failed := true)]);
    if d == Some(true) { SavedIsReady(ops, s, t, d); }
    hide Spoils, MaySave;
  }

  lemma StepKeeps(ops: Operations, s: State, step: Step, s': State)
    requires Inv(ops, s) && Takes(ops, s, step, s') && Harmless(s, step)
    ensures Inv(ops, s')
  {
    match step
    case StartStep(t) => StartDecisions(ops, s, t, s'); hide Inv; RemoteKeeps(ops, s, t, s');
    case AskStep(t, a, late) => AskKeeps(ops, s, t, a, late, s');
    case DecideStep(t) => DecideDecisions(ops, s, t, s'); hide Inv; RemoteKeeps(ops, s, t, s');
    case FailStep(t) => FailDecisions(ops, s, t, s'); hide Inv; RemoteKeeps(ops, s, t, s');
    case TellStep(t) => TellDecisions(ops, s, t, s'); hide Inv; RemoteKeeps(ops, s, t, s');
    case CommitStep(t, a, decision) => CommitKeeps(ops, s, t, a, decision, s');
    case CompleteStep(t) => CompleteDecisions(ops, s, t, s'); hide Inv; RemoteKeeps(ops, s, t, s');
    case PurgeStep(t, a) => PurgeKeeps(ops, s, t, a, s');
    case ReloadStep(a) => ReloadKeeps(ops, s, a, s');
    case LandStep(a, i) => LandKeeps(ops, s, a, i, s');
  }

  // ----- what a step leaves alone -----

  /** Other steps leave the account as it is. */
  lemma NotOf(ops: Operations, s: State, step: Step, s': State, a: nat)
    requires Takes(ops, s, step, s') && a < |s.accounts| && !Of(step, a)
    ensures |s'.accounts| == |s.accounts| && s'.accounts[a] == s.accounts[a]
  {
  }

  /** Account a has a record of t, or dropped it. */
  predicate HasRecord(s: State, t: nat, a: nat) {
    a < |s.accounts| && t < |s.transfers| && (a in s.transfers[t].purged || t in s.accounts[a].account.prepared)
  }

  lemma SameSize(ops: Operations, s: State, step: Step, s': State)
    requires Takes(ops, s, step, s')
    ensures Shaped(ops, s) && Shaped(ops, s') && |s'.accounts| == |s.accounts|
  {
  }

  lemma PurgedKept(ops: Operations, s: State, step: Step, s': State, t: nat)
    requires Takes(ops, s, step, s') && t < |s.transfers|
    ensures t < |s'.transfers| && s.transfers[t].purged <= s'.transfers[t].purged
  {
  }

  lemma RecordKept(ops: Operations, s: State, step: Step, s': State, t: nat, a: nat)
    requires Takes(ops, s, step, s') && Harmless(s, step) && HasRecord(s, t, a) && RecordsSaved(s.accounts[a])
    ensures HasRecord(s', t, a)
  {
    PurgedKept(ops, s, step, s', t);
    if !Of(step, a) {
      NotOf(ops, s, step, s', a);
    } else {
      assert s.accounts[a].Recalled() == s.accounts[a].account;
    }
  }
}
