/** Where the guarantees of transfers end: failing runs, and the exact conditions. */
module BankLimits {
  import opened Options
  import opened Bank
  import opened BankProtocol
  import opened BankSteps
  import opened BankGuarantees

  const PAIR: Operations := [map[0 := 1, 1 := 1]]
  const FRESH := New()
  const RESERVED := FRESH.Prepare(0, 1)

  function Pair(first: Actor, second: Actor, x: Transfer, applied: seq<map<nat, bool>>): State {
    State([first, second], [x], applied)
  }

  // ----- a transfer that is executed again -----

  /** This execution of startTxn asks account a. */
  predicate AskedAt(steps: seq<Step>, i: int, t: nat, a: nat) { 0 <= i < |steps| && steps[i] == AskStep(t, a, false) }

  predicate Turns(step: Step, t: nat) {
    step == StartStep(t) || step == DecideStep(t) || step == FailStep(t) || step == TellStep(t)
  }

  /** One execution of startTxn of t begins at step j and decides at step k. */
  ghost predicate Executes(steps: seq<Step>, j: nat, k: nat, t: nat) {
    j < k < |steps| && steps[j] == StartStep(t) && steps[k] == DecideStep(t) && forall m :: j < m < k ==>
        !Turns(steps[m], t)
  }

  /** Account a has no record of t and can afford its part. */
  predicate VotesYes(ops: Operations, s: State, t: nat, a: nat) {
    && Part(ops, s, t, a)
    && t !in SavedPrepared(s.accounts[a].saved)
    && s.accounts[a].account.balance - s.accounts[a].account.debits + ops[t][a] > 0
  }

  /** Account a has a record of t, or had one. */
  predicate Marked(ops: Operations, s: State, t: nat, a: nat) {
    Part(ops, s, t, a) && (a in s.transfers[t].purged || t in SavedPrepared(s.accounts[a].saved))
  }

  lemma MarkedKept(ops: Operations, s: State, step: Step, s': State, t: nat, a: nat)
    requires Inv(ops, s) && Takes(ops, s, step, s') && Harmless(s, step) && Marked(ops, s, t, a)
    ensures Marked(ops, s', t, a)
  {
    SameSize(ops, s, step, s');
    StepKeeps(ops, s, step, s');
    assert Books(ops, s, a) && Books(ops, s', a);
    hide Inv, Books, Takes, Harmless;
    RecordKept(ops, s, step, s', t, a);
  }

  ghost predicate WasAsked(steps: seq<Step>, j: nat, m: nat, t: nat, a: nat) {
    exists i :: j < i < m && AskedAt(steps, i, t, a)
  }

  /** Whenever the execution asked account a, it voted yes. */
  ghost predicate SaysYes(ops: Operations, ss: seq<State>, steps: seq<Step>, j: nat, m: nat, t: nat, a: nat)
    requires m <= |ss|
  {
    forall i :: j < i < m && AskedAt(steps, i, t, a) ==> VotesYes(ops, ss[i], t, a)
  }

  /** What the replies of an execution say about the accounts at the time they were asked. */
  ghost predicate Told(ops: Operations, ss: seq<State>, steps: seq<Step>, j: nat, m: nat, t: nat)
    requires j < m < |ss| && m <= |steps|
  {
    && Shaped(ops, ss[m]) && t < |ops| && ss[m].transfers[t].attempt.Asking?
    && var replies := ss[m].transfers[t].attempt.replies;
       && (forall a :: a in replies <==> WasAsked(steps, j, m, t, a))
       && (forall a :: a in replies ==> Marked(ops, ss[m], t, a))
       && (forall a :: a in replies ==> (replies[a] == Vote(true) <==> SaysYes(ops, ss, steps, j, m, t, a)))
  }

  /** Other steps leave the execution as it is. */
  lemma AttemptKept(ops: Operations, s: State, step: Step, s': State, t: nat)
    requires Takes(ops, s, step, s') && Shaped(ops, s) && t < |ops| && !Turns(step, t)
    requires !(step.AskStep? && step.t == t && !step.late)
    ensures Shaped(ops, s') && s'.transfers[t].attempt == s.transfers[t].attempt
  {
  }

  lemma ToldOther(ops: Operations, ss: seq<State>, steps: seq<Step>, j: nat, m: nat, t: nat)
    requires j < m < |steps| && |ss| == |steps| + 1 && Told(ops, ss, steps, j, m, t)
    requires Shaped(ops, ss[m + 1]) && ss[m + 1].transfers[t].attempt == ss[m].transfers[t].attempt
    requires forall a :: a in ss[m].transfers[t].attempt.replies ==> Marked(ops, ss[m + 1], t, a)
    requires forall a: nat :: !AskedAt(steps, m, t, a)
    ensures Told(ops, ss, steps, j, m + 1, t)
  {
    hide Marked, VotesYes, AskedAt;
    forall a: nat
      ensures WasAsked(steps, j, m + 1, t, a) <==> WasAsked(steps, j, m, t, a)
      ensures SaysYes(ops, ss, steps, j, m + 1, t, a) <==> SaysYes(ops, ss, steps, j, m, t, a)
    {
      NotAsked(ops, ss, steps, j, m, t, a);
    }
    hide WasAsked, SaysYes;
  }

  lemma ToldStep(ops: Operations, ss: seq<State>, steps: seq<Step>, j: nat, m: nat, t: nat)
    requires j < m < |steps| && |ss| == |steps| + 1 && Takes(ops, ss[m], steps[m], ss[m + 1])
             && Harmless(ss[m], steps[m])
    requires Inv(ops, ss[m]) && Told(ops, ss, steps, j, m, t) && !Turns(steps[m], t)
    ensures Told(ops, ss, steps, j, m + 1, t)
  {
    var s, s', step := ss[m], ss[m + 1], steps[m];
    hide Inv, Harmless, Marked, VotesYes, WasAsked, SaysYes;
    forall a | a in s.transfers[t].attempt.replies ensures Marked(ops, s', t, a) { MarkedKept(ops, s, step, s', t, a); }
    if step.AskStep? && step.t == t && !step.late {
      ToldAsk(ops, ss, steps, j, m, t, step.a);
    } else {
      AttemptKept(ops, s, step, s', t);
      hide Takes;
      ToldOther(ops, ss, steps, j, m, t);
    }
  }

  lemma ToldAsk(ops: Operations, ss: seq<State>, steps: seq<Step>, j: nat, m: nat, t: nat, b: nat)
    requires j < m < |steps| && |ss| == |steps| + 1 && Ask(ops, ss[m], t, b, false, ss[m + 1])
             && steps[m] == AskStep(t, b, false)
    requires Told(ops, ss, steps, j, m, t)
    requires forall a :: a in ss[m].transfers[t].attempt.replies ==> Marked(ops, ss[m + 1], t, a)
    ensures Told(ops, ss, steps, j, m + 1, t)
  {
    var s, s' := ss[m], ss[m + 1];
    var replies, replies' := s.transfers[t].attempt.replies, s'.transfers[t].attempt.replies;
    assert AskedAt(steps, m, t, b);
    assert Marked(ops, s', t, b);
    assert replies'[b] == Vote(true) <==> VotesYes(ops, s, t, b);
    hide Marked, VotesYes;
    assert WasAsked(steps, j, m + 1, t, b);
    forall a: nat | a != b
      ensures WasAsked(steps, j, m + 1, t, a) <==> WasAsked(steps, j, m, t, a)
      ensures SaysYes(ops, ss, steps, j, m + 1, t, a) <==> SaysYes(ops, ss, steps, j, m, t, a)
    {
      NotAsked(ops, ss, steps, j, m, t, a);
    }
    AskedBefore(ops, ss, steps, j, m, t, b);
    assert SaysYes(ops, ss, steps, j, m + 1, t, b) <==> VotesYes(ops, s, t, b);
  }

  lemma NotAsked(ops: Operations, ss: seq<State>, steps: seq<Step>, j: nat, m: nat, t: nat, a: nat)
    requires m < |ss| && !AskedAt(steps, m, t, a)
    ensures WasAsked(steps, j, m + 1, t, a) <==> WasAsked(steps, j, m, t, a)
    ensures SaysYes(ops, ss, steps, j, m + 1, t, a) <==> SaysYes(ops, ss, steps, j, m, t, a)
  {
    hide VotesYes, AskedAt;
  }

  /** An account that was asked before has a record, so it does not vote again. */
  lemma AskedBefore(ops: Operations, ss: seq<State>, steps: seq<Step>, j: nat, m: nat, t: nat, b: nat)
    requires j < m < |steps| && |ss| == |steps| + 1 && Ask(ops, ss[m], t, b, false, ss[m + 1])
    requires Told(ops, ss, steps, j, m, t)
    ensures WasAsked(steps, j, m, t, b) ==> !VotesYes(ops, ss[m], t, b)
    ensures !WasAsked(steps, j, m, t, b) ==> SaysYes(ops, ss, steps, j, m, t, b)
  {
    assert WasAsked(steps, j, m, t, b) ==> Marked(ops, ss[m], t, b);
  }

  lemma ToldStarts(ops: Operations, ss: seq<State>, steps: seq<Step>, j: nat, t: nat)
    requires j < |steps| && |ss| == |steps| + 1 && Start(ops, ss[j], t, ss[j + 1])
             && ss[j + 1].transfers[t].attempt.Asking?
    ensures Told(ops, ss, steps, j, j + 1, t)
  {
    assert ss[j + 1].transfers[t].attempt.replies == map[];
  }

  lemma {:induction false} ExecutionTold(ops: Operations, ss: seq<State>, steps: seq<Step>, j: nat, k: nat, m: nat,
                                         t: nat)
    requires Run(ops, ss, steps) && Safe(ss, steps) && Executes(steps, j, k, t) && j < m <= k
    requires Start(ops, ss[j], t, ss[j + 1]) && ss[j + 1].transfers[t].attempt.Asking?
    ensures Told(ops, ss, steps, j, m, t)
  {
    hide Inv, Told, Harmless, Starts, Takes;
    if m == j + 1 {
      ToldStarts(ops, ss, steps, j, t);
    } else {
      hide Start;
      RunInv(ops, ss, steps, m - 1);
      ExecutionTold(ops, ss, steps, j, k, m - 1, t);
      assert Takes(ops, ss[m - 1], steps[m - 1], ss[m - 1 + 1]) && Harmless(ss[m - 1], steps[m - 1]);
      ToldStep(ops, ss, steps, j, m - 1, t);
    }
  }

  /** An execution that starts with a saved decision does not decide. */
  lemma {:induction false} StillDecided(ops: Operations, ss: seq<State>, steps: seq<Step>, j: nat, k: nat, m: nat,
                                        t: nat)
    requires Run(ops, ss, steps) && Executes(steps, j, k, t) && j < m <= k
    requires t < |ss[j + 1].transfers| && !ss[j + 1].transfers[t].attempt.Asking?
    ensures t < |ss[m].transfers| && !ss[m].transfers[t].attempt.Asking?
  {
    if m > j + 1 {
      StillDecided(ops, ss, steps, j, k, m - 1, t);
      assert Takes(ops, ss[m - 1], steps[m - 1], ss[m - 1 + 1]);
      assert !Turns(steps[m - 1], t);
    }
  }

  /**
   * An execution of startTxn decides yes if and only if every account it asked had no record of the transfer and could
   * afford its part.
   */
  lemma DecidesYesIff(ops: Operations, ss: seq<State>, steps: seq<Step>, j: nat, k: nat, t: nat)
    requires Run(ops, ss, steps) && Safe(ss, steps) && Executes(steps, j, k, t)
    ensures t < |ss[k + 1].transfers| && ss[k + 1].transfers[t].attempt.Decided?
    ensures ss[k + 1].transfers[t].attempt.decision <==> forall i, a :: j < i < k && AskedAt(steps, i, t, a) ==>
            VotesYes(ops, ss[i], t, a)
  {
    assert Takes(ops, ss[j], steps[j], ss[j + 1]) && Takes(ops, ss[k], steps[k], ss[k + 1]);
    assert Decide(ops, ss[k], t, ss[k + 1]);
    if !ss[j + 1].transfers[t].attempt.Asking? { StillDecided(ops, ss, steps, j, k, k, t); }
    ExecutionTold(ops, ss, steps, j, k, k, t);
    RunInv(ops, ss, steps, k);
    assert Decisions(ops, ss[k], t);
    hide Inv;
    var replies := ss[k].transfers[t].attempt.replies;
    assert forall a :: a in replies <==> a in ops[t];
    hide VotesYes, Marked;
    if AllVoteYes(ops, t, replies) {
      forall i, a | j < i < k && AskedAt(steps, i, t, a) ensures VotesYes(ops, ss[i], t, a) {
        assert WasAsked(steps, j, k, t, a) && SaysYes(ops, ss, steps, j, k, t, a);
      }
    } else {
      var a :| a in ops[t] && replies[a] != Vote(true);
      assert !SaysYes(ops, ss, steps, j, k, t, a);
    }
  }

  function Unasked(): State { Pair(FRESH, FRESH, Transfer(Asking(map[]), None, {}, false, {}, false), [map[], map[]]) }

  function HalfAsked(): State {
    Pair(RESERVED, FRESH, Transfer(Asking(map[]), None, {}, false, {}, false), [map[], map[]])
  }

  lemma AskAndCrash() returns (s: State, s2: State)
    ensures Starts(PAIR, s) && Takes(PAIR, s, StartStep(0), Unasked())
    ensures Takes(PAIR, Unasked(), AskStep(0, 0, false), s2) && Takes(PAIR, s2, StartStep(0), HalfAsked())
  {
    s := Pair(FRESH, FRESH, Transfer(Idle, None, {}, false, {}, false), [map[], map[]]);
    s2 := Pair(RESERVED, FRESH, Transfer(Asking(map[0 := Vote(true)]), None, {}, false, {}, false), [map[], map[]]);
  }

  lemma AskHalf() returns (s: State, s1: State, s2: State)
    ensures Takes(PAIR, HalfAsked(), AskStep(0, 0, false), s) && Takes(PAIR, s, AskStep(0, 1, false), s1)
            && Takes(PAIR, s1, DecideStep(0), s2)
    ensures s2.accounts == [RESERVED, RESERVED] && |s2.transfers| == 1 && s2.transfers[0].attempt == Decided(false)
            && s2.transfers[0].decision.None?
  {
    s := Pair(RESERVED, FRESH, Transfer(Asking(map[0 := Recorded(true)]), None, {}, false, {}, false), [map[], map[]]);
    s1 := Pair(RESERVED, RESERVED, Transfer(Asking(map[0 := Recorded(true)][1 := Vote(true)]), None, {}, false, {},
                                            false), [map[], map[]]);
    s2 := Pair(RESERVED, RESERVED, Transfer(Decided(false), None, {}, false, {}, false), [map[], map[]]);
    assert s1.transfers[0].attempt.replies[0].Recorded?;
    assert MaySave(PAIR, 0, s1.transfers[0].attempt.replies, None);
  }

  /**
   * A transfer that crashes after the first vote and is executed again is refused, although every account can afford
   * it. The refusal is not saved: the repeated prepare has no vote.
   */
  lemma RepeatedIsRefused() returns (ss: seq<State>, steps: seq<Step>)
    ensures Run(PAIR, ss, steps) && Safe(ss, steps) && Executes(steps, 2, 5, 0)
    ensures |ss[6].transfers| == 1 && ss[6].transfers[0].attempt == Decided(false) && ss[6].transfers[0].decision.None?
    ensures |ss[6].accounts| == 2 && forall a :: 0 <= a < 2 ==>
            ss[6].accounts[a].account.balance - ss[6].accounts[a].account.debits > 0
  {
    hide Takes;
    var s0, s2 := AskAndCrash();
    var s4, s5, s6 := AskHalf();
    ss := [s0, Unasked(), s2, HalfAsked(), s4, s5, s6];
    steps := [StartStep(0), AskStep(0, 0, false), StartStep(0), AskStep(0, 0, false), AskStep(0, 1, false),
              DecideStep(0)];
    hide Starts, Unasked, HalfAsked;
    forall k | 0 <= k < |steps| ensures Takes(PAIR, ss[k], steps[k], ss[k + 1]) {
      assert k == 0 || k == 1 || k == 2 || k == 3 || k == 4 || k == 5;
    }
  }

  // ----- a commit that is lost -----

  const MOVE: Operations := [map[0 := -1, 1 := 1]]
  const GIVER := FRESH.Prepare(0, -1)
  const TAKER := FRESH.Prepare(0, 1)

  function Voted(): State {
    Pair(GIVER, TAKER, Transfer(Asking(map[0 := Vote(true)][1 := Vote(true)]), None, {}, false, {}, false),
         [map[], map[]])
  }

  function Going(): State {
    Pair(GIVER, TAKER, Transfer(Idle, Some(true), {} + {true}, false, {}, false), [map[], map[]])
  }

  function Gone(): State {
    Pair(GIVER.Commit(0, true, -1), TAKER.Commit(0, true, 1),
         Transfer(Idle, Some(true), {} + {true}, false, {}, false), [map[0 := true], map[0 := true]])
  }

  lemma VoteYes() returns (s: State, s1: State, s2: State)
    ensures Starts(MOVE, s) && Takes(MOVE, s, StartStep(0), s1) && Takes(MOVE, s1, AskStep(0, 0, false), s2)
            && Takes(MOVE, s2, AskStep(0, 1, false), Voted())
  {
    s := Pair(FRESH, FRESH, Transfer(Idle, None, {}, false, {}, false), [map[], map[]]);
    s1 := s.(transfers := [Transfer(Asking(map[]), None, {}, false, {}, false)]);
    s2 := Pair(GIVER, FRESH, Transfer(Asking(map[0 := Vote(true)]), None, {}, false, {}, false), [map[], map[]]);
  }

  lemma Go() returns (s: State)
    ensures Takes(MOVE, Voted(), DecideStep(0), s) && Takes(MOVE, s, TellStep(0), Going())
  {
    s := Voted().(transfers := [Transfer(Decided(true), Some(true), {}, false, {}, false)]);
    assert MaySave(MOVE, 0, Voted().transfers[0].attempt.replies, Some(true));
  }

  lemma CommitBoth() returns (s: State)
    ensures Takes(MOVE, Going(), CommitStep(0, 0, true), s) && Takes(MOVE, s, CommitStep(0, 1, true), Gone())
  {
    s := Going().(accounts := [GIVER.Commit(0, true, -1), TAKER], applied := [map[0 := true], map[]]);
  }

  lemma CompleteAndReload() returns (s: State, s1: State)
    ensures Takes(MOVE, Gone(), CompleteStep(0), s) && Takes(MOVE, s, ReloadStep(0), s1)
    ensures |s1.transfers| == 1 && s1.transfers[0].complete && !s1.transfers[0].failed && Total(s1.accounts) == 10001
  {
    s := Gone().(transfers := [Transfer(Idle, Some(true), {} + {true}, true, {}, false)]);
    s1 := s.(accounts := [GIVER.Commit(0, true, -1).Reloaded(), TAKER.Commit(0, true, 1)]);
    assert s1.accounts[..1][..0] == [] && s1.accounts[..1][0] == s1.accounts[0];
    assert Total(s1.accounts[..1]) == 5000;
  }

  /**
   * A reload before the write of a commit lands takes the money back on one side: a complete, balanced transfer changes
   * the total.
   */
  lemma HastyReloadLosesMoney() returns (ss: seq<State>, steps: seq<Step>)
    ensures Run(MOVE, ss, steps) && !Safe(ss, steps) && Net(MOVE, 0, 2) == 0
    ensures var s := ss[|steps|]; |s.transfers| == 1 && s.transfers[0].complete && !s.transfers[0].failed
                                  && Total(s.accounts) == 10001
  {
    hide Takes;
    var s0, s1, s2 := VoteYes();
    var s4 := Go();
    var s6 := CommitBoth();
    var s8, s9 := CompleteAndReload();
    ss := [s0, s1, s2, Voted(), s4, Going(), s6, Gone(), s8, s9];
    steps := [StartStep(0), AskStep(0, 0, false), AskStep(0, 1, false), DecideStep(0), TellStep(0),
              CommitStep(0, 0, true), CommitStep(0, 1, true),
              CompleteStep(0), ReloadStep(0)];
    NotInSync(s8);
    assert ss[8] == s8 && steps[8] == ReloadStep(0) && !Harmless(ss[8], steps[8]);
    hide Starts, Voted, Going, Gone, Total;
    forall k | 0 <= k < |steps| ensures Takes(MOVE, ss[k], steps[k], ss[k + 1]) {
      assert k == 0 || k == 1 || k == 2 || k == 3 || k == 4 || k == 5 || k == 6 || k == 7 || k == 8;
    }
  }

  lemma NotInSync(s: State)
    requires Takes(MOVE, Gone(), CompleteStep(0), s)
    ensures |s.accounts| == 2 && !s.accounts[0].InSync()
  {
    assert s.accounts[0] == GIVER.Commit(0, true, -1);
    CommitInSyncIff(GIVER, 0, true, -1);
  }

  // ----- writes out of order -----

  const NEW: Transfer := Transfer(Idle, None, {}, false, {}, false)
  const GRANTED: Transfer := Transfer(Idle, Some(true), {true}, false, {}, false)

  /** A transfer with one participant is asked for, decided and told. */
  lemma Grants(ops: Operations, ss: seq<State>, steps: seq<Step>, t: nat, a: nat)
      returns (ss': seq<State>, steps': seq<Step>)
    requires Path(ops, ss, steps) && t < |ops| && ops[t].Keys == {a} && VotesYes(ops, End(ss), t, a)
             && End(ss).transfers[t] == NEW
    ensures Path(ops, ss', steps') && ss <= ss' && forall k :: |steps| <= k < |steps'| ==> !steps'[k].ReloadStep?
    ensures var s := End(ss);
            steps <= steps' && End(ss') == s.(accounts := s.accounts[a := s.accounts[a].Prepare(t, ops[t][a])],
                                              transfers := s.transfers[t := GRANTED])
  {
    var s := End(ss);
    var replies := map[a := Vote(true)];
    var accounts := s.accounts[a := s.accounts[a].Prepare(t, ops[t][a])];
    var s1 := s.(transfers := s.transfers[t := NEW.(attempt := Asking(map[]))]);
    var s2 := s.(accounts := accounts, transfers := s.transfers[t := NEW.(attempt := Asking(replies))]);
    var s3 := s.(accounts := accounts, transfers :=
        s.transfers[t := NEW.(attempt := Decided(true), decision := Some(true))]);
    var s4 := s.(accounts := accounts, transfers := s.transfers[t := GRANTED]);
    assert Ask(ops, s1, t, a, false, s2) by { assert map[][a := Vote(true)] == replies; }
    assert MaySave(ops, t, replies, Some(true)) && Decide(ops, s2, t, s3);
    assert Tell(ops, s3, t, s4) by { assert {} + {true} == {true}; }
    ss', steps' := Further(ops, ss, steps, StartStep(t), s1);
    ss', steps' := Further(ops, ss', steps', AskStep(t, a, false), s2);
    ss', steps' := Further(ops, ss', steps', DecideStep(t), s3);
    ss', steps' := Further(ops, ss', steps', TellStep(t), s4);
  }

  const SPEND: Operations := [map[0 := -1], map[0 := -1]]
  const EARN: Operations := [map[0 := 1], map[0 := 1]]

  function Single(x: Actor, first: Transfer, second: Transfer, applied: map<nat, bool>): State {
    State([x], [first, second], [applied])
  }

  /** An account that reserves its part of the second transfer while the write of the first is pending. */
  function Reserving(): Actor { FRESH.Prepare(0, -1).Commit(0, true, -1).Prepare(1, -1) }

  lemma ReservingLoses()
    ensures var x := Reserving();
            && |x.pending| == 1 && x.Landed(0).pending == [] && Pending(x.account, 1)
            && x.Landed(0).account.debits == 1 && x.Landed(0).Reloaded().account.debits == 0
  {
  }

  lemma ReserveAndLand() returns (s: State, s1: State, s2: State, s3: State)
    ensures s == Single(FRESH.Prepare(0, -1).Commit(0, true, -1), GRANTED, NEW, map[0 := true])
    ensures Takes(SPEND, Single(FRESH.Prepare(0, -1), GRANTED, NEW, map[]), CommitStep(0, 0, true), s)
    ensures Takes(SPEND, s, StartStep(1), s1) && Takes(SPEND, s1, AskStep(1, 0, false), s2)
            && Takes(SPEND, s2, LandStep(0, 0), s3)
    ensures s3.accounts == [Reserving().Landed(0)]
  {
    s := Single(FRESH.Prepare(0, -1).Commit(0, true, -1), GRANTED, NEW, map[0 := true]);
    s1 := Single(FRESH.Prepare(0, -1).Commit(0, true, -1), GRANTED, NEW.(attempt := Asking(map[])), map[0 := true]);
    s2 := Single(Reserving(), GRANTED, NEW.(attempt := Asking(map[][0 := Vote(true)])), map[0 := true]);
    s3 := s2.(accounts := [Reserving().Landed(0)]);
  }

  /**
   * The late write of a commit overwrites a newer reservation: nothing is pending, and a reload loses the reservation.
   */
  lemma LateWriteLosesReservation() returns (ss: seq<State>, steps: seq<Step>)
    ensures Run(SPEND, ss, steps) && Safe(ss, steps) && |End(ss).accounts| == 1
    ensures var x := End(ss).accounts[0];
            x.pending == [] && Pending(x.account, 1) && x.account.debits == 1 && x.Reloaded().account.debits == 0
  {
    ReservingLoses();
    var s0 := Single(FRESH, NEW, NEW, map[]);
    ss, steps := [s0], [];
    ss, steps := Grants(SPEND, ss, steps, 0, 0);
    assert End(ss) == Single(FRESH.Prepare(0, -1), GRANTED, NEW, map[]);
    var s1, s2, s3, s4 := ReserveAndLand();
    hide Takes, Single, Reserving, Starts;
    ss, steps := Further(SPEND, ss, steps, CommitStep(0, 0, true), s1);
    ss, steps := Further(SPEND, ss, steps, StartStep(1), s2);
    ss, steps := Further(SPEND, ss, steps, AskStep(1, 0, false), s3);
    ss, steps := Further(SPEND, ss, steps, LandStep(0, 0), s4);
  }

  /** An account with the writes of two commits pending. */
  function Committing(): Actor { FRESH.Prepare(0, 1).Prepare(1, 1).Commit(0, true, 1).Commit(1, true, 1) }

  lemma CommittingLoses()
    ensures var x := Committing();
            && |x.pending| == 2 && |x.Landed(1).pending| == 1 && x.Landed(1).Landed(0).pending == []
            && x.account.balance == 5002 && x.Landed(1).Landed(0).account == x.account
            && x.Landed(1).Landed(0).Reloaded().account.balance == 5001
               && 1 !in x.Landed(1).Landed(0).Reloaded().account.committed
  {
  }

  lemma CommitTwo() returns (s: State, s1: State)
    ensures Takes(EARN, Single(FRESH.Prepare(0, 1).Prepare(1, 1), GRANTED, GRANTED, map[]), CommitStep(0, 0, true), s)
    ensures Takes(EARN, s, CommitStep(1, 0, true), s1)
            && s1 == Single(Committing(), GRANTED, GRANTED, map[0 := true][1 := true])
  {
    s := Single(FRESH.Prepare(0, 1).Prepare(1, 1).Commit(0, true, 1), GRANTED, GRANTED, map[0 := true]);
    s1 := Single(Committing(), GRANTED, GRANTED, map[0 := true][1 := true]);
  }

  lemma Overtake(s: State) returns (s1: State, s2: State)
    requires s == Single(Committing(), GRANTED, GRANTED, map[0 := true][1 := true])
    ensures Takes(EARN, s, LandStep(0, 1), s1) && Takes(EARN, s1, LandStep(0, 0), s2)
            && s2.accounts == [Committing().Landed(1).Landed(0)]
  {
    CommittingLoses();
    hide Committing;
    s1 := s.(accounts := [Committing().Landed(1)]);
    s2 := s.(accounts := [Committing().Landed(1).Landed(0)]);
  }

  lemma GrantsTwo() returns (ss: seq<State>, steps: seq<Step>)
    ensures Run(EARN, ss, steps) && Safe(ss, steps)
            && End(ss) == Single(FRESH.Prepare(0, 1).Prepare(1, 1), GRANTED, GRANTED, map[])
  {
    ss, steps := [Single(FRESH, NEW, NEW, map[])], [];
    ss, steps := Grants(EARN, ss, steps, 0, 0);
    assert End(ss) == Single(FRESH.Prepare(0, 1), GRANTED, NEW, map[]);
    ss, steps := Grants(EARN, ss, steps, 1, 0);
    assert End(ss) == Single(FRESH.Prepare(0, 1).Prepare(1, 1), GRANTED, GRANTED, map[]);
  }

  /** The write of a commit overtakes the one before it: nothing is pending, and a reload forgets the later commit. */
  lemma OvertakingLosesCommit() returns (ss: seq<State>, steps: seq<Step>)
    ensures Run(EARN, ss, steps) && Safe(ss, steps) && |End(ss).accounts| == 1
    ensures var x := End(ss).accounts[0];
            x.pending == [] && x.account.balance == 5002 && x.Reloaded().account.balance == 5001
            && 1 !in x.Reloaded().account.committed
  {
    CommittingLoses();
    ss, steps := GrantsTwo();
    var s1, s2 := CommitTwo();
    var s3, s4 := Overtake(s2);
    hide Takes, Single, Committing, Starts;
    ss, steps := Further(EARN, ss, steps, CommitStep(0, 0, true), s1);
    ss, steps := Further(EARN, ss, steps, CommitStep(1, 0, true), s2);
    ss, steps := Further(EARN, ss, steps, LandStep(0, 1), s3);
    ss, steps := Further(EARN, ss, steps, LandStep(0, 0), s4);
  }
}
