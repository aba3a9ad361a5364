/** Outside partition 0 there is at most one record of each step of a request. */
module ProtocolCopies {
  import opened Messages
  import opened RecoverySpec
  import opened RecoveryTables
  import opened Routing
  import opened Protocol
  import opened ProtocolSteps
  import opened ProtocolRecovery
  import opened ProtocolInvariant

  ghost predicate OneCopy(w: World) {
    forall x, y, id ::
      Req(w, x, id) && Req(w, y, id) && Num(w, x) == Num(w, y) && x.partition != 0 && y.partition != 0 ==> x == y
  }

  /** A record that is not of a request, or of a step not seen before, makes no copy. */
  lemma ExtendCopies(w: World, w': World, added: Spot, m: Message)
    requires OneCopy(w) && Extends(w, w', added, m)
    requires m.IsRequest() ==> forall x :: Req(w, x, m.id) ==> Num(w, x) < m.sequence
    ensures OneCopy(w')
  {
    ExtendFacts(w, w', added, m);
    assert forall sp, id :: Req(w, sp, id) ==> Num(w', sp) == Num(w, sp);
    assert forall id :: Req(w', added, id) ==> m.IsRequest() && id == m.id && Num(w', added) == m.sequence;
    hide Holds, Msg, Extends;
  }

  lemma SameCopies(w: World, w': World)
    requires OneCopy(w) && w'.shared == w.shared
    ensures OneCopy(w')
  {
    SameSharedFacts(w, w');
    hide Holds, Msg;
  }

  lemma AnswerCopies(w: World, s: Step, w': World)
    requires Inv(w) && Next(w, s, w') && Answering(s) && OneCopy(w)
    ensures OneCopy(w')
  {
    AnswerFacts(w, s, w');
    var m := Msg(w, AnsweredAt(w, s));
    hide Inv, Next;
    RepliedCopies(w, m, s.reply, w');
  }

  lemma RepliedCopies(w: World, m: Message, reply: Message, w': World)
    requires OneCopy(w) && IsReplyFor(m, reply) && w'.shared == Replied(w, m, reply).shared
    ensures OneCopy(w')
  {
    RepliedLog(w, m, reply, w');
    if ReplyTo(w, m).Nowhere? {
      SameCopies(w, w');
    } else {
      ExtendCopies(w, w', Spot(ReplyTo(w, m).partition, |Log(w, ReplyTo(w, m).partition)|), reply);
    }
  }

  lemma RetryCopies(w: World, claims: seq<nat>, live: set<nat>, w': World, x: Spot, y: Spot, id: string)
    requires Claims(w, claims) && Ids(w) && Chains(w) && Evidence(w) && Recovered(w, w', claims, live) && OneCopy(w)
    requires Added(w, w', y) && Req(w', y, id) && Req(w', x, id) && Holds(w, x) && x.partition != 0
    ensures Num(w', x) != Num(w', y)
  {
    var top, start := FreshRequest(w, claims, live, w', y, id);
    assert Survives(x.partition, live);
    RecoveredOld(w, w', claims, live, x);
    assert Req(w, x, id) && Num(w', x) == Num(w, x);
    hide Claims, Ids, Chains, Evidence, Recovered;
    assert Num(w, x) == Num(w, top) ==> TopAt(w, x, id);
    assert start.partition != 0 && Num(w, x) == Num(w, start) ==> x == start;
  }

  lemma RecoverPair(w: World, claims: seq<nat>, live: set<nat>, w': World, x: Spot, y: Spot, id: string)
    requires Claims(w, claims) && Ids(w) && Chains(w) && Evidence(w) && Recovered(w, w', claims, live) && OneCopy(w)
    requires Req(w', x, id) && Req(w', y, id) && Num(w', x) == Num(w', y) && x.partition != 0 && y.partition != 0
    ensures x == y
  {
    hide Claims, Ids, Chains, Evidence;
    if Holds(w, x) && Holds(w, y) {
      RecoveredOld(w, w', claims, live, x);
      RecoveredOld(w, w', claims, live, y);
      assert Req(w, x, id) && Req(w, y, id);
    } else if Holds(w, x) {
      RetryCopies(w, claims, live, w', x, y, id);
    } else if Holds(w, y) {
      RetryCopies(w, claims, live, w', y, x, id);
    } else {
      assert Added(w, w', x) && Added(w, w', y);
    }
  }

  lemma RecoverCopies(w: World, r: Routes, claims: seq<nat>, actions: seq<Action>, picks: seq<string>, w': World)
    requires Inv(w) && Recover(w, r, claims, actions, picks, w') && OneCopy(w)
    ensures OneCopy(w')
  {
    hide Shape, Ids, Chains, Targets, Attempts, Progress, Evidence, Placed, Lineage, Waits, Claims, Decides,
         AfterActions, Emptied, NextGeneration;
    RecoverFacts(w, r, claims, actions, picks, w');
    hide Recover, Recovered, Delivered, Repointed, Req, Num;
    forall x, y, id | Req(w', x, id) && Req(w', y, id) && Num(w', x) == Num(w', y) && x.partition != 0
    && y.partition != 0
      ensures x == y
    {
      RecoverPair(w, claims, r.Live(), w', x, y, id);
    }
  }

  lemma StepCopies(w: World, s: Step, w': World)
    requires Inv(w) && Next(w, s, w') && OneCopy(w)
    ensures OneCopy(w')
  {
    match s
    case IssueStep(m, pick) =>
      var added := IssueFacts(w, m, pick, w');
      hide Inv, Issue;
      ExtendCopies(w, w', added, m);
    case TailCallStep(at, m, pick) =>
      var added := TailCallFacts(w, at, m, pick, w');
      assert forall x :: Req(w, x, m.id) ==> Num(w, x) <= Num(w, at);
      hide Inv, TailCall;
      ExtendCopies(w, w', added, m);
    case RecoverStep(r, claims, actions, picks) => RecoverCopies(w, r, claims, actions, picks, w');
    case ReadStep(_) => SameCopies(w, w');
    case CrashStep(_) => SameCopies(w, w');
    case _ => AnswerCopies(w, s, w');
  }

  lemma {:induction false} RunCopies(ws: seq<World>, steps: seq<Step>, k: nat)
    requires Run(ws, steps) && k < |ws|
    ensures OneCopy(ws[k])
  {
    hide Inv, Next, OneCopy, Protocol.Init;
    if k == 0 {
      InitCopies(ws[0]);
    } else {
      RunCopies(ws, steps, k - 1);
      RunInv(ws, steps, k - 1);
      assert Next(ws[k - 1], steps[k - 1], ws[k - 1 + 1]);
      StepCopies(ws[k - 1], steps[k - 1], ws[k]);
    }
  }

  lemma InitCopies(w: World)
    requires Protocol.Init(w)
    ensures OneCopy(w)
  {
  }
}
