/** When the reply of a callee reaches the retry of its caller, and what happens when it does not. */
module ReplyLimits {
  import opened Messages
  import opened RecoverySpec
  import opened RecoveryTables
  import opened Routing
  import opened Protocol
  import opened ProtocolSteps
  import opened ProtocolRecovery
  import opened ProtocolInvariant
  import opened Guarantees

  // ----- where redirects come from -----

  /** Between w and w', a retry that waits for c was handed to a node. */
  ghost predicate Handed(w: World, w': World, c: string) {
    exists sp, id :: Added(w, w', sp) && Req(w', sp, id) && Child(w', sp) == c && sp.partition != 0
  }

  /** Action a hands a retry that waits for c to a node. */
  predicate Hands(r: Routes, a: Action, c: string) {
    NamesChild(a, c) && c != "" && r.Offering(ServiceOf(a.retry)) != []
  }

  lemma ActionRedirects(r: Routes, s: Shared, a: Action, pick: string, c: string)
    requires r.Valid() && c != "" && (a.Resend? ==> a.retry.IsRequest() && !a.retry.target.Node?
                                                    && MayPick(r, a.retry.target, pick))
    ensures c in AfterAction(r, s, a, pick).redirects <==> c in s.redirects || Hands(r, a, c)
  {
    if a.Resend? { RouteIsLive(r, s.placements, a.retry.target, pick); }
  }

  lemma {:induction false} ActionsRedirect(r: Routes, s: Shared, actions: seq<Action>, picks: seq<string>, c: string)
    requires r.Valid() && c != "" && Sane(actions) && MayPickAll(r, actions, picks)
    ensures c in AfterActions(r, s, actions, picks).redirects <==>
            c in s.redirects || exists i :: 0 <= i < |actions| && Hands(r, actions[i], c)
  {
    if actions != [] {
      var n := |actions| - 1;
      ActionsRedirect(r, s, actions[..n], picks[..n], c);
      ActionRedirects(r, AfterActions(r, s, actions[..n], picks[..n]), actions[n], picks[n], c);
      hide Hands;
      forall i | 0 <= i < n ensures actions[..n][i] == actions[i] {}
    }
  }

  lemma HandsLands(w: World, r: Routes, claims: seq<nat>, actions: seq<Action>, picks: seq<string>, w': World, i: nat,
                   c: string)
    requires Inv(w) && Recover(w, r, claims, actions, picks, w') && i < |actions| && Hands(r, actions[i], c)
    ensures Handed(w, w', c)
  {
    var m := actions[i].retry;
    RecoverFacts(w, r, claims, actions, picks, w');
    assert Decides(Entries(w, claims), r.Live(), actions);
    assert MustRetry(Entries(w, claims), r.Live(), m.id) && IsRetry(Entries(w, claims), m.id, m);
    hide Inv, Recover, Decides;
    DispatchedAs(w, r, claims, w', m.id, m);
  }

  /** The retry that was dispatched is the one decided on. */
  lemma DispatchedAs(w: World, r: Routes, claims: seq<nat>, w': World, id: string, m: Message)
    requires Recovered(w, w', claims, r.Live()) && Delivered(w, w', claims, r.Live()) && w'.routes == r
    requires MustRetry(Entries(w, claims), r.Live(), id) && IsRetry(Entries(w, claims), id, m) && m.IsRequest()
             && m.child != ""
    requires r.Offering(ServiceOf(m)) != []
    ensures Handed(w, w', m.child)
  {
    assert Dispatched(w, w', claims, id);
    var d :| IsRetry(Entries(w, claims), id, d)
      && if r.Offering(ServiceOf(d)) != [] then
           exists sp :: Added(w, w', sp) && Req(w', sp, id) && Msg(w', sp) == d && sp.partition != 0
         else
           || Parked(Entries(w, claims), id)
           || exists sp :: Added(w, w', sp) && Req(w', sp, id) && Msg(w', sp) == d && sp.partition == 0;
    SameRetry(Entries(w, claims), id, m, d);
    hide Recovered, Delivered, MustRetry, IsRetry;
    var sp :| Added(w, w', sp) && Req(w', sp, id) && Msg(w', sp) == d && sp.partition != 0;
    assert Child(w', sp) == m.child;
  }

  /** Two retries of a request wait for the same callee and are for the same service. */
  lemma SameRetry(es: seq<Entry>, id: string, m: Message, d: Message)
    requires m.IsRequest() && d.IsRequest() && IsRetry(es, id, m) && IsRetry(es, id, d) && m.child != ""
    ensures d.child == m.child && ServiceOf(d) == ServiceOf(m)
  {
    var l :| IsLatest(es, id, l) && l.IsRequest() && m == Retry(l, m.sequence, m.child);
    var k :| IsLatest(es, id, k) && k.IsRequest() && d == Retry(k, d.sequence, d.child);
    LatestUnique(es, id, l, k);
    SameChild(es, id, m.child, d.child);
  }

  lemma SameChild(es: seq<Entry>, id: string, c: string, d: string)
    requires WaitsFor(es, id, c) && WaitsFor(es, id, d) && c != ""
    ensures c == d
  {
    var i :| 0 <= i < |es| && CallsFrom(es[i], id) && es[i].msg.id == c && !Completed(es, c)
      && forall j :: i < j < |es| && CallsFrom(es[j], id) ==> Completed(es, es[j].msg.id);
    assert es[i] in es;
    assert PendingCallee(es, id, c);
  }

  lemma RecoverRedirects(w: World, r: Routes, claims: seq<nat>, actions: seq<Action>, picks: seq<string>, w': World,
                         c: string)
    requires Inv(w) && Recover(w, r, claims, actions, picks, w') && c != ""
    ensures c in w'.shared.redirects <==> c in w.shared.redirects || Handed(w, w', c)
  {
    DecidesSane(w, claims, r.Live(), actions);
    ActionsRedirect(r, w.shared, actions, picks, c);
    assert w'.shared.redirects == AfterActions(r, w.shared, actions, picks).redirects;
    if i :| 0 <= i < |actions| && Hands(r, actions[i], c) { HandsLands(w, r, claims, actions, picks, w', i, c); }
    if Handed(w, w', c) { HandedRedirects(w, r, claims, actions, picks, w', c); }
  }

  lemma HandedRedirects(w: World, r: Routes, claims: seq<nat>, actions: seq<Action>, picks: seq<string>, w': World,
                        c: string)
    requires Inv(w) && Recover(w, r, claims, actions, picks, w') && c != "" && Handed(w, w', c)
    ensures c in w'.shared.redirects
  {
    RecoverFacts(w, r, claims, actions, picks, w');
    hide Inv, Recover, Recovered, Delivered;
    var sp, id :| Added(w, w', sp) && Req(w', sp, id) && Child(w', sp) == c && sp.partition != 0;
  }

  lemma SameRedirects(w: World, s: Step, w': World)
    requires Next(w, s, w') && !Answering(s) && !s.RecoverStep?
    ensures w'.shared.redirects == w.shared.redirects
  {
    hide RouteTo;
  }

  lemma AnswerRedirects(w: World, m: Message, reply: Message, w': World, c: string)
    requires m.IsRequest() && w'.shared == Replied(w, m, reply).shared && w'.finished == Replied(w, m, reply).finished
             && c !in w'.finished
    ensures c in w'.shared.redirects <==> c in w.shared.redirects
  {
  }

  lemma StepRedirects(w: World, s: Step, w': World, c: string)
    requires Inv(w) && Next(w, s, w') && c != "" && c !in w'.finished
    ensures c !in w.finished
    ensures c in w'.shared.redirects <==> c in w.shared.redirects || (s.RecoverStep? && Handed(w, w', c))
  {
    hide Inv, Handed, Recover, Finish, Expire, Timeout, Issue, TailCall, Read, Crash, Open, Replied;
    FinishedGrows(w, s, w');
    if Answering(s) {
      AnswerFacts(w, s, w');
      AnswerRedirects(w, Msg(w, AnsweredAt(w, s)), s.reply, w', c);
    } else if s.RecoverStep? {
      RecoverRedirects(w, s.routes, s.claims, s.actions, s.picks, w', c);
    } else {
      SameRedirects(w, s, w');
    }
  }

  /** Step j is a recovery that hands a retry that waits for c to a node. */
  ghost predicate HandedAt(ws: seq<World>, steps: seq<Step>, j: int, c: string) {
    0 <= j < |steps| && j + 1 < |ws| && steps[j].RecoverStep? && Handed(ws[j], ws[j + 1], c)
  }

  /**
   * As long as c is unfinished, its reply is redirected if and only if some recovery handed a retry that waits for it
   * to a node.
   */
  lemma {:induction false} RedirectedIff(ws: seq<World>, steps: seq<Step>, k: nat, c: string)
    requires Run(ws, steps) && k < |ws| && c != "" && c !in ws[k].finished
    ensures c in ws[k].shared.redirects <==> c in ws[0].shared.redirects
                                             || exists j :: 0 <= j < k && HandedAt(ws, steps, j, c)
  {
    hide Inv, Next, Protocol.Init, Handed;
    if k > 0 {
      RunInv(ws, steps, k - 1);
      assert Next(ws[k - 1], steps[k - 1], ws[k - 1 + 1]);
      StepRedirects(ws[k - 1], steps[k - 1], ws[k], c);
      RedirectedIff(ws, steps, k - 1, c);
      assert HandedAt(ws, steps, k - 1, c) <==> steps[k - 1].RecoverStep? && Handed(ws[k - 1], ws[k], c);
      hide HandedAt;
    }
  }

  // ----- the reply of a callee -----

  lemma NamedCallee(w: World, s: Step, w': World, sp: Spot, id: string)
    requires Inv(w) && Next(w, s, w') && Answering(s) && Req(w, sp, id)
             && Child(w, sp) == Msg(w, AnsweredAt(w, s)).id != ""
    ensures var m := Msg(w, AnsweredAt(w, s));
            && m.Call? && w.routes.PartitionOf(m.caller) == 0 && m.id !in w.finished
            && (m.id in w'.finished <==> m.id in w.shared.redirects)
            && (m.id in w'.abandoned || m.id in w.shared.redirects)
  {
    AnswerFacts(w, s, w');
    var at := AnsweredAt(w, s);
    assert Req(w, at, Msg(w, at).id);
    hide Next, Holds, Shape, Ids, Chains, Targets, Progress, Evidence, Placed, Redirecting, Announced, Ordered;
  }

  /**
   * The reply of a callee that a retry names is written to the topic if and only if it is redirected, that is, if and
   * only if some recovery handed a retry that waits for it to a node; otherwise it is dropped.
   */
  lemma ReplyDeliveredIff(ws: seq<World>, steps: seq<Step>, k: nat, sp: Spot, id: string)
    requires Run(ws, steps) && k < |steps| && Answering(steps[k])
    requires Req(ws[k], sp, id) && Child(ws[k], sp) == Msg(ws[k], AnsweredAt(ws[k], steps[k])).id != ""
    ensures var c := Child(ws[k], sp);
            && (c in ws[k + 1].finished <==> c in ws[k].shared.redirects)
            && (c in ws[k + 1].finished <==> c in ws[0].shared.redirects
                                             || exists j :: 0 <= j < k && HandedAt(ws, steps, j, c))
            && (c !in ws[k + 1].finished ==> c in ws[k + 1].abandoned)
  {
    hide Inv, Next, Protocol.Init, HandedAt, Req;
    RunInv(ws, steps, k);
    assert Next(ws[k], steps[k], ws[k + 1]);
    NamedCallee(ws[k], steps[k], ws[k + 1], sp, id);
    RedirectedIff(ws, steps, k, Child(ws[k], sp));
  }

  // ----- a retry that is not set aside -----

  /** Only recovery writes records that name a callee. */
  lemma NamingIsHanded(w: World, s: Step, w': World, sp: Spot, id: string)
    requires Inv(w) && Next(w, s, w') && Req(w', sp, id) && Child(w', sp) != "" && sp.partition != 0
    ensures (Req(w, sp, id) && Child(w, sp) == Child(w', sp)) || (s.RecoverStep? && Handed(w, w', Child(w', sp)))
  {
    match s
    case IssueStep(m, pick) =>
      var added := IssueFacts(w, m, pick, w');
      hide Inv, Issue;
      ExtendFacts(w, w', added, m);
    case TailCallStep(at, m, pick) =>
      assert m.child == "";
      var added := TailCallFacts(w, at, m, pick, w');
      hide Inv, TailCall;
      ExtendFacts(w, w', added, m);
    case RecoverStep(r, claims, actions, picks) =>
      RecoverFacts(w, r, claims, actions, picks, w');
      hide Inv, Recover, Delivered, Repointed;
      if Holds(w, sp) {
        assert Survives(sp.partition, r.Live());
        RecoveredOld(w, w', claims, r.Live(), sp);
      } else {
        assert Added(w, w', sp);
      }
    case ReadStep(_) => SameSharedFacts(w, w');
    case CrashStep(_) => SameSharedFacts(w, w');
    case _ =>
      AnswerFacts(w, s, w');
      hide Inv, Next;
      AnswerRecords(w, Msg(w, AnsweredAt(w, s)), s.reply, w', sp, id);
  }

  lemma AnswerRecords(w: World, m: Message, reply: Message, w': World, sp: Spot, id: string)
    requires IsReplyFor(m, reply) && w'.shared == Replied(w, m, reply).shared && Req(w', sp, id)
    ensures Req(w, sp, id) && Child(w, sp) == Child(w', sp)
  {
    RepliedLog(w, m, reply, w');
    if ReplyTo(w, m).Nowhere? {
      SameSharedFacts(w, w');
    } else {
      ExtendFacts(w, w', Spot(ReplyTo(w, m).partition, |Log(w, ReplyTo(w, m).partition)|), reply);
    }
  }

  lemma {:induction false} NamedOnNodeIsHanded(ws: seq<World>, steps: seq<Step>, k: nat, sp: Spot, id: string)
    requires Run(ws, steps) && k < |ws| && Req(ws[k], sp, id) && Child(ws[k], sp) != "" && sp.partition != 0
    ensures exists j :: 0 <= j < k && HandedAt(ws, steps, j, Child(ws[k], sp))
  {
    hide Inv, Next, Handed;
    if k > 0 {
      hide Protocol.Init, Req;
      RunInv(ws, steps, k - 1);
      assert Next(ws[k - 1], steps[k - 1], ws[k - 1 + 1]);
      NamingIsHanded(ws[k - 1], steps[k - 1], ws[k], sp, id);
      if Req(ws[k - 1], sp, id) && Child(ws[k - 1], sp) == Child(ws[k], sp) {
        NamedOnNodeIsHanded(ws, steps, k - 1, sp, id);
      } else {
        assert HandedAt(ws, steps, k - 1, Child(ws[k], sp));
      }
    }
  }

  /** So a reply is dropped only while every retry that names the callee is set aside in partition 0. */
  lemma DroppedOnlyIfAside(ws: seq<World>, steps: seq<Step>, k: nat, sp: Spot, id: string)
    requires Run(ws, steps) && k < |steps| && Answering(steps[k])
    requires Req(ws[k], sp, id) && Child(ws[k], sp) == Msg(ws[k], AnsweredAt(ws[k], steps[k])).id != ""
    requires Child(ws[k], sp) !in ws[k + 1].finished
    ensures sp.partition == 0
  {
    hide Inv, Next, Protocol.Init, HandedAt, Req;
    ReplyDeliveredIff(ws, steps, k, sp, id);
    if sp.partition != 0 { NamedOnNodeIsHanded(ws, steps, k, sp, id); }
  }
}
