/** Runs of the retry protocol that show where its promises end. */
module RetryRuns {
  import opened Messages
  import opened RecoverySpec
  import opened Routing
  import opened Protocol
  import opened ProtocolRecovery
  import opened Guarantees
  import opened RetryLimits
  import opened Reattempts
  import opened RunBuilding

  // ----- a caller and its callee -----

  const K: Message := Tell("k", [], 0, Service("S"), "m", 0, "", "", false)
  const C: Message := Call("c", [], 0, Service("T"), "m", "A", 0, "", "k", false)

  const NONE: Routes := Routes(map[], map[])
  const ABE: Routes := Routes(map["S" := ["A"], "T" := ["B"], "U" := ["E"]], map["A" := 1, "B" := 2, "E" := 3])

  lemma LivesABE()
    ensures ABE.Live() == {1, 2, 3} && NONE.Live() == {}
  {
    assert "A" in ABE.partitions && "B" in ABE.partitions && "E" in ABE.partitions;
    assert 1 in ABE.Live() && 2 in ABE.Live() && 3 in ABE.Live();
  }

  function Topic(topic: map<nat, seq<Message>>, redirects: map<string, string>): Shared {
    Shared(topic, map[], redirects)
  }

  function W0(): World { World(Topic(map[], map[]), NONE, {}, map[], map[], {}, {}, {}, map[], {}) }

  function W1(): World {
    World(Topic(map[], map[]), ABE, {1, 2, 3}, map[1 := 0, 2 := 0, 3 := 0], map[], {}, {}, {}, map[], {"A", "B", "E"})
  }

  function W2(): World { W1().(shared := Topic(map[1 := [K]], map[]), issued := {"k"}) }

  function W3(): World { W2().(head := map[1 := 1, 2 := 0, 3 := 0], phase := map[Spot(1, 0) := Running]) }

  /** A world after k and c have been sent and before either is answered. */
  function At(shared: Shared, routes: Routes, alive: set<nat>, head: map<nat, nat>, phase: map<Spot, Phase>,
              abandoned: set<string>, known: set<string>): World {
    World(shared, routes, alive, head, phase, {"k", "c"}, {}, abandoned, map["c" := Origin("k", "A")], known)
  }

  const NODES: set<string> := {"A", "B", "E"}

  function S4(): Shared { Topic(map[1 := [K], 2 := [C]], map[]) }

  function W4(): World { At(S4(), ABE, {1, 2, 3}, map[1 := 1, 2 := 0, 3 := 0], map[Spot(1, 0) := Running], {}, NODES) }

  /** k runs on node A and waits for c, which runs on node B. */
  function W5(): World {
    At(S4(), ABE, {1, 2, 3}, map[1 := 1, 2 := 1, 3 := 0], map[Spot(1, 0) := Running, Spot(2, 0) := Running], {}, NODES)
  }

  lemma Generation0()
    ensures NextGeneration(W0(), ABE) && Claims(W0(), [0])
  {
  }

  lemma Frame0()
    ensures W1() == W0().(shared := W1().shared, routes := ABE, alive := {1, 2, 3}, head := W1().head,
                          known := W0().known + ABE.partitions.Keys)
    ensures W1().head == map p | p in {1, 2, 3} :: if p in W0().alive then Head(W0(), p) else 0
    ensures W1().shared == Emptied(W0().shared, DeadClaims([0], {1, 2, 3})) && Entries(W0(), [0]) == []
  {
    assert W1().known == W0().known + ABE.partitions.Keys;
    assert [0][..0] == [] && Reading(W0().shared, []) == [];
  }

  lemma Step0()
    ensures Next(W0(), RecoverStep(ABE, [0], [], []), W1())
  {
    hide NextGeneration, Claims, Decides, Reading, Emptied, W1;
    LivesABE();
    Generation0();
    Frame0();
    DecidesNone([], {1, 2, 3});
    RecoverFrom(W0(), ABE, [0], [], [], [], {1, 2, 3}, W0().shared, W1());
  }

  lemma Step1()
    ensures Next(W1(), IssueStep(K, "A"), W2())
  {
    assert [] + [K] == [K];
    assert W1().shared.Append(1, K) == W2().shared;
    IssueTo(W1(), K, "A", 1, W2());
  }

  lemma Step2()
    ensures Next(W2(), ReadStep(1), W3())
  {
  }

  lemma Step3()
    ensures Next(W3(), IssueStep(C, "B"), W4())
  {
    assert IsRunning(W3(), Spot(1, 0)) && Req(W3(), Spot(1, 0), "k");
    assert [] + [C] == [C];
    assert W3().shared.Append(2, C) == W4().shared;
    IssueTo(W3(), C, "B", 2, W4());
  }

  lemma Step4()
    ensures Next(W4(), ReadStep(2), W5())
  {
  }

  lemma CallerAndCallee() returns (ws: seq<World>, steps: seq<Step>)
    ensures Run(ws, steps) && |steps| == 5 && ws[5] == W5()
  {
    hide Next, W1, W2, W3, W4, W5;
    ws, steps := [W0()], [];
    Step0();
    ws, steps := Extended(ws, steps, RecoverStep(ABE, [0], [], []), W1());
    Step1();
    ws, steps := Extended(ws, steps, IssueStep(K, "A"), W2());
    Step2();
    ws, steps := Extended(ws, steps, ReadStep(1), W3());
    Step3();
    ws, steps := Extended(ws, steps, IssueStep(C, "B"), W4());
    Step4();
    ws, steps := Extended(ws, steps, ReadStep(2), W5());
  }

  // ----- a reply that is dropped -----

  /** The retry of k, which waits for c. */
  const KC: Message := Tell("k", [], 0, Service("S"), "m", 0, "c", "", false)
  const REPLY: Message := Response("c", [], 0, "", "A")

  const BE: Routes := Routes(map["T" := ["B"], "U" := ["E"]], map["B" := 2, "E" := 3])
  const BDE: Routes := Routes(map["T" := ["B", "D"], "U" := ["E"], "S" := ["D"]], map["B" := 2, "E" := 3, "D" := 4])

  lemma LivesBDE()
    ensures BE.Live() == {2, 3} && BDE.Live() == {2, 3, 4}
  {
    assert "B" in BE.partitions && "E" in BE.partitions && "B" in BDE.partitions && "D" in BDE.partitions
           && "E" in BDE.partitions;
    assert 2 in BE.Live() && 3 in BE.Live() && 2 in BDE.Live() && 3 in BDE.Live() && 4 in BDE.Live();
  }

  function W6(): World { At(S4(), ABE, {2, 3}, map[1 := 1, 2 := 1, 3 := 0], map[Spot(2, 0) := Running], {}, NODES) }

  function S6(): Shared { Topic(map[0 := [KC], 1 := [K], 2 := [C]], map[]) }

  function S7(): Shared { Topic(map[0 := [KC], 1 := [], 2 := [C]], map[]) }

  /** No node offers S: the retry is set aside, and nothing redirects the reply of c. */
  function W7(): World { At(S7(), BE, {2, 3}, map[2 := 1, 3 := 0], map[Spot(2, 0) := Running], {}, NODES) }

  /** c has returned, and its reply had nowhere to go. */
  function W8(): World { At(S7(), BE, {2, 3}, map[2 := 1, 3 := 0], map[], {"c"}, NODES) }

  function S8(): Shared { Topic(map[0 := [KC], 1 := [], 2 := [C], 4 := [KC]], map["c" := "D"]) }

  /** Node D offers S: it gets the retry. */
  function W9(): World { At(S8(), BDE, {2, 3, 4}, map[2 := 1, 3 := 0, 4 := 0], map[], {"c"}, NODES + {"D"}) }

  function W10(): World {
    At(S8(), BDE, {2, 3, 4}, map[2 := 1, 3 := 0, 4 := 1], map[Spot(4, 0) := Waiting], {"c"}, NODES + {"D"})
  }

  lemma Step5()
    ensures Next(W5(), CrashStep(1), W6())
  {
    assert W6().alive == W5().alive - {1};
    assert W6().phase == map sp | sp in W5().phase && sp.partition != 1 :: W5().phase[sp];
  }

  /** What the recovery at W6 reads. */
  function Es6(): seq<Entry> { [Entry(1, K), Entry(2, C)] }

  lemma Decides6(live: set<nat>)
    requires 1 !in live && 2 in live
    ensures Decides(Es6(), live, [Resend(KC, false)])
  {
    hide Decides;
    WaitsForLast(Es6(), "k", 1);
    SimpleDecides(Es6(), live, 0, "c");
  }

  lemma Generation6()
    ensures NextGeneration(W6(), BE)
  {
    assert BE.Valid();
  }

  lemma Claims6()
    ensures Claims(W6(), [0, 1, 2])
  {
    hide K, C, KC;
  }

  lemma Reading6()
    ensures Entries(W6(), [0, 1, 2]) == Es6()
  {
    hide Reading, K, C, KC;
    ReadingOf3(W6().shared, 0, 1, 2);
  }

  lemma Effect6()
    ensures AfterActions(BE, W6().shared, [Resend(KC, false)], [""]) == S6()
  {
    AfterOne(BE, W6().shared, Resend(KC, false), "");
    assert [] + [KC] == [KC];
    assert RouteTo(BE, map[], Service("S"), "") == Route("", 0, map[]);
    assert W6().shared.Append(0, KC) == S6();
  }

  lemma Emptied6()
    ensures W7().shared == Emptied(S6(), DeadClaims([0, 1, 2], {2, 3}))
  {
    assert DeadClaims([0, 1, 2], {2, 3}) == {1};
    EmptiedOne(S6(), 1, [0, 1, 2], {2, 3});
    hide Emptied, DeadClaims;
    assert S7() == S6().(topic := S6().topic[1 := []]);
  }

  lemma Frame6()
    ensures W7() == W6().(shared := W7().shared, routes := BE, alive := {2, 3}, head := W7().head,
                          known := W6().known + BE.partitions.Keys)
    ensures W7().head == map p | p in {2, 3} :: if p in W6().alive then Head(W6(), p) else 0
  {
    assert BE.partitions.Keys == {"B", "E"};
    assert W7().known == W6().known + BE.partitions.Keys;
    hide BE, NODES;
  }

  lemma Step6()
    ensures Next(W6(), RecoverStep(BE, [0, 1, 2], [Resend(KC, false)], [""]), W7())
  {
    hide NextGeneration, Claims, Decides, AfterActions, Emptied, Reading, Es6, W6, W7, S6;
    LivesBDE();
    Generation6();
    Claims6();
    Reading6();
    Effect6();
    Emptied6();
    Frame6();
    Decides6({2, 3});
    RecoverFrom(W6(), BE, [0, 1, 2], [Resend(KC, false)], [""], Es6(), {2, 3}, S6(), W7());
  }

  lemma Step7()
    ensures Next(W7(), FinishStep(Spot(2, 0), REPLY), W8())
  {
    assert W7().abandoned + {"c"} == {"c"} && W7().phase - {Spot(2, 0)} == map[];
  }

  function Es8(): seq<Entry> { [Entry(0, KC), Entry(2, C)] }

  lemma Decides8()
    ensures Decides(Es8(), {2, 3, 4}, [Resend(KC, true)])
  {
    hide Decides;
    WaitsForLast(Es8(), "k", 1);
    SimpleDecides(Es8(), {2, 3, 4}, 0, "c");
  }

  lemma ValidBDE()
    ensures BDE.Valid()
  {
  }

  lemma Generation8()
    ensures NextGeneration(W8(), BDE)
  {
    ValidBDE();
    hide Routes.Valid;
    assert BDE.partitions == map["B" := 2, "E" := 3, "D" := 4] && W8().routes.partitions == map["B" := 2, "E" := 3];
    assert Log(W8(), 4) == [];
  }

  lemma Claims8()
    ensures Claims(W8(), [0, 1, 2])
  {
    hide K, C, KC;
  }

  lemma Reading8()
    ensures Entries(W8(), [0, 1, 2]) == Es8()
  {
    hide Reading, K, C, KC;
    ReadingOf3(W8().shared, 0, 1, 2);
  }

  lemma Effect8()
    ensures AfterActions(BDE, W8().shared, [Resend(KC, true)], ["D"]) == S8()
  {
    AfterOne(BDE, W8().shared, Resend(KC, true), "D");
    assert [] + [KC] == [KC];
    assert RouteTo(BDE, map[], Service("S"), "D") == Route("D", 4, map[]);
    assert W8().shared.(redirects := map["c" := "D"]).Append(4, KC) == S8();
  }

  lemma Emptied8()
    ensures W9().shared == Emptied(S8(), DeadClaims([0, 1, 2], {2, 3, 4}))
  {
  }

  lemma Frame8()
    ensures W9() == W8().(shared := W9().shared, routes := BDE, alive := {2, 3, 4}, head := W9().head,
                          known := W8().known + BDE.partitions.Keys)
    ensures W9().head == map p | p in {2, 3, 4} :: if p in W8().alive then Head(W8(), p) else 0
  {
    assert BDE.partitions.Keys == {"B", "E", "D"};
    assert W9().known == W8().known + BDE.partitions.Keys;
    hide BDE, NODES;
  }

  lemma Step8()
    ensures Next(W8(), RecoverStep(BDE, [0, 1, 2], [Resend(KC, true)], ["D"]), W9())
  {
    hide NextGeneration, Claims, Decides, AfterActions, Emptied, Reading, Es8, W8, W9, S8;
    LivesBDE();
    Generation8();
    Claims8();
    Reading8();
    Effect8();
    Emptied8();
    Frame8();
    Decides8();
    RecoverFrom(W8(), BDE, [0, 1, 2], [Resend(KC, true)], ["D"], Es8(), {2, 3, 4}, S8(), W9());
  }

  lemma Step9()
    ensures Next(W9(), ReadStep(4), W10())
  {
  }

  lemma StuckAt10()
    ensures Open(W10(), Spot(4, 0), "k") && W10().phase[Spot(4, 0)].Waiting? && Child(W10(), Spot(4, 0)) == "c"
    ensures forall x :: !Open(W10(), x, "c") && !Pending(W10(), x, "c") && !Reply(W10(), x, "c")
  {
    forall x ensures !Open(W10(), x, "c") && !Pending(W10(), x, "c") && !Reply(W10(), x, "c") {
      assert Req(W10(), x, "c") ==> x == Spot(2, 0);
    }
  }

  /**
   * k calls c and its node dies while nobody else offers its service; c returns, and its reply is dropped. A retry of
   * k that a new node gets then waits for a callee that is not pending and whose reply will not come.
   */
  lemma WaitsForDroppedReply() returns (ws: seq<World>, steps: seq<Step>)
    ensures Run(ws, steps) && |steps| == 10 && ws[10] == W10() && ws[7] == W7() && ws[8] == W8()
            && steps[7] == FinishStep(Spot(2, 0), REPLY)
    ensures Open(W10(), Spot(4, 0), "k") && W10().phase[Spot(4, 0)].Waiting? && Child(W10(), Spot(4, 0)) == "c"
    ensures forall x :: !Open(W10(), x, "c") && !Pending(W10(), x, "c") && !Reply(W10(), x, "c")
  {
    StuckAt10();
    hide Next, W5, W6, W7, W8, W9, W10, Open, Pending, Reply;
    ws, steps := CallerAndCallee();
    Step5();
    ws, steps := Extended(ws, steps, CrashStep(1), W6());
    Step6();
    ws, steps := Extended(ws, steps, RecoverStep(BE, [0, 1, 2], [Resend(KC, false)], [""]), W7());
    Step7();
    ws, steps := Extended(ws, steps, FinishStep(Spot(2, 0), REPLY), W8());
    Step8();
    ws, steps := Extended(ws, steps, RecoverStep(BDE, [0, 1, 2], [Resend(KC, true)], ["D"]), W9());
    Step9();
    ws, steps := Extended(ws, steps, ReadStep(4), W10());
  }

  /** That run can go on to another attempt of c, although its handler had returned. */
  lemma ReturnedIsAttemptedAgain() returns (ws: seq<World>, steps: seq<Step>, sp: Spot)
    ensures Run(ws, steps) && |steps| > 8 && ws[8] == W8() && "c" in W8().abandoned
            && steps[7] == FinishStep(Spot(2, 0), REPLY)
    ensures Req(ws[7], Spot(2, 0), "c") && Open(ws[|steps|], sp, "c")
  {
    assert "c" in W8().abandoned && "c" in W10().issued && "c" !in W10().finished && Req(W7(), Spot(2, 0), "c");
    hide Next, W7, W8, W10, Open, Pending, Reply, Req;
    ws, steps := WaitsForDroppedReply();
    ws, steps, sp := CanBeAttempted(ws, steps, "c");
  }

  // ----- a redirect that outlives its node -----

  function R6(): Shared { Topic(map[1 := [K], 2 := [C], 4 := [KC]], map["c" := "D"]) }

  function R7(): Shared { Topic(map[1 := [], 2 := [C], 4 := [KC]], map["c" := "D"]) }

  /** Node D got the retry of k. */
  function Y7(): World {
    At(R7(), BDE, {2, 3, 4}, map[2 := 1, 3 := 0, 4 := 0], map[Spot(2, 0) := Running], {}, NODES + {"D"})
  }

  function Y8(): World {
    At(R7(), BDE, {2, 3}, map[2 := 1, 3 := 0, 4 := 0], map[Spot(2, 0) := Running], {}, NODES + {"D"})
  }

  function R8(): Shared { Topic(map[0 := [KC], 1 := [], 2 := [C], 4 := [KC]], map["c" := "D"]) }

  function R9(): Shared { Topic(map[0 := [KC], 1 := [], 2 := [C], 4 := []], map["c" := "D"]) }

  /** Node D died, and the retry is set aside. */
  function Y9(): World { At(R9(), BE, {2, 3}, map[2 := 1, 3 := 0], map[Spot(2, 0) := Running], {}, NODES + {"D"}) }

  function R10(): Shared { Topic(map[0 := [KC, REPLY], 1 := [], 2 := [C], 4 := []], map[]) }

  function Y10(): World { At(R10(), BE, {2, 3}, map[2 := 1, 3 := 0], map[], {}, NODES + {"D"}).(finished := {"c"}) }

  lemma OutliveEffect6()
    ensures AfterActions(BDE, W6().shared, [Resend(KC, false)], ["D"]) == R6()
  {
    AfterOne(BDE, W6().shared, Resend(KC, false), "D");
    assert [] + [KC] == [KC];
    assert RouteTo(BDE, map[], Service("S"), "D") == Route("D", 4, map[]);
    assert W6().shared.(redirects := map["c" := "D"]).Append(4, KC) == R6();
  }

  lemma OutliveEmptied6()
    ensures Y7().shared == Emptied(R6(), DeadClaims([0, 1, 2], {2, 3, 4}))
  {
    hide K, C, KC, BDE, NODES;
    assert DeadClaims([0, 1, 2], {2, 3, 4}) == {1};
    EmptiedOne(R6(), 1, [0, 1, 2], {2, 3, 4});
    hide Emptied, DeadClaims;
    assert R7() == R6().(topic := R6().topic[1 := []]);
  }

  lemma OutliveHeads6()
    ensures Y7().head == map p | p in {2, 3, 4} :: if p in W6().alive then Head(W6(), p) else 0
  {
  }

  lemma OutliveFrame6()
    ensures Y7() == W6().(shared := Y7().shared, routes := BDE, alive := {2, 3, 4}, head := Y7().head,
                          known := W6().known + BDE.partitions.Keys)
  {
    assert BDE.partitions.Keys == {"B", "E", "D"};
    assert Y7().known == W6().known + BDE.partitions.Keys;
    hide BDE, NODES;
  }

  lemma OutliveGeneration6()
    ensures NextGeneration(W6(), BDE)
  {
    hide NextGeneration;
    AfterABE(W6());
  }

  lemma OutliveStep6()
    ensures Next(W6(), RecoverStep(BDE, [0, 1, 2], [Resend(KC, false)], ["D"]), Y7())
  {
    hide NextGeneration, Claims, Decides, AfterActions, Emptied, Reading, Es6, W6, Y7, R6;
    LivesBDE();
    OutliveGeneration6();
    Claims6();
    Reading6();
    OutliveEffect6();
    OutliveEmptied6();
    OutliveHeads6();
    OutliveFrame6();
    Decides6({2, 3, 4});
    RecoverFrom(W6(), BDE, [0, 1, 2], [Resend(KC, false)], ["D"], Es6(), {2, 3, 4}, R6(), Y7());
  }

  lemma OutliveStep7()
    ensures Next(Y7(), CrashStep(4), Y8())
  {
    assert Y8().alive == Y7().alive - {4};
    assert Y8().phase == map sp | sp in Y7().phase && sp.partition != 4 :: Y7().phase[sp];
  }

  function Rs8(): seq<Entry> { [Entry(2, C), Entry(4, KC)] }

  lemma OutliveDecides8()
    ensures Decides(Rs8(), {2, 3}, [Resend(KC, false)])
  {
    hide Decides;
    WaitsForLast(Rs8(), "k", 0);
    SimpleDecides(Rs8(), {2, 3}, 1, "c");
  }

  lemma ValidBE()
    ensures BE.Valid()
  {
  }

  lemma BackToBE(w: World)
    requires w.routes == BDE && w.alive == {2, 3} && w.known == NODES + {"D"}
    ensures NextGeneration(w, BE)
  {
    ValidBE();
    hide Routes.Valid;
    assert w.routes.partitions.Keys == {"B", "E", "D"} && BE.partitions.Keys == {"B", "E"};
    assert w.routes.partitions["B"] == 2 && w.routes.partitions["E"] == 3 && w.routes.partitions["D"] == 4;
    assert BE.partitions["B"] == 2 && BE.partitions["E"] == 3 && "E" in NODES && "B" in NODES;
    hide BDE, BE, NODES;
  }

  lemma OutliveClaims8()
    ensures Claims(Y8(), [0, 2, 4])
  {
    hide K, C, KC;
  }

  lemma OutliveReading8()
    ensures Entries(Y8(), [0, 2, 4]) == Rs8()
  {
    hide Reading, K, C, KC;
    ReadingOf3(Y8().shared, 0, 2, 4);
  }

  lemma OutliveEffect8()
    ensures AfterActions(BE, Y8().shared, [Resend(KC, false)], [""]) == R8()
  {
    AfterOne(BE, Y8().shared, Resend(KC, false), "");
    assert [] + [KC] == [KC];
    assert RouteTo(BE, map[], Service("S"), "") == Route("", 0, map[]);
    assert R7().Append(0, KC) == R8();
  }

  lemma OutliveEmptied8()
    ensures Y9().shared == Emptied(R8(), DeadClaims([0, 2, 4], {2, 3}))
  {
    hide K, C, KC, BE, NODES;
    assert DeadClaims([0, 2, 4], {2, 3}) == {4};
    EmptiedOne(R8(), 4, [0, 2, 4], {2, 3});
    hide Emptied, DeadClaims;
    assert R9() == R8().(topic := R8().topic[4 := []]);
  }

  lemma OutliveFrame8()
    ensures Y9() == Y8().(shared := Y9().shared, routes := BE, alive := {2, 3}, head := Y9().head,
                          known := Y8().known + BE.partitions.Keys)
    ensures Y9().head == map p | p in {2, 3} :: if p in Y8().alive then Head(Y8(), p) else 0
  {
    assert BE.partitions.Keys == {"B", "E"};
    assert Y9().known == Y8().known + BE.partitions.Keys;
    hide BE, NODES;
  }

  lemma OutliveGeneration8()
    ensures NextGeneration(Y8(), BE)
  {
    hide NextGeneration;
    BackToBE(Y8());
  }

  lemma OutliveStep8()
    ensures Next(Y8(), RecoverStep(BE, [0, 2, 4], [Resend(KC, false)], [""]), Y9())
  {
    hide NextGeneration, Claims, Decides, AfterActions, Emptied, Reading, Rs8, Y8, Y9, R8;
    LivesBDE();
    OutliveGeneration8();
    OutliveClaims8();
    OutliveReading8();
    OutliveEffect8();
    OutliveEmptied8();
    OutliveFrame8();
    OutliveDecides8();
    RecoverFrom(Y8(), BE, [0, 2, 4], [Resend(KC, false)], [""], Rs8(), {2, 3}, R8(), Y9());
  }

  lemma OutliveReplied9()
    ensures Replied(Y9(), C, REPLY) == Y9().(shared := R10(), finished := Y9().finished + {"c"})
  {
    assert ReplyTo(Y9(), C) == Redirected(0) && C.id == "c";
    OutliveAppend9();
    hide ReplyTo, R9, R10, C, REPLY, NODES, BE;
  }

  lemma OutliveAppend9()
    ensures R9().Append(0, REPLY).(redirects := R9().redirects - {"c"}) == R10()
  {
    hide K, C, KC, REPLY;
    assert [KC] + [REPLY] == [KC, REPLY];
    assert R9().redirects - {"c"} == map[];
  }

  lemma OutliveStep9()
    ensures Next(Y9(), FinishStep(Spot(2, 0), REPLY), Y10())
  {
    OutliveReplied9();
    hide Replied;
    assert Y9().phase - {Spot(2, 0)} == map[] && Y9().finished + {"c"} == {"c"};
  }

  lemma OutliveAt9()
    ensures Req(Y9(), Spot(0, 0), "k") && Child(Y9(), Spot(0, 0)) == "c" && "c" in Y10().finished
    ensures forall sp :: Req(Y9(), sp, "k") ==> sp.partition == 0
  {
  }

  /**
   * Node D gets a retry that waits for c and dies, and the retry is set aside again. The redirect it left still
   * delivers the reply of c, to partition 0, though every record of the retry is in partition 0.
   */
  lemma RedirectOutlivesNode() returns (ws: seq<World>, steps: seq<Step>)
    ensures Run(ws, steps) && |steps| > 0 && ws[|steps| - 1] == Y9() && ws[|steps|] == Y10()
            && steps[|steps| - 1] == FinishStep(Spot(2, 0), REPLY)
    ensures Req(Y9(), Spot(0, 0), "k") && Child(Y9(), Spot(0, 0)) == "c" && forall sp :: Req(Y9(), sp, "k") ==>
            sp.partition == 0
    ensures "c" in Y10().finished
  {
    OutliveAt9();
    hide Next, W5, W6, Y7, Y8, Y9, Y10, Req, Child;
    ws, steps := CallerAndCallee();
    Step5();
    ws, steps := Extended(ws, steps, CrashStep(1), W6());
    OutliveStep6();
    ws, steps := Extended(ws, steps, RecoverStep(BDE, [0, 1, 2], [Resend(KC, false)], ["D"]), Y7());
    OutliveStep7();
    ws, steps := Extended(ws, steps, CrashStep(4), Y8());
    OutliveStep8();
    ws, steps := Extended(ws, steps, RecoverStep(BE, [0, 2, 4], [Resend(KC, false)], [""]), Y9());
    OutliveStep9();
    ws, steps := Extended(ws, steps, FinishStep(Spot(2, 0), REPLY), Y10());
  }

  // ----- a caller of two callees -----

  const D: Message := Call("d", [], 0, Service("U"), "m", "A", 0, "", "k", false)
  /** The retry of k, which waits for d. */
  const KD: Message := Tell("k", [], 0, Service("S"), "m", 0, "d", "", false)
  const REPLY_D: Message := Response("d", [], 0, "", "A")

  /** A world after k, c and d have been sent. */
  function Both(shared: Shared, routes: Routes, alive: set<nat>, head: map<nat, nat>, phase: map<Spot, Phase>,
                finished: set<string>, known: set<string>): World {
    World(shared, routes, alive, head, phase, {"k", "c", "d"}, finished, {},
          map["c" := Origin("k", "A"), "d" := Origin("k", "A")], known)
  }

  function B5(): Shared { Topic(map[1 := [K], 2 := [C], 3 := [D]], map[]) }

  function U6(): World {
    Both(B5(), ABE, {1, 2, 3}, map[1 := 1, 2 := 1, 3 := 0], map[Spot(1, 0) := Running, Spot(2, 0) := Running], {},
         NODES)
  }

  function U7(): World { Both(B5(), ABE, {2, 3}, map[1 := 1, 2 := 1, 3 := 0], map[Spot(2, 0) := Running], {}, NODES) }

  function B7(): Shared { Topic(map[1 := [K], 2 := [C], 3 := [D], 4 := [KD]], map["d" := "D"]) }

  function B8(): Shared { Topic(map[1 := [], 2 := [C], 3 := [D], 4 := [KD]], map["d" := "D"]) }

  function U8(): World {
    Both(B8(), BDE, {2, 3, 4}, map[2 := 1, 3 := 0, 4 := 0], map[Spot(2, 0) := Running], {}, NODES + {"D"})
  }

  function U9(): World {
    Both(B8(), BDE, {2, 3, 4}, map[2 := 1, 3 := 0, 4 := 1], map[Spot(2, 0) := Running, Spot(4, 0) := Waiting], {},
         NODES + {"D"})
  }

  function U10(): World {
    Both(B8(), BDE, {2, 3, 4}, map[2 := 1, 3 := 1, 4 := 1],
         map[Spot(2, 0) := Running, Spot(3, 0) := Running, Spot(4, 0) := Waiting], {}, NODES + {"D"})
  }

  function B11(): Shared { Topic(map[1 := [], 2 := [C], 3 := [D], 4 := [KD, REPLY_D]], map[]) }

  function U11(): World {
    Both(B11(), BDE, {2, 3, 4}, map[2 := 1, 3 := 1, 4 := 1], map[Spot(2, 0) := Running, Spot(4, 0) := Waiting], {"d"},
         NODES + {"D"})
  }

  function U12(): World {
    Both(B11(), BDE, {2, 3, 4}, map[2 := 1, 3 := 1, 4 := 2], map[Spot(2, 0) := Running, Spot(4, 0) := Running], {"d"},
         NODES + {"D"})
  }

  lemma BothStep5()
    ensures Next(W5(), IssueStep(D, "E"), U6())
  {
    assert IsRunning(W5(), Spot(1, 0)) && Req(W5(), Spot(1, 0), "k");
    assert [] + [D] == [D];
    assert S4().Append(3, D) == B5();
    IssueTo(W5(), D, "E", 3, U6());
  }

  lemma BothStep6()
    ensures Next(U6(), CrashStep(1), U7())
  {
    assert U7().alive == U6().alive - {1};
    assert U7().phase == map sp | sp in U6().phase && sp.partition != 1 :: U6().phase[sp];
  }

  function Bs7(): seq<Entry> { [Entry(1, K), Entry(2, C), Entry(3, D)] }

  lemma BothDecides7()
    ensures Decides(Bs7(), {2, 3, 4}, [Resend(KD, false)])
  {
    hide Decides;
    WaitsForLast(Bs7(), "k", 2);
    SimpleDecides(Bs7(), {2, 3, 4}, 0, "d");
  }

  lemma AfterABE(w: World)
    requires w.routes == ABE && w.alive == {2, 3} && w.known == NODES && Log(w, 4) == []
    ensures NextGeneration(w, BDE)
  {
    ValidBDE();
    hide Routes.Valid, Log;
    assert w.routes.partitions.Keys == {"A", "B", "E"} && BDE.partitions.Keys == {"B", "E", "D"};
    assert BDE.partitions["B"] == 2 && BDE.partitions["E"] == 3 && BDE.partitions["D"] == 4;
    assert w.routes.partitions["A"] == 1 && w.routes.partitions["B"] == 2 && w.routes.partitions["E"] == 3;
    assert "D" !in NODES;
    hide ABE, BDE, NODES;
  }

  lemma BothGeneration7()
    ensures NextGeneration(U7(), BDE)
  {
    hide NextGeneration;
    AfterABE(U7());
  }

  lemma BothClaims7()
    ensures Claims(U7(), [0, 1, 2, 3])
  {
  }

  lemma BothReading7()
    ensures Entries(U7(), [0, 1, 2, 3]) == Bs7()
  {
    hide Reading;
    ReadingOf4(U7().shared, 0, 1, 2, 3);
  }

  lemma BothEffect7()
    ensures AfterActions(BDE, U7().shared, [Resend(KD, false)], ["D"]) == B7()
  {
    AfterOne(BDE, U7().shared, Resend(KD, false), "D");
    assert [] + [KD] == [KD];
    assert RouteTo(BDE, map[], Service("S"), "D") == Route("D", 4, map[]);
    assert B5().(redirects := map["d" := "D"]).Append(4, KD) == B7();
  }

  lemma BothEmptied7()
    ensures U8().shared == Emptied(B7(), DeadClaims([0, 1, 2, 3], {2, 3, 4}))
  {
    hide K, C, D, KD, BDE, NODES;
    assert U8().shared == B8();
    assert B8() == B7().(topic := B7().topic[1 := []]);
    assert DeadClaims([0, 1, 2, 3], {2, 3, 4}) == {1} && 1 in B7().topic;
    hide *;
    EmptiedOne(B7(), 1, [0, 1, 2, 3], {2, 3, 4});
  }

  lemma BothHeads7()
    ensures U8().head == map p | p in {2, 3, 4} :: if p in U7().alive then Head(U7(), p) else 0
  {
  }

  lemma BothFrame7()
    ensures U8() == U7().(shared := U8().shared, routes := BDE, alive := {2, 3, 4}, head := U8().head,
                          known := U7().known + BDE.partitions.Keys)
  {
    assert BDE.partitions.Keys == {"B", "E", "D"};
    assert U8().known == U7().known + BDE.partitions.Keys;
    hide BDE, NODES;
  }

  lemma BothStep7()
    ensures Next(U7(), RecoverStep(BDE, [0, 1, 2, 3], [Resend(KD, false)], ["D"]), U8())
  {
    hide NextGeneration, Claims, Decides, AfterActions, Emptied, Reading, Bs7, U7, U8, B7;
    LivesBDE();
    BothGeneration7();
    BothClaims7();
    BothReading7();
    BothEffect7();
    BothEmptied7();
    BothHeads7();
    BothFrame7();
    BothDecides7();
    RecoverFrom(U7(), BDE, [0, 1, 2, 3], [Resend(KD, false)], ["D"], Bs7(), {2, 3, 4}, B7(), U8());
  }

  lemma BothStep8()
    ensures Next(U8(), ReadStep(4), U9())
  {
  }

  lemma BothStep9()
    ensures Next(U9(), ReadStep(3), U10())
  {
  }

  lemma BothReplied10()
    ensures Replied(U10(), D, REPLY_D) == U10().(shared := B11(), finished := U10().finished + {"d"})
  {
    assert [KD] + [REPLY_D] == [KD, REPLY_D];
    assert ReplyTo(U10(), D) == Redirected(4);
    assert B8().Append(4, REPLY_D).(redirects := map[]) == B11();
  }

  lemma BothStep10()
    ensures Next(U10(), FinishStep(Spot(3, 0), REPLY_D), U11())
  {
    BothReplied10();
    hide Replied;
    assert U10().phase - {Spot(3, 0)} == U11().phase && U10().finished + {"d"} == {"d"};
  }

  lemma BothStep11()
    ensures Next(U11(), ReadStep(4), U12())
  {
    assert Woken(U11(), 4, "d") == U12().phase;
  }

  lemma BothAt12()
    ensures IsRunning(U12(), Spot(4, 0)) && Req(U12(), Spot(4, 0), "k")
    ensures CalledPending(U12(), "k", "c") && Open(U12(), Spot(2, 0), "c") && Traced(U12(), "k", "c")
  {
    assert Req(U12(), Spot(2, 0), "c");
  }

  /** k calls c and d at the same time and its node dies: the retry of k waits for d only, and runs beside c. */
  lemma RetryRunsBesideFirst() returns (ws: seq<World>, steps: seq<Step>)
    ensures Run(ws, steps) && ws[|steps|] == U12()
    ensures IsRunning(U12(), Spot(4, 0)) && Req(U12(), Spot(4, 0), "k")
    ensures CalledPending(U12(), "k", "c") && Open(U12(), Spot(2, 0), "c") && Traced(U12(), "k", "c")
  {
    BothAt12();
    hide Next, W5, U6, U7, U8, U9, U10, U11, U12, Traced, Open, CalledPending, Req, IsRunning;
    ws, steps := CallerAndCallee();
    BothStep5();
    ws, steps := Extended(ws, steps, IssueStep(D, "E"), U6());
    BothStep6();
    ws, steps := Extended(ws, steps, CrashStep(1), U7());
    BothStep7();
    ws, steps := Extended(ws, steps, RecoverStep(BDE, [0, 1, 2, 3], [Resend(KD, false)], ["D"]), U8());
    BothStep8();
    ws, steps := Extended(ws, steps, ReadStep(4), U9());
    BothStep9();
    ws, steps := Extended(ws, steps, ReadStep(3), U10());
    BothStep10();
    ws, steps := Extended(ws, steps, FinishStep(Spot(3, 0), REPLY_D), U11());
    BothStep11();
    ws, steps := Extended(ws, steps, ReadStep(4), U12());
  }

  // ----- a callee that is forgotten -----

  /** The tail call of c; it does not carry the parent. */
  const C1: Message := Call("c", [], 0, Service("U"), "m", "A", 1, "", "", false)

  const AE: Routes := Routes(map["S" := ["A"], "U" := ["E"]], map["A" := 1, "E" := 3])
  const ED: Routes := Routes(map["S" := ["D"], "U" := ["E"]], map["E" := 3, "D" := 4])

  lemma LivesED()
    ensures AE.Live() == {1, 3} && ED.Live() == {3, 4}
  {
    assert "A" in AE.partitions && "E" in AE.partitions && "E" in ED.partitions && "D" in ED.partitions;
    assert 1 in AE.Live() && 3 in AE.Live() && 3 in ED.Live() && 4 in ED.Live();
  }

  function T6(): Shared { Topic(map[1 := [K], 2 := [C], 3 := [C1]], map[]) }

  function V6(): World { At(T6(), ABE, {1, 2, 3}, map[1 := 1, 2 := 1, 3 := 0], map[Spot(1, 0) := Running], {}, NODES) }

  function V7(): World { At(T6(), ABE, {1, 3}, map[1 := 1, 2 := 1, 3 := 0], map[Spot(1, 0) := Running], {}, NODES) }

  function T8(): Shared { Topic(map[1 := [K], 2 := [], 3 := [C1]], map[]) }

  /** The first record of c is gone. */
  function V8(): World { At(T8(), AE, {1, 3}, map[1 := 1, 3 := 0], map[Spot(1, 0) := Running], {}, NODES) }

  function V9(): World { At(T8(), AE, {3}, map[1 := 1, 3 := 0], map[], {}, NODES) }

  function T9(): Shared { Topic(map[1 := [K], 2 := [], 3 := [C1], 4 := [K]], map[]) }

  function T10(): Shared { Topic(map[1 := [], 2 := [], 3 := [C1], 4 := [K]], map[]) }

  function V10(): World { At(T10(), ED, {3, 4}, map[3 := 0, 4 := 0], map[], {}, NODES + {"D"}) }

  function V11(): World { At(T10(), ED, {3, 4}, map[3 := 0, 4 := 1], map[Spot(4, 0) := Running], {}, NODES + {"D"}) }

  lemma TailStep5()
    ensures Next(W5(), TailCallStep(Spot(2, 0), C1, "E"), V6())
  {
    assert [] + [C1] == [C1];
    assert RouteTo(ABE, map[], Service("U"), "E") == Route("E", 3, map[]);
    assert S4().Append(3, C1) == T6();
    assert V6().phase == W5().phase - {Spot(2, 0)};
  }

  lemma TailStep6()
    ensures Next(V6(), CrashStep(2), V7())
  {
    assert V7().alive == V6().alive - {2};
    assert V7().phase == map sp | sp in V6().phase && sp.partition != 2 :: V6().phase[sp];
  }

  function Fs7(): seq<Entry> { [Entry(1, K), Entry(2, C), Entry(3, C1)] }

  lemma TailRetries7()
    ensures (forall id :: !MustRetry(Fs7(), {1, 3}, id)) && forall e :: e in Fs7() ==> e.msg.IsRequest()
  {
    var es := Fs7();
    assert es[0] in es && es[1] in es && es[2] in es;
    assert Requests(es[0], "k") && Requests(es[2], "c");
    assert Highest(es, "k", 0) && Highest(es, "c", 1);
    assert HeldLive(es, {1, 3}, "k") && HeldLive(es, {1, 3}, "c");
  }

  lemma ValidAE()
    ensures AE.Valid()
  {
  }

  lemma TailGeneration7()
    ensures NextGeneration(V7(), AE)
  {
    ValidAE();
    hide Routes.Valid;
  }

  lemma TailClaims7()
    ensures Claims(V7(), [0, 1, 2, 3])
  {
  }

  lemma TailReading7()
    ensures Entries(V7(), [0, 1, 2, 3]) == Fs7()
  {
    hide Claims, Reading;
    ReadingOf4(V7().shared, 0, 1, 2, 3);
  }

  lemma TailHeads7()
    ensures V8().head == map p | p in {1, 3} :: if p in V7().alive then Head(V7(), p) else 0
  {
  }

  lemma TailFrame7()
    ensures V8() == V7().(shared := V8().shared, routes := AE, alive := {1, 3}, head := V8().head,
                          known := V7().known + AE.partitions.Keys)
  {
    assert AE.partitions.Keys == {"A", "E"};
    assert V8().known == V7().known + AE.partitions.Keys;
    hide AE, NODES;
  }

  lemma TailEmptied7()
    ensures V8().shared == Emptied(T6(), DeadClaims([0, 1, 2, 3], {1, 3}))
  {
    assert DeadClaims([0, 1, 2, 3], {1, 3}) == {2};
    EmptiedOne(T6(), 2, [0, 1, 2, 3], {1, 3});
    hide Emptied, DeadClaims;
    assert T8() == T6().(topic := T6().topic[2 := []]);
  }

  lemma TailStep7()
    ensures Next(V7(), RecoverStep(AE, [0, 1, 2, 3], [], []), V8())
  {
    hide NextGeneration, Claims, Decides, Emptied, Reading, Fs7, MustRetry, V8;
    LivesED();
    TailRetries7();
    DecidesNone(Fs7(), {1, 3});
    TailGeneration7();
    TailClaims7();
    TailReading7();
    TailHeads7();
    TailFrame7();
    TailEmptied7();
    RecoverFrom(V7(), AE, [0, 1, 2, 3], [], [], Fs7(), {1, 3}, T6(), V8());
  }

  lemma TailStep8()
    ensures Next(V8(), CrashStep(1), V9())
  {
    assert V9().alive == V8().alive - {1};
    assert V9().phase == map sp | sp in V8().phase && sp.partition != 1 :: V8().phase[sp];
  }

  function Fs9(): seq<Entry> { [Entry(1, K), Entry(3, C1)] }

  lemma TailDecides9()
    ensures Decides(Fs9(), {3, 4}, [Resend(K, false)])
  {
    hide Decides;
    WaitsForNone(Fs9(), "k");
    SimpleDecides(Fs9(), {3, 4}, 0, "");
  }

  lemma ValidED()
    ensures ED.Valid()
  {
  }

  lemma TailGeneration9()
    ensures NextGeneration(V9(), ED)
  {
    ValidED();
    hide Routes.Valid;
    assert ED.partitions == map["E" := 3, "D" := 4] && V9().routes.partitions == map["A" := 1, "E" := 3];
    assert Log(V9(), 4) == [];
  }

  lemma TailClaims9()
    ensures Claims(V9(), [0, 1, 3])
  {
    hide K, C, KC;
  }

  lemma TailReading9()
    ensures Entries(V9(), [0, 1, 3]) == Fs9()
  {
    hide Reading, K, C, KC;
    ReadingOf3(V9().shared, 0, 1, 3);
  }

  lemma TailEffect9()
    ensures AfterActions(ED, V9().shared, [Resend(K, false)], ["D"]) == T9()
  {
    AfterOne(ED, V9().shared, Resend(K, false), "D");
    assert [] + [K] == [K];
    assert RouteTo(ED, map[], Service("S"), "D") == Route("D", 4, map[]);
    assert T8().Append(4, K) == T9();
  }

  lemma TailHeads9()
    ensures V10().head == map p | p in {3, 4} :: if p in V9().alive then Head(V9(), p) else 0
  {
  }

  lemma TailFrame9()
    ensures V10() == V9().(shared := V10().shared, routes := ED, alive := {3, 4}, head := V10().head,
                           known := V9().known + ED.partitions.Keys)
  {
    assert ED.partitions.Keys == {"E", "D"};
    assert V10().known == V9().known + ED.partitions.Keys;
    hide ED, NODES;
  }

  lemma TailEmptied9()
    ensures V10().shared == Emptied(T9(), DeadClaims([0, 1, 3], {3, 4}))
  {
    assert DeadClaims([0, 1, 3], {3, 4}) == {1};
    EmptiedOne(T9(), 1, [0, 1, 3], {3, 4});
    hide Emptied, DeadClaims;
    assert T10() == T9().(topic := T9().topic[1 := []]);
  }

  lemma TailStep9()
    ensures Next(V9(), RecoverStep(ED, [0, 1, 3], [Resend(K, false)], ["D"]), V10())
  {
    hide NextGeneration, Claims, Decides, AfterActions, Emptied, Reading, Fs9, V9, V10, T9;
    LivesED();
    TailGeneration9();
    TailClaims9();
    TailReading9();
    TailEffect9();
    TailHeads9();
    TailFrame9();
    TailEmptied9();
    TailDecides9();
    RecoverFrom(V9(), ED, [0, 1, 3], [Resend(K, false)], ["D"], Fs9(), {3, 4}, T9(), V10());
  }

  lemma TailStep10()
    ensures Next(V10(), ReadStep(4), V11())
  {
  }

  lemma TailAt11()
    ensures IsRunning(V11(), Spot(4, 0)) && Req(V11(), Spot(4, 0), "k")
    ensures CalledPending(V11(), "k", "c") && Open(V11(), Spot(3, 0), "c") && !Traced(V11(), "k", "c")
  {
  }

  /**
   * c makes a tail call and its first node dies; when the node of k dies too, the retry of k runs at once, beside c.
   */
  lemma RetryRunsBesideCallee() returns (ws: seq<World>, steps: seq<Step>)
    ensures Run(ws, steps) && ws[|steps|] == V11()
    ensures IsRunning(V11(), Spot(4, 0)) && Req(V11(), Spot(4, 0), "k")
    ensures CalledPending(V11(), "k", "c") && Open(V11(), Spot(3, 0), "c") && !Traced(V11(), "k", "c")
  {
    TailAt11();
    hide Next, W5, V6, V7, V8, V9, V10, V11, Traced, Open, CalledPending, Req, IsRunning;
    ws, steps := CallerAndCallee();
    TailStep5();
    ws, steps := Extended(ws, steps, TailCallStep(Spot(2, 0), C1, "E"), V6());
    TailStep6();
    ws, steps := Extended(ws, steps, CrashStep(2), V7());
    TailStep7();
    ws, steps := Extended(ws, steps, RecoverStep(AE, [0, 1, 2, 3], [], []), V8());
    TailStep8();
    ws, steps := Extended(ws, steps, CrashStep(1), V9());
    TailStep9();
    ws, steps := Extended(ws, steps, RecoverStep(ED, [0, 1, 3], [Resend(K, false)], ["D"]), V10());
    TailStep10();
    ws, steps := Extended(ws, steps, ReadStep(4), V11());
  }

  // ----- a payload that is lost -----

  const P0: Message := Tell("t", [1], 0, Session("Actor", "a", "f", ""), "m", 0, "", "", false)
  /** The next step of t, in a chain that keeps the lock. */
  const P1: Message := Tell("t", [2], 0, Session("Actor", "a", "f", "lock"), "m", 1, "", "", false)
  /** The restart of that chain: the first number with the newer payload. */
  const P2: Message := Tell("t", [2], 0, Session("Actor", "a", "f", ""), "m", 0, "", "", false)

  const ON_A: Routes := Routes(map["Actor" := ["A"]], map["A" := 1])
  const ON_B: Routes := Routes(map["Actor" := ["B"]], map["B" := 3])

  lemma LivesOn()
    ensures ON_A.Live() == {1} && ON_B.Live() == {3} && NONE.Live() == {}
  {
    assert "A" in ON_A.partitions && "B" in ON_B.partitions;
    assert 1 in ON_A.Live() && 3 in ON_B.Live();
  }

  function Placing(topic: map<nat, seq<Message>>, node: string): Shared {
    Shared(topic, map[Place("Actor", "a") := node], map[])
  }

  function X(shared: Shared, routes: Routes, alive: set<nat>, head: map<nat, nat>, phase: map<Spot, Phase>,
             known: set<string>): World {
    World(shared, routes, alive, head, phase, {"t"}, {}, {}, map[], known)
  }

  function X1(): World { X(Topic(map[0 := [P0]], map[]), NONE, {}, map[], map[], {}) }

  function Q1(): Shared { Placing(map[0 := [P0], 1 := [P0]], "A") }

  function X2(): World { X(Q1(), ON_A, {1}, map[1 := 0], map[], {"A"}) }

  function X3(): World { X(Q1(), ON_A, {1}, map[1 := 1], map[Spot(1, 0) := Running], {"A"}) }

  function Q3(): Shared { Placing(map[0 := [P0], 1 := [P0, P1]], "A") }

  function X4(): World { X(Q3(), ON_A, {1}, map[1 := 1], map[], {"A"}) }

  function X5(): World { X(Q3(), ON_A, {}, map[1 := 1], map[], {"A"}) }

  function Q5(): Shared { Placing(map[0 := [P0], 1 := [P0, P1], 3 := [P2]], "B") }

  function Q6(): Shared { Placing(map[0 := [P0], 1 := [], 3 := [P2]], "B") }

  function X6(): World { X(Q6(), ON_B, {3}, map[3 := 0], map[], {"A", "B"}) }

  function X7(): World { X(Q6(), ON_B, {}, map[3 := 0], map[], {"A", "B"}) }

  function Q8(): Shared { Placing(map[0 := [P0], 1 := [], 3 := []], "B") }

  function X8(): World { X(Q8(), NONE, {}, map[], map[], {"A", "B"}) }

  lemma LossStep0()
    ensures Next(W0(), IssueStep(P0, ""), X1())
  {
    assert [] + [P0] == [P0];
    assert W0().shared.Append(0, P0) == X1().shared;
    IssueTo(W0(), P0, "", 0, X1());
  }

  function Gs1(): seq<Entry> { [Entry(0, P0)] }

  lemma LossDecides1()
    ensures Decides(Gs1(), {1}, [Resend(P0, true)])
  {
    hide Decides;
    WaitsForNone(Gs1(), "t");
    SimpleDecides(Gs1(), {1}, 0, "");
  }

  lemma LossMove1()
    ensures NextGeneration(X1(), ON_A) && Claims(X1(), [0]) && Entries(X1(), [0]) == Gs1()
    ensures X2() == X1().(shared := X2().shared, routes := ON_A, alive := {1}, head := X2().head,
                          known := X1().known + ON_A.partitions.Keys)
    ensures X2().head == map p | p in {1} :: if p in X1().alive then Head(X1(), p) else 0
    ensures X2().shared == Emptied(Q1(), DeadClaims([0], {1}))
  {
    assert [0][..0] == [] && Reading(X1().shared, []) == [];
    assert X2().known == X1().known + ON_A.partitions.Keys;
  }

  lemma LossEffect1()
    ensures AfterActions(ON_A, X1().shared, [Resend(P0, true)], ["A"]) == Q1()
  {
    AfterOne(ON_A, X1().shared, Resend(P0, true), "A");
    assert [] + [P0] == [P0];
    assert RouteTo(ON_A, map[], P0.target, "A") == Route("A", 1, map[Place("Actor", "a") := "A"]);
    assert Placing(map[0 := [P0]], "A").Append(1, P0) == Q1();
  }

  lemma LossStep1()
    ensures Next(X1(), RecoverStep(ON_A, [0], [Resend(P0, true)], ["A"]), X2())
  {
    hide NextGeneration, Claims, Decides, AfterActions, Emptied, Reading, X1, X2, Q1;
    LivesOn();
    LossMove1();
    LossEffect1();
    LossDecides1();
    RecoverFrom(X1(), ON_A, [0], [Resend(P0, true)], ["A"], Gs1(), {1}, Q1(), X2());
  }

  lemma LossStep2()
    ensures Next(X2(), ReadStep(1), X3())
  {
  }

  lemma LossStep3()
    ensures Next(X3(), TailCallStep(Spot(1, 0), P1, "A"), X4())
  {
    assert [P0] + [P1] == [P0, P1];
    assert RouteTo(ON_A, Q1().placements, P1.target, "A") == Route("A", 1, Q1().placements);
    assert Q1().Append(1, P1) == Q3();
    assert X4().phase == X3().phase - {Spot(1, 0)};
  }

  lemma LossStep4()
    ensures Next(X4(), CrashStep(1), X5())
  {
    assert X5().alive == X4().alive - {1};
    assert X4().phase == map[];
  }

  function Gs5(): seq<Entry> { [Entry(0, P0), Entry(1, P0), Entry(1, P1)] }

  lemma LossChain5()
    ensures Highest(Gs5(), "t", 1) && RunStart(Gs5(), "t", 0, 1) && forall e :: e in Gs5() ==>
            e.msg.IsRequest() && e.msg.id == "t"
  {
    var es := Gs5();
    assert es[0] in es && es[1] in es && es[2] in es;
    assert Requests(es[0], "t") && Requests(es[2], "t") && es[2].msg.IsLocked();
    assert LockedAt(es, "t", 1);
  }

  lemma LossRetries5()
    ensures MustRetry(Gs5(), {3}, "t") && !Parked(Gs5(), "t") && forall id :: MustRetry(Gs5(), {3}, id) ==> id == "t"
    ensures forall e :: e in Gs5() ==> e.msg.IsRequest()
  {
    LossChain5();
    hide RunStart;
    var es := Gs5();
    assert es[0] in es && es[2] in es && Requests(es[0], "t") && Requests(es[2], "t");
  }

  lemma LossRetry5()
    ensures IsRetry(Gs5(), "t", P2)
  {
    LossLatest5();
    assert WaitsFor(Gs5(), "t", "") && P2 == Retry(P1, 0, "");
    hide ChainStart, IsLatest, WaitsFor, Gs5;
  }

  lemma LossLatest5()
    ensures ChainStart(Gs5(), "t", 0) && IsLatest(Gs5(), "t", P1)
  {
    var es := Gs5();
    assert es[0] in es && es[1] in es && es[2] in es;
    assert es[2].msg.IsLocked() && Requests(es[2], "t");
    assert Highest(es, "t", 1) && LockedAt(es, "t", 1) && RunStart(es, "t", 0, 1);
    assert LatestAt(es, "t", 2);
  }

  lemma LossMove5()
    ensures NextGeneration(X5(), ON_B) && Claims(X5(), [0, 1])
    ensures X6() == X5().(shared := X6().shared, routes := ON_B, alive := {3}, head := X6().head,
                          known := X5().known + ON_B.partitions.Keys)
    ensures X6().head == map p | p in {3} :: if p in X5().alive then Head(X5(), p) else 0
  {
    assert X6().known == X5().known + ON_B.partitions.Keys;
  }

  lemma LossReading5()
    ensures Entries(X5(), [0, 1]) == Gs5() && X6().shared == Emptied(Q5(), DeadClaims([0, 1], {3}))
  {
    assert [0][..0] == [] && Reading(X5().shared, []) == [];
    ReadingNext(X5().shared, [0], 1);
    assert [0] + [1] == [0, 1];
  }

  lemma LossEffect5()
    ensures AfterActions(ON_B, X5().shared, [Resend(P2, false)], ["B"]) == Q5()
  {
    AfterOne(ON_B, X5().shared, Resend(P2, false), "B");
    assert [] + [P2] == [P2];
    assert RouteTo(ON_B, Q3().placements, P2.target, "B") == Route("B", 3, Q5().placements);
    assert Placing(map[0 := [P0], 1 := [P0, P1]], "B").Append(3, P2) == Q5();
  }

  lemma LossStep5()
    ensures Next(X5(), RecoverStep(ON_B, [0, 1], [Resend(P2, false)], ["B"]), X6())
  {
    hide NextGeneration, Claims, Decides, AfterActions, Emptied, Reading, X5, X6, Q5, Gs5, MustRetry, IsRetry, Parked;
    LivesOn();
    LossRetries5();
    LossRetry5();
    DecidesOne(Gs5(), {3}, P2, false);
    LossMove5();
    LossReading5();
    LossEffect5();
    RecoverFrom(X5(), ON_B, [0, 1], [Resend(P2, false)], ["B"], Gs5(), {3}, Q5(), X6());
  }

  lemma LossStep6()
    ensures Next(X6(), CrashStep(3), X7())
  {
    assert X7().alive == X6().alive - {3};
    assert X6().phase == map[];
  }

  function Gs7(): seq<Entry> { [Entry(0, P0), Entry(3, P2)] }

  lemma LossRetries7()
    ensures MustRetry(Gs7(), {}, "t") && Parked(Gs7(), "t") && forall id :: MustRetry(Gs7(), {}, id) ==> id == "t"
    ensures forall e :: e in Gs7() ==> e.msg.IsRequest()
  {
    var es := Gs7();
    assert es[0] in es && es[1] in es && Requests(es[0], "t") && Requests(es[1], "t");
    assert Highest(es, "t", 0) && RunStart(es, "t", 0, 0);
  }

  lemma LossRetry7()
    ensures IsRetry(Gs7(), "t", P2) && IsLatest(Gs7(), "t", P2)
  {
    var es := Gs7();
    assert es[0] in es && es[1] in es && Requests(es[0], "t") && Requests(es[1], "t");
    assert Highest(es, "t", 0) && RunStart(es, "t", 0, 0);
    assert LatestAt(es, "t", 1) && IsLatest(es, "t", P2);
    assert WaitsFor(es, "t", "") && P2 == Retry(P2, 0, "");
  }

  lemma LossMove7()
    ensures NextGeneration(X7(), NONE) && Claims(X7(), [0, 1, 3]) && Entries(X7(), [0, 1, 3]) == Gs7()
    ensures X8() == X7().(shared := X8().shared, routes := NONE, alive := {}, head := X8().head,
                          known := X7().known + NONE.partitions.Keys)
    ensures X8().head == map p | p in {} :: if p in X7().alive then Head(X7(), p) else 0
    ensures X8().shared == Emptied(Q6(), DeadClaims([0, 1, 3], {}))
  {
    ReadingOf3(X7().shared, 0, 1, 3);
    assert X8().known == X7().known + NONE.partitions.Keys;
  }

  lemma LossStep7()
    ensures Next(X7(), RecoverStep(NONE, [0, 1, 3], [Resend(P2, true)], [""]), X8())
  {
    hide NextGeneration, Claims, Decides, Emptied, Reading, X8, Gs7, MustRetry, IsRetry, Parked;
    LivesOn();
    LossRetries7();
    LossRetry7();
    DecidesOne(Gs7(), {}, P2, true);
    LossMove7();
    AfterOne(NONE, X7().shared, Resend(P2, true), "");
    RecoverFrom(X7(), NONE, [0, 1, 3], [Resend(P2, true)], [""], Gs7(), {}, Q6(), X8());
  }

  lemma OldPayload()
    ensures !PayloadKept(X8(), "t", P2)
  {
    forall sp | TopAt(X8(), sp, "t") ensures !SamePayload(Msg(X8(), sp), P2) {
      assert sp == Spot(0, 0);
    }
  }

  /**
   * When the last node that offers an actor type dies, recovery can keep an older payload and delete the latest one.
   */
  lemma NewerPayloadLost() returns (ws: seq<World>, steps: seq<Step>)
    ensures Run(ws, steps) && |steps| > 0 && ws[|steps| - 1] == X7() && ws[|steps|] == X8()
            && steps[|steps| - 1].RecoverStep?
    ensures IsLatest(Entries(X7(), [0, 1, 3]), "t", P2) && "t" !in X8().finished && !PayloadKept(X8(), "t", P2)
  {
    OldPayload();
    LossMove7();
    LossRetry7();
    hide Next, X1, X2, X3, X4, X5, X6, X7, PayloadKept, IsLatest, Entries, Claims, NextGeneration, MustRetry;
    ws, steps := [W0()], [];
    LossStep0();
    ws, steps := Extended(ws, steps, IssueStep(P0, ""), X1());
    LossStep1();
    ws, steps := Extended(ws, steps, RecoverStep(ON_A, [0], [Resend(P0, true)], ["A"]), X2());
    LossStep2();
    ws, steps := Extended(ws, steps, ReadStep(1), X3());
    LossStep3();
    ws, steps := Extended(ws, steps, TailCallStep(Spot(1, 0), P1, "A"), X4());
    LossStep4();
    ws, steps := Extended(ws, steps, CrashStep(1), X5());
    LossStep5();
    ws, steps := Extended(ws, steps, RecoverStep(ON_B, [0, 1], [Resend(P2, false)], ["B"]), X6());
    LossStep6();
    ws, steps := Extended(ws, steps, CrashStep(3), X7());
    LossStep7();
    ws, steps := Extended(ws, steps, RecoverStep(NONE, [0, 1, 3], [Resend(P2, true)], [""]), X8());
  }
}
