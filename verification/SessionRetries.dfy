/** Retries that wait for a call of their previous execution, when that call re-enters their own actor. */
module SessionRetries {
  import opened Options
  import opened SessionLock
  import opened SessionSteps
  import opened SessionGuarantees

  // ----- tasks keep what they are -----

  ghost predicate Same(t: Task, u: Task) { u == t.(after := u.after, stage := u.stage) }

  lemma TaskKept(s: State, step: Step, s': State, t: nat)
    requires Takes(s, step, s') && t < |s.tasks|
    ensures t < |s'.tasks| && Same(s.tasks[t], s'.tasks[t])
  {
    hide Schedule, Defer, Retire, Collect;
    if step.ScheduleStep? {
      TasksAfterSchedule(s, s');
    } else if step.DeferStep? || step.RetireStep? || step.CollectStep? {
      TaskKeptAtEnd(s, step, s', t);
    }
  }

  lemma TaskKeptAtEnd(s: State, step: Step, s': State, t: nat)
    requires Takes(s, step, s') && t < |s.tasks| && (step.DeferStep? || step.RetireStep? || step.CollectStep?)
    ensures t < |s'.tasks| && Same(s.tasks[t], s'.tasks[t])
  {
  }

  lemma {:induction false} TaskStays(ss: seq<State>, steps: seq<Step>, k: nat, j: nat, t: nat)
    requires Run(ss, steps) && k <= j < |ss| && t < |ss[k].tasks|
    ensures t < |ss[j].tasks| && Same(ss[k].tasks[t], ss[j].tasks[t])
  {
    if k < j {
      TaskStays(ss, steps, k, j - 1, t);
      assert Takes(ss[j - 1], steps[j - 1], ss[j - 1 + 1]);
      TaskKept(ss[j - 1], steps[j - 1], ss[j], t);
    }
  }

  // ----- a retry that opened its instance -----

  /**
   * A retry that found no instance owns the new one from the start: until its child has answered, its flow is active.
   */
  lemma OpenerOwns(ss: seq<State>, steps: seq<Step>, k: nat, t: nat)
    requires Regular(ss, steps) && k < |ss| && TaskAt(ss[k], t) && ss[k].tasks[t].child == Child(true)
    requires ss[k].tasks[t].stage.Queued? || ss[k].tasks[t].stage.Awaiting?
    ensures InstOf(ss[k], t).valid && InstOf(ss[k], t).active == ss[k].tasks[t].flow
  {
    var s, i := ss[k], ss[k].tasks[t].inst;
    RunInv(ss, steps, k);
    assert WellFormedTask(s, s.tasks[t]) && Baton(s, i);
    var p :| At(s, i, p);
    if s.tasks[t].stage.Awaiting? {
      assert At(s, i, Held(t));
    } else {
      assert Reads(s, t, i, 0) && Index(s, p) <= 0;
      assert p.Held? ==> WellFormedTask(s, s.tasks[p.task]);
      assert p == InChannel(0);
    }
  }

  /**
   * While retry t waits for its child, a request of its flow for the same actor, such as the child, runs beside it if
   * and only if the retry found no instance; otherwise it queues behind the retry.
   */
  lemma ChildBypassesIff(ss: seq<State>, steps: seq<Step>, k: nat, t: nat)
    requires Regular(ss, steps) && k < |steps| && steps[k].ScheduleStep? && TaskAt(ss[k], t)
             && ss[k].tasks[t].stage.Awaiting?
    requires ss[k].accepting.Some? && ss[k].accepting.value.request.key == InstOf(ss[k], t).key
    requires ss[k].accepting.value.request.flow == ss[k].tasks[t].flow
    ensures |ss[k + 1].tasks| == |ss[k].tasks| + 1
    ensures var u := ss[k + 1].tasks[|ss[k].tasks|];
            && u.inst == ss[k].tasks[t].inst && u.flow == ss[k].tasks[t].flow
            && (u.stage.Running? <==> ss[k].tasks[t].child == Child(true))
            && (!u.stage.Running? ==> u.stage.Queued? && u.before.Some? && ss[k].tasks[t].after.Some?
                                      && ss[k].tasks[t].after.value <= u.before.value)
  {
    var s, i := ss[k], ss[k].tasks[t].inst;
    assert Takes(s, steps[k], ss[k + 1]) && RegularAt(s);
    RunInv(ss, steps, k);
    assert WellFormedTask(s, s.tasks[t]) && Baton(s, i) && At(s, i, Held(t));
    Finds(s, i);
    hide Inv, Run;
    assert s.insts[i].active == Owning(s.tasks[t]);
  }

  /** A request that queued behind a waiting retry waits for as long as the retry does. */
  lemma BehindItsParent(ss: seq<State>, steps: seq<Step>, k: nat, j: nat, t: nat, u: nat)
    requires Run(ss, steps) && k <= j < |ss| && TaskAt(ss[k], t) && TaskAt(ss[k], u)
             && ss[k].tasks[u].inst == ss[k].tasks[t].inst
    requires ss[k].tasks[u].before.Some? && ss[k].tasks[t].after.Some?
             && ss[k].tasks[t].after.value <= ss[k].tasks[u].before.value
    requires ss[k].tasks[t].before.Some? && TaskAt(ss[j], t) && ss[j].tasks[t].stage.Awaiting?
    ensures TaskAt(ss[j], u) && ss[j].tasks[u].Waits()
  {
    var s, i := ss[j], ss[k].tasks[t].inst;
    TaskStays(ss, steps, k, j, t);
    TaskStays(ss, steps, k, j, u);
    RunInv(ss, steps, k);
    RunInv(ss, steps, j);
    assert WellFormedTask(ss[k], ss[k].tasks[t]) && WellFormedTask(s, s.tasks[t]) && WellFormedTask(s, s.tasks[u]);
    assert Baton(s, i) && At(s, i, Held(t));
  }

  // ----- a retry that does not queue -----

  ghost predicate FlowsNamed(s: State) { s.accepting.Some? ==> !s.accepting.value.request.flow.Released? }

  lemma {:induction false} AcceptedFlow(ss: seq<State>, steps: seq<Step>, k: nat)
    requires Run(ss, steps) && k < |ss|
    ensures FlowsNamed(ss[k])
  {
    if k > 0 {
      AcceptedFlow(ss, steps, k - 1);
      assert Takes(ss[k - 1], steps[k - 1], ss[k - 1 + 1]);
    }
  }

  lemma Accepted(s: State, s': State)
    requires Schedule(s, s') && s.accepting.value.request.child
    ensures |s'.tasks| == |s.tasks| + 1
    ensures var u := s'.tasks[|s.tasks|]; u.flow == s.accepting.value.request.flow && (u.before.Some? <==> RegularAt(s))
  {
    var m := Opened(s).(regular := s.regular && RegularAt(s));
    var r, e := m.accepting.value.request, m.accepting.value.found.value;
    assert r == s.accepting.value.request && m.tasks == s.tasks;
    if Reused(s) && m.insts[e].active == r.flow {
      assert Bypass(m, e, s');
    } else if r.flow == Nonexclusive {
      assert Beside(m, e, s');
    } else {
      assert RegularAt(s) && Enqueue(Taken(m), e, r.flow, false, Child(!Reused(s)), s');
    }
  }

  /**
   * A retry owns its actor once its child has answered if and only if it queued, that is, if and only if it was
   * regular.
   */
  lemma RetryOwnsIff(ss: seq<State>, steps: seq<Step>, k: nat, j: nat)
    requires Run(ss, steps) && k < j < |steps| && steps[k].ScheduleStep? && steps[j] == ResumeStep(|ss[k].tasks|)
    requires ss[k].accepting.Some? && ss[k].accepting.value.request.child
    ensures TaskAt(ss[j + 1], |ss[k].tasks|) && ss[j + 1].tasks[|ss[k].tasks|].stage.Running?
    ensures InstOf(ss[j + 1], |ss[k].tasks|).active == ss[j + 1].tasks[|ss[k].tasks|].flow <==> RegularAt(ss[k])
  {
    var u := |ss[k].tasks|;
    assert Takes(ss[k], steps[k], ss[k + 1]) && Takes(ss[j], steps[j], ss[j + 1]);
    AcceptedFlow(ss, steps, k);
    Accepted(ss[k], ss[k + 1]);
    TaskStays(ss, steps, k + 1, j, u);
  }

  // ----- runs -----

  lemma Further(ss: seq<State>, steps: seq<Step>, step: Step, s: State) returns (ss': seq<State>, steps': seq<Step>)
    requires Run(ss, steps) && Takes(ss[|steps|], step, s)
    ensures Run(ss', steps') && ss' == ss + [s] && steps' == steps + [step]
  {
    hide Takes, Starts;
    ss', steps' := ss + [s], steps + [step];
    forall k | 0 <= k < |steps'| ensures Takes(ss'[k], steps'[k], ss'[k + 1]) {
      if k < |steps| { assert Takes(ss[k], steps[k], ss[k + 1]); }
    }
  }

  const F := Named("f")
  const G := Named("g")

  function Ask(flow: Flow, child: bool): Request { Request("a", flow, "", 0, child) }

  /** One actor with channels chans and owner active. */
  function One(active: Flow, chans: seq<Chan>, tasks: seq<Task>, accepting: Option<Accepting>, regular: bool := true)
    : State
  {
    State([Instance("a", active, chans, true)], map["a" := 0], tasks, map[], map[], accepting, {}, regular)
  }

  function Queue(k: nat, flow: Flow, child: Child, stage: Stage): Task {
    Task(0, Some(k), Some(k + 1), flow, true, false, child, stage)
  }

  /** A request arrives and finds the instance. */
  lemma Arrives(active: Flow, chans: seq<Chan>, tasks: seq<Task>, r: Request, regular: bool := true)
    requires r.key == "a" && r.lock == "" && !r.flow.Released? && !r.flow.Deactivate?
    ensures Takes(One(active, chans, tasks, None, regular), LoadStep(r),
                  One(active, chans, tasks, Some(Accepting(r, Some(0))), regular))
  {
  }

  /** A request of another flow than the owner queues. */
  lemma Queues(active: Flow, chans: seq<Chan>, tasks: seq<Task>, r: Request, regular: bool := true)
    requires r.key == "a" && r.lock == "" && chans != [] && r.flow != active && r.flow != Nonexclusive
    ensures var task := Queue(|chans| - 1, r.flow, if r.child then Child(false) else NoChild, Queued);
            Takes(One(active, chans, tasks, Some(Accepting(r, Some(0))), regular), ScheduleStep,
                  One(active, chans + [Empty], tasks + [task], None, regular))
  {
    assert Reused(One(active, chans, tasks, Some(Accepting(r, Some(0))), regular));
  }

  /** The first request for the actor opens the instance. */
  lemma Opens(r: Request) returns (ss: seq<State>, steps: seq<Step>)
    requires r.key == "a" && r.lock == "" && !r.child && !r.flow.Released? && !r.flow.Deactivate?
    ensures Run(ss, steps) && |ss| == 3
    ensures ss[2] == if r.flow == Nonexclusive then One(Released, [Full], [Joining(r, 0, None)], None)
                     else One(Released, [Full, Empty], [Queue(0, r.flow, NoChild, Queued)], None)
    ensures forall k :: 0 <= k < |steps| && steps[k].ScheduleStep? ==> RegularAt(ss[k])
  {
    var s0 := State([], map[], [], map[], map[], None, {}, true);
    var s1 := s0.(accepting := Some(Accepting(r, None)));
    var s2 := if r.flow == Nonexclusive then One(Released, [Full], [Joining(r, 0, None)], None)
              else One(Released, [Full, Empty], [Queue(0, r.flow, NoChild, Queued)], None);
    assert map[]["a" := 0] == map["a" := 0] && [] + [NewInstance(r)] == [NewInstance(r)];
    assert [Full] + [Empty] == [Full, Empty];
    assert Takes(s0, LoadStep(r), s1) && Takes(s1, ScheduleStep, s2);
    ss, steps := [s0, s1, s2], [LoadStep(r), ScheduleStep];
  }

  /** A nonexclusive request has opened the instance, and a retry has had its turn and waits for its child. */
  function Stuck(chans: seq<Chan>, retry: Stage, accepting: Option<Accepting>): State {
    One(Released, chans, [Joining(Ask(Nonexclusive, false), 0, None), Queue(0, F, Child(false), retry)], accepting)
  }

  lemma RetryWaits() returns (ss: seq<State>, steps: seq<Step>)
    ensures Regular(ss, steps) && ss[|steps|] == Stuck([Empty, Empty], Awaiting, None)
  {
    var parent, x := Ask(F, true), Joining(Ask(Nonexclusive, false), 0, None);
    ss, steps := Opens(Ask(Nonexclusive, false));
    Arrives(Released, [Full], [x], parent);
    Queues(Released, [Full], [x], parent);
    var s3, s4, s5 := One(Released, [Full], [x], Some(Accepting(parent, Some(0)))),
        Stuck([Full, Empty], Queued, None), Stuck([Empty, Empty], Awaiting, None);
    assert [Full] + [Empty] == [Full, Empty] && [x] + [Queue(0, F, Child(false), Queued)] == s4.tasks;
    assert Takes(s4, AcquireStep(1), s5) by { assert [Full, Empty][0 := Empty] == [Empty, Empty]; }
    assert RegularAt(s3);
    hide Takes, RegularAt, Starts;
    ss, steps := Further(ss, steps, LoadStep(parent), s3);
    ss, steps := Further(ss, steps, ScheduleStep, s4);
    ss, steps := Further(ss, steps, AcquireStep(1), s5);
  }

  /**
   * A nonexclusive request has opened the instance; a retry queues and waits for its child; the child queues behind
   * it: a regular run, in which neither can go on until the child's wait times out.
   */
  lemma ParentAndChildStuck() returns (ss: seq<State>, steps: seq<Step>)
    ensures Regular(ss, steps) && |ss| == |steps| + 1
    ensures var s := ss[|steps|];
            && TaskAt(s, 1) && s.tasks[1].stage.Awaiting? && TaskAt(s, 2) && s.tasks[2].flow == s.tasks[1].flow
               && s.tasks[2].stage.Queued?
            && s.tasks[2].inst == s.tasks[1].inst && s.tasks[2].before == s.tasks[1].after
  {
    var child, tasks := Ask(F, false), Stuck([Empty, Empty], Awaiting, None).tasks;
    ss, steps := RetryWaits();
    Arrives(Released, [Empty, Empty], tasks, child);
    Queues(Released, [Empty, Empty], tasks, child);
    var s6 := Stuck([Empty, Empty], Awaiting, Some(Accepting(child, Some(0))));
    var s7 := One(Released, [Empty, Empty] + [Empty], tasks + [Queue(1, F, NoChild, Queued)], None);
    assert RegularAt(s6);
    hide Takes, RegularAt, Starts;
    ss, steps := Further(ss, steps, LoadStep(child), s6);
    ss, steps := Further(ss, steps, ScheduleStep, s7);
  }

  /** The child c runs as the owner of the actor, its parent waits beside it, and a stranger queues. */
  function Gathered(c: Stage, active: Flow, first: Chan, p: Stage, x: Stage): State {
    One(active, [Empty, first, Empty], [Queue(0, F, NoChild, c), Joining(Ask(F, true), 0, None).(stage := p),
                                        Queue(1, G, NoChild, x)], None, false)
  }

  lemma Gather() returns (ss: seq<State>, steps: seq<Step>)
    ensures Run(ss, steps) && ss[|steps|] == Gathered(Running, F, Empty, Awaiting, Queued)
  {
    ss, steps := Opens(Ask(F, false));
    var c, p := Queue(0, F, NoChild, Running), Joining(Ask(F, true), 0, None);
    var s3 := One(F, [Empty, Empty], [c], None);
    assert [Full, Empty][0 := Empty] == [Empty, Empty] && [Queue(0, F, NoChild, Queued)][0 := c] == [c];
    assert Takes(ss[2], AcquireStep(0), s3);
    Arrives(F, [Empty, Empty], [c], Ask(F, true));
    var s4 := One(F, [Empty, Empty], [c], Some(Accepting(Ask(F, true), Some(0))));
    var s5 := One(F, [Empty, Empty], [c, p], None, false);
    assert Reused(s4) && [c] + [p] == [c, p];
    assert Takes(s4, ScheduleStep, s5);
    Arrives(F, [Empty, Empty], [c, p], Ask(G, false), false);
    Queues(F, [Empty, Empty], [c, p], Ask(G, false), false);
    var s6 := One(F, [Empty, Empty], [c, p], Some(Accepting(Ask(G, false), Some(0))), false);
    var s7 := Gathered(Running, F, Empty, Awaiting, Queued);
    assert [Empty, Empty] + [Empty] == [Empty, Empty, Empty] && [c, p] + [Queue(1, G, NoChild, Queued)] == s7.tasks;
    hide Takes, Starts;
    ss, steps := Further(ss, steps, AcquireStep(0), s3);
    ss, steps := Further(ss, steps, LoadStep(Ask(F, true)), s4);
    ss, steps := Further(ss, steps, ScheduleStep, s5);
    ss, steps := Further(ss, steps, LoadStep(Ask(G, false)), s6);
    ss, steps := Further(ss, steps, ScheduleStep, s7);
  }

  lemma Disperse()
    ensures Takes(Gathered(Running, F, Empty, Awaiting, Queued), ClearFlowStep(0),
                  Gathered(Cleared, Released, Empty, Awaiting, Queued))
    ensures Takes(Gathered(Cleared, Released, Empty, Awaiting, Queued), ReleaseStep(0),
                  Gathered(Ended, Released, Full, Awaiting, Queued))
    ensures Takes(Gathered(Ended, Released, Full, Awaiting, Queued), AcquireStep(2),
                  Gathered(Ended, G, Empty, Awaiting, Running))
    ensures Takes(Gathered(Ended, G, Empty, Awaiting, Running), ResumeStep(1),
                  Gathered(Ended, Released, Empty, Running, Running))
  {
    hide Load, Drop, Schedule, Timeout, PassOn, Defer, Collect, Retire;
    assert [Empty, Empty, Empty][1 := Full] == [Empty, Full, Empty]
           && [Empty, Full, Empty][1 := Empty] == [Empty, Empty, Empty];
  }

  /**
   * A child that arrives before the retry of its parent owns the actor, so the retry does not queue. When the child has
   * ended and a request of another flow has taken its turn, the retry runs beside it and the actor counts as free.
   */
  lemma RetryRunsBesideStranger() returns (ss: seq<State>, steps: seq<Step>)
    ensures Run(ss, steps) && |ss[|steps|].insts| == 1 && |ss[|steps|].tasks| == 3
    ensures var s := ss[|steps|];
            && s.tasks[1].child.Child? && s.tasks[1].stage.Running? && s.tasks[2].stage.Running? && Owner(s.tasks[2])
            && s.tasks[1].flow != s.tasks[2].flow && s.tasks[1].inst == s.tasks[2].inst == 0
               && s.insts[0].active == Released
  {
    ss, steps := Gather();
    Disperse();
    hide Takes, Starts;
    ss, steps := Further(ss, steps, ClearFlowStep(0), Gathered(Cleared, Released, Empty, Awaiting, Queued));
    ss, steps := Further(ss, steps, ReleaseStep(0), Gathered(Ended, Released, Full, Awaiting, Queued));
    ss, steps := Further(ss, steps, AcquireStep(2), Gathered(Ended, G, Empty, Awaiting, Running));
    ss, steps := Further(ss, steps, ResumeStep(1), Gathered(Ended, Released, Empty, Running, Running));
  }
}
