/** What the session lock guarantees over every run. */
module SessionGuarantees {
  import opened Options
  import opened SessionLock
  import opened SessionSteps

  /** A task that runs as the owner of its instance: it came through the queue, or it reclaimed a parked baton. */
  predicate Owner(t: Task) { t.clear && t.Holds() }

  lemma AtMostOneOwner(ss: seq<State>, steps: seq<Step>, k: nat, t: nat, u: nat)
    requires Run(ss, steps) && k < |ss|
    requires TaskAt(ss[k], t) && TaskAt(ss[k], u) && ss[k].tasks[t].inst == ss[k].tasks[u].inst
    requires Owner(ss[k].tasks[t]) && Owner(ss[k].tasks[u])
    ensures t == u
  {
    RunInv(ss, steps, k);
    var i := ss[k].tasks[t].inst;
    assert Baton(ss[k], i);
    assert At(ss[k], i, Held(t)) && At(ss[k], i, Held(u));
  }

  /** Exactly one baton per instance; it is retired exactly when the instance is invalid. */
  lemma OneBatonAlways(ss: seq<State>, steps: seq<Step>, k: nat, i: nat)
    requires Run(ss, steps) && k < |ss| && i < |ss[k].insts|
    ensures OneBaton(ss[k], i)
    ensures !ss[k].insts[i].valid <==> exists p: Place :: p.Retired? && At(ss[k], i, p)
  {
    RunInv(ss, steps, k);
    assert Baton(ss[k], i);
    var p :| At(ss[k], i, p);
    if !ss[k].insts[i].valid { assert p.Retired?; }
  }

  /** The conditions under which the runtime reports a flow violation. */
  predicate FlowViolation(s: State, step: Step) {
    match step
    case AcquireStep(t) => TaskAt(s, t) && InstOf(s, t).active != if s.tasks[t].child.Child? then s.tasks[t].flow
        else Released
    case DeferStep(t, _, _) => TaskAt(s, t) && s.tasks[t].after.Some? && InstOf(s, t).active != s.tasks[t].flow
    case ReleaseStep(t) => TaskAt(s, t) && s.tasks[t].after.Some? && !s.tasks[t].clear
    case _ => false
  }

  /**
   * A flow violation is reported if and only if it is the turn of a retry that must wait for a child and found an
   * instance.
   */
  lemma FlowViolationIff(ss: seq<State>, steps: seq<Step>, k: nat)
    requires Regular(ss, steps) && k < |steps|
    ensures FlowViolation(ss[k], steps[k]) <==> steps[k].AcquireStep? && TaskAt(ss[k], steps[k].t)
                                                && ss[k].tasks[steps[k].t].child == Child(false)
  {
    var s, step := ss[k], steps[k];
    assert Takes(s, step, ss[k + 1]);
    RunInv(ss, steps, k);
    match step
    case AcquireStep(t) =>
      assert Baton(s, s.tasks[t].inst) && At(s, s.tasks[t].inst, InChannel(s.tasks[t].before.value));
      assert WellFormedTask(s, s.tasks[t]);
      ReaderDecides(s, t, s.tasks[t].inst, s.tasks[t].before.value);
    case DeferStep(t, _, _) =>
      assert s.tasks[t].after.Some? ==> Baton(s, s.tasks[t].inst) && At(s, s.tasks[t].inst, Held(t));
    case ReleaseStep(t) =>
      assert WellFormedTask(s, s.tasks[t]);
    case _ =>
  }

  /**
   * Tasks are served in the order they arrived: once a task has had its turn, every earlier task has passed the baton.
   */
  lemma ServedInOrder(ss: seq<State>, steps: seq<Step>, k: nat, t: nat, u: nat)
    requires Run(ss, steps) && k < |ss| && t < u < |ss[k].tasks|
    requires ss[k].tasks[t].inst == ss[k].tasks[u].inst
    requires ss[k].tasks[t].before.Some? && ss[k].tasks[u].before.Some?
    requires !ss[k].tasks[u].Waits()
    ensures ss[k].tasks[t].stage.Ended?
  {
    var s, i := ss[k], ss[k].tasks[t].inst;
    RunInv(ss, steps, k);
    assert WellFormedTask(s, s.tasks[t]) && WellFormedTask(s, s.tasks[u]);
    assert Baton(s, i);
    var p :| At(s, i, p);
    assert s.tasks[t].before.value < s.tasks[u].before.value < Index(s, p);
    if s.tasks[t].Holds() { assert At(s, i, Held(t)); }
  }

  lemma LateStays(s: State, step: Step, s': State, t: nat)
    requires Takes(s, step, s') && t < |s.tasks| && (s.tasks[t].stage.Late? || s.tasks[t].stage.Ended?)
    ensures t < |s'.tasks| && (s'.tasks[t] == s.tasks[t]
                               || (s.tasks[t].stage.Late? && s'.tasks[t] == s.tasks[t].(stage := Ended)))
  {
    if step.ScheduleStep? {
      TasksAfterSchedule(s, s');
    } else {
      hide Schedule;
    }
  }

  lemma TasksAfterSchedule(s: State, s': State)
    requires Schedule(s, s')
    ensures s.tasks <= s'.tasks
  {
    hide RegularAt, Reused, NewInstance, Joining;
  }

  /** A request that timed out in the queue never runs; its place only passes the baton on. */
  lemma {:induction false} LateNeverRuns(ss: seq<State>, steps: seq<Step>, k: nat, j: nat, t: nat)
    requires Run(ss, steps) && k <= j < |ss| && t < |ss[k].tasks| && ss[k].tasks[t].stage.Late?
    ensures t < |ss[j].tasks| && (ss[j].tasks[t] == ss[k].tasks[t] || ss[j].tasks[t] == ss[k].tasks[t].(stage := Ended))
  {
    hide Takes, Starts;
    if k < j {
      LateNeverRuns(ss, steps, k, j - 1, t);
      assert Takes(ss[j - 1], steps[j - 1], ss[j - 1 + 1]);
      LateStays(ss[j - 1], steps[j - 1], ss[j], t);
    }
  }

  // ----- who waits -----

  /** The instance a request finds is the valid one, if its key has one. */
  lemma Finds(s: State, i: nat)
    requires Inv(s) && s.accepting.Some? && i < |s.insts| && s.insts[i].valid
             && s.accepting.value.request.key == s.insts[i].key
    ensures Reused(s) && s.accepting.value.found.value == i
  {
  }

  /** A request that finds a valid instance starts a task on it, beside the owner or at the end of the queue. */
  lemma StartsOn(s: State, s': State, i: nat)
    requires Schedule(s, s') && Reused(s) && s.accepting.value.found.value == i && s.insts[i].chans != []
    ensures |s'.tasks| == |s.tasks| + 1 && s'.tasks[..|s.tasks|] == s.tasks
    ensures var u, r := s'.tasks[|s.tasks|], s.accepting.value.request;
            && u.inst == i && u.flow == r.flow && !u.collector && (u.child.Child? <==> r.child)
            && if s.insts[i].active == r.flow || r.flow == Nonexclusive
               then u.before.None? && u.stage == (if r.child then Awaiting else Running)
               else u.before == Some(Next(s.insts[i])) && u.after == Some(Next(s.insts[i]) + 1) && u.stage.Queued?
  {
    var m := Opened(s).(regular := s.regular && RegularAt(s));
    assert m == s.(regular := m.regular);
    hide RegularAt, NewInstance, Opened, Reused;
    var r := s.accepting.value.request;
    if s.insts[i].active == r.flow {
      assert Bypass(m, i, s');
    } else if r.flow == Nonexclusive {
      assert Beside(m, i, s');
    } else {
      assert Enqueue(Taken(m), i, r.flow, false, if r.child then Child(false) else NoChild, s');
    }
    hide Schedule;
  }

  /**
   * A request for an actor that has an instance is handled on that instance. It runs beside the owner, without waiting
   * for its turn, if and only if its flow owns the instance or it is nonexclusive; otherwise it queues behind everybody
   * else.
   */
  lemma BypassIff(ss: seq<State>, steps: seq<Step>, k: nat, i: nat)
    requires Run(ss, steps) && k < |steps| && steps[k].ScheduleStep? && ss[k].accepting.Some?
    requires i < |ss[k].insts| && ss[k].insts[i].valid && ss[k].insts[i].key == ss[k].accepting.value.request.key
    ensures |ss[k + 1].tasks| == |ss[k].tasks| + 1
    ensures var u, r := ss[k + 1].tasks[|ss[k].tasks|], ss[k].accepting.value.request;
            && u.inst == i && u.flow == r.flow
            && (u.before.None? && !u.Waits() <==> ss[k].insts[i].active == r.flow || r.flow == Nonexclusive)
            && (u.before.Some? ==> u.stage.Queued? && forall t :: 0 <= t < |ss[k].tasks| && ss[k].tasks[t].inst == i
                                                                  && ss[k].tasks[t].before.Some? ==>
                    ss[k].tasks[t].before.value < u.before.value)
  {
    RunInv(ss, steps, k);
    assert Takes(ss[k], steps[k], ss[k + 1]);
    Finds(ss[k], i);
    hide Run, Takes, HasReader, Tabled, Baton;
    StartsOn(ss[k], ss[k + 1], i);
    forall t | 0 <= t < |ss[k].tasks| && ss[k].tasks[t].inst == i && ss[k].tasks[t].before.Some?
      ensures ss[k].tasks[t].before.value < Next(ss[k].insts[i])
    {
      assert WellFormedTask(ss[k], ss[k].tasks[t]);
    }
  }

  /**
   * A request for an actor without an instance opens one, and is first in its queue unless it is nonexclusive. The new
   * instance is free; but if the request is a retry that waits for a child, it belongs to the flow of the retry.
   */
  lemma OpensInstance(ss: seq<State>, steps: seq<Step>, k: nat)
    requires Run(ss, steps) && k < |steps| && steps[k].ScheduleStep? && ss[k].accepting.Some?
    requires forall i :: 0 <= i < |ss[k].insts| && ss[k].insts[i].valid ==>
               ss[k].insts[i].key != ss[k].accepting.value.request.key
    ensures |ss[k + 1].tasks| == |ss[k].tasks| + 1 && |ss[k + 1].insts| == |ss[k].insts| + 1
    ensures var u, r, e := ss[k + 1].tasks[|ss[k].tasks|], ss[k].accepting.value.request, |ss[k].insts|;
            var inst := ss[k + 1].insts[e];
            && inst.key == r.key && inst.valid && r.key in ss[k + 1].table && ss[k + 1].table[r.key] == e
            && inst.active == (if r.child then r.flow else Released) && At(ss[k + 1], e, InChannel(0))
            && u.inst == e && u.flow == r.flow
            && if r.flow == Nonexclusive then u.before.None? && !u.Waits()
               else u.before == Some(0) && u.stage.Queued? && BatonReady(ss[k + 1], |ss[k].tasks|)
  {
    RunInv(ss, steps, k);
    assert Takes(ss[k], steps[k], ss[k + 1]);
    assert !Reused(ss[k]);
    hide Run, Takes, WellFormed, Tabled, Baton, RegularAt;
  }

  /** A call that comes back to an actor while a request of its flow runs as the owner does not wait behind it. */
  lemma ReentrantRunsAtOnce(ss: seq<State>, steps: seq<Step>, k: nat, t: nat)
    requires Regular(ss, steps) && k < |steps| && steps[k].ScheduleStep? && ss[k].accepting.Some?
    requires TaskAt(ss[k], t) && Owner(ss[k].tasks[t]) && ss[k].tasks[t].stage.Running?
    requires var r := ss[k].accepting.value.request; r.key == InstOf(ss[k], t).key && r.flow == ss[k].tasks[t].flow
    ensures |ss[k + 1].tasks| == |ss[k].tasks| + 1
    ensures var u := ss[k + 1].tasks[|ss[k].tasks|];
            u.inst == ss[k].tasks[t].inst && u.stage.Running? && u.before.None?
  {
    var i := ss[k].tasks[t].inst;
    RunInv(ss, steps, k);
    assert Takes(ss[k], steps[k], ss[k + 1]) && RegularAt(ss[k]);
    assert Baton(ss[k], i) && At(ss[k], i, Held(t));
    Finds(ss[k], i);
    hide Run, Takes, HasReader, Tabled, Baton, WellFormed;
    StartsOn(ss[k], ss[k + 1], i);
  }

  // ----- tail calls to the same actor -----

  /** The request that carries lock is being scheduled. */
  predicate Reclaims(s: State, step: Step, lock: string) {
    step.ScheduleStep? && s.accepting.Some? && s.accepting.value.request.lock == lock
  }

  /**
   * The baton of the instance of slot is parked under lock for a request without a deadline. In a regular run that
   * request is in flight, and its flow owns the instance.
   */
  ghost predicate ParkedIn(s: State, lock: string, slot: Slot) {
    && lock in s.parked && s.parked[lock] == slot && slot.inst < |s.insts| && s.insts[slot.inst].valid
    && (lock in s.sent ==> s.sent[lock] == Request(s.insts[slot.inst].key, s.sent[lock].flow, lock, 0, false))
    && (s.regular ==> lock in s.sent && s.sent[lock].flow == s.insts[slot.inst].active)
  }

  /** The step lets a queued goroutine begin as the owner of instance i. */
  predicate Begins(s: State, step: Step, i: nat) {
    && step.AcquireStep? && step.t < |s.tasks| && s.tasks[step.t].inst == i
  }

  lemma SlotKept(s: State, step: Step, s': State, lock: string)
    requires WellFormed(s) && Takes(s, step, s') && lock in s.parked && (lock in s.sent ==> s.sent[lock].deadline == 0)
    requires !Reclaims(s, step, lock)
    ensures lock in s'.parked && s'.parked[lock] == s.parked[lock]
    ensures lock in s'.sent <==> lock in s.sent
    ensures lock in s.sent ==> s'.sent[lock] == s.sent[lock]
  {
    hide HasReader, WellFormedTask, Enqueue, Retire, PassOn, Release, Acquire, ClearFlow;
    match step
    case PassOnStep(t) => SameLocks(s, step, s');
    case ReleaseStep(t) => SameLocks(s, step, s');
    case AcquireStep(t) => SameLocks(s, step, s');
    case ResumeStep(t) => SameLocks(s, step, s');
    case ClearFlowStep(t) => SameLocks(s, step, s');
    case RetireStep(t) => SameLocks(s, step, s');
    case CollectStep(i, run) => SameLocks(s, step, s');
    case ScheduleStep => ScheduleLocks(s, s');
    case _ =>
  }

  lemma SameLocks(s: State, step: Step, s': State)
    requires Takes(s, step, s') && !step.ScheduleStep? && !step.DeferStep? && !step.DropStep?
    ensures s'.parked == s.parked && s'.sent == s.sent && s'.usedLocks == s.usedLocks
  {
  }

  /** What becomes of the locks when request r starts a task. */
  predicate Spends(s: State, r: Request, s': State) {
    && s'.sent == (if r.lock == "" then s.sent else s.sent - {r.lock})
    && (s'.parked == s.parked || (r.lock != "" && s'.parked == s.parked - {r.lock}))
    && s'.usedLocks == s.usedLocks
  }

  lemma BypassLocks(m: State, e: nat, s': State)
    requires Bypass(m, e, s')
    ensures Spends(m, m.accepting.value.request, s')
  {
  }

  lemma ScheduleLocks(s: State, s': State)
    requires Schedule(s, s')
    ensures Spends(s, s.accepting.value.request, s')
  {
    var m := Opened(s).(regular := s.regular && RegularAt(s));
    assert m == s.(insts := m.insts, table := m.table, accepting := m.accepting, regular := m.regular);
    assert m.accepting.Some? && m.accepting.value.request == s.accepting.value.request;
    var e := m.accepting.value.found.value;
    assert Bypass(m, e, s') ==> Spends(m, m.accepting.value.request, s') by {
      if Bypass(m, e, s') { BypassLocks(m, e, s'); }
    }
    hide RegularAt, Reused, NewInstance, Joining, Opened, Bypass;
  }

  lemma InvWellFormed(s: State)
    requires Inv(s)
    ensures WellFormed(s)
  {
  }

  lemma SlotOwner(s: State, lock: string)
    requires Inv(s) && lock in s.parked
    ensures ParkedIn(s, lock, s.parked[lock])
    ensures forall k: nat :: !At(s, s.parked[lock].inst, InChannel(k))
  {
    assert Baton(s, s.parked[lock].inst) && At(s, s.parked[lock].inst, Parked(lock));
  }

  /** Whoever begins takes the baton from a channel. */
  lemma BeginsWithBaton(s: State, step: Step, s': State, i: nat)
    requires Takes(s, step, s') && Begins(s, step, i)
    ensures exists k: nat :: At(s, i, InChannel(k))
  {
    assert At(s, i, InChannel(s.tasks[step.t].before.value));
  }

  lemma StaysParked(s: State, step: Step, s': State, lock: string, slot: Slot)
    requires Inv(s) && Takes(s, step, s') && ParkedIn(s, lock, slot)
    ensures !Begins(s, step, slot.inst)
    ensures !Reclaims(s, step, lock) ==> ParkedIn(s', lock, slot) && (lock in s'.sent <==> lock in s.sent)
    ensures !Reclaims(s, step, lock) && lock in s.sent ==> lock in s'.sent && s'.sent[lock] == s.sent[lock]
  {
    StepKeeps(s, step, s');
    hide Inv, Takes;
    if Begins(s, step, slot.inst) { BeginsWithBaton(s, step, s', slot.inst); }
    SlotOwner(s, lock);
    if !Reclaims(s, step, lock) {
      assert WellFormed(s) by { InvWellFormed(s); }
      SlotKept(s, step, s', lock);
      SlotOwner(s', lock);
    }
  }

  /**
   * While the baton of an instance is parked, no queued task or collector begins on it, until the request that carries
   * the lock is scheduled.
   */
  lemma {:induction false} TailCallIsAtomic(ss: seq<State>, steps: seq<Step>, k: nat, j: nat, lock: string)
    requires Run(ss, steps) && k <= j < |ss| && lock in ss[k].parked
    requires forall m :: k <= m < j ==> !Reclaims(ss[m], steps[m], lock)
    ensures ParkedIn(ss[j], lock, ss[k].parked[lock]) && (lock in ss[j].sent <==> lock in ss[k].sent)
    ensures lock in ss[k].sent ==> lock in ss[j].sent && ss[j].sent[lock] == ss[k].sent[lock]
    ensures forall m :: k <= m < j ==> !Begins(ss[m], steps[m], ss[k].parked[lock].inst)
  {
    hide Inv, ParkedIn, Reclaims, Begins, Takes, Starts, RegularAt;
    RunInv(ss, steps, k);
    SlotOwner(ss[k], lock);
    if k < j {
      TailCallIsAtomic(ss, steps, k, j - 1, lock);
      RunInv(ss, steps, j - 1);
      assert Takes(ss[j - 1], steps[j - 1], ss[j - 1 + 1]);
      StaysParked(ss[j - 1], steps[j - 1], ss[j], lock, ss[k].parked[lock]);
    }
  }

  /**
   * The request that carries a parked lock finds the same instance, and gets the baton back if and only if its flow
   * still owns it, as it does in a regular run. Then the lock is gone; otherwise it stays parked for nobody.
   */
  lemma ReclaimedIff(s: State, s': State, lock: string)
    requires Inv(s) && Schedule(s, s') && Reclaims(s, ScheduleStep, lock) && lock in s.parked
    ensures |s'.tasks| == |s.tasks| + 1 && lock !in s'.sent
    ensures var u := s'.tasks[|s.tasks|];
            && u.inst == s.parked[lock].inst
            && (Owner(u) <==> s.insts[u.inst].active == s.accepting.value.request.flow)
            && (Owner(u) <==> lock !in s'.parked)
            && (Owner(u) ==> u.stage.Running? && u.after == Some(s.parked[lock].chan))
            && (s.regular ==> Owner(u))
  {
    SlotOwner(s, lock);
    assert Reused(s) by { assert s.accepting.value.request.key in s.table; }
    ParkedForOwner(s);
  }

  /**
   * A task that makes a tail call to its own actor parks the baton, if and only if it has it, for the request it sends;
   * nobody else gets it, and the request has no deadline then. Either way the request is of the same flow and for the
   * same actor.
   */
  lemma DeferParksIff(ss: seq<State>, steps: seq<Step>, k: nat)
    requires Run(ss, steps) && k < |steps| && steps[k].DeferStep?
    ensures TaskAt(ss[k], steps[k].t) && |ss[k + 1].tasks| == |ss[k].tasks| && ss[k + 1].insts == ss[k].insts
    ensures var s, s', t, lock := ss[k], ss[k + 1], steps[k].t, steps[k].lock;
            && (lock in s'.parked <==> Owner(s.tasks[t]))
            && (Owner(s.tasks[t]) ==> s'.parked[lock] == Slot(s.tasks[t].inst, s.tasks[t].after.value))
            && lock in s'.sent && s'.sent[lock].key == InstOf(s, t).key && s'.sent[lock].flow == s.tasks[t].flow
            && s'.sent[lock].lock == lock && !s'.sent[lock].child
            && s'.sent[lock].deadline == (if Owner(s.tasks[t]) then 0 else steps[k].deadline)
            && s'.tasks[t].stage.Ended?
  {
    RunInv(ss, steps, k);
    assert Takes(ss[k], steps[k], ss[k + 1]);
    assert WellFormedTask(ss[k], ss[k].tasks[steps[k].t]);
    hide Run, Baton, Tabled;
  }

  /** A lock id is parked and reclaimed at most once. */
  lemma {:induction false} ReclaimedOnce(ss: seq<State>, steps: seq<Step>, k: nat, j: nat, lock: string)
    requires Run(ss, steps) && k <= j < |ss| && lock in ss[k].usedLocks && lock !in ss[k].parked
    ensures lock in ss[j].usedLocks && lock !in ss[j].parked
  {
    if k < j {
      ReclaimedOnce(ss, steps, k, j - 1, lock);
      assert Takes(ss[j - 1], steps[j - 1], ss[j - 1 + 1]);
      if steps[j - 1].ScheduleStep? {
        ScheduleLocks(ss[j - 1], ss[j]);
      } else if !steps[j - 1].DeferStep? && !steps[j - 1].DropStep? {
        SameLocks(ss[j - 1], steps[j - 1], ss[j]);
      }
    }
  }

  // ----- the table and the collector -----

  /** A valid instance is the one in the table, so a key has at most one. */
  lemma OneValidInstance(ss: seq<State>, steps: seq<Step>, k: nat, i: nat, j: nat)
    requires Run(ss, steps) && k < |ss| && i < |ss[k].insts| && j < |ss[k].insts|
    requires ss[k].insts[i].valid && ss[k].insts[i].key == ss[k].insts[j].key
    ensures ss[k].insts[i].key in ss[k].table && ss[k].table[ss[k].insts[i].key] == i
    ensures ss[k].insts[j].valid <==> i == j
  {
    RunInv(ss, steps, k);
  }

  /** Collecting loses no work: no task waits for a retired instance, or owns it. */
  lemma RetiredIsIdle(ss: seq<State>, steps: seq<Step>, k: nat, t: nat)
    requires Run(ss, steps) && k < |ss| && TaskAt(ss[k], t) && !InstOf(ss[k], t).valid
    ensures !ss[k].tasks[t].Waits() && !Owner(ss[k].tasks[t])
  {
    var s, i := ss[k], ss[k].tasks[t].inst;
    RunInv(ss, steps, k);
    assert Baton(s, i) && WellFormedTask(s, s.tasks[t]);
    var p :| At(s, i, p);
    assert p.Retired?;
    if Owner(s.tasks[t]) { assert At(s, i, Held(t)); }
  }

  /** A collector whose turn is over retires the instance if and only if nobody waits for it. */
  lemma RetiresIff(ss: seq<State>, steps: seq<Step>, k: nat)
    requires Run(ss, steps) && k < |steps| && steps[k].RetireStep?
    ensures TaskAt(ss[k], steps[k].t) && |ss[k + 1].insts| == |ss[k].insts|
    ensures var i := ss[k].tasks[steps[k].t].inst;
            && (!ss[k + 1].insts[i].valid <==>
                  forall u :: 0 <= u < |ss[k].tasks| && ss[k].tasks[u].inst == i ==> !ss[k].tasks[u].Waits())
            && (ss[k + 1].insts[i].valid <==> ss[k].insts[i].key in ss[k + 1].table)
            && ss[k + 1].insts[i].active == Released
  {
    var s, t := ss[k], steps[k].t;
    assert Takes(s, steps[k], ss[k + 1]);
    var i := s.tasks[t].inst;
    RunInv(ss, steps, k);
    assert WellFormedTask(s, s.tasks[t]) && Baton(s, i) && At(s, i, Held(t));
    var last := s.tasks[t].after.value;
    if Next(s.insts[i]) == last {
      forall u | 0 <= u < |s.tasks| && s.tasks[u].inst == i ensures !s.tasks[u].Waits() {
        assert WellFormedTask(s, s.tasks[u]);
      }
    } else {
      assert HasReader(s, i, last);
      var u :| Reads(s, u, i, last);
    }
  }

  /**
   * While a task waits, someone can move the baton: whoever is at the head of the queue, its holder (once its child has
   * answered, if it waits for one), or the request it is parked for, which a regular run does not lose.
   */
  lemma NeverStuck(ss: seq<State>, steps: seq<Step>, k: nat, t: nat)
    requires Run(ss, steps) && k < |ss| && TaskAt(ss[k], t) && ss[k].tasks[t].Waits()
    ensures var s, i := ss[k], ss[k].tasks[t].inst;
            || (exists u: nat :: u <= t && BatonReady(s, u) && s.tasks[u].inst == i && s.tasks[u].Waits())
            || (exists u: nat :: TaskAt(s, u) && s.tasks[u].inst == i && Owner(s.tasks[u]))
            || (exists l :: l in s.parked && s.parked[l].inst == i
                            && (if l in s.sent then s.sent[l].key == s.insts[i].key else !Regular(ss, steps)))
  {
    var s, i := ss[k], ss[k].tasks[t].inst;
    RunInv(ss, steps, k);
    assert Baton(s, i) && WellFormedTask(s, s.tasks[t]);
    var p :| At(s, i, p);
    match p
    case InChannel(c) =>
      assert HasReader(s, i, c);
      var u :| Reads(s, u, i, c);
      assert BatonReady(s, u);
    case Held(u) =>
      assert TaskAt(s, u) && Owner(s.tasks[u]);
    case Parked(l) =>
    case Retired(_) =>
  }
}
