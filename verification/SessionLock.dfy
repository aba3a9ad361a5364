/**
 * The lock of an actor instance on one node. Queued tasks form a chain of one-slot channels and pass a baton along it;
 * requests of the flow that owns the instance run beside their ancestors; a tail call to the same actor parks the
 * baton for the next request of its flow; a collector task queues up to retire an idle instance; a retry whose previous
 * execution left a call behind waits for it before it runs.
 */
module SessionLock {
  import opened Options

  /** The flow that owns an instance, or the flow of a request. Flow ids of requests are generated names. */
  datatype Flow = Released | Nonexclusive | Deactivate(run: nat) | Named(name: string)

  datatype Chan = Empty | Full | Closed

  /** A SessionInstance; chans are the channels ever created for it, the last one is its field next. */
  datatype Instance = Instance(key: string, active: Flow, chans: seq<Chan>, valid: bool)

  /**
   * Queued and Late tasks wait for the baton; a Late one has answered its request with a timeout already. An Awaiting
   * task waits for a call of its previous execution.
   */
  datatype Stage = Queued | Late | Awaiting | Running | Cleared | Ended

  /** Whether a task is a retry that waits for a child, and whether it opened a new instance of its actor. */
  datatype Child = NoChild | Child(opens: bool)

  /** A goroutine started by acceptSession or by the collector. */
  datatype Task = Task(inst: nat, before: Option<nat>, after: Option<nat>, flow: Flow, clear: bool, collector: bool,
                       child: Child, stage: Stage)
  {
    predicate Waits() { stage.Queued? || stage.Late? }

    /** This goroutine has had its turn and not ended. */
    predicate Active() { stage.Awaiting? || stage.Running? || stage.Cleared? }

    /** This goroutine has the baton and must pass it on. */
    predicate Holds() { after.Some? && Active() }
  }

  /**
   * A request for session key; lock is "" or a deferred lock id; deadline 0 means none; child: it waits for a child.
   */
  datatype Request = Request(key: string, flow: Flow, lock: string, deadline: nat, child: bool)

  datatype Slot = Slot(inst: nat, chan: nat)

  /** The receiving goroutine between reading the session table and locking the entry it found. */
  datatype Accepting = Accepting(request: Request, found: Option<nat>)

  datatype State = State(
    insts: seq<Instance>,
    table: map<string, nat>,         // sessionTable
    tasks: seq<Task>,
    parked: map<string, Slot>,       // deferredLocks
    sent: map<string, Request>,      // requests in flight that carry a deferred lock id
    accepting: Option<Accepting>,
    usedLocks: set<string>,          // history: lock ids ever generated
    regular: bool)                   // history: every retry accepted so far that waits for a child queued

  function Next(i: Instance): int { |i.chans| - 1 }

  // ----- steps -----

  /** acceptSession reads the session table for a request that just arrived. */
  ghost predicate Load(s: State, r: Request, s': State) {
    && s.accepting.None?
    && !r.flow.Released? && !r.flow.Deactivate?
    && (r.lock != "" ==> r.lock in s.sent && s.sent[r.lock] == r && !r.child)
    && s' == s.(accepting := Some(Accepting(r, if r.key in s.table then Some(s.table[r.key]) else None)))
  }

  /** accept drops a request whose deadline has passed. */
  ghost predicate Drop(s: State, r: Request, s': State) {
    && s.accepting.None? && r.lock != "" && r.lock in s.sent && s.sent[r.lock] == r && r.deadline != 0
    && s' == s.(sent := s.sent - {r.lock})
  }

  /** For a retry that waits for a child, a new instance belongs to its flow, as it did before the failure. */
  function NewInstance(r: Request): Instance { Instance(r.key, if r.child then r.flow else Released, [Full], true) }

  /** The entry found is still valid. */
  predicate Reused(s: State) {
    && s.accepting.Some? && s.accepting.value.found.Some?
    && s.accepting.value.found.value < |s.insts| && s.insts[s.accepting.value.found.value].valid
  }

  /** The first part of acceptSession: find a valid entry or store a new one. */
  function Opened(s: State): State
    requires s.accepting.Some?
  {
    if Reused(s) then s else
      var r, e := s.accepting.value.request, |s.insts|;
      s.(insts := s.insts + [NewInstance(r)], table := s.table[r.key := e], accepting := Some(Accepting(r, Some(e))))
  }

  /** The request leaves the network. */
  function Taken(s: State): State
    requires s.accepting.Some?
  {
    var lock := s.accepting.value.request.lock;
    s.(accepting := None, sent := if lock == "" then s.sent else s.sent - {lock})
  }

  /** A task that does not queue runs at once, or waits for its child at once. */
  function Joining(r: Request, e: nat, after: Option<nat>): Task {
    Task(e, None, after, r.flow, after.Some?, false, if r.child then Child(false)
        else NoChild, if r.child then Awaiting else Running)
  }

  /** A request of the flow that owns the instance runs at once, with the baton if it was parked for it. */
  ghost predicate Bypass(s: State, e: nat, s': State) {
    && s.accepting.Some?
    && var r := s.accepting.value.request;
       var deferred := r.lock != "" && r.lock in s.parked;
       var after := if deferred then Some(s.parked[r.lock].chan) else None;
       s' == Taken(s).(tasks := s.tasks + [Joining(r, e, after)],
                       parked := if deferred then s.parked - {r.lock} else s.parked)
  }

  ghost predicate Beside(s: State, e: nat, s': State) {
    && s.accepting.Some?
    && s' == Taken(s).(tasks := s.tasks + [Joining(s.accepting.value.request, e, None)])
  }

  ghost predicate Enqueue(s: State, e: nat, flow: Flow, collector: bool, child: Child, s': State) {
    && e < |s.insts| && s.insts[e].chans != []
    && var n := |s.insts[e].chans| - 1;
       s' == s.(tasks := s.tasks + [Task(e, Some(n), Some(n + 1), flow, true, collector, child, Queued)],
                insts := s.insts[e := s.insts[e].(chans := s.insts[e].chans + [Empty])])
  }

  /** acceptSession locks the entry, replaces it when it is invalid, and starts a goroutine for the request. */
  ghost predicate Schedule(s: State, s': State) {
    && s.accepting.Some?
    && var m := Opened(s).(regular := s.regular && RegularAt(s));
       var r, e := m.accepting.value.request, m.accepting.value.found.value;
       if Reused(s) && m.insts[e].active == r.flow then Bypass(m, e, s')
       else if r.flow == Nonexclusive then Beside(m, e, s')
       else Enqueue(Taken(m), e, r.flow, false, if r.child then Child(!Reused(s)) else NoChild, s')
  }

  /**
   * The request being accepted is not a retry that must wait for a child and does not queue, because it is
   * nonexclusive or because its flow owns the instance already.
   */
  predicate RegularAt(s: State) {
    s.accepting.Some? && s.accepting.value.request.child ==>
      var r := s.accepting.value.request;
      r.flow != Nonexclusive && !(Reused(s) && s.insts[s.accepting.value.found.value].active == r.flow)
  }

  predicate TaskAt(s: State, t: nat) { t < |s.tasks| && s.tasks[t].inst < |s.insts| }

  function InstOf(s: State, t: nat): Instance
    requires TaskAt(s, t)
  {
    s.insts[s.tasks[t].inst]
  }

  predicate BatonReady(s: State, t: nat) {
    && TaskAt(s, t)
    && s.tasks[t].before.Some? && s.tasks[t].before.value < |InstOf(s, t).chans|
    && InstOf(s, t).chans[s.tasks[t].before.value] == Full
  }

  /** A queued task receives the baton and takes the instance for its flow, unless it must wait for its child first. */
  ghost predicate Acquire(s: State, t: nat, s': State) {
    && BatonReady(s, t) && s.tasks[t].stage.Queued?
    && var i, inst, waits := s.tasks[t].inst, InstOf(s, t), s.tasks[t].child.Child?;
       s' == s.(tasks := s.tasks[t := s.tasks[t].(stage := if waits then Awaiting else Running)],
                insts := s.insts[i := inst.(active := if waits then inst.active else s.tasks[t].flow,
                                            chans := inst.chans[s.tasks[t].before.value := Empty])])
  }

  /** The child of a retry has answered: the flow is released, and taken again by a retry that queued. */
  ghost predicate Resume(s: State, t: nat, s': State) {
    && TaskAt(s, t) && s.tasks[t].stage.Awaiting?
    && var i, inst := s.tasks[t].inst, InstOf(s, t);
       s' == s.(tasks := s.tasks[t := s.tasks[t].(stage := Running)],
                insts := s.insts[i := inst.(active := if s.tasks[t].before.Some? then s.tasks[t].flow else Released)])
  }

  /**
   * The busy timeout of a queued request expires; it is answered, but its place in the queue remains. A retry that
   * found no instance does not wait for its turn.
   */
  ghost predicate Timeout(s: State, t: nat, s': State) {
    && TaskAt(s, t) && s.tasks[t].stage.Queued? && !s.tasks[t].collector && s.tasks[t].child != Child(true)
    && s' == s.(tasks := s.tasks[t := s.tasks[t].(stage := Late)])
  }

  /** A late task receives the baton and passes it straight on. */
  ghost predicate PassOn(s: State, t: nat, s': State) {
    && BatonReady(s, t) && s.tasks[t].stage.Late?
    && s.tasks[t].after.Some? && s.tasks[t].after.value < |InstOf(s, t).chans|
    && var i, inst := s.tasks[t].inst, InstOf(s, t);
       s' == s.(tasks := s.tasks[t := s.tasks[t].(stage := Ended)],
                insts := s.insts[i := inst.(chans :=
                    inst.chans[s.tasks[t].before.value := Empty][s.tasks[t].after.value := Full])])
  }

  /** The handler has returned and no lock is deferred: the flow is cleared if this goroutine owns it. */
  ghost predicate ClearFlow(s: State, t: nat, s': State) {
    && TaskAt(s, t) && s.tasks[t].stage.Running? && !s.tasks[t].collector
    && var i, inst := s.tasks[t].inst, InstOf(s, t);
       s' == s.(tasks := s.tasks[t := s.tasks[t].(stage := Cleared)],
                insts := if s.tasks[t].clear then s.insts[i := inst.(active := Released)] else s.insts)
  }

  /** A goroutine passes the baton on, if it has it, and ends. */
  ghost predicate Release(s: State, t: nat, s': State) {
    && TaskAt(s, t) && s.tasks[t].stage.Cleared?
    && var i, inst := s.tasks[t].inst, InstOf(s, t);
       if s.tasks[t].after.Some? then
         && s.tasks[t].after.value < |inst.chans|
         && s' == s.(tasks := s.tasks[t := s.tasks[t].(stage := Ended)],
                     insts := s.insts[i := inst.(chans := inst.chans[s.tasks[t].after.value := Full])])
       else s' == s.(tasks := s.tasks[t := s.tasks[t].(stage := Ended)])
  }

  /** The handler returned a tail call to its own actor with a deferred lock; only a task with the baton parks it. */
  ghost predicate Defer(s: State, t: nat, lock: string, deadline: nat, s': State) {
    && TaskAt(s, t) && s.tasks[t].stage.Running? && !s.tasks[t].collector
    && lock != "" && lock !in s.usedLocks
    && var i, inst := s.tasks[t].inst, InstOf(s, t);
       var holds := s.tasks[t].after.Some?;
       var r := Request(inst.key, s.tasks[t].flow, lock, if holds then 0 else deadline, false);
       s' == s.(tasks := s.tasks[t := s.tasks[t].(stage := Ended, after := None)],
                parked := if holds then s.parked[lock := Slot(i, s.tasks[t].after.value)] else s.parked,
                sent := s.sent[lock := r],
                usedLocks := s.usedLocks + {lock})
  }

  /** The collector queues a task behind everybody else. */
  ghost predicate Collect(s: State, i: nat, run: nat, s': State) {
    i < |s.insts| && s.insts[i].valid && Enqueue(s, i, Deactivate(run), true, NoChild, s')
  }

  /** The collector's turn is over: it retires the instance unless somebody queued up behind it. */
  ghost predicate Retire(s: State, t: nat, s': State) {
    && TaskAt(s, t) && s.tasks[t].stage.Running? && s.tasks[t].collector && s.tasks[t].after.Some?
    && var i, inst, last := s.tasks[t].inst, InstOf(s, t), s.tasks[t].after.value;
       if inst.valid && Next(inst) == last then
         s' == s.(tasks := s.tasks[t := s.tasks[t].(stage := Ended)],
                  table := s.table - {inst.key},
                  insts := s.insts[i := inst.(active := Released, valid := false, chans := inst.chans[last := Closed])])
       else
         s' == s.(tasks := s.tasks[t := s.tasks[t].(stage := Cleared)],
                  insts := s.insts[i := inst.(active := Released)])
  }

  datatype Step =
    | LoadStep(r: Request) | DropStep(r: Request) | ScheduleStep
    | AcquireStep(t: nat) | ResumeStep(t: nat) | TimeoutStep(t: nat) | PassOnStep(t: nat)
    | ClearFlowStep(t: nat) | ReleaseStep(t: nat) | DeferStep(t: nat, lock: string, deadline: nat)
    | CollectStep(i: nat, run: nat) | RetireStep(t: nat)

  ghost predicate Takes(s: State, step: Step, s': State) {
    match step
    case LoadStep(r) => Load(s, r, s')
    case DropStep(r) => Drop(s, r, s')
    case ScheduleStep => Schedule(s, s')
    case AcquireStep(t) => Acquire(s, t, s')
    case ResumeStep(t) => Resume(s, t, s')
    case TimeoutStep(t) => Timeout(s, t, s')
    case PassOnStep(t) => PassOn(s, t, s')
    case ClearFlowStep(t) => ClearFlow(s, t, s')
    case ReleaseStep(t) => Release(s, t, s')
    case DeferStep(t, lock, deadline) => Defer(s, t, lock, deadline, s')
    case CollectStep(i, run) => Collect(s, i, run, s')
    case RetireStep(t) => Retire(s, t, s')
  }

  ghost predicate Starts(s: State) { s == State([], map[], [], map[], map[], None, {}, true) }

  ghost predicate Run(ss: seq<State>, steps: seq<Step>) {
    && |ss| == |steps| + 1
    && Starts(ss[0])
    && forall k :: 0 <= k < |steps| ==> Takes(ss[k], steps[k], ss[k + 1])
  }

  /** A run in which every retry that waits for a child queues. */
  ghost predicate Regular(ss: seq<State>, steps: seq<Step>) {
    Run(ss, steps) && forall k :: 0 <= k < |steps| && steps[k].ScheduleStep? ==> RegularAt(ss[k])
  }

  // ----- where the baton is -----

  datatype Place = InChannel(chan: nat) | Held(task: nat) | Parked(lock: string) | Retired(chan: nat)

  /** The baton of instance i is at place p. */
  ghost predicate At(s: State, i: nat, p: Place) {
    && i < |s.insts|
    && match p
       case InChannel(k) => k < |s.insts[i].chans| && s.insts[i].chans[k] == Full
       case Held(t) => t < |s.tasks| && s.tasks[t].inst == i && s.tasks[t].Holds()
       case Parked(l) => l in s.parked && s.parked[l].inst == i
       case Retired(k) => k < |s.insts[i].chans| && s.insts[i].chans[k] == Closed
  }

  /** The channel through which the next queued task will receive the baton. */
  function Index(s: State, p: Place): int {
    match p
    case InChannel(k) => k
    case Held(t) => if t < |s.tasks| && s.tasks[t].after.Some? then s.tasks[t].after.value else -1
    case Parked(l) => if l in s.parked then s.parked[l].chan else -1
    case Retired(k) => k
  }

  ghost predicate OneBaton(s: State, i: nat) {
    && (exists p :: At(s, i, p))
    && (forall p, q :: At(s, i, p) && At(s, i, q) ==> p == q)
  }

  /** Tasks before the baton have had their turn, tasks behind it wait. */
  ghost predicate InOrder(s: State, i: nat) {
    forall p, t :: At(s, i, p) && 0 <= t < |s.tasks| && s.tasks[t].inst == i && s.tasks[t].before.Some? ==>
      (s.tasks[t].Waits() <==> s.tasks[t].before.value >= Index(s, p))
  }

  /** Task t receives the baton from channel k of instance i. */
  predicate Reads(s: State, t: int, i: nat, k: nat) {
    0 <= t < |s.tasks| && s.tasks[t].inst == i && s.tasks[t].before == Some(k)
  }

  /** The baton in channel k is for a retry that found no instance. */
  ghost predicate Reserved(s: State, i: nat, k: nat) {
    exists t :: Reads(s, t, i, k) && s.tasks[t].child == Child(true)
  }

  /** The instance is valid unless its baton is retired; in a regular run, the place of the baton says who owns it. */
  ghost predicate Owned(s: State, i: nat) {
    i < |s.insts| ==>
    forall p :: At(s, i, p) ==>
      match p
      case InChannel(k) =>
        && s.insts[i].valid
        && (s.regular ==>
              if Reserved(s, i, k) then forall t :: Reads(s, t, i, k) ==> s.insts[i].active == s.tasks[t].flow
              else s.insts[i].active == Released)
      case Held(t) => s.insts[i].valid && (s.regular ==> s.insts[i].active == Owning(s.tasks[t]))
      case Parked(l) =>
        && s.insts[i].valid
        && (l in s.sent ==> s.sent[l] == Request(s.insts[i].key, s.sent[l].flow, l, 0, false))
        && (s.regular ==> l in s.sent && s.sent[l].flow == s.insts[i].active)
      case Retired(k) => !s.insts[i].valid && k == Next(s.insts[i])
  }

  /** The flow that owns the instance while task t has the baton. */
  function Owning(t: Task): Flow {
    if t.stage.Running? || (t.stage.Awaiting? && t.child == Child(true)) then t.flow else Released
  }

  ghost predicate WellFormedTask(s: State, t: Task) {
    && t.inst < |s.insts|
    && var n := |s.insts[t.inst].chans|;
       && (t.before.Some? ==> t.before.value + 1 < n && (t.after.None? || t.after.value == t.before.value + 1))
       && (t.before.None? ==> !t.Waits() && !t.collector && (s.regular ==> t.child.NoChild?))
       && (t.after.Some? ==> 0 < t.after.value < n && t.clear)
       && (t.Waits() ==> t.after.Some?)
       && (t.Active() && t.clear ==> t.after.Some?)
       && (t.stage.Awaiting? ==> t.child.Child?)
       && (t.child == Child(true) ==> t.before == Some(0) && !t.stage.Late?)
       && (t.child.Child? ==> !t.collector)
       && (t.before.Some? ==> t.clear && t.flow != Nonexclusive)
       && (t.collector && t.stage.Running? ==> t.after.Some?)
       && !t.flow.Released? && (t.flow.Deactivate? <==> t.collector)
  }

  /** Some task receives the baton from channel k of instance i. */
  ghost predicate HasReader(s: State, i: nat, k: nat) { exists t :: Reads(s, t, i, k) }

  ghost predicate WellFormed(s: State) {
    && (forall i :: 0 <= i < |s.insts| ==> |s.insts[i].chans| > 0)
    && (forall t :: 0 <= t < |s.tasks| ==> WellFormedTask(s, s.tasks[t]))
    && (forall t, u :: 0 <= t < u < |s.tasks| && s.tasks[t].inst == s.tasks[u].inst && s.tasks[t].before.Some?
                       && s.tasks[u].before.Some? ==>
          s.tasks[t].before.value < s.tasks[u].before.value)
    && (forall i, k :: 0 <= i < |s.insts| && 0 <= k < Next(s.insts[i]) ==> HasReader(s, i, k))
    && (forall l :: l in s.parked ==> s.parked[l].inst < |s.insts|
                                      && 0 < s.parked[l].chan < |s.insts[s.parked[l].inst].chans|)
    && (forall l :: l in s.sent ==> l != "" && s.sent[l].lock == l && !s.sent[l].flow.Released?
                                    && !s.sent[l].flow.Deactivate?)
    && s.parked.Keys <= s.usedLocks && s.sent.Keys <= s.usedLocks && "" !in s.usedLocks
  }

  /** The table holds the valid instance of a key, and only that. */
  ghost predicate Tabled(s: State) {
    && (forall k :: k in s.table ==> s.table[k] < |s.insts| && s.insts[s.table[k]].key == k
                                     && s.insts[s.table[k]].valid)
    && (forall i :: 0 <= i < |s.insts| && s.insts[i].valid ==> s.insts[i].key in s.table
                                                               && s.table[s.insts[i].key] == i)
  }

  /** What the receiving goroutine remembers is the current entry, or an entry retired since. */
  ghost predicate Recalled(s: State) {
    s.accepting.Some? ==>
      var r, found := s.accepting.value.request, s.accepting.value.found;
      && !r.flow.Released? && !r.flow.Deactivate?
      && (r.lock != "" ==> r.lock in s.sent && s.sent[r.lock] == r && !r.child)
      && (found.None? ==> r.key !in s.table)
      && (found.Some? ==> found.value < |s.insts| && s.insts[found.value].key == r.key
                          && (!s.insts[found.value].valid ==> r.key !in s.table))
  }

  ghost predicate Inv(s: State) {
    && WellFormed(s) && Tabled(s) && Recalled(s)
    && forall i :: 0 <= i < |s.insts| ==> Baton(s, i)
  }

  ghost predicate Baton(s: State, i: nat) { OneBaton(s, i) && InOrder(s, i) && Owned(s, i) }
}
