/** Every step of the session lock keeps its invariant. */
module SessionSteps {
  import opened Options
  import opened SessionLock

  // ----- an instance the step does not touch -----

  ghost predicate Untouched(s: State, s': State, i: nat) {
    && i < |s.insts| <= |s'.insts| && s'.insts[i] == s.insts[i]
    && |s.tasks| <= |s'.tasks|
    && (forall t :: 0 <= t < |s.tasks| && (s.tasks[t].inst == i || s'.tasks[t].inst == i) ==> s'.tasks[t] == s.tasks[t])
    && (forall t :: |s.tasks| <= t < |s'.tasks| ==> s'.tasks[t].inst != i)
    && (forall l :: l in s.parked && s.parked[l].inst == i ==>
          && l in s'.parked && s'.parked[l] == s.parked[l]
          && (l in s'.sent ==> l in s.sent && s'.sent[l] == s.sent[l])
          && (l in s.sent && s'.regular ==> l in s'.sent))
    && (forall l :: l in s'.parked && s'.parked[l].inst == i ==> l in s.parked && s.parked[l].inst == i)
    && (s'.regular ==> s.regular)
  }

  lemma Elsewhere(s: State, s': State, i: nat)
    requires Untouched(s, s', i) && Baton(s, i)
    ensures Baton(s', i)
  {
    forall p ensures At(s', i, p) <==> At(s, i, p) {}
    forall k: nat, t ensures Reads(s', t, i, k) <==> Reads(s, t, i, k) {}
    var p :| At(s, i, p);
    assert At(s', i, p);
    forall q | At(s', i, q) ensures Index(s', q) == Index(s, q) {}
  }

  /** Tasks keep the channel they read from. */
  lemma ReadersKept(s: State, s': State)
    requires |s.tasks| <= |s'.tasks|
    requires forall t :: 0 <= t < |s.tasks| ==> s'.tasks[t].inst == s.tasks[t].inst
                                                && s'.tasks[t].before == s.tasks[t].before
    ensures forall i: nat, k: nat :: HasReader(s, i, k) ==> HasReader(s', i, k)
  {
    forall i: nat, k: nat | HasReader(s, i, k) ensures HasReader(s', i, k) {
      var t :| Reads(s, t, i, k);
      assert Reads(s', t, i, k);
    }
  }

  // ----- the baton after each step -----

  lemma AcquireBaton(s: State, t: nat, s': State)
    requires Inv(s) && Acquire(s, t, s')
    ensures Baton(s', s.tasks[t].inst)
  {
    var i := s.tasks[t].inst;
    assert Baton(s, i);
    assert At(s, i, InChannel(s.tasks[t].before.value));
    assert WellFormedTask(s, s.tasks[t]);
    ReaderDecides(s, t, i, s.tasks[t].before.value);
    assert At(s', i, Held(t));
    forall q | At(s', i, q) ensures q == Held(t) {
      if !(q == Held(t)) { assert At(s, i, q); }
    }
  }

  /** A channel has one reader, so who reads it says whether it is reserved. */
  lemma ReaderDecides(s: State, t: nat, i: nat, k: nat)
    requires WellFormed(s) && Reads(s, t, i, k)
    ensures Reserved(s, i, k) <==> s.tasks[t].child == Child(true)
  {
    hide HasReader, WellFormedTask;
    if Reserved(s, i, k) {
      var u :| Reads(s, u, i, k) && s.tasks[u].child == Child(true);
      assert u == t;
    }
  }

  /** Who reads a channel, and for a retry of which kind, does not change. */
  lemma SameReaders(s: State, s': State, i: nat)
    requires |s'.tasks| == |s.tasks|
    requires forall t :: 0 <= t < |s.tasks| ==>
               s'.tasks[t] == s.tasks[t].(after := s'.tasks[t].after, stage := s'.tasks[t].stage)
    ensures forall t: int, k: nat :: Reads(s', t, i, k) <==> Reads(s, t, i, k)
    ensures forall k: nat :: Reserved(s', i, k) <==> Reserved(s, i, k)
  {
    assert forall t: int, k: nat :: Reads(s', t, i, k) <==> Reads(s, t, i, k);
    forall k: nat ensures Reserved(s', i, k) <==> Reserved(s, i, k) {
      if Reserved(s, i, k) {
        var u :| Reads(s, u, i, k) && s.tasks[u].child == Child(true);
        assert Reads(s', u, i, k) && s'.tasks[u].child == Child(true);
      }
      if Reserved(s', i, k) {
        var u :| Reads(s', u, i, k) && s'.tasks[u].child == Child(true);
        assert Reads(s, u, i, k) && s.tasks[u].child == Child(true);
      }
    }
  }

  /**
   * A new task that is not a retry at the head of a new instance reserves nothing, and reads no channel that has a
   * reader.
   */
  lemma OneMoreTask(s: State, s': State, e: nat)
    requires WellFormed(s) && e < |s.insts| && |s'.tasks| == |s.tasks| + 1 && s'.tasks[..|s.tasks|] == s.tasks
    requires var t := s'.tasks[|s.tasks|]; t.child != Child(true)
                                           && (t.before.Some? ==> t.before.value == Next(s.insts[e]))
    ensures forall k: nat :: Reserved(s', e, k) <==> Reserved(s, e, k)
    ensures forall t: int, k: nat :: Reserved(s, e, k) && Reads(s', t, e, k) ==> Reads(s, t, e, k)
  {
    hide HasReader;
    assert forall t: int, k: nat :: t != |s.tasks| ==> (Reads(s', t, e, k) <==> Reads(s, t, e, k));
    forall k: nat ensures Reserved(s', e, k) <==> Reserved(s, e, k) {
      if Reserved(s, e, k) {
        var u :| Reads(s, u, e, k) && s.tasks[u].child == Child(true);
        assert Reads(s', u, e, k);
      }
      if Reserved(s', e, k) {
        var u :| Reads(s', u, e, k) && s'.tasks[u].child == Child(true);
        assert Reads(s, u, e, k);
      }
    }
    forall t: int, k: nat | Reserved(s, e, k) && Reads(s', t, e, k) ensures Reads(s, t, e, k) {
      var u :| Reads(s, u, e, k) && s.tasks[u].child == Child(true);
      assert WellFormedTask(s, s.tasks[u]);
    }
  }

  lemma ResumeBaton(s: State, t: nat, s': State)
    requires Inv(s) && Resume(s, t, s')
    ensures Baton(s', s.tasks[t].inst)
  {
    var i := s.tasks[t].inst;
    assert Baton(s, i) && WellFormedTask(s, s.tasks[t]);
    assert s.tasks[t].before.Some? ==> At(s, i, Held(t));
    SameReaders(s, s', i);
    hide Reserved, Reads;
    forall p ensures At(s', i, p) <==> At(s, i, p) {}
    var p :| At(s, i, p);
    assert At(s', i, p);
    forall q | At(s', i, q) ensures Index(s', q) == Index(s, q) {}
  }

  lemma TimeoutBaton(s: State, t: nat, s': State)
    requires Inv(s) && Timeout(s, t, s')
    ensures Baton(s', s.tasks[t].inst)
  {
    var i := s.tasks[t].inst;
    assert Baton(s, i);
    SameReaders(s, s', i);
    hide Reserved, Reads;
    forall p ensures At(s', i, p) <==> At(s, i, p) {}
    var p :| At(s, i, p);
    assert At(s', i, p);
    forall q | At(s', i, q) ensures Index(s', q) == Index(s, q) {}
  }

  lemma PassOnBaton(s: State, t: nat, s': State)
    requires Inv(s) && PassOn(s, t, s')
    ensures Baton(s', s.tasks[t].inst)
  {
    var i := s.tasks[t].inst;
    assert Baton(s, i) && WellFormedTask(s, s.tasks[t]);
    assert At(s, i, InChannel(s.tasks[t].before.value));
    var p := InChannel(s.tasks[t].after.value);
    assert At(s', i, p);
    forall q | At(s', i, q) ensures q == p {
      if !(q == p) { assert At(s, i, q); }
    }
  }

  lemma ClearFlowBaton(s: State, t: nat, s': State)
    requires Inv(s) && ClearFlow(s, t, s')
    ensures Baton(s', s.tasks[t].inst)
  {
    var i := s.tasks[t].inst;
    assert Baton(s, i) && WellFormedTask(s, s.tasks[t]);
    assert s.tasks[t].clear ==> At(s, i, Held(t));
    SameReaders(s, s', i);
    hide Reserved, Reads;
    forall p ensures At(s', i, p) <==> At(s, i, p) {}
    var p :| At(s, i, p);
    assert At(s', i, p);
    forall q | At(s', i, q) ensures Index(s', q) == Index(s, q) {}
  }

  lemma ReleaseBaton(s: State, t: nat, s': State)
    requires Inv(s) && Release(s, t, s') && s.tasks[t].after.Some?
    ensures Baton(s', s.tasks[t].inst)
  {
    var i := s.tasks[t].inst;
    assert Baton(s, i) && WellFormedTask(s, s.tasks[t]);
    assert At(s, i, Held(t));
    var p := InChannel(s.tasks[t].after.value);
    assert At(s', i, p);
    forall q | At(s', i, q) ensures q == p {
      if !(q == p) { assert At(s, i, q); }
    }
  }

  lemma EndBaton(s: State, t: nat, s': State)
    requires Inv(s) && Release(s, t, s') && s.tasks[t].after.None?
    ensures Baton(s', s.tasks[t].inst)
  {
    var i := s.tasks[t].inst;
    assert Baton(s, i);
    SameReaders(s, s', i);
    hide Reserved, Reads;
    forall p ensures At(s', i, p) <==> At(s, i, p) {}
    var p :| At(s, i, p);
    assert At(s', i, p);
    forall q | At(s', i, q) ensures Index(s', q) == Index(s, q) {}
  }

  lemma AbortBaton(s: State, t: nat, s': State)
    requires Inv(s) && Retire(s, t, s') && !(InstOf(s, t).valid && Next(InstOf(s, t)) == s.tasks[t].after.value)
    ensures Baton(s', s.tasks[t].inst)
  {
    var i := s.tasks[t].inst;
    assert Baton(s, i) && WellFormedTask(s, s.tasks[t]);
    assert At(s, i, Held(t));
    forall p ensures At(s', i, p) <==> At(s, i, p) {}
    assert At(s', i, Held(t));
    forall q | At(s', i, q) ensures Index(s', q) == Index(s, q) {}
  }

  lemma RetireBaton(s: State, t: nat, s': State)
    requires Inv(s) && Retire(s, t, s') && InstOf(s, t).valid && Next(InstOf(s, t)) == s.tasks[t].after.value
    ensures Baton(s', s.tasks[t].inst)
  {
    var i := s.tasks[t].inst;
    assert Baton(s, i) && WellFormedTask(s, s.tasks[t]);
    assert At(s, i, Held(t));
    var p := Retired(s.tasks[t].after.value);
    assert At(s', i, p);
    forall q | At(s', i, q) ensures q == p {
      if !(q == p) { assert At(s, i, q); }
    }
  }

  lemma DeferBaton(s: State, t: nat, lock: string, deadline: nat, s': State)
    requires Inv(s) && Defer(s, t, lock, deadline, s') && s.tasks[t].after.Some?
    ensures Baton(s', s.tasks[t].inst)
  {
    var i := s.tasks[t].inst;
    assert Baton(s, i) && WellFormedTask(s, s.tasks[t]);
    assert At(s, i, Held(t));
    var p := Parked(lock);
    assert At(s', i, p);
    forall q | At(s', i, q) ensures q == p {
      if !(q == p) { assert At(s, i, q); }
    }
  }

  lemma CarryBaton(s: State, t: nat, lock: string, deadline: nat, s': State)
    requires Inv(s) && Defer(s, t, lock, deadline, s') && s.tasks[t].after.None?
    ensures Baton(s', s.tasks[t].inst)
  {
    var i := s.tasks[t].inst;
    assert Baton(s, i);
    SameReaders(s, s', i);
    hide Reserved, Reads;
    forall p ensures At(s', i, p) <==> At(s, i, p) {}
    var p :| At(s, i, p);
    assert At(s', i, p);
    forall q | At(s', i, q) ensures Index(s', q) == Index(s, q) {}
  }

  // ----- steps of one task -----

  /** Task t and its instance change; the instance keeps its key, its validity and its number of channels. */
  ghost predicate Moves(s: State, t: nat, task: Task, inst: Instance, s': State) {
    && TaskAt(s, t)
    && task.inst == s.tasks[t].inst && task.before == s.tasks[t].before
    && inst.key == InstOf(s, t).key && inst.valid == InstOf(s, t).valid && |inst.chans| == |InstOf(s, t).chans|
    && s' == s.(tasks := s.tasks[t := task], insts := s.insts[s.tasks[t].inst := inst])
  }

  /** Well-formedness does not depend on the owner, the validity and the contents of channels, nor on the table. */
  lemma MovesWellFormed(s: State, t: nat, task: Task, inst: Instance, s': State)
    requires WellFormed(s) && TaskAt(s, t) && task.inst == s.tasks[t].inst && task.before == s.tasks[t].before
             && WellFormedTask(s, task)
    requires |inst.chans| == |InstOf(s, t).chans| && s'.tasks == s.tasks[t := task]
             && s'.insts == s.insts[s.tasks[t].inst := inst]
    requires s'.parked == s.parked && s'.sent == s.sent && s'.usedLocks == s.usedLocks && s'.regular == s.regular
    ensures WellFormed(s')
  {
    ReadersKept(s, s');
    hide HasReader;
    SameChannels(s, s', task);
    forall u | 0 <= u < |s'.tasks| ensures WellFormedTask(s', s'.tasks[u]) {
      if u != t { assert WellFormedTask(s, s.tasks[u]); SameChannels(s, s', s.tasks[u]); }
    }
    hide WellFormedTask;
  }

  lemma SameChannels(s: State, s': State, t: Task)
    requires WellFormedTask(s, t) && s'.regular == s.regular && |s'.insts| == |s.insts|
    requires forall i :: 0 <= i < |s.insts| ==> |s'.insts[i].chans| == |s.insts[i].chans|
    ensures WellFormedTask(s', t)
  {
  }

  lemma MovesKeeps(s: State, t: nat, task: Task, inst: Instance, s': State)
    requires Inv(s) && Moves(s, t, task, inst, s') && WellFormedTask(s, task) && Baton(s', task.inst)
    ensures Inv(s')
  {
    forall i | 0 <= i < |s'.insts| ensures Baton(s', i) {
      if i != task.inst { Elsewhere(s, s', i); }
    }
    MovesWellFormed(s, t, task, inst, s');
    hide Baton, WellFormed;
  }

  lemma ResumeKeeps(s: State, t: nat, s': State)
    requires Inv(s) && Resume(s, t, s')
    ensures Inv(s')
  {
    ResumeBaton(s, t, s');
    hide Baton;
    MovesKeeps(s, t, s'.tasks[t], InstOf(s', t), s');
  }

  lemma AcquireKeeps(s: State, t: nat, s': State)
    requires Inv(s) && Acquire(s, t, s')
    ensures Inv(s')
  {
    AcquireBaton(s, t, s');
    hide Baton;
    MovesKeeps(s, t, s'.tasks[t], InstOf(s', t), s');
  }

  lemma TimeoutKeeps(s: State, t: nat, s': State)
    requires Inv(s) && Timeout(s, t, s')
    ensures Inv(s')
  {
    TimeoutBaton(s, t, s');
    hide Baton;
    MovesKeeps(s, t, s'.tasks[t], InstOf(s', t), s');
  }

  lemma PassOnKeeps(s: State, t: nat, s': State)
    requires Inv(s) && PassOn(s, t, s')
    ensures Inv(s')
  {
    PassOnBaton(s, t, s');
    hide Baton;
    MovesKeeps(s, t, s'.tasks[t], InstOf(s', t), s');
  }

  lemma ClearFlowKeeps(s: State, t: nat, s': State)
    requires Inv(s) && ClearFlow(s, t, s')
    ensures Inv(s')
  {
    ClearFlowBaton(s, t, s');
    hide Baton;
    MovesKeeps(s, t, s'.tasks[t], InstOf(s', t), s');
  }

  lemma ReleaseKeeps(s: State, t: nat, s': State)
    requires Inv(s) && Release(s, t, s')
    ensures Inv(s')
  {
    if s.tasks[t].after.Some? { ReleaseBaton(s, t, s'); } else { EndBaton(s, t, s'); }
    hide Baton;
    MovesKeeps(s, t, s'.tasks[t], InstOf(s', t), s');
  }

  lemma RetireKeeps(s: State, t: nat, s': State)
    requires Inv(s) && Retire(s, t, s')
    ensures Inv(s')
  {
    if InstOf(s, t).valid && Next(InstOf(s, t)) == s.tasks[t].after.value {
      RetireBaton(s, t, s');
      hide Baton, HasReader;
      forall i | 0 <= i < |s'.insts| ensures Baton(s', i) {
        if i != s.tasks[t].inst { Elsewhere(s, s', i); }
      }
      assert WellFormedTask(s, s.tasks[t]);
      MovesWellFormed(s, t, s'.tasks[t], InstOf(s', t), s');
      hide WellFormed;
    } else {
      AbortBaton(s, t, s');
      hide Baton;
      MovesKeeps(s, t, s'.tasks[t], InstOf(s', t), s');
    }
  }

  lemma DeferWellFormed(s: State, t: nat, lock: string, deadline: nat, s': State)
    requires WellFormed(s) && Defer(s, t, lock, deadline, s')
    ensures WellFormed(s')
  {
    ReadersKept(s, s');
    hide HasReader;
    assert WellFormedTask(s, s.tasks[t]) && WellFormedTask(s', s'.tasks[t]);
    forall u | 0 <= u < |s'.tasks| ensures WellFormedTask(s', s'.tasks[u]) {
      if u != t { assert WellFormedTask(s, s.tasks[u]); SameChannels(s, s', s.tasks[u]); }
    }
    hide WellFormedTask;
  }

  lemma DeferKeeps(s: State, t: nat, lock: string, deadline: nat, s': State)
    requires Inv(s) && Defer(s, t, lock, deadline, s')
    ensures Inv(s')
  {
    hide Baton, HasReader, WellFormedTask;
    if s.tasks[t].after.Some? { DeferBaton(s, t, lock, deadline, s'); } else { CarryBaton(s, t, lock, deadline, s'); }
    forall i | 0 <= i < |s'.insts| ensures Baton(s', i) {
      if i != s.tasks[t].inst { Elsewhere(s, s', i); }
    }
    DeferWellFormed(s, t, lock, deadline, s');
    hide WellFormed;
  }

  lemma LoadKeeps(s: State, r: Request, s': State)
    requires Inv(s) && Load(s, r, s')
    ensures Inv(s')
  {
    forall i | 0 <= i < |s'.insts| ensures Baton(s', i) { Elsewhere(s, s', i); }
    ReadersKept(s, s');
    hide Baton, HasReader;
    assert WellFormed(s');
  }

  /**
   * A request in flight that will reclaim a parked baton has no deadline; in a regular run every parked baton has one.
   */
  lemma CarriersHaveNoDeadline(s: State)
    requires Inv(s)
    ensures forall l :: l in s.parked && l in s.sent ==> s.sent[l].deadline == 0
    ensures forall l :: l in s.parked && s.regular ==> l in s.sent
  {
    forall l | l in s.parked ensures if l in s.sent then s.sent[l].deadline == 0 else !s.regular {
      assert Baton(s, s.parked[l].inst) && At(s, s.parked[l].inst, Parked(l));
    }
  }

  lemma DropKeeps(s: State, r: Request, s': State)
    requires Inv(s) && Drop(s, r, s')
    ensures Inv(s')
  {
    CarriersHaveNoDeadline(s);
    forall i | 0 <= i < |s'.insts| ensures Baton(s', i) { Elsewhere(s, s', i); }
    ReadersKept(s, s');
    hide Baton, HasReader;
    assert WellFormed(s');
  }

  // ----- steps that start a task -----

  lemma EnqueueBaton(s: State, e: nat, flow: Flow, collector: bool, child: Child, s': State)
    requires Inv(s) && Enqueue(s, e, flow, collector, child, s') && s.insts[e].valid && child != Child(true)
    ensures Baton(s', e)
  {
    assert Baton(s, e);
    OneMoreTask(s, s', e);
    hide Reserved, HasReader;
    forall p ensures At(s', e, p) <==> At(s, e, p) {}
    var p :| At(s, e, p);
    assert At(s', e, p);
    forall q | At(s', e, q) ensures Index(s', q) == Index(s, q) <= Next(s.insts[e]) {
      assert At(s, e, q);
    }
  }

  lemma EnqueueWellFormed(s: State, e: nat, flow: Flow, collector: bool, child: Child, s': State)
    requires WellFormed(s) && Enqueue(s, e, flow, collector, child, s') && !flow.Released?
             && (flow.Deactivate? <==> collector)
    requires child != Child(true) && (child.Child? ==> !collector) && flow != Nonexclusive
    ensures WellFormed(s')
  {
    ReadersKept(s, s');
    assert HasReader(s', e, Next(s.insts[e])) by { assert Reads(s', |s.tasks|, e, Next(s.insts[e])); }
    hide HasReader;
  }

  lemma EnqueueKeeps(s: State, e: nat, flow: Flow, collector: bool, child: Child, s': State)
    requires Inv(s) && Enqueue(s, e, flow, collector, child, s') && s.insts[e].valid
    requires !flow.Released? && flow != Nonexclusive && (flow.Deactivate? <==> collector)
    requires child != Child(true) && (child.Child? ==> !collector)
    ensures Inv(s')
  {
    EnqueueBaton(s, e, flow, collector, child, s');
    forall i | 0 <= i < |s'.insts| ensures Baton(s', i) {
      if i != e { Elsewhere(s, s', i); }
    }
    EnqueueWellFormed(s, e, flow, collector, child, s');
    hide Baton, WellFormed;
  }

  lemma OpenedWellFormed(s: State)
    requires WellFormed(s) && s.accepting.Some?
    ensures WellFormed(Opened(s))
  {
    ReadersKept(s, Opened(s));
    hide HasReader;
  }

  /** An instance that nobody knows yet, with its first baton in its first channel. */
  lemma NewBaton(s: State, e: nat)
    requires e < |s.insts| && s.insts[e].chans == [Full] && s.insts[e].valid
    requires s.regular ==> s.insts[e].active == Released
    requires forall t :: 0 <= t < |s.tasks| ==> s.tasks[t].inst != e
    requires forall l :: l in s.parked ==> s.parked[l].inst != e
    ensures Baton(s, e)
  {
    assert At(s, e, InChannel(0));
  }

  lemma OpenedKeeps(s: State)
    requires Inv(s) && s.accepting.Some? && (s.accepting.value.request.child && s.regular ==> Reused(s))
    ensures Inv(Opened(s)) && Reused(Opened(s))
  {
    if !Reused(s) {
      var s' := Opened(s);
      var e := |s.insts|;
      assert Baton(s', e) by { NewBaton(s', e); }
      forall i | 0 <= i < |s'.insts| ensures Baton(s', i) {
        if i != e { Elsewhere(s, s', i); }
      }
      OpenedWellFormed(s);
      hide Baton, WellFormed;
    }
  }

  /** In a regular run the lock id of a request that goes through the queue is not parked. */
  lemma TakenKeeps(s: State)
    requires Inv(s) && s.accepting.Some? && (s.accepting.value.request.lock in s.parked ==> !s.regular)
    ensures Inv(Taken(s))
  {
    var s' := Taken(s);
    forall i | 0 <= i < |s'.insts| ensures Baton(s', i) { Elsewhere(s, s', i); }
    ReadersKept(s, s');
    hide Baton, HasReader;
    assert WellFormed(s');
  }

  /** A parked baton waits for a request of the flow that owns the instance, and that instance is the one found. */
  lemma ParkedForOwner(s: State)
    requires Inv(s) && Reused(s)
    ensures var r, e := s.accepting.value.request, s.accepting.value.found.value;
            r.lock in s.parked ==> s.parked[r.lock].inst == e && r.deadline == 0
                                   && (s.regular ==> s.insts[e].active == r.flow)
  {
    var r := s.accepting.value.request;
    if r.lock in s.parked {
      var i := s.parked[r.lock].inst;
      assert Baton(s, i) && At(s, i, Parked(r.lock));
    }
  }

  lemma ReclaimBaton(s: State, e: nat, s': State)
    requires Inv(s) && Reused(s) && e == s.accepting.value.found.value && Bypass(s, e, s')
    requires s.accepting.value.request.lock in s.parked
    ensures Baton(s', e)
  {
    ParkedForOwner(s);
    var lock, t := s.accepting.value.request.lock, |s.tasks|;
    assert Baton(s, e) && At(s, e, Parked(lock));
    assert At(s', e, Held(t));
    forall q | At(s', e, q) ensures q == Held(t) {
      if !(q == Held(t)) { assert At(s, e, q); }
    }
  }

  lemma ReclaimWellFormed(s: State, e: nat, s': State)
    requires WellFormed(s) && Recalled(s) && Bypass(s, e, s') && e < |s.insts|
    requires s.accepting.value.request.lock in s.parked && s.parked[s.accepting.value.request.lock].inst == e
    ensures WellFormed(s')
  {
    ReadersKept(s, s');
    hide HasReader;
  }

  lemma ReclaimKeeps(s: State, e: nat, s': State)
    requires Inv(s) && Reused(s) && e == s.accepting.value.found.value && Bypass(s, e, s')
    requires s.accepting.value.request.lock in s.parked
    ensures Inv(s')
  {
    ParkedForOwner(s);
    ReclaimBaton(s, e, s');
    forall i | 0 <= i < |s'.insts| ensures Baton(s', i) {
      if i != e { Elsewhere(s, s', i); }
    }
    ReclaimWellFormed(s, e, s');
    hide Baton, WellFormed;
  }

  lemma BesideBaton(s: State, e: nat, s': State)
    requires Inv(s) && Beside(s, e, s') && e < |s.insts|
    requires s.accepting.value.request.lock in s.parked || s.accepting.value.request.child ==> !s.regular
    ensures Baton(s', e)
  {
    assert Baton(s, e);
    OneMoreTask(s, s', e);
    hide Reserved, HasReader;
    forall p ensures At(s', e, p) <==> At(s, e, p) {}
    var p :| At(s, e, p);
    assert At(s', e, p);
    forall q | At(s', e, q) ensures Index(s', q) == Index(s, q) {}
  }

  lemma BesideWellFormed(s: State, e: nat, s': State)
    requires WellFormed(s) && Recalled(s) && Beside(s, e, s') && e < |s.insts|
    requires s.accepting.value.request.child ==> !s.regular
    ensures WellFormed(s')
  {
    ReadersKept(s, s');
    hide HasReader;
  }

  lemma BesideKeeps(s: State, e: nat, s': State)
    requires Inv(s) && Beside(s, e, s') && e < |s.insts|
    requires s.accepting.value.request.lock in s.parked || s.accepting.value.request.child ==> !s.regular
    ensures Inv(s')
  {
    BesideBaton(s, e, s');
    forall i | 0 <= i < |s'.insts| ensures Baton(s', i) {
      if i != e { Elsewhere(s, s', i); }
    }
    BesideWellFormed(s, e, s');
    hide Baton, WellFormed;
  }

  /** The request as it would be if it did not wait for a child. */
  function Childless(s: State): State
    requires s.accepting.Some?
  {
    s.(accepting := Some(s.accepting.value.(request := s.accepting.value.request.(child := false))))
  }

  lemma ChildlessKeeps(s: State)
    requires Inv(s) && s.accepting.Some? && s.accepting.value.request.child
    ensures Inv(Childless(s))
  {
    var s' := Childless(s);
    forall i | 0 <= i < |s'.insts| ensures Baton(s', i) { Elsewhere(s, s', i); }
    ReadersKept(s, s');
    hide Baton, HasReader;
    assert WellFormed(s');
  }

  /** A queued task at the head of a new instance turns out to be a retry that waits for a child. */
  lemma OwnsFromTheStart(s: State, t: nat, e: nat, s': State)
    requires Inv(s) && TaskAt(s, t) && s.tasks[t].inst == e && s.tasks[t].before == Some(0) && s.tasks[t].stage.Queued?
    requires At(s, e, InChannel(0)) && s.tasks[t].child == Child(false)
    requires s' == s.(tasks := s.tasks[t := s.tasks[t].(child := Child(true))],
                      insts := s.insts[e := s.insts[e].(active := s.tasks[t].flow)])
    ensures Inv(s')
  {
    assert Baton(s, e) && WellFormedTask(s, s.tasks[t]);
    forall p ensures At(s', e, p) <==> At(s, e, p) {}
    assert At(s', e, InChannel(0)) && Reads(s', t, e, 0);
    forall q | At(s', e, q) ensures Index(s', q) == Index(s, q) {}
    forall u | Reads(s', u, e, 0) ensures u == t { assert Reads(s, u, e, 0) && Reads(s, t, e, 0); }
    assert Baton(s', e);
    hide Baton;
    MovesKeeps(s, t, s'.tasks[t], InstOf(s', t), s');
  }

  /** A request without a child that finds no instance. */
  lemma OpensPlainly(s: State, u: State)
    requires Inv(s) && s.accepting.Some? && !s.accepting.value.request.child && !Reused(s)
             && s.accepting.value.request.lock == ""
    requires var r := s.accepting.value.request;
             && !r.flow.Released? && !r.flow.Deactivate? && r.flow != Nonexclusive
             && u == s.(tasks := s.tasks + [Task(|s.insts|, Some(0), Some(1), r.flow, true, false, Child(false),
                                                 Queued)],
                        insts := s.insts + [Instance(r.key, Released, [Full, Empty], true)],
                        table := s.table[r.key := |s.insts|], accepting := None)
    ensures Inv(u) && At(u, |s.insts|, InChannel(0))
  {
    var r, e := s.accepting.value.request, |s.insts|;
    var m := Opened(s);
    OpenedKeeps(s);
    assert "" !in m.parked;
    TakenKeeps(m);
    assert [Full] + [Empty] == [Full, Empty];
    assert u.insts == Taken(m).insts[e := Instance(r.key, Released, [Full, Empty], true)];
    assert Enqueue(Taken(m), e, r.flow, false, Child(false), u);
    hide Inv;
    EnqueueKeeps(Taken(m), e, r.flow, false, Child(false), u);
  }

  /** A retry that waits for a child and finds no instance. */
  lemma OpensKeeps(s: State, s': State)
    requires Inv(s) && Schedule(s, s') && s.accepting.value.request.child && !Reused(s)
             && s.accepting.value.request.flow != Nonexclusive
    ensures Inv(s')
  {
    var r, e := s.accepting.value.request, |s.insts|;
    assert r.lock == "" && !r.flow.Released? && !r.flow.Deactivate?;
    ChildlessKeeps(s);
    var u := s.(tasks := s.tasks + [Task(e, Some(0), Some(1), r.flow, true, false, Child(false), Queued)],
                insts := s.insts + [Instance(r.key, Released, [Full, Empty], true)],
                table := s.table[r.key := e], accepting := None);
    assert [Full] + [Empty] == [Full, Empty];
    assert s'.tasks == u.tasks[|s.tasks| := u.tasks[|s.tasks|].(child := Child(true))];
    assert s'.insts == u.insts[e := u.insts[e].(active := r.flow)];
    hide Inv;
    OpensPlainly(Childless(s), u);
    OwnsFromTheStart(u, |s.tasks|, e, s');
  }

  /** Less is known of an irregular run. */
  lemma LessIsKnown(s: State, s': State)
    requires Inv(s) && (s' == s || s' == s.(regular := false))
    ensures Inv(s')
  {
    forall i | 0 <= i < |s'.insts| ensures Baton(s', i) { Elsewhere(s, s', i); }
    ReadersKept(s, s');
    forall t | 0 <= t < |s'.tasks| ensures WellFormedTask(s', s'.tasks[t]) { assert WellFormedTask(s, s.tasks[t]); }
    hide Baton, HasReader, WellFormedTask;
    assert WellFormed(s');
  }

  lemma ScheduleKeeps(s: State, s': State)
    requires Inv(s) && Schedule(s, s')
    ensures Inv(s')
  {
    var s1 := s.(regular := s.regular && RegularAt(s));
    LessIsKnown(s, s1);
    if s.accepting.value.request.child && !Reused(s) && s.accepting.value.request.flow != Nonexclusive {
      assert Schedule(s1, s');
      OpensKeeps(s1, s');
      return;
    }
    OpenedKeeps(s1);
    var m := Opened(s1);
    var r, e := m.accepting.value.request, m.accepting.value.found.value;
    ParkedForOwner(m);
    hide Inv;
    if Reused(s) && m.insts[e].active == r.flow {
      if r.lock in m.parked { ReclaimKeeps(m, e, s'); } else { BesideKeeps(m, e, s'); }
    } else if r.flow == Nonexclusive {
      BesideKeeps(m, e, s');
    } else {
      TakenKeeps(m);
      EnqueueKeeps(Taken(m), e, r.flow, false, if r.child then Child(false) else NoChild, s');
    }
  }

  lemma StepKeeps(s: State, step: Step, s': State)
    requires Inv(s) && Takes(s, step, s')
    ensures Inv(s')
  {
    hide Inv;
    match step
    case LoadStep(r) => LoadKeeps(s, r, s');
    case DropStep(r) => DropKeeps(s, r, s');
    case ScheduleStep => ScheduleKeeps(s, s');
    case AcquireStep(t) => AcquireKeeps(s, t, s');
    case ResumeStep(t) => ResumeKeeps(s, t, s');
    case TimeoutStep(t) => TimeoutKeeps(s, t, s');
    case PassOnStep(t) => PassOnKeeps(s, t, s');
    case ClearFlowStep(t) => ClearFlowKeeps(s, t, s');
    case ReleaseStep(t) => ReleaseKeeps(s, t, s');
    case DeferStep(t, lock, deadline) => DeferKeeps(s, t, lock, deadline, s');
    case CollectStep(i, run) => EnqueueKeeps(s, i, Deactivate(run), true, NoChild, s');
    case RetireStep(t) => RetireKeeps(s, t, s');
  }

  lemma {:induction false} RunInv(ss: seq<State>, steps: seq<Step>, k: nat)
    requires Run(ss, steps) && k < |ss|
    ensures Inv(ss[k]) && (Regular(ss, steps) ==> ss[k].regular)
  {
    if k == 0 {
    } else {
      RunInv(ss, steps, k - 1);
      assert Takes(ss[k - 1], steps[k - 1], ss[k - 1 + 1]);
      StepKeeps(ss[k - 1], steps[k - 1], ss[k]);
    }
  }
}
