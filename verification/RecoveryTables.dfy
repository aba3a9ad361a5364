/** The tables recover fills while it reads the topic, and what each of them means. */
module RecoveryTables {
  import opened Messages
  import opened RecoverySpec

  /** Indexing a Go map of integers. */
  function At(m: map<string, int>, k: string): int { if k in m then m[k] else 0 }

  function Init(es: seq<Entry>): seq<Entry>
    requires |es| > 0
  {
    es[..|es| - 1]
  }

  function Last(es: seq<Entry>): Entry
    requires |es| > 0
  {
    es[|es| - 1]
  }

  function MaxTable(es: seq<Entry>): map<string, int> {
    if |es| == 0 then map[]
    else
      var t, m := MaxTable(Init(es)), Last(es).msg;
      if m.IsRequest() && At(t, m.id) <= m.sequence then t[m.id := m.sequence] else t
  }

  function LatestTable(es: seq<Entry>): map<string, Message> {
    if |es| == 0 then map[]
    else
      var t, m := LatestTable(Init(es)), Last(es).msg;
      if m.IsRequest() && At(MaxTable(Init(es)), m.id) <= m.sequence then t[m.id := m] else t
  }

  function ChainTable(es: seq<Entry>): map<string, set<int>> {
    if |es| == 0 then map[]
    else
      var t, m := ChainTable(Init(es)), Last(es).msg;
      if m.IsLocked() then t[m.id := (if m.id in t then t[m.id] else {}) + {m.sequence}] else t
  }

  function CallTable(es: seq<Entry>): map<string, seq<string>> {
    if |es| == 0 then map[]
    else
      var t, m := CallTable(Init(es)), Last(es).msg;
      if m.Call? then t[m.parent := (if m.parent in t then t[m.parent] else []) + [m.id]] else t
  }

  /** Messages of dead partitions other than 0, in reading order. */
  function OrphanList(es: seq<Entry>, live: set<nat>): seq<Message> {
    if |es| == 0 then []
    else
      var t, e := OrphanList(Init(es), live), Last(es);
      if e.partition !in live && e.partition != 0 then t + [e.msg] else t
  }

  /** Requests of partition 0, in reading order. */
  function Orphan0List(es: seq<Entry>, live: set<nat>): seq<Message> {
    if |es| == 0 then []
    else
      var t, e := Orphan0List(Init(es), live), Last(es);
      if e.partition !in live && e.partition == 0 && e.msg.IsRequest() then t + [e.msg] else t
  }

  function ResponseIds(es: seq<Entry>): set<string> {
    if |es| == 0 then {}
    else
      var t, e := ResponseIds(Init(es)), Last(es);
      if !e.msg.IsRequest() then t + {e.msg.id} else t
  }

  function Response0Ids(es: seq<Entry>): set<string> {
    if |es| == 0 then {}
    else
      var t, e := Response0Ids(Init(es)), Last(es);
      if !e.msg.IsRequest() && e.partition == 0 then t + {e.msg.id} else t
  }

  /** Ids requested in live partitions or in partition 0. */
  function RequestIds(es: seq<Entry>, live: set<nat>): set<string> {
    if |es| == 0 then {}
    else
      var t, e := RequestIds(Init(es), live), Last(es);
      if e.msg.IsRequest() && (e.partition in live || e.partition == 0) then t + {e.msg.id} else t
  }

  function Request0Table(es: seq<Entry>, live: set<nat>): map<string, int> {
    if |es| == 0 then map[]
    else
      var t, e := Request0Table(Init(es), live), Last(es);
      if e.partition !in live && e.partition == 0 && e.msg.IsRequest() && e.msg.sequence >= At(t, e.msg.id)
      then t[e.msg.id := e.msg.sequence] else t
  }

  function HandledTable(es: seq<Entry>, live: set<nat>): map<string, int> {
    if |es| == 0 then map[]
    else
      var t, e := HandledTable(Init(es), live), Last(es);
      if !e.msg.IsRequest() then t[e.msg.id := COMPLETED]
      else if e.partition in live && e.msg.sequence >= At(t, e.msg.id) then t[e.msg.id := e.msg.sequence]
      else t
  }

  /** The local variables of recover's reading loops. */
  datatype Tables = Tables(
    max: map<string, int>, latest: map<string, Message>, chains: map<string, set<int>>,
    calls: map<string, seq<string>>, orphans: seq<Message>, orphans0: seq<Message>,
    responses: set<string>, responses0: set<string>, requests: set<string>,
    requests0: map<string, int>, handled: map<string, int>)

  /** Their values once the entries es have been read. */
  function TablesOf(es: seq<Entry>, live: set<nat>): Tables {
    Tables(MaxTable(es), LatestTable(es), ChainTable(es), CallTable(es), OrphanList(es, live), Orphan0List(es, live),
           ResponseIds(es), Response0Ids(es), RequestIds(es, live), Request0Table(es, live), HandledTable(es, live))
  }

  lemma TablesEmpty(live: set<nat>)
    ensures TablesOf([], live) == Tables(map[], map[], map[], map[], [], [], {}, {}, {}, map[], map[])
  {}

  // ----- what the tables mean -----

  lemma Splits(es: seq<Entry>)
    requires |es| > 0
    ensures forall e :: e in es <==> e in Init(es) || e == Last(es)
  {
    assert es == Init(es) + [Last(es)];
  }

  lemma {:induction false} MaxMeaning(es: seq<Entry>, id: string)
    requires WellFormed(es)
    ensures id in MaxTable(es) <==> Requested(es, id)
    ensures id in MaxTable(es) ==> Highest(es, id, MaxTable(es)[id])
    ensures id in LatestTable(es) <==> Requested(es, id)
    ensures id in LatestTable(es) ==> IsLatest(es, id, LatestTable(es)[id])
  {
    if |es| > 0 {
      Splits(es);
      MaxMeaning(Init(es), id);
      var e := Last(es);
      if Requests(e, id) {
        assert Requested(es, id);
        MaxStep(es, id);
      } else {
        MaxSkip(es, id);
      }
    }
  }

  lemma MaxSkip(es: seq<Entry>, id: string)
    requires |es| > 0 && !Requests(Last(es), id)
    ensures Requested(es, id) <==> Requested(Init(es), id)
    ensures forall s :: Highest(Init(es), id, s) ==> Highest(es, id, s)
    ensures forall m :: IsLatest(Init(es), id, m) ==> IsLatest(es, id, m)
  {
    Splits(es);
    forall s | Highest(Init(es), id, s) ensures Highest(es, id, s) { HighestSkips(es, id, s); }
    hide Highest, LatestAt;
    forall m | IsLatest(Init(es), id, m) ensures IsLatest(es, id, m) {
      var i :| LatestAt(Init(es), id, i) && Init(es)[i].msg == m;
      LatestSkips(es, id, i);
    }
  }

  lemma HighestSkips(es: seq<Entry>, id: string, s: int)
    requires |es| > 0 && !Requests(Last(es), id) && Highest(Init(es), id, s)
    ensures Highest(es, id, s)
  {
    Splits(es);
  }

  lemma LatestSkips(es: seq<Entry>, id: string, i: int)
    requires |es| > 0 && !Requests(Last(es), id) && LatestAt(Init(es), id, i)
    ensures LatestAt(es, id, i) && es[i] == Init(es)[i]
  {
    assert forall j :: 0 <= j < |es| - 1 ==> es[j] == Init(es)[j];
  }

  /** An older latest request stays the latest when the new one has a lower sequence number. */
  lemma LatestKept(es: seq<Entry>, id: string, i: int)
    requires |es| > 0 && LatestAt(Init(es), id, i)
    requires Requests(Last(es), id) && Last(es).msg.sequence < es[i].msg.sequence
    ensures LatestAt(es, id, i)
  {
    assert forall j :: 0 <= j < |es| - 1 ==> es[j] == Init(es)[j];
  }

  lemma LatestTaken(es: seq<Entry>, id: string)
    requires |es| > 0 && Requests(Last(es), id)
    requires forall e :: e in Init(es) && Requests(e, id) ==> e.msg.sequence <= Last(es).msg.sequence
    ensures LatestAt(es, id, |es| - 1) && Highest(es, id, Last(es).msg.sequence)
  {
    Splits(es);
    assert Last(es) in es;
    forall j | 0 <= j < |es| && Requests(es[j], id)
      ensures es[j].msg.sequence <= Last(es).msg.sequence
    {
      assert es[j] in es;
    }
  }

  lemma MaxStep(es: seq<Entry>, id: string)
    requires WellFormed(es) && |es| > 0 && Requests(Last(es), id)
    requires id in MaxTable(Init(es)) <==> Requested(Init(es), id)
    requires id in MaxTable(Init(es)) ==> Highest(Init(es), id, MaxTable(Init(es))[id])
    requires id in LatestTable(Init(es)) <==> Requested(Init(es), id)
    requires id in LatestTable(Init(es)) ==> IsLatest(Init(es), id, LatestTable(Init(es))[id])
    ensures id in MaxTable(es) && Highest(es, id, MaxTable(es)[id])
    ensures id in LatestTable(es) && IsLatest(es, id, LatestTable(es)[id])
  {
    var e := Last(es);
    assert e in es;
    if At(MaxTable(Init(es)), id) <= e.msg.sequence {
      LatestTaken(es, id);
    } else {
      var m := LatestTable(Init(es))[id];
      LatestIsHighest(Init(es), id, m);
      HighestUnique(Init(es), id, m.sequence, MaxTable(Init(es))[id]);
      var i :| LatestAt(Init(es), id, i) && Init(es)[i].msg == m;
      LatestKept(es, id, i);
      LatestIsHighest(es, id, m);
    }
  }

  lemma {:induction false} ChainMeaning(es: seq<Entry>, id: string, s: int)
    ensures id in ChainTable(es) && s in ChainTable(es)[id] <==> LockedAt(es, id, s)
  {
    if |es| > 0 {
      Splits(es);
      ChainMeaning(Init(es), id, s);
    }
  }

  lemma {:induction false} OrphanMeaning(es: seq<Entry>, live: set<nat>, m: Message)
    ensures m in OrphanList(es, live) <==> exists e :: e in es && e.partition !in live && e.partition != 0 && e.msg == m
    ensures m in Orphan0List(es, live) <==>
            exists e :: e in es && e.partition !in live && e.partition == 0 && e.msg == m && m.IsRequest()
  {
    if |es| > 0 {
      Splits(es);
      OrphanMeaning(Init(es), live, m);
      assert Last(es) in es;
    }
  }

  lemma {:induction false} Request0Meaning(es: seq<Entry>, live: set<nat>, id: string)
    requires WellFormed(es) && 0 !in live
    ensures var t := Request0Table(es, live);
            && (id in t <==> exists e :: e in es && e.partition == 0 && Requests(e, id))
            && (id in t ==> exists e :: e in es && e.partition == 0 && Requests(e, id) && e.msg.sequence == t[id])
            && (forall e :: e in es && e.partition == 0 && Requests(e, id) ==> e.msg.sequence <= t[id])
  {
    if |es| > 0 {
      Splits(es);
      Request0Meaning(Init(es), live, id);
      assert Last(es) in es;
    }
  }

  lemma {:induction false} HandledMeaning(es: seq<Entry>, live: set<nat>, id: string)
    requires WellFormed(es)
    ensures var t := HandledTable(es, live);
            && (Completed(es, id) ==> id in t && t[id] == COMPLETED)
            && (!Completed(es, id) ==>
                  && (id in t <==> exists e :: e in es && e.partition in live && Requests(e, id))
                  && (id in t ==> exists e :: e in es && e.partition in live && Requests(e, id)
                                              && e.msg.sequence == t[id])
                  && (forall e :: e in es && e.partition in live && Requests(e, id) ==> e.msg.sequence <= t[id]))
  {
    if |es| > 0 {
      Splits(es);
      HandledMeaning(Init(es), live, id);
      assert Last(es) in es;
      assert Completed(es, id) <==> Completed(Init(es), id) || Answers(Last(es), id);
    }
  }

  lemma {:induction false} ResponseMeaning(es: seq<Entry>, id: string)
    ensures id in ResponseIds(es) <==> Completed(es, id)
  {
    if |es| > 0 {
      Splits(es);
      ResponseMeaning(Init(es), id);
      assert Last(es) in es;
    }
  }

  lemma {:induction false} IdsMeaning(es: seq<Entry>, live: set<nat>, id: string)
    ensures id in Response0Ids(es) <==> exists e :: e in es && e.partition == 0 && Answers(e, id)
    ensures id in RequestIds(es, live) <==>
            exists e :: e in es && (e.partition in live || e.partition == 0) && Requests(e, id)
  {
    if |es| > 0 {
      Splits(es);
      IdsMeaning(Init(es), live, id);
      assert Last(es) in es;
    }
  }

  // ----- where a chain restarts -----

  /** The inner loop of recover: the first number at or below i that is not locked, or default. */
  function RunDown(locked: set<int>, i: int, default: int): int
    decreases i + 1
  {
    if i < 0 then default else if i !in locked then i else RunDown(locked, i - 1, default)
  }

  function MinTable(es: seq<Entry>): map<string, int> {
    var t, chains := MaxTable(es), ChainTable(es);
    map id | id in t :: if id in chains then RunDown(chains[id], t[id], t[id]) else t[id]
  }

  lemma {:induction false} RunDownMeaning(locked: set<int>, i: int, default: int)
    requires i >= -1
    ensures var r := RunDown(locked, i, default);
            || (0 <= r <= i && r !in locked && forall s :: r < s <= i ==> s in locked)
            || (r == default && forall s :: 0 <= s <= i ==> s in locked)
    decreases i + 1
  {
    if i >= 0 && i in locked {
      RunDownMeaning(locked, i - 1, default);
    }
  }

  lemma MinMeaning(es: seq<Entry>, id: string)
    requires WellFormed(es)
    ensures id in MinTable(es) <==> Requested(es, id)
    ensures id in MinTable(es) ==> ChainStart(es, id, MinTable(es)[id])
  {
    MaxMeaning(es, id);
    if id in MaxTable(es) {
      var top := MaxTable(es)[id];
      forall s ensures id in ChainTable(es) && s in ChainTable(es)[id] <==> LockedAt(es, id, s) {
        ChainMeaning(es, id, s);
      }
      if id in ChainTable(es) {
        RunDownMeaning(ChainTable(es)[id], top, top);
      }
      assert RunStart(es, id, MinTable(es)[id], top);
    }
  }

  // ----- the callee a retry waits for -----

  function Callees(es: seq<Entry>, id: string): seq<string> {
    if id in CallTable(es) then CallTable(es)[id] else []
  }

  /** The loop over nested calls: the last callee without a response wins. */
  function LastPending(callees: seq<string>, responses: set<string>): string {
    if |callees| == 0 then ""
    else
      var c := callees[|callees| - 1];
      if c !in responses then c else LastPending(callees[..|callees| - 1], responses)
  }

  lemma CalleesStep(es: seq<Entry>, id: string)
    requires |es| > 0
    ensures Callees(es, id) == Callees(Init(es), id) + (if CallsFrom(Last(es), id) then [Last(es).msg.id] else [])
  {}

  /** c is what WaitsFor asks for, over the first n entries only. */
  ghost predicate WaitsAmong(es: seq<Entry>, n: int, id: string, c: string)
    requires 0 <= n <= |es|
  {
    if c == "" then forall j :: 0 <= j < n && CallsFrom(es[j], id) ==> Completed(es, es[j].msg.id)
    else exists i ::
        && 0 <= i < n && CallsFrom(es[i], id) && es[i].msg.id == c && !Completed(es, c)
        && forall j :: i < j < n && CallsFrom(es[j], id) ==> Completed(es, es[j].msg.id)
  }

  lemma LastPendingStep(callees: seq<string>, c: string, responses: set<string>)
    ensures LastPending(callees + [c], responses) == if c !in responses then c else LastPending(callees, responses)
  {
    assert (callees + [c])[..|callees|] == callees;
  }

  /** The last callee decides, unless it is complete. */
  lemma WaitsStep(es: seq<Entry>, n: nat, id: string, c: string)
    requires n < |es| && WaitsAmong(es, n, id, c)
    ensures CallsFrom(es[n], id) && !Completed(es, es[n].msg.id) && es[n].msg.id != "" ==>
            WaitsAmong(es, n + 1, id, es[n].msg.id)
    ensures !CallsFrom(es[n], id) || Completed(es, es[n].msg.id) ==> WaitsAmong(es, n + 1, id, c)
  {
    hide Completed;
  }

  lemma PendingStep(es: seq<Entry>, n: nat, id: string)
    requires WellFormed(es) && n < |es| && WaitsAmong(es, n, id, LastPending(Callees(es[..n], id), ResponseIds(es)))
    ensures WaitsAmong(es, n + 1, id, LastPending(Callees(es[..n + 1], id), ResponseIds(es)))
  {
    var calls, c := Callees(es[..n], id), es[n].msg.id;
    assert Init(es[..n + 1]) == es[..n] && Last(es[..n + 1]) == es[n];
    CalleesStep(es[..n + 1], id);
    assert es[n] in es && (CallsFrom(es[n], id) ==> c != "");
    ResponseMeaning(es, c);
    hide WaitsAmong, LastPending, Callees, Completed;
    WaitsStep(es, n, id, LastPending(calls, ResponseIds(es)));
    LastPendingStep(calls, c, ResponseIds(es));
    assert calls + [] == calls;
  }

  lemma {:induction false} PendingMeaning(es: seq<Entry>, n: nat, id: string)
    requires WellFormed(es) && n <= |es|
    ensures WaitsAmong(es, n, id, LastPending(Callees(es[..n], id), ResponseIds(es)))
  {
    if n > 0 {
      PendingMeaning(es, n - 1, id);
      PendingStep(es, n - 1, id);
    }
  }

  lemma ChildMeaning(es: seq<Entry>, id: string)
    requires WellFormed(es)
    ensures WaitsFor(es, id, LastPending(Callees(es, id), ResponseIds(es)))
  {
    assert es[..|es|] == es;
    PendingMeaning(es, |es|, id);
  }

  // ----- the decisions -----

  /** The test recover applies to an orphaned request before it looks at seen. */
  predicate Chosen(es: seq<Entry>, live: set<nat>, m: Message) {
    && m.IsRequest()
    && (m.id !in HandledTable(es, live) || HandledTable(es, live)[m.id] < At(MaxTable(es), m.id))
    && m.sequence == At(MinTable(es), m.id)
  }

  function Seen(es: seq<Entry>, live: set<nat>, os: seq<Message>): set<string> {
    set m | m in os && Chosen(es, live, m) :: m.id
  }

  /** The request recover builds for id; without an entry in the table the orphan itself is sent. */
  function RetryOf(es: seq<Entry>, m: Message): Message {
    if m.id in LatestTable(es) && LatestTable(es)[m.id].IsRequest() then
      Retry(LatestTable(es)[m.id], At(MinTable(es), m.id), LastPending(Callees(es, m.id), ResponseIds(es)))
    else m
  }

  function DropAt0(es: seq<Entry>, live: set<nat>, id: string): bool {
    id in Request0Table(es, live) && Request0Table(es, live)[id] >= At(MaxTable(es), id)
  }

  function ActionsFor(es: seq<Entry>, live: set<nat>, os: seq<Message>): seq<Action> {
    if |os| == 0 then []
    else
      var init, m := os[..|os| - 1], os[|os| - 1];
      var done := ActionsFor(es, live, init);
      if m.IsRequest() then
        if Chosen(es, live, m) && m.id !in Seen(es, live, init)
        then done + [Resend(RetryOf(es, m), DropAt0(es, live, m.id))]
        else done
      else if m.id in RequestIds(es, live) && m.id !in Response0Ids(es)
      then done + [Confirm(m.id, m.deadline)]
      else done
  }

  function Orphans(es: seq<Entry>, live: set<nat>): seq<Message> {
    OrphanList(es, live) + Orphan0List(es, live)
  }

  lemma OrphansMeaning(es: seq<Entry>, live: set<nat>, m: Message)
    requires 0 !in live
    ensures m in Orphans(es, live) && m.IsRequest() <==>
            exists e :: e in es && e.partition !in live && e.msg == m && m.IsRequest()
    ensures m in Orphans(es, live) && !m.IsRequest() <==>
            exists e :: e in es && e.partition !in live && e.partition != 0 && e.msg == m && !m.IsRequest()
  {
    OrphanMeaning(es, live, m);
  }

  /** The table lookups of the chosen test mean: not completed, not held live, at the chain start. */
  lemma ChosenMeaning(es: seq<Entry>, live: set<nat>, m: Message)
    requires WellFormed(es) && m.IsRequest() && Requested(es, m.id)
    ensures Chosen(es, live, m) <==>
            !Completed(es, m.id) && !HeldLive(es, live, m.id) && ChainStart(es, m.id, m.sequence)
  {
    var id := m.id;
    MaxMeaning(es, id);
    MinMeaning(es, id);
    HandledMeaning(es, live, id);
    var top := MaxTable(es)[id];
    assert 0 <= top < COMPLETED;
    assert !Completed(es, id) ==> (id in HandledTable(es, live) && HandledTable(es, live)[id] >= top <==>
           HeldLive(es, live, id)) by {
      if !Completed(es, id) {
        HeldMeaning(es, live, id);
      }
    }
    if ChainStart(es, id, m.sequence) {
      ChainStartUnique(es, id, m.sequence, MinTable(es)[id]);
    }
  }

  lemma HeldMeaning(es: seq<Entry>, live: set<nat>, id: string)
    requires WellFormed(es) && Requested(es, id) && !Completed(es, id)
    ensures id in MaxTable(es)
    ensures id in HandledTable(es, live) && HandledTable(es, live)[id] >= MaxTable(es)[id] <==> HeldLive(es, live, id)
  {
    MaxMeaning(es, id);
    HandledMeaning(es, live, id);
    var top := MaxTable(es)[id];
    if HeldLive(es, live, id) {
      var e :| e in es && e.partition in live && Requests(e, id) && Highest(es, id, e.msg.sequence);
      HighestUnique(es, id, e.msg.sequence, top);
    }
  }

  lemma DropMeaning(es: seq<Entry>, live: set<nat>, id: string)
    requires WellFormed(es) && 0 !in live && Requested(es, id)
    ensures DropAt0(es, live, id) <==> Parked(es, id)
  {
    MaxMeaning(es, id);
    Request0Meaning(es, live, id);
    if Parked(es, id) {
      var e :| e in es && e.partition == 0 && Requests(e, id) && Highest(es, id, e.msg.sequence);
      HighestUnique(es, id, e.msg.sequence, MaxTable(es)[id]);
    }
  }

  lemma RetryMeaning(es: seq<Entry>, m: Message)
    requires WellFormed(es) && Requested(es, m.id)
    ensures RetryOf(es, m).IsRequest() && RetryOf(es, m).id == m.id && IsRetry(es, m.id, RetryOf(es, m))
  {
    MaxMeaning(es, m.id);
    MinMeaning(es, m.id);
    ChildMeaning(es, m.id);
    LatestIsHighest(es, m.id, LatestTable(es)[m.id]);
  }

  // ----- the decisions meet the specification -----

  /** The action resends the retry of an orphan that was chosen. */
  ghost predicate FromOrphan(es: seq<Entry>, live: set<nat>, os: seq<Message>, a: Action) {
    exists m :: m in os && Chosen(es, live, m) && a == Resend(RetryOf(es, m), DropAt0(es, live, m.id))
  }

  lemma FromMoreOrphans(es: seq<Entry>, live: set<nat>, os: seq<Message>, m: Message, a: Action)
    requires FromOrphan(es, live, os, a)
    ensures FromOrphan(es, live, os + [m], a)
  {
    hide Chosen, RetryOf, DropAt0;
    var n :| n in os && Chosen(es, live, n) && a == Resend(RetryOf(es, n), DropAt0(es, live, n.id));
    assert n in os + [m];
  }

  /** What is known of the actions once the orphans os have been visited. */
  ghost predicate Visited(es: seq<Entry>, live: set<nat>, os: seq<Message>, actions: seq<Action>) {
    && (forall i :: 0 <= i < |actions| && actions[i].Resend? ==> FromOrphan(es, live, os, actions[i]))
    && (forall i :: 0 <= i < |actions| && actions[i].Resend? ==>
          actions[i].retry.IsRequest() && actions[i].retry.id in Seen(es, live, os))
    && (forall i, j :: 0 <= i < j < |actions| && actions[i].Resend? && actions[j].Resend? ==>
          actions[i].retry.id != actions[j].retry.id)
    && (forall id :: id in Seen(es, live, os) ==> exists i :: 0 <= i < |actions| && Resends(actions[i], id))
  }

  ghost predicate Confirmed(es: seq<Entry>, live: set<nat>, os: seq<Message>, actions: seq<Action>) {
    && (forall i :: 0 <= i < |actions| && actions[i].Confirm? ==>
          Confirmable(es, live, os, actions[i].id) && EchoesOne(os, actions[i]))
    && (forall id :: Confirmable(es, live, os, id) ==>
          exists i :: 0 <= i < |actions| && actions[i].Confirm? && actions[i].id == id)
  }

  predicate EchoesOne(os: seq<Message>, a: Action) {
    a.Confirm? && exists m :: m in os && !m.IsRequest() && m.id == a.id && m.deadline == a.deadline
  }

  predicate Confirmable(es: seq<Entry>, live: set<nat>, os: seq<Message>, id: string) {
    id in RequestIds(es, live) && id !in Response0Ids(es) && exists m :: m in os && !m.IsRequest() && m.id == id
  }

  lemma SeenStep(es: seq<Entry>, live: set<nat>, os: seq<Message>)
    requires |os| > 0
    ensures var init, m := os[..|os| - 1], os[|os| - 1];
            Seen(es, live, os) == Seen(es, live, init) + (if Chosen(es, live, m) then {m.id} else {})
  {
    assert os == os[..|os| - 1] + [os[|os| - 1]];
  }

  /** A newly chosen orphan extends a visited prefix. */
  lemma VisitedResend(es: seq<Entry>, live: set<nat>, os: seq<Message>, m: Message, actions: seq<Action>)
    requires Visited(es, live, os, actions)
    requires Chosen(es, live, m) && m.id !in Seen(es, live, os)
    requires RetryOf(es, m).IsRequest() && RetryOf(es, m).id == m.id
    ensures Visited(es, live, os + [m], actions + [Resend(RetryOf(es, m), DropAt0(es, live, m.id))])
  {
    var os', a := os + [m], Resend(RetryOf(es, m), DropAt0(es, live, m.id));
    var actions' := actions + [a];
    SeenStep(es, live, os');
    assert os'[..|os'| - 1] == os;
    assert m in os' && FromOrphan(es, live, os', a);
    hide Chosen, RetryOf, DropAt0, Seen, FromOrphan;
    forall i | 0 <= i < |actions'| && actions'[i].Resend? ensures FromOrphan(es, live, os', actions'[i]) {
      if i < |actions| { FromMoreOrphans(es, live, os, m, actions[i]); }
    }
    forall id | id in Seen(es, live, os')
      ensures exists i :: 0 <= i < |actions'| && Resends(actions'[i], id)
    {
      if id == m.id {
        assert Resends(actions'[|actions|], id);
      } else {
        var i :| 0 <= i < |actions| && Resends(actions[i], id);
        assert Resends(actions'[i], id);
      }
    }
  }

  lemma VisitedSkip(es: seq<Entry>, live: set<nat>, os: seq<Message>, m: Message, actions: seq<Action>)
    requires Visited(es, live, os, actions)
    requires !Chosen(es, live, m) || m.id in Seen(es, live, os)
    ensures Visited(es, live, os + [m], actions)
  {
    var os' := os + [m];
    SeenStep(es, live, os');
    assert os'[..|os'| - 1] == os;
    hide FromOrphan;
    forall i | 0 <= i < |actions| && actions[i].Resend? ensures FromOrphan(es, live, os', actions[i]) {
      FromMoreOrphans(es, live, os, m, actions[i]);
    }
  }

  lemma VisitedConfirm(es: seq<Entry>, live: set<nat>, os: seq<Message>, a: Action, actions: seq<Action>)
    requires Visited(es, live, os, actions) && a.Confirm?
    ensures Visited(es, live, os, actions + [a])
  {
    var actions' := actions + [a];
    forall id | id in Seen(es, live, os)
      ensures exists i :: 0 <= i < |actions'| && Resends(actions'[i], id)
    {
      var i :| 0 <= i < |actions| && Resends(actions[i], id);
      assert Resends(actions'[i], id);
    }
  }

  lemma {:induction false} ActionsVisit(es: seq<Entry>, live: set<nat>, os: seq<Message>)
    requires WellFormed(es)
    requires forall m :: m in os && m.IsRequest() ==> Requested(es, m.id)
    ensures Visited(es, live, os, ActionsFor(es, live, os))
  {
    if |os| > 0 {
      var init, m := os[..|os| - 1], os[|os| - 1];
      var done := ActionsFor(es, live, init);
      assert os == init + [m];
      assert m in os;
      ActionsVisit(es, live, init);
      if Chosen(es, live, m) && m.id !in Seen(es, live, init) {
        RetryMeaning(es, m);
        VisitedResend(es, live, init, m, done);
      } else {
        VisitedSkip(es, live, init, m, done);
        if !m.IsRequest() {
          VisitedConfirm(es, live, os, Confirm(m.id, m.deadline), done);
        }
      }
    }
  }

  lemma {:induction false} ActionsConfirm(es: seq<Entry>, live: set<nat>, os: seq<Message>)
    ensures Confirmed(es, live, os, ActionsFor(es, live, os))
  {
    if |os| > 0 {
      var init, m := os[..|os| - 1], os[|os| - 1];
      var was, now := ActionsFor(es, live, init), ActionsFor(es, live, os);
      ActionsConfirm(es, live, init);
      assert os == init + [m];
      forall i | 0 <= i < |now| && now[i].Confirm?
        ensures Confirmable(es, live, os, now[i].id) && EchoesOne(os, now[i])
      {
        if i < |was| {
          assert now[i] == was[i] && EchoesOne(init, was[i]);
        }
      }
      forall id | Confirmable(es, live, os, id)
        ensures exists i :: 0 <= i < |now| && now[i].Confirm? && now[i].id == id
      {
        if Confirmable(es, live, init, id) {
          var i :| 0 <= i < |was| && was[i].Confirm? && was[i].id == id;
          assert now[i] == was[i];
        } else {
          assert now[|now| - 1].Confirm? && now[|now| - 1].id == id;
        }
      }
    }
  }

  lemma ConfirmMeaning(es: seq<Entry>, live: set<nat>, id: string)
    requires 0 !in live
    ensures Confirmable(es, live, Orphans(es, live), id) <==> MustConfirm(es, live, id)
  {
    IdsMeaning(es, live, id);
    if Confirmable(es, live, Orphans(es, live), id) {
      var m :| m in Orphans(es, live) && !m.IsRequest() && m.id == id;
      OrphansMeaning(es, live, m);
    }
    if MustConfirm(es, live, id) {
      var e :| e in es && e.partition !in live && e.partition != 0 && Answers(e, id);
      OrphansMeaning(es, live, e.msg);
    }
  }

  lemma EchoMeaning(es: seq<Entry>, live: set<nat>, a: Action)
    requires 0 !in live && EchoesOne(Orphans(es, live), a)
    ensures Echoes(es, live, a)
  {
    var m :| m in Orphans(es, live) && !m.IsRequest() && m.id == a.id && m.deadline == a.deadline;
    OrphansMeaning(es, live, m);
  }

  lemma RetryChosen(es: seq<Entry>, live: set<nat>, id: string)
    requires WellFormed(es) && 0 !in live
    ensures id in Seen(es, live, Orphans(es, live)) <==> MustRetry(es, live, id)
  {
    if id in Seen(es, live, Orphans(es, live)) {
      var m :| m in Orphans(es, live) && Chosen(es, live, m) && m.id == id;
      OrphansMeaning(es, live, m);
      var e :| e in es && e.partition !in live && e.msg == m;
      assert Requests(e, id);
      ChosenMeaning(es, live, m);
    }
    if MustRetry(es, live, id) {
      var e :| e in es && e.partition !in live && Requests(e, id) && ChainStart(es, id, e.msg.sequence);
      OrphansMeaning(es, live, e.msg);
      ChosenMeaning(es, live, e.msg);
    }
  }

  /** The decisions of the one-pass loop are exactly those the specification asks for. */
  lemma ActionsDecide(es: seq<Entry>, live: set<nat>)
    requires WellFormed(es) && 0 !in live
    ensures Decides(es, live, ActionsFor(es, live, Orphans(es, live)))
  {
    var os := Orphans(es, live);
    var actions := ActionsFor(es, live, os);
    forall m | m in os && m.IsRequest()
      ensures Requested(es, m.id)
    {
      OrphansMeaning(es, live, m);
      var e :| e in es && e.msg == m;
      assert Requests(e, m.id);
    }
    ActionsVisit(es, live, os);
    ActionsConfirm(es, live, os);
    forall id
      ensures id in Seen(es, live, os) <==> MustRetry(es, live, id)
      ensures Confirmable(es, live, os, id) <==> MustConfirm(es, live, id)
    {
      RetryChosen(es, live, id);
      ConfirmMeaning(es, live, id);
    }
    forall i | 0 <= i < |actions| && actions[i].Confirm? ensures Echoes(es, live, actions[i]) {
      EchoMeaning(es, live, actions[i]);
    }
    forall i | 0 <= i < |actions| && actions[i].Resend?
      ensures IsRetry(es, actions[i].retry.id, actions[i].retry)
      ensures actions[i].drop <==> Parked(es, actions[i].retry.id)
    {
      assert FromOrphan(es, live, os, actions[i]);
      var m :| m in os && Chosen(es, live, m) && actions[i] == Resend(RetryOf(es, m), DropAt0(es, live, m.id));
      RetryMeaning(es, m);
      DropMeaning(es, live, m.id);
    }
  }
}
