/** What recovery must do with the messages it reads, stated without reference to how it reads them. */
module RecoverySpec {
  import opened Messages

  /** One message read back from the topic, with the partition it was read from. */
  datatype Entry = Entry(partition: nat, msg: Message)

  /** The value recover stores for an id that has a response; sequence numbers stay below it. */
  const COMPLETED: int := 0x4000_0000

  predicate Requests(e: Entry, id: string) { e.msg.IsRequest() && e.msg.id == id }

  predicate Answers(e: Entry, id: string) { !e.msg.IsRequest() && e.msg.id == id }

  /** Requests carry an id, and their sequence numbers are counters below COMPLETED. */
  ghost predicate WellFormed(es: seq<Entry>) {
    forall e :: e in es && e.msg.IsRequest() ==> e.msg.id != "" && 0 <= e.msg.sequence < COMPLETED
  }

  ghost predicate Requested(es: seq<Entry>, id: string) {
    exists e :: e in es && Requests(e, id)
  }

  /** The log holds a Response or a Done for id. */
  ghost predicate Completed(es: seq<Entry>, id: string) {
    exists e :: e in es && Answers(e, id)
  }

  /** s is the highest sequence number under which id was sent. */
  ghost predicate Highest(es: seq<Entry>, id: string, s: int) {
    && (exists e :: e in es && Requests(e, id) && e.msg.sequence == s)
    && (forall e :: e in es && Requests(e, id) ==> e.msg.sequence <= s)
  }

  /** Some request id with sequence number s was a tail call that retained the lock. */
  ghost predicate LockedAt(es: seq<Entry>, id: string, s: int) {
    exists e :: e in es && Requests(e, id) && e.msg.sequence == s && e.msg.IsLocked()
  }

  /** start is where the maximal run of retained-lock tail calls of id that ends at top begins. */
  ghost predicate RunStart(es: seq<Entry>, id: string, start: int, top: int) {
    || (0 <= start <= top && !LockedAt(es, id, start) && forall s :: start < s <= top ==> LockedAt(es, id, s))
    || (start == top && forall s :: 0 <= s <= top ==> LockedAt(es, id, s))
  }

  /** start is where the final run of retained-lock tail calls of id begins. */
  ghost predicate ChainStart(es: seq<Entry>, id: string, start: int) {
    exists top :: Highest(es, id, top) && RunStart(es, id, start, top)
  }

  /** A live partition holds a request id with the highest sequence number. */
  ghost predicate HeldLive(es: seq<Entry>, live: set<nat>, id: string) {
    exists e :: e in es && e.partition in live && Requests(e, id) && Highest(es, id, e.msg.sequence)
  }

  /** The first request of the final chain of id sits in a partition no live node reads. */
  ghost predicate StartOrphaned(es: seq<Entry>, live: set<nat>, id: string) {
    exists e :: e in es && e.partition !in live && Requests(e, id) && ChainStart(es, id, e.msg.sequence)
  }

  /** Recovery retries id. */
  ghost predicate MustRetry(es: seq<Entry>, live: set<nat>, id: string) {
    !Completed(es, id) && !HeldLive(es, live, id) && StartOrphaned(es, live, id)
  }

  /** Entry i is the last one read among the requests of id with the highest sequence number. */
  ghost predicate LatestAt(es: seq<Entry>, id: string, i: int) {
    && 0 <= i < |es|
    && Requests(es[i], id)
    && (forall j :: 0 <= j < |es| && Requests(es[j], id) ==> es[j].msg.sequence <= es[i].msg.sequence)
    && (forall j :: i < j < |es| && Requests(es[j], id) ==> es[j].msg.sequence < es[i].msg.sequence)
  }

  ghost predicate IsLatest(es: seq<Entry>, id: string, m: Message) {
    exists i :: LatestAt(es, id, i) && es[i].msg == m
  }

  predicate CallsFrom(e: Entry, id: string) { e.msg.Call? && e.msg.parent == id }

  /** callee was called by id and has not answered. */
  ghost predicate PendingCallee(es: seq<Entry>, id: string, callee: string) {
    !Completed(es, callee) && exists e :: e in es && CallsFrom(e, id) && e.msg.id == callee
  }

  /** callee is the last pending callee of id in reading order. */
  ghost predicate LastPendingCallee(es: seq<Entry>, id: string, callee: string) {
    exists i ::
      && 0 <= i < |es|
      && CallsFrom(es[i], id)
      && es[i].msg.id == callee
      && !Completed(es, callee)
      && forall j :: i < j < |es| && CallsFrom(es[j], id) ==> Completed(es, es[j].msg.id)
  }

  ghost predicate WaitsFor(es: seq<Entry>, id: string, child: string) {
    if child == "" then forall c :: !PendingCallee(es, id, c) else LastPendingCallee(es, id, child)
  }

  /** Both are for the same service or node, or for the same actor and flow; the lock does not count. */
  predicate SameActor(t: Target, u: Target) {
    if t.Session? then u.Session? && t.name == u.name && t.key == u.key && t.flow == u.flow else t == u
  }

  function Unlocked(t: Target): Target {
    if t.Session? then t.(lock := "") else t
  }

  /** The retry: the latest request, without its lock, restarted at sequence number start, waiting for child. */
  function Retry(latest: Message, start: int, child: string): (m: Message)
    requires latest.IsRequest()
    ensures m.IsRequest() && m.id == latest.id && !m.IsLocked()
    ensures m.value == latest.value && m.methodName == latest.methodName && m.deadline == latest.deadline
    ensures SameActor(m.target, latest.target) && (m.Call? <==> latest.Call?) && (m.Call? ==> m.caller == latest.caller)
    ensures m.parent == latest.parent && m.edited == latest.edited && m.sequence == start && m.child == child
  {
    latest.(target := Unlocked(latest.target), sequence := start, child := child)
  }

  /** m is an acceptable retry of id. */
  ghost predicate IsRetry(es: seq<Entry>, id: string, m: Message) {
    && m.IsRequest()
    && ChainStart(es, id, m.sequence)
    && (exists latest: Message :: IsLatest(es, id, latest) && latest.IsRequest()
                                  && m == Retry(latest, m.sequence, m.child))
    && WaitsFor(es, id, m.child)
  }

  /** Partition 0 already holds id with the highest sequence number. */
  ghost predicate Parked(es: seq<Entry>, id: string) {
    exists e :: e in es && e.partition == 0 && Requests(e, id) && Highest(es, id, e.msg.sequence)
  }

  /** id would survive recovery as a request without a reply unless recovery writes one. */
  ghost predicate MustConfirm(es: seq<Entry>, live: set<nat>, id: string) {
    && (exists e :: e in es && e.partition !in live && e.partition != 0 && Answers(e, id))
    && (exists e :: e in es && (e.partition in live || e.partition == 0) && Requests(e, id))
    && !(exists e :: e in es && e.partition == 0 && Answers(e, id))
  }

  /** What recovery hands to resend and to respond. */
  datatype Action =
    | Resend(retry: Message, drop: bool)
    | Confirm(id: string, deadline: Time)

  /** A confirmation has the deadline of a reply that recovery is about to delete. */
  ghost predicate Echoes(es: seq<Entry>, live: set<nat>, a: Action) {
    a.Confirm? && exists e :: e in es && e.partition !in live && e.partition != 0 && Answers(e, a.id)
                              && e.msg.deadline == a.deadline
  }

  ghost predicate Resends(a: Action, id: string) { a.Resend? && a.retry.IsRequest() && a.retry.id == id }

  /** The declarative specification of recover's decisions. */
  ghost predicate Decides(es: seq<Entry>, live: set<nat>, actions: seq<Action>) {
    && (forall i :: 0 <= i < |actions| && actions[i].Resend? ==>
          var m := actions[i].retry;
          MustRetry(es, live, m.id) && IsRetry(es, m.id, m) && (actions[i].drop <==> Parked(es, m.id)))
    && (forall i, j :: 0 <= i < j < |actions| && actions[i].Resend? && actions[j].Resend? ==>
          actions[i].retry.id != actions[j].retry.id)
    && (forall id :: MustRetry(es, live, id) ==> exists i :: 0 <= i < |actions| && Resends(actions[i], id))
    && (forall i :: 0 <= i < |actions| && actions[i].Confirm? ==>
          MustConfirm(es, live, actions[i].id) && Echoes(es, live, actions[i]))
    && (forall id :: MustConfirm(es, live, id) ==> exists i :: 0 <= i < |actions| && actions[i].Confirm?
                                                               && actions[i].id == id)
  }

  // ----- facts about the specification itself -----

  lemma HighestUnique(es: seq<Entry>, id: string, s: int, t: int)
    requires Highest(es, id, s) && Highest(es, id, t)
    ensures s == t
  {}

  /** The start of the final chain is determined by the log. */
  lemma ChainStartUnique(es: seq<Entry>, id: string, s: int, t: int)
    requires WellFormed(es)
    requires ChainStart(es, id, s) && ChainStart(es, id, t)
    ensures s == t
  {
    var top :| Highest(es, id, top) && RunStart(es, id, s, top);
    var top' :| Highest(es, id, top') && RunStart(es, id, t, top');
    HighestUnique(es, id, top, top');
  }

  lemma LatestIsHighest(es: seq<Entry>, id: string, m: Message)
    requires IsLatest(es, id, m)
    ensures m.IsRequest() && m.id == id && Highest(es, id, m.sequence)
    ensures exists e :: e in es && e.msg == m
  {
    var i :| LatestAt(es, id, i) && es[i].msg == m;
    assert es[i] in es;
  }

  lemma LatestUnique(es: seq<Entry>, id: string, m: Message, n: Message)
    requires IsLatest(es, id, m) && IsLatest(es, id, n)
    ensures m == n
  {
    var i :| LatestAt(es, id, i) && es[i].msg == m;
    var k :| LatestAt(es, id, k) && es[k].msg == n;
    assert es[i].msg.sequence == es[k].msg.sequence;
  }
}
