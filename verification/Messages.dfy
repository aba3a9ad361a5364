/** The messages that travel through the application topic. */
module Messages {

  newtype byte = b: int | 0 <= b < 256

  /** Nanoseconds since Go's zero time; 0 is the zero deadline ("no deadline"). */
  type Time = t: int | 0 <= t witness 0

  datatype Target =
    | Service(name: string)
    | Session(name: string, key: string, flow: string, lock: string)
    | Node(node: string)

  datatype Message =
    | Call(id: string, value: seq<byte>, deadline: Time, target: Target, methodName: string,
           caller: string, sequence: int, child: string, parent: string, edited: bool)
    | Tell(id: string, value: seq<byte>, deadline: Time, target: Target, methodName: string,
           sequence: int, child: string, parent: string, edited: bool)
    | Response(id: string, value: seq<byte>, deadline: Time, errMsg: string, node: string)
    | Done(id: string, deadline: Time)
  {
    predicate IsRequest() { Call? || Tell? }

    /** A request whose target session keeps the lock its tail call parked. */
    predicate IsLocked() { IsRequest() && target.Session? && target.lock != "" }
  }
}

/** encode and decode: a message becomes a bag of record headers and a payload. */
module Codec {
  import opened Messages

  datatype HeaderName =
    | Type | RequestID | Method | Caller | Child | Parent | Sequence | Edited | Deadline
    | ServiceName | SessionName | Flow | Lock | NodeName | ErrMsg | Unknown(text: string)

  datatype Header = Header(name: HeaderName, text: string)

  type Meta = map<HeaderName, string>

  const SECOND: int := 1_000_000_000
  const UNIX_EPOCH: int := 62_135_596_800 // seconds from Go's zero time to 1970

  // ----- decimal numbers -----

  function Digits(n: nat): (s: string)
    ensures |s| >= 1
    ensures forall i :: 0 <= i < |s| ==> '0' <= s[i] <= '9'
  {
    var last := [('0' as int + n % 10) as char];
    if n < 10 then last else Digits(n / 10) + last
  }

  /** strconv.Itoa and strconv.FormatInt in base 10. */
  function Itoa(n: int): string {
    if n < 0 then "-" + Digits(-n) else Digits(n)
  }

  predicate IsNumber(s: string) {
    |s| > 0 && forall i :: 0 <= i < |s| ==> '0' <= s[i] <= '9'
  }

  function Number(s: string): nat
    requires forall i :: 0 <= i < |s| ==> '0' <= s[i] <= '9'
  {
    if |s| == 0 then 0
    else 10 * Number(s[..|s| - 1]) + (s[|s| - 1] as int - '0' as int)
  }

  /** strconv.Atoi and strconv.ParseInt as decode uses them: the error is ignored, malformed text reads as 0. */
  function Atoi(s: string): int {
    if |s| > 0 && s[0] == '-' && IsNumber(s[1..]) then 0 - Number(s[1..])
    else if |s| > 0 && s[0] == '+' && IsNumber(s[1..]) then Number(s[1..])
    else if IsNumber(s) then Number(s)
    else 0
  }

  lemma {:induction false} NumberOfDigits(n: nat)
    ensures Number(Digits(n)) == n
  {
    if n >= 10 {
      NumberOfDigits(n / 10);
      var s := Digits(n);
      assert s[..|s| - 1] == Digits(n / 10);
    }
  }

  lemma AtoiItoa(n: int)
    ensures Atoi(Itoa(n)) == n
  {
    if n < 0 {
      NumberOfDigits(-n);
      assert Itoa(n)[1..] == Digits(-n);
    } else {
      NumberOfDigits(n);
    }
  }

  // ----- deadlines -----

  function UnixSeconds(t: Time): int { t / SECOND - UNIX_EPOCH }

  /** time.Unix(seconds, 0); instants before year 1 are not representable here and clamp to zero. */
  function FromUnix(seconds: int): Time {
    if seconds + UNIX_EPOCH < 0 then 0 else (seconds + UNIX_EPOCH) * SECOND
  }

  /** What survives of a deadline on the wire: whole seconds. */
  function WholeSeconds(t: Time): Time { t - t % SECOND }

  lemma UnixRoundTrip(t: Time)
    ensures FromUnix(UnixSeconds(t)) == WholeSeconds(t)
  {
    assert t == t / SECOND * SECOND + t % SECOND;
  }

  // ----- encode -----

  function WithTarget(meta: Meta, target: Target): Meta {
    match target
    case Session(name, key, flow, lock) =>
      meta[ServiceName := name][SessionName := key][Flow := flow][Lock := lock]
    case Service(name) => meta[ServiceName := name]
    case Node(node) => meta[NodeName := node]
  }

  function WithSequence(meta: Meta, sequence: int, edited: bool): Meta {
    var m := if sequence != 0 then meta[Sequence := Itoa(sequence)] else meta;
    if edited then m[Edited := "1"] else m
  }

  function WithDeadline(meta: Meta, deadline: Time): Meta {
    if deadline != 0 then meta[Deadline := Itoa(UnixSeconds(deadline))] else meta
  }

  /** The header map that encode fills, on a node called self. */
  function EncodeMeta(m: Message, self: string): Meta {
    var base: Meta :=
      match m
      case Call(id, _, _, target, methodName, caller, sequence, child, parent, edited) =>
        WithTarget(
          WithSequence(
            map[Type := "Call", RequestID := id, Method := methodName,
                Caller := if caller == "" then self else caller, Child := child, Parent := parent],
            sequence, edited),
          target)
      case Tell(id, _, _, target, methodName, sequence, child, parent, edited) =>
        WithTarget(
          WithSequence(
            map[Type := "Tell", RequestID := id, Method := methodName, Child := child, Parent := parent],
            sequence, edited),
          target)
      case Response(id, _, _, errMsg, _) => map[Type := "Response", RequestID := id, ErrMsg := errMsg]
      case Done(id, _) => map[Type := "Done", RequestID := id];
    WithDeadline(base, m.deadline)
  }

  function Payload(m: Message): seq<byte> { if m.Done? then [] else m.value }

  /** headers lists every entry of meta once, in some order. */
  ghost predicate Lists(headers: seq<Header>, meta: Meta) {
    && (forall i :: 0 <= i < |headers| ==> headers[i].name in meta && meta[headers[i].name] == headers[i].text)
    && (forall i, j :: 0 <= i < j < |headers| ==> headers[i].name != headers[j].name)
    && (forall k :: k in meta ==> exists i :: 0 <= i < |headers| && headers[i].name == k)
  }

  /** The map iteration of encode: the order in which keys come out is not specified. */
  method Encode(m: Message, self: string) returns (headers: seq<Header>, value: seq<byte>)
    ensures Lists(headers, EncodeMeta(m, self))
    ensures |headers| == |EncodeMeta(m, self)|
    ensures value == Payload(m)
  {
    var meta := EncodeMeta(m, self);
    headers := [];
    var rest := meta.Keys;
    while rest != {}
      invariant rest <= meta.Keys
      invariant |headers| + |rest| == |meta.Keys|
      invariant forall i :: 0 <= i < |headers| ==>
                  headers[i].name in meta && headers[i].name !in rest && meta[headers[i].name] == headers[i].text
      invariant forall i, j :: 0 <= i < j < |headers| ==> headers[i].name != headers[j].name
      invariant forall k :: k in meta && k !in rest ==> exists i :: 0 <= i < |headers| && headers[i].name == k
      decreases rest
    {
      var k :| k in rest;
      ghost var before, was := headers, rest;
      headers := headers + [Header(k, meta[k])];
      rest := rest - {k};
      forall x | x in meta && x !in rest
        ensures exists i :: 0 <= i < |headers| && headers[i].name == x
      {
        if x == k {
          assert headers[|before|].name == x;
        } else {
          assert x !in was;
          var i :| 0 <= i < |before| && before[i].name == x;
          assert headers[i].name == x;
        }
      }
    }
    value := Payload(m);
  }

  // ----- decode -----

  function Gather(headers: seq<Header>): Meta {
    if |headers| == 0 then map[]
    else
      var last := headers[|headers| - 1];
      Gather(headers[..|headers| - 1])[last.name := last.text]
  }

  /** A missing header reads as the empty string, as indexing a Go map does. */
  function Get(meta: Meta, name: HeaderName): string {
    if name in meta then meta[name] else ""
  }

  function DecodeTarget(meta: Meta): Target {
    if SessionName in meta then
      Session(Get(meta, ServiceName), meta[SessionName], Get(meta, Flow), Get(meta, Lock))
    else if ServiceName in meta then Service(meta[ServiceName])
    else Node(Get(meta, NodeName))
  }

  function DecodeMeta(meta: Meta, value: seq<byte>): Message {
    var deadline: Time := if Deadline in meta then FromUnix(Atoi(meta[Deadline])) else 0;
    var sequence := if Sequence in meta then Atoi(meta[Sequence]) else 0;
    var id := Get(meta, RequestID);
    if Get(meta, Type) == "Call" then
      Call(id, value, deadline, DecodeTarget(meta), Get(meta, Method), Get(meta, Caller),
           sequence, Get(meta, Child), Get(meta, Parent), false)
    else if Get(meta, Type) == "Tell" then
      Tell(id, value, deadline, DecodeTarget(meta), Get(meta, Method), sequence, Get(meta, Child), "", false)
    else if Get(meta, Type) == "Response" then Response(id, value, deadline, Get(meta, ErrMsg), "")
    else Done(id, deadline)
  }

  method Decode(headers: seq<Header>, value: seq<byte>) returns (m: Message)
    ensures m == DecodeMeta(Gather(headers), value)
  {
    var meta: Meta := map[];
    for i := 0 to |headers|
      invariant meta == Gather(headers[..i])
    {
      meta := meta[headers[i].name := headers[i].text];
      assert headers[..i + 1][..i] == headers[..i];
    }
    assert headers[..|headers|] == headers;
    m := DecodeMeta(meta, value);
  }

  // ----- round trip -----

  /** What a reader of the topic sees of a message sent by node self. */
  function Carried(m: Message, self: string): Message {
    match m
    case Call(_, _, _, _, _, caller, _, _, _, _) =>
      m.(caller := if caller == "" then self else caller, deadline := WholeSeconds(m.deadline), edited := false)
    case Tell(_, _, _, _, _, _, _, _, _) =>
      m.(deadline := WholeSeconds(m.deadline), parent := "", edited := false)
    case Response(_, _, _, _, _) => m.(deadline := WholeSeconds(m.deadline), node := "")
    case Done(_, _) => m.(deadline := WholeSeconds(m.deadline))
  }

  lemma {:induction false} GatherLookup(headers: seq<Header>, i: nat)
    requires i < |headers|
    requires forall j, k :: 0 <= j < k < |headers| ==> headers[j].name != headers[k].name
    ensures headers[i].name in Gather(headers) && Gather(headers)[headers[i].name] == headers[i].text
  {
    var n := |headers| - 1;
    if i < n {
      GatherLookup(headers[..n], i);
      assert headers[..n][i] == headers[i];
    }
  }

  lemma {:induction false} GatherOnly(headers: seq<Header>, name: HeaderName)
    requires name in Gather(headers)
    ensures exists i :: 0 <= i < |headers| && headers[i].name == name
  {
    var n := |headers| - 1;
    if headers[n].name != name {
      GatherOnly(headers[..n], name);
      var i :| 0 <= i < n && headers[..n][i].name == name;
      assert headers[i].name == name;
    }
  }

  /** Gathering undoes listing, whatever order the headers came out in. */
  lemma GatherUndoesLists(headers: seq<Header>, meta: Meta)
    requires Lists(headers, meta)
    ensures Gather(headers) == meta
  {
    forall k | k in meta
      ensures k in Gather(headers) && Gather(headers)[k] == meta[k]
    {
      var i :| 0 <= i < |headers| && headers[i].name == k;
      GatherLookup(headers, i);
    }
    forall k | k in Gather(headers)
      ensures k in meta
    {
      GatherOnly(headers, k);
    }
  }

  /** Two header maps that answer every question except those in names alike. */
  ghost predicate SameBut(a: Meta, b: Meta, names: set<HeaderName>) {
    forall k :: k !in names ==> (k in a <==> k in b) && (k in a ==> a[k] == b[k])
  }

  lemma TargetStage(meta: Meta, target: Target)
    requires {ServiceName, SessionName, Flow, Lock, NodeName} !! meta.Keys
    ensures DecodeTarget(WithTarget(meta, target)) == target
    ensures SameBut(meta, WithTarget(meta, target), {ServiceName, SessionName, Flow, Lock, NodeName})
  {}

  lemma SequenceStage(meta: Meta, sequence: int, edited: bool)
    requires Sequence !in meta
    ensures var m := WithSequence(meta, sequence, edited);
            && (if Sequence in m then Atoi(m[Sequence]) else 0) == sequence
            && SameBut(meta, m, {Sequence, Edited})
  {
    AtoiItoa(sequence);
  }

  lemma DeadlineStage(meta: Meta, deadline: Time)
    requires Deadline !in meta
    ensures var m := WithDeadline(meta, deadline);
            && (if Deadline in m then FromUnix(Atoi(m[Deadline])) else 0) == WholeSeconds(deadline)
            && SameBut(meta, m, {Deadline})
  {
    AtoiItoa(UnixSeconds(deadline));
    UnixRoundTrip(deadline);
  }

  /** Headers set by the first stage survive the three later ones. */
  lemma Stages(m0: Meta, m1: Meta, m2: Meta, m3: Meta)
    requires SameBut(m0, m1, {Sequence, Edited})
    requires SameBut(m1, m2, {ServiceName, SessionName, Flow, Lock, NodeName})
    requires SameBut(m2, m3, {Deadline})
    ensures Get(m3, Type) == Get(m0, Type) && Get(m3, RequestID) == Get(m0, RequestID)
    ensures Get(m3, Method) == Get(m0, Method) && Get(m3, Caller) == Get(m0, Caller)
    ensures Get(m3, Child) == Get(m0, Child) && Get(m3, Parent) == Get(m0, Parent)
    ensures DecodeTarget(m3) == DecodeTarget(m2)
    ensures Sequence in m3 <==> Sequence in m1
    ensures Sequence in m3 ==> m3[Sequence] == m1[Sequence]
  {}

  /** The stages in the order encode applies them, from any header map m0 that holds none of their headers. */
  lemma StagesApplied(m0: Meta, sequence: int, edited: bool, target: Target, deadline: Time) returns (m3: Meta)
    requires {Sequence, Deadline, ServiceName, SessionName, Flow, Lock, NodeName} !! m0.Keys
    ensures m3 == WithDeadline(WithTarget(WithSequence(m0, sequence, edited), target), deadline)
    ensures Get(m3, Type) == Get(m0, Type) && Get(m3, RequestID) == Get(m0, RequestID)
    ensures Get(m3, Method) == Get(m0, Method) && Get(m3, Caller) == Get(m0, Caller)
    ensures Get(m3, Child) == Get(m0, Child) && Get(m3, Parent) == Get(m0, Parent)
    ensures DecodeTarget(m3) == target
    ensures (if Sequence in m3 then Atoi(m3[Sequence]) else 0) == sequence
    ensures (if Deadline in m3 then FromUnix(Atoi(m3[Deadline])) else 0) == WholeSeconds(deadline)
  {
    var m1 := WithSequence(m0, sequence, edited);
    var m2 := WithTarget(m1, target);
    m3 := WithDeadline(m2, deadline);
    SequenceStage(m0, sequence, edited);
    TargetStage(m1, target);
    DeadlineStage(m2, deadline);
    Stages(m0, m1, m2, m3);
  }

  /**
   * Headers that decode does not read back are there for the debugger: the parent of every request, and a mark on the
   * edited ones.
   */
  lemma DebuggerHeaders(m: Message, self: string)
    requires m.IsRequest()
    ensures var meta := EncodeMeta(m, self);
            && Parent in meta && meta[Parent] == m.parent && (Edited in meta <==> m.edited)
            && (m.edited ==> meta[Edited] == "1")
  {
  }

  /** What headers make of a target, whether or not encode wrote them; a missing piece reads as the empty string. */
  lemma TargetMeaning(meta: Meta)
    ensures var t := DecodeTarget(meta);
            && (t.Session? <==> SessionName in meta)
            && (t.Service? <==> SessionName !in meta && ServiceName in meta)
            && (t.Session? ==> && t.key == meta[SessionName] && (ServiceName in meta ==> t.name == meta[ServiceName])
                               && (Flow in meta ==> t.flow == meta[Flow]) && (Lock in meta ==> t.lock == meta[Lock])
                               && (ServiceName !in meta ==> t.name == "") && (Flow !in meta ==> t.flow == "")
                               && (Lock !in meta ==> t.lock == ""))
            && (t.Service? ==> t.name == meta[ServiceName])
            && (t.Node? ==> t.node == if NodeName in meta then meta[NodeName] else "")
  {
  }

  lemma CallRoundTrip(m: Message, self: string)
    requires m.Call?
    ensures DecodeMeta(EncodeMeta(m, self), Payload(m)) == Carried(m, self)
  {
    var m0: Meta := map[Type := "Call", RequestID := m.id, Method := m.methodName,
                        Caller := if m.caller == "" then self else m.caller, Child := m.child, Parent := m.parent];
    var m3 := StagesApplied(m0, m.sequence, m.edited, m.target, m.deadline);
    assert EncodeMeta(m, self) == m3;
  }

  lemma TellRoundTrip(m: Message, self: string)
    requires m.Tell?
    ensures DecodeMeta(EncodeMeta(m, self), Payload(m)) == Carried(m, self)
  {
    var m0: Meta := map[Type := "Tell", RequestID := m.id, Method := m.methodName, Child := m.child,
                        Parent := m.parent];
    var m3 := StagesApplied(m0, m.sequence, m.edited, m.target, m.deadline);
    assert EncodeMeta(m, self) == m3;
  }

  lemma ReplyRoundTrip(m: Message, self: string)
    requires !m.IsRequest()
    ensures DecodeMeta(EncodeMeta(m, self), Payload(m)) == Carried(m, self)
  {
    var base: Meta :=
      if m.Response? then map[Type := "Response", RequestID := m.id, ErrMsg := m.errMsg]
      else map[Type := "Done", RequestID := m.id];
    DeadlineStage(base, m.deadline);
  }

  lemma DeadlineKept(t: Time)
    ensures WholeSeconds(t) == 0 <==> t < SECOND
  {
    assert t == t / SECOND * SECOND + t % SECOND;
  }

  /** decode inverts encode on everything the receiver reads, for every header order. */
  lemma RoundTrip(m: Message, self: string, headers: seq<Header>)
    requires Lists(headers, EncodeMeta(m, self))
    ensures DecodeMeta(Gather(headers), Payload(m)) == Carried(m, self)
  {
    GatherUndoesLists(headers, EncodeMeta(m, self));
    if m.Call? {
      CallRoundTrip(m, self);
    } else if m.Tell? {
      TellRoundTrip(m, self);
    } else {
      ReplyRoundTrip(m, self);
    }
  }

  /** Whole seconds are as far as truncation goes. */
  lemma WholeSecondsTwice(t: Time)
    ensures WholeSeconds(WholeSeconds(t)) == WholeSeconds(t)
  {
    assert t == t / SECOND * SECOND + t % SECOND;
    assert (t / SECOND * SECOND) % SECOND == 0;
  }

  /** A second hop changes nothing more: recovery resends what it decoded. */
  lemma ResendStable(m: Message, self: string, other: string, headers: seq<Header>)
    requires self != ""
    requires Lists(headers, EncodeMeta(Carried(m, self), other))
    ensures DecodeMeta(Gather(headers), Payload(Carried(m, self))) == Carried(m, self)
  {
    RoundTrip(Carried(m, self), other, headers);
    WholeSecondsTwice(m.deadline);
  }
}
