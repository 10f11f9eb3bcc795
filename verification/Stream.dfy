/** One stream: its five states, the leading-header rule, the queue of what arrived, and the one memoized
    answer.  Functions of a value; the object in StreamObject.dfy is proved against them. */
module StreamModel {
  import opened Frames
  import opened Assembly

  datatype State = Idle | Open | HalfClosedLocal | HalfClosedRemote | Closed

  /** A dead socket counts as a reset with CONNECTION_CLOSED. */
  datatype Cause = NotEnded | Normally | ByReset(code: int)

  datatype Item = Payload(value: Value) | End | Failure(code: int)

  datatype Claim = Unclaimed | ForAwait | ForIterate | ForNotify

  datatype Rejection = NoPayload | WasReset(code: int)

  /** The memoized future: created by the first await, settled once. */
  datatype Answer = NotAsked | Waiting | Resolved(value: Value) | Rejected(why: Rejection)

  datatype Stream = Stream(
    id: nat,
    local: bool,
    state: State,
    cause: Cause,
    opening: bool,
    partial: Partial,
    headers: Option<Fields>,
    payload: Option<Value>,
    replyHeaders: Option<Fields>,
    trailers: Option<Fields>,
    sentAFrame: bool,
    receivedAFrame: bool,
    queue: seq<Item>,
    read: nat,
    claim: Claim,
    answer: Answer,
    started: bool)

  /** Both marks are set from the start for the side that opened, so that side's headers are final. */
  function NewStream(id: nat, local: bool, state: State, headers: Option<Fields>, payload: Option<Value>): Stream {
    Stream(id, local, state, NotEnded, false, NOTHING, headers, payload, None, None, local, !local,
           [], 0, Unclaimed, NotAsked, false)
  }

  // ------------------------------------------------------------ receiving

  /** The second component is `false` exactly for headers on a later frame. */
  function NoteRemoteFrame(s: Stream, headers: Option<Fields>): (Stream, bool) {
    if s.receivedAFrame then (s, headers.None?)
    else
      var noted := s.(receivedAFrame := true);
      (if s.local && headers.Some? then noted.(replyHeaders := headers) else noted, true)
  }

  function AcceptPayload(s: Stream, v: Value): Stream {
    s.(answer := if s.answer.Waiting? then Resolved(v) else s.answer, queue := s.queue + [Payload(v)])
  }

  function Reject(answer: Answer, why: Rejection): Answer {
    if answer.Waiting? then Rejected(why) else answer
  }

  function CloseNormally(s: Stream): Stream {
    s.(state := Closed, cause := Normally, queue := s.queue + [End], answer := Reject(s.answer, NoPayload))
  }

  function RemoteEnd(s: Stream, trailers: Option<Fields>): Stream {
    var noted := if trailers.Some? then s.(trailers := trailers) else s;
    if s.state == HalfClosedLocal then CloseNormally(noted)
    else if s.state != Closed then
      noted.(state := HalfClosedRemote, queue := s.queue + [End], answer := Reject(s.answer, NoPayload))
    else noted
  }

  function LocalEnd(s: Stream): Stream {
    if s.state == HalfClosedRemote then CloseNormally(s) else s.(state := HalfClosedLocal)
  }

  /** Whatever closes a stream early; a second failure changes nothing. */
  function Fail(s: Stream, code: int): Stream {
    if s.state == Closed then s
    else
      s.(state := Closed, cause := ByReset(code), partial := NOTHING, answer := Reject(s.answer, WasReset(code)),
         queue := s.queue + [Failure(code)])
  }

  // ------------------------------------------------------------ sending

  predicate MaySend(s: Stream, headers: Option<Fields>) {
    s.cause.NotEnded? && s.state != HalfClosedLocal && (headers.Some? ==> !s.sentAFrame)
  }

  function NoteSent(s: Stream, headers: Option<Fields>): Stream {
    var noted := s.(sentAFrame := true);
    if !s.local && headers.Some? then noted.(replyHeaders := headers) else noted
  }

  // ------------------------------------------------------------ consuming

  /** Awaiting may be claimed again, iterating may not; `None` refuses. */
  function ClaimFor(s: Stream, use: Claim): Option<Stream> {
    if s.claim != Unclaimed && s.claim != use then None
    else if s.claim == ForIterate && use == ForIterate then None
    else Some(s.(claim := use))
  }

  /** A future created now is settled from what has arrived. */
  function AnswerNow(s: Stream): Answer {
    match s.cause
    case ByReset(code) => Rejected(WasReset(code))
    case _ =>
      if |s.queue| <= s.read then Waiting
      else
        match s.queue[s.read]
        case Payload(v) => Resolved(v)
        case End => Rejected(NoPayload)
        case Failure(code) => Rejected(WasReset(code))
  }

  /** `await stream` or `result()`. */
  function Await(s: Stream): Option<Stream> {
    match ClaimFor(s, ForAwait)
    case None => None
    case Some(claimed) =>
      Some(if claimed.answer.NotAsked? then claimed.(answer := AnswerNow(claimed)) else claimed)
  }

  /** `async for` over the stream. */
  function Iterate(s: Stream): Option<Stream> {
    ClaimFor(s, ForIterate)
  }

  /** One `get` of the iterator, when an item is there. */
  function Pull(s: Stream): (Stream, Option<Item>) {
    if s.read < |s.queue| then (s.(read := s.read + 1), Some(s.queue[s.read])) else (s, None)
  }

  // ------------------------------------------------------------ what a consumer sees

  /** The payloads an iterator yields before the queue's first end or failure. */
  function Iterated(queue: seq<Item>): seq<Value> {
    if queue == [] || !queue[0].Payload? then [] else [queue[0].value] + Iterated(queue[1..])
  }

  /** Every payload that was ever accepted, in order. */
  function Accepted(queue: seq<Item>): seq<Value> {
    if queue == [] then []
    else (if queue[0].Payload? then [queue[0].value] else []) + Accepted(queue[1..])
  }

  /** The answer the arrived items determine: the first of them decides. */
  function FirstDecides(queue: seq<Item>): Answer {
    if queue == [] then Waiting else Decides(queue[0])
  }

  function Decides(item: Item): Answer {
    match item
    case Payload(v) => Resolved(v)
    case End => Rejected(NoPayload)
    case Failure(code) => Rejected(WasReset(code))
  }

  /** The events of a stream's life as its peer and its consumer cause them. */
  datatype Event =
    | Arrived(value: Value)
    | RemoteEnded(trailers: Option<Fields>)
    | LocalEnded
    | Failed(code: int)
    | Awaited
    | IterationBegun
    | Pulled
    | Notified

  /** The peer delivers a payload only while the remote may still send, and ends each side once.  `notify` takes the
      stream it has just opened. */
  function Happen(s: Stream, e: Event): Stream {
    match e
    case Arrived(v) => if s.state == Open || s.state == HalfClosedLocal then AcceptPayload(s, v) else s
    case RemoteEnded(trailers) => if s.state == Open || s.state == HalfClosedLocal then RemoteEnd(s, trailers) else s
    case LocalEnded => if s.state == Open || s.state == HalfClosedRemote then LocalEnd(s) else s
    case Failed(code) => Fail(s, code)
    case Awaited => if Await(s).Some? then Await(s).value else s
    case IterationBegun => if Iterate(s).Some? then Iterate(s).value else s
    case Pulled => if s.claim == ForIterate then Pull(s).0 else s
    case Notified => if s.claim == Unclaimed then s.(claim := ForNotify) else s
  }

  function Live(s: Stream, events: seq<Event>): Stream
    decreases |events|
  {
    if events == [] then s else Live(Happen(s, events[0]), events[1..])
  }

  /** Ends and failures come after every payload, and only once the remote can send no more. */
  ghost predicate EndsLast(queue: seq<Item>, remoteMaySend: bool) {
    && (forall i, j :: 0 <= i < j < |queue| && queue[j].Payload? ==> queue[i].Payload?)
    && (remoteMaySend ==> forall i :: 0 <= i < |queue| ==> queue[i].Payload?)
  }

  /** What a stream keeps from its first frame on. */
  ghost predicate Consistent(s: Stream) {
    && EndsLast(s.queue, s.state == Open || s.state == HalfClosedLocal)
    && (s.state == Closed <==> !s.cause.NotEnded?)
    && (s.claim != ForIterate ==> s.read == 0)
    && s.read <= |s.queue|
    && (s.answer.NotAsked? || s.claim == ForAwait)
    && (forall i :: 0 <= i < |s.queue| && s.queue[i].Failure? ==> s.cause == ByReset(s.queue[i].code))
    && (s.cause.ByReset? ==> Failure(s.cause.code) in s.queue)
  }

  lemma AppendKeepsEnds(queue: seq<Item>, item: Item, before: bool, after: bool)
    requires EndsLast(queue, before) && (item.Payload? ==> before) && (after ==> before && item.Payload?)
    ensures EndsLast(queue + [item], after)
  {
  }

  lemma ArrivedKeepsConsistent(s: Stream, v: Value)
    requires Consistent(s) && (s.state == Open || s.state == HalfClosedLocal)
    ensures Consistent(AcceptPayload(s, v))
  {
    hide EndsLast;
    AppendKeepsEnds(s.queue, Payload(v), true, true);
  }

  lemma RemoteEndedKeepsConsistent(s: Stream, trailers: Option<Fields>)
    requires Consistent(s) && (s.state == Open || s.state == HalfClosedLocal)
    ensures Consistent(RemoteEnd(s, trailers))
  {
    hide EndsLast;
    AppendKeepsEnds(s.queue, End, true, false);
  }

  lemma LocalEndedKeepsConsistent(s: Stream)
    requires Consistent(s) && (s.state == Open || s.state == HalfClosedRemote)
    ensures Consistent(LocalEnd(s))
  {
    hide EndsLast;
    AppendKeepsEnds(s.queue, End, s.state == Open, false);
  }

  lemma FailedKeepsConsistent(s: Stream, code: int)
    requires Consistent(s)
    ensures Consistent(Fail(s, code))
  {
    hide EndsLast;
    AppendKeepsEnds(s.queue, Failure(code), s.state == Open || s.state == HalfClosedLocal, false);
    assert (s.queue + [Failure(code)])[|s.queue|] == Failure(code);
  }

  lemma HappenKeepsConsistent(s: Stream, e: Event)
    requires Consistent(s)
    ensures Consistent(Happen(s, e))
  {
    hide EndsLast, AcceptPayload, RemoteEnd, LocalEnd, Fail;
    match e
    case Arrived(v) => if s.state == Open || s.state == HalfClosedLocal { ArrivedKeepsConsistent(s, v); }
    case RemoteEnded(t) => if s.state == Open || s.state == HalfClosedLocal { RemoteEndedKeepsConsistent(s, t); }
    case LocalEnded => if s.state == Open || s.state == HalfClosedRemote { LocalEndedKeepsConsistent(s); }
    case Failed(code) => FailedKeepsConsistent(s, code);
    case Awaited =>
    case IterationBegun =>
    case Pulled =>
    case Notified =>
  }

  lemma {:induction false} LiveKeepsConsistent(s: Stream, events: seq<Event>)
    requires Consistent(s)
    ensures Consistent(Live(s, events))
    decreases |events|
  {
    hide Happen, Consistent;
    if events != [] {
      HappenKeepsConsistent(s, events[0]);
      LiveKeepsConsistent(Happen(s, events[0]), events[1..]);
    }
  }

  lemma {:induction false} EndsLastIterates(queue: seq<Item>)
    requires forall i, j :: 0 <= i < j < |queue| && queue[j].Payload? ==> queue[i].Payload?
    ensures Iterated(queue) == Accepted(queue)
  {
    if queue != [] {
      var tail := queue[1..];
      assert forall i :: 0 <= i < |tail| ==> tail[i] == queue[i + 1];
      EndsLastIterates(tail);
      if !queue[0].Payload? {
        NoPayloads(tail);
      }
    }
  }

  lemma {:induction false} NoPayloads(queue: seq<Item>)
    requires forall i :: 0 <= i < |queue| ==> !queue[i].Payload?
    ensures Accepted(queue) == []
  {
    if queue != [] {
      NoPayloads(queue[1..]);
    }
  }

  lemma {:induction false} AcceptedSnoc(queue: seq<Item>, item: Item)
    ensures Accepted(queue + [item]) == Accepted(queue) + (if item.Payload? then [item.value] else [])
  {
    if queue == [] {
      assert queue + [item] == [item];
      assert [item][1..] == [];
    } else {
      AcceptedSnoc(queue[1..], item);
      assert (queue + [item])[1..] == queue[1..] + [item];
    }
  }

  /** The payloads among `events` that came while the remote could send. */
  function Arrivals(s: Stream, events: seq<Event>): seq<Value>
    decreases |events|
  {
    if events == [] then []
    else
      (if events[0].Arrived? && (s.state == Open || s.state == HalfClosedLocal) then [events[0].value] else [])
      + Arrivals(Happen(s, events[0]), events[1..])
  }

  /** What an event puts on the queue. */
  function Appended(s: Stream, e: Event): seq<Item> {
    match e
    case Arrived(v) => if s.state == Open || s.state == HalfClosedLocal then [Payload(v)] else []
    case RemoteEnded(_) => if s.state == Open || s.state == HalfClosedLocal then [End] else []
    case LocalEnded => if s.state == HalfClosedRemote then [End] else []
    case Failed(code) => if s.state == Closed then [] else [Failure(code)]
    case _ => []
  }

  lemma HappenAppends(s: Stream, e: Event)
    ensures Happen(s, e).queue == s.queue + Appended(s, e)
  {
    hide AnswerNow, Reject;
    match e
    case Arrived(_) =>
    case RemoteEnded(_) =>
    case LocalEnded =>
    case Failed(_) =>
    case Awaited =>
    case IterationBegun =>
    case Pulled =>
    case Notified =>
  }

  lemma HappenAccepts(s: Stream, e: Event)
    ensures Accepted(Happen(s, e).queue)
         == Accepted(s.queue) + (if e.Arrived? && (s.state == Open || s.state == HalfClosedLocal) then [e.value]
                                 else [])
  {
    hide Accepted, Happen;
    HappenAppends(s, e);
    if Appended(s, e) != [] {
      AcceptedSnoc(s.queue, Appended(s, e)[0]);
    } else {
      assert s.queue + [] == s.queue;
    }
  }

  lemma {:induction false} LiveAccepts(s: Stream, events: seq<Event>)
    ensures Accepted(Live(s, events).queue) == Accepted(s.queue) + Arrivals(s, events)
    decreases |events|
  {
    hide Happen, Accepted;
    if events != [] {
      HappenAccepts(s, events[0]);
      LiveAccepts(Happen(s, events[0]), events[1..]);
    }
  }

  /** Iteration yields exactly what was there and then what arrived while the remote could send, in order,
      whatever else happens to the stream. */
  lemma IterationYieldsWhatArrived(s: Stream, events: seq<Event>)
    requires Consistent(s)
    ensures Iterated(Live(s, events).queue) == Accepted(s.queue) + Arrivals(s, events)
  {
    hide Happen;
    LiveKeepsConsistent(s, events);
    EndsLastIterates(Live(s, events).queue);
    LiveAccepts(s, events);
  }

  /** The answer is what the first item decides, or the reset when the first await came after it. */
  ghost predicate Settled(s: Stream) {
    || s.answer.NotAsked?
    || s.answer == FirstDecides(s.queue)
    || (s.cause.ByReset? && s.answer == Rejected(WasReset(s.cause.code)))
  }

  /** Until the first await nothing is settled; from it on the answer is settled as `Settled` says, and a
      settled answer never changes. */
  lemma {:induction false} AnswerIsMemoized(s: Stream, events: seq<Event>)
    requires Consistent(s) && Settled(s)
    ensures var end := Live(s, events);
            && Settled(end)
            && (!s.answer.NotAsked? && !s.answer.Waiting? ==> end.answer == s.answer)
    decreases |events|
  {
    hide Consistent;
    if events != [] {
      var next := Happen(s, events[0]);
      HappenKeepsConsistent(s, events[0]);
      HappenKeepsSettled(s, events[0]);
      AnswerIsMemoized(next, events[1..]);
    }
  }

  lemma HappenKeepsSettled(s: Stream, e: Event)
    requires Consistent(s) && Settled(s)
    ensures SettlesOnce(s, Happen(s, e))
  {
    hide EndsLast, FirstDecides, AnswerNow, Settled, SettlesOnce;
    match e
    case Arrived(v) =>
      if s.state == Open || s.state == HalfClosedLocal { PushSettles(s, AcceptPayload(s, v), Payload(v)); }
          else { StaysSettled(s, s); }
    case RemoteEnded(t) => if s.state == Open || s.state == HalfClosedLocal { PushSettles(s, RemoteEnd(s, t), End); }
        else { StaysSettled(s, s); }
    case LocalEnded =>
      if s.state == HalfClosedRemote { PushSettles(s, LocalEnd(s), End); } else { StaysSettled(s, Happen(s, e)); }
    case Failed(code) =>
      if s.state == Closed { StaysSettled(s, s); } else { PushSettles(s, Fail(s, code), Failure(code)); }
    case Awaited => AwaitSettles(s);
    case IterationBegun => StaysSettled(s, Happen(s, e));
    case Pulled => StaysSettled(s, Happen(s, e));
    case Notified => StaysSettled(s, Happen(s, e));
  }

  ghost predicate SettlesOnce(s: Stream, next: Stream) {
    && Settled(next)
    && (!s.answer.NotAsked? && !s.answer.Waiting? ==> next.answer == s.answer)
  }

  lemma StaysSettled(s: Stream, next: Stream)
    requires Settled(s) && next.answer == s.answer && next.queue == s.queue && next.cause == s.cause
    ensures SettlesOnce(s, next)
  {
  }

  /** A pushed item settles an answer that was waiting, and no other. */
  lemma PushSettles(s: Stream, next: Stream, item: Item)
    requires Settled(s) && s.cause.NotEnded? && next.queue == s.queue + [item]
    requires next.answer == if s.answer.Waiting? then Decides(item) else s.answer
    ensures SettlesOnce(s, next)
  {
    if s.queue == [] {
      assert next.queue == [item];
    } else {
      assert next.queue[0] == s.queue[0];
    }
  }

  lemma AwaitSettles(s: Stream)
    requires Consistent(s) && Settled(s)
    ensures SettlesOnce(s, Happen(s, Awaited))
  {
    hide EndsLast, FirstDecides, AnswerNow;
    if Await(s).Some? {
      AnswerNowIsFirst(s.(claim := ForAwait));
    }
  }

  /** A future created by the first await is settled by the head of the queue, or by the reset. */
  lemma AnswerNowIsFirst(s: Stream)
    requires s.read == 0
    ensures AnswerNow(s) == if s.cause.ByReset? then Rejected(WasReset(s.cause.code)) else FirstDecides(s.queue)
  {
  }

  // ------------------------------------------------------------ one consumer

  /** A call that wants to consume the stream, and what became of it. */
  datatype Asked = Asked(use: Claim, granted: bool)

  /** The uses that `e` asks for: none or one. */
  function AskedBy(s: Stream, e: Event): seq<Asked> {
    match e
    case Awaited => [Asked(ForAwait, Await(s).Some?)]
    case IterationBegun => [Asked(ForIterate, Iterate(s).Some?)]
    case Notified => if s.claim == Unclaimed then [Asked(ForNotify, true)] else []
    case _ => []
  }

  function AskedIn(s: Stream, events: seq<Event>): seq<Asked>
    decreases |events|
  {
    if events == [] then [] else AskedBy(s, events[0]) + AskedIn(Happen(s, events[0]), events[1..])
  }

  /** A use of another kind was granted before the `k`th one, or both are iterations. */
  ghost predicate Taken(asked: seq<Asked>, k: nat)
    requires k < |asked|
  {
    exists j :: 0 <= j < k && asked[j].granted && (asked[j].use != asked[k].use || asked[k].use == ForIterate)
  }

  /** A stream has one consumer: each use is refused exactly when one that excludes it was granted before. */
  ghost predicate OneConsumer(asked: seq<Asked>) {
    forall k :: 0 <= k < |asked| ==> (asked[k].granted <==> !Taken(asked, k))
  }

  /** The claim of a stream that was asked for `asked` since it was created. */
  ghost predicate ClaimTells(asked: seq<Asked>, claim: Claim) {
    && (claim == Unclaimed <==> forall j :: 0 <= j < |asked| ==> !asked[j].granted)
    && (forall j :: 0 <= j < |asked| && asked[j].granted ==> asked[j].use == claim)
  }

  lemma AskOnce(asked: seq<Asked>, s: Stream, e: Event)
    requires OneConsumer(asked) && ClaimTells(asked, s.claim)
    ensures OneConsumer(asked + AskedBy(s, e)) && ClaimTells(asked + AskedBy(s, e), Happen(s, e).claim)
  {
    hide OneConsumer, ClaimTells, AcceptPayload, RemoteEnd, LocalEnd, AnswerNow;
    KeepsClaim(s, e);
    if AskedBy(s, e) == [] {
      assert asked + [] == asked;
    } else {
      var ask := AskedBy(s, e)[0];
      AskMore(asked, s.claim, ask);
    }
  }

  lemma AskMore(asked: seq<Asked>, claim: Claim, ask: Asked)
    requires OneConsumer(asked) && ClaimTells(asked, claim) && ask.use != Unclaimed
    requires ask.granted <==> claim == Unclaimed || (claim == ask.use && claim != ForIterate)
    ensures OneConsumer(asked + [ask]) && ClaimTells(asked + [ask], if ask.granted then ask.use else claim)
  {
    var all, k := asked + [ask], |asked|;
    forall i | 0 <= i < k
      ensures Taken(all, i) <==> Taken(asked, i)
    {
      TakenStays(asked, [ask], i);
    }
    assert all[k] == ask && forall j :: 0 <= j < k ==> all[j] == asked[j];
    if claim != Unclaimed {
      var j :| 0 <= j < k && asked[j].granted;
      assert all[j] == asked[j];
    }
  }

  lemma TakenStays(asked: seq<Asked>, more: seq<Asked>, k: nat)
    requires k < |asked|
    ensures Taken(asked + more, k) <==> Taken(asked, k)
  {
    var all := asked + more;
    assert forall j :: 0 <= j <= k ==> all[j] == asked[j];
    if Taken(asked, k) {
      var j :| 0 <= j < k && asked[j].granted && (asked[j].use != asked[k].use || asked[k].use == ForIterate);
      assert all[j] == asked[j];
    }
  }

  lemma KeepsClaim(s: Stream, e: Event)
    ensures AskedBy(s, e) == [] ==> Happen(s, e).claim == s.claim
  {
    hide AnswerNow;
  }

  lemma {:induction false} AskedSoFar(asked: seq<Asked>, s: Stream, events: seq<Event>)
    requires OneConsumer(asked) && ClaimTells(asked, s.claim)
    ensures OneConsumer(asked + AskedIn(s, events)) && ClaimTells(asked + AskedIn(s, events), Live(s, events).claim)
    decreases |events|
  {
    hide OneConsumer, ClaimTells, Happen, AskedBy;
    if events == [] {
      assert asked + [] == asked;
    } else {
      AskOnce(asked, s, events[0]);
      AskedSoFar(asked + AskedBy(s, events[0]), Happen(s, events[0]), events[1..]);
      assert asked + AskedIn(s, events) == (asked + AskedBy(s, events[0])) + AskedIn(Happen(s, events[0]), events[1..]);
    }
  }

  /** Over any events of a stream's life, a use is refused if and only if one of another kind was granted before it, or
      one was granted and both are iterations.  Awaiting may be repeated. */
  lemma RefusedIffTaken(s: Stream, events: seq<Event>, k: nat)
    requires s.claim == Unclaimed && k < |AskedIn(s, events)|
    ensures !AskedIn(s, events)[k].granted <==> Taken(AskedIn(s, events), k)
  {
    hide ClaimTells;
    assert ClaimTells([], s.claim) by { NothingAsked(); }
    AskedSoFar([], s, events);
    assert [] + AskedIn(s, events) == AskedIn(s, events);
  }

  lemma NothingAsked()
    ensures ClaimTells([], Unclaimed) && OneConsumer([])
  {
  }

  /** Once an await was granted, every later one is, and is given the same answer: the one that is settled by then,
      or, while nothing has come, the one still awaited. */
  lemma EveryAwaitAgrees(s: Stream, events: seq<Event>)
    requires Consistent(s) && Settled(s) && Await(s).Some?
    ensures var first := Await(s).value;
            var later := Live(first, events);
            && Await(later).Some? && Await(later).value == later
            && (first.answer.Waiting? || later.answer == first.answer)
            && !later.answer.NotAsked?
  {
    hide Consistent, Settled, AnswerNow;
    var first := Await(s).value;
    HappenKeepsConsistent(s, Awaited);
    HappenKeepsSettled(s, Awaited);
    AnswerNowIsSome(s.(claim := ForAwait));
    AnswerIsMemoized(first, events);
    ClaimedForAwait(first, events);
  }

  lemma AnswerNowIsSome(s: Stream)
    ensures !AnswerNow(s).NotAsked?
  {
  }

  lemma {:induction false} ClaimedForAwait(s: Stream, events: seq<Event>)
    requires s.claim == ForAwait && !s.answer.NotAsked?
    ensures Live(s, events).claim == ForAwait && !Live(s, events).answer.NotAsked?
    decreases |events|
  {
    hide Happen;
    if events != [] {
      StaysAwaited(s, events[0]);
      ClaimedForAwait(Happen(s, events[0]), events[1..]);
    }
  }

  lemma StaysAwaited(s: Stream, e: Event)
    requires s.claim == ForAwait && !s.answer.NotAsked?
    ensures Happen(s, e).claim == ForAwait && !Happen(s, e).answer.NotAsked?
  {
    hide AnswerNow;
    match e
    case Arrived(_) =>
    case RemoteEnded(_) =>
    case LocalEnded =>
    case Failed(_) =>
    case _ =>
  }

  /** On a stream that is never reset an await, whenever it happens, gets the first accepted payload, and
      an error only when the stream ended with none. */
  lemma AwaitGetsTheFirstPayload(s: Stream, events: seq<Event>)
    requires Consistent(s) && Settled(s) && !Live(s, events).cause.ByReset?
    ensures var end := Live(s, events);
            && (end.answer.Resolved? ==>
                Accepted(end.queue) != [] && end.answer.value == Accepted(end.queue)[0])
            && (end.answer.Rejected? ==> end.answer.why == NoPayload && Accepted(end.queue) == [])
            && (end.answer.Waiting? ==> end.queue == [])
  {
    LiveKeepsConsistent(s, events);
    AnswerIsMemoized(s, events);
    SettledByFirst(Live(s, events));
  }

  lemma SettledByFirst(s: Stream)
    requires Consistent(s) && Settled(s) && !s.cause.ByReset?
    ensures s.answer.Resolved? ==> Accepted(s.queue) != [] && s.answer.value == Accepted(s.queue)[0]
    ensures s.answer.Rejected? ==> s.answer.why == NoPayload && Accepted(s.queue) == []
    ensures s.answer.Waiting? ==> s.queue == []
  {
    EndsLastIterates(s.queue);
  }

  /** A first await made after payload-then-reset sees the reset, though a payload had arrived; one made
      before the reset sees the payload. */
  lemma FirstAwaitAfterReset(s: Stream, v: Value, code: int)
    requires s.state == Open && s.cause.NotEnded? && s.queue == [] && s.read == 0
    requires s.claim == Unclaimed && s.answer.NotAsked?
    ensures Live(s, [Arrived(v), Failed(code), Awaited]).answer == Rejected(WasReset(code))
    ensures Live(s, [Arrived(v), Awaited, Failed(code)]).answer == Resolved(v)
  {
    var arrived := Happen(s, Arrived(v));
    LiveThree(s, Arrived(v), Failed(code), Awaited);
    LiveThree(s, Arrived(v), Awaited, Failed(code));
    assert arrived.queue == [Payload(v)];
  }

  lemma LiveThree(s: Stream, a: Event, b: Event, c: Event)
    ensures Live(s, [a, b, c]) == Happen(Happen(Happen(s, a), b), c)
  {
    hide Happen;
    assert [a, b, c][1..] == [b, c] && [b, c][1..] == [c] && [c][1..] == [];
    var second := Happen(Happen(s, a), b);
    assert Live(second, [c]) == Live(Happen(second, c), []);
  }
}
