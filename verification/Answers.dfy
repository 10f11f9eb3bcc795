/** What an application that consumes a stream is given, over whole runs of a peer in which awaits, iterations and
    notifications come between everything else that happens. */
module Answers {
  import opened Frames
  import opened PeerModel
  import opened PeerInvariant
  import opened Lives
  import S = StreamModel

  /** Anything that happens to a peer, or what a consumer does with one of its streams. */
  datatype Call = Does(action: Action) | Consumes(stream: nat, event: S.Event)

  predicate ByConsumer(e: S.Event) { e.Awaited? || e.IterationBegun? || e.Pulled? || e.Notified? }

  function Heed(p: Peer, c: Call, cfg: Config): Peer {
    match c
    case Does(a) => Act(p, a, cfg)
    case Consumes(x, e) =>
      if x in p.objects && ByConsumer(e) then p.(objects := p.objects[x := S.Happen(p.objects[x], e)]) else p
  }

  function HeedAll(p: Peer, calls: seq<Call>, cfg: Config): Peer
    decreases |calls|
  {
    if calls == [] then p else HeedAll(Heed(p, calls[0], cfg), calls[1..], cfg)
  }

  /** The payloads brought to stream `id`, in order. */
  function BroughtBy(p: Peer, calls: seq<Call>, id: nat, cfg: Config): seq<Value>
    decreases |calls|
  {
    if calls == [] then []
    else
      (if calls[0].Does? then Brings(p, calls[0].action, id, cfg) else [])
      + BroughtBy(Heed(p, calls[0], cfg), calls[1..], id, cfg)
  }

  predicate On(p: Peer, c: Call, id: nat) {
    c.Consumes? && c.stream == id && ByConsumer(c.event) && id in p.objects
  }

  /** The uses that stream `id` was asked for, and which were granted. */
  function UsesOf(p: Peer, calls: seq<Call>, id: nat, cfg: Config): seq<S.Asked>
    decreases |calls|
  {
    if calls == [] then []
    else
      (if On(p, calls[0], id) then S.AskedBy(p.objects[id], calls[0].event) else [])
      + UsesOf(Heed(p, calls[0], cfg), calls[1..], id, cfg)
  }

  /** What the iterator of stream `id` was handed, in order. */
  function HandedBy(p: Peer, c: Call, id: nat): seq<S.Item> {
    if On(p, c, id) && c.event.Pulled? && p.objects[id].claim == S.ForIterate && S.Pull(p.objects[id]).1.Some?
    then [S.Pull(p.objects[id]).1.value] else []
  }

  function HandedOut(p: Peer, calls: seq<Call>, id: nat, cfg: Config): seq<S.Item>
    decreases |calls|
  {
    if calls == [] then [] else HandedBy(p, calls[0], id) + HandedOut(Heed(p, calls[0], cfg), calls[1..], id, cfg)
  }

  // ------------------------------------------------------------ one call

  /** What every call keeps. */
  ghost predicate Minded(p: Peer, cfg: Config) {
    Able(p, cfg) && forall x :: x in p.objects ==> Answering(p.objects[x])
  }

  lemma ConsumedKept(p: Peer, x: nat, s: S.Stream, e: S.Event, cfg: Config)
    requires Kept(p, x, s, cfg) && ByConsumer(e)
    ensures Kept(p, x, S.Happen(s, e), cfg)
    ensures S.Happen(s, e).state == s.state && S.Happen(s, e).local == s.local && S.Happen(s, e).queue == s.queue
  {
    hide S.Consistent, S.AnswerNow;
    S.HappenKeepsConsistent(s, e);
  }

  lemma ConsumedSound(p: Peer, x: nat, e: S.Event, cfg: Config)
    requires Sound(p, cfg) && x in p.objects && ByConsumer(e)
    ensures Sound(Heed(p, Consumes(x, e), cfg), cfg) && RemoteLive(Heed(p, Consumes(x, e), cfg)) == RemoteLive(p)
  {
    hide Kept, S.Happen, Sound;
    SoundKeeps(p, x, cfg);
    ConsumedKept(p, x, p.objects[x], e, cfg);
    var t := S.Happen(p.objects[x], e);
    PutSound(p, x, t, cfg);
    assert x !in p.live ==> p.live - {x} == p.live;
    assert Heed(p, Consumes(x, e), cfg) == Put(p, x, t);
  }

  lemma ConsumedAnswers(s: S.Stream, e: S.Event)
    requires S.Consistent(s) && Answering(s) && ByConsumer(e)
    ensures var t := S.Happen(s, e);
            && Answering(t) && t.queue == s.queue
            && (!s.answer.NotAsked? && !s.answer.Waiting? ==> t.answer == s.answer)
  {
    hide S.Consistent, S.Settled, S.AnswerNow;
    S.HappenKeepsSettled(s, e);
  }

  /** A call keeps what is kept, brings what it brings, and leaves every settled answer as it is. */
  lemma HeedMinds(p: Peer, c: Call, id: nat, cfg: Config)
    requires Minded(p, cfg)
    ensures Minded(Heed(p, c, cfg), cfg)
    ensures AcceptedOn(Heed(p, c, cfg), id) == AcceptedOn(p, id)
      + (if c.Does? then Brings(p, c.action, id, cfg) else [])
    ensures id in p.objects ==> id in Heed(p, c, cfg).objects
    ensures id in p.objects && !p.objects[id].answer.NotAsked? && !p.objects[id].answer.Waiting? ==>
              Heed(p, c, cfg).objects[id].answer == p.objects[id].answer
  {
    hide Sound, Act, Brings, Answering, Continues, S.Happen, S.Accepted;
    match c
    case Does(a) =>
      var opens := ActMarks(p, a, cfg);
      StepAccepts(p, a, id, cfg);
      ActLives(p, a, cfg);
    case Consumes(x, e) =>
      if x in p.objects && ByConsumer(e) {
        ConsumedSound(p, x, e, cfg);
        SoundConsistent(p, x, cfg);
        ConsumedAnswers(p.objects[x], e);
      }
  }

  lemma SoundConsistent(p: Peer, x: nat, cfg: Config)
    requires Sound(p, cfg) && x in p.objects
    ensures S.Consistent(p.objects[x])
  {
    hide S.Consistent;
    assert Kept(p, x, p.objects[x], cfg);
  }

  // ------------------------------------------------------------ every run

  lemma {:induction false} RunMinds(p: Peer, calls: seq<Call>, id: nat, cfg: Config)
    requires Minded(p, cfg)
    ensures Minded(HeedAll(p, calls, cfg), cfg)
    ensures AcceptedOn(HeedAll(p, calls, cfg), id) == AcceptedOn(p, id) + BroughtBy(p, calls, id, cfg)
    ensures id in p.objects ==> id in HeedAll(p, calls, cfg).objects
    ensures id in p.objects && !p.objects[id].answer.NotAsked? && !p.objects[id].answer.Waiting? ==>
              HeedAll(p, calls, cfg).objects[id].answer == p.objects[id].answer
    decreases |calls|
  {
    hide Minded, Heed, Brings, AcceptedOn;
    if calls != [] {
      HeedMinds(p, calls[0], id, cfg);
      RunMinds(Heed(p, calls[0], cfg), calls[1..], id, cfg);
    }
  }

  lemma NewMinded(dialer: bool, cfg: Config)
    ensures Minded(NewPeer(dialer), cfg)
  {
    hide Able;
    NewAble(dialer, cfg);
  }

  /** In every run of a peer, whatever its remote sends and whenever its streams are awaited: an await of a stream that
      was not reset gets the first payload brought to it; it fails only when the stream ended with none, and waits only
      while nothing has come. */
  lemma AwaitsGetWhatArrivedFirst(dialer: bool, calls: seq<Call>, id: nat, cfg: Config)
    requires id in HeedAll(NewPeer(dialer), calls, cfg).objects
    requires !HeedAll(NewPeer(dialer), calls, cfg).objects[id].cause.ByReset?
    ensures var brought := BroughtBy(NewPeer(dialer), calls, id, cfg);
            match HeedAll(NewPeer(dialer), calls, cfg).objects[id].answer
            case NotAsked => true
            case Waiting => brought == []
            case Resolved(v) => brought != [] && v == brought[0]
            case Rejected(why) => brought == [] && why == S.NoPayload
  {
    hide HeedAll, BroughtBy, Sound, Bounded, S.Consistent, S.Settled;
    NewMinded(dialer, cfg);
    RunMinds(NewPeer(dialer), calls, id, cfg);
    var p := HeedAll(NewPeer(dialer), calls, cfg);
    SoundConsistent(p, id, cfg);
    assert Answering(p.objects[id]);
    S.SettledByFirst(p.objects[id]);
    assert AcceptedOn(NewPeer(dialer), id) == [];
  }

  /** An answer that is settled at some moment of a run is the answer ever after. */
  lemma AnswersStay(dialer: bool, calls: seq<Call>, later: seq<Call>, id: nat, cfg: Config)
    requires var p := HeedAll(NewPeer(dialer), calls, cfg);
             id in p.objects && !p.objects[id].answer.NotAsked? && !p.objects[id].answer.Waiting?
    ensures var p := HeedAll(NewPeer(dialer), calls, cfg);
            var p' := HeedAll(p, later, cfg);
            id in p'.objects && p'.objects[id].answer == p.objects[id].answer
  {
    hide HeedAll, BroughtBy, Minded;
    NewMinded(dialer, cfg);
    RunMinds(NewPeer(dialer), calls, id, cfg);
    RunMinds(HeedAll(NewPeer(dialer), calls, cfg), later, id, cfg);
  }

  // ------------------------------------------------------------ one consumer

  /** The claim of stream `id` tells the uses it was asked for, and its iterator has taken the front of its queue. */
  ghost predicate Tells(p: Peer, id: nat, asked: seq<S.Asked>, handed: seq<S.Item>) {
    && S.OneConsumer(asked)
    && (id !in p.objects ==> asked == [] && handed == [])
    && (id in p.objects ==>
        && S.ClaimTells(asked, p.objects[id].claim)
        && p.objects[id].read == |handed| && handed <= p.objects[id].queue)
  }

  lemma HeedTells(p: Peer, c: Call, id: nat, asked: seq<S.Asked>, handed: seq<S.Item>, cfg: Config)
    requires Minded(p, cfg) && Tells(p, id, asked, handed)
    ensures Tells(Heed(p, c, cfg), id, asked + (if On(p, c, id) then S.AskedBy(p.objects[id], c.event) else []),
                  handed + HandedBy(p, c, id))
  {
    hide Sound, Act, Brings, Answering, S.Happen, S.Accepted, S.OneConsumer, S.ClaimTells, S.AskedBy;
    assert asked + [] == asked && handed + [] == handed;
    match c
    case Does(a) =>
      ActLives(p, a, cfg);
      S.NothingAsked();
    case Consumes(x, e) =>
      if On(p, c, id) {
        var s := p.objects[id];
        S.AskOnce(asked, s, e);
        ConsumerReads(s, e);
      }
  }

  /** Only a granted `get` takes an item, and it takes the next. */
  lemma ConsumerReads(s: S.Stream, e: S.Event)
    requires ByConsumer(e)
    ensures S.Happen(s, e).queue == s.queue
    ensures S.Happen(s, e).read
         == if e.Pulled? && s.claim == S.ForIterate && s.read < |s.queue| then s.read + 1 else s.read
  {
    hide S.AnswerNow;
    match e
    case Awaited =>
    case IterationBegun =>
    case _ =>
  }

  lemma {:induction false} RunTells(p: Peer, calls: seq<Call>, id: nat, asked: seq<S.Asked>, handed: seq<S.Item>,
                                    cfg: Config)
    requires Minded(p, cfg) && Tells(p, id, asked, handed)
    ensures Tells(HeedAll(p, calls, cfg), id, asked + UsesOf(p, calls, id, cfg), handed + HandedOut(p, calls, id, cfg))
    decreases |calls|
  {
    hide Minded, Heed, Tells, HandedBy, S.AskedBy;
    assert asked + [] == asked && handed + [] == handed;
    if calls != [] {
      var uses := if On(p, calls[0], id) then S.AskedBy(p.objects[id], calls[0].event) else [];
      var items := HandedBy(p, calls[0], id);
      HeedMinds(p, calls[0], id, cfg);
      HeedTells(p, calls[0], id, asked, handed, cfg);
      var next := Heed(p, calls[0], cfg);
      RunTells(next, calls[1..], id, asked + uses, handed + items, cfg);
      assert asked + (uses + UsesOf(next, calls[1..], id, cfg)) == (asked + uses) + UsesOf(next, calls[1..], id, cfg);
      assert handed + (items + HandedOut(next, calls[1..], id, cfg))
          == (handed + items) + HandedOut(next, calls[1..], id, cfg);
    }
  }

  lemma NewTells(dialer: bool, calls: seq<Call>, id: nat, cfg: Config)
    ensures Tells(HeedAll(NewPeer(dialer), calls, cfg), id, UsesOf(NewPeer(dialer), calls, id, cfg),
                  HandedOut(NewPeer(dialer), calls, id, cfg))
  {
    hide HeedAll, UsesOf, HandedOut, Minded;
    NewMinded(dialer, cfg);
    S.NothingAsked();
    RunTells(NewPeer(dialer), calls, id, [], [], cfg);
    assert [] + UsesOf(NewPeer(dialer), calls, id, cfg) == UsesOf(NewPeer(dialer), calls, id, cfg);
    assert [] + HandedOut(NewPeer(dialer), calls, id, cfg) == HandedOut(NewPeer(dialer), calls, id, cfg);
  }

  /** In every run, a use of a stream is refused if and only if one of another kind was granted before it, or one was
      granted and both are iterations. */
  lemma RefusedIffTaken(dialer: bool, calls: seq<Call>, id: nat, k: nat, cfg: Config)
    requires k < |UsesOf(NewPeer(dialer), calls, id, cfg)|
    ensures var uses := UsesOf(NewPeer(dialer), calls, id, cfg);
            !uses[k].granted <==> S.Taken(uses, k)
  {
    hide HeedAll, UsesOf, HandedOut;
    NewTells(dialer, calls, id, cfg);
  }

  /** In every run, the items that a stream's iterator was handed are the first that arrived, each once and in order:
      their payloads a prefix of what inbound `data` brought; and a `get` waits only when all of them were handed. */
  lemma IteratorGetsWhatArrived(dialer: bool, calls: seq<Call>, id: nat, cfg: Config)
    ensures S.Accepted(HandedOut(NewPeer(dialer), calls, id, cfg)) <= BroughtBy(NewPeer(dialer), calls, id, cfg)
    ensures id in HeedAll(NewPeer(dialer), calls, cfg).objects ==>
              var handed, s := HandedOut(NewPeer(dialer), calls, id, cfg),
                  HeedAll(NewPeer(dialer), calls, cfg).objects[id];
              && handed <= s.queue
              && S.Pull(s).1 == (if |handed| == |s.queue| then None else Some(s.queue[|handed|]))
  {
    hide HeedAll, UsesOf, HandedOut, BroughtBy, Minded, S.OneConsumer, S.ClaimTells;
    NewTells(dialer, calls, id, cfg);
    NewMinded(dialer, cfg);
    RunMinds(NewPeer(dialer), calls, id, cfg);
    assert AcceptedOn(NewPeer(dialer), id) == [];
    var p := HeedAll(NewPeer(dialer), calls, cfg);
    if id in p.objects {
      AcceptedPrefix(HandedOut(NewPeer(dialer), calls, id, cfg), p.objects[id].queue);
    }
  }

  lemma {:induction false} AcceptedPrefix(front: seq<S.Item>, queue: seq<S.Item>)
    requires front <= queue
    ensures S.Accepted(front) <= S.Accepted(queue)
    decreases |front|
  {
    if front != [] {
      AcceptedPrefix(front[1..], queue[1..]);
    }
  }

  /** In every run, once an await of a stream was granted every later one is, whatever happens in between, and is given
      the same answer: the one settled by then, or the one both still wait for. */
  lemma EveryAwaitAgrees(p: Peer, calls: seq<Call>, id: nat, cfg: Config)
    requires Minded(p, cfg) && id in p.objects && S.Await(p.objects[id]).Some?
    ensures var first := S.Await(p.objects[id]).value;
            var q := HeedAll(Heed(p, Consumes(id, S.Awaited), cfg), calls, cfg);
            && id in q.objects
            && S.Await(q.objects[id]) == Some(q.objects[id])
            && (first.answer.Waiting? || q.objects[id].answer == first.answer)
  {
    hide Minded, HeedAll, BroughtBy, S.AnswerNow;
    var asked := Heed(p, Consumes(id, S.Awaited), cfg);
    HeedMinds(p, Consumes(id, S.Awaited), id, cfg);
    S.AnswerNowIsSome(p.objects[id].(claim := S.ForAwait));
    assert asked.objects[id] == S.Await(p.objects[id]).value;
    RunMinds(asked, calls, id, cfg);
    StaysAwaited(asked, calls, id, cfg);
  }

  ghost predicate IsAwaited(p: Peer, id: nat) {
    id in p.objects && p.objects[id].claim == S.ForAwait && !p.objects[id].answer.NotAsked?
  }

  lemma {:induction false} StaysAwaited(p: Peer, calls: seq<Call>, id: nat, cfg: Config)
    requires Minded(p, cfg) && IsAwaited(p, id)
    ensures IsAwaited(HeedAll(p, calls, cfg), id)
    decreases |calls|
  {
    hide Minded, Heed, IsAwaited;
    if calls != [] {
      HeedMinds(p, calls[0], id, cfg);
      HeedAwaited(p, calls[0], id, cfg);
      StaysAwaited(Heed(p, calls[0], cfg), calls[1..], id, cfg);
    }
  }

  lemma HeedAwaited(p: Peer, c: Call, id: nat, cfg: Config)
    requires Minded(p, cfg) && IsAwaited(p, id)
    ensures IsAwaited(Heed(p, c, cfg), id)
  {
    hide Sound, Act, Brings, S.Happen, S.Accepted;
    match c
    case Does(a) => ActLives(p, a, cfg);
    case Consumes(x, e) => S.StaysAwaited(p.objects[id], e);
  }
}
