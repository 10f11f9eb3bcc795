/** The consumer's half of the TypeScript port's stream: a payload queue that hands an item straight to a
    `get` that waits, and a promise made in the constructor, with two flags where the Python port has a
    future made by the first await.  Both ports are one stream to their consumer. */
module StreamPort {
  import opened Frames
  import opened StreamModel

  /** The iteration buffer: `get` takes a ticket, a promise that is resolved now or by a later `put`. */
  class PayloadQueue {
    var items: seq<Item>
    var waiters: seq<nat>
    var resolved: map<nat, Item>
    var gets: nat
    ghost var puts: seq<Item>

    /** How many gets have their item. */
    ghost function Served(): int
      reads this
    {
      |puts| - |items|
    }

    /** The item of the k-th `get` is the k-th `put`, and it is there as soon as both have been made. */
    ghost predicate Valid()
      reads this
    {
      && |items| <= |puts| && items == puts[Served()..]
      && Served() + |waiters| == gets
      && (waiters != [] ==> items == [])
      && (forall i :: 0 <= i < |waiters| ==> waiters[i] == Served() + i)
      && (forall k: nat :: k in resolved <==> k < Served())
      && (forall k: nat :: k < Served() ==> resolved[k] == puts[k])
    }

    constructor ()
      ensures Valid() && puts == [] && gets == 0
    {
      items, waiters, resolved, gets, puts := [], [], map[], 0, [];
    }

    /** The item the next `Get` would have; the queue stays. */
    method Peek() returns (head: Option<Item>)
      requires Valid()
      ensures head == if Served() < |puts| then Some(puts[Served()]) else None
    {
      head := if items == [] then None else Some(items[0]);
    }

    method Put(item: Item)
      requires Valid()
      modifies this
      ensures Valid() && puts == old(puts) + [item] && gets == old(gets)
      ensures Served() == old(Served()) + (if old(|puts|) < gets then 1 else 0)
    {
      puts := puts + [item];
      if waiters != [] {
        var ticket := waiters[0];
        waiters := waiters[1..];
        resolved := resolved[ticket := item];
        assert items == puts[|puts|..];
        return;
      }
      items := items + [item];
    }

    method Get() returns (ticket: nat)
      requires Valid()
      modifies this
      ensures Valid() && puts == old(puts) && ticket == old(gets) && gets == old(gets) + 1
      ensures ticket in resolved <==> ticket < |puts|
      ensures ticket < |puts| ==> resolved[ticket] == puts[ticket]
      ensures Served() == old(Served()) + (if old(gets) < |puts| then 1 else 0)
    {
      ticket := gets;
      gets := gets + 1;
      if items != [] {
        resolved := resolved[ticket := items[0]];
        items := items[1..];
        return;
      }
      waiters := waiters + [ticket];
    }
  }

  class StreamConsumer {
    const queue: PayloadQueue
    var state: State
    var cause: Cause
    var claim: Claim
    var requested: bool
    var settled: bool
    var outcome: Answer

    ghost predicate Valid()
      reads this, queue
    {
      queue.Valid() && (settled ==> requested) && (settled ==> outcome.Resolved? || outcome.Rejected?)
    }

    ghost function AnswerOf(): Answer
      reads this
    {
      if !requested then NotAsked else if !settled then Waiting else outcome
    }

    /** This object shows its consumer what `s` does.  An item counts as read once a `get` has it. */
    ghost predicate Shows(s: Stream)
      reads this, queue
    {
      && Valid() && state == s.state && cause == s.cause && claim == s.claim
      && queue.puts == s.queue && queue.Served() == s.read && AnswerOf() == s.answer
    }

    constructor (state: State)
      ensures forall id, local, headers, payload :: Shows(NewStream(id, local, state, headers, payload))
      ensures fresh(queue)
    {
      this.state, cause, claim := state, NotEnded, Unclaimed;
      requested, settled, outcome := false, false, NotAsked;
      queue := new PayloadQueue();
    }

    /** What `s` is once the iterator has what was put for it, when it waits. */
    ghost function HandedOn(s: Stream): Stream
      reads queue
    {
      if s.read < queue.gets then Pull(s).0 else s
    }

    method AcceptPayload(v: Value, ghost s: Stream)
      requires Shows(s)
      modifies this`settled, this`outcome, queue
      ensures Shows(old(HandedOn(StreamModel.AcceptPayload(s, v))))
    {
      if requested {
        SettleAnswer(Resolved(v));
      }
      queue.Put(Payload(v));
    }

    method SettleAnswer(answer: Answer)
      modifies this`settled, this`outcome
      ensures old(settled) ==> outcome == old(outcome)
      ensures !old(settled) ==> outcome == answer
      ensures settled
    {
      if !settled {
        settled, outcome := true, answer;
      }
    }

    method FailAnswer(why: Rejection)
      requires Valid()
      modifies this`settled, this`outcome
      ensures Valid() && AnswerOf() == Reject(old(AnswerOf()), why)
    {
      if requested {
        SettleAnswer(Rejected(why));
      }
    }

    method CloseNormally(ghost s: Stream)
      requires Shows(s)
      modifies this, queue
      ensures Shows(old(HandedOn(StreamModel.CloseNormally(s))))
    {
      state := Closed;
      cause := Normally;
      queue.Put(End);
      FailAnswer(NoPayload);
    }

    method RemoteEnd(trailers: Option<Fields>, ghost s: Stream)
      requires Shows(s)
      modifies this, queue
      ensures Shows(if s.state == Closed then StreamModel.RemoteEnd(s, trailers)
                    else old(HandedOn(StreamModel.RemoteEnd(s, trailers))))
    {
      hide Shows, HandedOn, StreamModel.CloseNormally;
      ghost var noted := if trailers.Some? then s.(trailers := trailers) else s;
      ShowsState(s);
      NotedShows(s, trailers);
      if state == HalfClosedLocal {
        CloseNormally(noted);
      } else if state != Closed {
        HalfCloseRemote(noted);
      }
    }

    lemma ShowsState(s: Stream)
      requires Shows(s)
      ensures state == s.state
    {
    }

    lemma NotedShows(s: Stream, trailers: Option<Fields>)
      requires Shows(s)
      ensures Shows(s.(trailers := trailers))
    {
    }

    method HalfCloseRemote(ghost s: Stream)
      requires Shows(s)
      modifies this, queue
      ensures Shows(old(HandedOn(s.(state := HalfClosedRemote, queue := s.queue + [End],
                                    answer := Reject(s.answer, NoPayload)))))
    {
      state := HalfClosedRemote;
      queue.Put(End);
      FailAnswer(NoPayload);
    }

    method LocalEnd(ghost s: Stream)
      requires Shows(s)
      modifies this, queue
      ensures Shows(if s.state == HalfClosedRemote then old(HandedOn(StreamModel.LocalEnd(s)))
                    else StreamModel.LocalEnd(s))
    {
      if state == HalfClosedRemote {
        CloseNormally(s);
      } else {
        state := HalfClosedLocal;
      }
    }

    method Fail(code: int, ghost s: Stream)
      requires Shows(s)
      modifies this, queue
      ensures Shows(if s.state == Closed then s else old(HandedOn(StreamModel.Fail(s, code))))
    {
      hide Shows, HandedOn, StreamModel.Fail;
      ShowsState(s);
      if state != Closed {
        FailFirst(code, s);
      }
    }

    method FailFirst(code: int, ghost s: Stream)
      requires Shows(s) && s.state != Closed
      modifies this, queue
      ensures Shows(old(HandedOn(StreamModel.Fail(s, code))))
    {
      state := Closed;
      cause := ByReset(code);
      FailAnswer(WasReset(code));
      queue.Put(Failure(code));
    }

    method ClaimIt(use: Claim, ghost s: Stream) returns (claimed: bool)
      requires Shows(s)
      modifies this`claim
      ensures claimed == ClaimFor(s, use).Some?
      ensures Shows(if claimed then ClaimFor(s, use).value else s)
    {
      if claim != Unclaimed && claim != use {
        return false;
      }
      if claim == ForIterate && use == ForIterate {
        return false;
      }
      claim := use;
      return true;
    }

    /** `then` and `result`: the first one settles the promise from what has arrived. */
    method AwaitAnswer(ghost s: Stream) returns (claimed: bool)
      requires Shows(s)
      modifies this
      ensures claimed == Await(s).Some?
      ensures Shows(if claimed then Await(s).value else s)
    {
      hide Shows, AnswerNow;
      claimed := ClaimIt(ForAwait, s);
      if !claimed {
        return;
      }
      ghost var now := ClaimFor(s, ForAwait).value;
      ShowsAnswer(now);
      if !requested {
        Request(now);
        ResolveFromCurrentState(now.(answer := Waiting));
        AnswerNowIgnoresAnswer(now);
      }
    }

    static lemma AnswerNowIgnoresAnswer(s: Stream)
      ensures AnswerNow(s.(answer := Waiting)) == AnswerNow(s)
    {
    }

    lemma ShowsAnswer(s: Stream)
      requires Shows(s)
      ensures requested <==> !s.answer.NotAsked?
    {
    }

    method Request(ghost s: Stream)
      requires Shows(s) && s.answer.NotAsked?
      modifies this`requested
      ensures Shows(s.(answer := Waiting))
    {
      requested := true;
    }

    /** Settle the promise from what has arrived. */
    method ResolveFromCurrentState(ghost s: Stream)
      requires Shows(s) && s.answer.Waiting?
      modifies this`settled, this`outcome
      ensures Shows(s.(answer := AnswerNow(s)))
    {
      if cause.ByReset? {
        SettleAnswer(Rejected(WasReset(cause.code)));
        return;
      }
      var head := queue.Peek();
      if head.Some? {
        match head.value {
          case Payload(v) => SettleAnswer(Resolved(v));
          case End => SettleAnswer(Rejected(NoPayload));
          case Failure(code) => SettleAnswer(Rejected(WasReset(code)));
        }
      }
    }

    /** One `get` of the iterator: its item is the model's next, or it waits where the model has none. */
    method Next(ghost s: Stream) returns (ticket: nat)
      requires Shows(s) && queue.gets == s.read
      modifies queue
      ensures Shows(Pull(s).0)
      ensures if Pull(s).1.Some? then ticket in queue.resolved && Some(queue.resolved[ticket]) == Pull(s).1
              else ticket !in queue.resolved && queue.gets == s.read + 1
    {
      ticket := queue.Get();
    }
  }
}
