/** One stream as the object the source keeps: its methods are proved to do what the functions of
    StreamModel say. */
module StreamObject {
  import opened Frames
  import opened Codecs
  import opened StreamModel
  import A = Assembly

  class StreamHandle {
    const id: nat
    const local: bool
    const assembler: A.Assembler
    var state: State
    var cause: Cause
    var opening: bool
    var headers: Option<Fields>
    var payload: Option<Value>
    var replyHeaders: Option<Fields>
    var trailers: Option<Fields>
    var sentAFrame: bool
    var receivedAFrame: bool
    var queue: seq<Item>
    var read: nat
    var claim: Claim
    var answer: Answer
    var started: bool

    function Model(): Stream
      reads this, assembler
    {
      Stream(id, local, state, cause, opening, assembler.Model(), headers, payload, replyHeaders, trailers, sentAFrame,
             receivedAFrame, queue, read, claim, answer, started)
    }

    constructor (id: nat, local: bool, state: State, headers: Option<Fields>, payload: Option<Value>)
      ensures Model() == NewStream(id, local, state, headers, payload) && fresh(assembler)
    {
      this.id, this.local, this.state, this.headers, this.payload := id, local, state, headers, payload;
      cause, opening, replyHeaders, trailers := NotEnded, false, None, None;
      sentAFrame, receivedAFrame := local, !local;
      queue, read, claim, answer, started := [], 0, Unclaimed, NotAsked, false;
      assembler := new A.Assembler();
    }

    // ------------------------------------------------------------ receiving

    /** Only a first frame leaves headers behind; `allowed` is whether a correct remote could have sent this one. */
    method NoteRemote(leading: Option<Fields>) returns (allowed: bool)
      modifies this
      ensures (Model(), allowed) == NoteRemoteFrame(old(Model()), leading)
    {
      var first := !receivedAFrame;
      receivedAFrame := true;
      if !first {
        return leading.None?;
      }
      if local && leading.Some? {
        replyHeaders := leading;
      }
      return true;
    }

    method Accept(v: Value)
      modifies this
      ensures Model() == AcceptPayload(old(Model()), v)
    {
      if answer.Waiting? {
        answer := Resolved(v);
      }
      queue := queue + [Payload(v)];
    }

    /** At most one of the calls that settle an answer has any effect. */
    method FailAnswer(why: Rejection)
      modifies this`answer
      ensures answer == Reject(old(answer), why)
    {
      if answer.Waiting? {
        answer := Rejected(why);
      }
    }

    method CloseNormal()
      modifies this
      ensures Model() == CloseNormally(old(Model()))
    {
      state := Closed;
      cause := Normally;
      queue := queue + [End];
      FailAnswer(NoPayload);
    }

    method EndRemote(last: Option<Fields>)
      modifies this
      ensures Model() == RemoteEnd(old(Model()), last)
    {
      if last.Some? {
        trailers := last;
      }
      if state == HalfClosedLocal {
        CloseNormal();
      } else if state != Closed {
        state := HalfClosedRemote;
        queue := queue + [End];
        FailAnswer(NoPayload);
      }
    }

    method EndLocal()
      modifies this
      ensures Model() == LocalEnd(old(Model()))
    {
      if state == HalfClosedRemote {
        CloseNormal();
      } else {
        state := HalfClosedLocal;
      }
    }

    /** The first failure wins, and empties the buffer. */
    method FailWith(code: int)
      modifies this, assembler
      ensures Model() == Fail(old(Model()), code)
    {
      if state == Closed {
        return;
      }
      state := Closed;
      cause := ByReset(code);
      assembler.Reset();
      FailAnswer(WasReset(code));
      queue := queue + [Failure(code)];
    }

    /** Nothing but the buffer changes. */
    method TakeIn(frame: Frame, codec: Codec) returns (fed: A.Fed)
      modifies assembler
      ensures var (partial, result) := A.Feed(old(Model()).partial, frame, codec);
              fed == result && Model() == old(Model()).(partial := partial)
    {
      hide A.Feed;
      fed := assembler.FeedFrame(frame, codec);
    }

    method DropPartial()
      modifies assembler
      ensures Model() == old(Model()).(partial := A.NOTHING)
    {
      assembler.Reset();
    }

    /** Its opening payload comes in fragments. */
    method BeginOpening()
      modifies this`opening
      ensures Model() == old(Model()).(opening := true)
    {
      opening := true;
    }

    /** No end item is queued here, whatever `ended` is. */
    method Complete(whole: Option<Value>, ended: bool)
      modifies this
      ensures Model() == old(Model()).(opening := false, payload := whole, state := if ended then HalfClosedRemote
                                       else old(Model()).state)
    {
      opening := false;
      payload := whole;
      if ended {
        state := HalfClosedRemote;
      }
    }

    /** From here on the stream counts as processed. */
    method Start()
      modifies this`started
      ensures Model() == old(Model()).(started := true)
    {
      started := true;
    }

    // ------------------------------------------------------------ sending

    /** The checks of `send`, `send_headers` and `end`, and what the first frame leaves behind.  `false` is
        where the source raises. */
    method Sending(leading: Option<Fields>, end: bool) returns (sendable: bool)
      modifies this
      ensures sendable == MaySend(old(Model()), leading)
      ensures Model() == if sendable
                         then (var noted := NoteSent(old(Model()), leading); if end then LocalEnd(noted) else noted)
                         else old(Model())
    {
      if !cause.NotEnded? || state == HalfClosedLocal {
        return false;
      }
      if leading.Some? && sentAFrame {
        return false;
      }
      sentAFrame := true;
      if !local && leading.Some? {
        replyHeaders := leading;
      }
      if end {
        EndLocal();
      }
      return true;
    }

    // ------------------------------------------------------------ consuming

    /** `false` where the source raises StreamAlreadyConsumed. */
    method ClaimIt(use: Claim) returns (claimed: bool)
      modifies this`claim
      ensures claimed == ClaimFor(old(Model()), use).Some?
      ensures Model() == if claimed then ClaimFor(old(Model()), use).value else old(Model())
    {
      if claim != Unclaimed && claim != use {
        return false;
      }
      if claim == ForIterate && use == ForIterate {
        return false;
      }
      claim := use;
      return true;
    }

    /** `await stream`: the one future is created by the first call, and settled from what has arrived. */
    method AwaitAnswer() returns (claimed: bool)
      modifies this
      ensures claimed == Await(old(Model())).Some?
      ensures Model() == if claimed then Await(old(Model())).value else old(Model())
    {
      claimed := ClaimIt(ForAwait);
      if !claimed || !answer.NotAsked? {
        return claimed;
      }
      answer := Waiting;
      if cause.ByReset? {
        answer := Rejected(WasReset(cause.code));
      } else if read < |queue| {
        match queue[read] {
          case Payload(v) => answer := Resolved(v);
          case End => answer := Rejected(NoPayload);
          case Failure(code) => answer := Rejected(WasReset(code));
        }
      }
    }

    /** One `get` of the iterator. */
    method Next() returns (item: Option<Item>)
      modifies this`read
      ensures (Model(), item) == Pull(old(Model()))
      ensures old(read) < |queue| ==> item == Some(queue[old(read)]) && read == old(read) + 1
    {
      if |queue| <= read {
        return None;
      }
      item := Some(queue[read]);
      read := read + 1;
    }

    /** One turn of the iterator's loop over what has arrived: the payloads it yields, up to the first end
        or failure, or to where it would wait. */
    method IterateArrived() returns (yielded: seq<Value>, stopped: bool)
      requires read <= |queue|
      modifies this`read
      ensures yielded == Iterated(old(queue)[old(read)..])
      ensures stopped <==> |yielded| < |old(queue)[old(read)..]|
      ensures Model() == old(Model()).(read := read)
    {
      hide Pull, Iterated;
      yielded, stopped := [], false;
      ghost var rest := queue[read..];
      while read < |queue|
        invariant read <= |queue| && queue == old(queue) && old(read) <= read
        invariant |yielded| == read - old(read)
        invariant Iterated(rest) == yielded + Iterated(queue[read..])
        decreases |queue| - read
      {
        IteratedAt(queue, read);
        var item := Next();
        match item.value {
          case Payload(v) => yielded := yielded + [v];
          case _ =>
            stopped := true;
            return;
        }
      }
      IteratedOut(queue);
    }

    static lemma IteratedAt(queue: seq<Item>, read: nat)
      requires read < |queue|
      ensures Iterated(queue[read..]) == if queue[read].Payload? then [queue[read].value] + Iterated(queue[read + 1..])
        else []
    {
      assert queue[read..][0] == queue[read];
      assert queue[read..][1..] == queue[read + 1..];
    }

    static lemma IteratedOut(queue: seq<Item>)
      ensures Iterated(queue[|queue|..]) == []
    {
    }
  }
}
