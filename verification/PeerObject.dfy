/** A peer made of the objects the source makes it of: the streams in its live map, which its application holds
    too, and its writer with a queue object a lane.  Every method does what the functions of PeerModel say, so the
    theorems about those hold of the objects. */
module PeerObject {
  import opened Frames
  import opened WriterModel
  import opened PeerModel
  import A = Assembly
  import S = StreamModel
  import SO = StreamObject
  import WO = WriterObjects

  class PeerHandle {
    const dialer: bool
    const cfg: Config
    const writer: WO.Writer
    var nextId: nat
    var highLocal: nat
    var highRemote: nat
    /** The live map. */
    var streams: map<nat, SO.StreamHandle>
    /** Every stream created on this socket; the application may still hold one that has closed. */
    ghost var created: map<nat, SO.StreamHandle>
    ghost var cut: set<nat>
    var goaway: Goaway
    var handler: bool
    var isOpen: bool
    var failed: bool
    var ignoredLate: nat

    // ------------------------------------------------------------ the objects behind it

    /** The live map holds created streams, each under its own id; no two share a buffer. */
    ghost predicate Valid()
      reads this, writer, created.Values
    {
      && writer.Valid() && writer.cap == cfg.cap && writer.codec == cfg.codec
      && (forall x :: x in streams ==> x in created && streams[x] == created[x])
      && (forall x :: x in created ==> created[x].id == x)
      && (forall x, y :: x in created && y in created && x != y ==> created[x].assembler != created[y].assembler)
    }

    ghost function Buffers(): set<A.Assembler>
      reads this`created
    {
      set x | x in created :: created[x].assembler
    }

    ghost function Repr(): set<object>
      reads this`created, writer`queues
    {
      {this, writer} + writer.queues.Values + created.Values + Buffers()
    }

    ghost function Streams(): map<nat, S.Stream>
      reads this`created, created.Values, Buffers()
    {
      map x | x in created :: created[x].Model()
    }

    ghost function Model(): Peer
      reads this, writer, writer.queues.Values, created.Values, Buffers()
    {
      Peer(dialer, nextId, highLocal, highRemote, Streams(), streams.Keys, cut, goaway, writer.Model(), handler,
           isOpen, failed, ignoredLate)
    }

    /** A handle this peer created, whether or not it is still in the live map. */
    ghost predicate Ours(s: SO.StreamHandle)
      reads this`created
    {
      s.id in created && created[s.id] == s
    }

    constructor (dialer: bool, cfg: Config)
      ensures Valid() && Model() == NewPeer(dialer) && this.cfg == cfg && fresh(Repr())
    {
      this.dialer, this.cfg := dialer, cfg;
      nextId := if dialer then 1 else 2;
      highLocal, highRemote := 0, 0;
      streams, created, cut := map[], map[], {};
      goaway := Goaway(false, false, None, None);
      writer := new WO.Writer(cfg.cap, cfg.codec);
      handler, isOpen, failed, ignoredLate := false, true, false, 0;
      new;
      assert writer.Lanes().Keys == writer.queues.Keys;
      assert writer.queues == map[];
    }

    // ------------------------------------------------------------ the writer

    method QueueFrame(frame: Frame)
      requires Valid()
      modifies writer, writer.queues.Values
      ensures Valid() && created == old(created) && fresh(Repr() - old(Repr()))
      ensures Model() == Queue(old(Model()), frame)
    {
      hide WriterModel.Enqueue, WO.Writer.Model, SO.StreamHandle.Model, WO.Writer.Valid;
      writer.Enqueue(frame);
      assert Streams() == old(Streams());
    }

    method DiscardLane(id: nat)
      requires Valid()
      modifies writer, writer.queues.Values
      ensures Valid() && created == old(created) && fresh(Repr() - old(Repr()))
      ensures Model() == old(Model()).(writer := Discard(old(Model()).writer, id))
    {
      hide WriterModel.Discard, WO.Writer.Model, SO.StreamHandle.Model, WO.Writer.Valid;
      writer.Discard(id);
      assert Streams() == old(Streams());
    }

    // ------------------------------------------------------------ one stream

    /** What the model shows of an object. */
    lemma Shown(s: SO.StreamHandle)
      requires Valid() && Ours(s)
      ensures s.id in Model().objects && Model().objects[s.id] == s.Model()
      ensures s.Model().opening == s.opening && s.Model().state == s.state && s.Model().local == s.local
      ensures s.Model().partial == s.assembler.Model()
      ensures Model().live == streams.Keys
    {
    }

    method FailHandle(s: SO.StreamHandle, code: int)
      requires Valid() && Ours(s)
      modifies s, s.assembler
      ensures Valid()
      ensures Model()
        == old(Model()).(objects := old(Model()).objects[s.id := S.Fail(old(Model()).objects[s.id], code)])
    {
      hide S.Fail, SO.StreamHandle.Model, WO.Writer.Model, WO.Writer.Valid;
      s.FailWith(code);
    }

    /** A closed stream leaves the live map. */
    method Forget(s: SO.StreamHandle, ghost cutShort: bool)
      requires Valid() && Ours(s)
      modifies this`streams, this`cut
      ensures Valid()
      ensures Model() == old(Model()).(live := if s.state == S.Closed then old(Model()).live - {s.id}
                                       else old(Model()).live, cut := if cutShort then old(Model()).cut + {s.id}
                                           else old(Model()).cut)
    {
      hide SO.StreamHandle.Model, WO.Writer.Model, WO.Writer.Valid;
      var kept := if s.state == S.Closed then streams - {s.id} else streams;
      assert kept.Keys == if s.state == S.Closed then streams.Keys - {s.id} else streams.Keys;
      streams := kept;
      cut := if cutShort then cut + {s.id} else cut;
      assert Streams() == old(Streams());
    }

    /** `_fail`, and out of the live map. */
    method CloseStream(s: SO.StreamHandle, code: int)
      requires Valid() && Ours(s)
      modifies this`streams, this`cut, s, s.assembler
      ensures Valid()
      ensures Model() == FailStream(old(Model()), s.id, code)
    {
      hide S.Fail, SO.StreamHandle.Model, Model, Valid, WO.Writer.Model, WO.Writer.Valid;
      Shown(s);
      ghost var cutShort := s.opening;
      FailHandle(s, code);
      Shown(s);
      Forget(s, cutShort);
    }

    /** An object and its buffer are among those behind the peer. */
    lemma Within(s: SO.StreamHandle)
      requires Ours(s)
      ensures s in Repr() && s.assembler in Repr()
    {
    }

    lemma Live(id: nat)
      requires Valid() && id in streams
      ensures Ours(streams[id]) && streams[id].id == id
    {
    }

    /** The reset goes behind an `open` that still waits, and nothing else of the stream stays queued. */
    method ResetIt(s: SO.StreamHandle, code: int)
      requires Valid() && Ours(s)
      modifies Repr()
      ensures Valid() && created == old(created) && fresh(Repr() - old(Repr()))
      ensures Model() == ResetStream(old(Model()), s.id, code)
    {
      hide Model, Valid, SO.StreamHandle.Model, FailStream, Discard, Enqueue;
      Shown(s);
      Within(s);
      DiscardLane(s.id);
      QueueFrame(ResetWith(s.id, code, None));
      CloseStream(s, code);
    }

    // ------------------------------------------------------------ what a stream's own methods do to it

    method NoteOn(s: SO.StreamHandle, leading: Option<Fields>) returns (allowed: bool)
      requires Valid() && Ours(s)
      modifies s
      ensures Valid()
      ensures var noted := S.NoteRemoteFrame(old(Model()).objects[s.id], leading);
              allowed == noted.1 && Model() == old(Model()).(objects := old(Model()).objects[s.id := noted.0])
    {
      hide S.NoteRemoteFrame, SO.StreamHandle.Model, WO.Writer.Model, WO.Writer.Valid;
      allowed := s.NoteRemote(leading);
    }

    method AcceptOn(s: SO.StreamHandle, v: Value)
      requires Valid() && Ours(s)
      modifies s
      ensures Valid()
      ensures Model()
        == old(Model()).(objects := old(Model()).objects[s.id := S.AcceptPayload(old(Model()).objects[s.id], v)])
    {
      hide S.AcceptPayload, SO.StreamHandle.Model, WO.Writer.Model, WO.Writer.Valid;
      s.Accept(v);
    }

    method EndOn(s: SO.StreamHandle, last: Option<Fields>)
      requires Valid() && Ours(s)
      modifies s
      ensures Valid()
      ensures Model()
        == old(Model()).(objects := old(Model()).objects[s.id := S.RemoteEnd(old(Model()).objects[s.id], last)])
    {
      hide S.RemoteEnd, SO.StreamHandle.Model, WO.Writer.Model, WO.Writer.Valid;
      s.EndRemote(last);
    }

    method FeedOn(s: SO.StreamHandle, frame: Frame) returns (fed: A.Fed)
      requires Valid() && Ours(s)
      modifies s.assembler
      ensures Valid()
      ensures var was := old(Model()).objects[s.id];
              var (partial, result) := A.Feed(was.partial, frame, cfg.codec);
              fed == result
                  && Model() == old(Model()).(objects := old(Model()).objects[s.id := was.(partial := partial)])
    {
      hide A.Feed, WO.Writer.Model, WO.Writer.Valid, SO.StreamHandle.Model;
      fed := s.TakeIn(frame, cfg.codec);
    }

    method EmptyOn(s: SO.StreamHandle)
      requires Valid() && Ours(s)
      modifies s.assembler
      ensures Valid()
      ensures Model()
        == old(Model()).(objects := old(Model()).objects[s.id := old(Model()).objects[s.id].(partial := A.NOTHING)])
    {
      hide WO.Writer.Model, WO.Writer.Valid, SO.StreamHandle.Model;
      s.DropPartial();
    }

    /** The opening payload is there. */
    method CompleteOn(s: SO.StreamHandle, payload: Option<Value>, ended: bool)
      requires Valid() && Ours(s)
      modifies s
      ensures Valid()
      ensures Model()
        == old(Model()).(objects := old(Model()).objects[s.id := Completed(old(Model()).objects[s.id], payload, ended)])
    {
      hide WO.Writer.Model, WO.Writer.Valid, SO.StreamHandle.Model;
      s.Complete(payload, ended);
    }

    method OpeningOn(s: SO.StreamHandle)
      requires Valid() && Ours(s)
      modifies s
      ensures Valid() && s.state == old(s.state)
      ensures Model()
        == old(Model()).(objects := old(Model()).objects[s.id := old(Model()).objects[s.id].(opening := true)])
    {
      hide WO.Writer.Model, WO.Writer.Valid, SO.StreamHandle.Model;
      s.BeginOpening();
    }

    method StartOn(s: SO.StreamHandle)
      requires Valid() && Ours(s)
      modifies s
      ensures Valid()
      ensures Model()
        == old(Model()).(objects := old(Model()).objects[s.id := old(Model()).objects[s.id].(started := true)])
    {
      hide WO.Writer.Model, WO.Writer.Valid, SO.StreamHandle.Model;
      s.Start();
    }

    method SendOnHandle(s: SO.StreamHandle, leading: Option<Fields>, end: bool) returns (sendable: bool)
      requires Valid() && Ours(s)
      modifies s
      ensures Valid() && sendable == S.MaySend(old(Model()).objects[s.id], leading)
      ensures var noted := S.NoteSent(old(Model()).objects[s.id], leading);
              Model() == if sendable
                  then old(Model()).(objects := old(Model()).objects[s.id := if end then S.LocalEnd(noted) else noted])
                         else old(Model())
    {
      hide S.NoteSent, S.LocalEnd, S.MaySend, SO.StreamHandle.Model, WO.Writer.Model, WO.Writer.Valid;
      sendable := s.Sending(leading, end);
    }

    // ------------------------------------------------------------ the application

    /** `open`: `None` where it raises.  The stream that is returned is the one in the live map. */
    method OpenNew(payload: Value, headers: Option<Fields>, end: bool) returns (handle: Option<SO.StreamHandle>)
      requires Valid()
      modifies Repr()
      ensures Valid() && fresh(Repr() - old(Repr()))
      ensures Model() == OpenStream(old(Model()), payload, headers, end)
      ensures handle.Some? <==> MayOpen(old(Model()))
      ensures handle.Some?
        ==> Ours(handle.value) && handle.value.id == old(nextId) && handle.value.id in streams && fresh(handle.value)
    {
      hide Model, Valid, SO.StreamHandle.Model, Enqueue, OpenStream;
      Fields();
      if !isOpen || goaway.received || goaway.sent || MAX_STREAM_ID < nextId {
        assert OpenStream(Model(), payload, headers, end)
            == Model() by { ClosedToOpens(Model(), payload, headers, end); }
        return None;
      }
      var s := OpenNext(payload, headers, end);
      handle := Some(s);
    }

    static lemma ClosedToOpens(p: Peer, payload: Value, headers: Option<Fields>, end: bool)
      requires !MayOpen(p)
      ensures OpenStream(p, payload, headers, end) == p
    {
    }

    /** Allocate the next id and queue its `open`. */
    method OpenNext(payload: Value, headers: Option<Fields>, end: bool) returns (s: SO.StreamHandle)
      requires Valid() && MayOpen(Model())
      modifies Repr()
      ensures Valid() && fresh(Repr() - old(Repr()))
      ensures Model() == OpenStream(old(Model()), payload, headers, end)
      ensures Ours(s) && s.id == old(nextId) && s.id in streams && fresh(s)
    {
      hide Repr, Model, Valid, SO.StreamHandle.Model, Enqueue;
      Fields();
      var id := nextId;
      Mine();
      AllocateId();
      ghost var behind := Repr();
      label Allocated:
      s := OpenAs(id, payload, headers, end);
      forall o: object | o in Repr() && o !in behind
        ensures fresh(o)
      {
        assert o in Repr() - behind && fresh@Allocated(o);
      }
    }

    lemma Mine()
      ensures this in Repr()
    {
    }

    /** The stream and its `open`. */
    method OpenAs(id: nat, payload: Value, headers: Option<Fields>, end: bool) returns (s: SO.StreamHandle)
      requires Valid()
      modifies Repr()
      ensures Valid() && fresh(Repr() - old(Repr()))
      ensures var state := if end then S.HalfClosedLocal else S.Open;
              var frame := Bare(OpenFrame, Some(id)).(payload := Some(payload), headers := headers, end := end);
              Model() == Queue(Create(old(Model()), S.NewStream(id, true, state, headers, Some(payload))), frame)
      ensures Ours(s) && s.id == id && s.id in streams && fresh(s)
    {
      hide Model, Valid, SO.StreamHandle.Model, Enqueue;
      s := AddNew(id, true, if end then S.HalfClosedLocal else S.Open, headers, Some(payload));
      QueueFrame(Bare(OpenFrame, Some(id)).(payload := Some(payload), headers := headers, end := end));
    }

    /** A new stream, in the live map. */
    method AddNew(id: nat, local: bool, state: S.State, headers: Option<Fields>,
                  payload: Option<Value>) returns (s: SO.StreamHandle)
      requires Valid()
      modifies this`streams, this`created
      ensures Valid() && fresh(Repr() - old(Repr()))
      ensures Model() == Create(old(Model()), S.NewStream(id, local, state, headers, payload))
      ensures Ours(s) && s.id == id && id in streams && fresh(s) && fresh(s.assembler)
      ensures forall x :: x in old(created) && x != id ==> x in created && created[x] == old(created)[x]
    {
      hide Model, Valid, SO.StreamHandle.Model;
      ghost var behind, before := Repr(), created;
      s := new SO.StreamHandle(id, local, state, headers, payload);
      Named(s);
      assert Repr() == behind;
      NotYetOurs(s);
      AddStream(s);
      ReprGrew(before, s, behind);
    }

    lemma ReprGrew(before: map<nat, SO.StreamHandle>, s: SO.StreamHandle, behind: set<object>)
      requires created == before[s.id := s]
      requires behind == {this, writer} + writer.queues.Values + before.Values
        + (set x | x in before :: before[x].assembler)
      ensures Repr() <= behind + {s, s.assembler}
    {
    }

    /** The plain fields, as the model has them. */
    lemma Fields()
      requires Valid()
      ensures Model().isOpen == isOpen && Model().goaway == goaway && Model().nextId == nextId
        && Model().dialer == dialer
      ensures Model().failed == failed && Model().handler == handler && Model().highRemote == highRemote
        && Model().highLocal == highLocal
      ensures Model().live == streams.Keys && Model().objects.Keys == created.Keys && Model().ignoredLate == ignoredLate
      ensures streams.Keys <= created.Keys && Model().cut == cut
    {
    }

    /** A new object is not behind the peer. */
    lemma NotYetOurs(s: SO.StreamHandle)
      requires s !in Repr() && s.assembler !in Repr()
      ensures s !in created.Values && s.assembler !in Buffers()
    {
    }

    method AllocateId()
      requires Valid()
      modifies this`nextId, this`highLocal
      ensures Valid() && Repr() == old(Repr())
      ensures Model() == old(Model()).(nextId := old(nextId) + 2, highLocal := old(nextId))
    {
      hide SO.StreamHandle.Model, WO.Writer.Model, WO.Writer.Valid;
      highLocal := nextId;
      nextId := nextId + 2;
      assert Streams() == old(Streams());
    }

    /** A new stream enters the live map. */
    method AddStream(s: SO.StreamHandle)
      requires Valid() && s !in created.Values && s.assembler !in Buffers()
      modifies this`streams, this`created
      ensures Valid() && Model() == Create(old(Model()), s.Model())
      ensures created == old(created)[s.id := s] && s.id in streams && Ours(s)
    {
      hide SO.StreamHandle.Model, WO.Writer.Model, WO.Writer.Valid;
      Named(s);
      created, streams := created[s.id := s], streams[s.id := s];
      assert Streams() == old(Streams())[s.id := s.Model()];
    }

    static lemma Named(s: SO.StreamHandle)
      ensures s.Model().id == s.id
    {
    }

    // ------------------------------------------------------------ fields of its own

    method NoteGoaway(g: Goaway)
      requires Valid()
      modifies this`goaway
      ensures Valid() && Model() == old(Model()).(goaway := g) && goaway == g
    {
      hide SO.StreamHandle.Model, WO.Writer.Model, WO.Writer.Valid;
      goaway := g;
      assert Streams() == old(Streams());
    }

    method NoteFailed()
      requires Valid()
      modifies this`failed
      ensures Valid() && Model() == old(Model()).(failed := true)
    {
      hide SO.StreamHandle.Model, WO.Writer.Model, WO.Writer.Valid;
      failed := true;
      assert Streams() == old(Streams());
    }

    method NoteRemoteOpen(id: nat)
      requires Valid()
      modifies this`highRemote
      ensures Valid() && Model() == old(Model()).(highRemote := id)
    {
      hide SO.StreamHandle.Model, WO.Writer.Model, WO.Writer.Valid;
      highRemote := id;
      assert Streams() == old(Streams());
    }

    method NoteLate()
      requires Valid()
      modifies this`ignoredLate
      ensures Valid() && Model() == old(Model()).(ignoredLate := old(ignoredLate) + 1)
    {
      hide SO.StreamHandle.Model, WO.Writer.Model, WO.Writer.Valid;
      ignoredLate := ignoredLate + 1;
      assert Streams() == old(Streams());
    }

    method NoteClosed()
      requires Valid()
      modifies this`isOpen
      ensures Valid() && Model() == old(Model()).(isOpen := false)
    {
      hide SO.StreamHandle.Model, WO.Writer.Model, WO.Writer.Valid;
      isOpen := false;
      assert Streams() == old(Streams());
    }

    /** `on_stream`. */
    method Register()
      requires Valid()
      modifies this`handler
      ensures Valid() && Model() == old(Model()).(handler := true)
    {
      hide SO.StreamHandle.Model, WO.Writer.Model, WO.Writer.Valid;
      handler := true;
      assert Streams() == old(Streams());
    }

    ghost method NoteCut(id: nat, refusedHalfway: bool)
      requires Valid()
      modifies this`cut
      ensures Valid() && Model() == old(Model()).(cut := if refusedHalfway then old(cut) + {id} else old(cut))
    {
      hide SO.StreamHandle.Model, WO.Writer.Model, WO.Writer.Valid;
      cut := if refusedHalfway then cut + {id} else cut;
      assert Streams() == old(Streams());
    }

    // ------------------------------------------------------------ the application's calls on one stream

    /** A refused call changes no object; an accepted one queues one frame. */
    method SendOn(s: SO.StreamHandle, payload: Option<Value>, leading: Option<Fields>, end: bool, last: Option<Fields>)
      returns (sendable: bool)
      requires Valid() && Ours(s)
      modifies Repr()
      ensures Valid() && created == old(created) && fresh(Repr() - old(Repr()))
      ensures Model() == SendData(old(Model()), s.id, payload, leading, end, last)
      ensures sendable == S.MaySend(old(Model()).objects[s.id], leading)
    {
      hide Model, Valid, SO.StreamHandle.Model, Enqueue, S.NoteSent, S.LocalEnd, S.MaySend;
      Shown(s);
      Within(s);
      sendable := SendOnHandle(s, leading, end);
      if sendable {
        Shown(s);
        QueueFrame(Bare(DataFrame, Some(s.id)).(payload := payload, headers := leading, end := end, trailers := last));
        Shown(s);
        Forget(s, false);
      }
    }

    /** Twice is once: a closed stream is left alone. */
    method ResetOn(s: SO.StreamHandle, code: int)
      requires Valid() && Ours(s)
      modifies Repr()
      ensures Valid() && created == old(created) && fresh(Repr() - old(Repr()))
      ensures Model() == AppReset(old(Model()), s.id, code)
    {
      hide Model, Valid, SO.StreamHandle.Model, FailStream, Discard, Enqueue;
      Fields();
      Shown(s);
      Within(s);
      if !Sendable(code) || s.state == S.Closed {
        return;
      }
      if isOpen {
        ResetIt(s, code);
      } else {
        CloseStream(s, code);
      }
    }

    /** The handler raised: one reset, behind what it sent before. */
    method HandlerRaised(s: SO.StreamHandle, error: Option<Value>)
      requires Valid() && Ours(s)
      modifies Repr()
      ensures Valid() && created == old(created) && fresh(Repr() - old(Repr()))
      ensures Model() == HandlerError(old(Model()), s.id, error)
    {
      hide Model, Valid, SO.StreamHandle.Model, FailStream, Enqueue;
      Shown(s);
      Within(s);
      if s.state != S.Closed {
        QueueFrame(ResetWith(s.id, APPLICATION_ERROR, error));
        CloseStream(s, APPLICATION_ERROR);
      }
    }

    /** `await stream`, called on the handle itself: the peer sees it in its own object. */
    method AwaitOn(s: SO.StreamHandle) returns (claimed: bool)
      requires Valid() && Ours(s)
      modifies s
      ensures Valid() && claimed == S.Await(old(Model()).objects[s.id]).Some?
      ensures var was := old(Model()).objects[s.id];
              Model() == old(Model()).(objects := old(Model()).objects[s.id := if claimed then S.Await(was).value
                  else was])
    {
      hide S.Await, SO.StreamHandle.Model, WO.Writer.Model, WO.Writer.Valid;
      claimed := s.AwaitAnswer();
    }

    /** One `get` of the iterator, on the handle itself. */
    method PullOn(s: SO.StreamHandle) returns (item: Option<S.Item>)
      requires Valid() && Ours(s)
      modifies s
      ensures Valid()
      ensures var (t, next) := S.Pull(old(Model()).objects[s.id]);
              item == next && Model() == old(Model()).(objects := old(Model()).objects[s.id := t])
    {
      hide S.Pull, SO.StreamHandle.Model, WO.Writer.Model, WO.Writer.Valid;
      item := s.Next();
    }

    // ------------------------------------------------------------ ending the connection

    method QueueGoawayWith(code: int)
      requires Valid()
      modifies this`goaway, writer, writer.queues.Values
      ensures Valid() && created == old(created) && fresh(Repr() - old(Repr()))
      ensures Model() == QueueGoaway(old(Model()), code)
    {
      hide Model, Valid, SO.StreamHandle.Model, Enqueue;
      Fields();
      NoteGoaway(goaway.(sent := true, sentLast := if goaway.sentLast.Some? then goaway.sentLast
                         else Some(highRemote)));
      QueueFrame(Bare(GoawayFrame, None).(code := Some(code), lastStream := Some(highRemote)));
    }

    /** The farewell of `close()`. */
    method SendGoawayOnce(code: int)
      requires Valid()
      modifies this`goaway, writer, writer.queues.Values
      ensures Valid() && created == old(created) && fresh(Repr() - old(Repr()))
      ensures Model() == SendGoaway(old(Model()), code)
    {
      hide Model, Valid, SO.StreamHandle.Model, QueueGoaway;
      Fields();
      if isOpen && !goaway.sent {
        QueueGoawayWith(code);
      }
    }

    method FailTheConnection()
      requires Valid()
      modifies this`goaway, this`failed, writer, writer.queues.Values
      ensures Valid() && created == old(created) && fresh(Repr() - old(Repr()))
      ensures Model() == FailConnection(old(Model()))
    {
      hide Model, Valid, SO.StreamHandle.Model, QueueGoaway;
      QueueGoawayWith(PROTOCOL_ERROR);
      NoteFailed();
    }

    method SendPingOf(nonce: Text)
      requires Valid()
      modifies writer, writer.queues.Values
      ensures Valid() && created == old(created) && fresh(Repr() - old(Repr()))
      ensures Model() == SendPing(old(Model()), nonce)
    {
      hide Model, Valid, SO.StreamHandle.Model, Enqueue;
      Fields();
      if isOpen {
        QueueFrame(PingOf(nonce));
      }
    }

    /** The peer once `doomed` have failed. */
    static ghost function Failing(p: Peer, doomed: set<nat>, code: int): Peer {
      p.(objects := FailAll(p.objects, doomed, code), live := p.live - doomed)
    }

    /** Fail every stream of `doomed`, one after the other, and take each out of the live map. */
    method CloseAll(doomed: set<nat>, code: int)
      requires Valid() && doomed <= streams.Keys
      modifies Repr()
      ensures Valid() && created == old(created) && Repr() == old(Repr())
      ensures Model() == Failing(old(Model()), doomed, code)
    {
      hide Repr, Model, Valid, SO.StreamHandle.Model, Failing, Parted;
      var left := doomed;
      ghost var start, done: set<nat> := Model(), {};
      NoneFailed(start, code);
      NoneMoved(doomed);
      while left != {}
        invariant Parted(doomed, done, left) && left <= streams.Keys
        invariant Valid() && created == old(created) && Repr() == old(Repr())
        invariant Model() == Failing(start, done, code)
        decreases |left|
      {
        var id :| id in left;
        OneMoved(doomed, done, left, id);
        FailNext(id, start, done, code);
        left, done := left - {id}, done + {id};
      }
      AllMoved(doomed, done);
    }

    static ghost predicate Parted(all: set<nat>, done: set<nat>, left: set<nat>) {
      done + left == all && done !! left
    }

    static lemma NoneMoved(all: set<nat>)
      ensures Parted(all, {}, all)
    {
    }

    static lemma OneMoved(all: set<nat>, done: set<nat>, left: set<nat>, id: nat)
      requires Parted(all, done, left) && id in left
      ensures Parted(all, done + {id}, left - {id}) && id !in done
    {
    }

    static lemma AllMoved(all: set<nat>, done: set<nat>)
      requires Parted(all, done, {})
      ensures done == all
    {
    }

    /** The next stream of those to fail. */
    method FailNext(id: nat, ghost start: Peer, ghost done: set<nat>, code: int)
      requires Valid() && id in streams && id !in done && Model() == Failing(start, done, code)
      modifies Repr()
      ensures Valid() && created == old(created) && Repr() == old(Repr()) && streams.Keys == old(streams).Keys - {id}
      ensures Model() == Failing(start, done + {id}, code)
    {
      hide Model, Valid, SO.StreamHandle.Model, FailAll, S.Fail;
      Fields();
      Live(id);
      OneMoreFailed(start, done, id, code);
      FailOne(streams[id], code);
    }

    method FailOne(s: SO.StreamHandle, code: int)
      requires Valid() && Ours(s)
      modifies this`streams, this`cut, s, s.assembler
      ensures Valid() && streams.Keys == old(streams).Keys - {s.id}
      ensures Model()
        == old(Model()).(objects := old(Model()).objects[s.id := S.Fail(old(Model()).objects[s.id], code)],
                         live := old(Model()).live - {s.id})
    {
      hide Model, Valid, SO.StreamHandle.Model, S.Fail;
      Shown(s);
      FailHandle(s, code);
      Shown(s);
      assert s.state == S.Closed by { FailedIsClosed(old(Model()).objects[s.id], code); }
      Forget(s, false);
      Fields();
    }

    static lemma FailedIsClosed(s: S.Stream, code: int)
      ensures S.Fail(s, code).state == S.Closed
    {
    }

    static lemma NoneFailed(p: Peer, code: int)
      ensures Failing(p, {}, code) == p
    {
    }

    static lemma OneMoreFailed(p: Peer, done: set<nat>, id: nat, code: int)
      requires id !in done && id in Failing(p, done, code).objects
      ensures var q := Failing(p, done, code);
              q.(objects := q.objects[id := S.Fail(q.objects[id], code)], live := q.live - {id})
                  == Failing(p, done + {id}, code)
    {
      hide S.Fail;
      assert p.live - done - {id} == p.live - (done + {id});
      assert FailAll(p.objects, done, code)[id := S.Fail(p.objects[id], code)] == FailAll(p.objects, done + {id}, code);
    }

    method EmptyWriter()
      requires Valid()
      modifies writer
      ensures Valid() && writer.queues == map[]
      ensures Model() == old(Model()).(writer := DiscardAll(old(Model()).writer))
    {
      hide DiscardAll, WO.Writer.Model, SO.StreamHandle.Model, WO.Writer.Valid;
      writer.DiscardAll();
      assert Streams() == old(Streams());
    }

    /** Socket death. */
    method SocketDied()
      requires Valid()
      modifies Repr()
      ensures Valid() && created == old(created) && fresh(Repr() - old(Repr()))
      ensures Model() == Die(old(Model()))
    {
      hide Model, Valid, SO.StreamHandle.Model, FailAll, DiscardAll;
      Fields();
      if !isOpen {
        return;
      }
      NoteClosed();
      EmptyWriter();
      Fields();
      CloseAll(streams.Keys, CONNECTION_CLOSED);
    }

    /** What a failed turn costs: one stream, or the connection when no live stream owns the lane. */
    method FailOneLane(id: nat, unsentOpen: bool)
      requires Valid()
      modifies Repr()
      ensures Valid() && created == old(created) && fresh(Repr() - old(Repr()))
      ensures Model() == FailLane(old(Model()), id, unsentOpen)
    {
      hide Model, Valid, SO.StreamHandle.Model, FailStream, Die, Enqueue;
      Fields();
      if id !in streams {
        SocketDied();
        return;
      }
      Live(id);
      var s := streams[id];
      Within(s);
      if !unsentOpen {
        QueueFrame(ResetWith(id, INTERNAL_ERROR, None));
      }
      CloseStream(s, INTERNAL_ERROR);
    }

    // ------------------------------------------------------------ inbound opens

    function CountRemote(): (n: nat)
      requires Valid()
      reads this, writer, writer.queues.Values, created.Values, Buffers()
      ensures n == |RemoteLive(Model())|
    {
      RemoteShown();
      |set id | id in streams && !streams[id].local|
    }

    lemma RemoteShown()
      requires Valid()
      ensures (set id | id in streams && !streams[id].local) == RemoteLive(Model())
    {
      hide WO.Writer.Model, WO.Writer.Valid;
    }

    /** Either the mark rises to `id` or the connection has failed. */
    method AdmitRemoteOpen(id: nat) returns (admitted: bool)
      requires Valid()
      modifies Repr()
      ensures Valid() && created == old(created) && fresh(Repr() - old(Repr()))
      ensures admitted == Admissible(old(Model()), id)
      ensures Model() == if admitted then old(Model()).(highRemote := id) else FailConnection(old(Model()))
    {
      hide Model, Valid, SO.StreamHandle.Model, FailConnection;
      Fields();
      if id % 2 != (if dialer then 0 else 1) {
        FailTheConnection();
        return false;
      }
      if id <= highRemote {
        FailTheConnection();
        return false;
      }
      NoteRemoteOpen(id);
      return true;
    }

    method StartOrRefuse(s: SO.StreamHandle)
      requires Valid() && Ours(s) && s.state != S.Closed
      modifies Repr()
      ensures Valid() && created == old(created) && fresh(Repr() - old(Repr()))
      ensures Model() == StartHandler(old(Model()), s.id)
    {
      hide Model, Valid, SO.StreamHandle.Model, FailStream, Enqueue;
      Fields();
      Shown(s);
      Within(s);
      if goaway.sent || !handler {
        QueueFrame(ResetWith(s.id, REFUSED, None));
        CloseStream(s, REFUSED);
        return;
      }
      StartOn(s);
    }

    /** A payload only when this fragment was the last of one within the cap. */
    method Reassemble(s: SO.StreamHandle, frame: Frame) returns (payload: Option<Value>)
      requires Valid() && Ours(s) && s.state != S.Closed && frame.fragment.Some?
      modifies Repr()
      ensures Valid() && created == old(created) && fresh(Repr() - old(Repr()))
      ensures (Model(), payload) == Absorb(old(Model()), s.id, frame, cfg)
      ensures payload.Some? ==> s.state == old(s.state)
    {
      hide Model, Valid, SO.StreamHandle.Model, ResetStream, A.Feed;
      Shown(s);
      Within(s);
      if cfg.maxPayload < s.assembler.Model().bytes + |frame.fragment.value.bytes| {
        EmptyOn(s);
        ResetIt(s, PAYLOAD_TOO_LARGE);
        return None;
      }
      var fed := FeedOn(s, frame);
      match fed {
        case Pending => return None;
        case Decoded(v) => return Some(v);
        case Malformed =>
          ResetIt(s, PROTOCOL_ERROR);
          return None;
      }
    }

    method FeedOpeningWith(s: SO.StreamHandle, frame: Frame, later: bool)
      requires Valid() && Ours(s) && s.state != S.Closed && frame.fragment.Some?
      modifies Repr()
      ensures Valid() && created == old(created) && fresh(Repr() - old(Repr()))
      ensures Model() == FeedOpening(old(Model()), s.id, frame, later, cfg)
    {
      hide Model, Valid, SO.StreamHandle.Model, Absorb, StartHandler;
      Shown(s);
      var payload := Reassemble(s, frame);
      if payload.None? {
        return;
      }
      Shown(s);
      Within(s);
      CompleteOn(s, payload, later && frame.end);
      Shown(s);
      StartOrRefuse(s);
    }

    /** What the live map holds has not closed. */
    ghost predicate Lively()
      reads this`streams, streams.Values
    {
      forall x :: x in streams ==> streams[x].state != S.Closed
    }

    method HandleOpen(frame: Frame)
      requires Valid() && Lively()
      modifies Repr()
      ensures Valid() && fresh(Repr() - old(Repr()))
      ensures Model() == OnOpen(old(Model()), frame, cfg)
    {
      hide Model, Valid, SO.StreamHandle.Model, FeedOpening, StartHandler, RemoteLive, FailConnection;
      Fields();
      if frame.stream.None? {
        FailTheConnection();
        return;
      }
      var id := frame.stream.value;
      if id in streams {
        Live(id);
        Shown(streams[id]);
      }
      if id in streams && streams[id].opening && frame.fragment.Some? {
        FeedOpeningWith(streams[id], frame, true);
        return;
      }
      FirstOpen(id, frame);
    }

    /** An `open` that continues no opening: admitted, or the end of the connection. */
    method FirstOpen(id: nat, frame: Frame)
      requires Valid() && frame.stream == Some(id) && !ContinuesOpening(Model(), frame)
      modifies Repr()
      ensures Valid() && fresh(Repr() - old(Repr()))
      ensures Model() == OnOpen(old(Model()), frame, cfg)
    {
      hide Repr, Model, Valid, SO.StreamHandle.Model, FeedOpening, StartHandler, RemoteLive, FailConnection,
        Admissible, ContinuesOpening, Enqueue;
      var admitted := AdmitRemoteOpen(id);
      ghost var behind := Repr();
      if admitted {
        label Admitted:
        HandleNewOpen(id, frame, old(Model()));
        forall o: object | o in Repr() && o !in old(Repr())
          ensures fresh(o)
        {
          if o in behind {
            assert o in behind - old(Repr());
          } else {
            assert o in Repr() - behind && fresh@Admitted(o);
          }
        }
      }
    }

    /** A new stream of the remote's, its id just admitted: refused over the limit, or created. */
    method HandleNewOpen(id: nat, frame: Frame, ghost before: Peer)
      requires Valid()
      requires frame.stream == Some(id) && before.(highRemote := id) == Model()
      requires Admissible(before, id) && !ContinuesOpening(before, frame)
      modifies Repr()
      ensures Valid() && fresh(Repr() - old(Repr()))
      ensures Model() == OnOpen(before, frame, cfg)
    {
      hide Repr, Model, Valid, SO.StreamHandle.Model, FeedOpening, StartHandler, RemoteLive, FailConnection,
        Admissible, ContinuesOpening, Enqueue;
      Fields();
      SameRemote(before, Model());
      if cfg.maxStreams <= CountRemote() {
        RefuseOverLimit(id, frame);
        return;
      }
      if frame.fragment.Some? {
        BeginOpening(id, frame);
      } else {
        WholeOpening(id, frame);
      }
    }

    method RefuseOverLimit(id: nat, frame: Frame)
      requires Valid()
      modifies Repr()
      ensures Valid() && created == old(created) && fresh(Repr() - old(Repr()))
      ensures Model() == QueueReset(old(Model()), id, REFUSED)
                           .(cut := if frame.fragment.Some? && frame.more then old(Model()).cut + {id}
                             else old(Model()).cut)
    {
      hide Model, Valid, SO.StreamHandle.Model, Enqueue;
      Fields();
      QueueFrame(ResetWith(id, REFUSED, None));
      Fields();
      NoteCut(id, frame.fragment.Some? && frame.more);
    }

    /** What a first fragment starts. */
    method BeginOpening(id: nat, frame: Frame)
      requires Valid() && frame.fragment.Some?
      modifies Repr()
      ensures Valid() && fresh(Repr() - old(Repr()))
      ensures var s := S.NewStream(id, false, if frame.end then S.HalfClosedRemote else S.Open, frame.headers,
                                   None).(opening := true);
              Model() == FeedOpening(Create(old(Model()), s), id, frame, false, cfg)
    {
      hide Repr, Model, Valid, SO.StreamHandle.Model, FeedOpening;
      var s := AddOpening(id, frame);
      ghost var behind := Repr();
      label Added:
      FeedOpeningWith(s, frame, false);
      forall o: object | o in Repr() && o !in old(Repr())
        ensures fresh(o)
      {
        if o in behind {
          assert o in behind - old(Repr());
        } else {
          assert o in Repr() - behind && fresh@Added(o);
        }
      }
    }

    method AddOpening(id: nat, frame: Frame) returns (s: SO.StreamHandle)
      requires Valid()
      modifies Repr()
      ensures Valid() && fresh(Repr() - old(Repr()))
      ensures Ours(s) && s.id == id && s.state != S.Closed
      ensures var s := S.NewStream(id, false, if frame.end then S.HalfClosedRemote else S.Open, frame.headers,
                                   None).(opening := true);
              Model() == Create(old(Model()), s)
    {
      hide Model, Valid, SO.StreamHandle.Model;
      s := AddNew(id, false, if frame.end then S.HalfClosedRemote else S.Open, frame.headers, None);
      ghost var bare := S.NewStream(id, false, if frame.end then S.HalfClosedRemote else S.Open, frame.headers, None);
      Shown(s);
      Within(s);
      OpeningOn(s);
      CreatedAs(old(Model()), bare, bare.(opening := true));
    }

    static lemma CreatedAs(p: Peer, s: S.Stream, t: S.Stream)
      requires t.id == s.id
      ensures Create(p, s).(objects := Create(p, s).objects[s.id := t]) == Create(p, t)
    {
    }

    /** A new stream whose opening payload is there. */
    method WholeOpening(id: nat, frame: Frame)
      requires Valid()
      modifies Repr()
      ensures Valid() && fresh(Repr() - old(Repr()))
      ensures var s := S.NewStream(id, false, if frame.end then S.HalfClosedRemote else S.Open, frame.headers, None)
                         .(payload := Some(if frame.payload.Some? then frame.payload.value else Null));
              Model() == StartHandler(Create(old(Model()), s), id)
    {
      hide Model, Valid, SO.StreamHandle.Model, StartHandler;
      var payload := if frame.payload.Some? then frame.payload.value else Null;
      var s := AddNew(id, false, if frame.end then S.HalfClosedRemote else S.Open, frame.headers, Some(payload));
      ghost var behind := Repr();
      Shown(s);
      StartOrRefuse(s);
      assert fresh(Repr() - behind);
    }

    static lemma SameRemote(p: Peer, p': Peer)
      requires p'.live == p.live && p'.objects == p.objects
      ensures RemoteLive(p') == RemoteLive(p)
    {
    }

    // ------------------------------------------------------------ inbound stream frames

    method HandleData(s: SO.StreamHandle, frame: Frame)
      requires Valid() && Ours(s)
      modifies Repr()
      ensures Valid() && created == old(created) && fresh(Repr() - old(Repr()))
      ensures Model() == OnData(old(Model()), s.id, frame, cfg)
    {
      hide Model, Valid, SO.StreamHandle.Model, Absorb, ResetStream, S.NoteRemoteFrame, PeerModel.Deliver;
      Shown(s);
      Within(s);
      if s.state == S.HalfClosedRemote || s.state == S.Closed {
        ResetIt(s, PROTOCOL_ERROR);
        return;
      }
      NotedState(s.Model(), frame.headers);
      var allowed := NoteOn(s, frame.headers);
      Shown(s);
      if !allowed {
        ResetIt(s, PROTOCOL_ERROR);
        return;
      }
      if s.assembler.parts != [] && frame.fragment.None? {
        ResetIt(s, PROTOCOL_ERROR);
        return;
      }
      var payload := frame.payload;
      if frame.fragment.Some? {
        payload := Reassemble(s, frame);
        if payload.None? {
          return;
        }
      }
      Shown(s);
      Within(s);
      GiveTo(s, payload, frame);
    }

    static lemma NotedState(s: S.Stream, headers: Option<Fields>)
      ensures S.NoteRemoteFrame(s, headers).0.state == s.state
    {
    }

    /** Hand a payload to the consumer, then note the remote's end. */
    method GiveTo(s: SO.StreamHandle, payload: Option<Value>, frame: Frame)
      requires Valid() && Ours(s) && s.state != S.Closed
      modifies this`streams, this`cut, s
      ensures Valid()
      ensures Model() == PeerModel.Deliver(old(Model()), s.id, payload, frame)
    {
      hide Model, Valid, SO.StreamHandle.Model, PeerModel.Deliver, Handed;
      Shown(s);
      DeliverIs(Model(), s.id, payload, frame);
      HandOn(s, payload, frame);
      Shown(s);
      Forget(s, false);
    }

    /** The stream with a payload accepted and the remote's end noted. */
    static ghost function Handed(s: S.Stream, payload: Option<Value>, frame: Frame): S.Stream {
      var accepted := if payload.Some? then S.AcceptPayload(s, payload.value) else s;
      if frame.end then S.RemoteEnd(accepted, frame.trailers) else accepted
    }

    static lemma DeliverIs(p: Peer, id: nat, payload: Option<Value>, frame: Frame)
      requires id in p.objects
      ensures var t := Handed(p.objects[id], payload, frame);
              PeerModel.Deliver(p, id, payload, frame)
              == p.(objects := p.objects[id := t], live := if t.state == S.Closed then p.live - {id} else p.live)
    {
      hide S.AcceptPayload, S.RemoteEnd;
    }

    method HandOn(s: SO.StreamHandle, payload: Option<Value>, frame: Frame)
      requires Valid() && Ours(s)
      modifies s
      ensures Valid()
      ensures Model()
        == old(Model()).(objects := old(Model()).objects[s.id := Handed(old(Model()).objects[s.id], payload, frame)])
    {
      hide Model, Valid, SO.StreamHandle.Model, S.AcceptPayload, S.RemoteEnd;
      Shown(s);
      if payload.Some? {
        AcceptOn(s, payload.value);
      }
      if frame.end {
        EndOn(s, frame.trailers);
      }
    }

    /** The marks alone tell a stream that has closed from one that never was. */
    method LateOrNew(id: nat)
      requires Valid()
      modifies this`goaway, this`failed, this`ignoredLate, writer, writer.queues.Values
      ensures Valid() && created == old(created) && fresh(Repr() - old(Repr()))
      ensures var p := old(Model());
              Model() == if (if IsOurs(p, id) then p.highLocal else p.highRemote) < id then FailConnection(p)
                         else p.(ignoredLate := p.ignoredLate + 1)
    {
      hide Model, Valid, SO.StreamHandle.Model, FailConnection;
      Fields();
      var highWater := if id % 2 == (if dialer then 1 else 0) then highLocal else highRemote;
      if highWater < id {
        FailTheConnection();
      } else {
        NoteLate();
      }
    }

    method HandleStreamFrame(frame: Frame)
      requires Valid()
      modifies Repr()
      ensures Valid() && created == old(created) && fresh(Repr() - old(Repr()))
      ensures Model() == OnStreamFrame(old(Model()), frame, cfg)
    {
      hide Model, Valid, SO.StreamHandle.Model, OnData, FailStream, Discard, FailConnection;
      Fields();
      if frame.stream.None? {
        FailTheConnection();
        return;
      }
      var id := frame.stream.value;
      if id !in streams {
        LateOrNew(id);
        return;
      }
      Live(id);
      var s := streams[id];
      Within(s);
      if frame.kind == ResetFrame {
        DiscardLane(id);
        CloseStream(s, if frame.code.Some? then frame.code.value else 0);
        return;
      }
      HandleData(s, frame);
    }

    /** The writer is untouched: what the remote will not process costs no frame. */
    method HandleGoaway(frame: Frame)
      requires Valid()
      modifies Repr()
      ensures Valid() && created == old(created) && fresh(Repr() - old(Repr()))
      ensures Model() == OnGoaway(old(Model()), frame)
    {
      hide Model, Valid, SO.StreamHandle.Model, FailAll, Unprocessed;
      Fields();
      NoteGoaway(goaway.(received := true, remoteLast := frame.lastStream));
      var doomed := set id | id in streams && streams[id].local && !SurvivesDrain(goaway, id);
      DoomedShown(doomed);
      CloseAll(doomed, REFUSED);
    }

    lemma DoomedShown(doomed: set<nat>)
      requires Valid() && doomed == set id | id in streams && streams[id].local && !SurvivesDrain(goaway, id)
      ensures doomed == Unprocessed(Model())
    {
      hide WO.Writer.Model, WO.Writer.Valid;
    }

    method DispatchFrame(frame: Frame)
      requires Valid() && Lively()
      modifies Repr()
      ensures Valid() && fresh(Repr() - old(Repr()))
      ensures Model() == Dispatch(old(Model()), frame, cfg)
    {
      hide Model, Valid, SO.StreamHandle.Model, OnOpen, OnStreamFrame, OnGoaway, Enqueue;
      match frame.kind {
        case OpenFrame => HandleOpen(frame);
        case DataFrame => HandleStreamFrame(frame);
        case ResetFrame => HandleStreamFrame(frame);
        case PingFrame => QueueFrame(Bare(PongFrame, None).(nonce := frame.nonce));
        case PongFrame =>
        case GoawayFrame => HandleGoaway(frame);
        case OtherFrame(_) =>
      }
    }

    /** An over-cap `open`: its id is spent, and nothing is created. */
    method RefuseTooLarge(id: nat, frame: Frame)
      requires Valid()
      modifies Repr()
      ensures Valid() && created == old(created) && fresh(Repr() - old(Repr()))
      ensures var p := old(Model());
              Model() == if !Admissible(p, id) then FailConnection(p)
                         else QueueReset(p.(highRemote := id), id, PAYLOAD_TOO_LARGE)
                                .(cut := if frame.fragment.Some? && frame.more then p.cut + {id} else p.cut)
    {
      hide Model, Valid, SO.StreamHandle.Model, FailConnection, Enqueue, Admissible;
      Fields();
      var admitted := AdmitRemoteOpen(id);
      if admitted {
        QueueFrame(ResetWith(id, PAYLOAD_TOO_LARGE, None));
        Fields();
        NoteCut(id, frame.fragment.Some? && frame.more);
      }
    }

    /** Such a message reaches no stream; at most one is closed by it. */
    method AnswerOverCap(frame: Frame)
      requires Valid()
      modifies Repr()
      ensures Valid() && created == old(created) && fresh(Repr() - old(Repr()))
      ensures Model() == OverCap(old(Model()), frame, cfg)
    {
      hide Model, Valid, SO.StreamHandle.Model, OnStreamFrame, ResetStream, FailConnection, Enqueue, Admissible;
      Fields();
      if frame.stream.None? {
        FailTheConnection();
        return;
      }
      var id := frame.stream.value;
      var found := id in streams;
      if found {
        Live(id);
        Shown(streams[id]);
      }
      var continues := found && streams[id].opening && frame.fragment.Some?;
      if frame.kind == OpenFrame && !continues {
        RefuseTooLarge(id, frame);
        return;
      }
      if !found && (frame.kind == DataFrame || frame.kind == ResetFrame) {
        HandleStreamFrame(frame);
        return;
      }
      if found {
        ResetIt(streams[id], PAYLOAD_TOO_LARGE);
      } else {
        QueueFrame(ResetWith(id, PAYLOAD_TOO_LARGE, None));
      }
    }

    /** One turn of the read loop, on a message read and decoded: its size decides whether it is dispatched. */
    method ReadOne(frame: Frame, size: nat)
      requires Valid() && Lively()
      modifies Repr()
      ensures Valid() && fresh(Repr() - old(Repr()))
      ensures Model() == Receive(old(Model()), frame, size, cfg)
    {
      hide Model, Valid, SO.StreamHandle.Model, OverCap, Dispatch;
      Fields();
      if !isOpen || failed {
        return;
      }
      if cfg.cap < size {
        AnswerOverCap(frame);
      } else {
        DispatchFrame(frame);
      }
    }

    // ------------------------------------------------------------ the write loop

    method AskWriter() returns (turn: Turn)
      requires Valid()
      modifies writer, writer.queues.Values
      ensures Valid() && Repr() <= old(Repr())
      ensures var (w, next) := NextFrame(old(Model()).writer, cfg.cap, cfg.codec);
        turn == next && Model() == old(Model()).(writer := w)
    {
      hide NextFrame, WO.Writer.Model, SO.StreamHandle.Model, WO.Writer.Valid;
      turn := writer.NextFrame();
      assert Streams() == old(Streams());
    }

    method SliceAhead(id: nat) returns (turn: Turn)
      requires Valid()
      modifies writer, writer.queues.Values
      ensures Valid() && Repr() <= old(Repr())
      ensures var (w, next) := Advance(old(Model()).writer, id, cfg.cap, cfg.codec);
        turn == next && Model() == old(Model()).(writer := w)
    {
      hide Advance, WO.Writer.Model, SO.StreamHandle.Model, WO.Writer.Valid;
      turn := writer.Advance(id);
      assert Streams() == old(Streams());
    }

    /** Take the next frame for the wire. */
    method TakeNext() returns (sent: Option<Frame>)
      requires Valid()
      modifies Repr()
      ensures Valid() && created == old(created) && fresh(Repr() - old(Repr()))
      ensures (Model(), sent) == Transmit(old(Model()), cfg)
    {
      hide Model, Valid, SO.StreamHandle.Model, NextFrame, FailLane;
      var turn := AskWriter();
      match turn {
        case Nothing => return None;
        case Sent(_, frame) => return Some(frame);
        case Failed(id, unsentOpen) =>
          FailOneLane(id, unsentOpen);
          return None;
      }
    }

    /** The write loop's other half: prepare what lane `id` sends next. */
    method SentOne(id: nat)
      requires Valid()
      modifies Repr()
      ensures Valid() && created == old(created) && fresh(Repr() - old(Repr()))
      ensures Model() == Transmitted(old(Model()), id, cfg)
    {
      hide Model, Valid, SO.StreamHandle.Model, Advance, FailLane;
      var turn := SliceAhead(id);
      if turn.Failed? {
        FailOneLane(turn.id, turn.unsentOpen);
      }
    }
  }
}
