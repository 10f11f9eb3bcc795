/** A whole run of a peer made of its objects: any interleaving of its application's calls, its read loop and its
    write loop leaves the objects as the run of PeerInvariant leaves the model, so everything proved of such a run
    holds of them. */
module PeerRun {
  import opened Frames
  import opened PeerModel
  import opened PeerInvariant
  import S = StreamModel
  import SO = StreamObject
  import PO = PeerObject

  /** The application's calls on a stream that has left the live map do nothing. */
  lemma ClosedIsDeaf(p: Peer, id: nat, data: Option<Value>, leading: Option<Fields>, last: bool,
                     trailers: Option<Fields>, code: int, error: Option<Value>, cfg: Config)
    requires Sound(p, cfg) && id !in p.live
    ensures SendData(p, id, data, leading, last, trailers) == p
    ensures AppReset(p, id, code) == p
    ensures HandlerError(p, id, error) == p
  {
    hide S.Consistent;
    if id in p.objects {
      assert Kept(p, id, p.objects[id], cfg);
    }
  }

  /** The application's calls on a stream it holds; the handle it holds is the one in the live map. */
  method Call(p: PO.PeerHandle, a: Action)
    requires p.Valid() && Sound(p.Model(), p.cfg)
    requires a.Send? || a.Reset? || a.HandlerRaises?
    modifies p.Repr()
    ensures p.Valid() && fresh(p.Repr() - old(p.Repr()))
    ensures p.Model() == Act(old(p.Model()), a, p.cfg)
  {
    hide PO.PeerHandle.Model, PO.PeerHandle.Valid, SO.StreamHandle.Model, Sound, SendData, AppReset, HandlerError;
    var id := match a case Send(id, _, _, _, _) => id case Reset(id, _) => id case HandlerRaises(id, _) => id;
    p.Fields();
    if id !in p.streams {
      match a {
        case Send(_, data, leading, last, trailers) =>
            ClosedIsDeaf(p.Model(), id, data, leading, last, trailers, 0, None, p.cfg);
        case Reset(_, code) => ClosedIsDeaf(p.Model(), id, None, None, false, None, code, None, p.cfg);
        case HandlerRaises(_, error) => ClosedIsDeaf(p.Model(), id, None, None, false, None, 0, error, p.cfg);
      }
      return;
    }
    p.Live(id);
    var s := p.streams[id];
    match a {
      case Send(_, data, leading, last, trailers) => var sent := p.SendOn(s, data, leading, last, trailers);
      case Reset(_, code) => p.ResetOn(s, code);
      case HandlerRaises(_, error) => p.HandlerRaised(s, error);
    }
  }

  /** What is live has not closed. */
  lemma SoundIsLively(p: PO.PeerHandle)
    requires p.Valid() && Sound(p.Model(), p.cfg)
    ensures p.Lively()
  {
    hide S.Consistent;
    forall x | x in p.streams
      ensures p.streams[x].state != S.Closed
    {
      p.Live(x);
      p.Shown(p.streams[x]);
      assert x in p.Model().live;
    }
  }

  method Perform(p: PO.PeerHandle, a: Action)
    requires p.Valid() && Sound(p.Model(), p.cfg)
    modifies p.Repr()
    ensures p.Valid() && fresh(p.Repr() - old(p.Repr()))
    ensures p.Model() == Act(old(p.Model()), a, p.cfg)
  {
    hide PO.PeerHandle.Model, PO.PeerHandle.Valid, SO.StreamHandle.Model, Sound, OpenStream, SendGoaway, SendPing,
      Transmit, Transmitted, Receive, Die, SendData, AppReset, HandlerError;
    match a {
      case Register => p.Register();
      case Open(payload, headers, end) => var handle := p.OpenNew(payload, headers, end);
      case Goodbye(code) => p.SendGoawayOnce(code);
      case Ping(nonce) => p.SendPingOf(nonce);
      case Take => var sent := p.TakeNext();
      case Taken(lane) => p.SentOne(lane);
      case Read(frame, size) =>
        SoundIsLively(p);
        p.ReadOne(frame, size);
      case SocketDies => p.SocketDied();
      case Send(_, _, _, _, _) => Call(p, a);
      case Reset(_, _) => Call(p, a);
      case HandlerRaises(_, _) => Call(p, a);
    }
  }

  /** Every run: the objects end where the model ends, and each live handle shows its stream of the model. */
  method Drive(dialer: bool, cfg: Config, actions: seq<Action>) returns (p: PO.PeerHandle)
    ensures p.cfg == cfg && p.Valid() && fresh(p.Repr())
    ensures p.Model() == ActAll(NewPeer(dialer), actions, cfg)
    ensures p.streams.Keys == ActAll(NewPeer(dialer), actions, cfg).live
    ensures forall x :: x in p.streams ==> p.streams[x].Model() == ActAll(NewPeer(dialer), actions, cfg).objects[x]
  {
    hide PO.PeerHandle.Repr, PO.PeerHandle.Model, PO.PeerHandle.Valid, SO.StreamHandle.Model, Sound, Bounded, Act;
    p := new PO.PeerHandle(dialer, cfg);
    NewPeerSound(dialer, cfg);
    var i := 0;
    while i < |actions|
      invariant i <= |actions| && p.cfg == cfg && p.Valid() && fresh(p.Repr())
      invariant Sound(p.Model(), cfg) && Bounded(p.Model(), cfg)
      invariant ActAll(p.Model(), actions[i..], cfg) == ActAll(NewPeer(dialer), actions, cfg)
    {
      ActSound(p.Model(), actions[i], cfg);
      assert actions[i..][0] == actions[i] && actions[i..][1..] == actions[i + 1..];
      ghost var behind := p.Repr();
      label Before:
      Perform(p, actions[i]);
      forall o: object | o in p.Repr()
        ensures fresh(o)
      {
        if o !in behind {
          assert o in p.Repr() - behind && fresh@Before(o);
        }
      }
      i := i + 1;
    }
    p.Fields();
    forall x | x in p.streams
      ensures p.streams[x].Model() == p.Model().objects[x]
    {
      p.Live(x);
      p.Shown(p.streams[x]);
    }
  }
}
