/** Finding peers by tags: the two indexes the ports keep, each against a scan of every registered peer's
    tags as they were when it was last registered. */
module Registry {

  type PeerId = nat

  /** Tag values, equal when the index takes them for the same; a dict or a list is `Unhashable`. */
  datatype TagValue = Hashable(value: int) | Unhashable(shape: int)

  type Tags = map<string, TagValue>

  type Entry = (string, TagValue)

  // ------------------------------------------------------------ the specification

  /** Every tag wanted is there, with a value that can be looked up. */
  predicate Matches(tags: Tags, wanted: Tags) {
    forall k :: k in wanted ==> wanted[k].Hashable? && k in tags && tags[k] == wanted[k]
  }

  /** The linear scan the index stands for. */
  function Scan(snapshots: map<PeerId, Tags>, wanted: Tags): set<PeerId> {
    set p | p in snapshots && Matches(snapshots[p], wanted)
  }

  function EntriesAmong(tags: Tags, keys: set<string>): set<Entry> {
    set k | k in keys && k in tags && tags[k].Hashable? :: (k, tags[k])
  }

  function EntriesOf(tags: Tags): set<Entry> {
    EntriesAmong(tags, tags.Keys)
  }

  lemma OneLessEntry(tags: Tags, left: set<string>, key: string, mine: set<Entry>)
    requires key in tags && key in left
    ensures mine + (if tags[key].Hashable? then {(key, tags[key])} else {}) + EntriesAmong(tags, left - {key})
            == mine + EntriesAmong(tags, left)
  {
  }

  /** What happens to peers and their tags, the writes the registry never sees included. */
  datatype Op = Write(peer: PeerId, key: string, value: TagValue) | Erase(peer: PeerId, key: string)
              | Register(peer: PeerId) | Deregister(peer: PeerId)

  function TagsOf(current: map<PeerId, Tags>, p: PeerId): Tags {
    if p in current then current[p] else map[]
  }

  /** The tags every peer has now. */
  function Current(ops: seq<Op>): map<PeerId, Tags> {
    if ops == [] then map[]
    else
      var before := Current(ops[..|ops| - 1]);
      match ops[|ops| - 1]
      case Write(p, k, v) => before[p := TagsOf(before, p)[k := v]]
      case Erase(p, k) => before[p := TagsOf(before, p) - {k}]
      case _ => before
  }

  /** The tags every registered peer had when it was last registered. */
  function Snapshots(ops: seq<Op>): map<PeerId, Tags> {
    if ops == [] then map[]
    else
      var before := Snapshots(ops[..|ops| - 1]);
      match ops[|ops| - 1]
      case Register(p) => before[p := TagsOf(Current(ops[..|ops| - 1]), p)]
      case Deregister(p) => before - {p}
      case _ => before
  }

  /** A peer that is registered has a snapshot, and the other way round; the snapshot is what its tags were. */
  lemma {:induction false} SnapshotSincePlainWrites(ops: seq<Op>, later: seq<Op>, p: PeerId)
    requires forall op ::
      op in later ==> op.Write? || op.Erase? || (op.Register? && op.peer != p) || (op.Deregister? && op.peer != p)
    ensures Snapshots(ops + [Register(p)] + later).Keys >= {p}
    ensures Snapshots(ops + [Register(p)] + later)[p] == TagsOf(Current(ops), p)
    decreases |later|
  {
    var all := ops + [Register(p)] + later;
    if later == [] {
      assert all == ops + [Register(p)];
      assert all[..|all| - 1] == ops;
    } else {
      var front := later[..|later| - 1];
      assert all[..|all| - 1] == ops + [Register(p)] + front;
      assert later == front + [later[|later| - 1]];
      assert later[|later| - 1] in later;
      SnapshotSincePlainWrites(ops, front, p);
    }
  }

  // ------------------------------------------------------------ an index and its reverse map

  type Index = map<Entry, set<PeerId>>

  type Reverse = map<PeerId, set<Entry>>

  predicate Holds(index: Index, e: Entry, p: PeerId) {
    e in index && p in index[e]
  }

  predicate Lists(entries: Reverse, e: Entry, p: PeerId) {
    p in entries && e in entries[p]
  }

  /** The index and the reverse map are mutual inverses, and no bucket is empty. */
  ghost predicate Inverse(index: Index, entries: Reverse) {
    && (forall e :: e in index ==> index[e] != {})
    && (forall e, p :: Holds(index, e, p) <==> Lists(entries, e, p))
  }

  /** `holders.discard(peer)`, and the bucket goes when it is empty. */
  function Removed(index: Index, e: Entry, p: PeerId): Index {
    if e !in index then index
    else if index[e] - {p} == {} then index - {e}
    else index[e := index[e] - {p}]
  }

  /** The bucket of `entry` has the peer afterwards, and exists. */
  function Added(index: Index, e: Entry, p: PeerId): Index {
    index[e := (if e in index then index[e] else {}) + {p}]
  }

  lemma RemovedInverse(index: Index, entries: Reverse, e: Entry, p: PeerId)
    requires Inverse(index, entries) && p in entries
    ensures Inverse(Removed(index, e, p), entries[p := entries[p] - {e}])
  {
    var index', entries' := Removed(index, e, p), entries[p := entries[p] - {e}];
    forall f, q
      ensures Holds(index', f, q) <==> Lists(entries', f, q)
    {
      assert Holds(index, f, q) <==> Lists(entries, f, q);
      if f == e && e in index && q in index[e] && q != p {
        assert q in index[e] - {p};
      }
    }
  }

  lemma AddedInverse(index: Index, entries: Reverse, e: Entry, p: PeerId)
    requires Inverse(index, entries) && p in entries
    ensures Inverse(Added(index, e, p), entries[p := entries[p] + {e}])
  {
    var index', entries' := Added(index, e, p), entries[p := entries[p] + {e}];
    forall f, q
      ensures Holds(index', f, q) <==> Lists(entries', f, q)
    {
      assert Holds(index, f, q) <==> Lists(entries, f, q);
    }
  }

  /** A peer without entries is as good as none. */
  lemma EmptyInverse(index: Index, entries: Reverse, p: PeerId)
    requires p !in entries
    ensures Inverse(index, entries[p := {}]) <==> Inverse(index, entries)
  {
    assert forall e, q :: Lists(entries[p := {}], e, q) == Lists(entries, e, q);
  }

  /** The reverse map lists each peer's snapshot. */
  ghost predicate Snapped(entries: Reverse, snapshots: map<PeerId, Tags>) {
    entries.Keys == snapshots.Keys && forall p :: p in entries ==> entries[p] == EntriesOf(snapshots[p])
  }

  /** The holders of an entry are the peers whose snapshot has it. */
  lemma HoldersAre(index: Index, entries: Reverse, snapshots: map<PeerId, Tags>, key: string, value: TagValue,
                   p: PeerId)
    requires Inverse(index, entries) && Snapped(entries, snapshots) && value.Hashable?
    ensures Holds(index, (key, value), p) <==> p in snapshots && key in snapshots[p] && snapshots[p][key] == value
  {
    assert Holds(index, (key, value), p) <==> Lists(entries, (key, value), p);
  }

  predicate MatchesKeys(tags: Tags, wanted: Tags, keys: set<string>) {
    forall k :: k in keys ==> k in wanted && wanted[k].Hashable? && k in tags && tags[k] == wanted[k]
  }

  function ScanKeys(snapshots: map<PeerId, Tags>, wanted: Tags, keys: set<string>): set<PeerId> {
    set p | p in snapshots && MatchesKeys(snapshots[p], wanted, keys)
  }

  lemma ScanOfAllKeys(snapshots: map<PeerId, Tags>, wanted: Tags)
    ensures ScanKeys(snapshots, wanted, wanted.Keys) == Scan(snapshots, wanted)
    ensures wanted == map[] ==> Scan(snapshots, wanted) == snapshots.Keys
  {
    assert forall p ::
        p in snapshots ==> MatchesKeys(snapshots[p], wanted, wanted.Keys) == Matches(snapshots[p], wanted);
  }

  /** More keys match fewer peers. */
  lemma ScanShrinks(snapshots: map<PeerId, Tags>, wanted: Tags, keys: set<string>)
    requires keys <= wanted.Keys
    ensures Scan(snapshots, wanted) <= ScanKeys(snapshots, wanted, keys)
  {
    assert forall p :: p in snapshots && Matches(snapshots[p], wanted) ==> MatchesKeys(snapshots[p], wanted, keys);
  }

  /** One more key narrows what was found to the holders of its entry. */
  lemma Narrowed(index: Index, entries: Reverse, snapshots: map<PeerId, Tags>, wanted: Tags, keys: set<string>,
                 key: string)
    requires Inverse(index, entries) && Snapped(entries, snapshots) && key in wanted && wanted[key].Hashable?
    ensures var entry := (key, wanted[key]);
            var holders := if entry in index then index[entry] else {};
            ScanKeys(snapshots, wanted, keys + {key}) == ScanKeys(snapshots, wanted, keys) * holders
  {
    var entry := (key, wanted[key]);
    var holders := if entry in index then index[entry] else {};
    forall p
      ensures p in ScanKeys(snapshots, wanted, keys + {key}) <==> p in ScanKeys(snapshots, wanted, keys) && p in holders
    {
      HoldersAre(index, entries, snapshots, key, wanted[key], p);
      if p in snapshots {
        assert MatchesKeys(snapshots[p], wanted, keys + {key})
           <==> MatchesKeys(snapshots[p], wanted, keys) && key in snapshots[p] && snapshots[p][key] == wanted[key];
      }
    }
  }

  /** The first key finds the holders of its entry. */
  lemma ScanOfNoKeys(snapshots: map<PeerId, Tags>, wanted: Tags, index: Index, entries: Reverse, entry: Entry)
    requires Inverse(index, entries) && Snapped(entries, snapshots)
    ensures ScanKeys(snapshots, wanted, {}) == snapshots.Keys
    ensures entry in index ==> index[entry] <= snapshots.Keys
  {
    assert forall p :: p in snapshots ==> MatchesKeys(snapshots[p], wanted, {});
    if entry in index {
      forall p | p in index[entry]
        ensures p in snapshots
      {
        assert Holds(index, entry, p);
        assert Lists(entries, entry, p);
      }
    }
  }

  lemma OneFewer(all: set<string>, done: set<string>, left: set<string>, key: string)
    requires done + left == all && key in left
    ensures (done + {key}) + (left - {key}) == all && |left - {key}| < |left|
  {
  }

  /** What the loop of `peers_for` has after one more key. */
  lemma OneMoreKey(index: Index, entries: Reverse, snapshots: map<PeerId, Tags>, wanted: Tags, keys: set<string>,
                   key: string, any: bool, found: set<PeerId>)
    requires Inverse(index, entries) && Snapped(entries, snapshots) && key in wanted && wanted[key].Hashable?
    requires if any then found == ScanKeys(snapshots, wanted, keys) else keys <= {}
    ensures var entry := (key, wanted[key]);
            var holders := if entry in index then index[entry] else {};
            ScanKeys(snapshots, wanted, keys + {key}) == if any then found * holders else holders
  {
    hide Inverse, Snapped, ScanKeys;
    assert !any ==> keys == {};
    Narrowed(index, entries, snapshots, wanted, keys, key);
    ScanOfNoKeys(snapshots, wanted, index, entries, (key, wanted[key]));
  }

  // ------------------------------------------------------------ the Python port

  class PeerRegistry {
    var index: Index
    var entries: Reverse
    ghost var snapshots: map<PeerId, Tags>

    ghost predicate Valid()
      reads this
    {
      Inverse(index, entries) && Snapped(entries, snapshots)
    }

    constructor ()
      ensures Valid() && snapshots == map[]
    {
      index, entries, snapshots := map[], map[], map[];
    }

    /** No trace of the peer is left, in the reverse map or in any bucket. */
    method DeregisterPeer(peer: PeerId)
      requires Valid()
      modifies this
      ensures Valid() && snapshots == old(snapshots) - {peer} && entries == old(entries) - {peer}
    {
      hide Inverse, Removed, EntriesAmong;
      var left := if peer in entries then entries[peer] else {};
      entries := entries - {peer};
      snapshots := snapshots - {peer};
      if peer in old(entries) {
        assert entries[peer := left] == old(entries);
      } else {
        assert entries == old(entries);
        EmptyInverse(index, entries, peer);
      }
      while left != {}
        invariant entries == old(entries) - {peer} && snapshots == old(snapshots) - {peer}
        invariant Inverse(index, entries[peer := left])
        decreases |left|
      {
        var entry :| entry in left;
        RemovedInverse(index, entries[peer := left], entry, peer);
        assert entries[peer := left][peer := left - {entry}] == entries[peer := left - {entry}];
        left := left - {entry};
        index := RemoveFrom(index, entry, peer);
      }
      EmptyInverse(index, entries, peer);
    }

    /** The snapshot taken here is what later answers go by. */
    method RegisterPeer(peer: PeerId, tags: Tags)
      requires Valid()
      modifies this
      ensures Valid() && snapshots == old(snapshots)[peer := tags]
    {
      hide Inverse, Snapped;
      DeregisterPeer(peer);
      ghost var others, was := entries, snapshots;
      KeysAgree(old(entries), old(snapshots));
      var mine := IndexTags(peer, tags);
      entries := entries[peer := mine];
      snapshots := snapshots[peer := tags];
      OneMoreSnapshot(others, was, peer, tags);
    }

    /** One bucket entry for each tag that can be looked up by. */
    method IndexTags(peer: PeerId, tags: Tags) returns (mine: set<Entry>)
      requires peer !in entries && Inverse(index, entries)
      modifies this`index
      ensures mine == EntriesOf(tags) && Inverse(index, entries[peer := mine])
    {
      hide Inverse, Added, EntriesAmong;
      mine := {};
      var left := tags.Keys;
      EmptyInverse(index, entries, peer);
      while left != {}
        invariant left <= tags.Keys && mine + EntriesAmong(tags, left) == EntriesOf(tags)
        invariant Inverse(index, entries[peer := mine])
        decreases |left|
      {
        var key :| key in left;
        OneLessEntry(tags, left, key, mine);
        left := left - {key};
        if tags[key].Hashable? {
          var entry := (key, tags[key]);
          OneMoreOf(index, entries, mine, entry, peer);
          mine := mine + {entry};
          index := Added(index, entry, peer);
        }
      }
      NoEntries(tags);
    }

    static lemma OneMoreOf(index: map<Entry, set<PeerId>>, entries: map<PeerId, set<Entry>>, mine: set<Entry>,
                           entry: Entry, peer: PeerId)
      requires Inverse(index, entries[peer := mine])
      ensures Inverse(Added(index, entry, peer), entries[peer := mine + {entry}])
    {
      hide Inverse, Added;
      AddedInverse(index, entries[peer := mine], entry, peer);
      assert entries[peer := mine][peer := mine + {entry}] == entries[peer := mine + {entry}];
    }

    /** The answer of the scan, found without one. */
    method PeersFor(wanted: Tags) returns (found: set<PeerId>)
      requires Valid()
      ensures found == Scan(snapshots, wanted)
    {
      hide Inverse, Snapped, Scan, ScanKeys;
      ScanOfAllKeys(snapshots, wanted);
      if wanted == map[] {
        KeysAgree(entries, snapshots);
        return entries.Keys;
      }
      var any := false;
      found := {};
      var left := wanted.Keys;
      ghost var done: set<string> := {};
      while left != {}
        invariant done + left == wanted.Keys
        invariant if any then found == ScanKeys(snapshots, wanted, done) else done <= {}
        decreases |left|
      {
        var key :| key in left;
        var value := wanted[key];
        if value.Unhashable? {
          UnhashableMatchesNone(snapshots, wanted, key);
          return {};
        }
        var holders := if (key, value) in index then index[(key, value)] else {};
        OneMoreKey(index, entries, snapshots, wanted, done, key, any, found);
        OneFewer(wanted.Keys, done, left, key);
        done := done + {key};
        found := if any then found * holders else holders;
        left := left - {key};
        any := true;
        if found == {} {
          ScanShrinks(snapshots, wanted, done);
          return {};
        }
      }
      assert done == wanted.Keys;
    }
  }

  method RemoveFrom(index: Index, e: Entry, p: PeerId) returns (index': Index)
    ensures index' == Removed(index, e, p)
  {
    if e !in index {
      return index;
    }
    var holders := index[e] - {p};
    index' := if holders == {} then index - {e} else index[e := holders];
  }

  lemma NoEntries(tags: Tags)
    ensures EntriesAmong(tags, {}) == {}
  {
  }

  lemma OneMoreSnapshot(entries: Reverse, snapshots: map<PeerId, Tags>, peer: PeerId, tags: Tags)
    requires Snapped(entries, snapshots)
    ensures Snapped(entries[peer := EntriesOf(tags)], snapshots[peer := tags])
  {
    hide EntriesOf;
  }

  lemma KeysAgree(entries: Reverse, snapshots: map<PeerId, Tags>)
    requires Snapped(entries, snapshots)
    ensures entries.Keys == snapshots.Keys
  {
  }

  lemma UnhashableMatchesNone(snapshots: map<PeerId, Tags>, wanted: Tags, key: string)
    requires key in wanted && wanted[key].Unhashable?
    ensures Scan(snapshots, wanted) == {}
  {
  }

  // ------------------------------------------------------------ every sequence of operations

  /** A registry that lives through `ops`, tag writes included, and is asked for `wanted`: it answers as a
      scan of the tags every registered peer had when it was last registered. */
  method AnswerAfter(ops: seq<Op>, wanted: Tags) returns (found: set<PeerId>)
    ensures found == Scan(Snapshots(ops), wanted)
  {
    var registry := new PeerRegistry();
    var current: map<PeerId, Tags> := map[];
    var i := 0;
    while i < |ops|
      invariant 0 <= i <= |ops| && fresh(registry) && registry.Valid()
      invariant current == Current(ops[..i]) && registry.snapshots == Snapshots(ops[..i])
    {
      assert ops[..i + 1][..i] == ops[..i];
      match ops[i] {
        case Write(p, k, v) => current := current[p := TagsOf(current, p)[k := v]];
        case Erase(p, k) => current := current[p := TagsOf(current, p) - {k}];
        case Register(p) => registry.RegisterPeer(p, TagsOf(current, p));
        case Deregister(p) => registry.DeregisterPeer(p);
      }
      i := i + 1;
    }
    assert ops[..i] == ops;
    found := registry.PeersFor(wanted);
  }
}
