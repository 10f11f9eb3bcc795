/** The TypeScript port of the registry: the index is a map of maps, and each peer's entries are an array.
    It answers as the same scan, so as the Python port does. */
module RegistryPort {
  import opened Registry

  type TwoLevels = map<string, map<TagValue, set<PeerId>>>

  type Arrays = map<PeerId, seq<Entry>>

  predicate HoldsAt(index: TwoLevels, e: Entry, p: PeerId) {
    e.0 in index && e.1 in index[e.0] && p in index[e.0][e.1]
  }

  predicate ListsAt(entries: Arrays, e: Entry, p: PeerId) {
    p in entries && e in entries[p]
  }

  /** Mutual inverses, with no empty set of holders and no empty inner map. */
  ghost predicate InverseAt(index: TwoLevels, entries: Arrays) {
    && (forall k :: k in index ==> index[k] != map[])
    && (forall k, v :: k in index && v in index[k] ==> index[k][v] != {})
    && (forall e, p :: HoldsAt(index, e, p) <==> ListsAt(entries, e, p))
  }

  ghost predicate SnappedAt(entries: Arrays, snapshots: map<PeerId, Tags>) {
    && entries.Keys == snapshots.Keys
    && forall p :: p in entries ==> forall e :: e in entries[p] <==> e in EntriesOf(snapshots[p])
  }

  /** Neither an empty set of holders nor an empty inner map is left behind. */
  function Pruned(index: TwoLevels, e: Entry, p: PeerId): TwoLevels {
    if e.0 !in index || e.1 !in index[e.0] then index
    else
      var holders := index[e.0][e.1] - {p};
      var byValue := if holders == {} then index[e.0] - {e.1} else index[e.0][e.1 := holders];
      if byValue == map[] then index - {e.0} else index[e.0 := byValue]
  }

  function Grafted(index: TwoLevels, e: Entry, p: PeerId): TwoLevels {
    var byValue := if e.0 in index then index[e.0] else map[];
    var holders := if e.1 in byValue then byValue[e.1] else {};
    index[e.0 := byValue[e.1 := holders + {p}]]
  }

  lemma PrunedHolds(index: TwoLevels, e: Entry, p: PeerId, f: Entry, q: PeerId)
    ensures HoldsAt(Pruned(index, e, p), f, q) <==> HoldsAt(index, f, q) && !(f == e && q == p)
  {
    if e.0 in index && e.1 in index[e.0] {
      var holders := index[e.0][e.1] - {p};
      var byValue := if holders == {} then index[e.0] - {e.1} else index[e.0][e.1 := holders];
      assert q in index[e.0][e.1] && q != p ==> q in holders;
      assert f.0 == e.0 && f.1 != e.1 && f.1 in index[e.0] ==> f.1 in byValue;
      assert holders != {} ==> e.1 in byValue;
    }
  }

  lemma PrunedFull(index: TwoLevels, e: Entry, p: PeerId)
    requires forall k :: k in index ==> index[k] != map[]
    requires forall k, v :: k in index && v in index[k] ==> index[k][v] != {}
    ensures forall k :: k in Pruned(index, e, p) ==> Pruned(index, e, p)[k] != map[]
    ensures forall k, v :: k in Pruned(index, e, p) && v in Pruned(index, e, p)[k] ==> Pruned(index, e, p)[k][v] != {}
  {
  }

  lemma GraftedHolds(index: TwoLevels, e: Entry, p: PeerId, f: Entry, q: PeerId)
    ensures HoldsAt(Grafted(index, e, p), f, q) <==> HoldsAt(index, f, q) || (f == e && q == p)
  {
  }

  lemma GraftedFull(index: TwoLevels, e: Entry, p: PeerId)
    requires forall k :: k in index ==> index[k] != map[]
    requires forall k, v :: k in index && v in index[k] ==> index[k][v] != {}
    ensures forall k :: k in Grafted(index, e, p) ==> Grafted(index, e, p)[k] != map[]
    ensures forall k, v ::
      k in Grafted(index, e, p) && v in Grafted(index, e, p)[k] ==> Grafted(index, e, p)[k][v] != {}
  {
    var byValue := if e.0 in index then index[e.0] else map[];
    var holders := if e.1 in byValue then byValue[e.1] else {};
    assert p in holders + {p};
    assert e.1 in byValue[e.1 := holders + {p}];
  }

  /** One entry leaves the peer's array and the index together. */
  lemma PrunedInverse(index: TwoLevels, entries: Arrays, p: PeerId, rest: seq<Entry>)
    requires p !in entries && rest != [] && rest[0] !in rest[1..] && InverseAt(index, entries[p := rest])
    ensures InverseAt(Pruned(index, rest[0], p), entries[p := rest[1..]])
  {
    var e := rest[0];
    PrunedFull(index, e, p);
    forall f, q
      ensures HoldsAt(Pruned(index, e, p), f, q) <==> ListsAt(entries[p := rest[1..]], f, q)
    {
      PrunedHolds(index, e, p, f, q);
      assert HoldsAt(index, f, q) <==> ListsAt(entries[p := rest], f, q);
      assert f in rest <==> f == e || f in rest[1..];
    }
  }

  lemma GraftedInverse(index: TwoLevels, entries: Arrays, p: PeerId, mine: seq<Entry>, e: Entry)
    requires p !in entries && InverseAt(index, entries[p := mine])
    ensures InverseAt(Grafted(index, e, p), entries[p := mine + [e]])
  {
    GraftedFull(index, e, p);
    forall f, q
      ensures HoldsAt(Grafted(index, e, p), f, q) <==> ListsAt(entries[p := mine + [e]], f, q)
    {
      GraftedHolds(index, e, p, f, q);
      assert HoldsAt(index, f, q) <==> ListsAt(entries[p := mine], f, q);
    }
  }

  lemma EmptyInverseAt(index: TwoLevels, entries: Arrays, p: PeerId)
    requires p !in entries
    ensures InverseAt(index, entries[p := []]) <==> InverseAt(index, entries)
  {
    assert forall e, q :: ListsAt(entries[p := []], e, q) == ListsAt(entries, e, q);
  }

  /** No entry of an array comes twice. */
  ghost predicate Unrepeated(list: seq<Entry>) {
    forall i, j :: 0 <= i < j < |list| ==> list[i] != list[j]
  }

  ghost predicate AllUnrepeated(entries: Arrays) {
    forall p :: p in entries ==> Unrepeated(entries[p])
  }

  lemma NarrowedAt(index: TwoLevels, entries: Arrays, snapshots: map<PeerId, Tags>, wanted: Tags, keys: set<string>,
                   key: string)
    requires InverseAt(index, entries) && SnappedAt(entries, snapshots) && key in wanted && wanted[key].Hashable?
    ensures var holders := if key in index && wanted[key] in index[key] then index[key][wanted[key]] else {};
            && ScanKeys(snapshots, wanted, keys + {key}) == ScanKeys(snapshots, wanted, keys) * holders
            && holders <= snapshots.Keys
            && ScanKeys(snapshots, wanted, {}) == snapshots.Keys
  {
    var value := wanted[key];
    var holders := if key in index && value in index[key] then index[key][value] else {};
    forall p
      ensures p in holders <==> p in snapshots && key in snapshots[p] && snapshots[p][key] == value
    {
      assert HoldsAt(index, (key, value), p) <==> ListsAt(entries, (key, value), p);
      assert p in snapshots
          ==> ((key, value) in EntriesOf(snapshots[p]) <==> key in snapshots[p] && snapshots[p][key] == value);
    }
    forall p | p in snapshots
      ensures MatchesKeys(snapshots[p], wanted, keys + {key})
         <==> MatchesKeys(snapshots[p], wanted, keys) && key in snapshots[p] && snapshots[p][key] == value
    {
    }
    assert forall p :: p in snapshots ==> MatchesKeys(snapshots[p], wanted, {});
  }

  lemma OneMoreKeyAt(index: TwoLevels, entries: Arrays, snapshots: map<PeerId, Tags>, wanted: Tags, keys: set<string>,
                     key: string, any: bool, found: set<PeerId>)
    requires InverseAt(index, entries) && SnappedAt(entries, snapshots) && key in wanted && wanted[key].Hashable?
    requires if any then found == ScanKeys(snapshots, wanted, keys) else keys <= {}
    ensures var holders := if key in index && wanted[key] in index[key] then index[key][wanted[key]] else {};
            ScanKeys(snapshots, wanted, keys + {key}) == if any then found * holders else holders
  {
    hide InverseAt, SnappedAt, ScanKeys;
    assert !any ==> keys == {};
    NarrowedAt(index, entries, snapshots, wanted, keys, key);
  }

  class PortRegistry {
    var index: TwoLevels
    var entries: Arrays
    ghost var snapshots: map<PeerId, Tags>

    ghost predicate Valid()
      reads this
    {
      InverseAt(index, entries) && SnappedAt(entries, snapshots) && AllUnrepeated(entries)
    }

    constructor ()
      ensures Valid() && snapshots == map[]
    {
      index, entries, snapshots := map[], map[], map[];
    }

    method DeregisterPeer(peer: PeerId)
      requires Valid()
      modifies this
      ensures Valid() && snapshots == old(snapshots) - {peer} && entries == old(entries) - {peer}
    {
      hide InverseAt, Pruned, EntriesOf;
      if peer !in entries {
        return;
      }
      var mine := entries[peer];
      entries := entries - {peer};
      snapshots := snapshots - {peer};
      var i := 0;
      assert entries[peer := mine] == old(entries) && mine[0..] == mine;
      while i < |mine|
        invariant 0 <= i <= |mine| && Unrepeated(mine)
        invariant entries == old(entries) - {peer} && snapshots == old(snapshots) - {peer}
        invariant InverseAt(index, entries[peer := mine[i..]])
      {
        assert mine[i..][0] == mine[i] && mine[i..][1..] == mine[i + 1..];
        PrunedInverse(index, entries, peer, mine[i..]);
        index := Pruned(index, mine[i], peer);
        i := i + 1;
      }
      assert mine[i..] == [];
      EmptyInverseAt(index, entries, peer);
    }

    method RegisterPeer(peer: PeerId, tags: Tags)
      requires Valid()
      modifies this
      ensures Valid() && snapshots == old(snapshots)[peer := tags]
    {
      hide InverseAt, SnappedAt, EntriesOf;
      DeregisterPeer(peer);
      ghost var others, was := entries, snapshots;
      KeysAgreeAt(old(entries), old(snapshots));
      KeysAgreeAt(others, was);
      var mine := IndexTags(peer, tags);
      entries := entries[peer := mine];
      snapshots := snapshots[peer := tags];
      OneMoreArray(others, was, peer, tags, mine);
    }

    method IndexTags(peer: PeerId, tags: Tags) returns (mine: seq<Entry>)
      requires peer !in entries && InverseAt(index, entries)
      modifies this`index
      ensures (forall e :: e in mine <==> e in EntriesOf(tags)) && Unrepeated(mine)
      ensures InverseAt(index, entries[peer := mine])
    {
      hide InverseAt, Grafted, EntriesAmong;
      mine := [];
      var left := tags.Keys;
      EmptyInverseAt(index, entries, peer);
      while left != {}
        invariant left <= tags.Keys && Unrepeated(mine)
        invariant forall e :: e in EntriesOf(tags) <==> e in mine || e in EntriesAmong(tags, left)
        invariant forall e :: e in mine ==> e.0 !in left
        invariant InverseAt(index, entries[peer := mine])
        decreases |left|
      {
        var key :| key in left;
        OneLessEntry(tags, left, key, {});
        left := left - {key};
        if tags[key].Hashable? {
          var entry := (key, tags[key]);
          GraftedInverse(index, entries, peer, mine, entry);
          mine := mine + [entry];
          index := Grafted(index, entry, peer);
        }
      }
      NoEntries(tags);
    }

    method PeersFor(wanted: Tags) returns (found: set<PeerId>)
      requires Valid()
      ensures found == Scan(snapshots, wanted)
    {
      hide InverseAt, SnappedAt, Scan, ScanKeys;
      ScanOfAllKeys(snapshots, wanted);
      if wanted == map[] {
        KeysAgreeAt(entries, snapshots);
        return entries.Keys;
      }
      var any := false;
      found := {};
      var left := wanted.Keys;
      ghost var done: set<string> := {};
      while left != {}
        invariant done + left == wanted.Keys
        invariant if any then found == ScanKeys(snapshots, wanted, done) else done <= {}
        decreases |left|
      {
        var key :| key in left;
        var value := wanted[key];
        if value.Unhashable? {
          UnhashableMatchesNone(snapshots, wanted, key);
          return {};
        }
        var holders := if key in index && value in index[key] then index[key][value] else {};
        OneMoreKeyAt(index, entries, snapshots, wanted, done, key, any, found);
        OneFewer(wanted.Keys, done, left, key);
        done := done + {key};
        left := left - {key};
        found := if any then found * holders else holders;
        any := true;
        if holders == {} || found == {} {
          assert found == {};
          ScanShrinks(snapshots, wanted, done);
          return {};
        }
      }
      assert done == wanted.Keys;
    }
  }

  lemma KeysAgreeAt(entries: Arrays, snapshots: map<PeerId, Tags>)
    requires SnappedAt(entries, snapshots)
    ensures entries.Keys == snapshots.Keys
  {
  }

  lemma OneMoreArray(entries: Arrays, snapshots: map<PeerId, Tags>, peer: PeerId, tags: Tags, mine: seq<Entry>)
    requires SnappedAt(entries, snapshots) && forall e :: e in mine <==> e in EntriesOf(tags)
    ensures SnappedAt(entries[peer := mine], snapshots[peer := tags])
  {
    hide EntriesOf;
  }

  /** After any sequence of operations the port answers as the same scan. */
  method AnswerAfter(ops: seq<Op>, wanted: Tags) returns (found: set<PeerId>)
    ensures found == Scan(Snapshots(ops), wanted)
  {
    var registry := new PortRegistry();
    var current: map<PeerId, Tags> := map[];
    var i := 0;
    while i < |ops|
      invariant 0 <= i <= |ops| && fresh(registry) && registry.Valid()
      invariant current == Current(ops[..i]) && registry.snapshots == Snapshots(ops[..i])
    {
      assert ops[..i + 1][..i] == ops[..i];
      match ops[i] {
        case Write(p, k, v) => current := current[p := TagsOf(current, p)[k := v]];
        case Erase(p, k) => current := current[p := TagsOf(current, p) - {k}];
        case Register(p) => registry.RegisterPeer(p, TagsOf(current, p));
        case Deregister(p) => registry.DeregisterPeer(p);
      }
      i := i + 1;
    }
    assert ops[..i] == ops;
    found := registry.PeersFor(wanted);
  }
}
