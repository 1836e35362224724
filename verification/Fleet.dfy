/** The store of remote peers and the merged view (src/fleet.rs). */
module Fleet {
  import opened Protocol
  import Sorting

  datatype Key = Key(sessionId: string, node: string)

  datatype Entry = Entry(record: PeerRecord, lastSeen: nat)

  datatype Presence = Presence(sessionId: string, pid: nat, cwd: string, node: string, ts: nat)

  function RecordOf(ev: Presence): PeerRecord {
    PeerRecord(ev.sessionId, ev.pid, ev.cwd, "", "", "", "", [], ev.ts, Some(ev.node))
  }

  function KeyOf(ev: Presence): Key {
    Key(ev.sessionId, ev.node)
  }

  // ----- string order, as code points

  predicate Less(a: string, b: string) {
    b != [] && (a == [] || a[0] < b[0] || (a[0] == b[0] && Less(a[1..], b[1..])))
  }

  lemma {:induction false} LessIsTotal(a: string, b: string)
    ensures Less(a, b) || a == b || Less(b, a)
    ensures !(Less(a, b) && Less(b, a)) && !Less(a, a)
    decreases |a|
  {
    if a != [] {
      LessIsTotal(a[1..], if b != [] then b[1..] else []);
      LessIsTotal(a[1..], a[1..]);
      if b != [] && a[0] == b[0] && a[1..] == b[1..] {
        assert a == [a[0]] + a[1..] && b == [b[0]] + b[1..];
      }
    }
  }

  lemma {:induction false} LessIsTransitive(a: string, b: string, c: string)
    requires Less(a, b) && Less(b, c)
    ensures Less(a, c)
    decreases |a|
  {
    if a != [] && a[0] == b[0] == c[0] {
      LessIsTransitive(a[1..], b[1..], c[1..]);
    }
  }

  function NodeOf(rec: PeerRecord): string {
    if rec.node.Some? then rec.node.value else ""
  }

  /** `live_peers` order: by node, then by session. */
  predicate Before(a: PeerRecord, b: PeerRecord) {
    Less(NodeOf(a), NodeOf(b)) || (NodeOf(a) == NodeOf(b) && Less(a.sessionId, b.sessionId))
  }

  lemma {:induction false} BeforeIsTransitive(a: PeerRecord, b: PeerRecord, c: PeerRecord)
    requires Before(a, b) && Before(b, c)
    ensures Before(a, c)
  {
    if Less(NodeOf(a), NodeOf(b)) && Less(NodeOf(b), NodeOf(c)) {
      LessIsTransitive(NodeOf(a), NodeOf(b), NodeOf(c));
    } else if NodeOf(a) == NodeOf(b) == NodeOf(c) {
      LessIsTransitive(a.sessionId, b.sessionId, c.sessionId);
    }
  }

  lemma {:induction false} BeforeIsTotal(a: PeerRecord, b: PeerRecord)
    ensures Before(a, b) || Before(b, a) || (NodeOf(a) == NodeOf(b) && a.sessionId == b.sessionId)
    ensures !(Before(a, b) && Before(b, a)) && !Before(a, a)
  {
    LessIsTotal(NodeOf(a), NodeOf(b));
    LessIsTotal(a.sessionId, b.sessionId);
    LessIsTotal(NodeOf(a), NodeOf(a));
    LessIsTotal(a.sessionId, a.sessionId);
  }

  predicate StrictlySorted(s: seq<PeerRecord>) {
    Sorting.Ordered(Before, s)
  }

  /** A strictly sorted list is determined by what is in it. */
  lemma {:induction false} SortedIsUnique(s: seq<PeerRecord>, t: seq<PeerRecord>)
    requires StrictlySorted(s) && StrictlySorted(t)
    requires forall r :: r in s <==> r in t
    ensures s == t
    decreases |s|
  {
    if s == [] {
      if t != [] {
        SameHead(t, s);
      }
    } else {
      SameHead(s, t);
      SortedIsUnique(s[1..], t[1..]);
      assert s == [s[0]] + s[1..] && t == [t[0]] + t[1..];
    }
  }

  lemma {:induction false} SameHead(s: seq<PeerRecord>, t: seq<PeerRecord>)
    requires StrictlySorted(s) && StrictlySorted(t) && s != []
    requires forall r :: r in s <==> r in t
    ensures t != [] && s[0] == t[0]
    ensures forall r :: r in s[1..] <==> r in t[1..]
  {
    assert s[0] in t && t[0] in s;
    var i :| 0 <= i < |t| && t[i] == s[0];
    var j :| 0 <= j < |s| && s[j] == t[0];
    BeforeIsTotal(s[0], t[0]);
    forall r
      ensures r in s[1..] <==> r in t[1..]
    {
      BeforeIsTotal(s[0], s[0]);
      assert r in s <==> r == s[0] || r in s[1..];
      assert r in t <==> r == t[0] || r in t[1..];
      assert s[0] !in s[1..] && t[0] !in t[1..];
    }
  }

  // ----- the store

  type Entries = map<Key, Entry>

  /** Each record is filed under its own session and node. */
  ghost predicate Filed(entries: Entries) {
    forall k :: k in entries ==> entries[k].record.sessionId == k.sessionId && entries[k].record.node == Some(k.node)
  }

  predicate Fresh(e: Entry, now: nat, ttl: nat) {
    (if now >= e.lastSeen then now - e.lastSeen else 0) <= ttl
  }

  ghost predicate IsLive(entries: Entries, rec: PeerRecord, now: nat, ttl: nat) {
    exists k :: k in entries && Fresh(entries[k], now, ttl) && entries[k].record == rec
  }

  datatype FleetEvent = Announced(ev: Presence, arrived: nat) | Gone(sessionId: string, node: string)

  function Concerning(e: FleetEvent): Key {
    if e.Announced? then KeyOf(e.ev) else Key(e.sessionId, e.node)
  }

  function Applied(entries: Entries, e: FleetEvent): Entries {
    match e
    case Announced(ev, arrived) => entries[KeyOf(ev) := Entry(RecordOf(ev), arrived)]
    case Gone(sessionId, node) => entries - {Key(sessionId, node)}
  }

  function Folded(log: seq<FleetEvent>): Entries {
    if log == [] then map[] else Applied(Folded(log[..|log| - 1]), log[|log| - 1])
  }

  /** Where in the log a key is spoken of last. */
  predicate LastFor(log: seq<FleetEvent>, k: Key, i: nat) {
    i < |log| && Concerning(log[i]) == k && forall j :: i < j < |log| ==> Concerning(log[j]) != k
  }

  /** The store holds a key exactly if the last event for it is an announce, and then just as that announce had it. */
  lemma {:induction false} FoldIsLastEvent(log: seq<FleetEvent>, k: Key)
    ensures Filed(Folded(log))
    ensures k in Folded(log) <==> exists i: nat :: LastFor(log, k, i) && log[i].Announced?
    ensures forall i: nat :: LastFor(log, k, i) && log[i].Announced? ==>
              k in Folded(log) && Folded(log)[k] == Entry(RecordOf(log[i].ev), log[i].arrived)
    decreases |log|
  {
    if log != [] {
      var n := |log| - 1;
      FoldIsLastEvent(log[..n], k);
      if Concerning(log[n]) == k {
        assert LastFor(log, k, n);
        assert forall i: nat :: LastFor(log, k, i) ==> i == n;
      } else {
        assert forall i: nat :: LastFor(log, k, i) <==> LastFor(log[..n], k, i);
      }
    }
  }

  class FleetStore {
    var entries: Entries
    const ttlSecs: nat

    constructor (ttlSecs: nat)
      ensures this.ttlSecs == ttlSecs && entries == Folded([])
    {
      this.ttlSecs := ttlSecs;
      entries := map[];
    }

    method Announce(ev: Presence, now: nat)
      modifies this
      ensures entries == Applied(old(entries), Announced(ev, now))
    {
      var record := PeerRecord(ev.sessionId, ev.pid, ev.cwd, "", "", "", "", [], ev.ts, Some(ev.node));
      entries := entries[Key(ev.sessionId, ev.node) := Entry(record, now)];
    }

    method Remove(sessionId: string, node: string)
      modifies this
      ensures entries == Applied(old(entries), Gone(sessionId, node))
    {
      entries := entries - {Key(sessionId, node)};
    }

    /** Whatever order the map is iterated in: exactly the live records, strictly sorted. */
    method LivePeers(now: nat) returns (peers: seq<PeerRecord>)
      requires Filed(entries)
      ensures StrictlySorted(peers)
      ensures forall r :: r in peers <==> IsLive(entries, r, now, ttlSecs)
    {
      var found: seq<PeerRecord> := [];
      var rest := entries.Keys;
      while rest != {}
        invariant rest <= entries.Keys
        invariant forall r :: r in found <==>
            exists k :: k in entries && k !in rest && Fresh(entries[k], now, ttlSecs) && entries[k].record == r
        invariant forall i, j :: 0 <= i < j < |found| ==> Before(found[i], found[j]) || Before(found[j], found[i])
        decreases |rest|
      {
        var k :| k in rest;
        if Fresh(entries[k], now, ttlSecs) {
          forall i | 0 <= i < |found|
            ensures Before(found[i], entries[k].record) || Before(entries[k].record, found[i])
          {
            assert found[i] in found;
            var m :| m in entries && m !in rest && entries[m].record == found[i];
            BeforeIsTotal(found[i], entries[k].record);
          }
          found := found + [entries[k].record];
        }
        rest := rest - {k};
      }
      peers := Sorted(found);
    }
  }

  /** `sort_by`, on records no two of which compare equal. */
  method Sorted(found: seq<PeerRecord>) returns (peers: seq<PeerRecord>)
    requires forall i, j :: 0 <= i < j < |found| ==> Before(found[i], found[j]) || Before(found[j], found[i])
    ensures StrictlySorted(peers)
    ensures forall r :: r in peers <==> r in found
  {
    peers := [];
    forall a, b, c | Before(a, b) && Before(b, c)
      ensures Before(a, c)
    {
      BeforeIsTransitive(a, b, c);
    }
    for n := 0 to |found|
      invariant StrictlySorted(peers)
      invariant forall r :: r in peers <==> r in found[..n]
    {
      forall i | 0 <= i < |peers|
        ensures Before(peers[i], found[n]) || Before(found[n], peers[i])
      {
        assert peers[i] in found[..n];
      }
      Sorting.InsertedIsOrdered(Before, peers, found[n]);
      peers := Sorting.Inserted(Before, peers, found[n]);
    }
  }

  /** The view is canonical: two calls that saw the same entries, however each iterated them, return the same list. */
  lemma {:induction false} ViewIsCanonical(entries: Entries, s: seq<PeerRecord>, t: seq<PeerRecord>, now: nat, ttl: nat)
    requires StrictlySorted(s) && forall r :: r in s <==> IsLive(entries, r, now, ttl)
    requires StrictlySorted(t) && forall r :: r in t <==> IsLive(entries, r, now, ttl)
    ensures s == t
  {
    SortedIsUnique(s, t);
  }

  /** A peer is in the view of a store fed with `log` exactly if the last event for it is an announce that
      arrived within the TTL. */
  lemma {:induction false} ViewIsRecentAnnounces(log: seq<FleetEvent>, k: Key, now: nat, ttl: nat)
    ensures (exists r :: IsLive(Folded(log), r, now, ttl) && r.sessionId == k.sessionId && r.node == Some(k.node)) <==>
            (exists i: nat :: LastFor(log, k, i) && log[i].Announced? && now <= log[i].arrived + ttl)
  {
    FoldIsLastEvent(log, k);
    var entries := Folded(log);
    if exists i: nat :: LastFor(log, k, i) && log[i].Announced? && now <= log[i].arrived + ttl {
      var i: nat :| LastFor(log, k, i) && log[i].Announced? && now <= log[i].arrived + ttl;
      assert IsLive(entries, entries[k].record, now, ttl);
    }
  }

  /** And a peer that is in the view is there as its last announce had it, and with nothing else. */
  lemma {:induction false} ViewSaysLastAnnounce(log: seq<FleetEvent>, rec: PeerRecord, now: nat,
                                                ttl: nat) returns (i: nat)
    requires IsLive(Folded(log), rec, now, ttl)
    ensures i < |log| && log[i].Announced? && rec.sessionId == log[i].ev.sessionId && rec.node == Some(log[i].ev.node)
    ensures LastFor(log, Key(rec.sessionId, log[i].ev.node), i)
    ensures rec.pid == log[i].ev.pid && rec.cwd == log[i].ev.cwd && rec.lastHeartbeat == log[i].ev.ts
    ensures rec.intent == "" && rec.lastTool == "" && rec.skill == "" && rec.prdSlug == "" && rec.workingPaths == []
    ensures now <= log[i].arrived + ttl
  {
    var k :| k in Folded(log) && Fresh(Folded(log)[k], now, ttl) && Folded(log)[k].record == rec;
    FoldIsLastEvent(log, k);
    i :| LastFor(log, k, i) && log[i].Announced?;
  }

  /** The view goes by node, and by session only within a node, each in lexicographic order of characters. */
  lemma {:induction false} ViewGoesByNode(s: seq<PeerRecord>, i: nat, j: nat)
    requires StrictlySorted(s) && i < j < |s| && s[i].node.Some? && s[j].node.Some?
    ensures Precedes(s[i].node.value, s[j].node.value)
            || (s[i].node == s[j].node && Precedes(s[i].sessionId, s[j].sessionId))
  {
    assert Before(s[i], s[j]);
    LessIsLexicographic(s[i].node.value, s[j].node.value);
    LessIsLexicographic(s[i].sessionId, s[j].sessionId);
  }

  /** Two strings part after `n` characters: there the first ends, or has the lower one. */
  predicate PartsAt(a: string, b: string, n: nat) {
    n <= |a| && n < |b| && a[..n] == b[..n] && (n == |a| || a[n] < b[n])
  }

  ghost predicate Precedes(a: string, b: string) {
    exists n: nat :: PartsAt(a, b, n)
  }

  lemma {:induction false} LessIsLexicographic(a: string, b: string)
    ensures Less(a, b) <==> Precedes(a, b)
    decreases |a|
  {
    if a == [] || b == [] || a[0] != b[0] {
      if (a == [] && b != []) || (a != [] && b != [] && a[0] < b[0]) {
        assert PartsAt(a, b, 0);
      }
      assert forall n: nat :: PartsAt(a, b, n) ==> n == 0;
    } else {
      LessIsLexicographic(a[1..], b[1..]);
      if n: nat :| PartsAt(a[1..], b[1..], n) {
        assert a[..n + 1] == [a[0]] + a[1..][..n] && b[..n + 1] == [b[0]] + b[1..][..n];
        assert PartsAt(a, b, n + 1);
      }
      if n: nat :| PartsAt(a, b, n) {
        assert n > 0;
        assert a[1..][..n - 1] == a[..n][1..] && b[1..][..n - 1] == b[..n][1..];
        assert PartsAt(a[1..], b[1..], n - 1);
      }
    }
  }

  // ----- the merged view

  function MergeKey(rec: PeerRecord): (string, Option<string>) {
    (rec.sessionId, rec.node)
  }

  predicate DistinctKeys(s: seq<PeerRecord>) {
    forall i, j :: 0 <= i < j < |s| ==> s[i].sessionId != s[j].sessionId || s[i].node != s[j].node
  }

  /** The local list comes first and whole; after it, in order, the remote records whose key no local one has. */
  method MergePeers(local: seq<PeerRecord>, remote: seq<PeerRecord>) returns (merged: seq<PeerRecord>)
    ensures merged == local + Unmatched(local, remote)
  {
    var localKeys := set p | p in local :: MergeKey(p);
    merged := local;
    for n := 0 to |remote|
      invariant merged == local + Unmatched(local, remote[..n])
    {
      assert remote[..n + 1][..n] == remote[..n];
      if MergeKey(remote[n]) !in localKeys {
        merged := merged + [remote[n]];
      }
    }
    assert remote[..|remote|] == remote;
  }

  function Unmatched(local: seq<PeerRecord>, remote: seq<PeerRecord>): seq<PeerRecord> {
    if remote == [] then [] else
    var last := remote[|remote| - 1];
    Unmatched(local, remote[..|remote| - 1]) +
      (if exists p :: p in local && MergeKey(p) == MergeKey(last) then [] else [last])
  }

  lemma {:induction false} UnmatchedAre(local: seq<PeerRecord>, remote: seq<PeerRecord>)
    ensures forall r :: r in Unmatched(local, remote) <==>
                          r in remote && forall p :: p in local ==> p.sessionId != r.sessionId || p.node != r.node
    decreases |remote|
  {
    if remote != [] {
      var n := |remote| - 1;
      UnmatchedAre(local, remote[..n]);
      assert remote == remote[..n] + [remote[n]];
    }
  }

  lemma {:induction false} UnmatchedDistinct(local: seq<PeerRecord>, remote: seq<PeerRecord>)
    requires DistinctKeys(remote)
    ensures DistinctKeys(Unmatched(local, remote))
    decreases |remote|
  {
    if remote != [] {
      var n := |remote| - 1;
      UnmatchedDistinct(local, remote[..n]);
      UnmatchedAre(local, remote[..n]);
      var front := Unmatched(local, remote[..n]);
      forall i | 0 <= i < |front|
        ensures MergeKey(front[i]) != MergeKey(remote[n])
      {
        assert front[i] in remote[..n];
      }
    }
  }

  /** Merging duplicate-free lists gives a duplicate-free list that begins with the local one. */
  lemma {:induction false} MergedKeysAreUnique(local: seq<PeerRecord>, remote: seq<PeerRecord>)
    requires DistinctKeys(local) && DistinctKeys(remote)
    ensures DistinctKeys(local + Unmatched(local, remote)) && local <= local + Unmatched(local, remote)
    ensures forall r :: r in remote ==>
                          exists m :: m in local + Unmatched(local, remote) && m.sessionId == r.sessionId &&
                              m.node == r.node
  {
    UnmatchedDistinct(local, remote);
    UnmatchedAre(local, remote);
    var tail := Unmatched(local, remote);
    forall i, j | 0 <= i < |local| && 0 <= j < |tail|
      ensures MergeKey(local[i]) != MergeKey(tail[j])
    {
      assert tail[j] in tail && local[i] in local;
    }
    forall r | r in remote
      ensures exists m :: m in local + tail && MergeKey(m) == MergeKey(r)
    {
      if r in tail {
        assert r in local + tail;
      } else {
        var p :| p in local && MergeKey(p) == MergeKey(r);
        assert p in local + tail;
      }
    }
  }

  /** A strictly sorted view has no duplicate keys, so it may be merged as it is. */
  lemma {:induction false} SortedIsDistinct(s: seq<PeerRecord>)
    requires StrictlySorted(s)
    ensures DistinctKeys(s)
  {
    forall i, j | 0 <= i < j < |s|
      ensures MergeKey(s[i]) != MergeKey(s[j])
    {
      BeforeIsTotal(s[i], s[i]);
    }
  }

  /** Local peers carry no node unless they announced one, remote peers always do: then nothing is a duplicate, and
      a peer of this very node that came back over presence is listed beside its local record. */
  lemma {:induction false} UntaggedLocalsHideNothing(local: seq<PeerRecord>, remote: seq<PeerRecord>)
    requires forall p :: p in local ==> p.node.None?
    requires forall r :: r in remote ==> r.node.Some?
    ensures Unmatched(local, remote) == remote
    decreases |remote|
  {
    if remote != [] {
      var n := |remote| - 1;
      assert remote == remote[..n] + [remote[n]];
      UntaggedLocalsHideNothing(local, remote[..n]);
      assert MergeKey(remote[n]).1.Some?;
      assert forall p | p in local :: MergeKey(p).1.None?;
      assert Unmatched(local, remote) == Unmatched(local, remote[..n]) + [remote[n]];
    }
  }
}
