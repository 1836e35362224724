/** Pruning expired claims on the way (src/daemon.rs, `prune_expired_claims`) against a lease table
    that never deletes on expiry and only filters when asked. */
module LazyExpiry {
  import opened Protocol
  import opened BusModel
  import opened DaemonMachine
  import Exclusion
  import Durability

  type Table = map<string, ClaimRecord>

  predicate ClaimOp(m: ClientMessage) {
    m.ClaimAcquire? || m.ClaimRelease? || m.ClaimList?
  }

  /** One claim operation in lock order: who, what, and the clock sample it works with. */
  datatype Op = Op(sid: string, m: ClientMessage, sample: nat)

  predicate AllClaimOps(ops: seq<Op>) {
    forall i :: 0 <= i < |ops| ==> ClaimOp(ops[i].m)
  }

  /** The daemon's handler, on a table alone. */
  function Eager(table: Table, op: Op): (Table, Reply)
    requires ClaimOp(op.m)
  {
    var o := Critical(Bus(map[], map[], table, map[]), op.sid, 0, op.m, op.sample, 0);
    (o.bus.claims, o.reply)
  }

  /** The reference: expiry is a question asked of the table, never a deletion. */
  function Lazy(table: Table, op: Op): (Table, Reply)
    requires ClaimOp(op.m)
  {
    match op.m
    case ClaimAcquire(path, ttl, reason, force) =>
      if path in table && table[path].ttl > op.sample && table[path].sessionId != op.sid && !force
      then (table, Conflict(table[path].sessionId, table[path].ttl, table[path].reason))
      else (table[path := ClaimRecord(path, op.sid, ttl, op.sample, reason)], Granted(path, ttl))
    case ClaimRelease(path) =>
      if path in table && table[path].ttl > op.sample && table[path].sessionId == op.sid
      then (table - {path}, Released(true)) else (table, Released(false))
    case ClaimList => (table, ClaimsListed(set p | p in table && table[p].ttl > op.sample :: table[p]))
  }

  function EagerReplies(table: Table, ops: seq<Op>): seq<Reply>
    requires AllClaimOps(ops)
    decreases |ops|
  {
    if ops == [] then [] else
    var r := Eager(table, ops[0]);
    [r.1] + EagerReplies(r.0, ops[1..])
  }

  function LazyReplies(table: Table, ops: seq<Op>): seq<Reply>
    requires AllClaimOps(ops)
    decreases |ops|
  {
    if ops == [] then [] else
    var r := Lazy(table, ops[0]);
    [r.1] + LazyReplies(r.0, ops[1..])
  }

  predicate Ordered(ts: seq<nat>) {
    forall i :: 0 < i < |ts| ==> ts[i - 1] <= ts[i]
  }

  function Samples(ops: seq<Op>): (ts: seq<nat>)
    ensures |ts| == |ops| && forall i :: 0 <= i < |ops| ==> ts[i] == ops[i].sample
  {
    if ops == [] then [] else [ops[0].sample] + Samples(ops[1..])
  }

  /** From `now` on, nobody who asks can tell the two tables apart. */
  ghost predicate SameFrom(a: Table, b: Table, now: nat) {
    forall t: nat :: now <= t ==> Live(a, t) == Live(b, t)
  }

  lemma {:induction false} SameFromLive(a: Table, b: Table, now: nat)
    requires Live(a, now) == Live(b, now)
    ensures SameFrom(a, b, now)
  {
    forall t: nat | now <= t
      ensures Live(a, t) == Live(b, t)
    {
      assert Live(a, t) == Live(Live(a, now), t);
      assert Live(b, t) == Live(Live(b, now), t);
    }
  }

  /** What equality up to expiry says of one path. */
  lemma {:induction false} SameAt(a: Table, b: Table, now: nat, p: string)
    requires Live(a, now) == Live(b, now)
    ensures p in a && a[p].ttl > now <==> p in b && b[p].ttl > now
    ensures p in a && a[p].ttl > now ==> a[p] == b[p]
  {
    assert p in a && a[p].ttl > now <==> p in Live(a, now);
    assert p in b && b[p].ttl > now <==> p in Live(b, now);
  }

  /** Tables that agree on every path up to expiry are equal up to expiry. */
  lemma {:induction false} SameEverywhere(a: Table, b: Table, now: nat)
    requires forall p {:trigger p in Live(a, now)} {:trigger p in Live(b, now)} ::
               (p in Live(a, now) <==> p in Live(b, now)) && (p in Live(a, now) ==> a[p] == b[p])
    ensures Live(a, now) == Live(b, now)
  {
  }

  lemma {:induction false} AcquireMatches(eager: Table, lazy: Table, op: Op)
    requires op.m.ClaimAcquire? && Live(eager, op.sample) == Live(lazy, op.sample)
    ensures Eager(eager, op).1 == Lazy(lazy, op).1
    ensures Live(Eager(eager, op).0, op.sample) == Live(Lazy(lazy, op).0, op.sample)
  {
    var e, l := Eager(eager, op).0, Lazy(lazy, op).0;
    SameAt(eager, lazy, op.sample, op.m.path);
    forall p {:trigger p in Live(e, op.sample)} {:trigger p in Live(l, op.sample)}
      ensures (p in Live(e, op.sample) <==> p in Live(l, op.sample)) && (p in Live(e, op.sample) ==> e[p] == l[p])
    {
      SameAt(eager, lazy, op.sample, p);
    }
    SameEverywhere(e, l, op.sample);
  }

  lemma {:induction false} ReleaseMatches(eager: Table, lazy: Table, op: Op)
    requires op.m.ClaimRelease? && Live(eager, op.sample) == Live(lazy, op.sample)
    ensures Eager(eager, op).1 == Lazy(lazy, op).1
    ensures Live(Eager(eager, op).0, op.sample) == Live(Lazy(lazy, op).0, op.sample)
  {
    var e, l := Eager(eager, op).0, Lazy(lazy, op).0;
    SameAt(eager, lazy, op.sample, op.m.path);
    forall p {:trigger p in Live(e, op.sample)} {:trigger p in Live(l, op.sample)}
      ensures (p in Live(e, op.sample) <==> p in Live(l, op.sample)) && (p in Live(e, op.sample) ==> e[p] == l[p])
    {
      SameAt(eager, lazy, op.sample, p);
    }
    SameEverywhere(e, l, op.sample);
  }

  /** Filtered when asked, or looked up after a prune: the same records. */
  lemma {:induction false} ListedLive(table: Table, now: nat)
    ensures (set p | p in table && table[p].ttl > now :: table[p]) == Live(table, now).Values
  {
    forall rec
      ensures rec in (set p | p in table && table[p].ttl > now :: table[p]) <==> rec in Live(table, now).Values
    {
      if rec in Live(table, now).Values {
        var p :| p in Live(table, now) && Live(table, now)[p] == rec;
        assert p in table && table[p].ttl > now;
      }
      if p :| p in table && table[p].ttl > now && table[p] == rec {
        assert p in Live(table, now) && Live(table, now)[p] == rec;
      }
    }
  }

  lemma {:induction false} ListMatches(eager: Table, lazy: Table, op: Op)
    requires op.m.ClaimList? && Live(eager, op.sample) == Live(lazy, op.sample)
    ensures Eager(eager, op).1 == Lazy(lazy, op).1
    ensures Live(Eager(eager, op).0, op.sample) == Live(Lazy(lazy, op).0, op.sample)
  {
    assert Live(Live(eager, op.sample), op.sample) == Live(eager, op.sample);
    ListedLive(lazy, op.sample);
  }

  lemma {:induction false} StepMatches(eager: Table, lazy: Table, op: Op)
    requires ClaimOp(op.m) && Live(eager, op.sample) == Live(lazy, op.sample)
    ensures Eager(eager, op).1 == Lazy(lazy, op).1
    ensures Live(Eager(eager, op).0, op.sample) == Live(Lazy(lazy, op).0, op.sample)
  {
    match op.m
    case ClaimAcquire(_, _, _, _) => AcquireMatches(eager, lazy, op);
    case ClaimRelease(_) => ReleaseMatches(eager, lazy, op);
    case ClaimList => ListMatches(eager, lazy, op);
  }

  /** With samples in lock order, no reply tells where the pruning happened. */
  lemma {:induction false} OrderedIsUnobservable(eager: Table, lazy: Table, ops: seq<Op>)
    requires AllClaimOps(ops) && Ordered(Samples(ops))
    requires ops != [] ==> Live(eager, ops[0].sample) == Live(lazy, ops[0].sample)
    ensures EagerReplies(eager, ops) == LazyReplies(lazy, ops)
    decreases |ops|
  {
    if ops != [] {
      StepMatches(eager, lazy, ops[0]);
      var e, l := Eager(eager, ops[0]).0, Lazy(lazy, ops[0]).0;
      SameFromLive(e, l, ops[0].sample);
      if |ops| > 1 {
        assert Samples(ops)[0] <= Samples(ops)[1];
        assert Live(e, ops[1].sample) == Live(l, ops[1].sample);
      }
      var rest := ops[1..];
      forall i | 0 < i < |rest|
        ensures Samples(rest)[i - 1] <= Samples(rest)[i]
      {
        assert Samples(ops)[i] <= Samples(ops)[i + 1];
      }
      OrderedIsUnobservable(e, l, rest);
    }
  }

  function Listing(ts: seq<nat>): (ops: seq<Op>)
    ensures |ops| == |ts| && forall i :: 0 <= i < |ts| ==> ops[i] == Op("", ClaimList, ts[i])
  {
    if ts == [] then [] else [Op("", ClaimList, ts[0])] + Listing(ts[1..])
  }

  function Only(path: string, ttl: nat): Table {
    map[path := ClaimRecord(path, "", ttl, 0, "")]
  }

  lemma {:induction false} LazyListing(table: Table, ops: seq<Op>, k: nat)
    requires k < |ops| && forall i :: 0 <= i < |ops| ==> ops[i].m.ClaimList?
    ensures |LazyReplies(table, ops)| == |ops|
    ensures LazyReplies(table, ops)[k] == ClaimsListed(Live(table, ops[k].sample).Values)
    decreases |ops|
  {
    ListedLive(table, ops[0].sample);
    if |ops| > 1 {
      LazyListing(table, ops[1..], if k > 0 then k - 1 else 0);
    }
  }

  /** Once a sample at or past every expiry has been worked with, the daemon lists nothing. */
  lemma {:induction false} EagerListing(table: Table, ops: seq<Op>, i: nat, k: nat)
    requires i < k < |ops| && forall j :: 0 <= j < |ops| ==> ops[j].m.ClaimList?
    requires forall p :: p in table ==> table[p].ttl <= ops[i].sample
    ensures |EagerReplies(table, ops)| == |ops| && EagerReplies(table, ops)[k] == ClaimsListed({})
    decreases |ops|
  {
    if i > 0 {
      EagerListing(Eager(table, ops[0]).0, ops[1..], i - 1, k - 1);
    } else {
      assert Eager(table, ops[0]).0 == map[];
      EmptyListing(ops[1..], k - 1);
    }
  }

  lemma {:induction false} EmptyListing(ops: seq<Op>, k: nat)
    requires k < |ops| && forall j :: 0 <= j < |ops| ==> ops[j].m.ClaimList?
    ensures |EagerReplies(map[], ops)| == |ops| && EagerReplies(map[], ops)[k] == ClaimsListed({})
    decreases |ops|
  {
    var empty: Table := map[];
    assert Live(empty, ops[0].sample) == map[];
    assert Live(empty, ops[0].sample).Values == {};
    if |ops| > 1 {
      EmptyListing(ops[1..], if k > 0 then k - 1 else 0);
    }
  }

  lemma {:induction false} StillListed(ttl: nat, now: nat)
    requires ttl > now
    ensures Live(Only("", ttl), now).Values != {}
  {
    assert "" in Live(Only("", ttl), now);
    assert Only("", ttl)[""] in Live(Only("", ttl), now).Values;
  }

  /** A sample that falls behind an earlier one shows a claim the daemon has already forgotten. */
  lemma {:induction false} DisorderShows(ops: seq<Op>, i: nat)
    requires forall k :: 0 <= k < |ops| ==> ops[k].m.ClaimList?
    requires i + 1 < |ops| && ops[i].sample > ops[i + 1].sample
    ensures EagerReplies(Only("", ops[i].sample), ops) != LazyReplies(Only("", ops[i].sample), ops)
  {
    var table := Only("", ops[i].sample);
    EagerListing(table, ops, i, i + 1);
    LazyListing(table, ops, i + 1);
    StillListed(ops[i].sample, ops[i + 1].sample);
  }

  /** Pruning is unobservable exactly for the sample sequences that never run back:
      for those on every table and every operations, for any other on some. */
  lemma {:induction false} PruningUnobservableIffOrdered(ts: seq<nat>)
    ensures Ordered(ts) <==>
      forall table: Table, ops: seq<Op> | AllClaimOps(ops) && Samples(ops) == ts ::
        EagerReplies(table, ops) == LazyReplies(table, ops)
  {
    if Ordered(ts) {
      forall table: Table, ops: seq<Op> | AllClaimOps(ops) && Samples(ops) == ts
        ensures EagerReplies(table, ops) == LazyReplies(table, ops)
      {
        OrderedIsUnobservable(table, table, ops);
      }
    } else {
      var j :| 0 < j < |ts| && ts[j - 1] > ts[j];
      DisorderShows(Listing(ts), j - 1);
      assert Samples(Listing(ts)) == ts;
    }
  }

  /** The step commits a claim operation. */
  predicate ClaimCommit(s: Daemon, a: Action) {
    a.Commit? && At(s, a.c) && s.conns[a.c].pc.Waiting? && ClaimOp(s.conns[a.c].pc.m)
  }

  /** The claim operation a step amounts to: a boot prunes at its clock as a list would, but tells nobody. */
  function OpOf(s: Daemon, a: Action): (op: Op)
    requires ClaimCommit(s, a) || a.Restart?
    ensures ClaimOp(op.m)
  {
    if a.Restart? then Op("", ClaimList, s.clock)
    else Op(SessionOf(s.conns[a.c]), s.conns[a.c].pc.m, Sample(s, s.conns[a.c].pc))
  }

  /** The reply a step decides on, or what a boot would tell if anybody asked. */
  function ReplyOf(cfg: Config, s: Daemon, a: Action, t: Daemon): Reply
    requires ClaimCommit(s, a) || a.Restart?
  {
    if a.Restart? then ClaimsListed(t.bus.claims.Values) else CriticalOf(cfg, s, a.c).reply
  }

  /** The claim operations a stretch of a run commits, boots among them, in lock order, and the replies it decides
      on. */
  ghost function Committed(cfg: Config, ss: seq<Daemon>, acts: seq<Action>, i: nat, j: nat): (r: (seq<Op>, seq<Reply>))
    requires |ss| == |acts| + 1 && i <= j < |ss|
    ensures AllClaimOps(r.0) && |r.0| == |r.1|
    decreases j - i
  {
    if i == j then ([], []) else
    var rest := Committed(cfg, ss, acts, i + 1, j);
    if ClaimCommit(ss[i], acts[i]) || acts[i].Restart?
    then ([OpOf(ss[i], acts[i])] + rest.0, [ReplyOf(cfg, ss[i], acts[i], ss[i + 1])] + rest.1)
    else rest
  }

  lemma {:induction false} CriticalIsEager(bus: Bus, sid: string, conn: nat, m: ClientMessage, sample: nat,
                                           timeout: nat)
    requires ClaimOp(m)
    ensures
      var o := Critical(bus, sid, conn, m, sample, timeout);
      var r := Eager(bus.claims, Op(sid, m, sample));
      o.bus.claims == r.0 && o.reply == r.1
  {
    var o := Critical(bus, sid, conn, m, sample, timeout);
    var bare := Critical(Bus(map[], map[], bus.claims, map[]), sid, 0, m, sample, 0);
    match m
    case ClaimAcquire(_, _, _, _) => assert o.bus.claims == bare.bus.claims;
    case ClaimRelease(_) => assert o.bus.claims == bare.bus.claims;
    case ClaimList => assert o.bus.claims == bare.bus.claims;
  }

  lemma {:induction false} OtherHandlersLeaveClaims(cfg: Config, s: Daemon, a: Action)
    requires Enabled(cfg, s, a) && !ClaimCommit(s, a) && !a.Restart?
    ensures Step(cfg, s, a).bus.claims == s.bus.claims
  {
    if !a.Commit? {
      Exclusion.OnlyCommitsTouchClaims(cfg, s, a);
    }
  }

  /** Every restart in the stretch finds a good journal. */
  ghost predicate GoodRestarts(ss: seq<Daemon>, acts: seq<Action>, i: nat, j: nat)
    requires i <= j < |ss| && |ss| == |acts| + 1
  {
    forall k | i <= k < j && acts[k].Restart? :: acts[k].readable && ss[k].ioOk
  }

  lemma {:induction false} CommittedAreEager(cfg: Config, ss: seq<Daemon>, acts: seq<Action>, i: nat, j: nat)
    requires Run(cfg, ss, acts) && i <= j < |ss| && GoodRestarts(ss, acts, i, j)
    ensures var r := Committed(cfg, ss, acts, i, j); r.1 == EagerReplies(ss[i].bus.claims, r.0)
    decreases j - i
  {
    if i < j {
      assert Stepped(cfg, ss, acts, i);
      CommittedAreEager(cfg, ss, acts, i + 1, j);
      var rest := Committed(cfg, ss, acts, i + 1, j);
      if ClaimCommit(ss[i], acts[i]) || acts[i].Restart? {
        OneIsEager(cfg, ss, acts, i);
        assert Committed(cfg, ss, acts, i, j).0[1..] == rest.0;
      } else {
        OtherHandlersLeaveClaims(cfg, ss[i], acts[i]);
      }
    }
  }

  lemma {:induction false} OneIsEager(cfg: Config, ss: seq<Daemon>, acts: seq<Action>, i: nat)
    requires Run(cfg, ss, acts) && i < |acts| && (ClaimCommit(ss[i], acts[i]) || acts[i].Restart?)
    requires acts[i].Restart? ==> acts[i].readable && ss[i].ioOk
    ensures Eager(ss[i].bus.claims, OpOf(ss[i], acts[i])) ==
        (ss[i + 1].bus.claims, ReplyOf(cfg, ss[i], acts[i], ss[i + 1]))
  {
    assert Stepped(cfg, ss, acts, i);
    if acts[i].Restart? {
      Durability.Always(cfg, ss, acts, i);
    } else {
      var k := ss[i].conns[acts[i].c];
      CriticalIsEager(ss[i].bus, SessionOf(k), acts[i].c, k.pc.m, Sample(ss[i], k.pc), cfg.timeout);
    }
  }

  /** The samples of the claim handlers commit in order; boots do so of themselves. */
  ghost predicate InLockOrder(ss: seq<Daemon>, acts: seq<Action>, i: nat, j: nat)
    requires i <= j < |ss| && |ss| == |acts| + 1
  {
    forall a, b | i <= a < b < j && ClaimCommit(ss[a], acts[a]) && ClaimCommit(ss[b], acts[b]) ::
      OpOf(ss[a], acts[a]).sample <= OpOf(ss[b], acts[b]).sample
  }

  /** Nobody in a restarted daemon works with a sample from before its boot. */
  lemma {:induction false} SampledSinceBoot(cfg: Config, ss: seq<Daemon>, acts: seq<Action>, boot: nat, j: nat, c: nat)
    requires Run(cfg, ss, acts) && boot < j < |ss| && acts[boot].Restart? && At(ss[j], c) && ss[j].conns[c].pc.Waiting?
    ensures ss[boot].clock <= ss[j].conns[c].pc.now
    decreases j
  {
    assert Stepped(cfg, ss, acts, j - 1);
    if boot < j - 1 && !acts[j - 1].Restart? {
      Exclusion.ClockNeverRunsBack(cfg, ss, acts, boot, j - 1);
      WaitedOrRead(cfg, ss[j - 1], acts[j - 1], c);
      if At(ss[j - 1], c) && ss[j - 1].conns[c].pc.Waiting? {
        SampledSinceBoot(cfg, ss, acts, boot, j - 1, c);
      }
    }
  }

  lemma {:induction false} WaitedOrRead(cfg: Config, s: Daemon, a: Action, c: nat)
    requires Enabled(cfg, s, a) && !a.Restart? && At(Step(cfg, s, a), c) && Step(cfg, s, a).conns[c].pc.Waiting?
    ensures At(s, c)
    ensures
      || (s.conns[c].pc.Waiting? && Step(cfg, s, a).conns[c].pc.now == s.conns[c].pc.now)
      || Step(cfg, s, a).conns[c].pc.now == s.clock
  {
  }

  lemma {:induction false} BootsAreInOrder(cfg: Config, ss: seq<Daemon>, acts: seq<Action>, a: nat, b: nat)
    requires Run(cfg, ss, acts) && a < b < |acts| && (acts[a].Restart? || acts[b].Restart?)
    requires (ClaimCommit(ss[a], acts[a]) || acts[a].Restart?) && (ClaimCommit(ss[b], acts[b]) || acts[b].Restart?)
    ensures OpOf(ss[a], acts[a]).sample <= OpOf(ss[b], acts[b]).sample
  {
    Exclusion.ClockNeverRunsBack(cfg, ss, acts, a, b);
    Durability.Always(cfg, ss, acts, a);
    if acts[a].Restart? && !acts[b].Restart? {
      SampledSinceBoot(cfg, ss, acts, a, b, acts[b].c);
    }
  }

  lemma {:induction false} CommittedAreOrdered(cfg: Config, ss: seq<Daemon>, acts: seq<Action>, i: nat, j: nat)
    requires Run(cfg, ss, acts) && i <= j < |ss| && InLockOrder(ss, acts, i, j)
    ensures Ordered(Samples(Committed(cfg, ss, acts, i, j).0))
    decreases j - i
  {
    if i < j {
      CommittedAreOrdered(cfg, ss, acts, i + 1, j);
      if (ClaimCommit(ss[i], acts[i]) || acts[i].Restart?) && Committed(cfg, ss, acts, i + 1, j).0 != [] {
        var k := FirstCommitted(cfg, ss, acts, i + 1, j);
        if acts[i].Restart? || acts[k].Restart? {
          BootsAreInOrder(cfg, ss, acts, i, k);
        }
      }
    }
  }

  lemma {:induction false} FirstCommitted(cfg: Config, ss: seq<Daemon>, acts: seq<Action>, i: nat,
                                          j: nat) returns (k: nat)
    requires |ss| == |acts| + 1 && i <= j < |ss| && Committed(cfg, ss, acts, i, j).0 != []
    ensures i <= k < j && (ClaimCommit(ss[k], acts[k]) || acts[k].Restart?)
    ensures Committed(cfg, ss, acts, i, j).0[0] == OpOf(ss[k], acts[k])
    decreases j - i
  {
    if ClaimCommit(ss[i], acts[i]) || acts[i].Restart? {
      k := i;
    } else {
      k := FirstCommitted(cfg, ss, acts, i + 1, j);
    }
  }

  /** In a running daemon, and through its restarts: if the samples of its claim handlers commit in order, every
      reply to an acquire, a release or a list is the one the lease table that never prunes would give. */
  lemma {:induction false} DaemonRefinesLeaseTable(cfg: Config, ss: seq<Daemon>, acts: seq<Action>, i: nat, j: nat)
    requires Run(cfg, ss, acts) && i <= j < |ss| && GoodRestarts(ss, acts, i, j) && InLockOrder(ss, acts, i, j)
    ensures var r := Committed(cfg, ss, acts, i, j); r.1 == LazyReplies(ss[i].bus.claims, r.0)
  {
    CommittedAreEager(cfg, ss, acts, i, j);
    CommittedAreOrdered(cfg, ss, acts, i, j);
    var ops := Committed(cfg, ss, acts, i, j).0;
    OrderedIsUnobservable(ss[i].bus.claims, ss[i].bus.claims, ops);
  }
}
