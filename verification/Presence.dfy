/** Who a `peers` reply lists (src/daemon.rs, the touches of `last_heartbeat_unix_secs` and the stale prune). */
module Presence {
  import opened Protocol
  import opened BusModel
  import opened DaemonMachine
  import Shape
  import Ownership

  predicate Committing(s: Daemon, a: Action) {
    a.Commit? && At(s, a.c) && s.conns[a.c].pc.Waiting? && Locks(s.conns[a.c].pc.m)
  }

  function SampleAt(s: Daemon, a: Action): nat
    requires Committing(s, a)
  {
    Sample(s, s.conns[a.c].pc)
  }

  /** The step refreshes the session: its first announce, an update, an accepted heartbeat, a publish,
      a granted acquire or any release, from whichever connection carries the session. */
  predicate Touches(s: Daemon, a: Action, sid: string) {
    Committing(s, a) && Refreshes(s.bus, SessionOf(s.conns[a.c]), s.conns[a.c].pc.m, SampleAt(s, a), sid)
  }

  predicate Refreshes(bus: Bus, from: string, m: ClientMessage, sample: nat, sid: string) {
    match m
    case Announce(announced, _, _, _, _) => announced == sid && sid !in bus.owners
    case Update(_, _) => from == sid
    case Heartbeat(_, _, _, _) => from == sid
    case Publish(_, _) => from == sid
    case ClaimRelease(_) => from == sid
    case ClaimAcquire(path, _, _, force) =>
      && from == sid
      && (force || !(path in bus.claims && bus.claims[path].ttl > sample && bus.claims[path].sessionId != sid))
    case _ => false
  }

  predicate Queries(s: Daemon, a: Action) {
    Committing(s, a) && s.conns[a.c].pc.m.Peers?
  }

  /** The sample of the last touch before state `i`, in this daemon's lifetime. */
  ghost function LastTouch(cfg: Config, ss: seq<Daemon>, acts: seq<Action>, i: nat, sid: string): Option<nat>
    requires |ss| == |acts| + 1 && i < |ss|
    decreases i
  {
    if i == 0 || acts[i - 1].Restart? then None
    else if Touches(ss[i - 1], acts[i - 1], sid) then Some(SampleAt(ss[i - 1], acts[i - 1]))
    else LastTouch(cfg, ss, acts, i - 1, sid)
  }

  /** What one step does to one record's timestamp. */
  lemma {:induction false} StepTimestamp(cfg: Config, s: Daemon, a: Action, sid: string)
    requires Enabled(cfg, s, a) && Ownership.Inv(s) && Shape.Inv(s) && !a.Restart?
    requires sid in Step(cfg, s, a).bus.peers
    ensures Touches(s, a, sid) ==> Step(cfg, s, a).bus.peers[sid].lastHeartbeat == SampleAt(s, a)
    ensures !Touches(s, a, sid) ==>
              sid in s.bus.peers && Step(cfg, s, a).bus.peers[sid].lastHeartbeat == s.bus.peers[sid].lastHeartbeat
  {
    if a.Commit? {
      var k := s.conns[a.c];
      CriticalTimestamp(s.bus, SessionOf(k), a.c, k.pc.m, Sample(s, k.pc), cfg.timeout, sid);
    }
  }

  lemma {:induction false} CriticalTimestamp(bus: Bus, from: string, conn: nat, m: ClientMessage, sample: nat,
                                             timeout: nat, sid: string)
    requires Locks(m) && bus.peers.Keys <= bus.owners.Keys
    requires sid in Critical(bus, from, conn, m, sample, timeout).bus.peers
    ensures
      var after := Critical(bus, from, conn, m, sample, timeout).bus.peers;
      if Refreshes(bus, from, m, sample, sid) then after[sid].lastHeartbeat == sample
      else sid in bus.peers && after[sid].lastHeartbeat == bus.peers[sid].lastHeartbeat
  {
  }

  /** A record's timestamp is always that of the session's last touch. */
  lemma {:induction false} TimestampIsLastTouch(cfg: Config, ss: seq<Daemon>, acts: seq<Action>, i: nat, sid: string)
    requires Run(cfg, ss, acts) && i < |ss| && sid in ss[i].bus.peers
    ensures LastTouch(cfg, ss, acts, i, sid) == Some(ss[i].bus.peers[sid].lastHeartbeat)
    decreases i
  {
    if i > 0 {
      Ownership.Always(cfg, ss, acts, i - 1);
      assert Stepped(cfg, ss, acts, i - 1);
      if !acts[i - 1].Restart? {
        StepTimestamp(cfg, ss[i - 1], acts[i - 1], sid);
        if !Touches(ss[i - 1], acts[i - 1], sid) {
          TimestampIsLastTouch(cfg, ss, acts, i - 1, sid);
        }
      }
    }
  }

  function PeersIn(reply: Reply): set<PeerRecord> {
    if reply.PeerList? then reply.peers else {}
  }

  /** Sound: whoever a `peers` reply lists was last touched no longer than the timeout before its sample. */
  lemma {:induction false} ListedWasTouched(cfg: Config, ss: seq<Daemon>, acts: seq<Action>, i: nat, rec: PeerRecord)
    requires Run(cfg, ss, acts) && i < |acts| && Queries(ss[i], acts[i])
    requires rec in PeersIn(CriticalOf(cfg, ss[i], acts[i].c).reply)
    ensures LastTouch(cfg, ss, acts, i, rec.sessionId).Some?
    ensures SampleAt(ss[i], acts[i]) <= LastTouch(cfg, ss, acts, i, rec.sessionId).value + cfg.timeout
  {
    Shape.Always(cfg, ss, acts, i);
    var pruned := PeersOp(ss[i].bus, SampleAt(ss[i], acts[i]), cfg.timeout);
    var sid :| sid in pruned.peers && pruned.peers[sid] == rec;
    TimestampIsLastTouch(cfg, ss, acts, i, sid);
  }

  lemma {:induction false} CriticalKeepsPeer(bus: Bus, from: string, conn: nat, m: ClientMessage, sample: nat,
                                             timeout: nat, sid: string)
    requires Locks(m) && sid in bus.peers
    ensures sid in Critical(bus, from, conn, m, sample, timeout).bus.peers <==>
            (m.Peers? ==> Idle(bus.peers[sid], sample) <= timeout)
  {
  }

  /** From `i` to `j` the daemon stays up and the owner of `sid` does not clean up. */
  ghost predicate Attended(cfg: Config, ss: seq<Daemon>, acts: seq<Action>, i: nat, j: nat, sid: string)
    requires Run(cfg, ss, acts) && i <= j < |ss|
  {
    forall k | i <= k < j :: !acts[k].Restart? && (acts[k].Cleanup? ==> !Ownership.Owns(ss[k], sid, acts[k].c))
  }

  /** The query finds the session's last touch within the timeout of its sample. */
  ghost predicate FindsFresh(cfg: Config, ss: seq<Daemon>, acts: seq<Action>, q: nat, sid: string)
    requires |ss| == |acts| + 1 && q < |acts| && Queries(ss[q], acts[q])
  {
    LastTouch(cfg, ss, acts, q, sid).Some? &&
        SampleAt(ss[q], acts[q]) <= LastTouch(cfg, ss, acts, q, sid).value + cfg.timeout
  }

  /** No query from `i` on, before `n`, found the session stale. */
  ghost predicate NeverFoundStale(cfg: Config, ss: seq<Daemon>, acts: seq<Action>, i: nat, n: nat, sid: string)
    requires |ss| == |acts| + 1 && i <= n < |ss|
  {
    forall q | i <= q < n && Queries(ss[q], acts[q]) :: FindsFresh(cfg, ss, acts, q, sid)
  }

  /** One step, to the letter: a listed peer that its owner does not clean up is kept, unless a query finds it stale. */
  lemma {:induction false} StepKeepsIff(cfg: Config, s: Daemon, a: Action, sid: string)
    requires Enabled(cfg, s, a) && Ownership.Inv(s) && !a.Restart? && sid in s.bus.peers
    requires a.Cleanup? ==> !Ownership.Owns(s, sid, a.c)
    ensures sid in Step(cfg, s, a).bus.peers <==>
        (Queries(s, a) ==> Idle(s.bus.peers[sid], SampleAt(s, a)) <= cfg.timeout)
  {
    if a.Commit? {
      var k := s.conns[a.c];
      CriticalKeepsPeer(s.bus, SessionOf(k), a.c, k.pc.m, Sample(s, k.pc), cfg.timeout, sid);
    }
  }

  lemma {:induction false} RunKeepsIff(cfg: Config, ss: seq<Daemon>, acts: seq<Action>, n: nat, sid: string)
    requires Run(cfg, ss, acts) && n < |acts| && !acts[n].Restart? && sid in ss[n].bus.peers
    requires acts[n].Cleanup? ==> !Ownership.Owns(ss[n], sid, acts[n].c)
    ensures sid in ss[n + 1].bus.peers <==> (Queries(ss[n], acts[n]) ==> FindsFresh(cfg, ss, acts, n, sid))
  {
    Ownership.Always(cfg, ss, acts, n);
    assert Stepped(cfg, ss, acts, n);
    StepKeepsIff(cfg, ss[n], acts[n], sid);
    TimestampIsLastTouch(cfg, ss, acts, n, sid);
  }

  /** While its owner stays, a session that was listed at `i` is still there at `n` exactly if no query in between
      found it stale. */
  lemma {:induction false} KeptIffNeverFoundStale(cfg: Config, ss: seq<Daemon>, acts: seq<Action>, i: nat, n: nat,
                                                  sid: string)
    requires Run(cfg, ss, acts) && i <= n < |ss|
    requires sid in ss[i].bus.peers && Attended(cfg, ss, acts, i, n, sid)
    ensures sid in ss[n].bus.peers <==> NeverFoundStale(cfg, ss, acts, i, n, sid)
    decreases n
  {
    if i < n {
      KeptIffNeverFoundStale(cfg, ss, acts, i, n - 1, sid);
      if sid in ss[n - 1].bus.peers {
        RunKeepsIff(cfg, ss, acts, n - 1, sid);
      } else {
        StaysAway(cfg, ss, acts, i, n - 1, sid);
      }
    }
  }

  /** While its owner stays, a session that is gone stays away. */
  lemma {:induction false} StaysAway(cfg: Config, ss: seq<Daemon>, acts: seq<Action>, i: nat, n: nat, sid: string)
    requires Run(cfg, ss, acts) && i <= n < |acts|
    requires sid in ss[i].bus.peers && Attended(cfg, ss, acts, i, n + 1, sid) && sid !in ss[n].bus.peers
    ensures sid !in ss[n + 1].bus.peers
  {
    OwnerStays(cfg, ss, acts, i, n, sid);
    assert Stepped(cfg, ss, acts, n);
    Ownership.OwnersMove(cfg, ss[n], acts[n]);
  }

  lemma {:induction false} OwnerStays(cfg: Config, ss: seq<Daemon>, acts: seq<Action>, i: nat, n: nat, sid: string)
    requires Run(cfg, ss, acts) && i <= n < |ss|
    requires sid in ss[i].bus.peers && Attended(cfg, ss, acts, i, n, sid)
    ensures sid in ss[n].bus.owners
    decreases n
  {
    if i == n {
      Ownership.Always(cfg, ss, acts, i);
    } else {
      OwnerStays(cfg, ss, acts, i, n - 1, sid);
      assert Stepped(cfg, ss, acts, n - 1);
      Ownership.OwnersMove(cfg, ss[n - 1], acts[n - 1]);
    }
  }

  /** The exact form: while its owner stays, a session that was listed at `i` is in the reply to a query at `n` if
      and only if neither that query nor any before it finds its last touch more than the timeout before the query's
      sample. */
  lemma {:induction false} ListedIffFresh(cfg: Config, ss: seq<Daemon>, acts: seq<Action>, i: nat, n: nat, sid: string)
    requires Run(cfg, ss, acts) && i <= n < |acts| && Queries(ss[n], acts[n])
    requires sid in ss[i].bus.peers && Attended(cfg, ss, acts, i, n, sid)
    ensures Lists(cfg, ss[n], acts[n].c, sid) <==> NeverFoundStale(cfg, ss, acts, i, n + 1, sid)
  {
    KeptIffNeverFoundStale(cfg, ss, acts, i, n, sid);
    ListsIffFresh(cfg, ss, acts, n, sid);
  }

  /** The reply decided on names the session. */
  ghost predicate Lists(cfg: Config, s: Daemon, c: nat, sid: string)
    requires Queries(s, Commit(c))
  {
    exists rec :: rec in PeersIn(CriticalOf(cfg, s, c).reply) && rec.sessionId == sid
  }

  lemma {:induction false} ListsIffFresh(cfg: Config, ss: seq<Daemon>, acts: seq<Action>, n: nat, sid: string)
    requires Run(cfg, ss, acts) && n < |acts| && Queries(ss[n], acts[n])
    ensures Lists(cfg, ss[n], acts[n].c, sid) <==> sid in ss[n].bus.peers && FindsFresh(cfg, ss, acts, n, sid)
  {
    Shape.Always(cfg, ss, acts, n);
    if sid in ss[n].bus.peers {
      TimestampIsLastTouch(cfg, ss, acts, n, sid);
    }
    ListsThePresent(cfg, ss[n], acts[n].c, sid);
  }

  lemma {:induction false} ListsThePresent(cfg: Config, s: Daemon, c: nat, sid: string)
    requires Queries(s, Commit(c)) && Shape.GoodBus(s.bus)
    ensures Lists(cfg, s, c, sid) <==>
        sid in s.bus.peers && Idle(s.bus.peers[sid], SampleAt(s, Commit(c))) <= cfg.timeout
  {
    var pruned := PeersOp(s.bus, SampleAt(s, Commit(c)), cfg.timeout);
    if sid in pruned.peers {
      assert pruned.peers[sid] in pruned.peers.Values && pruned.peers[sid].sessionId == sid;
    }
  }

  /** Successive touches of `sid` are never further apart than the timeout. */
  ghost predicate Steady(cfg: Config, ss: seq<Daemon>, acts: seq<Action>, i: nat, j: nat, sid: string)
    requires Run(cfg, ss, acts) && i <= j < |ss|
  {
    forall k | i <= k < j && Touches(ss[k], acts[k], sid) && LastTouch(cfg, ss, acts, k, sid).Some? ::
      SampleAt(ss[k], acts[k]) <= LastTouch(cfg, ss, acts, k, sid).value + cfg.timeout
  }

  /** A query and a later touch commit in the order of their samples. */
  ghost predicate InOrder(cfg: Config, ss: seq<Daemon>, acts: seq<Action>, i: nat, j: nat, sid: string)
    requires Run(cfg, ss, acts) && i <= j < |ss|
  {
    forall q, k | i <= q < k < j && Queries(ss[q], acts[q]) && Touches(ss[k], acts[k], sid) ::
      SampleAt(ss[q], acts[q]) <= SampleAt(ss[k], acts[k])
  }

  /** Between its touches nothing of the session's is refreshed. */
  lemma {:induction false} NextTouch(cfg: Config, ss: seq<Daemon>, acts: seq<Action>, i: nat, j: nat,
                                     sid: string) returns (k: nat)
    requires Run(cfg, ss, acts) && i <= j < |acts| && Touches(ss[j], acts[j], sid)
    requires forall n | i <= n < j :: !acts[n].Restart?
    ensures i <= k <= j && Touches(ss[k], acts[k], sid)
    ensures LastTouch(cfg, ss, acts, k, sid) == LastTouch(cfg, ss, acts, i, sid)
    decreases j - i
  {
    if Touches(ss[i], acts[i], sid) {
      k := i;
    } else {
      k := NextTouch(cfg, ss, acts, i + 1, j, sid);
    }
  }

  /** Since the session's last touch before the query, or since `i`, there has been none. */
  ghost predicate NoTouchAfter(ss: seq<Daemon>, acts: seq<Action>, q: nat, j: nat, sid: string)
    requires q <= j < |ss| && |ss| == |acts| + 1
  {
    forall k | q <= k < j :: !Touches(ss[k], acts[k], sid)
  }

  /** A query in the tail of a steady stretch, where no touch follows, comes within the timeout of the last. */
  ghost predicate TailIsFresh(cfg: Config, ss: seq<Daemon>, acts: seq<Action>, i: nat, j: nat, sid: string)
    requires Run(cfg, ss, acts) && i <= j < |ss|
  {
    forall q | i <= q < j && Queries(ss[q], acts[q]) && NoTouchAfter(ss, acts, q, j, sid) ::
        FindsFresh(cfg, ss, acts, q, sid)
  }

  /** A session whose touches are never further apart than the timeout, and whose last one is no longer ago at any
      query that follows it, is never pruned and is in the reply to every query, as long as its owner has not cleaned
      up. */
  lemma {:induction false} SteadyIsListed(cfg: Config, ss: seq<Daemon>, acts: seq<Action>, i: nat, n: nat, j: nat,
                                          sid: string)
    requires Run(cfg, ss, acts) && i <= n < j < |ss|
    requires sid in ss[i].bus.peers && Attended(cfg, ss, acts, i, j, sid)
    requires Steady(cfg, ss, acts, i, j, sid) && InOrder(cfg, ss, acts, i, j, sid)
    requires TailIsFresh(cfg, ss, acts, i, j, sid)
    ensures sid in ss[n].bus.peers
    ensures Queries(ss[n], acts[n]) ==> Lists(cfg, ss[n], acts[n].c, sid)
  {
    SteadyNeverStale(cfg, ss, acts, i, n + 1, j, sid);
    KeptIffNeverFoundStale(cfg, ss, acts, i, n, sid);
    if Queries(ss[n], acts[n]) {
      ListedIffFresh(cfg, ss, acts, i, n, sid);
    }
  }

  lemma {:induction false} SteadyNeverStale(cfg: Config, ss: seq<Daemon>, acts: seq<Action>, i: nat, n: nat, j: nat,
                                            sid: string)
    requires Run(cfg, ss, acts) && i <= n <= j < |ss|
    requires sid in ss[i].bus.peers && Attended(cfg, ss, acts, i, j, sid) && Steady(cfg, ss, acts, i, j, sid)
    requires InOrder(cfg, ss, acts, i, j, sid) && TailIsFresh(cfg, ss, acts, i, j, sid)
    ensures NeverFoundStale(cfg, ss, acts, i, n, sid)
    decreases n
  {
    if i < n {
      SteadyNeverStale(cfg, ss, acts, i, n - 1, j, sid);
      KeptIffNeverFoundStale(cfg, ss, acts, i, n - 1, sid);
      if Queries(ss[n - 1], acts[n - 1]) {
        SteadyFindsFresh(cfg, ss, acts, i, n - 1, j, sid);
      }
    }
  }

  /** Between touches of a steady session, a query finds it fresh. */
  lemma {:induction false} SteadyFindsFresh(cfg: Config, ss: seq<Daemon>, acts: seq<Action>, i: nat, q: nat, j: nat,
                                            sid: string)
    requires Run(cfg, ss, acts) && i <= q < j < |ss|
    requires sid in ss[q].bus.peers && Queries(ss[q], acts[q]) && Attended(cfg, ss, acts, i, j, sid)
    requires Steady(cfg, ss, acts, i, j, sid) && InOrder(cfg, ss, acts, i, j, sid)
    requires TailIsFresh(cfg, ss, acts, i, j, sid)
    ensures FindsFresh(cfg, ss, acts, q, sid)
  {
    if !NoTouchAfter(ss, acts, q, j, sid) {
      TimestampIsLastTouch(cfg, ss, acts, q, sid);
      var later :| q <= later < j && Touches(ss[later], acts[later], sid);
      var k := NextTouch(cfg, ss, acts, q, later, sid);
      assert k != q;
    }
  }
}
