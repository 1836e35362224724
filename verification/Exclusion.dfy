/** Claims exclude other sessions over whole runs (src/daemon.rs, claim handlers, boot and shutdown). */
module Exclusion {
  import opened Protocol
  import opened BusModel
  import opened DaemonMachine
  import Durability

  /** `sid` holds `path` until `ttl` at least. */
  predicate HeldBy(claims: map<string, ClaimRecord>, path: string, sid: string, ttl: nat) {
    path in claims && claims[path].sessionId == sid && claims[path].ttl >= ttl
  }

  /** Session `sid` itself releases `path`, or renews it to end before `ttl`. */
  predicate GivesUp(m: ClientMessage, from: string, path: string, sid: string, ttl: nat) {
    from == sid && (m == ClaimRelease(path) || (m.ClaimAcquire? && m.path == path && m.ttl < ttl))
  }

  /** Another session acquires `path` by force. */
  predicate Evicts(m: ClientMessage, from: string, path: string, sid: string) {
    from != sid && m.ClaimAcquire? && m.path == path && m.force
  }

  /** The steps that may end a claim before its time. */
  predicate Ends(s: Daemon, a: Action, path: string, sid: string, ttl: nat) {
    || (a.Commit? && At(s, a.c) && s.conns[a.c].pc.Waiting? &&
        var m, from := s.conns[a.c].pc.m, SessionOf(s.conns[a.c]);
        GivesUp(m, from, path, sid, ttl) || Evicts(m, from, path, sid))
    || (a.Restart? && (!a.readable || !s.ioOk))
  }

  lemma {:induction false} CriticalKeepsClaim(bus: Bus, from: string, conn: nat, m: ClientMessage, sample: nat,
                                              timeout: nat,
                           path: string, sid: string, ttl: nat)
    requires Locks(m) && HeldBy(bus.claims, path, sid, ttl) && sample < ttl
    requires !GivesUp(m, from, path, sid, ttl) && !Evicts(m, from, path, sid)
    ensures HeldBy(Critical(bus, from, conn, m, sample, timeout).bus.claims, path, sid, ttl)
  {
    assert path in Live(bus.claims, sample);
  }

  lemma {:induction false} StepKeepsClaim(cfg: Config, s: Daemon, a: Action, path: string, sid: string, ttl: nat)
    requires Durability.Inv(s) && Enabled(cfg, s, a)
    requires HeldBy(s.bus.claims, path, sid, ttl) && s.clock < ttl && !Ends(s, a, path, sid, ttl)
    ensures HeldBy(Step(cfg, s, a).bus.claims, path, sid, ttl)
  {
    if a.Commit? {
      var k := s.conns[a.c];
      CriticalKeepsClaim(s.bus, SessionOf(k), a.c, k.pc.m, Sample(s, k.pc), cfg.timeout, path, sid, ttl);
    } else if a.Restart? {
      assert path in Live(s.bus.claims, s.clock);
      assert Live(s.journal.claims, s.clock) == Live(s.bus.claims, s.clock);
    } else {
      OnlyCommitsTouchClaims(cfg, s, a);
    }
  }

  lemma {:induction false} OnlyCommitsTouchClaims(cfg: Config, s: Daemon, a: Action)
    requires Enabled(cfg, s, a) && !a.Commit? && !a.Restart?
    ensures Step(cfg, s, a).bus.claims == s.bus.claims
  {
  }

  lemma {:induction false} ClockNeverRunsBack(cfg: Config, ss: seq<Daemon>, acts: seq<Action>, i: nat, j: nat)
    requires Run(cfg, ss, acts) && i <= j < |ss|
    ensures ss[i].clock <= ss[j].clock
  {
    if i < j {
      ClockNeverRunsBack(cfg, ss, acts, i, j - 1);
      assert Stepped(cfg, ss, acts, j - 1);
    }
  }

  /** From any point of any run: while real time is below a claim's expiry, its session goes on
      holding the path, whatever the other connections do, in whatever order their clock samples
      commit, and through any number of graceful restarts, unless that session gave the claim up
      or shortened it, another session forced its way in, or a restart found no good journal. */
  lemma {:induction false} ClaimExclusion(cfg: Config, ss: seq<Daemon>, acts: seq<Action>, i: nat, j: nat,
                                          path: string, sid: string, ttl: nat)
    requires Run(cfg, ss, acts) && i <= j < |ss|
    requires HeldBy(ss[i].bus.claims, path, sid, ttl)
    requires ss[j].clock < ttl
    requires forall k | i <= k < j :: !Ends(ss[k], acts[k], path, sid, ttl)
    ensures HeldBy(ss[j].bus.claims, path, sid, ttl)
    decreases j
  {
    if i < j {
      assert Stepped(cfg, ss, acts, j - 1);
      ClockNeverRunsBack(cfg, ss, acts, j - 1, j);
      ClaimExclusion(cfg, ss, acts, i, j - 1, path, sid, ttl);
      Durability.Always(cfg, ss, acts, j - 1);
      StepKeepsClaim(cfg, ss[j - 1], acts[j - 1], path, sid, ttl);
    }
  }

  /** Read the other way: a session that takes over a path before the holder's time is up
      proves that one of those steps happened. */
  lemma {:induction false} TakeoverHasACause(cfg: Config, ss: seq<Daemon>, acts: seq<Action>, i: nat, j: nat,
                                             path: string)
    requires Run(cfg, ss, acts) && i <= j < |ss|
    requires path in ss[i].bus.claims && ss[j].clock < ss[i].bus.claims[path].ttl
    requires path !in ss[j].bus.claims || ss[j].bus.claims[path].sessionId != ss[i].bus.claims[path].sessionId
    ensures exists k :: i <= k < j
                        && Ends(ss[k], acts[k], path, ss[i].bus.claims[path].sessionId, ss[i].bus.claims[path].ttl)
  {
    var c := ss[i].bus.claims[path];
    if forall k | i <= k < j :: !Ends(ss[k], acts[k], path, c.sessionId, c.ttl) {
      ClaimExclusion(cfg, ss, acts, i, j, path, c.sessionId, c.ttl);
    }
  }
}
