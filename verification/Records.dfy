/** What a peer record says, over a whole epoch (src/daemon.rs, announce, update and heartbeat handlers): who it is
    about never changes, and each other field is what was last supplied for it. */
module Records {
  import opened Protocol
  import opened BusModel
  import opened DaemonMachine
  import Ownership
  import Presence
  import Intents

  /** A critical section of session `from` leaves the record, the owner and the intent of another session alone,
      unless it announces that session or, as a query, finds its record stale ... */
  lemma {:induction false} OthersAreUntouched(bus: Bus, from: string, conn: nat, m: ClientMessage, sample: nat,
                                              timeout: nat, sid: string)
    requires Locks(m) && sid != from && !(m.Announce? && m.sessionId == sid)
    ensures
      var after := Critical(bus, from, conn, m, sample, timeout).bus;
      && (sid in after.owners <==> sid in bus.owners) && (sid in bus.owners ==> after.owners[sid] == bus.owners[sid])
      && (sid in after.intents <==> sid in bus.intents)
      && (sid in bus.intents ==> after.intents[sid] == bus.intents[sid])
      && (sid in after.peers ==> sid in bus.peers && after.peers[sid] == bus.peers[sid])
      && (sid in bus.peers && sid !in after.peers ==> m.Peers? && Idle(bus.peers[sid], sample) > timeout)
  {
  }

  /** ... and takes a live claim of another session only by force, and not without an eviction event. */
  lemma {:induction false} OthersKeepTheirClaims(bus: Bus, from: string, conn: nat, m: ClientMessage, sample: nat,
                                                 timeout: nat, path: string)
    requires Locks(m) && path in bus.claims && bus.claims[path].sessionId != from && bus.claims[path].ttl > sample
    ensures
      var o := Critical(bus, from, conn, m, sample, timeout);
      || (path in o.bus.claims && o.bus.claims[path] == bus.claims[path])
      || (m.ClaimAcquire? && m.path == path && m.force
          && o.underLock == [ReleaseEvent(bus.claims[path].path, bus.claims[path].sessionId, from)])
  {
    assert path in Live(bus.claims, sample);
  }

  /** An epoch begins with just what the announce said, at the time it was filed, owned by the connection it came
      from. */
  lemma {:induction false} EpochBeginsAsAnnounced(cfg: Config, ss: seq<Daemon>, acts: seq<Action>, i: nat,
                                                  sid: string) returns (m: ClientMessage)
    requires Run(cfg, ss, acts) && i < |acts|
    requires sid !in ss[i].bus.peers && sid in ss[i + 1].bus.peers
    ensures acts[i].Commit? && At(ss[i], acts[i].c) && ss[i].conns[acts[i].c].pc.Waiting?
    ensures ss[i].conns[acts[i].c].pc.m == m
    ensures m.Announce? && m.sessionId == sid && Ownership.Owns(ss[i + 1], sid, acts[i].c)
    ensures var rec := ss[i + 1].bus.peers[sid];
            && rec.sessionId == sid && rec.pid == m.pid && rec.cwd == m.cwd && rec.intent == m.intent
            && rec.node == m.node
            && rec.lastTool == "" && rec.skill == "" && rec.prdSlug == "" && rec.workingPaths == []
            && rec.lastHeartbeat == ss[i].clock
  {
    assert Stepped(cfg, ss, acts, i);
    Ownership.OwnersMove(cfg, ss[i], acts[i]);
    var k := ss[i].conns[acts[i].c];
    m := k.pc.m;
    CriticalAnnounces(ss[i].bus, SessionOf(k), acts[i].c, m, Sample(ss[i], k.pc), cfg.timeout);
  }

  lemma {:induction false} CriticalAnnounces(bus: Bus, from: string, conn: nat, m: ClientMessage, sample: nat,
                                             timeout: nat)
    requires m.Announce? && m.sessionId !in bus.owners
    ensures
      var after := Critical(bus, from, conn, m, sample, timeout).bus;
      && m.sessionId in after.peers && after.peers[m.sessionId].cwd == m.cwd
      && after.peers[m.sessionId].intent == m.intent
      && after.peers[m.sessionId].pid == m.pid && after.peers[m.sessionId].node == m.node
      && after.peers[m.sessionId].lastTool == ""
      && after.peers[m.sessionId].skill == "" && after.peers[m.sessionId].prdSlug == ""
      && after.peers[m.sessionId].workingPaths == []
      && after.peers[m.sessionId].sessionId == m.sessionId && after.peers[m.sessionId].lastHeartbeat == sample
  {
  }

  predicate SameIdentity(a: PeerRecord, b: PeerRecord) {
    a.sessionId == b.sessionId && a.pid == b.pid && a.node == b.node
  }

  /** The step commits an update of session `sid`. */
  predicate Updates(s: Daemon, a: Action, sid: string) {
    Presence.Committing(s, a) && s.conns[a.c].pc.m.Update? && SessionOf(s.conns[a.c]) == sid
  }

  ghost predicate FieldsStep(s: Daemon, a: Action, before: PeerRecord, after: PeerRecord, sid: string) {
    && SameIdentity(before, after)
    && after.cwd == (if Updates(s, a, sid) then Supplied(Intents.Beat(s, a).newCwd, before.cwd) else before.cwd)
    && after.intent == (if Updates(s, a, sid) then Supplied(Intents.Beat(s, a).newIntent, before.intent)
        else before.intent)
    && after.lastTool ==
       (if Intents.Beats(s, a, sid) && Intents.Beat(s, a).tool != "" then Intents.Beat(s, a).tool else before.lastTool)
  }

  lemma {:induction false} CriticalFields(bus: Bus, from: string, conn: nat, m: ClientMessage, sample: nat,
                                          timeout: nat, sid: string)
    requires Locks(m) && bus.peers.Keys <= bus.owners.Keys && sid in bus.peers
    requires sid in Critical(bus, from, conn, m, sample, timeout).bus.peers
    ensures
      var before, after := bus.peers[sid], Critical(bus, from, conn, m, sample, timeout).bus.peers[sid];
      && SameIdentity(before, after)
      && after.cwd == (if m.Update? && from == sid then Supplied(m.newCwd, before.cwd) else before.cwd)
      && after.intent == (if m.Update? && from == sid then Supplied(m.newIntent, before.intent) else before.intent)
      && after.lastTool == (if m.Heartbeat? && from == sid && m.tool != "" then m.tool else before.lastTool)
  {
  }

  lemma {:induction false} RecordStep(cfg: Config, ss: seq<Daemon>, acts: seq<Action>, k: nat, sid: string)
    requires Run(cfg, ss, acts) && k < |acts| && !acts[k].Restart? && Ownership.Inv(ss[k])
    requires sid in ss[k].bus.peers && sid in ss[k + 1].bus.peers
    ensures FieldsStep(ss[k], acts[k], ss[k].bus.peers[sid], ss[k + 1].bus.peers[sid], sid)
  {
    assert Stepped(cfg, ss, acts, k);
    if acts[k].Commit? {
      var c := ss[k].conns[acts[k].c];
      CriticalFields(ss[k].bus, SessionOf(c), acts[k].c, c.pc.m, Sample(ss[k], c.pc), cfg.timeout, sid);
    } else {
      Intents.OnlyCommitsTouchIntent(cfg, ss[k], acts[k], sid);
    }
  }

  ghost predicate CwdUnsupplied(ss: seq<Daemon>, acts: seq<Action>, i: nat, j: nat, sid: string)
    requires i <= j < |ss| && |ss| == |acts| + 1
  {
    forall k | i <= k < j && Updates(ss[k], acts[k], sid) :: Intents.Beat(ss[k], acts[k]).newCwd.None?
  }

  ghost predicate IntentUnsupplied(ss: seq<Daemon>, acts: seq<Action>, i: nat, j: nat, sid: string)
    requires i <= j < |ss| && |ss| == |acts| + 1
  {
    forall k | i <= k < j && Updates(ss[k], acts[k], sid) :: Intents.Beat(ss[k], acts[k]).newIntent.None?
  }

  ghost predicate ToolUnsupplied(ss: seq<Daemon>, acts: seq<Action>, i: nat, j: nat, sid: string)
    requires i <= j < |ss| && |ss| == |acts| + 1
  {
    forall k | i <= k < j && Intents.Beats(ss[k], acts[k], sid) :: Intents.Beat(ss[k], acts[k]).tool == ""
  }

  /** Within an epoch the session, the pid and the node of a record never change, and what nobody supplies stays. */
  lemma {:induction false} IdentityIsFixed(cfg: Config, ss: seq<Daemon>, acts: seq<Action>, i: nat, j: nat, sid: string)
    requires Run(cfg, ss, acts) && i <= j < |ss| && Intents.Present(cfg, ss, acts, i, j, sid)
    ensures SameIdentity(ss[i].bus.peers[sid], ss[j].bus.peers[sid])
    ensures CwdUnsupplied(ss, acts, i, j, sid) ==> ss[j].bus.peers[sid].cwd == ss[i].bus.peers[sid].cwd
    ensures IntentUnsupplied(ss, acts, i, j, sid) ==> ss[j].bus.peers[sid].intent == ss[i].bus.peers[sid].intent
    ensures ToolUnsupplied(ss, acts, i, j, sid) ==> ss[j].bus.peers[sid].lastTool == ss[i].bus.peers[sid].lastTool
    decreases j
  {
    if i < j {
      IdentityIsFixed(cfg, ss, acts, i, j - 1, sid);
      Ownership.Always(cfg, ss, acts, j - 1);
      RecordStep(cfg, ss, acts, j - 1, sid);
    }
  }

  /** The directory and the free-text intent are those of the last update that supplied them, the tool that of the
      last heartbeat that named one, whichever connection of the session sent it. */
  lemma {:induction false} LastUpdateWins(cfg: Config, ss: seq<Daemon>, acts: seq<Action>, k: nat, j: nat, sid: string)
    requires Run(cfg, ss, acts) && k < j < |ss| && Intents.Present(cfg, ss, acts, k, j, sid)
    ensures var rec := ss[j].bus.peers[sid];
            && (Updates(ss[k], acts[k], sid) && Intents.Beat(ss[k], acts[k]).newCwd.Some? &&
                  CwdUnsupplied(ss, acts, k + 1, j, sid) ==>
                  rec.cwd == Intents.Beat(ss[k], acts[k]).newCwd.value)
            && (Updates(ss[k], acts[k], sid) && Intents.Beat(ss[k], acts[k]).newIntent.Some? &&
                  IntentUnsupplied(ss, acts, k + 1, j, sid) ==>
                  rec.intent == Intents.Beat(ss[k], acts[k]).newIntent.value)
            && (Intents.Beats(ss[k], acts[k], sid) && Intents.Beat(ss[k], acts[k]).tool != "" &&
                  ToolUnsupplied(ss, acts, k + 1, j, sid) ==>
                  rec.lastTool == Intents.Beat(ss[k], acts[k]).tool)
  {
    Ownership.Always(cfg, ss, acts, k);
    RecordStep(cfg, ss, acts, k, sid);
    IdentityIsFixed(cfg, ss, acts, k + 1, j, sid);
  }
}
