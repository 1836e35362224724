/** What every reachable state keeps about its records: claims filed under their own path,
    peers under their own session, and no sticky intent that is empty or over the limit,
    in memory, in the journal and in every copy on its way there (src/daemon.rs, src/persist.rs). */
module Shape {
  import opened Protocol
  import opened BusModel
  import opened DaemonMachine

  predicate GoodPeer(rec: PeerRecord, sid: string) {
    rec.sessionId == sid && |rec.workingPaths| <= MAX_WORKING_PATHS
  }

  ghost predicate GoodBus(bus: Bus) {
    && WellFormed(bus.ToDurable())
    && (forall sid :: sid in bus.peers ==> GoodPeer(bus.peers[sid], sid))
  }

  /** A message waiting for the lock is one that takes it, and its path list was checked. */
  predicate Vetted(k: Conn) {
    k.pc.Waiting? ==> Locks(k.pc.m) && !TooManyPaths(k.pc.m) && (k.pc.m.Announce? <==> k.session.None?)
  }

  ghost predicate Inv(s: Daemon) {
    && GoodBus(s.bus)
    && WellFormed(s.journal)
    && (s.writer.Saving? ==> WellFormed(s.writer.snapshot))
    && (s.phase.Flushing? ==> WellFormed(s.phase.snapshot))
    && (forall c :: c in s.conns ==> Vetted(s.conns[c]))
  }

  lemma {:induction false} CriticalKeepsShape(bus: Bus, sid: string, conn: nat, m: ClientMessage, sample: nat,
                                              timeout: nat)
    requires Locks(m) && !TooManyPaths(m) && GoodBus(bus)
    ensures GoodBus(Critical(bus, sid, conn, m, sample, timeout).bus)
  {
  }

  lemma {:induction false} ReadKeepsVetted(s: Daemon, c: nat, line: Line)
    requires At(s, c) && s.conns[c].pc.Selecting?
    ensures At(ReadStep(s, c, line), c) && Vetted(ReadStep(s, c, line).conns[c])
  {
  }

  /** A connection's steps other than reading a line and working on it under the lock. */
  predicate Speaks(a: Action) {
    || a.Accept? || a.Signal? || a.Broadcast? || a.WriteReply? || a.Receive?
    || a.HangUp? || a.NoticeDrain? || a.Cleanup? || a.Abort?
  }

  lemma {:induction false} ConnKeeps(cfg: Config, s: Daemon, a: Action)
    requires Inv(s) && Enabled(cfg, s, a)
    requires Speaks(a)
    ensures Inv(Step(cfg, s, a))
  {
  }

  lemma {:induction false} StepKeeps(cfg: Config, s: Daemon, a: Action)
    requires Inv(s) && Enabled(cfg, s, a)
    ensures Inv(Step(cfg, s, a))
  {
    if a.Commit? {
      var k := s.conns[a.c];
      assert Vetted(k);
      CriticalKeepsShape(s.bus, SessionOf(k), a.c, k.pc.m, Sample(s, k.pc), cfg.timeout);
    } else if a.Read? {
      ReadKeepsVetted(s, a.c, a.line);
    } else if Speaks(a) {
      ConnKeeps(cfg, s, a);
    } else {
      assert Step(cfg, s, a).conns == s.conns || a.Restart?;
    }
  }

  /** Some field is set, and there are at most eight paths. */
  predicate Worthwhile(intent: StickyIntent) {
    (intent.skill != "" || intent.prdSlug != "" || intent.workingPaths != []) && |intent.workingPaths| <= 8
  }

  /** In every reachable state, restarts included, `intents` has no empty entry and none over the path limit. */
  lemma {:induction false} Always(cfg: Config, ss: seq<Daemon>, acts: seq<Action>, i: nat)
    requires Run(cfg, ss, acts) && i < |ss|
    ensures Inv(ss[i])
    ensures forall sid :: sid in ss[i].bus.intents ==> Worthwhile(ss[i].bus.intents[sid])
    ensures forall sid :: sid in ss[i].journal.intents ==> Worthwhile(ss[i].journal.intents[sid])
  {
    if i == 0 {
    } else {
      Always(cfg, ss, acts, i - 1);
      assert Stepped(cfg, ss, acts, i - 1);
      StepKeeps(cfg, ss[i - 1], acts[i - 1]);
    }
  }
}
