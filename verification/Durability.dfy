/** The journal against the memory it mirrors (src/daemon.rs, persist task and shutdown):
    a debounced writer, a signal queue that may be full, and a final flush that the
    writer may overwrite with an older copy. */
module Durability {
  import opened Protocol
  import opened BusModel
  import opened DaemonMachine

  /** Equal intents, and equal claims once those expired by `now` are dropped. */
  ghost predicate Agree(a: DurableState, b: DurableState, now: nat) {
    a.intents == b.intents && Live(a.claims, now) == Live(b.claims, now)
  }

  predicate Unsignalled(k: Conn) {
    k.pc.Finishing? && k.pc.signal
  }

  /** Some handler has changed the durable slice and not yet told the writer. */
  ghost predicate SignalDue(s: Daemon) {
    exists c :: c in s.conns && Unsignalled(s.conns[c])
  }

  ghost predicate Outstanding(s: Daemon) {
    s.pending > 0 || SignalDue(s)
  }

  /** The writer is between its receive and the end of its save. */
  predicate WriterBusy(s: Daemon) {
    !s.writer.Receiving? && !s.writer.Finished?
  }

  predicate Quiesced(phase: Phase) {
    phase.Joined? || phase.Flushing? || phase.Flushed? || phase.Stopped?
  }

  ghost predicate Memory(s: Daemon, copy: DurableState) {
    Agree(copy, s.bus.ToDurable(), s.clock)
  }

  ghost predicate Inv(s: Daemon) {
    && s.pending <= PERSIST_SLOTS
    && (forall c :: c in s.conns ==> c < s.nextConn)
    && (forall c :: c in s.conns && s.conns[c].pc.Waiting? ==> s.conns[c].pc.now <= s.clock)
    && (Quiesced(s.phase) ==> AllGone(s))
    && (s.phase.Flushing? ==> s.phase.snapshot == s.bus.ToDurable())
    && (s.writer.Finished? <==> s.phase.Stopped?)
    && (s.writer.Finished? ==> s.pending == 0)
    && (s.writer.Saving? ==> Outstanding(s) || Memory(s, s.writer.snapshot))
    && (!WriterBusy(s) && s.ioOk ==> Outstanding(s) || Memory(s, s.journal))
  }

  lemma {:induction false} AgreeLater(a: DurableState, b: DurableState, now: nat, later: nat)
    requires now <= later
    ensures Agree(a, b, now) ==> Agree(a, b, later)
  {
    if Agree(a, b, now) {
      forall p {:trigger p in Live(a.claims, later)} {:trigger p in Live(b.claims, later)}
        ensures p in Live(a.claims, later) <==> p in Live(b.claims, later)
        ensures p in Live(a.claims, later) ==> a.claims[p] == b.claims[p]
      {
        assert p in Live(a.claims, now) <==> p in Live(b.claims, now);
        assert p in Live(a.claims, now) ==> Live(a.claims, now)[p] == Live(b.claims, now)[p];
      }
    }
  }

  /** A critical section that asks for no signal changes nothing durable except by dropping expired claims. */
  lemma {:induction false} UnsignalledChangesAreExpiry(bus: Bus, sid: string, conn: nat, m: ClientMessage,
                                                       sample: nat, timeout: nat, now: nat)
    requires Locks(m) && sample <= now
    requires !Critical(bus, sid, conn, m, sample, timeout).signal
    ensures Agree(Critical(bus, sid, conn, m, sample, timeout).bus.ToDurable(), bus.ToDurable(), now)
  {
    var after := Critical(bus, sid, conn, m, sample, timeout).bus;
    assert after.claims == bus.claims || after.claims == Live(bus.claims, sample);
  }

  lemma {:induction false} CommitKeeps(cfg: Config, s: Daemon, c: nat)
    requires Inv(s) && Enabled(cfg, s, Commit(c))
    ensures Inv(CommitStep(cfg, s, c))
  {
    var t := CommitStep(cfg, s, c);
    var o := CriticalOf(cfg, s, c);
    assert t.conns[c].pc == Finishing(o.signal, o.event, o.reply, false);
    if o.signal {
      assert Unsignalled(t.conns[c]);
    } else {
      var k := s.conns[c];
      UnsignalledChangesAreExpiry(s.bus, SessionOf(k), c, k.pc.m, Sample(s, k.pc), cfg.timeout, s.clock);
      SameSignals(s, t, c);
    }
  }

  /** Replacing a connection that owes no signal by another that owes none leaves `SignalDue` alone. */
  lemma {:induction false} SameSignals(s: Daemon, t: Daemon, c: nat)
    requires c in t.conns && t.conns == s.conns[c := t.conns[c]]
    requires c in s.conns && Unsignalled(s.conns[c]) ==> Unsignalled(t.conns[c])
    ensures SignalDue(s) ==> SignalDue(t)
  {
    if SignalDue(s) {
      var d :| d in s.conns && Unsignalled(s.conns[d]);
      assert d in t.conns && Unsignalled(t.conns[d]);
    }
  }

  /** Only connection `c` moved, and nothing durable did. */
  ghost predicate Local(s: Daemon, t: Daemon, c: nat) {
    && t.bus.ToDurable() == s.bus.ToDurable()
    && t.writer == s.writer && t.journal == s.journal && t.ioOk == s.ioOk
    && t.clock == s.clock && t.phase == s.phase
    && s.pending <= t.pending <= PERSIST_SLOTS
    && c < t.nextConn && s.nextConn <= t.nextConn
    && c in t.conns && t.conns == s.conns[c := t.conns[c]]
    && (t.conns[c].pc.Waiting? ==> t.conns[c].pc.now <= s.clock)
    && !Quiesced(s.phase)
    && (c in s.conns && Unsignalled(s.conns[c]) ==> Unsignalled(t.conns[c]) || t.pending > 0)
  }

  lemma {:induction false} LocalKeeps(s: Daemon, t: Daemon, c: nat)
    requires Inv(s) && Local(s, t, c)
    ensures Inv(t)
  {
    if t.pending == 0 {
      SameSignals(s, t, c);
    }
  }

  /** The actions of one connection other than the commit. */
  predicate ConnAction(a: Action) {
    a.Accept? || a.Read? || a.Signal? || a.Broadcast? || a.WriteReply? || a.Receive? || a.HangUp? ||
    a.NoticeDrain? || a.Cleanup? || a.Abort?
  }

  function Mover(s: Daemon, a: Action): nat
    requires ConnAction(a)
  {
    if a.Accept? then s.nextConn else a.c
  }

  lemma {:induction false} WriteIsLocal(cfg: Config, s: Daemon, a: Action)
    requires Inv(s) && Enabled(cfg, s, a) && (a.WriteReply? || a.Receive? || a.NoticeDrain? || a.Cleanup?)
    ensures Local(s, Step(cfg, s, a), a.c)
  {
  }

  lemma {:induction false} ConnActionIsLocal(cfg: Config, s: Daemon, a: Action)
    requires Inv(s) && Enabled(cfg, s, a) && ConnAction(a) && !(a.Read? && a.line.Blank?)
    ensures Local(s, Step(cfg, s, a), Mover(s, a))
  {
    if a.Read? {
    } else if a.WriteReply? || a.Receive? || a.NoticeDrain? || a.Cleanup? {
      WriteIsLocal(cfg, s, a);
    } else {
      var t := Step(cfg, s, a);
      assert t.conns == s.conns[Mover(s, a) := t.conns[Mover(s, a)]];
    }
  }

  predicate WriterAction(a: Action) {
    || a.WriterReceive? || a.WriterWake? || a.WriterDrainOne? || a.WriterDrained?
    || a.WriterCopy? || a.WriterSave? || a.WriterExit?
  }

  lemma {:induction false} WriterKeeps(cfg: Config, s: Daemon, a: Action)
    requires Inv(s) && Enabled(cfg, s, a)
    requires WriterAction(a)
    ensures Inv(Step(cfg, s, a))
  {
    var t := Step(cfg, s, a);
    assert t.conns == s.conns && t.bus == s.bus;
    assert SignalDue(t) == SignalDue(s);
  }

  lemma {:induction false} OtherKeeps(cfg: Config, s: Daemon, a: Action)
    requires Inv(s) && Enabled(cfg, s, a) && !ConnAction(a) && !a.Commit?
    ensures Inv(Step(cfg, s, a))
  {
    var t := Step(cfg, s, a);
    if WriterAction(a) {
      WriterKeeps(cfg, s, a);
    } else if a.Restart? {
      assert t.conns == map[];
    } else if a.Advance? {
      AgreeLater(s.journal, s.bus.ToDurable(), s.clock, t.clock);
      if s.writer.Saving? {
        AgreeLater(s.writer.snapshot, s.bus.ToDurable(), s.clock, t.clock);
      }
      assert SignalDue(t) == SignalDue(s);
    } else {
      assert t.conns == s.conns && t.bus == s.bus;
      assert SignalDue(t) == SignalDue(s);
    }
  }

  lemma {:induction false} StepKeeps(cfg: Config, s: Daemon, a: Action)
    requires Inv(s) && Enabled(cfg, s, a)
    ensures Inv(Step(cfg, s, a))
  {
    if a.Commit? {
      CommitKeeps(cfg, s, a.c);
    } else if ConnAction(a) {
      if !(a.Read? && a.line.Blank?) {
        ConnActionIsLocal(cfg, s, a);
        LocalKeeps(s, Step(cfg, s, a), Mover(s, a));
      }
    } else {
      OtherKeeps(cfg, s, a);
    }
  }

  lemma {:induction false} Always(cfg: Config, ss: seq<Daemon>, acts: seq<Action>, i: nat)
    requires Run(cfg, ss, acts) && i < |ss|
    ensures Inv(ss[i])
  {
    if i == 0 {
    } else {
      Always(cfg, ss, acts, i - 1);
      assert Stepped(cfg, ss, acts, i - 1);
      StepKeeps(cfg, ss[i - 1], acts[i - 1]);
    }
  }

  /** At every point of every run, whatever the interleaving and however full the signal queue:
      unless the last journal operation failed, a difference between journal and memory that
      outlives expiry is always accounted for by a signal due or queued, or by the writer at work. */
  lemma {:induction false} JournalAgreement(cfg: Config, ss: seq<Daemon>, acts: seq<Action>, i: nat)
    requires Run(cfg, ss, acts) && i < |ss|
    ensures !ss[i].ioOk || ss[i].pending > 0 || SignalDue(ss[i]) || WriterBusy(ss[i]) || Memory(ss[i], ss[i].journal)
    ensures ss[i].writer.Saving? ==> ss[i].pending > 0 || SignalDue(ss[i]) || Memory(ss[i], ss[i].writer.snapshot)
    ensures ss[i].pending <= 64
  {
    Always(cfg, ss, acts, i);
  }

  /** When the daemon has stopped, nobody owes the journal anything: it equals memory up to expiry. */
  lemma {:induction false} ShutdownDurability(cfg: Config, ss: seq<Daemon>, acts: seq<Action>, i: nat)
    requires Run(cfg, ss, acts) && i < |ss|
    requires ss[i].phase.Stopped? && ss[i].ioOk
    ensures Memory(ss[i], ss[i].journal)
  {
    Always(cfg, ss, acts, i);
  }

  /** A graceful restart brings back every intent and every claim that has not expired, and nothing else. */
  lemma {:induction false} RestartRestores(cfg: Config, ss: seq<Daemon>, acts: seq<Action>, i: nat)
    requires Run(cfg, ss, acts) && i < |acts|
    requires acts[i] == Restart(true) && ss[i].ioOk
    ensures ss[i + 1].bus.intents == ss[i].bus.intents
    ensures forall p :: p in ss[i + 1].bus.claims <==> p in ss[i].bus.claims && ss[i].bus.claims[p].ttl > ss[i].clock
    ensures forall p :: p in ss[i + 1].bus.claims ==> ss[i + 1].bus.claims[p] == ss[i].bus.claims[p]
    ensures ss[i + 1].bus.peers == map[] && ss[i + 1].bus.owners == map[]
  {
    assert forall p :: p in Live(ss[i].bus.claims, ss[i].clock) <==>
                       p in ss[i].bus.claims && ss[i].bus.claims[p].ttl > ss[i].clock;
    assert Stepped(cfg, ss, acts, i);
    ShutdownDurability(cfg, ss, acts, i);
  }
}
