/** Shutdown never wedges (src/daemon.rs, the shutdown arm of `run_daemon`): whatever the connections and the writer
    are at, a bounded number of steps that are always possible ends it. */
module Shutdown {
  import opened DaemonMachine
  import Durability

  function Alive(s: Daemon): set<nat> {
    set c | c in s.conns && !s.conns[c].pc.Gone?
  }

  function Signalling(s: Daemon): set<nat> {
    set c | c in s.conns && s.conns[c].pc.Finishing? && s.conns[c].pc.signal
  }

  function Speaking(s: Daemon): set<nat> {
    set c | c in s.conns && s.conns[c].pc.Finishing? && s.conns[c].pc.event.Some?
  }

  /** The steps of a writer's turn, from its receive to its save, that would serve `pending` signals. */
  function TurnSteps(pending: nat): nat {
    if pending == 0 then 0 else pending + 4
  }

  function WriterSteps(s: Daemon): nat {
    match s.writer
    case Receiving => TurnSteps(s.pending)
    case Debouncing => s.pending + 4
    case Draining => s.pending + 3
    case Locking => 2 + TurnSteps(s.pending)
    case Saving(_) => 1 + TurnSteps(s.pending)
    case Finished => 0
  }

  function PhaseSteps(phase: Phase): nat {
    match phase
    case Running => 6
    case Noticed => 5
    case Aborting => 4
    case Joined => 3
    case Flushing(_) => 2
    case Flushed => 1
    case Stopped => 0
  }

  /** The measure: a connection may have to be aborted, and before that to signal, which may wake the writer, and to
      broadcast. */
  function Left(s: Daemon): nat {
    PhaseSteps(s.phase) + WriterSteps(s) + |Alive(s)| + 6 * |Signalling(s)| + |Speaking(s)|
  }

  lemma {:induction false} LeftIsBounded(s: Daemon)
    requires Durability.Inv(s)
    ensures Left(s) <= 76 + 8 * |s.conns|
  {
    Fewer(Alive(s), s.conns.Keys);
    Fewer(Signalling(s), s.conns.Keys);
    Fewer(Speaking(s), s.conns.Keys);
  }

  lemma {:induction false} Fewer(a: set<nat>, b: set<nat>)
    requires a <= b
    ensures |a| <= |b|
    decreases b
  {
    if a != {} {
      var x :| x in a;
      Fewer(a - {x}, b - {x});
    }
  }

  lemma {:induction false} SignalHelps(cfg: Config, s: Daemon, c: nat)
    requires Enabled(cfg, s, Signal(c))
    ensures Left(Step(cfg, s, Signal(c))) < Left(s)
  {
    var t := Step(cfg, s, Signal(c));
    assert Alive(t) == Alive(s) && Speaking(t) == Speaking(s);
    assert Signalling(t) == Signalling(s) - {c} && c in Signalling(s);
    assert WriterSteps(t) <= WriterSteps(s) + 5;
  }

  lemma {:induction false} BroadcastHelps(cfg: Config, s: Daemon, c: nat)
    requires Enabled(cfg, s, Broadcast(c))
    ensures Left(Step(cfg, s, Broadcast(c))) < Left(s)
  {
    var t := Step(cfg, s, Broadcast(c));
    assert Alive(t) == Alive(s) && Signalling(t) == Signalling(s);
    assert Speaking(t) == Speaking(s) - {c} && c in Speaking(s);
  }

  lemma {:induction false} AbortHelps(cfg: Config, s: Daemon, c: nat)
    requires Enabled(cfg, s, Abort(c))
    ensures Left(Step(cfg, s, Abort(c))) < Left(s)
  {
    var t := Step(cfg, s, Abort(c));
    assert Speaking(t) == Speaking(s) && Signalling(t) == Signalling(s);
    assert Alive(t) == Alive(s) - {c} && c in Alive(s);
  }

  lemma {:induction false} SameConns(s: Daemon, t: Daemon)
    requires t.conns == s.conns
    ensures Alive(t) == Alive(s) && Signalling(t) == Signalling(s) && Speaking(t) == Speaking(s)
  {
  }

  /** All signals are served and the writer waits for more, with the final flush behind it. */
  predicate Idle(s: Daemon) {
    s.phase.Flushed? && s.writer.Receiving? && s.pending == 0
  }

  /** The journal can still end up well written: the last save succeeded, or another is to come. */
  predicate Hopeful(s: Daemon) {
    s.ioOk || !Idle(s)
  }

  /** The step brings the end nearer and leaves that prospect as it is. */
  ghost predicate Helps(cfg: Config, s: Daemon, a: Action) {
    && Enabled(cfg, s, a) && !a.Restart?
    && var t := Step(cfg, s, a);
       && Left(t) < Left(s) && !t.phase.Running?
       && (if t.phase.Stopped? then t.ioOk <==> Hopeful(s) else Hopeful(t) <==> Hopeful(s))
  }

  lemma {:induction false} WriterHelps(cfg: Config, s: Daemon) returns (a: Action)
    requires s.phase.Flushed? && !s.writer.Finished?
    ensures Helps(cfg, s, a)
  {
    if s.writer.Receiving? {
      a := if s.pending > 0 then WriterReceive else WriterExit;
      SameConns(s, Step(cfg, s, a));
    } else {
      a := BusyWriterHelps(cfg, s);
    }
  }

  lemma {:induction false} BusyWriterHelps(cfg: Config, s: Daemon) returns (a: Action)
    requires s.phase.Flushed? && !s.writer.Finished? && !s.writer.Receiving?
    ensures Helps(cfg, s, a)
  {
    match s.writer {
      case Debouncing => a := WriterWake;
      case Draining => a := if s.pending > 0 then WriterDrainOne else WriterDrained;
      case Locking => a := WriterCopy;
      case Saving(_) => a := WriterSave(true);
    }
    SameConns(s, Step(cfg, s, a));
  }

  lemma {:induction false} ConnectionHelps(cfg: Config, s: Daemon, c: nat) returns (a: Action)
    requires s.phase.Aborting? && c in Alive(s)
    ensures Helps(cfg, s, a)
  {
    var pc := s.conns[c].pc;
    if pc.Finishing? && pc.signal {
      a := Signal(c);
      SignalHelps(cfg, s, c);
    } else if pc.Finishing? && pc.event.Some? {
      a := Broadcast(c);
      BroadcastHelps(cfg, s, c);
    } else {
      a := Abort(c);
      AbortHelps(cfg, s, c);
    }
  }

  /** In every state of a shutdown some step helps. */
  lemma {:induction false} SomethingHelps(cfg: Config, s: Daemon) returns (a: Action)
    requires Durability.Inv(s) && !s.phase.Running? && !s.phase.Stopped?
    ensures Helps(cfg, s, a)
  {
    if s.phase.Flushed? {
      a := WriterHelps(cfg, s);
    } else if s.phase.Aborting? && Alive(s) != {} {
      var c :| c in Alive(s);
      a := ConnectionHelps(cfg, s, c);
    } else {
      a := CentreHelps(cfg, s);
    }
  }

  lemma {:induction false} CentreHelps(cfg: Config, s: Daemon) returns (a: Action)
    requires !s.phase.Running? && !s.phase.Stopped? && !s.phase.Flushed? && (s.phase.Aborting? ==> Alive(s) == {})
    ensures Helps(cfg, s, a)
  {
    if s.phase.Noticed? {
      a := BeginAbort;
      SameConns(s, Step(cfg, s, a));
    } else if s.phase.Aborting? {
      assert forall c :: c in s.conns && !s.conns[c].pc.Gone? ==> c in Alive(s);
      a := JoinAll;
      SameConns(s, Step(cfg, s, a));
    } else {
      a := FlushHelps(cfg, s);
    }
  }

  lemma {:induction false} FlushHelps(cfg: Config, s: Daemon) returns (a: Action)
    requires s.phase.Joined? || s.phase.Flushing?
    ensures Helps(cfg, s, a)
  {
    a := if s.phase.Joined? then FlushCopy else FlushSave(true);
    SameConns(s, Step(cfg, s, a));
  }

  lemma {:induction false} Ends(cfg: Config, s: Daemon) returns (acts: seq<Action>)
    requires Durability.Inv(s) && !s.phase.Running?
    ensures Legal(cfg, s, acts) && |acts| <= Left(s) && After(cfg, s, acts).phase.Stopped?
    ensures !s.phase.Stopped? ==> (After(cfg, s, acts).ioOk <==> Hopeful(s))
    ensures Durability.Inv(After(cfg, s, acts))
    decreases Left(s)
  {
    if s.phase.Stopped? {
      acts := [];
    } else {
      var a := SomethingHelps(cfg, s);
      Durability.StepKeeps(cfg, s, a);
      var rest := Ends(cfg, Step(cfg, s, a));
      Prepend(cfg, s, a, rest);
      acts := [a] + rest;
    }
  }

  /** From every reachable state past the drain notice, steps that are always possible, at most eight for each
      connection and 76 besides, end the daemon, and with saves that succeed the journal has been written last and
      well: except where the final flush had failed already and nothing made the writer save again. */
  lemma {:induction false} NeverWedges(cfg: Config, ss: seq<Daemon>, acts: seq<Action>,
                                       i: nat) returns (tail: seq<Action>)
    requires Run(cfg, ss, acts) && i < |ss| && !ss[i].phase.Running? && !ss[i].phase.Stopped?
    ensures Legal(cfg, ss[i], tail) && |tail| <= 76 + 8 * |ss[i].conns|
    ensures After(cfg, ss[i], tail).phase.Stopped?
    ensures After(cfg, ss[i], tail).ioOk <==> Hopeful(ss[i])
    ensures After(cfg, ss[i], tail).ioOk ==> Durability.Memory(After(cfg, ss[i], tail), After(cfg, ss[i], tail).journal)
  {
    Durability.Always(cfg, ss, acts, i);
    LeftIsBounded(ss[i]);
    tail := Ends(cfg, ss[i]);
  }

  /** That exception is final: no step of this daemon makes the failed flush good. */
  lemma {:induction false} FailedFlushIsFinal(cfg: Config, s: Daemon, a: Action)
    requires Durability.Inv(s) && Idle(s) && Enabled(cfg, s, a)
    ensures Step(cfg, s, a).ioOk == s.ioOk && Step(cfg, s, a).journal == s.journal
    ensures Idle(Step(cfg, s, a)) || Step(cfg, s, a).phase.Stopped?
  {
    assert a.Advance? || a.WriterExit?;
  }
}
