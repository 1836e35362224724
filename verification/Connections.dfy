/** The loop of one connection and the persist task (src/daemon.rs, `handle_connection` and `run_daemon`), over the
    objects of `Handlers`, while other tasks run in between. */
module Connections {
  import opened Protocol
  import opened DaemonMachine
  import opened Handlers
  import opened Persist
  import Durability

  /** What the select of a connection meets next; `ok` says whether the socket takes what is written. Other tasks
      come in between turns, and in a turn wherever it waits. */
  datatype Ready =
    | LineReady(line: Line, pauses: Pauses, ok: bool)
    | MessageReady(ok: bool)
    | HungUp(atLock: Option<Daemon>)
    | DrainReady(ok: bool, atLock: Option<Daemon>)
    | Others(after: Daemon)

  /** The connection has left its loop, with a drain notice or without. */
  function Parted(cfg: Config, s: Daemon, c: nat, r: Ready): Daemon
    requires At(s, c) && (r.HungUp? || r.DrainReady?)
  {
    if r.HungUp? then Put(s, c, s.conns[c].(pc := Leaving)) else NoticeDrainStep(cfg, s, c, r.ok)
  }

  ghost predicate CanMeet(cfg: Config, s: Daemon, c: nat, r: Ready) {
    && At(s, c) && s.conns[c].pc.Selecting?
    && (r.LineReady? ==> CanServe(cfg, s, c, r.line, r.pauses))
    && (r.MessageReady? ==> s.conns[c].cursor.Some? && s.conns[c].cursor.value < |s.log|)
    && (r.DrainReady? ==> !s.phase.Running?)
    && (r.HungUp? || r.DrainReady? ==> CanPause(cfg, Parted(cfg, s, c, r), c, r.atLock))
    && (r.Others? ==> Elsewhere(cfg, s, r.after, c))
  }

  ghost function Met(cfg: Config, s: Daemon, c: nat, r: Ready): (t: Daemon)
    requires CanMeet(cfg, s, c, r)
    ensures At(t, c)
  {
    match r
    case LineReady(line, pauses, ok) => Served(cfg, s, c, line, pauses, ok)
    case MessageReady(ok) => Put(s, c, Received(cfg.capacity, s.conns[c], s.log, ok))
    case HungUp(atLock) => CleanupStep(Paused(Parted(cfg, s, c, r), atLock), c)
    case DrainReady(_, atLock) => CleanupStep(Paused(Parted(cfg, s, c, r), atLock), c)
    case Others(after) => after
  }

  ghost predicate CanMeetAll(cfg: Config, s: Daemon, c: nat, rs: seq<Ready>)
    decreases |rs|
  {
    rs == [] || !At(s, c) || !s.conns[c].pc.Selecting? ||
    (CanMeet(cfg, s, c, rs[0]) && CanMeetAll(cfg, Met(cfg, s, c, rs[0]), c, rs[1..]))
  }

  /** The daemon after connection `c` has met `rs`, or as many of them as its loop lasts. */
  ghost function MetAll(cfg: Config, s: Daemon, c: nat, rs: seq<Ready>): (t: Daemon)
    requires At(s, c) && CanMeetAll(cfg, s, c, rs)
    ensures At(t, c)
    decreases |rs|
  {
    if rs == [] || !s.conns[c].pc.Selecting? then s else MetAll(cfg, Met(cfg, s, c, rs[0]), c, rs[1..])
  }

  lemma {:induction false} MetIsARun(cfg: Config, s: Daemon, c: nat, r: Ready) returns (acts: seq<Action>)
    requires CanMeet(cfg, s, c, r)
    ensures Legal(cfg, s, acts) && After(cfg, s, acts) == Met(cfg, s, c, r)
  {
    match r
    case LineReady(line, pauses, ok) => acts := ServedIsARun(cfg, s, c, line, pauses, ok);
    case MessageReady(ok) =>
      One(cfg, s, Receive(c, ok));
      acts := [Receive(c, ok)] + [];
    case HungUp(atLock) =>
      acts := PartingIsARun(cfg, s, c, r, HangUp(c), atLock);
    case DrainReady(ok, atLock) =>
      acts := PartingIsARun(cfg, s, c, r, NoticeDrain(c, ok), atLock);
    case Others(after) => acts :| Legal(cfg, s, acts) && After(cfg, s, acts) == after;
  }

  lemma {:induction false} PartingIsARun(cfg: Config, s: Daemon, c: nat, r: Ready, a: Action,
                                         atLock: Option<Daemon>) returns (acts: seq<Action>)
    requires (r.HungUp? && a == HangUp(c)) || (r.DrainReady? && a == NoticeDrain(c, r.ok))
    requires Enabled(cfg, s, a) && At(s, c) && CanPause(cfg, Parted(cfg, s, c, r), c, atLock)
    ensures Legal(cfg, s, acts) && After(cfg, s, acts) == CleanupStep(Paused(Parted(cfg, s, c, r), atLock), c)
  {
    var t := Parted(cfg, s, c, r);
    One(cfg, s, a);
    var pause := PauseIsARun(cfg, t, c, atLock);
    Appended(cfg, s, [a] + [], pause);
    One(cfg, Paused(t, atLock), Cleanup(c));
    Appended(cfg, s, [a] + [] + pause, [Cleanup(c)] + []);
    acts := [a] + [] + pause + ([Cleanup(c)] + []);
  }

  /** Whatever a connection meets, and whatever others do in between: what the loop makes of it is a run of the
      machine. */
  lemma {:induction false} MetAllIsARun(cfg: Config, s: Daemon, c: nat, rs: seq<Ready>) returns (acts: seq<Action>)
    requires At(s, c) && CanMeetAll(cfg, s, c, rs)
    ensures Legal(cfg, s, acts) && After(cfg, s, acts) == MetAll(cfg, s, c, rs)
    decreases |rs|
  {
    if rs == [] || !s.conns[c].pc.Selecting? {
      acts := [];
    } else {
      var first := MetIsARun(cfg, s, c, rs[0]);
      var rest := MetAllIsARun(cfg, Met(cfg, s, c, rs[0]), c, rs[1..]);
      Appended(cfg, s, first, rest);
      acts := first + rest;
    }
  }

  /** One message off the channel: too far behind, it is a jump; else it is passed on if it matches. */
  method TakeMessage(conn: Connection, cfg: Config, bus: BusState, channel: Channel, signals: SignalQueue, ok: bool,
                     ghost s: Daemon)
      returns (keep: bool)
    requires conn.Matches(s, bus, channel, signals) && CanMeet(cfg, s, conn.id, MessageReady(ok))
    modifies conn
    ensures conn.Matches(Met(cfg, s, conn.id, MessageReady(ok)), bus, channel, signals)
    ensures keep <==> Met(cfg, s, conn.id, MessageReady(ok)).conns[conn.id].pc.Selecting?
  {
    keep := true;
    var next := conn.cursor.value;
    if |channel.sent| - next > cfg.capacity {
      conn.cursor := Some(|channel.sent| - cfg.capacity);
      return;
    }
    var msg := channel.sent[next];
    if TopicMatches(conn.subscribedPrefixes, msg.topic) {
      if !ok {
        return false;
      }
      conn.written := conn.written + [EventLine(ServerEvent(msg.topic, msg.data, msg.from))];
    }
    conn.cursor := Some(next + 1);
  }

  /** Out of the loop, with a drain notice first if that is why; then, when it gets the lock, the cleanup. */
  method Part(conn: Connection, cfg: Config, bus: BusState, channel: Channel, signals: SignalQueue, r: Ready,
              now: nat, ghost s: Daemon)
      returns (later: nat)
    requires r.HungUp? || r.DrainReady?
    requires conn.Matches(s, bus, channel, signals) && s.clock == now && CanMeet(cfg, s, conn.id, r)
    modifies conn, bus, channel, signals
    ensures conn.Matches(Met(cfg, s, conn.id, r), bus, channel, signals)
    ensures !Met(cfg, s, conn.id, r).conns[conn.id].pc.Selecting? && Met(cfg, s, conn.id, r).clock == later
  {
    if r.DrainReady? && conn.cursor.Some? && r.ok {
      conn.written := conn.written + [DrainLine(cfg.resumeAfter)];
    }
    later := conn.Resume(r.atLock, now, bus, channel, signals, Parted(cfg, s, conn.id, r));
    if conn.sessionId.Some? {
      bus.Leave(conn.sessionId.value, conn.id);
    }
  }

  /** The loop of a connection refines the machine, with other tasks' steps between its turns and within them. */
  method HandleConnection(conn: Connection, rs: seq<Ready>, start: nat, cfg: Config, bus: BusState, channel: Channel,
                          signals: SignalQueue,
                          ghost s: Daemon)
    requires conn.Matches(s, bus, channel, signals) && s.clock == start && s.conns[conn.id].pc.Selecting?
    requires CanMeetAll(cfg, s, conn.id, rs)
    modifies conn, bus, channel, signals
    ensures conn.Matches(MetAll(cfg, s, conn.id, rs), bus, channel, signals)
  {
    var i, now, keep := 0, start, true;
    ghost var t := s;
    assert rs[0..] == rs;
    while i < |rs| && keep
      invariant 0 <= i <= |rs| && conn.Matches(t, bus, channel, signals) && t.clock == now
      invariant keep <==> t.conns[conn.id].pc.Selecting?
      invariant CanMeetAll(cfg, t, conn.id, rs[i..]) && MetAll(cfg, t, conn.id, rs[i..]) == MetAll(cfg, s, conn.id, rs)
    {
      assert rs[i..][0] == rs[i] && rs[i..][1..] == rs[i + 1..];
      ghost var u := Met(cfg, t, conn.id, rs[i]);
      match rs[i] {
        case LineReady(line, pauses, ok) =>
          keep, now := conn.HandleLine(line, now, cfg, bus, channel, signals, pauses, ok, t);
        case MessageReady(ok) =>
          keep := TakeMessage(conn, cfg, bus, channel, signals, ok, t);
        case Others(after) =>
          now := conn.Resume(Some(after), now, bus, channel, signals, t);
        case _ =>
          now := Part(conn, cfg, bus, channel, signals, rs[i], now, t);
          keep := false;
      }
      t := u;
      i := i + 1;
    }
  }

  // ----- the persist task

  /** The journal as one turn of the writer leaves it, if nobody else moves. */
  function Flushed(s: Daemon, ok: bool): Daemon {
    s.(pending := 0, journal := if ok then s.bus.ToDurable() else s.journal, ioOk := ok)
  }

  lemma {:induction false} FlushIsARun(cfg: Config, s: Daemon, ok: bool) returns (acts: seq<Action>)
    requires s.writer.Receiving? && s.pending > 0
    ensures Legal(cfg, s, acts) && After(cfg, s, acts) == Flushed(s, ok)
  {
    var s1 := Step(cfg, s, WriterReceive);
    var s2 := Step(cfg, s1, WriterWake);
    var last := s2.(pending := 0);
    var s4 := Step(cfg, last, WriterDrained);
    var s5 := Step(cfg, s4, WriterCopy);
    One(cfg, s5, WriterSave(ok));
    acts := [WriterSave(ok)] + [];
    Prepend(cfg, s4, WriterCopy, acts);
    acts := [WriterCopy] + acts;
    Prepend(cfg, last, WriterDrained, acts);
    acts := [WriterDrained] + acts;
    var drain := DrainIsARun(cfg, s2);
    Appended(cfg, s2, drain, acts);
    acts := drain + acts;
    Prepend(cfg, s1, WriterWake, acts);
    acts := [WriterWake] + acts;
    Prepend(cfg, s, WriterReceive, acts);
    acts := [WriterReceive] + acts;
  }

  lemma {:induction false} DrainIsARun(cfg: Config, s: Daemon) returns (acts: seq<Action>)
    requires s.writer.Draining?
    ensures Legal(cfg, s, acts) && After(cfg, s, acts) == s.(pending := 0)
    decreases s.pending
  {
    if s.pending == 0 {
      acts := [];
    } else {
      var rest := DrainIsARun(cfg, Step(cfg, s, WriterDrainOne));
      Prepend(cfg, s, WriterDrainOne, rest);
      acts := [WriterDrainOne] + rest;
    }
  }

  /** One turn of the persist task: every signal queued by then is served by one write of the current slice. */
  method Flush(file: StateFile, bus: BusState, signals: SignalQueue, fault: Fault, umask: nat)
    requires signals.queued > 0
    modifies file, signals
    ensures signals.queued == 0
    ensures file.file == if fault.NoFault? then Holds(bus.View().ToDurable()) else old(file.file)
  {
    signals.queued := signals.queued - 1;
    while signals.queued > 0
      invariant file.file == old(file.file)
    {
      signals.queued := signals.queued - 1;
    }
    var _ := file.Save(bus.View().ToDurable(), fault, umask);
  }

  /** The persist task once nobody is left to signal: it goes on as long as a signal is queued. */
  method RunOut(file: StateFile, bus: BusState, signals: SignalQueue, faults: nat -> Fault,
                umask: nat) returns (turns: nat)
    modifies file, signals
    ensures signals.queued == 0 && turns == (if old(signals.queued) > 0 then 1 else 0)
    ensures file.file == if turns > 0 && faults(0).NoFault? then Holds(bus.View().ToDurable()) else old(file.file)
  {
    turns := 0;
    while signals.queued > 0
      invariant turns == 0 ==> signals.queued == old(signals.queued) && file.file == old(file.file)
      invariant turns > 0 ==> turns == 1 && old(signals.queued) > 0 && signals.queued == 0
      invariant turns > 0 ==> file.file == if faults(0).NoFault? then Holds(bus.View().ToDurable()) else old(file.file)
    {
      Flush(file, bus, signals, faults(turns), umask);
      turns := turns + 1;
    }
  }

  /** With the connections gone: the final flush, before or after which the writer saves the older copy it may still
      hold, and then the turns that queued signals make it take before it ends. If the last save that was tried
      succeeded, the journal agrees with memory; so it does if only the older copy's save failed. */
  method Stop(file: StateFile, bus: BusState, signals: SignalQueue, held: Option<DurableState>, heldLast: bool,
              final: Fault, older: Fault, faults: nat -> Fault, umask: nat, ghost now: nat)
    requires held.Some? && signals.queued == 0 ==> Durability.Agree(held.value, bus.View().ToDurable(), now)
    modifies file, signals
    ensures signals.queued == 0
    ensures
      (if old(signals.queued) > 0 then faults(0).NoFault?
       else final.NoFault? || (held.Some? && heldLast && older.NoFault?)) ==>
              Durability.Agree(Rehydrated(file.file, true), bus.View().ToDurable(), now)
    ensures old(signals.queued) > 0 && faults(0).NoFault? ==> file.file == Holds(bus.View().ToDurable())
  {
    if held.Some? && !heldLast {
      var _ := file.Save(held.value, older, umask);
    }
    var _ := file.Save(bus.View().ToDurable(), final, umask);
    if held.Some? && heldLast {
      var _ := file.Save(held.value, older, umask);
    }
    var _ := RunOut(file, bus, signals, faults, umask);
  }
}
