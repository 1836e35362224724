/** The running daemon as a state machine (src/daemon.rs): any number of connection tasks,
    the broadcast channel, the journal writer, the shutdown sequence and the restart.
    An action is one step of one task; everything between two `await` points that other
    tasks can observe separately is its own action. */
module DaemonMachine {
  import opened Protocol
  import opened BusModel

  /** Heartbeat timeout, broadcast channel capacity, and the hint in the drain notice. */
  datatype Config = Config(timeout: nat, capacity: nat, resumeAfter: nat)

  const PERSIST_SLOTS: nat := 64

  datatype Line = Blank | Malformed | Msg(m: ClientMessage)

  datatype OutLine = ReplyLine(reply: Reply) | EventLine(event: ServerEvent) | DrainLine(resumeAfter: nat)

  /** How a connection task ended: its loop broke and it cleaned up, it left through `?`, or it was aborted. */
  datatype Exit = Broke | Failed | Aborted

  datatype Pc =
    | Selecting
    | Waiting(m: ClientMessage, now: nat)       // wants the lock; `now` was sampled when the line was read
    | Finishing(signal: bool, event: Option<BroadcastMsg>, reply: Reply, bail: bool)
    | Leaving                                   // out of the loop, cleanup still to run
    | Gone(exit: Exit)

  /** History of one receiver, when `sent` messages had been sent in all: it took message `index` while `prefixes`
      was in force, or it lagged and its cursor jumped from `first` to `next`. */
  datatype Hop = Got(index: nat, prefixes: seq<string>, sent: nat) | Skipped(first: nat, next: nat, sent: nat)

  datatype Conn = Conn(
    session: Option<string>,
    prefixes: seq<string>,
    cursor: Option<nat>,        // next message to receive; None until the first Subscribe
    pc: Pc,
    lines: seq<Line>,           // history: nonblank lines read
    out: seq<OutLine>,          // lines written to the socket
    start: nat,                 // history: where the cursor began
    hops: seq<Hop>)             // history

  datatype Writer =
    | Receiving                 // in recv()
    | Debouncing                // sleeping
    | Draining                  // in the try_recv loop
    | Locking                   // about to copy the durable slice
    | Saving(snapshot: DurableState)
    | Finished

  datatype Phase = Running | Noticed | Aborting | Joined | Flushing(snapshot: DurableState) | Flushed | Stopped

  datatype Daemon = Daemon(
    clock: nat,
    bus: Bus,
    conns: map<nat, Conn>,
    nextConn: nat,
    log: seq<BroadcastMsg>,     // everything ever sent on the broadcast channel
    pending: nat,               // signals queued for the writer
    writer: Writer,
    journal: DurableState,
    ioOk: bool,                 // history: the last journal read or write succeeded
    phase: Phase)

  datatype Action =
    | Advance(dt: nat)
    | Accept
    | Read(c: nat, line: Line)
    | Commit(c: nat)
    | Signal(c: nat)
    | Broadcast(c: nat)
    | WriteReply(c: nat, ok: bool)
    | Receive(c: nat, ok: bool)
    | HangUp(c: nat)
    | NoticeDrain(c: nat, ok: bool)
    | Cleanup(c: nat)
    | Inject(msg: BroadcastMsg)
    | WriterReceive
    | WriterWake
    | WriterDrainOne
    | WriterDrained
    | WriterCopy
    | WriterSave(ok: bool)
    | WriterExit
    | BeginNotice
    | BeginAbort
    | Abort(c: nat)
    | JoinAll
    | FlushCopy
    | FlushSave(ok: bool)
    | Restart(readable: bool)

  function Fresh(): Conn {
    Conn(None, [], None, Selecting, [], [], 0, [])
  }

  /** `from_durable` on the journal, then the prune at boot. */
  function Boot(clock: nat, journal: DurableState, readable: bool): Daemon {
    Daemon(clock, FromDurable(if readable then journal else DurableState(map[], map[]), clock),
           map[], 0, [], 0, Receiving, journal, readable, Running)
  }

  function Put(s: Daemon, c: nat, k: Conn): Daemon {
    s.(conns := s.conns[c := k])
  }

  predicate PrefixOf(p: string, topic: string) {
    p <= topic
  }

  /** `topic_matches`: no prefixes, or an empty one, match everything. */
  predicate TopicMatches(prefixes: seq<string>, topic: string) {
    prefixes == [] || exists p :: p in prefixes && (p == "" || PrefixOf(p, topic))
  }

  predicate TooManyPaths(m: ClientMessage) {
    m.Heartbeat? && m.workingPaths.Some? && |m.workingPaths.value| > MAX_WORKING_PATHS
  }

  function Answer(reply: Reply, bail: bool): Pc {
    Finishing(false, None, reply, bail)
  }

  function PublishedMsg(m: ClientMessage, sid: string): BroadcastMsg
    requires m.Publish?
  {
    BroadcastMsg(m.topic, m.data, sid, false)
  }

  /** The connection after a nonblank line, read at `clock` when `sent` messages had been broadcast. */
  function Heard(k: Conn, line: Line, clock: nat, sent: nat): Conn
    requires !line.Blank?
  {
    var k := k.(lines := k.lines + [line]);
    if line.Malformed? then k.(pc := Answer(Error("malformed_json"), true))
    else if k.session.None? then
      k.(pc := if line.m.Announce? then Waiting(line.m, clock) else Answer(Error("announce_required"), true))
    else if line.m.Announce? then k.(pc := Answer(Error("already_announced"), false))
    else if TooManyPaths(line.m) then k.(pc := Answer(Error("too_many_paths"), false))
    else if line.m.Subscribe? then
      k.(prefixes := if line.m.prefix in k.prefixes then k.prefixes else k.prefixes + [line.m.prefix],
         cursor := if k.cursor.None? then Some(sent) else k.cursor,
         start := if k.cursor.None? then sent else k.start,
         pc := Answer(Ok, false))
    else if line.m.UplinkStatus? then k.(pc := Answer(UplinkReport, false))
    else k.(pc := Waiting(line.m, clock))
  }

  predicate Publishes(k: Conn, line: Line) {
    line.Msg? && line.m.Publish? && k.session.Some?
  }

  /** A publish is broadcast before its handler asks for the lock. */
  function ReadStep(s: Daemon, c: nat, line: Line): Daemon
    requires c in s.conns
  {
    if line.Blank? then s else
    var k := s.conns[c];
    Put(s.(log := if Publishes(k, line) then s.log + [PublishedMsg(line.m, k.session.value)] else s.log),
        c, Heard(k, line, s.clock, |s.log|))
  }

  /** The clock value the handler works with once it has the lock. */
  function Sample(s: Daemon, pc: Pc): nat
    requires pc.Waiting?
  {
    if SamplesEarly(pc.m) then pc.now else s.clock
  }

  function SessionOf(k: Conn): string {
    if k.session.Some? then k.session.value else ""
  }

  function CriticalOf(cfg: Config, s: Daemon, c: nat): Outcome
    requires c in s.conns && s.conns[c].pc.Waiting? && Locks(s.conns[c].pc.m)
  {
    var k := s.conns[c];
    Critical(s.bus, SessionOf(k), c, k.pc.m, Sample(s, k.pc), cfg.timeout)
  }

  function CommitStep(cfg: Config, s: Daemon, c: nat): Daemon
    requires c in s.conns && s.conns[c].pc.Waiting? && Locks(s.conns[c].pc.m)
  {
    var k := s.conns[c];
    var o := CriticalOf(cfg, s, c);
    Put(s.(bus := o.bus, log := s.log + o.underLock), c,
        k.(session := if k.pc.m.Announce? then Some(k.pc.m.sessionId) else k.session,
           pc := Finishing(o.signal, o.event, o.reply, false)))
  }

  function WriteReplyStep(s: Daemon, c: nat, ok: bool): Daemon
    requires c in s.conns && s.conns[c].pc.Finishing?
  {
    var k := s.conns[c];
    if ok then Put(s, c, k.(out := k.out + [ReplyLine(k.pc.reply)],
                            pc := if k.pc.bail then Gone(Failed) else Selecting))
    else Put(s, c, k.(pc := Gone(Failed)))
  }

  /** One `recv` on the bounded channel: it lags when `capacity` newer messages have overwritten the next one. */
  function Received(capacity: nat, k: Conn, log: seq<BroadcastMsg>, ok: bool): Conn
    requires k.cursor.Some? && k.cursor.value < |log|
  {
    var i := k.cursor.value;
    if |log| - i > capacity then
      k.(cursor := Some(|log| - capacity), hops := k.hops + [Skipped(i, |log| - capacity, |log|)])
    else if !TopicMatches(k.prefixes, log[i].topic) then
      k.(cursor := Some(i + 1), hops := k.hops + [Got(i, k.prefixes, |log|)])
    else if !ok then k.(pc := Gone(Failed))
    else k.(cursor := Some(i + 1), hops := k.hops + [Got(i, k.prefixes, |log|)],
            out := k.out + [EventLine(ServerEvent(log[i].topic, log[i].data, log[i].from))])
  }

  function NoticeDrainStep(cfg: Config, s: Daemon, c: nat, ok: bool): Daemon
    requires c in s.conns
  {
    var k := s.conns[c];
    Put(s, c, k.(pc := Leaving, out := if k.cursor.Some? && ok then k.out + [DrainLine(cfg.resumeAfter)] else k.out))
  }

  function CleanupStep(s: Daemon, c: nat): Daemon
    requires c in s.conns
  {
    var k := s.conns[c];
    Put(s.(bus := if k.session.Some? then LeaveOp(s.bus, k.session.value, c) else s.bus), c, k.(pc := Gone(Broke)))
  }

  /** A cancelled task stops at an `await`; signal and broadcast follow the unlock without one. */
  predicate AtAwait(pc: Pc) {
    pc.Selecting? || pc.Waiting? || pc.Leaving? || (pc.Finishing? && !pc.signal && pc.event.None?)
  }

  predicate AllGone(s: Daemon) {
    forall c :: c in s.conns ==> s.conns[c].pc.Gone?
  }

  predicate At(s: Daemon, c: nat) {
    c in s.conns
  }

  /** What may enter the channel from outside a connection: relayed messages and presence. */
  predicate Injectable(msg: BroadcastMsg) {
    msg.fromUplink || (msg.topic == FLEET_PRESENCE_SUBJECT_ANNOUNCE && msg.from == "daemon-fleet-presence")
  }

  predicate Enabled(cfg: Config, s: Daemon, a: Action) {
    match a
    case Advance(_) => true
    case Accept => s.phase.Running?
    case Read(c, _) => At(s, c) && s.conns[c].pc.Selecting?
    case Commit(c) => At(s, c) && s.conns[c].pc.Waiting? && Locks(s.conns[c].pc.m)
    case Signal(c) => At(s, c) && s.conns[c].pc.Finishing? && s.conns[c].pc.signal
    case Broadcast(c) => At(s, c) && s.conns[c].pc.Finishing? && !s.conns[c].pc.signal && s.conns[c].pc.event.Some?
    case WriteReply(c, _) => At(s, c) && s.conns[c].pc.Finishing? && !s.conns[c].pc.signal && s.conns[c].pc.event.None?
    case Receive(c, _) =>
      At(s, c) && s.conns[c].pc.Selecting? && s.conns[c].cursor.Some? && s.conns[c].cursor.value < |s.log|
    case HangUp(c) => At(s, c) && s.conns[c].pc.Selecting?
    case NoticeDrain(c, _) => At(s, c) && s.conns[c].pc.Selecting? && !s.phase.Running?
    case Cleanup(c) => At(s, c) && s.conns[c].pc.Leaving?
    case Inject(msg) =>
      Injectable(msg) && (s.phase.Running? || s.phase.Noticed? || s.phase.Aborting? || s.phase.Joined?)
    case WriterReceive => s.writer.Receiving? && s.pending > 0
    case WriterWake => s.writer.Debouncing?
    case WriterDrainOne => s.writer.Draining? && s.pending > 0
    case WriterDrained => s.writer.Draining? && s.pending == 0
    case WriterCopy => s.writer.Locking?
    case WriterSave(_) => s.writer.Saving?
    case WriterExit => s.writer.Receiving? && s.pending == 0 && s.phase.Flushed?
    case BeginNotice => s.phase.Running?
    case BeginAbort => s.phase.Noticed?
    case Abort(c) => At(s, c) && s.phase.Aborting? && AtAwait(s.conns[c].pc)
    case JoinAll => s.phase.Aborting? && AllGone(s)
    case FlushCopy => s.phase.Joined?
    case FlushSave(_) => s.phase.Flushing?
    case Restart(_) => s.phase.Stopped?
  }

  function Step(cfg: Config, s: Daemon, a: Action): Daemon
    requires Enabled(cfg, s, a)
  {
    match a
    case Advance(dt) => s.(clock := s.clock + dt)
    case Accept => Put(s, s.nextConn, Fresh()).(nextConn := s.nextConn + 1)
    case Read(c, line) => ReadStep(s, c, line)
    case Commit(c) => CommitStep(cfg, s, c)
    case Signal(c) =>
      // try_send: with every slot taken the signal is dropped
      Put(s.(pending := if s.pending < PERSIST_SLOTS then s.pending + 1 else s.pending), c,
          s.conns[c].(pc := s.conns[c].pc.(signal := false)))
    case Broadcast(c) =>
      Put(s.(log := s.log + [s.conns[c].pc.event.value]), c, s.conns[c].(pc := s.conns[c].pc.(event := None)))
    case WriteReply(c, ok) => WriteReplyStep(s, c, ok)
    case Receive(c, ok) => Put(s, c, Received(cfg.capacity, s.conns[c], s.log, ok))
    case HangUp(c) => Put(s, c, s.conns[c].(pc := Leaving))
    case NoticeDrain(c, ok) => NoticeDrainStep(cfg, s, c, ok)
    case Cleanup(c) => CleanupStep(s, c)
    case Inject(msg) => s.(log := s.log + [msg])
    case WriterReceive => s.(pending := s.pending - 1, writer := Debouncing)
    case WriterWake => s.(writer := Draining)
    case WriterDrainOne => s.(pending := s.pending - 1)
    case WriterDrained => s.(writer := Locking)
    case WriterCopy => s.(writer := Saving(s.bus.ToDurable()))
    case WriterSave(ok) =>
      s.(writer := Receiving, journal := if ok then s.writer.snapshot else s.journal, ioOk := ok)
    case WriterExit => s.(writer := Finished, phase := Stopped)
    case BeginNotice => s.(phase := Noticed)
    case BeginAbort => s.(phase := Aborting)
    case Abort(c) => Put(s, c, s.conns[c].(pc := Gone(Aborted)))
    case JoinAll => s.(phase := Joined)
    case FlushCopy => s.(phase := Flushing(s.bus.ToDurable()))
    case FlushSave(ok) =>
      s.(phase := Flushed, journal := if ok then s.phase.snapshot else s.journal, ioOk := ok)
    case Restart(readable) => Boot(s.clock, s.journal, readable)
  }

  /** The connection whose task takes the step, if one does. */
  predicate ActsAs(a: Action, c: nat) {
    match a
    case Read(d, _) => c == d
    case Commit(d) => c == d
    case Signal(d) => c == d
    case Broadcast(d) => c == d
    case WriteReply(d, _) => c == d
    case Receive(d, _) => c == d
    case HangUp(d) => c == d
    case NoticeDrain(d, _) => c == d
    case Cleanup(d) => c == d
    case Abort(d) => c == d
    case _ => false
  }

  /** A task's own state is its own. */
  lemma {:induction false} OthersStandStill(cfg: Config, s: Daemon, a: Action, c: nat)
    requires Enabled(cfg, s, a) && !a.Restart? && c in s.conns && c < s.nextConn && !ActsAs(a, c)
    ensures c in Step(cfg, s, a).conns && Step(cfg, s, a).conns[c] == s.conns[c]
  {
  }

  ghost predicate Stepped(cfg: Config, ss: seq<Daemon>, acts: seq<Action>, i: nat)
    requires i < |acts| && |ss| == |acts| + 1
  {
    Enabled(cfg, ss[i], acts[i]) && ss[i + 1] == Step(cfg, ss[i], acts[i])
  }

  /** A run: states joined by enabled actions, from a boot on some journal. */
  ghost predicate Run(cfg: Config, ss: seq<Daemon>, acts: seq<Action>) {
    && |ss| == |acts| + 1
    && (exists clock, journal, readable :: ss[0] == Boot(clock, journal, readable) && WellFormed(journal))
    && forall i | 0 <= i < |acts| :: Stepped(cfg, ss, acts, i)
  }

  predicate Legal(cfg: Config, s: Daemon, acts: seq<Action>)
    decreases |acts|
  {
    acts == [] || (Enabled(cfg, s, acts[0]) && Legal(cfg, Step(cfg, s, acts[0]), acts[1..]))
  }

  function After(cfg: Config, s: Daemon, acts: seq<Action>): Daemon
    requires Legal(cfg, s, acts)
    decreases |acts|
  {
    if acts == [] then s else After(cfg, Step(cfg, s, acts[0]), acts[1..])
  }

  lemma {:induction false} Prepend(cfg: Config, s: Daemon, a: Action, rest: seq<Action>)
    requires Enabled(cfg, s, a) && Legal(cfg, Step(cfg, s, a), rest)
    ensures Legal(cfg, s, [a] + rest) && After(cfg, s, [a] + rest) == After(cfg, Step(cfg, s, a), rest)
  {
    assert ([a] + rest)[1..] == rest;
  }

  lemma {:induction false} Appended(cfg: Config, s: Daemon, a: seq<Action>, b: seq<Action>)
    requires Legal(cfg, s, a) && Legal(cfg, After(cfg, s, a), b)
    ensures Legal(cfg, s, a + b) && After(cfg, s, a + b) == After(cfg, After(cfg, s, a), b)
    decreases |a|
  {
    if a == [] {
      assert a + b == b;
    } else {
      var t := Step(cfg, s, a[0]);
      Appended(cfg, t, a[1..], b);
      Prepend(cfg, s, a[0], a[1..] + b);
      assert a + b == [a[0]] + (a[1..] + b);
    }
  }

  lemma {:induction false} One(cfg: Config, s: Daemon, a: Action)
    requires Enabled(cfg, s, a)
    ensures Legal(cfg, s, [a] + []) && After(cfg, s, [a] + []) == Step(cfg, s, a)
  {
    Prepend(cfg, s, a, []);
  }

  /** A journal this daemon could have written: claims filed under their own path,
      no empty intent, none over the path limit. */
  predicate WellFormed(d: DurableState) {
    && (forall p :: p in d.claims ==> d.claims[p].path == p)
    && (forall s :: s in d.intents ==> GoodIntent(d.intents[s]))
  }

  predicate GoodIntent(i: StickyIntent) {
    !i.IsEmpty() && |i.workingPaths| <= MAX_WORKING_PATHS
  }
}
