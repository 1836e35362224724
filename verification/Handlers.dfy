/** The handlers in the form the daemon has them (src/daemon.rs, `BusState` and `handle_line`): four maps
    updated in place under the lock, a channel that is sent to, a signal queue, and a connection's own fields. */
module Handlers {
  import opened Protocol
  import opened BusModel
  import opened DaemonMachine

  /** The broadcast channel, as the sequence of everything sent. */
  class Channel {
    var sent: seq<BroadcastMsg>

    constructor ()
      ensures sent == []
    {
      sent := [];
    }

    method Send(msg: BroadcastMsg)
      modifies this
      ensures sent == old(sent) + [msg]
    {
      sent := sent + [msg];
    }
  }

  /** The bounded queue that wakes the persist writer. */
  class SignalQueue {
    var queued: nat

    constructor ()
      ensures queued == 0
    {
      queued := 0;
    }

    method TrySend()
      modifies this
      ensures queued == if old(queued) < PERSIST_SLOTS then old(queued) + 1 else old(queued)
    {
      if queued < PERSIST_SLOTS {
        queued := queued + 1;
      }
    }
  }

  class BusState {
    var peers: map<string, PeerRecord>
    var peerOwners: map<string, nat>
    var claims: map<string, ClaimRecord>
    var intents: map<string, StickyIntent>

    function View(): Bus
      reads this
    {
      Bus(peers, peerOwners, claims, intents)
    }

    constructor FromDurable(durable: DurableState, now: nat)
      ensures View() == BusModel.FromDurable(durable, now)
    {
      peers, peerOwners := map[], map[];
      claims, intents := durable.claims, durable.intents;
      new;
      PruneExpiredClaims(now);
    }

    method PruneExpiredClaims(now: nat)
      modifies this`claims
      ensures claims == Live(old(claims), now)
    {
      claims := map p | p in claims && claims[p].ttl > now :: claims[p];
    }

    /** Only a session nobody owns gets a record and an owner; otherwise the caller is a guest. */
    method Announce(m: ClientMessage, conn: nat, now: nat)
      requires m.Announce?
      modifies this`peers, this`peerOwners
      ensures View() == AnnounceOp(old(View()), conn, m, now)
    {
      if m.sessionId !in peerOwners {
        var record := PeerRecord(m.sessionId, m.pid, m.cwd, m.intent, "", "", "", [], now, m.node);
        peers := peers[m.sessionId := record];
        peerOwners := peerOwners[m.sessionId := conn];
      }
    }

    method Update(sid: string, m: ClientMessage, now: nat)
      requires m.Update?
      modifies this`peers
      ensures View() == UpdateOp(old(View()), sid, m, now)
    {
      if sid in peers {
        var rec := peers[sid];
        if m.newCwd.Some? {
          rec := rec.(cwd := m.newCwd.value);
        }
        if m.newIntent.Some? {
          rec := rec.(intent := m.newIntent.value);
        }
        rec := rec.(lastHeartbeat := now);
        peers := peers[sid := rec];
      }
    }

    /** Field by field, remembering whether any supplied value differs from what was there. */
    method Heartbeat(sid: string, m: ClientMessage, now: nat) returns (intentChanged: bool)
      requires m.Heartbeat?
      modifies this`peers, this`intents
      ensures View() == HeartbeatOp(old(View()), sid, m, now)
      ensures intentChanged == ChangesIntent(old(View()), sid, m)
      ensures intentChanged <==>
              && sid in old(peers) && sid in peers
              && (|| peers[sid].skill != old(peers)[sid].skill || peers[sid].prdSlug != old(peers)[sid].prdSlug
                  || peers[sid].workingPaths != old(peers)[sid].workingPaths)
    {
      intentChanged := false;
      if sid in peers {
        var rec := peers[sid].(lastHeartbeat := now);
        if m.tool != "" {
          rec := rec.(lastTool := m.tool);
        }
        if m.skill.Some? {
          intentChanged := intentChanged || rec.skill != m.skill.value;
          rec := rec.(skill := m.skill.value);
        }
        if m.prdSlug.Some? {
          intentChanged := intentChanged || rec.prdSlug != m.prdSlug.value;
          rec := rec.(prdSlug := m.prdSlug.value);
        }
        if m.workingPaths.Some? {
          intentChanged := intentChanged || rec.workingPaths != m.workingPaths.value;
          rec := rec.(workingPaths := m.workingPaths.value);
        }
        peers := peers[sid := rec];
        if intentChanged {
          var intent := StickyIntent(rec.skill, rec.prdSlug, rec.workingPaths);
          if intent.IsEmpty() {
            intents := intents - {sid};
          } else {
            intents := intents[sid := intent];
          }
        }
      }
    }

    method Touch(sid: string, now: nat)
      modifies this`peers
      ensures View() == Touched(old(View()), sid, now)
    {
      if sid in peers {
        peers := peers[sid := peers[sid].(lastHeartbeat := now)];
      }
    }

    method ListPeers(now: nat, timeout: nat) returns (snapshot: set<PeerRecord>)
      modifies this`peers
      ensures View() == PeersOp(old(View()), now, timeout) && snapshot == peers.Values
    {
      peers := map s | s in peers &&
          (if now >= peers[s].lastHeartbeat then now - peers[s].lastHeartbeat else 0) <= timeout :: peers[s];
      snapshot := peers.Values;
    }

    /** The foreign holder of a forced acquire is released on the channel while the lock is held. */
    method Acquire(sid: string, m: ClientMessage, now: nat, channel: Channel) returns (conflict: Option<ClaimRecord>)
      requires m.ClaimAcquire?
      modifies this`claims, this`peers, channel
      ensures var o := AcquireOp(old(View()), sid, m, now);
              && View() == o.bus && channel.sent == old(channel.sent) + o.underLock
              && (conflict.Some? <==> o.reply.Conflict?)
              && (conflict.Some? ==>
                    o.reply == Conflict(conflict.value.sessionId, conflict.value.ttl, conflict.value.reason))
    {
      PruneExpiredClaims(now);
      if m.path in claims && claims[m.path].sessionId != sid {
        var prev := claims[m.path];
        if !m.force {
          return Some(prev);
        }
        channel.Send(ReleaseEvent(prev.path, prev.sessionId, sid));
      }
      claims := claims[m.path := ClaimRecord(m.path, sid, m.ttl, now, m.reason)];
      Touch(sid, now);
      conflict := None;
    }

    method Release(sid: string, path: string, now: nat) returns (released: bool)
      modifies this`claims, this`peers
      ensures var o := ReleaseOp(old(View()), sid, path, now);
              View() == o.bus && released == o.signal
    {
      PruneExpiredClaims(now);
      released := path in claims && claims[path].sessionId == sid;
      if released {
        claims := claims - {path};
      }
      Touch(sid, now);
    }

    method ListClaims(now: nat) returns (snapshot: set<ClaimRecord>)
      modifies this`claims
      ensures View() == ListOp(old(View()), now) && snapshot == claims.Values
    {
      PruneExpiredClaims(now);
      snapshot := claims.Values;
    }

    /** The record goes with its owner, and with nobody else. */
    method Leave(sid: string, conn: nat)
      modifies this`peers, this`peerOwners
      ensures View() == LeaveOp(old(View()), sid, conn)
    {
      if sid in peerOwners && peerOwners[sid] == conn {
        peers := peers - {sid};
        peerOwners := peerOwners - {sid};
      }
    }
  }

  /** Other tasks have brought the daemon from `s` to `t`, with connection `c` where it was. */
  ghost predicate Elsewhere(cfg: Config, s: Daemon, t: Daemon, c: nat) {
    && (exists acts :: Legal(cfg, s, acts) && After(cfg, s, acts) == t)
    && At(s, c) && At(t, c) && t.conns[c] == s.conns[c]
  }

  /** Where other tasks may come in while a line is served, and the state they leave if they do: while the handler
      waits for the lock, once it has dropped it, once it has signalled the writer, and while it waits to write. */
  datatype Pauses = Pauses(
    atLock: Option<Daemon>, unlocked: Option<Daemon>, signalled: Option<Daemon>, atWrite: Option<Daemon>)

  const STILL := Pauses(None, None, None, None)

  function Paused(s: Daemon, p: Option<Daemon>): Daemon {
    if p.Some? then p.value else s
  }

  ghost predicate CanPause(cfg: Config, s: Daemon, c: nat, p: Option<Daemon>) {
    At(s, c) && (p.Some? ==> Elsewhere(cfg, s, p.value, c))
  }

  predicate Finishes(s: Daemon, c: nat) {
    At(s, c) && s.conns[c].pc.Finishing?
  }

  function SignalledStep(cfg: Config, s: Daemon, c: nat): (t: Daemon)
    requires Finishes(s, c)
    ensures Finishes(t, c) && t.conns[c] == s.conns[c].(pc := s.conns[c].pc.(signal := false))
  {
    if s.conns[c].pc.signal then Step(cfg, s, Signal(c)) else s
  }

  function ToldStep(cfg: Config, s: Daemon, c: nat): (t: Daemon)
    requires Finishes(s, c) && !s.conns[c].pc.signal
    ensures Finishes(t, c) && t.conns[c] == s.conns[c].(pc := s.conns[c].pc.(event := None))
  {
    if s.conns[c].pc.event.Some? then Step(cfg, s, Broadcast(c)) else s
  }

  predicate Waits(s: Daemon, c: nat) {
    At(s, c) && s.conns[c].pc.Waiting? && Locks(s.conns[c].pc.m)
  }

  ghost predicate CanCommit(cfg: Config, s: Daemon, c: nat, p: Pauses) {
    && Waits(s, c) && CanPause(cfg, s, c, p.atLock)
    && CanTell(cfg, CommitStep(cfg, Paused(s, p.atLock), c), c, p)
  }

  ghost predicate CanTell(cfg: Config, s: Daemon, c: nat, p: Pauses) {
    && Finishes(s, c) && CanPause(cfg, s, c, p.unlocked)
    && CanPause(cfg, SignalledStep(cfg, Paused(s, p.unlocked), c), c, p.signalled)
  }

  /** After the unlock: signal and broadcast, each only if called for. */
  ghost function Telling(cfg: Config, s: Daemon, c: nat, p: Pauses): (t: Daemon)
    requires CanTell(cfg, s, c, p)
    ensures Finishes(t, c) && t.conns[c] == s.conns[c].(pc := s.conns[c].pc.(signal := false, event := None))
  {
    ToldStep(cfg, Paused(SignalledStep(cfg, Paused(s, p.unlocked), c), p.signalled), c)
  }

  /** From the wait for the lock to the last broadcast: commit, signal and broadcast, each only if called for. */
  ghost function Committed(cfg: Config, s: Daemon, c: nat, p: Pauses): (t: Daemon)
    requires CanCommit(cfg, s, c, p)
    ensures Finishes(t, c) && !t.conns[c].pc.signal && t.conns[c].pc.event.None?
  {
    Telling(cfg, CommitStep(cfg, Paused(s, p.atLock), c), c, p)
  }

  ghost predicate CanServe(cfg: Config, s: Daemon, c: nat, line: Line, p: Pauses) {
    && At(s, c) && s.conns[c].pc.Selecting?
    && (!line.Blank? ==>
          var s1 := ReadStep(s, c, line);
          && (Waits(s1, c) ==> CanCommit(cfg, s1, c, p))
          && CanPause(cfg, if Waits(s1, c) then Committed(cfg, s1, c, p) else s1, c, p.atWrite))
  }

  /** The daemon when the reply to the line is about to be written. */
  ghost function Answered(cfg: Config, s: Daemon, c: nat, line: Line, p: Pauses): (t: Daemon)
    requires CanServe(cfg, s, c, line, p) && !line.Blank?
    ensures Finishes(t, c) && !t.conns[c].pc.signal && t.conns[c].pc.event.None?
  {
    var s1 := ReadStep(s, c, line);
    Paused(if Waits(s1, c) then Committed(cfg, s1, c, p) else s1, p.atWrite)
  }

  /** A line served: read, commit, signal, broadcast and reply, with other tasks' steps at the pauses. */
  ghost function Served(cfg: Config, s: Daemon, c: nat, line: Line, p: Pauses, ok: bool): (t: Daemon)
    requires CanServe(cfg, s, c, line, p)
    ensures At(t, c)
  {
    if line.Blank? then s else WriteReplyStep(Answered(cfg, s, c, line, p), c, ok)
  }

  lemma {:induction false} PauseIsARun(cfg: Config, s: Daemon, c: nat, p: Option<Daemon>) returns (acts: seq<Action>)
    requires CanPause(cfg, s, c, p)
    ensures Legal(cfg, s, acts) && After(cfg, s, acts) == Paused(s, p)
  {
    if p.Some? {
      acts :| Legal(cfg, s, acts) && After(cfg, s, acts) == p.value;
    } else {
      acts := [];
    }
  }

  lemma {:induction false} CommittedIsARun(cfg: Config, s: Daemon, c: nat, p: Pauses) returns (acts: seq<Action>)
    requires CanCommit(cfg, s, c, p)
    ensures Legal(cfg, s, acts) && After(cfg, s, acts) == Committed(cfg, s, c, p)
  {
    acts := PauseIsARun(cfg, s, c, p.atLock);
    var s0 := Paused(s, p.atLock);
    One(cfg, s0, Commit(c));
    Appended(cfg, s, acts, [Commit(c)] + []);
    acts := acts + ([Commit(c)] + []);
    var s1 := CommitStep(cfg, s0, c);
    var more := TellingIsARun(cfg, s1, c, p);
    Appended(cfg, s, acts, more);
    acts := acts + more;
  }

  lemma {:induction false} TellingIsARun(cfg: Config, s: Daemon, c: nat, p: Pauses) returns (acts: seq<Action>)
    requires CanTell(cfg, s, c, p)
    ensures Legal(cfg, s, acts) && After(cfg, s, acts) == Telling(cfg, s, c, p)
  {
    acts := PauseIsARun(cfg, s, c, p.unlocked);
    var s1 := Paused(s, p.unlocked);
    if s1.conns[c].pc.signal {
      One(cfg, s1, Signal(c));
      Appended(cfg, s, acts, [Signal(c)] + []);
      acts := acts + ([Signal(c)] + []);
    }
    var s2 := SignalledStep(cfg, s1, c);
    var more := PauseIsARun(cfg, s2, c, p.signalled);
    Appended(cfg, s, acts, more);
    acts := acts + more;
    var s3 := Paused(s2, p.signalled);
    if s3.conns[c].pc.event.Some? {
      One(cfg, s3, Broadcast(c));
      Appended(cfg, s, acts, [Broadcast(c)] + []);
      acts := acts + ([Broadcast(c)] + []);
    }
  }

  lemma {:induction false} AnsweredIsARun(cfg: Config, s: Daemon, c: nat, line: Line,
                                          p: Pauses) returns (acts: seq<Action>)
    requires CanServe(cfg, s, c, line, p) && !line.Blank?
    ensures Legal(cfg, s, acts) && After(cfg, s, acts) == Answered(cfg, s, c, line, p)
  {
    One(cfg, s, Read(c, line));
    acts := [Read(c, line)] + [];
    var s1 := ReadStep(s, c, line);
    var s2 := s1;
    if Waits(s1, c) {
      s2 := Committed(cfg, s1, c, p);
      var committed := CommittedIsARun(cfg, s1, c, p);
      Appended(cfg, s, acts, committed);
      acts := acts + committed;
    }
    var pause := PauseIsARun(cfg, s2, c, p.atWrite);
    Appended(cfg, s, acts, pause);
    acts := acts + pause;
  }

  /** What `Served` says is what the machine does, the pauses filled with what the other tasks did. */
  lemma {:induction false} ServedIsARun(cfg: Config, s: Daemon, c: nat, line: Line, p: Pauses,
                                        ok: bool) returns (acts: seq<Action>)
    requires CanServe(cfg, s, c, line, p)
    ensures Legal(cfg, s, acts) && After(cfg, s, acts) == Served(cfg, s, c, line, p, ok)
  {
    if line.Blank? {
      acts := [];
    } else {
      acts := AnsweredIsARun(cfg, s, c, line, p);
      One(cfg, Answered(cfg, s, c, line, p), WriteReply(c, ok));
      Appended(cfg, s, acts, [WriteReply(c, ok)] + []);
      acts := acts + ([WriteReply(c, ok)] + []);
    }
  }

  /** One connection's own variables in `handle_connection`. */
  class Connection {
    const id: nat
    var sessionId: Option<string>
    var subscribedPrefixes: seq<string>
    var cursor: Option<nat>
    var written: seq<OutLine>

    constructor (id: nat)
      ensures this.id == id && sessionId.None? && subscribedPrefixes == [] && cursor.None? && written == []
    {
      this.id := id;
      sessionId, subscribedPrefixes, cursor, written := None, [], None, [];
    }

    /** The objects stand as connection `id` and the shared state do in `s`. */
    ghost predicate Matches(s: Daemon, bus: BusState, channel: Channel, signals: SignalQueue)
      reads this, bus, channel, signals
    {
      && s.bus == bus.View() && s.log == channel.sent && s.pending == signals.queued
      && id in s.conns
      && var k := s.conns[id];
         k.session == sessionId && k.prefixes == subscribedPrefixes && k.cursor == cursor && k.out == written
    }

    /** A reply goes out, unless the socket fails; then the task is lost. */
    method Write(reply: Reply, ok: bool) returns (written_: bool)
      modifies this`written
      ensures written_ == ok
      ensures written == if ok then old(written) + [ReplyLine(reply)] else old(written)
    {
      written_ := ok;
      if ok {
        written := written + [ReplyLine(reply)];
      }
    }

    method SubscribeTo(prefix: string, channel: Channel)
      modifies this`subscribedPrefixes, this`cursor
      ensures subscribedPrefixes ==
              old(subscribedPrefixes) + (if prefix in old(subscribedPrefixes) then [] else [prefix])
      ensures cursor == if old(cursor).None? then Some(|channel.sent|) else old(cursor)
    {
      if prefix !in subscribedPrefixes {
        subscribedPrefixes := subscribedPrefixes + [prefix];
      }
      if cursor.None? {
        cursor := Some(|channel.sent|);
      }
    }

    /** The part of a handler under the lock. */
    method UnderLock(m: ClientMessage, sid: string, now: nat, timeout: nat, bus: BusState, channel: Channel)
        returns (signal: bool, event: Option<BroadcastMsg>, reply: Reply)
      requires Locks(m) && !m.Announce?
      modifies bus, channel
      ensures var o := Critical(old(bus.View()), sid, id, m, now, timeout);
              && bus.View() == o.bus && channel.sent == old(channel.sent) + o.underLock
              && signal == o.signal && event == o.event && reply == o.reply
    {
      signal, event := false, None;
      match m
      case Update(_, _) =>
        bus.Update(sid, m, now);
        reply := Ok;
      case Heartbeat(_, _, _, _) =>
        signal := bus.Heartbeat(sid, m, now);
        reply := Ok;
      case Publish(_, _) =>
        bus.Touch(sid, now);
        reply := Ok;
      case Peers =>
        var snapshot := bus.ListPeers(now, timeout);
        reply := PeerList(snapshot);
      case ClaimAcquire(path, ttl, reason, _) =>
        var conflict := bus.Acquire(sid, m, now, channel);
        if conflict.Some? {
          return false, None, Conflict(conflict.value.sessionId, conflict.value.ttl, conflict.value.reason);
        }
        return true, Some(AcquireEvent(path, sid, ttl, reason)), Granted(path, ttl);
      case ClaimRelease(path) =>
        signal := bus.Release(sid, path, now);
        event := if signal then Some(ReleaseEvent(path, sid, sid)) else None;
        reply := Released(signal);
      case ClaimList =>
        var snapshot := bus.ListClaims(now);
        reply := ClaimsListed(snapshot);
    }

    /** The part of a handler under the lock, and what follows the unlock, up to the reply, left alone. */
    method Serve(m: ClientMessage, sid: string, now: nat, timeout: nat, bus: BusState, channel: Channel,
                 signals: SignalQueue)
        returns (reply: Reply)
      requires Locks(m) && !m.Announce?
      modifies bus, channel, signals
      ensures var o := Critical(old(bus.View()), sid, id, m, now, timeout);
              && bus.View() == o.bus && reply == o.reply
              && channel.sent == old(channel.sent) + o.underLock + (if o.event.Some? then [o.event.value] else [])
              && signals.queued ==
                 old(signals.queued) + (if o.signal && old(signals.queued) < PERSIST_SLOTS then 1 else 0)
    {
      var signal, event;
      signal, event, reply := UnderLock(m, sid, now, timeout, bus, channel);
      if signal {
        signals.TrySend();
      }
      if event.Some? {
        channel.Send(event.value);
      }
    }

    /** A line as it is read: what needs no lock is answered, a publish is sent, and the rest waits for the lock. */
    method Hear(line: Line, now: nat, bus: BusState, channel: Channel, signals: SignalQueue, ghost s: Daemon)
        returns (m: Option<ClientMessage>, reply: Reply, bail: bool)
      requires Matches(s, bus, channel, signals) && s.clock == now && s.conns[id].pc.Selecting? && !line.Blank?
      modifies this, channel
      ensures Matches(ReadStep(s, id, line), bus, channel, signals)
      ensures ReadStep(s, id, line).conns[id].pc == if m.Some? then Waiting(m.value, now) else Answer(reply, bail)
      ensures m.Some? ==> Locks(m.value) && !bail
    {
      m, reply, bail := None, Ok, false;
      if line.Malformed? {
        reply, bail := Error("malformed_json"), true;
      } else if sessionId.None? {
        if line.m.Announce? {
          m := Some(line.m);
        } else {
          reply, bail := Error("announce_required"), true;
        }
      } else if line.m.Announce? {
        reply := Error("already_announced");
      } else if TooManyPaths(line.m) {
        reply := Error("too_many_paths");
      } else if line.m.Subscribe? {
        SubscribeTo(line.m.prefix, channel);
      } else if line.m.UplinkStatus? {
        reply := UplinkReport;
      } else {
        if line.m.Publish? {
          channel.Send(PublishedMsg(line.m, sessionId.value));
        }
        m := Some(line.m);
      }
    }

    /** With the lock: `read` is the clock when the line was read, `now` when the lock was taken. */
    method Commit(m: ClientMessage, read: nat, now: nat, cfg: Config, bus: BusState, channel: Channel,
                  signals: SignalQueue, ghost s: Daemon)
        returns (signal: bool, event: Option<BroadcastMsg>, reply: Reply)
      requires Matches(s, bus, channel, signals) && s.clock == now && s.conns[id].pc == Waiting(m, read) && Locks(m)
      modifies this, bus, channel
      ensures Matches(CommitStep(cfg, s, id), bus, channel, signals)
      ensures CommitStep(cfg, s, id).conns[id].pc == Finishing(signal, event, reply, false)
    {
      if m.Announce? {
        bus.Announce(m, id, now);
        sessionId := Some(m.sessionId);
        signal, event, reply := false, None, Ok;
        assert channel.sent + [] == channel.sent;
      } else {
        var sid := if sessionId.Some? then sessionId.value else "";
        signal, event, reply := UnderLock(m, sid, if SamplesEarly(m) then read else now, cfg.timeout, bus, channel);
      }
    }

    /** What other tasks have done to the shared state while this one waited. */
    method Resume(after: Option<Daemon>, now: nat, bus: BusState, channel: Channel, signals: SignalQueue,
                  ghost s: Daemon)
        returns (later: nat)
      requires Matches(s, bus, channel, signals) && s.clock == now
      requires after.Some? ==> At(after.value, id) && after.value.conns[id] == s.conns[id]
      modifies bus, channel, signals
      ensures Matches(Paused(s, after), bus, channel, signals) && Paused(s, after).clock == later
    {
      later := now;
      if after.Some? {
        var t := after.value;
        bus.peers, bus.peerOwners, bus.claims, bus.intents := t.bus.peers, t.bus.owners, t.bus.claims, t.bus.intents;
        channel.sent, signals.queued, later := t.log, t.pending, t.clock;
      }
    }

    method Signal(signal: bool, cfg: Config, bus: BusState, channel: Channel, signals: SignalQueue, ghost s: Daemon)
      requires Matches(s, bus, channel, signals) && Finishes(s, id) && s.conns[id].pc.signal == signal
      modifies signals
      ensures Matches(SignalledStep(cfg, s, id), bus, channel, signals) && SignalledStep(cfg, s, id).clock == s.clock
    {
      if signal {
        signals.TrySend();
      }
    }

    method Tell(event: Option<BroadcastMsg>, cfg: Config, bus: BusState, channel: Channel, signals: SignalQueue,
                ghost s: Daemon)
      requires Matches(s, bus, channel, signals) && Finishes(s, id) && !s.conns[id].pc.signal
      requires s.conns[id].pc.event == event
      modifies channel
      ensures Matches(ToldStep(cfg, s, id), bus, channel, signals) && ToldStep(cfg, s, id).clock == s.clock
    {
      if event.Some? {
        channel.Send(event.value);
      }
    }

    /** From the wait for the lock to the last broadcast, with other tasks in between. */
    method Handle(m: ClientMessage, read: nat, cfg: Config, bus: BusState, channel: Channel, signals: SignalQueue,
                  p: Pauses, ghost s: Daemon)
        returns (reply: Reply, now: nat)
      requires Matches(s, bus, channel, signals) && s.clock == read && s.conns[id].pc == Waiting(m, read)
      requires CanCommit(cfg, s, id, p)
      modifies this, bus, channel, signals
      ensures Matches(Committed(cfg, s, id, p), bus, channel, signals) && Committed(cfg, s, id, p).clock == now
      ensures Committed(cfg, s, id, p).conns[id].pc == Answer(reply, false)
    {
      now := Resume(p.atLock, read, bus, channel, signals, s);
      ghost var s0 := Paused(s, p.atLock);
      var signal, event;
      signal, event, reply := Commit(m, read, now, cfg, bus, channel, signals, s0);
      now := Finish(signal, event, reply, now, cfg, bus, channel, signals, p, CommitStep(cfg, s0, id));
    }

    method Finish(signal: bool, event: Option<BroadcastMsg>, ghost reply: Reply, clock: nat, cfg: Config,
                  bus: BusState, channel: Channel,
                  signals: SignalQueue, p: Pauses, ghost s: Daemon)
        returns (now: nat)
      requires Matches(s, bus, channel, signals) && s.clock == clock
      requires s.conns[id].pc == Finishing(signal, event, reply, false)
      requires CanTell(cfg, s, id, p)
      modifies bus, channel, signals
      ensures Matches(Telling(cfg, s, id, p), bus, channel, signals) && Telling(cfg, s, id, p).clock == now
    {
      now := Resume(p.unlocked, clock, bus, channel, signals, s);
      ghost var s1 := Paused(s, p.unlocked);
      Signal(signal, cfg, bus, channel, signals, s1);
      ghost var s2 := SignalledStep(cfg, s1, id);
      now := Resume(p.signalled, now, bus, channel, signals, s2);
      Tell(event, cfg, bus, channel, signals, Paused(s2, p.signalled));
    }

    /** Everything before the reply is written. */
    method Attend(line: Line, read: nat, cfg: Config, bus: BusState, channel: Channel, signals: SignalQueue,
                  p: Pauses, ghost s: Daemon)
        returns (reply: Reply, bail: bool, now: nat)
      requires Matches(s, bus, channel, signals) && s.clock == read && CanServe(cfg, s, id, line, p) && !line.Blank?
      modifies this, bus, channel, signals
      ensures Matches(Answered(cfg, s, id, line, p), bus, channel, signals)
      ensures Answered(cfg, s, id, line, p).clock == now
      ensures Answered(cfg, s, id, line, p).conns[id].pc == Answer(reply, bail)
    {
      var m;
      m, reply, bail := Hear(line, read, bus, channel, signals, s);
      ghost var s1 := ReadStep(s, id, line);
      now := read;
      if m.Some? {
        reply, now := Handle(m.value, read, cfg, bus, channel, signals, p, s1);
        now := Resume(p.atWrite, now, bus, channel, signals, Committed(cfg, s1, id, p));
      } else {
        now := Resume(p.atWrite, now, bus, channel, signals, s1);
      }
    }

    /** `handle_line` refines the machine, with other tasks' steps wherever it waits or has let go of the lock. */
    method HandleLine(line: Line, read: nat, cfg: Config, bus: BusState, channel: Channel, signals: SignalQueue,
                      p: Pauses, ok: bool,
                      ghost s: Daemon)
        returns (keep: bool, now: nat)
      requires Matches(s, bus, channel, signals) && s.clock == read && CanServe(cfg, s, id, line, p)
      modifies this, bus, channel, signals
      ensures Matches(Served(cfg, s, id, line, p, ok), bus, channel, signals)
      ensures Served(cfg, s, id, line, p, ok).clock == now
      ensures keep <==> Served(cfg, s, id, line, p, ok).conns[id].pc.Selecting?
    {
      if line.Blank? {
        return true, read;
      }
      var reply, bail;
      reply, bail, now := Attend(line, read, cfg, bus, channel, signals, p, s);
      keep := Write(reply, ok);
      keep := keep && !bail;
    }
  }

  /** The critical section and its aftermath, run through. */
  lemma {:induction false} CommittedWhole(cfg: Config, s: Daemon, c: nat)
    requires At(s, c) && s.conns[c].pc.Waiting? && Locks(s.conns[c].pc.m) && !s.conns[c].pc.m.Announce?
    ensures
      var k, t, o := s.conns[c], Committed(cfg, s, c, STILL), CriticalOf(cfg, s, c);
      && t.bus == o.bus
      && t.log == s.log + o.underLock + (if o.event.Some? then [o.event.value] else [])
      && t.pending == (if o.signal && s.pending < PERSIST_SLOTS then s.pending + 1 else s.pending)
      && t.conns[c] == k.(pc := Answer(o.reply, false))
  {
  }

  /** From `s` to `t` connection `c` got message `m` served with outcome `o`. */
  ghost predicate LockedEffect(s: Daemon, t: Daemon, c: nat, m: ClientMessage, o: Outcome, ok: bool) {
    && At(s, c) && At(t, c) && s.conns[c].session.Some?
    && var k, k' := s.conns[c], t.conns[c];
       var published := if m.Publish? then [PublishedMsg(m, k.session.value)] else [];
       && t.bus == o.bus
       && t.log == s.log + published + o.underLock + (if o.event.Some? then [o.event.value] else [])
       && t.pending == (if o.signal && s.pending < PERSIST_SLOTS then s.pending + 1 else s.pending)
       && k'.session == k.session && k'.prefixes == k.prefixes && k'.cursor == k.cursor
       && k'.out == (if ok then k.out + [ReplyLine(o.reply)] else k.out)
       && (k'.pc.Selecting? <==> ok)
  }

  lemma {:induction false} ReadLocked(s: Daemon, c: nat, line: Line)
    requires At(s, c) && s.conns[c].pc.Selecting? && s.conns[c].session.Some?
    requires line.Msg? && Locks(line.m) && !line.m.Announce? && !TooManyPaths(line.m)
    ensures
      var k, t := s.conns[c], ReadStep(s, c, line);
      && Waits(t, c) && t.conns[c] == k.(lines := k.lines + [line], pc := Waiting(line.m, s.clock))
      && t.bus == s.bus && t.clock == s.clock && t.pending == s.pending
      && t.log == s.log + (if line.m.Publish? then [PublishedMsg(line.m, k.session.value)] else [])
  {
  }

  lemma {:induction false} ServedLocked(cfg: Config, s: Daemon, c: nat, line: Line, ok: bool)
    requires At(s, c) && s.conns[c].pc.Selecting? && s.conns[c].session.Some?
    requires line.Msg? && Locks(line.m) && !line.m.Announce? && !TooManyPaths(line.m)
    ensures LockedEffect(s, Served(cfg, s, c, line, STILL, ok), c, line.m,
                         Critical(s.bus, s.conns[c].session.value, c, line.m, s.clock, cfg.timeout), ok)
  {
    ReadLocked(s, c, line);
    CommittedWhole(cfg, ReadStep(s, c, line), c);
  }
}
