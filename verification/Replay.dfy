/** Rebuilding the claim table from the `claim.*` events on the bus (src/daemon.rs, claim handlers). */
module Replay {
  import opened Protocol
  import opened BusModel
  import opened DaemonMachine
  import Durability
  import Shape

  datatype Lease = Lease(holder: string, ttl: nat)

  type Leases = map<string, Lease>

  /** What an observer of the bus does with one event. Events relayed from other nodes speak of other tables. */
  function Observe(h: Leases, msg: BroadcastMsg): Leases {
    if msg.fromUplink then h
    else if msg.topic == CLAIM_ACQUIRE_TOPIC && msg.data.ClaimAcquired? then
      h[msg.data.path := Lease(msg.data.sessionId, msg.data.ttl)]
    else if msg.topic == CLAIM_RELEASE_TOPIC && msg.data.ClaimReleased? then
      if msg.data.path in h && h[msg.data.path].holder == msg.data.sessionId then h - {msg.data.path} else h
    else h
  }

  /** An observer that took a claim list when `joined` messages had been sent, and follows the bus since. */
  datatype Observer = Observer(table: Leases, joined: nat)

  function Seen(ob: Observer, s: Daemon): Leases {
    if ob.joined <= |s.log| then Replayed(ob.table, s.log[ob.joined..]) else ob.table
  }

  function Replayed(base: Leases, log: seq<BroadcastMsg>): Leases {
    if log == [] then base else Observe(Replayed(base, log[..|log| - 1]), log[|log| - 1])
  }

  function LeasesOf(claims: map<string, ClaimRecord>): Leases {
    map p | p in claims :: Lease(claims[p].sessionId, claims[p].ttl)
  }

  /** What a table says about one path. */
  function On(h: Leases, path: string): Option<Lease> {
    if path in h then Some(h[path]) else None
  }

  predicate LiveLease(l: Option<Lease>, now: nat) {
    l.Some? && l.value.ttl > now
  }

  predicate LiveClaim(claims: map<string, ClaimRecord>, path: string, now: nat) {
    path in claims && claims[path].ttl > now
  }

  /** Whoever believes `l` of `path` agrees with the daemon on who holds it, and until when, if anyone still does. */
  predicate Right(l: Option<Lease>, claims: map<string, ClaimRecord>, path: string, now: nat) {
    && (LiveLease(l, now) <==> LiveClaim(claims, path, now))
    && (LiveClaim(claims, path, now) ==> l.value == Lease(claims[path].sessionId, claims[path].ttl))
  }

  predicate Concerns(msg: BroadcastMsg, path: string) {
    !msg.fromUplink && ((msg.topic == CLAIM_ACQUIRE_TOPIC && msg.data.ClaimAcquired? && msg.data.path == path)
                     || (msg.topic == CLAIM_RELEASE_TOPIC && msg.data.ClaimReleased? && msg.data.path == path))
  }

  /** What one event makes of the belief about `path`. */
  function Hears(l: Option<Lease>, msg: BroadcastMsg, path: string): Option<Lease> {
    if !Concerns(msg, path) then l
    else if msg.data.ClaimAcquired? then Some(Lease(msg.data.sessionId, msg.data.ttl))
    else if l.Some? && l.value.holder == msg.data.sessionId then None
    else l
  }

  function HearsAll(l: Option<Lease>, msgs: seq<BroadcastMsg>, path: string): Option<Lease>
    decreases |msgs|
  {
    if msgs == [] then l else HearsAll(Hears(l, msgs[0], path), msgs[1..], path)
  }

  lemma {:induction false} ReplaysOn(base: Leases, log: seq<BroadcastMsg>, path: string)
    ensures On(Replayed(base, log), path) == HearsAll(On(base, path), log, path)
    decreases |log|
  {
    if log != [] {
      var n := |log| - 1;
      ReplaysOn(base, log[..n], path);
      HearsJoined(On(base, path), log[..n], [log[n]], path);
      assert log == log[..n] + [log[n]];
      assert [log[n]][1..] == [];
    }
  }

  lemma {:induction false} HearsJoined(l: Option<Lease>, a: seq<BroadcastMsg>, b: seq<BroadcastMsg>, path: string)
    ensures HearsAll(l, a + b, path) == HearsAll(HearsAll(l, a, path), b, path)
    decreases |a|
  {
    if a == [] {
      assert a + b == b;
    } else {
      assert (a + b)[1..] == a[1..] + b;
      HearsJoined(Hears(l, a[0], path), a[1..], b, path);
    }
  }

  lemma {:induction false} HearsOneMore(l: Option<Lease>, msgs: seq<BroadcastMsg>, msg: BroadcastMsg, path: string)
    ensures HearsAll(l, msgs + [msg], path) == Hears(HearsAll(l, msgs, path), msg, path)
  {
    HearsJoined(l, msgs, [msg], path);
    assert [msg][1..] == [];
  }

  /** Connection `c` has committed a claim operation on `path` and not yet broadcast it. */
  predicate Owes(s: Daemon, c: nat, path: string) {
    c in s.conns && s.conns[c].pc.Finishing? && s.conns[c].pc.event.Some? && Concerns(s.conns[c].pc.event.value, path)
  }

  predicate ClaimOpOn(m: ClientMessage, path: string) {
    (m.ClaimAcquire? && m.path == path) || m == ClaimRelease(path)
  }

  /** A claim operation on `path` commits while another's broadcast is still due. */
  ghost predicate Overlaps(s: Daemon, a: Action, path: string) {
    a.Commit? && At(s, a.c) && s.conns[a.c].pc.Waiting? && ClaimOpOn(s.conns[a.c].pc.m, path)
    && exists d :: Owes(s, d, path)
  }

  /** A client publishes something that looks like a claim event on `path`. */
  predicate Forges(s: Daemon, a: Action, path: string) {
    a.Read? && At(s, a.c) && a.line.Msg? && a.line.m.Publish? && Concerns(PublishedMsg(a.line.m, ""), path)
  }

  /** A broadcast still due: whose, and what it will say. */
  datatype Debt = Debt(conn: nat, msg: BroadcastMsg)

  function Messages(debts: seq<Debt>): (msgs: seq<BroadcastMsg>)
    ensures |msgs| == |debts| && forall i :: 0 <= i < |msgs| ==> msgs[i] == debts[i].msg
  {
    seq(|debts|, i requires 0 <= i < |debts| => debts[i].msg)
  }

  predicate OwedBy(debts: seq<Debt>, c: nat) {
    exists i :: 0 <= i < |debts| && debts[i].conn == c
  }

  /** `debts` lists the broadcasts due on `path`, each connection's once. */
  ghost predicate Ledger(s: Daemon, path: string, debts: seq<Debt>) {
    && (forall i :: 0 <= i < |debts| ==>
          Owes(s, debts[i].conn, path) && s.conns[debts[i].conn].pc.event == Some(debts[i].msg))
    && (forall i, j :: 0 <= i < j < |debts| ==> debts[i].conn != debts[j].conn)
    && (forall c: nat :: Owes(s, c, path) ==> OwedBy(debts, c))
  }

  /** With the broadcasts still due, made in the order of `debts`, the observer is right about `path`. */
  ghost predicate Tracks(ob: Observer, s: Daemon, path: string, debts: seq<Debt>) {
    && ob.joined <= |s.log| && Ledger(s, path, debts)
    && Right(HearsAll(On(Seen(ob, s), path), Messages(debts), path), s.bus.claims, path, s.clock)
  }

  /** Handlers publish under the path they file the claim under. */
  ghost predicate Filed(s: Daemon) {
    forall p :: p in s.bus.claims ==> s.bus.claims[p].path == p
  }

  lemma {:induction false} SeenMore(ob: Observer, s: Daemon, t: Daemon, more: seq<BroadcastMsg>, path: string)
    requires ob.joined <= |s.log| && t.log == s.log + more
    ensures On(Seen(ob, t), path) == HearsAll(On(Seen(ob, s), path), more, path)
  {
    assert t.log[ob.joined..] == s.log[ob.joined..] + more;
    ReplaysOn(ob.table, s.log[ob.joined..], path);
    ReplaysOn(ob.table, t.log[ob.joined..], path);
    HearsJoined(On(ob.table, path), s.log[ob.joined..], more, path);
  }

  /** Whatever broadcasts are due before it: once its own is out as well, an operation on `path` leaves a right belief,
      even though an eviction is broadcast ahead of them all. */
  lemma {:induction false} OperationIsAnnounced(l: Option<Lease>, due: seq<BroadcastMsg>, bus: Bus, sid: string,
                                                conn: nat,
                                                m: ClientMessage, sample: nat, timeout: nat, path: string, now: nat)
    requires Locks(m) && ClaimOpOn(m, path) && sample <= now
    requires forall p :: p in bus.claims ==> bus.claims[p].path == p
    requires Right(HearsAll(l, due, path), bus.claims, path, now)
    ensures
      var o := Critical(bus, sid, conn, m, sample, timeout);
      var l1 := HearsAll(l, o.underLock, path);
      && (o.event.None? ==> Right(HearsAll(l1, due, path), o.bus.claims, path, now))
      && (o.event.Some? ==>
            Concerns(o.event.value, path) && Right(HearsAll(l1, due + [o.event.value], path), o.bus.claims, path, now))
  {
    var o := Critical(bus, sid, conn, m, sample, timeout);
    if o.event.Some? {
      HearsOneMore(HearsAll(l, o.underLock, path), due, o.event.value, path);
    }
  }

  /** What the events of a claim operation say, and when there are any: a granted acquire announces itself, after the
      release of a live holder it forces out; a release that released announces itself; nothing else is announced. */
  lemma {:induction false} EventsSay(bus: Bus, sid: string, conn: nat, m: ClientMessage, sample: nat, timeout: nat)
    requires Locks(m)
    ensures
      var o := Critical(bus, sid, conn, m, sample, timeout);
      if m.ClaimAcquire? && o.reply.Granted? then
        && o.event == Some(BroadcastMsg("claim.acquire", ClaimAcquired(m.path, sid, m.ttl, m.reason), sid, false))
        && o.underLock == (if LiveClaim(bus.claims, m.path, sample) && bus.claims[m.path].sessionId != sid
                           then [BroadcastMsg("claim.release",
                                   ClaimReleased(bus.claims[m.path].path, bus.claims[m.path].sessionId), sid, false)]
                           else [])
      else if m.ClaimRelease? && o.reply == Released(true) then
        o.event == Some(BroadcastMsg("claim.release", ClaimReleased(m.path, sid), sid, false)) && o.underLock == []
      else o.event.None? && o.underLock == []
  {
  }

  /** An operation elsewhere neither moves `path` nor sends anything about it. */
  lemma {:induction false} OtherOperations(bus: Bus, sid: string, conn: nat, m: ClientMessage, sample: nat,
                                           timeout: nat, path: string, now: nat)
    requires Locks(m) && !ClaimOpOn(m, path) && sample <= now
    requires forall p :: p in bus.claims ==> bus.claims[p].path == p
    ensures
      var o := Critical(bus, sid, conn, m, sample, timeout);
      && (forall i :: 0 <= i < |o.underLock| ==> !Concerns(o.underLock[i], path))
      && (o.event.Some? ==> !Concerns(o.event.value, path))
      && (LiveClaim(o.bus.claims, path, now) <==> LiveClaim(bus.claims, path, now))
      && (LiveClaim(bus.claims, path, now) ==> o.bus.claims[path] == bus.claims[path])
  {
  }

  /** One commit, seen by an observer that believes `l` and with `due` still to come. */
  lemma {:induction false} CommitIsHeard(l: Option<Lease>, due: seq<BroadcastMsg>, bus: Bus, sid: string, conn: nat,
                                         m: ClientMessage,
                                         sample: nat, timeout: nat, path: string, now: nat)
    requires Locks(m) && sample <= now
    requires forall p :: p in bus.claims ==> bus.claims[p].path == p
    requires Right(HearsAll(l, due, path), bus.claims, path, now)
    ensures
      var o := Critical(bus, sid, conn, m, sample, timeout);
      var own := if o.event.Some? && Concerns(o.event.value, path) then [o.event.value] else [];
      Right(HearsAll(HearsAll(l, o.underLock, path), due + own, path), o.bus.claims, path, now)
  {
    var o := Critical(bus, sid, conn, m, sample, timeout);
    assert due + [] == due;
    if ClaimOpOn(m, path) {
      OperationIsAnnounced(l, due, bus, sid, conn, m, sample, timeout, path, now);
    } else {
      OtherOperations(bus, sid, conn, m, sample, timeout, path, now);
      assert o.underLock != [] ==> o.underLock[1..] == [];
    }
  }

  lemma {:induction false} CommitTracks(cfg: Config, ob: Observer, s: Daemon, c: nat, path: string, debts: seq<Debt>)
    requires Enabled(cfg, s, Commit(c)) && s.conns[c].pc.now <= s.clock && Filed(s) && Tracks(ob, s, path, debts)
    ensures Tracks(ob, CommitStep(cfg, s, c), path, Committed(debts, CommitStep(cfg, s, c), c, path))
  {
    var k, o, t := s.conns[c], CriticalOf(cfg, s, c), CommitStep(cfg, s, c);
    var next := Committed(debts, t, c, path);
    SeenMore(ob, s, t, o.underLock, path);
    CommitIsHeard(On(Seen(ob, s), path), Messages(debts), s.bus, SessionOf(k), c, k.pc.m, Sample(s, k.pc), cfg.timeout,
        path, s.clock);
    assert t.conns[c].pc == Finishing(o.signal, o.event, o.reply, false);
    assert Messages(next) == Messages(debts) + (if Owes(t, c, path) then [o.event.value] else []);
    CommitLedger(s, t, c, path, debts);
  }

  lemma {:induction false} CommitLedger(s: Daemon, t: Daemon, c: nat, path: string, debts: seq<Debt>)
    requires Ledger(s, path, debts) && At(s, c) && s.conns[c].pc.Waiting? && At(t, c)
    requires t.conns == s.conns[c := t.conns[c]]
    ensures Ledger(t, path, Committed(debts, t, c, path))
  {
    var next := Committed(debts, t, c, path);
    assert forall i :: 0 <= i < |debts| ==> Owes(s, debts[i].conn, path) && debts[i].conn != c && next[i] == debts[i];
    forall d: nat | Owes(t, d, path)
      ensures OwedBy(next, d)
    {
      if d == c {
        assert next[|debts|].conn == c;
      } else {
        assert Owes(s, d, path);
        var i :| 0 <= i < |debts| && debts[i].conn == d;
        assert next[i].conn == d;
      }
    }
  }

  /** The queue after connection `c` has committed and the daemon stands at `t`. */
  function Committed(debts: seq<Debt>, t: Daemon, c: nat, path: string): seq<Debt> {
    if Owes(t, c, path) then debts + [Debt(c, t.conns[c].pc.event.value)] else debts
  }

  /** A message that says nothing about `path` may be appended, and time may pass, while debts on `path` stand. */
  lemma {:induction false} QuietStep(ob: Observer, s: Daemon, t: Daemon, path: string, debts: seq<Debt>)
    requires Tracks(ob, s, path, debts) && t.bus.claims == s.bus.claims && s.clock <= t.clock
    requires t.log == s.log || exists msg :: t.log == s.log + [msg] && !Concerns(msg, path)
    requires Ledger(t, path, debts)
    ensures Tracks(ob, t, path, debts)
  {
    if t.log != s.log {
      var msg :| t.log == s.log + [msg] && !Concerns(msg, path);
      SeenMore(ob, s, t, [msg], path);
      assert [msg][1..] == [];
    }
  }

  lemma {:induction false} LedgerStands(s: Daemon, t: Daemon, path: string, debts: seq<Debt>)
    requires Ledger(s, path, debts)
    requires forall d: nat :: Owes(t, d, path) <==> Owes(s, d, path)
    requires forall d: nat :: Owes(s, d, path) ==> Owes(t, d, path) && t.conns[d].pc.event == s.conns[d].pc.event
    ensures Ledger(t, path, debts)
  {
    forall d: nat | Owes(t, d, path)
      ensures OwedBy(debts, d)
    {
      assert Owes(s, d, path);
    }
  }

  /** The debt at the head of the queue is paid. */
  lemma {:induction false} HeadPaid(cfg: Config, ob: Observer, s: Daemon, c: nat, path: string, debts: seq<Debt>)
    requires Enabled(cfg, s, Broadcast(c)) && Tracks(ob, s, path, debts) && debts != [] && debts[0].conn == c
    ensures Tracks(ob, Step(cfg, s, Broadcast(c)), path, debts[1..])
  {
    var t, msg := Step(cfg, s, Broadcast(c)), s.conns[c].pc.event.value;
    assert Owes(s, debts[0].conn, path) && debts[0].msg == msg;
    SeenMore(ob, s, t, [msg], path);
    assert [msg][1..] == [] && Messages(debts)[1..] == Messages(debts[1..]);
    OnePaid(s, t, c, path, debts);
  }

  lemma {:induction false} OnePaid(s: Daemon, t: Daemon, c: nat, path: string, debts: seq<Debt>)
    requires Ledger(s, path, debts) && debts != [] && debts[0].conn == c
    requires At(t, c) && t.conns == s.conns[c := t.conns[c]] && !Owes(t, c, path)
    ensures Ledger(t, path, debts[1..])
  {
    var rest := debts[1..];
    assert forall i :: 0 <= i < |rest| ==> rest[i] == debts[i + 1] && Owes(s, debts[i + 1].conn, path);
    forall d: nat | Owes(t, d, path)
      ensures OwedBy(rest, d)
    {
      assert d != c && Owes(s, d, path);
      var i :| 0 <= i < |debts| && debts[i].conn == d;
      assert rest[i - 1].conn == d;
    }
  }

  lemma {:induction false} BroadcastTracks(cfg: Config, ob: Observer, s: Daemon, c: nat, path: string, debts: seq<Debt>)
    requires Enabled(cfg, s, Broadcast(c)) && Tracks(ob, s, path, debts) && !Owes(s, c, path)
    ensures Tracks(ob, Step(cfg, s, Broadcast(c)), path, debts)
  {
    var t, msg := Step(cfg, s, Broadcast(c)), s.conns[c].pc.event.value;
    assert t.log == s.log + [msg] && !Concerns(msg, path);
    OneMoved(s, t, c, path);
    LedgerStands(s, t, path, debts);
    QuietStep(ob, s, t, path, debts);
  }

  /** Replacing one connection by another, when neither owes anything new, leaves all debts alone. */
  lemma {:induction false} OneMoved(s: Daemon, t: Daemon, c: nat, path: string)
    requires c in t.conns && t.conns == s.conns[c := t.conns[c]]
    requires Owes(t, c, path) <==> Owes(s, c, path)
    requires Owes(s, c, path) ==> t.conns[c].pc.event == s.conns[c].pc.event
    ensures forall d: nat :: Owes(t, d, path) <==> Owes(s, d, path)
    ensures forall d: nat :: Owes(s, d, path) ==> t.conns[d].pc.event == s.conns[d].pc.event
  {
    assert forall d: nat | d != c :: Owes(t, d, path) <==> Owes(s, d, path);
  }

  /** The other steps owe what they owed. */
  lemma {:induction false} DebtsStand(cfg: Config, s: Daemon, a: Action, path: string)
    requires Enabled(cfg, s, a) && !a.Commit? && !a.Broadcast? && !a.Restart?
    requires a.Accept? ==> s.nextConn !in s.conns
    ensures forall d: nat :: Owes(Step(cfg, s, a), d, path) <==> Owes(s, d, path)
    ensures forall d: nat :: Owes(s, d, path) ==> Step(cfg, s, a).conns[d].pc.event == s.conns[d].pc.event
  {
    var t := Step(cfg, s, a);
    if t.conns != s.conns {
      MoverOwesNothingNew(cfg, s, a, path);
      OneMoved(s, t, Durability.Mover(s, a), path);
    }
  }

  lemma {:induction false} ReaderOwesNothing(s: Daemon, c: nat, line: Line, path: string)
    requires At(s, c) && s.conns[c].pc.Selecting? && !line.Blank?
    ensures c in ReadStep(s, c, line).conns && ReadStep(s, c, line).conns == s.conns[c := ReadStep(s, c, line).conns[c]]
    ensures !Owes(ReadStep(s, c, line), c, path)
  {
  }

  lemma {:induction false} MoverOwesNothingNew(cfg: Config, s: Daemon, a: Action, path: string)
    requires Enabled(cfg, s, a) && Durability.ConnAction(a) && !a.Broadcast? && Step(cfg, s, a).conns != s.conns
    requires a.Accept? ==> s.nextConn !in s.conns
    ensures
      var t, c := Step(cfg, s, a), Durability.Mover(s, a);
      && c in t.conns && t.conns == s.conns[c := t.conns[c]]
      && (Owes(t, c, path) <==> Owes(s, c, path))
      && (Owes(s, c, path) ==> t.conns[c].pc.event == s.conns[c].pc.event)
  {
    if a.Read? {
      ReaderOwesNothing(s, a.c, a.line, path);
    }
  }

  lemma {:induction false} LogsNothing(cfg: Config, s: Daemon, a: Action, path: string)
    requires Enabled(cfg, s, a) && !a.Commit? && !a.Broadcast? && !a.Restart? && !Forges(s, a, path)
    ensures var t := Step(cfg, s, a);
            && t.bus.claims == s.bus.claims && s.clock <= t.clock
            && (t.log == s.log || exists msg :: t.log == s.log + [msg] && !Concerns(msg, path))
  {
    var t := Step(cfg, s, a);
    if a.Read? && t.log != s.log {
      assert t.log == s.log + [PublishedMsg(a.line.m, s.conns[a.c].session.value)];
    }
    if a.Inject? {
      assert t.log == s.log + [a.msg] && !Concerns(a.msg, path);
    }
  }

  /** A graceful restart drops only what has expired, and by then nobody is left to owe anything. */
  lemma {:induction false} RestartTracks(cfg: Config, ob: Observer, s: Daemon, path: string, debts: seq<Debt>)
    requires Enabled(cfg, s, Restart(true)) && s.ioOk && Durability.Inv(s) && Tracks(ob, s, path, debts)
    ensures Tracks(Observer(Seen(ob, s), 0), Step(cfg, s, Restart(true)), path, [])
  {
    var t := Step(cfg, s, Restart(true));
    NothingDue(s, path, debts);
    assert Durability.Memory(s, s.journal);
    assert path in Live(s.journal.claims, s.clock) <==> path in Live(s.bus.claims, s.clock);
    assert t.log[0..] == [];
  }

  lemma {:induction false} StepTracks(cfg: Config, ob: Observer, s: Daemon, a: Action, path: string, debts: seq<Debt>)
    requires Enabled(cfg, s, a) && Durability.Inv(s) && Filed(s) && Tracks(ob, s, path, debts)
    requires !Disturbs(s, a, path) && !Overtakes(s, a, path, debts)
    ensures Tracks(Follows(ob, s, a), Step(cfg, s, a), path, NextDebts(debts, s, Step(cfg, s, a), a, path))
  {
    if a.Restart? {
      RestartTracks(cfg, ob, s, path, debts);
    } else if a.Commit? {
      CommitTracks(cfg, ob, s, a.c, path, debts);
    } else if a.Broadcast? {
      if Owes(s, a.c, path) {
        HeadPaid(cfg, ob, s, a.c, path, debts);
        HeadLeaves(debts);
      } else {
        BroadcastTracks(cfg, ob, s, a.c, path, debts);
      }
    } else {
      LogsNothing(cfg, s, a, path);
      DebtsStand(cfg, s, a, path);
      LedgerStands(s, Step(cfg, s, a), path, debts);
      QuietStep(ob, s, Step(cfg, s, a), path, debts);
    }
  }

  function Without(debts: seq<Debt>, c: nat): seq<Debt> {
    if debts == [] then [] else (if debts[0].conn == c then [] else [debts[0]]) + Without(debts[1..], c)
  }

  lemma {:induction false} WithoutNothing(debts: seq<Debt>, c: nat)
    requires forall i :: 0 <= i < |debts| ==> debts[i].conn != c
    ensures Without(debts, c) == debts
    decreases |debts|
  {
    if debts != [] {
      WithoutNothing(debts[1..], c);
    }
  }

  lemma {:induction false} HeadLeaves(debts: seq<Debt>)
    requires debts != [] && forall i, j :: 0 <= i < j < |debts| ==> debts[i].conn != debts[j].conn
    ensures Without(debts, debts[0].conn) == debts[1..]
  {
    WithoutNothing(debts[1..], debts[0].conn);
  }

  /** The broadcasts due on `path` after one more step, in the order of their commits. */
  function NextDebts(debts: seq<Debt>, s: Daemon, t: Daemon, a: Action, path: string): seq<Debt> {
    match a
    case Commit(c) => Committed(debts, t, c, path)
    case Broadcast(c) => if Owes(s, c, path) then Without(debts, c) else debts
    case Restart(_) => []
    case _ => debts
  }

  ghost function DebtsAt(ss: seq<Daemon>, acts: seq<Action>, i: nat, j: nat, path: string): seq<Debt>
    requires i <= j < |ss| && |ss| == |acts| + 1
    decreases j
  {
    if i == j then [] else NextDebts(DebtsAt(ss, acts, i, j - 1, path), ss[j - 1], ss[j], acts[j - 1], path)
  }

  /** A broadcast on `path` is made while one committed earlier is still due. */
  predicate Overtakes(s: Daemon, a: Action, path: string, debts: seq<Debt>) {
    a.Broadcast? && Owes(s, a.c, path) && (debts == [] || debts[0].conn != a.c)
  }

  /** A client forges a claim event on `path`, or a restart finds no good journal. */
  predicate Disturbs(s: Daemon, a: Action, path: string) {
    Forges(s, a, path) || (a.Restart? && (!a.readable || !s.ioOk))
  }

  ghost predicate Undisturbed(ss: seq<Daemon>, acts: seq<Action>, i: nat, j: nat, path: string)
    requires i <= j < |ss| && |ss| == |acts| + 1
  {
    forall k | i <= k < j :: !Disturbs(ss[k], acts[k], path)
  }

  /** Broadcasts on `path` are made in the order of their commits. */
  ghost predicate InTurn(ss: seq<Daemon>, acts: seq<Action>, i: nat, j: nat, path: string)
    requires i <= j < |ss| && |ss| == |acts| + 1
  {
    forall k | i <= k < j :: !Overtakes(ss[k], acts[k], path, DebtsAt(ss, acts, i, k, path))
  }

  /** An observer joins between states: nobody owes a broadcast on `path`, and it takes the table as it stands. */
  function Joining(s: Daemon): Observer {
    Observer(LeasesOf(s.bus.claims), |s.log|)
  }

  /** When the daemon restarts, the observer keeps its table and follows the new bus from its beginning. */
  function Follows(ob: Observer, s: Daemon, a: Action): Observer {
    if a.Restart? then Observer(Seen(ob, s), 0) else ob
  }

  ghost function Following(ss: seq<Daemon>, acts: seq<Action>, i: nat, j: nat): Observer
    requires i <= j < |ss| && |ss| == |acts| + 1
    decreases j
  {
    if i == j then Joining(ss[i]) else Follows(Following(ss, acts, i, j - 1), ss[j - 1], acts[j - 1])
  }

  /** While broadcasts on `path` are made in the order of their commits, however many are due at a time, folding the
      bus over a table taken at `i`, through any number of graceful restarts, gives the holder and the expiry of
      `path` at `j`, as soon as the broadcasts still due are counted. */
  lemma {:induction false} ClaimReplay(cfg: Config, ss: seq<Daemon>, acts: seq<Action>, i: nat, j: nat, path: string)
    requires Run(cfg, ss, acts) && i <= j < |ss|
    requires forall c: nat :: !Owes(ss[i], c, path)
    requires Undisturbed(ss, acts, i, j, path) && InTurn(ss, acts, i, j, path)
    ensures Tracks(Following(ss, acts, i, j), ss[j], path, DebtsAt(ss, acts, i, j, path))
    ensures (forall c: nat :: !Owes(ss[j], c, path)) ==>
              Right(On(Seen(Following(ss, acts, i, j), ss[j]), path), ss[j].bus.claims, path, ss[j].clock)
  {
    TracksThrough(cfg, ss, acts, i, j, path);
    NothingDue(ss[j], path, DebtsAt(ss, acts, i, j, path));
  }

  lemma {:induction false} TracksThrough(cfg: Config, ss: seq<Daemon>, acts: seq<Action>, i: nat, j: nat, path: string)
    requires Run(cfg, ss, acts) && i <= j < |ss|
    requires forall c: nat :: !Owes(ss[i], c, path)
    requires Undisturbed(ss, acts, i, j, path) && InTurn(ss, acts, i, j, path)
    ensures Tracks(Following(ss, acts, i, j), ss[j], path, DebtsAt(ss, acts, i, j, path))
    decreases j
  {
    if i == j {
    } else {
      TracksThrough(cfg, ss, acts, i, j - 1, path);
      TracksOneMore(cfg, ss, acts, i, j, path);
    }
  }

  lemma {:induction false} TracksOneMore(cfg: Config, ss: seq<Daemon>, acts: seq<Action>, i: nat, j: nat, path: string)
    requires Run(cfg, ss, acts) && i < j < |ss|
    requires !Disturbs(ss[j - 1], acts[j - 1], path)
    requires !Overtakes(ss[j - 1], acts[j - 1], path, DebtsAt(ss, acts, i, j - 1, path))
    requires Tracks(Following(ss, acts, i, j - 1), ss[j - 1], path, DebtsAt(ss, acts, i, j - 1, path))
    ensures Tracks(Following(ss, acts, i, j), ss[j], path, DebtsAt(ss, acts, i, j, path))
  {
    NextTracks(cfg, ss, acts, j - 1, path, Following(ss, acts, i, j - 1), DebtsAt(ss, acts, i, j - 1, path));
  }

  lemma {:induction false} NextTracks(cfg: Config, ss: seq<Daemon>, acts: seq<Action>, k: nat, path: string,
                                      ob: Observer, debts: seq<Debt>)
    requires Run(cfg, ss, acts) && k < |acts| && Tracks(ob, ss[k], path, debts)
    requires !Disturbs(ss[k], acts[k], path) && !Overtakes(ss[k], acts[k], path, debts)
    ensures Tracks(Follows(ob, ss[k], acts[k]), ss[k + 1], path, NextDebts(debts, ss[k], ss[k + 1], acts[k], path))
  {
    assert Stepped(cfg, ss, acts, k);
    Durability.Always(cfg, ss, acts, k);
    Shape.Always(cfg, ss, acts, k);
    assert Filed(ss[k]);
    StepTracks(cfg, ob, ss[k], acts[k], path, debts);
  }

  lemma {:induction false} NothingDue(s: Daemon, path: string, debts: seq<Debt>)
    requires Ledger(s, path, debts)
    ensures (forall c: nat :: !Owes(s, c, path)) ==> debts == []
  {
    if debts != [] {
      assert Owes(s, debts[0].conn, path);
    }
  }

  /** No claim operation on `path` commits while another's broadcast is due. */
  ghost predicate Apart(ss: seq<Daemon>, acts: seq<Action>, i: nat, j: nat, path: string)
    requires i <= j < |ss| && |ss| == |acts| + 1
  {
    forall k | i <= k < j :: !Overlaps(ss[k], acts[k], path)
  }

  /** Claim operations that do not overlap broadcast in turn, so for them replay is right unconditionally. */
  lemma {:induction false} ApartIsInTurn(cfg: Config, ss: seq<Daemon>, acts: seq<Action>, i: nat, j: nat, path: string)
    requires Run(cfg, ss, acts) && i <= j < |ss|
    requires forall c: nat :: !Owes(ss[i], c, path)
    requires Undisturbed(ss, acts, i, j, path) && Apart(ss, acts, i, j, path)
    ensures InTurn(ss, acts, i, j, path) && |DebtsAt(ss, acts, i, j, path)| <= 1
  {
    ApartSoFar(cfg, ss, acts, i, j, j, path);
  }

  lemma {:induction false} ApartSoFar(cfg: Config, ss: seq<Daemon>, acts: seq<Action>, i: nat, n: nat, j: nat,
                                      path: string)
    requires Run(cfg, ss, acts) && i <= n <= j < |ss|
    requires forall c: nat :: !Owes(ss[i], c, path)
    requires Undisturbed(ss, acts, i, j, path) && Apart(ss, acts, i, j, path)
    ensures InTurn(ss, acts, i, n, path) && |DebtsAt(ss, acts, i, n, path)| <= 1
    decreases n
  {
    if i < n {
      ApartSoFar(cfg, ss, acts, i, n - 1, j, path);
      ShorterApart(ss, acts, i, n, j, path);
      OneMoreApart(cfg, ss, acts, i, n, path);
    }
  }

  lemma {:induction false} ShorterApart(ss: seq<Daemon>, acts: seq<Action>, i: nat, n: nat, j: nat, path: string)
    requires i < n <= j < |ss| && |ss| == |acts| + 1
    requires Undisturbed(ss, acts, i, j, path) && Apart(ss, acts, i, j, path)
    ensures Undisturbed(ss, acts, i, n - 1, path) && !Overlaps(ss[n - 1], acts[n - 1], path)
  {
  }

  lemma {:induction false} OneMoreApart(cfg: Config, ss: seq<Daemon>, acts: seq<Action>, i: nat, j: nat, path: string)
    requires Run(cfg, ss, acts) && i < j < |ss| && !Overlaps(ss[j - 1], acts[j - 1], path)
    requires forall c: nat :: !Owes(ss[i], c, path)
    requires Undisturbed(ss, acts, i, j - 1, path) && InTurn(ss, acts, i, j - 1, path)
    requires |DebtsAt(ss, acts, i, j - 1, path)| <= 1
    ensures InTurn(ss, acts, i, j, path) && |DebtsAt(ss, acts, i, j, path)| <= 1
  {
    LedgerThrough(cfg, ss, acts, i, j - 1, path);
    StaysApart(cfg, ss, acts, i, j, path);
    OneLonger(ss, acts, i, j, path);
  }

  lemma {:induction false} LedgerThrough(cfg: Config, ss: seq<Daemon>, acts: seq<Action>, i: nat, j: nat, path: string)
    requires Run(cfg, ss, acts) && i <= j < |ss|
    requires forall c: nat :: !Owes(ss[i], c, path)
    requires Undisturbed(ss, acts, i, j, path) && InTurn(ss, acts, i, j, path)
    ensures Ledger(ss[j], path, DebtsAt(ss, acts, i, j, path))
  {
    TracksThrough(cfg, ss, acts, i, j, path);
  }

  lemma {:induction false} OneLonger(ss: seq<Daemon>, acts: seq<Action>, i: nat, j: nat, path: string)
    requires i < j < |ss| && |ss| == |acts| + 1 && InTurn(ss, acts, i, j - 1, path)
    requires !Overtakes(ss[j - 1], acts[j - 1], path, DebtsAt(ss, acts, i, j - 1, path))
    ensures InTurn(ss, acts, i, j, path)
  {
  }

  lemma {:induction false} StaysApart(cfg: Config, ss: seq<Daemon>, acts: seq<Action>, i: nat, j: nat, path: string)
    requires Run(cfg, ss, acts) && i < j < |ss| && !Overlaps(ss[j - 1], acts[j - 1], path)
    requires Ledger(ss[j - 1], path, DebtsAt(ss, acts, i, j - 1, path)) && |DebtsAt(ss, acts, i, j - 1, path)| <= 1
    ensures !Overtakes(ss[j - 1], acts[j - 1], path, DebtsAt(ss, acts, i, j - 1, path))
    ensures |DebtsAt(ss, acts, i, j, path)| <= 1
  {
    assert Stepped(cfg, ss, acts, j - 1);
    AtMostOne(cfg, ss[j - 1], acts[j - 1], path, DebtsAt(ss, acts, i, j - 1, path));
  }

  lemma {:induction false} AtMostOne(cfg: Config, s: Daemon, a: Action, path: string, debts: seq<Debt>)
    requires Enabled(cfg, s, a) && Ledger(s, path, debts) && |debts| <= 1 && !Overlaps(s, a, path)
    ensures !Overtakes(s, a, path, debts) && |NextDebts(debts, s, Step(cfg, s, a), a, path)| <= 1
  {
    if a.Broadcast? && Owes(s, a.c, path) {
      assert OwedBy(debts, a.c);
      HeadLeaves(debts);
    }
    if a.Commit? && Owes(CommitStep(cfg, s, a.c), a.c, path) {
      OnlyItsOwn(cfg, s, a.c, path);
      NothingDue(s, path, debts);
    }
  }

  lemma {:induction false} OnlyItsOwn(cfg: Config, s: Daemon, c: nat, path: string)
    requires Enabled(cfg, s, Commit(c)) && Owes(CommitStep(cfg, s, c), c, path)
    ensures ClaimOpOn(s.conns[c].pc.m, path)
  {
  }

  // ----- when one broadcast overtakes another

  /** The swap of two events does no harm: for two acquires, if they say the same or both have expired; for an acquire
      and a release, if they come from different sessions or the acquire has expired; for two releases always. */
  predicate SwapIsHarmless(first: BroadcastMsg, second: BroadcastMsg, now: nat)
    requires first.data.ClaimAcquired? || first.data.ClaimReleased?
    requires second.data.ClaimAcquired? || second.data.ClaimReleased?
  {
    if first.data.ClaimAcquired? && second.data.ClaimAcquired? then
      || (first.data.sessionId == second.data.sessionId && first.data.ttl == second.data.ttl)
      || (first.data.ttl <= now && second.data.ttl <= now)
    else if first.data.ClaimAcquired? then first.data.sessionId != second.data.sessionId || first.data.ttl <= now
    else if second.data.ClaimAcquired? then first.data.sessionId != second.data.sessionId || second.data.ttl <= now
    else true
  }

  /** Of two events on `path`, heard in the wrong order: the belief is right exactly if the swap is harmless. */
  lemma {:induction false} SwapIsRightIff(l: Option<Lease>, first: BroadcastMsg, second: BroadcastMsg,
                                          claims: map<string, ClaimRecord>,
                                          path: string, now: nat)
    requires Concerns(first, path) && Concerns(second, path)
    requires Right(HearsAll(l, [first, second], path), claims, path, now)
    ensures Right(HearsAll(l, [second, first], path), claims, path, now) <==> SwapIsHarmless(first, second, now)
  {
    HearsTwo(l, first, second, path);
    HearsTwo(l, second, first, path);
  }

  lemma {:induction false} HearsTwo(l: Option<Lease>, a: BroadcastMsg, b: BroadcastMsg, path: string)
    ensures HearsAll(l, [a, b], path) == Hears(Hears(l, a, path), b, path)
  {
    assert [a, b] == [a] + [b];
    HearsOneMore(l, [a], b, path);
    assert [a][1..] == [];
  }

  /** What a connection that owes a broadcast does next. */
  function Payment(s: Daemon, c: nat): seq<Action>
    requires At(s, c) && s.conns[c].pc.Finishing?
  {
    (if s.conns[c].pc.signal then [Signal(c)] else []) + ([Broadcast(c)] + [])
  }

  lemma {:induction false} Pays(cfg: Config, s: Daemon, c: nat)
    requires At(s, c) && s.conns[c].pc.Finishing? && s.conns[c].pc.event.Some?
    ensures
      && Legal(cfg, s, Payment(s, c))
      && var t := After(cfg, s, Payment(s, c));
         && t.log == s.log + [s.conns[c].pc.event.value] && t.bus == s.bus && t.clock == s.clock
         && t.conns == s.conns[c := s.conns[c].(pc := s.conns[c].pc.(signal := false, event := None))]
  {
    var t := if s.conns[c].pc.signal then Step(cfg, s, Signal(c)) else s;
    Prepend(cfg, t, Broadcast(c), []);
    if s.conns[c].pc.signal {
      Prepend(cfg, s, Signal(c), [Broadcast(c)] + []);
      assert [Signal(c)] + ([Broadcast(c)] + []) == Payment(s, c);
    } else {
      assert [] + ([Broadcast(c)] + []) == [Broadcast(c)] + [];
    }
  }

  /** Wherever in a run two broadcasts on a path are due, the later one may be made first; when both are out, whoever
      followed the bus is right about the path exactly if the swap is harmless. */
  lemma {:induction false} OvertakingIsRightIff(cfg: Config, ob: Observer, s: Daemon, path: string, debts: seq<Debt>)
      returns (t: Daemon, u: Daemon)
    requires |debts| == 2 && Tracks(ob, s, path, debts)
    ensures Legal(cfg, s, Payment(s, debts[1].conn)) && t == After(cfg, s, Payment(s, debts[1].conn))
    ensures At(t, debts[0].conn) && t.conns[debts[0].conn] == s.conns[debts[0].conn]
    ensures Legal(cfg, t, Payment(t, debts[0].conn)) && u == After(cfg, t, Payment(t, debts[0].conn))
    ensures u.bus == s.bus && u.clock == s.clock && forall c: nat :: !Owes(u, c, path)
    ensures Concerns(debts[0].msg, path) && Concerns(debts[1].msg, path)
    ensures Right(On(Seen(ob, u), path), u.bus.claims, path, u.clock) <==>
        SwapIsHarmless(debts[0].msg, debts[1].msg, u.clock)
  {
    var c, d := debts[0].conn, debts[1].conn;
    assert Owes(s, c, path) && Owes(s, d, path) && c != d;
    Pays(cfg, s, d);
    t := After(cfg, s, Payment(s, d));
    Pays(cfg, t, c);
    u := After(cfg, t, Payment(t, c));
    assert Messages(debts) == [debts[0].msg, debts[1].msg];
    assert u.log == s.log + [debts[1].msg, debts[0].msg];
    SeenMore(ob, s, u, [debts[1].msg, debts[0].msg], path);
    SwapIsRightIff(On(Seen(ob, s), path), debts[0].msg, debts[1].msg, s.bus.claims, path, s.clock);
    BothPaid(s, u, path, debts);
  }

  lemma {:induction false} BothPaid(s: Daemon, u: Daemon, path: string, debts: seq<Debt>)
    requires |debts| == 2 && Ledger(s, path, debts) && At(u, debts[0].conn) && At(u, debts[1].conn)
    requires !Owes(u, debts[0].conn, path) && !Owes(u, debts[1].conn, path)
    requires forall b :: b != debts[0].conn && b != debts[1].conn && b in u.conns ==>
        b in s.conns && u.conns[b] == s.conns[b]
    ensures forall b: nat :: !Owes(u, b, path)
  {
    forall b: nat
      ensures !Owes(u, b, path)
    {
      assert Owes(s, b, path) ==> OwedBy(debts, b);
    }
  }

  /** A plain acquire of a free path and a forced one by another session, both waiting for the lock. */
  predicate Racing(s: Daemon, c: nat, d: nat, path: string) {
    && c != d && At(s, c) && At(s, d) && s.conns[c].pc.Waiting? && s.conns[d].pc.Waiting?
    && s.conns[c].pc.m.ClaimAcquire? && s.conns[c].pc.m.path == path
    && s.conns[d].pc.m.ClaimAcquire? && s.conns[d].pc.m.path == path && s.conns[d].pc.m.force
    && SessionOf(s.conns[c]) != SessionOf(s.conns[d])
    && path !in s.bus.claims && s.conns[c].pc.m.ttl > s.clock && s.conns[d].pc.now <= s.clock
  }

  lemma {:induction false} RaceCommits(cfg: Config, s: Daemon, c: nat, d: nat, path: string) returns (t: Daemon)
    requires Racing(s, c, d, path)
    ensures Enabled(cfg, s, Commit(c)) && Enabled(cfg, CommitStep(cfg, s, c), Commit(d))
    ensures t == CommitStep(cfg, CommitStep(cfg, s, c), d)
    ensures var a, b, m, n := SessionOf(s.conns[c]), SessionOf(s.conns[d]), s.conns[c].pc.m, s.conns[d].pc.m;
            && At(t, c) && At(t, d) && path in t.bus.claims && t.bus.claims[path].sessionId == b
            && t.bus.claims[path].ttl == n.ttl
            && t.clock == s.clock && t.conns.Keys == s.conns.Keys
            && t.log == s.log + [ReleaseEvent(path, a, b)]
            && t.conns[c].pc == Finishing(true, Some(AcquireEvent(path, a, m.ttl, m.reason)),
                Granted(path, m.ttl), false)
            && t.conns[d].pc == Finishing(true, Some(AcquireEvent(path, b, n.ttl, n.reason)),
                Granted(path, n.ttl), false)
  {
    var s1 := CommitStep(cfg, s, c);
    assert s1.bus.claims[path].sessionId == SessionOf(s.conns[c]) && s1.log == s.log;
    t := CommitStep(cfg, s1, d);
  }

  /** With both events pending, `d` broadcasts first and `c` last. */
  lemma {:induction false} LoserBroadcastsLast(cfg: Config, t: Daemon, c: nat, d: nat)
    requires c != d && At(t, c) && At(t, d) && t.conns[c].pc.Finishing? && t.conns[d].pc.Finishing?
    requires t.conns[c].pc.signal && t.conns[d].pc.signal && t.conns[c].pc.event.Some? && t.conns[d].pc.event.Some?
    ensures
      var tail := [Signal(d)] + ([Broadcast(d)] + ([Signal(c)] + ([Broadcast(c)] + [])));
      && Legal(cfg, t, tail)
      && var u := After(cfg, t, tail);
         && u.log == t.log + [t.conns[d].pc.event.value] + [t.conns[c].pc.event.value]
         && u.bus == t.bus && u.clock == t.clock && u.conns.Keys == t.conns.Keys && At(u, c) && At(u, d)
         && u.conns[c].pc == t.conns[c].pc.(signal := false, event := None)
         && u.conns[d].pc == t.conns[d].pc.(signal := false, event := None)
  {
    var t1 := Step(cfg, t, Signal(d));
    var t2 := Step(cfg, t1, Broadcast(d));
    var t3 := Step(cfg, t2, Signal(c));
    Prepend(cfg, t3, Broadcast(c), []);
    Prepend(cfg, t2, Signal(c), [Broadcast(c)] + []);
    Prepend(cfg, t1, Broadcast(d), [Signal(c)] + ([Broadcast(c)] + []));
    Prepend(cfg, t, Signal(d), [Broadcast(d)] + ([Signal(c)] + ([Broadcast(c)] + [])));
  }

  /** Why overlap must be excluded: broadcasts follow the unlock, so the loser's `claim.acquire`
      can land last, and every observer then names the session that was evicted. */
  lemma {:induction false} OverlapMisleads(cfg: Config, s: Daemon, c: nat, d: nat, path: string)
    requires Racing(s, c, d, path)
    ensures
      var race := [Commit(c)] + ([Commit(d)] +
                  ([Signal(d)] + ([Broadcast(d)] + ([Signal(c)] + ([Broadcast(c)] + [])))));
      && Legal(cfg, s, race)
      && var t := After(cfg, s, race);
         && path in t.bus.claims && t.bus.claims[path].sessionId == SessionOf(s.conns[d])
         && t.bus.claims[path].ttl == s.conns[d].pc.m.ttl && t.clock == s.clock && t.conns.Keys == s.conns.Keys
         && path in Seen(Joining(s), t) && Seen(Joining(s), t)[path].holder == SessionOf(s.conns[c])
         && !Owes(t, c, path) && !Owes(t, d, path)
  {
    var t := RaceCommits(cfg, s, c, d, path);
    LoserBroadcastsLast(cfg, t, c, d);
    var tail := [Signal(d)] + ([Broadcast(d)] + ([Signal(c)] + ([Broadcast(c)] + [])));
    Prepend(cfg, CommitStep(cfg, s, c), Commit(d), tail);
    Prepend(cfg, s, Commit(c), [Commit(d)] + tail);
    var u := After(cfg, t, tail);
    var last := t.conns[c].pc.event.value;
    var before := t.log + [t.conns[d].pc.event.value];
    assert u.log[|s.log|..] == before[|s.log|..] + [last];
  }
}
