/** The shared state behind the daemon's mutex (src/daemon.rs, `BusState`) and what each
    handler does to it while it holds the lock. */
module BusModel {
  import opened Protocol

  datatype Bus = Bus(
    peers: map<string, PeerRecord>,
    owners: map<string, nat>,
    claims: map<string, ClaimRecord>,
    intents: map<string, StickyIntent>)
  {
    function ToDurable(): DurableState {
      DurableState(claims, intents)
    }
  }

  /** What a handler has decided when it drops the lock. */
  datatype Outcome = Outcome(
    bus: Bus,
    underLock: seq<BroadcastMsg>,      // already broadcast, while the lock was held
    signal: bool,                      // the persist writer must still be signalled
    event: Option<BroadcastMsg>,       // must still be broadcast
    reply: Reply)                      // must still be written

  function Live(claims: map<string, ClaimRecord>, now: nat): map<string, ClaimRecord> {
    map p | p in claims && claims[p].ttl > now :: claims[p]
  }

  function FromDurable(d: DurableState, now: nat): Bus {
    Bus(map[], map[], Live(d.claims, now), d.intents)
  }

  function ReleaseEvent(path: string, holder: string, from: string): BroadcastMsg {
    BroadcastMsg(CLAIM_RELEASE_TOPIC, ClaimReleased(path, holder), from, false)
  }

  function AcquireEvent(path: string, sid: string, ttl: nat, reason: string): BroadcastMsg {
    BroadcastMsg(CLAIM_ACQUIRE_TOPIC, ClaimAcquired(path, sid, ttl, reason), sid, false)
  }

  function Touched(bus: Bus, sid: string, now: nat): Bus {
    if sid in bus.peers
    then bus.(peers := bus.peers[sid := bus.peers[sid].(lastHeartbeat := now)])
    else bus
  }

  function FreshRecord(m: ClientMessage, now: nat): PeerRecord
    requires m.Announce?
  {
    PeerRecord(m.sessionId, m.pid, m.cwd, m.intent, "", "", "", [], now, m.node)
  }

  function AnnounceOp(bus: Bus, conn: nat, m: ClientMessage, now: nat): Bus
    requires m.Announce?
  {
    if m.sessionId in bus.owners then bus
    else bus.(peers := bus.peers[m.sessionId := FreshRecord(m, now)],
              owners := bus.owners[m.sessionId := conn])
  }

  function UpdateOp(bus: Bus, sid: string, m: ClientMessage, now: nat): Bus
    requires m.Update?
  {
    if sid !in bus.peers then bus else
    var rec := bus.peers[sid];
    var rec := if m.newCwd.Some? then rec.(cwd := m.newCwd.value) else rec;
    var rec := if m.newIntent.Some? then rec.(intent := m.newIntent.value) else rec;
    bus.(peers := bus.peers[sid := rec.(lastHeartbeat := now)])
  }

  function Supplied<T>(field: Option<T>, prior: T): T {
    if field.Some? then field.value else prior
  }

  /** The record after a heartbeat: a field that is absent keeps its prior value. */
  function Beaten(rec: PeerRecord, m: ClientMessage, now: nat): PeerRecord
    requires m.Heartbeat?
  {
    rec.(lastHeartbeat := now,
         lastTool := if m.tool != "" then m.tool else rec.lastTool,
         skill := Supplied(m.skill, rec.skill),
         prdSlug := Supplied(m.prdSlug, rec.prdSlug),
         workingPaths := Supplied(m.workingPaths, rec.workingPaths))
  }

  function IntentOf(rec: PeerRecord): StickyIntent {
    StickyIntent(rec.skill, rec.prdSlug, rec.workingPaths)
  }

  predicate ChangesIntent(bus: Bus, sid: string, m: ClientMessage)
    requires m.Heartbeat?
  {
    sid in bus.peers && IntentOf(Beaten(bus.peers[sid], m, 0)) != IntentOf(bus.peers[sid])
  }

  function Mirrored(intents: map<string, StickyIntent>, sid: string, intent: StickyIntent): map<string, StickyIntent> {
    if intent.IsEmpty() then intents - {sid} else intents[sid := intent]
  }

  function HeartbeatOp(bus: Bus, sid: string, m: ClientMessage, now: nat): Bus
    requires m.Heartbeat?
  {
    if sid !in bus.peers then bus else
    var rec := Beaten(bus.peers[sid], m, now);
    bus.(peers := bus.peers[sid := rec],
         intents := if ChangesIntent(bus, sid, m) then Mirrored(bus.intents, sid, IntentOf(rec)) else bus.intents)
  }

  function Idle(rec: PeerRecord, now: nat): nat {
    if now >= rec.lastHeartbeat then now - rec.lastHeartbeat else 0
  }

  function PeersOp(bus: Bus, now: nat, timeout: nat): Bus {
    bus.(peers := map s | s in bus.peers && Idle(bus.peers[s], now) <= timeout :: bus.peers[s])
  }

  predicate Conflicts(claims: map<string, ClaimRecord>, sid: string, path: string, force: bool, now: nat) {
    path in claims && claims[path].ttl > now && claims[path].sessionId != sid && !force
  }

  function AcquireOp(bus: Bus, sid: string, m: ClientMessage, now: nat): Outcome
    requires m.ClaimAcquire?
  {
    var pruned := bus.(claims := Live(bus.claims, now));
    if Conflicts(bus.claims, sid, m.path, m.force, now) then
      var c := bus.claims[m.path];
      Outcome(pruned, [], false, None, Conflict(c.sessionId, c.ttl, c.reason))
    else
      var evicted := if m.path in pruned.claims && pruned.claims[m.path].sessionId != sid
        then [ReleaseEvent(pruned.claims[m.path].path, pruned.claims[m.path].sessionId, sid)] else [];
      var rec := ClaimRecord(m.path, sid, m.ttl, now, m.reason);
      Outcome(Touched(pruned.(claims := pruned.claims[m.path := rec]), sid, now), evicted, true,
              Some(AcquireEvent(m.path, sid, m.ttl, m.reason)), Granted(m.path, m.ttl))
  }

  predicate Holds(claims: map<string, ClaimRecord>, sid: string, path: string, now: nat) {
    path in claims && claims[path].ttl > now && claims[path].sessionId == sid
  }

  function ReleaseOp(bus: Bus, sid: string, path: string, now: nat): Outcome {
    var pruned := bus.(claims := Live(bus.claims, now));
    if Holds(bus.claims, sid, path, now) then
      Outcome(Touched(pruned.(claims := pruned.claims - {path}), sid, now), [], true,
              Some(ReleaseEvent(path, sid, sid)), Released(true))
    else
      Outcome(Touched(pruned, sid, now), [], false, None, Released(false))
  }

  function ListOp(bus: Bus, now: nat): Bus {
    bus.(claims := Live(bus.claims, now))
  }

  function LeaveOp(bus: Bus, sid: string, conn: nat): Bus {
    if sid in bus.owners && bus.owners[sid] == conn
    then bus.(peers := bus.peers - {sid}, owners := bus.owners - {sid})
    else bus
  }

  /** The messages whose handler takes the lock. */
  predicate Locks(m: ClientMessage) {
    !m.Subscribe? && !m.UplinkStatus?
  }

  /** Peers and the claim handlers read the clock before they take the lock. */
  predicate SamplesEarly(m: ClientMessage) {
    m.Peers? || m.ClaimAcquire? || m.ClaimRelease? || m.ClaimList?
  }

  /** One whole critical section: `now` is the sample the handler works with. */
  function Critical(bus: Bus, sid: string, conn: nat, m: ClientMessage, now: nat, timeout: nat): Outcome
    requires Locks(m)
  {
    match m
    case Announce(_, _, _, _, _) => Outcome(AnnounceOp(bus, conn, m, now), [], false, None, Ok)
    case Update(_, _) => Outcome(UpdateOp(bus, sid, m, now), [], false, None, Ok)
    case Heartbeat(_, _, _, _) => Outcome(HeartbeatOp(bus, sid, m, now), [], ChangesIntent(bus, sid, m), None, Ok)
    case Publish(_, _) => Outcome(Touched(bus, sid, now), [], false, None, Ok)
    case Peers =>
      var pruned := PeersOp(bus, now, timeout);
      Outcome(pruned, [], false, None, PeerList(pruned.peers.Values))
    case ClaimAcquire(_, _, _, _) => AcquireOp(bus, sid, m, now)
    case ClaimRelease(path) => ReleaseOp(bus, sid, path, now)
    case ClaimList =>
      var pruned := ListOp(bus, now);
      Outcome(pruned, [], false, None, ClaimsListed(pruned.claims.Values))
  }
}
