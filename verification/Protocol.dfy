/** The decoded values that travel over the bus (src/protocol.rs, src/persist.rs).
    JSON text is not modelled: every value here is what the parser would yield. */
module Protocol {

  datatype Option<+T> = None | Some(value: T)

  const MAX_WORKING_PATHS: nat := 8
  const FLEET_PRESENCE_SUBJECT_ANNOUNCE := "wm.fleet.presence.announce"
  const CLAIM_ACQUIRE_TOPIC := "claim.acquire"
  const CLAIM_RELEASE_TOPIC := "claim.release"

  datatype PeerRecord = PeerRecord(
    sessionId: string,
    pid: nat,
    cwd: string,
    intent: string,
    lastTool: string,
    skill: string,
    prdSlug: string,
    workingPaths: seq<string>,
    lastHeartbeat: nat,
    node: Option<string>)

  datatype ClaimRecord = ClaimRecord(
    path: string,
    sessionId: string,
    ttl: nat,        // UNIX seconds at which the claim expires
    acquired: nat,   // UNIX seconds at which it was acquired or last renewed
    reason: string)

  datatype StickyIntent = StickyIntent(skill: string, prdSlug: string, workingPaths: seq<string>) {
    predicate IsEmpty() {
      skill == "" && prdSlug == "" && workingPaths == []
    }
  }

  datatype DurableState = DurableState(claims: map<string, ClaimRecord>, intents: map<string, StickyIntent>)

  /** Payload of a publish. A client may publish any payload, the claim shapes included. */
  datatype Data =
    | Text(text: string)
    | ClaimAcquired(path: string, sessionId: string, ttl: nat, reason: string)
    | ClaimReleased(path: string, sessionId: string)

  datatype ClientMessage =
    | Announce(sessionId: string, pid: nat, cwd: string, intent: string, node: Option<string>)
    | Update(newCwd: Option<string>, newIntent: Option<string>)
    | Heartbeat(tool: string, skill: Option<string>, prdSlug: Option<string>, workingPaths: Option<seq<string>>)
    | Publish(topic: string, data: Data)
    | Subscribe(prefix: string)
    | Peers
    | ClaimAcquire(path: string, ttl: nat, reason: string, force: bool)
    | ClaimRelease(path: string)
    | ClaimList
    | UplinkStatus

  /** One message in the daemon-wide broadcast channel. */
  datatype BroadcastMsg = BroadcastMsg(topic: string, data: Data, from: string, fromUplink: bool)

  datatype ServerEvent = ServerEvent(topic: string, data: Data, from: string)

  /** A reply; lists are sets, because the daemon lists a hash map in no particular order. */
  datatype Reply =
    | Ok
    | Error(tag: string)
    | PeerList(peers: set<PeerRecord>)
    | Conflict(holder: string, expires: nat, reason: string)
    | Granted(path: string, ttl: nat)
    | Released(released: bool)
    | ClaimsListed(claims: set<ClaimRecord>)
    | UplinkReport
}
