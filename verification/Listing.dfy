/** What the records in a peers reply say (src/daemon.rs, peers handler). */
module Listing {
  import opened Protocol
  import opened DaemonMachine
  import Shape
  import Presence
  import Intents
  import Records

  /** A peers reply is the table as the query leaves it, record for record. */
  lemma {:induction false} ReplyIsTheTable(cfg: Config, ss: seq<Daemon>, acts: seq<Action>, n: nat)
    requires Run(cfg, ss, acts) && n < |acts| && Presence.Queries(ss[n], acts[n])
    ensures CriticalOf(cfg, ss[n], acts[n].c).reply.PeerList?
    ensures forall rec {:trigger rec in CriticalOf(cfg, ss[n], acts[n].c).reply.peers} ::
              rec in CriticalOf(cfg, ss[n], acts[n].c).reply.peers <==>
              exists sid {:trigger sid in ss[n + 1].bus.peers} ::
                sid in ss[n + 1].bus.peers && ss[n + 1].bus.peers[sid] == rec
    ensures forall sid :: sid in ss[n + 1].bus.peers ==>
        sid in ss[n].bus.peers && ss[n + 1].bus.peers[sid] == ss[n].bus.peers[sid]
  {
    assert Stepped(cfg, ss, acts, n);
  }

  lemma {:induction false} ListedIsStored(cfg: Config, ss: seq<Daemon>, acts: seq<Action>, n: nat, rec: PeerRecord)
    requires Run(cfg, ss, acts) && n < |acts| && Presence.Queries(ss[n], acts[n])
    requires rec in Presence.PeersIn(CriticalOf(cfg, ss[n], acts[n].c).reply)
    ensures rec.sessionId in ss[n].bus.peers && ss[n].bus.peers[rec.sessionId] == rec
  {
    ReplyIsTheTable(cfg, ss, acts, n);
    Shape.Always(cfg, ss, acts, n);
    var sid :| sid in ss[n + 1].bus.peers && ss[n + 1].bus.peers[sid] == rec;
  }

  /** Who is listed is listed as it is: with the identity its epoch began with, and its last touch. */
  lemma {:induction false} ListedAsTouched(cfg: Config, ss: seq<Daemon>, acts: seq<Action>, k: nat, n: nat,
                                           rec: PeerRecord)
    requires Run(cfg, ss, acts) && k <= n < |acts| && Presence.Queries(ss[n], acts[n])
    requires rec in Presence.PeersIn(CriticalOf(cfg, ss[n], acts[n].c).reply)
    requires Intents.Present(cfg, ss, acts, k, n, rec.sessionId)
    ensures Presence.LastTouch(cfg, ss, acts, n, rec.sessionId) == Some(rec.lastHeartbeat)
    ensures rec.pid == ss[k].bus.peers[rec.sessionId].pid && rec.node == ss[k].bus.peers[rec.sessionId].node
  {
    ListedIsStored(cfg, ss, acts, n, rec);
    Presence.TimestampIsLastTouch(cfg, ss, acts, n, rec.sessionId);
    Records.IdentityIsFixed(cfg, ss, acts, k, n, rec.sessionId);
  }

  /** And with what was last supplied: directory and intent by an update ... */
  lemma {:induction false} ListedAsUpdated(cfg: Config, ss: seq<Daemon>, acts: seq<Action>, k: nat, n: nat,
                                           rec: PeerRecord)
    requires Run(cfg, ss, acts) && k < n < |acts| && Presence.Queries(ss[n], acts[n])
    requires rec in Presence.PeersIn(CriticalOf(cfg, ss[n], acts[n].c).reply)
    requires Intents.Present(cfg, ss, acts, k, n, rec.sessionId) && Records.Updates(ss[k], acts[k], rec.sessionId)
    ensures
      var m := ss[k].conns[acts[k].c].pc.m;
      && (m.newCwd.Some? && Records.CwdUnsupplied(ss, acts, k + 1, n, rec.sessionId) ==> rec.cwd == m.newCwd.value)
      && (m.newIntent.Some? && Records.IntentUnsupplied(ss, acts, k + 1, n, rec.sessionId) ==>
            rec.intent == m.newIntent.value)
  {
    ListedIsStored(cfg, ss, acts, n, rec);
    Records.LastUpdateWins(cfg, ss, acts, k, n, rec.sessionId);
  }

  /** ... and skill, slug, paths and tool by a heartbeat. */
  lemma {:induction false} ListedAsBeaten(cfg: Config, ss: seq<Daemon>, acts: seq<Action>, k: nat, n: nat,
                                          rec: PeerRecord)
    requires Run(cfg, ss, acts) && k < n < |acts| && Presence.Queries(ss[n], acts[n])
    requires rec in Presence.PeersIn(CriticalOf(cfg, ss[n], acts[n].c).reply)
    requires Intents.Present(cfg, ss, acts, k, n, rec.sessionId) && Intents.Beats(ss[k], acts[k], rec.sessionId)
    ensures
      var m, sid := ss[k].conns[acts[k].c].pc.m, rec.sessionId;
      && (m.skill.Some? && Intents.SkillUnsupplied(ss, acts, k + 1, n, sid) ==> rec.skill == m.skill.value)
      && (m.prdSlug.Some? && Intents.SlugUnsupplied(ss, acts, k + 1, n, sid) ==> rec.prdSlug == m.prdSlug.value)
      && (m.workingPaths.Some? && Intents.PathsUnsupplied(ss, acts, k + 1, n, sid) ==>
            rec.workingPaths == m.workingPaths.value)
      && (m.tool != "" && Records.ToolUnsupplied(ss, acts, k + 1, n, sid) ==> rec.lastTool == m.tool)
  {
    ListedIsStored(cfg, ss, acts, n, rec);
    Intents.LastSuppliedWins(cfg, ss, acts, k, n, rec.sessionId);
    Records.LastUpdateWins(cfg, ss, acts, k, n, rec.sessionId);
  }
}
