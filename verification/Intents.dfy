/** Sticky intent within one ownership epoch (src/daemon.rs, heartbeat handler). */
module Intents {
  import opened Protocol
  import opened BusModel
  import opened DaemonMachine
  import Ownership
  import Presence

  /** The step commits a heartbeat of session `sid`, from any of its connections. */
  predicate Beats(s: Daemon, a: Action, sid: string) {
    Presence.Committing(s, a) && s.conns[a.c].pc.m.Heartbeat? && SessionOf(s.conns[a.c]) == sid
  }

  function Beat(s: Daemon, a: Action): ClientMessage
    requires a.Commit? && At(s, a.c) && s.conns[a.c].pc.Waiting?
  {
    s.conns[a.c].pc.m
  }

  /** The peer record of `sid` is there from `i` to `j`, in one daemon: one epoch, or part of it. */
  ghost predicate Present(cfg: Config, ss: seq<Daemon>, acts: seq<Action>, i: nat, j: nat, sid: string)
    requires Run(cfg, ss, acts) && i <= j < |ss|
  {
    && (forall k | i <= k <= j :: sid in ss[k].bus.peers)
    && (forall k | i <= k < j :: !acts[k].Restart?)
  }

  ghost predicate SkillUnsupplied(ss: seq<Daemon>, acts: seq<Action>, i: nat, j: nat, sid: string)
    requires i <= j < |ss| && |ss| == |acts| + 1
  {
    forall k | i <= k < j && Beats(ss[k], acts[k], sid) :: Beat(ss[k], acts[k]).skill.None?
  }

  ghost predicate SlugUnsupplied(ss: seq<Daemon>, acts: seq<Action>, i: nat, j: nat, sid: string)
    requires i <= j < |ss| && |ss| == |acts| + 1
  {
    forall k | i <= k < j && Beats(ss[k], acts[k], sid) :: Beat(ss[k], acts[k]).prdSlug.None?
  }

  ghost predicate PathsUnsupplied(ss: seq<Daemon>, acts: seq<Action>, i: nat, j: nat, sid: string)
    requires i <= j < |ss| && |ss| == |acts| + 1
  {
    forall k | i <= k < j && Beats(ss[k], acts[k], sid) :: Beat(ss[k], acts[k]).workingPaths.None?
  }

  lemma {:induction false} CriticalIntent(bus: Bus, from: string, conn: nat, m: ClientMessage, sample: nat,
                                          timeout: nat, sid: string)
    requires Locks(m) && bus.peers.Keys <= bus.owners.Keys && sid in bus.peers
    requires sid in Critical(bus, from, conn, m, sample, timeout).bus.peers
    ensures
      var after := Critical(bus, from, conn, m, sample, timeout).bus;
      if m.Heartbeat? && from == sid then
        && IntentOf(after.peers[sid]) == IntentOf(Beaten(bus.peers[sid], m, 0))
        && after.intents == (if ChangesIntent(bus, sid, m) then Mirrored(bus.intents, sid, IntentOf(after.peers[sid]))
                             else bus.intents)
      else
        && IntentOf(after.peers[sid]) == IntentOf(bus.peers[sid])
        && (sid in after.intents <==> sid in bus.intents)
        && (sid in bus.intents ==> after.intents[sid] == bus.intents[sid])
  {
  }

  /** What a step does to the record of `sid` and to its durable entry. */
  ghost predicate IntentStep(s: Daemon, a: Action, after: Bus, sid: string)
    requires sid in s.bus.peers && sid in after.peers
  {
    if Beats(s, a, sid) then
      && IntentOf(after.peers[sid]) == IntentOf(Beaten(s.bus.peers[sid], Beat(s, a), 0))
      && after.intents == (if ChangesIntent(s.bus, sid, Beat(s, a))
                           then Mirrored(s.bus.intents, sid, IntentOf(after.peers[sid])) else s.bus.intents)
    else
      && IntentOf(after.peers[sid]) == IntentOf(s.bus.peers[sid])
      && (sid in after.intents <==> sid in s.bus.intents)
      && (sid in s.bus.intents ==> after.intents[sid] == s.bus.intents[sid])
  }

  lemma {:induction false} OnlyCommitsTouchIntent(cfg: Config, s: Daemon, a: Action, sid: string)
    requires Enabled(cfg, s, a) && !a.Commit? && !a.Restart?
    ensures Step(cfg, s, a).bus.intents == s.bus.intents
    ensures sid in Step(cfg, s, a).bus.peers ==>
        sid in s.bus.peers && Step(cfg, s, a).bus.peers[sid] == s.bus.peers[sid]
  {
  }

  lemma {:induction false} StepIntent(cfg: Config, s: Daemon, a: Action, sid: string)
    requires Enabled(cfg, s, a) && Ownership.Inv(s) && !a.Restart?
    requires sid in s.bus.peers && sid in Step(cfg, s, a).bus.peers
    ensures IntentStep(s, a, Step(cfg, s, a).bus, sid)
  {
    if a.Commit? {
      var k := s.conns[a.c];
      CriticalIntent(s.bus, SessionOf(k), a.c, k.pc.m, Sample(s, k.pc), cfg.timeout, sid);
    } else {
      OnlyCommitsTouchIntent(cfg, s, a, sid);
    }
  }

  /** A field nobody supplies keeps its value. */
  lemma {:induction false} Unsupplied(cfg: Config, ss: seq<Daemon>, acts: seq<Action>, i: nat, j: nat, sid: string)
    requires Run(cfg, ss, acts) && i <= j < |ss| && Present(cfg, ss, acts, i, j, sid)
    ensures SkillUnsupplied(ss, acts, i, j, sid) ==> ss[j].bus.peers[sid].skill == ss[i].bus.peers[sid].skill
    ensures SlugUnsupplied(ss, acts, i, j, sid) ==> ss[j].bus.peers[sid].prdSlug == ss[i].bus.peers[sid].prdSlug
    ensures PathsUnsupplied(ss, acts, i, j, sid) ==>
        ss[j].bus.peers[sid].workingPaths == ss[i].bus.peers[sid].workingPaths
    decreases j
  {
    if i < j {
      Unsupplied(cfg, ss, acts, i, j - 1, sid);
      FieldsStep(cfg, ss, acts, j - 1, sid);
    }
  }

  /** What becomes of the fields of the record in one step. */
  ghost predicate FieldsMove(s: Daemon, a: Action, before: PeerRecord, after: PeerRecord, sid: string) {
    if Beats(s, a, sid) then
      && after.skill == Supplied(Beat(s, a).skill, before.skill)
      && after.prdSlug == Supplied(Beat(s, a).prdSlug, before.prdSlug)
      && after.workingPaths == Supplied(Beat(s, a).workingPaths, before.workingPaths)
    else IntentOf(after) == IntentOf(before)
  }

  lemma {:induction false} FieldsStep(cfg: Config, ss: seq<Daemon>, acts: seq<Action>, k: nat, sid: string)
    requires Run(cfg, ss, acts) && k < |acts| && !acts[k].Restart?
    requires sid in ss[k].bus.peers && sid in ss[k + 1].bus.peers
    ensures FieldsMove(ss[k], acts[k], ss[k].bus.peers[sid], ss[k + 1].bus.peers[sid], sid)
  {
    RunIntent(cfg, ss, acts, k, sid);
    StepMovesFields(ss[k], acts[k], ss[k + 1].bus, sid);
  }

  lemma {:induction false} StepMovesFields(s: Daemon, a: Action, after: Bus, sid: string)
    requires sid in s.bus.peers && sid in after.peers && IntentStep(s, a, after, sid)
    ensures FieldsMove(s, a, s.bus.peers[sid], after.peers[sid], sid)
  {
  }

  /** Within an epoch each field of the record is the last value explicitly supplied for it by an accepted
      heartbeat, whichever connection of the session sent it. */
  lemma {:induction false} LastSuppliedWins(cfg: Config, ss: seq<Daemon>, acts: seq<Action>, k: nat, j: nat,
                                            sid: string)
    requires Run(cfg, ss, acts) && k < j < |ss| && Present(cfg, ss, acts, k, j, sid)
    requires Beats(ss[k], acts[k], sid)
    ensures var m, rec := Beat(ss[k], acts[k]), ss[j].bus.peers[sid];
            && (m.skill.Some? && SkillUnsupplied(ss, acts, k + 1, j, sid) ==> rec.skill == m.skill.value)
            && (m.prdSlug.Some? && SlugUnsupplied(ss, acts, k + 1, j, sid) ==> rec.prdSlug == m.prdSlug.value)
            && (m.workingPaths.Some? && PathsUnsupplied(ss, acts, k + 1, j, sid) ==>
                  rec.workingPaths == m.workingPaths.value)
  {
    FieldsStep(cfg, ss, acts, k, sid);
    Unsupplied(cfg, ss, acts, k + 1, j, sid);
  }

  /** An epoch begins with nothing set. */
  lemma {:induction false} EpochBeginsBlank(cfg: Config, ss: seq<Daemon>, acts: seq<Action>, i: nat, sid: string)
    requires Run(cfg, ss, acts) && i < |acts|
    requires sid !in ss[i].bus.peers && sid in ss[i + 1].bus.peers
    ensures sid !in ss[i].bus.owners
    ensures var rec := ss[i + 1].bus.peers[sid]; rec.skill == "" && rec.prdSlug == "" && rec.workingPaths == []
  {
    assert Stepped(cfg, ss, acts, i);
    Ownership.OwnersMove(cfg, ss[i], acts[i]);
    var k := ss[i].conns[acts[i].c];
    CriticalAnnounce(ss[i].bus, SessionOf(k), acts[i].c, k.pc.m, Sample(ss[i], k.pc), cfg.timeout, sid);
  }

  lemma {:induction false} CriticalAnnounce(bus: Bus, from: string, conn: nat, m: ClientMessage, sample: nat,
                                            timeout: nat, sid: string)
    requires Locks(m) && sid !in bus.peers && sid in Critical(bus, from, conn, m, sample, timeout).bus.peers
    ensures IntentOf(Critical(bus, from, conn, m, sample, timeout).bus.peers[sid]).IsEmpty()
  {
  }

  /** The durable entry says what the record says, field by field: nothing at all if the record is blank. */
  predicate Mirror(bus: Bus, sid: string) {
    sid in bus.peers &&
    var rec := bus.peers[sid];
    if rec.skill == "" && rec.prdSlug == "" && rec.workingPaths == [] then sid !in bus.intents
    else
      && sid in bus.intents
      && bus.intents[sid].skill == rec.skill && bus.intents[sid].prdSlug == rec.prdSlug
      && bus.intents[sid].workingPaths == rec.workingPaths
  }

  /** The step moves the intent in the record of `sid`: one of its three fields is not what it was. */
  predicate Moves(s: Daemon, t: Daemon, sid: string)
    requires sid in s.bus.peers && sid in t.bus.peers
  {
    var before, after := s.bus.peers[sid], t.bus.peers[sid];
    after.skill != before.skill || after.prdSlug != before.prdSlug || after.workingPaths != before.workingPaths
  }

  /** Only a heartbeat of the session moves its intent, the durable entry mirrors the record right after, and the
      writer is to be signalled. */
  lemma {:induction false} MoveIsMirrored(cfg: Config, ss: seq<Daemon>, acts: seq<Action>, k: nat, sid: string)
    requires Run(cfg, ss, acts) && k < |acts| && Present(cfg, ss, acts, k, k + 1, sid)
    requires Moves(ss[k], ss[k + 1], sid)
    ensures Beats(ss[k], acts[k], sid) && Mirror(ss[k + 1].bus, sid)
    ensures At(ss[k + 1], acts[k].c) && ss[k + 1].conns[acts[k].c].pc.Finishing?
    ensures ss[k + 1].conns[acts[k].c].pc.signal
  {
    RunIntent(cfg, ss, acts, k, sid);
    MoveIsAChange(ss[k], acts[k], ss[k + 1], sid);
    MirrorStep(ss[k], acts[k], ss[k + 1].bus, sid);
    assert Stepped(cfg, ss, acts, k);
    CommitSignals(cfg, ss[k], acts[k].c, sid);
  }

  lemma {:induction false} MoveIsAChange(s: Daemon, a: Action, t: Daemon, sid: string)
    requires sid in s.bus.peers && sid in t.bus.peers && IntentStep(s, a, t.bus, sid) && Moves(s, t, sid)
    ensures Beats(s, a, sid) && ChangesIntent(s.bus, sid, Beat(s, a))
  {
  }

  lemma {:induction false} CommitSignals(cfg: Config, s: Daemon, c: nat, sid: string)
    requires Enabled(cfg, s, Commit(c)) && s.conns[c].pc.m.Heartbeat? && SessionOf(s.conns[c]) == sid
    requires ChangesIntent(s.bus, sid, s.conns[c].pc.m)
    ensures CommitStep(cfg, s, c).conns[c].pc.Finishing? && CommitStep(cfg, s, c).conns[c].pc.signal
  {
  }

  /** From the first step of an epoch that moves the intent, `intents` mirrors the record ... */
  lemma {:induction false} MirrorsFromFirstChange(cfg: Config, ss: seq<Daemon>, acts: seq<Action>, k: nat, j: nat,
                                                  sid: string)
    requires Run(cfg, ss, acts) && k < j < |ss| && Present(cfg, ss, acts, k, j, sid)
    requires Moves(ss[k], ss[k + 1], sid)
    ensures Mirror(ss[j].bus, sid)
    decreases j
  {
    if k < j - 1 {
      MirrorsFromFirstChange(cfg, ss, acts, k, j - 1, sid);
      RunIntent(cfg, ss, acts, j - 1, sid);
      MirrorStep(ss[j - 1], acts[j - 1], ss[j].bus, sid);
    } else {
      MoveIsMirrored(cfg, ss, acts, k, sid);
    }
  }

  /** One step keeps the mirror, and a heartbeat that changes the intent sets it up. */
  lemma {:induction false} MirrorStep(s: Daemon, a: Action, after: Bus, sid: string)
    requires sid in s.bus.peers && sid in after.peers && IntentStep(s, a, after, sid)
    ensures Mirror(s.bus, sid) || (Beats(s, a, sid) && ChangesIntent(s.bus, sid, Beat(s, a))) ==> Mirror(after, sid)
  {
  }

  lemma {:induction false} RunIntent(cfg: Config, ss: seq<Daemon>, acts: seq<Action>, k: nat, sid: string)
    requires Run(cfg, ss, acts) && k < |acts| && !acts[k].Restart?
    requires sid in ss[k].bus.peers && sid in ss[k + 1].bus.peers
    ensures IntentStep(ss[k], acts[k], ss[k + 1].bus, sid)
  {
    Ownership.Always(cfg, ss, acts, k);
    assert Stepped(cfg, ss, acts, k);
    StepIntent(cfg, ss[k], acts[k], sid);
  }

  /** ... and as long as the record's intent does not move it keeps what an earlier epoch, or the journal, left
      there. */
  lemma {:induction false} OlderIntentStaysUntilChange(cfg: Config, ss: seq<Daemon>, acts: seq<Action>, i: nat,
                                                       j: nat, sid: string)
    requires Run(cfg, ss, acts) && i <= j < |ss| && Present(cfg, ss, acts, i, j, sid)
    requires forall k | i <= k < j :: !Moves(ss[k], ss[k + 1], sid)
    ensures sid in ss[j].bus.intents <==> sid in ss[i].bus.intents
    ensures sid in ss[i].bus.intents ==> ss[j].bus.intents[sid] == ss[i].bus.intents[sid]
    decreases j
  {
    if i < j {
      OlderIntentStaysUntilChange(cfg, ss, acts, i, j - 1, sid);
      RunIntent(cfg, ss, acts, j - 1, sid);
      StillIsNoChange(ss[j - 1], acts[j - 1], ss[j], sid);
    }
  }

  lemma {:induction false} StillIsNoChange(s: Daemon, a: Action, t: Daemon, sid: string)
    requires sid in s.bus.peers && sid in t.bus.peers && IntentStep(s, a, t.bus, sid) && !Moves(s, t, sid)
    ensures sid in t.bus.intents <==> sid in s.bus.intents
    ensures sid in s.bus.intents ==> t.bus.intents[sid] == s.bus.intents[sid]
  {
  }
}
