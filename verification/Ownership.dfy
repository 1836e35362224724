/** Who owns a peer record, and until when (src/daemon.rs, announce and connection cleanup). */
module Ownership {
  import opened Protocol
  import opened DaemonMachine
  import Durability
  import Shape

  predicate Owns(s: Daemon, sid: string, c: nat) {
    sid in s.bus.owners && s.bus.owners[sid] == c
  }

  ghost predicate Inv(s: Daemon) {
    && s.bus.peers.Keys <= s.bus.owners.Keys
    && (forall sid :: sid in s.bus.owners ==> HoldsSession(s, s.bus.owners[sid], sid))
  }

  /** A connection that carries the session and has not been through its cleanup. */
  predicate HoldsSession(s: Daemon, c: nat, sid: string) {
    c in s.conns && s.conns[c].session == Some(sid) && s.conns[c].pc != Gone(Broke)
  }

  /** A session, once set, is never changed; a task that has ended stays ended as it ended. */
  lemma {:induction false} SessionIsForGood(cfg: Config, s: Daemon, a: Action, c: nat)
    requires Enabled(cfg, s, a) && Durability.Inv(s) && Shape.Inv(s) && !a.Restart? && c in s.conns
    ensures c in Step(cfg, s, a).conns
    ensures s.conns[c].session.Some? ==> Step(cfg, s, a).conns[c].session == s.conns[c].session
    ensures s.conns[c].pc.Gone? ==> Step(cfg, s, a).conns[c] == s.conns[c]
    ensures Step(cfg, s, a).conns[c].pc == Gone(Broke) ==> s.conns[c].pc == Gone(Broke) || a == Cleanup(c)
  {
    if !ActsAs(a, c) {
      OthersStandStill(cfg, s, a, c);
    } else if a.Read? {
    } else {
      assert Shape.Vetted(s.conns[c]);
    }
  }

  /** Ownership moves only when a free session is announced, or when its owner cleans up after its own loop. */
  lemma {:induction false} OwnersMove(cfg: Config, s: Daemon, a: Action)
    requires Enabled(cfg, s, a) && !a.Restart?
    ensures
      var t := Step(cfg, s, a);
      || (t.bus.owners == s.bus.owners && t.bus.peers.Keys <= s.bus.peers.Keys)
      || (a.Commit? && s.conns[a.c].pc.m.Announce? &&
          var sid := s.conns[a.c].pc.m.sessionId;
          && sid !in s.bus.owners && t.bus.owners == s.bus.owners[sid := a.c]
          && t.bus.peers.Keys == s.bus.peers.Keys + {sid})
      || (a.Cleanup? && s.conns[a.c].session.Some? &&
          var sid := s.conns[a.c].session.value;
          Owns(s, sid, a.c) && t.bus.owners == s.bus.owners - {sid} && t.bus.peers == s.bus.peers - {sid})
  {
    if a.Commit? {
      CommitMoves(cfg, s, a.c);
    }
  }

  lemma {:induction false} CommitMoves(cfg: Config, s: Daemon, c: nat)
    requires Enabled(cfg, s, Commit(c))
    ensures
      var t, m := CommitStep(cfg, s, c), s.conns[c].pc.m;
      if m.Announce? && m.sessionId !in s.bus.owners
      then t.bus.owners == s.bus.owners[m.sessionId := c] && t.bus.peers.Keys == s.bus.peers.Keys + {m.sessionId}
      else t.bus.owners == s.bus.owners && t.bus.peers.Keys <= s.bus.peers.Keys
  {
  }

  lemma {:induction false} StepKeeps(cfg: Config, s: Daemon, a: Action)
    requires Enabled(cfg, s, a) && Inv(s) && Durability.Inv(s) && Shape.Inv(s)
    ensures Inv(Step(cfg, s, a))
  {
    var t := Step(cfg, s, a);
    if !a.Restart? {
      OwnersMove(cfg, s, a);
      forall sid | sid in t.bus.owners
        ensures HoldsSession(t, t.bus.owners[sid], sid)
      {
        if sid in s.bus.owners {
          SessionIsForGood(cfg, s, a, s.bus.owners[sid]);
        }
      }
    }
  }

  /** In every reachable state each peer record has an owner, the owner carries that very session
      (so no connection owns two), and has not cleaned up. */
  lemma {:induction false} Always(cfg: Config, ss: seq<Daemon>, acts: seq<Action>, i: nat)
    requires Run(cfg, ss, acts) && i < |ss|
    ensures Inv(ss[i]) && Durability.Inv(ss[i]) && Shape.Inv(ss[i])
    ensures forall a, b :: a in ss[i].bus.owners && b in ss[i].bus.owners && a != b ==>
        ss[i].bus.owners[a] != ss[i].bus.owners[b]
    ensures forall sid :: sid in ss[i].bus.peers ==> sid in ss[i].bus.owners && ss[i].bus.peers[sid].sessionId == sid
  {
    Durability.Always(cfg, ss, acts, i);
    Shape.Always(cfg, ss, acts, i);
    if i == 0 {
    } else {
      Always(cfg, ss, acts, i - 1);
      assert Stepped(cfg, ss, acts, i - 1);
      StepKeeps(cfg, ss[i - 1], acts[i - 1]);
    }
  }

  ghost predicate NoRestart(acts: seq<Action>, i: nat, j: nat) {
    forall k | i <= k < j && k < |acts| :: !acts[k].Restart?
  }

  /** An owner keeps its session until its own cleanup: at any later point of the same daemon it still
      owns it, or it has been through that cleanup. */
  lemma {:induction false} OwnedUntilCleanup(cfg: Config, ss: seq<Daemon>, acts: seq<Action>, i: nat, j: nat,
                                             sid: string, c: nat)
    requires Run(cfg, ss, acts) && i <= j < |ss| && NoRestart(acts, i, j)
    requires Owns(ss[i], sid, c)
    ensures c in ss[j].conns && (Owns(ss[j], sid, c) || ss[j].conns[c].pc == Gone(Broke))
    decreases j
  {
    Always(cfg, ss, acts, i);
    assert HoldsSession(ss[i], c, sid);
    if i < j {
      OwnedUntilCleanup(cfg, ss, acts, i, j - 1, sid, c);
      Always(cfg, ss, acts, j - 1);
      assert Stepped(cfg, ss, acts, j - 1) && !acts[j - 1].Restart?;
      SessionIsForGood(cfg, ss[j - 1], acts[j - 1], c);
      OwnersMove(cfg, ss[j - 1], acts[j - 1]);
    }
  }

  /** Once an owner's task has ended, its session is free again exactly if the task broke out of its loop:
      one that left through a failed write or an error reply, or was aborted, keeps the session for good. */
  lemma {:induction false} FreedIffBroke(cfg: Config, ss: seq<Daemon>, acts: seq<Action>, i: nat, j: nat, sid: string,
                                         c: nat)
    requires Run(cfg, ss, acts) && i <= j < |ss| && NoRestart(acts, i, j)
    requires Owns(ss[i], sid, c)
    requires c in ss[j].conns && ss[j].conns[c].pc.Gone?
    ensures !Owns(ss[j], sid, c) <==> ss[j].conns[c].pc.exit.Broke?
  {
    OwnedUntilCleanup(cfg, ss, acts, i, j, sid, c);
    Always(cfg, ss, acts, j);
    assert Owns(ss[j], sid, c) ==> HoldsSession(ss[j], c, sid);
  }

  /** A peer pruned as stale does not come back, whatever it sends, until its owner has cleaned up. */
  lemma {:induction false} PrunedStaysPruned(cfg: Config, ss: seq<Daemon>, acts: seq<Action>, i: nat, j: nat,
                                             sid: string, c: nat)
    requires Run(cfg, ss, acts) && i <= j < |ss| && NoRestart(acts, i, j)
    requires Owns(ss[i], sid, c) && sid !in ss[i].bus.peers
    requires c in ss[j].conns && ss[j].conns[c].pc != Gone(Broke)
    ensures sid !in ss[j].bus.peers && Owns(ss[j], sid, c)
    decreases j
  {
    if i < j {
      OwnedUntilCleanup(cfg, ss, acts, i, j - 1, sid, c);
      Always(cfg, ss, acts, j - 1);
      assert Stepped(cfg, ss, acts, j - 1) && !acts[j - 1].Restart?;
      SessionIsForGood(cfg, ss[j - 1], acts[j - 1], c);
      PrunedStaysPruned(cfg, ss, acts, i, j - 1, sid, c);
      OwnersMove(cfg, ss[j - 1], acts[j - 1]);
    }
  }

  /** A guest announces a session that is owned already, or a connection that owns nothing goes away. */
  predicate GuestStep(s: Daemon, a: Action) {
    || (a.Commit? && At(s, a.c) && s.conns[a.c].pc.Waiting? && s.conns[a.c].pc.m.Announce? &&
          s.conns[a.c].pc.m.sessionId in s.bus.owners)
    || (a.Cleanup? && At(s, a.c) && (s.conns[a.c].session.Some? ==> !Owns(s, s.conns[a.c].session.value, a.c)))
  }

  /** Any number of guests may come and go, in between anything that leaves the bus alone: the bus does not notice. */
  lemma {:induction false} GuestsLeaveNoTrace(cfg: Config, ss: seq<Daemon>, acts: seq<Action>, i: nat, j: nat)
    requires Run(cfg, ss, acts) && i <= j < |ss| && NoRestart(acts, i, j)
    requires forall k | i <= k < j :: acts[k].Commit? || acts[k].Cleanup? ==> GuestStep(ss[k], acts[k])
    ensures ss[j].bus == ss[i].bus
    decreases j
  {
    if i < j {
      GuestsLeaveNoTrace(cfg, ss, acts, i, j - 1);
      assert Stepped(cfg, ss, acts, j - 1) && !acts[j - 1].Restart?;
    }
  }
}
