/** One line's turn across a run (src/daemon.rs, `handle_line`): the clock it works with, and the reply it gets. */
module Turns {
  import opened Protocol
  import opened BusModel
  import opened DaemonMachine
  import Durability
  import Ownership

  /** From `i` on, before `j`, connection `c` takes no step and the daemon does not restart. */
  ghost predicate Rests(acts: seq<Action>, i: nat, j: nat, c: nat) {
    forall k | i <= k < j && k < |acts| :: !ActsAs(acts[k], c) && !acts[k].Restart?
  }

  /** A handler that gets the lock had its line read before, the last step of its connection, and it works with the
      clock of that moment if it asks for peers or for claims, and with the clock of this one otherwise. */
  lemma {:induction false} SampledWhenRead(cfg: Config, ss: seq<Daemon>, acts: seq<Action>, k: nat,
                                           c: nat) returns (r: nat)
    requires Run(cfg, ss, acts) && k < |acts| && acts[k] == Commit(c)
    ensures At(ss[k], c) && ss[k].conns[c].pc.Waiting?
    ensures r < k && acts[r] == Read(c, Msg(ss[k].conns[c].pc.m)) && Rests(acts, r + 1, k, c)
    ensures var m := ss[k].conns[c].pc.m;
            Sample(ss[k], ss[k].conns[c].pc) ==
            if m.Peers? || m.ClaimAcquire? || m.ClaimRelease? || m.ClaimList? then ss[r].clock else ss[k].clock
  {
    assert Stepped(cfg, ss, acts, k);
    r := ReadBefore(cfg, ss, acts, k, c);
  }

  lemma {:induction false} ReadBefore(cfg: Config, ss: seq<Daemon>, acts: seq<Action>, k: nat, c: nat) returns (r: nat)
    requires Run(cfg, ss, acts) && k < |ss| && At(ss[k], c) && ss[k].conns[c].pc.Waiting?
    ensures r < k && acts[r] == Read(c, Msg(ss[k].conns[c].pc.m)) && Rests(acts, r + 1, k, c)
    ensures ss[k].conns[c].pc.now == ss[r].clock
    decreases k
  {
    if k > 0 {
      assert Stepped(cfg, ss, acts, k - 1);
      if ActsAs(acts[k - 1], c) {
        r := k - 1;
      } else {
        StoodStill(cfg, ss, acts, k - 1, c);
        r := ReadBefore(cfg, ss, acts, k - 1, c);
      }
    }
  }

  lemma {:induction false} StoodStill(cfg: Config, ss: seq<Daemon>, acts: seq<Action>, k: nat, c: nat)
    requires Run(cfg, ss, acts) && k < |acts| && !ActsAs(acts[k], c) && At(ss[k + 1], c)
    requires ss[k + 1].conns[c] != Fresh()
    ensures !acts[k].Restart? && At(ss[k], c) && ss[k].conns[c] == ss[k + 1].conns[c]
  {
    assert Stepped(cfg, ss, acts, k);
    Durability.Always(cfg, ss, acts, k);
    if !acts[k].Restart? && At(ss[k], c) {
      OthersStandStill(cfg, ss[k], acts[k], c);
    }
  }

  /** From `i` on, before `j`, connection `c` writes no reply, and it is not aborted, nor the daemon restarted. */
  ghost predicate Unwritten(acts: seq<Action>, i: nat, j: nat, c: nat) {
    forall k | i <= k < j && k < |acts| ::
      !(acts[k].WriteReply? && acts[k].c == c) && acts[k] != Abort(c) && !acts[k].Restart?
  }

  lemma {:induction false} ReplyIsDue(cfg: Config, ss: seq<Daemon>, acts: seq<Action>, i: nat, j: nat, c: nat)
    requires Run(cfg, ss, acts) && i <= j < |ss| && Unwritten(acts, i, j, c)
    requires At(ss[i], c) && ss[i].conns[c].pc.Finishing?
    ensures At(ss[j], c) && ss[j].conns[c].pc.Finishing? && ss[j].conns[c].pc.reply == ss[i].conns[c].pc.reply
    ensures ss[j].conns[c].out == ss[i].conns[c].out
    decreases j
  {
    if i < j {
      ReplyIsDue(cfg, ss, acts, i, j - 1, c);
      assert Stepped(cfg, ss, acts, j - 1);
      Durability.Always(cfg, ss, acts, j - 1);
      if !ActsAs(acts[j - 1], c) {
        OthersStandStill(cfg, ss[j - 1], acts[j - 1], c);
      }
    }
  }

  /** What a handler decides under the lock is what its connection writes next, and nothing else. */
  lemma {:induction false} DecidedIsWritten(cfg: Config, ss: seq<Daemon>, acts: seq<Action>, k: nat, j: nat, c: nat)
    requires Run(cfg, ss, acts) && k < j < |acts| && acts[k] == Commit(c) && acts[j] == WriteReply(c, true)
    requires Unwritten(acts, k + 1, j, c)
    ensures At(ss[k], c) && ss[k].conns[c].pc.Waiting? && Locks(ss[k].conns[c].pc.m) && At(ss[j + 1], c)
    ensures ss[j + 1].conns[c].out == ss[k].conns[c].out + [ReplyLine(CriticalOf(cfg, ss[k], c).reply)]
  {
    assert Stepped(cfg, ss, acts, k) && Stepped(cfg, ss, acts, j);
    ReplyIsDue(cfg, ss, acts, k + 1, j, c);
  }
}
