/** Guests may be left out of a run (src/daemon.rs, announce and connection cleanup): connections that only announce
    sessions others own, or are refused, change nothing for anybody, whatever else goes on meanwhile. */
module Guests {
  import opened Protocol
  import opened DaemonMachine
  import Durability

  /** A line that makes of the connection neither a publisher nor a subscriber, nor anything but an announcer. */
  predicate GuestLine(k: Conn, line: Line) {
    line.Msg? ==>
      && (k.session.None? || line.m.Announce? || TooManyPaths(line.m) || line.m.UplinkStatus?)
  }

  /** If a connection of `guests` takes the step, it reads such a line, announces a session that is owned already,
      writes a reply, or ends without owning anything. */
  predicate GuestStep(s: Daemon, a: Action, guests: set<nat>) {
    match a
    case Read(c, line) => c in guests && At(s, c) ==> GuestLine(s.conns[c], line)
    case Commit(c) =>
      c in guests && At(s, c) && s.conns[c].pc.Waiting? ==>
          s.conns[c].pc.m.Announce? && s.conns[c].pc.m.sessionId in s.bus.owners
    case Cleanup(c) =>
      c in guests && At(s, c) && s.conns[c].session.Some? ==>
        !(s.conns[c].session.value in s.bus.owners && s.bus.owners[s.conns[c].session.value] == c)
    case _ => true
  }

  /** `k` is a guest, and `idle` a connection that never sent a line and has come as far in leaving. */
  predicate StandsFor(k: Conn, idle: Conn) {
    && k.cursor.None? && idle.cursor.None? && idle.session.None?
    && (k.pc.Finishing? ==> !k.pc.signal && k.pc.event.None?)
    && (k.pc.Waiting? ==> k.pc.m.Announce?)
    && match k.pc
       case Leaving => idle.pc.Leaving?
       case Gone(_) => idle.pc.Gone?
       case _ => idle.pc.Selecting?
  }

  /** `t` is `s` without the guests' lines: the same in all but the guests' own variables. */
  ghost predicate SameBut(s: Daemon, t: Daemon, guests: set<nat>) {
    && t == s.(conns := t.conns) && t.conns.Keys == s.conns.Keys
    && (forall c :: c in s.conns && c in guests ==> StandsFor(s.conns[c], t.conns[c]))
    && (forall c :: c in s.conns && c !in guests ==> t.conns[c] == s.conns[c])
  }

  /** What is left of a step when guests are left out: nothing of what they send and are told, but they still come
      and go. */
  function LeftOf(s: Daemon, a: Action, guests: set<nat>): seq<Action> {
    match a
    case Read(c, _) => if c in guests then [] else [a] + []
    case Commit(c) => if c in guests then [] else [a] + []
    case WriteReply(c, ok) =>
      if c !in guests then [a] + []
      else if At(s, c) && s.conns[c].pc.Finishing? && ok && !s.conns[c].pc.bail then []
      else [HangUp(c)] + ([Cleanup(c)] + [])
    case _ => [a] + []
  }

  /** Nobody in `guests` sends a line. */
  predicate Silent(acts: seq<Action>, guests: set<nat>) {
    forall i :: 0 <= i < |acts| ==>
      match acts[i]
      case Read(c, _) => c !in guests
      case Commit(c) => c !in guests
      case WriteReply(c, _) => c !in guests
      case _ => true
  }

  lemma {:induction false} HeardAsGuest(s: Daemon, t: Daemon, c: nat, line: Line, guests: set<nat>)
    requires SameBut(s, t, guests) && c in guests && At(s, c) && s.conns[c].pc.Selecting? && GuestLine(s.conns[c], line)
    ensures SameBut(ReadStep(s, c, line), t, guests)
  {
    if !line.Blank? {
      assert StandsFor(Heard(s.conns[c], line, s.clock, |s.log|), t.conns[c]);
      assert ReadStep(s, c, line).log == s.log;
    }
  }

  lemma {:induction false} CommittedAsGuest(cfg: Config, s: Daemon, t: Daemon, c: nat, guests: set<nat>)
    requires SameBut(s, t, guests) && c in guests && Enabled(cfg, s, Commit(c)) && GuestStep(s, Commit(c), guests)
    ensures SameBut(CommitStep(cfg, s, c), t, guests)
  {
    var u := CommitStep(cfg, s, c);
    assert u.bus == s.bus && u.log == s.log + [] == s.log;
    assert StandsFor(u.conns[c], t.conns[c]);
  }

  lemma {:induction false} RepliedAsGuest(cfg: Config, s: Daemon, t: Daemon, c: nat, ok: bool, guests: set<nat>)
    requires SameBut(s, t, guests) && c in guests && Enabled(cfg, s, WriteReply(c, ok))
    ensures Legal(cfg, t, LeftOf(s, WriteReply(c, ok), guests))
    ensures SameBut(WriteReplyStep(s, c, ok), After(cfg, t, LeftOf(s, WriteReply(c, ok), guests)), guests)
  {
    var u := WriteReplyStep(s, c, ok);
    assert u == Put(s, c, u.conns[c]) && StandsFor(s.conns[c], t.conns[c]);
    if !(ok && !s.conns[c].pc.bail) {
      IdleLeaves(cfg, t, c);
    }
  }

  lemma {:induction false} IdleLeaves(cfg: Config, t: Daemon, c: nat)
    requires At(t, c) && t.conns[c].pc.Selecting? && t.conns[c].session.None?
    ensures
      var left := [HangUp(c)] + ([Cleanup(c)] + []);
      Legal(cfg, t, left) && After(cfg, t, left) == Put(t, c, t.conns[c].(pc := Gone(Broke)))
  {
    var v := Step(cfg, t, HangUp(c));
    One(cfg, v, Cleanup(c));
    Prepend(cfg, t, HangUp(c), [Cleanup(c)] + []);
    assert t.conns[c := v.conns[c]][c := t.conns[c].(pc := Gone(Broke))] ==
        t.conns[c := t.conns[c].(pc := Gone(Broke))];
  }

  /** A guest that comes to its end does so in both runs. */
  lemma {:induction false} EndedAsGuest(cfg: Config, s: Daemon, t: Daemon, a: Action, c: nat, guests: set<nat>)
    requires SameBut(s, t, guests) && c in guests && ActsAs(a, c)
    requires (a.HangUp? || a.NoticeDrain? || a.Cleanup? || a.Abort?)
    requires Enabled(cfg, s, a) && GuestStep(s, a, guests)
    ensures Enabled(cfg, t, a) && SameBut(Step(cfg, s, a), Step(cfg, t, a), guests)
  {
    assert StandsFor(s.conns[c], t.conns[c]);
    assert StandsFor(Step(cfg, s, a).conns[c], Step(cfg, t, a).conns[c]);
  }

  /** The two go on as one when the same connection, no guest, takes the same new state in both. */
  lemma {:induction false} MovedTheSame(s: Daemon, t: Daemon, u: Daemon, v: Daemon, c: nat, guests: set<nat>)
    requires SameBut(s, t, guests) && c !in guests && At(s, c) && At(u, c)
    requires u.conns == s.conns[c := u.conns[c]] && v == u.(conns := t.conns[c := u.conns[c]])
    ensures SameBut(u, v, guests)
  {
  }

  lemma {:induction false} ReadTheSame(s: Daemon, t: Daemon, c: nat, line: Line, guests: set<nat>)
    requires SameBut(s, t, guests) && c !in guests && At(s, c) && s.conns[c].pc.Selecting?
    ensures SameBut(ReadStep(s, c, line), ReadStep(t, c, line), guests)
  {
    if !line.Blank? {
      MovedTheSame(s, t, ReadStep(s, c, line), ReadStep(t, c, line), c, guests);
    }
  }

  /** What another connection does, it does in both runs. */
  lemma {:induction false} OthersTheSame(cfg: Config, s: Daemon, t: Daemon, a: Action, c: nat, guests: set<nat>)
    requires SameBut(s, t, guests) && c !in guests && ActsAs(a, c) && Enabled(cfg, s, a)
    ensures Enabled(cfg, t, a) && SameBut(Step(cfg, s, a), Step(cfg, t, a), guests)
  {
    if a.Read? {
      ReadTheSame(s, t, c, a.line, guests);
    } else if a.Commit? {
    } else {
      MovedTheSame(s, t, Step(cfg, s, a), Step(cfg, t, a), c, guests);
    }
  }

  /** The connection that takes the step, if one does. */
  function ActorOf(a: Action): (c: Option<nat>)
    ensures c.Some? ==> ActsAs(a, c.value)
  {
    match a
    case Read(c, _) => Some(c)
    case Commit(c) => Some(c)
    case Signal(c) => Some(c)
    case Broadcast(c) => Some(c)
    case WriteReply(c, _) => Some(c)
    case Receive(c, _) => Some(c)
    case HangUp(c) => Some(c)
    case NoticeDrain(c, _) => Some(c)
    case Cleanup(c) => Some(c)
    case Abort(c) => Some(c)
    case _ => None
  }

  lemma {:induction false} CentreTheSame(cfg: Config, s: Daemon, t: Daemon, a: Action, guests: set<nat>)
    requires SameBut(s, t, guests) && Durability.Inv(s) && Enabled(cfg, s, a) && ActorOf(a).None?
    ensures Enabled(cfg, t, a) && SameBut(Step(cfg, s, a), Step(cfg, t, a), guests)
  {
    if a.Accept? {
      assert StandsFor(Fresh(), Fresh());
    } else if a.JoinAll? {
      assert AllGone(t);
    } else if !a.Restart? {
      ConnsUntouched(cfg, s, t, a);
    }
  }

  lemma {:induction false} ConnsUntouched(cfg: Config, s: Daemon, t: Daemon, a: Action)
    requires t == s.(conns := t.conns) && Enabled(cfg, s, a)
    requires ActorOf(a).None? && !a.Accept? && !a.JoinAll? && !a.Restart?
    ensures Enabled(cfg, t, a) && Step(cfg, s, a).conns == s.conns
    ensures Step(cfg, t, a) == Step(cfg, s, a).(conns := t.conns)
  {
  }

  lemma {:induction false} StepTheSame(cfg: Config, s: Daemon, t: Daemon, a: Action, guests: set<nat>)
    requires SameBut(s, t, guests) && Durability.Inv(s) && Enabled(cfg, s, a) && GuestStep(s, a, guests)
    ensures Legal(cfg, t, LeftOf(s, a, guests)) && Silent(LeftOf(s, a, guests), guests)
    ensures SameBut(Step(cfg, s, a), After(cfg, t, LeftOf(s, a, guests)), guests)
  {
    if ActorOf(a).Some? {
      var c := ActorOf(a).value;
      if c !in guests {
        OthersTheSame(cfg, s, t, a, c, guests);
        One(cfg, t, a);
      } else if a.Read? {
        HeardAsGuest(s, t, c, a.line, guests);
      } else if a.Commit? {
        CommittedAsGuest(cfg, s, t, c, guests);
      } else if a.WriteReply? {
        RepliedAsGuest(cfg, s, t, c, a.ok, guests);
      } else {
        assert StandsFor(s.conns[c], t.conns[c]);
        EndedAsGuest(cfg, s, t, a, c, guests);
        One(cfg, t, a);
      }
    } else {
      CentreTheSame(cfg, s, t, a, guests);
      One(cfg, t, a);
    }
  }

  /** A run from the same start in which nobody of `guests` sends a line: between one state of `ts` and the next it
      takes the steps that are left of the step of `ss`. */
  ghost predicate Shadows(cfg: Config, ss: seq<Daemon>, acts: seq<Action>, ts: seq<Daemon>, guests: set<nat>, n: nat) {
    && |ss| == |acts| + 1 && n < |ss| && |ts| == n + 1 && ts[0] == ss[0]
    && (forall i :: 0 <= i <= n ==> SameBut(ss[i], ts[i], guests))
    && (forall i :: 0 <= i < n ==> ShadowsStep(cfg, ss, acts, ts, guests, i))
  }

  ghost predicate ShadowsStep(cfg: Config, ss: seq<Daemon>, acts: seq<Action>, ts: seq<Daemon>, guests: set<nat>,
                              i: nat)
    requires i < |acts| && i < |ss| && i + 1 < |ts|
  {
    var left := LeftOf(ss[i], acts[i], guests);
    Silent(left, guests) && Legal(cfg, ts[i], left) && After(cfg, ts[i], left) == ts[i + 1]
  }

  /** Any run, with any number of guests among others at work, and the same run in which the guests come and go
      without a word: at every point all of the state but the guests' own variables is the same, and so are peers and
      owners. */
  lemma {:induction false} GuestsCanBeLeftOut(cfg: Config, ss: seq<Daemon>, acts: seq<Action>, guests: set<nat>,
                                              n: nat) returns (ts: seq<Daemon>)
    requires Run(cfg, ss, acts) && n < |ss|
    requires forall k | 0 <= k < n :: GuestStep(ss[k], acts[k], guests)
    ensures Shadows(cfg, ss, acts, ts, guests, n)
    ensures forall i :: 0 <= i <= n ==> ts[i].bus == ss[i].bus
  {
    if n == 0 {
      ts := [ss[0]];
    } else {
      var front := GuestsCanBeLeftOut(cfg, ss, acts, guests, n - 1);
      Durability.Always(cfg, ss, acts, n - 1);
      assert Stepped(cfg, ss, acts, n - 1);
      ts := OneMoreShadow(cfg, ss, acts, front, guests, n);
    }
  }

  lemma {:induction false} OneMoreShadow(cfg: Config, ss: seq<Daemon>, acts: seq<Action>, front: seq<Daemon>,
                                         guests: set<nat>, n: nat)
      returns (ts: seq<Daemon>)
    requires 0 < n && Shadows(cfg, ss, acts, front, guests, n - 1) && n < |ss|
    requires Stepped(cfg, ss, acts, n - 1) && Durability.Inv(ss[n - 1]) && GuestStep(ss[n - 1], acts[n - 1], guests)
    ensures Shadows(cfg, ss, acts, ts, guests, n)
    ensures forall i :: 0 <= i <= n ==> ts[i].bus == ss[i].bus
  {
    StepTheSame(cfg, ss[n - 1], front[n - 1], acts[n - 1], guests);
    ts := front + [After(cfg, front[n - 1], LeftOf(ss[n - 1], acts[n - 1], guests))];
    forall i | 0 <= i < n
      ensures ShadowsStep(cfg, ss, acts, ts, guests, i)
    {
      if i < n - 1 {
        assert ShadowsStep(cfg, ss, acts, front, guests, i);
      }
    }
  }
}
