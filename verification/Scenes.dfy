/** Runs from a fresh boot that reach what the theorems set apart: broadcasts that overtake one another, and clock
    samples that commit in reverse (src/daemon.rs, claim handlers). */
module Scenes {
  import opened Protocol
  import opened BusModel
  import opened DaemonMachine
  import Replay
  import LazyExpiry

  function Start(): Daemon {
    Boot(0, DurableState(map[], map[]), true)
  }

  /** Legal actions from a boot are a run. */
  lemma {:induction false} AsRun(cfg: Config, s: Daemon, acts: seq<Action>) returns (ss: seq<Daemon>)
    requires Legal(cfg, s, acts)
    ensures |ss| == |acts| + 1 && ss[0] == s && ss[|acts|] == After(cfg, s, acts)
    ensures forall i | 0 <= i < |acts| :: Stepped(cfg, ss, acts, i)
    decreases |acts|
  {
    if acts == [] {
      ss := [s];
    } else {
      var rest := AsRun(cfg, Step(cfg, s, acts[0]), acts[1..]);
      ss := [s] + rest;
      forall i | 0 <= i < |acts|
        ensures Stepped(cfg, ss, acts, i)
      {
        if i > 0 {
          assert Stepped(cfg, rest, acts[1..], i - 1);
        }
      }
    }
  }

  function Hello(sid: string): Line {
    Msg(Announce(sid, 0, "", "", None))
  }

  /** A connection that has announced `sid` and been answered. */
  function Known(sid: string): Conn {
    Conn(Some(sid), [], None, Selecting, [Hello(sid)], [ReplyLine(Ok)], 0, [])
  }

  function Arrive(c: nat, sid: string): seq<Action> {
    [Accept] + ([Read(c, Hello(sid))] + ([Commit(c)] + ([WriteReply(c, true)] + [])))
  }

  lemma {:induction false} Arrives(cfg: Config, s: Daemon, sid: string)
    requires s.phase.Running? && s.nextConn !in s.conns && sid !in s.bus.owners
    ensures Legal(cfg, s, Arrive(s.nextConn, sid))
    ensures
      var t, c := After(cfg, s, Arrive(s.nextConn, sid)), s.nextConn;
      && t.conns == s.conns[c := Known(sid)] && t.nextConn == c + 1 && t.clock == s.clock && t.log == s.log
      && t.phase == s.phase
      && t.bus.claims == s.bus.claims && t.bus.owners == s.bus.owners[sid := c]
  {
    var c := s.nextConn;
    var s1 := Step(cfg, s, Accept);
    var s2 := Step(cfg, s1, Read(c, Hello(sid)));
    var s3 := CommitStep(cfg, s2, c);
    Announces(cfg, s2, c, sid);
    One(cfg, s3, WriteReply(c, true));
    Prepend(cfg, s2, Commit(c), [WriteReply(c, true)] + []);
    Prepend(cfg, s1, Read(c, Hello(sid)), [Commit(c)] + ([WriteReply(c, true)] + []));
    Prepend(cfg, s, Accept, [Read(c, Hello(sid))] + ([Commit(c)] + ([WriteReply(c, true)] + [])));
    assert After(cfg, s, Arrive(c, sid)).conns[c] == Known(sid);
  }

  lemma {:induction false} Announces(cfg: Config, s: Daemon, c: nat, sid: string)
    requires At(s, c) && s.conns[c].pc == Waiting(Hello(sid).m, s.clock) && sid !in s.bus.owners
    ensures
      var t := CommitStep(cfg, s, c);
      && t.conns == s.conns[c := s.conns[c].(session := Some(sid), pc := Answer(Ok, false))]
      && t.nextConn == s.nextConn && t.clock == s.clock && t.log == s.log && t.phase == s.phase
      && t.bus.claims == s.bus.claims && t.bus.owners == s.bus.owners[sid := c]
  {
    assert CommitStep(cfg, s, c).log == s.log + [];
  }

  /** Two sessions have arrived and asked for nothing yet. */
  function Both(): seq<Action> {
    Arrive(0, "a") + Arrive(1, "b")
  }

  lemma {:induction false} BothArrive(cfg: Config)
    ensures Legal(cfg, Start(), Both())
    ensures
      var t := After(cfg, Start(), Both());
      && t.conns == map[0 := Known("a"), 1 := Known("b")] && t.clock == 0 && t.log == [] && t.phase.Running?
      && t.bus.claims == map[]
  {
    Arrives(cfg, Start(), "a");
    var s := After(cfg, Start(), Arrive(0, "a"));
    Arrives(cfg, s, "b");
    Appended(cfg, Start(), Arrive(0, "a"), Arrive(1, "b"));
  }

  function Ask(c: nat, force: bool): Action {
    Read(c, Msg(ClaimAcquire("p", 1, "", force)))
  }

  function Race(): seq<Action> {
    [Ask(0, false)] + ([Ask(1, true)] + [])
  }

  /** Two waiting for the same free path, with nothing on the bus. */
  predicate Gridlocked(s: Daemon) {
    && Replay.Racing(s, 0, 1, "p") && s.conns.Keys == {0, 1} && s.conns[1].pc.m.ttl == 1
    && s.log == [] && s.bus.claims == map[] && s.clock == 0
  }

  lemma {:induction false} RaceReads(cfg: Config, s: Daemon)
    requires s.conns == map[0 := Known("a"), 1 := Known("b")] && s.clock == 0 && s.log == [] && s.bus.claims == map[]
    ensures Legal(cfg, s, Race()) && Gridlocked(After(cfg, s, Race()))
  {
    var t := Step(cfg, s, Ask(0, false));
    assert t.conns == map[0 := t.conns[0], 1 := Known("b")];
    One(cfg, t, Ask(1, true));
    Prepend(cfg, s, Ask(0, false), [Ask(1, true)] + []);
    var u := Step(cfg, t, Ask(1, true));
    assert u.conns == map[0 := t.conns[0], 1 := u.conns[1]];
  }

  /** Both ask for the same free path, one of them by force, before either gets the lock. */
  lemma {:induction false} RaceIsReachable(cfg: Config)
    ensures Legal(cfg, Start(), Both() + Race()) && Gridlocked(After(cfg, Start(), Both() + Race()))
  {
    BothArrive(cfg);
    RaceReads(cfg, After(cfg, Start(), Both()));
    Appended(cfg, Start(), Both(), Race());
  }

  function RaceOn(): seq<Action> {
    [Commit(0)] + ([Commit(1)] + ([Signal(1)] + ([Broadcast(1)] + ([Signal(0)] + ([Broadcast(0)] + [])))))
  }

  /** Nobody owes a broadcast any more, and whoever followed the bus from its beginning is wrong about the path. */
  ghost predicate Misled(t: Daemon) {
    && (forall c: nat :: !Replay.Owes(t, c, "p"))
    && !Replay.Right(Replay.On(Replay.Seen(Replay.Joining(Start()), t), "p"), t.bus.claims, "p", t.clock)
  }

  lemma {:induction false} RaceMisleads(cfg: Config, s: Daemon)
    requires Gridlocked(s)
    ensures Legal(cfg, s, RaceOn()) && Misled(After(cfg, s, RaceOn()))
  {
    Replay.OverlapMisleads(cfg, s, 0, 1, "p");
    assert Replay.Joining(s) == Replay.Joining(Start());
    var t := After(cfg, s, RaceOn());
    assert t.conns.Keys == {0, 1};
  }

  /** Neither a restart nor a publish, so nothing that could be mistaken for a claim event. */
  predicate Plain(a: Action) {
    !a.Restart? && !(a.Read? && a.line.Msg? && a.line.m.Publish?)
  }

  lemma {:induction false} AllPlain()
    ensures forall a :: a in Both() + Race() + RaceOn() ==> Plain(a)
  {
    assert forall a :: a in Arrive(0, "a") ==> Plain(a);
    assert forall a :: a in Arrive(1, "b") ==> Plain(a);
    assert forall a :: a in Race() ==> Plain(a);
    assert forall a :: a in RaceOn() ==> Plain(a);
  }

  /** A run from a fresh boot, without a publish or a restart, at whose end no broadcast is due and yet whoever
      followed the bus from its beginning is wrong about who holds the path. */
  lemma {:induction false} ReplayCanMislead(cfg: Config) returns (ss: seq<Daemon>, acts: seq<Action>)
    ensures Run(cfg, ss, acts) && ss[0] == Start() && forall a :: a in acts ==> Plain(a)
    ensures Misled(ss[|acts|])
  {
    RaceIsReachable(cfg);
    RaceMisleads(cfg, After(cfg, Start(), Both() + Race()));
    Appended(cfg, Start(), Both() + Race(), RaceOn());
    AllPlain();
    acts := Both() + Race() + RaceOn();
    ss := RunFromStart(cfg, acts);
  }

  lemma {:induction false} RunFromStart(cfg: Config, acts: seq<Action>) returns (ss: seq<Daemon>)
    requires Legal(cfg, Start(), acts)
    ensures Run(cfg, ss, acts) && ss[0] == Start() && ss[|acts|] == After(cfg, Start(), acts)
  {
    ss := AsRun(cfg, Start(), acts);
    var empty := DurableState(map[], map[]);
    assert ss[0] == Boot(0, empty, true) && WellFormed(empty);
  }

  // ----- samples in reverse

  function List(c: nat): Action {
    Read(c, Msg(ClaimList))
  }

  /** The one that asked later gets the lock first. */
  function Reversed(): seq<Action> {
    [Commit(1)] + ([Commit(0)] + [])
  }

  predicate Waits(s: Daemon) {
    && s.conns.Keys == {0, 1} && s.conns[0].pc == Waiting(ClaimList, 0) && s.conns[1].pc == Waiting(ClaimList, 1)
    && s.bus.claims == HELD
  }

  const HELD := map["p" := ClaimRecord("p", "a", 1, 0, "")]

  lemma {:induction false} ClaimMade(cfg: Config, s: Daemon) returns (acts: seq<Action>)
    requires s.conns == map[0 := Known("a"), 1 := Known("b")] && s.clock == 0 && s.log == [] && s.bus.claims == map[]
    ensures Legal(cfg, s, acts) && forall a :: a in acts ==> Plain(a)
    ensures
      var t := After(cfg, s, acts);
      && t.conns.Keys == {0, 1} && t.conns[0].pc.Selecting? && t.conns[1] == Known("b")
      && t.conns[0].session == Some("a")
      && t.clock == 0 && t.bus.claims == HELD
  {
    var s1 := Step(cfg, s, Ask(0, false));
    var s2 := CommitStep(cfg, s1, 0);
    assert s2.conns[0].pc == Finishing(true, Some(AcquireEvent("p", "a", 1, "")), Granted("p", 1), false);
    assert s2.conns.Keys == {0, 1};
    acts := ClaimSettled(cfg, s2);
    Prepend(cfg, s1, Commit(0), acts);
    acts := [Commit(0)] + acts;
    Prepend(cfg, s, Ask(0, false), acts);
    acts := [Ask(0, false)] + acts;
  }

  lemma {:induction false} ClaimSettled(cfg: Config, s: Daemon) returns (acts: seq<Action>)
    requires At(s, 0) && s.conns[0].pc.Finishing? && s.conns[0].pc.signal && s.conns[0].pc.event.Some?
    requires !s.conns[0].pc.bail
    ensures Legal(cfg, s, acts) && forall a :: a in acts ==> Plain(a)
    ensures
      var t := After(cfg, s, acts);
      && t.bus == s.bus && t.clock == s.clock && At(t, 0) && t.conns == s.conns[0 := t.conns[0]]
      && t.conns[0].pc.Selecting? && t.conns[0].session == s.conns[0].session
  {
    var s3 := Step(cfg, s, Signal(0));
    var s4 := Step(cfg, s3, Broadcast(0));
    One(cfg, s4, WriteReply(0, true));
    acts := [WriteReply(0, true)] + [];
    Prepend(cfg, s3, Broadcast(0), acts);
    acts := [Broadcast(0)] + acts;
    Prepend(cfg, s, Signal(0), acts);
    acts := [Signal(0)] + acts;
  }

  lemma {:induction false} ListsAsked(cfg: Config, s: Daemon) returns (acts: seq<Action>)
    requires s.conns.Keys == {0, 1} && s.conns[0].pc.Selecting? && s.conns[1].pc.Selecting?
    requires s.conns[0].session.Some? && s.conns[1].session.Some? && s.clock == 0
    requires s.bus.claims == HELD
    ensures Legal(cfg, s, acts) && Waits(After(cfg, s, acts)) && forall a :: a in acts ==> Plain(a)
  {
    var s1 := Step(cfg, s, List(0));
    var s2 := Step(cfg, s1, Advance(1));
    One(cfg, s2, List(1));
    acts := [List(1)] + [];
    Prepend(cfg, s1, Advance(1), acts);
    acts := [Advance(1)] + acts;
    Prepend(cfg, s, List(0), acts);
    acts := [List(0)] + acts;
  }

  lemma {:induction false} WaitsIsReachable(cfg: Config) returns (acts: seq<Action>)
    ensures Legal(cfg, Start(), acts) && Waits(After(cfg, Start(), acts)) && forall a :: a in acts ==> Plain(a)
  {
    BothArrive(cfg);
    AllPlain();
    var s := After(cfg, Start(), Both());
    var made := ClaimMade(cfg, s);
    var t := After(cfg, s, made);
    var asked := ListsAsked(cfg, t);
    Appended(cfg, s, made, asked);
    Appended(cfg, Start(), Both(), made + asked);
    acts := Both() + (made + asked);
  }

  /** The two commits of the waiting lists, in reverse of their samples. */
  lemma {:induction false} ReverseShows(cfg: Config, ss: seq<Daemon>, acts: seq<Action>, i: nat)
    requires |ss| == |acts| + 1 && i + 2 == |acts| && acts[i] == Commit(1) && acts[i + 1] == Commit(0)
    requires Waits(ss[i]) && Stepped(cfg, ss, acts, i) && Stepped(cfg, ss, acts, i + 1)
    ensures
      var r := LazyExpiry.Committed(cfg, ss, acts, i, i + 2);
      && LazyExpiry.Samples(r.0) == [1, 0]
      && r.1 == [ClaimsListed({}), ClaimsListed({})]
      && LazyExpiry.LazyReplies(ss[i].bus.claims, r.0) == [ClaimsListed({}), ClaimsListed({HELD["p"]})]
  {
    ReverseOps(cfg, ss, acts, i);
    assert Live(HELD, 1) == map[] && Live(HELD, 1).Values == {};
    assert Live(HELD, 0) == HELD && HELD.Values == {HELD["p"]};
    var ops := LazyExpiry.Committed(cfg, ss, acts, i, i + 2).0;
    LazyExpiry.LazyListing(HELD, ops, 0);
    LazyExpiry.LazyListing(HELD, ops, 1);
  }

  lemma {:induction false} ReverseOps(cfg: Config, ss: seq<Daemon>, acts: seq<Action>, i: nat)
    requires |ss| == |acts| + 1 && i + 2 == |acts| && acts[i] == Commit(1) && acts[i + 1] == Commit(0)
    requires Waits(ss[i]) && Stepped(cfg, ss, acts, i) && Stepped(cfg, ss, acts, i + 1)
    ensures
      var r := LazyExpiry.Committed(cfg, ss, acts, i, i + 2);
      && r.0 == [LazyExpiry.Op(SessionOf(ss[i].conns[1]), ClaimList, 1),
          LazyExpiry.Op(SessionOf(ss[i].conns[0]), ClaimList, 0)]
      && r.1 == [ClaimsListed(Live(HELD, 1).Values), ClaimsListed(Live(Live(HELD, 1), 0).Values)]
  {
    assert ss[i + 1].conns[0] == ss[i].conns[0] && ss[i + 1].bus.claims == Live(HELD, 1);
    assert LazyExpiry.Committed(cfg, ss, acts, i + 2, i + 2) == ([], []);
  }

  /** A run from a fresh boot in which two lists commit in reverse of their samples, and the second does not show a
      claim that by its own sample is still live: the reference would. */
  lemma {:induction false} DisorderHappens(cfg: Config) returns (ss: seq<Daemon>, acts: seq<Action>, i: nat)
    ensures Run(cfg, ss, acts) && ss[0] == Start() && i + 2 == |acts| && forall a :: a in acts ==> Plain(a)
    ensures
      var r := LazyExpiry.Committed(cfg, ss, acts, i, i + 2);
      LazyExpiry.Samples(r.0) == [1, 0] && r.1 != LazyExpiry.LazyReplies(ss[i].bus.claims, r.0)
  {
    var lead := WaitsIsReachable(cfg);
    var s := After(cfg, Start(), lead);
    One(cfg, CommitStep(cfg, s, 1), Commit(0));
    Prepend(cfg, s, Commit(1), [Commit(0)] + []);
    Appended(cfg, Start(), lead, Reversed());
    acts := lead + Reversed();
    ss := RunFromStart(cfg, acts);
    i := |lead|;
    AtPrefix(cfg, ss, lead, Reversed());
    ReverseShows(cfg, ss, acts, i);
  }

  /** A run stands, after the first of two parts, where that part alone leads. */
  lemma {:induction false} AtPrefix(cfg: Config, ss: seq<Daemon>, a: seq<Action>, b: seq<Action>)
    requires |ss| == |a + b| + 1 && forall i | 0 <= i < |a + b| :: Stepped(cfg, ss, a + b, i)
    requires Legal(cfg, ss[0], a)
    ensures ss[|a|] == After(cfg, ss[0], a)
    decreases |a|
  {
    if a != [] {
      assert Stepped(cfg, ss, a + b, 0);
      assert (a + b)[1..] == a[1..] + b;
      forall i | 0 <= i < |a[1..] + b|
        ensures Stepped(cfg, ss[1..], a[1..] + b, i)
      {
        assert Stepped(cfg, ss, a + b, i + 1);
      }
      AtPrefix(cfg, ss[1..], a[1..], b);
    }
  }
}
