/** The one-command bounce (src/reload.rs, `run_reload`) against an environment that decides what the process
    table, the build, the signal, the launch, the clock and the peers queries have to say. */
module Reload {
  import opened Protocol
  import Fleet
  import Sorting

  datatype Config = Config(requireFresh: bool, startIfAbsent: bool, dryRun: bool, drainMs: nat, reconnectMs: nat,
      build: bool)

  datatype Freshness = Current | StaleDeletedExe | StaleInodeDrift | Unknown

  function Label(v: Freshness): string {
    match v
    case Current => "current"
    case StaleDeletedExe => "stale:deleted-exe"
    case StaleInodeDrift => "stale:inode-drift"
    case Unknown => "unknown"
  }

  datatype BuildResult = NoScript | BuildFailed | NoArtifact | InstallFailed | Installed

  /** What the world answers. Each wait reads the clock between two sleeps: `exitClock(j)` is its j-th reading while
      waiting for the old process, and so on. A peers query that fails counts as an empty list. */
  datatype World = World(
    cloudbuild: Option<string>, dest: Option<string>,
    pid: Option<nat>, before: Freshness, after: Freshness,
    peersBefore: Option<seq<string>>,
    built: BuildResult, killed: bool, launched: Option<nat>,
    signalledAt: nat, gone: nat -> bool, exitClock: nat -> nat,
    launchedAt: nat, socket: nat -> bool, socketClock: nat -> nat,
    peers: nat -> Option<seq<string>>, peersClock: nat -> nat)
  {
    /** The clock is monotone and a sleep takes at least as long as was asked for. */
    ghost predicate Valid() {
      && Paced(exitClock, signalledAt, 50) && Paced(socketClock, launchedAt, 50) && Paced(peersClock, launchedAt, 100)
    }

    predicate Resolved(cfg: Config) {
      cfg.build ==> cloudbuild.Some? && dest.Some?
    }

    function Before(): seq<string> {
      if peersBefore.Some? then peersBefore.value else []
    }

    function Peers(j: nat): seq<string> {
      if peers(j).Some? then peers(j).value else []
    }

    predicate Recovered(j: nat) {
      Members(Before()) <= Members(Peers(j))
    }
  }

  function Members(ids: seq<string>): set<string> {
    set s | s in ids
  }

  /** What a verdict says of a binary found so. */
  predicate Says(v: Freshness, text: string) {
    && (v.Current? ==> text == "current") && (v.Unknown? ==> text == "unknown")
    && (v.StaleDeletedExe? ==> text == "stale:deleted-exe") && (v.StaleInodeDrift? ==> text == "stale:inode-drift")
  }

  datatype Effect =
    | Snapshot
    | Cloudbuild(ok: bool)
    | Install(ok: bool)
    | Sigterm(pid: nat, ok: bool)
    | ExitAwaited(looks: nat)
    | SocketAwaited(looks: nat)
    | Launch(child: Option<nat>)

  datatype Status = Reloaded | ReloadedDegraded | Failed

  datatype Verdict = Verdict(
    oldPid: Option<nat>, newPid: Option<nat>, binaryBefore: string, binaryAfter: Option<string>,
    peersBefore: seq<string>, peersAfter: seq<string>, recovered: seq<string>, missing: seq<string>,
    status: Status, buildCommand: Option<string>, installDest: Option<string>, buildSkipped: Option<bool>)

  datatype Result = Done(verdict: Verdict, exit: nat) | Aborted

  // ----- polling against a deadline

  ghost predicate Paced(clock: nat -> nat, start: nat, pause: nat) {
    clock(0) >= start && forall i: nat, j: nat :: i < j ==> clock(i) + pause <= clock(j)
  }

  /** A poll stops at its n-th look: the first that is good or comes at the deadline or later. */
  ghost predicate StopsAt(good: nat -> bool, clock: nat -> nat, deadline: nat, n: nat) {
    && (good(n) || clock(n) >= deadline)
    && forall j: nat :: j < n ==> !good(j) && clock(j) < deadline
  }

  /** There is one look at which a poll stops, and the pauses before it cannot outlast the time allowed. */
  lemma {:induction false} StopIsUnique(good: nat -> bool, clock: nat -> nat, start: nat, pause: nat, limit: nat,
                                        n: nat, m: nat)
    requires Paced(clock, start, pause) && StopsAt(good, clock, start + limit, n)
    ensures StopsAt(good, clock, start + limit, m) <==> m == n
    ensures n > 0 ==> (n - 1) * pause < limit
  {
    if n > 0 {
      PacedAt(clock, start, pause, n - 1);
    }
  }

  lemma {:induction false} PacedAt(clock: nat -> nat, start: nat, pause: nat, n: nat)
    requires Paced(clock, start, pause)
    ensures clock(n) >= start + n * pause
  {
    if n > 0 {
      PacedAt(clock, start, pause, n - 1);
      assert clock(n - 1) + pause <= clock(n);
      assert n * pause == (n - 1) * pause + pause;
    }
  }

  /** Looks until one is good or the deadline is reached; true if the last look was good. */
  method PollUntil(good: nat -> bool, clock: nat -> nat, ghost start: nat, pause: nat,
                   deadline: nat) returns (ok: bool, n: nat)
    requires Paced(clock, start, pause) && pause > 0
    ensures StopsAt(good, clock, deadline, n) && ok == good(n)
  {
    n := 0;
    while true
      invariant forall j: nat :: j < n ==> !good(j) && clock(j) < deadline
      decreases if clock(n) < deadline then deadline - clock(n) else 0
    {
      if good(n) {
        return true, n;
      }
      if clock(n) >= deadline {
        return false, n;
      }
      assert clock(n) + pause <= clock(n + 1);
      n := n + 1;
    }
  }

  // ----- sorted lists

  predicate Ranked(s: seq<string>) {
    Sorting.Ordered(Fleet.Less, s)
  }

  /** Collect a set in any order and sort it. */
  method SortedList(ids: set<string>) returns (s: seq<string>)
    ensures Ranked(s) && Members(s) == ids
  {
    s := [];
    forall a, b, c | Fleet.Less(a, b) && Fleet.Less(b, c)
      ensures Fleet.Less(a, c)
    {
      Fleet.LessIsTransitive(a, b, c);
    }
    var rest := ids;
    while rest != {}
      invariant rest <= ids && Ranked(s) && Members(s) == ids - rest
      decreases |rest|
    {
      var x :| x in rest;
      forall y | y in s
        ensures Fleet.Less(x, y) || Fleet.Less(y, x)
      {
        assert y in Members(s);
        Fleet.LessIsTotal(x, y);
      }
      Sorting.InsertedIsOrdered(Fleet.Less, s, x);
      assert Members(Sorting.Inserted(Fleet.Less, s, x)) == Members(s) + {x};
      s := Sorting.Inserted(Fleet.Less, s, x);
      rest := rest - {x};
    }
  }

  // ----- what a run may do

  /** The step that changes the disk or a process. */
  predicate Mutates(e: Effect) {
    !e.Snapshot? && !e.ExitAwaited? && !e.SocketAwaited?
  }

  /** The daemon of this socket was signalled or launched, or that was attempted. */
  predicate TouchesDaemon(trace: seq<Effect>) {
    exists i :: 0 <= i < |trace| && (trace[i].Sigterm? || trace[i].Launch?)
  }

  /** The order of effects: with `build`, a successful build and then a successful install come before the daemon is
      touched; the peers are listed before that too; a launch that replaces a daemon comes after its signal and the
      wait for its exit; later peers queries come after the wait for the socket. */
  ghost predicate InOrder(cfg: Config, world: World, trace: seq<Effect>) {
    forall i {:trigger Due(cfg, world, trace[..i], trace[i])} :: 0 <= i < |trace| ==>
        Due(cfg, world, trace[..i], trace[i])
  }

  ghost predicate Due(cfg: Config, world: World, done: seq<Effect>, e: Effect) {
    match e
    case Sigterm(pid, _) => Ready(cfg, done) && world.pid == Some(pid)
    case ExitAwaited(n) =>
      && world.pid.Some? && Sigterm(world.pid.value, true) in done
      && StopsAt(world.gone, world.exitClock, world.signalledAt + cfg.drainMs, n)
    case Launch(child) =>
      && Ready(cfg, done) && child == world.launched
      && (world.pid.Some? ==> exists n :: ExitAwaited(n) in done)
    case SocketAwaited(n) =>
      && Launch(world.launched) in done
      && StopsAt(world.socket, world.socketClock, world.launchedAt + cfg.reconnectMs, n)
    case Snapshot => Launch(world.launched) in done ==> exists n :: SocketAwaited(n) in done
    case Cloudbuild(_) => Snapshot in done
    case Install(_) => Snapshot in done && Cloudbuild(true) in done
  }

  predicate Ready(cfg: Config, done: seq<Effect>) {
    Snapshot in done && (cfg.build ==> Cloudbuild(true) in done && Install(true) in done)
  }

  /** Nothing is done after a failure, and no effect but the peers query is repeated. */
  ghost predicate OnceEach(trace: seq<Effect>) {
    forall i {:trigger New(trace[..i], trace[i])} :: 0 <= i < |trace| ==> New(trace[..i], trace[i])
  }

  predicate New(done: seq<Effect>, e: Effect) {
    forall d :: d in done ==> !Failure(d) && (!d.Snapshot? ==> !SameKind(d, e))
  }

  predicate SameKind(a: Effect, b: Effect) {
    || (a.Snapshot? && b.Snapshot?) || (a.Cloudbuild? && b.Cloudbuild?) || (a.Install? && b.Install?)
    || (a.ExitAwaited? && b.ExitAwaited?) || (a.SocketAwaited? && b.SocketAwaited?)
    || (a.Sigterm? && b.Sigterm?) || (a.Launch? && b.Launch?)
  }

  predicate Failure(e: Effect) {
    match e
    case Snapshot => false
    case Cloudbuild(ok) => !ok
    case Install(ok) => !ok
    case Sigterm(_, ok) => !ok
    case Launch(child) => child.None?
    case _ => false
  }

  /** When the daemon is touched at all. */
  predicate GoesAhead(cfg: Config, world: World) {
    && world.Resolved(cfg) && !cfg.dryRun
    && (world.pid.None? ==> cfg.startIfAbsent)
    && !UpToDate(cfg, world)
    && (cfg.build ==> world.built.Installed?)
  }

  predicate UpToDate(cfg: Config, world: World) {
    cfg.requireFresh && world.pid.Some? && world.before.Current?
  }

  /** The plan is refused: no daemon and none may be started (unless only a build is being planned), or the daemon
      is current already and nothing is to be built. */
  predicate Refuses(cfg: Config, world: World) {
    && world.Resolved(cfg)
    && ((world.pid.None? && !cfg.startIfAbsent && !(cfg.build && cfg.dryRun)) || (!cfg.build && UpToDate(cfg, world)))
  }

  /** No verdict comes: a path is unknown, or a step the run comes to fails. */
  predicate Aborts(cfg: Config, world: World) {
    || !world.Resolved(cfg)
    || (GoesAhead(cfg, world) && ((world.pid.Some? && !world.killed) || world.launched.None?))
    || (cfg.build && !cfg.dryRun && !world.built.Installed? && !UpToDate(cfg, world) && !Refuses(cfg, world))
  }

  /** The verdict of a bounce: the last peers query is the first that listed the whole set or came at the deadline,
      and the set of before is divided into those it lists and those it does not. */
  ghost predicate Confirmed(world: World, limit: nat, v: Verdict) {
    && v.peersBefore == world.Before()
    && (exists n: nat :: v.peersAfter == world.Peers(n) &&
                         StopsAt(world.Recovered, world.peersClock, world.launchedAt + limit, n))
    && Ranked(v.recovered) && Members(v.recovered) == Members(v.peersBefore) * Members(v.peersAfter)
    && Ranked(v.missing) && Members(v.missing) == Members(v.peersBefore) - Members(v.peersAfter)
    && v.status == (if v.missing == [] then Reloaded else ReloadedDegraded)
  }

  method BuildAndInstall(world: World) returns (ok: bool, trace: seq<Effect>)
    ensures ok == world.built.Installed?
    ensures ok ==> trace == [Cloudbuild(true), Install(true)]
    ensures |trace| <= 2 && (trace != [] ==> trace[0].Cloudbuild?)
    ensures (|trace| == 2 ==> trace[0] == Cloudbuild(true) && trace[1].Install?)
  {
    match world.built
    case NoScript => return false, [];
    case BuildFailed => return false, [Cloudbuild(false)];
    case NoArtifact => return false, [Cloudbuild(true)];
    case InstallFailed => return false, [Cloudbuild(true), Install(false)];
    case Installed => return true, [Cloudbuild(true), Install(true)];
  }

  /** The answers to the command line that go into every verdict of a run. */
  datatype Heading = Heading(binaryBefore: string, command: Option<string>, dest: Option<string>, skipped: Option<bool>)

  /** The traces before the daemon is touched: the peers are listed, and what was to be built is installed. */
  ghost predicate Prepared(cfg: Config, world: World, trace: seq<Effect>) {
    && InOrder(cfg, world, trace) && OnceEach(trace)
    && (forall e :: e in trace ==> !Failure(e) && !e.Sigterm? && !e.Launch? && !e.ExitAwaited? && !e.SocketAwaited?)
    && Snapshot in trace && (cfg.build ==> Cloudbuild(true) in trace && Install(true) in trace)
  }

  method Prepare(cfg: Config, world: World) returns (ok: bool, trace: seq<Effect>)
    ensures ok == (cfg.build ==> world.built.Installed?)
    ensures ok ==> Prepared(cfg, world, trace)
    ensures InOrder(cfg, world, trace) && OnceEach(trace) && !TouchesDaemon(trace)
  {
    trace := [Snapshot];
    ok := true;
    if cfg.build {
      var steps;
      ok, steps := BuildAndInstall(world);
      for i := 0 to |steps|
        invariant trace == [Snapshot] + steps[..i] && InOrder(cfg, world, trace) && OnceEach(trace)
        invariant !TouchesDaemon(trace)
      {
        Extended(cfg, world, trace, steps[i]);
        trace := trace + [steps[i]];
      }
    }
  }

  /** The old daemon is signalled and given time to exit, and the new one launched. */
  method Relaunch(cfg: Config, world: World, prior: seq<Effect>) returns (ok: bool, trace: seq<Effect>)
    requires world.Valid() && world.pid.Some? && Prepared(cfg, world, prior)
    ensures InOrder(cfg, world, trace) && OnceEach(trace) && TouchesDaemon(trace)
    ensures ok <==> world.killed && world.launched.Some?
    ensures ok ==> Launched(world, trace)
  {
    var signal := Sigterm(world.pid.value, world.killed);
    Extended(cfg, world, prior, signal);
    trace := prior + [signal];
    if !world.killed {
      return false, trace;
    }
    var deadline := world.signalledAt + cfg.drainMs;
    var drained, looks := PollUntil(world.gone, world.exitClock, world.signalledAt, 50, deadline);
    Extended(cfg, world, trace, ExitAwaited(looks));
    trace := trace + [ExitAwaited(looks)];
    Extended(cfg, world, trace, Launch(world.launched));
    trace := trace + [Launch(world.launched)];
    ok := world.launched.Some?;
  }

  ghost predicate Launched(world: World, trace: seq<Effect>) {
    Launch(world.launched) in trace && forall d :: d in trace ==> !Failure(d) && !d.SocketAwaited?
  }

  /** The old daemon is replaced, and the peers are asked for until all are back. */
  method Bounce(cfg: Config, world: World, h: Heading, prior: seq<Effect>) returns (result: Result, trace: seq<Effect>)
    requires world.Valid() && world.pid.Some? && Prepared(cfg, world, prior)
    ensures InOrder(cfg, world, trace) && OnceEach(trace) && TouchesDaemon(trace)
    ensures result.Done? <==> world.killed && world.launched.Some?
    ensures result.Done? ==> Heads(h, result.verdict) && exists looks :: SocketAwaited(looks) in trace
    ensures result.Done? ==> result.verdict.binaryAfter.Some? && Says(world.after, result.verdict.binaryAfter.value)
    ensures result.Done? ==>
              && Confirmed(world, cfg.reconnectMs, result.verdict)
              && result.verdict.oldPid == world.pid && result.verdict.newPid == world.launched
              && (result.exit == 0 <==> result.verdict.status.Reloaded?) && result.exit <= 1
  {
    var ok;
    ok, trace := Relaunch(cfg, world, prior);
    if !ok {
      return Aborted, trace;
    }
    var n;
    n, trace := Confirm(cfg, world, trace);
    var verdict := Judge(world, h, world.Peers(n));
    result := Done(verdict, if verdict.status.Reloaded? then 0 else 1);
  }

  /** The socket is waited for, and then the peers are asked for until all are back. */
  method Confirm(cfg: Config, world: World, launched: seq<Effect>) returns (n: nat, trace: seq<Effect>)
    requires world.Valid() && InOrder(cfg, world, launched) && OnceEach(launched) && TouchesDaemon(launched)
    requires world.launched.Some? && Launched(world, launched)
    ensures InOrder(cfg, world, trace) && OnceEach(trace) && TouchesDaemon(trace)
    ensures exists looks :: SocketAwaited(looks) in trace
    ensures StopsAt(world.Recovered, world.peersClock, world.launchedAt + cfg.reconnectMs, n)
  {
    trace := launched;
    var deadline := world.launchedAt + cfg.reconnectMs;
    var present, looks := PollUntil(world.socket, world.socketClock, world.launchedAt, 50, deadline);
    Extended(cfg, world, trace, SocketAwaited(looks));
    trace := trace + [SocketAwaited(looks)];
    assert SocketAwaited(looks) in trace;
    var whole;
    whole, n := PollUntil(world.Recovered, world.peersClock, world.launchedAt, 100, deadline);
    Asked(cfg, world, trace, n + 1);
    trace := trace + Queries(n + 1);
    assert SocketAwaited(looks) in trace;
  }

  function Queries(n: nat): seq<Effect> {
    if n == 0 then [] else Queries(n - 1) + [Snapshot]
  }

  lemma {:induction false} QueriesAreSnapshots(n: nat)
    ensures forall e :: e in Queries(n) ==> e == Snapshot
  {
    if n > 0 {
      QueriesAreSnapshots(n - 1);
    }
  }

  predicate Heads(h: Heading, v: Verdict) {
    && v.binaryBefore == h.binaryBefore && v.buildCommand == h.command && v.installDest == h.dest
    && v.buildSkipped == h.skipped
  }

  method Judge(world: World, h: Heading, peersAfter: seq<string>) returns (v: Verdict)
    ensures v.peersBefore == world.Before() && v.peersAfter == peersAfter
    ensures Ranked(v.recovered) && Members(v.recovered) == Members(v.peersBefore) * Members(peersAfter)
    ensures Ranked(v.missing) && Members(v.missing) == Members(v.peersBefore) - Members(peersAfter)
    ensures v.status == (if v.missing == [] then Reloaded else ReloadedDegraded)
    ensures v.oldPid == world.pid && v.newPid == world.launched && Heads(h, v)
    ensures v.binaryAfter.Some? && Says(world.after, v.binaryAfter.value)
  {
    var peersBefore := world.Before();
    var recovered := SortedList(Members(peersBefore) * Members(peersAfter));
    var missing := SortedList(Members(peersBefore) - Members(peersAfter));
    v := Verdict(world.pid, world.launched, h.binaryBefore, Some(Label(world.after)), peersBefore, peersAfter,
                 recovered, missing, if missing == [] then Reloaded else ReloadedDegraded,
                 h.command, h.dest, h.skipped);
  }

  method RunReload(cfg: Config, world: World) returns (result: Result, trace: seq<Effect>)
    requires world.Valid()
    ensures InOrder(cfg, world, trace) && OnceEach(trace)
    ensures TouchesDaemon(trace) <==> GoesAhead(cfg, world)
    ensures cfg.dryRun ==> forall e :: e in trace ==> !Mutates(e)
    ensures Refuses(cfg, world) ==> trace == []
    ensures result.Aborted? <==> Aborts(cfg, world)
    ensures result.Done? ==>
              && (result.exit == 0 <==> result.verdict.status.Reloaded?) && result.exit <= 1
              && (result.verdict.status.Failed? <==> Refuses(cfg, world))
              && (result.verdict.newPid.Some? <==> GoesAhead(cfg, world))
    ensures result.Done? && GoesAhead(cfg, world) && world.pid.Some? ==>
              && Confirmed(world, cfg.reconnectMs, result.verdict) && (exists looks :: SocketAwaited(looks) in trace)
              && result.verdict.oldPid == world.pid && result.verdict.newPid == world.launched
    ensures result.Done? ==>
              (result.verdict.status.Reloaded? <==>
                 && !Refuses(cfg, world)
                 && (GoesAhead(cfg, world) && world.pid.Some? ==> WholeInTime(world, cfg.reconnectMs)))
    ensures result.Done? ==>
              && (result.verdict.buildSkipped == Some(true) <==> cfg.build && UpToDate(cfg, world))
              && (result.verdict.buildSkipped == Some(true) ==> trace == [])
    ensures result.Done? ==> result.verdict.oldPid == world.pid
    ensures result.Done? ==> result.verdict.newPid == if GoesAhead(cfg, world) then world.launched else None
    ensures result.Done? && cfg.build ==>
              && world.cloudbuild.Some?
              && result.verdict.buildCommand == Some(world.cloudbuild.value + " build agorabus")
              && result.verdict.installDest == world.dest
    ensures result.Done? && !cfg.build ==> result.verdict.buildCommand.None? && result.verdict.installDest.None?
    ensures result.Done? ==>
              if world.pid.None? && Refuses(cfg, world) then result.verdict.binaryBefore == "unknown"
              else Says(world.before, result.verdict.binaryBefore)
    ensures result.Done? ==>
              match result.verdict.binaryAfter
              case None => !GoesAhead(cfg, world) && (cfg.build ==> !UpToDate(cfg, world))
              case Some(text) =>
                if GoesAhead(cfg, world) && world.pid.Some? then Says(world.after, text)
                else text == "current" && (GoesAhead(cfg, world) || (cfg.build && UpToDate(cfg, world)))
    ensures result.Done? && cfg.dryRun && Snapshot in trace ==>
              result.verdict.peersBefore == result.verdict.missing == world.Before()
  {
    trace := [];
    var command, dest := None, None;
    if cfg.build {
      if world.cloudbuild.None? || world.dest.None? {
        return Aborted, trace;
      }
      command, dest := Some(world.cloudbuild.value + " build agorabus"), world.dest;
    }
    if world.pid.None? && !cfg.startIfAbsent && !(cfg.build && cfg.dryRun) {
      return Done(Verdict(None, None, "unknown", None, [], [], [], [], Failed, command, dest, None), 1), trace;
    }
    var found := Label(world.before);
    if cfg.build && cfg.requireFresh && world.pid.Some? && world.before.Current? {
      return Done(Verdict(world.pid, None, found, Some("current"), [], [], [], [], Reloaded,
                          command, dest, Some(true)), 0), trace;
    }
    if !cfg.build && cfg.requireFresh && world.pid.Some? && world.before.Current? {
      return Done(Verdict(world.pid, None, found, None, [], [], [], [], Failed, None, None, None), 1), trace;
    }
    var skipped := if cfg.build then Some(false) else None;
    if cfg.dryRun {
      trace := [Snapshot];
      var peersBefore := world.Before();
      return Done(Verdict(world.pid, None, found, None, peersBefore, [], [], peersBefore, Reloaded,
                          command, dest, skipped), 0), trace;
    }
    var ready;
    ready, trace := Prepare(cfg, world);
    if !ready {
      return Aborted, trace;
    }
    if world.pid.None? {
      Extended(cfg, world, trace, Launch(world.launched));
      trace := trace + [Launch(world.launched)];
      if world.launched.None? {
        return Aborted, trace;
      }
      return Done(Verdict(None, world.launched, found, Some("current"), [], [], [], [], Reloaded,
                          command, dest, skipped), 0), trace;
    }
    result, trace := Bounce(cfg, world, Heading(found, command, dest, skipped), trace);
    if result.Done? {
      VerdictDivides(world, cfg.reconnectMs, result.verdict);
    }
  }

  lemma {:induction false} Extended(cfg: Config, world: World, trace: seq<Effect>, e: Effect)
    requires InOrder(cfg, world, trace) && OnceEach(trace)
    requires Due(cfg, world, trace, e) && New(trace, e)
    ensures InOrder(cfg, world, trace + [e]) && OnceEach(trace + [e])
    ensures TouchesDaemon(trace + [e]) <==> TouchesDaemon(trace) || e.Sigterm? || e.Launch?
  {
    var longer := trace + [e];
    forall i | 0 <= i < |longer|
      ensures Due(cfg, world, longer[..i], longer[i]) && New(longer[..i], longer[i])
    {
      if i < |trace| {
        assert Due(cfg, world, trace[..i], trace[i]) && New(trace[..i], trace[i]);
        assert longer[..i] == trace[..i];
      } else {
        assert longer[..i] == trace;
      }
    }
    if TouchesDaemon(trace) {
      var i :| 0 <= i < |trace| && (trace[i].Sigterm? || trace[i].Launch?);
      assert longer[i] == trace[i];
    }
    if e.Sigterm? || e.Launch? {
      assert longer[|trace|] == e;
    }
  }

  /** Peers queries at the end change nothing about the order. */
  lemma {:induction false} Asked(cfg: Config, world: World, acted: seq<Effect>, n: nat)
    requires InOrder(cfg, world, acted) && OnceEach(acted) && TouchesDaemon(acted)
    requires (forall d :: d in acted ==> !Failure(d)) && exists looks :: SocketAwaited(looks) in acted
    ensures var trace := acted + Queries(n); InOrder(cfg, world, trace) && OnceEach(trace) && TouchesDaemon(trace)
  {
    if n == 0 {
      assert acted + Queries(n) == acted;
    } else {
      Asked(cfg, world, acted, n - 1);
      var shorter := acted + Queries(n - 1);
      QueriesAreSnapshots(n - 1);
      Extended(cfg, world, shorter, Snapshot);
      assert shorter + [Snapshot] == acted + Queries(n);
    }
  }

  /** The n-th look was answered, with everyone who had been listed before, or nobody had. */
  ghost predicate Lists(world: World, n: nat) {
    forall s {:trigger WasListed(world, s)} :: WasListed(world, s) ==> world.peers(n).Some? && s in world.peers(n).value
  }

  predicate WasListed(world: World, s: string) {
    world.peersBefore.Some? && s in world.peersBefore.value
  }

  lemma {:induction false} RecoveredIsListed(world: World, n: nat)
    ensures world.Recovered(n) <==> Lists(world, n)
  {
    assert forall s :: s in Members(world.Before()) <==> WasListed(world, s);
  }

  /** Some look listed the whole set of before, and no look before it came at the deadline or later. */
  ghost predicate WholeInTime(world: World, limit: nat) {
    exists n: nat :: Lists(world, n) && forall j: nat :: j < n ==> world.peersClock(j) < world.launchedAt + limit
  }

  /** Recovered and missing divide the set of before, each in order and without repeats, and a bounce exits 0
      exactly if it was whole again when last asked. */
  lemma {:induction false} VerdictDivides(world: World, limit: nat, v: Verdict)
    requires world.Valid() && Confirmed(world, limit, v)
    ensures Members(v.recovered) !! Members(v.missing)
    ensures Members(v.recovered) + Members(v.missing) == Members(world.Before())
    ensures |v.recovered| + |v.missing| == |Members(world.Before())|
    ensures v.status.Reloaded? <==> WholeInTime(world, limit)
  {
    RankedCounts(v.recovered);
    RankedCounts(v.missing);
    assert Members(v.recovered) + Members(v.missing) == Members(world.Before());
    var n: nat :| v.peersAfter == world.Peers(n) &&
                  StopsAt(world.Recovered, world.peersClock, world.launchedAt + limit, n);
    assert v.missing == [] <==> Members(v.missing) == {} by {
      if v.missing != [] {
        assert v.missing[0] in Members(v.missing);
      }
    }
    StopIsWholeIff(world, limit, n);
  }

  /** A poll stops at a whole look exactly if some look in time was whole. */
  lemma {:induction false} StopIsWholeIff(world: World, limit: nat, n: nat)
    requires StopsAt(world.Recovered, world.peersClock, world.launchedAt + limit, n)
    ensures world.Recovered(n) <==> WholeInTime(world, limit)
  {
    var good := world.Recovered;
    RecoveredIsListed(world, n);
    if m: nat :| Lists(world, m) && forall j: nat :: j < m ==> world.peersClock(j) < world.launchedAt + limit {
      RecoveredIsListed(world, m);
      assert good(m) == world.Recovered(m) && good(n) == world.Recovered(n);
    }
  }

  lemma {:induction false} RankedCounts(s: seq<string>)
    requires Ranked(s)
    ensures |Members(s)| == |s|
    decreases |s|
  {
    if s != [] {
      RankedCounts(s[1..]);
      assert s == [s[0]] + s[1..];
      assert Members(s) == {s[0]} + Members(s[1..]);
      forall i | 0 < i < |s|
        ensures s[i] != s[0]
      {
        Fleet.LessIsTotal(s[0], s[0]);
      }
    }
  }

  /** A peers query that failed before the bounce counts as no peers: then the bounce is called whole. */
  lemma {:induction false} UnansweredIsWhole(world: World, limit: nat, v: Verdict)
    requires world.Valid() && Confirmed(world, limit, v) && world.peersBefore.None?
    ensures v.status.Reloaded?
  {
    VerdictDivides(world, limit, v);
  }
}
