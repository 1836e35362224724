/** The reconnecting subscribe loop (src/reconnect.rs, `reconnect_subscribe`) against an environment that
    decides each connect, each handshake and each line. */
module Reconnect {
  import opened Backoff

  const USIZE: nat := 0x1_0000_0000_0000_0000

  datatype Config = Config(baseMs: nat, capMs: nat, maxAttempts: nat, maxEvents: nat, reconnect: bool) {
    predicate Valid() {
      baseMs < U64 && capMs < U64 && maxAttempts < USIZE && maxEvents < USIZE
    }
  }

  /** A line read: noise or a reply is skipped; an event goes to the callback, which may ask to stop. */
  datatype Inbound = Skipped | Event(id: nat, goOn: bool)

  /** One turn of the outer loop. */
  datatype Round =
    | Unreachable(hard: bool, seed: bv64)
    | HandshakeFailed(seed: bv64)
    | Session(lines: seq<Inbound>, survivedMs: nat, seed: bv64)

  datatype Outcome = Going | Stopped | Exhausted | Refused

  function SaturatingInc(n: nat, limit: nat): nat {
    if n + 1 < limit then n + 1 else n
  }

  /** What the callback sees of one session: how many events, and whether the loop returns. */
  function Consumed(maxEvents: nat, received: nat, lines: seq<Inbound>): (r: (nat, bool))
    decreases |lines|
  {
    if lines == [] then (received, false)
    else if lines[0].Skipped? then Consumed(maxEvents, received, lines[1..])
    else
      var now := SaturatingInc(received, USIZE);
      if !lines[0].goOn || (maxEvents != 0 && now >= maxEvents) then (now, true)
      else Consumed(maxEvents, now, lines[1..])
  }

  /** The events among the lines, in order. */
  function EventsIn(lines: seq<Inbound>): seq<Inbound> {
    if lines == [] then [] else
    EventsIn(lines[..|lines| - 1]) + (if lines[|lines| - 1].Event? then [lines[|lines| - 1]] else [])
  }

  /** Line `i` is an event that ends the session: the callback says so, or with it the count, begun at `received`,
      comes to the limit. */
  predicate EndsAt(maxEvents: nat, received: nat, lines: seq<Inbound>, i: nat)
    requires i < |lines|
  {
    && lines[i].Event?
    && (!lines[i].goOn || (maxEvents != 0 && Min(received + |EventsIn(lines[..i + 1])|, USIZE - 1) >= maxEvents))
  }

  /** The session is read up to and with the first line that ends it, or to the end of its lines. */
  predicate ReadUpTo(maxEvents: nat, received: nat, lines: seq<Inbound>, read: nat, stop: bool) {
    && read <= |lines| && (stop ==> read > 0 && EndsAt(maxEvents, received, lines, read - 1))
    && (!stop ==> read == |lines|)
    && (forall i :: 0 <= i < (if stop then read - 1 else read) ==> !EndsAt(maxEvents, received, lines, i))
  }

  lemma {:induction false} OneMoreEvent(lines: seq<Inbound>, i: nat)
    requires i < |lines|
    ensures EventsIn(lines[..i + 1]) == EventsIn(lines[..i]) + (if lines[i].Event? then [lines[i]] else [])
  {
    assert lines[..i + 1][..i] == lines[..i];
  }

  /** Failures since the last handshake, after `n` rounds: a lost session counts as the first. */
  function FailuresSince(env: nat -> Round, n: nat): nat {
    if n == 0 then 0 else if env(n - 1).Session? then 1 else FailuresSince(env, n - 1) + 1
  }

  /** Retries are limited, and by a number the counter can pass. */
  predicate Bounded(cfg: Config) {
    0 < cfg.maxAttempts < USIZE - 1
  }

  /** The reference: what the loop has come to after `n` rounds, by counting failures since the last handshake. */
  function Reference(cfg: Config, env: nat -> Round, n: nat): (Outcome, nat) {
    if n == 0 then (Going, 0) else
    var before := Reference(cfg, env, n - 1);
    if !before.0.Going? then before else
    match env(n - 1)
    case Unreachable(hard, _) =>
      if !cfg.reconnect then (if hard then Refused else Stopped, before.1)
      else (Verdict(cfg, FailuresSince(env, n)), before.1)
    case HandshakeFailed(_) =>
      if !cfg.reconnect then (Refused, before.1) else (Verdict(cfg, FailuresSince(env, n)), before.1)
    case Session(lines, _, _) =>
      var c := Consumed(cfg.maxEvents, before.1, lines);
      if c.1 || !cfg.reconnect then (Stopped, c.0) else (Verdict(cfg, FailuresSince(env, n)), c.0)
  }

  function Verdict(cfg: Config, failures: nat): Outcome {
    if cfg.maxAttempts != 0 && Min(failures, USIZE - 1) > cfg.maxAttempts then Exhausted else Going
  }

  class Subscriber {
    const cfg: Config
    var attempt: nat
    var failures: nat
    var received: nat
    var delivered: seq<Inbound>   // history: what the callback was called with
    var streak: seq<nat>          // history: sleeps asked for since the last handshake

    constructor (cfg: Config)
      requires cfg.Valid()
      ensures this.cfg == cfg && attempt == 0 && failures == 0 && received == 0 && Valid()
      ensures delivered == [] && streak == []
    {
      this.cfg, attempt, failures, received, delivered, streak := cfg, 0, 0, 0, [], [];
    }

    /** At every loop head the exponent is the failure count as far as a u32 reaches, and while retries are
        limited the sleeps of the streak are one for each failure, under the windows of exponents 0, 1, 2, ... */
    ghost predicate Valid()
      reads this
    {
      && cfg.Valid()
      && failures < USIZE && attempt == Min(failures, U32 - 1) && received == Min(|delivered|, USIZE - 1)
      && (Bounded(cfg) ==> failures <= cfg.maxAttempts && Spaced(cfg, streak) && |streak| == failures)
    }

    /** A failure: count it, give up past the limit, else sleep by the current exponent and raise it. */
    method Fail(seed: bv64) returns (outcome: Outcome)
      requires Valid()
      modifies this
      ensures Valid() && received == old(received) && delivered == old(delivered)
      ensures outcome == Verdict(cfg, SaturatingInc(old(failures), USIZE))
      ensures outcome.Going? ==> failures == SaturatingInc(old(failures), USIZE)
    {
      var counted := SaturatingInc(failures, USIZE);
      if cfg.maxAttempts != 0 && counted > cfg.maxAttempts {
        return Exhausted;
      }
      var delay := Delay(cfg.baseMs, cfg.capMs, attempt, seed);
      if Bounded(cfg) {
        SpacedAppend(cfg, streak, delay, attempt);
      }
      streak := streak + [delay];
      failures := counted;
      attempt := SaturatingInc(attempt, U32);
      outcome := Going;
    }

    /** The read loop of one session. */
    method Consume(lines: seq<Inbound>) returns (stop: bool, ghost read: nat)
      requires received == Min(|delivered|, USIZE - 1)
      modifies this`received, this`delivered
      ensures (received, stop) == Consumed(cfg.maxEvents, old(received), lines)
      ensures ReadUpTo(cfg.maxEvents, old(received), lines, read, stop)
      ensures delivered == old(delivered) + EventsIn(lines[..read]) && received == Min(|delivered|, USIZE - 1)
    {
      var i := 0;
      stop := false;
      while i < |lines| && !stop
        invariant i <= |lines|
        invariant delivered == old(delivered) + EventsIn(lines[..i]) && received == Min(|delivered|, USIZE - 1)
        invariant stop ==> i > 0 && EndsAt(cfg.maxEvents, old(received), lines, i - 1)
        invariant forall j :: 0 <= j < (if stop then i - 1 else i) ==> !EndsAt(cfg.maxEvents, old(received), lines, j)
        invariant Consumed(cfg.maxEvents, old(received), lines) ==
                  if stop then (received, true) else Consumed(cfg.maxEvents, received, lines[i..])
      {
        assert lines[i..][1..] == lines[i + 1..];
        OneMoreEvent(lines, i);
        if lines[i].Event? {
          delivered := delivered + [lines[i]];
          received := SaturatingInc(received, USIZE);
          stop := !lines[i].goOn || (cfg.maxEvents != 0 && received >= cfg.maxEvents);
        }
        i := i + 1;
      }
      assert !stop ==> lines[i..] == [];
      read := i;
    }

    /** A handshake resets the counters, so the later reset for a session that outlived the cap finds nothing to do. */
    method Serve(r: Round) returns (outcome: Outcome)
      requires Valid() && r.Session?
      modifies this
      ensures Valid()
      ensures var c := Consumed(cfg.maxEvents, old(received), r.lines);
              received == c.0 && outcome == if c.1 || !cfg.reconnect then Stopped else Verdict(cfg, 1)
      ensures outcome.Going? ==> failures == 1
      ensures exists read: nat ::
                && ReadUpTo(cfg.maxEvents, old(received), r.lines, read,
                    Consumed(cfg.maxEvents, old(received), r.lines).1)
                && delivered == old(delivered) + EventsIn(r.lines[..read])
    {
      failures, attempt, streak := 0, 0, [];
      var stop, _ := Consume(r.lines);
      if stop || !cfg.reconnect {
        return Stopped;
      }
      if r.survivedMs >= cfg.capMs {
        assert attempt == 0;
        attempt := 0;
      }
      outcome := Fail(r.seed);
    }

    method Turn(r: Round) returns (outcome: Outcome)
      requires Valid()
      modifies this
      ensures Valid()
      ensures
        match r
        case Unreachable(hard, _) =>
          received == old(received) &&
          outcome == (if cfg.reconnect then Verdict(cfg, SaturatingInc(old(failures), USIZE))
                      else if hard then Refused else Stopped)
        case HandshakeFailed(_) =>
          received == old(received) &&
          outcome == if !cfg.reconnect then Refused else Verdict(cfg, SaturatingInc(old(failures), USIZE))
        case Session(lines, _, _) =>
          var c := Consumed(cfg.maxEvents, old(received), lines);
          received == c.0 && outcome == if c.1 || !cfg.reconnect then Stopped else Verdict(cfg, 1)
      ensures outcome.Going? ==> failures == if r.Session? then 1 else SaturatingInc(old(failures), USIZE)
    {
      match r
      case Unreachable(hard, seed) =>
        if !cfg.reconnect {
          return if hard then Refused else Stopped;
        }
        outcome := Fail(seed);
      case HandshakeFailed(seed) =>
        if !cfg.reconnect {
          return Refused;
        }
        outcome := Fail(seed);
      case Session(_, _, _) =>
        outcome := Serve(r);
    }

    /** The loop, watched for at most `horizon` rounds, comes to what the reference says. */
    method Subscribe(env: nat -> Round, horizon: nat) returns (outcome: Outcome, rounds: nat)
      requires Valid() && failures == 0 && delivered == [] && streak == []
      modifies this
      ensures Valid() && rounds <= horizon && (outcome.Going? ==> rounds == horizon)
      ensures (outcome, received) == Reference(cfg, env, rounds)
      ensures outcome.Going? ==> failures == Min(FailuresSince(env, rounds), USIZE - 1)
      ensures Bounded(cfg) ==>
                && Total(streak) <= cfg.maxAttempts * cfg.capMs
                && Total(streak) + cfg.baseMs <= cfg.baseMs * Pow2(cfg.maxAttempts)
    {
      rounds, outcome := 0, Going;
      while rounds < horizon && outcome.Going?
        invariant rounds <= horizon && Valid()
        invariant (outcome, received) == Reference(cfg, env, rounds)
        invariant outcome.Going? ==> failures == Min(FailuresSince(env, rounds), USIZE - 1)
      {
        outcome := Turn(env(rounds));
        rounds := rounds + 1;
      }
      if Bounded(cfg) {
        StreakBudget(cfg, streak, cfg.maxAttempts);
      }
    }
  }

  /** The `i`-th sleep of a streak stays under the window of exponent `i`. */
  predicate Spaced(cfg: Config, sleeps: seq<nat>) {
    forall i :: 0 <= i < |sleeps| ==> sleeps[i] <= Window(cfg.baseMs, cfg.capMs, i)
  }

  lemma {:induction false} SpacedAppend(cfg: Config, sleeps: seq<nat>, delay: nat, attempt: nat)
    requires cfg.capMs < U64 && delay <= Window(cfg.baseMs, cfg.capMs, attempt) && attempt <= |sleeps|
    ensures Spaced(cfg, sleeps) ==> Spaced(cfg, sleeps + [delay])
  {
    WindowGrowsToCap(cfg.baseMs, cfg.capMs, attempt, |sleeps|);
  }

  function Total(sleeps: seq<nat>): nat {
    if sleeps == [] then 0 else Total(sleeps[..|sleeps| - 1]) + sleeps[|sleeps| - 1]
  }

  lemma {:induction false} OneMore(n: nat, c: nat)
    ensures (n + 1) * c == n * c + c
  {
  }

  lemma {:induction false} CapBudget(cfg: Config, sleeps: seq<nat>)
    requires cfg.capMs < U64 && Spaced(cfg, sleeps)
    ensures Total(sleeps) <= |sleeps| * cfg.capMs
    decreases |sleeps|
  {
    if sleeps != [] {
      var n := |sleeps| - 1;
      CapBudget(cfg, sleeps[..n]);
      WindowGrowsToCap(cfg.baseMs, cfg.capMs, n, n);
      OneMore(n, cfg.capMs);
    }
  }

  lemma {:induction false} DoublingBudget(cfg: Config, sleeps: seq<nat>)
    requires cfg.capMs < U64 && Spaced(cfg, sleeps)
    ensures Total(sleeps) + cfg.baseMs <= cfg.baseMs * Pow2(|sleeps|)
    decreases |sleeps|
  {
    if sleeps != [] {
      var n := |sleeps| - 1;
      DoublingBudget(cfg, sleeps[..n]);
      WindowGrowsToCap(cfg.baseMs, cfg.capMs, n, n);
      Doubles(cfg.baseMs, Pow2(n));
    }
  }

  lemma {:induction false} Doubles(a: nat, b: nat)
    ensures a * (2 * b) == a * b + a * b
  {
  }

  /** What a whole streak of at most `limit` failures may sleep: linear in the cap, and never more than
      `base * (2^limit - 1)`. */
  lemma {:induction false} StreakBudget(cfg: Config, sleeps: seq<nat>, limit: nat)
    requires cfg.capMs < U64 && Spaced(cfg, sleeps) && |sleeps| <= limit
    ensures Total(sleeps) <= limit * cfg.capMs
    ensures Total(sleeps) + cfg.baseMs <= cfg.baseMs * Pow2(limit)
  {
    CapBudget(cfg, sleeps);
    TimesGrows(cfg.capMs, |sleeps|, limit);
    DoublingBudget(cfg, sleeps);
    Pow2Grows(|sleeps|, limit);
    TimesGrows(cfg.baseMs, Pow2(|sleeps|), Pow2(limit));
  }

  lemma {:induction false} ConsumedWithinLimit(maxEvents: nat, received: nat, lines: seq<Inbound>)
    requires maxEvents != 0 && received < maxEvents < USIZE
    ensures var c := Consumed(maxEvents, received, lines); c.0 <= maxEvents && (!c.1 ==> c.0 < maxEvents)
    decreases |lines|
  {
    if lines != [] {
      if lines[0].Skipped? {
        ConsumedWithinLimit(maxEvents, received, lines[1..]);
      } else if received + 1 < maxEvents && lines[0].goOn {
        ConsumedWithinLimit(maxEvents, received + 1, lines[1..]);
      }
    }
  }

  /** Across all reconnects the callback is never called more than `max_events` times. */
  lemma {:induction false} CallbacksWithinLimit(cfg: Config, env: nat -> Round, n: nat)
    requires cfg.Valid() && cfg.maxEvents != 0
    ensures Reference(cfg, env, n).1 <= cfg.maxEvents
    ensures Reference(cfg, env, n).0.Going? ==> Reference(cfg, env, n).1 < cfg.maxEvents
  {
    if n > 0 {
      CallbacksWithinLimit(cfg, env, n - 1);
      var before := Reference(cfg, env, n - 1);
      if before.0.Going? && env(n - 1).Session? {
        ConsumedWithinLimit(cfg.maxEvents, before.1, env(n - 1).lines);
      }
    }
  }

  /** One session, to the letter: it is read up to the first event that ends it, whether the callback says so or the
      limit is reached, and the count is that of the events read. */
  lemma {:induction false} ConsumedUpTo(maxEvents: nat, received: nat, lines: seq<Inbound>, read: nat, stop: bool)
    requires received < USIZE && ReadUpTo(maxEvents, received, lines, read, stop)
    ensures Consumed(maxEvents, received, lines) == (Min(received + |EventsIn(lines[..read])|, USIZE - 1), stop)
  {
    ConsumedFrom(maxEvents, received, lines, read, stop, 0);
    assert lines[0..] == lines;
  }

  lemma {:induction false} ConsumedFrom(maxEvents: nat, received: nat, lines: seq<Inbound>, read: nat, stop: bool,
                                        i: nat)
    requires received < USIZE && ReadUpTo(maxEvents, received, lines, read, stop)
    requires i <= (if stop then read - 1 else read)
    ensures Consumed(maxEvents, Min(received + |EventsIn(lines[..i])|, USIZE - 1), lines[i..]) ==
            (Min(received + |EventsIn(lines[..read])|, USIZE - 1), stop)
    decreases |lines| - i
  {
    if i < |lines| {
      assert lines[i..][0] == lines[i] && lines[i..][1..] == lines[i + 1..];
      OneMoreEvent(lines, i);
      if !(stop && i == read - 1) {
        assert !EndsAt(maxEvents, received, lines, i);
        ConsumedFrom(maxEvents, received, lines, read, stop, i + 1);
      }
    }
  }

  /** Without a limit on retries the loop never gives up on its own account. */
  lemma {:induction false} UnlimitedNeverExhausts(cfg: Config, env: nat -> Round, n: nat)
    requires cfg.maxAttempts == 0
    ensures !Reference(cfg, env, n).0.Exhausted?
  {
    if n > 0 {
      UnlimitedNeverExhausts(cfg, env, n - 1);
    }
  }

  lemma {:induction false} GoingMeansWithinLimit(cfg: Config, env: nat -> Round, n: nat)
    requires Bounded(cfg) && Reference(cfg, env, n).0.Going?
    ensures FailuresSince(env, n) <= cfg.maxAttempts
  {
    if n > 0 && !env(n - 1).Session? {
      GoingMeansWithinLimit(cfg, env, n - 1);
    }
  }

  /** With limited retries the loop gives up on exactly the failure after the last one allowed, counted from
      the last handshake, and on no other. */
  lemma {:induction false} GivesUpOnTheNextFailure(cfg: Config, env: nat -> Round, n: nat)
    requires Bounded(cfg) && cfg.reconnect && Reference(cfg, env, n).0.Going?
    requires env(n).Session? ==> !Consumed(cfg.maxEvents, Reference(cfg, env, n).1, env(n).lines).1
    ensures Reference(cfg, env, n + 1).0.Exhausted? <==> FailuresSince(env, n + 1) == cfg.maxAttempts + 1
    ensures !Reference(cfg, env, n + 1).0.Exhausted? ==> Reference(cfg, env, n + 1).0.Going?
  {
    GoingMeansWithinLimit(cfg, env, n);
  }

  lemma {:induction false} FailuresAddUp(env: nat -> Round, from: nat, n: nat)
    requires from <= n && forall k :: from <= k < n ==> !env(k).Session?
    ensures FailuresSince(env, n) == FailuresSince(env, from) + (n - from)
    decreases n
  {
    if from < n {
      FailuresAddUp(env, from, n - 1);
    }
  }

  lemma {:induction false} GoingWasGoing(cfg: Config, env: nat -> Round, m: nat, n: nat)
    requires m <= n && Reference(cfg, env, n).0.Going?
    ensures Reference(cfg, env, m).0.Going?
    decreases n
  {
    if m < n {
      GoingWasGoing(cfg, env, m, n - 1);
    }
  }

  /** If only finitely many handshakes succeed, the loop with limited retries ends, at the latest `max_attempts`
      rounds and one after the last of them; and without `reconnect` it ends with its first round. */
  lemma {:induction false} Ends(cfg: Config, env: nat -> Round, lastHandshake: nat)
    requires cfg.Valid()
    requires forall n :: n >= lastHandshake ==> !env(n).Session?
    ensures Bounded(cfg) ==> !Reference(cfg, env, lastHandshake + cfg.maxAttempts + 1).0.Going?
    ensures !cfg.reconnect ==> !Reference(cfg, env, 1).0.Going?
  {
    var n := lastHandshake + cfg.maxAttempts + 1;
    FailuresAddUp(env, lastHandshake, n);
    if Bounded(cfg) && Reference(cfg, env, n).0.Going? {
      GoingMeansWithinLimit(cfg, env, n);
      assert false;
    }
    assert Reference(cfg, env, 0).0.Going?;
  }
}
