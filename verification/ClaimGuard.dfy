/** The auto-renewed lease (src/claim_guard.rs): whether a claim that is renewed every two thirds of its
    time can be found expired, when both ends see only whole seconds. Instants are nanoseconds. */
module ClaimGuard {
  import opened Protocol
  import opened BusModel
  import opened DaemonMachine
  import Exclusion
  import Durability

  const NS: nat := 1_000_000_000
  const MIN_INTERVAL: nat := 10_000_000
  const MAX_DURATION: nat := 0xFFFF_FFFF_FFFF_FFFF * 1_000_000_000 + 999_999_999

  function Seconds(instant: nat): nat {
    instant / NS
  }

  /** `ttl.as_secs().max(1)` */
  function LeaseSecs(ttl: nat): nat {
    if ttl / NS >= 1 then ttl / NS else 1
  }

  /** Two thirds of the TTL, the TTL itself where doubling overflows a `Duration`, and never under 10 ms. */
  function RenewInterval(ttl: nat): nat {
    var two_thirds := if 2 * ttl > MAX_DURATION then ttl else 2 * ttl / 3;
    if two_thirds >= MIN_INTERVAL then two_thirds else MIN_INTERVAL
  }

  /** The interval is two thirds of the TTL, rounded down, but 10 ms at least; past half the longest duration there is,
      the TTL itself. The lease is the TTL's whole seconds, and one at least. */
  lemma {:induction false} IntervalAndLease(ttl: nat, k: nat)
    ensures ttl <= MAX_DURATION / 2 ==> (k <= RenewInterval(ttl) <==> 3 * k <= 2 * ttl || k <= 10_000_000)
    ensures ttl > MAX_DURATION / 2 ==> RenewInterval(ttl) == ttl
    ensures k <= LeaseSecs(ttl) <==> k * 1_000_000_000 <= ttl || k <= 1
  {
    assert MAX_DURATION == 2 * (MAX_DURATION / 2) + 1;
  }

  /** One acquire or renewal: the client samples its clock, the daemon commits, the client has the reply. */
  datatype Round = Round(sample: nat, commit: nat, reply: nat)

  function Expiry(r: Round, ttl: nat): nat {
    Seconds(r.sample) + LeaseSecs(ttl)
  }

  /** Requests take at most `latency`, and the sleep between them at most `late` longer than asked. */
  predicate Timely(rounds: seq<Round>, ttl: nat, latency: nat, late: nat) {
    && (forall k :: 0 <= k < |rounds| ==>
          rounds[k].sample <= rounds[k].commit <= rounds[k].reply <= rounds[k].sample + latency)
    && (forall k :: 0 < k < |rounds| ==>
          var due := rounds[k - 1].reply + RenewInterval(ttl);
          due <= rounds[k].sample <= due + late)
  }

  /** At no instant from a commit to the next is the claim found expired by a clock that shows whole seconds. */
  ghost predicate Covered(rounds: seq<Round>, ttl: nat) {
    forall k, x :: 0 < k < |rounds| && rounds[k - 1].commit <= x <= rounds[k].commit ==>
      Seconds(x) < Expiry(rounds[k - 1], ttl)
  }

  /** The guard of the whole protocol, in numbers: what is lost to truncation, two requests, a late wake-up
      and one sleep must fit in the lease. */
  predicate Sustainable(ttl: nat, latency: nat, late: nat) {
    NS + 2 * latency + late + RenewInterval(ttl) <= LeaseSecs(ttl) * NS
  }

  lemma {:induction false} SustainableCovers(rounds: seq<Round>, ttl: nat, latency: nat, late: nat)
    requires Sustainable(ttl, latency, late) && Timely(rounds, ttl, latency, late)
    ensures Covered(rounds, ttl)
  {
    forall k, x | 0 < k < |rounds| && rounds[k - 1].commit <= x <= rounds[k].commit
      ensures Seconds(x) < Expiry(rounds[k - 1], ttl)
    {
      assert x <= rounds[k - 1].sample + 2 * latency + late + RenewInterval(ttl);
      assert x + NS <= rounds[k - 1].sample + LeaseSecs(ttl) * NS;
    }
  }

  /** The worst schedule: the first clock is read a nanosecond before it turns, and everything is as late as allowed. */
  function Worst(ttl: nat, latency: nat, late: nat): seq<Round> {
    var t0 := NS - 1;
    var t1 := t0 + latency + RenewInterval(ttl) + late;
    [Round(t0, t0, t0 + latency), Round(t1, t1 + latency, t1 + latency)]
  }

  /** The lease is never found expired, on any timely schedule, exactly if it is sustainable. */
  lemma {:induction false} NeverExpiredIffSustainable(ttl: nat, latency: nat, late: nat)
    ensures Sustainable(ttl, latency, late) <==>
      forall rounds :: Timely(rounds, ttl, latency, late) ==> Covered(rounds, ttl)
  {
    if Sustainable(ttl, latency, late) {
      forall rounds | Timely(rounds, ttl, latency, late)
        ensures Covered(rounds, ttl)
      {
        SustainableCovers(rounds, ttl, latency, late);
      }
    } else {
      var w := Worst(ttl, latency, late);
      assert Timely(w, ttl, latency, late);
      var x := w[1].commit;
      assert x >= LeaseSecs(ttl) * NS;
      assert w[0].commit <= x <= w[1].commit && Seconds(w[0].sample) == 0;
      assert !(Seconds(x) < Expiry(w[0], ttl));
      assert !Covered(w, ttl);
    }
  }

  /** For TTLs in whole seconds, the smallest sustainable one: three seconds with no delays at all, and six more
      for every second a request may take. */
  lemma {:induction false} SmallestWholeTtl(secs: nat, latency: nat, late: nat)
    requires 2 * secs * NS <= MAX_DURATION
    ensures Sustainable(secs * NS, latency, late) <==> secs * NS > 3 * (NS + 2 * latency + late - 1)
    ensures Sustainable(secs * NS, 0, 0) <==> secs >= 3
  {
    assert (secs * NS) / NS == secs;
    var twoThirds := 2 * (secs * NS) / 3;
    assert RenewInterval(secs * NS) == if twoThirds >= MIN_INTERVAL then twoThirds else MIN_INTERVAL;
  }

  // ----- the lease in a running daemon

  /** Real time along a run: the daemon's clock shows its whole seconds. */
  ghost predicate Clocked(ss: seq<Daemon>, when: seq<nat>) {
    && |when| == |ss|
    && (forall i :: 0 <= i < |ss| ==> ss[i].clock == Seconds(when[i]))
    && (forall i, j :: 0 <= i <= j < |ss| ==> when[i] <= when[j])
  }

  /** The step commits the guard's own acquire, asking for `expiry`. */
  predicate Renews(s: Daemon, a: Action, path: string, sid: string, expiry: nat) {
    a.Commit? && At(s, a.c) && s.conns[a.c].pc.Waiting? && SessionOf(s.conns[a.c]) == sid
    && s.conns[a.c].pc.m.ClaimAcquire? && s.conns[a.c].pc.m.path == path
    && s.conns[a.c].pc.m.ttl == expiry && !s.conns[a.c].pc.m.force
  }

  /** A plain acquire committed by this step would meet no conflict. */
  predicate Unopposed(s: Daemon, a: Action, path: string, sid: string) {
    && a.Commit? && At(s, a.c) && s.conns[a.c].pc.Waiting?
    && !Conflicts(s.bus.claims, sid, path, false, Sample(s, s.conns[a.c].pc))
  }

  /** From `i` on, before `j`, the guard's session neither gives the path up nor shortens it to end before `expiry`,
      no other session forces, and no restart loses the journal. */
  ghost predicate LeftAlone(ss: seq<Daemon>, acts: seq<Action>, i: nat, j: nat, path: string, sid: string, expiry: nat)
    requires i <= j < |ss| && |ss| == |acts| + 1
  {
    forall k | i <= k < j :: !Exclusion.Ends(ss[k], acts[k], path, sid, expiry)
  }

  /** The guard's rounds, each at its place in a run, with nothing but other sessions' business in between. */
  ghost predicate Guarded(cfg: Config, ss: seq<Daemon>, acts: seq<Action>, when: seq<nat>, marks: seq<nat>,
                          rounds: seq<Round>, path: string, sid: string, ttl: nat)
  {
    && Run(cfg, ss, acts) && Clocked(ss, when) && |marks| == |rounds|
    && (forall k :: 0 <= k < |marks| ==> marks[k] < |acts| && when[marks[k]] == rounds[k].commit)
    && (forall k :: 0 <= k < |marks| ==> Renews(ss[marks[k]], acts[marks[k]], path, sid, Expiry(rounds[k], ttl)))
    && (forall k :: 0 < k < |marks| ==> marks[k - 1] < marks[k])
    && (forall k :: 0 < k < |marks| ==>
          LeftAlone(ss, acts, marks[k - 1] + 1, marks[k], path, sid, Expiry(rounds[k - 1], ttl)))
  }

  /** In between two rounds the claim is the guard's, and live, in every state of the daemon. */
  lemma {:induction false} HeldBetween(cfg: Config, ss: seq<Daemon>, acts: seq<Action>, when: seq<nat>, marks: seq<nat>,
                                       rounds: seq<Round>, path: string, sid: string, ttl: nat, k: nat, j: nat)
    requires Guarded(cfg, ss, acts, when, marks, rounds, path, sid, ttl) && Covered(rounds, ttl)
    requires 0 < k < |marks| && marks[k - 1] < j <= marks[k]
    requires Exclusion.HeldBy(ss[marks[k - 1] + 1].bus.claims, path, sid, Expiry(rounds[k - 1], ttl))
    ensures Exclusion.HeldBy(ss[j].bus.claims, path, sid, Expiry(rounds[k - 1], ttl))
    ensures ss[j].clock < Expiry(rounds[k - 1], ttl)
  {
    assert rounds[k - 1].commit <= when[j] <= rounds[k].commit;
    assert Seconds(when[j]) < Expiry(rounds[k - 1], ttl);
    assert LeftAlone(ss, acts, marks[k - 1] + 1, marks[k], path, sid, Expiry(rounds[k - 1], ttl));
    Exclusion.ClaimExclusion(cfg, ss, acts, marks[k - 1] + 1, j, path, sid, Expiry(rounds[k - 1], ttl));
  }

  /** Every renewal is granted: the guard meets no conflict, so it never falls back to reconnecting. */
  lemma {:induction false} RenewalsGranted(cfg: Config, ss: seq<Daemon>, acts: seq<Action>, when: seq<nat>,
                                           marks: seq<nat>,
                                           rounds: seq<Round>, path: string, sid: string, ttl: nat, k: nat)
    requires Guarded(cfg, ss, acts, when, marks, rounds, path, sid, ttl) && Covered(rounds, ttl) && k < |marks|
    requires Unopposed(ss[marks[0]], acts[marks[0]], path, sid)
    ensures Exclusion.HeldBy(ss[marks[k] + 1].bus.claims, path, sid, Expiry(rounds[k], ttl))
    ensures Unopposed(ss[marks[k]], acts[marks[k]], path, sid)
    decreases k
  {
    if k > 0 {
      RenewalsGranted(cfg, ss, acts, when, marks, rounds, path, sid, ttl, k - 1);
      HeldBetween(cfg, ss, acts, when, marks, rounds, path, sid, ttl, k, marks[k]);
    }
    assert Stepped(cfg, ss, acts, marks[k]);
  }

  /** The claim is the guard's and has not expired. */
  predicate Leased(s: Daemon, path: string, sid: string) {
    path in s.bus.claims && s.bus.claims[path].sessionId == sid && s.bus.claims[path].ttl > s.clock
  }

  /** Nothing but other sessions' business from the guard's last commit to `end`, and `end` comes no later than one
      request after the loop would have woken up again. */
  ghost predicate Tail(ss: seq<Daemon>, acts: seq<Action>, when: seq<nat>, marks: seq<nat>, rounds: seq<Round>,
                       path: string, sid: string,
                       ttl: nat, latency: nat, late: nat, end: nat)
  {
    && marks != [] && |marks| == |rounds| && |when| == |ss| == |acts| + 1 && marks[|marks| - 1] <= end < |ss|
    && (marks[|marks| - 1] < end ==>
          LeftAlone(ss, acts, marks[|marks| - 1] + 1, end, path, sid, Expiry(rounds[|rounds| - 1], ttl)))
    && when[end] <= rounds[|rounds| - 1].reply + RenewInterval(ttl) + late + latency
  }

  /** After the last round the claim is the guard's, and live, up to `end`. */
  lemma {:induction false} HeldInTail(cfg: Config, ss: seq<Daemon>, acts: seq<Action>, when: seq<nat>, marks: seq<nat>,
                                      rounds: seq<Round>, path: string, sid: string, ttl: nat, latency: nat,
                                      late: nat, end: nat, j: nat)
    requires Guarded(cfg, ss, acts, when, marks, rounds, path, sid, ttl) && Sustainable(ttl, latency, late)
    requires Timely(rounds, ttl, latency, late)
    requires Tail(ss, acts, when, marks, rounds, path, sid, ttl, latency, late, end)
    requires marks[|marks| - 1] < j <= end
    requires Exclusion.HeldBy(ss[marks[|marks| - 1] + 1].bus.claims, path, sid, Expiry(rounds[|rounds| - 1], ttl))
    ensures Leased(ss[j], path, sid)
  {
    var last := rounds[|rounds| - 1];
    assert when[j] <= when[end] <= last.sample + 2 * latency + late + RenewInterval(ttl);
    assert when[j] + NS <= last.sample + LeaseSecs(ttl) * NS;
    assert ss[j].clock < Expiry(last, ttl);
    Exclusion.ClaimExclusion(cfg, ss, acts, marks[|marks| - 1] + 1, j, path, sid, Expiry(last, ttl));
  }

  /** The whole lease: with a sustainable TTL and timely rounds, from its first acquire until one request after the
      loop would have woken up again, the guard's claim is there, its own and unexpired in every state, through every
      interleaving with other sessions and every graceful restart, as long as nobody forces and the session does not
      give it up. */
  lemma {:induction false} LeaseContinuity(cfg: Config, ss: seq<Daemon>, acts: seq<Action>, when: seq<nat>,
                                           marks: seq<nat>,
                                           rounds: seq<Round>, path: string, sid: string, ttl: nat, latency: nat,
                                           late: nat,
                                           end: nat, j: nat)
    requires Guarded(cfg, ss, acts, when, marks, rounds, path, sid, ttl) && marks != []
    requires Sustainable(ttl, latency, late) && Timely(rounds, ttl, latency, late)
    requires Unopposed(ss[marks[0]], acts[marks[0]], path, sid)
    requires Tail(ss, acts, when, marks, rounds, path, sid, ttl, latency, late, end)
    requires marks[0] < j <= end
    ensures Leased(ss[j], path, sid)
  {
    SustainableCovers(rounds, ttl, latency, late);
    if j <= marks[|marks| - 1] {
      HeldInRounds(cfg, ss, acts, when, marks, rounds, path, sid, ttl, j);
    } else {
      RenewalsGranted(cfg, ss, acts, when, marks, rounds, path, sid, ttl, |marks| - 1);
      HeldInTail(cfg, ss, acts, when, marks, rounds, path, sid, ttl, latency, late, end, j);
    }
  }

  lemma {:induction false} HeldInRounds(cfg: Config, ss: seq<Daemon>, acts: seq<Action>, when: seq<nat>,
                                        marks: seq<nat>,
                                        rounds: seq<Round>, path: string, sid: string, ttl: nat, j: nat)
    requires Guarded(cfg, ss, acts, when, marks, rounds, path, sid, ttl) && Covered(rounds, ttl)
    requires marks != [] && marks[0] < j <= marks[|marks| - 1]
    requires Unopposed(ss[marks[0]], acts[marks[0]], path, sid)
    ensures Leased(ss[j], path, sid)
  {
    var k := RoundAt(marks, j);
    RenewalsGranted(cfg, ss, acts, when, marks, rounds, path, sid, ttl, k - 1);
    HeldBetween(cfg, ss, acts, when, marks, rounds, path, sid, ttl, k, j);
  }

  /** The step commits the guard's release. */
  predicate Releases(s: Daemon, a: Action, path: string, sid: string) {
    && a.Commit? && At(s, a.c) && s.conns[a.c].pc.Waiting?
    && s.conns[a.c].pc.m == ClaimRelease(path) && SessionOf(s.conns[a.c]) == sid
  }

  /** From acquire to release: a guard that was cancelled before its loop woke up again, and whose release commits
      within one request of that, held the claim in every state in between and is told that it released it, even if
      it never renewed. */
  lemma {:induction false} HeldToRelease(cfg: Config, ss: seq<Daemon>, acts: seq<Action>, when: seq<nat>,
                                         marks: seq<nat>,
                                         rounds: seq<Round>, path: string, sid: string, ttl: nat, latency: nat,
                                         late: nat, release: nat)
    requires Guarded(cfg, ss, acts, when, marks, rounds, path, sid, ttl) && marks != []
    requires Sustainable(ttl, latency, late) && Timely(rounds, ttl, latency, late)
    requires Unopposed(ss[marks[0]], acts[marks[0]], path, sid)
    requires release < |acts| && Tail(ss, acts, when, marks, rounds, path, sid, ttl, latency, late, release)
    requires Releases(ss[release], acts[release], path, sid)
    ensures forall j :: marks[0] < j <= release ==> Leased(ss[j], path, sid)
    ensures CriticalOf(cfg, ss[release], acts[release].c).reply == Released(true)
    ensures path !in ss[release + 1].bus.claims
  {
    forall j | marks[0] < j <= release
      ensures Leased(ss[j], path, sid)
    {
      LeaseContinuity(cfg, ss, acts, when, marks, rounds, path, sid, ttl, latency, late, release, j);
    }
    FirstMark(marks);
    assert Leased(ss[release], path, sid);
    assert Stepped(cfg, ss, acts, release);
    Durability.Always(cfg, ss, acts, release);
  }

  lemma {:induction false} FirstMark(marks: seq<nat>)
    requires marks != [] && forall k :: 0 < k < |marks| ==> marks[k - 1] < marks[k]
    ensures marks[0] <= marks[|marks| - 1]
    decreases |marks|
  {
    if |marks| > 1 {
      FirstMark(marks[1..]);
    }
  }

  lemma {:induction false} RoundAt(marks: seq<nat>, j: nat) returns (k: nat)
    requires marks != [] && marks[0] < j <= marks[|marks| - 1]
    ensures 0 < k < |marks| && marks[k - 1] < j <= marks[k]
  {
    k := |marks| - 1;
    while marks[k - 1] >= j
      invariant 0 < k < |marks| && j <= marks[k]
      decreases k
    {
      k := k - 1;
    }
  }

  // ----- the renewal loop itself

  /** What becomes of one request. */
  datatype Answer = Granted | Refused | Broken

  /** What one turn of the loop meets: a cancel, or a late wake-up, a request and, if that fails, a second one
      over a new connection. */
  datatype Turn = Turn(cancelled: bool, late: nat, toCommit: nat, toReply: nat, answer: Answer, again: Answer,
      againTime: nat)

  datatype Attempt = Attempt(round: Round, expiry: nat, reconnected: bool, answer: Answer)

  function FirstRound(ttl: nat, last: nat, t: Turn): Round {
    var sample := last + RenewInterval(ttl) + t.late;
    Round(sample, sample + t.toCommit, sample + t.toCommit + t.toReply)
  }

  function SecondRound(first: Round, t: Turn): Round {
    Round(first.sample, first.reply + t.againTime, first.reply + t.againTime)
  }

  /** The requests of one turn, from the instant the last reply came. */
  function TurnAttempts(ttl: nat, last: nat, t: Turn): seq<Attempt> {
    var round := FirstRound(ttl, last, t);
    [Attempt(round, Expiry(round, ttl), false, t.answer)] +
      (if t.answer.Granted? then [] else [Attempt(SecondRound(round, t), Expiry(round, ttl), true, t.again)])
  }

  function TurnEnd(ttl: nat, last: nat, t: Turn): nat {
    var round := FirstRound(ttl, last, t);
    if t.answer.Granted? then round.reply else SecondRound(round, t).reply
  }

  /** The requests the loop makes until it is cancelled. */
  function Attempts(ttl: nat, last: nat, turns: seq<Turn>): seq<Attempt>
    decreases |turns|
  {
    if turns == [] || turns[0].cancelled then []
    else TurnAttempts(ttl, last, turns[0]) + Attempts(ttl, TurnEnd(ttl, last, turns[0]), turns[1..])
  }

  class Renewer {
    const ttl: nat
    var client: nat               // which connection the guard holds; replaced when a fresh one has proved itself
    var now: nat
    var made: seq<Attempt>

    constructor (ttl: nat, now: nat)
      ensures this.ttl == ttl && this.now == now && made == [] && client == 0
    {
      this.ttl, this.now, made, client := ttl, now, [], 0;
    }

    /** The second try keeps the expiry already computed, and swaps the client only on success. */
    method TryReconnectRenew(sample: nat, expiry: nat, t: Turn)
      modifies this
      ensures now == old(now) + t.againTime
      ensures made == old(made) + [Attempt(Round(sample, now, now), expiry, true, t.again)]
      ensures client == if t.again.Granted? then old(client) + 1 else old(client)
    {
      now := now + t.againTime;
      made := made + [Attempt(Round(sample, now, now), expiry, true, t.again)];
      if t.again.Granted? {
        client := client + 1;
      }
    }

    method TakeTurn(t: Turn)
      modifies this
      ensures made == old(made) + TurnAttempts(ttl, old(now), t) && now == TurnEnd(ttl, old(now), t)
      ensures client == if !t.answer.Granted? && t.again.Granted? then old(client) + 1 else old(client)
    {
      now := now + RenewInterval(ttl) + t.late;
      var sample, expiry := now, Seconds(now) + LeaseSecs(ttl);
      now := now + t.toCommit + t.toReply;
      made := made + [Attempt(Round(sample, sample + t.toCommit, now), expiry, false, t.answer)];
      if !t.answer.Granted? {
        TryReconnectRenew(sample, expiry, t);
      }
    }

    /** Only a cancel ends the loop; a failed turn is tried again at once over a new connection, and then the
        loop sleeps and goes on. */
    method RenewLoop(turns: seq<Turn>) returns (served: nat)
      requires made == []
      modifies this
      ensures made == Attempts(ttl, old(now), turns)
      ensures served <= |turns| && (served < |turns| ==> turns[served].cancelled)
      ensures forall i :: 0 <= i < served ==> !turns[i].cancelled
    {
      served := 0;
      ghost var start := now;
      while served < |turns| && !turns[served].cancelled
        invariant served <= |turns| && forall i :: 0 <= i < served ==> !turns[i].cancelled
        invariant made + Attempts(ttl, now, turns[served..]) == Attempts(ttl, start, turns)
      {
        assert turns[served..][1..] == turns[served + 1..];
        TakeTurn(turns[served]);
        served := served + 1;
      }
    }
  }

  /** The turn is not cancelled and wakes in time, and one of its two requests is granted within `latency` of its
      sample. */
  predicate Succeeds(t: Turn, latency: nat, late: nat) {
    && !t.cancelled && t.late <= late
    && if t.answer.Granted? then t.toCommit + t.toReply <= latency
       else t.again.Granted? && t.toCommit + t.toReply + t.againTime <= latency
  }

  predicate Smooth(turns: seq<Turn>, latency: nat, late: nat) {
    forall i :: 0 <= i < |turns| ==> Succeeds(turns[i], latency, late)
  }

  /** The rounds that were granted. */
  function Rounds(made: seq<Attempt>): seq<Round> {
    if made == [] then [] else (if made[0].answer.Granted? then [made[0].round] else []) + Rounds(made[1..])
  }

  function TurnRound(ttl: nat, last: nat, t: Turn): Round {
    var first := FirstRound(ttl, last, t);
    if t.answer.Granted? then first else SecondRound(first, t)
  }

  /** A turn that succeeds adds one granted round, which ends it, in time, and asks for that round's own expiry. */
  lemma {:induction false} TurnSucceeds(ttl: nat, last: nat, t: Turn, rest: seq<Attempt>, latency: nat, late: nat)
    requires Succeeds(t, latency, late)
    ensures var r := TurnRound(ttl, last, t);
            && r.sample <= r.commit <= r.reply <= r.sample + latency && r.reply == TurnEnd(ttl, last, t)
            && last + RenewInterval(ttl) <= r.sample <= last + RenewInterval(ttl) + late
            && Rounds(TurnAttempts(ttl, last, t) + rest) == [r] + Rounds(rest)
            && forall a :: a in TurnAttempts(ttl, last, t) ==> a.expiry == Expiry(r, ttl) && a.round.sample == r.sample
  {
    var made := TurnAttempts(ttl, last, t);
    assert (made + rest)[1..] == made[1..] + rest;
    if !t.answer.Granted? {
      assert (made[1..] + rest)[1..] == rest;
    } else {
      assert made[1..] + rest == rest;
    }
  }

  lemma {:induction false} TimelyCons(r: Round, rest: seq<Round>, ttl: nat, latency: nat, late: nat)
    requires Timely(rest, ttl, latency, late)
    requires r.sample <= r.commit <= r.reply <= r.sample + latency
    requires rest != [] ==> r.reply + RenewInterval(ttl) <= rest[0].sample <= r.reply + RenewInterval(ttl) + late
    ensures Timely([r] + rest, ttl, latency, late)
  {
    var all := [r] + rest;
    forall k | 0 < k < |all|
      ensures all[k - 1].reply + RenewInterval(ttl) <= all[k].sample <= all[k - 1].reply + RenewInterval(ttl) + late
    {
      if k > 1 {
        assert all[k] == rest[k - 1] && all[k - 1] == rest[k - 2];
      }
    }
  }

  /** The loop keeps the schedule the lease theorem asks for: if each turn succeeds, by its first request or by the
      second, the granted rounds after the first acquire are one for each turn and timely, and each request asks for
      the expiry of its own sample. */
  lemma {:induction false} LoopIsTimely(ttl: nat, hold: Round, turns: seq<Turn>, latency: nat, late: nat)
    requires Smooth(turns, latency, late) && hold.sample <= hold.commit <= hold.reply <= hold.sample + latency
    ensures Timely([hold] + Rounds(Attempts(ttl, hold.reply, turns)), ttl, latency, late)
    ensures |Rounds(Attempts(ttl, hold.reply, turns))| == |turns|
    ensures forall a :: a in Attempts(ttl, hold.reply, turns) ==> a.expiry == Expiry(a.round, ttl)
    ensures (forall t :: t in turns ==> t.answer.Granted?) ==>
              |Attempts(ttl, hold.reply, turns)| == |turns| && forall a :: a in Attempts(ttl, hold.reply, turns) ==>
                  !a.reconnected
    decreases |turns|
  {
    if turns == [] {
      TimelyCons(hold, [], ttl, latency, late);
      assert [hold] + [] == [hold];
    } else {
      var next := TurnRound(ttl, hold.reply, turns[0]);
      var rest := Attempts(ttl, next.reply, turns[1..]);
      TurnSucceeds(ttl, hold.reply, turns[0], rest, latency, late);
      LoopIsTimely(ttl, next, turns[1..], latency, late);
      TimelyCons(hold, [next] + Rounds(rest), ttl, latency, late);
    }
  }

  /** A turn that fails is followed by one more try for the same expiry, and never by giving up. */
  lemma {:induction false} FailedTurnIsRetried(ttl: nat, last: nat, turns: seq<Turn>)
    requires turns != [] && !turns[0].cancelled && !turns[0].answer.Granted?
    ensures var made := Attempts(ttl, last, turns);
            && |made| >= 2 && made[1].reconnected && made[1].expiry == made[0].expiry
            && (|turns| > 1 && !turns[1].cancelled ==>
                  |made| > 2 && made[2].round.sample >= made[1].round.reply + RenewInterval(ttl))
  {
    var made := Attempts(ttl, last, turns);
    assert TurnEnd(ttl, last, turns[0]) == made[1].round.reply;
    assert made[2..] == Attempts(ttl, made[1].round.reply, turns[1..]);
  }
}
