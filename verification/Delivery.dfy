/** What a subscriber is sent (src/daemon.rs, subscribe handler and the receive arm of the connection loop):
    one bounded channel, one cursor per subscriber, prefixes that accumulate. */
module Delivery {
  import opened Protocol
  import opened DaemonMachine
  import Durability
  import Shape
  import Ownership

  /** The events among the lines written, in order. */
  function Events(out: seq<OutLine>): seq<ServerEvent> {
    if out == [] then [] else
    Events(out[..|out| - 1]) + (if out[|out| - 1].EventLine? then [out[|out| - 1].event] else [])
  }

  function EventOf(msg: BroadcastMsg): ServerEvent {
    ServerEvent(msg.topic, msg.data, msg.from)
  }

  /** A topic a subscriber wants: it has no prefixes, or the topic is one of them with something, or nothing, after
      it. */
  ghost predicate Wants(prefixes: seq<string>, topic: string) {
    prefixes == [] || exists p, rest :: p in prefixes && topic == p + rest
  }

  /** `topic_matches` tells exactly that. */
  lemma {:induction false} MatchesWhatIsWanted(prefixes: seq<string>, topic: string)
    ensures TopicMatches(prefixes, topic) <==> Wants(prefixes, topic)
  {
    if prefixes != [] && TopicMatches(prefixes, topic) {
      var p :| p in prefixes && (p == "" || PrefixOf(p, topic));
      assert topic == p + topic[|p|..];
    }
    if p, rest :| p in prefixes && topic == p + rest {
      assert PrefixOf(p, topic);
    }
  }

  /** The events a walk along the log amounts to: each message taken, if the prefixes of that moment want it. */
  ghost function Carried(log: seq<BroadcastMsg>, hops: seq<Hop>): seq<ServerEvent> {
    if hops == [] then [] else
    var last := hops[|hops| - 1];
    Carried(log, hops[..|hops| - 1]) +
      (if last.Got? && last.index < |log| && Wants(last.prefixes, log[last.index].topic)
       then [EventOf(log[last.index])] else [])
  }

  function Begin(h: Hop): nat {
    if h.Got? then h.index else h.first
  }

  function End(h: Hop): nat {
    if h.Got? then h.index + 1 else h.next
  }

  /** The hops follow one another without gap or overlap from `start` to `end`. */
  predicate Chain(hops: seq<Hop>, start: nat, end: nat) {
    if hops == [] then start == end
    else var last := hops[|hops| - 1];
      End(last) == end && Begin(last) < end && Chain(hops[..|hops| - 1], start, Begin(last))
  }

  /** A skip covers exactly what the channel had overwritten from the cursor on. */
  predicate FairHop(h: Hop, capacity: nat, prefixes: seq<string>, sent: nat) {
    match h
    case Got(index, then_, total) => then_ <= prefixes && index < total <= sent && total <= index + capacity
    case Skipped(first, next, total) => total <= sent && next + capacity == total
  }

  ghost predicate Walks(capacity: nat, k: Conn, log: seq<BroadcastMsg>) {
    && (k.cursor.None? ==> k.hops == [] && Events(k.out) == [])
    && (k.cursor.Some? ==>
          && k.cursor.value <= |log|
          && Chain(k.hops, k.start, k.cursor.value)
          && Events(k.out) == Carried(log, k.hops)
          && (forall h :: h in k.hops ==> FairHop(h, capacity, k.prefixes, |log|)))
  }

  ghost predicate Inv(cfg: Config, s: Daemon) {
    forall c :: c in s.conns ==> Walks(cfg.capacity, s.conns[c], s.log)
  }

  lemma {:induction false} ChainBounds(hops: seq<Hop>, start: nat, end: nat)
    requires Chain(hops, start, end)
    ensures start <= end && forall h :: h in hops ==> End(h) <= end
    decreases |hops|
  {
    if hops != [] {
      var last, front := hops[|hops| - 1], hops[..|hops| - 1];
      ChainBounds(front, start, Begin(last));
      assert hops == front + [last];
    }
  }

  /** Messages sent later change nothing for a walk already made. */
  lemma {:induction false} CarriedGrows(log: seq<BroadcastMsg>, more: seq<BroadcastMsg>, hops: seq<Hop>, start: nat,
                                        end: nat)
    requires Chain(hops, start, end) && end <= |log|
    ensures Carried(log + more, hops) == Carried(log, hops)
    decreases |hops|
  {
    if hops != [] {
      CarriedGrows(log, more, hops[..|hops| - 1], start, Begin(hops[|hops| - 1]));
    }
  }

  lemma {:induction false} LogGrows(capacity: nat, k: Conn, log: seq<BroadcastMsg>, more: seq<BroadcastMsg>)
    requires Walks(capacity, k, log)
    ensures Walks(capacity, k, log + more)
  {
    if k.cursor.Some? {
      CarriedGrows(log, more, k.hops, k.start, k.cursor.value);
    }
  }

  lemma {:induction false} EventsAppend(out: seq<OutLine>, line: OutLine)
    ensures Events(out + [line]) == Events(out) + (if line.EventLine? then [line.event] else [])
  {
    assert (out + [line])[..|out|] == out;
  }

  /** One more hop, and the line it calls for, keep the walk whole. */
  lemma {:induction false} HopWalks(capacity: nat, k: Conn, log: seq<BroadcastMsg>, h: Hop, out: seq<OutLine>)
    requires Walks(capacity, k, log) && k.cursor.Some?
    requires Begin(h) == k.cursor.value < End(h) <= |log| && FairHop(h, capacity, k.prefixes, |log|)
    requires
      if h.Got? && Wants(h.prefixes, log[h.index].topic) then out == k.out + [EventLine(EventOf(log[h.index]))]
      else out == k.out
    ensures Walks(capacity, k.(cursor := Some(End(h)), hops := k.hops + [h], out := out), log)
  {
    if out != k.out {
      EventsAppend(k.out, out[|k.out|]);
    }
  }

  lemma {:induction false} ReceiveWalks(capacity: nat, k: Conn, log: seq<BroadcastMsg>, ok: bool)
    requires k.cursor.Some? && k.cursor.value < |log| && Walks(capacity, k, log)
    ensures Walks(capacity, Received(capacity, k, log, ok), log)
  {
    var i, k' := k.cursor.value, Received(capacity, k, log, ok);
    MatchesWhatIsWanted(k.prefixes, log[i].topic);
    if |log| - i > capacity {
    } else if k'.hops != k.hops {
      HopWalks(capacity, k, log, Got(i, k.prefixes, |log|), k'.out);
    }
  }

  lemma {:induction false} HeardWalks(capacity: nat, k: Conn, log: seq<BroadcastMsg>, line: Line, clock: nat)
    requires !line.Blank? && Walks(capacity, k, log)
    ensures Walks(capacity, Heard(k, line, clock, |log|), log)
  {
    StandingWalks(capacity, k, Heard(k, line, clock, |log|), log);
  }

  predicate Stands(k: Conn, k': Conn, sent: nat) {
    && k'.hops == k.hops && k'.out == k.out && k.prefixes <= k'.prefixes
    && (if k.cursor.Some? || k'.cursor.None? then k'.cursor == k.cursor && k'.start == k.start
        else k'.cursor == Some(sent) && k'.start == sent)
  }

  lemma {:induction false} StandingWalks(capacity: nat, k: Conn, k': Conn, log: seq<BroadcastMsg>)
    requires Walks(capacity, k, log) && Stands(k, k', |log|)
    ensures Walks(capacity, k', log)
  {
  }

  lemma {:induction false} WriterWalks(cfg: Config, s: Daemon, a: Action, c: nat)
    requires Enabled(cfg, s, a) && c in s.conns && ActsAs(a, c) && !a.Read? && !a.Receive?
    requires Walks(cfg.capacity, s.conns[c], s.log)
    ensures c in Step(cfg, s, a).conns && Walks(cfg.capacity, Step(cfg, s, a).conns[c], s.log)
  {
    var k, k' := s.conns[c], Step(cfg, s, a).conns[c];
    assert k'.hops == k.hops && k'.cursor == k.cursor && k'.start == k.start && k'.prefixes == k.prefixes;
    if k'.out != k.out {
      assert k'.out == k.out + [k'.out[|k.out|]] && !k'.out[|k.out|].EventLine?;
      EventsAppend(k.out, k'.out[|k.out|]);
    }
  }

  lemma {:induction false} LogOnlyGrows(cfg: Config, s: Daemon, a: Action) returns (more: seq<BroadcastMsg>)
    requires Enabled(cfg, s, a) && !a.Restart?
    ensures Step(cfg, s, a).log == s.log + more
  {
    var t := Step(cfg, s, a);
    more := if t.log == s.log then [] else t.log[|s.log|..];
  }

  lemma {:induction false} StepKeeps(cfg: Config, s: Daemon, a: Action)
    requires Enabled(cfg, s, a) && Inv(cfg, s) && Durability.Inv(s) && Shape.Inv(s)
    ensures Inv(cfg, Step(cfg, s, a))
  {
    if !a.Restart? {
      var t := Step(cfg, s, a);
      var more := LogOnlyGrows(cfg, s, a);
      forall c | c in t.conns
        ensures Walks(cfg.capacity, t.conns[c], t.log)
      {
        if c in s.conns {
          ConnWalks(cfg, s, a, c);
          LogGrows(cfg.capacity, t.conns[c], s.log, more);
        } else {
          NewcomerIsFresh(cfg, s, a, c);
        }
      }
    }
  }

  lemma {:induction false} NewcomerIsFresh(cfg: Config, s: Daemon, a: Action, c: nat)
    requires Enabled(cfg, s, a) && !a.Restart? && c !in s.conns && c in Step(cfg, s, a).conns
    ensures Step(cfg, s, a).conns[c] == Fresh()
  {
  }

  lemma {:induction false} ConnWalks(cfg: Config, s: Daemon, a: Action, c: nat)
    requires Enabled(cfg, s, a) && Durability.Inv(s) && !a.Restart? && c in s.conns
    requires Walks(cfg.capacity, s.conns[c], s.log)
    ensures c in Step(cfg, s, a).conns && Walks(cfg.capacity, Step(cfg, s, a).conns[c], s.log)
  {
    if !ActsAs(a, c) {
      OthersStandStill(cfg, s, a, c);
    } else if a.Read? {
      if !a.line.Blank? {
        HeardWalks(cfg.capacity, s.conns[c], s.log, a.line, s.clock);
      }
    } else if a.Receive? {
      ReceiveWalks(cfg.capacity, s.conns[c], s.log, a.ok);
    } else {
      WriterWalks(cfg, s, a, c);
    }
  }

  /** In every reachable state, for every connection: the events written are exactly those of an unbroken walk
      along the broadcast log from where the first Subscribe put the cursor to where it stands, in order and each
      at most once; every skip on it is exactly the window the bounded channel had overwritten. */
  lemma {:induction false} OrderedDelivery(cfg: Config, ss: seq<Daemon>, acts: seq<Action>, i: nat)
    requires Run(cfg, ss, acts) && i < |ss|
    ensures Inv(cfg, ss[i])
  {
    if i == 0 {
    } else {
      OrderedDelivery(cfg, ss, acts, i - 1);
      Ownership.Always(cfg, ss, acts, i - 1);
      assert Stepped(cfg, ss, acts, i - 1);
      StepKeeps(cfg, ss[i - 1], acts[i - 1]);
    }
  }

  predicate Covers(h: Hop, i: nat) {
    Begin(h) <= i < End(h)
  }

  /** Between its start and its cursor a subscriber met every message exactly once: it took it, or
      the channel had overwritten it by the time the cursor got there. */
  lemma {:induction false} EveryMessageOnce(capacity: nat, k: Conn, log: seq<BroadcastMsg>, i: nat) returns (n: nat)
    requires Walks(capacity, k, log) && k.cursor.Some? && k.start <= i < k.cursor.value
    ensures n < |k.hops| && Covers(k.hops[n], i)
    ensures forall m :: 0 <= m < |k.hops| && Covers(k.hops[m], i) ==> m == n
    ensures k.hops[n].Got? ==> k.hops[n].index == i && i < k.hops[n].sent <= i + capacity
    ensures k.hops[n].Skipped? ==> i + capacity < k.hops[n].sent <= |log|
  {
    n := Covering(k.hops, k.start, k.cursor.value, i);
    assert k.hops[n] in k.hops;
  }

  lemma {:induction false} Covering(hops: seq<Hop>, start: nat, end: nat, i: nat) returns (n: nat)
    requires Chain(hops, start, end) && start <= i < end
    ensures n < |hops| && Covers(hops[n], i)
    ensures forall m :: 0 <= m < |hops| && Covers(hops[m], i) ==> m == n
    decreases |hops|
  {
    var last, front := hops[|hops| - 1], hops[..|hops| - 1];
    ChainBounds(front, start, Begin(last));
    if Begin(last) <= i {
      n := |hops| - 1;
      forall m | 0 <= m < |front|
        ensures !Covers(hops[m], i)
      {
        assert hops[m] == front[m] && front[m] in front;
      }
    } else {
      n := Covering(front, start, Begin(last), i);
      assert forall m | 0 <= m < |front| :: hops[m] == front[m];
    }
  }

  /** The events a subscriber with fixed prefixes would get from an unbounded channel. */
  ghost function Filtered(msgs: seq<BroadcastMsg>, prefixes: seq<string>): seq<ServerEvent> {
    if msgs == [] then [] else
    var last := msgs[|msgs| - 1];
    Filtered(msgs[..|msgs| - 1], prefixes) + (if Wants(prefixes, last.topic) then [EventOf(last)] else [])
  }

  lemma {:induction false} FilteredOneMore(msgs: seq<BroadcastMsg>, msg: BroadcastMsg, prefixes: seq<string>)
    ensures Filtered(msgs + [msg], prefixes) ==
            Filtered(msgs, prefixes) + (if Wants(prefixes, msg.topic) then [EventOf(msg)] else [])
  {
    assert (msgs + [msg])[..|msgs|] == msgs;
  }

  lemma {:induction false} CarriedIsFilter(log: seq<BroadcastMsg>, hops: seq<Hop>, start: nat, end: nat,
                                           prefixes: seq<string>)
    requires Chain(hops, start, end) && start <= end <= |log|
    requires forall h :: h in hops ==> h.Got? && h.prefixes == prefixes
    ensures Carried(log, hops) == Filtered(log[start..end], prefixes)
    decreases |hops|
  {
    if hops != [] {
      var last, front := hops[|hops| - 1], hops[..|hops| - 1];
      assert last in hops && last.index == end - 1;
      ChainBounds(front, start, Begin(last));
      CarriedIsFilter(log, front, start, Begin(last), prefixes);
      assert log[start..end] == log[start..end - 1] + [log[end - 1]];
      FilteredOneMore(log[start..end - 1], log[end - 1], prefixes);
    }
  }

  /** A subscriber that never lagged and whose prefixes stood has been sent the matching part of
      the log from its Subscribe to its cursor: everything, in order, nothing else. */
  lemma {:induction false} WithoutLagIsFilter(cfg: Config, ss: seq<Daemon>, acts: seq<Action>, i: nat, c: nat,
                                              prefixes: seq<string>)
    requires Run(cfg, ss, acts) && i < |ss| && c in ss[i].conns && ss[i].conns[c].cursor.Some?
    requires forall h :: h in ss[i].conns[c].hops ==> h.Got? && h.prefixes == prefixes
    ensures var k := ss[i].conns[c];
            k.start <= k.cursor.value <= |ss[i].log| &&
            Events(k.out) == Filtered(ss[i].log[k.start..k.cursor.value], prefixes)
  {
    OrderedDelivery(cfg, ss, acts, i);
    var k := ss[i].conns[c];
    assert Walks(cfg.capacity, k, ss[i].log);
    ChainBounds(k.hops, k.start, k.cursor.value);
    CarriedIsFilter(ss[i].log, k.hops, k.start, k.cursor.value, prefixes);
  }

  /** `later` continues the walk of `k`: same start, more hops, more prefixes. */
  predicate Continues(k: Conn, later: Conn) {
    && later.cursor.Some? && later.start == k.start
    && k.hops <= later.hops && k.prefixes <= later.prefixes && k.out <= later.out
  }

  lemma {:induction false} StepContinues(cfg: Config, s: Daemon, a: Action, c: nat)
    requires Enabled(cfg, s, a) && Durability.Inv(s) && !a.Restart? && c in s.conns && s.conns[c].cursor.Some?
    ensures c in Step(cfg, s, a).conns && Continues(s.conns[c], Step(cfg, s, a).conns[c])
  {
    if !ActsAs(a, c) {
      OthersStandStill(cfg, s, a, c);
    } else if a.Receive? {
      assert Continues(s.conns[c], Received(cfg.capacity, s.conns[c], s.log, a.ok));
    }
  }

  /** No later Subscribe moves the cursor: once subscribed, the walk is only ever continued. */
  lemma {:induction false} CursorIsNeverReset(cfg: Config, ss: seq<Daemon>, acts: seq<Action>, i: nat, j: nat, c: nat)
    requires Run(cfg, ss, acts) && i <= j < |ss| && Ownership.NoRestart(acts, i, j)
    requires c in ss[i].conns && ss[i].conns[c].cursor.Some?
    ensures c in ss[j].conns && Continues(ss[i].conns[c], ss[j].conns[c])
    decreases j
  {
    if i < j {
      CursorIsNeverReset(cfg, ss, acts, i, j - 1, c);
      Durability.Always(cfg, ss, acts, j - 1);
      assert Stepped(cfg, ss, acts, j - 1) && !acts[j - 1].Restart?;
      StepContinues(cfg, ss[j - 1], acts[j - 1], c);
    }
  }
}
