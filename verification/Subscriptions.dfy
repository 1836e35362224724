/** From a publish to the line a subscriber is sent (src/daemon.rs, publish and subscribe handlers, receive and drain
    arms of the connection loop): which prefixes are in force, where a subscriber begins, what each receive writes. */
module Subscriptions {
  import opened Protocol
  import opened DaemonMachine
  import Durability
  import Ownership
  import Delivery
  import Grammar

  /** The prefixes subscribed to by the lines past the first, each once, in the order first asked for. */
  function Asked(lines: seq<Line>): seq<string> {
    if |lines| <= 1 then [] else
    var prior, last := Asked(lines[..|lines| - 1]), lines[|lines| - 1];
    if last.Msg? && last.m.Subscribe? && last.m.prefix !in prior then prior + [last.m.prefix] else prior
  }

  /** One line more asks for one prefix more, or for none. */
  lemma {:induction false} OneMoreAsked(lines: seq<Line>, line: Line)
    requires lines != []
    ensures Asked(lines + [line]) == Asked(lines) + NewlyAsked(Asked(lines), line)
  {
    assert (lines + [line])[..|lines|] == lines;
  }

  function NewlyAsked(prior: seq<string>, line: Line): seq<string> {
    if line.Msg? && line.m.Subscribe? && line.m.prefix !in prior then [line.m.prefix] else []
  }

  /** Some line past the first asks for `p`. */
  predicate SomeoneAsks(lines: seq<Line>, p: string) {
    exists i :: 0 < i < |lines| && lines[i] == Msg(Subscribe(p))
  }

  /** Asked for is what some line past the first asked for, and nothing twice. */
  lemma {:induction false} AskedAre(lines: seq<Line>, p: string)
    ensures p in Asked(lines) <==> SomeoneAsks(lines, p)
    decreases |lines|
  {
    if |lines| > 1 {
      var n := |lines| - 1;
      AskedAre(lines[..n], p);
      assert SomeoneAsks(lines, p) <==> SomeoneAsks(lines[..n], p) || lines[n] == Msg(Subscribe(p)) by {
        assert forall i :: 0 <= i < n ==> lines[..n][i] == lines[i];
      }
    }
  }

  lemma {:induction false} AskedOnce(lines: seq<Line>)
    ensures forall i, j :: 0 <= i < j < |Asked(lines)| ==> Asked(lines)[i] != Asked(lines)[j]
    decreases |lines|
  {
    if |lines| > 1 {
      AskedOnce(lines[..|lines| - 1]);
    }
  }

  predicate PrefixesFit(k: Conn) {
    k.prefixes == Asked(k.lines)
  }

  /** A line read adds the prefix it newly asks for, if the connection has announced itself. */
  lemma {:induction false} HeardAdds(k: Conn, line: Line, clock: nat, sent: nat)
    requires !line.Blank?
    ensures Heard(k, line, clock, sent).lines == k.lines + [line]
    ensures Heard(k, line, clock, sent).prefixes ==
            k.prefixes + (if k.session.Some? then NewlyAsked(k.prefixes, line) else [])
  {
  }

  lemma {:induction false} HeardFits(k: Conn, line: Line, clock: nat, sent: nat)
    requires (k.session.None? <==> k.lines == []) && PrefixesFit(k) && !line.Blank?
    ensures PrefixesFit(Heard(k, line, clock, sent))
  {
    HeardAdds(k, line, clock, sent);
    if k.lines != [] {
      OneMoreAsked(k.lines, line);
    }
  }

  lemma {:induction false} StepFits(cfg: Config, s: Daemon, a: Action, c: nat)
    requires Enabled(cfg, s, a) && !a.Restart? && c in s.conns && c < s.nextConn
    requires Grammar.SessionFits(s.conns[c]) && PrefixesFit(s.conns[c])
    ensures c in Step(cfg, s, a).conns && PrefixesFit(Step(cfg, s, a).conns[c])
  {
    if !ActsAs(a, c) {
      OthersStandStill(cfg, s, a, c);
    } else if a.Read? {
      if !a.line.Blank? {
        HeardFits(s.conns[c], a.line, s.clock, |s.log|);
      }
    }
  }

  /** In every reachable state the prefixes in force on a connection are those of the Subscribe lines it has read,
      each once, in order. */
  lemma {:induction false} PrefixesAreAsked(cfg: Config, ss: seq<Daemon>, acts: seq<Action>, i: nat, c: nat)
    requires Run(cfg, ss, acts) && i < |ss| && c in ss[i].conns
    ensures ss[i].conns[c].prefixes == Asked(ss[i].conns[c].lines)
    decreases i
  {
    if i > 0 {
      assert Stepped(cfg, ss, acts, i - 1);
      if !acts[i - 1].Restart? {
        if c in ss[i - 1].conns {
          PrefixesAreAsked(cfg, ss, acts, i - 1, c);
          Grammar.ConnFits(cfg, ss, acts, i - 1, c);
          Durability.Always(cfg, ss, acts, i - 1);
          StepFits(cfg, ss[i - 1], acts[i - 1], c);
        } else {
          Delivery.NewcomerIsFresh(cfg, ss[i - 1], acts[i - 1], c);
        }
      }
    }
  }

  /** A subscriber begins at the end of the log as it stands when its first Subscribe is read, and that is the only
      step that makes one. */
  lemma {:induction false} BeginsAtFirstSubscribe(cfg: Config, ss: seq<Daemon>, acts: seq<Action>, k: nat, c: nat)
    requires Run(cfg, ss, acts) && k < |acts| && !acts[k].Restart? && c in ss[k].conns && c in ss[k + 1].conns
    requires ss[k].conns[c].cursor.None?
    ensures
      if exists p :: acts[k] == Read(c, Msg(Subscribe(p))) && ss[k].conns[c].session.Some?
      then ss[k + 1].conns[c].cursor == Some(|ss[k].log|) && ss[k + 1].conns[c].start == |ss[k].log|
      else ss[k + 1].conns[c].cursor.None?
  {
    assert Stepped(cfg, ss, acts, k);
    Durability.Always(cfg, ss, acts, k);
    if !ActsAs(acts[k], c) {
      OthersStandStill(cfg, ss[k], acts[k], c);
    }
  }

  /** One receive, to the letter. Unless the channel has overwritten the next message: the subscriber is past it, and
      if the prefixes it has asked for want it, and the socket takes it, an event with the message's topic, payload
      and sender is the one line more; if the socket does not, the task is lost. If the channel has: it is at the
      oldest message left. */
  lemma {:induction false} ReceiveSends(cfg: Config, ss: seq<Daemon>, acts: seq<Action>, k: nat, c: nat, ok: bool)
    requires Run(cfg, ss, acts) && k < |acts| && acts[k] == Receive(c, ok)
    ensures At(ss[k], c) && At(ss[k + 1], c) && ss[k].conns[c].cursor.Some? && ss[k].conns[c].cursor.value < |ss[k].log|
    ensures
      var s, t, log := ss[k].conns[c], ss[k + 1].conns[c], ss[k].log;
      var i := s.cursor.value;
      var wanted := Delivery.Wants(Asked(s.lines), log[i].topic);
      if i + cfg.capacity < |log| then t.cursor == Some(|log| - cfg.capacity) && t.out == s.out && t.pc == s.pc
      else if wanted && !ok then t.out == s.out && t.pc == Gone(Failed)
      else
        && t.cursor == Some(i + 1) && t.pc == s.pc
        && t.out == s.out + (if wanted then [EventLine(ServerEvent(log[i].topic, log[i].data, log[i].from))] else [])
  {
    assert Stepped(cfg, ss, acts, k);
    PrefixesAreAsked(cfg, ss, acts, k, c);
    Delivery.MatchesWhatIsWanted(ss[k].conns[c].prefixes, ss[k].log[ss[k].conns[c].cursor.value].topic);
  }

  // ----- from publisher to subscriber

  lemma {:induction false} OneMoreJoined(a: seq<BroadcastMsg>, b: seq<BroadcastMsg>, msg: BroadcastMsg,
                                         prefixes: seq<string>)
    requires Delivery.Filtered(a + b, prefixes) == Delivery.Filtered(a, prefixes) + Delivery.Filtered(b, prefixes)
    ensures Delivery.Filtered(a + (b + [msg]), prefixes) ==
            Delivery.Filtered(a, prefixes) + Delivery.Filtered(b + [msg], prefixes)
  {
    assert a + (b + [msg]) == (a + b) + [msg];
    Delivery.FilteredOneMore(a + b, msg, prefixes);
    Delivery.FilteredOneMore(b, msg, prefixes);
  }

  lemma {:induction false} FilteredJoined(a: seq<BroadcastMsg>, b: seq<BroadcastMsg>, prefixes: seq<string>)
    ensures Delivery.Filtered(a + b, prefixes) == Delivery.Filtered(a, prefixes) + Delivery.Filtered(b, prefixes)
    decreases |b|
  {
    if b == [] {
      assert a + b == a;
    } else {
      var n := |b| - 1;
      FilteredJoined(a, b[..n], prefixes);
      OneMoreJoined(a, b[..n], b[n], prefixes);
      assert b == b[..n] + [b[n]];
    }
  }

  lemma {:induction false} LogStays(cfg: Config, ss: seq<Daemon>, acts: seq<Action>, i: nat, j: nat)
    requires Run(cfg, ss, acts) && i <= j < |ss| && Ownership.NoRestart(acts, i, j)
    ensures ss[i].log <= ss[j].log
    decreases j
  {
    if i < j {
      LogStays(cfg, ss, acts, i, j - 1);
      assert Stepped(cfg, ss, acts, j - 1) && !acts[j - 1].Restart?;
      var _ := Delivery.LogOnlyGrows(cfg, ss[j - 1], acts[j - 1]);
    }
  }

  /** A publish puts its own topic and payload on the bus, from its own session, as a local message, when its line is
      read. */
  lemma {:induction false} PublishIsSent(cfg: Config, ss: seq<Daemon>, acts: seq<Action>, r: nat, c: nat,
                                         topic: string, data: Data)
    requires Run(cfg, ss, acts) && r < |acts| && acts[r] == Read(c, Msg(Publish(topic, data)))
    ensures At(ss[r], c)
    ensures ss[r + 1].log == ss[r].log + (if ss[r].conns[c].session.None? then []
                                          else [BroadcastMsg(topic, data, ss[r].conns[c].session.value, false)])
  {
    assert Stepped(cfg, ss, acts, r);
  }

  /** End to end: a message published while a subscriber stood before it, if the subscriber has not lagged and its
      prefixes have stood, was sent to it if and only if they want it, once, as it was published, in its place among
      the others. */
  lemma {:induction false} PublishReachesSubscriber(cfg: Config, ss: seq<Daemon>, acts: seq<Action>, r: nat, j: nat,
                                                    c: nat,
                                                    d: nat, topic: string, data: Data, prefixes: seq<string>)
    requires Run(cfg, ss, acts) && r < j < |ss| && Ownership.NoRestart(acts, r, j)
    requires acts[r] == Read(c, Msg(Publish(topic, data))) && At(ss[r], c) && ss[r].conns[c].session.Some?
    requires d in ss[j].conns && ss[j].conns[d].cursor.Some?
    requires ss[j].conns[d].start <= |ss[r].log| < ss[j].conns[d].cursor.value
    requires forall h :: h in ss[j].conns[d].hops ==> h.Got? && h.prefixes == prefixes
    ensures
      var k, at := ss[j].conns[d], |ss[r].log|;
      && at < k.cursor.value <= |ss[j].log|
      && Delivery.Events(k.out) ==
         Delivery.Filtered(ss[j].log[k.start..at], prefixes)
         + (if Delivery.Wants(prefixes, topic) then [ServerEvent(topic, data, ss[r].conns[c].session.value)] else [])
         + Delivery.Filtered(ss[j].log[at + 1..k.cursor.value], prefixes)
  {
    PublishIsSent(cfg, ss, acts, r, c, topic, data);
    LogStays(cfg, ss, acts, r + 1, j);
    Delivery.WithoutLagIsFilter(cfg, ss, acts, j, d, prefixes);
    var k, log, at := ss[j].conns[d], ss[j].log, |ss[r].log|;
    assert log[at] == BroadcastMsg(topic, data, ss[r].conns[c].session.value, false);
    assert log[k.start..k.cursor.value] == log[k.start..at] + [log[at]] + log[at + 1..k.cursor.value];
    FilteredJoined(log[k.start..at] + [log[at]], log[at + 1..k.cursor.value], prefixes);
    Delivery.FilteredOneMore(log[k.start..at], log[at], prefixes);
  }

  // ----- the drain notice

  lemma {:induction false} EndedIsSilent(cfg: Config, s: Daemon, a: Action, c: nat)
    requires Enabled(cfg, s, a) && Durability.Inv(s) && !a.Restart? && c in s.conns && Grammar.Ended(s.conns[c].pc)
    ensures c in Step(cfg, s, a).conns
    ensures Grammar.Ended(Step(cfg, s, a).conns[c].pc) && Step(cfg, s, a).conns[c].out == s.conns[c].out
  {
    if !ActsAs(a, c) {
      OthersStandStill(cfg, s, a, c);
    }
  }

  lemma {:induction false} StaysSilent(cfg: Config, ss: seq<Daemon>, acts: seq<Action>, i: nat, j: nat, c: nat)
    requires Run(cfg, ss, acts) && i <= j < |ss| && Ownership.NoRestart(acts, i, j)
    requires c in ss[i].conns && Grammar.Ended(ss[i].conns[c].pc)
    ensures c in ss[j].conns && Grammar.Ended(ss[j].conns[c].pc) && ss[j].conns[c].out == ss[i].conns[c].out
    decreases j
  {
    if i < j {
      StaysSilent(cfg, ss, acts, i, j - 1, c);
      Durability.Always(cfg, ss, acts, j - 1);
      assert Stepped(cfg, ss, acts, j - 1) && !acts[j - 1].Restart?;
      EndedIsSilent(cfg, ss[j - 1], acts[j - 1], c);
    }
  }

  /** A connection that takes the drain signal is told so if it is subscribed and its socket takes the line, with the
      hint configured, and not otherwise; and it never writes again. */
  lemma {:induction false} DrainIsTold(cfg: Config, ss: seq<Daemon>, acts: seq<Action>, k: nat, j: nat, c: nat,
                                       ok: bool)
    requires Run(cfg, ss, acts) && k < j < |ss| && Ownership.NoRestart(acts, k, j) && acts[k] == NoticeDrain(c, ok)
    ensures c in ss[k].conns && c in ss[j].conns
    ensures ss[j].conns[c].out == ss[k].conns[c].out +
                                  (if ss[k].conns[c].cursor.Some? && ok then [DrainLine(cfg.resumeAfter)] else [])
  {
    assert Stepped(cfg, ss, acts, k);
    StaysSilent(cfg, ss, acts, k + 1, j, c);
  }
}
