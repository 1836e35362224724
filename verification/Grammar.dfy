/** What one connection may ever write, and in which order (src/daemon.rs, connection loop and line handler). */
module Grammar {
  import opened Protocol
  import opened BusModel
  import opened DaemonMachine
  import Durability

  function Replies(out: seq<OutLine>): seq<Reply> {
    if out == [] then [] else
    Replies(out[..|out| - 1]) + (if out[|out| - 1].ReplyLine? then [out[|out| - 1].reply] else [])
  }

  /** The reply that belongs to the `i`-th nonblank line. */
  predicate Answers(line: Line, i: nat, reply: Reply) {
    if line.Malformed? then reply == Error("malformed_json")
    else if line.Blank? then false
    else if i == 0 then
      if line.m.Announce? then reply == Ok else reply == Error("announce_required")
    else match line.m
      case Announce(_, _, _, _, _) => reply == Error("already_announced")
      case Heartbeat(_, _, _, paths) =>
        reply == if paths.Some? && |paths.value| > 8 then Error("too_many_paths") else Ok
      case Update(_, _) => reply == Ok
      case Publish(_, _) => reply == Ok
      case Subscribe(_) => reply == Ok
      case Peers => reply.PeerList?
      case ClaimAcquire(path, ttl, _, _) => reply.Conflict? || reply == Granted(path, ttl)
      case ClaimRelease(_) => reply.Released?
      case ClaimList => reply.ClaimsListed?
      case UplinkStatus => reply == UplinkReport
  }

  /** The error replies after which the connection is closed. */
  predicate Closing(reply: Reply) {
    reply == Error("malformed_json") || reply == Error("announce_required")
  }

  predicate IsSubscribe(line: Line) {
    line.Msg? && line.m.Subscribe?
  }

  predicate Ended(pc: Pc) {
    pc.Leaving? || pc.Gone?
  }

  /** The number of lines still without a reply. */
  function Unanswered(pc: Pc): nat {
    if pc.Waiting? || pc.Finishing? then 1 else 0
  }

  ghost predicate RepliesFit(k: Conn) {
    var r := Replies(k.out);
    && |r| <= |k.lines|
    && (forall i :: 0 <= i < |r| ==> Answers(k.lines[i], i, r[i]))
    && (forall i :: 0 <= i < |r| && Closing(r[i]) ==> i == |k.lines| - 1 && k.pc.Gone?)
    && (if k.pc.Gone? then |k.lines| <= |r| + 1 else |k.lines| == |r| + Unanswered(k.pc))
  }

  ghost predicate PcFits(k: Conn) {
    && (k.pc.Waiting? ==> k.lines != [] && k.lines[|k.lines| - 1] == Msg(k.pc.m) && !TooManyPaths(k.pc.m))
    && (k.pc.Finishing? ==>
          && k.lines != [] && Answers(k.lines[|k.lines| - 1], |k.lines| - 1, k.pc.reply)
          && (k.pc.bail <==> Closing(k.pc.reply)))
  }

  /** The session is the one the first line announced, and without it nothing past that line is heard. */
  ghost predicate SessionFits(k: Conn) {
    && (k.session.Some? ==>
          k.lines != [] && k.lines[0].Msg? && k.lines[0].m.Announce? && k.session == Some(k.lines[0].m.sessionId))
    && (k.session.None? ==> |k.lines| <= 1)
    && (k.session.None? && k.pc.Waiting? ==> k.pc.m.Announce?)
    && (k.session.Some? && k.pc.Waiting? ==> !k.pc.m.Announce?)
    && (k.session.None? && k.lines != [] ==> k.pc.Waiting? || k.pc.Gone? || (k.pc.Finishing? && k.pc.bail))
    && (k.pc.Waiting? && |k.lines| == 1 ==> k.session.None?)
  }

  /** Before the `e`-th line written the reply to some Subscribe was. */
  ghost predicate FollowsSubscribe(k: Conn, e: nat)
    requires e < |k.out|
  {
    exists i :: 0 <= i < |Replies(k.out[..e])| && i < |k.lines| && IsSubscribe(k.lines[i])
  }

  /** Events follow the reply to some Subscribe; a drain notice is the last line, on a subscribed connection. */
  ghost predicate StreamFits(k: Conn) {
    && (k.cursor.Some? ==> exists i :: 0 <= i < |k.lines| && IsSubscribe(k.lines[i]))
    && (forall e {:trigger FollowsSubscribe(k, e)} ::
          0 <= e < |k.out| && k.out[e].EventLine? ==> FollowsSubscribe(k, e))
    && (forall e :: 0 <= e < |k.out| && k.out[e].DrainLine? ==> e == |k.out| - 1 && Ended(k.pc) && k.cursor.Some?)
  }

  ghost predicate Grammatical(k: Conn) {
    RepliesFit(k) && PcFits(k) && SessionFits(k) && StreamFits(k)
  }

  lemma {:induction false} RepliesAppend(out: seq<OutLine>, line: OutLine)
    ensures Replies(out + [line]) == Replies(out) + (if line.ReplyLine? then [line.reply] else [])
  {
    assert (out + [line])[..|out|] == out;
  }

  lemma {:induction false} HeardShape(k: Conn, line: Line, clock: nat, sent: nat)
    requires !line.Blank?
    ensures var k' := Heard(k, line, clock, sent);
            && k'.out == k.out && k'.lines == k.lines + [line] && k'.session == k.session
            && (k'.pc.Waiting? || k'.pc.Finishing?)
            && (k.cursor.Some? ==> k'.cursor == k.cursor)
            && (k'.cursor.Some? ==> k.cursor.Some? || IsSubscribe(line))
  {
  }

  /** A line more and no reply yet. */
  lemma {:induction false} OneMoreLine(k: Conn, k': Conn, line: Line)
    requires RepliesFit(k) && k.pc.Selecting? && k'.out == k.out && k'.lines == k.lines + [line]
    requires k'.pc.Waiting? || k'.pc.Finishing?
    ensures RepliesFit(k')
  {
    var r := Replies(k.out);
    forall i | 0 <= i < |r|
      ensures Answers(k'.lines[i], i, r[i]) && !Closing(r[i])
    {
      assert k'.lines[i] == k.lines[i];
    }
  }

  lemma {:induction false} HeardPc(k: Conn, line: Line, clock: nat, sent: nat)
    requires Grammatical(k) && k.pc.Selecting? && !line.Blank?
    ensures PcFits(Heard(k, line, clock, sent)) && SessionFits(Heard(k, line, clock, sent))
  {
    var k' := Heard(k, line, clock, sent);
    assert k'.lines == k.lines + [line] && k'.session == k.session;
  }

  lemma {:induction false} OneMoreInStream(k: Conn, k': Conn, line: Line)
    requires StreamFits(k) && k.pc.Selecting? && k'.out == k.out && k'.lines == k.lines + [line]
    requires k'.cursor.Some? ==> k.cursor.Some? || IsSubscribe(line)
    requires k.cursor.Some? ==> k'.cursor.Some?
    ensures StreamFits(k')
  {
    MoreLines(k, k');
    if k.cursor.Some? {
      var i :| 0 <= i < |k.lines| && IsSubscribe(k.lines[i]);
      assert IsSubscribe(k'.lines[i]);
    } else if k'.cursor.Some? {
      assert IsSubscribe(k'.lines[|k.lines|]);
    }
  }

  lemma {:induction false} MoreLines(k: Conn, k': Conn)
    requires StreamFits(k) && k.lines <= k'.lines && k'.out == k.out
    ensures forall e {:trigger FollowsSubscribe(k', e)} ::
              0 <= e < |k'.out| && k'.out[e].EventLine? ==> FollowsSubscribe(k', e)
  {
    forall e {:trigger FollowsSubscribe(k', e)} | 0 <= e < |k'.out| && k'.out[e].EventLine?
      ensures FollowsSubscribe(k', e)
    {
      assert FollowsSubscribe(k, e);
      var i :| 0 <= i < |Replies(k.out[..e])| && i < |k.lines| && IsSubscribe(k.lines[i]);
      assert IsSubscribe(k'.lines[i]);
    }
  }

  lemma {:induction false} CriticalAnswers(bus: Bus, sid: string, conn: nat, m: ClientMessage, sample: nat,
                                           timeout: nat, i: nat)
    requires Locks(m) && !TooManyPaths(m) && (m.Announce? <==> i == 0)
    ensures Answers(Msg(m), i, Critical(bus, sid, conn, m, sample, timeout).reply)
    ensures !Closing(Critical(bus, sid, conn, m, sample, timeout).reply)
  {
  }

  lemma {:induction false} CommitFits(cfg: Config, s: Daemon, c: nat)
    requires Enabled(cfg, s, Commit(c)) && Grammatical(s.conns[c])
    ensures Grammatical(CommitStep(cfg, s, c).conns[c])
  {
    var k := s.conns[c];
    assert !k.pc.m.Announce? <==> |k.lines| > 1;
    CriticalAnswers(s.bus, SessionOf(k), c, k.pc.m, Sample(s, k.pc), cfg.timeout, |k.lines| - 1);
    DecidedFits(k, CommitStep(cfg, s, c).conns[c]);
  }

  /** Decided, in the same words, with the reply still to be written. */
  lemma {:induction false} DecidedFits(k: Conn, k': Conn)
    requires Grammatical(k) && k.pc.Waiting? && k'.pc.Finishing? && !k'.pc.bail && !Closing(k'.pc.reply)
    requires Answers(Msg(k.pc.m), |k.lines| - 1, k'.pc.reply)
    requires k'.session == if k.pc.m.Announce? then Some(k.pc.m.sessionId) else k.session
    requires k'.out == k.out && k'.lines == k.lines && k'.cursor == k.cursor
    ensures Grammatical(k')
  {
    RepliesStand(k, k');
    SessionTaken(k, k');
    StreamStands(k, k');
  }

  lemma {:induction false} RepliesStand(k: Conn, k': Conn)
    requires RepliesFit(k) && k.pc.Waiting? && k'.pc.Finishing? && k'.out == k.out && k'.lines == k.lines
    ensures RepliesFit(k')
  {
  }

  lemma {:induction false} SessionTaken(k: Conn, k': Conn)
    requires SessionFits(k) && PcFits(k) && k.pc.Waiting? && k'.pc.Finishing? && !k'.pc.bail && k'.lines == k.lines
    requires k'.session == if k.pc.m.Announce? then Some(k.pc.m.sessionId) else k.session
    ensures SessionFits(k')
  {
  }

  lemma {:induction false} StreamStands(k: Conn, k': Conn)
    requires StreamFits(k) && k.pc.Waiting? && k'.out == k.out && k'.lines == k.lines && k'.cursor == k.cursor
    ensures StreamFits(k')
  {
    MoreLines(k, k');
  }

  /** What may be written, and where it leaves the task. */
  predicate Writes(k: Conn, line: OutLine, pc: Pc) {
    match line
    case ReplyLine(reply) =>
      k.pc.Finishing? && reply == k.pc.reply && pc == if k.pc.bail then Gone(Failed) else Selecting
    case EventLine(_) => k.pc.Selecting? && k.cursor.Some? && pc == k.pc
    case DrainLine(_) => k.pc.Selecting? && k.cursor.Some? && pc == Leaving
  }

  lemma {:induction false} WroteReplies(k: Conn, line: OutLine, pc: Pc)
    requires RepliesFit(k) && PcFits(k) && SessionFits(k) && Writes(k, line, pc)
    ensures var k' := k.(out := k.out + [line], pc := pc); RepliesFit(k') && PcFits(k') && SessionFits(k')
  {
    if line.ReplyLine? {
      WroteReply(k, line.reply, pc);
    } else {
      RepliesAppend(k.out, line);
      assert Replies(k.out + [line]) == Replies(k.out);
    }
  }

  lemma {:induction false} WroteReply(k: Conn, reply: Reply, pc: Pc)
    requires RepliesFit(k) && PcFits(k) && Writes(k, ReplyLine(reply), pc)
    ensures RepliesFit(k.(out := k.out + [ReplyLine(reply)], pc := pc))
  {
    RepliesAppend(k.out, ReplyLine(reply));
    assert Replies(k.out + [ReplyLine(reply)]) == Replies(k.out) + [reply];
  }

  lemma {:induction false} WroteStream(k: Conn, line: OutLine, pc: Pc)
    requires Grammatical(k) && Writes(k, line, pc)
    ensures StreamFits(k.(out := k.out + [line], pc := pc))
  {
    var k' := k.(out := k.out + [line], pc := pc);
    forall e {:trigger FollowsSubscribe(k', e)} | 0 <= e < |k'.out| && k'.out[e].EventLine?
      ensures FollowsSubscribe(k', e)
    {
      assert k'.out[..e] == k.out[..e];
      if e == |k.out| {
        assert k.out[..e] == k.out;
        var i :| 0 <= i < |k.lines| && IsSubscribe(k.lines[i]);
        assert i < |Replies(k'.out[..e])|;
      } else {
        assert FollowsSubscribe(k, e);
      }
    }
  }

  lemma {:induction false} WroteFits(k: Conn, line: OutLine, pc: Pc)
    requires Grammatical(k) && Writes(k, line, pc)
    ensures Grammatical(k.(out := k.out + [line], pc := pc))
  {
    WroteReplies(k, line, pc);
    WroteStream(k, line, pc);
  }

  /** A task that ends, or waits for the lock, or only takes note, writes nothing new. */
  lemma {:induction false} EndedFits(k: Conn, pc: Pc)
    requires Grammatical(k) && !k.pc.Gone? && Ended(pc)
    requires pc.Leaving? ==> k.pc.Selecting?
    ensures Grammatical(k.(pc := pc))
  {
    MoreLines(k, k.(pc := pc));
  }

  lemma {:induction false} HeardFits(k: Conn, line: Line, clock: nat, sent: nat)
    requires Grammatical(k) && k.pc.Selecting? && !line.Blank?
    ensures Grammatical(Heard(k, line, clock, sent))
  {
    HeardShape(k, line, clock, sent);
    HeardPc(k, line, clock, sent);
    OneMoreLine(k, Heard(k, line, clock, sent), line);
    OneMoreInStream(k, Heard(k, line, clock, sent), line);
  }

  /** Signalled or broadcast: the reply is due as before. */
  lemma {:induction false} NudgedFits(k: Conn, pc: Pc)
    requires Grammatical(k) && k.pc.Finishing? && pc.Finishing? && pc.reply == k.pc.reply && pc.bail == k.pc.bail
    ensures Grammatical(k.(pc := pc))
  {
    MoreLines(k, k.(pc := pc));
  }

  lemma {:induction false} ReceiveFits(capacity: nat, k: Conn, log: seq<BroadcastMsg>, ok: bool)
    requires k.pc.Selecting? && k.cursor.Some? && k.cursor.value < |log| && Grammatical(k)
    ensures Grammatical(Received(capacity, k, log, ok))
  {
    var k' := Received(capacity, k, log, ok);
    if k'.out != k.out {
      var line := k'.out[|k.out|];
      WroteFits(k, line, k.pc);
      SameTalk(k.(out := k.out + [line], pc := k.pc), k');
    } else if k'.pc.Gone? {
      EndedFits(k, Gone(Failed));
    } else {
      SameTalk(k, k');
    }
  }

  /** Where the cursor stands and how it got there is not part of the grammar. */
  lemma {:induction false} SameTalk(k: Conn, k': Conn)
    requires Grammatical(k) && k.cursor.Some? && k'.cursor.Some?
    requires k'.out == k.out && k'.lines == k.lines && k'.session == k.session && k'.pc == k.pc
    ensures Grammatical(k')
  {
    assert RepliesFit(k') && PcFits(k') && SessionFits(k');
    MoreLines(k, k');
  }

  lemma {:induction false} StepFits(cfg: Config, s: Daemon, a: Action, c: nat)
    requires Enabled(cfg, s, a) && !a.Restart? && c in s.conns && c < s.nextConn && Grammatical(s.conns[c])
    ensures c in Step(cfg, s, a).conns && Grammatical(Step(cfg, s, a).conns[c])
  {
    var k := s.conns[c];
    if !ActsAs(a, c) {
      OthersStandStill(cfg, s, a, c);
    } else {
      match a
      case Read(_, line) =>
        if !line.Blank? {
          HeardFits(k, line, s.clock, |s.log|);
        }
      case Commit(_) => CommitFits(cfg, s, c);
      case Signal(_) => NudgedFits(k, k.pc.(signal := false));
      case Broadcast(_) => NudgedFits(k, k.pc.(event := None));
      case WriteReply(_, ok) =>
        if ok {
          WroteFits(k, ReplyLine(k.pc.reply), if k.pc.bail then Gone(Failed) else Selecting);
        } else {
          EndedFits(k, Gone(Failed));
        }
      case Receive(_, ok) => ReceiveFits(cfg.capacity, k, s.log, ok);
      case HangUp(_) => EndedFits(k, Leaving);
      case NoticeDrain(_, ok) =>
        if k.cursor.Some? && ok {
          WroteFits(k, DrainLine(cfg.resumeAfter), Leaving);
        } else {
          EndedFits(k, Leaving);
        }
      case Cleanup(_) => EndedFits(k, Gone(Broke));
      case Abort(_) => EndedFits(k, Gone(Aborted));
      case _ =>
    }
  }

  ghost predicate AllGrammatical(s: Daemon) {
    forall c :: c in s.conns ==> Grammatical(s.conns[c])
  }

  /** In every run, every connection's output is grammatical: one reply to each nonblank line, in order and of its
      kind, the last one possibly outstanding; nothing after an error that closes; events only after the reply to a
      Subscribe; a drain notice only as the last line; and the session is the one the first line announced. */
  lemma {:induction false} OutputGrammar(cfg: Config, ss: seq<Daemon>, acts: seq<Action>, i: nat)
    requires Run(cfg, ss, acts) && i < |ss|
    ensures AllGrammatical(ss[i])
  {
    forall c | c in ss[i].conns
      ensures Grammatical(ss[i].conns[c])
    {
      ConnFits(cfg, ss, acts, i, c);
    }
  }

  lemma {:induction false} ConnFits(cfg: Config, ss: seq<Daemon>, acts: seq<Action>, i: nat, c: nat)
    requires Run(cfg, ss, acts) && i < |ss| && c in ss[i].conns
    ensures Grammatical(ss[i].conns[c])
    decreases i
  {
    if i > 0 {
      assert Stepped(cfg, ss, acts, i - 1) && !acts[i - 1].Restart?;
      if c in ss[i - 1].conns {
        ConnFits(cfg, ss, acts, i - 1, c);
        Durability.Always(cfg, ss, acts, i - 1);
        StepFits(cfg, ss[i - 1], acts[i - 1], c);
      } else {
        NewcomerFits(cfg, ss[i - 1], acts[i - 1], c);
      }
    }
  }

  lemma {:induction false} NewcomerFits(cfg: Config, s: Daemon, a: Action, c: nat)
    requires Enabled(cfg, s, a) && !a.Restart? && c !in s.conns && c in Step(cfg, s, a).conns
    ensures Grammatical(Step(cfg, s, a).conns[c])
  {
    assert Step(cfg, s, a).conns[c] == Fresh();
  }
}
