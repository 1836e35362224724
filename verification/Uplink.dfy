/** N daemons whose buses are joined by a broadcast transport that echoes to the sender (src/uplink.rs). */
module Uplink {
  import opened Protocol

  const SUBJECT_PREFIX := "wm.bus."

  datatype Envelope = Envelope(originNode: string, data: Data)

  /** History: which node's bus a message was first published on, and at which place. */
  datatype Stamp = Stamp(origin: nat, index: nat)

  datatype Wire = Wire(subject: string, env: Envelope, stamp: Stamp)

  datatype Entry = Entry(msg: BroadcastMsg, stamp: Stamp)

  /** One daemon: its bus, where the relay's receiver stands on it, and what the transport holds for it,
      one queue per sender (the transport keeps each sender's order, and no order across senders). */
  datatype Node = Node(name: string, bus: seq<Entry>, cursor: nat, inbox: seq<seq<Wire>>, relayed: seq<nat>)

  type Net = seq<Node>

  function LowerAscii(c: char): char {
    if 'A' <= c <= 'Z' then (c as int + 32) as char else c
  }

  /** `eq_ignore_ascii_case` */
  predicate SameName(a: string, b: string) {
    |a| == |b| && forall i :: 0 <= i < |a| ==> LowerAscii(a[i]) == LowerAscii(b[i])
  }

  function Subject(topic: string): string {
    SUBJECT_PREFIX + topic
  }

  /** `strip_prefix` */
  function Topic(subject: string): Option<string> {
    if SUBJECT_PREFIX <= subject then Some(subject[|SUBJECT_PREFIX|..]) else None
  }

  /** The name with its ASCII letters in small. A configured name has no ASCII capitals to begin with. */
  function Lowered(name: string): (r: string)
    ensures |r| == |name| && forall i :: 0 <= i < |name| ==> r[i] == LowerAscii(name[i])
  {
    seq(|name|, i requires 0 <= i < |name| => LowerAscii(name[i]))
  }

  /** The same character, or an ASCII capital and its small letter, 32 apart. */
  predicate SameLetter(a: char, b: char) {
    a == b || ('A' <= a <= 'Z' && b as int == a as int + 32) || ('A' <= b <= 'Z' && a as int == b as int + 32)
  }

  predicate NoCapitals(name: string) {
    forall i :: 0 <= i < |name| ==> !('A' <= name[i] <= 'Z')
  }

  /** Blind to the case of ASCII letters and to nothing else: the same name is one that differs, place by place, in case
      at most; and it is so exactly if both are the same in small letters. */
  lemma {:induction false} SameNameIsCaseBlind(a: string, b: string)
    ensures SameName(a, b) <==> |a| == |b| && forall i :: 0 <= i < |a| ==> SameLetter(a[i], b[i])
    ensures SameName(a, b) <==> Lowered(a) == Lowered(b)
    ensures NoCapitals(a) && NoCapitals(b) ==> (SameName(a, b) <==> a == b)
  {
    forall x: char, y: char
      ensures LowerAscii(x) == LowerAscii(y) <==> SameLetter(x, y)
    {
    }
    assert Lowered(a) == Lowered(b) ==> forall i :: 0 <= i < |a| ==> Lowered(a)[i] == Lowered(b)[i];
    assert NoCapitals(a) ==> forall i :: 0 <= i < |a| ==> LowerAscii(a[i]) == a[i];
  }

  /** Mapping a topic out and back is the identity, and nothing else maps to it. */
  lemma {:induction false} SubjectRoundTrips(topic: string, subject: string)
    ensures Subject(topic) == "wm.bus." + topic
    ensures Topic(Subject(topic)) == Some(topic)
    ensures Topic(subject) == Some(topic) <==> subject == Subject(topic)
  {
    assert Subject(topic)[|SUBJECT_PREFIX|..] == topic;
    if Topic(subject) == Some(topic) {
      assert subject == subject[..|SUBJECT_PREFIX|] + subject[|SUBJECT_PREFIX|..];
    }
  }

  /** The relay takes the next message off its own bus: a local one goes out, one from the uplink goes nowhere. */
  function RelayOut(node: Node): (Node, Option<Wire>)
    requires node.cursor < |node.bus|
  {
    var e := node.bus[node.cursor];
    var next := node.(cursor := node.cursor + 1);
    if e.msg.fromUplink then (next, None)
    else (next.(relayed := node.relayed + [node.cursor]),
          Some(Wire(Subject(e.msg.topic), Envelope(node.name, e.msg.data), e.stamp)))
  }

  /** The relay takes one message off the transport. */
  function RelayIn(node: Node, wire: Wire): Node {
    var topic := Topic(wire.subject);
    if topic.None? || SameName(wire.env.originNode, node.name) then node
    else node.(bus := node.bus +
        [Entry(BroadcastMsg(topic.value, wire.env.data, "uplink:" + wire.env.originNode, true), wire.stamp)])
  }

  function TakeIn(node: Node, sender: nat): Node
    requires sender < |node.inbox| && node.inbox[sender] != []
  {
    RelayIn(node.(inbox := node.inbox[sender := node.inbox[sender][1..]]), node.inbox[sender][0])
  }

  datatype Action =
    | Publish(n: nat, topic: string, data: Data, from: string)  // a client, or the presence broadcaster
    | Out(n: nat, reach: set<nat>)          // relay out; the transport gets it to `reach`, the sender included or not
    | In(n: nat, sender: nat)
    | Lag(n: nat, to: nat)                  // the relay's receiver was overtaken

  predicate Enabled(net: Net, a: Action) {
    a.n < |net| &&
    match a
    case Publish(_, _, _, _) => true
    case Out(n, _) => net[n].cursor < |net[n].bus|
    case In(n, sender) => sender < |net[n].inbox| && net[n].inbox[sender] != []
    case Lag(n, to) => net[n].cursor < to <= |net[n].bus|
  }

  function Deliver(node: Node, sender: nat, wire: Wire): Node {
    if sender < |node.inbox| then node.(inbox := node.inbox[sender := node.inbox[sender] + [wire]]) else node
  }

  /** Node `i` after node `n` has relayed a message out. */
  function AfterOut(net: Net, n: nat, reach: set<nat>, i: nat): Node
    requires n < |net| && i < |net| && net[n].cursor < |net[n].bus|
  {
    var r := RelayOut(net[n]);
    var node := if i == n then r.0 else net[i];
    if r.1.Some? && i in reach then Deliver(node, n, r.1.value) else node
  }

  function Step(net: Net, a: Action): (next: Net)
    requires Enabled(net, a)
    ensures |next| == |net|
  {
    match a
    case Publish(n, topic, data, from) =>
      net[n := net[n].(bus := net[n].bus + [Entry(BroadcastMsg(topic, data, from, false), Stamp(n, |net[n].bus|))])]
    case Out(n, reach) =>
      seq(|net|, i requires 0 <= i < |net| => AfterOut(net, n, reach, i))
    case In(n, sender) => net[n := TakeIn(net[n], sender)]
    case Lag(n, to) => net[n := net[n].(cursor := to)]
  }

  /** Every daemon starts with nothing on its bus and nothing in transit. */
  predicate Initial(net: Net) {
    forall n :: 0 <= n < |net| ==>
      && net[n].bus == [] && net[n].cursor == 0 && net[n].relayed == []
      && |net[n].inbox| == |net| && forall o :: 0 <= o < |net| ==> net[n].inbox[o] == []
  }

  ghost predicate Run(nets: seq<Net>, acts: seq<Action>) {
    && |nets| == |acts| + 1 && Initial(nets[0])
    && forall i | 0 <= i < |acts| :: Stepped(nets, acts, i)
  }

  ghost predicate Stepped(nets: seq<Net>, acts: seq<Action>, i: nat)
    requires i < |acts| && |nets| == |acts| + 1
  {
    Enabled(nets[i], acts[i]) && nets[i + 1] == Step(nets[i], acts[i])
  }

  // ----- what reached a node from an origin, in the order it got there

  /** The places, on the origin's bus, of the messages that came to `bus` from `origin` over the uplink. */
  function Arrived(bus: seq<Entry>, origin: nat): seq<nat> {
    if bus == [] then [] else
    var last := bus[|bus| - 1];
    Arrived(bus[..|bus| - 1], origin) +
        (if last.msg.fromUplink && last.stamp.origin == origin then [last.stamp.index] else [])
  }

  function InTransit(queue: seq<Wire>): (r: seq<nat>)
    ensures |r| == |queue| && forall i :: 0 <= i < |queue| ==> r[i] == queue[i].stamp.index
  {
    seq(|queue|, i requires 0 <= i < |queue| => queue[i].stamp.index)
  }

  /** The places of the local messages on a bus, in order. */
  function Locals(bus: seq<Entry>): seq<nat> {
    if bus == [] then [] else
    Locals(bus[..|bus| - 1]) + (if bus[|bus| - 1].msg.fromUplink then [] else [|bus| - 1])
  }

  predicate Increasing(s: seq<nat>) {
    forall i, j :: 0 <= i < j < |s| ==> s[i] < s[j]
  }

  predicate Below(s: seq<nat>, bound: nat) {
    forall i :: 0 <= i < |s| ==> s[i] < bound
  }

  predicate Among(s: seq<nat>, all: seq<nat>) {
    forall i :: 0 <= i < |s| ==> s[i] in all
  }

  /** What has gone from `o` towards `r`, arrived first, then on the way. */
  function Pipeline(net: Net, o: nat, r: nat): seq<nat>
    requires o < |net| && r < |net| && o < |net[r].inbox|
  {
    Arrived(net[r].bus, o) + InTransit(net[r].inbox[o])
  }

  /** `e` is what the local message `source` of node `name` becomes elsewhere. */
  predicate CopyOf(e: BroadcastMsg, source: BroadcastMsg, name: string) {
    !source.fromUplink && e == BroadcastMsg(source.topic, source.data, "uplink:" + name, true)
  }

  predicate WireOf(w: Wire, net: Net, o: nat) {
    && o < |net| && w.stamp.origin == o && w.stamp.index < |net[o].bus|
    && var source := net[o].bus[w.stamp.index].msg;
       !source.fromUplink && w.subject == Subject(source.topic) && w.env == Envelope(net[o].name, source.data)
  }

  /** A bus entry is a local message in its own place, or a copy of another node's local message. */
  predicate EntryOf(net: Net, n: nat, k: nat)
    requires n < |net| && k < |net[n].bus|
  {
    var e := net[n].bus[k];
    if e.msg.fromUplink then
      && e.stamp.origin < |net| && e.stamp.origin != n && !SameName(net[e.stamp.origin].name, net[n].name)
      && e.stamp.index < |net[e.stamp.origin].bus|
      && CopyOf(e.msg, net[e.stamp.origin].bus[e.stamp.index].msg, net[e.stamp.origin].name)
    else e.stamp == Stamp(n, k)
  }

  ghost predicate Sound(net: Net) {
    && (forall n :: 0 <= n < |net| ==> |net[n].inbox| == |net| && net[n].cursor <= |net[n].bus|)
    && (forall n, k :: 0 <= n < |net| && 0 <= k < |net[n].bus| ==> EntryOf(net, n, k))
    && (forall r, o, i :: 0 <= r < |net| && 0 <= o < |net| && 0 <= i < |net[r].inbox[o]| ==>
          WireOf(net[r].inbox[o][i], net, o))
  }

  /** Nothing is relayed twice, out of order, or without being local. */
  ghost predicate FrugalNode(node: Node) {
    Increasing(node.relayed) && Below(node.relayed, node.cursor) && Among(node.relayed, Locals(node.bus))
  }

  ghost predicate FrugalPair(net: Net, o: nat, r: nat)
    requires o < |net| && r < |net| && o < |net[r].inbox|
  {
    !SameName(net[o].name, net[r].name) ==>
        Increasing(Pipeline(net, o, r)) && Among(Pipeline(net, o, r), net[o].relayed)
  }

  ghost predicate Frugal(net: Net) {
    && (forall n :: 0 <= n < |net| ==> |net[n].inbox| == |net| && FrugalNode(net[n]))
    && (forall o, r :: 0 <= o < |net| && 0 <= r < |net| ==> FrugalPair(net, o, r))
  }

  /** Buses only grow, names and sizes stay. */
  ghost predicate Grown(net: Net, next: Net) {
    && |next| == |net|
    && forall n :: 0 <= n < |net| ==>
        net[n].name == next[n].name && net[n].bus <= next[n].bus && |next[n].inbox| == |net[n].inbox|
  }

  lemma {:induction false} EntryStays(net: Net, next: Net, n: nat, k: nat)
    requires Grown(net, next) && n < |net| && k < |net[n].bus| && EntryOf(net, n, k)
    ensures EntryOf(next, n, k)
  {
    var e := net[n].bus[k];
    if e.msg.fromUplink {
      assert net[e.stamp.origin].bus <= next[e.stamp.origin].bus;
    }
  }

  lemma {:induction false} WireStays(net: Net, next: Net, w: Wire, o: nat)
    requires Grown(net, next) && WireOf(w, net, o)
    ensures WireOf(w, next, o)
  {
    assert net[o].bus <= next[o].bus;
  }

  lemma {:induction false} StepGrows(net: Net, a: Action)
    requires Enabled(net, a)
    ensures Grown(net, Step(net, a))
  {
    var next := Step(net, a);
    forall i | 0 <= i < |net|
      ensures net[i].name == next[i].name && net[i].bus <= next[i].bus && |next[i].inbox| == |net[i].inbox|
    {
      if a.Out? {
        assert next[i] == AfterOut(net, a.n, a.reach, i);
      }
    }
  }

  /** What is new on a bus after a step. */
  lemma {:induction false} NewEntry(net: Net, a: Action, n: nat, k: nat)
    requires Enabled(net, a) && Sound(net) && !a.Out? && n < |net| && |net[n].bus| <= k < |Step(net, a)[n].bus|
    ensures EntryOf(Step(net, a), n, k)
  {
    StepGrows(net, a);
    var next := Step(net, a);
    if a.In? {
      var w := net[n].inbox[a.sender][0];
      assert WireOf(w, net, a.sender);
      WireStays(net, next, w, a.sender);
      SubjectRoundTrips(net[a.sender].bus[w.stamp.index].msg.topic, w.subject);
    }
  }

  /** What a queue holds after a step was there before, or has just been relayed. */
  lemma {:induction false} QueueAfter(net: Net, a: Action, r: nat, o: nat, i: nat)
    requires Enabled(net, a) && Sound(net) && r < |net| && o < |net|
    requires |Step(net, a)[r].inbox| == |net| && i < |Step(net, a)[r].inbox[o]|
    ensures WireOf(Step(net, a)[r].inbox[o][i], Step(net, a), o)
  {
    StepGrows(net, a);
    var next := Step(net, a);
    var w := next[r].inbox[o][i];
    if a.Out? {
      assert next[r] == AfterOut(net, a.n, a.reach, r);
      if i < |net[r].inbox[o]| {
        assert w == net[r].inbox[o][i];
        WireStays(net, next, w, o);
      } else {
        assert o == a.n && EntryOf(net, o, net[o].cursor);
        assert net[o].bus <= next[o].bus;
      }
    } else if a.In? && r == a.n && o == a.sender {
      assert w == net[r].inbox[o][i + 1];
      WireStays(net, next, w, o);
    } else {
      assert w == net[r].inbox[o][i];
      WireStays(net, next, w, o);
    }
  }

  lemma {:induction false} StepSound(net: Net, a: Action)
    requires Enabled(net, a) && Sound(net)
    ensures Sound(Step(net, a))
  {
    var next := Step(net, a);
    StepGrows(net, a);
    forall n | 0 <= n < |next|
      ensures |next[n].inbox| == |next| && next[n].cursor <= |next[n].bus|
    {
      if a.Out? {
        assert next[n] == AfterOut(net, a.n, a.reach, n);
      }
    }
    forall n, k | 0 <= n < |next| && 0 <= k < |next[n].bus|
      ensures EntryOf(next, n, k)
    {
      if a.Out? || k < |net[n].bus| {
        assert a.Out? ==> next[n].bus == AfterOut(net, a.n, a.reach, n).bus == net[n].bus;
        EntryStays(net, next, n, k);
      } else {
        NewEntry(net, a, n, k);
      }
    }
    forall r, o, i | 0 <= r < |next| && 0 <= o < |next| && 0 <= i < |next[r].inbox[o]|
      ensures WireOf(next[r].inbox[o][i], next, o)
    {
      QueueAfter(net, a, r, o, i);
    }
  }

  lemma {:induction false} ArrivedAppend(bus: seq<Entry>, e: Entry, o: nat)
    ensures Arrived(bus + [e], o) ==
        Arrived(bus, o) + (if e.msg.fromUplink && e.stamp.origin == o then [e.stamp.index] else [])
  {
    assert (bus + [e])[..|bus|] == bus;
  }

  lemma {:induction false} LocalsAppend(bus: seq<Entry>, e: Entry)
    ensures Locals(bus + [e]) == Locals(bus) + (if e.msg.fromUplink then [] else [|bus|])
  {
    assert (bus + [e])[..|bus|] == bus;
  }

  lemma {:induction false} LocalsHold(bus: seq<Entry>, k: nat)
    requires k < |bus| && !bus[k].msg.fromUplink
    ensures k in Locals(bus)
    decreases |bus|
  {
    if k < |bus| - 1 {
      LocalsHold(bus[..|bus| - 1], k);
    }
  }

  lemma {:induction false} StepFrugalNode(net: Net, a: Action, n: nat)
    requires Enabled(net, a) && n < |net| && net[n].cursor <= |net[n].bus| && FrugalNode(net[n])
    ensures FrugalNode(Step(net, a)[n])
  {
    var node, next := net[n], Step(net, a)[n];
    if a.Out? {
      assert next == AfterOut(net, a.n, a.reach, n);
      if n == a.n && !node.bus[node.cursor].msg.fromUplink {
        LocalsHold(node.bus, node.cursor);
      }
    } else if next.bus != node.bus {
      LocalsAppend(node.bus, next.bus[|node.bus|]);
      assert next.bus == node.bus + [next.bus[|node.bus|]];
    }
  }

  /** Between nodes of different names, a step either leaves the pipeline as it is or puts what was just relayed at
      its end. */
  lemma {:induction false} StepPipeline(net: Net, a: Action, o: nat, r: nat)
    requires Enabled(net, a) && Sound(net) && o < |net| && r < |net| && !SameName(net[o].name, net[r].name)
    ensures o < |Step(net, a)[r].inbox|
    ensures
      var next := Step(net, a);
      if a.Out? && a.n == o && r in a.reach && !net[o].bus[net[o].cursor].msg.fromUplink
      then && Pipeline(next, o, r) == Pipeline(net, o, r) + [net[o].cursor]
           && next[o].relayed == net[o].relayed + [net[o].cursor]
      else Pipeline(next, o, r) == Pipeline(net, o, r) && net[o].relayed <= next[o].relayed
  {
    if a.Out? {
      OutStepPipeline(net, a.n, a.reach, o, r);
    } else {
      QuietPipeline(net, a, o, r);
    }
  }

  lemma {:induction false} QuietPipeline(net: Net, a: Action, o: nat, r: nat)
    requires Enabled(net, a) && !a.Out? && Sound(net) && o < |net| && r < |net|
    requires !SameName(net[o].name, net[r].name)
    ensures o < |Step(net, a)[r].inbox| && Pipeline(Step(net, a), o, r) == Pipeline(net, o, r)
    ensures net[o].relayed == Step(net, a)[o].relayed
  {
    var next := Step(net, a);
    if a.Publish? && a.n == r {
      ArrivedAppend(net[r].bus, next[r].bus[|net[r].bus|], o);
    } else if a.In? && a.n == r {
      InMoves(net, r, a.sender, o);
    }
  }

  lemma {:induction false} OutStepPipeline(net: Net, n: nat, reach: set<nat>, o: nat, r: nat)
    requires Enabled(net, Out(n, reach)) && Sound(net) && o < |net| && r < |net|
    requires !SameName(net[o].name, net[r].name)
    ensures o < |Step(net, Out(n, reach))[r].inbox|
    ensures
      var next := Step(net, Out(n, reach));
      if n == o && r in reach && !net[o].bus[net[o].cursor].msg.fromUplink
      then && Pipeline(next, o, r) == Pipeline(net, o, r) + [net[o].cursor]
           && next[o].relayed == net[o].relayed + [net[o].cursor]
      else Pipeline(next, o, r) == Pipeline(net, o, r) && net[o].relayed <= next[o].relayed
  {
    var next := Step(net, Out(n, reach));
    assert next[r] == AfterOut(net, n, reach, r) && next[o] == AfterOut(net, n, reach, o);
    assert EntryOf(net, n, net[n].cursor);
    OutPipeline(net, n, reach, o, r);
  }

  lemma {:induction false} OutPipeline(net: Net, n: nat, reach: set<nat>, o: nat, r: nat)
    requires n < |net| && o < |net| && r < |net| && o != r && net[n].cursor < |net[n].bus| && o < |net[r].inbox|
    requires !net[n].bus[net[n].cursor].msg.fromUplink ==> net[n].bus[net[n].cursor].stamp == Stamp(n, net[n].cursor)
    ensures
      var there, here := AfterOut(net, n, reach, r), AfterOut(net, n, reach, o);
      && there.bus == net[r].bus && |there.inbox| == |net[r].inbox|
      && if n == o && r in reach && !net[o].bus[net[o].cursor].msg.fromUplink
         then && InTransit(there.inbox[o]) == InTransit(net[r].inbox[o]) + [net[o].cursor]
              && here.relayed == net[o].relayed + [net[o].cursor]
         else there.inbox[o] == net[r].inbox[o] && net[o].relayed <= here.relayed
  {
    var there := AfterOut(net, n, reach, r);
    if n == o && r in reach && !net[o].bus[net[o].cursor].msg.fromUplink {
      assert there.inbox[o] == net[r].inbox[o] + [RelayOut(net[o]).1.value];
    }
  }

  /** Taking a message off the transport moves it from one end of the pipeline's joint to the other. */
  lemma {:induction false} InMoves(net: Net, r: nat, sender: nat, o: nat)
    requires Sound(net) && r < |net| && o < |net| && sender < |net| && net[r].inbox[sender] != []
    requires !SameName(net[o].name, net[r].name)
    ensures
      var node := TakeIn(net[r], sender);
      |node.inbox| == |net| &&
      Arrived(node.bus, o) + InTransit(node.inbox[o]) == Arrived(net[r].bus, o) + InTransit(net[r].inbox[o])
  {
    var before := net[r];
    var w := before.inbox[sender][0];
    assert WireOf(w, net, sender);
    SubjectRoundTrips(net[sender].bus[w.stamp.index].msg.topic, w.subject);
  }

  lemma {:induction false} RelayInArrives(node: Node, w: Wire, o: nat)
    ensures RelayIn(node, w).inbox == node.inbox
    ensures Arrived(RelayIn(node, w).bus, o) == Arrived(node.bus, o) +
      (if Topic(w.subject).Some? && !SameName(w.env.originNode, node.name) && w.stamp.origin == o
       then [w.stamp.index] else [])
  {
    var next := RelayIn(node, w);
    if next.bus != node.bus {
      ArrivedAppend(node.bus, next.bus[|node.bus|], o);
    }
  }

  lemma {:induction false} StepFrugal(net: Net, a: Action)
    requires Enabled(net, a) && Sound(net) && Frugal(net)
    ensures Frugal(Step(net, a))
  {
    var next := Step(net, a);
    StepSound(net, a);
    forall n | 0 <= n < |next|
      ensures FrugalNode(next[n])
    {
      StepFrugalNode(net, a, n);
    }
    forall o, r | 0 <= o < |next| && 0 <= r < |next|
      ensures FrugalPair(next, o, r)
    {
      StepGrows(net, a);
      assert FrugalPair(net, o, r) && FrugalNode(net[o]);
      if !SameName(net[o].name, net[r].name) {
        StepPipeline(net, a, o, r);
      }
    }
  }

  lemma {:induction false} Always(nets: seq<Net>, acts: seq<Action>, i: nat)
    requires Run(nets, acts) && i < |nets|
    ensures Sound(nets[i]) && Frugal(nets[i]) && |nets[i]| == |nets[0]|
  {
    if i == 0 {
    } else {
      Always(nets, acts, i - 1);
      assert Stepped(nets, acts, i - 1);
      StepSound(nets[i - 1], acts[i - 1]);
      StepFrugal(nets[i - 1], acts[i - 1]);
    }
  }

  lemma {:induction false} ArrivedHas(bus: seq<Entry>, o: nat, k: nat)
    requires k < |bus| && bus[k].msg.fromUplink && bus[k].stamp.origin == o
    ensures bus[k].stamp.index in Arrived(bus, o)
    decreases |bus|
  {
    if k < |bus| - 1 {
      ArrivedHas(bus[..|bus| - 1], o, k);
    }
  }

  lemma {:induction false} NothingArrived(bus: seq<Entry>, o: nat)
    requires forall k :: 0 <= k < |bus| ==> !(bus[k].msg.fromUplink && bus[k].stamp.origin == o)
    ensures Arrived(bus, o) == []
    decreases |bus|
  {
    if bus != [] {
      NothingArrived(bus[..|bus| - 1], o);
    }
  }

  /** No loop and no amplification, in any run, however the transport drops, delays or interleaves, whatever the names:
      each local message is put on the transport at most once and in order; from each origin a node gets each
      message at most once and in order, with the topic and payload it was published with; nothing a node
      published ever comes back to its own bus, nor to any node of the same name. */
  lemma {:induction false} NoLoopNoAmplification(nets: seq<Net>, acts: seq<Action>, i: nat, o: nat, r: nat)
    requires Run(nets, acts) && i < |nets| && o < |nets[i]| && r < |nets[i]|
    ensures Increasing(nets[i][o].relayed) && Among(nets[i][o].relayed, Locals(nets[i][o].bus))
    ensures Increasing(Arrived(nets[i][r].bus, o)) && Among(Arrived(nets[i][r].bus, o), nets[i][o].relayed)
    ensures SameName(nets[i][o].name, nets[i][r].name) ==> Arrived(nets[i][r].bus, o) == []
    ensures forall k :: 0 <= k < |nets[i][r].bus| && nets[i][r].bus[k].msg.fromUplink ==>
              var e := nets[i][r].bus[k];
              && e.stamp.origin < |nets[i]| && e.stamp.index < |nets[i][e.stamp.origin].bus|
              && CopyOf(e.msg, nets[i][e.stamp.origin].bus[e.stamp.index].msg, nets[i][e.stamp.origin].name)
  {
    Always(nets, acts, i);
    var net := nets[i];
    assert FrugalNode(net[o]) && FrugalPair(net, o, r);
    forall k | 0 <= k < |net[r].bus|
      ensures EntryOf(net, r, k)
      ensures net[r].bus[k].msg.fromUplink ==>
                var e := net[r].bus[k];
                && e.stamp.origin < |net| && !SameName(net[e.stamp.origin].name, net[r].name)
                && e.stamp.index < |net[e.stamp.origin].bus|
                && CopyOf(e.msg, net[e.stamp.origin].bus[e.stamp.index].msg, net[e.stamp.origin].name)
    {
    }
    if SameName(net[o].name, net[r].name) {
      NothingArrived(net[r].bus, o);
    } else {
      var arrived := Arrived(net[r].bus, o);
      assert forall j | 0 <= j < |arrived| :: arrived[j] == Pipeline(net, o, r)[j];
    }
  }

  // ----- exactly once when nothing lags or is lost

  predicate Lossless(a: Action, size: nat) {
    !a.Lag? && (a.Out? ==> forall r :: 0 <= r < size ==> r in a.reach)
  }

  /** All that was relayed went everywhere, and all that was local was relayed. */
  ghost predicate Full(net: Net) {
    && (forall n :: 0 <= n < |net| ==> FullNode(net[n]))
    && (forall o, r :: 0 <= o < |net| && 0 <= r < |net| ==> FullPair(net, o, r))
  }

  ghost predicate FullPair(net: Net, o: nat, r: nat)
    requires o < |net| && r < |net|
  {
    o < |net[r].inbox| && (!SameName(net[o].name, net[r].name) ==> Pipeline(net, o, r) == net[o].relayed)
  }

  predicate FullNode(node: Node) {
    node.cursor <= |node.bus| && node.relayed == Locals(node.bus[..node.cursor])
  }

  lemma {:induction false} StepFullNode(net: Net, a: Action, n: nat)
    requires Enabled(net, a) && !a.Lag? && n < |net| && FullNode(net[n])
    ensures FullNode(Step(net, a)[n])
  {
    var node, next := net[n], Step(net, a)[n];
    if a.Out? {
      assert next == AfterOut(net, a.n, a.reach, n);
      if n == a.n {
        PassedFullNode(node);
      }
    } else {
      assert next.bus[..node.cursor] == node.bus[..node.cursor];
    }
  }

  lemma {:induction false} PassedFullNode(node: Node)
    requires FullNode(node) && node.cursor < |node.bus|
    ensures FullNode(RelayOut(node).0)
  {
    assert node.bus[..node.cursor + 1] == node.bus[..node.cursor] + [node.bus[node.cursor]];
    LocalsAppend(node.bus[..node.cursor], node.bus[node.cursor]);
  }

  lemma {:induction false} StepFull(net: Net, a: Action)
    requires Enabled(net, a) && Sound(net) && Full(net) && Lossless(a, |net|)
    ensures Full(Step(net, a))
  {
    var next := Step(net, a);
    StepGrows(net, a);
    forall n | 0 <= n < |next|
      ensures FullNode(next[n])
    {
      StepFullNode(net, a, n);
    }
    forall o, r | 0 <= o < |next| && 0 <= r < |next|
      ensures FullPair(next, o, r)
    {
      assert FullPair(net, o, r);
      if !SameName(net[o].name, net[r].name) {
        StepPipeline(net, a, o, r);
        if !(a.Out? && a.n == o && !net[o].bus[net[o].cursor].msg.fromUplink) {
          RelayedOnlyByOut(net, a, o);
        }
      }
    }
  }

  lemma {:induction false} RelayedOnlyByOut(net: Net, a: Action, o: nat)
    requires Enabled(net, a) && o < |net|
    requires !(a.Out? && a.n == o && !net[o].bus[net[o].cursor].msg.fromUplink)
    ensures Step(net, a)[o].relayed == net[o].relayed
  {
    if a.Out? {
      assert Step(net, a)[o] == AfterOut(net, a.n, a.reach, o);
    }
  }

  lemma {:induction false} LosslessIsFull(nets: seq<Net>, acts: seq<Action>, i: nat)
    requires Run(nets, acts) && i < |nets|
    requires forall k :: 0 <= k < i ==> Lossless(acts[k], |nets[0]|)
    ensures Full(nets[i])
  {
    if i == 0 {
    } else {
      LosslessIsFull(nets, acts, i - 1);
      Always(nets, acts, i - 1);
      assert Stepped(nets, acts, i - 1);
      StepFull(nets[i - 1], acts[i - 1]);
    }
  }

  /** Nothing is left to relay and nothing is in transit. */
  predicate Drained(net: Net) {
    && (forall n :: 0 <= n < |net| ==> net[n].cursor == |net[n].bus|)
    && (forall n, o :: 0 <= n < |net| && 0 <= o < |net[n].inbox| ==> net[n].inbox[o] == [])
  }

  /** If nothing lags or is lost, then once the network has drained a node has got exactly the local messages of
      another, each once and in order, if their names differ up to ASCII case; and none at all if they do not. */
  lemma {:induction false} ExactlyOnceIffNamesDiffer(nets: seq<Net>, acts: seq<Action>, i: nat, o: nat, r: nat)
    requires Run(nets, acts) && i < |nets| && o < |nets[i]| && r < |nets[i]|
    requires forall k :: 0 <= k < i ==> Lossless(acts[k], |nets[0]|)
    requires Drained(nets[i])
    ensures Arrived(nets[i][r].bus, o) == if SameName(nets[i][o].name, nets[i][r].name) then []
        else Locals(nets[i][o].bus)
  {
    NoLoopNoAmplification(nets, acts, i, o, r);
    LosslessIsFull(nets, acts, i);
    Always(nets, acts, i);
    var net := nets[i];
    assert FullPair(net, o, r);
    assert net[o].bus[..net[o].cursor] == net[o].bus;
    assert InTransit(net[r].inbox[o]) == [];
  }

  /** For names as they are configured, in small letters, that is: exactly if the names are not the same string. */
  lemma {:induction false} ExactlyOnceForDistinctNames(nets: seq<Net>, acts: seq<Action>, i: nat, o: nat, r: nat)
    requires Run(nets, acts) && i < |nets| && o < |nets[i]| && r < |nets[i]|
    requires forall k :: 0 <= k < i ==> Lossless(acts[k], |nets[0]|)
    requires Drained(nets[i]) && NoCapitals(nets[i][o].name) && NoCapitals(nets[i][r].name)
    ensures Arrived(nets[i][r].bus, o) == if nets[i][o].name == nets[i][r].name then [] else Locals(nets[i][o].bus)
  {
    ExactlyOnceIffNamesDiffer(nets, acts, i, o, r);
    SameNameIsCaseBlind(nets[i][o].name, nets[i][r].name);
  }

  // ----- a finite number of publishes drains in bounded steps

  function Sum(s: seq<nat>): nat {
    if s == [] then 0 else Sum(s[..|s| - 1]) + s[|s| - 1]
  }

  lemma {:induction false} SumUpdate(s: seq<nat>, i: nat, v: nat)
    requires i < |s|
    ensures Sum(s[i := v]) + s[i] == Sum(s) + v
    decreases |s|
  {
    var front := s[..|s| - 1];
    if i < |s| - 1 {
      SumUpdate(front, i, v);
      assert s[i := v][..|s| - 1] == front[i := v];
    } else {
      assert s[i := v][..|s| - 1] == front;
    }
  }

  /** Each no more than it was, or each by one at most. */
  lemma {:induction false} SumGrows(s: seq<nat>, t: seq<nat>, more: bool)
    requires |s| == |t| && forall i :: 0 <= i < |s| ==> t[i] <= s[i] + (if more then 1 else 0)
    ensures Sum(t) <= Sum(s) + (if more then |s| else 0)
    decreases |s|
  {
    if s != [] {
      SumGrows(s[..|s| - 1], t[..|t| - 1], more);
    }
  }

  /** What the messages of a bus may still cost: a local one a relay and, at each node, an arrival and a pass;
      one from the uplink a pass. */
  function Backlog(bus: seq<Entry>, cursor: nat, size: nat): nat
    decreases |bus|
  {
    if cursor >= |bus| then 0 else
    Backlog(bus[..|bus| - 1], cursor, size) + (if bus[|bus| - 1].msg.fromUplink then 1 else 2 * size + 1)
  }

  function Queued(node: Node): nat {
    Sum(seq(|node.inbox|, o requires 0 <= o < |node.inbox| => |node.inbox[o]|))
  }

  function Backlogs(net: Net): seq<nat> {
    seq(|net|, n requires 0 <= n < |net| => Backlog(net[n].bus, net[n].cursor, |net|))
  }

  function Queues(net: Net): seq<nat> {
    seq(|net|, n requires 0 <= n < |net| => Queued(net[n]))
  }

  /** The measure: it bounds the steps the network can still take without a new publish. */
  function Work(net: Net): nat {
    Sum(Backlogs(net)) + 2 * Sum(Queues(net))
  }

  lemma {:induction false} BacklogPasses(bus: seq<Entry>, cursor: nat, size: nat)
    requires cursor < |bus|
    ensures Backlog(bus, cursor, size) ==
        Backlog(bus, cursor + 1, size) + (if bus[cursor].msg.fromUplink then 1 else 2 * size + 1)
    decreases |bus|
  {
    if cursor < |bus| - 1 {
      BacklogPasses(bus[..|bus| - 1], cursor, size);
    }
  }

  lemma {:induction false} BacklogSkips(bus: seq<Entry>, cursor: nat, to: nat, size: nat)
    requires cursor < to <= |bus|
    ensures Backlog(bus, to, size) < Backlog(bus, cursor, size)
    decreases |bus| - cursor
  {
    BacklogPasses(bus, cursor, size);
    if cursor + 1 < to {
      BacklogSkips(bus, cursor + 1, to, size);
    }
  }

  lemma {:induction false} BacklogAppend(bus: seq<Entry>, e: Entry, cursor: nat, size: nat)
    requires cursor <= |bus|
    ensures Backlog(bus + [e], cursor, size) ==
        Backlog(bus, cursor, size) + (if e.msg.fromUplink then 1 else 2 * size + 1)
  {
    assert (bus + [e])[..|bus|] == bus;
  }

  lemma {:induction false} QueuedUpdate(node: Node, o: nat, queue: seq<Wire>)
    requires o < |node.inbox|
    ensures Queued(node.(inbox := node.inbox[o := queue])) + |node.inbox[o]| == Queued(node) + |queue|
  {
    var sizes := seq(|node.inbox|, i requires 0 <= i < |node.inbox| => |node.inbox[i]|);
    var next := node.(inbox := node.inbox[o := queue]);
    assert seq(|next.inbox|, i requires 0 <= i < |next.inbox| => |next.inbox[i]|) == sizes[o := |queue|];
    SumUpdate(sizes, o, |queue|);
  }

  lemma {:induction false} OutWorks(net: Net, n: nat, reach: set<nat>)
    requires Sound(net) && Enabled(net, Out(n, reach))
    ensures Work(Step(net, Out(n, reach))) < Work(net)
  {
    var next := Step(net, Out(n, reach));
    var size := |net|;
    var node := net[n];
    BacklogPasses(node.bus, node.cursor, size);
    forall i | 0 <= i < size
      ensures next[i] == AfterOut(net, n, reach, i)
      ensures Queues(next)[i] <= Queues(net)[i] + (if node.bus[node.cursor].msg.fromUplink then 0 else 1)
    {
      OutQueues(net, n, reach, i);
    }
    SumGrows(Queues(net), Queues(next), !node.bus[node.cursor].msg.fromUplink);
    assert Backlogs(next) == Backlogs(net)[n := Backlog(node.bus, node.cursor + 1, size)];
    SumUpdate(Backlogs(net), n, Backlog(node.bus, node.cursor + 1, size));
  }

  lemma {:induction false} OutQueues(net: Net, n: nat, reach: set<nat>, i: nat)
    requires Enabled(net, Out(n, reach)) && i < |net|
    ensures Queued(AfterOut(net, n, reach, i)) <=
            Queued(net[i]) + (if net[n].bus[net[n].cursor].msg.fromUplink then 0 else 1)
  {
    var r := RelayOut(net[n]);
    var node := if i == n then r.0 else net[i];
    assert Queued(node) == Queued(net[i]);
    if r.1.Some? && i in reach && n < |node.inbox| {
      QueuedUpdate(node, n, node.inbox[n] + [r.1.value]);
    }
  }

  lemma {:induction false} InWorks(net: Net, n: nat, sender: nat)
    requires Sound(net) && Enabled(net, In(n, sender))
    ensures Work(Step(net, In(n, sender))) < Work(net)
  {
    var next := Step(net, In(n, sender));
    var size := |net|;
    var node, after := net[n], next[n];
    QueuedUpdate(node, sender, node.inbox[sender][1..]);
    assert Queued(after) == Queued(node) - 1;
    if after.bus != node.bus {
      BacklogAppend(node.bus, after.bus[|node.bus|], node.cursor, size);
    }
    assert Backlog(after.bus, after.cursor, size) <= Backlog(node.bus, node.cursor, size) + 1;
    assert Queues(next) == Queues(net)[n := Queued(after)];
    SumUpdate(Queues(net), n, Queued(after));
    assert Backlogs(next) == Backlogs(net)[n := Backlog(after.bus, after.cursor, size)];
    SumUpdate(Backlogs(net), n, Backlog(after.bus, after.cursor, size));
  }

  lemma {:induction false} LagWorks(net: Net, n: nat, to: nat)
    requires Enabled(net, Lag(n, to))
    ensures Work(Step(net, Lag(n, to))) < Work(net)
  {
    var next := Step(net, Lag(n, to));
    BacklogSkips(net[n].bus, net[n].cursor, to, |net|);
    assert Queues(next) == Queues(net);
    assert Backlogs(next) == Backlogs(net)[n := Backlog(net[n].bus, to, |net|)];
    SumUpdate(Backlogs(net), n, Backlog(net[n].bus, to, |net|));
  }

  /** Every step but a publish uses up work, so without publishes from `i` on the network takes at most
      `Work` more steps: no message circulates. */
  lemma {:induction false} DrainsInBoundedSteps(nets: seq<Net>, acts: seq<Action>, i: nat, j: nat)
    requires Run(nets, acts) && i <= j < |nets|
    requires forall k :: i <= k < j ==> !acts[k].Publish?
    ensures Work(nets[j]) + (j - i) <= Work(nets[i])
    decreases j
  {
    if i < j {
      DrainsInBoundedSteps(nets, acts, i, j - 1);
      Always(nets, acts, j - 1);
      assert Stepped(nets, acts, j - 1);
      match acts[j - 1]
      case Out(n, reach) => OutWorks(nets[j - 1], n, reach);
      case In(n, sender) => InWorks(nets[j - 1], n, sender);
      case Lag(n, to) => LagWorks(nets[j - 1], n, to);
    }
  }

  /** One local publish costs a fixed amount of work: 2N + 1 for N nodes. */
  lemma {:induction false} PublishCosts(net: Net, n: nat, topic: string, data: Data, from: string)
    requires Sound(net) && n < |net|
    ensures Work(Step(net, Action.Publish(n, topic, data, from))) == Work(net) + 2 * |net| + 1
  {
    var next := Step(net, Action.Publish(n, topic, data, from));
    var e := Entry(BroadcastMsg(topic, data, from, false), Stamp(n, |net[n].bus|));
    BacklogAppend(net[n].bus, e, net[n].cursor, |net|);
    assert Queues(next) == Queues(net);
    assert Backlogs(next) == Backlogs(net)[n := Backlog(next[n].bus, next[n].cursor, |net|)];
    SumUpdate(Backlogs(net), n, Backlog(next[n].bus, next[n].cursor, |net|));
  }

  // ----- the relay loop itself

  /** What the select loop finds ready: its receiver, its receiver with a gap, the transport, or the end of either. */
  datatype Ready = Local | Missed(to: nat) | Remote(sender: nat) | Closed

  /** One node after the relay has served `ready` in order, and what it has put on the transport. */
  function Relayed(node: Node, ready: seq<Ready>): (Node, seq<Wire>)
    decreases |ready|
  {
    if ready == [] || ready[0].Closed? then (node, []) else
    var (next, out) := RelayTurn(node, ready[0]);
    var rest := Relayed(next, ready[1..]);
    (rest.0, (if out.Some? then [out.value] else []) + rest.1)
  }

  function RelayTurn(node: Node, r: Ready): (Node, Option<Wire>) {
    match r
    case Local => if node.cursor < |node.bus| then RelayOut(node) else (node, None)
    case Missed(to) => (if node.cursor < to <= |node.bus| then node.(cursor := to) else node, None)
    case Remote(sender) =>
      (if sender < |node.inbox| && node.inbox[sender] != [] then TakeIn(node, sender) else node, None)
    case Closed => (node, None)
  }

  class Relay {
    const name: string
    var bus: seq<Entry>
    var cursor: nat
    var inbox: seq<seq<Wire>>
    var relayed: seq<nat>     // history

    constructor (node: Node)
      ensures Contents() == node
    {
      name, bus, cursor, inbox, relayed := node.name, node.bus, node.cursor, node.inbox, node.relayed;
    }

    ghost function Contents(): Node
      reads this
    {
      Node(name, bus, cursor, inbox, relayed)
    }

    method TakeLocal() returns (out: Option<Wire>)
      requires cursor < |bus|
      modifies this`cursor, this`relayed
      ensures (Contents(), out) == RelayOut(old(Contents()))
    {
      var e := bus[cursor];
      out := None;
      if !e.msg.fromUplink {
        out := Some(Wire(SUBJECT_PREFIX + e.msg.topic, Envelope(name, e.msg.data), e.stamp));
        relayed := relayed + [cursor];
      }
      cursor := cursor + 1;
    }

    method TakeRemote(sender: nat)
      requires sender < |inbox| && inbox[sender] != []
      modifies this`bus, this`inbox
      ensures Contents() == TakeIn(old(Contents()), sender)
    {
      var wire := inbox[sender][0];
      inbox := inbox[sender := inbox[sender][1..]];
      var topic := Topic(wire.subject);
      if topic.Some? && !SameName(wire.env.originNode, name) {
        bus := bus + [Entry(BroadcastMsg(topic.value, wire.env.data, "uplink:" + wire.env.originNode, true),
            wire.stamp)];
      }
    }

    /** The select loop, until one side closes. */
    method Serve(ready: seq<Ready>) returns (sent: seq<Wire>)
      modifies this
      ensures (Contents(), sent) == Relayed(old(Contents()), ready)
    {
      sent := [];
      var i := 0;
      ghost var goal := Relayed(Contents(), ready);
      assert ready[0..] == ready;
      while i < |ready| && !ready[i].Closed?
        invariant 0 <= i <= |ready|
        invariant goal.0 == Relayed(Contents(), ready[i..]).0
        invariant goal.1 == sent + Relayed(Contents(), ready[i..]).1
      {
        assert ready[i..][0] == ready[i] && ready[i..][1..] == ready[i + 1..];
        ghost var turn, was := RelayTurn(Contents(), ready[i]), sent;
        match ready[i] {
          case Local =>
            if cursor < |bus| {
              var out := TakeLocal();
              sent := sent + (if out.Some? then [out.value] else []);
            }
          case Missed(to) =>
            if cursor < to <= |bus| {
              cursor := to;
            }
          case Remote(sender) =>
            if sender < |inbox| && inbox[sender] != [] {
              TakeRemote(sender);
            }
        }
        assert Contents() == turn.0 && sent == was + (if turn.1.Some? then [turn.1.value] else []);
        i := i + 1;
      }
      assert Relayed(Contents(), ready[i..]) == (Contents(), []);
      assert goal.1 == sent;
    }
  }
}
