/**
 What each desk records, what it publishes, and what the broker was last told, across outages. A
 decision and the publish it leads to are one step here; MirrorSplit takes them apart.
 */
module Mirror {
  import opened Options
  import opened Topics
  import opened Config
  import opened ThrottleSpec

  const ONLINE := "online"
  const OFFLINE := "offline"

  /** The stateMu fields of a desk, with everything its throttle has been through. */
  datatype Desk = Desk(ops: seq<Op>, height: Option<int>, base: Option<int>, online: bool)

  const NEW_DESK := Desk([], None, None, false)

  datatype Message = Message(leaf: string, payload: string)

  datatype DeskOp =
    | Reading(v: int, force: bool, at: int)   // onReferenceOutput
    | FlushTick(at: int)                      // the serve loop's flush ticker
    | CameOnline(at: int)                     // setOnline(true), Reset, publish online
    | WentOffline                             // setOnline(false), publish offline
    | BaseRead(v: int)                        // onBaseOffset

  function ThrottleOf(min: int, d: Desk): ThrottleSpec.State {
    Run(min, FRESH, d.ops)
  }

  /** A throttle operation; a value it decides on is recorded as lastHeight and published. */
  function Throttled(min: int, d: Desk, op: Op): (Desk, seq<Message>) {
    var out := Decision(min, ThrottleOf(min, d), op);
    var after := d.(ops := d.ops + [op]);
    if out.Some? then (after.(height := out), [Message(LEAF_HEIGHT, FormatTenthsMM(out.value))]) else (after, [])
  }

  function Availability(online: bool): string {
    if online then ONLINE else OFFLINE
  }

  function DeskStep(min: int, d: Desk, op: DeskOp): (Desk, seq<Message>) {
    match op
    case Reading(v, force, at) => Throttled(min, d, Set(v, force, at))
    case FlushTick(at) => Throttled(min, d, Flush(at))
    case CameOnline(at) =>
      (Throttled(min, d, Reset(at)).0.(online := true), [Message(LEAF_AVAILABILITY, Availability(true))])
    case WentOffline => (d.(online := false), [Message(LEAF_AVAILABILITY, Availability(false))])
    case BaseRead(v) => (d.(base := Some(v)), [Message(LEAF_BASE_HEIGHT, FormatTenthsMM(v))])
  }

  /** republishState. */
  function Restated(d: Desk): seq<Message> {
    [Message(LEAF_AVAILABILITY, Availability(d.online))]
    + (if d.height.Some? then [Message(LEAF_HEIGHT, FormatTenthsMM(d.height.value))] else [])
    + (if d.base.Some? then [Message(LEAF_BASE_HEIGHT, FormatTenthsMM(d.base.value))] else [])
  }

  // The whole bridge and its broker

  /** said counts what republishAll has announced in this session: the bridge itself, then desk by desk. */
  datatype State = State(desks: seq<Desk>, conn: bool, said: nat, broker: map<string, string>)

  datatype Step =
    | DeskDoes(i: nat, op: DeskOp)
    | Connect
    | AnnounceNext                              // republishAll in the connect handler
    | Restate(i: nat)                           // republishState from a handler that is still running for an old session
    | Lose(will: bool)                          // the will may be published for us
    | Restart(kept: map<string, string>)        // the broker comes back with whatever it kept

  function Told(broker: map<string, string>, c: Settings, i: nat, msgs: seq<Message>): map<string, string>
    requires i < |c.desks|
    decreases |msgs|
  {
    if msgs == [] then broker
    else Told(broker[DeskTopic(c.metricTopicBase, c, i, msgs[0].leaf) := msgs[0].payload], c, i, msgs[1..])
  }

  /** publish: dropped unless the connection is open. */
  function Sent(s: State, c: Settings, i: nat, msgs: seq<Message>): State
    requires i < |c.desks|
  {
    if s.conn then s.(broker := Told(s.broker, c, i, msgs)) else s
  }

  predicate Enabled(c: Settings, s: State, step: Step) {
    && |s.desks| == |c.desks|
    && match step
       case DeskDoes(i, _) => i < |c.desks|
       case Connect => !s.conn
       case AnnounceNext => s.conn && s.said <= |c.desks|
       case Restate(i) => i < |c.desks|
       case Lose(_) => s.conn
       case Restart(_) => true
  }

  function Apply(c: Settings, min: int, s: State, step: Step): State
    requires Enabled(c, s, step)
  {
    match step
    case DeskDoes(i, op) =>
      var (d, msgs) := DeskStep(min, s.desks[i], op);
      Sent(s.(desks := s.desks[i := d]), c, i, msgs)
    case Connect => s.(conn := true, said := 0)
    case AnnounceNext =>
      if s.said == 0 then s.(said := 1, broker := s.broker[BridgeTopic(c) := ONLINE])
      else Sent(s.(said := s.said + 1), c, s.said - 1, Restated(s.desks[s.said - 1]))
    case Restate(i) => Sent(s, c, i, Restated(s.desks[i]))
    case Lose(will) => s.(conn := false, broker := if will then s.broker[BridgeTopic(c) := OFFLINE] else s.broker)
    case Restart(kept) => s.(conn := false, broker := kept)
  }

  predicate IsRun(c: Settings, min: int, s: State, steps: seq<Step>)
    decreases |steps|
  {
    steps == [] || (Enabled(c, s, steps[0]) && IsRun(c, min, Apply(c, min, s, steps[0]), steps[1..]))
  }

  function Exec(c: Settings, min: int, s: State, steps: seq<Step>): State
    requires IsRun(c, min, s, steps)
    decreases |steps|
  {
    if steps == [] then s else Exec(c, min, Apply(c, min, s, steps[0]), steps[1..])
  }

  predicate Starts(c: Settings, s: State) {
    !s.conn && s.desks == seq(|c.desks|, i => NEW_DESK)
  }

  // Agreement

  /** What desk d would have the broker show for a leaf; None when it has nothing on record. */
  function Recorded(d: Desk, leaf: string): Option<string> {
    if leaf == LEAF_AVAILABILITY then Some(Availability(d.online))
    else if leaf == LEAF_HEIGHT then (if d.height.Some? then Some(FormatTenthsMM(d.height.value)) else None)
    else if leaf == LEAF_BASE_HEIGHT then (if d.base.Some? then Some(FormatTenthsMM(d.base.value)) else None)
    else None
  }

  function Lookup(broker: map<string, string>, topic: string): Option<string> {
    if topic in broker then Some(broker[topic]) else None
  }

  /** The broker was last told what desk i has on record. */
  predicate AgreesOn(c: Settings, broker: map<string, string>, i: nat, d: Desk)
    requires i < |c.desks|
  {
    forall leaf <- METRIC_LEAVES :: Recorded(d, leaf).Some? ==>
      Lookup(broker, DeskTopic(c.metricTopicBase, c, i, leaf)) == Recorded(d, leaf)
  }

  /** What a desk has on record is what its throttle last let through. */
  predicate RecordInv(min: int, d: Desk) {
    var t := ThrottleOf(min, d);
    t.hasLast ==> d.height == Some(t.last)
  }

  ghost predicate Inv(c: Settings, min: int, s: State) {
    && |s.desks| == |c.desks|
    && (forall i: nat :: i < |s.desks| ==> RecordInv(min, s.desks[i]))
    && (s.conn && s.said > 0 ==> Lookup(s.broker, BridgeTopic(c)) == Some(ONLINE))
    && (s.conn ==> forall i: nat :: i < |s.desks| && i + 1 < s.said ==> AgreesOn(c, s.broker, i, s.desks[i]))
  }

  predicate MetricMessages(msgs: seq<Message>) {
    forall k :: 0 <= k < |msgs| ==> msgs[k].leaf in METRIC_LEAVES
  }

  /** What a list of messages says last about a leaf. */
  function LastSaid(msgs: seq<Message>, leaf: string): Option<string>
    decreases |msgs|
  {
    if msgs == [] then None
    else
      var later := LastSaid(msgs[1..], leaf);
      if later.Some? then later else if msgs[0].leaf == leaf then Some(msgs[0].payload) else None
  }

  /** A desk's messages set its own topics to what they say last, and reach no other topic. */
  lemma {:induction false} ToldEffect(broker: map<string, string>, c: Settings, i: nat, msgs: seq<Message>,
                                      j: nat, leaf: string)
    requires Accepted(c) && i < |c.desks| && j < |c.desks| && leaf in METRIC_LEAVES && MetricMessages(msgs)
    ensures Lookup(Told(broker, c, i, msgs), DeskTopic(c.metricTopicBase, c, j, leaf))
            == if i == j && LastSaid(msgs, leaf).Some? then LastSaid(msgs, leaf)
               else Lookup(broker, DeskTopic(c.metricTopicBase, c, j, leaf))
    ensures Lookup(Told(broker, c, i, msgs), BridgeTopic(c)) == Lookup(broker, BridgeTopic(c))
    decreases |msgs|
  {
    if msgs != [] {
      assert msgs[0].leaf in METRIC_LEAVES;
      DeskTopicsAreDistinct(c, c.metricTopicBase, i, msgs[0].leaf, j, leaf);
      BridgeTopicIsItsOwn(c, c.metricTopicBase, i, msgs[0].leaf);
      ToldEffect(broker[DeskTopic(c.metricTopicBase, c, i, msgs[0].leaf) := msgs[0].payload], c, i, msgs[1..], j, leaf);
    }
  }

  /** msgs say exactly what the step from d to after changed on record about a leaf. */
  predicate SaysChange(min: int, d: Desk, after: Desk, msgs: seq<Message>, leaf: string) {
    && RecordInv(min, after) && MetricMessages(msgs)
    && (LastSaid(msgs, leaf).Some? ==> LastSaid(msgs, leaf) == Recorded(after, leaf))
    && (LastSaid(msgs, leaf).None? ==> Recorded(after, leaf) == Recorded(d, leaf))
  }

  /** A single message about the one leaf that changed. */
  lemma OneLeafChanged(min: int, d: Desk, after: Desk, changed: string, leaf: string)
    requires RecordInv(min, after) && changed in METRIC_LEAVES && Recorded(after, changed).Some?
    requires leaf != changed ==> Recorded(after, leaf) == Recorded(d, leaf)
    ensures SaysChange(min, d, after, [Message(changed, Recorded(after, changed).value)], leaf)
  {
    var msgs := [Message(changed, Recorded(after, changed).value)];
    assert msgs[1..] == [];
  }

  lemma ThrottledSaysChanges(min: int, d: Desk, op: Op, leaf: string)
    requires RecordInv(min, d) && leaf in METRIC_LEAVES
    ensures var (after, msgs) := Throttled(min, d, op); SaysChange(min, d, after, msgs, leaf)
  {
    LeavesAreOneLevel();
    OneMore(min, FRESH, d.ops, op);
    var (after, msgs) := Throttled(min, d, op);
    if msgs != [] { OneLeafChanged(min, d, after, LEAF_HEIGHT, leaf); }
  }

  lemma CameOnlineSaysChanges(min: int, d: Desk, at: int, leaf: string)
    requires RecordInv(min, d) && leaf in METRIC_LEAVES
    ensures var (after, msgs) := DeskStep(min, d, CameOnline(at)); SaysChange(min, d, after, msgs, leaf)
  {
    LeavesAreOneLevel();
    OneMore(min, FRESH, d.ops, Reset(at));
    OneLeafChanged(min, d, DeskStep(min, d, CameOnline(at)).0, LEAF_AVAILABILITY, leaf);
  }

  /** Every desk step publishes exactly what it changed on record. */
  lemma DeskStepSaysChanges(min: int, d: Desk, op: DeskOp, leaf: string)
    requires RecordInv(min, d) && leaf in METRIC_LEAVES
    ensures var (after, msgs) := DeskStep(min, d, op); SaysChange(min, d, after, msgs, leaf)
  {
    LeavesAreOneLevel();
    match op
    case Reading(v, force, at) => ThrottledSaysChanges(min, d, Set(v, force, at), leaf);
    case FlushTick(at) => ThrottledSaysChanges(min, d, Flush(at), leaf);
    case CameOnline(at) => CameOnlineSaysChanges(min, d, at, leaf);
    case WentOffline => OneLeafChanged(min, d, d.(online := false), LEAF_AVAILABILITY, leaf);
    case BaseRead(v) => OneLeafChanged(min, d, d.(base := Some(v)), LEAF_BASE_HEIGHT, leaf);
  }

  lemma {:induction false} LastSaidJoins(a: seq<Message>, b: seq<Message>, leaf: string)
    ensures LastSaid(a + b, leaf) == if LastSaid(b, leaf).Some? then LastSaid(b, leaf) else LastSaid(a, leaf)
    decreases |a|
  {
    if a == [] {
      assert a + b == b;
    } else {
      assert (a + b)[1..] == a[1..] + b;
      LastSaidJoins(a[1..], b, leaf);
    }
  }

  /** At most one message, about one leaf. */
  lemma OneSaid(leaf: string, payload: Option<string>, other: string)
    ensures var msgs := if payload.Some? then [Message(leaf, payload.value)] else [];
            LastSaid(msgs, other) == if other == leaf then payload else None
  {
    if payload.Some? { assert [Message(leaf, payload.value)][1..] == []; }
  }

  /** republishState says everything on record. */
  lemma RestatedSaysRecord(d: Desk, leaf: string)
    requires leaf in METRIC_LEAVES
    ensures MetricMessages(Restated(d)) && LastSaid(Restated(d), leaf) == Recorded(d, leaf)
  {
    LeavesAreOneLevel();
    var avail := [Message(LEAF_AVAILABILITY, Availability(d.online))];
    var height := if d.height.Some? then [Message(LEAF_HEIGHT, FormatTenthsMM(d.height.value))] else [];
    var base := if d.base.Some? then [Message(LEAF_BASE_HEIGHT, FormatTenthsMM(d.base.value))] else [];
    LastSaidJoins(avail + height, base, leaf);
    LastSaidJoins(avail, height, leaf);
    OneSaid(LEAF_AVAILABILITY, Recorded(d, LEAF_AVAILABILITY), leaf);
    OneSaid(LEAF_HEIGHT, Recorded(d, LEAF_HEIGHT), leaf);
    OneSaid(LEAF_BASE_HEIGHT, Recorded(d, LEAF_BASE_HEIGHT), leaf);
  }

  // Runs

  /** Telling the broker what desk i changed keeps every agreement there was, and makes desk i's if all was said. */
  lemma ToldKeepsAgreement(c: Settings, min: int, broker: map<string, string>, i: nat, msgs: seq<Message>,
                           d: Desk, after: Desk)
    requires Accepted(c) && i < |c.desks|
    requires forall leaf <- METRIC_LEAVES :: SaysChange(min, d, after, msgs, leaf)
    ensures AgreesOn(c, broker, i, d) ==> AgreesOn(c, Told(broker, c, i, msgs), i, after)
  {
    forall leaf <- METRIC_LEAVES
      ensures AgreesOn(c, broker, i, d) && Recorded(after, leaf).Some? ==>
                Lookup(Told(broker, c, i, msgs), DeskTopic(c.metricTopicBase, c, i, leaf)) == Recorded(after, leaf)
    {
      ToldEffect(broker, c, i, msgs, i, leaf);
    }
  }

  lemma ToldKeepsOthers(c: Settings, broker: map<string, string>, i: nat, msgs: seq<Message>, j: nat, d: Desk)
    requires Accepted(c) && i < |c.desks| && j < |c.desks| && i != j && MetricMessages(msgs)
    ensures AgreesOn(c, Told(broker, c, i, msgs), j, d) <==> AgreesOn(c, broker, j, d)
  {
    forall leaf <- METRIC_LEAVES
      ensures Lookup(Told(broker, c, i, msgs), DeskTopic(c.metricTopicBase, c, j, leaf))
              == Lookup(broker, DeskTopic(c.metricTopicBase, c, j, leaf))
    {
      ToldEffect(broker, c, i, msgs, j, leaf);
    }
  }

  lemma RestatedAgrees(c: Settings, broker: map<string, string>, i: nat, d: Desk)
    requires Accepted(c) && i < |c.desks|
    ensures MetricMessages(Restated(d)) && AgreesOn(c, Told(broker, c, i, Restated(d)), i, d)
  {
    RestatedSaysRecord(d, LEAF_HEIGHT);
    forall leaf <- METRIC_LEAVES
      ensures Lookup(Told(broker, c, i, Restated(d)), DeskTopic(c.metricTopicBase, c, i, leaf)) == Recorded(d, leaf)
              || Recorded(d, leaf).None?
    {
      RestatedSaysRecord(d, leaf);
      ToldEffect(broker, c, i, Restated(d), i, leaf);
    }
  }

  lemma MirrorDeskStep(c: Settings, min: int, s: State, i: nat, op: DeskOp)
    requires Accepted(c) && Inv(c, min, s) && i < |c.desks|
    ensures Inv(c, min, Apply(c, min, s, DeskDoes(i, op)))
  {
    var t := Apply(c, min, s, DeskDoes(i, op));
    var d := s.desks[i];
    var (after, msgs) := DeskStep(min, d, op);
    forall leaf <- METRIC_LEAVES
      ensures SaysChange(min, d, after, msgs, leaf)
    {
      DeskStepSaysChanges(min, d, op, leaf);
    }
    assert LEAF_HEIGHT in METRIC_LEAVES;
    ToldKeepsAgreement(c, min, s.broker, i, msgs, d, after);
    ToldEffect(s.broker, c, i, msgs, i, LEAF_HEIGHT);
    forall j: nat | s.conn && j < |t.desks| && j + 1 < t.said
      ensures AgreesOn(c, t.broker, j, t.desks[j])
    {
      assert AgreesOn(c, s.broker, j, s.desks[j]);
      if j != i { ToldKeepsOthers(c, s.broker, i, msgs, j, s.desks[j]); }
    }
  }

  /** republishState, from whichever handler, keeps every agreement and makes desk i's. */
  lemma RestateKeeps(c: Settings, min: int, s: State, i: nat)
    requires Accepted(c) && Inv(c, min, s) && i < |c.desks|
    ensures var t := Sent(s, c, i, Restated(s.desks[i]));
            Inv(c, min, t) && (s.conn ==> AgreesOn(c, t.broker, i, t.desks[i]))
  {
    var t := Sent(s, c, i, Restated(s.desks[i]));
    RestatedAgrees(c, s.broker, i, s.desks[i]);
    ToldEffect(s.broker, c, i, Restated(s.desks[i]), i, LEAF_HEIGHT);
    forall j: nat | s.conn && j < |t.desks| && j + 1 < t.said
      ensures AgreesOn(c, t.broker, j, t.desks[j])
    {
      assert AgreesOn(c, s.broker, j, s.desks[j]);
      if j != i { ToldKeepsOthers(c, s.broker, i, Restated(s.desks[i]), j, s.desks[j]); }
    }
  }

  /** One more desk announced is one more agreement claimed. */
  lemma OneMoreSaid(c: Settings, min: int, s: State, i: nat)
    requires Inv(c, min, s) && s.conn && s.said == i + 1 && i < |c.desks| && AgreesOn(c, s.broker, i, s.desks[i])
    ensures Inv(c, min, s.(said := i + 2))
  {
    var t := s.(said := i + 2);
    forall j: nat | j < |t.desks| && j + 1 < t.said
      ensures AgreesOn(c, t.broker, j, t.desks[j])
    {
    }
  }

  /** The state of a desk is restated, and counted as said. */
  lemma AnnounceIsRestate(c: Settings, min: int, s: State)
    requires Enabled(c, s, AnnounceNext) && s.said > 0
    ensures var i := s.said - 1;
            Apply(c, min, s, AnnounceNext) == Sent(s, c, i, Restated(s.desks[i])).(said := i + 2)
  {
  }

  lemma AnnounceBridge(c: Settings, min: int, s: State)
    requires Inv(c, min, s) && Enabled(c, s, AnnounceNext) && s.said == 0
    ensures Inv(c, min, Apply(c, min, s, AnnounceNext))
  {
  }

  lemma AnnounceStep(c: Settings, min: int, s: State)
    requires Accepted(c) && Inv(c, min, s) && Enabled(c, s, AnnounceNext)
    ensures Inv(c, min, Apply(c, min, s, AnnounceNext))
  {
    if s.said == 0 {
      AnnounceBridge(c, min, s);
    } else {
      var i := s.said - 1;
      RestateKeeps(c, min, s, i);
      AnnounceIsRestate(c, min, s);
      OneMoreSaid(c, min, Sent(s, c, i, Restated(s.desks[i])), i);
    }
  }

  lemma MirrorStep(c: Settings, min: int, s: State, step: Step)
    requires Accepted(c) && Inv(c, min, s) && Enabled(c, s, step)
    ensures Inv(c, min, Apply(c, min, s, step))
  {
    match step
    case DeskDoes(i, op) => MirrorDeskStep(c, min, s, i, op);
    case Restate(i) => RestateKeeps(c, min, s, i);
    case AnnounceNext => AnnounceStep(c, min, s);
    case Connect =>
    case Lose(_) =>
    case Restart(_) =>
  }

  lemma {:induction false} MirrorRun(c: Settings, min: int, s: State, steps: seq<Step>)
    requires Accepted(c) && Inv(c, min, s) && IsRun(c, min, s, steps)
    ensures Inv(c, min, Exec(c, min, s, steps))
    decreases |steps|
  {
    if steps != [] {
      MirrorStep(c, min, s, steps[0]);
      MirrorRun(c, min, Apply(c, min, s, steps[0]), steps[1..]);
    }
  }

  /**
   The broker agrees again after any outage: whatever readings, drops, broker restarts and stray
   announcements came before, once the open session's republishAll has run, the broker was last
   told every desk's recorded availability, height and base height, and that the bridge is online.
   */
  lemma BrokerAgreesAfterOutages(c: Settings, min: int, start: State, steps: seq<Step>, i: nat)
    requires Accepted(c) && Starts(c, start) && IsRun(c, min, start, steps) && i < |c.desks|
    ensures var s := Exec(c, min, start, steps);
            && |s.desks| == |c.desks|
            && (s.conn && s.said == |c.desks| + 1 ==>
                  AgreesOn(c, s.broker, i, s.desks[i]) && Lookup(s.broker, BridgeTopic(c)) == Some(ONLINE))
            && (ThrottleOf(min, s.desks[i]).hasLast ==> s.desks[i].height == Some(ThrottleOf(min, s.desks[i]).last))
  {
    MirrorRun(c, min, start, steps);
    var s := Exec(c, min, start, steps);
    assert RecordInv(min, s.desks[i]);
  }

  /** End to end: with nothing pending, what the broker shows is the newest reading since the last connect. */
  lemma BrokerShowsNewestReading(c: Settings, min: int, start: State, steps: seq<Step>, i: nat)
    requires Accepted(c) && Starts(c, start) && IsRun(c, min, start, steps) && i < |c.desks|
    ensures var s := Exec(c, min, start, steps);
            && |s.desks| == |c.desks|
            && var newest := Newest(s.desks[i].ops);
               (&& s.conn && s.said == |c.desks| + 1
                && newest.Some? && !ThrottleOf(min, s.desks[i]).hasPending) ==>
                 Lookup(s.broker, DeskTopic(c.metricTopicBase, c, i, LEAF_HEIGHT)) == Some(FormatTenthsMM(newest.value))
  {
    BrokerAgreesAfterOutages(c, min, start, steps, i);
    var s := Exec(c, min, start, steps);
    NewestIsPendingOrLast(min, s.desks[i].ops);
    LeavesAreOneLevel();
    assert LEAF_HEIGHT in METRIC_LEAVES;
  }

  // Coming online

  function Ticked(min: int, d: Desk, ticks: seq<int>): Desk
    decreases |ticks|
  {
    if ticks == [] then d else Ticked(min, DeskStep(min, d, FlushTick(ticks[0])).0, ticks[1..])
  }

  lemma {:induction false} TicksReadNothing(min: int, d: Desk, ticks: seq<int>)
    requires Newest(d.ops).None?
    ensures Newest(Ticked(min, d, ticks).ops).None?
    decreases |ticks|
  {
    if ticks != [] {
      var next := DeskStep(min, d, FlushTick(ticks[0])).0;
      assert next.ops[..|next.ops| - 1] == d.ops;
      TicksReadNothing(min, next, ticks[1..]);
    }
  }

  /** The first reading after a connect is published even if it is the height that was published last. */
  lemma HeightIsReannounced(min: int, d: Desk, on: int, ticks: seq<int>, v: int, force: bool, at: int)
    ensures DeskStep(min, Ticked(min, DeskStep(min, d, CameOnline(on)).0, ticks), Reading(v, force, at)).1
            == [Message(LEAF_HEIGHT, FormatTenthsMM(v))]
  {
    var up := DeskStep(min, d, CameOnline(on)).0;
    TicksReadNothing(min, up, ticks);
    FirstReadingAfterReset(min, Ticked(min, up, ticks).ops, Set(v, force, at));
  }
}
