/** What a desk has on record, and what the broker shows for it, as a function of what has happened to the desk. */
module MirrorHistory {
  import opened Options
  import opened Topics
  import opened Config
  import opened ThrottleSpec
  import opened Mirror

  /** What desk i has done, in order. */
  function DoneBy(steps: seq<Mirror.Step>, i: nat): seq<DeskOp>
    decreases |steps|
  {
    if steps == [] then []
    else (if steps[0].DeskDoes? && steps[0].i == i then [steps[0].op] else []) + DoneBy(steps[1..], i)
  }

  /** The record of a new desk after what it has done. */
  function RecordAfter(min: int, done: seq<DeskOp>): Desk {
    if done == [] then NEW_DESK
    else DeskStep(min, RecordAfter(min, done[..|done| - 1]), done[|done| - 1]).0
  }

  /** The base height read last. */
  function NewestBase(done: seq<DeskOp>): Option<int> {
    if done == [] then None
    else
      var last := done[|done| - 1];
      if last.BaseRead? then Some(last.v) else NewestBase(done[..|done| - 1])
  }

  /** The desk has come online, and not gone offline since. */
  predicate IsUp(done: seq<DeskOp>) {
    done != [] &&
    var last := done[|done| - 1];
    if last.CameOnline? then true else if last.WentOffline? then false else IsUp(done[..|done| - 1])
  }

  /** What the throttle goes through: readings, flushes, and a reset whenever the desk comes online. */
  function ThrottleOps(done: seq<DeskOp>): seq<Op> {
    if done == [] then []
    else
      ThrottleOps(done[..|done| - 1]) +
      match done[|done| - 1]
      case Reading(v, force, at) => [Set(v, force, at)]
      case FlushTick(at) => [Flush(at)]
      case CameOnline(at) => [Reset(at)]
      case _ => []
  }

  lemma ThrottledRecord(min: int, d: Desk, op: Op)
    requires d.height == Last(Trace(min, FRESH, d.ops))
    ensures var (after, msgs) := Throttled(min, d, op);
            after.ops == d.ops + [op] && after.base == d.base && after.online == d.online
            && after.height == Last(Trace(min, FRESH, after.ops))
  {
    OneMore(min, FRESH, d.ops, op);
  }

  lemma RecordStep(min: int, d: Desk, before: seq<DeskOp>, op: DeskOp)
    requires d == Desk(ThrottleOps(before), Last(Trace(min, FRESH, ThrottleOps(before))), NewestBase(before), IsUp(before))
    ensures var done := before + [op];
            DeskStep(min, d, op).0
            == Desk(ThrottleOps(done), Last(Trace(min, FRESH, ThrottleOps(done))), NewestBase(done), IsUp(done))
  {
    assert (before + [op])[..|before|] == before;
    match op
    case Reading(v, force, at) => ThrottledRecord(min, d, Set(v, force, at));
    case FlushTick(at) => ThrottledRecord(min, d, Flush(at));
    case CameOnline(at) => ThrottledRecord(min, d, Reset(at));
    case _ => assert ThrottleOps(before) + [] == ThrottleOps(before);
  }

  /** The record: the height published last, ever; the base height read last; and whether the desk is up. */
  lemma {:induction false} RecordIs(min: int, done: seq<DeskOp>)
    ensures RecordAfter(min, done)
            == Desk(ThrottleOps(done), Last(Trace(min, FRESH, ThrottleOps(done))), NewestBase(done), IsUp(done))
  {
    if done != [] {
      var before, op := done[..|done| - 1], done[|done| - 1];
      assert done == before + [op];
      RecordIs(min, before);
      RecordStep(min, RecordAfter(min, before), before, op);
    }
  }

  lemma RecordGrows(min: int, done: seq<DeskOp>, op: DeskOp)
    ensures RecordAfter(min, done + [op]) == DeskStep(min, RecordAfter(min, done), op).0
  {
    assert (done + [op])[..|done|] == done;
  }

  lemma StepKeepsRecord(c: Settings, min: int, s: Mirror.State, step: Mirror.Step, i: nat, done: seq<DeskOp>)
    requires Mirror.Enabled(c, s, step) && i < |c.desks| && s.desks[i] == RecordAfter(min, done)
    ensures var t := Mirror.Apply(c, min, s, step);
            |t.desks| == |c.desks| && t.desks[i] == RecordAfter(min, done + DoneBy([step], i))
  {
    assert DoneBy([step], i) == if step.DeskDoes? && step.i == i then [step.op] else [];
    if step.DeskDoes? && step.i == i { RecordGrows(min, done, step.op); } else { assert done + [] == done; }
  }

  lemma DoneFirst(steps: seq<Mirror.Step>, i: nat, done: seq<DeskOp>)
    requires steps != []
    ensures done + DoneBy([steps[0]], i) + DoneBy(steps[1..], i) == done + DoneBy(steps, i)
  {
    assert [steps[0]][1..] == [];
    assert DoneBy([steps[0]], i) + DoneBy(steps[1..], i) == DoneBy(steps, i);
  }

  /** Nothing but what the desk itself does changes its record: not outages, nor announcements, nor other desks. */
  lemma {:induction false} RunKeepsRecord(c: Settings, min: int, s: Mirror.State, steps: seq<Mirror.Step>, i: nat,
                                          done: seq<DeskOp>)
    requires Mirror.IsRun(c, min, s, steps) && |s.desks| == |c.desks| && i < |c.desks|
    requires s.desks[i] == RecordAfter(min, done)
    ensures var t := Mirror.Exec(c, min, s, steps);
            |t.desks| == |c.desks| && t.desks[i] == RecordAfter(min, done + DoneBy(steps, i))
    decreases |steps|
  {
    if steps == [] {
      assert done + [] == done;
    } else {
      StepKeepsRecord(c, min, s, steps[0], i, done);
      var next := Mirror.Apply(c, min, s, steps[0]);
      RunKeepsRecord(c, min, next, steps[1..], i, done + DoneBy([steps[0]], i));
      DoneFirst(steps, i, done);
    }
  }

  lemma RunRecord(c: Settings, min: int, start: Mirror.State, steps: seq<Mirror.Step>, i: nat)
    requires Starts(c, start) && Mirror.IsRun(c, min, start, steps) && i < |c.desks|
    ensures var s := Mirror.Exec(c, min, start, steps);
            |s.desks| == |c.desks| && s.desks[i] == RecordAfter(min, DoneBy(steps, i))
  {
    RunKeepsRecord(c, min, start, steps, i, []);
    assert [] + DoneBy(steps, i) == DoneBy(steps, i);
  }

  /** In every run a desk's record is what its own history says. */
  lemma RecordFollowsHistory(c: Settings, min: int, start: Mirror.State, steps: seq<Mirror.Step>, i: nat)
    requires Starts(c, start) && Mirror.IsRun(c, min, start, steps) && i < |c.desks|
    ensures var s := Mirror.Exec(c, min, start, steps); var done := DoneBy(steps, i);
            && |s.desks| == |c.desks|
            && s.desks[i].base == NewestBase(done) && s.desks[i].online == IsUp(done)
            && s.desks[i].ops == ThrottleOps(done) && s.desks[i].height == Last(Trace(min, FRESH, ThrottleOps(done)))
  {
    RunRecord(c, min, start, steps, i);
    RecordIs(min, DoneBy(steps, i));
  }

  /** What the broker should show under a desk's topics, which all start in the same way. */
  predicate ShowsHistory(min: int, broker: map<string, string>, start: string, done: seq<DeskOp>) {
    var height := Last(Trace(min, FRESH, ThrottleOps(done)));
    && Lookup(broker, start + "availability") == Some(if IsUp(done) then "online" else "offline")
    && (height.Some? ==> Lookup(broker, start + "height") == Some(FormatTenthsMM(height.value)))
    && (NewestBase(done).Some? ==> Lookup(broker, start + "base_height") == Some(FormatTenthsMM(NewestBase(done).value)))
  }

  lemma AgreementShowsHistory(c: Settings, min: int, broker: map<string, string>, i: nat, done: seq<DeskOp>)
    requires i < |c.desks| && AgreesOn(c, broker, i, RecordAfter(min, done))
    ensures ShowsHistory(min, broker, c.metricTopicBase + "/" + c.desks[i].id + "/", done)
  {
    RecordIs(min, done);
    LeavesAreOneLevel();
    assert LEAF_AVAILABILITY in METRIC_LEAVES && LEAF_HEIGHT in METRIC_LEAVES && LEAF_BASE_HEIGHT in METRIC_LEAVES;
  }

  lemma BridgeTopicIs(c: Settings)
    ensures BridgeTopic(c) == c.metricTopicBase + "/bridge/availability"
  {
    assert c.metricTopicBase + "/" + "bridge" + "/" + "availability" == c.metricTopicBase + "/bridge/availability";
  }

  /** Once republishAll has run, s shows what has happened to desk i, and the bridge as online. */
  predicate ShowsAll(c: Settings, min: int, s: Mirror.State, i: nat, done: seq<DeskOp>)
    requires i < |c.desks|
  {
    s.conn && s.said == |c.desks| + 1 ==>
      && ShowsHistory(min, s.broker, c.metricTopicBase + "/" + c.desks[i].id + "/", done)
      && Lookup(s.broker, c.metricTopicBase + "/bridge/availability") == Some("online")
  }

  /**
   End to end: after any outages, once the open session's republishAll has run, the broker shows each
   desk as online or offline by what it did last, with the height published last and the base height
   read last, if there are any; and the bridge as online.
   */
  lemma BrokerShowsHistory(c: Settings, min: int, start: Mirror.State, steps: seq<Mirror.Step>, i: nat)
    requires Accepted(c) && Starts(c, start) && Mirror.IsRun(c, min, start, steps) && i < |c.desks|
    ensures ShowsAll(c, min, Mirror.Exec(c, min, start, steps), i, DoneBy(steps, i))
  {
    BrokerAgreesAfterOutages(c, min, start, steps, i);
    RunRecord(c, min, start, steps, i);
    var s := Mirror.Exec(c, min, start, steps);
    if s.conn && s.said == |c.desks| + 1 {
      BridgeTopicIs(c);
      AgreementShowsHistory(c, min, s.broker, i, DoneBy(steps, i));
    }
  }
}
