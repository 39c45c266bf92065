/**
 One desk's height with the steps of publishing taken apart, as in the source: the throttle decides
 under its mutex, publishHeight records under stateMu, and the message goes out after both; a
 republish takes a snapshot first and sends it later. Any number of them can be under way.
 */
module MirrorSplit {
  import opened Options
  import T = ThrottleSpec

  datatype State = State(
    ops: seq<T.Op>,
    height: Option<int>,             // lastHeight
    deciding: multiset<int>,         // decided by the throttle, not yet recorded
    recorded: multiset<int>,         // recorded as lastHeight, not yet passed to publish
    snapshots: multiset<Option<int>>,  // taken by republishState, not yet passed to publish
    sent: seq<int>,                  // what publishHeight has passed to publish
    conn: bool,
    told: bool,                      // a height has been told since the connection opened
    broker: Option<int>)

  datatype Step =
    | Decide(op: T.Op) | Record(v: int) | Send(v: int)
    | Snapshot | SendSnapshot(h: Option<int>)
    | Connect | Lose(kept: Option<int>)

  const START := State([], None, multiset{}, multiset{}, multiset{}, [], false, false, None)

  function Throttle(min: int, s: State): T.State {
    T.Run(min, T.FRESH, s.ops)
  }

  function Trace(min: int, s: State): seq<int> {
    T.Trace(min, T.FRESH, s.ops)
  }

  predicate Enabled(s: State, step: Step) {
    match step
    case Decide(_) => true
    case Record(v) => v in s.deciding
    case Send(v) => v in s.recorded
    case Snapshot => true
    case SendSnapshot(h) => h in s.snapshots
    case Connect => !s.conn
    case Lose(_) => true
  }

  function Told(s: State, h: Option<int>): Option<int> {
    if s.conn && h.Some? then h else s.broker
  }

  function Apply(min: int, s: State, step: Step): State
    requires Enabled(s, step)
  {
    match step
    case Decide(op) =>
      var out := T.Decision(min, Throttle(min, s), op);
      s.(ops := s.ops + [op], deciding := s.deciding + if out.Some? then multiset{out.value} else multiset{})
    case Record(v) => s.(height := Some(v), deciding := s.deciding - multiset{v}, recorded := s.recorded + multiset{v})
    case Send(v) =>
      s.(recorded := s.recorded - multiset{v}, sent := s.sent + [v], told := s.conn, broker := Told(s, Some(v)))
    case Snapshot => s.(snapshots := s.snapshots + multiset{s.height})
    case SendSnapshot(h) =>
      s.(snapshots := s.snapshots - multiset{h}, told := s.told || (s.conn && h.Some?), broker := Told(s, h))
    case Connect => s.(conn := true, told := false)
    case Lose(kept) => s.(conn := false, told := false, broker := kept)
  }

  predicate IsRun(min: int, s: State, steps: seq<Step>)
    decreases |steps|
  {
    steps == [] || (Enabled(s, steps[0]) && IsRun(min, Apply(min, s, steps[0]), steps[1..]))
  }

  function Exec(min: int, s: State, steps: seq<Step>): State
    requires IsRun(min, s, steps)
    decreases |steps|
  {
    if steps == [] then s else Exec(min, Apply(min, s, steps[0]), steps[1..])
  }

  // Conservation, and order when publishers take turns

  lemma TraceGrows(min: int, s: State, op: T.Op)
    ensures T.Trace(min, T.FRESH, s.ops + [op]) == Trace(min, s) + T.Emitted(T.Decision(min, Throttle(min, s), op))
  {
    T.OneMore(min, T.FRESH, s.ops, op);
  }

  /**
   Nothing decided is lost and nothing is invented: in every interleaving the values passed to
   publish, with those still under way, are exactly the throttle's decisions.
   */
  lemma {:induction false} DecisionsAreConserved(min: int, s: State, steps: seq<Step>)
    requires IsRun(min, s, steps)
    requires multiset(Trace(min, s)) == multiset(s.sent) + s.deciding + s.recorded
    ensures var t := Exec(min, s, steps); multiset(Trace(min, t)) == multiset(t.sent) + t.deciding + t.recorded
    decreases |steps|
  {
    if steps != [] {
      if steps[0].Decide? { TraceGrows(min, s, steps[0].op); }
      DecisionsAreConserved(min, Apply(min, s, steps[0]), steps[1..]);
    }
  }

  predicate OneAtATime(s: State) {
    |s.deciding| + |s.recorded| <= 1
  }

  /** No publishHeight starts before the one before it has passed its value on. */
  predicate TakesTurns(min: int, s: State, steps: seq<Step>)
    requires IsRun(min, s, steps)
    decreases |steps|
  {
    OneAtATime(s) && (steps != [] ==> TakesTurns(min, Apply(min, s, steps[0]), steps[1..]))
  }

  /** What publishHeight has passed on is what was decided, in order, but for the value under way. */
  ghost predicate InOrder(min: int, s: State) {
    s.sent <= Trace(min, s) && multiset(Trace(min, s)[|s.sent|..]) == s.deciding + s.recorded
  }

  lemma SingletonTail(rest: seq<int>, v: int)
    requires multiset(rest) >= multiset{v} && |multiset(rest)| <= 1
    ensures rest == [v]
  {
    assert |multiset(rest)| == |rest|;
    assert v in rest;
  }

  lemma OrderDecide(min: int, s: State, op: T.Op)
    requires InOrder(min, s)
    ensures InOrder(min, Apply(min, s, Decide(op)))
  {
    TraceGrows(min, s, op);
    var out := T.Emitted(T.Decision(min, Throttle(min, s), op));
    var t := Apply(min, s, Decide(op));
    assert Trace(min, t) == Trace(min, s) + out;
    assert Trace(min, t)[|s.sent|..] == Trace(min, s)[|s.sent|..] + out;
  }

  /** The one value under way is what the throttle decided last. */
  lemma UnderWayIsLast(min: int, s: State, v: int)
    requires v in s.recorded && OneAtATime(s) && InOrder(min, s)
    ensures Trace(min, s) == s.sent + [v] && s.deciding == multiset{} && s.recorded == multiset{v}
  {
    var rest := Trace(min, s)[|s.sent|..];
    Alone(s.recorded, v);
    SingletonTail(rest, v);
    assert Trace(min, s) == s.sent + rest;
  }

  lemma OrderSend(min: int, s: State, v: int)
    requires v in s.recorded && OneAtATime(s) && InOrder(min, s)
    ensures InOrder(min, Apply(min, s, Send(v)))
  {
    var t := Apply(min, s, Send(v));
    UnderWayIsLast(min, s, v);
    assert Trace(min, t) == t.sent;
    assert Trace(min, t)[|t.sent|..] == [];
  }

  lemma OrderStep(min: int, s: State, step: Step)
    requires Enabled(s, step) && OneAtATime(s) && InOrder(min, s)
    ensures InOrder(min, Apply(min, s, step))
  {
    match step
    case Decide(op) => OrderDecide(min, s, op);
    case Send(v) => OrderSend(min, s, v);
    case _ => assert Trace(min, Apply(min, s, step)) == Trace(min, s);
  }

  /** With at most one publish under way at a time, values go out in the order they were decided. */
  lemma {:induction false} TurnsKeepOrder(min: int, s: State, steps: seq<Step>)
    requires IsRun(min, s, steps) && TakesTurns(min, s, steps) && InOrder(min, s)
    ensures InOrder(min, Exec(min, s, steps))
    decreases |steps|
  {
    if steps != [] {
      var next := Apply(min, s, steps[0]);
      assert TakesTurns(min, next, steps[1..]);
      OrderStep(min, s, steps[0]);
      TurnsKeepOrder(min, next, steps[1..]);
    }
  }

  lemma EverySentInOrder(min: int, steps: seq<Step>)
    requires IsRun(min, START, steps) && TakesTurns(min, START, steps)
    ensures var t := Exec(min, START, steps);
            t.sent <= Trace(min, t) && (t.deciding == t.recorded == multiset{} ==> t.sent == Trace(min, t))
  {
    TurnsKeepOrder(min, START, steps);
    var t := Exec(min, START, steps);
    if t.deciding == t.recorded == multiset{} {
      assert |multiset(Trace(min, t)[|t.sent|..])| == |Trace(min, t)[|t.sent|..]|;
    }
  }

  // Agreement when everybody takes turns

  predicate OneThing(s: State) {
    |s.deciding| + |s.recorded| + |s.snapshots| <= 1
  }

  /** No publishHeight and no republishState starts before the one before it is through. */
  predicate AllTakeTurns(min: int, s: State, steps: seq<Step>)
    requires IsRun(min, s, steps)
    decreases |steps|
  {
    OneThing(s) && (steps != [] ==> AllTakeTurns(min, Apply(min, s, steps[0]), steps[1..]))
  }

  /** The one thing under way carries what is next on its way from the throttle to the broker. */
  predicate InStep(min: int, s: State) {
    var u := Throttle(min, s);
    && (u.hasLast && s.deciding != multiset{} ==> s.deciding == multiset{u.last})
    && (u.hasLast && s.deciding == multiset{} ==> s.height == Some(u.last))
    && (s.recorded != multiset{} ==> s.height.Some? && s.recorded == multiset{s.height.value})
    && (s.snapshots != multiset{} ==> s.snapshots == multiset{s.height})
    && (s.told && s.recorded == multiset{} ==> s.broker == s.height)
    && (s.told ==> s.conn)
  }

  lemma InStepDecide(min: int, s: State, op: T.Op)
    requires InStep(min, s) && OneThing(s) && OneThing(Apply(min, s, Decide(op)))
    ensures InStep(min, Apply(min, s, Decide(op)))
  {
    var out := T.Decision(min, Throttle(min, s), op);
    T.OneMore(min, T.FRESH, s.ops, op);
    if out.Some? { assert |s.deciding + multiset{out.value}| == |s.deciding| + 1; }
  }

  lemma InStepSend(min: int, s: State, step: Step)
    requires InStep(min, s) && OneThing(s) && Enabled(s, step) && Finishes(step)
    ensures InStep(min, Apply(min, s, step))
  {
    match step
    case Record(v) => Alone(s.deciding, v);
    case Send(v) => Alone(s.recorded, v);
    case SendSnapshot(h) => Alone(s.snapshots, h);
  }

  lemma Alone<X>(m: multiset<X>, x: X)
    requires x in m && |m| <= 1
    ensures m == multiset{x} && m - multiset{x} == multiset{}
  {
    assert |m - multiset{x}| == 0;
  }

  lemma InStepNext(min: int, s: State, step: Step)
    requires InStep(min, s) && OneThing(s) && Enabled(s, step) && OneThing(Apply(min, s, step))
    ensures InStep(min, Apply(min, s, step))
  {
    match step
    case Decide(op) => InStepDecide(min, s, op);
    case Snapshot => SnapshotIsFirst(s);
    case Connect =>
    case Lose(_) =>
    case _ => InStepSend(min, s, step);
  }

  lemma SnapshotIsFirst(s: State)
    requires OneThing(s.(snapshots := s.snapshots + multiset{s.height}))
    ensures s.snapshots == multiset{}
  {
    assert |s.snapshots + multiset{s.height}| == |s.snapshots| + 1;
  }

  lemma {:induction false} TurnsKeepStep(min: int, s: State, steps: seq<Step>)
    requires IsRun(min, s, steps) && AllTakeTurns(min, s, steps) && InStep(min, s)
    ensures InStep(min, Exec(min, s, steps))
    decreases |steps|
  {
    if steps != [] {
      var next := Apply(min, s, steps[0]);
      assert AllTakeTurns(min, next, steps[1..]);
      InStepNext(min, s, steps[0]);
      TurnsKeepStep(min, next, steps[1..]);
    }
  }

  /**
   If publishes and republishes go through one at a time, then whenever none is under way lastHeight
   is the throttle's last value, and the broker shows it as soon as it has been told any height since
   the connection opened, whatever the readings, outages and reconnects in between.
   */
  lemma TurnsAgree(min: int, steps: seq<Step>)
    requires IsRun(min, START, steps) && AllTakeTurns(min, START, steps)
    ensures var t := Exec(min, START, steps);
            Quiet(t) ==> && (Throttle(min, t).hasLast ==> t.height == Some(Throttle(min, t).last))
                         && (t.conn && t.told ==> t.broker == t.height)
  {
    TurnsKeepStep(min, START, steps);
  }

  // What the broker ends up with

  predicate Quiet(s: State) {
    s.deciding == multiset{} && s.recorded == multiset{} && s.snapshots == multiset{}
  }

  /** The messages under way are sent, in some order, and nothing else happens. */
  predicate Finishes(step: Step) {
    step.Record? || step.Send? || step.SendSnapshot?
  }

  ghost predicate IsFinish(min: int, s: State, steps: seq<Step>) {
    IsRun(min, s, steps) && (forall k :: 0 <= k < |steps| ==> Finishes(steps[k])) && Quiet(Exec(min, s, steps))
  }

  /** Some message under way carries v. */
  predicate UnderWay(s: State, v: int) {
    v in s.deciding || v in s.recorded || Some(v) in s.snapshots
  }

  /** Every message under way carries v; with none under way the broker shows v already. */
  ghost predicate AllSay(s: State, v: int) {
    && (forall w :: UnderWay(s, w) ==> w == v)
    && ((forall w :: !UnderWay(s, w)) ==> s.broker == Some(v))
  }

  /** A message that said v is gone or has moved on, and the broker shows v if it has gone out. */
  lemma AllSayOn(s: State, t: State, v: int, w: int)
    requires AllSay(s, v) && UnderWay(s, w) && (UnderWay(t, w) || t.broker == Some(w))
    requires forall x :: UnderWay(t, x) ==> UnderWay(s, x)
    ensures AllSay(t, v)
  {
    assert w == v;
  }

  lemma AllSayStep(min: int, s: State, step: Step, v: int)
    requires s.conn && AllSay(s, v) && Enabled(s, step) && Finishes(step)
    ensures AllSay(Apply(min, s, step), v)
  {
    var t := Apply(min, s, step);
    NothingNewUnderWay(min, s, step);
    match step {
      case Record(w) => AllSayOn(s, t, v, w);
      case Send(w) => AllSayOn(s, t, v, w);
      case SendSnapshot(h) =>
        if h.Some? {
          AllSayOn(s, t, v, h.value);
        } else {
          assert t.broker == s.broker;
          assert forall x :: UnderWay(s, x) ==> UnderWay(t, x);
        }
    }
  }

  lemma NothingNewUnderWay(min: int, s: State, step: Step)
    requires Enabled(s, step) && Finishes(step)
    ensures forall x :: UnderWay(Apply(min, s, step), x) ==> UnderWay(s, x)
  {
  }

  lemma {:induction false} AllSayFinishes(min: int, s: State, steps: seq<Step>, v: int)
    requires s.conn && AllSay(s, v) && IsFinish(min, s, steps)
    ensures Exec(min, s, steps).broker == Some(v)
    decreases |steps|
  {
    if steps == [] {
      assert forall w :: !UnderWay(s, w);
    } else {
      assert Finishes(steps[0]);
      AllSayStep(min, s, steps[0], v);
      AllSayFinishes(min, Apply(min, s, steps[0]), steps[1..], v);
    }
  }

  /** Steps still to be taken. */
  function Work(s: State): nat {
    2 * |s.deciding| + |s.recorded| + |s.snapshots|
  }

  lemma PrependFinish(min: int, s: State, step: Step, rest: seq<Step>)
    requires Enabled(s, step) && Finishes(step) && IsFinish(min, Apply(min, s, step), rest)
    ensures IsFinish(min, s, [step] + rest) && Exec(min, s, [step] + rest) == Exec(min, Apply(min, s, step), rest)
  {
    assert ([step] + rest)[1..] == rest;
  }

  lemma Member<X>(m: multiset<X>) returns (x: X)
    requires m != multiset{}
    ensures x in m
  {
    x :| x in m;
  }

  /** A message besides a kept one. */
  lemma Another(s: State, v: int) returns (step: Step)
    requires s.deciding == multiset{} && UnderWay(s, v) && |s.recorded| + |s.snapshots| > 1
    ensures step.Send? || step.SendSnapshot?
    ensures step.Send? ==> step.v in s.recorded && (v in s.recorded - multiset{step.v} || Some(v) in s.snapshots)
    ensures step.SendSnapshot? ==> step.h in s.snapshots && (v in s.recorded || Some(v) in s.snapshots - multiset{step.h})
  {
    if v in s.recorded {
      if s.snapshots != multiset{} {
        var h := Member(s.snapshots);
        step := SendSnapshot(h);
      } else {
        var w := Member(s.recorded - multiset{v});
        step := Send(w);
      }
    } else if s.recorded != multiset{} {
      var w := Member(s.recorded);
      step := Send(w);
    } else {
      var h := Member(s.snapshots - multiset{Some(v)});
      step := SendSnapshot(h);
    }
  }

  /** One more message, besides a kept one, can be sent without touching the kept one. */
  lemma SendAnother(min: int, s: State, v: int) returns (step: Step)
    requires s.conn && s.deciding == multiset{} && UnderWay(s, v) && |s.recorded| + |s.snapshots| > 1
    ensures Enabled(s, step) && Finishes(step)
    ensures UnderWay(Apply(min, s, step), v) && Work(Apply(min, s, step)) < Work(s)
  {
    step := Another(s, v);
  }

  lemma RecordFirst(min: int, s: State, v: int) returns (step: Step)
    requires s.deciding != multiset{} && UnderWay(s, v)
    ensures Enabled(s, step) && Finishes(step)
    ensures UnderWay(Apply(min, s, step), v) && Work(Apply(min, s, step)) < Work(s)
    ensures Apply(min, s, step).conn == s.conn
  {
    var w := Member(s.deciding);
    step := Record(w);
  }

  /** The one message under way is sent. */
  lemma SendTheLast(min: int, s: State, v: int) returns (step: Step)
    requires s.conn && s.deciding == multiset{} && UnderWay(s, v) && |s.recorded| + |s.snapshots| <= 1
    ensures Enabled(s, step) && Finishes(step)
    ensures IsFinish(min, Apply(min, s, step), []) && Apply(min, s, step).broker == Some(v)
  {
    step := if v in s.recorded then Send(v) else SendSnapshot(Some(v));
    assert Quiet(Apply(min, s, step));
  }

  /** What is under way can be finished with any chosen message last. */
  lemma {:induction false} CanFinishWith(min: int, s: State, v: int) returns (steps: seq<Step>)
    requires s.conn && UnderWay(s, v)
    ensures IsFinish(min, s, steps) && Exec(min, s, steps).broker == Some(v)
    decreases Work(s)
  {
    var step;
    if s.deciding != multiset{} {
      step := RecordFirst(min, s, v);
    } else if |s.recorded| + |s.snapshots| > 1 {
      step := SendAnother(min, s, v);
    } else {
      step := SendTheLast(min, s, v);
      PrependFinish(min, s, step, []);
      return [step] + [];
    }
    var rest := CanFinishWith(min, Apply(min, s, step), v);
    PrependFinish(min, s, step, rest);
    steps := [step] + rest;
  }

  lemma EmptySnapshotIsSilent(min: int, s: State, h: Option<int>)
    requires h in s.snapshots && forall w :: !UnderWay(s, w)
    ensures var t := Apply(min, s, SendSnapshot(h)); t.broker == s.broker && forall w :: !UnderWay(t, w)
  {
    if h.Some? { assert UnderWay(s, h.value); }
    var t := Apply(min, s, SendSnapshot(h));
    forall w
      ensures !UnderWay(t, w)
    {
      assert !UnderWay(s, w);
    }
  }

  /** Something under way can be moved on. */
  lemma AnyStep(s: State) returns (step: Step)
    requires !Quiet(s)
    ensures Enabled(s, step) && Finishes(step)
  {
    if s.deciding != multiset{} {
      var w := Member(s.deciding);
      step := Record(w);
    } else if s.recorded != multiset{} {
      var w := Member(s.recorded);
      step := Send(w);
    } else {
      var h := Member(s.snapshots);
      step := SendSnapshot(h);
    }
  }

  lemma FinishingIsProgress(min: int, s: State, step: Step)
    requires Enabled(s, step) && Finishes(step)
    ensures Work(Apply(min, s, step)) < Work(s)
  {
  }

  /** If nothing under way carries a value, the broker does not notice. */
  lemma FinishingInSilence(min: int, s: State, step: Step)
    requires Enabled(s, step) && Finishes(step) && forall w :: !UnderWay(s, w)
    ensures var t := Apply(min, s, step); t.broker == s.broker && forall w :: !UnderWay(t, w)
  {
    match step
    case Record(w) => assert UnderWay(s, w);
    case Send(w) => assert UnderWay(s, w);
    case SendSnapshot(h) => EmptySnapshotIsSilent(min, s, h);
  }

  /** What is under way can always be finished. */
  lemma {:induction false} CanFinish(min: int, s: State) returns (steps: seq<Step>)
    ensures IsFinish(min, s, steps)
    ensures (forall w :: !UnderWay(s, w)) ==> Exec(min, s, steps).broker == s.broker
    decreases Work(s)
  {
    steps := [];
    if !Quiet(s) {
      var step := AnyStep(s);
      FinishingIsProgress(min, s, step);
      if forall w :: !UnderWay(s, w) { FinishingInSilence(min, s, step); }
      var rest := CanFinish(min, Apply(min, s, step));
      PrependFinish(min, s, step, rest);
      steps := [step] + rest;
    }
  }

  /**
   Whichever way what is under way finishes, the broker ends up showing v: exactly when every
   message under way carries v, or none is and the broker shows v now.
   */
  lemma BrokerEndsAtIff(min: int, s: State, v: int)
    requires s.conn
    ensures (forall steps :: IsFinish(min, s, steps) ==> Exec(min, s, steps).broker == Some(v)) <==> AllSay(s, v)
  {
    if AllSay(s, v) {
      forall steps | IsFinish(min, s, steps)
        ensures Exec(min, s, steps).broker == Some(v)
      {
        AllSayFinishes(min, s, steps, v);
      }
    } else if w :| UnderWay(s, w) && w != v {
      var steps := CanFinishWith(min, s, w);
    } else {
      var steps := CanFinish(min, s);
    }
  }

  // What lastHeight ends up as

  /** Every decision still to be recorded is v; with none, lastHeight is v already. */
  ghost predicate AllRecord(s: State, v: int) {
    && (forall w <- s.deciding :: w == v)
    && (s.deciding == multiset{} ==> s.height == Some(v))
  }

  lemma AllRecordStep(min: int, s: State, step: Step, v: int)
    requires AllRecord(s, v) && Enabled(s, step) && Finishes(step)
    ensures AllRecord(Apply(min, s, step), v)
  {
  }

  lemma {:induction false} AllRecordFinishes(min: int, s: State, steps: seq<Step>, v: int)
    requires AllRecord(s, v) && IsFinish(min, s, steps)
    ensures Exec(min, s, steps).height == Some(v)
    decreases |steps|
  {
    if steps != [] {
      assert Finishes(steps[0]);
      AllRecordStep(min, s, steps[0], v);
      AllRecordFinishes(min, Apply(min, s, steps[0]), steps[1..], v);
    }
  }

  /** Nothing left to record: the rest is sent, and lastHeight stays. */
  lemma {:induction false} SendingKeepsHeight(min: int, s: State, steps: seq<Step>)
    requires s.deciding == multiset{} && IsFinish(min, s, steps)
    ensures Exec(min, s, steps).height == s.height
    decreases |steps|
  {
    if steps != [] {
      assert Finishes(steps[0]);
      SendingKeepsHeight(min, Apply(min, s, steps[0]), steps[1..]);
    }
  }

  /** Any decision under way can be the last to be recorded. */
  lemma {:induction false} CanRecordLast(min: int, s: State, v: int) returns (steps: seq<Step>)
    requires v in s.deciding
    ensures IsFinish(min, s, steps) && Exec(min, s, steps).height == Some(v)
    decreases |s.deciding|
  {
    var w := v;
    if s.deciding != multiset{v} { w := Member(s.deciding - multiset{v}); }
    var next := Apply(min, s, Record(w));
    var rest;
    if s.deciding == multiset{v} {
      rest := CanFinish(min, next);
      SendingKeepsHeight(min, next, rest);
    } else {
      rest := CanRecordLast(min, next, v);
    }
    PrependFinish(min, s, Record(w), rest);
    steps := [Record(w)] + rest;
  }

  /**
   Whichever way what is under way finishes, lastHeight ends up as v: exactly when every decision
   still to be recorded is v, or none is and it is v now.
   */
  lemma HeightEndsAtIff(min: int, s: State, v: int)
    ensures (forall steps :: IsFinish(min, s, steps) ==> Exec(min, s, steps).height == Some(v)) <==> AllRecord(s, v)
  {
    if AllRecord(s, v) {
      forall steps | IsFinish(min, s, steps)
        ensures Exec(min, s, steps).height == Some(v)
      {
        AllRecordFinishes(min, s, steps, v);
      }
    } else if w :| w in s.deciding && w != v {
      var steps := CanRecordLast(min, s, w);
    } else {
      var steps := CanFinish(min, s);
      SendingKeepsHeight(min, s, steps);
    }
  }

  lemma {:induction false} FinishingKeeps(min: int, s: State, steps: seq<Step>)
    requires IsFinish(min, s, steps)
    ensures Exec(min, s, steps).ops == s.ops && Exec(min, s, steps).conn == s.conn
    decreases |steps|
  {
    if steps != [] {
      assert Finishes(steps[0]);
      FinishingKeeps(min, Apply(min, s, steps[0]), steps[1..]);
    }
  }

  /** What the throttle said last, what is recorded, and what the broker shows are the same value. */
  predicate Agree(min: int, s: State, v: int) {
    Throttle(min, s).hasLast && Throttle(min, s).last == v && s.height == Some(v) && s.broker == Some(v)
  }

  /** A publish that finds nothing else under way repairs whatever went before: record, throttle and broker agree. */
  lemma LonePublishRepairs(min: int, s: State, op: T.Op, steps: seq<Step>)
    requires s.conn && Quiet(s)
    requires T.Decision(min, Throttle(min, s), op).Some?
    requires IsFinish(min, Apply(min, s, Decide(op)), steps)
    ensures Agree(min, Exec(min, Apply(min, s, Decide(op)), steps), T.Decision(min, Throttle(min, s), op).value)
  {
    var t := Apply(min, s, Decide(op));
    var v := T.Decision(min, Throttle(min, s), op).value;
    assert t.deciding == multiset{v};
    assert UnderWay(t, v);
    AllSayFinishes(min, t, steps, v);
    AllRecordFinishes(min, t, steps, v);
    FinishingKeeps(min, t, steps);
    T.OneMore(min, T.FRESH, s.ops, op);
  }

  /** t can be reached from s. */
  ghost predicate Leads(min: int, s: State, t: State) {
    exists steps :: IsRun(min, s, steps) && Exec(min, s, steps) == t
  }

  lemma StepLeads(min: int, s: State, step: Step, t: State)
    requires Enabled(s, step) && Leads(min, Apply(min, s, step), t)
    ensures Leads(min, s, t)
  {
    var rest :| IsRun(min, Apply(min, s, step), rest) && Exec(min, Apply(min, s, step), rest) == t;
    assert ([step] + rest)[1..] == rest;
    assert IsRun(min, s, [step] + rest) && Exec(min, s, [step] + rest) == t;
  }

  lemma LeadsNowhere(min: int, s: State)
    ensures Leads(min, s, s)
  {
    assert IsRun(min, s, []) && Exec(min, s, []) == s;
  }

  /** Readings and ticks come with a clock that does not run backwards. */
  predicate Clocked(ops: seq<T.Op>) {
    forall i, j :: 0 <= i < j < |ops| ==> ops[i].at <= ops[j].at
  }

  predicate NoLater(ops: seq<T.Op>, at: int) {
    forall i :: 0 <= i < |ops| ==> ops[i].at <= at
  }

  /** The broker and lastHeight show v, nothing is under way or pending, and the throttle has moved on to w. */
  predicate Stale(min: int, s: State, v: int, w: int) {
    && s.conn && Quiet(s) && s.broker == Some(v) && s.height == Some(v) && v != w
    && var t := Throttle(min, s); t.hasLast && t.last == w && !t.hasPending
  }

  /**
   The serve loop's flush can be overtaken by the callback: the tick decides on a pending value, a
   settled reading comes in before it is recorded, and the pending value is recorded and sent last.
   at is when both happen: late enough for the flush, and no earlier than anything before.
   */
  lemma OvertakingLeavesStaleHeight(min: int, s: State, w: int, at: int) returns (t: State)
    requires s.conn && Quiet(s) && Clocked(s.ops) && NoLater(s.ops, at)
    requires Throttle(min, s).hasPending && Throttle(min, s).pending != w
    requires at - Throttle(min, s).lastAt >= min
    ensures Leads(min, s, t) && Clocked(t.ops) && Stale(min, t, Throttle(min, s).pending, w)
  {
    var v := Throttle(min, s).pending;
    var s2 := FlushThenForced(min, s, w, at);
    var s3 := Apply(min, s2, Record(w));
    var s4 := Apply(min, s3, Send(w));
    t := OvertakenSends(min, s4, v);
    StepLeads(min, s3, Send(w), t);
    StepLeads(min, s2, Record(w), t);
    LeadsOn(min, s, s2, t);
  }

  /** The throttle decides on both. */
  lemma BothDecided(min: int, s: State, w: int, at: int)
    requires Throttle(min, s).hasPending && Throttle(min, s).pending != w && at - Throttle(min, s).lastAt >= min
    ensures var tick, settled := T.Flush(at), T.Set(w, true, at);
            var t := T.After(min, Throttle(min, s), tick);
            && T.Decision(min, Throttle(min, s), tick) == Some(Throttle(min, s).pending)
            && T.Run(min, T.FRESH, s.ops + [tick]) == t && T.Decision(min, t, settled) == Some(w)
            && T.Run(min, T.FRESH, s.ops + [tick] + [settled]) == T.State(0, false, w, true, at)
  {
    T.OneMore(min, T.FRESH, s.ops, T.Flush(at));
    T.OneMore(min, T.FRESH, s.ops + [T.Flush(at)], T.Set(w, true, at));
  }

  lemma ClockedOn(ops: seq<T.Op>, op: T.Op)
    requires Clocked(ops) && NoLater(ops, op.at)
    ensures Clocked(ops + [op]) && NoLater(ops + [op], op.at)
  {
  }

  /** A flush of the pending value and a settled reading leave two publishes under way, one for each publisher. */
  lemma FlushThenForced(min: int, s: State, w: int, at: int) returns (t: State)
    requires s.conn && Quiet(s) && Clocked(s.ops) && NoLater(s.ops, at)
    requires Throttle(min, s).hasPending && Throttle(min, s).pending != w
    requires at - Throttle(min, s).lastAt >= min
    ensures Leads(min, s, t) && Clocked(t.ops) && t.conn
    ensures t.deciding == multiset{Throttle(min, s).pending, w} && t.recorded == multiset{} && t.snapshots == multiset{}
    ensures var u := Throttle(min, t); u.hasLast && u.last == w && !u.hasPending
  {
    var tick, settled := T.Flush(at), T.Set(w, true, at);
    BothDecided(min, s, w, at);
    ClockedOn(s.ops, tick);
    ClockedOn(s.ops + [tick], settled);
    var s1 := Apply(min, s, Decide(tick));
    t := Apply(min, s1, Decide(settled));
    LeadsNowhere(min, t);
    StepLeads(min, s1, Decide(settled), t);
    StepLeads(min, s, Decide(tick), t);
  }

  /** It can happen from the start: the connect's reset, a first reading, a second one too soon after it, and the flush. */
  lemma OvertakingHappens(min: int, u: int, v: int, w: int) returns (t: State)
    requires min > 0 && u != v && v != w
    ensures Leads(min, START, t) && Clocked(t.ops) && Stale(min, t, v, w)
  {
    var first, second := T.Set(u, false, 0), T.Set(v, false, 0);
    var s0 := Apply(min, START, Connect);
    T.OneMore(min, T.FRESH, s0.ops, T.Reset(0));
    var s1 := Apply(min, s0, Decide(T.Reset(0)));
    T.OneMore(min, T.FRESH, s1.ops, first);
    var s2 := Apply(min, s1, Decide(first));
    var s3 := Apply(min, s2, Record(u));
    var s4 := Apply(min, s3, Send(u));
    T.OneMore(min, T.FRESH, s4.ops, second);
    var s5 := Apply(min, s4, Decide(second));
    assert Throttle(min, s5) == T.State(v, true, u, true, 0);
    t := OvertakingLeavesStaleHeight(min, s5, w, min);
    StepLeads(min, s4, Decide(second), t);
    StepLeads(min, s3, Send(u), t);
    StepLeads(min, s2, Record(u), t);
    StepLeads(min, s1, Decide(first), t);
    StepLeads(min, s0, Decide(T.Reset(0)), t);
    StepLeads(min, START, Connect, t);
  }

  /** A stale height outlives outages: losing the connection, coming back and republishing alone restores it. */
  lemma RepublishRestoresStale(min: int, s: State, kept: Option<int>, v: int, w: int)
    requires Stale(min, s, v, w)
    ensures var lost := Apply(min, s, Lose(kept));
            var back := Apply(min, lost, Connect);
            var told := Apply(min, back, Snapshot);
            && IsRun(min, s, [Lose(kept), Connect, Snapshot])
            && (forall steps :: IsFinish(min, told, steps) ==> Stale(min, Exec(min, told, steps), v, w))
  {
    var told := Apply(min, Apply(min, Apply(min, s, Lose(kept)), Connect), Snapshot);
    assert [Lose(kept), Connect, Snapshot][1..] == [Connect, Snapshot] && [Connect, Snapshot][1..] == [Snapshot];
    assert UnderWay(told, v);
    forall steps | IsFinish(min, told, steps)
      ensures Stale(min, Exec(min, told, steps), v, w)
    {
      AllSayFinishes(min, told, steps, v);
      AllRecordFinishes(min, told, steps, v);
      FinishingKeeps(min, told, steps);
    }
  }

  lemma LeadsOn(min: int, s: State, t: State, u: State)
    requires Leads(min, s, t) && Leads(min, t, u)
    ensures Leads(min, s, u)
  {
    var first :| IsRun(min, s, first) && Exec(min, s, first) == t;
    LeadsAlong(min, s, first, u);
  }

  lemma {:induction false} LeadsAlong(min: int, s: State, first: seq<Step>, u: State)
    requires IsRun(min, s, first) && Leads(min, Exec(min, s, first), u)
    ensures Leads(min, s, u)
    decreases |first|
  {
    if first != [] {
      LeadsAlong(min, Apply(min, s, first[0]), first[1..], u);
      StepLeads(min, s, first[0], u);
    }
  }

  lemma OvertakenSends(min: int, s: State, v: int) returns (t: State)
    requires s.conn && s.deciding == multiset{v} && s.recorded == multiset{} && s.snapshots == multiset{}
    ensures Leads(min, s, t) && t.conn && Quiet(t) && t.ops == s.ops && t.broker == Some(v) && t.height == Some(v)
  {
    var s1 := Apply(min, s, Record(v));
    t := Apply(min, s1, Send(v));
    LeadsNowhere(min, t);
    StepLeads(min, s1, Send(v), t);
    StepLeads(min, s, Record(v), t);
  }

  /** A snapshot sent late undoes a newer height at the broker. */
  lemma StaleSnapshotUndoes(min: int, s: State, h: int, op: T.Op) returns (t: State)
    requires s.conn && Quiet(s) && s.height == Some(h)
    requires T.Decision(min, Throttle(min, s), op).Some?
    ensures Leads(min, s, t) && t.conn && Quiet(t)
    ensures t.height == T.Decision(min, Throttle(min, s), op) && t.broker == Some(h)
  {
    var v := T.Decision(min, Throttle(min, s), op).value;
    var s1 := Apply(min, s, Snapshot);
    var s2 := Apply(min, s1, Decide(op));
    assert s2.deciding == multiset{v};
    var s3 := Apply(min, s2, Record(v));
    var s4 := Apply(min, s3, Send(v));
    t := Apply(min, s4, SendSnapshot(Some(h)));
    LeadsNowhere(min, t);
    StepLeads(min, s4, SendSnapshot(Some(h)), t);
    StepLeads(min, s3, Send(v), t);
    StepLeads(min, s2, Record(v), t);
    StepLeads(min, s1, Decide(op), t);
    StepLeads(min, s, Snapshot, t);
  }
}
