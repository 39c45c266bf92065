/**
 One desk's availability with the steps of publishing taken apart: run's goroutine records it under
 stateMu and publishes it before it does anything else, while republishState, from any number of
 connect handlers, takes a snapshot first and sends it later.
 */
module AvailabilitySplit {
  import opened Options
  import MirrorSplit

  datatype State = State(
    online: bool,
    sending: Option<bool>,       // recorded by setOnline, not yet passed to publish
    snapshots: multiset<bool>,   // taken by republishState, not yet passed to publish
    conn: bool,
    broker: Option<bool>)

  datatype Step =
    | Switch(v: bool) | Send
    | Snapshot | SendSnapshot(v: bool)
    | Connect | Lose(kept: Option<bool>)

  const START := State(false, None, multiset{}, false, None)

  predicate Enabled(s: State, step: Step) {
    match step
    case Switch(_) => s.sending.None?
    case Send => s.sending.Some?
    case Snapshot => true
    case SendSnapshot(v) => v in s.snapshots
    case Connect => !s.conn
    case Lose(_) => true
  }

  function Told(s: State, v: bool): Option<bool> {
    if s.conn then Some(v) else s.broker
  }

  function Apply(s: State, step: Step): State
    requires Enabled(s, step)
  {
    match step
    case Switch(v) => s.(online := v, sending := Some(v))
    case Send => s.(sending := None, broker := Told(s, s.sending.value))
    case Snapshot => s.(snapshots := s.snapshots + multiset{s.online})
    case SendSnapshot(v) => s.(snapshots := s.snapshots - multiset{v}, broker := Told(s, v))
    case Connect => s.(conn := true)
    case Lose(kept) => s.(conn := false, broker := kept)
  }

  predicate IsRun(s: State, steps: seq<Step>)
    decreases |steps|
  {
    steps == [] || (Enabled(s, steps[0]) && IsRun(Apply(s, steps[0]), steps[1..]))
  }

  function Exec(s: State, steps: seq<Step>): State
    requires IsRun(s, steps)
    decreases |steps|
  {
    if steps == [] then s else Exec(Apply(s, steps[0]), steps[1..])
  }

  /** What run's goroutine is about to publish is what it has just recorded. */
  predicate Inv(s: State) {
    s.sending.Some? ==> s.sending.value == s.online
  }

  lemma {:induction false} InvRun(s: State, steps: seq<Step>)
    requires Inv(s) && IsRun(s, steps)
    ensures Inv(Exec(s, steps))
    decreases |steps|
  {
    if steps != [] {
      assert Inv(Apply(s, steps[0]));
      InvRun(Apply(s, steps[0]), steps[1..]);
    }
  }

  predicate Quiet(s: State) {
    s.sending.None? && s.snapshots == multiset{}
  }

  predicate Finishes(step: Step) {
    step.Send? || step.SendSnapshot?
  }

  /** What is under way is sent, in some order, and nothing else happens. */
  ghost predicate IsFinish(s: State, steps: seq<Step>) {
    IsRun(s, steps) && (forall k :: 0 <= k < |steps| ==> Finishes(steps[k])) && Quiet(Exec(s, steps))
  }

  /** No snapshot under way is old, and with nothing under way the broker shows what is recorded. */
  predicate NothingOld(s: State) {
    && (forall v <- s.snapshots :: v == s.online)
    && (Quiet(s) ==> s.broker == Some(s.online))
  }

  lemma {:induction false} NothingOldFinishes(s: State, steps: seq<Step>)
    requires s.conn && Inv(s) && NothingOld(s) && IsFinish(s, steps)
    ensures Exec(s, steps).broker == Some(s.online)
    decreases |steps|
  {
    if steps != [] {
      assert Finishes(steps[0]);
      assert NothingOld(Apply(s, steps[0]));
      NothingOldFinishes(Apply(s, steps[0]), steps[1..]);
    }
  }

  lemma PrependFinish(s: State, step: Step, rest: seq<Step>)
    requires Enabled(s, step) && Finishes(step) && IsFinish(Apply(s, step), rest)
    ensures IsFinish(s, [step] + rest) && Exec(s, [step] + rest) == Exec(Apply(s, step), rest)
  {
    assert ([step] + rest)[1..] == rest;
  }

  /** Messages under way. */
  function Work(s: State): nat {
    |s.snapshots| + if s.sending.Some? then 1 else 0
  }

  lemma StillThere(m: multiset<bool>, v: bool, w: bool)
    requires v in m && w in m - multiset{v}
    ensures w in m && v in m - multiset{w} && |m - multiset{w}| < |m|
  {
  }

  /** A message under way that leaves the kept snapshot to be sent, or the kept one if it is the last. */
  lemma SendBefore(s: State, v: bool) returns (step: Step)
    requires s.conn && v in s.snapshots
    ensures Enabled(s, step) && Finishes(step) && Work(Apply(s, step)) < Work(s) && Apply(s, step).conn
    ensures v in Apply(s, step).snapshots || (Quiet(Apply(s, step)) && Apply(s, step).broker == Some(v))
  {
    if s.sending.Some? {
      step := Send;
    } else if s.snapshots == multiset{v} {
      step := SendSnapshot(v);
    } else {
      var w := MirrorSplit.Member(s.snapshots - multiset{v});
      StillThere(s.snapshots, v, w);
      step := SendSnapshot(w);
    }
  }

  /** What is under way can be finished with any snapshot last. */
  lemma {:induction false} CanEndWith(s: State, v: bool) returns (steps: seq<Step>)
    requires s.conn && v in s.snapshots
    ensures IsFinish(s, steps) && Exec(s, steps).broker == Some(v)
    decreases Work(s)
  {
    var step := SendBefore(s, v);
    var rest := [];
    if v in Apply(s, step).snapshots {
      rest := CanEndWith(Apply(s, step), v);
    }
    PrependFinish(s, step, rest);
    steps := [step] + rest;
  }

  /**
   In any reachable state with the connection open: however what is under way finishes, the broker
   ends up showing the desk's recorded availability, exactly when no snapshot under way is old and,
   with nothing under way, the broker shows it already.
   */
  lemma AvailabilityEndsRightIff(run: seq<Step>)
    requires IsRun(START, run) && Exec(START, run).conn
    ensures var s := Exec(START, run);
            (forall steps :: IsFinish(s, steps) ==> Exec(s, steps).broker == Some(s.online)) <==> NothingOld(s)
  {
    InvRun(START, run);
    var s := Exec(START, run);
    if NothingOld(s) {
      forall steps | IsFinish(s, steps)
        ensures Exec(s, steps).broker == Some(s.online)
      {
        NothingOldFinishes(s, steps);
      }
    } else if v :| v in s.snapshots && v != s.online {
      var steps := CanEndWith(s, v);
    } else {
      assert IsFinish(s, []);
    }
  }

  lemma OneMore(s: State, step: Step, rest: seq<Step>)
    requires Enabled(s, step) && IsRun(Apply(s, step), rest)
    ensures IsRun(s, [step] + rest) && Exec(s, [step] + rest) == Exec(Apply(s, step), rest)
  {
    assert ([step] + rest)[1..] == rest;
  }

  /** A snapshot of a connected desk, sent after the desk has gone offline and said so, leaves it shown as online. */
  lemma StaleSnapshotShowsOnline(s: State) returns (steps: seq<Step>)
    requires s.conn && s.online && Quiet(s)
    ensures IsRun(s, steps)
    ensures var t := Exec(s, steps); t.conn && Quiet(t) && !t.online && t.broker == Some(true)
  {
    var s1 := Apply(s, Snapshot);
    var s2 := Apply(s1, Switch(false));
    var s3 := Apply(s2, Send);
    var s4 := Apply(s3, SendSnapshot(true));
    assert s4.snapshots == multiset{};
    OneMore(s3, SendSnapshot(true), []);
    OneMore(s2, Send, [SendSnapshot(true)] + []);
    OneMore(s1, Switch(false), [Send] + ([SendSnapshot(true)] + []));
    OneMore(s, Snapshot, [Switch(false)] + ([Send] + ([SendSnapshot(true)] + [])));
    steps := [Snapshot] + ([Switch(false)] + ([Send] + ([SendSnapshot(true)] + [])));
  }
}
