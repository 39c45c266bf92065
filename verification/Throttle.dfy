/**
 The publish throttle: its state as a value, the effect of Set, Flush and Reset on it, and what a
 whole run publishes. Each operation is one step because the decision is taken under the mutex.
 Times are nanoseconds.
 */
module ThrottleSpec {
  import opened Arithmetic
  import opened Options

  datatype State = State(pending: int, hasPending: bool, last: int, hasLast: bool, lastAt: int)

  const FRESH := State(0, false, 0, false, 0)

  datatype Op = Set(v: int, force: bool, at: int) | Flush(at: int) | Reset(at: int)

  function Published(v: int, at: int): State {
    State(0, false, v, true, at)
  }

  /** Some(v) when the operation hands v to publish. */
  function Decision(min: int, t: State, op: Op): Option<int> {
    match op
    case Set(v, force, at) =>
      if t.hasLast && t.last == v then None
      else if force || !t.hasLast || at - t.lastAt >= min then Some(v)
      else None
    case Flush(at) =>
      if !t.hasPending || (t.hasLast && at - t.lastAt < min) then None else Some(t.pending)
    case Reset(_) => None
  }

  function After(min: int, t: State, op: Op): State {
    var out := Decision(min, t, op);
    if out.Some? then Published(out.value, op.at).(pending := if op.Flush? then 0 else t.pending)
    else
      match op
      case Set(v, _, _) =>
        if t.hasLast && t.last == v then t.(hasPending := false) else t.(pending := v, hasPending := true)
      case Flush(_) => t
      case Reset(_) => t.(hasLast := false, hasPending := false)
  }

  function Run(min: int, t: State, ops: seq<Op>): State {
    if ops == [] then t else After(min, Run(min, t, ops[..|ops| - 1]), ops[|ops| - 1])
  }

  function Emitted(out: Option<int>): seq<int> {
    if out.Some? then [out.value] else []
  }

  /** Everything the run hands to publish, in order. */
  function Trace(min: int, t: State, ops: seq<Op>): seq<int> {
    if ops == [] then []
    else
      var before := ops[..|ops| - 1];
      Trace(min, t, before) + Emitted(Decision(min, Run(min, t, before), ops[|ops| - 1]))
  }

  // What is outstanding

  /** The newest reading since the last Reset. */
  function Newest(ops: seq<Op>): Option<int> {
    if ops == [] then None
    else
      match ops[|ops| - 1]
      case Set(v, _, _) => Some(v)
      case Flush(_) => Newest(ops[..|ops| - 1])
      case Reset(_) => None
  }

  ghost predicate Inv(t: State) {
    t.hasPending ==> t.hasLast && t.pending != t.last
  }

  /** Nothing published and nothing pending: a fresh throttle, or one that has just been reset. */
  predicate Cleared(t: State) {
    !t.hasLast && !t.hasPending
  }

  /** A Reset clears the throttle, and the run and the trace go on from there. */
  lemma SinceReset(min: int, before: seq<Op>, on: int, ops: seq<Op>)
    ensures var t := Run(min, FRESH, before + [Reset(on)]);
            && Cleared(t)
            && Run(min, FRESH, before + [Reset(on)] + ops) == Run(min, t, ops)
            && Trace(min, FRESH, before + [Reset(on)] + ops) == Trace(min, FRESH, before + [Reset(on)]) + Trace(min, t, ops)
  {
    OneMore(min, FRESH, before, Reset(on));
    RunsJoin(min, FRESH, before + [Reset(on)], ops);
  }

  lemma {:induction false} RunsJoin(min: int, t: State, a: seq<Op>, b: seq<Op>)
    ensures Run(min, t, a + b) == Run(min, Run(min, t, a), b)
    ensures Trace(min, t, a + b) == Trace(min, t, a) + Trace(min, Run(min, t, a), b)
    decreases |b|
  {
    if b == [] {
      assert a + b == a;
    } else {
      var c, op := b[..|b| - 1], b[|b| - 1];
      assert a + b == a + c + [op] && c + [op] == b;
      RunsJoin(min, t, a, c);
      OneMore(min, t, a + c, op);
    }
  }

  /** What the throttle has not said, or last said, is exactly the newest reading. */
  lemma {:induction false} NewestSince(min: int, t: State, ops: seq<Op>)
    requires Cleared(t)
    ensures Inv(Run(min, t, ops))
    ensures Newest(ops) == var u := Run(min, t, ops);
                           if u.hasPending then Some(u.pending) else if u.hasLast then Some(u.last) else None
  {
    if ops != [] {
      NewestSince(min, t, ops[..|ops| - 1]);
    }
  }

  lemma NewestIsPendingOrLast(min: int, ops: seq<Op>)
    ensures Inv(Run(min, FRESH, ops))
    ensures Newest(ops) == var t := Run(min, FRESH, ops);
                           if t.hasPending then Some(t.pending) else if t.hasLast then Some(t.last) else None
  {
    NewestSince(min, FRESH, ops);
  }

  /** Whatever was published before, the first reading after a Reset is published at once. */
  lemma FirstReadingAfterReset(min: int, ops: seq<Op>, op: Op)
    requires Newest(ops).None? && op.Set?
    ensures Decision(min, Run(min, FRESH, ops), op) == Some(op.v)
  {
    NewestIsPendingOrLast(min, ops);
  }

  // Refinement of a publisher that says every change

  /** A publisher with no rate limit: every reading that differs from the last one it was offered. */
  function ChangeTrace(ops: seq<Op>): seq<int> {
    if ops == [] then []
    else
      var before := ops[..|ops| - 1];
      match ops[|ops| - 1]
      case Set(v, _, _) => ChangeTrace(before) + if Newest(before) == Some(v) then [] else [v]
      case _ => ChangeTrace(before)
  }

  /** Strictly increasing positions at which p is found in c. */
  ghost predicate Embeds(f: seq<nat>, p: seq<int>, c: seq<int>) {
    && |f| == |p|
    && (forall i, j :: 0 <= i < j < |f| ==> f[i] < f[j])
    && (forall i :: 0 <= i < |f| ==> f[i] < |c| && p[i] == c[f[i]])
  }

  ghost predicate Subsequence(p: seq<int>, c: seq<int>) {
    exists f: seq<nat> :: Embeds(f, p, c)
  }

  lemma SubsequenceOfLonger(p: seq<int>, c: seq<int>, more: seq<int>)
    requires Subsequence(p, c)
    ensures Subsequence(p, c + more)
  {
    var f: seq<nat> :| Embeds(f, p, c);
    assert Embeds(f, p, c + more);
  }

  lemma SubsequenceTakesLast(p: seq<int>, c: seq<int>, v: int)
    requires Subsequence(p, c)
    ensures Subsequence(p + [v], c + [v])
  {
    var f: seq<nat> :| Embeds(f, p, c);
    assert Embeds(f + [|c|], p + [v], c + [v]);
  }

  /** The part of the change trace the throttle can have drawn on: all of it but a value still pending. */
  function Spoken(min: int, t: State, ops: seq<Op>): seq<int> {
    var c := ChangeTrace(ops);
    if Run(min, t, ops).hasPending && c != [] then c[..|c| - 1] else c
  }

  /** The change trace ends in the newest reading, when there is one. */
  lemma {:induction false} ChangeTraceEndsInNewest(ops: seq<Op>)
    ensures Newest(ops).Some? ==> ChangeTrace(ops) != [] && ChangeTrace(ops)[|ChangeTrace(ops)| - 1] == Newest(ops).value
  {
    if ops != [] {
      ChangeTraceEndsInNewest(ops[..|ops| - 1]);
    }
  }

  lemma {:induction false} TraceDrawsOnSpoken(min: int, t: State, ops: seq<Op>)
    requires Cleared(t)
    ensures Subsequence(Trace(min, t, ops), Spoken(min, t, ops))
  {
    if ops == [] {
      assert Embeds([], [], []);
    } else {
      var before, op := ops[..|ops| - 1], ops[|ops| - 1];
      var u := Run(min, t, before);
      var c := ChangeTrace(before);
      TraceDrawsOnSpoken(min, t, before);
      NewestSince(min, t, before);
      ChangeTraceEndsInNewest(before);
      var p, out := Trace(min, t, before), Decision(min, u, op);
      assert p + [] == p && c + [] == c;
      assert op.Set? ==> (c + [op.v])[..|c + [op.v]| - 1] == c;
      if u.hasPending {
        assert c == Spoken(min, t, before) + [u.pending];
        SubsequenceOfLonger(p, Spoken(min, t, before), [u.pending]);
      }
      if out.Some? && u.hasPending && out.value == u.pending {
        SubsequenceTakesLast(p, Spoken(min, t, before), u.pending);
      } else if out.Some? {
        SubsequenceTakesLast(p, c, out.value);
      } else if op.Set? && Newest(before) != Some(op.v) {
        SubsequenceOfLonger(p, c, [op.v]);
      }
    }
  }

  /** Rate limiting only ever leaves changes out; it never reorders, repeats or invents one. */
  lemma ThrottleRefinesChangePublisher(min: int, t: State, ops: seq<Op>)
    requires Cleared(t)
    ensures Subsequence(Trace(min, t, ops), ChangeTrace(ops))
  {
    TraceDrawsOnSpoken(min, t, ops);
    NewestSince(min, t, ops);
    ChangeTraceEndsInNewest(ops);
    var c := ChangeTrace(ops);
    if Run(min, t, ops).hasPending {
      SubsequenceOfLonger(Trace(min, t, ops), Spoken(min, t, ops), [c[|c| - 1]]);
      assert Spoken(min, t, ops) + [c[|c| - 1]] == c;
    }
  }

  predicate ResetFree(ops: seq<Op>) {
    forall i :: 0 <= i < |ops| ==> !ops[i].Reset?
  }

  function Last(s: seq<int>): Option<int> {
    if s == [] then None else Some(s[|s| - 1])
  }

  predicate NoRepeats(s: seq<int>) {
    forall i :: 0 < i < |s| ==> s[i] != s[i - 1]
  }

  lemma {:induction false} LastPublishedIsLast(min: int, t: State, ops: seq<Op>)
    requires Cleared(t) && ResetFree(ops)
    ensures Last(Trace(min, t, ops)) == var u := Run(min, t, ops); if u.hasLast then Some(u.last) else None
  {
    if ops != [] {
      LastPublishedIsLast(min, t, ops[..|ops| - 1]);
    }
  }

  /** Until the next Reset no value is published twice running. */
  lemma {:induction false} NoValueTwiceRunning(min: int, t: State, ops: seq<Op>)
    requires Cleared(t) && ResetFree(ops)
    ensures NoRepeats(Trace(min, t, ops))
  {
    if ops != [] {
      var before := ops[..|ops| - 1];
      NoValueTwiceRunning(min, t, before);
      LastPublishedIsLast(min, t, before);
      NewestSince(min, t, before);
    }
  }

  /**
   Until the next Reset, what was published last is what the change-only publisher said last exactly
   when nothing is pending.
   */
  lemma SettledIffNothingPending(min: int, t: State, ops: seq<Op>)
    requires Cleared(t) && ResetFree(ops)
    ensures Last(Trace(min, t, ops)) == Last(ChangeTrace(ops)) <==> !Run(min, t, ops).hasPending
  {
    LastPublishedIsLast(min, t, ops);
    NewestSince(min, t, ops);
    ChangeTraceEndsInNewest(ops);
    if Newest(ops).None? { NothingReadNothingSaid(ops); }
  }

  lemma {:induction false} NothingReadNothingSaid(ops: seq<Op>)
    requires ResetFree(ops) && Newest(ops).None?
    ensures ChangeTrace(ops) == []
  {
    if ops != [] {
      NothingReadNothingSaid(ops[..|ops| - 1]);
    }
  }

  /** A forced Set, and a Flush at least min after the last publish, leave nothing pending. */
  lemma Converges(min: int, t: State, ops: seq<Op>, op: Op)
    requires Cleared(t) && ResetFree(ops)
    requires var u := Run(min, t, ops);
             (op.Set? && op.force) || (op.Flush? && (u.hasLast ==> op.at - u.lastAt >= min))
    ensures Last(Trace(min, t, ops + [op])) == Last(ChangeTrace(ops + [op]))
    ensures op.Set? ==> Last(Trace(min, t, ops + [op])) == Some(op.v)
  {
    assert (ops + [op])[..|ops|] == ops;
    SettledIffNothingPending(min, t, ops + [op]);
    ChangeTraceEndsInNewest(ops + [op]);
  }

  /** A settled reading is published exactly when it is not what was published last since the throttle was cleared. */
  lemma SettledReadingPublishedIff(min: int, t: State, ops: seq<Op>, v: int, at: int)
    requires Cleared(t) && ResetFree(ops)
    ensures Decision(min, Run(min, t, ops), Set(v, true, at)) == Some(v) <==> Last(Trace(min, t, ops)) != Some(v)
  {
    LastPublishedIsLast(min, t, ops);
  }

  // The rate bound

  predicate InWindow(ops: seq<Op>, from: int, to: int) {
    && (forall i :: 0 <= i < |ops| ==> from <= ops[i].at <= to)
    && (forall i, j :: 0 <= i < j < |ops| ==> ops[i].at <= ops[j].at)
  }

  /** Resets in the run. */
  function Resets(ops: seq<Op>): nat {
    if ops == [] then 0 else Resets(ops[..|ops| - 1]) + if ops[|ops| - 1].Reset? then 1 else 0
  }

  predicate Forced(op: Op) {
    op.Set? && op.force
  }

  /** Publishes made by a forced Set. */
  function ForcedPublishes(min: int, t: State, ops: seq<Op>): nat {
    if ops == [] then 0
    else
      var before, op := ops[..|ops| - 1], ops[|ops| - 1];
      ForcedPublishes(min, t, before) + if Forced(op) && Decision(min, Run(min, t, before), op).Some? then 1 else 0
  }

  datatype Publication = Publication(v: int, at: int, forced: bool)

  /** Trace, with when each value was published and whether a forced Set did it. */
  function Publications(min: int, t: State, ops: seq<Op>): seq<Publication> {
    if ops == [] then []
    else
      var before, op := ops[..|ops| - 1], ops[|ops| - 1];
      var out := Decision(min, Run(min, t, before), op);
      Publications(min, t, before) + if out.Some? then [Publication(out.value, op.at, Forced(op))] else []
  }

  lemma {:induction false} PublicationsAreTrace(min: int, t: State, ops: seq<Op>)
    ensures |Publications(min, t, ops)| == |Trace(min, t, ops)|
    ensures forall i :: 0 <= i < |Trace(min, t, ops)| ==> Publications(min, t, ops)[i].v == Trace(min, t, ops)[i]
  {
    if ops != [] { PublicationsAreTrace(min, t, ops[..|ops| - 1]); }
  }

  /** Until the next Reset, an unforced publish comes at least min after the publish before it, of whatever kind. */
  lemma {:induction false} UnforcedPublishesWait(min: int, t: State, ops: seq<Op>)
    requires Cleared(t) && ResetFree(ops)
    ensures var p := Publications(min, t, ops); var u := Run(min, t, ops);
            && (u.hasLast <==> p != []) && (p != [] ==> p[|p| - 1].at == u.lastAt)
            && forall i :: 0 < i < |p| && !p[i].forced ==> p[i].at - p[i - 1].at >= min
  {
    if ops != [] {
      var before, op := ops[..|ops| - 1], ops[|ops| - 1];
      UnforcedPublishesWait(min, t, before);
      NewestSince(min, t, before);
      var u := Run(min, t, before);
      if Decision(min, u, op).Some? && !Forced(op) && u.hasLast { DecisionWaits(min, u, op); }
    }
  }

  /** An unforced decision comes at least min after the last publish, if there was one. */
  lemma DecisionWaits(min: int, u: State, op: Op)
    requires Inv(u) && Decision(min, u, op).Some? && !Forced(op) && u.hasLast
    ensures op.at - u.lastAt >= min
  {
  }

  /** Nothing has been published yet, or the last publish was at least min ago. */
  predicate Due(min: int, p: seq<Publication>, at: int) {
    p == [] || at - p[|p| - 1].at >= min
  }

  /**
   What there is to publish, from what was published before and the newest reading alone: a reading
   that is not what was published last, if it is settled or due; on a flush the newest reading, if it
   is not what was published last, and due.
   */
  function ToPublish(min: int, p: seq<Publication>, newest: Option<int>, op: Op): Option<int> {
    var said := if p == [] then None else Some(p[|p| - 1].v);
    match op
    case Set(v, settled, at) => if said != Some(v) && (settled || Due(min, p, at)) then Some(v) else None
    case Flush(at) => if newest != said && Due(min, p, at) then newest else None
    case Reset(_) => None
  }

  /**
   Until the next Reset the throttle publishes exactly what its own publications so far, and the
   newest reading, call for.
   */
  lemma PublishesExactly(min: int, t: State, ops: seq<Op>, op: Op)
    requires Cleared(t) && ResetFree(ops)
    ensures Decision(min, Run(min, t, ops), op) == ToPublish(min, Publications(min, t, ops), Newest(ops), op)
  {
    UnforcedPublishesWait(min, t, ops);
    LastPublishedIsLast(min, t, ops);
    PublicationsAreTrace(min, t, ops);
    NewestSince(min, t, ops);
  }

  /** A reading of a moving desk is published exactly when it is news and nothing was published less than min ago. */
  lemma MovingReadingPublishedIff(min: int, t: State, ops: seq<Op>, v: int, at: int)
    requires Cleared(t) && ResetFree(ops)
    ensures var p := Publications(min, t, ops);
            Decision(min, Run(min, t, ops), Set(v, false, at))
            == if Last(Trace(min, t, ops)) != Some(v) && (p == [] || at - p[|p| - 1].at >= min) then Some(v) else None
  {
    PublishesExactly(min, t, ops, Set(v, false, at));
    PublicationsAreTrace(min, t, ops);
  }

  /**
   A flush publishes the newest reading exactly when it is not what was published last, and nothing
   was less than min ago.
   */
  lemma FlushPublishesIff(min: int, t: State, ops: seq<Op>, at: int)
    requires Cleared(t) && ResetFree(ops)
    ensures var p := Publications(min, t, ops);
            Decision(min, Run(min, t, ops), Flush(at))
            == if Newest(ops) != Last(Trace(min, t, ops)) && (p == [] || at - p[|p| - 1].at >= min) then Newest(ops)
               else None
  {
    PublishesExactly(min, t, ops, Flush(at));
    PublicationsAreTrace(min, t, ops);
  }

  /** How many points at least min apart fit between from and x. */
  function Slots(min: int, from: int, x: int): nat
    requires min > 0
  {
    if x < from then 0 else (x - from) / min + 1
  }

  lemma SlotsGrow(min: int, from: int, x: int, y: int)
    requires min > 0 && x <= y
    ensures Slots(min, from, x) <= Slots(min, from, y)
    ensures y - x >= min && from <= y ==> Slots(min, from, x) < Slots(min, from, y)
  {
    if from <= x {
      QuotientsGrow(x - from, y - from, min);
    }
  }

  /** Publishes beyond the forced ones and one for each Reset. */
  function Excess(min: int, t: State, ops: seq<Op>): int {
    |Trace(min, t, ops)| - ForcedPublishes(min, t, ops) - Resets(ops)
  }

  /** The excess never outruns the points that fit before the last publish. */
  lemma {:induction false} ExcessFits(min: int, t: State, ops: seq<Op>, from: int, to: int)
    requires min > 0 && from <= to && InWindow(ops, from, to)
    requires t.hasLast ==> t.lastAt <= from
    ensures var u, now := Run(min, t, ops), if ops == [] then from else ops[|ops| - 1].at;
            && (u.hasLast ==> u.lastAt <= now && Excess(min, t, ops) <= Slots(min, from, u.lastAt))
            && (!u.hasLast ==> Excess(min, t, ops) < Slots(min, from, now))
  {
    if ops != [] {
      var before, op := ops[..|ops| - 1], ops[|ops| - 1];
      ExcessFits(min, t, before, from, to);
      var u, now := Run(min, t, before), if before == [] then from else before[|before| - 1].at;
      SlotsGrow(min, from, now, op.at);
      if u.hasLast { SlotsGrow(min, from, u.lastAt, op.at); }
    }
  }

  /**
   In a window of length T, whatever the throttle has been through before it, at most
   T/min + 1 publishes are made beyond the forced ones and one for each Reset.
   */
  lemma RateBound(min: int, t: State, ops: seq<Op>, from: int, to: int)
    requires min > 0 && from <= to && InWindow(ops, from, to)
    requires t.hasLast ==> t.lastAt <= from
    ensures |Trace(min, t, ops)| <= (to - from) / min + 1 + Resets(ops) + ForcedPublishes(min, t, ops)
  {
    ExcessFits(min, t, ops, from, to);
    var u := Run(min, t, ops);
    SlotsGrow(min, from, if u.hasLast then u.lastAt else if ops == [] then from else ops[|ops| - 1].at, to);
  }

  /** Readings that all differ, min apart. */
  function Staircase(min: int, n: nat): seq<Op> {
    seq(n, i => Set(i, false, i * min))
  }

  lemma StaircaseWindow(min: int, n: nat)
    requires min > 0 && n > 0
    ensures InWindow(Staircase(min, n), 0, (n - 1) * min)
  {
    var ops := Staircase(min, n);
    forall i | 0 <= i < n
      ensures 0 <= ops[i].at <= (n - 1) * min
    {
      ProductsGrow(0, i, min);
      ProductsGrow(i, n - 1, min);
    }
    forall i, j | 0 <= i < j < n
      ensures ops[i].at <= ops[j].at
    {
      ProductsGrow(i, j, min);
    }
  }

  /** The bound is met: n readings min apart span (n - 1) * min and are all published. */
  lemma RateBoundIsTight(min: int, n: nat)
    requires min > 0 && n > 0
    ensures InWindow(Staircase(min, n), 0, (n - 1) * min)
    ensures |Trace(min, FRESH, Staircase(min, n))| == n == ((n - 1) * min) / min + 1
  {
    StaircaseWindow(min, n);
    StaircaseIsPublished(min, n);
    QuotientIs((n - 1) * min, min, n - 1);
  }

  /** One more operation extends the state and the trace by what it does. */
  lemma OneMore(min: int, t: State, ops: seq<Op>, op: Op)
    ensures Run(min, t, ops + [op]) == After(min, Run(min, t, ops), op)
    ensures Trace(min, t, ops + [op]) == Trace(min, t, ops) + Emitted(Decision(min, Run(min, t, ops), op))
  {
    assert (ops + [op])[..|ops|] == ops;
  }

  lemma {:induction false} StaircaseIsPublished(min: int, n: nat)
    requires min > 0 && n > 0
    ensures |Trace(min, FRESH, Staircase(min, n))| == n
    ensures var t := Run(min, FRESH, Staircase(min, n)); t.hasLast && t.last == n - 1 && t.lastAt == (n - 1) * min
  {
    var before := Staircase(min, n - 1);
    var op := Set(n - 1, false, (n - 1) * min);
    assert Staircase(min, n) == before + [op];
    OneMore(min, FRESH, before, op);
    if n > 1 {
      StaircaseIsPublished(min, n - 1);
      assert (n - 1) * min - (n - 2) * min == min;
    } else {
      assert before == [];
    }
  }
}

/** internal/bridge/throttle.go as written: fields updated in place, publish called after the unlock. */
module ThrottleModel {
  import opened Options
  import opened ThrottleSpec

  class Throttle {
    const min: int
    var pending: int
    var hasPending: bool
    var last: int
    var hasLast: bool
    var lastAt: int

    ghost function Value(): State
      reads this
    {
      State(pending, hasPending, last, hasLast, lastAt)
    }

    constructor (min: int)
      ensures this.min == min && Value() == FRESH
    {
      this.min := min;
      pending, hasPending, last, hasLast, lastAt := 0, false, 0, false, 0;
    }

    /** out is the value passed to publish, if any. */
    method Set(v: int, force: bool, now: int) returns (out: Option<int>)
      modifies this
      ensures Value() == After(min, old(Value()), ThrottleSpec.Set(v, force, now))
      ensures out == Decision(min, old(Value()), ThrottleSpec.Set(v, force, now))
    {
      if hasLast && last == v {
        hasPending := false;
        return None;
      }
      if force || !hasLast || now - lastAt >= min {
        last, hasLast, lastAt := v, true, now;
        hasPending := false;
        return Some(v);
      }
      pending, hasPending := v, true;
      return None;
    }

    method Flush(now: int) returns (out: Option<int>)
      modifies this
      ensures Value() == After(min, old(Value()), ThrottleSpec.Flush(now))
      ensures out == Decision(min, old(Value()), ThrottleSpec.Flush(now))
    {
      if !hasPending {
        return None;
      }
      if hasLast && now - lastAt < min {
        return None;
      }
      var v := pending;
      pending, hasPending := 0, false;
      last, hasLast, lastAt := v, true, now;
      return Some(v);
    }

    method Reset(now: int)
      modifies this
      ensures Value() == After(min, old(Value()), ThrottleSpec.Reset(now))
    {
      hasLast, hasPending := false, false;
    }
  }
}
