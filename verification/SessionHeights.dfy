/** The throttle as a served session uses it: reset when the desk comes online, and not again before it drops. */
module SessionHeights {
  import opened Lifecycle
  import opened Options
  import opened Serving
  import opened ThrottleSpec
  import opened Topics
  import Config
  import Mirror

  /** The heights among the messages. */
  function HeightsIn(msgs: seq<Mirror.Message>): seq<string> {
    if msgs == [] then []
    else HeightsIn(msgs[..|msgs| - 1]) + if msgs[|msgs| - 1].leaf == LEAF_HEIGHT then [msgs[|msgs| - 1].payload] else []
  }

  function Payloads(vs: seq<int>): (ps: seq<string>)
    ensures |ps| == |vs| && forall i :: 0 <= i < |vs| ==> ps[i] == FormatTenthsMM(vs[i])
  {
    seq(|vs|, i requires 0 <= i < |vs| => FormatTenthsMM(vs[i]))
  }

  lemma OneMoreMessage(msgs: seq<Mirror.Message>, m: Mirror.Message)
    ensures HeightsIn(msgs + [m]) == HeightsIn(msgs) + if m.leaf == LEAF_HEIGHT then [m.payload] else []
  {
    assert (msgs + [m])[..|msgs|] == msgs;
  }

  /** What the throttle has been through from start to t. */
  function OpsSince(start: Live, t: Live): seq<Op>
    requires |start.desk.ops| <= |t.desk.ops|
  {
    t.desk.ops[|start.desk.ops|..]
  }

  /** What it has let through from start to t. */
  function HeightsSince(min: int, start: Live, t: Live): seq<int>
    requires |start.desk.ops| <= |t.desk.ops|
  {
    Trace(min, Mirror.ThrottleOf(min, start.desk), OpsSince(start, t))
  }

  /** From s to t the throttle was not reset, and the heights told are what it let through. */
  ghost predicate HeightsFollow(min: int, s: Live, t: Live) {
    && s.desk.ops <= t.desk.ops && ResetFree(OpsSince(s, t))
    && HeightsIn(t.told) == HeightsIn(s.told) + Payloads(HeightsSince(min, s, t))
  }

  /** The throttle was left alone, and no height was told. */
  lemma QuietFollows(min: int, s: Live, b: Live, t: Live)
    requires HeightsFollow(min, s, b) && t.desk.ops == b.desk.ops && HeightsIn(t.told) == HeightsIn(b.told)
    ensures HeightsFollow(min, s, t)
  {
  }

  lemma OpsGrow(min: int, s: Live, b: Live, t: Live, op: Op)
    requires s.desk.ops <= b.desk.ops && t.desk.ops == b.desk.ops + [op]
    ensures OpsSince(s, t) == OpsSince(s, b) + [op]
    ensures Mirror.ThrottleOf(min, b.desk) == Run(min, Mirror.ThrottleOf(min, s.desk), OpsSince(s, b))
  {
    assert b.desk.ops == s.desk.ops + OpsSince(s, b);
    RunsJoin(min, FRESH, s.desk.ops, OpsSince(s, b));
  }

  lemma PayloadsJoin(a: seq<int>, b: seq<int>)
    ensures Payloads(a + b) == Payloads(a) + Payloads(b)
  {
  }

  lemma HeightsJoin(first: seq<string>, before: seq<string>, after: seq<string>, told: seq<int>, out: seq<int>)
    requires before == first + Payloads(told) && after == before + Payloads(out)
    ensures after == first + Payloads(told + out)
  {
    PayloadsJoin(told, out);
  }

  lemma ResetFreeGrows(ops: seq<Op>, op: Op)
    requires ResetFree(ops) && !op.Reset?
    ensures ResetFree(ops + [op])
  {
  }

  lemma ThrottledFollows(min: int, s: Live, b: Live, t: Live, op: Op, out: Option<int>)
    requires HeightsFollow(min, s, b) && !op.Reset? && t.desk.ops == b.desk.ops + [op]
    requires out == Decision(min, Mirror.ThrottleOf(min, b.desk), op)
    requires HeightsIn(t.told) == HeightsIn(b.told) + Payloads(Emitted(out))
    ensures HeightsFollow(min, s, t)
  {
    OpsGrow(min, s, b, t, op);
    OneMore(min, Mirror.ThrottleOf(min, s.desk), OpsSince(s, b), op);
    ResetFreeGrows(OpsSince(s, b), op);
    HeightsJoin(HeightsIn(s.told), HeightsIn(b.told), HeightsIn(t.told), HeightsSince(min, s, b), Emitted(out));
  }

  /** The heights told grow by what was let through. */
  lemma HeightTold(b: Live, t: Live, out: Option<int>)
    requires t.told == b.told + if out.Some? then [Mirror.Message(LEAF_HEIGHT, FormatTenthsMM(out.value))] else []
    ensures HeightsIn(t.told) == HeightsIn(b.told) + Payloads(Emitted(out))
  {
    if out.Some? {
      OneMoreMessage(b.told, Mirror.Message(LEAF_HEIGHT, FormatTenthsMM(out.value)));
    } else {
      assert b.told + [] == b.told && HeightsIn(b.told) + [] == HeightsIn(b.told);
    }
  }

  lemma MirrorStepFollows(min: int, s: Live, b: Live, mirrored: Mirror.DeskOp, op: Op)
    requires HeightsFollow(min, s, b)
    requires (mirrored.Reading? && op == Set(mirrored.v, mirrored.force, mirrored.at))
             || (mirrored.FlushTick? && op == Flush(mirrored.at))
    ensures HeightsFollow(min, s, MirrorStep(min, b, mirrored))
  {
    var out := Decision(min, Mirror.ThrottleOf(min, b.desk), op);
    ThrottledEffect(min, b, mirrored, op, out);
    var t := MirrorStep(min, b, mirrored);
    HeightTold(b, t, out);
    ThrottledFollows(min, s, b, t, op, out);
  }

  /** Reading the base height tells no height. */
  lemma ReadBaseIsQuiet(min: int, b: Live, base: Option<int>, took: nat)
    ensures var t := ReadBase(min, b, base, took);
            t.desk.ops == b.desk.ops && HeightsIn(t.told) == HeightsIn(b.told)
  {
    Config.LeavesAreOneLevel();
    if base.Some? { OneMoreMessage(b.told, Mirror.Message(LEAF_BASE_HEIGHT, FormatTenthsMM(base.value))); }
  }

  lemma ApplyIsQuiet(min: int, b: Live, took: nat, ok: bool, base: Option<int>, baseTook: nat)
    requires b.queue != []
    ensures var t := ApplyHead(min, b, took, ok, base, baseTook);
            t.desk.ops == b.desk.ops && HeightsIn(t.told) == HeightsIn(b.told)
  {
    var t := Outbound(b.(queue := b.queue[1..], applied := b.applied + [b.queue[0]]), took);
    ReadBaseIsQuiet(min, t, base, baseTook);
  }

  lemma StepFollows(interval: int, min: int, s: Live, b: Live, e: ServeEvent)
    requires HeightsFollow(min, s, b)
    ensures HeightsFollow(min, s, ServeStep(interval, min, b, e))
  {
    var now := Serving.After(b, e.wait);
    QuietFollows(min, s, b, now);
    match e
    case FlushTick(_) => MirrorStepFollows(min, s, now, Mirror.FlushTick(now.clock), Flush(now.clock));
    case Notify(_, extension, speed) =>
      MirrorStepFollows(min, s, now, Mirror.Reading(extension, speed == 0, now.clock),
                        Set(extension, speed == 0, now.clock));
    case NextCommand(_, took, ok, base, baseTook) =>
      if b.queue != [] { ApplyIsQuiet(min, now, took, ok, base, baseTook); }
      QuietFollows(min, s, now, ServeStep(interval, min, b, e));
    case _ => QuietFollows(min, s, now, ServeStep(interval, min, b, e));
  }

  lemma {:induction false} ServeFollows(interval: int, min: int, s: Live, events: seq<ServeEvent>)
    ensures HeightsFollow(min, s, Serve(interval, min, s, events))
    decreases |events|
  {
    if events == [] {
      assert s.desk.ops[|s.desk.ops|..] == [];
    } else {
      ServeFollows(interval, min, s, events[..|events| - 1]);
      StepFollows(interval, min, s, Serve(interval, min, s, events[..|events| - 1]), events[|events| - 1]);
    }
  }

  /** Connecting resets the throttle, whatever it has been through. */
  lemma OpenedIsCleared(wake: bool, min: int, s: Live, a: Attempt)
    requires a.Served?
    ensures Opened(wake, min, s, a).desk.ops == s.desk.ops + [Reset(Owned(wake, s, a).clock)]
    ensures Cleared(Mirror.ThrottleOf(min, Opened(wake, min, s, a).desk))
  {
    var owned := Owned(wake, s, a);
    CameOnlineEffect(min, owned);
    ReadBaseIsQuiet(min, MirrorStep(min, owned, Mirror.CameOnline(owned.clock)), a.base, a.baseTook);
    SinceReset(min, s.desk.ops, owned.clock, []);
  }

  /**
   In every served session the heights told since it came online are a rate-limited selection of the
   changes read in it, in order, none twice running.
   */
  lemma SessionTellsChanges(wake: bool, interval: int, min: int, s: Live, a: Attempt, events: seq<ServeEvent>)
    requires a.Served?
    ensures var start := Opened(wake, min, s, a); var t := Serve(interval, min, start, events);
            && |start.desk.ops| <= |t.desk.ops|
            && var told := HeightsSince(min, start, t);
               HeightsIn(t.told) == HeightsIn(start.told) + Payloads(told)
               && Subsequence(told, ChangeTrace(OpsSince(start, t))) && NoRepeats(told)
  {
    var start := Opened(wake, min, s, a);
    var t := Serve(interval, min, start, events);
    OpenedIsCleared(wake, min, s, a);
    ServeFollows(interval, min, start, events);
    ThrottleRefinesChangePublisher(min, Mirror.ThrottleOf(min, start.desk), OpsSince(start, t));
    NoValueTwiceRunning(min, Mirror.ThrottleOf(min, start.desk), OpsSince(start, t));
  }

  lemma ThrottleSince(min: int, start: Live, t: Live)
    requires HeightsFollow(min, start, t)
    ensures Mirror.ThrottleOf(min, t.desk) == Run(min, Mirror.ThrottleOf(min, start.desk), OpsSince(start, t))
  {
    RunsJoin(min, FRESH, start.desk.ops, OpsSince(start, t));
    assert start.desk.ops + OpsSince(start, t) == t.desk.ops;
  }

  /** In a served session a settled height is told exactly when it is not the one told last since the desk came online. */
  lemma SettledHeightToldIff(wake: bool, interval: int, min: int, s: Live, a: Attempt, events: seq<ServeEvent>,
                             wait: nat, extension: int)
    requires a.Served?
    ensures var start := Opened(wake, min, s, a); var t := Serve(interval, min, start, events);
            && |start.desk.ops| <= |t.desk.ops|
            && ServeStep(interval, min, t, Notify(wait, extension, 0)).told
               == t.told + if Last(HeightsSince(min, start, t)) == Some(extension) then []
                           else [Mirror.Message(LEAF_HEIGHT, FormatTenthsMM(extension))]
  {
    var start := Opened(wake, min, s, a);
    var t := Serve(interval, min, start, events);
    OpenedIsCleared(wake, min, s, a);
    ServeFollows(interval, min, start, events);
    ThrottleSince(min, start, t);
    var now := Serving.After(t, wait);
    var op := Set(extension, true, now.clock);
    SettledReadingPublishedIff(min, Mirror.ThrottleOf(min, start.desk), OpsSince(start, t), extension, now.clock);
    ThrottledEffect(min, now, Mirror.Reading(extension, true, now.clock), op,
                    Decision(min, Mirror.ThrottleOf(min, t.desk), op));
  }

  /** What was let through from start to t, and when. */
  function PublicationsSince(min: int, start: Live, t: Live): seq<Publication>
    requires |start.desk.ops| <= |t.desk.ops|
  {
    Publications(min, Mirror.ThrottleOf(min, start.desk), OpsSince(start, t))
  }

  /** At time at, nothing has been told yet, or the last height was told at least min before. */
  predicate DueSince(min: int, start: Live, t: Live, at: int)
    requires |start.desk.ops| <= |t.desk.ops|
  {
    var p := PublicationsSince(min, start, t);
    p == [] || at - p[|p| - 1].at >= min
  }

  /** t is a state of a session that began in start. */
  ghost predicate Since(min: int, start: Live, t: Live) {
    Cleared(Mirror.ThrottleOf(min, start.desk)) && HeightsFollow(min, start, t)
  }

  /** In t a moving desk's height is told exactly when it is news and none was told less than min ago. */
  predicate TellsMoving(interval: int, min: int, start: Live, t: Live, wait: nat, extension: int, speed: int) {
    && |start.desk.ops| <= |t.desk.ops|
    && ServeStep(interval, min, t, Notify(wait, extension, speed)).told
       == t.told + if Last(HeightsSince(min, start, t)) != Some(extension) && DueSince(min, start, t, t.clock + wait)
                   then [Mirror.Message("height", FormatTenthsMM(extension))] else []
  }

  /** In t a flush tick tells the newest height exactly when it has not been told and none was told less than min ago. */
  predicate TellsFlushed(interval: int, min: int, start: Live, t: Live, wait: nat) {
    && |start.desk.ops| <= |t.desk.ops|
    && var newest := Newest(OpsSince(start, t));
       ServeStep(interval, min, t, FlushTick(wait)).told
       == t.told + if newest.Some? && Last(HeightsSince(min, start, t)) != newest && DueSince(min, start, t, t.clock + wait)
                   then [Mirror.Message("height", FormatTenthsMM(newest.value))] else []
  }

  /** What the throttle decides on a moving desk's reading, u being where ops have taken it from u0. */
  lemma MovingDecision(min: int, u0: State, ops: seq<Op>, u: State, told: seq<int>, p: seq<Publication>, v: int, at: int)
    returns (out: Option<int>)
    requires Cleared(u0) && ResetFree(ops) && u == Run(min, u0, ops)
    requires told == Trace(min, u0, ops) && p == Publications(min, u0, ops)
    ensures out == Decision(min, u, Set(v, false, at))
    ensures out == if Last(told) != Some(v) && (p == [] || at - p[|p| - 1].at >= min) then Some(v) else None
  {
    MovingReadingPublishedIff(min, u0, ops, v, at);
    out := Decision(min, u, Set(v, false, at));
  }

  lemma NotifyTells(interval: int, min: int, t: Live, wait: nat, extension: int, speed: int, out: Option<int>)
    requires speed != 0 && out == Decision(min, Mirror.ThrottleOf(min, t.desk), Set(extension, false, t.clock + wait))
    ensures ServeStep(interval, min, t, Notify(wait, extension, speed)).told
            == t.told + if out.Some? then [Mirror.Message("height", FormatTenthsMM(out.value))] else []
  {
    var now := Serving.After(t, wait);
    ThrottledEffect(min, now, Mirror.Reading(extension, false, now.clock), Set(extension, false, now.clock), out);
  }

  lemma MovingToldSince(interval: int, min: int, start: Live, t: Live, wait: nat, extension: int, speed: int)
    requires Since(min, start, t) && speed != 0
    ensures TellsMoving(interval, min, start, t, wait, extension, speed)
  {
    ThrottleSince(min, start, t);
    var out := MovingDecision(min, Mirror.ThrottleOf(min, start.desk), OpsSince(start, t), Mirror.ThrottleOf(min, t.desk),
                              HeightsSince(min, start, t), PublicationsSince(min, start, t), extension, t.clock + wait);
    NotifyTells(interval, min, t, wait, extension, speed, out);
  }

  lemma FlushDecision(min: int, u0: State, ops: seq<Op>, u: State, told: seq<int>, p: seq<Publication>, at: int)
    returns (out: Option<int>)
    requires Cleared(u0) && ResetFree(ops) && u == Run(min, u0, ops)
    requires told == Trace(min, u0, ops) && p == Publications(min, u0, ops)
    ensures out == Decision(min, u, Flush(at))
    ensures out == if Newest(ops) != Last(told) && (p == [] || at - p[|p| - 1].at >= min) then Newest(ops) else None
  {
    FlushPublishesIff(min, u0, ops, at);
    out := Decision(min, u, Flush(at));
  }

  lemma TickTells(interval: int, min: int, t: Live, wait: nat, out: Option<int>)
    requires out == Decision(min, Mirror.ThrottleOf(min, t.desk), Flush(t.clock + wait))
    ensures ServeStep(interval, min, t, FlushTick(wait)).told
            == t.told + if out.Some? then [Mirror.Message("height", FormatTenthsMM(out.value))] else []
  {
    var now := Serving.After(t, wait);
    ThrottledEffect(min, now, Mirror.FlushTick(now.clock), Flush(now.clock), out);
  }

  lemma FlushToldSince(interval: int, min: int, start: Live, t: Live, wait: nat)
    requires Since(min, start, t)
    ensures TellsFlushed(interval, min, start, t, wait)
  {
    ThrottleSince(min, start, t);
    var out := FlushDecision(min, Mirror.ThrottleOf(min, start.desk), OpsSince(start, t), Mirror.ThrottleOf(min, t.desk),
                             HeightsSince(min, start, t), PublicationsSince(min, start, t), t.clock + wait);
    TickTells(interval, min, t, wait, out);
  }

  lemma ServedSince(wake: bool, interval: int, min: int, s: Live, a: Attempt, events: seq<ServeEvent>)
    requires a.Served?
    ensures Since(min, Opened(wake, min, s, a), Serve(interval, min, Opened(wake, min, s, a), events))
  {
    OpenedIsCleared(wake, min, s, a);
    ServeFollows(interval, min, Opened(wake, min, s, a), events);
  }

  /** In every served session, whatever came before, a moving desk's height is told exactly when it should be. */
  lemma MovingHeightToldIff(wake: bool, interval: int, min: int, s: Live, a: Attempt, events: seq<ServeEvent>,
                            wait: nat, extension: int, speed: int)
    requires a.Served? && speed != 0
    ensures var start := Opened(wake, min, s, a);
            TellsMoving(interval, min, start, Serve(interval, min, start, events), wait, extension, speed)
  {
    ServedSince(wake, interval, min, s, a, events);
    var start := Opened(wake, min, s, a);
    MovingToldSince(interval, min, start, Serve(interval, min, start, events), wait, extension, speed);
  }

  /** And so is the newest height on a flush tick. */
  lemma FlushTickTellsIff(wake: bool, interval: int, min: int, s: Live, a: Attempt, events: seq<ServeEvent>, wait: nat)
    requires a.Served?
    ensures var start := Opened(wake, min, s, a);
            TellsFlushed(interval, min, start, Serve(interval, min, start, events), wait)
  {
    ServedSince(wake, interval, min, s, a, events);
    var start := Opened(wake, min, s, a);
    FlushToldSince(interval, min, start, Serve(interval, min, start, events), wait);
  }

  /** A settled height, or a flush tick late enough for the throttle. */
  predicate Settles(min: int, t: Live, e: ServeEvent) {
    var u := Mirror.ThrottleOf(min, t.desk);
    || (e.Notify? && e.speed == 0)
    || (e.FlushTick? && (u.hasLast ==> t.clock + e.wait - u.lastAt >= min))
  }

  /** After it, the height told last is the newest one read since the desk came online. */
  lemma SessionSettles(wake: bool, interval: int, min: int, s: Live, a: Attempt, events: seq<ServeEvent>, e: ServeEvent)
    requires a.Served? && Settles(min, Serve(interval, min, Opened(wake, min, s, a), events), e)
    ensures var start := Opened(wake, min, s, a);
            var t := ServeStep(interval, min, Serve(interval, min, start, events), e);
            && |start.desk.ops| <= |t.desk.ops|
            && Last(HeightsSince(min, start, t)) == Newest(OpsSince(start, t))
            && (e.Notify? ==> Last(HeightsSince(min, start, t)) == Some(e.extension))
  {
    var start := Opened(wake, min, s, a);
    var b := Serve(interval, min, start, events);
    OpenedIsCleared(wake, min, s, a);
    ServeFollows(interval, min, start, events);
    var op := SettlingOpOf(b, e);
    SettlingOp(interval, min, b, e);
    SettlesSince(min, start, b, ServeStep(interval, min, b, e), op);
  }

  /** The throttle operation of a settled height or a flush tick. */
  function SettlingOpOf(b: Live, e: ServeEvent): Op
    requires e.Notify? || e.FlushTick?
  {
    if e.Notify? then Set(e.extension, true, b.clock + e.wait) else Flush(b.clock + e.wait)
  }

  lemma SettlesSince(min: int, start: Live, b: Live, t: Live, op: Op)
    requires Cleared(Mirror.ThrottleOf(min, start.desk)) && HeightsFollow(min, start, b) && t.desk.ops == b.desk.ops + [op]
    requires var u := Mirror.ThrottleOf(min, b.desk);
             (op.Set? && op.force) || (op.Flush? && (u.hasLast ==> op.at - u.lastAt >= min))
    ensures |start.desk.ops| <= |t.desk.ops| && Last(HeightsSince(min, start, t)) == Newest(OpsSince(start, t))
    ensures op.Set? ==> Last(HeightsSince(min, start, t)) == Some(op.v)
  {
    OpsGrow(min, start, b, t, op);
    EndsInNewest(min, Mirror.ThrottleOf(min, start.desk), OpsSince(start, b), op);
  }

  lemma SettlingOp(interval: int, min: int, b: Live, e: ServeEvent)
    requires Settles(min, b, e)
    ensures ServeStep(interval, min, b, e).desk.ops == b.desk.ops + [SettlingOpOf(b, e)]
  {
    var op := SettlingOpOf(b, e);
    var now := Serving.After(b, e.wait);
    var mirrored := if e.Notify? then Mirror.Reading(e.extension, true, now.clock) else Mirror.FlushTick(now.clock);
    ThrottledEffect(min, now, mirrored, op, Decision(min, Mirror.ThrottleOf(min, b.desk), op));
  }

  lemma EndsInNewest(min: int, t: State, ops: seq<Op>, op: Op)
    requires Cleared(t) && ResetFree(ops)
    requires var u := Run(min, t, ops);
             (op.Set? && op.force) || (op.Flush? && (u.hasLast ==> op.at - u.lastAt >= min))
    ensures Last(Trace(min, t, ops + [op])) == Newest(ops + [op])
    ensures op.Set? ==> Last(Trace(min, t, ops + [op])) == Some(op.v)
  {
    Converges(min, t, ops, op);
    SettledIffNothingPending(min, t, ops + [op]);
    LastPublishedIsLast(min, t, ops + [op]);
    NewestSince(min, t, ops + [op]);
  }
}
