/** A desk's connection attempts as a history, and what run's counters should be after it. */
module Lifecycle {
  import opened Arithmetic
  import opened Backoff
  import opened Matching
  import opened Options
  import opened Serving
  import opened Topics
  import Mirror
  import ThrottleSpec

  /** Retries after a session at least this long start again from the shortest delay. */
  const STABLE_CONNECTION := 60 * SECOND

  /**
   One round of run, as the world decides it; pid is what resolve is handed if it is asked. Refused:
   Connect, discover or ensureSubscriptions fails after took. Served: the link is set up after
   before; the wake-up, the stop and the ownership exchange take their times; the base height read
   on connect answers base; the events are served until the drop; the deferred Disconnect takes
   teardown. spread stands for the random number in the sleep that follows.
   */
  datatype Attempt =
    | Refused(pid: Pid, took: nat, spread: nat)
    | Served(pid: Pid, before: nat, wakeTook: nat, stopTook: nat, ownTook: nat, base: Option<int>, baseTook: nat,
             events: seq<ServeEvent>, teardown: nat, spread: nat)

  /** connectAndServe up to setOnline(true). */
  function Owned(wake: bool, s: Live, a: Attempt): Live
    requires a.Served?
  {
    var linked := After(s, a.before);
    Outbound(if wake then Outbound(Outbound(linked, a.wakeTook), a.stopTook) else linked, a.ownTook)
  }

  /** connectAndServe up to its select loop. */
  function Opened(wake: bool, min: int, s: Live, a: Attempt): Live
    requires a.Served?
  {
    var owned := Owned(wake, s, a);
    ReadBase(min, MirrorStep(min, owned, Mirror.CameOnline(owned.clock)), a.base, a.baseTook)
  }

  /** connectAndServe, all of it. */
  function Session(wake: bool, interval: int, min: int, s: Live, a: Attempt): Live {
    match a
    case Refused(_, took, _) => After(s, took)
    case Served(_, _, _, _, _, _, _, events, teardown, _) =>
      After(Serve(interval, min, Opened(wake, min, s, a), events), teardown)
  }

  /** Ownership has always been attempted when the loop starts, so idleFor has something to count from. */
  lemma LoopStartsWithActivity(wake: bool, min: int, s: Live, a: Attempt)
    requires a.Served?
    ensures var t := Opened(wake, min, s, a);
            Talks(t) && t.desk.online && t.clock == t.sent[|t.sent| - 1] + a.baseTook
  {
  }

  /**
   When the attempt comes online: once the link is up, the desk has been woken if it is to be, and
   ownership has been tried.
   */
  function UpAt(wake: bool, s: Live, a: Attempt): nat
    requires a.Served?
  {
    s.clock + a.before + (if wake then a.wakeTook + a.stopTook else 0) + a.ownTook
  }

  /** From s to t: the operations of a connect, at their times. */
  predicate SendsOpening(wake: bool, s: Live, t: Live, a: Attempt)
    requires a.Served?
  {
    var first := s.clock + a.before;
    t.sent == s.sent
            + (if wake then [first, first + a.wakeTook, first + a.wakeTook + a.stopTook] else [first])
            + [UpAt(wake, s, a)]
  }

  /** From s to t: online is told, then the base height if it could be read. */
  predicate TellsOpening(s: Live, t: Live, a: Attempt)
    requires a.Served?
  {
    t.told == s.told + [Mirror.Message("availability", "online")]
            + if a.base.Some? then [Mirror.Message("base_height", FormatTenthsMM(a.base.value))] else []
  }

  /**
   A connect, before its select loop: wake-up and stop only if configured, then ownership, online, a
   throttle reset, and the base height. The queue is left as the session before it left it.
   */
  lemma OpeningIs(wake: bool, min: int, s: Live, a: Attempt)
    requires a.Served?
    ensures var t := Opened(wake, min, s, a);
            && SendsOpening(wake, s, t, a) && TellsOpening(s, t, a) && Owned(wake, s, a).clock == UpAt(wake, s, a)
            && t.desk == Mirror.Desk(s.desk.ops + [ThrottleSpec.Reset(UpAt(wake, s, a))], s.desk.height,
                                     if a.base.Some? then a.base else s.desk.base, true)
            && t.queue == s.queue && t.accepted == s.accepted && t.applied == s.applied
            && t.clock == UpAt(wake, s, a) + a.baseTook
  {
    var owned := Owned(wake, s, a);
    CameOnlineEffect(min, owned);
  }

  /** A whole session keeps its desk from idling, if its base height read answers within the interval. */
  lemma SessionKeepsDeskAlive(wake: bool, interval: int, min: int, s: Live, a: Attempt, gap: nat)
    requires a.Served? && a.baseTook < interval
    requires Prompt(interval, min, Opened(wake, min, s, a), a.events, gap)
    ensures IdleFor(Serve(interval, min, Opened(wake, min, s, a), a.events)) < interval + gap
  {
    LoopStartsWithActivity(wake, min, s, a);
    NeverIdleForLong(interval, min, Opened(wake, min, s, a), a.events, gap);
  }

  lemma SessionKeepsQueue(wake: bool, interval: int, min: int, s: Live, a: Attempt)
    requires QueueInv(s)
    ensures QueueInv(Session(wake, interval, min, s, a))
  {
    if a.Served? { QueueKept(interval, min, Opened(wake, min, s, a), a.events); }
  }

  /** What run sees of an attempt: it failed, or it was online for held. */
  datatype Result = Failed | Held(held: int)

  predicate Stable(r: Result) {
    r.Held? && r.held >= STABLE_CONNECTION
  }

  /** Which delay follows the last round: counted from the start, or from the last stable session. */
  function SleepIndex(h: seq<Result>): nat
    requires h != []
  {
    if Stable(h[|h| - 1]) || |h| == 1 then 0 else SleepIndex(h[..|h| - 1]) + 1
  }

  /** Which delay would follow an unstable round. */
  function NextIndex(h: seq<Result>): nat {
    if h == [] then 0 else SleepIndex(h) + 1
  }

  /** Failed rounds since the last one that came online. */
  function FailStreak(h: seq<Result>): nat {
    if h == [] || h[|h| - 1].Held? then 0 else 1 + FailStreak(h[..|h| - 1])
  }

  /** The peripheral is forgotten after this round. */
  predicate Rescans(h: seq<Result>) {
    h != [] && h[|h| - 1].Failed? && FailStreak(h) % FAILURES_BEFORE_RESCAN == 0
  }

  /** One round as run goes through it: when it began, when it came online if it did, and when it was over. */
  datatype Round = Round(at: nat, onAt: Option<nat>, offAt: nat, result: Result, base: int, sleep: int, forgot: bool)

  function Results(log: seq<Round>): (h: seq<Result>)
    ensures |h| == |log| && forall i :: 0 <= i < |log| ==> h[i] == log[i].result
  {
    seq(|log|, i requires 0 <= i < |log| => log[i].result)
  }

  /**
   What is true of round i: it held for the time between its own two setOnline calls, its delay and
   jitter are the ones its place in the history calls for, it rescans when it should, and it did not
   begin before the sleep of the round before it was over.
   */
  predicate RoundOk(min: int, max: int, log: seq<Round>, i: nat)
    requires i < |log|
  {
    var r, h := log[i], Results(log)[..i + 1];
    && r.at <= r.offAt
    && (r.onAt.Some? ==> r.at <= r.onAt.value <= r.offAt)
    && r.result == (if r.onAt.Some? then Held(r.offAt - r.onAt.value) else Failed)
    && r.base == Doubled(min, max, SleepIndex(h)) && Eased(r.base, r.sleep)
    && (r.forgot <==> Rescans(h))
    && (i > 0 ==> r.at >= log[i - 1].offAt + log[i - 1].sleep)
  }

  predicate LogOk(min: int, max: int, log: seq<Round>) {
    forall i: nat :: i < |log| ==> RoundOk(min, max, log, i)
  }

  // The life a script of attempts makes

  /** What a desk's life depends on besides the world. */
  datatype Tuning = Tuning(wake: bool, interval: int, publishMin: int, backoffMin: int, backoffMax: int)

  /** A life so far: the record and the rounds. */
  datatype Life = Life(live: Live, log: seq<Round>)

  function SessionOf(p: Tuning, s: Live, a: Attempt): Live {
    Session(p.wake, p.interval, p.publishMin, s, a)
  }

  /** When the attempt comes online: at the end of its own ownership exchange. */
  function OnlineFrom(p: Tuning, s: Live, a: Attempt): Option<nat> {
    if a.Refused? then None else Some(Owned(p.wake, s, a).clock)
  }

  /** How long it then holds: up to the end of its own session. */
  function ResultOf(p: Tuning, s: Live, a: Attempt): Result {
    if a.Refused? then Failed else Held(SessionOf(p, s, a).clock - Owned(p.wake, s, a).clock)
  }

  /** A round holds from the end of its ownership exchange to the end of the deferred Disconnect. */
  lemma HeldIncludesDisconnect(p: Tuning, s: Live, a: Attempt)
    requires a.Served?
    ensures OnlineFrom(p, s, a) == Some(UpAt(p.wake, s, a))
    ensures ResultOf(p, s, a)
            == Held(Serve(p.interval, p.publishMin, Opened(p.wake, p.publishMin, s, a), a.events).clock
                    + a.teardown - UpAt(p.wake, s, a))
  {
    OpeningIs(p.wake, p.publishMin, s, a);
  }

  /** The round the attempt makes: its times from the record, its delay and rescan from the rounds so far. */
  function RoundOf(p: Tuning, life: Life, a: Attempt): Round {
    var s := life.live;
    var h := Results(life.log) + [ResultOf(p, s, a)];
    var base := Doubled(p.backoffMin, p.backoffMax, SleepIndex(h));
    Round(s.clock, OnlineFrom(p, s, a), SessionOf(p, s, a).clock, ResultOf(p, s, a),
          base, Jitter(base, a.spread), Rescans(h))
  }

  /** sleepCtx: a timer that is not for the future fires at once. */
  function Slept(s: Live, d: int): Live {
    After(s, if d < 0 then 0 else d)
  }

  /** The record after the attempt: its session, offline again, and asleep. */
  function LiveAfter(p: Tuning, s: Live, a: Attempt, sleep: int): Live {
    Slept(WentOffline(p.publishMin, SessionOf(p, s, a)), sleep)
  }

  /** Every attempt, even one refused, ends with the desk offline and the broker told so. */
  lemma AttemptEndsOffline(p: Tuning, s: Live, a: Attempt, sleep: int)
    ensures var t := LiveAfter(p, s, a, sleep);
            && !t.desk.online && t.told == SessionOf(p, s, a).told + [Mirror.Message("availability", "offline")]
            && t.clock == SessionOf(p, s, a).clock + (if sleep < 0 then 0 else sleep)
            && t.queue == SessionOf(p, s, a).queue
  {
  }

  /** A refused attempt does nothing else. */
  lemma RefusedTellsOffline(p: Tuning, s: Live, a: Attempt, sleep: int)
    requires a.Refused?
    ensures var t := LiveAfter(p, s, a, sleep);
            && t.told == s.told + [Mirror.Message("availability", "offline")]
            && t.sent == s.sent && t.queue == s.queue && t.accepted == s.accepted && t.applied == s.applied
            && t.desk == s.desk.(online := false)
            && t.clock == s.clock + a.took + (if sleep < 0 then 0 else sleep)
  {
  }

  function Lived(p: Tuning, life: Life, a: Attempt): Life {
    var r := RoundOf(p, life, a);
    Life(LiveAfter(p, life.live, a, r.sleep), life.log + [r])
  }

  function LifeOf(p: Tuning, life: Life, script: seq<Attempt>): Life
    decreases |script|
  {
    if script == [] then life else Lived(p, LifeOf(p, life, script[..|script| - 1]), script[|script| - 1])
  }

  /** The script so far has made start into life. */
  predicate MadeOf(p: Tuning, start: Life, done: seq<Attempt>, life: Life) {
    life == LifeOf(p, start, done)
  }

  lemma LivesOn(p: Tuning, start: Life, done: seq<Attempt>, a: Attempt, life: Life, next: Life)
    requires MadeOf(p, start, done, life) && next == Lived(p, life, a)
    ensures MadeOf(p, start, done + [a], next)
  {
    assert (done + [a])[..|done|] == done;
  }

  lemma TakeOneMore(script: seq<Attempt>, i: nat)
    requires i < |script|
    ensures script[..i] + [script[i]] == script[..i + 1]
  {
  }

  predicate FailsAsRefused(log: seq<Round>, script: seq<Attempt>) {
    |log| == |script| && forall i :: 0 <= i < |script| ==> (log[i].result.Failed? <==> script[i].Refused?)
  }

  lemma OneRoundMore(p: Tuning, before: Life, done: seq<Attempt>, a: Attempt)
    requires FailsAsRefused(before.log, done)
    ensures FailsAsRefused(Lived(p, before, a).log, done + [a])
  {
    assert Lived(p, before, a).log == before.log + [RoundOf(p, before, a)];
  }

  /** Each attempt makes one round, which fails exactly if the attempt is refused. */
  lemma {:induction false} OneRoundEach(p: Tuning, start: Life, script: seq<Attempt>, life: Life)
    requires MadeOf(p, start, script, life) && start.log == []
    ensures FailsAsRefused(life.log, script)
    decreases |script|
  {
    if script != [] {
      var before, done := LifeOf(p, start, script[..|script| - 1]), script[..|script| - 1];
      OneRoundEach(p, start, done, before);
      OneRoundMore(p, before, done, script[|script| - 1]);
      assert done + [script[|script| - 1]] == script;
    }
  }

  predicate NeverStable(h: seq<Result>, from: nat, to: nat) {
    forall i :: from <= i < to && i < |h| ==> !Stable(h[i])
  }

  /** Rounds without a stable session climb the delays one by one. */
  lemma {:induction false} UnstableRoundsClimb(h: seq<Result>, from: nat, i: nat)
    requires from <= i < |h| && NeverStable(h, from + 1, i + 1)
    requires from == 0 || Stable(h[from])
    ensures SleepIndex(h[..i + 1]) == i - from
    decreases i
  {
    if i > from {
      assert h[..i + 1][..i] == h[..i];
      UnstableRoundsClimb(h, from, i - 1);
    }
  }

  /**
   A desk that never holds a connection for long, from the start or since a session that did, cannot
   reach its n-th next attempt sooner than the first n delays add up to.
   */
  lemma {:induction false} RetriesTakeTime(min: int, max: int, log: seq<Round>, from: nat, n: nat)
    requires Sane(min, max) && LogOk(min, max, log) && from + n < |log|
    requires from == 0 || Stable(log[from].result)
    requires NeverStable(Results(log), from + 1, from + n)
    ensures log[from + n].at >= log[from].at + Sum(min, max, n)
    decreases n
  {
    if n > 0 {
      RetriesTakeTime(min, max, log, from, n - 1);
      assert RoundOk(min, max, log, from + n) && RoundOk(min, max, log, from + n - 1);
      UnstableRoundsClimb(Results(log), from, from + n - 1);
      DoubledIsBase(min, max, n - 1);
      NextIsBase(min, max, n - 1);
    }
  }

  /** So a flapping desk is soon retried no more than once per maxBackoff: only its first k delays are short. */
  lemma FlappingIsRateLimited(min: int, max: int, log: seq<Round>, from: nat, n: nat, k: nat)
    requires Sane(min, max) && LogOk(min, max, log) && from + n < |log|
    requires from == 0 || Stable(log[from].result)
    requires NeverStable(Results(log), from + 1, from + n)
    requires min * Pow2(k) >= max && k <= n
    ensures log[from + n].at - log[from].at >= (n - k) * max
  {
    RetriesTakeTime(min, max, log, from, n);
    SumAfterCap(min, max, k, n);
  }

  // The rules of the log, round by round

  /** The round came online and stayed so for at least a minute. */
  predicate HeldAMinute(r: Round) {
    r.onAt.Some? && r.offAt - r.onAt.value >= 60_000_000_000
  }

  /** The delay starts at the minimum, comes back to it after a minute's connection, and doubles otherwise. */
  predicate DelaysFollow(min: int, max: int, log: seq<Round>) {
    forall i :: 0 <= i < |log| ==>
      log[i].base == if i == 0 || HeldAMinute(log[i]) then min else Next(log[i - 1].base, max)
  }

  /** The peripheral is forgotten on every third round in a row that never came online. */
  predicate RescansFollow(log: seq<Round>) {
    forall i :: 0 <= i < |log| ==>
      (log[i].forgot <==>
         i >= 2 && log[i - 2].onAt.None? && log[i - 1].onAt.None? && log[i].onAt.None?
         && !log[i - 2].forgot && !log[i - 1].forgot)
  }

  lemma DelayFollows(min: int, max: int, log: seq<Round>, i: nat)
    requires LogOk(min, max, log) && i < |log|
    ensures log[i].base == if i == 0 || HeldAMinute(log[i]) then min else Next(log[i - 1].base, max)
  {
    assert RoundOk(min, max, log, i);
    var h := Results(log)[..i + 1];
    assert h[i] == log[i].result;
    if i > 0 && !HeldAMinute(log[i]) {
      assert RoundOk(min, max, log, i - 1);
      assert h[..i] == Results(log)[..i];
    }
  }

  /** Failures in a row, counted on. */
  lemma StreakAt(log: seq<Round>, i: nat)
    requires i < |log|
    ensures var h := Results(log);
            FailStreak(h[..i + 1]) == if h[i].Held? then 0 else FailStreak(h[..i]) + 1
  {
    assert Results(log)[..i + 1][..i] == Results(log)[..i];
  }

  lemma RoundRescans(min: int, max: int, log: seq<Round>, i: nat)
    requires LogOk(min, max, log) && i < |log|
    ensures log[i].onAt.None? <==> Results(log)[i].Failed?
    ensures log[i].forgot <==> Results(log)[i].Failed? && FailStreak(Results(log)[..i + 1]) % 3 == 0
  {
    assert RoundOk(min, max, log, i);
  }

  lemma {:induction false} StreakIsShort(h: seq<Result>)
    ensures FailStreak(h) <= |h|
  {
    if h != [] && h[|h| - 1].Failed? { StreakIsShort(h[..|h| - 1]); }
  }

  /** Counting failures by threes, one round after the other. */
  lemma ThreeInARow(s: nat, s0: nat, s1: nat, s2: nat, failed0: bool, failed1: bool, failed2: bool)
    requires s0 == (if failed0 then s + 1 else 0) && s1 == (if failed1 then s0 + 1 else 0)
    requires s2 == (if failed2 then s1 + 1 else 0)
    ensures failed2 && s2 % 3 == 0 <==>
              failed0 && failed1 && failed2 && !(failed0 && s0 % 3 == 0) && !(failed1 && s1 % 3 == 0)
  {
  }

  lemma EarlyRoundsKeep(min: int, max: int, log: seq<Round>, i: nat)
    requires LogOk(min, max, log) && i < |log| && i < 2
    ensures !log[i].forgot
  {
    RoundRescans(min, max, log, i);
    StreakAt(log, i);
    StreakIsShort(Results(log)[..i + 1]);
  }

  lemma RescanFollows(min: int, max: int, log: seq<Round>, i: nat)
    requires LogOk(min, max, log) && i < |log|
    ensures log[i].forgot <==>
              i >= 2 && log[i - 2].onAt.None? && log[i - 1].onAt.None? && log[i].onAt.None?
              && !log[i - 2].forgot && !log[i - 1].forgot
  {
    if i < 2 {
      EarlyRoundsKeep(min, max, log, i);
    } else {
      var h := Results(log);
      RoundRescans(min, max, log, i - 2);
      RoundRescans(min, max, log, i - 1);
      RoundRescans(min, max, log, i);
      StreakAt(log, i - 2);
      StreakAt(log, i - 1);
      StreakAt(log, i);
      ThreeInARow(FailStreak(h[..i - 2]), FailStreak(h[..i - 1]), FailStreak(h[..i]), FailStreak(h[..i + 1]),
                  h[i - 2].Failed?, h[i - 1].Failed?, h[i].Failed?);
    }
  }

  /** What a log in order is like, without its counters: each round's delay and rescan from its neighbours alone. */
  lemma LogFollows(min: int, max: int, log: seq<Round>)
    requires LogOk(min, max, log)
    ensures DelaysFollow(min, max, log) && RescansFollow(log)
  {
    forall i | 0 <= i < |log|
      ensures log[i].base == if i == 0 || HeldAMinute(log[i]) then min else Next(log[i - 1].base, max)
    {
      DelayFollows(min, max, log, i);
    }
    forall i | 0 <= i < |log|
      ensures log[i].forgot <==>
                i >= 2 && log[i - 2].onAt.None? && log[i - 1].onAt.None? && log[i].onAt.None?
                && !log[i - 2].forgot && !log[i - 1].forgot
    {
      RescanFollows(min, max, log, i);
    }
  }

  lemma BeyondFirstIsLonger(min: int, max: int, k: nat)
    requires Sane(min, max) && min < max && k >= 1
    ensures Base(min, max, k) > min
  {
    ProductsGrow(2, Pow2(k), min);
  }

  /** After the first round the shortest delay comes back exactly after a minute's connection. */
  lemma ShortDelayIffHeldAMinute(min: int, max: int, log: seq<Round>, i: nat)
    requires Sane(min, max) && min < max && LogOk(min, max, log) && 0 < i < |log|
    ensures log[i].base == min <==> HeldAMinute(log[i])
  {
    DelayFollows(min, max, log, i);
    if !HeldAMinute(log[i]) {
      assert RoundOk(min, max, log, i - 1);
      var k := SleepIndex(Results(log)[..i]);
      DoubledIsBase(min, max, k);
      NextIsBase(min, max, k);
      BeyondFirstIsLonger(min, max, k + 1);
    }
  }

  /** The peripheral a desk has after its rounds: the one resolved in the first round since it last had none. */
  function KnownPid(log: seq<Round>, script: seq<Attempt>): string
    requires |log| == |script|
  {
    if log == [] || log[|log| - 1].forgot then ""
    else
      var before := KnownPid(log[..|log| - 1], script[..|script| - 1]);
      if before == "" then script[|script| - 1].pid else before
  }

  lemma KnownPidStep(log: seq<Round>, script: seq<Attempt>, r: Round, a: Attempt)
    requires |log| == |script|
    ensures KnownPid(log + [r], script + [a])
            == if r.forgot then "" else if KnownPid(log, script) == "" then a.pid else KnownPid(log, script)
  {
    assert (log + [r])[..|log|] == log && (script + [a])[..|script|] == script;
  }

  /** What the next round must be like for the log to stay in order. */
  predicate FitsNext(min: int, max: int, log: seq<Round>, r: Round) {
    var h := Results(log);
    && r.at <= r.offAt
    && (r.onAt.Some? ==> r.at <= r.onAt.value <= r.offAt)
    && r.result == (if r.onAt.Some? then Held(r.offAt - r.onAt.value) else Failed)
    && r.base == (if Stable(r.result) then min else Doubled(min, max, NextIndex(h))) && Eased(r.base, r.sleep)
    && (r.forgot <==> r.result.Failed? && FailStreak(h) % FAILURES_BEFORE_RESCAN == FAILURES_BEFORE_RESCAN - 1)
    && (log != [] ==> r.at >= log[|log| - 1].offAt + log[|log| - 1].sleep)
  }

  lemma IndexStep(h: seq<Result>, r: Result)
    ensures SleepIndex(h + [r]) == if Stable(r) then 0 else NextIndex(h)
  {
    assert (h + [r])[..|h|] == h;
  }

  lemma StreakStep(h: seq<Result>, r: Result)
    ensures FailStreak(h + [r]) == if r.Held? then 0 else FailStreak(h) + 1
  {
    assert (h + [r])[..|h|] == h;
  }

  /** One more result moves each counter by its own rule. */
  lemma CountersStep(h: seq<Result>, r: Result)
    ensures SleepIndex(h + [r]) == if Stable(r) then 0 else NextIndex(h)
    ensures FailStreak(h + [r]) == if r.Held? then 0 else FailStreak(h) + 1
    ensures Rescans(h + [r]) <==> r.Failed? && FailStreak(h) % FAILURES_BEFORE_RESCAN == FAILURES_BEFORE_RESCAN - 1
  {
    IndexStep(h, r);
    StreakStep(h, r);
  }

  lemma ResultsGrow(log: seq<Round>, r: Round)
    ensures Results(log + [r]) == Results(log) + [r.result]
  {
  }

  lemma LogGrows(min: int, max: int, log: seq<Round>, r: Round)
    requires LogOk(min, max, log) && FitsNext(min, max, log, r)
    ensures LogOk(min, max, log + [r])
  {
    var longer, h := log + [r], Results(log);
    ResultsGrow(log, r);
    CountersStep(h, r.result);
    forall i: nat | i < |longer|
      ensures RoundOk(min, max, longer, i)
    {
      if i < |log| {
        assert RoundOk(min, max, log, i);
        assert Results(longer)[..i + 1] == h[..i + 1];
      } else {
        assert Results(longer)[..i + 1] == h + [r.result];
      }
    }
  }

  /** run's own variables at the top of its loop, as the history determines them. */
  predicate Tracks(min: int, max: int, log: seq<Round>, consecFailure: nat, backoff: int, known: bool) {
    && LogOk(min, max, log)
    && consecFailure == FailStreak(Results(log)) % FAILURES_BEFORE_RESCAN
    && backoff == Doubled(min, max, NextIndex(Results(log)))
    && (known <==> log != [] && !log[|log| - 1].forgot)
  }

  /** What one pass through the loop does to those variables. */
  predicate Passes(min: int, max: int, r: Round, before: nat, after: nat, backoff: int, next: int, known: bool) {
    && r.at <= r.offAt
    && (r.onAt.Some? ==> r.at <= r.onAt.value <= r.offAt)
    && r.result == (if r.onAt.Some? then Held(r.offAt - r.onAt.value) else Failed)
    && r.base == (if Stable(r.result) then min else backoff) && Eased(r.base, r.sleep)
    && next == Next(r.base, max)
    && (r.forgot <==> r.result.Failed? && before + 1 >= FAILURES_BEFORE_RESCAN)
    && after == (if r.result.Held? || r.forgot then 0 else before + 1)
    && (known <==> !r.forgot)
  }

  /** A pass at the times the record gives it is the round the history calls for. */
  lemma PassIsRoundOf(p: Tuning, life: Life, a: Attempt, r: Round,
                      before: nat, after: nat, backoff: int, next: int, known: bool, known': bool)
    requires Tracks(p.backoffMin, p.backoffMax, life.log, before, backoff, known)
    requires Passes(p.backoffMin, p.backoffMax, r, before, after, backoff, next, known')
    requires r.at == life.live.clock && r.onAt == OnlineFrom(p, life.live, a) && r.offAt == SessionOf(p, life.live, a).clock
    requires r.sleep == Jitter(r.base, a.spread)
    ensures r == RoundOf(p, life, a)
  {
    CountersStep(Results(life.log), r.result);
  }

  lemma PassFits(min: int, max: int, log: seq<Round>, r: Round,
                 before: nat, after: nat, backoff: int, next: int, known: bool, known': bool)
    requires Tracks(min, max, log, before, backoff, known) && Passes(min, max, r, before, after, backoff, next, known')
    requires log != [] ==> r.at >= log[|log| - 1].offAt + log[|log| - 1].sleep
    ensures FitsNext(min, max, log, r)
  {
  }

  /** The failure counter and the delay follow the history on. */
  lemma PassFollows(min: int, max: int, log: seq<Round>, r: Round,
                    before: nat, after: nat, backoff: int, next: int, known: bool, known': bool)
    requires Tracks(min, max, log, before, backoff, known) && Passes(min, max, r, before, after, backoff, next, known')
    ensures var h := Results(log) + [r.result];
            after == FailStreak(h) % FAILURES_BEFORE_RESCAN && next == Doubled(min, max, NextIndex(h))
  {
    var h := Results(log);
    CountersStep(h, r.result);
  }

  lemma PassKeepsTrack(min: int, max: int, log: seq<Round>, r: Round,
                       before: nat, after: nat, backoff: int, next: int, known: bool, known': bool)
    requires Tracks(min, max, log, before, backoff, known)
    requires Passes(min, max, r, before, after, backoff, next, known')
    requires log != [] ==> r.at >= log[|log| - 1].offAt + log[|log| - 1].sleep
    ensures Tracks(min, max, log + [r], after, next, known')
  {
    PassFits(min, max, log, r, before, after, backoff, next, known, known');
    LogGrows(min, max, log, r);
    PassFollows(min, max, log, r, before, after, backoff, next, known, known');
    ResultsGrow(log, r);
  }
}
