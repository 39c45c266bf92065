/**
 One desk while it is being served: the state the serve loop and the callbacks around it share, as
 a value, and what each event does to it. The clock only moves by the durations the events carry.
 */
module Serving {
  import opened Arithmetic
  import opened Backoff
  import opened Options
  import opened Topics
  import opened ThrottleSpec
  import Mirror

  const QUEUE_CAPACITY: nat := 8

  datatype Kind = Height | BaseHeight

  datatype Command = Command(kind: Kind, value: int)

  datatype Live = Live(
    clock: nat,
    lastActivity: Option<nat>,
    queue: seq<Command>,          // m.commands
    sent: seq<nat>,               // when each operation against the desk went out
    accepted: seq<Command>,       // every command ever queued
    applied: seq<Command>,        // every command ever taken from the queue
    desk: Mirror.Desk,
    told: seq<Mirror.Message>)    // everything passed to publish

  datatype ServeEvent =
    | FlushTick(wait: nat)
    | KeepAliveTick(wait: nat, took: nat)
    | NextCommand(wait: nat, took: nat, ok: bool, base: Option<int>, baseTook: nat)
    | Incoming(wait: nat, kind: Kind, payload: string, decoded: Option<map<string, string>>)
    | Notify(wait: nat, extension: int, speed: int)

  function MirrorStep(min: int, s: Live, op: Mirror.DeskOp): Live {
    var (desk, msgs) := Mirror.DeskStep(min, s.desk, op);
    s.(desk := desk, told := s.told + msgs)
  }

  /** What coming online does to the record, spelled out. */
  lemma CameOnlineEffect(min: int, s: Live)
    ensures MirrorStep(min, s, Mirror.CameOnline(s.clock))
            == s.(desk := s.desk.(ops := s.desk.ops + [Reset(s.clock)], online := true),
                  told := s.told + [Mirror.Message(LEAF_AVAILABILITY, Mirror.ONLINE)])
  {
  }

  /** What a reading or a flush tick does to the record, given the throttle's decision. */
  lemma ThrottledEffect(min: int, s: Live, mirrored: Mirror.DeskOp, op: Op, out: Option<int>)
    requires (mirrored.Reading? && op == Set(mirrored.v, mirrored.force, mirrored.at))
             || (mirrored.FlushTick? && op == Flush(mirrored.at))
    requires out == Decision(min, Mirror.ThrottleOf(min, s.desk), op)
    ensures MirrorStep(min, s, mirrored) == if out.None? then s.(desk := s.desk.(ops := s.desk.ops + [op]))
              else s.(desk := s.desk.(ops := s.desk.ops + [op], height := out),
                      told := s.told + [Mirror.Message(LEAF_HEIGHT, FormatTenthsMM(out.value))])
  {
  }

  /** command: note the activity, then talk to the desk for as long as it takes. */
  function Outbound(s: Live, took: nat): Live {
    s.(lastActivity := Some(s.clock), sent := s.sent + [s.clock], clock := s.clock + took)
  }

  /** idleFor: nothing has been idle before the first operation. */
  function IdleFor(s: Live): nat {
    if s.lastActivity.None? || s.clock < s.lastActivity.value then 0 else s.clock - s.lastActivity.value
  }

  /** keepAlive, with the configured interval. */
  function KeepAlive(interval: int, s: Live, took: nat): Live {
    if interval <= 0 || !s.desk.online || IdleFor(s) < interval then s else Outbound(s, took)
  }

  /** readBaseHeight: base is what the desk answers, None for an error. */
  function ReadBase(min: int, s: Live, base: Option<int>, took: nat): Live {
    var t := Outbound(s, took);
    if base.Some? then MirrorStep(min, t, Mirror.BaseRead(base.value)) else t
  }

  /** submit: parsed, checked against online, and queued if there is room. */
  function Submit(s: Live, kind: Kind, payload: string, decoded: Option<map<string, string>>): Live {
    var value := ParseTenthsMM(payload, decoded);
    if value.Err? || !s.desk.online || |s.queue| >= QUEUE_CAPACITY then s
    else s.(queue := s.queue + [Command(kind, value.value)], accepted := s.accepted + [Command(kind, value.value)])
  }

  /** apply, on the head of the queue. */
  function ApplyHead(min: int, s: Live, took: nat, ok: bool, base: Option<int>, baseTook: nat): Live
    requires s.queue != []
  {
    var t := Outbound(s.(queue := s.queue[1..], applied := s.applied + [s.queue[0]]), took);
    if s.queue[0].kind == BaseHeight && ok then ReadBase(min, t, base, baseTook) else t
  }

  /** setOnline(false), and the availability message. */
  function WentOffline(min: int, s: Live): Live {
    MirrorStep(min, s, Mirror.WentOffline)
  }

  function After(s: Live, wait: nat): Live {
    s.(clock := s.clock + wait)
  }

  function ServeStep(interval: int, min: int, s: Live, e: ServeEvent): Live {
    var now := After(s, e.wait);
    match e
    case FlushTick(_) => MirrorStep(min, now, Mirror.FlushTick(now.clock))
    case KeepAliveTick(_, took) => KeepAlive(interval, now, took)
    case NextCommand(_, took, ok, base, baseTook) =>
      if s.queue == [] then now else ApplyHead(min, now, took, ok, base, baseTook)
    case Incoming(_, kind, payload, decoded) => Submit(now, kind, payload, decoded)
    case Notify(_, extension, speed) => MirrorStep(min, now, Mirror.Reading(extension, speed == 0, now.clock))
  }

  function Serve(interval: int, min: int, s: Live, events: seq<ServeEvent>): Live
    decreases |events|
  {
    if events == [] then s
    else ServeStep(interval, min, Serve(interval, min, s, events[..|events| - 1]), events[|events| - 1])
  }

  // Commands

  predicate QueueInv(s: Live) {
    && s.accepted == s.applied + s.queue
    && |s.queue| <= QUEUE_CAPACITY
    && forall k :: 0 <= k < |s.accepted| ==> 0 <= s.accepted[k].value <= MAX_TENTHS_MM
  }

  lemma ApplyKeepsQueue(min: int, s: Live, took: nat, ok: bool, base: Option<int>, baseTook: nat)
    requires QueueInv(s) && s.queue != []
    ensures QueueInv(ApplyHead(min, s, took, ok, base, baseTook))
  {
    var t := ApplyHead(min, s, took, ok, base, baseTook);
    assert t.queue == s.queue[1..] && t.applied == s.applied + [s.queue[0]] && t.accepted == s.accepted;
    assert s.applied + s.queue == s.applied + [s.queue[0]] + s.queue[1..];
  }

  lemma SubmitKeepsQueue(s: Live, kind: Kind, payload: string, decoded: Option<map<string, string>>)
    requires QueueInv(s)
    ensures QueueInv(Submit(s, kind, payload, decoded))
  {
  }

  lemma StepKeepsQueue(interval: int, min: int, s: Live, e: ServeEvent)
    requires QueueInv(s)
    ensures QueueInv(ServeStep(interval, min, s, e))
  {
    match e
    case NextCommand(_, took, ok, base, baseTook) =>
      if s.queue != [] { ApplyKeepsQueue(min, After(s, e.wait), took, ok, base, baseTook); }
    case Incoming(_, kind, payload, decoded) => SubmitKeepsQueue(After(s, e.wait), kind, payload, decoded);
    case _ =>
  }

  /** Serving applies commands in the order they were accepted, loses none, and sends the desk only values it can hold. */
  lemma {:induction false} QueueKept(interval: int, min: int, s: Live, events: seq<ServeEvent>)
    requires QueueInv(s)
    ensures QueueInv(Serve(interval, min, s, events))
    decreases |events|
  {
    if events != [] {
      QueueKept(interval, min, s, events[..|events| - 1]);
      StepKeepsQueue(interval, min, Serve(interval, min, s, events[..|events| - 1]), events[|events| - 1]);
    }
  }

  /** A payload reaches the queue exactly if it is a height, the desk is online and fewer than eight are waiting. */
  lemma IncomingQueuedIff(interval: int, min: int, s: Live, wait: nat, kind: Kind, payload: string,
                          decoded: Option<map<string, string>>)
    ensures var t := ServeStep(interval, min, s, Incoming(wait, kind, payload, decoded));
            var v := ParseTenthsMM(payload, decoded);
            && (v.Ok? && s.desk.online && |s.queue| < 8 ==>
                  t.queue == s.queue + [Command(kind, v.value)] && t.accepted == s.accepted + [Command(kind, v.value)])
            && (v.Err? || !s.desk.online || |s.queue| >= 8 ==> t.queue == s.queue && t.accepted == s.accepted)
            && t.sent == s.sent && t.applied == s.applied && t.desk == s.desk && t.told == s.told
  {
  }

  lemma StepStaysOffline(interval: int, min: int, s: Live, e: ServeEvent)
    requires !s.desk.online
    ensures !ServeStep(interval, min, s, e).desk.online && ServeStep(interval, min, s, e).accepted == s.accepted
  {
  }

  /** While a desk is offline nothing is accepted, whatever comes. */
  lemma {:induction false} OfflineAcceptsNothing(interval: int, min: int, s: Live, events: seq<ServeEvent>)
    requires !s.desk.online
    ensures !Serve(interval, min, s, events).desk.online && Serve(interval, min, s, events).accepted == s.accepted
    decreases |events|
  {
    if events != [] {
      OfflineAcceptsNothing(interval, min, s, events[..|events| - 1]);
      StepStaysOffline(interval, min, Serve(interval, min, s, events[..|events| - 1]), events[|events| - 1]);
    }
  }

  /** From s to t, handling cmd at time at: one operation, or two when a base height is taken and read back. */
  predicate Handles(s: Live, t: Live, cmd: Command, at: nat, took: nat, ok: bool, base: Option<int>, baseTook: nat) {
    var readBack := cmd.kind == BaseHeight && ok;
    && t.sent == s.sent + (if readBack then [at, at + took] else [at])
    && t.lastActivity == Some(if readBack then at + took else at)
    && t.clock == at + took + (if readBack then baseTook else 0)
    && t.desk == (if readBack && base.Some? then s.desk.(base := base) else s.desk)
    && t.told == s.told + if readBack && base.Some? then [Mirror.Message("base_height", FormatTenthsMM(base.value))] else []
  }

  /** The oldest command is taken; a base height the desk took is read back, recorded and told, and nothing else is. */
  lemma NextCommandHandled(interval: int, min: int, s: Live, wait: nat, took: nat, ok: bool, base: Option<int>,
                           baseTook: nat)
    requires s.queue != []
    ensures var t := ServeStep(interval, min, s, NextCommand(wait, took, ok, base, baseTook));
            && [s.queue[0]] + t.queue == s.queue && t.applied == s.applied + [s.queue[0]] && t.accepted == s.accepted
            && Handles(s, t, s.queue[0], s.clock + wait, took, ok, base, baseTook)
  {
  }

  // The keepalive

  /** With keepalives off, or offline, or before the first operation, a tick does nothing. */
  lemma NoKeepalive(interval: int, min: int, s: Live, wait: nat, took: nat)
    requires interval <= 0 || !s.desk.online || s.lastActivity.None?
    ensures ServeStep(interval, min, s, KeepAliveTick(wait, took)) == s.(clock := s.clock + wait)
  {
  }

  /** Operations since start, between one and two for each command applied since then. */
  predicate OnlyCommands(start: Live, t: Live) {
    && |start.sent| <= |t.sent| && |start.applied| <= |t.applied|
    && |t.applied| - |start.applied| <= |t.sent| - |start.sent| <= 2 * (|t.applied| - |start.applied|)
  }

  lemma OnlyCommandsStep(interval: int, min: int, start: Live, s: Live, e: ServeEvent)
    requires interval <= 0 && OnlyCommands(start, s)
    ensures OnlyCommands(start, ServeStep(interval, min, s, e))
  {
    match e
    case KeepAliveTick(wait, took) => NoKeepalive(interval, min, s, wait, took);
    case NextCommand(wait, took, ok, base, baseTook) =>
      if s.queue != [] { NextCommandHandled(interval, min, s, wait, took, ok, base, baseTook); }
    case _ =>
  }

  /** With keepalives off, the desk is sent nothing while it is served but what its commands ask for. */
  lemma {:induction false} OperationsAreCommands(interval: int, min: int, s: Live, events: seq<ServeEvent>)
    requires interval <= 0
    ensures OnlyCommands(s, Serve(interval, min, s, events))
    decreases |events|
  {
    if events != [] {
      OperationsAreCommands(interval, min, s, events[..|events| - 1]);
      OnlyCommandsStep(interval, min, s, Serve(interval, min, s, events[..|events| - 1]), events[|events| - 1]);
    }
  }

  /** When the loop last handled a keepalive tick, or began. */
  function LastCheck(interval: int, min: int, s: Live, events: seq<ServeEvent>): nat
    decreases |events|
  {
    if events == [] then s.clock
    else
      var before, e := events[..|events| - 1], events[|events| - 1];
      if e.KeepAliveTick? then Serve(interval, min, s, before).clock + e.wait else LastCheck(interval, min, s, before)
  }

  /** The loop never goes for longer than gap without handling a keepalive tick. */
  predicate Prompt(interval: int, min: int, s: Live, events: seq<ServeEvent>, gap: nat)
    decreases |events|
  {
    events == [] ||
    var before, e := events[..|events| - 1], events[|events| - 1];
    && Prompt(interval, min, s, before, gap)
    && Serve(interval, min, s, before).clock + e.wait <= LastCheck(interval, min, s, before) + gap
    && Serve(interval, min, s, events).clock <= LastCheck(interval, min, s, events) + gap
  }

  /** From the k-th on, consecutive times are in order and at most bound apart. */
  predicate Spaced(times: seq<nat>, k: int, bound: int) {
    forall i :: 0 < i < |times| && k < i ==> times[i - 1] <= times[i] && times[i] - times[i - 1] <= bound
  }

  /** lastActivity is when the last operation went out, and there has been one. */
  predicate Talks(s: Live) {
    s.sent != [] && s.lastActivity == Some(s.sent[|s.sent| - 1]) && s.lastActivity.value <= s.clock
  }

  /** From s to t operations followed on at most bound apart, and the bookkeeping of the last one was kept. */
  predicate Follows(s: Live, t: Live, bound: int) {
    && Talks(t) && t.desk.online
    && s.clock <= t.clock && s.sent <= t.sent && Spaced(t.sent, |s.sent| - 1, bound)
  }

  /** Publishing sends the desk nothing and takes no time. */
  lemma MirrorStepIsQuiet(min: int, s: Live, op: Mirror.DeskOp)
    requires op.Reading? || op.FlushTick? || op.BaseRead?
    ensures var t := MirrorStep(min, s, op);
            && t.clock == s.clock && t.lastActivity == s.lastActivity && t.sent == s.sent && t.queue == s.queue
            && t.desk.online == s.desk.online
  {
  }

  lemma OutboundFollows(s: Live, took: nat, bound: int)
    requires Talks(s) && s.desk.online && s.clock - s.sent[|s.sent| - 1] <= bound
    ensures Follows(s, Outbound(s, took), bound)
  {
  }

  lemma ReadBaseFollows(min: int, s: Live, base: Option<int>, took: nat, bound: int)
    requires Talks(s) && s.desk.online && s.clock - s.sent[|s.sent| - 1] <= bound
    ensures Follows(s, ReadBase(min, s, base, took), bound)
  {
    OutboundFollows(s, took, bound);
    if base.Some? { MirrorStepIsQuiet(min, Outbound(s, took), Mirror.BaseRead(base.value)); }
  }

  lemma {:induction false} SpacedAscends(times: seq<nat>, k: nat, bound: int)
    requires k < |times| && Spaced(times, k, bound)
    ensures times[k] <= times[|times| - 1]
    decreases |times| - k
  {
    if k + 1 < |times| {
      assert times[k] <= times[k + 1];
      SpacedAscends(times, k + 1, bound);
    }
  }

  lemma FollowsOn(s: Live, t: Live, u: Live, bound: int)
    requires Follows(s, t, bound) && Follows(t, u, bound)
    ensures Follows(s, u, bound)
  {
    SpacedAscends(u.sent, |t.sent| - 1, bound);
    assert forall i :: 0 <= i < |t.sent| ==> u.sent[i] == t.sent[i];
  }

  lemma ApplyFollows(min: int, s: Live, took: nat, ok: bool, base: Option<int>, baseTook: nat, bound: int)
    requires Talks(s) && s.desk.online && s.queue != []
    requires s.clock + took - s.sent[|s.sent| - 1] <= bound
    ensures Follows(s, ApplyHead(min, s, took, ok, base, baseTook), bound)
  {
    var taken := s.(queue := s.queue[1..], applied := s.applied + [s.queue[0]]);
    var t := Outbound(taken, took);
    OutboundFollows(taken, took, bound);
    assert Follows(s, t, bound);
    if s.queue[0].kind == BaseHeight && ok {
      ReadBaseFollows(min, t, base, baseTook, bound);
      FollowsOn(s, t, ReadBase(min, t, base, baseTook), bound);
    }
  }

  /** Nothing sent, nothing forgotten, some time gone by. */
  lemma QuietFollows(s: Live, t: Live, bound: int)
    requires Talks(s) && t.sent == s.sent && t.lastActivity == s.lastActivity && t.clock >= s.clock && t.desk.online
    ensures Follows(s, t, bound)
  {
  }

  lemma NextCommandFollows(min: int, s: Live, took: nat, ok: bool, base: Option<int>, baseTook: nat, bound: int)
    requires Talks(s) && s.desk.online && s.queue != []
    requires ApplyHead(min, s, took, ok, base, baseTook).clock - s.sent[|s.sent| - 1] <= bound
    ensures Follows(s, ApplyHead(min, s, took, ok, base, baseTook), bound)
  {
    ApplyTakesTime(min, s, took, ok, base, baseTook);
    ApplyFollows(min, s, took, ok, base, baseTook, bound);
  }

  lemma KeepAliveFollows(interval: int, s: Live, took: nat, bound: int)
    requires Talks(s) && s.desk.online && s.clock - s.sent[|s.sent| - 1] <= bound
    ensures Follows(s, KeepAlive(interval, s, took), bound)
  {
    OutboundFollows(s, took, bound);
    QuietFollows(s, s, bound);
  }

  /** Whatever an event sends follows on, if the event is over in time; a tick need only begin in time. */
  lemma ServeStepFollows(interval: int, min: int, s: Live, e: ServeEvent, bound: int)
    requires Talks(s) && s.desk.online
    requires var over := if e.KeepAliveTick? then s.clock + e.wait else ServeStep(interval, min, s, e).clock;
             over - s.sent[|s.sent| - 1] <= bound
    ensures Follows(After(s, e.wait), ServeStep(interval, min, s, e), bound)
  {
    var now := After(s, e.wait);
    match e
    case KeepAliveTick(_, took) => KeepAliveFollows(interval, now, took, bound);
    case NextCommand(_, took, ok, base, baseTook) =>
      if s.queue == [] {
        QuietFollows(now, now, bound);
      } else {
        NextCommandFollows(min, now, took, ok, base, baseTook, bound);
      }
    case FlushTick(_) => MirrorStepFollows(min, now, Mirror.FlushTick(now.clock), bound);
    case Incoming(_, _, _, _) => QuietFollows(now, ServeStep(interval, min, s, e), bound);
    case Notify(_, extension, speed) =>
      MirrorStepFollows(min, now, Mirror.Reading(extension, speed == 0, now.clock), bound);
  }

  lemma MirrorStepFollows(min: int, s: Live, op: Mirror.DeskOp, bound: int)
    requires Talks(s) && s.desk.online && (op.Reading? || op.FlushTick?)
    ensures Follows(s, MirrorStep(min, s, op), bound)
  {
    MirrorStepIsQuiet(min, s, op);
    QuietFollows(s, MirrorStep(min, s, op), bound);
  }

  lemma ApplyTakesTime(min: int, s: Live, took: nat, ok: bool, base: Option<int>, baseTook: nat)
    requires s.queue != []
    ensures ApplyHead(min, s, took, ok, base, baseTook).clock >= s.clock + took
  {
  }

  /** From s on, operations have been at most bound apart, and the last tick found the desk busy enough. */
  predicate KeptAlive(interval: int, s: Live, t: Live, check: int, bound: int) {
    Follows(s, t, bound) && check - t.sent[|t.sent| - 1] < interval
  }

  /** After a tick the last operation is less than the interval old. */
  lemma KeepAliveTickChecks(interval: int, min: int, s: Live, e: ServeEvent)
    requires interval > 0 && e.KeepAliveTick? && Talks(s) && s.desk.online
    ensures var t := ServeStep(interval, min, s, e); Talks(t) && s.clock + e.wait - t.sent[|t.sent| - 1] < interval
  {
  }

  /** The time of the last tick, once e has been handled. */
  function CheckAfter(b: Live, e: ServeEvent, check: nat): nat {
    if e.KeepAliveTick? then b.clock + e.wait else check
  }

  /** From b the event led to t in time: its operations follow on, and a tick leaves the desk busy enough. */
  predicate InTime(interval: int, b: Live, e: ServeEvent, t: Live, bound: int) {
    Follows(After(b, e.wait), t, bound) && (e.KeepAliveTick? ==> b.clock + e.wait - t.sent[|t.sent| - 1] < interval)
  }

  lemma StepInTime(interval: int, min: int, s: Live, b: Live, e: ServeEvent, check: nat, gap: nat)
    requires interval > 0 && KeptAlive(interval, s, b, check, interval + gap)
    requires b.clock + e.wait <= check + gap
    requires !e.KeepAliveTick? ==> ServeStep(interval, min, b, e).clock <= check + gap
    ensures InTime(interval, b, e, ServeStep(interval, min, b, e), interval + gap)
  {
    ServeStepFollows(interval, min, b, e, interval + gap);
    if e.KeepAliveTick? { KeepAliveTickChecks(interval, min, b, e); }
  }

  lemma FollowsAfterWait(b: Live, wait: nat, t: Live, bound: int)
    requires Talks(b) && Follows(After(b, wait), t, bound)
    ensures Follows(b, t, bound) && b.sent[|b.sent| - 1] <= t.sent[|t.sent| - 1]
  {
    SpacedAscends(t.sent, |b.sent| - 1, bound);
  }

  lemma KeptAliveGrows(interval: int, s: Live, b: Live, e: ServeEvent, t: Live, check: nat, bound: int)
    requires KeptAlive(interval, s, b, check, bound) && InTime(interval, b, e, t, bound)
    ensures KeptAlive(interval, s, t, CheckAfter(b, e, check), bound)
  {
    FollowsAfterWait(b, e.wait, t, bound);
    FollowsOn(s, b, t, bound);
  }

  lemma KeptAliveStep(interval: int, min: int, s: Live, b: Live, e: ServeEvent, check: nat, gap: nat)
    requires interval > 0 && KeptAlive(interval, s, b, check, interval + gap)
    requires b.clock + e.wait <= check + gap
    requires !e.KeepAliveTick? ==> ServeStep(interval, min, b, e).clock <= check + gap
    ensures KeptAlive(interval, s, ServeStep(interval, min, b, e), CheckAfter(b, e, check), interval + gap)
  {
    StepInTime(interval, min, s, b, e, check, gap);
    KeptAliveGrows(interval, s, b, e, ServeStep(interval, min, b, e), check, interval + gap);
  }

  /**
   While a session is served with an interval configured, and ticks are handled at most gap apart,
   the desk is never left without an operation for as long as interval + gap. (The session opens
   with operations; the last of them is taken to have been answered within the interval.)
   */
  lemma {:induction false} KeepaliveBound(interval: int, min: int, s: Live, events: seq<ServeEvent>, gap: nat)
    requires interval > 0 && Talks(s) && s.desk.online && s.clock - s.sent[|s.sent| - 1] < interval
    requires Prompt(interval, min, s, events, gap)
    ensures KeptAlive(interval, s, Serve(interval, min, s, events), LastCheck(interval, min, s, events), interval + gap)
    decreases |events|
  {
    if events == [] {
      QuietFollows(s, s, interval + gap);
    } else {
      var before, e := events[..|events| - 1], events[|events| - 1];
      KeepaliveBound(interval, min, s, before, gap);
      KeptAliveStep(interval, min, s, Serve(interval, min, s, before), e, LastCheck(interval, min, s, before), gap);
    }
  }

  lemma KeptAliveIsBusy(interval: int, s: Live, t: Live, check: int, gap: nat)
    requires KeptAlive(interval, s, t, check, interval + gap) && t.clock <= check + gap
    ensures t.lastActivity.Some? && IdleFor(t) < interval + gap
  {
  }

  /** So the desk is never idle for as long as interval + gap. */
  lemma NeverIdleForLong(interval: int, min: int, s: Live, events: seq<ServeEvent>, gap: nat)
    requires interval > 0 && Talks(s) && s.desk.online && s.clock - s.sent[|s.sent| - 1] < interval
    requires Prompt(interval, min, s, events, gap)
    ensures Serve(interval, min, s, events).lastActivity.Some?
    ensures IdleFor(Serve(interval, min, s, events)) < interval + gap
  {
    KeepaliveBound(interval, min, s, events, gap);
    KeptAliveIsBusy(interval, s, Serve(interval, min, s, events), LastCheck(interval, min, s, events), gap);
  }

  /** Serving keeps the bookkeeping and the desk online, however long anything takes. */
  lemma {:induction false} TalksOn(interval: int, min: int, s: Live, events: seq<ServeEvent>)
    requires Talks(s) && s.desk.online
    ensures Talks(Serve(interval, min, s, events)) && Serve(interval, min, s, events).desk.online
    decreases |events|
  {
    if events != [] {
      var before, e := events[..|events| - 1], events[|events| - 1];
      TalksOn(interval, min, s, before);
      var b := Serve(interval, min, s, before);
      ServeStepFollows(interval, min, b, e, b.clock + e.wait + ServeStep(interval, min, b, e).clock);
    }
  }

  /** At time at, one operation more if the last one is at least the interval old, and none otherwise. */
  predicate SendsIfIdle(interval: int, before: Live, at: int, after: Live) {
    before.sent != []
    && after.sent == before.sent + if at - before.sent[|before.sent| - 1] >= interval then [at] else []
  }

  lemma TickSends(interval: int, min: int, t: Live, wait: nat, took: nat)
    requires interval > 0 && Talks(t) && t.desk.online
    ensures SendsIfIdle(interval, t, t.clock + wait, ServeStep(interval, min, t, KeepAliveTick(wait, took)))
  {
  }

  /** A tick sends one keepalive if the operation before it is at least the interval old, and nothing otherwise. */
  lemma KeepaliveOnlyWhenIdle(interval: int, min: int, s: Live, events: seq<ServeEvent>, wait: nat, took: nat)
    requires interval > 0 && Talks(s) && s.desk.online
    ensures var t := Serve(interval, min, s, events);
            SendsIfIdle(interval, t, t.clock + wait, ServeStep(interval, min, t, KeepAliveTick(wait, took)))
  {
    TalksOn(interval, min, s, events);
    TickSends(interval, min, Serve(interval, min, s, events), wait, took);
  }

  /** How many of the times lie in (a, b]. */
  function Count(times: seq<nat>, a: int, b: int): nat {
    if times == [] then 0
    else Count(times[..|times| - 1], a, b) + if a < times[|times| - 1] <= b then 1 else 0
  }

  lemma {:induction false} CountSplits(times: seq<nat>, a: int, m: int, b: int)
    requires a <= m <= b
    ensures Count(times, a, b) == Count(times, a, m) + Count(times, m, b)
  {
    if times != [] { CountSplits(times[..|times| - 1], a, m, b); }
  }

  lemma {:induction false} CountSees(times: seq<nat>, a: int, b: int, i: nat)
    requires i < |times| && a < times[i] <= b
    ensures Count(times, a, b) >= 1
  {
    if i < |times| - 1 { CountSees(times[..|times| - 1], a, b, i); }
  }

  /** Some time lies in any stretch of length bound that begins before the last one. */
  lemma NextTime(times: seq<nat>, bound: int, a: int) returns (i: nat)
    requires times != [] && Spaced(times, 0, bound) && times[0] <= a < times[|times| - 1]
    ensures i < |times| && a < times[i] <= a + bound
  {
    i := 1;
    while times[i] <= a
      invariant 0 < i < |times| && times[i - 1] <= a
      decreases |times| - i
    {
      i := i + 1;
    }
  }

  /** Times at most bound apart put one in every bound of a window. */
  lemma {:induction false} WindowHolds(times: seq<nat>, bound: int, a: int, b: int)
    requires bound > 0 && times != [] && Spaced(times, 0, bound)
    requires times[0] <= a <= b < times[|times| - 1] + bound
    ensures Count(times, a, b) >= (b - a) / bound
    decreases b - a
  {
    if b - a >= bound {
      var i := NextTime(times, bound, a);
      CountSees(times, a, a + bound, i);
      CountSplits(times, a, a + bound, b);
      WindowHolds(times, bound, a + bound, b);
      QuotientDropsOne(b - a, bound);
    } else {
      QuotientIs(b - a, bound, 0);
    }
  }

  lemma RateOf(interval: int, s: Live, t: Live, check: int, gap: nat, a: int, b: int)
    requires interval > 0 && Talks(s) && KeptAlive(interval, s, t, check, interval + gap)
    requires s.clock <= a <= b <= t.clock <= check + gap
    ensures Count(t.sent[|s.sent| - 1..], a, b) >= (b - a) / (interval + gap)
  {
    var times := t.sent[|s.sent| - 1..];
    assert times[0] == s.sent[|s.sent| - 1] && times[|times| - 1] == t.sent[|t.sent| - 1];
    WindowHolds(times, interval + gap, a, b);
  }

  /** So any window within the session holds at least its length over interval + gap operations. */
  lemma KeepaliveRate(interval: int, min: int, s: Live, events: seq<ServeEvent>, gap: nat, a: int, b: int)
    requires interval > 0 && Talks(s) && s.desk.online && s.clock - s.sent[|s.sent| - 1] < interval
    requires Prompt(interval, min, s, events, gap)
    requires s.clock <= a <= b <= Serve(interval, min, s, events).clock
    ensures var t := Serve(interval, min, s, events);
            |s.sent| <= |t.sent| && Count(t.sent[|s.sent| - 1..], a, b) >= (b - a) / (interval + gap)
  {
    KeepaliveBound(interval, min, s, events, gap);
    RateOf(interval, s, Serve(interval, min, s, events), LastCheck(interval, min, s, events), gap, a, b);
  }

  const HOUR := 3_600 * SECOND
  const CHECK_INTERVAL := 60 * SECOND

  lemma ThreeFit()
    ensures 4 * HOUR / (HOUR + CHECK_INTERVAL) == 3
  {
  }

  /** With the default interval and a tick every minute, four hours hold at least three operations. */
  lemma ThreeInFourHours(min: int, s: Live, events: seq<ServeEvent>, a: int)
    requires Talks(s) && s.desk.online && s.clock - s.sent[|s.sent| - 1] < HOUR
    requires Prompt(HOUR, min, s, events, CHECK_INTERVAL)
    requires s.clock <= a && a + 4 * HOUR <= Serve(HOUR, min, s, events).clock
    ensures var t := Serve(HOUR, min, s, events);
            |s.sent| <= |t.sent| && Count(t.sent[|s.sent| - 1..], a, a + 4 * HOUR) >= 3
  {
    KeepaliveRate(HOUR, min, s, events, CHECK_INTERVAL, a, a + 4 * HOUR);
    ThreeFit();
  }
}
