/** internal/bridge/desk.go: one deskManager, its fields updated in place. */
module DeskModel {
  import opened Backoff
  import opened Lifecycle
  import opened Options
  import opened Serving
  import opened ThrottleModel
  import opened Topics
  import Mirror
  import ThrottleSpec

  class DeskManager {
    const reconnectMinBackoff: int
    const reconnectMaxBackoff: int
    const keepAliveInterval: int
    const wakeOnConnect: bool
    const height: Throttle

    var clock: nat               // what time.Now answers
    var peripheralID: string
    var commands: seq<Command>
    var lastHeight: Option<int>
    var lastBase: Option<int>
    var online: bool
    var onlineAt: Option<nat>
    var lastHeld: nat
    var lastActivity: Option<nat>
    var consecFailure: nat

    // Histories: throttle operations, operations sent to the desk, commands queued and taken, messages published.
    ghost var ops: seq<ThrottleSpec.Op>
    ghost var sent: seq<nat>
    ghost var accepted: seq<Command>
    ghost var applied: seq<Command>
    ghost var told: seq<Mirror.Message>

    ghost function Tuned(): Tuning {
      Tuning(wakeOnConnect, keepAliveInterval, height.min, reconnectMinBackoff, reconnectMaxBackoff)
    }

    /** The throttle is where its history puts it. */
    ghost predicate ThrottleOk()
      reads `ops, height
    {
      height.Value() == ThrottleSpec.Run(height.min, ThrottleSpec.FRESH, ops)
    }

    ghost predicate Valid()
      reads this, height
    {
      && ThrottleOk()
      && (online <==> onlineAt.Some?)
      && (onlineAt.Some? ==> onlineAt.value <= clock)
    }

    ghost function View(): Live
      reads this
    {
      Live(clock, lastActivity, commands, sent, accepted, applied, Mirror.Desk(ops, lastHeight, lastBase, online), told)
    }

    constructor (min: int, max: int, keepAlive: int, wake: bool, publishMinInterval: int)
      ensures Valid() && !online && peripheralID == "" && consecFailure == 0
      ensures View() == Live(0, None, [], [], [], [], Mirror.NEW_DESK, [])
      ensures reconnectMinBackoff == min && reconnectMaxBackoff == max && keepAliveInterval == keepAlive
      ensures wakeOnConnect == wake && fresh(height) && height.min == publishMinInterval
    {
      reconnectMinBackoff, reconnectMaxBackoff, keepAliveInterval, wakeOnConnect := min, max, keepAlive, wake;
      height := new Throttle(publishMinInterval);
      clock, peripheralID, commands, lastHeight, lastBase := 0, "", [], None, None;
      online, onlineAt, lastHeld, lastActivity, consecFailure := false, None, 0, None, 0;
      ops, sent, accepted, applied, told := [], [], [], [], [];
    }

    method Publish(leaf: string, payload: string)
      modifies `told
      ensures told == old(told) + [Mirror.Message(leaf, payload)]
      ensures View() == old(View()).(told := old(told) + [Mirror.Message(leaf, payload)])
    {
      told := told + [Mirror.Message(leaf, payload)];
    }

    /** Time goes by. */
    method Pause(d: int)
      requires Valid()
      modifies `clock
      ensures Valid() && View() == Slept(old(View()), d) && clock == old(clock) + if d < 0 then 0 else d
    {
      if d > 0 {
        clock := clock + d;
      }
    }

    // Availability

    /** The time since the last SetOnline(true) is kept when the desk goes offline, and 0 if it never was online. */
    method SetOnline(v: bool)
      requires onlineAt.Some? ==> onlineAt.value <= clock
      modifies `online, `onlineAt, `lastHeld
      ensures online == v && View() == old(View()).(desk := old(View()).desk.(online := v))
      ensures v ==> onlineAt == Some(clock) && lastHeld == old(lastHeld)
      ensures !v ==> onlineAt == None
      ensures !v ==> lastHeld == match old(onlineAt) case Some(t) => clock - t case None => 0
    {
      online := v;
      if v {
        onlineAt := Some(clock);
        return;
      }
      if onlineAt.Some? {
        lastHeld := clock - onlineAt.value;
        onlineAt := None;
      } else {
        lastHeld := 0;
      }
    }

    // Operations against the desk

    /** took is how long the operation keeps the caller. */
    method RunCommand(took: nat)
      requires Valid()
      modifies `lastActivity, `clock, `sent
      ensures Valid() && View() == Outbound(old(View()), took)
    {
      lastActivity := Some(clock);
      sent := sent + [clock];
      clock := clock + took;
    }

    method KeepAlive(took: nat)
      requires Valid()
      modifies `lastActivity, `clock, `sent
      ensures Valid() && View() == Serving.KeepAlive(keepAliveInterval, old(View()), took)
    {
      if keepAliveInterval <= 0 || !online {
        return;
      }
      var idle := if lastActivity.None? || clock < lastActivity.value then 0 else clock - lastActivity.value;
      if idle < keepAliveInterval {
        return;
      }
      RunCommand(took);
    }

    // Notifications in, messages out

    method PublishHeight(v: int)
      modifies `lastHeight, `told
      ensures lastHeight == Some(v) && told == old(told) + [Mirror.Message(LEAF_HEIGHT, FormatTenthsMM(v))]
    {
      lastHeight := Some(v);
      Publish(LEAF_HEIGHT, FormatTenthsMM(v));
    }

    /** The throttle has just done op. */
    ghost method NoteOp(op: ThrottleSpec.Op)
      requires height.Value() == ThrottleSpec.After(height.min, ThrottleSpec.Run(height.min, ThrottleSpec.FRESH, ops), op)
      modifies `ops
      ensures ThrottleOk() && ops == old(ops) + [op]
    {
      ThrottleSpec.OneMore(height.min, ThrottleSpec.FRESH, ops, op);
      ops := ops + [op];
    }

    method OnReferenceOutput(extension: int, speed: int)
      requires Valid()
      modifies `lastHeight, `told, `ops, height
      ensures Valid()
      ensures View() == MirrorStep(height.min, old(View()), Mirror.Reading(extension, speed == 0, clock))
    {
      ghost var op, before := ThrottleSpec.Set(extension, speed == 0, clock), View();
      var out := height.Set(extension, speed == 0, clock);
      NoteOp(op);
      if out.Some? {
        PublishHeight(out.value);
      }
      ThrottledEffect(height.min, before, Mirror.Reading(extension, speed == 0, clock), op, out);
    }

    method FlushHeight()
      requires Valid()
      modifies `lastHeight, `told, `ops, height
      ensures Valid() && View() == MirrorStep(height.min, old(View()), Mirror.FlushTick(clock))
    {
      ghost var op, before := ThrottleSpec.Flush(clock), View();
      var out := height.Flush(clock);
      NoteOp(op);
      if out.Some? {
        PublishHeight(out.value);
      }
      ThrottledEffect(height.min, before, Mirror.FlushTick(clock), op, out);
    }

    method OnBaseOffset(v: int)
      requires Valid()
      modifies `lastBase, `told
      ensures Valid() && View() == MirrorStep(height.min, old(View()), Mirror.BaseRead(v))
    {
      lastBase := Some(v);
      Publish(LEAF_BASE_HEIGHT, FormatTenthsMM(v));
    }

    method ReadBaseHeight(base: Option<int>, took: nat)
      requires Valid()
      modifies `lastActivity, `clock, `sent, `lastBase, `told
      ensures Valid() && View() == ReadBase(height.min, old(View()), base, took)
    {
      RunCommand(took);
      if base.None? {
        return;
      }
      OnBaseOffset(base.value);
    }

    method RepublishState()
      modifies `told
      ensures told == old(told) + Mirror.Restated(View().desk)
    {
      ghost var d, was := View().desk, told;
      Publish(LEAF_AVAILABILITY, if online then Mirror.ONLINE else Mirror.OFFLINE);
      ghost var avail := [Mirror.Message(LEAF_AVAILABILITY, Mirror.Availability(d.online))];
      assert told == was + avail;
      if lastHeight.Some? {
        Publish(LEAF_HEIGHT, FormatTenthsMM(lastHeight.value));
      }
      ghost var height := if d.height.Some? then [Mirror.Message(LEAF_HEIGHT, FormatTenthsMM(d.height.value))] else [];
      assert told == was + (avail + height);
      if lastBase.Some? {
        Publish(LEAF_BASE_HEIGHT, FormatTenthsMM(lastBase.value));
      }
    }

    // Commands

    method Submit(kind: Kind, payload: string, decoded: Option<map<string, string>>)
      requires Valid()
      modifies `commands, `accepted
      ensures Valid() && View() == Serving.Submit(old(View()), kind, payload, decoded)
    {
      var value := ParseTenthsMM(payload, decoded);
      if value.Err? {
        return;
      }
      if !online {
        return;
      }
      if |commands| < QUEUE_CAPACITY {
        commands := commands + [Command(kind, value.value)];
        accepted := accepted + [Command(kind, value.value)];
      }
    }

    /** ok is whether the desk took the operation; base what it answers when its base height is read back. */
    method TakeAndApply(took: nat, ok: bool, base: Option<int>, baseTook: nat)
      requires Valid() && commands != []
      modifies `commands, `applied, `lastActivity, `clock, `sent, `lastBase, `told
      ensures Valid() && View() == ApplyHead(height.min, old(View()), took, ok, base, baseTook)
    {
      var cmd := commands[0];
      commands := commands[1..];
      applied := applied + [cmd];
      match cmd.kind {
        case Height =>
          RunCommand(took);
        case BaseHeight =>
          RunCommand(took);
          if !ok {
            return;
          }
          ReadBaseHeight(base, baseTook);
      }
    }

    // The connection

    method HandleEvent(e: ServeEvent)
      requires Valid()
      modifies this`clock, `lastActivity, `sent, `commands, `accepted, `applied, `lastHeight, `lastBase, `told, `ops, height
      ensures Valid() && View() == ServeStep(keepAliveInterval, height.min, old(View()), e)
    {
      Pause(e.wait);
      ghost var now := View();
      assert now == After(old(View()), e.wait);
      match e {
        case FlushTick(_) => FlushHeight();
        case KeepAliveTick(_, took) => KeepAlive(took);
        case NextCommand(_, took, ok, base, baseTook) =>
          if commands != [] {
            TakeAndApply(took, ok, base, baseTook);
          }
        case Incoming(_, kind, payload, decoded) => Submit(kind, payload, decoded);
        case Notify(_, extension, speed) => OnReferenceOutput(extension, speed);
      }
    }

    /** The select loop, up to the disconnect that ends it. */
    method ServeLoop(events: seq<ServeEvent>)
      requires Valid()
      modifies this`clock, `lastActivity, `sent, `commands, `accepted, `applied, `lastHeight, `lastBase, `told, `ops, height
      ensures Valid() && View() == Serve(keepAliveInterval, height.min, old(View()), events)
      ensures clock >= old(clock)
    {
      for i := 0 to |events|
        invariant Valid() && View() == Serve(keepAliveInterval, height.min, old(View()), events[..i])
        invariant clock >= old(clock)
      {
        assert events[..i + 1][..i] == events[..i];
        HandleEvent(events[i]);
      }
      assert events[..|events|] == events;
    }

    /** From the link to the ownership exchange. */
    method TakeOwnership(before: nat, wakeTook: nat, stopTook: nat, ownTook: nat)
      requires Valid()
      modifies `lastActivity, `clock, `sent
      ensures Valid() && clock >= old(clock)
      ensures var linked := After(old(View()), before);
              View() == Outbound(if wakeOnConnect then Outbound(Outbound(linked, wakeTook), stopTook) else linked, ownTook)
    {
      Pause(before);
      if wakeOnConnect {
        RunCommand(wakeTook);
        RunCommand(stopTook);
      }
      RunCommand(ownTook);
    }

    method ResetHeight()
      requires ThrottleOk()
      modifies `ops, height
      ensures ThrottleOk() && ops == old(ops) + [ThrottleSpec.Reset(clock)]
      ensures View() == old(View()).(desk := old(View()).desk.(ops := ops))
    {
      height.Reset(clock);
      NoteOp(ThrottleSpec.Reset(clock));
    }

    /** The desk counts as connected: failures forgotten, online, and its next reading sure to be published. */
    method ComeOnline()
      requires Valid()
      modifies `consecFailure, `online, `onlineAt, `lastHeld, `ops, `told, height
      ensures Valid() && View() == MirrorStep(height.min, old(View()), Mirror.CameOnline(clock))
      ensures consecFailure == 0 && onlineAt == Some(clock)
    {
      ghost var before := View();
      consecFailure := 0;
      SetOnline(true);
      ResetHeight();
      Publish(LEAF_AVAILABILITY, Mirror.ONLINE);
      CameOnlineEffect(height.min, before);
    }

    /** Everything of a session before its select loop. */
    method OpenSession(a: Attempt)
      requires Valid() && !online && a.Served?
      modifies `lastActivity, `clock, `sent, `consecFailure, `online, `onlineAt, `lastHeld, `ops, `told, `lastBase, height
      ensures Valid() && View() == Opened(wakeOnConnect, height.min, old(View()), a)
      ensures onlineAt == Some(Owned(wakeOnConnect, old(View()), a).clock) && consecFailure == 0
      ensures old(clock) <= onlineAt.value <= clock
    {
      TakeOwnership(a.before, a.wakeTook, a.stopTook, a.ownTook);
      ghost var owned := View();
      assert owned == Owned(wakeOnConnect, old(View()), a);
      ComeOnline();
      ReadBaseHeight(a.base, a.baseTook);
    }

    /** A session, from the link to its Disconnect. */
    method ServeSession(a: Attempt)
      requires Valid() && !online && a.Served?
      modifies `lastActivity, `clock, `sent, `consecFailure, `online, `onlineAt, `lastHeld, `ops, `told, `lastBase,
               `commands, `accepted, `applied, `lastHeight, height
      ensures Valid() && View() == Session(wakeOnConnect, keepAliveInterval, height.min, old(View()), a)
      ensures onlineAt == Some(Owned(wakeOnConnect, old(View()), a).clock) && consecFailure == 0
      ensures old(clock) <= onlineAt.value <= clock
    {
      OpenSession(a);
      ServeLoop(a.events);
      Pause(a.teardown);
    }

    /** failed tells a refused attempt from a session that ended in a drop. */
    method ConnectAndServe(a: Attempt) returns (failed: bool)
      requires Valid() && !online
      modifies this, height
      ensures Valid() && View() == Session(wakeOnConnect, keepAliveInterval, height.min, old(View()), a)
      ensures failed <==> a.Refused?
      ensures a.Refused? ==> onlineAt == None && consecFailure == old(consecFailure)
      ensures a.Served? ==> onlineAt == Some(Owned(wakeOnConnect, old(View()), a).clock) && consecFailure == 0
      ensures peripheralID == old(peripheralID) && clock >= old(clock)
      ensures onlineAt.Some? ==> old(clock) <= onlineAt.value
    {
      if a.Refused? {
        Pause(a.took);
        return true;
      }
      ServeSession(a);
      return false;
    }

    method ForgetPeripheral()
      modifies `peripheralID, `consecFailure
      ensures peripheralID == "" && consecFailure == 0
    {
      peripheralID := "";
      consecFailure := 0;
    }

    /** Back in run: the desk is offline again, and says so. */
    method GoOffline()
      requires Valid()
      modifies `online, `onlineAt, `lastHeld, `told
      ensures Valid() && View() == WentOffline(height.min, old(View())) && onlineAt == None
      ensures lastHeld == match old(onlineAt) case Some(t) => clock - t case None => 0
    {
      SetOnline(false);
      Publish(LEAF_AVAILABILITY, Mirror.OFFLINE);
    }

    /** Resolve if need be, connect and serve, and go offline; when the session began, if it did, and ended. */
    method ResolveAndServe(a: Attempt) returns (failed: bool, onAt: Option<nat>)
      requires Valid() && !online && QueueInv(View())
      modifies this, height
      ensures Valid() && !online && QueueInv(View())
      ensures View() == WentOffline(height.min, Session(wakeOnConnect, keepAliveInterval, height.min, old(View()), a))
      ensures failed <==> a.Refused?
      ensures onAt == if failed then None else Some(Owned(wakeOnConnect, old(View()), a).clock)
      ensures onAt.Some? ==> old(clock) <= onAt.value <= clock && lastHeld == clock - onAt.value
      ensures onAt.None? ==> lastHeld == 0
      ensures consecFailure == if failed then old(consecFailure) else 0
      ensures peripheralID == if old(peripheralID) == "" then a.pid else old(peripheralID)
      ensures clock >= old(clock)
    {
      if peripheralID == "" {
        peripheralID := a.pid;
      }
      SessionKeepsQueue(wakeOnConnect, keepAliveInterval, height.min, View(), a);
      failed := ConnectAndServe(a);
      assert QueueInv(View());
      onAt := onlineAt;
      GoOffline();
    }

    /** The switch after an attempt: what it does to the counters, and the delay that follows. */
    method Judge(failed: bool, backoff: int) returns (result: Lifecycle.Result, forgot: bool, delay: int)
      requires !failed ==> consecFailure == 0
      modifies `peripheralID, `consecFailure
      ensures result == if failed then Failed else Held(lastHeld)
      ensures delay == if !failed && lastHeld >= 60_000_000_000 then reconnectMinBackoff else backoff
      ensures forgot <==> failed && old(consecFailure) >= 2
      ensures consecFailure == if !failed || forgot then 0 else old(consecFailure) + 1
      ensures peripheralID == if forgot then "" else old(peripheralID)
    {
      result, forgot, delay := Failed, false, backoff;
      if !failed {
        result := Held(lastHeld);
        if lastHeld >= STABLE_CONNECTION {
          delay := reconnectMinBackoff;
        }
      } else {
        consecFailure := consecFailure + 1;
        if consecFailure >= FAILURES_BEFORE_RESCAN {
          ForgetPeripheral();
          forgot := true;
        }
      }
    }

    /** The jittered sleep, and the delay after the next one. */
    method Rest(delay: int, spread: nat) returns (sleep: int, next: int)
      requires Valid()
      modifies `clock
      ensures Valid() && View() == Slept(old(View()), sleep) && clock >= old(clock) && clock >= old(clock) + sleep
      ensures sleep == Jitter(delay, spread) && Eased(delay, sleep)
      ensures next == Next(delay, reconnectMaxBackoff)
    {
      sleep := Jitter(delay, spread);
      JitterBounds(delay, spread);
      Pause(sleep);
      next := Min(Wrap64(delay * 2), reconnectMaxBackoff);
    }

    /** The body of run's loop: one attempt, what it does to the record and the counters, and the sleep after it. */
    method RunOnce(a: Attempt, backoff: int) returns (round: Round, next: int)
      requires Valid() && !online && QueueInv(View())
      modifies this, height
      ensures Valid() && !online && QueueInv(View())
      ensures round.at == old(clock) && round.onAt == OnlineFrom(Tuned(), old(View()), a)
      ensures round.offAt == SessionOf(Tuned(), old(View()), a).clock
      ensures clock >= round.offAt + round.sleep
      ensures round.sleep == Jitter(round.base, a.spread) && (round.result.Failed? <==> a.Refused?)
      ensures View() == LiveAfter(Tuned(), old(View()), a, round.sleep)
      ensures round.base == if HeldAMinute(round) then reconnectMinBackoff else backoff
      ensures round.forgot <==> a.Refused? && old(consecFailure) >= 2
      ensures peripheralID == if round.forgot then "" else if old(peripheralID) == "" then a.pid else old(peripheralID)
      ensures Passes(reconnectMinBackoff, reconnectMaxBackoff, round,
                     old(consecFailure), consecFailure, backoff, next, peripheralID != "")
    {
      var at := clock;
      var failed, onAt := ResolveAndServe(a);
      var offAt := clock;
      var result, forgot, delay := Judge(failed, backoff);
      var sleep;
      sleep, next := Rest(delay, a.spread);
      round := Round(at, onAt, offAt, result, delay, sleep, forgot);
    }

    /** At the top of run's loop: what was done has made start into life, and run's variables are where life puts them. */
    ghost predicate InTrack(start: Life, done: seq<Attempt>, life: Life, backoff: int)
      reads this, height
    {
      && Valid() && !online && QueueInv(View())
      && View() == life.live && MadeOf(Tuned(), start, done, life)
      && |life.log| == |done| && peripheralID == KnownPid(life.log, done)
      && Tracks(reconnectMinBackoff, reconnectMaxBackoff, life.log, consecFailure, backoff, peripheralID != "")
      && (life.log == [] || clock >= life.log[|life.log| - 1].offAt + life.log[|life.log| - 1].sleep)
    }

    /** One pass takes a life to the one the attempt makes of it. */
    method Pass(ghost start: Life, ghost done: seq<Attempt>, ghost life: Life, a: Attempt, backoff: int)
      returns (round: Round, next: int, ghost after: Life)
      requires InTrack(start, done, life, backoff)
      modifies this, height
      ensures InTrack(start, done + [a], after, next)
      ensures after.log == life.log + [round]
    {
      ghost var failures, known := consecFailure, peripheralID != "";
      round, next := RunOnce(a, backoff);
      PassIsRoundOf(Tuned(), life, a, round, failures, consecFailure, backoff, next, known, peripheralID != "");
      PassKeepsTrack(reconnectMinBackoff, reconnectMaxBackoff, life.log, round,
                     failures, consecFailure, backoff, next, known, peripheralID != "");
      KnownPidStep(life.log, done, round, a);
      after := Life(View(), life.log + [round]);
      LivesOn(Tuned(), start, done, a, life, after);
    }

    /**
     The desk's whole lifecycle over a finite stretch of what the world may do to it: the record and
     the log are the life the script makes, whose delays and rescans are functions of the history
     alone. So the log is in order round by round, commands are conserved, and consecFailure and the
     peripheral are where the history puts them.
     */
    method Run(script: seq<Attempt>) returns (log: seq<Round>)
      requires Valid() && !online && peripheralID == "" && consecFailure == 0 && QueueInv(View())
      modifies this, height
      ensures Valid() && !online && QueueInv(View())
      ensures MadeOf(Tuned(), Life(old(View()), []), script, Life(View(), log))
      ensures |log| == |script| && LogOk(reconnectMinBackoff, reconnectMaxBackoff, log)
      ensures forall i :: 0 <= i < |script| ==> (log[i].result.Failed? <==> script[i].Refused?)
      ensures DelaysFollow(reconnectMinBackoff, reconnectMaxBackoff, log) && RescansFollow(log)
      ensures consecFailure == FailStreak(Results(log)) % FAILURES_BEFORE_RESCAN
      ensures peripheralID == KnownPid(log, script)
    {
      var backoff := reconnectMinBackoff;
      log := [];
      ghost var start := Life(View(), []);
      ghost var life, done := start, [];
      for i := 0 to |script|
        invariant InTrack(start, done, life, backoff) && done == script[..i]
        invariant log == life.log
      {
        var round;
        round, backoff, life := Pass(start, done, life, script[i], backoff);
        TakeOneMore(script, i);
        done := done + [script[i]];
        log := log + [round];
      }
      assert done == script && life == Life(View(), log);
      OneRoundEach(Tuned(), start, script, life);
      LogFollows(reconnectMinBackoff, reconnectMaxBackoff, log);
    }
  }
}
