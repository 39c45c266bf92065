/** What every interleaving keeps, whatever the desks match: the hand-off token and the scan wake-up. */
module ScanSafety {
  import opened Text
  import opened ScanProtocol

  predicate InResolve(pc: DeskPc) {
    pc == Asked || pc == Waiting
  }

  predicate PumpCarries(s: State, d: nat) {
    (s.pump.Routing? || s.pump.HandingOver?) && s.pump.i == d
  }

  /** The three places a desk's request can be: still set, claimed by the pump, or delivered. */
  function Tokens(s: State, d: nat): nat
    requires d < |s.desks|
  {
    (if s.desks[d].want then 1 else 0) + (if PumpCarries(s, d) then 1 else 0) + |s.desks[d].resolved|
  }

  ghost predicate InRange(sys: System, s: State) {
    && |s.desks| == sys.count
    && ((s.pump.Claiming? || s.pump.Routing? || s.pump.HandingOver? || s.pump.Poking?) ==> s.pump.i < |s.desks|)
    && (forall k :: k in s.routes ==> s.routes[k] < |s.desks|)
  }

  predicate DeskTokens(s: State, d: nat)
    requires d < |s.desks|
  {
    && Tokens(s, d) == (if InResolve(s.desks[d].pc) then 1 else 0)
    && (InResolve(s.desks[d].pc) ==> s.desks[d].pid == "")
  }

  /** The pump's advert is one that was heard, and matches the desk it was claimed for. */
  ghost predicate PumpHonest(sys: System, s: State) {
    && (s.pump.Claiming? && s.pump.i < |s.desks| ==> s.desks[s.pump.i].want)
    && (s.pump.Scanning? || s.pump.Claiming? || s.pump.Routing? || s.pump.HandingOver? ==> s.pump.adv in sys.world)
    && (s.pump.Claiming? || s.pump.Routing? || s.pump.HandingOver? ==> Matches(sys, s.pump.i, s.pump.adv))
  }

  /** Exactly one token per waiting desk and none elsewhere; the pump's CompareAndSwap cannot fail. */
  ghost predicate HandoffInv(sys: System, s: State) {
    && InRange(sys, s)
    && (forall d: nat :: d < |s.desks| ==> DeskTokens(s, d))
    && PumpHonest(sys, s)
  }

  /** A desk's own step reaches the controller only through scanWake. */
  lemma DeskStepTouches(s: State, d: nat, act: DeskAct)
    requires d < |s.desks| && DeskMay(s.desks[d], act)
    ensures var t := AfterDesk(s, d, act);
            && t.desks == s.desks[d := DeskAfter(s.desks[d], act, s.epoch)]
            && t.pump == s.pump && t.ctl == s.ctl && t.scanning == s.scanning && t.startFailed == s.startFailed
            && t.scanWake == (s.scanWake || act.CallWake?)
  {
  }

  /** A desk's own step moves its token in step with entering and leaving resolve. */
  lemma DeskStepMovesToken(desk: Desk, act: DeskAct, epoch: nat)
    requires DeskMay(desk, act) && (act.AskForScan? ==> !desk.want)
    ensures var after := DeskAfter(desk, act, epoch);
            && (if after.want then 1 else 0) + |after.resolved| - (if InResolve(after.pc) then 1 else 0)
               == (if desk.want then 1 else 0) + |desk.resolved| - (if InResolve(desk.pc) then 1 else 0)
            && (after.want || !desk.want)
            && (InResolve(after.pc) && act.AskForScan? ==> after.pid == "")
            && (InResolve(after.pc) && !act.AskForScan? ==> InResolve(desk.pc) && after.pid == desk.pid)
  {
  }

  lemma DeskStepKeepsTokens(s: State, d: nat, act: DeskAct, e: nat)
    requires d < |s.desks| && e < |s.desks| && DeskMay(s.desks[d], act) && DeskTokens(s, d) && DeskTokens(s, e)
    ensures DeskTokens(AfterDesk(s, d, act), e)
  {
    DeskStepTouches(s, d, act);
    DeskStepMovesToken(s.desks[d], act, s.epoch);
  }

  lemma DeskStepStaysHonest(sys: System, s: State, d: nat, act: DeskAct)
    requires InRange(sys, s) && PumpHonest(sys, s) && d < |s.desks| && DeskMay(s.desks[d], act)
    requires act.AskForScan? ==> !s.desks[d].want
    ensures InRange(sys, AfterDesk(s, d, act)) && PumpHonest(sys, AfterDesk(s, d, act))
  {
    var t := AfterDesk(s, d, act);
    DeskStepTouches(s, d, act);
    DeskStepMovesToken(s.desks[d], act, s.epoch);
    assert t.routes == s.routes || t.routes == s.routes - {Upper(s.desks[d].pid)};
  }

  lemma HandoffDeskStep(sys: System, s: State, d: nat, act: DeskAct)
    requires HandoffInv(sys, s) && d < |s.desks| && DeskMay(s.desks[d], act)
    ensures HandoffInv(sys, AfterDesk(s, d, act))
  {
    assert DeskTokens(s, d);
    DeskStepStaysHonest(sys, s, d, act);
    forall e: nat | e < |s.desks|
      ensures DeskTokens(AfterDesk(s, d, act), e)
    {
      DeskStepKeepsTokens(s, d, act, e);
    }
  }

  /** Only three of the pump's steps touch a desk, and then one field of the desk the pump is at. */
  lemma PumpStepTouches(sys: System, s: State, act: PumpAct)
    requires PumpMay(sys, s, act)
    ensures var t := AfterPump(sys, s, act);
            match act
            case Claim =>
              t.desks == if s.desks[s.pump.i].want then s.desks[s.pump.i := s.desks[s.pump.i].(want := false)]
                         else s.desks
            case Deliver => t.desks == s.desks[s.pump.i := Offered(s.desks[s.pump.i], s.pump.adv.pid)]
            case Poke => t.desks == s.desks[s.pump.i := s.desks[s.pump.i].(poked := true)]
            case _ => t.desks == s.desks
  {
  }

  lemma ClaimKeepsTokens(sys: System, s: State, e: nat)
    requires PumpMay(sys, s, Claim) && e < |s.desks| && DeskTokens(s, e)
    ensures DeskTokens(AfterPump(sys, s, Claim), e)
  {
  }

  lemma DeliverKeepsTokens(sys: System, s: State, e: nat)
    requires PumpMay(sys, s, Deliver) && e < |s.desks| && DeskTokens(s, e)
    ensures DeskTokens(AfterPump(sys, s, Deliver), e)
  {
  }

  lemma OtherStepsKeepTokens(sys: System, s: State, act: PumpAct, e: nat)
    requires PumpMay(sys, s, act) && e < |s.desks| && DeskTokens(s, e) && !act.Claim? && !act.Deliver?
    ensures e < |AfterPump(sys, s, act).desks| && DeskTokens(AfterPump(sys, s, act), e)
  {
    var t := AfterPump(sys, s, act);
    PumpStepTouches(sys, s, act);
    assert PumpCarries(t, e) <==> PumpCarries(s, e);
  }

  lemma PumpStepStaysHonest(sys: System, s: State, act: PumpAct)
    requires InRange(sys, s) && PumpHonest(sys, s) && PumpMay(sys, s, act)
    ensures InRange(sys, AfterPump(sys, s, act)) && PumpHonest(sys, AfterPump(sys, s, act))
  {
  }

  lemma HandoffPumpStep(sys: System, s: State, act: PumpAct)
    requires HandoffInv(sys, s) && PumpMay(sys, s, act)
    ensures HandoffInv(sys, AfterPump(sys, s, act))
  {
    PumpStepStaysHonest(sys, s, act);
    forall e: nat | e < |s.desks|
      ensures DeskTokens(AfterPump(sys, s, act), e)
    {
      match act
      case Claim => ClaimKeepsTokens(sys, s, e);
      case Deliver => DeliverKeepsTokens(sys, s, e);
      case _ => OtherStepsKeepTokens(sys, s, act, e);
    }
  }

  lemma HandoffStep(sys: System, s: State, step: Step)
    requires HandoffInv(sys, s) && Enabled(sys, s, step)
    ensures HandoffInv(sys, Apply(sys, s, step))
  {
    match step
    case DeskDoes(d, act) => HandoffDeskStep(sys, s, d, act);
    case PumpDoes(act) => HandoffPumpStep(sys, s, act);
    case _ =>
      ElsewhereTouches(sys, s, step);
      HandoffElsewhere(sys, s, Apply(sys, s, step));
  }

  lemma HandoffElsewhere(sys: System, s: State, t: State)
    requires HandoffInv(sys, s) && t.desks == s.desks && t.pump == s.pump && t.routes == s.routes
    ensures HandoffInv(sys, t)
  {
    forall e: nat | e < |t.desks|
      ensures DeskTokens(t, e)
    {
      assert DeskTokens(s, e);
    }
  }

  lemma HandoffNext(sys: System, s: State, t: State)
    requires HandoffInv(sys, s) && Next(sys, s, t)
    ensures HandoffInv(sys, t)
  {
    var step :| Enabled(sys, s, step) && t == Apply(sys, s, step);
    HandoffStep(sys, s, step);
  }

  lemma HandoffReachable(sys: System, s: State)
    requires Reachable(sys, s)
    ensures HandoffInv(sys, s)
  {
    var P := s => HandoffInv(sys, s);
    forall s, t | P(s) && Next(sys, s, t)
      ensures P(t)
    {
      HandoffNext(sys, s, t);
    }
    Invariant(sys, P, s);
  }

  /**
   Token conservation, and what it means for the two best-effort branches of onDiscovery: the
   CompareAndSwap never fails and the send on resolved never takes its default branch. Outside
   resolve the channel is empty, so an identifier taken from it was found for the current request.
   */
  lemma NoHandoffLost(sys: System, s: State, d: nat)
    requires Reachable(sys, s) && d < |s.desks|
    ensures Tokens(s, d) == if InResolve(s.desks[d].pc) then 1 else 0
    ensures s.pump.Claiming? && s.pump.i == d ==> s.desks[d].want
    ensures s.pump.HandingOver? && s.pump.i == d ==> Offered(s.desks[d], s.pump.adv.pid).resolved == [s.pump.adv.pid]
    ensures !InResolve(s.desks[d].pc) ==> s.desks[d].resolved == [] && !s.desks[d].want
  {
    HandoffReachable(sys, s);
    assert DeskTokens(s, d);
  }

  // The scan wake-up

  predicate Wants(s: State, d: nat) {
    d < |s.desks| && s.desks[d].want
  }

  ghost predicate AnyWant(s: State) {
    exists d: nat :: Wants(s, d)
  }

  predicate OwesWake(s: State, d: nat) {
    d < |s.desks| && s.desks[d].pc == Asked
  }

  predicate PumpOwesWake(pump: Pump) {
    pump.Routing? || pump.HandingOver? || pump == WakingAfterFind
  }

  /** Some process has changed a wantResolve flag and has yet to call wakeScanner. */
  ghost predicate WakeOwed(s: State) {
    || (exists d: nat :: OwesWake(s, d))
    || PumpOwesWake(s.pump)
  }

  /** Another pass of the controller is certain: the flags it has read need not be current. */
  ghost predicate PassComing(s: State) {
    s.scanWake || WakeOwed(s)
  }

  /** What the controller has learnt from the flags it has read so far is still true of them. */
  ghost predicate ViewCurrent(s: State) {
    match s.ctl
    case Parked => s.startFailed || (s.scanning <==> AnyWant(s))
    case Reading(i) => forall d: nat :: d < i ==> !Wants(s, d)
    case Deciding(need) => need <==> AnyWant(s)
  }

  ghost predicate WakeInv(s: State) {
    PassComing(s) || ViewCurrent(s)
  }

  ghost predicate SameFlags(s: State, t: State) {
    |t.desks| == |s.desks| && forall d: nat :: d < |s.desks| ==> t.desks[d].want == s.desks[d].want
  }

  lemma SameFlagsSameView(s: State, t: State)
    requires SameFlags(s, t) && ViewCurrent(s)
    requires t.ctl == s.ctl && t.scanning == s.scanning && t.startFailed == s.startFailed
    ensures ViewCurrent(t)
  {
    assert forall d: nat :: Wants(s, d) <==> Wants(t, d);
  }

  /** Setting wantResolve leaves a wake-up owed, which is paid by the next step; other desk steps leave the flag alone. */
  lemma DeskStepOwes(desk: Desk, act: DeskAct, epoch: nat)
    requires DeskMay(desk, act)
    ensures act.AskForScan? ==> DeskAfter(desk, act, epoch).pc == Asked
    ensures !act.AskForScan? ==> DeskAfter(desk, act, epoch).want == desk.want
    ensures !act.CallWake? && desk.pc == Asked ==> DeskAfter(desk, act, epoch).pc == Asked
  {
  }

  lemma WakeDeskStep(s: State, d: nat, act: DeskAct)
    requires WakeInv(s) && d < |s.desks| && DeskMay(s.desks[d], act)
    ensures WakeInv(AfterDesk(s, d, act))
  {
    var t := AfterDesk(s, d, act);
    DeskStepTouches(s, d, act);
    DeskStepOwes(s.desks[d], act, s.epoch);
    if act.AskForScan? {
      assert OwesWake(t, d);
    } else if !act.CallWake? {
      if PassComing(s) {
        if e: nat :| OwesWake(s, e) { assert OwesWake(t, e); }
      } else {
        SameFlagsSameView(s, t);
      }
    }
  }

  lemma PumpLeavesController(sys: System, s: State, act: PumpAct)
    requires PumpMay(sys, s, act)
    ensures var t := AfterPump(sys, s, act);
            t.ctl == s.ctl && t.scanning == s.scanning && t.startFailed == s.startFailed && (s.scanWake ==> t.scanWake)
  {
  }

  /** From taking a flag down until it has called wakeScanner the pump owes a wake-up, and then has paid it. */
  lemma PumpStepOwes(sys: System, s: State, act: PumpAct)
    requires PumpMay(sys, s, act)
    ensures var t := AfterPump(sys, s, act);
            && (PumpOwesWake(s.pump) ==> t.scanWake || PumpOwesWake(t.pump))
            && (act.Claim? ==> PumpOwesWake(t.pump) || t.desks == s.desks)
  {
  }

  lemma PumpStepKeepsPcs(sys: System, s: State, act: PumpAct, e: nat)
    requires PumpMay(sys, s, act) && e < |s.desks|
    ensures var t := AfterPump(sys, s, act);
            && |t.desks| == |s.desks| && t.desks[e].pc == s.desks[e].pc
            && (!act.Claim? ==> t.desks[e].want == s.desks[e].want)
  {
    PumpStepTouches(sys, s, act);
  }

  lemma WakePumpStep(sys: System, s: State, act: PumpAct)
    requires WakeInv(s) && PumpMay(sys, s, act)
    ensures WakeInv(AfterPump(sys, s, act))
  {
    var t := AfterPump(sys, s, act);
    PumpLeavesController(sys, s, act);
    PumpStepOwes(sys, s, act);
    forall e: nat | e < |s.desks|
      ensures |t.desks| == |s.desks| && t.desks[e].pc == s.desks[e].pc
      ensures !act.Claim? ==> t.desks[e].want == s.desks[e].want
    {
      PumpStepKeepsPcs(sys, s, act, e);
    }
    PumpStepTouches(sys, s, act);
    if PassComing(s) {
      if e: nat :| OwesWake(s, e) { assert OwesWake(t, e); }
    } else if !PassComing(t) {
      SameFlagsSameView(s, t);
    }
  }

  lemma WakeControllerStep(s: State, act: ControllerAct)
    requires WakeInv(s) && ControllerMay(s, act)
    ensures WakeInv(AfterController(s, act))
  {
    var t := AfterController(s, act);
    assert forall d: nat :: (Wants(s, d) <==> Wants(t, d)) && (OwesWake(s, d) <==> OwesWake(t, d));
    if act.Read? && s.ctl.i < |s.desks| && s.desks[s.ctl.i].want {
      assert Wants(t, s.ctl.i);
    }
  }

  lemma WakeStep(sys: System, s: State, step: Step)
    requires WakeInv(s) && Enabled(sys, s, step)
    ensures WakeInv(Apply(sys, s, step))
  {
    match step {
      case DeskDoes(d, act) => WakeDeskStep(s, d, act);
      case PumpDoes(act) => WakePumpStep(sys, s, act);
      case ControllerDoes(act) => WakeControllerStep(s, act);
      case _ =>
        var t := Apply(sys, s, step);
        assert forall d: nat :: (Wants(s, d) <==> Wants(t, d)) && (OwesWake(s, d) <==> OwesWake(t, d));
    }
  }

  lemma WakeNext(sys: System, s: State, t: State)
    requires WakeInv(s) && Next(sys, s, t)
    ensures WakeInv(t)
  {
    var step :| Enabled(sys, s, step) && t == Apply(sys, s, step);
    WakeStep(sys, s, step);
  }

  lemma WakeReachable(sys: System, s: State)
    requires Reachable(sys, s)
    ensures WakeInv(s)
  {
    var P := s => WakeInv(s);
    forall s, t | P(s) && Next(sys, s, t)
      ensures P(t)
    {
      WakeNext(sys, s, t);
    }
    Invariant(sys, P, s);
  }

  /** The controller has read every flag, and nobody has changed one since. */
  ghost predicate AtRest(s: State) {
    s.ctl == Parked && !s.scanWake && !WakeOwed(s)
  }

  /** A scan that could not be started is not running. */
  predicate FailedIsOff(s: State) {
    s.startFailed ==> !s.scanning
  }

  lemma FailedIsOffNext(sys: System, s: State, t: State)
    requires FailedIsOff(s) && Next(sys, s, t)
    ensures FailedIsOff(t)
  {
    var step :| Enabled(sys, s, step) && t == Apply(sys, s, step);
    match step
    case DeskDoes(d, act) => DeskStepTouches(s, d, act);
    case PumpDoes(act) => PumpLeavesController(sys, s, act);
    case _ =>
  }

  lemma FailedIsOffReachable(sys: System, s: State)
    requires Reachable(sys, s)
    ensures FailedIsOff(s)
  {
    var P := s => FailedIsOff(s);
    forall s, t | P(s) && Next(sys, s, t)
      ensures P(t)
    {
      FailedIsOffNext(sys, s, t);
    }
    Invariant(sys, P, s);
  }

  /** No lost wake-up: at rest, the scan runs exactly when some desk wants one and the last pass could start it. */
  lemma NoLostScanWake(sys: System, s: State)
    requires Reachable(sys, s) && AtRest(s)
    ensures s.scanning <==> AnyWant(s) && !s.startFailed
  {
    WakeReachable(sys, s);
    FailedIsOffReachable(sys, s);
  }

  /**
   Put together: at rest, a desk blocked in resolve has its identifier, or wants one and is scanned
   for if a scan can be started.
   */
  lemma WaitingDeskIsServed(sys: System, s: State, d: nat)
    requires Reachable(sys, s) && d < |s.desks| && s.desks[d].pc == Waiting && AtRest(s)
    ensures s.desks[d].resolved != [] || (s.desks[d].want && (s.scanning || s.startFailed))
  {
    NoHandoffLost(sys, s, d);
    NoLostScanWake(sys, s);
    if s.desks[d].want { assert Wants(s, d); }
  }

  // What StartScan's answers have to do with it

  ghost predicate NextBut(sys: System, s: State, t: State, never: Step) {
    exists step :: step != never && Enabled(sys, s, step) && t == Apply(sys, s, step)
  }

  ghost predicate NextButAt(sys: System, run: seq<State>, i: int, never: Step)
    requires 0 < i < |run|
  {
    NextBut(sys, run[i - 1], run[i], never)
  }

  /** The states gone through by a sequence of enabled steps that are never the one named. */
  ghost predicate IsPathWithout(sys: System, run: seq<State>, never: Step) {
    run != [] && forall i :: 0 < i < |run| ==> NextButAt(sys, run, i, never)
  }

  lemma {:induction false} InvariantWithout(sys: System, P: State -> bool, run: seq<State>, never: Step, i: nat)
    requires IsPathWithout(sys, run, never) && i < |run| && P(run[0])
    requires forall s, t :: P(s) && NextBut(sys, s, t, never) ==> P(t)
    ensures P(run[i])
    decreases i
  {
    if i > 0 {
      InvariantWithout(sys, P, run, never, i - 1);
      assert NextButAt(sys, run, i, never);
    }
  }

  /** Steps other than a decision leave the controller's belief alone; a decision makes it what StartScan allows. */
  lemma DecidesOnly(sys: System, s: State, step: Step)
    requires Enabled(sys, s, step)
    ensures var t := Apply(sys, s, step);
            && (t.startFailed ==> s.startFailed || step == ControllerDoes(Decide(false)))
            && (t.scanning ==> s.scanning || step == ControllerDoes(Decide(true)))
  {
    match step
    case DeskDoes(d, act) => DeskStepTouches(s, d, act);
    case PumpDoes(act) => PumpLeavesController(sys, s, act);
    case _ =>
  }

  /**
   While every StartScan succeeds nothing is booked as failed; so from then on, at rest, the scan runs
   exactly when some desk wants one.
   */
  lemma StartsThatSucceedScan(sys: System, run: seq<State>)
    requires IsPathWithout(sys, run, ControllerDoes(Decide(false))) && Reachable(sys, run[0]) && !run[0].startFailed
    ensures var t := run[|run| - 1];
            !t.startFailed && (AtRest(t) ==> (t.scanning <==> AnyWant(t)))
  {
    var P := s => Reachable(sys, s) && !s.startFailed;
    forall s, t | P(s) && NextBut(sys, s, t, ControllerDoes(Decide(false)))
      ensures P(t)
    {
      var step :| step != ControllerDoes(Decide(false)) && Enabled(sys, s, step) && t == Apply(sys, s, step);
      DecidesOnly(sys, s, step);
      StepReaches(sys, s, step);
    }
    InvariantWithout(sys, P, run, ControllerDoes(Decide(false)), |run| - 1);
    if AtRest(run[|run| - 1]) { NoLostScanWake(sys, run[|run| - 1]); }
  }

  /**
   While no StartScan succeeds there is no scan; so from then on, at rest, the failure is on record
   exactly when some desk wants one.
   */
  lemma NoScanWithoutStart(sys: System, run: seq<State>)
    requires IsPathWithout(sys, run, ControllerDoes(Decide(true))) && Reachable(sys, run[0]) && !run[0].scanning
    ensures var t := run[|run| - 1];
            !t.scanning && (AtRest(t) && AnyWant(t) ==> t.startFailed)
  {
    var P := s => Reachable(sys, s) && !s.scanning;
    forall s, t | P(s) && NextBut(sys, s, t, ControllerDoes(Decide(true)))
      ensures P(t)
    {
      var step :| step != ControllerDoes(Decide(true)) && Enabled(sys, s, step) && t == Apply(sys, s, step);
      DecidesOnly(sys, s, step);
      StepReaches(sys, s, step);
    }
    InvariantWithout(sys, P, run, ControllerDoes(Decide(true)), |run| - 1);
    if AtRest(run[|run| - 1]) { NoLostScanWake(sys, run[|run| - 1]); }
  }

  // The controller can always catch up, with nobody to wake it but its ticker

  /** The rest of a pass over the flags; if no flag before i was set, it finds out whether any is. */
  lemma {:induction false} ReadsOn(sys: System, start: State, s: State, i: nat) returns (need: bool)
    requires Leads(sys, start, s) && s.ctl == Reading(i)
    ensures Leads(sys, start, s.(ctl := Deciding(need)))
    ensures (forall d: nat :: d < i ==> !Wants(s, d)) ==> (need <==> AnyWant(s))
    decreases |s.desks| - i
  {
    StepLeads(sys, start, s, ControllerDoes(Read));
    if i >= |s.desks| {
      need := false;
    } else if s.desks[i].want {
      need := true;
      assert Wants(s, i);
    } else {
      var t := s.(ctl := Reading(i + 1));
      assert forall d: nat :: Wants(t, d) <==> Wants(s, d);
      need := ReadsOn(sys, start, t, i + 1);
    }
  }

  /** Whatever the controller is doing, it can get back to its select. */
  lemma ControllerRests(sys: System, start: State, s: State) returns (t: State)
    requires Leads(sys, start, s)
    ensures Leads(sys, start, t) && t == s.(ctl := Parked, scanning := t.scanning, startFailed := t.startFailed)
  {
    t := s;
    if t.ctl.Reading? {
      var need := ReadsOn(sys, start, t, t.ctl.i);
      t := t.(ctl := Deciding(need));
    }
    if t.ctl.Deciding? {
      StepLeads(sys, start, t, ControllerDoes(Decide(true)));
      t := AfterController(t, Decide(true));
    }
  }

  /**
   From any state, with no step but the controller's own, no wake-up but its ticker's, and a StartScan
   that succeeds, the scan comes to run exactly when some desk wants one.
   */
  lemma ControllerCatchesUp(sys: System, start: State, s: State) returns (t: State)
    requires Leads(sys, start, s)
    ensures Leads(sys, start, t) && t == s.(ctl := Parked, scanning := AnyWant(s), startFailed := false)
  {
    var rested := ControllerRests(sys, start, s);
    StepLeads(sys, start, rested, ControllerDoes(Tick));
    var reading := rested.(ctl := Reading(0));
    var need := ReadsOn(sys, start, reading, 0);
    assert forall d: nat :: Wants(reading, d) <==> Wants(s, d);
    StepLeads(sys, start, reading.(ctl := Deciding(need)), ControllerDoes(Decide(true)));
    t := AfterController(reading.(ctl := Deciding(need)), Decide(true));
  }

  // Power coming back wakes the controller

  /** t can be reached from s without a step of the kind named. */
  ghost predicate LeadsWithout(sys: System, s: State, t: State, never: Step) {
    exists run :: IsPathWithout(sys, run, never) && run[0] == s && run[|run| - 1] == t
  }

  lemma StepLeadsWithout(sys: System, start: State, s: State, step: Step, never: Step)
    requires LeadsWithout(sys, start, s, never) && Enabled(sys, s, step) && step != never
    ensures LeadsWithout(sys, start, Apply(sys, s, step), never)
  {
    var run :| IsPathWithout(sys, run, never) && run[0] == start && run[|run| - 1] == s;
    var longer := run + [Apply(sys, s, step)];
    forall i | 0 < i < |longer|
      ensures NextButAt(sys, longer, i, never)
    {
      if i < |run| { assert NextButAt(sys, run, i, never) && longer[i - 1] == run[i - 1] && longer[i] == run[i]; }
    }
    assert IsPathWithout(sys, longer, never) && longer[0] == start;
  }

  lemma {:induction false} ReadsOnWithout(sys: System, start: State, s: State, i: nat, never: Step)
    requires LeadsWithout(sys, start, s, never) && never != ControllerDoes(Read) && s.ctl == Reading(i)
    requires forall d: nat :: d < i ==> !Wants(s, d)
    ensures LeadsWithout(sys, start, s.(ctl := Deciding(AnyWant(s))), never)
    decreases |s.desks| - i
  {
    StepLeadsWithout(sys, start, s, ControllerDoes(Read), never);
    if i < |s.desks| {
      if s.desks[i].want {
        assert Wants(s, i);
      } else {
        var t := s.(ctl := Reading(i + 1));
        assert forall d: nat :: Wants(t, d) <==> Wants(s, d);
        ReadsOnWithout(sys, start, t, i + 1, never);
      }
    }
  }

  /** A wake-up makes the scan follow the desks' wishes, without the ticker. */
  lemma WokenCatchesUp(sys: System, start: State, s: State) returns (t: State)
    requires LeadsWithout(sys, start, s, ControllerDoes(Tick)) && s.ctl == Parked && s.scanWake
    ensures LeadsWithout(sys, start, t, ControllerDoes(Tick))
    ensures t == s.(scanWake := false, scanning := AnyWant(s), startFailed := false)
  {
    var tick := ControllerDoes(Tick);
    StepLeadsWithout(sys, start, s, ControllerDoes(TakeWake), tick);
    var reading := s.(ctl := Reading(0), scanWake := false);
    ReadsOnWithout(sys, start, reading, 0, tick);
    assert forall d: nat :: Wants(reading, d) <==> Wants(s, d);
    var deciding := reading.(ctl := Deciding(AnyWant(reading)));
    StepLeadsWithout(sys, start, deciding, ControllerDoes(Decide(true)), tick);
    t := AfterController(deciding, Decide(true));
  }

  /** When the adapter is powered on, a scan that could not be started is started, without waiting for the ticker. */
  lemma PowerOnStartsScan(sys: System, s: State) returns (t: State)
    requires s.pump == Idle && s.ctl == Parked
    ensures LeadsWithout(sys, s, t, ControllerDoes(Tick)) && t.desks == s.desks && t.pump == Idle
    ensures !t.startFailed && (t.scanning <==> AnyWant(s))
  {
    var tick := ControllerDoes(Tick);
    assert IsPathWithout(sys, [s], tick);
    StepLeadsWithout(sys, s, s, PumpDoes(PowerOn), tick);
    var waking := AfterPump(sys, s, PowerOn);
    StepLeadsWithout(sys, s, waking, PumpDoes(CallWakeOnPower), tick);
    var woken := AfterPump(sys, waking, CallWakeOnPower);
    assert forall d: nat :: Wants(woken, d) <==> Wants(s, d);
    t := WokenCatchesUp(sys, s, woken);
  }
}
