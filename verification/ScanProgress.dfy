/** A desk that can be heard can always get back to being served, exactly if no peripheral matches two desks. */
module ScanProgress {
  import opened Text
  import opened Matching
  import opened ScanProtocol
  import opened ScanSafety
  import opened ScanRouting
  import opened ScanDrops
  import opened ScanSessions

  /** The desk is being served over a link that is up. */
  predicate Up(s: State, d: nat) {
    d < |s.desks| && s.desks[d].pc == Serving && s.desks[d].link
  }

  /** t is where the proof has got to on a run from s. */
  ghost predicate Onward(sys: System, s: State, t: State, d: nat) {
    Reachable(sys, t) && Leads(sys, s, t) && d < |t.desks|
  }

  lemma Onwards(sys: System, s: State, t: State, d: nat, step: Step)
    requires Onward(sys, s, t, d) && Enabled(sys, t, step) && d < |Apply(sys, t, step).desks|
    ensures Onward(sys, s, Apply(sys, t, step), d)
  {
    StepReaches(sys, t, step);
    StepLeads(sys, s, t, step);
  }

  lemma DeskOnwards(sys: System, s: State, t: State, d: nat, act: DeskAct)
    requires Onward(sys, s, t, d) && DeskMay(t.desks[d], act)
    ensures Onward(sys, s, AfterDesk(t, d, act), d)
    ensures AfterDesk(t, d, act).desks[d] == DeskAfter(t.desks[d], act, t.epoch)
  {
    DeskStepTouches(t, d, act);
    Onwards(sys, s, t, d, DeskDoes(d, act));
  }

  /** The pump can finish what it is doing; the desk's own loop and link stay where they are. */
  lemma {:induction false} PumpRestsOnwards(sys: System, s: State, t: State, d: nat) returns (u: State)
    requires Onward(sys, s, t, d)
    ensures Onward(sys, s, u, d) && u.pump == Idle
    ensures u.desks[d].pc == t.desks[d].pc && u.desks[d].link == t.desks[d].link && u.desks[d].conn == t.desks[d].conn
    decreases Busy(t.pump, |t.desks|)
  {
    if t.pump == Idle {
      u := t;
    } else {
      HandoffReachable(sys, t);
      var act := PumpNext(t.pump);
      PumpGoesOn(sys, t);
      PumpStepSession(sys, t, act, d);
      Onwards(sys, s, t, d, PumpDoes(act));
      u := PumpRestsOnwards(sys, s, AfterPump(sys, t, act), d);
    }
  }

  // Back to the top of the loop

  lemma FromSettling(sys: System, s: State, t: State, d: nat) returns (u: State)
    requires Onward(sys, s, t, d) && t.desks[d].pc.Settling?
    ensures Onward(sys, s, u, d) && u.desks[d].pc == Head
  {
    u := AfterDesk(t, d, Settle);
    DeskOnwards(sys, s, t, d, Settle);
  }

  lemma FromLeaving(sys: System, s: State, t: State, d: nat) returns (u: State)
    requires Onward(sys, s, t, d) && t.desks[d].pc.Leaving?
    ensures Onward(sys, s, u, d) && u.desks[d].pc == Head
  {
    var act := HangUp(Closed, t.desks[d].pid);
    DeskOnwards(sys, s, t, d, act);
    u := FromSettling(sys, s, AfterDesk(t, d, act), d);
  }

  lemma FromConnecting(sys: System, s: State, t: State, d: nat) returns (u: State)
    requires Onward(sys, s, t, d) && t.desks[d].pc.Connecting?
    ensures Onward(sys, s, u, d) && u.desks[d].pc == Head
  {
    var act := ConnectFailed(Closed, t.desks[d].pid);
    DeskOnwards(sys, s, t, d, act);
    u := FromSettling(sys, s, AfterDesk(t, d, act), d);
  }

  lemma FromSettingUp(sys: System, s: State, t: State, d: nat) returns (u: State)
    requires Onward(sys, s, t, d) && t.desks[d].pc == SettingUp
    ensures Onward(sys, s, u, d) && u.desks[d].pc == Head
  {
    DeskOnwards(sys, s, t, d, SetupFailed);
    u := FromLeaving(sys, s, AfterDesk(t, d, SetupFailed), d);
  }

  lemma FromPoked(sys: System, s: State, t: State, d: nat) returns (u: State)
    requires Onward(sys, s, t, d) && t.desks[d].pc == Serving && t.desks[d].poked
    ensures Onward(sys, s, u, d) && u.desks[d].pc == Head
  {
    DeskOnwards(sys, s, t, d, ServeDropped);
    u := FromLeaving(sys, s, AfterDesk(t, d, ServeDropped), d);
  }

  /** With the pump at rest, a session that has lost its link and not been told finds its event queued. */
  lemma DropIsQueued(sys: System, t: State, d: nat) returns (e: DropEvent)
    requires Exclusive(sys) && Reachable(sys, t) && d < |t.desks| && t.pump == Idle
    requires t.desks[d].pc == Serving && !t.desks[d].link && !t.desks[d].poked
    ensures e in t.drops && Concerns(e.stamp, t.desks[d])
  {
    DropReachable(sys, t);
    assert DropNotMissed(t, d);
    e :| InFlight(t, e) && Concerns(e.stamp, t.desks[d]);
  }

  /** The pump can take it, look it up, and poke the desk. */
  lemma DropArrives(sys: System, s: State, t: State, d: nat, e: DropEvent) returns (u: State)
    requires Exclusive(sys) && Onward(sys, s, t, d) && t.pump == Idle && t.desks[d].pc == Serving
    requires e in t.drops && Concerns(e.stamp, t.desks[d])
    ensures Onward(sys, s, u, d) && u.desks[d].pc == Serving && u.desks[d].poked
  {
    var t1 := t.(pump := LookingUp(e), drops := t.drops - multiset{e});
    Onwards(sys, s, t, d, PumpDoes(TakeDrop(e)));
    DropFindsItsSession(sys, t1, d);
    var t2 := AfterPump(sys, t1, LookUp);
    assert t2.desks == t1.desks;
    Onwards(sys, s, t1, d, PumpDoes(LookUp));
    u := AfterPump(sys, t2, Poke);
    Onwards(sys, s, t2, d, PumpDoes(Poke));
  }

  /** A session that has lost its link can be told of it, if it has not been. */
  lemma FromDeadServing(sys: System, s: State, t: State, d: nat) returns (u: State)
    requires Exclusive(sys) && Onward(sys, s, t, d) && t.desks[d].pc == Serving && !t.desks[d].link
    ensures Onward(sys, s, u, d) && u.desks[d].pc == Head
  {
    var v := PumpRestsOnwards(sys, s, t, d);
    if !v.desks[d].poked {
      var e := DropIsQueued(sys, v, d);
      v := DropArrives(sys, s, v, d, e);
    }
    u := FromPoked(sys, s, v, d);
  }

  /** At the top of the loop, waiting for a peripheral, or about to drain. */
  predicate Before(pc: DeskPc) {
    pc == Head || InResolve(pc) || pc == Draining
  }

  /** Whatever a desk is doing, unless it is up, it can get back to before its next session. */
  lemma GetsBack(sys: System, s: State, t: State, d: nat) returns (u: State)
    requires Exclusive(sys) && Onward(sys, s, t, d) && !Up(t, d)
    ensures Onward(sys, s, u, d) && Before(u.desks[d].pc)
  {
    match t.desks[d].pc
    case Connecting(_) => u := FromConnecting(sys, s, t, d);
    case SettingUp => u := FromSettingUp(sys, s, t, d);
    case Serving => u := FromDeadServing(sys, s, t, d);
    case Leaving(_) => u := FromLeaving(sys, s, t, d);
    case Settling(_) => u := FromSettling(sys, s, t, d);
    case _ => u := t;
  }

  // And on to the next session

  lemma FromDraining(sys: System, s: State, t: State, d: nat) returns (u: State)
    requires Onward(sys, s, t, d) && t.desks[d].pc == Draining
    ensures Leads(sys, s, u) && Up(u, d)
  {
    u := CanServe(sys, s, t, d);
  }

  lemma FromResolved(sys: System, s: State, t: State, d: nat) returns (u: State)
    requires Onward(sys, s, t, d) && t.desks[d].pc == Waiting && t.desks[d].resolved != []
    ensures Leads(sys, s, u) && Up(u, d)
  {
    DeskOnwards(sys, s, t, d, TakeResolved);
    u := FromDraining(sys, s, AfterDesk(t, d, TakeResolved), d);
  }

  /** With the pump at rest, a waiting desk has its identifier or still wants one. */
  lemma StillWanting(sys: System, t: State, d: nat)
    requires Reachable(sys, t) && d < |t.desks| && t.pump == Idle && t.desks[d].pc == Waiting && t.desks[d].resolved == []
    ensures t.desks[d].want
  {
    NoHandoffLost(sys, t, d);
  }

  /** The advert that matches the desk is handed to it, because it matches no other. */
  lemma IsHandedOver(sys: System, s: State, t: State, d: nat, adv: Advert) returns (u: State)
    requires Exclusive(sys) && Onward(sys, s, t, d) && t.pump == Idle
    requires t.desks[d].pc == Waiting && t.desks[d].want && t.desks[d].resolved == []
    requires adv in sys.world && Matches(sys, d, adv)
    ensures Onward(sys, s, u, d) && u.desks[d].pc == Waiting && u.desks[d].resolved != []
  {
    assert Wants(t, d);
    var v := ControllerCatchesUp(sys, s, t);
    var w := ControllerCatchesUp(sys, Init(sys), t);
    assert forall e: nat :: Takes(sys, v, e, adv) ==> e == d;
    DiscoveryIsARun(sys, Init(sys), w, adv, d);
    DiscoveryIsARun(sys, s, v, adv, d);
    u := Discovered(sys, v, adv, d);
  }

  lemma FromWaiting(sys: System, s: State, t: State, d: nat, adv: Advert) returns (u: State)
    requires Exclusive(sys) && Onward(sys, s, t, d) && t.desks[d].pc == Waiting
    requires adv in sys.world && Matches(sys, d, adv)
    ensures Leads(sys, s, u) && Up(u, d)
  {
    var v := PumpRestsOnwards(sys, s, t, d);
    if v.desks[d].resolved == [] {
      StillWanting(sys, v, d);
      v := IsHandedOver(sys, s, v, d, adv);
    }
    u := FromResolved(sys, s, v, d);
  }

  lemma FromAsked(sys: System, s: State, t: State, d: nat, adv: Advert) returns (u: State)
    requires Exclusive(sys) && Onward(sys, s, t, d) && t.desks[d].pc == Asked
    requires adv in sys.world && Matches(sys, d, adv)
    ensures Leads(sys, s, u) && Up(u, d)
  {
    DeskOnwards(sys, s, t, d, CallWake);
    u := FromWaiting(sys, s, AfterDesk(t, d, CallWake), d, adv);
  }

  lemma FromHead(sys: System, s: State, t: State, d: nat, adv: Advert) returns (u: State)
    requires Exclusive(sys) && Onward(sys, s, t, d) && t.desks[d].pc == Head
    requires adv in sys.world && Matches(sys, d, adv)
    ensures Leads(sys, s, u) && Up(u, d)
  {
    if t.desks[d].pid == "" {
      DeskOnwards(sys, s, t, d, AskForScan);
      u := FromAsked(sys, s, AfterDesk(t, d, AskForScan), d, adv);
    } else {
      DeskOnwards(sys, s, t, d, KeepPeripheral);
      u := FromDraining(sys, s, AfterDesk(t, d, KeepPeripheral), d);
    }
  }

  /** With exclusive matching no reachable state is a dead end for a desk whose advert can be heard. */
  lemma GetsUp(sys: System, s: State, d: nat, adv: Advert) returns (u: State)
    requires Exclusive(sys) && Reachable(sys, s) && adv in sys.world && Matches(sys, d, adv)
    ensures Leads(sys, s, u) && Up(u, d)
  {
    HandoffReachable(sys, s);
    LeadsNowhere(sys, s);
    if Up(s, d) {
      u := s;
    } else {
      var t := GetsBack(sys, s, s, d);
      match t.desks[d].pc
      case Head => u := FromHead(sys, s, t, d, adv);
      case Asked => u := FromAsked(sys, s, t, d, adv);
      case Waiting => u := FromWaiting(sys, s, t, d, adv);
      case Draining => u := FromDraining(sys, s, t, d);
    }
  }

  // The dead end when two desks match one peripheral

  /** Serving a dead link, not told, and no route, claim or poke leads to the desk. */
  ghost predicate Stuck(s: State, d: nat) {
    && d < |s.desks| && s.desks[d].pc == Serving
    && !s.desks[d].link && !s.desks[d].poked && !s.desks[d].want
    && !PumpCarries(s, d) && !PokesNext(s, d)
    && forall key :: key in s.routes ==> s.routes[key] != d
  }

  lemma StuckDeskStep(s: State, d: nat, e: nat, act: DeskAct)
    requires Stuck(s, d) && e < |s.desks| && DeskMay(s.desks[e], act)
    ensures Stuck(AfterDesk(s, e, act), d)
  {
    DeskStepTouches(s, e, act);
    assert e != d;
  }

  lemma PumpStepRoutes(sys: System, s: State, act: PumpAct, d: nat)
    requires PumpMay(sys, s, act) && Stuck(s, d)
    ensures forall key :: key in AfterPump(sys, s, act).routes ==> AfterPump(sys, s, act).routes[key] != d
  {
  }

  lemma PumpStepCarries(sys: System, s: State, act: PumpAct, d: nat)
    requires PumpMay(sys, s, act) && Stuck(s, d)
    ensures !PumpCarries(AfterPump(sys, s, act), d)
  {
  }

  lemma StuckPumpStep(sys: System, s: State, d: nat, act: PumpAct)
    requires Stuck(s, d) && PumpMay(sys, s, act)
    ensures Stuck(AfterPump(sys, s, act), d)
  {
    PumpStepSession(sys, s, act, d);
    PumpPokesOnlyTold(sys, s, d, act);
    PumpStepKeepsWant(sys, s, act, d);
    PumpStepRoutes(sys, s, act, d);
    PumpStepCarries(sys, s, act, d);
  }

  lemma PumpStepKeepsWant(sys: System, s: State, act: PumpAct, d: nat)
    requires PumpMay(sys, s, act) && d < |s.desks|
    ensures |AfterPump(sys, s, act).desks| == |s.desks| && (AfterPump(sys, s, act).desks[d].want ==> s.desks[d].want)
  {
    PumpStepTouches(sys, s, act);
  }

  lemma StuckNext(sys: System, s: State, t: State, d: nat)
    requires Stuck(s, d) && Next(sys, s, t)
    ensures Stuck(t, d)
  {
    var step :| Enabled(sys, s, step) && t == Apply(sys, s, step);
    match step
    case DeskDoes(e, act) => StuckDeskStep(s, d, e, act);
    case PumpDoes(act) => StuckPumpStep(sys, s, d, act);
    case _ => ElsewhereTouches(sys, s, step);
  }

  lemma StuckForGood(sys: System, s: State, t: State, d: nat)
    requires Stuck(s, d) && Leads(sys, s, t)
    ensures !Up(t, d)
  {
    var P := u => Stuck(u, d);
    forall u, v | P(u) && Next(sys, u, v)
      ensures P(v)
    {
      StuckNext(sys, u, v, d);
    }
    InvariantFrom(sys, P, s, t);
  }

  /** Two desks that match one peripheral: the first can end up stuck. */
  lemma OverlapSticks(sys: System, a: Advert, b: Advert, i: nat, j: nat) returns (s: State)
    requires a in sys.world && b in sys.world && Upper(a.pid) == Upper(b.pid)
    requires i != j && Matches(sys, i, a) && Matches(sys, j, b)
    ensures Reachable(sys, s) && Stuck(s, i)
  {
    InitReaches(sys);
    var s1 := DeskCanTake(sys, Init(sys), i, a);
    var s2 := DeskCanTake(sys, s1, j, b);
    var s3 := CanServe(sys, Init(sys), s2, i);
    assert forall key :: key in s3.routes ==> s3.routes[key] == j;
    s := MisroutedMisses(sys, s3, i, j);
    NoHandoffLost(sys, s, i);
  }

  /**
   From every reachable state every desk whose advert can be heard can still get to being served over
   a link that is up: exactly when matching is exclusive.
   */
  lemma NeverStuckIffExclusive(sys: System)
    ensures (forall s, d: nat, adv :: Reachable(sys, s) && adv in sys.world && Matches(sys, d, adv) ==>
               exists t :: Leads(sys, s, t) && Up(t, d))
            <==> Exclusive(sys)
  {
    if Exclusive(sys) {
      forall s, d: nat, adv | Reachable(sys, s) && adv in sys.world && Matches(sys, d, adv)
        ensures exists t :: Leads(sys, s, t) && Up(t, d)
      {
        var t := GetsUp(sys, s, d, adv);
      }
    } else {
      var a, b, i: nat, j: nat :| a in sys.world && b in sys.world && Upper(a.pid) == Upper(b.pid)
        && Matches(sys, i, a) && Matches(sys, j, b) && i != j;
      var s := OverlapSticks(sys, a, b, i, j);
      forall t | Leads(sys, s, t)
        ensures !Up(t, i)
      {
        StuckForGood(sys, s, t, i);
      }
    }
  }
}
