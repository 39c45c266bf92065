/** When a desk gives up on its peripheral and has it scanned for again: on the third failure in a row, and only then. */
module ScanRescan {
  import opened Text
  import opened Matching
  import opened ScanProtocol
  import opened ScanSafety
  import opened ScanRouting

  // Only what was advertised as its own

  /** What the desk dials, or is about to, was advertised under that very identifier by a peripheral it matches. */
  ghost predicate HeardOfOwn(sys: System, s: State, d: nat)
    requires d < |s.desks|
  {
    && (s.desks[d].pid != "" ==> Heard(sys, d, s.desks[d].pid))
    && forall k :: 0 <= k < |s.desks[d].resolved| ==> Heard(sys, d, s.desks[d].resolved[k])
  }

  ghost predicate AllHeard(sys: System, s: State) {
    forall d: nat :: d < |s.desks| ==> HeardOfOwn(sys, s, d)
  }

  lemma AllHeardDeskStep(sys: System, s: State, d: nat, act: DeskAct)
    requires AllHeard(sys, s) && d < |s.desks| && DeskMay(s.desks[d], act)
    ensures AllHeard(sys, AfterDesk(s, d, act))
  {
    DeskStepTouches(s, d, act);
    forall e: nat | e < |s.desks|
      ensures HeardOfOwn(sys, AfterDesk(s, d, act), e)
    {
      assert HeardOfOwn(sys, s, e);
    }
  }

  lemma AllHeardPumpStep(sys: System, s: State, act: PumpAct)
    requires AllHeard(sys, s) && PumpHonest(sys, s) && PumpMay(sys, s, act)
    ensures AllHeard(sys, AfterPump(sys, s, act))
  {
    PumpStepTouches(sys, s, act);
    forall e: nat | e < |s.desks|
      ensures |AfterPump(sys, s, act).desks| == |s.desks| && HeardOfOwn(sys, AfterPump(sys, s, act), e)
    {
      assert HeardOfOwn(sys, s, e);
      if act.Deliver? { assert Heard(sys, s.pump.i, s.pump.adv.pid); }
    }
  }

  lemma AllHeardNext(sys: System, s: State, t: State)
    requires AllHeard(sys, s) && PumpHonest(sys, s) && Next(sys, s, t)
    ensures AllHeard(sys, t)
  {
    var step :| Enabled(sys, s, step) && t == Apply(sys, s, step);
    match step
    case DeskDoes(d, act) => AllHeardDeskStep(sys, s, d, act);
    case PumpDoes(act) => AllHeardPumpStep(sys, s, act);
    case _ =>
      ElsewhereTouches(sys, s, step);
      assert forall d: nat :: d < |s.desks| && HeardOfOwn(sys, s, d) ==> HeardOfOwn(sys, t, d);
  }

  /** However matching overlaps, a desk never dials anything but a peripheral heard that matches it. */
  lemma DialsOnlyItsOwn(sys: System, s: State, d: nat)
    requires Reachable(sys, s) && d < |s.desks| && s.desks[d].pid != ""
    ensures exists adv <- sys.world :: adv.pid == s.desks[d].pid && Matches(sys, d, adv)
  {
    var P := s => AllHeard(sys, s);
    forall s, t | Reachable(sys, s) && P(s) && Next(sys, s, t)
      ensures P(t)
    {
      HandoffReachable(sys, s);
      AllHeardNext(sys, s, t);
    }
    Invariant(sys, P, s);
    assert HeardOfOwn(sys, s, d);
  }

  // Three failures in a row

  /** Never more than two failures are on the count, and none once a session has been served. */
  predicate CountsFailures(desk: Desk) {
    desk.failures <= 2
    && (desk.pc == Serving || desk.pc == Leaving(true) || desk.pc == Settling(true) ==> desk.failures == 0)
  }

  lemma DeskStepCounts(desk: Desk, act: DeskAct, epoch: nat)
    requires DeskMay(desk, act) && CountsFailures(desk)
    ensures CountsFailures(DeskAfter(desk, act, epoch))
  {
  }

  lemma PumpStepCounts(sys: System, s: State, act: PumpAct, e: nat)
    requires PumpMay(sys, s, act) && e < |s.desks|
    ensures var t := AfterPump(sys, s, act);
            && |t.desks| == |s.desks| && t.desks[e].pc == s.desks[e].pc
            && t.desks[e].failures == s.desks[e].failures && t.desks[e].pid == s.desks[e].pid
  {
    PumpStepTouches(sys, s, act);
  }

  ghost predicate AllCount(s: State) {
    forall d: nat :: d < |s.desks| ==> CountsFailures(s.desks[d])
  }

  lemma FailuresNext(sys: System, s: State, t: State)
    requires Next(sys, s, t) && AllCount(s)
    ensures AllCount(t)
  {
    var step :| Enabled(sys, s, step) && t == Apply(sys, s, step);
    match step
    case DeskDoes(d, act) =>
      DeskStepTouches(s, d, act);
      DeskStepCounts(s.desks[d], act, s.epoch);
    case PumpDoes(act) =>
      PumpStepTouches(sys, s, act);
      forall e: nat | e < |t.desks|
        ensures CountsFailures(t.desks[e])
      {
        PumpStepCounts(sys, s, act, e);
      }
    case _ => ElsewhereTouches(sys, s, step);
  }

  lemma FailuresBounded(sys: System, s: State, d: nat)
    requires Reachable(sys, s) && d < |s.desks|
    ensures CountsFailures(s.desks[d])
  {
    var P := s => AllCount(s);
    forall s, t | P(s) && Next(sys, s, t)
      ensures P(t)
    {
      FailuresNext(sys, s, t);
    }
    Invariant(sys, P, s);
  }

  /** A desk loses its peripheral only by failing with two failures on the count, and loses its route with it. */
  lemma ForgetsOnlyOnThird(sys: System, s: State, step: Step, d: nat)
    requires Reachable(sys, s) && Enabled(sys, s, step) && d < |s.desks| && s.desks[d].pid != ""
    ensures var t := Apply(sys, s, step);
            && d < |t.desks|
            && (t.desks[d].pid != s.desks[d].pid ==>
                  && step == DeskDoes(d, Settle) && s.desks[d].pc == Settling(false) && s.desks[d].failures == 2
                  && t.desks[d].pid == "" && Upper(s.desks[d].pid) !in t.routes)
  {
    FailuresBounded(sys, s, d);
    HandoffReachable(sys, s);
    assert DeskTokens(s, d);
    match step
    case DeskDoes(e, act) =>
      DeskStepTouches(s, e, act);
      if e == d { DeskStepForgets(s.desks[d], act, s.epoch); }
    case PumpDoes(act) => PumpStepCounts(sys, s, act, d);
    case _ => ElsewhereTouches(sys, s, step);
  }

  lemma DeskStepForgets(desk: Desk, act: DeskAct, epoch: nat)
    requires DeskMay(desk, act) && desk.pid != "" && desk.failures <= 2 && !InResolve(desk.pc)
    ensures var after := DeskAfter(desk, act, epoch);
            after.pid != desk.pid ==> act == Settle && desk.pc == Settling(false) && desk.failures == 2 && after.pid == ""
  {
  }

  /** Dialling and being refused. */
  function Refused(desk: Desk): Desk {
    var idle := desk.(pc := Head, poked := false, link := false);
    if desk.failures < 2 then idle.(failures := desk.failures + 1) else idle.(failures := 0, pid := "")
  }

  lemma DeskStepLeads(sys: System, start: State, s: State, d: nat, act: DeskAct, t: State)
    requires Leads(sys, start, s) && d < |s.desks| && DeskMay(s.desks[d], act) && t == AfterDesk(s, d, act)
    ensures Leads(sys, start, t)
    ensures t.desks == s.desks[d := DeskAfter(s.desks[d], act, s.epoch)]
    ensures !act.Settle? ==> t.routes == s.routes
  {
    StepLeads(sys, start, s, DeskDoes(d, act));
  }

  /** From the top of the loop to the drain and into Connect. */
  lemma Dials(sys: System, start: State, s: State, d: nat) returns (t: State)
    requires Leads(sys, start, s) && d < |s.desks| && s.desks[d].pc == Head && s.desks[d].pid != ""
    ensures Leads(sys, start, t) && t.routes == s.routes
    ensures t.desks == s.desks[d := s.desks[d].(pc := Connecting(false), poked := false)]
  {
    var s1 := AfterDesk(s, d, KeepPeripheral);
    DeskStepLeads(sys, start, s, d, KeepPeripheral, s1);
    t := AfterDesk(s1, d, DrainOld);
    DeskStepLeads(sys, start, s1, d, DrainOld, t);
  }

  /** Connect fails before the link comes up. */
  lemma Fails(sys: System, start: State, s: State, d: nat) returns (t: State)
    requires Leads(sys, start, s) && d < |s.desks| && s.desks[d].pc == Connecting(false)
    ensures Leads(sys, start, t) && t.routes == s.routes
    ensures t.desks == s.desks[d := s.desks[d].(pc := Settling(false), link := false)]
  {
    var failed := ConnectFailed(Closed, s.desks[d].pid);
    t := AfterDesk(s, d, failed);
    DeskStepLeads(sys, start, s, d, failed, t);
  }

  lemma Settles(sys: System, start: State, s: State, d: nat) returns (t: State)
    requires Leads(sys, start, s) && d < |s.desks| && s.desks[d].pc == Settling(false)
    requires s.desks[d].pid != "" && s.desks[d].failures < 3
    ensures Leads(sys, start, t)
    ensures var desk := s.desks[d];
            t.desks == s.desks[d := if desk.failures < 2 then desk.(pc := Head, failures := desk.failures + 1)
                                    else desk.(pc := Head, failures := 0, pid := "")]
    ensures t.routes == if s.desks[d].failures == 2 then s.routes - {Upper(s.desks[d].pid)} else s.routes
  {
    t := AfterDesk(s, d, Settle);
    DeskStepLeads(sys, start, s, d, Settle, t);
  }

  lemma RefusedOnce(sys: System, start: State, s: State, d: nat) returns (t: State)
    requires Leads(sys, start, s) && d < |s.desks| && s.desks[d].pc == Head
    requires s.desks[d].pid != "" && s.desks[d].failures < 3
    ensures Leads(sys, start, t) && t.desks == s.desks[d := Refused(s.desks[d])]
    ensures t.routes == if s.desks[d].failures == 2 then s.routes - {Upper(s.desks[d].pid)} else s.routes
  {
    var dialled := Dials(sys, start, s, d);
    var failed := Fails(sys, start, dialled, d);
    t := Settles(sys, start, failed, d);
  }

  /**
   From the top of its loop, a desk refused every time keeps its peripheral until it has failed three
   times in a row, and then has none, and no route.
   */
  lemma {:induction false} ThirdFailureRescans(sys: System, start: State, s: State, d: nat, n: nat) returns (t: State)
    requires Leads(sys, start, s) && d < |s.desks| && s.desks[d].pc == Head && s.desks[d].pid != ""
    requires s.desks[d].failures + n <= 3 && s.desks[d].failures < 3
    ensures Leads(sys, start, t) && |t.desks| == |s.desks| && t.desks[d].pc == Head
    ensures t.desks[d].pid == (if s.desks[d].failures + n == 3 then "" else s.desks[d].pid)
    ensures t.routes == if s.desks[d].failures + n == 3 then s.routes - {Upper(s.desks[d].pid)} else s.routes
    decreases n
  {
    if n == 0 {
      t := s;
    } else {
      var once := RefusedOnce(sys, start, s, d);
      if s.desks[d].failures == 2 {
        t := once;
      } else {
        t := ThirdFailureRescans(sys, start, once, d, n - 1);
      }
    }
  }

  /** A drop ends the session, and the desk is back at the top of its loop with nothing on the count. */
  lemma DropIsNoFailure(sys: System, s: State, d: nat) returns (t: State)
    requires Reachable(sys, s) && d < |s.desks| && s.desks[d].pc == Serving && s.desks[d].poked && s.desks[d].pid != ""
    ensures Reachable(sys, t) && |t.desks| == |s.desks| && t.desks[d].pc == Head
    ensures t.desks[d].pid == s.desks[d].pid && t.desks[d].failures == 0 && t.routes == s.routes
  {
    FailuresBounded(sys, s, d);
    var leaving := AfterDesk(s, d, ServeDropped);
    DeskStepLeads(sys, Init(sys), s, d, ServeDropped, leaving);
    var hangUp := HangUp(Closed, s.desks[d].pid);
    var settling := AfterDesk(leaving, d, hangUp);
    DeskStepLeads(sys, Init(sys), leaving, d, hangUp, settling);
    t := AfterDesk(settling, d, Settle);
    DeskStepLeads(sys, Init(sys), settling, d, Settle, t);
  }

  /** After a session that was served and dropped the count starts afresh: it takes three failures again. */
  lemma ServedSessionStartsAfresh(sys: System, s: State, d: nat, n: nat) returns (t: State)
    requires Reachable(sys, s) && d < |s.desks| && s.desks[d].pc == Serving && s.desks[d].poked && s.desks[d].pid != ""
    requires n <= 3
    ensures Reachable(sys, t) && |t.desks| == |s.desks| && t.desks[d].pc == Head
    ensures t.desks[d].pid == (if n == 3 then "" else s.desks[d].pid)
  {
    var top := DropIsNoFailure(sys, s, d);
    t := ThirdFailureRescans(sys, Init(sys), top, d, n);
  }
}
