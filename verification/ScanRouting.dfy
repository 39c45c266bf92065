/** Which desk a disconnection event reaches, and that the drop of a live connection always reaches its desk. */
module ScanRouting {
  import opened Text
  import opened Matching
  import opened ScanProtocol
  import opened ScanSafety

  /** No peripheral, identified up to letter case, is ever advertised so that two desks match it. */
  ghost predicate Exclusive(sys: System) {
    forall a <- sys.world, b <- sys.world, i: nat, j: nat ::
      Upper(a.pid) == Upper(b.pid) && Matches(sys, i, a) && Matches(sys, j, b) ==> i == j
  }

  predicate Owns(s: State, d: nat, key: string) {
    key in s.routes && s.routes[key] == d
  }

  /** Every desk that holds a peripheral gets that peripheral's disconnection events. */
  ghost predicate RoutingAgrees(s: State) {
    forall d: nat :: d < |s.desks| && s.desks[d].pid != "" ==> Owns(s, d, Upper(s.desks[d].pid))
  }

  /** Holding, as seen from one desk. */
  function HoldingOf(desk: Desk, offered: string): string {
    if desk.pid != "" then desk.pid else if desk.resolved != [] then desk.resolved[0] else offered
  }

  function OfferedBy(pump: Pump, d: nat): string {
    if pump.HandingOver? && pump.i == d then pump.adv.pid else ""
  }

  /** The peripheral desk d has, or is about to receive from the pump; "" if there is none. */
  function Holding(s: State, d: nat): string
    requires d < |s.desks|
  {
    HoldingOf(s.desks[d], OfferedBy(s.pump, d))
  }

  ghost predicate Heard(sys: System, d: nat, pid: string) {
    exists adv <- sys.world :: adv.pid == pid && Matches(sys, d, adv)
  }

  ghost predicate HoldingRouted(sys: System, s: State, d: nat)
    requires d < |s.desks|
  {
    Holding(s, d) != "" ==> Owns(s, d, Upper(Holding(s, d))) && Heard(sys, d, Holding(s, d))
  }

  predicate KeyHeld(s: State, key: string)
    requires key in s.routes
  {
    s.routes[key] < |s.desks| && Holding(s, s.routes[key]) != "" && Upper(Holding(s, s.routes[key])) == key
  }

  /** byPeripheral is exactly the upper-cased holdings: each one is routed, and no key is left over. */
  ghost predicate RoutingInv(sys: System, s: State) {
    && (forall d: nat :: d < |s.desks| ==> HoldingRouted(sys, s, d))
    && (forall key :: key in s.routes ==> KeyHeld(s, key))
  }

  lemma DeskStepKeepsHolding(s: State, d: nat, act: DeskAct, e: nat)
    requires d < |s.desks| && e < |s.desks| && DeskMay(s.desks[d], act) && DeskTokens(s, d)
    ensures Holding(AfterDesk(s, d, act), e)
            == if e == d && act.Settle? && Forgets(s.desks[d]) then "" else Holding(s, e)
  {
    var t := AfterDesk(s, d, act);
    DeskStepTouches(s, d, act);
    assert e != d ==> t.desks[e] == s.desks[e];
  }

  /** The key a desk step takes off the routes, if any, is that of the peripheral the desk forgets. */
  predicate ForgetsIn(s: State, d: nat, act: DeskAct)
    requires d < |s.desks|
  {
    act.Settle? && Forgets(s.desks[d])
  }

  lemma HoldingStaysRouted(sys: System, s: State, d: nat, act: DeskAct, e: nat)
    requires d < |s.desks| && e < |s.desks| && DeskMay(s.desks[d], act) && DeskTokens(s, d)
    requires HoldingRouted(sys, s, d) && HoldingRouted(sys, s, e)
    ensures HoldingRouted(sys, AfterDesk(s, d, act), e)
  {
    DeskStepKeepsHolding(s, d, act, e);
    if ForgetsIn(s, d, act) { ForgetterHolds(s, d, act); }
  }

  lemma ForgetterHolds(s: State, d: nat, act: DeskAct)
    requires d < |s.desks| && DeskTokens(s, d) && ForgetsIn(s, d, act)
    ensures Holding(s, d) == s.desks[d].pid
  {
  }

  lemma KeyStaysHeld(s: State, d: nat, act: DeskAct, key: string)
    requires d < |s.desks| && DeskMay(s.desks[d], act) && DeskTokens(s, d)
    requires key in AfterDesk(s, d, act).routes && KeyHeld(s, key)
    ensures KeyHeld(AfterDesk(s, d, act), key)
  {
    DeskStepKeepsHolding(s, d, act, s.routes[key]);
    if ForgetsIn(s, d, act) { ForgetterHolds(s, d, act); }
  }

  lemma RoutingDeskStep(sys: System, s: State, d: nat, act: DeskAct)
    requires HandoffInv(sys, s) && RoutingInv(sys, s)
    requires d < |s.desks| && DeskMay(s.desks[d], act)
    ensures RoutingInv(sys, AfterDesk(s, d, act))
  {
    assert DeskTokens(s, d) && HoldingRouted(sys, s, d);
    forall e: nat | e < |s.desks|
      ensures HoldingRouted(sys, AfterDesk(s, d, act), e)
    {
      assert HoldingRouted(sys, s, e);
      HoldingStaysRouted(sys, s, d, act, e);
    }
    forall key | key in AfterDesk(s, d, act).routes
      ensures KeyHeld(AfterDesk(s, d, act), key)
    {
      assert KeyHeld(s, key);
      KeyStaysHeld(s, d, act, key);
    }
  }

  /** No other desk holds the key of the peripheral the pump has claimed. */
  ghost predicate KeyFree(s: State, i: nat, key: string) {
    forall e: nat :: e < |s.desks| && e != i && Holding(s, e) != "" ==> Upper(Holding(s, e)) != key
  }

  lemma ClaimedKeyIsFree(sys: System, s: State)
    requires RoutingInv(sys, s) && Exclusive(sys) && s.pump.Routing?
    requires Heard(sys, s.pump.i, s.pump.adv.pid)
    ensures KeyFree(s, s.pump.i, Upper(s.pump.adv.pid))
  {
    forall e: nat | e < |s.desks| && e != s.pump.i && Holding(s, e) != ""
      ensures Upper(Holding(s, e)) != Upper(s.pump.adv.pid)
    {
      assert HoldingRouted(sys, s, e);
    }
  }

  /** Storing a route for a claimed peripheral takes it from no other desk. */
  lemma RouteStep(sys: System, s: State)
    requires RoutingInv(sys, s) && s.pump.Routing? && s.pump.i < |s.desks|
    requires DeskTokens(s, s.pump.i) && Heard(sys, s.pump.i, s.pump.adv.pid)
    requires KeyFree(s, s.pump.i, Upper(s.pump.adv.pid))
    ensures RoutingInv(sys, AfterPump(sys, s, Route))
  {
    var t := AfterPump(sys, s, Route);
    var pid, i := s.pump.adv.pid, s.pump.i;
    assert Holding(s, i) == "" && Holding(t, i) == pid;
    forall e: nat | e < |t.desks|
      ensures HoldingRouted(sys, t, e)
    {
      assert HoldingRouted(sys, s, e);
      if e != i { assert Holding(t, e) == Holding(s, e); }
    }
    forall key | key in t.routes
      ensures KeyHeld(t, key)
    {
      if key != Upper(pid) {
        assert KeyHeld(s, key);
        assert Holding(t, s.routes[key]) == Holding(s, s.routes[key]);
      }
    }
  }

  lemma DeliverKeepsHolding(sys: System, s: State, e: nat)
    requires PumpMay(sys, s, Deliver) && e < |s.desks| && DeskTokens(s, e)
    ensures Holding(AfterPump(sys, s, Deliver), e) == Holding(s, e)
  {
  }

  lemma OtherPumpStepKeepsHolding(sys: System, s: State, act: PumpAct, e: nat)
    requires PumpMay(sys, s, act) && !act.Route? && !act.Deliver? && e < |s.desks|
    ensures e < |AfterPump(sys, s, act).desks| && Holding(AfterPump(sys, s, act), e) == Holding(s, e)
  {
    PumpStepTouches(sys, s, act);
    assert OfferedBy(AfterPump(sys, s, act).pump, e) == OfferedBy(s.pump, e);
  }

  lemma RoutingPumpStep(sys: System, s: State, act: PumpAct)
    requires HandoffInv(sys, s) && RoutingInv(sys, s) && Exclusive(sys) && PumpMay(sys, s, act)
    ensures RoutingInv(sys, AfterPump(sys, s, act))
  {
    if act.Route? {
      assert Heard(sys, s.pump.i, s.pump.adv.pid);
      assert DeskTokens(s, s.pump.i);
      ClaimedKeyIsFree(sys, s);
      RouteStep(sys, s);
    } else {
      var t := AfterPump(sys, s, act);
      forall e: nat | e < |s.desks|
        ensures |t.desks| == |s.desks| && t.routes == s.routes && Holding(t, e) == Holding(s, e)
      {
        assert DeskTokens(s, e);
        PumpStepTouches(sys, s, act);
        if act.Deliver? { DeliverKeepsHolding(sys, s, e); } else { OtherPumpStepKeepsHolding(sys, s, act, e); }
      }
      SameHoldingsSameRouting(sys, s, t);
    }
  }

  lemma SameHoldingsSameRouting(sys: System, s: State, t: State)
    requires RoutingInv(sys, s) && |t.desks| == |s.desks| && t.routes == s.routes
    requires forall e: nat :: e < |s.desks| ==> Holding(t, e) == Holding(s, e)
    ensures RoutingInv(sys, t)
  {
    forall e: nat | e < |t.desks|
      ensures HoldingRouted(sys, t, e)
    {
      assert HoldingRouted(sys, s, e);
    }
    forall key | key in t.routes
      ensures KeyHeld(t, key)
    {
      assert KeyHeld(s, key);
    }
  }

  lemma RoutingStep(sys: System, s: State, step: Step)
    requires HandoffInv(sys, s) && RoutingInv(sys, s) && Exclusive(sys) && Enabled(sys, s, step)
    ensures RoutingInv(sys, Apply(sys, s, step))
  {
    match step
    case DeskDoes(d, act) => RoutingDeskStep(sys, s, d, act);
    case PumpDoes(act) => RoutingPumpStep(sys, s, act);
    case _ =>
      ElsewhereTouches(sys, s, step);
      SameHoldingsSameRouting(sys, s, Apply(sys, s, step));
  }

  lemma RoutingNext(sys: System, s: State, t: State)
    requires HandoffInv(sys, s) && RoutingInv(sys, s) && Exclusive(sys) && Next(sys, s, t)
    ensures RoutingInv(sys, t)
  {
    var step :| Enabled(sys, s, step) && t == Apply(sys, s, step);
    RoutingStep(sys, s, step);
  }

  lemma RoutingReachable(sys: System, s: State)
    requires Exclusive(sys) && Reachable(sys, s)
    ensures RoutingInv(sys, s)
  {
    var P := s => RoutingInv(sys, s);
    forall s, t | Reachable(sys, s) && P(s) && Next(sys, s, t)
      ensures P(t)
    {
      HandoffReachable(sys, s);
      RoutingNext(sys, s, t);
    }
    Invariant(sys, P, s);
  }

  /**
   With exclusive matching, every desk holding or about to receive an identifier owns its route,
   and every route belongs to a desk holding that identifier: so a desk owns at most one key.
   */
  lemma RoutesAreHoldings(sys: System, s: State)
    requires Exclusive(sys) && Reachable(sys, s)
    ensures forall d: nat :: d < |s.desks| && Holding(s, d) != "" ==> Owns(s, d, Upper(Holding(s, d)))
    ensures forall key :: key in s.routes ==> s.routes[key] < |s.desks| && Upper(Holding(s, s.routes[key])) == key
    ensures RoutingAgrees(s)
  {
    RoutingReachable(sys, s);
    forall d: nat | d < |s.desks| && Holding(s, d) != ""
      ensures Owns(s, d, Upper(Holding(s, d)))
    {
      assert HoldingRouted(sys, s, d);
    }
    assert forall d: nat :: d < |s.desks| && s.desks[d].pid != "" ==> Holding(s, d) == s.desks[d].pid;
    forall key | key in s.routes
      ensures s.routes[key] < |s.desks| && Upper(Holding(s, s.routes[key])) == key
    {
      assert KeyHeld(s, key);
    }
  }

  // onDiscovery run without interference, and the run that breaks routing when matching overlaps

  predicate Takes(sys: System, s: State, d: nat, adv: Advert) {
    d < |s.desks| && s.desks[d].want && Matches(sys, d, adv)
  }

  /** One advert handled by onDiscovery while nobody else moves: the first desk that wants it gets it. */
  ghost function Discovered(sys: System, s: State, adv: Advert, d: nat): State
    requires Takes(sys, s, d, adv)
  {
    s.(desks := s.desks[d := Offered(s.desks[d].(want := false), adv.pid)],
       routes := s.routes[Upper(adv.pid) := d], scanWake := true)
  }

  lemma {:induction false} ScanUpTo(sys: System, start: State, s: State, adv: Advert, i: nat, d: nat)
    requires Leads(sys, start, s) && s.pump == Scanning(adv, i) && i <= d && Takes(sys, s, d, adv)
    requires forall e: nat :: e < d ==> !Takes(sys, s, e, adv)
    ensures Leads(sys, start, s.(pump := Claiming(adv, d)))
    decreases d - i
  {
    StepLeads(sys, start, s, PumpDoes(Load));
    if i < d {
      var t := s.(pump := Scanning(adv, i + 1));
      assert !Takes(sys, s, i, adv);
      assert Apply(sys, s, PumpDoes(Load)) == t;
      assert forall e: nat :: Takes(sys, t, e, adv) <==> Takes(sys, s, e, adv);
      ScanUpTo(sys, start, t, adv, i + 1, d);
    }
  }

  /** From the claim on, onDiscovery goes through without anybody else moving. */
  lemma ClaimGoesThrough(sys: System, start: State, s: State, adv: Advert, d: nat)
    requires Leads(sys, start, s.(pump := Claiming(adv, d))) && Takes(sys, s, d, adv)
    ensures Leads(sys, start, Discovered(sys, s, adv, d).(pump := Idle))
  {
    var s1 := s.(pump := Claiming(adv, d));
    var s2 := s.(pump := Routing(adv, d), desks := s.desks[d := s.desks[d].(want := false)]);
    var s3 := s2.(pump := HandingOver(adv, d), routes := s.routes[Upper(adv.pid) := d]);
    StepLeads(sys, start, s1, PumpDoes(Claim));
    StepLeads(sys, start, s2, PumpDoes(Route));
    HandOverGoesThrough(sys, start, s3);
    assert s3.desks[d := Offered(s3.desks[d], adv.pid)] == s.desks[d := Offered(s.desks[d].(want := false), adv.pid)];
  }

  lemma HandOverGoesThrough(sys: System, start: State, s: State)
    requires Leads(sys, start, s) && s.pump.HandingOver? && s.pump.i < |s.desks|
    ensures var d := s.pump.i;
            var desks := s.desks[d := Offered(s.desks[d], s.pump.adv.pid)];
            Leads(sys, start, s.(pump := Idle, desks := desks, scanWake := true))
  {
    StepLeads(sys, start, s, PumpDoes(Deliver));
    StepLeads(sys, start, AfterPump(sys, s, Deliver), PumpDoes(CallWakeAfterFind));
  }

  /** The uninterrupted call is one of the interleavings. */
  lemma DiscoveryIsARun(sys: System, start: State, s: State, adv: Advert, d: nat)
    requires Leads(sys, start, s) && s.pump == Idle && Hears(sys, s, adv) && Takes(sys, s, d, adv)
    requires forall e: nat :: e < d ==> !Takes(sys, s, e, adv)
    ensures Leads(sys, start, Discovered(sys, s, adv, d))
  {
    var s0 := s.(pump := Scanning(adv, 0));
    StepLeads(sys, start, s, PumpDoes(Discover(adv)));
    assert forall e: nat :: Takes(sys, s0, e, adv) <==> Takes(sys, s, e, adv);
    ScanUpTo(sys, start, s0, adv, 0, d);
    assert s0.(pump := Claiming(adv, d)) == s.(pump := Claiming(adv, d));
    ClaimGoesThrough(sys, start, s, adv, d);
    assert Discovered(sys, s, adv, d).(pump := Idle) == Discovered(sys, s, adv, d);
  }

  /** Only desk d has started asking; the rest have not moved since Init, or hold a peripheral. */
  ghost predicate OthersQuiet(s: State, d: nat) {
    forall e: nat :: e < |s.desks| && e != d ==> !s.desks[e].want
  }

  /** A desk that has not started can ask for a scan and wait. */
  lemma CanAsk(sys: System, s: State, d: nat)
    requires Reachable(sys, s) && d < |s.desks| && s.desks[d] == NEW_DESK
    ensures Reachable(sys, s.(desks := s.desks[d := NEW_DESK.(pc := Waiting, want := true)], scanWake := true))
  {
    var asked := NEW_DESK.(pc := Asked, want := true);
    var s1 := s.(desks := s.desks[d := asked]);
    var s2 := s.(desks := s.desks[d := asked.(pc := Waiting)], scanWake := true);
    StepReaches(sys, s, DeskDoes(d, AskForScan));
    assert Apply(sys, s, DeskDoes(d, AskForScan)) == s1;
    StepReaches(sys, s1, DeskDoes(d, CallWake));
    assert Apply(sys, s1, DeskDoes(d, CallWake)) == s2;
  }

  /** From a quiet state a desk that has not started can be run until it holds any peripheral it matches. */
  lemma DeskCanTake(sys: System, s: State, d: nat, adv: Advert) returns (t: State)
    requires Reachable(sys, s) && s.pump == Idle && OthersQuiet(s, d)
    requires d < |s.desks| && s.desks[d] == NEW_DESK
    requires adv in sys.world && Matches(sys, d, adv)
    ensures Reachable(sys, t) && t.pump == Idle && t.routes == s.routes[Upper(adv.pid) := d] && t.drops == s.drops
    ensures t.desks == s.desks[d := NEW_DESK.(pc := Draining, pid := adv.pid)]
  {
    CanAsk(sys, s, d);
    var s1 := s.(desks := s.desks[d := NEW_DESK.(pc := Waiting, want := true)], scanWake := true);
    assert Wants(s1, d);
    var s2 := ControllerCatchesUp(sys, Init(sys), s1);
    assert Wants(s2, d);
    DiscoveryIsARun(sys, Init(sys), s2, adv, d);
    var s3 := Discovered(sys, s2, adv, d);
    assert s3.desks[d] == NEW_DESK.(pc := Waiting, resolved := [adv.pid]);
    StepReaches(sys, s3, DeskDoes(d, TakeResolved));
    t := Apply(sys, s3, DeskDoes(d, TakeResolved));
    assert t.desks[d] == NEW_DESK.(pc := Draining, pid := adv.pid);
  }

  /** Two desks matching one peripheral: the first can end up holding it while the second gets its events. */
  lemma OverlapBreaksRouting(sys: System, a: Advert, b: Advert, i: nat, j: nat) returns (s: State)
    requires a in sys.world && b in sys.world && Upper(a.pid) == Upper(b.pid)
    requires i != j && Matches(sys, i, a) && Matches(sys, j, b)
    ensures Reachable(sys, s) && i < |s.desks| && s.desks[i].pid == a.pid && Owns(s, j, Upper(a.pid)) && !RoutingAgrees(s)
  {
    var s0 := Init(sys);
    InitReaches(sys);
    var s1 := DeskCanTake(sys, s0, i, a);
    s := DeskCanTake(sys, s1, j, b);
    assert !Owns(s, i, Upper(a.pid));
  }

  /** Routing agrees in every run exactly when matching is exclusive. */
  lemma RoutingAgreesIffExclusive(sys: System)
    ensures (forall s :: Reachable(sys, s) ==> RoutingAgrees(s)) <==> Exclusive(sys)
  {
    if Exclusive(sys) {
      forall s | Reachable(sys, s)
        ensures RoutingAgrees(s)
      {
        RoutesAreHoldings(sys, s);
      }
    } else {
      var a, b, i: nat, j: nat :| a in sys.world && b in sys.world && Upper(a.pid) == Upper(b.pid)
        && Matches(sys, i, a) && Matches(sys, j, b) && i != j;
      var s := OverlapBreaksRouting(sys, a, b, i, j);
    }
  }

  /** Desks pinned by identifiers that differ beyond letter case are exclusive, whatever is advertised. */
  lemma PinnedDesksAreExclusive(desks: seq<DeskConfig>, world: iset<Advert>, late: bool)
    requires forall i: nat :: i < |desks| ==> TrimSpace(desks[i].peripheralID) != ""
    requires forall i: nat, j: nat :: i < j < |desks| ==>
               !EqualFold(TrimSpace(desks[i].peripheralID), TrimSpace(desks[j].peripheralID))
    ensures Exclusive(Configured(desks, world, late))
  {
    var sys := Configured(desks, world, late);
    forall a <- sys.world, b <- sys.world, i: nat, j: nat |
      Upper(a.pid) == Upper(b.pid) && Matches(sys, i, a) && Matches(sys, j, b)
      ensures i == j
    {
      assert EqualFold(TrimSpace(desks[i].peripheralID), TrimSpace(desks[j].peripheralID));
    }
  }
}
