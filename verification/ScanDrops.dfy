/** A dropped connection always reaches its own session, exactly if no peripheral matches two desks. */
module ScanDrops {
  import opened Text
  import opened Matching
  import opened ScanProtocol
  import opened ScanSafety
  import opened ScanRouting

  /** The link of the desk's current session has come up and its deferred Disconnect has not run. */
  predicate Live(desk: Desk) {
    desk.pc == Connecting(true) || desk.pc == SettingUp || desk.pc == Serving || desk.pc.Leaving?
  }

  /** The session is still to find out that its link is gone. */
  predicate Unaware(desk: Desk) {
    Live(desk) && !desk.pc.Leaving?
  }

  predicate KnowsPeripheral(pc: DeskPc) {
    !pc.Head? && !InResolve(pc)
  }

  /** The desk's session number, 0 when it has none. */
  function Session(desk: Desk): nat {
    if Live(desk) then desk.conn else 0
  }

  predicate Numbered(desk: Desk, epoch: nat) {
    && desk.conn <= epoch
    && (Live(desk) ==> desk.conn > 0)
    && (desk.link ==> Live(desk))
    && (KnowsPeripheral(desk.pc) ==> desk.pid != "")
  }

  predicate InFlight(s: State, e: DropEvent) {
    e in s.drops || s.pump == LookingUp(e)
  }

  /** Sessions are numbered apart, and no event is about a connection not yet made. */
  ghost predicate NumberingInv(s: State) {
    && (forall d: nat :: d < |s.desks| ==> Numbered(s.desks[d], s.epoch))
    && (forall d: nat, e: nat ::
          d < e < |s.desks| && Session(s.desks[d]) == Session(s.desks[e]) ==> Session(s.desks[d]) == 0)
    && (forall e :: InFlight(s, e) ==> e.stamp <= s.epoch)
    && (s.pump.Poking? ==> s.pump.stamp <= s.epoch)
    && (forall e <- s.loose :: Stray(s, e))
  }

  /** About a connection that was made, and is no session's. */
  ghost predicate Stray(s: State, e: DropEvent) {
    e.stamp <= s.epoch && forall d: nat :: d < |s.desks| ==> !Concerns(e.stamp, s.desks[d])
  }

  predicate Concerns(stamp: nat, desk: Desk) {
    stamp != 0 && stamp == Session(desk)
  }

  /** An event about a desk's session names its peripheral, and a poke about it goes to that desk. */
  ghost predicate EventInv(s: State) {
    && (forall d: nat, e :: d < |s.desks| && InFlight(s, e) && Concerns(e.stamp, s.desks[d]) ==>
          Upper(e.pid) == Upper(s.desks[d].pid))
    && (forall d: nat :: d < |s.desks| && s.pump.Poking? && Concerns(s.pump.stamp, s.desks[d]) ==> s.pump.i == d)
  }

  /** The drop of desk d's current connection is on its way, or has arrived. */
  ghost predicate Reported(s: State, d: nat)
    requires d < |s.desks|
  {
    || s.desks[d].poked
    || (s.pump.Poking? && s.pump.i == d && Concerns(s.pump.stamp, s.desks[d]))
    || (exists e :: InFlight(s, e) && Concerns(e.stamp, s.desks[d]))
  }

  ghost predicate DropNotMissed(s: State, d: nat)
    requires d < |s.desks|
  {
    Unaware(s.desks[d]) && !s.desks[d].link ==> Reported(s, d)
  }

  ghost predicate DropInv(s: State) {
    NumberingInv(s) && EventInv(s) && forall d: nat :: d < |s.desks| ==> DropNotMissed(s, d)
  }

  // Desk steps

  /** A desk step keeps the session, ends it, or starts the next one; only LoseLink drops a link unnoticed. */
  lemma DeskStepSession(desk: Desk, act: DeskAct, epoch: nat)
    requires DeskMay(desk, act) && Numbered(desk, epoch)
    ensures var after := DeskAfter(desk, act, epoch);
            && Numbered(after, if act.LinkUp? then epoch + 1 else epoch)
            && (act.LinkUp? ==> Session(after) == epoch + 1 && after.link)
            && (!act.LinkUp? && Session(after) != 0 ==>
                  && Session(after) == Session(desk)
                  && after.pid == desk.pid
                  && (Unaware(after) ==> Unaware(desk) && after.poked == desk.poked)
                  && (Unaware(after) && !act.LoseLink? ==> after.link == desk.link))
  {
  }

  /** The steps that bring a link down, or leave it up for good. */
  predicate EndsLink(desk: Desk, act: DeskAct) {
    act.LoseLink? || act.HangUp? || (act.ConnectFailed? && desk.link)
  }

  /** A desk step leaves at most one link loose, and then its session is over. */
  lemma DeskStepLoose(s: State, d: nat, act: DeskAct, e: DropEvent)
    requires d < |s.desks| && DeskMay(s.desks[d], act) && Numbered(s.desks[d], s.epoch)
    requires e in AfterDesk(s, d, act).loose && e !in s.loose
    ensures Session(s.desks[d]) == e.stamp == s.desks[d].conn && EqualFold(e.pid, s.desks[d].pid)
    ensures Session(DeskAfter(s.desks[d], act, s.epoch)) == 0 && !act.LinkUp?
  {
  }

  lemma StrayDeskStep(s: State, d: nat, act: DeskAct, e: DropEvent)
    requires NumberingInv(s) && d < |s.desks| && DeskMay(s.desks[d], act) && e in AfterDesk(s, d, act).loose
    ensures Stray(AfterDesk(s, d, act), e)
  {
    var t := AfterDesk(s, d, act);
    assert Numbered(s.desks[d], s.epoch);
    DeskStepSession(s.desks[d], act, s.epoch);
    DeskStepTouches(s, d, act);
    if e !in s.loose { DeskStepLoose(s, d, act, e); }
    forall k: nat | k < |t.desks|
      ensures !Concerns(e.stamp, t.desks[k])
    {
      assert Numbered(s.desks[k], s.epoch);
    }
  }

  /** A desk step adds at most one event, about its own connection. */
  lemma DeskStepEvents(s: State, d: nat, act: DeskAct, e: DropEvent)
    requires d < |s.desks| && DeskMay(s.desks[d], act)
    ensures InFlight(s, e) ==> InFlight(AfterDesk(s, d, act), e)
    ensures InFlight(AfterDesk(s, d, act), e) ==>
              || InFlight(s, e)
              || (e.stamp == s.desks[d].conn && EqualFold(e.pid, s.desks[d].pid) && EndsLink(s.desks[d], act))
    ensures act.LoseLink? ==> InFlight(AfterDesk(s, d, act), DropEvent(act.spelling, s.desks[d].conn))
  {
  }

  lemma NumberingDeskStep(s: State, d: nat, act: DeskAct)
    requires NumberingInv(s) && d < |s.desks| && DeskMay(s.desks[d], act)
    ensures NumberingInv(AfterDesk(s, d, act))
  {
    var t := AfterDesk(s, d, act);
    assert Numbered(s.desks[d], s.epoch);
    DeskStepSession(s.desks[d], act, s.epoch);
    DeskStepTouches(s, d, act);
    assert t.epoch == if act.LinkUp? then s.epoch + 1 else s.epoch;
    forall k: nat | k < |t.desks|
      ensures Numbered(t.desks[k], t.epoch)
    {
      assert Numbered(s.desks[k], s.epoch);
    }
    forall e | InFlight(t, e)
      ensures e.stamp <= t.epoch
    {
      DeskStepEvents(s, d, act, e);
    }
    forall e | e in t.loose
      ensures Stray(t, e)
    {
      StrayDeskStep(s, d, act, e);
    }
  }

  lemma EventDeskStep(s: State, d: nat, act: DeskAct)
    requires NumberingInv(s) && EventInv(s) && d < |s.desks| && DeskMay(s.desks[d], act)
    ensures EventInv(AfterDesk(s, d, act))
  {
    var t := AfterDesk(s, d, act);
    assert Numbered(s.desks[d], s.epoch);
    DeskStepSession(s.desks[d], act, s.epoch);
    DeskStepTouches(s, d, act);
    forall k: nat, e | k < |t.desks| && InFlight(t, e) && Concerns(e.stamp, t.desks[k])
      ensures Upper(e.pid) == Upper(t.desks[k].pid)
    {
      DeskStepEvents(s, d, act, e);
      assert Numbered(s.desks[k], s.epoch);
      assert Concerns(e.stamp, s.desks[k]);
      assert Session(s.desks[k]) == e.stamp;
    }
  }

  lemma DropDeskStep(s: State, d: nat, act: DeskAct, k: nat)
    requires NumberingInv(s) && d < |s.desks| && DeskMay(s.desks[d], act) && k < |s.desks| && DropNotMissed(s, k)
    ensures DropNotMissed(AfterDesk(s, d, act), k)
  {
    var t := AfterDesk(s, d, act);
    assert Numbered(s.desks[d], s.epoch);
    DeskStepSession(s.desks[d], act, s.epoch);
    DeskStepTouches(s, d, act);
    if Unaware(t.desks[k]) && !t.desks[k].link {
      if k == d && act.LoseLink? {
        DeskStepEvents(s, d, act, DropEvent(act.spelling, s.desks[d].conn));
      } else {
        assert Reported(s, k);
        if e :| InFlight(s, e) && Concerns(e.stamp, s.desks[k]) {
          DeskStepEvents(s, d, act, e);
          assert Concerns(e.stamp, t.desks[k]);
        }
      }
    }
  }

  // Pump steps

  /** A pump step touches no session: it can only set poked, or hand an event on. */
  lemma PumpStepSession(sys: System, s: State, act: PumpAct, k: nat)
    requires PumpMay(sys, s, act) && k < |s.desks|
    ensures var t := AfterPump(sys, s, act);
            && |t.desks| == |s.desks| && t.epoch == s.epoch
            && t.desks[k].pc == s.desks[k].pc && t.desks[k].link == s.desks[k].link
            && t.desks[k].conn == s.desks[k].conn && t.desks[k].pid == s.desks[k].pid
            && (s.desks[k].poked ==> t.desks[k].poked)
  {
    PumpStepTouches(sys, s, act);
  }

  lemma PumpStepEvents(sys: System, s: State, act: PumpAct, e: DropEvent)
    requires PumpMay(sys, s, act)
    ensures InFlight(AfterPump(sys, s, act), e) ==> InFlight(s, e)
    ensures InFlight(s, e) ==> InFlight(AfterPump(sys, s, act), e) || (act == LookUp && s.pump == LookingUp(e))
  {
  }

  /** Looking up an event about a session finds the desk whose session it is. */
  lemma LookUpFindsSession(sys: System, s: State, d: nat)
    requires EventInv(s) && RoutingInv(sys, s) && d < |s.desks| && Numbered(s.desks[d], s.epoch)
    requires s.pump.LookingUp? && Concerns(s.pump.e.stamp, s.desks[d])
    ensures AfterPump(sys, s, LookUp).pump == Poking(d, s.pump.e.stamp)
  {
    assert InFlight(s, s.pump.e);
    assert Upper(s.pump.e.pid) == Upper(s.desks[d].pid);
    assert Holding(s, d) == s.desks[d].pid != "";
    assert HoldingRouted(sys, s, d);
  }

  lemma NumberingPumpStep(sys: System, s: State, act: PumpAct)
    requires NumberingInv(s) && PumpMay(sys, s, act)
    ensures NumberingInv(AfterPump(sys, s, act))
  {
    var t := AfterPump(sys, s, act);
    forall k: nat | k < |s.desks|
      ensures Session(t.desks[k]) == Session(s.desks[k]) && Numbered(t.desks[k], t.epoch)
    {
      PumpStepSession(sys, s, act, k);
      assert Numbered(s.desks[k], s.epoch);
    }
    forall e | InFlight(t, e)
      ensures InFlight(s, e)
    {
      PumpStepEvents(sys, s, act, e);
    }
    PumpStepStamps(sys, s, act);
    forall e | e in t.loose
      ensures Stray(t, e)
    {
      StrayPumpStep(sys, s, act, e);
    }
  }

  lemma StrayPumpStep(sys: System, s: State, act: PumpAct, e: DropEvent)
    requires NumberingInv(s) && PumpMay(sys, s, act) && e in AfterPump(sys, s, act).loose
    ensures Stray(AfterPump(sys, s, act), e)
  {
    PumpLeavesLoose(sys, s, act);
    PumpStepStamps(sys, s, act);
    assert Stray(s, e);
    forall d: nat | d < |s.desks|
      ensures !Concerns(e.stamp, AfterPump(sys, s, act).desks[d])
    {
      PumpStepSession(sys, s, act, d);
    }
  }

  lemma PumpLeavesLoose(sys: System, s: State, act: PumpAct)
    requires PumpMay(sys, s, act)
    ensures AfterPump(sys, s, act).loose == s.loose
  {
  }


  /** The pump keeps the number of desks, and pokes only about events it has taken. */
  lemma PumpStepStamps(sys: System, s: State, act: PumpAct)
    requires NumberingInv(s) && PumpMay(sys, s, act)
    ensures var t := AfterPump(sys, s, act);
            |t.desks| == |s.desks| && t.epoch == s.epoch && (t.pump.Poking? ==> t.pump.stamp <= t.epoch)
  {
    PumpStepTouches(sys, s, act);
    if act.LookUp? { assert InFlight(s, s.pump.e); }
  }

  lemma PokesAfterLookUp(sys: System, s: State, act: PumpAct)
    requires PumpMay(sys, s, act) && AfterPump(sys, s, act).pump.Poking?
    ensures act.LookUp?
  {
  }

  /** Only a look-up makes the pump poke, and then it finds the session. */
  lemma PokesConcern(sys: System, s: State, act: PumpAct, d: nat)
    requires NumberingInv(s) && EventInv(s) && RoutingInv(sys, s) && PumpMay(sys, s, act) && d < |s.desks|
    requires AfterPump(sys, s, act).pump.Poking? && Concerns(AfterPump(sys, s, act).pump.stamp, s.desks[d])
    ensures AfterPump(sys, s, act).pump.i == d
  {
    PokesAfterLookUp(sys, s, act);
    LookUpPokesSession(sys, s, d);
  }

  lemma LookUpPokesSession(sys: System, s: State, d: nat)
    requires NumberingInv(s) && EventInv(s) && RoutingInv(sys, s) && s.pump.LookingUp? && d < |s.desks|
    requires AfterPump(sys, s, LookUp).pump.Poking? && Concerns(AfterPump(sys, s, LookUp).pump.stamp, s.desks[d])
    ensures AfterPump(sys, s, LookUp).pump.i == d
  {
    assert Numbered(s.desks[d], s.epoch);
    LookUpFindsSession(sys, s, d);
  }

  lemma EventPumpStep(sys: System, s: State, act: PumpAct)
    requires NumberingInv(s) && EventInv(s) && RoutingInv(sys, s) && PumpMay(sys, s, act)
    ensures NumberingInv(AfterPump(sys, s, act)) && EventInv(AfterPump(sys, s, act))
  {
    var t := AfterPump(sys, s, act);
    NumberingPumpStep(sys, s, act);
    PumpStepStamps(sys, s, act);
    forall d: nat, e | d < |t.desks| && InFlight(t, e) && Concerns(e.stamp, t.desks[d])
      ensures Upper(e.pid) == Upper(t.desks[d].pid)
    {
      PumpStepSession(sys, s, act, d);
      PumpStepEvents(sys, s, act, e);
      assert Concerns(e.stamp, s.desks[d]);
    }
    forall d: nat | d < |t.desks| && t.pump.Poking? && Concerns(t.pump.stamp, t.desks[d])
      ensures t.pump.i == d
    {
      PumpStepSession(sys, s, act, d);
      PokesConcern(sys, s, act, d);
    }
  }

  lemma DropPumpStep(sys: System, s: State, act: PumpAct, k: nat)
    requires NumberingInv(s) && EventInv(s) && RoutingInv(sys, s) && PumpMay(sys, s, act)
    requires k < |s.desks| && DropNotMissed(s, k)
    ensures k < |AfterPump(sys, s, act).desks| && DropNotMissed(AfterPump(sys, s, act), k)
  {
    var t := AfterPump(sys, s, act);
    PumpStepSession(sys, s, act, k);
    if Unaware(t.desks[k]) && !t.desks[k].link && !s.desks[k].poked {
      assert Numbered(s.desks[k], s.epoch);
      if e :| InFlight(s, e) && Concerns(e.stamp, s.desks[k]) {
        PumpStepEvents(sys, s, act, e);
        assert Concerns(e.stamp, t.desks[k]);
        if act == LookUp && s.pump == LookingUp(e) {
          LookUpFindsSession(sys, s, k);
        }
      } else {
        assert act.Poke? && s.pump.i == k;
      }
    }
  }

  // Runs

  /** A step that touches no desk, and queues at most an event that concerns no session. */
  lemma DropForeignStep(s: State, t: State, foreign: multiset<DropEvent>)
    requires DropInv(s) && t.desks == s.desks && t.epoch == s.epoch && t.pump == s.pump
    requires QueuesOnly(s, t, foreign) && forall e <- foreign :: e.stamp == 0
    ensures DropInv(t)
  {
    forall e <- t.loose
      ensures Stray(t, e)
    {
      assert Stray(s, e);
    }
    forall k: nat | k < |t.desks|
      ensures DropNotMissed(t, k)
    {
      assert DropNotMissed(s, k);
      if e :| InFlight(s, e) && Concerns(e.stamp, s.desks[k]) { assert InFlight(t, e); }
    }
  }

  lemma DropAllPump(sys: System, s: State, act: PumpAct)
    requires DropInv(s) && RoutingInv(sys, s) && PumpMay(sys, s, act)
    ensures DropInv(AfterPump(sys, s, act))
  {
    EventPumpStep(sys, s, act);
    PumpStepTouches(sys, s, act);
    forall k: nat | k < |s.desks|
      ensures DropNotMissed(AfterPump(sys, s, act), k)
    {
      DropPumpStep(sys, s, act, k);
    }
  }

  lemma DropAllDesk(s: State, d: nat, act: DeskAct)
    requires DropInv(s) && d < |s.desks| && DeskMay(s.desks[d], act)
    ensures DropInv(AfterDesk(s, d, act))
  {
    NumberingDeskStep(s, d, act);
    EventDeskStep(s, d, act);
    forall k: nat | k < |s.desks|
      ensures DropNotMissed(AfterDesk(s, d, act), k)
    {
      DropDeskStep(s, d, act, k);
    }
  }

  lemma DropStep(sys: System, s: State, step: Step)
    requires DropInv(s) && RoutingInv(sys, s) && Enabled(sys, s, step)
    ensures DropInv(Apply(sys, s, step))
  {
    match step
    case DeskDoes(d, act) => DropAllDesk(s, d, act);
    case PumpDoes(act) => DropAllPump(sys, s, act);
    case _ =>
      ElsewhereTouches(sys, s, step);
      ElsewhereQueues(sys, s, step);
      DropForeignStep(s, Apply(sys, s, step), Foreign(step));
  }

  lemma DropInit(sys: System)
    ensures DropInv(Init(sys))
  {
  }

  lemma DropNext(sys: System, s: State, t: State)
    requires DropInv(s) && RoutingInv(sys, s) && Next(sys, s, t)
    ensures DropInv(t)
  {
    var step :| Enabled(sys, s, step) && t == Apply(sys, s, step);
    DropStep(sys, s, step);
  }

  lemma DropReachable(sys: System, s: State)
    requires Exclusive(sys) && Reachable(sys, s)
    ensures DropInv(s)
  {
    var P := s => DropInv(s);
    forall s, t | Reachable(sys, s) && P(s) && Next(sys, s, t)
      ensures P(t)
    {
      RoutingReachable(sys, s);
      DropNext(sys, s, t);
    }
    DropInit(sys);
    Invariant(sys, P, s);
  }

  /** The link of the desk's connection is gone, nothing about it is on its way, and the session has not been told. */
  ghost predicate Missed(s: State, d: nat) {
    && d < |s.desks| && Unaware(s.desks[d]) && !s.desks[d].link && !s.desks[d].poked
    && (forall e :: InFlight(s, e) ==> e.stamp != s.desks[d].conn)
    && (s.pump.Poking? ==> s.pump.stamp != s.desks[d].conn)
  }

  /**
   No missed drop. When the link of a desk's current connection is gone and the session has not
   ended, then either the event about that very connection is still to be pumped, or the
   disconnected channel is full, so that the serve loop cannot block on it.
   */
  lemma NoMissedDrop(sys: System, s: State, d: nat)
    requires Exclusive(sys) && Reachable(sys, s) && d < |s.desks|
    requires Unaware(s.desks[d]) && !s.desks[d].link
    requires forall e :: InFlight(s, e) ==> e.stamp != s.desks[d].conn
    requires s.pump.Poking? ==> s.pump.stamp != s.desks[d].conn
    ensures s.desks[d].poked
    ensures s.desks[d].pc == Serving ==> Enabled(sys, s, DeskDoes(d, ServeDropped))
  {
    DropReachable(sys, s);
    assert DropNotMissed(s, d);
  }

  // Stretches of runs

  /** A desk's session at four of its points: drained, linked, connected, served. */
  function Dialled(desk: Desk): Desk {
    desk.(pc := Connecting(false), poked := false)
  }

  function Linked(desk: Desk, epoch: nat): Desk {
    Dialled(desk).(pc := Connecting(true), link := true, conn := epoch + 1)
  }

  function Served(desk: Desk, epoch: nat): Desk {
    Linked(desk, epoch).(pc := Serving, failures := 0)
  }

  /** Drain, and link up. */
  lemma LinksUp(s: State, d: nat)
    requires d < |s.desks| && s.desks[d].pc == Draining
    ensures var s1 := AfterDesk(s, d, DrainOld);
            s1.desks[d] == Dialled(s.desks[d])
            && AfterDesk(s1, d, LinkUp) == AfterLink(s, d)
  {
  }

  /** Connected, set up, and serving. */
  lemma SetsUp(s: State, d: nat)
    requires d < |s.desks| && s.desks[d].pc == Connecting(true)
    ensures var s1 := AfterDesk(s, d, ConnectOk);
            s1.desks[d].pc == SettingUp
            && AfterDesk(s1, d, SetupOk) == s.(desks := s.desks[d := s.desks[d].(pc := Serving, failures := 0)])
  {
  }

  function AfterLink(s: State, d: nat): State
    requires d < |s.desks|
  {
    s.(desks := s.desks[d := Linked(s.desks[d], s.epoch)], epoch := s.epoch + 1)
  }

  function AfterServe(s: State, d: nat): State
    requires d < |s.desks|
  {
    s.(desks := s.desks[d := Served(s.desks[d], s.epoch)], epoch := s.epoch + 1)
  }

  lemma LinkThenServe(s: State, d: nat)
    requires d < |s.desks|
    ensures var s2 := AfterLink(s, d);
            s2.desks[d].pc == Connecting(true)
            && s2.(desks := s2.desks[d := s2.desks[d].(pc := Serving, failures := 0)]) == AfterServe(s, d)
  {
  }

  lemma CanLink(sys: System, start: State, s: State, d: nat)
    requires Leads(sys, start, s) && d < |s.desks| && s.desks[d].pc == Draining
    ensures Leads(sys, start, AfterLink(s, d))
  {
    var s1 := AfterDesk(s, d, DrainOld);
    LinksUp(s, d);
    DeskLeads(sys, start, s, d, DrainOld, s1);
    DeskLeads(sys, start, s1, d, LinkUp, AfterLink(s, d));
  }

  /** From the drain a desk can get as far as serving a fresh connection. */
  lemma CanServe(sys: System, start: State, s: State, d: nat) returns (t: State)
    requires Leads(sys, start, s) && d < |s.desks| && s.desks[d].pc == Draining
    ensures Leads(sys, start, t) && t == AfterServe(s, d)
  {
    CanLink(sys, start, s, d);
    LinkThenServe(s, d);
    var s2 := AfterLink(s, d);
    var s3 := AfterDesk(s2, d, ConnectOk);
    t := AfterServe(s, d);
    SetsUp(s2, d);
    DeskLeads(sys, start, s2, d, ConnectOk, s3);
    DeskLeads(sys, start, s3, d, SetupOk, t);
  }

  lemma DeskLeads(sys: System, start: State, s: State, d: nat, act: DeskAct, t: State)
    requires Leads(sys, start, s) && d < |s.desks| && DeskMay(s.desks[d], act) && t == AfterDesk(s, d, act)
    ensures Leads(sys, start, t)
  {
    StepLeads(sys, start, s, DeskDoes(d, act));
  }

  /** The pump can deliver any event in the queue to the desk that owns the peripheral. */
  lemma CanPoke(sys: System, s: State, e: DropEvent, d: nat) returns (t: State)
    requires Reachable(sys, s) && s.pump == Idle && e in s.drops && d < |s.desks| && Owns(s, d, Upper(e.pid))
    ensures Reachable(sys, t)
    ensures t == s.(desks := s.desks[d := s.desks[d].(poked := true)], drops := s.drops - multiset{e})
  {
    StepReaches(sys, s, PumpDoes(TakeDrop(e)));
    var s1 := s.(pump := LookingUp(e), drops := s.drops - multiset{e});
    StepReaches(sys, s1, PumpDoes(LookUp));
    var s2 := s1.(pump := Poking(d, e.stamp));
    StepReaches(sys, s2, PumpDoes(Poke));
    t := Apply(sys, s2, PumpDoes(Poke));
  }

  lemma DeskReaches(sys: System, s: State, d: nat, act: DeskAct, t: State)
    requires Reachable(sys, s) && d < |s.desks| && DeskMay(s.desks[d], act) && t == AfterDesk(s, d, act)
    ensures Reachable(sys, t)
  {
    StepReaches(sys, s, DeskDoes(d, act));
  }

  /** A poked session ends; the Disconnect that closes it reports an event too. */
  lemma CanHangUp(sys: System, s: State, d: nat) returns (t: State)
    requires Reachable(sys, s) && d < |s.desks| && s.desks[d].pc == Serving && s.desks[d].poked
    ensures Reachable(sys, t)
    ensures t == s.(desks := s.desks[d := s.desks[d].(pc := Settling(true), poked := false, link := false)],
                    drops := s.drops + multiset{DropEvent(s.desks[d].pid, s.desks[d].conn)})
  {
    var s1 := AfterDesk(s, d, ServeDropped);
    DeskReaches(sys, s, d, ServeDropped, s1);
    t := AfterDesk(s1, d, HangUp(Announced, s.desks[d].pid));
    DeskReaches(sys, s1, d, HangUp(Announced, s.desks[d].pid), t);
  }

  /** After a drop the desk goes round to the next drain with the peripheral it has. */
  lemma CanRedial(sys: System, s: State, d: nat) returns (t: State)
    requires Reachable(sys, s) && d < |s.desks| && s.desks[d].pc == Settling(true) && s.desks[d].pid != ""
    ensures Reachable(sys, t) && t == s.(desks := s.desks[d := s.desks[d].(pc := Draining)])
  {
    var s1 := AfterDesk(s, d, Settle);
    DeskReaches(sys, s, d, Settle, s1);
    t := AfterDesk(s1, d, KeepPeripheral);
    DeskReaches(sys, s1, d, KeepPeripheral, t);
  }

  /** A dropped session and its own Disconnect leave two events; the pump reads one, the desk dials again. */
  lemma CanLeaveEventBehind(sys: System, s: State, d: nat) returns (t: State)
    requires Reachable(sys, s) && s.pump == Idle && d < |s.desks| && s.desks[d].pc == Serving && s.desks[d].link
    requires s.desks[d].pid != "" && Owns(s, d, Upper(s.desks[d].pid))
    ensures Reachable(sys, t) && t.pump == Idle && |t.desks| == |s.desks| && t.routes == s.routes
    ensures t.epoch == s.epoch && t.desks[d].pc == Draining
    ensures t.desks[d].conn == s.desks[d].conn && t.desks[d].pid == s.desks[d].pid
    ensures DropEvent(s.desks[d].pid, s.desks[d].conn) in t.drops
  {
    var pid := s.desks[d].pid;
    var s1 := AfterDesk(s, d, LoseLink(pid));
    DeskReaches(sys, s, d, LoseLink(pid), s1);
    var s2 := CanPoke(sys, s1, DropEvent(pid, s.desks[d].conn), d);
    var s3 := CanHangUp(sys, s2, d);
    t := CanRedial(sys, s3, d);
  }

  /** In a reachable state an event about a live session looks up the desk whose session it is. */
  lemma DropFindsItsSession(sys: System, s: State, d: nat)
    requires Exclusive(sys) && Reachable(sys, s) && d < |s.desks|
    requires s.pump.LookingUp? && Concerns(s.pump.e.stamp, s.desks[d])
    ensures AfterPump(sys, s, LookUp).pump == Poking(d, s.pump.e.stamp)
  {
    DropReachable(sys, s);
    RoutingReachable(sys, s);
    assert Numbered(s.desks[d], s.epoch);
    LookUpFindsSession(sys, s, d);
  }

  /** A desk whose peripheral is routed to another can serve a dead link, its drop gone to the other. */
  lemma MisroutedMisses(sys: System, s: State, i: nat, j: nat) returns (t: State)
    requires Reachable(sys, s) && s.pump == Idle && s.drops == multiset{} && i < |s.desks| && j < |s.desks| && i != j
    requires s.desks[i].pc == Serving && s.desks[i].link && !s.desks[i].poked && Owns(s, j, Upper(s.desks[i].pid))
    ensures Reachable(sys, t) && Missed(t, i) && t.desks[i].pc == Serving
    ensures t.pump == Idle && t.routes == s.routes
  {
    var pid := s.desks[i].pid;
    var s1 := AfterDesk(s, i, LoseLink(pid));
    DeskReaches(sys, s, i, LoseLink(pid), s1);
    var e := DropEvent(pid, s.desks[i].conn);
    assert s1.drops == multiset{e};
    t := CanPoke(sys, s1, e, j);
  }

  /** With two desks that match one peripheral it can come to that. */
  lemma OverlapMissesDrop(sys: System, a: Advert, b: Advert, i: nat, j: nat) returns (s: State)
    requires a in sys.world && b in sys.world && Upper(a.pid) == Upper(b.pid)
    requires i != j && Matches(sys, i, a) && Matches(sys, j, b)
    ensures Reachable(sys, s) && Missed(s, i) && s.desks[i].pc == Serving
  {
    var s0 := Init(sys);
    InitReaches(sys);
    var s1 := DeskCanTake(sys, s0, i, a);
    var s2 := DeskCanTake(sys, s1, j, b);
    var s3 := CanServe(sys, Init(sys), s2, i);
    s := MisroutedMisses(sys, s3, i, j);
  }

  /** No drop is missed in any run exactly when matching is exclusive. */
  lemma NoMissedDropIffExclusive(sys: System)
    ensures (forall s, d: nat :: Reachable(sys, s) ==> !Missed(s, d)) <==> Exclusive(sys)
  {
    if Exclusive(sys) {
      forall s, d: nat | Reachable(sys, s)
        ensures !Missed(s, d)
      {
        if Missed(s, d) { NoMissedDrop(sys, s, d); }
      }
    } else {
      var a, b, i: nat, j: nat :| a in sys.world && b in sys.world && Upper(a.pid) == Upper(b.pid)
        && Matches(sys, i, a) && Matches(sys, j, b) && i != j;
      var s := OverlapMissesDrop(sys, a, b, i, j);
      assert Missed(s, i);
    }
  }
}
