/** One session of a desk, from its drain to its end: what can end it while its link is up. */
module ScanSessions {
  import opened Text
  import opened Matching
  import opened ScanProtocol
  import opened ScanSafety
  import opened ScanRouting
  import opened ScanDrops

  // A session ends only on an event pumped after its own drain

  /** Between a session's drain and its end. */
  predicate Listening(desk: Desk) {
    desk.pc.Connecting? || desk.pc == SettingUp || desk.pc == Serving
  }

  /** The channel is full while the session lasts. */
  predicate IsPoked(s: State, d: nat) {
    d < |s.desks| && Listening(s.desks[d]) && s.desks[d].poked
  }

  /** The pump is about to poke desk d. */
  predicate PokesNext(s: State, d: nat) {
    s.pump.Poking? && s.pump.i == d
  }

  /** The pump pokes a desk only from PokesNext, and gets there only by looking an event up. */
  lemma PumpPokesOnlyTold(sys: System, s: State, d: nat, act: PumpAct)
    requires PumpMay(sys, s, act) && d < |s.desks|
    ensures var t := AfterPump(sys, s, act);
            && |t.desks| == |s.desks| && t.desks[d].pc == s.desks[d].pc
            && (t.desks[d].poked ==> s.desks[d].poked || PokesNext(s, d))
            && (PokesNext(t, d) ==> act.LookUp? && Owns(s, d, Upper(s.pump.e.pid)))
  {
    PumpStepTouches(sys, s, act);
  }

  /** A session that is poked was poked before, or is just being poked. */
  lemma PokeStep(sys: System, s: State, step: Step, d: nat)
    requires Enabled(sys, s, step) && IsPoked(Apply(sys, s, step), d)
    ensures d < |s.desks| && Listening(s.desks[d]) && (s.desks[d].poked || PokesNext(s, d))
  {
    match step
    case DeskDoes(e, act) =>
      DeskStepTouches(s, e, act);
      if e == d { DeskStepListens(s.desks[d], act, s.epoch); }
    case PumpDoes(act) =>
      PumpKeepsCount(sys, s, act);
      PumpPokesOnlyTold(sys, s, d, act);
    case _ => ElsewhereTouches(sys, s, step);
  }

  lemma PumpKeepsCount(sys: System, s: State, act: PumpAct)
    requires PumpMay(sys, s, act)
    ensures |AfterPump(sys, s, act).desks| == |s.desks|
  {
    PumpStepTouches(sys, s, act);
  }

  lemma PokeNext(sys: System, s: State, t: State, d: nat)
    requires Next(sys, s, t) && IsPoked(t, d)
    ensures d < |s.desks| && Listening(s.desks[d]) && (s.desks[d].poked || PokesNext(s, d))
  {
    var step :| Enabled(sys, s, step) && t == Apply(sys, s, step);
    PokeStep(sys, s, step, d);
  }

  lemma DeskStepListens(desk: Desk, act: DeskAct, epoch: nat)
    requires DeskMay(desk, act)
    ensures var after := DeskAfter(desk, act, epoch);
            Listening(after) && after.poked ==> Listening(desk) && desk.poked
  {
  }

  /** From j on the session lasts, and the pump is about to poke it at j. */
  ghost predicate PokedFrom(run: seq<State>, d: nat, j: nat, k: nat) {
    && j < k < |run| && PokesNext(run[j], d)
    && forall i :: j <= i <= k ==> d < |run[i].desks| && Listening(run[i].desks[d])
  }

  lemma PokedOnce(run: seq<State>, d: nat, k: nat)
    requires k + 1 < |run| && PokesNext(run[k], d) && d < |run[k].desks| && Listening(run[k].desks[d])
    requires IsPoked(run[k + 1], d)
    ensures PokedFrom(run, d, k, k + 1)
  {
  }

  lemma PokedLonger(run: seq<State>, d: nat, j: nat, k: nat)
    requires PokedFrom(run, d, j, k) && k + 1 < |run| && IsPoked(run[k + 1], d)
    ensures PokedFrom(run, d, j, k + 1)
  {
  }

  /** A poke is behind every poked state of a run. */
  ghost predicate PokeBehind(run: seq<State>, d: nat, k: nat) {
    k < |run| && (IsPoked(run[k], d) ==> exists j: nat :: PokedFrom(run, d, j, k))
  }

  lemma PokeBehindNext(sys: System, run: seq<State>, d: nat, k: nat)
    requires PokeBehind(run, d, k) && k + 1 < |run| && Next(sys, run[k], run[k + 1])
    ensures PokeBehind(run, d, k + 1)
  {
    if IsPoked(run[k + 1], d) {
      PokeNext(sys, run[k], run[k + 1], d);
      if run[k].desks[d].poked {
        var j: nat :| PokedFrom(run, d, j, k);
        PokedLonger(run, d, j, k);
      } else {
        PokedOnce(run, d, k);
      }
    }
  }

  /**
   What the drain is for: whatever was left in the channel by earlier sessions, a session finds it
   full only if the pump delivered an event since that session's own drain.
   */
  lemma PokedSinceDrain(sys: System, run: seq<State>, k: nat, d: nat)
    requires IsRun(sys, run) && k < |run|
    ensures PokeBehind(run, d, k)
  {
    NotPokedAtFirst(sys, d);
    PokedAlong(sys, run, k, d);
  }

  lemma {:induction false} PokedAlong(sys: System, run: seq<State>, k: nat, d: nat)
    requires IsPath(sys, run) && k < |run| && !IsPoked(run[0], d)
    ensures PokeBehind(run, d, k)
    decreases k
  {
    if k > 0 {
      PokedAlong(sys, run, k - 1, d);
      NextIn(sys, run, k);
      PokeBehindNext(sys, run, d, k - 1);
    }
  }

  lemma NotPokedAtFirst(sys: System, d: nat)
    ensures !IsPoked(Init(sys), d)
  {
  }

  // Exactly when a session can be ended although its link is up

  /** About to drain, or past it and not over. */
  predicate InSession(desk: Desk) {
    desk.pc == Draining || Listening(desk)
  }

  /** A step of anybody, but no event about pid that is not about a connection of ours. */
  ghost predicate NextFor(sys: System, s: State, t: State, pid: string) {
    exists step :: Enabled(sys, s, step) && t == Apply(sys, s, step) && !(step.ForeignDrop? && EqualFold(step.pid, pid))
  }

  ghost predicate NextForAt(sys: System, run: seq<State>, i: int, pid: string)
    requires 0 < i < |run|
  {
    NextFor(sys, run[i - 1], run[i], pid)
  }

  /** A stretch of a run within one session of desk d. */
  ghost predicate IsSession(sys: System, run: seq<State>, d: nat, pid: string) {
    && run != []
    && (forall i :: 0 <= i < |run| ==> d < |run[i].desks| && InSession(run[i].desks[d]))
    && (forall i :: 0 < i < |run| ==> NextForAt(sys, run, i, pid))
  }

  /** A step within the session. */
  ghost predicate SessionStep(sys: System, s: State, t: State, d: nat, pid: string) {
    && d < |s.desks| && InSession(s.desks[d]) && d < |t.desks| && InSession(t.desks[d])
    && NextFor(sys, s, t, pid)
  }

  lemma SessionStepIn(sys: System, run: seq<State>, d: nat, pid: string, i: int)
    requires IsSession(sys, run, d, pid) && 0 < i < |run|
    ensures SessionStep(sys, run[i - 1], run[i], d, pid)
  {
    assert NextForAt(sys, run, i, pid);
  }

  ghost predicate SessionLeads(sys: System, s: State, t: State, d: nat, pid: string) {
    exists run :: IsSession(sys, run, d, pid) && run[0] == s && run[|run| - 1] == t
  }

  /** Still to be pumped, or still to be caused by a link that outlived its session. */
  predicate Coming(s: State, e: DropEvent) {
    InFlight(s, e) || e in s.loose
  }

  /**
   An event naming the desk's peripheral has still to be pumped, or an old link to it is still up and
   can cause one, or the pump is about to poke the desk.
   */
  ghost predicate DropOnItsWay(s: State, d: nat)
    requires d < |s.desks|
  {
    (exists e :: Coming(s, e) && EqualFold(e.pid, s.desks[d].pid)) || PokesNext(s, d)
  }

  /** The serve loop can end on a drop, although the link is up. */
  predicate EndsAlive(s: State, d: nat) {
    d < |s.desks| && s.desks[d].pc == Serving && s.desks[d].link && s.desks[d].poked
  }

  /** The session's link is gone, or nothing that could poke the session is on its way or has arrived. */
  ghost predicate Undisturbed(s: State, d: nat)
    requires d < |s.desks|
  {
    || (Unaware(s.desks[d]) && !s.desks[d].link)
    || (!DropOnItsWay(s, d) && (Listening(s.desks[d]) ==> !s.desks[d].poked))
  }

  lemma OwnStepInSession(desk: Desk, act: DeskAct, epoch: nat)
    requires DeskMay(desk, act) && Numbered(desk, epoch) && InSession(desk) && InSession(DeskAfter(desk, act, epoch))
    ensures var after := DeskAfter(desk, act, epoch);
            && after.pid == desk.pid && !act.HangUp? && !act.ConnectFailed?
            && (Unaware(desk) && !desk.link ==> Unaware(after) && !after.link)
            && (act.LoseLink? ==> Unaware(after) && !after.link)
            && (Listening(after) && after.poked ==> Listening(desk) && desk.poked)
  {
  }

  /** Another desk's events name another peripheral. */
  lemma OthersNameTheirOwn(sys: System, s: State, d: nat, e: nat, spelling: string)
    requires RoutingInv(sys, s) && d < |s.desks| && e < |s.desks| && e != d && s.desks[d].pid != ""
    requires EqualFold(spelling, s.desks[e].pid)
    ensures !EqualFold(spelling, s.desks[d].pid)
  {
    assert HoldingRouted(sys, s, d) && HoldingRouted(sys, s, e);
    assert |Upper(s.desks[d].pid)| > 0;
  }

  /** What a desk step lets come is about the desk's own link. */
  lemma ComingDeskStep(s: State, e: nat, act: DeskAct, ev: DropEvent)
    requires e < |s.desks| && DeskMay(s.desks[e], act) && Coming(AfterDesk(s, e, act), ev) && !Coming(s, ev)
    ensures EqualFold(ev.pid, s.desks[e].pid) && (act.LoseLink? || act.HangUp? || act.ConnectFailed?)
  {
  }

  lemma UndisturbedDeskStep(sys: System, s: State, d: nat, e: nat, act: DeskAct)
    requires RoutingInv(sys, s) && NumberingInv(s) && d < |s.desks| && InSession(s.desks[d]) && Undisturbed(s, d)
    requires e < |s.desks| && DeskMay(s.desks[e], act) && InSession(AfterDesk(s, e, act).desks[d])
    ensures Undisturbed(AfterDesk(s, e, act), d) && AfterDesk(s, e, act).desks[d].pid == s.desks[d].pid
  {
    var t := AfterDesk(s, e, act);
    assert Numbered(s.desks[d], s.epoch);
    DeskStepTouches(s, e, act);
    if e == d { OwnStepInSession(s.desks[d], act, s.epoch); }
    if DropOnItsWay(t, d) && !(Unaware(s.desks[d]) && !s.desks[d].link) && !(e == d && act.LoseLink?) {
      var ev :| Coming(t, ev) && EqualFold(ev.pid, t.desks[d].pid);
      assert !Coming(s, ev);
      ComingDeskStep(s, e, act, ev);
      OthersNameTheirOwn(sys, s, d, e, ev.pid);
    }
  }

  /** A route leads to desk d only for the peripheral it holds. */
  lemma RouteNames(sys: System, s: State, d: nat, pid: string)
    requires RoutingInv(sys, s) && d < |s.desks| && s.desks[d].pid != "" && Owns(s, d, Upper(pid))
    ensures EqualFold(pid, s.desks[d].pid)
  {
    assert KeyHeld(s, Upper(pid));
  }

  lemma UndisturbedPumpStep(sys: System, s: State, d: nat, act: PumpAct)
    requires RoutingInv(sys, s) && d < |s.desks| && s.desks[d].pid != "" && Undisturbed(s, d) && PumpMay(sys, s, act)
    ensures d < |AfterPump(sys, s, act).desks| && Undisturbed(AfterPump(sys, s, act), d)
    ensures AfterPump(sys, s, act).desks[d].pid == s.desks[d].pid
  {
    var t := AfterPump(sys, s, act);
    PumpStepSession(sys, s, act, d);
    if !(Unaware(s.desks[d]) && !s.desks[d].link) {
      PumpPokesOnlyTold(sys, s, d, act);
      if ev :| Coming(t, ev) && EqualFold(ev.pid, t.desks[d].pid) {
        PumpStepEvents(sys, s, act, ev);
        PumpLeavesLoose(sys, s, act);
        assert Coming(s, ev);
        assert false;
      }
      if PokesNext(t, d) && act.LookUp? {
        assert Coming(s, s.pump.e);
        RouteNames(sys, s, d, s.pump.e.pid);
      }
    }
  }

  lemma UndisturbedElsewhere(s: State, t: State, d: nat)
    requires d < |s.desks| && Undisturbed(s, d) && t.desks == s.desks && t.pump == s.pump
    requires forall e :: Coming(t, e) && EqualFold(e.pid, s.desks[d].pid) ==> Coming(s, e)
    ensures Undisturbed(t, d)
  {
  }

  lemma UndisturbedStep(sys: System, s: State, step: Step, d: nat)
    requires RoutingInv(sys, s) && NumberingInv(s) && d < |s.desks| && InSession(s.desks[d]) && Undisturbed(s, d)
    requires Enabled(sys, s, step) && !(step.ForeignDrop? && EqualFold(step.pid, s.desks[d].pid))
    requires d < |Apply(sys, s, step).desks| && InSession(Apply(sys, s, step).desks[d])
    ensures Undisturbed(Apply(sys, s, step), d) && Apply(sys, s, step).desks[d].pid == s.desks[d].pid
  {
    match step
    case DeskDoes(e, act) => UndisturbedDeskStep(sys, s, d, e, act);
    case PumpDoes(act) =>
      assert Numbered(s.desks[d], s.epoch);
      UndisturbedPumpStep(sys, s, d, act);
    case _ =>
      ElsewhereTouches(sys, s, step);
      ElsewhereQueues(sys, s, step);
      UndisturbedElsewhere(s, Apply(sys, s, step), d);
  }

  lemma UndisturbedNext(sys: System, s: State, t: State, d: nat)
    requires RoutingInv(sys, s) && NumberingInv(s) && d < |s.desks| && InSession(s.desks[d]) && Undisturbed(s, d)
    requires NextFor(sys, s, t, s.desks[d].pid) && d < |t.desks| && InSession(t.desks[d])
    ensures Undisturbed(t, d) && t.desks[d].pid == s.desks[d].pid
  {
    var step :| && Enabled(sys, s, step) && t == Apply(sys, s, step)
                && !(step.ForeignDrop? && EqualFold(step.pid, s.desks[d].pid));
    UndisturbedStep(sys, s, step, d);
  }

  lemma NextForReaches(sys: System, s: State, t: State, pid: string)
    requires Reachable(sys, s) && NextFor(sys, s, t, pid)
    ensures Reachable(sys, t)
  {
    NextReaches(sys, s, t);
  }

  /** What a session keeps, as long as it lasts. */
  ghost predicate Keeps(sys: System, s: State, d: nat, pid: string) {
    Reachable(sys, s) && d < |s.desks| && s.desks[d].pid == pid && Undisturbed(s, d)
  }

  lemma KeepsNext(sys: System, s: State, t: State, d: nat, pid: string)
    requires Exclusive(sys) && Keeps(sys, s, d, pid) && SessionStep(sys, s, t, d, pid)
    ensures Keeps(sys, t, d, pid)
  {
    RoutingReachable(sys, s);
    DropReachable(sys, s);
    UndisturbedNext(sys, s, t, d);
    NextForReaches(sys, s, t, pid);
  }

  /** What no step within the session loses, it keeps. */
  lemma {:induction false} SessionInvariant(sys: System, P: State -> bool, run: seq<State>, d: nat, pid: string, i: nat)
    requires IsSession(sys, run, d, pid) && i < |run| && P(run[0])
    requires forall s, t :: P(s) && SessionStep(sys, s, t, d, pid) ==> P(t)
    ensures P(run[i])
    decreases i
  {
    if i > 0 {
      SessionInvariant(sys, P, run, d, pid, i - 1);
      SessionStepIn(sys, run, d, pid, i);
    }
  }

  lemma SessionKeeps(sys: System, run: seq<State>, d: nat, pid: string)
    requires Exclusive(sys) && IsSession(sys, run, d, pid) && Keeps(sys, run[0], d, pid)
    ensures Keeps(sys, run[|run| - 1], d, pid)
  {
    var P := s => Keeps(sys, s, d, pid);
    forall s, t | P(s) && SessionStep(sys, s, t, d, pid)
      ensures P(t)
    {
      KeepsNext(sys, s, t, d, pid);
    }
    SessionInvariant(sys, P, run, d, pid, |run| - 1);
  }

  // A session that can be: one drain, and then whatever is on its way

  /** t is reachable from s within the session. */
  ghost predicate Within(sys: System, s: State, t: State, d: nat) {
    Reachable(sys, t) && d < |s.desks| && SessionLeads(sys, s, t, d, s.desks[d].pid)
  }

  lemma SessionStarts(sys: System, s: State, d: nat)
    requires Reachable(sys, s) && d < |s.desks| && InSession(s.desks[d])
    ensures Within(sys, s, s, d)
  {
    var run := [s];
    assert IsSession(sys, run, d, s.desks[d].pid);
  }

  lemma SessionGoesOn(sys: System, s: State, t: State, d: nat, step: Step)
    requires Within(sys, s, t, d) && Enabled(sys, t, step) && !step.ForeignDrop?
    requires d < |Apply(sys, t, step).desks| && InSession(Apply(sys, t, step).desks[d])
    ensures Within(sys, s, Apply(sys, t, step), d)
  {
    StepReaches(sys, t, step);
    LeadsOn(sys, s, t, Apply(sys, t, step), d, s.desks[d].pid);
  }

  lemma LeadsOn(sys: System, s: State, t: State, u: State, d: nat, pid: string)
    requires SessionLeads(sys, s, t, d, pid) && NextFor(sys, t, u, pid) && d < |u.desks| && InSession(u.desks[d])
    ensures SessionLeads(sys, s, u, d, pid)
  {
    var run :| IsSession(sys, run, d, pid) && run[0] == s && run[|run| - 1] == t;
    LongerSession(sys, run, d, pid, u);
    assert (run + [u])[0] == s;
  }

  lemma LongerSession(sys: System, run: seq<State>, d: nat, pid: string, u: State)
    requires IsSession(sys, run, d, pid) && NextFor(sys, run[|run| - 1], u, pid)
    requires d < |u.desks| && InSession(u.desks[d])
    ensures IsSession(sys, run + [u], d, pid)
  {
    var longer := run + [u];
    forall i | 0 < i < |longer|
      ensures NextForAt(sys, longer, i, pid)
    {
      if i < |run| { assert NextForAt(sys, run, i, pid) && longer[i - 1] == run[i - 1] && longer[i] == run[i]; }
    }
  }

  /** What the pump does next when it is not idle. */
  function PumpNext(pump: Pump): PumpAct
    requires pump != Idle
  {
    match pump
    case Scanning(_, _) => Load
    case Claiming(_, _) => Claim
    case Routing(_, _) => Route
    case HandingOver(_, _) => Deliver
    case WakingAfterFind => CallWakeAfterFind
    case WakingOnPower => CallWakeOnPower
    case LookingUp(_) => LookUp
    case Poking(_, _) => Poke
  }

  /** How many steps from idle the pump can be. */
  function Busy(pump: Pump, n: nat): nat {
    match pump
    case Idle => 0
    case Scanning(_, i) => if i < n then 2 * (n - i) + 4 else 4
    case Claiming(_, i) => if i < n then 2 * (n - i) + 3 else 0
    case Routing(_, _) => 3
    case HandingOver(_, _) => 2
    case LookingUp(_) => 2
    case _ => 1
  }

  lemma PumpGoesOn(sys: System, s: State)
    requires InRange(sys, s) && s.pump != Idle
    ensures PumpMay(sys, s, PumpNext(s.pump))
    ensures var t := AfterPump(sys, s, PumpNext(s.pump));
            Busy(t.pump, |s.desks|) < Busy(s.pump, |s.desks|)
  {
  }

  lemma PumpLeavesDrops(sys: System, s: State, act: PumpAct)
    requires PumpMay(sys, s, act) && !act.TakeDrop?
    ensures AfterPump(sys, s, act).drops == s.drops
  {
  }

  /** The pump can finish what it is doing while the desk waits. */
  lemma {:induction false} PumpRests(sys: System, s: State, t: State, d: nat) returns (u: State)
    requires Within(sys, s, t, d) && d < |t.desks| && InSession(t.desks[d])
    ensures Within(sys, s, u, d) && u.pump == Idle && u.drops == t.drops && u.loose == t.loose && d < |u.desks|
    ensures u.desks[d].pc == t.desks[d].pc && u.desks[d].pid == t.desks[d].pid && u.desks[d].conn == t.desks[d].conn
    decreases Busy(t.pump, |t.desks|)
  {
    if t.pump == Idle {
      u := t;
    } else {
      HandoffReachable(sys, t);
      var act := PumpNext(t.pump);
      PumpGoesOn(sys, t);
      PumpLeavesDrops(sys, t, act);
      PumpLeavesLoose(sys, t, act);
      PumpStepSession(sys, t, act, d);
      SessionGoesOn(sys, s, t, d, PumpDoes(act));
      u := PumpRests(sys, s, AfterPump(sys, t, act), d);
    }
  }

  lemma OwnStepWithin(sys: System, s: State, t: State, d: nat, act: DeskAct)
    requires Within(sys, s, t, d) && d < |t.desks| && DeskMay(t.desks[d], act)
    requires InSession(DeskAfter(t.desks[d], act, t.epoch))
    ensures Within(sys, s, AfterDesk(t, d, act), d)
  {
    DeskStepTouches(t, d, act);
    SessionGoesOn(sys, s, t, d, DeskDoes(d, act));
  }

  lemma LinksWithin(sys: System, s: State, t: State, d: nat)
    requires Within(sys, s, t, d) && d < |t.desks| && t.desks[d].pc == Draining
    ensures Within(sys, s, AfterLink(t, d), d)
  {
    LinksUp(t, d);
    OwnStepWithin(sys, s, t, d, DrainOld);
    OwnStepWithin(sys, s, AfterDesk(t, d, DrainOld), d, LinkUp);
  }

  /** From its drain the session can get as far as serving a fresh link, whatever the pump is doing. */
  lemma ServesWithin(sys: System, s: State, t: State, d: nat)
    requires Within(sys, s, t, d) && d < |t.desks| && t.desks[d].pc == Draining
    ensures Within(sys, s, AfterServe(t, d), d)
  {
    LinksWithin(sys, s, t, d);
    LinkThenServe(t, d);
    SetsUp(AfterLink(t, d), d);
    OwnStepWithin(sys, s, AfterLink(t, d), d, ConnectOk);
    OwnStepWithin(sys, s, AfterDesk(AfterLink(t, d), d, ConnectOk), d, SetupOk);
  }

  lemma OwnsRoute(sys: System, s: State, d: nat, pid: string)
    requires Exclusive(sys) && Reachable(sys, s) && d < |s.desks| && s.desks[d].pid != "" && EqualFold(pid, s.desks[d].pid)
    ensures Owns(s, d, Upper(pid))
  {
    RoutesAreHoldings(sys, s);
  }

  /** The pump has an event naming the peripheral at hand, or is about to poke. */
  ghost predicate DropAtHand(s: State, d: nat)
    requires d < |s.desks|
  {
    || (s.pump == Idle && exists e <- s.drops :: EqualFold(e.pid, s.desks[d].pid))
    || (s.pump.LookingUp? && EqualFold(s.pump.e.pid, s.desks[d].pid))
    || PokesNext(s, d)
  }

  lemma LooksUpWithin(sys: System, s: State, t: State, d: nat)
    requires Within(sys, s, t, d) && d < |t.desks| && t.desks[d].pc == Serving
    requires t.pump.LookingUp? && Owns(t, d, Upper(t.pump.e.pid))
    ensures Within(sys, s, t.(pump := Poking(d, t.pump.e.stamp)), d)
  {
    SessionGoesOn(sys, s, t, d, PumpDoes(LookUp));
  }

  lemma TakesWithin(sys: System, s: State, t: State, d: nat, e: DropEvent)
    requires Within(sys, s, t, d) && d < |t.desks| && InSession(t.desks[d]) && t.pump == Idle && e in t.drops
    ensures Within(sys, s, t.(pump := LookingUp(e), drops := t.drops - multiset{e}), d)
  {
    SessionGoesOn(sys, s, t, d, PumpDoes(TakeDrop(e)));
  }

  lemma PokesWithin(sys: System, s: State, t: State, d: nat)
    requires Within(sys, s, t, d) && d < |t.desks| && t.desks[d].pc == Serving && PokesNext(t, d)
    ensures Within(sys, s, AfterPump(sys, t, Poke), d)
    ensures AfterPump(sys, t, Poke).desks == t.desks[d := t.desks[d].(poked := true)]
  {
    SessionGoesOn(sys, s, t, d, PumpDoes(Poke));
  }

  lemma AtHandEndsAlive(sys: System, s: State, t: State, d: nat) returns (u: State)
    requires Exclusive(sys) && Within(sys, s, t, d) && d < |t.desks| && t.desks[d].pc == Serving && t.desks[d].link
    requires t.desks[d].pid != "" && DropAtHand(t, d)
    ensures Within(sys, s, u, d) && EndsAlive(u, d)
  {
    var v := t;
    if v.pump == Idle {
      var e :| e in v.drops && EqualFold(e.pid, v.desks[d].pid);
      TakesWithin(sys, s, v, d, e);
      v := v.(pump := LookingUp(e), drops := v.drops - multiset{e});
    }
    if v.pump.LookingUp? {
      OwnsRoute(sys, v, d, v.pump.e.pid);
      LooksUpWithin(sys, s, v, d);
      v := v.(pump := Poking(d, v.pump.e.stamp));
    }
    PokesWithin(sys, s, v, d);
    u := AfterPump(sys, v, Poke);
  }

  /** Whatever is on its way at the drain can arrive while the session serves a fresh link. */
  lemma OnItsWayEndsAlive(sys: System, s: State, d: nat) returns (t: State)
    requires Exclusive(sys) && Reachable(sys, s) && d < |s.desks| && s.desks[d].pc == Draining && DropOnItsWay(s, d)
    ensures Within(sys, s, t, d) && EndsAlive(t, d)
  {
    SessionStarts(sys, s, d);
    PeripheralKnown(sys, s, d);
    var u := ComesToHand(sys, s, d);
    ServesWithin(sys, s, u, d);
    StillAtHand(u, d);
    t := AtHandEndsAlive(sys, s, AfterServe(u, d), d);
  }

  /** Before the drain is done the pump can finish what it is doing, the event still to come. */
  lemma ComesToHand(sys: System, s: State, d: nat) returns (t: State)
    requires Within(sys, s, s, d) && s.desks[d].pc == Draining && DropOnItsWay(s, d)
    ensures Within(sys, s, t, d) && d < |t.desks| && t.desks[d].pc == Draining && t.desks[d].pid == s.desks[d].pid
    ensures DropAtHand(t, d)
  {
    t := s;
    if !DropAtHand(s, d) {
      var e :| Coming(s, e) && EqualFold(e.pid, s.desks[d].pid);
      assert e in s.drops || e in s.loose;
      t := PumpRests(sys, s, s, d);
      if e in t.loose {
        SessionGoesOn(sys, s, t, d, LooseDrop(e));
        t := Apply(sys, t, LooseDrop(e));
      }
    }
  }

  /** Serving takes nothing off the pump's hands. */
  lemma StillAtHand(s: State, d: nat)
    requires d < |s.desks| && DropAtHand(s, d)
    ensures var t := AfterServe(s, d);
            && DropAtHand(t, d) && t.desks[d].pid == s.desks[d].pid
            && t.desks[d].pc == Serving && t.desks[d].link && !t.desks[d].poked
  {
  }

  lemma PeripheralKnown(sys: System, s: State, d: nat)
    requires Exclusive(sys) && Reachable(sys, s) && d < |s.desks| && s.desks[d].pc == Draining
    ensures s.desks[d].pid != ""
  {
    DropReachable(sys, s);
    assert Numbered(s.desks[d], s.epoch);
  }

  /** With nothing on its way at the drain the session does not end alive. */
  lemma NothingEndsIt(sys: System, s: State, t: State, d: nat)
    requires Exclusive(sys) && Reachable(sys, s) && d < |s.desks| && s.desks[d].pc == Draining && !DropOnItsWay(s, d)
    requires SessionLeads(sys, s, t, d, s.desks[d].pid)
    ensures !EndsAlive(t, d)
  {
    var pid := s.desks[d].pid;
    var run :| IsSession(sys, run, d, pid) && run[0] == s && run[|run| - 1] == t;
    SessionKeeps(sys, run, d, pid);
  }

  /**
   With exclusive matching, and no disconnection event about the peripheral but those of our own
   connections, a session can end on a drop while its link is up exactly when, at its drain, an event
   naming the peripheral is still to be pumped, or a link to it from an earlier session is still up,
   or the pump is about to poke the desk.
   */
  lemma EndsAliveIff(sys: System, s: State, d: nat)
    requires Exclusive(sys) && Reachable(sys, s) && d < |s.desks| && s.desks[d].pc == Draining
    ensures (exists t :: SessionLeads(sys, s, t, d, s.desks[d].pid) && EndsAlive(t, d)) <==> DropOnItsWay(s, d)
  {
    if DropOnItsWay(s, d) {
      var t := OnItsWayEndsAlive(sys, s, d);
    } else if t :| SessionLeads(sys, s, t, d, s.desks[d].pid) && EndsAlive(t, d) {
      NothingEndsIt(sys, s, t, d);
    }
  }

  /**
   It does happen. Wherever a desk can be found at all, a first session (first) can leave an event
   about itself behind, still queued at the next drain (drain), and that event can be the one the
   pump pokes the second session with (late), whose number is higher and whose link is up.
   */
  lemma LateDropEndsNextSession(sys: System, d: nat, adv: Advert) returns (first: State, drain: State, late: State)
    requires adv in sys.world && Matches(sys, d, adv)
    ensures Reachable(sys, first) && d < |first.desks| && first.desks[d].pc == Serving && first.desks[d].link
    ensures Reachable(sys, drain) && d < |drain.desks| && drain.desks[d].pc == Draining
    ensures DropEvent(first.desks[d].pid, first.desks[d].conn) in drain.drops
    ensures Within(sys, drain, late, d) && d < |late.desks| && late.pump == Poking(d, first.desks[d].conn)
    ensures late.desks[d].pc == Serving && late.desks[d].link && !late.desks[d].poked
    ensures 0 < first.desks[d].conn < late.desks[d].conn
    ensures Enabled(sys, late, PumpDoes(Poke)) && EndsAlive(Apply(sys, late, PumpDoes(Poke)), d)
  {
    InitReaches(sys);
    var found := DeskCanTake(sys, Init(sys), d, adv);
    first := CanServe(sys, Init(sys), found, d);
    drain := CanLeaveEventBehind(sys, first, d);
    SessionStarts(sys, drain, d);
    var e := DropEvent(first.desks[d].pid, first.desks[d].conn);
    ServesWithin(sys, drain, drain, d);
    var up := AfterServe(drain, d);
    TakesWithin(sys, drain, up, d, e);
    var looking := up.(pump := LookingUp(e), drops := up.drops - multiset{e});
    LooksUpWithin(sys, drain, looking, d);
    late := looking.(pump := Poking(d, e.stamp));
    PokesWithin(sys, drain, late, d);
  }
}
