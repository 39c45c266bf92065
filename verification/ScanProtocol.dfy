/**
 The shared state of the desk loops, the event pump and the scan controller, and the atomic
 steps they take on it. Any number of desks; every interleaving of the steps is a run. The BLE
 helper is the environment: it decides which adverts arrive, whether a call succeeds, and when a
 link drops.
 */
module ScanProtocol {
  import opened Text
  import opened Matching
  import Backoff

  /**
   How many desks there are, which adverts each is looking for, the adverts that can ever be heard,
   and whether one can still be pumped late, when the controller has no scan running any more.
   */
  datatype System = System(count: nat, matches: (nat, Advert) -> bool, world: iset<Advert>, late: bool)

  /** The system of a configuration. */
  ghost function Configured(desks: seq<DeskConfig>, world: iset<Advert>, late: bool): System {
    System(|desks|, (d: nat, adv: Advert) => d < |desks| && MatchesDesk(desks[d], adv), world, late)
  }

  /** Where a desk's loop stands: run, resolve and connectAndServe flattened. */
  datatype DeskPc =
    | Head                        // top of the loop in run
    | Asked                       // wantResolve stored, wakeScanner not yet called
    | Waiting                     // blocked on m.resolved
    | Draining                    // about to drain m.disconnected
    | Connecting(raised: bool)    // inside Connect; raised once the link came up
    | SettingUp                   // discover, ensureSubscriptions, ownership
    | Serving                     // the select loop
    | Leaving(dropped: bool)      // the deferred Disconnect is still to run
    | Settling(dropped: bool)     // back in run, choosing what to do next

  datatype Desk = Desk(
    pc: DeskPc,
    want: bool,              // wantResolve
    resolved: seq<Pid>,      // the channel of capacity 1
    pid: string,             // peripheralID, "" when unknown
    poked: bool,             // the disconnected channel of capacity 1
    failures: nat,           // consecFailure
    link: bool,              // the peripheral is connected
    conn: nat)               // number of the last connection made for this desk

  /** A disconnection event; stamp is the connection it reports, 0 for a peripheral that is not ours. */
  datatype DropEvent = DropEvent(pid: string, stamp: nat)

  datatype Pump =
    | Idle
    | Scanning(adv: Advert, i: nat)      // onDiscovery, about to load desk i's wantResolve
    | Claiming(adv: Advert, i: nat)      // loaded true and matched, about to CompareAndSwap
    | Routing(adv: Advert, i: nat)       // swapped, about to store in byPeripheral
    | HandingOver(adv: Advert, i: nat)   // about to send on resolved
    | WakingAfterFind                    // about to call wakeScanner
    | WakingOnPower                      // adapter powered on, about to call wakeScanner
    | LookingUp(e: DropEvent)            // onDisconnection, about to load byPeripheral
    | Poking(i: nat, stamp: nat)         // about to send on disconnected

  datatype Controller =
    | Parked                   // blocked in the select
    | Reading(i: nat)          // about to load desk i's wantResolve
    | Deciding(need: bool)     // about to start or stop the scan

  datatype State = State(
    desks: seq<Desk>,
    pump: Pump,
    ctl: Controller,
    scanWake: bool,            // the channel of capacity 1
    scanning: bool,            // the controller's belief
    startFailed: bool,         // the controller's last pass ended in a failed StartScan
    routes: map<string, nat>,  // byPeripheral
    drops: multiset<DropEvent>,
    loose: multiset<DropEvent>,  // links that outlived their session, each as the event it would cause
    epoch: nat)                // connections made so far

  /** What becomes of a link when its session ends; the error of Disconnect is ignored. */
  datatype Fate = Closed | Announced | LeftUp

  /** What a desk's loop, or the link under it, can do next. */
  datatype DeskAct =
    | AskForScan | CallWake | TakeResolved | KeepPeripheral
    | DrainOld | LinkUp | ConnectOk | ConnectFailed(fate: Fate, spelling: string)
    | SetupOk | SetupFailed | ServeDropped
    | HangUp(fate: Fate, spelling: string) | Settle
    | LoseLink(spelling: string)

  datatype PumpAct =
    | Discover(adv: Advert) | Load | Claim | Route | Deliver | CallWakeAfterFind
    | PowerOn | CallWakeOnPower
    | TakeDrop(e: DropEvent) | LookUp | Poke

  datatype ControllerAct = TakeWake | Tick | Read | Decide(started: bool)

  datatype Step =
    | DeskDoes(d: nat, desk: DeskAct)
    | PumpDoes(pump: PumpAct)
    | ControllerDoes(ctl: ControllerAct)
    | LooseDrop(e: DropEvent)    // a link that outlived its session goes down
    | LooseGone(e: DropEvent)    // or is closed, or taken over by a new connection, without an event
    | ForeignDrop(pid: string)   // a disconnection event about no connection of ours

  const NEW_DESK := Desk(Head, false, [], "", false, 0, false, 0)

  ghost function Init(sys: System): State {
    State(seq(sys.count, i => NEW_DESK), Idle, Parked, false, false, false, map[], multiset{}, multiset{}, 0)
  }

  predicate Matches(sys: System, d: nat, adv: Advert) {
    d < sys.count && sys.matches(d, adv)
  }

  ghost predicate Enabled(sys: System, s: State, step: Step) {
    match step
    case DeskDoes(d, act) => d < |s.desks| && DeskMay(s.desks[d], act)
    case PumpDoes(act) => PumpMay(sys, s, act)
    case ControllerDoes(act) => ControllerMay(s, act)
    case LooseDrop(e) => e in s.loose
    case LooseGone(e) => e in s.loose
    case ForeignDrop(_) => true
  }

  ghost function Apply(sys: System, s: State, step: Step): State
    requires Enabled(sys, s, step)
  {
    match step
    case DeskDoes(d, act) => AfterDesk(s, d, act)
    case PumpDoes(act) => AfterPump(sys, s, act)
    case ControllerDoes(act) => AfterController(s, act)
    case LooseDrop(e) => s.(drops := s.drops + multiset{e}, loose := s.loose - multiset{e})
    case LooseGone(e) => s.(loose := s.loose - multiset{e})
    case ForeignDrop(pid) => s.(drops := s.drops + multiset{DropEvent(pid, 0)})
  }

  // Desks

  predicate DeskMay(desk: Desk, act: DeskAct) {
    match act
    case AskForScan => desk.pc == Head && desk.pid == ""
    case CallWake => desk.pc == Asked
    case TakeResolved => desk.pc == Waiting && desk.resolved != []
    case KeepPeripheral => desk.pc == Head && desk.pid != ""
    case DrainOld => desk.pc == Draining
    case LinkUp => desk.pc == Connecting(false)
    case ConnectOk => desk.pc == Connecting(true)
    case ConnectFailed(_, spelling) => desk.pc.Connecting? && EqualFold(spelling, desk.pid)
    case SetupOk => desk.pc == SettingUp
    case SetupFailed => desk.pc == SettingUp
    case ServeDropped => desk.pc == Serving && desk.poked
    case HangUp(_, spelling) => desk.pc.Leaving? && EqualFold(spelling, desk.pid)
    case Settle => desk.pc.Settling?
    case LoseLink(spelling) => desk.link && EqualFold(spelling, desk.pid)
  }

  /** The switch after connectAndServe forgets the peripheral on the third failure in a row. */
  predicate Forgets(desk: Desk) {
    desk.pc == Settling(false) && desk.failures + 1 >= Backoff.FAILURES_BEFORE_RESCAN
  }

  function DeskAfter(desk: Desk, act: DeskAct, epoch: nat): Desk
    requires DeskMay(desk, act)
  {
    match act
    case AskForScan => desk.(pc := Asked, want := true)
    case CallWake => desk.(pc := Waiting)
    case TakeResolved => desk.(pc := Draining, pid := desk.resolved[0], resolved := desk.resolved[1..])
    case KeepPeripheral => desk.(pc := Draining)
    case DrainOld => desk.(pc := Connecting(false), poked := false)
    case LinkUp => desk.(pc := Connecting(true), link := true, conn := epoch + 1)
    case ConnectOk => desk.(pc := SettingUp)
    case ConnectFailed(_, _) => desk.(pc := Settling(false), link := false)
    case SetupOk => desk.(pc := Serving, failures := 0)
    case SetupFailed => desk.(pc := Leaving(false))
    case ServeDropped => desk.(pc := Leaving(true), poked := false)
    case HangUp(_, _) => desk.(pc := Settling(desk.pc.dropped), link := false)
    case Settle =>
      if desk.pc.dropped then desk.(pc := Head)
      else if Forgets(desk) then desk.(pc := Head, pid := "", failures := 0)
      else desk.(pc := Head, failures := desk.failures + 1)
    case LoseLink(_) => desk.(link := false)
  }

  /** A link that goes down is reported; so is a link closed with its session, if the library chooses to. */
  function DropsAfter(drops: multiset<DropEvent>, desk: Desk, act: DeskAct): multiset<DropEvent> {
    match act
    case HangUp(Announced, spelling) => drops + multiset{DropEvent(spelling, desk.conn)}
    case ConnectFailed(Announced, spelling) => if desk.link then drops + multiset{DropEvent(spelling, desk.conn)} else drops
    case LoseLink(spelling) => drops + multiset{DropEvent(spelling, desk.conn)}
    case _ => drops
  }

  /** A link that is up can be left up by a failed Disconnect, or by a Connect that fails after all. */
  function LooseAfter(loose: multiset<DropEvent>, desk: Desk, act: DeskAct): multiset<DropEvent> {
    match act
    case HangUp(LeftUp, spelling) => if desk.link then loose + multiset{DropEvent(spelling, desk.conn)} else loose
    case ConnectFailed(LeftUp, spelling) => if desk.link then loose + multiset{DropEvent(spelling, desk.conn)} else loose
    case _ => loose
  }

  function RoutesAfter(routes: map<string, nat>, desk: Desk, act: DeskAct): map<string, nat> {
    if act.Settle? && Forgets(desk) && desk.pid != "" then routes - {Upper(desk.pid)} else routes
  }

  function AfterDesk(s: State, d: nat, act: DeskAct): State
    requires d < |s.desks| && DeskMay(s.desks[d], act)
  {
    var desk := s.desks[d];
    s.(desks := s.desks[d := DeskAfter(desk, act, s.epoch)],
       scanWake := s.scanWake || act.CallWake?,
       epoch := if act.LinkUp? then s.epoch + 1 else s.epoch,
       drops := DropsAfter(s.drops, desk, act),
       loose := LooseAfter(s.loose, desk, act),
       routes := RoutesAfter(s.routes, desk, act))
  }

  // Event pump

  /** An advert is heard while the controller scans; one that comes late also without. */
  ghost predicate Hears(sys: System, s: State, adv: Advert) {
    adv in sys.world && (s.scanning || sys.late)
  }

  ghost predicate PumpMay(sys: System, s: State, act: PumpAct) {
    match act
    case Discover(adv) => s.pump == Idle && Hears(sys, s, adv)
    case Load => s.pump.Scanning?
    case Claim => s.pump.Claiming? && s.pump.i < |s.desks|
    case Route => s.pump.Routing?
    case Deliver => s.pump.HandingOver? && s.pump.i < |s.desks|
    case CallWakeAfterFind => s.pump == WakingAfterFind
    case PowerOn => s.pump == Idle
    case CallWakeOnPower => s.pump == WakingOnPower
    case TakeDrop(e) => s.pump == Idle && e in s.drops
    case LookUp => s.pump.LookingUp?
    case Poke => s.pump.Poking? && s.pump.i < |s.desks|
  }

  ghost function AfterPump(sys: System, s: State, act: PumpAct): State
    requires PumpMay(sys, s, act)
  {
    match act
    case Discover(adv) => s.(pump := Scanning(adv, 0))
    case Load =>
      var Scanning(adv, i) := s.pump;
      if i >= |s.desks| then s.(pump := Idle)
      else if s.desks[i].want && Matches(sys, i, adv) then s.(pump := Claiming(adv, i))
      else s.(pump := Scanning(adv, i + 1))
    case Claim =>
      var Claiming(adv, i) := s.pump;
      if s.desks[i].want then Touched(s, i, s.desks[i].(want := false), Routing(adv, i))
      else s.(pump := Scanning(adv, i + 1))
    case Route =>
      var Routing(adv, i) := s.pump;
      s.(pump := HandingOver(adv, i), routes := s.routes[Upper(adv.pid) := i])
    case Deliver =>
      var HandingOver(adv, i) := s.pump;
      Touched(s, i, Offered(s.desks[i], adv.pid), WakingAfterFind)
    case CallWakeAfterFind => s.(pump := Idle, scanWake := true)
    case PowerOn => s.(pump := WakingOnPower)
    case CallWakeOnPower => s.(pump := Idle, scanWake := true)
    case TakeDrop(e) => s.(pump := LookingUp(e), drops := s.drops - multiset{e})
    case LookUp =>
      var LookingUp(e) := s.pump;
      s.(pump := if Upper(e.pid) in s.routes then Poking(s.routes[Upper(e.pid)], e.stamp) else Idle)
    case Poke =>
      var Poking(i, _) := s.pump;
      Touched(s, i, s.desks[i].(poked := true), Idle)
  }

  function Touched(s: State, i: nat, desk: Desk, pump: Pump): State
    requires i < |s.desks|
  {
    s.(desks := s.desks[i := desk], pump := pump)
  }

  /** A non-blocking send on resolved: a full channel drops the identifier. */
  function Offered(desk: Desk, pid: Pid): Desk {
    if desk.resolved == [] then desk.(resolved := [pid]) else desk
  }

  // Scan controller

  predicate ControllerMay(s: State, act: ControllerAct) {
    match act
    case TakeWake => s.ctl == Parked && s.scanWake
    case Tick => s.ctl == Parked
    case Read => s.ctl.Reading?
    case Decide(_) => s.ctl.Deciding?
  }

  function AfterController(s: State, act: ControllerAct): State
    requires ControllerMay(s, act)
  {
    match act
    case TakeWake => s.(ctl := Reading(0), scanWake := false)
    case Tick => s.(ctl := Reading(0))
    case Read =>
      var Reading(i) := s.ctl;
      s.(ctl := if i >= |s.desks| then Deciding(false) else if s.desks[i].want then Deciding(true) else Reading(i + 1))
    case Decide(started) =>
      var Deciding(need) := s.ctl;
      if need && !s.scanning then s.(ctl := Parked, scanning := started, startFailed := !started)
      else s.(ctl := Parked, scanning := need, startFailed := false)
  }

  lemma ControllerTouches(s: State, act: ControllerAct)
    requires ControllerMay(s, act)
    ensures var t := AfterController(s, act);
            && t.desks == s.desks && t.pump == s.pump && t.routes == s.routes && t.epoch == s.epoch
            && t.drops == s.drops && t.loose == s.loose
  {
  }

  /** The controller's and the environment's own steps leave desks, pump and routes alone. */
  lemma ElsewhereTouches(sys: System, s: State, step: Step)
    requires Enabled(sys, s, step) && !step.DeskDoes? && !step.PumpDoes?
    ensures var t := Apply(sys, s, step);
            t.desks == s.desks && t.pump == s.pump && t.routes == s.routes && t.epoch == s.epoch
  {
    match step
    case ControllerDoes(act) => ControllerTouches(s, act);
    case _ =>
  }

  function Foreign(step: Step): multiset<DropEvent> {
    if step.ForeignDrop? then multiset{DropEvent(step.pid, 0)} else multiset{}
  }

  /** From s to t nothing was queued but what a loose link caused, or something about no connection of ours. */
  predicate QueuesOnly(s: State, t: State, foreign: multiset<DropEvent>) {
    && s.drops <= t.drops && t.loose <= s.loose
    && t.drops <= s.drops + s.loose + foreign
  }

  lemma ElsewhereQueues(sys: System, s: State, step: Step)
    requires Enabled(sys, s, step) && !step.DeskDoes? && !step.PumpDoes?
    ensures QueuesOnly(s, Apply(sys, s, step), Foreign(step))
  {
    match step
    case ControllerDoes(act) => ControllerTouches(s, act);
    case LooseDrop(e) => LooseDropQueues(s, e);
    case LooseGone(_) =>
    case ForeignDrop(_) =>
  }

  lemma LooseDropQueues(s: State, e: DropEvent)
    requires e in s.loose
    ensures QueuesOnly(s, s.(drops := s.drops + multiset{e}, loose := s.loose - multiset{e}), multiset{})
  {
  }

  // Runs

  ghost predicate Next(sys: System, s: State, t: State) {
    exists step :: Enabled(sys, s, step) && t == Apply(sys, s, step)
  }

  ghost predicate NextAt(sys: System, run: seq<State>, i: int)
    requires 0 < i < |run|
  {
    Next(sys, run[i - 1], run[i])
  }

  /** The states a sequence of enabled steps goes through. */
  ghost predicate IsPath(sys: System, run: seq<State>) {
    run != [] && forall i :: 0 < i < |run| ==> NextAt(sys, run, i)
  }

  ghost predicate IsRun(sys: System, run: seq<State>) {
    IsPath(sys, run) && run[0] == Init(sys)
  }

  lemma NextIn(sys: System, run: seq<State>, i: int)
    requires IsPath(sys, run) && 0 < i < |run|
    ensures Next(sys, run[i - 1], run[i])
  {
    assert NextAt(sys, run, i);
  }

  /** t can be reached from s. */
  ghost predicate Leads(sys: System, s: State, t: State) {
    exists run :: IsPath(sys, run) && run[0] == s && run[|run| - 1] == t
  }

  ghost predicate Reachable(sys: System, s: State) {
    Leads(sys, Init(sys), s)
  }

  lemma LeadsNowhere(sys: System, s: State)
    ensures Leads(sys, s, s)
  {
    assert IsPath(sys, [s]);
  }

  lemma NextLeads(sys: System, s0: State, s: State, t: State)
    requires Leads(sys, s0, s) && Next(sys, s, t)
    ensures Leads(sys, s0, t)
  {
    var run :| IsPath(sys, run) && run[0] == s0 && run[|run| - 1] == s;
    var longer := run + [t];
    forall i | 0 < i < |longer|
      ensures NextAt(sys, longer, i)
    {
      if i < |run| { assert NextAt(sys, run, i) && longer[i - 1] == run[i - 1] && longer[i] == run[i]; }
    }
    assert IsPath(sys, longer) && longer[0] == s0;
  }

  lemma StepLeads(sys: System, s0: State, s: State, step: Step)
    requires Leads(sys, s0, s) && Enabled(sys, s, step)
    ensures Leads(sys, s0, Apply(sys, s, step))
  {
    NextLeads(sys, s0, s, Apply(sys, s, step));
  }

  lemma InitReaches(sys: System)
    ensures Reachable(sys, Init(sys))
  {
    LeadsNowhere(sys, Init(sys));
  }

  lemma StepReaches(sys: System, s: State, step: Step)
    requires Reachable(sys, s) && Enabled(sys, s, step)
    ensures Reachable(sys, Apply(sys, s, step))
  {
    StepLeads(sys, Init(sys), s, step);
  }

  lemma NextReaches(sys: System, s: State, t: State)
    requires Reachable(sys, s) && Next(sys, s, t)
    ensures Reachable(sys, t)
  {
    NextLeads(sys, Init(sys), s, t);
  }

  // Invariants

  lemma {:induction false} InvariantAlong(sys: System, P: State -> bool, run: seq<State>, i: nat)
    requires IsPath(sys, run) && i < |run| && P(run[0])
    requires forall s, t :: P(s) && Next(sys, s, t) ==> P(t)
    ensures P(run[i])
    decreases i
  {
    if i > 0 {
      InvariantAlong(sys, P, run, i - 1);
      NextIn(sys, run, i);
    }
  }

  /** What no step loses is never lost. */
  lemma InvariantFrom(sys: System, P: State -> bool, s: State, t: State)
    requires P(s) && Leads(sys, s, t)
    requires forall u, v :: P(u) && Next(sys, u, v) ==> P(v)
    ensures P(t)
  {
    var run :| IsPath(sys, run) && run[0] == s && run[|run| - 1] == t;
    InvariantAlong(sys, P, run, |run| - 1);
  }

  /** The initial state has P, and no step from a reachable state loses it. */
  ghost predicate Inductive(sys: System, P: State -> bool) {
    P(Init(sys)) && forall s, t :: Reachable(sys, s) && P(s) && Next(sys, s, t) ==> P(t)
  }

  lemma Invariant(sys: System, P: State -> bool, s: State)
    requires Inductive(sys, P) && Reachable(sys, s)
    ensures P(s)
  {
    var Q := u => Reachable(sys, u) && P(u);
    InitReaches(sys);
    forall u, v | Q(u) && Next(sys, u, v)
      ensures Q(v)
    {
      NextReaches(sys, u, v);
    }
    InvariantFrom(sys, Q, Init(sys), s);
  }

  lemma LeadsReaches(sys: System, s: State, t: State)
    requires Reachable(sys, s) && Leads(sys, s, t)
    ensures Reachable(sys, t)
  {
    var Q := u => Reachable(sys, u);
    forall u, v | Q(u) && Next(sys, u, v)
      ensures Q(v)
    {
      NextReaches(sys, u, v);
    }
    InvariantFrom(sys, Q, s, t);
  }
}
