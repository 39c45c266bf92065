/**
 mqttc's connection loop, its connect and connection-lost handlers, and Subscribe, as processes that
 interleave. The paho client is the environment: a connection opens before its connect handler is
 started, and every handler runs in a goroutine of its own, so one can outlive its session.
 */
module MqttSession {

  datatype RunPc =
    | Draining                  // about to drain lost
    | Connecting(up: bool)      // inside connectOnce; up once the connection has opened
    | Waiting                   // blocked on lost
    | Sleeping                  // backing off

  /** A connect handler: about to copy subs, working through the first n of them, or finished. */
  datatype HandlerPc = Started | Copied(n: nat, i: nat) | Finished

  datatype Handler = Handler(session: nat, pc: HandlerPc)

  /** A Subscribe call: appended to subs, found the connection open, or returned. Call x appended subs[x]. */
  datatype CallPc = Appended | FoundOpen | Returned

  datatype State = State(
    run: RunPc,
    lost: bool,                  // the channel of capacity 1
    session: nat,                // number of the last connection made
    open: bool,
    reports: multiset<nat>,      // connection-lost handlers that have not run, by session
    subs: seq<string>,
    calls: seq<CallPc>,
    handlers: seq<Handler>,
    requested: set<nat>)         // indices into subs subscribed to in the current session

  datatype Step =
    | DrainLost | Open | ConnectOk | ConnectFailed | WakeUp | TakeLost
    | LoseConnection | ReportLoss(k: nat)
    | CopySubs(j: nat) | Resubscribe(j: nat)
    | Append(filter: string) | CheckOpen(x: nat) | Issue(x: nat)

  const START := State.State(Draining, false, 0, false, multiset{}, [], [], [], {})

  predicate Enabled(s: State, step: Step) {
    match step
    case DrainLost => s.run == Draining
    case Open => s.run == Connecting(false) && !s.open
    case ConnectOk => s.run == Connecting(true)
    case ConnectFailed => s.run.Connecting?
    case WakeUp => s.run == Sleeping
    case TakeLost => s.run == Waiting && s.lost
    case LoseConnection => s.open
    case ReportLoss(k) => k in s.reports
    case CopySubs(j) => j < |s.handlers| && s.handlers[j].pc == Started
    case Resubscribe(j) => j < |s.handlers| && s.handlers[j].pc.Copied?
    case Append(_) => true
    case CheckOpen(x) => x < |s.calls| && s.calls[x] == Appended
    case Issue(x) => x < |s.calls| && s.calls[x] == FoundOpen
  }

  /** subscribeOne: goes out on whichever connection is open, and nowhere if none is. */
  function Requested(s: State, x: nat): State {
    if s.open then s.(requested := s.requested + {x}) else s
  }

  function SetHandler(s: State, j: nat, pc: HandlerPc): State
    requires j < |s.handlers|
  {
    s.(handlers := s.handlers[j := s.handlers[j].(pc := pc)])
  }

  function Apply(s: State, step: Step): State
    requires Enabled(s, step)
  {
    match step
    case DrainLost => s.(run := Connecting(false), lost := false)
    case Open =>
      s.(run := Connecting(true), open := true, session := s.session + 1, requested := {},
         handlers := s.handlers + [Handler(s.session + 1, Started)])
    case ConnectOk => s.(run := Waiting)
    case ConnectFailed => s.(run := Sleeping)
    case WakeUp => s.(run := Draining)
    case TakeLost => s.(run := Draining, lost := false)
    case LoseConnection => s.(open := false, reports := s.reports + multiset{s.session})
    case ReportLoss(k) => s.(lost := true, reports := s.reports - multiset{k})
    case CopySubs(j) => SetHandler(s, j, Copied(|s.subs|, 0))
    case Resubscribe(j) =>
      var Copied(n, i) := s.handlers[j].pc;
      if i >= n then SetHandler(s, j, Finished) else Requested(SetHandler(s, j, Copied(n, i + 1)), i)
    case Append(filter) => s.(subs := s.subs + [filter], calls := s.calls + [Appended])
    case CheckOpen(x) => s.(calls := s.calls[x := if s.open then FoundOpen else Returned])
    case Issue(x) => Requested(s.(calls := s.calls[x := Returned]), x)
  }

  predicate IsRun(s: State, steps: seq<Step>)
    decreases |steps|
  {
    steps == [] || (Enabled(s, steps[0]) && IsRun(Apply(s, steps[0]), steps[1..]))
  }

  function Exec(s: State, steps: seq<Step>): State
    requires IsRun(s, steps)
    decreases |steps|
  {
    if steps == [] then s else Exec(Apply(s, steps[0]), steps[1..])
  }

  // Every subscription in every session

  /** Handler j belongs to the open session and will still get to subs[x]. */
  predicate WillReach(s: State, j: nat, x: nat) {
    j < |s.handlers| && s.handlers[j].session == s.session
    && (s.handlers[j].pc == Started || (s.handlers[j].pc.Copied? && s.handlers[j].pc.i <= x < s.handlers[j].pc.n))
  }

  /** subs[x] has been requested in this session, or somebody is certain to request it. */
  ghost predicate Covered(s: State, x: nat)
    requires x < |s.calls|
  {
    x in s.requested || s.calls[x] != Returned || exists j: nat :: WillReach(s, j, x)
  }

  ghost predicate SubsInv(s: State) {
    && |s.calls| == |s.subs|
    && (s.open ==> forall x: nat :: x < |s.calls| ==> Covered(s, x))
  }

  /** A handler that will reach subs[x] still will, or has just requested it. */
  lemma ReachStep(s: State, step: Step, j: nat, x: nat)
    requires |s.calls| == |s.subs| && Enabled(s, step) && s.open && Apply(s, step).open
    requires x < |s.calls| && WillReach(s, j, x)
    ensures WillReach(Apply(s, step), j, x) || x in Apply(s, step).requested
  {
  }

  lemma CoveredStep(s: State, step: Step, x: nat)
    requires |s.calls| == |s.subs| && Enabled(s, step) && Apply(s, step).open && x < |s.calls|
    requires s.open ==> Covered(s, x)
    ensures x < |Apply(s, step).calls| && Covered(Apply(s, step), x)
  {
    if step.Open? {
      assert WillReach(Apply(s, step), |s.handlers|, x);
    } else if j: nat :| WillReach(s, j, x) {
      ReachStep(s, step, j, x);
    } else {
      CallStep(s, step, x);
    }
  }

  /** A request stays made within the session, and a call that has not returned is still to issue or has issued. */
  lemma CallStep(s: State, step: Step, x: nat)
    requires |s.calls| == |s.subs| && Enabled(s, step) && s.open && Apply(s, step).open && !step.Open? && x < |s.calls|
    requires x in s.requested || s.calls[x] != Returned
    ensures x < |Apply(s, step).calls| && (x in Apply(s, step).requested || Apply(s, step).calls[x] != Returned)
  {
  }

  lemma {:induction false} SubsRun(s: State, steps: seq<Step>)
    requires SubsInv(s) && IsRun(s, steps)
    ensures SubsInv(Exec(s, steps))
    decreases |steps|
  {
    if steps != [] {
      var t := Apply(s, steps[0]);
      forall x: nat | t.open && x < |t.calls|
        ensures Covered(t, x)
      {
        if x < |s.calls| { CoveredStep(s, steps[0], x); }
      }
      SubsRun(t, steps[1..]);
    }
  }

  /**
   However Subscribe calls interleave with connects and drops, once the open session's connect
   handler has finished and every Subscribe call has returned, every remembered filter has been
   requested in that session.
   */
  lemma EverySubscriptionInEverySession(steps: seq<Step>, x: nat)
    requires IsRun(START, steps)
    ensures var s := Exec(START, steps);
            (&& s.open && x < |s.subs|
             && (forall j :: 0 <= j < |s.handlers| && s.handlers[j].session == s.session ==> s.handlers[j].pc == Finished)
             && (forall y :: 0 <= y < |s.calls| ==> s.calls[y] == Returned))
            ==> x in s.requested
  {
    SubsRun(START, steps);
    var s := Exec(START, steps);
    assert |s.calls| == |s.subs|;
    if s.open && x < |s.subs| { assert Covered(s, x); }
  }

  // No missed loss

  /** The loop believes in a connection that is gone: then it has been told, or is about to be. */
  predicate LossInv(s: State) {
    (s.run == Connecting(true) || s.run == Waiting) && !s.open ==> s.lost || s.session in s.reports
  }

  lemma {:induction false} LossRun(s: State, steps: seq<Step>)
    requires LossInv(s) && IsRun(s, steps)
    ensures LossInv(Exec(s, steps))
    decreases |steps|
  {
    if steps != [] {
      assert LossInv(Apply(s, steps[0]));
      LossRun(Apply(s, steps[0]), steps[1..]);
    }
  }

  /** A loop blocked on a lost connection whose handler has run cannot stay blocked. */
  lemma NoMissedLoss(steps: seq<Step>)
    requires IsRun(START, steps)
    ensures var s := Exec(START, steps);
            s.run == Waiting && !s.open && s.session !in s.reports ==> s.lost && Enabled(s, TakeLost)
  {
    LossRun(START, steps);
  }

  lemma {:induction false} UntoldRun(s: State, steps: seq<Step>)
    requires IsRun(s, steps) && !s.lost && forall k :: 0 <= k < |steps| ==> !steps[k].ReportLoss?
    ensures !Exec(s, steps).lost
    decreases |steps|
  {
    if steps != [] {
      assert !steps[0].ReportLoss?;
      UntoldRun(Apply(s, steps[0]), steps[1..]);
    }
  }

  /**
   What the drain is for: whatever was reported before, the loop finds lost full only if it is
   reported since its own drain.
   */
  lemma LossIsToldSinceDrain(s: State, steps: seq<Step>)
    requires s.run == Draining && IsRun(Apply(s, DrainLost), steps)
    requires Exec(Apply(s, DrainLost), steps).lost
    ensures exists k :: 0 <= k < |steps| && steps[k].ReportLoss?
  {
    if forall k :: 0 <= k < |steps| ==> !steps[k].ReportLoss? { UntoldRun(Apply(s, DrainLost), steps); }
  }

  // The loop never gets stuck

  ghost predicate Leads(s: State, t: State) {
    exists steps :: IsRun(s, steps) && Exec(s, steps) == t
  }

  lemma StepLeads(s: State, step: Step, t: State)
    requires Enabled(s, step) && Leads(Apply(s, step), t)
    ensures Leads(s, t)
  {
    var rest :| IsRun(Apply(s, step), rest) && Exec(Apply(s, step), rest) == t;
    assert ([step] + rest)[1..] == rest;
    assert IsRun(s, [step] + rest) && Exec(s, [step] + rest) == t;
  }

  /** Waiting on a connection that is open. */
  predicate Up(s: State) {
    s.run == Waiting && s.open
  }

  lemma OpensFromConnecting(s: State) returns (t: State)
    requires s.run == Connecting(false)
    ensures Leads(s, t) && Up(t)
  {
    var closed := if s.open then Apply(s, LoseConnection) else s;
    var opening := Apply(closed, Open);
    t := Apply(opening, ConnectOk);
    assert IsRun(t, []) && Exec(t, []) == t;
    StepLeads(opening, ConnectOk, t);
    StepLeads(closed, Open, t);
    if s.open { StepLeads(s, LoseConnection, t); }
  }

  lemma OpensFromDraining(s: State) returns (t: State)
    requires s.run == Draining
    ensures Leads(s, t) && Up(t)
  {
    t := OpensFromConnecting(Apply(s, DrainLost));
    StepLeads(s, DrainLost, t);
  }

  lemma OpensFromLost(s: State) returns (t: State)
    requires s.run == Waiting && s.lost
    ensures Leads(s, t) && Up(t)
  {
    t := OpensFromDraining(Apply(s, TakeLost));
    StepLeads(s, TakeLost, t);
  }

  lemma OpensFromWaiting(s: State) returns (t: State)
    requires LossInv(s) && s.run == Waiting
    ensures Leads(s, t) && Up(t)
  {
    if s.open {
      t := s;
      assert IsRun(s, []) && Exec(s, []) == s;
    } else if s.lost {
      t := OpensFromLost(s);
    } else {
      t := OpensFromLost(Apply(s, ReportLoss(s.session)));
      StepLeads(s, ReportLoss(s.session), t);
    }
  }

  /** From every reachable state the loop can still get back to waiting on an open connection. */
  lemma CanReconnect(steps: seq<Step>) returns (t: State)
    requires IsRun(START, steps)
    ensures Leads(Exec(START, steps), t) && Up(t)
  {
    LossRun(START, steps);
    var s := Exec(START, steps);
    match s.run
    case Draining => t := OpensFromDraining(s);
    case Connecting(up) =>
      if up {
        t := OpensFromWaiting(Apply(s, ConnectOk));
        StepLeads(s, ConnectOk, t);
      } else {
        t := OpensFromConnecting(s);
      }
    case Waiting => t := OpensFromWaiting(s);
    case Sleeping =>
      t := OpensFromDraining(Apply(s, WakeUp));
      StepLeads(s, WakeUp, t);
  }
}
