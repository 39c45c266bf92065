/**
 The command queue with submit taken apart: the callback checks online first and sends on the
 channel later, and nothing drains the channel when a session ends. Callbacks run concurrently.
 */
module Commands {
  import opened Options
  import opened Topics
  import opened Serving

  /** A command that passed submit's checks, the session at the time, and whether the desk was online in it. */
  datatype Vetted = Vetted(cmd: Command, session: nat, online: bool)

  /** Between setOnline(true) and setOnline(false) the select loop runs only in the middle. */
  datatype Phase = Off | Opening | InLoop | Closing

  datatype State = State(
    phase: Phase,
    session: nat,
    checked: multiset<Vetted>,     // submits that have checked but not yet sent
    queue: seq<Vetted>,
    accepted: seq<Vetted>,         // in the order they were queued
    applied: seq<Vetted>)

  datatype Step =
    | Check(kind: Kind, payload: string, decoded: Option<map<string, string>>)
    | Enqueue(v: Vetted)
    | ComeOnline | StartLoop | EndLoop | GoOffline
    | TakeNext                     // the serve loop receives and applies

  const START := State.State(Off, 0, multiset{}, [], [], [])

  predicate Online(s: State) {
    !s.phase.Off?
  }

  predicate Enabled(s: State, step: Step) {
    match step
    case Check(_, _, _) => true
    case Enqueue(v) => v in s.checked
    case ComeOnline => s.phase == Off
    case StartLoop => s.phase == Opening
    case EndLoop => s.phase == InLoop
    case GoOffline => s.phase == Closing
    case TakeNext => s.phase == InLoop && s.queue != []
  }

  function Apply(s: State, step: Step): State
    requires Enabled(s, step)
  {
    match step
    case Check(kind, payload, decoded) =>
      var value := ParseTenthsMM(payload, decoded);
      if value.Err? || !Online(s) then s
      else s.(checked := s.checked + multiset{Vetted(Command(kind, value.value), s.session, Online(s))})
    case Enqueue(v) =>
      var t := s.(checked := s.checked - multiset{v});
      if |s.queue| < QUEUE_CAPACITY then t.(queue := s.queue + [v], accepted := s.accepted + [v]) else t
    case ComeOnline => s.(phase := Opening, session := s.session + 1)
    case StartLoop => s.(phase := InLoop)
    case EndLoop => s.(phase := Closing)
    case GoOffline => s.(phase := Off)
    case TakeNext => s.(queue := s.queue[1..], applied := s.applied + [s.queue[0]])
  }

  predicate IsRun(s: State, steps: seq<Step>)
    decreases |steps|
  {
    steps == [] || (Enabled(s, steps[0]) && IsRun(Apply(s, steps[0]), steps[1..]))
  }

  function Exec(s: State, steps: seq<Step>): State
    requires IsRun(s, steps)
    decreases |steps|
  {
    if steps == [] then s else Exec(Apply(s, steps[0]), steps[1..])
  }

  /** In range for the desk, and checked while online, in some session up to now. */
  predicate Sound(s: State, v: Vetted) {
    0 <= v.cmd.value <= MAX_TENTHS_MM && v.online && 1 <= v.session <= s.session
  }

  ghost predicate Inv(s: State) {
    && s.accepted == s.applied + s.queue
    && |s.queue| <= QUEUE_CAPACITY
    && (Online(s) ==> s.session > 0)
    && (forall v <- s.checked :: Sound(s, v))
    && (forall v <- s.accepted :: Sound(s, v))
  }

  lemma EnqueueStep(s: State, v: Vetted)
    requires Inv(s) && v in s.checked
    ensures Inv(Apply(s, Enqueue(v)))
  {
    var t := Apply(s, Enqueue(v));
    assert s.applied + (s.queue + [v]) == s.accepted + [v];
    forall w <- t.accepted
      ensures Sound(s, w)
    {
      assert w in s.accepted || w == v;
    }
  }

  lemma TakeStep(s: State)
    requires Inv(s) && s.queue != []
    ensures s.accepted == s.applied + [s.queue[0]] + s.queue[1..]
  {
  }

  lemma QueueStep(s: State, step: Step)
    requires Inv(s) && Enabled(s, step)
    ensures Inv(Apply(s, step))
  {
    match step
    case Enqueue(v) => EnqueueStep(s, v);
    case TakeNext => TakeStep(s);
    case ComeOnline => assert forall v :: Sound(s, v) ==> Sound(Apply(s, step), v);
    case _ =>
  }

  lemma {:induction false} QueueRun(s: State, steps: seq<Step>)
    requires Inv(s) && IsRun(s, steps)
    ensures Inv(Exec(s, steps))
    decreases |steps|
  {
    if steps != [] {
      QueueStep(s, steps[0]);
      QueueRun(Apply(s, steps[0]), steps[1..]);
    }
  }

  /**
   Commands are conserved over every interleaving of callbacks, drops and reconnects: applied and
   then queued ones are the accepted ones in order, the queue never exceeds its capacity, and every
   value that reaches the desk fits it and passed an online check.
   */
  lemma CommandsAreConserved(steps: seq<Step>)
    requires IsRun(START, steps)
    ensures var s := Exec(START, steps);
            && s.accepted == s.applied + s.queue && |s.queue| <= QUEUE_CAPACITY
            && (forall v <- s.applied :: 0 <= v.cmd.value <= MAX_TENTHS_MM && v.online && 1 <= v.session <= s.session)
  {
    QueueRun(START, steps);
    var s := Exec(START, steps);
    forall v <- s.applied
      ensures Sound(s, v)
    {
      assert v in s.accepted;
    }
  }

  /** The command that passes its check in this step: a height, for a desk that is online. */
  function PassedIn(s: State, step: Step): multiset<Vetted> {
    if step.Check? && s.phase != Off && ParseTenthsMM(step.payload, step.decoded).Ok? then
      multiset{Vetted(Command(step.kind, ParseTenthsMM(step.payload, step.decoded).value), s.session, true)}
    else multiset{}
  }

  /** The command that is dropped in this step, because eight are waiting. */
  function DroppedIn(s: State, step: Step): multiset<Vetted> {
    if step.Enqueue? && |s.queue| >= 8 then multiset{step.v} else multiset{}
  }

  function PassedAlong(s: State, steps: seq<Step>): multiset<Vetted>
    requires IsRun(s, steps)
    decreases |steps|
  {
    if steps == [] then multiset{} else PassedIn(s, steps[0]) + PassedAlong(Apply(s, steps[0]), steps[1..])
  }

  function DroppedAlong(s: State, steps: seq<Step>): multiset<Vetted>
    requires IsRun(s, steps)
    decreases |steps|
  {
    if steps == [] then multiset{} else DroppedIn(s, steps[0]) + DroppedAlong(Apply(s, steps[0]), steps[1..])
  }

  /** Every command that has passed its check and not been dropped. */
  function Account(s: State): multiset<Vetted> {
    multiset(s.accepted) + s.checked
  }

  lemma NoneLostStep(s: State, step: Step)
    requires Enabled(s, step)
    ensures Account(Apply(s, step)) + DroppedIn(s, step) == Account(s) + PassedIn(s, step)
  {
  }

  lemma BalancesAdd<X>(a: multiset<X>, b: multiset<X>, c: multiset<X>,
                       in1: multiset<X>, out1: multiset<X>, in2: multiset<X>, out2: multiset<X>)
    requires b + out1 == a + in1 && c + out2 == b + in2
    ensures c + (out1 + out2) == a + (in1 + in2)
  {
    assert c + (out1 + out2) == (c + out2) + out1 == (b + in2) + out1 == (b + out1) + in2 == a + (in1 + in2);
  }

  lemma {:induction false} NoneLostAlong(s: State, steps: seq<Step>)
    requires IsRun(s, steps)
    ensures var t := Exec(s, steps);
            Account(t) + DroppedAlong(s, steps) == Account(s) + PassedAlong(s, steps)
    decreases |steps|
  {
    if steps != [] {
      var next, t := Apply(s, steps[0]), Exec(s, steps);
      NoneLostStep(s, steps[0]);
      NoneLostAlong(next, steps[1..]);
      BalancesAdd(Account(s), Account(next), Account(t), PassedIn(s, steps[0]), DroppedIn(s, steps[0]),
                  PassedAlong(next, steps[1..]), DroppedAlong(next, steps[1..]));
    }
  }

  /**
   In every run the commands that passed their check are those applied, those queued, those still to be
   sent, and those that met a full queue.
   */
  lemma NoneLostButAtAFullQueue(steps: seq<Step>)
    requires IsRun(START, steps)
    ensures var s := Exec(START, steps);
            PassedAlong(START, steps) == multiset(s.applied) + multiset(s.queue) + s.checked + DroppedAlong(START, steps)
    ensures |Exec(START, steps).queue| <= 8
  {
    NoneLostAlong(START, steps);
    QueueRun(START, steps);
    var s := Exec(START, steps);
    assert multiset(s.accepted) == multiset(s.applied) + multiset(s.queue);
  }

  /** t can be reached from s. */
  ghost predicate Leads(s: State, t: State) {
    exists steps :: IsRun(s, steps) && Exec(s, steps) == t
  }

  lemma LeadsNowhere(s: State)
    ensures Leads(s, s)
  {
    assert IsRun(s, []) && Exec(s, []) == s;
  }

  lemma StepLeads(s: State, step: Step, t: State)
    requires Enabled(s, step) && Leads(Apply(s, step), t)
    ensures Leads(s, t)
  {
    var rest :| IsRun(Apply(s, step), rest) && Exec(Apply(s, step), rest) == t;
    Prepend(s, step, rest);
  }

  /** The next session, in its select loop. */
  function Begun(s: State): State {
    s.(phase := InLoop, session := s.session + 1)
  }

  function Queued(s: State, v: Vetted): State {
    s.(checked := s.checked - multiset{v}, queue := s.queue + [v], accepted := s.accepted + [v])
  }

  function Taken(s: State): State
    requires s.queue != []
  {
    s.(queue := s.queue[1..], applied := s.applied + [s.queue[0]])
  }

  // One step at a time, each with the state it leads to spelled out

  lemma BeginLeads(s: State, t: State)
    requires s.phase == Off && Leads(Begun(s), t)
    ensures Leads(s, t)
  {
    StepLeads(s.(phase := Opening, session := s.session + 1), StartLoop, t);
    StepLeads(s, ComeOnline, t);
  }

  lemma EndLeads(s: State, t: State)
    requires s.phase == InLoop && Leads(s.(phase := Off), t)
    ensures Leads(s, t)
  {
    StepLeads(s.(phase := Closing), GoOffline, t);
    StepLeads(s, EndLoop, t);
  }

  lemma EnqueueLeads(s: State, v: Vetted, t: State)
    requires v in s.checked && |s.queue| < QUEUE_CAPACITY && Leads(Queued(s, v), t)
    ensures Leads(s, t)
  {
    StepLeads(s, Enqueue(v), t);
  }

  lemma TakeLeads(s: State, t: State)
    requires s.phase == InLoop && s.queue != [] && Leads(Taken(s), t)
    ensures Leads(s, t)
  {
    StepLeads(s, TakeNext, t);
  }

  lemma CheckLeads(s: State, kind: Kind, payload: string, decoded: Option<map<string, string>>, value: int, t: State)
    requires Online(s) && ParseTenthsMM(payload, decoded) == Ok(value)
    requires Leads(s.(checked := s.checked + multiset{Vetted(Command(kind, value), s.session, true)}), t)
    ensures Leads(s, t)
  {
    StepLeads(s, Check(kind, payload, decoded), t);
  }

  /** The next session, with v queued and applied. */
  function Outlasted(s: State, v: Vetted): State {
    s.(session := s.session + 1, checked := s.checked - multiset{v},
       accepted := s.accepted + [v], applied := s.applied + [v])
  }

  lemma TakenIsOutlasted(s: State, v: Vetted)
    requires s.phase == InLoop && s.queue == []
    ensures Queued(s, v).queue == [v]
    ensures Taken(Begun(Queued(s, v).(phase := Off))) == Outlasted(s, v)
  {
  }

  /** A command that has passed its check can be queued, outlast the session, and be applied in the next. */
  lemma CheckedCommandCanOutlast(s: State, v: Vetted)
    requires s.phase == InLoop && s.queue == [] && v in s.checked
    ensures Leads(s, Outlasted(s, v))
  {
    var t := Outlasted(s, v);
    var queued := Queued(s, v);
    var offline := queued.(phase := Off);
    TakenIsOutlasted(s, v);
    LeadsNowhere(t);
    TakeLeads(Begun(offline), t);
    BeginLeads(offline, t);
    EndLeads(queued, t);
    EnqueueLeads(s, v, t);
  }

  /** The next session, with a command checked in it. */
  function NextChecked(s: State, cmd: Command): State {
    Begun(s).(checked := s.checked + multiset{Vetted(cmd, s.session + 1, true)})
  }

  lemma NextCheckLeads(s: State, kind: Kind, payload: string, decoded: Option<map<string, string>>, value: int,
                       t: State)
    requires s.phase == Off && ParseTenthsMM(payload, decoded) == Ok(value)
    requires Leads(NextChecked(s, Command(kind, value)), t)
    ensures Leads(s, t)
  {
    CheckLeads(Begun(s), kind, payload, decoded, value, t);
    BeginLeads(s, t);
  }

  lemma NextCheckedCanOutlast(s: State, cmd: Command) returns (t: State)
    requires s.phase == Off && s.queue == []
    ensures Leads(NextChecked(s, cmd), t) && t.session == s.session + 2
    ensures t.applied == s.applied + [Vetted(cmd, s.session + 1, true)]
  {
    var v := Vetted(cmd, s.session + 1, true);
    CheckedCommandCanOutlast(NextChecked(s, cmd), v);
    t := Outlasted(NextChecked(s, cmd), v);
  }

  /**
   An accepted command outlives its session. From any state between sessions with an empty queue,
   a command checked in the next session can be applied in the one after it.
   */
  lemma CommandCanOutliveItsSession(s: State, kind: Kind, payload: string, decoded: Option<map<string, string>>, value: int)
    returns (t: State)
    requires s.phase == Off && s.queue == [] && ParseTenthsMM(payload, decoded) == Ok(value)
    ensures Leads(s, t) && t.session == s.session + 2
    ensures t.applied == s.applied + [Vetted(Command(kind, value), s.session + 1, true)]
  {
    t := NextCheckedCanOutlast(s, Command(kind, value));
    NextCheckLeads(s, kind, payload, decoded, value, t);
  }

  lemma Before(s: State, step: Step, rest: seq<Step>) returns (steps: seq<Step>)
    requires Enabled(s, step) && IsRun(Apply(s, step), rest)
    ensures IsRun(s, steps) && Exec(s, steps) == Exec(Apply(s, step), rest)
  {
    steps := [step] + rest;
    Prepend(s, step, rest);
  }

  lemma Prepend(s: State, step: Step, rest: seq<Step>)
    requires Enabled(s, step) && IsRun(Apply(s, step), rest)
    ensures IsRun(s, [step] + rest) && Exec(s, [step] + rest) == Exec(Apply(s, step), rest)
  {
    assert ([step] + rest)[1..] == rest;
  }

  // Exactly when a session applies only commands checked in it

  /** Everything queued, or checked and about to be, belongs to the current session. */
  predicate NothingOld(s: State) {
    && (forall v <- s.queue :: v.session == s.session)
    && (forall v <- s.checked :: v.session == s.session)
  }

  predicate StaysInSession(steps: seq<Step>) {
    forall k :: 0 <= k < |steps| ==> !steps[k].ComeOnline? && !steps[k].GoOffline?
  }

  /** Whatever t applied after s was checked in the session s is in. */
  predicate AppliesOnlyOwn(s: State, t: State) {
    |s.applied| <= |t.applied| && forall i :: |s.applied| <= i < |t.applied| ==> t.applied[i].session == s.session
  }

  lemma NothingOldStep(s: State, step: Step)
    requires NothingOld(s) && Enabled(s, step) && !step.ComeOnline? && !step.GoOffline?
    ensures var t := Apply(s, step); NothingOld(t) && t.session == s.session && AppliesOnlyOwn(s, t)
  {
  }

  lemma {:induction false} NothingOldRun(s: State, steps: seq<Step>)
    requires NothingOld(s) && IsRun(s, steps) && StaysInSession(steps)
    ensures AppliesOnlyOwn(s, Exec(s, steps))
    decreases |steps|
  {
    if steps != [] {
      assert !steps[0].ComeOnline? && !steps[0].GoOffline?;
      NothingOldStep(s, steps[0]);
      AppliedGrows(s, steps[0]);
      NothingOldRun(Apply(s, steps[0]), steps[1..]);
      AppliedOnlyGrows(Apply(s, steps[0]), steps[1..]);
    }
  }

  lemma AppliedGrows(s: State, step: Step)
    requires Enabled(s, step)
    ensures s.applied <= Apply(s, step).applied
  {
  }

  lemma {:induction false} AppliedOnlyGrows(s: State, steps: seq<Step>)
    requires IsRun(s, steps)
    ensures s.applied <= Exec(s, steps).applied
    decreases |steps|
  {
    if steps != [] {
      AppliedGrows(s, steps[0]);
      AppliedOnlyGrows(Apply(s, steps[0]), steps[1..]);
    }
  }

  lemma OneTaken(applied: seq<Vetted>, queue: seq<Vetted>, n: nat)
    requires 0 < n <= |queue|
    ensures queue[1..][n - 1..] == queue[n..]
    ensures applied + [queue[0]] + queue[1..][..n - 1] == applied + queue[..n]
  {
  }

  /** The serve loop can take the next n commands. */
  lemma {:induction false} CanTake(s: State, n: nat) returns (steps: seq<Step>)
    requires s.phase == InLoop && n <= |s.queue|
    ensures IsRun(s, steps) && StaysInSession(steps)
    ensures Exec(s, steps) == s.(queue := s.queue[n..], applied := s.applied + s.queue[..n])
    decreases n
  {
    if n == 0 {
      assert s.queue[0..] == s.queue && s.applied + s.queue[..0] == s.applied;
      steps := [];
    } else {
      var t := Apply(s, TakeNext);
      var rest := CanTake(t, n - 1);
      OneTaken(s.applied, s.queue, n);
      Prepend(s, TakeNext, rest);
      steps := [TakeNext] + rest;
    }
  }

  /** A command of an earlier session that is still queued can be reached and applied. */
  lemma OldQueuedIsApplied(s: State, i: nat) returns (steps: seq<Step>)
    requires s.phase == InLoop && i < |s.queue| && s.queue[i].session != s.session
    ensures IsRun(s, steps) && StaysInSession(steps) && !AppliesOnlyOwn(s, Exec(s, steps))
  {
    steps := CanTake(s, i + 1);
    assert (s.applied + s.queue[..i + 1])[|s.applied| + i] == s.queue[i];
  }

  /** So can one whose callback checked in an earlier session and has yet to send. */
  lemma OldCheckedIsApplied(s: State, v: Vetted) returns (steps: seq<Step>)
    requires s.phase == InLoop && v in s.checked && v.session != s.session
    ensures IsRun(s, steps) && StaysInSession(steps) && !AppliesOnlyOwn(s, Exec(s, steps))
  {
    var first := CanTake(s, |s.queue|);
    var empty := Exec(s, first);
    assert empty.queue == [];
    var sent := Apply(empty, Enqueue(v));
    var last := CanTake(sent, 1);
    var rest := [Enqueue(v)] + last;
    assert rest[1..] == last;
    assert IsRun(empty, rest) && Exec(empty, rest) == Exec(sent, last);
    RunsJoin(s, first, rest);
    steps := first + rest;
    assert Exec(s, steps).applied == empty.applied + [v];
    assert Exec(s, steps).applied[|empty.applied|] == v;
    assert StaysInSession(first) && StaysInSession(last);
  }

  /** In the select loop, whatever is old can be applied. */
  lemma OldIsApplied(s: State) returns (steps: seq<Step>)
    requires s.phase == InLoop && !NothingOld(s)
    ensures IsRun(s, steps) && StaysInSession(steps) && !AppliesOnlyOwn(s, Exec(s, steps))
  {
    if i: nat :| i < |s.queue| && s.queue[i].session != s.session {
      steps := OldQueuedIsApplied(s, i);
    } else {
      var v :| v in s.checked && v.session != s.session;
      steps := OldCheckedIsApplied(s, v);
    }
  }

  /** Before the loop starts too, because it can start. */
  lemma OldWillBeApplied(s: State) returns (steps: seq<Step>)
    requires (s.phase == Opening || s.phase == InLoop) && !NothingOld(s)
    ensures IsRun(s, steps) && StaysInSession(steps) && !AppliesOnlyOwn(s, Exec(s, steps))
  {
    if s.phase == InLoop {
      steps := OldIsApplied(s);
    } else {
      var t := s.(phase := InLoop);
      var rest := OldIsApplied(t);
      Prepend(s, StartLoop, rest);
      steps := [StartLoop] + rest;
    }
  }

  /** Once the loop has ended nothing is applied in the session any more. */
  lemma {:induction false} ClosingAppliesNothing(s: State, steps: seq<Step>)
    requires s.phase == Closing && IsRun(s, steps) && StaysInSession(steps)
    ensures Exec(s, steps).applied == s.applied
    decreases |steps|
  {
    if steps != [] {
      assert !steps[0].ComeOnline? && !steps[0].GoOffline?;
      ClosingAppliesNothing(Apply(s, steps[0]), steps[1..]);
    }
  }

  /**
   While a session lasts it applies only commands checked in it, however the callbacks interleave:
   exactly when its select loop has ended, or nothing in the queue, and nothing between its check and
   its send, is older.
   */
  lemma AppliesOnlyOwnIff(s: State)
    requires Online(s)
    ensures (forall steps :: IsRun(s, steps) && StaysInSession(steps) ==> AppliesOnlyOwn(s, Exec(s, steps)))
            <==> s.phase == Closing || NothingOld(s)
  {
    if s.phase == Closing || NothingOld(s) {
      forall steps | IsRun(s, steps) && StaysInSession(steps)
        ensures AppliesOnlyOwn(s, Exec(s, steps))
      {
        if NothingOld(s) { NothingOldRun(s, steps); } else { ClosingAppliesNothing(s, steps); }
      }
    } else {
      var steps := OldWillBeApplied(s);
    }
  }

  /** For a session about to begin that is: the queue is empty, and no callback is between check and send. */
  lemma FreshSessionIff(steps: seq<Step>)
    requires IsRun(START, steps) && Exec(START, steps).phase == Off
    ensures var s := Exec(START, steps);
            NothingOld(Apply(s, ComeOnline)) <==> s.queue == [] && s.checked == multiset{}
  {
    QueueRun(START, steps);
    var s := Exec(START, steps);
    var t := Apply(s, ComeOnline);
    if s.queue != [] {
      assert s.queue[0] in s.accepted by { assert s.accepted[|s.applied|] == s.queue[0]; }
      assert Sound(s, s.queue[0]) && s.queue[0] in t.queue;
    } else if v :| v in s.checked {
      assert Sound(s, v) && v in t.checked;
    }
  }

  // The desk manager's own queue is one of these runs

  function CommandsOf(vs: seq<Vetted>): (cs: seq<Command>)
    ensures |cs| == |vs| && forall i :: 0 <= i < |vs| ==> cs[i] == vs[i].cmd
  {
    seq(|vs|, i requires 0 <= i < |vs| => vs[i].cmd)
  }

  /** Nobody is between check and send, and the queue and its histories are those of the desk being served. */
  predicate Shows(s: State, live: Live) {
    && s.checked == multiset{} && s.phase == InLoop && live.desk.online
    && CommandsOf(s.queue) == live.queue
    && CommandsOf(s.accepted) == live.accepted
    && CommandsOf(s.applied) == live.applied
  }

  /** One event served is submit's two steps, one receive, or nothing to the queue. */
  lemma ServedEventIsARun(interval: int, min: int, live: Live, e: ServeEvent, s: State) returns (steps: seq<Step>)
    requires Shows(s, live)
    ensures IsRun(s, steps) && Shows(Exec(s, steps), ServeStep(interval, min, live, e))
  {
    steps := [];
    match e
    case Incoming(_, kind, payload, decoded) => steps := SubmitIsARun(After(live, e.wait), kind, payload, decoded, s);
    case NextCommand(_, took, ok, base, baseTook) =>
      if live.queue != [] { steps := ReceiveIsARun(min, After(live, e.wait), took, ok, base, baseTook, s); }
    case _ =>
  }

  /** What the two steps come to when nothing happens between them. */
  function Submitted(s: State, v: Vetted): State {
    if |s.queue| < QUEUE_CAPACITY then s.(queue := s.queue + [v], accepted := s.accepted + [v]) else s
  }

  lemma EnqueueSubmits(s: State, v: Vetted)
    requires s.checked == multiset{}
    ensures Apply(s.(checked := multiset{v}), Enqueue(v)) == Submitted(s, v)
  {
  }

  lemma CheckAccepts(s: State, kind: Kind, payload: string, decoded: Option<map<string, string>>, value: int)
    requires Online(s) && s.checked == multiset{} && ParseTenthsMM(payload, decoded) == Ok(value)
    ensures Apply(s, Check(kind, payload, decoded))
         == s.(checked := multiset{Vetted(Command(kind, value), s.session, true)})
  {
  }

  lemma AcceptedIsARun(s: State, step: Step, v: Vetted) returns (steps: seq<Step>)
    requires s.checked == multiset{} && Enabled(s, step) && Apply(s, step) == s.(checked := multiset{v})
    ensures IsRun(s, steps) && Exec(s, steps) == Submitted(s, v)
  {
    EnqueueSubmits(s, v);
    steps := Before(s.(checked := multiset{v}), Enqueue(v), []);
    steps := Before(s, step, steps);
  }

  lemma SubmittedShows(live: Live, kind: Kind, payload: string, decoded: Option<map<string, string>>, s: State, value: int)
    requires Shows(s, live) && ParseTenthsMM(payload, decoded) == Ok(value)
    ensures Shows(Submitted(s, Vetted(Command(kind, value), s.session, true)), Submit(live, kind, payload, decoded))
  {
  }

  /** The uninterrupted callback: check, then send at once. */
  lemma SubmitIsARun(live: Live, kind: Kind, payload: string, decoded: Option<map<string, string>>, s: State)
    returns (steps: seq<Step>)
    requires Shows(s, live)
    ensures IsRun(s, steps) && Shows(Exec(s, steps), Submit(live, kind, payload, decoded))
  {
    var value := ParseTenthsMM(payload, decoded);
    if value.Err? {
      steps := [];
    } else {
      CheckAccepts(s, kind, payload, decoded, value.value);
      steps := AcceptedIsARun(s, Check(kind, payload, decoded), Vetted(Command(kind, value.value), s.session, true));
      SubmittedShows(live, kind, payload, decoded, s, value.value);
    }
  }

  lemma ReceiveIsARun(min: int, live: Live, took: nat, ok: bool, base: Option<int>, baseTook: nat, s: State)
    returns (steps: seq<Step>)
    requires Shows(s, live) && live.queue != []
    ensures IsRun(s, steps) && Shows(Exec(s, steps), ApplyHead(min, live, took, ok, base, baseTook))
  {
    steps := Before(s, TakeNext, []);
    assert Exec(s, steps) == Apply(s, TakeNext);
  }

  lemma {:induction false} RunsJoin(s: State, a: seq<Step>, b: seq<Step>)
    requires IsRun(s, a) && IsRun(Exec(s, a), b)
    ensures IsRun(s, a + b) && Exec(s, a + b) == Exec(Exec(s, a), b)
    decreases |a|
  {
    if a == [] {
      assert a + b == b;
    } else {
      RunsJoin(Apply(s, a[0]), a[1..], b);
      Prepend(s, a[0], a[1..] + b);
      Regroup(a, b);
    }
  }

  lemma Regroup(a: seq<Step>, b: seq<Step>)
    requires a != []
    ensures a + b == [a[0]] + (a[1..] + b)
  {
  }

  /** Whatever a session serves, its queue has gone through a run of the split steps. */
  lemma {:induction false} ServingIsARun(interval: int, min: int, live: Live, events: seq<ServeEvent>, s: State)
    returns (steps: seq<Step>)
    requires Shows(s, live)
    ensures IsRun(s, steps) && Shows(Exec(s, steps), Serve(interval, min, live, events))
    decreases |events|
  {
    steps := [];
    if events != [] {
      var before, e := events[..|events| - 1], events[|events| - 1];
      steps := ServingIsARun(interval, min, live, before, s);
      var more := ServedEventIsARun(interval, min, Serve(interval, min, live, before), e, Exec(s, steps));
      RunsJoin(s, steps, more);
      steps := steps + more;
    }
  }
}
