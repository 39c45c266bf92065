/**
 internal/mqttc/mqttc.go as written: Subscribe and resubscribe run without interference, each tied to
 a run of the interleaved steps, and the delays of the connection loop.
 */
module MqttModel {
  import opened Backoff
  import opened MqttSession
  import opened Options

  /** subs[x] goes out on the open connection, and nowhere if there is none. */
  function Going(open: bool, requested: set<nat>, x: nat): set<nat> {
    if open then requested + {x} else requested
  }

  /** Of subs, those from the i-th up to the n-th have gone out, if anything has. */
  ghost predicate Gone(open: bool, before: set<nat>, after: set<nat>, i: nat, n: nat) {
    forall x: nat :: x in after <==> x in before || (open && i <= x < n)
  }

  class Client {
    var subs: seq<string>
    var connected: bool
    ghost var requested: set<nat>   // indices into subs subscribed to in the current session

    constructor ()
      ensures subs == [] && !connected && requested == {}
    {
      subs, connected, requested := [], false, {};
    }

    /** The filter is subs[x]. */
    method SubscribeOne(filter: string, ghost x: nat)
      requires x < |subs| && subs[x] == filter
      modifies `requested
      ensures requested == Going(connected, old(requested), x)
    {
      if connected {
        requested := requested + {x};
      }
    }

    method Subscribe(filter: string)
      modifies `subs, `requested
      ensures subs == old(subs) + [filter]
      ensures requested == Going(connected, old(requested), |old(subs)|)
    {
      subs := subs + [filter];
      if connected {
        SubscribeOne(filter, |subs| - 1);
      }
    }

    method Resubscribe()
      modifies `requested
      ensures Gone(connected, old(requested), requested, 0, |subs|)
    {
      var copied := subs;
      for i := 0 to |copied|
        invariant Gone(connected, old(requested), requested, 0, i)
      {
        SubscribeOne(copied[i], i);
      }
    }
  }

  /** A Subscribe call that nothing interrupts. */
  lemma SubscribeIsARun(s: State, filter: string) returns (steps: seq<Step>)
    requires |s.calls| == |s.subs|
    ensures IsRun(s, steps)
    ensures Exec(s, steps) == s.(subs := s.subs + [filter], calls := s.calls + [Returned],
                                 requested := Going(s.open, s.requested, |s.subs|))
  {
    var x := |s.calls|;
    var s1 := Apply(s, Append(filter));
    var s2 := Apply(s1, CheckOpen(x));
    assert s1.calls[x := Returned] == s.calls + [Returned];
    steps := [];
    if s.open {
      assert s2.calls[x := Returned] == s.calls + [Returned];
      steps := Before(s2, Issue(x), steps);
    }
    steps := Before(s1, CheckOpen(x), steps);
    steps := Before(s, Append(filter), steps);
  }

  lemma Before(s: State, step: Step, rest: seq<Step>) returns (steps: seq<Step>)
    requires Enabled(s, step) && IsRun(Apply(s, step), rest)
    ensures IsRun(s, steps) && Exec(s, steps) == Exec(Apply(s, step), rest)
  {
    steps := [step] + rest;
    assert steps[1..] == rest;
  }

  /** A connect handler that nothing interrupts, from its i-th subscription on. */
  lemma {:induction false} HandlerGoesOn(s: State, j: nat, n: nat, i: nat) returns (steps: seq<Step>)
    requires j < |s.handlers| && s.handlers[j].pc == Copied(n, i) && i <= n
    ensures IsRun(s, steps)
    ensures Exec(s, steps) == SetHandler(s, j, Finished).(requested := Exec(s, steps).requested)
    ensures Gone(s.open, s.requested, Exec(s, steps).requested, i, n)
    decreases n - i
  {
    var t := Apply(s, Resubscribe(j));
    var rest := [];
    if i < n {
      rest := HandlerGoesOn(t, j, n, i + 1);
      assert t.handlers[j := t.handlers[j].(pc := Finished)] == s.handlers[j := s.handlers[j].(pc := Finished)];
    }
    steps := Before(s, Resubscribe(j), rest);
  }

  /** The handler of a fresh session asks for everything remembered, like resubscribe above. */
  lemma HandlerIsARun(s: State, j: nat) returns (steps: seq<Step>)
    requires j < |s.handlers| && s.handlers[j].pc == Started
    ensures IsRun(s, steps)
    ensures Exec(s, steps) == SetHandler(s, j, Finished).(requested := Exec(s, steps).requested)
    ensures Gone(s.open, s.requested, Exec(s, steps).requested, 0, |s.subs|)
  {
    var t := Apply(s, CopySubs(j));
    var rest := HandlerGoesOn(t, j, |s.subs|, 0);
    assert t.handlers[j := t.handlers[j].(pc := Finished)] == s.handlers[j := s.handlers[j].(pc := Finished)];
    steps := Before(s, CopySubs(j), rest);
  }

  // Run

  const MQTT_MIN := 2 * SECOND
  const MQTT_MAX := 60 * SECOND

  /** Failed attempts since the last success. */
  function Failures(results: seq<bool>): nat {
    if results == [] || results[|results| - 1] then 0 else 1 + Failures(results[..|results| - 1])
  }

  /** The last n attempts failed, and the one before them, if any, did not: n failures in a row. */
  lemma {:induction false} FailuresAre(results: seq<bool>)
    ensures var n := Failures(results);
            && n <= |results| && (forall i :: |results| - n <= i < |results| ==> !results[i])
            && (n < |results| ==> results[|results| - n - 1])
  {
    if results != [] && !results[|results| - 1] { FailuresAre(results[..|results| - 1]); }
  }

  /**
   Run over the outcomes of its connect attempts: the sleep after each one, if it sleeps. A
   failure sleeps for the doubled-and-capped delay of its place in the streak; a success never
   sleeps, and the streak starts again.
   */
  method Run(results: seq<bool>) returns (sleeps: seq<Option<int>>)
    ensures |sleeps| == |results|
    ensures forall i :: 0 <= i < |results| ==>
              sleeps[i] == if results[i] then None
                           else Some(Base(2_000_000_000, 60_000_000_000, Failures(results[..i + 1]) - 1))
  {
    sleeps := [];
    var backoff := MQTT_MIN;
    for i := 0 to |results|
      invariant |sleeps| == i
      invariant backoff == Base(MQTT_MIN, MQTT_MAX, Failures(results[..i]))
      invariant forall j :: 0 <= j < i ==>
                  sleeps[j] == if results[j] then None else Some(Base(MQTT_MIN, MQTT_MAX, Failures(results[..j + 1]) - 1))
    {
      assert results[..i + 1][..i] == results[..i];
      if results[i] {
        backoff := MQTT_MIN;
        sleeps := sleeps + [None];
        continue;
      }
      sleeps := sleeps + [Some(backoff)];
      NextIsBase(MQTT_MIN, MQTT_MAX, Failures(results[..i]));
      backoff := Wrap64(backoff * 2);
      if backoff > MQTT_MAX {
        backoff := MQTT_MAX;
      }
    }
  }
}
