/**
 The event pump's handlers and one pass of the scan controller in the form they are written, run
 without interference, and tied to the transition system: each such call is one of its runs.
 */
module BridgeModel {
  import opened Text
  import opened Matching
  import opened ScanProtocol
  import opened ScanSafety
  import opened ScanRouting

  /** The first desk from i on that wants a peripheral and matches the advert. */
  ghost function FirstTaker(sys: System, s: State, adv: Advert, i: nat): (d: nat)
    ensures i <= d || |s.desks| <= d
    ensures d < |s.desks| ==> Takes(sys, s, d, adv)
    ensures forall e: nat :: i <= e < d ==> !Takes(sys, s, e, adv)
    decreases |s.desks| - i
  {
    if i >= |s.desks| || Takes(sys, s, i, adv) then i else FirstTaker(sys, s, adv, i + 1)
  }

  /** The first desk that wants a peripheral and matches the advert gets it; if there is none, nothing changes. */
  ghost function Handled(sys: System, s: State, adv: Advert): State {
    var d := FirstTaker(sys, s, adv, 0);
    if d < |s.desks| then Discovered(sys, s, adv, d) else s
  }

  class Bridge {
    const cfg: seq<DeskConfig>
    ghost const world: iset<Advert>
    ghost const late: bool
    var desks: seq<Desk>
    var byPeripheral: map<string, nat>
    var scanWake: bool
    var scanning: bool
    var startFailed: bool

    ghost predicate Valid()
      reads this
    {
      |desks| == |cfg| && forall key :: key in byPeripheral ==> byPeripheral[key] < |desks|
    }

    ghost function Sys(): System {
      Configured(cfg, world, late)
    }

    /** The shared state with pump and controller at rest and no event queued. */
    ghost function View(): State
      reads this
    {
      State(desks, Idle, Parked, scanWake, scanning, startFailed, byPeripheral, multiset{}, multiset{}, 0)
    }

    constructor (cfg: seq<DeskConfig>, ghost world: iset<Advert>, ghost late: bool)
      ensures Valid() && this.cfg == cfg && this.world == world && this.late == late && View() == Init(Sys())
    {
      this.cfg := cfg;
      this.world, this.late := world, late;
      desks := seq(|cfg|, i => NEW_DESK);
      byPeripheral := map[];
      scanWake, scanning, startFailed := false, false, false;
    }

    method WakeScanner()
      modifies `scanWake
      ensures scanWake
    {
      scanWake := true;
    }

    method OnDiscovery(p: Advert)
      requires Valid()
      modifies `desks, `byPeripheral, `scanWake
      ensures Valid()
      ensures View() == Handled(Sys(), old(View()), p)
    {
      ghost var s := View();
      for i := 0 to |desks|
        invariant View() == s
        invariant FirstTaker(Sys(), s, p, 0) == FirstTaker(Sys(), s, p, i)
      {
        if !desks[i].want {
          continue;
        }
        if !MatchesDesk(cfg[i], p) {
          continue;
        }
        assert Takes(Sys(), s, i, p);
        desks := desks[i := desks[i].(want := false)];
        byPeripheral := byPeripheral[Upper(p.pid) := i];
        if desks[i].resolved == [] {
          desks := desks[i := desks[i].(resolved := [p.pid])];
        }
        WakeScanner();
        assert desks == s.desks[i := Offered(s.desks[i].(want := false), p.pid)];
        return;
      }
    }

    /** The owner of the peripheral, and nobody else, is poked. */
    method OnDisconnection(pid: string)
      requires Valid()
      modifies `desks
      ensures Valid()
      ensures Upper(pid) !in byPeripheral ==> desks == old(desks)
      ensures forall d: nat :: Owns(old(View()), d, Upper(pid)) ==>
                desks == old(desks)[d := old(desks)[d].(poked := true)]
    {
      if Upper(pid) !in byPeripheral {
        return;
      }
      var d := byPeripheral[Upper(pid)];
      desks := desks[d := desks[d].(poked := true)];
    }

    /** The body of scanController's loop; started is what StartScan would answer. */
    method ScanPass(started: bool)
      requires Valid()
      modifies `scanning, `startFailed
      ensures View() == Passed(old(View()), started)
      ensures started ==> !startFailed && (scanning <==> exists d :: 0 <= d < |desks| && desks[d].want)
      ensures !started ==> (scanning <==> old(scanning) && exists d :: 0 <= d < |desks| && desks[d].want)
    {
      var need := false;
      for i := 0 to |desks|
        invariant !need && forall d: nat :: d < i ==> !Wants(View(), d)
      {
        if desks[i].want {
          need := true;
          assert Wants(View(), i);
          break;
        }
      }
      assert need <==> exists d :: 0 <= d < |desks| && Wants(View(), d);
      assert forall d :: 0 <= d < |desks| ==> (Wants(View(), d) <==> desks[d].want);
      startFailed := false;
      if need && !scanning {
        if !started {
          startFailed := true;
          return;
        }
        scanning := true;
      } else if !need && scanning {
        scanning := false;
      }
    }
  }

  /** What a pass leaves behind: the scan follows the desks' wishes, unless it had to be started and could not be. */
  ghost function Passed(s: State, started: bool): (t: State)
    ensures t == s.(scanning := t.scanning, startFailed := t.startFailed)
    ensures started ==> !t.startFailed && (t.scanning <==> AnyWant(s))
    ensures !started ==> (t.scanning <==> AnyWant(s) && s.scanning)
    ensures t.startFailed <==> AnyWant(s) && !t.scanning
  {
    s.(scanning := AnyWant(s) && (s.scanning || started),
       startFailed := AnyWant(s) && !s.scanning && !started)
  }

  /** An uninterrupted onDiscovery is a run, whoever else is in the middle of something. */
  lemma OnDiscoveryIsARun(sys: System, s: State, adv: Advert)
    requires Reachable(sys, s) && s.pump == Idle && Hears(sys, s, adv)
    ensures Reachable(sys, Handled(sys, s, adv))
  {
    var d := FirstTaker(sys, s, adv, 0);
    if d < |s.desks| {
      DiscoveryIsARun(sys, Init(sys), s, adv, d);
    }
  }

  /** A woken controller's uninterrupted pass is a run, and takes the wake-up with it. */
  lemma ScanPassIsARun(sys: System, s: State, started: bool)
    requires Reachable(sys, s) && s.ctl == Parked && s.scanWake
    ensures Reachable(sys, Passed(s.(scanWake := false), started))
  {
    StepReaches(sys, s, ControllerDoes(TakeWake));
    var s1 := s.(scanWake := false, ctl := Reading(0));
    var need := ReadsOn(sys, Init(sys), s1, 0);
    var s2 := s1.(ctl := Deciding(need));
    StepReaches(sys, s2, ControllerDoes(Decide(started)));
    var s3 := s.(scanWake := false);
    assert forall d: nat :: (Wants(s1, d) <==> Wants(s3, d));
    assert Apply(sys, s2, ControllerDoes(Decide(started))) == Passed(s3, started);
  }
}
