/** Where an accepted configuration is not enough: example configurations, and what goes wrong with them. */
module Gaps {
  import opened Config
  import opened Matching
  import opened Options
  import opened ScanProtocol
  import opened ScanRouting
  import opened Text

  /** A configuration with the default timings and bases of the caller's choosing. */
  function Example(commandTopicBase: string, desks: seq<DeskConfig>): Settings {
    Settings("mqtt://localhost:1883", 0, commandTopicBase, "tele/linak", desks,
             2_000_000_000, 60_000_000_000, 30_000_000_000)
  }

  lemma ExampleIsAccepted(commandTopicBase: string, desks: seq<DeskConfig>)
    requires GoodBase(commandTopicBase) && desks != [] && DesksOk(desks)
    ensures Accepted(Example(commandTopicBase, desks))
  {
    var c := Example(commandTopicBase, desks);
    TrimKeeps(c.broker, IsSpace);
    TrimKeeps(c.metricTopicBase, IsSpace);
  }

  lemma ExampleDesks() returns (hall: DeskConfig, office: DeskConfig)
    ensures DeskOk(hall) && DeskOk(office) && hall.id != office.id
    ensures hall.namePrefix != "" && TrimSpace(hall.namePrefix) == hall.namePrefix
    ensures office.namePrefix == hall.namePrefix + " 8" && TrimSpace(office.namePrefix) == office.namePrefix
  {
    hall := DeskConfig("hall", "", "Desk", "");
    office := DeskConfig("office", "", "Desk 8", "");
    TrimKeeps(hall.id, IsSpace);
    TrimKeeps(hall.namePrefix, IsSpace);
    TrimKeeps(office.id, IsSpace);
    TrimKeeps(office.namePrefix, IsSpace);
    assert hall.id[0] != office.id[0];
    assert office.namePrefix == hall.namePrefix + " 8";
  }

  lemma ExampleBase() returns (base: string)
    ensures base == "tele/linak" && GoodBase(base)
  {
    base := "tele/linak";
    TrimKeeps(base, IsSpace);
  }

  /** Equal topic bases are accepted, and the bridge then hears the heights it publishes as commands. */
  lemma AcceptedBridgeCanHearItself()
    ensures exists c :: Accepted(c) && HearsItself(c)
  {
    var hall, office := ExampleDesks();
    var base := ExampleBase();
    var c := Example(base, [hall]);
    ExampleIsAccepted(base, [hall]);
    HearsItselfIffBasesEqual(c);
  }

  /** An accepted configuration with an advert that matches two of its desks. */
  lemma OverlappingExample() returns (c: Settings, adv: Advert)
    ensures Accepted(c) && |c.desks| == 2 && MatchesDesk(c.desks[0], adv) && MatchesDesk(c.desks[1], adv)
  {
    var hall, office := ExampleDesks();
    var base := ExampleBase();
    c := Example(base, [hall, office]);
    ExampleIsAccepted(base, [hall, office]);
    adv := Advert("P", Some(office.namePrefix), None);
    assert office.namePrefix + "" == office.namePrefix;
    NestedPrefixesOverlap(c, 0, 1, " 8", "", adv);
  }

  /** Overlapping desks are accepted, and a run then leaves a desk holding a peripheral whose drops go elsewhere. */
  lemma AcceptedDesksCanMisroute()
    ensures exists c: Settings, world, s ::
              Accepted(c) && Reachable(Configured(c.desks, world, false), s) && !RoutingAgrees(s)
  {
    var c, adv := OverlappingExample();
    var sys := Configured(c.desks, iset{adv}, false);
    assert Matches(sys, 0, adv) && Matches(sys, 1, adv);
    var s := OverlapBreaksRouting(sys, adv, adv, 0, 1);
  }

  // Which configurations are exclusive whatever is advertised

  predicate Pinned(d: DeskConfig) {
    !Blank(d.peripheralID)
  }

  /** Every desk is pinned to an identifier of its own, up to letter case. */
  predicate PinnedApart(desks: seq<DeskConfig>) {
    && (forall i :: 0 <= i < |desks| ==> Pinned(desks[i]))
    && (forall i, j :: 0 <= i < j < |desks| ==>
          !EqualFold(TrimSpace(desks[i].peripheralID), TrimSpace(desks[j].peripheralID)))
  }

  function Label(d: DeskConfig): string {
    if Blank(d.name) then d.namePrefix else d.name
  }

  lemma LabelFits(d: DeskConfig)
    requires DeskOk(d) && !Pinned(d)
    ensures TrimSpace(Label(d)) != "" && NameFits(d, TrimSpace(Label(d)))
  {
    var got := TrimSpace(Label(d));
    assert got[..|got|] == got;
  }

  function NameFor(d: DeskConfig): Option<string> {
    if Pinned(d) then None else Some(Label(d))
  }

  /** An advert under a's identifier or name and b's identifier or name. */
  function AdvertFor(a: DeskConfig, b: DeskConfig): Advert {
    var pid := if Pinned(a) then TrimSpace(a.peripheralID) else if Pinned(b) then TrimSpace(b.peripheralID) else "P";
    Advert(pid, NameFor(a), NameFor(b))
  }

  lemma BothMatch(a: DeskConfig, b: DeskConfig)
    requires DeskOk(a) && DeskOk(b)
    requires Pinned(a) && Pinned(b) ==> EqualFold(TrimSpace(a.peripheralID), TrimSpace(b.peripheralID))
    ensures MatchesDesk(a, AdvertFor(a, b)) && MatchesDesk(b, AdvertFor(a, b))
  {
    var adv := AdvertFor(a, b);
    DuplicateNamesDoNotMatter(a, TrimmedName(adv.name), TrimmedName(adv.localName));
    DuplicateNamesDoNotMatter(b, TrimmedName(adv.name), TrimmedName(adv.localName));
    if !Pinned(a) { LabelFits(a); }
    if !Pinned(b) { LabelFits(b); }
  }

  /** Two desks that are not pinned apart share the advert made for both. */
  lemma SharedAdvert(desks: seq<DeskConfig>, i: nat, j: nat, late: bool) returns (world: iset<Advert>)
    requires DesksOk(desks) && i < |desks| && j < |desks| && i != j
    requires Pinned(desks[i]) && Pinned(desks[j]) ==>
               EqualFold(TrimSpace(desks[i].peripheralID), TrimSpace(desks[j].peripheralID))
    ensures !Exclusive(Configured(desks, world, late))
  {
    var adv := AdvertFor(desks[i], desks[j]);
    world := iset{adv};
    BothMatch(desks[i], desks[j]);
    var sys := Configured(desks, world, late);
    assert Matches(sys, i, adv) && Matches(sys, j, adv);
  }

  /**
   An accepted configuration is exclusive, and so routes every disconnection to its desk and misses
   none, whatever is advertised: exactly when it has one desk, or pins every desk to an identifier of
   its own.
   */
  lemma ExclusiveWhateverIsHeardIff(desks: seq<DeskConfig>, late: bool)
    requires DesksOk(desks)
    ensures (forall world: iset<Advert> :: Exclusive(Configured(desks, world, late)))
            <==> |desks| <= 1 || PinnedApart(desks)
  {
    if PinnedApart(desks) {
      forall world: iset<Advert>
        ensures Exclusive(Configured(desks, world, late))
      {
        PinnedDesksAreExclusive(desks, world, late);
      }
    } else if |desks| > 1 {
      var i, j := 0, 1;
      if k :| 0 <= k < |desks| && !Pinned(desks[k]) {
        i, j := k, if k == 0 then 1 else 0;
      } else {
        i, j :| 0 <= i < j < |desks| && EqualFold(TrimSpace(desks[i].peripheralID), TrimSpace(desks[j].peripheralID));
      }
      var world := SharedAdvert(desks, i, j, late);
    }
  }
}
