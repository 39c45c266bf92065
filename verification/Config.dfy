/** What Validate accepts, and what that buys: a topic namespace without collisions. */
module Config {
  import opened Options
  import opened Text
  import opened Matching
  import opened Topics

  const RESERVED_DESK_ID := "bridge"

  /** The settings Validate looks at. Durations are nanoseconds. */
  datatype Settings = Settings(
    broker: string, qos: nat, commandTopicBase: string, metricTopicBase: string,
    desks: seq<DeskConfig>,
    reconnectMinBackoff: int, reconnectMaxBackoff: int, connectTimeout: int)

  datatype Problem =
    | NoBroker | BadQoS
    | BadCommandBase(why: BaseProblem) | BadMetricBase(why: BaseProblem)
    | NoDesks
    | BadDeskID(i: nat, id: IDProblem) | DuplicateDeskID(i: nat) | NoMatcher(i: nat) | ManyMatchers(i: nat)
    | BackoffNotPositive | BackoffInverted | TimeoutNotPositive

  datatype BaseProblem = EmptyBase | Wildcard | TrailingSlash
  datatype IDProblem = MissingID | PaddedID | BadCharacter | ReservedID

  predicate Blank(s: string) {
    TrimSpace(s) == ""
  }

  predicate HasAny(s: string, chars: set<char>) {
    exists c <- chars :: c in s
  }

  function ValidTopicBase(v: string): Option<BaseProblem> {
    if Blank(v) then Some(EmptyBase)
    else if HasAny(v, {'+', '#'}) then Some(Wildcard)
    else if v[|v| - 1] == '/' then Some(TrailingSlash)
    else None
  }

  function ValidDeskID(id: string): Option<IDProblem> {
    if Blank(id) then Some(MissingID)
    else if id != TrimSpace(id) then Some(PaddedID)
    else if HasAny(id, {'/', '+', '#'}) then Some(BadCharacter)
    else if id == RESERVED_DESK_ID then Some(ReservedID)
    else None
  }

  function Matchers(d: DeskConfig): nat {
    (if Blank(d.name) then 0 else 1) + (if Blank(d.namePrefix) then 0 else 1) + (if Blank(d.peripheralID) then 0 else 1)
  }

  // What an accepted configuration is

  /** A topic base is not blank, has no wildcard, and does not end in a slash. */
  predicate GoodBase(v: string) {
    !Blank(v) && '+' !in v && '#' !in v && v[|v| - 1] != '/'
  }

  /** A desk id is one topic level without wildcards or padding, and not the bridge's own. */
  predicate GoodID(id: string) {
    !Blank(id) && TrimSpace(id) == id && '/' !in id && '+' !in id && '#' !in id && id != "bridge"
  }

  predicate OneMatcher(d: DeskConfig) {
    || (!Blank(d.name) && Blank(d.namePrefix) && Blank(d.peripheralID))
    || (Blank(d.name) && !Blank(d.namePrefix) && Blank(d.peripheralID))
    || (Blank(d.name) && Blank(d.namePrefix) && !Blank(d.peripheralID))
  }

  predicate DeskOk(d: DeskConfig) {
    GoodID(d.id) && OneMatcher(d)
  }

  predicate DesksOk(desks: seq<DeskConfig>) {
    && (forall i :: 0 <= i < |desks| ==> DeskOk(desks[i]))
    && (forall i, j :: 0 <= i < j < |desks| ==> desks[i].id != desks[j].id)
  }

  predicate Accepted(c: Settings) {
    && !Blank(c.broker) && c.qos <= 2
    && GoodBase(c.commandTopicBase) && GoodBase(c.metricTopicBase)
    && c.desks != [] && DesksOk(c.desks)
    && 0 < c.reconnectMinBackoff <= c.reconnectMaxBackoff && c.connectTimeout > 0
  }

  lemma ValidTopicBaseIff(v: string)
    ensures ValidTopicBase(v).None? <==> GoodBase(v)
  {
    assert '+' in {'+', '#'} && '#' in {'+', '#'};
    assert TrimSpace("") == "";
  }

  lemma ValidDeskIDIff(id: string)
    ensures ValidDeskID(id).None? <==> GoodID(id)
  {
    var bad := {'/', '+', '#'};
    assert '/' in bad && '+' in bad && '#' in bad;
  }

  predicate BaseFault(v: string, why: BaseProblem) {
    match why
    case EmptyBase => Blank(v)
    case Wildcard => '+' in v || '#' in v
    case TrailingSlash => v != "" && v[|v| - 1] == '/'
  }

  predicate IDFault(id: string, why: IDProblem) {
    match why
    case MissingID => Blank(id)
    case PaddedID => TrimSpace(id) != id
    case BadCharacter => '/' in id || '+' in id || '#' in id
    case ReservedID => id == "bridge"
  }

  /** The problem is there, and if it is a desk's, the desks before it are in order. */
  predicate Real(c: Settings, p: Problem) {
    match p
    case NoBroker => Blank(c.broker)
    case BadQoS => c.qos > 2
    case BadCommandBase(why) => BaseFault(c.commandTopicBase, why)
    case BadMetricBase(why) => BaseFault(c.metricTopicBase, why)
    case NoDesks => c.desks == []
    case BackoffNotPositive => c.reconnectMinBackoff <= 0
    case BackoffInverted => c.reconnectMaxBackoff < c.reconnectMinBackoff
    case TimeoutNotPositive => c.connectTimeout <= 0
    case _ => DeskFault(c.desks, p)
  }

  predicate DeskFault(desks: seq<DeskConfig>, p: Problem) {
    match p
    case BadDeskID(i, why) => i < |desks| && DesksOk(desks[..i]) && IDFault(desks[i].id, why)
    case DuplicateDeskID(i) => i < |desks| && DesksOk(desks[..i]) && exists j :: 0 <= j < i && desks[j].id == desks[i].id
    case NoMatcher(i) =>
      && i < |desks| && DesksOk(desks[..i])
      && Blank(desks[i].name) && Blank(desks[i].namePrefix) && Blank(desks[i].peripheralID)
    case ManyMatchers(i) =>
      && i < |desks| && DesksOk(desks[..i])
      && (|| (!Blank(desks[i].name) && !Blank(desks[i].namePrefix))
          || (!Blank(desks[i].name) && !Blank(desks[i].peripheralID))
          || (!Blank(desks[i].namePrefix) && !Blank(desks[i].peripheralID)))
    case _ => false
  }

  predicate IdBefore(desks: seq<DeskConfig>, i: nat, id: string)
    requires i <= |desks|
  {
    exists j :: 0 <= j < i && desks[j].id == id
  }

  /** The problem of desk i, given that the desks before it have none. */
  function DeskProblem(desks: seq<DeskConfig>, i: nat): Option<Problem>
    requires i < |desks|
  {
    var d := desks[i];
    if ValidDeskID(d.id).Some? then Some(BadDeskID(i, ValidDeskID(d.id).value))
    else if IdBefore(desks, i, d.id) then Some(DuplicateDeskID(i))
    else if Matchers(d) == 0 then Some(NoMatcher(i))
    else if Matchers(d) > 1 then Some(ManyMatchers(i))
    else None
  }

  /** How many of the three matching fields are set. */
  method CountMatchers(d: DeskConfig) returns (matchers: nat)
    ensures matchers == Matchers(d)
  {
    matchers := 0;
    var fields := [d.name, d.namePrefix, d.peripheralID];
    for i := 0 to |fields|
      invariant matchers == (if i > 0 && !Blank(d.name) then 1 else 0) + (if i > 1 && !Blank(d.namePrefix) then 1 else 0)
                            + (if i > 2 && !Blank(d.peripheralID) then 1 else 0)
    {
      if !Blank(fields[i]) {
        matchers := matchers + 1;
      }
    }
  }

  function FirstProblem(desks: seq<DeskConfig>, i: nat): Option<Problem>
    requires i <= |desks|
    decreases |desks| - i
  {
    if i == |desks| then None
    else if DeskProblem(desks, i).Some? then DeskProblem(desks, i)
    else FirstProblem(desks, i + 1)
  }

  /** The loop over the desks reports the first desk with a problem. */
  method ValidateDesks(desks: seq<DeskConfig>) returns (problem: Option<Problem>)
    ensures problem == FirstProblem(desks, 0)
  {
    var seen: set<string> := {};
    for i := 0 to |desks|
      invariant FirstProblem(desks, 0) == FirstProblem(desks, i)
      invariant forall id :: id in seen <==> IdBefore(desks, i, id)
    {
      var d := desks[i];
      var idProblem := ValidDeskID(d.id);
      if idProblem.Some? {
        return Some(BadDeskID(i, idProblem.value));
      }
      if d.id in seen {
        return Some(DuplicateDeskID(i));
      }
      assert forall id :: IdBefore(desks, i + 1, id) <==> IdBefore(desks, i, id) || id == d.id;
      seen := seen + {d.id};
      var matchers := CountMatchers(d);
      if matchers == 0 {
        return Some(NoMatcher(i));
      } else if matchers > 1 {
        return Some(ManyMatchers(i));
      }
    }
    return None;
  }

  lemma DeskProblemIff(desks: seq<DeskConfig>, i: nat)
    requires i < |desks|
    ensures DeskProblem(desks, i).None? <==> DeskOk(desks[i]) && !IdBefore(desks, i, desks[i].id)
  {
    ValidDeskIDIff(desks[i].id);
  }

  /** With the desks before it in order, the problem found with desk i is there. */
  lemma DeskProblemIsReal(desks: seq<DeskConfig>, i: nat)
    requires i < |desks| && DesksOk(desks[..i]) && DeskProblem(desks, i).Some?
    ensures DeskFault(desks, DeskProblem(desks, i).value)
  {
    var id := desks[i].id;
    if ValidDeskID(id).Some? { IDProblemIsReal(id); }
  }

  lemma IDProblemIsReal(id: string)
    requires ValidDeskID(id).Some?
    ensures IDFault(id, ValidDeskID(id).value)
  {
  }

  lemma BaseProblemIsReal(v: string)
    requires ValidTopicBase(v).Some?
    ensures BaseFault(v, ValidTopicBase(v).value)
  {
    assert TrimSpace("") == "";
  }

  lemma OneMoreDeskOk(desks: seq<DeskConfig>, i: nat)
    requires i < |desks| && DesksOk(desks[..i]) && DeskProblem(desks, i).None?
    ensures DesksOk(desks[..i + 1])
  {
    DeskProblemIff(desks, i);
    var before, upTo := desks[..i], desks[..i + 1];
    assert upTo == before + [desks[i]];
    forall j, k | 0 <= j < k < |upTo|
      ensures upTo[j].id != upTo[k].id
    {
      assert upTo[j] == before[j] == desks[j];
    }
  }

  /** The first problem is there, with the desks before it in order. */
  lemma {:induction false} FirstProblemIsReal(desks: seq<DeskConfig>, i: nat)
    requires i <= |desks| && DesksOk(desks[..i]) && FirstProblem(desks, i).Some?
    ensures DeskFault(desks, FirstProblem(desks, i).value)
    decreases |desks| - i
  {
    if DeskProblem(desks, i).Some? {
      DeskProblemIsReal(desks, i);
    } else {
      OneMoreDeskOk(desks, i);
      FirstProblemIsReal(desks, i + 1);
    }
  }

  predicate FineFrom(desks: seq<DeskConfig>, i: nat) {
    forall k: nat :: i <= k < |desks| ==> DeskOk(desks[k]) && !IdBefore(desks, k, desks[k].id)
  }

  lemma FineFromSplits(desks: seq<DeskConfig>, i: nat)
    requires i < |desks|
    ensures FineFrom(desks, i) <==> DeskOk(desks[i]) && !IdBefore(desks, i, desks[i].id) && FineFrom(desks, i + 1)
  {
  }

  /** No desk has a problem exactly when all are in order and their ids differ. */
  lemma {:induction false} NoProblemFrom(desks: seq<DeskConfig>, i: nat)
    requires i <= |desks|
    ensures FirstProblem(desks, i).None? <==> FineFrom(desks, i)
    decreases |desks| - i
  {
    if i < |desks| {
      DeskProblemIff(desks, i);
      NoProblemFrom(desks, i + 1);
      FineFromSplits(desks, i);
    }
  }

  lemma NoProblemIffDesksOk(desks: seq<DeskConfig>)
    ensures FirstProblem(desks, 0).None? <==> DesksOk(desks)
  {
    NoProblemFrom(desks, 0);
    forall i, j | 0 <= i < j < |desks|
      ensures desks[i].id == desks[j].id ==> IdBefore(desks, j, desks[j].id)
    {
    }
  }

  /** Validate accepts exactly the configurations that are in order, and reports only what is there. */
  method Validate(c: Settings) returns (problem: Option<Problem>)
    ensures problem.None? <==> Accepted(c)
    ensures problem.Some? ==> Real(c, problem.value)
  {
    ValidTopicBaseIff(c.commandTopicBase);
    ValidTopicBaseIff(c.metricTopicBase);
    if Blank(c.broker) {
      return Some(NoBroker);
    }
    if c.qos > 2 {
      return Some(BadQoS);
    }
    var command := ValidTopicBase(c.commandTopicBase);
    if command.Some? {
      BaseProblemIsReal(c.commandTopicBase);
      return Some(BadCommandBase(command.value));
    }
    var metric := ValidTopicBase(c.metricTopicBase);
    if metric.Some? {
      BaseProblemIsReal(c.metricTopicBase);
      return Some(BadMetricBase(metric.value));
    }
    if c.desks == [] {
      return Some(NoDesks);
    }
    problem := ValidateDesks(c.desks);
    NoProblemIffDesksOk(c.desks);
    if problem.Some? {
      FirstProblemIsReal(c.desks, 0);
      return;
    }
    if c.reconnectMinBackoff <= 0 {
      return Some(BackoffNotPositive);
    }
    if c.reconnectMaxBackoff < c.reconnectMinBackoff {
      return Some(BackoffInverted);
    }
    if c.connectTimeout <= 0 {
      return Some(TimeoutNotPositive);
    }
    return None;
  }

  // The topic namespace

  const COMMAND_LEAVES := {LEAF_HEIGHT, LEAF_BASE_HEIGHT}
  const METRIC_LEAVES := {LEAF_HEIGHT, LEAF_BASE_HEIGHT, LEAF_AVAILABILITY}

  lemma LeavesAreOneLevel()
    ensures forall leaf <- METRIC_LEAVES :: OneLevel(leaf)
    ensures LEAF_HEIGHT != LEAF_BASE_HEIGHT && LEAF_HEIGHT != LEAF_AVAILABILITY && LEAF_BASE_HEIGHT != LEAF_AVAILABILITY
    ensures OneLevel(RESERVED_DESK_ID)
  {
    assert LEAF_HEIGHT[0] == 'h' && LEAF_BASE_HEIGHT[0] == 'b' && LEAF_AVAILABILITY[0] == 'a';
  }

  function DeskTopic(base: string, c: Settings, i: nat, leaf: string): string
    requires i < |c.desks|
  {
    Topic(base, c.desks[i].id, leaf)
  }

  lemma AcceptedIdsAreOneLevel(c: Settings, i: nat)
    requires Accepted(c) && i < |c.desks|
    ensures OneLevel(c.desks[i].id) && c.desks[i].id != RESERVED_DESK_ID
  {
    assert DeskOk(c.desks[i]);
  }

  /** Under one base, a desk topic names one desk and one leaf. */
  lemma DeskTopicsAreDistinct(c: Settings, base: string, i: nat, leaf: string, j: nat, leaf': string)
    requires Accepted(c) && i < |c.desks| && j < |c.desks| && leaf in METRIC_LEAVES && leaf' in METRIC_LEAVES
    ensures DeskTopic(base, c, i, leaf) == DeskTopic(base, c, j, leaf') <==> i == j && leaf == leaf'
  {
    LeavesAreOneLevel();
    AcceptedIdsAreOneLevel(c, i);
    AcceptedIdsAreOneLevel(c, j);
    if DeskTopic(base, c, i, leaf) == DeskTopic(base, c, j, leaf') {
      TopicIsInjective(base, c.desks[i].id, leaf, base, c.desks[j].id, leaf');
    }
  }

  /** A topic whose three parts hold no wildcard, and whose first two are not empty. */
  predicate Concrete(base: string, id: string, leaf: string) {
    && '+' !in base && '#' !in base && '+' !in id && '#' !in id && '+' !in leaf && '#' !in leaf
    && base != "" && base[|base| - 1] != '/' && id != "" && '/' !in id && '/' !in leaf
  }

  /** No topic of an accepted configuration holds a wildcard, or an empty level before a desk's id or after it. */
  lemma TopicsAreConcrete(c: Settings, i: nat, leaf: string)
    requires Accepted(c) && i < |c.desks| && leaf in METRIC_LEAVES
    ensures Concrete(c.commandTopicBase, c.desks[i].id, leaf) && Concrete(c.metricTopicBase, c.desks[i].id, leaf)
  {
    assert DeskOk(c.desks[i]);
    assert TrimSpace("") == "";
    LeavesAreOneLevel();
  }

  function BridgeTopic(c: Settings): string {
    Topic(c.metricTopicBase, RESERVED_DESK_ID, LEAF_AVAILABILITY)
  }

  /** No desk topic, command or metric, is the bridge's own. */
  lemma BridgeTopicIsItsOwn(c: Settings, base: string, i: nat, leaf: string)
    requires Accepted(c) && i < |c.desks| && leaf in METRIC_LEAVES
    ensures DeskTopic(base, c, i, leaf) != BridgeTopic(c)
  {
    LeavesAreOneLevel();
    AcceptedIdsAreOneLevel(c, i);
    if DeskTopic(base, c, i, leaf) == BridgeTopic(c) {
      TopicIsInjective(base, c.desks[i].id, leaf, c.metricTopicBase, RESERVED_DESK_ID, LEAF_AVAILABILITY);
    }
  }

  /** The bridge subscribes to a topic it publishes on exactly when the two bases are the same. */
  ghost predicate HearsItself(c: Settings) {
    exists i: nat, leaf, j: nat, leaf' ::
      && i < |c.desks| && j < |c.desks| && leaf in COMMAND_LEAVES && leaf' in METRIC_LEAVES
      && DeskTopic(c.commandTopicBase, c, i, leaf) == DeskTopic(c.metricTopicBase, c, j, leaf')
  }

  lemma HearsItselfIffBasesEqual(c: Settings)
    requires Accepted(c)
    ensures HearsItself(c) <==> c.commandTopicBase == c.metricTopicBase
  {
    if HearsItself(c) {
      var i: nat, leaf, j: nat, leaf' :|
        && i < |c.desks| && j < |c.desks| && leaf in COMMAND_LEAVES && leaf' in METRIC_LEAVES
        && DeskTopic(c.commandTopicBase, c, i, leaf) == DeskTopic(c.metricTopicBase, c, j, leaf');
      LeavesAreOneLevel();
      AcceptedIdsAreOneLevel(c, i);
      AcceptedIdsAreOneLevel(c, j);
      TopicIsInjective(c.commandTopicBase, c.desks[i].id, leaf, c.metricTopicBase, c.desks[j].id, leaf');
    }
    if c.commandTopicBase == c.metricTopicBase {
      assert LEAF_HEIGHT in COMMAND_LEAVES && LEAF_HEIGHT in METRIC_LEAVES;
      assert DeskTopic(c.commandTopicBase, c, 0, LEAF_HEIGHT) == DeskTopic(c.metricTopicBase, c, 0, LEAF_HEIGHT);
    }
  }

  /** Prefixes can nest: two desks can be accepted although any name the longer prefix starts matches both. */
  lemma NestedPrefixesOverlap(c: Settings, i: nat, j: nat, rest: string, tail: string, adv: Advert)
    requires Accepted(c) && i < |c.desks| && j < |c.desks|
    requires c.desks[i].namePrefix != "" && TrimSpace(c.desks[i].namePrefix) == c.desks[i].namePrefix
    requires c.desks[j].namePrefix == c.desks[i].namePrefix + rest
    requires TrimSpace(c.desks[j].namePrefix) == c.desks[j].namePrefix
    requires adv.name.Some? && TrimSpace(adv.name.value) == c.desks[j].namePrefix + tail
    ensures MatchesDesk(c.desks[i], adv) && MatchesDesk(c.desks[j], adv)
  {
    var got := c.desks[j].namePrefix + tail;
    PrefixFits(c.desks[i], rest + tail);
    PrefixFits(c.desks[j], tail);
    assert c.desks[i].namePrefix + (rest + tail) == got;
    assert DeskOk(c.desks[i]) && DeskOk(c.desks[j]);
    assert AdvertisedNames(adv)[0] == got;
  }

  /** A prefix written without padding fits the names it starts. */
  lemma PrefixFits(d: DeskConfig, rest: string)
    requires d.namePrefix != "" && TrimSpace(d.namePrefix) == d.namePrefix
    ensures NameFits(d, d.namePrefix + rest)
  {
    assert (d.namePrefix + rest)[..|d.namePrefix|] == d.namePrefix;
  }
}
