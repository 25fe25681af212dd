/** The simulation rules of the war-room dashboard (front-web/src/App.jsx):
    the periodic tick that advances fronts and wears down their divisions,
    the milestone dictionary, the bounded battle log, and the handlers for
    launching, pausing, resupplying and digging in a front and for ordering
    a division.

    The record updates are pure functions over fronts and divisions; the
    dashboard's state cells (`fronts`, `divisions`, `battleLog`, `speed`,
    `isPaused`) and the `milestoneRef` dictionary are the fields of the
    `WarRoom` class, whose methods apply those functions. React runs each
    state updater at the `set…` call here. */
module WarRoom {
  import opened Common
  import opened WarRecords

  // ------------------------------------------------------------ battle log

  datatype Severity = Info | Success | Warning

  /** The texts the dashboard logs, with the names they mention. */
  datatype Message =
    | ObjectiveSecured(frontName: string, objective: string)
    | OffensiveStalled(frontName: string)
    | ThresholdReached(frontName: string, threshold: real, objective: string)
    | OffensiveStarted(objective: string)
    | OffensiveImpossible
    | AdvanceHalted
    | SupplyColumnsSent
    | DefencesStrengthened
    | AirstrikeHit(divisionName: string)
    | SupportOrdered(divisionName: string)
    | FallbackOrdered(divisionName: string)
    | ResupplyPrioritized(divisionName: string)

  /** `{ time, severity, message }`; `time` is the formatted game clock. */
  datatype LogEntry = LogEntry(time: string, severity: Severity, message: Message)

  const LogCapacity: nat := 9

  /** `[entry, ...prev].slice(0, 9)`. */
  function AddLogEntry(log: seq<LogEntry>, entry: LogEntry): (r: seq<LogEntry>)
    ensures |r| == if |log| + 1 <= LogCapacity then |log| + 1 else LogCapacity
    ensures r[0] == entry
    ensures forall i :: 1 <= i < |r| ==> r[i] == log[i - 1]
  {
    var full := [entry] + log;
    if |full| <= LogCapacity then full else full[..LogCapacity]
  }

  /** `messages.forEach((message) => addLogEntry(message, severity))`. */
  function AddLogEntries(log: seq<LogEntry>, time: string, severity: Severity, messages: seq<Message>): (r: seq<LogEntry>)
    ensures |r| <= LogCapacity || (|messages| == 0 && r == log)
  {
    if |messages| == 0 then log
    else AddLogEntry(AddLogEntries(log, time, severity, messages[..|messages| - 1]), LogEntry(time, severity, messages[|messages| - 1]))
  }

  /** Logging a batch puts the newest message first: the log is the batch
      reversed followed by the previous log, cut to 9 entries. */
  lemma {:induction false} AddLogEntriesNewestFirst(log: seq<LogEntry>, time: string, severity: Severity, messages: seq<Message>)
    ensures var r := AddLogEntries(log, time, severity, messages);
      |r| == (if |log| + |messages| <= LogCapacity then |log| + |messages| else if |messages| == 0 then |log| else LogCapacity) &&
      (forall i :: 0 <= i < |r| && i < |messages| ==> r[i] == LogEntry(time, severity, messages[|messages| - 1 - i])) &&
      (forall i :: |messages| <= i < |r| ==> r[i] == log[i - |messages|])
  {
    if |messages| > 0 {
      var init := messages[..|messages| - 1];
      AddLogEntriesNewestFirst(log, time, severity, init);
      var prev := AddLogEntries(log, time, severity, init);
      var r := AddLogEntries(log, time, severity, messages);
      assert r == AddLogEntry(prev, LogEntry(time, severity, messages[|messages| - 1]));
      forall i | 1 <= i < |r| && i < |messages|
        ensures r[i] == LogEntry(time, severity, messages[|messages| - 1 - i])
      {
        assert r[i] == prev[i - 1];
        assert init[|init| - 1 - (i - 1)] == messages[|messages| - 1 - i];
      }
    }
  }

  // -------------------------------------------------------------- the tick

  /** `${front.id}-${threshold}`: the id and the threshold determine the key
      and are recovered from it, so the key is modelled as the pair. */
  datatype MilestoneKey = MilestoneKey(frontId: string, threshold: real)

  const FrontThresholds: seq<real> := [0.25, 0.5, 0.75]

  /** `milestoneRef.current[key] ?? 0`. */
  function Recorded(milestones: map<MilestoneKey, real>, key: MilestoneKey): real {
    if key in milestones then milestones[key] else 0.0
  }

  /** A front the tick moves: advancing and not yet at progress 1. */
  predicate IsAdvancing(front: Front) {
    front.state == Advancing && front.progress < 1.0
  }

  /** `0.012 * speed * readinessFactor * supplyFactor`. */
  function Momentum(speed: real, readiness: real, supply: real): real {
    0.012 * speed * Max(0.45, readiness / 100.0) * Max(0.5, supply / 100.0)
  }

  lemma ProductPositive(x: real, y: real)
    requires x > 0.0 && y > 0.0
    ensures x * y > 0.0
  {
  }

  /** With a positive speed the momentum is positive. */
  lemma MomentumPositive(speed: real, readiness: real, supply: real)
    requires speed > 0.0
    ensures Momentum(speed, readiness, supply) > 0.0
  {
    ProductPositive(0.012 * speed, Max(0.45, readiness / 100.0));
    ProductPositive(0.012 * speed * Max(0.45, readiness / 100.0), Max(0.5, supply / 100.0));
  }

  /** The record an advancing front becomes after one tick. */
  function AdvanceFront(front: Front, speed: real): Front {
    var momentum := Momentum(speed, front.readiness, front.supply);
    var nextProgress := Min(1.0, front.progress + momentum);
    var nextReadiness := Max(0.0, front.readiness - momentum * 140.0);
    var nextSupply := Max(0.0, front.supply - momentum * 95.0);
    var nextState :=
      if nextProgress >= 1.0 then Secured
      else if nextReadiness < 18.0 || nextSupply < 18.0 then Stalled
      else front.state;
    front.(progress := nextProgress, readiness := nextReadiness, supply := nextSupply, state := nextState,
           reportedLosses := front.reportedLosses + momentum * 2200.0)
  }

  /** The message pushed for the state change of an advancing front. */
  function StateMessages(front: Front, next: Front): seq<Message> {
    if next.progress >= 1.0 then [ObjectiveSecured(front.name, front.objective)]
    else if next.readiness < 18.0 || next.supply < 18.0 then [OffensiveStalled(front.name)]
    else []
  }

  /** One tick moves progress by the momentum (capped at 1), lowers readiness
      and supply without going below zero, keeps them at most 100, and
      secures or stalls the front exactly as the thresholds say. */
  lemma AdvanceFrontRules(front: Front, speed: real)
    requires speed > 0.0 && IsAdvancing(front)
    requires 0.0 <= front.progress <= 1.0 && 0.0 <= front.readiness <= 100.0 && 0.0 <= front.supply <= 100.0
    ensures AdvanceFront(front, speed).progress == Min(1.0, front.progress + Momentum(speed, front.readiness, front.supply))
    ensures front.progress <= AdvanceFront(front, speed).progress <= 1.0
    ensures 0.0 <= AdvanceFront(front, speed).readiness <= front.readiness
    ensures 0.0 <= AdvanceFront(front, speed).supply <= front.supply
    ensures AdvanceFront(front, speed).state == Secured <==> AdvanceFront(front, speed).progress >= 1.0
    ensures var next := AdvanceFront(front, speed);
      next.state == Stalled <==> next.progress < 1.0 && (next.readiness < 18.0 || next.supply < 18.0)
    ensures var next := AdvanceFront(front, speed);
      next.progress < 1.0 && next.readiness >= 18.0 && next.supply >= 18.0 ==> next.state == Advancing
    ensures AdvanceFront(front, speed).reportedLosses > front.reportedLosses
    ensures AdvanceFront(front, speed).(progress := front.progress, readiness := front.readiness, supply := front.supply,
               state := front.state, reportedLosses := front.reportedLosses) == front
  {
    MomentumPositive(speed, front.readiness, front.supply);
  }

  /** The `FRONT_THRESHOLDS.forEach` of one advancing front: record and
      announce every threshold reached now and not recorded before. */
  function StepThresholds(milestones: map<MilestoneKey, real>, front: Front, nextProgress: real, thresholds: seq<real>)
    : (r: (map<MilestoneKey, real>, seq<Message>))
    ensures |r.1| <= |thresholds|
  {
    if |thresholds| == 0 then (milestones, [])
    else
      var prev := StepThresholds(milestones, front, nextProgress, thresholds[..|thresholds| - 1]);
      var threshold := thresholds[|thresholds| - 1];
      var key := MilestoneKey(front.id, threshold);
      if nextProgress >= threshold && Recorded(prev.0, key) < threshold then
        (prev.0[key := threshold], prev.1 + [ThresholdReached(front.name, threshold, front.objective)])
      else prev
  }

  /** Thresholds are distinct. */
  ghost predicate Distinct(thresholds: seq<real>) {
    forall i, j :: 0 <= i < j < |thresholds| ==> thresholds[i] != thresholds[j]
  }

  /** A threshold step records threshold `t` (for this front) exactly when the
      new progress reaches `t` and the recorded value is below `t`, announces
      it in exactly that case, and leaves every other key as it was. */
  lemma {:induction false} StepThresholdsRule(milestones: map<MilestoneKey, real>, front: Front, nextProgress: real,
                                              thresholds: seq<real>, key: MilestoneKey)
    requires Distinct(thresholds)
    ensures var r := StepThresholds(milestones, front, nextProgress, thresholds);
      var reached := key.frontId == front.id && key.threshold in thresholds &&
                     nextProgress >= key.threshold && Recorded(milestones, key) < key.threshold;
      && Recorded(r.0, key) == (if reached then key.threshold else Recorded(milestones, key))
      && (key in r.0 <==> key in milestones || reached)
      && (key.frontId == front.id && key.threshold in thresholds ==>
            (ThresholdReached(front.name, key.threshold, front.objective) in r.1 <==> reached))
  {
    if |thresholds| > 0 {
      var init := thresholds[..|thresholds| - 1];
      assert Distinct(init);
      StepThresholdsRule(milestones, front, nextProgress, init, key);
      var t := thresholds[|thresholds| - 1];
      assert key.threshold in thresholds <==> key.threshold in init || key.threshold == t;
      assert t !in init;
      var prev := StepThresholds(milestones, front, nextProgress, init);
      if key.frontId == front.id && key.threshold == t {
        StepThresholdsNotAnnounced(milestones, front, nextProgress, init, t);
      }
    }
  }

  /** A threshold outside the list is never announced. */
  lemma {:induction false} StepThresholdsNotAnnounced(milestones: map<MilestoneKey, real>, front: Front, nextProgress: real,
                                                      thresholds: seq<real>, t: real)
    requires t !in thresholds
    ensures ThresholdReached(front.name, t, front.objective) !in StepThresholds(milestones, front, nextProgress, thresholds).1
  {
    if |thresholds| > 0 {
      var init := thresholds[..|thresholds| - 1];
      assert forall x :: x in init ==> x in thresholds;
      StepThresholdsNotAnnounced(milestones, front, nextProgress, init, t);
    }
  }

  /** The values the dictionary holds: 0 or the key's own threshold. */
  ghost predicate MilestonesWellFormed(milestones: map<MilestoneKey, real>) {
    forall key :: key in milestones ==> milestones[key] == 0.0 || milestones[key] == key.threshold
  }

  /** A milestone once recorded is never announced again until a launch
      re-seeds it: a recorded threshold stays recorded and is not announced. */
  lemma ThresholdAnnouncedOnce(milestones: map<MilestoneKey, real>, front: Front, nextProgress: real, t: real)
    requires t in FrontThresholds && Recorded(milestones, MilestoneKey(front.id, t)) == t
    ensures var r := StepThresholds(milestones, front, nextProgress, FrontThresholds);
      ThresholdReached(front.name, t, front.objective) !in r.1 &&
      Recorded(r.0, MilestoneKey(front.id, t)) == t
  {
    StepThresholdsRule(milestones, front, nextProgress, FrontThresholds, MilestoneKey(front.id, t));
  }

  /** The outcome of the fronts updater: the new list, the dictionary, the
      pushed messages and the ids of the fronts that advanced. */
  datatype TickOutcome = TickOutcome(
    fronts: seq<Front>, milestones: map<MilestoneKey, real>, messages: seq<Message>, advanced: set<string>)

  /** The fronts updater of the tick over the first fronts of the list. */
  function TickFronts(fronts: seq<Front>, milestones: map<MilestoneKey, real>, speed: real): (r: TickOutcome)
    ensures |r.fronts| == |fronts|
  {
    if |fronts| == 0 then TickOutcome([], milestones, [], {})
    else
      var prev := TickFronts(fronts[..|fronts| - 1], milestones, speed);
      var front := fronts[|fronts| - 1];
      if !IsAdvancing(front) then prev.(fronts := prev.fronts + [front])
      else
        var next := AdvanceFront(front, speed);
        var stepped := StepThresholds(prev.milestones, front, next.progress, FrontThresholds);
        TickOutcome(prev.fronts + [next], stepped.0, prev.messages + StateMessages(front, next) + stepped.1,
                    prev.advanced + {front.id})
  }

  /** The tick moves exactly the advancing fronts: every other front is kept
      as it is. */
  lemma {:induction false} TickFrontsPointwise(fronts: seq<Front>, milestones: map<MilestoneKey, real>, speed: real)
    ensures var r := TickFronts(fronts, milestones, speed);
      forall i :: 0 <= i < |fronts| ==> r.fronts[i] == if IsAdvancing(fronts[i]) then AdvanceFront(fronts[i], speed) else fronts[i]
  {
    if |fronts| > 0 {
      var init := fronts[..|fronts| - 1];
      TickFrontsPointwise(init, milestones, speed);
      var prev := TickFronts(init, milestones, speed);
      var last := fronts[|fronts| - 1];
      assert TickFronts(fronts, milestones, speed).fronts ==
        prev.fronts + [if IsAdvancing(last) then AdvanceFront(last, speed) else last];
      assert forall i :: 0 <= i < |init| ==> init[i] == fronts[i];
    }
  }

  /** The advanced ids are exactly those of the advancing fronts. */
  lemma {:induction false} TickAdvancedIds(fronts: seq<Front>, milestones: map<MilestoneKey, real>, speed: real)
    ensures forall id :: id in TickFronts(fronts, milestones, speed).advanced <==>
      exists i :: 0 <= i < |fronts| && fronts[i].id == id && IsAdvancing(fronts[i])
  {
    if |fronts| > 0 {
      var init := fronts[..|fronts| - 1];
      TickAdvancedIds(init, milestones, speed);
      var prev := TickFronts(init, milestones, speed);
      var last := fronts[|fronts| - 1];
      var advanced := TickFronts(fronts, milestones, speed).advanced;
      assert advanced == if IsAdvancing(last) then prev.advanced + {last.id} else prev.advanced;
      forall id
        ensures id in advanced <==> exists i :: 0 <= i < |fronts| && fronts[i].id == id && IsAdvancing(fronts[i])
      {
        if id in prev.advanced {
          var i :| 0 <= i < |init| && init[i].id == id && IsAdvancing(init[i]);
          assert fronts[i] == init[i];
        }
        if exists i :: 0 <= i < |fronts| && fronts[i].id == id && IsAdvancing(fronts[i]) {
          var i :| 0 <= i < |fronts| && fronts[i].id == id && IsAdvancing(fronts[i]);
          if i < |init| {
            assert init[i] == fronts[i];
          }
        }
      }
    }
  }

  /** When no front is advancing, the tick changes nothing: same list, same
      dictionary, no message and no advanced front. */
  lemma {:induction false} TickWithoutAdvance(fronts: seq<Front>, milestones: map<MilestoneKey, real>, speed: real)
    requires forall i :: 0 <= i < |fronts| ==> !IsAdvancing(fronts[i])
    ensures TickFronts(fronts, milestones, speed) == TickOutcome(fronts, milestones, [], {})
  {
    if |fronts| > 0 {
      TickWithoutAdvance(fronts[..|fronts| - 1], milestones, speed);
      assert fronts[..|fronts| - 1] + [fronts[|fronts| - 1]] == fronts;
    }
  }

  /** The tick keeps the dictionary well formed. */
  lemma {:induction false} TickKeepsMilestonesWellFormed(fronts: seq<Front>, milestones: map<MilestoneKey, real>, speed: real)
    requires MilestonesWellFormed(milestones)
    ensures MilestonesWellFormed(TickFronts(fronts, milestones, speed).milestones)
  {
    if |fronts| > 0 {
      TickKeepsMilestonesWellFormed(fronts[..|fronts| - 1], milestones, speed);
      var prev := TickFronts(fronts[..|fronts| - 1], milestones, speed);
      var front := fronts[|fronts| - 1];
      if IsAdvancing(front) {
        StepKeepsMilestonesWellFormed(prev.milestones, front, AdvanceFront(front, speed).progress, FrontThresholds);
      }
    }
  }

  lemma {:induction false} StepKeepsMilestonesWellFormed(milestones: map<MilestoneKey, real>, front: Front, nextProgress: real, thresholds: seq<real>)
    requires MilestonesWellFormed(milestones)
    ensures MilestonesWellFormed(StepThresholds(milestones, front, nextProgress, thresholds).0)
  {
    if |thresholds| > 0 {
      StepKeepsMilestonesWellFormed(milestones, front, nextProgress, thresholds[..|thresholds| - 1]);
    }
  }

  /** Attrition of a division whose front advanced this tick. */
  function AttritDivision(division: Division, speed: real): Division {
    var isFriendly := division.faction == Friendly;
    var orgLoss := if isFriendly then 1.5 * speed else 1.1 * speed;
    var strengthLoss := if isFriendly then 0.6 * speed else 0.9 * speed;
    var nextOrg := Max(0.0, division.organization - orgLoss);
    var nextStrength := Max(0.0, division.strength - strengthLoss);
    var nextStatus :=
      if nextOrg < 25.0 then Exhausted
      else if isFriendly && division.status == Reserve then Frontline
      else if !isFriendly && nextOrg < 45.0 then Probing
      else division.status;
    division.(organization := nextOrg, strength := nextStrength, status := nextStatus)
  }

  /** A division the tick wears down: assigned to a front that advanced. */
  predicate AssignedToAny(division: Division, frontIds: set<string>) {
    division.assignment.Some? && division.assignment.value.frontId in frontIds
  }

  /** The divisions updater of the tick. */
  function TickDivisions(divisions: seq<Division>, advanced: set<string>, speed: real): (r: seq<Division>)
    ensures |r| == |divisions|
    ensures forall i :: 0 <= i < |divisions| && !AssignedToAny(divisions[i], advanced) ==> r[i] == divisions[i]
  {
    seq(|divisions|, i requires 0 <= i < |divisions| =>
      if AssignedToAny(divisions[i], advanced) then AttritDivision(divisions[i], speed) else divisions[i])
  }

  /** Attrition lowers organization and strength without going below zero,
      touches nothing else but the status, and sets the status by the
      source's rule. */
  lemma AttritionRules(division: Division, speed: real)
    requires speed > 0.0 && division.organization >= 0.0 && division.strength >= 0.0
    ensures var next := AttritDivision(division, speed);
      && 0.0 <= next.organization <= division.organization
      && 0.0 <= next.strength <= division.strength
      && (next.organization < 25.0 ==> next.status == Exhausted)
      && (next.organization >= 25.0 && division.faction == Friendly && division.status == Reserve ==> next.status == Frontline)
      && (25.0 <= next.organization < 45.0 && division.faction == Enemy ==> next.status == Probing)
      && ((next.organization >= 25.0 && !(division.faction == Friendly && division.status == Reserve) &&
           !(division.faction == Enemy && next.organization < 45.0)) ==> next.status == division.status)
      && next.(organization := division.organization, strength := division.strength, status := division.status) == division
  {
  }

  // -------------------------------------------------------------- handlers

  /** `front.readiness > 25 && front.supply > 25`. */
  predicate CanAdvance(front: Front) {
    front.readiness > 25.0 && front.supply > 25.0
  }

  /** The launch updater of one front. */
  function LaunchFront(front: Front): Front {
    if CanAdvance(front) then front.(state := Advancing, progress := Max(front.progress, 0.02))
    else front.(state := Stalled)
  }

  /** `prev.map(front => front.id !== frontId ? front : update(front))`. */
  function UpdateNamedFront(fronts: seq<Front>, frontId: string, update: Front -> Front): (r: seq<Front>)
    ensures |r| == |fronts|
    ensures forall i :: 0 <= i < |fronts| ==> r[i] == if fronts[i].id == frontId then update(fronts[i]) else fronts[i]
  {
    seq(|fronts|, i requires 0 <= i < |fronts| => if fronts[i].id == frontId then update(fronts[i]) else fronts[i])
  }

  /** The last front with the id: the one whose `canAdvance` and `objective`
      the launch handler keeps. */
  function LastMatch(fronts: seq<Front>, frontId: string): (r: Option<Front>)
    ensures r.None? <==> forall i :: 0 <= i < |fronts| ==> fronts[i].id != frontId
    ensures r.Some? ==> exists i :: 0 <= i < |fronts| && fronts[i] == r.value && fronts[i].id == frontId &&
                                    (forall j :: i < j < |fronts| ==> fronts[j].id != frontId)
  {
    if |fronts| == 0 then None
    else if fronts[|fronts| - 1].id == frontId then
      var r := Some(fronts[|fronts| - 1]);
      assert fronts[|fronts| - 1] == r.value;
      r
    else
      var prefix := fronts[..|fronts| - 1];
      var r := LastMatch(prefix, frontId);
      assert r.None? ==> forall i :: 0 <= i < |fronts| ==> fronts[i].id != frontId by {
        if r.None? {
          forall i | 0 <= i < |fronts| ensures fronts[i].id != frontId {
            if i < |prefix| { assert prefix[i] == fronts[i]; }
          }
        }
      }
      assert r.Some? ==> exists i :: 0 <= i < |fronts| && fronts[i] == r.value && fronts[i].id == frontId &&
                                     (forall j :: i < j < |fronts| ==> fronts[j].id != frontId) by {
        if r.Some? {
          var i :| 0 <= i < |prefix| && prefix[i] == r.value && prefix[i].id == frontId &&
                   (forall j :: i < j < |prefix| ==> prefix[j].id != frontId);
          assert prefix[i] == fronts[i];
          forall j | i < j < |fronts| ensures fronts[j].id != frontId {
            if j < |prefix| { assert prefix[j] == fronts[j]; }
          }
        }
      }
      r
  }

  /** `prev.find((front) => front.id === frontId)`. */
  function FirstFront(fronts: seq<Front>, frontId: string): (r: Option<Front>)
    ensures r.None? <==> forall i :: 0 <= i < |fronts| ==> fronts[i].id != frontId
    ensures r.Some? ==> exists i :: 0 <= i < |fronts| && fronts[i] == r.value && fronts[i].id == frontId &&
                                    (forall j :: 0 <= j < i ==> fronts[j].id != frontId)
  {
    if |fronts| == 0 then None
    else if fronts[0].id == frontId then
      var r := Some(fronts[0]);
      assert fronts[0] == r.value;
      r
    else
      var rest := fronts[1..];
      var r := FirstFront(rest, frontId);
      assert forall i :: 1 <= i < |fronts| ==> rest[i - 1] == fronts[i];
      assert r.Some? ==> exists i :: 0 <= i < |fronts| && fronts[i] == r.value && fronts[i].id == frontId &&
                                     (forall j :: 0 <= j < i ==> fronts[j].id != frontId) by {
        if r.Some? {
          var i :| 0 <= i < |rest| && rest[i] == r.value && rest[i].id == frontId &&
                   (forall j :: 0 <= j < i ==> rest[j].id != frontId);
          assert fronts[i + 1] == r.value && fronts[i + 1].id == frontId;
        }
      }
      r
  }

  /** The milestone re-seeding of a launch: key `id-0` to 0, and each
      threshold to itself when progress already reached it, else to 0. */
  function SeedThresholds(milestones: map<MilestoneKey, real>, front: Front, thresholds: seq<real>): map<MilestoneKey, real> {
    if |thresholds| == 0 then milestones
    else
      var t := thresholds[|thresholds| - 1];
      SeedThresholds(milestones, front, thresholds[..|thresholds| - 1])[MilestoneKey(front.id, t) := if front.progress >= t then t else 0.0]
  }

  /** Re-seeding across every front with the id that can advance. */
  function ReseedMilestones(milestones: map<MilestoneKey, real>, fronts: seq<Front>, frontId: string): map<MilestoneKey, real> {
    if |fronts| == 0 then milestones
    else
      var prev := ReseedMilestones(milestones, fronts[..|fronts| - 1], frontId);
      var front := fronts[|fronts| - 1];
      if front.id == frontId && CanAdvance(front) then SeedThresholds(prev[MilestoneKey(front.id, 0.0) := 0.0], front, FrontThresholds)
      else prev
  }

  /** Seeding sets each threshold key of the front to the threshold when
      progress reached it and to 0 otherwise, and changes no other key. */
  lemma {:induction false} SeedThresholdsRule(milestones: map<MilestoneKey, real>, front: Front, thresholds: seq<real>, key: MilestoneKey)
    ensures var r := SeedThresholds(milestones, front, thresholds);
      if key.frontId == front.id && key.threshold in thresholds
      then key in r && r[key] == (if front.progress >= key.threshold then key.threshold else 0.0)
      else (key in r <==> key in milestones) && (key in r ==> r[key] == milestones[key])
  {
    if |thresholds| > 0 {
      var init := thresholds[..|thresholds| - 1];
      SeedThresholdsRule(milestones, front, init, key);
      assert key.threshold in thresholds <==> key.threshold in init || key.threshold == thresholds[|thresholds| - 1];
    }
  }

  /** A launch keeps the dictionary well formed. */
  lemma {:induction false} ReseedKeepsMilestonesWellFormed(milestones: map<MilestoneKey, real>, fronts: seq<Front>, frontId: string)
    requires MilestonesWellFormed(milestones)
    ensures MilestonesWellFormed(ReseedMilestones(milestones, fronts, frontId))
  {
    if |fronts| > 0 {
      ReseedKeepsMilestonesWellFormed(milestones, fronts[..|fronts| - 1], frontId);
      var prev := ReseedMilestones(milestones, fronts[..|fronts| - 1], frontId);
      var front := fronts[|fronts| - 1];
      if front.id == frontId && CanAdvance(front) {
        var seeded := prev[MilestoneKey(front.id, 0.0) := 0.0];
        forall key | key in SeedThresholds(seeded, front, FrontThresholds)
          ensures SeedThresholds(seeded, front, FrontThresholds)[key] == 0.0 ||
                  SeedThresholds(seeded, front, FrontThresholds)[key] == key.threshold
        {
          SeedThresholdsRule(seeded, front, FrontThresholds, key);
        }
      }
    }
  }

  /** `division.assignment?.frontId === frontId && division.faction === 'friendly'`. */
  predicate FriendlyOnFront(division: Division, frontId: string) {
    division.assignment.Some? && division.assignment.value.frontId == frontId && division.faction == Friendly
  }

  /** `prev.map(division => friendly on the front ? update(division) : division)`. */
  function UpdateFriendlyOnFront(divisions: seq<Division>, frontId: string, update: Division -> Division): (r: seq<Division>)
    ensures |r| == |divisions|
    ensures forall i :: 0 <= i < |divisions| ==>
      r[i] == if FriendlyOnFront(divisions[i], frontId) then update(divisions[i]) else divisions[i]
  {
    seq(|divisions|, i requires 0 <= i < |divisions| =>
      if FriendlyOnFront(divisions[i], frontId) then update(divisions[i]) else divisions[i])
  }

  function LaunchDivision(division: Division): Division {
    division.(status := Attacking, organization := Max(0.0, division.organization - 2.5))
  }

  function PauseFront(front: Front): Front {
    front.(state := Regrouping, readiness := Min(100.0, front.readiness + 6.0), supply := Min(100.0, front.supply + 8.0))
  }

  function PauseDivision(division: Division): Division {
    division.(status := Reorganizing, organization := Min(100.0, division.organization + 3.5))
  }

  function ResupplyFront(front: Front): Front {
    front.(state := Preparing, readiness := Min(100.0, front.readiness + 12.0), supply := Min(100.0, front.supply + 18.0))
  }

  /** `division.logistics ?? 70`. */
  const DefaultLogistics: real := 70.0

  function ResupplyDivision(division: Division): Division {
    division.(status := Resupplying, organization := Min(100.0, division.organization + 4.5),
              logistics := Some(Min(100.0, division.logistics.GetOr(DefaultLogistics) + 3.0)))
  }

  function DigInFront(front: Front): Front {
    front.(state := Idle, readiness := Min(100.0, front.readiness + 9.0), supply := Max(0.0, front.supply - 4.0))
  }

  /** Launch: a front that can advance becomes advancing with progress at
      least 0.02 (and at least what it had); one that cannot becomes stalled
      and nothing else about it changes. */
  lemma LaunchFrontRule(front: Front)
    ensures var next := LaunchFront(front);
      && (CanAdvance(front) ==> next.state == Advancing && next.progress == Max(front.progress, 0.02) &&
                                next.progress >= 0.02 && next.progress >= front.progress)
      && (!CanAdvance(front) ==> next == front.(state := Stalled))
      && next.(state := front.state, progress := front.progress) == front
  {
  }

  /** Pause, resupply and dig-in raise readiness and supply toward 100 and
      never above it; dig-in lowers supply by 4 and never below 0. */
  lemma FrontOrdersBounded(front: Front)
    requires 0.0 <= front.readiness <= 100.0 && 0.0 <= front.supply <= 100.0
    ensures var p := PauseFront(front);
      p.state == Regrouping && front.readiness <= p.readiness <= 100.0 && front.supply <= p.supply <= 100.0
    ensures var r := ResupplyFront(front);
      r.state == Preparing && front.readiness <= r.readiness <= 100.0 && front.supply <= r.supply <= 100.0
    ensures var d := DigInFront(front);
      d.state == Idle && front.readiness <= d.readiness <= 100.0 && 0.0 <= d.supply <= front.supply &&
      (front.supply >= 4.0 ==> d.supply == front.supply - 4.0)
    ensures PauseFront(front).progress == front.progress && ResupplyFront(front).progress == front.progress &&
            DigInFront(front).progress == front.progress
  {
  }

  /** The friendly-division updates of launch, pause and resupply keep
      organization and logistics within [0, 100]. */
  lemma DivisionUpdatesBounded(division: Division)
    requires 0.0 <= division.organization <= 100.0
    requires division.logistics.Some? ==> 0.0 <= division.logistics.value <= 100.0
    ensures var l := LaunchDivision(division);
      l.status == Attacking && 0.0 <= l.organization <= division.organization
    ensures var p := PauseDivision(division);
      p.status == Reorganizing && division.organization <= p.organization <= 100.0
    ensures var r := ResupplyDivision(division);
      r.status == Resupplying && division.organization <= r.organization <= 100.0 &&
      r.logistics.Some? && 0.0 <= r.logistics.value <= 100.0 &&
      (division.logistics.None? ==> r.logistics.value == 73.0)
  {
  }

  /** The orders a division can receive. */
  datatype Order = Airstrike | Support | Fallback | ResupplyOrder

  const SupportDepthCap: real := -2600.0
  const FallbackDepth: real := -9200.0

  /** `{ ...assignment, depth: f(depth) }` when there is an assignment. A
      missing depth stays missing (JavaScript computes `NaN` there). */
  function MoveDepth(assignment: Option<Assignment>, depthOf: real -> real): Option<Assignment> {
    match assignment
    case None => None
    case Some(a) => Some(a.(depth := match a.depth case None => None case Some(d) => Some(depthOf(d))))
  }

  /** The fallback depth, set whatever the depth was. */
  function FallbackAssignment(assignment: Option<Assignment>): Option<Assignment> {
    match assignment
    case None => None
    case Some(a) => Some(a.(depth := Some(FallbackDepth)))
  }

  /** The update and the log message of one division order. */
  function OrderDivision(division: Division, order: Order): (Division, seq<Message>) {
    if division.faction == Enemy && order == Airstrike then
      (division.(organization := Max(0.0, division.organization - 12.0), strength := Max(0.0, division.strength - 4.0),
                 status := Entrenched), [AirstrikeHit(division.name)])
    else if division.faction != Friendly then (division, [])
    else match order
      case Support =>
        (division.(status := Attacking, organization := Max(0.0, division.organization - 6.0),
                   assignment := MoveDepth(division.assignment, d => Min(SupportDepthCap, d - 800.0))),
         [SupportOrdered(division.name)])
      case Fallback =>
        (division.(status := Reserve, organization := Min(100.0, division.organization + 12.0),
                   strength := Min(100.0, division.strength + 4.0), assignment := FallbackAssignment(division.assignment)),
         [FallbackOrdered(division.name)])
      case ResupplyOrder =>
        (division.(status := Resupplying, organization := Min(100.0, division.organization + 9.0),
                   strength := Min(100.0, division.strength + 2.0),
                   logistics := Some(Min(100.0, division.logistics.GetOr(DefaultLogistics) + 5.0))),
         [ResupplyPrioritized(division.name)])
      case Airstrike => (division, [])
  }

  /** The divisions and the messages after ordering the divisions with the id. */
  function OrderDivisions(divisions: seq<Division>, divisionId: string, order: Order): (r: (seq<Division>, seq<Message>))
    ensures |r.0| == |divisions|
  {
    if |divisions| == 0 then ([], [])
    else
      var prev := OrderDivisions(divisions[..|divisions| - 1], divisionId, order);
      var division := divisions[|divisions| - 1];
      if division.id != divisionId then (prev.0 + [division], prev.1)
      else
        var ordered := OrderDivision(division, order);
        (prev.0 + [ordered.0], prev.1 + ordered.1)
  }

  /** Orders change only the divisions with that id. */
  lemma {:induction false} OrderDivisionsPointwise(divisions: seq<Division>, divisionId: string, order: Order)
    ensures forall i :: 0 <= i < |divisions| ==>
      OrderDivisions(divisions, divisionId, order).0[i] ==
        if divisions[i].id == divisionId then OrderDivision(divisions[i], order).0 else divisions[i]
  {
    if |divisions| > 0 {
      OrderDivisionsPointwise(divisions[..|divisions| - 1], divisionId, order);
    }
  }

  /** What an order does: an airstrike only hits enemies; an enemy ignores
      every other order; support moves the depth to min(-2600, depth - 800);
      fallback puts it at -9200; an unassigned division stays unassigned;
      organization, strength and logistics stay within [0, 100]. */
  lemma OrderRules(division: Division, order: Order)
    requires 0.0 <= division.organization <= 100.0 && 0.0 <= division.strength <= 100.0
    requires division.logistics.Some? ==> 0.0 <= division.logistics.value <= 100.0
    ensures var next := OrderDivision(division, order).0;
      && (division.faction == Enemy && order == Airstrike ==>
            next.status == Entrenched && next.organization == Max(0.0, division.organization - 12.0) &&
            next.strength == Max(0.0, division.strength - 4.0))
      && (division.faction == Enemy && order != Airstrike ==> next == division)
      && (division.faction == Friendly && order == Airstrike ==> next == division)
      && (division.faction == Friendly && order == Support && division.assignment.Some? &&
          division.assignment.value.depth.Some? ==>
            next.assignment.value.depth == Some(Min(-2600.0, division.assignment.value.depth.value - 800.0)) &&
            next.assignment.value.depth.value <= -2600.0)
      && (division.faction == Friendly && order == Fallback && division.assignment.Some? ==>
            next.assignment.value.depth == Some(-9200.0) && next.status == Reserve)
      && (division.assignment.None? ==> next.assignment.None?)
      && (division.assignment.Some? ==> next.assignment.Some? && next.assignment.value.frontId == division.assignment.value.frontId &&
                                        next.assignment.value.anchor == division.assignment.value.anchor)
      && 0.0 <= next.organization <= 100.0 && 0.0 <= next.strength <= 100.0
      && (next.logistics.Some? ==> 0.0 <= next.logistics.value <= 100.0)
      && next.id == division.id && next.faction == division.faction && next.position == division.position
  {
  }

  /** The threshold loop of one advancing front. */
  method CheckThresholds(milestones: map<MilestoneKey, real>, front: Front, nextProgress: real)
    returns (updated: map<MilestoneKey, real>, messages: seq<Message>)
    ensures (updated, messages) == StepThresholds(milestones, front, nextProgress, FrontThresholds)
  {
    updated := milestones;
    messages := [];
    for j := 0 to |FrontThresholds|
      invariant (updated, messages) == StepThresholds(milestones, front, nextProgress, FrontThresholds[..j])
    {
      var threshold := FrontThresholds[j];
      var key := MilestoneKey(front.id, threshold);
      var previous := if key in updated then updated[key] else 0.0;
      assert FrontThresholds[..j + 1][..j] == FrontThresholds[..j];
      if nextProgress >= threshold && previous < threshold {
        updated := updated[key := threshold];
        messages := messages + [ThresholdReached(front.name, threshold, front.objective)];
      }
    }
    assert FrontThresholds[..|FrontThresholds|] == FrontThresholds;
  }

  /** The fronts updater of the tick, as the loop over the fronts. */
  method AdvanceFronts(fronts: seq<Front>, milestones: map<MilestoneKey, real>, speed: real) returns (outcome: TickOutcome)
    ensures outcome == TickFronts(fronts, milestones, speed)
  {
    var advancedFrontIds: set<string> := {};
    var messages: seq<Message> := [];
    var updated: seq<Front> := [];
    var dictionary := milestones;
    for i := 0 to |fronts|
      invariant TickOutcome(updated, dictionary, messages, advancedFrontIds) == TickFronts(fronts[..i], milestones, speed)
    {
      var front := fronts[i];
      assert fronts[..i + 1][..i] == fronts[..i];
      if front.state != Advancing || front.progress >= 1.0 {
        updated := updated + [front];
        continue;
      }
      var next := AdvanceFront(front, speed);
      var reached;
      dictionary, reached := CheckThresholds(dictionary, front, next.progress);
      messages := messages + StateMessages(front, next) + reached;
      advancedFrontIds := advancedFrontIds + {front.id};
      updated := updated + [next];
    }
    assert fronts[..|fronts|] == fronts;
    outcome := TickOutcome(updated, dictionary, messages, advancedFrontIds);
  }

  /** `messages.forEach((message) => addLogEntry(message, severity))`. */
  method LogMessages(log: seq<LogEntry>, time: string, severity: Severity, messages: seq<Message>) returns (r: seq<LogEntry>)
    ensures r == AddLogEntries(log, time, severity, messages)
  {
    r := log;
    for k := 0 to |messages|
      invariant r == AddLogEntries(log, time, severity, messages[..k])
    {
      assert messages[..k + 1][..k] == messages[..k];
      r := AddLogEntry(r, LogEntry(time, severity, messages[k]));
    }
    assert messages[..|messages|] == messages;
  }

  /** The tick keeps every front within its bounds. */
  lemma TickKeepsBounds(fronts: seq<Front>, milestones: map<MilestoneKey, real>, speed: real)
    requires speed > 0.0 && forall i :: 0 <= i < |fronts| ==> FrontInBounds(fronts[i])
    ensures var r := TickFronts(fronts, milestones, speed).fronts;
      forall i :: 0 <= i < |r| ==> FrontInBounds(r[i])
  {
    TickFrontsPointwise(fronts, milestones, speed);
    forall i | 0 <= i < |fronts| && IsAdvancing(fronts[i])
      ensures FrontInBounds(AdvanceFront(fronts[i], speed))
    {
      AdvanceFrontRules(fronts[i], speed);
    }
  }

  /** Attrition keeps every division within its bounds. */
  lemma AttritionKeepsBounds(divisions: seq<Division>, advanced: set<string>, speed: real)
    requires speed > 0.0 && forall i :: 0 <= i < |divisions| ==> DivisionInBounds(divisions[i])
    ensures var r := TickDivisions(divisions, advanced, speed);
      forall i :: 0 <= i < |r| ==> DivisionInBounds(r[i])
  {
    forall i | 0 <= i < |divisions| && AssignedToAny(divisions[i], advanced)
      ensures DivisionInBounds(AttritDivision(divisions[i], speed))
    {
      AttritionRules(divisions[i], speed);
    }
  }

  /** An update that keeps a front within its bounds keeps the whole list
      within bounds when applied to the named front. */
  lemma NamedUpdateKeepsBounds(fronts: seq<Front>, frontId: string, update: Front -> Front)
    requires forall i :: 0 <= i < |fronts| ==> FrontInBounds(fronts[i]) && FrontInBounds(update(fronts[i]))
    ensures forall i :: 0 <= i < |fronts| ==> FrontInBounds(UpdateNamedFront(fronts, frontId, update)[i])
  {
  }

  /** Likewise for an update of the friendly divisions on a front. */
  lemma FriendlyUpdateKeepsBounds(divisions: seq<Division>, frontId: string, update: Division -> Division)
    requires forall i :: 0 <= i < |divisions| ==> DivisionInBounds(divisions[i]) && DivisionInBounds(update(divisions[i]))
    ensures forall i :: 0 <= i < |divisions| ==> DivisionInBounds(UpdateFriendlyOnFront(divisions, frontId, update)[i])
  {
  }

  // ----------------------------------------------------------------- state

  /** The record bounds the handlers keep. */
  ghost predicate FrontInBounds(front: Front) {
    0.0 <= front.progress <= 1.0 && 0.0 <= front.readiness <= 100.0 && 0.0 <= front.supply <= 100.0
  }

  ghost predicate DivisionInBounds(division: Division) {
    && 0.0 <= division.organization <= 100.0 && 0.0 <= division.strength <= 100.0
    && (division.logistics.Some? ==> 0.0 <= division.logistics.value <= 100.0)
  }

  /** The speeds the dashboard offers. */
  predicate IsSpeed(speed: real) {
    speed == 0.5 || speed == 1.0 || speed == 2.0
  }

  class Dashboard {
    var fronts: seq<Front>
    var divisions: seq<Division>
    var milestones: map<MilestoneKey, real>
    var battleLog: seq<LogEntry>
    var speed: real
    var isPaused: bool

    ghost predicate Valid()
      reads this
    {
      && IsSpeed(speed)
      && |battleLog| <= LogCapacity
      && MilestonesWellFormed(milestones)
      && (forall i :: 0 <= i < |fronts| ==> FrontInBounds(fronts[i]))
      && (forall i :: 0 <= i < |divisions| ==> DivisionInBounds(divisions[i]))
    }

    /** The dashboard as mounted: speed 1, running, an empty dictionary. */
    constructor(initialFronts: seq<Front>, initialDivisions: seq<Division>, initialLog: seq<LogEntry>)
      requires forall i :: 0 <= i < |initialFronts| ==> FrontInBounds(initialFronts[i])
      requires forall i :: 0 <= i < |initialDivisions| ==> DivisionInBounds(initialDivisions[i])
      requires |initialLog| <= LogCapacity
      ensures Valid()
      ensures fronts == initialFronts && divisions == initialDivisions && battleLog == initialLog
      ensures milestones == map[] && speed == 1.0 && !isPaused
    {
      fronts := initialFronts;
      divisions := initialDivisions;
      milestones := map[];
      battleLog := initialLog;
      speed := 1.0;
      isPaused := false;
    }

    /** One run of the tick interval (which only runs while not paused). */
    method Tick(time: string)
      requires Valid() && !isPaused
      modifies this
      ensures Valid()
      ensures var outcome := TickFronts(old(fronts), old(milestones), old(speed));
        && fronts == outcome.fronts
        && milestones == outcome.milestones
        && divisions == TickDivisions(old(divisions), outcome.advanced, old(speed))
        && battleLog == AddLogEntries(old(battleLog), time, Info, outcome.messages)
      ensures speed == old(speed) && isPaused == old(isPaused)
    {
      var outcome := AdvanceFronts(fronts, milestones, speed);
      TickKeepsBounds(fronts, milestones, speed);
      TickKeepsMilestonesWellFormed(fronts, milestones, speed);
      if outcome.advanced != {} {
        fronts := outcome.fronts;
      } else {
        TickFrontsPointwise(fronts, milestones, speed);
        TickAdvancedIds(fronts, milestones, speed);
        forall i | 0 <= i < |fronts|
          ensures !IsAdvancing(fronts[i])
        {
          assert fronts[i].id !in outcome.advanced;
        }
        TickWithoutAdvance(fronts, milestones, speed);
      }
      milestones := outcome.milestones;
      if |outcome.advanced| > 0 {
        AttritionKeepsBounds(divisions, outcome.advanced, speed);
        divisions := TickDivisions(divisions, outcome.advanced, speed);
      } else {
        assert divisions == TickDivisions(divisions, outcome.advanced, speed);
      }
      battleLog := LogMessages(battleLog, time, Info, outcome.messages);
    }

    /** `handleLaunchOffensive(frontId)`. */
    method LaunchOffensive(frontId: string, time: string)
      requires Valid()
      modifies this
      ensures Valid()
      ensures fronts == UpdateNamedFront(old(fronts), frontId, LaunchFront)
      ensures milestones == ReseedMilestones(old(milestones), old(fronts), frontId)
      ensures var launched := LastMatch(old(fronts), frontId);
        if launched.Some? && CanAdvance(launched.value) then
          divisions == UpdateFriendlyOnFront(old(divisions), frontId, LaunchDivision) &&
          battleLog == AddLogEntry(old(battleLog), LogEntry(time, Success, OffensiveStarted(launched.value.objective)))
        else
          divisions == old(divisions) &&
          battleLog == AddLogEntry(old(battleLog), LogEntry(time, Warning, OffensiveImpossible))
      ensures speed == old(speed) && isPaused == old(isPaused)
    {
      forall i | 0 <= i < |fronts|
        ensures FrontInBounds(LaunchFront(fronts[i]))
      {
        LaunchFrontRule(fronts[i]);
      }
      NamedUpdateKeepsBounds(fronts, frontId, LaunchFront);
      forall i | 0 <= i < |divisions|
        ensures DivisionInBounds(LaunchDivision(divisions[i]))
      {
        DivisionUpdatesBounded(divisions[i]);
      }
      FriendlyUpdateKeepsBounds(divisions, frontId, LaunchDivision);
      var launched := LastMatch(fronts, frontId);
      ReseedKeepsMilestonesWellFormed(milestones, fronts, frontId);
      milestones := ReseedMilestones(milestones, fronts, frontId);
      fronts := UpdateNamedFront(fronts, frontId, LaunchFront);
      if launched.Some? && CanAdvance(launched.value) {
        divisions := UpdateFriendlyOnFront(divisions, frontId, LaunchDivision);
        battleLog := AddLogEntry(battleLog, LogEntry(time, Success, OffensiveStarted(launched.value.objective)));
      } else {
        battleLog := AddLogEntry(battleLog, LogEntry(time, Warning, OffensiveImpossible));
      }
    }

    /** `handlePauseFront(frontId)`. */
    method PauseFrontOrder(frontId: string, time: string)
      requires Valid()
      modifies this
      ensures Valid()
      ensures fronts == UpdateNamedFront(old(fronts), frontId, PauseFront)
      ensures divisions == UpdateFriendlyOnFront(old(divisions), frontId, PauseDivision)
      ensures battleLog == AddLogEntry(old(battleLog), LogEntry(time, Info, AdvanceHalted))
      ensures milestones == old(milestones) && speed == old(speed) && isPaused == old(isPaused)
    {
      forall i | 0 <= i < |fronts|
        ensures FrontInBounds(PauseFront(fronts[i]))
      {
        FrontOrdersBounded(fronts[i]);
      }
      NamedUpdateKeepsBounds(fronts, frontId, PauseFront);
      forall i | 0 <= i < |divisions|
        ensures DivisionInBounds(PauseDivision(divisions[i]))
      {
        DivisionUpdatesBounded(divisions[i]);
      }
      FriendlyUpdateKeepsBounds(divisions, frontId, PauseDivision);
      fronts := UpdateNamedFront(fronts, frontId, PauseFront);
      divisions := UpdateFriendlyOnFront(divisions, frontId, PauseDivision);
      battleLog := AddLogEntry(battleLog, LogEntry(time, Info, AdvanceHalted));
    }

    /** `handleResupplyFront(frontId)`. */
    method ResupplyFrontOrder(frontId: string, time: string)
      requires Valid()
      modifies this
      ensures Valid()
      ensures fronts == UpdateNamedFront(old(fronts), frontId, ResupplyFront)
      ensures divisions == UpdateFriendlyOnFront(old(divisions), frontId, ResupplyDivision)
      ensures battleLog == AddLogEntry(old(battleLog), LogEntry(time, Success, SupplyColumnsSent))
      ensures milestones == old(milestones) && speed == old(speed) && isPaused == old(isPaused)
    {
      forall i | 0 <= i < |fronts|
        ensures FrontInBounds(ResupplyFront(fronts[i]))
      {
        FrontOrdersBounded(fronts[i]);
      }
      NamedUpdateKeepsBounds(fronts, frontId, ResupplyFront);
      forall i | 0 <= i < |divisions|
        ensures DivisionInBounds(ResupplyDivision(divisions[i]))
      {
        DivisionUpdatesBounded(divisions[i]);
      }
      FriendlyUpdateKeepsBounds(divisions, frontId, ResupplyDivision);
      fronts := UpdateNamedFront(fronts, frontId, ResupplyFront);
      divisions := UpdateFriendlyOnFront(divisions, frontId, ResupplyDivision);
      battleLog := AddLogEntry(battleLog, LogEntry(time, Success, SupplyColumnsSent));
    }

    /** `handleDigInFront(frontId)`. */
    method DigInFrontOrder(frontId: string, time: string)
      requires Valid()
      modifies this
      ensures Valid()
      ensures fronts == UpdateNamedFront(old(fronts), frontId, DigInFront)
      ensures battleLog == AddLogEntry(old(battleLog), LogEntry(time, Info, DefencesStrengthened))
      ensures divisions == old(divisions) && milestones == old(milestones)
      ensures speed == old(speed) && isPaused == old(isPaused)
    {
      forall i | 0 <= i < |fronts|
        ensures FrontInBounds(DigInFront(fronts[i]))
      {
        FrontOrdersBounded(fronts[i]);
      }
      NamedUpdateKeepsBounds(fronts, frontId, DigInFront);
      fronts := UpdateNamedFront(fronts, frontId, DigInFront);
      battleLog := AddLogEntry(battleLog, LogEntry(time, Info, DefencesStrengthened));
    }

    /** `handleFrontToggle(frontId)`: pause an advancing front, launch any
        other, ignore an unknown id (the first front with the id decides). */
    method FrontToggle(frontId: string, time: string)
      requires Valid()
      modifies this
      ensures Valid()
      ensures FirstFront(old(fronts), frontId).None? ==>
        fronts == old(fronts) && divisions == old(divisions) && milestones == old(milestones) && battleLog == old(battleLog)
      ensures var first := FirstFront(old(fronts), frontId);
        first.Some? && first.value.state == Advancing ==>
          fronts == UpdateNamedFront(old(fronts), frontId, PauseFront) &&
          divisions == UpdateFriendlyOnFront(old(divisions), frontId, PauseDivision) &&
          milestones == old(milestones) &&
          battleLog == AddLogEntry(old(battleLog), LogEntry(time, Info, AdvanceHalted))
      ensures var first := FirstFront(old(fronts), frontId);
        first.Some? && first.value.state != Advancing ==>
          fronts == UpdateNamedFront(old(fronts), frontId, LaunchFront) &&
          milestones == ReseedMilestones(old(milestones), old(fronts), frontId)
      ensures var first := FirstFront(old(fronts), frontId);
        var launched := LastMatch(old(fronts), frontId);
        first.Some? && first.value.state != Advancing ==>
          if launched.Some? && CanAdvance(launched.value) then
            divisions == UpdateFriendlyOnFront(old(divisions), frontId, LaunchDivision) &&
            battleLog == AddLogEntry(old(battleLog), LogEntry(time, Success, OffensiveStarted(launched.value.objective)))
          else
            divisions == old(divisions) &&
            battleLog == AddLogEntry(old(battleLog), LogEntry(time, Warning, OffensiveImpossible))
      ensures speed == old(speed) && isPaused == old(isPaused)
    {
      var index := 0;
      while index < |fronts| && fronts[index].id != frontId
        invariant 0 <= index <= |fronts|
        invariant FirstFront(fronts, frontId) == FirstFront(fronts[index..], frontId)
      {
        assert fronts[index..][1..] == fronts[index + 1..];
        index := index + 1;
      }
      if index == |fronts| {
        return;
      }
      if fronts[index].state == Advancing {
        PauseFrontOrder(frontId, time);
      } else {
        LaunchOffensive(frontId, time);
      }
    }

    /** `handleDivisionOrder(divisionId, order)`. */
    method DivisionOrder(divisionId: string, order: Order, time: string)
      requires Valid()
      modifies this
      ensures Valid()
      ensures var ordered := OrderDivisions(old(divisions), divisionId, order);
        divisions == ordered.0 && battleLog == AddLogEntries(old(battleLog), time, SeverityOf(order), ordered.1)
      ensures fronts == old(fronts) && milestones == old(milestones)
      ensures speed == old(speed) && isPaused == old(isPaused)
    {
      var ordered := OrderDivisions(divisions, divisionId, order);
      OrderDivisionsPointwise(divisions, divisionId, order);
      forall i | 0 <= i < |divisions| && divisions[i].id == divisionId
        ensures DivisionInBounds(OrderDivision(divisions[i], order).0)
      {
        OrderRules(divisions[i], order);
      }
      divisions := ordered.0;
      AddLogEntriesNewestFirst(battleLog, time, SeverityOf(order), ordered.1);
      battleLog := LogMessages(battleLog, time, SeverityOf(order), ordered.1);
    }

    /** `handleSpeedChange(value)` with one of the offered speeds. */
    method SetSpeed(value: real)
      requires Valid() && IsSpeed(value)
      modifies this
      ensures Valid()
      ensures speed == value
      ensures fronts == old(fronts) && divisions == old(divisions) && milestones == old(milestones)
      ensures battleLog == old(battleLog) && isPaused == old(isPaused)
    {
      speed := value;
    }

    /** `togglePause()`. */
    method TogglePause()
      requires Valid()
      modifies this
      ensures Valid()
      ensures isPaused == !old(isPaused)
      ensures fronts == old(fronts) && divisions == old(divisions) && milestones == old(milestones)
      ensures battleLog == old(battleLog) && speed == old(speed)
    {
      isPaused := !isPaused;
    }
  }

  /** The severity of the entry an order logs. */
  function SeverityOf(order: Order): Severity {
    match order
    case Airstrike => Success
    case Support => Success
    case Fallback => Warning
    case ResupplyOrder => Info
  }
}
