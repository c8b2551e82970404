/** One source at run time: its pipeline and its publisher, driven by a membership
    task and a classification driver. The driver holds the work gate from reading
    the published generation to the end of its slice, so no snapshot is installed
    in between; everything else interleaves freely. */
module Runtimes {
  import opened Base
  import opened SliceSteps
  import opened Generations
  import opened Pending
  import opened Accounts
  import opened PickLogs
  import opened ConfirmedCache
  import opened Pipelines
  import Pub = Publishing

  /** What one generation has been: its membership, its records at revision zero
      and the records each revision added. */
  datatype GenerationLog = GenerationLog(membership: Membership, carried: View, deltas: seq<seq<Classified>>)

  // The records at revision `r`: the carried ones overridden by revisions 1 to r in order.
  function Replay(log: GenerationLog, r: nat): View
    requires r <= |log.deltas|
  {
    if r == 0 then log.carried else InsertView(Replay(log, r - 1), log.deltas[r - 1])
  }

  lemma {:induction false} ReplayPrefix(log: GenerationLog, changed: seq<Classified>, r: nat)
    requires r <= |log.deltas|
    ensures Replay(log.(deltas := log.deltas + [changed]), r) == Replay(log, r)
    decreases r
  {
    if r > 0 {
      ReplayPrefix(log, changed, r - 1);
    }
  }

  // Every revision of the generation can be published.
  ghost predicate LogOk(log: GenerationLog) {
    && DistinctEntries(log.membership)
    && forall r {:trigger Replay(log, r)} :: 0 <= r <= |log.deltas| ==> Pub.Fits(Replay(log, r), log.membership)
  }

  lemma LogStart(membership: Membership, carried: View)
    requires DistinctEntries(membership) && Pub.Fits(carried, membership)
    ensures LogOk(GenerationLog(membership, carried, []))
    ensures Replay(GenerationLog(membership, carried, []), 0) == carried
  {
  }

  lemma LogMore(log: GenerationLog, changed: seq<Classified>)
    requires LogOk(log) && Pub.Fits(InsertView(Replay(log, |log.deltas|), changed), log.membership)
    ensures LogOk(log.(deltas := log.deltas + [changed]))
    ensures var more := log.(deltas := log.deltas + [changed]);
            && Replay(more, |more.deltas|) == InsertView(Replay(log, |log.deltas|), changed)
            && forall r :: 0 <= r <= |log.deltas| ==> Replay(more, r) == Replay(log, r)
  {
    var more := log.(deltas := log.deltas + [changed]);
    forall r | 0 <= r <= |log.deltas| ensures Replay(more, r) == Replay(log, r) {
      ReplayPrefix(log, changed, r);
    }
    assert more.deltas[|log.deltas|] == changed;
    forall r | 0 <= r <= |more.deltas| ensures Pub.Fits(Replay(more, r), more.membership) {
      assert r <= |log.deltas| ==> Pub.Fits(Replay(log, r), log.membership);
    }
  }

  // What the pipeline publishes of its table belongs to its membership.
  lemma ProjectFits(
    table: Table, membership: Membership, absences: set<OutPoint>, truth: OutPoint -> Script)
    requires DistinctEntries(membership) && TableOk(table, VariantsOf(membership), absences, truth)
    ensures Pub.Fits(Project(table, VariantsOf(membership)), membership)
  {
    hide RecordSound;
    VariantsListed(membership);
    var view := Project(table, VariantsOf(membership));
    forall t | t in view
      ensures view[t].expected.txid == t
              && exists e :: e in membership && e.txid == t && e.wtxid == view[t].expected.wtxid
    {
      ProjectAt(table, VariantsOf(membership), t);
      var e :| e in membership && e.txid == t && VariantsOf(membership)[t] == FactVariant(e);
    }
  }

  function FactVariant(e: Entry): FactTable.Variant {
    FactTable.Variant(e.wtxid, e.vsize)
  }

  lemma FitsSize(view: View, membership: Membership)
    requires DistinctEntries(membership) && Pub.Fits(view, membership)
    ensures |view| <= |membership|
  {
    Pub.AssessedCounts(membership, view);
    Pub.AssessedBound(membership, view);
  }

  type Log = map<nat, GenerationLog>

  ghost predicate LogsOk(logs: Log, nextGeneration: nat) {
    && (forall g :: g in logs <==> 1 <= g <= nextGeneration)
    && forall g :: g in logs ==> LogOk(logs[g])
  }

  // --- the driver's turn -------------------------------------------------------------

  datatype Turn =
    | Idle
    | Slicing(expected: Option<nat>)
    | Reporting(flight: Pub.Flight, continues: bool)

  // The revision that was merged by the pipeline and not yet published or dropped.
  function InFlight(turn: Turn): Option<Delta> {
    match turn
    case Reporting(Requested(Update(_, delta, _)), _) => delta
    case Reporting(DeltaEncoded(delta, _, _, _, _, _), _) => Some(delta)
    case _ => None
  }

  function LifecycleOf(disposition: Disposition): Pub.Lifecycle {
    match disposition
    case Continue => Pub.Classifying
    case Complete => Pub.Complete
    case Paused => Pub.Paused
    case Stale => Pub.Paused
  }

  // A slice's outcome becomes a publication, unless there is nothing to say.
  function TurnAfter(outcome: Outcome, expected: Option<nat>): Turn {
    match outcome
    case Finished(report) =>
      if report.disposition.Stale? then Idle
      else
        Reporting(
          Pub.Requested(Pub.Update(report.generation, report.publication, LifecycleOf(report.disposition))),
          report.disposition.Continue?)
    case RevisionOverflow =>
      if expected.None? then Idle
      else Reporting(Pub.Requested(Pub.Update(expected.value, None, Pub.Paused)), false)
  }

  ghost predicate TurnOk(turn: Turn, logs: Log, sourceId: string, s: Pub.CurrentState) {
    match turn
    case Idle => true
    case Slicing(expected) => Pub.GenerationAtMost(expected, s.generation)
    case Reporting(flight, _) =>
      && Pub.FlightOk(sourceId, flight, s)
      && match flight
         case Requested(Update(generation, delta, _)) =>
           delta.Some? ==> delta.value.generation == generation && DeltaLogged(delta.value, logs, s)
         case DeltaEncoded(delta, _, _, _, _, _) => DeltaLogged(delta, logs, s)
         case LifecycleEncoded(_, _, _, _) => true
         case _ => false
  }

  // The merged revision is the last of its generation, which was published before.
  ghost predicate DeltaLogged(delta: Delta, logs: Log, s: Pub.CurrentState) {
    && delta.generation in logs && Pub.GenerationAtMost(Some(delta.generation), s.generation)
    && delta.revision == |logs[delta.generation].deltas| >= 1
    && logs[delta.generation].deltas[delta.revision - 1] == delta.changed
  }

  // The revisions of a generation not yet seen by the publisher.
  function Behind(turn: Turn, generation: nat): nat {
    if InFlight(turn).Some? && InFlight(turn).value.generation == generation then 1 else 0
  }

  /** Readers see the records of the published generation at the published
      revision, which is behind the pipeline's by at most the one in flight. */
  ghost predicate PublishedOk(turn: Turn, logs: Log, s: Pub.CurrentState) {
    s.generation.Some? ==>
      && s.generation.value in logs && s.membership.Some?
      && s.membership.value.entries == logs[s.generation.value].membership
      && s.revision + Behind(turn, s.generation.value) == |logs[s.generation.value].deltas|
      && s.classifications == Replay(logs[s.generation.value], s.revision)
  }

  // No revision of a generation exists before the generation was published.
  ghost predicate UnstartedUnlessPublished(logs: Log, s: Pub.CurrentState) {
    forall g :: g in logs && !Pub.GenerationAtMost(Some(g), s.generation) ==> logs[g].deltas == []
  }

  // --- the membership task -------------------------------------------------------------

  // Some entry has no record, or one that may still change.
  ghost predicate WorkLeft(membership: Membership, view: View) {
    exists e :: e in membership && (e.txid !in view || view[e.txid].retryable)
  }

  // The table and what is published of it leave the same work.
  lemma SameWork(g: Generation)
    requires g.Settled()
    ensures WorkLeft(g.membership, g.Published()) <==> exists e :: e in g.membership && g.Unclassified(e.wtxid)
  {
    hide RecordSound;
    VariantsListed(g.membership);
    VariantsInjective(g.membership);
    forall e | e in g.membership
      ensures (e.txid !in g.Published() || g.Published()[e.txid].retryable) <==> g.Unclassified(e.wtxid)
    {
      assert FactTable.Listed(e.Expected(), g.variants);
      ProjectAt(g.classifications, g.variants, e.txid);
    }
  }

  ghost predicate StartLogged(start: GenerationStart, logs: Log) {
    && (start.hasEligibleWork <==> WorkLeft(start.membership, start.classifications))
    && start.generation in logs && start.revision == 0
    && start.membership == logs[start.generation].membership && start.classifications == logs[start.generation].carried
  }

  ghost predicate MembershipOk(flight: Option<Pub.Flight>, logs: Log, sourceId: string, s: Pub.CurrentState) {
    flight.Some? ==>
      && Pub.FlightOk(sourceId, flight.value, s)
      && match flight.value
         case Requested(Membership(start, id, _)) => StartLogged(start, logs) && id == sourceId
         case Requested(Failure(_)) => true
         case MembershipPrepared(start, _) => StartLogged(start, logs)
         case MembershipEncoded(start, _, _, _) => StartLogged(start, logs)
         case FailureEncoded(_, _, _) => true
         case _ => false
  }

  // --- when the source is given turns ----------------------------------------------------

  /** The generations whose last slice did not go on. */
  function EndedAfter(ended: set<nat>, outcome: Outcome, expected: Option<nat>): set<nat> {
    if expected.None? || (outcome.Finished? && (outcome.report.disposition.Stale? || outcome.report.disposition.Continue?))
    then ended
    else ended + {expected.value}
  }

  /** A source is given a turn because its last slice goes on, or because a generation
      was published; the latter is announced shortly after, and once. A generation
      that has ended is given another turn only if its own announcement came late:
      it is then reopened, which happens once. */
  ghost predicate DriverOk(
    turn: Turn, flight: Option<Pub.Flight>, wanted: bool, announced: bool, ended: set<nat>, reopened: set<nat>,
    serving: Option<nat>, published: Option<nat>)
  {
    && (forall g :: g in ended || g in reopened ==> Pub.GenerationAtMost(Some(g), published))
    && Pub.GenerationAtMost(serving, published) && (flight.Some? ==> announced)
    && (turn.Slicing? ==> turn.expected == serving && (serving.Some? ==> serving.value !in ended))
    && (turn.Reporting? && serving.Some? ==> (turn.continues <==> serving.value !in ended))
    && (turn.Reporting? && turn.continues ==> serving.Some?)
    && (published.Some? ==>
          var g := published.value;
          && (!announced ==> g !in reopened)
          && (g in ended && wanted ==> announced && g !in reopened)
          && (!turn.Idle? && serving != published ==> g !in ended && g !in reopened)
          && (!turn.Idle? && serving == published && wanted ==> announced && g !in reopened))
  }

  // The generations whose last slice paused or ran out of revisions.
  function FailedAfter(failed: set<nat>, outcome: Outcome, expected: Option<nat>): set<nat> {
    if expected.None? then failed
    else
      match outcome
      case RevisionOverflow => failed + {expected.value}
      case Finished(report) =>
        if report.disposition.Stale? then failed
        else if report.disposition.Paused? then failed + {expected.value}
        else failed - {expected.value}
  }

  function FlightLifecycle(flight: Pub.Flight): Option<Pub.Lifecycle> {
    match flight
    case Requested(Update(_, _, lifecycle)) => Some(lifecycle)
    case DeltaEncoded(_, lifecycle, _, _, _, _) => Some(lifecycle)
    case LifecycleEncoded(_, lifecycle, _, _) => Some(lifecycle)
    case _ => None
  }

  function FlightGeneration(flight: Pub.Flight): Option<nat> {
    match flight
    case Requested(Update(generation, _, _)) => Some(generation)
    case DeltaEncoded(delta, _, _, _, _, _) => Some(delta.generation)
    case LifecycleEncoded(generation, _, _, _) => Some(generation)
    case _ => None
  }

  // A section of a publication: readers learn its lifecycle exactly when it is done and was current.
  ghost predicate Tells(
    flight: Pub.Flight, next: Pub.Flight, published: Option<nat>, before: Option<Pub.Lifecycle>,
    after: Option<Pub.Lifecycle>)
  {
    && (next.Done? ==>
          && next.result.Published?
          && (next.result.current ==> published == FlightGeneration(flight) && after == FlightLifecycle(flight))
          && (!next.result.current ==> published != FlightGeneration(flight) && after == before))
    && (!next.Done? ==>
          && after == before && FlightGeneration(next) == FlightGeneration(flight)
          && FlightLifecycle(next) == FlightLifecycle(flight))
  }

  // What readers are told of a generation: it goes on, it has failed, or it is done.
  ghost predicate Says(lifecycle: Option<Pub.Lifecycle>, ended: bool, failed: bool) {
    && (lifecycle == Some(Pub.Classifying) <==> !ended)
    && (lifecycle == Some(Pub.Paused) <==> ended && failed)
    && (lifecycle == Some(Pub.Complete) <==> ended && !failed)
  }

  /** A turn reports how its slice ended, and between turns readers know it. */
  ghost predicate LifecycleOk(
    turn: Turn, serving: Option<nat>, ended: set<nat>, failed: set<nat>, published: Option<nat>,
    lifecycle: Option<Pub.Lifecycle>)
  {
    && published != Some(0)
    && (turn.Reporting? ==>
          var generation := FlightGeneration(turn.flight);
          || (serving.None? && generation == Some(0))
          || (&& serving.Some? && serving == generation
              && Says(FlightLifecycle(turn.flight), serving.value in ended, serving.value in failed)))
    && (turn.Idle? && published.Some? && published.value in ended ==> Says(lifecycle, true, published.value in failed))
  }

  lemma LifecycleTaken(
    ended: set<nat>, after: set<nat>, failed: set<nat>, serving: Option<nat>, published: Option<nat>,
    lifecycle: Option<Pub.Lifecycle>)
    requires LifecycleOk(Idle, serving, ended, failed, published, lifecycle)
    ensures LifecycleOk(Slicing(published), published, after, failed, published, lifecycle)
  {
  }

  lemma LifecycleReported(
    expected: Option<nat>, outcome: Outcome, flight: Option<Pub.Flight>, wanted: bool, announced: bool, ended: set<nat>,
    reopened: set<nat>, failed: set<nat>, published: Option<nat>, lifecycle: Option<Pub.Lifecycle>)
    requires DriverOk(Slicing(expected), flight, wanted, announced, ended, reopened, expected, published)
    requires LifecycleOk(Slicing(expected), expected, ended, failed, published, lifecycle)
    requires outcome.Finished? && !outcome.report.disposition.Stale? ==>
               (outcome.report.generation == if expected.Some? then expected.value else 0)
               && (expected.None? ==> outcome.report.disposition.Complete?)
    ensures LifecycleOk(
              TurnAfter(outcome, expected), expected, EndedAfter(ended, outcome, expected),
              FailedAfter(failed, outcome, expected), published, lifecycle)
  {
  }

  // A new generation has not ended, whatever its first lifecycle.
  lemma LifecycleBegins(
    turn: Turn, flight: Option<Pub.Flight>, wanted: bool, announced: bool, ended: set<nat>, reopened: set<nat>,
    failed: set<nat>, serving: Option<nat>, before: Option<nat>, after: Option<nat>, lifecycle: Option<Pub.Lifecycle>,
    initial: Option<Pub.Lifecycle>)
    requires DriverOk(turn, flight, wanted, announced, ended, reopened, serving, before)
    requires LifecycleOk(turn, serving, ended, failed, before, lifecycle)
    requires Pub.GenerationAtMost(before, after) && before != after && after != Some(0)
    ensures LifecycleOk(turn, serving, ended, failed, after, initial)
  {
  }

  lemma LifecycleGoesOn(
    turn: Turn, next: Turn, ended: set<nat>, failed: set<nat>, serving: Option<nat>, published: Option<nat>,
    lifecycle: Option<Pub.Lifecycle>)
    requires LifecycleOk(turn, serving, ended, failed, published, lifecycle)
    requires turn.Reporting? && next.Reporting? && FlightGeneration(next.flight) == FlightGeneration(turn.flight)
    requires FlightLifecycle(next.flight) == FlightLifecycle(turn.flight)
    ensures LifecycleOk(next, serving, ended, failed, published, lifecycle)
  {
  }

  lemma TurnSays(
    turn: Turn, flight: Option<Pub.Flight>, wanted: bool, announced: bool, ended: set<nat>, reopened: set<nat>,
    serving: Option<nat>, published: Option<nat>)
    requires DriverOk(turn, flight, wanted, announced, ended, reopened, serving, published) && turn.Reporting?
    ensures serving.Some? ==> (turn.continues <==> serving.value !in ended)
  {
  }

  // A publication that was current tells readers; one that was not leaves another generation, which has not ended.
  lemma LifecycleTold(
    turn: Turn, result: Pub.Result, flight: Option<Pub.Flight>, wanted: bool, announced: bool, ended: set<nat>,
    reopened: set<nat>, failed: set<nat>, serving: Option<nat>, published: Option<nat>, before: Option<Pub.Lifecycle>,
    after: Option<Pub.Lifecycle>)
    requires DriverOk(turn, flight, wanted, announced, ended, reopened, serving, published) && turn.Reporting?
    requires LifecycleOk(turn, serving, ended, failed, published, before)
    requires result.Published?
    requires result.current ==> published == FlightGeneration(turn.flight) && after == FlightLifecycle(turn.flight)
    requires !result.current ==> published != FlightGeneration(turn.flight) && after == before
    ensures LifecycleOk(Idle, serving, ended, failed, published, after)
    ensures result.current ==>
              && published.Some? && serving == published
              && Says(after, published.value in ended, published.value in failed)
  {
  }

  // The membership task goes on, or begins once the published generation was announced.
  lemma FlightMoved(
    turn: Turn, flight: Option<Pub.Flight>, next: Option<Pub.Flight>, wanted: bool, announced: bool, ended: set<nat>,
    reopened: set<nat>, serving: Option<nat>, published: Option<nat>)
    requires DriverOk(turn, flight, wanted, announced, ended, reopened, serving, published)
    requires next.Some? ==> announced || flight.Some?
    ensures DriverOk(turn, next, wanted, announced, ended, reopened, serving, published)
    ensures flight.Some? ==> announced
  {
  }

  lemma Announced(
    turn: Turn, flight: Option<Pub.Flight>, wanted: bool, ended: set<nat>, reopened: set<nat>, serving: Option<nat>,
    published: Option<nat>)
    requires DriverOk(turn, flight, wanted, false, ended, reopened, serving, published)
    ensures DriverOk(turn, flight, true, true, ended, reopened, serving, published)
  {
  }

  lemma TurnGoesOn(
    turn: Turn, next: Turn, flight: Option<Pub.Flight>, wanted: bool, announced: bool, ended: set<nat>,
    reopened: set<nat>, serving: Option<nat>, published: Option<nat>)
    requires DriverOk(turn, flight, wanted, announced, ended, reopened, serving, published)
    requires turn.Reporting? && next.Reporting? && next.continues == turn.continues
    ensures DriverOk(next, flight, wanted, announced, ended, reopened, serving, published)
  {
  }

  lemma TurnBegins(flight: Option<Pub.Flight>, logs: Log, sourceId: string, s: Pub.CurrentState)
    requires SystemOk(Idle, flight, logs, sourceId, s)
    ensures SystemOk(Slicing(s.generation), flight, logs, sourceId, s)
  {
    hide Pub.FlightOk, Replay;
  }

  // A turn is taken: a generation that has ended is reopened.
  lemma TurnTaken(
    flight: Option<Pub.Flight>, announced: bool, ended: set<nat>, reopened: set<nat>, serving: Option<nat>,
    published: Option<nat>)
    requires DriverOk(Idle, flight, true, announced, ended, reopened, serving, published)
    ensures var late := if published.Some? && published.value in ended then {published.value} else {};
            && DriverOk(Slicing(published), flight, false, announced, ended - late, reopened + late, published, published)
            && late !! reopened
  {
  }

  lemma TurnReported(
    expected: Option<nat>, outcome: Outcome, flight: Option<Pub.Flight>, wanted: bool, announced: bool, ended: set<nat>,
    reopened: set<nat>, serving: Option<nat>, published: Option<nat>)
    requires DriverOk(Slicing(expected), flight, wanted, announced, ended, reopened, serving, published)
    requires outcome.Finished? && outcome.report.disposition.Continue? ==> expected.Some?
    ensures DriverOk(
              TurnAfter(outcome, expected), flight, wanted, announced, EndedAfter(ended, outcome, expected), reopened,
              serving, published)
  {
  }

  lemma TurnDone(
    turn: Turn, again: bool, flight: Option<Pub.Flight>, wanted: bool, announced: bool, ended: set<nat>,
    reopened: set<nat>, serving: Option<nat>, published: Option<nat>)
    requires DriverOk(turn, flight, wanted, announced, ended, reopened, serving, published)
    requires turn.Reporting? && (again ==> turn.continues)
    ensures !turn.continues && serving.Some? ==> serving.value in ended
    ensures DriverOk(Idle, flight, wanted || again, announced, ended, reopened, serving, published)
  {
  }

  lemma GenerationPublished(
    turn: Turn, flight: Option<Pub.Flight>, wanted: bool, announced: bool, ended: set<nat>, reopened: set<nat>,
    serving: Option<nat>, before: Option<nat>, after: Option<nat>)
    requires DriverOk(turn, flight, wanted, announced, ended, reopened, serving, before)
    requires Pub.GenerationAtMost(before, after) && before != after
    ensures DriverOk(turn, None, wanted, false, ended, reopened, serving, after)
  {
  }

  datatype Event =
    | PollStarted(startedAtMs: nat)
    | Installed(membership: Membership, observedAtMs: nat)
    | PollFailed(error: string)
    | AdvanceMembership
    | AbandonMembership
    | Announce
    | TakeTurn
    | RunSlice(env: Environment)
    | AdvanceTurn

  // --- what publications keep ------------------------------------------------------------

  ghost predicate SystemOk(
    turn: Turn, flight: Option<Pub.Flight>, logs: Log, sourceId: string, s: Pub.CurrentState)
  {
    && TurnOk(turn, logs, sourceId, s) && PublishedOk(turn, logs, s) && UnstartedUnlessPublished(logs, s)
    && MembershipOk(flight, logs, sourceId, s)
  }

  lemma FlightsStay(
    turn: Turn, flight: Option<Pub.Flight>, logs: Log, sourceId: string, a: Pub.CurrentState, b: Pub.CurrentState)
    requires TurnOk(turn, logs, sourceId, a) && MembershipOk(flight, logs, sourceId, a) && Pub.Later(a, b)
    ensures TurnOk(turn, logs, sourceId, b) && MembershipOk(flight, logs, sourceId, b)
  {
    hide Pub.FlightOk;
    if turn.Reporting? {
      Pub.FlightLater(sourceId, turn.flight, a, b);
    }
    if flight.Some? {
      Pub.FlightLater(sourceId, flight.value, a, b);
    }
  }

  // Poll starts, failures and lifecycle changes leave the records alone.
  ghost predicate SameRecords(a: Pub.CurrentState, b: Pub.CurrentState) {
    && Pub.Later(a, b) && a.generation == b.generation && a.revision == b.revision
    && a.membership == b.membership && a.classifications == b.classifications
  }

  lemma SameRecordsOk(
    turn: Turn, flight: Option<Pub.Flight>, logs: Log, sourceId: string, a: Pub.CurrentState, b: Pub.CurrentState)
    requires SystemOk(turn, flight, logs, sourceId, a) && SameRecords(a, b)
    ensures SystemOk(turn, flight, logs, sourceId, b)
  {
    hide Pub.FlightOk;
    FlightsStay(turn, flight, logs, sourceId, a, b);
  }

  // A generation is published at revision zero: none of its slices has begun.
  lemma MembershipPublished(
    turn: Turn, flight: Option<Pub.Flight>, logs: Log, sourceId: string, a: Pub.CurrentState, b: Pub.CurrentState,
    start: GenerationStart)
    requires SystemOk(turn, flight, logs, sourceId, a) && StartLogged(start, logs) && Pub.Later(a, b)
    requires !Pub.GenerationAtMost(Some(start.generation), a.generation)
    requires b.generation == Some(start.generation) && b.revision == 0
    requires b.membership.Some? && b.membership.value.entries == start.membership
    requires b.classifications == start.classifications
    ensures SystemOk(turn, None, logs, sourceId, b)
  {
    hide Pub.FlightOk, Pub.Later;
    FlightsStay(turn, flight, logs, sourceId, a, b);
    assert Behind(turn, start.generation) == 0;
    assert Replay(logs[start.generation], 0) == start.classifications;
  }

  // The revision in flight is published: readers are level with the pipeline.
  lemma DeltaPublished(
    delta: Delta, turn: Turn, flight: Option<Pub.Flight>, logs: Log, sourceId: string, a: Pub.CurrentState,
    b: Pub.CurrentState)
    requires SystemOk(turn, flight, logs, sourceId, a) && InFlight(turn) == Some(delta) && Pub.Later(a, b)
    requires a.generation == b.generation == Some(delta.generation) && a.membership == b.membership
    requires b.revision == a.revision + 1 && b.classifications == InsertView(a.classifications, delta.changed)
    ensures SystemOk(Idle, flight, logs, sourceId, b)
  {
    hide Pub.FlightOk, Pub.Later;
    FlightsStay(turn, flight, logs, sourceId, a, b);
    var log := logs[delta.generation];
    assert Replay(log, b.revision) == InsertView(Replay(log, a.revision), log.deltas[a.revision]);
  }

  // A revision is dropped only when its generation is no longer the published one.
  lemma TurnOver(turn: Turn, flight: Option<Pub.Flight>, logs: Log, sourceId: string, s: Pub.CurrentState)
    requires SystemOk(turn, flight, logs, sourceId, s)
    requires InFlight(turn).Some? ==> s.generation != Some(InFlight(turn).value.generation)
    ensures SystemOk(Idle, flight, logs, sourceId, s)
  {
    hide Pub.FlightOk;
  }

  function StartOf(flight: Pub.Flight): Option<GenerationStart> {
    match flight
    case Requested(Membership(start, _, _)) => Some(start)
    case MembershipPrepared(start, _) => Some(start)
    case MembershipEncoded(start, _, _, _) => Some(start)
    case _ => None
  }

  predicate IsFailure(flight: Pub.Flight) {
    flight.FailureEncoded? || (flight.Requested? && flight.request.Failure?)
  }

  // The membership task goes on with the same publication.
  lemma MembershipFollows(
    turn: Turn, flight: Pub.Flight, next: Pub.Flight, logs: Log, sourceId: string, s: Pub.CurrentState)
    requires SystemOk(turn, Some(flight), logs, sourceId, s) && Pub.FlightOk(sourceId, next, s)
    requires next.Done? || (IsFailure(flight) && IsFailure(next))
             || (StartOf(flight).Some? && StartOf(next) == StartOf(flight) && !next.Requested?)
    ensures SystemOk(turn, if next.Done? then None else Some(next), logs, sourceId, s)
  {
    hide Pub.FlightOk;
  }

  // --- what slices and installs keep -------------------------------------------------------

  lemma InstallLogged(
    turn: Turn, logs: Log, sourceId: string, s: Pub.CurrentState, nextGeneration: nat, start: GenerationStart,
    observedAtMs: nat)
    requires SystemOk(turn, None, logs, sourceId, s) && LogsOk(logs, nextGeneration)
    requires start.generation == nextGeneration + 1 && start.revision == 0
    requires LogOk(GenerationLog(start.membership, start.classifications, []))
    requires start.hasEligibleWork <==> WorkLeft(start.membership, start.classifications)
    ensures var more := logs[start.generation := GenerationLog(start.membership, start.classifications, [])];
            && LogsOk(more, nextGeneration + 1)
            && SystemOk(turn, Some(Pub.Requested(Pub.Membership(start, sourceId, observedAtMs))), more, sourceId, s)
  {
    hide LogOk, Replay, Pub.StateOk, Pub.Later;
    assert start.generation !in logs;
  }

  // What a slice that was merged adds to the log of its generation.
  function LogAfter(logs: Log, generation: nat, changed: seq<Classified>): Log
    requires generation in logs
  {
    if changed == [] then logs
    else logs[generation := logs[generation].(deltas := logs[generation].deltas + [changed])]
  }

  function AddedBy(outcome: Outcome): seq<Classified> {
    if outcome.Finished? then Changed(outcome.report) else []
  }

  lemma SliceLogged(
    expected: Option<nat>, flight: Option<Pub.Flight>, logs: Log, sourceId: string, s: Pub.CurrentState,
    nextGeneration: nat, outcome: Outcome)
    requires SystemOk(Slicing(expected), flight, logs, sourceId, s) && LogsOk(logs, nextGeneration)
    requires nextGeneration in logs
    requires outcome.Finished? && !outcome.report.disposition.Stale? ==>
               && expected == Some(nextGeneration) && outcome.report.generation == nextGeneration
               && (Changed(outcome.report) == [] <==> outcome.report.publication.None?)
               && (outcome.report.publication.Some? ==>
                     && outcome.report.publication.value.generation == nextGeneration
                     && outcome.report.publication.value.revision == |logs[nextGeneration].deltas| + 1
                     && LogOk(logs[nextGeneration].(deltas := logs[nextGeneration].deltas + [Changed(outcome.report)])))
    requires outcome.Finished? && outcome.report.disposition.Stale? ==> outcome.report.publication.None?
    ensures var more := LogAfter(logs, nextGeneration, AddedBy(outcome));
            LogsOk(more, nextGeneration) && SystemOk(TurnAfter(outcome, expected), flight, more, sourceId, s)
  {
    hide LogOk, Pub.StateOk, Pub.Later;
    if outcome.Finished? && outcome.report.publication.Some? && !outcome.report.disposition.Stale? {
      DeltaStarted(expected, flight, logs, sourceId, s, nextGeneration, outcome.report);
    }
  }

  // A slice runs only on the published generation, and adds its next revision.
  lemma DeltaStarted(
    expected: Option<nat>, flight: Option<Pub.Flight>, logs: Log, sourceId: string, s: Pub.CurrentState,
    nextGeneration: nat, report: Report)
    requires SystemOk(Slicing(expected), flight, logs, sourceId, s) && LogsOk(logs, nextGeneration)
    requires expected == Some(nextGeneration) && nextGeneration in logs && report.generation == nextGeneration
    requires report.publication.Some? && Changed(report) != [] && !report.disposition.Stale?
    requires report.publication.value.generation == nextGeneration
    requires report.publication.value.revision == |logs[nextGeneration].deltas| + 1
    requires LogOk(logs[nextGeneration].(deltas := logs[nextGeneration].deltas + [Changed(report)]))
    ensures s.generation == Some(nextGeneration)
    ensures LogsOk(LogAfter(logs, nextGeneration, Changed(report)), nextGeneration)
    ensures SystemOk(
              TurnAfter(Finished(report), expected), flight, LogAfter(logs, nextGeneration, Changed(report)), sourceId, s)
  {
    hide LogOk, Pub.StateOk, Pub.Later;
    var log := logs[nextGeneration];
    ReplayPrefix(log, Changed(report), s.revision);
  }

  // The log of the current generation is the pipeline's own table.
  ghost predicate TableLogged(g: Generation?, logs: Log)
    reads g
  {
    g != null ==>
      && g.id in logs && logs[g.id].membership == g.membership && g.revision == |logs[g.id].deltas| <= U64_MAX
      && (g.revision < U64_MAX ==> g.Published() == Replay(logs[g.id], g.revision))
  }

  class SourceRuntime {
    const pipeline: ClassificationPipeline
    const publisher: Pub.CurrentStatePublisher
    var membershipFlight: Option<Pub.Flight>
    var turn: Turn
    // The driver has this source pending or active, and the published generation was announced to it.
    var wanted: bool
    var announced: bool
    // What every generation has been so far.
    ghost var logs: Log
    // The generations that ended, those reopened since, and the one of the last turn.
    ghost var ended: set<nat>
    ghost var reopened: set<nat>
    ghost var serving: Option<nat>
    // The generations whose last slice paused or ran out of revisions.
    ghost var failed: set<nat>

    ghost function Footprint(): set<object>
      reads this, pipeline, pipeline.current
    {
      {this, pipeline, pipeline.confirmedCache, publisher}
      + (if pipeline.current == null then {} else {pipeline.current})
      + (if pipeline.CurrentPending() == null then {} else {pipeline.CurrentPending()})
    }

    ghost predicate Valid()
      reads this, publisher, pipeline, pipeline.confirmedCache, pipeline.current, pipeline.CurrentPending()
    {
      Logged(turn) && Scheduled(turn)
    }

    // Readers and histories agree, with the driver at this turn.
    ghost predicate Logged(turn: Turn)
      reads this, publisher, pipeline, pipeline.confirmedCache, pipeline.current, pipeline.CurrentPending()
    {
      && pipeline.Valid() && publisher.Valid()
      && LogsOk(logs, pipeline.nextGeneration) && TableLogged(pipeline.current, logs)
      && SystemOk(turn, membershipFlight, logs, publisher.sourceId, publisher.state)
    }

    // Turns are given as they should, and a generation that has not ended has no spent fact.
    ghost predicate Scheduled(turn: Turn)
      reads this, publisher, pipeline, pipeline.current, pipeline.CurrentPending()
    {
      && DriverOk(
           turn, membershipFlight, wanted, announced, ended, reopened, serving, publisher.state.generation)
      && LifecycleOk(turn, serving, ended, failed, publisher.state.generation, publisher.state.lifecycle)
      && CurrentOk(turn, ended, failed)
    }

    // A generation that has not ended has no spent fact; one that ended without failing is finished.
    ghost predicate CurrentOk(turn: Turn, ended: set<nat>, failed: set<nat>)
      reads this, pipeline, pipeline.current, pipeline.CurrentPending()
    {
      pipeline.current != null ==>
        var g := pipeline.current;
        && (g.id !in ended && g.id !in reopened ==> g.Unspent())
        && (g.id in ended && g.id !in failed ==> g.Finished())
        && (turn.Reporting? && serving == Some(g.id) && g.id !in ended ==> !g.Finished())
    }

    // The published generation has ended, and no turn is to come.
    ghost predicate Closed()
      reads this, publisher
    {
      && turn.Idle? && !wanted && announced
      && publisher.state.generation.Some? && publisher.state.generation.value in ended
    }

    constructor (sourceId: string, limits: Limits, resolverLimits: FactTable.ResolverLimits, ghost truth: OutPoint -> Script)
      requires limits.maxTransactionsPerSlice > 0 && resolverLimits.Positive()
      requires limits.maxAuxiliaryCacheBytes <= MAX_AUXILIARY_CACHE_BYTES
      ensures Valid() && fresh(Footprint())
    {
      pipeline := new ClassificationPipeline(limits, resolverLimits, truth);
      publisher := new Pub.CurrentStatePublisher(sourceId);
      membershipFlight, turn, logs := None, Idle, map[];
      wanted, announced, ended, reopened, serving, failed := false, true, {}, {}, None, {};
    }

    method PollStarted(startedAtMs: nat)
      requires Valid()
      modifies publisher
      ensures Valid() && publisher.state.generation == old(publisher.state.generation)
    {
      hide DriverOk, LifecycleOk, FactTable.NoneSpent, SystemOk, LogsOk, WorkOk, CacheOk, SliceOk, HistoryOk, AccountOk,
           TableLogged, Pub.StateOk, Pub.IssuedOk, Pub.FlightsOk;
      ghost var before := publisher.state;
      publisher.RecordPollStarted(startedAtMs);
      SameRecordsOk(turn, membershipFlight, logs, publisher.sourceId, before, publisher.state);
    }

    /** A poll that succeeded installs its snapshot under the work gate; the
        publication follows after the gate is released. */
    method Install(membership: Membership, observedAtMs: nat)
      requires Valid() && DistinctEntries(membership) && membershipFlight.None? && announced && !turn.Slicing?
      modifies this`membershipFlight, this`logs, pipeline, pipeline.confirmedCache
      ensures Valid() && fresh(Footprint() - old(Footprint()))
      ensures forall g :: g in old(logs) ==> g in logs && logs[g] == old(logs)[g]
      ensures old(pipeline.nextGeneration) == U64_MAX ==> logs == old(logs) && membershipFlight.None?
      ensures old(pipeline.nextGeneration) < U64_MAX ==>
                && pipeline.nextGeneration == old(pipeline.nextGeneration) + 1
                && Queued(membershipFlight, pipeline.nextGeneration, membership, observedAtMs)
                && logs == old(logs)[
                     pipeline.nextGeneration := GenerationLog(membership, StartOf(membershipFlight.value).value.classifications, [])]
    {
      hide DriverOk, LifecycleOk, FactTable.NoneSpent, SystemOk, LogsOk, LogOk, TableLogged, WorkOk, CacheOk, SliceOk,
           HistoryOk, AccountOk, Replay, Project, Pub.StateOk, Pub.IssuedOk, Pub.FlightsOk, Pub.Fits;
      var installed := pipeline.InstallSnapshot(membership);
      if installed.Some? {
        QueueStart(installed.value, observedAtMs);
      }
    }

    // The new generation is logged, and its publication waits to begin.
    method QueueStart(start: GenerationStart, observedAtMs: nat)
      requires pipeline.Valid() && publisher.Valid() && pipeline.current != null && pipeline.current.Pristine()
      requires start.generation == pipeline.nextGeneration > 0 && start.revision == 0
      requires start.membership == pipeline.current.membership && start.classifications == pipeline.current.Published()
      requires start.hasEligibleWork <==>
                 exists e :: e in pipeline.current.membership && pipeline.current.Unclassified(e.wtxid)
      requires LogsOk(logs, pipeline.nextGeneration - 1) && membershipFlight.None? && announced
      requires SystemOk(turn, None, logs, publisher.sourceId, publisher.state)
      requires DriverOk(turn, None, wanted, announced, ended, reopened, serving, publisher.state.generation)
      requires LifecycleOk(turn, serving, ended, failed, publisher.state.generation, publisher.state.lifecycle)
      modifies this`membershipFlight, this`logs
      ensures Valid() && start.generation !in old(logs)
      ensures membershipFlight == Some(Pub.Requested(Pub.Membership(start, publisher.sourceId, observedAtMs)))
      ensures logs == old(logs)[start.generation := GenerationLog(start.membership, start.classifications, [])]
    {
      hide DriverOk, FactTable.NoneSpent, SystemOk, LogsOk, LogOk, WorkOk, CacheOk, SliceOk, HistoryOk, AccountOk,
           Replay, Project, Pub.StateOk, Pub.IssuedOk, Pub.FlightsOk, Pub.Fits, LifecycleOk;
      NeverServed(start.generation);
      SameWork(pipeline.current);
      InstalledFits(pipeline.current);
      DistinctMembership(pipeline.current);
      LogStart(start.membership, start.classifications);
      InstallLogged(
        turn, logs, publisher.sourceId, publisher.state, pipeline.nextGeneration - 1, start, observedAtMs);
      FreshLog(start.generation);
      logs := logs[start.generation := GenerationLog(start.membership, start.classifications, [])];
      FlightMoved(
        turn, None, Some(Pub.Requested(Pub.Membership(start, publisher.sourceId, observedAtMs))), wanted, announced,
        ended, reopened, serving, publisher.state.generation);
      membershipFlight := Some(Pub.Requested(Pub.Membership(start, publisher.sourceId, observedAtMs)));
    }

    // A generation that was just installed has had no turn.
    lemma NeverServed(generation: nat)
      requires generation > 0 && LogsOk(logs, generation - 1)
      requires SystemOk(turn, None, logs, publisher.sourceId, publisher.state)
      requires DriverOk(turn, None, wanted, announced, ended, reopened, serving, publisher.state.generation)
      ensures generation !in ended && serving != Some(generation)
    {
      hide LogOk, Replay, Pub.StateOk, Pub.FlightOk;
    }

    lemma DistinctMembership(g: Generation)
      requires g.Settled()
      ensures DistinctEntries(g.membership)
    {
    }

    // The publication of this membership as this generation is waiting to begin.
    ghost predicate Queued(flight: Option<Pub.Flight>, generation: nat, membership: Membership, observedAtMs: nat) {
      flight.Some? &&
      match flight.value
      case Requested(Membership(start, id, observed)) =>
        start.generation == generation && start.membership == membership && id == publisher.sourceId && observed == observedAtMs
      case _ => false
    }

    lemma InstalledFits(g: Generation)
      requires g.Settled()
      ensures Pub.Fits(g.Published(), g.membership)
    {
      ProjectFits(g.classifications, g.membership, g.absences, g.truth);
    }

    lemma FreshLog(generation: nat)
      requires generation > 0 && LogsOk(logs, generation - 1)
      ensures generation !in logs
    {
    }

    method PollFailed(error: string)
      requires Valid() && membershipFlight.None? && announced
      modifies this`membershipFlight
      ensures Valid() && membershipFlight == Some(Pub.Requested(Pub.Failure(error)))
    {
      hide LogsOk, TableLogged, WorkOk, CacheOk, SliceOk, HistoryOk, AccountOk, FactTable.NoneSpent, TurnOk,
           PublishedOk, UnstartedUnlessPublished, Pub.StateOk, Pub.IssuedOk, Pub.FlightsOk;
      membershipFlight := Some(Pub.Requested(Pub.Failure(error)));
    }

    /** One section of the membership task's publication. Nothing it publishes is
        ever rejected, and generations are published in increasing order. */
    method AdvanceMembership() returns (result: Option<Pub.Result>, schedule: bool)
      requires Valid() && membershipFlight.Some?
      modifies this`membershipFlight, this`announced, publisher
      ensures Valid() && announced == !schedule
      ensures result.Some? <==> membershipFlight.None?
      ensures result.Some? ==> result.value.Published?
      ensures schedule ==> result == Some(Pub.Published(true))
      ensures schedule <==> publisher.state.generation != old(publisher.state.generation)
      ensures schedule ==> Pub.GenerationAtMost(old(publisher.state.generation), publisher.state.generation)
      ensures schedule ==>
                && publisher.state.membership.Some?
                && (publisher.state.lifecycle == Some(Pub.Classifying)
                    <==> WorkLeft(publisher.state.membership.value.entries, publisher.state.classifications))
                && (publisher.state.lifecycle == Some(Pub.Complete)
                    <==> !WorkLeft(publisher.state.membership.value.entries, publisher.state.classifications))
    {
      hide DriverOk, LifecycleOk, FactTable.NoneSpent, SystemOk, LogsOk, LogOk, TableLogged, Pub.FlightOk, Pub.StateOk,
           Pub.IssuedOk, Pub.FlightsOk, Pub.PreparedFor, WorkOk, CacheOk, SliceOk, HistoryOk, AccountOk, Pub.Later;
      var flight := membershipFlight.value;
      ghost var published, lifecycle := publisher.state.generation, publisher.state.lifecycle;
      MembershipFlight(flight);
      schedule := false;
      var next;
      if IsFailure(flight) {
        next := AdvanceFailure(flight);
      } else if flight.MembershipEncoded? {
        next := CommitStart(flight);
        schedule := next == Pub.Done(Pub.Published(true));
      } else {
        next := PrepareStart(flight);
      }
      result := if next.Done? then Some(next.result) else None;
      MoveFlight(next, published, lifecycle, schedule);
    }

    // The membership task's publication moves on; a generation that was published is yet to be announced.
    method MoveFlight(
      next: Pub.Flight, ghost published: Option<nat>, ghost lifecycle: Option<Pub.Lifecycle>, schedule: bool)
      requires pipeline.Valid() && publisher.Valid() && LogsOk(logs, pipeline.nextGeneration)
      requires TableLogged(pipeline.current, logs) && Proceeds(next) && membershipFlight.Some?
      requires DriverOk(turn, membershipFlight, wanted, announced, ended, reopened, serving, published)
      requires LifecycleOk(turn, serving, ended, failed, published, lifecycle) && CurrentOk(turn, ended, failed)
      requires !schedule ==> publisher.state.lifecycle == lifecycle
      requires schedule <==> publisher.state.generation != published
      requires Pub.GenerationAtMost(published, publisher.state.generation) && (schedule ==> next.Done?)
      requires publisher.state.generation != Some(0)
      modifies this`membershipFlight, this`announced
      ensures Valid() && announced == !schedule
      ensures membershipFlight == if next.Done? then None else Some(next)
    {
      hide DriverOk, FactTable.NoneSpent, SystemOk, LogsOk, TableLogged, Pub.StateOk, Pub.IssuedOk, Pub.FlightsOk,
           WorkOk, CacheOk, SliceOk, HistoryOk, AccountOk, LifecycleOk;
      FlightMoved(
        turn, membershipFlight, if next.Done? then None else Some(next), wanted, announced, ended, reopened, serving,
        published);
      if schedule {
        GenerationPublished(
          turn, membershipFlight, wanted, announced, ended, reopened, serving, published, publisher.state.generation);
        LifecycleBegins(
          turn, membershipFlight, wanted, announced, ended, reopened, failed, serving, published,
          publisher.state.generation, lifecycle, publisher.state.lifecycle);
        announced := false;
      }
      membershipFlight := if next.Done? then None else Some(next);
    }

    /** The source becomes pending: once for each generation that was published. */
    method Announce()
      requires Valid() && !announced
      modifies this`wanted, this`announced
      ensures Valid() && wanted && announced
    {
      hide DriverOk, LifecycleOk, SystemOk, LogsOk, TableLogged, WorkOk, CacheOk, SliceOk, HistoryOk, AccountOk,
           FactTable.NoneSpent;
      Announced(turn, membershipFlight, wanted, ended, reopened, serving, publisher.state.generation);
      wanted, announced := true, true;
    }

    lemma MembershipFlight(flight: Pub.Flight)
      requires Valid() && membershipFlight == Some(flight)
      ensures Pub.FlightOk(publisher.sourceId, flight, publisher.state)
      ensures StartOf(flight).Some? != IsFailure(flight)
      ensures publisher.state.generation != Some(0)
      ensures StartOf(flight).Some? ==>
                && StartLogged(StartOf(flight).value, logs) && StartOf(flight).value.generation > 0
                && Pub.Fits(StartOf(flight).value.classifications, StartOf(flight).value.membership)
                && |StartOf(flight).value.classifications| <= |StartOf(flight).value.membership|
      ensures flight.Requested? && flight.request.Membership? ==> flight.request.sourceId == publisher.sourceId
    {
      if StartOf(flight).Some? {
        var log := logs[StartOf(flight).value.generation];
        assert Replay(log, 0) == log.carried;
        FitsSize(log.carried, log.membership);
      }
    }

    // What the membership task's next flight must satisfy.
    ghost predicate Proceeds(next: Pub.Flight)
      reads this, publisher
    {
      SystemOk(turn, if next.Done? then None else Some(next), logs, publisher.sourceId, publisher.state)
    }

    method PrepareStart(flight: Pub.Flight) returns (next: Pub.Flight)
      requires Valid() && membershipFlight == Some(flight) && StartOf(flight).Some? && !flight.MembershipEncoded?
      ensures Proceeds(next)
      ensures next.Done? ==> next == Pub.Done(Pub.Published(false))
    {
      hide DriverOk, LifecycleOk, FactTable.NoneSpent, SystemOk, LogsOk, LogOk, Pub.FlightOk, Pub.StateOk,
           Pub.IssuedOk, Pub.FlightsOk;
      MembershipFlight(flight);
      match flight {
        case Requested(Membership(start, id, observedAtMs)) =>
          next := publisher.BeginMembership(start, id, observedAtMs);
        case MembershipPrepared(start, prepared) =>
          publisher.ReadyFacts(flight);
          next := publisher.EncodeMembership(start, prepared);
      }
      MembershipFollows(turn, flight, next, logs, publisher.sourceId, publisher.state);
    }

    method CommitStart(flight: Pub.Flight) returns (next: Pub.Flight)
      requires Valid() && membershipFlight == Some(flight) && flight.MembershipEncoded?
      modifies publisher`state, publisher`issued
      ensures publisher.Valid() && Proceeds(next) && (next.Done? ==> next.result.Published?)
      ensures next == Pub.Done(Pub.Published(true)) <==> publisher.state.generation != old(publisher.state.generation)
      ensures Pub.GenerationAtMost(old(publisher.state.generation), publisher.state.generation)
      ensures publisher.state.generation == old(publisher.state.generation) ==>
                publisher.state.lifecycle == old(publisher.state.lifecycle)
      ensures publisher.state.generation != Some(0)
      ensures publisher.state.generation != old(publisher.state.generation) ==>
                && publisher.state.membership.Some?
                && (publisher.state.lifecycle == Some(Pub.Classifying)
                    <==> WorkLeft(publisher.state.membership.value.entries, publisher.state.classifications))
                && (publisher.state.lifecycle == Some(Pub.Complete)
                    <==> !WorkLeft(publisher.state.membership.value.entries, publisher.state.classifications))
    {
      hide DriverOk, FactTable.NoneSpent, SystemOk, LogsOk, LogOk, Pub.FlightOk, Pub.StateOk, Pub.IssuedOk,
           Pub.FlightsOk, LifecycleOk;
      MembershipFlight(flight);
      PreparedStart(flight);
      ghost var before := publisher.state;
      next := publisher.CommitMembership(flight);
      if next == Pub.Done(Pub.Published(true)) {
        MembershipPublished(
          turn, membershipFlight, logs, publisher.sourceId, before, publisher.state, flight.start);
      } else {
        MembershipFollows(turn, flight, next, logs, publisher.sourceId, publisher.state);
      }
    }

    lemma PreparedStart(flight: Pub.Flight)
      requires flight.MembershipEncoded? && Pub.FlightOk(publisher.sourceId, flight, publisher.state)
      ensures flight.prepared.snapshot.entries == flight.start.membership
    {
    }

    method AdvanceFailure(flight: Pub.Flight) returns (next: Pub.Flight)
      requires Valid() && membershipFlight == Some(flight) && IsFailure(flight)
      modifies publisher`state, publisher`issued
      ensures publisher.Valid() && Proceeds(next) && (next.Done? ==> next.result.Published?)
      ensures publisher.state.generation == old(publisher.state.generation)
      ensures publisher.state.lifecycle == old(publisher.state.lifecycle)
    {
      hide DriverOk, LifecycleOk, FactTable.NoneSpent, SystemOk, LogsOk, LogOk, Pub.FlightOk, Pub.StateOk,
           Pub.IssuedOk, Pub.FlightsOk;
      MembershipFlight(flight);
      ghost var before := publisher.state;
      match flight {
        case Requested(Failure(error)) =>
          next := publisher.EncodeFailure(error);
        case FailureEncoded(_, _, _) =>
          next := publisher.CommitFailure(flight);
      }
      if next.Done? {
        SameRecordsOk(turn, membershipFlight, logs, publisher.sourceId, before, publisher.state);
      }
      MembershipFollows(turn, flight, next, logs, publisher.sourceId, publisher.state);
    }

    // A membership publication whose preparation fails is given up.
    method AbandonMembership()
      requires Valid()
      modifies this`membershipFlight
      ensures Valid() && membershipFlight == None
    {
      hide LogsOk, TableLogged, WorkOk, CacheOk, SliceOk, HistoryOk, AccountOk, FactTable.NoneSpent, TurnOk,
           PublishedOk, UnstartedUnlessPublished, Pub.StateOk, Pub.IssuedOk, Pub.FlightsOk;
      membershipFlight := None;
    }

    // --- the driver ------------------------------------------------------------------------

    /** The driver takes the work gate and reads the published generation. One that
        has ended is given another turn once at most. */
    method TakeTurn()
      requires Valid() && turn.Idle? && wanted
      modifies this`turn, this`wanted, this`ended, this`reopened, this`serving
      ensures Valid() && turn == Slicing(publisher.state.generation) && !wanted
      ensures var again := if publisher.state.generation.Some? && publisher.state.generation.value in old(ended)
                           then {publisher.state.generation.value} else {};
              && again !! old(reopened) && reopened == old(reopened) + again && ended == old(ended) - again
    {
      hide SystemOk, LogsOk, TableLogged, WorkOk, CacheOk, SliceOk, HistoryOk, AccountOk, Pub.StateOk, Pub.IssuedOk,
           Pub.FlightsOk, DriverOk, LifecycleOk, FactTable.NoneSpent;
      TurnBegins(membershipFlight, logs, publisher.sourceId, publisher.state);
      ghost var published := publisher.state.generation;
      ghost var again := if published.Some? && published.value in ended then {published.value} else {};
      TurnTaken(membershipFlight, announced, ended, reopened, serving, published);
      LifecycleTaken(ended, ended - again, failed, serving, published, publisher.state.lifecycle);
      ended, reopened, serving := ended - again, reopened + again, published;
      turn, wanted := Slicing(publisher.state.generation), false;
    }

    /** One slice. It advances a generation only after readers have been given it,
        and what it adds is the next revision after the one they see. Unless the
        generation was reopened, the slice completes it or leaves less to do,
        whatever the node answers. */
    method Slice(env: Environment) returns (outcome: Outcome)
      requires Valid() && turn.Slicing? && Honest(env, pipeline.truth) && Quiet(env)
      modifies this`turn, this`logs, this`ended, this`failed
      modifies pipeline, pipeline.confirmedCache, pipeline.current, pipeline.CurrentPending()
      ensures Valid() && fresh(Footprint() - old(Footprint())) && pipeline.current == old(pipeline.current)
      ensures ended == EndedAfter(old(ended), outcome, old(turn).expected)
      ensures old(turn).expected.Some? && (outcome.Finished? ==> !outcome.report.disposition.Stale?) ==>
                (old(turn).expected.value in failed <==> outcome.RevisionOverflow? || outcome.report.disposition.Paused?)
      ensures outcome.Finished? && !outcome.report.disposition.Stale? && !outcome.report.disposition.Complete? ==>
                && pipeline.current != null
                && (pipeline.current.id !in reopened ==>
                      pipeline.current.Remaining().Below(old(pipeline.current.Remaining())))
      ensures Extends(old(logs), outcome)
      ensures RanOnPublished(outcome, old(turn).expected, old(if pipeline.current == null then 0 else pipeline.current.revision))
      ensures outcome.Finished? && outcome.report.disposition.Stale? ==>
                logs == old(logs) && pipeline.SharedState() == old(pipeline.SharedState())
      ensures turn == TurnAfter(outcome, old(turn).expected)
    {
      hide SystemOk, LogsOk, LogOk, TableLogged, WorkOk, CacheOk, SliceOk, HistoryOk, AccountOk, Honest, Quiet,
           Pub.FlightOk, Pub.StateOk, Pub.IssuedOk, Pub.FlightsOk, TurnAfter, EndedAfter, FailedAfter, DriverOk,
           LifecycleOk, FactTable.NoneSpent, LogAfter, UnstartedIn, FactTable.AllScriptsTrue, AbsencesOf, Project,
           Replay, AfterInstalls, WorkLeft;
      var expected := turn.expected;
      NotEnded(expected);
      outcome := LogSlice(expected, env);
      AfterEnd(outcome, expected);
      FailedSays(outcome, expected);
      CurrentAfter(outcome, expected, old(ended), old(failed));
      ReportTurn(expected, outcome);
    }

    lemma FailedSays(outcome: Outcome, expected: Option<nat>)
      ensures expected.Some? && (outcome.Finished? ==> !outcome.report.disposition.Stale?) ==>
                (expected.value in FailedAfter(failed, outcome, expected)
                 <==> outcome.RevisionOverflow? || outcome.report.disposition.Paused?)
    {
    }

    // What the slice left of the current generation is what its turn says.
    lemma CurrentAfter(outcome: Outcome, expected: Option<nat>, ended0: set<nat>, failed0: set<nat>)
      requires serving == expected && (expected.Some? ==> expected.value !in ended0)
      requires pipeline.current != null ==> SliceLeft(pipeline.current, outcome, expected, ended0, failed0)
      ensures CurrentOk(
                TurnAfter(outcome, expected), EndedAfter(ended0, outcome, expected), FailedAfter(failed0, outcome, expected))
    {
      hide FactTable.NoneSpent;
    }

    // What a slice left, given what held of its generation before it.
    ghost predicate SliceLeft(
      g: Generation, outcome: Outcome, expected: Option<nat>, ended0: set<nat>, failed0: set<nat>)
      reads this, g, g.pending
    {
      match outcome
      case RevisionOverflow => expected == Some(g.id)
      case Finished(report) =>
        if report.disposition.Stale? then
          && (g.id !in ended0 && g.id !in reopened ==> g.Unspent())
          && (g.id in ended0 && g.id !in failed0 ==> g.Finished())
        else
          && expected == Some(g.id)
          && (g.id !in reopened && !report.disposition.Paused? ==> g.Unspent())
          && (!report.disposition.Paused? ==> (report.disposition.Complete? <==> g.Finished()))
    }

    // A turn that does not go on ends its generation.
    method ReportTurn(expected: Option<nat>, outcome: Outcome)
      requires turn == Slicing(expected) && serving == expected && Logged(TurnAfter(outcome, expected))
      requires DriverOk(
                 turn, membershipFlight, wanted, announced, ended, reopened, serving, publisher.state.generation)
      requires LifecycleOk(turn, serving, ended, failed, publisher.state.generation, publisher.state.lifecycle)
      requires outcome.Finished? && !outcome.report.disposition.Stale? ==>
                 && outcome.report.generation == (if expected.Some? then expected.value else 0)
                 && (expected.None? ==> outcome.report.disposition.Complete?)
      requires CurrentOk(
                 TurnAfter(outcome, expected), EndedAfter(ended, outcome, expected), FailedAfter(failed, outcome, expected))
      modifies this`turn, this`ended, this`failed
      ensures Valid() && turn == TurnAfter(outcome, expected) && ended == EndedAfter(old(ended), outcome, expected)
      ensures failed == FailedAfter(old(failed), outcome, expected)
    {
      hide SystemOk, LogsOk, TableLogged, WorkOk, CacheOk, SliceOk, HistoryOk, AccountOk, Pub.StateOk, Pub.IssuedOk,
           Pub.FlightsOk, TurnAfter, EndedAfter, FailedAfter, DriverOk, LifecycleOk, FactTable.NoneSpent;
      TurnReported(
        expected, outcome, membershipFlight, wanted, announced, ended, reopened, serving, publisher.state.generation);
      LifecycleReported(
        expected, outcome, membershipFlight, wanted, announced, ended, reopened, failed, publisher.state.generation,
        publisher.state.lifecycle);
      ended, failed := EndedAfter(ended, outcome, expected), FailedAfter(failed, outcome, expected);
      turn := TurnAfter(outcome, expected);
    }

    // The slice itself, and what it adds to the history of its generation.
    method LogSlice(expected: Option<nat>, env: Environment) returns (outcome: Outcome)
      requires Logged(turn) && turn == Slicing(expected) && Honest(env, pipeline.truth) && Quiet(env)
      modifies this`logs, pipeline, pipeline.confirmedCache, pipeline.current, pipeline.CurrentPending()
      ensures Logged(TurnAfter(outcome, expected)) && pipeline.current == old(pipeline.current)
      ensures fresh(Footprint() - old(Footprint()))
      ensures RanOnPublished(outcome, expected, old(if pipeline.current == null then 0 else pipeline.current.revision))
      ensures outcome.RevisionOverflow? ==> pipeline.current != null && expected == Some(pipeline.current.id)
      ensures outcome.Finished? && !outcome.report.disposition.Stale? && pipeline.current == null ==>
                outcome.report.disposition.Complete?
      ensures outcome.Finished? && outcome.report.disposition.Stale? ==>
                && logs == old(logs) && pipeline.SharedState() == old(pipeline.SharedState())
                && (pipeline.current != null ==>
                      && (old(pipeline.current.Unspent()) ==> pipeline.current.Unspent())
                      && (old(pipeline.current.Finished()) <==> pipeline.current.Finished()))
      ensures outcome.Finished? && !outcome.report.disposition.Stale? ==>
                && outcome.report.generation == (if expected.Some? then expected.value else 0)
                && (expected.None? ==> outcome.report.disposition.Complete?)
      ensures outcome.Finished? && !outcome.report.disposition.Stale? && pipeline.current != null
              && !outcome.report.disposition.Paused? ==>
                (outcome.report.disposition.Complete? <==> pipeline.current.Finished())
      ensures pipeline.current != null && old(pipeline.current.Unspent()) && outcome.Finished?
              && !outcome.report.disposition.Stale? ==>
                && (!outcome.report.disposition.Paused? ==> pipeline.current.Unspent())
                && (!outcome.report.disposition.Complete? ==>
                      pipeline.current.Remaining().Below(old(pipeline.current.Remaining())))
      ensures Extends(old(logs), outcome)
    {
      hide SystemOk, LogsOk, LogOk, WorkOk, CacheOk, SliceOk, HistoryOk, AccountOk, Project, InsertView, Replay,
           Honest, Quiet, Pub.FlightOk, Pub.StateOk, Pub.IssuedOk, Pub.FlightsOk, TurnAfter, FactTable.NoneSpent;
      ghost var view, revision := if pipeline.current == null then map[] else pipeline.current.Published(),
                                  if pipeline.current == null then 0 else pipeline.current.revision;
      outcome := AskPipeline(expected, env);
      AddToLog(outcome, expected, view, revision);
    }

    // The history of the current generation follows its table.
    ghost method AddToLog(outcome: Outcome, expected: Option<nat>, view: View, revision: nat)
      requires pipeline.Valid() && publisher.Valid() && turn == Slicing(expected)
      requires LogsOk(logs, pipeline.nextGeneration)
      requires SystemOk(turn, membershipFlight, logs, publisher.sourceId, publisher.state)
      requires pipeline.current == null ==> outcome == Finished(WaitingReport()) && revision == 0
      requires pipeline.current != null ==>
                 && SliceOutcome(pipeline.current, view, revision, outcome, expected)
                 && pipeline.current.id in logs && logs[pipeline.current.id].membership == pipeline.current.membership
                 && revision == |logs[pipeline.current.id].deltas| <= U64_MAX
                 && (revision < U64_MAX ==> view == Replay(logs[pipeline.current.id], revision))
      modifies this`logs
      ensures Logged(TurnAfter(outcome, expected))
      ensures Extends(old(logs), outcome) && RanOnPublished(outcome, expected, revision)
      ensures AddedBy(outcome) == [] ==> logs == old(logs)
      ensures pipeline.current == null ==> expected.None?
    {
      hide SystemOk, LogsOk, LogOk, WorkOk, CacheOk, SliceOk, HistoryOk, AccountOk, Project, InsertView, Replay,
           Pub.FlightOk, Pub.StateOk, Pub.IssuedOk, Pub.FlightsOk, TurnAfter, FactTable.NoneSpent;
      if pipeline.current == null {
        NothingToSlice(expected);
        NothingExpected(expected);
      } else {
        if outcome.Finished? && !outcome.report.disposition.Stale? {
          OnPublished(expected, pipeline.current.id);
        }
        SliceGained(pipeline.current, view, revision, outcome, expected);
        logs := LogAfter(logs, pipeline.nextGeneration, AddedBy(outcome));
      }
    }

    // A slice that was not stale ran on the published generation, its membership and its revision.
    ghost predicate RanOnPublished(outcome: Outcome, expected: Option<nat>, revision: nat)
      reads this, publisher, pipeline, pipeline.current
    {
      outcome.Finished? && !outcome.report.disposition.Stale? && pipeline.current != null ==>
        && publisher.state.generation == Some(pipeline.current.id) == expected
        && publisher.state.membership.Some?
        && publisher.state.membership.value.entries == pipeline.current.membership
        && publisher.state.revision == revision
    }

    // What a slice added is the next revision of the published generation, and other histories are unchanged.
    ghost predicate Extends(before: Log, outcome: Outcome)
      reads this, publisher, pipeline, pipeline.current
    {
      && (logs != before ==>
            && pipeline.current != null && publisher.state.generation == Some(pipeline.current.id)
            && pipeline.current.id in logs
            && publisher.state.revision + 1 == |logs[pipeline.current.id].deltas| == pipeline.current.revision)
      && (AddedBy(outcome) != [] ==>
            && pipeline.current != null && pipeline.current.id in before
            && logs == LogAfter(before, pipeline.current.id, AddedBy(outcome)))
      && (forall g :: g in before ==> g in logs && (publisher.state.generation != Some(g) ==> logs[g] == before[g]))
    }

    // A turn is not taken on a generation that has ended.
    lemma NotEnded(expected: Option<nat>)
      requires turn == Slicing(expected)
      requires DriverOk(
                 turn, membershipFlight, wanted, announced, ended, reopened, serving, publisher.state.generation)
      ensures serving == expected && (expected.Some? ==> expected.value !in ended)
    {
    }

    lemma AfterEnd(outcome: Outcome, expected: Option<nat>)
      ensures ended <= EndedAfter(ended, outcome, expected)
      ensures expected.Some? && expected.value !in EndedAfter(ended, outcome, expected) ==>
                outcome.Finished? && (outcome.report.disposition.Stale? || outcome.report.disposition.Continue?)
    {
    }

    // The pipeline's part of a turn.
    method AskPipeline(expected: Option<nat>, env: Environment) returns (outcome: Outcome)
      requires pipeline.Valid() && Honest(env, pipeline.truth) && Quiet(env)
      modifies pipeline, pipeline.confirmedCache, pipeline.current, pipeline.CurrentPending()
      ensures pipeline.Valid() && pipeline.current == old(pipeline.current)
      ensures pipeline.nextGeneration == old(pipeline.nextGeneration)
      ensures pipeline.CurrentPending() == null || pipeline.CurrentPending() == old(pipeline.CurrentPending())
              || fresh(pipeline.CurrentPending())
      ensures pipeline.current == null ==> outcome == Finished(WaitingReport())
      ensures pipeline.current != null ==>
                SliceOutcome(
                  pipeline.current, old(pipeline.current.Published()), old(pipeline.current.revision), outcome, expected)
      ensures outcome.Finished? && outcome.report.disposition.Stale? ==>
                && pipeline.SharedState() == old(pipeline.SharedState())
                && (pipeline.current != null ==>
                      && (old(pipeline.current.Unspent()) ==> pipeline.current.Unspent())
                      && (old(pipeline.current.Finished()) <==> pipeline.current.Finished()))
      ensures outcome.Finished? && !outcome.report.disposition.Stale? && pipeline.current != null
              && !outcome.report.disposition.Paused? ==>
                (outcome.report.disposition.Complete? <==> pipeline.current.Finished())
      ensures pipeline.current != null && old(pipeline.current.Unspent()) && outcome.Finished?
              && !outcome.report.disposition.Stale? ==>
                && (!outcome.report.disposition.Paused? ==> pipeline.current.Unspent())
                && (!outcome.report.disposition.Complete? ==>
                      pipeline.current.Remaining().Below(old(pipeline.current.Remaining())))
    {
      hide DriverOk, LifecycleOk, WorkOk, CacheOk, SliceOk, HistoryOk, AccountOk, Project, InsertView, Honest, Quiet,
           InsertAll, KeptBy, AfterInstalls, FactTable.NoneSpent, Calm, SliceTraced, EndsIn, LongestWithin, Touched,
           UnstartedIn, FactTable.AllScriptsTrue, AbsencesOf;
      ghost var subject, merged, trace;
      outcome, subject, merged, trace := pipeline.ClassifyNext(expected, env);
      if pipeline.current != null && outcome.Finished? && !outcome.report.disposition.Stale? {
        DispositionSays(pipeline.current, outcome.report);
      }
    }

    lemma DispositionSays(g: Generation, report: Report)
      requires g.Valid() && ReportOk(report, g, report.disposition.Paused?, report.attempted)
      ensures !report.disposition.Paused? ==> (report.disposition.Complete? <==> g.Finished())
    {
      hide WorkOk, SliceOk, HistoryOk, AccountOk, UnstartedIn;
    }

    // Without a generation none was published.
    lemma NothingExpected(expected: Option<nat>)
      requires pipeline.Valid() && pipeline.current == null && LogsOk(logs, pipeline.nextGeneration)
      requires SystemOk(Slicing(expected), membershipFlight, logs, publisher.sourceId, publisher.state)
      ensures expected.None?
    {
      hide LogOk, Replay, Pub.StateOk, Pub.FlightOk, WorkOk, CacheOk;
    }

    lemma NothingToSlice(expected: Option<nat>)
      requires SystemOk(Slicing(expected), membershipFlight, logs, publisher.sourceId, publisher.state)
      ensures SystemOk(
                TurnAfter(Finished(WaitingReport()), expected), membershipFlight, logs, publisher.sourceId, publisher.state)
    {
      hide DriverOk, LifecycleOk, FactTable.NoneSpent, Pub.StateOk, Pub.Later;
    }

    // What a slice says about the generation it ran on, given the table and revision before it.
    ghost predicate SliceOutcome(g: Generation, view: View, revision: nat, outcome: Outcome, expected: Option<nat>)
      reads g
    {
      match outcome
      case RevisionOverflow => g.revision == revision == U64_MAX && expected == Some(g.id)
      case Finished(report) =>
        if report.disposition.Stale? then
          report.publication.None? && g.Published() == view && g.revision == revision
        else
          && expected == Some(g.id) && report.generation == g.id
          && (Changed(report) == [] <==> report.publication.None?)
          && (report.publication.Some? ==>
                report.publication.value.generation == g.id && report.publication.value.revision == g.revision)
          && g.Published() == InsertView(view, Changed(report))
          && g.revision == revision + (if Changed(report) == [] then 0 else 1)
          && (g.revision != revision ==> revision != U64_MAX)
    }

    lemma SliceGained(g: Generation, view: View, revision: nat, outcome: Outcome, expected: Option<nat>)
      requires g.Settled() && SliceOutcome(g, view, revision, outcome, expected)
      requires LogsOk(logs, g.id) && g.id in logs && logs[g.id].membership == g.membership
      requires revision == |logs[g.id].deltas| <= U64_MAX
      requires revision < U64_MAX ==> view == Replay(logs[g.id], revision)
      requires SystemOk(Slicing(expected), membershipFlight, logs, publisher.sourceId, publisher.state)
      ensures var more := LogAfter(logs, g.id, AddedBy(outcome));
              && LogsOk(more, g.id) && TableLogged(g, more)
              && (forall h :: h in logs ==> h in more && (h != g.id ==> more[h] == logs[h]))
              && SystemOk(TurnAfter(outcome, expected), membershipFlight, more, publisher.sourceId, publisher.state)
              && (more != logs ==>
                    && publisher.state.generation == Some(g.id)
                    && publisher.state.revision + 1 == |more[g.id].deltas|)
    {
      hide DriverOk, LifecycleOk, FactTable.NoneSpent, SystemOk, LogOk, WorkOk, Project, InsertView, Replay, Pub.Fits,
           TurnAfter;
      if AddedBy(outcome) != [] {
        var log := logs[g.id];
        InstalledFits(g);
        LogMore(log, AddedBy(outcome));
        OnPublished(expected, g.id);
      } else {
        NothingGained(view, AddedBy(outcome));
      }
      SliceLogged(
        expected, membershipFlight, logs, publisher.sourceId, publisher.state, g.id, outcome);
    }

    lemma NothingGained(view: View, changed: seq<Classified>)
      ensures changed == [] ==> InsertView(view, changed) == view
    {
    }

    // The expected generation was published when the turn began, and no later one exists.
    lemma OnPublished(expected: Option<nat>, generation: nat)
      requires SystemOk(Slicing(expected), membershipFlight, logs, publisher.sourceId, publisher.state)
      requires LogsOk(logs, generation) && expected == Some(generation)
      ensures publisher.state.generation == Some(generation)
      ensures generation in logs && publisher.state.revision == |logs[generation].deltas|
      ensures publisher.state.membership.Some? && publisher.state.membership.value.entries == logs[generation].membership
    {
      hide DriverOk, LifecycleOk, FactTable.NoneSpent, Replay, LogOk;
    }

    // --- publishing a turn -------------------------------------------------------------------

    /** One section of the driver's publication. Neither a sequence gap nor too many
        records can be met. The turn continues when the publication was current and
        the slice has more to do. */
    method AdvanceTurn() returns (result: Option<Pub.Result>, again: bool)
      requires Valid() && turn.Reporting?
      modifies this`turn, this`wanted, publisher
      ensures Valid() && wanted == (old(wanted) || again)
      ensures result.Some? <==> turn.Idle?
      ensures result.Some? ==> result.value.Published?
      ensures again <==> result == Some(Pub.Published(true)) && old(turn).continues
      ensures result == Some(Pub.Published(true)) ==>
                && serving.Some? && serving == publisher.state.generation
                && (publisher.state.lifecycle == Some(Pub.Classifying) <==> again)
                && (publisher.state.lifecycle == Some(Pub.Paused) <==> !again && serving.value in failed)
                && (publisher.state.lifecycle == Some(Pub.Complete) <==> !again && serving.value !in failed)
                && (pipeline.current != null && serving == Some(pipeline.current.id) ==>
                      (publisher.state.lifecycle == Some(Pub.Complete)
                       <==> serving.value !in failed && pipeline.current.Finished()))
      ensures publisher.state.generation == old(publisher.state.generation)
      ensures turn.Idle? && !old(turn).continues && serving == publisher.state.generation && serving.Some?
              && announced && !old(wanted) ==>
                Closed()
      ensures publisher.state.revision != old(publisher.state.revision) ==>
                InFlight(old(turn)).Some? && publisher.state.revision == InFlight(old(turn)).value.revision
    {
      hide DriverOk, LifecycleOk, FactTable.NoneSpent, SystemOk, LogsOk, LogOk, TableLogged, Pub.FlightOk, Pub.StateOk,
           Pub.IssuedOk, Pub.FlightsOk, Pub.PreparedFor, WorkOk, CacheOk, SliceOk, HistoryOk, AccountOk, Pub.Later;
      var flight, continues := turn.flight, turn.continues;
      ghost var lifecycle := publisher.state.lifecycle;
      TurnFlight(flight, continues);
      var next;
      if InFlight(turn).Some? {
        next := AdvanceDelta(flight, continues, InFlight(turn).value);
      } else {
        next := AdvanceLifecycle(flight, continues);
      }
      result := if next.Done? then Some(next.result) else None;
      again := next.Done? && continues && next.result.current;
      EndTurn(next, continues, again, lifecycle);
    }

    // A turn that is over leaves the source wanted if it goes on, and readers know how it ended.
    method EndTurn(next: Pub.Flight, continues: bool, again: bool, ghost before: Option<Pub.Lifecycle>)
      requires turn.Reporting? && turn.continues == continues && (again ==> next.Done? && continues)
      requires Logged(if next.Done? then Idle else Reporting(next, continues)) && CurrentOk(turn, ended, failed)
      requires DriverOk(
                 turn, membershipFlight, wanted, announced, ended, reopened, serving, publisher.state.generation)
      requires LifecycleOk(turn, serving, ended, failed, publisher.state.generation, before)
      requires Tells(turn.flight, next, publisher.state.generation, before, publisher.state.lifecycle)
      modifies this`turn, this`wanted
      ensures Valid() && wanted == (old(wanted) || again)
      ensures turn == if next.Done? then Idle else Reporting(next, continues)
      ensures turn.Idle? && !continues && serving == publisher.state.generation && serving.Some? ==>
                serving.value in ended
      ensures next.Done? && next.result.current ==>
                && serving.Some? && serving == publisher.state.generation
                && Says(publisher.state.lifecycle, serving.value in ended, serving.value in failed)
                && (continues <==> serving.value !in ended)
    {
      hide FactTable.NoneSpent, SystemOk, LogsOk, TableLogged, Pub.StateOk, Pub.IssuedOk, Pub.FlightsOk,
           WorkOk, CacheOk, SliceOk, HistoryOk, AccountOk, DriverOk, LifecycleOk;
      TurnSays(turn, membershipFlight, wanted, announced, ended, reopened, serving, publisher.state.generation);
      if next.Done? {
        TurnDone(
          turn, again, membershipFlight, wanted, announced, ended, reopened, serving, publisher.state.generation);
        LifecycleTold(
          turn, next.result, membershipFlight, wanted, announced, ended, reopened, failed, serving,
          publisher.state.generation, before, publisher.state.lifecycle);
        wanted := wanted || again;
        turn := Idle;
      } else {
        TurnGoesOn(
          turn, Reporting(next, continues), membershipFlight, wanted, announced, ended, reopened, serving,
          publisher.state.generation);
        LifecycleGoesOn(
          turn, Reporting(next, continues), ended, failed, serving, publisher.state.generation, before);
        turn := Reporting(next, continues);
      }
    }

    lemma TurnFlight(flight: Pub.Flight, continues: bool)
      requires Logged(turn) && turn == Reporting(flight, continues)
      ensures Pub.FlightOk(publisher.sourceId, flight, publisher.state)
      ensures InFlight(turn).Some? ==> flight.DeltaEncoded? || (flight.Requested? && flight.request.Update?)
      ensures InFlight(turn).None? ==>
                flight.LifecycleEncoded? || (flight.Requested? && flight.request.Update? && flight.request.delta.None?)
      ensures flight.Requested? && flight.request.delta.Some? ==>
                flight.request.generation == flight.request.delta.value.generation
      ensures InFlight(turn).Some? ==>
                var delta := InFlight(turn).value;
                && delta.generation in logs
                && (publisher.state.generation == Some(delta.generation) ==>
                      && delta.revision == publisher.state.revision + 1
                      && var view := InsertView(publisher.state.classifications, delta.changed);
                         && publisher.state.membership.value.entries == logs[delta.generation].membership
                         && Pub.Fits(view, logs[delta.generation].membership)
                         && |view| <= |logs[delta.generation].membership|)
    {
      hide Pub.FlightOk, Pub.StateOk, Pub.Fits, Pub.Later, WorkOk, CacheOk, SliceOk, HistoryOk, AccountOk, TableLogged,
           MembershipOk, UnstartedUnlessPublished, Pub.IssuedOk, Pub.FlightsOk;
      if InFlight(turn).Some? && publisher.state.generation == Some(InFlight(turn).value.generation) {
        DeltaNext(InFlight(turn).value);
      }
    }

    // The revision in flight is the next one of the published generation.
    lemma DeltaNext(delta: Delta)
      requires LogsOk(logs, pipeline.nextGeneration) && InFlight(turn) == Some(delta)
      requires TurnOk(turn, logs, publisher.sourceId, publisher.state) && PublishedOk(turn, logs, publisher.state)
      requires publisher.state.generation == Some(delta.generation)
      ensures delta.generation in logs && delta.revision == publisher.state.revision + 1
      ensures publisher.state.membership.Some?
      ensures publisher.state.membership.value.entries == logs[delta.generation].membership
      ensures var view := InsertView(publisher.state.classifications, delta.changed);
              && Pub.Fits(view, logs[delta.generation].membership)
              && |view| <= |logs[delta.generation].membership|
    {
      hide Pub.FlightOk, Pub.StateOk, Pub.Fits, Pub.Later;
      var log := logs[delta.generation];
      assert Replay(log, delta.revision) == InsertView(publisher.state.classifications, delta.changed);
      FitsSize(Replay(log, delta.revision), log.membership);
    }

    ghost predicate TurnProceeds(next: Pub.Flight, continues: bool)
      reads this, publisher
    {
      && SystemOk(
           if next.Done? then Idle else Reporting(next, continues), membershipFlight, logs, publisher.sourceId,
           publisher.state)
      && (next.Done? ==> next.result.Published?)
    }

    method AdvanceDelta(flight: Pub.Flight, continues: bool, delta: Delta) returns (next: Pub.Flight)
      requires Valid() && turn == Reporting(flight, continues) && InFlight(turn) == Some(delta)
      modifies publisher`state, publisher`issued
      ensures publisher.Valid() && TurnProceeds(next, continues)
      ensures Tells(flight, next, publisher.state.generation, old(publisher.state.lifecycle), publisher.state.lifecycle)
      ensures publisher.state.generation == old(publisher.state.generation)
      ensures publisher.state.revision == old(publisher.state.revision) || publisher.state.revision == delta.revision
    {
      hide DriverOk, LifecycleOk, FactTable.NoneSpent, SystemOk, LogsOk, LogOk, TableLogged, Pub.FlightOk, Pub.StateOk,
           Pub.IssuedOk, Pub.FlightsOk, Pub.Later, WorkOk, CacheOk, SliceOk, HistoryOk, AccountOk;
      TurnFlight(flight, continues);
      ghost var before := publisher.state;
      publisher.LaterSelf(before);
      if flight.DeltaEncoded? {
        publisher.UpdateFacts(flight);
        next := publisher.CommitUpdate(flight);
      } else {
        next := publisher.BeginUpdate(delta.generation, delta, flight.request.lifecycle);
      }
      if next == Pub.Done(Pub.Published(true)) {
        DeltaPublished(delta, turn, membershipFlight, logs, publisher.sourceId, before, publisher.state);
      } else if next.Done? {
        assert flight.Requested? ==>
            && next != Pub.Done(Pub.Rejected(Pub.ExceedMembership)) && next != Pub.Done(Pub.Rejected(Pub.InvalidObservation))
            && next != Pub.Done(Pub.Rejected(Pub.RevisionSequence));
        assert next.result == Pub.Published(false);
        TurnOver(turn, membershipFlight, logs, publisher.sourceId, publisher.state);
      } else {
        TurnFollows(flight, next, continues, delta);
      }
    }

    // The driver goes on with the same revision.
    lemma TurnFollows(flight: Pub.Flight, next: Pub.Flight, continues: bool, delta: Delta)
      requires SystemOk(Reporting(flight, continues), membershipFlight, logs, publisher.sourceId, publisher.state)
      requires InFlight(Reporting(flight, continues)) == Some(delta)
      requires next.DeltaEncoded? && next.delta == delta && Pub.FlightOk(publisher.sourceId, next, publisher.state)
      ensures SystemOk(Reporting(next, continues), membershipFlight, logs, publisher.sourceId, publisher.state)
    {
      hide DriverOk, LifecycleOk, FactTable.NoneSpent, Pub.FlightOk;
    }

    method AdvanceLifecycle(flight: Pub.Flight, continues: bool) returns (next: Pub.Flight)
      requires Valid() && turn == Reporting(flight, continues) && InFlight(turn).None?
      modifies publisher`state, publisher`issued
      ensures publisher.Valid() && TurnProceeds(next, continues)
      ensures Tells(flight, next, publisher.state.generation, old(publisher.state.lifecycle), publisher.state.lifecycle)
      ensures publisher.state.generation == old(publisher.state.generation)
      ensures publisher.state.revision == old(publisher.state.revision)
    {
      hide DriverOk, LifecycleOk, FactTable.NoneSpent, SystemOk, LogsOk, LogOk, TableLogged, Pub.FlightOk, Pub.StateOk,
           Pub.IssuedOk, Pub.FlightsOk, Pub.Later, WorkOk, CacheOk, SliceOk, HistoryOk, AccountOk;
      TurnFlight(flight, continues);
      ghost var before := publisher.state;
      publisher.LaterSelf(before);
      if flight.LifecycleEncoded? {
        next := publisher.CommitLifecycle(flight);
      } else {
        next := publisher.EncodeLifecycle(flight.request.generation, flight.request.lifecycle);
      }
      LifecycleFollows(before, next, continues);
    }

    lemma LifecycleFollows(before: Pub.CurrentState, next: Pub.Flight, continues: bool)
      requires SystemOk(turn, membershipFlight, logs, publisher.sourceId, before) && InFlight(turn).None?
      requires SameRecords(before, publisher.state) && Pub.FlightOk(publisher.sourceId, next, publisher.state)
      requires next.Done? || next.LifecycleEncoded?
               || (next.Requested? && next.request.Update? && next.request.delta.None?)
      ensures SystemOk(
                if next.Done? then Idle else Reporting(next, continues), membershipFlight, logs, publisher.sourceId,
                publisher.state)
    {
      hide DriverOk, LifecycleOk, FactTable.NoneSpent, Pub.FlightOk;
      SameRecordsOk(turn, membershipFlight, logs, publisher.sourceId, before, publisher.state);
    }

    // --- whole runs ----------------------------------------------------------------------------

    method Step(event: Event)
      requires Valid() && EventOk(event, pipeline.truth)
      modifies Footprint()
      ensures Valid() && fresh(Footprint() - old(Footprint()))
      ensures Pub.GenerationAtMost(old(publisher.state.generation), publisher.state.generation)
      ensures old(Closed()) ==> Closed() || publisher.state.generation != old(publisher.state.generation)
    {
      hide DriverOk, LifecycleOk, FactTable.NoneSpent, SystemOk, LogsOk, TableLogged, Pub.StateOk, Pub.IssuedOk,
           Pub.FlightsOk, WorkOk, CacheOk, SliceOk, HistoryOk, AccountOk, Honest, Quiet, DistinctEntries;
      match event {
        case PollStarted(startedAtMs) =>
          PollStarted(startedAtMs);
        case Installed(membership, observedAtMs) =>
          if membershipFlight.None? && announced && !turn.Slicing? {
            Install(membership, observedAtMs);
          }
        case PollFailed(error) =>
          if membershipFlight.None? && announced {
            PollFailed(error);
          }
        case AdvanceMembership =>
          if membershipFlight.Some? {
            var result, schedule := AdvanceMembership();
          }
        case AbandonMembership =>
          AbandonMembership();
        case Announce =>
          if !announced {
            Announce();
          }
        case TakeTurn =>
          if turn.Idle? && wanted {
            TakeTurn();
          }
        case RunSlice(env) =>
          if turn.Slicing? {
            var outcome := Slice(env);
          }
        case AdvanceTurn =>
          if turn.Reporting? {
            var result, again := AdvanceTurn();
          }
      }
    }

    /** Every run keeps readers on a prefix of the published generation's history. A
        source whose generation has ended, with no turn to come, is given none
        before a newer generation is published. */
    method Run(schedule: seq<Event>)
      requires Valid() && forall event :: event in schedule ==> EventOk(event, pipeline.truth)
      modifies Footprint()
      ensures Valid() && fresh(Footprint() - old(Footprint()))
      ensures Pub.GenerationAtMost(old(publisher.state.generation), publisher.state.generation)
      ensures old(Closed()) ==> Closed() || publisher.state.generation != old(publisher.state.generation)
    {
      hide DriverOk, LifecycleOk, FactTable.NoneSpent, SystemOk, LogsOk, TableLogged, Pub.StateOk, Pub.IssuedOk,
           Pub.FlightsOk, WorkOk, CacheOk, SliceOk, HistoryOk, AccountOk, EventOk;
      for i := 0 to |schedule|
        invariant Valid() && fresh(Footprint() - old(Footprint()))
        invariant Pub.GenerationAtMost(old(publisher.state.generation), publisher.state.generation)
        invariant old(Closed()) ==> Closed() || publisher.state.generation != old(publisher.state.generation)
      {
        assert schedule[i] in schedule;
        Step(schedule[i]);
      }
    }

    /** Between turns, readers of a generation whose last slice did not go on are told
        how it ended: it failed, or nothing is left of it. */
    lemma ReadersTold()
      requires Valid() && turn.Idle? && publisher.state.generation.Some? && publisher.state.generation.value in ended
      ensures var g := publisher.state.generation.value;
              && publisher.state.lifecycle != Some(Pub.Classifying)
              && (publisher.state.lifecycle == Some(Pub.Paused) <==> g in failed)
              && (publisher.state.lifecycle == Some(Pub.Complete) <==> g !in failed)
              && (publisher.state.lifecycle == Some(Pub.Complete) && pipeline.current != null && pipeline.current.id == g ==>
                    pipeline.current.Finished())
    {
      hide WorkOk, CacheOk, SliceOk, HistoryOk, AccountOk, LogsOk, TableLogged, SystemOk, DriverOk, FactTable.NoneSpent;
    }

    /** What readers see is the history of the published generation up to the
        published revision. Between turns, on the pipeline's current generation, it
        is the pipeline's own table. */
    lemma ReadersSee()
      requires Valid() && publisher.state.generation.Some?
      ensures publisher.state.generation.value in logs && publisher.state.latest.Some?
      ensures var log := logs[publisher.state.generation.value];
              var latest := publisher.state.latest.value;
              && latest.snapshot.entries == log.membership
              && latest.revision <= |log.deltas| <= latest.revision + 1
              && latest.classifications == Replay(log, latest.revision)
      ensures turn.Idle? && pipeline.current != null && publisher.state.generation == Some(pipeline.current.id)
              && pipeline.current.revision < U64_MAX ==>
                && publisher.state.latest.value.revision == pipeline.current.revision
                && publisher.state.latest.value.classifications == pipeline.current.Published()
    {
      hide DriverOk, LifecycleOk, FactTable.NoneSpent, LogOk, Replay, WorkOk, CacheOk, SliceOk, HistoryOk, AccountOk;
    }
  }

  ghost predicate EventOk(event: Event, truth: OutPoint -> Script) {
    && (event.Installed? ==> DistinctEntries(event.membership))
    && (event.RunSlice? ==> Honest(event.env, truth) && Quiet(event.env))
  }
}
