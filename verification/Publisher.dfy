/** The current-state publisher of one source. Every publication reads the state
    under the lock, prepares and encodes without it, and commits only if nothing
    it depends on has changed; otherwise it drops out or tries again. A flight is
    one publication with its place in that protocol, and a schedule interleaves
    any number of flights, poll starts and failing preparations. */
module Publishing {
  import opened Base
  import opened SliceSteps
  import opened Generations
  import opened Etags
  import P = Pipelines
  import Records

  datatype Lifecycle = Classifying | Complete | Paused

  datatype Snapshot = Snapshot(sourceId: string, observedAtMs: nat, entries: Membership)

  // A snapshot with the records retained for it, as readers see it.
  datatype Observation = Observation(snapshot: Snapshot, revision: nat, classifications: View)

  // The records belong to entries of the membership, as validation demands.
  predicate Fits(view: View, entries: Membership) {
    forall t :: t in view ==>
      view[t].expected.txid == t && exists e :: e in entries && e.txid == t && e.wtxid == view[t].expected.wtxid
  }

  function Materialize(snapshot: Snapshot, revision: nat, view: View): Option<Observation> {
    if Fits(view, snapshot.entries) then Some(Observation(snapshot, revision, view)) else None
  }

  // Rows of a membership as the records see them.
  ghost predicate SameRows(rows: seq<Records.MempoolEntry>, entries: Membership) {
    |rows| == |entries| && forall i :: 0 <= i < |rows| ==> rows[i].txid == entries[i].txid && rows[i].wtxid == entries[i].wtxid
  }

  ghost predicate RecordsFor<E>(view: View, records: map<Txid, Records.Record<E>>) {
    && records.Keys == view.Keys
    && forall t :: t in view ==>
         && Records.RecordOk(records[t])
         && records[t].txid == view[t].expected.txid && records[t].wtxid == view[t].expected.wtxid
  }

  /** For records as the pipeline produces them, fitting the membership is exactly
      what materialization demands. */
  lemma FitsIsRetained<E>(
    view: View, entries: Membership, rows: seq<Records.MempoolEntry>, records: map<Txid, Records.Record<E>>)
    requires SameRows(rows, entries) && RecordsFor(view, records)
    ensures Fits(view, entries) <==> Records.Retained(rows, records)
  {
    hide Records.RecordOk;
    forall t | t in view
      ensures (exists e :: e in entries && e.txid == t && e.wtxid == view[t].expected.wtxid)
              <==> exists e :: e in rows && e.txid == t && e.wtxid == records[t].wtxid
    {
      if e :| e in entries && e.txid == t && e.wtxid == view[t].expected.wtxid {
        var i :| 0 <= i < |entries| && entries[i] == e;
        assert rows[i] in rows;
      }
      if e :| e in rows && e.txid == t && e.wtxid == records[t].wtxid {
        var i :| 0 <= i < |rows| && rows[i] == e;
        assert entries[i] in entries;
      }
    }
  }

  // --- responses -------------------------------------------------------------------

  datatype Availability = Waiting | Failing | Available | Stale

  datatype ProgressReport = ProgressReport(
    lifecycle: Lifecycle, revision: nat, classifiedCount: nat, unclassifiedCount: nat)

  datatype Summary = Summary(
    sourceId: string, availability: Availability, lastPollStartedAtMs: Option<nat>, observedAtMs: Option<nat>,
    transactionCount: Option<nat>, totalVsize: Option<nat>, classification: Option<ProgressReport>,
    lastError: Option<string>)

  // A body is the encoding of a response; encoding is injective, so the two are identified.
  datatype Response = Response(source: Summary, snapshot: Option<Observation>)

  function Assessed(entries: Membership, view: View): nat {
    if entries == [] then 0
    else (if entries[0].txid in view then 1 else 0) + Assessed(entries[1..], view)
  }

  function TotalVsize(entries: Membership): nat {
    if entries == [] then 0 else entries[0].vsize + TotalVsize(entries[1..])
  }

  function ProgressOf(lifecycle: Lifecycle, observation: Observation): ProgressReport {
    var classified := Assessed(observation.snapshot.entries, observation.classifications);
    AssessedBound(observation.snapshot.entries, observation.classifications);
    ProgressReport(lifecycle, observation.revision, classified, |observation.snapshot.entries| - classified)
  }

  lemma {:induction false} AssessedBound(entries: Membership, view: View)
    ensures Assessed(entries, view) <= |entries|
  {
    if entries != [] {
      AssessedBound(entries[1..], view);
    }
  }

  /** The classified count of a published snapshot is the number of its records. */
  lemma {:induction false} AssessedCounts(entries: Membership, view: View)
    requires DistinctEntries(entries) && Fits(view, entries)
    ensures Assessed(entries, view) == |view|
    decreases |entries|
  {
    if entries == [] {
      if t :| t in view {
        assert false;
      }
      assert view == map[];
    } else {
      var first, rest := entries[0], entries[1..];
      var others := view - {first.txid};
      forall t | t in others
        ensures others[t].expected.txid == t && exists e :: e in rest && e.txid == t && e.wtxid == others[t].expected.wtxid
      {
        var e :| e in entries && e.txid == t && e.wtxid == view[t].expected.wtxid;
        assert e in rest;
      }
      AssessedCounts(rest, others);
      SameAssessed(rest, view, others, first.txid);
      assert others.Keys == view.Keys - {first.txid};
    }
  }

  lemma {:induction false} SameAssessed(entries: Membership, view: View, others: View, txid: Txid)
    requires others == view - {txid} && forall e :: e in entries ==> e.txid != txid
    ensures Assessed(entries, view) == Assessed(entries, others)
  {
    if entries != [] {
      SameAssessed(entries[1..], view, others, txid);
    }
  }

  function SummaryFromParts(
    sourceId: string, lastPollStartedAtMs: Option<nat>, latest: Option<Observation>, lifecycle: Option<Lifecycle>,
    lastError: Option<string>): Summary
  {
    var availability := match (latest, lastError)
      case (None, None) => Waiting
      case (None, Some(_)) => Failing
      case (Some(_), None) => Available
      case (Some(_), Some(_)) => Stale;
    var classification := match (latest, lifecycle)
      case (Some(observation), Some(state)) => Some(ProgressOf(state, observation))
      case _ => None;
    if latest.Some? then
      var snapshot := latest.value.snapshot;
      Summary(
        sourceId, availability, lastPollStartedAtMs, Some(snapshot.observedAtMs), Some(|snapshot.entries|),
        Some(TotalVsize(snapshot.entries)), classification, lastError)
    else
      Summary(sourceId, availability, lastPollStartedAtMs, None, None, None, classification, lastError)
  }

  function ResponseFrom(
    sourceId: string, lastPollStartedAtMs: Option<nat>, latest: Option<Observation>, lifecycle: Option<Lifecycle>,
    lastError: Option<string>): Response
  {
    Response(SummaryFromParts(sourceId, lastPollStartedAtMs, latest, lifecycle, lastError), latest)
  }

  // --- the shared state --------------------------------------------------------------

  datatype CachedResponse = CachedResponse(body: Response, etag: Option<string>)

  datatype CurrentState = CurrentState(
    lastPollStartedAtMs: Option<nat>,
    membership: Option<Snapshot>,
    latest: Option<Observation>,
    classifications: View,
    lastError: Option<string>,
    cachedResponse: Option<CachedResponse>,
    generation: Option<nat>,
    revision: nat,
    lifecycle: Option<Lifecycle>,
    statusRevision: nat,
    responseRevision: nat)

  const INITIAL: CurrentState := CurrentState(None, None, None, map[], None, None, None, 0, None, 0, 0)

  // What a response encoded from this state says.
  function ResponseOf(sourceId: string, s: CurrentState): Response {
    ResponseFrom(sourceId, s.lastPollStartedAtMs, s.latest, s.lifecycle, s.lastError)
  }

  // How many entries have a record.
  ghost function RecordedEntries(entries: Membership, view: View): set<nat> {
    set i | 0 <= i < |entries| && entries[i].txid in view
  }

  /** What a summary says of the state, field by field. */
  ghost predicate SummarySays(summary: Summary, sourceId: string, s: CurrentState) {
    && summary.sourceId == sourceId && summary.lastError == s.lastError
    && (summary.availability == Waiting <==> s.latest.None? && s.lastError.None?)
    && (summary.availability == Failing <==> s.latest.None? && s.lastError.Some?)
    && (summary.availability == Available <==> s.latest.Some? && s.lastError.None?)
    && (summary.availability == Stale <==> s.latest.Some? && s.lastError.Some?)
    && (s.latest.None? ==>
          && summary.observedAtMs.None? && summary.transactionCount.None? && summary.totalVsize.None?
          && summary.classification.None?)
    && (s.latest.Some? ==>
          var snapshot := s.latest.value.snapshot;
          && summary.observedAtMs == Some(snapshot.observedAtMs)
          && summary.transactionCount == Some(|snapshot.entries|)
          && summary.totalVsize == Some(VsizeUpTo(snapshot.entries, |snapshot.entries|))
          && summary.classification.Some? && s.lifecycle.Some?
          && var progress := summary.classification.value;
             && progress.lifecycle == s.lifecycle.value && progress.revision == s.latest.value.revision
             && progress.classifiedCount == |RecordedEntries(snapshot.entries, s.classifications)|
             && progress.classifiedCount + progress.unclassifiedCount == |snapshot.entries|
             && (DistinctEntries(snapshot.entries) ==> progress.classifiedCount == |s.classifications|))
  }

  // The virtual sizes of the first entries together.
  ghost function VsizeUpTo(entries: Membership, n: nat): nat
    requires n <= |entries|
  {
    if n == 0 then 0 else VsizeUpTo(entries, n - 1) + entries[n - 1].vsize
  }

  lemma {:induction false} TotalUpTo(entries: Membership, n: nat)
    requires n <= |entries|
    ensures TotalVsize(entries) == VsizeUpTo(entries, n) + TotalVsize(entries[n..])
  {
    if n == 0 {
      assert entries[0..] == entries;
    } else {
      TotalUpTo(entries, n - 1);
      assert entries[n - 1..][1..] == entries[n..];
    }
  }

  lemma {:induction false} AssessedFrom(entries: Membership, view: View, k: nat)
    requires k <= |entries|
    ensures Assessed(entries[k..], view) == |set i | k <= i < |entries| && entries[i].txid in view|
    decreases |entries| - k
  {
    var from := set i | k <= i < |entries| && entries[i].txid in view;
    if k < |entries| {
      AssessedFrom(entries, view, k + 1);
      var rest := set i | k + 1 <= i < |entries| && entries[i].txid in view;
      assert from == (if entries[k].txid in view then {k} else {}) + rest;
      assert entries[k..][1..] == entries[k + 1..];
    } else {
      assert from == {};
    }
  }

  lemma TotalIs(entries: Membership)
    ensures TotalVsize(entries) == VsizeUpTo(entries, |entries|)
  {
    TotalUpTo(entries, |entries|);
  }

  lemma AssessedIs(entries: Membership, view: View)
    ensures Assessed(entries, view) == |RecordedEntries(entries, view)|
  {
    AssessedFrom(entries, view, 0);
    assert entries[0..] == entries;
  }

  lemma EncodedSays(sourceId: string, s: CurrentState)
    requires StateOk(sourceId, s)
    ensures forall body :: Encodes(sourceId, body, s) ==> SummarySays(body.source, sourceId, s) && body.snapshot == s.latest
    ensures Encodes(sourceId, ResponseOf(sourceId, s), s)
  {
    hide Assessed, TotalVsize, RecordedEntries, VsizeUpTo, Fits;
    if s.latest.Some? {
      var entries := s.latest.value.snapshot.entries;
      TotalIs(entries);
      AssessedIs(entries, s.classifications);
      AssessedBound(entries, s.classifications);
      if DistinctEntries(entries) {
        AssessedCounts(entries, s.classifications);
      }
    }
  }

  // A poll start is the only change that leaves the cached body behind.
  ghost predicate Encodes(sourceId: string, body: Response, s: CurrentState) {
    body == ResponseOf(sourceId, s.(lastPollStartedAtMs := body.source.lastPollStartedAtMs))
  }

  function EtagOf(sourceId: string, latest: Option<Observation>, responseRevision: nat): Option<string> {
    if latest.Some? then Some(Etag(sourceId, latest.value.snapshot.observedAtMs, responseRevision)) else None
  }

  /** The parts of the state agree: a snapshot, its lifecycle and its generation
      coexist, the snapshot shows exactly the retained records, and the cached
      body is the encoding of what is there. */
  ghost predicate StateOk(sourceId: string, s: CurrentState) {
    && (s.latest.Some? <==> s.membership.Some?) && (s.latest.Some? <==> s.lifecycle.Some?)
    && (s.latest.Some? <==> s.generation.Some?)
    && (s.latest.Some? ==>
          && s.latest.value == Observation(s.membership.value, s.revision, s.classifications)
          && s.latest.value.snapshot.sourceId == sourceId && Fits(s.classifications, s.latest.value.snapshot.entries))
    && (s.cachedResponse.None? ==> s.latest.None? && s.lastError.None? && s.responseRevision == 0)
    && (s.cachedResponse.Some? ==>
          && Encodes(sourceId, s.cachedResponse.value.body, s)
          && s.cachedResponse.value.etag == EtagOf(sourceId, s.latest, s.responseRevision))
  }

  // The generation moves forward only.
  predicate GenerationAtMost(a: Option<nat>, b: Option<nat>) {
    a.Some? ==> b.Some? && a.value <= b.value
  }

  /** How the state may change between two moments, whoever changes it. The
      revisions identify what they cover: an unchanged status revision means an
      unchanged poll time, failure, generation and lifecycle; an unchanged
      generation and revision mean an unchanged snapshot and unchanged records. */
  ghost predicate Later(a: CurrentState, b: CurrentState) {
    && a.statusRevision <= b.statusRevision && a.responseRevision <= b.responseRevision
    && GenerationAtMost(a.generation, b.generation)
    && (a.statusRevision == b.statusRevision ==>
          && a.lastPollStartedAtMs == b.lastPollStartedAtMs && a.lastError == b.lastError
          && a.generation == b.generation && a.lifecycle == b.lifecycle)
    && (a.generation == b.generation ==> a.revision <= b.revision && a.membership == b.membership)
    && (a.generation == b.generation && a.revision == b.revision ==>
          a.latest == b.latest && a.classifications == b.classifications)
  }

  lemma LaterTransitive(a: CurrentState, b: CurrentState, c: CurrentState)
    requires Later(a, b) && Later(b, c)
    ensures Later(a, c)
  {
  }

  // Every response ever cached, by its revision.
  type Issued = map<nat, CachedResponse>

  ghost predicate IssuedOk(sourceId: string, s: CurrentState, issued: Issued) {
    && (forall r :: r in issued <==> 1 <= r <= s.responseRevision)
    && (forall r :: r in issued ==> issued[r].etag == EtagOf(sourceId, issued[r].body.snapshot, r))
    && (s.cachedResponse.Some? ==>
          s.responseRevision in issued && issued[s.responseRevision] == s.cachedResponse.value)
  }

  // --- flights -----------------------------------------------------------------------

  datatype Request =
    | Membership(start: P.GenerationStart, sourceId: string, observedAtMs: nat)
    | Update(generation: nat, delta: Option<P.Delta>, lifecycle: Lifecycle)
    | Failure(error: string)

  datatype Error =
    | SourceMismatch
    | RevisionMismatch
    | ReportGenerationMismatch
    | RevisionSequence
    | ExceedMembership
    | InvalidObservation
    | PreparationFailed

  datatype Result = Published(current: bool) | Rejected(error: Error)

  /** A publication in flight. The states it carries are the ones it read. */
  datatype Flight =
    | Requested(request: Request)
    | MembershipPrepared(start: P.GenerationStart, prepared: Observation)
    | MembershipEncoded(start: P.GenerationStart, prepared: Observation, seen: CurrentState, body: Response)
    | DeltaEncoded(
        delta: P.Delta, lifecycle: Lifecycle, prepared: Observation, base: CurrentState, status: CurrentState,
        body: Response)
    | LifecycleEncoded(generation: nat, lifecycle: Lifecycle, seen: CurrentState, body: Response)
    | FailureEncoded(error: string, seen: CurrentState, body: Response)
    | Done(result: Result)

  function InitialLifecycle(start: P.GenerationStart): Lifecycle {
    if start.hasEligibleWork then Classifying else Complete
  }

  ghost predicate PreparedFor(sourceId: string, start: P.GenerationStart, prepared: Observation) {
    && start.revision == 0 && prepared.revision == 0 && prepared.classifications == start.classifications
    && prepared.snapshot.sourceId == sourceId && prepared.snapshot.entries == start.membership
    && Fits(prepared.classifications, prepared.snapshot.entries)
  }

  ghost predicate FlightOk(sourceId: string, flight: Flight, s: CurrentState) {
    match flight
    case Requested(_) => true
    case MembershipPrepared(start, prepared) => PreparedFor(sourceId, start, prepared)
    case MembershipEncoded(start, prepared, seen, body) =>
      && PreparedFor(sourceId, start, prepared) && Later(seen, s)
      && body == ResponseFrom(sourceId, seen.lastPollStartedAtMs, Some(prepared), Some(InitialLifecycle(start)), None)
    case DeltaEncoded(delta, lifecycle, prepared, base, status, body) =>
      && Later(base, s) && Later(status, s) && StateOk(sourceId, base)
      && base.generation == status.generation == Some(delta.generation)
      && base.revision == status.revision && delta.revision == base.revision + 1
      && prepared == Observation(base.membership.value, delta.revision, InsertView(base.classifications, delta.changed))
      && Fits(prepared.classifications, prepared.snapshot.entries)
      && body == ResponseFrom(sourceId, status.lastPollStartedAtMs, Some(prepared), Some(lifecycle), status.lastError)
    case LifecycleEncoded(generation, lifecycle, seen, body) =>
      && Later(seen, s) && seen.generation == Some(generation) && seen.lifecycle != Some(lifecycle)
      && body == ResponseFrom(sourceId, seen.lastPollStartedAtMs, seen.latest, Some(lifecycle), seen.lastError)
    case FailureEncoded(error, seen, body) =>
      && Later(seen, s)
      && body == ResponseFrom(sourceId, seen.lastPollStartedAtMs, seen.latest, seen.lifecycle, Some(error))
    case Done(_) => true
  }

  ghost predicate FlightsOk(sourceId: string, flights: map<nat, Flight>, s: CurrentState) {
    forall id :: id in flights ==> FlightOk(sourceId, flights[id], s)
  }

  // Flights do not mind a later state.
  lemma FlightLater(sourceId: string, flight: Flight, a: CurrentState, b: CurrentState)
    requires FlightOk(sourceId, flight, a) && Later(a, b)
    ensures FlightOk(sourceId, flight, b)
  {
    hide StateOk;
    if flight.MembershipEncoded? || flight.LifecycleEncoded? || flight.FailureEncoded? {
      LaterTransitive(flight.seen, a, b);
    } else if flight.DeltaEncoded? {
      LaterTransitive(flight.base, a, b);
      LaterTransitive(flight.status, a, b);
    }
  }

  lemma FlightsLater(sourceId: string, flights: map<nat, Flight>, a: CurrentState, b: CurrentState)
    requires FlightsOk(sourceId, flights, a) && Later(a, b)
    ensures FlightsOk(sourceId, flights, b)
  {
    hide FlightOk, Later;
    forall id | id in flights ensures FlightOk(sourceId, flights[id], b) {
      FlightLater(sourceId, flights[id], a, b);
    }
  }

  // What a flight has read is no longer what it depends on.
  predicate StatusMoved(seen: CurrentState, s: CurrentState) {
    seen.statusRevision != s.statusRevision || seen.generation != s.generation || seen.revision != s.revision
  }

  // --- what clients hold ---------------------------------------------------------------

  /** No two responses of one publisher share a tag, even weakly. */
  lemma TagsDistinct(sourceId: string, s: CurrentState, issued: Issued, a: nat, b: nat)
    requires IssuedOk(sourceId, s, issued) && a in issued && b in issued
    requires issued[a].etag.Some? && issued[b].etag.Some?
    requires Weak(issued[a].etag.value) == Weak(issued[b].etag.value)
    ensures a == b
  {
    var x, y := issued[a].body.snapshot.value.snapshot, issued[b].body.snapshot.value.snapshot;
    WeakDistinct(sourceId, x.observedAtMs, a, y.observedAtMs, b);
  }

  // One entry of a client's header: any response will do, or the one that came with this revision.
  datatype Wanted = Any | Held(revision: nat)

  // The entries are tags this source issued, or stars.
  ghost predicate TagsOf(wanted: seq<Wanted>, tags: seq<string>, issued: Issued) {
    && wanted != [] && |tags| == |wanted|
    && forall i :: 0 <= i < |wanted| ==>
         match wanted[i]
         case Any => tags[i] == "*"
         case Held(revision) => revision in issued && issued[revision].etag == Some(tags[i])
  }

  ghost predicate Wants(wanted: seq<Wanted>, revision: nat) {
    exists i :: 0 <= i < |wanted| && (wanted[i] == Any || wanted[i] == Held(revision))
  }

  /** A client that sends stars or tags it was given, on any number of header lines,
      gets "not modified" exactly when it sent a star or the tag that came with the
      response cached now, whose body is the present state but for the time of the
      last poll. */
  lemma NotModifiedIffHeld(
    sourceId: string, s: CurrentState, issued: Issued, wanted: seq<seq<Wanted>>, tags: seq<seq<string>>,
    lines: seq<string>)
    requires ValidSourceId(sourceId) && StateOk(sourceId, s) && IssuedOk(sourceId, s, issued)
    requires s.cachedResponse.Some? && s.cachedResponse.value.etag.Some?
    requires |lines| == |tags| == |wanted|
    requires forall l :: 0 <= l < |lines| ==> TagsOf(wanted[l], tags[l], issued) && lines[l] == Listing(tags[l])
    ensures IfNoneMatchMatches(lines, s.cachedResponse.value.etag.value)
            <==> exists l :: 0 <= l < |lines| && Wants(wanted[l], s.responseRevision)
    ensures s.responseRevision in issued && Encodes(sourceId, issued[s.responseRevision].body, s)
  {
    hide IfNoneMatchMatches, Listing, Plain, StateOk, CandidateMatches, TagsOf, Wants;
    var current := s.cachedResponse.value.etag.value;
    CurrentlyIssued(sourceId, s, issued);
    forall l | 0 <= l < |lines|
      ensures forall t :: t in tags[l] ==> Plain(t)
      ensures tags[l] != [] && lines[l] == Listing(tags[l])
      ensures Wants(wanted[l], s.responseRevision) <==> exists t :: t in tags[l] && CandidateMatches(t, current)
    {
      LineWants(sourceId, s, issued, wanted[l], tags[l]);
    }
    HeaderMatches(tags, lines, current);
    forall l | 0 <= l < |lines| && Wants(wanted[l], s.responseRevision)
      ensures IfNoneMatchMatches(lines, current)
    {
      var t :| t in tags[l] && CandidateMatches(t, current);
    }
  }

  lemma LineWants(sourceId: string, s: CurrentState, issued: Issued, wanted: seq<Wanted>, tags: seq<string>)
    requires ValidSourceId(sourceId) && StateOk(sourceId, s) && IssuedOk(sourceId, s, issued)
    requires s.cachedResponse.Some? && s.cachedResponse.value.etag.Some? && TagsOf(wanted, tags, issued)
    ensures tags != [] && forall t :: t in tags ==> Plain(t)
    ensures Wants(wanted, s.responseRevision)
            <==> exists t :: t in tags && CandidateMatches(t, s.cachedResponse.value.etag.value)
  {
    hide StateOk;
    var current := s.cachedResponse.value.etag.value;
    CurrentlyIssued(sourceId, s, issued);
    forall i | 0 <= i < |tags|
      ensures Plain(tags[i])
      ensures CandidateMatches(tags[i], current) <==> wanted[i] == Any || wanted[i] == Held(s.responseRevision)
    {
      if wanted[i].Held? {
        var r := wanted[i].revision;
        EtagPlain(sourceId, issued[r].body.snapshot.value.snapshot.observedAtMs, r);
        if Weak(tags[i]) == Weak(current) {
          TagsDistinct(sourceId, s, issued, r, s.responseRevision);
        }
      }
    }
    if t :| t in tags && CandidateMatches(t, current) {
      var i :| 0 <= i < |tags| && tags[i] == t;
    }
    if Wants(wanted, s.responseRevision) {
      var i :| 0 <= i < |wanted| && (wanted[i] == Any || wanted[i] == Held(s.responseRevision));
      assert tags[i] in tags;
    }
  }

  lemma CurrentlyIssued(sourceId: string, s: CurrentState, issued: Issued)
    requires StateOk(sourceId, s) && IssuedOk(sourceId, s, issued) && s.cachedResponse.Some?
    ensures s.responseRevision in issued && issued[s.responseRevision] == s.cachedResponse.value
    ensures Encodes(sourceId, s.cachedResponse.value.body, s)
  {
  }

  // --- the publisher -------------------------------------------------------------------

  datatype Event =
    | PollStarted(startedAtMs: nat)
    | Submit(id: nat, request: Request)
    | Advance(id: nat)
    | FailPreparation(id: nat)

  datatype Lookup =
    | WaitingForSnapshot
    | NotPresent
    | Unclassified
    | Detail(observedAtMs: nat, revision: nat, record: Classified)

  class CurrentStatePublisher {
    const sourceId: string
    var state: CurrentState
    var flights: map<nat, Flight>
    ghost var issued: Issued

    ghost predicate Valid()
      reads this
    {
      StateOk(sourceId, state) && IssuedOk(sourceId, state, issued) && FlightsOk(sourceId, flights, state)
    }

    // Nothing of the state or its history changed.
    twostate predicate Untouched()
      reads this
    {
      state == old(state) && issued == old(issued)
    }

    // Responses are added, never changed.
    twostate predicate Kept()
      reads this
    {
      Later(old(state), state) && forall r :: r in old(issued) ==> r in issued && issued[r] == old(issued)[r]
    }

    // One commit: the state moved on and its new body is exactly what it says.
    twostate predicate Committed()
      reads this
    {
      && Kept() && state.responseRevision == old(state).responseRevision + 1
      && state.cachedResponse.Some? && state.cachedResponse.value.body == ResponseOf(sourceId, state)
      && state.lastPollStartedAtMs == old(state).lastPollStartedAtMs
    }

    constructor (sourceId: string)
      ensures Valid() && this.sourceId == sourceId && state == INITIAL && flights == map[] && issued == map[]
    {
      this.sourceId := sourceId;
      state, flights, issued := INITIAL, map[], map[];
    }

    method RecordPollStarted(startedAtMs: nat)
      requires Valid()
      modifies this`state
      ensures Valid() && Kept() && issued == old(issued)
      ensures state == old(state).(
                lastPollStartedAtMs := Some(startedAtMs), statusRevision := old(state).statusRevision + 1)
    {
      hide FlightOk;
      ghost var before := state;
      state := state.(lastPollStartedAtMs := Some(startedAtMs), statusRevision := state.statusRevision + 1);
      FlightsLater(sourceId, flights, before, state);
    }

    /** The body readers get: the cached one, or one encoded from a state that was
        never published. Either way it is the present state but for the poll time. */
    method SnapshotResponse() returns (body: Response, etag: Option<string>)
      requires Valid()
      ensures Encodes(sourceId, body, state)
      ensures etag.Some? ==> state.responseRevision in issued && issued[state.responseRevision] == CachedResponse(body, etag)
      ensures etag.Some? <==> state.latest.Some?
      ensures SummarySays(body.source, sourceId, state) && body.snapshot == state.latest
    {
      EncodedSays(sourceId, state);
      if state.cachedResponse.Some? {
        return state.cachedResponse.value.body, state.cachedResponse.value.etag;
      }
      body, etag := ResponseOf(sourceId, state), None;
    }

    /** Details are of the snapshot readers see, at its revision. */
    method TransactionDetail(txid: Txid) returns (lookup: Lookup)
      requires Valid()
      ensures lookup == WaitingForSnapshot <==> state.latest.None?
      ensures lookup == NotPresent <==>
                state.latest.Some? && forall e :: e in state.latest.value.snapshot.entries ==> e.txid != txid
      ensures lookup.Detail? <==> state.latest.Some? && txid in state.latest.value.classifications
      ensures lookup.Detail? ==>
                && lookup.record == state.latest.value.classifications[txid] && lookup.record.expected.txid == txid
                && lookup.revision == state.latest.value.revision
                && lookup.observedAtMs == state.latest.value.snapshot.observedAtMs
                && exists e :: e in state.latest.value.snapshot.entries
                               && e.txid == txid && e.wtxid == lookup.record.expected.wtxid
    {
      if state.latest.None? {
        return WaitingForSnapshot;
      }
      var snapshot := state.latest.value.snapshot;
      if forall e :: e in snapshot.entries ==> e.txid != txid {
        return NotPresent;
      }
      if txid !in state.classifications {
        return Unclassified;
      }
      lookup := Detail(snapshot.observedAtMs, state.revision, state.classifications[txid]);
    }

    method ReplaceCachedResponse(next: CurrentState, body: Response)
      requires StateOk(sourceId, state) && IssuedOk(sourceId, state, issued)
      requires next.responseRevision == state.responseRevision
      requires Later(state, next) && body == ResponseOf(sourceId, next)
      modifies this`state, this`issued
      ensures state == next.(
                responseRevision := next.responseRevision + 1,
                cachedResponse := Some(
                  CachedResponse(body, EtagOf(sourceId, next.latest, next.responseRevision + 1))))
      ensures IssuedOk(sourceId, state, issued)
      ensures Later(old(state), state)
      ensures forall r :: r in old(issued) ==> r in issued && issued[r] == old(issued)[r]
    {
      var revision := next.responseRevision + 1;
      var response := CachedResponse(body, EtagOf(sourceId, next.latest, revision));
      state := next.(responseRevision := revision, cachedResponse := Some(response));
      issued := issued[revision := response];
    }

    // --- membership ------------------------------------------------------------------

    /** Checks a membership publication and prepares its observation. A generation
        that is not newer than the published one is dropped and never prepared. */
    method BeginMembership(start: P.GenerationStart, membershipSourceId: string, observedAtMs: nat)
      returns (flight: Flight)
      requires Valid()
      ensures FlightOk(sourceId, flight, state) && (flight.Done? || flight.MembershipPrepared?)
      ensures flight == Done(Rejected(SourceMismatch)) <==> membershipSourceId != sourceId
      ensures flight == Done(Rejected(RevisionMismatch)) <==> membershipSourceId == sourceId && start.revision != 0
      ensures flight == Done(Rejected(ExceedMembership)) <==>
                && membershipSourceId == sourceId && start.revision == 0
                && |start.classifications| > |start.membership|
      ensures flight == Done(Published(false)) <==>
                && membershipSourceId == sourceId && start.revision == 0
                && |start.classifications| <= |start.membership|
                && state.generation.Some? && start.generation <= state.generation.value
      ensures flight == Done(Rejected(InvalidObservation)) <==>
                && membershipSourceId == sourceId && start.revision == 0
                && |start.classifications| <= |start.membership|
                && (state.generation.Some? ==> state.generation.value < start.generation)
                && !Fits(start.classifications, start.membership)
      ensures flight.MembershipPrepared? <==>
                && membershipSourceId == sourceId && start.revision == 0
                && |start.classifications| <= |start.membership|
                && (state.generation.Some? ==> state.generation.value < start.generation)
                && Fits(start.classifications, start.membership)
      ensures flight.MembershipPrepared? ==> flight.start == start && flight.prepared.snapshot.observedAtMs == observedAtMs
    {
      if membershipSourceId != sourceId {
        return Done(Rejected(SourceMismatch));
      }
      if start.revision != 0 {
        return Done(Rejected(RevisionMismatch));
      }
      if |start.classifications| > |start.membership| {
        return Done(Rejected(ExceedMembership));
      }
      if GenerationAtMost(Some(start.generation), state.generation) {
        return Done(Published(false));
      }
      var prepared := Materialize(
        Snapshot(membershipSourceId, observedAtMs, start.membership), start.revision, start.classifications);
      if prepared.None? {
        return Done(Rejected(InvalidObservation));
      }
      flight := MembershipPrepared(start, prepared.value);
    }

    method EncodeMembership(start: P.GenerationStart, prepared: Observation) returns (flight: Flight)
      requires Valid() && PreparedFor(sourceId, start, prepared)
      ensures FlightOk(sourceId, flight, state)
      ensures state.generation.Some? && start.generation <= state.generation.value ==> flight == Done(Published(false))
      ensures (state.generation.Some? ==> state.generation.value < start.generation) ==>
                && flight.MembershipEncoded? && flight.start == start && flight.prepared == prepared
                && flight.seen == state
    {
      if GenerationAtMost(Some(start.generation), state.generation) {
        return Done(Published(false));
      }
      var body := ResponseFrom(
        sourceId, state.lastPollStartedAtMs, Some(prepared), Some(InitialLifecycle(start)), None);
      flight := MembershipEncoded(start, prepared, state, body);
    }

    /** Publishes a new generation unless a newer one is there or the status moved. */
    method CommitMembership(flight: Flight) returns (next: Flight)
      requires Valid() && flight.MembershipEncoded? && FlightOk(sourceId, flight, state)
      modifies this`state, this`issued
      ensures Valid() && FlightOk(sourceId, next, state)
      ensures old(state).generation.Some? && flight.start.generation <= old(state).generation.value ==>
                next == Done(Published(false)) && Untouched()
      ensures next.Done? || (StatusMoved(flight.seen, old(state)) && Untouched()
                             && next == MembershipPrepared(flight.start, flight.prepared))
      ensures next.Done? ==> next.result.Published?
      ensures next == Done(Published(true)) ==>
                && Committed() && old(state).generation != Some(flight.start.generation)
                && state.generation == Some(flight.start.generation) && state.revision == 0
                && state.membership == Some(flight.prepared.snapshot) && state.latest == Some(flight.prepared)
                && state.classifications == flight.start.classifications && state.lastError == None
                && (state.lifecycle == Some(Classifying) <==> flight.start.hasEligibleWork)
                && (state.lifecycle == Some(Complete) <==> !flight.start.hasEligibleWork)
      ensures next == Done(Published(true)) || Untouched()
    {
      hide FlightOk;
      MembershipFacts(flight);
      var start, prepared, seen := flight.start, flight.prepared, flight.seen;
      if GenerationAtMost(Some(start.generation), state.generation) {
        return FinishedFlight(Published(false));
      }
      if state.statusRevision != seen.statusRevision || state.generation != seen.generation {
        return RetryMembership(start, prepared);
      }
      ghost var before := state;
      ReplaceCachedResponse(
        state.(
          membership := Some(prepared.snapshot),
          latest := Some(prepared),
          classifications := prepared.classifications,
          lastError := None,
          generation := Some(start.generation),
          revision := start.revision,
          lifecycle := Some(InitialLifecycle(start)),
          statusRevision := state.statusRevision + 1),
        flight.body);
      FlightsLater(sourceId, flights, before, state);
      next := FinishedFlight(Published(true));
    }

    lemma MembershipFacts(flight: Flight)
      requires flight.MembershipEncoded? && FlightOk(sourceId, flight, state)
      ensures PreparedFor(sourceId, flight.start, flight.prepared) && Later(flight.seen, state)
      ensures flight.body == ResponseFrom(
                sourceId, flight.seen.lastPollStartedAtMs, Some(flight.prepared), Some(InitialLifecycle(flight.start)), None)
    {
    }

    function FinishedFlight(result: Result): (flight: Flight)
      reads this
      ensures FlightOk(sourceId, flight, state)
    {
      Done(result)
    }

    function RetryMembership(start: P.GenerationStart, prepared: Observation): (flight: Flight)
      requires PreparedFor(sourceId, start, prepared)
      reads this
      ensures FlightOk(sourceId, flight, state)
    {
      MembershipPrepared(start, prepared)
    }

    // --- classification updates ----------------------------------------------------------

    /** Reads the published records once and adds a revision to them. */
    method BeginUpdate(generation: nat, delta: P.Delta, lifecycle: Lifecycle) returns (flight: Flight)
      requires Valid()
      ensures FlightOk(sourceId, flight, state) && (flight.Done? || flight.DeltaEncoded?)
      ensures flight != Done(Published(true))
      ensures flight.DeltaEncoded? ==> flight.delta == delta && flight.lifecycle == lifecycle
      ensures flight == Done(Published(false)) <==>
                generation == delta.generation && (state.generation != Some(generation) || state.revision >= delta.revision)
      ensures flight == Done(Rejected(RevisionSequence)) <==>
                && generation == delta.generation && state.generation == Some(generation)
                && state.revision + 1 < delta.revision
      ensures flight.DeltaEncoded? || flight == Done(Rejected(ExceedMembership))
              || flight == Done(Rejected(InvalidObservation)) ==>
                && state.generation == Some(generation) && delta.revision == state.revision + 1
                && (flight.DeltaEncoded? <==>
                      var view := InsertView(state.classifications, delta.changed);
                      |view| <= |state.membership.value.entries| && Fits(view, state.membership.value.entries))
      ensures flight == Done(Rejected(ReportGenerationMismatch)) <==> delta.generation != generation
      ensures flight.Done? && flight.result.Rejected? ==>
                flight.result.error in {ReportGenerationMismatch, RevisionSequence, ExceedMembership, InvalidObservation}
    {
      if delta.generation != generation {
        return Done(Rejected(ReportGenerationMismatch));
      }
      if state.generation != Some(generation) || state.revision >= delta.revision {
        return Done(Published(false));
      }
      if delta.revision != state.revision + 1 {
        return Done(Rejected(RevisionSequence));
      }
      var snapshot := state.membership.value;
      var classifications := Accumulate(state.classifications, delta.changed);
      if |classifications| > |snapshot.entries| {
        return Done(Rejected(ExceedMembership));
      }
      var prepared := Materialize(snapshot, delta.revision, classifications);
      if prepared.None? {
        return Done(Rejected(InvalidObservation));
      }
      flight := EncodeUpdate(delta, lifecycle, prepared.value, state);
    }

    method Accumulate(published: View, changed: seq<Classified>) returns (view: View)
      ensures view == InsertView(published, changed)
    {
      view := published;
      assert changed[..0] == [];
      for i := 0 to |changed|
        invariant view == InsertView(published, changed[..i])
      {
        assert changed[..i + 1][..i] == changed[..i];
        view := view[changed[i].expected.txid := changed[i]];
      }
      assert changed[..|changed|] == changed;
    }

    function EncodeUpdate(delta: P.Delta, lifecycle: Lifecycle, prepared: Observation, base: CurrentState): Flight
      reads this
    {
      DeltaEncoded(
        delta, lifecycle, prepared, base, state,
        ResponseFrom(sourceId, state.lastPollStartedAtMs, Some(prepared), Some(lifecycle), state.lastError))
    }

    /** Publishes a revision on top of exactly the records it was computed from. If
        only the status moved, the response is encoded anew. */
    method CommitUpdate(flight: Flight) returns (next: Flight)
      requires Valid() && flight.DeltaEncoded? && FlightOk(sourceId, flight, state)
      modifies this`state, this`issued
      ensures Valid() && FlightOk(sourceId, next, state)
      ensures next == Done(Published(false)) <==>
                old(state).generation != Some(flight.delta.generation) || old(state).revision != flight.base.revision
      ensures next.Done? || (StatusMoved(flight.status, old(state)) && Untouched() && next.DeltaEncoded?
                             && next.delta == flight.delta && next.lifecycle == flight.lifecycle)
      ensures next.Done? ==> next.result.Published?
      ensures next == Done(Published(true)) ==>
                && Committed() && state.generation == old(state).generation == Some(flight.delta.generation)
                && state.revision == old(state).revision + 1 == flight.delta.revision
                && state.classifications == InsertView(old(state).classifications, flight.delta.changed)
                && state.membership == old(state).membership && state.lastError == old(state).lastError
                && state.lifecycle == Some(flight.lifecycle)
      ensures next == Done(Published(true)) || Untouched()
    {
      hide FlightOk;
      UpdateFacts(flight);
      var delta, base, status := flight.delta, flight.base, flight.status;
      if state.generation != Some(delta.generation) || state.revision != base.revision {
        return FinishedFlight(Published(false));
      }
      if state.statusRevision != status.statusRevision {
        RefreshFacts(flight);
        return EncodeUpdate(delta, flight.lifecycle, flight.prepared, base);
      }
      ghost var before := state;
      var lifecycleChanged := state.lifecycle != Some(flight.lifecycle);
      ReplaceCachedResponse(
        state.(
          latest := Some(flight.prepared),
          classifications := flight.prepared.classifications,
          revision := delta.revision,
          lifecycle := Some(flight.lifecycle),
          statusRevision := state.statusRevision + (if lifecycleChanged then 1 else 0)),
        flight.body);
      FlightsLater(sourceId, flights, before, state);
      next := FinishedFlight(Published(true));
    }

    lemma UpdateFacts(flight: Flight)
      requires flight.DeltaEncoded? && FlightOk(sourceId, flight, state)
      ensures Later(flight.base, state) && Later(flight.status, state) && StateOk(sourceId, flight.base)
      ensures flight.base.generation == Some(flight.delta.generation) && flight.delta.revision == flight.base.revision + 1
      ensures flight.base.generation == flight.status.generation && flight.base.revision == flight.status.revision
      ensures flight.prepared == Observation(
                flight.base.membership.value, flight.delta.revision,
                InsertView(flight.base.classifications, flight.delta.changed))
      ensures Fits(flight.prepared.classifications, flight.prepared.snapshot.entries)
      ensures flight.body == ResponseFrom(
                sourceId, flight.status.lastPollStartedAtMs, Some(flight.prepared), Some(flight.lifecycle),
                flight.status.lastError)
    {
    }

    lemma RefreshFacts(flight: Flight)
      requires flight.DeltaEncoded? && FlightOk(sourceId, flight, state)
      requires state.generation == Some(flight.delta.generation) && state.revision == flight.base.revision
      ensures FlightOk(sourceId, EncodeUpdate(flight.delta, flight.lifecycle, flight.prepared, flight.base), state)
    {
    }

    // --- lifecycle and failure -------------------------------------------------------------

    method EncodeLifecycle(generation: nat, lifecycle: Lifecycle) returns (flight: Flight)
      requires Valid()
      ensures FlightOk(sourceId, flight, state)
      ensures flight == Done(Published(false)) <==> state.generation != Some(generation)
      ensures flight == Done(Published(true)) <==>
                state.generation == Some(generation) && state.lifecycle == Some(lifecycle)
      ensures flight.Done? ==> flight.result.Published?
      ensures !flight.Done? ==>
                && flight.LifecycleEncoded? && flight.generation == generation && flight.lifecycle == lifecycle
                && flight.seen == state
    {
      if state.generation != Some(generation) {
        return Done(Published(false));
      }
      if state.lifecycle == Some(lifecycle) {
        return Done(Published(true));
      }
      var body := ResponseFrom(sourceId, state.lastPollStartedAtMs, state.latest, Some(lifecycle), state.lastError);
      flight := LifecycleEncoded(generation, lifecycle, state, body);
    }

    method CommitLifecycle(flight: Flight) returns (next: Flight)
      requires Valid() && flight.LifecycleEncoded? && FlightOk(sourceId, flight, state)
      modifies this`state, this`issued
      ensures Valid() && FlightOk(sourceId, next, state)
      ensures next == Done(Published(false)) <==> old(state).generation != Some(flight.generation)
      ensures next.Done? || (StatusMoved(flight.seen, old(state)) && Untouched()
                             && next == Requested(Update(flight.generation, None, flight.lifecycle)))
      ensures next.Done? ==> next.result.Published?
      ensures next == Done(Published(true)) ==>
                && Committed() && state.generation == old(state).generation && state.lifecycle == Some(flight.lifecycle)
                && state.membership == old(state).membership
                && state.latest == old(state).latest && state.revision == old(state).revision
                && state.classifications == old(state).classifications && state.lastError == old(state).lastError
      ensures next == Done(Published(true)) || Untouched()
    {
      hide FlightOk;
      LifecycleFacts(flight);
      if state.generation != Some(flight.generation) {
        return FinishedFlight(Published(false));
      }
      if state.statusRevision != flight.seen.statusRevision || state.revision != flight.seen.revision {
        return Again(Update(flight.generation, None, flight.lifecycle));
      }
      ghost var before := state;
      ReplaceCachedResponse(
        state.(lifecycle := Some(flight.lifecycle), statusRevision := state.statusRevision + 1), flight.body);
      FlightsLater(sourceId, flights, before, state);
      next := FinishedFlight(Published(true));
    }

    lemma LifecycleFacts(flight: Flight)
      requires flight.LifecycleEncoded? && FlightOk(sourceId, flight, state)
      ensures Later(flight.seen, state) && flight.seen.generation == Some(flight.generation)
      ensures flight.body == ResponseFrom(
                sourceId, flight.seen.lastPollStartedAtMs, flight.seen.latest, Some(flight.lifecycle), flight.seen.lastError)
    {
    }

    function Again(request: Request): (flight: Flight)
      reads this
      ensures FlightOk(sourceId, flight, state)
    {
      Requested(request)
    }

    method EncodeFailure(error: string) returns (flight: Flight)
      requires Valid()
      ensures FlightOk(sourceId, flight, state)
      ensures flight.FailureEncoded? && flight.error == error && flight.seen == state
    {
      var body := ResponseFrom(sourceId, state.lastPollStartedAtMs, state.latest, state.lifecycle, Some(error));
      flight := FailureEncoded(error, state, body);
    }

    method CommitFailure(flight: Flight) returns (next: Flight)
      requires Valid() && flight.FailureEncoded? && FlightOk(sourceId, flight, state)
      modifies this`state, this`issued
      ensures Valid() && FlightOk(sourceId, next, state)
      ensures next == Done(Published(true))
              || (StatusMoved(flight.seen, old(state)) && Untouched() && next == Requested(Failure(flight.error)))
      ensures next.Done? ==>
                && Committed() && state.lastError == Some(flight.error) && state.generation == old(state).generation
                && state.membership == old(state).membership
                && state.latest == old(state).latest && state.revision == old(state).revision
                && state.classifications == old(state).classifications && state.lifecycle == old(state).lifecycle
    {
      hide FlightOk;
      FailureFacts(flight);
      var seen := flight.seen;
      if state.statusRevision != seen.statusRevision || state.generation != seen.generation
         || state.revision != seen.revision {
        return Again(Failure(flight.error));
      }
      ghost var before := state;
      ReplaceCachedResponse(
        state.(lastError := Some(flight.error), statusRevision := state.statusRevision + 1), flight.body);
      FlightsLater(sourceId, flights, before, state);
      next := FinishedFlight(Published(true));
    }

    lemma FailureFacts(flight: Flight)
      requires flight.FailureEncoded? && FlightOk(sourceId, flight, state)
      ensures Later(flight.seen, state)
      ensures flight.body == ResponseFrom(
                sourceId, flight.seen.lastPollStartedAtMs, flight.seen.latest, flight.seen.lifecycle, Some(flight.error))
    {
    }

    // --- schedules ---------------------------------------------------------------------

    /** One atomic section of a flight: a read or a commit. A flight whose reads are
        still current at its commit finishes there, so a retry means that some other
        publication or poll start went first. */
    method AdvanceFlight(flight: Flight) returns (next: Flight)
      requires Valid() && FlightOk(sourceId, flight, state)
      modifies this`state, this`issued
      ensures Valid() && FlightOk(sourceId, next, state)
      ensures Untouched() || (Committed() && next == Done(Published(true)))
      ensures flight.MembershipEncoded? || flight.LifecycleEncoded? || flight.FailureEncoded? ==>
                next.Done? || StatusMoved(flight.seen, old(state))
      ensures flight.DeltaEncoded? ==> next.Done? || StatusMoved(flight.status, old(state))
      ensures flight.Done? ==> next == flight && Untouched()
    {
      hide FlightOk, StateOk, IssuedOk, FlightsOk, Later;
      next := flight;
      match flight {
        case Requested(Membership(start, membershipSourceId, observedAtMs)) =>
          next := BeginMembership(start, membershipSourceId, observedAtMs);
        case Requested(Update(generation, Some(delta), lifecycle)) =>
          next := BeginUpdate(generation, delta, lifecycle);
        case Requested(Update(generation, None, lifecycle)) =>
          next := EncodeLifecycle(generation, lifecycle);
        case Requested(Failure(error)) =>
          next := EncodeFailure(error);
        case MembershipPrepared(start, prepared) =>
          ReadyFacts(flight);
          next := EncodeMembership(start, prepared);
        case MembershipEncoded(_, _, _, _) =>
          next := CommitMembership(flight);
        case DeltaEncoded(_, _, _, _, _, _) =>
          next := CommitUpdate(flight);
        case LifecycleEncoded(_, _, _, _) =>
          next := CommitLifecycle(flight);
        case FailureEncoded(_, _, _) =>
          next := CommitFailure(flight);
        case Done(_) =>
      }
    }

    lemma ReadyFacts(flight: Flight)
      requires flight.MembershipPrepared? && FlightOk(sourceId, flight, state)
      ensures PreparedFor(sourceId, flight.start, flight.prepared)
    {
    }

    method Step(event: Event)
      requires Valid()
      modifies this
      ensures Valid() && Kept()
    {
      hide FlightOk, StateOk, IssuedOk;
      match event {
        case PollStarted(startedAtMs) =>
          RecordPollStarted(startedAtMs);
        case Submit(id, request) =>
          if id !in flights {
            flights := flights[id := Again(request)];
          }
        case Advance(id) =>
          if id in flights {
            var next := AdvanceFlight(flights[id]);
            flights := flights[id := next];
          }
        case FailPreparation(id) =>
          if id in flights {
            flights := flights[id := FinishedFlight(Rejected(PreparationFailed))];
          }
      }
    }

    /** Any interleaving of publications, poll starts and failures keeps the cached
        body current, all tags distinct and all revisions moving forward. */
    method Run(schedule: seq<Event>)
      requires Valid()
      modifies this
      ensures Valid() && Kept()
    {
      hide StateOk, IssuedOk, FlightsOk, Later;
      LaterSelf(state);
      for i := 0 to |schedule|
        invariant Valid() && Kept()
      {
        ghost var before := state;
        Step(schedule[i]);
        LaterTransitive(old(state), before, state);
      }
    }

    lemma LaterSelf(s: CurrentState)
      ensures Later(s, s)
    {
    }
  }
}
