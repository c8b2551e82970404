/** The classification pipeline of one source: it installs membership snapshots as
    generations and advances the current generation slice by slice. Any lock or
    await point of a slice may find that its generation was replaced. */
module Pipelines {
  import opened Base
  import opened FactTable
  import opened SliceSteps
  import opened ConfirmedCache
  import opened Pending
  import opened Accounts
  import opened PickLogs
  import opened Generations

  datatype Limits = Limits(maxTransactionsPerSlice: nat, maxAuxiliaryCacheBytes: nat)

  /** Everything outside the pipeline that a slice meets: the answers to its three
      kinds of RPC wave, and the snapshots installed at each of its lock and
      await points. */
  datatype Environment = Environment(
    candidates: seq<ExpectedVariant> -> Fetch<ExpectedVariant, Transaction>,
    parents: seq<ExpectedVariant> -> Fetch<ExpectedVariant, Transaction>,
    prevouts: seq<OutPoint> -> Fetch<OutPoint, Script>,
    installs: nat -> seq<Membership>)

  // The points of one slice where snapshots may be installed. The recovery passes follow, one point each.
  const AT_ENTRY: nat := 0
  const BEFORE_SLICE: nat := 1
  const RAW_FETCHED: nat := 2
  const BEFORE_CACHES: nat := 3
  const PARENTS_FETCHED: nat := 4
  const PREVOUTS_FETCHED: nat := 5
  const BEFORE_MERGE: nat := 6
  const FIRST_RECOVERY: nat := 7

  // No snapshot is installed while the slice runs.
  ghost predicate Quiet(env: Environment) {
    forall tick :: env.installs(tick) == []
  }

  // No fetch meets a systemic failure.
  ghost predicate Calm(env: Environment) {
    && (forall wave :: !env.candidates(wave).systemic)
    && (forall wave :: !env.parents(wave).systemic)
    && (forall wave :: !env.prevouts(wave).systemic)
  }

  /** Positive answers agree with the truth, answers match requests one to one,
      and a fetch without a systemic failure answers every request. (A fetch that
      stops early because its generation was replaced is discarded unread.) */
  ghost predicate RawFetchOk(
    wave: seq<ExpectedVariant>, fetch: Fetch<ExpectedVariant, Transaction>, truth: OutPoint -> Script)
  {
    RawAnswersOk(wave, fetch.values, truth) && (!fetch.systemic ==> RawComplete(wave, fetch.values))
  }

  ghost predicate PrevoutFetchOk(wave: seq<OutPoint>, fetch: Fetch<OutPoint, Script>, truth: OutPoint -> Script) {
    && PrevoutAnswersOk(wave, fetch.values, truth)
    && (!fetch.systemic ==> AllAnswered(fetch.values, Elements(wave)))
  }

  ghost predicate Honest(env: Environment, truth: OutPoint -> Script) {
    && (forall wave :: RawFetchOk(wave, env.candidates(wave), truth))
    && (forall wave :: RawFetchOk(wave, env.parents(wave), truth))
    && (forall wave :: PrevoutFetchOk(wave, env.prevouts(wave), truth))
    && (forall tick, membership :: membership in env.installs(tick) ==> DistinctEntries(membership))
  }

  lemma HonestRaw(env: Environment, truth: OutPoint -> Script, wave: seq<ExpectedVariant>)
    requires Honest(env, truth)
    ensures RawAnswersOk(wave, env.candidates(wave).values, truth)
    ensures RawAnswersOk(wave, env.parents(wave).values, truth)
    ensures Calm(env) ==> !env.candidates(wave).systemic && !env.parents(wave).systemic
  {
    assert RawFetchOk(wave, env.candidates(wave), truth);
    assert RawFetchOk(wave, env.parents(wave), truth);
  }

  lemma HonestPrevouts(env: Environment, truth: OutPoint -> Script, wave: seq<OutPoint>)
    requires Honest(env, truth)
    ensures PrevoutAnswersOk(wave, env.prevouts(wave).values, truth)
    ensures !env.prevouts(wave).systemic ==> AllAnswered(env.prevouts(wave).values, Elements(wave))
    ensures Calm(env) ==> !env.prevouts(wave).systemic
  {
    assert PrevoutFetchOk(wave, env.prevouts(wave), truth);
  }

  datatype GenerationStart = GenerationStart(
    generation: nat, revision: nat, hasEligibleWork: bool, membership: Membership, classifications: View)

  // The records of `table` that survive in a membership with these variants.
  function Carried(table: Table, variants: Variants): Table {
    map k | k in table && Current(table[k], variants) && table[k].expected.wtxid == k :: table[k]
  }

  lemma CarryNone(table: Table)
    ensures Carried(table, VariantsOf([])) == map[]
    ensures Project(map[], VariantsOf([])) == map[]
  {
  }

  lemma CarryNext(table: Table, membership: Membership, i: nat)
    requires DistinctEntries(membership) && i < |membership|
    requires forall k :: k in table ==> table[k].expected.wtxid == k
    ensures var e, carried := membership[i], Carried(table, VariantsOf(membership[..i]));
            Carried(table, VariantsOf(membership[..i + 1]))
            == if e.wtxid in table && table[e.wtxid].expected.txid == e.txid
               then carried[e.wtxid := table[e.wtxid]] else carried
  {
    var e, front, more := membership[i], membership[..i], membership[..i + 1];
    assert more == front + [e] && more[..|more| - 1] == front;
    hide Carried;
    VariantsListed(front);
    assert VariantsOf(more) == VariantsOf(front)[e.txid := Variant(e.wtxid, e.vsize)];
    forall t | t in VariantsOf(front) ensures t != e.txid {
      var m :| m in front && m.txid == t;
    }
    CarryOne(table, VariantsOf(front), e);
  }

  lemma CarryOne(table: Table, variants: Variants, e: Entry)
    requires e.txid !in variants
    requires forall k :: k in table ==> table[k].expected.wtxid == k
    ensures Carried(table, variants[e.txid := Variant(e.wtxid, e.vsize)])
            == if e.wtxid in table && table[e.wtxid].expected.txid == e.txid
               then Carried(table, variants)[e.wtxid := table[e.wtxid]] else Carried(table, variants)
  {
  }

  lemma CarriedOk(table: Table, membership: Membership, variants: Variants, absences: set<OutPoint>, truth: OutPoint -> Script)
    requires forall k :: k in table ==> table[k].expected.wtxid == k && RecordSound(table[k], absences, truth)
    ensures TableOk(Carried(table, variants), variants, absences, truth)
  {
  }

  // The cached outputs that survive in a membership with these variants.
  function Surviving(outputs: map<Txid, CachedOutputs>, variants: Variants): map<Txid, CachedOutputs> {
    map t | t in outputs && t in variants && variants[t].wtxid == outputs[t].wtxid :: outputs[t]
  }

  lemma SurvivingFits(outputs: map<Txid, CachedOutputs>, variants: Variants)
    ensures Sum(Surviving(outputs, variants), OutputBytes) <= Sum(outputs, OutputBytes)
  {
    SumMonotone(Surviving(outputs, variants), outputs, OutputBytes);
  }

  // The list has exactly the surviving outputs.
  ghost predicate ListsAll(carried: seq<(Txid, CachedOutputs)>, all: map<Txid, CachedOutputs>) {
    && (forall c :: c in carried ==> c.0 in all && all[c.0] == c.1)
    && (forall t :: t in all ==> (t, all[t]) in carried)
  }

  // The outputs carried over, listed for insertion.
  ghost predicate CarriableOutputs(
    carried: seq<(Txid, CachedOutputs)>, variants: Variants, truth: OutPoint -> Script)
  {
    forall c :: c in carried ==>
      c.0 in variants && c.1.wtxid == variants[c.0].wtxid && OutputsTrue(c.0, c.1, truth)
  }

  // --- what generations share ---------------------------------------------------

  /** What one generation leaves to the next: the membership it had, its table and
      cached outputs, and the confirmed scripts. */
  datatype Shared = Shared(
    nextGeneration: nat, membership: Membership, table: Table, outputs: map<Txid, CachedOutputs>, cache: Recency)

  // A snapshot is installed: what survives in its membership is carried over, and the
  // outputs' bytes are reserved in the cache. After the last identifier nothing happens.
  ghost function AfterInstall(s: Shared, membership: Membership, maximum: nat): Shared {
    if s.nextGeneration == U64_MAX then s
    else
      var variants := VariantsOf(membership);
      var outputs := Surviving(s.outputs, variants);
      Shared(
        s.nextGeneration + 1, membership, Carried(s.table, variants), outputs,
        s.cache.EvictTo(SaturatingSub(maximum, Sum(outputs, OutputBytes))))
  }

  // The snapshots in order.
  ghost function AfterInstalls(s: Shared, memberships: seq<Membership>, maximum: nat): Shared {
    if memberships == [] then s
    else AfterInstall(AfterInstalls(s, memberships[..|memberships| - 1], maximum), memberships[|memberships| - 1], maximum)
  }

  lemma AfterOneMore(s: Shared, memberships: seq<Membership>, n: nat, maximum: nat)
    requires n < |memberships|
    ensures AfterInstalls(s, memberships[..n + 1], maximum)
            == AfterInstall(AfterInstalls(s, memberships[..n], maximum), memberships[n], maximum)
  {
    assert memberships[..n + 1][..n] == memberships[..n];
  }

  // Lookups may have reordered the cache, and that is all.
  ghost predicate Touched(before: Shared, after: Shared) {
    && after == before.(cache := after.cache)
    && after.cache.Valid() && after.cache.scripts == before.cache.scripts
  }

  // Apart from lookups, what the installs at this point left.
  ghost predicate SupersededAt(
    before: Shared, after: Shared, env: Environment, tick: nat, looked: Shared, maximum: nat)
  {
    Touched(before, looked) && after == AfterInstalls(looked, env.installs(tick), maximum)
  }

  /** A slice that is not merged leaves what generations share as it was, or, when
      its generation was replaced, as the installs left it. */
  ghost predicate KeptBy(current: bool, before: Shared, after: Shared, env: Environment, maximum: nat) {
    if current then Touched(before, after)
    else exists tick: nat, looked: Shared :: SupersededAt(before, after, env, tick, looked, maximum)
  }

  lemma TouchedKeeps(before: Shared, after: Shared)
    requires Touched(before, after)
    ensures after.outputs == before.outputs && after.cache.scripts == before.cache.scripts
  {
  }

  lemma KeptLater(current: bool, before: Shared, middle: Shared, after: Shared, env: Environment, maximum: nat)
    requires Touched(before, middle) && KeptBy(current, middle, after, env, maximum)
    ensures KeptBy(current, before, after, env, maximum)
  {
    hide AfterInstalls;
    if !current {
      var tick: nat, looked: Shared :| SupersededAt(middle, after, env, tick, looked, maximum);
      assert SupersededAt(before, after, env, tick, looked, maximum);
    }
  }

  datatype Disposition = Continue | Complete | Paused | Stale

  // One revision: the records that a slice added, in order.
  datatype Delta = Delta(generation: nat, revision: nat, changed: seq<Classified>)

  datatype Report = Report(
    generation: nat, attempted: nat, newlyClassified: nat, classified: nat, remaining: nat,
    disposition: Disposition, publication: Option<Delta>)

  datatype Outcome = Finished(report: Report) | RevisionOverflow

  function WaitingReport(): Report {
    Report(0, 0, 0, 0, 0, Complete, None)
  }

  function StaleReport(generation: nat, attempted: nat): Report {
    Report(generation, attempted, 0, 0, 0, Stale, None)
  }

  // The records a report publishes.
  function Changed(report: Report): seq<Classified> {
    if report.publication.Some? then report.publication.value.changed else []
  }

  /** What a slice has gathered and not yet merged. */
  datatype Advance = Advance(
    classifications: seq<Classified>, outputs: map<Txid, CachedOutputs>, confirmedScripts: map<OutPoint, Script>)

  ghost predicate RecordsOk(
    records: seq<Classified>, variants: Variants, absences: set<OutPoint>, truth: OutPoint -> Script)
  {
    forall c :: c in records ==> Current(c, variants) && RecordSound(c, absences, truth)
  }

  ghost predicate AdvanceOk(advance: Advance, variants: Variants, absences: set<OutPoint>, truth: OutPoint -> Script) {
    && RecordsOk(advance.classifications, variants, absences, truth)
    && AllOutputsTrue(advance.outputs, truth) && OutputsFor(advance.outputs, variants)
    && AllScriptsTrue(advance.confirmedScripts, truth)
  }

  lemma RecordsOkMore(
    records: seq<Classified>, variants: Variants, absences: set<OutPoint>, more: set<OutPoint>, truth: OutPoint -> Script)
    requires RecordsOk(records, variants, absences, truth) && absences <= more
    ensures RecordsOk(records, variants, more, truth)
  {
    forall c | c in records ensures RecordSound(c, more, truth) {
      RecordSoundMore(c, absences, more, truth);
    }
  }

  lemma RecordsOkConcat(
    a: seq<Classified>, b: seq<Classified>, variants: Variants, absences: set<OutPoint>, truth: OutPoint -> Script)
    requires RecordsOk(a, variants, absences, truth) && RecordsOk(b, variants, absences, truth)
    ensures RecordsOk(a + b, variants, absences, truth)
  {
  }

  // The records a slice produces belong to its generation and are sound.
  lemma ClassifiedOk(
    classified: seq<Classified>, keys: set<Wtxid>, active: Candidates, queued: seq<Prepared>, facts: Facts,
    nulls: set<OutPoint>, variants: Variants, absences: set<OutPoint>, truth: OutPoint -> Script)
    requires IsClassificationOf(classified, keys, active, facts) && Members(active, queued, variants)
    requires forall c :: c in classified ==> ClassifiedSound(c, nulls, variants, truth)
    requires AbsencesOf(nulls, variants) <= absences
    ensures RecordsOk(classified, variants, absences, truth)
  {
    forall c | c in classified ensures Current(c, variants) && RecordSound(c, absences, truth) {
      ClassifiedRecordSound(c, nulls, variants, truth, absences);
      assert c == Verdict(active[c.expected.wtxid], facts);
    }
  }

  lemma MergedOutputs(
    a: map<Txid, CachedOutputs>, b: map<Txid, CachedOutputs>, variants: Variants, truth: OutPoint -> Script)
    requires AllOutputsTrue(a, truth) && AllOutputsTrue(b, truth) && OutputsFor(a, variants) && OutputsFor(b, variants)
    ensures AllOutputsTrue(a + b, truth) && OutputsFor(a + b, variants)
  {
  }

  // The variants among the first `n` answers whose own fetch failed.
  function FailedRaw(values: RawValues, n: nat): set<Wtxid>
    requires n <= |values|
  {
    if n == 0 then {}
    else FailedRaw(values, n - 1) + (if values[n - 1].1.RetryableFailure? then {values[n - 1].0.wtxid} else {})
  }

  // What a parent wave's answers do to the facts: found parents are applied, and without
  // a systemic failure the others turn to gettxout.
  ghost predicate ParentsAnswered(
    before: Facts, applied: Facts, after: Facts, wave: seq<ExpectedVariant>, fetched: Fetch<ExpectedVariant, Transaction>,
    outputs: map<Txid, CachedOutputs>, bytes: nat, limit: nat)
  {
    && ParentsApplied(before, applied, fetched.values, |fetched.values|, bytes, limit)
    && after == (if fetched.systemic then applied
                 else FallBack(applied, Txids(wave) - Resolved(fetched.values, |fetched.values|)))
    && OutputsOfFound(outputs, fetched.values, |fetched.values|)
  }

  // No fact's last attempt was lost in this parent wave: without a systemic failure what was
  // not found turns to gettxout.
  ghost predicate ParentsSpare(
    before: Facts, wave: seq<ExpectedVariant>, fetched: Fetch<ExpectedVariant, Transaction>)
  {
    || !fetched.systemic
    || forall o :: LastParentAttempt(before, Txids(wave), o) ==> o.txid in Resolved(fetched.values, |fetched.values|)
  }

  // No fact's last attempt was lost in this confirmed wave.
  ghost predicate PrevoutsSpare(before: Facts, wave: seq<OutPoint>, answers: Answers) {
    forall o :: LastConfirmedAttempt(before, wave, o) ==> AnsweredFor(answers, o)
  }

  /** What a confirmed wave's answers do to the facts. Found scripts are handed on;
      and while one estimated response fits in the budget that was left, every one
      of them is admitted. */
  ghost predicate PrevoutsAnswered(
    before: Facts, after: Facts, answers: Answers, scripts: map<OutPoint, Script>, bytes0: nat, bytes: nat, limit: nat)
  {
    && Answerable(before, answers) && ConfirmedApplied(before, after, answers, |answers|, bytes, limit)
    && (forall o :: o in scripts <==> exists i :: 0 <= i < |answers| && answers[i].0 == o && answers[i].1.Found?)
    && (bytes0 + ESTIMATED_GETTXOUT_RESPONSE_BYTES <= limit ==> FoundReady(after, answers, |answers|))
  }

  // The waves of one slice: what was asked, and what was found. An empty wave was not asked.
  datatype Asked = Asked(
    parents: seq<ExpectedVariant>, prevouts: seq<OutPoint>, outputs: map<Txid, CachedOutputs>,
    scripts: map<OutPoint, Script>)

  // The outputs of exactly the parents that were found.
  ghost predicate ParentsGained(wave: seq<ExpectedVariant>, outputs: map<Txid, CachedOutputs>, env: Environment) {
    if wave == [] then outputs == map[]
    else
      var values := env.parents(wave).values;
      OutputsOfFound(outputs, values, |values|)
  }

  // The scripts of exactly the outpoints that were found.
  ghost predicate PrevoutsGained(wave: seq<OutPoint>, scripts: map<OutPoint, Script>, env: Environment) {
    if wave == [] then scripts == map[]
    else
      var values := env.prevouts(wave).values;
      forall o :: o in scripts <==> exists i :: 0 <= i < |values| && values[i].0 == o && values[i].1.Found?
  }

  /** The outputs of a found parent are gathered whole, under the variant that was
      asked for. */
  lemma FoundParentGained(
    asked: Asked, paused0: bool, paused: bool, advance0: Advance, advance: Advance, env: Environment, i: nat)
    requires WavesGained(asked, paused0, paused, advance0, advance, env) && asked.parents != []
    requires var values := env.parents(asked.parents).values;
             && i < |values| && values[i].1.Found?
             && forall j :: 0 <= j < |values| && j != i ==> values[j].0.txid != values[i].0.txid
    ensures var value := env.parents(asked.parents).values[i];
            && value.0.txid in advance.outputs && advance.outputs[value.0.txid].wtxid == value.0.wtxid
            && advance.outputs[value.0.txid].scripts == value.1.value.outputs
  {
    var values := env.parents(asked.parents).values;
    assert values[i].0.txid in Resolved(values, |values|);
  }

  // No fact still awaits a parent whose output was found.
  ghost predicate ParentsReached(facts: Facts, outputs: map<Txid, CachedOutputs>) {
    forall o :: o in facts && o.txid in outputs && o.vout < |outputs[o.txid].scripts| ==> !facts[o].AwaitingParent()
  }

  // A fact whose script was found is ready, unless there was no room for it.
  ghost predicate PrevoutsReached(facts: Facts, scripts: map<OutPoint, Script>) {
    forall o :: o in facts && o in scripts ==> facts[o].Ready? || facts[o].CapacityBlocked?
  }

  lemma NothingReached(facts: Facts)
    ensures ParentsReached(facts, map[]) && PrevoutsReached(facts, map[])
  {
  }

  lemma ParentsReach(
    before: Facts, applied: Facts, after: Facts, wave: seq<ExpectedVariant>, fetched: Fetch<ExpectedVariant, Transaction>,
    outputs: map<Txid, CachedOutputs>, bytes: nat, limit: nat)
    requires ParentsAnswered(before, applied, after, wave, fetched, outputs, bytes, limit)
    requires DistinctParents(fetched.values)
    ensures ParentsReached(after, outputs)
  {
    var values := fetched.values;
    forall o | o in after && o.txid in outputs && o.vout < |outputs[o.txid].scripts| ensures !after[o].AwaitingParent() {
      assert ParentsAppliedAt(o, before[o], applied[o], values, |values|, bytes, limit);
      if before[o].AwaitingParent() {
        var i :| 0 <= i < |values| && FoundFor(values[i], o.txid)
                 && ParentAppliedAt(o, before[o], applied[o], o.txid, values[i].1.value.outputs, {o}, bytes, limit);
        var k :| 0 <= k < |values| && FoundFor(values[k], o.txid)
                 && outputs[o.txid] == OutputsOf(values[k].0, values[k].1.value);
        assert i == k;
      }
    }
  }

  lemma PrevoutsReach(
    before: Facts, after: Facts, wave: seq<OutPoint>, answers: Answers, scripts: map<OutPoint, Script>, bytes0: nat,
    bytes: nat, limit: nat, outputs: map<Txid, CachedOutputs>)
    requires PrevoutsAnswered(AttemptAll(before, Elements(wave)), after, answers, scripts, bytes0, bytes, limit)
    requires ParentsReached(before, outputs)
    ensures PrevoutsReached(after, scripts) && ParentsReached(after, outputs)
  {
    var attempted := AttemptAll(before, Elements(wave));
    forall o | o in after
      ensures o in scripts ==> after[o].Ready? || after[o].CapacityBlocked?
      ensures after[o].AwaitingParent() ==> before[o].AwaitingParent()
    {
      if i :| 0 <= i < |answers| && answers[i].0 == o {
        assert ConfirmedAppliedAt(attempted[o], after[o], answers[i].1, bytes, limit);
      } else {
        assert after[o] == attempted[o];
      }
    }
  }

  /** Everything found enters what is gathered, and the slice pauses exactly when a
      wave met a systemic failure. */
  ghost predicate WavesGained(
    asked: Asked, paused0: bool, paused: bool, advance0: Advance, advance: Advance, env: Environment)
  {
    && ParentsGained(asked.parents, asked.outputs, env) && PrevoutsGained(asked.prevouts, asked.scripts, env)
    && advance.outputs == advance0.outputs + asked.outputs
    && advance.confirmedScripts == advance0.confirmedScripts + asked.scripts
    && (paused <==>
          || paused0
          || (asked.parents != [] && env.parents(asked.parents).systemic)
          || (asked.prevouts != [] && env.prevouts(asked.prevouts).systemic))
  }

  // Later records add nothing to what the waves gained, nor do earlier ones.
  lemma SameGains(
    asked: Asked, paused0: bool, paused: bool, advance0: Advance, advance1: Advance, advance2: Advance, advance: Advance,
    env: Environment)
    requires WavesGained(asked, paused0, paused, advance1, advance2, env)
    requires advance1 == advance0.(classifications := advance1.classifications)
    requires advance == advance2.(classifications := advance.classifications)
    ensures WavesGained(asked, paused0, paused, advance0, advance, env)
  {
  }

  // No fact waits for capacity though this call fetched its script, unless the slice has a copy of its own.
  ghost predicate NoneHeldBack(
    facts: Facts, raw: map<Txid, CachedOutputs>, outputs: map<Txid, CachedOutputs>, confirmed: map<OutPoint, Script>)
  {
    forall o :: o in facts && facts[o].CapacityBlocked? && FetchedNow(o, facts[o].source, outputs, confirmed) ==>
      facts[o].source.CurrentParent? && o.txid in raw && o.vout < |raw[o.txid].scripts|
  }

  // Every waiting fact was offered the script that the caches hold for it, and none is refused while everything fits.
  ghost predicate CachesDelivered(
    before: SliceView, after: Facts, slice: PendingSlice, outputs: map<Txid, CachedOutputs>, scripts: map<OutPoint, Script>)
  {
    && Delivered(
         before.facts, after, before.facts.Keys,
         CacheKnown(before.facts, slice.rawOutputs, slice.variants, outputs, scripts), Sum(after, ReadyBytes),
         slice.limits.maxPendingScriptBytes)
    && (Roomy(slice.origin, before, slice.truth, slice.limits.maxPendingScriptBytes) ==> NoneBlocked(after))
  }

  // A cache holds the script: an output of the slice's own transactions or of a cached
  // variant of the membership for a mempool parent, and a confirmed script otherwise.
  ghost predicate Cached(
    o: OutPoint, source: FactSource, slice: PendingSlice, outputs: map<Txid, CachedOutputs>, scripts: map<OutPoint, Script>)
  {
    match source
    case CurrentParent =>
      || (o.txid in slice.rawOutputs && o.vout < |slice.rawOutputs[o.txid].scripts|)
      || (o.txid in slice.variants && o.txid in outputs && outputs[o.txid].wtxid == slice.variants[o.txid].wtxid
          && o.vout < |outputs[o.txid].scripts|)
    case _ => o in scripts
  }

  lemma CachedKnown(
    facts: Facts, o: OutPoint, slice: PendingSlice, outputs: map<Txid, CachedOutputs>, scripts: map<OutPoint, Script>)
    requires o in facts && facts[o].Waiting()
    ensures o in CacheKnown(facts, slice.rawOutputs, slice.variants, outputs, scripts)
            <==> Cached(o, facts[o].source, slice, outputs, scripts)
  {
  }

  // The books of the slice since that moment.
  ghost predicate SliceBooked(
    slice: PendingSlice, before: SliceView, records0: seq<Classified>, records: seq<Classified>)
    reads slice
  {
    Booked(slice.origin, before, slice.View(), records0, records, slice.truth, slice.limits.maxPendingScriptBytes)
  }

  lemma SliceBookedMore(
    slice: PendingSlice, before: SliceView, middle: SliceView, records0: seq<Classified>, records1: seq<Classified>,
    records: seq<Classified>)
    requires Booked(
               slice.origin, before, middle, records0, records1, slice.truth, slice.limits.maxPendingScriptBytes)
    requires SliceBooked(slice, middle, records1, records)
    ensures SliceBooked(slice, before, records0, records)
  {
    BookedMore(
      slice.origin, before, middle, slice.View(), records0, records1, records, slice.truth,
      slice.limits.maxPendingScriptBytes);
  }

  lemma BookedPrefix(slice: PendingSlice, before: SliceView, records0: seq<Classified>, records: seq<Classified>)
    requires SliceBooked(slice, before, records0, records)
    ensures records0 <= records
  {
  }

  // Every candidate with terminal facts has its record among the later ones.
  ghost predicate AllRecorded(
    active: Candidates, facts: Facts, records0: seq<Classified>, records: seq<Classified>)
  {
    && records0 <= records
    && forall k :: k in active && IsTerminal(active[k], facts) ==> k in RecordKeys(records[|records0|..])
  }

  lemma AppendedRecorded(
    active: Candidates, facts: Facts, records0: seq<Classified>, classified: seq<Classified>)
    requires forall k :: k in active && IsTerminal(active[k], facts) ==> k in RecordKeys(classified)
    ensures AllRecorded(active, facts, records0, records0 + classified)
  {
    assert (records0 + classified)[|records0|..] == classified;
  }

  /** Between the waves and the end: what was found has reached the facts, and the
      candidates whose facts are terminal then have their records. */
  ghost predicate WavesAnswered(
    slice: PendingSlice, before: SliceView, asked: Asked, answered: SliceView, records0: seq<Classified>,
    records: seq<Classified>)
  {
    && CursorsMoved(before.active, answered.active)
    && ParentsReached(answered.facts, asked.outputs) && PrevoutsReached(answered.facts, asked.scripts)
    && (Roomy(slice.origin, before, slice.truth, slice.limits.maxPendingScriptBytes) ==> NoneBlocked(answered.facts))
    && AllRecorded(answered.active, answered.facts, records0, records)
  }

  // The same, seen from the beginning of the slice.
  ghost predicate AnswersRecorded(
    slice: PendingSlice, start: SliceView, asked: Asked, answered: SliceView, records0: seq<Classified>,
    records: seq<Classified>)
  {
    && ParentsReached(answered.facts, asked.outputs) && PrevoutsReached(answered.facts, asked.scripts)
    && (Roomy(slice.origin, start, slice.truth, slice.limits.maxPendingScriptBytes) ==> NoneBlocked(answered.facts))
    && AllRecorded(answered.active, answered.facts, records0, records)
  }

  lemma AnsweredSince(
    slice: PendingSlice, start: SliceView, before: SliceView, asked: Asked, answered: SliceView,
    records0: seq<Classified>, records1: seq<Classified>, records: seq<Classified>)
    requires WavesAnswered(slice, before, asked, answered, records1, records)
    requires Booked(slice.origin, start, before, records0, records1, slice.truth, slice.limits.maxPendingScriptBytes)
    ensures AnswersRecorded(slice, start, asked, answered, records0, records)
  {
    hide Roomy, IsTerminal, ParentsReached, PrevoutsReached, RecordKeys, CursorsMoved, InsertAll, OneEach;
    assert records[|records0|..] == records1[|records0|..] + records[|records1|..];
    KeysOfBoth(records1[|records0|..], records[|records1|..]);
  }

  lemma KeysOfBoth(a: seq<Classified>, b: seq<Classified>)
    ensures RecordKeys(a + b) == RecordKeys(a) + RecordKeys(b)
  {
  }

  lemma RecordedLater(
    active: Candidates, facts: Facts, records0: seq<Classified>, records1: seq<Classified>, records: seq<Classified>)
    requires AllRecorded(active, facts, records0, records1) && records1 <= records
    ensures AllRecorded(active, facts, records0, records)
  {
    hide IsTerminal;
    assert records[|records0|..] == records1[|records0|..] + records[|records1|..];
  }

  lemma OlderSelf(facts: Facts)
    ensures NoneOlder(facts, facts)
  {
  }

  // New facts have not been asked for.
  lemma GrownOlder(before: Facts, facts0: Facts, facts: Facts, deferred: set<OutPoint>, variants: Variants)
    requires NoneOlder(before, facts0) && GrownFrom(facts0, facts, deferred, variants)
    ensures NoneOlder(before, facts)
  {
  }

  // A step whose records are appended to what was gathered.
  lemma SliceBookedStep(
    slice: PendingSlice, before: SliceView, middle: SliceView, records0: seq<Classified>, records1: seq<Classified>,
    classified: seq<Classified>)
    requires Booked(
               slice.origin, before, middle, records0, records1, slice.truth, slice.limits.maxPendingScriptBytes)
    requires slice.Kept(middle, classified)
    ensures SliceBooked(slice, before, records0, records1 + classified)
  {
    hide Booked;
    BookedAfter(
      slice.origin, middle, slice.View(), records1, classified, slice.truth, slice.limits.maxPendingScriptBytes);
    SliceBookedMore(slice, before, middle, records0, records1, records1 + classified);
  }

  lemma SliceBookedNow(slice: PendingSlice, records: seq<Classified>)
    ensures SliceBooked(slice, slice.View(), records, records)
  {
    RecordedNone(slice.books.verdicts, records);
  }

  // No further candidate fits the fact window.
  ghost predicate WindowFilled(slice: PendingSlice)
    reads slice
  {
    slice.queued != [] ==>
      && slice.active != map[]
      && |slice.facts| + |Needed(slice.queued[0].transaction) - slice.facts.Keys| > slice.limits.maxUniquePrevoutsPerWindow
  }

  // A slice holds every transaction that was found, and there is none without any.
  ghost predicate OpenedFrom(slice: PendingSlice?, values: RawValues)
    reads slice
  {
    var found := PreparedOf(values, |values|);
    && (slice == null <==> found == [])
    && (slice != null ==>
          && slice.CandidateCount() == |found| && slice.rawOutputs == RawOutputs(found)
          && slice.origin == OriginOf(found) && slice.books == NO_BOOKS && slice.deferredFacts == {}
          && slice.View().Held() == QueuedKeys(found)
          && forall o :: o in slice.facts ==> slice.facts[o] == InitialFact(o, {}, slice.variants))
  }

  // Merging only adds or replaces, with what was merged.
  ghost predicate MergedFrom(
    before: map<Txid, CachedOutputs>, after: map<Txid, CachedOutputs>, outputs: map<Txid, CachedOutputs>)
  {
    && before.Keys <= after.Keys
    && forall t :: t in after ==> (t in outputs && after[t] == outputs[t]) || (t in before && after[t] == before[t])
  }

  // The cache after offering it scripts one by one.
  ghost function InsertEach(
    cache: Recency, order: seq<OutPoint>, scripts: map<OutPoint, Script>, available: nat): Recency
    requires forall o :: o in order ==> o in scripts
  {
    if order == [] then cache
    else
      var last := order[|order| - 1];
      InsertEach(cache, order[..|order| - 1], scripts, available).Insert(last, scripts[last], available)
  }

  /** How a slice was merged: what it found shared, what it had gathered, the room that
      its outputs left to the cache, and the order in which its scripts were offered. */
  datatype Merged = Merged(looked: Shared, advance: Advance, room: nat, order: seq<OutPoint>)

  // What a report of a slice that was merged says about its generation.
  ghost predicate ReportOk(report: Report, g: Generation, paused: bool, attempted: nat)
    reads g, g.pending
  {
    && report.generation == g.id && report.attempted == attempted
    && report.newlyClassified == |Changed(report)| && report.classified == |g.classifications|
    && report.remaining == g.Unstarted() + (if g.pending == null then 0 else g.pending.CandidateCount())
    && report.disposition == (if paused then Paused else if report.remaining == 0 then Complete else Continue)
    && (report.publication.Some? ==>
          && report.publication.value.generation == g.id && report.publication.value.revision == g.revision
          && report.publication.value.changed != [])
  }

  // The generation with this slice has less to do than before.
  ghost predicate Advanced(g: Generation, slice: PendingSlice?, before: Progress)
    requires g.Settled() && g.pending == null
    reads g, slice
  {
    Progress(g.Remaining().budget, if slice == null then Measure(0, 0, 0) else slice.Work()).Below(before)
  }

  const NOTHING_HELD: SliceView := SliceView(map[], [], map[], {}, NO_BOOKS)

  ghost function ViewOf(slice: PendingSlice?): SliceView
    reads slice
  {
    if slice == null then NOTHING_HELD else slice.View()
  }

  /** One slice from beginning to end: where it began, its facts once the caches were
      asked, its waves, and where it ended. `chosen` are the variants that were fetched
      for a new one. */
  datatype Trace = Trace(
    slice: PendingSlice?, chosen: seq<ExpectedVariant>, start: SliceView, hydrated: Facts, asked: Asked,
    answered: SliceView, end: SliceView)

  // It takes up the pending slice, or opens one with every transaction that was found.
  ghost predicate StartsFrom(trace: Trace, pending: PendingSlice?, view: SliceView, env: Environment) {
    if pending != null then trace.slice == pending && trace.start == view && trace.chosen == []
    else
      var values := env.candidates(trace.chosen).values;
      var found := if trace.chosen == [] then [] else PreparedOf(values, |values|);
      && (trace.slice == null <==> found == [])
      && (trace.slice != null ==>
            && trace.slice.origin == OriginOf(found) && trace.slice.rawOutputs == RawOutputs(found)
            && trace.start.Held() == QueuedKeys(found)
            && trace.start.books == NO_BOOKS && trace.start.deferred == {}
            && forall o :: o in trace.start.facts ==> trace.start.facts[o] == InitialFact(o, {}, trace.slice.variants))
  }

  /** What becomes of every transaction that was held at the beginning: it is held
      still, has one of these records, was given up, or was a victim. One that was
      given up needs a fact that is exhausted; one is exhausted now only if it had been
      asked for before; and while every script fits there is no victim. A candidate
      whose facts the caches completed is among the records. */
  ghost predicate AllAccounted(trace: Trace, records: seq<Classified>)
    requires trace.slice != null
  {
    var slice, start, end := trace.slice, trace.start, trace.end;
    var origin := slice.origin;
    && Apart(
         start.Held(), end.Held(), RecordKeys(records), end.books.exhausted - start.books.exhausted,
         end.books.victims - start.books.victims)
    && OneEach(records)
    && (forall c :: c in records ==>
          c.expected.wtxid in origin && origin[c.expected.wtxid] == Prepared(c.expected, c.transaction))
    && AccountOk(origin, start.active, start.queued, start.books, start.deferred)
    && AccountOk(origin, end.active, end.queued, end.books, end.deferred)
    && LastAttempts(start.facts, start.deferred, end.deferred)
    && (Roomy(origin, start, slice.truth, slice.limits.maxPendingScriptBytes) ==>
          end.books.victims == start.books.victims)
    && (forall k :: k in start.active && IsTerminal(start.active[k], trace.hydrated) ==> k in RecordKeys(records))
    && AnswersRecorded(slice, start, trace.asked, trace.answered, [], records)
  }

  // What a candidate needs is there at the beginning, or in the caches.
  ghost predicate AllAtHand(
    candidate: Candidate, start: SliceView, slice: PendingSlice, outputs: map<Txid, CachedOutputs>,
    scripts: map<OutPoint, Script>)
  {
    forall o :: o in candidate.required ==>
      && o in start.facts
      && (start.facts[o].Terminal()
          || (start.facts[o].Waiting() && Cached(o, start.facts[o].source, slice, outputs, scripts)))
  }

  /** While every script fits, a candidate whose facts are at hand is published by the
      slice. */
  lemma AtHandIsRecorded(
    trace: Trace, pending: PendingSlice?, view: SliceView, outputs: map<Txid, CachedOutputs>,
    scripts: map<OutPoint, Script>, paused: bool, advance: Advance, env: Environment, k: Wtxid)
    requires SliceTraced(trace, pending, view, outputs, scripts, paused, advance, env)
    requires trace.slice != null && k in trace.start.active
    requires Roomy(
               trace.slice.origin, trace.start, trace.slice.truth, trace.slice.limits.maxPendingScriptBytes)
    requires AllAtHand(trace.start.active[k], trace.start, trace.slice, outputs, scripts)
    ensures k in RecordKeys(advance.classifications)
  {
    hide Roomy, CacheKnown, RecordKeys, StartsFrom, TraceGained, AccountOk, Apart, Sum;
    var candidate, facts := trace.start.active[k], trace.start.facts;
    forall o | o in candidate.required ensures o in trace.hydrated && trace.hydrated[o].Terminal() {
      if facts[o].Waiting() {
        CachedKnown(facts, o, trace.slice, outputs, scripts);
      }
    }
    assert IsTerminal(candidate, trace.hydrated);
  }

  // What it gathered: a new slice's outputs, and what its waves found.
  ghost predicate TraceGained(trace: Trace, isNew: bool, paused: bool, advance: Advance, env: Environment) {
    var fetchPaused := isNew && trace.chosen != [] && env.candidates(trace.chosen).systemic;
    if trace.slice == null then paused == fetchPaused && advance == Advance([], map[], map[])
    else
      WavesGained(
        trace.asked, fetchPaused, paused, Advance([], if isNew then trace.slice.rawOutputs else map[], map[]), advance,
        env)
  }

  ghost predicate SliceTraced(
    trace: Trace, pending: PendingSlice?, view: SliceView, outputs: map<Txid, CachedOutputs>,
    scripts: map<OutPoint, Script>, paused: bool, advance: Advance, env: Environment)
  {
    && StartsFrom(trace, pending, view, env) && TraceGained(trace, pending == null, paused, advance, env)
    && (trace.slice != null ==>
          && AllAccounted(trace, advance.classifications)
          && CachesDelivered(trace.start, trace.hydrated, trace.slice, outputs, scripts))
  }

  // What is left of the slice stays pending, if anything is.
  ghost predicate EndsIn(trace: Trace, pending: PendingSlice?)
    reads pending
  {
    && (pending == null <==> trace.slice == null || trace.end.Held() == {})
    && (pending != null ==> pending == trace.slice && pending.View() == trace.end.(facts := pending.facts))
  }

  /** The same for a candidate whose facts the waves completed. */
  lemma AnsweredIsRecorded(trace: Trace, records: seq<Classified>, k: Wtxid)
    requires trace.slice != null && AllAccounted(trace, records) && k in trace.answered.active
    requires Roomy(
               trace.slice.origin, trace.start, trace.slice.truth, trace.slice.limits.maxPendingScriptBytes)
    requires var facts := trace.answered.facts;
             forall o :: o in trace.answered.active[k].required ==>
               o in facts && (facts[o].Terminal() || o in trace.asked.scripts)
    ensures k in RecordKeys(records)
  {
    hide Roomy, RecordKeys, AccountOk, Apart, OneEach, LastAttempts, ParentsReached;
    var none: seq<Classified> := [];
    assert records[|none|..] == records;
    assert IsTerminal(trace.answered.active[k], trace.answered.facts);
  }

  /** A candidate is given up only for a fact it needs that was exhausted before, or that
      had been asked for and still awaited an answer when the slice began. */
  lemma GivenUpAfterAttempts(trace: Trace, records: seq<Classified>, k: Wtxid)
    requires trace.slice != null && AllAccounted(trace, records)
    requires k in trace.end.books.exhausted && k !in trace.start.books.exhausted
    ensures k in trace.slice.origin
    ensures var start := trace.start;
            exists o :: o in Needed(trace.slice.origin[k].transaction)
                        && (o in start.deferred
                            || (o in start.facts && start.facts[o].Awaiting? && start.facts[o].attempts >= 1))
  {
    hide Apart, Roomy, IsTerminal, FromOrigin, Needed;
    assert NeedsExhausted(trace.slice.origin[k].transaction, trace.end.deferred);
  }

  /** The first slice of what was fetched loses nothing: while every script fits, each
      transaction that was found is published by it or stays pending. */
  lemma FirstSliceKeeps(
    trace: Trace, view: SliceView, outputs: map<Txid, CachedOutputs>, scripts: map<OutPoint, Script>, paused: bool,
    advance: Advance, env: Environment)
    requires SliceTraced(trace, null, view, outputs, scripts, paused, advance, env) && trace.slice != null
    requires Roomy(
               trace.slice.origin, trace.start, trace.slice.truth, trace.slice.limits.maxPendingScriptBytes)
    ensures trace.chosen != []
    ensures var values := env.candidates(trace.chosen).values;
            QueuedKeys(PreparedOf(values, |values|)) == trace.end.Held() + RecordKeys(advance.classifications)
  {
    hide Roomy, CachesDelivered, RecordKeys, TraceGained, FromOrigin, IsTerminal, HeldKeys, QueuedKeys, Needed;
    var start, end := trace.start, trace.end;
    assert forall o :: o in start.facts ==> start.facts[o].Awaiting? ==> start.facts[o].attempts == 0;
    assert end.deferred == {};
    assert end.books.exhausted == {};
  }

  lemma SameStart(
    trace: Trace, hydrated: Facts, asked: Asked, answered: SliceView, end: SliceView, pending: PendingSlice?,
    view: SliceView, env: Environment)
    requires StartsFrom(trace, pending, view, env)
    ensures StartsFrom(
              trace.(hydrated := hydrated, asked := asked, answered := answered, end := end), pending, view, env)
  {
  }

  lemma AllAccountedFor(trace: Trace, records: seq<Classified>)
    requires trace.slice != null
    requires AccountOk(
               trace.slice.origin, trace.start.active, trace.start.queued, trace.start.books, trace.start.deferred)
    requires AccountOk(trace.slice.origin, trace.end.active, trace.end.queued, trace.end.books, trace.end.deferred)
    requires Booked(
               trace.slice.origin, trace.start, trace.end, [], records, trace.slice.truth,
               trace.slice.limits.maxPendingScriptBytes)
    requires LastAttempts(trace.start.facts, trace.start.deferred, trace.end.deferred)
    requires AllRecorded(trace.start.active, trace.hydrated, [], records)
    requires AnswersRecorded(trace.slice, trace.start, trace.asked, trace.answered, [], records)
    ensures AllAccounted(trace, records)
  {
    hide AccountOk, Apart, Roomy, IsTerminal, LastAttempts, AnswersRecorded;
    var none: seq<Classified> := [];
    assert records[|none|..] == records;
    Partition(
      trace.slice.origin, trace.start, trace.end, records, trace.slice.truth, trace.slice.limits.maxPendingScriptBytes);
    RecordedOrigins(trace.slice.origin, trace.end, trace.start.books.verdicts, records);
  }

  lemma RecordedOrigins(origin: map<Wtxid, Prepared>, end: SliceView, before: Table, records: seq<Classified>)
    requires AccountOk(origin, end.active, end.queued, end.books, end.deferred)
    requires Recorded(before, end.books.verdicts, [], records)
    ensures forall c :: c in records ==>
              c.expected.wtxid in origin && origin[c.expected.wtxid] == Prepared(c.expected, c.transaction)
  {
    hide Apart, InsertAll;
    var none: seq<Classified> := [];
    assert records[|none|..] == records;
    InsertedContents(before, records);
    forall c | c in records
      ensures c.expected.wtxid in origin && origin[c.expected.wtxid] == Prepared(c.expected, c.transaction)
    {
      assert c.expected.wtxid in RecordKeys(records);
      OnlyRecord(records, c, end.books.verdicts[c.expected.wtxid]);
    }
  }

  lemma OnlyRecord(records: seq<Classified>, c: Classified, d: Classified)
    requires OneEach(records) && c in records && d in records && c.expected.wtxid == d.expected.wtxid
    ensures c == d
  {
  }

  class ClassificationPipeline {
    var nextGeneration: nat
    var current: Generation?
    const confirmedCache: ConfirmedScriptCache
    const limits: Limits
    const resolverLimits: ResolverLimits
    ghost const truth: OutPoint -> Script

    // The coordinator apart from the current generation.
    ghost predicate CoreValid()
      reads this, confirmedCache
    {
      && confirmedCache.Valid() && confirmedCache.maximumBytes == limits.maxAuxiliaryCacheBytes
      && AllScriptsTrue(confirmedCache.Contents().scripts, truth)
      && resolverLimits.Positive() && limits.maxTransactionsPerSlice > 0
      && nextGeneration <= U64_MAX
    }

    ghost predicate Owns(g: Generation) {
      g.limits == resolverLimits && g.truth == truth
    }

    // Both auxiliary caches share one ceiling.
    ghost predicate UnderCeiling(g: Generation)
      reads this, g, confirmedCache
    {
      g.outputCacheBytes + confirmedCache.estimatedBytes <= limits.maxAuxiliaryCacheBytes
    }

    ghost function CurrentPending(): PendingSlice?
      reads this, current
    {
      if current == null then null else current.pending
    }

    ghost predicate Valid()
      reads this, confirmedCache, current, CurrentPending()
    {
      && CoreValid()
      && (current != null ==>
            current.Valid() && Owns(current) && UnderCeiling(current) && current.id == nextGeneration)
      && (current == null ==> nextGeneration == 0)
    }

    constructor (limits: Limits, resolverLimits: ResolverLimits, ghost truth: OutPoint -> Script)
      requires limits.maxTransactionsPerSlice > 0 && resolverLimits.Positive()
      requires limits.maxAuxiliaryCacheBytes <= MAX_AUXILIARY_CACHE_BYTES
      ensures Valid() && fresh(this) && fresh(confirmedCache)
      ensures current == null && nextGeneration == 0
      ensures this.limits == limits && this.resolverLimits == resolverLimits && this.truth == truth
    {
      nextGeneration, current := 0, null;
      confirmedCache := new ConfirmedScriptCache(limits.maxAuxiliaryCacheBytes);
      this.limits, this.resolverLimits, this.truth := limits, resolverLimits, truth;
    }

    ghost function SharedState(): Shared
      reads this, current, confirmedCache
    {
      Shared(
        nextGeneration, if current == null then [] else current.membership,
        if current == null then map[] else current.classifications, if current == null then map[] else current.outputs,
        confirmedCache.Contents())
    }

    lemma SharedSelf()
      requires CoreValid()
      ensures Touched(SharedState(), SharedState())
    {
      hide CacheOk;
      confirmedCache.ContentsValid();
    }

    // Since `before`, generation `g` is either still current, or was replaced by the installs alone.
    ghost predicate KeptSince(g: Generation, before: Shared, env: Environment)
      reads this, current, confirmedCache
    {
      && KeptBy(current == g, before, SharedState(), env, limits.maxAuxiliaryCacheBytes)
      && (current != g ==> current != null && current.Pristine())
    }

    lemma KeptOn(g: Generation, before: Shared, middle: Shared, env: Environment)
      requires Touched(before, middle) && KeptSince(g, middle, env)
      ensures KeptSince(g, before, env)
    {
      KeptLater(current == g, before, middle, SharedState(), env, limits.maxAuxiliaryCacheBytes);
    }

    // A method that has kept its generation has only looked things up.
    lemma KeptTouched(g: Generation, before: Shared, env: Environment)
      requires KeptSince(g, before, env) && current == g
      ensures Touched(before, SharedState())
    {
    }

    // --- membership ------------------------------------------------------------

    /** Installs a complete snapshot as the next generation and carries every
        exact classification and cached output that is still current. Revision
        zero of the generation is the returned handoff. */
    method InstallSnapshot(membership: Membership) returns (start: Option<GenerationStart>)
      requires Valid() && DistinctEntries(membership)
      modifies this`current, this`nextGeneration, confirmedCache
      ensures Valid()
      ensures start.None? <==> old(nextGeneration) == U64_MAX
      ensures start.None? ==> current == old(current) && nextGeneration == old(nextGeneration)
      ensures SharedState() == AfterInstall(old(SharedState()), membership, limits.maxAuxiliaryCacheBytes)
      ensures start.Some? ==>
                && fresh(current) && current.membership == membership && current.Pristine()
                && current.id == nextGeneration == old(nextGeneration) + 1 == start.value.generation
                && current.revision == 0 == start.value.revision && start.value.membership == membership
                && current.classifications
                   == (if old(current) == null then map[] else Carried(old(current.classifications), current.variants))
                && current.outputs
                   == (if old(current) == null then map[] else Surviving(old(current.outputs), current.variants))
                && start.value.classifications == current.Published()
                && (start.value.hasEligibleWork <==> exists e :: e in membership && current.Unclassified(e.wtxid))
    {
      hide CacheOk, WorkOk, SliceOk, HistoryOk, AccountOk, AllScriptsTrue, Carried, Surviving, Project,
           DistinctEntries, Sum;
      CarryNothing(VariantsOf(membership));
      if nextGeneration == U64_MAX {
        return None;
      }
      nextGeneration := nextGeneration + 1;
      var generation, classifications := BuildGeneration(current, nextGeneration, membership);
      var hasEligibleWork := exists e :: e in membership && generation.Unclassified(e.wtxid);
      current := generation;
      start := Some(GenerationStart(nextGeneration, 0, hasEligibleWork, membership, classifications));
    }

    method BuildGeneration(previous: Generation?, id: nat, membership: Membership)
      returns (generation: Generation, classifications: View)
      requires CoreValid() && DistinctEntries(membership)
      requires previous != null ==>
                 previous.Settled() && Owns(previous) && previous.outputCacheBytes <= limits.maxAuxiliaryCacheBytes
      modifies confirmedCache
      ensures CoreValid() && fresh(generation) && generation.Valid() && Owns(generation) && UnderCeiling(generation)
      ensures confirmedCache.Contents()
              == old(confirmedCache.Contents()).EvictTo(
                   SaturatingSub(limits.maxAuxiliaryCacheBytes, Sum(generation.outputs, OutputBytes)))
      ensures generation.id == id && generation.membership == membership && generation.variants == VariantsOf(membership)
      ensures generation.Pristine()
      ensures generation.classifications
              == if previous == null then map[] else Carried(old(previous.classifications), generation.variants)
      ensures generation.outputs
              == if previous == null then map[] else Surviving(old(previous.outputs), generation.variants)
      ensures classifications == generation.Published()
    {
      hide CacheOk, WorkOk, SliceOk, HistoryOk, AccountOk, AllScriptsTrue, Carried, Surviving, Project, Sum;
      ghost var absences := if previous == null then {} else previous.absences;
      generation := new Generation(id, membership, resolverLimits, truth, absences);
      classifications := map[];
      EmptyView(generation.variants);
      confirmedCache.WithinMaximum();
      confirmedCache.ContentsValid();
      SumEmpty<Txid, CachedOutputs>(map[], OutputBytes);
      if previous != null {
        var carriedOutputs;
        classifications, carriedOutputs := Carry(previous, generation);
        OutputBytesOf(previous);
        SurvivingFits(previous.outputs, generation.variants);
        InsertCarried(generation, carriedOutputs, Surviving(previous.outputs, generation.variants));
      }
      OutputBytesOf(generation);
    }

    // The first generation has nothing to carry.
    lemma CarryNothing(variants: Variants)
      ensures Carried(map[], variants) == map[] && Surviving(map[], variants) == map[]
    {
    }

    lemma EmptyView(variants: Variants)
      ensures Project(map[], variants) == map[]
    {
    }

    lemma OutputBytesOf(g: Generation)
      requires g.Settled()
      ensures g.outputCacheBytes == Sum(g.outputs, OutputBytes)
    {
    }

    // Copies what survives: classifications at once, outputs as a list still to be admitted.
    method Carry(previous: Generation, generation: Generation)
      returns (view: View, carriedOutputs: seq<(Txid, CachedOutputs)>)
      requires previous != generation && previous.Settled() && generation.Settled()
      requires previous.truth == generation.truth && previous.absences == generation.absences
      requires generation.classifications == map[]
      modifies generation`classifications
      ensures generation.Settled()
      ensures generation.classifications == Carried(previous.classifications, generation.variants)
      ensures view == generation.Published()
      ensures CarriableOutputs(carriedOutputs, generation.variants, generation.truth)
      ensures ListsAll(carriedOutputs, Surviving(previous.outputs, generation.variants))
    {
      hide RecordSound, AllOutputsTrue, OutputsTrue, Project, Carried, InjectiveVariants, Sum;
      ghost var all := Surviving(previous.outputs, generation.variants);
      var membership, table := generation.membership, previous.classifications;
      view, carriedOutputs := map[], [];
      assert membership[..0] == [];
      CarryNone(table);
      EmptyView(generation.variants);
      var carried: Table := map[];
      for i := 0 to |membership|
        invariant carried == Carried(table, VariantsOf(membership[..i]))
        invariant view == Project(carried, generation.variants)
        invariant CarriableOutputs(carriedOutputs, generation.variants, generation.truth)
        invariant forall c :: c in carriedOutputs ==> c.0 in all && all[c.0] == c.1
        invariant forall j :: 0 <= j < i && membership[j].txid in all ==>
                    (membership[j].txid, all[membership[j].txid]) in carriedOutputs
      {
        var e := membership[i];
        CarryNext(table, membership, i);
        VariantsListed(membership);
        VariantsInjective(membership);
        assert e in membership && Listed(e.Expected(), generation.variants);
        if e.wtxid in table && table[e.wtxid].expected.txid == e.txid {
          ProjectOne(carried, generation.variants, table[e.wtxid]);
          carried := carried[e.wtxid := table[e.wtxid]];
          view := view[e.txid := table[e.wtxid]];
        }
        if e.txid in previous.outputs && previous.outputs[e.txid].wtxid == e.wtxid {
          OutputsAt(previous.outputs, e.txid, generation.truth);
          carriedOutputs := carriedOutputs + [(e.txid, previous.outputs[e.txid])];
        }
      }
      assert membership[..|membership|] == membership;
      AllListed(membership, generation.variants, all, carriedOutputs);
      CarriedOk(table, membership, generation.variants, generation.absences, generation.truth);
      generation.classifications := carried;
    }

    lemma AllListed(
      membership: Membership, variants: Variants, all: map<Txid, CachedOutputs>, carried: seq<(Txid, CachedOutputs)>)
      requires DistinctEntries(membership) && variants == VariantsOf(membership) && all.Keys <= variants.Keys
      requires forall c :: c in carried ==> c.0 in all && all[c.0] == c.1
      requires forall j :: 0 <= j < |membership| && membership[j].txid in all ==>
                 (membership[j].txid, all[membership[j].txid]) in carried
      ensures ListsAll(carried, all)
    {
      VariantsListed(membership);
      forall t | t in all ensures (t, all[t]) in carried {
        var e :| e in membership && e.txid == t && variants[t] == Variant(e.wtxid, e.vsize);
        var j :| 0 <= j < |membership| && membership[j] == e;
      }
    }

    lemma OutputsAt(outputs: map<Txid, CachedOutputs>, txid: Txid, truth: OutPoint -> Script)
      requires AllOutputsTrue(outputs, truth) && txid in outputs
      ensures OutputsTrue(txid, outputs[txid], truth)
    {
    }

    /** Everything that survives fits: it was within the ceiling before. */
    method InsertCarried(
      generation: Generation, carried: seq<(Txid, CachedOutputs)>, ghost all: map<Txid, CachedOutputs>)
      requires CoreValid() && generation.Settled() && Owns(generation) && UnderCeiling(generation)
      requires CarriableOutputs(carried, generation.variants, truth) && generation.outputs == map[]
      requires ListsAll(carried, all) && Sum(all, OutputBytes) <= limits.maxAuxiliaryCacheBytes
      modifies generation`outputs, generation`outputCacheBytes, confirmedCache
      ensures CoreValid() && generation.Settled() && UnderCeiling(generation) && generation.outputs == all
      ensures confirmedCache.Contents()
              == old(confirmedCache.Contents()).EvictTo(
                   SaturatingSub(limits.maxAuxiliaryCacheBytes, generation.outputCacheBytes))
    {
      hide CacheOk, WorkOk, OutputsTrue, Sum, AllOutputsTrue;
      ghost var cache0 := confirmedCache.Contents();
      confirmedCache.ContentsValid();
      NoOutputBytes(generation);
      for i := 0 to |carried|
        invariant CoreValid() && generation.Settled() && UnderCeiling(generation)
        invariant confirmedCache.Contents()
                  == cache0.EvictTo(SaturatingSub(limits.maxAuxiliaryCacheBytes, generation.outputCacheBytes))
        invariant forall t :: t in generation.outputs ==> t in all && generation.outputs[t] == all[t]
        invariant forall j :: 0 <= j < i ==> carried[j].0 in generation.outputs
      {
        assert carried[i] in carried;
        CarriedFits(generation, carried[i].0, carried[i].1, all);
        ghost var bytes0 := generation.outputCacheBytes;
        EvictTwice(
          cache0, SaturatingSub(limits.maxAuxiliaryCacheBytes, bytes0),
          SaturatingSub(limits.maxAuxiliaryCacheBytes, generation.BytesWith(carried[i].0, carried[i].1)));
        generation.InsertOutputs(confirmedCache, carried[i].0, carried[i].1, limits.maxAuxiliaryCacheBytes);
      }
      forall t | t in all ensures t in generation.outputs {
        var j :| 0 <= j < |carried| && carried[j] == (t, all[t]);
      }
    }

    lemma NoOutputBytes(g: Generation)
      requires g.Settled() && g.outputs == map[]
      ensures g.outputCacheBytes == 0
    {
      SumEmpty(g.outputs, OutputBytes);
    }

    // Among outputs that fit together, each fits beside the others.
    lemma {:induction false} CarriedFits(g: Generation, txid: Txid, more: CachedOutputs, all: map<Txid, CachedOutputs>)
      requires g.Settled() && txid in all && all[txid] == more
      requires forall t :: t in g.outputs ==> t in all && g.outputs[t] == all[t]
      ensures g.outputCacheBytes <= g.BytesWith(txid, more) <= Sum(all, OutputBytes)
    {
      hide Sum;
      OutputBytesOf(g);
      SumInsert(g.outputs, txid, more, OutputBytes);
      if txid in g.outputs {
        SumRemove(g.outputs, txid, OutputBytes);
      }
      SumMonotone(g.outputs[txid := more], all, OutputBytes);
    }

    /** A point where other tasks may run: any number of snapshots are installed. */
    method Interfere(env: Environment, tick: nat)
      requires Valid() && Honest(env, truth)
      modifies this`current, this`nextGeneration, confirmedCache
      ensures Valid()
      ensures SharedState() == AfterInstalls(old(SharedState()), env.installs(tick), limits.maxAuxiliaryCacheBytes)
      ensures current == old(current) ==> SharedState() == old(SharedState())
      ensures current != old(current) ==> fresh(current) && current.Pristine() && old(nextGeneration) < nextGeneration
      ensures old(current) != null ==> KeptSince(old(current), old(SharedState()), env)
      ensures Quiet(env) ==> current == old(current)
    {
      hide CacheOk, WorkOk, SliceOk, HistoryOk, AccountOk, AfterInstall, Surviving, Carried;
      ghost var before, maximum := SharedState(), limits.maxAuxiliaryCacheBytes;
      SharedSelf();
      var memberships := env.installs(tick);
      for i := 0 to |memberships|
        invariant Valid()
        invariant SharedState() == AfterInstalls(before, memberships[..i], maximum)
        invariant current == old(current) ==> SharedState() == before
        invariant current != old(current) ==> fresh(current) && current.Pristine() && old(nextGeneration) < nextGeneration
        invariant i == 0 ==> current == old(current)
      {
        assert memberships[i] in env.installs(tick);
        AfterOneMore(before, memberships, i, maximum);
        ghost var middle := SharedState();
        var start := InstallSnapshot(memberships[i]);
        NoneInstalled(middle, memberships[i], maximum);
      }
      assert memberships[..|memberships|] == memberships;
      assert SupersededAt(before, SharedState(), env, tick, before, maximum);
    }

    lemma NoneInstalled(s: Shared, membership: Membership, maximum: nat)
      ensures s.nextGeneration == U64_MAX ==> AfterInstall(s, membership, maximum) == s
    {
    }

    // --- a slice: candidates -----------------------------------------------------

    /** Fetches the raw transactions of a new slice. A variant whose fetch failed
        on its own may be selected once more. */
    method StartSlice(g: Generation, env: Environment)
      returns (superseded: bool, slice: PendingSlice?, paused: bool, attempted: nat, ghost chosen: seq<ExpectedVariant>)
      requires Valid() && Honest(env, truth) && current == g && g.pending == null
      modifies this`current, this`nextGeneration, confirmedCache
      modifies g`attempted, g`selections, g`rawRetryUsed
      ensures Valid() && g.Settled()
      ensures superseded <==> current != g
      ensures KeptSince(g, old(SharedState()), env) && (current == g || fresh(current))
      ensures Calm(env) ==> !paused
      ensures Quiet(env) ==> !superseded
      ensures slice != null ==>
                && !superseded && fresh(slice) && g.SliceOf(slice) && slice.CandidateCount() > 0
                && AllOutputsTrue(slice.rawOutputs, truth) && OutputsFor(slice.rawOutputs, g.variants)
                && (slice.queued != [] ==> slice.active != map[]) && NoneSpent(slice.facts)
      ensures |chosen| == attempted && LongestWithin(chosen, old(g.Eligible()), limits.maxTransactionsPerSlice)
      ensures superseded ==>
                g.attempted == old(g.attempted) + ExpectedWtxids(chosen) && g.rawRetryUsed == old(g.rawRetryUsed)
      ensures attempted > 0 && !superseded ==>
                var values := env.candidates(chosen).values;
                && paused == env.candidates(chosen).systemic && OpenedFrom(slice, values)
                && g.attempted
                   == old(g.attempted) + ExpectedWtxids(chosen) - (FailedRaw(values, |values|) - old(g.rawRetryUsed))
                && g.rawRetryUsed == old(g.rawRetryUsed) + FailedRaw(values, |values|)
      ensures attempted == 0 ==> g.Unstarted() == 0 && !superseded && slice == null && !paused
      ensures old(g.Remaining()).budget >= g.Remaining().budget + attempted
    {
      hide CacheOk, WorkOk, SliceOk, HistoryOk, AccountOk, KeptBy, AllScriptsTrue, AllOutputsTrue, OutputsFor, Honest,
           Quiet, RawAnswersOk, DistinctWtxids, ExpectedWtxids, RawBytes, Calm, AbsencesOf, UnstartedIn, NoneSpent,
           AfterInstalls, LongestWithin;
      superseded, slice, paused := false, null, false;
      KeptSelf(g, env);
      var candidates := g.SelectCandidates(limits.maxTransactionsPerSlice);
      attempted, chosen := |candidates|, candidates;
      if candidates == [] {
        return;
      }
      var fetched := env.candidates(candidates);
      HonestRaw(env, truth, candidates);
      Interfere(env, RAW_FETCHED);
      if current != g {
        superseded := true;
        return;
      }
      paused := fetched.systemic;
      slice := OpenSlice(g, candidates, fetched.values);
    }

    lemma KeptSelf(g: Generation, env: Environment)
      requires CoreValid() && current == g
      ensures KeptSince(g, SharedState(), env)
    {
      SharedSelf();
    }

    method OpenSlice(g: Generation, candidates: seq<ExpectedVariant>, values: RawValues) returns (slice: PendingSlice?)
      requires Valid() && current == g && g.pending == null && RawAnswersOk(candidates, values, truth)
      requires ExpectedWtxids(candidates) <= g.attempted && DistinctWtxids(candidates)
      requires forall c :: c in candidates ==> Listed(c, g.variants)
      modifies g`attempted, g`rawRetryUsed
      ensures Valid() && g.Remaining() == old(g.Remaining())
      ensures SharedState() == old(SharedState())
      ensures slice != null ==>
                && fresh(slice) && g.SliceOf(slice) && slice.CandidateCount() > 0
                && AllOutputsTrue(slice.rawOutputs, truth) && OutputsFor(slice.rawOutputs, g.variants)
                && (slice.queued != [] ==> slice.active != map[]) && NoneSpent(slice.facts)
      ensures OpenedFrom(slice, values)
      ensures g.attempted == old(g.attempted) - (FailedRaw(values, |values|) - old(g.rawRetryUsed))
      ensures g.rawRetryUsed == old(g.rawRetryUsed) + FailedRaw(values, |values|)
    {
      hide CacheOk, WorkOk, SliceOk, HistoryOk, AccountOk, AllScriptsTrue, AllOutputsTrue, OutputsFor, RawAnswersOk,
           DistinctWtxids, ExpectedWtxids;
      AllowRetries(g, candidates, values);
      slice := QueueFound(g, candidates, values);
    }

    // Each retryable failure makes its variant eligible again, once.
    method AllowRetries(g: Generation, candidates: seq<ExpectedVariant>, values: RawValues)
      requires g.Valid() && g.pending == null && RawAnswersOk(candidates, values, g.truth)
      requires ExpectedWtxids(candidates) <= g.attempted && DistinctWtxids(candidates)
      modifies g`attempted, g`rawRetryUsed
      ensures g.Valid() && g.Remaining() == old(g.Remaining())
      ensures g.attempted == old(g.attempted) - (FailedRaw(values, |values|) - old(g.rawRetryUsed))
      ensures g.rawRetryUsed == old(g.rawRetryUsed) + FailedRaw(values, |values|)
    {
      hide WorkOk, SliceOk, HistoryOk, AccountOk, FailedRaw, RawAnswersOk, DistinctWtxids, ExpectedWtxids;
      ValuesDistinct(candidates, values, g.truth);
      NoneFailed(values);
      for i := 0 to |values|
        invariant g.Valid() && g.Remaining() == old(g.Remaining())
        invariant g.attempted == old(g.attempted) - (FailedRaw(values, i) - old(g.rawRetryUsed))
        invariant g.rawRetryUsed == old(g.rawRetryUsed) + FailedRaw(values, i)
        invariant forall j :: i <= j < |values| ==> values[j].0.wtxid in g.attempted
      {
        FailedOnce(values, i);
        var w := values[i].0.wtxid;
        RetryOnce(old(g.attempted), old(g.rawRetryUsed), FailedRaw(values, i), w);
        if values[i].1.RetryableFailure? {
          g.AllowRawRetry(w);
        }
      }
    }

    lemma NoneFailed(values: RawValues)
      ensures FailedRaw(values, 0) == {}
    {
    }

    // A variant that failed for the first time becomes eligible again; the second time it does not.
    lemma RetryOnce(attempted: set<Wtxid>, used: set<Wtxid>, failed: set<Wtxid>, w: Wtxid)
      requires w !in failed
      ensures w in used + failed ==> attempted - ((failed + {w}) - used) == attempted - (failed - used)
      ensures w in used + failed ==> used + (failed + {w}) == used + failed
      ensures w !in used + failed ==> attempted - ((failed + {w}) - used) == attempted - (failed - used) - {w}
      ensures used + (failed + {w}) == used + failed + {w}
    {
    }

    // Distinct variants: the next failure is not among the earlier ones.
    lemma {:induction false} FailedOnce(values: RawValues, n: nat)
      requires n < |values|
      requires forall i, j :: 0 <= i < j < |values| ==> values[i].0.wtxid != values[j].0.wtxid
      ensures values[n].0.wtxid !in FailedRaw(values, n)
      ensures FailedRaw(values, n + 1)
              == FailedRaw(values, n) + (if values[n].1.RetryableFailure? then {values[n].0.wtxid} else {})
    {
      FailedListed(values, n);
    }

    lemma {:induction false} FailedListed(values: RawValues, n: nat)
      requires n <= |values|
      ensures forall w :: w in FailedRaw(values, n) ==> exists i :: 0 <= i < n && values[i].0.wtxid == w
    {
      if n > 0 {
        FailedListed(values, n - 1);
      }
    }

    lemma ValuesDistinct(candidates: seq<ExpectedVariant>, values: RawValues, truth: OutPoint -> Script)
      requires RawAnswersOk(candidates, values, truth) && DistinctWtxids(candidates)
      ensures forall i, j :: 0 <= i < j < |values| ==> values[i].0.wtxid != values[j].0.wtxid
      ensures forall i :: 0 <= i < |values| ==> values[i].0.wtxid in ExpectedWtxids(candidates)
    {
      forall i, j | 0 <= i < j < |values| ensures values[i].0.wtxid != values[j].0.wtxid {
        var a :| 0 <= a < |candidates| && candidates[a] == values[i].0;
        var b :| 0 <= b < |candidates| && candidates[b] == values[j].0;
      }
    }

    // The found transactions become a new pending slice.
    method QueueFound(g: Generation, candidates: seq<ExpectedVariant>, values: RawValues) returns (slice: PendingSlice?)
      requires g.Settled() && RawAnswersOk(candidates, values, g.truth) && DistinctWtxids(candidates)
      requires forall c :: c in candidates ==> Listed(c, g.variants)
      ensures slice != null ==>
                && fresh(slice) && g.SliceOf(slice) && slice.CandidateCount() > 0
                && AllOutputsTrue(slice.rawOutputs, g.truth) && OutputsFor(slice.rawOutputs, g.variants)
                && (slice.queued != [] ==> slice.active != map[]) && NoneSpent(slice.facts)
      ensures OpenedFrom(slice, values)
    {
      hide WorkOk, SliceOk, HistoryOk, AccountOk, QueueOk, Members, PreparedTrue, RawAnswersOk, AllOutputsTrue,
           OutputsFor, NoneSpent;
      var transactions: seq<Prepared> := [];
      for i := 0 to |values|
        invariant transactions == PreparedOf(values, i)
      {
        if values[i].1.Found? {
          transactions := transactions + [Prepared(values[i].0, values[i].1.value)];
        }
      }
      PreparedOk(candidates, values, g.variants, g.truth);
      if transactions == [] {
        return null;
      }
      slice := new PendingSlice(transactions, g.variants, g.limits, g.truth);
      OpenedHeld(slice, transactions);
      RawOutputsTrue(transactions, g.truth);
      RawOutputsFor(transactions, g.variants);
      InitialNoneSpent(slice.facts, g.variants);
      assert AbsencesOf(slice.nulls, g.variants) == {};
    }

    // A slice holds at first what it was opened with.
    lemma OpenedHeld(slice: PendingSlice, transactions: seq<Prepared>)
      requires slice.Valid() && slice.origin == OriginOf(transactions) && slice.books == NO_BOOKS
      requires QueueOk(transactions, map[])
      ensures slice.View().Held() == QueuedKeys(transactions)
    {
      hide SliceOk, HistoryOk, HeldKeys, FromOrigin;
      OriginContents(transactions);
    }

    // --- a slice: facts ------------------------------------------------------------

    // The slice of generation `g` is being advanced; `g` may have been replaced.
    ghost predicate Running(g: Generation, slice: PendingSlice)
      reads this, confirmedCache, current, CurrentPending(), g, slice
    {
      && Valid() && Owns(g) && g.Settled() && g.pending == null && g.SliceOf(slice)
    }

    // What the caches know is delivered; what became terminal is classified.
    method HydrateAndClassify(g: Generation, slice: PendingSlice)
      returns (classified: seq<Classified>, ghost hydrated: Facts)
      requires Running(g, slice) && current == g
      modifies slice, confirmedCache
      ensures Running(g, slice) && Touched(old(SharedState()), SharedState())
      ensures slice.Work().AtMost(old(slice.Work())) && (NoneSpent(old(slice.facts)) ==> NoneSpent(slice.facts))
      ensures RecordsOk(classified, g.variants, g.absences, truth)
      ensures slice.queued == old(slice.queued) && slice.deferredFacts == old(slice.deferredFacts)
      ensures slice.Kept(old(slice.View()), classified)
      ensures CachesDelivered(old(slice.View()), hydrated, slice, g.outputs, old(confirmedCache.Contents().scripts))
      ensures forall k :: k in old(slice.active) && IsTerminal(old(slice.active)[k], hydrated) ==>
                k in RecordKeys(classified)
      ensures NoneOlder(old(slice.facts), slice.facts)
    {
      hide CacheOk, SliceOk, HistoryOk, AccountOk, WorkOk, AllScriptsTrue, Delivered, CacheKnown, RecordsOk, NoneSpent,
           Booked, RecordKeys, Restrict, NoneOlder, IsTerminal, CachesDelivered, Touched;
      Hydrate(g, slice);
      hydrated := slice.facts;
      ghost var middle := slice.View();
      classified := Classify(g, slice);
      HydratedOlder(old(slice.View()), hydrated, slice, g.outputs, old(confirmedCache.Contents().scripts));
      BookedMore(
        slice.origin, old(slice.View()), middle, slice.View(), [], [], classified, slice.truth,
        slice.limits.maxPendingScriptBytes);
    }

    // Offers what the caches hold.
    method Hydrate(g: Generation, slice: PendingSlice)
      requires Running(g, slice) && current == g
      modifies slice`facts, slice`pendingScriptBytes, confirmedCache
      ensures Running(g, slice) && Touched(old(SharedState()), SharedState())
      ensures slice.Work().AtMost(old(slice.Work())) && (NoneSpent(old(slice.facts)) ==> NoneSpent(slice.facts))
      ensures slice.Kept(old(slice.View()), [])
      ensures CachesDelivered(old(slice.View()), slice.facts, slice, g.outputs, old(confirmedCache.Contents().scripts))
    {
      hide CacheOk, SliceOk, HistoryOk, AccountOk, WorkOk, AllScriptsTrue, Delivered, CacheKnown, NoneSpent, Booked,
           Roomy, NoneBlocked, Sum;
      WorkOutputs(g);
      slice.HydrateFromCaches(g.outputs, confirmedCache);
      confirmedCache.ContentsValid();
      BytesNow(slice);
      RoomyFacts(slice, old(slice.View()));
    }

    lemma RoomyFacts(slice: PendingSlice, before: SliceView)
      requires slice.Kept(before, [])
      ensures Roomy(slice.origin, before, slice.truth, slice.limits.maxPendingScriptBytes) ==> NoneBlocked(slice.facts)
    {
    }

    lemma BytesNow(slice: PendingSlice)
      requires slice.Valid()
      ensures slice.pendingScriptBytes == Sum(slice.facts, ReadyBytes)
    {
    }

    // Delivery and removal leave no fact awaiting an answer that did not before.
    lemma HydratedOlder(
      before: SliceView, hydrated: Facts, slice: PendingSlice, outputs: map<Txid, CachedOutputs>,
      scripts: map<OutPoint, Script>)
      requires CachesDelivered(before, hydrated, slice, outputs, scripts)
      requires slice.facts == Restrict(hydrated, slice.active)
      ensures NoneOlder(before.facts, slice.facts)
    {
      hide Roomy, CacheKnown, NoneBlocked, Sum;
    }

    lemma WorkOutputs(g: Generation)
      requires g.Settled()
      ensures AllOutputsTrue(g.outputs, g.truth)
    {
    }

    method Classify(g: Generation, slice: PendingSlice) returns (classified: seq<Classified>)
      requires g.Settled() && g.SliceOf(slice)
      modifies slice`active, slice`fairOrder, slice`facts, slice`pendingScriptBytes, slice`books
      ensures g.SliceOf(slice)
      ensures RecordsOk(classified, g.variants, g.absences, g.truth)
      ensures slice.Work().AtMost(old(slice.Work()))
      ensures classified != [] ==> slice.Work().candidates < old(slice.Work()).candidates
      ensures classified == [] ==>
                && slice.facts == old(slice.facts) && slice.active == old(slice.active)
                && slice.pendingScriptBytes == old(slice.pendingScriptBytes)
      ensures Quieted(old(slice.facts)) ==> Quieted(slice.facts)
      ensures NoneSpent(old(slice.facts)) ==> NoneSpent(slice.facts)
      ensures forall k :: k in slice.active ==> !IsTerminal(slice.active[k], slice.facts)
      ensures slice.Kept(old(slice.View()), classified)
      ensures slice.books == old(slice.books).(verdicts := slice.books.verdicts)
      ensures forall k :: k in old(slice.active) && IsTerminal(old(slice.active)[k], old(slice.facts)) ==>
                k in RecordKeys(classified)
      ensures slice.facts == Restrict(old(slice.facts), slice.active)
      ensures forall k :: k in slice.active ==> k in old(slice.active) && slice.active[k] == old(slice.active)[k]
      ensures forall k :: k in old(slice.active) && k !in slice.active ==> k in RecordKeys(classified)
    {
      hide HistoryOk, AccountOk, Covered, Ordered, CandidatesOk, QueueOk, Windowed, FactsOk, AllOutputsTrue, Sum,
           IsTerminal, ClassifiedSound, RecordSound, WorkOk, IsClassificationOf, NoneSpent, Quieted, Members,
           RecordsOk, Booked, RecordKeys, Restrict, InsertAll, OneEach;
      ghost var active, facts := slice.active, slice.facts;
      classified := slice.ClassifyReady();
      ghost var ready := set k | k in active && IsTerminal(active[k], facts);
      VerdictKeysOf(active, facts, classified, ready);
      ClassifiedOk(
        classified, ready, active, slice.queued, facts, slice.nulls, g.variants, g.absences, g.truth);
    }

    lemma VerdictKeysOf(active: Candidates, facts: Facts, classified: seq<Classified>, ready: set<Wtxid>)
      requires CandidatesOk(active) && IsClassificationOf(classified, ready, active, facts)
      requires ready == set k | k in active && IsTerminal(active[k], facts)
      ensures forall k :: k in active && IsTerminal(active[k], facts) ==> k in RecordKeys(classified)
    {
      hide IsTerminal, CandidatesOk, IsClassificationOf, RecordKeys;
      VerdictKeys(active, facts, classified, ready);
    }

    /** Asks for one wave of mempool parents, unless fact waves are paused. A wave
        that is asked for is work done, whatever the answers. */
    method ResolveParents(g: Generation, slice: PendingSlice, paused0: bool, env: Environment)
      returns (
        superseded: bool, paused: bool, outputs: map<Txid, CachedOutputs>, ghost wave: seq<ExpectedVariant>,
        ghost applied: Facts)
      requires Running(g, slice) && current == g && Honest(env, truth)
      modifies this`current, this`nextGeneration, confirmedCache, slice
      ensures Valid() && Owns(g) && g.Settled() && g.pending == null
      ensures superseded <==> current != g
      ensures KeptSince(g, old(SharedState()), env) && (current == g || fresh(current))
      ensures !superseded ==> Running(g, slice)
      ensures Quiet(env) ==> !superseded
      ensures Calm(env) && !paused0 ==> !paused
      ensures AllOutputsTrue(outputs, truth) && OutputsFor(outputs, g.variants)
      ensures slice.Work().AtMost(old(slice.Work())) && slice.queued == old(slice.queued)
      ensures paused0 ==> wave == []
      ensures wave == [] ==>
                && paused == paused0 && !superseded && slice.facts == old(slice.facts)
                && slice.pendingScriptBytes == old(slice.pendingScriptBytes)
                && slice.active.Keys == old(slice.active.Keys)
                && (paused0 || !slice.HasPendingScriptCapacity()
                    || forall o :: o in slice.facts ==> !slice.facts[o].ParentEligible())
      ensures wave != [] ==> ParentWaveOk(old(slice.facts), g.variants, wave) && slice.Work().Below(old(slice.Work()))
      ensures wave != [] && !superseded ==>
                && paused == env.parents(wave).systemic
                && ParentsAnswered(
                     AttemptParents(old(slice.facts), Txids(wave)), applied, slice.facts, wave, env.parents(wave), outputs,
                     slice.pendingScriptBytes, slice.limits.maxPendingScriptBytes)
                && (NoneSpent(old(slice.facts)) ==>
                      (NoneSpent(slice.facts) <==> ParentsSpare(old(slice.facts), wave, env.parents(wave))))
      ensures !superseded && !paused && NoneSpent(old(slice.facts)) && old(slice.HasPendingScriptCapacity()) ==>
                (ParentsSettled(slice.facts, env.parents(wave).values)
                 <==> ParentsFit(old(slice.facts), g.variants, g.limits.maxParentTransactionsPerWave))
      ensures !superseded ==>
                && slice.Kept(old(slice.View()), [])
                && LastAttempts(old(slice.facts), old(slice.deferredFacts), slice.deferredFacts)
                && NoneOlderConfirmed(old(slice.facts), slice.facts)
                && ParentsGained(wave, outputs, env) && ParentsReached(slice.facts, outputs)
                && CursorsMoved(old(slice.active), slice.active)
    {
      hide CacheOk, SliceOk, HistoryOk, AccountOk, WorkOk, AllScriptsTrue, KeptBy, Honest, Quiet, ParentWaveOk,
           AttemptParents, NoneSpent, ParentsAnswered, ParentsSpare, OutputsFor, AllOutputsTrue, RawAnswersOk, Txids,
           RawBytes, Calm, ParentPicks, NoneFits, ParentsFit, AllAsked, ParentsSettled, Booked, LastAttempts,
           NoneOlderConfirmed, DeferralsIn, DeferredListed, NoneBlocked, OutputsOfFound, ParentsReached,
           DistinctParents;
      NoOutputs(g.variants);
      KeptSelf(g, env);
      NothingAsked(slice);
      NothingReached(slice.facts);
      slice.DeferredNow();
      superseded, paused, outputs, wave, applied := false, paused0, map[], [], slice.facts;
      if paused {
        return;
      }
      ghost var facts0 := slice.facts;
      var selected := slice.NextParentWave();
      wave := selected;
      ghost var view := slice.View();
      ParentsAsked(slice, old(slice.View()), selected);
      if selected == [] {
        AttemptNoParents(facts0);
        NothingToSettle(facts0, env.parents([]).values);
        return;
      }
      superseded, paused, outputs, applied := AskParents(g, slice, selected, facts0, env);
      if !superseded {
        HonestRaw(env, truth, selected);
        ParentWaveDistinct(facts0, g.variants, selected, env.parents(selected).values, truth);
        ParentsAskedLast(
          slice, facts0, applied, selected, env.parents(selected), outputs, old(slice.deferredFacts));
        BookedMore(
          slice.origin, old(slice.View()), view, slice.View(), [], [], [], slice.truth,
          slice.limits.maxPendingScriptBytes);
      }
    }

    lemma NothingAsked(slice: PendingSlice)
      ensures slice.Kept(slice.View(), [])
      ensures LastAttempts(slice.facts, slice.deferredFacts, slice.deferredFacts)
      ensures LastConfirmed(slice.facts, slice.deferredFacts, slice.deferredFacts)
      ensures NoneOlderConfirmed(slice.facts, slice.facts)
    {
      SliceBookedNow(slice, []);
    }

    // Asking changes attempts and cursors alone.
    lemma ParentsAsked(slice: PendingSlice, before: SliceView, wave: seq<ExpectedVariant>)
      requires slice.Valid() && AccountOk(slice.origin, before.active, before.queued, before.books, before.deferred)
      requires before.books == slice.books && slice.facts == AttemptParents(before.facts, Txids(wave))
      ensures slice.Kept(before, [])
    {
      hide SliceOk, HistoryOk, AccountOk, AttemptParents, NoneBlocked, Booked;
      if NoneBlocked(before.facts) {
        AttemptNoneBlocked(before.facts, Txids(wave), {});
      }
      slice.KeptFacts(before);
    }

    lemma ParentsAskedLast(
      slice: PendingSlice, facts0: Facts, applied: Facts, wave: seq<ExpectedVariant>,
      fetched: Fetch<ExpectedVariant, Transaction>, outputs: map<Txid, CachedOutputs>, deferred0: set<OutPoint>)
      requires ParentsAnswered(
                 AttemptParents(facts0, Txids(wave)), applied, slice.facts, wave, fetched, outputs,
                 slice.pendingScriptBytes, slice.limits.maxPendingScriptBytes)
      requires DeferredListed(facts0, deferred0) && DeferralsIn(deferred0, slice.deferredFacts, slice.facts)
      requires DistinctParents(fetched.values)
      ensures ParentsReached(slice.facts, outputs)
      ensures LastAttempts(facts0, deferred0, slice.deferredFacts) && NoneOlderConfirmed(facts0, slice.facts)
      ensures OutputsOfFound(outputs, fetched.values, |fetched.values|)
    {
      hide ParentsApplied, AttemptParents, FallBack, LastAttempts, NoneOlderConfirmed, DeferralsIn, DeferredListed,
           OutputsOfFound, ParentsReached;
      ParentsReach(
        AttemptParents(facts0, Txids(wave)), applied, slice.facts, wave, fetched, outputs, slice.pendingScriptBytes,
        slice.limits.maxPendingScriptBytes);
      ParentsLast(
        facts0, applied, slice.facts, Txids(wave), fetched.values,
        Txids(wave) - Resolved(fetched.values, |fetched.values|), slice.pendingScriptBytes,
        slice.limits.maxPendingScriptBytes, deferred0, slice.deferredFacts);
    }

    // Fetches the wave and applies it, unless the generation was replaced meanwhile.
    method AskParents(
      g: Generation, slice: PendingSlice, wave: seq<ExpectedVariant>, ghost facts0: Facts, env: Environment)
      returns (superseded: bool, paused: bool, outputs: map<Txid, CachedOutputs>, ghost applied: Facts)
      requires Running(g, slice) && current == g && Honest(env, truth)
      requires ParentWaveOk(facts0, g.variants, wave) && slice.facts == AttemptParents(facts0, Txids(wave))
      modifies this`current, this`nextGeneration, confirmedCache
      modifies slice`facts, slice`pendingScriptBytes, slice`deferredFacts
      ensures Valid() && Owns(g) && g.Settled() && g.pending == null
      ensures superseded <==> current != g
      ensures KeptSince(g, old(SharedState()), env) && (current == g || fresh(current))
      ensures !superseded ==> Running(g, slice)
      ensures Calm(env) ==> !paused
      ensures Quiet(env) ==> !superseded
      ensures superseded ==> slice.facts == old(slice.facts)
      ensures !superseded ==>
                && paused == env.parents(wave).systemic
                && ParentsAnswered(
                     old(slice.facts), applied, slice.facts, wave, env.parents(wave), outputs, slice.pendingScriptBytes,
                     slice.limits.maxPendingScriptBytes)
                && (NoneSpent(facts0) ==> (NoneSpent(slice.facts) <==> ParentsSpare(facts0, wave, env.parents(wave))))
                && (NoneSpent(facts0) && !paused ==>
                      (ParentsSettled(slice.facts, env.parents(wave).values) <==> AllAsked(facts0, Txids(wave))))
      ensures !superseded ==>
                && slice.Kept(old(slice.View()), [])
                && DeferralsIn(old(slice.deferredFacts), slice.deferredFacts, slice.facts)
      ensures AllOutputsTrue(outputs, truth) && OutputsFor(outputs, g.variants)
      ensures slice.Work().AtMost(old(slice.Work()))
    {
      hide CacheOk, SliceOk, HistoryOk, AccountOk, WorkOk, AllScriptsTrue, KeptBy, Honest, Quiet, ParentWaveOk,
           NoneSpent, ParentsApplied, OutputsOfFound, OutputsFor, AllOutputsTrue, RawAnswersOk, Txids, FallBack, Calm,
           AttemptParents, LastParentAttempt, Resolved, ParentsSettled, AllAsked, Booked, DeferralsIn;
      NoOutputs(g.variants);
      superseded, paused, outputs, applied := false, false, map[], slice.facts;
      var fetched := env.parents(wave);
      HonestRaw(env, truth, wave);
      Interfere(env, PARENTS_FETCHED);
      if current != g {
        superseded := true;
        return;
      }
      paused := fetched.systemic;
      outputs, applied := slice.ApplyParentAnswers(wave, fetched.values, paused, facts0);
      if NoneSpent(facts0) && !paused {
        AnswersInWave(wave, fetched.values);
        SettledExactly(
          facts0, applied, wave, fetched.values, slice.pendingScriptBytes, slice.limits.maxPendingScriptBytes);
      }
    }

    lemma AnswersInWave(wave: seq<ExpectedVariant>, values: RawValues)
      requires RawAnswersOk(wave, values, truth)
      ensures forall i :: 0 <= i < |values| ==> values[i].0 in wave
    {
    }

    // An empty wave: nothing was eligible, so nothing is awaited from parents.
    lemma NothingToSettle(facts: Facts, values: RawValues)
      ensures NoneSpent(facts) && (forall o :: o in facts ==> !facts[o].ParentEligible()) ==>
                ParentsSettled(facts, values) && AllAsked(facts, Txids([]))
    {
    }

    lemma NoOutputs(variants: Variants)
      ensures AllOutputsTrue(map[], truth) && OutputsFor(map[], variants)
    {
    }

    lemma AttemptNoParents(facts: Facts)
      ensures AttemptParents(facts, Txids([])) == facts
    {
    }

    /** Asks gettxout for one fair wave of previous outputs, unless fact waves are
        paused. While one estimated response fits in the remaining budget, every
        script found is admitted. */
    method ResolvePrevouts(g: Generation, slice: PendingSlice, paused0: bool, env: Environment)
      returns (
        superseded: bool, paused: bool, scripts: map<OutPoint, Script>, ghost wave: seq<OutPoint>,
        ghost owners: seq<Wtxid>)
      requires Running(g, slice) && current == g && Honest(env, truth)
      modifies this`current, this`nextGeneration, confirmedCache, g`absences, slice
      ensures Valid() && Owns(g) && g.Settled() && g.pending == null && old(g.absences) <= g.absences
      ensures superseded <==> current != g
      ensures KeptSince(g, old(SharedState()), env) && (current == g || fresh(current))
      ensures !superseded ==> Running(g, slice)
      ensures Calm(env) && !paused0 ==> !paused
      ensures Quiet(env) ==> !superseded
      ensures AllScriptsTrue(scripts, truth)
      ensures slice.Work().AtMost(old(slice.Work())) && slice.queued == old(slice.queued)
      ensures paused0 ==> wave == []
      ensures wave == [] ==>
                && paused == paused0 && !superseded && scripts == map[] && slice.facts == old(slice.facts)
                && slice.pendingScriptBytes == old(slice.pendingScriptBytes)
                && slice.active.Keys == old(slice.active.Keys)
                && (paused0 || !slice.HasPendingScriptCapacity()
                    || forall o :: o in slice.facts ==> !slice.facts[o].ConfirmedEligible())
      ensures wave != [] ==>
                WaveOk(old(slice.facts), old(slice.active), wave, owners) && slice.Work().Below(old(slice.Work()))
      ensures wave != [] && !superseded ==>
                && paused == env.prevouts(wave).systemic
                && PrevoutsAnswered(
                     AttemptAll(old(slice.facts), Elements(wave)), slice.facts, env.prevouts(wave).values, scripts,
                     old(slice.pendingScriptBytes), slice.pendingScriptBytes, slice.limits.maxPendingScriptBytes)
                && (NoneSpent(old(slice.facts)) ==>
                      (NoneSpent(slice.facts) <==> PrevoutsSpare(old(slice.facts), wave, env.prevouts(wave).values)))
      ensures NoneSpent(old(slice.facts)) && !superseded && !paused ==> NoneSpent(slice.facts)
      ensures !superseded ==>
                && slice.Kept(old(slice.View()), [])
                && LastConfirmed(old(slice.facts), old(slice.deferredFacts), slice.deferredFacts)
                && PrevoutsGained(wave, scripts, env) && CursorsMoved(old(slice.active), slice.active)
    {
      hide CacheOk, SliceOk, HistoryOk, AccountOk, WorkOk, KeptBy, Honest, Quiet, WaveOk, AttemptAll, NoneSpent,
           PrevoutAnswersOk, AllAnswered, Answerable, PrevoutsAnswered, PrevoutsSpare, Fair, Rotate, ConfirmedPicks,
           AllScriptsTrue, AllOutputsTrue, Calm, Booked, LastConfirmed, DeferredListed;
      KeptSelf(g, env);
      NothingAsked(slice);
      slice.DeferredNow();
      NoScripts();
      superseded, paused, scripts, wave, owners := false, paused0, map[], [], [];
      if paused {
        return;
      }
      ghost var facts0, active0 := slice.facts, slice.active;
      ghost var turns;
      var selected;
      selected, owners, turns := slice.NextConfirmedWave();
      wave := selected;
      PrevoutsAsked(slice, old(slice.View()), selected);
      if selected == [] {
        NothingSelected(slice.limits, facts0, slice.pendingScriptBytes);
        return;
      }
      var fetched := env.prevouts(selected);
      HonestPrevouts(env, truth, selected);
      WaveAnswerable(facts0, active0, selected, owners, fetched.values, truth);
      Interfere(env, PREVOUTS_FETCHED);
      if current != g {
        superseded := true;
        return;
      }
      paused := fetched.systemic;
      scripts := ApplyPrevouts(g, slice, selected, owners, fetched, facts0, active0, old(slice.View()));
      AnsweredSpares(facts0, selected, fetched.values);
      ScriptsFound(
        AttemptAll(facts0, Elements(selected)), slice.facts, fetched.values, scripts, old(slice.pendingScriptBytes),
        slice.pendingScriptBytes, slice.limits.maxPendingScriptBytes);
    }

    lemma ScriptsFound(
      before: Facts, after: Facts, answers: Answers, scripts: map<OutPoint, Script>, bytes0: nat, bytes: nat, limit: nat)
      requires PrevoutsAnswered(before, after, answers, scripts, bytes0, bytes, limit)
      ensures forall o :: o in scripts <==> exists i :: 0 <= i < |answers| && answers[i].0 == o && answers[i].1.Found?
    {
    }

    // Asking changes attempts and cursors alone.
    lemma PrevoutsAsked(slice: PendingSlice, before: SliceView, wave: seq<OutPoint>)
      requires slice.Valid() && AccountOk(slice.origin, before.active, before.queued, before.books, before.deferred)
      requires before.books == slice.books && slice.facts == AttemptAll(before.facts, Elements(wave))
      ensures slice.Kept(before, [])
    {
      hide SliceOk, HistoryOk, AccountOk, AttemptAll, NoneBlocked, Booked;
      if NoneBlocked(before.facts) {
        AttemptNoneBlocked(before.facts, {}, Elements(wave));
      }
      slice.KeptFacts(before);
    }

    lemma NoScripts()
      ensures AllScriptsTrue(map[], truth)
    {
    }

    // Without a systemic failure every answer counts.
    lemma AnsweredSpares(facts: Facts, selected: seq<OutPoint>, answers: Answers)
      ensures AllAnswered(answers, Elements(selected)) ==> PrevoutsSpare(facts, selected, answers)
    {
    }

    method ApplyPrevouts(
      g: Generation, slice: PendingSlice, wave: seq<OutPoint>, ghost owners: seq<Wtxid>, fetched: Fetch<OutPoint, Script>,
      ghost facts0: Facts, ghost active0: Candidates, ghost before: SliceView)
      returns (scripts: map<OutPoint, Script>)
      requires Running(g, slice) && current == g && WaveOk(facts0, active0, wave, owners)
      requires slice.facts == AttemptAll(facts0, Elements(wave)) && |wave| <= WaveSize(slice.limits, slice.pendingScriptBytes)
      requires Answerable(slice.facts, fetched.values) && PrevoutAnswersOk(wave, fetched.values, truth)
      requires |fetched.values| <= |wave|
      requires before.facts == facts0 && before.active == active0 && CursorsMoved(active0, slice.active)
      requires before == slice.View().(facts := facts0, active := active0) && DeferredListed(facts0, before.deferred)
      requires AccountOk(slice.origin, before.active, before.queued, before.books, before.deferred)
      modifies g`absences, slice`facts, slice`pendingScriptBytes, slice`deferredFacts, slice`nulls
      ensures Running(g, slice) && old(g.absences) <= g.absences && SharedState() == old(SharedState())
      ensures AllScriptsTrue(scripts, truth) && slice.Work().AtMost(old(slice.Work()))
      ensures PrevoutsAnswered(
                old(slice.facts), slice.facts, fetched.values, scripts, old(slice.pendingScriptBytes),
                slice.pendingScriptBytes, slice.limits.maxPendingScriptBytes)
      ensures slice.Kept(before, []) && LastConfirmed(facts0, before.deferred, slice.deferredFacts)
      ensures NoneSpent(facts0) ==> (NoneSpent(slice.facts) <==> PrevoutsSpare(facts0, wave, fetched.values))
    {
      hide CacheOk, SliceOk, HistoryOk, AccountOk, WorkOk, NoneSpent, ConfirmedApplied, Answerable, FoundFit,
           FoundReady, Evolves, AllOutputsTrue, AttemptAll, Booked, LastConfirmed, DeferralsIn, NoneBlocked,
           CursorsMoved, DeferredListed;
      LimitsPositive(g);
      ghost var facts1, bytes1 := slice.facts, slice.pendingScriptBytes;
      if bytes1 + ESTIMATED_GETTXOUT_RESPONSE_BYTES <= slice.limits.maxPendingScriptBytes {
        WaveSizingSufficient(slice.limits, bytes1, wave, fetched.values, truth);
      }
      scripts := slice.ApplyConfirmedValues(fetched.values);
      g.RecordAbsences(slice.nulls);
      PrevoutsKept(slice, before, wave, fetched.values);
      if NoneSpent(facts0) {
        SpareConfirmed(
          facts0, active0, slice.facts, fetched.values, slice.pendingScriptBytes, slice.limits.maxPendingScriptBytes, wave,
          owners);
      }
    }

    lemma PrevoutsKept(slice: PendingSlice, before: SliceView, wave: seq<OutPoint>, answers: Answers)
      requires slice.Valid() && PrevoutAnswersOk(wave, answers, truth) && slice.truth == truth
      requires Answerable(AttemptAll(before.facts, Elements(wave)), answers)
      requires CursorsMoved(before.active, slice.active) && before.queued == slice.queued && before.books == slice.books
      requires AccountOk(slice.origin, before.active, before.queued, before.books, before.deferred)
      requires ConfirmedApplied(
                 AttemptAll(before.facts, Elements(wave)), slice.facts, answers, |answers|, slice.pendingScriptBytes,
                 slice.limits.maxPendingScriptBytes)
      requires DeferredListed(before.facts, before.deferred)
      requires DeferralsIn(before.deferred, slice.deferredFacts, slice.facts)
      ensures slice.Kept(before, []) && LastConfirmed(before.facts, before.deferred, slice.deferredFacts)
    {
      hide SliceOk, HistoryOk, AccountOk, AttemptAll, NoneBlocked, Booked, ConfirmedApplied, DeferralsIn,
           DeferredListed, LastConfirmed, Answerable, PrevoutAnswersOk;
      if NoneBlocked(before.facts) {
        AttemptNoneBlocked(before.facts, {}, Elements(wave));
      }
      slice.AnswersKept(before, AttemptAll(before.facts, Elements(wave)), wave, answers);
      ConfirmedLast(
        before.facts, slice.facts, answers, Elements(wave), slice.pendingScriptBytes, slice.limits.maxPendingScriptBytes,
        before.deferred, slice.deferredFacts);
    }

    lemma SpareConfirmed(
      facts0: Facts, active0: Candidates, after: Facts, answers: Answers, bytes: nat, limit: nat, wave: seq<OutPoint>,
      owners: seq<Wtxid>)
      requires WaveOk(facts0, active0, wave, owners) && PrevoutAnswersOk(wave, answers, truth) && NoneSpent(facts0)
      requires Answerable(AttemptAll(facts0, Elements(wave)), answers)
      requires ConfirmedApplied(AttemptAll(facts0, Elements(wave)), after, answers, |answers|, bytes, limit)
      ensures NoneSpent(after) <==> PrevoutsSpare(facts0, wave, answers)
    {
      hide AttemptAll, ConfirmedApplied, NoneSpent, Answerable;
      ConfirmedWaveSpent(facts0, after, answers, bytes, limit, wave);
    }

    lemma LimitsPositive(g: Generation)
      requires g.Settled()
      ensures g.limits.Positive()
    {
    }

    // An empty wave: no budget, or nothing eligible.
    lemma NothingSelected(limits: ResolverLimits, facts: Facts, bytes: nat)
      ensures AttemptAll(facts, Elements([])) == facts
      ensures limits.Positive() ==> (WaveSize(limits, bytes) == 0 <==> bytes >= limits.maxPendingScriptBytes)
    {
    }

    // --- a slice: capacity pressure ----------------------------------------------

    ghost predicate Gathered(advance: Advance, g: Generation)
      reads this, g
    {
      AdvanceOk(advance, g.variants, g.absences, truth)
    }

    /** Delivers every known fact that fits, and classifies what becomes ready,
        until nothing more is classified. Each continuing pass removes a candidate. */
    method RecoverKnownFacts(g: Generation, slice: PendingSlice, advance0: Advance, env: Environment, tick0: nat)
      returns (stillCurrent: bool, advance: Advance, tick: nat)
      requires Running(g, slice) && current == g && Honest(env, truth) && Gathered(advance0, g)
      modifies this`current, this`nextGeneration, confirmedCache, slice
      ensures Running(g, slice) && Gathered(advance, g)
      ensures stillCurrent <==> current == g
      ensures KeptSince(g, old(SharedState()), env) && (current == g || fresh(current))
      ensures Quiet(env) ==> stillCurrent
      ensures advance == advance0.(classifications := advance.classifications)
      ensures slice.Work().AtMost(old(slice.Work()))
      ensures slice.queued == old(slice.queued)
      ensures stillCurrent ==> forall k :: k in slice.active ==> !IsTerminal(slice.active[k], slice.facts)
      ensures Quieted(old(slice.facts)) ==> Quieted(slice.facts)
      ensures NoneSpent(old(slice.facts)) ==> NoneSpent(slice.facts)
      ensures SliceBooked(slice, old(slice.View()), advance0.classifications, advance.classifications)
      ensures slice.deferredFacts == old(slice.deferredFacts)
    {
      hide CacheOk, SliceOk, HistoryOk, AccountOk, WorkOk, KeptBy, Honest, Quiet, IsTerminal, Quieted, RecordsOk,
           AllOutputsTrue, AllScriptsTrue, OutputsFor, NoneSpent, Touched, Booked;
      ghost var before := SharedState();
      SharedSelf();
      SliceBookedNow(slice, advance0.classifications);
      stillCurrent, advance, tick := true, advance0, tick0;
      while true
        invariant Running(g, slice) && current == g && Gathered(advance, g) && Touched(before, SharedState())
        invariant advance == advance0.(classifications := advance.classifications)
        invariant slice.Work().AtMost(old(slice.Work())) && slice.queued == old(slice.queued)
        invariant Quieted(old(slice.facts)) ==> Quieted(slice.facts)
        invariant NoneSpent(old(slice.facts)) ==> NoneSpent(slice.facts)
        invariant SliceBooked(slice, old(slice.View()), advance0.classifications, advance.classifications)
        invariant slice.deferredFacts == old(slice.deferredFacts)
        decreases slice.Work().candidates
      {
        ghost var middle, view := SharedState(), slice.View();
        var classified;
        stillCurrent, classified := RecoverPass(g, slice, advance, env, tick);
        tick := tick + 1;
        KeptOn(g, before, middle, env);
        SliceBookedStep(
          slice, old(slice.View()), view, advance0.classifications, advance.classifications, classified);
        if !stillCurrent {
          assert advance.classifications + [] == advance.classifications;
          return;
        }
        KeptTouched(g, before, env);
        RecordsOkConcat(advance.classifications, classified, g.variants, g.absences, truth);
        advance := advance.(classifications := advance.classifications + classified);
        if classified == [] {
          return;
        }
      }
    }

    method RecoverPass(g: Generation, slice: PendingSlice, advance: Advance, env: Environment, tick: nat)
      returns (stillCurrent: bool, classified: seq<Classified>)
      requires Running(g, slice) && current == g && Honest(env, truth) && Gathered(advance, g)
      modifies this`current, this`nextGeneration, confirmedCache, slice
      ensures Running(g, slice)
      ensures stillCurrent <==> current == g
      ensures KeptSince(g, old(SharedState()), env) && (current == g || fresh(current))
      ensures Quiet(env) ==> stillCurrent
      ensures RecordsOk(classified, g.variants, g.absences, truth)
      ensures slice.Work().AtMost(old(slice.Work())) && slice.queued == old(slice.queued)
      ensures stillCurrent && classified != [] ==> slice.Work().candidates < old(slice.Work()).candidates
      ensures stillCurrent ==> forall k :: k in slice.active ==> !IsTerminal(slice.active[k], slice.facts)
      ensures Quieted(old(slice.facts)) ==> Quieted(slice.facts)
      ensures NoneSpent(old(slice.facts)) ==> NoneSpent(slice.facts)
      ensures slice.Kept(old(slice.View()), classified) && slice.deferredFacts == old(slice.deferredFacts)
      ensures !stillCurrent ==> classified == []
    {
      hide CacheOk, SliceOk, HistoryOk, AccountOk, WorkOk, KeptBy, Honest, Quiet, IsTerminal, Quieted, AllOutputsTrue,
           AllScriptsTrue, OutputsFor, NoneSpent, Touched, AfterInstalls, Booked;
      SliceBookedNow(slice, []);
      Interfere(env, tick);
      if current != g {
        return false, [];
      }
      stillCurrent := true;
      classified := RecoverOnce(g, slice, advance);
      KeptIf(g, old(SharedState()), env);
    }

    lemma KeptIf(g: Generation, before: Shared, env: Environment)
      requires current == g && Touched(before, SharedState())
      ensures KeptSince(g, before, env)
    {
    }

    // One pass: the caches first, then what this call fetched.
    method RecoverOnce(g: Generation, slice: PendingSlice, advance: Advance) returns (classified: seq<Classified>)
      requires Running(g, slice) && current == g && Gathered(advance, g)
      modifies slice, confirmedCache
      ensures Running(g, slice) && Touched(old(SharedState()), SharedState())
      ensures RecordsOk(classified, g.variants, g.absences, truth)
      ensures slice.Work().AtMost(old(slice.Work())) && slice.queued == old(slice.queued)
      ensures classified != [] ==> slice.Work().candidates < old(slice.Work()).candidates
      ensures forall k :: k in slice.active ==> !IsTerminal(slice.active[k], slice.facts)
      ensures Quieted(old(slice.facts)) ==> Quieted(slice.facts)
      ensures NoneSpent(old(slice.facts)) ==> NoneSpent(slice.facts)
      ensures slice.Kept(old(slice.View()), classified) && slice.deferredFacts == old(slice.deferredFacts)
    {
      hide CacheOk, SliceOk, HistoryOk, AccountOk, WorkOk, IsTerminal, Quieted, RecordsOk, AllOutputsTrue,
           AllScriptsTrue, OutputsFor, Delivered, CacheKnown, TransientKnown, NoneSpent, Booked, RecordKeys, Restrict;
      DeliverKnown(g, slice, advance);
      ghost var view := slice.View();
      classified := Classify(g, slice);
      BookedMore(
        slice.origin, old(slice.View()), view, slice.View(), [], [], classified, slice.truth,
        slice.limits.maxPendingScriptBytes);
    }

    // The caches first, then what this call fetched.
    method DeliverKnown(g: Generation, slice: PendingSlice, advance: Advance)
      requires Running(g, slice) && current == g && Gathered(advance, g)
      modifies slice`facts, slice`pendingScriptBytes, confirmedCache
      ensures Running(g, slice) && Touched(old(SharedState()), SharedState())
      ensures slice.Work().AtMost(old(slice.Work()))
      ensures Quieted(old(slice.facts)) ==> Quieted(slice.facts)
      ensures NoneSpent(old(slice.facts)) ==> NoneSpent(slice.facts)
      ensures slice.Kept(old(slice.View()), [])
    {
      hide CacheOk, SliceOk, HistoryOk, AccountOk, WorkOk, Quieted, RecordsOk, AllOutputsTrue, AllScriptsTrue,
           OutputsFor, Delivered, CacheKnown, TransientKnown, NoneSpent, Booked;
      WorkOutputs(g);
      slice.HydrateFromCaches(g.outputs, confirmedCache);
      confirmedCache.ContentsValid();
      ghost var view := slice.View();
      slice.HydrateFromTransient(advance.outputs, advance.confirmedScripts);
      BookedMore(
        slice.origin, old(slice.View()), view, slice.View(), [], [], [], slice.truth, slice.limits.maxPendingScriptBytes);
    }

    /** Under capacity pressure, removes blocked candidates until no script that
        this call fetched is still usable for a blocked fact. Each continuing pass
        removes a candidate. */
    method ResolveCapacityPressure(g: Generation, slice: PendingSlice, advance0: Advance, env: Environment, tick0: nat)
      returns (stillCurrent: bool, advance: Advance, tick: nat)
      requires Running(g, slice) && current == g && Honest(env, truth) && Gathered(advance0, g)
      modifies this`current, this`nextGeneration, confirmedCache, slice
      ensures Running(g, slice) && Gathered(advance, g)
      ensures stillCurrent <==> current == g
      ensures KeptSince(g, old(SharedState()), env) && (current == g || fresh(current))
      ensures Quiet(env) ==> stillCurrent
      ensures advance == advance0.(classifications := advance.classifications)
      ensures slice.Work().AtMost(old(slice.Work())) && slice.queued == old(slice.queued)
      ensures stillCurrent ==> !slice.HasTransientCapacityBlockedFact(advance.outputs, advance.confirmedScripts)
      ensures stillCurrent ==>
                NoneHeldBack(slice.facts, slice.rawOutputs, advance.outputs, advance.confirmedScripts)
      ensures stillCurrent && Quieted(old(slice.facts)) && old(slice.active) != map[] ==>
                slice.Work().Below(old(slice.Work()))
      ensures NoneSpent(old(slice.facts)) ==> NoneSpent(slice.facts)
      ensures SliceBooked(slice, old(slice.View()), advance0.classifications, advance.classifications)
      ensures slice.deferredFacts == old(slice.deferredFacts)
    {
      hide CacheOk, SliceOk, HistoryOk, AccountOk, WorkOk, KeptBy, Honest, Quiet, IsTerminal, Quieted, AdvanceOk,
           IsVictim, Restrict, NoneSpent, TransientUsable, FreedBytes, AllScriptsTrue, AbsencesOf, Touched, Booked,
           NoneHeldBack, FetchedNow;
      ghost var before := SharedState();
      SharedSelf();
      SliceBookedNow(slice, advance0.classifications);
      stillCurrent, advance, tick := true, advance0, tick0;
      var deferredOnce := false;
      while true
        invariant Running(g, slice) && current == g && Gathered(advance, g) && Touched(before, SharedState())
        invariant advance == advance0.(classifications := advance.classifications)
        invariant slice.Work().AtMost(old(slice.Work())) && slice.queued == old(slice.queued)
        invariant deferredOnce ==> slice.Work().Below(old(slice.Work()))
        invariant Quieted(old(slice.facts)) ==> Quieted(slice.facts)
        invariant NoneSpent(old(slice.facts)) ==> NoneSpent(slice.facts)
        invariant SliceBooked(slice, old(slice.View()), advance0.classifications, advance.classifications)
        invariant slice.deferredFacts == old(slice.deferredFacts)
        invariant !deferredOnce ==> slice.active == old(slice.active) && slice.facts == old(slice.facts)
        decreases slice.Work().candidates
      {
        ghost var middle, view, records1 := SharedState(), slice.View(), advance.classifications;
        var deferred;
        stillCurrent, deferred, advance, tick := PressurePass(g, slice, advance, env, tick, deferredOnce);
        KeptOn(g, before, middle, env);
        SliceBookedMore(
          slice, old(slice.View()), view, advance0.classifications, records1, advance.classifications);
        if !deferred {
          if stillCurrent {
            NothingUsable(slice, advance.outputs, advance.confirmedScripts);
          }
          return;
        }
        KeptTouched(g, before, env);
        deferredOnce := true;
      }
    }

    lemma NothingUsable(slice: PendingSlice, outputs: map<Txid, CachedOutputs>, confirmed: map<OutPoint, Script>)
      requires !slice.HasTransientCapacityBlockedFact(outputs, confirmed)
      ensures NoneHeldBack(slice.facts, slice.rawOutputs, outputs, confirmed)
    {
      hide FetchedNow, TransientUsable;
      forall o | o in slice.facts && slice.facts[o].CapacityBlocked?
                 && FetchedNow(o, slice.facts[o].source, outputs, confirmed)
        ensures slice.facts[o].source.CurrentParent? && o.txid in slice.rawOutputs
                && o.vout < |slice.rawOutputs[o.txid].scripts|
      {
        FetchedKnown(slice.facts, o, slice.rawOutputs, outputs, confirmed);
      }
    }

    /** One pass: recover, then remove a victim unless enough was freed. Without a
        removal nothing usable is left blocked. */
    method PressurePass(
      g: Generation, slice: PendingSlice, advance0: Advance, env: Environment, tick0: nat, deferredOnce: bool)
      returns (stillCurrent: bool, deferred: bool, advance: Advance, tick: nat)
      requires Running(g, slice) && current == g && Honest(env, truth) && Gathered(advance0, g)
      modifies this`current, this`nextGeneration, confirmedCache, slice
      ensures Running(g, slice) && Gathered(advance, g)
      ensures stillCurrent <==> current == g
      ensures KeptSince(g, old(SharedState()), env) && (current == g || fresh(current))
      ensures Quiet(env) ==> stillCurrent
      ensures advance == advance0.(classifications := advance.classifications)
      ensures slice.Work().AtMost(old(slice.Work())) && slice.queued == old(slice.queued)
      ensures deferred ==> stillCurrent && slice.Work().candidates < old(slice.Work()).candidates
      ensures stillCurrent && !deferred ==>
                !slice.HasTransientCapacityBlockedFact(advance.outputs, advance.confirmedScripts)
      ensures stillCurrent && !deferred && !deferredOnce && Quieted(old(slice.facts)) && old(slice.active) != map[] ==>
                slice.Work().Below(old(slice.Work()))
      ensures Quieted(old(slice.facts)) ==> Quieted(slice.facts)
      ensures NoneSpent(old(slice.facts)) ==> NoneSpent(slice.facts)
      ensures SliceBooked(slice, old(slice.View()), advance0.classifications, advance.classifications)
      ensures slice.deferredFacts == old(slice.deferredFacts)
    {
      hide CacheOk, SliceOk, HistoryOk, AccountOk, WorkOk, KeptBy, Honest, Quiet, IsTerminal, Quieted, AdvanceOk,
           IsVictim, Restrict, NoneSpent, TransientUsable, FreedBytes, AllScriptsTrue, AbsencesOf, Touched, Booked;
      deferred := false;
      stillCurrent, advance, tick := RecoverKnownFacts(g, slice, advance0, env, tick0);
      if !stillCurrent {
        return;
      }
      if deferredOnce && !slice.HasTransientCapacityBlockedFact(advance.outputs, advance.confirmedScripts) {
        return;
      }
      ghost var view := slice.View();
      deferred := RemoveVictim(g, slice, old(slice.facts), old(slice.active), old(slice.Work()));
      SliceBookedStep(
        slice, old(slice.View()), view, advance0.classifications, advance.classifications, []);
      assert advance.classifications + [] == advance.classifications;
    }

    // Removes a blocked candidate; without one nothing is left to relieve.
    method RemoveVictim(
      g: Generation, slice: PendingSlice, ghost facts0: Facts, ghost active0: Candidates, ghost work0: Measure)
      returns (deferred: bool)
      requires g.Settled() && g.SliceOf(slice) && slice.Work().AtMost(work0)
      requires forall k :: k in slice.active ==> !IsTerminal(slice.active[k], slice.facts)
      requires Quieted(facts0) ==> Quieted(slice.facts)
      requires work0.candidates == |active0| + |slice.queued|
      modifies slice`active, slice`fairOrder, slice`facts, slice`pendingScriptBytes, slice`books
      ensures g.SliceOf(slice) && slice.Work().AtMost(work0)
      ensures deferred ==> slice.Work().candidates < work0.candidates
      ensures !deferred && Quieted(facts0) && active0 != map[] ==> slice.Work().Below(work0)
      ensures !deferred ==> forall outputs, confirmed :: !slice.HasTransientCapacityBlockedFact(outputs, confirmed)
      ensures Quieted(old(slice.facts)) ==> Quieted(slice.facts)
      ensures NoneSpent(old(slice.facts)) ==> NoneSpent(slice.facts)
      ensures forall k :: k in old(slice.fairOrder) ==> k in old(slice.active)
      ensures !deferred ==> slice.active == old(slice.active)
      ensures deferred ==>
                exists victim: nat ::
                  && victim < |old(slice.fairOrder)|
                  && IsVictim(old(slice.active), old(slice.facts), old(slice.fairOrder), |old(slice.fairOrder)|, victim)
                  && slice.active == old(slice.active) - {old(slice.fairOrder)[victim]}
      ensures slice.Kept(old(slice.View()), [])
    {
      hide SliceOk, HistoryOk, AccountOk, WorkOk, IsTerminal, Quieted, IsVictim, Restrict, NoneSpent, TransientUsable,
           FreedBytes, Booked;
      var removed;
      ghost var victim;
      removed, victim := slice.DeferCapacityBlockedCandidate();
      deferred := removed > 0;
      assert deferred ==> victim < |old(slice.fairOrder)| by {
        if deferred {
          VictimIndex(old(slice.active), old(slice.facts), old(slice.fairOrder), victim);
        }
      }
      if !deferred {
        NothingLeft(slice, facts0, active0, work0);
      }
    }

    lemma VictimIndex(active: Candidates, facts: Facts, order: seq<Wtxid>, victim: nat)
      requires (forall k :: k in order ==> k in active) && IsVictim(active, facts, order, |order|, victim)
      ensures victim < |order|
    {
    }

    // Quiet facts, nothing blocked and nothing terminal: the candidates are gone.
    lemma NothingLeft(slice: PendingSlice, facts0: Facts, active0: Candidates, work0: Measure)
      requires slice.Valid() && slice.Work().AtMost(work0)
      requires forall o :: o in slice.facts ==> !slice.facts[o].CapacityBlocked?
      requires forall k :: k in slice.active ==> !IsTerminal(slice.active[k], slice.facts)
      requires Quieted(facts0) ==> Quieted(slice.facts)
      requires work0.candidates == |active0| + |slice.queued|
      ensures Quieted(facts0) && active0 != map[] ==> slice.Work().Below(work0)
      ensures forall outputs, confirmed :: !slice.HasTransientCapacityBlockedFact(outputs, confirmed)
    {
      if Quieted(facts0) && active0 != map[] {
        QuietedTerminal(slice.active, slice.facts);
        assert |active0| > 0;
      }
    }

    /** After the waves: classify, give up what cannot be resolved, relieve capacity
        pressure and refill the window. When the waves had nothing to do, this
        makes progress instead. */
    method Settle(g: Generation, slice: PendingSlice, advance0: Advance, env: Environment)
      returns (stillCurrent: bool, advance: Advance)
      requires Running(g, slice) && current == g && Honest(env, truth) && Gathered(advance0, g)
      modifies this`current, this`nextGeneration, confirmedCache, slice
      ensures Running(g, slice) && Gathered(advance, g)
      ensures stillCurrent <==> current == g
      ensures KeptSince(g, old(SharedState()), env) && (current == g || fresh(current))
      ensures Quiet(env) ==> stillCurrent
      ensures advance == advance0.(classifications := advance.classifications)
      ensures slice.Work().AtMost(old(slice.Work()))
      ensures stillCurrent && old(slice.WavesDry()) && old(slice.active) != map[] ==> slice.Work().Below(old(slice.Work()))
      ensures stillCurrent ==> WindowFilled(slice)
      ensures stillCurrent && slice.queued != [] ==> slice.active != map[]
      ensures NoneSpent(old(slice.facts)) ==> NoneSpent(slice.facts)
      ensures SliceBooked(slice, old(slice.View()), advance0.classifications, advance.classifications)
      ensures slice.deferredFacts == old(slice.deferredFacts)
      ensures AllRecorded(old(slice.active), old(slice.facts), advance0.classifications, advance.classifications)
    {
      hide CacheOk, SliceOk, HistoryOk, AccountOk, WorkOk, KeptBy, Honest, Quiet, AdvanceOk, Restrict, NoneSpent,
           Quieted, Calm, AbsencesOf, AllScriptsTrue, RecordsOk, TransientUsable, WindowFilled, IsTerminal, Touched,
           Booked, RecordKeys, IsVictim, FreedBytes, Needed, NoneOlder, NeedsDeferred, OutputsFor, AllOutputsTrue,
           AllRecorded;
      advance := GiveUpInto(g, slice, advance0);
      ghost var view, records1 := slice.View(), advance.classifications;
      var tick;
      stillCurrent, advance, tick := ResolveCapacityPressure(g, slice, advance, env, FIRST_RECOVERY);
      SliceBookedMore(
        slice, old(slice.View()), view, advance0.classifications, records1, advance.classifications);
      BookedPrefix(slice, view, records1, advance.classifications);
      RecordedLater(
        old(slice.active), old(slice.facts), advance0.classifications, records1, advance.classifications);
      if stillCurrent {
        Fill(g, slice, old(slice.View()), advance0.classifications, advance.classifications);
      }
    }

    method GiveUpInto(g: Generation, slice: PendingSlice, advance0: Advance) returns (advance: Advance)
      requires g.Settled() && g.SliceOf(slice) && Owns(g) && Gathered(advance0, g)
      modifies slice`active, slice`fairOrder, slice`facts, slice`pendingScriptBytes, slice`books
      ensures g.SliceOf(slice) && Gathered(advance, g)
      ensures advance == advance0.(classifications := advance.classifications)
      ensures slice.Work().AtMost(old(slice.Work())) && (NoneSpent(old(slice.facts)) ==> NoneSpent(slice.facts))
      ensures old(slice.WavesDry()) ==>
                || slice.Work().Below(old(slice.Work()))
                || (Quieted(slice.facts) && slice.active == old(slice.active))
      ensures SliceBooked(slice, old(slice.View()), advance0.classifications, advance.classifications)
      ensures AllRecorded(old(slice.active), old(slice.facts), advance0.classifications, advance.classifications)
    {
      hide SliceOk, HistoryOk, AccountOk, WorkOk, AdvanceOk, RecordsOk, NoneSpent, Quieted, Booked, RecordKeys,
           NeedsDeferred, AbsencesOf, AllRecorded, IsTerminal;
      var classified := GiveUp(g, slice);
      advance := Append(advance0, classified, g.variants, g.absences);
      AppendedRecorded(old(slice.active), old(slice.facts), advance0.classifications, classified);
      BookedAfter(
        slice.origin, old(slice.View()), slice.View(), advance0.classifications, classified, slice.truth,
        slice.limits.maxPendingScriptBytes);
    }

    // Classifies, frees one fact from an exhausted budget, and removes candidates that need an exhausted fact.
    method GiveUp(g: Generation, slice: PendingSlice) returns (classified: seq<Classified>)
      requires g.Settled() && g.SliceOf(slice)
      modifies slice`active, slice`fairOrder, slice`facts, slice`pendingScriptBytes, slice`books
      ensures g.SliceOf(slice)
      ensures RecordsOk(classified, g.variants, g.absences, g.truth)
      ensures slice.Work().AtMost(old(slice.Work())) && (NoneSpent(old(slice.facts)) ==> NoneSpent(slice.facts))
      ensures old(slice.WavesDry()) ==>
                || slice.Work().Below(old(slice.Work()))
                || (Quieted(slice.facts) && slice.active == old(slice.active))
      ensures slice.Kept(old(slice.View()), classified)
      ensures forall k :: k in old(slice.active) && IsTerminal(old(slice.active)[k], old(slice.facts)) ==>
                k in RecordKeys(classified)
      ensures slice.books.victims == old(slice.books.victims)
      ensures forall k :: k in old(slice.active) && k !in slice.active ==>
                k in RecordKeys(classified) || NeedsDeferred(old(slice.active)[k], old(slice.facts))
    {
      hide SliceOk, HistoryOk, AccountOk, WorkOk, RecordsOk, NoneSpent, Quieted, IsTerminal, Booked, RecordKeys,
           Restrict, NeedsDeferred;
      classified := Classify(g, slice);
      ghost var middle := slice.View();
      slice.GiveUpStuck();
      BookedAfter(
        slice.origin, middle, slice.View(), classified, [], slice.truth, slice.limits.maxPendingScriptBytes);
      assert classified + [] == classified;
      StillNeeded(middle.active, old(slice.facts));
      BookedMore(
        slice.origin, old(slice.View()), middle, slice.View(), [], classified, classified, slice.truth,
        slice.limits.maxPendingScriptBytes);
    }

    method Append(advance0: Advance, classified: seq<Classified>, ghost variants: Variants, ghost absences: set<OutPoint>)
      returns (advance: Advance)
      requires AdvanceOk(advance0, variants, absences, truth) && RecordsOk(classified, variants, absences, truth)
      ensures AdvanceOk(advance, variants, absences, truth)
      ensures advance == advance0.(classifications := advance0.classifications + classified)
    {
      RecordsOkConcat(advance0.classifications, classified, variants, absences, truth);
      advance := advance0.(classifications := advance0.classifications + classified);
    }

    // --- a slice: merge ------------------------------------------------------------

    /** Every output is merged when all fit beside what is cached; otherwise some
        are left out, and nothing cached is lost. The confirmed scripts give way,
        oldest first, for no more room than the outputs need. */
    method MergeOutputs(g: Generation, outputs: map<Txid, CachedOutputs>) returns (ghost room: nat)
      requires CoreValid() && g.Settled() && Owns(g) && UnderCeiling(g)
      requires AllOutputsTrue(outputs, truth) && OutputsFor(outputs, g.variants)
      modifies g`outputs, g`outputCacheBytes, confirmedCache
      ensures CoreValid() && g.Settled() && UnderCeiling(g)
      ensures MergedFrom(old(g.outputs), g.outputs, outputs)
      ensures old(g.outputCacheBytes) + Sum(outputs, OutputBytes) <= limits.maxAuxiliaryCacheBytes ==>
                g.outputs == old(g.outputs) + outputs
      ensures confirmedCache.Contents() == old(confirmedCache.Contents()).EvictTo(room)
      ensures RoomOk(room, old(g.outputCacheBytes), g.outputCacheBytes, outputs)
    {
      hide CacheOk, WorkOk, OutputsTrue, OutputsFor, AllOutputsTrue, Sum, MergedFrom, Shrunk;
      var todo := outputs.Keys;
      ghost var bytes0, maximum := g.outputCacheBytes, limits.maxAuxiliaryCacheBytes;
      ghost var cache0 := confirmedCache.Contents();
      SumEmpty(outputs - todo, OutputBytes);
      MergedNothing(g.outputs, outputs);
      confirmedCache.ContentsValid();
      room := maximum - bytes0;
      while todo != {}
        invariant todo <= outputs.Keys
        invariant CoreValid() && g.Settled() && UnderCeiling(g)
        invariant MergedFrom(old(g.outputs), g.outputs, outputs)
        invariant confirmedCache.Contents() == cache0.EvictTo(room)
        invariant SaturatingSub(maximum, bytes0 + Sum(outputs - todo, OutputBytes)) <= room <= maximum - g.outputCacheBytes
        invariant g.outputCacheBytes <= bytes0 + Sum(outputs - todo, OutputBytes)
        invariant bytes0 + Sum(outputs, OutputBytes) <= maximum ==> g.outputs == old(g.outputs) + (outputs - todo)
        decreases todo
      {
        var txid :| txid in todo;
        OutputsAt(outputs, txid, truth);
        OutputFor(outputs, g.variants, txid);
        MergeOne(outputs, todo, txid);
        MergedMore(old(g.outputs), g.outputs, outputs, txid);
        room := MergeOutput(g, txid, outputs[txid], cache0, room);
        todo := todo - {txid};
      }
      assert outputs - {} == outputs;
    }

    // One transaction's outputs, if they fit.
    method MergeOutput(g: Generation, txid: Txid, more: CachedOutputs, ghost cache0: Recency, ghost room0: nat)
      returns (ghost room: nat)
      requires CoreValid() && g.Settled() && Owns(g) && UnderCeiling(g)
      requires txid in g.variants && more.wtxid == g.variants[txid].wtxid && OutputsTrue(txid, more, truth)
      requires confirmedCache.Contents() == cache0.EvictTo(room0) && room0 <= limits.maxAuxiliaryCacheBytes - g.outputCacheBytes
      modifies g`outputs, g`outputCacheBytes, confirmedCache
      ensures CoreValid() && g.Settled() && UnderCeiling(g)
      ensures confirmedCache.Contents() == cache0.EvictTo(room)
      ensures room <= limits.maxAuxiliaryCacheBytes - g.outputCacheBytes
      ensures room == room0 || room == limits.maxAuxiliaryCacheBytes - g.outputCacheBytes
      ensures g.outputCacheBytes <= old(g.outputCacheBytes) + more.estimatedBytes
      ensures g.outputs == old(g.outputs) || g.outputs == old(g.outputs)[txid := more]
      ensures old(g.outputCacheBytes) + more.estimatedBytes <= limits.maxAuxiliaryCacheBytes ==>
                g.outputs == old(g.outputs)[txid := more]
    {
      hide CacheOk, WorkOk, OutputsTrue, Sum;
      ghost var maximum, next := limits.maxAuxiliaryCacheBytes, g.BytesWith(txid, more);
      g.InsertOutputs(confirmedCache, txid, more, limits.maxAuxiliaryCacheBytes);
      room := room0;
      if next <= maximum {
        EvictTwice(cache0, room0, maximum - next);
        room := if maximum - next <= room0 then maximum - next else room0;
      }
    }

    // At least what the old and the merged outputs leave together, and at most what is left now.
    ghost predicate RoomOk(room: nat, before: nat, after: nat, outputs: map<Txid, CachedOutputs>) {
      SaturatingSub(limits.maxAuxiliaryCacheBytes, before + Sum(outputs, OutputBytes)) <= room
      <= SaturatingSub(limits.maxAuxiliaryCacheBytes, after)
    }

    lemma OutputFor(outputs: map<Txid, CachedOutputs>, variants: Variants, txid: Txid)
      requires OutputsFor(outputs, variants) && txid in outputs
      ensures txid in variants && outputs[txid].wtxid == variants[txid].wtxid
    {
    }

    lemma MergedNothing(before: map<Txid, CachedOutputs>, outputs: map<Txid, CachedOutputs>)
      ensures MergedFrom(before, before, outputs)
    {
    }

    lemma MergedMore(
      before: map<Txid, CachedOutputs>, after: map<Txid, CachedOutputs>, outputs: map<Txid, CachedOutputs>, txid: Txid)
      requires MergedFrom(before, after, outputs) && txid in outputs
      ensures MergedFrom(before, after[txid := outputs[txid]], outputs)
    {
    }

    lemma MergeOne(outputs: map<Txid, CachedOutputs>, todo: set<Txid>, txid: Txid)
      requires txid in todo && todo <= outputs.Keys
      ensures Sum(outputs - (todo - {txid}), OutputBytes)
              == Sum(outputs - todo, OutputBytes) + outputs[txid].estimatedBytes
      ensures Sum(outputs - (todo - {txid}), OutputBytes) <= Sum(outputs, OutputBytes)
      ensures outputs - (todo - {txid}) == (outputs - todo)[txid := outputs[txid]]
    {
      hide Sum;
      var more := outputs - (todo - {txid});
      SumRemove(more, txid, OutputBytes);
      assert more - {txid} == outputs - todo;
      SumMonotone(more, outputs, OutputBytes);
    }

    /** Every script is offered to the cache once, beside the outputs. */
    method MergeScripts(g: Generation, scripts: map<OutPoint, Script>) returns (ghost order: seq<OutPoint>)
      requires CoreValid() && UnderCeiling(g) && AllScriptsTrue(scripts, truth)
      modifies confirmedCache
      ensures CoreValid() && UnderCeiling(g)
      ensures NoDuplicates(order) && forall o :: o in order <==> o in scripts
      ensures confirmedCache.Contents()
              == InsertEach(
                   old(confirmedCache.Contents()), order, scripts,
                   SaturatingSub(limits.maxAuxiliaryCacheBytes, g.outputCacheBytes))
    {
      hide CacheOk;
      var todo := scripts.Keys;
      order := [];
      while todo != {}
        invariant todo <= scripts.Keys
        invariant CoreValid() && UnderCeiling(g)
        invariant NoDuplicates(order) && forall o :: o in order <==> o in scripts && o !in todo
        invariant confirmedCache.Contents()
                  == InsertEach(
                       old(confirmedCache.Contents()), order, scripts,
                       SaturatingSub(limits.maxAuxiliaryCacheBytes, g.outputCacheBytes))
        decreases todo
      {
        var o :| o in todo;
        var admitted := confirmedCache.Insert(o, scripts[o], g.outputCacheBytes);
        assert (order + [o])[..|order|] == order;
        order := order + [o];
        todo := todo - {o};
      }
    }

    method MergeRecords(g: Generation, records: seq<Classified>)
      requires g.Settled() && RecordsOk(records, g.variants, g.absences, g.truth)
      modifies g`classifications
      ensures g.Settled()
      ensures g.classifications == InsertAll(old(g.classifications), records)
      ensures g.Published() == InsertView(old(g.Published()), records)
    {
      hide RecordSound, AllOutputsTrue, OutputsFor, Sum, Project;
      VariantsInjective(g.membership);
      ProjectInsert(g.classifications, g.variants, records);
      InsertAllOk(g.classifications, records, g.variants, g.absences, g.truth);
      ghost var table := g.classifications;
      var merged := g.classifications;
      assert records[..0] == [];
      for i := 0 to |records|
        invariant merged == InsertAll(table, records[..i])
      {
        InsertAllAppend(table, records[..i], records[i]);
        assert records[..i + 1] == records[..i] + [records[i]];
        merged := merged[records[i].expected.wtxid := records[i]];
      }
      assert records[..|records|] == records;
      g.classifications := merged;
    }

    /** Merges a slice into its generation, if that is still the current one. */
    method Commit(
      g: Generation, slice: PendingSlice?, advance: Advance, paused: bool, attempted: nat, env: Environment,
      ghost before: Progress, ghost fair: bool)
      returns (outcome: Outcome, ghost merged: Merged)
      requires Valid() && Honest(env, truth) && current == g && g.pending == null && Gathered(advance, g)
      requires slice != null ==> g.SliceOf(slice)
      requires fair ==> Advanced(g, slice, before) || (slice == null && g.Unstarted() == 0 && !paused)
      requires slice == null ==> advance.classifications == []
      modifies this`current, this`nextGeneration, confirmedCache, slice
      modifies g`classifications, g`outputs, g`outputCacheBytes, g`revision, g`pending
      ensures Valid() && g.Settled()
      ensures Quiet(env) ==> current == g
      ensures current != g <==> outcome.Finished? && outcome.report.disposition.Stale?
      ensures current != g ==>
                && outcome.report == StaleReport(g.id, attempted)
                && g.classifications == old(g.classifications) && g.outputs == old(g.outputs)
                && g.outputCacheBytes == old(g.outputCacheBytes) && g.revision == old(g.revision) && g.pending == null
                && KeptSince(g, old(SharedState()), env) && fresh(current)
                && (slice != null ==> slice.facts == old(slice.facts) && slice.active == old(slice.active))
      ensures outcome.RevisionOverflow? ==>
                g.revision == old(g.revision) == U64_MAX && advance.classifications != [] && g.pending == null
      ensures g.revision != old(g.revision) ==> old(g.revision) != U64_MAX
      ensures current == g ==>
                merged.looked == old(SharedState()) && merged.advance == advance && MergedBy(merged, g)
      ensures outcome.Finished? && current == g ==>
                && ReportOk(outcome.report, g, paused, attempted)
                && Changed(outcome.report) == advance.classifications
                && g.classifications == InsertAll(old(g.classifications), advance.classifications)
                && g.Published() == InsertView(old(g.Published()), advance.classifications)
                && g.revision == old(g.revision) + (if advance.classifications == [] then 0 else 1)
                && g.pending == (if slice == null || slice.IsEmpty() then null else slice)
                && (slice != null && NoneSpent(old(slice.facts)) ==> g.Unspent())
                && (slice != null ==> slice.View() == old(slice.View()).(facts := slice.facts))
                && outcome.report.disposition.Paused? == paused && outcome.report.attempted == attempted
                && (fair && !outcome.report.disposition.Complete? ==> g.Remaining().Below(before))
    {
      hide CacheOk, WorkOk, SliceOk, HistoryOk, AccountOk, KeptBy, Honest, Quiet, InsertAll, InsertView, Project,
           AdvanceOk, AllScriptsTrue, NoneSpent, AfterInstalls, MergedFrom, InsertEach, Sum;
      merged := Merged(SharedState(), advance, 0, []);
      Interfere(env, BEFORE_MERGE);
      if current != g {
        return Finished(StaleReport(g.id, attempted)), merged;
      }
      outcome, merged := CommitCurrent(g, slice, advance, paused, attempted, before, fair);
    }

    method CommitCurrent(
      g: Generation, slice: PendingSlice?, advance: Advance, paused: bool, attempted: nat, ghost before: Progress,
      ghost fair: bool)
      returns (outcome: Outcome, ghost merged: Merged)
      requires Valid() && current == g && g.pending == null && Gathered(advance, g)
      requires slice != null ==> g.SliceOf(slice)
      requires slice == null ==> advance.classifications == []
      requires fair ==> Advanced(g, slice, before) || (slice == null && g.Unstarted() == 0 && !paused)
      modifies confirmedCache, slice
      modifies g`classifications, g`outputs, g`outputCacheBytes, g`revision, g`pending
      ensures Valid()
      ensures outcome.Finished? ==> !outcome.report.disposition.Stale?
      ensures outcome.RevisionOverflow? ==>
                g.revision == old(g.revision) == U64_MAX && advance.classifications != [] && g.pending == null
      ensures g.revision != old(g.revision) ==> old(g.revision) != U64_MAX
      ensures merged.looked == old(SharedState()) && merged.advance == advance && MergedBy(merged, g)
      ensures outcome.Finished? ==>
                && ReportOk(outcome.report, g, paused, attempted)
                && Changed(outcome.report) == advance.classifications
                && g.classifications == InsertAll(old(g.classifications), advance.classifications)
                && g.Published() == InsertView(old(g.Published()), advance.classifications)
                && g.revision == old(g.revision) + (if advance.classifications == [] then 0 else 1)
                && g.pending == (if slice == null || slice.IsEmpty() then null else slice)
                && (slice != null && NoneSpent(old(slice.facts)) ==> g.Unspent())
                && (slice != null ==> slice.View() == old(slice.View()).(facts := slice.facts))
                && outcome.report.disposition.Paused? == paused && outcome.report.attempted == attempted
                && (fair && !outcome.report.disposition.Complete? ==> g.Remaining().Below(before))
    {
      hide CacheOk, WorkOk, SliceOk, HistoryOk, AccountOk, InsertAll, InsertView, Project, AdvanceOk, AllScriptsTrue,
           NoneSpent, UnstartedIn, ReportOk, MergedFrom, InsertEach, Sum;
      ghost var table := g.classifications;
      merged := MergeAdvance(g, advance);
      if advance.classifications != [] && g.revision == U64_MAX {
        return RevisionOverflow, merged;
      }
      CountRevision(g, advance.classifications != []);
      var report := StoreSlice(g, slice, advance.classifications, paused, attempted, before, table, fair);
      outcome := Finished(report);
    }

    // What is left of a merged slice stays pending; the report says what is left to do.
    method StoreSlice(
      g: Generation, slice: PendingSlice?, records: seq<Classified>, paused: bool, attempted: nat, ghost before: Progress,
      ghost table: Table, ghost fair: bool)
      returns (report: Report)
      requires Valid() && current == g && g.pending == null
      requires slice != null ==> g.SliceOf(slice)
      requires slice == null ==> records == []
      requires g.classifications == InsertAll(table, records)
      requires fair ==>
                 || Advanced(g, slice, before)
                 || (slice == null && UnstartedIn(g.membership, g.attempted, table) == 0 && !paused)
      modifies confirmedCache, slice, g`pending
      ensures Valid() && g.Settled()
      ensures confirmedCache.Contents().scripts == old(confirmedCache.Contents().scripts)
      ensures ReportOk(report, g, paused, attempted) && Changed(report) == records && !report.disposition.Stale?
      ensures g.pending == (if slice == null || slice.IsEmpty() then null else slice)
      ensures slice != null && NoneSpent(old(slice.facts)) ==> g.Unspent()
      ensures slice != null ==> slice.View() == old(slice.View()).(facts := slice.facts)
      ensures report.disposition.Paused? == paused && report.attempted == attempted
      ensures fair && !report.disposition.Complete? ==> g.Remaining().Below(before)
    {
      hide CacheOk, WorkOk, SliceOk, HistoryOk, AccountOk, InsertAll, AllScriptsTrue, NoneSpent, UnstartedIn;
      ghost var budget := g.Remaining().budget;
      if slice != null && !slice.IsEmpty() {
        StorePending(g, slice);
      }
      report := MakeReport(g, records, paused, attempted);
      Conclude(g, slice, records, before, table, budget, report, paused, attempted, fair);
    }

    // A slice that classified anything is the generation's next revision.
    method CountRevision(g: Generation, changed: bool)
      requires Valid() && current == g && g.pending == null
      modifies g`revision
      ensures Valid() && g.revision == old(g.revision) + (if changed then 1 else 0)
      ensures g.Remaining() == old(g.Remaining())
    {
      hide CacheOk, WorkOk;
      if changed {
        g.revision := g.revision + 1;
      }
    }

    // What a merge did to the table, the outputs and the cache; the lookups after it only reorder the cache.
    ghost predicate MergedBy(merged: Merged, g: Generation)
      reads this, g, confirmedCache
    {
      && AdvanceOk(merged.advance, g.variants, g.absences, truth)
      && g.membership == merged.looked.membership
      && g.classifications == InsertAll(merged.looked.table, merged.advance.classifications)
      && MergedFrom(merged.looked.outputs, g.outputs, merged.advance.outputs)
      && RoomOk(
           merged.room, Sum(merged.looked.outputs, OutputBytes), Sum(g.outputs, OutputBytes), merged.advance.outputs)
      && NoDuplicates(merged.order) && (forall o :: o in merged.order <==> o in merged.advance.confirmedScripts)
      && confirmedCache.Contents().scripts
         == InsertEach(
              merged.looked.cache.EvictTo(merged.room), merged.order, merged.advance.confirmedScripts,
              SaturatingSub(limits.maxAuxiliaryCacheBytes, Sum(g.outputs, OutputBytes))).scripts
    }

    /** Outputs first, then confirmed scripts, then records. */
    method MergeAdvance(g: Generation, advance: Advance) returns (ghost merged: Merged)
      requires Valid() && current == g && g.pending == null && Gathered(advance, g)
      modifies confirmedCache, g`classifications, g`outputs, g`outputCacheBytes
      ensures Valid()
      ensures merged.looked == old(SharedState()) && merged.advance == advance && MergedBy(merged, g)
      ensures g.Published() == InsertView(old(g.Published()), advance.classifications)
    {
      hide CacheOk, WorkOk, MergedFrom, InsertEach, InsertAll, InsertView, Project, OutputsFor, AllOutputsTrue,
           AllScriptsTrue, RecordsOk, Sum;
      ghost var looked := SharedState();
      OutputBytesOf(g);
      ghost var room := MergeOutputs(g, advance.outputs);
      OutputBytesOf(g);
      ghost var order := MergeScripts(g, advance.confirmedScripts);
      MergeRecords(g, advance.classifications);
      merged := Merged(looked, advance, room, order);
    }

    method StorePending(g: Generation, slice: PendingSlice)
      requires Running(g, slice) && current == g && !slice.IsEmpty()
      modifies confirmedCache, slice, g`pending
      ensures Valid() && g.pending == slice
      ensures confirmedCache.Contents().scripts == old(confirmedCache.Contents().scripts)
      ensures slice.Work().AtMost(old(slice.Work())) && (NoneSpent(old(slice.facts)) ==> NoneSpent(slice.facts))
      ensures !slice.IsEmpty() && slice.View() == old(slice.View()).(facts := slice.facts)
      ensures CachesDelivered(old(slice.View()), slice.facts, slice, g.outputs, old(confirmedCache.Contents().scripts))
    {
      hide CacheOk, WorkOk, SliceOk, HistoryOk, AccountOk, AllScriptsTrue, NoneSpent, CachesDelivered, Booked;
      Hydrate(g, slice);
      g.pending := slice;
    }

    function MakeReport(g: Generation, records: seq<Classified>, paused: bool, attempted: nat): Report
      reads g, g.pending
    {
      var remaining := g.Unstarted() + (if g.pending == null then 0 else g.pending.CandidateCount());
      Report(
        g.id, attempted, |records|, |g.classifications|, remaining,
        if paused then Paused else if remaining == 0 then Complete else Continue,
        if records == [] then None else Some(Delta(g.id, g.revision, records)))
    }

    // --- one slice -----------------------------------------------------------------

    /** Delivers what the caches know, classifies, and fills the window. Every candidate
        whose facts are terminal by then has its record in what is gathered. */
    method BeginSlice(g: Generation, slice: PendingSlice, advance0: Advance, env: Environment)
      returns (superseded: bool, advance: Advance, ghost hydrated: Facts)
      requires Running(g, slice) && current == g && Honest(env, truth) && Gathered(advance0, g)
      requires slice.CandidateCount() > 0
      modifies this`current, this`nextGeneration, confirmedCache, slice
      ensures Running(g, slice) && Gathered(advance, g)
      ensures superseded <==> current != g
      ensures KeptSince(g, old(SharedState()), env) && (current == g || fresh(current))
      ensures Quiet(env) ==> !superseded
      ensures slice.Work().AtMost(old(slice.Work())) && (NoneSpent(old(slice.facts)) ==> NoneSpent(slice.facts))
      ensures !superseded ==> slice.Work().Below(old(slice.Work())) || slice.active != map[]
      ensures !superseded ==> WindowFilled(slice)
      ensures SliceBooked(slice, old(slice.View()), advance0.classifications, advance.classifications)
      ensures advance == advance0.(classifications := advance.classifications)
      ensures slice.deferredFacts == old(slice.deferredFacts) && NoneOlder(old(slice.facts), slice.facts)
      ensures !superseded ==>
                && CachesDelivered(old(slice.View()), hydrated, slice, g.outputs, old(confirmedCache.Contents().scripts))
                && AllRecorded(old(slice.active), hydrated, advance0.classifications, advance.classifications)
    {
      hide CacheOk, WorkOk, SliceOk, HistoryOk, AccountOk, KeptBy, Honest, Quiet, AdvanceOk, NoneSpent, RecordsOk,
           AfterInstalls, Touched, Booked, CachesDelivered, NoneOlder, RecordKeys, WindowFilled, AllRecorded,
           IsTerminal, OutputsFor, AllOutputsTrue;
      superseded, advance, hydrated := false, advance0, slice.facts;
      SliceBookedNow(slice, advance0.classifications);
      OlderSelf(slice.facts);
      Interfere(env, BEFORE_CACHES);
      if current != g {
        superseded := true;
        return;
      }
      var classified;
      classified, hydrated := HydrateAndClassify(g, slice);
      KeptIf(g, old(SharedState()), env);
      advance := Append(advance, classified, g.variants, g.absences);
      AppendedRecorded(old(slice.active), hydrated, advance0.classifications, classified);
      SliceBookedStep(
        slice, old(slice.View()), old(slice.View()), advance0.classifications, advance0.classifications, classified);
      Fill(g, slice, old(slice.View()), advance0.classifications, advance.classifications);
    }

    // Waiting candidates enter while they fit.
    method Fill(
      g: Generation, slice: PendingSlice, ghost before: SliceView, ghost records0: seq<Classified>,
      ghost records: seq<Classified>)
      requires g.Settled() && g.SliceOf(slice)
      requires SliceBooked(slice, before, records0, records)
      modifies slice`queued, slice`active, slice`fairOrder, slice`facts, slice`pendingScriptBytes
      ensures g.SliceOf(slice) && WindowFilled(slice) && (slice.queued != [] ==> slice.active != map[])
      ensures slice.Work().AtMost(old(slice.Work())) && (NoneSpent(old(slice.facts)) ==> NoneSpent(slice.facts))
      ensures slice.active == map[] ==> slice.Work().candidates == 0
      ensures SliceBooked(slice, before, records0, records)
      ensures NoneOlder(before.facts, old(slice.facts)) ==> NoneOlder(before.facts, slice.facts)
    {
      hide SliceOk, HistoryOk, AccountOk, WorkOk, NoneSpent, GrownFrom, IsSuffix, Needed, Booked, NoneOlder;
      ghost var middle, facts1 := slice.View(), slice.facts;
      slice.ActivateWaiting();
      EmptyWindow(slice);
      if NoneOlder(before.facts, facts1) {
        GrownOlder(before.facts, facts1, slice.facts, slice.deferredFacts, slice.variants);
      }
      BookedAfter(
        slice.origin, middle, slice.View(), records, [], slice.truth, slice.limits.maxPendingScriptBytes);
      assert records + [] == records;
      SliceBookedMore(slice, before, middle, records0, records, records);
    }

    lemma EmptyWindow(slice: PendingSlice)
      requires slice.queued != [] ==> slice.active != map[]
      ensures slice.active == map[] ==> slice.Work().candidates == 0
    {
    }

    /** One wave of each kind, unless fact waves are paused. When no fact had spent its
        attempts, then either a wave was asked for or the waves are dry. */
    method RunWaves(g: Generation, slice: PendingSlice, advance0: Advance, paused0: bool, env: Environment)
      returns (superseded: bool, paused: bool, advance: Advance, ghost asked: Asked)
      requires Running(g, slice) && current == g && Honest(env, truth) && Gathered(advance0, g)
      modifies this`current, this`nextGeneration, confirmedCache, g`absences, slice
      ensures Valid() && Owns(g) && g.Settled() && g.pending == null
      ensures superseded <==> current != g
      ensures KeptSince(g, old(SharedState()), env) && (current == g || fresh(current))
      ensures !superseded ==> Running(g, slice) && Gathered(advance, g)
      ensures Calm(env) && !paused0 ==> !paused
      ensures Quiet(env) ==> !superseded
      ensures paused0 ==> paused
      ensures slice.Work().AtMost(old(slice.Work()))
      ensures !superseded ==>
                && WavesGained(asked, paused0, paused, advance0, advance, env)
                && advance.classifications == advance0.classifications
                && slice.Kept(old(slice.View()), []) && CursorsMoved(old(slice.active), slice.active)
                && ParentsReached(slice.facts, asked.outputs) && PrevoutsReached(slice.facts, asked.scripts)
                && LastAttempts(old(slice.facts), old(slice.deferredFacts), slice.deferredFacts)
      ensures NoneSpent(old(slice.facts)) && !superseded ==>
                && (!paused ==> NoneSpent(slice.facts))
                && (paused0 || slice.Work().Below(old(slice.Work()))
                    || (slice.WavesDry() && slice.active.Keys == old(slice.active.Keys)))
    {
      hide CacheOk, WorkOk, SliceOk, HistoryOk, AccountOk, KeptBy, Honest, Quiet, NoneSpent, RecordsOk, AllOutputsTrue,
           AllScriptsTrue, OutputsFor, ParentsAnswered, PrevoutsAnswered, PrevoutsSpare, ParentWaveOk, WaveOk, Calm,
           AbsencesOf, Touched, Booked, LastAttempts, LastConfirmed, NoneOlderConfirmed, OutputsOfFound, ParentsGained,
           PrevoutsGained,
           ParentsSettled, ParentsFit, Fair, AdvanceOk, ParentsReached, PrevoutsReached;
      ghost var before, facts0 := SharedState(), slice.facts;
      asked := Asked([], [], map[], map[]);
      var scripts;
      ghost var parents, outputs, prevouts, owners;
      superseded, paused, advance, parents, outputs := ParentWave(g, slice, advance0, paused0, env);
      if superseded {
        return;
      }
      KeptTouched(g, before, env);
      ghost var view, facts1, deferred1, bytes1 := slice.View(), slice.facts, slice.deferredFacts, slice.pendingScriptBytes;
      ghost var middle, absences1 := SharedState(), g.absences;
      superseded, paused, scripts, prevouts, owners := ResolvePrevouts(g, slice, paused, env);
      KeptOn(g, before, middle, env);
      if superseded {
        return;
      }
      AdvanceMore(advance, g.variants, absences1, g.absences, scripts);
      advance := advance.(confirmedScripts := advance.confirmedScripts + scripts);
      asked := Asked(parents, prevouts, outputs, scripts);
      NothingReached(slice.facts);
      if prevouts != [] {
        PrevoutsReach(
          facts1, slice.facts, prevouts, env.prevouts(prevouts).values, scripts, bytes1, slice.pendingScriptBytes,
          slice.limits.maxPendingScriptBytes, outputs);
      }
      BookedMore(
        slice.origin, old(slice.View()), view, slice.View(), [], [], [], slice.truth,
        slice.limits.maxPendingScriptBytes);
      LastOfBoth(facts0, facts1, old(slice.deferredFacts), deferred1, slice.deferredFacts);
      if NoneSpent(facts0) {
        DryWaves(facts0, slice);
      }
    }

    // One wave of mempool parents; the outputs of those that were found are gathered.
    method ParentWave(g: Generation, slice: PendingSlice, advance0: Advance, paused0: bool, env: Environment)
      returns (
        superseded: bool, paused: bool, advance: Advance, ghost wave: seq<ExpectedVariant>,
        ghost gained: map<Txid, CachedOutputs>)
      requires Running(g, slice) && current == g && Honest(env, truth) && Gathered(advance0, g)
      modifies this`current, this`nextGeneration, confirmedCache, slice
      ensures Valid() && Owns(g) && g.Settled() && g.pending == null
      ensures superseded <==> current != g
      ensures KeptSince(g, old(SharedState()), env) && (current == g || fresh(current))
      ensures !superseded ==> Running(g, slice) && Gathered(advance, g)
      ensures Calm(env) && !paused0 ==> !paused
      ensures Quiet(env) ==> !superseded
      ensures slice.Work().AtMost(old(slice.Work()))
      ensures !superseded ==>
                && ParentsGained(wave, gained, env) && ParentsReached(slice.facts, gained)
                && CursorsMoved(old(slice.active), slice.active)
                && advance == advance0.(outputs := advance0.outputs + gained)
                && paused == (paused0 || (wave != [] && env.parents(wave).systemic))
                && slice.Kept(old(slice.View()), [])
                && LastAttempts(old(slice.facts), old(slice.deferredFacts), slice.deferredFacts)
                && NoneOlderConfirmed(old(slice.facts), slice.facts)
                && (NoneSpent(old(slice.facts)) && !paused ==> NoneSpent(slice.facts))
      ensures paused0 ==> wave == []
      ensures wave != [] ==> slice.Work().Below(old(slice.Work()))
      ensures wave == [] ==>
                && paused == paused0 && slice.facts == old(slice.facts)
                && slice.pendingScriptBytes == old(slice.pendingScriptBytes)
                && slice.active.Keys == old(slice.active.Keys)
                && (paused0 || !slice.HasPendingScriptCapacity()
                    || forall o :: o in slice.facts ==> !slice.facts[o].ParentEligible())
    {
      hide CacheOk, WorkOk, SliceOk, HistoryOk, AccountOk, KeptBy, Honest, Quiet, NoneSpent, RecordsOk, AllOutputsTrue,
           AllScriptsTrue, OutputsFor, ParentsAnswered, ParentWaveOk, Calm, AbsencesOf, Touched, Booked, LastAttempts,
           NoneOlderConfirmed, OutputsOfFound, ParentsGained, ParentsSettled, ParentsFit, AdvanceOk, ParentsReached,
           CursorsMoved;
      advance := advance0;
      var outputs;
      ghost var applied;
      superseded, paused, outputs, wave, applied := ResolveParents(g, slice, paused0, env);
      gained := outputs;
      if superseded {
        return;
      }
      AdvanceOutputs(advance, g.variants, g.absences, outputs);
      advance := advance.(outputs := advance.outputs + outputs);
    }

    lemma AdvanceOutputs(
      advance: Advance, variants: Variants, absences: set<OutPoint>, outputs: map<Txid, CachedOutputs>)
      requires AdvanceOk(advance, variants, absences, truth)
      requires AllOutputsTrue(outputs, truth) && OutputsFor(outputs, variants)
      ensures AdvanceOk(advance.(outputs := advance.outputs + outputs), variants, absences, truth)
    {
      hide RecordsOk, AllScriptsTrue, AllOutputsTrue, OutputsFor;
      MergedOutputs(advance.outputs, outputs, variants, truth);
    }

    lemma AdvanceMore(
      advance: Advance, variants: Variants, absences: set<OutPoint>, more: set<OutPoint>, scripts: map<OutPoint, Script>)
      requires AdvanceOk(advance, variants, absences, truth) && absences <= more && AllScriptsTrue(scripts, truth)
      ensures AdvanceOk(advance.(confirmedScripts := advance.confirmedScripts + scripts), variants, more, truth)
    {
      RecordsOkMore(advance.classifications, variants, absences, more, truth);
    }

    lemma DryWaves(facts: Facts, slice: PendingSlice)
      requires NoneSpent(facts)
      ensures || slice.facts != facts
              || !slice.HasPendingScriptCapacity()
              || (exists o :: o in slice.facts && (slice.facts[o].ParentEligible() || slice.facts[o].ConfirmedEligible()))
              || slice.WavesDry()
    {
      if forall o :: o in slice.facts ==> !slice.facts[o].ParentEligible() && !slice.facts[o].ConfirmedEligible() {
        if slice.facts == facts {
          NothingAwaiting(slice.facts);
        }
      }
    }

    /** Advances a slice by one wave of each kind. Unless some fact had spent its
        attempts, this makes progress, whatever the answers are. */
    method AdvanceSlice(g: Generation, slice: PendingSlice, advance0: Advance, paused0: bool, env: Environment)
      returns (
        superseded: bool, paused: bool, advance: Advance, ghost hydrated: Facts, ghost asked: Asked,
        ghost answered: SliceView)
      requires Running(g, slice) && current == g && Honest(env, truth) && Gathered(advance0, g)
      requires slice.CandidateCount() > 0
      modifies this`current, this`nextGeneration, confirmedCache, g`absences, slice
      ensures Valid() && Owns(g) && g.Settled() && g.pending == null
      ensures superseded <==> current != g
      ensures KeptSince(g, old(SharedState()), env) && (current == g || fresh(current))
      ensures !superseded ==> Running(g, slice) && Gathered(advance, g)
      ensures Calm(env) && !paused0 ==> !paused
      ensures Quiet(env) ==> !superseded
      ensures paused0 ==> paused
      ensures !superseded ==> slice.Work().AtMost(old(slice.Work()))
      ensures NoneSpent(old(slice.facts)) && !superseded ==>
                (!paused ==> NoneSpent(slice.facts)) && (paused0 || slice.Work().Below(old(slice.Work())))
      ensures !superseded ==>
                && SliceBooked(slice, old(slice.View()), advance0.classifications, advance.classifications)
                && LastAttempts(old(slice.facts), old(slice.deferredFacts), slice.deferredFacts)
                && CachesDelivered(old(slice.View()), hydrated, slice, g.outputs, old(confirmedCache.Contents().scripts))
                && AllRecorded(old(slice.active), hydrated, advance0.classifications, advance.classifications)
                && WavesGained(asked, paused0, paused, advance0, advance, env)
                && AnswersRecorded(slice, old(slice.View()), asked, answered, advance0.classifications, advance.classifications)
    {
      hide WindowFilled, CacheOk, WorkOk, SliceOk, HistoryOk, AccountOk, KeptBy, Honest, Quiet, AdvanceOk, NoneSpent,
           Calm, AbsencesOf, AllScriptsTrue, Touched, Booked, LastAttempts, CachesDelivered, AllRecorded, WavesGained,
           NoneOlder, WavesAnswered, AnswersRecorded;
      ghost var before := SharedState();
      paused, asked, answered := paused0, Asked([], [], map[], map[]), slice.View();
      superseded, advance, hydrated := BeginSlice(g, slice, advance0, env);
      if superseded {
        return;
      }
      KeptTouched(g, before, env);
      ghost var middle := SharedState();
      ghost var view1, advance1, records1, facts1 := slice.View(), advance, advance.classifications, slice.facts;
      superseded, paused, advance, asked, answered := WavesAndSettle(g, slice, advance, paused, env);
      KeptOn(g, before, middle, env);
      if superseded {
        return;
      }
      LastSince(old(slice.facts), facts1, old(slice.deferredFacts), slice.deferredFacts);
      SliceBookedMore(
        slice, old(slice.View()), view1, advance0.classifications, records1, advance.classifications);
      RecordedLater(old(slice.active), hydrated, advance0.classifications, records1, advance.classifications);
      AnsweredSince(
        slice, old(slice.View()), view1, asked, answered, advance0.classifications, records1, advance.classifications);
      SameGains(asked, paused0, paused, advance0, advance1, advance, advance, env);
    }

    // One wave of each kind, and what follows from the answers.
    method WavesAndSettle(g: Generation, slice: PendingSlice, advance0: Advance, paused0: bool, env: Environment)
      returns (superseded: bool, paused: bool, advance: Advance, ghost asked: Asked, ghost answered: SliceView)
      requires Running(g, slice) && current == g && Honest(env, truth) && Gathered(advance0, g)
      modifies this`current, this`nextGeneration, confirmedCache, g`absences, slice
      ensures Valid() && Owns(g) && g.Settled() && g.pending == null
      ensures superseded <==> current != g
      ensures KeptSince(g, old(SharedState()), env) && (current == g || fresh(current))
      ensures !superseded ==> Running(g, slice) && Gathered(advance, g)
      ensures Calm(env) && !paused0 ==> !paused
      ensures Quiet(env) ==> !superseded
      ensures paused0 ==> paused
      ensures !superseded ==> slice.Work().AtMost(old(slice.Work()))
      ensures NoneSpent(old(slice.facts)) && !superseded ==>
                && (!paused ==> NoneSpent(slice.facts))
                && (paused0 || slice.Work().Below(old(slice.Work())) || old(slice.active) == map[])
      ensures !superseded ==>
                && SliceBooked(slice, old(slice.View()), advance0.classifications, advance.classifications)
                && advance0.classifications <= advance.classifications
                && WavesAnswered(
                     slice, old(slice.View()), asked, answered, advance0.classifications, advance.classifications)
                && LastAttempts(old(slice.facts), old(slice.deferredFacts), slice.deferredFacts)
                && WavesGained(asked, paused0, paused, advance0, advance, env)
    {
      hide WindowFilled, CacheOk, WorkOk, SliceOk, HistoryOk, AccountOk, KeptBy, Honest, Quiet, AdvanceOk, NoneSpent,
           Calm, AbsencesOf, AllScriptsTrue, Touched, Booked, LastAttempts, WavesGained, AllRecorded, ParentsReached,
           PrevoutsReached, CursorsMoved, Roomy, NoneBlocked, WavesAnswered;
      ghost var before := SharedState();
      answered := slice.View();
      superseded, paused, advance, asked := RunWaves(g, slice, advance0, paused0, env);
      if superseded {
        return;
      }
      KeptTouched(g, before, env);
      ghost var middle, view1, advance1 := SharedState(), slice.View(), advance;
      answered := view1;
      var stillCurrent;
      stillCurrent, advance := Settle(g, slice, advance, env);
      KeptOn(g, before, middle, env);
      superseded := !stillCurrent;
      SettledBooked(slice, old(slice.View()), view1, asked, advance0.classifications, advance.classifications);
      SameGains(asked, paused0, paused, advance0, advance0, advance1, advance, env);
    }

    lemma SettledBooked(
      slice: PendingSlice, before: SliceView, middle: SliceView, asked: Asked, records0: seq<Classified>,
      records: seq<Classified>)
      requires Booked(slice.origin, before, middle, [], [], slice.truth, slice.limits.maxPendingScriptBytes)
      requires SliceBooked(slice, middle, records0, records)
      requires CursorsMoved(before.active, middle.active)
      requires ParentsReached(middle.facts, asked.outputs) && PrevoutsReached(middle.facts, asked.scripts)
      requires AllRecorded(middle.active, middle.facts, records0, records)
      ensures SliceBooked(slice, before, records0, records) && records0 <= records
      ensures WavesAnswered(slice, before, asked, middle, records0, records)
    {
      hide ParentsReached, PrevoutsReached, CursorsMoved, FitTogether, NoneBlocked, IsTerminal, Recorded, RecordKeys;
      BookedAfter(
        slice.origin, before, middle, records0, [], slice.truth, slice.limits.maxPendingScriptBytes);
      assert records0 + [] == records0;
      SliceBookedMore(slice, before, middle, records0, records0, records);
    }

    /** One slice of the current generation. When its generation is replaced, nothing
        that generations share is changed by it. Otherwise it makes progress, whatever
        the answers are, unless a pending fact had spent its attempts; and without
        systemic failures it leaves none that has. */
    method RunSlice(g: Generation, env: Environment) returns (outcome: Outcome, ghost merged: Merged, ghost trace: Trace)
      requires Valid() && Honest(env, truth) && current == g
      modifies this`current, this`nextGeneration, confirmedCache, g, g.pending
      ensures Valid() && g.Settled()
      ensures Calm(env) && outcome.Finished? ==> !outcome.report.disposition.Paused?
      ensures Quiet(env) ==> current == g
      ensures current != g <==> outcome.Finished? && outcome.report.disposition.Stale?
      ensures current != g ==>
                && outcome.report.publication.None? && outcome.report.generation == g.id
                && g.classifications == old(g.classifications) && g.outputs == old(g.outputs)
                && g.outputCacheBytes == old(g.outputCacheBytes) && g.revision == old(g.revision) && g.pending == null
                && KeptSince(g, old(SharedState()), env) && fresh(current)
      ensures outcome.RevisionOverflow? ==> g.revision == old(g.revision) == U64_MAX && g.pending == null
      ensures g.revision != old(g.revision) ==> old(g.revision) != U64_MAX
      ensures g.pending == null || g.pending == old(g.pending) || fresh(g.pending)
      ensures current == g ==> Touched(old(SharedState()), merged.looked) && MergedBy(merged, g)
      ensures outcome.Finished? && current == g ==>
                && ReportOk(outcome.report, g, outcome.report.disposition.Paused?, outcome.report.attempted)
                && Changed(outcome.report) == merged.advance.classifications
                && SliceTraced(
                     trace, old(g.pending), old(ViewOf(g.pending)), old(g.outputs), old(confirmedCache.Contents().scripts),
                     outcome.report.disposition.Paused?, merged.advance, env)
                && EndsIn(trace, g.pending)
                && outcome.report.attempted == |trace.chosen|
                && (old(g.pending) == null ==>
                      LongestWithin(trace.chosen, old(g.Eligible()), limits.maxTransactionsPerSlice))
                && g.Published() == InsertView(old(g.Published()), Changed(outcome.report))
                && g.revision == old(g.revision) + (if Changed(outcome.report) == [] then 0 else 1)
                && (old(g.Unspent()) ==>
                      && (!outcome.report.disposition.Paused? ==> g.Unspent())
                      && (!outcome.report.disposition.Complete? ==> g.Remaining().Below(old(g.Remaining()))))
    {
      hide CacheOk, WorkOk, SliceOk, HistoryOk, AccountOk, KeptBy, Honest, Quiet, AdvanceOk, NoneSpent, InsertAll,
           InsertView, Project, ReportOk, AllScriptsTrue, Calm, UnstartedIn, Touched, MergedFrom, InsertEach, Sum,
           SliceTraced, EndsIn, RecordsOk, OutputsFor, AllOutputsTrue, LongestWithin;
      ghost var before := SharedState();
      merged := Merged(before, Advance([], map[], map[]), 0, []);
      var superseded, slice, advance, paused, attempted;
      superseded, slice, advance, paused, attempted, trace := GatherSlice(g, env);
      if superseded {
        return Finished(StaleReport(g.id, attempted)), merged, trace;
      }
      KeptTouched(g, before, env);
      ghost var middle := SharedState();
      outcome, merged := Commit(g, slice, advance, paused, attempted, env, old(g.Remaining()), old(g.Unspent()));
      if current == g && outcome.Finished? {
        EndsAs(trace, slice, g.pending);
      }
      if current != g {
        KeptOn(g, before, middle, env);
      }
    }

    // What is not empty stays pending.
    lemma EndsAs(trace: Trace, slice: PendingSlice?, pending: PendingSlice?)
      requires trace.slice == slice && pending == (if slice == null || slice.IsEmpty() then null else slice)
      requires slice != null ==> slice.View() == trace.end.(facts := slice.facts)
      ensures EndsIn(trace, pending)
    {
      if slice != null {
        HeldNothing(slice.active, slice.queued);
      }
    }

    lemma HeldNothing(active: Candidates, queued: seq<Prepared>)
      ensures HeldKeys(active, queued) == {} <==> active == map[] && queued == []
    {
      ActiveHeld(active, queued);
      if queued != [] {
        assert queued[0] in queued;
        assert queued[0].expected.wtxid in HeldKeys(active, queued);
      }
    }

    // A slice that was merged and is not the last left less to do.
    lemma Conclude(
      g: Generation, slice: PendingSlice?, records: seq<Classified>, before: Progress, table: Table, budget: nat,
      report: Report, paused: bool, attempted: nat, fair: bool)
      requires g.Settled() && g.Remaining().budget == budget && ReportOk(report, g, paused, attempted)
      requires g.pending == (if slice == null || slice.IsEmpty() then null else slice)
      requires g.classifications == InsertAll(table, records) && (slice == null ==> records == [])
      requires fair ==>
                 || Progress(budget, if slice == null then Measure(0, 0, 0) else slice.Work()).Below(before)
                 || (slice == null && UnstartedIn(g.membership, g.attempted, table) == 0 && !paused)
      ensures report.disposition.Paused? == paused && report.attempted == attempted
      ensures fair && !report.disposition.Complete? ==> g.Remaining().Below(before)
    {
      hide WorkOk, UnstartedIn;
      if fair && Progress(budget, if slice == null then Measure(0, 0, 0) else slice.Work()).Below(before) {
        Finish(g, slice, before, budget);
      }
    }

    // What a commit leaves is no more than what was gathered.
    lemma Finish(g: Generation, slice: PendingSlice?, before: Progress, budget: nat)
      requires g.Settled() && g.Remaining().budget == budget
      requires g.pending == (if slice == null || slice.IsEmpty() then null else slice)
      requires Progress(budget, if slice == null then Measure(0, 0, 0) else slice.Work()).Below(before)
      ensures g.Remaining().Below(before)
    {
    }

    /** Everything of a slice before the merge: nothing that readers or other
        generations see is changed. */
    method GatherSlice(g: Generation, env: Environment)
      returns (
        superseded: bool, slice: PendingSlice?, advance: Advance, paused: bool, attempted: nat, ghost trace: Trace)
      requires Valid() && Honest(env, truth) && current == g
      modifies this`current, this`nextGeneration, confirmedCache, g.pending
      modifies g`attempted, g`selections, g`rawRetryUsed, g`absences, g`pending
      ensures Valid() && g.Settled() && g.pending == null
      ensures superseded <==> current != g
      ensures KeptSince(g, old(SharedState()), env) && (current == g || fresh(current))
      ensures Calm(env) ==> !paused
      ensures Quiet(env) ==> !superseded
      ensures slice == old(g.pending) || fresh(slice)
      ensures !superseded ==>
                && Gathered(advance, g) && (slice != null ==> g.SliceOf(slice))
                && (slice == null ==> advance.classifications == [])
                && SliceTraced(
                     trace, old(g.pending), old(ViewOf(g.pending)), old(g.outputs), old(confirmedCache.Contents().scripts),
                     paused, advance, env)
                && trace.slice == slice && (slice != null ==> trace.end == slice.View())
      ensures attempted == |trace.chosen|
      ensures old(g.pending) == null ==>
                LongestWithin(trace.chosen, old(g.Eligible()), limits.maxTransactionsPerSlice)
      ensures old(g.Unspent()) && !superseded ==>
                && (Advanced(g, slice, old(g.Remaining())) || (slice == null && g.Unstarted() == 0 && !paused))
                && (!paused && slice != null ==> NoneSpent(slice.facts))
    {
      hide CacheOk, WorkOk, SliceOk, HistoryOk, AccountOk, KeptBy, Honest, Quiet, AdvanceOk, NoneSpent, Calm,
           AbsencesOf, UnstartedIn, Touched, Booked, LastAttempts, CachesDelivered, AllRecorded, WavesGained,
           AllAccounted, StartsFrom, LongestWithin, AnswersRecorded;
      ghost var before := SharedState();
      superseded, slice, advance, paused, attempted, trace := TakeSlice(g, env);
      if superseded || slice == null {
        return;
      }
      KeptTouched(g, before, env);
      ghost var middle := SharedState();
      TouchedKeeps(before, middle);
      ghost var hydrated, asked, answered;
      superseded, paused, advance, hydrated, asked, answered := AdvanceSlice(g, slice, advance, paused, env);
      KeptOn(g, before, middle, env);
      if !superseded {
        SameStart(trace, hydrated, asked, answered, slice.View(), old(g.pending), old(ViewOf(g.pending)), env);
        trace := trace.(hydrated := hydrated, asked := asked, answered := answered, end := slice.View());
        AllAccountedFor(trace, advance.classifications);
      }
    }

    // The pending slice, or a new one.
    method TakeSlice(g: Generation, env: Environment)
      returns (
        superseded: bool, slice: PendingSlice?, advance: Advance, paused: bool, attempted: nat, ghost trace: Trace)
      requires Valid() && Honest(env, truth) && current == g
      modifies this`current, this`nextGeneration, confirmedCache
      modifies g`attempted, g`selections, g`rawRetryUsed, g`pending
      ensures Valid() && g.Settled() && g.pending == null
      ensures superseded <==> current != g
      ensures KeptSince(g, old(SharedState()), env) && (current == g || fresh(current))
      ensures Calm(env) ==> !paused
      ensures Quiet(env) ==> !superseded
      ensures slice == old(g.pending) || fresh(slice)
      ensures slice == old(g.pending) && slice != null ==> !paused && g.Remaining().budget == old(g.Remaining()).budget
      ensures slice != null && slice != old(g.pending) ==> g.Remaining().budget < old(g.Remaining()).budget && NoneSpent(slice.facts)
      ensures !superseded && slice != null ==> Running(g, slice) && slice.CandidateCount() > 0
      ensures !superseded && slice == null ==>
                || g.Remaining().budget < old(g.Remaining()).budget
                || (g.Unstarted() == 0 && !paused)
      ensures !superseded ==> Gathered(advance, g) && advance.classifications == []
      ensures attempted == |trace.chosen|
      ensures old(g.pending) == null ==>
                LongestWithin(trace.chosen, old(g.Eligible()), limits.maxTransactionsPerSlice)
      ensures !superseded ==>
                && StartsFrom(trace, old(g.pending), old(ViewOf(g.pending)), env) && trace.slice == slice
                && (slice != null ==> trace.start == slice.View())
                && paused == (trace.chosen != [] && env.candidates(trace.chosen).systemic)
                && advance == Advance(
                     [], if slice == null || old(g.pending) != null then map[] else slice.rawOutputs, map[])
    {
      hide CacheOk, WorkOk, SliceOk, HistoryOk, AccountOk, KeptBy, Honest, Quiet, AdvanceOk, NoneSpent, Calm,
           AbsencesOf, UnstartedIn, Touched, StartsFrom, OpenedFrom, OutputsFor, AllOutputsTrue, LongestWithin;
      slice := g.pending;
      g.pending := null;
      paused, attempted, superseded, advance := false, 0, false, Advance([], map[], map[]);
      EmptyAdvance(g.variants, g.absences);
      KeptSelf(g, env);
      trace := Trace(slice, [], ViewOf(slice), map[], Asked([], [], map[], map[]), NOTHING_HELD, NOTHING_HELD);
      StartsPending(trace, env);
      if slice == null {
        ghost var chosen;
        superseded, slice, paused, attempted, chosen := StartSlice(g, env);
        trace := trace.(slice := slice, chosen := chosen, start := ViewOf(slice));
        if !superseded && chosen != [] {
          StartsNew(trace, env);
        }
        if superseded || slice == null {
          return;
        }
        StartAdvance(slice.rawOutputs, g.variants, g.absences);
        advance := Advance([], slice.rawOutputs, map[]);
      }
    }

    lemma StartsPending(trace: Trace, env: Environment)
      requires trace.chosen == [] && trace.start == ViewOf(trace.slice)
      ensures StartsFrom(trace, trace.slice, trace.start, env)
      ensures trace.slice == null ==> StartsFrom(trace, null, NOTHING_HELD, env)
    {
    }

    lemma StartsNew(trace: Trace, env: Environment)
      requires trace.chosen != [] && trace.start == ViewOf(trace.slice)
      requires OpenedFrom(trace.slice, env.candidates(trace.chosen).values)
      ensures StartsFrom(trace, null, NOTHING_HELD, env)
    {
    }

    lemma EmptyAdvance(variants: Variants, absences: set<OutPoint>)
      ensures AdvanceOk(Advance([], map[], map[]), variants, absences, truth)
    {
    }

    lemma StartAdvance(outputs: map<Txid, CachedOutputs>, variants: Variants, absences: set<OutPoint>)
      requires AllOutputsTrue(outputs, truth) && OutputsFor(outputs, variants)
      ensures AdvanceOk(Advance([], outputs, map[]), variants, absences, truth)
    {
    }

    /** Advances the current generation by one slice, if it is the expected one.
        Whatever is installed meanwhile, a stale report means that the slice changed
        nothing that generations share. */
    method ClassifyNext(expected: Option<nat>, env: Environment)
      returns (outcome: Outcome, ghost subject: Generation?, ghost merged: Merged, ghost trace: Trace)
      requires Valid() && Honest(env, truth)
      modifies this`current, this`nextGeneration, confirmedCache, current, CurrentPending()
      ensures Valid()
      ensures subject == old(current) || (subject != null && fresh(subject))
      ensures subject == null ==> outcome == Finished(WaitingReport())
      ensures Quiet(env) ==> subject == old(current) == current && nextGeneration == old(nextGeneration)
      ensures outcome.Finished? && subject != null && expected != Some(subject.id) ==>
                && outcome.report == StaleReport(subject.id, 0) && current == subject
                && SharedState() == Entered(old(SharedState()), env)
      ensures subject != null && outcome.Finished? && outcome.report.disposition.Stale? ==>
                && outcome.report.publication.None? && (current != subject || expected != Some(subject.id))
                && KeptSince(subject, Entered(old(SharedState()), env), env) && (current == subject || fresh(current))
      ensures Quiet(env) && outcome.Finished? && outcome.report.disposition.Stale? ==>
                SharedState() == old(SharedState())
      ensures Calm(env) && outcome.Finished? ==> !outcome.report.disposition.Paused?
      ensures subject != null && outcome.Finished? && !outcome.report.disposition.Stale? ==>
                && current == subject && expected == Some(subject.id)
                && ReportOk(outcome.report, subject, outcome.report.disposition.Paused?, outcome.report.attempted)
                && Changed(outcome.report) == merged.advance.classifications
                && SliceTraced(
                     trace, if subject == old(current) then old(CurrentPending()) else null,
                     if subject == old(current) then old(ViewOf(CurrentPending())) else NOTHING_HELD,
                     merged.looked.outputs, merged.looked.cache.scripts, outcome.report.disposition.Paused?,
                     merged.advance, env)
                && EndsIn(trace, subject.pending) && outcome.report.attempted == |trace.chosen|
      ensures outcome.RevisionOverflow? ==> subject != null && expected == Some(subject.id)
      ensures subject != null && (outcome.Finished? ==> !outcome.report.disposition.Stale?) ==>
                Touched(Entered(old(SharedState()), env), merged.looked) && MergedBy(merged, subject)
      ensures old(current) != null && (subject != old(current) || expected != Some(subject.id)) ==>
                && unchanged(old(current))
                && (old(current.pending) != null ==> unchanged(old(current.pending)))
      ensures subject != null && subject == old(current) ==>
                && subject.Settled()
                && (outcome.RevisionOverflow? ==> subject.revision == old(subject.revision) == U64_MAX && subject.pending == null)
                && (subject.revision != old(subject.revision) ==> old(subject.revision) != U64_MAX)
                && (subject.pending == null || subject.pending == old(subject.pending) || fresh(subject.pending))
                && (outcome.Finished? && outcome.report.disposition.Stale? ==>
                      && subject.classifications == old(subject.classifications)
                      && subject.outputs == old(subject.outputs) && subject.revision == old(subject.revision))
                && (outcome.Finished? && !outcome.report.disposition.Stale? ==>
                      && (old(CurrentPending()) == null ==>
                            LongestWithin(trace.chosen, old(subject.Eligible()), limits.maxTransactionsPerSlice))
                      && subject.Published() == InsertView(old(subject.Published()), Changed(outcome.report))
                      && subject.revision == old(subject.revision) + (if Changed(outcome.report) == [] then 0 else 1)
                      && (old(subject.Unspent()) ==>
                            && (!outcome.report.disposition.Paused? ==> subject.Unspent())
                            && (!outcome.report.disposition.Complete? ==>
                                  subject.Remaining().Below(old(subject.Remaining())))))
    {
      hide CacheOk, WorkOk, SliceOk, HistoryOk, AccountOk, KeptBy, Honest, Quiet, Calm, AllScriptsTrue, NoneSpent,
           InsertAll, InsertView, Project, ReportOk, AfterInstalls, Touched, SliceTraced, LongestWithin;
      Interfere(env, AT_ENTRY);
      subject, merged := current, Merged(SharedState(), Advance([], map[], map[]), 0, []);
      trace := Trace(null, [], NOTHING_HELD, map[], Asked([], [], map[], map[]), NOTHING_HELD, NOTHING_HELD);
      if current == null {
        return Finished(WaitingReport()), null, merged, trace;
      }
      var generation := current;
      KeptSelf(generation, env);
      if expected != Some(generation.id) {
        return Finished(StaleReport(generation.id, 0)), generation, merged, trace;
      }
      ghost var before := SharedState();
      Interfere(env, BEFORE_SLICE);
      if current != generation {
        return Finished(StaleReport(generation.id, 0)), generation, merged, trace;
      }
      ghost var entered := SharedState();
      outcome, merged, trace := RunSlice(generation, env);
      if current == generation {
        TouchedKeeps(entered, merged.looked);
      }
    }

    // What generations share once the call has read the current one.
    ghost function Entered(before: Shared, env: Environment): Shared {
      AfterInstalls(before, env.installs(AT_ENTRY), limits.maxAuxiliaryCacheBytes)
    }

    /** Every generation drains. While it is not replaced, a caller that keeps asking,
        after a pause as well, ends after finitely many slices: with nothing pending
        and every variant classified for good or given its attempts, or with a fact
        whose last attempt was lost to a systemic failure. Without systemic failures
        it is the former. */
    method Drain(envs: nat -> Environment) returns (outcome: Outcome, slices: nat)
      requires Valid() && current != null && current.Unspent()
      requires forall n :: Honest(envs(n), truth) && Quiet(envs(n))
      modifies this`current, this`nextGeneration, confirmedCache, current, CurrentPending()
      ensures Valid() && current == old(current)
      ensures outcome.Finished? ==>
                || (&& outcome.report.disposition == Complete && outcome.report.remaining == 0
                    && current.pending == null && current.Unstarted() == 0)
                || !current.Unspent()
      ensures (forall n :: Calm(envs(n))) ==> current.Unspent()
    {
      hide CacheOk, WorkOk, SliceOk, HistoryOk, AccountOk, KeptBy, Honest, Quiet, Calm, AllScriptsTrue, NoneSpent,
           InsertView, InsertAll, Project, UnstartedIn, ReportOk, AfterInstalls;
      slices := 0;
      var g := current;
      ghost var left := g.Remaining();
      while true
        invariant Valid() && current == g && g.Unspent()
        invariant g.pending == null || g.pending == old(g.pending) || fresh(g.pending)
        invariant left == g.Remaining()
        decreases left.budget, left.slice.candidates, left.slice.queued, left.slice.rank
      {
        ghost var subject, merged, trace;
        outcome, subject, merged, trace := ClassifyNext(Some(g.id), envs(slices));
        slices := slices + 1;
        if outcome.RevisionOverflow? {
          return;
        }
        if outcome.report.disposition.Complete? {
          CompleteMeansDone(outcome.report, g, outcome.report.attempted);
          return;
        }
        if !g.Unspent() {
          return;
        }
        left := g.Remaining();
      }
    }

    lemma CompleteMeansDone(report: Report, g: Generation, attempted: nat)
      requires g.Valid() && report.disposition.Complete? && ReportOk(report, g, false, attempted)
      ensures report.remaining == 0 && g.pending == null && g.Unstarted() == 0
    {
      hide WorkOk, SliceOk, HistoryOk, AccountOk, UnstartedIn;
    }
  }
}
