/** One classification generation: the membership snapshot it belongs to and the
    work table that its slices fill. */
module Generations {
  import opened Base
  import opened FactTable
  import opened SliceSteps
  import opened ConfirmedCache
  import opened Pending
  import opened Accounts
  import opened PickLogs

  datatype Entry = Entry(txid: Txid, wtxid: Wtxid, vsize: nat) {
    function Expected(): ExpectedVariant {
      ExpectedVariant(txid, wtxid, vsize)
    }
  }

  type Membership = seq<Entry>

  // Snapshots list each transaction once, and distinct transactions have distinct witnesses.
  ghost predicate DistinctEntries(membership: Membership) {
    forall i, j :: 0 <= i < j < |membership| ==>
      membership[i].txid != membership[j].txid && membership[i].wtxid != membership[j].wtxid
  }

  function Wtxids(membership: Membership): set<Wtxid> {
    set e | e in membership :: e.wtxid
  }

  function VariantsOf(membership: Membership): Variants {
    if membership == [] then map[]
    else
      var last := membership[|membership| - 1];
      VariantsOf(membership[..|membership| - 1])[last.txid := Variant(last.wtxid, last.vsize)]
  }

  lemma {:induction false} VariantsListed(membership: Membership)
    requires DistinctEntries(membership)
    ensures forall e :: e in membership ==> Listed(e.Expected(), VariantsOf(membership))
    ensures forall t :: t in VariantsOf(membership) ==>
              exists e :: e in membership && e.txid == t && VariantsOf(membership)[t] == Variant(e.wtxid, e.vsize)
  {
    if membership != [] {
      var front, last := membership[..|membership| - 1], membership[|membership| - 1];
      assert membership == front + [last];
      VariantsListed(front);
      forall t | t in VariantsOf(membership)
        ensures exists e :: e in membership && e.txid == t && VariantsOf(membership)[t] == Variant(e.wtxid, e.vsize)
      {
        if t == last.txid {
          assert last in membership;
        } else {
          assert t in VariantsOf(front);
          var e :| e in front && e.txid == t && VariantsOf(front)[t] == Variant(e.wtxid, e.vsize);
          assert e in membership;
        }
      }
    }
  }

  lemma {:induction false} WtxidsSize(membership: Membership)
    requires DistinctEntries(membership)
    ensures |Wtxids(membership)| == |membership|
  {
    if membership != [] {
      var front, last := membership[..|membership| - 1], membership[|membership| - 1];
      assert membership == front + [last];
      WtxidsSize(front);
      assert Wtxids(membership) == Wtxids(front) + {last.wtxid};
      assert last.wtxid !in Wtxids(front);
    }
  }

  // The wtxids of one membership identify its entries.
  lemma SameEntry(membership: Membership, a: Entry, b: Entry)
    requires DistinctEntries(membership) && a in membership && b in membership
    ensures a.wtxid == b.wtxid || a.txid == b.txid ==> a == b
  {
  }

  // The entries of `membership` that satisfy `p`, in order.
  function Select(membership: Membership, p: Entry -> bool): seq<ExpectedVariant> {
    if membership == [] then []
    else (if p(membership[0]) then [membership[0].Expected()] else []) + Select(membership[1..], p)
  }

  // The membership lists one before the other.
  ghost predicate Earlier(membership: Membership, a: ExpectedVariant, b: ExpectedVariant) {
    exists i, j :: 0 <= i < j < |membership| && membership[i].Expected() == a && membership[j].Expected() == b
  }

  ghost predicate InTurn(membership: Membership, selected: seq<ExpectedVariant>) {
    forall i, j :: 0 <= i < j < |selected| ==> Earlier(membership, selected[i], selected[j])
  }

  lemma {:induction false} SelectOrder(membership: Membership, p: Entry -> bool)
    ensures InTurn(membership, Select(membership, p))
  {
    if membership != [] {
      var rest, tail := membership[1..], Select(membership[1..], p);
      SelectOrder(rest, p);
      SelectContents(rest, p);
      forall a, b | Earlier(rest, a, b) ensures Earlier(membership, a, b) {
        var i, j :| 0 <= i < j < |rest| && rest[i].Expected() == a && rest[j].Expected() == b;
        assert membership[i + 1] == rest[i] && membership[j + 1] == rest[j];
      }
      forall b | b in tail ensures Earlier(membership, membership[0].Expected(), b) {
        var m :| m in rest && p(m) && m.Expected() == b;
        var j :| 0 <= j < |rest| && rest[j] == m;
        assert membership[j + 1] == m;
      }
      var selected := Select(membership, p);
      var ahead := |selected| - |tail|;
      forall i, j | 0 <= i < j < |selected| ensures Earlier(membership, selected[i], selected[j]) {
        assert selected[j] == tail[j - ahead] && selected[j] in tail;
        if i >= ahead {
          assert selected[i] == tail[i - ahead] && Earlier(rest, tail[i - ahead], tail[j - ahead]);
        } else {
          assert selected[i] == membership[0].Expected();
        }
      }
    }
  }

  lemma {:induction false} SelectContents(membership: Membership, p: Entry -> bool)
    ensures forall e :: e in Select(membership, p) <==>
              exists m :: m in membership && p(m) && m.Expected() == e
    ensures DistinctEntries(membership) ==> DistinctWtxids(Select(membership, p))
  {
    if membership != [] {
      var rest := membership[1..];
      SelectContents(rest, p);
      assert membership == [membership[0]] + rest;
      forall e ensures e in Select(membership, p) <==> exists m :: m in membership && p(m) && m.Expected() == e {
        if e in Select(rest, p) {
          var m :| m in rest && p(m) && m.Expected() == e;
          assert m in membership;
        }
        if m :| m in membership && p(m) && m.Expected() == e {
          assert m == membership[0] || m in rest;
        }
      }
      if DistinctEntries(membership) {
        SelectDistinct(membership, p);
      }
    }
  }

  lemma SelectDistinct(membership: Membership, p: Entry -> bool)
    requires membership != [] && DistinctEntries(membership)
    requires forall e :: e in Select(membership[1..], p) <==>
               exists m :: m in membership[1..] && p(m) && m.Expected() == e
    requires DistinctEntries(membership[1..]) ==> DistinctWtxids(Select(membership[1..], p))
    ensures DistinctWtxids(Select(membership, p))
  {
    var tail := Select(membership[1..], p);
    if p(membership[0]) {
      forall i | 0 <= i < |tail| ensures tail[i].wtxid != membership[0].wtxid {
        assert tail[i] in tail;
        var m :| m in membership[1..] && p(m) && m.Expected() == tail[i];
        var k :| 0 <= k < |membership[1..]| && membership[1..][k] == m;
        assert membership[k + 1] == m;
      }
    }
  }

  ghost predicate DistinctWtxids(expected: seq<ExpectedVariant>) {
    forall i, j :: 0 <= i < j < |expected| ==> expected[i].wtxid != expected[j].wtxid
  }

  /** The longest prefix within the entry limit and the response estimate; one
      variant is always admitted. */
  method BoundedVariants(variants: seq<ExpectedVariant>, maximumEntries: nat) returns (bounded: seq<ExpectedVariant>)
    ensures bounded <= variants && |bounded| <= maximumEntries
    ensures |bounded| <= 1 || RawBytes(bounded) <= MAX_RAW_RESPONSE_BYTES_PER_SLICE
    ensures |bounded| < |variants| && |bounded| < maximumEntries ==>
              bounded != [] && RawBytes(variants[..|bounded| + 1]) > MAX_RAW_RESPONSE_BYTES_PER_SLICE
  {
    var n := 0;
    var estimatedBytes := 0;
    while n < |variants| && n < maximumEntries
      invariant n <= |variants| && n <= maximumEntries
      invariant estimatedBytes == RawBytes(variants[..n])
      invariant n <= 1 || estimatedBytes <= MAX_RAW_RESPONSE_BYTES_PER_SLICE
    {
      var bytes := EstimatedRawResponseBytes(variants[n]);
      assert variants[..n + 1][..n] == variants[..n];
      if n > 0 && estimatedBytes + bytes > MAX_RAW_RESPONSE_BYTES_PER_SLICE {
        break;
      }
      estimatedBytes := estimatedBytes + bytes;
      n := n + 1;
    }
    bounded := variants[..n];
  }

  // The longest prefix within both limits, and at least one if there is any.
  ghost predicate LongestWithin(selected: seq<ExpectedVariant>, eligible: seq<ExpectedVariant>, maximum: nat) {
    && selected <= eligible && |selected| <= maximum
    && (|selected| <= 1 || RawBytes(selected) <= MAX_RAW_RESPONSE_BYTES_PER_SLICE)
    && (|selected| < |eligible| && |selected| < maximum ==>
          selected != [] && RawBytes(eligible[..|selected| + 1]) > MAX_RAW_RESPONSE_BYTES_PER_SLICE)
  }

  // --- the classification table ------------------------------------------------


  /** A record of the table: its evaluator input is sound, where `absences` are
      the outpoints some generation was told do not exist while its membership
      did not contain their transaction. */
  ghost predicate RecordSound(c: Classified, absences: set<OutPoint>, truth: OutPoint -> Script) {
    ClassifiedSound(c, absences, map[], truth)
  }

  lemma ClassifiedRecordSound(
    c: Classified, nulls: set<OutPoint>, variants: Variants, truth: OutPoint -> Script, absences: set<OutPoint>)
    requires ClassifiedSound(c, nulls, variants, truth) && AbsencesOf(nulls, variants) <= absences
    ensures RecordSound(c, absences, truth)
  {
    if c.prevouts != [] {
      forall i | 0 <= i < |c.prevouts|
        ensures i < |c.transaction.inputs|
                && PrevoutSound(c.transaction.inputs[i], c.prevouts[i], absences, map[], truth)
      {
        assert PrevoutSound(c.transaction.inputs[i], c.prevouts[i], nulls, variants, truth);
      }
    }
  }

  lemma RecordSoundMore(c: Classified, absences: set<OutPoint>, more: set<OutPoint>, truth: OutPoint -> Script)
    requires RecordSound(c, absences, truth) && absences <= more
    ensures RecordSound(c, more, truth)
  {
    if c.prevouts != [] {
      forall i | 0 <= i < |c.prevouts|
        ensures i < |c.transaction.inputs|
                && PrevoutSound(c.transaction.inputs[i], c.prevouts[i], more, map[], truth)
      {
        assert PrevoutSound(c.transaction.inputs[i], c.prevouts[i], absences, map[], truth);
      }
    }
  }

  function AbsencesOf(nulls: set<OutPoint>, variants: Variants): set<OutPoint> {
    set o | o in nulls && o.txid !in variants
  }

  lemma TableOkMore(
    table: Table, variants: Variants, absences: set<OutPoint>, more: set<OutPoint>, truth: OutPoint -> Script)
    requires TableOk(table, variants, absences, truth) && absences <= more
    ensures TableOk(table, variants, more, truth)
  {
    forall k | k in table ensures RecordSound(table[k], more, truth) {
      RecordSoundMore(table[k], absences, more, truth);
    }
  }

  // The record belongs to a variant of this membership.
  predicate Current(c: Classified, variants: Variants) {
    c.expected.txid in variants && variants[c.expected.txid].wtxid == c.expected.wtxid
  }

  ghost predicate TableOk(table: Table, variants: Variants, absences: set<OutPoint>, truth: OutPoint -> Script) {
    forall k :: k in table ==>
      && table[k].expected.wtxid == k && Current(table[k], variants) && RecordSound(table[k], absences, truth)
  }

  // What readers of the publisher see: the records by transaction.
  type View = map<Txid, Classified>

  function InsertView(view: View, changed: seq<Classified>): View {
    if changed == [] then view
    else
      var last := changed[|changed| - 1];
      InsertView(view, changed[..|changed| - 1])[last.expected.txid := last]
  }

  function Project(table: Table, variants: Variants): View {
    map t | t in variants && variants[t].wtxid in table && table[variants[t].wtxid].expected.txid == t
      :: table[variants[t].wtxid]
  }

  ghost predicate AllCurrent(changed: seq<Classified>, variants: Variants) {
    forall c :: c in changed ==> Current(c, variants)
  }

  ghost predicate InjectiveVariants(variants: Variants) {
    forall a, b :: a in variants && b in variants && variants[a].wtxid == variants[b].wtxid ==> a == b
  }

  /** Applying a revision's records to the readers' map and to the pipeline's own
      table commute: the projection of the new table is the updated view. */
  lemma {:induction false} ProjectInsert(table: Table, variants: Variants, changed: seq<Classified>)
    requires InjectiveVariants(variants) && AllCurrent(changed, variants)
    ensures Project(InsertAll(table, changed), variants) == InsertView(Project(table, variants), changed)
  {
    if changed != [] {
      var front, last := changed[..|changed| - 1], changed[|changed| - 1];
      assert changed == front + [last];
      assert last in changed;
      ProjectInsert(table, variants, front);
      ProjectOne(InsertAll(table, front), variants, last);
    }
  }

  predicate Shows(table: Table, variants: Variants, t: Txid) {
    t in variants && variants[t].wtxid in table && table[variants[t].wtxid].expected.txid == t
  }

  lemma ProjectAt(table: Table, variants: Variants, t: Txid)
    ensures t in Project(table, variants) <==> Shows(table, variants, t)
    ensures Shows(table, variants, t) ==> Project(table, variants)[t] == table[variants[t].wtxid]
  {
  }

  lemma ProjectOne(table: Table, variants: Variants, c: Classified)
    requires InjectiveVariants(variants) && Current(c, variants)
    ensures Project(table[c.expected.wtxid := c], variants) == Project(table, variants)[c.expected.txid := c]
  {
    hide Project;
    var before, after := Project(table, variants), Project(table[c.expected.wtxid := c], variants);
    var expected := before[c.expected.txid := c];
    forall t ensures t in after <==> t in expected
             ensures t in after && t in expected ==> after[t] == expected[t]
    {
      ProjectAt(table, variants, t);
      ProjectAt(table[c.expected.wtxid := c], variants, t);
      if t in variants && t != c.expected.txid {
        assert variants[t].wtxid != c.expected.wtxid;
      }
    }
    assert after == expected;
  }

  lemma VariantsInjective(membership: Membership)
    requires DistinctEntries(membership)
    ensures InjectiveVariants(VariantsOf(membership))
  {
    VariantsListed(membership);
    var variants := VariantsOf(membership);
    forall a, b | a in variants && b in variants && variants[a].wtxid == variants[b].wtxid ensures a == b {
      var e :| e in membership && e.txid == a && variants[a] == Variant(e.wtxid, e.vsize);
      var f :| f in membership && f.txid == b && variants[b] == Variant(f.wtxid, f.vsize);
      SameEntry(membership, e, f);
    }
  }

  lemma {:induction false} InsertAllOk(
    table: Table, changed: seq<Classified>, variants: Variants, absences: set<OutPoint>, truth: OutPoint -> Script)
    requires TableOk(table, variants, absences, truth) && AllCurrent(changed, variants)
    requires forall c :: c in changed ==> RecordSound(c, absences, truth)
    ensures TableOk(InsertAll(table, changed), variants, absences, truth)
    ensures InsertAll(table, changed).Keys == table.Keys + set c | c in changed :: c.expected.wtxid
  {
    if changed != [] {
      var front, last := changed[..|changed| - 1], changed[|changed| - 1];
      assert changed == front + [last];
      assert last in changed;
      InsertAllOk(table, front, variants, absences, truth);
    }
  }

  function OutputBytes(outputs: CachedOutputs): nat {
    outputs.estimatedBytes
  }

  // --- one generation ----------------------------------------------------------

  /** What is still to do in a generation, ordered lexicographically: raw fetches
      that may still be asked for, then the work of the pending slice. */
  datatype Progress = Progress(budget: nat, slice: Measure) {
    predicate Below(other: Progress) {
      budget < other.budget || (budget == other.budget && slice.Below(other.slice))
    }

    predicate AtMost(other: Progress) {
      this == other || Below(other)
    }
  }

  // The work table of a generation, apart from the pending slice.
  ghost predicate WorkOk(
    membership: Membership, variants: Variants, table: Table, outputs: map<Txid, CachedOutputs>, attempted: set<Wtxid>,
    rawRetryUsed: set<Wtxid>, outputCacheBytes: nat, selections: multiset<Wtxid>, absences: set<OutPoint>,
    truth: OutPoint -> Script)
  {
    && DistinctEntries(membership) && variants == VariantsOf(membership)
    && TableOk(table, variants, absences, truth)
    && OutputsFor(outputs, variants) && AllOutputsTrue(outputs, truth)
    && outputCacheBytes == Sum(outputs, OutputBytes)
    && attempted <= Wtxids(membership) && rawRetryUsed <= Wtxids(membership)
    && selections == multiset(attempted) + multiset(rawRetryUsed)
  }

  // Each variant is selected at most twice for a raw fetch.
  lemma SelectedAtMostTwice(attempted: set<Wtxid>, rawRetryUsed: set<Wtxid>, selections: multiset<Wtxid>, w: Wtxid)
    requires selections == multiset(attempted) + multiset(rawRetryUsed)
    ensures selections[w] <= 2
  {
  }

  lemma BudgetBound(membership: Membership, attempted: set<Wtxid>, rawRetryUsed: set<Wtxid>)
    requires DistinctEntries(membership)
    requires attempted <= Wtxids(membership) && rawRetryUsed <= Wtxids(membership)
    ensures |attempted| + |rawRetryUsed| <= 2 * |membership|
  {
    WtxidsSize(membership);
    SubsetSize(attempted, Wtxids(membership));
    SubsetSize(rawRetryUsed, Wtxids(membership));
  }

  class Generation {
    const id: nat
    const membership: Membership
    const variants: Variants
    const limits: ResolverLimits
    ghost const truth: OutPoint -> Script
    var classifications: Table
    var outputs: map<Txid, CachedOutputs>
    var attempted: set<Wtxid>
    var rawRetryUsed: set<Wtxid>
    var pending: PendingSlice?
    var outputCacheBytes: nat
    var revision: nat
    // How often each variant was selected for a raw fetch, and the explicit nulls that count as absences.
    ghost var selections: multiset<Wtxid>
    ghost var absences: set<OutPoint>

    ghost predicate Settled()
      reads this
    {
      && limits.Positive()
      && WorkOk(
           membership, variants, classifications, outputs, attempted, rawRetryUsed, outputCacheBytes, selections, absences,
           truth)
    }

    ghost predicate SliceOf(slice: PendingSlice)
      reads this, slice
    {
      && slice.Valid() && slice.variants == variants && slice.limits == limits && slice.truth == truth
      && AbsencesOf(slice.nulls, variants) <= absences
    }

    // No pending fact awaits an answer that it may no longer ask for.
    predicate Unspent()
      reads this, pending
    {
      pending == null || NoneSpent(pending.facts)
    }

    // Nothing is pending, and every variant is classified for good or was given its attempts.
    ghost predicate Finished()
      reads this
    {
      pending == null && Unstarted() == 0
    }

    // As installed: nothing was selected, and no slice has run.
    ghost predicate Pristine()
      reads this
    {
      pending == null && revision == 0 && attempted == {} && rawRetryUsed == {}
    }

    // An explicit null outside the membership is an absence.
    ghost method RecordAbsences(nulls: set<OutPoint>)
      requires Settled()
      modifies this`absences
      ensures Settled()
      ensures absences == old(absences) + AbsencesOf(nulls, variants)
    {
      TableOkMore(classifications, variants, absences, absences + AbsencesOf(nulls, variants), truth);
      absences := absences + AbsencesOf(nulls, variants);
    }

    // A stored slice has candidates.
    ghost predicate Valid()
      reads this, pending
    {
      Settled() && (pending != null ==> SliceOf(pending) && !pending.IsEmpty())
    }

    ghost function Remaining(): Progress
      requires Settled()
      reads this, pending
    {
      BudgetBound(membership, attempted, rawRetryUsed);
      Progress(
        2 * |membership| - |attempted| - |rawRetryUsed|,
        if pending == null then Measure(0, 0, 0) else pending.Work())
    }

    ghost function Published(): View
      reads this
    {
      Project(classifications, variants)
    }

    predicate Unclassified(wtxid: Wtxid)
      reads this
    {
      wtxid !in classifications || classifications[wtxid].retryable
    }

    function Unstarted(): nat
      reads this
    {
      UnstartedIn(membership, attempted, classifications)
    }

    constructor (
      id: nat, membership: Membership, limits: ResolverLimits, ghost truth: OutPoint -> Script, ghost absences: set<OutPoint>)
      requires DistinctEntries(membership) && limits.Positive()
      ensures Valid() && fresh(this)
      ensures this.id == id && this.membership == membership && this.limits == limits && this.truth == truth
      ensures variants == VariantsOf(membership)
      ensures classifications == map[] && outputs == map[] && attempted == {} && rawRetryUsed == {}
      ensures pending == null && outputCacheBytes == 0 && revision == 0
      ensures selections == multiset{} && this.absences == absences
    {
      this.id, this.membership, this.variants, this.limits, this.truth := id, membership, VariantsOf(membership), limits, truth;
      classifications, outputs, attempted, rawRetryUsed := map[], map[], {}, {};
      pending, outputCacheBytes, revision := null, 0, 0;
      selections, this.absences := multiset{}, absences;
      new;
      SumEmpty(outputs, OutputBytes);
    }

    // --- raw selection -------------------------------------------------------

    function Eligible(): seq<ExpectedVariant>
      reads this
    {
      EligibleIn(membership, attempted, classifications)
    }

    /** Chooses the raw transactions of a new slice and marks them attempted. */
    method SelectCandidates(maximum: nat) returns (candidates: seq<ExpectedVariant>)
      requires Valid() && pending == null && maximum > 0
      modifies this`attempted, this`selections
      ensures Valid()
      ensures LongestWithin(candidates, old(Eligible()), maximum)
      ensures DistinctWtxids(candidates) && forall c :: c in candidates ==> Listed(c, variants)
      ensures attempted == old(attempted) + ExpectedWtxids(candidates)
      ensures old(attempted) !! ExpectedWtxids(candidates)
      ensures Remaining().budget + |candidates| == old(Remaining()).budget
      ensures candidates == [] ==> Unstarted() == 0
    {
      hide WorkOk, EligibleIn, DistinctWtxids, RawBytes, Wtxids;
      WorkEntries(
        membership, variants, classifications, outputs, attempted, rawRetryUsed, outputCacheBytes, selections, absences,
        truth);
      EligibleContents(membership, variants, attempted, classifications);
      var eligible := Eligible();
      candidates := BoundedVariants(eligible, maximum);
      EligiblePrefix(eligible, candidates, attempted, membership, variants);
      MarkAttempted(candidates);
    }

    method MarkAttempted(candidates: seq<ExpectedVariant>)
      requires Settled() && DistinctWtxids(candidates)
      requires attempted !! ExpectedWtxids(candidates) && ExpectedWtxids(candidates) <= Wtxids(membership)
      modifies this`attempted, this`selections
      ensures Settled()
      ensures attempted == old(attempted) + ExpectedWtxids(candidates)
      ensures |attempted| == |old(attempted)| + |candidates|
    {
      hide WorkOk, DistinctWtxids, Wtxids, ExpectedWtxids;
      ghost var attempted0 := attempted;
      assert candidates[..0] == [];
      NoWtxids();
      for i := 0 to |candidates|
        invariant Settled()
        invariant attempted == attempted0 + ExpectedWtxids(candidates[..i])
        invariant |attempted| == |attempted0| + i
      {
        var w := candidates[i].wtxid;
        EligibleNext(candidates, i);
        WorkSelect(
          membership, variants, classifications, outputs, attempted, rawRetryUsed, outputCacheBytes, selections, absences,
          truth, w);
        attempted := attempted + {w};
        selections := selections + multiset{w};
      }
      assert candidates[..|candidates|] == candidates;
    }

    /** A failed raw fetch makes its variant eligible once more, the first time. */
    method AllowRawRetry(wtxid: Wtxid)
      requires Valid() && pending == null && wtxid in attempted
      modifies this`attempted, this`rawRetryUsed
      ensures Valid() && Remaining() == old(Remaining())
      ensures wtxid in old(rawRetryUsed) ==> attempted == old(attempted) && rawRetryUsed == old(rawRetryUsed)
      ensures wtxid !in old(rawRetryUsed) ==>
                attempted == old(attempted) - {wtxid} && rawRetryUsed == old(rawRetryUsed) + {wtxid}
    {
      hide WorkOk;
      if wtxid !in rawRetryUsed {
        WorkRetry(
          membership, variants, classifications, outputs, attempted, rawRetryUsed, outputCacheBytes, selections, absences,
          truth, wtxid);
        rawRetryUsed := rawRetryUsed + {wtxid};
        attempted := attempted - {wtxid};
      }
    }

    // --- merging a slice -----------------------------------------------------

    // The bytes the outputs would occupy with these outputs in the place of older ones.
    function BytesWith(txid: Txid, more: CachedOutputs): nat
      reads this
    {
      SaturatingSub(outputCacheBytes, if txid in outputs then outputs[txid].estimatedBytes else 0) + more.estimatedBytes
    }

    /** Caches a transaction's outputs exactly if they fit the ceiling; confirmed
        scripts make room for them. */
    method InsertOutputs(cache: ConfirmedScriptCache, txid: Txid, more: CachedOutputs, maximum: nat)
      requires Settled() && cache.Valid() && cache.maximumBytes == maximum
      requires outputCacheBytes + cache.estimatedBytes <= maximum
      requires txid in variants && more.wtxid == variants[txid].wtxid && OutputsTrue(txid, more, truth)
      modifies this`outputs, this`outputCacheBytes, cache
      ensures Settled() && cache.Valid()
      ensures outputCacheBytes + cache.estimatedBytes <= maximum && cache.estimatedBytes <= old(cache.estimatedBytes)
      ensures old(BytesWith(txid, more)) <= maximum ==>
                && outputs == old(outputs)[txid := more] && outputCacheBytes == old(BytesWith(txid, more))
                && cache.Contents() == old(cache.Contents()).EvictTo(maximum - outputCacheBytes)
      ensures old(BytesWith(txid, more)) > maximum ==>
                outputs == old(outputs) && outputCacheBytes == old(outputCacheBytes) && unchanged(cache)
      ensures Shrunk(old(cache.Contents().scripts), cache.Contents().scripts)
    {
      hide CacheOk, WorkOk, OutputsTrue, Shrunk;
      ShrunkSelf(cache.Contents().scripts);
      WorkReplace(
        membership, variants, classifications, outputs, attempted, rawRetryUsed, outputCacheBytes, selections, absences,
        truth, txid, more);
      var replacedBytes := if txid in outputs then outputs[txid].estimatedBytes else 0;
      var base := SaturatingSub(outputCacheBytes, replacedBytes);
      var newTotal := base + more.estimatedBytes;
      if newTotal > maximum {
        return;
      }
      cache.ReserveForOutputs(newTotal);
      outputCacheBytes := newTotal;
      outputs := outputs[txid := more];
    }
  }

  function NeverSeen(attempted: set<Wtxid>, table: Table): Entry -> bool {
    (e: Entry) => e.wtxid !in attempted && e.wtxid !in table
  }

  function SeenRetryable(attempted: set<Wtxid>, table: Table): Entry -> bool {
    (e: Entry) => e.wtxid !in attempted && e.wtxid in table && table[e.wtxid].retryable
  }

  // The variants a new slice chooses from: never classified ones first, then retryable ones.
  function EligibleIn(membership: Membership, attempted: set<Wtxid>, table: Table): seq<ExpectedVariant> {
    Select(membership, NeverSeen(attempted, table)) + Select(membership, SeenRetryable(attempted, table))
  }

  // Variants that may still be selected for a raw fetch.
  function UnstartedIn(membership: Membership, attempted: set<Wtxid>, table: Table): nat {
    |set w | w in Wtxids(membership) && w !in attempted && (w !in table || table[w].retryable)|
  }

  function ExpectedWtxids(expected: seq<ExpectedVariant>): set<Wtxid> {
    set e | e in expected :: e.wtxid
  }

  /** Every variant that may be fetched is listed, those that were never classified
      first, and otherwise in the order of the membership. */
  lemma EligibleOrder(membership: Membership, attempted: set<Wtxid>, table: Table)
    ensures var eligible := EligibleIn(membership, attempted, table);
            && (forall e :: e in eligible <==>
                  exists m :: m in membership && m.Expected() == e
                              && m.wtxid !in attempted && (m.wtxid !in table || table[m.wtxid].retryable))
            && (forall i, j :: 0 <= i < j < |eligible| && eligible[i].wtxid in table ==> eligible[j].wtxid in table)
            && (forall i, j :: 0 <= i < j < |eligible| && (eligible[i].wtxid in table <==> eligible[j].wtxid in table) ==>
                  Earlier(membership, eligible[i], eligible[j]))
  {
    hide Select, Earlier;
    var neverSeen, retryable := NeverSeen(attempted, table), SeenRetryable(attempted, table);
    var first, second := Select(membership, neverSeen), Select(membership, retryable);
    SelectContents(membership, neverSeen);
    SelectContents(membership, retryable);
    SelectOrder(membership, neverSeen);
    SelectOrder(membership, retryable);
    forall e | e in first ensures e.wtxid !in table {
      var m :| m in membership && neverSeen(m) && m.Expected() == e;
    }
    forall e | e in second ensures e.wtxid in table {
      var m :| m in membership && retryable(m) && m.Expected() == e;
    }
    forall m | m in membership && m.wtxid !in attempted && (m.wtxid !in table || table[m.wtxid].retryable)
      ensures neverSeen(m) || retryable(m)
    {
    }
    var eligible := first + second;
    forall i | 0 <= i < |eligible| ensures i < |first| <==> eligible[i].wtxid !in table {
      assert eligible[i] in (if i < |first| then first else second);
    }
    forall i, j | 0 <= i < j < |eligible| && (i < |first| <==> j < |first|)
      ensures Earlier(membership, eligible[i], eligible[j])
    {
      if i >= |first| {
        assert eligible[i] == second[i - |first|] && eligible[j] == second[j - |first|];
      } else {
        assert eligible[i] == first[i] && eligible[j] == first[j];
      }
    }
  }

  lemma EligibleContents(membership: Membership, variants: Variants, attempted: set<Wtxid>, table: Table)
    requires DistinctEntries(membership) && forall e :: e in membership ==> Listed(e.Expected(), variants)
    ensures forall e :: e in EligibleIn(membership, attempted, table) ==>
              && Listed(e, variants) && e.wtxid in Wtxids(membership) && e.wtxid !in attempted
              && (e.wtxid !in table || table[e.wtxid].retryable)
    ensures DistinctWtxids(EligibleIn(membership, attempted, table))
    ensures EligibleIn(membership, attempted, table) == [] <==> UnstartedIn(membership, attempted, table) == 0
  {
    hide Select, DistinctWtxids, DistinctEntries;
    var neverSeen, retryable := NeverSeen(attempted, table), SeenRetryable(attempted, table);
    var eligible := EligibleIn(membership, attempted, table);
    SelectContents(membership, neverSeen);
    SelectContents(membership, retryable);
    EligibleDistinct(Select(membership, neverSeen), Select(membership, retryable), table.Keys);
    var unstarted := set w | w in Wtxids(membership) && w !in attempted && (w !in table || table[w].retryable);
    if eligible != [] {
      var first := eligible[0];
      assert first in eligible;
      assert first.wtxid in unstarted;
    }
    if w :| w in unstarted {
      var e :| e in membership && e.wtxid == w;
      assert neverSeen(e) || retryable(e);
      assert e.Expected() in eligible;
    }
  }

  lemma NoWtxids()
    ensures ExpectedWtxids([]) == {}
  {
  }

  lemma EligiblePrefix(
    eligible: seq<ExpectedVariant>, candidates: seq<ExpectedVariant>, attempted: set<Wtxid>, membership: Membership,
    variants: Variants)
    requires candidates <= eligible && DistinctWtxids(eligible)
    requires forall e :: e in eligible ==> Listed(e, variants) && e.wtxid in Wtxids(membership) && e.wtxid !in attempted
    ensures DistinctWtxids(candidates) && forall c :: c in candidates ==> Listed(c, variants)
    ensures attempted !! ExpectedWtxids(candidates) && ExpectedWtxids(candidates) <= Wtxids(membership)
  {
    forall c | c in candidates ensures c in eligible {
      var i :| 0 <= i < |candidates| && candidates[i] == c;
      assert eligible[i] == c;
    }
  }

  lemma EligibleNext(candidates: seq<ExpectedVariant>, i: nat)
    requires DistinctWtxids(candidates) && i < |candidates|
    ensures ExpectedWtxids(candidates[..i + 1]) == ExpectedWtxids(candidates[..i]) + {candidates[i].wtxid}
    ensures candidates[i].wtxid !in ExpectedWtxids(candidates[..i])
    ensures candidates[i].wtxid in ExpectedWtxids(candidates)
  {
    assert candidates[i] in candidates;
    assert candidates[..i + 1] == candidates[..i] + [candidates[i]];
    forall e | e in candidates[..i] ensures e.wtxid != candidates[i].wtxid {
      var k :| 0 <= k < i && candidates[..i][k] == e;
      assert candidates[k] == e;
    }
  }

  lemma EligibleDistinct(first: seq<ExpectedVariant>, retryable: seq<ExpectedVariant>, known: set<Wtxid>)
    requires DistinctWtxids(first) && DistinctWtxids(retryable)
    requires forall e :: e in first ==> e.wtxid !in known
    requires forall e :: e in retryable ==> e.wtxid in known
    ensures DistinctWtxids(first + retryable)
  {
    var all := first + retryable;
    forall i, j | 0 <= i < j < |all| ensures all[i].wtxid != all[j].wtxid {
      if i < |first| <= j {
        assert first[i] in first && retryable[j - |first|] in retryable;
      }
    }
  }

  lemma WorkEntries(
    membership: Membership, variants: Variants, table: Table, outputs: map<Txid, CachedOutputs>, attempted: set<Wtxid>,
    rawRetryUsed: set<Wtxid>, outputCacheBytes: nat, selections: multiset<Wtxid>, absences: set<OutPoint>,
    truth: OutPoint -> Script)
    requires WorkOk(membership, variants, table, outputs, attempted, rawRetryUsed, outputCacheBytes, selections, absences, truth)
    ensures DistinctEntries(membership) && forall e :: e in membership ==> Listed(e.Expected(), variants)
    ensures forall e :: e in membership ==> e.wtxid in Wtxids(membership)
  {
    VariantsListed(membership);
  }

  lemma WorkSelect(
    membership: Membership, variants: Variants, table: Table, outputs: map<Txid, CachedOutputs>, attempted: set<Wtxid>,
    rawRetryUsed: set<Wtxid>, outputCacheBytes: nat, selections: multiset<Wtxid>, absences: set<OutPoint>,
    truth: OutPoint -> Script, w: Wtxid)
    requires WorkOk(membership, variants, table, outputs, attempted, rawRetryUsed, outputCacheBytes, selections, absences, truth)
    requires w in Wtxids(membership) && w !in attempted
    ensures WorkOk(
              membership, variants, table, outputs, attempted + {w}, rawRetryUsed, outputCacheBytes, selections + multiset{w},
              absences, truth)
  {
    assert multiset(attempted + {w}) == multiset(attempted) + multiset{w};
  }

  lemma WorkRetry(
    membership: Membership, variants: Variants, table: Table, outputs: map<Txid, CachedOutputs>, attempted: set<Wtxid>,
    rawRetryUsed: set<Wtxid>, outputCacheBytes: nat, selections: multiset<Wtxid>, absences: set<OutPoint>,
    truth: OutPoint -> Script, w: Wtxid)
    requires WorkOk(membership, variants, table, outputs, attempted, rawRetryUsed, outputCacheBytes, selections, absences, truth)
    requires w in attempted && w !in rawRetryUsed
    ensures WorkOk(
              membership, variants, table, outputs, attempted - {w}, rawRetryUsed + {w}, outputCacheBytes, selections,
              absences, truth)
    ensures |attempted - {w}| + |rawRetryUsed + {w}| == |attempted| + |rawRetryUsed|
  {
    assert multiset(attempted - {w}) + multiset{w} == multiset(attempted);
    assert multiset(rawRetryUsed + {w}) == multiset(rawRetryUsed) + multiset{w};
  }

  lemma WorkReplace(
    membership: Membership, variants: Variants, table: Table, outputs: map<Txid, CachedOutputs>, attempted: set<Wtxid>,
    rawRetryUsed: set<Wtxid>, outputCacheBytes: nat, selections: multiset<Wtxid>, absences: set<OutPoint>,
    truth: OutPoint -> Script, txid: Txid, more: CachedOutputs)
    requires WorkOk(membership, variants, table, outputs, attempted, rawRetryUsed, outputCacheBytes, selections, absences, truth)
    requires txid in variants && more.wtxid == variants[txid].wtxid && OutputsTrue(txid, more, truth)
    ensures var replaced := if txid in outputs then outputs[txid].estimatedBytes else 0;
            && replaced <= outputCacheBytes
            && WorkOk(
                 membership, variants, table, outputs[txid := more], attempted, rawRetryUsed,
                 outputCacheBytes - replaced + more.estimatedBytes, selections, absences, truth)
  {
    hide Sum, TableOk;
    SumInsert(outputs, txid, more, OutputBytes);
    if txid in outputs {
      SumRemove(outputs, txid, OutputBytes);
    }
  }
}
