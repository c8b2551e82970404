/** The fact table of a pending slice, as values: the per-outpoint state
    machine, the candidates that need the facts, and the invariants that tie
    them together. */
module FactTable {
  import opened Base

  datatype FactSource = CurrentParent | Confirmed | ParentFallback

  datatype FactState =
    | Ready(script: Script)
    | Awaiting(source: FactSource, attempts: nat)
    | CapacityBlocked(source: FactSource)
    | OperationallyDeferred
    | ExplicitlyMissing
  {
    predicate Waiting() {
      Awaiting? || CapacityBlocked?
    }

    predicate Terminal() {
      Ready? || ExplicitlyMissing?
    }

    predicate AwaitingParent() {
      Awaiting? && source.CurrentParent?
    }

    predicate AwaitingConfirmed() {
      Awaiting? && !source.CurrentParent?
    }

    // One more attempt is allowed and would be recorded.
    predicate HasAttemptLeft() {
      Awaiting? && attempts < MAX_FACT_ATTEMPTS_PER_SOURCE_PER_WINDOW
    }

    predicate ParentEligible() {
      AwaitingParent() && HasAttemptLeft()
    }

    predicate ConfirmedEligible() {
      AwaitingConfirmed() && HasAttemptLeft()
    }

    // A fact without an attempt left is deferred until the next generation.
    function Spent(): FactState {
      if Awaiting? && !HasAttemptLeft() then OperationallyDeferred else this
    }

    // The attempt counter is a byte that saturates.
    function Attempted(): FactState {
      if Awaiting? && attempts < 255 then this.(attempts := attempts + 1) else this
    }
  }

  type Facts = map<OutPoint, FactState>

  datatype Variant = Variant(wtxid: Wtxid, vsize: nat)
  type Variants = map<Txid, Variant>

  datatype ResolverLimits = ResolverLimits(
    maxParentTransactionsPerWave: nat,
    maxConfirmedPrevoutsPerWave: nat,
    maxUniquePrevoutsPerWindow: nat,
    maxPendingScriptBytes: nat)
  {
    // The production limits are all positive.
    predicate Positive() {
      maxParentTransactionsPerWave > 0 && maxConfirmedPrevoutsPerWave > 0 && maxPendingScriptBytes > 0
    }
  }

  datatype Prepared = Prepared(expected: ExpectedVariant, transaction: Transaction) {
    predicate WellFormed() {
      && transaction.WellFormed()
      && transaction.txid == expected.txid
      && transaction.wtxid == expected.wtxid
    }
  }

  datatype Candidate = Candidate(
    expected: ExpectedVariant, transaction: Transaction, required: seq<OutPoint>, factCursor: nat)

  type Candidates = map<Wtxid, Candidate>

  // The outpoints a transaction needs facts for.
  function Needed(transaction: Transaction): set<OutPoint> {
    set o | o in transaction.inputs && o != NULL_OUTPOINT
  }

  /** A coinbase needs nothing, and every other transaction all the outpoints it
      spends. */
  lemma NeededBy(transaction: Transaction)
    requires transaction.WellFormed()
    ensures Needed(transaction) == if transaction.IsCoinbase() then {} else Elements(transaction.inputs)
  {
  }

  /** How much work a fact can still cause: strictly decreasing along every
      transition of the state machine. */
  function Rank(state: FactState): nat {
    match state
    case Awaiting(CurrentParent, attempts) => 5 + SaturatingSub(2, attempts)
    case Awaiting(_, attempts) => 2 + SaturatingSub(2, attempts)
    case CapacityBlocked(_) => 1
    case _ => 0
  }

  function ReadyBytes(state: FactState): nat {
    if state.Ready? then EstimatedScriptBytes(state.script) else 0
  }

  // A mempool parent is expected exactly for the txids of the membership.
  predicate SourceOk(variants: Variants, o: OutPoint, source: FactSource) {
    source.Confirmed? <==> o.txid !in variants
  }

  /** What one fact may say: a ready script is the true one, and absence was
      reported explicitly for an outpoint outside the membership. */
  ghost predicate FactOk(
    o: OutPoint, state: FactState, deferred: set<OutPoint>, nulls: set<OutPoint>, variants: Variants,
    truth: OutPoint -> Script)
  {
    && (state.Waiting() ==> SourceOk(variants, o, state.source))
    && (state.Ready? ==> state.script == truth(o))
    && (state.ExplicitlyMissing? ==> o in nulls && o.txid !in variants)
    && (state.OperationallyDeferred? <==> o in deferred)
  }

  ghost predicate FactsOk(
    facts: Facts, deferred: set<OutPoint>, nulls: set<OutPoint>, variants: Variants, truth: OutPoint -> Script)
  {
    forall o :: o in facts ==> FactOk(o, facts[o], deferred, nulls, variants, truth)
  }

  ghost predicate CandidateOk(key: Wtxid, candidate: Candidate) {
    && candidate.expected.wtxid == key
    && Prepared(candidate.expected, candidate.transaction).WellFormed()
    && NoDuplicates(candidate.required)
    && Elements(candidate.required) == Needed(candidate.transaction)
    && (candidate.required != [] ==> candidate.factCursor < |candidate.required|)
  }

  ghost predicate CandidatesOk(active: Candidates) {
    forall k :: k in active ==> CandidateOk(k, active[k])
  }

  // The facts are exactly those some active candidate requires.
  ghost predicate Covered(active: Candidates, facts: Facts) {
    && (forall k, o :: k in active && o in active[k].required ==> o in facts)
    && (forall o :: o in facts ==> exists k :: k in active && o in active[k].required)
  }

  // The rotation queue is a permutation of the active keys.
  ghost predicate Ordered(active: Candidates, fairOrder: seq<Wtxid>) {
    && NoDuplicates(fairOrder)
    && (forall k :: k in fairOrder <==> k in active)
  }

  // Only a lone candidate may exceed the fact window.
  ghost predicate Windowed(active: Candidates, facts: Facts, window: nat) {
    |facts| > window ==> |active| <= 1
  }

  ghost predicate QueueOk(queued: seq<Prepared>, active: Candidates) {
    && (forall i :: 0 <= i < |queued| ==> queued[i].WellFormed() && queued[i].expected.wtxid !in active)
    && (forall i, j :: 0 <= i < j < |queued| ==> queued[i].expected.wtxid != queued[j].expected.wtxid)
  }

  // The candidate is the exact variant the membership lists.
  predicate Listed(expected: ExpectedVariant, variants: Variants) {
    expected.txid in variants && variants[expected.txid] == Variant(expected.wtxid, expected.vsize)
  }

  ghost predicate Members(active: Candidates, queued: seq<Prepared>, variants: Variants) {
    && (forall k :: k in active ==> Listed(active[k].expected, variants))
    && (forall p :: p in queued ==> Listed(p.expected, variants))
  }

  lemma MembersLess(active: Candidates, queued: seq<Prepared>, variants: Variants, doomed: set<Wtxid>)
    requires Members(active, queued, variants)
    ensures Members(active - doomed, queued, variants)
  {
  }

  lemma MembersMoved(before: Candidates, after: Candidates, queued: seq<Prepared>, variants: Variants)
    requires Members(before, queued, variants) && CursorsMoved(before, after)
    ensures Members(after, queued, variants)
  {
  }

  lemma MembersNext(active: Candidates, queued: seq<Prepared>, variants: Variants, key: Wtxid, candidate: Candidate)
    requires Members(active, queued, variants) && queued != [] && candidate.expected == queued[0].expected
    ensures Members(active[key := candidate], queued[1..], variants)
  {
    assert queued[0] in queued;
  }

  ghost predicate OutputsTrue(txid: Txid, outputs: CachedOutputs, truth: OutPoint -> Script) {
    forall v :: 0 <= v < |outputs.scripts| ==> outputs.scripts[v] == truth(OutPoint(txid, v))
  }

  ghost predicate AllOutputsTrue(outputs: map<Txid, CachedOutputs>, truth: OutPoint -> Script) {
    forall t :: t in outputs ==> OutputsTrue(t, outputs[t], truth)
  }

  ghost predicate AllScriptsTrue(scripts: map<OutPoint, Script>, truth: OutPoint -> Script) {
    forall o :: o in scripts ==> scripts[o] == truth(o)
  }

  function OutputScript(outputs: map<Txid, CachedOutputs>, o: OutPoint): Option<Script> {
    if o.txid in outputs then outputs[o.txid].ScriptAt(o.vout) else None
  }

  lemma OutputScriptTrue(outputs: map<Txid, CachedOutputs>, o: OutPoint, truth: OutPoint -> Script)
    requires AllOutputsTrue(outputs, truth)
    ensures OutputScript(outputs, o).Some? ==> OutputScript(outputs, o).value == truth(o)
  {
    if OutputScript(outputs, o).Some? {
      assert OutPoint(o.txid, o.vout) == o;
    }
  }

  // --- single-fact updates -------------------------------------------------

  lemma FactAt(
    facts: Facts, o: OutPoint, deferred: set<OutPoint>, nulls: set<OutPoint>, variants: Variants,
    truth: OutPoint -> Script)
    requires FactsOk(facts, deferred, nulls, variants, truth) && o in facts
    ensures FactOk(o, facts[o], deferred, nulls, variants, truth)
  {
  }

  lemma UpdateFact(
    facts: Facts, o: OutPoint, state: FactState, deferred: set<OutPoint>, nulls: set<OutPoint>, variants: Variants,
    truth: OutPoint -> Script)
    requires FactsOk(facts, deferred, nulls, variants, truth) && o in facts
    requires FactOk(o, state, deferred, nulls, variants, truth)
    ensures FactsOk(facts[o := state], deferred, nulls, variants, truth)
  {
  }

  // Coverage and the window depend on the outpoints only.
  lemma SameKeys(active: Candidates, facts: Facts, facts': Facts, window: nat)
    requires facts'.Keys == facts.Keys
    ensures Covered(active, facts) ==> Covered(active, facts')
    ensures Windowed(active, facts, window) ==> Windowed(active, facts', window)
  {
    assert |facts| == |facts.Keys| == |facts'.Keys| == |facts'|;
  }

  // Same outpoints, and no fact gained work.
  ghost predicate Evolves(before: Facts, after: Facts) {
    && after.Keys == before.Keys
    && forall o :: o in before ==> Rank(after[o]) <= Rank(before[o])
  }

  lemma EvolvesRank(before: Facts, after: Facts)
    requires Evolves(before, after)
    ensures Sum(after, Rank) <= Sum(before, Rank)
  {
    SumMonotone(after, before, Rank);
  }

  lemma EvolvesStrictly(before: Facts, after: Facts, o: OutPoint)
    requires Evolves(before, after) && o in before && Rank(after[o]) < Rank(before[o])
    ensures Sum(after, Rank) < Sum(before, Rank)
  {
    SumStrict(after, before, Rank, o);
  }

  lemma EvolvesTransitive(a: Facts, b: Facts, c: Facts)
    requires Evolves(a, b) && Evolves(b, c)
    ensures Evolves(a, c)
  {
  }

  // Equal ready scripts, equal bytes.
  lemma SameReadyBytes(a: Facts, b: Facts)
    requires a.Keys == b.Keys && forall o :: o in a ==> ReadyBytes(a[o]) == ReadyBytes(b[o])
    ensures Sum(a, ReadyBytes) == Sum(b, ReadyBytes)
  {
    SumMonotone(a, b, ReadyBytes);
    SumMonotone(b, a, ReadyBytes);
  }

  // --- removing candidates -------------------------------------------------

  // The outpoints required by some active candidate.
  function Referenced(active: Candidates): set<OutPoint> {
    set k, o | k in active && o in active[k].required :: o
  }

  // The facts that survive when only `active` is left.
  function Restrict(facts: Facts, active: Candidates): Facts {
    map o | o in facts && o in Referenced(active) :: facts[o]
  }

  lemma RemoveCovered(active: Candidates, facts: Facts, doomed: set<Wtxid>)
    requires Covered(active, facts)
    ensures Covered(active - doomed, Restrict(facts, active - doomed))
  {
    var left := active - doomed;
    var kept := Restrict(facts, left);
    forall o | o in kept ensures exists k :: k in left && o in left[k].required {
      var k :| k in left && o in left[k].required;
    }
    forall k, o | k in left && o in left[k].required ensures o in kept {
      assert o in active[k].required;
    }
  }

  lemma RemoveOrdered(active: Candidates, fairOrder: seq<Wtxid>, doomed: set<Wtxid>)
    requires Ordered(active, fairOrder)
    ensures Ordered(active - doomed, Retain(fairOrder, (active - doomed).Keys))
  {
    RetainContents(fairOrder, (active - doomed).Keys);
  }

  lemma RestrictSums(facts: Facts, active: Candidates)
    ensures Sum(Restrict(facts, active), ReadyBytes) <= Sum(facts, ReadyBytes)
    ensures Sum(Restrict(facts, active), Rank) <= Sum(facts, Rank)
    ensures |Restrict(facts, active)| <= |facts|
  {
    SumMonotone(Restrict(facts, active), facts, ReadyBytes);
    SumMonotone(Restrict(facts, active), facts, Rank);
    SubsetSize(Restrict(facts, active).Keys, facts.Keys);
  }

  lemma RemoveWindowed(active: Candidates, facts: Facts, window: nat, doomed: set<Wtxid>)
    requires Windowed(active, facts, window)
    ensures Windowed(active - doomed, Restrict(facts, active - doomed), window)
  {
    RestrictSums(facts, active - doomed);
    SubsetSize((active - doomed).Keys, active.Keys);
  }

  lemma RemoveSize(active: Candidates, doomed: set<Wtxid>)
    requires doomed <= active.Keys
    ensures |active - doomed| == |active| - |doomed|
  {
    assert (active - doomed).Keys == active.Keys - doomed;
  }

  lemma RemoveFactsOk(
    facts: Facts, active: Candidates, deferred: set<OutPoint>, nulls: set<OutPoint>, variants: Variants,
    truth: OutPoint -> Script)
    requires FactsOk(facts, deferred, nulls, variants, truth)
    ensures FactsOk(Restrict(facts, active), deferred, nulls, variants, truth)
  {
  }

  lemma RemoveOthersOk(active: Candidates, queued: seq<Prepared>, doomed: set<Wtxid>)
    requires CandidatesOk(active) && QueueOk(queued, active)
    ensures CandidatesOk(active - doomed) && QueueOk(queued, active - doomed)
  {
  }

  lemma RestrictSame(facts: Facts, active: Candidates)
    requires Covered(active, facts)
    ensures Restrict(facts, active) == facts
  {
    forall o | o in facts ensures o in Referenced(active) {
      var k :| k in active && o in active[k].required;
    }
  }

  function Holders(active: Candidates, o: OutPoint): set<Wtxid> {
    set k | k in active && o in active[k].required
  }

  // How many active candidates require `o`.
  function ReferenceCount(active: Candidates, o: OutPoint): nat {
    |Holders(active, o)|
  }

  // The facts that only candidate `key` requires.
  function Exclusive(active: Candidates, facts: Facts, key: Wtxid): Facts
    requires key in active
  {
    map o | o in facts && o in active[key].required && ReferenceCount(active, o) == 1 :: facts[o]
  }

  lemma SoleReference(active: Candidates, o: OutPoint, key: Wtxid)
    requires key in active && o in active[key].required
    ensures ReferenceCount(active, o) == 1 <==> o !in Referenced(active - {key})
  {
    var holders := Holders(active, o);
    assert key in holders;
    forall k | k in holders && k != key ensures o in Referenced(active - {key}) {
      assert k in active - {key} && o in (active - {key})[k].required;
    }
    if o in Referenced(active - {key}) {
      var k :| k in active - {key} && o in (active - {key})[k].required;
      SubsetSize({key, k}, holders);
      assert |{key, k}| == 2;
    } else {
      assert holders == {key};
    }
  }

  // Removing a candidate drops exactly the facts only it required.
  lemma RemoveFrees(active: Candidates, facts: Facts, key: Wtxid)
    requires Covered(active, facts) && key in active
    ensures Sum(facts, ReadyBytes) == Sum(Restrict(facts, active - {key}), ReadyBytes) + Sum(Exclusive(active, facts, key), ReadyBytes)
  {
    hide Sum;
    var kept, freed := Restrict(facts, active - {key}), Exclusive(active, facts, key);
    forall o | o in facts ensures (o in kept) != (o in freed) {
      if o in active[key].required {
        SoleReference(active, o, key);
      } else {
        var k :| k in active && o in active[k].required;
        assert k in active - {key} && o in (active - {key})[k].required;
      }
    }
    SumSplit(facts, kept, freed, ReadyBytes);
  }

  // --- delivering known scripts --------------------------------------------

  /** After the outpoints in `done` were offered their known scripts: each is
      ready, or blocked because it does not fit beside what is retained. */
  ghost predicate Delivered(
    before: Facts, after: Facts, done: set<OutPoint>, known: map<OutPoint, Script>, bytes: nat, limit: nat)
  {
    && after.Keys == before.Keys
    && forall o :: o in before ==>
         if o in done && o in known && before[o].Waiting() then
           || after[o] == Ready(known[o])
           || (after[o] == CapacityBlocked(before[o].source) && bytes + EstimatedScriptBytes(known[o]) > limit)
         else
           after[o] == before[o]
  }

  lemma DeliveredEvolves(
    before: Facts, after: Facts, done: set<OutPoint>, known: map<OutPoint, Script>, bytes: nat, limit: nat)
    requires Delivered(before, after, done, known, bytes, limit)
    ensures Evolves(before, after)
  {
  }

  // Retained bytes only grow while scripts are delivered, so a refusal stays justified.
  lemma DeliverMore(
    before: Facts, after: Facts, done: set<OutPoint>, known: map<OutPoint, Script>, bytes: nat, limit: nat,
    o: OutPoint, state: FactState, bytes': nat)
    requires Delivered(before, after, done, known, bytes, limit)
    requires o in before && o !in done && o in known && before[o].Waiting() && bytes <= bytes'
    requires || state == Ready(known[o])
             || (state == CapacityBlocked(before[o].source) && bytes' + EstimatedScriptBytes(known[o]) > limit)
    ensures Delivered(before, after[o := state], done + {o}, known, bytes', limit)
  {
  }

  // Facts without a known script count as offered from the start.
  lemma DeliverStart(facts: Facts, done: set<OutPoint>, known: map<OutPoint, Script>, bytes: nat, limit: nat)
    requires forall o :: o in done && o in facts ==> !facts[o].Waiting()
    ensures Delivered(facts, facts, done, known, bytes, limit)
  {
  }

  lemma DeliveredUntouched(
    before: Facts, after: Facts, done: set<OutPoint>, known: map<OutPoint, Script>, bytes: nat, limit: nat, o: OutPoint)
    requires Delivered(before, after, done, known, bytes, limit) && o in before && o !in done
    ensures o in after && after[o] == before[o]
  {
  }

  lemma DeliverNothing(
    before: Facts, after: Facts, done: set<OutPoint>, known: map<OutPoint, Script>, bytes: nat, limit: nat, o: OutPoint)
    requires Delivered(before, after, done, known, bytes, limit) && o !in known
    ensures Delivered(before, after, done + {o}, known, bytes, limit)
  {
  }

  // --- activating a candidate ------------------------------------------------

  // How a fact starts out: deferred if it was exhausted earlier in this slice.
  function InitialFact(o: OutPoint, deferred: set<OutPoint>, variants: Variants): FactState {
    if o in deferred then OperationallyDeferred
    else Awaiting(if o.txid in variants then CurrentParent else Confirmed, 0)
  }

  // Facts already present keep their state.
  function AddFacts(facts: Facts, needed: set<OutPoint>, deferred: set<OutPoint>, variants: Variants): Facts {
    map o | o in needed + facts.Keys :: if o in facts then facts[o] else InitialFact(o, deferred, variants)
  }

  lemma AddFactsOk(
    facts: Facts, needed: set<OutPoint>, deferred: set<OutPoint>, nulls: set<OutPoint>, variants: Variants,
    truth: OutPoint -> Script)
    requires FactsOk(facts, deferred, nulls, variants, truth)
    ensures FactsOk(AddFacts(facts, needed, deferred, variants), deferred, nulls, variants, truth)
  {
    var more := AddFacts(facts, needed, deferred, variants);
    forall o | o in more ensures FactOk(o, more[o], deferred, nulls, variants, truth) {
      if o in facts {
        assert FactOk(o, facts[o], deferred, nulls, variants, truth);
      }
    }
  }

  lemma AddFactsSize(facts: Facts, needed: set<OutPoint>, deferred: set<OutPoint>, variants: Variants)
    ensures |AddFacts(facts, needed, deferred, variants)| == |facts| + |needed - facts.Keys|
  {
    var more := AddFacts(facts, needed, deferred, variants);
    assert more.Keys == facts.Keys + (needed - facts.Keys);
  }

  // Facts that are there keep their state.
  lemma AddFactsKeeps(facts: Facts, needed: set<OutPoint>, deferred: set<OutPoint>, variants: Variants)
    ensures forall o :: o in facts ==>
              o in AddFacts(facts, needed, deferred, variants) && AddFacts(facts, needed, deferred, variants)[o] == facts[o]
  {
  }

  lemma AddFactsBytes(facts: Facts, needed: set<OutPoint>, deferred: set<OutPoint>, variants: Variants)
    ensures Sum(AddFacts(facts, needed, deferred, variants), ReadyBytes) == Sum(facts, ReadyBytes)
  {
    hide Sum;
    SumExtend(facts, AddFacts(facts, needed, deferred, variants), ReadyBytes);
  }

  lemma AddCovered(
    active: Candidates, facts: Facts, key: Wtxid, candidate: Candidate, deferred: set<OutPoint>, variants: Variants)
    requires Covered(active, facts) && key !in active
    ensures Covered(active[key := candidate], AddFacts(facts, Elements(candidate.required), deferred, variants))
  {
    var more := AddFacts(facts, Elements(candidate.required), deferred, variants);
    var active' := active[key := candidate];
    forall o | o in more ensures exists k :: k in active' && o in active'[k].required {
      if o in facts {
        var k :| k in active && o in active[k].required;
        assert k in active' && o in active'[k].required;
      } else {
        assert key in active' && o in active'[key].required;
      }
    }
  }

  lemma AddOrdered(active: Candidates, order: seq<Wtxid>, key: Wtxid, candidate: Candidate)
    requires Ordered(active, order) && key !in active
    ensures Ordered(active[key := candidate], order + [key])
  {
    AppendNoDuplicates(order, key);
  }

  lemma AddOthersOk(active: Candidates, queued: seq<Prepared>, candidate: Candidate)
    requires CandidatesOk(active) && queued != [] && QueueOk(queued, active)
    requires CandidateOk(queued[0].expected.wtxid, candidate)
    ensures CandidatesOk(active[queued[0].expected.wtxid := candidate])
    ensures QueueOk(queued[1..], active[queued[0].expected.wtxid := candidate])
  {
  }

  // --- applying RPC answers ---------------------------------------------------

  /** After a parent transaction with these output scripts was applied to the
      outpoints in `done`. */
  ghost predicate ParentApplied(
    before: Facts, after: Facts, parent: Txid, scripts: seq<Script>, done: set<OutPoint>, bytes: nat, limit: nat)
  {
    && after.Keys == before.Keys
    && forall o :: o in before ==> ParentAppliedAt(o, before[o], after[o], parent, scripts, done, bytes, limit)
  }

  ghost predicate ParentAppliedAt(
    o: OutPoint, before: FactState, after: FactState, parent: Txid, scripts: seq<Script>, done: set<OutPoint>,
    bytes: nat, limit: nat)
  {
    if o in done && o.txid == parent && before.AwaitingParent() then
      if o.vout < |scripts| then
        || after == Ready(scripts[o.vout])
        || (after == CapacityBlocked(CurrentParent) && bytes + EstimatedScriptBytes(scripts[o.vout]) > limit)
      else
        after == before.Spent()
    else
      after == before
  }

  lemma ParentApplyOne(
    before: Facts, after: Facts, parent: Txid, scripts: seq<Script>, done: set<OutPoint>, bytes: nat, limit: nat,
    o: OutPoint, state: FactState, bytes': nat)
    requires ParentApplied(before, after, parent, scripts, done, bytes, limit)
    requires o in before && o !in done && bytes <= bytes'
    requires ParentAppliedAt(o, before[o], state, parent, scripts, done + {o}, bytes', limit)
    ensures ParentApplied(before, after[o := state], parent, scripts, done + {o}, bytes', limit)
  {
    forall p | p in before
      ensures ParentAppliedAt(p, before[p], after[o := state][p], parent, scripts, done + {o}, bytes', limit)
    {
      assert ParentAppliedAt(p, before[p], after[p], parent, scripts, done, bytes, limit);
    }
  }

  /** How one gettxout answer moves the fact it was asked for. A refusal for
      lack of capacity is justified by `bytes`. */
  ghost predicate ConfirmedAppliedAt(
    before: FactState, after: FactState, value: RpcValue<Script>, bytes: nat, limit: nat)
  {
    match value
    case Found(script) =>
      if before.Waiting() then
        || after == Ready(script)
        || (after == CapacityBlocked(before.source) && bytes + EstimatedScriptBytes(script) > limit)
      else after == before
    case ExplicitNull =>
      after == if before.Awaiting? && before.source.Confirmed? then ExplicitlyMissing
               else if before.Awaiting? && before.source.ParentFallback? then before.Spent()
               else before
    case RetryableFailure => after == before.Spent()
    case SystemicFailure => after == before
  }

  type Answers = seq<(OutPoint, RpcValue<Script>)>

  // Each answered outpoint awaits a gettxout answer and is answered once.
  ghost predicate Answerable(facts: Facts, answers: Answers) {
    && (forall i :: 0 <= i < |answers| ==> answers[i].0 in facts && facts[answers[i].0].AwaitingConfirmed())
    && (forall i, j :: 0 <= i < j < |answers| ==> answers[i].0 != answers[j].0)
  }

  // The first `count` answers have been applied.
  ghost predicate ConfirmedApplied(before: Facts, after: Facts, answers: Answers, count: nat, bytes: nat, limit: nat)
    requires Answerable(before, answers) && count <= |answers|
  {
    && after.Keys == before.Keys
    && (forall i :: 0 <= i < count ==>
          ConfirmedAppliedAt(before[answers[i].0], after[answers[i].0], answers[i].1, bytes, limit))
    && (forall o :: o in before && (forall i :: 0 <= i < count ==> answers[i].0 != o) ==> after[o] == before[o])
  }

  lemma ConfirmedApplyOne(
    before: Facts, after: Facts, answers: Answers, count: nat, bytes: nat, limit: nat, state: FactState, bytes': nat)
    requires Answerable(before, answers) && count < |answers| && bytes <= bytes'
    requires ConfirmedApplied(before, after, answers, count, bytes, limit)
    requires ConfirmedAppliedAt(before[answers[count].0], state, answers[count].1, bytes', limit)
    ensures ConfirmedApplied(before, after[answers[count].0 := state], answers, count + 1, bytes', limit)
  {
    var after' := after[answers[count].0 := state];
    forall i | 0 <= i < count + 1
      ensures ConfirmedAppliedAt(before[answers[i].0], after'[answers[i].0], answers[i].1, bytes', limit)
    {
      if i < count {
        assert ConfirmedAppliedAt(before[answers[i].0], after[answers[i].0], answers[i].1, bytes, limit);
      }
    }
    forall o | o in before && (forall i :: 0 <= i < count + 1 ==> answers[i].0 != o) ensures after'[o] == before[o] {
      assert answers[count].0 != o;
    }
  }

  lemma ConfirmedAppliedEvolves(before: Facts, after: Facts, answers: Answers, count: nat, bytes: nat, limit: nat)
    requires Answerable(before, answers) && count <= |answers|
    requires ConfirmedApplied(before, after, answers, count, bytes, limit)
    ensures Evolves(before, after)
  {
    forall o | o in before ensures Rank(after[o]) <= Rank(before[o]) {
      if i :| 0 <= i < count && answers[i].0 == o {
        assert ConfirmedAppliedAt(before[o], after[o], answers[i].1, bytes, limit);
      }
    }
  }

  // --- waves ----------------------------------------------------------------

  // One attempt recorded for each selected outpoint.
  function AttemptAll(facts: Facts, selected: set<OutPoint>): Facts {
    map o | o in facts :: if o in selected then facts[o].Attempted() else facts[o]
  }

  // One attempt recorded for each fact that awaits a selected parent.
  function AttemptParents(facts: Facts, parents: set<Txid>): Facts {
    map o | o in facts ::
      if o.txid in parents && facts[o].AwaitingParent() then facts[o].Attempted() else facts[o]
  }

  // Facts that await an unresolved parent turn to gettxout, with its own attempts.
  function FallBack(facts: Facts, parents: set<Txid>): Facts {
    map o | o in facts ::
      if o.txid in parents && facts[o].AwaitingParent() then Awaiting(ParentFallback, 0) else facts[o]
  }

  lemma FactsMapped(
    facts: Facts, facts': Facts, deferred: set<OutPoint>, nulls: set<OutPoint>, variants: Variants,
    truth: OutPoint -> Script)
    requires FactsOk(facts, deferred, nulls, variants, truth) && facts'.Keys == facts.Keys
    requires forall o :: o in facts ==>
      || facts'[o] == facts[o]
      || facts'[o] == facts[o].Attempted()
      || (facts[o].AwaitingParent() && facts'[o] == Awaiting(ParentFallback, 0))
    ensures FactsOk(facts', deferred, nulls, variants, truth)
    ensures Sum(facts', ReadyBytes) == Sum(facts, ReadyBytes)
    ensures Evolves(facts, facts')
  {
    hide Sum;
    SameReadyBytes(facts, facts');
    forall o | o in facts' ensures FactOk(o, facts'[o], deferred, nulls, variants, truth) {
      assert FactOk(o, facts[o], deferred, nulls, variants, truth);
    }
  }

  // Only fact cursors differ.
  ghost predicate CursorsMoved(before: Candidates, after: Candidates) {
    && after.Keys == before.Keys
    && forall k :: k in before ==> after[k] == before[k].(factCursor := after[k].factCursor)
  }

  lemma CursorsMovedKeeps(before: Candidates, after: Candidates, facts: Facts, order: seq<Wtxid>, queued: seq<Prepared>,
                          window: nat)
    requires CursorsMoved(before, after)
    ensures Covered(before, facts) ==> Covered(after, facts)
    ensures Ordered(before, order) ==> Ordered(after, order)
    ensures QueueOk(queued, before) ==> QueueOk(queued, after)
    ensures Windowed(before, facts, window) ==> Windowed(after, facts, window)
  {
    if Covered(before, facts) {
      forall o | o in facts ensures exists k :: k in after && o in after[k].required {
        var k :| k in before && o in before[k].required;
        assert o in after[k].required;
      }
    }
    assert |before| == |before.Keys| == |after.Keys| == |after|;
  }

  function Rotate<T>(s: seq<T>, n: nat): seq<T>
    requires n <= |s|
  {
    s[n..] + s[..n]
  }

  lemma RotateStep<T>(s: seq<T>, n: nat)
    requires n < |s|
    ensures |Rotate(s, n)| == |s| && Rotate(s, n)[0] == s[n]
    ensures Rotate(s, n)[1..] + [Rotate(s, n)[0]] == Rotate(s, n + 1)
  {
  }

  lemma RotateOrdered(active: Candidates, order: seq<Wtxid>)
    requires Ordered(active, order) && order != []
    ensures Ordered(active, order[1..] + [order[0]])
  {
    var turned := order[1..] + [order[0]];
    assert forall i :: 0 <= i < |order| ==> turned[i] == order[if i + 1 < |order| then i + 1 else 0];
    forall k ensures k in turned <==> k in active {
      if k in active {
        var i :| 0 <= i < |order| && order[i] == k;
        assert turned[if i > 0 then i - 1 else |order| - 1] == k;
      }
    }
  }

  // --- spent facts -----------------------------------------------------------

  // A fact that awaits an answer it may no longer ask for.
  predicate Spent(state: FactState) {
    state.Awaiting? && !state.HasAttemptLeft()
  }

  predicate NoneSpent(facts: Facts) {
    forall o :: o in facts ==> !Spent(facts[o])
  }

  lemma RestrictNoneSpent(facts: Facts, active: Candidates)
    requires NoneSpent(facts)
    ensures NoneSpent(Restrict(facts, active))
  {
  }

  lemma DeliveredNoneSpent(
    before: Facts, after: Facts, done: set<OutPoint>, known: map<OutPoint, Script>, bytes: nat, limit: nat)
    requires Delivered(before, after, done, known, bytes, limit) && NoneSpent(before)
    ensures NoneSpent(after)
  {
  }

  // The outpoint got an answer that is not a systemic failure.
  ghost predicate AnsweredFor(answers: Answers, o: OutPoint) {
    exists i :: 0 <= i < |answers| && answers[i].0 == o && !answers[i].1.SystemicFailure?
  }

  // Every selected outpoint did.
  ghost predicate AllAnswered(answers: Answers, selected: set<OutPoint>) {
    forall o :: o in selected ==> AnsweredFor(answers, o)
  }

  // An attempt on an eligible fact is work done.
  lemma AttemptParentsProgress(facts: Facts, parents: set<Txid>, o: OutPoint)
    requires o in facts && facts[o].ParentEligible() && o.txid in parents
    ensures Sum(AttemptParents(facts, parents), Rank) < Sum(facts, Rank)
  {
    EvolvesStrictly(facts, AttemptParents(facts, parents), o);
  }

  lemma AttemptAllProgress(facts: Facts, selected: set<OutPoint>, o: OutPoint)
    requires o in facts && facts[o].ConfirmedEligible() && o in selected
    ensures Sum(AttemptAll(facts, selected), Rank) < Sum(facts, Rank)
  {
    EvolvesStrictly(facts, AttemptAll(facts, selected), o);
  }
}
