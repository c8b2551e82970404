/** What the steps of a pending slice compute, as values: known scripts, verdicts,
    activation, answers, waves and victims. */
module SliceSteps {
  import opened Base
  import opened FactTable
  import RoundRobin

  // What is still to do in a slice, ordered lexicographically.
  datatype Measure = Measure(candidates: nat, queued: nat, rank: nat) {
    predicate Below(other: Measure) {
      || candidates < other.candidates
      || (candidates == other.candidates && queued < other.queued)
      || (candidates == other.candidates && queued == other.queued && rank < other.rank)
    }

    predicate AtMost(other: Measure) {
      this == other || Below(other)
    }
  }

  /** A classified candidate. The policy evaluator is a pure function of the
      transaction and these previous outputs, so the record keeps its input;
      a coinbase is evaluated without any. */
  datatype Classified = Classified(
    expected: ExpectedVariant, transaction: Transaction, prevouts: seq<Option<Script>>, retryable: bool)

  // The script a fact offers the evaluator.
  function FactScript(facts: Facts, o: OutPoint): Option<Script> {
    if o in facts && facts[o].Ready? then Some(facts[o].script) else None
  }

  predicate IsTerminal(candidate: Candidate, facts: Facts) {
    forall o :: o in candidate.required ==> o in facts && facts[o].Terminal()
  }

  ghost function EvaluatorInput(transaction: Transaction, facts: Facts): seq<Option<Script>> {
    if transaction.IsCoinbase() then []
    else seq(|transaction.inputs|, i requires 0 <= i < |transaction.inputs| => FactScript(facts, transaction.inputs[i]))
  }

  ghost function Verdict(candidate: Candidate, facts: Facts): Classified {
    var input := EvaluatorInput(candidate.transaction, facts);
    Classified(candidate.expected, candidate.transaction, input, None in input)
  }

  /** What the evaluator is told about one input: the true script, or nothing,
      and nothing only for an explicit null outside the membership. */
  ghost predicate PrevoutSound(
    o: OutPoint, prevout: Option<Script>, nulls: set<OutPoint>, variants: Variants, truth: OutPoint -> Script)
  {
    match prevout
    case Some(script) => script == truth(o)
    case None => o in nulls && o.txid !in variants
  }

  ghost predicate ClassifiedSound(
    c: Classified, nulls: set<OutPoint>, variants: Variants, truth: OutPoint -> Script)
  {
    && c.transaction.wtxid == c.expected.wtxid
    && (if c.transaction.IsCoinbase() then c.prevouts == [] else |c.prevouts| == |c.transaction.inputs|)
    && (c.prevouts != [] ==> forall i :: 0 <= i < |c.prevouts| ==>
          i < |c.transaction.inputs| && PrevoutSound(c.transaction.inputs[i], c.prevouts[i], nulls, variants, truth))
    && (c.retryable <==> None in c.prevouts)
  }

  lemma VerdictSound(
    key: Wtxid, candidate: Candidate, facts: Facts, deferred: set<OutPoint>, nulls: set<OutPoint>, variants: Variants,
    truth: OutPoint -> Script)
    requires CandidateOk(key, candidate) && IsTerminal(candidate, facts)
    requires FactsOk(facts, deferred, nulls, variants, truth)
    ensures ClassifiedSound(Verdict(candidate, facts), nulls, variants, truth)
  {
    var tx := candidate.transaction;
    if !tx.IsCoinbase() {
      forall i | 0 <= i < |tx.inputs|
        ensures PrevoutSound(tx.inputs[i], FactScript(facts, tx.inputs[i]), nulls, variants, truth)
      {
        assert tx.inputs[i] in Elements(candidate.required);
        assert FactOk(tx.inputs[i], facts[tx.inputs[i]], deferred, nulls, variants, truth);
      }
    }
  }

  // The scripts the caches hold for waiting facts.
  ghost function CacheKnown(
    facts: Facts, raw: map<Txid, CachedOutputs>, variants: Variants, outputs: map<Txid, CachedOutputs>,
    confirmed: map<OutPoint, Script>): map<OutPoint, Script>
  {
    map o | o in facts && facts[o].Waiting() && CacheScript(facts[o].source, o, raw, variants, outputs, confirmed).Some?
      :: CacheScript(facts[o].source, o, raw, variants, outputs, confirmed).value
  }

  function CurrentOutputScript(variants: Variants, outputs: map<Txid, CachedOutputs>, o: OutPoint): Option<Script> {
    if o.txid in variants && o.txid in outputs && outputs[o.txid].wtxid == variants[o.txid].wtxid
    then outputs[o.txid].ScriptAt(o.vout) else None
  }

  function ParentScript(
    o: OutPoint, raw: map<Txid, CachedOutputs>, variants: Variants, outputs: map<Txid, CachedOutputs>): Option<Script>
  {
    var own := OutputScript(raw, o);
    if own.Some? then own else CurrentOutputScript(variants, outputs, o)
  }

  ghost function CacheScript(
    source: FactSource, o: OutPoint, raw: map<Txid, CachedOutputs>, variants: Variants,
    outputs: map<Txid, CachedOutputs>, confirmed: map<OutPoint, Script>): Option<Script>
  {
    if source.CurrentParent? then ParentScript(o, raw, variants, outputs)
    else if o in confirmed then Some(confirmed[o]) else None
  }

  lemma CacheKnownTrue(
    facts: Facts, raw: map<Txid, CachedOutputs>, variants: Variants, outputs: map<Txid, CachedOutputs>,
    confirmed: map<OutPoint, Script>, truth: OutPoint -> Script)
    requires AllOutputsTrue(raw, truth) && AllOutputsTrue(outputs, truth) && AllScriptsTrue(confirmed, truth)
    ensures AllScriptsTrue(CacheKnown(facts, raw, variants, outputs, confirmed), truth)
  {
    forall o | o in CacheKnown(facts, raw, variants, outputs, confirmed)
      ensures CacheKnown(facts, raw, variants, outputs, confirmed)[o] == truth(o)
    {
      OutputScriptTrue(raw, o, truth);
      OutputScriptTrue(outputs, o, truth);
    }
  }

  // The scripts fetched during this call for waiting facts.
  ghost function TransientKnown(
    facts: Facts, outputs: map<Txid, CachedOutputs>, confirmed: map<OutPoint, Script>): map<OutPoint, Script>
  {
    map o | o in facts && facts[o].Waiting() && TransientScript(facts[o].source, o, outputs, confirmed).Some?
      :: TransientScript(facts[o].source, o, outputs, confirmed).value
  }

  function TransientScript(
    source: FactSource, o: OutPoint, outputs: map<Txid, CachedOutputs>, confirmed: map<OutPoint, Script>): Option<Script>
  {
    if source.CurrentParent? then OutputScript(outputs, o)
    else if o in confirmed then Some(confirmed[o]) else None
  }

  /** This call fetched the script: among the outputs of a mempool parent, or from
      gettxout. */
  ghost predicate FetchedNow(
    o: OutPoint, source: FactSource, outputs: map<Txid, CachedOutputs>, confirmed: map<OutPoint, Script>)
  {
    match source
    case CurrentParent => o.txid in outputs && o.vout < |outputs[o.txid].scripts|
    case _ => o in confirmed
  }

  lemma FetchedKnown(
    facts: Facts, o: OutPoint, raw: map<Txid, CachedOutputs>, outputs: map<Txid, CachedOutputs>,
    confirmed: map<OutPoint, Script>)
    requires o in facts && facts[o].Waiting()
    ensures o in TransientKnown(facts, outputs, confirmed) <==> FetchedNow(o, facts[o].source, outputs, confirmed)
    ensures TransientUsable(o, facts[o], raw, outputs, confirmed) <==>
              && facts[o].CapacityBlocked? && FetchedNow(o, facts[o].source, outputs, confirmed)
              && (facts[o].source.CurrentParent? ==> !(o.txid in raw && o.vout < |raw[o.txid].scripts|))
  {
  }

  lemma TransientKnownTrue(
    facts: Facts, outputs: map<Txid, CachedOutputs>, confirmed: map<OutPoint, Script>, truth: OutPoint -> Script)
    requires AllOutputsTrue(outputs, truth) && AllScriptsTrue(confirmed, truth)
    ensures AllScriptsTrue(TransientKnown(facts, outputs, confirmed), truth)
  {
    forall o | o in TransientKnown(facts, outputs, confirmed)
      ensures TransientKnown(facts, outputs, confirmed)[o] == truth(o)
    {
      OutputScriptTrue(outputs, o, truth);
    }
  }

  // Some required fact has exhausted its attempts.
  predicate Doomed(candidate: Candidate, facts: Facts) {
    exists o :: o in candidate.required && o in facts && facts[o].OperationallyDeferred?
  }

  // One record per classified key, each the verdict on that candidate.
  ghost predicate IsClassificationOf(classified: seq<Classified>, keys: set<Wtxid>, active: Candidates, facts: Facts) {
    && keys <= active.Keys
    && |classified| == |keys|
    && (forall c :: c in classified ==>
          c.expected.wtxid in keys && c == Verdict(active[c.expected.wtxid], facts))
    && (forall k :: k in keys ==> Verdict(active[k], facts) in classified)
  }

  lemma ClassifyNone(active: Candidates, facts: Facts)
    ensures IsClassificationOf([], {}, active, facts)
  {
  }

  lemma ClassificationSize(classified: seq<Classified>, keys: set<Wtxid>, active: Candidates, facts: Facts)
    requires IsClassificationOf(classified, keys, active, facts)
    ensures classified == [] <==> keys == {}
  {
  }

  lemma ClassifyOneMore(
    classified: seq<Classified>, keys: set<Wtxid>, active: Candidates, facts: Facts, key: Wtxid)
    requires IsClassificationOf(classified, keys, active, facts)
    requires key in active && key !in keys && CandidateOk(key, active[key])
    ensures IsClassificationOf(classified + [Verdict(active[key], facts)], keys + {key}, active, facts)
  {
    assert Verdict(active[key], facts).expected.wtxid == key;
  }

  lemma CandidateAt(active: Candidates, key: Wtxid)
    requires CandidatesOk(active) && key in active
    ensures CandidateOk(key, active[key])
  {
  }

  // Candidates that were not ready are not ready after the others left.
  lemma StillOpen(active: Candidates, facts: Facts, ready: set<Wtxid>)
    requires Covered(active, facts)
    requires ready == set k | k in active && IsTerminal(active[k], facts)
    ensures forall k :: k in active - ready ==> !IsTerminal((active - ready)[k], Restrict(facts, active - ready))
  {
    forall k | k in active - ready ensures !IsTerminal(active[k], Restrict(facts, active - ready)) {
      assert !IsTerminal(active[k], facts);
      var o :| o in active[k].required && !(o in facts && facts[o].Terminal());
      assert o in facts;
      assert (active - ready)[k] == active[k];
      assert o in Referenced(active - ready);
    }
  }

  function OutputsOf(expected: ExpectedVariant, transaction: Transaction): CachedOutputs {
    CachedOutputs(
      expected.wtxid, transaction.outputs, ESTIMATED_JSON_BYTES_PER_RESPONSE + ScriptLengths(transaction.outputs))
  }

  function ScriptLengths(scripts: seq<Script>): nat {
    if scripts == [] then 0 else |scripts[0]| + ScriptLengths(scripts[1..])
  }

  // The elements of a set, each once (BTreeSet iteration).
  method ListOutpoints(outpoints: set<OutPoint>) returns (list: seq<OutPoint>)
    ensures NoDuplicates(list) && Elements(list) == outpoints
  {
    list := [];
    var todo := outpoints;
    while todo != {}
      invariant todo <= outpoints && NoDuplicates(list) && Elements(list) == outpoints - todo
      decreases todo
    {
      var o :| o in todo;
      assert o !in Elements(list);
      AppendNoDuplicates(list, o);
      assert Elements(list + [o]) == Elements(list) + {o};
      list := list + [o];
      todo := todo - {o};
    }
  }

  ghost predicate IsSuffix(tail: seq<Prepared>, whole: seq<Prepared>) {
    |tail| <= |whole| && tail == whole[|whole| - |tail|..]
  }

  lemma SuffixSelf(whole: seq<Prepared>)
    ensures IsSuffix(whole, whole)
  {
  }

  lemma SuffixTail(tail: seq<Prepared>, whole: seq<Prepared>)
    requires IsSuffix(tail, whole) && tail != []
    ensures IsSuffix(tail[1..], whole)
  {
  }

  // Facts kept their state, and new ones start out as they should.
  ghost predicate GrownFrom(facts0: Facts, facts: Facts, deferred: set<OutPoint>, variants: Variants) {
    && (forall o :: o in facts0 ==> o in facts && facts[o] == facts0[o])
    && (forall o :: o in facts && o !in facts0 ==> facts[o] == InitialFact(o, deferred, variants))
  }

  lemma GrownMore(facts0: Facts, facts1: Facts, needed: set<OutPoint>, deferred: set<OutPoint>, variants: Variants)
    requires GrownFrom(facts0, facts1, deferred, variants)
    ensures GrownFrom(facts0, AddFacts(facts1, needed, deferred, variants), deferred, variants)
  {
  }

  lemma GrownStart(facts: Facts, deferred: set<OutPoint>, variants: Variants)
    ensures GrownFrom(facts, facts, deferred, variants)
  {
  }

  // The first candidate of the queue, with its facts listed.
  lemma NextCandidateOk(queued: seq<Prepared>, active: Candidates, required: seq<OutPoint>)
    requires queued != [] && QueueOk(queued, active)
    requires NoDuplicates(required) && Elements(required) == Needed(queued[0].transaction)
    ensures queued[0].expected.wtxid !in active
    ensures CandidateOk(
              queued[0].expected.wtxid, Candidate(queued[0].expected, queued[0].transaction, required, 0))
  {
  }

  lemma AddWindowed(active: Candidates, key: Wtxid, candidate: Candidate, facts: Facts, more: Facts, window: nat)
    requires key !in active && (active == map[] || |more| <= window)
    ensures |active[key := candidate]| == |active| + 1
    ensures Windowed(active[key := candidate], more, window)
  {
    assert active[key := candidate].Keys == active.Keys + {key};
  }

  // The estimated bytes of the scripts among the first `count` answers.
  ghost function FoundBytes(answers: Answers, count: nat): nat
    requires count <= |answers|
  {
    if count == 0 then 0 else
      var value := answers[count - 1].1;
      FoundBytes(answers, count - 1) + if value.Found? then EstimatedScriptBytes(value.value) else 0
  }

  ghost predicate FoundFit(answers: Answers, bytes: nat, limit: nat) {
    bytes + FoundBytes(answers, |answers|) <= limit
  }

  lemma {:induction false} FoundBytesMonotone(answers: Answers, a: nat, b: nat)
    requires a <= b <= |answers|
    ensures FoundBytes(answers, a) <= FoundBytes(answers, b)
    decreases b
  {
    if a < b {
      FoundBytesMonotone(answers, a, b - 1);
    }
  }

  lemma ConfirmedApplyStart(facts: Facts, answers: Answers, bytes: nat, limit: nat)
    requires Answerable(facts, answers)
    ensures ConfirmedApplied(facts, facts, answers, 0, bytes, limit)
  {
  }

  lemma AnswerUntouched(before: Facts, after: Facts, answers: Answers, i: nat, bytes: nat, limit: nat)
    requires Answerable(before, answers) && i < |answers| && ConfirmedApplied(before, after, answers, i, bytes, limit)
    ensures answers[i].0 in after && after[answers[i].0] == before[answers[i].0]
    ensures after[answers[i].0].AwaitingConfirmed()
  {
  }

  // Every script among the first `count` answers was admitted.
  ghost predicate FoundReady(facts: Facts, answers: Answers, count: nat)
    requires count <= |answers|
  {
    forall j :: 0 <= j < count && answers[j].1.Found? ==>
      answers[j].0 in facts && facts[answers[j].0] == Ready(answers[j].1.value)
  }

  lemma ReadyWhenFits(before: FactState, after: FactState, value: RpcValue<Script>, bytes: nat, limit: nat)
    requires before.AwaitingConfirmed() && ConfirmedAppliedAt(before, after, value, bytes, limit)
    requires value.Found? ==> after.Ready?
    ensures value.Found? ==> after == Ready(value.value)
  {
  }

  lemma FoundReadyNone(facts: Facts, answers: Answers)
    ensures FoundReady(facts, answers, 0)
  {
  }

  lemma FoundReadyOne(before: Facts, facts: Facts, answers: Answers, i: nat, state: FactState)
    requires Answerable(before, answers) && i < |answers| && FoundReady(facts, answers, i)
    requires answers[i].1.Found? ==> state == Ready(answers[i].1.value)
    ensures FoundReady(facts[answers[i].0 := state], answers, i + 1)
  {
  }

  lemma MoreNulls(
    facts: Facts, deferred: set<OutPoint>, nulls: set<OutPoint>, variants: Variants, truth: OutPoint -> Script,
    o: OutPoint)
    requires FactsOk(facts, deferred, nulls, variants, truth)
    ensures FactsOk(facts, deferred, nulls + {o}, variants, truth)
  {
    forall p | p in facts ensures FactOk(p, facts[p], deferred, nulls + {o}, variants, truth) {
      assert FactOk(p, facts[p], deferred, nulls, variants, truth);
    }
  }

  lemma ParentApplyStart(
    facts: Facts, parent: Txid, scripts: seq<Script>, done: set<OutPoint>, bytes: nat, limit: nat)
    requires forall o :: o in facts && o in done ==> !(o.txid == parent && facts[o].AwaitingParent())
    ensures ParentApplied(facts, facts, parent, scripts, done, bytes, limit)
  {
  }

  lemma ParentUntouched(
    before: Facts, after: Facts, parent: Txid, scripts: seq<Script>, done: set<OutPoint>, bytes: nat, limit: nat,
    o: OutPoint)
    requires ParentApplied(before, after, parent, scripts, done, bytes, limit) && o in before && o !in done
    ensures o in after && after[o] == before[o]
  {
    assert ParentAppliedAt(o, before[o], after[o], parent, scripts, done, bytes, limit);
  }

  // --- waves -----------------------------------------------------------------

  ghost function EligibleIndices(required: seq<OutPoint>, facts: Facts, p: (OutPoint, FactState) -> bool): set<nat> {
    set i | 0 <= i < |required| && required[i] in facts && p(required[i], facts[required[i]])
  }

  /** Scans a candidate's facts cyclically from its cursor and takes the first
      eligible one; the cursor moves just behind it. */
  method NextCandidateFact(candidate: Candidate, facts: Facts, p: (OutPoint, FactState) -> bool)
    returns (pick: Option<OutPoint>, moved: Candidate)
    requires candidate.required != [] ==> candidate.factCursor < |candidate.required|
    ensures pick.None? ==> moved == candidate && EligibleIndices(candidate.required, facts, p) == {}
    ensures pick.Some? ==>
              exists i: nat ::
                && candidate.required != []
                && RoundRobin.IsNext(
                     |candidate.required|, candidate.factCursor, EligibleIndices(candidate.required, facts, p), i)
                && pick.value == candidate.required[i]
                && moved == candidate.(factCursor := RoundRobin.Advance(|candidate.required|, i))
  {
    var n := |candidate.required|;
    if n == 0 {
      return None, candidate;
    }
    for offset := 0 to n
      invariant forall i :: i in EligibleIndices(candidate.required, facts, p) ==>
                  offset <= RoundRobin.Distance(n, candidate.factCursor, i)
    {
      var index := (candidate.factCursor + offset) % n;
      WrapAround(n, candidate.factCursor, offset);
      var outpoint := candidate.required[index];
      if outpoint in facts && p(outpoint, facts[outpoint]) {
        assert index in EligibleIndices(candidate.required, facts, p);
        WrapAround(n, index, 1);
        assert RoundRobin.IsNext(n, candidate.factCursor, EligibleIndices(candidate.required, facts, p), index);
        return Some(outpoint), candidate.(factCursor := (index + 1) % n);
      }
    }
    return None, candidate;
  }

  lemma WrapAround(n: nat, cursor: nat, offset: nat)
    requires cursor < n && offset <= n
    ensures (cursor + offset) % n == if cursor + offset < n then cursor + offset else cursor + offset - n
    ensures offset < n ==> RoundRobin.Distance(n, cursor, (cursor + offset) % n) == offset
    ensures offset == 1 ==> (cursor + offset) % n == RoundRobin.Advance(n, cursor)
    ensures forall i :: 0 <= i < n && RoundRobin.Distance(n, cursor, i) == offset ==> i == (cursor + offset) % n
  {
    if cursor + offset >= n {
      ModOnce(cursor + offset - n, n);
    }
  }

  lemma ModOnce(x: nat, n: nat)
    requires x < n
    ensures (x + n) % n == x
  {
  }

  // How many gettxout answers one wave may ask for.
  function WaveSize(limits: ResolverLimits, bytes: nat): nat {
    var available := SaturatingSub(limits.maxPendingScriptBytes, bytes);
    var maximum := Min(limits.maxConfirmedPrevoutsPerWave, available / ESTIMATED_GETTXOUT_RESPONSE_BYTES);
    if available > 0 then Max(maximum, 1) else 0
  }

  function Min(a: nat, b: nat): nat {
    if a <= b then a else b
  }

  function Max(a: nat, b: nat): nat {
    if a >= b then a else b
  }

  // Each selection is a distinct eligible fact of the candidate it was made for.
  ghost predicate WaveOk(facts: Facts, active: Candidates, selected: seq<OutPoint>, owners: seq<Wtxid>) {
    && NoDuplicates(selected)
    && |owners| == |selected|
    && forall i :: 0 <= i < |selected| ==>
         && selected[i] in facts && facts[selected[i]].ConfirmedEligible()
         && owners[i] in active && selected[i] in active[owners[i]].required
  }

  // Nothing eligible is left to select for a candidate.
  ghost predicate Exhausted(facts: Facts, required: seq<OutPoint>, selected: seq<OutPoint>) {
    forall o :: o in required && o in facts && facts[o].ConfirmedEligible() ==> o in selected
  }

  // How many selections were made for candidate `k`.
  ghost function Picks(owners: seq<Wtxid>, k: Wtxid): nat {
    multiset(owners)[k]
  }

  /** In round `r`, after `i` visits: a visited candidate has r + 1 selections, an
      unvisited one r, unless it has nothing eligible left. */
  ghost predicate RoundOk(
    facts: Facts, active: Candidates, order: seq<Wtxid>, selected: seq<OutPoint>, owners: seq<Wtxid>, r: nat, i: nat)
    requires forall k :: k in order ==> k in active
  {
    forall j :: 0 <= j < |order| ==>
      var quota := if j < i then r + 1 else r;
      && Picks(owners, order[j]) <= quota
      && (Picks(owners, order[j]) == quota || Exhausted(facts, active[order[j]].required, selected))
  }

  /** Max-min fairness: a candidate may be two selections behind another only if
      it has nothing eligible left. */
  ghost predicate Fair(facts: Facts, active: Candidates, selected: seq<OutPoint>, owners: seq<Wtxid>) {
    forall c, d :: c in active && d in active && Picks(owners, d) + 1 < Picks(owners, c) ==>
      Exhausted(facts, active[d].required, selected)
  }

  lemma RoundPick(
    facts: Facts, active: Candidates, order: seq<Wtxid>, selected: seq<OutPoint>, owners: seq<Wtxid>, r: nat, i: nat,
    o: OutPoint)
    requires forall k :: k in order ==> k in active
    requires NoDuplicates(order) && i < |order| && RoundOk(facts, active, order, selected, owners, r, i)
    requires o in active[order[i]].required && o in facts && facts[o].ConfirmedEligible() && o !in selected
    ensures RoundOk(facts, active, order, selected + [o], owners + [order[i]], r, i + 1)
  {
    var selected', owners' := selected + [o], owners + [order[i]];
    forall j | 0 <= j < |order|
      ensures var quota := if j < i + 1 then r + 1 else r;
              && Picks(owners', order[j]) <= quota
              && (Picks(owners', order[j]) == quota || Exhausted(facts, active[order[j]].required, selected'))
    {
      assert Picks(owners', order[j]) == Picks(owners, order[j]) + if order[j] == order[i] then 1 else 0;
      if j == i {
        assert !Exhausted(facts, active[order[i]].required, selected);
      }
    }
  }

  lemma RoundSkip(
    facts: Facts, active: Candidates, order: seq<Wtxid>, selected: seq<OutPoint>, owners: seq<Wtxid>, r: nat, i: nat)
    requires forall k :: k in order ==> k in active
    requires i < |order| && RoundOk(facts, active, order, selected, owners, r, i)
    requires Exhausted(facts, active[order[i]].required, selected)
    ensures RoundOk(facts, active, order, selected, owners, r, i + 1)
  {
  }

  lemma RoundEnd(
    facts: Facts, active: Candidates, order: seq<Wtxid>, selected: seq<OutPoint>, owners: seq<Wtxid>, r: nat)
    requires forall k :: k in order ==> k in active
    requires RoundOk(facts, active, order, selected, owners, r, |order|)
    ensures RoundOk(facts, active, order, selected, owners, r + 1, 0)
  {
  }

  lemma RoundStart(facts: Facts, active: Candidates, order: seq<Wtxid>)
    requires forall k :: k in order ==> k in active
    ensures RoundOk(facts, active, order, [], [], 0, 0)
  {
  }

  lemma RoundFair(
    facts: Facts, active: Candidates, order: seq<Wtxid>, selected: seq<OutPoint>, owners: seq<Wtxid>, r: nat, i: nat)
    requires Ordered(active, order) && RoundOk(facts, active, order, selected, owners, r, i)
    ensures Fair(facts, active, selected, owners)
  {
    forall c, d | c in active && d in active && Picks(owners, d) + 1 < Picks(owners, c)
      ensures Exhausted(facts, active[d].required, selected)
    {
      var a :| 0 <= a < |order| && order[a] == c;
      var b :| 0 <= b < |order| && order[b] == d;
    }
  }

  lemma WaveMore(
    facts: Facts, active: Candidates, selected: seq<OutPoint>, owners: seq<Wtxid>, o: OutPoint, k: Wtxid)
    requires WaveOk(facts, active, selected, owners)
    requires o in facts && facts[o].ConfirmedEligible() && o !in selected && k in active && o in active[k].required
    ensures WaveOk(facts, active, selected + [o], owners + [k])
  {
    AppendNoDuplicates(selected, o);
  }

  lemma WaveBound(facts: Facts, active: Candidates, selected: seq<OutPoint>, owners: seq<Wtxid>)
    requires WaveOk(facts, active, selected, owners)
    ensures |selected| <= |facts|
  {
    NoDuplicatesSize(selected);
    SubsetSize(Elements(selected), facts.Keys);
  }

  // One more selected outpoint, one more recorded attempt.
  lemma AttemptOne(facts: Facts, selected: seq<OutPoint>, o: OutPoint)
    requires o in facts && o !in selected
    ensures AttemptAll(facts, Elements(selected))[o] == facts[o]
    ensures AttemptAll(facts, Elements(selected))[o := facts[o].Attempted()] == AttemptAll(facts, Elements(selected + [o]))
  {
    assert Elements(selected + [o]) == Elements(selected) + {o};
  }

  // Every active candidate is exhausted, so every eligible fact is selected.
  lemma AllSelected(facts: Facts, active: Candidates, selected: seq<OutPoint>)
    requires Covered(active, facts)
    requires forall k :: k in active ==> Exhausted(facts, active[k].required, selected)
    ensures forall o :: o in facts && facts[o].ConfirmedEligible() ==> o in selected
  {
    forall o | o in facts && facts[o].ConfirmedEligible() ensures o in selected {
      var k :| k in active && o in active[k].required;
      assert Exhausted(facts, active[k].required, selected);
    }
  }

  lemma CandidateCursor(key: Wtxid, candidate: Candidate)
    requires CandidateOk(key, candidate)
    ensures candidate.required != [] ==> candidate.factCursor < |candidate.required|
  {
  }

  lemma NothingEligible(required: seq<OutPoint>, facts: Facts, p: (OutPoint, FactState) -> bool)
    ensures EligibleIndices(required, facts, p) == {} ==>
              forall o :: o in required && o in facts ==> !p(o, facts[o])
  {
    forall o | o in required && o in facts && p(o, facts[o]) ensures EligibleIndices(required, facts, p) != {} {
      var i :| 0 <= i < |required| && required[i] == o;
      assert i in EligibleIndices(required, facts, p);
    }
  }

  lemma CursorMovedOk(active: Candidates, key: Wtxid, moved: Candidate)
    requires CandidatesOk(active) && key in active && moved == active[key].(factCursor := moved.factCursor)
    requires moved.required != [] ==> moved.factCursor < |moved.required|
    ensures CandidatesOk(active[key := moved])
  {
    assert CandidateOk(key, active[key]);
  }

  lemma WaveStart(facts: Facts, active: Candidates, order: seq<Wtxid>)
    ensures WaveOk(facts, active, [], []) && CursorsMoved(active, active)
    ensures AttemptAll(facts, Elements([])) == facts
    ensures Rotate(order, 0) == order
  {
  }

  lemma RotateFacts(order: seq<Wtxid>, active: Candidates)
    requires Ordered(active, order)
    ensures Rotate(order, 0) == order && Rotate(order, |order|) == order && NoDuplicates(order)
    ensures forall k :: k in active <==> exists j :: 0 <= j < |order| && order[j] == k
  {
  }

  // --- raw parent waves --------------------------------------------------------

  function Txids(selected: seq<ExpectedVariant>): set<Txid> {
    set e | e in selected :: e.txid
  }

  // The estimated bytes of the raw responses.
  function RawBytes(selected: seq<ExpectedVariant>): nat {
    if selected == [] then 0
    else RawBytes(selected[..|selected| - 1]) + EstimatedRawResponseBytes(selected[|selected| - 1])
  }

  /** Each selection is a distinct member of the membership, asked for in its
      exact witness variant, with a fact that may still ask for it. */
  ghost predicate ParentWaveOk(facts: Facts, variants: Variants, selected: seq<ExpectedVariant>) {
    && (forall i, j :: 0 <= i < j < |selected| ==> selected[i].txid != selected[j].txid)
    && (forall e :: e in selected ==>
          && e.txid in variants && e.wtxid == variants[e.txid].wtxid && e.vsize == variants[e.txid].vsize
          && exists o :: o in facts && facts[o].ParentEligible() && o.txid == e.txid)
  }

  // The parents that may be asked for.
  ghost function EligibleParents(facts: Facts, variants: Variants): Variants {
    map t | t in variants && exists o :: o in facts && facts[o].ParentEligible() && o.txid == t :: variants[t]
  }

  function VariantBytes(variant: Variant): nat {
    variant.vsize * 8 + ESTIMATED_JSON_BYTES_PER_RESPONSE
  }

  // One wave may ask for all of them.
  ghost predicate ParentsFit(facts: Facts, variants: Variants, maximum: nat) {
    var parents := EligibleParents(facts, variants);
    && |parents| <= maximum
    && (|parents| <= 1 || Sum(parents, VariantBytes) <= MAX_RAW_RESPONSE_BYTES_PER_SLICE)
  }

  ghost predicate AllAsked(facts: Facts, parents: set<Txid>) {
    forall o :: o in facts && facts[o].ParentEligible() ==> o.txid in parents
  }

  // The response for this parent does not fit beside the others'.
  ghost predicate TooLarge(parent: Txid, selected: seq<ExpectedVariant>, variants: Variants) {
    && selected != [] && parent in variants
    && RawBytes(selected) + VariantBytes(variants[parent]) > MAX_RAW_RESPONSE_BYTES_PER_SLICE
  }

  // A wave that is not full asks for every parent, or leaves one that is too large.
  ghost predicate Maximal(facts: Facts, variants: Variants, selected: seq<ExpectedVariant>) {
    || AllAsked(facts, Txids(selected))
    || exists o :: o in facts && facts[o].ParentEligible() && o.txid !in Txids(selected) && TooLarge(o.txid, selected, variants)
  }

  function SelectedVariants(selected: seq<ExpectedVariant>): Variants {
    if selected == [] then map[]
    else
      var last := selected[|selected| - 1];
      SelectedVariants(selected[..|selected| - 1])[last.txid := Variant(last.wtxid, last.vsize)]
  }

  lemma {:induction false} SelectedSums(facts: Facts, variants: Variants, selected: seq<ExpectedVariant>)
    requires ParentWaveOk(facts, variants, selected)
    ensures SelectedVariants(selected).Keys == Txids(selected) && |SelectedVariants(selected)| == |selected|
    ensures Sum(SelectedVariants(selected), VariantBytes) == RawBytes(selected)
    ensures forall t :: t in SelectedVariants(selected) ==>
              t in EligibleParents(facts, variants) && SelectedVariants(selected)[t] == variants[t]
  {
    hide Sum, Txids, EligibleParents;
    if selected == [] {
      SumEmpty(SelectedVariants(selected), VariantBytes);
      NoTxids();
    } else {
      var front, last := selected[..|selected| - 1], selected[|selected| - 1];
      assert selected == front + [last] && last in selected;
      SelectedSums(facts, variants, front);
      TxidsMore(front, last);
      LastEligible(facts, variants, front, last);
      SumInsert(SelectedVariants(front), last.txid, Variant(last.wtxid, last.vsize), VariantBytes);
    }
  }

  lemma NoTxids()
    ensures Txids([]) == {}
  {
  }

  lemma LastEligible(facts: Facts, variants: Variants, front: seq<ExpectedVariant>, last: ExpectedVariant)
    requires ParentWaveOk(facts, variants, front + [last])
    ensures last.txid !in Txids(front) && last.txid in EligibleParents(facts, variants)
    ensures variants[last.txid] == Variant(last.wtxid, last.vsize)
  {
    var selected := front + [last];
    assert selected[|front|] == last && last in selected;
    forall e | e in front ensures e.txid != last.txid {
      var i :| 0 <= i < |front| && front[i] == e;
      assert selected[i] == e;
    }
  }

  /** A parent wave asks for every parent exactly when all of them fit one wave. */
  lemma FitExactly(facts: Facts, variants: Variants, selected: seq<ExpectedVariant>, maximum: nat)
    requires ParentWaveOk(facts, variants, selected) && |selected| <= maximum
    requires |selected| <= 1 || RawBytes(selected) <= MAX_RAW_RESPONSE_BYTES_PER_SLICE
    requires |selected| < maximum ==> Maximal(facts, variants, selected)
    requires forall o :: o in facts && facts[o].ParentEligible() ==> o.txid in variants
    ensures ParentsFit(facts, variants, maximum) <==> AllAsked(facts, Txids(selected))
  {
    hide Sum, Txids, RawBytes;
    SelectedSums(facts, variants, selected);
    var parents, known := EligibleParents(facts, variants), SelectedVariants(selected);
    if AllAsked(facts, Txids(selected)) {
      assert parents == known;
    } else if ParentsFit(facts, variants, maximum) {
      var p :| p in facts && facts[p].ParentEligible() && p.txid !in Txids(selected);
      SubsetSize(known.Keys + {p.txid}, parents.Keys);
      var o :| o in facts && facts[o].ParentEligible() && o.txid !in Txids(selected) && TooLarge(o.txid, selected, variants);
      SumInsert(known, o.txid, variants[o.txid], VariantBytes);
      SumMonotone(known[o.txid := variants[o.txid]], parents, VariantBytes);
      assert false;
    }
  }

  lemma ParentWaveStart(facts: Facts, active: Candidates, variants: Variants)
    ensures ParentWaveOk(facts, variants, []) && CursorsMoved(active, active)
    ensures AttemptParents(facts, Txids([])) == facts
  {
  }

  lemma ParentWaveMore(facts: Facts, variants: Variants, selected: seq<ExpectedVariant>, e: ExpectedVariant)
    requires ParentWaveOk(facts, variants, selected)
    requires e.txid !in Txids(selected)
    requires e.txid in variants && e.wtxid == variants[e.txid].wtxid && e.vsize == variants[e.txid].vsize
    requires exists o :: o in facts && facts[o].ParentEligible() && o.txid == e.txid
    ensures ParentWaveOk(facts, variants, selected + [e])
    ensures RawBytes(selected + [e]) == RawBytes(selected) + EstimatedRawResponseBytes(e)
    ensures AttemptParents(AttemptParents(facts, Txids(selected)), {e.txid}) == AttemptParents(facts, Txids(selected + [e]))
  {
    hide AttemptParents, Txids;
    assert (selected + [e])[..|selected|] == selected;
    TxidsMore(selected, e);
    AttemptParentsTwice(facts, Txids(selected), e.txid);
  }

  lemma TxidsMore(selected: seq<ExpectedVariant>, e: ExpectedVariant)
    ensures Txids(selected + [e]) == Txids(selected) + {e.txid}
    ensures forall i :: 0 <= i < |selected| ==> selected[i].txid in Txids(selected)
  {
    forall i | 0 <= i < |selected| ensures selected[i].txid in Txids(selected) {
      assert selected[i] in selected;
    }
    forall t ensures t in Txids(selected + [e]) <==> t in Txids(selected) || t == e.txid {
      if t in Txids(selected) {
        var x :| x in selected && x.txid == t;
        assert x in selected + [e];
      }
      if t == e.txid {
        assert e in selected + [e];
      }
    }
  }

  lemma AttemptParentsTwice(facts: Facts, parents: set<Txid>, parent: Txid)
    requires parent !in parents
    ensures AttemptParents(AttemptParents(facts, parents), {parent}) == AttemptParents(facts, parents + {parent})
  {
  }

  // Without capacity to take any, or with none to take, nothing is asked for.
  lemma NoneAsked(facts: Facts)
    requires AllAsked(facts, Txids([]))
    ensures forall o :: o in facts ==> !facts[o].ParentEligible()
  {
  }

  // --- capacity pressure --------------------------------------------------------

  predicate NeedsAwaiting(candidate: Candidate, facts: Facts) {
    exists o :: o in candidate.required && o in facts && facts[o].Awaiting?
  }

  /** The first candidate in the rotation with a fact that awaits an answer, and
      its first such fact. */
  ghost predicate IsFirstAwaiting(
    active: Candidates, facts: Facts, order: seq<Wtxid>, turn: nat, position: nat)
  {
    && turn < |order| && order[turn] in active
    && (forall j :: 0 <= j < turn ==> order[j] in active && !NeedsAwaiting(active[order[j]], facts))
    && var required := active[order[turn]].required;
       && position < |required| && required[position] in facts && facts[required[position]].Awaiting?
       && forall p :: 0 <= p < position ==> required[p] in facts && !facts[required[p]].Awaiting?
  }

  // The candidates that need an exhausted fact.
  function DoomedKeys(active: Candidates, facts: Facts): set<Wtxid> {
    set k | k in active && Doomed(active[k], facts)
  }

  // Some required fact waits for capacity.
  predicate Blocked(candidate: Candidate, facts: Facts) {
    exists o :: o in candidate.required && o in facts && facts[o].CapacityBlocked?
  }

  // This call fetched the script of a blocked fact, and the slice has no copy of its own.
  predicate TransientUsable(
    o: OutPoint, state: FactState, raw: map<Txid, CachedOutputs>, outputs: map<Txid, CachedOutputs>,
    confirmed: map<OutPoint, Script>)
  {
    && state.CapacityBlocked?
    && if state.source.CurrentParent? then OutputScript(raw, o).None? && OutputScript(outputs, o).Some?
       else o in confirmed
  }

  // The bytes that removing a candidate gives back.
  ghost function FreedBytes(active: Candidates, facts: Facts, key: Wtxid): nat
    requires key in active
  {
    Sum(Exclusive(active, facts, key), ReadyBytes)
  }

  /** The victim under pressure: a blocked candidate that gives back the most
      bytes, the first such in the rotation. */
  ghost predicate IsVictim(active: Candidates, facts: Facts, order: seq<Wtxid>, count: nat, victim: nat)
    requires count <= |order| && forall k :: k in order ==> k in active
  {
    && victim < count && Blocked(active[order[victim]], facts)
    && (forall j :: 0 <= j < count && Blocked(active[order[j]], facts) ==>
          FreedBytes(active, facts, order[j]) <= FreedBytes(active, facts, order[victim]))
    && (forall j :: 0 <= j < victim && Blocked(active[order[j]], facts) ==>
          FreedBytes(active, facts, order[j]) < FreedBytes(active, facts, order[victim]))
  }

  function CountOf(counts: map<OutPoint, nat>, o: OutPoint): nat {
    if o in counts then counts[o] else 0
  }

  ghost predicate CountsAre(active: Candidates, done: set<Wtxid>, counts: map<OutPoint, nat>) {
    forall o :: CountOf(counts, o) == |Holders(active, o) * done|
  }

  lemma CountNothing(active: Candidates)
    ensures CountsAre(active, {}, map[])
  {
    assert forall o :: Holders(active, o) * {} == {};
  }

  lemma CountMore(active: Candidates, done: set<Wtxid>, key: Wtxid, counts: map<OutPoint, nat>, counts': map<OutPoint, nat>)
    requires key in active && key !in done && CountsAre(active, done, counts)
    requires forall o :: CountOf(counts', o) == CountOf(counts, o) + if o in active[key].required then 1 else 0
    ensures CountsAre(active, done + {key}, counts')
  {
    hide CountOf;
    forall o ensures CountOf(counts', o) == |Holders(active, o) * (done + {key})| {
      CountHolders(active, done, key, o);
    }
  }

  lemma CountHolders(active: Candidates, done: set<Wtxid>, key: Wtxid, o: OutPoint)
    requires key in active && key !in done
    ensures |Holders(active, o) * (done + {key})|
            == |Holders(active, o) * done| + if o in active[key].required then 1 else 0
  {
    if o in active[key].required {
      assert Holders(active, o) * (done + {key}) == Holders(active, o) * done + {key};
    } else {
      assert Holders(active, o) * (done + {key}) == Holders(active, o) * done;
    }
  }

  lemma CountDone(active: Candidates, counts: map<OutPoint, nat>)
    requires CountsAre(active, active.Keys, counts)
    ensures forall o :: CountOf(counts, o) == ReferenceCount(active, o)
  {
    forall o ensures CountOf(counts, o) == ReferenceCount(active, o) {
      assert Holders(active, o) * active.Keys == Holders(active, o);
    }
  }

  // The exclusive facts among the first `n` required ones.
  ghost function ExclusivePrefix(active: Candidates, facts: Facts, key: Wtxid, n: nat): Facts
    requires key in active && n <= |active[key].required|
  {
    map o | o in facts && o in active[key].required[..n] && ReferenceCount(active, o) == 1 :: facts[o]
  }

  lemma ExclusiveStep(active: Candidates, facts: Facts, key: Wtxid, n: nat)
    requires key in active && CandidateOk(key, active[key]) && n < |active[key].required|
    ensures var o := active[key].required[n];
            Sum(ExclusivePrefix(active, facts, key, n + 1), ReadyBytes)
            == Sum(ExclusivePrefix(active, facts, key, n), ReadyBytes)
               + if o in facts && ReferenceCount(active, o) == 1 then ReadyBytes(facts[o]) else 0
  {
    hide Sum, ReferenceCount;
    var required := active[key].required;
    var o := required[n];
    var a, b := ExclusivePrefix(active, facts, key, n), ExclusivePrefix(active, facts, key, n + 1);
    assert required[..n + 1] == required[..n] + [o];
    assert o !in required[..n];
    if o in facts && ReferenceCount(active, o) == 1 {
      assert b == a[o := facts[o]];
      SumInsert(a, o, facts[o], ReadyBytes);
    } else {
      assert b == a;
    }
  }

  // --- a new slice -----------------------------------------------------------

  function RawOutputs(queued: seq<Prepared>): map<Txid, CachedOutputs> {
    if queued == [] then map[]
    else
      var last := queued[|queued| - 1];
      RawOutputs(queued[..|queued| - 1])[last.expected.txid := OutputsOf(last.expected, last.transaction)]
  }

  // Every script of the prepared transactions is the true one.
  ghost predicate PreparedTrue(queued: seq<Prepared>, truth: OutPoint -> Script) {
    forall p :: p in queued ==> OutputsTrue(p.expected.txid, OutputsOf(p.expected, p.transaction), truth)
  }

  lemma {:induction false} RawOutputsTrue(queued: seq<Prepared>, truth: OutPoint -> Script)
    requires PreparedTrue(queued, truth)
    ensures AllOutputsTrue(RawOutputs(queued), truth)
    ensures RawOutputs(queued).Keys == set p | p in queued :: p.expected.txid
  {
    if queued != [] {
      var front, last := queued[..|queued| - 1], queued[|queued| - 1];
      assert queued == front + [last];
      assert last in queued;
      RawOutputsTrue(front, truth);
    }
  }

  lemma WaveOwners(facts: Facts, active: Candidates, selected: seq<OutPoint>, owners: seq<Wtxid>)
    requires WaveOk(facts, active, selected, owners)
    ensures |owners| == |selected|
  {
  }

  lemma {:induction false} RotateOrder(active: Candidates, order: seq<Wtxid>, n: nat)
    requires Ordered(active, order) && n <= |order|
    ensures Ordered(active, Rotate(order, n))
  {
    if n == 0 {
      assert Rotate(order, 0) == order;
    } else {
      RotateOrder(active, order, n - 1);
      RotateStep(order, n - 1);
      RotateOrdered(active, Rotate(order, n - 1));
    }
  }

  // --- raw answers -------------------------------------------------------------

  type RawValues = seq<(ExpectedVariant, RpcValue<Transaction>)>

  // A positive raw answer is the transaction that was asked for, and its outputs are the true ones.
  ghost predicate RawFoundOk(expected: ExpectedVariant, transaction: Transaction, truth: OutPoint -> Script) {
    && transaction.txid == expected.txid && transaction.wtxid == expected.wtxid
    && transaction.WellFormed()
    && OutputsTrue(expected.txid, OutputsOf(expected, transaction), truth)
  }

  /** What a raw fetch may return: at most one answer for each request, in any
      order, and only honest positive ones. */
  ghost predicate RawAnswersOk(wave: seq<ExpectedVariant>, values: RawValues, truth: OutPoint -> Script) {
    && (forall i :: 0 <= i < |values| ==> values[i].0 in wave)
    && (forall i, j :: 0 <= i < j < |values| ==> values[i].0 != values[j].0)
    && (forall i :: 0 <= i < |values| && values[i].1.Found? ==> RawFoundOk(values[i].0, values[i].1.value, truth))
  }

  // Every request got an answer that is not a systemic failure.
  ghost predicate RawComplete(wave: seq<ExpectedVariant>, values: RawValues) {
    forall e :: e in wave ==> exists i :: 0 <= i < |values| && values[i].0 == e && !values[i].1.SystemicFailure?
  }

  predicate FoundFor(value: (ExpectedVariant, RpcValue<Transaction>), parent: Txid) {
    value.1.Found? && value.0.txid == parent
  }

  // The parents among the first `n` answers that were found.
  function Resolved(values: RawValues, n: nat): set<Txid>
    requires n <= |values|
  {
    set i | 0 <= i < n && values[i].1.Found? :: values[i].0.txid
  }

  /** How the first `n` raw answers move one fact: a fact that awaits a found
      parent gets that parent's output, and every other fact stays. */
  ghost predicate ParentsAppliedAt(
    o: OutPoint, before: FactState, after: FactState, values: RawValues, n: nat, bytes: nat, limit: nat)
    requires n <= |values|
  {
    if before.AwaitingParent() && o.txid in Resolved(values, n) then
      exists i :: 0 <= i < n && FoundFor(values[i], o.txid)
                  && ParentAppliedAt(o, before, after, o.txid, values[i].1.value.outputs, {o}, bytes, limit)
    else
      after == before
  }

  ghost predicate ParentsApplied(before: Facts, after: Facts, values: RawValues, n: nat, bytes: nat, limit: nat)
    requires n <= |values|
  {
    && after.Keys == before.Keys
    && forall o :: o in before ==> ParentsAppliedAt(o, before[o], after[o], values, n, bytes, limit)
  }

  lemma ParentsAppliedNone(facts: Facts, values: RawValues, bytes: nat, limit: nat)
    ensures ParentsApplied(facts, facts, values, 0, bytes, limit)
  {
  }

  ghost predicate DistinctParents(values: RawValues) {
    forall i, j :: 0 <= i < j < |values| ==> values[i].0.txid != values[j].0.txid
  }

  lemma ResolvedMore(values: RawValues, n: nat)
    requires n < |values|
    ensures Resolved(values, n + 1) == Resolved(values, n) + if values[n].1.Found? then {values[n].0.txid} else {}
  {
    assert values[n].1.Found? ==> values[n].0.txid in Resolved(values, n + 1);
  }

  lemma ParentsAppliedMore(
    before: Facts, mid: Facts, after: Facts, values: RawValues, n: nat, bytes: nat, bytes': nat, limit: nat)
    requires n < |values| && DistinctParents(values) && bytes <= bytes'
    requires ParentsApplied(before, mid, values, n, bytes, limit)
    requires values[n].1.Found? ==>
               ParentApplied(mid, after, values[n].0.txid, values[n].1.value.outputs, mid.Keys, bytes', limit)
    requires !values[n].1.Found? ==> after == mid
    ensures ParentsApplied(before, after, values, n + 1, bytes', limit)
  {
    ResolvedMore(values, n);
    forall o | o in before ensures ParentsAppliedAt(o, before[o], after[o], values, n + 1, bytes', limit) {
      assert ParentsAppliedAt(o, before[o], mid[o], values, n, bytes, limit);
      if values[n].1.Found? {
        assert ParentAppliedAt(
            o, mid[o], after[o], values[n].0.txid, values[n].1.value.outputs, mid.Keys, bytes', limit);
      }
      if before[o].AwaitingParent() && o.txid in Resolved(values, n) {
        var i :| 0 <= i < n && FoundFor(values[i], o.txid)
                 && ParentAppliedAt(o, before[o], mid[o], o.txid, values[i].1.value.outputs, {o}, bytes, limit);
        assert values[i].0.txid != values[n].0.txid;
        assert ParentAppliedAt(o, before[o], after[o], o.txid, values[i].1.value.outputs, {o}, bytes', limit);
      } else if values[n].1.Found? && values[n].0.txid == o.txid && before[o].AwaitingParent() {
        assert FoundFor(values[n], o.txid);
      }
    }
  }

  lemma ParentsAppliedEvolves(before: Facts, after: Facts, values: RawValues, n: nat, bytes: nat, limit: nat)
    requires n <= |values| && ParentsApplied(before, after, values, n, bytes, limit)
    ensures Evolves(before, after)
  {
    forall o | o in before ensures Rank(after[o]) <= Rank(before[o]) {
      assert ParentsAppliedAt(o, before[o], after[o], values, n, bytes, limit);
    }
  }

  // The parent was found and has no such output.
  ghost predicate LacksOutput(values: RawValues, o: OutPoint) {
    exists i :: 0 <= i < |values| && FoundFor(values[i], o.txid) && o.vout >= |values[i].1.value.outputs|
  }

  // Only outputs that a found parent does not have are still awaited from parents.
  ghost predicate ParentsSettled(facts: Facts, values: RawValues) {
    forall o :: o in facts && facts[o].AwaitingParent() ==> LacksOutput(values, o)
  }

  /** After a parent wave without a systemic failure nothing more is awaited from
      parents, exactly when the wave asked for all of them. */
  lemma SettledExactly(
    facts: Facts, applied: Facts, wave: seq<ExpectedVariant>, values: RawValues, bytes: nat, limit: nat)
    requires NoneSpent(facts)
    requires ParentsApplied(AttemptParents(facts, Txids(wave)), applied, values, |values|, bytes, limit)
    requires forall i :: 0 <= i < |values| ==> values[i].0 in wave
    ensures ParentsSettled(FallBack(applied, Txids(wave) - Resolved(values, |values|)), values)
            <==> AllAsked(facts, Txids(wave))
  {
    var attempted, found := AttemptParents(facts, Txids(wave)), Resolved(values, |values|);
    var after := FallBack(applied, Txids(wave) - found);
    forall o | o in facts
      ensures after[o].AwaitingParent() ==> LacksOutput(values, o) || (facts[o].ParentEligible() && o.txid !in Txids(wave))
      ensures facts[o].ParentEligible() && o.txid !in Txids(wave) ==> after[o].AwaitingParent() && !LacksOutput(values, o)
    {
      assert ParentsAppliedAt(o, attempted[o], applied[o], values, |values|, bytes, limit);
      if attempted[o].AwaitingParent() && o.txid in found {
        var i :| 0 <= i < |values| && FoundFor(values[i], o.txid)
                 && ParentAppliedAt(o, attempted[o], applied[o], o.txid, values[i].1.value.outputs, {o}, bytes, limit);
        assert o.vout >= |values[i].1.value.outputs| ==> LacksOutput(values, o);
      }
      assert !Spent(facts[o]);
    }
    if AllAsked(facts, Txids(wave)) {
    } else {
      var o :| o in facts && facts[o].ParentEligible() && o.txid !in Txids(wave);
      assert after[o].AwaitingParent() && !LacksOutput(values, o);
    }
  }

  // The cached outputs belong to the requested variants.
  ghost predicate OutputsFor(outputs: map<Txid, CachedOutputs>, variants: Variants) {
    forall t :: t in outputs ==> t in variants && outputs[t].wtxid == variants[t].wtxid
  }

  // The outputs of every found transaction.
  ghost predicate OutputsOfFound(outputs: map<Txid, CachedOutputs>, values: RawValues, n: nat)
    requires n <= |values|
  {
    && outputs.Keys == Resolved(values, n)
    && forall t :: t in outputs ==> exists i :: 0 <= i < n && FoundFor(values[i], t)
                                               && outputs[t] == OutputsOf(values[i].0, values[i].1.value)
  }

  lemma OutputsFoundMore(outputs: map<Txid, CachedOutputs>, values: RawValues, n: nat)
    requires n < |values| && OutputsOfFound(outputs, values, n)
    ensures values[n].1.Found? ==>
              OutputsOfFound(
                outputs[values[n].0.txid := OutputsOf(values[n].0, values[n].1.value)], values, n + 1)
    ensures !values[n].1.Found? ==> OutputsOfFound(outputs, values, n + 1)
  {
    ResolvedMore(values, n);
    if values[n].1.Found? {
      assert FoundFor(values[n], values[n].0.txid);
    }
  }

  lemma OutputsFoundTrue(
    outputs: map<Txid, CachedOutputs>, wave: seq<ExpectedVariant>, values: RawValues, variants: Variants,
    truth: OutPoint -> Script)
    requires OutputsOfFound(outputs, values, |values|) && RawAnswersOk(wave, values, truth)
    requires forall e :: e in wave ==> Listed(e, variants)
    ensures AllOutputsTrue(outputs, truth) && OutputsFor(outputs, variants)
  {
    forall t | t in outputs
      ensures OutputsTrue(t, outputs[t], truth) && t in variants && outputs[t].wtxid == variants[t].wtxid
    {
      var i :| 0 <= i < |values| && FoundFor(values[i], t) && outputs[t] == OutputsOf(values[i].0, values[i].1.value);
      assert RawFoundOk(values[i].0, values[i].1.value, truth);
    }
  }

  lemma ParentWaveDistinct(facts: Facts, variants: Variants, wave: seq<ExpectedVariant>, values: RawValues, truth: OutPoint -> Script)
    requires ParentWaveOk(facts, variants, wave) && RawAnswersOk(wave, values, truth)
    ensures DistinctParents(values) && forall e :: e in wave ==> Listed(e, variants)
    ensures Resolved(values, |values|) <= Txids(wave)
  {
    forall i, j | 0 <= i < j < |values| ensures values[i].0.txid != values[j].0.txid {
      var a :| 0 <= a < |wave| && wave[a] == values[i].0;
      var b :| 0 <= b < |wave| && wave[b] == values[j].0;
    }
  }

  lemma NothingFound(values: RawValues)
    ensures OutputsOfFound(map[], values, 0) && Resolved(values, 0) == {}
  {
  }

  lemma RawFound(expected: ExpectedVariant, transaction: Transaction, truth: OutPoint -> Script)
    requires RawFoundOk(expected, transaction, truth)
    ensures transaction.txid == expected.txid && OutputsTrue(expected.txid, OutputsOf(expected, transaction), truth)
  {
  }

  // --- progress ----------------------------------------------------------------

  lemma EvolvesMeasure(candidates: nat, queued: nat, before: Facts, after: Facts)
    requires Evolves(before, after)
    ensures Measure(candidates, queued, Sum(after, Rank)).AtMost(Measure(candidates, queued, Sum(before, Rank)))
  {
    EvolvesRank(before, after);
  }

  lemma GrownNoneSpent(facts0: Facts, facts: Facts, deferred: set<OutPoint>, variants: Variants)
    requires GrownFrom(facts0, facts, deferred, variants) && NoneSpent(facts0)
    ensures NoneSpent(facts)
  {
  }

  lemma MovedSize(before: Candidates, after: Candidates)
    requires CursorsMoved(before, after)
    ensures |after| == |before|
  {
    assert |before| == |before.Keys| == |after.Keys| == |after|;
  }

  // Selecting a nonempty wave is work done.
  lemma ConfirmedWaveProgress(
    facts: Facts, before: Candidates, after: Candidates, queued: nat, selected: seq<OutPoint>, owners: seq<Wtxid>)
    requires WaveOk(facts, before, selected, owners) && CursorsMoved(before, after)
    ensures var m, m' := Measure(|before| + queued, queued, Sum(facts, Rank)),
                         Measure(|after| + queued, queued, Sum(AttemptAll(facts, Elements(selected)), Rank));
            m'.AtMost(m) && (selected != [] ==> m'.Below(m))
  {
    hide Sum;
    MovedSize(before, after);
    if selected == [] {
      assert AttemptAll(facts, Elements(selected)) == facts;
    } else {
      assert selected[0] in selected;
      AttemptAllProgress(facts, Elements(selected), selected[0]);
    }
  }

  lemma ParentWaveProgress(
    facts: Facts, before: Candidates, after: Candidates, queued: nat, variants: Variants, selected: seq<ExpectedVariant>)
    requires ParentWaveOk(facts, variants, selected) && CursorsMoved(before, after)
    ensures var m, m' := Measure(|before| + queued, queued, Sum(facts, Rank)),
                         Measure(|after| + queued, queued, Sum(AttemptParents(facts, Txids(selected)), Rank));
            m'.AtMost(m) && (selected != [] ==> m'.Below(m))
  {
    hide Sum;
    MovedSize(before, after);
    if selected == [] {
      assert AttemptParents(facts, Txids(selected)) == facts;
    } else {
      var e := selected[0];
      assert e in selected;
      var o :| o in facts && facts[o].ParentEligible() && o.txid == e.txid;
      AttemptParentsProgress(facts, Txids(selected), o);
    }
  }

  // --- gettxout answers --------------------------------------------------------

  // A script that a gettxout answer may carry: its hexadecimal form is bounded.
  predicate ScriptBounded(script: Script) {
    2 * |script| <= MAX_CONFIRMED_SCRIPT_HEX_CHARACTERS
  }

  /** What a gettxout fetch may return: at most one answer for each request, in
      any order, and only honest, bounded positive ones. */
  ghost predicate PrevoutAnswersOk(wave: seq<OutPoint>, answers: Answers, truth: OutPoint -> Script) {
    && (forall i :: 0 <= i < |answers| ==> answers[i].0 in wave)
    && (forall i, j :: 0 <= i < j < |answers| ==> answers[i].0 != answers[j].0)
    && (forall i :: 0 <= i < |answers| && answers[i].1.Found? ==>
          answers[i].1.value == truth(answers[i].0) && ScriptBounded(answers[i].1.value))
  }

  lemma WaveAnswerable(
    facts: Facts, active: Candidates, selected: seq<OutPoint>, owners: seq<Wtxid>, answers: Answers,
    truth: OutPoint -> Script)
    requires WaveOk(facts, active, selected, owners) && PrevoutAnswersOk(selected, answers, truth)
    ensures Answerable(AttemptAll(facts, Elements(selected)), answers)
    ensures |answers| <= |selected|
  {
    var keys := seq(|answers|, i requires 0 <= i < |answers| => answers[i].0);
    assert NoDuplicates(keys);
    NoDuplicatesSize(keys);
    NoDuplicatesSize(selected);
    forall k | k in Elements(keys) ensures k in Elements(selected) {
      var i :| 0 <= i < |keys| && keys[i] == k;
      assert answers[i].0 in selected;
    }
    SubsetSize(Elements(keys), Elements(selected));
  }

  lemma {:induction false} FoundBytesBound(answers: Answers, n: nat)
    requires n <= |answers|
    requires forall i :: 0 <= i < |answers| && answers[i].1.Found? ==> ScriptBounded(answers[i].1.value)
    ensures FoundBytes(answers, n) <= n * ESTIMATED_GETTXOUT_RESPONSE_BYTES
  {
    if n > 0 {
      FoundBytesBound(answers, n - 1);
    }
  }

  /** Wave sizing is sufficient: when one estimated response fits in the remaining
      budget, every script that a confirmed wave can find fits. */
  lemma WaveSizingSufficient(
    limits: ResolverLimits, bytes: nat, selected: seq<OutPoint>, answers: Answers, truth: OutPoint -> Script)
    requires bytes + ESTIMATED_GETTXOUT_RESPONSE_BYTES <= limits.maxPendingScriptBytes
    requires limits.Positive() && |selected| <= WaveSize(limits, bytes) && |answers| <= |selected|
    requires PrevoutAnswersOk(selected, answers, truth)
    ensures FoundFit(answers, bytes, limits.maxPendingScriptBytes)
  {
    FoundBytesBound(answers, |answers|);
    var available := limits.maxPendingScriptBytes - bytes;
    var n := available / ESTIMATED_GETTXOUT_RESPONSE_BYTES;
    assert n >= 1 && |answers| <= n;
    assert n * ESTIMATED_GETTXOUT_RESPONSE_BYTES <= available;
    assert |answers| * ESTIMATED_GETTXOUT_RESPONSE_BYTES <= n * ESTIMATED_GETTXOUT_RESPONSE_BYTES;
  }

  /** A wave may ask for as many outpoints as the limit allows and estimated answers
      fit, and for one while any budget is left. */
  lemma WaveSizeIs(limits: ResolverLimits, bytes: nat, n: nat)
    requires limits.Positive() && 0 < n
    ensures n <= WaveSize(limits, bytes)
            <==> bytes < limits.maxPendingScriptBytes && n <= limits.maxConfirmedPrevoutsPerWave
                 && (n == 1 || bytes + n * ESTIMATED_GETTXOUT_RESPONSE_BYTES <= limits.maxPendingScriptBytes)
  {
    var available := SaturatingSub(limits.maxPendingScriptBytes, bytes);
    var q := available / ESTIMATED_GETTXOUT_RESPONSE_BYTES;
    assert n <= q <==> n * ESTIMATED_GETTXOUT_RESPONSE_BYTES <= available;
  }

  /** With less budget left, the wave is a single probe: the only one that can be
      refused for lack of capacity. */
  lemma ProbeWave(limits: ResolverLimits, bytes: nat)
    requires bytes + ESTIMATED_GETTXOUT_RESPONSE_BYTES > limits.maxPendingScriptBytes
    ensures WaveSize(limits, bytes) == if bytes < limits.maxPendingScriptBytes then 1 else 0
  {
  }

  // --- quiet tables --------------------------------------------------------------

  // No fact awaits an answer and none has exhausted its attempts.
  ghost predicate Quieted(facts: Facts) {
    forall o :: o in facts ==> !facts[o].Awaiting? && !facts[o].OperationallyDeferred?
  }

  lemma DeliveredQuieted(
    before: Facts, after: Facts, done: set<OutPoint>, known: map<OutPoint, Script>, bytes: nat, limit: nat)
    requires Delivered(before, after, done, known, bytes, limit) && Quieted(before)
    ensures Quieted(after)
  {
  }

  lemma RestrictQuieted(facts: Facts, active: Candidates)
    requires Quieted(facts)
    ensures Quieted(Restrict(facts, active))
  {
  }

  // Without waiting or exhausted facts, every candidate is terminal.
  lemma QuietedTerminal(active: Candidates, facts: Facts)
    requires Covered(active, facts) && Quieted(facts)
    requires forall o :: o in facts ==> !facts[o].CapacityBlocked?
    requires forall k :: k in active ==> !IsTerminal(active[k], facts)
    ensures active == map[]
  {
    forall k | k in active ensures IsTerminal(active[k], facts) {
    }
  }

  lemma NoneDoomedQuieted(active: Candidates, facts: Facts)
    requires Covered(active, facts)
    requires forall k :: k in active ==> !Doomed(active[k], facts)
    requires forall o :: o in facts ==> !facts[o].Awaiting?
    ensures Quieted(facts)
  {
    forall o | o in facts ensures !facts[o].OperationallyDeferred? {
      var k :| k in active && o in active[k].required;
      assert !Doomed(active[k], facts);
    }
  }

  // With no attempt spent, an empty wave of each kind leaves nothing awaiting.
  lemma NothingAwaiting(facts: Facts)
    requires NoneSpent(facts)
    requires forall o :: o in facts ==> !facts[o].ParentEligible() && !facts[o].ConfirmedEligible()
    ensures forall o :: o in facts ==> !facts[o].Awaiting?
  {
    forall o | o in facts ensures !facts[o].Awaiting? {
      assert !Spent(facts[o]);
    }
  }

  // --- new slices ----------------------------------------------------------------

  // The transactions among the first `n` answers, ready to be queued.
  function PreparedOf(values: RawValues, n: nat): seq<Prepared>
    requires n <= |values|
  {
    if n == 0 then []
    else
      var (expected, value) := values[n - 1];
      PreparedOf(values, n - 1) + if value.Found? then [Prepared(expected, value.value)] else []
  }

  lemma {:induction false} PreparedContents(values: RawValues, n: nat)
    requires n <= |values|
    ensures forall p :: p in PreparedOf(values, n) <==>
              exists i :: 0 <= i < n && values[i].1.Found? && p == Prepared(values[i].0, values[i].1.value)
  {
    if n > 0 {
      PreparedContents(values, n - 1);
    }
  }

  ghost predicate DistinctPrepared(queued: seq<Prepared>) {
    forall i, j :: 0 <= i < j < |queued| ==> queued[i].expected.wtxid != queued[j].expected.wtxid
  }

  lemma {:induction false} PreparedDistinct(values: RawValues, n: nat)
    requires n <= |values|
    requires forall i, j :: 0 <= i < j < |values| ==> values[i].0.wtxid != values[j].0.wtxid
    ensures DistinctPrepared(PreparedOf(values, n))
  {
    if n > 0 {
      PreparedDistinct(values, n - 1);
      PreparedContents(values, n - 1);
      var front, queued := PreparedOf(values, n - 1), PreparedOf(values, n);
      forall i | 0 <= i < |front| ensures front[i].expected.wtxid != values[n - 1].0.wtxid {
        assert front[i] in front;
        var k :| 0 <= k < n - 1 && values[k].1.Found? && front[i] == Prepared(values[k].0, values[k].1.value);
      }
      forall i, j | 0 <= i < j < |queued| ensures queued[i].expected.wtxid != queued[j].expected.wtxid {
        assert queued[i] == front[i];
        if j < |front| {
          assert queued[j] == front[j];
        } else {
          assert queued[j] == Prepared(values[n - 1].0, values[n - 1].1.value);
          assert front[i].expected.wtxid != values[n - 1].0.wtxid;
        }
      }
    }
  }

  lemma {:induction false} PreparedOk(wave: seq<ExpectedVariant>, values: RawValues, variants: Variants, truth: OutPoint -> Script)
    requires RawAnswersOk(wave, values, truth)
    requires forall i, j :: 0 <= i < j < |wave| ==> wave[i].wtxid != wave[j].wtxid
    requires forall e :: e in wave ==> Listed(e, variants)
    ensures var queued := PreparedOf(values, |values|);
            && QueueOk(queued, map[]) && Members(map[], queued, variants) && PreparedTrue(queued, truth)
  {
    forall i, j | 0 <= i < j < |values| ensures values[i].0.wtxid != values[j].0.wtxid {
      var a :| 0 <= a < |wave| && wave[a] == values[i].0;
      var b :| 0 <= b < |wave| && wave[b] == values[j].0;
    }
    PreparedDistinct(values, |values|);
    PreparedContents(values, |values|);
    var queued := PreparedOf(values, |values|);
    forall p | p in queued
      ensures p.WellFormed() && Listed(p.expected, variants)
      ensures OutputsTrue(p.expected.txid, OutputsOf(p.expected, p.transaction), truth)
    {
      var i :| 0 <= i < |values| && values[i].1.Found? && p == Prepared(values[i].0, values[i].1.value);
      assert RawFoundOk(values[i].0, values[i].1.value, truth);
    }
  }

  lemma {:induction false} RawOutputsFor(queued: seq<Prepared>, variants: Variants)
    requires Members(map[], queued, variants)
    ensures OutputsFor(RawOutputs(queued), variants)
  {
    if queued != [] {
      var front, last := queued[..|queued| - 1], queued[|queued| - 1];
      assert queued == front + [last];
      assert last in queued;
      RawOutputsFor(front, variants);
    }
  }

  lemma InitialNoneSpent(facts: Facts, variants: Variants)
    requires forall o :: o in facts ==> facts[o] == InitialFact(o, {}, variants)
    ensures NoneSpent(facts)
  {
  }

  lemma NoneDoomed(active: Candidates, facts: Facts)
    requires DoomedKeys(active, facts) == {}
    ensures forall k :: k in active ==> !Doomed(active[k], facts)
  {
    forall k | k in active ensures !Doomed(active[k], facts) {
      assert k !in DoomedKeys(active, facts);
    }
  }

  // --- spent attempts --------------------------------------------------------------

  // The last attempts of this wave: facts that await a selected parent and had been asked for once.
  ghost predicate LastParentAttempt(facts: Facts, parents: set<Txid>, o: OutPoint) {
    o in facts && o.txid in parents && facts[o].AwaitingParent() && facts[o].attempts == 1
  }

  /** What a parent wave leaves: a spent fact remains exactly when the wave met a
      systemic failure while a fact's last attempt was recorded in it and its
      parent was not found. */
  lemma ParentWaveSpent(
    facts: Facts, applied: Facts, values: RawValues, bytes: nat, limit: nat, parents: set<Txid>, systemic: bool)
    requires NoneSpent(facts) && ParentsApplied(AttemptParents(facts, parents), applied, values, |values|, bytes, limit)
    ensures var found := Resolved(values, |values|);
            var after := if systemic then applied else FallBack(applied, parents - found);
            NoneSpent(after) <==>
              !systemic || forall o :: LastParentAttempt(facts, parents, o) ==> o.txid in found
  {
    var found := Resolved(values, |values|);
    var attempted := AttemptParents(facts, parents);
    forall o | o in facts
      ensures Spent(applied[o]) <==> LastParentAttempt(facts, parents, o) && o.txid !in found
    {
      assert ParentsAppliedAt(o, attempted[o], applied[o], values, |values|, bytes, limit);
    }
    if forall o :: LastParentAttempt(facts, parents, o) ==> o.txid in found {
    } else {
      var o :| LastParentAttempt(facts, parents, o) && o.txid !in found;
      assert Spent(applied[o]);
    }
  }

  // The last attempts of this confirmed wave.
  ghost predicate LastConfirmedAttempt(facts: Facts, selected: seq<OutPoint>, o: OutPoint) {
    o in selected && o in facts && facts[o].AwaitingConfirmed() && facts[o].attempts == 1
  }

  /** What a confirmed wave leaves: a spent fact remains exactly when some fact's
      last attempt was recorded in the wave and it got no answer but a systemic
      failure. */
  lemma ConfirmedWaveSpent(facts: Facts, after: Facts, answers: Answers, bytes: nat, limit: nat, selected: seq<OutPoint>)
    requires NoneSpent(facts) && Answerable(AttemptAll(facts, Elements(selected)), answers)
    requires ConfirmedApplied(AttemptAll(facts, Elements(selected)), after, answers, |answers|, bytes, limit)
    requires forall o :: o in selected ==> o in facts && facts[o].ConfirmedEligible()
    requires forall i :: 0 <= i < |answers| ==> answers[i].0 in selected
    ensures NoneSpent(after) <==>
              forall o :: LastConfirmedAttempt(facts, selected, o) ==> AnsweredFor(answers, o)
  {
    var attempted := AttemptAll(facts, Elements(selected));
    forall o | o in facts
      ensures Spent(after[o]) <==> LastConfirmedAttempt(facts, selected, o) && !AnsweredFor(answers, o)
    {
      if i :| 0 <= i < |answers| && answers[i].0 == o {
        assert ConfirmedAppliedAt(attempted[o], after[o], answers[i].1, bytes, limit);
        assert forall j :: 0 <= j < |answers| && answers[j].0 == o ==> j == i;
      } else {
        assert after[o] == attempted[o];
      }
    }
    if forall o :: LastConfirmedAttempt(facts, selected, o) ==> AnsweredFor(answers, o) {
    } else {
      var o :| LastConfirmedAttempt(facts, selected, o) && !AnsweredFor(answers, o);
      assert Spent(after[o]);
    }
  }
}
