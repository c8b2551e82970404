/** The pending slice: candidates whose raw transactions are held while their
    previous outputs are resolved in bounded, fair waves. */
module Pending {
  import opened Base
  import opened FactTable
  import opened SliceSteps
  import opened Accounts
  import opened ConfirmedCache
  import opened PickLogs
  import RoundRobin

  // The representation invariant of a pending slice.
  ghost predicate SliceOk(
    queued: seq<Prepared>, active: Candidates, fairOrder: seq<Wtxid>, facts: Facts, deferredFacts: set<OutPoint>,
    rawOutputs: map<Txid, CachedOutputs>, pendingScriptBytes: nat, nulls: set<OutPoint>, variants: Variants,
    limits: ResolverLimits, truth: OutPoint -> Script)
  {
    && Covered(active, facts)
    && Ordered(active, fairOrder)
    && CandidatesOk(active)
    && QueueOk(queued, active)
    && Windowed(active, facts, limits.maxUniquePrevoutsPerWindow)
    && FactsOk(facts, deferredFacts, nulls, variants, truth)
    && Members(active, queued, variants)
    && AllOutputsTrue(rawOutputs, truth)
    && pendingScriptBytes == Sum(facts, ReadyBytes)
    && pendingScriptBytes <= limits.maxPendingScriptBytes
    && limits.Positive()
  }

  // Before any candidate is active.
  lemma StartOk(transactions: seq<Prepared>, variants: Variants, limits: ResolverLimits, truth: OutPoint -> Script)
    requires QueueOk(transactions, map[]) && Members(map[], transactions, variants)
    requires limits.Positive() && PreparedTrue(transactions, truth)
    ensures SliceOk(
              transactions, map[], [], map[], {}, RawOutputs(transactions), 0, {}, variants, limits, truth)
    ensures HistoryOk(map[], transactions, map[], [])
    ensures AccountOk(OriginOf(transactions), map[], transactions, NO_BOOKS, {})
  {
    AccountStart(transactions);
    HistoryStart(transactions);
    RawOutputsTrue(transactions, truth);
    var facts: Facts := map[];
    SumEmpty(facts, ReadyBytes);
  }

  lemma GrownFromNothing(facts: Facts, variants: Variants)
    requires GrownFrom(map[], facts, {}, variants)
    ensures forall o :: o in facts ==> facts[o] == InitialFact(o, {}, variants)
  {
  }

  // Without the doomed candidates, and the facts only they required, the invariant holds with the bytes recounted.
  lemma RemovedOk(
    queued: seq<Prepared>, active: Candidates, fairOrder: seq<Wtxid>, facts: Facts, deferredFacts: set<OutPoint>,
    rawOutputs: map<Txid, CachedOutputs>, pendingScriptBytes: nat, nulls: set<OutPoint>, variants: Variants,
    limits: ResolverLimits, truth: OutPoint -> Script, picks: seq<Pick>, doomed: set<Wtxid>)
    requires SliceOk(
               queued, active, fairOrder, facts, deferredFacts, rawOutputs, pendingScriptBytes, nulls, variants, limits, truth)
    requires HistoryOk(active, queued, facts, picks)
    ensures var left := active - doomed;
            var kept := Restrict(facts, left);
            && SliceOk(
                 queued, left, Retain(fairOrder, left.Keys), kept, deferredFacts, rawOutputs, Sum(kept, ReadyBytes), nulls,
                 variants, limits, truth)
            && HistoryOk(left, queued, kept, picks) && Sum(kept, ReadyBytes) <= pendingScriptBytes
  {
    hide HistoryOk, Covered, Ordered, CandidatesOk, QueueOk, Windowed, FactsOk, AllOutputsTrue, Members, Sum, Restrict,
         Retain;
    var left := active - doomed;
    RemoveCovered(active, facts, doomed);
    RemoveOrdered(active, fairOrder, doomed);
    RemoveWindowed(active, facts, limits.maxUniquePrevoutsPerWindow, doomed);
    RemoveOthersOk(active, queued, doomed);
    MembersLess(active, queued, variants, doomed);
    RemoveFactsOk(facts, left, deferredFacts, nulls, variants, truth);
    RestrictSums(facts, left);
    HistoryLess(active, queued, facts, picks, doomed);
    RestrictBegins(facts, left);
    HistoryKeeps(left, queued, facts, Restrict(facts, left), picks);
  }

  // The candidate at the front of the rotation.
  lemma FrontAt(
    queued: seq<Prepared>, active: Candidates, fairOrder: seq<Wtxid>, facts: Facts, deferredFacts: set<OutPoint>,
    rawOutputs: map<Txid, CachedOutputs>, pendingScriptBytes: nat, nulls: set<OutPoint>, variants: Variants,
    limits: ResolverLimits, truth: OutPoint -> Script)
    requires SliceOk(
               queued, active, fairOrder, facts, deferredFacts, rawOutputs, pendingScriptBytes, nulls, variants, limits, truth)
    requires fairOrder != []
    ensures fairOrder[0] in active && QueueOk(queued, active)
    ensures var front := active[fairOrder[0]]; front.required != [] ==> front.factCursor < |front.required|
  {
    hide QueueOk, Windowed, FactsOk, AllOutputsTrue, Members, Sum, Covered;
    CandidateAt(active, fairOrder[0]);
    CandidateCursor(fairOrder[0], active[fairOrder[0]]);
  }

  // The front candidate goes to the back, its cursor moved.
  lemma TurnedOk(
    queued: seq<Prepared>, active: Candidates, fairOrder: seq<Wtxid>, facts: Facts, deferredFacts: set<OutPoint>,
    rawOutputs: map<Txid, CachedOutputs>, pendingScriptBytes: nat, nulls: set<OutPoint>, variants: Variants,
    limits: ResolverLimits, truth: OutPoint -> Script, moved: Candidate)
    requires SliceOk(
               queued, active, fairOrder, facts, deferredFacts, rawOutputs, pendingScriptBytes, nulls, variants, limits, truth)
    requires fairOrder != [] && fairOrder[0] in active
    requires moved == active[fairOrder[0]].(factCursor := moved.factCursor)
    requires moved.required != [] ==> moved.factCursor < |moved.required|
    ensures CursorsMoved(active, active[fairOrder[0] := moved])
    ensures SliceOk(
              queued, active[fairOrder[0] := moved], fairOrder[1..] + [fairOrder[0]], facts, deferredFacts, rawOutputs,
              pendingScriptBytes, nulls, variants, limits, truth)
  {
    hide Covered, CandidatesOk, QueueOk, Windowed, FactsOk, AllOutputsTrue, Members, Sum, Ordered;
    var key := fairOrder[0];
    RotateOrdered(active, fairOrder);
    CursorsMovedKeeps(
      active, active[key := moved], facts, fairOrder[1..] + [key], queued, limits.maxUniquePrevoutsPerWindow);
    CursorMovedOk(active, key, moved);
    MembersMoved(active, active[key := moved], queued, variants);
  }

  lemma RestrictBegins(facts: Facts, active: Candidates)
    ensures NoneBegins(facts, Restrict(facts, active))
  {
  }

  // Removing candidates is work done, and makes no fact spent or unquiet.
  lemma RemovedWork(active: Candidates, queued: nat, facts: Facts, doomed: set<Wtxid>)
    requires doomed <= active.Keys
    ensures var left := active - doomed;
            var kept := Restrict(facts, left);
            && |left| == |active| - |doomed|
            && (doomed != {} ==> |left| < |active|)
            && Measure(|left| + queued, queued, Sum(kept, Rank)).AtMost(Measure(|active| + queued, queued, Sum(facts, Rank)))
            && (NoneSpent(facts) ==> NoneSpent(kept)) && (Quieted(facts) ==> Quieted(kept))
  {
    hide Sum, Restrict, NoneSpent, Quieted;
    var left := active - doomed;
    RestrictSums(facts, left);
    if NoneSpent(facts) {
      RestrictNoneSpent(facts, left);
    }
    if Quieted(facts) {
      RestrictQuieted(facts, left);
    }
    RemoveSize(active, doomed);
  }

  class PendingSlice {
    var queued: seq<Prepared>
    var active: Candidates
    var fairOrder: seq<Wtxid>
    var facts: Facts
    var deferredFacts: set<OutPoint>
    const rawOutputs: map<Txid, CachedOutputs>
    var pendingScriptBytes: nat
    // The generation this slice belongs to never changes its membership or limits.
    const variants: Variants
    const limits: ResolverLimits
    // The scripts that outpoints commit to, and the explicit nulls received so far.
    ghost const truth: OutPoint -> Script
    ghost var nulls: set<OutPoint>
    // Every turn of a wave that offered a fact.
    ghost var picks: seq<Pick>
    // The transactions the slice was opened with, and how those that left it did.
    ghost const origin: map<Wtxid, Prepared>
    ghost var books: Books

    ghost predicate Valid()
      reads this
    {
      && SliceOk(
           queued, active, fairOrder, facts, deferredFacts, rawOutputs, pendingScriptBytes, nulls, variants, limits, truth)
      && HistoryOk(active, queued, facts, picks)
      && AccountOk(origin, active, queued, books, deferredFacts)
    }

    /** A slice over freshly fetched raw transactions; the window is filled as far
        as it goes. */
    constructor (
      transactions: seq<Prepared>, variants: Variants, limits: ResolverLimits, ghost truth: OutPoint -> Script)
      requires QueueOk(transactions, map[]) && Members(map[], transactions, variants)
      requires limits.Positive() && PreparedTrue(transactions, truth)
      ensures Valid() && fresh(this)
      ensures this.variants == variants && this.limits == limits && this.truth == truth
      ensures origin == OriginOf(transactions) && rawOutputs == RawOutputs(transactions)
      ensures nulls == {} && deferredFacts == {} && picks == [] && books == NO_BOOKS
      ensures |active| + |queued| == |transactions|
      ensures queued != [] ==> active != map[]
      ensures forall o :: o in facts ==> facts[o] == InitialFact(o, {}, variants)
    {
      hide SliceOk, HistoryOk, AccountOk, QueueOk, Members, PreparedTrue, IsSuffix, Needed, NoneSpent, GrownFrom;
      queued := transactions;
      active, fairOrder, facts, deferredFacts := map[], [], map[], {};
      rawOutputs := RawOutputs(transactions);
      pendingScriptBytes := 0;
      this.variants, this.limits, this.truth, nulls, picks := variants, limits, truth, {}, [];
      origin, books := OriginOf(transactions), NO_BOOKS;
      new;
      StartOk(transactions, variants, limits, truth);
      ActivateWaiting();
      GrownFromNothing(facts, variants);
    }

    ghost function Work(): Measure
      reads this
    {
      Measure(|active| + |queued|, |queued|, Sum(facts, Rank))
    }

    ghost function View(): SliceView
      reads this
    {
      SliceView(active, queued, facts, deferredFacts, books)
    }

    // The books since that moment: these records are the new verdicts.
    ghost predicate Kept(before: SliceView, classified: seq<Classified>)
      reads this
    {
      Booked(origin, before, View(), [], classified, truth, limits.maxPendingScriptBytes)
    }

    // The scripts of everything held fit the byte limit together.
    ghost predicate Fits()
      reads this
    {
      FitTogether(origin, HeldKeys(active, queued), truth, limits.maxPendingScriptBytes)
    }

    lemma RoomNow()
      requires Valid()
      ensures Fits() ==> HasRoom(facts, pendingScriptBytes, truth, limits.maxPendingScriptBytes)
    {
      hide HistoryOk, AccountOk, Covered, Ordered, CandidatesOk, QueueOk, Windowed, FactsOk, AllOutputsTrue, Members,
           Sum, HasRoom;
      if Fits() {
        RoomFor(
          origin, active, queued, books, facts, deferredFacts, nulls, variants, truth, limits.maxPendingScriptBytes);
      }
    }

    lemma DeferredNow()
      requires Valid()
      ensures DeferredListed(facts, deferredFacts)
    {
      hide HistoryOk, AccountOk, Covered, Ordered, CandidatesOk, QueueOk, Windowed, AllOutputsTrue, Members, Sum;
      forall o | o in facts ensures facts[o].OperationallyDeferred? <==> o in deferredFacts {
        FactAt(facts, o, deferredFacts, nulls, variants, truth);
      }
    }

    // Only facts changed since that moment.
    lemma KeptFacts(before: SliceView)
      requires Valid() && AccountOk(origin, before.active, before.queued, before.books, before.deferred)
      requires books == before.books && (NoneBlocked(before.facts) && Fits() ==> NoneBlocked(facts))
      ensures Kept(before, [])
    {
      hide HistoryOk, SliceOk, NoneBlocked, AccountOk, FitTogether;
      BookedFacts(origin, before, View(), truth, limits.maxPendingScriptBytes);
    }

    function CandidateCount(): nat
      reads this
    {
      |active| + |queued|
    }

    predicate IsEmpty()
      reads this
    {
      active == map[] && queued == []
    }

    predicate HasPendingScriptCapacity()
      reads this
    {
      pendingScriptBytes < limits.maxPendingScriptBytes
    }

    // --- one fact ----------------------------------------------------------

    method StoreScript(outpoint: OutPoint, script: Script) returns (stored: bool)
      requires Valid() && script == truth(outpoint)
      modifies this`facts, this`pendingScriptBytes
      ensures Valid()
      ensures outpoint in old(facts) && old(facts)[outpoint].Waiting() ==>
                (stored <==> old(pendingScriptBytes) + EstimatedScriptBytes(script) <= limits.maxPendingScriptBytes)
      ensures !(outpoint in old(facts) && old(facts)[outpoint].Waiting()) ==>
                (stored <==> outpoint in old(facts) && old(facts)[outpoint].Ready?) && facts == old(facts)
      ensures facts == (if stored && old(facts)[outpoint].Waiting() then old(facts)[outpoint := Ready(script)] else old(facts))
      ensures pendingScriptBytes == old(pendingScriptBytes) +
                (if stored && old(facts)[outpoint].Waiting() then EstimatedScriptBytes(script) else 0)
    {
      hide HistoryOk, AccountOk, Covered, FactsOk, Sum;
      if outpoint in facts && facts[outpoint].Ready? {
        return true;
      }
      if outpoint !in facts || !facts[outpoint].Waiting() {
        return false;
      }
      var newTotal := pendingScriptBytes + EstimatedScriptBytes(script);
      if newTotal > limits.maxPendingScriptBytes {
        return false;
      }
      FactAt(facts, outpoint, deferredFacts, nulls, variants, truth);
      SetFact(outpoint, Ready(script));
      pendingScriptBytes := newTotal;
      return true;
    }

    // facts.insert of a state that the invariants allow here.
    ghost predicate MaySet(outpoint: OutPoint, state: FactState)
      reads this
    {
      && outpoint in facts && !facts[outpoint].Ready? && !state.Awaiting?
      && FactOk(outpoint, state, deferredFacts, nulls, variants, truth)
    }

    method SetFact(outpoint: OutPoint, state: FactState)
      requires Valid() && MaySet(outpoint, state)
      modifies this`facts
      ensures facts == old(facts)[outpoint := state]
      ensures Covered(active, facts) && Windowed(active, facts, limits.maxUniquePrevoutsPerWindow)
      ensures FactsOk(facts, deferredFacts, nulls, variants, truth)
      ensures Sum(facts, ReadyBytes) == pendingScriptBytes + ReadyBytes(state)
      ensures HistoryOk(active, queued, facts, picks)
    {
      hide HistoryOk, AccountOk, Covered, Windowed, FactsOk, Sum;
      SumInsert(facts, outpoint, state, ReadyBytes);
      UpdateFact(facts, outpoint, state, deferredFacts, nulls, variants, truth);
      assert facts[outpoint := state].Keys == facts.Keys;
      SameKeys(active, facts, facts[outpoint := state], limits.maxUniquePrevoutsPerWindow);
      HistoryKeeps(active, queued, facts, facts[outpoint := state], picks);
      facts := facts[outpoint := state];
    }

    method MarkCapacityBlocked(outpoint: OutPoint)
      requires Valid()
      modifies this`facts
      ensures Valid()
      ensures facts == (if outpoint in old(facts) && old(facts)[outpoint].Waiting()
                        then old(facts)[outpoint := CapacityBlocked(old(facts)[outpoint].source)] else old(facts))
    {
      hide HistoryOk, AccountOk, Covered, Sum;
      if outpoint in facts && facts[outpoint].Waiting() {
        assert FactOk(outpoint, facts[outpoint], deferredFacts, nulls, variants, truth);
        SetFact(outpoint, CapacityBlocked(facts[outpoint].source));
      }
    }

    /** A known script is stored if it fits beside the retained ones; otherwise
        the fact waits for capacity. */
    method StoreOrBlock(outpoint: OutPoint, script: Script) returns (stored: bool)
      requires Valid() && script == truth(outpoint)
      requires outpoint in facts && facts[outpoint].Waiting()
      modifies this`facts, this`pendingScriptBytes
      ensures Valid()
      ensures stored <==> old(pendingScriptBytes) + EstimatedScriptBytes(script) <= limits.maxPendingScriptBytes
      ensures facts == old(facts)[outpoint :=
                if stored then Ready(script) else CapacityBlocked(old(facts)[outpoint].source)]
      ensures pendingScriptBytes == old(pendingScriptBytes) + if stored then EstimatedScriptBytes(script) else 0
    {
      hide HistoryOk, AccountOk, SliceOk;
      stored := StoreScript(outpoint, script);
      if !stored {
        MarkCapacityBlocked(outpoint);
      }
    }

    method DeferFact(outpoint: OutPoint)
      requires Valid() && outpoint in facts && facts[outpoint].Awaiting?
      modifies this`facts, this`deferredFacts
      ensures Valid()
      ensures facts == old(facts)[outpoint := OperationallyDeferred]
      ensures deferredFacts == old(deferredFacts) + {outpoint}
    {
      hide HistoryOk, AccountOk, Covered, Windowed, Ordered, CandidatesOk, QueueOk, AllOutputsTrue, Members, Sum;
      SumInsert(facts, outpoint, OperationallyDeferred, ReadyBytes);
      assert facts[outpoint := OperationallyDeferred].Keys == facts.Keys;
      SameKeys(active, facts, facts[outpoint := OperationallyDeferred], limits.maxUniquePrevoutsPerWindow);
      HistoryKeeps(active, queued, facts, facts[outpoint := OperationallyDeferred], picks);
      AccountDeferred(origin, active, queued, books, deferredFacts, deferredFacts + {outpoint});
      deferredFacts := deferredFacts + {outpoint};
      facts := facts[outpoint := OperationallyDeferred];
    }

    method DeferIfAttemptsExhausted(outpoint: OutPoint)
      requires Valid()
      modifies this`facts, this`deferredFacts
      ensures Valid()
      ensures var spent := outpoint in old(facts) && old(facts)[outpoint].Awaiting? && !old(facts)[outpoint].HasAttemptLeft();
              && facts == (if spent then old(facts)[outpoint := OperationallyDeferred] else old(facts))
              && deferredFacts == (if spent then old(deferredFacts) + {outpoint} else old(deferredFacts))
    {
      hide HistoryOk, AccountOk, SliceOk;
      if outpoint in facts && facts[outpoint].Awaiting? && !facts[outpoint].HasAttemptLeft() {
        DeferFact(outpoint);
      }
    }

    // --- known scripts -----------------------------------------------------

    /** Offers every waiting fact the script the caches hold for it. */
    method HydrateFromCaches(outputs: map<Txid, CachedOutputs>, confirmed: ConfirmedScriptCache)
      requires Valid() && confirmed.Valid()
      requires AllOutputsTrue(outputs, truth) && AllScriptsTrue(confirmed.Contents().scripts, truth)
      modifies this`facts, this`pendingScriptBytes, confirmed
      ensures Valid() && confirmed.Valid()
      ensures confirmed.Contents().scripts == old(confirmed.Contents().scripts)
      ensures confirmed.estimatedBytes == old(confirmed.estimatedBytes)
      ensures Delivered(
                old(facts), facts, old(facts).Keys,
                CacheKnown(old(facts), rawOutputs, variants, outputs, old(confirmed.Contents().scripts)),
                pendingScriptBytes, limits.maxPendingScriptBytes)
      ensures Work().AtMost(old(Work())) && (NoneSpent(old(facts)) ==> NoneSpent(facts))
      ensures Quieted(old(facts)) ==> Quieted(facts)
      ensures Kept(old(View()), [])
    {
      hide HistoryOk, AccountOk, Covered, Ordered, CandidatesOk, QueueOk, Windowed, FactsOk, AllOutputsTrue, Members,
           AllScriptsTrue, Sum, Delivered, Indexed, Accounted, Booked, NoneBlocked;
      ghost var scripts := confirmed.Contents().scripts;
      ghost var known := CacheKnown(facts, rawOutputs, variants, outputs, scripts);
      CacheKnownTrue(facts, rawOutputs, variants, outputs, scripts, truth);
      var waiting := set o | o in facts && facts[o].Waiting();
      var todo := waiting;
      ghost var done := facts.Keys - waiting;
      DeliverStart(facts, done, known, pendingScriptBytes, limits.maxPendingScriptBytes);
      while todo != {}
        invariant Valid() && confirmed.Valid()
        invariant confirmed.Contents().scripts == scripts
        invariant confirmed.estimatedBytes == old(confirmed.estimatedBytes)
        invariant todo <= waiting && done == old(facts).Keys - todo
        invariant Delivered(old(facts), facts, done, known, pendingScriptBytes, limits.maxPendingScriptBytes)
        decreases todo
      {
        var o :| o in todo;
        todo := todo - {o};
        DeliveredUntouched(old(facts), facts, done, known, pendingScriptBytes, limits.maxPendingScriptBytes, o);
        var script: Option<Script>;
        if facts[o].source.CurrentParent? {
          script := ParentScript(o, rawOutputs, variants, outputs);
        } else {
          confirmed.ContentsValid();
          TouchOutcome(confirmed.Contents(), o);
          script := confirmed.Get(o);
        }
        OfferScript(old(facts), done, known, o, script);
        done := done + {o};
      }
      assert done == old(facts).Keys;
      DeliveredProgress(old(facts), done, known);
      DeliveredKept(old(View()), known);
    }

    lemma DeliveredProgress(before: Facts, done: set<OutPoint>, known: map<OutPoint, Script>)
      requires Delivered(before, facts, done, known, pendingScriptBytes, limits.maxPendingScriptBytes)
      ensures Measure(|active| + |queued|, |queued|, Sum(facts, Rank)).AtMost(
                Measure(|active| + |queued|, |queued|, Sum(before, Rank)))
      ensures NoneSpent(before) ==> NoneSpent(facts)
      ensures Quieted(before) ==> Quieted(facts)
    {
      hide HistoryOk, AccountOk, Sum;
      if Quieted(before) {
        DeliveredQuieted(before, facts, done, known, pendingScriptBytes, limits.maxPendingScriptBytes);
      }
      DeliveredEvolves(before, facts, done, known, pendingScriptBytes, limits.maxPendingScriptBytes);
      EvolvesMeasure(|active| + |queued|, |queued|, before, facts);
      if NoneSpent(before) {
        DeliveredNoneSpent(before, facts, done, known, pendingScriptBytes, limits.maxPendingScriptBytes);
      }
    }

    lemma DeliveredKept(before: SliceView, known: map<OutPoint, Script>)
      requires Valid() && AllScriptsTrue(known, truth)
      requires before == View().(facts := before.facts)
      requires Delivered(before.facts, facts, before.facts.Keys, known, pendingScriptBytes, limits.maxPendingScriptBytes)
      ensures Kept(before, [])
    {
      hide HistoryOk, SliceOk, NoneBlocked, AccountOk, FitTogether, Delivered, HasRoom, AllScriptsTrue;
      RoomNow();
      if NoneBlocked(before.facts) && Fits() {
        DeliveredNoneBlocked(
          before.facts, facts, known, pendingScriptBytes, truth, limits.maxPendingScriptBytes);
      }
      KeptFacts(before);
    }

    // One step of a hydration loop.
    method OfferScript(
      ghost before: Facts, ghost done: set<OutPoint>, ghost known: map<OutPoint, Script>, o: OutPoint, script: Option<Script>)
      requires Valid() && AllScriptsTrue(known, truth)
      requires Delivered(before, facts, done, known, pendingScriptBytes, limits.maxPendingScriptBytes)
      requires o in before && o in facts && facts[o] == before[o] && facts[o].Waiting() && o !in done
      requires script == if o in known then Some(known[o]) else None
      modifies this`facts, this`pendingScriptBytes
      ensures Valid()
      ensures Delivered(before, facts, done + {o}, known, pendingScriptBytes, limits.maxPendingScriptBytes)
    {
      hide HistoryOk, AccountOk, Covered, FactsOk, Sum, Delivered;
      if script.Some? {
        ghost var bytes := pendingScriptBytes;
        var stored := StoreOrBlock(o, script.value);
        DeliverMore(before, old(facts), done, known, bytes, limits.maxPendingScriptBytes, o, facts[o], pendingScriptBytes);
      } else {
        DeliverNothing(before, facts, done, known, pendingScriptBytes, limits.maxPendingScriptBytes, o);
      }
    }

    /** Offers every waiting fact the script fetched for it in this call. */
    method HydrateFromTransient(outputs: map<Txid, CachedOutputs>, confirmed: map<OutPoint, Script>)
      requires Valid()
      requires AllOutputsTrue(outputs, truth) && AllScriptsTrue(confirmed, truth)
      modifies this`facts, this`pendingScriptBytes
      ensures Valid()
      ensures Delivered(
                old(facts), facts, old(facts).Keys, TransientKnown(old(facts), outputs, confirmed),
                pendingScriptBytes, limits.maxPendingScriptBytes)
      ensures Work().AtMost(old(Work())) && (NoneSpent(old(facts)) ==> NoneSpent(facts))
      ensures Quieted(old(facts)) ==> Quieted(facts)
      ensures Kept(old(View()), [])
    {
      hide HistoryOk, AccountOk, Covered, Ordered, CandidatesOk, QueueOk, Windowed, FactsOk, AllOutputsTrue, Members,
           AllScriptsTrue, Sum, Delivered, Booked, NoneBlocked;
      ghost var known := TransientKnown(facts, outputs, confirmed);
      TransientKnownTrue(facts, outputs, confirmed, truth);
      var waiting := set o | o in facts && facts[o].Waiting();
      var todo := waiting;
      ghost var done := facts.Keys - waiting;
      DeliverStart(facts, done, known, pendingScriptBytes, limits.maxPendingScriptBytes);
      while todo != {}
        invariant Valid()
        invariant todo <= waiting && done == old(facts).Keys - todo
        invariant Delivered(old(facts), facts, done, known, pendingScriptBytes, limits.maxPendingScriptBytes)
        decreases todo
      {
        var o :| o in todo;
        todo := todo - {o};
        DeliveredUntouched(old(facts), facts, done, known, pendingScriptBytes, limits.maxPendingScriptBytes, o);
        var script := TransientScript(facts[o].source, o, outputs, confirmed);
        OfferScript(old(facts), done, known, o, script);
        done := done + {o};
      }
      assert done == old(facts).Keys;
      DeliveredProgress(old(facts), done, known);
      DeliveredKept(old(View()), known);
    }

    // --- removing candidates -------------------------------------------------

    method RecountScriptBytes()
      modifies this`pendingScriptBytes
      ensures pendingScriptBytes == Sum(facts, ReadyBytes)
    {
      hide HistoryOk, AccountOk, Sum;
      var total := 0;
      var todo := facts.Keys;
      SumEmpty(facts - todo, ReadyBytes);
      while todo != {}
        invariant todo <= facts.Keys
        invariant total == Sum(facts - todo, ReadyBytes)
        decreases todo
      {
        var o :| o in todo;
        SumInsert(facts - todo, o, facts[o], ReadyBytes);
        assert (facts - todo)[o := facts[o]] == facts - (todo - {o});
        total := total + ReadyBytes(facts[o]);
        todo := todo - {o};
      }
      assert facts - {} == facts;
      pendingScriptBytes := total;
    }

    method RemoveCandidates(doomed: set<Wtxid>, ghost after: Books)
      requires Valid() && doomed <= active.Keys
      requires AccountOk(origin, active - doomed, queued, after, deferredFacts)
      modifies this`active, this`fairOrder, this`facts, this`pendingScriptBytes, this`books
      ensures Valid() && books == after
      ensures active == old(active) - doomed
      ensures fairOrder == Retain(old(fairOrder), active.Keys)
      ensures facts == Restrict(old(facts), active)
      ensures pendingScriptBytes <= old(pendingScriptBytes)
      ensures |active| == |old(active)| - |doomed|
      ensures Work().AtMost(old(Work())) && (NoneSpent(old(facts)) ==> NoneSpent(facts))
      ensures Quieted(old(facts)) ==> Quieted(facts)
      ensures doomed != {} ==> Work().candidates < old(Work().candidates)
    {
      hide SliceOk, HistoryOk, AccountOk, Sum, Restrict, NoneSpent, Quieted;
      RemovedOk(
        queued, active, fairOrder, facts, deferredFacts, rawOutputs, pendingScriptBytes, nulls, variants, limits, truth,
        picks, doomed);
      RemovedWork(active, |queued|, facts, doomed);
      active, books := active - doomed, after;
      fairOrder := Retain(fairOrder, active.Keys);
      facts := Restrict(facts, active);
      RecountScriptBytes();
    }

    /** Removes the candidates that need an exhausted fact, and only those. */
    method DeferExhaustedCandidates() returns (deferred: nat)
      requires Valid()
      modifies this`active, this`fairOrder, this`facts, this`pendingScriptBytes, this`books
      ensures Valid()
      ensures var doomed := DoomedKeys(old(active), old(facts));
              && active == old(active) - doomed
              && facts == Restrict(old(facts), active)
              && fairOrder == Retain(old(fairOrder), active.Keys)
              && deferred == |doomed|
              && books == old(books).(exhausted := old(books).exhausted + doomed)
      ensures Work().AtMost(old(Work())) && (NoneSpent(old(facts)) ==> NoneSpent(facts))
      ensures Quieted(old(facts)) ==> Quieted(facts)
      ensures deferred > 0 ==> Work().candidates < old(Work().candidates)
      ensures deferred == 0 ==> facts == old(facts) && active == old(active)
      ensures Kept(old(View()), [])
    {
      hide HistoryOk, AccountOk, SliceOk, Sum, Restrict, Retain, Booked, NoneBlocked, DoomedKeys, NoneSpent, Quieted;
      var doomed := DoomedKeys(active, facts);
      NoneRemoved();
      ghost var after := books.(exhausted := books.exhausted + doomed);
      ExhaustedOk(doomed);
      if doomed != {} {
        RemoveCandidates(doomed, after);
      } else {
        assert active - doomed == active && books.exhausted + doomed == books.exhausted;
      }
      deferred := |doomed|;
      if NoneBlocked(old(facts)) {
        RestrictNoneBlocked(old(facts), active);
      }
      LeftBooked(old(View()));
    }

    // Removing nobody changes nothing.
    lemma NoneRemoved()
      requires Valid()
      ensures Restrict(facts, active) == facts && Retain(fairOrder, active.Keys) == fairOrder
    {
      hide HistoryOk, AccountOk, CandidatesOk, QueueOk, Windowed, FactsOk, AllOutputsTrue, Members, Sum, Restrict,
           Retain;
      RestrictSame(facts, active);
      RetainEverything(fairOrder, active.Keys);
    }

    lemma ExhaustedOk(doomed: set<Wtxid>)
      requires Valid() && doomed == DoomedKeys(active, facts)
      ensures doomed <= active.Keys
      ensures AccountOk(
                origin, active - doomed, queued, books.(exhausted := books.exhausted + doomed), deferredFacts)
    {
      hide HistoryOk, AccountOk, Covered, Ordered, CandidatesOk, QueueOk, Windowed, FactsOk, AllOutputsTrue, Members,
           Sum;
      AccountExhausted(origin, active, queued, books, deferredFacts, facts, nulls, variants, truth);
    }

    /** Classifies every candidate whose facts are all terminal, and only those.
        The arm of the original marked unreachable is dead. */
    method ClassifyReady() returns (classified: seq<Classified>)
      requires Valid()
      modifies this`active, this`fairOrder, this`facts, this`pendingScriptBytes, this`books
      ensures Valid()
      ensures var ready := set k | k in old(active) && IsTerminal(old(active)[k], old(facts));
              && active == old(active) - ready
              && facts == Restrict(old(facts), active)
              && IsClassificationOf(classified, ready, old(active), old(facts))
      ensures books == old(books).(verdicts := InsertAll(old(books).verdicts, classified))
      ensures OneEach(classified) && RecordKeys(classified) !! old(books).verdicts.Keys
      ensures forall c :: c in classified ==> ClassifiedSound(c, nulls, variants, truth)
      ensures forall k :: k in active ==> !IsTerminal(active[k], facts)
      ensures Work().AtMost(old(Work())) && (NoneSpent(old(facts)) ==> NoneSpent(facts))
      ensures Quieted(old(facts)) ==> Quieted(facts)
      ensures classified != [] ==> Work().candidates < old(Work().candidates)
      ensures classified == [] ==> facts == old(facts) && active == old(active) && fairOrder == old(fairOrder)
      ensures classified == [] ==> pendingScriptBytes == old(pendingScriptBytes)
      ensures Kept(old(View()), classified)
    {
      hide HistoryOk, AccountOk, Covered, Ordered, CandidatesOk, QueueOk, Windowed, FactsOk, AllOutputsTrue, Members,
           Sum, Restrict, Retain, IsTerminal, ClassifiedSound, IsClassificationOf, Recorded, Booked, Roomy, OneEach,
           RecordKeys;
      var ready := set k | k in active && IsTerminal(active[k], facts);
      classified := EvaluateAll(ready);
      ClassificationSize(classified, ready, active, facts);
      ghost var after := books.(verdicts := InsertAll(books.verdicts, classified));
      AccountClassified(origin, active, queued, books, deferredFacts, classified, ready, facts);
      if ready == {} {
        RestrictSame(facts, active);
        assert active - {} == active;
        assert forall k :: k in active ==> k !in ready;
      } else {
        RemoveCandidates(ready, after);
        StillOpen(old(active), old(facts), ready);
      }
      VerdictsBooked(old(View()), classified);
    }

    lemma VerdictsBooked(before: SliceView, classified: seq<Classified>)
      requires Valid() && AccountOk(origin, before.active, before.queued, before.books, before.deferred)
      requires books == before.books.(verdicts := InsertAll(before.books.verdicts, classified))
      requires OneEach(classified) && RecordKeys(classified) !! before.books.verdicts.Keys
      requires facts == Restrict(before.facts, active)
      ensures Kept(before, classified)
    {
      hide HistoryOk, AccountOk, SliceOk, Restrict, NoneBlocked, Recorded, InsertAll, OneEach, RecordKeys, FitTogether,
           Roomy;
      RecordedOne(before.books.verdicts, [], classified);
      var none: seq<Classified> := [];
      assert none + classified == classified;
      if NoneBlocked(before.facts) {
        RestrictNoneBlocked(before.facts, active);
      }
      BookedStep(origin, before, View(), none, classified, truth, limits.maxPendingScriptBytes);
    }

    // Candidates left without a verdict.
    lemma LeftBooked(before: SliceView)
      requires Valid() && AccountOk(origin, before.active, before.queued, before.books, before.deferred)
      requires books == before.books.(exhausted := books.exhausted, victims := books.victims)
      requires before.books.exhausted <= books.exhausted && before.books.victims <= books.victims
      requires NoneBlocked(before.facts) && Fits() ==> NoneBlocked(facts) && books.victims == before.books.victims
      ensures Kept(before, [])
    {
      hide HistoryOk, AccountOk, SliceOk, Restrict, NoneBlocked, Recorded, FitTogether, Roomy;
      RecordedNone(before.books.verdicts, []);
      BookedStep(origin, before, View(), [], [], truth, limits.maxPendingScriptBytes);
    }

    method EvaluateAll(ready: set<Wtxid>) returns (classified: seq<Classified>)
      requires Valid() && ready <= active.Keys
      requires forall k :: k in ready ==> IsTerminal(active[k], facts)
      ensures IsClassificationOf(classified, ready, active, facts)
      ensures forall c :: c in classified ==> ClassifiedSound(c, nulls, variants, truth)
    {
      hide HistoryOk, AccountOk, Covered, Ordered, CandidatesOk, QueueOk, Windowed, FactsOk, AllOutputsTrue, Members,
           Sum, IsTerminal, ClassifiedSound, CandidateOk, IsClassificationOf;
      classified := [];
      var todo := ready;
      ClassifyNone(active, facts);
      assert ready - todo == {};
      while todo != {}
        invariant todo <= ready
        invariant IsClassificationOf(classified, ready - todo, active, facts)
        invariant forall c :: c in classified ==> ClassifiedSound(c, nulls, variants, truth)
        decreases todo
      {
        var key :| key in todo;
        CandidateAt(active, key);
        var record := Evaluate(key, active[key]);
        ClassifyOneMore(classified, ready - todo, active, facts, key);
        assert ready - (todo - {key}) == (ready - todo) + {key};
        classified := classified + [record];
        todo := todo - {key};
      }
      assert ready - {} == ready;
    }

    // The record the evaluator produces for a candidate with terminal facts.
    method Evaluate(key: Wtxid, candidate: Candidate) returns (record: Classified)
      requires Valid() && CandidateOk(key, candidate) && IsTerminal(candidate, facts)
      ensures record == Verdict(candidate, facts)
      ensures ClassifiedSound(record, nulls, variants, truth)
    {
      hide HistoryOk, AccountOk, Covered, Ordered, CandidatesOk, QueueOk, Windowed, FactsOk, AllOutputsTrue, Members,
           Sum;
      var tx := candidate.transaction;
      var prevouts: seq<Option<Script>> := [];
      if !tx.IsCoinbase() {
        for i := 0 to |tx.inputs|
          invariant |prevouts| == i
          invariant forall j :: 0 <= j < i ==> prevouts[j] == FactScript(facts, tx.inputs[j])
        {
          var o := tx.inputs[i];
          assert o in Needed(tx);
          assert o in Elements(candidate.required);
          match facts[o] {
            case Ready(script) => prevouts := prevouts + [Some(script)];
            case ExplicitlyMissing => prevouts := prevouts + [None];
            case _ => assert false;
          }
        }
      }
      assert prevouts == EvaluatorInput(tx, facts);
      record := Classified(candidate.expected, tx, prevouts, None in prevouts);
      VerdictSound(key, candidate, facts, deferredFacts, nulls, variants, truth);
    }

    // --- activating candidates -------------------------------------------------

    /** Moves queued candidates into the window while their facts fit it; an
        empty window always admits one. */
    method ActivateWaiting()
      requires Valid()
      modifies this`queued, this`active, this`fairOrder, this`facts, this`pendingScriptBytes
      ensures Valid()
      ensures Activated(old(queued), old(active), old(fairOrder), old(facts))
      ensures queued != [] ==>
                && active != map[]
                && |facts| + |Needed(queued[0].transaction) - facts.Keys| > limits.maxUniquePrevoutsPerWindow
      ensures pendingScriptBytes == old(pendingScriptBytes)
      ensures Work().AtMost(old(Work())) && (NoneSpent(old(facts)) ==> NoneSpent(facts))
      ensures Kept(old(View()), [])
    {
      hide HistoryOk, AccountOk, Covered, Ordered, CandidatesOk, QueueOk, Windowed, FactsOk, AllOutputsTrue, Members,
           Sum, GrownFrom, IsSuffix, Needed, NoneSpent, Booked, NoneBlocked;
      FillWindow();
      if NoneBlocked(old(facts)) {
        GrownNoneBlocked(old(facts), facts, deferredFacts, variants);
      }
      if NoneSpent(old(facts)) {
        GrownNoneSpent(old(facts), facts, deferredFacts, variants);
      }
      RecountScriptBytes();
      KeptFacts(old(View()));
    }

    method FillWindow()
      requires Valid()
      modifies this`queued, this`active, this`fairOrder, this`facts
      ensures Valid()
      ensures Activated(old(queued), old(active), old(fairOrder), old(facts))
      ensures queued != [] ==>
                && active != map[]
                && |facts| + |Needed(queued[0].transaction) - facts.Keys| > limits.maxUniquePrevoutsPerWindow
    {
      hide HistoryOk, AccountOk, Covered, Ordered, CandidatesOk, QueueOk, Windowed, FactsOk, AllOutputsTrue, Members,
           Sum, AddFacts, GrownFrom, IsSuffix, Needed;
      SuffixSelf(queued);
      GrownStart(facts, deferredFacts, variants);
      while queued != []
        invariant Valid()
        invariant Activated(old(queued), old(active), old(fairOrder), old(facts))
        decreases |queued|
      {
        var needed := Needed(queued[0].transaction);
        var newFacts := |needed - facts.Keys|;
        if active != map[] && |facts| + newFacts > limits.maxUniquePrevoutsPerWindow {
          break;
        }
        GrownMore(old(facts), facts, needed, deferredFacts, variants);
        SuffixTail(queued, old(queued));
        ActivateNext(needed);
      }
    }

    ghost predicate Activated(queued0: seq<Prepared>, active0: Candidates, order0: seq<Wtxid>, facts0: Facts)
      reads this
    {
      && |queued| <= |queued0| && IsSuffix(queued, queued0)
      && |active| + |queued| == |active0| + |queued0|
      && (|queued| == |queued0| ==> active == active0 && fairOrder == order0 && facts == facts0)
      && GrownFrom(facts0, facts, deferredFacts, variants)
    }

    method ActivateNext(needed: set<OutPoint>)
      requires Valid() && queued != [] && needed == Needed(queued[0].transaction)
      requires active == map[] || |facts| + |needed - facts.Keys| <= limits.maxUniquePrevoutsPerWindow
      modifies this`queued, this`active, this`fairOrder, this`facts
      ensures Valid()
      ensures queued == old(queued)[1..]
      ensures |active| == |old(active)| + 1
      ensures fairOrder == old(fairOrder) + [old(queued)[0].expected.wtxid]
      ensures facts == AddFacts(old(facts), needed, deferredFacts, variants)
    {
      hide HistoryOk, AccountOk, Covered, Ordered, CandidatesOk, QueueOk, Windowed, FactsOk, AllOutputsTrue, Members,
           Sum, AddFacts, CandidateOk;
      var next := queued[0];
      var required := ListOutpoints(needed);
      var key := next.expected.wtxid;
      var candidate := Candidate(next.expected, next.transaction, required, 0);
      NextCandidateOk(queued, active, required);
      AddFactsOk(facts, needed, deferredFacts, nulls, variants, truth);
      AddFactsSize(facts, needed, deferredFacts, variants);
      AddFactsBytes(facts, needed, deferredFacts, variants);
      AddCovered(active, facts, key, candidate, deferredFacts, variants);
      AddOrdered(active, fairOrder, key, candidate);
      AddOthersOk(active, queued, candidate);
      MembersNext(active, queued, variants, key, candidate);
      var more := AddFacts(facts, needed, deferredFacts, variants);
      AddFactsKeeps(facts, needed, deferredFacts, variants);
      HistoryNext(active, queued, facts, more, picks, candidate);
      AccountNext(origin, active, queued, books, deferredFacts, candidate);
      AddWindowed(active, key, candidate, facts, more, limits.maxUniquePrevoutsPerWindow);
      queued := queued[1..];
      facts := more;
      fairOrder := fairOrder + [key];
      active := active[key := candidate];
    }

    // --- raw parents -------------------------------------------------------

    /** Applies a fetched parent to the facts that await it. */
    method ApplyParentTransaction(expected: ExpectedVariant, transaction: Transaction) returns (outputs: CachedOutputs)
      requires Valid() && transaction.txid == expected.txid
      requires OutputsTrue(expected.txid, OutputsOf(expected, transaction), truth)
      modifies this`facts, this`pendingScriptBytes, this`deferredFacts
      ensures Valid()
      ensures outputs == OutputsOf(expected, transaction)
      ensures ParentApplied(
                old(facts), facts, expected.txid, transaction.outputs, old(facts).Keys, pendingScriptBytes,
                limits.maxPendingScriptBytes)
      ensures old(pendingScriptBytes) <= pendingScriptBytes
      ensures DeferralsIn(old(deferredFacts), deferredFacts, facts)
    {
      hide HistoryOk, AccountOk, Covered, Ordered, CandidatesOk, QueueOk, Windowed, FactsOk, AllOutputsTrue, Members,
           Sum, ParentApplied, ParentAppliedAt;
      outputs := OutputsOf(expected, transaction);
      var targets := set o | o in facts && o.txid == expected.txid && facts[o].AwaitingParent();
      var todo := targets;
      ghost var done := facts.Keys - targets;
      ParentApplyStart(facts, expected.txid, transaction.outputs, done, pendingScriptBytes, limits.maxPendingScriptBytes);
      while todo != {}
        invariant Valid() && old(pendingScriptBytes) <= pendingScriptBytes
        invariant DeferralsIn(old(deferredFacts), deferredFacts, facts)
        invariant todo <= targets && done == old(facts).Keys - todo
        invariant ParentApplied(
                    old(facts), facts, expected.txid, transaction.outputs, done, pendingScriptBytes,
                    limits.maxPendingScriptBytes)
        decreases todo
      {
        var o :| o in todo;
        todo := todo - {o};
        ghost var deferred1, facts1 := deferredFacts, facts;
        ApplyParentOutput(old(facts), expected.txid, transaction.outputs, done, o);
        DeferralsMore(old(deferredFacts), deferred1, deferredFacts, facts1, facts);
        done := done + {o};
      }
      assert done == old(facts).Keys;
    }

    method ApplyParentOutput(
      ghost before: Facts, parent: Txid, scripts: seq<Script>, ghost done: set<OutPoint>, o: OutPoint)
      requires Valid()
      requires forall v :: 0 <= v < |scripts| ==> scripts[v] == truth(OutPoint(parent, v))
      requires ParentApplied(before, facts, parent, scripts, done, pendingScriptBytes, limits.maxPendingScriptBytes)
      requires o in before && o !in done && o.txid == parent && before[o].AwaitingParent()
      modifies this`facts, this`pendingScriptBytes, this`deferredFacts
      ensures Valid()
      ensures ParentApplied(before, facts, parent, scripts, done + {o}, pendingScriptBytes, limits.maxPendingScriptBytes)
      ensures old(pendingScriptBytes) <= pendingScriptBytes
      ensures o in facts && o in old(facts) && old(facts)[o].Awaiting? && facts == old(facts)[o := facts[o]]
      ensures DeferralsIn(old(deferredFacts), deferredFacts, facts)
    {
      hide HistoryOk, AccountOk, Covered, Ordered, CandidatesOk, QueueOk, Windowed, FactsOk, AllOutputsTrue, Members,
           Sum, ParentApplied;
      ParentUntouched(before, facts, parent, scripts, done, pendingScriptBytes, limits.maxPendingScriptBytes, o);
      if o.vout < |scripts| {
        assert OutPoint(parent, o.vout) == o;
        var stored := StoreOrBlock(o, scripts[o.vout]);
      } else {
        DeferIfAttemptsExhausted(o);
      }
      assert facts == old(facts)[o := facts[o]];
      ParentApplyOne(
        before, old(facts), parent, scripts, done, old(pendingScriptBytes), limits.maxPendingScriptBytes, o, facts[o],
        pendingScriptBytes);
    }

    /** Applies the answers to a parent wave. Unless fact waves are paused, the
        parents that were not found are asked of gettxout instead. */
    method ApplyParentAnswers(wave: seq<ExpectedVariant>, values: RawValues, paused: bool, ghost facts0: Facts)
      returns (outputs: map<Txid, CachedOutputs>, ghost applied: Facts)
      requires Valid() && ParentWaveOk(facts0, variants, wave) && RawAnswersOk(wave, values, truth)
      modifies this`facts, this`pendingScriptBytes, this`deferredFacts
      ensures Valid()
      ensures OutputsOfFound(outputs, values, |values|)
      ensures AllOutputsTrue(outputs, truth) && OutputsFor(outputs, variants)
      ensures ParentsApplied(
                old(facts), applied, values, |values|, pendingScriptBytes, limits.maxPendingScriptBytes)
      ensures facts == if paused then applied else FallBack(applied, Txids(wave) - Resolved(values, |values|))
      ensures Evolves(old(facts), facts) && Work().AtMost(old(Work()))
      ensures DeferralsIn(old(deferredFacts), deferredFacts, facts) && Kept(old(View()), [])
      ensures NoneSpent(facts0) && old(facts) == AttemptParents(facts0, Txids(wave)) ==>
                (NoneSpent(facts) <==>
                   || !paused
                   || forall o :: LastParentAttempt(facts0, Txids(wave), o) ==> o.txid in Resolved(values, |values|))
    {
      hide HistoryOk, AccountOk, Covered, Ordered, CandidatesOk, QueueOk, Windowed, FactsOk, AllOutputsTrue, Members,
           Sum, ParentsApplied, ParentApplied, ParentWaveOk, FallBack, LastParentAttempt, NoneSpent, Evolves,
           OutputsOfFound, OutputsFor, Resolved, Txids, RawFoundOk, OutputsTrue, DeferralsIn, Booked, NoneBlocked,
           HasRoom, FitTogether;
      ParentWaveDistinct(facts0, variants, wave, values, truth);
      outputs := map[];
      var resolvedParents: set<Txid> := {};
      ParentsAppliedNone(facts, values, pendingScriptBytes, limits.maxPendingScriptBytes);
      DeferralsNone(deferredFacts, facts);
      assert OutputsOfFound(outputs, values, 0) && Resolved(values, 0) == {} by {
        NothingFound(values);
      }
      for i := 0 to |values|
        invariant Valid()
        invariant ParentsApplied(old(facts), facts, values, i, pendingScriptBytes, limits.maxPendingScriptBytes)
        invariant OutputsOfFound(outputs, values, i) && resolvedParents == Resolved(values, i)
        invariant DeferralsIn(old(deferredFacts), deferredFacts, facts)
      {
        var (expected, value) := values[i];
        ghost var facts1, bytes1, deferred1 := facts, pendingScriptBytes, deferredFacts;
        ResolvedMore(values, i);
        OutputsFoundMore(outputs, values, i);
        if value.Found? {
          RawFound(values[i].0, value.value, truth);
          resolvedParents := resolvedParents + {expected.txid};
          var parentOutputs := ApplyParentTransaction(expected, value.value);
          outputs := outputs[expected.txid := parentOutputs];
          ParentKeepsDeferred(
            facts1, facts, expected.txid, value.value.outputs, pendingScriptBytes, limits.maxPendingScriptBytes);
          DeferralsMore(old(deferredFacts), deferred1, deferredFacts, facts1, facts);
        }
        ParentsAppliedMore(
          old(facts), facts1, facts, values, i, bytes1, pendingScriptBytes, limits.maxPendingScriptBytes);
      }
      applied := facts;
      ParentsKept(old(View()), wave, values);
      OutputsFoundTrue(outputs, wave, values, variants, truth);
      ParentsAppliedEvolves(
        old(facts), facts, values, |values|, pendingScriptBytes, limits.maxPendingScriptBytes);
      EvolvesMeasure(|active| + |queued|, |queued|, old(facts), facts);
      if !paused {
        var unresolved := Txids(wave) - resolvedParents;
        FallBackParentsToGettxout(unresolved);
        FallBackDeferrals(applied, unresolved, old(deferredFacts), deferredFacts);
        FallBackKept(old(View()), applied, unresolved);
        EvolvesTransitive(old(facts), applied, facts);
        EvolvesMeasure(|active| + |queued|, |queued|, old(facts), facts);
      }
      if NoneSpent(facts0) && old(facts) == AttemptParents(facts0, Txids(wave)) {
        ParentWaveSpent(
          facts0, applied, values, pendingScriptBytes, limits.maxPendingScriptBytes, Txids(wave), paused);
      }
    }

    lemma ParentsKept(before: SliceView, wave: seq<ExpectedVariant>, values: RawValues)
      requires Valid() && RawAnswersOk(wave, values, truth)
      requires before == View().(facts := before.facts, deferred := before.deferred)
      requires AccountOk(origin, before.active, before.queued, before.books, before.deferred)
      requires ParentsApplied(before.facts, facts, values, |values|, pendingScriptBytes, limits.maxPendingScriptBytes)
      ensures Kept(before, []) && (NoneBlocked(before.facts) && Fits() ==> NoneBlocked(facts))
    {
      hide HistoryOk, SliceOk, NoneBlocked, AccountOk, FitTogether, ParentsApplied, HasRoom, RawAnswersOk;
      RoomNow();
      if NoneBlocked(before.facts) && Fits() {
        ParentsNoneBlocked(
          before.facts, facts, wave, values, pendingScriptBytes, truth, limits.maxPendingScriptBytes);
      }
      KeptFacts(before);
    }

    lemma FallBackKept(before: SliceView, applied: Facts, parents: set<Txid>)
      requires Valid() && facts == FallBack(applied, parents)
      requires before == View().(facts := before.facts, deferred := before.deferred)
      requires AccountOk(origin, before.active, before.queued, before.books, before.deferred)
      requires NoneBlocked(before.facts) && Fits() ==> NoneBlocked(applied)
      ensures Kept(before, [])
    {
      hide HistoryOk, SliceOk, NoneBlocked, AccountOk, FitTogether, FallBack;
      if NoneBlocked(applied) {
        FallBackNoneBlocked(applied, parents);
      }
      KeptFacts(before);
    }

    /** The facts that still await these parents are asked of gettxout instead. */
    method FallBackParentsToGettxout(parents: set<Txid>)
      requires Valid()
      modifies this`facts
      ensures Valid()
      ensures facts == FallBack(old(facts), parents)
      ensures Evolves(old(facts), facts)
    {
      hide HistoryOk, AccountOk, Covered, Ordered, CandidatesOk, QueueOk, Windowed, FactsOk, AllOutputsTrue, Members,
           Sum;
      ReplaceFacts(FallBack(facts, parents));
    }

    method ReplaceFacts(replacement: Facts)
      requires Valid() && replacement.Keys == facts.Keys
      requires forall o :: o in facts ==>
                || replacement[o] == facts[o]
                || replacement[o] == facts[o].Attempted()
                || (facts[o].AwaitingParent() && replacement[o] == Awaiting(ParentFallback, 0))
      modifies this`facts
      ensures Valid() && facts == replacement && Evolves(old(facts), facts)
    {
      hide HistoryOk, AccountOk, Covered, Ordered, CandidatesOk, QueueOk, Windowed, FactsOk, AllOutputsTrue, Members,
           Sum, Evolves;
      FactsMapped(facts, replacement, deferredFacts, nulls, variants, truth);
      SameKeys(active, facts, replacement, limits.maxUniquePrevoutsPerWindow);
      HistoryKeeps(active, queued, facts, replacement, picks);
      facts := replacement;
    }

    // --- gettxout answers ------------------------------------------------------

    /** Applies one gettxout answer. A positive script is handed back for the
        shared cache even when it does not fit the pending budget. */
    method ApplyConfirmedValue(outpoint: OutPoint, value: RpcValue<Script>) returns (script: Option<Script>)
      requires Valid()
      requires value.Found? ==> value.value == truth(outpoint)
      modifies this`facts, this`pendingScriptBytes, this`deferredFacts, this`nulls
      ensures Valid()
      ensures outpoint !in old(facts) ==> facts == old(facts)
      ensures outpoint in old(facts) ==>
                && outpoint in facts && facts == old(facts)[outpoint := facts[outpoint]]
                && ConfirmedAppliedAt(
                     old(facts)[outpoint], facts[outpoint], value, pendingScriptBytes, limits.maxPendingScriptBytes)
                && (value.Found? && old(facts)[outpoint].Waiting()
                    && old(pendingScriptBytes) + EstimatedScriptBytes(value.value) <= limits.maxPendingScriptBytes ==>
                      facts[outpoint].Ready?)
      ensures script == if value.Found? then Some(value.value) else None
      ensures nulls == if value.ExplicitNull? then old(nulls) + {outpoint} else old(nulls)
      ensures old(pendingScriptBytes) <= pendingScriptBytes
      ensures pendingScriptBytes <= old(pendingScriptBytes) + if value.Found? then EstimatedScriptBytes(value.value) else 0
      ensures DeferralsIn(old(deferredFacts), deferredFacts, facts)
    {
      hide HistoryOk, AccountOk, Covered, Ordered, CandidatesOk, QueueOk, Windowed, FactsOk, AllOutputsTrue, Members,
           Sum;
      script := None;
      match value {
        case Found(found) =>
          if outpoint in facts && facts[outpoint].Waiting() {
            var stored := StoreOrBlock(outpoint, found);
          }
          script := Some(found);
        case ExplicitNull =>
          MoreNulls(facts, deferredFacts, nulls, variants, truth, outpoint);
          nulls := nulls + {outpoint};
          if outpoint in facts && facts[outpoint].Awaiting? {
            match facts[outpoint].source {
              case Confirmed =>
                FactAt(facts, outpoint, deferredFacts, nulls, variants, truth);
                SetFact(outpoint, ExplicitlyMissing);
              case ParentFallback =>
                DeferIfAttemptsExhausted(outpoint);
              case CurrentParent =>
            }
          }
        case RetryableFailure =>
          DeferIfAttemptsExhausted(outpoint);
        case SystemicFailure =>
      }
    }

    /** Applies the answers of one confirmed wave. */
    method ApplyConfirmedValues(answers: Answers) returns (scripts: map<OutPoint, Script>)
      requires Valid() && Answerable(facts, answers)
      requires forall i :: 0 <= i < |answers| && answers[i].1.Found? ==> answers[i].1.value == truth(answers[i].0)
      modifies this`facts, this`pendingScriptBytes, this`deferredFacts, this`nulls
      ensures Valid()
      ensures ConfirmedApplied(old(facts), facts, answers, |answers|, pendingScriptBytes, limits.maxPendingScriptBytes)
      ensures forall o :: o in scripts <==> exists i :: 0 <= i < |answers| && answers[i].0 == o && answers[i].1.Found?
      ensures AllScriptsTrue(scripts, truth)
      ensures old(nulls) <= nulls
      ensures Evolves(old(facts), facts) && Work().AtMost(old(Work()))
      ensures DeferralsIn(old(deferredFacts), deferredFacts, facts)
      ensures FoundFit(answers, old(pendingScriptBytes), limits.maxPendingScriptBytes) ==>
                FoundReady(facts, answers, |answers|)
    {
      hide HistoryOk, AccountOk, Covered, Ordered, CandidatesOk, QueueOk, Windowed, FactsOk, AllOutputsTrue, Members,
           Sum, ConfirmedApplied, ConfirmedAppliedAt, Answerable, FoundReady, DeferralsIn;
      ghost var bytes0, limit := pendingScriptBytes, limits.maxPendingScriptBytes;
      ghost var fit := FoundFit(answers, bytes0, limit);
      scripts := map[];
      ConfirmedApplyStart(facts, answers, pendingScriptBytes, limit);
      FoundReadyNone(facts, answers);
      DeferralsNone(deferredFacts, facts);
      for i := 0 to |answers|
        invariant Valid() && old(nulls) <= nulls
        invariant ConfirmedApplied(old(facts), facts, answers, i, pendingScriptBytes, limit)
        invariant forall o :: o in scripts <==> exists j :: 0 <= j < i && answers[j].0 == o && answers[j].1.Found?
        invariant AllScriptsTrue(scripts, truth)
        invariant DeferralsIn(old(deferredFacts), deferredFacts, facts)
        invariant fit ==> pendingScriptBytes <= bytes0 + FoundBytes(answers, i)
        invariant fit ==> FoundReady(facts, answers, i)
      {
        var (outpoint, value) := answers[i];
        ghost var facts1, bytes1, deferred1 := facts, pendingScriptBytes, deferredFacts;
        AnswerUntouched(old(facts), facts, answers, i, pendingScriptBytes, limit);
        FoundBytesMonotone(answers, i + 1, |answers|);
        var script := ApplyConfirmedValue(outpoint, value);
        if script.Some? {
          scripts := scripts[outpoint := script.value];
        }
        AnswerKeepsDeferred(facts1, facts, outpoint, value, pendingScriptBytes, limit);
        DeferralsMore(old(deferredFacts), deferred1, deferredFacts, facts1, facts);
        ConfirmedApplyOne(old(facts), facts1, answers, i, bytes1, limit, facts[outpoint], pendingScriptBytes);
        if fit {
          ReadyWhenFits(facts1[outpoint], facts[outpoint], value, pendingScriptBytes, limit);
          FoundReadyOne(old(facts), facts1, answers, i, facts[outpoint]);
        }
      }
      ConfirmedAppliedEvolves(old(facts), facts, answers, |answers|, pendingScriptBytes, limit);
      EvolvesMeasure(|active| + |queued|, |queued|, old(facts), facts);
    }

    // Afterwards: only facts changed, and found scripts were blocked only for want of room.
    lemma AnswersKept(before: SliceView, asked: Facts, wave: seq<OutPoint>, answers: Answers)
      requires Valid() && PrevoutAnswersOk(wave, answers, truth) && Answerable(asked, answers)
      requires CursorsMoved(before.active, active) && before.queued == queued && before.books == books
      requires AccountOk(origin, before.active, before.queued, before.books, before.deferred)
      requires NoneBlocked(before.facts) ==> NoneBlocked(asked)
      requires ConfirmedApplied(asked, facts, answers, |answers|, pendingScriptBytes, limits.maxPendingScriptBytes)
      ensures Kept(before, [])
    {
      hide HistoryOk, SliceOk, NoneBlocked, AccountOk, FitTogether, ConfirmedApplied, HasRoom, PrevoutAnswersOk,
           Answerable;
      RoomNow();
      if NoneBlocked(before.facts) && Fits() {
        ConfirmedNoneBlocked(
          asked, facts, wave, answers, pendingScriptBytes, truth, limits.maxPendingScriptBytes);
      }
      KeptFacts(before);
    }

    // --- waves -------------------------------------------------------------------

    /** One turn of the rotation: the front candidate moves to the back and offers
        the first eligible fact at or after its cursor, which moves just behind it.
        The turn is recorded. */
    method VisitNext(p: (OutPoint, FactState) -> bool, ghost kind: WaveKind)
      returns (key: Wtxid, pick: Option<OutPoint>, ghost made: Pick)
      requires Valid() && fairOrder != []
      requires kind.ParentWave? ==> forall o, state :: p(o, state) ==> state.AwaitingParent()
      modifies this`active, this`fairOrder, this`picks
      ensures Valid()
      ensures key == old(fairOrder)[0] && key in old(active) && key in active && fairOrder == old(fairOrder)[1..] + [key]
      ensures CursorsMoved(old(active), active)
      ensures pick.Some? ==>
                && pick.value in active[key].required && pick.value in facts
                && p(pick.value, facts[pick.value])
      ensures pick.None? ==> forall o :: o in active[key].required && o in facts ==> !p(o, facts[o])
      ensures pick.None? ==> active == old(active) && picks == old(picks)
      ensures pick.Some? ==>
                && made.key == key && made.outpoint == pick.value && made.kind == kind
                && IsTurnOf(made, old(active)[key], facts)
                && made.turn.eligible == EligibleIndices(old(active)[key].required, facts, p)
                && active == old(active)[key := Moved(old(active)[key], made.turn)]
                && picks == old(picks) + [made]
    {
      hide SliceOk, HistoryOk, AccountOk, IsTurnOf, RoundRobin.IsNext, EligibleIndices;
      key := fairOrder[0];
      FrontAt(queued, active, fairOrder, facts, deferredFacts, rawOutputs, pendingScriptBytes, nulls, variants, limits, truth);
      var moved;
      pick, moved := NextCandidateFact(active[key], facts, p);
      NothingEligible(active[key].required, facts, p);
      TurnedOk(
        queued, active, fairOrder, facts, deferredFacts, rawOutputs, pendingScriptBytes, nulls, variants, limits, truth, moved);
      AccountMoved(origin, active, active[key := moved], queued, books, deferredFacts);
      fairOrder := fairOrder[1..] + [key];
      if pick.Some? {
        made := NextTurn(key, active[key], facts, p, kind, pick.value, moved);
        HistoryPick(active, queued, facts, picks, made);
        picks := picks + [made];
      } else {
        made := Pick(key, NULL_OUTPOINT, kind, RoundRobin.Turn(0, {}, 0), {});
        assert active[key := moved] == active;
      }
      active := active[key := moved];
    }

    /** Selects the outpoints to ask gettxout for: one eligible fact per candidate
        per round of the rotation, as many as the pending budget can take, and at
        least one while any budget is left. `owners` names the candidate each
        selection was made for. */
    method NextConfirmedWave() returns (selected: seq<OutPoint>, ghost owners: seq<Wtxid>, ghost turns: nat)
      requires Valid()
      modifies this`active, this`fairOrder, this`facts, this`picks
      ensures Valid()
      ensures CursorsMoved(old(active), active)
      ensures ConfirmedPicks(old(picks), picks, old(facts), old(active), selected, owners)
      ensures WaveOk(old(facts), old(active), selected, owners)
      ensures |selected| <= WaveSize(limits, pendingScriptBytes)
      ensures || |selected| == WaveSize(limits, pendingScriptBytes)
              || forall o :: o in old(facts) && old(facts)[o].ConfirmedEligible() ==> o in selected
      ensures facts == AttemptAll(old(facts), Elements(selected))
      ensures Work().AtMost(old(Work())) && (selected != [] ==> Work().Below(old(Work())))
      ensures Fair(old(facts), old(active), selected, owners)
      ensures turns <= |old(fairOrder)| && fairOrder == Rotate(old(fairOrder), turns)
      ensures 0 < |selected| == WaveSize(limits, pendingScriptBytes) ==>
                |owners| > 0 && turns > 0 && old(fairOrder)[turns - 1] == owners[|owners| - 1]
    {
      hide Covered, CandidatesOk, QueueOk, Windowed, FactsOk, AllOutputsTrue, Members, Sum, CandidateOk, WaveOk,
           RoundOk, Exhausted, Fair, AttemptAll, CursorsMoved, Rotate, NoDuplicates, HistoryOk, AccountOk,
           ConfirmedPicks;
      ghost var facts0, active0, order, picks0 := facts, active, fairOrder, picks;
      selected, owners, turns := [], [], 0;
      var maximum := WaveSize(limits, pendingScriptBytes);
      ghost var r := 0;
      RoundStart(facts0, active0, order);
      WaveStart(facts0, active0, order);
      ConfirmedPicksNone(picks, facts0, active0);
      RotateFacts(order, active0);
      if maximum == 0 {
        RoundFair(facts0, active0, order, selected, owners, r, 0);
        ConfirmedWaveProgress(facts0, active0, active, |queued|, selected, owners);
        return;
      }
      while true
        invariant Valid() && CursorsMoved(active0, active)
        invariant WaveOk(facts0, active0, selected, owners) && |selected| < maximum
        invariant facts == AttemptAll(facts0, Elements(selected))
        invariant RoundOk(facts0, active0, order, selected, owners, r, 0)
        invariant ConfirmedPicks(picks0, picks, facts0, active0, selected, owners)
        invariant fairOrder == order
        decreases |facts0| - |selected|
      {
        ghost var already := |selected|;
        var addedThisRound;
        addedThisRound, selected, owners, turns := ConfirmedRound(
          facts0, active0, selected, owners, maximum, r, picks0);
        if |selected| >= maximum || !addedThisRound {
          if |selected| < maximum {
            AllSelected(facts0, active0, selected);
          }
          RoundFair(facts0, active0, order, selected, owners, r, turns);
          ConfirmedWaveProgress(facts0, active0, active, |queued|, selected, owners);
          return;
        }
        WaveBound(facts0, active0, selected, owners);
        RoundEnd(facts0, active0, order, selected, owners, r);
        r := r + 1;
      }
    }

    // One round of the confirmed wave: every candidate is visited once, or the wave is full.
    method ConfirmedRound(
      ghost facts0: Facts, ghost active0: Candidates, selected0: seq<OutPoint>, ghost owners0: seq<Wtxid>, maximum: nat,
      ghost r: nat, ghost picks0: seq<Pick>)
      returns (addedThisRound: bool, selected: seq<OutPoint>, ghost owners: seq<Wtxid>, ghost turns: nat)
      requires Valid() && CursorsMoved(active0, active) && Covered(active0, facts0) && Ordered(active0, fairOrder)
      requires WaveOk(facts0, active0, selected0, owners0) && |selected0| < maximum
      requires facts == AttemptAll(facts0, Elements(selected0))
      requires RoundOk(facts0, active0, fairOrder, selected0, owners0, r, 0)
      requires ConfirmedPicks(picks0, picks, facts0, active0, selected0, owners0)
      modifies this`active, this`fairOrder, this`facts, this`picks
      ensures Valid() && CursorsMoved(active0, active)
      ensures WaveOk(facts0, active0, selected, owners) && |selected0| <= |selected| <= maximum
      ensures facts == AttemptAll(facts0, Elements(selected))
      ensures forall k :: k in old(fairOrder) ==> k in active0
      ensures RoundOk(facts0, active0, old(fairOrder), selected, owners, r, turns)
      ensures ConfirmedPicks(picks0, picks, facts0, active0, selected, owners)
      ensures turns <= |old(fairOrder)| && fairOrder == Rotate(old(fairOrder), turns)
      ensures |selected| == maximum ==>
                |owners| > 0 && turns > 0 && old(fairOrder)[turns - 1] == owners[|owners| - 1]
      ensures |selected| < maximum ==> turns == |old(fairOrder)| && fairOrder == old(fairOrder)
      ensures addedThisRound <==> |selected0| < |selected|
      ensures !addedThisRound ==> forall k :: k in active0 ==> Exhausted(facts0, active0[k].required, selected)
    {
      hide Covered, CandidatesOk, QueueOk, Windowed, FactsOk, AllOutputsTrue, Members, Sum, CandidateOk, WaveOk,
           RoundOk, Exhausted, AttemptAll, CursorsMoved, Rotate, NoDuplicates, HistoryOk, AccountOk, ConfirmedPicks,
           ConfirmedPick;
      ghost var order := fairOrder;
      selected, owners, turns := selected0, owners0, 0;
      addedThisRound := false;
      RotateFacts(order, active0);
      var candidateCount := |fairOrder|;
      for visit := 0 to candidateCount
        invariant Valid() && CursorsMoved(active0, active)
        invariant WaveOk(facts0, active0, selected, owners) && |selected0| <= |selected| < maximum
        invariant facts == AttemptAll(facts0, Elements(selected))
        invariant RoundOk(facts0, active0, order, selected, owners, r, visit)
        invariant ConfirmedPicks(picks0, picks, facts0, active0, selected, owners)
        invariant fairOrder == Rotate(order, visit)
        invariant addedThisRound <==> |selected0| < |selected|
        invariant !addedThisRound ==>
                    forall j :: 0 <= j < visit ==> Exhausted(facts0, active0[order[j]].required, selected)
      {
        RotateStep(order, visit);
        ghost var picks1 := picks;
        var picked;
        ghost var pick;
        picked, pick := VisitConfirmed(facts0, active0, selected);
        if picked.Some? {
          ConfirmedPicksMore(picks0, picks1, facts0, active0, selected, owners, pick, picked.value, order[visit]);
          RoundPick(facts0, active0, order, selected, owners, r, visit, picked.value);
          WaveMore(facts0, active0, selected, owners, picked.value, order[visit]);
          selected, owners := selected + [picked.value], owners + [order[visit]];
          addedThisRound := true;
          if |selected| >= maximum {
            WaveOwners(facts0, active0, selected, owners);
            turns := visit + 1;
            return;
          }
        } else {
          RoundSkip(facts0, active0, order, selected, owners, r, visit);
        }
      }
      turns := candidateCount;
    }

    // Visits one candidate for the confirmed wave and records the attempt.
    method VisitConfirmed(ghost facts0: Facts, ghost active0: Candidates, selected: seq<OutPoint>)
      returns (picked: Option<OutPoint>, ghost pick: Pick)
      requires Valid() && fairOrder != [] && CursorsMoved(active0, active) && Covered(active0, facts0)
      requires facts == AttemptAll(facts0, Elements(selected))
      modifies this`active, this`fairOrder, this`facts, this`picks
      ensures Valid() && CursorsMoved(active0, active)
      ensures fairOrder == old(fairOrder)[1..] + [old(fairOrder)[0]]
      ensures old(fairOrder)[0] in active0
      ensures picked.Some? ==>
                && picked.value in facts0 && facts0[picked.value].ConfirmedEligible() && picked.value !in selected
                && picked.value in active0[old(fairOrder)[0]].required
                && facts == AttemptAll(facts0, Elements(selected + [picked.value]))
                && picks == old(picks) + [pick]
                && ConfirmedPick(pick, facts0, active0, selected, picked.value, old(fairOrder)[0])
      ensures picked.None? ==>
                && facts == AttemptAll(facts0, Elements(selected)) && picks == old(picks)
                && Exhausted(facts0, active0[old(fairOrder)[0]].required, selected)
    {
      hide Covered, CandidatesOk, QueueOk, Windowed, FactsOk, AllOutputsTrue, Members, Sum, CandidateOk, Ordered,
           HistoryOk, AccountOk, EligibleIndices, OpenConfirmed, RoundRobin.IsNext, IsTurnOf;
      var key;
      var p := (o: OutPoint, state: FactState) => state.ConfirmedEligible() && o !in selected;
      key, picked, pick := VisitNext(p, ConfirmedWave);
      if picked.Some? {
        OpenConfirmedNow(active0[key].required, facts0, selected, p);
        AttemptOne(facts0, selected, picked.value);
        ReplaceFacts(facts[picked.value := facts[picked.value].Attempted()]);
      }
    }

    // --- raw parent waves ----------------------------------------------------------

    /** Selects the mempool parents to fetch: distinct members of the membership
        with an eligible fact, within the wave and response limits, and at least
        one while any budget is left. Every fact of a selected parent records an
        attempt. */
    method NextParentWave() returns (selected: seq<ExpectedVariant>)
      requires Valid()
      modifies this`active, this`fairOrder, this`facts, this`picks
      ensures Valid()
      ensures CursorsMoved(old(active), active)
      ensures ParentPicks(
                old(picks), picks, old(facts), old(active), variants, selected, limits.maxParentTransactionsPerWave)
      ensures ParentWaveOk(old(facts), variants, selected)
      ensures |selected| <= limits.maxParentTransactionsPerWave
      ensures |selected| <= 1 || RawBytes(selected) <= MAX_RAW_RESPONSE_BYTES_PER_SLICE
      ensures facts == AttemptParents(old(facts), Txids(selected))
      ensures Work().AtMost(old(Work())) && (selected != [] ==> Work().Below(old(Work())))
      ensures selected == [] ==> !HasPendingScriptCapacity() || forall o :: o in facts ==> !facts[o].ParentEligible()
      ensures HasPendingScriptCapacity() && |selected| < limits.maxParentTransactionsPerWave ==>
                forall k :: k in old(active) ==> NoneFits(old(facts), old(active)[k].required, variants, selected)
      ensures HasPendingScriptCapacity() ==>
                (ParentsFit(old(facts), variants, limits.maxParentTransactionsPerWave)
                 <==> AllAsked(old(facts), Txids(selected)))
    {
      hide Covered, CandidatesOk, QueueOk, Windowed, FactsOk, AllOutputsTrue, Members, Sum, CandidateOk, ParentWaveOk,
           AttemptParents, CursorsMoved, NoDuplicates, NoneSpent, HistoryOk, AccountOk, ParentPick;
      ghost var facts0, active0, picks0 := facts, active, picks;
      selected := [];
      ParentWaveStart(facts0, active0, variants);
      if !HasPendingScriptCapacity() {
        ParentWaveProgress(facts0, active0, active, |queued|, variants, selected);
        return;
      }
      while true
        invariant Valid() && CursorsMoved(active0, active)
        invariant ParentWaveOk(facts0, variants, selected)
        invariant Ordered(active0, fairOrder) && |selected| < limits.maxParentTransactionsPerWave
        invariant |picks0| <= |picks|
        invariant ParentPicks(
                    picks0, picks, facts0, active0, variants, selected, limits.maxParentTransactionsPerWave)
        invariant |selected| <= 1 || RawBytes(selected) <= MAX_RAW_RESPONSE_BYTES_PER_SLICE
        invariant facts == AttemptParents(facts0, Txids(selected))
        decreases limits.maxParentTransactionsPerWave - |selected|
      {
        var addedThisRound;
        addedThisRound, selected := ParentRound(facts0, active0, selected, picks0);
        if |selected| >= limits.maxParentTransactionsPerWave {
          WaveFits(facts0, selected);
          ParentWaveProgress(facts0, active0, active, |queued|, variants, selected);
          return;
        }
        if !addedThisRound {
          NoneFitsMaximal(facts0, active0, variants, selected);
          WaveFits(facts0, selected);
          ParentWaveProgress(facts0, active0, active, |queued|, variants, selected);
          return;
        }
      }
    }

    // The wave asked for every parent exactly when they fit.
    lemma WaveFits(facts0: Facts, selected: seq<ExpectedVariant>)
      requires FactsOk(facts0, deferredFacts, nulls, variants, truth) && ParentWaveOk(facts0, variants, selected)
      requires |selected| <= limits.maxParentTransactionsPerWave
      requires |selected| <= 1 || RawBytes(selected) <= MAX_RAW_RESPONSE_BYTES_PER_SLICE
      requires |selected| < limits.maxParentTransactionsPerWave ==> Maximal(facts0, variants, selected)
      ensures ParentsFit(facts0, variants, limits.maxParentTransactionsPerWave) <==> AllAsked(facts0, Txids(selected))
      ensures Maximal(facts0, variants, selected) && selected == [] ==> forall o :: o in facts0 ==> !facts0[o].ParentEligible()
    {
      hide Txids, RawBytes, ParentsFit, ParentWaveOk;
      forall o | o in facts0 && facts0[o].ParentEligible() ensures o.txid in variants {
        FactAt(facts0, o, deferredFacts, nulls, variants, truth);
      }
      FitExactly(facts0, variants, selected, limits.maxParentTransactionsPerWave);
      if selected == [] && AllAsked(facts0, Txids(selected)) {
        NoneAsked(facts0);
      }
    }

    // One round of the parent wave: every candidate is visited once, or the wave is full.
    method ParentRound(
      ghost facts0: Facts, ghost active0: Candidates, selected0: seq<ExpectedVariant>, ghost picks0: seq<Pick>)
      returns (addedThisRound: bool, selected: seq<ExpectedVariant>)
      requires Valid() && CursorsMoved(active0, active) && Covered(active0, facts0) && Ordered(active0, fairOrder)
      requires ParentWaveOk(facts0, variants, selected0) && |selected0| < limits.maxParentTransactionsPerWave
      requires |selected0| <= 1 || RawBytes(selected0) <= MAX_RAW_RESPONSE_BYTES_PER_SLICE
      requires facts == AttemptParents(facts0, Txids(selected0))
      requires |picks0| <= |picks|
      requires ParentPicks(picks0, picks, facts0, active0, variants, selected0, limits.maxParentTransactionsPerWave)
      modifies this`active, this`fairOrder, this`facts, this`picks
      ensures Valid() && CursorsMoved(active0, active) && Ordered(active0, fairOrder)
      ensures ParentWaveOk(facts0, variants, selected) && |picks0| <= |picks|
      ensures ParentPicks(picks0, picks, facts0, active0, variants, selected, limits.maxParentTransactionsPerWave)
      ensures |selected0| <= |selected| <= limits.maxParentTransactionsPerWave
      ensures |selected| <= 1 || RawBytes(selected) <= MAX_RAW_RESPONSE_BYTES_PER_SLICE
      ensures facts == AttemptParents(facts0, Txids(selected))
      ensures addedThisRound <==> |selected0| < |selected|
      ensures !addedThisRound ==> forall k :: k in active0 ==> NoneFits(facts0, active0[k].required, variants, selected)
    {
      hide Covered, CandidatesOk, QueueOk, Windowed, FactsOk, AllOutputsTrue, Members, Sum, CandidateOk, ParentWaveOk,
           AttemptParents, CursorsMoved, Rotate, NoDuplicates, RawBytes, Txids, Ordered, HistoryOk, AccountOk,
           ParentPicks, NoneFits;
      ghost var order := fairOrder;
      selected := selected0;
      addedThisRound := false;
      RotateFacts(order, active0);
      var candidateCount := |fairOrder|;
      for visit := 0 to candidateCount
        invariant Valid() && CursorsMoved(active0, active)
        invariant ParentWaveOk(facts0, variants, selected) && |picks0| <= |picks|
        invariant ParentPicks(
                    picks0, picks, facts0, active0, variants, selected, limits.maxParentTransactionsPerWave)
        invariant |selected0| <= |selected| < limits.maxParentTransactionsPerWave
        invariant addedThisRound <==> |selected0| < |selected|
        invariant |selected| <= 1 || RawBytes(selected) <= MAX_RAW_RESPONSE_BYTES_PER_SLICE
        invariant facts == AttemptParents(facts0, Txids(selected))
        invariant fairOrder == Rotate(order, visit)
        invariant !addedThisRound ==>
                    forall j :: 0 <= j < visit ==> NoneFits(facts0, active0[order[j]].required, variants, selected)
      {
        RotateStep(order, visit);
        var added;
        added, selected := OfferParent(facts0, active0, selected, picks0);
        addedThisRound := addedThisRound || added;
        if added && |selected| >= limits.maxParentTransactionsPerWave {
          RotateOrder(active0, order, visit + 1);
          return;
        }
      }
      RotateOrder(active0, order, candidateCount);
    }

    // Visits one candidate, and selects the parent it offers if that fits beside the others.
    method OfferParent(
      ghost facts0: Facts, ghost active0: Candidates, selected0: seq<ExpectedVariant>, ghost picks0: seq<Pick>)
      returns (added: bool, selected: seq<ExpectedVariant>)
      requires Valid() && fairOrder != [] && CursorsMoved(active0, active) && Covered(active0, facts0)
      requires ParentWaveOk(facts0, variants, selected0) && |selected0| < limits.maxParentTransactionsPerWave
      requires |selected0| <= 1 || RawBytes(selected0) <= MAX_RAW_RESPONSE_BYTES_PER_SLICE
      requires facts == AttemptParents(facts0, Txids(selected0))
      requires |picks0| <= |picks|
      requires ParentPicks(picks0, picks, facts0, active0, variants, selected0, limits.maxParentTransactionsPerWave)
      modifies this`active, this`fairOrder, this`facts, this`picks
      ensures Valid() && CursorsMoved(active0, active) && old(fairOrder)[0] in active0
      ensures fairOrder == old(fairOrder)[1..] + [old(fairOrder)[0]]
      ensures ParentWaveOk(facts0, variants, selected) && |picks0| <= |picks|
      ensures ParentPicks(picks0, picks, facts0, active0, variants, selected, limits.maxParentTransactionsPerWave)
      ensures |selected| <= 1 || RawBytes(selected) <= MAX_RAW_RESPONSE_BYTES_PER_SLICE
      ensures facts == AttemptParents(facts0, Txids(selected))
      ensures |selected| == |selected0| + (if added then 1 else 0)
      ensures !added ==> selected == selected0 && NoneFits(facts0, active0[old(fairOrder)[0]].required, variants, selected)
    {
      hide Covered, CandidatesOk, QueueOk, Windowed, FactsOk, AllOutputsTrue, Members, Sum, CandidateOk, ParentWaveOk,
           AttemptParents, CursorsMoved, NoDuplicates, RawBytes, Txids, Ordered, HistoryOk, AccountOk, ParentPicks,
           ParentPick, OpenParents, NoneFits, OffersOpen, TooLarge;
      added, selected := false, selected0;
      ghost var picks1, key := picks, fairOrder[0];
      var picked;
      ghost var pick;
      picked, pick := VisitParent(facts0, active0, selected);
      NothingOffered(facts0, active0[key].required, variants, selected);
      if picked.None? {
        return;
      }
      var txid := picked.value;
      var expected := ExpectedVariant(txid, variants[txid].wtxid, variants[txid].vsize);
      if selected != [] && RawBytes(selected) + EstimatedRawResponseBytes(expected) > MAX_RAW_RESPONSE_BYTES_PER_SLICE {
        IsTooLarge(txid, selected, variants);
        OffersTooLarge(pick, active0[key].required, facts0, variants, selected);
        ParentTurnedDown(
          picks0, picks1, facts0, active0, variants, selected, limits.maxParentTransactionsPerWave, pick);
        return;
      }
      ParentWaveMore(facts0, variants, selected, expected);
      ParentSelected(picks0, picks1, facts0, active0, variants, selected, limits.maxParentTransactionsPerWave, pick);
      RecordParentAttempt(txid);
      added, selected := true, selected + [expected];
    }

    // Visits one candidate for the parent wave.
    method VisitParent(ghost facts0: Facts, ghost active0: Candidates, selected: seq<ExpectedVariant>)
      returns (picked: Option<Txid>, ghost pick: Pick)
      requires Valid() && fairOrder != [] && CursorsMoved(active0, active) && Covered(active0, facts0)
      requires facts == AttemptParents(facts0, Txids(selected))
      modifies this`active, this`fairOrder, this`picks
      ensures Valid() && CursorsMoved(active0, active)
      ensures fairOrder == old(fairOrder)[1..] + [old(fairOrder)[0]]
      ensures old(fairOrder)[0] in active0
      ensures picked.Some? ==>
                && picked.value !in Txids(selected) && picked.value in variants
                && (exists o :: o in facts0 && facts0[o].ParentEligible() && o.txid == picked.value)
                && picks == old(picks) + [pick] && pick.key == old(fairOrder)[0] && pick.outpoint.txid == picked.value
                && ParentPick(pick, facts0, active0, variants, selected)
                && OffersOpen(pick, active0[pick.key].required, facts0, selected)
      ensures picked.None? ==>
                && picks == old(picks)
                && OpenParents(active0[old(fairOrder)[0]].required, facts0, Txids(selected)) == {}
    {
      hide Covered, CandidatesOk, QueueOk, Windowed, FactsOk, AllOutputsTrue, Members, Sum, CandidateOk, Ordered,
           HistoryOk, AccountOk, EligibleIndices, OpenParents, RoundRobin.IsNext, IsTurnOf;
      var selectedTxids := Txids(selected);
      var key, found;
      var p := (o: OutPoint, state: FactState) => state.ParentEligible() && o.txid !in selectedTxids;
      assert forall o, state :: p(o, state) ==> state.ParentEligible() && state.AwaitingParent();
      key, found, pick := VisitNext(p, ParentWave);
      OpenParentsNow(active0[key].required, facts0, selectedTxids, p);
      if found.None? {
        picked := None;
        NoneOpen(active0[key].required, facts, p);
        return;
      }
      TurnOffers(pick, old(active)[key], facts);
      FactAt(facts, found.value, deferredFacts, nulls, variants, truth);
      picked := Some(found.value.txid);
    }

    method RecordParentAttempt(parent: Txid)
      requires Valid()
      modifies this`facts
      ensures Valid()
      ensures facts == AttemptParents(old(facts), {parent})
    {
      hide HistoryOk, AccountOk, Covered, Ordered, CandidatesOk, QueueOk, Windowed, FactsOk, AllOutputsTrue, Members,
           Sum;
      ReplaceFacts(AttemptParents(facts, {parent}));
    }

    // --- fairness among a candidate's facts ------------------------------------------

    /** Whatever waves a slice has been through, a candidate's turns are fair to its
        facts: none is taken again before every other one that was eligible at each
        turn in between; and from a turn on at which none of its facts awaited a
        parent, none before every other one that gettxout could be asked for. */
    lemma PicksFair(key: Wtxid, a: nat, b: nat, k: nat) returns (t: nat)
      requires Valid() && key in active && a < b < |PicksOf(picks, key)| && k < |active[key].required|
      requires var own := PicksOf(picks, key);
               && own[a].outpoint == own[b].outpoint != active[key].required[k]
               && forall u :: a < u <= b && (own[u].kind.ConfirmedWave? || own[a].awaiting != {}) ==>
                    k in own[u].turn.eligible
      ensures a < t < b && PicksOf(picks, key)[t].outpoint == active[key].required[k]
    {
      hide PicksOf, OwnRun, ParentsRun;
      CandidateAt(active, key);
      var own := PicksOf(picks, key);
      if own[a].awaiting == {} {
        t := OpenFactFirst(active[key], facts, own, a, b, k);
      } else {
        t := NoRepeatBeforeOthers(active[key], own, a, b, k);
      }
    }

    // --- capacity pressure ---------------------------------------------------------

    /** With the budget exhausted, one fact that still awaits an answer waits for
        capacity instead: the first of the first candidate in the rotation that
        has one. */
    method DeferOneCapacityBlockedFact() returns (deferred: bool, ghost turn: nat, ghost position: nat)
      requires Valid()
      modifies this`facts
      ensures Valid()
      ensures deferred <==> exists o :: o in old(facts) && old(facts)[o].Awaiting?
      ensures Work().AtMost(old(Work())) && (NoneSpent(old(facts)) ==> NoneSpent(facts))
      ensures deferred ==> Work().Below(old(Work()))
      ensures !deferred ==> facts == old(facts)
      ensures deferred ==>
                exists o :: o in old(facts) && old(facts)[o].Awaiting?
                            && facts == old(facts)[o := CapacityBlocked(old(facts)[o].source)]
      ensures deferred ==>
                && IsFirstAwaiting(active, old(facts), fairOrder, turn, position)
                && var o := active[fairOrder[turn]].required[position];
                   facts == old(facts)[o := CapacityBlocked(old(facts)[o].source)]
      ensures !old(HasPendingScriptCapacity()) ==> Kept(old(View()), [])
    {
      hide HistoryOk, AccountOk, SliceOk, Booked, NoneBlocked, FitTogether;
      NoRoomLeft();
      KeptFacts(View());
      var found := FirstAwaiting();
      if found.None? {
        return false, 0, 0;
      }
      var o := active[fairOrder[found.value.0]].required[found.value.1];
      EvolvesStrictly(facts, facts[o := CapacityBlocked(facts[o].source)], o);
      MarkCapacityBlocked(o);
      if !old(HasPendingScriptCapacity()) {
        KeptFacts(old(View()));
      }
      return true, found.value.0, found.value.1;
    }

    // Where everything fits, an exhausted budget leaves nothing to wait for.
    lemma NoRoomLeft()
      requires Valid()
      ensures Fits() && !HasPendingScriptCapacity() ==> forall o :: o in facts ==> !facts[o].Awaiting?
    {
      hide HistoryOk, AccountOk, SliceOk, FitTogether;
      RoomNow();
    }

    method FirstAwaiting() returns (found: Option<(nat, nat)>)
      requires Valid()
      ensures found.None? ==> forall o :: o in facts ==> !facts[o].Awaiting?
      ensures found.Some? ==> IsFirstAwaiting(active, facts, fairOrder, found.value.0, found.value.1)
    {
      hide HistoryOk, AccountOk, CandidatesOk, QueueOk, Windowed, FactsOk, AllOutputsTrue, Members, Sum;
      for i := 0 to |fairOrder|
        invariant forall j :: 0 <= j < i ==> fairOrder[j] in active && !NeedsAwaiting(active[fairOrder[j]], facts)
      {
        assert fairOrder[i] in fairOrder;
        var required := active[fairOrder[i]].required;
        for p := 0 to |required|
          invariant forall q :: 0 <= q < p ==> required[q] in facts && !facts[required[q]].Awaiting?
        {
          assert required[p] in required;
          if facts[required[p]].Awaiting? {
            return Some((i, p));
          }
        }
      }
      forall o | o in facts ensures !facts[o].Awaiting? {
        var k :| k in active && o in active[k].required;
        var j :| 0 <= j < |fairOrder| && fairOrder[j] == k;
        assert !NeedsAwaiting(active[fairOrder[j]], facts);
      }
      return None;
    }

    predicate HasTransientCapacityBlockedFact(outputs: map<Txid, CachedOutputs>, confirmed: map<OutPoint, Script>)
      reads this
    {
      exists o :: o in facts && TransientUsable(o, facts[o], rawOutputs, outputs, confirmed)
    }

    // How many active candidates require each outpoint.
    method CountReferences() returns (counts: map<OutPoint, nat>)
      requires CandidatesOk(active)
      ensures forall o :: CountOf(counts, o) == ReferenceCount(active, o)
    {
      hide HistoryOk, AccountOk, ReferenceCount, CountsAre, CountOf, CandidateOk;
      counts := map[];
      var todo := active.Keys;
      CountNothing(active);
      assert active.Keys - todo == {};
      while todo != {}
        invariant todo <= active.Keys && CountsAre(active, active.Keys - todo, counts)
        decreases todo
      {
        var key :| key in todo;
        CandidateAt(active, key);
        ghost var before := counts;
        counts := AddReferences(counts, active[key].required);
        CountMore(active, active.Keys - todo, key, before, counts);
        assert active.Keys - (todo - {key}) == (active.Keys - todo) + {key};
        todo := todo - {key};
      }
      assert active.Keys - {} == active.Keys;
      CountDone(active, counts);
    }

    static method AddReferences(counts: map<OutPoint, nat>, required: seq<OutPoint>) returns (more: map<OutPoint, nat>)
      requires NoDuplicates(required)
      ensures forall o :: CountOf(more, o)
                          == CountOf(counts, o) + (if o in required then 1 else 0)
    {
      more := counts;
      for i := 0 to |required|
        invariant forall o :: CountOf(more, o)
                              == CountOf(counts, o) + (if o in required[..i] then 1 else 0)
      {
        assert required[..i + 1] == required[..i] + [required[i]];
        assert required[i] !in required[..i];
        more := more[required[i] := CountOf(more, required[i]) + 1];
      }
      assert required[..|required|] == required;
    }

    method MeasureFreed(key: Wtxid, counts: map<OutPoint, nat>) returns (freed: nat)
      requires Valid() && key in active
      requires forall o :: CountOf(counts, o) == ReferenceCount(active, o)
      ensures freed == FreedBytes(active, facts, key)
    {
      hide HistoryOk, AccountOk, Covered, Ordered, QueueOk, Windowed, FactsOk, AllOutputsTrue, Members, Sum,
           ReferenceCount, CandidateOk;
      freed := 0;
      CandidateAt(active, key);
      var required := active[key].required;
      assert ExclusivePrefix(active, facts, key, 0) == map[];
      SumEmpty(ExclusivePrefix(active, facts, key, 0), ReadyBytes);
      for i := 0 to |required|
        invariant freed == Sum(ExclusivePrefix(active, facts, key, i), ReadyBytes)
      {
        ExclusiveStep(active, facts, key, i);
        var o := required[i];
        if o in facts && facts[o].Ready? && o in counts && counts[o] == 1 {
          freed := freed + EstimatedScriptBytes(facts[o].script);
        }
      }
      assert ExclusivePrefix(active, facts, key, |required|) == Exclusive(active, facts, key) by {
        assert required[..|required|] == required;
      }
    }

    // The blocked candidate that frees the most bytes, the first such in the rotation.
    method SelectVictim() returns (victim: Option<nat>)
      requires Valid()
      ensures forall k :: k in fairOrder ==> k in active
      ensures victim.None? ==> forall o :: o in facts ==> !facts[o].CapacityBlocked?
      ensures victim.Some? ==>
                victim.value < |fairOrder| && IsVictim(active, facts, fairOrder, |fairOrder|, victim.value)
    {
      hide HistoryOk, AccountOk, CandidatesOk, QueueOk, Windowed, FactsOk, AllOutputsTrue, Members, Sum, FreedBytes,
           NoDuplicates;
      victim := None;
      var counts := CountReferences();
      var mostFreed := 0;
      for i := 0 to |fairOrder|
        invariant victim.None? ==>
                    forall j :: 0 <= j < i ==> fairOrder[j] in active && !Blocked(active[fairOrder[j]], facts)
        invariant victim.Some? ==>
                    && IsVictim(active, facts, fairOrder, i, victim.value)
                    && mostFreed == FreedBytes(active, facts, fairOrder[victim.value])
      {
        var key := fairOrder[i];
        assert key in fairOrder;
        if Blocked(active[key], facts) {
          var freed := MeasureFreed(key, counts);
          if victim.None? || freed > mostFreed {
            victim, mostFreed := Some(i), freed;
          }
        }
      }
      if victim.None? {
        NothingBlocked();
      }
    }

    /** Removes the blocked candidate whose removal frees the most bytes, and
        exactly those bytes. */
    method DeferCapacityBlockedCandidate() returns (deferred: nat, ghost victim: nat)
      requires Valid()
      modifies this`active, this`fairOrder, this`facts, this`pendingScriptBytes, this`books
      ensures Valid()
      ensures deferred <= 1 && Work().AtMost(old(Work())) && (NoneSpent(old(facts)) ==> NoneSpent(facts))
      ensures Quieted(old(facts)) ==> Quieted(facts)
      ensures forall k :: k in old(fairOrder) ==> k in old(active)
      ensures deferred == 0 ==>
                && active == old(active) && facts == old(facts) && books == old(books)
                && fairOrder == old(fairOrder) && pendingScriptBytes == old(pendingScriptBytes)
                && forall o :: o in facts ==> !facts[o].CapacityBlocked?
      ensures deferred == 1 ==>
                && IsVictim(old(active), old(facts), old(fairOrder), |old(fairOrder)|, victim)
                && var key := old(fairOrder)[victim];
                   && active == old(active) - {key}
                   && books == old(books).(victims := old(books).victims + {key})
                   && facts == Restrict(old(facts), active)
                   && pendingScriptBytes + FreedBytes(old(active), old(facts), key) == old(pendingScriptBytes)
                   && Work().candidates < old(Work().candidates)
      ensures Kept(old(View()), [])
    {
      hide HistoryOk, AccountOk, CandidatesOk, QueueOk, Windowed, FactsOk, AllOutputsTrue, Members, Sum, NoDuplicates,
           Restrict, IsVictim, NoneSpent, Covered, Ordered, Booked, NoneBlocked;
      var selected := SelectVictim();
      if selected.None? {
        LeftBooked(View());
        return 0, 0;
      }
      VictimBlocked(active, facts, fairOrder, |fairOrder|, selected.value);
      var key := fairOrder[selected.value];
      victim := selected.value;
      RemoveFrees(active, facts, key);
      AccountVictim(origin, active, queued, books, deferredFacts, key);
      RemoveCandidates({key}, books.(victims := books.victims + {key}));
      deferred := 1;
      LeftBooked(old(View()));
    }

    lemma NothingBlocked()
      requires Covered(active, facts) && Ordered(active, fairOrder)
      requires forall j :: 0 <= j < |fairOrder| ==> !Blocked(active[fairOrder[j]], facts)
      ensures forall o :: o in facts ==> !facts[o].CapacityBlocked?
    {
      forall o | o in facts ensures !facts[o].CapacityBlocked? {
        var k :| k in active && o in active[k].required;
        var j :| 0 <= j < |fairOrder| && fairOrder[j] == k;
        assert !Blocked(active[fairOrder[j]], facts);
      }
    }

    // No wave can make progress: nothing awaits an answer, or the budget is exhausted.
    ghost predicate WavesDry()
      reads this
    {
      HasPendingScriptCapacity() ==> forall o :: o in facts ==> !facts[o].Awaiting?
    }

    /** With the budget exhausted, frees one awaiting fact; then gives up exactly the
        candidates that need an exhausted fact. */
    method GiveUpStuck()
      requires Valid()
      modifies this`active, this`fairOrder, this`facts, this`pendingScriptBytes, this`books
      ensures Valid()
      ensures forall k :: k in active ==> k in old(active) && active[k] == old(active)[k]
      ensures forall k :: k in old(active) ==> (k in active <==> !NeedsDeferred(old(active)[k], old(facts)))
      ensures books == old(books).(exhausted := old(books).exhausted + (old(active).Keys - active.Keys))
      ensures old(HasPendingScriptCapacity()) ==> facts == Restrict(old(facts), active)
      ensures Work().AtMost(old(Work())) && (NoneSpent(old(facts)) ==> NoneSpent(facts))
      ensures old(WavesDry()) ==> Work().Below(old(Work())) || (Quieted(facts) && active == old(active))
      ensures Kept(old(View()), [])
    {
      hide HistoryOk, AccountOk, SliceOk, Restrict, NoneSpent, Quieted, DoomedKeys, Retain, IsFirstAwaiting, Booked,
           NoneBlocked, FitTogether, Recorded, Roomy;
      LeftBooked(View());
      if !HasPendingScriptCapacity() {
        var blocked;
        ghost var turn, position;
        blocked, turn, position := DeferOneCapacityBlockedFact();
      }
      ghost var middle := View();
      ghost var facts1, active1 := facts, active;
      DoomedSame(active1, old(facts), facts1);
      var deferred := DeferExhaustedCandidates();
      NothingDoomed(active1, facts1, deferred);
      BookedMore(origin, old(View()), middle, View(), [], [], [], truth, limits.maxPendingScriptBytes);
    }

    // A fact that awaits an answer and is blocked instead dooms no candidate.
    lemma DoomedSame(candidates: Candidates, facts0: Facts, facts1: Facts)
      requires || facts1 == facts0
               || exists o :: o in facts0 && facts0[o].Awaiting? && facts1 == facts0[o := CapacityBlocked(facts0[o].source)]
      ensures var left := candidates - DoomedKeys(candidates, facts1);
              && candidates.Keys - left.Keys == DoomedKeys(candidates, facts1)
              && (forall k :: k in left ==> k in candidates && left[k] == candidates[k])
              && (forall k :: k in candidates ==> (k in left <==> !NeedsDeferred(candidates[k], facts0)))
    {
    }

    lemma NothingDoomed(active1: Candidates, facts1: Facts, deferred: nat)
      requires Valid() && deferred == |DoomedKeys(active1, facts1)|
      requires deferred == 0 ==> facts == facts1 && active == active1
      ensures deferred == 0 && (forall o :: o in facts1 ==> !facts1[o].Awaiting?) ==> Quieted(facts)
    {
      hide HistoryOk, AccountOk, Doomed, DoomedKeys, Quieted;
      if deferred == 0 && (forall o :: o in facts1 ==> !facts1[o].Awaiting?) {
        NoneDoomed(active1, facts1);
        NoneDoomedQuieted(active1, facts1);
      }
    }
  }
}
