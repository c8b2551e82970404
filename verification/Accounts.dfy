/** What becomes of the transactions a slice was opened with: each is held, has its
    verdict, was given up because a fact is exhausted, or was a victim of the byte
    limit. */
module Accounts {
  import opened Base
  import opened FactTable
  import opened SliceSteps

  type Table = map<Wtxid, Classified>

  // The records in order, later ones overriding.
  function InsertAll(table: Table, changed: seq<Classified>): Table {
    if changed == [] then table
    else
      var last := changed[|changed| - 1];
      InsertAll(table, changed[..|changed| - 1])[last.expected.wtxid := last]
  }

  lemma {:induction false} InsertAllAppend(table: Table, changed: seq<Classified>, c: Classified)
    ensures InsertAll(table, changed + [c]) == InsertAll(table, changed)[c.expected.wtxid := c]
  {
    assert (changed + [c])[..|changed|] == changed;
  }

  lemma {:induction false} InsertAllTwice(table: Table, a: seq<Classified>, b: seq<Classified>)
    ensures InsertAll(InsertAll(table, a), b) == InsertAll(table, a + b)
  {
    if b == [] {
      assert a + b == a;
    } else {
      InsertAllTwice(table, a, b[..|b| - 1]);
      assert (a + b)[..|a + b| - 1] == a + b[..|b| - 1];
    }
  }

  ghost function RecordKeys(records: seq<Classified>): set<Wtxid> {
    set c | c in records :: c.expected.wtxid
  }

  // Exactly the records' keys are new, and each has its last record.
  ghost predicate HoldsLast(table: Table, changed: seq<Classified>, after: Table) {
    && after.Keys == table.Keys + RecordKeys(changed)
    && (forall k :: k in RecordKeys(changed) ==> after[k] in changed && after[k].expected.wtxid == k)
    && (forall k :: k in table && k !in RecordKeys(changed) ==> after[k] == table[k])
  }

  lemma {:induction false} InsertedContents(table: Table, changed: seq<Classified>)
    ensures HoldsLast(table, changed, InsertAll(table, changed))
  {
    if changed != [] {
      hide HoldsLast, RecordKeys;
      var front, last := changed[..|changed| - 1], changed[|changed| - 1];
      assert changed == front + [last];
      InsertedContents(table, front);
      InsertedLast(table, front, last, InsertAll(table, front));
    } else {
      assert RecordKeys(changed) == {};
    }
  }

  lemma InsertedLast(table: Table, front: seq<Classified>, last: Classified, before: Table)
    requires HoldsLast(table, front, before)
    ensures HoldsLast(table, front + [last], before[last.expected.wtxid := last])
  {
    KeysMore(front, last);
    hide RecordKeys;
    var after := before[last.expected.wtxid := last];
    assert after.Keys == before.Keys + {last.expected.wtxid};
    assert after.Keys == table.Keys + RecordKeys(front + [last]);
    forall k | k in RecordKeys(front + [last]) ensures after[k] in front + [last] && after[k].expected.wtxid == k {
      if k == last.expected.wtxid {
        assert after[k] == last;
      } else {
        assert after[k] == before[k] && before[k] in front;
      }
    }
  }

  lemma KeysMore(front: seq<Classified>, last: Classified)
    ensures RecordKeys(front + [last]) == RecordKeys(front) + {last.expected.wtxid}
  {
    assert last in front + [last];
  }

  // Each record is on a transaction of its own.
  ghost predicate OneEach(records: seq<Classified>) {
    forall i, j :: 0 <= i < j < |records| ==> records[i].expected.wtxid != records[j].expected.wtxid
  }

  lemma {:induction false} KeysAtMost(records: seq<Classified>)
    ensures |RecordKeys(records)| <= |records|
  {
    if records != [] {
      var front, last := records[..|records| - 1], records[|records| - 1];
      assert records == front + [last];
      KeysAtMost(front);
      KeysMore(front, last);
    }
  }

  // As many keys as records: no key is there twice.
  lemma KeysOnce(records: seq<Classified>)
    requires |RecordKeys(records)| == |records|
    ensures OneEach(records)
  {
    forall i, j | 0 <= i < j < |records| ensures records[i].expected.wtxid != records[j].expected.wtxid {
      if records[i].expected.wtxid == records[j].expected.wtxid {
        var others := records[..j] + records[j + 1..];
        KeysAtMost(others);
        forall c | c in records ensures c.expected.wtxid in RecordKeys(others) {
          var n :| 0 <= n < |records| && records[n] == c;
          assert others[if n < j then n else if n == j then i else n - 1].expected.wtxid == c.expected.wtxid;
        }
        assert RecordKeys(records) <= RecordKeys(others);
        SubsetSize(RecordKeys(records), RecordKeys(others));
        assert false;
      }
    }
  }

  // --- the books of a slice ------------------------------------------------------------

  // How the transactions that left a slice left it.
  datatype Books = Books(verdicts: Table, exhausted: set<Wtxid>, victims: set<Wtxid>)

  const NO_BOOKS: Books := Books(map[], {}, {})

  function OriginOf(transactions: seq<Prepared>): map<Wtxid, Prepared> {
    if transactions == [] then map[]
    else
      var last := transactions[|transactions| - 1];
      OriginOf(transactions[..|transactions| - 1])[last.expected.wtxid := last]
  }

  function QueuedKeys(queued: seq<Prepared>): set<Wtxid> {
    set p | p in queued :: p.expected.wtxid
  }

  // The transactions a slice still holds.
  function HeldKeys(active: Candidates, queued: seq<Prepared>): set<Wtxid> {
    active.Keys + QueuedKeys(queued)
  }

  // In exactly one of these places, and nowhere else.
  ghost predicate Apart(whole: set<Wtxid>, held: set<Wtxid>, verdicts: set<Wtxid>, exhausted: set<Wtxid>, victims: set<Wtxid>)
  {
    && whole == held + verdicts + exhausted + victims
    && held !! verdicts && held !! exhausted && held !! victims
    && verdicts !! exhausted && verdicts !! victims && exhausted !! victims
  }

  // The fact is exhausted, and this transaction needs it.
  ghost predicate NeedsExhausted(transaction: Transaction, deferred: set<OutPoint>) {
    exists o :: o in deferred && o in Needed(transaction)
  }

  // A fact this candidate needs has no attempt left.
  ghost predicate NeedsDeferred(candidate: Candidate, facts: Facts) {
    exists o :: o in candidate.required && o in facts && facts[o].OperationallyDeferred?
  }

  // What a kept fact says, it said before.
  lemma StillNeeded(active: Candidates, facts: Facts)
    ensures forall candidate :: NeedsDeferred(candidate, Restrict(facts, active)) ==> NeedsDeferred(candidate, facts)
  {
  }

  /** Every transaction the slice was opened with is accounted for: still held, as it
      was; with a verdict on it; given up, because it needs an exhausted fact; or a
      victim. */
  ghost predicate AccountOk(
    origin: map<Wtxid, Prepared>, active: Candidates, queued: seq<Prepared>, books: Books, deferred: set<OutPoint>)
  {
    && Apart(origin.Keys, HeldKeys(active, queued), books.verdicts.Keys, books.exhausted, books.victims)
    && FromOrigin(origin, active, queued, books.verdicts)
    && (forall k :: k in books.exhausted ==> k in origin && NeedsExhausted(origin[k].transaction, deferred))
  }

  // What is held and what has its verdict are transactions the slice was opened with.
  ghost predicate FromOrigin(origin: map<Wtxid, Prepared>, active: Candidates, queued: seq<Prepared>, verdicts: Table) {
    && (forall k :: k in active ==> k in origin && origin[k] == Prepared(active[k].expected, active[k].transaction))
    && (forall p :: p in queued ==> p.expected.wtxid in origin && origin[p.expected.wtxid] == p)
    && (forall k :: k in verdicts ==> k in origin && origin[k] == Prepared(verdicts[k].expected, verdicts[k].transaction))
  }

  lemma {:induction false} OriginContents(transactions: seq<Prepared>)
    requires forall i, j :: 0 <= i < j < |transactions| ==> transactions[i].expected.wtxid != transactions[j].expected.wtxid
    ensures OriginOf(transactions).Keys == QueuedKeys(transactions)
    ensures forall p :: p in transactions ==> OriginOf(transactions)[p.expected.wtxid] == p
  {
    if transactions != [] {
      var front, last := transactions[..|transactions| - 1], transactions[|transactions| - 1];
      assert transactions == front + [last];
      OriginContents(front);
      forall p | p in front ensures p.expected.wtxid != last.expected.wtxid {
        var i :| 0 <= i < |front| && front[i] == p;
        assert transactions[i] == p;
      }
      assert last in transactions;
    }
  }

  lemma AccountStart(transactions: seq<Prepared>)
    requires QueueOk(transactions, map[])
    ensures AccountOk(OriginOf(transactions), map[], transactions, NO_BOOKS, {})
  {
    OriginContents(transactions);
  }

  // A queued transaction becomes active.
  lemma AccountNext(
    origin: map<Wtxid, Prepared>, active: Candidates, queued: seq<Prepared>, books: Books, deferred: set<OutPoint>,
    candidate: Candidate)
    requires AccountOk(origin, active, queued, books, deferred) && queued != [] && QueueOk(queued, active)
    requires Prepared(candidate.expected, candidate.transaction) == queued[0]
    ensures AccountOk(origin, active[queued[0].expected.wtxid := candidate], queued[1..], books, deferred)
  {
    var key := queued[0].expected.wtxid;
    assert queued[0] in queued && queued == [queued[0]] + queued[1..];
    assert HeldKeys(active[key := candidate], queued[1..]) == HeldKeys(active, queued);
  }

  lemma AccountMoved(
    origin: map<Wtxid, Prepared>, before: Candidates, after: Candidates, queued: seq<Prepared>, books: Books,
    deferred: set<OutPoint>)
    requires AccountOk(origin, before, queued, books, deferred) && CursorsMoved(before, after)
    ensures AccountOk(origin, after, queued, books, deferred)
  {
    assert HeldKeys(after, queued) == HeldKeys(before, queued);
  }

  lemma AccountDeferred(
    origin: map<Wtxid, Prepared>, active: Candidates, queued: seq<Prepared>, books: Books, deferred: set<OutPoint>,
    more: set<OutPoint>)
    requires AccountOk(origin, active, queued, books, deferred) && deferred <= more
    ensures AccountOk(origin, active, queued, books, more)
  {
    forall k | k in books.exhausted ensures NeedsExhausted(origin[k].transaction, more) {
      var o :| o in deferred && o in Needed(origin[k].transaction);
      assert o in more;
    }
  }

  lemma LessHeld(active: Candidates, queued: seq<Prepared>, gone: set<Wtxid>)
    requires QueueOk(queued, active) && gone <= active.Keys
    ensures HeldKeys(active - gone, queued) == HeldKeys(active, queued) - gone
  {
    forall p | p in queued ensures p.expected.wtxid !in gone {
      var i :| 0 <= i < |queued| && queued[i] == p;
    }
  }

  // Candidates leave with their verdicts.
  lemma AccountClassified(
    origin: map<Wtxid, Prepared>, active: Candidates, queued: seq<Prepared>, books: Books, deferred: set<OutPoint>,
    classified: seq<Classified>, ready: set<Wtxid>, facts: Facts)
    requires AccountOk(origin, active, queued, books, deferred) && QueueOk(queued, active)
    requires CandidatesOk(active) && IsClassificationOf(classified, ready, active, facts)
    ensures var after := books.(verdicts := InsertAll(books.verdicts, classified));
            && AccountOk(origin, active - ready, queued, after, deferred)
            && OneEach(classified) && RecordKeys(classified) !! books.verdicts.Keys
  {
    hide CandidatesOk, RecordKeys, InsertAll, IsClassificationOf, QueueOk, HeldKeys, Apart, OneEach, FromOrigin;
    VerdictKeys(active, facts, classified, ready);
    ActiveHeld(active, queued);
    LessHeld(active, queued, ready);
    InsertedContents(books.verdicts, classified);
    KeysOnce(classified);
    LeaveFor(origin.Keys, HeldKeys(active, queued), ready, books);
    VerdictOrigins(
      origin, active, queued, books.verdicts, classified, ready, facts, InsertAll(books.verdicts, classified));
  }

  lemma VerdictOrigins(
    origin: map<Wtxid, Prepared>, active: Candidates, queued: seq<Prepared>, before: Table, classified: seq<Classified>,
    ready: set<Wtxid>, facts: Facts, after: Table)
    requires CandidatesOk(active) && IsClassificationOf(classified, ready, active, facts)
    requires RecordKeys(classified) == ready && HoldsLast(before, classified, after)
    requires FromOrigin(origin, active, queued, before)
    ensures FromOrigin(origin, active - ready, queued, after)
  {
    hide CandidatesOk, RecordKeys, IsClassificationOf;
    forall k | k in after ensures k in origin && origin[k] == Prepared(after[k].expected, after[k].transaction) {
      if k in ready {
        IsVerdict(active, facts, classified, ready, after[k]);
      }
    }
  }

  lemma ActiveHeld(active: Candidates, queued: seq<Prepared>)
    ensures active.Keys <= HeldKeys(active, queued)
  {
  }

  lemma LeaveFor(whole: set<Wtxid>, held: set<Wtxid>, gone: set<Wtxid>, books: Books)
    requires Apart(whole, held, books.verdicts.Keys, books.exhausted, books.victims) && gone <= held
    ensures Apart(whole, held - gone, books.verdicts.Keys + gone, books.exhausted, books.victims)
    ensures gone !! books.verdicts.Keys
  {
  }

  lemma IsVerdict(active: Candidates, facts: Facts, classified: seq<Classified>, ready: set<Wtxid>, c: Classified)
    requires CandidatesOk(active) && IsClassificationOf(classified, ready, active, facts) && c in classified
    ensures c.expected.wtxid in ready && c.expected.wtxid in active && c == Verdict(active[c.expected.wtxid], facts)
  {
  }

  lemma VerdictKeys(active: Candidates, facts: Facts, classified: seq<Classified>, ready: set<Wtxid>)
    requires CandidatesOk(active) && IsClassificationOf(classified, ready, active, facts)
    ensures RecordKeys(classified) == ready && |classified| == |ready| && ready <= active.Keys
  {
    forall k | k in ready ensures k in RecordKeys(classified) {
      var c := Verdict(active[k], facts);
      assert CandidateOk(k, active[k]);
      assert c in classified && c.expected.wtxid == k;
    }
  }

  // Candidates that need an exhausted fact leave.
  lemma AccountExhausted(
    origin: map<Wtxid, Prepared>, active: Candidates, queued: seq<Prepared>, books: Books, deferred: set<OutPoint>,
    facts: Facts, nulls: set<OutPoint>, variants: Variants, truth: OutPoint -> Script)
    requires AccountOk(origin, active, queued, books, deferred) && QueueOk(queued, active)
    requires CandidatesOk(active) && FactsOk(facts, deferred, nulls, variants, truth)
    ensures var doomed := DoomedKeys(active, facts);
            AccountOk(
              origin, active - doomed, queued, books.(exhausted := books.exhausted + doomed), deferred)
  {
    var doomed := DoomedKeys(active, facts);
    LessHeld(active, queued, doomed);
    forall k | k in doomed ensures NeedsExhausted(origin[k].transaction, deferred) {
      DoomedNeeds(k, active[k], facts, deferred, nulls, variants, truth);
    }
  }

  lemma DoomedNeeds(
    key: Wtxid, candidate: Candidate, facts: Facts, deferred: set<OutPoint>, nulls: set<OutPoint>, variants: Variants,
    truth: OutPoint -> Script)
    requires CandidateOk(key, candidate) && Doomed(candidate, facts) && FactsOk(facts, deferred, nulls, variants, truth)
    ensures NeedsExhausted(candidate.transaction, deferred)
  {
    var o :| o in candidate.required && o in facts && facts[o].OperationallyDeferred?;
    assert FactOk(o, facts[o], deferred, nulls, variants, truth);
    assert o in Elements(candidate.required);
  }

  // A victim leaves.
  lemma AccountVictim(
    origin: map<Wtxid, Prepared>, active: Candidates, queued: seq<Prepared>, books: Books, deferred: set<OutPoint>,
    victim: Wtxid)
    requires AccountOk(origin, active, queued, books, deferred) && QueueOk(queued, active) && victim in active
    ensures AccountOk(origin, active - {victim}, queued, books.(victims := books.victims + {victim}), deferred)
  {
    LessHeld(active, queued, {victim});
  }

  // --- records that reach the report ---------------------------------------------------------

  // The verdicts grew by these records and nothing else, each on a transaction of its own.
  ghost predicate Recorded(before: Table, after: Table, records0: seq<Classified>, records: seq<Classified>) {
    && records0 <= records
    && var added := records[|records0|..];
       after == InsertAll(before, added) && OneEach(added) && RecordKeys(added) !! before.Keys
  }

  lemma RecordedNone(table: Table, records: seq<Classified>)
    ensures Recorded(table, table, records, records)
  {
    assert records[|records|..] == [];
  }

  lemma RecordedMore(
    a: Table, b: Table, c: Table, r0: seq<Classified>, r1: seq<Classified>, r2: seq<Classified>)
    requires Recorded(a, b, r0, r1) && Recorded(b, c, r1, r2)
    ensures Recorded(a, c, r0, r2)
  {
    var first, second := r1[|r0|..], r2[|r1|..];
    InsertAllTwice(a, first, second);
    InsertedContents(a, first);
    assert r2[|r0|..] == first + second;
    forall c, d | c in first && d in second ensures c.expected.wtxid != d.expected.wtxid {
      assert c.expected.wtxid in RecordKeys(first) && d.expected.wtxid in RecordKeys(second);
    }
  }

  lemma RecordedOne(before: Table, records: seq<Classified>, classified: seq<Classified>)
    requires OneEach(classified) && RecordKeys(classified) !! before.Keys
    ensures Recorded(before, InsertAll(before, classified), records, records + classified)
  {
    assert (records + classified)[|records|..] == classified;
  }

  // --- room for every script -------------------------------------------------------------

  // The outpoints that these transactions need.
  ghost function Wanted(origin: map<Wtxid, Prepared>, held: set<Wtxid>): set<OutPoint> {
    set k, o | k in held && k in origin && o in Needed(origin[k].transaction) :: o
  }

  ghost function ScriptsOf(outpoints: set<OutPoint>, truth: OutPoint -> Script): map<OutPoint, Script> {
    map o | o in outpoints :: truth(o)
  }

  // The scripts that these transactions need fit the byte limit together.
  ghost predicate FitTogether(origin: map<Wtxid, Prepared>, held: set<Wtxid>, truth: OutPoint -> Script, limit: nat) {
    Sum(ScriptsOf(Wanted(origin, held), truth), EstimatedScriptBytes) <= limit
  }

  // A fact that is not ready has room beside those that are.
  ghost predicate HasRoom(facts: Facts, bytes: nat, truth: OutPoint -> Script, limit: nat) {
    forall o :: o in facts && !facts[o].Ready? ==> bytes + EstimatedScriptBytes(truth(o)) <= limit
  }

  lemma RoomFor(
    origin: map<Wtxid, Prepared>, active: Candidates, queued: seq<Prepared>, books: Books, facts: Facts,
    deferred: set<OutPoint>, nulls: set<OutPoint>, variants: Variants, truth: OutPoint -> Script, limit: nat)
    requires AccountOk(origin, active, queued, books, deferred) && CandidatesOk(active) && Covered(active, facts)
    requires FactsOk(facts, deferred, nulls, variants, truth)
    requires FitTogether(origin, HeldKeys(active, queued), truth, limit)
    ensures HasRoom(facts, Sum(facts, ReadyBytes), truth, limit)
  {
    hide Sum, Covered, FactsOk, Wanted, AccountOk, CandidatesOk, HeldKeys;
    var scripts := ScriptsOf(facts.Keys, truth);
    var wanted := Wanted(origin, HeldKeys(active, queued));
    FactsWanted(origin, active, queued, books, deferred, facts);
    SumMonotone(scripts, ScriptsOf(wanted, truth), EstimatedScriptBytes);
    forall o | o in facts && !facts[o].Ready?
      ensures Sum(facts, ReadyBytes) + EstimatedScriptBytes(truth(o)) <= limit
    {
      ReadyBelow(facts, deferred, nulls, variants, truth, o);
      SumRemove(scripts, o, EstimatedScriptBytes);
    }
  }

  lemma FactsWanted(
    origin: map<Wtxid, Prepared>, active: Candidates, queued: seq<Prepared>, books: Books, deferred: set<OutPoint>,
    facts: Facts)
    requires AccountOk(origin, active, queued, books, deferred) && CandidatesOk(active) && Covered(active, facts)
    ensures facts.Keys <= Wanted(origin, HeldKeys(active, queued))
  {
    hide CandidateOk, Apart;
    ActiveHeld(active, queued);
    forall o | o in facts ensures o in Wanted(origin, HeldKeys(active, queued)) {
      var k :| k in active && o in active[k].required;
      assert CandidateOk(k, active[k]);
      RequiredNeeded(k, active[k], o);
    }
  }

  lemma RequiredNeeded(key: Wtxid, candidate: Candidate, o: OutPoint)
    requires CandidateOk(key, candidate) && o in candidate.required
    ensures o in Needed(candidate.transaction)
  {
    assert o in Elements(candidate.required);
  }

  lemma ReadyBelow(
    facts: Facts, deferred: set<OutPoint>, nulls: set<OutPoint>, variants: Variants, truth: OutPoint -> Script,
    o: OutPoint)
    requires FactsOk(facts, deferred, nulls, variants, truth) && o in facts && !facts[o].Ready?
    ensures Sum(facts, ReadyBytes) <= Sum(ScriptsOf(facts.Keys, truth) - {o}, EstimatedScriptBytes)
  {
    hide Sum;
    SumRemove(facts, o, ReadyBytes);
    ReadyAtMost(facts - {o}, deferred, nulls, variants, truth);
    assert ScriptsOf((facts - {o}).Keys, truth) == ScriptsOf(facts.Keys, truth) - {o};
  }

  lemma {:induction false} ReadyAtMost(
    facts: Facts, deferred: set<OutPoint>, nulls: set<OutPoint>, variants: Variants, truth: OutPoint -> Script)
    requires FactsOk(facts, deferred, nulls, variants, truth)
    ensures Sum(facts, ReadyBytes) <= Sum(ScriptsOf(facts.Keys, truth), EstimatedScriptBytes)
    decreases |facts|
  {
    hide Sum;
    if facts == map[] {
      SumEmpty(facts, ReadyBytes);
    } else {
      var o :| o in facts;
      assert FactOk(o, facts[o], deferred, nulls, variants, truth);
      SumRemove(facts, o, ReadyBytes);
      SumRemove(ScriptsOf(facts.Keys, truth), o, EstimatedScriptBytes);
      ReadyAtMost(facts - {o}, deferred, nulls, variants, truth);
      assert ScriptsOf((facts - {o}).Keys, truth) == ScriptsOf(facts.Keys, truth) - {o};
    }
  }

  // Fewer transactions take no more room.
  lemma FitLess(origin: map<Wtxid, Prepared>, held0: set<Wtxid>, held: set<Wtxid>, truth: OutPoint -> Script, limit: nat)
    requires FitTogether(origin, held0, truth, limit) && held <= held0
    ensures FitTogether(origin, held, truth, limit)
  {
    hide Sum;
    SumMonotone(ScriptsOf(Wanted(origin, held), truth), ScriptsOf(Wanted(origin, held0), truth), EstimatedScriptBytes);
  }

  // --- no fact waits for capacity ----------------------------------------------------------

  ghost predicate NoneBlocked(facts: Facts) {
    forall o :: o in facts ==> !facts[o].CapacityBlocked?
  }

  lemma RestrictNoneBlocked(facts: Facts, active: Candidates)
    requires NoneBlocked(facts)
    ensures NoneBlocked(Restrict(facts, active))
  {
  }

  // A victim waits for capacity.
  lemma VictimBlocked(active: Candidates, facts: Facts, order: seq<Wtxid>, count: nat, victim: nat)
    requires count <= |order| && (forall k :: k in order ==> k in active)
    requires IsVictim(active, facts, order, count, victim)
    ensures !NoneBlocked(facts)
  {
  }

  lemma GrownNoneBlocked(facts0: Facts, facts: Facts, deferred: set<OutPoint>, variants: Variants)
    requires GrownFrom(facts0, facts, deferred, variants) && NoneBlocked(facts0)
    ensures NoneBlocked(facts)
  {
  }

  lemma FallBackNoneBlocked(facts: Facts, parents: set<Txid>)
    requires NoneBlocked(facts)
    ensures NoneBlocked(FallBack(facts, parents))
  {
  }

  lemma DeliveredNoneBlocked(
    before: Facts, after: Facts, known: map<OutPoint, Script>, bytes: nat, truth: OutPoint -> Script, limit: nat)
    requires Delivered(before, after, before.Keys, known, bytes, limit) && AllScriptsTrue(known, truth)
    requires NoneBlocked(before) && HasRoom(after, bytes, truth, limit)
    ensures NoneBlocked(after)
  {
  }

  lemma ParentsNoneBlocked(
    before: Facts, after: Facts, wave: seq<ExpectedVariant>, values: RawValues, bytes: nat, truth: OutPoint -> Script,
    limit: nat)
    requires ParentsApplied(before, after, values, |values|, bytes, limit) && RawAnswersOk(wave, values, truth)
    requires NoneBlocked(before) && HasRoom(after, bytes, truth, limit)
    ensures NoneBlocked(after)
  {
    forall o | o in after ensures !after[o].CapacityBlocked? {
      assert ParentsAppliedAt(o, before[o], after[o], values, |values|, bytes, limit);
      if before[o].AwaitingParent() && o.txid in Resolved(values, |values|) {
        var i :| 0 <= i < |values| && FoundFor(values[i], o.txid)
                 && ParentAppliedAt(o, before[o], after[o], o.txid, values[i].1.value.outputs, {o}, bytes, limit);
        assert RawFoundOk(values[i].0, values[i].1.value, truth);
        if o.vout < |values[i].1.value.outputs| {
          assert OutPoint(o.txid, o.vout) == o;
        }
      }
    }
  }

  lemma ConfirmedNoneBlocked(
    before: Facts, after: Facts, wave: seq<OutPoint>, answers: Answers, bytes: nat, truth: OutPoint -> Script, limit: nat)
    requires Answerable(before, answers) && ConfirmedApplied(before, after, answers, |answers|, bytes, limit)
    requires PrevoutAnswersOk(wave, answers, truth) && NoneBlocked(before) && HasRoom(after, bytes, truth, limit)
    ensures NoneBlocked(after)
  {
    forall o | o in after ensures !after[o].CapacityBlocked? {
      if i :| 0 <= i < |answers| && answers[i].0 == o {
        assert ConfirmedAppliedAt(before[o], after[o], answers[i].1, bytes, limit);
      }
    }
  }

  // --- how facts come to be exhausted --------------------------------------------------------

  // What was deferred since then is in the table, and deferred there.
  ghost predicate DeferralsIn(before: set<OutPoint>, after: set<OutPoint>, facts: Facts) {
    before <= after && forall o :: o in after && o !in before ==> o in facts && facts[o].OperationallyDeferred?
  }

  lemma DeferralsNone(deferred: set<OutPoint>, facts: Facts)
    ensures DeferralsIn(deferred, deferred, facts)
  {
  }

  lemma DeferralsMore(
    a: set<OutPoint>, b: set<OutPoint>, c: set<OutPoint>, facts1: Facts, facts2: Facts)
    requires DeferralsIn(a, b, facts1) && DeferralsIn(b, c, facts2) && facts2.Keys == facts1.Keys
    requires forall o :: o in facts1 && facts1[o].OperationallyDeferred? ==> facts2[o].OperationallyDeferred?
    ensures DeferralsIn(a, c, facts2)
  {
  }

  // Answers leave exhausted facts exhausted.
  lemma ParentKeepsDeferred(before: Facts, after: Facts, parent: Txid, scripts: seq<Script>, bytes: nat, limit: nat)
    requires ParentApplied(before, after, parent, scripts, before.Keys, bytes, limit)
    ensures after.Keys == before.Keys
    ensures forall o :: o in before && before[o].OperationallyDeferred? ==> after[o].OperationallyDeferred?
  {
    forall o | o in before && before[o].OperationallyDeferred? ensures after[o].OperationallyDeferred? {
      assert ParentAppliedAt(o, before[o], after[o], parent, scripts, before.Keys, bytes, limit);
    }
  }

  lemma AnswerKeepsDeferred(
    before: Facts, after: Facts, outpoint: OutPoint, value: RpcValue<Script>, bytes: nat, limit: nat)
    requires outpoint in before && outpoint in after && after == before[outpoint := after[outpoint]]
    requires ConfirmedAppliedAt(before[outpoint], after[outpoint], value, bytes, limit)
    ensures after.Keys == before.Keys
    ensures forall o :: o in before && before[o].OperationallyDeferred? ==> after[o].OperationallyDeferred?
  {
  }

  lemma FallBackDeferrals(facts: Facts, parents: set<Txid>, before: set<OutPoint>, after: set<OutPoint>)
    requires DeferralsIn(before, after, facts)
    ensures DeferralsIn(before, after, FallBack(facts, parents))
  {
  }

  /** A fact is exhausted only if it had been asked for and still awaited an answer
      before. */
  ghost predicate LastAttempts(facts: Facts, before: set<OutPoint>, after: set<OutPoint>) {
    before <= after && forall o :: o in after && o !in before ==> o in facts && facts[o].Awaiting? && facts[o].attempts >= 1
  }

  // A fact that had been asked for and awaits an answer did so before.
  ghost predicate NoneOlder(before: Facts, after: Facts) {
    forall o :: o in after && after[o].Awaiting? && after[o].attempts >= 1 ==> o in before && before[o] == after[o]
  }

  lemma LastSince(before: Facts, facts: Facts, deferred: set<OutPoint>, after: set<OutPoint>)
    requires NoneOlder(before, facts) && LastAttempts(facts, deferred, after)
    ensures LastAttempts(before, deferred, after)
  {
  }

  // The exhausted facts of the table are the deferred ones.
  ghost predicate DeferredListed(facts: Facts, deferred: set<OutPoint>) {
    forall o :: o in facts ==> (facts[o].OperationallyDeferred? <==> o in deferred)
  }

  // A fact with an attempt behind it that awaits gettxout did so before.
  ghost predicate NoneOlderConfirmed(before: Facts, after: Facts) {
    forall o :: o in after && after[o].AwaitingConfirmed() && after[o].attempts >= 1 ==> o in before && before[o] == after[o]
  }

  // Which facts a parent wave exhausts, and which it leaves to gettxout with an attempt behind them.
  lemma ParentsLast(
    facts: Facts, applied: Facts, after: Facts, parents: set<Txid>, values: RawValues, unresolved: set<Txid>, bytes: nat,
    limit: nat, before: set<OutPoint>, deferred: set<OutPoint>)
    requires ParentsApplied(AttemptParents(facts, parents), applied, values, |values|, bytes, limit)
    requires after == applied || after == FallBack(applied, unresolved)
    requires DeferredListed(facts, before) && DeferralsIn(before, deferred, after)
    ensures LastAttempts(facts, before, deferred) && NoneOlderConfirmed(facts, after)
  {
    var attempted := AttemptParents(facts, parents);
    forall o | o in after
      ensures after[o].OperationallyDeferred? ==> o in before || (facts[o].Awaiting? && facts[o].attempts >= 1)
      ensures after[o].AwaitingConfirmed() && after[o].attempts >= 1 ==> facts[o] == after[o]
    {
      assert ParentsAppliedAt(o, attempted[o], applied[o], values, |values|, bytes, limit);
    }
  }

  // Which facts a confirmed wave exhausts.
  ghost predicate LastConfirmed(facts: Facts, before: set<OutPoint>, after: set<OutPoint>) {
    && before <= after
    && forall o :: o in after && o !in before ==> o in facts && facts[o].AwaitingConfirmed() && facts[o].attempts >= 1
  }

  lemma ConfirmedLast(
    facts: Facts, after: Facts, answers: Answers, selected: set<OutPoint>, bytes: nat, limit: nat, before: set<OutPoint>,
    deferred: set<OutPoint>)
    requires Answerable(AttemptAll(facts, selected), answers)
    requires ConfirmedApplied(AttemptAll(facts, selected), after, answers, |answers|, bytes, limit)
    requires DeferredListed(facts, before) && DeferralsIn(before, deferred, after)
    ensures LastConfirmed(facts, before, deferred)
  {
    var attempted := AttemptAll(facts, selected);
    forall o | o in after && after[o].OperationallyDeferred?
      ensures o in before || (facts[o].AwaitingConfirmed() && facts[o].attempts >= 1)
    {
      if i :| 0 <= i < |answers| && answers[i].0 == o {
        assert ConfirmedAppliedAt(attempted[o], after[o], answers[i].1, bytes, limit);
      } else {
        assert after[o] == attempted[o];
      }
    }
  }

  // Both waves together.
  lemma LastOfBoth(facts: Facts, middle: Facts, a: set<OutPoint>, b: set<OutPoint>, c: set<OutPoint>)
    requires LastAttempts(facts, a, b) && NoneOlderConfirmed(facts, middle) && LastConfirmed(middle, b, c)
    ensures LastAttempts(facts, a, c)
  {
  }

  lemma AttemptNoneBlocked(facts: Facts, parents: set<Txid>, selected: set<OutPoint>)
    requires NoneBlocked(facts)
    ensures NoneBlocked(AttemptParents(facts, parents)) && NoneBlocked(AttemptAll(facts, selected))
  {
  }

  // --- a slice at one moment -----------------------------------------------------------------

  datatype SliceView = SliceView(
    active: Candidates, queued: seq<Prepared>, facts: Facts, deferred: set<OutPoint>, books: Books)
  {
    function Held(): set<Wtxid> {
      HeldKeys(active, queued)
    }
  }

  ghost predicate Roomy(origin: map<Wtxid, Prepared>, view: SliceView, truth: OutPoint -> Script, limit: nat) {
    FitTogether(origin, view.Held(), truth, limit) && NoneBlocked(view.facts)
  }

  /** Between two moments of a slice: the records that were added are exactly the new
      verdicts, nothing that left returns, and while everything fits no candidate is
      a victim. */
  ghost predicate Booked(
    origin: map<Wtxid, Prepared>, before: SliceView, after: SliceView, records0: seq<Classified>,
    records: seq<Classified>, truth: OutPoint -> Script, limit: nat)
  {
    && Recorded(before.books.verdicts, after.books.verdicts, records0, records)
    && before.books.exhausted <= after.books.exhausted && before.books.victims <= after.books.victims
    && (Roomy(origin, before, truth, limit) ==>
          Roomy(origin, after, truth, limit) && after.books.victims == before.books.victims)
  }

  // The same step, told beside earlier records.
  lemma BookedAfter(
    origin: map<Wtxid, Prepared>, before: SliceView, after: SliceView, records0: seq<Classified>,
    records: seq<Classified>, truth: OutPoint -> Script, limit: nat)
    requires Booked(origin, before, after, [], records, truth, limit)
    ensures Booked(origin, before, after, records0, records0 + records, truth, limit)
  {
    hide Roomy;
    var none: seq<Classified> := [];
    assert records[|none|..] == records && (records0 + records)[|records0|..] == records;
  }

  lemma BookedMore(
    origin: map<Wtxid, Prepared>, a: SliceView, b: SliceView, c: SliceView, r0: seq<Classified>, r1: seq<Classified>,
    r2: seq<Classified>, truth: OutPoint -> Script, limit: nat)
    requires Booked(origin, a, b, r0, r1, truth, limit) && Booked(origin, b, c, r1, r2, truth, limit)
    ensures Booked(origin, a, c, r0, r2, truth, limit)
  {
    hide Recorded, Roomy;
    RecordedMore(a.books.verdicts, b.books.verdicts, c.books.verdicts, r0, r1, r2);
  }

  // What one step of a slice writes down.
  lemma BookedStep(
    origin: map<Wtxid, Prepared>, before: SliceView, after: SliceView, records0: seq<Classified>,
    records: seq<Classified>, truth: OutPoint -> Script, limit: nat)
    requires AccountOk(origin, before.active, before.queued, before.books, before.deferred)
    requires AccountOk(origin, after.active, after.queued, after.books, after.deferred)
    requires Recorded(before.books.verdicts, after.books.verdicts, records0, records)
    requires before.books.exhausted <= after.books.exhausted && before.books.victims <= after.books.victims
    requires NoneBlocked(before.facts) && FitTogether(origin, after.Held(), truth, limit) ==>
               NoneBlocked(after.facts) && after.books.victims == before.books.victims
    ensures Booked(origin, before, after, records0, records, truth, limit)
  {
    hide Recorded, FitTogether, HeldKeys, NoneBlocked, Apart, FromOrigin, RecordKeys;
    VerdictsKept(before.books.verdicts, after.books.verdicts, records0, records);
    HeldLess(origin.Keys, before.Held(), after.Held(), before.books, after.books);
    if Roomy(origin, before, truth, limit) {
      FitLess(origin, before.Held(), after.Held(), truth, limit);
    }
  }

  lemma HeldLess(whole: set<Wtxid>, held0: set<Wtxid>, held: set<Wtxid>, before: Books, after: Books)
    requires Apart(whole, held0, before.verdicts.Keys, before.exhausted, before.victims)
    requires Apart(whole, held, after.verdicts.Keys, after.exhausted, after.victims)
    requires before.verdicts.Keys <= after.verdicts.Keys
    requires before.exhausted <= after.exhausted && before.victims <= after.victims
    ensures held <= held0
  {
    var verdicts0 := before.verdicts.Keys;
    forall k | k in held ensures k in held0 {
      assert k in whole && k !in verdicts0 && k !in before.exhausted && k !in before.victims;
    }
  }

  // A step that changes facts alone.
  lemma BookedFacts(
    origin: map<Wtxid, Prepared>, before: SliceView, after: SliceView, truth: OutPoint -> Script, limit: nat)
    requires AccountOk(origin, before.active, before.queued, before.books, before.deferred)
    requires AccountOk(origin, after.active, after.queued, after.books, after.deferred)
    requires after.books == before.books
    requires NoneBlocked(before.facts) && FitTogether(origin, after.Held(), truth, limit) ==> NoneBlocked(after.facts)
    ensures Booked(origin, before, after, [], [], truth, limit)
  {
    hide FitTogether, HeldKeys, NoneBlocked, Apart, FromOrigin, RecordKeys, Recorded;
    RecordedNone(before.books.verdicts, []);
    BookedStep(origin, before, after, [], [], truth, limit);
  }

  // Verdicts are kept.
  lemma VerdictsKept(before: Table, after: Table, records0: seq<Classified>, records: seq<Classified>)
    requires Recorded(before, after, records0, records)
    ensures after.Keys == before.Keys + RecordKeys(records[|records0|..])
    ensures before.Keys !! RecordKeys(records[|records0|..]) && OneEach(records[|records0|..])
  {
    InsertedContents(before, records[|records0|..]);
  }

  /** Each transaction that was held is now in exactly one place: still held, among
      the new records, newly given up, or newly a victim. */
  lemma Partition(
    origin: map<Wtxid, Prepared>, before: SliceView, after: SliceView, records: seq<Classified>, truth: OutPoint -> Script,
    limit: nat)
    requires AccountOk(origin, before.active, before.queued, before.books, before.deferred)
    requires AccountOk(origin, after.active, after.queued, after.books, after.deferred)
    requires Booked(origin, before, after, [], records, truth, limit)
    ensures Apart(
              HeldKeys(before.active, before.queued), HeldKeys(after.active, after.queued), RecordKeys(records),
              after.books.exhausted - before.books.exhausted, after.books.victims - before.books.victims)
    ensures OneEach(records)
  {
    hide Recorded, Roomy, HeldKeys, RecordKeys, Apart;
    var none: seq<Classified> := [];
    VerdictsKept(before.books.verdicts, after.books.verdicts, none, records);
    assert records[|none|..] == records;
    PlacesMoved(
      origin.Keys, HeldKeys(before.active, before.queued), HeldKeys(after.active, after.queued), before.books,
      after.books, RecordKeys(records));
  }

  lemma PlacesMoved(
    whole: set<Wtxid>, held0: set<Wtxid>, held: set<Wtxid>, before: Books, after: Books, recorded: set<Wtxid>)
    requires Apart(whole, held0, before.verdicts.Keys, before.exhausted, before.victims)
    requires Apart(whole, held, after.verdicts.Keys, after.exhausted, after.victims)
    requires after.verdicts.Keys == before.verdicts.Keys + recorded && before.verdicts.Keys !! recorded
    requires before.exhausted <= after.exhausted && before.victims <= after.victims
    ensures Apart(held0, held, recorded, after.exhausted - before.exhausted, after.victims - before.victims)
  {
    var verdicts0, verdicts := before.verdicts.Keys, after.verdicts.Keys;
    forall k | k in held ensures k in held0 {
      assert k in whole && k !in verdicts0 && k !in before.exhausted && k !in before.victims;
    }
    forall k | k in recorded ensures k in held0 {
      assert k in verdicts && k !in before.exhausted && k !in before.victims;
    }
  }
}
