/** The policy view of a comparison: totals per region, side and filter gathered in
    one pass, and populations computed on demand and remembered. */
module PolicyViews {
  import opened Base
  import opened Assessments
  import opened Comparisons

  datatype PolicyStatus = Assessed(status: Status) | Unclassified

  datatype Filter =
    | All
    | OfRule(rule: Rule)
    | OfStatus(status: PolicyStatus)
    | OfSignature(key: string)

  function PolicyStatusOf(t: MempoolTransaction): PolicyStatus {
    if t.assessment.Some? then Assessed(t.assessment.value.status) else Unclassified
  }

  // --- violation signatures -----------------------------------------------------------

  // Which rules are proven violated and which are unknown.
  datatype Signature = Signature(violated: set<Rule>, unknown: set<Rule>) {
    predicate Exact() {
      unknown == {}
    }
  }

  function Bit(rules: set<Rule>, rule: Rule, value: nat): nat {
    if rule in rules then value else 0
  }

  function Mask(rules: set<Rule>): (m: nat)
    ensures m < 128
  {
    Bit(rules, OutputSize, 1) + Bit(rules, ElementSize, 2) + Bit(rules, UndefinedVersion, 4) + Bit(rules, TaprootAnnex, 8)
    + Bit(rules, ControlBlockSize, 16) + Bit(rules, OpSuccess, 32) + Bit(rules, TapscriptOpIf, 64)
  }

  function HexDigit(d: nat): char
    requires d < 16
  {
    "0123456789abcdef"[d]
  }

  function HexText(mask: nat): (text: string)
    requires mask < 256
    ensures |text| == 2
  {
    [HexDigit(mask / 16), HexDigit(mask % 16)]
  }

  function Key(signature: Signature): string {
    if signature.Exact() then "exact:" + HexText(Mask(signature.violated))
    else "partial:" + HexText(Mask(signature.violated)) + ":" + HexText(Mask(signature.unknown))
  }

  function ViolationSignature(assessment: Assessment): Option<Signature> {
    if assessment.status != Violating then None
    else Some(Signature(set r | r in assessment.violatedRules, set r | r in assessment.unknownRules))
  }

  function KeyOf(t: MempoolTransaction): Option<string> {
    if t.assessment.None? then None
    else
      var signature := ViolationSignature(t.assessment.value);
      if signature.None? then None else Some(Key(signature.value))
  }

  lemma MaskInjective(a: set<Rule>, b: set<Rule>)
    requires Mask(a) == Mask(b)
    ensures a == b
  {
    forall r ensures r in a <==> r in b {
      match r
      case OutputSize =>
      case ElementSize =>
      case UndefinedVersion =>
      case TaprootAnnex =>
      case ControlBlockSize =>
      case OpSuccess =>
      case TapscriptOpIf =>
    }
  }

  lemma HexInjective(a: nat, b: nat)
    requires a < 256 && b < 256 && HexText(a) == HexText(b)
    ensures a == b
  {
    assert HexText(a)[0] == HexText(b)[0] && HexText(a)[1] == HexText(b)[1];
    HexDigitInjective(a / 16, b / 16);
    HexDigitInjective(a % 16, b % 16);
  }

  lemma HexDigitInjective(a: nat, b: nat)
    requires a < 16 && b < 16 && HexDigit(a) == HexDigit(b)
    ensures a == b
  {
  }

  /** One bucket, one signature: the key tells the violated and unknown rules. */
  lemma KeyInjective(a: Signature, b: Signature)
    requires Key(a) == Key(b)
    ensures a == b
  {
    hide Mask, HexText;
    assert Key(a)[0] == (if a.Exact() then 'e' else 'p') && Key(b)[0] == (if b.Exact() then 'e' else 'p');
    var n := if a.Exact() then 6 else 8;
    assert HexText(Mask(a.violated)) == Key(a)[n..n + 2] && HexText(Mask(b.violated)) == Key(b)[n..n + 2];
    HexInjective(Mask(a.violated), Mask(b.violated));
    MaskInjective(a.violated, b.violated);
    if !a.Exact() {
      assert HexText(Mask(a.unknown)) == Key(a)[11..] && HexText(Mask(b.unknown)) == Key(b)[11..];
      HexInjective(Mask(a.unknown), Mask(b.unknown));
      MaskInjective(a.unknown, b.unknown);
    }
  }

  // --- direct folds -------------------------------------------------------------------

  datatype Tally = Tally(count: nat, vsize: nat)

  const NOTHING: Tally := Tally(0, 0)

  function Add(tally: Tally, t: MempoolTransaction): Tally {
    Tally(tally.count + 1, tally.vsize + t.vsize)
  }

  predicate FilterMatches(t: MempoolTransaction, filter: Filter) {
    match filter
    case All => true
    case OfStatus(status) => PolicyStatusOf(t) == status
    case OfRule(rule) => t.assessment.Some? && rule in t.assessment.value.violatedRules
    case OfSignature(key) => KeyOf(t) == Some(key)
  }

  // The direct fold over the matching transactions.
  function Fold(added: seq<MempoolTransaction>, filter: Filter): Tally {
    if added == [] then NOTHING
    else
      var front, last := added[..|added| - 1], added[|added| - 1];
      if FilterMatches(last, filter) then Add(Fold(front, filter), last) else Fold(front, filter)
  }

  function Occurrences(rules: seq<Rule>, rule: Rule): nat {
    if rules == [] then 0
    else Occurrences(rules[..|rules| - 1], rule) + (if rules[|rules| - 1] == rule then 1 else 0)
  }

  function Listed(t: MempoolTransaction, rule: Rule): nat {
    if t.assessment.None? then 0 else Occurrences(t.assessment.value.violatedRules, rule)
  }

  function AddTimes(tally: Tally, t: MempoolTransaction, times: nat): Tally {
    if times == 0 then tally else Add(AddTimes(tally, t, times - 1), t)
  }

  // What the rule totals gather: a transaction counts as often as it lists the rule.
  function RuleFold(added: seq<MempoolTransaction>, rule: Rule): Tally {
    if added == [] then NOTHING
    else
      var front, last := added[..|added| - 1], added[|added| - 1];
      AddTimes(RuleFold(front, rule), last, Listed(last, rule))
  }

  // The totals a view keeps for a filter.
  function Kept(added: seq<MempoolTransaction>, filter: Filter): Tally {
    if filter.OfRule? then RuleFold(added, filter.rule) else Fold(added, filter)
  }

  lemma {:induction false} OccurrencesPositive(rules: seq<Rule>, rule: Rule)
    ensures Occurrences(rules, rule) > 0 <==> rule in rules
    ensures NoDuplicates(rules) ==> Occurrences(rules, rule) <= 1
  {
    if rules != [] {
      var front := rules[..|rules| - 1];
      OccurrencesPositive(front, rule);
      assert rules == front + [rules[|rules| - 1]];
    }
  }

  lemma {:induction false} AddTimesCount(tally: Tally, t: MempoolTransaction, times: nat)
    ensures AddTimes(tally, t, times).count == tally.count + times
  {
    if times > 0 {
      AddTimesCount(tally, t, times - 1);
    }
  }

  ghost predicate ListedOnce(added: seq<MempoolTransaction>, rule: Rule) {
    forall t :: t in added ==> Listed(t, rule) <= 1
  }

  /** The rule totals are the direct fold exactly when no transaction lists the
      rule twice. */
  lemma {:induction false} RuleFoldExact(added: seq<MempoolTransaction>, rule: Rule)
    ensures RuleFold(added, rule) == Fold(added, OfRule(rule)) <==> ListedOnce(added, rule)
    ensures RuleFold(added, rule).count >= Fold(added, OfRule(rule)).count
    ensures RuleFold(added, rule).count == Fold(added, OfRule(rule)).count ==> ListedOnce(added, rule)
  {
    if added != [] {
      var front, last := added[..|added| - 1], added[|added| - 1];
      assert added == front + [last];
      RuleFoldExact(front, rule);
      AddTimesCount(RuleFold(front, rule), last, Listed(last, rule));
      if last.assessment.Some? {
        OccurrencesPositive(last.assessment.value.violatedRules, rule);
      }
      assert Listed(last, rule) == 1 ==> AddTimes(RuleFold(front, rule), last, 1) == Add(RuleFold(front, rule), last);
      assert ListedOnce(added, rule) <==> ListedOnce(front, rule) && Listed(last, rule) <= 1;
    }
  }

  // A list that names a rule twice makes its total count the transaction twice.
  lemma DuplicateRuleCountsTwice(t: MempoolTransaction)
    requires t.assessment.Some? && t.assessment.value.violatedRules == [OpSuccess, OpSuccess]
    ensures RuleFold([t], OpSuccess).count == 2 && Fold([t], OfRule(OpSuccess)).count == 1
  {
    var rules := t.assessment.value.violatedRules;
    assert rules[..1] == [OpSuccess];
    assert Occurrences([OpSuccess], OpSuccess) == 1;
    assert Occurrences(rules, OpSuccess) == 2;
    assert [t][..0] == [];
    AddTimesCount(NOTHING, t, 2);
  }

  // Duplicate-free rule lists are what the server sends.
  ghost predicate RulesDistinct(added: seq<MempoolTransaction>) {
    forall t :: t in added && t.assessment.Some? ==> NoDuplicates(t.assessment.value.violatedRules)
  }

  lemma KeptIsFold(added: seq<MempoolTransaction>, filter: Filter)
    requires RulesDistinct(added)
    ensures Kept(added, filter) == Fold(added, filter)
  {
    if filter.OfRule? {
      forall t | t in added ensures Listed(t, filter.rule) <= 1 {
        if t.assessment.Some? {
          OccurrencesPositive(t.assessment.value.violatedRules, filter.rule);
        }
      }
      RuleFoldExact(added, filter.rule);
    }
  }

  // An empty total means that nothing matches and nothing was counted.
  lemma {:induction false} NothingKept(added: seq<MempoolTransaction>, filter: Filter)
    requires Kept(added, filter).count == 0
    ensures forall t :: t in added ==> !FilterMatches(t, filter)
    ensures Kept(added, filter) == NOTHING
  {
    if added != [] {
      var front, last := added[..|added| - 1], added[|added| - 1];
      assert added == front + [last];
      if filter.OfRule? {
        AddTimesCount(RuleFold(front, filter.rule), last, Listed(last, filter.rule));
        if last.assessment.Some? {
          OccurrencesPositive(last.assessment.value.violatedRules, filter.rule);
        }
      }
      NothingKept(front, filter);
    }
  }

  // --- accumulators -------------------------------------------------------------------

  function KeyCount(bucket: (Signature, Tally)): nat {
    bucket.1.count
  }

  function NoStatusTotals(): map<PolicyStatus, Tally> {
    map[
      Assessed(Compatible) := NOTHING, Assessed(Violating) := NOTHING, Assessed(Indeterminate) := NOTHING,
      Unclassified := NOTHING]
  }

  function NoRuleTotals(): map<Rule, Tally> {
    map[
      OutputSize := NOTHING, ElementSize := NOTHING, UndefinedVersion := NOTHING, TaprootAnnex := NOTHING,
      ControlBlockSize := NOTHING, OpSuccess := NOTHING, TapscriptOpIf := NOTHING]
  }

  // Every status and every rule has its total.
  lemma TotalsCoverAll()
    ensures forall s :: s in NoStatusTotals() && NoStatusTotals()[s] == NOTHING
    ensures forall r :: r in NoRuleTotals() && NoRuleTotals()[r] == NOTHING
  {
    forall s ensures s in NoStatusTotals() && NoStatusTotals()[s] == NOTHING {
      match s
      case Assessed(Compatible) =>
      case Assessed(Violating) =>
      case Assessed(Indeterminate) =>
      case Unclassified =>
    }
    forall r ensures r in NoRuleTotals() && NoRuleTotals()[r] == NOTHING {
      match r
      case OutputSize =>
      case ElementSize =>
      case UndefinedVersion =>
      case TaprootAnnex =>
      case ControlBlockSize =>
      case OpSuccess =>
      case TapscriptOpIf =>
    }
  }

  class SliceAccumulator {
    var population: Tally
    var statusTotals: map<PolicyStatus, Tally>
    var ruleTotals: map<Rule, Tally>
    var signatures: map<string, (Signature, Tally)>
    ghost var added: seq<MempoolTransaction>

    ghost predicate Valid()
      reads this
    {
      AccumulatorOk(population, statusTotals, ruleTotals, signatures, added)
    }

    constructor ()
      ensures Valid() && added == []
    {
      population, statusTotals, ruleTotals, signatures, added := NOTHING, NoStatusTotals(), NoRuleTotals(), map[], [];
      TotalsCoverAll();
    }

    method AddTransaction(t: MempoolTransaction)
      requires Valid()
      modifies this
      ensures Valid() && added == old(added) + [t]
    {
      hide Fold, RuleFold, Listed, RulesKept, SignaturesKept;
      ghost var before := added;
      added := added + [t];
      FoldMore(before, t);
      population := Add(population, t);
      var status := PolicyStatusOf(t);
      statusTotals := statusTotals[status := Add(statusTotals[status], t)];
      if t.assessment.None? {
        RulesUnlisted(ruleTotals, before, t);
        SignaturesSame(signatures, before, t);
        return;
      }
      AddRules(t.assessment.value.violatedRules, t, before);
      AddSignature(t, before);
    }

    method AddRules(rules: seq<Rule>, t: MempoolTransaction, ghost before: seq<MempoolTransaction>)
      requires t.assessment.Some? && rules == t.assessment.value.violatedRules
      requires RulesKept(ruleTotals, before)
      modifies this`ruleTotals
      ensures RulesKept(ruleTotals, before + [t])
    {
      hide RuleFold;
      assert rules[..0] == [];
      for i := 0 to |rules|
        invariant forall r :: r in ruleTotals && ruleTotals[r] == AddTimes(RuleFold(before, r), t, Occurrences(rules[..i], r))
      {
        assert rules[..i + 1][..i] == rules[..i];
        ruleTotals := ruleTotals[rules[i] := Add(ruleTotals[rules[i]], t)];
      }
      assert rules[..|rules|] == rules;
      forall r ensures RuleFold(before + [t], r) == AddTimes(RuleFold(before, r), t, Occurrences(rules, r)) {
        RuleFoldMore(before, t, r);
      }
    }

    method AddSignature(t: MempoolTransaction, ghost before: seq<MempoolTransaction>)
      requires t.assessment.Some? && SignaturesKept(signatures, before)
      modifies this`signatures
      ensures SignaturesKept(signatures, before + [t])
      ensures var signature := ViolationSignature(t.assessment.value);
              signature.Some? ==> Key(signature.value) in signatures && signatures[Key(signature.value)].0 == signature.value
    {
      hide SignaturesKept, Key;
      var signature := ViolationSignature(t.assessment.value);
      if signature.None? {
        SignaturesSame(signatures, before, t);
        return;
      }
      var key := Key(signature.value);
      SignatureAdded(signatures, before, signature.value, t);
      if key !in signatures {
        signatures := signatures[key := (signature.value, Tally(1, t.vsize))];
      } else {
        SameSignature(signatures, before, key, signature.value);
        signatures := signatures[key := (signatures[key].0, Add(signatures[key].1, t))];
      }
    }
  }

  ghost predicate RulesKept(ruleTotals: map<Rule, Tally>, added: seq<MempoolTransaction>) {
    forall r :: r in ruleTotals && ruleTotals[r] == RuleFold(added, r)
  }

  /** The signature buckets: one for each key that occurs, its totals the direct
      fold, and together they count what is violating. */
  ghost predicate SignaturesKept(signatures: map<string, (Signature, Tally)>, added: seq<MempoolTransaction>) {
    && (forall k :: k in signatures <==> Fold(added, OfSignature(k)).count > 0)
    && (forall k :: k in signatures ==> signatures[k].1 == Fold(added, OfSignature(k)) && Key(signatures[k].0) == k)
    && (forall k :: k !in signatures ==> Fold(added, OfSignature(k)) == NOTHING)
    && Sum(signatures, KeyCount) == Fold(added, OfStatus(Assessed(Violating))).count
  }

  ghost predicate AccumulatorOk(
    population: Tally, statusTotals: map<PolicyStatus, Tally>, ruleTotals: map<Rule, Tally>,
    signatures: map<string, (Signature, Tally)>, added: seq<MempoolTransaction>)
  {
    && population == Fold(added, All)
    && (forall s :: s in statusTotals && statusTotals[s] == Fold(added, OfStatus(s)))
    && RulesKept(ruleTotals, added) && SignaturesKept(signatures, added)
  }

  // A transaction that does not violate the policy is in no bucket.
  lemma SignaturesSame(signatures: map<string, (Signature, Tally)>, added: seq<MempoolTransaction>, t: MempoolTransaction)
    requires SignaturesKept(signatures, added) && KeyOf(t) == None
    ensures SignaturesKept(signatures, added + [t])
  {
    hide Fold, Sum;
    FoldMore(added, t);
  }

  lemma FoldMore(added: seq<MempoolTransaction>, t: MempoolTransaction)
    ensures forall filter ::
              Fold(added + [t], filter) == if FilterMatches(t, filter) then Add(Fold(added, filter), t) else Fold(added, filter)
  {
    assert (added + [t])[..|added|] == added;
  }

  lemma RuleFoldMore(added: seq<MempoolTransaction>, t: MempoolTransaction, rule: Rule)
    ensures RuleFold(added + [t], rule) == AddTimes(RuleFold(added, rule), t, Listed(t, rule))
  {
    assert (added + [t])[..|added|] == added;
  }

  lemma RulesUnlisted(ruleTotals: map<Rule, Tally>, added: seq<MempoolTransaction>, t: MempoolTransaction)
    requires t.assessment.None? && RulesKept(ruleTotals, added)
    ensures RulesKept(ruleTotals, added + [t])
  {
    forall r ensures RuleFold(added + [t], r) == RuleFold(added, r) {
      RuleFoldMore(added, t, r);
    }
  }

  // A violating transaction joins the bucket of its own signature.
  lemma SignatureAdded(
    signatures: map<string, (Signature, Tally)>, added: seq<MempoolTransaction>, signature: Signature,
    t: MempoolTransaction)
    requires SignaturesKept(signatures, added) && KeyOf(t) == Some(Key(signature))
    ensures var key := Key(signature);
            SignaturesKept(
              signatures[key := if key in signatures then (signatures[key].0, Add(signatures[key].1, t))
                                else (signature, Tally(1, t.vsize))],
              added + [t])
  {
    hide Fold, Sum, Key;
    var key := Key(signature);
    FoldMore(added, t);
    if key in signatures {
      SumInsert(signatures, key, (signatures[key].0, Add(signatures[key].1, t)), KeyCount);
    } else {
      SumInsert(signatures, key, (signature, Tally(1, t.vsize)), KeyCount);
    }
  }

  // A bucket keeps the signature of every transaction that joins it.
  lemma SameSignature(
    signatures: map<string, (Signature, Tally)>, added: seq<MempoolTransaction>, key: string, signature: Signature)
    requires SignaturesKept(signatures, added) && key in signatures && key == Key(signature)
    ensures signatures[key].0 == signature
  {
    KeyInjective(signatures[key].0, signature);
  }

  // --- finished slices -------------------------------------------------------------------

  datatype SliceState = SliceState(
    population: Tally, statusTotals: map<PolicyStatus, Tally>, ruleTotals: map<Rule, Tally>,
    exactSignatures: map<string, (Signature, Tally)>, partialSignatures: map<string, (Signature, Tally)>,
    signatureTotals: map<string, Tally>)

  ghost predicate StateOk(state: SliceState, added: seq<MempoolTransaction>) {
    && state.population == Fold(added, All)
    && (forall s :: s in state.statusTotals && state.statusTotals[s] == Fold(added, OfStatus(s)))
    && RulesKept(state.ruleTotals, added)
    && (forall k :: Fold(added, OfSignature(k)) == if k in state.signatureTotals then state.signatureTotals[k] else NOTHING)
  }

  /** Exact and partial combinations together are what violates the policy. */
  method FinishSlice(accumulator: SliceAccumulator) returns (state: SliceState)
    requires accumulator.Valid()
    ensures StateOk(state, accumulator.added)
    ensures forall k :: k in state.exactSignatures ==> state.exactSignatures[k].0.Exact()
    ensures forall k :: k in state.partialSignatures ==> !state.partialSignatures[k].0.Exact()
    ensures Splits(accumulator.signatures, state.exactSignatures, state.partialSignatures)
    ensures Sum(state.exactSignatures, KeyCount) + Sum(state.partialSignatures, KeyCount)
            == Fold(accumulator.added, OfStatus(Assessed(Violating))).count
  {
    hide Sum, Fold, RuleFold, SignaturesKept;
    var signatures := accumulator.signatures;
    var exact := map k | k in signatures && signatures[k].0.Exact() :: signatures[k];
    var partial := map k | k in signatures && !signatures[k].0.Exact() :: signatures[k];
    state := SliceState(
      accumulator.population, accumulator.statusTotals, accumulator.ruleTotals, exact, partial,
      map k | k in signatures :: signatures[k].1);
    BucketTotals(signatures, exact, partial, state.signatureTotals, accumulator.added);
  }

  lemma BucketTotals(
    signatures: map<string, (Signature, Tally)>, exact: map<string, (Signature, Tally)>,
    partial: map<string, (Signature, Tally)>, totals: map<string, Tally>, added: seq<MempoolTransaction>)
    requires SignaturesKept(signatures, added) && Splits(signatures, exact, partial)
    requires totals.Keys == signatures.Keys && forall k :: k in totals ==> totals[k] == signatures[k].1
    ensures forall k :: Fold(added, OfSignature(k)) == if k in totals then totals[k] else NOTHING
    ensures Sum(exact, KeyCount) + Sum(partial, KeyCount) == Fold(added, OfStatus(Assessed(Violating))).count
  {
    hide Sum, Fold;
    SumSplit(signatures, exact, partial, KeyCount);
  }

  function TotalsOf(state: SliceState, filter: Filter): Tally
    requires forall s :: s in state.statusTotals
    requires forall r :: r in state.ruleTotals
  {
    match filter
    case All => state.population
    case OfStatus(status) => state.statusTotals[status]
    case OfRule(rule) => state.ruleTotals[rule]
    case OfSignature(key) => if key in state.signatureTotals then state.signatureTotals[key] else NOTHING
  }

  lemma TotalsAreKept(state: SliceState, added: seq<MempoolTransaction>, filter: Filter)
    requires StateOk(state, added)
    ensures TotalsOf(state, filter) == Kept(added, filter)
  {
    hide Fold, RuleFold;
  }

  // --- the bounded sample ----------------------------------------------------------------

  const SAMPLE_LIMIT: nat := 12

  // Larger transactions first, equal ones by identifier.
  predicate AtOrBefore(a: ComparedTransaction, b: ComparedTransaction, side: Side) {
    var x := if SourceEntry(a, side).Some? then SourceEntry(a, side).value.vsize else 0;
    var y := if SourceEntry(b, side).Some? then SourceEntry(b, side).value.vsize else 0;
    y < x || (x == y && a.txid <= b.txid)
  }

  function Inserted(s: seq<ComparedTransaction>, e: ComparedTransaction, side: Side): seq<ComparedTransaction> {
    if s != [] && AtOrBefore(s[0], e, side) then [s[0]] + Inserted(s[1..], e, side) else [e] + s
  }

  // All entries in sample order.
  function Ranked(entries: seq<ComparedTransaction>, side: Side): seq<ComparedTransaction> {
    if entries == [] then [] else Inserted(Ranked(entries[..|entries| - 1], side), entries[|entries| - 1], side)
  }

  function Top(s: seq<ComparedTransaction>): seq<ComparedTransaction> {
    if |s| <= SAMPLE_LIMIT then s else s[..SAMPLE_LIMIT]
  }

  ghost predicate InOrder(s: seq<ComparedTransaction>, side: Side) {
    forall i, j :: 0 <= i < j < |s| ==> AtOrBefore(s[i], s[j], side)
  }

  lemma OrderTotal(a: ComparedTransaction, b: ComparedTransaction, side: Side)
    ensures AtOrBefore(a, b, side) || AtOrBefore(b, a, side)
  {
  }

  lemma OrderTransitive(a: ComparedTransaction, b: ComparedTransaction, c: ComparedTransaction, side: Side)
    requires AtOrBefore(a, b, side) && AtOrBefore(b, c, side)
    ensures AtOrBefore(a, c, side)
  {
  }

  // The entry goes where the first entry after it stands.
  lemma {:induction false} InsertedAt(s: seq<ComparedTransaction>, e: ComparedTransaction, side: Side, index: nat)
    requires index <= |s| && forall k :: 0 <= k < index ==> AtOrBefore(s[k], e, side)
    requires index < |s| ==> !AtOrBefore(s[index], e, side)
    ensures Inserted(s, e, side) == s[..index] + [e] + s[index..]
  {
    hide AtOrBefore;
    if index > 0 {
      InsertedAt(s[1..], e, side, index - 1);
      assert s[..index] == [s[0]] + s[1..][..index - 1];
    }
  }

  lemma InsertedOrder(s: seq<ComparedTransaction>, e: ComparedTransaction, side: Side)
    requires InOrder(s, side)
    ensures InOrder(Inserted(s, e, side), side) && multiset(Inserted(s, e, side)) == multiset(s) + multiset{e}
  {
    hide AtOrBefore, Inserted, InOrder;
    var index := FirstAfter(s, e, side);
    InsertedAt(s, e, side, index);
    RestAfter(s, e, side, index);
    OrderJoined(s, e, side, index);
    assert s == s[..index] + s[index..];
  }

  lemma RestAfter(s: seq<ComparedTransaction>, e: ComparedTransaction, side: Side, index: nat)
    requires InOrder(s, side) && index <= |s|
    requires index < |s| ==> !AtOrBefore(s[index], e, side)
    ensures forall k :: index <= k < |s| ==> AtOrBefore(e, s[k], side)
  {
    hide AtOrBefore;
    forall k | index <= k < |s| ensures AtOrBefore(e, s[k], side) {
      OrderTotal(s[index], e, side);
      if k > index {
        OrderTransitive(e, s[index], s[k], side);
      }
    }
  }

  lemma OrderJoined(s: seq<ComparedTransaction>, e: ComparedTransaction, side: Side, index: nat)
    requires InOrder(s, side) && index <= |s|
    requires forall k :: 0 <= k < index ==> AtOrBefore(s[k], e, side)
    requires forall k :: index <= k < |s| ==> AtOrBefore(e, s[k], side)
    ensures InOrder(s[..index] + [e] + s[index..], side)
  {
    hide AtOrBefore;
    var t := s[..index] + [e] + s[index..];
    assert |t| == |s| + 1 && t[index] == e;
    assert forall k :: 0 <= k < index ==> t[k] == s[k];
    assert forall k :: index < k < |t| ==> t[k] == s[k - 1];
  }

  function FirstAfter(s: seq<ComparedTransaction>, e: ComparedTransaction, side: Side): (index: nat)
    ensures index <= |s| && forall k :: 0 <= k < index ==> AtOrBefore(s[k], e, side)
    ensures index < |s| ==> !AtOrBefore(s[index], e, side)
  {
    if s != [] && AtOrBefore(s[0], e, side) then FirstAfter(s[1..], e, side) + 1 else 0
  }

  /** The ranking is a sorted permutation of the entries. */
  lemma {:induction false} RankedOrder(entries: seq<ComparedTransaction>, side: Side)
    ensures InOrder(Ranked(entries, side), side) && multiset(Ranked(entries, side)) == multiset(entries)
  {
    if entries != [] {
      var front, last := entries[..|entries| - 1], entries[|entries| - 1];
      RankedOrder(front, side);
      InsertedOrder(Ranked(front, side), last, side);
      assert entries == front + [last];
    }
  }

  ghost predicate DistinctTxids(entries: seq<ComparedTransaction>) {
    forall a, b :: a in entries && b in entries && a.txid == b.txid ==> a == b
  }

  // Both orders start with the same entry.
  lemma SameFirst(a: seq<ComparedTransaction>, b: seq<ComparedTransaction>, side: Side)
    requires InOrder(a, side) && InOrder(b, side) && multiset(a) == multiset(b) && DistinctTxids(a)
    requires a != [] && b != []
    ensures a[0] == b[0]
  {
    assert a[0] in multiset(b) && b[0] in multiset(a);
    var i :| 0 <= i < |b| && b[i] == a[0];
    var j :| 0 <= j < |a| && a[j] == b[0];
    assert i == 0 || AtOrBefore(b[0], b[i], side);
    assert j == 0 || AtOrBefore(a[0], a[j], side);
  }

  lemma TailOrder(a: seq<ComparedTransaction>, side: Side)
    requires InOrder(a, side) && DistinctTxids(a) && a != []
    ensures InOrder(a[1..], side) && DistinctTxids(a[1..]) && multiset(a[1..]) == multiset(a) - multiset{a[0]}
  {
    hide AtOrBefore;
    assert a == [a[0]] + a[1..];
    forall x | x in a[1..] ensures x in a {
    }
  }

  lemma SameMembers(a: seq<ComparedTransaction>, b: seq<ComparedTransaction>)
    requires multiset(a) == multiset(b) && DistinctTxids(a)
    ensures DistinctTxids(b) && |a| == |b|
  {
    forall x | x in b ensures x in a {
      assert x in multiset(b);
    }
    assert |a| == |multiset(a)| == |multiset(b)| == |b|;
  }

  /** With distinct identifiers there is only one sorted permutation. */
  lemma {:induction false} OnlyOneOrder(a: seq<ComparedTransaction>, b: seq<ComparedTransaction>, side: Side)
    requires InOrder(a, side) && InOrder(b, side) && multiset(a) == multiset(b) && DistinctTxids(a)
    ensures a == b
    decreases |a|
  {
    hide InOrder, DistinctTxids;
    SameMembers(a, b);
    if a != [] {
      SameFirst(a, b, side);
      TailOrder(a, side);
      TailOrder(b, side);
      OnlyOneOrder(a[1..], b[1..], side);
      assert a == [a[0]] + a[1..] && b == [b[0]] + b[1..];
    }
  }

  lemma {:induction false} PrefixInserted(s: seq<ComparedTransaction>, e: ComparedTransaction, side: Side, n: nat)
    requires n <= |s|
    ensures |Inserted(s, e, side)| == |s| + 1 && |Inserted(s[..n], e, side)| == n + 1
    ensures Inserted(s, e, side)[..n] == Inserted(s[..n], e, side)[..n]
  {
    if s != [] && AtOrBefore(s[0], e, side) {
      if n > 0 {
        assert s[..n][1..] == s[1..][..n - 1];
        PrefixInserted(s[1..], e, side, n - 1);
      } else {
        PrefixInserted(s[1..], e, side, 0);
      }
    }
  }

  /** Keeping only the best twelve at each step loses nothing. */
  lemma TopInserted(s: seq<ComparedTransaction>, e: ComparedTransaction, side: Side)
    ensures Top(Inserted(s, e, side)) == Top(Inserted(Top(s), e, side))
  {
    if |s| > SAMPLE_LIMIT {
      PrefixInserted(s, e, side, SAMPLE_LIMIT);
    }
  }

  method AddToBoundedSample(sample: seq<ComparedTransaction>, e: ComparedTransaction, side: Side)
    returns (result: seq<ComparedTransaction>)
    requires |sample| <= SAMPLE_LIMIT
    ensures result == Top(Inserted(sample, e, side)) && |result| <= SAMPLE_LIMIT
  {
    hide AtOrBefore, Inserted;
    var index := 0;
    while index < |sample| && AtOrBefore(sample[index], e, side)
      invariant index <= |sample| && forall k :: 0 <= k < index ==> AtOrBefore(sample[k], e, side)
    {
      index := index + 1;
    }
    InsertedAt(sample, e, side, index);
    if index >= SAMPLE_LIMIT {
      return sample;
    }
    result := sample[..index] + [e] + sample[index..];
    if |result| > SAMPLE_LIMIT {
      result := result[..|result| - 1];
    }
  }

  // The virtual size of an entry that has a transaction on this side.
  function VsizeAt(e: ComparedTransaction, side: Side): nat {
    match side
    case Left => if e.left.Some? then e.left.value.vsize else 0
    case Right => if e.right.Some? then e.right.value.vsize else 0
  }

  /** The sample of these matches: at most twelve, the largest first, equal ones by
      increasing identifier; what is left out is no larger than anything sampled, and
      comes after it when equal. */
  ghost predicate LargestTwelve(sample: seq<ComparedTransaction>, matches: seq<ComparedTransaction>, side: Side) {
    && |sample| == (if |matches| < 12 then |matches| else 12)
    && multiset(sample) <= multiset(matches)
    && (forall i, j :: 0 <= i < j < |sample| ==> LargerOrFirst(sample[i], sample[j], side))
    && (forall s, e :: s in sample && e in multiset(matches) - multiset(sample) ==> LargerOrFirst(s, e, side))
  }

  predicate LargerOrFirst(a: ComparedTransaction, b: ComparedTransaction, side: Side) {
    VsizeAt(a, side) > VsizeAt(b, side) || (VsizeAt(a, side) == VsizeAt(b, side) && a.txid <= b.txid)
  }

  // The entry's transaction on this side is what the filter asks for.
  ghost predicate Matches(e: ComparedTransaction, side: Side, filter: Filter) {
    && (if side.Left? then e.left else e.right).Some?
    && var assessment := (if side.Left? then e.left else e.right).value.assessment;
       match filter
       case All => true
       case OfStatus(Unclassified) => assessment.None?
       case OfStatus(Assessed(status)) => assessment.Some? && assessment.value.status == status
       case OfRule(rule) => assessment.Some? && rule in assessment.value.violatedRules
       case OfSignature(key) =>
         && assessment.Some? && assessment.value.status == Violating
         && key == Key(Signature(Elements(assessment.value.violatedRules), Elements(assessment.value.unknownRules)))
  }

  // The sample is taken from exactly the entries the filter asks for.
  ghost predicate SampleSays(
    sample: seq<ComparedTransaction>, entries: seq<ComparedTransaction>, side: Side, filter: Filter)
  {
    && LargestTwelve(sample, Matching(entries, side, filter), side)
    && forall e :: e in Matching(entries, side, filter) <==> e in entries && Matches(e, side, filter)
  }

  lemma SampledLargest(entries: seq<ComparedTransaction>, side: Side, filter: Filter)
    ensures SampleSays(Top(Ranked(Matching(entries, side, filter), side)), entries, side, filter)
  {
    hide Ranked, LargestTwelve, Matches;
    var matches := Matching(entries, side, filter);
    RankedOrder(matches, side);
    TopLargest(Ranked(matches, side), matches, side);
    MatchingContents(entries, side, filter);
  }

  lemma TopLargest(ranked: seq<ComparedTransaction>, matches: seq<ComparedTransaction>, side: Side)
    requires InOrder(ranked, side) && multiset(ranked) == multiset(matches)
    ensures LargestTwelve(Top(ranked), matches, side)
  {
    hide AtOrBefore, LargerOrFirst, Top, InOrder;
    var sample := Top(ranked);
    TopParts(ranked, matches);
    RankedMeans(ranked, side);
    forall s, e | s in sample && e in multiset(matches) - multiset(sample) ensures LargerOrFirst(s, e, side) {
      var i :| 0 <= i < |sample| && sample[i] == s;
      var j :| |sample| <= j < |ranked| && ranked[j] == e;
      assert LargerOrFirst(ranked[i], ranked[j], side);
    }
    forall i, j | 0 <= i < j < |sample| ensures LargerOrFirst(sample[i], sample[j], side) {
      assert LargerOrFirst(ranked[i], ranked[j], side);
    }
  }

  lemma RankedMeans(ranked: seq<ComparedTransaction>, side: Side)
    requires InOrder(ranked, side)
    ensures forall i, j :: 0 <= i < j < |ranked| ==> LargerOrFirst(ranked[i], ranked[j], side)
  {
    hide AtOrBefore, LargerOrFirst;
    forall i, j | 0 <= i < j < |ranked| ensures LargerOrFirst(ranked[i], ranked[j], side) {
      OrderMeans(ranked[i], ranked[j], side);
    }
  }

  lemma TopParts(ranked: seq<ComparedTransaction>, matches: seq<ComparedTransaction>)
    requires multiset(ranked) == multiset(matches)
    ensures var sample := Top(ranked);
            && |sample| == (if |matches| < 12 then |matches| else 12) && sample <= ranked
            && multiset(sample) <= multiset(matches)
            && forall e :: e in multiset(matches) - multiset(sample) ==>
                 exists j :: |sample| <= j < |ranked| && ranked[j] == e
  {
    var sample := Top(ranked);
    assert |ranked| == |multiset(ranked)| == |multiset(matches)| == |matches|;
    var rest := ranked[|sample|..];
    assert ranked == sample + rest;
    forall e | e in multiset(matches) - multiset(sample) ensures exists j :: |sample| <= j < |ranked| && ranked[j] == e {
      assert e in multiset(rest);
      var j :| 0 <= j < |rest| && rest[j] == e;
      assert ranked[|sample| + j] == e;
    }
  }

  lemma OrderMeans(a: ComparedTransaction, b: ComparedTransaction, side: Side)
    ensures AtOrBefore(a, b, side) <==> LargerOrFirst(a, b, side)
  {
  }

  lemma {:induction false} MatchingContents(entries: seq<ComparedTransaction>, side: Side, filter: Filter)
    ensures forall e :: e in Matching(entries, side, filter) <==> e in entries && Matches(e, side, filter)
  {
    if entries != [] {
      var front, last := entries[..|entries| - 1], entries[|entries| - 1];
      assert entries == front + [last];
      MatchingContents(front, side, filter);
      EntryMeaning(last, side, filter);
    }
  }

  lemma EntryMeaning(e: ComparedTransaction, side: Side, filter: Filter)
    ensures EntryMatches(e, side, filter) <==> Matches(e, side, filter)
  {
  }

  // --- memo keys ---------------------------------------------------------------------------

  function RegionName(region: Region): string {
    match region
    case Common => "common"
    case LeftOnly => "left_only"
    case RightOnly => "right_only"
  }

  function SideName(side: Side): string {
    if side.Left? then "left" else "right"
  }

  function StatusName(status: PolicyStatus): string {
    match status
    case Assessed(Compatible) => "compatible"
    case Assessed(Violating) => "violating"
    case Assessed(Indeterminate) => "indeterminate"
    case Unclassified => "unclassified"
  }

  function RuleName(rule: Rule): string {
    match rule
    case OutputSize => "output_size"
    case ElementSize => "element_size"
    case UndefinedVersion => "undefined_version"
    case TaprootAnnex => "taproot_annex"
    case ControlBlockSize => "control_block_size"
    case OpSuccess => "op_success"
    case TapscriptOpIf => "tapscript_op_if"
  }

  function FilterKey(filter: Filter): string {
    match filter
    case All => "all"
    case OfStatus(status) => "status:" + StatusName(status)
    case OfRule(rule) => "rule:" + RuleName(rule)
    case OfSignature(key) => "signature:" + key
  }

  function SliceKey(region: Region, side: Side): string {
    RegionName(region) + ":" + SideName(PolicySideForRegion(region, side))
  }

  function MemoKey(region: Region, side: Side, filter: Filter): string {
    SliceKey(region, side) + ":" + FilterKey(filter)
  }

  lemma {:induction false} SplitAtColon(a: string, x: string, b: string, y: string)
    requires a + ":" + x == b + ":" + y && ':' !in a && ':' !in b
    ensures a == b && x == y
  {
    var whole := a + ":" + x;
    assert whole[|a|] == ':' && forall i :: 0 <= i < |a| ==> whole[i] == a[i] != ':';
    assert whole == b + ":" + y;
    assert whole[|b|] == ':' && forall i :: 0 <= i < |b| ==> whole[i] == b[i] != ':';
    assert |a| == |b|;
    assert a == whole[..|a|] == b;
    assert x == whole[|a| + 1..] == y;
  }

  lemma NamesInjective(a: Region, b: Region, x: Side, y: Side)
    ensures RegionName(a) == RegionName(b) ==> a == b
    ensures SideName(x) == SideName(y) ==> x == y
    ensures ':' !in RegionName(a) && ':' !in SideName(x)
  {
    assert |RegionName(Common)| == 6 && |RegionName(LeftOnly)| == 9 && |RegionName(RightOnly)| == 10;
    assert |SideName(Left)| == 4 && |SideName(Right)| == 5;
  }

  // The names of statuses and of rules differ in length.
  lemma StatusNameInjective(a: PolicyStatus, b: PolicyStatus)
    requires StatusName(a) == StatusName(b)
    ensures a == b
  {
    assert |StatusName(a)| == |StatusName(b)|;
  }

  lemma RuleNameInjective(a: Rule, b: Rule)
    requires RuleName(a) == RuleName(b)
    ensures a == b
  {
    assert |RuleName(a)| == |RuleName(b)|;
  }

  lemma FilterKeyInjective(a: Filter, b: Filter)
    requires FilterKey(a) == FilterKey(b)
    ensures a == b
  {
    hide StatusName, RuleName;
    assert FilterKey(a)[0] == FilterKey(b)[0] && FilterKey(a)[1] == FilterKey(b)[1];
    match a
    case All =>
    case OfStatus(status) =>
      assert FilterKey(a)[7..] == StatusName(status) && FilterKey(b)[7..] == StatusName(b.status);
      StatusNameInjective(status, b.status);
    case OfRule(rule) =>
      assert FilterKey(a)[5..] == RuleName(rule) && FilterKey(b)[5..] == RuleName(b.rule);
      RuleNameInjective(rule, b.rule);
    case OfSignature(key) =>
      assert FilterKey(a)[10..] == key && FilterKey(b)[10..] == b.key;
  }

  lemma SliceKeyInjective(a: Region, x: Side, b: Region, y: Side)
    requires SliceKey(a, x) == SliceKey(b, y)
    ensures a == b && PolicySideForRegion(a, x) == PolicySideForRegion(b, y)
  {
    hide RegionName, SideName;
    NamesInjective(a, b, PolicySideForRegion(a, x), PolicySideForRegion(b, y));
    NamesInjective(b, a, PolicySideForRegion(b, y), PolicySideForRegion(a, x));
    SplitAtColon(RegionName(a), SideName(PolicySideForRegion(a, x)), RegionName(b), SideName(PolicySideForRegion(b, y)));
  }

  /** A remembered population is never given for another region, side or filter. */
  lemma MemoKeyInjective(a: Region, x: Side, f: Filter, b: Region, y: Side, g: Filter)
    requires MemoKey(a, x, f) == MemoKey(b, y, g)
    ensures a == b && PolicySideForRegion(a, x) == PolicySideForRegion(b, y) && f == g
  {
    hide RegionName, SideName, FilterKey;
    var s, t := PolicySideForRegion(a, x), PolicySideForRegion(b, y);
    NamesInjective(a, b, s, t);
    NamesInjective(b, a, t, s);
    assert MemoKey(a, x, f) == RegionName(a) + ":" + (SideName(s) + ":" + FilterKey(f));
    assert MemoKey(b, y, g) == RegionName(b) + ":" + (SideName(t) + ":" + FilterKey(g));
    SplitAtColon(RegionName(a), SideName(s) + ":" + FilterKey(f), RegionName(b), SideName(t) + ":" + FilterKey(g));
    SplitAtColon(SideName(s), FilterKey(f), SideName(t), FilterKey(g));
    FilterKeyInjective(f, g);
  }

  // --- the view ------------------------------------------------------------------------------

  datatype Population = Population(count: nat, vsize: nat, sample: seq<ComparedTransaction>)

  // Every entry of a region has a transaction on the region's sides.
  ghost predicate Sided(entries: seq<ComparedTransaction>, side: Side) {
    forall e :: e in entries ==> SourceEntry(e, side).Some?
  }

  ghost predicate WellSided(comparison: Comparison) {
    forall region, side :: Sided(comparison.Entries(region), PolicySideForRegion(region, side))
  }

  /** Comparisons made by the merge join are well sided. */
  lemma JoinedIsWellSided(c: Comparison)
    requires Joined(c.left.transactions, c.right.transactions, c.common, c.leftOnly, c.rightOnly)
    ensures WellSided(c)
  {
  }

  function Sides(entries: seq<ComparedTransaction>, side: Side): seq<MempoolTransaction>
    requires Sided(entries, side)
  {
    seq(|entries|, i requires 0 <= i < |entries| => SourceEntry(entries[i], side).value)
  }

  predicate EntryMatches(e: ComparedTransaction, side: Side, filter: Filter) {
    SourceEntry(e, side).Some? && FilterMatches(SourceEntry(e, side).value, filter)
  }

  function Matching(entries: seq<ComparedTransaction>, side: Side, filter: Filter): seq<ComparedTransaction> {
    if entries == [] then []
    else
      var last := entries[|entries| - 1];
      Matching(entries[..|entries| - 1], side, filter) + (if EntryMatches(last, side, filter) then [last] else [])
  }

  /** What a population says: the kept totals of its slice, and the first twelve of
      its entries in sample order. */
  ghost predicate PopulationOk(p: Population, entries: seq<ComparedTransaction>, side: Side, filter: Filter)
    requires Sided(entries, side)
  {
    && Tally(p.count, p.vsize) == Kept(Sides(entries, side), filter)
    && p.sample == Top(Ranked(Matching(entries, side, filter), side))
  }

  lemma {:induction false} NothingMatches(entries: seq<ComparedTransaction>, side: Side, filter: Filter)
    requires Sided(entries, side) && Kept(Sides(entries, side), filter).count == 0
    ensures Matching(entries, side, filter) == [] && Kept(Sides(entries, side), filter) == Tally(0, 0)
  {
    NothingKept(Sides(entries, side), filter);
    forall e | e in entries ensures !EntryMatches(e, side, filter) {
      var i :| 0 <= i < |entries| && entries[i] == e;
      assert Sides(entries, side)[i] in Sides(entries, side);
    }
    NoneMatching(entries, side, filter);
  }

  lemma {:induction false} NoneMatching(entries: seq<ComparedTransaction>, side: Side, filter: Filter)
    requires forall e :: e in entries ==> !EntryMatches(e, side, filter)
    ensures Matching(entries, side, filter) == []
  {
    if entries != [] {
      assert entries[|entries| - 1] in entries;
      NoneMatching(entries[..|entries| - 1], side, filter);
    }
  }

  lemma SidesMore(entries: seq<ComparedTransaction>, side: Side, i: nat)
    requires Sided(entries, side) && i < |entries|
    ensures Sided(entries[..i], side) && Sided(entries[..i + 1], side) && SourceEntry(entries[i], side).Some?
    ensures Sides(entries[..i + 1], side) == Sides(entries[..i], side) + [SourceEntry(entries[i], side).value]
  {
    assert entries[i] in entries;
  }

  class ComparisonPolicyView {
    const comparison: Comparison
    var slices: map<string, SliceState>
    var populations: map<string, Population>

    ghost predicate Valid()
      reads this
    {
      WellSided(comparison) && SlicesOk(comparison, slices) && MemoOk(comparison, populations)
    }

    constructor (comparison: Comparison)
      requires WellSided(comparison)
      ensures Valid() && this.comparison == comparison
    {
      this.comparison := comparison;
      slices, populations := map[], map[];
      new;
      hide StateOk;
      var leftOnly := GatherSlice(LeftOnly, Left);
      var commonLeft := GatherSlice(Common, Left);
      var commonRight := GatherSlice(Common, Right);
      var rightOnly := GatherSlice(RightOnly, Right);
      slices := map[
        SliceKey(LeftOnly, Left) := leftOnly, SliceKey(Common, Left) := commonLeft,
        SliceKey(Common, Right) := commonRight, SliceKey(RightOnly, Right) := rightOnly];
      SlicesComplete(comparison, slices, leftOnly, commonLeft, commonRight, rightOnly);
    }

    // One pass over a region gathers the totals of one of its sides.
    method GatherSlice(region: Region, side: Side) returns (state: SliceState)
      requires WellSided(comparison) && side == PolicySideForRegion(region, side)
      ensures StateOk(state, Sides(comparison.Entries(region), side))
    {
      hide StateOk, AccumulatorOk, Fold, Sum;
      var accumulator := new SliceAccumulator();
      var entries := comparison.Entries(region);
      assert Sided(entries, PolicySideForRegion(region, side));
      for i := 0 to |entries|
        invariant accumulator.Valid() && fresh(accumulator)
        invariant Sided(entries[..i], side) && accumulator.added == Sides(entries[..i], side)
      {
        SidesMore(entries, side, i);
        accumulator.AddTransaction(SourceEntry(entries[i], side).value);
      }
      assert entries[..|entries|] == entries;
      state := FinishSlice(accumulator);
    }

    /** The population of a region, side and filter, computed once. In any order of
        calls it is the same, and for duplicate-free rule lists its totals are the
        direct fold. */
    method PopulationFor(region: Region, side: Side, filter: Filter) returns (population: Population)
      requires Valid()
      modifies this`populations
      ensures Valid()
      ensures PopulationOk(population, comparison.Entries(region), PolicySideForRegion(region, side), filter)
      ensures var sides := Sides(comparison.Entries(region), PolicySideForRegion(region, side));
              RulesDistinct(sides) ==> Tally(population.count, population.vsize) == Fold(sides, filter)
      ensures var effective := if region.LeftOnly? then Left else if region.RightOnly? then Right else side;
              var matches := Matching(comparison.Entries(region), effective, filter);
              RulesDistinct(Sides(comparison.Entries(region), effective)) ==>
                population.count == |matches| && population.vsize == VsizeOn(matches, effective)
      ensures forall k :: k in old(populations) ==> k in populations && populations[k] == old(populations)[k]
      ensures SampleSays(
                population.sample, comparison.Entries(region),
                if region.LeftOnly? then Left else if region.RightOnly? then Right else side, filter)
    {
      hide SampleSays, StateOk, Kept, Top, Ranked, Matching, Fold, RulesDistinct, MemoKey, SliceKey;
      var effectiveSide := PolicySideForRegion(region, side);
      SampledLargest(comparison.Entries(region), effectiveSide, filter);
      var entries := comparison.Entries(region);
      assert Sided(entries, effectiveSide);
      ghost var sides := Sides(entries, effectiveSide);
      if RulesDistinct(sides) {
        KeptIsFold(sides, filter);
        FoldCounts(entries, effectiveSide, filter);
      }
      var key := MemoKey(region, side, filter);
      if key in populations {
        return populations[key];
      }
      var totals := TotalsFor(region, side, filter);
      if totals.count == 0 {
        NothingMatches(entries, effectiveSide, filter);
        NothingRanked(effectiveSide);
        population := Population(0, 0, []);
      } else {
        var sample := Sample(entries, effectiveSide, filter);
        population := Population(totals.count, totals.vsize, sample);
      }
      MemoMore(comparison, populations, region, side, filter, population);
      populations := populations[key := population];
    }

    method TotalsFor(region: Region, side: Side, filter: Filter) returns (totals: Tally)
      requires Valid()
      ensures totals == Kept(Sides(comparison.Entries(region), PolicySideForRegion(region, side)), filter)
    {
      hide Kept, Fold, RuleFold, SliceKey;
      var state := slices[SliceKey(region, side)];
      ghost var sides := Sides(comparison.Entries(region), PolicySideForRegion(region, side));
      TotalsAreKept(state, sides, filter);
      totals := TotalsOf(state, filter);
    }
  }

  // The direct fold counts the matches and adds up what they weigh.
  lemma {:induction false} FoldCounts(entries: seq<ComparedTransaction>, side: Side, filter: Filter)
    requires Sided(entries, side)
    ensures var matches := Matching(entries, side, filter);
            Fold(Sides(entries, side), filter) == Tally(|matches|, VsizeOn(matches, side))
  {
    hide FilterMatches;
    if entries != [] {
      var front, last := entries[..|entries| - 1], entries[|entries| - 1];
      FoldCounts(front, side, filter);
      var sides := Sides(entries, side);
      assert sides[..|sides| - 1] == Sides(front, side);
      assert SourceEntry(last, side) == Some(sides[|sides| - 1]);
      var matches := Matching(front, side, filter);
      VsizeMore(matches, last, side);
      assert EntryMatches(last, side, filter) <==> FilterMatches(sides[|sides| - 1], filter);
    }
  }

  lemma VsizeMore(entries: seq<ComparedTransaction>, last: ComparedTransaction, side: Side)
    requires SourceEntry(last, side).Some?
    ensures VsizeOn(entries + [last], side) == VsizeOn(entries, side) + SourceEntry(last, side).value.vsize
    ensures entries + [] == entries
  {
    assert (entries + [last])[..|entries|] == entries;
  }

  lemma NothingRanked(side: Side)
    ensures Top(Ranked([], side)) == []
  {
  }

  // The best entries, gathered in one pass.
  method Sample(entries: seq<ComparedTransaction>, side: Side, filter: Filter) returns (sample: seq<ComparedTransaction>)
    ensures sample == Top(Ranked(Matching(entries, side, filter), side))
  {
    hide Inserted, Top, FilterMatches;
    sample := [];
    NothingRanked(side);
    assert entries[..0] == [];
    for i := 0 to |entries|
      invariant sample == Top(Ranked(Matching(entries[..i], side, filter), side)) && |sample| <= SAMPLE_LIMIT
    {
      assert entries[..i + 1][..i] == entries[..i];
      var before := Matching(entries[..i], side, filter);
      if EntryMatches(entries[i], side, filter) {
        assert Matching(entries[..i + 1], side, filter) == before + [entries[i]];
        assert (before + [entries[i]])[..|before|] == before;
        TopInserted(Ranked(before, side), entries[i], side);
        sample := AddToBoundedSample(sample, entries[i], side);
      } else {
        assert Matching(entries[..i + 1], side, filter) == before;
      }
    }
    assert entries[..|entries|] == entries;
  }

  ghost predicate SlicesOk(comparison: Comparison, slices: map<string, SliceState>)
    requires WellSided(comparison)
  {
    forall region, side ::
      && SliceKey(region, side) in slices
      && StateOk(slices[SliceKey(region, side)], Sides(comparison.Entries(region), PolicySideForRegion(region, side)))
  }

  ghost predicate MemoOk(comparison: Comparison, populations: map<string, Population>)
    requires WellSided(comparison)
  {
    forall region, side, filter :: MemoKey(region, side, filter) in populations ==>
      PopulationOk(
        populations[MemoKey(region, side, filter)], comparison.Entries(region), PolicySideForRegion(region, side), filter)
  }

  lemma SlicesComplete(
    comparison: Comparison, slices: map<string, SliceState>, leftOnly: SliceState, commonLeft: SliceState,
    commonRight: SliceState, rightOnly: SliceState)
    requires WellSided(comparison)
    requires slices == map[
               SliceKey(LeftOnly, Left) := leftOnly, SliceKey(Common, Left) := commonLeft,
               SliceKey(Common, Right) := commonRight, SliceKey(RightOnly, Right) := rightOnly]
    requires StateOk(leftOnly, Sides(comparison.leftOnly, Left)) && StateOk(rightOnly, Sides(comparison.rightOnly, Right))
    requires StateOk(commonLeft, Sides(comparison.common, Left)) && StateOk(commonRight, Sides(comparison.common, Right))
    ensures SlicesOk(comparison, slices)
  {
    hide StateOk;
    forall region, side
      ensures SliceKey(region, side) in slices
              && StateOk(slices[SliceKey(region, side)], Sides(comparison.Entries(region), PolicySideForRegion(region, side)))
    {
      var effective := PolicySideForRegion(region, side);
      assert SliceKey(region, side) == SliceKey(region, effective);
      KeysDiffer();
    }
  }

  lemma KeysDiffer()
    ensures SliceKey(LeftOnly, Left) != SliceKey(Common, Left) && SliceKey(Common, Left) != SliceKey(Common, Right)
    ensures SliceKey(LeftOnly, Left) != SliceKey(Common, Right) && SliceKey(LeftOnly, Left) != SliceKey(RightOnly, Right)
    ensures SliceKey(Common, Left) != SliceKey(RightOnly, Right) && SliceKey(Common, Right) != SliceKey(RightOnly, Right)
  {
    if SliceKey(LeftOnly, Left) == SliceKey(Common, Left) { SliceKeyInjective(LeftOnly, Left, Common, Left); }
    if SliceKey(Common, Left) == SliceKey(Common, Right) { SliceKeyInjective(Common, Left, Common, Right); }
    if SliceKey(LeftOnly, Left) == SliceKey(Common, Right) { SliceKeyInjective(LeftOnly, Left, Common, Right); }
    if SliceKey(LeftOnly, Left) == SliceKey(RightOnly, Right) { SliceKeyInjective(LeftOnly, Left, RightOnly, Right); }
    if SliceKey(Common, Left) == SliceKey(RightOnly, Right) { SliceKeyInjective(Common, Left, RightOnly, Right); }
    if SliceKey(Common, Right) == SliceKey(RightOnly, Right) { SliceKeyInjective(Common, Right, RightOnly, Right); }
  }

  lemma MemoMore(
    comparison: Comparison, populations: map<string, Population>, region: Region, side: Side, filter: Filter,
    population: Population)
    requires WellSided(comparison) && MemoOk(comparison, populations)
    requires PopulationOk(population, comparison.Entries(region), PolicySideForRegion(region, side), filter)
    ensures MemoOk(comparison, populations[MemoKey(region, side, filter) := population])
  {
    hide PopulationOk, MemoKey;
    var more := populations[MemoKey(region, side, filter) := population];
    forall r, s, f | MemoKey(r, s, f) in more
      ensures PopulationOk(more[MemoKey(r, s, f)], comparison.Entries(r), PolicySideForRegion(r, s), f)
    {
      if MemoKey(r, s, f) == MemoKey(region, side, filter) {
        MemoKeyInjective(r, s, f, region, side, filter);
      }
    }
  }
}
