/** Classification records: built from policy evidence, validated before they are
    published, and attached to the entries of a snapshot. */
module Records {
  import opened Base
  import opened Assessments
  import opened Lenses

  const MAX_SAFE_JSON_INTEGER: nat := 9_007_199_254_740_991
  const MAX_EXEMPLARS: nat := 1

  // What the policy evaluator reports, rule by rule.
  datatype Verdict<+E> =
    | Pass
    | Violate(evidence: seq<E>, missing: seq<E>)
    | Unknown(missing: seq<E>)

  datatype Outcome<+E> = Outcome(rule: Rule, verdict: Verdict<E>)

  datatype Evidence<+E> = Evidence(primary: Option<Rule>, outcomes: seq<Outcome<E>>)

  /** The evaluator's promise: seven outcomes in rule order, violations with
      evidence, unknowns with what is missing, a primary rule among the violated. */
  ghost predicate EvidenceOk<E>(evidence: Evidence<E>) {
    && |evidence.outcomes| == |RULES|
    && (forall i :: 0 <= i < |RULES| ==>
          && evidence.outcomes[i].rule == RULES[i]
          && (evidence.outcomes[i].verdict.Violate? ==> evidence.outcomes[i].verdict.evidence != [])
          && (evidence.outcomes[i].verdict.Unknown? ==> evidence.outcomes[i].verdict.missing != []))
    && (evidence.primary.Some? ==>
          exists i :: 0 <= i < |RULES|
            && evidence.outcomes[i].rule == evidence.primary.value && evidence.outcomes[i].verdict.Violate?)
  }

  datatype RuleVerdict = Passes | Violates | IsUnknown

  datatype RuleDetail<+E> = RuleDetail(
    rule: Rule, number: nat, verdict: RuleVerdict, evidenceCount: nat, evidence: seq<E>, missingCount: nat, missing: seq<E>)

  type Structure = nat

  datatype Record<+E> = Record(
    txid: Txid, wtxid: Wtxid, structure: Structure, results: seq<LensResult>, assessment: Assessment,
    rules: seq<RuleDetail<E>>)

  function Truncated<E>(s: seq<E>): seq<E> {
    if |s| <= MAX_EXEMPLARS then s else s[..MAX_EXEMPLARS]
  }

  function DetailOf<E>(outcome: Outcome<E>): RuleDetail<E> {
    var number := Number(outcome.rule);
    match outcome.verdict
    case Pass => RuleDetail(outcome.rule, number, Passes, 0, [], 0, [])
    case Violate(evidence, missing) =>
      RuleDetail(outcome.rule, number, Violates, |evidence|, Truncated(evidence), |missing|, Truncated(missing))
    case Unknown(missing) => RuleDetail(outcome.rule, number, IsUnknown, 0, [], |missing|, Truncated(missing))
  }

  // --- what a valid record is -----------------------------------------------------------

  ghost predicate DetailOk<E>(detail: RuleDetail<E>, rule: Rule) {
    && detail.rule == rule && detail.number == Number(rule)
    && |detail.evidence| <= MAX_EXEMPLARS && |detail.missing| <= MAX_EXEMPLARS
    && |detail.evidence| <= detail.evidenceCount && |detail.missing| <= detail.missingCount
    && (detail.evidenceCount == 0 <==> detail.evidence == []) && (detail.missingCount == 0 <==> detail.missing == [])
    && (detail.verdict.Passes? ==> detail.evidenceCount == 0 && detail.missingCount == 0)
    && (detail.verdict.Violates? ==> detail.evidenceCount > 0)
    && (detail.verdict.IsUnknown? ==> detail.evidenceCount == 0 && detail.missingCount > 0)
  }

  ghost predicate DetailsOk<E>(rules: seq<RuleDetail<E>>) {
    |rules| == |RULES| && forall i :: 0 <= i < |RULES| ==> DetailOk(rules[i], RULES[i])
  }

  // The rules with a proven violation, in order.
  function Violated<E>(rules: seq<RuleDetail<E>>): seq<Rule> {
    if rules == [] then []
    else
      var last := rules[|rules| - 1];
      Violated(rules[..|rules| - 1]) + (if last.verdict.Violates? then [last.rule] else [])
  }

  // The rules for which facts are missing, in order.
  function Incomplete<E>(rules: seq<RuleDetail<E>>): seq<Rule> {
    if rules == [] then []
    else
      var last := rules[|rules| - 1];
      Incomplete(rules[..|rules| - 1])
      + (if last.verdict.IsUnknown? || (last.verdict.Violates? && last.missingCount > 0) then [last.rule] else [])
  }

  function StatusOf(violated: seq<Rule>, incomplete: seq<Rule>): Status {
    if violated != [] then Violating else if incomplete != [] then Indeterminate else Compatible
  }

  ghost predicate AssessmentOk<E>(assessment: Assessment, rules: seq<RuleDetail<E>>) {
    && assessment.violatedRules == Violated(rules) && assessment.unknownRules == Incomplete(rules)
    && assessment.status == StatusOf(Violated(rules), Incomplete(rules))
    && (assessment.primaryRule.Some? ==> assessment.primaryRule.value in assessment.violatedRules)
  }

  // The policy lens says what the assessment says.
  predicate PolicyAgrees(policy: LensResult, assessment: Assessment) {
    && policy.primaryLabel == Some(StatusLabel(assessment.status))
    && policy.labels == [StatusLabel(assessment.status)]
    && policy.state == (if assessment.unknownRules != [] then Partial else Complete)
    && policy.missingFacts == (if assessment.unknownRules != [] then [PolicyFacts] else [])
  }

  /** What a record must satisfy to be published. */
  ghost predicate RecordOk<E>(record: Record<E>) {
    && ResultsOk(record.results) && PolicyAgrees(record.results[3], record.assessment)
    && DetailsOk(record.rules) && AssessmentOk(record.assessment, record.rules)
  }

  // --- the producer ------------------------------------------------------------------------

  lemma NoDetails<E>()
    ensures Violated<E>([]) == [] && Incomplete<E>([]) == []
  {
  }

  lemma DetailsMore<E>(rules: seq<RuleDetail<E>>, detail: RuleDetail<E>)
    ensures Violated(rules + [detail]) == Violated(rules) + (if detail.verdict.Violates? then [detail.rule] else [])
    ensures Incomplete(rules + [detail])
            == Incomplete(rules)
               + (if detail.verdict.IsUnknown? || (detail.verdict.Violates? && detail.missingCount > 0) then [detail.rule] else [])
  {
    assert (rules + [detail])[..|rules|] == rules;
  }

  lemma {:induction false} ViolatedListed<E>(rules: seq<RuleDetail<E>>, i: nat)
    requires i < |rules| && rules[i].verdict.Violates?
    ensures rules[i].rule in Violated(rules)
  {
    if i < |rules| - 1 {
      ViolatedListed(rules[..|rules| - 1], i);
    }
  }

  lemma DetailShape<E>(outcome: Outcome<E>)
    ensures var detail := DetailOf(outcome);
            && detail.rule == outcome.rule
            && (detail.verdict.Violates? <==> outcome.verdict.Violate?)
            && (detail.verdict.IsUnknown? <==> outcome.verdict.Unknown?)
            && (outcome.verdict.Violate? ==> detail.missingCount == |outcome.verdict.missing|)
  {
  }

  lemma DetailOfOk<E>(outcome: Outcome<E>)
    requires outcome.verdict.Violate? ==> outcome.verdict.evidence != []
    requires outcome.verdict.Unknown? ==> outcome.verdict.missing != []
    ensures DetailOk(DetailOf(outcome), outcome.rule)
  {
  }

  // Truncated details of promised evidence are valid, and the primary rule is among the violated ones.
  lemma {:induction false} EvidenceDetails<E>(evidence: Evidence<E>, rules: seq<RuleDetail<E>>)
    requires EvidenceOk(evidence) && |rules| == |evidence.outcomes|
    requires forall i :: 0 <= i < |rules| ==> rules[i] == DetailOf(evidence.outcomes[i])
    ensures DetailsOk(rules)
    ensures evidence.primary.Some? ==> evidence.primary.value in Violated(rules)
  {
    hide DetailOf, DetailOk, Violated;
    forall i | 0 <= i < |RULES| ensures DetailOk(rules[i], RULES[i]) {
      DetailOfOk(evidence.outcomes[i]);
    }
    if evidence.primary.Some? {
      var i :| 0 <= i < |RULES|
        && evidence.outcomes[i].rule == evidence.primary.value && evidence.outcomes[i].verdict.Violate?;
      DetailShape(evidence.outcomes[i]);
      ViolatedListed(rules, i);
    }
  }

  /** Turns evidence into a record without lens results: the compact assessment and
      the bounded details are gathered in one pass. */
  method FromEvidence<E>(txid: Txid, wtxid: Wtxid, structure: Structure, evidence: Evidence<E>) returns (record: Record<E>)
    requires EvidenceOk(evidence)
    ensures record.txid == txid && record.wtxid == wtxid && record.structure == structure && record.results == []
    ensures |record.rules| == |evidence.outcomes|
    ensures forall i :: 0 <= i < |record.rules| ==> record.rules[i] == DetailOf(evidence.outcomes[i])
    ensures DetailsOk(record.rules) && AssessmentOk(record.assessment, record.rules)
    ensures record.assessment.primaryRule == evidence.primary
    ensures AssessmentSays(record.assessment, evidence) && DetailsSay(record.rules, evidence)
  {
    hide DetailOf, Violated, Incomplete, EvidenceOk, DetailsOk;
    var violated, unknown: seq<Rule> := [], [];
    var rules: seq<RuleDetail<E>> := [];
    NoDetails<E>();
    for i := 0 to |evidence.outcomes|
      invariant |rules| == i && forall k :: 0 <= k < i ==> rules[k] == DetailOf(evidence.outcomes[k])
      invariant violated == Violated(rules) && unknown == Incomplete(rules)
    {
      var outcome := evidence.outcomes[i];
      DetailsMore(rules, DetailOf(outcome));
      DetailShape(outcome);
      match outcome.verdict {
        case Pass =>
        case Violate(_, missing) =>
          violated := violated + [outcome.rule];
          if missing != [] {
            unknown := unknown + [outcome.rule];
          }
        case Unknown(_) =>
          unknown := unknown + [outcome.rule];
      }
      rules := rules + [DetailOf(outcome)];
    }
    var status := if violated == [] then (if unknown == [] then Compatible else Indeterminate) else Violating;
    EvidenceDetails(evidence, rules);
    record := Record(txid, wtxid, structure, [], Assessment(status, evidence.primary, violated, unknown), rules);
    Promised(evidence);
    ListedRules(rules, evidence.outcomes);
    DetailsFollow(rules, evidence);
  }

  lemma Promised<E>(evidence: Evidence<E>)
    requires EvidenceOk(evidence)
    ensures forall o :: o in evidence.outcomes && o.verdict.Unknown? ==> o.verdict.missing != []
  {
  }

  /** What an assessment says of the evidence: a violation decides, and only without
      one do missing facts leave the verdict open. */
  ghost predicate AssessmentSays<E>(assessment: Assessment, evidence: Evidence<E>) {
    var outcomes := evidence.outcomes;
    && (assessment.status == Violating <==> exists o :: o in outcomes && o.verdict.Violate?)
    && (assessment.status == Compatible <==> forall o :: o in outcomes ==> o.verdict.Pass?)
    && (forall r :: r in assessment.violatedRules <==> exists o :: o in outcomes && o.rule == r && o.verdict.Violate?)
    && (forall r :: r in assessment.unknownRules <==>
          exists o :: o in outcomes && o.rule == r && !o.verdict.Pass? && o.verdict.missing != [])
  }

  // What the details say of it: all counts, and the first exemplar of each kind.
  ghost predicate DetailsSay<E>(rules: seq<RuleDetail<E>>, evidence: Evidence<E>) {
    && |rules| == |evidence.outcomes| == 7
    && forall i :: 0 <= i < 7 ==>
         var detail, outcome := rules[i], evidence.outcomes[i];
         && detail.rule == outcome.rule && detail.number == i + 1
         && (detail.verdict.Passes? <==> outcome.verdict.Pass?)
         && (detail.verdict.Violates? <==> outcome.verdict.Violate?)
         && detail.evidenceCount == (if outcome.verdict.Violate? then |outcome.verdict.evidence| else 0)
         && detail.missingCount == (if outcome.verdict.Pass? then 0 else |outcome.verdict.missing|)
         && (detail.evidence == if detail.evidenceCount == 0 then [] else [outcome.verdict.evidence[0]])
         && (detail.missing == if detail.missingCount == 0 then [] else [outcome.verdict.missing[0]])
  }

  lemma {:induction false} ListedRules<E>(rules: seq<RuleDetail<E>>, outcomes: seq<Outcome<E>>)
    requires |rules| == |outcomes| && forall i :: 0 <= i < |rules| ==> rules[i] == DetailOf(outcomes[i])
    requires forall o :: o in outcomes && o.verdict.Unknown? ==> o.verdict.missing != []
    ensures forall r :: r in Violated(rules) <==> exists o :: o in outcomes && o.rule == r && o.verdict.Violate?
    ensures forall r :: r in Incomplete(rules) <==>
                          exists o :: o in outcomes && o.rule == r && !o.verdict.Pass? && o.verdict.missing != []
    ensures Violated(rules) == [] <==> forall o :: o in outcomes ==> !o.verdict.Violate?
    ensures Incomplete(rules) == [] <==> forall o :: o in outcomes ==> o.verdict.Pass? || o.verdict.missing == []
  {
    if rules != [] {
      var front, last := outcomes[..|outcomes| - 1], outcomes[|outcomes| - 1];
      assert outcomes == front + [last];
      ListedRules(rules[..|rules| - 1], front);
      DetailShape(last);
      assert last in outcomes;
    }
  }

  lemma DetailsFollow<E>(rules: seq<RuleDetail<E>>, evidence: Evidence<E>)
    requires EvidenceOk(evidence) && |rules| == |evidence.outcomes|
    requires forall i :: 0 <= i < |rules| ==> rules[i] == DetailOf(evidence.outcomes[i])
    ensures DetailsSay(rules, evidence)
  {
    forall i | 0 <= i < 7
      ensures rules[i].number == i + 1
    {
      RuleNumbers(i);
    }
  }

  lemma RuleNumbers(i: nat)
    requires i < 7
    ensures Number(RULES[i]) == i + 1
  {
  }

  /** Every record the pipeline builds is one that the validator accepts. */
  method Produce<E>(
    txid: Txid, wtxid: Wtxid, structure: Structure, evidence: Evidence<E>, templates: Templates, transaction: Decoded,
    prevouts: Prevouts, fingerprints: set<Label>)
    returns (record: Record<E>)
    requires EvidenceOk(evidence) && fingerprints <= FINGERPRINTS
    ensures RecordOk(record) && record.txid == txid && record.wtxid == wtxid && record.structure == structure
    ensures AreResultsOf(record.results, templates, transaction, prevouts, fingerprints, record.assessment)
    ensures |record.rules| == |evidence.outcomes|
    ensures forall i :: 0 <= i < |record.rules| ==> record.rules[i] == DetailOf(evidence.outcomes[i])
    ensures record.assessment.primaryRule == evidence.primary
    ensures AssessmentSays(record.assessment, evidence) && DetailsSay(record.rules, evidence)
  {
    hide AssessmentSays, DetailsSay, ResultOk, DetailOk, AssessmentOk, IsPropertiesOf, IsShapeOf, IsDataOf, DetailOf;
    record := FromEvidence(txid, wtxid, structure, evidence);
    var results := ClassifyTransaction(templates, transaction, prevouts, fingerprints, record.assessment);
    record := record.(results := results);
  }

  // --- the validator ---------------------------------------------------------------------------

  predicate ResultValid(result: LensResult, classifier: Classifier) {
    && result.classifier == classifier
    && !((result.labels == [] && result.state != Partial)
         || !result.hasEvidence
         || (result.state == Complete && result.missingFacts != [])
         || (result.state == Partial && result.missingFacts == [])
         || (result.primaryLabel.Some? && result.primaryLabel.value !in result.labels))
    && |set l | l in result.labels| == |result.labels|
    && (forall l :: l in result.labels ==> l in Declared(classifier))
    && |set f | f in result.missingFacts| == |result.missingFacts|
  }

  lemma {:induction false} SizeMeansDistinct<T>(s: seq<T>)
    ensures |Elements(s)| <= |s|
    ensures |Elements(s)| == |s| <==> NoDuplicates(s)
  {
    if s == [] {
      assert Elements(s) == {};
    } else {
      var front, last := s[..|s| - 1], s[|s| - 1];
      assert s == front + [last];
      SizeMeansDistinct(front);
      assert Elements(s) == Elements(front) + {last};
      if last in front {
        assert Elements(s) == Elements(front);
        var i :| 0 <= i < |front| && front[i] == last;
        assert s[i] == s[|s| - 1];
      }
    }
  }

  // Counting distinct labels and facts is how duplicates are refused.
  lemma ResultValidIff(result: LensResult, classifier: Classifier)
    ensures ResultValid(result, classifier) <==> ResultOk(result, classifier)
  {
    hide Declared;
    SizeMeansDistinct(result.labels);
    SizeMeansDistinct(result.missingFacts);
  }

  method ValidateResults(results: seq<LensResult>) returns (ok: bool)
    ensures ok <==> ResultsOk(results)
  {
    hide ResultOk, ResultValid;
    if |results| != |CATALOG| {
      return false;
    }
    for i := 0 to |CATALOG|
      invariant forall k :: 0 <= k < i ==> ResultOk(results[k], CATALOG[k])
    {
      ResultValidIff(results[i], CATALOG[i]);
      if !ResultValid(results[i], CATALOG[i]) {
        return false;
      }
    }
    return true;
  }

  method ValidateDetail<E(==)>(detail: RuleDetail<E>, rule: Rule) returns (ok: bool)
    ensures ok <==> DetailOk(detail, rule)
  {
    if detail.rule != rule || detail.number != Number(rule) {
      return false;
    }
    if |detail.evidence| > MAX_EXEMPLARS || |detail.missing| > MAX_EXEMPLARS {
      return false;
    }
    if detail.evidenceCount < |detail.evidence| || detail.missingCount < |detail.missing|
       || (detail.evidenceCount == 0) != (|detail.evidence| == 0) || (detail.missingCount == 0) != (|detail.missing| == 0) {
      return false;
    }
    match detail.verdict {
      case Passes => ok := detail.evidenceCount == 0 && detail.missingCount == 0;
      case Violates => ok := detail.evidenceCount != 0;
      case IsUnknown => ok := detail.evidenceCount == 0 && detail.missingCount != 0;
    }
  }

  method ValidateRules<E(==)>(rules: seq<RuleDetail<E>>) returns (ok: bool, violated: seq<Rule>, unknown: seq<Rule>)
    ensures ok <==> DetailsOk(rules)
    ensures ok ==> violated == Violated(rules) && unknown == Incomplete(rules)
  {
    hide DetailOk, Violated, Incomplete;
    violated, unknown := [], [];
    if |rules| != |RULES| {
      return false, [], [];
    }
    NoDetails<E>();
    assert rules[..0] == [];
    for i := 0 to |RULES|
      invariant forall k :: 0 <= k < i ==> DetailOk(rules[k], RULES[k])
      invariant violated == Violated(rules[..i]) && unknown == Incomplete(rules[..i])
    {
      var detail := rules[i];
      var detailValid := ValidateDetail(detail, RULES[i]);
      if !detailValid {
        return false, [], [];
      }
      DetailsMore(rules[..i], detail);
      assert rules[..i + 1] == rules[..i] + [detail];
      if detail.verdict.Violates? {
        violated := violated + [detail.rule];
        if detail.missingCount > 0 {
          unknown := unknown + [detail.rule];
        }
      } else if detail.verdict.IsUnknown? {
        unknown := unknown + [detail.rule];
      }
    }
    assert rules[..|RULES|] == rules;
    ok := true;
  }

  /** Accepts exactly the records that are internally consistent. */
  method Validate<E(==)>(record: Record<E>) returns (ok: bool)
    ensures ok <==> RecordOk(record)
  {
    hide ResultOk, DetailsOk, Violated, Incomplete;
    ok := ValidateResults(record.results);
    if !ok {
      return;
    }
    if !PolicyAgrees(record.results[3], record.assessment) {
      return false;
    }
    var violated, unknown;
    ok, violated, unknown := ValidateRules(record.rules);
    if !ok {
      return;
    }
    var expected := if violated == [] then (if unknown == [] then Compatible else Indeterminate) else Violating;
    ok := !(record.assessment.status != expected || record.assessment.violatedRules != violated
            || record.assessment.unknownRules != unknown
            || (record.assessment.primaryRule.Some? && record.assessment.primaryRule.value !in violated));
  }

  // --- snapshots with details ----------------------------------------------------------------

  datatype MempoolEntry = MempoolEntry(
    txid: Txid, wtxid: Wtxid, vsize: nat, classifications: seq<LensResult>, assessment: Option<Assessment>,
    structure: Option<Structure>)

  ghost predicate SortedByTxid(entries: seq<MempoolEntry>) {
    forall i, j :: 0 <= i < j < |entries| ==> entries[i].txid < entries[j].txid
  }

  function TotalVsize(entries: seq<MempoolEntry>): nat {
    if entries == [] then 0 else TotalVsize(entries[..|entries| - 1]) + entries[|entries| - 1].vsize
  }

  // A snapshot constructor accepts these entries.
  ghost predicate EntriesOk(entries: seq<MempoolEntry>) {
    SortedByTxid(entries) && |entries| <= MAX_SAFE_JSON_INTEGER && TotalVsize(entries) <= MAX_SAFE_JSON_INTEGER
  }

  function Compacts(results: seq<LensResult>): seq<LensResult> {
    seq(|results|, i requires 0 <= i < |results| => results[i].Compact())
  }

  predicate Shows<E>(entry: MempoolEntry, record: Record<E>) {
    && entry.wtxid == record.wtxid && entry.classifications == Compacts(record.results)
    && entry.assessment == Some(record.assessment) && entry.structure == Some(record.structure)
  }

  predicate Bare(entry: MempoolEntry) {
    entry.classifications == [] && entry.assessment.None? && entry.structure.None?
  }

  /** Snapshot and details agree: every record is valid, under its own identifier,
      and shown by its entry, and an entry without a record shows nothing. */
  ghost predicate ObservationOk<E>(entries: seq<MempoolEntry>, revision: nat, records: map<Txid, Record<E>>) {
    && revision <= MAX_SAFE_JSON_INTEGER
    && (forall t :: t in records ==> RecordShown(entries, t, records[t]))
    && (forall e :: e in entries && !Bare(e) ==> e.txid in records)
  }

  ghost predicate RecordShown<E>(entries: seq<MempoolEntry>, t: Txid, record: Record<E>) {
    RecordOk(record) && record.txid == t && exists e :: e in entries && e.txid == t && Shows(e, record)
  }

  /** An entry carries an assessment exactly when the details have its transaction. */
  lemma AssessedIffDetailed<E>(entries: seq<MempoolEntry>, revision: nat, records: map<Txid, Record<E>>, e: MempoolEntry)
    requires SortedByTxid(entries) && ObservationOk(entries, revision, records) && e in entries
    ensures e.assessment.Some? <==> e.txid in records
    ensures e.txid in records ==> e.assessment.value == records[e.txid].assessment
  {
    hide RecordOk;
    if e.txid in records {
      assert RecordShown(entries, e.txid, records[e.txid]);
      var shown :| shown in entries && shown.txid == e.txid && Shows(shown, records[e.txid]);
      SameEntry(entries, e, shown);
    }
  }

  lemma SameEntry(entries: seq<MempoolEntry>, a: MempoolEntry, b: MempoolEntry)
    requires SortedByTxid(entries) && a in entries && b in entries && a.txid == b.txid
    ensures a == b
  {
    var i :| 0 <= i < |entries| && entries[i] == a;
    var j :| 0 <= j < |entries| && entries[j] == b;
    assert i == j;
  }

  method FindEntry(entries: seq<MempoolEntry>, txid: Txid) returns (found: Option<MempoolEntry>)
    requires SortedByTxid(entries)
    ensures found.Some? ==> found.value in entries && found.value.txid == txid
    ensures found.None? ==> forall e :: e in entries ==> e.txid != txid
  {
    var low, high := 0, |entries|;
    while low < high
      invariant low <= high <= |entries|
      invariant forall k :: 0 <= k < low ==> entries[k].txid < txid
      invariant forall k :: high <= k < |entries| ==> txid < entries[k].txid
    {
      var middle := low + (high - low) / 2;
      if entries[middle].txid == txid {
        return Some(entries[middle]);
      }
      if entries[middle].txid < txid {
        low := middle + 1;
      } else {
        high := middle;
      }
    }
    return None;
  }

  method CheckRecord<E(==)>(entries: seq<MempoolEntry>, t: Txid, record: Record<E>) returns (ok: bool)
    requires SortedByTxid(entries)
    ensures ok <==> RecordShown(entries, t, record)
  {
    hide RecordOk, Shows;
    ok := Validate(record);
    if !ok || t != record.txid {
      return false;
    }
    var entry := FindEntry(entries, t);
    if entry.None? {
      return false;
    }
    ok := Shows(entry.value, record);
    if e :| e in entries && e.txid == t && Shows(e, record) {
      SameEntry(entries, e, entry.value);
    }
  }

  /** Accepts exactly the observations whose snapshot and details agree. */
  method NewObservation<E(==)>(entries: seq<MempoolEntry>, revision: nat, records: map<Txid, Record<E>>)
    returns (ok: bool)
    requires SortedByTxid(entries)
    ensures ok <==> ObservationOk(entries, revision, records)
  {
    hide RecordShown, Bare;
    if revision > MAX_SAFE_JSON_INTEGER {
      return false;
    }
    var left := records.Keys;
    while left != {}
      invariant left <= records.Keys
      invariant forall t :: t in records.Keys - left ==> RecordShown(entries, t, records[t])
      decreases left
    {
      var t :| t in left;
      ok := CheckRecord(entries, t, records[t]);
      if !ok {
        return;
      }
      left := left - {t};
    }
    ok := true;
    for i := 0 to |entries|
      invariant forall k :: 0 <= k < i && !Bare(entries[k]) ==> entries[k].txid in records
    {
      if !Bare(entries[i]) && entries[i].txid !in records {
        assert entries[i] in entries;
        return false;
      }
    }
  }

  function Attached<E>(entry: MempoolEntry, records: map<Txid, Record<E>>): MempoolEntry {
    if entry.txid in records then
      var record := records[entry.txid];
      entry.(
        classifications := Compacts(record.results), assessment := Some(record.assessment),
        structure := Some(record.structure))
    else entry.(classifications := [], assessment := None, structure := None)
  }

  function AttachAll<E>(entries: seq<MempoolEntry>, records: map<Txid, Record<E>>): seq<MempoolEntry> {
    seq(|entries|, i requires 0 <= i < |entries| => Attached(entries[i], records))
  }

  // Each record is valid and belongs to an entry of the membership.
  ghost predicate Retained<E>(entries: seq<MempoolEntry>, records: map<Txid, Record<E>>) {
    forall t :: t in records ==>
      RecordOk(records[t]) && records[t].txid == t && exists e :: e in entries && e.txid == t && e.wtxid == records[t].wtxid
  }

  lemma AttachedAgrees<E>(entries: seq<MempoolEntry>, revision: nat, records: map<Txid, Record<E>>)
    requires revision <= MAX_SAFE_JSON_INTEGER
    ensures ObservationOk(AttachAll(entries, records), revision, records) <==> Retained(entries, records)
  {
    hide RecordOk;
    var attached := AttachAll(entries, records);
    forall e | e in attached && !Bare(e) ensures e.txid in records {
      var i :| 0 <= i < |attached| && attached[i] == e;
      assert e == Attached(entries[i], records);
    }
    forall t | t in records
      ensures RecordShown(attached, t, records[t])
              <==> RecordOk(records[t]) && records[t].txid == t
                   && exists e :: e in entries && e.txid == t && e.wtxid == records[t].wtxid
    {
      if e :| e in attached && e.txid == t && Shows(e, records[t]) {
        var i :| 0 <= i < |attached| && attached[i] == e;
        assert entries[i] in entries && entries[i].txid == t && entries[i].wtxid == records[t].wtxid;
      }
      if e :| e in entries && e.txid == t && e.wtxid == records[t].wtxid {
        var i :| 0 <= i < |entries| && entries[i] == e;
        assert attached[i] in attached && attached[i].txid == t && Shows(attached[i], records[t]);
      }
    }
  }

  lemma {:induction false} AttachedEntries<E>(entries: seq<MempoolEntry>, records: map<Txid, Record<E>>)
    ensures EntriesOk(AttachAll(entries, records)) <==> EntriesOk(entries)
  {
    SameVsize(entries, records);
    var attached := AttachAll(entries, records);
    assert forall i :: 0 <= i < |entries| ==> attached[i].txid == entries[i].txid;
  }

  lemma {:induction false} SameVsize<E>(entries: seq<MempoolEntry>, records: map<Txid, Record<E>>)
    ensures TotalVsize(AttachAll(entries, records)) == TotalVsize(entries)
  {
    if entries != [] {
      var front := entries[..|entries| - 1];
      SameVsize(front, records);
      assert AttachAll(entries, records)[..|entries| - 1] == AttachAll(front, records);
    }
  }

  method CheckEntries(entries: seq<MempoolEntry>) returns (ok: bool)
    ensures ok <==> EntriesOk(entries)
  {
    var total := 0;
    assert entries[..0] == [];
    for i := 0 to |entries|
      invariant SortedByTxid(entries[..i]) && total == TotalVsize(entries[..i])
    {
      assert entries[..i + 1][..i] == entries[..i];
      if i > 0 && entries[i - 1].txid >= entries[i].txid {
        return false;
      }
      total := total + entries[i].vsize;
    }
    assert entries[..|entries|] == entries;
    ok := |entries| <= MAX_SAFE_JSON_INTEGER && total <= MAX_SAFE_JSON_INTEGER;
  }

  /** Attaches retained records to their entries. It succeeds exactly when every
      record is valid and belongs to the membership, and then an entry is assessed
      exactly when it has a record. */
  method MaterializeRetained<E(==)>(membership: seq<MempoolEntry>, revision: nat, records: map<Txid, Record<E>>)
    returns (snapshot: Option<seq<MempoolEntry>>)
    ensures snapshot.Some? <==> EntriesOk(membership) && revision <= MAX_SAFE_JSON_INTEGER && Retained(membership, records)
    ensures snapshot.Some? ==>
              && snapshot.value == AttachAll(membership, records)
              && ObservationOk(snapshot.value, revision, records)
              && forall e :: e in snapshot.value ==> (e.assessment.Some? <==> e.txid in records)
  {
    hide RecordOk, EntriesOk, ObservationOk, Retained;
    var attached := AttachAll(membership, records);
    AttachedEntries(membership, records);
    var ok := CheckEntries(attached);
    if !ok || revision > MAX_SAFE_JSON_INTEGER {
      return None;
    }
    EntriesSorted(attached);
    ok := NewObservation(attached, revision, records);
    AttachedAgrees(membership, revision, records);
    if !ok {
      return None;
    }
    forall e | e in attached ensures e.assessment.Some? <==> e.txid in records {
      AssessedIffDetailed(attached, revision, records, e);
    }
    snapshot := Some(attached);
  }

  lemma EntriesSorted(entries: seq<MempoolEntry>)
    requires EntriesOk(entries)
    ensures SortedByTxid(entries)
  {
  }

  // The records that still match the membership, by identifier and witness.
  method Matching<E(==)>(membership: seq<MempoolEntry>, records: map<Txid, Record<E>>)
    returns (matching: map<Txid, Record<E>>)
    ensures forall t :: t in matching <==>
              exists e :: e in membership && e.txid == t && t in records && records[t].txid == t && records[t].wtxid == e.wtxid
    ensures forall t :: t in matching ==> t in records && matching[t] == records[t]
  {
    matching := map[];
    for i := 0 to |membership|
      invariant forall t :: t in matching <==>
                  exists k :: 0 <= k < i && membership[k].txid == t && t in records && records[t].txid == t
                    && records[t].wtxid == membership[k].wtxid
      invariant forall t :: t in matching ==> t in records && matching[t] == records[t]
    {
      var t := membership[i].txid;
      if t in records && records[t].txid == t && records[t].wtxid == membership[i].wtxid {
        matching := matching[t := records[t]];
      }
    }
    forall t | t in matching
      ensures exists e :: e in membership && e.txid == t && t in records && records[t].txid == t && records[t].wtxid == e.wtxid
    {
      var k :| 0 <= k < |membership| && membership[k].txid == t && records[t].wtxid == membership[k].wtxid;
      assert membership[k] in membership;
    }
  }

  /** Records of other memberships are filtered out first, so valid records always
      materialize. */
  method Materialize<E(==)>(membership: seq<MempoolEntry>, revision: nat, records: map<Txid, Record<E>>)
    returns (snapshot: Option<seq<MempoolEntry>>, matching: map<Txid, Record<E>>)
    requires forall t :: t in records ==> RecordOk(records[t])
    ensures snapshot.Some? <==> EntriesOk(membership) && revision <= MAX_SAFE_JSON_INTEGER
    ensures snapshot.Some? ==> snapshot.value == AttachAll(membership, matching)
    ensures forall t :: t in matching <==>
              exists e :: e in membership && e.txid == t && t in records && records[t].txid == t && records[t].wtxid == e.wtxid
    ensures forall t :: t in matching ==> t in records && matching[t] == records[t]
  {
    hide RecordOk, EntriesOk, ObservationOk;
    matching := Matching(membership, records);
    snapshot := MaterializeRetained(membership, revision, matching);
  }

  // --- summaries ---------------------------------------------------------------------------------

  function CountOf(entries: seq<MempoolEntry>, status: Option<Status>): nat {
    if entries == [] then 0
    else
      var last := entries[|entries| - 1];
      CountOf(entries[..|entries| - 1], status)
      + (if (if last.assessment.Some? then Some(last.assessment.value.status) else None) == status then 1 else 0)
  }

  datatype PolicySummary = PolicySummary(compatible: nat, violating: nat, indeterminate: nat, unclassified: nat)

  /** Counts every entry once. */
  method SummarizePolicy(entries: seq<MempoolEntry>) returns (summary: PolicySummary)
    ensures summary.compatible == CountOf(entries, Some(Compatible))
    ensures summary.violating == CountOf(entries, Some(Violating))
    ensures summary.indeterminate == CountOf(entries, Some(Indeterminate))
    ensures summary.unclassified == CountOf(entries, None)
    ensures summary.compatible + summary.violating + summary.indeterminate + summary.unclassified == |entries|
  {
    summary := PolicySummary(0, 0, 0, 0);
    assert entries[..0] == [];
    for i := 0 to |entries|
      invariant summary == PolicySummary(
                             CountOf(entries[..i], Some(Compatible)), CountOf(entries[..i], Some(Violating)),
                             CountOf(entries[..i], Some(Indeterminate)), CountOf(entries[..i], None))
      invariant summary.compatible + summary.violating + summary.indeterminate + summary.unclassified == i
    {
      assert entries[..i + 1][..i] == entries[..i];
      match entries[i].assessment {
        case Some(Assessment(Compatible, _, _, _)) => summary := summary.(compatible := summary.compatible + 1);
        case Some(Assessment(Violating, _, _, _)) => summary := summary.(violating := summary.violating + 1);
        case Some(Assessment(Indeterminate, _, _, _)) => summary := summary.(indeterminate := summary.indeterminate + 1);
        case None => summary := summary.(unclassified := summary.unclassified + 1);
      }
    }
    assert entries[..|entries|] == entries;
  }
}
