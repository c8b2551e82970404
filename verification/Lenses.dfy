/** The classifier lenses: each looks at one decoded transaction and the spent
    scripts that are known, and reports labels from its own catalog. */
module Lenses {
  import opened Base
  import opened Assessments

  datatype Label =
    | Version1 | Version2 | Version3 | VersionOther | SignalsRbf | HasWitness | HasTaprootAnnex
    | P2pk | BareMultisig | P2pkh | P2sh | P2wpkh | P2wsh | P2tr | P2a | UnknownWitnessProgram | OpReturn | UnknownScript
    | PossibleCoinjoin | Consolidation | BatchPayout | OtherShape
    | Inscription | Brc20 | Runes | Stamps | Counterparty | Omni | OtherOpReturn | NoDetectedProtocol
    | CompatibleLabel | ViolatingLabel | IndeterminateLabel

  datatype Classifier = TransactionProperties | TransactionShape | DataProtocols | KnotsBip110

  datatype LensState = Complete | Partial

  datatype MissingFact = InputScriptPubkeys | PolicyFacts

  // The evidence itself is only kept in details; a compact result has none.
  datatype LensResult = LensResult(
    classifier: Classifier, state: LensState, primaryLabel: Option<Label>, labels: seq<Label>,
    missingFacts: seq<MissingFact>, hasEvidence: bool)
  {
    function Compact(): LensResult {
      this.(hasEvidence := false)
    }
  }

  // The order in which each label lens reports.
  function LabelOrder(classifier: Classifier): seq<Label> {
    match classifier
    case TransactionProperties => [
      Version1, Version2, Version3, VersionOther, SignalsRbf, HasWitness, HasTaprootAnnex, P2pk, BareMultisig, P2pkh, P2sh,
      P2wpkh, P2wsh, P2tr, P2a, UnknownWitnessProgram, OpReturn, UnknownScript
    ]
    case TransactionShape => [PossibleCoinjoin, Consolidation, BatchPayout, OtherShape]
    case DataProtocols => [Inscription, Brc20, Runes, Stamps, Counterparty, Omni, OtherOpReturn, NoDetectedProtocol]
    case KnotsBip110 => [CompatibleLabel, ViolatingLabel, IndeterminateLabel]
  }

  const CATALOG: seq<Classifier> := [TransactionProperties, TransactionShape, DataProtocols, KnotsBip110]

  // The labels the catalog declares for each classifier.
  function Declared(classifier: Classifier): set<Label> {
    match classifier
    case TransactionProperties =>
      {Version1, Version2, Version3, VersionOther, SignalsRbf, HasWitness, HasTaprootAnnex, P2pk, BareMultisig, P2pkh, P2sh,
       P2wpkh, P2wsh, P2tr, P2a, UnknownWitnessProgram, OpReturn, UnknownScript}
    case TransactionShape => {PossibleCoinjoin, Consolidation, BatchPayout, OtherShape}
    case DataProtocols => {Inscription, Brc20, Runes, Stamps, Counterparty, Omni, OtherOpReturn, NoDetectedProtocol}
    case KnotsBip110 => {CompatibleLabel, ViolatingLabel, IndeterminateLabel}
  }

  // A label's place in the order of its lens.
  function Place(l: Label): nat {
    match l
    case Version1 => 0 case Version2 => 1 case Version3 => 2 case VersionOther => 3 case SignalsRbf => 4
    case HasWitness => 5 case HasTaprootAnnex => 6 case P2pk => 7 case BareMultisig => 8 case P2pkh => 9 case P2sh => 10
    case P2wpkh => 11 case P2wsh => 12 case P2tr => 13 case P2a => 14 case UnknownWitnessProgram => 15
    case OpReturn => 16 case UnknownScript => 17
    case PossibleCoinjoin => 0 case Consolidation => 1 case BatchPayout => 2 case OtherShape => 3
    case Inscription => 0 case Brc20 => 1 case Runes => 2 case Stamps => 3 case Counterparty => 4 case Omni => 5
    case OtherOpReturn => 6 case NoDetectedProtocol => 7
    case CompatibleLabel => 0 case ViolatingLabel => 1 case IndeterminateLabel => 2
  }

  /** What a published lens result must satisfy. */
  ghost predicate ResultOk(result: LensResult, classifier: Classifier) {
    && result.classifier == classifier
    && (result.labels == [] ==> result.state == Partial)
    && result.hasEvidence
    && (result.state == Partial <==> result.missingFacts != [])
    && (result.primaryLabel.Some? ==> result.primaryLabel.value in result.labels)
    && NoDuplicates(result.labels) && (forall l :: l in result.labels ==> l in Declared(classifier))
    && NoDuplicates(result.missingFacts)
  }

  ghost predicate ResultsOk(results: seq<LensResult>) {
    |results| == |CATALOG| && forall i :: 0 <= i < |CATALOG| ==> ResultOk(results[i], CATALOG[i])
  }

  // --- decoded transactions ------------------------------------------------------------

  /** The script templates of the Bitcoin library. */
  datatype Templates = Templates(
    isP2pk: Script -> bool, isMultisig: Script -> bool, isP2pkh: Script -> bool, isP2sh: Script -> bool,
    isP2wpkh: Script -> bool, isP2wsh: Script -> bool, isP2tr: Script -> bool, isWitnessProgram: Script -> bool,
    isOpReturn: Script -> bool)

  datatype Input = Input(signalsRbf: bool, stack: seq<seq<Byte>>)

  datatype Output = Output(script: Script, sats: nat)

  datatype Decoded = Decoded(version: int, inputs: seq<Input>, outputs: seq<Output>)

  type Prevouts = seq<Option<Script>>

  function Prevout(prevouts: Prevouts, i: nat): Option<Script> {
    if i < |prevouts| then prevouts[i] else None
  }

  predicate AllKnown(transaction: Decoded, prevouts: Prevouts) {
    forall i :: 0 <= i < |transaction.inputs| ==> Prevout(prevouts, i).Some?
  }

  function ScriptFamily(templates: Templates, script: Script): (family: Label)
    ensures family in {P2pk, BareMultisig, P2pkh, P2sh, P2wpkh, P2wsh, P2tr, P2a, UnknownWitnessProgram, OpReturn, UnknownScript}
  {
    if templates.isP2pk(script) then P2pk
    else if templates.isMultisig(script) then BareMultisig
    else if templates.isP2pkh(script) then P2pkh
    else if templates.isP2sh(script) then P2sh
    else if templates.isP2wpkh(script) then P2wpkh
    else if templates.isP2wsh(script) then P2wsh
    else if templates.isP2tr(script) then P2tr
    else if script == [0x51, 0x02, 0x4e, 0x73] then P2a
    else if templates.isWitnessProgram(script) then UnknownWitnessProgram
    else if templates.isOpReturn(script) then OpReturn
    else UnknownScript
  }

  predicate HasAnnexCandidate(input: Input) {
    && |input.stack| >= 2
    && var last := input.stack[|input.stack| - 1];
       last != [] && last[0] == 0x50
  }

  function VersionLabel(version: int): Label {
    match version
    case 1 => Version1
    case 2 => Version2
    case 3 => Version3
    case _ => VersionOther
  }

  // --- transaction properties --------------------------------------------------------------

  ghost predicate OutputFamily(templates: Templates, transaction: Decoded, n: nat, l: Label)
    requires n <= |transaction.outputs|
  {
    exists i :: 0 <= i < n && ScriptFamily(templates, transaction.outputs[i].script) == l
  }

  ghost predicate InputFamily(templates: Templates, prevouts: Prevouts, n: nat, l: Label) {
    exists i :: 0 <= i < n && Prevout(prevouts, i).Some? && ScriptFamily(templates, Prevout(prevouts, i).value) == l
  }

  ghost predicate AnnexSeen(templates: Templates, transaction: Decoded, prevouts: Prevouts, n: nat)
    requires n <= |transaction.inputs|
  {
    exists i :: 0 <= i < n && Prevout(prevouts, i).Some? && templates.isP2tr(Prevout(prevouts, i).value)
      && HasAnnexCandidate(transaction.inputs[i])
  }

  // When a property is reported.
  ghost predicate PropertyHolds(templates: Templates, transaction: Decoded, prevouts: Prevouts, l: Label) {
    || l == VersionLabel(transaction.version)
    || (l == SignalsRbf && exists i :: 0 <= i < |transaction.inputs| && transaction.inputs[i].signalsRbf)
    || (l == HasWitness && exists i :: 0 <= i < |transaction.inputs| && transaction.inputs[i].stack != [])
    || (l == HasTaprootAnnex && AnnexSeen(templates, transaction, prevouts, |transaction.inputs|))
    || OutputFamily(templates, transaction, |transaction.outputs|, l)
    || InputFamily(templates, prevouts, |transaction.inputs|, l)
  }

  // The labels come in the declared order.
  ghost predicate InOrder(labels: seq<Label>) {
    forall i, j :: 0 <= i < j < |labels| ==> Place(labels[i]) < Place(labels[j])
  }

  /** Ordering the found labels keeps exactly the declared ones, in the declared
      order. */
  lemma OrderedLabels(found: set<Label>, classifier: Classifier)
    ensures NoDuplicates(Retain(LabelOrder(classifier), found)) && InOrder(Retain(LabelOrder(classifier), found))
    ensures forall l :: l in Retain(LabelOrder(classifier), found) <==> l in found && l in Declared(classifier)
  {
    hide LabelOrder, Declared;
    OrderIsDeclared(classifier);
    RetainContents(LabelOrder(classifier), found);
    Placed(classifier);
    RetainInOrder(LabelOrder(classifier), found);
  }

  lemma {:induction false} RetainInOrder(labels: seq<Label>, found: set<Label>)
    requires InOrder(labels)
    ensures InOrder(Retain(labels, found))
  {
    hide Place;
    if labels != [] {
      var rest := Retain(labels[1..], found);
      RetainInOrder(labels[1..], found);
      RetainContents(labels[1..], found);
      forall i | 0 <= i < |rest| ensures Place(labels[0]) < Place(rest[i]) {
        assert rest[i] in rest;
        var k :| 0 < k < |labels| && labels[k] == rest[i];
      }
    }
  }

  lemma HoldsFirst<T>(s: seq<T>)
    ensures s != [] ==> exists x :: x in s && x == s[0]
  {
    assert s != [] ==> s[0] in s;
  }

  /** The contents fix an ordered list, and with it the first label. */
  lemma {:induction false} InOrderUnique(a: seq<Label>, b: seq<Label>)
    requires InOrder(a) && InOrder(b) && forall l :: l in a <==> l in b
    ensures a == b
  {
    hide Place;
    HoldsFirst(a);
    HoldsFirst(b);
    if a != [] && b != [] {
      assert a[0] in b && b[0] in a;
      var i :| 0 <= i < |b| && b[i] == a[0];
      var j :| 0 <= j < |a| && a[j] == b[0];
      assert i == 0;
      forall l ensures l in a[1..] <==> l in b[1..] {
        if l in a[1..] {
          var k :| 0 < k < |a| && a[k] == l;
          assert Place(a[0]) < Place(a[k]);
          assert a[k] in b;
        }
        if l in b[1..] {
          var k :| 0 < k < |b| && b[k] == l;
          assert Place(b[0]) < Place(b[k]);
          assert b[k] in a;
        }
      }
      InOrderUnique(a[1..], b[1..]);
    }
  }

  // The catalog declares exactly the labels each lens can report, in one order.
  lemma OrderIsDeclared(classifier: Classifier)
    ensures NoDuplicates(LabelOrder(classifier))
    ensures forall l :: l in LabelOrder(classifier) <==> l in Declared(classifier)
  {
    Placed(classifier);
    hide Place;
  }

  lemma Placed(classifier: Classifier)
    ensures forall i :: 0 <= i < |LabelOrder(classifier)| ==> Place(LabelOrder(classifier)[i]) == i
  {
    if classifier == TransactionProperties {
      PropertiesPlaced();
    }
  }

  lemma PropertiesPlaced()
    ensures forall i :: 0 <= i < 18 ==> Place(LabelOrder(TransactionProperties)[i]) == i
  {
    var order := LabelOrder(TransactionProperties);
    assert forall i :: 0 <= i < 9 ==> Place(order[i]) == i;
    assert forall i :: 9 <= i < 18 ==> Place(order[i]) == i;
  }

  lemma PropertiesDeclared(templates: Templates, transaction: Decoded, prevouts: Prevouts, l: Label)
    requires PropertyHolds(templates, transaction, prevouts, l)
    ensures l in Declared(TransactionProperties)
  {
  }

  ghost predicate IsPropertiesOf(result: LensResult, templates: Templates, transaction: Decoded, prevouts: Prevouts) {
    && result.primaryLabel == None && InOrder(result.labels)
    && (result.state == Complete <==> AllKnown(transaction, prevouts))
    && PropertiesSay(result.labels, templates, transaction, prevouts)
    && forall l :: l in result.labels <==> PropertyHolds(templates, transaction, prevouts, l)
  }

  /** Reports exactly the properties that hold, and is complete exactly when every
      spent script is known. */
  method PropertiesOf(templates: Templates, transaction: Decoded, prevouts: Prevouts) returns (result: LensResult)
    ensures ResultOk(result, TransactionProperties) && IsPropertiesOf(result, templates, transaction, prevouts)
  {
    hide Retain, LabelOrder, Declared, PropertyHolds, PropertiesSay;
    var found, missing := PropertiesFound(templates, transaction, prevouts);
    OrderedLabels(found, TransactionProperties);
    var labels := Retain(LabelOrder(TransactionProperties), found);
    PropertiesReported(templates, transaction, prevouts, found, labels);
    PropertiesMean(labels, templates, transaction, prevouts);
    result := LensResult(
      TransactionProperties, if missing == 0 then Complete else Partial, None, labels,
      if missing == 0 then [] else [InputScriptPubkeys], true);
  }

  // The properties that hold, and how many spent scripts are unknown.
  method PropertiesFound(templates: Templates, transaction: Decoded, prevouts: Prevouts)
    returns (found: set<Label>, missing: nat)
    ensures forall l :: l in found <==> PropertyHolds(templates, transaction, prevouts, l)
    ensures missing == 0 <==> AllKnown(transaction, prevouts)
  {
    hide OutputFamily, InputFamily, AnnexSeen, ScriptFamily, AllKnown;
    found := {VersionLabel(transaction.version)};
    if exists i :: 0 <= i < |transaction.inputs| && transaction.inputs[i].signalsRbf {
      found := found + {SignalsRbf};
    }
    if exists i :: 0 <= i < |transaction.inputs| && transaction.inputs[i].stack != [] {
      found := found + {HasWitness};
    }
    var families := OutputFamilies(templates, transaction);
    var inputFamilies, unknown, annex := InputFamilies(templates, transaction, prevouts);
    found := found + families + inputFamilies;
    if annex > 0 {
      found := found + {HasTaprootAnnex};
    }
    missing := unknown;
  }

  // Some output has the script, or some input spends it and it is known.
  ghost predicate Sees(transaction: Decoded, prevouts: Prevouts, script: Script) {
    || (exists i :: 0 <= i < |transaction.outputs| && transaction.outputs[i].script == script)
    || (exists i :: 0 <= i < |transaction.inputs| && i < |prevouts| && prevouts[i] == Some(script))
  }

  // The script is of this family: its template matches, and none that comes before does.
  ghost predicate IsOf(templates: Templates, script: Script, family: Label) {
    var p2pk, multisig, p2pkh := templates.isP2pk(script), templates.isMultisig(script), templates.isP2pkh(script);
    var p2sh, p2wpkh, p2wsh := templates.isP2sh(script), templates.isP2wpkh(script), templates.isP2wsh(script);
    var p2tr, anchor := templates.isP2tr(script), script == [0x51, 0x02, 0x4e, 0x73];
    var program, opReturn := templates.isWitnessProgram(script), templates.isOpReturn(script);
    var legacy := p2pk || multisig || p2pkh || p2sh;
    var segwit := p2wpkh || p2wsh || p2tr || anchor || program;
    match family
    case P2pk => p2pk
    case BareMultisig => multisig && !p2pk
    case P2pkh => p2pkh && !p2pk && !multisig
    case P2sh => p2sh && !p2pk && !multisig && !p2pkh
    case P2wpkh => p2wpkh && !legacy
    case P2wsh => p2wsh && !legacy && !p2wpkh
    case P2tr => p2tr && !legacy && !p2wpkh && !p2wsh
    case P2a => anchor && !legacy && !p2wpkh && !p2wsh && !p2tr
    case UnknownWitnessProgram => program && !legacy && !p2wpkh && !p2wsh && !p2tr && !anchor
    case OpReturn => opReturn && !legacy && !segwit
    case UnknownScript => !opReturn && !legacy && !segwit
    case _ => false
  }

  lemma FamilyMeans(templates: Templates, script: Script, family: Label)
    ensures ScriptFamily(templates, script) == family <==> IsOf(templates, script, family)
  {
  }

  const FAMILIES: set<Label> := {
    P2pk, BareMultisig, P2pkh, P2sh, P2wpkh, P2wsh, P2tr, P2a, UnknownWitnessProgram, OpReturn, UnknownScript
  }

  /** When each property is reported, label by label. */
  ghost predicate PropertiesSay(labels: seq<Label>, templates: Templates, transaction: Decoded, prevouts: Prevouts) {
    && (Version1 in labels <==> transaction.version == 1) && (Version2 in labels <==> transaction.version == 2)
    && (Version3 in labels <==> transaction.version == 3)
    && (VersionOther in labels <==> transaction.version < 1 || transaction.version > 3)
    && (SignalsRbf in labels <==> exists i :: 0 <= i < |transaction.inputs| && transaction.inputs[i].signalsRbf)
    && (HasWitness in labels <==> exists i :: 0 <= i < |transaction.inputs| && |transaction.inputs[i].stack| > 0)
    && (HasTaprootAnnex in labels <==>
          exists i :: 0 <= i < |transaction.inputs| && i < |prevouts| && prevouts[i].Some?
                      && templates.isP2tr(prevouts[i].value) && EndsWithAnnex(transaction.inputs[i].stack))
    && forall family :: family in FAMILIES ==>
         (family in labels <==> exists script :: Sees(transaction, prevouts, script) && IsOf(templates, script, family))
  }

  // At least two elements, the last of which begins with 0x50.
  ghost predicate EndsWithAnnex(stack: seq<seq<Byte>>) {
    |stack| >= 2 && |stack[|stack| - 1]| >= 1 && stack[|stack| - 1][0] == 0x50
  }

  lemma PropertiesMean(labels: seq<Label>, templates: Templates, transaction: Decoded, prevouts: Prevouts)
    requires forall l :: l in labels <==> PropertyHolds(templates, transaction, prevouts, l)
    ensures PropertiesSay(labels, templates, transaction, prevouts)
  {
    hide ScriptFamily, IsOf, PropertyHolds, Sees;
    forall family | family in FAMILIES
      ensures family in labels <==> exists script :: Sees(transaction, prevouts, script) && IsOf(templates, script, family)
    {
      FamilySeen(templates, transaction, prevouts, family);
    }
    OwnProperties(templates, transaction, prevouts);
  }

  // The properties that scripts alone do not decide.
  lemma OwnProperties(templates: Templates, transaction: Decoded, prevouts: Prevouts)
    ensures PropertyHolds(templates, transaction, prevouts, Version1) <==> transaction.version == 1
    ensures PropertyHolds(templates, transaction, prevouts, Version2) <==> transaction.version == 2
    ensures PropertyHolds(templates, transaction, prevouts, Version3) <==> transaction.version == 3
    ensures PropertyHolds(templates, transaction, prevouts, VersionOther) <==> transaction.version < 1 || transaction.version > 3
    ensures PropertyHolds(templates, transaction, prevouts, SignalsRbf)
            <==> exists i :: 0 <= i < |transaction.inputs| && transaction.inputs[i].signalsRbf
    ensures PropertyHolds(templates, transaction, prevouts, HasWitness)
            <==> exists i :: 0 <= i < |transaction.inputs| && |transaction.inputs[i].stack| > 0
    ensures PropertyHolds(templates, transaction, prevouts, HasTaprootAnnex)
            <==> exists i :: 0 <= i < |transaction.inputs| && i < |prevouts| && prevouts[i].Some?
                             && templates.isP2tr(prevouts[i].value) && EndsWithAnnex(transaction.inputs[i].stack)
  {
    hide ScriptFamily, OutputFamily, InputFamily, AnnexSeen;
    NoFamily(templates, transaction, prevouts);
    AnnexMeans(templates, transaction, prevouts);
  }

  lemma AnnexMeans(templates: Templates, transaction: Decoded, prevouts: Prevouts)
    ensures AnnexSeen(templates, transaction, prevouts, |transaction.inputs|)
            <==> exists i :: 0 <= i < |transaction.inputs| && i < |prevouts| && prevouts[i].Some?
                             && templates.isP2tr(prevouts[i].value) && EndsWithAnnex(transaction.inputs[i].stack)
  {
    if i :| 0 <= i < |transaction.inputs| && i < |prevouts| && prevouts[i].Some?
            && templates.isP2tr(prevouts[i].value) && EndsWithAnnex(transaction.inputs[i].stack) {
      assert Prevout(prevouts, i) == prevouts[i];
    }
    if i :| 0 <= i < |transaction.inputs| && Prevout(prevouts, i).Some? && templates.isP2tr(Prevout(prevouts, i).value)
            && HasAnnexCandidate(transaction.inputs[i]) {
      assert EndsWithAnnex(transaction.inputs[i].stack);
    }
  }

  // Labels that are not families do not come from scripts.
  lemma NoFamily(templates: Templates, transaction: Decoded, prevouts: Prevouts)
    ensures forall l :: OutputFamily(templates, transaction, |transaction.outputs|, l) ==> l in FAMILIES
    ensures forall l :: InputFamily(templates, prevouts, |transaction.inputs|, l) ==> l in FAMILIES
  {
  }

  lemma FamilySeen(templates: Templates, transaction: Decoded, prevouts: Prevouts, family: Label)
    requires family in FAMILIES
    ensures PropertyHolds(templates, transaction, prevouts, family)
            <==> exists script :: Sees(transaction, prevouts, script) && IsOf(templates, script, family)
  {
    hide IsOf, ScriptFamily;
    if PropertyHolds(templates, transaction, prevouts, family) {
      if OutputFamily(templates, transaction, |transaction.outputs|, family) {
        var i :| 0 <= i < |transaction.outputs| && ScriptFamily(templates, transaction.outputs[i].script) == family;
        FamilyMeans(templates, transaction.outputs[i].script, family);
        assert Sees(transaction, prevouts, transaction.outputs[i].script);
      } else {
        assert InputFamily(templates, prevouts, |transaction.inputs|, family);
        var i :| 0 <= i < |transaction.inputs| && Prevout(prevouts, i).Some?
                 && ScriptFamily(templates, Prevout(prevouts, i).value) == family;
        FamilyMeans(templates, prevouts[i].value, family);
        assert Sees(transaction, prevouts, prevouts[i].value);
      }
    }
    if script :| Sees(transaction, prevouts, script) && IsOf(templates, script, family) {
      FamilyMeans(templates, script, family);
      if i :| 0 <= i < |transaction.outputs| && transaction.outputs[i].script == script {
        assert OutputFamily(templates, transaction, |transaction.outputs|, family);
      } else {
        var i :| 0 <= i < |transaction.inputs| && i < |prevouts| && prevouts[i] == Some(script);
        assert Prevout(prevouts, i) == Some(script);
        assert InputFamily(templates, prevouts, |transaction.inputs|, family);
      }
    }
  }

  lemma PropertiesReported(
    templates: Templates, transaction: Decoded, prevouts: Prevouts, found: set<Label>, labels: seq<Label>)
    requires forall l :: l in found <==> PropertyHolds(templates, transaction, prevouts, l)
    requires forall l :: l in labels <==> l in found && l in Declared(TransactionProperties)
    ensures forall l :: l in labels <==> PropertyHolds(templates, transaction, prevouts, l)
    ensures labels != []
  {
    hide Declared, OutputFamily, InputFamily, AnnexSeen;
    forall l | PropertyHolds(templates, transaction, prevouts, l) ensures l in labels {
      PropertiesDeclared(templates, transaction, prevouts, l);
    }
    assert PropertyHolds(templates, transaction, prevouts, VersionLabel(transaction.version));
    assert VersionLabel(transaction.version) in labels;
  }

  method OutputFamilies(templates: Templates, transaction: Decoded) returns (found: set<Label>)
    ensures forall l :: l in found <==> OutputFamily(templates, transaction, |transaction.outputs|, l)
  {
    hide ScriptFamily;
    found := {};
    for i := 0 to |transaction.outputs|
      invariant forall l :: l in found <==> OutputFamily(templates, transaction, i, l)
    {
      found := found + {ScriptFamily(templates, transaction.outputs[i].script)};
    }
  }

  method InputFamilies(templates: Templates, transaction: Decoded, prevouts: Prevouts)
    returns (found: set<Label>, missing: nat, annex: nat)
    ensures forall l :: l in found <==> InputFamily(templates, prevouts, |transaction.inputs|, l)
    ensures missing == 0 <==> AllKnown(transaction, prevouts)
    ensures annex > 0 <==> AnnexSeen(templates, transaction, prevouts, |transaction.inputs|)
  {
    hide ScriptFamily, HasAnnexCandidate;
    found, missing, annex := {}, 0, 0;
    for i := 0 to |transaction.inputs|
      invariant forall l :: l in found <==> InputFamily(templates, prevouts, i, l)
      invariant missing == 0 <==> forall j :: 0 <= j < i ==> Prevout(prevouts, j).Some?
      invariant annex > 0 <==> AnnexSeen(templates, transaction, prevouts, i)
    {
      var prevout := Prevout(prevouts, i);
      if prevout.None? {
        missing := missing + 1;
      } else {
        found := found + {ScriptFamily(templates, prevout.value)};
        if templates.isP2tr(prevout.value) && HasAnnexCandidate(transaction.inputs[i]) {
          annex := annex + 1;
        }
      }
    }
  }

  // --- transaction shape -----------------------------------------------------------------------

  const SHAPE_RATIO: nat := 5
  const COINJOIN_MIN_INPUTS: nat := 5
  const COINJOIN_MIN_OUTPUTS: nat := 5
  const COINJOIN_MIN_EQUAL_OUTPUTS: nat := 3

  // How many outputs carry a value.
  function Times(outputs: seq<Output>, sats: nat): nat {
    if outputs == [] then 0
    else Times(outputs[..|outputs| - 1], sats) + (if outputs[|outputs| - 1].sats == sats then 1 else 0)
  }

  /** The most repeated value above zero; among equals, the largest. */
  method MostRepeatedNonzeroOutput(outputs: seq<Output>) returns (repeated: Option<(nat, nat)>)
    ensures repeated.None? ==> forall sats :: sats > 0 ==> Times(outputs, sats) == 0
    ensures repeated.Some? ==>
              && repeated.value.0 > 0 && repeated.value.1 == Times(outputs, repeated.value.0) > 0
              && forall sats :: sats > 0 && sats != repeated.value.0 ==>
                   || Times(outputs, sats) < repeated.value.1
                   || (Times(outputs, sats) == repeated.value.1 && sats < repeated.value.0)
  {
    var counts: map<nat, nat> := map[];
    assert outputs[..0] == [];
    for i := 0 to |outputs|
      invariant forall sats :: sats in counts <==> sats > 0 && Times(outputs[..i], sats) > 0
      invariant forall sats :: sats in counts ==> counts[sats] == Times(outputs[..i], sats)
    {
      assert outputs[..i + 1][..i] == outputs[..i];
      var sats := outputs[i].sats;
      if sats > 0 {
        counts := counts[sats := (if sats in counts then counts[sats] else 0) + 1];
      }
    }
    assert outputs[..|outputs|] == outputs;
    var left := counts.Keys;
    repeated := None;
    while left != {}
      invariant left <= counts.Keys
      invariant repeated.None? <==> left == counts.Keys
      invariant repeated.Some? ==>
                  && repeated.value.0 in counts.Keys - left && repeated.value.1 == counts[repeated.value.0]
                  && forall sats :: sats in counts.Keys - left && sats != repeated.value.0 ==>
                       || counts[sats] < repeated.value.1
                       || (counts[sats] == repeated.value.1 && sats < repeated.value.0)
      decreases left
    {
      var sats :| sats in left;
      left := left - {sats};
      if repeated.None? || repeated.value.1 < counts[sats]
         || (repeated.value.1 == counts[sats] && repeated.value.0 < sats) {
        repeated := Some((sats, counts[sats]));
      }
    }
  }

  method AllUnique(values: seq<Script>) returns (unique: bool)
    ensures unique <==> NoDuplicates(values)
  {
    var seen: set<Script> := {};
    for i := 0 to |values|
      invariant NoDuplicates(values[..i]) && forall v :: v in seen <==> v in values[..i]
    {
      if values[i] in seen {
        return false;
      }
      assert values[..i + 1] == values[..i] + [values[i]];
      seen := seen + {values[i]};
    }
    assert values[..|values|] == values;
    return true;
  }

  function OutputScripts(transaction: Decoded): seq<Script> {
    seq(|transaction.outputs|, i requires 0 <= i < |transaction.outputs| => transaction.outputs[i].script)
  }

  predicate ScriptsKnown(transaction: Decoded, prevouts: Prevouts) {
    |transaction.inputs| == |prevouts| && AllKnown(transaction, prevouts)
  }

  function KnownScripts(prevouts: Prevouts): seq<Script> {
    if prevouts == [] then []
    else
      KnownScripts(prevouts[..|prevouts| - 1])
      + (if prevouts[|prevouts| - 1].Some? then [prevouts[|prevouts| - 1].value] else [])
  }

  predicate IsConsolidation(transaction: Decoded) {
    && |transaction.inputs| >= SHAPE_RATIO && |transaction.outputs| > 0
    && |transaction.inputs| >= |transaction.outputs| * SHAPE_RATIO
  }

  predicate IsBatchPayout(transaction: Decoded) {
    && |transaction.outputs| >= SHAPE_RATIO && |transaction.inputs| > 0
    && |transaction.outputs| >= |transaction.inputs| * SHAPE_RATIO
  }

  ghost predicate IsPossibleCoinjoin(transaction: Decoded, prevouts: Prevouts, hasDataProtocol: bool) {
    && |transaction.inputs| >= COINJOIN_MIN_INPUTS && |transaction.outputs| >= COINJOIN_MIN_OUTPUTS
    && (exists sats :: sats > 0 && Times(transaction.outputs, sats) >= COINJOIN_MIN_EQUAL_OUTPUTS)
    && NoDuplicates(OutputScripts(transaction))
    && ScriptsKnown(transaction, prevouts) && NoDuplicates(KnownScripts(prevouts))
    && !hasDataProtocol
  }

  /** What the shapes claim of a transaction, in numbers. */
  ghost predicate ShapesSay(labels: seq<Label>, transaction: Decoded, prevouts: Prevouts) {
    var inputs, outputs := |transaction.inputs|, |transaction.outputs|;
    && (Consolidation in labels <==> inputs >= 5 && outputs >= 1 && inputs >= 5 * outputs)
    && (BatchPayout in labels <==> outputs >= 5 && inputs >= 1 && outputs >= 5 * inputs)
    && (PossibleCoinjoin in labels ==> LooksLikeCoinjoin(transaction, prevouts))
  }

  // Enough on both sides, some value three times, and no script twice on either side.
  ghost predicate LooksLikeCoinjoin(transaction: Decoded, prevouts: Prevouts) {
    && |transaction.inputs| >= 5 && |transaction.outputs| >= 5 && |prevouts| == |transaction.inputs|
    && (exists sats :: sats > 0 && Times(transaction.outputs, sats) >= 3)
    && (forall i, j :: 0 <= i < j < |transaction.outputs| ==>
          transaction.outputs[i].script != transaction.outputs[j].script)
    && (forall i, j :: 0 <= i < j < |prevouts| ==> prevouts[i].Some? && prevouts[j].Some? && prevouts[i] != prevouts[j])
  }

  lemma CoinjoinMeans(transaction: Decoded, prevouts: Prevouts, hasDataProtocol: bool)
    requires IsPossibleCoinjoin(transaction, prevouts, hasDataProtocol)
    ensures LooksLikeCoinjoin(transaction, prevouts)
  {
    var sats :| sats > 0 && Times(transaction.outputs, sats) >= COINJOIN_MIN_EQUAL_OUTPUTS;
    assert Times(transaction.outputs, sats) >= 3;
    var scripts := OutputScripts(transaction);
    assert forall i :: 0 <= i < |scripts| ==> scripts[i] == transaction.outputs[i].script;
    forall i | 0 <= i < |prevouts| ensures prevouts[i].Some? {
      assert Prevout(prevouts, i).Some?;
    }
    KnownAt(prevouts);
  }

  lemma ShapesMean(labels: seq<Label>, transaction: Decoded, prevouts: Prevouts, hasDataProtocol: bool)
    requires Consolidation in labels <==> IsConsolidation(transaction)
    requires BatchPayout in labels <==> IsBatchPayout(transaction)
    requires PossibleCoinjoin in labels <==> IsPossibleCoinjoin(transaction, prevouts, hasDataProtocol)
    ensures ShapesSay(labels, transaction, prevouts)
  {
    if PossibleCoinjoin in labels {
      CoinjoinMeans(transaction, prevouts, hasDataProtocol);
    }
  }

  // When all are known, the known scripts are all of them.
  lemma {:induction false} KnownAt(prevouts: Prevouts)
    requires forall i :: 0 <= i < |prevouts| ==> prevouts[i].Some?
    ensures |KnownScripts(prevouts)| == |prevouts|
    ensures forall i :: 0 <= i < |prevouts| ==> KnownScripts(prevouts)[i] == prevouts[i].value
  {
    if prevouts != [] {
      var front, last := prevouts[..|prevouts| - 1], prevouts[|prevouts| - 1];
      assert forall i :: 0 <= i < |front| ==> front[i] == prevouts[i];
      KnownAt(front);
      assert KnownScripts(prevouts) == KnownScripts(front) + [last.value];
    }
  }

  ghost predicate IsShapeOf(result: LensResult, transaction: Decoded, prevouts: Prevouts, data: LensResult) {
    && InOrder(result.labels) && (result.state == Complete <==> ScriptsKnown(transaction, prevouts))
    && (Consolidation in result.labels <==> IsConsolidation(transaction))
    && (BatchPayout in result.labels <==> IsBatchPayout(transaction))
    && (PossibleCoinjoin in result.labels <==>
          IsPossibleCoinjoin(transaction, prevouts, exists l :: l in data.labels && l != NoDetectedProtocol))
    && (OtherShape in result.labels ==> result.state == Complete && result.labels == [OtherShape])
    && (result.labels == [] <==>
          !IsConsolidation(transaction) && !IsBatchPayout(transaction) && !ScriptsKnown(transaction, prevouts))
    && ShapesSay(result.labels, transaction, prevouts)
    && result.primaryLabel == (if result.labels == [] then None else Some(result.labels[0]))
  }

  /** Reports exactly the shapes that match. The negative claim is made only when
      all facts are there and nothing else matched. */
  method ShapeOf(transaction: Decoded, prevouts: Prevouts, data: LensResult) returns (result: LensResult)
    ensures ResultOk(result, TransactionShape) && IsShapeOf(result, transaction, prevouts, data)
  {
    hide Retain, LabelOrder, KnownScripts, IsConsolidation, IsBatchPayout, Declared, InOrder, Place, ShapesSay;
    var found := {};
    if IsConsolidation(transaction) {
      found := found + {Consolidation};
    }
    if IsBatchPayout(transaction) {
      found := found + {BatchPayout};
    }
    var known := ScriptsKnown(transaction, prevouts);
    var coinjoin := DetectCoinjoin(transaction, prevouts, data);
    if coinjoin {
      found := found + {PossibleCoinjoin};
    }
    if found == {} && known {
      found := found + {OtherShape};
    }
    OrderedLabels(found, TransactionShape);
    var labels := Retain(LabelOrder(TransactionShape), found);
    ShapesReported(found, labels, IsConsolidation(transaction), IsBatchPayout(transaction), coinjoin, known);
    ShapesMean(labels, transaction, prevouts, exists l :: l in data.labels && l != NoDetectedProtocol);
    result := LensResult(
      TransactionShape, if known then Complete else Partial, if labels == [] then None else Some(labels[0]), labels,
      if known then [] else [InputScriptPubkeys], true);
  }

  lemma ShapesReported(
    found: set<Label>, labels: seq<Label>, consolidation: bool, payout: bool, coinjoin: bool, known: bool)
    requires NoDuplicates(labels) && forall l :: l in labels <==> l in found && l in Declared(TransactionShape)
    requires var shapes := (if consolidation then {Consolidation} else {}) + (if payout then {BatchPayout} else {})
                           + (if coinjoin then {PossibleCoinjoin} else {});
             found == if shapes == {} && known then {OtherShape} else shapes
    ensures (Consolidation in labels <==> consolidation) && (BatchPayout in labels <==> payout)
    ensures PossibleCoinjoin in labels <==> coinjoin
    ensures OtherShape in labels ==> known && labels == [OtherShape]
    ensures labels == [] <==> !consolidation && !payout && !coinjoin && !known
  {
    if OtherShape in labels {
      OnlyLabel(labels, OtherShape);
    }
    if labels == [] {
      assert forall l :: l in Declared(TransactionShape) ==> l !in found;
    } else {
      assert labels[0] in labels;
    }
  }

  lemma OnlyLabel(labels: seq<Label>, l: Label)
    requires NoDuplicates(labels) && l in labels && forall x :: x in labels ==> x == l
    ensures labels == [l]
  {
    NoDuplicatesSize(labels);
    assert Elements(labels) == {l};
  }

  method DetectCoinjoin(transaction: Decoded, prevouts: Prevouts, data: LensResult) returns (detected: bool)
    ensures detected <==>
              IsPossibleCoinjoin(transaction, prevouts, exists l :: l in data.labels && l != NoDetectedProtocol)
  {
    hide KnownScripts;
    var repeated := MostRepeatedNonzeroOutput(transaction.outputs);
    var uniqueOutputs := AllUnique(OutputScripts(transaction));
    var known := ScriptsKnown(transaction, prevouts);
    var uniqueInputs := AllUnique(KnownScripts(prevouts));
    var hasDataProtocol := exists l :: l in data.labels && l != NoDetectedProtocol;
    detected :=
      && |transaction.inputs| >= COINJOIN_MIN_INPUTS && |transaction.outputs| >= COINJOIN_MIN_OUTPUTS
      && repeated.Some? && repeated.value.1 >= COINJOIN_MIN_EQUAL_OUTPUTS
      && uniqueOutputs && known && uniqueInputs && !hasDataProtocol;
  }

  // --- data protocols and policy ------------------------------------------------------------------

  const FINGERPRINTS: set<Label> := {Inscription, Brc20, Runes, Stamps, Counterparty, Omni, OtherOpReturn}

  ghost predicate IsDataOf(result: LensResult, fingerprints: set<Label>) {
    && result.state == Complete && result.labels != [] && InOrder(result.labels) && result.primaryLabel == Some(result.labels[0])
    && forall l :: l in result.labels <==> if fingerprints == {} then l == NoDetectedProtocol else l in fingerprints
  }

  /** Reports the protocols whose fingerprints were found, or that none was. */
  method DataOf(fingerprints: set<Label>) returns (result: LensResult)
    requires fingerprints <= FINGERPRINTS
    ensures ResultOk(result, DataProtocols) && IsDataOf(result, fingerprints)
  {
    hide Retain, LabelOrder, Declared;
    var found := if fingerprints == {} then {NoDetectedProtocol} else fingerprints;
    FingerprintsDeclared(found);
    OrderedLabels(found, DataProtocols);
    var labels := Retain(LabelOrder(DataProtocols), found);
    var l :| l in found;
    assert l in labels;
    result := LensResult(DataProtocols, Complete, Some(labels[0]), labels, [], true);
  }

  lemma FingerprintsDeclared(found: set<Label>)
    requires found <= FINGERPRINTS + {NoDetectedProtocol}
    ensures found <= Declared(DataProtocols)
  {
  }

  function StatusLabel(status: Status): Label {
    match status
    case Compatible => CompatibleLabel
    case Violating => ViolatingLabel
    case Indeterminate => IndeterminateLabel
  }

  // What the policy lens says of an assessment: its verdict alone, and whether rules are unknown.
  ghost predicate AgreesWith(result: LensResult, assessment: Assessment) {
    && (CompatibleLabel in result.labels <==> assessment.status == Compatible)
    && (ViolatingLabel in result.labels <==> assessment.status == Violating)
    && (IndeterminateLabel in result.labels <==> assessment.status == Indeterminate)
    && |result.labels| == 1 && result.primaryLabel == Some(result.labels[0])
    && (result.state == Complete <==> assessment.unknownRules == [])
    && (PolicyFacts in result.missingFacts <==> assessment.unknownRules != [])
  }

  function Bip110Result(assessment: Assessment): (result: LensResult)
    ensures ResultOk(result, KnotsBip110) && AgreesWith(result, assessment)
  {
    var verdict := StatusLabel(assessment.status);
    var partial := assessment.unknownRules != [];
    LensResult(
      KnotsBip110, if partial then Partial else Complete, Some(verdict), [verdict], if partial then [PolicyFacts] else [], true)
  }

  // Each result is its lens's view of this transaction.
  ghost predicate AreResultsOf(
    results: seq<LensResult>, templates: Templates, transaction: Decoded, prevouts: Prevouts, fingerprints: set<Label>,
    assessment: Assessment)
  {
    && |results| == |CATALOG|
    && IsPropertiesOf(results[0], templates, transaction, prevouts)
    && IsShapeOf(results[1], transaction, prevouts, results[2])
    && IsDataOf(results[2], fingerprints) && results[3] == Bip110Result(assessment)
  }

  /** All four lenses in catalog order, each as the validator demands. */
  method ClassifyTransaction(
    templates: Templates, transaction: Decoded, prevouts: Prevouts, fingerprints: set<Label>, assessment: Assessment)
    returns (results: seq<LensResult>)
    requires fingerprints <= FINGERPRINTS
    ensures ResultsOk(results) && AreResultsOf(results, templates, transaction, prevouts, fingerprints, assessment)
  {
    hide ResultOk, IsPropertiesOf, IsShapeOf, IsDataOf;
    var data := DataOf(fingerprints);
    var properties := PropertiesOf(templates, transaction, prevouts);
    var shape := ShapeOf(transaction, prevouts, data);
    results := [properties, shape, data, Bip110Result(assessment)];
  }
}
