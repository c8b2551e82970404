/** Policy assessments of transactions: the seven rules, and which of them a
    transaction violates or leaves unknown. */
module Assessments {
  import opened Base

  datatype Rule = OutputSize | ElementSize | UndefinedVersion | TaprootAnnex | ControlBlockSize | OpSuccess | TapscriptOpIf

  const RULES: seq<Rule> := [
    OutputSize, ElementSize, UndefinedVersion, TaprootAnnex, ControlBlockSize, OpSuccess, TapscriptOpIf
  ]

  // A rule's number is its place in the canonical order, from one.
  function Number(rule: Rule): nat {
    match rule
    case OutputSize => 1
    case ElementSize => 2
    case UndefinedVersion => 3
    case TaprootAnnex => 4
    case ControlBlockSize => 5
    case OpSuccess => 6
    case TapscriptOpIf => 7
  }

  datatype Status = Compatible | Violating | Indeterminate

  datatype Assessment = Assessment(
    status: Status, primaryRule: Option<Rule>, violatedRules: seq<Rule>, unknownRules: seq<Rule>)
}
