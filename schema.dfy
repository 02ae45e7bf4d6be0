/**
 * The shape of a derivation-table row: the rule it applies, its label, its
 * output key and the input fields it reads, and what it takes for a row to
 * suit its rule.
 */
module Schema {
  import opened Wrappers

  /** The rule a row applies. */
  datatype Parser =
    | Age | Sex | DiseaseHistory | FamilyHistory | ZeroDiscard | Agatston
    | Bmi | Girth | Bp | Pass | Alcohol | Cigarette | Betel | Drink | Food
    | Exercise | Psqi | Bsrs5 | GlucoseU | HsCrp

  /** One row: rule, label (used in messages), output key, and input field names. */
  datatype Op = Op(parser: Parser, colLabel: string, colName: string, fields: seq<string>)

  /** The number of inputs each rule insists on; the keyword rules take any number. */
  function Arity(p: Parser): Option<nat> {
    match p
    case Age => Some(2)
    case Sex => Some(1)
    case DiseaseHistory => None
    case FamilyHistory => None
    case ZeroDiscard => Some(1)
    case Agatston => Some(6)
    case Bmi => Some(3)
    case Girth => Some(1)
    case Bp => Some(2)
    case Pass => Some(1)
    case Alcohol => Some(8)
    case Cigarette => Some(4)
    case Betel => Some(1)
    case Drink => Some(1)
    case Food => Some(1)
    case Exercise => Some(4)
    case Psqi => Some(7)
    case Bsrs5 => Some(5)
    case GlucoseU => Some(1)
    case HsCrp => Some(2)
  }

  /** A row is well formed: it reads some field, and as many as its rule insists on. */
  predicate WellFormedRow(op: Op) {
    |op.fields| >= 1 && (Arity(op.parser).Some? ==> |op.fields| == Arity(op.parser).value)
  }

  predicate AllWellFormed(ops: seq<Op>) {
    forall k :: 0 <= k < |ops| ==> WellFormedRow(ops[k])
  }

  lemma AppendWellFormed(a: seq<Op>, b: seq<Op>)
    requires AllWellFormed(a) && AllWellFormed(b)
    ensures AllWellFormed(a + b)
  {
    forall k | 0 <= k < |a + b| ensures WellFormedRow((a + b)[k]) {
      if k >= |a| { assert (a + b)[k] == b[k - |a|]; }
    }
  }
}
