/** The validated form of a score-modifier specification, shared by the
    validator that builds it and the combinator that applies it. */
module ScoreModifiers {

  /** The two container keys a specification may carry. */
  const MultiplyKey: string := "multiply_score_by"
  const AddKey: string := "add_to_score"

  /** The two keys a term may carry. */
  const FieldNameKey: string := "field_name"
  const WeightKey: string := "weight"

  /** The document-identity field, which no term may reference. */
  const IdField: string := "_id"

  datatype Option<T> = None | Some(value: T)

  /** One weighted field reference; `weight` is `None` when the client left it out. */
  datatype Term = Term(fieldName: string, weight: Option<real>)

  /** The two term lists, in declaration order; a missing container is an empty list. */
  datatype ModifierSpec = ModifierSpec(multiplyTerms: seq<Term>, addTerms: seq<Term>)

  /** What a request asks for: no modifiers at all (`score_modifiers=None`), or a spec. */
  datatype Modifiers = NoModifiers | Modifiers(spec: ModifierSpec)

  /** The one error kind the validator raises, with a reason for the client. */
  datatype InvalidArgError = InvalidArgError(reason: string)

  datatype Result<T> = Ok(value: T) | Err(error: InvalidArgError)

  /** The weight a term contributes: its own, or 1 when it has none. */
  function WeightOf(t: Term): real
  {
    match t.weight
    case Some(x) => x
    case None => 1.0
  }
}
