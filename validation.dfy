/** The specification validator: turns the raw `score_modifiers` payload into a
    `Modifiers` value, or rejects it with an `InvalidArgError` before any
    retrieval work is done. A single malformed part rejects the whole payload. */
module Validation {
  import opened Json
  import opened ScoreModifiers

  /** A field name a term may reference: a non-empty string other than `_id`. */
  predicate ValidFieldName(name: string)
  {
    name != "" && name != IdField
  }

  /** What every validated spec satisfies: some term is present, and every term
      references a valid field name. */
  predicate WellFormed(s: ModifierSpec)
  {
    (s.multiplyTerms != [] || s.addTerms != [])
    && (forall i :: 0 <= i < |s.multiplyTerms| ==> ValidFieldName(s.multiplyTerms[i].fieldName))
    && (forall i :: 0 <= i < |s.addTerms| ==> ValidFieldName(s.addTerms[i].fieldName))
  }

  // ---------------------------------------------------------------------------
  // The validator
  // ---------------------------------------------------------------------------

  /** Checks one raw term of a container list. */
  function ValidateTerm(raw: Json): (r: Result<Term>)
    ensures r.Ok? ==> ValidFieldName(r.value.fieldName)
  {
    match raw
    case Obj(m) =>
      if !(m.Keys <= {FieldNameKey, WeightKey}) then
        Err(InvalidArgError("a score modifier term may only have the keys field_name and weight"))
      else if FieldNameKey !in m then
        Err(InvalidArgError("a score modifier term needs a field_name"))
      else if !m[FieldNameKey].Str? then
        Err(InvalidArgError("field_name must be a string"))
      else if m[FieldNameKey].s == "" then
        Err(InvalidArgError("field_name must not be empty"))
      else if m[FieldNameKey].s == IdField then
        Err(InvalidArgError("field_name must not be _id"))
      else if WeightKey !in m then
        Ok(Term(m[FieldNameKey].s, None))
      else if !m[WeightKey].Num? then
        Err(InvalidArgError("weight must be a number"))
      else
        Ok(Term(m[FieldNameKey].s, Some(m[WeightKey].n)))
    case _ =>
      Err(InvalidArgError("a score modifier term must be an object"))
  }

  /** Checks the terms of one container list, all or nothing: the result keeps
      the order of the input, and one bad term rejects the list. */
  function ValidateTerms(items: seq<Json>): (r: Result<seq<Term>>)
    ensures r.Ok? ==> |r.value| == |items|
    ensures r.Ok? ==> forall i :: 0 <= i < |items| ==> ValidateTerm(items[i]) == Ok(r.value[i])
    ensures r.Err? <==> exists i :: 0 <= i < |items| && ValidateTerm(items[i]).Err?
  {
    if items == [] then Ok([])
    else
      match ValidateTerm(items[0])
      case Err(e) => Err(e)
      case Ok(t) =>
        match ValidateTerms(items[1..])
        case Err(e) =>
          ghost var j :| 0 <= j < |items[1..]| && ValidateTerm(items[1..][j]).Err?;
          assert ValidateTerm(items[j + 1]).Err?;
          Err(e)
        case Ok(ts) => Ok([t] + ts)
  }

  /** Checks one container key of the top-level object: absent means no terms;
      present, it must be a non-empty list of valid terms. */
  function ValidateContainer(m: map<string, Json>, key: string): (r: Result<seq<Term>>)
    ensures key !in m ==> r == Ok([])
    ensures key in m && r.Ok? ==> m[key].List? && |r.value| == |m[key].items| > 0
  {
    if key !in m then Ok([])
    else
      match m[key]
      case List(items) =>
        if items == [] then Err(InvalidArgError(key + " must not be an empty list"))
        else ValidateTerms(items)
      case _ => Err(InvalidArgError(key + " must be a list of terms"))
  }

  /** Validates a raw `score_modifiers` payload. `Null` asks for no modifiers. */
  function Validate(raw: Json): (r: Result<Modifiers>)
    ensures r == Ok(NoModifiers) <==> raw == Null
    ensures r.Ok? && r.value.Modifiers? ==> WellFormed(r.value.spec)
  {
    match raw
    case Null => Ok(NoModifiers)
    case Obj(m) =>
      if !(m.Keys <= {MultiplyKey, AddKey}) then
        Err(InvalidArgError("score_modifiers may only have the keys multiply_score_by and add_to_score"))
      else if m.Keys == {} then
        Err(InvalidArgError("score_modifiers needs multiply_score_by or add_to_score"))
      else
        (match ValidateContainer(m, MultiplyKey)
         case Err(e) => Err(e)
         case Ok(mul) =>
           match ValidateContainer(m, AddKey)
           case Err(e) => Err(e)
           case Ok(add) => Ok(Modifiers(ModifierSpec(mul, add))))
    case _ =>
      Err(InvalidArgError("score_modifiers must be an object"))
  }

  // ---------------------------------------------------------------------------
  // The accepted shapes, stated declaratively
  // ---------------------------------------------------------------------------

  /** An acceptable term: an object with a string `field_name` that may be
      referenced, an optional numeric `weight`, and no other key. */
  ghost predicate TermShape(raw: Json)
  {
    raw.Obj?
    && (forall k :: k in raw.fields ==> k == FieldNameKey || k == WeightKey)
    && FieldNameKey in raw.fields
    && raw.fields[FieldNameKey].Str? && ValidFieldName(raw.fields[FieldNameKey].s)
    && (WeightKey in raw.fields ==> raw.fields[WeightKey].Num?)
  }

  /** An acceptable container value: a non-empty list of acceptable terms. */
  ghost predicate ContainerShape(v: Json)
  {
    v.List? && |v.items| > 0 && forall i :: 0 <= i < |v.items| ==> TermShape(v.items[i])
  }

  /** An acceptable payload: `Null`, or an object whose keys are some non-empty
      subset of the two container keys, each holding an acceptable container. */
  ghost predicate SpecShape(raw: Json)
  {
    raw == Null
    || (raw.Obj?
        && (forall k :: k in raw.fields ==> k == MultiplyKey || k == AddKey)
        && (MultiplyKey in raw.fields || AddKey in raw.fields)
        && (forall k :: k in raw.fields ==> ContainerShape(raw.fields[k])))
  }

  lemma ValidateTermAcceptsExactly(raw: Json)
    ensures ValidateTerm(raw).Ok? <==> TermShape(raw)
  {
    if raw.Obj? {
      var m := raw.fields;
      assert (m.Keys <= {FieldNameKey, WeightKey}) <==>
             (forall k :: k in m ==> k == FieldNameKey || k == WeightKey);
    }
  }

  lemma ValidateContainerAcceptsExactly(m: map<string, Json>, key: string)
    requires key in m
    ensures ValidateContainer(m, key).Ok? <==> ContainerShape(m[key])
  {
    if m[key].List? {
      var items := m[key].items;
      forall i | 0 <= i < |items| {
        ValidateTermAcceptsExactly(items[i]);
      }
    }
  }

  /** The validator accepts exactly the declared shapes and rejects every other
      payload. */
  lemma ValidateAcceptsExactly(raw: Json)
    ensures Validate(raw).Ok? <==> SpecShape(raw)
  {
    if raw.Obj? {
      var m := raw.fields;
      assert (m.Keys <= {MultiplyKey, AddKey}) <==>
             (forall k :: k in m ==> k == MultiplyKey || k == AddKey);
      if m.Keys <= {MultiplyKey, AddKey} && MultiplyKey !in m && AddKey !in m {
        assert m.Keys == {};
      }
      if MultiplyKey in m { ValidateContainerAcceptsExactly(m, MultiplyKey); }
      if AddKey in m { ValidateContainerAcceptsExactly(m, AddKey); }
    }
  }

  // ---------------------------------------------------------------------------
  // The inverse of the validator: every validated spec as the payload it came from
  // ---------------------------------------------------------------------------

  function TermToJson(t: Term): Json
  {
    match t.weight
    case None => Obj(map[FieldNameKey := Str(t.fieldName)])
    case Some(w) => Obj(map[FieldNameKey := Str(t.fieldName), WeightKey := Num(w)])
  }

  function TermsToJson(ts: seq<Term>): seq<Json>
  {
    seq(|ts|, i requires 0 <= i < |ts| => TermToJson(ts[i]))
  }

  /** A container key with its terms, or nothing when there are none. */
  function ContainerToJson(key: string, ts: seq<Term>): map<string, Json>
  {
    if ts == [] then map[] else map[key := List(TermsToJson(ts))]
  }

  function ModifiersToJson(mods: Modifiers): Json
  {
    match mods
    case NoModifiers => Null
    case Modifiers(s) =>
      Obj(ContainerToJson(MultiplyKey, s.multiplyTerms) + ContainerToJson(AddKey, s.addTerms))
  }

  lemma TermRoundTrip(t: Term)
    requires ValidFieldName(t.fieldName)
    ensures ValidateTerm(TermToJson(t)) == Ok(t)
  {
  }

  lemma {:induction false} TermsRoundTrip(ts: seq<Term>)
    requires forall i :: 0 <= i < |ts| ==> ValidFieldName(ts[i].fieldName)
    ensures ValidateTerms(TermsToJson(ts)) == Ok(ts)
  {
    if ts != [] {
      TermRoundTrip(ts[0]);
      assert TermsToJson(ts)[1..] == TermsToJson(ts[1..]);
      TermsRoundTrip(ts[1..]);
      assert [ts[0]] + ts[1..] == ts;
    }
  }

  /** Every well-formed spec, written out as a payload, validates back to itself. */
  lemma ValidateInvertsToJson(mods: Modifiers)
    requires mods.Modifiers? ==> WellFormed(mods.spec)
    ensures Validate(ModifiersToJson(mods)) == Ok(mods)
  {
    if mods.Modifiers? {
      var s := mods.spec;
      var m := ContainerToJson(MultiplyKey, s.multiplyTerms) + ContainerToJson(AddKey, s.addTerms);
      assert m.Keys <= {MultiplyKey, AddKey};
      if s.multiplyTerms != [] {
        assert MultiplyKey in m;
        TermsRoundTrip(s.multiplyTerms);
      }
      if s.addTerms != [] {
        assert AddKey in m;
        TermsRoundTrip(s.addTerms);
      }
    }
  }

  lemma TermIsToJson(raw: Json, t: Term)
    requires ValidateTerm(raw) == Ok(t)
    ensures raw == TermToJson(t)
  {
    var m := raw.fields;
    if WeightKey in m {
      assert m.Keys == {FieldNameKey, WeightKey};
      assert m == map[FieldNameKey := Str(t.fieldName), WeightKey := Num(t.weight.value)];
    } else {
      assert m.Keys == {FieldNameKey};
      assert m == map[FieldNameKey := Str(t.fieldName)];
    }
  }

  lemma TermsAreToJson(items: seq<Json>, ts: seq<Term>)
    requires ValidateTerms(items) == Ok(ts)
    ensures items == TermsToJson(ts)
  {
    forall i | 0 <= i < |items|
      ensures items[i] == TermsToJson(ts)[i]
    {
      TermIsToJson(items[i], ts[i]);
    }
  }

  lemma ContainerIsToJson(m: map<string, Json>, key: string, ts: seq<Term>)
    requires ValidateContainer(m, key) == Ok(ts)
    ensures key in m ==> m[key] == List(TermsToJson(ts)) && ts != []
    ensures key !in m ==> ts == []
  {
    if key in m {
      TermsAreToJson(m[key].items, ts);
    }
  }

  /** The validator loses nothing: an accepted payload is exactly what its
      validated spec writes out, so two payloads that validate to the same
      spec are the same payload. */
  lemma AcceptedIsToJson(raw: Json, mods: Modifiers)
    requires Validate(raw) == Ok(mods)
    ensures raw == ModifiersToJson(mods)
  {
    if raw.Obj? {
      var m := raw.fields;
      var s := mods.spec;
      ContainerIsToJson(m, MultiplyKey, s.multiplyTerms);
      ContainerIsToJson(m, AddKey, s.addTerms);
      var m' := ContainerToJson(MultiplyKey, s.multiplyTerms) + ContainerToJson(AddKey, s.addTerms);
      assert m.Keys == m'.Keys;
      assert m == m';
    }
  }

  /** Leaving `weight` out of a term is the same as giving weight 1: the term is
      accepted or rejected alike, and when accepted it names the same field with
      the same effective weight. */
  lemma OmittedWeightIsWeightOne(m: map<string, Json>)
    requires WeightKey !in m
    ensures ValidateTerm(Obj(m)).Ok? <==> ValidateTerm(Obj(m[WeightKey := Num(1.0)])).Ok?
    ensures ValidateTerm(Obj(m)).Ok? ==>
              ValidateTerm(Obj(m)).value.weight == None
              && ValidateTerm(Obj(m[WeightKey := Num(1.0)])).value
                 == Term(ValidateTerm(Obj(m)).value.fieldName, Some(1.0))
  {
    var m1 := m[WeightKey := Num(1.0)];
    assert m1.Keys == m.Keys + {WeightKey};
    assert m.Keys <= {FieldNameKey, WeightKey} <==> m1.Keys <= {FieldNameKey, WeightKey};
    if FieldNameKey in m {
      assert m1[FieldNameKey] == m[FieldNameKey];
    }
  }
}
