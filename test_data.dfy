/** The test suite's fixtures as values — the five accepted specifications, the
    twelve rejected ones and the scored documents — and what the model says
    about each of them. Python's `1` and `1.0` are both `Num(1.0)` here. */
module TestData {
  import opened Json
  import opened ScoreModifiers
  import opened Validation
  import opened Combinator
  import opened Hits

  /** A raw term with a weight, and one without. */
  function RawTerm(name: string, weight: real): Json
  {
    Obj(map[FieldNameKey := Str(name), WeightKey := Num(weight)])
  }

  function RawTermNoWeight(name: string): Json
  {
    Obj(map[FieldNameKey := Str(name)])
  }

  // ---------------------------------------------------------------------------
  // The five accepted specifications
  // ---------------------------------------------------------------------------

  const RawAddTerms: Json := List([RawTerm("add_1", -3.0), RawTerm("add_2", 1.0)])

  /** One weight left out. */
  const ValidMissingWeight: Json :=
    Obj(map[MultiplyKey := List([RawTerm("multiply_1", 1.0), RawTermNoWeight("multiply_2")]),
            AddKey := RawAddTerms])

  /** A zero weight. */
  const ValidZeroWeight: Json :=
    Obj(map[MultiplyKey := List([RawTerm("multiply_1", 1.0), RawTerm("multiply_2", 0.0)]),
            AddKey := RawAddTerms])

  /** One multiply field removed. */
  const ValidOneMultiply: Json :=
    Obj(map[MultiplyKey := List([RawTerm("multiply_2", 1.2)]),
            AddKey := RawAddTerms])

  /** No `multiply_score_by`. */
  const ValidAddOnly: Json :=
    Obj(map[AddKey := RawAddTerms])

  /** No `add_to_score`. */
  const ValidMultiplyOnly: Json :=
    Obj(map[MultiplyKey := List([RawTerm("multiply_2", 1.2)])])

  const AddTerms: seq<Term> := [Term("add_1", Some(-3.0)), Term("add_2", Some(1.0))]

  /** The specs the five accepted payloads spell out. */
  const SpecMissingWeight: ModifierSpec :=
    ModifierSpec([Term("multiply_1", Some(1.0)), Term("multiply_2", None)], AddTerms)
  const SpecZeroWeight: ModifierSpec :=
    ModifierSpec([Term("multiply_1", Some(1.0)), Term("multiply_2", Some(0.0))], AddTerms)
  const SpecOneMultiply: ModifierSpec := ModifierSpec([Term("multiply_2", Some(1.2))], AddTerms)
  const SpecAddOnly: ModifierSpec := ModifierSpec([], AddTerms)
  const SpecMultiplyOnly: ModifierSpec := ModifierSpec([Term("multiply_2", Some(1.2))], [])

  lemma RawTermAccepted(name: string, weight: real)
    requires ValidFieldName(name)
    ensures ValidateTerm(RawTerm(name, weight)) == Ok(Term(name, Some(weight)))
  {
    assert RawTerm(name, weight) == TermToJson(Term(name, Some(weight)));
    TermRoundTrip(Term(name, Some(weight)));
  }

  lemma RawTermNoWeightAccepted(name: string)
    requires ValidFieldName(name)
    ensures ValidateTerm(RawTermNoWeight(name)) == Ok(Term(name, None))
  {
    assert RawTermNoWeight(name) == TermToJson(Term(name, None));
    TermRoundTrip(Term(name, None));
  }

  lemma OneTermAccepted(x: Json, tx: Term)
    requires ValidateTerm(x) == Ok(tx)
    ensures ValidateTerms([x]) == Ok([tx])
  {
    assert [x][1..] == [];
    assert ValidateTerms([]) == Ok([]);
    assert [tx] + [] == [tx];
  }

  lemma TwoTermsAccepted(x: Json, y: Json, tx: Term, ty: Term)
    requires ValidateTerm(x) == Ok(tx) && ValidateTerm(y) == Ok(ty)
    ensures ValidateTerms([x, y]) == Ok([tx, ty])
  {
    assert [x, y][1..] == [y];
    OneTermAccepted(y, ty);
    assert [tx] + [ty] == [tx, ty];
  }

  lemma AddTermsAccepted()
    ensures RawAddTerms.List? && RawAddTerms.items != []
    ensures ValidateTerms(RawAddTerms.items) == Ok(AddTerms)
  {
    RawTermAccepted("add_1", -3.0);
    RawTermAccepted("add_2", 1.0);
    TwoTermsAccepted(RawTerm("add_1", -3.0), RawTerm("add_2", 1.0), AddTerms[0], AddTerms[1]);
  }

  lemma MissingWeightAccepted()
    ensures Validate(ValidMissingWeight) == Ok(Modifiers(SpecMissingWeight))
  {
    var x, y := RawTerm("multiply_1", 1.0), RawTermNoWeight("multiply_2");
    RawTermAccepted("multiply_1", 1.0);
    RawTermNoWeightAccepted("multiply_2");
    TwoTermsAccepted(x, y, Term("multiply_1", Some(1.0)), Term("multiply_2", None));
    AddTermsAccepted();
    var m := ValidMissingWeight.fields;
    assert m.Keys == {MultiplyKey, AddKey};
    assert m[MultiplyKey] == List([x, y]);
    assert m[AddKey] == RawAddTerms;
  }

  lemma ZeroWeightAccepted()
    ensures Validate(ValidZeroWeight) == Ok(Modifiers(SpecZeroWeight))
  {
    var x, y := RawTerm("multiply_1", 1.0), RawTerm("multiply_2", 0.0);
    RawTermAccepted("multiply_1", 1.0);
    RawTermAccepted("multiply_2", 0.0);
    TwoTermsAccepted(x, y, Term("multiply_1", Some(1.0)), Term("multiply_2", Some(0.0)));
    AddTermsAccepted();
    var m := ValidZeroWeight.fields;
    assert m.Keys == {MultiplyKey, AddKey};
    assert m[MultiplyKey] == List([x, y]);
    assert m[AddKey] == RawAddTerms;
  }

  lemma OneMultiplyAccepted()
    ensures Validate(ValidOneMultiply) == Ok(Modifiers(SpecOneMultiply))
  {
    var x := RawTerm("multiply_2", 1.2);
    RawTermAccepted("multiply_2", 1.2);
    OneTermAccepted(x, Term("multiply_2", Some(1.2)));
    AddTermsAccepted();
    var m := ValidOneMultiply.fields;
    assert m.Keys == {MultiplyKey, AddKey};
    assert m[MultiplyKey] == List([x]);
    assert m[AddKey] == RawAddTerms;
  }

  lemma AddOnlyAccepted()
    ensures Validate(ValidAddOnly) == Ok(Modifiers(SpecAddOnly))
  {
    AddTermsAccepted();
    var m := ValidAddOnly.fields;
    assert m.Keys == {AddKey};
    assert MultiplyKey !in m;
  }

  lemma MultiplyOnlyAccepted()
    ensures Validate(ValidMultiplyOnly) == Ok(Modifiers(SpecMultiplyOnly))
  {
    var x := RawTerm("multiply_2", 1.2);
    RawTermAccepted("multiply_2", 1.2);
    OneTermAccepted(x, Term("multiply_2", Some(1.2)));
    var m := ValidMultiplyOnly.fields;
    assert m.Keys == {MultiplyKey};
    assert AddKey !in m;
  }

  /** All five accepted shapes validate, each to the spec it spells out. */
  lemma ValidSpecsAccepted()
    ensures Validate(ValidMissingWeight) == Ok(Modifiers(SpecMissingWeight))
    ensures Validate(ValidZeroWeight) == Ok(Modifiers(SpecZeroWeight))
    ensures Validate(ValidOneMultiply) == Ok(Modifiers(SpecOneMultiply))
    ensures Validate(ValidAddOnly) == Ok(Modifiers(SpecAddOnly))
    ensures Validate(ValidMultiplyOnly) == Ok(Modifiers(SpecMultiplyOnly))
  {
    MissingWeightAccepted();
    ZeroWeightAccepted();
    OneMultiplyAccepted();
    AddOnlyAccepted();
    MultiplyOnlyAccepted();
  }

  // ---------------------------------------------------------------------------
  // The twelve rejected specifications
  // ---------------------------------------------------------------------------

  const RawRate: Json := List([RawTermNoWeight("rate")])
  const RawReputation: Json := List([RawTerm("reputation", 1.0), RawTermNoWeight("reputation-test")])
  const RawFieldNamesTypo: Json :=
    List([Obj(map["field_names" := Str("reputation"), WeightKey := Num(1.0)]),
          RawTermNoWeight("reputation-test")])

  /** Typo in `multiply_score_by`. */
  const MisspeltMultiply: Json := Obj(map["multiply_scores_by" := RawReputation, AddKey := RawRate])

  /** Typo in `add_to_score`. */
  const MisspeltAdd: Json := Obj(map[MultiplyKey := RawReputation, "add_ssto_score" := RawRate])

  /** Typo in `field_name`; the test's "typo in weight" case is this same payload. */
  const MisspeltFieldName: Json := Obj(map[MultiplyKey := RawFieldNamesTypo, AddKey := RawRate])

  /** No field name, and both container keys misspelt. */
  const NoFieldName: Json :=
    Obj(map["multiply_scores_by" :=
              List([Obj(map["field_names" := Str("reputation"), "weights" := Num(1.0)]),
                    RawTermNoWeight("reputation-test")]),
            "add_ssto_score" := RawRate])

  /** A list as `field_name`. */
  const ListFieldName: Json :=
    Obj(map[MultiplyKey :=
              List([Obj(map[FieldNameKey := List([Str("repuation"), Str("reputation-test")]),
                            WeightKey := Num(1.0)]),
                    RawTermNoWeight("reputation-test")]),
            AddKey := RawRate])

  /** `field_name` is `_id`. */
  const IdFieldName: Json :=
    Obj(map[MultiplyKey := List([RawTerm("_id", 1.0), RawTermNoWeight("reputation-test")]),
            AddKey := RawRate])

  /** A string weight. */
  const StringWeight: Json :=
    Obj(map[MultiplyKey :=
              List([Obj(map[FieldNameKey := Str("reputation"), WeightKey := Str("1")]),
                    RawTermNoWeight("reputation-test")]),
            AddKey := RawRate])

  /** The empty object. */
  const EmptySpec: Json := Obj(map[])

  /** One part `None`. */
  const NullPart: Json := Obj(map[MultiplyKey := RawReputation, AddKey := Null])

  /** One part empty. */
  const EmptyPart: Json := Obj(map[MultiplyKey := List([]), AddKey := RawRate])

  /** Both parts empty. */
  const EmptyParts: Json := Obj(map[MultiplyKey := List([]), AddKey := List([])])

  /** A payload with a key other than the two container keys is rejected. */
  lemma UnknownSpecKeyRejected(m: map<string, Json>, key: string)
    requires key in m && key != MultiplyKey && key != AddKey
    ensures Validate(Obj(m)).Err?
  {
  }

  /** A payload whose multiply list starts with a bad term is rejected. */
  lemma FirstTermRejected(m: map<string, Json>)
    requires m.Keys <= {MultiplyKey, AddKey}
    requires MultiplyKey in m && m[MultiplyKey].List? && m[MultiplyKey].items != []
    requires ValidateTerm(m[MultiplyKey].items[0]).Err?
    ensures Validate(Obj(m)).Err?
  {
    assert ValidateTerms(m[MultiplyKey].items).Err?;
  }

  lemma MisspeltMultiplyRejected()
    ensures Validate(MisspeltMultiply).Err?
  {
    UnknownSpecKeyRejected(MisspeltMultiply.fields, "multiply_scores_by");
  }

  lemma MisspeltAddRejected()
    ensures Validate(MisspeltAdd).Err?
  {
    UnknownSpecKeyRejected(MisspeltAdd.fields, "add_ssto_score");
  }

  lemma NoFieldNameRejected()
    ensures Validate(NoFieldName).Err?
  {
    UnknownSpecKeyRejected(NoFieldName.fields, "multiply_scores_by");
  }

  lemma MisspeltFieldNameRejected()
    ensures Validate(MisspeltFieldName).Err?
  {
    var m := MisspeltFieldName.fields;
    assert m.Keys == {MultiplyKey, AddKey};
    var t := m[MultiplyKey].items[0];
    assert "field_names" in t.fields;
    FirstTermRejected(m);
  }

  /** A misspelt `weight` key, which the "typo in weight" payload announces but
      does not contain (it repeats the `field_names` typo): a term carrying
      `weights` is rejected as well. */
  const MisspeltWeight: Json :=
    Obj(map[MultiplyKey := List([Obj(map[FieldNameKey := Str("reputation"), "weights" := Num(1.0)]),
                                 RawTermNoWeight("reputation-test")]),
            AddKey := RawRate])

  lemma MisspeltWeightRejected()
    ensures Validate(MisspeltWeight).Err?
  {
    var m := MisspeltWeight.fields;
    assert m.Keys == {MultiplyKey, AddKey};
    var t := m[MultiplyKey].items[0];
    assert "weights" in t.fields;
    FirstTermRejected(m);
  }

  lemma ListFieldNameRejected()
    ensures Validate(ListFieldName).Err?
  {
    var m := ListFieldName.fields;
    assert m.Keys == {MultiplyKey, AddKey};
    var t := m[MultiplyKey].items[0];
    assert t.fields[FieldNameKey].List?;
    FirstTermRejected(m);
  }

  lemma IdFieldNameRejected()
    ensures Validate(IdFieldName).Err?
  {
    var m := IdFieldName.fields;
    assert m.Keys == {MultiplyKey, AddKey};
    var t := m[MultiplyKey].items[0];
    assert t.fields[FieldNameKey] == Str(IdField);
    FirstTermRejected(m);
  }

  lemma StringWeightRejected()
    ensures Validate(StringWeight).Err?
  {
    var m := StringWeight.fields;
    assert m.Keys == {MultiplyKey, AddKey};
    var t := m[MultiplyKey].items[0];
    assert t.fields.Keys == {FieldNameKey, WeightKey};
    assert t.fields[WeightKey].Str?;
    FirstTermRejected(m);
  }

  lemma EmptySpecRejected()
    ensures Validate(EmptySpec).Err?
  {
  }

  lemma NullPartRejected()
    ensures Validate(NullPart).Err?
  {
    assert NullPart.fields[AddKey] == Null;
    assert ValidateContainer(NullPart.fields, AddKey).Err?;
  }

  lemma EmptyPartRejected()
    ensures Validate(EmptyPart).Err?
  {
    assert EmptyPart.fields[MultiplyKey] == List([]);
  }

  lemma EmptyPartsRejected()
    ensures Validate(EmptyParts).Err?
  {
    assert EmptyParts.fields[MultiplyKey] == List([]);
  }

  lemma BadContainersRejected()
    ensures Validate(EmptySpec).Err?
    ensures Validate(NullPart).Err?
    ensures Validate(EmptyPart).Err?
    ensures Validate(EmptyParts).Err?
  {
    EmptySpecRejected();
    NullPartRejected();
    EmptyPartRejected();
    EmptyPartsRejected();
  }

  /** Each of the twelve rejected shapes, in the order the test lists them,
      raises the invalid-argument error. */
  lemma InvalidSpecsRejected()
    ensures Validate(MisspeltMultiply).Err?
    ensures Validate(MisspeltAdd).Err?
    ensures Validate(MisspeltFieldName).Err?
    ensures Validate(MisspeltFieldName).Err?  // the "typo in weight" case
    ensures Validate(NoFieldName).Err?
    ensures Validate(ListFieldName).Err?
    ensures Validate(IdFieldName).Err?
    ensures Validate(StringWeight).Err?
    ensures Validate(EmptySpec).Err?
    ensures Validate(NullPart).Err?
    ensures Validate(EmptyPart).Err?
    ensures Validate(EmptyParts).Err?
  {
    MisspeltMultiplyRejected();
    MisspeltAddRejected();
    MisspeltFieldNameRejected();
    NoFieldNameRejected();
    ListFieldNameRejected();
    IdFieldNameRejected();
    StringWeightRejected();
    BadContainersRejected();
  }

  // ---------------------------------------------------------------------------
  // Scored documents
  // ---------------------------------------------------------------------------

  const RiderText: FieldValue := Text("A rider is riding a horse jumping over the barrier.")
  const ImageUrl: FieldValue :=
    Text("https://raw.githubusercontent.com/marqo-ai/marqo/mainline/examples/ImageSearchGuide/data/image2.jpg")

  /** Document "1" of the scored documents. */
  const DocOne: Document :=
    map["my_text_field" := RiderText, "my_image_field" := ImageUrl,
        "multiply_1" := Number(1.0), "multiply_2" := Number(20.0), "add_1" := Number(1.0), "add_2" := Number(30.0),
        "_id" := Text("1")]

  /** Document "2": multiplies by 0. */
  const DocTwo: Document :=
    map["my_text_field" := RiderText, "my_image_field" := ImageUrl,
        "multiply_1" := Number(0.0), "multiply_2" := Number(20.0), "add_1" := Number(1.0), "add_2" := Number(3.0),
        "_id" := Text("2")]

  /** Document "2" of the skipped-fields test: `multiply_1` is the string "0". */
  const SkippedDocTwo: Document := DocTwo["multiply_1" := Text("0")]

  /** Document "0": none of the modifier fields. */
  const DocZero: Document :=
    map["my_text_field" := RiderText, "my_image_field" := ImageUrl, "_id" := Text("0"), "filter" := Text("original")]

  lemma MultiplyOne(score: real, doc: Document, t: Term)
    ensures MultiplyAll(score, doc, [t]) == Scale(score, doc, t)
  {
    assert [t][..0] == [];
  }

  lemma MultiplyTwo(score: real, doc: Document, t: Term, u: Term)
    ensures MultiplyAll(score, doc, [t, u]) == Scale(Scale(score, doc, t), doc, u)
  {
    assert [t, u][..1] == [t];
    MultiplyOne(score, doc, t);
  }

  lemma AddOne(doc: Document, t: Term)
    ensures AddAll(doc, [t]) == Accumulate(0.0, doc, t)
  {
    assert [t][..0] == [];
  }

  lemma AddTwo(doc: Document, t: Term, u: Term)
    ensures AddAll(doc, [t, u]) == Accumulate(Accumulate(0.0, doc, t), doc, u)
  {
    assert [t, u][..1] == [t];
    AddOne(doc, t);
  }

  lemma DocOneAddend()
    ensures AddAll(DocOne, AddTerms) == 27.0
  {
    AddTwo(DocOne, AddTerms[0], AddTerms[1]);
    assert DocOne["add_1"] == Number(1.0) && DocOne["add_2"] == Number(30.0);
  }

  lemma DocOneMissingWeight(b: real)
    ensures Combine(SpecMissingWeight, DocOne, b) == FloorAtZero(20.0 * b + 27.0)
  {
    DocOneAddend();
    MultiplyTwo(b, DocOne, Term("multiply_1", Some(1.0)), Term("multiply_2", None));
    assert DocOne["multiply_1"] == Number(1.0) && DocOne["multiply_2"] == Number(20.0);
  }

  lemma DocOneZeroWeight(b: real)
    ensures Combine(SpecZeroWeight, DocOne, b) == 27.0
  {
    DocOneAddend();
    MultiplyTwo(b, DocOne, Term("multiply_1", Some(1.0)), Term("multiply_2", Some(0.0)));
    assert DocOne["multiply_1"] == Number(1.0) && DocOne["multiply_2"] == Number(20.0);
  }

  lemma DocOneOneMultiply(b: real)
    ensures Combine(SpecOneMultiply, DocOne, b) == FloorAtZero(24.0 * b + 27.0)
  {
    DocOneAddend();
    MultiplyOne(b, DocOne, Term("multiply_2", Some(1.2)));
    assert DocOne["multiply_2"] == Number(20.0);
  }

  lemma DocOneAddOnly(b: real)
    ensures Combine(SpecAddOnly, DocOne, b) == FloorAtZero(b + 27.0)
  {
    DocOneAddend();
  }

  lemma DocOneMultiplyOnly(b: real)
    ensures Combine(SpecMultiplyOnly, DocOne, b) == FloorAtZero(24.0 * b)
  {
    MultiplyOne(b, DocOne, Term("multiply_2", Some(1.2)));
    assert DocOne["multiply_2"] == Number(20.0);
  }

  /** Document "1" under each of the five accepted payloads, for any base score
      `b`: the multiply terms scale `b`, the add terms contribute -3 * 1 + 1 * 30,
      and the sum is floored at zero. */
  lemma DocOneScores(b: real)
    ensures Validate(ValidMissingWeight) == Ok(Modifiers(SpecMissingWeight))
            && Combine(SpecMissingWeight, DocOne, b) == FloorAtZero(20.0 * b + 27.0)
    ensures Validate(ValidZeroWeight) == Ok(Modifiers(SpecZeroWeight))
            && Combine(SpecZeroWeight, DocOne, b) == 27.0
    ensures Validate(ValidOneMultiply) == Ok(Modifiers(SpecOneMultiply))
            && Combine(SpecOneMultiply, DocOne, b) == FloorAtZero(24.0 * b + 27.0)
    ensures Validate(ValidAddOnly) == Ok(Modifiers(SpecAddOnly))
            && Combine(SpecAddOnly, DocOne, b) == FloorAtZero(b + 27.0)
    ensures Validate(ValidMultiplyOnly) == Ok(Modifiers(SpecMultiplyOnly))
            && Combine(SpecMultiplyOnly, DocOne, b) == FloorAtZero(24.0 * b)
  {
    ValidSpecsAccepted();
    DocOneMissingWeight(b);
    DocOneZeroWeight(b);
    DocOneOneMultiply(b);
    DocOneAddOnly(b);
    DocOneMultiplyOnly(b);
  }

  /** A skipped field leaves the running score alone where a numeric 0 zeroes
      it: under the first accepted payload document "2" scores 0, and its
      skipped-fields twin, whose `multiply_1` is the string "0", twenty times
      its base. */
  lemma SkipIsNotZeroing(b: real)
    requires b >= 0.0
    ensures Combine(SpecMissingWeight, DocTwo, b) == 0.0
    ensures Combine(SpecMissingWeight, SkippedDocTwo, b) == 20.0 * b
  {
    var t, u := Term("multiply_1", Some(1.0)), Term("multiply_2", None);
    AddTwo(DocTwo, AddTerms[0], AddTerms[1]);
    AddTwo(SkippedDocTwo, AddTerms[0], AddTerms[1]);
    MultiplyTwo(b, DocTwo, t, u);
    MultiplyTwo(b, SkippedDocTwo, t, u);
    assert DocTwo["multiply_1"] == Number(0.0) && DocTwo["multiply_2"] == Number(20.0);
    assert DocTwo["add_1"] == Number(1.0) && DocTwo["add_2"] == Number(3.0);
    assert SkippedDocTwo["multiply_1"] == Text("0") && SkippedDocTwo["multiply_2"] == Number(20.0);
    assert SkippedDocTwo["add_1"] == Number(1.0) && SkippedDocTwo["add_2"] == Number(3.0);
  }

  /** The specification of the no-such-fields test, with weights left out. */
  const NoFieldsSpec: Json :=
    Obj(map[MultiplyKey := List([RawTerm("multiply_1", 1.0), RawTermNoWeight("multiply_2")]),
            AddKey := List([RawTermNoWeight("add_1"), RawTermNoWeight("add_2")])])

  /** On a document with none of the referenced fields the modified score
      equals the score without modifiers. */
  lemma NoFieldsKeepsBaseScore(b: real)
    requires b >= 0.0
    ensures Validate(NoFieldsSpec).Ok?
    ensures Score(Validate(NoFieldsSpec).value, DocZero, b) == Score(Validate(Json.Null).value, DocZero, b)
  {
    var mul := [Term("multiply_1", Some(1.0)), Term("multiply_2", None)];
    var add := [Term("add_1", None), Term("add_2", None)];
    var x, y := RawTerm("multiply_1", 1.0), RawTermNoWeight("multiply_2");
    var z, w := RawTermNoWeight("add_1"), RawTermNoWeight("add_2");
    RawTermAccepted("multiply_1", 1.0);
    RawTermNoWeightAccepted("multiply_2");
    RawTermNoWeightAccepted("add_1");
    RawTermNoWeightAccepted("add_2");
    TwoTermsAccepted(x, y, mul[0], mul[1]);
    TwoTermsAccepted(z, w, add[0], add[1]);
    var m := NoFieldsSpec.fields;
    assert m.Keys == {MultiplyKey, AddKey};
    assert m[MultiplyKey] == List([x, y]) && m[AddKey] == List([z, w]);
    assert Validate(NoFieldsSpec) == Ok(Modifiers(ModifierSpec(mul, add)));
    NoFieldPresentKeepsScore(ModifierSpec(mul, add), DocZero, b);
  }
}
