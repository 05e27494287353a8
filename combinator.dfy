/** The score combinator: how a validated spec turns one hit's base score into
    its modified score, given the hit's full (unprojected) document. */
module Combinator {
  import opened ScoreModifiers

  /** A document field value, as far as the combinator can tell them apart: a
      number (Python `int` or `float`), a string, or anything else. */
  datatype FieldValue = Number(n: real) | Text(s: string) | Other

  type Document = map<string, FieldValue>

  /** A term takes part only when its field is in the document and holds a number. */
  predicate Applies(doc: Document, t: Term)
  {
    t.fieldName in doc && doc[t.fieldName].Number?
  }

  /** One step of the multiply loop: the running score scaled by weight and value,
      or left exactly as it was when the term does not apply. */
  function Scale(score: real, doc: Document, t: Term): (r: real)
    ensures !Applies(doc, t) ==> r == score
  {
    if Applies(doc, t) then score * WeightOf(t) * doc[t.fieldName].n else score
  }

  /** One step of the add loop: the addend grown by weight times value, or left
      exactly as it was when the term does not apply. */
  function Accumulate(add: real, doc: Document, t: Term): (r: real)
    ensures !Applies(doc, t) ==> r == add
  {
    if Applies(doc, t) then add + WeightOf(t) * doc[t.fieldName].n else add
  }

  /** The running score after the multiply terms, taken one by one in declaration order. */
  function MultiplyAll(score: real, doc: Document, terms: seq<Term>): real
    decreases |terms|
  {
    if terms == [] then score
    else Scale(MultiplyAll(score, doc, terms[..|terms| - 1]), doc, terms[|terms| - 1])
  }

  /** The addend after the add terms, starting from 0, in declaration order. */
  function AddAll(doc: Document, terms: seq<Term>): real
    decreases |terms|
  {
    if terms == [] then 0.0
    else Accumulate(AddAll(doc, terms[..|terms| - 1]), doc, terms[|terms| - 1])
  }

  /** Python's `max(0.0, x)`. */
  function FloorAtZero(x: real): (r: real)
    ensures r >= 0.0 && r >= x
    ensures r == x || r == 0.0
  {
    if x < 0.0 then 0.0 else x
  }

  /** The modified score: the multiplied base plus the addend, floored at zero. */
  function Combine(spec: ModifierSpec, doc: Document, score: real): (r: real)
    ensures r >= 0.0
  {
    FloorAtZero(MultiplyAll(score, doc, spec.multiplyTerms) + AddAll(doc, spec.addTerms))
  }

  /** The score a hit ends up with: its base score when no modifiers were asked
      for, the combined score otherwise. */
  function Score(mods: Modifiers, doc: Document, score: real): (r: real)
    ensures mods.NoModifiers? ==> r == score
    ensures mods.Modifiers? ==> r >= 0.0
  {
    match mods
    case NoModifiers => score
    case Modifiers(spec) => Combine(spec, doc, score)
  }

  /** The test oracle for a modified score, loop for loop: the multiply loop
      reassigns the running score, the add loop the addend, and the result is
      floored at zero. */
  method GetExpectedScore(doc: Document, oriScore: real, spec: ModifierSpec) returns (r: real)
    ensures r == Combine(spec, doc, oriScore)
  {
    var score := oriScore;
    var add := 0.0;
    var multiply := spec.multiplyTerms;
    for i := 0 to |multiply|
      invariant score == MultiplyAll(oriScore, doc, multiply[..i])
    {
      var t := multiply[i];
      var weight := match t.weight case Some(w) => w case None => 1.0;
      if t.fieldName in doc {
        match doc[t.fieldName]
        case Number(v) => score := score * weight * v;
        case _ =>
      }
      assert multiply[..i + 1][..i] == multiply[..i];
    }
    assert multiply[..|multiply|] == multiply;

    var addTerms := spec.addTerms;
    for i := 0 to |addTerms|
      invariant add == AddAll(doc, addTerms[..i])
    {
      var t := addTerms[i];
      var weight := match t.weight case Some(w) => w case None => 1.0;
      if t.fieldName in doc {
        match doc[t.fieldName]
        case Number(v) => add := add + weight * v;
        case _ =>
      }
      assert addTerms[..i + 1][..i] == addTerms[..i];
    }
    assert addTerms[..|addTerms|] == addTerms;

    r := if 0.0 >= score + add then 0.0 else score + add;
  }

  // ---------------------------------------------------------------------------
  // Reference definitions: the factor and the contribution of each term
  // ---------------------------------------------------------------------------

  /** What a multiply term multiplies by: weight times value, or 1 when it does not apply. */
  function Factor(doc: Document, t: Term): real
  {
    if Applies(doc, t) then WeightOf(t) * doc[t.fieldName].n else 1.0
  }

  /** What an add term adds: weight times value, or 0 when it does not apply. */
  function Contribution(doc: Document, t: Term): real
  {
    if Applies(doc, t) then WeightOf(t) * doc[t.fieldName].n else 0.0
  }

  /** The factors of a list of multiply terms, in order. */
  function Factors(doc: Document, terms: seq<Term>): (r: seq<real>)
    ensures |r| == |terms|
  {
    seq(|terms|, i requires 0 <= i < |terms| => Factor(doc, terms[i]))
  }

  /** The contributions of a list of add terms, in order. */
  function Contributions(doc: Document, terms: seq<Term>): (r: seq<real>)
    ensures |r| == |terms|
  {
    seq(|terms|, i requires 0 <= i < |terms| => Contribution(doc, terms[i]))
  }

  function Product(xs: seq<real>): real
  {
    if xs == [] then 1.0 else xs[0] * Product(xs[1..])
  }

  function Sum(xs: seq<real>): real
  {
    if xs == [] then 0.0 else xs[0] + Sum(xs[1..])
  }

  lemma {:induction false} ProductAppend(a: seq<real>, b: seq<real>)
    ensures Product(a + b) == Product(a) * Product(b)
  {
    if a == [] {
      assert a + b == b;
    } else {
      assert (a + b)[1..] == a[1..] + b;
      ProductAppend(a[1..], b);
      var f, p, q := a[0], Product(a[1..]), Product(b);
      assert Product(a + b) == f * (p * q);
      assert f * (p * q) == (f * p) * q;
    }
  }

  lemma {:induction false} SumAppend(a: seq<real>, b: seq<real>)
    ensures Sum(a + b) == Sum(a) + Sum(b)
  {
    if a == [] {
      assert a + b == b;
    } else {
      assert (a + b)[1..] == a[1..] + b;
      SumAppend(a[1..], b);
    }
  }

  lemma ScaleByFactor(score: real, doc: Document, t: Term)
    ensures Scale(score, doc, t) == score * Factor(doc, t)
  {
  }

  /** Successive scaling in declaration order amounts to multiplying the base
      score once by the product of the factors of the terms that apply. */
  lemma {:induction false} MultiplyAllIsProduct(score: real, doc: Document, terms: seq<Term>)
    ensures MultiplyAll(score, doc, terms) == score * Product(Factors(doc, terms))
    decreases |terms|
  {
    if terms != [] {
      var n := |terms| - 1;
      var prefix, t := terms[..n], terms[n];
      var m := MultiplyAll(score, doc, prefix);
      MultiplyAllIsProduct(score, doc, prefix);
      ScaleByFactor(m, doc, t);
      var fs, f := Factors(doc, prefix), Factor(doc, t);
      FactorsSnoc(doc, terms);
      ProductSnoc(fs, f);
      MulAssoc(score, Product(fs), f);
    }
  }

  lemma FactorsSnoc(doc: Document, terms: seq<Term>)
    requires terms != []
    ensures Factors(doc, terms)
            == Factors(doc, terms[..|terms| - 1]) + [Factor(doc, terms[|terms| - 1])]
  {
  }

  lemma ProductSnoc(xs: seq<real>, f: real)
    ensures Product(xs + [f]) == Product(xs) * f
  {
    ProductAppend(xs, [f]);
    assert Product([f]) == f * Product([]);
  }

  lemma MulAssoc(x: real, y: real, z: real)
    ensures (x * y) * z == x * (y * z)
  {
  }

  /** The addend is the plain sum of the contributions of the terms that apply. */
  lemma {:induction false} AddAllIsSum(doc: Document, terms: seq<Term>)
    ensures AddAll(doc, terms) == Sum(Contributions(doc, terms))
    decreases |terms|
  {
    if terms != [] {
      var n := |terms| - 1;
      var t := terms[n];
      AddAllIsSum(doc, terms[..n]);
      assert Contributions(doc, terms) == Contributions(doc, terms[..n]) + [Contribution(doc, t)];
      SumAppend(Contributions(doc, terms[..n]), [Contribution(doc, t)]);
    }
  }

  /** The modified score is affine in the base score: the base is scaled by the
      multiply terms only, the add terms never get scaled, and the floor is taken
      once, at the end. */
  lemma CombineIsAffine(spec: ModifierSpec, doc: Document, score: real)
    ensures Combine(spec, doc, score)
            == FloorAtZero(score * Product(Factors(doc, spec.multiplyTerms))
                           + Sum(Contributions(doc, spec.addTerms)))
  {
    MultiplyAllIsProduct(score, doc, spec.multiplyTerms);
    AddAllIsSum(doc, spec.addTerms);
  }

  // ---------------------------------------------------------------------------
  // Order: the loops process terms successively
  // ---------------------------------------------------------------------------

  /** The multiply loop over `a + b` is the loop over `b` started from the
      running score the loop over `a` left. */
  lemma {:induction false} MultiplyAllAppend(score: real, doc: Document, a: seq<Term>, b: seq<Term>)
    ensures MultiplyAll(score, doc, a + b) == MultiplyAll(MultiplyAll(score, doc, a), doc, b)
    decreases |b|
  {
    if b == [] {
      assert a + b == a;
    } else {
      var n := |b| - 1;
      assert (a + b)[..|a + b| - 1] == a + b[..n];
      MultiplyAllAppend(score, doc, a, b[..n]);
    }
  }

  /** The add loop over `a + b` adds the addends of `a` and of `b`. */
  lemma {:induction false} AddAllAppend(doc: Document, a: seq<Term>, b: seq<Term>)
    ensures AddAll(doc, a + b) == AddAll(doc, a) + AddAll(doc, b)
    decreases |b|
  {
    if b == [] {
      assert a + b == a;
    } else {
      var n := |b| - 1;
      assert (a + b)[..|a + b| - 1] == a + b[..n];
      assert (a + b)[|a + b| - 1] == b[n];
      AddAllAppend(doc, a, b[..n]);
      assert AddAll(doc, a + b) == Accumulate(AddAll(doc, a) + AddAll(doc, b[..n]), doc, b[n]);
      assert AddAll(doc, b) == Accumulate(AddAll(doc, b[..n]), doc, b[n]);
    }
  }

  // ---------------------------------------------------------------------------
  // Absent and non-numeric fields are skipped
  // ---------------------------------------------------------------------------

  /** The numbers a document holds; all the combinator ever looks at. */
  function NumericView(doc: Document): map<string, real>
  {
    map k | k in doc && doc[k].Number? :: doc[k].n
  }

  lemma ApplyDependsOnNumericView(d1: Document, d2: Document, t: Term)
    requires NumericView(d1) == NumericView(d2)
    ensures Applies(d1, t) <==> Applies(d2, t)
    ensures Applies(d1, t) ==> d1[t.fieldName].n == d2[t.fieldName].n
  {
    var f := t.fieldName;
    assert Applies(d1, t) <==> f in NumericView(d1);
    assert Applies(d2, t) <==> f in NumericView(d2);
    if Applies(d1, t) {
      assert NumericView(d1)[f] == d1[f].n;
      assert NumericView(d2)[f] == d2[f].n;
    }
  }

  lemma {:induction false} MultiplyAllDependsOnNumericView(score: real, d1: Document, d2: Document, terms: seq<Term>)
    requires NumericView(d1) == NumericView(d2)
    ensures MultiplyAll(score, d1, terms) == MultiplyAll(score, d2, terms)
    decreases |terms|
  {
    if terms != [] {
      var n := |terms| - 1;
      MultiplyAllDependsOnNumericView(score, d1, d2, terms[..n]);
      ApplyDependsOnNumericView(d1, d2, terms[n]);
    }
  }

  lemma {:induction false} AddAllDependsOnNumericView(d1: Document, d2: Document, terms: seq<Term>)
    requires NumericView(d1) == NumericView(d2)
    ensures AddAll(d1, terms) == AddAll(d2, terms)
    decreases |terms|
  {
    if terms != [] {
      var n := |terms| - 1;
      AddAllDependsOnNumericView(d1, d2, terms[..n]);
      ApplyDependsOnNumericView(d1, d2, terms[n]);
    }
  }

  /** Two documents that hold the same numbers under the same names get the
      same modified score, whatever else they hold. */
  lemma CombineDependsOnNumericView(spec: ModifierSpec, d1: Document, d2: Document, score: real)
    requires NumericView(d1) == NumericView(d2)
    ensures Combine(spec, d1, score) == Combine(spec, d2, score)
  {
    MultiplyAllDependsOnNumericView(score, d1, d2, spec.multiplyTerms);
    AddAllDependsOnNumericView(d1, d2, spec.addTerms);
  }

  /** A field holding a non-numeric value, such as the string "1", counts
      exactly as if the field were absent: no failure, no zeroing. */
  lemma NonNumericIsAbsent(spec: ModifierSpec, doc: Document, field: string, v: FieldValue, score: real)
    requires !v.Number?
    ensures Combine(spec, doc[field := v], score) == Combine(spec, doc - {field}, score)
  {
    assert NumericView(doc[field := v]) == NumericView(doc - {field});
    CombineDependsOnNumericView(spec, doc[field := v], doc - {field}, score);
  }

  lemma {:induction false} NothingAppliesMultiply(score: real, doc: Document, terms: seq<Term>)
    requires forall i :: 0 <= i < |terms| ==> !Applies(doc, terms[i])
    ensures MultiplyAll(score, doc, terms) == score
    decreases |terms|
  {
    if terms != [] {
      NothingAppliesMultiply(score, doc, terms[..|terms| - 1]);
    }
  }

  lemma {:induction false} NothingAppliesAdd(doc: Document, terms: seq<Term>)
    requires forall i :: 0 <= i < |terms| ==> !Applies(doc, terms[i])
    ensures AddAll(doc, terms) == 0.0
    decreases |terms|
  {
    if terms != [] {
      NothingAppliesAdd(doc, terms[..|terms| - 1]);
    }
  }

  /** When no term's field is a number in the document, a non-negative base
      score comes out unchanged, exactly as with no modifiers at all. */
  lemma NoFieldPresentKeepsScore(spec: ModifierSpec, doc: Document, score: real)
    requires score >= 0.0
    requires forall i :: 0 <= i < |spec.multiplyTerms| ==> !Applies(doc, spec.multiplyTerms[i])
    requires forall i :: 0 <= i < |spec.addTerms| ==> !Applies(doc, spec.addTerms[i])
    ensures Combine(spec, doc, score) == score
    ensures Combine(spec, doc, score) == Score(NoModifiers, doc, score)
  {
    NothingAppliesMultiply(score, doc, spec.multiplyTerms);
    NothingAppliesAdd(doc, spec.addTerms);
  }

  // ---------------------------------------------------------------------------
  // An omitted weight is weight 1
  // ---------------------------------------------------------------------------

  function DefaultWeight(t: Term): (r: Term)
    ensures r.fieldName == t.fieldName
    ensures r.weight == Some(WeightOf(t))
  {
    if t.weight.None? then Term(t.fieldName, Some(1.0)) else t
  }

  /** The spec with every omitted weight written out as 1. */
  function WithDefaultWeights(spec: ModifierSpec): (r: ModifierSpec)
    ensures |r.multiplyTerms| == |spec.multiplyTerms| && |r.addTerms| == |spec.addTerms|
    ensures forall i :: 0 <= i < |r.multiplyTerms| ==> r.multiplyTerms[i].weight.Some?
    ensures forall i :: 0 <= i < |r.addTerms| ==> r.addTerms[i].weight.Some?
    ensures forall i :: 0 <= i < |spec.multiplyTerms| ==>
              r.multiplyTerms[i].fieldName == spec.multiplyTerms[i].fieldName &&
              r.multiplyTerms[i].weight == Some(WeightOf(spec.multiplyTerms[i]))
    ensures forall i :: 0 <= i < |spec.addTerms| ==>
              r.addTerms[i].fieldName == spec.addTerms[i].fieldName &&
              r.addTerms[i].weight == Some(WeightOf(spec.addTerms[i]))
  {
    ModifierSpec(seq(|spec.multiplyTerms|, i requires 0 <= i < |spec.multiplyTerms| => DefaultWeight(spec.multiplyTerms[i])),
                 seq(|spec.addTerms|, i requires 0 <= i < |spec.addTerms| => DefaultWeight(spec.addTerms[i])))
  }

  lemma {:induction false} DefaultWeightsMultiply(score: real, doc: Document, a: seq<Term>, b: seq<Term>)
    requires |a| == |b|
    requires forall i :: 0 <= i < |a| ==> b[i] == DefaultWeight(a[i])
    ensures MultiplyAll(score, doc, a) == MultiplyAll(score, doc, b)
    decreases |a|
  {
    if a != [] {
      var n := |a| - 1;
      DefaultWeightsMultiply(score, doc, a[..n], b[..n]);
      assert WeightOf(a[n]) == WeightOf(b[n]);
    }
  }

  lemma {:induction false} DefaultWeightsAdd(doc: Document, a: seq<Term>, b: seq<Term>)
    requires |a| == |b|
    requires forall i :: 0 <= i < |a| ==> b[i] == DefaultWeight(a[i])
    ensures AddAll(doc, a) == AddAll(doc, b)
    decreases |a|
  {
    if a != [] {
      var n := |a| - 1;
      DefaultWeightsAdd(doc, a[..n], b[..n]);
      assert WeightOf(a[n]) == WeightOf(b[n]);
    }
  }

  /** Writing out every omitted weight as 1, in either list, leaves every
      modified score as it was. */
  lemma DefaultWeightIsOne(spec: ModifierSpec, doc: Document, score: real)
    ensures Combine(WithDefaultWeights(spec), doc, score) == Combine(spec, doc, score)
  {
    var s' := WithDefaultWeights(spec);
    DefaultWeightsMultiply(score, doc, spec.multiplyTerms, s'.multiplyTerms);
    DefaultWeightsAdd(doc, spec.addTerms, s'.addTerms);
  }
}
