# Score modifiers for tensor search, modelled in Dafny

A search request can carry a `score_modifiers` payload that adjusts each hit's
relevance score using numeric fields of the hit's document. The payload has two
lists of weighted field references:

- under `multiply_score_by`, each term multiplies the running score by `weight * value`;
- under `add_to_score`, each term adds `weight * value` to an addend that starts at 0.

A term is skipped when its field is absent or holds something other than a number.
An omitted weight counts as 1. The final score is `max(0, score + addend)`.
A malformed payload is rejected with `InvalidArgError` before any search runs.
`score_modifiers=None` means "no modifiers": the base score is returned as it is.

The test suite fixes the behaviour in three places:

- the oracle `get_expected_score`, against which every modified `_score` is compared;
- a list of five accepted payloads;
- a list of twelve payloads that must be rejected.

This project models both halves of the engine:

- `json.dfy` (`Json`): the raw payload, as objects, lists, strings, numbers and null;
- `modifiers.dfy` (`ScoreModifiers`): the validated form, `Term` and `ModifierSpec`,
  plus the `NoModifiers` case and the one error kind;
- `validation.dfy` (`Validation`): the validator, the shapes it accepts stated
  declaratively, and its inverse (`ModifiersToJson`);
- `combinator.dfy` (`Combinator`): the oracle as a method with two loops,
  proved equal to recursive functions; reference definitions as a product and a
  sum, and the skipping, default-weight and floor properties;
- `hits.dfy` (`Hits`): rescoring a result list, and its commutation with a
  metadata filter;
- `test_data.dfy` (`TestData`): the test fixtures as values, and what the model
  says about each one.

Scores, weights and field values are `real`, so all arithmetic is exact.

## Model

| member | source | states |
|---|---|---|
| `Combinator.GetExpectedScore` | tests/tensor_search/test_score_modifiers_search.py:182-197 | The oracle's two loops compute exactly `Combine`. The multiply loop's running score is `MultiplyAll` of the terms seen so far; the add loop's addend is `AddAll` of the terms seen so far. |
| `Combinator.Scale` | tests/tensor_search/test_score_modifiers_search.py:185-189 | A multiply term whose field is absent or non-numeric leaves the running score exactly unchanged. |
| `Combinator.Accumulate` | tests/tensor_search/test_score_modifiers_search.py:192-196 | An add term whose field is absent or non-numeric leaves the addend exactly unchanged. |
| `Combinator.Combine` | tests/tensor_search/test_score_modifiers_search.py:197 | A modified score is never negative, for every spec, document and base score. |
| `Combinator.FloorAtZero` | tests/tensor_search/test_score_modifiers_search.py:197 | `max(0.0, x)` is at least 0 and at least `x`, and is either `x` or 0. |
| `Combinator.Score` | tests/tensor_search/test_score_modifiers_search.py:158-161 | With no modifiers, the score is the base score exactly. With modifiers, it is non-negative. |
| `Combinator.MultiplyAllIsProduct` | tests/tensor_search/test_score_modifiers_search.py:184-189 | Scaling successively in declaration order equals multiplying the base score once by the product of the factors of the applicable terms. |
| `Combinator.AddAllIsSum` | tests/tensor_search/test_score_modifiers_search.py:191-196 | The addend starts from 0 and equals the plain sum of the applicable terms' contributions. It does not depend on the base score. |
| `Combinator.CombineIsAffine` | tests/tensor_search/test_score_modifiers_search.py:183-197 | The result is `max(0, base * product + sum)`: only the base is scaled, the addend is added once, and the floor is taken once at the end. |
| `Combinator.MultiplyAllAppend` | tests/tensor_search/test_score_modifiers_search.py:184-189 | The multiply loop is successive: running it over `a + b` equals running it over `b` from the score the run over `a` left. |
| `Combinator.AddAllAppend` | tests/tensor_search/test_score_modifiers_search.py:191-196 | The add loop over `a + b` adds the addends of `a` and of `b`. |
| `Combinator.CombineDependsOnNumericView` | tests/tensor_search/test_score_modifiers_search.py:187-195 | Two documents with the same numeric fields get the same modified score, whatever their other fields hold. |
| `Combinator.NonNumericIsAbsent` | tests/tensor_search/test_score_modifiers_search.py:303-375 | A field holding a non-numeric value, such as the string "1", gives the same score as the field being absent. |
| `Combinator.NoFieldPresentKeepsScore` | tests/tensor_search/test_score_modifiers_search.py:144-180 | When no referenced field is numeric in the document and the base is non-negative, the modified score equals the unmodified score exactly. |
| `Combinator.DefaultWeightIsOne` | tests/tensor_search/test_score_modifiers_search.py:186-193 | Writing every omitted weight out as 1, in either list, changes no score. |
| `Combinator.WithDefaultWeights` | tests/tensor_search/test_score_modifiers_search.py:186-193 | Filling in default weights keeps both lists' lengths and every term's field name. A given weight is kept, and only an omitted weight becomes 1. |
| `Hits.Rescore` | tests/tensor_search/test_score_modifiers_search.py:212-221 | Rescoring neither adds nor removes hits. Every hit keeps its document and position and gets the modified score of its own full document. |
| `Hits.RescoreWithoutModifiers` | tests/tensor_search/test_score_modifiers_search.py:158-161 | With no modifiers, the result list comes back unchanged. |
| `Hits.RescoreNonNegative` | tests/tensor_search/test_score_modifiers_search.py:197 | With modifiers, every rescored hit has a non-negative score. |
| `Hits.Filter` | tests/tensor_search/test_score_modifiers_search.py:236-242 | A metadata filter returns only hits from its input (as a sub-multiset) whose documents it accepts, and it keeps every input hit whose document it accepts. |
| `Hits.RescoreUniformBase` | tests/tensor_search/test_score_modifiers_search.py:205-221 | When every hit carries the same base score, as the test's comparison against `normal_score` assumes, each rescored hit gets the combined score of its own document from that one base. |
| `Hits.RescoreCommutesWithFilter` | tests/tensor_search/test_score_modifiers_search.py:223-246 | Filtering first and rescoring the survivors gives the same list as rescoring everything and filtering afterwards. |
| `Validation.ValidateTerm` | tests/tensor_search/test_score_modifiers_search.py:417-496 | An accepted term's field name is non-empty and is not `_id`. |
| `Validation.ValidateTerms` | tests/tensor_search/test_score_modifiers_search.py:417-429 | The terms are validated all or nothing. The result keeps the input's order and length, and one bad term rejects the whole list. |
| `Validation.ValidateContainer` | tests/tensor_search/test_score_modifiers_search.py:497-520 | An absent container key gives no terms. A present one must be a non-empty list, so `None` and `[]` are rejected. |
| `Validation.Validate` | tests/tensor_search/test_score_modifiers_search.py:158-159 | `None` is exactly the input that means "no modifiers". Every accepted spec has a term, and every one of its terms has a valid field name. |
| `Validation.ValidateTermAcceptsExactly` | tests/tensor_search/test_score_modifiers_search.py:417-496 | A term is accepted if and only if it has exactly `field_name` (a valid string) and an optional numeric `weight`. |
| `Validation.ValidateContainerAcceptsExactly` | tests/tensor_search/test_score_modifiers_search.py:497-520 | A present container is accepted if and only if it is a non-empty list of acceptable terms. |
| `Validation.ValidateAcceptsExactly` | tests/tensor_search/test_score_modifiers_search.py:390-533 | The validator accepts exactly `None` and objects whose keys are a non-empty subset of the two container keys, each holding an acceptable container. It rejects everything else. |
| `Validation.TermsRoundTrip` | tests/tensor_search/test_score_modifiers_search.py:33-85 | Any list of terms with valid names, written out as raw terms, validates back to itself. |
| `Validation.ValidateInvertsToJson` | tests/tensor_search/test_score_modifiers_search.py:33-85 | Every well-formed spec, written out as a payload, validates back to itself. |
| `Validation.AcceptedIsToJson` | tests/tensor_search/test_score_modifiers_search.py:33-85 | Validation loses nothing: an accepted payload equals the payload its validated spec writes out. |
| `Validation.OmittedWeightIsWeightOne` | tests/tensor_search/test_score_modifiers_search.py:34-39 | A term without `weight` is accepted exactly when the same term with weight 1 is. It then names the same field, with the weight left open rather than 1. |
| `TestData.ValidSpecsAccepted` | tests/tensor_search/test_score_modifiers_search.py:33-85 | All five accepted payloads validate, each to the spec it spells out. |
| `TestData.MisspeltMultiplyRejected` | tests/tensor_search/test_score_modifiers_search.py:391-403 | A misspelt `multiply_score_by` is rejected. |
| `TestData.MisspeltAddRejected` | tests/tensor_search/test_score_modifiers_search.py:404-416 | A misspelt `add_to_score` is rejected. |
| `TestData.MisspeltFieldNameRejected` | tests/tensor_search/test_score_modifiers_search.py:417-442 | `field_names` in place of `field_name` is rejected. |
| `TestData.NoFieldNameRejected` | tests/tensor_search/test_score_modifiers_search.py:443-455 | A term with no field name, inside misspelt containers, is rejected. |
| `TestData.MisspeltWeightRejected` | tests/tensor_search/test_score_modifiers_search.py:430-442 | A term with `weights` in place of `weight` is rejected. This is the case the "typo in weight" comment names. |
| `TestData.ListFieldNameRejected` | tests/tensor_search/test_score_modifiers_search.py:456-468 | A list-valued `field_name` is rejected. |
| `TestData.IdFieldNameRejected` | tests/tensor_search/test_score_modifiers_search.py:469-482 | `field_name` equal to `_id` is rejected. |
| `TestData.StringWeightRejected` | tests/tensor_search/test_score_modifiers_search.py:483-496 | A string weight is rejected. |
| `TestData.BadContainersRejected` | tests/tensor_search/test_score_modifiers_search.py:497-520 | `{}`, a container set to `None`, one empty container, and two empty containers are all rejected. |
| `TestData.InvalidSpecsRejected` | tests/tensor_search/test_score_modifiers_search.py:390-533 | All twelve payloads, in the order the test lists them, raise the invalid-argument error. |
| `TestData.DocOneScores` | tests/tensor_search/test_score_modifiers_search.py:87-96 | Document "1", under the five accepted payloads, scores `max(0, 20B + 27)`, `27`, `max(0, 24B + 27)`, `max(0, B + 27)` and `max(0, 24B)` for every base score `B`. |
| `TestData.SkipIsNotZeroing` | tests/tensor_search/test_score_modifiers_search.py:315-323 | Skipping is not zeroing. With a non-negative base `B`, document "2" (numeric `multiply_1` of 0) scores 0 under the first accepted payload. Its skipped-fields twin, with the string "0", scores `20B`. |
| `TestData.NoFieldsKeepsBaseScore` | tests/tensor_search/test_score_modifiers_search.py:144-180 | The payload of the no-such-fields test validates. On document "0" it gives the same score as no modifiers, for every non-negative base score. |

## Left out

- Index lifecycle, document ingestion and vector search (`create_vector_index`, `delete_index`, `add_documents`, `search`): these are I/O against a search backend and model inference. The base score is an input `real`.
- The retrieval engine's ranking and its `result_count` truncation after rescoring: these are external to the engine. `Hits.Rescore` keeps the order it is given.
- Filter-string parsing and searchable-attribute restriction: these only decide which hits arrive. A filter is modelled as an arbitrary predicate on documents (`Hits.Filter`).
- Attribute projection (`attributes_to_retrieve`): not modelled. The combinator always receives the full, unprojected document, which is what the projection test relies on.
- The check that the normal query builder is called (a mock of internal call structure): not modelled.
- Bulk search rejecting score modifiers: it goes through model validation in a library that is not part of this model.
- IEEE-754 rounding and the `1e-5` comparisons: all arithmetic is exact `real`.
- Booleans: neither the raw payload nor a document field can hold a boolean. Python's `isinstance(x, (int, float))` would accept `True`, but no fixture contains one.
- The distinction between Python `int` and `float`: both are one numeric case (`Num`, `Number`).
- Validator rules the tests do not exercise: its implementation is not part of this model. The model takes the documented schema on these points:
  - a term may carry no key other than `field_name` and `weight`;
  - an empty `field_name` is rejected;
  - a top-level value that is neither an object nor `None` is rejected.
- A hit's own base score versus the test's single `normal_score`: the test compares every modified hit against the oracle applied to the top unmodified hit's score (lines 205-221). This is the same as using each hit's own base only because all six fixtures share their text and image fields and so their base score. `Hits.Rescore` uses each hit's own base, and `Hits.RescoreUniformBase` states the shared-base case.
- The text of error messages: each rejection carries a reason string, but the model states nothing about its wording.
- `Validation.OmittedWeightIsWeightOne`: a term without `weight` validates to a term whose weight is `None`, not to weight 1. Equivalence with weight 1 is stated on scores, by `Combinator.DefaultWeightIsOne`.
- `Combinator.GetExpectedScore` takes the validated `ModifierSpec`, not the raw dict. An absent container is then an empty list, which matches the oracle's `.get(key, [])`.

## Notes on the test data

- The rejected payload commented "typo in weight" (lines 430-442) is an exact copy of the "typo in field_name" payload (lines 417-429). So the test never exercises a misspelt `weight` key. `TestData.InvalidSpecsRejected` keeps the duplicate, in the test's order. `TestData.MisspeltWeightRejected` states separately that a real `weights` typo is rejected under the documented schema.
