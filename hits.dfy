/** Applying the modifiers to the hits the retrieval engine hands back: each hit
    keeps its document and its place, and only its score changes. */
module Hits {
  import opened ScoreModifiers
  import opened Combinator

  /** One search hit: the full retrieved document and its score. */
  datatype Hit = Hit(doc: Document, score: real)

  /** The result list with every score replaced by the modified one. */
  function Rescore(mods: Modifiers, hits: seq<Hit>): (r: seq<Hit>)
    ensures |r| == |hits|
    ensures forall i :: 0 <= i < |hits| ==>
              r[i].doc == hits[i].doc && r[i].score == Score(mods, hits[i].doc, hits[i].score)
  {
    if hits == [] then []
    else [Hit(hits[0].doc, Score(mods, hits[0].doc, hits[0].score))] + Rescore(mods, hits[1..])
  }

  /** The hits whose documents a metadata filter keeps, in order. */
  function Filter(hits: seq<Hit>, keep: Document -> bool): (r: seq<Hit>)
    ensures |r| <= |hits|
    ensures forall i :: 0 <= i < |r| ==> keep(r[i].doc)
    ensures multiset(r) <= multiset(hits)
    ensures forall h :: h in hits && keep(h.doc) ==> h in r
  {
    if hits == [] then []
    else
      assert hits == [hits[0]] + hits[1..];
      if keep(hits[0].doc) then [hits[0]] + Filter(hits[1..], keep)
      else Filter(hits[1..], keep)
  }

  /** Without modifiers the result list comes back exactly as it went in. */
  lemma RescoreWithoutModifiers(hits: seq<Hit>)
    ensures Rescore(NoModifiers, hits) == hits
  {
    var r := Rescore(NoModifiers, hits);
    assert forall i :: 0 <= i < |hits| ==> r[i] == hits[i];
  }

  /** With modifiers every hit's score is non-negative. */
  lemma RescoreNonNegative(spec: ModifierSpec, hits: seq<Hit>)
    ensures forall i :: 0 <= i < |hits| ==> Rescore(Modifiers(spec), hits)[i].score >= 0.0
  {
  }

  /** When every hit has the same base score, each rescored hit gets the
      combined score of its own document from that one base. */
  lemma RescoreUniformBase(spec: ModifierSpec, hits: seq<Hit>, base: real)
    requires forall i :: 0 <= i < |hits| ==> hits[i].score == base
    ensures forall i :: 0 <= i < |hits| ==>
              Rescore(Modifiers(spec), hits)[i].score == Combine(spec, hits[i].doc, base)
  {
  }

  /** Scoring is per hit: filtering the hits first and rescoring the survivors
      gives the same list as rescoring all hits and filtering afterwards. */
  lemma {:induction false} RescoreCommutesWithFilter(mods: Modifiers, hits: seq<Hit>, keep: Document -> bool)
    ensures Rescore(mods, Filter(hits, keep)) == Filter(Rescore(mods, hits), keep)
  {
    if hits != [] {
      var r := Rescore(mods, hits);
      assert r[1..] == Rescore(mods, hits[1..]);
      assert r[0].doc == hits[0].doc;
      RescoreCommutesWithFilter(mods, hits[1..], keep);
      if keep(hits[0].doc) {
        var f := Filter(hits, keep);
        assert f[0] == hits[0] && f[1..] == Filter(hits[1..], keep);
      }
    }
  }
}
