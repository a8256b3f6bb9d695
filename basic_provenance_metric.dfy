/**
 * BasicProvenanceMetric: the share of described datasets that name a
 * creator or a publisher.
 *
 * Each subject typed void:Dataset or dcat:Dataset, and each subject with a
 * dct:creator or dct:publisher URI, has an entry: the empty string while no
 * creator is known, else the creator's URI. The last quad about a subject
 * decides its entry.
 */
module BasicProvenanceMetric {
  import opened Rdf

  /** rdf:type void:Dataset or rdf:type dcat:Dataset. */
  predicate TypedDataset(q: Quad)
  {
    q.pred == RDF_TYPE && (HasUri(q.obj, VOID_DATASET) || HasUri(q.obj, DCAT_DATASET))
  }

  /** dct:creator or dct:publisher with a URI object; a literal one is ignored. */
  predicate NamesCreator(q: Quad)
  {
    (q.pred == DCT_CREATOR || q.pred == DCT_PUBLISHER) && q.obj.Uri?
  }

  /** The entries, among some keys, that name a creator. */
  ghost function Documented(dataset: map<Node, string>, keys: set<Node>): nat
    requires keys <= dataset.Keys
    decreases keys
  {
    if keys == {} then 0
    else
      var k :| k in keys;
      (if dataset[k] != "" then 1 else 0) + Documented(dataset, keys - {k})
  }

  /** Any key can be counted first. */
  lemma {:induction false} DocumentedRemove(dataset: map<Node, string>, keys: set<Node>, k: Node)
    requires keys <= dataset.Keys && k in keys
    ensures Documented(dataset, keys) == (if dataset[k] != "" then 1 else 0) + Documented(dataset, keys - {k})
    decreases keys
  {
    var j :| j in keys && Documented(dataset, keys) == (if dataset[j] != "" then 1 else 0) + Documented(dataset, keys - {j});
    if j != k {
      DocumentedRemove(dataset, keys - {j}, k);
      DocumentedRemove(dataset, keys - {k}, j);
      assert keys - {j} - {k} == keys - {k} - {j};
    }
  }

  /**
   * At most every key is documented; all of them exactly when every entry
   * names a creator, none exactly when no entry does.
   */
  lemma {:induction false} DocumentedBounds(dataset: map<Node, string>, keys: set<Node>)
    requires keys <= dataset.Keys
    ensures Documented(dataset, keys) <= |keys|
    ensures Documented(dataset, keys) == |keys| <==> forall k :: k in keys ==> dataset[k] != ""
    ensures Documented(dataset, keys) == 0 <==> forall k :: k in keys ==> dataset[k] == ""
    decreases keys
  {
    if keys != {} {
      var k :| k in keys;
      DocumentedRemove(dataset, keys, k);
      DocumentedBounds(dataset, keys - {k});
    }
  }

  /**
   * The metric's specification: 0 without entries, else the documented
   * share of them.
   */
  ghost function Share(dataset: map<Node, string>): (r: real)
    ensures 0.0 <= r <= 1.0
    ensures r == 1.0 <==> (|dataset| > 0 && forall k :: k in dataset ==> dataset[k] != "")
    ensures r == 0.0 <==> forall k :: k in dataset ==> dataset[k] == ""
  {
    DocumentedBounds(dataset, dataset.Keys);
    if |dataset| == 0 then 0.0
    else
      var documented := Documented(dataset, dataset.Keys) as real;
      QuotientInUnit(documented, |dataset| as real);
      assert Div(documented, |dataset| as real) == Num(documented / |dataset| as real);
      assert documented / |dataset| as real * |dataset| as real == documented;
      documented / |dataset| as real
  }

  class BasicProvenanceMetric {
    /** Per described subject, "" or its creator's URI. */
    var dataset: map<Node, string>
    /** The subjects typed as datasets. */
    var isMetadata: set<Node>
    /** Reported as the dataset's triple count; compute never increments it. */
    var totalTriples: nat

    /** Every subject typed as a dataset has an entry. */
    ghost predicate Valid()
      reads this
    {
      isMetadata <= dataset.Keys
    }

    constructor()
      ensures Valid()
      ensures dataset == map[] && isMetadata == {} && totalTriples == 0
    {
      dataset := map[];
      isMetadata := {};
      totalTriples := 0;
    }

    /**
     * compute: a dataset typing resets the subject's entry to "", a
     * creator or publisher URI replaces it; other entries stay as they were.
     */
    method Compute(q: Quad)
      requires Valid()
      modifies this
      ensures Valid()
      ensures isMetadata == old(isMetadata) + (if TypedDataset(q) then {q.subj} else {})
      ensures q.subj in dataset <==> (q.subj in old(dataset) || TypedDataset(q) || NamesCreator(q))
      ensures TypedDataset(q) ==> dataset[q.subj] == ""
      ensures NamesCreator(q) ==> dataset[q.subj] == q.obj.uri
      ensures !TypedDataset(q) && !NamesCreator(q) ==> dataset == old(dataset)
      ensures forall k :: k != q.subj ==> (k in dataset <==> k in old(dataset))
      ensures forall k :: k != q.subj && k in old(dataset) ==> k in dataset && dataset[k] == old(dataset[k])
      ensures totalTriples == old(totalTriples)
    {
      if q.pred == RDF_TYPE && (HasUri(q.obj, VOID_DATASET) || HasUri(q.obj, DCAT_DATASET)) {
        dataset := dataset[q.subj := ""];
        isMetadata := isMetadata + {q.subj};
      }
      if q.pred == DCT_CREATOR || q.pred == DCT_PUBLISHER {
        if q.obj.Uri? {
          dataset := dataset[q.subj := q.obj.uri];
        }
      }
    }

    /** metricValue: the loop that counts the entries naming a creator, specified by Share. */
    method MetricValue() returns (r: real)
      ensures r == Share(dataset)
    {
      var validProv := 0;
      var remaining := dataset.Keys;
      while remaining != {}
        invariant remaining <= dataset.Keys
        invariant validProv + Documented(dataset, remaining) == Documented(dataset, dataset.Keys)
        decreases remaining
      {
        var k :| k in remaining;
        DocumentedRemove(dataset, remaining, k);
        if dataset[k] != "" {
          validProv := validProv + 1;
        }
        remaining := remaining - {k};
      }
      return if |dataset| == 0 then 0.0 else validProv as real / |dataset| as real;
    }
  }
}
