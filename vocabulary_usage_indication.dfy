/**
 * VocabularyUsageIndication: the share of the namespaces a dataset uses
 * (those of its predicates and of its rdf:type classes) that its metadata
 * indicates with void:vocabulary.
 *
 * The value is computed on the first metricValue call and kept; the problem
 * report removes the indicated namespaces from the used ones in place.
 */
module VocabularyUsageIndication {
  import opened Rdf
  import opened Vocabulary

  /** A set lies within another exactly when nothing of it is left over. */
  lemma NothingLeftOver(a: set<string>, b: set<string>)
    ensures a <= b <==> a - b == {}
  {
    if a <= b {
      assert forall x :: x !in a - b;
    } else {
      var x :| x in a && x !in b;
      assert x in a - b;
    }
  }

  /**
   * The metric's specification: 0 when no used namespace is indicated,
   * else the indicated share of the used namespaces.
   */
  function Ratio(used: set<string>, indicated: set<string>): (r: real)
    ensures 0.0 <= r <= 1.0
    ensures r == 0.0 <==> used * indicated == {}
    ensures r == 1.0 <==> (used != {} && used <= indicated)
  {
    var both := used * indicated;
    assert |used - indicated| + |both| == |used| by {
      assert used == (used - indicated) + both;
      assert (used - indicated) * both == {};
    }
    if |both| == 0 then 0.0
    else if |used| == 0 then 0.0
    else
      QuotientInUnit(|both| as real, |used| as real);
      assert Div(|both| as real, |used| as real) == Num(|both| as real / |used| as real);
      NothingLeftOver(used, indicated);
      |both| as real / |used| as real
  }

  class VocabularyUsageIndication {
    const nameSpace: NameSpaceOf
    /** EnvironmentProperties.requiresQualityProblemReport, read once. */
    const requireProblemReport: bool
    var differentNamespacesUsed: set<string>
    var namespacesIndicated: set<string>
    var calculated: bool
    var value: real
    var totalTriples: nat
    /** The namespaces reported as used but not indicated, in report order. */
    var problems: seq<string>

    constructor(nameSpace: NameSpaceOf, requireProblemReport: bool)
      ensures this.nameSpace == nameSpace && this.requireProblemReport == requireProblemReport
      ensures differentNamespacesUsed == {} && namespacesIndicated == {}
      ensures !calculated && value == 0.0 && totalTriples == 0 && problems == []
    {
      this.nameSpace := nameSpace;
      this.requireProblemReport := requireProblemReport;
      differentNamespacesUsed := {};
      namespacesIndicated := {};
      calculated := false;
      value := 0.0;
      totalTriples := 0;
      problems := [];
    }

    /**
     * compute: the predicate's namespace is used, so is an rdf:type
     * class's; a void:vocabulary object is indicated, and must be a URI.
     * The value once calculated is left alone.
     */
    method Compute(q: Quad) returns (fault: Option<Fault>)
      modifies `differentNamespacesUsed, `namespacesIndicated, `totalTriples
      ensures totalTriples == old(totalTriples) + 1
      ensures differentNamespacesUsed == old(differentNamespacesUsed) + {nameSpace(q.pred)}
        + (if q.pred == RDF_TYPE && q.obj.Uri? then {nameSpace(q.obj.uri)} else {})
      ensures fault.Some? <==> (q.pred == VOID_VOCABULARY && !q.obj.Uri?)
      ensures fault.Some? ==> fault.value == UnsupportedOperation
      ensures namespacesIndicated == old(namespacesIndicated)
        + (if q.pred == VOID_VOCABULARY && q.obj.Uri? then {q.obj.uri} else {})
    {
      totalTriples := totalTriples + 1;
      differentNamespacesUsed := differentNamespacesUsed + {nameSpace(q.pred)};
      if q.pred == RDF_TYPE {
        if q.obj.Uri? {
          differentNamespacesUsed := differentNamespacesUsed + {nameSpace(q.obj.uri)};
        }
      }
      fault := None;
      if q.pred == VOID_VOCABULARY {
        if !q.obj.Uri? {
          return Some(UnsupportedOperation);
        }
        namespacesIndicated := namespacesIndicated + {q.obj.uri};
      }
    }

    /**
     * metricValue: the first call fixes the value from the sets as they are
     * then; every later call returns that value.
     */
    method MetricValue() returns (r: real)
      modifies `calculated, `value
      ensures calculated
      ensures old(calculated) ==> value == old(value)
      ensures !old(calculated) ==> value == Ratio(differentNamespacesUsed, namespacesIndicated)
      ensures r == value
    {
      if !calculated {
        calculated := true;
        var totalDiffNs := |differentNamespacesUsed|;
        var view := differentNamespacesUsed * namespacesIndicated;
        value := if |view| == 0 then 0.0
          else if totalDiffNs == 0 then 0.0
          else |view| as real / totalDiffNs as real;
      }
      return value;
    }

    /**
     * getProblemCollection: when a report is required and none was made,
     * the indicated namespaces are removed from the used ones and each
     * remaining one is reported once; otherwise nothing changes.
     */
    method GetProblemCollection() returns (r: seq<string>)
      modifies `differentNamespacesUsed, `problems
      ensures r == problems
      ensures !(requireProblemReport && old(problems) == []) ==>
        (problems == old(problems) && differentNamespacesUsed == old(differentNamespacesUsed))
      ensures requireProblemReport && old(problems) == [] ==>
        differentNamespacesUsed == old(differentNamespacesUsed) - namespacesIndicated
      ensures requireProblemReport && old(problems) == [] ==>
        Ratio(differentNamespacesUsed, namespacesIndicated) == 0.0
      ensures requireProblemReport && old(problems) == [] ==>
        (forall s :: s in problems <==> s in differentNamespacesUsed)
      ensures requireProblemReport && old(problems) == [] ==>
        forall i, j :: 0 <= i < j < |problems| ==> problems[i] != problems[j]
    {
      if problems == [] {
        if requireProblemReport {
          differentNamespacesUsed := differentNamespacesUsed - namespacesIndicated;
          var remaining := differentNamespacesUsed;
          while remaining != {}
            invariant differentNamespacesUsed == old(differentNamespacesUsed) - namespacesIndicated
            invariant remaining <= differentNamespacesUsed
            invariant forall s :: s in problems <==> s in differentNamespacesUsed && s !in remaining
            invariant forall i, j :: 0 <= i < j < |problems| ==> problems[i] != problems[j]
            decreases remaining
          {
            var s :| s in remaining;
            problems := problems + [s];
            remaining := remaining - {s};
          }
        }
      }
      return problems;
    }
  }
}
