/**
 * ValidIFPUsage: the share of inverse-functional-property statements whose
 * predicate-object pair was not already used by an earlier statement (two
 * subjects sharing an IFP value would be inferred to be the same resource).
 */
module ValidIFPUsage {
  import opened Rdf
  import opened Streams
  import opened Vocabulary

  /** The key of an IFP statement: its predicate and object. */
  datatype IfpKey = IfpKey(pred: string, obj: Node)

  function KeyOf(q: Quad): IfpKey
  {
    IfpKey(q.pred, q.obj)
  }

  /** A quad whose predicate is a known inverse-functional property. */
  function IfpStatements(checkTerm: TermCheck, isInverseFunctionalProperty: TermKind): Quad -> bool
  {
    (q: Quad) => checkTerm(q.pred) && isInverseFunctionalProperty(q.pred)
  }

  /**
   * The test's comment: two violations among six IFP statements give
   * 1 - 2/6. The test's assertion of 0.666667 is commented out (as is a
   * second one of 0.75); the test only calls metricValue.
   */
  lemma TestExpectation()
    ensures 0.666667 - 0.0001 <= OneMinusShare(2, 6) <= 0.666667 + 0.0001
  {
  }

  class ValidIFPUsage {
    const checkTerm: TermCheck
    const isInverseFunctionalProperty: TermKind
    var totalIFPs: nat
    var totalViolatedIFPs: nat
    /** seenIFPs: each predicate-object pair to the first statement that used it. */
    var seenIFPs: map<IfpKey, Quad>
    var counter: nat
    /** The quads consumed so far. */
    ghost var stream: seq<Quad>

    /**
     * The directory holds the first IFP statement of each key, and every IFP
     * statement either entered it or is a violation.
     */
    ghost predicate Valid()
      reads this
    {
      counter == |stream|
      && totalIFPs == Count(stream, IfpStatements(checkTerm, isInverseFunctionalProperty))
      && seenIFPs == FirstSeen(stream, IfpStatements(checkTerm, isInverseFunctionalProperty), KeyOf)
      && totalViolatedIFPs + |seenIFPs| == totalIFPs
    }

    constructor(checkTerm: TermCheck, isInverseFunctionalProperty: TermKind)
      ensures Valid() && stream == []
      ensures this.checkTerm == checkTerm && this.isInverseFunctionalProperty == isInverseFunctionalProperty
      ensures totalIFPs == 0 && totalViolatedIFPs == 0 && seenIFPs == map[] && counter == 0
    {
      this.checkTerm := checkTerm;
      this.isInverseFunctionalProperty := isInverseFunctionalProperty;
      totalIFPs := 0;
      totalViolatedIFPs := 0;
      seenIFPs := map[];
      counter := 0;
      stream := [];
    }

    /**
     * compute: an IFP statement whose key was seen before is a violation
     * and leaves the directory as it is; a new key is stored with this
     * statement.
     */
    method Compute(q: Quad)
      requires Valid()
      modifies this
      ensures Valid() && stream == old(stream) + [q]
      ensures counter == old(counter) + 1
      ensures totalIFPs == old(totalIFPs)
        + (if checkTerm(q.pred) && isInverseFunctionalProperty(q.pred) then 1 else 0)
      ensures totalViolatedIFPs == old(totalViolatedIFPs)
        + (if checkTerm(q.pred) && isInverseFunctionalProperty(q.pred) && KeyOf(q) in old(seenIFPs) then 1 else 0)
      ensures seenIFPs == (if checkTerm(q.pred) && isInverseFunctionalProperty(q.pred) && KeyOf(q) !in old(seenIFPs)
        then old(seenIFPs)[KeyOf(q) := q] else old(seenIFPs))
    {
      CountAppend(stream, q, IfpStatements(checkTerm, isInverseFunctionalProperty));
      FirstSeenAppend(stream, q, IfpStatements(checkTerm, isInverseFunctionalProperty), KeyOf);
      counter := counter + 1;
      if checkTerm(q.pred) {
        if isInverseFunctionalProperty(q.pred) {
          totalIFPs := totalIFPs + 1;
          var t := IfpKey(q.pred, q.obj);
          if t in seenIFPs {
            totalViolatedIFPs := totalViolatedIFPs + 1;
          } else {
            seenIFPs := seenIFPs[t := q];
          }
        }
      }
      stream := stream + [q];
    }

    /**
     * The violations are the IFP statements less the distinct keys among
     * them, and each stored statement is the first one with its key.
     */
    lemma ViolationsAreRepeats(k: IfpKey)
      requires Valid()
      ensures totalViolatedIFPs == totalIFPs - |KeySet(stream, IfpStatements(checkTerm, isInverseFunctionalProperty), KeyOf)|
      ensures k in seenIFPs ==> exists i :: (0 <= i < |stream| && stream[i] == seenIFPs[k] && KeyOf(stream[i]) == k
        && IfpStatements(checkTerm, isInverseFunctionalProperty)(stream[i])
        && forall j :: 0 <= j < i ==> !(IfpStatements(checkTerm, isInverseFunctionalProperty)(stream[j]) && KeyOf(stream[j]) == k))
    {
      FirstSeenKeys(stream, IfpStatements(checkTerm, isInverseFunctionalProperty), KeyOf);
      assert |seenIFPs| == |seenIFPs.Keys|;
      if k in seenIFPs {
        FirstSeenIsFirst(stream, IfpStatements(checkTerm, isInverseFunctionalProperty), KeyOf, k);
      }
    }

    /**
     * metricValue: 1.0 without IFP statements or violations, else one minus
     * the violated share, which stays above 0.0 because the first statement
     * of each key is never a violation.
     */
    function MetricValue(): (r: real)
      reads this
      requires Valid()
      ensures 0.0 < r <= 1.0
      ensures r == 1.0 <==> totalViolatedIFPs == 0
    {
      FirstSeenEmpty(stream, IfpStatements(checkTerm, isInverseFunctionalProperty), KeyOf);
      if totalIFPs == 0 then 1.0
      else OneMinusShare(totalViolatedIFPs, totalIFPs)
    }
  }
}
