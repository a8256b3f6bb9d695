/**
 * MisusedOwlDatatypeOrObjectProperties: the share of quads with a known
 * predicate that use an owl:ObjectProperty with a literal or an
 * owl:DatatypeProperty with a resource.
 */
module MisusedOwlDatatypeOrObjectProperties {
  import opened Rdf
  import opened Streams
  import opened Vocabulary

  /** A quad whose predicate its vocabulary defines. */
  function ValidPredicates(checkTerm: TermCheck): Quad -> bool
  {
    (q: Quad) => checkTerm(q.pred)
  }

  /** A known object property whose object is a literal. */
  function MisusedObjectProperties(checkTerm: TermCheck, isObjectProperty: TermKind): Quad -> bool
  {
    (q: Quad) => checkTerm(q.pred) && q.obj.Literal? && isObjectProperty(q.pred)
  }

  /** A known datatype property whose object is a URI or a blank node. */
  function MisusedDatatypeProperties(checkTerm: TermCheck, isDatatypeProperty: TermKind): Quad -> bool
  {
    (q: Quad) => checkTerm(q.pred) && (q.obj.Uri? || q.obj.Blank?) && isDatatypeProperty(q.pred)
  }

  /** A quad with either misuse. */
  function Misused(checkTerm: TermCheck, isObjectProperty: TermKind, isDatatypeProperty: TermKind): Quad -> bool
  {
    (q: Quad) => MisusedObjectProperties(checkTerm, isObjectProperty)(q)
      || MisusedDatatypeProperties(checkTerm, isDatatypeProperty)(q)
  }

  /**
   * The test asserts 0.6, which two misuses among five known predicates
   * give; the two among six of its comment would give 2/3 instead.
   */
  lemma TestExpectation()
    ensures 0.6 - 0.0001 <= OneMinusShare(2, 5) <= 0.6 + 0.0001
    ensures !(0.6 - 0.0001 <= OneMinusShare(2, 6) <= 0.6 + 0.0001)
  {
  }

  class MisusedOwlDatatypeOrObjectProperties {
    const checkTerm: TermCheck
    const isObjectProperty: TermKind
    const isDatatypeProperty: TermKind
    var misuseDatatypeProperties: nat
    var misuseObjectProperties: nat
    var validPredicates: nat
    var totalTriples: nat
    /** The quads consumed so far. */
    ghost var stream: seq<Quad>

    /** Each counter counts the quads of the stream that it names. */
    ghost predicate Valid()
      reads this
    {
      totalTriples == |stream|
      && validPredicates == Count(stream, ValidPredicates(checkTerm))
      && misuseObjectProperties == Count(stream, MisusedObjectProperties(checkTerm, isObjectProperty))
      && misuseDatatypeProperties == Count(stream, MisusedDatatypeProperties(checkTerm, isDatatypeProperty))
    }

    constructor(checkTerm: TermCheck, isObjectProperty: TermKind, isDatatypeProperty: TermKind)
      ensures Valid() && stream == []
      ensures this.checkTerm == checkTerm && this.isObjectProperty == isObjectProperty
      ensures this.isDatatypeProperty == isDatatypeProperty
      ensures misuseDatatypeProperties == 0 && misuseObjectProperties == 0
      ensures validPredicates == 0 && totalTriples == 0
    {
      this.checkTerm := checkTerm;
      this.isObjectProperty := isObjectProperty;
      this.isDatatypeProperty := isDatatypeProperty;
      misuseDatatypeProperties := 0;
      misuseObjectProperties := 0;
      validPredicates := 0;
      totalTriples := 0;
      stream := [];
    }

    /**
     * compute: a known predicate is a valid predicate; with a literal
     * object it is misused when it is an object property, with a URI or
     * blank object when it is a datatype property.
     */
    method Compute(q: Quad)
      requires Valid()
      modifies this
      ensures Valid() && stream == old(stream) + [q]
      ensures totalTriples == old(totalTriples) + 1
      ensures validPredicates == old(validPredicates) + (if checkTerm(q.pred) then 1 else 0)
      ensures misuseObjectProperties == old(misuseObjectProperties)
        + (if checkTerm(q.pred) && q.obj.Literal? && isObjectProperty(q.pred) then 1 else 0)
      ensures misuseDatatypeProperties == old(misuseDatatypeProperties)
        + (if checkTerm(q.pred) && !q.obj.Literal? && isDatatypeProperty(q.pred) then 1 else 0)
    {
      CountAppend(stream, q, ValidPredicates(checkTerm));
      CountAppend(stream, q, MisusedObjectProperties(checkTerm, isObjectProperty));
      CountAppend(stream, q, MisusedDatatypeProperties(checkTerm, isDatatypeProperty));
      totalTriples := totalTriples + 1;
      if checkTerm(q.pred) {
        validPredicates := validPredicates + 1;
        if q.obj.Literal? {
          if isObjectProperty(q.pred) {
            misuseObjectProperties := misuseObjectProperties + 1;
          }
        } else if q.obj.Uri? || q.obj.Blank? {
          if isDatatypeProperty(q.pred) {
            misuseDatatypeProperties := misuseDatatypeProperties + 1;
          }
        }
      }
      stream := stream + [q];
    }

    /**
     * A quad is misused at most once, and only with a known predicate, so
     * the misuses together are the misused quads and never exceed the
     * valid predicates.
     */
    lemma MisusedWithinValid()
      requires Valid()
      ensures misuseObjectProperties + misuseDatatypeProperties
        == Count(stream, Misused(checkTerm, isObjectProperty, isDatatypeProperty))
      ensures misuseObjectProperties + misuseDatatypeProperties <= validPredicates <= totalTriples
    {
      CountDisjointUnion(stream, Misused(checkTerm, isObjectProperty, isDatatypeProperty),
        MisusedObjectProperties(checkTerm, isObjectProperty), MisusedDatatypeProperties(checkTerm, isDatatypeProperty));
      CountMonotone(stream, Misused(checkTerm, isObjectProperty, isDatatypeProperty), ValidPredicates(checkTerm));
    }

    /**
     * metricValue: 1.0 exactly when nothing is misused, 0.0 exactly when
     * every valid predicate is misused, else one minus the misused share.
     */
    function MetricValue(): (r: real)
      reads this
      requires Valid()
      ensures 0.0 <= r <= 1.0
      ensures r == 1.0 <==> misuseObjectProperties + misuseDatatypeProperties == 0
      ensures r == 0.0 <==> (misuseObjectProperties + misuseDatatypeProperties > 0
        && misuseObjectProperties + misuseDatatypeProperties == validPredicates)
    {
      MisusedWithinValid();
      OneMinusShare(misuseDatatypeProperties + misuseObjectProperties, validPredicates)
    }
  }
}
