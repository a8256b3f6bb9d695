/**
 * UsageOfDeprecatedClassesOrProperties: one minus the share of deprecated
 * terms among the classes of rdf:type quads and the predicates of all other
 * quads.
 */
module UsageOfDeprecatedClassesOrProperties {
  import opened Rdf
  import opened Streams
  import opened Vocabulary

  /** An rdf:type quad whose class is a URI its vocabulary defines. */
  function KnownTypes(checkTerm: TermCheck): Quad -> bool
  {
    (q: Quad) => q.pred == RDF_TYPE && q.obj.Uri? && checkTerm(q.obj.uri)
  }

  /** A known class that its vocabulary marks deprecated. */
  function DeprecatedTypes(checkTerm: TermCheck, isDeprecated: TermKind): Quad -> bool
  {
    (q: Quad) => KnownTypes(checkTerm)(q) && isDeprecated(q.obj.uri)
  }

  /** A quad counted in totalProperties: every quad but an rdf:type one whose object is not a URI. */
  function PropertyUses(): Quad -> bool
  {
    (q: Quad) => q.pred == RDF_TYPE ==> q.obj.Uri?
  }

  /** The rdf:type quads with a URI object. */
  function TypeUses(): Quad -> bool
  {
    (q: Quad) => q.pred == RDF_TYPE && q.obj.Uri?
  }

  /** The quads other than rdf:type. */
  function NonTypes(): Quad -> bool
  {
    (q: Quad) => q.pred != RDF_TYPE
  }

  /** A quad other than rdf:type whose predicate its vocabulary defines. */
  function KnownProperties(checkTerm: TermCheck): Quad -> bool
  {
    (q: Quad) => q.pred != RDF_TYPE && checkTerm(q.pred)
  }

  /** A known predicate that its vocabulary marks deprecated. */
  function DeprecatedProperties(checkTerm: TermCheck, isDeprecated: TermKind): Quad -> bool
  {
    (q: Quad) => KnownProperties(checkTerm)(q) && isDeprecated(q.pred)
  }

  /** A quad whose term was looked up: a known class or a known predicate. */
  function Assessed(checkTerm: TermCheck): Quad -> bool
  {
    (q: Quad) => KnownTypes(checkTerm)(q) || KnownProperties(checkTerm)(q)
  }

  /**
   * metricValue: 1 - deprecated / total as a Java double, NaN when nothing
   * was counted (0 / 0).
   */
  function DeprecatedValue(deprecated: nat, total: nat): (r: Double)
    requires deprecated <= total
    ensures r.NaN? <==> total == 0
    ensures r.Num? ==> InUnit(r)
    ensures r.Num? ==> (r.value == 1.0 <==> deprecated == 0)
    ensures r.Num? ==> (r.value == 0.0 <==> deprecated == total)
    ensures r.Num? ==> (1.0 - r.value) * total as real == deprecated as real
  {
    var share := Div(deprecated as real, total as real);
    if share.NaN? then NaN
    else
      QuotientInUnit(deprecated as real, total as real);
      Num(1.0 - share.value)
  }

  /** The test's stream: 1 + 1 deprecated among 2 types and 5 properties give 1 - 2/7. */
  lemma TestExpectation()
    ensures DeprecatedValue(2, 7).Num?
    ensures 0.71428571428 - 0.0001 <= DeprecatedValue(2, 7).value <= 0.71428571428 + 0.0001
  {
  }

  class UsageOfDeprecatedClassesOrProperties {
    const checkTerm: TermCheck
    const isDeprecatedTerm: TermKind
    var totalTypes: nat
    var totalProperties: nat
    var deprecatedTypes: nat
    var deprecatedProperties: nat
    var counter: nat
    var triplesAssessed: nat
    /** The quads consumed so far. */
    ghost var stream: seq<Quad>

    /** Each counter counts the quads of the stream that it names. */
    ghost predicate Valid()
      reads this
    {
      counter == |stream|
      && totalTypes == Count(stream, KnownTypes(checkTerm))
      && deprecatedTypes == Count(stream, DeprecatedTypes(checkTerm, isDeprecatedTerm))
      && totalProperties == Count(stream, PropertyUses())
      && deprecatedProperties == Count(stream, DeprecatedProperties(checkTerm, isDeprecatedTerm))
      && triplesAssessed == Count(stream, Assessed(checkTerm))
    }

    constructor(checkTerm: TermCheck, isDeprecatedTerm: TermKind)
      ensures Valid() && stream == []
      ensures this.checkTerm == checkTerm && this.isDeprecatedTerm == isDeprecatedTerm
      ensures totalTypes == 0 && totalProperties == 0 && deprecatedTypes == 0
      ensures deprecatedProperties == 0 && counter == 0 && triplesAssessed == 0
    {
      this.checkTerm := checkTerm;
      this.isDeprecatedTerm := isDeprecatedTerm;
      totalTypes := 0;
      totalProperties := 0;
      deprecatedTypes := 0;
      deprecatedProperties := 0;
      counter := 0;
      triplesAssessed := 0;
      stream := [];
    }

    /**
     * compute: an rdf:type quad with a URI class is a property use, and a
     * type use too when the class is known, deprecated or not; an rdf:type
     * quad with any other object counts only as a triple; every other quad
     * is a property use, assessed and possibly deprecated when its predicate
     * is known.
     */
    method Compute(q: Quad)
      requires Valid()
      modifies this
      ensures Valid() && stream == old(stream) + [q]
      ensures counter == old(counter) + 1
      ensures totalTypes == old(totalTypes) + (if KnownTypes(checkTerm)(q) then 1 else 0)
      ensures deprecatedTypes == old(deprecatedTypes)
        + (if KnownTypes(checkTerm)(q) && isDeprecatedTerm(q.obj.uri) then 1 else 0)
      ensures totalProperties == old(totalProperties) + (if q.pred == RDF_TYPE && !q.obj.Uri? then 0 else 1)
      ensures deprecatedProperties == old(deprecatedProperties)
        + (if KnownProperties(checkTerm)(q) && isDeprecatedTerm(q.pred) then 1 else 0)
      ensures triplesAssessed == old(triplesAssessed)
        + (if KnownTypes(checkTerm)(q) || KnownProperties(checkTerm)(q) then 1 else 0)
    {
      CountAppend(stream, q, KnownTypes(checkTerm));
      CountAppend(stream, q, DeprecatedTypes(checkTerm, isDeprecatedTerm));
      CountAppend(stream, q, PropertyUses());
      CountAppend(stream, q, DeprecatedProperties(checkTerm, isDeprecatedTerm));
      CountAppend(stream, q, Assessed(checkTerm));
      counter := counter + 1;
      if q.pred == RDF_TYPE {
        if q.obj.Uri? {
          if checkTerm(q.obj.uri) {
            triplesAssessed := triplesAssessed + 1;
            if isDeprecatedTerm(q.obj.uri) {
              deprecatedTypes := deprecatedTypes + 1;
            }
            totalTypes := totalTypes + 1;
          }
          totalProperties := totalProperties + 1;
        }
      } else {
        if checkTerm(q.pred) {
          triplesAssessed := triplesAssessed + 1;
          if isDeprecatedTerm(q.pred) {
            deprecatedProperties := deprecatedProperties + 1;
          }
        }
        totalProperties := totalProperties + 1;
      }
      stream := stream + [q];
    }

    /**
     * Every deprecated term was assessed, every assessed quad is a property
     * use, and every known class is counted as a property use as well.
     */
    lemma CountersBounded()
      requires Valid()
      ensures deprecatedTypes <= totalTypes <= totalProperties <= counter
      ensures deprecatedProperties <= totalProperties - totalTypes
      ensures triplesAssessed == totalTypes + Count(stream, KnownProperties(checkTerm))
      ensures deprecatedTypes + deprecatedProperties <= triplesAssessed
    {
      CountMonotone(stream, DeprecatedTypes(checkTerm, isDeprecatedTerm), KnownTypes(checkTerm));
      CountMonotone(stream, DeprecatedProperties(checkTerm, isDeprecatedTerm), KnownProperties(checkTerm));
      CountDisjointUnion(stream, PropertyUses(), TypeUses(), NonTypes());
      CountMonotone(stream, KnownTypes(checkTerm), TypeUses());
      CountMonotone(stream, KnownProperties(checkTerm), NonTypes());
      CountDisjointUnion(stream, Assessed(checkTerm), KnownTypes(checkTerm), KnownProperties(checkTerm));
    }

    /**
     * metricValue: in the unit interval unless nothing was counted, and 1.0
     * exactly when no deprecated term was found.
     */
    function MetricValue(): (r: Double)
      reads this
      requires Valid()
      ensures r.NaN? <==> totalTypes + totalProperties == 0
      ensures r.Num? ==> InUnit(r)
      ensures r.Num? ==> (r.value == 1.0 <==> deprecatedTypes + deprecatedProperties == 0)
    {
      CountersBounded();
      DeprecatedValue(deprecatedTypes + deprecatedProperties, totalTypes + totalProperties)
    }

    /** The value is NaN exactly when every quad is an rdf:type quad whose object is not a URI. */
    lemma NaNIffNoPropertyUse()
      requires Valid()
      ensures MetricValue().NaN? <==>
        forall i :: 0 <= i < |stream| ==> stream[i].pred == RDF_TYPE && !stream[i].obj.Uri?
    {
      CountersBounded();
      CountZero(stream, PropertyUses());
    }
  }
}
