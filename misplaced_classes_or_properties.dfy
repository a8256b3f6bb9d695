/**
 * MisplacedClassesOrProperties: the share of defined terms used in the
 * wrong place, a class as a predicate or a property as the class of an
 * rdf:type quad. Each term is judged the first time it is seen and cached.
 */
module MisplacedClassesOrProperties {
  import opened Rdf
  import opened Streams
  import opened Vocabulary

  /** A quad whose predicate is checked: all but owl:equivalentProperty and owl:inverseOf quads. */
  predicate ChecksPredicate(q: Quad)
  {
    q.pred != OWL_EQUIVALENT_PROPERTY && q.pred != OWL_INVERSE_OF
  }

  /** A checked predicate that its vocabulary defines: it enters the property cache. */
  predicate KnownPredicate(checkTerm: TermCheck, q: Quad)
  {
    ChecksPredicate(q) && checkTerm(q.pred)
  }

  /**
   * An rdf:type quad whose class is a URI its vocabulary defines (its
   * predicate is checked too, see TypeIsChecked).
   */
  predicate ChecksClass(checkTerm: TermCheck, q: Quad)
  {
    q.obj.Uri? && q.pred == RDF_TYPE && checkTerm(q.obj.uri)
  }

  /** rdf:type is neither of the two predicates compute skips. */
  lemma TypeIsChecked(checkTerm: TermCheck, q: Quad)
    ensures ChecksClass(checkTerm, q) ==> ChecksPredicate(q)
  {
  }

  /** The quads that enter the property cache. */
  function PropertyUse(checkTerm: TermCheck): Quad -> bool
  {
    q => KnownPredicate(checkTerm, q)
  }

  /** The quads that enter the class cache. */
  function ClassUse(checkTerm: TermCheck): Quad -> bool
  {
    q => ChecksClass(checkTerm, q)
  }

  function PredicateOf(q: Quad): string
  {
    q.pred
  }

  /** The class URI of an rdf:type quad (asked only of quads with a URI object). */
  function ClassOf(q: Quad): string
  {
    if q.obj.Uri? then q.obj.uri else ""
  }

  /** The test's stream: two misplaced terms among six checked ones give 1 - 2/6. */
  lemma TestExpectation()
    ensures 0.66666666666 - 0.0001 <= OneMinusShare(2, 6) <= 0.66666666666 + 0.0001
  {
  }

  class MisplacedClassesOrProperties {
    const checkTerm: TermCheck
    const isClass: TermKind
    const isProperty: TermKind
    /** The property cache: URI of a defined predicate to "already judged". */
    var seenProperties: map<string, bool>
    /** The class cache: URI of a defined class to "already judged". */
    var seenClasses: map<string, bool>
    var misplacedClassesCount: nat
    var totalClassesCount: nat
    var misplacedPropertiesCount: nat
    var totalPropertiesCount: nat
    var totalTriples: nat
    /** The quads consumed so far. */
    ghost var stream: seq<Quad>

    /**
     * The property uses are the checked quads of s; the property cache holds
     * the defined predicates of s, every entry is true, and the misplaced
     * count is the number of cached predicates that are classes.
     */
    ghost predicate PropertiesValid(s: seq<Quad>)
      reads this`totalPropertiesCount, this`seenProperties, this`misplacedPropertiesCount
    {
      totalPropertiesCount == Count(s, ChecksPredicate)
      && PropertyCacheValid(s)
    }

    ghost predicate PropertyCacheValid(s: seq<Quad>)
      reads this`seenProperties, this`misplacedPropertiesCount
    {
      SeenCache(s, PropertyUse(checkTerm), PredicateOf, isClass, seenProperties, misplacedPropertiesCount)
    }

    /** The same for the class uses, the class cache, the defined classes and isProperty. */
    ghost predicate ClassesValid(s: seq<Quad>)
      reads this`totalClassesCount, this`seenClasses, this`misplacedClassesCount
    {
      totalClassesCount == Count(s, ClassUse(checkTerm))
      && ClassCacheValid(s)
    }

    ghost predicate ClassCacheValid(s: seq<Quad>)
      reads this`seenClasses, this`misplacedClassesCount
    {
      SeenCache(s, ClassUse(checkTerm), ClassOf, isProperty, seenClasses, misplacedClassesCount)
    }

    /** Every quad is a triple. */
    ghost predicate Valid()
      reads this
    {
      totalTriples == |stream| && PropertiesValid(stream) && ClassesValid(stream)
    }

    constructor(checkTerm: TermCheck, isClass: TermKind, isProperty: TermKind)
      ensures Valid() && stream == []
      ensures this.checkTerm == checkTerm && this.isClass == isClass && this.isProperty == isProperty
      ensures seenProperties == map[] && seenClasses == map[]
      ensures misplacedClassesCount == 0 && totalClassesCount == 0
      ensures misplacedPropertiesCount == 0 && totalPropertiesCount == 0 && totalTriples == 0
    {
      this.checkTerm := checkTerm;
      this.isClass := isClass;
      this.isProperty := isProperty;
      seenProperties := map[];
      seenClasses := map[];
      misplacedClassesCount := 0;
      totalClassesCount := 0;
      misplacedPropertiesCount := 0;
      totalPropertiesCount := 0;
      totalTriples := 0;
      stream := [];
      SeenCacheEmpty(PropertyUse(checkTerm), PredicateOf, isClass);
      SeenCacheEmpty(ClassUse(checkTerm), ClassOf, isProperty);
    }

    /**
     * compute: every quad is a triple; every quad but the owl:equivalentProperty
     * and owl:inverseOf ones is a property use, misplaced when its predicate
     * is a defined class seen for the first time; an rdf:type quad with a
     * defined URI class is a class use as well, misplaced when that class is a
     * property seen for the first time.
     */
    method Compute(q: Quad)
      requires Valid()
      modifies this
      ensures Valid() && stream == old(stream) + [q]
      ensures totalTriples == old(totalTriples) + 1
      ensures totalPropertiesCount == old(totalPropertiesCount) + (if ChecksPredicate(q) then 1 else 0)
      ensures totalClassesCount == old(totalClassesCount) + (if ChecksClass(checkTerm, q) then 1 else 0)
      ensures misplacedPropertiesCount == old(misplacedPropertiesCount) +
        (if KnownPredicate(checkTerm, q) && q.pred !in old(seenProperties) && isClass(q.pred) then 1 else 0)
      ensures misplacedClassesCount == old(misplacedClassesCount) +
        (if ChecksClass(checkTerm, q) && q.obj.uri !in old(seenClasses) && isProperty(q.obj.uri) then 1 else 0)
    {
      TypeIsChecked(checkTerm, q);
      totalTriples := totalTriples + 1;
      if !ChecksPredicate(q) {
        // neither a property use nor a class use
        PropertiesSkip(q);
        ClassesSkip(q);
      } else {
        CheckPredicate(q);
        CheckClass(q);
      }
      stream := stream + [q];
    }

    /** The property half of compute: one more use, and the predicate's cache lookup. */
    method CheckPredicate(q: Quad)
      requires PropertiesValid(stream) && ChecksPredicate(q)
      modifies `totalPropertiesCount, `seenProperties, `misplacedPropertiesCount
      ensures PropertiesValid(stream + [q])
      ensures totalPropertiesCount == old(totalPropertiesCount) + 1
      ensures misplacedPropertiesCount == old(misplacedPropertiesCount) +
        (if checkTerm(q.pred) && q.pred !in old(seenProperties) && isClass(q.pred) then 1 else 0)
    {
      CountAppend(stream, q, ChecksPredicate);
      totalPropertiesCount := totalPropertiesCount + 1;
      SeenCacheStep(stream, q, PropertyUse(checkTerm), PredicateOf, isClass, seenProperties, misplacedPropertiesCount);
      if q.pred in seenProperties {
        if !seenProperties[q.pred] {
          // every cached entry is true
          assert false;
        }
      } else if checkTerm(q.pred) {
        if isClass(q.pred) {
          misplacedPropertiesCount := misplacedPropertiesCount + 1;
          seenProperties := seenProperties[q.pred := false];
        }
        seenProperties := seenProperties[q.pred := true];
      }
    }

    /**
     * The class half of compute, for a checked quad: an rdf:type quad with a
     * defined URI class is one more use, and the class's cache lookup.
     */
    method CheckClass(q: Quad)
      requires ClassesValid(stream)
      modifies `totalClassesCount, `seenClasses, `misplacedClassesCount
      ensures ClassesValid(stream + [q])
      ensures totalClassesCount == old(totalClassesCount) + (if ChecksClass(checkTerm, q) then 1 else 0)
      ensures misplacedClassesCount == old(misplacedClassesCount) +
        (if ChecksClass(checkTerm, q) && q.obj.uri !in old(seenClasses) && isProperty(q.obj.uri) then 1 else 0)
    {
      CountAppend(stream, q, ClassUse(checkTerm));
      SeenCacheStep(stream, q, ClassUse(checkTerm), ClassOf, isProperty, seenClasses, misplacedClassesCount);
      if q.obj.Uri? && q.pred == RDF_TYPE {
        if checkTerm(q.obj.uri) {
          totalClassesCount := totalClassesCount + 1;
          if q.obj.uri in seenClasses {
            if !seenClasses[q.obj.uri] {
              // every cached entry is true
              assert false;
            }
          } else if checkTerm(q.obj.uri) {
            if isProperty(q.obj.uri) {
              misplacedClassesCount := misplacedClassesCount + 1;
              seenClasses := seenClasses[q.obj.uri := false];
            }
            seenClasses := seenClasses[q.obj.uri := true];
          }
        }
      }
    }

    /** A quad compute skips is neither a property use nor a class use. */
    lemma PropertiesSkip(q: Quad)
      requires PropertiesValid(stream) && !ChecksPredicate(q)
      ensures PropertiesValid(stream + [q])
    {
      CountAppend(stream, q, ChecksPredicate);
      SeenCacheStep(stream, q, PropertyUse(checkTerm), PredicateOf, isClass, seenProperties, misplacedPropertiesCount);
    }

    lemma ClassesSkip(q: Quad)
      requires ClassesValid(stream) && !ChecksClass(checkTerm, q)
      ensures ClassesValid(stream + [q])
    {
      CountAppend(stream, q, ClassUse(checkTerm));
      SeenCacheStep(stream, q, ClassUse(checkTerm), ClassOf, isProperty, seenClasses, misplacedClassesCount);
    }

    /** Each misplaced term was counted as a use when it entered its cache. */
    lemma MisplacedWithinTotals()
      requires Valid()
      ensures misplacedPropertiesCount <= totalPropertiesCount
      ensures misplacedClassesCount <= totalClassesCount
    {
      FirstHitsBound(stream, PropertyUse(checkTerm), PredicateOf, isClass);
      CountMonotone(stream, PropertyUse(checkTerm), ChecksPredicate);
      FirstHitsBound(stream, ClassUse(checkTerm), ClassOf, isProperty);
    }

    /**
     * Judging once per term: the misplaced counts are the numbers of distinct
     * defined predicates that are classes and of distinct defined classes
     * that are properties, however often each is used.
     */
    lemma MisplacedAreDistinctTerms()
      requires Valid()
      ensures misplacedPropertiesCount == |KeySet(stream, Judged(PropertyUse(checkTerm), PredicateOf, isClass), PredicateOf)|
      ensures misplacedClassesCount == |KeySet(stream, Judged(ClassUse(checkTerm), ClassOf, isProperty), ClassOf)|
    {
      FirstHitsDistinct(stream, PropertyUse(checkTerm), PredicateOf, isClass);
      FirstHitsDistinct(stream, ClassUse(checkTerm), ClassOf, isProperty);
    }

    /** metricValue, over the counters Compute keeps. */
    function MetricValue(): (r: real)
      reads this
      requires Valid()
      ensures 0.0 <= r <= 1.0
      ensures r == 1.0 <==> misplacedPropertiesCount + misplacedClassesCount == 0
      ensures r == 0.0 <==> (misplacedPropertiesCount + misplacedClassesCount > 0
        && misplacedPropertiesCount == totalPropertiesCount && misplacedClassesCount == totalClassesCount)
    {
      MisplacedWithinTotals();
      OneMinusShare(misplacedPropertiesCount + misplacedClassesCount, totalPropertiesCount + totalClassesCount)
    }
  }
}
