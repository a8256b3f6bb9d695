/**
 * ReuseExistingTerms: the share of distinct classes and properties that
 * a suggested or widely used vocabulary defines.
 */
module ReuseExistingTerms {
  import opened Rdf
  import opened Streams
  import opened Vocabulary

  /** The ten most used vocabularies, counted as suggested for every dataset. */
  const TOP_VOCABS: set<string> := {
    RDF_NS,
    "http://www.w3.org/2000/01/rdf-schema#",
    "http://xmlns.com/foaf/0.1/",
    "http://purl.org/dc/terms/",
    "http://www.w3.org/2002/07/owl#",
    "http://www.w3.org/2003/01/geo/wgs84_pos#",
    "http://rdfs.org/sioc/ns#",
    "http://www.w3.org/2004/02/skos/core#",
    "http://rdfs.org/ns/void#",
    "http://www.w3.org/ns/dcat#"
  }

  /** VocabularyLoader.checkTerm where its failure is caught: None when the lookup throws. */
  type TermLookup = string -> Option<bool>

  /** Whether compute checks the object of the quad as a class. */
  predicate ChecksClass(q: Quad)
  {
    q.pred == RDF_TYPE && q.obj.Uri?
  }

  /** Whether the quad is an rdf:type quad whose class is a literal. */
  predicate LiteralClass(q: Quad)
  {
    q.pred == RDF_TYPE && q.obj.Literal?
  }

  /** The counters compute updates, as one value. */
  datatype Tally = Tally(seen: set<string>, vocabs: map<string, nat>,
                         overlapClasses: nat, overlapProperties: nat, totalClasses: nat, totalProperties: nat,
                         overlapTerms: seq<string>, failures: nat)

  /** One more class or property counted. */
  function CountTerm(s: Tally, isClass: bool): Tally
  {
    if isClass then s.(totalClasses := s.totalClasses + 1) else s.(totalProperties := s.totalProperties + 1)
  }

  /** The terms of a namespace. */
  function InNamespace(nameSpace: NameSpaceOf, ns: string): string -> bool
  {
    t => nameSpace(t) == ns
  }

  /**
   * metricValue: (overlapping classes + overlapping properties) over
   * (classes + properties), as a Java double.
   */
  function OverlapValue(overlap: nat, total: nat): (r: Double)
    requires overlap <= total
    ensures r.NaN? <==> total == 0
    ensures r.Num? ==> InUnit(r)
    ensures r.Num? ==> (r.value == 1.0 <==> overlap == total)
    ensures r.Num? ==> (r.value == 0.0 <==> overlap == 0)
  {
    if total == 0 then Div(0.0, 0.0)
    else
      QuotientInUnit(overlap as real, total as real);
      Div(overlap as real, total as real)
  }

  /**
   * The counters: an overlapping class or property is also counted, and
   * every counted term is seen unless its lookup failed.
   */
  ghost predicate Tallies(overlapClasses: nat, overlapProperties: nat, totalClasses: nat, totalProperties: nat,
                          seenSet: set<string>, overlapTerms: seq<string>, failures: nat)
  {
    overlapClasses <= totalClasses && overlapProperties <= totalProperties
    && totalClasses + totalProperties == |seenSet| + failures
    && overlapClasses + overlapProperties == |overlapTerms|
  }

  /**
   * The overlapping terms are distinct seen terms that the lookup defines
   * and whose namespaces have a count.
   */
  ghost predicate Overlapping(lookup: TermLookup, nameSpace: NameSpaceOf, suggestedVocabs: map<string, nat>,
                              seenSet: set<string>, overlapTerms: seq<string>)
  {
    (forall i :: 0 <= i < |overlapTerms| ==>
       overlapTerms[i] in seenSet && lookup(overlapTerms[i]) == Some(true)
       && nameSpace(overlapTerms[i]) in suggestedVocabs)
    && (forall i, j :: 0 <= i < j < |overlapTerms| ==> overlapTerms[i] != overlapTerms[j])
  }

  /**
   * The counts: every suggested vocabulary has one, only suggested and top
   * vocabularies do, and each is its namespace's number of overlapping terms.
   */
  ghost predicate Counted(nameSpace: NameSpaceOf, suggested: set<string>, topVocabs: set<string>,
                          suggestedVocabs: map<string, nat>, overlapTerms: seq<string>)
  {
    suggested <= suggestedVocabs.Keys
    && forall ns :: ns in suggestedVocabs ==>
         (ns in suggested || ns in topVocabs) && suggestedVocabs[ns] == Count(overlapTerms, InNamespace(nameSpace, ns))
  }

  /** The count compute stores for the namespace of a new overlapping term. */
  function Bumped(suggestedVocabs: map<string, nat>, ns: string): map<string, nat>
  {
    suggestedVocabs[ns := if ns in suggestedVocabs then suggestedVocabs[ns] + 1 else 1]
  }

  /** Marking one more term seen keeps the overlapping terms valid and grows the seen set by one. */
  lemma SeeOneMore(lookup: TermLookup, nameSpace: NameSpaceOf, suggestedVocabs: map<string, nat>,
                   seenSet: set<string>, overlapTerms: seq<string>, t: string)
    requires Overlapping(lookup, nameSpace, suggestedVocabs, seenSet, overlapTerms)
    requires t !in seenSet
    ensures Overlapping(lookup, nameSpace, suggestedVocabs, seenSet + {t}, overlapTerms)
    ensures |seenSet + {t}| == |seenSet| + 1
    ensures t !in overlapTerms
  {
  }

  /** A seen defined term that is not yet overlapping joins the overlapping terms. */
  lemma OverlapOneMore(lookup: TermLookup, nameSpace: NameSpaceOf, suggestedVocabs: map<string, nat>,
                       seenSet: set<string>, overlapTerms: seq<string>, t: string)
    requires Overlapping(lookup, nameSpace, suggestedVocabs, seenSet, overlapTerms)
    requires t in seenSet && t !in overlapTerms && lookup(t) == Some(true)
    ensures Overlapping(lookup, nameSpace, Bumped(suggestedVocabs, nameSpace(t)), seenSet, overlapTerms + [t])
  {
    var vocabs := Bumped(suggestedVocabs, nameSpace(t));
    var terms := overlapTerms + [t];
    forall i | 0 <= i < |terms|
      ensures terms[i] in seenSet && lookup(terms[i]) == Some(true) && nameSpace(terms[i]) in vocabs
    {
      if i < |overlapTerms| {
        assert terms[i] == overlapTerms[i];
      }
    }
    forall i, j | 0 <= i < j < |terms|
      ensures terms[i] != terms[j]
    {
      if j < |overlapTerms| {
        assert terms[i] == overlapTerms[i] && terms[j] == overlapTerms[j];
      } else {
        assert terms[i] == overlapTerms[i] && terms[j] == t;
      }
    }
  }

  /**
   * A new overlapping term of a suggested or top vocabulary adds one to its
   * namespace's count and leaves the others alone.
   */
  lemma CountOneMore(nameSpace: NameSpaceOf, suggested: set<string>, topVocabs: set<string>,
                     suggestedVocabs: map<string, nat>, overlapTerms: seq<string>, t: string)
    requires Counted(nameSpace, suggested, topVocabs, suggestedVocabs, overlapTerms)
    requires forall i :: 0 <= i < |overlapTerms| ==> nameSpace(overlapTerms[i]) in suggestedVocabs
    requires nameSpace(t) in suggestedVocabs || nameSpace(t) in topVocabs
    ensures Counted(nameSpace, suggested, topVocabs, Bumped(suggestedVocabs, nameSpace(t)), overlapTerms + [t])
  {
    var ns := nameSpace(t);
    var vocabs := Bumped(suggestedVocabs, ns);
    forall n | n in vocabs
      ensures (n in suggested || n in topVocabs) && vocabs[n] == Count(overlapTerms + [t], InNamespace(nameSpace, n))
    {
      CountAppend(overlapTerms, t, InNamespace(nameSpace, n));
      if n == ns && ns !in suggestedVocabs {
        CountZero(overlapTerms, InNamespace(nameSpace, ns));
      }
    }
  }

  class ReuseExistingTerms {
    const lookup: TermLookup
    const nameSpace: NameSpaceOf
    /** The vocabularies the configuration suggests; each starts at 0. */
    const suggested: set<string>
    /** TOP_VOCABS, held as a value of the instance. */
    const topVocabs: set<string>
    /** Per namespace, the number of defined terms it contributed. */
    var suggestedVocabs: map<string, nat>
    /** The terms already counted (an LRU cache in the source, unbounded here). */
    var seenSet: set<string>
    var overlapClasses: nat
    var overlapProperties: nat
    var totalClasses: nat
    var totalProperties: nat
    var tripleCount: nat
    /** The overlapping terms in the order they were found. */
    ghost var overlapTerms: seq<string>
    /** The terms counted whose lookup then failed, and so never became seen. */
    ghost var failures: nat

    ghost predicate Valid()
      reads `seenSet, `suggestedVocabs, `overlapClasses, `overlapProperties, `totalClasses, `totalProperties, `overlapTerms, `failures
    {
      Core() && CompleteValid()
    }

    /** The invariant apart from completeness of the overlapping terms. */
    ghost predicate Core()
      reads `seenSet, `suggestedVocabs, `overlapClasses, `overlapProperties, `totalClasses, `totalProperties, `overlapTerms, `failures
    {
      TalliesValid() && OverlapValid() && CountsValid()
    }

    ghost predicate TalliesValid()
      reads `overlapClasses, `overlapProperties, `totalClasses, `totalProperties, `seenSet, `overlapTerms, `failures
    {
      Tallies(overlapClasses, overlapProperties, totalClasses, totalProperties, seenSet, overlapTerms, failures)
    }

    ghost predicate OverlapValid()
      reads `suggestedVocabs, `seenSet, `overlapTerms
    {
      Overlapping(lookup, nameSpace, suggestedVocabs, seenSet, overlapTerms)
    }

    ghost predicate CountsValid()
      reads `suggestedVocabs, `overlapTerms
    {
      Counted(nameSpace, suggested, topVocabs, suggestedVocabs, overlapTerms)
    }

    /** Every seen term that overlaps is one of the overlapping terms. */
    ghost predicate CompleteValid()
      reads `seenSet, `overlapTerms
    {
      forall t :: t in seenSet && Hits(t) ==> t in overlapTerms
    }

    /** Completeness for every seen term except x. */
    ghost predicate CompleteExcept(x: string)
      reads `seenSet, `overlapTerms
    {
      forall t :: t in seenSet && Hits(t) && t != x ==> t in overlapTerms
    }

    /** Whether the term's namespace is a suggested or a top vocabulary. */
    predicate Tracked(t: string)
    {
      nameSpace(t) in suggested || nameSpace(t) in topVocabs
    }

    /** Whether the term belongs to a tracked vocabulary that defines it. */
    predicate Hits(t: string)
    {
      Tracked(t) && lookup(t) == Some(true)
    }

    /** Whether checking the term, with these terms seen, makes it overlap. */
    predicate Overlaps(t: string, seen: set<string>)
    {
      t !in seen && Hits(t)
    }

    /** Whether checking the term, with these terms seen, fails in the lookup. */
    predicate Fails(t: string, seen: set<string>)
    {
      t !in seen && Tracked(t) && lookup(t).None?
    }

    /** The overlapping term that checking t adds, if any. */
    function OverlapIf(t: string, seen: set<string>): seq<string>
    {
      if Overlaps(t, seen) then [t] else []
    }

    /** The counts once t is checked. */
    function BumpedIf(vocabs: map<string, nat>, t: string, seen: set<string>): map<string, nat>
    {
      if Overlaps(t, seen) then Bumped(vocabs, nameSpace(t)) else vocabs
    }

    /**
     * The counters once t is checked: an unseen term is counted; a failed
     * lookup leaves it unseen, otherwise it is marked seen and, when it
     * overlaps, recorded with its namespace's count bumped.
     */
    function Checked(s: Tally, t: string, isClass: bool): Tally
    {
      if t in s.seen then s
      else if Fails(t, s.seen) then CountTerm(s, isClass).(failures := s.failures + 1)
      else
        var seen := CountTerm(s, isClass).(seen := s.seen + {t});
        if Overlaps(t, s.seen) then OverlapTerm(seen, t, isClass) else seen
    }

    /** One more overlapping term, and its namespace's count bumped. */
    function OverlapTerm(s: Tally, t: string, isClass: bool): Tally
    {
      var overlapped := if isClass then s.(overlapClasses := s.overlapClasses + 1)
                        else s.(overlapProperties := s.overlapProperties + 1);
      overlapped.(overlapTerms := s.overlapTerms + [t], vocabs := Bumped(s.vocabs, nameSpace(t)))
    }

    /** The counters once compute has checked the class, if any, and then the predicate of the quad. */
    function Computed(s: Tally, q: Quad): Tally
    {
      if LiteralClass(q) then s
      else if ClassFails(q, s.seen) then Checked(s, q.obj.uri, true)
      else Checked(if ChecksClass(q) then Checked(s, q.obj.uri, true) else s, q.pred, false)
    }

    /** What compute throws on the quad, given the terms seen before it. */
    function ComputeFault(q: Quad, seen: set<string>): Option<Fault>
    {
      if LiteralClass(q) then Some(UnsupportedOperation)
      else if ClassFails(q, seen) || Fails(q.pred, AfterClass(q, seen)) then Some(MetricProcessing)
      else None
    }

    /** Whether compute fails on the class of the quad. */
    predicate ClassFails(q: Quad, seen: set<string>)
    {
      ChecksClass(q) && Fails(q.obj.uri, seen)
    }

    /** Whether compute goes on to check the predicate of the quad. */
    predicate ReachesPredicate(q: Quad, seen: set<string>)
    {
      !LiteralClass(q) && !ClassFails(q, seen)
    }

    /** The terms seen once compute has checked the class of the quad. */
    function AfterClass(q: Quad, seen: set<string>): set<string>
    {
      if ChecksClass(q) then seen + {q.obj.uri} else seen
    }

    /**
     * Checking a term: a seen term changes nothing; an unseen one is one
     * more class or property; a failed lookup is one more failure and
     * leaves the term unseen; otherwise the term is seen, and it is one more
     * overlapping term, with its namespace's count bumped, exactly when it
     * overlaps.
     */
    lemma CheckedEffects(s: Tally, t: string, isClass: bool)
      ensures var r := Checked(s, t, isClass);
        && r.failures == s.failures + (if Fails(t, s.seen) then 1 else 0)
        && r.seen == (if Fails(t, s.seen) then s.seen else s.seen + {t})
        && r.totalClasses == s.totalClasses + (if isClass && t !in s.seen then 1 else 0)
        && r.totalProperties == s.totalProperties + (if !isClass && t !in s.seen then 1 else 0)
        && r.overlapClasses == s.overlapClasses + (if isClass then |OverlapIf(t, s.seen)| else 0)
        && r.overlapProperties == s.overlapProperties + (if isClass then 0 else |OverlapIf(t, s.seen)|)
        && r.overlapTerms == s.overlapTerms + OverlapIf(t, s.seen)
        && r.vocabs == BumpedIf(s.vocabs, t, s.seen)
    {
    }

    /**
     * Compute on a quad: the class of an rdf:type quad is checked, then,
     * unless a literal class or the class's lookup failed, the predicate
     * against the terms seen after the class.
     */
    lemma ComputedEffects(s: Tally, q: Quad)
      ensures var r := Computed(s, q);
        var reaches := ReachesPredicate(q, s.seen);
        var mid := AfterClass(q, s.seen);
        && r.failures == s.failures + (if ComputeFault(q, s.seen) == Some(MetricProcessing) then 1 else 0)
        && r.seen == (if reaches then mid else s.seen) + (if reaches && !Fails(q.pred, mid) then {q.pred} else {})
        && r.totalClasses == s.totalClasses + (if ChecksClass(q) && q.obj.uri !in s.seen then 1 else 0)
        && r.totalProperties == s.totalProperties + (if reaches && q.pred !in mid then 1 else 0)
        && r.overlapClasses == s.overlapClasses + (if ChecksClass(q) then |OverlapIf(q.obj.uri, s.seen)| else 0)
        && r.overlapProperties == s.overlapProperties + (if reaches then |OverlapIf(q.pred, mid)| else 0)
        && r.overlapTerms == s.overlapTerms + (if ChecksClass(q) then OverlapIf(q.obj.uri, s.seen) else [])
           + (if reaches then OverlapIf(q.pred, mid) else [])
        && var classVocabs := if ChecksClass(q) then BumpedIf(s.vocabs, q.obj.uri, s.seen) else s.vocabs;
           r.vocabs == if reaches then BumpedIf(classVocabs, q.pred, mid) else classVocabs
    {
      if ChecksClass(q) {
        CheckedEffects(s, q.obj.uri, true);
        if !ClassFails(q, s.seen) {
          CheckedEffects(Checked(s, q.obj.uri, true), q.pred, false);
        }
      } else if !LiteralClass(q) {
        CheckedEffects(s, q.pred, false);
      }
    }

    /** The counters compute updates, read off the instance. */
    ghost function Counters(): Tally
      reads `seenSet, `suggestedVocabs, `overlapClasses, `overlapProperties, `totalClasses, `totalProperties, `overlapTerms, `failures
    {
      Tally(seenSet, suggestedVocabs, overlapClasses, overlapProperties, totalClasses, totalProperties,
            overlapTerms, failures)
    }

    constructor(lookup: TermLookup, nameSpace: NameSpaceOf, suggested: set<string>)
      ensures Valid()
      ensures this.lookup == lookup && this.nameSpace == nameSpace && this.suggested == suggested
      ensures topVocabs == TOP_VOCABS
      ensures suggestedVocabs == map ns | ns in suggested :: 0
      ensures seenSet == {} && overlapTerms == [] && failures == 0
      ensures overlapClasses == 0 && overlapProperties == 0 && totalClasses == 0 && totalProperties == 0
      ensures tripleCount == 0
    {
      this.lookup := lookup;
      this.nameSpace := nameSpace;
      this.suggested := suggested;
      topVocabs := TOP_VOCABS;
      suggestedVocabs := map ns | ns in suggested :: 0;
      seenSet := {};
      overlapClasses := 0;
      overlapProperties := 0;
      totalClasses := 0;
      totalProperties := 0;
      tripleCount := 0;
      overlapTerms := [];
      failures := 0;
    }

    /**
     * compute: the class of an rdf:type quad (unless it is a blank node)
     * and then the predicate are each checked as a term; a literal class
     * has no URI to read, and a failed lookup of the class stops before
     * the predicate.
     */
    method Compute(q: Quad) returns (fault: Option<Fault>)
      requires Valid()
      modifies this
      ensures Valid()
      ensures tripleCount == old(tripleCount) + 1
      ensures Counters() == Computed(old(Counters()), q)
      ensures fault == ComputeFault(q, old(seenSet))
    {
      tripleCount := tripleCount + 1;
      fault := None;
      if q.pred == RDF_TYPE && !q.obj.Blank? {
        if q.obj.Literal? {
          fault := Some(UnsupportedOperation);
        } else {
          fault := CheckTerm(q.obj.uri, true);
        }
      }
      assert Counters() == if ChecksClass(q) then Checked(old(Counters()), q.obj.uri, true) else old(Counters());
      assert seenSet == if ChecksClass(q) && !ClassFails(q, old(seenSet)) then AfterClass(q, old(seenSet)) else old(seenSet);
      if fault.None? {
        fault := CheckTerm(q.pred, false);
      }
    }

    /**
     * The check compute makes of a class and of a predicate: an unseen term
     * is counted, and when its namespace is suggested or a top vocabulary
     * and its lookup says it is defined, it overlaps and its namespace's
     * count grows; a failed lookup stops before the term is marked seen.
     */
    method CheckTerm(t: string, isClass: bool) returns (fault: Option<Fault>)
      requires Valid()
      modifies `seenSet, `suggestedVocabs, `overlapClasses, `overlapProperties,
        `totalClasses, `totalProperties, `overlapTerms, `failures
      ensures Valid()
      ensures Counters() == Checked(old(Counters()), t, isClass)
      ensures fault == if Fails(t, old(seenSet)) then Some(MetricProcessing) else None
    {
      fault := None;
      if t !in seenSet {
        var ns := nameSpace(t);
        if ns in suggestedVocabs || ns in topVocabs {
          var defined := lookup(t);
          if defined.None? {
            Fail(isClass);
            return Some(MetricProcessing);
          }
          See(t, isClass);
          if defined.value {
            Overlap(t, isClass);
          }
        } else {
          See(t, isClass);
        }
      }
    }

    /** A counted term whose lookup failed: counted, never seen. */
    method Fail(isClass: bool)
      requires Valid()
      modifies `totalClasses, `totalProperties, `failures
      ensures Valid()
      ensures Counters() == CountTerm(old(Counters()), isClass).(failures := old(failures) + 1)
    {
      if isClass {
        totalClasses := totalClasses + 1;
      } else {
        totalProperties := totalProperties + 1;
      }
      failures := failures + 1;
    }

    /** An unseen term is counted and marked seen; unless it overlaps, that is all. */
    method See(t: string, isClass: bool)
      requires Valid() && t !in seenSet
      modifies `totalClasses, `totalProperties, `seenSet
      ensures Core() && CompleteExcept(t)
      ensures !Hits(t) ==> Valid()
      ensures Counters() == CountTerm(old(Counters()), isClass).(seen := old(seenSet) + {t})
      ensures t !in overlapTerms
    {
      SeeOneMore(lookup, nameSpace, suggestedVocabs, seenSet, overlapTerms, t);
      if isClass {
        totalClasses := totalClasses + 1;
      } else {
        totalProperties := totalProperties + 1;
      }
      seenSet := seenSet + {t};
    }

    /** A counted defined term of a suggested or top vocabulary overlaps and bumps its namespace. */
    method Overlap(t: string, isClass: bool)
      requires Core() && CompleteExcept(t)
      requires t in seenSet && t !in overlapTerms && Hits(t)
      requires isClass ==> overlapClasses < totalClasses
      requires !isClass ==> overlapProperties < totalProperties
      modifies `overlapClasses, `overlapProperties, `suggestedVocabs, `overlapTerms
      ensures Valid()
      ensures Counters() == OverlapTerm(old(Counters()), t, isClass)
    {
      OverlapOneMore(lookup, nameSpace, suggestedVocabs, seenSet, overlapTerms, t);
      CountOneMore(nameSpace, suggested, topVocabs, suggestedVocabs, overlapTerms, t);
      if isClass {
        overlapClasses := overlapClasses + 1;
      } else {
        overlapProperties := overlapProperties + 1;
      }
      suggestedVocabs := Bumped(suggestedVocabs, nameSpace(t));
      overlapTerms := overlapTerms + [t];
    }

    /**
     * metricValue: NaN before any term was counted, else the overlapping
     * share, 1.0 exactly when every counted term overlaps.
     */
    function MetricValue(): (r: Double)
      reads this
      requires Valid()
      ensures r.NaN? <==> totalClasses + totalProperties == 0
      ensures r.Num? ==> InUnit(r)
      ensures r.Num? ==> (r.value == 1.0 <==> overlapClasses + overlapProperties == totalClasses + totalProperties)
    {
      OverlapValue(overlapClasses + overlapProperties, totalClasses + totalProperties)
    }

    /**
     * The vocabularies metricValue reports as unused when reports are
     * required: those with a count of 0, which no overlapping term belongs to.
     */
    function UnusedVocabularies(): (r: set<string>)
      reads this
      requires Valid()
      ensures forall ns :: ns in r <==> (ns in suggestedVocabs
        && forall i :: 0 <= i < |overlapTerms| ==> nameSpace(overlapTerms[i]) != ns)
    {
      UnusedAreUntouched();
      set ns | ns in suggestedVocabs && suggestedVocabs[ns] == 0
    }

    lemma UnusedAreUntouched()
      requires Valid()
      ensures forall ns :: ns in suggestedVocabs ==> (suggestedVocabs[ns] == 0
        <==> forall i :: 0 <= i < |overlapTerms| ==> nameSpace(overlapTerms[i]) != ns)
    {
      forall ns | ns in suggestedVocabs
        ensures suggestedVocabs[ns] == 0 <==> forall i :: 0 <= i < |overlapTerms| ==> nameSpace(overlapTerms[i]) != ns
      {
        CountZero(overlapTerms, InNamespace(nameSpace, ns));
      }
    }
  }
}
