/**
 * NoProlixRDF: the share of quads that do not use the RDF prolix features
 * (reification, containers and collections).
 */
module NoProlixRDF {
  import opened Rdf
  import opened Streams
  import opened JavaStrings

  // ---------------------------------------------------------------
  // Which quads are prolix
  // ---------------------------------------------------------------

  /** rdf:type objects that declare a reified statement, a container or a collection. */
  predicate IsProlixType(o: Node)
  {
    HasUri(o, RDF_STATEMENT)
    || HasUri(o, RDFS_CONTAINER) || HasUri(o, RDFS_CONTAINER_MEMBERSHIP_PROPERTY)
    || HasUri(o, RDF_ALT) || HasUri(o, RDF_BAG) || HasUri(o, RDF_LIST) || HasUri(o, RDF_SEQ)
  }

  predicate IsReificationPredicate(p: string)
  {
    p == RDF_SUBJECT || p == RDF_PREDICATE || p == RDF_OBJECT
  }

  predicate IsCollectionPredicate(p: string)
  {
    p == RDF_FIRST || p == RDF_REST || p == RDF_NIL
  }

  predicate IsAsciiDigit(c: char)
  {
    '0' <= c <= '9'
  }

  /**
   * The regular expression RDF.getURI() + "_[0-9]+" under String.matches.
   * The namespace is not quoted, so each '.' in it is a wildcard matching
   * any character but a line terminator.
   */
  predicate IsContainerMembershipUri(u: string)
  {
    |u| > |RDF_NS| + 1
    && (forall i :: 0 <= i < |RDF_NS| ==>
          if RDF_NS[i] == '.' then !IsLineTerminator(u[i]) else u[i] == RDF_NS[i])
    && u[|RDF_NS|] == '_'
    && (forall i :: |RDF_NS| < i < |u| ==> IsAsciiDigit(u[i]))
  }

  predicate IsProlixPredicate(p: string)
  {
    IsReificationPredicate(p) || p == RDFS_MEMBER || IsCollectionPredicate(p) || IsContainerMembershipUri(p)
  }

  /** A quad compute counts towards totalRCC. */
  predicate IsProlix(q: Quad)
  {
    if q.pred == RDF_TYPE then IsProlixType(q.obj) else IsProlixPredicate(q.pred)
  }

  /** No quad of the stream is prolix. */
  predicate NoneProlix(s: seq<Quad>)
  {
    forall i :: 0 <= i < |s| ==> !IsProlix(s[i])
  }

  /** How many of the four independent tests of isRCCpredicate fire for p. */
  function PredicateHits(p: string): nat
  {
    (if IsReificationPredicate(p) then 1 else 0)
    + (if p == RDFS_MEMBER then 1 else 0)
    + (if IsCollectionPredicate(p) then 1 else 0)
    + (if IsContainerMembershipUri(p) then 1 else 0)
  }

  // ---------------------------------------------------------------
  // Properties of the tests
  // ---------------------------------------------------------------

  /** Every rdf:_n with n a decimal numeral is a container membership property. */
  lemma NumberedMemberMatches(digits: string)
    requires |digits| > 0 && forall i :: 0 <= i < |digits| ==> IsAsciiDigit(digits[i])
    ensures IsContainerMembershipUri(RDF_NS + "_" + digits)
  {
    var u := RDF_NS + "_" + digits;
    assert forall i :: |RDF_NS| < i < |u| ==> u[i] == digits[i - |RDF_NS| - 1];
  }

  /**
   * The unquoted dots also let URIs outside the RDF namespace through: here
   * the dot after "www" is replaced by any other character.
   */
  lemma DotsMatchAnyCharacter(c: char)
    requires !IsLineTerminator(c)
    ensures IsContainerMembershipUri(RDF_NS[..10] + [c] + RDF_NS[11..] + "_1")
  {
    var u := RDF_NS[..10] + [c] + RDF_NS[11..] + "_1";
    assert RDF_NS[10] == '.';
    assert forall i :: 0 <= i < |RDF_NS| && i != 10 ==> u[i] == RDF_NS[i];
  }

  /** A URI that differs from the namespace at a non-wildcard position is not rdf:_n. */
  lemma NotContainerMembershipAt(u: string, k: nat)
    requires k < |RDF_NS| && k < |u| && RDF_NS[k] != '.' && u[k] != RDF_NS[k]
    ensures !IsContainerMembershipUri(u)
  {
  }

  /** A URI whose character after the namespace is not '_' is not rdf:_n. */
  lemma NotContainerMembershipAfterNamespace(u: string)
    requires |RDF_NS| < |u| && u[|RDF_NS|] != '_'
    ensures !IsContainerMembershipUri(u)
  {
  }

  /**
   * The four tests of isRCCpredicate are mutually exclusive, so a quad adds
   * at most one to totalRCC.
   */
  lemma PredicateHitsAtMostOne(p: string)
    ensures PredicateHits(p) == if IsProlixPredicate(p) then 1 else 0
  {
    assert |RDF_NS| == 43;
    if IsReificationPredicate(p) || IsCollectionPredicate(p) {
      assert p[43] != '_';
      NotContainerMembershipAfterNamespace(p);
    } else if p == RDFS_MEMBER {
      assert RDF_NS[18] == '1' && p[18] == '2';
      NotContainerMembershipAt(p, 18);
    }
  }

  // ---------------------------------------------------------------
  // The metric
  // ---------------------------------------------------------------

  /** The test's dump: 29 prolix quads among 1475 give 1 - 29/1475. */
  lemma TestExpectation()
    ensures 0.98033898305 - 0.00001 <= OneMinusShare(29, 1475) <= 0.98033898305 + 0.00001
  {
  }

  class NoProlixRDF {
    var totalTriples: nat
    var totalRCC: nat
    /** The quads consumed so far. */
    ghost var stream: seq<Quad>

    ghost predicate Valid()
      reads this
    {
      totalTriples == |stream| && totalRCC == Count(stream, IsProlix)
    }

    constructor()
      ensures Valid() && stream == []
      ensures totalTriples == 0 && totalRCC == 0
    {
      totalTriples := 0;
      totalRCC := 0;
      stream := [];
    }

    /** isRCCpredicate: four independent tests, each adding one on a hit. */
    method IsRCCPredicate(p: string)
      modifies `totalRCC
      ensures totalRCC == old(totalRCC) + PredicateHits(p)
    {
      if p == RDF_SUBJECT || p == RDF_PREDICATE || p == RDF_OBJECT {
        totalRCC := totalRCC + 1;
      }
      if p == RDFS_MEMBER {
        totalRCC := totalRCC + 1;
      }
      if p == RDF_FIRST || p == RDF_REST || p == RDF_NIL {
        totalRCC := totalRCC + 1;
      }
      if IsContainerMembershipUri(p) {
        totalRCC := totalRCC + 1;
      }
    }

    /**
     * compute: an rdf:type quad is prolix when its object is rdf:Statement,
     * a container class or a collection class; any other quad is judged by
     * its predicate.
     */
    method Compute(q: Quad)
      requires Valid()
      modifies this
      ensures Valid() && stream == old(stream) + [q]
      ensures totalTriples == old(totalTriples) + 1
      ensures totalRCC == old(totalRCC) + (if IsProlix(q) then 1 else 0)
    {
      totalTriples := totalTriples + 1;
      if q.pred == RDF_TYPE {
        if HasUri(q.obj, RDF_STATEMENT) {
          totalRCC := totalRCC + 1;
        } else if HasUri(q.obj, RDFS_CONTAINER) || HasUri(q.obj, RDFS_CONTAINER_MEMBERSHIP_PROPERTY) {
          totalRCC := totalRCC + 1;
        } else if HasUri(q.obj, RDF_ALT) || HasUri(q.obj, RDF_BAG) || HasUri(q.obj, RDF_LIST) || HasUri(q.obj, RDF_SEQ) {
          totalRCC := totalRCC + 1;
        }
      } else {
        PredicateHitsAtMostOne(q.pred);
        IsRCCPredicate(q.pred);
      }
      CountAppend(stream, q, IsProlix);
      stream := stream + [q];
    }

    /**
     * metricValue: 1 - RCC / triples, and 1.0 when nothing prolix was seen.
     */
    function MetricValue(): (r: real)
      reads this
      requires Valid()
      ensures 0.0 <= r <= 1.0
      ensures r == 1.0 <==> NoneProlix(stream)
      ensures r == 0.0 <==> totalTriples > 0 && totalRCC == totalTriples
      ensures totalRCC > 0 ==> r * totalTriples as real == (totalTriples - totalRCC) as real
    {
      CountZero(stream, IsProlix);
      OneMinusShare(totalRCC, totalTriples)
    }
  }
}
