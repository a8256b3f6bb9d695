/**
 * BlankNodeUsage: the share of distinct resources in non-rdf:type quads
 * that are dereferenceable URIs rather than blank nodes.
 */
module BlankNodeUsage {
  import opened Rdf

  /** The blank-node labels a quad contributes: a blank subject or object. */
  function BlanksOf(q: Quad): set<string>
  {
    if q.pred == RDF_TYPE then {}
    else (if q.subj.Blank? then {q.subj.id} else {}) + (if q.obj.Blank? then {q.obj.id} else {})
  }

  /** The URIs a quad contributes: a URI subject or object (literals are ignored). */
  function UrisOf(q: Quad): set<string>
  {
    if q.pred == RDF_TYPE then {}
    else (if q.subj.Uri? then {q.subj.uri} else {}) + (if q.obj.Uri? then {q.obj.uri} else {})
  }

  ghost function BlanksOfStream(s: seq<Quad>): set<string>
  {
    if |s| == 0 then {} else BlanksOfStream(s[..|s| - 1]) + BlanksOf(s[|s| - 1])
  }

  ghost function UrisOfStream(s: seq<Quad>): set<string>
  {
    if |s| == 0 then {} else UrisOfStream(s[..|s| - 1]) + UrisOf(s[|s| - 1])
  }

  lemma StreamAppend(s: seq<Quad>, q: Quad)
    ensures BlanksOfStream(s + [q]) == BlanksOfStream(s) + BlanksOf(q)
    ensures UrisOfStream(s + [q]) == UrisOfStream(s) + UrisOf(q)
  {
    assert (s + [q])[..|s|] == s;
  }

  /** Each quad's contribution is part of the stream's. */
  lemma {:induction false} ContributionsIncluded(s: seq<Quad>, i: int)
    requires 0 <= i < |s|
    ensures BlanksOf(s[i]) <= BlanksOfStream(s) && UrisOf(s[i]) <= UrisOfStream(s)
  {
    if i < |s| - 1 {
      ContributionsIncluded(s[..|s| - 1], i);
    }
  }

  /** Consuming a quad that was consumed before changes neither set. */
  lemma RepeatedQuadChangesNothing(s: seq<Quad>, q: Quad)
    requires q in s
    ensures BlanksOfStream(s + [q]) == BlanksOfStream(s)
    ensures UrisOfStream(s + [q]) == UrisOfStream(s)
  {
    var i :| 0 <= i < |s| && s[i] == q;
    ContributionsIncluded(s, i);
    assert (s + [q])[..|s|] == s;
  }

  /** Both sets are empty exactly when every quad is an rdf:type quad. */
  lemma {:induction false} EmptyIffOnlyTypeQuads(s: seq<Quad>)
    ensures |UrisOfStream(s)| + |BlanksOfStream(s)| == 0
      <==> forall i :: 0 <= i < |s| ==> s[i].pred == RDF_TYPE
  {
    if |s| > 0 {
      EmptyIffOnlyTypeQuads(s[..|s| - 1]);
      var q := s[|s| - 1];
      assert forall i :: 0 <= i < |s| - 1 ==> s[..|s| - 1][i] == s[i];
      if q.pred != RDF_TYPE {
        if q.subj.Blank? {
          assert q.subj.id in BlanksOfStream(s);
        } else {
          assert q.subj.uri in UrisOfStream(s);
        }
      }
    }
  }

  /** dlc / (dlc + bn) as a Java double. */
  function Share(dlc: nat, bn: nat): (r: Double)
    ensures r.NaN? <==> dlc + bn == 0
    ensures r.Num? ==> InUnit(r) && r.value * (dlc + bn) as real == dlc as real
    ensures r == Num(1.0) <==> bn == 0 && dlc > 0
  {
    if dlc + bn == 0 then Div(0.0, 0.0)
    else
      QuotientInUnit(dlc as real, (dlc + bn) as real);
      Div(dlc as real, (dlc + bn) as real)
  }

  /** The test's dump: 573 dereferenceable URIs and 2 blank nodes give 573/575. */
  lemma TestExpectation()
    ensures Share(573, 2).Num?
    ensures 0.99652173913 - 0.00001 <= Share(573, 2).value <= 0.99652173913 + 0.00001
  {
  }

  class BlankNodeUsage {
    var uniqueDLC: set<string>
    var uniqueBN: set<string>
    var tripleCount: nat
    /** The quads consumed so far. */
    ghost var stream: seq<Quad>

    ghost predicate Valid()
      reads this
    {
      tripleCount == |stream| && uniqueDLC == UrisOfStream(stream) && uniqueBN == BlanksOfStream(stream)
    }

    constructor()
      ensures Valid() && stream == []
      ensures uniqueDLC == {} && uniqueBN == {} && tripleCount == 0
    {
      uniqueDLC := {};
      uniqueBN := {};
      tripleCount := 0;
      stream := [];
    }

    /**
     * compute: skip rdf:type quads; otherwise record the subject and a
     * non-literal object in the blank-node set or the URI set.
     */
    method Compute(q: Quad)
      requires Valid()
      modifies `tripleCount, `uniqueDLC, `uniqueBN, `stream
      ensures Valid() && stream == old(stream) + [q]
      ensures tripleCount == old(tripleCount) + 1
      ensures uniqueDLC == old(uniqueDLC) + UrisOf(q) && uniqueBN == old(uniqueBN) + BlanksOf(q)
    {
      StreamAppend(stream, q);
      stream := stream + [q];
      tripleCount := tripleCount + 1;
      if q.pred != RDF_TYPE {
        if q.subj.Blank? {
          if q.subj.id !in uniqueBN {
            uniqueBN := uniqueBN + {q.subj.id};
          }
        } else {
          uniqueDLC := uniqueDLC + {q.subj.uri};
        }
        if !q.obj.Literal? {
          if q.obj.Blank? {
            if q.obj.id !in uniqueBN {
              uniqueBN := uniqueBN + {q.obj.id};
            }
          } else {
            uniqueDLC := uniqueDLC + {q.obj.uri};
          }
        }
      }
    }

    /**
     * metricValue: |DLC| / (|DLC| + |BN|), which is 1.0 exactly when no
     * blank node was seen (and some URI was).
     */
    function MetricValue(): (r: Double)
      reads this
      ensures r.NaN? <==> |uniqueDLC| + |uniqueBN| == 0
      ensures r.Num? ==> InUnit(r) && r.value * (|uniqueDLC| + |uniqueBN|) as real == |uniqueDLC| as real
      ensures r == Num(1.0) <==> |uniqueBN| == 0 && |uniqueDLC| > 0
    {
      Share(|uniqueDLC|, |uniqueBN|)
    }

    /** The value is NaN exactly when every quad consumed was an rdf:type quad. */
    lemma NaNIffOnlyTypeQuads()
      requires Valid()
      ensures MetricValue().NaN? <==> forall i :: 0 <= i < |stream| ==> stream[i].pred == RDF_TYPE
    {
      EmptyIffOnlyTypeQuads(stream);
    }
  }
}
