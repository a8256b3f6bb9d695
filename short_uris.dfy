/**
 * ShortURIs: the share of distinct dereferenceable URIs (subjects and
 * objects of non-rdf:type quads) that are short, i.e. at most 80 characters
 * and without a query part.
 */
module ShortURIs {
  import opened Rdf
  import opened JavaStrings
  import Utils

  const MAX_SHORT_LENGTH := 80

  /** possibleDereferenceableURI: starts with "http" or "https". */
  function PossibleDereferenceableURI(uri: string): (r: bool)
    ensures r <==> StartsWith(uri, "http")
  {
    Utils.HttpsIsHttp(uri);
    StartsWith(uri, "http") || StartsWith(uri, "https")
  }

  /** A URI that the classification counts as short. */
  predicate IsShortURI(uri: string)
  {
    '?' !in uri && |uri| <= MAX_SHORT_LENGTH
  }

  datatype UriProblem = ParametarisedURI(uri: string) | LongURI(uri: string)

  /** The URIs a quad exposes to the metric: none for rdf:type quads, else its URI subject and object. */
  function UrisOf(q: Quad): set<string>
  {
    if q.pred == RDF_TYPE then {} else NodeUris(q.subj) + NodeUris(q.obj)
  }

  /** The URI of a URI node. */
  function NodeUris(n: Node): set<string>
  {
    if n.Uri? then {n.uri} else {}
  }

  ghost function UrisOfStream(s: seq<Quad>): set<string>
  {
    if |s| == 0 then {} else UrisOfStream(s[..|s| - 1]) + UrisOf(s[|s| - 1])
  }

  lemma AlreadySeen(seen: set<string>, uri: string)
    requires uri in seen
    ensures seen + {uri} == seen
  {
  }

  lemma UrisOfStreamAppend(s: seq<Quad>, q: Quad)
    ensures UrisOfStream(s + [q]) == UrisOfStream(s) + UrisOf(q)
  {
    assert (s + [q])[..|s|] == s;
  }

  /** The dereferenceable URIs of a set of seen URIs. */
  function Dereferenceable(seen: set<string>): set<string>
  {
    set u | u in seen && PossibleDereferenceableURI(u)
  }

  /** The short dereferenceable URIs of a set of seen URIs. */
  function ShortDereferenceable(seen: set<string>): set<string>
  {
    set u | u in seen && PossibleDereferenceableURI(u) && IsShortURI(u)
  }

  lemma FilterGrows(seen: set<string>, uri: string)
    requires uri !in seen
    ensures |Dereferenceable(seen + {uri})|
      == |Dereferenceable(seen)| + (if PossibleDereferenceableURI(uri) then 1 else 0)
    ensures |ShortDereferenceable(seen + {uri})|
      == |ShortDereferenceable(seen)| + (if PossibleDereferenceableURI(uri) && IsShortURI(uri) then 1 else 0)
  {
    if PossibleDereferenceableURI(uri) {
      assert Dereferenceable(seen + {uri}) == Dereferenceable(seen) + {uri};
    } else {
      assert Dereferenceable(seen + {uri}) == Dereferenceable(seen);
    }
    if PossibleDereferenceableURI(uri) && IsShortURI(uri) {
      assert ShortDereferenceable(seen + {uri}) == ShortDereferenceable(seen) + {uri};
    } else {
      assert ShortDereferenceable(seen + {uri}) == ShortDereferenceable(seen);
    }
  }

  /**
   * The problem compute reports when it classifies an unseen URI: one for a
   * dereferenceable URI that is not short, when reports are required,
   * parametrised when it has a '?' and long otherwise.
   */
  function ProblemOf(report: bool, uri: string): (r: seq<UriProblem>)
    ensures |r| <= 1
    ensures r != [] <==> report && PossibleDereferenceableURI(uri) && !IsShortURI(uri)
    ensures r != [] ==> r[0].uri == uri && (r[0].ParametarisedURI? <==> '?' in uri)
    ensures r != [] && r[0].LongURI? ==> |uri| > MAX_SHORT_LENGTH
  {
    if !report || !PossibleDereferenceableURI(uri) || IsShortURI(uri) then []
    else if '?' in uri then [ParametarisedURI(uri)] else [LongURI(uri)]
  }

  /** The problems a node adds when it is a URI not seen before. */
  function NodeProblems(report: bool, seen: set<string>, n: Node): seq<UriProblem>
  {
    if n.Uri? && n.uri !in seen then ProblemOf(report, n.uri) else []
  }

  /** The problems one quad adds: its unseen URI subject, then its URI object unless seen by then. */
  function QuadProblems(report: bool, seen: set<string>, q: Quad): seq<UriProblem>
  {
    if q.pred == RDF_TYPE then []
    else NodeProblems(report, seen, q.subj) + NodeProblems(report, seen + NodeUris(q.subj), q.obj)
  }

  /** The problems reported over a stream, in the order compute reports them. */
  ghost function ProblemsOfStream(report: bool, s: seq<Quad>): seq<UriProblem>
  {
    if |s| == 0 then []
    else ProblemsOfStream(report, s[..|s| - 1]) + QuadProblems(report, UrisOfStream(s[..|s| - 1]), s[|s| - 1])
  }

  lemma ProblemsOfStreamAppend(report: bool, s: seq<Quad>, q: Quad)
    ensures ProblemsOfStream(report, s + [q]) == ProblemsOfStream(report, s) + QuadProblems(report, UrisOfStream(s), q)
  {
    assert (s + [q])[..|s|] == s;
  }

  /** The URIs a list of problems names. */
  function ProblemUris(ps: seq<UriProblem>): set<string>
  {
    set k | 0 <= k < |ps| :: ps[k].uri
  }

  /** No URI is reported twice. */
  predicate DistinctUris(ps: seq<UriProblem>)
  {
    forall i, j :: 0 <= i < j < |ps| ==> ps[i].uri != ps[j].uri
  }

  /** A dereferenceable URI that is not short: one to report. */
  predicate IsReportable(u: string)
  {
    PossibleDereferenceableURI(u) && !IsShortURI(u)
  }

  /** The URIs of a set to report. */
  function Reportable(seen: set<string>): set<string>
  {
    set u | u in seen && IsReportable(u)
  }

  lemma ReportableUnion(a: set<string>, b: set<string>)
    ensures Reportable(a + b) == Reportable(a) + Reportable(b)
  {
  }

  lemma ProblemUrisAppend(a: seq<UriProblem>, b: seq<UriProblem>)
    ensures ProblemUris(a + b) == ProblemUris(a) + ProblemUris(b)
    ensures DistinctUris(a) && DistinctUris(b) && ProblemUris(a) !! ProblemUris(b) ==> DistinctUris(a + b)
  {
    var ab := a + b;
    forall u | u in ProblemUris(ab)
      ensures u in ProblemUris(a) + ProblemUris(b)
    {
      var k :| 0 <= k < |ab| && ab[k].uri == u;
      if k < |a| { assert a[k] == ab[k]; } else { assert b[k - |a|] == ab[k]; }
    }
    forall u | u in ProblemUris(a) + ProblemUris(b)
      ensures u in ProblemUris(ab)
    {
      if u in ProblemUris(a) {
        var k :| 0 <= k < |a| && a[k].uri == u;
        assert ab[k] == a[k];
      } else {
        var k :| 0 <= k < |b| && b[k].uri == u;
        assert ab[|a| + k] == b[k];
      }
    }
    if DistinctUris(a) && DistinctUris(b) && ProblemUris(a) !! ProblemUris(b) {
      forall i, j | 0 <= i < j < |ab|
        ensures ab[i].uri != ab[j].uri
      {
        if j < |a| {
          assert ab[i] == a[i] && ab[j] == a[j];
        } else if i >= |a| {
          assert ab[i] == b[i - |a|] && ab[j] == b[j - |a|];
        } else {
          assert ab[i] == a[i] && ab[j] == b[j - |a|];
          assert ab[i].uri in ProblemUris(a) && ab[j].uri in ProblemUris(b);
        }
      }
    }
  }

  /** A node reports its URI once when it is unseen and to be reported, and nothing else. */
  lemma NodeProblemsReportable(report: bool, seen: set<string>, n: Node)
    ensures ProblemUris(NodeProblems(report, seen, n)) == (if report then Reportable(NodeUris(n) - seen) else {})
    ensures DistinctUris(NodeProblems(report, seen, n))
  {
    if n.Uri? && n.uri !in seen {
      assert NodeUris(n) - seen == {n.uri};
      if ProblemOf(report, n.uri) != [] {
        assert ProblemOf(report, n.uri)[0].uri == n.uri;
      }
    } else {
      assert NodeUris(n) - seen == {};
    }
  }

  /** One quad reports each of its unseen reportable URIs once, and nothing else. */
  lemma QuadProblemsReportable(report: bool, seen: set<string>, q: Quad)
    ensures ProblemUris(QuadProblems(report, seen, q)) == (if report then Reportable(UrisOf(q) - seen) else {})
    ensures DistinctUris(QuadProblems(report, seen, q))
  {
    if q.pred != RDF_TYPE {
      var seenThen := seen + NodeUris(q.subj);
      var fromSubject, fromObject := NodeUris(q.subj) - seen, NodeUris(q.obj) - seenThen;
      NodeProblemsReportable(report, seen, q.subj);
      NodeProblemsReportable(report, seenThen, q.obj);
      ProblemUrisAppend(NodeProblems(report, seen, q.subj), NodeProblems(report, seenThen, q.obj));
      ReportableUnion(fromSubject, fromObject);
      assert UrisOf(q) - seen == fromSubject + fromObject;
    } else {
      assert UrisOf(q) - seen == {};
    }
  }

  /**
   * Over a whole stream, the problems name exactly the reportable URIs seen,
   * each once, when reports are required, and nothing otherwise.
   */
  lemma {:induction false} ProblemsOfStreamReportable(report: bool, s: seq<Quad>)
    ensures ProblemUris(ProblemsOfStream(report, s)) == (if report then Reportable(UrisOfStream(s)) else {})
    ensures DistinctUris(ProblemsOfStream(report, s))
  {
    if |s| > 0 {
      var init, q := s[..|s| - 1], s[|s| - 1];
      assert s == init + [q];
      ProblemsOfStreamReportable(report, init);
      ProblemsOfStreamAppend(report, init, q);
      QuadProblemsReportable(report, UrisOfStream(init), q);
      UrisOfStreamAppend(init, q);
      var p, d := ProblemsOfStream(report, init), QuadProblems(report, UrisOfStream(init), q);
      assert ProblemUris(d) <= UrisOf(q) - UrisOfStream(init);
      assert ProblemUris(p) <= UrisOfStream(init);
      ProblemUrisAppend(p, d);
      ReportableUnion(UrisOfStream(init), UrisOf(q) - UrisOfStream(init));
      assert UrisOfStream(init) + UrisOf(q) == UrisOfStream(init) + (UrisOf(q) - UrisOfStream(init));
    }
  }

  class ShortURIs {
    const requireProblemReport: bool
    /** The seen-URI cache (a bounded LRU map in the source, unbounded here). */
    var seenSet: set<string>
    var shortURICount: nat
    var countLocalDefURIs: nat
    var totalTriples: nat
    var problems: seq<UriProblem>
    /** The quads consumed so far. */
    ghost var stream: seq<Quad>

    ghost predicate Valid()
      reads this`totalTriples, this`stream, this`seenSet, this`countLocalDefURIs, this`shortURICount, this`problems
    {
      totalTriples == |stream|
      && seenSet == UrisOfStream(stream)
      && Counted()
      && ProblemsReported()
      && problems == ProblemsOfStream(requireProblemReport, stream)
    }

    /** The counters hold the number of dereferenceable, and of short dereferenceable, seen URIs. */
    ghost predicate Counted()
      reads this`seenSet, this`countLocalDefURIs, this`shortURICount
    {
      countLocalDefURIs == |Dereferenceable(seenSet)| && shortURICount == |ShortDereferenceable(seenSet)|
    }

    /** Every reported problem names a dereferenceable URI that is not short, and only when reports are required. */
    ghost predicate ProblemsReported()
      reads this`problems
    {
      forall k :: 0 <= k < |problems| ==>
        requireProblemReport && PossibleDereferenceableURI(problems[k].uri) && !IsShortURI(problems[k].uri)
    }

    constructor(requireProblemReport: bool)
      ensures Valid() && stream == [] && this.requireProblemReport == requireProblemReport
      ensures seenSet == {} && shortURICount == 0 && countLocalDefURIs == 0 && totalTriples == 0 && problems == []
    {
      this.requireProblemReport := requireProblemReport;
      seenSet := {};
      shortURICount := 0;
      countLocalDefURIs := 0;
      totalTriples := 0;
      problems := [];
      stream := [];
      assert Dereferenceable({}) == {};
      assert ShortDereferenceable({}) == {};
    }

    /**
     * The classification compute applies to an unseen subject or object
     * URI: a dereferenceable URI is counted, and is short unless it has a
     * '?' (reported as parametrised) or more than 80 characters (reported as
     * long). The URI is then marked seen either way.
     */
    method Classify(uri: string)
      requires uri !in seenSet
      requires Counted() && ProblemsReported()
      modifies this`seenSet, this`countLocalDefURIs, this`shortURICount, this`problems
      ensures seenSet == old(seenSet) + {uri}
      ensures Counted()
      ensures countLocalDefURIs == old(countLocalDefURIs) + (if PossibleDereferenceableURI(uri) then 1 else 0)
      ensures shortURICount == old(shortURICount) + (if PossibleDereferenceableURI(uri) && IsShortURI(uri) then 1 else 0)
      ensures problems == old(problems) + ProblemOf(requireProblemReport, uri)
      ensures ProblemsReported()
    {
      FilterGrows(seenSet, uri);
      if PossibleDereferenceableURI(uri) {
        countLocalDefURIs := countLocalDefURIs + 1;
        if '?' in uri {
          if requireProblemReport {
            problems := problems + [ParametarisedURI(uri)];
          }
        } else if |uri| > MAX_SHORT_LENGTH {
          if requireProblemReport {
            problems := problems + [LongURI(uri)];
          }
        } else {
          shortURICount := shortURICount + 1;
        }
      }
      seenSet := seenSet + {uri};
    }

    /**
     * The test compute makes on a subject or object URI: an unseen URI is
     * classified, and the URI is seen afterwards either way.
     */
    method Visit(uri: string)
      requires Counted() && ProblemsReported()
      modifies this`seenSet, this`countLocalDefURIs, this`shortURICount, this`problems
      ensures seenSet == old(seenSet) + {uri}
      ensures Counted() && ProblemsReported()
      ensures uri in old(seenSet) ==>
        countLocalDefURIs == old(countLocalDefURIs) && shortURICount == old(shortURICount) && problems == old(problems)
      ensures uri !in old(seenSet) ==>
        countLocalDefURIs == old(countLocalDefURIs) + (if PossibleDereferenceableURI(uri) then 1 else 0)
        && shortURICount == old(shortURICount) + (if PossibleDereferenceableURI(uri) && IsShortURI(uri) then 1 else 0)
        && problems == old(problems) + ProblemOf(requireProblemReport, uri)
    {
      if uri !in seenSet {
        Classify(uri);
      } else {
        AlreadySeen(seenSet, uri);
      }
    }

    /**
     * compute: rdf:type quads are only counted. Otherwise an unseen URI
     * subject, then an unseen URI object, is classified and marked seen, so
     * each URI is classified once.
     */
    method Compute(q: Quad)
      requires Valid()
      modifies `totalTriples, `seenSet, `countLocalDefURIs, `shortURICount, `problems, `stream
      ensures Valid() && stream == old(stream) + [q]
      ensures totalTriples == old(totalTriples) + 1
      ensures seenSet == old(seenSet) + UrisOf(q)
      ensures problems == old(problems) + QuadProblems(requireProblemReport, old(seenSet), q)
      ensures q.pred == RDF_TYPE ==>
        seenSet == old(seenSet) && shortURICount == old(shortURICount)
        && countLocalDefURIs == old(countLocalDefURIs) && problems == old(problems)
    {
      totalTriples := totalTriples + 1;
      if q.pred != RDF_TYPE {
        VisitQuad(q);
      }
      UrisOfStreamAppend(stream, q);
      ProblemsOfStreamAppend(requireProblemReport, stream, q);
      stream := stream + [q];
    }

    /**
     * The part of compute after the rdf:type test: the subject, unless
     * blank, then a URI object is visited.
     */
    method VisitQuad(q: Quad)
      requires q.pred != RDF_TYPE
      requires Counted() && ProblemsReported()
      modifies this`seenSet, this`countLocalDefURIs, this`shortURICount, this`problems
      ensures Counted() && ProblemsReported()
      ensures seenSet == old(seenSet) + UrisOf(q)
      ensures problems == old(problems) + QuadProblems(requireProblemReport, old(seenSet), q)
    {
      var subject := q.subj;
      if !subject.Blank? {
        Visit(subject.uri);
      }
      assert seenSet == old(seenSet) + NodeUris(q.subj);
      assert problems == old(problems) + NodeProblems(requireProblemReport, old(seenSet), q.subj);
      ghost var afterSubject := problems;
      var obj := q.obj;
      if obj.Uri? {
        Visit(obj.uri);
      }
      assert problems == afterSubject + NodeProblems(requireProblemReport, old(seenSet) + NodeUris(q.subj), q.obj);
    }

    /**
     * The problem report is complete: when reports are required it names
     * every dereferenceable URI seen that is not short, each once, and
     * otherwise it is empty.
     */
    lemma ReportedExactly()
      requires Valid()
      ensures ProblemUris(problems) == (if requireProblemReport then Reportable(seenSet) else {})
      ensures DistinctUris(problems)
    {
      ProblemsOfStreamReportable(requireProblemReport, stream);
    }

    /** metricValue: short / dereferenceable, NaN when no dereferenceable URI was seen. */
    function MetricValue(): (r: Double)
      reads this
      requires Valid()
      ensures r.NaN? <==> Dereferenceable(UrisOfStream(stream)) == {}
      ensures r.Num? ==> InUnit(r)
      ensures r.Num? ==> IsShare(r, Dereferenceable(UrisOfStream(stream)), ShortDereferenceable(UrisOfStream(stream)))
    {
      ShortWithinDereferenceable(seenSet);
      ShareOf(Dereferenceable(seenSet), ShortDereferenceable(seenSet))
    }
  }

  /**
   * With the counters tied to the seen set, a quad adds exactly its
   * dereferenceable (and short) URIs that were not seen before.
   */
  lemma DeltaCounts(before: set<string>, added: set<string>)
    ensures |Dereferenceable(before + added)| == |Dereferenceable(before)| + |Dereferenceable(added - before)|
    ensures |ShortDereferenceable(before + added)| == |ShortDereferenceable(before)| + |ShortDereferenceable(added - before)|
  {
    assert Dereferenceable(before + added) == Dereferenceable(before) + Dereferenceable(added - before);
    assert Dereferenceable(before) !! Dereferenceable(added - before);
    assert ShortDereferenceable(before + added) == ShortDereferenceable(before) + ShortDereferenceable(added - before);
    assert ShortDereferenceable(before) !! ShortDereferenceable(added - before);
  }

  /** r is the share short makes of deref. */
  predicate IsShare(r: Double, deref: set<string>, short: set<string>)
  {
    r.Num? && r.value * |deref| as real == |short| as real
  }

  /** metricValue's division: the share of short URIs among the dereferenceable ones, NaN when there are none. */
  function ShareOf(deref: set<string>, short: set<string>): (r: Double)
    requires |short| <= |deref|
    ensures r.NaN? <==> deref == {}
    ensures r.Num? ==> InUnit(r) && IsShare(r, deref, short)
  {
    if |deref| == 0 then NaN
    else
      QuotientInUnit(|short| as real, |deref| as real);
      Div(|short| as real, |deref| as real)
  }

  /** The test's dump: 66 of 534 dereferenceable URIs are not short, giving 468/534. */
  lemma TestExpectation(deref: set<string>, short: set<string>)
    requires |deref| == 534 && |short| == 468
    ensures ShareOf(deref, short).Num?
    ensures 0.87640449 - 0.00001 <= ShareOf(deref, short).value <= 0.87640449 + 0.00001
  {
  }

  /** Short URIs are among the dereferenceable ones, so shortURICount <= countLocalDefURIs. */
  lemma ShortWithinDereferenceable(seen: set<string>)
    ensures |ShortDereferenceable(seen)| <= |Dereferenceable(seen)|
  {
    var a, b := ShortDereferenceable(seen), Dereferenceable(seen);
    assert b == a + (b - a) && a !! (b - a);
  }
}
