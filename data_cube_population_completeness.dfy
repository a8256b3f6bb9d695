/**
 * DataCubePopulationCompleteness: for each configured coded property of an
 * RDF Data Cube, the share of the gold-standard code list that the
 * dataset's observations cover, averaged over the configured properties.
 *
 * The configurations and the gold-standard code lists come from files that
 * before() loads; here they are given to the constructor.
 */
module DataCubePopulationCompleteness {
  import opened Rdf

  /**
   * A PopulationCompletenessConfiguration: the coded property it assesses,
   * the comparison operator and the literal value a member's count is
   * compared with (read with getInt()).
   */
  datatype Configuration = Configuration(property: string, operator: string, value: int)

  /**
   * The five comparisons assertComponentProperty tries one after the other:
   * a member is reported when the operator is one of them and its count
   * fails that comparison.
   */
  predicate FailsCondition(op: string, count: int, cv: int)
  {
    (op == "<" && !(count < cv))
    || (op == ">" && !(count > cv))
    || (op == "=" && !(count == cv))
    || (op == ">=" && !(count >= cv))
    || (op == "<=" && !(count <= cv))
  }

  predicate KnownOperator(op: string)
  {
    op == "<" || op == ">" || op == "=" || op == ">=" || op == "<="
  }

  /** A subset is never larger than the set it is taken from. */
  lemma SubsetNoLarger<T>(a: set<T>, b: set<T>)
    requires a <= b
    ensures |a| <= |b|
  {
    assert b == a + (b - a);
  }

  /**
   * assertComponentProperty: the members of the gold code list that the
   * dataset does not cover, that is the members without a count and the
   * members whose count fails the configured condition. A null count map
   * is dereferenced as soon as the code list has a member.
   */
  function AssertComponentProperty(cfg: Configuration, counts: Option<map<Node, int>>, gold: set<Node>)
    : (r: Result<set<Node>>)
    ensures r.Failure? <==> counts.None? && gold != {}
    ensures r.Failure? ==> r.fault == NullPointer
    ensures r.Success? ==> r.value <= gold
    ensures r.Success? && counts.Some? ==> gold - counts.value.Keys <= r.value
    ensures r.Success? && counts.Some? ==>
      forall m :: m in gold && m in counts.value && !FailsCondition(cfg.operator, counts.value[m], cfg.value)
        ==> m !in r.value
  {
    if counts.None? then
      if gold == {} then Success({}) else Failure(NullPointer)
    else
      var datasetAndCount := counts.value;
      Success(set m | m in gold
                && (m !in datasetAndCount || FailsCondition(cfg.operator, datasetAndCount[m], cfg.value)))
  }

  /** An operator none of the five comparisons recognises reports only the absent members. */
  lemma UnknownOperatorReportsOnlyAbsent(cfg: Configuration, counts: map<Node, int>, gold: set<Node>)
    requires !KnownOperator(cfg.operator)
    ensures AssertComponentProperty(cfg, Some(counts), gold) == Success(gold - counts.Keys)
  {
    var missing := AssertComponentProperty(cfg, Some(counts), gold).value;
    forall m | m in gold
      ensures m in missing <==> m !in counts
    {
    }
    assert missing == gold - counts.Keys;
  }

  /**
   * With every count at 1, as compute records them, the condition is decided
   * once for all present members: either all of them are reported or none.
   */
  lemma CountsOfOne(cfg: Configuration, counts: map<Node, int>, gold: set<Node>)
    requires forall m :: m in counts ==> counts[m] == 1
    ensures AssertComponentProperty(cfg, Some(counts), gold)
      == Success(if FailsCondition(cfg.operator, 1, cfg.value) then gold else gold - counts.Keys)
  {
    var missing := AssertComponentProperty(cfg, Some(counts), gold).value;
    forall m | m in gold
      ensures m in missing <==> m !in counts || FailsCondition(cfg.operator, 1, cfg.value)
    {
    }
    if FailsCondition(cfg.operator, 1, cfg.value) {
      assert missing == gold;
    } else {
      assert missing == gold - counts.Keys;
    }
  }

  // ---------------------------------------------------------------
  // What compute records, as a function of the stream
  // ---------------------------------------------------------------

  /** A quad compute records: a configured predicate with a resource object. */
  predicate Recorded(configured: set<string>, q: Quad)
  {
    q.pred in configured && !q.obj.Literal?
  }

  ghost function PredicatesRecorded(configured: set<string>, s: seq<Quad>): set<string>
  {
    set q | q in s && Recorded(configured, q) :: q.pred
  }

  ghost function ObjectsRecorded(configured: set<string>, s: seq<Quad>, p: string): set<Node>
  {
    set q | q in s && Recorded(configured, q) && q.pred == p :: q.obj
  }

  ghost function AllObjectsRecorded(configured: set<string>, s: seq<Quad>): set<Node>
  {
    set q | q in s && Recorded(configured, q) :: q.obj
  }

  ghost function SubjectsRecorded(configured: set<string>, s: seq<Quad>, o: Node): set<Subject>
  {
    set q | q in s && Recorded(configured, q) && q.obj == o :: q.subj
  }

  /**
   * The code-list map compute should build: for every configured property
   * that occurred, every object it occurred with, counted once.
   */
  ghost function ConceptsSeen(configured: set<string>, s: seq<Quad>): map<string, map<Node, int>>
  {
    map p | p in PredicatesRecorded(configured, s) :: Ones(ObjectsRecorded(configured, s, p))
  }

  /** The observation map compute should build: each recorded object with the subjects it was seen with. */
  ghost function ObservationsSeen(configured: set<string>, s: seq<Quad>): map<Node, set<Subject>>
  {
    map o | o in AllObjectsRecorded(configured, s) :: SubjectsRecorded(configured, s, o)
  }

  /**
   * The code-list update of compute as written: the existing count of the
   * object is read back (1 when there is none) and stored again.
   */
  function RecordConcept(seen: map<string, map<Node, int>>, p: string, o: Node): (r: map<string, map<Node, int>>)
  {
    var codelist := if p in seen then seen[p] else map[];
    var codelistCount := if o in codelist then codelist[o] else 1;
    seen[p := codelist[o := codelistCount]]
  }

  /** The observation update of compute: the subject joins the object's observation set. */
  function RecordObservation(observations: map<Node, set<Subject>>, o: Node, subj: Subject): map<Node, set<Subject>>
  {
    var observationSet := if o in observations then observations[o] else {};
    observations[o := observationSet + {subj}]
  }

  /** A code-list map in which every object has the count 1. */
  function Ones(objects: set<Node>): (r: map<Node, int>)
    ensures r.Keys == objects && forall o :: o in r ==> r[o] == 1
  {
    map o | o in objects :: 1
  }

  lemma ObjectsRecordedAppend(configured: set<string>, s: seq<Quad>, q: Quad, p: string)
    requires Recorded(configured, q)
    ensures ObjectsRecorded(configured, s + [q], p)
      == ObjectsRecorded(configured, s, p) + (if p == q.pred then {q.obj} else {})
  {
  }

  lemma OnesInsert(objects: set<Node>, o: Node)
    ensures Ones(objects + {o}) == Ones(objects)[o := 1]
  {
  }

  /** The code list compute reads back for p: the recorded objects of p, each counted once. */
  lemma CodeListOf(configured: set<string>, s: seq<Quad>, p: string)
    ensures (if p in ConceptsSeen(configured, s) then ConceptsSeen(configured, s)[p] else map[])
      == Ones(ObjectsRecorded(configured, s, p))
  {
    if p !in ConceptsSeen(configured, s) {
      assert ObjectsRecorded(configured, s, p) == {};
    }
  }

  /**
   * The count stored for an object is never incremented: recording a quad
   * keeps the code-list map equal to the set-like reference, every count
   * staying 1.
   */
  lemma RecordConceptAppend(configured: set<string>, s: seq<Quad>, q: Quad)
    requires Recorded(configured, q)
    ensures ConceptsSeen(configured, s + [q]) == RecordConcept(ConceptsSeen(configured, s), q.pred, q.obj)
  {
    var before, after := ConceptsSeen(configured, s), ConceptsSeen(configured, s + [q]);
    var expected := RecordConcept(before, q.pred, q.obj);
    assert PredicatesRecorded(configured, s + [q]) == PredicatesRecorded(configured, s) + {q.pred};
    forall p | p in after
      ensures p in expected && after[p] == expected[p]
    {
      ObjectsRecordedAppend(configured, s, q, p);
      if p == q.pred {
        CodeListOf(configured, s, p);
        OnesInsert(ObjectsRecorded(configured, s, p), q.obj);
      }
    }
    assert forall p :: p in expected ==> p in after;
  }

  /** Recording a quad adds its subject to its object's observation set. */
  lemma RecordObservationAppend(configured: set<string>, s: seq<Quad>, q: Quad)
    requires Recorded(configured, q)
    ensures ObservationsSeen(configured, s + [q]) == RecordObservation(ObservationsSeen(configured, s), q.obj, q.subj)
  {
    var before, after := ObservationsSeen(configured, s), ObservationsSeen(configured, s + [q]);
    var expected := RecordObservation(before, q.obj, q.subj);
    assert AllObjectsRecorded(configured, s + [q]) == AllObjectsRecorded(configured, s) + {q.obj};
    forall o | o in after
      ensures o in expected && after[o] == expected[o]
    {
      if o == q.obj {
        assert SubjectsRecorded(configured, s + [q], o) == SubjectsRecorded(configured, s, o) + {q.subj};
      } else {
        assert SubjectsRecorded(configured, s + [q], o) == SubjectsRecorded(configured, s, o);
      }
    }
    assert after == expected;
  }

  /** A quad compute does not record leaves both maps as they were. */
  lemma UnrecordedAppend(configured: set<string>, s: seq<Quad>, q: Quad)
    requires !Recorded(configured, q)
    ensures ConceptsSeen(configured, s + [q]) == ConceptsSeen(configured, s)
    ensures ObservationsSeen(configured, s + [q]) == ObservationsSeen(configured, s)
  {
    assert PredicatesRecorded(configured, s + [q]) == PredicatesRecorded(configured, s);
    assert AllObjectsRecorded(configured, s + [q]) == AllObjectsRecorded(configured, s);
    assert forall p :: ObjectsRecorded(configured, s + [q], p) == ObjectsRecorded(configured, s, p);
    assert forall o :: SubjectsRecorded(configured, s + [q], o) == SubjectsRecorded(configured, s, o);
  }

  // ---------------------------------------------------------------
  // The metric value as a function of the configuration and the counts
  // ---------------------------------------------------------------

  /** Map.get: the entry for the key, or null. */
  function Lookup(seen: map<string, map<Node, int>>, k: string): Option<map<Node, int>>
  {
    if k in seen then Some(seen[k]) else None
  }

  /** Java's += on doubles: NaN absorbs everything. */
  function Plus(a: Double, b: Double): Double
  {
    if a.NaN? || b.NaN? then NaN else Num(a.value + b.value)
  }

  /**
   * The coverage of one code list: (expected - missing) / expected, where
   * expected is the size of the gold list; an empty gold list gives 0/0.
   */
  function ListCoverage(cfg: Configuration, counts: Option<map<Node, int>>, gold: set<Node>): (r: Result<Double>)
    ensures r.Failure? <==> counts.None? && gold != {}
    ensures r.Success? ==> (r.value.NaN? <==> gold == {})
    ensures r.Success? && r.value.Num? ==> InUnit(r.value)
    ensures r.Success? && counts.Some? && r.value.Num? ==>
      (r.value.value == 1.0 <==> AssertComponentProperty(cfg, counts, gold).value == {})
  {
    match AssertComponentProperty(cfg, counts, gold)
    case Failure(f) => Failure(f)
    case Success(missing) =>
      SubsetNoLarger(missing, gold);
      var expected := |gold|;
      var actual := expected - |missing|;
      if expected == 0 then Success(Div(actual as real, expected as real))
      else
        QuotientInUnit(actual as real, expected as real);
        Success(Div(actual as real, expected as real))
  }

  /**
   * The body of metricValue's loop for one code list: the missing members,
   * then (expected - missing) / expected.
   */
  method CodeListCoverage(pcc: Configuration, counts: Option<map<Node, int>>, gold: set<Node>) returns (r: Result<Double>)
    ensures r == ListCoverage(pcc, counts, gold)
  {
    var totalExpectedCoverage := |gold|;
    var missingCoverageSet := AssertComponentProperty(pcc, counts, gold);
    if missingCoverageSet.Failure? {
      return Failure(missingCoverageSet.fault);
    }
    SubsetNoLarger(missingCoverageSet.value, gold);
    var actualCoverageSize := totalExpectedCoverage - |missingCoverageSet.value|;
    r := Success(Div(actualCoverageSize as real, totalExpectedCoverage as real));
  }

  /** The code lists metricValue can reach: every one is configured. */
  predicate Consistent(cfgs: map<string, Configuration>, lists: map<string, set<Node>>)
  {
    lists.Keys <= cfgs.Keys
  }

  /** The coverage of each code list, or the failure of its check. */
  function Coverages(cfgs: map<string, Configuration>, lists: map<string, set<Node>>,
                     seen: map<string, map<Node, int>>): (cov: map<string, Result<Double>>)
    requires Consistent(cfgs, lists)
    ensures forall k :: k in cov <==> k in lists
  {
    map k | k in lists :: ListCoverage(cfgs[k], Lookup(seen, k), lists[k])
  }

  /** Every code list in keys is checked without failure. */
  predicate AllSucceed(keys: set<string>, cov: map<string, Result<Double>>)
  {
    forall k :: k in keys && k in cov ==> cov[k].Success?
  }

  /** The sum of the coverages at keys, in no particular order. */
  ghost function Sum(keys: set<string>, cov: map<string, Result<Double>>): Double
    requires keys <= cov.Keys && AllSucceed(keys, cov)
    decreases keys
  {
    if keys == {} then Num(0.0)
    else
      var k :| k in keys;
      Plus(cov[k].value, Sum(keys - {k}, cov))
  }

  /** Adding doubles (without rounding) is associative and commutative, NaN included. */
  lemma PlusSwap(a: Double, b: Double, c: Double)
    ensures Plus(a, Plus(b, c)) == Plus(b, Plus(a, c))
  {
  }

  /** The sum does not depend on which key is taken first. */
  lemma {:induction false} SumRemove(keys: set<string>, cov: map<string, Result<Double>>, x: string)
    requires keys <= cov.Keys && AllSucceed(keys, cov) && x in keys
    ensures Sum(keys, cov) == Plus(cov[x].value, Sum(keys - {x}, cov))
    decreases keys
  {
    var k :| k in keys && Sum(keys, cov) == Plus(cov[k].value, Sum(keys - {k}, cov));
    if k != x {
      SumRemove(keys - {k}, cov, x);
      SumRemove(keys - {x}, cov, k);
      assert keys - {k} - {x} == keys - {x} - {k};
      PlusSwap(cov[k].value, cov[x].value, Sum(keys - {k} - {x}, cov));
    }
  }

  /** The sum of the coverages in the order the keys are visited. */
  function SumInOrder(order: seq<string>, cov: map<string, Result<Double>>): Double
    requires forall k :: k in order ==> k in cov && cov[k].Success?
  {
    if |order| == 0 then Num(0.0)
    else Plus(SumInOrder(order[..|order| - 1], cov), cov[order[|order| - 1]].value)
  }

  /** The keys an order visits. */
  function Visited(order: seq<string>): set<string>
  {
    set k | k in order
  }

  /** No key is visited twice. */
  predicate Distinct(order: seq<string>)
  {
    forall i, j :: 0 <= i < j < |order| ==> order[i] != order[j]
  }

  /** Every key an order visits has a coverage that succeeded. */
  predicate VisitsSucceed(order: seq<string>, cov: map<string, Result<Double>>)
  {
    forall k :: k in order ==> k in cov && cov[k].Success?
  }

  /** Visiting one more, unvisited key adds its coverage to the sum. */
  lemma VisitOneMore(order: seq<string>, cov: map<string, Result<Double>>, next: string)
    requires VisitsSucceed(order, cov) && Distinct(order)
    requires next in cov && cov[next].Success? && next !in order
    ensures VisitsSucceed(order + [next], cov) && Distinct(order + [next])
    ensures SumInOrder(order + [next], cov) == Plus(SumInOrder(order, cov), cov[next].value)
  {
    assert (order + [next])[..|order|] == order;
  }

  /** Any order that visits every key once gives the sum. */
  lemma {:induction false} SumInAnyOrder(order: seq<string>, cov: map<string, Result<Double>>)
    requires VisitsSucceed(order, cov) && Distinct(order)
    ensures Visited(order) <= cov.Keys && AllSucceed(Visited(order), cov)
    ensures SumInOrder(order, cov) == Sum(Visited(order), cov)
  {
    var keys := Visited(order);
    if |order| > 0 {
      var prefix, last := order[..|order| - 1], order[|order| - 1];
      SumInAnyOrder(prefix, cov);
      assert Visited(prefix) == keys - {last} by {
        forall k | k in keys - {last}
          ensures k in prefix
        {
          var i :| 0 <= i < |order| && order[i] == k;
          assert i < |order| - 1;
          assert prefix[i] == k;
        }
      }
      SumRemove(keys, cov, last);
    } else {
      assert keys == {};
    }
  }

  /**
   * Values in [0, 1] add up to at most their number; the sum is NaN
   * exactly when one of the values is.
   */
  lemma {:induction false} SumBounds(keys: set<string>, cov: map<string, Result<Double>>)
    requires keys <= cov.Keys && AllSucceed(keys, cov)
    requires forall k :: k in keys && cov[k].value.Num? ==> InUnit(cov[k].value)
    ensures Sum(keys, cov).NaN? <==> exists k :: k in keys && cov[k].value.NaN?
    ensures Sum(keys, cov).Num? ==> 0.0 <= Sum(keys, cov).value <= |keys| as real
    decreases keys
  {
    if keys != {} {
      var x :| x in keys;
      SumRemove(keys, cov, x);
      SumBounds(keys - {x}, cov);
      assert forall k :: k in keys && k != x ==> k in keys - {x};
    }
  }

  /** The summed coverage divided by the number of configured properties. */
  function Average(sum: Double, n: nat): (r: Double)
    requires n == 0 ==> sum == Num(0.0)
  {
    if sum.NaN? then NaN else Div(sum.value, n as real)
  }

  /** A sum of at most count unit values over n >= count lies in [0, 1], below 1 when count < n. */
  lemma AverageBounds(sum: real, count: nat, n: nat)
    requires 0.0 <= sum <= count as real && count <= n && 0 < n
    ensures 0.0 <= sum / n as real <= 1.0
    ensures count < n ==> sum / n as real < 1.0
  {
    var v := sum / n as real;
    assert v * n as real == sum;
  }

  /**
   * metricValue: a failure when the check of some code list fails, or else
   * the sum of the coverages over the number of configured properties.
   */
  ghost function Evaluate(cfgs: map<string, Configuration>, lists: map<string, set<Node>>,
                          seen: map<string, map<Node, int>>): Result<Double>
    requires Consistent(cfgs, lists)
  {
    var cov := Coverages(cfgs, lists, seen);
    if !AllSucceed(lists.Keys, cov) then Failure(NullPointer)
    else
      assert |cfgs| == 0 ==> lists.Keys == {};
      Success(Average(Sum(lists.Keys, cov), |cfgs|))
  }

  /** metricValue fails exactly when a non-empty code list has no recorded property. */
  lemma EvaluateFails(cfgs: map<string, Configuration>, lists: map<string, set<Node>>,
                      seen: map<string, map<Node, int>>)
    requires Consistent(cfgs, lists)
    ensures Evaluate(cfgs, lists, seen).Failure? <==> exists k :: k in lists && k !in seen && lists[k] != {}
  {
    var cov := Coverages(cfgs, lists, seen);
    if exists k :: k in lists && k !in seen && lists[k] != {} {
      var k :| k in lists && k !in seen && lists[k] != {};
      assert cov[k].Failure?;
    }
  }

  /** One code list whose check fails makes metricValue fail. */
  lemma EvaluateFailsAt(cfgs: map<string, Configuration>, lists: map<string, set<Node>>,
                        seen: map<string, map<Node, int>>, k: string)
    requires Consistent(cfgs, lists) && k in lists
    requires Coverages(cfgs, lists, seen)[k].Failure?
    ensures Evaluate(cfgs, lists, seen) == Failure(Coverages(cfgs, lists, seen)[k].fault)
  {
  }

  /** When every code list is checked without failure, metricValue is the average. */
  lemma EvaluateSucceeds(cfgs: map<string, Configuration>, lists: map<string, set<Node>>,
                         seen: map<string, map<Node, int>>, total: Double)
    requires Consistent(cfgs, lists)
    requires AllSucceed(lists.Keys, Coverages(cfgs, lists, seen))
    requires total == Sum(lists.Keys, Coverages(cfgs, lists, seen))
    ensures |cfgs| == 0 ==> total == Num(0.0)
    ensures Evaluate(cfgs, lists, seen) == Success(Average(total, |cfgs|))
  {
  }

  /**
   * The loop of metricValue: the coverages of the code lists, added up one
   * list at a time, divided by the number of configured properties.
   */
  method AverageCoverage(cfgs: map<string, Configuration>, lists: map<string, set<Node>>,
                         seen: map<string, map<Node, int>>) returns (r: Result<Double>)
    requires Consistent(cfgs, lists)
    ensures r == Evaluate(cfgs, lists, seen)
  {
    ghost var cov := Coverages(cfgs, lists, seen);
    var averagePopulationCompleteness := Num(0.0);
    var todo := lists.Keys;
    ghost var order: seq<string> := [];
    while todo != {}
      invariant todo <= lists.Keys
      invariant forall k :: k in lists ==> (k in order <==> k !in todo)
      invariant VisitsSucceed(order, cov) && Distinct(order)
      invariant averagePopulationCompleteness == SumInOrder(order, cov)
      decreases |todo|
    {
      var res :| res in todo;
      var totalCoverage := CodeListCoverage(cfgs[res], Lookup(seen, res), lists[res]);
      assert totalCoverage == cov[res];
      if totalCoverage.Failure? {
        EvaluateFailsAt(cfgs, lists, seen, res);
        return Failure(totalCoverage.fault);
      }
      averagePopulationCompleteness := Plus(averagePopulationCompleteness, totalCoverage.value);
      VisitOneMore(order, cov, res);
      order := order + [res];
      todo := todo - {res};
    }
    SumInAnyOrder(order, cov);
    assert Visited(order) == lists.Keys;
    EvaluateSucceeds(cfgs, lists, seen, averagePopulationCompleteness);
    r := Success(Average(averagePopulationCompleteness, |cfgs|));
  }

  /**
   * The value is a number in [0, 1] unless a code list is empty or nothing
   * is configured, and the divisor is the number of configured properties,
   * not the number of code lists: a configured property without a code
   * list keeps the value below 1.
   */
  lemma EvaluateBounds(cfgs: map<string, Configuration>, lists: map<string, set<Node>>,
                       seen: map<string, map<Node, int>>)
    requires Consistent(cfgs, lists)
    requires Evaluate(cfgs, lists, seen).Success?
    ensures Evaluate(cfgs, lists, seen).value.NaN? <==> |cfgs| == 0 || exists k :: k in lists && lists[k] == {}
    ensures Evaluate(cfgs, lists, seen).value.Num? ==>
      InUnit(Evaluate(cfgs, lists, seen).value)
    ensures Evaluate(cfgs, lists, seen).value.Num? && lists.Keys < cfgs.Keys ==>
      Evaluate(cfgs, lists, seen).value.value < 1.0
  {
    var cov := Coverages(cfgs, lists, seen);
    CoveragesBounds(cfgs, lists, seen);
    SumBounds(lists.Keys, cov);
    SubsetNoLarger(lists.Keys, cfgs.Keys);
    if lists.Keys < cfgs.Keys {
      assert cfgs.Keys - lists.Keys != {};
      var extra :| extra in cfgs.Keys - lists.Keys;
      SubsetNoLarger(lists.Keys, cfgs.Keys - {extra});
    }
    AverageOf(Sum(lists.Keys, cov), |lists.Keys|, |cfgs|);
  }

  /** Each coverage that succeeds is NaN exactly for an empty code list, and otherwise lies in [0, 1]. */
  lemma CoveragesBounds(cfgs: map<string, Configuration>, lists: map<string, set<Node>>,
                        seen: map<string, map<Node, int>>)
    requires Consistent(cfgs, lists)
    ensures forall k :: k in lists && Coverages(cfgs, lists, seen)[k].Success? ==>
      (Coverages(cfgs, lists, seen)[k].value.NaN? <==> lists[k] == {})
    ensures forall k :: k in lists && Coverages(cfgs, lists, seen)[k].Success? ==>
      (Coverages(cfgs, lists, seen)[k].value.Num? ==> InUnit(Coverages(cfgs, lists, seen)[k].value))
  {
    var cov := Coverages(cfgs, lists, seen);
    forall k | k in lists
      ensures cov[k] == ListCoverage(cfgs[k], Lookup(seen, k), lists[k])
    {
    }
  }

  /** The average of a sum of count unit values over n >= count properties. */
  lemma AverageOf(sum: Double, count: nat, n: nat)
    requires n == 0 ==> sum == Num(0.0)
    requires sum.Num? ==> 0.0 <= sum.value <= count as real
    requires count <= n
    ensures Average(sum, n).NaN? <==> sum.NaN? || n == 0
    ensures Average(sum, n).Num? ==> InUnit(Average(sum, n))
    ensures Average(sum, n).Num? && count < n ==> Average(sum, n).value < 1.0
  {
    if sum.Num? && n > 0 {
      AverageBounds(sum.value, count, n);
    }
  }

  // ---------------------------------------------------------------
  // The metric
  // ---------------------------------------------------------------

  class DataCubePopulationCompleteness {
    /** pcc_set: configuration by assessed component property. */
    const configurations: map<string, Configuration>
    /** gs_codeLists: the gold-standard code list of each configured coded property. */
    const codeLists: map<string, set<Node>>
    /** ds_seenCLConcepts: per property, the objects seen and their count. */
    var seenConcepts: map<string, map<Node, int>>
    /** ds_observations: per object, the subjects (observations) that refer to it. */
    var observations: map<Node, set<Subject>>
    var totalTriples: nat
    /** The quads consumed so far. */
    ghost var stream: seq<Quad>

    ghost predicate Valid()
      reads this
    {
      Consistent(configurations, codeLists)
      && totalTriples == |stream|
      && seenConcepts == ConceptsSeen(configurations.Keys, stream)
      && observations == ObservationsSeen(configurations.Keys, stream)
    }

    /** The state before() leaves: code lists are loaded only for configured properties. */
    constructor(configurations: map<string, Configuration>, codeLists: map<string, set<Node>>)
      requires Consistent(configurations, codeLists)
      ensures Valid() && stream == []
      ensures this.configurations == configurations && this.codeLists == codeLists
    {
      this.configurations := configurations;
      this.codeLists := codeLists;
      seenConcepts := map[];
      observations := map[];
      totalTriples := 0;
      stream := [];
      assert ConceptsSeen(configurations.Keys, []) == map[];
      assert ObservationsSeen(configurations.Keys, []) == map[];
    }

    /**
     * compute: every quad is counted; a quad with a configured predicate
     * records its object in the predicate's code-list map and its subject in
     * the object's observation set, unless the object is a literal, which
     * asResource() refuses.
     */
    method Compute(q: Quad) returns (fault: Option<Fault>)
      requires Valid()
      modifies `seenConcepts, `observations, `totalTriples, `stream
      ensures Valid() && stream == old(stream) + [q]
      ensures totalTriples == old(totalTriples) + 1
      ensures fault.Some? <==> q.pred in configurations && q.obj.Literal?
      ensures fault.Some? ==> fault.value == ResourceRequired
      ensures !Recorded(configurations.Keys, q) ==>
        seenConcepts == old(seenConcepts) && observations == old(observations)
    {
      totalTriples := totalTriples + 1;
      fault := None;
      if q.pred in configurations {
        if q.obj.Literal? {
          fault := Some(ResourceRequired);
        } else {
          var observation, concept := q.subj, q.obj;
          var codelist := if q.pred in seenConcepts then seenConcepts[q.pred] else map[];
          var codelistCount := if concept in codelist then codelist[concept] else 1;
          codelist := codelist[concept := codelistCount];
          seenConcepts := seenConcepts[q.pred := codelist];
          var observationSet := if concept in observations then observations[concept] else {};
          observationSet := observationSet + {observation};
          observations := observations[concept := observationSet];
        }
      }
      if Recorded(configurations.Keys, q) {
        RecordConceptAppend(configurations.Keys, stream, q);
        RecordObservationAppend(configurations.Keys, stream, q);
      } else {
        UnrecordedAppend(configurations.Keys, stream, q);
      }
      stream := stream + [q];
    }

    /**
     * metricValue: the coverages of the code lists, added up one list at a
     * time, divided by the number of configured properties.
     */
    method MetricValue() returns (r: Result<Double>)
      requires Consistent(configurations, codeLists)
      ensures r == Evaluate(configurations, codeLists, seenConcepts)
    {
      r := AverageCoverage(configurations, codeLists, seenConcepts);
    }

    /**
     * A configured property with a non-empty code list that no quad has
     * used reaches assertComponentProperty with a null map, and metricValue
     * fails.
     */
    lemma UnusedPropertyFails(k: string)
      requires Valid()
      requires k in codeLists && codeLists[k] != {}
      requires forall q :: q in stream ==> q.pred != k || q.obj.Literal?
      ensures Evaluate(configurations, codeLists, seenConcepts).Failure?
    {
      assert k !in PredicatesRecorded(configurations.Keys, stream);
      EvaluateFails(configurations, codeLists, seenConcepts);
    }
  }
}
