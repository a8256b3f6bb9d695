/**
 * EstimatedExtensionalConciseness: the share of instances (maximal runs of
 * consecutive quads about one subject) whose set of statements has not been
 * seen for an earlier instance.
 *
 * The Bloom filter is modelled as the exact set of fingerprints it has been
 * shown: a fingerprint is reported as a duplicate exactly when it was added
 * before.
 */
module EstimatedExtensionalConciseness {
  import opened Rdf

  // ---------------------------------------------------------------
  // before(): the filter parameters
  // ---------------------------------------------------------------

  /** An argument passed to before(): null, an Integer, or any other object. */
  datatype Arg = NullArg | IntArg(n: int) | OtherArg

  datatype FilterParams = FilterParams(numFilters: int, size: int, falsePositiveRate: real)

  const DEFAULT_FILTER_SIZE := 5500000
  const NUM_FILTERS := 13
  const FALSE_POSITIVE_RATE := 0.01

  /**
   * before(args) as written: the size is taken from the first argument only
   * when that argument is NOT an Integer, and the cast to Integer then fails.
   */
  function FilterSetup(args: Option<seq<Arg>>): (r: Result<FilterParams>)
    ensures r.Failure? <==> args.Some? && |args.value| > 0 && args.value[0].OtherArg?
    ensures r.Failure? ==> r.fault == ClassCast
    ensures r.Success? ==> r.value.size == DEFAULT_FILTER_SIZE
    ensures r.Success? ==> r.value.numFilters == NUM_FILTERS && r.value.falsePositiveRate == FALSE_POSITIVE_RATE
  {
    if args.Some? && |args.value| > 0 && !args.value[0].NullArg? && !args.value[0].IntArg? then
      Failure(ClassCast)  // (Integer) of an object that is not an Integer
    else
      Success(FilterParams(NUM_FILTERS, DEFAULT_FILTER_SIZE, FALSE_POSITIVE_RATE))
  }

  /** An Integer size passed to before() is ignored. */
  lemma IntegerSizeIgnored(n: int)
    requires n != DEFAULT_FILTER_SIZE
    ensures FilterSetup(Some([IntArg(n)])).Success?
    ensures FilterSetup(Some([IntArg(n)])).value.size != n
  {
  }

  /** Any other non-null first argument makes before() throw. */
  lemma OtherArgumentFails(rest: seq<Arg>)
    ensures FilterSetup(Some([OtherArg] + rest)) == Failure(ClassCast)
  {
  }

  /** before(args) as evidently intended: an Integer first argument gives the size. */
  function IntendedFilterSetup(args: Option<seq<Arg>>): (r: FilterParams)
    ensures args.Some? && |args.value| > 0 && args.value[0].IntArg? ==> r.size == args.value[0].n
    ensures !(args.Some? && |args.value| > 0 && args.value[0].IntArg?) ==> r.size == DEFAULT_FILTER_SIZE
    ensures r.numFilters == NUM_FILTERS && r.falsePositiveRate == FALSE_POSITIVE_RATE
  {
    var size := if args.Some? && |args.value| > 0 && args.value[0].IntArg? then args.value[0].n else DEFAULT_FILTER_SIZE;
    FilterParams(NUM_FILTERS, size, FALSE_POSITIVE_RATE)
  }

  /** The intended setup never fails and honours the size it is given. */
  lemma IntendedSetupHonoursSize(n: int, rest: seq<Arg>)
    ensures IntendedFilterSetup(Some([IntArg(n)] + rest)).size == n
  {
  }

  // ---------------------------------------------------------------
  // Instances: runs of consecutive quads about one subject
  // ---------------------------------------------------------------

  /** A statement: predicate + " " + object, kept as the pair. */
  datatype Stmt = Stmt(pred: string, obj: Node)

  datatype Run = Run(subject: Subject, stmts: set<Stmt>)

  function StmtOf(q: Quad): Stmt
  {
    Stmt(q.pred, q.obj)
  }

  /** The instances a stream builds, in order; a subject that comes back starts a new one. */
  function Runs(s: seq<Quad>): (r: seq<Run>)
    ensures |s| == 0 <==> |r| == 0
    ensures |s| > 0 ==> r[|r| - 1].subject == s[|s| - 1].subj
    ensures |r| <= |s|
  {
    if |s| == 0 then []
    else
      var prev, q := Runs(s[..|s| - 1]), s[|s| - 1];
      if |prev| > 0 && prev[|prev| - 1].subject == q.subj then
        prev[..|prev| - 1] + [Run(q.subj, prev[|prev| - 1].stmts + {StmtOf(q)})]
      else
        prev + [Run(q.subj, {StmtOf(q)})]
  }

  /** The statement sets of a sequence of runs. */
  function Prints(runs: seq<Run>): (r: seq<set<Stmt>>)
    ensures |r| == |runs|
  {
    if |runs| == 0 then [] else Prints(runs[..|runs| - 1]) + [runs[|runs| - 1].stmts]
  }

  /** The open instance: the last run. */
  function LastRun(s: seq<Quad>): Run
    requires |s| > 0
  {
    Runs(s)[|Runs(s)| - 1]
  }

  /** The fingerprints of the instances already closed: all runs but the last. */
  function Completed(s: seq<Quad>): (r: seq<set<Stmt>>)
    ensures |s| > 0 ==> |r| + 1 == |Runs(s)|
    ensures |s| == 0 ==> r == []
  {
    var runs := Runs(s);
    if |runs| == 0 then [] else Prints(runs[..|runs| - 1])
  }

  /**
   * One more quad either extends the open instance or closes it and opens
   * a new one.
   */
  lemma RunsAppend(s: seq<Quad>, q: Quad)
    ensures |s| == 0 ==>
      (Completed(s + [q]) == [] && |Runs(s + [q])| == 1 && LastRun(s + [q]) == Run(q.subj, {StmtOf(q)}))
    ensures |s| > 0 && LastRun(s).subject == q.subj ==>
      Completed(s + [q]) == Completed(s) && |Runs(s + [q])| == |Runs(s)|
      && LastRun(s + [q]) == Run(q.subj, LastRun(s).stmts + {StmtOf(q)})
    ensures |s| > 0 && LastRun(s).subject != q.subj ==>
      Completed(s + [q]) == Completed(s) + [LastRun(s).stmts] && |Runs(s + [q])| == |Runs(s)| + 1
      && LastRun(s + [q]) == Run(q.subj, {StmtOf(q)})
  {
    assert (s + [q])[..|s|] == s;
    var runs, runs' := Runs(s), Runs(s + [q]);
    if |s| > 0 {
      if LastRun(s).subject == q.subj {
        assert runs'[..|runs'| - 1] == runs[..|runs| - 1];
      } else {
        assert runs'[..|runs'| - 1] == runs;
        assert runs == runs[..|runs| - 1] + [runs[|runs| - 1]];
      }
    }
  }

  /** The distinct elements of a sequence. */
  function Elems<T>(cs: seq<T>): set<T>
  {
    if |cs| == 0 then {} else Elems(cs[..|cs| - 1]) + {cs[|cs| - 1]}
  }

  /** How many elements repeat an earlier one. */
  function Dups<T(==)>(cs: seq<T>): nat
  {
    if |cs| == 0 then 0
    else Dups(cs[..|cs| - 1]) + (if cs[|cs| - 1] in Elems(cs[..|cs| - 1]) then 1 else 0)
  }

  /** Every element is either the first of its kind or a repeat. */
  lemma {:induction false} DupsPlusDistinct<T>(cs: seq<T>)
    ensures Dups(cs) + |Elems(cs)| == |cs|
  {
    if |cs| > 0 {
      var prefix, x := cs[..|cs| - 1], cs[|cs| - 1];
      DupsPlusDistinct(prefix);
      if x in Elems(prefix) {
        assert Elems(cs) == Elems(prefix);
      } else {
        assert |Elems(cs)| == |Elems(prefix)| + 1;
      }
    }
  }

  /** Closing one more instance adds its fingerprint, and a duplicate when it was seen. */
  lemma ElemsDupsAppend<T>(cs: seq<T>, x: T)
    ensures Elems(cs + [x]) == Elems(cs) + {x}
    ensures Dups(cs + [x]) == Dups(cs) + (if x in Elems(cs) then 1 else 0)
  {
    assert (cs + [x])[..|cs|] == cs;
  }

  /** A subject that comes back after another one starts a second instance. */
  lemma ReturningSubjectCountsTwice(a: Quad, b: Quad, c: Quad)
    requires a.subj == c.subj && a.subj != b.subj
    ensures |Runs([a, b, c])| == 3
  {
    assert [a, b, c][..2] == [a, b];
    assert [a, b][..1] == [a];
    assert [a][..0] == [];
  }

  /**
   * What compute keeps between quads: the open instance (its subject and
   * statements), the fingerprints shown to the filter, the duplicates found
   * and the instances created.
   */
  datatype State = State(subject: Option<Subject>, stmts: Option<set<Stmt>>,
                         seen: set<set<Stmt>>, dupl: nat, created: nat)

  /** What compute does with one quad, the filter being exact. */
  function Step(st: State, q: Quad): State
    requires st.subject.Some? ==> st.stmts.Some?
  {
    if st.subject == Some(q.subj) then st.(stmts := Some(st.stmts.value + {StmtOf(q)}))
    else
      var closed := if st.stmts.Some? then {st.stmts.value} else {};
      var dup := st.stmts.Some? && st.stmts.value in st.seen;
      State(Some(q.subj), Some({StmtOf(q)}), st.seen + closed, st.dupl + (if dup then 1 else 0), st.created + 1)
  }

  /** The state stands for the stream: it is what the stream's runs determine. */
  ghost predicate Tracks(s: seq<Quad>, st: State)
  {
    (|s| == 0 ==> st.subject.None? && st.stmts.None?)
    && (|s| > 0 ==> st.subject == Some(LastRun(s).subject) && st.stmts == Some(LastRun(s).stmts))
    && st.seen == Elems(Completed(s))
    && st.dupl == Dups(Completed(s))
    && st.created == |Runs(s)|
  }

  /** The step compute takes keeps the state in step with the stream. */
  lemma TracksAppend(s: seq<Quad>, q: Quad, st: State)
    requires Tracks(s, st)
    ensures st.subject.Some? ==> st.stmts.Some?
    ensures Tracks(s + [q], Step(st, q))
  {
    RunsAppend(s, q);
    if |s| > 0 && st.subject != Some(q.subj) {
      ElemsDupsAppend(Completed(s), st.stmts.value);
    }
  }

  /**
   * An instance's fingerprint is a set: quads about the open instance's
   * subject give the same state in either order.
   */
  lemma SameSubjectOrderIrrelevant(st: State, q1: Quad, q2: Quad)
    requires st.subject == Some(q1.subj) && q2.subj == q1.subj && st.stmts.Some?
    ensures Step(Step(st, q1), q2) == Step(Step(st, q2), q1)
  {
    var stmts := st.stmts.value;
    assert stmts + {StmtOf(q1)} + {StmtOf(q2)} == stmts + {StmtOf(q2)} + {StmtOf(q1)};
  }

  /** A quad repeated straight away changes nothing. */
  lemma RepeatedQuadChangesNothing(st: State, q: Quad)
    requires st.subject.Some? ==> st.stmts.Some?
    ensures Step(Step(st, q), q) == Step(st, q)
  {
    var next := Step(st, q);
    assert next.stmts.value + {StmtOf(q)} == next.stmts.value;
  }

  const INITIAL := State(None, None, {}, 0, 0)

  /** The state after compute has consumed a whole stream. */
  function Replay(s: seq<Quad>): (r: State)
    ensures r.subject.Some? ==> r.stmts.Some?
  {
    if |s| == 0 then INITIAL else Step(Replay(s[..|s| - 1]), s[|s| - 1])
  }

  /** The state compute builds stands for the stream's runs. */
  lemma {:induction false} ReplayTracks(s: seq<Quad>)
    ensures Tracks(s, Replay(s))
  {
    if |s| > 0 {
      ReplayTracks(s[..|s| - 1]);
      TracksAppend(s[..|s| - 1], s[|s| - 1], Replay(s[..|s| - 1]));
      assert s[..|s| - 1] + [s[|s| - 1]] == s;
    }
  }

  /**
   * With an exact filter the duplicates are the closed instances whose
   * statements repeat an earlier closed instance's, and
   * created - duplicates counts the distinct closed fingerprints plus the
   * open instance.
   */
  lemma UniqueInstances(s: seq<Quad>)
    requires |s| > 0
    ensures Replay(s).dupl < Replay(s).created
    ensures Replay(s).created - Replay(s).dupl == |Elems(Completed(s))| + 1
  {
    ReplayTracks(s);
    DupsPlusDistinct(Completed(s));
  }

  // ---------------------------------------------------------------
  // The metric
  // ---------------------------------------------------------------

  class EstimatedExtensionalConciseness {
    /** The filter built by before(), if it has been built. */
    var filter: Option<FilterParams>
    /** The fingerprints the filter has been shown. */
    var seen: set<set<Stmt>>
    var currentSubject: Option<Subject>
    var currentStatements: Option<set<Stmt>>
    var estimatedDuplInstances: nat
    var totalCreatedInstances: nat
    var totalTriples: nat
    /** The quads consumed so far. */
    ghost var stream: seq<Quad>

    function Current(): State
      reads `currentSubject, `currentStatements, `seen, `estimatedDuplInstances, `totalCreatedInstances
    {
      State(currentSubject, currentStatements, seen, estimatedDuplInstances, totalCreatedInstances)
    }

    ghost predicate Valid()
      reads this
    {
      totalTriples == |stream|
      && (|stream| > 0 ==> filter.Some?)
      && Current() == Replay(stream)
    }

    constructor()
      ensures Valid() && stream == [] && filter.None?
    {
      filter := None;
      seen := {};
      currentSubject := None;
      currentStatements := None;
      estimatedDuplInstances := 0;
      totalCreatedInstances := 0;
      totalTriples := 0;
      stream := [];
    }

    /**
     * before, as evidently intended: build an empty filter whose size is an
     * Integer first argument, or the default size. FilterSetup models the
     * code as written, whose inverted instanceof test ignores an Integer and
     * makes any other argument throw.
     */
    method Before(args: Option<seq<Arg>>)
      requires Valid() && stream == []
      modifies `filter, `seen
      ensures Valid()
      ensures filter == Some(IntendedFilterSetup(args)) && seen == {}
      ensures args.Some? && |args.value| > 0 && args.value[0].IntArg? ==> filter.value.size == args.value[0].n
    {
      filter := Some(IntendedFilterSetup(args));
      seen := {};
    }

    /**
     * checkDuplicate: whether the fingerprint was shown before; it is
     * recorded either way.
     */
    method CheckDuplicate(fingerprint: set<Stmt>) returns (dup: bool)
      modifies `seen
      ensures dup <==> fingerprint in old(seen)
      ensures seen == old(seen) + {fingerprint}
    {
      dup := fingerprint in seen;
      seen := seen + {fingerprint};
    }

    /**
     * compute: a subject other than the current one closes the current
     * instance (counting it as a duplicate if its fingerprint was seen) and
     * opens a new one; the quad's statement joins the open instance.
     */
    method Compute(q: Quad)
      requires Valid() && filter.Some?
      modifies this
      ensures Valid() && stream == old(stream) + [q] && filter == old(filter)
      ensures totalTriples == old(totalTriples) + 1
      ensures old(currentSubject).Some? ==> old(currentStatements).Some?
      ensures Current() == Step(old(Current()), q)
    {
      totalTriples := totalTriples + 1;
      var statement := StmtOf(q);
      if currentSubject != Some(q.subj) {
        if currentStatements.Some? {
          var dup := CheckDuplicate(currentStatements.value);
          if dup {
            estimatedDuplInstances := estimatedDuplInstances + 1;
          }
        }
        currentStatements := Some({});
        currentSubject := Some(q.subj);
        totalCreatedInstances := totalCreatedInstances + 1;
        assert {} + {statement} == {statement};
      }
      currentStatements := Some(currentStatements.value + {statement});
      stream := stream + [q];
      assert stream[..|stream| - 1] == old(stream);
    }

    /** metricValue: (created - duplicates) / created. */
    function MetricValue(): (r: Double)
      reads `totalCreatedInstances, `estimatedDuplInstances
      requires estimatedDuplInstances <= totalCreatedInstances
      ensures r.NaN? <==> totalCreatedInstances == 0
      ensures r.Num? ==> InUnit(r)
      ensures r.Num? ==> r.value * totalCreatedInstances as real == (totalCreatedInstances - estimatedDuplInstances) as real
      ensures r.Num? ==> (r.value > 0.0 <==> estimatedDuplInstances < totalCreatedInstances)
    {
      var created := totalCreatedInstances as real;
      var unique := (totalCreatedInstances - estimatedDuplInstances) as real;
      if created == 0.0 then Div(unique, created)
      else
        QuotientInUnit(unique, created);
        Div(unique, created)
    }

    /**
     * With an exact filter, once a quad was seen, fewer duplicates than
     * instances were found, and created - duplicates is the number of
     * distinct closed fingerprints plus the open instance: the value is
     * positive and counts distinct instances.
     */
    lemma CountersCountDistinctInstances()
      requires Valid()
      ensures |stream| == 0 ==> totalCreatedInstances == 0 && estimatedDuplInstances == 0
      ensures |stream| > 0 ==>
        estimatedDuplInstances < totalCreatedInstances
        && totalCreatedInstances - estimatedDuplInstances == |Elems(Completed(stream))| + 1
    {
      if |stream| > 0 {
        UniqueInstances(stream);
      }
    }
  }
}
