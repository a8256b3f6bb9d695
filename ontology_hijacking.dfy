/**
 * OntologyHijacking: the share of redefinitions of vocabulary classes and
 * properties that the assessed dataset is authoritative for. A quad can
 * trigger the hijacking rules of Hogan et al. (SAOR, table 1) either as an
 * rdf:type quad whose class is a rule's term, or as a quad whose predicate
 * is a rule's term.
 */
module OntologyHijacking {
  import opened Rdf
  import JavaStrings
  import opened Streams
  import opened Vocabulary

  // ---------------------------------------------------------------
  // The terms of the rule table
  // ---------------------------------------------------------------

  /** The RDFS and OWL terms the hijacking rules are about. */
  datatype Term =
    | SubClassOf | EquivalentClass | SubPropertyOf | EquivalentProperty | InverseOf
    | Domain | Range | SymmetricProperty | OnProperty | HasValue | UnionOf
    | IntersectionOf | FunctionalProperty | InverseFunctionalProperty | TransitiveProperty

  function Iri(t: Term): string
  {
    match t
    case SubClassOf => RDFS_SUBCLASSOF
    case EquivalentClass => OWL_EQUIVALENT_CLASS
    case SubPropertyOf => RDFS_SUBPROPERTYOF
    case EquivalentProperty => OWL_EQUIVALENT_PROPERTY
    case InverseOf => OWL_INVERSE_OF
    case Domain => RDFS_DOMAIN
    case Range => RDFS_RANGE
    case SymmetricProperty => OWL_SYMMETRIC_PROPERTY
    case OnProperty => OWL_ON_PROPERTY
    case HasValue => OWL_HAS_VALUE
    case UnionOf => OWL_UNION_OF
    case IntersectionOf => OWL_INTERSECTION_OF
    case FunctionalProperty => OWL_FUNCTIONAL_PROPERTY
    case InverseFunctionalProperty => OWL_INVERSE_FUNCTIONAL_PROPERTY
    case TransitiveProperty => OWL_TRANSITIVE_PROPERTY
  }

  function TermIf(u: string, t: Term): Option<Term>
  {
    if u == Iri(t) then Some(t) else None
  }

  /**
   * Reads a term back from its URI. The URIs are told apart by their length
   * first, so only URIs of equal length are ever compared.
   */
  function TermOf(u: string): (r: Option<Term>)
    ensures r.Some? ==> u == Iri(r.value)
  {
    match |u|
    case 37 => TermIf(u, UnionOf)
    case 38 => TermIf(u, HasValue)
    case 39 => TermIf(u, InverseOf)
    case 40 => TermIf(u, OnProperty)
    case 42 => TermIf(u, Range)
    case 43 => TermIf(u, Domain)
    case 44 => TermIf(u, IntersectionOf)
    case 45 => TermIf(u, EquivalentClass)
    case 47 => if u == Iri(SubClassOf) then Some(SubClassOf) else TermIf(u, SymmetricProperty)
    case 48 =>
      if u == Iri(EquivalentProperty) then Some(EquivalentProperty)
      else if u == Iri(FunctionalProperty) then Some(FunctionalProperty)
      else TermIf(u, TransitiveProperty)
    case 50 => TermIf(u, SubPropertyOf)
    case 55 => TermIf(u, InverseFunctionalProperty)
    case _ => None
  }

  /** The terms whose URIs share their length with another term's URI. */
  predicate SharesLength(t: Term)
  {
    t.SubClassOf? || t.SymmetricProperty? || t.EquivalentProperty? || t.FunctionalProperty? || t.TransitiveProperty?
  }

  lemma TermOfSharedLength(t: Term)
    requires SharesLength(t)
    ensures TermOf(Iri(t)) == Some(t)
  {
  }

  lemma TermOfRdfs(t: Term)
    requires t.SubPropertyOf? || t.Domain? || t.Range? || t.EquivalentClass? || t.InverseOf?
    ensures TermOf(Iri(t)) == Some(t)
  {
  }

  lemma TermOfOwl(t: Term)
    requires t.OnProperty? || t.HasValue? || t.UnionOf? || t.IntersectionOf? || t.InverseFunctionalProperty?
    ensures TermOf(Iri(t)) == Some(t)
  {
  }

  /** Every term is read back from its URI. */
  lemma TermOfIri(t: Term)
    ensures TermOf(Iri(t)) == Some(t)
  {
    if SharesLength(t) {
      TermOfSharedLength(t);
    } else if t.SubPropertyOf? || t.Domain? || t.Range? || t.EquivalentClass? || t.InverseOf? {
      TermOfRdfs(t);
    } else {
      TermOfOwl(t);
    }
  }

  /** Distinct terms have distinct URIs. */
  lemma IriInjective(a: Term, b: Term)
    ensures Iri(a) == Iri(b) ==> a == b
  {
    TermOfIri(a);
    TermOfIri(b);
  }

  // ---------------------------------------------------------------
  // The rules
  // ---------------------------------------------------------------

  /** TriplePosition. */
  datatype TriplePosition = SubjectPosition | PredicatePosition | ObjectPosition

  /** HijackingRule: a term and the position whose authority the rule checks. */
  datatype HijackingRule = HijackingRule(hijackProperty: Term, authoritativeSource: TriplePosition)

  /** The rules of one term, one per position, in table order. */
  datatype RuleGroup = RuleGroup(property: Term, positions: seq<TriplePosition>)

  /** The rule table, written as one group per term in the order of the table. */
  const RULE_GROUPS: seq<RuleGroup> := [
    RuleGroup(SubClassOf, [SubjectPosition]),
    RuleGroup(EquivalentClass, [SubjectPosition, ObjectPosition]),
    RuleGroup(SubPropertyOf, [SubjectPosition]),
    RuleGroup(EquivalentProperty, [SubjectPosition, ObjectPosition]),
    RuleGroup(InverseOf, [SubjectPosition, ObjectPosition]),
    RuleGroup(Domain, [SubjectPosition]),
    RuleGroup(Range, [SubjectPosition]),
    RuleGroup(SymmetricProperty, [SubjectPosition]),
    RuleGroup(OnProperty, [ObjectPosition]),
    RuleGroup(HasValue, [SubjectPosition]),
    RuleGroup(UnionOf, [ObjectPosition]),
    RuleGroup(IntersectionOf, [SubjectPosition, ObjectPosition]),
    RuleGroup(FunctionalProperty, [SubjectPosition]),
    RuleGroup(InverseFunctionalProperty, [SubjectPosition]),
    RuleGroup(TransitiveProperty, [SubjectPosition])
  ]

  /** The rules of a group. */
  function Expand(g: RuleGroup): (r: seq<HijackingRule>)
    ensures |r| == |g.positions|
    decreases |g.positions|
  {
    if |g.positions| == 0 then []
    else
      var n := |g.positions| - 1;
      Expand(RuleGroup(g.property, g.positions[..n])) + [HijackingRule(g.property, g.positions[n])]
  }

  function Flatten(groups: seq<RuleGroup>): seq<HijackingRule>
  {
    if |groups| == 0 then [] else Flatten(groups[..|groups| - 1]) + Expand(groups[|groups| - 1])
  }

  /** hijackingRules: the nineteen rules, in the order they are added. */
  const HIJACKING_RULES: seq<HijackingRule> := Flatten(RULE_GROUPS)

  /** Each term has one group, of at most two rules. */
  lemma RuleGroupsDistinct()
    ensures forall i, j :: 0 <= i < j < |RULE_GROUPS| ==> RULE_GROUPS[i].property != RULE_GROUPS[j].property
    ensures forall i :: 0 <= i < |RULE_GROUPS| ==> 1 <= |RULE_GROUPS[i].positions| <= 2
  {
  }

  /**
   * HijackingRule.equals: a rule equals an object exactly when the object is
   * a resource equal to the rule's term, that is the URI node of the term.
   */
  predicate RuleEquals(rule: HijackingRule, o: Node)
  {
    o.Uri? && o.uri == Iri(rule.hijackProperty)
  }

  /** ArrayList.contains with the overridden indexOf: some rule equals o. */
  predicate HasRule(rules: seq<HijackingRule>, o: Node)
  {
    exists j :: 0 <= j < |rules| && RuleEquals(rules[j], o)
  }

  /**
   * CustomList.indexOf: the first position whose rule equals o, or -1. The
   * list holds no null entry, so looking for null finds nothing.
   */
  method IndexOf(rules: seq<HijackingRule>, o: Option<Node>) returns (r: int)
    ensures -1 <= r < |rules|
    ensures r == -1 <==> o.None? || !HasRule(rules, o.value)
    ensures r >= 0 ==> o.Some? && RuleEquals(rules[r], o.value)
    ensures r >= 0 ==> forall j :: 0 <= j < r ==> !RuleEquals(rules[j], o.value)
  {
    if o.None? {
      return -1;
    }
    var i := 0;
    while i < |rules|
      invariant 0 <= i <= |rules|
      invariant forall j :: 0 <= j < i ==> !RuleEquals(rules[j], o.value)
    {
      if RuleEquals(rules[i], o.value) {
        return i;
      }
      i := i + 1;
    }
    return -1;
  }

  /** The rules whose term satisfies hit, in list order. */
  function RulesWith(rules: seq<HijackingRule>, hit: Term -> bool): (r: seq<HijackingRule>)
    ensures |r| <= |rules|
  {
    if |rules| == 0 then []
    else
      var last := rules[|rules| - 1];
      RulesWith(rules[..|rules| - 1], hit) + (if hit(last.hijackProperty) then [last] else [])
  }

  /** The terms whose URI node is o. */
  function NamedBy(o: Node): Term -> bool
  {
    t => o.Uri? && o.uri == Iri(t)
  }

  /** The rules that equal o, in list order. */
  function RulesFor(rules: seq<HijackingRule>, o: Node): seq<HijackingRule>
  {
    RulesWith(rules, NamedBy(o))
  }

  lemma {:induction false} RulesWithAppend(a: seq<HijackingRule>, b: seq<HijackingRule>, hit: Term -> bool)
    ensures RulesWith(a + b, hit) == RulesWith(a, hit) + RulesWith(b, hit)
    decreases |b|
  {
    if |b| > 0 {
      var init := b[..|b| - 1];
      assert (a + b)[..|a + b| - 1] == a + init;
      assert (a + b)[|a + b| - 1] == b[|b| - 1];
      RulesWithAppend(a, init, hit);
    } else {
      assert a + b == a;
    }
  }

  /** A group's rules all share its term: they are all selected or none is. */
  lemma {:induction false} RulesWithGroup(positions: seq<TriplePosition>, t: Term, hit: Term -> bool)
    ensures RulesWith(Expand(RuleGroup(t, positions)), hit) ==
      if hit(t) then Expand(RuleGroup(t, positions)) else []
    decreases |positions|
  {
    if |positions| > 0 {
      var init := positions[..|positions| - 1];
      RulesWithGroup(init, t, hit);
      var rules := Expand(RuleGroup(t, positions));
      assert rules[..|rules| - 1] == Expand(RuleGroup(t, init));
    }
  }

  /**
   * In a table of groups of which at most one has a selected term, the
   * selected rules are those of that group, or none.
   */
  lemma {:induction false} RulesWithGroups(groups: seq<RuleGroup>, hit: Term -> bool)
    requires forall i, j :: 0 <= i < j < |groups| ==> !(hit(groups[i].property) && hit(groups[j].property))
    ensures (forall i :: 0 <= i < |groups| ==> !hit(groups[i].property)) ==> RulesWith(Flatten(groups), hit) == []
    ensures forall k :: 0 <= k < |groups| && hit(groups[k].property) ==> RulesWith(Flatten(groups), hit) == Expand(groups[k])
  {
    if |groups| > 0 {
      var init, last := groups[..|groups| - 1], groups[|groups| - 1];
      assert forall i :: 0 <= i < |init| ==> init[i] == groups[i];
      RulesWithGroups(init, hit);
      RulesWithAppend(Flatten(init), Expand(last), hit);
      RulesWithGroup(last.positions, last.property, hit);
      assert Flatten(groups) == Flatten(init) + Expand(last);
      assert RulesWith(Flatten(groups), hit) == RulesWith(Flatten(init), hit) + RulesWith(Expand(last), hit);
      forall k | 0 <= k < |groups| && hit(groups[k].property)
        ensures RulesWith(Flatten(groups), hit) == Expand(groups[k])
      {
        if k < |groups| - 1 {
          assert !hit(last.property);
          assert RulesWith(Flatten(init), hit) == Expand(groups[k]);
        } else {
          assert RulesWith(Flatten(init), hit) == [];
        }
      }
    }
  }

  /** The selected rules are exactly the ones whose term is selected. */
  lemma {:induction false} RulesWithExact(rules: seq<HijackingRule>, hit: Term -> bool)
    ensures forall r :: r in RulesWith(rules, hit) ==> hit(r.hijackProperty)
    ensures RulesWith(rules, hit) != [] <==> exists j :: 0 <= j < |rules| && hit(rules[j].hijackProperty)
  {
    if |rules| > 0 {
      var init, last := rules[..|rules| - 1], rules[|rules| - 1];
      RulesWithExact(init, hit);
      ExistsLast(rules, init, (r: HijackingRule) => hit(r.hijackProperty));
    }
  }

  /**
   * The rule table: a URI that is one of the terms is matched by exactly that
   * term's rules, so no URI is matched by more than two rules.
   */
  lemma RulesForTable(o: Node)
    ensures |RulesFor(HIJACKING_RULES, o)| <= 2
    ensures forall r :: r in RulesFor(HIJACKING_RULES, o) ==> RuleEquals(r, o)
    ensures RulesFor(HIJACKING_RULES, o) != [] <==> HasRule(HIJACKING_RULES, o)
    ensures forall k :: 0 <= k < |RULE_GROUPS| && o == Uri(Iri(RULE_GROUPS[k].property)) ==>
      RulesFor(HIJACKING_RULES, o) == Expand(RULE_GROUPS[k])
  {
    NamedByOneGroup(o);
    RuleGroupsDistinct();
    RulesWithGroups(RULE_GROUPS, NamedBy(o));
    RulesWithExact(HIJACKING_RULES, NamedBy(o));
  }

  /** The groups' URIs are distinct, so a node names the term of one group at most. */
  lemma NamedByOneGroup(o: Node)
    ensures forall i, j :: 0 <= i < j < |RULE_GROUPS| ==>
      !(NamedBy(o)(RULE_GROUPS[i].property) && NamedBy(o)(RULE_GROUPS[j].property))
  {
    RuleGroupsDistinct();
    forall i, j | 0 <= i < j < |RULE_GROUPS|
      ensures Iri(RULE_GROUPS[i].property) != Iri(RULE_GROUPS[j].property)
    {
      IriInjective(RULE_GROUPS[i].property, RULE_GROUPS[j].property);
    }
  }

  /** The loop that collects the rules equal to o. */
  method SelectRules(rules: seq<HijackingRule>, o: Node) returns (selected: seq<HijackingRule>)
    ensures selected == RulesFor(rules, o)
  {
    selected := [];
    var i := 0;
    while i < |rules|
      invariant 0 <= i <= |rules|
      invariant selected == RulesFor(rules[..i], o)
    {
      assert rules[..i + 1][..i] == rules[..i];
      if RuleEquals(rules[i], o) {
        selected := selected + [rules[i]];
      }
      i := i + 1;
    }
    assert rules[..i] == rules;
  }

  // ---------------------------------------------------------------
  // Authority and the effect of one quad
  // ---------------------------------------------------------------

  /**
   * isAuthorative: a blank node always; a URI when its namespace contains
   * the dataset's pay-level domain, or else when its vocabulary does not
   * define it.
   */
  predicate IsAuthoritative(checkTerm: TermCheck, nameSpace: NameSpaceOf, datasetPLD: string, n: Subject)
  {
    n.Blank? || JavaStrings.Contains(nameSpace(n.uri), datasetPLD) || !checkTerm(n.uri)
  }

  /** With an empty pay-level domain every node is authoritative. */
  lemma EmptyDomainAuthoritative(checkTerm: TermCheck, nameSpace: NameSpaceOf, n: Subject)
    ensures IsAuthoritative(checkTerm, nameSpace, "", n)
  {
    if n.Uri? {
      JavaStrings.ContainsBounds(nameSpace(n.uri), "");
    }
  }

  /** The node a rule checks: the subject, or else the object. */
  function AuthoritativeCheck(rule: HijackingRule, q: Quad): Subject
    requires q.obj.Uri?
  {
    if rule.authoritativeSource == SubjectPosition then q.subj else q.obj
  }

  /** The number of the rules whose checked node is not authoritative. */
  function RuleHijacks(auth: Subject -> bool, rules: seq<HijackingRule>, q: Quad): (r: nat)
    requires q.obj.Uri?
    ensures r <= |rules|
  {
    if |rules| == 0 then 0
    else RuleHijacks(auth, rules[..|rules| - 1], q) + (if auth(AuthoritativeCheck(rules[|rules| - 1], q)) then 0 else 1)
  }

  /** A quad is a possible hijack: a rule is triggered by its class or by its predicate. */
  predicate Triggers(rules: seq<HijackingRule>, q: Quad)
  {
    q.obj.Uri? && (if q.pred == RDF_TYPE then HasRule(rules, q.obj) else HasRule(rules, Uri(q.pred)))
  }

  /** The hijacks one quad adds. */
  function Hijacks(rules: seq<HijackingRule>, auth: Subject -> bool, q: Quad): nat
  {
    if !q.obj.Uri? then 0
    else if q.pred == RDF_TYPE then
      if HasRule(rules, q.obj) && !auth(q.subj) then 1 else 0
    else if HasRule(rules, Uri(q.pred)) then RuleHijacks(auth, RulesFor(rules, Uri(q.pred)), q)
    else 0
  }

  /** The rule checks one quad makes: one for a class, one per matching rule for a predicate. */
  function RuleChecks(rules: seq<HijackingRule>, q: Quad): nat
  {
    if !Triggers(rules, q) then 0
    else if q.pred == RDF_TYPE then 1
    else |RulesFor(rules, Uri(q.pred))|
  }

  /**
   * One quad adds at most two hijacks, none unless it is a possible hijack,
   * and never more than the rule checks it makes.
   */
  lemma HijacksPerQuad(auth: Subject -> bool, q: Quad)
    ensures Hijacks(HIJACKING_RULES, auth, q) <= (if Triggers(HIJACKING_RULES, q) then 2 else 0)
    ensures Hijacks(HIJACKING_RULES, auth, q) <= RuleChecks(HIJACKING_RULES, q)
    ensures RuleChecks(HIJACKING_RULES, q) <= (if Triggers(HIJACKING_RULES, q) then 2 else 0)
  {
    RulesForTable(Uri(q.pred));
  }

  // ---------------------------------------------------------------
  // The metric value
  // ---------------------------------------------------------------

  function Abs(x: real): real
  {
    if x < 0.0 then -x else x
  }

  /** The rule checks compute makes on a quad with the rule table above. */
  function TableChecks(q: Quad): nat
  {
    RuleChecks(HIJACKING_RULES, q)
  }

  /**
   * metricValue: 1.0 without possible hijacks, else |1 - hijacks/possible|.
   * As one quad may add two hijacks, hijacks can exceed possible, and the
   * absolute value then climbs back towards 1.0.
   */
  function HijackingValue(hijacks: nat, possible: nat): (r: real)
    requires hijacks <= 2 * possible
    ensures 0.0 <= r <= 1.0
    ensures possible == 0 ==> r == 1.0
    ensures possible > 0 && hijacks <= possible ==> r == 1.0 - hijacks as real / possible as real
    ensures r == 1.0 <==> hijacks == 0 || hijacks == 2 * possible
  {
    if possible == 0 then 1.0
    else
      var ratio := hijacks as real / possible as real;
      RatioBounds(hijacks, possible);
      Abs(1.0 - ratio)
  }

  lemma RatioBounds(hijacks: nat, possible: nat)
    requires hijacks <= 2 * possible && possible > 0
    ensures 0.0 <= hijacks as real / possible as real <= 2.0
    ensures hijacks as real / possible as real == 0.0 <==> hijacks == 0
    ensures hijacks as real / possible as real == 2.0 <==> hijacks == 2 * possible
    ensures hijacks <= possible ==> hijacks as real / possible as real <= 1.0
    ensures hijacks as real / possible as real * possible as real == hijacks as real
  {
    var h, p := hijacks as real, possible as real;
    var ratio := h / p;
    assert ratio * p == h;
    assert (2.0 - ratio) * p == 2.0 * p - h;
    assert (1.0 - ratio) * p == p - h;
  }

  /**
   * The value the metric evidently intends: one minus the share of rule
   * checks that found a hijack, so that a dataset whose every check fails
   * scores 0.
   */
  function IntendedValue(hijacks: nat, checks: nat): (r: real)
    requires hijacks <= checks
    ensures 0.0 <= r <= 1.0
    ensures r == 1.0 <==> hijacks == 0
    ensures r == 0.0 <==> checks > 0 && hijacks == checks
  {
    if checks == 0 then 1.0
    else
      var share := hijacks as real / checks as real;
      assert share * checks as real == hijacks as real;
      1.0 - share
  }

  /** The test's dataset: five possible hijacks, two of them actual, give 0.6. */
  lemma TestExpectation()
    ensures HijackingValue(2, 5) == 0.6
  {
  }

  /**
   * As written, a dataset made of one owl:equivalentClass quad between two
   * classes of foreign vocabularies has two hijacks out of one possible, and
   * scores 1.0, the best value; the intended value is 0.
   */
  lemma EquivalentClassScoresBest(s: Subject, o: string)
    requires s.Uri?
    ensures var q := Quad(s, OWL_EQUIVALENT_CLASS, Uri(o));
      var auth := (n: Subject) => false;
      Triggers(HIJACKING_RULES, q) && Hijacks(HIJACKING_RULES, auth, q) == 2 &&
      RuleChecks(HIJACKING_RULES, q) == 2 &&
      HijackingValue(2, 1) == 1.0 && IntendedValue(2, 2) == 0.0
  {
    var q := Quad(s, OWL_EQUIVALENT_CLASS, Uri(o));
    var auth := (n: Subject) => false;
    RulesForTable(Uri(OWL_EQUIVALENT_CLASS));
    assert RULE_GROUPS[1].property == EquivalentClass;
    var rules := RulesFor(HIJACKING_RULES, Uri(OWL_EQUIVALENT_CLASS));
    assert rules == Expand(RULE_GROUPS[1]);
    assert rules[..1][..0] == [];
    assert rules[..|rules| - 1] == rules[..1];
    assert RuleHijacks(auth, rules, q) == 2;
  }

  // ---------------------------------------------------------------
  // The metric
  // ---------------------------------------------------------------

  class OntologyHijacking {
    /** The vocabulary service and Jena's namespace split. */
    const checkTerm: TermCheck
    const nameSpace: NameSpaceOf
    /** dataset_pld. */
    const datasetPLD: string
    const hijackingRules: seq<HijackingRule>
    var totalPossibleHijacks: nat
    var totalHijacks: nat
    /** The quads consumed so far. */
    ghost var stream: seq<Quad>

    /** isAuthorative, with this metric's vocabulary and domain. */
    ghost function Authority(): Subject -> bool
    {
      (n: Subject) => IsAuthoritative(checkTerm, nameSpace, datasetPLD, n)
    }

    ghost predicate Valid()
      reads this
    {
      hijackingRules == HIJACKING_RULES
      && totalHijacks == Total(stream, q => Hijacks(HIJACKING_RULES, Authority(), q))
      && totalPossibleHijacks == Count(stream, q => Triggers(HIJACKING_RULES, q))
    }

    constructor(checkTerm: TermCheck, nameSpace: NameSpaceOf, datasetPLD: string)
      ensures Valid() && stream == []
      ensures this.checkTerm == checkTerm && this.nameSpace == nameSpace && this.datasetPLD == datasetPLD
      ensures totalPossibleHijacks == 0 && totalHijacks == 0
    {
      this.checkTerm := checkTerm;
      this.nameSpace := nameSpace;
      this.datasetPLD := datasetPLD;
      hijackingRules := HIJACKING_RULES;
      totalPossibleHijacks := 0;
      totalHijacks := 0;
      stream := [];
    }

    /**
     * compute: a quad with a URI object that triggers a rule is one more
     * possible hijack; it is an actual hijack once per triggered rule whose
     * checked node the dataset is not authoritative for. Other quads change
     * nothing.
     */
    method Compute(q: Quad)
      requires Valid()
      modifies `totalPossibleHijacks, `totalHijacks, `stream
      ensures Valid() && stream == old(stream) + [q]
      ensures totalHijacks == old(totalHijacks) + Hijacks(HIJACKING_RULES, Authority(), q)
      ensures totalPossibleHijacks == old(totalPossibleHijacks) + (if Triggers(HIJACKING_RULES, q) then 1 else 0)
      ensures !q.obj.Uri? ==> totalHijacks == old(totalHijacks) && totalPossibleHijacks == old(totalPossibleHijacks)
    {
      if !q.obj.Uri? {
        // an object that is not a URI is not tested
      } else if q.pred == RDF_TYPE {
        var at := IndexOf(hijackingRules, Some(q.obj));
        if at >= 0 {
          if !IsAuthoritative(checkTerm, nameSpace, datasetPLD, q.subj) {
            totalHijacks := totalHijacks + 1;
          }
          totalPossibleHijacks := totalPossibleHijacks + 1;
        }
      } else {
        var at := IndexOf(hijackingRules, Some(Uri(q.pred)));
        if at >= 0 {
          var rules := SelectRules(hijackingRules, Uri(q.pred));
          var hijacks := CountRuleHijacks(rules, q);
          totalHijacks := totalHijacks + hijacks;
          totalPossibleHijacks := totalPossibleHijacks + 1;
        }
      }
      TotalAppend(stream, q, x => Hijacks(HIJACKING_RULES, Authority(), x));
      CountAppend(stream, q, x => Triggers(HIJACKING_RULES, x));
      stream := stream + [q];
    }

    /** The loop over the selected rules: how many of their checked nodes are not authoritative. */
    method CountRuleHijacks(rules: seq<HijackingRule>, q: Quad) returns (hijacks: nat)
      requires q.obj.Uri?
      ensures hijacks == RuleHijacks(Authority(), rules, q)
    {
      hijacks := 0;
      var i := 0;
      while i < |rules|
        invariant 0 <= i <= |rules|
        invariant hijacks == RuleHijacks(Authority(), rules[..i], q)
      {
        assert rules[..i + 1][..i] == rules[..i];
        if !IsAuthoritative(checkTerm, nameSpace, datasetPLD, AuthoritativeCheck(rules[i], q)) {
          hijacks := hijacks + 1;
        }
        i := i + 1;
      }
      assert rules[..i] == rules;
    }

    /** At most two hijacks per possible hijack, and no more than the rule checks made. */
    lemma HijacksBounded()
      requires Valid()
      ensures totalHijacks <= 2 * totalPossibleHijacks
      ensures totalHijacks <= Total(stream, TableChecks)
    {
      var hijacks := q => Hijacks(HIJACKING_RULES, Authority(), q);
      var triggers := q => Triggers(HIJACKING_RULES, q);
      var checks := TableChecks;
      forall q
        ensures hijacks(q) <= (if triggers(q) then 2 else 0) && hijacks(q) <= checks(q)
      {
        HijacksPerQuad(Authority(), q);
      }
      TotalDominated(stream, hijacks, triggers, 2);
      TotalMonotone(stream, hijacks, checks);
    }

    /**
     * metricValue: in [0, 1], 1.0 when nothing is a possible hijack, and
     * 1 - hijacks/possible while hijacks do not outnumber possible hijacks.
     */
    function MetricValue(): (r: real)
      reads this
      requires Valid()
      ensures 0.0 <= r <= 1.0
      ensures totalPossibleHijacks == 0 ==> r == 1.0
      ensures totalPossibleHijacks > 0 && totalHijacks <= totalPossibleHijacks ==>
        r == 1.0 - totalHijacks as real / totalPossibleHijacks as real
      ensures r == 1.0 <==> totalHijacks == 0 || totalHijacks == 2 * totalPossibleHijacks
    {
      HijacksBounded();
      HijackingValue(totalHijacks, totalPossibleHijacks)
    }

    /**
     * The corrected value: the share of rule checks that found no hijack.
     * Unlike metricValue it only reaches 1.0 when nothing was hijacked.
     */
    ghost function IntendedMetricValue(): (r: real)
      reads this
      requires Valid()
      ensures 0.0 <= r <= 1.0
      ensures r == 1.0 <==> totalHijacks == 0
      ensures r == 0.0 <==> totalHijacks > 0 && totalHijacks == Total(stream, TableChecks)
    {
      HijacksBounded();
      IntendedValue(totalHijacks, Total(stream, TableChecks))
    }
  }
}
