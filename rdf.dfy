/**
 * The RDF data the metrics consume and the Java value semantics they rely on.
 *
 * A quad is reduced to the three positions the metrics look at: the subject
 * (an IRI or a blank node, as in section 3.1 of RDF 1.1 Concepts), the
 * predicate IRI and the object node. No metric reads the graph name.
 */
module Rdf {

  datatype Option<T> = None | Some(value: T)

  /** The unchecked exceptions a metric can raise while it processes a quad. */
  datatype Fault =
    | NullPointer           // a field or map entry that is still null is dereferenced
    | UnsupportedOperation  // Node.getURI() on a blank node or a literal
    | ClassCast             // a failing (Integer) cast
    | ResourceRequired      // RDFNode.asResource() on a literal
    | MetricProcessing      // a vocabulary lookup failed and was wrapped

  datatype Result<T> = Success(value: T) | Failure(fault: Fault)

  /**
   * A literal always has a datatype (RDF 1.1, section 3.3 of RDF 1.1
   * Concepts): a plain literal's is xsd:string and a language-tagged one's
   * is rdf:langString, so Node.getLiteralDatatype() is never null.
   */
  datatype Node =
    | Uri(uri: string)
    | Blank(id: string)
    | Literal(lex: string, lang: string, dtype: string)

  /** Subjects are never literals. */
  type Subject = n: Node | !n.Literal? witness Blank("")

  datatype Quad = Quad(subj: Subject, pred: string, obj: Node)

  /** Jena's Node.hasURI: a URI node with exactly this URI. */
  predicate HasUri(n: Node, u: string)
  {
    n.Uri? && n.uri == u
  }

  /** Jena's LiteralLabel lexical-form escaping: each '"' becomes '\"'. */
  function EscapeQuotes(lex: string): (r: string)
    ensures forall c :: c in r <==> c in lex || (c == '\\' && '"' in lex)
  {
    if |lex| == 0 then ""
    else
      var rest := EscapeQuotes(lex[1..]);
      assert lex == [lex[0]] + lex[1..];
      (if lex[0] == '"' then "\\\"" else [lex[0]]) + rest
  }

  /**
   * Node.toString() of a literal (RDF 1.1 mode): the quoted, escaped lexical
   * form, then "@" and the language tag, or else "^^" and the datatype URI
   * unless the datatype is xsd:string.
   */
  function PrintedForm(n: Node): (r: string)
    requires n.Literal?
    ensures |r| >= 2 && r[0] == '"'
  {
    "\"" + EscapeQuotes(n.lex) + "\""
      + (if n.lang != "" then "@" + n.lang
         else if n.dtype != XSD_STRING then "^^" + n.dtype
         else "")
  }

  // ---------------------------------------------------------------
  // Vocabulary terms the metrics compare against
  // ---------------------------------------------------------------

  /** RDF.getURI(): the RDF namespace. */
  const RDF_NS := "http://www.w3.org/1999/02/22-rdf-syntax-ns#"
  const RDF_TYPE := "http://www.w3.org/1999/02/22-rdf-syntax-ns#type"
  const RDF_STATEMENT := "http://www.w3.org/1999/02/22-rdf-syntax-ns#Statement"
  const RDF_ALT := "http://www.w3.org/1999/02/22-rdf-syntax-ns#Alt"
  const RDF_BAG := "http://www.w3.org/1999/02/22-rdf-syntax-ns#Bag"
  const RDF_LIST := "http://www.w3.org/1999/02/22-rdf-syntax-ns#List"
  const RDF_SEQ := "http://www.w3.org/1999/02/22-rdf-syntax-ns#Seq"
  const RDF_SUBJECT := "http://www.w3.org/1999/02/22-rdf-syntax-ns#subject"
  const RDF_PREDICATE := "http://www.w3.org/1999/02/22-rdf-syntax-ns#predicate"
  const RDF_OBJECT := "http://www.w3.org/1999/02/22-rdf-syntax-ns#object"
  const RDF_FIRST := "http://www.w3.org/1999/02/22-rdf-syntax-ns#first"
  const RDF_REST := "http://www.w3.org/1999/02/22-rdf-syntax-ns#rest"
  const RDF_NIL := "http://www.w3.org/1999/02/22-rdf-syntax-ns#nil"

  const RDFS_LABEL := "http://www.w3.org/2000/01/rdf-schema#label"
  const RDFS_COMMENT := "http://www.w3.org/2000/01/rdf-schema#comment"
  const RDFS_MEMBER := "http://www.w3.org/2000/01/rdf-schema#member"
  const RDFS_CONTAINER := "http://www.w3.org/2000/01/rdf-schema#Container"
  const RDFS_CONTAINER_MEMBERSHIP_PROPERTY := "http://www.w3.org/2000/01/rdf-schema#ContainerMembershipProperty"
  const RDFS_SUBCLASSOF := "http://www.w3.org/2000/01/rdf-schema#subClassOf"
  const RDFS_SUBPROPERTYOF := "http://www.w3.org/2000/01/rdf-schema#subPropertyOf"
  const RDFS_DOMAIN := "http://www.w3.org/2000/01/rdf-schema#domain"
  const RDFS_RANGE := "http://www.w3.org/2000/01/rdf-schema#range"

  const OWL_EQUIVALENT_CLASS := "http://www.w3.org/2002/07/owl#equivalentClass"
  const OWL_EQUIVALENT_PROPERTY := "http://www.w3.org/2002/07/owl#equivalentProperty"
  const OWL_INVERSE_OF := "http://www.w3.org/2002/07/owl#inverseOf"
  const OWL_SYMMETRIC_PROPERTY := "http://www.w3.org/2002/07/owl#SymmetricProperty"
  const OWL_ON_PROPERTY := "http://www.w3.org/2002/07/owl#onProperty"
  const OWL_HAS_VALUE := "http://www.w3.org/2002/07/owl#hasValue"
  const OWL_UNION_OF := "http://www.w3.org/2002/07/owl#unionOf"
  const OWL_INTERSECTION_OF := "http://www.w3.org/2002/07/owl#intersectionOf"
  const OWL_FUNCTIONAL_PROPERTY := "http://www.w3.org/2002/07/owl#FunctionalProperty"
  const OWL_INVERSE_FUNCTIONAL_PROPERTY := "http://www.w3.org/2002/07/owl#InverseFunctionalProperty"
  const OWL_TRANSITIVE_PROPERTY := "http://www.w3.org/2002/07/owl#TransitiveProperty"

  const DCT_LICENSE := "http://purl.org/dc/terms/license"
  const DCT_RIGHTS := "http://purl.org/dc/terms/rights"
  const DCT_DESCRIPTION := "http://purl.org/dc/terms/description"
  const DCT_CREATOR := "http://purl.org/dc/terms/creator"
  const DCT_PUBLISHER := "http://purl.org/dc/terms/publisher"
  const DC_RIGHTS := "http://purl.org/dc/elements/1.1/rights"

  const VOID_DATASET := "http://rdfs.org/ns/void#Dataset"
  const VOID_DATA_DUMP := "http://rdfs.org/ns/void#dataDump"
  const VOID_URI_REGEX_PATTERN := "http://rdfs.org/ns/void#uriRegexPattern"
  const VOID_VOCABULARY := "http://rdfs.org/ns/void#vocabulary"
  const DCAT_DATASET := "http://www.w3.org/ns/dcat#Dataset"

  const PROV_ENTITY := "http://www.w3.org/ns/prov#Entity"
  const PROV_ACTIVITY := "http://www.w3.org/ns/prov#Activity"
  const PROV_WAS_ATTRIBUTED_TO := "http://www.w3.org/ns/prov#wasAttributedTo"
  const PROV_WAS_GENERATED_BY := "http://www.w3.org/ns/prov#wasGeneratedBy"
  const PROV_USED := "http://www.w3.org/ns/prov#used"
  const PROV_WAS_ASSOCIATED_WITH := "http://www.w3.org/ns/prov#wasAssociatedWith"
  const PROV_ACTED_ON_BEHALF_OF := "http://www.w3.org/ns/prov#actedOnBehalfOf"

  const XSD_STRING := "http://www.w3.org/2001/XMLSchema#string"
  const RDF_LANG_STRING := "http://www.w3.org/1999/02/22-rdf-syntax-ns#langString"

  // ---------------------------------------------------------------
  // Java doubles
  // ---------------------------------------------------------------

  /**
   * A Java double as the metrics produce it: a finite value or NaN.
   * Every division in the metrics either has a non-zero divisor or is 0/0,
   * so infinities never arise; rounding of finite values is not modelled.
   */
  datatype Double = Num(value: real) | NaN

  /** Java's a / b on doubles, for the cases the metrics can reach. */
  function Div(a: real, b: real): (r: Double)
    requires b == 0.0 ==> a == 0.0
    ensures r.NaN? <==> b == 0.0
    ensures r.Num? ==> r.value * b == a
  {
    if b == 0.0 then NaN else Num(a / b)
  }

  /** A double in the closed unit interval (NaN is not). */
  predicate InUnit(d: Double)
  {
    d.Num? && 0.0 <= d.value <= 1.0
  }

  lemma QuotientInUnit(a: real, b: real)
    requires 0.0 <= a <= b && 0.0 < b
    ensures InUnit(Div(a, b))
    ensures Div(a, b) == Num(1.0) <==> a == b
  {
    assert a / b * b == a;
  }

  /**
   * The value several metrics compute: 1.0 while nothing was flagged, else
   * one minus the flagged share of the whole.
   */
  function OneMinusShare(flagged: nat, whole: nat): (r: real)
    requires flagged <= whole
    ensures 0.0 <= r <= 1.0
    ensures r == 1.0 <==> flagged == 0
    ensures r == 0.0 <==> flagged > 0 && flagged == whole
    ensures flagged > 0 ==> r * whole as real == (whole - flagged) as real
  {
    if flagged > 0 then
      var share := flagged as real / whole as real;
      QuotientInUnit(flagged as real, whole as real);
      assert Div(flagged as real, whole as real) == Num(share);
      1.0 - share
    else 1.0
  }
}
