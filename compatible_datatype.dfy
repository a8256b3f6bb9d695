/**
 * CompatibleDatatype: the share of literals whose lexical form is valid for
 * their datatype. Every literal has a datatype (xsd:string when it is plain,
 * rdf:langString when it is tagged), so the source's null test never fails
 * and every literal is judged.
 */
module CompatibleDatatype {
  import opened Rdf
  import opened Streams

  /** RDFDatatype.isValid(lexicalForm), for the datatype with the given URI. */
  type DatatypeValidity = (string, string) -> bool

  predicate HasLiteralObject(q: Quad)
  {
    q.obj.Literal?
  }

  predicate HasCorrectLiteral(isValid: DatatypeValidity, q: Quad)
  {
    q.obj.Literal? && isValid(q.obj.dtype, q.obj.lex)
  }

  predicate HasIncorrectLiteral(isValid: DatatypeValidity, q: Quad)
  {
    q.obj.Literal? && !isValid(q.obj.dtype, q.obj.lex)
  }

  /** The quads counted as correct, and as incorrect, under one datatype check. */
  function CorrectUnder(isValid: DatatypeValidity): Quad -> bool
  {
    q => HasCorrectLiteral(isValid, q)
  }

  function IncorrectUnder(isValid: DatatypeValidity): Quad -> bool
  {
    q => HasIncorrectLiteral(isValid, q)
  }

  /** One more quad adds one to each count whose predicate it meets. */
  lemma CountsAppend(s: seq<Quad>, q: Quad, isValid: DatatypeValidity)
    ensures Count(s + [q], HasLiteralObject) == Count(s, HasLiteralObject) + (if q.obj.Literal? then 1 else 0)
    ensures Count(s + [q], CorrectUnder(isValid)) == Count(s, CorrectUnder(isValid)) + (if HasCorrectLiteral(isValid, q) then 1 else 0)
    ensures Count(s + [q], IncorrectUnder(isValid)) == Count(s, IncorrectUnder(isValid)) + (if HasIncorrectLiteral(isValid, q) then 1 else 0)
  {
    CountAppend(s, q, HasLiteralObject);
    CountAppend(s, q, CorrectUnder(isValid));
    CountAppend(s, q, IncorrectUnder(isValid));
  }

  class CompatibleDatatype {
    const isValid: DatatypeValidity
    var numberCorrectLiterals: nat
    var numberIncorrectLiterals: nat
    var totalNumberLiterals: nat
    /** The quads consumed so far. */
    ghost var stream: seq<Quad>

    ghost predicate Valid()
      reads this
    {
      totalNumberLiterals == Count(stream, HasLiteralObject)
      && numberCorrectLiterals == Count(stream, CorrectUnder(isValid))
      && numberIncorrectLiterals == Count(stream, IncorrectUnder(isValid))
    }

    constructor(isValid: DatatypeValidity)
      ensures Valid() && stream == [] && this.isValid == isValid
      ensures numberCorrectLiterals == 0 && numberIncorrectLiterals == 0 && totalNumberLiterals == 0
    {
      this.isValid := isValid;
      numberCorrectLiterals := 0;
      numberIncorrectLiterals := 0;
      totalNumberLiterals := 0;
      stream := [];
    }

    /**
     * compute: every literal object is counted, and is correct or incorrect
     * as its datatype accepts its lexical form.
     */
    method Compute(q: Quad)
      requires Valid()
      modifies `totalNumberLiterals, `numberCorrectLiterals, `numberIncorrectLiterals, `stream
      ensures Valid() && stream == old(stream) + [q]
      ensures totalNumberLiterals == old(totalNumberLiterals) + (if q.obj.Literal? then 1 else 0)
      ensures numberCorrectLiterals == old(numberCorrectLiterals) + (if HasCorrectLiteral(isValid, q) then 1 else 0)
      ensures numberIncorrectLiterals == old(numberIncorrectLiterals) + (if HasIncorrectLiteral(isValid, q) then 1 else 0)
    {
      CountsAppend(stream, q, isValid);
      stream := stream + [q];
      if q.obj.Literal? {
        totalNumberLiterals := totalNumberLiterals + 1;
        if isValid(q.obj.dtype, q.obj.lex) {
          numberCorrectLiterals := numberCorrectLiterals + 1;
        } else {
          numberIncorrectLiterals := numberIncorrectLiterals + 1;
        }
      }
    }

    /** Every literal is judged once: correct + incorrect is the literal count. */
    lemma EveryLiteralJudged()
      requires Valid()
      ensures numberCorrectLiterals + numberIncorrectLiterals == totalNumberLiterals
    {
      CountDisjointUnion(stream, HasLiteralObject, CorrectUnder(isValid), IncorrectUnder(isValid));
    }

    /**
     * metricValue: correct / (correct + incorrect), with the NaN of a stream
     * without literals replaced by 1.0.
     */
    function MetricValue(): (r: real)
      reads this
      requires Valid()
      ensures 0.0 <= r <= 1.0
      ensures numberCorrectLiterals + numberIncorrectLiterals == 0 ==> r == 1.0
      ensures r * (numberCorrectLiterals + numberIncorrectLiterals) as real == numberCorrectLiterals as real
        || numberCorrectLiterals + numberIncorrectLiterals == 0
      ensures r == 1.0 <==> numberIncorrectLiterals == 0
    {
      var total := (numberCorrectLiterals + numberIncorrectLiterals) as real;
      match Div(numberCorrectLiterals as real, total)
      case NaN => 1.0
      case Num(v) => QuotientInUnit(numberCorrectLiterals as real, total); v
    }
  }
}
