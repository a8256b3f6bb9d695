/**
 * LicensingModelClassifier: recognises licensing predicates, copyleft licence
 * URIs and free-text licence statements by fixed tables and regular
 * expressions.
 */
module LicensingModelClassifier {
  import opened Rdf
  import opened JavaStrings

  // ---------------------------------------------------------------
  // The regular expressions, with java.util.regex semantics
  // ---------------------------------------------------------------

  /**
   * Pattern.CASE_INSENSITIVE without UNICODE_CASE folds US-ASCII letters
   * only.
   */
  function AsciiLower(c: char): char
  {
    if 'A' <= c <= 'Z' then (c as int + 32) as char else c
  }

  predicate FoldedEqual(a: string, b: string)
  {
    |a| == |b| && forall i :: 0 <= i < |a| ==> AsciiLower(a[i]) == AsciiLower(b[i])
  }

  /** `word` occurs at position i of text, ignoring ASCII case. */
  predicate OccursAt(text: string, i: int, word: string)
  {
    0 <= i && i + |word| <= |text| && FoldedEqual(text[i..i + |word|], word)
  }

  /** The first group, (licensed?|copyrighte?d?), starts at i and ends by j. */
  predicate LicenseWordAt(text: string, i: int, j: int)
  {
    (OccursAt(text, i, "license") && i + 7 <= j) || (OccursAt(text, i, "copyright") && i + 9 <= j)
  }

  /** The second group, (under|grante?d?|rights?), starts at j. */
  predicate GrantWordAt(text: string, j: int)
  {
    OccursAt(text, j, "under") || OccursAt(text, j, "grant") || OccursAt(text, j, "right")
  }

  /**
   * The two kinds of pattern the classifier compiles: "^prefix.*" with
   * CASE_INSENSITIVE, and the licence-text pattern
   * ".*(licensed?|copyrighte?d?).*(under|grante?d?|rights?).*" with
   * CASE_INSENSITIVE | MULTILINE. The optional letters are absorbed by the
   * surrounding ".*", so the shortest alternatives decide a match.
   */
  datatype Pattern = Prefix(prefix: string) | LicenseText

  /** Matcher.matches(): the pattern matches the whole text. */
  predicate Matches(p: Pattern, text: string)
  {
    match p
    case Prefix(prefix) =>
      |prefix| <= |text| && FoldedEqual(text[..|prefix|], prefix) && NoLineTerminator(text[|prefix|..])
    case LicenseText =>
      NoLineTerminator(text)
      && exists i, j :: 0 <= i <= j < |text| && LicenseWordAt(text, i, j) && GrantWordAt(text, j)
  }

  // ---------------------------------------------------------------
  // The tables
  // ---------------------------------------------------------------

  /** Properties known to state a licence (dct:license, dct:rights, dc:rights and eight more). */
  const LICENSE_PROPERTIES: set<string> := {
    DCT_LICENSE,
    DCT_RIGHTS,
    DC_RIGHTS,
    "http://www.w3.org/1999/xhtml/vocab#license",
    "http://creativecommons.org/ns#license",
    "http://purl.org/dc/elements/1.1/licence",
    "http://dbpedia.org/ontology/licence",
    "http://dbpedia.org/property/licence",
    "http://usefulinc.com/ns/doap#license",
    "https://schema.org/license",
    "http://schema.theodi.org/odrs#dataLicense"
  }

  const COPYLEFT_URI_PATTERNS: seq<Pattern> := [
    Prefix("http://www.opendatacommons.org/licenses/odbl"),
    Prefix("http://www.opendatacommons.org/licenses/pddl/"),
    Prefix("http://www.opendatacommons.org/licenses/by/"),
    Prefix("http://creativecommons.org/publicdomain/zero/"),
    Prefix("http://creativecommons.org/licenses/by/"),
    Prefix("http://purl.org/NET/rdflicense/"),
    Prefix("http://www.gnu.org/licenses/"),
    Prefix("http://opendatacommons.org/licenses/odbl"),
    Prefix("http://opendatacommons.org/licenses/pddl/"),
    Prefix("http://opendatacommons.org/licenses/by/"),
    Prefix("http://gnu.org/licenses/"),
    Prefix("http://www.creativecommons.org/publicdomain/zero/"),
    Prefix("http://www.creativecommons.org/licenses/by/"),
    Prefix("http://www.purl.org/NET/rdflicense/"),
    Prefix("http://creativecommons.org/publicdomain/")
  ]

  const NOT_RECOMMENDED_COPYLEFT_URI_PATTERNS: seq<Pattern> := [
    Prefix("http://creativecommons.org/licenses/by-sa/"),
    Prefix("http://www.gnu.org/copyleft/"),
    Prefix("http://creativecommons.org/licenses/by-nc/")
  ]

  const LICENSE_TEXT_PATTERNS: seq<Pattern> := [LicenseText]

  // ---------------------------------------------------------------
  // The classifier
  // ---------------------------------------------------------------

  /** matchesAnyPattern: some pattern of the array matches the whole text. */
  function MatchesAnyPattern(text: string, patterns: seq<Pattern>): (r: bool)
    ensures r <==> exists i :: 0 <= i < |patterns| && Matches(patterns[i], text)
  {
    if |patterns| == 0 then false
    else if Matches(patterns[0], text) then true
    else
      var r := MatchesAnyPattern(text, patterns[1..]);
      assert forall i :: 1 <= i < |patterns| ==> patterns[i] == patterns[1..][i - 1];
      r
  }

  /** Whether a pattern array matches does not depend on the order of its patterns. */
  lemma {:induction false} MatchesAnyPatternIgnoresOrder(text: string, ps: seq<Pattern>, qs: seq<Pattern>)
    requires multiset(ps) == multiset(qs)
    ensures MatchesAnyPattern(text, ps) == MatchesAnyPattern(text, qs)
  {
    if MatchesAnyPattern(text, ps) {
      var i :| 0 <= i < |ps| && Matches(ps[i], text);
      assert ps[i] in multiset(qs);
      var j :| 0 <= j < |qs| && qs[j] == ps[i];
    }
    if MatchesAnyPattern(text, qs) {
      var j :| 0 <= j < |qs| && Matches(qs[j], text);
      assert qs[j] in multiset(ps);
      var i :| 0 <= i < |ps| && ps[i] == qs[j];
    }
  }

  /** isLicensingPredicate: a non-null URI node whose URI is a licence property. */
  predicate IsLicensingPredicate(pred: Option<Node>)
  {
    pred.Some? && pred.value.Uri? && pred.value.uri in LICENSE_PROPERTIES
  }

  /** isCopyLeftLicenseURI */
  function IsCopyLeftLicenseURI(licenseObj: Option<Node>): (r: bool)
    ensures r <==> (licenseObj.Some? && licenseObj.value.Uri?
      && exists i :: 0 <= i < |COPYLEFT_URI_PATTERNS| && Matches(COPYLEFT_URI_PATTERNS[i], licenseObj.value.uri))
  {
    if licenseObj.Some? && licenseObj.value.Uri? then
      MatchesAnyPattern(licenseObj.value.uri, COPYLEFT_URI_PATTERNS)
    else false
  }

  /** isNotRecommendedCopyLeftLicenseURI */
  function IsNotRecommendedCopyLeftLicenseURI(licenseObj: Option<Node>): (r: bool)
    ensures r <==> (licenseObj.Some? && licenseObj.value.Uri?
      && exists i :: 0 <= i < |NOT_RECOMMENDED_COPYLEFT_URI_PATTERNS|
           && Matches(NOT_RECOMMENDED_COPYLEFT_URI_PATTERNS[i], licenseObj.value.uri))
  {
    if licenseObj.Some? && licenseObj.value.Uri? then
      MatchesAnyPattern(licenseObj.value.uri, NOT_RECOMMENDED_COPYLEFT_URI_PATTERNS)
    else false
  }

  /**
   * isLicenseStatement: the literal's printed form (quotes, language tag and
   * datatype included, not just the lexical form) matches the licence-text
   * pattern.
   */
  function IsLicenseStatement(licenseLiteralObj: Option<Node>): (r: bool)
    ensures r <==> (licenseLiteralObj.Some? && licenseLiteralObj.value.Literal?
      && NoLineTerminator(PrintedForm(licenseLiteralObj.value))
      && exists i, j :: 0 <= i <= j < |PrintedForm(licenseLiteralObj.value)|
           && LicenseWordAt(PrintedForm(licenseLiteralObj.value), i, j)
           && GrantWordAt(PrintedForm(licenseLiteralObj.value), j))
  {
    if licenseLiteralObj.Some? && licenseLiteralObj.value.Literal? then
      var r := MatchesAnyPattern(PrintedForm(licenseLiteralObj.value), LICENSE_TEXT_PATTERNS);
      assert LICENSE_TEXT_PATTERNS[0] == LicenseText;
      r
    else false
  }

  /**
   * isNotRecommendedLicenseStatement: the literal's printed form matched
   * against the not-recommended licence URI patterns.
   */
  function IsNotRecommendedLicenseStatement(licenseLiteralObj: Option<Node>): (r: bool)
    ensures r ==> licenseLiteralObj.Some? && licenseLiteralObj.value.Literal?
  {
    if licenseLiteralObj.Some? && licenseLiteralObj.value.Literal? then
      MatchesAnyPattern(PrintedForm(licenseLiteralObj.value), NOT_RECOMMENDED_COPYLEFT_URI_PATTERNS)
    else false
  }

  // ---------------------------------------------------------------
  // Properties of the classifier
  // ---------------------------------------------------------------

  /**
   * The licence-property table has eleven distinct entries; only the https
   * form of schema:license is among them, and non-URI nodes never qualify.
   */
  lemma LicensingPredicateTable(n: Option<Node>)
    ensures |LICENSE_PROPERTIES| == 11
    ensures IsLicensingPredicate(Some(Uri("https://schema.org/license")))
    ensures !IsLicensingPredicate(Some(Uri("http://schema.org/license")))
    ensures n.None? || !n.value.Uri? ==> !IsLicensingPredicate(n)
  {
  }

  /** Two case-insensitive prefixes of one text agree, folded, wherever both are defined. */
  lemma FoldedPrefixesAgree(t: string, p: string, q: string, k: int)
    requires Matches(Prefix(p), t) && Matches(Prefix(q), t)
    requires 0 <= k < |p| && k < |q|
    ensures AsciiLower(p[k]) == AsciiLower(q[k])
  {
    assert t[..|p|][k] == t[..|q|][k];
  }

  /** Position k tells p and q apart even after case folding. */
  predicate ApartAt(p: string, q: string, k: int)
  {
    0 <= k < |p| && k < |q| && AsciiLower(p[k]) != AsciiLower(q[k])
  }

  /** Copyleft prefixes 0 to 7 differ from the not-recommended prefix 0 at some position. */
  lemma CopyLeftApartFromNotRecommended0Head(i: int)
    requires 0 <= i < 8
    ensures exists k :: ApartAt(COPYLEFT_URI_PATTERNS[i].prefix, NOT_RECOMMENDED_COPYLEFT_URI_PATTERNS[0].prefix, k)
  {
    var q := NOT_RECOMMENDED_COPYLEFT_URI_PATTERNS[0].prefix;
    if i == 0 {
      assert ApartAt(COPYLEFT_URI_PATTERNS[0].prefix, q, 7);
    } else if i == 1 {
      assert ApartAt(COPYLEFT_URI_PATTERNS[1].prefix, q, 7);
    } else if i == 2 {
      assert ApartAt(COPYLEFT_URI_PATTERNS[2].prefix, q, 7);
    } else if i == 3 {
      assert ApartAt(COPYLEFT_URI_PATTERNS[3].prefix, q, 27);
    } else if i == 4 {
      assert ApartAt(COPYLEFT_URI_PATTERNS[4].prefix, q, 38);
    } else if i == 5 {
      assert ApartAt(COPYLEFT_URI_PATTERNS[5].prefix, q, 7);
    } else if i == 6 {
      assert ApartAt(COPYLEFT_URI_PATTERNS[6].prefix, q, 7);
    } else {
      assert ApartAt(COPYLEFT_URI_PATTERNS[7].prefix, q, 7);
    }
  }

  /** Copyleft prefixes 8 to 14 differ from the not-recommended prefix 0 at some position. */
  lemma CopyLeftApartFromNotRecommended0Tail(i: int)
    requires 8 <= i < 15
    ensures exists k :: ApartAt(COPYLEFT_URI_PATTERNS[i].prefix, NOT_RECOMMENDED_COPYLEFT_URI_PATTERNS[0].prefix, k)
  {
    var q := NOT_RECOMMENDED_COPYLEFT_URI_PATTERNS[0].prefix;
    if i == 8 {
      assert ApartAt(COPYLEFT_URI_PATTERNS[8].prefix, q, 7);
    } else if i == 9 {
      assert ApartAt(COPYLEFT_URI_PATTERNS[9].prefix, q, 7);
    } else if i == 10 {
      assert ApartAt(COPYLEFT_URI_PATTERNS[10].prefix, q, 7);
    } else if i == 11 {
      assert ApartAt(COPYLEFT_URI_PATTERNS[11].prefix, q, 7);
    } else if i == 12 {
      assert ApartAt(COPYLEFT_URI_PATTERNS[12].prefix, q, 7);
    } else if i == 13 {
      assert ApartAt(COPYLEFT_URI_PATTERNS[13].prefix, q, 7);
    } else {
      assert ApartAt(COPYLEFT_URI_PATTERNS[14].prefix, q, 27);
    }
  }

  /** Copyleft prefixes 0 to 7 differ from the not-recommended prefix 1 at some position. */
  lemma CopyLeftApartFromNotRecommended1Head(i: int)
    requires 0 <= i < 8
    ensures exists k :: ApartAt(COPYLEFT_URI_PATTERNS[i].prefix, NOT_RECOMMENDED_COPYLEFT_URI_PATTERNS[1].prefix, k)
  {
    var q := NOT_RECOMMENDED_COPYLEFT_URI_PATTERNS[1].prefix;
    if i == 0 {
      assert ApartAt(COPYLEFT_URI_PATTERNS[0].prefix, q, 11);
    } else if i == 1 {
      assert ApartAt(COPYLEFT_URI_PATTERNS[1].prefix, q, 11);
    } else if i == 2 {
      assert ApartAt(COPYLEFT_URI_PATTERNS[2].prefix, q, 11);
    } else if i == 3 {
      assert ApartAt(COPYLEFT_URI_PATTERNS[3].prefix, q, 7);
    } else if i == 4 {
      assert ApartAt(COPYLEFT_URI_PATTERNS[4].prefix, q, 7);
    } else if i == 5 {
      assert ApartAt(COPYLEFT_URI_PATTERNS[5].prefix, q, 7);
    } else if i == 6 {
      assert ApartAt(COPYLEFT_URI_PATTERNS[6].prefix, q, 19);
    } else {
      assert ApartAt(COPYLEFT_URI_PATTERNS[7].prefix, q, 7);
    }
  }

  /** Copyleft prefixes 8 to 14 differ from the not-recommended prefix 1 at some position. */
  lemma CopyLeftApartFromNotRecommended1Tail(i: int)
    requires 8 <= i < 15
    ensures exists k :: ApartAt(COPYLEFT_URI_PATTERNS[i].prefix, NOT_RECOMMENDED_COPYLEFT_URI_PATTERNS[1].prefix, k)
  {
    var q := NOT_RECOMMENDED_COPYLEFT_URI_PATTERNS[1].prefix;
    if i == 8 {
      assert ApartAt(COPYLEFT_URI_PATTERNS[8].prefix, q, 7);
    } else if i == 9 {
      assert ApartAt(COPYLEFT_URI_PATTERNS[9].prefix, q, 7);
    } else if i == 10 {
      assert ApartAt(COPYLEFT_URI_PATTERNS[10].prefix, q, 7);
    } else if i == 11 {
      assert ApartAt(COPYLEFT_URI_PATTERNS[11].prefix, q, 11);
    } else if i == 12 {
      assert ApartAt(COPYLEFT_URI_PATTERNS[12].prefix, q, 11);
    } else if i == 13 {
      assert ApartAt(COPYLEFT_URI_PATTERNS[13].prefix, q, 11);
    } else {
      assert ApartAt(COPYLEFT_URI_PATTERNS[14].prefix, q, 7);
    }
  }

  /** Copyleft prefixes 0 to 7 differ from the not-recommended prefix 2 at some position. */
  lemma CopyLeftApartFromNotRecommended2Head(i: int)
    requires 0 <= i < 8
    ensures exists k :: ApartAt(COPYLEFT_URI_PATTERNS[i].prefix, NOT_RECOMMENDED_COPYLEFT_URI_PATTERNS[2].prefix, k)
  {
    var q := NOT_RECOMMENDED_COPYLEFT_URI_PATTERNS[2].prefix;
    if i == 0 {
      assert ApartAt(COPYLEFT_URI_PATTERNS[0].prefix, q, 7);
    } else if i == 1 {
      assert ApartAt(COPYLEFT_URI_PATTERNS[1].prefix, q, 7);
    } else if i == 2 {
      assert ApartAt(COPYLEFT_URI_PATTERNS[2].prefix, q, 7);
    } else if i == 3 {
      assert ApartAt(COPYLEFT_URI_PATTERNS[3].prefix, q, 27);
    } else if i == 4 {
      assert ApartAt(COPYLEFT_URI_PATTERNS[4].prefix, q, 38);
    } else if i == 5 {
      assert ApartAt(COPYLEFT_URI_PATTERNS[5].prefix, q, 7);
    } else if i == 6 {
      assert ApartAt(COPYLEFT_URI_PATTERNS[6].prefix, q, 7);
    } else {
      assert ApartAt(COPYLEFT_URI_PATTERNS[7].prefix, q, 7);
    }
  }

  /** Copyleft prefixes 8 to 14 differ from the not-recommended prefix 2 at some position. */
  lemma CopyLeftApartFromNotRecommended2Tail(i: int)
    requires 8 <= i < 15
    ensures exists k :: ApartAt(COPYLEFT_URI_PATTERNS[i].prefix, NOT_RECOMMENDED_COPYLEFT_URI_PATTERNS[2].prefix, k)
  {
    var q := NOT_RECOMMENDED_COPYLEFT_URI_PATTERNS[2].prefix;
    if i == 8 {
      assert ApartAt(COPYLEFT_URI_PATTERNS[8].prefix, q, 7);
    } else if i == 9 {
      assert ApartAt(COPYLEFT_URI_PATTERNS[9].prefix, q, 7);
    } else if i == 10 {
      assert ApartAt(COPYLEFT_URI_PATTERNS[10].prefix, q, 7);
    } else if i == 11 {
      assert ApartAt(COPYLEFT_URI_PATTERNS[11].prefix, q, 7);
    } else if i == 12 {
      assert ApartAt(COPYLEFT_URI_PATTERNS[12].prefix, q, 7);
    } else if i == 13 {
      assert ApartAt(COPYLEFT_URI_PATTERNS[13].prefix, q, 7);
    } else {
      assert ApartAt(COPYLEFT_URI_PATTERNS[14].prefix, q, 27);
    }
  }

  /** No licence URI is both copyleft and not-recommended copyleft. */
  lemma CopyLeftAndNotRecommendedDisjoint(licenseObj: Option<Node>)
    ensures !(IsCopyLeftLicenseURI(licenseObj) && IsNotRecommendedCopyLeftLicenseURI(licenseObj))
  {
    if IsCopyLeftLicenseURI(licenseObj) && IsNotRecommendedCopyLeftLicenseURI(licenseObj) {
      var t := licenseObj.value.uri;
      var i :| 0 <= i < |COPYLEFT_URI_PATTERNS| && Matches(COPYLEFT_URI_PATTERNS[i], t);
      var j :| 0 <= j < |NOT_RECOMMENDED_COPYLEFT_URI_PATTERNS| && Matches(NOT_RECOMMENDED_COPYLEFT_URI_PATTERNS[j], t);
      if j == 0 && i < 8 {
        CopyLeftApartFromNotRecommended0Head(i);
      } else if j == 0 {
        CopyLeftApartFromNotRecommended0Tail(i);
      } else if j == 1 && i < 8 {
        CopyLeftApartFromNotRecommended1Head(i);
      } else if j == 1 {
        CopyLeftApartFromNotRecommended1Tail(i);
      } else if i < 8 {
        CopyLeftApartFromNotRecommended2Head(i);
      } else {
        CopyLeftApartFromNotRecommended2Tail(i);
      }
      var k :| ApartAt(COPYLEFT_URI_PATTERNS[i].prefix, NOT_RECOMMENDED_COPYLEFT_URI_PATTERNS[j].prefix, k);
      FoldedPrefixesAgree(t, COPYLEFT_URI_PATTERNS[i].prefix, NOT_RECOMMENDED_COPYLEFT_URI_PATTERNS[j].prefix, k);
    }
  }

  /**
   * The printed form of a literal starts with a quote, so no "^http://..."
   * pattern ever matches it: isNotRecommendedLicenseStatement is always false.
   */
  lemma NotRecommendedLicenseStatementNeverHolds(licenseLiteralObj: Option<Node>)
    ensures !IsNotRecommendedLicenseStatement(licenseLiteralObj)
  {
    if licenseLiteralObj.Some? && licenseLiteralObj.value.Literal? {
      var text := PrintedForm(licenseLiteralObj.value);
      forall i | 0 <= i < |NOT_RECOMMENDED_COPYLEFT_URI_PATTERNS|
        ensures !Matches(NOT_RECOMMENDED_COPYLEFT_URI_PATTERNS[i], text)
      {
        var p := NOT_RECOMMENDED_COPYLEFT_URI_PATTERNS[i].prefix;
        assert p[0] == 'h';
      }
    }
  }

  /** A lexical form spanning several lines is never a licence statement. */
  lemma MultiLineTextIsNoStatement(lit: Node, k: int)
    requires lit.Literal? && 0 <= k < |lit.lex| && IsLineTerminator(lit.lex[k])
    ensures !IsLicenseStatement(Some(lit))
  {
    var text := PrintedForm(lit);
    assert lit.lex[k] in EscapeQuotes(lit.lex);
    var m :| 0 <= m < |EscapeQuotes(lit.lex)| && EscapeQuotes(lit.lex)[m] == lit.lex[k];
    assert text[m + 1] == lit.lex[k];
  }

  lemma {:induction false} EscapeQuotesWithoutQuotes(lex: string)
    requires forall i :: 0 <= i < |lex| ==> lex[i] != '"'
    ensures EscapeQuotes(lex) == lex
  {
    if |lex| > 0 {
      EscapeQuotesWithoutQuotes(lex[1..]);
      assert lex == [lex[0]] + lex[1..];
    }
  }

  /** A literal whose parts are single-line prints on a single line. */
  lemma PrintedFormSingleLine(lit: Node)
    requires lit.Literal? && NoLineTerminator(lit.lex) && NoLineTerminator(lit.lang)
    requires NoLineTerminator(lit.dtype)
    ensures NoLineTerminator(PrintedForm(lit))
  {
    var text := PrintedForm(lit);
    forall i | 0 <= i < |text|
      ensures !IsLineTerminator(text[i])
    {
      assert text[i] in text;
      if text[i] in EscapeQuotes(lit.lex) {
        if text[i] in lit.lex {
          var m :| 0 <= m < |lit.lex| && lit.lex[m] == text[i];
        }
      } else if text[i] in lit.lang {
        var m :| 0 <= m < |lit.lang| && lit.lang[m] == text[i];
      } else if text[i] in lit.dtype {
        var m :| 0 <= m < |lit.dtype| && lit.dtype[m] == text[i];
      }
    }
  }

  /** A word of a quote-free lexical form occurs one position later in the printed form. */
  lemma WordInPrintedForm(lit: Node, i: int, word: string)
    requires lit.Literal? && forall m :: 0 <= m < |lit.lex| ==> lit.lex[m] != '"'
    requires OccursAt(lit.lex, i, word)
    ensures OccursAt(PrintedForm(lit), i + 1, word)
  {
    EscapeQuotesWithoutQuotes(lit.lex);
    var text := PrintedForm(lit);
    assert text[1..1 + |lit.lex|] == lit.lex;
    assert text[i + 1..i + 1 + |word|] == lit.lex[i..i + |word|];
  }

  lemma FoldedEqualReflexive(a: string)
    ensures FoldedEqual(a, a)
  {
  }

  /**
   * A single-line, quote-free lexical form holding "license" and, later,
   * "under" is a licence statement.
   */
  lemma LicenseUnderIsStatement(pre: string, mid: string, post: string)
    requires NoLineTerminator(pre + "license" + mid + "under" + post)
    requires forall m :: 0 <= m < |pre + "license" + mid + "under" + post| ==> (pre + "license" + mid + "under" + post)[m] != '"'
    ensures IsLicenseStatement(Some(Literal(pre + "license" + mid + "under" + post, "", XSD_STRING)))
  {
    var lex := pre + "license" + mid + "under" + post;
    var lit := Literal(lex, "", XSD_STRING);
    var u := |pre| + 7 + |mid|;
    assert lex[|pre|..|pre| + 7] == "license";
    assert lex[u..u + 5] == "under";
    FoldedEqualReflexive("license");
    FoldedEqualReflexive("under");
    WordInPrintedForm(lit, |pre|, "license");
    WordInPrintedForm(lit, u, "under");
    PrintedFormSingleLine(lit);
    assert LicenseWordAt(PrintedForm(lit), |pre| + 1, u + 1) && GrantWordAt(PrintedForm(lit), u + 1);
  }

  /** A word of a datatype URI occurs in the printed form after the lexical form and "^^". */
  lemma WordInPrintedDatatype(lit: Node, i: int, word: string)
    requires lit.Literal? && lit.lang == "" && lit.dtype != XSD_STRING
    requires OccursAt(lit.dtype, i, word)
    ensures OccursAt(PrintedForm(lit), |EscapeQuotes(lit.lex)| + 4 + i, word)
  {
    var text := PrintedForm(lit);
    var at := |EscapeQuotes(lit.lex)| + 4;
    assert text[at..] == lit.dtype;
    assert text[at + i..at + i + |word|] == lit.dtype[i..i + |word|];
  }

  /**
   * The datatype URI is part of the printed form, so it can complete a
   * statement: a single-line, quote-free lexical form holding "license",
   * typed with a single-line datatype whose URI contains "right", is a
   * licence statement.
   */
  lemma DatatypeCompletesStatement(pre: string, post: string, dpre: string, dpost: string)
    requires NoLineTerminator(pre + "license" + post)
    requires forall m :: 0 <= m < |pre + "license" + post| ==> (pre + "license" + post)[m] != '"'
    requires dpre + "right" + dpost != XSD_STRING && NoLineTerminator(dpre + "right" + dpost)
    ensures IsLicenseStatement(Some(Literal(pre + "license" + post, "", dpre + "right" + dpost)))
  {
    var lex := pre + "license" + post;
    var dt := dpre + "right" + dpost;
    var lit := Literal(lex, "", dt);
    assert lex[|pre|..|pre| + 7] == "license";
    assert dt[|dpre|..|dpre| + 5] == "right";
    FoldedEqualReflexive("license");
    FoldedEqualReflexive("right");
    WordInPrintedForm(lit, |pre|, "license");
    WordInPrintedDatatype(lit, |dpre|, "right");
    PrintedFormSingleLine(lit);
    var g := |EscapeQuotes(lex)| + 4 + |dpre|;
    EscapeQuotesWithoutQuotes(lex);
    assert LicenseWordAt(PrintedForm(lit), |pre| + 1, g) && GrantWordAt(PrintedForm(lit), g);
  }
}
