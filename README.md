# Luzzu Linked-Data quality metrics, modelled in Dafny

Luzzu assesses a Linked-Data dataset by streaming its quads through a set of
quality metrics. Each metric is an object. The framework calls `compute(quad)`
once per quad, then reads the result with `metricValue()`. Most metrics also
offer a problem report. This project models the streaming core of about twenty
of these metrics, together with the two pure helpers they share: the
namespace extraction of `Utils` and the licence tables of
`LicensingModelClassifier`.

How the model is built:

- One Dafny module per Java file.
- `Rdf` holds the shared data:
  - nodes: a URI, a blank node, or a literal with lexical form, language and datatype. As in Jena's RDF 1.1 mode, every literal has a datatype: xsd:string for a plain literal, rdf:langString for a tagged one;
  - quads reduced to subject, predicate and object;
  - the RDF, RDFS, OWL, VoID, DCAT, DCTerms and PROV-O terms the metrics compare against;
  - Java `double` as `Double = Num(real) | NaN`, with `Div` for Java's division;
  - the exceptions the code can raise, as a `Fault` value.
- `JavaStrings` models the `java.lang.String` operations the metrics call.
- `Vocabulary` turns the vocabulary service into total functions of a term's URI:
  is it known, a class, a property, deprecated, an object, datatype or inverse-functional property, and its namespace.
- `Streams` defines counts over the quads consumed so far:
  - occurrence counts;
  - sums;
  - sets of distinct keys;
  - seen-caches that judge a key only the first time it appears.
- Each metric whose Java `compute` updates fields is a `class` with those fields.
  - Its `Compute(q)` method's `modifies` clause names what the Java `compute` may assign. Eleven classes name the whole object (`modifies this`). ExtendedProvenanceMetric names the whole object and the entity and activity records it updates. BlankNodeUsage, CompatibleDatatype, DataCubePopulationCompleteness, HumanReadableLicense, MultipleLanguageUsage, OntologyHijacking, ShortURIs and VocabularyUsageIndication name only the fields that change.
  - In fifteen of the classes, a ghost `stream` field records the quads consumed, and a class invariant ties every counter, set and map to a function of that stream.
  - In the others, `Compute` states the per-quad update of the fields directly, and the invariant holds the structural facts: bounds, disjointness, aliasing.
  - `Compute`'s postcondition fixes the new value of every field. It states the value directly, or the class invariant, which the postcondition re-establishes, ties the field to the new stream. For example, ShortURIs' counters are the sizes of subsets of the seen URIs, and its problem list is the problems of the whole stream. Lemmas beside `Compute` state what the counters mean.
  - In ReuseExistingTerms, the counters are stated as one value: the old counters after the class check and then the predicate check.
  - In ExtendedProvenanceMetric, the postcondition states the directories' new keys, the record filed under each key, the fields the quad sets, and a frame: every record the quad does not touch is unchanged.
  - `MetricValue` is a method when the Java code loops or memoises, otherwise a function of the fields. Its contract relates the value to the stream.
- The pure parts are functions with lemmas: rule tables, comparisons, ratios and rounding.

Each metric module also carries a lemma for the value its Java unit test asserts, where the test's counts are known.

## Model

| member | source | states |
|---|---|---|
| Rdf.EscapeQuotes | linked-data-quality-metrics/accessibility/src/main/java/io/github/luzzu/linkeddata/qualitymetrics/accessibility/licensing/LicensingModelClassifier.java:159 | the escaped lexical form holds exactly the characters of the original, plus a backslash when a quote was escaped |
| Rdf.PrintedForm | linked-data-quality-metrics/accessibility/src/main/java/io/github/luzzu/linkeddata/qualitymetrics/accessibility/licensing/LicensingModelClassifier.java:159 | a literal's Node.toString() starts with a quote character and has at least the two quotes |
| Rdf.Div | linked-data-quality-metrics/intrinsic/src/main/java/io/github/luzzu/linkeddata/qualitymetrics/intrinsic/syntacticvalidity/CompatibleDatatype.java:84 | Java double division as the metrics reach it: NaN exactly for 0/0, otherwise a quotient that multiplies back to the dividend |
| Rdf.QuotientInUnit | linked-data-quality-metrics/intrinsic/src/main/java/io/github/luzzu/linkeddata/qualitymetrics/intrinsic/syntacticvalidity/CompatibleDatatype.java:84 | a part divided by a non-zero whole lies in [0,1], and is 1 exactly when the part is the whole |
| Rdf.OneMinusShare | linked-data-quality-metrics/intrinsic/src/main/java/io/github/luzzu/linkeddata/qualitymetrics/intrinsic/consistency/MisplacedClassesOrProperties.java:139-148 | one minus the flagged share lies in [0,1], is 1 exactly when nothing is flagged and 0 exactly when everything is |
| JavaStrings.ContainsBounds | utilities/src/main/java/io/github/luzzu/linkeddata/qualitymetrics/commons/Utils.java:12 | String.contains holds for the empty string and the string itself, never for a longer string |
| JavaStrings.IndexOf | utilities/src/main/java/io/github/luzzu/linkeddata/qualitymetrics/commons/Utils.java:12 | -1 exactly when the character is absent, otherwise its first position |
| JavaStrings.LastIndexOf | utilities/src/main/java/io/github/luzzu/linkeddata/qualitymetrics/commons/Utils.java:13 | -1 exactly when the character is absent, otherwise its last position |
| JavaStrings.Substring | utilities/src/main/java/io/github/luzzu/linkeddata/qualitymetrics/commons/Utils.java:12-16 | a result exactly when 0 <= begin <= end <= length (else the StringIndexOutOfBoundsException), holding the characters from begin to end |
| Streams.SeenCacheStep | linked-data-quality-metrics/intrinsic/src/main/java/io/github/luzzu/linkeddata/qualitymetrics/intrinsic/consistency/MisplacedClassesOrProperties.java:74-87 | a seen-cache that stores true for every key it meets: a new key of an entering element is cached and is one more hit when judged so; anything else leaves cache and hits as they were |
| Streams.FirstHitsDistinct | linked-data-quality-metrics/intrinsic/src/main/java/io/github/luzzu/linkeddata/qualitymetrics/intrinsic/consistency/MisplacedClassesOrProperties.java:74-87 | the hits of such a cache are the distinct keys that pass judgement, however often each occurs |
| Utils.ExtractDatasetNS | utilities/src/main/java/io/github/luzzu/linkeddata/qualitymetrics/commons/Utils.java:5-19 | null stays null; a non-null result is a prefix of the input; a non-http input comes back unchanged; with a '#' the result stops just before the first '#'; without '#' but with '/', it stops before the last '/'; an http string without either comes back unchanged |
| Utils.HttpsIsHttp | utilities/src/main/java/io/github/luzzu/linkeddata/qualitymetrics/commons/Utils.java:10 | every "https" string also starts with "http", so the second disjunct never decides |
| LicensingModelClassifier.MatchesAnyPattern | linked-data-quality-metrics/accessibility/src/main/java/io/github/luzzu/linkeddata/qualitymetrics/accessibility/licensing/LicensingModelClassifier.java:185-199 | true exactly when some pattern of the array matches the whole text |
| LicensingModelClassifier.MatchesAnyPatternIgnoresOrder | linked-data-quality-metrics/accessibility/src/main/java/io/github/luzzu/linkeddata/qualitymetrics/accessibility/licensing/LicensingModelClassifier.java:189-197 | the early return of the loop makes the answer independent of the order of the patterns |
| LicensingModelClassifier.LicensingPredicateTable | linked-data-quality-metrics/accessibility/src/main/java/io/github/luzzu/linkeddata/qualitymetrics/accessibility/licensing/LicensingModelClassifier.java:54-65 | the table holds eleven distinct properties; https schema:license qualifies and http schema:license does not; a null or non-URI node never qualifies |
| LicensingModelClassifier.IsCopyLeftLicenseURI | linked-data-quality-metrics/accessibility/src/main/java/io/github/luzzu/linkeddata/qualitymetrics/accessibility/licensing/LicensingModelClassifier.java:126-133 | true exactly for a non-null URI node whose URI matches one of the fifteen case-insensitive copyleft prefixes |
| LicensingModelClassifier.IsNotRecommendedCopyLeftLicenseURI | linked-data-quality-metrics/accessibility/src/main/java/io/github/luzzu/linkeddata/qualitymetrics/accessibility/licensing/LicensingModelClassifier.java:140-147 | true exactly for a non-null URI node whose URI matches one of the three not-recommended prefixes |
| LicensingModelClassifier.IsLicenseStatement | linked-data-quality-metrics/accessibility/src/main/java/io/github/luzzu/linkeddata/qualitymetrics/accessibility/licensing/LicensingModelClassifier.java:155-162 | true exactly for a non-null literal whose printed form (quotes, tag and datatype included) matches the licence-text pattern |
| LicensingModelClassifier.IsNotRecommendedLicenseStatement | linked-data-quality-metrics/accessibility/src/main/java/io/github/luzzu/linkeddata/qualitymetrics/accessibility/licensing/LicensingModelClassifier.java:170-177 | true only for a non-null literal, and then only when its printed form matches a not-recommended URI prefix |
| LicensingModelClassifier.FoldedPrefixesAgree | linked-data-quality-metrics/accessibility/src/main/java/io/github/luzzu/linkeddata/qualitymetrics/accessibility/licensing/LicensingModelClassifier.java:76-95 | two case-insensitive prefix patterns that both match a text agree, case-folded, at every position both define |
| LicensingModelClassifier.CopyLeftApartFromNotRecommended0Head | linked-data-quality-metrics/accessibility/src/main/java/io/github/luzzu/linkeddata/qualitymetrics/accessibility/licensing/LicensingModelClassifier.java:75-95 | each of the first eight copyleft prefixes differs, case-folded, from the by-sa prefix at some position |
| LicensingModelClassifier.CopyLeftApartFromNotRecommended0Tail | linked-data-quality-metrics/accessibility/src/main/java/io/github/luzzu/linkeddata/qualitymetrics/accessibility/licensing/LicensingModelClassifier.java:75-95 | each of the last seven copyleft prefixes differs, case-folded, from the by-sa prefix at some position |
| LicensingModelClassifier.CopyLeftApartFromNotRecommended1Head | linked-data-quality-metrics/accessibility/src/main/java/io/github/luzzu/linkeddata/qualitymetrics/accessibility/licensing/LicensingModelClassifier.java:75-95 | each of the first eight copyleft prefixes differs, case-folded, from the gnu copyleft prefix at some position |
| LicensingModelClassifier.CopyLeftApartFromNotRecommended1Tail | linked-data-quality-metrics/accessibility/src/main/java/io/github/luzzu/linkeddata/qualitymetrics/accessibility/licensing/LicensingModelClassifier.java:75-95 | each of the last seven copyleft prefixes differs, case-folded, from the gnu copyleft prefix at some position |
| LicensingModelClassifier.CopyLeftApartFromNotRecommended2Head | linked-data-quality-metrics/accessibility/src/main/java/io/github/luzzu/linkeddata/qualitymetrics/accessibility/licensing/LicensingModelClassifier.java:75-95 | each of the first eight copyleft prefixes differs, case-folded, from the by-nc prefix at some position |
| LicensingModelClassifier.CopyLeftApartFromNotRecommended2Tail | linked-data-quality-metrics/accessibility/src/main/java/io/github/luzzu/linkeddata/qualitymetrics/accessibility/licensing/LicensingModelClassifier.java:75-95 | each of the last seven copyleft prefixes differs, case-folded, from the by-nc prefix at some position |
| LicensingModelClassifier.CopyLeftAndNotRecommendedDisjoint | linked-data-quality-metrics/accessibility/src/main/java/io/github/luzzu/linkeddata/qualitymetrics/accessibility/licensing/LicensingModelClassifier.java:126-147 | no node is both a copyleft and a not-recommended copyleft licence URI |
| LicensingModelClassifier.NotRecommendedLicenseStatementNeverHolds | linked-data-quality-metrics/accessibility/src/main/java/io/github/luzzu/linkeddata/qualitymetrics/accessibility/licensing/LicensingModelClassifier.java:170-177 | isNotRecommendedLicenseStatement is false for every node, since a printed literal starts with a quote and every pattern with "http" |
| LicensingModelClassifier.MultiLineTextIsNoStatement | linked-data-quality-metrics/accessibility/src/main/java/io/github/luzzu/linkeddata/qualitymetrics/accessibility/licensing/LicensingModelClassifier.java:99-100 | a literal whose lexical form contains a line terminator is never a licence statement ('.' does not match it, MULTILINE does not change that) |
| LicensingModelClassifier.EscapeQuotesWithoutQuotes | linked-data-quality-metrics/accessibility/src/main/java/io/github/luzzu/linkeddata/qualitymetrics/accessibility/licensing/LicensingModelClassifier.java:159 | a lexical form without quotes prints unescaped |
| LicensingModelClassifier.PrintedFormSingleLine | linked-data-quality-metrics/accessibility/src/main/java/io/github/luzzu/linkeddata/qualitymetrics/accessibility/licensing/LicensingModelClassifier.java:159 | a literal whose lexical form, tag and datatype are single-line prints on a single line |
| LicensingModelClassifier.WordInPrintedForm | linked-data-quality-metrics/accessibility/src/main/java/io/github/luzzu/linkeddata/qualitymetrics/accessibility/licensing/LicensingModelClassifier.java:159 | a word of a quote-free lexical form sits one position later in the printed form |
| LicensingModelClassifier.LicenseUnderIsStatement | linked-data-quality-metrics/accessibility/src/main/java/io/github/luzzu/linkeddata/qualitymetrics/accessibility/licensing/LicensingModelClassifier.java:99-100 | a single-line, quote-free text holding "license" and later "under" is a licence statement |
| LicensingModelClassifier.WordInPrintedDatatype | linked-data-quality-metrics/accessibility/src/main/java/io/github/luzzu/linkeddata/qualitymetrics/accessibility/licensing/LicensingModelClassifier.java:159 | a word of a (non xsd:string) datatype URI sits in the printed form after the lexical form and "^^" |
| LicensingModelClassifier.DatatypeCompletesStatement | linked-data-quality-metrics/accessibility/src/main/java/io/github/luzzu/linkeddata/qualitymetrics/accessibility/licensing/LicensingModelClassifier.java:155-162 | the datatype URI takes part in the match: "license" in the text and "right" in the datatype make a licence statement |
| HumanReadableLicense.HumanReadableLicense.constructor | linked-data-quality-metrics/accessibility/src/main/java/io/github/luzzu/linkeddata/qualitymetrics/accessibility/licensing/HumanReadableLicense.java:49-55 | the flag starts false, no problem is reported, the report switch is fixed |
| HumanReadableLicense.HumanReadableLicense.Compute | linked-data-quality-metrics/accessibility/src/main/java/io/github/luzzu/linkeddata/qualitymetrics/accessibility/licensing/HumanReadableLicense.java:76-103 | quads not about the dataset change nothing; a licensing predicate with a copyleft or not-recommended URI raises the flag and a not-recommended one is reported when reports are required; a documentation-property literal sets the flag to whether it is a licence statement, so it can clear it; anything else changes nothing; the flag is only ever raised by an endorsing quad |
| HumanReadableLicense.HumanReadableLicense.MetricValue | linked-data-quality-metrics/accessibility/src/main/java/io/github/luzzu/linkeddata/qualitymetrics/accessibility/licensing/HumanReadableLicense.java:130-132 | a true value implies some quad of the stream about the dataset named a copyleft licence or held a licence statement |
| HumanReadableLicense.HumanReadableLicense.GetProblemCollection | linked-data-quality-metrics/accessibility/src/main/java/io/github/luzzu/linkeddata/qualitymetrics/accessibility/licensing/HumanReadableLicense.java:135-144 | the dataset is reported as lacking a human-readable licence exactly when the flag is false and reports are required |
| RDFAccessibility.RDFAccessibility.constructor | linked-data-quality-metrics/accessibility/src/main/java/io/github/luzzu/linkeddata/qualitymetrics/accessibility/availability/RDFAccessibility.java:39-42 | the flag starts false and nothing is reported |
| RDFAccessibility.RDFAccessibility.Compute | linked-data-quality-metrics/accessibility/src/main/java/io/github/luzzu/linkeddata/qualitymetrics/accessibility/availability/RDFAccessibility.java:45-52 | a blank subject makes getURI() throw and changes nothing; otherwise a void:dataDump quad about the dataset raises the flag, which is never lowered |
| RDFAccessibility.RDFAccessibility.MetricValue | linked-data-quality-metrics/accessibility/src/main/java/io/github/luzzu/linkeddata/qualitymetrics/accessibility/availability/RDFAccessibility.java:55-57 | true exactly when some consumed quad is a void:dataDump of the dataset's own URI |
| RDFAccessibility.RDFAccessibility.GetProblemCollection | linked-data-quality-metrics/accessibility/src/main/java/io/github/luzzu/linkeddata/qualitymetrics/accessibility/availability/RDFAccessibility.java:77-87 | the missing dump is reported exactly when reports are required and no dump was seen |
| PresenceOfURIRegEx.PresenceOfURIRegEx.constructor | linked-data-quality-metrics/contextual/src/main/java/io/github/luzzu/linkeddata/qualitymetrics/contextual/understandability/PresenceOfURIRegEx.java:30-31 | the flag starts false and no triple is counted |
| PresenceOfURIRegEx.PresenceOfURIRegEx.Compute | linked-data-quality-metrics/contextual/src/main/java/io/github/luzzu/linkeddata/qualitymetrics/contextual/understandability/PresenceOfURIRegEx.java:35-41 | every quad is counted; the flag becomes true once a void:uriRegexPattern predicate is seen and never falls again |
| PresenceOfURIRegEx.PresenceOfURIRegEx.MetricValue | linked-data-quality-metrics/contextual/src/main/java/io/github/luzzu/linkeddata/qualitymetrics/contextual/understandability/PresenceOfURIRegEx.java:44-46 | true exactly when some consumed quad has the void:uriRegexPattern predicate |
| ShortURIs.PossibleDereferenceableURI | linked-data-quality-metrics/representation/src/main/java/io/github/luzzu/linkeddata/qualitymetrics/representational/conciseness/ShortURIs.java:146-149 | true exactly when the URI starts with "http" (the "https" test adds nothing) |
| ShortURIs.FilterGrows | linked-data-quality-metrics/representation/src/main/java/io/github/luzzu/linkeddata/qualitymetrics/representational/conciseness/ShortURIs.java:74-95 | adding an unseen URI grows the dereferenceable URIs by one exactly when it starts with "http", and the short ones by one exactly when it is also short |
| ShortURIs.ShortURIs.constructor | linked-data-quality-metrics/representation/src/main/java/io/github/luzzu/linkeddata/qualitymetrics/representational/conciseness/ShortURIs.java:47-61 | all counters zero, nothing seen, nothing reported |
| ShortURIs.ShortURIs.Classify | linked-data-quality-metrics/representation/src/main/java/io/github/luzzu/linkeddata/qualitymetrics/representational/conciseness/ShortURIs.java:74-120 | an unseen URI becomes seen; the dereferenceable count grows by one exactly for an http URI and the short count exactly for an http URI without '?' of at most 80 characters; a parametrised or long http URI is reported, '?' first, only when reports are required; both counters stay equal to the sizes of the dereferenceable and short subsets of the seen set |
| ShortURIs.ShortURIs.Compute | linked-data-quality-metrics/representation/src/main/java/io/github/luzzu/linkeddata/qualitymetrics/representational/conciseness/ShortURIs.java:67-123 | every quad is counted; an rdf:type quad changes nothing else; otherwise the seen set grows by the quad's URI subject and URI object, so each URI is classified once, and the problem list grows by the problem of the unseen URI subject, then that of the URI object unless the subject already was it; the invariant ties the problem list to the problems of the whole stream, in stream order |
| ShortURIs.ShortURIs.MetricValue | linked-data-quality-metrics/representation/src/main/java/io/github/luzzu/linkeddata/qualitymetrics/representational/conciseness/ShortURIs.java:126-128 | NaN exactly when no dereferenceable URI was seen in the whole stream; otherwise a value in [0,1] equal to short / dereferenceable over the distinct URIs of the stream |
| ShortURIs.DeltaCounts | linked-data-quality-metrics/representation/src/main/java/io/github/luzzu/linkeddata/qualitymetrics/representational/conciseness/ShortURIs.java:72-122 | a quad adds exactly its dereferenceable (and short) URIs not seen before |
| ShortURIs.ShortWithinDereferenceable | linked-data-quality-metrics/representation/src/main/java/io/github/luzzu/linkeddata/qualitymetrics/representational/conciseness/ShortURIs.java:54-116 | the short count never exceeds the dereferenceable count |
| ShortURIs.ShortURIs.Visit | linked-data-quality-metrics/representation/src/main/java/io/github/luzzu/linkeddata/qualitymetrics/representational/conciseness/ShortURIs.java:74-96 | a URI is added to the seen set; a URI seen before leaves the counters and problems unchanged; a new one adds one to the dereferenceable count exactly for an http URI, one to the short count exactly for a short http URI, and its problem, if any, to the end of the problem list |
| ShortURIs.ShareOf | linked-data-quality-metrics/representation/src/main/java/io/github/luzzu/linkeddata/qualitymetrics/representational/conciseness/ShortURIs.java:126-128 | short over dereferenceable URIs as a Java double: NaN exactly without a dereferenceable URI; otherwise in [0,1] and times their number it gives the number of short ones |
| ShortURIs.ProblemOf | linked-data-quality-metrics/representation/src/main/java/io/github/luzzu/linkeddata/qualitymetrics/representational/conciseness/ShortURIs.java:76-93 | an unseen URI yields at most one problem, and one exactly when reports are required and it is an http URI that is not short; the problem names the URI and is parametrised exactly when the URI has a '?', long only when it is over 80 characters |
| ShortURIs.ShortURIs.VisitQuad | linked-data-quality-metrics/representation/src/main/java/io/github/luzzu/linkeddata/qualitymetrics/representational/conciseness/ShortURIs.java:73-121 | the subject unless blank, then a URI object, is visited: the seen set grows by the quad's URIs and the problem list by the quad's problems, counters kept tied to the seen set |
| ShortURIs.NodeProblemsReportable | linked-data-quality-metrics/representation/src/main/java/io/github/luzzu/linkeddata/qualitymetrics/representational/conciseness/ShortURIs.java:74-120 | one node reports its URI once exactly when it is an unseen URI to be reported, and nothing otherwise |
| ShortURIs.QuadProblemsReportable | linked-data-quality-metrics/representation/src/main/java/io/github/luzzu/linkeddata/qualitymetrics/representational/conciseness/ShortURIs.java:72-122 | one quad reports exactly its unseen URIs that are http and not short, each once (a subject equal to the object is reported once) |
| ShortURIs.ProblemsOfStreamReportable | linked-data-quality-metrics/representation/src/main/java/io/github/luzzu/linkeddata/qualitymetrics/representational/conciseness/ShortURIs.java:64-122 | over a stream, the problems name exactly the seen http URIs that are not short, each once, when reports are required, and nothing otherwise |
| ShortURIs.ShortURIs.ReportedExactly | linked-data-quality-metrics/representation/src/main/java/io/github/luzzu/linkeddata/qualitymetrics/representational/conciseness/ShortURIs.java:64-122 | the problem list of the object names every seen dereferenceable URI that is not short, each once, when reports are required, and is empty otherwise |
| ShortURIs.TestExpectation | linked-data-quality-metrics/representation/src/test/java/io/github/luzzu/linkeddata/qualitymetrics/representational/conciseness/ShortURIsTest.java:29-51 | 468 short URIs among 534 dereferenceable ones give a value within 0.00001 of 0.87640449 |
| NoProlixRDF.NumberedMemberMatches | linked-data-quality-metrics/representation/src/main/java/io/github/luzzu/linkeddata/qualitymetrics/representational/conciseness/NoProlixRDF.java:104-105 | every rdf:_n with n a non-empty decimal numeral matches the container-membership pattern |
| NoProlixRDF.DotsMatchAnyCharacter | linked-data-quality-metrics/representation/src/main/java/io/github/luzzu/linkeddata/qualitymetrics/representational/conciseness/NoProlixRDF.java:105 | the unquoted dots of the namespace match any character but a line terminator, so a URI outside the RDF namespace can match too |
| NoProlixRDF.NotContainerMembershipAt | linked-data-quality-metrics/representation/src/main/java/io/github/luzzu/linkeddata/qualitymetrics/representational/conciseness/NoProlixRDF.java:105 | a URI that differs from the namespace at a position that is not a dot does not match |
| NoProlixRDF.NotContainerMembershipAfterNamespace | linked-data-quality-metrics/representation/src/main/java/io/github/luzzu/linkeddata/qualitymetrics/representational/conciseness/NoProlixRDF.java:105 | a URI whose character after the namespace is not '_' does not match |
| NoProlixRDF.PredicateHitsAtMostOne | linked-data-quality-metrics/representation/src/main/java/io/github/luzzu/linkeddata/qualitymetrics/representational/conciseness/NoProlixRDF.java:82-112 | the four tests of isRCCpredicate are mutually exclusive: a predicate hits exactly one of them when it is prolix and none otherwise |
| NoProlixRDF.NoProlixRDF.constructor | linked-data-quality-metrics/representation/src/main/java/io/github/luzzu/linkeddata/qualitymetrics/representational/conciseness/NoProlixRDF.java:37-39 | both counters start at zero |
| NoProlixRDF.NoProlixRDF.IsRCCPredicate | linked-data-quality-metrics/representation/src/main/java/io/github/luzzu/linkeddata/qualitymetrics/representational/conciseness/NoProlixRDF.java:82-112 | totalRCC grows by the number of the four tests the predicate passes |
| NoProlixRDF.NoProlixRDF.Compute | linked-data-quality-metrics/representation/src/main/java/io/github/luzzu/linkeddata/qualitymetrics/representational/conciseness/NoProlixRDF.java:46-80 | every quad is counted; totalRCC grows by one exactly when the quad is prolix: rdf:type with rdf:Statement, a container class or a collection class, or else a reification, member, collection or rdf:_n predicate |
| NoProlixRDF.NoProlixRDF.MetricValue | linked-data-quality-metrics/representation/src/main/java/io/github/luzzu/linkeddata/qualitymetrics/representational/conciseness/NoProlixRDF.java:116-118 | a value in [0,1]; 1 exactly when no quad of the stream is prolix, 0 exactly when every counted quad is; otherwise one minus the prolix share of the triples |
| NoProlixRDF.TestExpectation | linked-data-quality-metrics/representation/src/test/java/io/github/luzzu/linkeddata/qualitymetrics/representational/conciseness/NoProlixRDFTest.java:18-40 | 29 prolix quads among 1475 give a value within 0.00001 of 0.98033898305 |
| BlankNodeUsage.ContributionsIncluded | linked-data-quality-metrics/representation/src/main/java/io/github/luzzu/linkeddata/qualitymetrics/representational/interpretability/BlankNodeUsage.java:57-75 | every consumed quad's blank nodes and URIs are in the stream's sets |
| BlankNodeUsage.RepeatedQuadChangesNothing | linked-data-quality-metrics/representation/src/main/java/io/github/luzzu/linkeddata/qualitymetrics/representational/interpretability/BlankNodeUsage.java:38-73 | the sets are sets: consuming a quad a second time changes neither |
| BlankNodeUsage.EmptyIffOnlyTypeQuads | linked-data-quality-metrics/representation/src/main/java/io/github/luzzu/linkeddata/qualitymetrics/representational/interpretability/BlankNodeUsage.java:56-75 | both sets are empty exactly when every consumed quad is an rdf:type quad |
| BlankNodeUsage.Share | linked-data-quality-metrics/representation/src/main/java/io/github/luzzu/linkeddata/qualitymetrics/representational/interpretability/BlankNodeUsage.java:80 | NaN exactly for 0/0; otherwise a value in [0,1] that multiplies back to the URI count; 1.0 exactly when there are URIs and no blank node |
| BlankNodeUsage.BlankNodeUsage.constructor | linked-data-quality-metrics/representation/src/main/java/io/github/luzzu/linkeddata/qualitymetrics/representational/interpretability/BlankNodeUsage.java:38-45 | both sets empty and no triple counted |
| BlankNodeUsage.BlankNodeUsage.Compute | linked-data-quality-metrics/representation/src/main/java/io/github/luzzu/linkeddata/qualitymetrics/representational/interpretability/BlankNodeUsage.java:48-76 | every quad is counted; an rdf:type quad adds nothing; otherwise the subject and a non-literal object go to the blank-node set or the URI set by kind |
| BlankNodeUsage.BlankNodeUsage.MetricValue | linked-data-quality-metrics/representation/src/main/java/io/github/luzzu/linkeddata/qualitymetrics/representational/interpretability/BlankNodeUsage.java:79-83 | NaN exactly when neither set has an element; otherwise the URI share in [0,1], 1.0 exactly when no blank node was seen |
| BlankNodeUsage.BlankNodeUsage.NaNIffOnlyTypeQuads | linked-data-quality-metrics/representation/src/main/java/io/github/luzzu/linkeddata/qualitymetrics/representational/interpretability/BlankNodeUsage.java:56-83 | the value is NaN exactly when every consumed quad was an rdf:type quad |
| BlankNodeUsage.TestExpectation | linked-data-quality-metrics/representation/src/test/java/io/github/luzzu/linkeddata/qualitymetrics/representational/interpretability/NoBlankNodeUsageTest.java:36-59 | 573 dereferenceable URIs and 2 blank nodes give a value within 0.00001 of 0.99652173913 |
| HumanReadableLabelling.TypeIsNoLabelProperty | linked-data-quality-metrics/contextual/src/main/java/io/github/luzzu/linkeddata/qualitymetrics/contextual/understandability/HumanReadableLabelling.java:57-103 | rdf:type is not a label property, so one quad never takes both branches of compute |
| HumanReadableLabelling.OnTypeAgrees | linked-data-quality-metrics/contextual/src/main/java/io/github/luzzu/linkeddata/qualitymetrics/contextual/understandability/HumanReadableLabelling.java:88-101 | the rdf:type branch keeps the sets in agreement with the entities typed and labelled so far, with the entity added to the typed ones |
| HumanReadableLabelling.OnLabelAgrees | linked-data-quality-metrics/contextual/src/main/java/io/github/luzzu/linkeddata/qualitymetrics/contextual/understandability/HumanReadableLabelling.java:103-113 | the label branch keeps the sets in agreement, with the entity added to the labelled ones |
| HumanReadableLabelling.ReplayAgrees | linked-data-quality-metrics/contextual/src/main/java/io/github/luzzu/linkeddata/qualitymetrics/contextual/understandability/HumanReadableLabelling.java:84-115 | after any stream, WO holds the typed entities without a label, With only typed and labelled ones, Unknown every labelled entity not yet typed; the WO counter equals the size of WO and the With counter bounds the size of With |
| HumanReadableLabelling.WODisjoint | linked-data-quality-metrics/contextual/src/main/java/io/github/luzzu/linkeddata/qualitymetrics/contextual/understandability/HumanReadableLabelling.java:44-113 | WO shares no entity with With or with Unknown |
| HumanReadableLabelling.WithCounterCountsMoves | linked-data-quality-metrics/contextual/src/main/java/io/github/luzzu/linkeddata/qualitymetrics/contextual/understandability/HumanReadableLabelling.java:95-109 | the With counter counts moves, not members: type, label, label, type leaves one entity in With and the counter at 2 |
| HumanReadableLabelling.HumanReadableLabelling.constructor | linked-data-quality-metrics/contextual/src/main/java/io/github/luzzu/linkeddata/qualitymetrics/contextual/understandability/HumanReadableLabelling.java:44-55 | all three sets empty, both counters, the triple count and the value zero |
| HumanReadableLabelling.HumanReadableLabelling.EntityInASet | linked-data-quality-metrics/contextual/src/main/java/io/github/luzzu/linkeddata/qualitymetrics/contextual/understandability/HumanReadableLabelling.java:117-121 | true exactly when the entity is in WO, With or Unknown |
| HumanReadableLabelling.HumanReadableLabelling.Compute | linked-data-quality-metrics/contextual/src/main/java/io/github/luzzu/linkeddata/qualitymetrics/contextual/understandability/HumanReadableLabelling.java:84-115 | every quad is counted; the sets and counters move as one step of the state machine (typing files a new entity under WO or moves it from Unknown to With; labelling moves it from WO to With or files it under Unknown; blank subjects change nothing) |
| HumanReadableLabelling.HumanReadableLabelling.CountersReflectTyping | linked-data-quality-metrics/contextual/src/main/java/io/github/luzzu/linkeddata/qualitymetrics/contextual/understandability/HumanReadableLabelling.java:48-110 | both counters stay non-negative, and their sum is zero exactly when no URI entity was typed |
| HumanReadableLabelling.HumanReadableLabelling.MetricValue | linked-data-quality-metrics/contextual/src/main/java/io/github/luzzu/linkeddata/qualitymetrics/contextual/understandability/HumanReadableLabelling.java:123-130 | the value is stored and returned; NaN exactly when no URI entity was typed; otherwise With / (WO + With) over the counters, in [0,1] |
| HumanReadableLabelling.StepAgrees | linked-data-quality-metrics/contextual/src/main/java/io/github/luzzu/linkeddata/qualitymetrics/contextual/understandability/HumanReadableLabelling.java:84-115 | one quad keeps the three entity sets in step with the entities typed and labelled so far |
| EstimatedExtensionalConciseness.FilterSetup | linked-data-quality-metrics/intrinsic/src/main/java/io/github/luzzu/linkeddata/qualitymetrics/intrinsic/conciseness/EstimatedExtensionalConciseness.java:66-80 | the code as written: it fails with a ClassCastException exactly when the first argument is a non-null non-Integer; otherwise the filter gets the default size, 13 hash functions and rate 0.01 |
| EstimatedExtensionalConciseness.IntegerSizeIgnored | linked-data-quality-metrics/intrinsic/src/main/java/io/github/luzzu/linkeddata/qualitymetrics/intrinsic/conciseness/EstimatedExtensionalConciseness.java:74-75 | as written, an Integer size is ignored: the filter gets the default size instead |
| EstimatedExtensionalConciseness.OtherArgumentFails | linked-data-quality-metrics/intrinsic/src/main/java/io/github/luzzu/linkeddata/qualitymetrics/intrinsic/conciseness/EstimatedExtensionalConciseness.java:74-75 | as written, any other non-null first argument makes before() throw ClassCastException |
| EstimatedExtensionalConciseness.IntendedFilterSetup | linked-data-quality-metrics/intrinsic/src/main/java/io/github/luzzu/linkeddata/qualitymetrics/intrinsic/conciseness/EstimatedExtensionalConciseness.java:66-80 | the evidently intended setup: an Integer first argument gives the size, anything else the default; 13 hash functions and rate 0.01 |
| EstimatedExtensionalConciseness.IntendedSetupHonoursSize | linked-data-quality-metrics/intrinsic/src/main/java/io/github/luzzu/linkeddata/qualitymetrics/intrinsic/conciseness/EstimatedExtensionalConciseness.java:73-75 | the intended setup never fails and honours the size it is given |
| EstimatedExtensionalConciseness.Runs | linked-data-quality-metrics/intrinsic/src/main/java/io/github/luzzu/linkeddata/qualitymetrics/intrinsic/conciseness/EstimatedExtensionalConciseness.java:97-122 | the instances of a stream: none exactly for the empty stream, never more than its quads, the last about the last quad's subject |
| EstimatedExtensionalConciseness.Completed | linked-data-quality-metrics/intrinsic/src/main/java/io/github/luzzu/linkeddata/qualitymetrics/intrinsic/conciseness/EstimatedExtensionalConciseness.java:100-113 | the closed instances are all but the open one |
| EstimatedExtensionalConciseness.RunsAppend | linked-data-quality-metrics/intrinsic/src/main/java/io/github/luzzu/linkeddata/qualitymetrics/intrinsic/conciseness/EstimatedExtensionalConciseness.java:97-122 | one more quad either extends the open instance with its statement (same subject) or closes it and opens a new one |
| EstimatedExtensionalConciseness.DupsPlusDistinct | linked-data-quality-metrics/intrinsic/src/main/java/io/github/luzzu/linkeddata/qualitymetrics/intrinsic/conciseness/EstimatedExtensionalConciseness.java:103-105 | every fingerprint is either the first of its kind or a repeat: repeats plus distinct fingerprints make up all of them |
| EstimatedExtensionalConciseness.ReturningSubjectCountsTwice | linked-data-quality-metrics/intrinsic/src/main/java/io/github/luzzu/linkeddata/qualitymetrics/intrinsic/conciseness/EstimatedExtensionalConciseness.java:97-118 | a subject that comes back after another one starts a new instance: three quads about a, b, a give three instances |
| EstimatedExtensionalConciseness.TracksAppend | linked-data-quality-metrics/intrinsic/src/main/java/io/github/luzzu/linkeddata/qualitymetrics/intrinsic/conciseness/EstimatedExtensionalConciseness.java:86-124 | one step of compute keeps the state in step with the stream's instances, fingerprints and counters |
| EstimatedExtensionalConciseness.SameSubjectOrderIrrelevant | linked-data-quality-metrics/intrinsic/src/main/java/io/github/luzzu/linkeddata/qualitymetrics/intrinsic/conciseness/EstimatedExtensionalConciseness.java:54-122 | the statements of an instance form a set: two quads about the open subject give the same state in either order |
| EstimatedExtensionalConciseness.RepeatedQuadChangesNothing | linked-data-quality-metrics/intrinsic/src/main/java/io/github/luzzu/linkeddata/qualitymetrics/intrinsic/conciseness/EstimatedExtensionalConciseness.java:97-122 | a quad repeated straight away changes nothing |
| EstimatedExtensionalConciseness.Replay | linked-data-quality-metrics/intrinsic/src/main/java/io/github/luzzu/linkeddata/qualitymetrics/intrinsic/conciseness/EstimatedExtensionalConciseness.java:86-124 | the state after a whole stream keeps statements whenever it has a subject |
| EstimatedExtensionalConciseness.ReplayTracks | linked-data-quality-metrics/intrinsic/src/main/java/io/github/luzzu/linkeddata/qualitymetrics/intrinsic/conciseness/EstimatedExtensionalConciseness.java:86-124 | the state compute builds stands for the stream's instances |
| EstimatedExtensionalConciseness.UniqueInstances | linked-data-quality-metrics/intrinsic/src/main/java/io/github/luzzu/linkeddata/qualitymetrics/intrinsic/conciseness/EstimatedExtensionalConciseness.java:100-118 | with an exact filter, fewer duplicates than instances are counted, and created - duplicates is the number of distinct closed fingerprints plus the open instance |
| EstimatedExtensionalConciseness.EstimatedExtensionalConciseness.constructor | linked-data-quality-metrics/intrinsic/src/main/java/io/github/luzzu/linkeddata/qualitymetrics/intrinsic/conciseness/EstimatedExtensionalConciseness.java:48-63 | no filter yet, no open instance, all counters zero |
| EstimatedExtensionalConciseness.EstimatedExtensionalConciseness.Before | linked-data-quality-metrics/intrinsic/src/main/java/io/github/luzzu/linkeddata/qualitymetrics/intrinsic/conciseness/EstimatedExtensionalConciseness.java:66-80 | uses the corrected setup: the filter is built empty, with an Integer first argument as its size |
| EstimatedExtensionalConciseness.EstimatedExtensionalConciseness.CheckDuplicate | linked-data-quality-metrics/intrinsic/src/main/java/io/github/luzzu/linkeddata/qualitymetrics/intrinsic/conciseness/EstimatedExtensionalConciseness.java:103 | true exactly when the fingerprint was shown before; it is recorded either way |
| EstimatedExtensionalConciseness.EstimatedExtensionalConciseness.Compute | linked-data-quality-metrics/intrinsic/src/main/java/io/github/luzzu/linkeddata/qualitymetrics/intrinsic/conciseness/EstimatedExtensionalConciseness.java:86-124 | every quad is counted; the open instance, the fingerprints shown, the duplicates and the instances created move as one step of the stream's instance grouping |
| EstimatedExtensionalConciseness.EstimatedExtensionalConciseness.MetricValue | linked-data-quality-metrics/intrinsic/src/main/java/io/github/luzzu/linkeddata/qualitymetrics/intrinsic/conciseness/EstimatedExtensionalConciseness.java:136-140 | NaN exactly when no instance was created; otherwise (created - duplicates) / created, in [0,1], positive exactly when not every instance is a duplicate |
| EstimatedExtensionalConciseness.EstimatedExtensionalConciseness.CountersCountDistinctInstances | linked-data-quality-metrics/intrinsic/src/main/java/io/github/luzzu/linkeddata/qualitymetrics/intrinsic/conciseness/EstimatedExtensionalConciseness.java:100-140 | before any quad both counters are zero; after one, duplicates < created and created - duplicates counts distinct closed fingerprints plus the open instance |
| DataCubePopulationCompleteness.AssertComponentProperty | linked-data-quality-metrics/intrinsic/src/main/java/io/github/luzzu/linkeddata/qualitymetrics/intrinsic/completeness/DataCubePopulationCompleteness.java:248-267 | the reported members are members of the gold list: every member without a count, and none whose count satisfies the configured condition; a null count map fails with a NullPointerException exactly when the gold list is non-empty |
| DataCubePopulationCompleteness.UnknownOperatorReportsOnlyAbsent | linked-data-quality-metrics/intrinsic/src/main/java/io/github/luzzu/linkeddata/qualitymetrics/intrinsic/completeness/DataCubePopulationCompleteness.java:253-263 | with an operator none of the five comparisons recognises, exactly the members without a count are reported |
| DataCubePopulationCompleteness.CountsOfOne | linked-data-quality-metrics/intrinsic/src/main/java/io/github/luzzu/linkeddata/qualitymetrics/intrinsic/completeness/DataCubePopulationCompleteness.java:253-263 | with every count at 1, as compute stores them, either every gold member is reported or exactly the absent ones |
| DataCubePopulationCompleteness.Ones | linked-data-quality-metrics/intrinsic/src/main/java/io/github/luzzu/linkeddata/qualitymetrics/intrinsic/completeness/DataCubePopulationCompleteness.java:85-88 | the code-list map that counts each of a set of objects once has exactly those keys, each with count 1 |
| DataCubePopulationCompleteness.ObjectsRecordedAppend | linked-data-quality-metrics/intrinsic/src/main/java/io/github/luzzu/linkeddata/qualitymetrics/intrinsic/completeness/DataCubePopulationCompleteness.java:81-88 | a recorded quad adds its object to the objects of its own predicate only |
| DataCubePopulationCompleteness.OnesInsert | linked-data-quality-metrics/intrinsic/src/main/java/io/github/luzzu/linkeddata/qualitymetrics/intrinsic/completeness/DataCubePopulationCompleteness.java:86-87 | adding an object to the counted-once map stores count 1 for it |
| DataCubePopulationCompleteness.CodeListOf | linked-data-quality-metrics/intrinsic/src/main/java/io/github/luzzu/linkeddata/qualitymetrics/intrinsic/completeness/DataCubePopulationCompleteness.java:85-103 | the code list metricValue reads for a property is its recorded objects, each with count 1 |
| DataCubePopulationCompleteness.RecordConceptAppend | linked-data-quality-metrics/intrinsic/src/main/java/io/github/luzzu/linkeddata/qualitymetrics/intrinsic/completeness/DataCubePopulationCompleteness.java:85-88 | the stored count is read back and never incremented: recording a quad keeps the code-list map equal to the counted-once reference |
| DataCubePopulationCompleteness.RecordObservationAppend | linked-data-quality-metrics/intrinsic/src/main/java/io/github/luzzu/linkeddata/qualitymetrics/intrinsic/completeness/DataCubePopulationCompleteness.java:90-92 | recording a quad adds its subject to its object's observation set |
| DataCubePopulationCompleteness.UnrecordedAppend | linked-data-quality-metrics/intrinsic/src/main/java/io/github/luzzu/linkeddata/qualitymetrics/intrinsic/completeness/DataCubePopulationCompleteness.java:81 | a quad whose predicate is not configured leaves both maps as they were |
| DataCubePopulationCompleteness.ListCoverage | linked-data-quality-metrics/intrinsic/src/main/java/io/github/luzzu/linkeddata/qualitymetrics/intrinsic/completeness/DataCubePopulationCompleteness.java:101-105 | fails exactly where assertComponentProperty does; NaN exactly for an empty gold list; otherwise in [0,1], and 1 exactly when no member is reported |
| DataCubePopulationCompleteness.CodeListCoverage | linked-data-quality-metrics/intrinsic/src/main/java/io/github/luzzu/linkeddata/qualitymetrics/intrinsic/completeness/DataCubePopulationCompleteness.java:101-105 | the loop body computes the coverage of one code list |
| DataCubePopulationCompleteness.Coverages | linked-data-quality-metrics/intrinsic/src/main/java/io/github/luzzu/linkeddata/qualitymetrics/intrinsic/completeness/DataCubePopulationCompleteness.java:100-108 | one coverage (or failure) per loaded code list |
| DataCubePopulationCompleteness.SumRemove | linked-data-quality-metrics/intrinsic/src/main/java/io/github/luzzu/linkeddata/qualitymetrics/intrinsic/completeness/DataCubePopulationCompleteness.java:100-108 | the sum of the coverages does not depend on which code list is added first |
| DataCubePopulationCompleteness.VisitOneMore | linked-data-quality-metrics/intrinsic/src/main/java/io/github/luzzu/linkeddata/qualitymetrics/intrinsic/completeness/DataCubePopulationCompleteness.java:100-108 | visiting one more code list adds its coverage to the running sum |
| DataCubePopulationCompleteness.SumInAnyOrder | linked-data-quality-metrics/intrinsic/src/main/java/io/github/luzzu/linkeddata/qualitymetrics/intrinsic/completeness/DataCubePopulationCompleteness.java:100 | whatever order the HashMap's key set is visited in, the loop gives the same sum |
| DataCubePopulationCompleteness.SumBounds | linked-data-quality-metrics/intrinsic/src/main/java/io/github/luzzu/linkeddata/qualitymetrics/intrinsic/completeness/DataCubePopulationCompleteness.java:107 | a sum of unit values is NaN exactly when one of them is, and otherwise lies between 0 and their number |
| DataCubePopulationCompleteness.AverageBounds | linked-data-quality-metrics/intrinsic/src/main/java/io/github/luzzu/linkeddata/qualitymetrics/intrinsic/completeness/DataCubePopulationCompleteness.java:114 | a sum of at most count unit values over n >= count lies in [0,1], and below 1 when count < n |
| DataCubePopulationCompleteness.EvaluateFails | linked-data-quality-metrics/intrinsic/src/main/java/io/github/luzzu/linkeddata/qualitymetrics/intrinsic/completeness/DataCubePopulationCompleteness.java:97-115 | metricValue fails exactly when some non-empty code list has no recorded property |
| DataCubePopulationCompleteness.EvaluateFailsAt | linked-data-quality-metrics/intrinsic/src/main/java/io/github/luzzu/linkeddata/qualitymetrics/intrinsic/completeness/DataCubePopulationCompleteness.java:103 | one failing check makes metricValue fail with that fault |
| DataCubePopulationCompleteness.EvaluateSucceeds | linked-data-quality-metrics/intrinsic/src/main/java/io/github/luzzu/linkeddata/qualitymetrics/intrinsic/completeness/DataCubePopulationCompleteness.java:97-115 | without a failing check, metricValue is the summed coverage over the number of configured properties |
| DataCubePopulationCompleteness.AverageCoverage | linked-data-quality-metrics/intrinsic/src/main/java/io/github/luzzu/linkeddata/qualitymetrics/intrinsic/completeness/DataCubePopulationCompleteness.java:97-115 | the loop over the code lists returns the failure or the average the specification gives |
| DataCubePopulationCompleteness.EvaluateBounds | linked-data-quality-metrics/intrinsic/src/main/java/io/github/luzzu/linkeddata/qualitymetrics/intrinsic/completeness/DataCubePopulationCompleteness.java:97-115 | the value is NaN exactly when nothing is configured or some code list is empty; otherwise it lies in [0,1], and below 1 when a configured property has no code list |
| DataCubePopulationCompleteness.CoveragesBounds | linked-data-quality-metrics/intrinsic/src/main/java/io/github/luzzu/linkeddata/qualitymetrics/intrinsic/completeness/DataCubePopulationCompleteness.java:101-105 | each coverage that succeeds is NaN exactly for an empty code list, and otherwise lies in [0,1] |
| DataCubePopulationCompleteness.AverageOf | linked-data-quality-metrics/intrinsic/src/main/java/io/github/luzzu/linkeddata/qualitymetrics/intrinsic/completeness/DataCubePopulationCompleteness.java:114 | the average is NaN exactly when the sum is NaN or nothing is configured; otherwise it lies in [0,1], below 1 when fewer lists than properties contributed |
| DataCubePopulationCompleteness.DataCubePopulationCompleteness.constructor | linked-data-quality-metrics/intrinsic/src/main/java/io/github/luzzu/linkeddata/qualitymetrics/intrinsic/completeness/DataCubePopulationCompleteness.java:152-221 | the state before() leaves: the given configurations and code lists (every list for a configured property), empty maps, no triple counted |
| DataCubePopulationCompleteness.DataCubePopulationCompleteness.Compute | linked-data-quality-metrics/intrinsic/src/main/java/io/github/luzzu/linkeddata/qualitymetrics/intrinsic/completeness/DataCubePopulationCompleteness.java:77-95 | every quad is counted; a configured predicate with a literal object fails as asResource() does; a configured predicate with a resource object records the object in the predicate's code list (count 1) and the subject in the object's observations; any other quad leaves both maps as they were |
| DataCubePopulationCompleteness.DataCubePopulationCompleteness.MetricValue | linked-data-quality-metrics/intrinsic/src/main/java/io/github/luzzu/linkeddata/qualitymetrics/intrinsic/completeness/DataCubePopulationCompleteness.java:97-115 | the value is `Evaluate` of the recorded observations: the NullPointer failure of a check, or the summed coverage of the code lists divided by the number of configured properties |
| DataCubePopulationCompleteness.DataCubePopulationCompleteness.UnusedPropertyFails | linked-data-quality-metrics/intrinsic/src/main/java/io/github/luzzu/linkeddata/qualitymetrics/intrinsic/completeness/DataCubePopulationCompleteness.java:97-115 | a configured property with a non-empty code list that no quad used makes metricValue fail with a NullPointerException |
| OntologyHijacking.TermOf | linked-data-quality-metrics/intrinsic/src/main/java/io/github/luzzu/linkeddata/qualitymetrics/intrinsic/consistency/OntologyHijacking.java:53-71 | a URI names a term of the rule table only if it is that term's IRI |
| OntologyHijacking.TermOfIri | linked-data-quality-metrics/intrinsic/src/main/java/io/github/luzzu/linkeddata/qualitymetrics/intrinsic/consistency/OntologyHijacking.java:53-71 | every term of the rule table is recognised from its own IRI |
| OntologyHijacking.IriInjective | linked-data-quality-metrics/intrinsic/src/main/java/io/github/luzzu/linkeddata/qualitymetrics/intrinsic/consistency/OntologyHijacking.java:53-71 | no two terms of the rule table share an IRI, so a rule's resource identifies its term |
| OntologyHijacking.Expand | linked-data-quality-metrics/intrinsic/src/main/java/io/github/luzzu/linkeddata/qualitymetrics/intrinsic/consistency/OntologyHijacking.java:53-71 | a group of rules for one property has one rule per checked position |
| OntologyHijacking.RuleGroupsDistinct | linked-data-quality-metrics/intrinsic/src/main/java/io/github/luzzu/linkeddata/qualitymetrics/intrinsic/consistency/OntologyHijacking.java:53-71 | the nineteen rules name fifteen distinct properties, each with one or two checked positions |
| OntologyHijacking.IndexOf | linked-data-quality-metrics/intrinsic/src/main/java/io/github/luzzu/linkeddata/qualitymetrics/intrinsic/consistency/OntologyHijacking.java:216-226 | CustomList.indexOf: -1 exactly for null or a resource no rule equals; otherwise the first rule whose resource equals it |
| OntologyHijacking.RulesWith | linked-data-quality-metrics/intrinsic/src/main/java/io/github/luzzu/linkeddata/qualitymetrics/intrinsic/consistency/OntologyHijacking.java:97-99 | filtering keeps at most as many rules as it is given |
| OntologyHijacking.RulesWithAppend | linked-data-quality-metrics/intrinsic/src/main/java/io/github/luzzu/linkeddata/qualitymetrics/intrinsic/consistency/OntologyHijacking.java:97-99 | filtering a concatenation filters each part |
| OntologyHijacking.RulesWithGroup | linked-data-quality-metrics/intrinsic/src/main/java/io/github/luzzu/linkeddata/qualitymetrics/intrinsic/consistency/OntologyHijacking.java:97-99 | filtering one property's group keeps the whole group or nothing |
| OntologyHijacking.RulesWithGroups | linked-data-quality-metrics/intrinsic/src/main/java/io/github/luzzu/linkeddata/qualitymetrics/intrinsic/consistency/OntologyHijacking.java:97-99 | when at most one property is hit, filtering the table yields exactly that property's group, or nothing |
| OntologyHijacking.RulesWithExact | linked-data-quality-metrics/intrinsic/src/main/java/io/github/luzzu/linkeddata/qualitymetrics/intrinsic/consistency/OntologyHijacking.java:97-99 | the filter keeps only rules that are hit, and keeps some rule exactly when one is hit |
| OntologyHijacking.RulesForTable | linked-data-quality-metrics/intrinsic/src/main/java/io/github/luzzu/linkeddata/qualitymetrics/intrinsic/consistency/OntologyHijacking.java:94-99 | the rules selected for a predicate equal it, number at most two, exist exactly when the table contains the predicate, and are the rules of the property it names |
| OntologyHijacking.NamedByOneGroup | linked-data-quality-metrics/intrinsic/src/main/java/io/github/luzzu/linkeddata/qualitymetrics/intrinsic/consistency/OntologyHijacking.java:197-205 | a resource equals the property of at most one group of rules |
| OntologyHijacking.SelectRules | linked-data-quality-metrics/intrinsic/src/main/java/io/github/luzzu/linkeddata/qualitymetrics/intrinsic/consistency/OntologyHijacking.java:96-99 | the loop over the table collects, in order, exactly the rules equal to the predicate |
| OntologyHijacking.EmptyDomainAuthoritative | linked-data-quality-metrics/intrinsic/src/main/java/io/github/luzzu/linkeddata/qualitymetrics/intrinsic/consistency/OntologyHijacking.java:143-155 | with an empty dataset domain every namespace contains it, so every node is authoritative |
| OntologyHijacking.RuleHijacks | linked-data-quality-metrics/intrinsic/src/main/java/io/github/luzzu/linkeddata/qualitymetrics/intrinsic/consistency/OntologyHijacking.java:101-110 | each selected rule adds at most one hijack |
| OntologyHijacking.HijacksPerQuad | linked-data-quality-metrics/intrinsic/src/main/java/io/github/luzzu/linkeddata/qualitymetrics/intrinsic/consistency/OntologyHijacking.java:76-113 | one quad adds at most two hijacks, and none unless it triggers a rule; never more hijacks than rule checks |
| OntologyHijacking.HijackingValue | linked-data-quality-metrics/intrinsic/src/main/java/io/github/luzzu/linkeddata/qualitymetrics/intrinsic/consistency/OntologyHijacking.java:163-169 | 1.0 with no possible hijack; otherwise in [0,1], equal to 1 - hijacks/possible while hijacks do not exceed possible hijacks, and 1.0 exactly with no hijack or with twice as many hijacks as possible ones |
| OntologyHijacking.RatioBounds | linked-data-quality-metrics/intrinsic/src/main/java/io/github/luzzu/linkeddata/qualitymetrics/intrinsic/consistency/OntologyHijacking.java:166 | the ratio of hijacks to possible hijacks lies in [0,2], is 0 exactly with no hijack and 2 exactly at the double-counting maximum |
| OntologyHijacking.IntendedValue | linked-data-quality-metrics/intrinsic/src/main/java/io/github/luzzu/linkeddata/qualitymetrics/intrinsic/consistency/OntologyHijacking.java:158-169 | the corrected value lies in [0,1], is 1 exactly with no hijack and 0 exactly when every rule check found a hijack |
| OntologyHijacking.TestExpectation | linked-data-quality-metrics/intrinsic/src/test/java/io/github/luzzu/linkeddata/qualitymetrics/intrinsic/consistency/OntologyHijackingTest.java:54 | two hijacks out of five possible give 0.6 |
| OntologyHijacking.EquivalentClassScoresBest | linked-data-quality-metrics/intrinsic/src/main/java/io/github/luzzu/linkeddata/qualitymetrics/intrinsic/consistency/OntologyHijacking.java:101-111 | an owl:equivalentClass quad between two foreign classes counts two hijacks for one possible hijack, and metricValue then reports the best score, 1.0 |
| OntologyHijacking.OntologyHijacking.constructor | linked-data-quality-metrics/intrinsic/src/main/java/io/github/luzzu/linkeddata/qualitymetrics/intrinsic/consistency/OntologyHijacking.java:42-72 | a fresh metric: no hijack, no possible hijack, the nineteen rules, the given dataset domain and vocabulary check |
| OntologyHijacking.OntologyHijacking.Compute | linked-data-quality-metrics/intrinsic/src/main/java/io/github/luzzu/linkeddata/qualitymetrics/intrinsic/consistency/OntologyHijacking.java:76-113 | a quad without a URI object changes nothing; otherwise hijacks grow by the quad's hijacks and possible hijacks by one exactly when a rule is triggered |
| OntologyHijacking.OntologyHijacking.CountRuleHijacks | linked-data-quality-metrics/intrinsic/src/main/java/io/github/luzzu/linkeddata/qualitymetrics/intrinsic/consistency/OntologyHijacking.java:101-110 | the loop over the selected rules counts the rules whose checked node is not authoritative |
| OntologyHijacking.OntologyHijacking.HijacksBounded | linked-data-quality-metrics/intrinsic/src/main/java/io/github/luzzu/linkeddata/qualitymetrics/intrinsic/consistency/OntologyHijacking.java:76-113 | over the whole stream, hijacks never exceed twice the possible hijacks nor the rule checks made |
| OntologyHijacking.OntologyHijacking.MetricValue | linked-data-quality-metrics/intrinsic/src/main/java/io/github/luzzu/linkeddata/qualitymetrics/intrinsic/consistency/OntologyHijacking.java:163-169 | in [0,1]; 1.0 with nothing possible; 1 - hijacks/possible while hijacks do not exceed possible hijacks; 1.0 exactly with no hijack or with every possible hijack counted twice |
| OntologyHijacking.OntologyHijacking.IntendedMetricValue | linked-data-quality-metrics/intrinsic/src/main/java/io/github/luzzu/linkeddata/qualitymetrics/intrinsic/consistency/OntologyHijacking.java:158-169 | the corrected value over the stream: in [0,1], 1.0 exactly with no hijack, 0.0 exactly when every rule check found one |
| MisplacedClassesOrProperties.TypeIsChecked | linked-data-quality-metrics/intrinsic/src/main/java/io/github/luzzu/linkeddata/qualitymetrics/intrinsic/consistency/MisplacedClassesOrProperties.java:67-91 | an rdf:type quad whose class is checked has its predicate checked as well, so the class side runs only inside the property side's branch |
| MisplacedClassesOrProperties.TestExpectation | linked-data-quality-metrics/intrinsic/src/test/java/io/github/luzzu/linkeddata/qualitymetrics/intrinsic/consistency/MisplacedClassesOrPropertiesTest.java:46-47 | two misplaced terms among six checked ones give a value within 0.0001 of 0.66667 |
| MisplacedClassesOrProperties.MisplacedClassesOrProperties.constructor | linked-data-quality-metrics/intrinsic/src/main/java/io/github/luzzu/linkeddata/qualitymetrics/intrinsic/consistency/MisplacedClassesOrProperties.java:47-54 | empty caches and every counter at zero |
| MisplacedClassesOrProperties.MisplacedClassesOrProperties.Compute | linked-data-quality-metrics/intrinsic/src/main/java/io/github/luzzu/linkeddata/qualitymetrics/intrinsic/consistency/MisplacedClassesOrProperties.java:60-113 | every quad is a triple; a quad counts as a property use unless its predicate is owl:equivalentProperty or owl:inverseOf, and as a class use when it is an rdf:type quad with a defined URI class; a misplaced term is counted only the first time its defined term is seen |
| MisplacedClassesOrProperties.MisplacedClassesOrProperties.CheckPredicate | linked-data-quality-metrics/intrinsic/src/main/java/io/github/luzzu/linkeddata/qualitymetrics/intrinsic/consistency/MisplacedClassesOrProperties.java:73-88 | the property side: one more use; one more misplaced term exactly when the predicate is defined, not cached yet, and a class |
| MisplacedClassesOrProperties.MisplacedClassesOrProperties.CheckClass | linked-data-quality-metrics/intrinsic/src/main/java/io/github/luzzu/linkeddata/qualitymetrics/intrinsic/consistency/MisplacedClassesOrProperties.java:91-111 | the class side: one more use for an rdf:type quad with a defined URI class; one more misplaced term exactly when that class is not cached yet and is a property |
| MisplacedClassesOrProperties.MisplacedClassesOrProperties.PropertiesSkip | linked-data-quality-metrics/intrinsic/src/main/java/io/github/luzzu/linkeddata/qualitymetrics/intrinsic/consistency/MisplacedClassesOrProperties.java:67-69 | an owl:equivalentProperty or owl:inverseOf quad leaves the property side unchanged |
| MisplacedClassesOrProperties.MisplacedClassesOrProperties.ClassesSkip | linked-data-quality-metrics/intrinsic/src/main/java/io/github/luzzu/linkeddata/qualitymetrics/intrinsic/consistency/MisplacedClassesOrProperties.java:91-92 | a quad that is not an rdf:type quad with a defined URI class leaves the class side unchanged |
| MisplacedClassesOrProperties.MisplacedClassesOrProperties.MisplacedWithinTotals | linked-data-quality-metrics/intrinsic/src/main/java/io/github/luzzu/linkeddata/qualitymetrics/intrinsic/consistency/MisplacedClassesOrProperties.java:73-108 | each side never counts more misplaced terms than uses |
| MisplacedClassesOrProperties.MisplacedClassesOrProperties.MisplacedAreDistinctTerms | linked-data-quality-metrics/intrinsic/src/main/java/io/github/luzzu/linkeddata/qualitymetrics/intrinsic/consistency/MisplacedClassesOrProperties.java:74-87 | since the cache entry written false is overwritten with true, the misplaced counts are the numbers of distinct defined predicates that are classes and of distinct defined classes that are properties |
| MisplacedClassesOrProperties.MisplacedClassesOrProperties.MetricValue | linked-data-quality-metrics/intrinsic/src/main/java/io/github/luzzu/linkeddata/qualitymetrics/intrinsic/consistency/MisplacedClassesOrProperties.java:139-148 | in [0,1]; 1.0 exactly when nothing is misplaced; 0.0 exactly when something is misplaced and every use on both sides was misplaced |
| UsageOfDeprecatedClassesOrProperties.DeprecatedValue | linked-data-quality-metrics/intrinsic/src/main/java/io/github/luzzu/linkeddata/qualitymetrics/intrinsic/consistency/UsageOfDeprecatedClassesOrProperties.java:90-96 | 1 - deprecated/total as a Java double: NaN exactly when nothing was counted; otherwise in [0,1], 1 exactly with nothing deprecated, 0 exactly when everything counted is deprecated, and one minus it times the total is the deprecated count |
| UsageOfDeprecatedClassesOrProperties.TestExpectation | linked-data-quality-metrics/intrinsic/src/test/java/io/github/luzzu/linkeddata/qualitymetrics/intrinsic/consistency/UsageOfDeprecatedClassesOrPropertiesTest.java:47-49 | two deprecated terms among two types and five properties give a value within 0.0001 of 0.71429 |
| UsageOfDeprecatedClassesOrProperties.UsageOfDeprecatedClassesOrProperties.constructor | linked-data-quality-metrics/intrinsic/src/main/java/io/github/luzzu/linkeddata/qualitymetrics/intrinsic/consistency/UsageOfDeprecatedClassesOrProperties.java:44-49 | every counter at zero |
| UsageOfDeprecatedClassesOrProperties.UsageOfDeprecatedClassesOrProperties.Compute | linked-data-quality-metrics/intrinsic/src/main/java/io/github/luzzu/linkeddata/qualitymetrics/intrinsic/consistency/UsageOfDeprecatedClassesOrProperties.java:52-87 | every quad is counted; an rdf:type quad with a defined URI class adds a type (deprecated if the class is) and an assessed triple; an rdf:type quad with a URI object, or any other quad, adds a property; a non-type quad with a defined predicate adds an assessed triple, and a deprecated property if the predicate is deprecated |
| UsageOfDeprecatedClassesOrProperties.UsageOfDeprecatedClassesOrProperties.CountersBounded | linked-data-quality-metrics/intrinsic/src/main/java/io/github/luzzu/linkeddata/qualitymetrics/intrinsic/consistency/UsageOfDeprecatedClassesOrProperties.java:57-86 | deprecated types are within types, types within properties, properties within quads; assessed triples are the types plus the defined non-type predicates and cover every deprecated term |
| UsageOfDeprecatedClassesOrProperties.UsageOfDeprecatedClassesOrProperties.MetricValue | linked-data-quality-metrics/intrinsic/src/main/java/io/github/luzzu/linkeddata/qualitymetrics/intrinsic/consistency/UsageOfDeprecatedClassesOrProperties.java:90-96 | NaN exactly when no type or property was counted; otherwise in [0,1], and 1 exactly with nothing deprecated |
| UsageOfDeprecatedClassesOrProperties.UsageOfDeprecatedClassesOrProperties.NaNIffNoPropertyUse | linked-data-quality-metrics/intrinsic/src/main/java/io/github/luzzu/linkeddata/qualitymetrics/intrinsic/consistency/UsageOfDeprecatedClassesOrProperties.java:59-92 | the value is NaN exactly when every quad of the stream is an rdf:type quad with a non-URI object |
| MisusedOwlDatatypeOrObjectProperties.TestExpectation | linked-data-quality-metrics/intrinsic/src/test/java/io/github/luzzu/linkeddata/qualitymetrics/intrinsic/consistency/MisusedOwlDatatypeOrObjectPropertiesTest.java:39-40 | the expected 0.6 is 1 - 2/5 and not the 1 - 2/6 its comment names |
| MisusedOwlDatatypeOrObjectProperties.MisusedOwlDatatypeOrObjectProperties.constructor | linked-data-quality-metrics/intrinsic/src/main/java/io/github/luzzu/linkeddata/qualitymetrics/intrinsic/consistency/MisusedOwlDatatypeOrObjectProperties.java:44-47 | every counter at zero |
| MisusedOwlDatatypeOrObjectProperties.MisusedOwlDatatypeOrObjectProperties.Compute | linked-data-quality-metrics/intrinsic/src/main/java/io/github/luzzu/linkeddata/qualitymetrics/intrinsic/consistency/MisusedOwlDatatypeOrObjectProperties.java:59-85 | every quad is a triple; a defined predicate is one more valid predicate, and a misused object property when its object is a literal and it is an object property, or a misused datatype property when its object is a resource and it is a datatype property |
| MisusedOwlDatatypeOrObjectProperties.MisusedOwlDatatypeOrObjectProperties.MisusedWithinValid | linked-data-quality-metrics/intrinsic/src/main/java/io/github/luzzu/linkeddata/qualitymetrics/intrinsic/consistency/MisusedOwlDatatypeOrObjectProperties.java:66-84 | the misuses are the quads of the stream with a misused predicate, and never more than the valid predicates, which never exceed the triples |
| MisusedOwlDatatypeOrObjectProperties.MisusedOwlDatatypeOrObjectProperties.MetricValue | linked-data-quality-metrics/intrinsic/src/main/java/io/github/luzzu/linkeddata/qualitymetrics/intrinsic/consistency/MisusedOwlDatatypeOrObjectProperties.java:114-123 | in [0,1]; 1.0 exactly with no misuse; 0.0 exactly when every valid predicate was misused |
| ValidIFPUsage.TestExpectation | linked-data-quality-metrics/intrinsic/src/test/java/io/github/luzzu/linkeddata/qualitymetrics/intrinsic/consistency/ValidIFPUsageTest.java:57-58 | two violations among six IFP statements give a value within 0.0001 of 0.666667, the value the test's comments derive; its assertion of that value is commented out |
| ValidIFPUsage.ValidIFPUsage.constructor | linked-data-quality-metrics/intrinsic/src/main/java/io/github/luzzu/linkeddata/qualitymetrics/intrinsic/consistency/ValidIFPUsage.java:48-56 | no IFP statement, no violation, an empty seen map, no quad counted |
| ValidIFPUsage.ValidIFPUsage.Compute | linked-data-quality-metrics/intrinsic/src/main/java/io/github/luzzu/linkeddata/qualitymetrics/intrinsic/consistency/ValidIFPUsage.java:59-78 | every quad is counted; a quad whose predicate is a defined inverse-functional property is one more IFP statement, a violation when its predicate-object key was seen before, and otherwise stored under that key |
| ValidIFPUsage.ValidIFPUsage.ViolationsAreRepeats | linked-data-quality-metrics/intrinsic/src/main/java/io/github/luzzu/linkeddata/qualitymetrics/intrinsic/consistency/ValidIFPUsage.java:63-75 | the violations are the IFP statements minus the distinct keys among them, and each stored statement is the first IFP statement of the stream with its key |
| ValidIFPUsage.ValidIFPUsage.MetricValue | linked-data-quality-metrics/intrinsic/src/main/java/io/github/luzzu/linkeddata/qualitymetrics/intrinsic/consistency/ValidIFPUsage.java:106-115 | in (0,1]: never 0.0, since the first statement with each key is never a violation; 1.0 exactly with no violation |
| ReuseExistingTerms.OverlapValue | linked-data-quality-metrics/representation/src/main/java/io/github/luzzu/linkeddata/qualitymetrics/representational/interoperability/ReuseExistingTerms.java:158-172 | overlapping over counted terms as a Java double: NaN exactly when nothing was counted; otherwise in [0,1], 1 exactly when every counted term overlaps and 0 exactly when none does |
| ReuseExistingTerms.SeeOneMore | linked-data-quality-metrics/representation/src/main/java/io/github/luzzu/linkeddata/qualitymetrics/representational/interoperability/ReuseExistingTerms.java:129-153 | marking a new term as seen keeps the overlapping terms valid, grows the seen set by one, and the new term is not yet an overlapping term |
| ReuseExistingTerms.OverlapOneMore | linked-data-quality-metrics/representation/src/main/java/io/github/luzzu/linkeddata/qualitymetrics/representational/interoperability/ReuseExistingTerms.java:123-126 | a seen, defined term that is not yet overlapping becomes one, with its namespace's count bumped, and the overlapping terms stay distinct, seen and defined |
| ReuseExistingTerms.CountOneMore | linked-data-quality-metrics/representation/src/main/java/io/github/luzzu/linkeddata/qualitymetrics/representational/interoperability/ReuseExistingTerms.java:125-126 | bumping a suggested or top vocabulary's count for a new overlapping term keeps every count equal to its namespace's number of overlapping terms |
| ReuseExistingTerms.ReuseExistingTerms.constructor | linked-data-quality-metrics/representation/src/main/java/io/github/luzzu/linkeddata/qualitymetrics/representational/interoperability/ReuseExistingTerms.java:64-97 | the ten top vocabularies, a zero count for each suggested vocabulary before() loads, an empty seen set and every counter at zero |
| ReuseExistingTerms.ReuseExistingTerms.Compute | linked-data-quality-metrics/representation/src/main/java/io/github/luzzu/linkeddata/qualitymetrics/representational/interoperability/ReuseExistingTerms.java:101-155 | every quad is one more triple. The counters become `Computed` of the old ones: the class of an rdf:type quad with a URI object is checked, then the predicate against the terms seen after the class. A literal class fails as getURI() does, before anything changes. A class whose lookup fails raises MetricProcessingException and the predicate is not checked; so does a predicate whose lookup fails. The invariant is kept, including that every seen, defined term of a suggested or top vocabulary is an overlapping term |
| ReuseExistingTerms.ReuseExistingTerms.CheckTerm | linked-data-quality-metrics/representation/src/main/java/io/github/luzzu/linkeddata/qualitymetrics/representational/interoperability/ReuseExistingTerms.java:111-154 | the counters become `Checked` of the old ones, and the call fails with MetricProcessingException exactly when the term is unseen, its namespace is a suggested or top vocabulary, and its lookup fails |
| ReuseExistingTerms.ReuseExistingTerms.Fail | linked-data-quality-metrics/representation/src/main/java/io/github/luzzu/linkeddata/qualitymetrics/representational/interoperability/ReuseExistingTerms.java:134-145 | a failing lookup has already counted the new term as a class or property and does not mark it as seen; nothing else changes |
| ReuseExistingTerms.ReuseExistingTerms.See | linked-data-quality-metrics/representation/src/main/java/io/github/luzzu/linkeddata/qualitymetrics/representational/interoperability/ReuseExistingTerms.java:134-153 | a new term is counted as a class or property and marked as seen; nothing else changes, and unless the term overlaps the invariant holds again |
| ReuseExistingTerms.ReuseExistingTerms.Overlap | linked-data-quality-metrics/representation/src/main/java/io/github/luzzu/linkeddata/qualitymetrics/representational/interoperability/ReuseExistingTerms.java:147-151 | a seen, defined term of a suggested or top vocabulary is one more overlapping class or property, joins the overlapping terms and bumps its namespace's count, restoring the full invariant |
| ReuseExistingTerms.ReuseExistingTerms.CheckedEffects | linked-data-quality-metrics/representation/src/main/java/io/github/luzzu/linkeddata/qualitymetrics/representational/interoperability/ReuseExistingTerms.java:134-154 | checking a term: a seen term changes nothing; an unseen one is one more class or property; a failed lookup is one more failure and leaves the term unseen; otherwise the term is marked seen, and it is one more overlapping class or property, appended to the overlapping terms with its namespace's count bumped, exactly when its vocabulary is suggested or top and the lookup says it is defined |
| ReuseExistingTerms.ReuseExistingTerms.ComputedEffects | linked-data-quality-metrics/representation/src/main/java/io/github/luzzu/linkeddata/qualitymetrics/representational/interoperability/ReuseExistingTerms.java:101-155 | compute lifts the term check to the quad: totals, overlap counters, the overlapping terms, the namespace counts, the seen set and the failures each change by the class check, then, unless the class was a literal or its lookup failed, by the predicate check against the terms seen after the class |
| ReuseExistingTerms.ReuseExistingTerms.MetricValue | linked-data-quality-metrics/representation/src/main/java/io/github/luzzu/linkeddata/qualitymetrics/representational/interoperability/ReuseExistingTerms.java:158-172 | NaN exactly when nothing was counted; otherwise in [0,1], 1 exactly when every counted term overlaps |
| ReuseExistingTerms.ReuseExistingTerms.UnusedVocabularies | linked-data-quality-metrics/representation/src/main/java/io/github/luzzu/linkeddata/qualitymetrics/representational/interoperability/ReuseExistingTerms.java:162-169 | the vocabularies reported as unused are exactly the counted vocabularies that no overlapping term belongs to |
| ReuseExistingTerms.ReuseExistingTerms.UnusedAreUntouched | linked-data-quality-metrics/representation/src/main/java/io/github/luzzu/linkeddata/qualitymetrics/representational/interoperability/ReuseExistingTerms.java:163-165 | a vocabulary's count is 0 exactly when no overlapping term belongs to it |
| ExtendedProvenanceMetric.Activity.constructor | linked-data-quality-metrics/contextual/src/main/java/io/github/luzzu/linkeddata/qualitymetrics/contextual/provenance/ExtendedProvenanceMetric.java:180-183 | a new activity has no URI, agent or data source |
| ExtendedProvenanceMetric.Activity.BasicValue | linked-data-quality-metrics/contextual/src/main/java/io/github/luzzu/linkeddata/qualitymetrics/contextual/provenance/ExtendedProvenanceMetric.java:185-190 | an activity scores 0, 0.5 or 1: 1 exactly with both a data source and an agent, 0 exactly with neither |
| ExtendedProvenanceMetric.ActivitySumBounds | linked-data-quality-metrics/contextual/src/main/java/io/github/luzzu/linkeddata/qualitymetrics/contextual/provenance/ExtendedProvenanceMetric.java:168-169 | the summed activity scores lie between 0 and the number of activities, reach it exactly when every activity scores 1, and are 0 exactly when every activity scores 0 |
| ExtendedProvenanceMetric.Share | linked-data-quality-metrics/contextual/src/main/java/io/github/luzzu/linkeddata/qualitymetrics/contextual/provenance/ExtendedProvenanceMetric.java:172 | a part of a positive whole divides it into [0,1], giving 1 exactly for the whole and 0 exactly for nothing |
| ExtendedProvenanceMetric.Entity.constructor | linked-data-quality-metrics/contextual/src/main/java/io/github/luzzu/linkeddata/qualitymetrics/contextual/provenance/ExtendedProvenanceMetric.java:156-160 | a new entity has no URI, no agent and no activities |
| ExtendedProvenanceMetric.Entity.Value | linked-data-quality-metrics/contextual/src/main/java/io/github/luzzu/linkeddata/qualitymetrics/contextual/provenance/ExtendedProvenanceMetric.java:162-176 | an entity scores in [0,1]: 1 exactly with an agent and at least one activity, every activity scoring 1; 0 exactly with no agent and every activity scoring 0 |
| ExtendedProvenanceMetric.Entity.GetBasicValue | linked-data-quality-metrics/contextual/src/main/java/io/github/luzzu/linkeddata/qualitymetrics/contextual/provenance/ExtendedProvenanceMetric.java:162-176 | the loop over the activities computes the entity's score |
| ExtendedProvenanceMetric.ExtendedProvenanceMetric.constructor | linked-data-quality-metrics/contextual/src/main/java/io/github/luzzu/linkeddata/qualitymetrics/contextual/provenance/ExtendedProvenanceMetric.java:58-63 | empty entity and activity directories, no triple counted |
| ExtendedProvenanceMetric.ExtendedProvenanceMetric.EntitiesDistinct | linked-data-quality-metrics/contextual/src/main/java/io/github/luzzu/linkeddata/qualitymetrics/contextual/provenance/ExtendedProvenanceMetric.java:109-116 | distinct keys of the entity directory hold distinct entity objects |
| ExtendedProvenanceMetric.ExtendedProvenanceMetric.GetOrPutEntity | linked-data-quality-metrics/contextual/src/main/java/io/github/luzzu/linkeddata/qualitymetrics/contextual/provenance/ExtendedProvenanceMetric.java:109-116 | returns the entity stored under the key, or stores and returns a fresh one with no agent or activities; the returned entity's URI is the key |
| ExtendedProvenanceMetric.ExtendedProvenanceMetric.GetOrPutActivity | linked-data-quality-metrics/contextual/src/main/java/io/github/luzzu/linkeddata/qualitymetrics/contextual/provenance/ExtendedProvenanceMetric.java:118-125 | returns the activity stored under the key, or stores and returns a fresh one carrying the key as URI and no agent or data source |
| ExtendedProvenanceMetric.ExtendedProvenanceMetric.Compute | linked-data-quality-metrics/contextual/src/main/java/io/github/luzzu/linkeddata/qualitymetrics/contextual/provenance/ExtendedProvenanceMetric.java:66-107 | an agent-of-activity quad with a non-URI object fails as getURI() does. The directories gain only the keys the quad names, and existing entities stay filed where they are. Only a wasGeneratedBy subject may be re-pointed in the activity directory. The subject's record gets exactly the field effect of its predicate, and every other record, new or old, is untouched or fresh with no agent, activities or data source. totalTriples never changes |
| ExtendedProvenanceMetric.ExtendedProvenanceMetric.ByPredicate | linked-data-quality-metrics/contextual/src/main/java/io/github/luzzu/linkeddata/qualitymetrics/contextual/provenance/ExtendedProvenanceMetric.java:71-96 | wasAttributedTo sets the subject entity's agent. wasGeneratedBy points the subject at the object's activity in the activity directory and appends that activity to the subject entity. used sets the subject activity's data source. wasAssociatedWith or actedOnBehalfOf set its agent, failing on a non-URI object. The fields of the touched record that the predicate does not set keep their values, and every other entity and activity record is unchanged |
| ExtendedProvenanceMetric.ExtendedProvenanceMetric.ByType | linked-data-quality-metrics/contextual/src/main/java/io/github/luzzu/linkeddata/qualitymetrics/contextual/provenance/ExtendedProvenanceMetric.java:98-106 | a quad typed prov:Entity or prov:Activity registers its subject in that directory with a fresh, empty record; no existing entry or record changes |
| ExtendedProvenanceMetric.ExtendedProvenanceMetric.Attributed | linked-data-quality-metrics/contextual/src/main/java/io/github/luzzu/linkeddata/qualitymetrics/contextual/provenance/ExtendedProvenanceMetric.java:72-75 | the subject entity, found or created, gets the object as agent and keeps its activities; every other entity and every activity is unchanged |
| ExtendedProvenanceMetric.ExtendedProvenanceMetric.Generated | linked-data-quality-metrics/contextual/src/main/java/io/github/luzzu/linkeddata/qualitymetrics/contextual/provenance/ExtendedProvenanceMetric.java:78-83 | the object's activity, found or created with no agent or data source, is stored under the subject too and appended to the subject entity's activities; the entity keeps its agent, every other entity and every existing activity is unchanged |
| ExtendedProvenanceMetric.ExtendedProvenanceMetric.Used | linked-data-quality-metrics/contextual/src/main/java/io/github/luzzu/linkeddata/qualitymetrics/contextual/provenance/ExtendedProvenanceMetric.java:86-89 | the subject activity, found or created, gets the object as data source and keeps its agent; every other activity and every entity is unchanged |
| ExtendedProvenanceMetric.ExtendedProvenanceMetric.Associated | linked-data-quality-metrics/contextual/src/main/java/io/github/luzzu/linkeddata/qualitymetrics/contextual/provenance/ExtendedProvenanceMetric.java:92-96 | the subject activity, found or created, gets the object as agent and keeps its data source; the call fails exactly when the object is not a URI, and then no existing activity changes; every other activity and every entity is unchanged |
| ExtendedProvenanceMetric.ExtendedProvenanceMetric.ValueSumRemove | linked-data-quality-metrics/contextual/src/main/java/io/github/luzzu/linkeddata/qualitymetrics/contextual/provenance/ExtendedProvenanceMetric.java:134 | the sum of entity scores splits into one entity and the rest, so any visiting order gives the same sum |
| ExtendedProvenanceMetric.ExtendedProvenanceMetric.ValueSumBounds | linked-data-quality-metrics/contextual/src/main/java/io/github/luzzu/linkeddata/qualitymetrics/contextual/provenance/ExtendedProvenanceMetric.java:134 | the summed scores lie between 0 and the number of entities, and reach it exactly when every entity scores 1 |
| ExtendedProvenanceMetric.ExtendedProvenanceMetric.Mean | linked-data-quality-metrics/contextual/src/main/java/io/github/luzzu/linkeddata/qualitymetrics/contextual/provenance/ExtendedProvenanceMetric.java:129-137 | the mean entity score lies in [0,1] and is 1 exactly when there is an entity and every entity scores 1 |
| ExtendedProvenanceMetric.ExtendedProvenanceMetric.MetricValue | linked-data-quality-metrics/contextual/src/main/java/io/github/luzzu/linkeddata/qualitymetrics/contextual/provenance/ExtendedProvenanceMetric.java:129-137 | the loop over the entity directory returns the mean entity score, 0.0 without entities |
| BasicProvenanceMetric.DocumentedRemove | linked-data-quality-metrics/contextual/src/main/java/io/github/luzzu/linkeddata/qualitymetrics/contextual/provenance/BasicProvenanceMetric.java:80-81 | the count of datasets with a creator or publisher splits into one dataset and the rest, so any visiting order gives the same count |
| BasicProvenanceMetric.DocumentedBounds | linked-data-quality-metrics/contextual/src/main/java/io/github/luzzu/linkeddata/qualitymetrics/contextual/provenance/BasicProvenanceMetric.java:80-81 | the count is at most the number of datasets, equals it exactly when each has a creator or publisher, and is 0 exactly when none has |
| BasicProvenanceMetric.Share | linked-data-quality-metrics/contextual/src/main/java/io/github/luzzu/linkeddata/qualitymetrics/contextual/provenance/BasicProvenanceMetric.java:77-84 | the share of documented datasets lies in [0,1]; 1 exactly when there is a dataset and each is documented; 0 exactly when none is (including no dataset at all) |
| BasicProvenanceMetric.BasicProvenanceMetric.constructor | linked-data-quality-metrics/contextual/src/main/java/io/github/luzzu/linkeddata/qualitymetrics/contextual/provenance/BasicProvenanceMetric.java:39-44 | an empty dataset map and metadata set, no triple counted |
| BasicProvenanceMetric.BasicProvenanceMetric.Compute | linked-data-quality-metrics/contextual/src/main/java/io/github/luzzu/linkeddata/qualitymetrics/contextual/provenance/BasicProvenanceMetric.java:47-75 | an rdf:type void:Dataset or dcat:Dataset quad records its subject with no creator and marks it as metadata; a dc:creator or dc:publisher quad with a URI object records that URI for its subject; no other entry changes, and totalTriples never does |
| BasicProvenanceMetric.BasicProvenanceMetric.MetricValue | linked-data-quality-metrics/contextual/src/main/java/io/github/luzzu/linkeddata/qualitymetrics/contextual/provenance/BasicProvenanceMetric.java:77-84 | the loop over the dataset map returns the share of datasets with a creator or publisher |
| VocabularyUsageIndication.Ratio | linked-data-quality-metrics/contextual/src/main/java/io/github/luzzu/linkeddata/qualitymetrics/contextual/understandability/VocabularyUsageIndication.java:83-95 | the indicated share of the used namespaces lies in [0,1]; 0 exactly when no used namespace is indicated; 1 exactly when some namespace is used and every used one is indicated |
| VocabularyUsageIndication.VocabularyUsageIndication.constructor | linked-data-quality-metrics/contextual/src/main/java/io/github/luzzu/linkeddata/qualitymetrics/contextual/understandability/VocabularyUsageIndication.java:43-53 | no namespace used or indicated, no value calculated, no triple counted, no problem reported |
| VocabularyUsageIndication.VocabularyUsageIndication.Compute | linked-data-quality-metrics/contextual/src/main/java/io/github/luzzu/linkeddata/qualitymetrics/contextual/understandability/VocabularyUsageIndication.java:65-76 | every quad is a triple; the predicate's namespace is used, and so is the class's namespace of an rdf:type quad with a URI object; a void:vocabulary quad indicates its object's URI, failing as getURI() does when the object is not a URI |
| VocabularyUsageIndication.VocabularyUsageIndication.MetricValue | linked-data-quality-metrics/contextual/src/main/java/io/github/luzzu/linkeddata/qualitymetrics/contextual/understandability/VocabularyUsageIndication.java:79-98 | the first call computes and caches the ratio of indicated used namespaces; later calls return the cached value |
| VocabularyUsageIndication.VocabularyUsageIndication.GetProblemCollection | linked-data-quality-metrics/contextual/src/main/java/io/github/luzzu/linkeddata/qualitymetrics/contextual/understandability/VocabularyUsageIndication.java:117-131 | on the first call with reports required, the indicated namespaces are removed from the used ones, which leaves a ratio of 0, and each remaining used namespace is reported once; otherwise nothing changes |
| MultipleLanguageUsage.SubjectForm | linked-data-quality-metrics/representation/src/main/java/io/github/luzzu/linkeddata/qualitymetrics/representational/versatility/MultipleLanguageUsage.java:65 | the key of a subject is its URI, or its blank-node label |
| MultipleLanguageUsage.MathRound | linked-data-quality-metrics/representation/src/main/java/io/github/luzzu/linkeddata/qualitymetrics/representational/versatility/MultipleLanguageUsage.java:88 | Math.round: 0 for NaN, otherwise the integer within half a unit below or at the value plus one half |
| MultipleLanguageUsage.RoundBetween | linked-data-quality-metrics/representation/src/main/java/io/github/luzzu/linkeddata/qualitymetrics/representational/versatility/MultipleLanguageUsage.java:88 | rounding a value between two integers stays between them |
| MultipleLanguageUsage.RoundedMeanBetween | linked-data-quality-metrics/representation/src/main/java/io/github/luzzu/linkeddata/qualitymetrics/representational/versatility/MultipleLanguageUsage.java:86-88 | the rounded mean of a total lying between lo and hi times the count lies between lo and hi |
| MultipleLanguageUsage.TotalRemove | linked-data-quality-metrics/representation/src/main/java/io/github/luzzu/linkeddata/qualitymetrics/representational/versatility/MultipleLanguageUsage.java:81-82 | the total number of languages splits into one subject and the rest, so any visiting order gives the same total |
| MultipleLanguageUsage.TotalBounds | linked-data-quality-metrics/representation/src/main/java/io/github/luzzu/linkeddata/qualitymetrics/representational/versatility/MultipleLanguageUsage.java:81-82 | with every subject between lo and hi languages, the total lies between lo and hi times the number of subjects |
| MultipleLanguageUsage.ValueBetween | linked-data-quality-metrics/representation/src/main/java/io/github/luzzu/linkeddata/qualitymetrics/representational/versatility/MultipleLanguageUsage.java:86-88 | with every subject between lo >= 1 and hi languages, the value lies between lo and hi, so the replacement of 0 by 1 applies only to an empty map, which gives 1 |
| MultipleLanguageUsage.ValueAtLeastOne | linked-data-quality-metrics/representation/src/main/java/io/github/luzzu/linkeddata/qualitymetrics/representational/versatility/MultipleLanguageUsage.java:77-89 | every reachable state has a value of at least 1 |
| MultipleLanguageUsage.MultipleLanguageUsage.constructor | linked-data-quality-metrics/representation/src/main/java/io/github/luzzu/linkeddata/qualitymetrics/representational/versatility/MultipleLanguageUsage.java:52-55 | an empty language map, no triple counted |
| MultipleLanguageUsage.MultipleLanguageUsage.Compute | linked-data-quality-metrics/representation/src/main/java/io/github/luzzu/linkeddata/qualitymetrics/representational/versatility/MultipleLanguageUsage.java:58-74 | every quad is a triple; a literal with a language tag adds that tag to its subject's languages and leaves every other subject as it was; any other quad, or a tag already recorded, leaves the map unchanged |
| MultipleLanguageUsage.MultipleLanguageUsage.MetricValue | linked-data-quality-metrics/representation/src/main/java/io/github/luzzu/linkeddata/qualitymetrics/representational/versatility/MultipleLanguageUsage.java:77-89 | the loop over the map returns the rounded mean number of languages per subject, raised to 1 when it rounds to 0, and never below 1 |
| MultipleLanguageUsage.DocumentedExample | linked-data-quality-metrics/representation/src/main/java/io/github/luzzu/linkeddata/qualitymetrics/representational/versatility/MultipleLanguageUsage.java:34-43 | 7 languages over 5 resources round to 1 |
| CompatibleDatatype.CompatibleDatatype.constructor | linked-data-quality-metrics/intrinsic/src/main/java/io/github/luzzu/linkeddata/qualitymetrics/intrinsic/syntacticvalidity/CompatibleDatatype.java:48-51 | all three counters start at zero |
| CompatibleDatatype.CompatibleDatatype.Compute | linked-data-quality-metrics/intrinsic/src/main/java/io/github/luzzu/linkeddata/qualitymetrics/intrinsic/syntacticvalidity/CompatibleDatatype.java:54-116 | every literal object is counted and adds one to the correct count when its datatype (xsd:string for a plain literal, rdf:langString for a tagged one, as Jena's RDF 1.1 nodes always carry one) accepts its lexical form, else one to the incorrect count; other quads change nothing |
| CompatibleDatatype.CompatibleDatatype.EveryLiteralJudged | linked-data-quality-metrics/intrinsic/src/main/java/io/github/luzzu/linkeddata/qualitymetrics/intrinsic/syntacticvalidity/CompatibleDatatype.java:57-72 | the datatype test never finds null, so every literal is judged once: correct + incorrect equals the number of literals |
| CompatibleDatatype.CompatibleDatatype.MetricValue | linked-data-quality-metrics/intrinsic/src/main/java/io/github/luzzu/linkeddata/qualitymetrics/intrinsic/syntacticvalidity/CompatibleDatatype.java:83-92 | a value in [0,1]; 1.0 when no literal was seen (the NaN replaced); otherwise correct / (correct + incorrect); 1.0 exactly when no literal was incorrect |

## Left out

- Problem reports are built from Jena models, quads and bags. Only four metrics keep theirs, as a list of problem values: HumanReadableLicense, ShortURIs, RDFAccessibility and VocabularyUsageIndication. Each problem value names the resource and the kind of problem the Java quad records. The other metrics' problem reports are not modelled.
- `getObservationActivity`, logging and the metric's RDF type constants do not change what a metric computes, so they are left out.
- The seen-caches are `ConcurrentLinkedHashMap`s, LRU maps of capacity 100000. They are modelled as unbounded sets and maps. The model therefore assumes no key is evicted; an evicted key would be judged and counted again.
- The concurrent collections are used from one thread at a time, so concurrency is not modelled.
- The vocabulary service, Jena's datatype validity check, `RLBSBloomFilter` and `IFPTriple` are not part of this model. The first two become total functions of their inputs. The Bloom filter becomes the exact set of fingerprints it has been shown, so it has no false positives. The IFP key is the pair of predicate and object, as the metric's documentation describes it.
- ReuseExistingTerms is the one metric that catches a failed vocabulary lookup. Its lookup is modelled as a partial function, and a failure is reported as `MetricProcessing`. The vocabulary service's network access and its own caching are not modelled.
- Keys the Java code builds with `toString()` are modelled as the nodes themselves. This assumes that Jena's printed forms of distinct nodes differ. The licence-text check is the exception: it reads a literal's printed form, which `Rdf.PrintedForm` models.
- Java `double` arithmetic is modelled on exact reals: a ratio is exact, not rounded to the nearest double. NaN is modelled, and infinities cannot arise.
- Java `int` and `long` counters are unbounded naturals, so overflow is not modelled.
- `before()` loads configuration from files or the network (DataCubePopulationCompleteness, ReuseExistingTerms). Here, the loaded configuration is a constructor parameter.
- EstimatedExtensionalConciseness.EstimatedExtensionalConciseness.Before: builds the filter with `IntendedFilterSetup`, the corrected setup from the Findings table. It therefore does not reproduce the source's `before()` as written, which ignores an Integer size and throws ClassCastException on any other non-null first argument. That behaviour is modelled separately by `FilterSetup`, with `IntegerSizeIgnored` and `OtherArgumentFails`.
- `EstimatedExtensionalConciseness`: a `compute` call made before `before()` would hit a null filter; that case is not modelled.
- EstimatedExtensionalConciseness: a subject's fingerprint is the `toString()` of its `TreeSet` of statement strings, the sorted statements joined by ", " inside brackets. The model uses the set itself as the fingerprint, so it assumes that distinct statement sets print differently. A statement whose text contains ", " could make two different sets print alike; that case is not modelled.
- ShortURIs.ShortURIs.Classify: the 80-character limit is compared with the URI's number of Unicode characters. Java's `String.length()` counts UTF-16 code units, so a URI with characters outside the Basic Multilingual Plane is shorter here than in the source, and may count as short where the source reports it as long.
- Dataset URI and PLD are plain strings: HumanReadableLicense's dataset URI and OntologyHijacking's `dataset_pld` are constructor parameters that are never null. The source reads both from the environment properties. When the PLD is not set, OntologyHijacking's `getNameSpace().contains(dataset_pld)` throws NullPointerException at the first resource it checks. The model does not raise that fault.
- `LicensingModelClassifier.containsMachineReadableLicense` works over a Jena `Model` and is left out.
- The other metrics of the repository are not part of this model: Dereferenceability, EstimatedDereferenceability, MisreportedContentType, LinkExternalDataProviders, HighThroughput, LowLatency, SPARQLAccessibility, MachineReadableLicense, CorrectLanguageTag and UsageOfIncorrectDomainOrRangeDatatypes. They depend on HTTP, SPARQL endpoints, thread pools, wall-clock timing or external libraries.
- The unit tests of ExtendedProvenanceMetric (0.75), MultipleLanguageUsage (3), HumanReadableLabelling (0.66667) and CompatibleDatatype (0.8125) read test data files that are not part of this model. Their expected values are not restated as lemmas; the value functions those values come from are modelled.
- BasicProvenanceMetric and ExtendedProvenanceMetric never increment `totalTriples`. The model keeps that field at 0, as written.
- VocabularyUsageIndication's `nsIgnore` is never consulted. The model does not consult it either.
- Java's `HashMap` and `HashSet` iteration order is unspecified. Where a loop walks such a collection, the model picks the elements in an arbitrary order and proves that the result equals a definition that has no order.

## Findings

| source | as written | input that shows it | evidently intended | confidence | as-written member | corrected member |
|---|---|---|---|---|---|---|
| linked-data-quality-metrics/intrinsic/src/main/java/io/github/luzzu/linkeddata/qualitymetrics/intrinsic/conciseness/EstimatedExtensionalConciseness.java:74-75 | `before` casts the first argument to `Integer` only when it is NOT an `Integer`. An `Integer` size is ignored, and any other non-null argument throws `ClassCastException` | `before(1000)` builds the filter for the default 5500000 items; `before("x")` throws | an `Integer` first argument sets the filter size | not executed | EstimatedExtensionalConciseness.IntegerSizeIgnored | EstimatedExtensionalConciseness.IntendedSetupHonoursSize |
| linked-data-quality-metrics/intrinsic/src/main/java/io/github/luzzu/linkeddata/qualitymetrics/intrinsic/consistency/OntologyHijacking.java:93-111 | a predicate-triggered quad adds one to the possible hijacks but one hijack per matching rule. A property with two rules can therefore give twice as many hijacks as possible ones, and `Math.abs(1 - hijacks/possible)` then turns the worst case into the best score | one quad `<a> owl:equivalentClass <b>` with neither `a` nor `b` authoritative: 2 hijacks out of 1 possible, value 1.0 | count one possible hijack per rule checked, so the value is 1 - hijacks/checks and reaches 0.0 when every check is a hijack | not executed | OntologyHijacking.EquivalentClassScoresBest | OntologyHijacking.OntologyHijacking.IntendedMetricValue |
