/**
 * HumanReadableLicense: does the dataset state, about itself, a copyleft
 * licence URI or a human-readable licence text?
 */
module HumanReadableLicense {
  import opened Rdf
  import opened LicensingModelClassifier

  /** Documentation properties whose literal values may carry a licence text. */
  const LICENSING_DOCUM_PROPS: set<string> := {
    DCT_DESCRIPTION,
    RDFS_COMMENT,
    RDFS_LABEL,
    "http://schema.org/description",
    "http://www.w3.org/2004/02/skos/core#altLabel",
    DCT_RIGHTS
  }

  datatype Problem =
    | NotRecommendedLicenseInDataset(license: string)
    | NoValidLicenseInDatasetForHumans(dataset: string)

  /** The quad is about the dataset itself: a URI subject equal to the dataset URI. */
  predicate AboutDataset(q: Quad, datasetURI: string)
  {
    !q.subj.Blank? && q.subj.uri == datasetURI
  }

  /** A licensing predicate whose URI obj is a copyleft or not-recommended copyleft licence. */
  predicate NamesCopyLeftLicense(q: Quad)
  {
    q.obj.Uri? && IsLicensingPredicate(Some(Uri(q.pred)))
    && (IsCopyLeftLicenseURI(Some(q.obj)) || IsNotRecommendedCopyLeftLicenseURI(Some(q.obj)))
  }

  /** A literal under a documentation property (the branch taken when the first does not apply). */
  predicate DocumentsLicense(q: Quad)
  {
    q.obj.Literal? && q.pred in LICENSING_DOCUM_PROPS
  }

  /** A quad about the dataset that leaves the flag true. */
  predicate Endorses(q: Quad, datasetURI: string)
  {
    AboutDataset(q, datasetURI)
    && (NamesCopyLeftLicense(q) || (DocumentsLicense(q) && IsLicenseStatement(Some(q.obj))))
  }

  class HumanReadableLicense {
    const datasetURI: string
    const requireProblemReport: bool
    var hasHumanReadableLicense: bool
    var problems: seq<Problem>
    /** The quads consumed so far. */
    ghost var stream: seq<Quad>

    ghost predicate Valid()
      reads this
    {
      (hasHumanReadableLicense ==> exists i :: 0 <= i < |stream| && Endorses(stream[i], datasetURI))
      && (forall k :: 0 <= k < |problems| && problems[k].NotRecommendedLicenseInDataset? ==>
            requireProblemReport && IsNotRecommendedCopyLeftLicenseURI(Some(Uri(problems[k].license))))
    }

    constructor(datasetURI: string, requireProblemReport: bool)
      ensures Valid() && stream == [] && !hasHumanReadableLicense && problems == []
      ensures this.datasetURI == datasetURI && this.requireProblemReport == requireProblemReport
    {
      this.datasetURI := datasetURI;
      this.requireProblemReport := requireProblemReport;
      hasHumanReadableLicense := false;
      problems := [];
      stream := [];
    }

    /**
     * compute: only quads about the dataset matter. A licensing predicate
     * with a copyleft (or not-recommended copyleft) URI sets the flag, and a
     * not-recommended one is reported when reports are required; any other
     * licensing URI leaves everything as it is. A literal under a
     * documentation property sets the flag to whether it reads as a licence
     * statement, so a later non-matching literal clears it again.
     */
    method Compute(q: Quad)
      requires Valid()
      modifies `hasHumanReadableLicense, `problems, `stream
      ensures Valid() && stream == old(stream) + [q]
      ensures !AboutDataset(q, datasetURI) ==>
        hasHumanReadableLicense == old(hasHumanReadableLicense) && problems == old(problems)
      ensures AboutDataset(q, datasetURI) && q.obj.Uri? && IsLicensingPredicate(Some(Uri(q.pred))) ==>
        hasHumanReadableLicense == (old(hasHumanReadableLicense) || NamesCopyLeftLicense(q))
        && problems == old(problems)
             + (if requireProblemReport && IsNotRecommendedCopyLeftLicenseURI(Some(q.obj))
                then [NotRecommendedLicenseInDataset(q.obj.uri)] else [])
      ensures AboutDataset(q, datasetURI) && DocumentsLicense(q) ==>
        hasHumanReadableLicense == IsLicenseStatement(Some(q.obj)) && problems == old(problems)
      ensures AboutDataset(q, datasetURI) && !(q.obj.Uri? && IsLicensingPredicate(Some(Uri(q.pred)))) && !DocumentsLicense(q) ==>
        hasHumanReadableLicense == old(hasHumanReadableLicense) && problems == old(problems)
    {
      stream := stream + [q];
      assert stream[|stream| - 1] == q;
      assert forall i :: 0 <= i < |old(stream)| ==> stream[i] == old(stream)[i];
      var subject := q.subj;
      var obj := q.obj;
      if !subject.Blank? {
        if subject.uri == datasetURI {
          if obj.Uri? && IsLicensingPredicate(Some(Uri(q.pred))) {
            if IsCopyLeftLicenseURI(Some(obj)) || IsNotRecommendedCopyLeftLicenseURI(Some(obj)) {
              hasHumanReadableLicense := true;
              if IsNotRecommendedCopyLeftLicenseURI(Some(obj)) {
                if requireProblemReport {
                  problems := problems + [NotRecommendedLicenseInDataset(obj.uri)];
                }
              }
            }
          } else if obj.Literal? && q.pred in LICENSING_DOCUM_PROPS {
            hasHumanReadableLicense := IsLicenseStatement(Some(obj));
          }
        }
      }
    }

    /** metricValue: the flag, which only an endorsing quad about the dataset can have raised. */
    function MetricValue(): (r: bool)
      reads this
      requires Valid()
      ensures r ==> exists i :: (0 <= i < |stream| && AboutDataset(stream[i], datasetURI)
        && (NamesCopyLeftLicense(stream[i]) || IsLicenseStatement(Some(stream[i].obj))))
    {
      hasHumanReadableLicense
    }

    /** getProblemCollection: report the dataset when no licence was found and reports are required. */
    method GetProblemCollection()
      requires Valid()
      modifies this`problems
      ensures Valid()
      ensures problems == old(problems)
        + (if !hasHumanReadableLicense && requireProblemReport then [NoValidLicenseInDatasetForHumans(datasetURI)] else [])
    {
      if !hasHumanReadableLicense {
        if requireProblemReport {
          problems := problems + [NoValidLicenseInDatasetForHumans(datasetURI)];
        }
      }
    }
  }
}
