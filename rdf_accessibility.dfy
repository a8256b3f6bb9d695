/** RDFAccessibility: does the dataset describe itself with a void:dataDump? */
module RDFAccessibility {
  import opened Rdf

  /** The dataset's own URI as subject, with the void:dataDump predicate. */
  predicate IsDataDumpOf(q: Quad, datasetURI: string)
  {
    HasUri(q.subj, datasetURI) && q.pred == VOID_DATA_DUMP
  }

  class RDFAccessibility {
    const datasetURI: string
    const requireProblemReport: bool
    var hasRDFDump: bool
    /** The dataset URIs of the NoRDFAccessibility problems reported so far. */
    var problems: seq<string>
    /** The quads consumed without an exception. */
    ghost var stream: seq<Quad>

    ghost predicate Valid()
      reads this
    {
      hasRDFDump <==> exists i :: 0 <= i < |stream| && IsDataDumpOf(stream[i], datasetURI)
    }

    constructor(datasetURI: string, requireProblemReport: bool)
      ensures Valid() && stream == [] && !hasRDFDump && problems == []
      ensures this.datasetURI == datasetURI && this.requireProblemReport == requireProblemReport
    {
      this.datasetURI := datasetURI;
      this.requireProblemReport := requireProblemReport;
      hasRDFDump := false;
      problems := [];
      stream := [];
    }

    /**
     * compute: a data dump of the dataset itself raises the flag, which is
     * never lowered. The subject's getURI() throws for a blank subject.
     */
    method Compute(q: Quad) returns (fault: Option<Fault>)
      requires Valid()
      modifies this
      ensures Valid() && problems == old(problems)
      ensures q.subj.Blank? ==> fault == Some(UnsupportedOperation) && hasRDFDump == old(hasRDFDump) && stream == old(stream)
      ensures q.subj.Uri? ==> (fault == None && stream == old(stream) + [q]
        && hasRDFDump == (old(hasRDFDump) || IsDataDumpOf(q, datasetURI)))
    {
      if q.subj.Blank? {
        return Some(UnsupportedOperation);
      }
      if q.subj.uri == datasetURI && q.pred == VOID_DATA_DUMP {
        hasRDFDump := true;
      }
      stream := stream + [q];
      assert stream[|stream| - 1] == q;
      assert forall i :: 0 <= i < |old(stream)| ==> stream[i] == old(stream)[i];
      return None;
    }

    /** metricValue: whether a data dump of the dataset was seen. */
    function MetricValue(): (r: bool)
      reads this
      requires Valid()
      ensures r <==> exists i :: 0 <= i < |stream| && HasUri(stream[i].subj, datasetURI) && stream[i].pred == VOID_DATA_DUMP
    {
      hasRDFDump
    }

    /** getProblemCollection: report the missing dump when reports are required. */
    method GetProblemCollection()
      requires Valid()
      modifies this`problems
      ensures problems == old(problems) + (if requireProblemReport && !hasRDFDump then [datasetURI] else [])
    {
      if requireProblemReport {
        if !hasRDFDump {
          problems := problems + [datasetURI];
        }
      }
    }
  }
}
