/** PresenceOfURIRegEx: does the dataset declare a void:uriRegexPattern? */
module PresenceOfURIRegEx {
  import opened Rdf

  predicate DeclaresUriRegex(q: Quad)
  {
    q.pred == VOID_URI_REGEX_PATTERN
  }

  class PresenceOfURIRegEx {
    var uriRegExPresent: bool
    var totalTriples: nat
    /** The quads consumed so far. */
    ghost var stream: seq<Quad>

    ghost predicate Valid()
      reads this
    {
      totalTriples == |stream|
      && (uriRegExPresent <==> exists i :: 0 <= i < |stream| && DeclaresUriRegex(stream[i]))
    }

    constructor()
      ensures Valid() && stream == []
      ensures !uriRegExPresent && totalTriples == 0
    {
      uriRegExPresent := false;
      totalTriples := 0;
      stream := [];
    }

    /** compute: count the quad; a void:uriRegexPattern predicate raises the flag for good. */
    method Compute(q: Quad)
      requires Valid()
      modifies this
      ensures Valid() && stream == old(stream) + [q]
      ensures totalTriples == old(totalTriples) + 1
      ensures uriRegExPresent == (old(uriRegExPresent) || DeclaresUriRegex(q))
    {
      totalTriples := totalTriples + 1;
      if q.pred == VOID_URI_REGEX_PATTERN {
        uriRegExPresent := true;
      }
      stream := stream + [q];
      assert stream[|stream| - 1] == q;
      assert forall i :: 0 <= i < |old(stream)| ==> stream[i] == old(stream)[i];
    }

    /** metricValue: whether some consumed quad declares the pattern. */
    function MetricValue(): (r: bool)
      reads this
      requires Valid()
      ensures r <==> exists i :: 0 <= i < |stream| && stream[i].pred == VOID_URI_REGEX_PATTERN
    {
      uriRegExPresent
    }
  }
}
