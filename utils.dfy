/** The namespace helper shared by the metrics. */
module Utils {
  import opened Rdf
  import opened JavaStrings

  /**
   * Utils.extractDatasetNS: the part of an http(s) URL before its first '#',
   * or else before its last '/'. Null stays null; a string that does not
   * start with "http", or an http string without '#' and '/', is returned
   * as it is (the latter because substring(0, -1) throws and the handler
   * returns the input).
   */
  function ExtractDatasetNS(target: Option<string>): (r: Option<string>)
    ensures r.None? <==> target.None?
    ensures r.Some? ==> StartsWith(target.value, r.value)
    ensures target.Some? && !StartsWith(target.value, "http") ==> r == target
    ensures target.Some? && StartsWith(target.value, "http") && '#' in target.value ==>
      |r.value| < |target.value| && target.value[|r.value|] == '#' && '#' !in r.value
    ensures target.Some? && StartsWith(target.value, "http") && '#' !in target.value && '/' in target.value ==>
      |r.value| < |target.value| && target.value[|r.value|] == '/' && '/' !in target.value[|r.value| + 1..]
    ensures target.Some? && StartsWith(target.value, "http") && '#' !in target.value && '/' !in target.value ==>
      r == target
  {
    if target.None? then None
    else
      var url := target.value;
      if StartsWith(url, "http") || StartsWith(url, "https") then
        if '#' in url then
          var cut := Substring(url, 0, IndexOf(url, '#'));
          assert cut.value == url[..IndexOf(url, '#')];
          Some(cut.value)
        else
          match Substring(url, 0, LastIndexOf(url, '/'))
          case None => Some(url)
          case Some(ns) =>
            assert ns == url[..LastIndexOf(url, '/')];
            Some(ns)
      else Some(url)
  }

  /** Every "https" string also starts with "http", so it takes the same branch. */
  lemma HttpsIsHttp(s: string)
    ensures StartsWith(s, "https") ==> StartsWith(s, "http")
  {
    if StartsWith(s, "https") {
      assert s[..4] == s[..5][..4];
    }
  }
}
