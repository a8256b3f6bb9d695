/**
 * MultipleLanguageUsage: the average number of languages a resource's
 * literals are given in, rounded to an integer.
 *
 * Only literals with a language tag count; each subject collects the set of
 * tags seen on its literal objects. The value is the rounded mean of the
 * set sizes, and 1 where that rounds to 0.
 */
module MultipleLanguageUsage {
  import opened Rdf

  /** Node.toString() of a subject: the URI, or the blank node's label. */
  function SubjectForm(s: Subject): (r: string)
    ensures s.Uri? ==> r == s.uri
    ensures s.Blank? ==> r == s.id
  {
    if s.Uri? then s.uri else s.id
  }

  /** Math.round on a double: the nearest integer, halves rounded up; NaN gives 0. */
  function MathRound(d: Double): (r: int)
    ensures d.NaN? ==> r == 0
    ensures d.Num? ==> r as real <= d.value + 0.5 < r as real + 1.0
  {
    if d.NaN? then 0 else (d.value + 0.5).Floor
  }

  /** The documented example: 7 languages over 5 resources round to 1. */
  lemma DocumentedExample()
    ensures MathRound(Div(7.0, 5.0)) == 1
  {
  }

  /** Rounding is monotone: a value between two integers rounds between them. */
  lemma RoundBetween(x: real, lo: int, hi: int)
    requires lo as real <= x <= hi as real
    ensures lo <= MathRound(Num(x)) <= hi
  {
  }

  /** A quotient of a total lying between lo and hi times the divisor lies between lo and hi. */
  lemma MeanBetween(t: real, n: real, lo: real, hi: real)
    requires n > 0.0 && lo * n <= t <= hi * n
    ensures lo <= t / n <= hi
  {
    assert (t / n) * n == t;
  }

  /** The rounded mean of a total between lo and hi per item lies between lo and hi. */
  lemma RoundedMeanBetween(t: nat, count: nat, lo: nat, hi: nat)
    requires count > 0 && lo * count <= t <= hi * count
    ensures lo <= MathRound(Div(t as real, count as real)) <= hi
  {
    assert lo as real * count as real == (lo * count) as real;
    assert hi as real * count as real == (hi * count) as real;
    MeanBetween(t as real, count as real, lo as real, hi as real);
    RoundBetween(t as real / count as real, lo, hi);
  }

  /** Every recorded subject has at least one language. */
  ghost predicate AllTagged(langs: map<string, set<string>>)
  {
    forall s :: s in langs ==> langs[s] != {}
  }

  /** The number of languages summed over some of the subjects. */
  ghost function Total(langs: map<string, set<string>>, keys: set<string>): nat
    requires keys <= langs.Keys
    decreases keys
  {
    if keys == {} then 0
    else
      var k :| k in keys;
      |langs[k]| + Total(langs, keys - {k})
  }

  /** Any subject can be counted first. */
  lemma {:induction false} TotalRemove(langs: map<string, set<string>>, keys: set<string>, k: string)
    requires keys <= langs.Keys && k in keys
    ensures Total(langs, keys) == |langs[k]| + Total(langs, keys - {k})
    decreases keys
  {
    var j :| j in keys && Total(langs, keys) == |langs[j]| + Total(langs, keys - {j});
    if j != k {
      TotalRemove(langs, keys - {j}, k);
      TotalRemove(langs, keys - {k}, j);
      assert keys - {j} - {k} == keys - {k} - {j};
    }
  }

  lemma MulStep(a: nat, m: nat)
    ensures a * (m + 1) == a * m + a
  {
  }

  /** When every subject has between lo and hi languages, so does the sum per subject. */
  lemma {:induction false} TotalBounds(langs: map<string, set<string>>, keys: set<string>, lo: nat, hi: nat)
    requires keys <= langs.Keys
    requires forall k :: k in keys ==> lo <= |langs[k]| <= hi
    ensures lo * |keys| <= Total(langs, keys) <= hi * |keys|
    decreases keys
  {
    if keys != {} {
      var k :| k in keys;
      TotalRemove(langs, keys, k);
      TotalBounds(langs, keys - {k}, lo, hi);
      var m := |keys - {k}|;
      assert |keys| == m + 1;
      MulStep(lo, m);
      MulStep(hi, m);
    }
  }

  /**
   * The metric's specification: the mean number of languages per subject
   * as Math.round gives it, with 0 (an empty map's NaN included) raised to 1.
   */
  ghost function LanguagesPerResource(langs: map<string, set<string>>): (r: int)
  {
    var rounded := MathRound(Div(Total(langs, langs.Keys) as real, |langs| as real));
    if rounded == 0 then 1 else rounded
  }

  /**
   * With every subject between lo >= 1 and hi languages, the value lies
   * between lo and hi; so the replacement of 0 by 1 only happens on an
   * empty map, and subjects that all share n languages give n.
   */
  lemma ValueBetween(langs: map<string, set<string>>, lo: nat, hi: nat)
    requires 1 <= lo
    requires forall k :: k in langs ==> lo <= |langs[k]| <= hi
    ensures |langs| > 0 ==> lo <= LanguagesPerResource(langs) <= hi
    ensures |langs| > 0 ==> MathRound(Div(Total(langs, langs.Keys) as real, |langs| as real)) != 0
    ensures |langs| == 0 ==> LanguagesPerResource(langs) == 1
  {
    TotalBounds(langs, langs.Keys, lo, hi);
    if |langs| > 0 {
      RoundedMeanBetween(Total(langs, langs.Keys), |langs|, lo, hi);
    }
  }

  /** The value of any reachable state is at least 1. */
  lemma ValueAtLeastOne(langs: map<string, set<string>>)
    requires AllTagged(langs)
    ensures LanguagesPerResource(langs) >= 1
  {
    var hi: nat := Total(langs, langs.Keys);
    forall k | k in langs
      ensures 1 <= |langs[k]| <= hi
    {
      TotalRemove(langs, langs.Keys, k);
    }
    ValueBetween(langs, 1, hi);
  }

  class MultipleLanguageUsage {
    /** Per subject's printed form, the language tags of its literals. */
    var multipleLanguage: map<string, set<string>>
    var tripleCount: nat

    ghost predicate Valid()
      reads this
    {
      AllTagged(multipleLanguage)
    }

    constructor()
      ensures Valid()
      ensures multipleLanguage == map[] && tripleCount == 0
    {
      multipleLanguage := map[];
      tripleCount := 0;
    }

    /**
     * compute: every quad is counted; a literal object with a language tag
     * adds that tag to its subject's set, which a repeated tag leaves as it
     * is; other quads record nothing.
     */
    method Compute(q: Quad)
      requires Valid()
      modifies `multipleLanguage, `tripleCount
      ensures Valid()
      ensures tripleCount == old(tripleCount) + 1
      ensures !(q.obj.Literal? && q.obj.lang != "") ==> multipleLanguage == old(multipleLanguage)
      ensures q.obj.Literal? && q.obj.lang != "" ==>
        var s := SubjectForm(q.subj);
        s in multipleLanguage && q.obj.lang in multipleLanguage[s]
        && multipleLanguage[s] == (if s in old(multipleLanguage) then old(multipleLanguage)[s] else {}) + {q.obj.lang}
        && multipleLanguage.Keys == old(multipleLanguage).Keys + {s}
        && (forall k :: k in old(multipleLanguage) && k != s ==> multipleLanguage[k] == old(multipleLanguage)[k])
      ensures var s := SubjectForm(q.subj);
        s in old(multipleLanguage) && q.obj.Literal? && q.obj.lang in old(multipleLanguage)[s]
        ==> multipleLanguage == old(multipleLanguage)
    {
      tripleCount := tripleCount + 1;
      if q.obj.Literal? {
        var subject := SubjectForm(q.subj);
        var lang := q.obj.lang;
        if lang != "" {
          var langList: set<string> := {};
          if subject in multipleLanguage {
            langList := multipleLanguage[subject];
          }
          langList := langList + {lang};
          if subject in multipleLanguage && lang in multipleLanguage[subject] {
            assert langList == multipleLanguage[subject];
            assert multipleLanguage[subject := langList] == multipleLanguage;
          }
          multipleLanguage := multipleLanguage[subject := langList];
        }
      }
    }

    /** metricValue: the loop summing the set sizes, specified by LanguagesPerResource. */
    method MetricValue() returns (r: int)
      requires Valid()
      ensures r == LanguagesPerResource(multipleLanguage)
      ensures r >= 1
    {
      var totLang := 0;
      var remaining := multipleLanguage.Keys;
      while remaining != {}
        invariant remaining <= multipleLanguage.Keys
        invariant totLang + Total(multipleLanguage, remaining) == Total(multipleLanguage, multipleLanguage.Keys)
        decreases remaining
      {
        var k :| k in remaining;
        TotalRemove(multipleLanguage, remaining, k);
        totLang := totLang + |multipleLanguage[k]|;
        remaining := remaining - {k};
      }
      var rounded := MathRound(Div(totLang as real, |multipleLanguage| as real));
      r := if rounded == 0 then 1 else rounded;
      ValueAtLeastOne(multipleLanguage);
    }
  }
}
