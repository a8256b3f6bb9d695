/**
 * HumanReadableLabelling: the share of typed entities that carry a
 * human-readable label or description.
 *
 * Every typed or labelled URI subject lives in one of three sets: WO
 * (typed, no label yet), With (typed and labelled) and Unknown (labelled,
 * type not seen yet).
 */
module HumanReadableLabelling {
  import opened Rdf

  /** The properties whose values count as human-readable labels. */
  const LABEL_PROPERTIES: set<string> := {
    RDFS_LABEL,
    RDFS_COMMENT,
    "http://purl.org/dc/elements/1.1/title",
    "http://purl.org/dc/elements/1.1/description",
    "http://purl.org/dc/terms/title",
    "http://purl.org/dc/terms/alternative",
    DCT_DESCRIPTION,
    "http://www.w3.org/2004/02/skos/core#altLabel",
    "http://www.w3.org/2004/02/skos/core#prefLabel",
    "http://www.w3.org/2004/02/skos/core#note",
    "http://www.w3.org/2007/05/powder-s#text",
    "http://www.w3.org/2008/05/skos-xl#altLabel",
    "http://www.w3.org/2008/05/skos-xl#hiddenLabel",
    "http://www.w3.org/2008/05/skos-xl#prefLabel",
    "http://www.w3.org/2008/05/skos-xl#literalForm",
    "http://schema.org/name",
    "http://schema.org/description",
    "http://schema.org/alternateName"
  }

  /** The URI entity a quad types, if any. */
  function TypedBy(q: Quad): set<string>
  {
    if q.subj.Uri? && q.pred == RDF_TYPE then {q.subj.uri} else {}
  }

  /** The URI entity a quad labels, if any. */
  function LabelledBy(q: Quad): set<string>
  {
    if q.subj.Uri? && q.pred in LABEL_PROPERTIES then {q.subj.uri} else {}
  }

  /** Entities some quad of s types. */
  ghost function Typed(s: seq<Quad>): set<string>
  {
    if |s| == 0 then {} else Typed(s[..|s| - 1]) + TypedBy(s[|s| - 1])
  }

  /** Entities some quad of s labels. */
  ghost function Labelled(s: seq<Quad>): set<string>
  {
    if |s| == 0 then {} else Labelled(s[..|s| - 1]) + LabelledBy(s[|s| - 1])
  }

  lemma TypeIsNoLabelProperty()
    ensures RDF_TYPE !in LABEL_PROPERTIES
  {
  }

  // ---------------------------------------------------------------
  // The three sets and two counters as a value
  // ---------------------------------------------------------------

  datatype Sets = Sets(wo: set<string>, with: set<string>, unknown: set<string>, woSize: int, withSize: int)

  const EMPTY := Sets({}, {}, {}, 0, 0)

  /** entityInASet. */
  predicate InASet(st: Sets, entity: string)
  {
    entity in st.wo || entity in st.with || entity in st.unknown
  }

  /** The rdf:type branch of compute for a URI subject. */
  function OnType(st: Sets, entity: string): Sets
  {
    if !InASet(st, entity) then st.(wo := st.wo + {entity}, woSize := st.woSize + 1)
    else if entity in st.unknown then
      st.(with := st.with + {entity}, unknown := st.unknown - {entity}, withSize := st.withSize + 1)
    else st
  }

  /** The label-property branch of compute for a URI subject. */
  function OnLabel(st: Sets, entity: string): Sets
  {
    if entity in st.wo then
      st.(with := st.with + {entity}, wo := st.wo - {entity}, withSize := st.withSize + 1, woSize := st.woSize - 1)
    else st.(unknown := st.unknown + {entity})
  }

  /** What compute does to the sets for one quad. */
  function Step(st: Sets, q: Quad): Sets
  {
    if q.subj.Uri? && q.pred == RDF_TYPE then OnType(st, q.subj.uri)
    else if q.subj.Uri? && q.pred in LABEL_PROPERTIES then OnLabel(st, q.subj.uri)
    else st
  }

  /** The sets after a whole stream. */
  function Replay(s: seq<Quad>): Sets
  {
    if |s| == 0 then EMPTY else Step(Replay(s[..|s| - 1]), s[|s| - 1])
  }

  /**
   * WO holds the typed entities without a label and With the typed ones
   * with a label; Unknown holds labelled entities, among them every
   * labelled one not yet typed. The WO counter is exact; the With counter
   * counts moves into With, so it only bounds that set.
   */
  ghost predicate Agrees(st: Sets, typed: set<string>, labelled: set<string>)
  {
    st.wo == typed - labelled
    && st.with == typed * labelled
    && labelled - typed <= st.unknown <= labelled
    && st.woSize == |st.wo|
    && |st.with| <= st.withSize
    && (st.withSize > 0 ==> st.with != {})
  }

  lemma OnTypeAgrees(st: Sets, typed: set<string>, labelled: set<string>, entity: string)
    requires Agrees(st, typed, labelled)
    ensures Agrees(OnType(st, entity), typed + {entity}, labelled)
  {
    if !InASet(st, entity) {
      assert entity !in typed && entity !in labelled;
      assert (typed + {entity}) - labelled == st.wo + {entity};
    } else if entity in st.unknown {
      assert entity in labelled;
      assert (typed + {entity}) * labelled == st.with + {entity};
    } else {
      assert entity in typed;
      assert typed + {entity} == typed;
    }
  }

  lemma OnLabelAgrees(st: Sets, typed: set<string>, labelled: set<string>, entity: string)
    requires Agrees(st, typed, labelled)
    ensures Agrees(OnLabel(st, entity), typed, labelled + {entity})
  {
  }

  /** One quad keeps the relation, with its typed and labelled entity added. */
  lemma StepAgrees(st: Sets, typed: set<string>, labelled: set<string>, q: Quad)
    requires Agrees(st, typed, labelled)
    ensures Agrees(Step(st, q), typed + TypedBy(q), labelled + LabelledBy(q))
  {
    TypeIsNoLabelProperty();
    if q.subj.Uri? && q.pred == RDF_TYPE {
      OnTypeAgrees(st, typed, labelled, q.subj.uri);
      assert labelled + LabelledBy(q) == labelled;
    } else if q.subj.Uri? && q.pred in LABEL_PROPERTIES {
      OnLabelAgrees(st, typed, labelled, q.subj.uri);
      assert typed + TypedBy(q) == typed;
    } else {
      assert typed + TypedBy(q) == typed && labelled + LabelledBy(q) == labelled;
    }
  }

  /** The sets compute builds always stand in the relation above to the stream. */
  lemma {:induction false} ReplayAgrees(s: seq<Quad>)
    ensures Agrees(Replay(s), Typed(s), Labelled(s))
  {
    if |s| > 0 {
      var s', q := s[..|s| - 1], s[|s| - 1];
      ReplayAgrees(s');
      StepAgrees(Replay(s'), Typed(s'), Labelled(s'), q);
    }
  }

  /** WO shares no entity with With or Unknown. */
  lemma WODisjoint(s: seq<Quad>)
    ensures Replay(s).wo !! Replay(s).with && Replay(s).wo !! Replay(s).unknown
  {
    ReplayAgrees(s);
  }

  /**
   * The With counter counts moves, not members: an entity typed, labelled,
   * labelled again and typed again is counted twice.
   */
  lemma WithCounterCountsMoves(e: string)
    ensures var st := OnType(OnLabel(OnLabel(OnType(EMPTY, e), e), e), e);
      st.withSize == 2 && st.with == {e} && st.woSize == 0
  {
  }

  // ---------------------------------------------------------------
  // The metric
  // ---------------------------------------------------------------

  class HumanReadableLabelling {
    var entitiesWO: set<string>
    var entitiesWith: set<string>
    var entitiesUnknown: set<string>
    var entitiesWOSize: int
    var entitiesWithSize: int
    var totalTriples: nat
    var value: Double
    /** The quads consumed so far. */
    ghost var stream: seq<Quad>

    function State(): Sets
      reads `entitiesWO, `entitiesWith, `entitiesUnknown, `entitiesWOSize, `entitiesWithSize
    {
      Sets(entitiesWO, entitiesWith, entitiesUnknown, entitiesWOSize, entitiesWithSize)
    }

    ghost predicate Valid()
      reads this
    {
      totalTriples == |stream| && State() == Replay(stream)
    }

    constructor()
      ensures Valid() && stream == []
      ensures State() == EMPTY && totalTriples == 0 && value == Num(0.0)
    {
      entitiesWO, entitiesWith, entitiesUnknown := {}, {}, {};
      entitiesWOSize, entitiesWithSize, totalTriples := 0, 0, 0;
      value := Num(0.0);
      stream := [];
    }

    /** entityInASet: whether the entity is in any of the three sets. */
    predicate EntityInASet(entity: string)
      reads `entitiesWO, `entitiesWith, `entitiesUnknown
      ensures EntityInASet(entity) <==> InASet(State(), entity)
    {
      entity in entitiesWO || entity in entitiesWith || entity in entitiesUnknown
    }

    /**
     * compute: an rdf:type quad files a new entity under WO, or moves it
     * from Unknown to With; a label quad moves an entity from WO to With, or
     * else files it under Unknown. Blank subjects are ignored.
     */
    method Compute(q: Quad)
      requires Valid()
      modifies this
      ensures Valid() && stream == old(stream) + [q]
      ensures totalTriples == old(totalTriples) + 1 && value == old(value)
      ensures State() == Step(old(State()), q)
    {
      TypeIsNoLabelProperty();
      totalTriples := totalTriples + 1;
      if q.subj.Uri? && q.pred == RDF_TYPE {
        var entity := q.subj.uri;
        if !EntityInASet(entity) {
          entitiesWO := entitiesWO + {entity};
          entitiesWOSize := entitiesWOSize + 1;
        } else {
          if entity in entitiesUnknown {
            entitiesWith := entitiesWith + {entity};
            entitiesUnknown := entitiesUnknown - {entity};
            entitiesWithSize := entitiesWithSize + 1;
          }
        }
      }
      if q.subj.Uri? && q.pred in LABEL_PROPERTIES {
        var entity := q.subj.uri;
        if entity in entitiesWO {
          entitiesWith := entitiesWith + {entity};
          entitiesWO := entitiesWO - {entity};
          entitiesWithSize := entitiesWithSize + 1;
          entitiesWOSize := entitiesWOSize - 1;
        } else {
          entitiesUnknown := entitiesUnknown + {entity};
        }
      }
      stream := stream + [q];
      assert stream[..|stream| - 1] == old(stream);
    }

    /** Both counters are non-negative, and both are zero exactly when no URI entity was typed. */
    lemma CountersReflectTyping()
      requires Valid()
      ensures entitiesWOSize >= 0 && entitiesWithSize >= 0
      ensures entitiesWOSize + entitiesWithSize == 0 <==> Typed(stream) == {}
    {
      ReplayAgrees(stream);
      var T, L := Typed(stream), Labelled(stream);
      if T != {} {
        var e :| e in T;
        assert e in entitiesWO || e in entitiesWith;
      }
    }

    /**
     * metricValue: With / (WO + With) over the two counters, stored in
     * value; NaN exactly when no URI entity was typed.
     */
    method MetricValue() returns (r: Double)
      requires Valid()
      modifies `value
      ensures value == r
      ensures r.NaN? <==> Typed(stream) == {}
      ensures r.Num? ==> InUnit(r)
      ensures r.Num? ==> r.value * (entitiesWOSize + entitiesWithSize) as real == entitiesWithSize as real
    {
      CountersReflectTyping();
      var entities := (entitiesWOSize + entitiesWithSize) as real;
      var humanLabels := entitiesWithSize as real;
      if entities != 0.0 {
        QuotientInUnit(humanLabels, entities);
      }
      value := Div(humanLabels, entities);
      r := value;
    }
  }
}
