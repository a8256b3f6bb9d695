/**
 * ExtendedProvenanceMetric: how completely the PROV-O descriptions of a
 * dataset identify, for each entity, its agent and the activities that
 * generated it, and for each activity its datasource and agent.
 *
 * The entity and activity records are objects that compute updates in
 * place; one activity object can be registered under two keys, and a later
 * quad about either key changes what both entries see.
 */
module ExtendedProvenanceMetric {
  import opened Rdf

  /** A prov:Activity record; a null field of the source is None. */
  class Activity {
    var uri: Option<Node>
    var agent: Option<Node>
    var datasource: Option<Node>

    constructor()
      ensures uri == None && agent == None && datasource == None
    {
      uri := None;
      agent := None;
      datasource := None;
    }

    /** getBasicValue: half for a known datasource, half for a known agent. */
    function BasicValue(): (r: real)
      reads this
      ensures r == 0.0 || r == 0.5 || r == 1.0
      ensures r == 1.0 <==> datasource.Some? && agent.Some?
      ensures r == 0.0 <==> datasource.None? && agent.None?
    {
      var val := if datasource.None? then 0.0 else 0.5;
      if agent.None? then val else val + 0.5
    }
  }

  /** The values of a list of activities, added from the front. */
  function ActivitySum(acts: seq<Activity>): real
    reads acts
  {
    if |acts| == 0 then 0.0
    else ActivitySum(acts[..|acts| - 1]) + acts[|acts| - 1].BasicValue()
  }

  /**
   * The sum of activity values lies between 0 and the number of
   * activities, reaching the top exactly when every activity is complete
   * and 0 exactly when none has a datasource or an agent.
   */
  lemma {:induction false} ActivitySumBounds(acts: seq<Activity>)
    ensures 0.0 <= ActivitySum(acts) <= |acts| as real
    ensures ActivitySum(acts) == |acts| as real <==> forall i :: 0 <= i < |acts| ==> acts[i].BasicValue() == 1.0
    ensures ActivitySum(acts) == 0.0 <==> forall i :: 0 <= i < |acts| ==> acts[i].BasicValue() == 0.0
  {
    if |acts| > 0 {
      var init := acts[..|acts| - 1];
      ActivitySumBounds(init);
      assert forall i :: 0 <= i < |init| ==> init[i] == acts[i];
      if forall i :: 0 <= i < |acts| ==> acts[i].BasicValue() == 1.0 {
        assert forall i :: 0 <= i < |init| ==> init[i].BasicValue() == 1.0;
      }
      if forall i :: 0 <= i < |acts| ==> acts[i].BasicValue() == 0.0 {
        assert forall i :: 0 <= i < |init| ==> init[i].BasicValue() == 0.0;
      }
    }
  }

  /** A share of a positive whole: in the unit interval, 1 for the whole and 0 for nothing. */
  lemma Share(part: real, whole: real)
    requires 0.0 <= part <= whole && 0.0 < whole
    ensures 0.0 <= part / whole <= 1.0
    ensures part / whole == 1.0 <==> part == whole
    ensures part / whole == 0.0 <==> part == 0.0
  {
    QuotientInUnit(part, whole);
    assert Div(part, whole) == Num(part / whole);
    assert part / whole * whole == part;
  }

  /** A prov:Entity record; a null field of the source is None. */
  class Entity {
    var uri: Option<Node>
    var agent: Option<Node>
    /** The activities that generated it, in order, repeats kept. */
    var activities: seq<Activity>

    constructor()
      ensures uri == None && agent == None && activities == []
    {
      uri := None;
      agent := None;
      activities := [];
    }

    /**
     * The entity's value: half for a known agent, and half the mean value
     * of its activities.
     */
    function Value(): (r: real)
      reads this, activities
      ensures 0.0 <= r <= 1.0
      ensures r == 1.0 <==> (agent.Some? && |activities| > 0
        && forall i :: 0 <= i < |activities| ==> activities[i].BasicValue() == 1.0)
      ensures r == 0.0 <==> (agent.None?
        && forall i :: 0 <= i < |activities| ==> activities[i].BasicValue() == 0.0)
    {
      ActivitySumBounds(activities);
      var sum := ActivitySum(activities);
      var val := if agent.None? then 0.0 else 0.5;
      if sum > 0.0 then
        Share(sum, |activities| as real);
        val + 0.5 * (sum / |activities| as real)
      else val
    }

    /**
     * getBasicValue: the loop over the activities that Value specifies; an
     * empty list adds nothing.
     */
    method GetBasicValue() returns (r: real)
      ensures r == Value()
    {
      var val := 0.0;
      val := if agent.None? then val + 0.0 else val + 0.5;
      var valAct := 0.0;
      var i := 0;
      while i < |activities|
        invariant 0 <= i <= |activities|
        invariant valAct == ActivitySum(activities[..i])
      {
        assert activities[..i + 1][..i] == activities[..i];
        valAct := valAct + activities[i].BasicValue();
        i := i + 1;
      }
      assert activities[..|activities|] == activities;
      if valAct > 0.0 {
        valAct := if |activities| == 0 then 0.0 else 0.5 * (valAct / |activities| as real);
        val := val + valAct;
      }
      return val;
    }
  }

  class ExtendedProvenanceMetric {
    /** Entity records by the subject that introduced them. */
    var entityDirectory: map<Node, Entity>
    /** Activity records; wasGeneratedBy files one record under two keys. */
    var activityDirectory: map<Node, Activity>
    /** Reported as the dataset's triple count; compute never increments it. */
    var totalTriples: nat
    /** Every activity record created so far, filed or not. */
    ghost var acts: set<Activity>

    /**
     * Every filed or listed activity is a record created here and has its
     * URI, and each entity carries its own key as URI.
     */
    ghost predicate Valid()
      reads this, entityDirectory.Values, acts
    {
      activityDirectory.Values <= acts
      && (forall a :: a in acts ==> a.uri.Some?)
      && (forall k :: k in entityDirectory ==> entityDirectory[k].uri == Some(k) && Within(entityDirectory[k].activities, acts))
    }

    constructor()
      ensures Valid()
      ensures entityDirectory == map[] && activityDirectory == map[] && totalTriples == 0
    {
      entityDirectory := map[];
      activityDirectory := map[];
      totalTriples := 0;
      acts := {};
    }

    /** No two keys share an entity record, since each carries its key. */
    lemma EntitiesDistinct(k1: Node, k2: Node)
      requires Valid() && k1 in entityDirectory && k2 in entityDirectory
      ensures entityDirectory[k1] == entityDirectory[k2] <==> k1 == k2
    {
      if entityDirectory[k1] == entityDirectory[k2] {
        assert Some(k1) == entityDirectory[k1].uri == Some(k2);
      }
    }

    /**
     * getOrPutEntity: the record filed under the key, or a new empty one
     * filed under it, whose URI is the key.
     */
    method GetOrPutEntity(uri: Node) returns (e: Entity)
      requires Valid()
      modifies `entityDirectory
      ensures Valid()
      ensures entityDirectory == old(entityDirectory)[uri := e]
      ensures uri in old(entityDirectory) ==> e == old(entityDirectory[uri])
      ensures uri !in old(entityDirectory) ==> fresh(e) && e.agent == None && e.activities == []
      ensures e.uri == Some(uri)
    {
      e := new Entity();
      if uri in entityDirectory {
        e := entityDirectory[uri];
      } else {
        entityDirectory := entityDirectory[uri := e];
      }
      if e.uri.None? {
        e.uri := Some(uri);
      }
    }

    /**
     * getOrPutActivity: the record filed under the key, or a new empty one
     * filed under it whose URI is the key; an existing record keeps the URI
     * it was created with.
     */
    method GetOrPutActivity(uri: Node) returns (a: Activity)
      requires Valid()
      modifies `activityDirectory, `acts
      ensures Valid()
      ensures activityDirectory == old(activityDirectory)[uri := a]
      ensures acts == old(acts) + {a}
      ensures uri in old(activityDirectory) ==> a == old(activityDirectory[uri])
      ensures uri !in old(activityDirectory) ==>
        (fresh(a) && a.uri == Some(uri) && a.agent == None && a.datasource == None)
    {
      a := new Activity();
      if uri in activityDirectory {
        a := activityDirectory[uri];
      } else {
        activityDirectory := activityDirectory[uri := a];
        acts := acts + {a};
      }
      if a.uri.None? {
        a.uri := Some(uri);
      }
    }

    /**
     * compute: prov:wasAttributedTo names the subject entity's agent;
     * prov:wasGeneratedBy appends the object's activity to the subject
     * entity and files that same record under the subject too; prov:used
     * names the subject activity's datasource; prov:wasAssociatedWith and
     * prov:actedOnBehalfOf name its agent, which must be a URI; an object
     * prov:Entity or prov:Activity files the subject as one. The predicate
     * tests exclude each other, so at most one of the first four applies.
     */
    method Compute(q: Quad) returns (fault: Option<Fault>)
      requires Valid()
      modifies this, entityDirectory.Values, acts
      ensures Valid()
      ensures fault.Some? <==> (AgentOfActivity(q) && !q.obj.Uri?)
      ensures fault.Some? ==> fault.value == UnsupportedOperation
      ensures forall k :: k in entityDirectory <==> (k in old(entityDirectory) || FilesEntity(q, k))
      ensures forall k :: k in activityDirectory <==> (k in old(activityDirectory) || FilesActivity(q, k))
      ensures forall k :: k in old(entityDirectory) ==> entityDirectory[k] == old(entityDirectory[k])
      ensures forall k :: (k in old(activityDirectory) && !(q.pred == PROV_WAS_GENERATED_BY && k == q.subj)) ==>
        activityDirectory[k] == old(activityDirectory[k])
      ensures forall e :: e in old(entityDirectory.Values) && !(SetsEntity(q) && q.subj in entityDirectory && e == entityDirectory[q.subj]) ==> unchanged(e)
      ensures forall a :: a in old(acts) && !(SetsActivity(q) && q.subj in activityDirectory && a == activityDirectory[q.subj]) ==> unchanged(a)
      ensures q.pred == PROV_WAS_ATTRIBUTED_TO ==>
        (q.subj in entityDirectory && entityDirectory[q.subj].agent == Some(q.obj)
         && entityDirectory[q.subj].activities == old(if q.subj in entityDirectory then entityDirectory[q.subj].activities else []))
      ensures q.pred == PROV_WAS_GENERATED_BY ==>
        (q.subj in entityDirectory && q.subj in activityDirectory && q.obj in activityDirectory
         && activityDirectory[q.subj] == activityDirectory[q.obj]
         && entityDirectory[q.subj].activities
            == old(if q.subj in entityDirectory then entityDirectory[q.subj].activities else [])
               + [activityDirectory[q.obj]]
         && entityDirectory[q.subj].agent == old(if q.subj in entityDirectory then entityDirectory[q.subj].agent else None))
      ensures q.pred == PROV_USED ==>
        (q.subj in activityDirectory && activityDirectory[q.subj].datasource == Some(q.obj)
         && activityDirectory[q.subj].agent == old(if q.subj in activityDirectory then activityDirectory[q.subj].agent else None))
      ensures AgentOfActivity(q) ==>
        (q.subj in activityDirectory
         && activityDirectory[q.subj].agent
            == (if q.obj.Uri? then Some(q.obj) else old(if q.subj in activityDirectory then activityDirectory[q.subj].agent else None))
         && activityDirectory[q.subj].datasource
            == old(if q.subj in activityDirectory then activityDirectory[q.subj].datasource else None))
      ensures forall k :: k in activityDirectory && activityDirectory[k] !in old(acts) ==>
        fresh(activityDirectory[k])
        && (!(SetsActivity(q) && k == q.subj) ==> activityDirectory[k].agent == None && activityDirectory[k].datasource == None)
      ensures forall k :: k in entityDirectory && k !in old(entityDirectory) ==>
        fresh(entityDirectory[k])
        && (!SetsEntity(q) ==> entityDirectory[k].agent == None && entityDirectory[k].activities == [])
      ensures totalTriples == old(totalTriples)
    {
      fault := ByPredicate(q);
      if fault.None? {
        ByType(q);
      }
    }

    /** The four predicate tests of compute; they exclude each other. */
    method ByPredicate(q: Quad) returns (fault: Option<Fault>)
      requires Valid()
      modifies this, entityDirectory.Values, acts
      ensures Valid()
      ensures fault.Some? <==> (AgentOfActivity(q) && !q.obj.Uri?)
      ensures fault.Some? ==> fault.value == UnsupportedOperation
      ensures forall k :: k in entityDirectory <==> (k in old(entityDirectory) || (k == q.subj
        && (q.pred == PROV_WAS_ATTRIBUTED_TO || q.pred == PROV_WAS_GENERATED_BY)))
      ensures forall k :: k in activityDirectory <==> (k in old(activityDirectory)
        || (q.pred == PROV_WAS_GENERATED_BY && (k == q.subj || k == q.obj))
        || ((q.pred == PROV_USED || AgentOfActivity(q)) && k == q.subj))
      ensures forall k :: k in old(entityDirectory) ==> entityDirectory[k] == old(entityDirectory[k])
      ensures forall k :: (k in old(activityDirectory) && !(q.pred == PROV_WAS_GENERATED_BY && k == q.subj)) ==>
        activityDirectory[k] == old(activityDirectory[k])
      ensures forall e :: e in old(entityDirectory.Values) && !(SetsEntity(q) && q.subj in entityDirectory && e == entityDirectory[q.subj]) ==> unchanged(e)
      ensures forall a :: a in old(acts) && !(SetsActivity(q) && q.subj in activityDirectory && a == activityDirectory[q.subj]) ==> unchanged(a)
      ensures q.pred == PROV_WAS_ATTRIBUTED_TO ==>
        (q.subj in entityDirectory && entityDirectory[q.subj].agent == Some(q.obj)
         && entityDirectory[q.subj].activities == old(if q.subj in entityDirectory then entityDirectory[q.subj].activities else []))
      ensures q.pred == PROV_WAS_GENERATED_BY ==>
        (q.subj in entityDirectory && q.subj in activityDirectory && q.obj in activityDirectory
         && activityDirectory[q.subj] == activityDirectory[q.obj]
         && entityDirectory[q.subj].activities
            == old(if q.subj in entityDirectory then entityDirectory[q.subj].activities else [])
               + [activityDirectory[q.obj]]
         && entityDirectory[q.subj].agent == old(if q.subj in entityDirectory then entityDirectory[q.subj].agent else None))
      ensures q.pred == PROV_USED ==>
        (q.subj in activityDirectory && activityDirectory[q.subj].datasource == Some(q.obj)
         && activityDirectory[q.subj].agent == old(if q.subj in activityDirectory then activityDirectory[q.subj].agent else None))
      ensures AgentOfActivity(q) ==>
        (q.subj in activityDirectory
         && activityDirectory[q.subj].agent
            == (if q.obj.Uri? then Some(q.obj) else old(if q.subj in activityDirectory then activityDirectory[q.subj].agent else None))
         && activityDirectory[q.subj].datasource
            == old(if q.subj in activityDirectory then activityDirectory[q.subj].datasource else None))
      ensures forall k :: k in activityDirectory && activityDirectory[k] !in old(acts) ==>
        fresh(activityDirectory[k])
        && (!(SetsActivity(q) && k == q.subj) ==> activityDirectory[k].agent == None && activityDirectory[k].datasource == None)
      ensures forall k :: k in entityDirectory && k !in old(entityDirectory) ==> fresh(entityDirectory[k])
      ensures totalTriples == old(totalTriples)
    {
      fault := None;
      if q.pred == PROV_WAS_ATTRIBUTED_TO {
        Attributed(q.subj, q.obj);
      } else if q.pred == PROV_WAS_GENERATED_BY {
        Generated(q.subj, q.obj);
      } else if q.pred == PROV_USED {
        Used(q.subj, q.obj);
      } else if AgentOfActivity(q) {
        fault := Associated(q.subj, q.obj);
      }
    }

    /** The two object tests of compute: prov:Entity and prov:Activity file the subject. */
    method ByType(q: Quad)
      requires Valid()
      modifies `entityDirectory, `activityDirectory, `acts
      ensures Valid()
      ensures forall k :: k in entityDirectory <==> k in old(entityDirectory) || (k == q.subj && HasUri(q.obj, PROV_ENTITY))
      ensures forall k :: k in activityDirectory <==> k in old(activityDirectory) || (k == q.subj && HasUri(q.obj, PROV_ACTIVITY))
      ensures forall k :: k in old(entityDirectory) ==> entityDirectory[k] == old(entityDirectory[k])
      ensures forall k :: k in old(activityDirectory) ==> activityDirectory[k] == old(activityDirectory[k])
      ensures forall k :: k in entityDirectory && k !in old(entityDirectory) ==>
        fresh(entityDirectory[k]) && entityDirectory[k].agent == None && entityDirectory[k].activities == []
      ensures forall k :: k in activityDirectory && k !in old(activityDirectory) ==>
        fresh(activityDirectory[k]) && activityDirectory[k].agent == None && activityDirectory[k].datasource == None
      ensures forall a :: a in acts && a !in old(acts) ==> fresh(a)
      ensures forall e :: e in old(entityDirectory.Values) ==> unchanged(e)
      ensures forall a :: a in old(acts) ==> unchanged(a)
      ensures forall k :: k in old(entityDirectory) ==> unchanged(old(entityDirectory)[k])
      ensures forall k :: k in old(activityDirectory) ==> unchanged(old(activityDirectory)[k])
    {
      if HasUri(q.obj, PROV_ENTITY) {
        var _ := GetOrPutEntity(q.subj);
      }
      if HasUri(q.obj, PROV_ACTIVITY) {
        var _ := GetOrPutActivity(q.subj);
      }
    }

    /** prov:wasAttributedTo: the subject entity's agent is the object, whatever it was. */
    method Attributed(s: Node, o: Node)
      requires Valid()
      modifies `entityDirectory, entityDirectory.Values
      ensures Valid()
      ensures s in entityDirectory && entityDirectory == old(entityDirectory)[s := entityDirectory[s]]
      ensures s in old(entityDirectory) ==> entityDirectory[s] == old(entityDirectory[s])
      ensures s !in old(entityDirectory) ==> fresh(entityDirectory[s])
      ensures entityDirectory[s].agent == Some(o)
      ensures entityDirectory[s].activities == old(if s in entityDirectory then entityDirectory[s].activities else [])
      ensures forall e :: e in old(entityDirectory.Values) && e != entityDirectory[s] ==> unchanged(e)
      ensures forall a :: a in old(acts) ==> unchanged(a)
    {
      var e := GetOrPutEntity(s);
      e.agent := Some(o);
    }

    /**
     * prov:wasGeneratedBy: the object's activity record is filed under the
     * subject as well and appended to the subject entity's activities.
     */
    method Generated(s: Node, o: Node)
      requires Valid()
      modifies `entityDirectory, `activityDirectory, `acts, entityDirectory.Values
      ensures Valid()
      ensures o in activityDirectory && activityDirectory == old(activityDirectory)[o := activityDirectory[o]][s := activityDirectory[o]]
      ensures o in old(activityDirectory) ==> activityDirectory[o] == old(activityDirectory[o])
      ensures s in entityDirectory && entityDirectory == old(entityDirectory)[s := entityDirectory[s]]
      ensures s in old(entityDirectory) ==> entityDirectory[s] == old(entityDirectory[s])
      ensures s !in old(entityDirectory) ==> fresh(entityDirectory[s])
      ensures o !in old(activityDirectory) ==>
        fresh(activityDirectory[o]) && activityDirectory[o].agent == None && activityDirectory[o].datasource == None
      ensures entityDirectory[s].activities
        == old(if s in entityDirectory then entityDirectory[s].activities else []) + [activityDirectory[o]]
      ensures entityDirectory[s].agent == old(if s in entityDirectory then entityDirectory[s].agent else None)
      ensures forall e :: e in old(entityDirectory.Values) && e != entityDirectory[s] ==> unchanged(e)
      ensures forall a :: a in old(acts) ==> unchanged(a)
    {
      var a := FileAlias(o, s);
      FileUnder(s, a);
    }

    /** Files the activity under its own URI and under the entity's. */
    method FileAlias(o: Node, s: Node) returns (a: Activity)
      requires Valid()
      modifies `activityDirectory, `acts
      ensures Valid()
      ensures activityDirectory == old(activityDirectory)[o := a][s := a]
      ensures acts == old(acts) + {a}
      ensures o in old(activityDirectory) ==> a == old(activityDirectory[o])
      ensures o !in old(activityDirectory) ==> fresh(a) && a.agent == None && a.datasource == None
    {
      a := GetOrPutActivity(o);
      activityDirectory := activityDirectory[s := a];
    }

    /** Appends a filed activity to the list of the entity filed under s. */
    method FileUnder(s: Node, a: Activity)
      requires Valid() && a in acts
      modifies `entityDirectory, entityDirectory.Values
      ensures Valid()
      ensures s in entityDirectory && entityDirectory == old(entityDirectory)[s := entityDirectory[s]]
      ensures s in old(entityDirectory) ==> entityDirectory[s] == old(entityDirectory[s])
      ensures s !in old(entityDirectory) ==> fresh(entityDirectory[s])
      ensures entityDirectory[s].activities
        == old(if s in entityDirectory then entityDirectory[s].activities else []) + [a]
      ensures entityDirectory[s].agent == old(if s in entityDirectory then entityDirectory[s].agent else None)
      ensures forall e :: e in old(entityDirectory.Values) && e != entityDirectory[s] ==> unchanged(e)
    {
      var e := GetOrPutEntity(s);
      e.activities := e.activities + [a];
      assert Within(e.activities, acts);
    }

    /** prov:used: the subject activity's datasource is the object, whatever it was. */
    method Used(s: Node, o: Node)
      requires Valid()
      modifies `activityDirectory, `acts, activityDirectory.Values
      ensures Valid()
      ensures s in activityDirectory && activityDirectory == old(activityDirectory)[s := activityDirectory[s]]
      ensures s in old(activityDirectory) ==> activityDirectory[s] == old(activityDirectory[s])
      ensures s !in old(activityDirectory) ==> fresh(activityDirectory[s])
      ensures activityDirectory[s].datasource == Some(o)
      ensures activityDirectory[s].agent == old(if s in activityDirectory then activityDirectory[s].agent else None)
      ensures forall a :: a in old(acts) && a != activityDirectory[s] ==> unchanged(a)
      ensures forall e :: e in old(entityDirectory.Values) ==> unchanged(e)
    {
      var a := GetOrPutActivity(s);
      a.datasource := Some(o);
    }

    /**
     * prov:wasAssociatedWith and prov:actedOnBehalfOf: the subject
     * activity's agent is the object's URI; an object without one fails
     * after the activity was filed.
     */
    method Associated(s: Node, o: Node) returns (fault: Option<Fault>)
      requires Valid()
      modifies `activityDirectory, `acts, activityDirectory.Values
      ensures Valid()
      ensures s in activityDirectory && activityDirectory == old(activityDirectory)[s := activityDirectory[s]]
      ensures s in old(activityDirectory) ==> activityDirectory[s] == old(activityDirectory[s])
      ensures fault.Some? <==> !o.Uri?
      ensures fault.Some? ==> fault.value == UnsupportedOperation
      ensures s !in old(activityDirectory) ==> fresh(activityDirectory[s])
      ensures o.Uri? ==> activityDirectory[s].agent == Some(o)
      ensures !o.Uri? ==> activityDirectory[s].agent == old(if s in activityDirectory then activityDirectory[s].agent else None)
      ensures !o.Uri? ==> forall a :: a in old(acts) ==> unchanged(a)
      ensures activityDirectory[s].datasource == old(if s in activityDirectory then activityDirectory[s].datasource else None)
      ensures forall a :: a in old(acts) && a != activityDirectory[s] ==> unchanged(a)
      ensures forall e :: e in old(entityDirectory.Values) ==> unchanged(e)
    {
      var a := GetOrPutActivity(s);
      if !o.Uri? {
        return Some(UnsupportedOperation);
      }
      a.agent := Some(o);
      return None;
    }

    /** The entity values summed over some of the keys. */
    ghost function ValueSum(keys: set<Node>): real
      reads this, entityDirectory.Values, acts
      requires Valid() && keys <= entityDirectory.Keys
      decreases keys
    {
      if keys == {} then 0.0
      else
        var k :| k in keys;
        entityDirectory[k].Value() + ValueSum(keys - {k})
    }

    /** Any key can be taken out of the sum first. */
    lemma {:induction false} ValueSumRemove(keys: set<Node>, k: Node)
      requires Valid() && keys <= entityDirectory.Keys && k in keys
      ensures ValueSum(keys) == entityDirectory[k].Value() + ValueSum(keys - {k})
      decreases keys
    {
      var j :| j in keys && ValueSum(keys) == entityDirectory[j].Value() + ValueSum(keys - {j});
      if j != k {
        ValueSumRemove(keys - {j}, k);
        ValueSumRemove(keys - {k}, j);
        assert keys - {j} - {k} == keys - {k} - {j};
      }
    }

    /**
     * The sum lies between 0 and the number of keys, and reaches the top
     * exactly when every entity counted has value 1.
     */
    lemma {:induction false} ValueSumBounds(keys: set<Node>)
      requires Valid() && keys <= entityDirectory.Keys
      ensures 0.0 <= ValueSum(keys) <= |keys| as real
      ensures ValueSum(keys) == |keys| as real <==> forall k :: k in keys ==> entityDirectory[k].Value() == 1.0
      decreases keys
    {
      if keys != {} {
        var k :| k in keys;
        ValueSumRemove(keys, k);
        ValueSumBounds(keys - {k});
      }
    }

    /** The metric's specification: 0 without entities, else their mean value. */
    ghost function Mean(): (r: real)
      reads this, entityDirectory.Values, acts
      requires Valid()
      ensures 0.0 <= r <= 1.0
      ensures r == 1.0 <==> (|entityDirectory| > 0
        && forall k :: k in entityDirectory ==> entityDirectory[k].Value() == 1.0)
    {
      ValueSumBounds(entityDirectory.Keys);
      if |entityDirectory| == 0 then 0.0
      else
        Share(ValueSum(entityDirectory.Keys), |entityDirectory| as real);
        ValueSum(entityDirectory.Keys) / |entityDirectory| as real
    }

    /**
     * metricValue: the loop that adds up the entity values, specified by
     * Mean; each entity's getBasicValue is its Value, as GetBasicValue
     * proves.
     */
    method MetricValue() returns (r: real)
      requires Valid()
      ensures r == Mean()
    {
      var val := 0.0;
      var remaining := entityDirectory.Keys;
      while remaining != {}
        invariant remaining <= entityDirectory.Keys
        invariant val + ValueSum(remaining) == ValueSum(entityDirectory.Keys)
        decreases remaining
      {
        var k :| k in remaining;
        var v := entityDirectory[k].Value();
        ValueSumRemove(remaining, k);
        val := val + v;
        remaining := remaining - {k};
      }
      assert val == ValueSum(entityDirectory.Keys);
      return if |entityDirectory| == 0 then 0.0 else val / |entityDirectory| as real;
    }
  }

  /** The quads whose predicate names an activity's agent. */
  predicate AgentOfActivity(q: Quad)
  {
    q.pred == PROV_WAS_ASSOCIATED_WITH || q.pred == PROV_ACTED_ON_BEHALF_OF
  }

  /** The quads whose predicate sets a field of the subject's entity record. */
  predicate SetsEntity(q: Quad)
  {
    q.pred == PROV_WAS_ATTRIBUTED_TO || q.pred == PROV_WAS_GENERATED_BY
  }

  /** The quads that set a field of the subject's activity record. */
  predicate SetsActivity(q: Quad)
  {
    q.pred == PROV_USED || (AgentOfActivity(q) && q.obj.Uri?)
  }

  /** Every activity of the list is one of the pool's. */
  ghost predicate Within(list: seq<Activity>, pool: set<Activity>)
  {
    forall a :: a in list ==> a in pool
  }

  /** Whether compute files an entity under key k. */
  predicate FilesEntity(q: Quad, k: Node)
  {
    k == q.subj && (SetsEntity(q) || HasUri(q.obj, PROV_ENTITY))
  }

  /** Whether compute files an activity under key k. */
  predicate FilesActivity(q: Quad, k: Node)
  {
    (q.pred == PROV_WAS_GENERATED_BY && (k == q.subj || k == q.obj))
    || ((q.pred == PROV_USED || AgentOfActivity(q)) && k == q.subj)
    || (k == q.subj && HasUri(q.obj, PROV_ACTIVITY))
  }
}
