/**
 * What SparqlTemplate.loadProperties does to a bean, as a function of the triples
 * returned for its subject: one pass over the plain properties (simple ones and
 * collections of simple ones), then one pass over the single-valued associations, the
 * first exception ending everything.
 */
module Materialization {
  import opened Wrappers
  import opened Rdf
  import opened Mapping
  import opened Matching
  import opened Loaders

  /** The bean's property values, by property name; an absent name was never assigned. */
  type Values = map<string, PropertyValue>

  /** What a pass leaves: the property values, and the exception that ended it, if any. */
  datatype Outcome = Outcome(values: Values, failure: Option<Failure>)

  /** For one property, the loader a pass runs on it: nothing, or the value or exception it yields. */
  type Loader = RdfProperty -> Option<Result<PropertyValue, Failure>>

  /** One property's turn: skipped, assigned, or the exception that stops the pass. */
  function Step(values: Values, p: RdfProperty, load: Option<Result<PropertyValue, Failure>>): (r: Outcome)
    ensures r.failure.Some? <==> load.Some? && load.value.Failure?
    ensures r.failure.Some? ==> r.values == values
    ensures values.Keys <= r.values.Keys <= values.Keys + {p.name}
    ensures forall n :: n in values && n != p.name ==> r.values[n] == values[n]
  {
    match load
    case None => Outcome(values, None)
    case Some(Failure(e)) => Outcome(values, Some(e))
    case Some(Success(v)) => Outcome(values[p.name := v], None)
  }

  /** Running load on the properties ps in order, starting from values, until one throws. */
  function Pass(values: Values, ps: seq<RdfProperty>, load: Loader): (r: Outcome)
    ensures values.Keys <= r.values.Keys
    decreases |ps|
  {
    if ps == [] then
      Outcome(values, None)
    else
      var before := Pass(values, ps[..|ps| - 1], load);
      if before.failure.Some? then before else Step(before.values, ps[|ps| - 1], load(ps[|ps| - 1]))
  }

  /** The body of the doWithProperties callback: simple properties, then collections of simple ones. */
  function PropertyLoad(iri: Iri, triples: seq<Triple>, entity: RdfEntity, converter: RdfJavaConverter,
                        p: RdfProperty): (r: Option<Result<PropertyValue, Failure>>)
    ensures r.Some? <==> p.kind.IsSimpleProperty() || p.kind.IsCollectionOfSimple()
    ensures p.kind.IsSimpleProperty() ==>
      (r.Some? && (r.value.Success? <==> |FilterForProperty(triples, p, entity.prefixMap, converter)| == 1))
    ensures p.kind.IsCollectionOfSimple() ==> r.Some? && r.value.Success? && r.value.value.ValueSet?
  {
    if p.kind.IsSimpleProperty() then Some(SimpleValue(iri, triples, entity, p, converter))
    else if p.kind.IsCollectionOfSimple() then Some(CollectionValue(iri, triples, entity, p, converter))
    else None
  }

  /** The body of the doWithAssociations callback: collection-like associations are skipped. */
  function AssociationLoad(iri: Iri, triples: seq<Triple>, entity: RdfEntity, converter: RdfJavaConverter,
                           p: RdfProperty): (r: Option<Result<PropertyValue, Failure>>)
    ensures r.Some? <==> !p.kind.IsCollectionLike()
    ensures p.kind.Entity? ==>
      (r.Some? && (r.value.Success? <==> |FilterForProperty(triples, p, entity.prefixMap, converter)| == 1))
  {
    if !p.kind.IsCollectionLike() then Some(AssociationValue(iri, triples, entity, p, converter))
    else None
  }

  /** The doWithProperties callback, as the loader a pass runs. */
  function PropertyLoader(iri: Iri, triples: seq<Triple>, entity: RdfEntity, converter: RdfJavaConverter): Loader {
    (p: RdfProperty) => PropertyLoad(iri, triples, entity, converter, p)
  }

  /** The doWithAssociations callback, as the loader a pass runs. */
  function AssociationLoader(iri: Iri, triples: seq<Triple>, entity: RdfEntity, converter: RdfJavaConverter): Loader {
    (p: RdfProperty) => AssociationLoad(iri, triples, entity, converter, p)
  }

  /** loadProperties after its query: the plain properties, then, if none threw, the associations. */
  function Materialize(iri: Iri, triples: seq<Triple>, entity: RdfEntity, converter: RdfJavaConverter,
                       values: Values): (r: Outcome)
    ensures values.Keys <= r.values.Keys
  {
    var first := Pass(values, entity.properties, PropertyLoader(iri, triples, entity, converter));
    if first.failure.Some? then first
    else Pass(first.values, entity.associations, AssociationLoader(iri, triples, entity, converter))
  }

  /**
   * After a completed pass, property p reflects its loader's outcome r: the value it
   * produced, or, if p had no loader, whatever p held before.
   */
  predicate Reflects(before: Values, after: Values, p: RdfProperty, r: Option<Result<PropertyValue, Failure>>) {
    match r
    case Some(result) => p.name in after && Success(after[p.name]) == result
    case None => (p.name in after <==> p.name in before) && (p.name in before ==> after[p.name] == before[p.name])
  }

  /** Pass on a longer prefix: one more step, unless the shorter prefix already threw. */
  lemma PassExtend(values: Values, ps: seq<RdfProperty>, load: Loader, i: nat)
    requires i < |ps|
    ensures Pass(values, ps[..i + 1], load)
         == (var before := Pass(values, ps[..i], load);
             if before.failure.Some? then before else Step(before.values, ps[i], load(ps[i])))
  {
    assert ps[..i + 1][..i] == ps[..i];
  }

  /** A pass writes only the names of the properties it walks; every other entry is unchanged. */
  lemma {:induction false} PassFrame(values: Values, ps: seq<RdfProperty>, load: Loader, n: string)
    requires n !in Names(ps)
    ensures var out := Pass(values, ps, load).values;
      (n in out <==> n in values) && (n in values ==> out[n] == values[n])
  {
    if ps != [] {
      var init := ps[..|ps| - 1];
      assert Names(ps) == Names(init) + {ps[|ps| - 1].name};
      PassFrame(values, init, load, n);
    }
  }

  /**
   * A pass completes exactly when no loader it runs throws; then every property with a
   * loader holds the value its loader produced, and every skipped property keeps the value
   * it had (property names being distinct).
   */
  lemma {:induction false} PassCompleted(values: Values, ps: seq<RdfProperty>, load: Loader)
    requires DistinctNames(ps)
    ensures var out := Pass(values, ps, load);
      && (out.failure.None? <==> forall i :: 0 <= i < |ps| ==> load(ps[i]).None? || load(ps[i]).value.Success?)
      && (out.failure.None? ==> forall i :: 0 <= i < |ps| ==> Reflects(values, out.values, ps[i], load(ps[i])))
  {
    if ps != [] {
      var k := |ps| - 1;
      var init := ps[..k];
      assert DistinctNames(init);
      PassCompleted(values, init, load);
      var before := Pass(values, init, load);
      forall i | 0 <= i < k ensures init[i] == ps[i] { }
      var out := Pass(values, ps, load);
      if out.failure.None? {
        assert before.failure.None?;
        forall i | 0 <= i < |ps| ensures Reflects(values, out.values, ps[i], load(ps[i])) {
          if i < k {
            assert ps[i].name != ps[k].name;
            assert init[i] == ps[i];
            assert Reflects(values, before.values, init[i], load(init[i]));
          } else {
            assert ps[k].name !in Names(init);
            PassFrame(values, init, load, ps[k].name);
          }
        }
      }
    }
  }

  /**
   * A pass that throws stopped at some property k: every property before k loaded or was
   * skipped, k's loader threw that exception, and the values are those left before k, so
   * neither k nor anything after it was assigned.
   */
  lemma {:induction false} PassAborted(values: Values, ps: seq<RdfProperty>, load: Loader)
    requires Pass(values, ps, load).failure.Some?
    ensures exists k :: (&& 0 <= k < |ps|
                         && Pass(values, ps[..k], load).failure.None?
                         && load(ps[k]) == Some(Failure(Pass(values, ps, load).failure.value))
                         && Pass(values, ps, load).values == Pass(values, ps[..k], load).values)
  {
    var k := |ps| - 1;
    var init := ps[..k];
    assert ps[..k] == init;
    var before := Pass(values, init, load);
    if before.failure.Some? {
      PassAborted(values, init, load);
      var j :| 0 <= j < |init|
        && Pass(values, init[..j], load).failure.None?
        && load(init[j]) == Some(Failure(before.failure.value))
        && before.values == Pass(values, init[..j], load).values;
      assert init[..j] == ps[..j];
      assert init[j] == ps[j];
    }
  }

  /**
   * A property the pass skips keeps its entry, however the pass ends (property names
   * being distinct).
   */
  lemma {:induction false} PassKeepsSkipped(values: Values, ps: seq<RdfProperty>, load: Loader, i: nat)
    requires DistinctNames(ps)
    requires i < |ps| && load(ps[i]).None?
    ensures Reflects(values, Pass(values, ps, load).values, ps[i], None)
  {
    var k := |ps| - 1;
    var init := ps[..k];
    assert DistinctNames(init);
    if i < k {
      assert init[i] == ps[i];
      PassKeepsSkipped(values, init, load, i);
    } else {
      forall j | 0 <= j < k ensures init[j].name != ps[k].name {
        assert init[j] == ps[j];
      }
      PassFrame(values, init, load, ps[k].name);
    }
  }

  lemma NamesConcat(a: seq<RdfProperty>, b: seq<RdfProperty>)
    ensures Names(a + b) == Names(a) + Names(b)
  {
    forall n | n in Names(a) ensures n in Names(a + b) {
      var i :| 0 <= i < |a| && a[i].name == n;
      assert (a + b)[i] == a[i];
    }
    forall n | n in Names(b) ensures n in Names(a + b) {
      var i :| 0 <= i < |b| && b[i].name == n;
      assert (a + b)[|a| + i] == b[i];
    }
  }

  /** Plain property names and association names of an entity with distinct names are disjoint. */
  lemma DisjointNames(e: RdfEntity)
    requires DistinctNames(e.properties + e.associations)
    ensures DistinctNames(e.properties) && DistinctNames(e.associations)
    ensures Names(e.properties) !! Names(e.associations)
  {
    var all := e.properties + e.associations;
    forall i, j | 0 <= i < j < |e.properties| ensures e.properties[i].name != e.properties[j].name {
      assert all[i] == e.properties[i] && all[j] == e.properties[j];
    }
    forall i, j | 0 <= i < j < |e.associations| ensures e.associations[i].name != e.associations[j].name {
      assert all[|e.properties| + i] == e.associations[i] && all[|e.properties| + j] == e.associations[j];
    }
    forall i, j | 0 <= i < |e.properties| && 0 <= j < |e.associations|
      ensures e.properties[i].name != e.associations[j].name
    {
      assert all[i] == e.properties[i] && all[|e.properties| + j] == e.associations[j];
    }
  }

  /** loadProperties writes no bean property other than the entity's declared ones. */
  lemma MaterializeFrame(iri: Iri, triples: seq<Triple>, entity: RdfEntity, converter: RdfJavaConverter,
                         values: Values, n: string)
    requires n !in Names(entity.properties + entity.associations)
    ensures var out := Materialize(iri, triples, entity, converter, values).values;
      (n in out <==> n in values) && (n in values ==> out[n] == values[n])
  {
    NamesConcat(entity.properties, entity.associations);
    var first := Pass(values, entity.properties, PropertyLoader(iri, triples, entity, converter));
    PassFrame(values, entity.properties, PropertyLoader(iri, triples, entity, converter), n);
    PassFrame(first.values, entity.associations, AssociationLoader(iri, triples, entity, converter), n);
  }

  /**
   * A successful loadProperties leaves every simple property, every collection of simple
   * properties and every single-valued association holding what its loader yields, and
   * every other property (collection-like associations included) as it was; and it
   * succeeds exactly when none of those loaders throws.
   */
  lemma MaterializeLoadsEveryProperty(iri: Iri, triples: seq<Triple>, entity: RdfEntity, converter: RdfJavaConverter,
                                      values: Values)
    requires DistinctNames(entity.properties + entity.associations)
    ensures var out := Materialize(iri, triples, entity, converter, values);
      var loadProperty := PropertyLoader(iri, triples, entity, converter);
      var loadAssociation := AssociationLoader(iri, triples, entity, converter);
      && (out.failure.None? <==>
            && (forall i :: 0 <= i < |entity.properties| ==>
                  loadProperty(entity.properties[i]).None? || loadProperty(entity.properties[i]).value.Success?)
            && (forall i :: 0 <= i < |entity.associations| ==>
                  loadAssociation(entity.associations[i]).None? || loadAssociation(entity.associations[i]).value.Success?))
      && (out.failure.None? ==>
            && (forall i :: 0 <= i < |entity.properties| ==>
                  Reflects(values, out.values, entity.properties[i], loadProperty(entity.properties[i])))
            && (forall i :: 0 <= i < |entity.associations| ==>
                  Reflects(values, out.values, entity.associations[i], loadAssociation(entity.associations[i]))))
  {
    var loadProperty := PropertyLoader(iri, triples, entity, converter);
    var loadAssociation := AssociationLoader(iri, triples, entity, converter);
    DisjointNames(entity);
    var first := Pass(values, entity.properties, loadProperty);
    PassCompleted(values, entity.properties, loadProperty);
    if first.failure.None? {
      var out := Pass(first.values, entity.associations, loadAssociation);
      PassCompleted(first.values, entity.associations, loadAssociation);
      if out.failure.None? {
        forall i | 0 <= i < |entity.properties|
          ensures Reflects(values, out.values, entity.properties[i], loadProperty(entity.properties[i]))
        {
          PassFrame(first.values, entity.associations, loadAssociation, entity.properties[i].name);
        }
        forall i | 0 <= i < |entity.associations|
          ensures Reflects(values, out.values, entity.associations[i], loadAssociation(entity.associations[i]))
        {
          PassFrame(values, entity.properties, loadProperty, entity.associations[i].name);
        }
      }
    }
  }

  /**
   * Plain properties are processed before any association: when one of them throws, the
   * exception is that property's, and no association has been assigned.
   */
  lemma PropertiesBeforeAssociations(iri: Iri, triples: seq<Triple>, entity: RdfEntity, converter: RdfJavaConverter,
                                     values: Values)
    requires DistinctNames(entity.properties + entity.associations)
    requires Pass(values, entity.properties, PropertyLoader(iri, triples, entity, converter)).failure.Some?
    ensures var out := Materialize(iri, triples, entity, converter, values);
      && (exists k :: 0 <= k < |entity.properties|
            && PropertyLoader(iri, triples, entity, converter)(entity.properties[k]) == Some(Failure(out.failure.value)))
      && forall i :: 0 <= i < |entity.associations| ==> Reflects(values, out.values, entity.associations[i], None)
  {
    var loadProperty := PropertyLoader(iri, triples, entity, converter);
    DisjointNames(entity);
    PassAborted(values, entity.properties, loadProperty);
    forall i | 0 <= i < |entity.associations|
      ensures Reflects(values, Pass(values, entity.properties, loadProperty).values, entity.associations[i], None)
    {
      PassFrame(values, entity.properties, loadProperty, entity.associations[i].name);
    }
  }

  /**
   * Collection-like associations (such as a set of spouses) are never loaded: their entry
   * is left as it was, whether loadProperties succeeds or throws.
   */
  lemma CollectionAssociationsSkipped(iri: Iri, triples: seq<Triple>, entity: RdfEntity, converter: RdfJavaConverter,
                                      values: Values, i: nat)
    requires DistinctNames(entity.properties + entity.associations)
    requires i < |entity.associations| && entity.associations[i].kind.IsCollectionLike()
    ensures Reflects(values, Materialize(iri, triples, entity, converter, values).values, entity.associations[i], None)
  {
    var loadProperty := PropertyLoader(iri, triples, entity, converter);
    var loadAssociation := AssociationLoader(iri, triples, entity, converter);
    DisjointNames(entity);
    var a := entity.associations[i];
    var first := Pass(values, entity.properties, loadProperty);
    PassFrame(values, entity.properties, loadProperty, a.name);
    if first.failure.None? {
      PassKeepsSkipped(first.values, entity.associations, loadAssociation, i);
    }
  }

  /**
   * For a well-formed entity, the only exception loadProperties can throw is the
   * cardinality IllegalStateException: the "not a literal" and "not a URI" checks of the
   * loaders can never fire, because the filter already keeps only literals for plain
   * properties and only URIs for associations.
   */
  lemma OnlyCardinalityFailures(iri: Iri, triples: seq<Triple>, entity: RdfEntity, converter: RdfJavaConverter,
                                values: Values)
    requires WellFormed(entity)
    ensures var out := Materialize(iri, triples, entity, converter, values);
      out.failure.Some? ==> out.failure.value.IllegalState? && out.failure.value.reason.CardinalityMismatch?
  {
    var loadProperty := PropertyLoader(iri, triples, entity, converter);
    var loadAssociation := AssociationLoader(iri, triples, entity, converter);
    var first := Pass(values, entity.properties, loadProperty);
    if first.failure.Some? {
      PassAborted(values, entity.properties, loadProperty);
      var k :| 0 <= k < |entity.properties| && loadProperty(entity.properties[k]) == Some(Failure(first.failure.value));
      assert entity.properties[k] in entity.properties;
    } else {
      var out := Pass(first.values, entity.associations, loadAssociation);
      if out.failure.Some? {
        PassAborted(first.values, entity.associations, loadAssociation);
        var k :| 0 <= k < |entity.associations| && loadAssociation(entity.associations[k]) == Some(Failure(out.failure.value));
        assert entity.associations[k] in entity.associations;
      }
    }
  }

  /** Once a prefix of the properties has thrown, the rest of the pass does nothing. */
  lemma {:induction false} PassStopsAfterFailure(values: Values, ps: seq<RdfProperty>, load: Loader, i: nat)
    requires i <= |ps| && Pass(values, ps[..i], load).failure.Some?
    ensures Pass(values, ps, load) == Pass(values, ps[..i], load)
  {
    if i < |ps| {
      var k := |ps| - 1;
      assert ps[..k][..i] == ps[..i];
      PassStopsAfterFailure(values, ps[..k], load, i);
    } else {
      assert ps[..i] == ps;
    }
  }
}
