/**
 * SparqlTemplate itself: the query service it calls, the beans whose properties it
 * assigns, and its loader methods, each proved to do what the corresponding function of
 * Loaders or Materialization describes.
 */
module Template {
  import opened Wrappers
  import opened Rdf
  import opened Mapping
  import opened Matching
  import opened Loaders
  import opened Materialization

  /** A mapped bean's property state, written through its property accessor. */
  class Bean {
    const typeName: TypeName
    var values: Values

    /** A bean of the given type with no property assigned yet. */
    constructor (typeName: TypeName)
      ensures this.typeName == typeName && values == map[]
    {
      this.typeName := typeName;
      values := map[];
    }

    /** PersistentPropertyAccessor.setProperty: assigns p and nothing else. */
    method SetProperty(p: RdfProperty, v: PropertyValue)
      modifies this`values
      ensures values == old(values)[p.name := v]
    {
      values := values[p.name := v];
    }
  }

  /**
   * The SPARQL endpoint: the triples it returns for a subject are given by select, and
   * a ghost counter records how many queries were issued.
   */
  class SparqlQueryService {
    const select: (Iri, PrefixMapping) -> seq<Triple>
    ghost var queries: nat

    constructor (select: (Iri, PrefixMapping) -> seq<Triple>)
      ensures this.select == select && queries == 0
    {
      this.select := select;
      queries := 0;
    }

    /** One query for all triples whose subject is iri. */
    method Query(iri: Iri, prefixMap: PrefixMapping) returns (triples: seq<Triple>)
      modifies this`queries
      ensures triples == select(iri, prefixMap)
      ensures queries == old(queries) + 1
    {
      triples := select(iri, prefixMap);
      queries := queries + 1;
    }
  }

  class SparqlTemplate {
    const queryService: SparqlQueryService
    const rdfJavaConverter: RdfJavaConverter
    /** The mapping context: the mapped entity of each bean type. */
    const mappingContext: TypeName -> RdfEntity

    constructor (queryService: SparqlQueryService, rdfJavaConverter: RdfJavaConverter,
                 mappingContext: TypeName -> RdfEntity)
      ensures this.queryService == queryService
      ensures this.rdfJavaConverter == rdfJavaConverter
      ensures this.mappingContext == mappingContext
    {
      this.queryService := queryService;
      this.rdfJavaConverter := rdfJavaConverter;
      this.mappingContext := mappingContext;
    }

    /**
     * load: a handle for the bean of the given type describing iri. It changes no state,
     * and in particular issues no query; loading happens only later, through
     * LoadProperties.
     */
    method Load(iri: Iri, typeName: TypeName) returns (h: Handle)
      ensures h.iri == iri && h.typeName == typeName
      ensures queryService.queries == old(queryService.queries)
    {
      h := Handle(iri, typeName);
    }

    /** loadSimpleProperty: assigns p the value SimpleValue describes, or throws its exception. */
    method LoadSimpleProperty(iri: Iri, triples: seq<Triple>, entity: RdfEntity, p: RdfProperty, bean: Bean)
      returns (failure: Option<Failure>)
      modifies bean`values
      ensures Outcome(bean.values, failure)
           == Step(old(bean.values), p, Some(SimpleValue(iri, triples, entity, p, rdfJavaConverter)))
    {
      var matchingTriples := FilterForProperty(triples, p, entity.prefixMap, rdfJavaConverter);
      if |matchingTriples| != 1 {
        return Some(IllegalState(CardinalityMismatch(iri, p.name, p.prefix, |matchingTriples|)));
      }
      var objectNode := matchingTriples[0].objectNode;
      if !objectNode.LiteralNode? {
        return Some(UnsupportedOperation(p.name, objectNode));
      }
      bean.SetProperty(p, Single(rdfJavaConverter.convert(objectNode.literal, p)));
      failure := None;
    }

    /**
     * loadAssociation: assigns the association p a new unloaded handle, as
     * AssociationValue describes, or throws its exception; no query is issued.
     */
    method LoadAssociation(iri: Iri, triples: seq<Triple>, entity: RdfEntity, p: RdfProperty, bean: Bean)
      returns (failure: Option<Failure>)
      modifies bean`values
      ensures Outcome(bean.values, failure)
           == Step(old(bean.values), p, Some(AssociationValue(iri, triples, entity, p, rdfJavaConverter)))
      ensures queryService.queries == old(queryService.queries)
    {
      var matchingTriples := FilterForProperty(triples, p, entity.prefixMap, rdfJavaConverter);
      if |matchingTriples| != 1 {
        return Some(IllegalState(CardinalityMismatch(iri, p.name, p.prefix, |matchingTriples|)));
      }
      var objectNode := matchingTriples[0].objectNode;
      if !objectNode.UriNode? {
        return Some(IllegalState(NotUriObject(p.name, objectNode)));
      }
      var handle := Load(objectNode.uri, p.typeName);
      bean.SetProperty(p, Reference(handle));
      failure := None;
    }

    /**
     * loadCollectionOfSimpleProperties: converts every matching literal into a set and
     * assigns it, as CollectionValue describes, or throws at the first object that is not
     * a literal.
     */
    method LoadCollectionOfSimpleProperties(iri: Iri, triples: seq<Triple>, entity: RdfEntity, p: RdfProperty,
                                            bean: Bean)
      returns (failure: Option<Failure>)
      modifies bean`values
      ensures Outcome(bean.values, failure)
           == Step(old(bean.values), p, Some(CollectionValue(iri, triples, entity, p, rdfJavaConverter)))
    {
      var matchingTriples := FilterForProperty(triples, p, entity.prefixMap, rdfJavaConverter);
      var valueSet: set<JavaValue> := {};
      var i := 0;
      while i < |matchingTriples|
        invariant 0 <= i <= |matchingTriples|
        invariant forall j :: 0 <= j < i ==> matchingTriples[j].objectNode.LiteralNode?
        invariant valueSet == ConvertedValues(matchingTriples[..i], p, rdfJavaConverter)
      {
        var objectNode := matchingTriples[i].objectNode;
        if !objectNode.LiteralNode? {
          ConvertEachStopsAtFirst(matchingTriples, p, rdfJavaConverter, i);
          return Some(UnsupportedOperation(p.name, objectNode));
        }
        assert matchingTriples[..i + 1] == matchingTriples[..i] + [matchingTriples[i]];
        valueSet := valueSet + {rdfJavaConverter.convert(objectNode.literal, p)};
        i := i + 1;
      }
      assert matchingTriples[..i] == matchingTriples;
      bean.SetProperty(p, ValueSet(valueSet));
      failure := None;
    }

    /** The doWithProperties callback: loads a simple property or a collection of simple ones. */
    method PropertyCallback(iri: Iri, triples: seq<Triple>, entity: RdfEntity, p: RdfProperty, bean: Bean)
      returns (failure: Option<Failure>)
      modifies bean`values
      ensures Outcome(bean.values, failure)
           == Step(old(bean.values), p, PropertyLoad(iri, triples, entity, rdfJavaConverter, p))
    {
      if p.kind.IsSimpleProperty() {
        failure := LoadSimpleProperty(iri, triples, entity, p, bean);
      } else if p.kind.IsCollectionOfSimple() {
        failure := LoadCollectionOfSimpleProperties(iri, triples, entity, p, bean);
      } else {
        failure := None;
      }
    }

    /** The doWithAssociations callback: loads an association unless it is collection-like. */
    method AssociationCallback(iri: Iri, triples: seq<Triple>, entity: RdfEntity, a: RdfProperty, bean: Bean)
      returns (failure: Option<Failure>)
      modifies bean`values
      ensures Outcome(bean.values, failure)
           == Step(old(bean.values), a, AssociationLoad(iri, triples, entity, rdfJavaConverter, a))
    {
      if !a.kind.IsCollectionLike() {
        failure := LoadAssociation(iri, triples, entity, a, bean);
      } else {
        failure := None;
      }
    }

    /**
     * loadProperties: one query for the subject's triples, then the plain properties and
     * the single-valued associations in turn, as Materialize describes.
     */
    method LoadProperties(iri: Iri, bean: Bean) returns (failure: Option<Failure>)
      modifies queryService`queries, bean`values
      ensures queryService.queries == old(queryService.queries) + 1
      ensures var entity := mappingContext(bean.typeName);
        Outcome(bean.values, failure)
        == Materialize(iri, queryService.select(iri, entity.prefixMap), entity, rdfJavaConverter, old(bean.values))
    {
      var entity := mappingContext(bean.typeName);
      var triples := queryService.Query(iri, entity.prefixMap);
      ghost var initial := bean.values;
      ghost var loadProperty := PropertyLoader(iri, triples, entity, rdfJavaConverter);
      ghost var loadAssociation := AssociationLoader(iri, triples, entity, rdfJavaConverter);

      // load all simple properties and collections of simple properties
      var i := 0;
      while i < |entity.properties|
        invariant 0 <= i <= |entity.properties|
        invariant queryService.queries == old(queryService.queries) + 1
        invariant Pass(initial, entity.properties[..i], loadProperty) == Outcome(bean.values, None)
      {
        var p := entity.properties[i];
        PassExtend(initial, entity.properties, loadProperty, i);
        failure := PropertyCallback(iri, triples, entity, p, bean);
        if failure.Some? {
          PassStopsAfterFailure(initial, entity.properties, loadProperty, i + 1);
          return;
        }
        i := i + 1;
      }
      assert entity.properties[..i] == entity.properties;
      ghost var afterProperties := bean.values;

      // process the single-valued associations
      var j := 0;
      while j < |entity.associations|
        invariant 0 <= j <= |entity.associations|
        invariant queryService.queries == old(queryService.queries) + 1
        invariant Pass(afterProperties, entity.associations[..j], loadAssociation) == Outcome(bean.values, None)
      {
        var a := entity.associations[j];
        PassExtend(afterProperties, entity.associations, loadAssociation, j);
        failure := AssociationCallback(iri, triples, entity, a, bean);
        if failure.Some? {
          PassStopsAfterFailure(afterProperties, entity.associations, loadAssociation, j + 1);
          return;
        }
        j := j + 1;
      }
      assert entity.associations[..j] == entity.associations;
      failure := None;
    }
  }
}
