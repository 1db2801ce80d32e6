/**
 * What each property loader of SparqlTemplate computes for one property of one subject:
 * the value it assigns, or the exception it throws. The template's loader methods are
 * proved to assign exactly these values.
 */
module Loaders {
  import opened Wrappers
  import opened Rdf
  import opened Mapping
  import opened Matching

  /**
   * loadSimpleProperty: exactly one triple must be selected, and its object must be a
   * literal, which is converted. The literal check cannot fail for a simple property (nor
   * for a collection of simple properties), so for those kinds the only failure is the
   * cardinality one, and a success is the converted literal of the one matching triple.
   */
  function SimpleValue(iri: Iri, triples: seq<Triple>, entity: RdfEntity, p: RdfProperty,
                       converter: RdfJavaConverter): (r: Result<PropertyValue, Failure>)
    ensures var found := |FilterForProperty(triples, p, entity.prefixMap, converter)|;
      found != 1 ==> r == Failure(IllegalState(CardinalityMismatch(iri, p.name, p.prefix, found)))
    ensures p.kind.IsSimpleProperty() || p.kind.IsCollectionOfSimple() ==>
      (r.Success? <==> |FilterForProperty(triples, p, entity.prefixMap, converter)| == 1)
    ensures r.Success? ==> exists t :: UniqueMatch(triples, p, entity.prefixMap, converter, t)
                                     && t.objectNode.LiteralNode?
                                     && r.value == Single(converter.convert(t.objectNode.literal, p))
  {
    var matching := FilterForProperty(triples, p, entity.prefixMap, converter);
    if |matching| != 1 then
      Failure(IllegalState(CardinalityMismatch(iri, p.name, p.prefix, |matching|)))
    else
      var t := matching[0];
      ExactlyOneMatch(triples, p, entity.prefixMap, converter, t);
      if !t.objectNode.LiteralNode? then
        Failure(UnsupportedOperation(p.name, t.objectNode))
      else
        Success(Single(converter.convert(t.objectNode.literal, p)))
  }

  /**
   * loadAssociation: exactly one triple must be selected, and its object must be a URI,
   * for which a new unloaded handle of the association's type is created. The URI check
   * cannot fail for an entity-valued property, so for those the only failure is the
   * cardinality one, and a success refers to the object IRI of the one matching triple.
   */
  function AssociationValue(iri: Iri, triples: seq<Triple>, entity: RdfEntity, p: RdfProperty,
                            converter: RdfJavaConverter): (r: Result<PropertyValue, Failure>)
    ensures var found := |FilterForProperty(triples, p, entity.prefixMap, converter)|;
      found != 1 ==> r == Failure(IllegalState(CardinalityMismatch(iri, p.name, p.prefix, found)))
    ensures p.kind.IsEntity() ==>
      (r.Success? <==> |FilterForProperty(triples, p, entity.prefixMap, converter)| == 1)
    ensures r.Success? ==> exists t :: UniqueMatch(triples, p, entity.prefixMap, converter, t)
                                     && t.objectNode.UriNode?
                                     && r.value == Reference(Handle(t.objectNode.uri, p.typeName))
  {
    var matching := FilterForProperty(triples, p, entity.prefixMap, converter);
    if |matching| != 1 then
      Failure(IllegalState(CardinalityMismatch(iri, p.name, p.prefix, |matching|)))
    else
      var t := matching[0];
      ExactlyOneMatch(triples, p, entity.prefixMap, converter, t);
      if !t.objectNode.UriNode? then
        Failure(IllegalState(NotUriObject(p.name, t.objectNode)))
      else
        Success(Reference(Handle(t.objectNode.uri, p.typeName)))
  }

  /** The converted values of the literal objects among ts. */
  function ConvertedValues(ts: seq<Triple>, p: RdfProperty, converter: RdfJavaConverter): set<JavaValue> {
    set t | t in ts && t.objectNode.LiteralNode? :: converter.convert(t.objectNode.literal, p)
  }

  /**
   * The loop of loadCollectionOfSimpleProperties: walk the triples in order, stop with an
   * UnsupportedOperationException at the first object that is not a literal, and
   * otherwise collect the converted values into a set.
   */
  function ConvertEach(ts: seq<Triple>, p: RdfProperty, converter: RdfJavaConverter): (r: Result<set<JavaValue>, Failure>)
    ensures r.Success? <==> forall t :: t in ts ==> t.objectNode.LiteralNode?
    ensures r.Success? ==> r.value == ConvertedValues(ts, p, converter)
    ensures r.Failure? ==> exists t :: t in ts && !t.objectNode.LiteralNode?
                                    && r.error == UnsupportedOperation(p.name, t.objectNode)
  {
    if ts == [] then
      Success({})
    else if !ts[0].objectNode.LiteralNode? then
      Failure(UnsupportedOperation(p.name, ts[0].objectNode))
    else
      match ConvertEach(ts[1..], p, converter)
      case Failure(e) => Failure(e)
      case Success(rest) =>
        assert ts == [ts[0]] + ts[1..];
        Success({converter.convert(ts[0].objectNode.literal, p)} + rest)
  }

  /**
   * loadCollectionOfSimpleProperties: never a cardinality error. For a collection of
   * simple properties the value is the set of converted literals of all the input's
   * matching triples: no match gives the empty set, and matches converting to the same
   * value count once.
   */
  function CollectionValue(iri: Iri, triples: seq<Triple>, entity: RdfEntity, p: RdfProperty,
                           converter: RdfJavaConverter): (r: Result<PropertyValue, Failure>)
    ensures r.Failure? ==> r.error.UnsupportedOperation?
    ensures p.kind.IsSimpleProperty() || p.kind.IsCollectionOfSimple() ==>
      r == Success(ValueSet(set t | t in triples && Selects(t, p, entity.prefixMap, converter) && t.objectNode.LiteralNode?
                              :: converter.convert(t.objectNode.literal, p)))
  {
    var matching := FilterForProperty(triples, p, entity.prefixMap, converter);
    match ConvertEach(matching, p, converter)
    case Failure(e) => Failure(e)
    case Success(values) =>
      SelectedValues(triples, p, entity.prefixMap, converter);
      Success(ValueSet(values))
  }

  /** Converting the selection is converting the input's selected literals. */
  lemma SelectedValues(triples: seq<Triple>, p: RdfProperty, prefixMap: PrefixMapping, converter: RdfJavaConverter)
    ensures ConvertedValues(FilterForProperty(triples, p, prefixMap, converter), p, converter)
         == set t | t in triples && Selects(t, p, prefixMap, converter) && t.objectNode.LiteralNode?
                  :: converter.convert(t.objectNode.literal, p)
  {
  }

  /** Conversely: a simple property with one matching triple is that triple's converted literal. */
  lemma SimplePropertyLoaded(iri: Iri, triples: seq<Triple>, entity: RdfEntity, p: RdfProperty,
                             converter: RdfJavaConverter, t: Triple)
    requires p.kind.IsSimpleProperty() || p.kind.IsCollectionOfSimple()
    requires UniqueMatch(triples, p, entity.prefixMap, converter, t)
    ensures t.objectNode.LiteralNode?
    ensures SimpleValue(iri, triples, entity, p, converter) == Success(Single(converter.convert(t.objectNode.literal, p)))
  {
    ExactlyOneMatch(triples, p, entity.prefixMap, converter, t);
  }

  /** Conversely: an association with one matching triple refers to that triple's object IRI. */
  lemma AssociationLoaded(iri: Iri, triples: seq<Triple>, entity: RdfEntity, p: RdfProperty,
                          converter: RdfJavaConverter, t: Triple)
    requires p.kind.IsEntity()
    requires UniqueMatch(triples, p, entity.prefixMap, converter, t)
    ensures t.objectNode.UriNode?
    ensures AssociationValue(iri, triples, entity, p, converter) == Success(Reference(Handle(t.objectNode.uri, p.typeName)))
  {
    ExactlyOneMatch(triples, p, entity.prefixMap, converter, t);
  }

  /**
   * A further matching triple whose literal converts to a value already collected leaves
   * the collection unchanged: repeated values are not multiplicity.
   */
  lemma RepeatedValueCollapses(iri: Iri, triples: seq<Triple>, entity: RdfEntity, p: RdfProperty,
                               converter: RdfJavaConverter, t: Triple, u: Triple)
    requires p.kind.IsCollectionOfSimple()
    requires t in triples && Selects(t, p, entity.prefixMap, converter)
    requires u.objectNode.LiteralNode? && t.objectNode.LiteralNode?
    requires converter.convert(u.objectNode.literal, p) == converter.convert(t.objectNode.literal, p)
    ensures CollectionValue(iri, triples + [u], entity, p, converter) == CollectionValue(iri, triples, entity, p, converter)
  {
    var before := CollectionValue(iri, triples, entity, p, converter);
    var after := CollectionValue(iri, triples + [u], entity, p, converter);
    assert t in triples + [u];
    forall w | w in triples + [u] ensures w in triples || w == u {
    }
    assert after.value.values == before.value.values;
  }

  /**
   * The conversion loop stops at the first object that is not a literal: if the first i
   * triples are literals and the next is not, that triple's object is the one reported.
   */
  lemma {:induction false} ConvertEachStopsAtFirst(ts: seq<Triple>, p: RdfProperty, converter: RdfJavaConverter, i: nat)
    requires i < |ts| && !ts[i].objectNode.LiteralNode?
    requires forall j :: 0 <= j < i ==> ts[j].objectNode.LiteralNode?
    ensures ConvertEach(ts, p, converter) == Failure(UnsupportedOperation(p.name, ts[i].objectNode))
  {
    if i > 0 {
      ConvertEachStopsAtFirst(ts[1..], p, converter, i - 1);
    }
  }
}
