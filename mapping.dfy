/**
 * The mapping metadata and collaborators the template consumes as plain data: the
 * entity's prefix mapping, its persistent properties and associations, the RDF-to-Java
 * converter, the values assigned to bean properties, and the two exception kinds the
 * loaders throw.
 */
module Mapping {
  import opened Rdf

  type TypeName = string

  /** The entity's prefix mapping; only its expandPrefix operation is used. */
  datatype PrefixMapping = PrefixMapping(expandPrefix: string -> string)

  /**
   * What kind of persistent property a bean property is. The template asks an RdfProperty
   * isEntity(), isSimpleProperty(), isCollectionOfSimple() and isCollectionLike(); the
   * kinds below are the combinations of those answers that a property can have.
   */
  datatype PropertyKind =
    | Simple                // a single scalar (string, number, date, URL ...)
    | CollectionOfSimple    // a collection of scalars
    | Entity                // a reference to one other mapped bean
    | CollectionOfEntities  // a collection of references to mapped beans
    | Other                 // anything else (a map, a collection of unmapped objects ...)
  {
    predicate IsEntity() { Entity? || CollectionOfEntities? }

    predicate IsSimpleProperty() { Simple? }

    predicate IsCollectionOfSimple() { CollectionOfSimple? }

    predicate IsCollectionLike() { CollectionOfSimple? || CollectionOfEntities? }
  }

  /**
   * A persistent property of a mapped bean: its name, the prefix it was declared with,
   * the qualified predicate name it is matched against, its kind and its declared type
   * (for an association: the bean type to load for the referenced IRI).
   */
  datatype RdfProperty = RdfProperty(
    name: string,
    prefix: string,
    qName: Iri,
    kind: PropertyKind,
    typeName: TypeName)

  /**
   * A mapped bean type: its prefix mapping and, in the order the entity walks them, its
   * plain persistent properties and its associations (the two lists a Spring Data entity
   * walks with doWithProperties and doWithAssociations).
   */
  datatype RdfEntity = RdfEntity(
    typeName: TypeName,
    prefixMap: PrefixMapping,
    properties: seq<RdfProperty>,
    associations: seq<RdfProperty>)

  /** The names of a list of properties. */
  function Names(ps: seq<RdfProperty>): set<string> {
    set i | 0 <= i < |ps| :: ps[i].name
  }

  predicate DistinctNames(ps: seq<RdfProperty>) {
    forall i, j :: 0 <= i < j < |ps| ==> ps[i].name != ps[j].name
  }

  /**
   * What the model assumes of an entity from the mapping context: property names are
   * unique across both lists, plain properties are not entity-valued and associations are.
   */
  predicate WellFormed(e: RdfEntity) {
    && DistinctNames(e.properties + e.associations)
    && (forall p :: p in e.properties ==> !p.kind.IsEntity())
    && (forall a :: a in e.associations ==> a.kind.IsEntity())
  }

  /** A Java object produced by the converter, identified by its class and canonical text. */
  datatype JavaValue = JavaValue(javaClass: TypeName, text: string)

  /**
   * The RDF-to-Java converter: a convertibility probe and the conversion itself. Their
   * type-specific rules are not part of this model; convert is meaningful wherever
   * canConvert holds.
   */
  datatype RdfJavaConverter = RdfJavaConverter(
    canConvert: (Literal, RdfProperty) -> bool,
    convert: (Literal, RdfProperty) -> JavaValue)

  /** An unloaded proxy for the bean of the given type describing the given IRI. */
  datatype Handle = Handle(iri: Iri, typeName: TypeName)

  /** A value the template assigns to a bean property. */
  datatype PropertyValue =
    | Single(value: JavaValue)             // a simple property
    | ValueSet(values: set<JavaValue>)     // a collection of simple properties (a HashSet)
    | Reference(handle: Handle)            // a single-valued association

  /** The reason an IllegalStateException is thrown. */
  datatype IllegalStateReason =
    | CardinalityMismatch(iri: Iri, propertyName: string, prefix: string, found: nat)
    | NotUriObject(propertyName: string, observed: Node)

  /** The exceptions the loaders throw. */
  datatype Failure =
    | IllegalState(reason: IllegalStateReason)
    | UnsupportedOperation(propertyName: string, observed: Node)
}
