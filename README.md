# sparql-template: the entity-materialization engine, in Dafny

sparql-template maps Java beans to RDF resources. `SparqlTemplate.load(iri, type)` returns an
unloaded proxy bean for a subject IRI. The proxy intercepts the bean's getters, and the interceptor
(`DynamicBeanProxyInterceptor`, not part of this model) is what calls `loadProperties`. That method
queries the SPARQL endpoint once for every triple whose subject is the IRI. It then fills in the
bean's mapped properties:

- **Simple properties** (a string, a number, a date, a URL): exactly one matching triple must carry a
  convertible literal, which is converted.
- **Collections of simple properties**: every matching literal is converted and collected into a set.
- **Single-valued associations**: exactly one matching triple must carry a URI. The property gets a new,
  unloaded proxy for that URI.

A triple matches a property when its prefix-expanded predicate equals the property's qualified name and
its object is of the kind the property accepts (`filterForProperty`).

This project models that engine and proves what it promises:

- `rdf.dfy` (module `Rdf`): object nodes (literal, URI, blank) and triples.
- `mapping.dfy` (module `Mapping`): the data the engine consumes. This covers the entity's prefix
  mapping, its plain properties and associations (`RdfProperty`, `RdfEntity`) and the RDF-to-Java
  converter (a `canConvert` probe and `convert`). It also covers the values assigned to bean properties,
  the unloaded proxy (`Handle`: an IRI and a bean type) and the two exceptions thrown
  (`IllegalStateException` with its reason, and `UnsupportedOperationException`).
- `matching.dfy` (module `Matching`): `filterForProperty` as a pure function, with what it keeps.
- `loaders.dfy` (module `Loaders`): the value or exception each of the three loaders produces for one
  property, as functions, with lemmas about cardinality, unreachable checks and duplicate values.
- `materialization.dfy` (module `Materialization`): `loadProperties` after its query, as a two-pass fold
  over the entity's properties and associations. Lemmas cover order, aborting, skipping and the write
  frame.
- `template.dfy` (module `Template`): the imperative side. `Bean` holds the property state that the
  accessor writes. `SparqlQueryService` is the endpoint, with a ghost query counter. `SparqlTemplate`
  has `load`, the three loaders and `loadProperties` as methods. Each method is proved to produce exactly
  the state and exception that the functions above describe.
- `scenario.dfy` (module `Scenario`): a worked client on concrete data. A person has a birth name, a
  birth year, a repeated hobby, a citizenship and a collection of spouses. The proofs show what
  `loadProperties` leaves on the person's bean and on the bean of the country it points to, and that
  loading the person issues no query while each `loadProperties` issues one.

Prefix expansion, `canConvert`, `convert` and the endpoint's answer are uninterpreted functions. They
are supplied as function-valued fields.

Three behaviours of the code worth noting:

- An association whose single matching object is not a URI raises `IllegalStateException`
  (`NotUriObject`), not a separate type-mismatch error. Given the filter, this check can never fire
  for an association anyway.
- A loader exception in `loadProperties` does not roll back the properties already assigned: the bean
  keeps every value set before the failing property (`PassAborted`).
- Collection-valued associations are skipped silently, not rejected (`CollectionAssociationsSkipped`).

## Model

| member | source | states |
|---|---|---|
| `Matching.Selects` | src/main/java/ch/unil/sparql/template/SparqlTemplate.java:189-211 | a selected triple has the property's qualified name as expanded predicate and never a blank-node object; a property of any kind other than simple, collection of simple or entity selects nothing |
| `Matching.FilterForProperty` | src/main/java/ch/unil/sparql/template/SparqlTemplate.java:188-213 | the result is no longer than the input, and a triple is in it exactly when it is in the input and passes the selection test (expanded predicate equals the qualified name; URI object for entity-valued properties; convertible literal for simple ones and collections of simple ones; nothing for any other kind) |
| `Matching.FilterMultiplicity` | src/main/java/ch/unil/sparql/template/SparqlTemplate.java:188-189 | the selection holds each selected triple exactly as often as the input and no other triple, so it is a sub-collection of the input |
| `Matching.FilterKeepsOnlyMatches` | src/main/java/ch/unil/sparql/template/SparqlTemplate.java:190-210 | every kept triple has the property's qualified name as expanded predicate; entity-valued properties keep only URI objects; simple properties and collections of them keep only literals that `canConvert` accepts; other kinds keep nothing |
| `Matching.UnconvertibleLiteralIsIgnored` | src/main/java/ch/unil/sparql/template/SparqlTemplate.java:202-205 | inserting a matching-predicate literal that `canConvert` rejects anywhere in the input leaves the selection unchanged, so it counts as "not found" and never becomes a conversion error |
| `Matching.ExactlyOneMatch` | src/main/java/ch/unil/sparql/template/SparqlTemplate.java:90-97 | the selection is `[t]` exactly when `t` is the one and only selected triple of the input (it occurs once and every selected triple equals it) |
| `Loaders.SimpleValue` | src/main/java/ch/unil/sparql/template/SparqlTemplate.java:85-108 | a selection size other than one throws the cardinality `IllegalStateException` (IRI, property, prefix, count found); for simple properties, success holds exactly when one triple matches; a success is the converted literal of the input's unique matching triple |
| `Loaders.SimplePropertyLoaded` | src/main/java/ch/unil/sparql/template/SparqlTemplate.java:97-107 | conversely, if a simple property has a unique matching triple, the value is `convert` of its literal (the literal check at 101 cannot fail) |
| `Loaders.AssociationValue` | src/main/java/ch/unil/sparql/template/SparqlTemplate.java:110-134 | a selection size other than one throws the cardinality `IllegalStateException`; for entity-valued properties, success holds exactly when one triple matches; a success is a new unloaded handle for the object IRI of the unique matching triple, with the association's declared type |
| `Loaders.AssociationLoaded` | src/main/java/ch/unil/sparql/template/SparqlTemplate.java:125-133 | conversely, if an association has a unique matching triple, the value is the handle for its object IRI (the URI check at 128 cannot fail) |
| `Loaders.ConvertEach` | src/main/java/ch/unil/sparql/template/SparqlTemplate.java:141-156 | the loop succeeds exactly when every matched object is a literal, with the set of their converted values; otherwise it throws `UnsupportedOperationException` naming a non-literal object of the input |
| `Loaders.ConvertEachStopsAtFirst` | src/main/java/ch/unil/sparql/template/SparqlTemplate.java:143-151 | the exception names the first non-literal object in iteration order |
| `Loaders.CollectionValue` | src/main/java/ch/unil/sparql/template/SparqlTemplate.java:136-169 | never a cardinality error; for a collection of simple properties the value is always the set of converted literals of all matching input triples (empty when none match) |
| `Loaders.RepeatedValueCollapses` | src/main/java/ch/unil/sparql/template/SparqlTemplate.java:141-154 | adding a matching triple whose literal converts to a value already collected leaves the collection unchanged: duplicates collapse in the `HashSet` |
| `Materialization.Step` | src/main/java/ch/unil/sparql/template/SparqlTemplate.java:63-80 | one callback invocation: it throws exactly when the property's loader throws, and then the values are untouched; otherwise it only adds or overwrites the property's own entry, never removing one |
| `Materialization.Pass` | src/main/java/ch/unil/sparql/template/SparqlTemplate.java:63-80 | iterating a callback over a property list, stopping at the first exception: no property assigned before the pass is ever unassigned |
| `Materialization.PropertyLoad` | src/main/java/ch/unil/sparql/template/SparqlTemplate.java:63-71 | the doWithProperties callback loads exactly the simple properties and collections of simple ones; a simple property loads exactly when one triple is selected; a collection of simple ones always loads, as a set |
| `Materialization.AssociationLoad` | src/main/java/ch/unil/sparql/template/SparqlTemplate.java:74-80 | the doWithAssociations callback loads exactly the associations that are not collection-like; a single-valued entity association loads exactly when one triple is selected |
| `Materialization.Materialize` | src/main/java/ch/unil/sparql/template/SparqlTemplate.java:55-82 | `loadProperties` after its query (the property pass, then the association pass unless the first threw) never unassigns a property the bean already had |
| `Materialization.PassCompleted` | src/main/java/ch/unil/sparql/template/SparqlTemplate.java:63-71 | a pass over properties completes exactly when none of its loaders throws; then every property with a loader holds its loader's value and every skipped property keeps its old value |
| `Materialization.PassAborted` | src/main/java/ch/unil/sparql/template/SparqlTemplate.java:63-71 | a pass that throws stopped at some property `k`: everything before `k` loaded or was skipped, `k`'s loader threw that exception, and the values are those left before `k`, so `k` and every property after it keep the values they had before the pass (given distinct names) |
| `Materialization.PassStopsAfterFailure` | src/main/java/ch/unil/sparql/template/SparqlTemplate.java:63-71 | once a prefix of the properties has thrown, the remaining properties change nothing |
| `Materialization.PassFrame` | src/main/java/ch/unil/sparql/template/SparqlTemplate.java:63-80 | a pass writes only the names of the properties it walks |
| `Materialization.PassKeepsSkipped` | src/main/java/ch/unil/sparql/template/SparqlTemplate.java:74-80 | a property the pass skips keeps its value however the pass ends |
| `Materialization.MaterializeFrame` | src/main/java/ch/unil/sparql/template/SparqlTemplate.java:55-83 | `loadProperties` writes no bean property outside the entity's declared properties and associations |
| `Materialization.MaterializeLoadsEveryProperty` | src/main/java/ch/unil/sparql/template/SparqlTemplate.java:62-80 | for an entity whose property names are distinct, `loadProperties` succeeds exactly when no simple, collection or single-valued association loader throws; then each such property holds its loader's value and every other property is as it was |
| `Materialization.PropertiesBeforeAssociations` | src/main/java/ch/unil/sparql/template/SparqlTemplate.java:62-80 | for an entity whose property names are distinct, when a plain property throws, the exception is that property's and no association has been assigned |
| `Materialization.CollectionAssociationsSkipped` | src/main/java/ch/unil/sparql/template/SparqlTemplate.java:76-78 | for an entity whose property names are distinct, a collection-like association is never assigned, whether `loadProperties` succeeds or throws |
| `Materialization.OnlyCardinalityFailures` | src/main/java/ch/unil/sparql/template/SparqlTemplate.java:101-131 | for a well-formed entity the only exception `loadProperties` can throw is the cardinality `IllegalStateException`: the literal checks (101-104, 148-151) and the URI check (128-131) are unreachable |
| `Template.Bean.SetProperty` | src/main/java/ch/unil/sparql/template/SparqlTemplate.java:107 | assigns the given property and leaves every other property unchanged |
| `Template.SparqlQueryService.Query` | src/main/java/ch/unil/sparql/template/SparqlTemplate.java:60 | returns the endpoint's triples for the subject and counts one query |
| `Template.SparqlTemplate.Load` | src/main/java/ch/unil/sparql/template/SparqlTemplate.java:50-53 | returns a handle for the given IRI and type and issues no query |
| `Template.SparqlTemplate.LoadSimpleProperty` | src/main/java/ch/unil/sparql/template/SparqlTemplate.java:85-108 | assigns exactly the value `SimpleValue` gives, or throws its exception and changes nothing |
| `Template.SparqlTemplate.LoadAssociation` | src/main/java/ch/unil/sparql/template/SparqlTemplate.java:110-134 | assigns exactly the handle `AssociationValue` gives, or throws its exception and changes nothing; issues no query |
| `Template.SparqlTemplate.LoadCollectionOfSimpleProperties` | src/main/java/ch/unil/sparql/template/SparqlTemplate.java:136-169 | the loop builds exactly the set `CollectionValue` gives and assigns it, or throws at the first non-literal and changes nothing |
| `Template.SparqlTemplate.PropertyCallback` | src/main/java/ch/unil/sparql/template/SparqlTemplate.java:63-71 | the bean and the exception after one doWithProperties invocation are exactly `Step` of the old values with `PropertyLoad`'s outcome for that property |
| `Template.SparqlTemplate.AssociationCallback` | src/main/java/ch/unil/sparql/template/SparqlTemplate.java:74-80 | the bean and the exception after one doWithAssociations invocation are exactly `Step` of the old values with `AssociationLoad`'s outcome for that association |
| `Template.SparqlTemplate.LoadProperties` | src/main/java/ch/unil/sparql/template/SparqlTemplate.java:55-83 | issues exactly one query however many properties the entity has, and leaves the bean and the exception exactly as `Materialize` describes (plain properties first, then single-valued associations, first exception aborting) |
| `Scenario.HobbyLoads` | src/main/java/ch/unil/sparql/template/SparqlTemplate.java:136-169 | the hobbies "chess", "reading", "chess" load as a set of exactly two values |
| `Scenario.PersonLoads` | src/main/java/ch/unil/sparql/template/SparqlTemplate.java:55-83 | on the person, `loadProperties` throws nothing and assigns exactly the birth name, the birth year, the two hobbies and an unloaded handle for the country; the spouses stay unassigned |
| `Scenario.CountryLoads` | src/main/java/ch/unil/sparql/template/SparqlTemplate.java:55-83 | on the country the handle points to, `loadProperties` throws nothing and assigns exactly its common name |

## Left out

- `createDynamicProxy` (ByteBuddy runtime subclassing) and the proxy's interceptor. The interceptor decides when `loadProperties` runs and what it caches, and it is not part of this model. A proxy is the value `Handle(iri, type)`. The "load on first access, then cache" protocol, handle identity and retries are not modelled.
- `SparqlQueryService.query` is a network call. It is a fixed function of the IRI and prefix mapping plus a ghost counter. Transport errors and an endpoint that answers differently over time are not modelled.
- `RdfJavaConverter.canConvert` and `convert` hold type-specific parsing (dates, URLs, integers). They are uninterpreted, and `convert` is total. A conversion that throws despite `canConvert` holding is not modelled.
- `PrefixMapping.expandPrefix` is an uninterpreted function of the predicate URI.
- `WellFormed`: its kind clauses (plain properties are not entity-valued, associations are) are assumed about `RdfProperty` and the mapping context, which are not part of this model; `OnlyCardinalityFailures` relies on them.
- The Spring Data mapping context, the property accessor and reflection are replaced by plain data: `RdfEntity`, a type-to-entity function and the `Bean` state map. The property kinds are taken as mutually exclusive.
- The `CollectionUtils.transform` cast is the identity on values and is not modelled.
- The constructors and `Utils.defaultPrefixMap` only wire configuration. `SparqlTemplate`'s constructor takes the collaborators directly.
- The `PrefixMap` annotation and the test beans are schema declarations with no logic.
- Exception messages are modelled by the data they carry (IRI, property name, prefix, count, observed node), not as text.
- The triples come back from the endpoint as an unordered collection. The model takes them in one given order, which matters only for which non-literal object is reported first.
- Concurrency is not modelled: the source has no locking, and the model is single-threaded.
